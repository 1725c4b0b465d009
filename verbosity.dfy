/** Verbosity levels of the simulator's log (the `sim_verbosity_*` constants),
    the decoration of a log line with its origin and level, the parsing of a
    level name, and the global console/statusbar thresholds. */
module Verbosity {

  import opened Wrappers

  /** The numeric values of the `sim_verbosity_*` constants. The header that
      fixes them is not part of this model, so every operation that needs them
      takes them as a parameter, and what the code relies on about their order
      is stated once, by `Ordered`. */
  datatype Levels = Levels(
    useGlobal: int,
    none: int,
    errors: int,
    warnings: int,
    msgs: int,
    loadInfos: int,
    infos: int,
    debug: int,
    trace: int,
    traceLua: int,
    traceAll: int,
    defaultLevel: int)

  /** The ten named levels, in the order in which the code lists them. */
  function NamedLevels(L: Levels): seq<int>
  {
    [L.none, L.errors, L.warnings, L.msgs, L.loadInfos,
     L.infos, L.debug, L.trace, L.traceLua, L.traceAll]
  }

  /** The name of each level, index for index with `NamedLevels`. */
  const LevelNames: seq<string> :=
    ["none", "errors", "warnings", "msgs", "loadinfos",
     "infos", "debug", "trace", "tracelua", "traceall"]

  /** The tag that decorates a message of each level; `none` has no tag. */
  const LevelTags: seq<string> :=
    ["", "error: ", "warning: ", "msg: ", "loadinfo: ",
     "info: ", "debug: ", "trace: ", "tracelua: ", "traceall: "]

  /** What the code assumes of the constants: the ten named levels are
      distinct and all ten are greater than -1 (the "unknown"/"use the global
      value" sentinel of `getVerbosityLevelFromString` and `_logMsg`), `none` <
      `errors` < `warnings` < every other named level (a threshold admits a
      message when it is numerically at least the message's level), and
      `useGlobal` is not a named level. */
  predicate Ordered(L: Levels)
  {
    var n := NamedLevels(L);
    && -1 < L.none < L.errors < L.warnings
    && (forall i :: 3 <= i < 10 ==> L.warnings < n[i])
    && (forall i, j :: 0 <= i < j < 10 ==> n[i] != n[j])
    && L.useGlobal !in n
  }

  /** The level tag appended by `_getDecoratedLogMsg`: one independent test
      per level, each appending its tag when the level matches. */
  function LevelTag(L: Levels, level: int): string
  {
    (if level == L.errors then "error: " else "")
    + (if level == L.warnings then "warning: " else "")
    + (if level == L.msgs then "msg: " else "")
    + (if level == L.loadInfos then "loadinfo: " else "")
    + (if level == L.infos then "info: " else "")
    + (if level == L.debug then "debug: " else "")
    + (if level == L.trace then "trace: " else "")
    + (if level == L.traceLua then "tracelua: " else "")
    + (if level == L.traceAll then "traceall: " else "")
  }

  /** Who a log line comes from: the plugin's name, or the simulator itself
      when no plugin name is given. */
  function SourcePrefix(pluginName: Option<string>): string
  {
    match pluginName
    case Some(name) => name + ": "
    case None => "CoppeliaSim: "
  }

  /** `_getDecoratedLogMsg`: origin, then level tag, then the message. */
  function DecoratedLogMsg(L: Levels, pluginName: Option<string>, level: int, msg: string): (r: string)
    ensures |r| >= |SourcePrefix(pluginName)| + |msg|
    ensures r[|r| - |msg|..] == msg
  {
    SourcePrefix(pluginName) + LevelTag(L, level) + msg
  }

  /** `getVerbosityLevelFromString`: exact, case-sensitive name lookup;
      -1 for every other string. */
  function LevelFromString(L: Levels, s: string): (level: int)
    ensures level == -1 || level in NamedLevels(L)
    ensures s !in LevelNames ==> level == -1
  {
    if s == "none" then L.none
    else if s == "errors" then L.errors
    else if s == "warnings" then L.warnings
    else if s == "msgs" then L.msgs
    else if s == "loadinfos" then L.loadInfos
    else if s == "infos" then L.infos
    else if s == "debug" then L.debug
    else if s == "trace" then L.trace
    else if s == "tracelua" then L.traceLua
    else if s == "traceall" then L.traceAll
    else -1
  }

  /** A console threshold and a statusbar threshold: the global pair, or one
      plugin's own pair (where `useGlobal` stands for "take the global one"). */
  datatype Thresholds = Thresholds(console: int, statusbar: int)

  /** Whether a message of `level` would reach the console or the statusbar
      under the global thresholds (`getConsoleOrStatusbarVerbosityTriggered`
      and the gate of `logMsg`). */
  predicate Triggered(g: Thresholds, level: int)
    ensures Triggered(g, level) <==> level <= (if g.console >= g.statusbar then g.console else g.statusbar)
  {
    g.console >= level || g.statusbar >= level
  }

  /** Under `Ordered`, each named level gets exactly its own tag: the nine
      independent tests never fire twice. */
  lemma LevelTagOfNamed(L: Levels, i: int)
    requires Ordered(L) && 0 <= i < 10
    ensures LevelTag(L, NamedLevels(L)[i]) == LevelTags[i]
  {
    var n := NamedLevels(L);
    forall j | 0 <= j < 10 && j != i
      ensures n[i] != n[j]
    {
      LevelsDistinct(L, i, j);
    }
    assert (i == 0 || n[i] != n[0]) && (i == 1 || n[i] != n[1]) && (i == 2 || n[i] != n[2])
      && (i == 3 || n[i] != n[3]) && (i == 4 || n[i] != n[4]) && (i == 5 || n[i] != n[5])
      && (i == 6 || n[i] != n[6]) && (i == 7 || n[i] != n[7]) && (i == 8 || n[i] != n[8])
      && (i == 9 || n[i] != n[9]);
  }

  /** Distinct indices name distinct levels. */
  lemma LevelsDistinct(L: Levels, i: int, j: int)
    requires Ordered(L) && 0 <= i < 10 && 0 <= j < 10 && i != j
    ensures NamedLevels(L)[i] != NamedLevels(L)[j]
  {
    var n := NamedLevels(L);
    if i < j { assert n[i] != n[j]; } else { assert n[j] != n[i]; }
  }

  /** A level that is not one of the ten named ones gets no tag. */
  lemma LevelTagOfUnnamed(L: Levels, level: int)
    requires level !in NamedLevels(L)
    ensures LevelTag(L, level) == ""
  {
  }

  /** The decorated message is the origin prefix, the level's tag (none for
      an unnamed level) and the message, so it always ends with the message. */
  lemma DecoratedLogMsgShape(L: Levels, pluginName: Option<string>, level: int, msg: string)
    requires Ordered(L)
    ensures var r := DecoratedLogMsg(L, pluginName, level, msg);
      && |r| >= |SourcePrefix(pluginName)| + |msg|
      && r[..|SourcePrefix(pluginName)|] == SourcePrefix(pluginName)
      && r[|r| - |msg|..] == msg
      && (forall i :: 0 <= i < 10 && level == NamedLevels(L)[i] ==>
            r == SourcePrefix(pluginName) + LevelTags[i] + msg)
      && (level !in NamedLevels(L) ==> r == SourcePrefix(pluginName) + msg)
  {
    var r := DecoratedLogMsg(L, pluginName, level, msg);
    var p := SourcePrefix(pluginName);
    var t := LevelTag(L, level);
    assert r == p + t + msg;
    assert r[..|p|] == p;
    assert r[|r| - |msg|..] == msg;
    forall i | 0 <= i < 10 && level == NamedLevels(L)[i]
      ensures r == p + LevelTags[i] + msg
    {
      LevelTagOfNamed(L, i);
    }
    if level !in NamedLevels(L) {
      LevelTagOfUnnamed(L, level);
    }
  }

  /** `getVerbosityLevelFromString` maps exactly the ten names to their
      levels: each name to its own level, and every other string to -1. */
  lemma LevelFromStringExact(L: Levels, s: string)
    requires Ordered(L)
    ensures forall i :: 0 <= i < 10 ==> LevelFromString(L, LevelNames[i]) == NamedLevels(L)[i]
    ensures LevelFromString(L, s) == -1 <==> s !in LevelNames
    ensures forall i :: 0 <= i < 10 && LevelFromString(L, s) == NamedLevels(L)[i] ==> s == LevelNames[i]
  {
    var n := NamedLevels(L);
    forall i | 0 <= i < 10 && LevelFromString(L, s) == n[i]
      ensures s == LevelNames[i]
    {
      assert s in LevelNames;
      var k :| 0 <= k < 10 && s == LevelNames[k];
      assert LevelFromString(L, s) == n[k];
      if k != i {
        LevelsDistinct(L, i, k);
        assert false;
      }
    }
  }
}
