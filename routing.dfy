/** Where a log message goes: the decision of `_logMsg` between the console
    and the statusbar, the gate in front of it in `logMsg`, the per-plugin
    thresholds of `logPluginMsg` and of the verbosity getters and setters,
    and the `@html` marker that `addStatusbarMessage` strips again. */
module Routing {

  import opened Wrappers
  import opened Verbosity

  /** What one call delivers: the console line, and the text handed to
      `addStatusbarMessage`, each absent when that sink is not reached. */
  datatype Delivery = Delivery(console: Option<string>, statusbar: Option<string>)

  const Nothing: Delivery := Delivery(None, None)

  /** The suffix that marks a statusbar text as HTML. */
  const HtmlMarker: string := "@html"

  /** The opening colour tag of a statusbar message of `level` when it is a
      warning or an error. */
  function FontTag(L: Levels, level: int): string
  {
    if level == L.warnings then "<font color='orange'>" else "<font color='red'>"
  }

  /** The statusbar form of a message: plain above `warnings`, otherwise
      wrapped in a colour tag and marked as HTML. */
  function StatusbarText(L: Levels, level: int, msg: string): string
  {
    if level > L.warnings then msg
    else FontTag(L, level) + msg + "</font>" + HtmlMarker
  }

  /** The routing of `_logMsg`. A threshold argument of -1 stands for the
      corresponding global threshold. */
  function LogRoute(L: Levels, globals: Thresholds, level: int, msg: string, forbidStatusbar: bool,
                    consoleVerbosity: int, statusbarVerbosity: int,
                    uiThreadUp: bool, simThreadUp: bool): (d: Delivery)
    ensures d.console.Some? <==>
      (if consoleVerbosity == -1 then globals.console else consoleVerbosity) >= level
    ensures d.console.Some? ==> d.console.value == msg
    ensures d.statusbar.Some? <==>
      && (if statusbarVerbosity == -1 then globals.statusbar else statusbarVerbosity) >= level
      && !forbidStatusbar && uiThreadUp && simThreadUp
    ensures d.statusbar.Some? ==> d.statusbar.value == StatusbarText(L, level, msg)
  {
    var consoleV := if consoleVerbosity == -1 then globals.console else consoleVerbosity;
    var statusbarV := if statusbarVerbosity == -1 then globals.statusbar else statusbarVerbosity;
    Delivery(
      if consoleV >= level then Some(msg) else None,
      if statusbarV >= level && !forbidStatusbar && uiThreadUp && simThreadUp
      then Some(StatusbarText(L, level, msg)) else None)
  }

  /** `logMsg` (without substitutions): decorate, then route with the global
      thresholds, but only when one of them admits the level. */
  function LogMsg(L: Levels, globals: Thresholds, level: int, msg: string,
                  uiThreadUp: bool, simThreadUp: bool): (d: Delivery)
    ensures !Triggered(globals, level) ==> d == Nothing
    ensures d.console.Some? <==> globals.console >= level
    ensures d.console.Some? ==> d.console.value == DecoratedLogMsg(L, None, level, msg)
    ensures d.statusbar.Some? <==> globals.statusbar >= level && uiThreadUp && simThreadUp
  {
    if Triggered(globals, level)
    then LogRoute(L, globals, level, DecoratedLogMsg(L, None, level, msg), false, -1, -1, uiThreadUp, simThreadUp)
    else Nothing
  }

  /** The gate in `logMsg` never changes what is delivered: when neither
      global threshold admits the level, `_logMsg` would have delivered
      nothing anyway. */
  lemma LogMsgGateIsTransparent(L: Levels, globals: Thresholds, level: int, msg: string,
                                uiThreadUp: bool, simThreadUp: bool)
    ensures LogMsg(L, globals, level, msg, uiThreadUp, simThreadUp)
         == LogRoute(L, globals, level, DecoratedLogMsg(L, None, level, msg), false, -1, -1, uiThreadUp, simThreadUp)
  {
    var d := LogRoute(L, globals, level, DecoratedLogMsg(L, None, level, msg), false, -1, -1, uiThreadUp, simThreadUp);
    if !Triggered(globals, level) {
      assert d.console.None? && d.statusbar.None?;
    }
  }

  // ----- verbosity thresholds, global and per plugin -----

  /** The two sinks a threshold governs. */
  datatype Sink = Console | Statusbar

  function ThresholdOf(t: Thresholds, sink: Sink): int
  {
    match sink
    case Console => t.console
    case Statusbar => t.statusbar
  }

  function WithThreshold(t: Thresholds, sink: Sink, v: int): Thresholds
  {
    match sink
    case Console => t.(console := v)
    case Statusbar => t.(statusbar := v)
  }

  /** A plugin's own threshold, or the global one when the plugin defers to it. */
  function Resolve(L: Levels, own: int, global: int): int
  {
    if own == L.useGlobal then global else own
  }

  /** `getConsoleVerbosity` / `getStatusbarVerbosity`: the named plugin's own
      threshold for `sink`, unless no name is given, the plugin is unknown,
      or it defers to the global threshold. */
  function EffectiveVerbosity(L: Levels, globals: Thresholds, plugins: map<string, Thresholds>,
                              sink: Sink, name: Option<string>): (v: int)
    ensures name.None? ==> v == ThresholdOf(globals, sink)
    ensures v != ThresholdOf(globals, sink) ==>
      name.Some? && name.value in plugins && v == ThresholdOf(plugins[name.value], sink) && v != L.useGlobal
    ensures name.Some? && name.value in plugins && ThresholdOf(plugins[name.value], sink) != L.useGlobal ==>
      v == ThresholdOf(plugins[name.value], sink)
  {
    if name.Some? && name.value in plugins
    then Resolve(L, ThresholdOf(plugins[name.value], sink), ThresholdOf(globals, sink))
    else ThresholdOf(globals, sink)
  }

  /** `setConsoleVerbosity` / `setStatusbarVerbosity`: with a name, set that
      plugin's threshold (nothing when the plugin is unknown); without, set
      the global one. Returns the new globals and the new plugin table. */
  function SetVerbosity(globals: Thresholds, plugins: map<string, Thresholds>,
                        sink: Sink, v: int, name: Option<string>): (r: (Thresholds, map<string, Thresholds>))
    ensures r.1.Keys == plugins.Keys
    ensures name.None? ==> r.1 == plugins && ThresholdOf(r.0, sink) == v
    ensures name.Some? ==> r.0 == globals
    ensures forall s :: s != sink ==> ThresholdOf(r.0, s) == ThresholdOf(globals, s)
  {
    match name
    case None => (WithThreshold(globals, sink, v), plugins)
    case Some(n) =>
      if n in plugins then (globals, plugins[n := WithThreshold(plugins[n], sink, v)])
      else (globals, plugins)
  }

  /** Setting the global threshold of a sink: reading it back gives `v`; the
      other sink and the plugin table are untouched; every plugin that defers
      to the global now reports `v`, every other plugin keeps its own value. */
  lemma SetGlobalVerbosityThenGet(L: Levels, globals: Thresholds, plugins: map<string, Thresholds>,
                                  sink: Sink, v: int, other: Sink, name: string)
    requires other != sink
    ensures var (g', p') := SetVerbosity(globals, plugins, sink, v, None);
      && EffectiveVerbosity(L, g', p', sink, None) == v
      && ThresholdOf(g', other) == ThresholdOf(globals, other)
      && p' == plugins
      && EffectiveVerbosity(L, g', p', sink, Some(name)) ==
           (if name in plugins && ThresholdOf(plugins[name], sink) != L.useGlobal
            then ThresholdOf(plugins[name], sink) else v)
  {
  }

  /** Setting a plugin's threshold changes nothing but that plugin's entry
      for that sink; reading it back gives `v`, or the global threshold when
      `v` is `useGlobal`. An unknown plugin leaves everything as it was. */
  lemma SetPluginVerbosityThenGet(L: Levels, globals: Thresholds, plugins: map<string, Thresholds>,
                                  sink: Sink, v: int, name: string, otherName: string)
    requires otherName != name
    ensures var (g', p') := SetVerbosity(globals, plugins, sink, v, Some(name));
      && g' == globals
      && p'.Keys == plugins.Keys
      && (name in plugins ==>
            && EffectiveVerbosity(L, g', p', sink, Some(name)) == (if v == L.useGlobal then ThresholdOf(globals, sink) else v)
            && p'[name] == WithThreshold(plugins[name], sink, v))
      && (name !in plugins ==> p' == plugins)
      && (otherName in plugins ==> p'[otherName] == plugins[otherName])
  {
  }

  /** `logPluginMsg`: an unknown plugin logs nothing and reports false;
      otherwise the plugin's thresholds (falling back to the globals) gate the
      message, which is decorated with the plugin's name prefixed by "simExt"
      and routed with those thresholds. */
  function LogPluginMsg(L: Levels, globals: Thresholds, plugins: map<string, Thresholds>,
                        pluginName: string, level: int, msg: string,
                        uiThreadUp: bool, simThreadUp: bool): (r: (bool, Delivery))
    ensures r.0 <==> pluginName in plugins
    ensures !r.0 ==> r.1 == Nothing
    ensures r.1.console.Some? ==> r.1.console.value == DecoratedLogMsg(L, Some("simExt" + pluginName), level, msg)
  {
    if pluginName !in plugins then (false, Nothing)
    else
      var consoleV := Resolve(L, plugins[pluginName].console, globals.console);
      var statusbarV := Resolve(L, plugins[pluginName].statusbar, globals.statusbar);
      if consoleV >= level || statusbarV >= level then
        var text := DecoratedLogMsg(L, Some("simExt" + pluginName), level, msg);
        (true, LogRoute(L, globals, level, text, false, consoleV, statusbarV, uiThreadUp, simThreadUp))
      else (true, Nothing)
  }

  /** A plugin message reaches the console exactly when the plugin's
      effective console threshold (what `getConsoleVerbosity(name)` reports)
      admits the level, and the statusbar exactly when the effective
      statusbar threshold admits it and both threads exist. This holds as long
      as neither effective threshold is -1, which `_logMsg` would read as
      "use the global one". */
  lemma PluginMsgFollowsPluginVerbosity(L: Levels, globals: Thresholds, plugins: map<string, Thresholds>,
                                        pluginName: string, level: int, msg: string,
                                        uiThreadUp: bool, simThreadUp: bool)
    requires pluginName in plugins
    requires EffectiveVerbosity(L, globals, plugins, Console, Some(pluginName)) != -1
    requires EffectiveVerbosity(L, globals, plugins, Statusbar, Some(pluginName)) != -1
    ensures var (known, d) := LogPluginMsg(L, globals, plugins, pluginName, level, msg, uiThreadUp, simThreadUp);
      && known
      && (d.console.Some? <==> EffectiveVerbosity(L, globals, plugins, Console, Some(pluginName)) >= level)
      && (d.console.Some? ==> d.console.value == DecoratedLogMsg(L, Some("simExt" + pluginName), level, msg))
      && (d.statusbar.Some? <==>
            EffectiveVerbosity(L, globals, plugins, Statusbar, Some(pluginName)) >= level && uiThreadUp && simThreadUp)
      && (d.statusbar.Some? ==>
            d.statusbar.value == StatusbarText(L, level, DecoratedLogMsg(L, Some("simExt" + pluginName), level, msg)))
  {
  }

  /** An unknown plugin's message is dropped and reported as such. */
  lemma PluginMsgUnknownPlugin(L: Levels, globals: Thresholds, plugins: map<string, Thresholds>,
                               pluginName: string, level: int, msg: string,
                               uiThreadUp: bool, simThreadUp: bool)
    requires pluginName !in plugins
    ensures LogPluginMsg(L, globals, plugins, pluginName, level, msg, uiThreadUp, simThreadUp) == (false, Nothing)
  {
  }

  // ----- the @html marker in addStatusbarMessage -----

  /** `pat` occurs in `s` starting at position `j`. */
  predicate OccursAt(s: string, pat: string, j: nat)
  {
    j + |pat| <= |s| && s[j..j + |pat|] == pat
  }

  /** `std::string::rfind`: the last position at which `pat` occurs in `s`. */
  function RFind(s: string, pat: string): (r: Option<nat>)
    ensures r.Some? ==> OccursAt(s, pat, r.value)
    ensures forall j: nat :: OccursAt(s, pat, j) ==> r.Some? && j <= r.value
    decreases |s|
  {
    if |s| < |pat| then None
    else if s[|s| - |pat|..] == pat then Some(|s| - |pat|)
    else
      var s' := s[..|s| - 1];
      var r := RFind(s', pat);
      assert forall j: nat :: OccursAt(s, pat, j) ==> OccursAt(s', pat, j) by {
        forall j: nat | OccursAt(s, pat, j)
          ensures OccursAt(s', pat, j)
        {
          assert j + |pat| != |s|;
          assert s'[j..j + |pat|] == s[j..j + |pat|];
        }
      }
      assert r.Some? ==> OccursAt(s, pat, r.value) by {
        if r.Some? { assert s'[r.value..r.value + |pat|] == s[r.value..r.value + |pat|]; }
      }
      r
  }

  /** The test `addStatusbarMessage` makes when it is not told the text is a
      script error (as `_logMsg` calls it), in the GUI build only: the text
      is HTML when the last occurrence of "@html" is at its very end, and
      the marker is then cut off. */
  function SplitHtmlSuffix(txt: string): (r: (bool, string))
    ensures r.0 ==> r.1 + HtmlMarker == txt
    ensures !r.0 ==> r.1 == txt
  {
    var p := RFind(txt, HtmlMarker);
    if p.Some? && p.value == |txt| - |HtmlMarker| then (true, txt[..|txt| - |HtmlMarker|])
    else (false, txt)
  }

  /** The text is taken as HTML exactly when it ends with "@html", and then
      exactly that trailing marker is removed; otherwise it is kept whole. */
  lemma SplitHtmlSuffixExact(txt: string)
    ensures var (html, body) := SplitHtmlSuffix(txt);
      && (html <==> |txt| >= |HtmlMarker| && txt[|txt| - |HtmlMarker|..] == HtmlMarker)
      && (html ==> body + HtmlMarker == txt)
      && (!html ==> body == txt)
  {
    var (html, body) := SplitHtmlSuffix(txt);
    if |txt| >= |HtmlMarker| && txt[|txt| - |HtmlMarker|..] == HtmlMarker {
      var p := RFind(txt, HtmlMarker);
      assert p.Some?;
      assert html;
      assert body + HtmlMarker == txt[..|txt| - |HtmlMarker|] + txt[|txt| - |HtmlMarker|..];
    }
  }

  /** What the statusbar shows of a routed message: a warning or an error
      arrives as HTML in its colour tag with the marker stripped; any higher
      level arrives as the message itself, read as HTML only if the message
      itself happens to end with "@html". */
  lemma StatusbarTextRoundTrip(L: Levels, level: int, msg: string)
    requires Ordered(L)
    ensures level <= L.warnings ==>
      SplitHtmlSuffix(StatusbarText(L, level, msg)) == (true, FontTag(L, level) + msg + "</font>")
    ensures level <= L.warnings ==>
      (level == L.errors ==> FontTag(L, level) == "<font color='red'>")
      && (level == L.warnings ==> FontTag(L, level) == "<font color='orange'>")
    ensures level > L.warnings ==>
      SplitHtmlSuffix(StatusbarText(L, level, msg)) == SplitHtmlSuffix(msg)
  {
    var t := StatusbarText(L, level, msg);
    SplitHtmlSuffixExact(t);
    if level <= L.warnings {
      var body := FontTag(L, level) + msg + "</font>";
      assert t == body + HtmlMarker;
      assert t[|t| - |HtmlMarker|..] == HtmlMarker;
      assert SplitHtmlSuffix(t).1 + HtmlMarker == body + HtmlMarker;
      assert SplitHtmlSuffix(t).1 == (SplitHtmlSuffix(t).1 + HtmlMarker)[..|body|];
    }
  }
}
