/** The bookkeeping the application keeps in static state: the nine
    application argument slots, the named-parameter table, the commands
    posted for the simulation thread before it exists, the verbosity
    thresholds, and the statusbar history. The class `App` holds that state;
    the functions and lemmas of this module specify it. */
module AppState {

  import opened Wrappers
  import opened Verbosity
  import opened Routing

  // ----- application argument slots -----

  /** How many application argument slots there are. */
  const ArgumentSlots: nat := 9

  /** The slots as they are once created: all empty. */
  function InitialArguments(): (slots: seq<string>)
    ensures |slots| == ArgumentSlots
  {
    seq(ArgumentSlots, _ => "")
  }

  /** `getApplicationArgument`: the slot's content, or "" past the last slot. */
  function ArgumentAt(slots: seq<string>, index: nat): string
    requires |slots| == ArgumentSlots
  {
    if index < ArgumentSlots then slots[index] else ""
  }

  /** `setApplicationArgument`: overwrite the slot; past the last slot, nothing. */
  function WithArgument(slots: seq<string>, index: nat, arg: string): seq<string>
    requires |slots| == ArgumentSlots
  {
    if index < ArgumentSlots then slots[index := arg] else slots
  }

  /** Reading a slot after setting one gives what was set there, "" past the
      last slot, and the old content for every other slot. */
  lemma ArgumentSetThenGet(slots: seq<string>, index: nat, arg: string, other: nat)
    requires |slots| == ArgumentSlots
    ensures |WithArgument(slots, index, arg)| == ArgumentSlots
    ensures ArgumentAt(WithArgument(slots, index, arg), index) == if index < ArgumentSlots then arg else ""
    ensures other != index ==> ArgumentAt(WithArgument(slots, index, arg), other) == ArgumentAt(slots, other)
  {
  }

  // ----- named parameters -----

  /** No stored value is empty: storing an empty value erases the key instead. */
  predicate NoEmptyValues(m: map<string, string>)
  {
    forall k :: k in m ==> m[k] != ""
  }

  /** `getApplicationNamedParam`: the stored value, or "" when absent. */
  function NamedParam(m: map<string, string>, name: string): (value: string)
    ensures NoEmptyValues(m) ==> (value == "" <==> name !in m)
    ensures name in m ==> value == m[name]
  {
    if name in m then m[name] else ""
  }

  /** `setApplicationNamedParam(name, param, n)`: the status and the new table.
      An empty name gives -1 and changes nothing; otherwise the status is 1
      when no (non-empty) value was stored and 0 when one was, and the first
      `n` characters are stored, or the key is erased when `n` is 0. A Dafny
      `char` stands for one C++ `char`, so `n` counts the same units as
      `paramLength`. */
  function SetNamedParam(m: map<string, string>, name: string, param: string, n: int): (r: (int, map<string, string>))
    requires 0 <= n <= |param|
    ensures r.0 == -1 || r.0 == 0 || r.0 == 1
    ensures name == "" <==> r == (-1, m)
    ensures r.1.Keys <= m.Keys + {name}
    ensures NoEmptyValues(m) ==> NoEmptyValues(r.1)
  {
    if name == "" then (-1, m)
    else
      var status := if NamedParam(m, name) == "" then 1 else 0;
      (status, if n != 0 then m[name := param[..n]] else m - {name})
  }

  /** The status reports what the call did to the table: -1 for an empty
      name, 1 for a key that was not there, 0 for one that was. */
  lemma SetNamedParamStatus(m: map<string, string>, name: string, param: string, n: int)
    requires NoEmptyValues(m) && 0 <= n <= |param|
    ensures var (status, _) := SetNamedParam(m, name, param, n);
      && (status == -1 <==> name == "")
      && (status == 1 <==> name != "" && name !in m)
      && (status == 0 <==> name != "" && name in m)
  {
  }

  /** After a set, reading the name back gives the stored prefix ("" when
      it was erased, and the old value when the name was empty), every other
      key reads as before, and no stored value is empty. */
  lemma SetNamedParamThenGet(m: map<string, string>, name: string, param: string, n: int, other: string)
    requires NoEmptyValues(m) && 0 <= n <= |param|
    ensures var (_, m') := SetNamedParam(m, name, param, n);
      && NoEmptyValues(m')
      && NamedParam(m', name) == (if name == "" then NamedParam(m, name) else param[..n])
      && (other != name ==> NamedParam(m', other) == NamedParam(m, other))
      && (name != "" && n == 0 ==> name !in m')
  {
  }

  // ----- commands for the simulation thread -----

  /** A float parameter, carried as its 32-bit pattern and never interpreted. */
  newtype Float32 = x: int | 0 <= x < 0x1_0000_0000

  /** `SSimulationThreadCommand`: an id and its parameter lists. */
  datatype Command = Command(cmdId: int, intParams: seq<int>, floatParams: seq<Float32>, stringParams: seq<string>)

  /** A command with its execution delay, as the simulation thread queues it. */
  datatype QueuedCommand = QueuedCommand(cmd: Command, delay: int)

  /** The convenience overload's command: two ints, two floats and two
      strings, where a null string becomes "". */
  function MakeCommand(cmdId: int, intP1: int, intP2: int, floatP1: Float32, floatP2: Float32,
                       stringP1: Option<string>, stringP2: Option<string>): (c: Command)
    ensures c.cmdId == cmdId
    ensures c.intParams == [intP1, intP2] && c.floatParams == [floatP1, floatP2]
    ensures |c.stringParams| == 2
    ensures stringP1.Some? ==> c.stringParams[0] == stringP1.value
    ensures stringP2.Some? ==> c.stringParams[1] == stringP2.value
    ensures stringP1.None? ==> c.stringParams[0] == ""
    ensures stringP2.None? ==> c.stringParams[1] == ""
  {
    Command(cmdId, [intP1, intP2], [floatP1, floatP2],
            [if stringP1.Some? then stringP1.value else "",
             if stringP2.Some? then stringP2.value else ""])
  }

  /** The buffered commands paired with their delays, index by index. */
  function Paired(cmds: seq<Command>, delays: seq<int>): (r: seq<QueuedCommand>)
    requires |cmds| == |delays|
    ensures |r| == |cmds|
    ensures forall i :: 0 <= i < |r| ==> r[i] == QueuedCommand(cmds[i], delays[i])
  {
    if cmds == [] then []
    else Paired(cmds[..|cmds| - 1], delays[..|delays| - 1]) + [QueuedCommand(cmds[|cmds| - 1], delays[|delays| - 1])]
  }

  /** Buffering one more command appends its pair at the end. */
  lemma PairedAppend(cmds: seq<Command>, delays: seq<int>, c: Command, d: int)
    requires |cmds| == |delays|
    ensures Paired(cmds + [c], delays + [d]) == Paired(cmds, delays) + [QueuedCommand(c, d)]
  {
    assert (cmds + [c])[..|cmds|] == cmds;
    assert (delays + [d])[..|delays|] == delays;
  }

  // ----- statusbar history -----

  /** How many statusbar messages the history keeps. */
  const HistoryCap: nat := 100

  /** The last `k` elements of `s` (all of them when there are fewer). */
  function Recent<T>(s: seq<T>, k: nat): (r: seq<T>)
    ensures |r| <= k && |r| <= |s|
    ensures forall i :: 0 <= i < |r| ==> r[i] == s[|s| - |r| + i]
    ensures |s| <= k ==> r == s
  {
    if |s| <= k then s else s[|s| - k..]
  }

  /** Keeping the last `k` messages as they come keeps the last `k` of all
      messages: capping after each push loses nothing the cap would keep. */
  lemma {:induction false} RecentPush<T>(s: seq<T>, m: T, k: nat)
    requires k > 0
    ensures Recent(Recent(s, k) + [m], k) == Recent(s + [m], k)
  {
    if |s| > k {
      var r := s[|s| - k..];
      assert Recent(s, k) == r;
      assert Recent(r + [m], k) == (r + [m])[1..];
      assert (r + [m])[1..] == s[|s| - k + 1..] + [m];
      assert Recent(s + [m], k) == (s + [m])[|s| + 1 - k..];
      assert (s + [m])[|s| + 1 - k..] == s[|s| - k + 1..] + [m];
    } else {
      assert Recent(s, k) == s;
    }
  }

  /** The text appended to the message console: each message followed by a
      line break. */
  function Lines(msgs: seq<string>): string
  {
    if msgs == [] then "" else msgs[0] + "\n" + Lines(msgs[1..])
  }

  /** The lines of two runs of messages are the lines of each, one after the
      other. */
  lemma {:induction false} LinesAppend(a: seq<string>, b: seq<string>)
    ensures Lines(a + b) == Lines(a) + Lines(b)
  {
    if a == [] {
      assert a + b == b;
    } else {
      assert (a + b)[1..] == a[1..] + b;
      LinesAppend(a[1..], b);
    }
  }

  /** The loop of `addStatusbarMessage` that concatenates the history for the
      message console. */
  method JoinLines(msgs: seq<string>) returns (text: string)
    ensures text == Lines(msgs)
  {
    text := "";
    var i := 0;
    while i < |msgs|
      invariant 0 <= i <= |msgs|
      invariant text == Lines(msgs[..i])
    {
      LinesAppend(msgs[..i], [msgs[i]]);
      assert msgs[..i + 1] == msgs[..i] + [msgs[i]];
      assert Lines([msgs[i]]) == msgs[i] + "\n" + Lines([]);
      text := text + (msgs[i] + "\n");
      i := i + 1;
    }
    assert msgs[..i] == msgs;
  }

  // ----- the application's static state -----

  class App {
    /** The `sim_verbosity_*` constants. */
    const levels: Levels

    /** Empty until first used, then exactly nine slots. */
    var applicationArguments: seq<string>
    var namedParams: map<string, string>
    /** Commands posted before the simulation thread exists, and their delays. */
    var delayedCmd: seq<Command>
    var delayedDelay: seq<int>
    /** The simulation thread's command queue, when the thread exists. */
    var simThread: Option<seq<QueuedCommand>>
    var consoleVerbosity: int
    var statusbarVerbosity: int
    /** The loaded plugins' own thresholds, by plugin name. */
    var plugins: map<string, Thresholds>
    /** The most recent statusbar messages, oldest first. */
    var lastMessages: seq<string>

    ghost predicate Valid()
      reads this
    {
      && Ordered(levels)
      && (|applicationArguments| == 0 || |applicationArguments| == ArgumentSlots)
      && NoEmptyValues(namedParams)
      && |delayedCmd| == |delayedDelay|
      && |lastMessages| <= HistoryCap
    }

    /** The argument slots as every read sees them: all empty until created. */
    ghost function Arguments(): (slots: seq<string>)
      reads this
      requires Valid()
      ensures |slots| == ArgumentSlots
    {
      if applicationArguments == [] then InitialArguments() else applicationArguments
    }

    /** The buffered commands, in arrival order. */
    ghost function Pending(): seq<QueuedCommand>
      reads this
      requires Valid()
    {
      Paired(delayedCmd, delayedDelay)
    }

    /** Every command posted so far, in posting order: the thread's queue,
        then the buffered ones. (The thread's execution of its queue is not
        part of this model.) */
    ghost function Posted(): seq<QueuedCommand>
      reads this
      requires Valid()
    {
      (if simThread.Some? then simThread.value else []) + Pending()
    }

    function Globals(): Thresholds
      reads this
    {
      Thresholds(consoleVerbosity, statusbarVerbosity)
    }

    /** The static initial state: no arguments, no named parameters, nothing
        buffered, no simulation thread, console at `sim_verbosity_default`,
        statusbar at `sim_verbosity_warnings`, no statusbar history. */
    constructor (L: Levels)
      requires Ordered(L)
      ensures Valid() && levels == L
      ensures applicationArguments == [] && namedParams == map[]
      ensures delayedCmd == [] && delayedDelay == [] && simThread == None
      ensures consoleVerbosity == L.defaultLevel && statusbarVerbosity == L.warnings
      ensures plugins == map[] && lastMessages == []
    {
      levels := L;
      applicationArguments := [];
      namedParams := map[];
      delayedCmd, delayedDelay := [], [];
      simThread := None;
      consoleVerbosity, statusbarVerbosity := L.defaultLevel, L.warnings;
      plugins := map[];
      lastMessages := [];
    }

    /** Creates the nine empty slots on first use. */
    method EnsureArgumentSlots()
      requires Valid()
      modifies this`applicationArguments
      ensures Valid() && |applicationArguments| == ArgumentSlots
      ensures Arguments() == old(Arguments())
    {
      if |applicationArguments| == 0 {
        var i := 0;
        while i < ArgumentSlots
          invariant 0 <= i <= ArgumentSlots
          invariant applicationArguments == seq(i, _ => "")
        {
          applicationArguments := applicationArguments + [""];
          i := i + 1;
        }
      }
    }

    method GetApplicationArgument(index: nat) returns (arg: string)
      requires Valid()
      modifies this`applicationArguments
      ensures Valid() && Arguments() == old(Arguments())
      ensures arg == ArgumentAt(Arguments(), index)
    {
      EnsureArgumentSlots();
      arg := "";
      if index < ArgumentSlots {
        arg := applicationArguments[index];
      }
    }

    method SetApplicationArgument(index: nat, arg: string)
      requires Valid()
      modifies this`applicationArguments
      ensures Valid() && Arguments() == WithArgument(old(Arguments()), index, arg)
    {
      EnsureArgumentSlots();
      if index < ArgumentSlots {
        applicationArguments := applicationArguments[index := arg];
      }
    }

    method GetApplicationNamedParam(name: string) returns (value: string)
      ensures value == NamedParam(namedParams, name)
    {
      value := "";
      if name in namedParams {
        value := namedParams[name];
      }
    }

    method SetApplicationNamedParam(name: string, param: string, n: int) returns (status: int)
      requires Valid() && 0 <= n <= |param|
      modifies this`namedParams
      ensures Valid()
      ensures (status, namedParams) == SetNamedParam(old(namedParams), name, param, n)
    {
      status := -1;
      if |name| > 0 {
        status := 0;
        var current := GetApplicationNamedParam(name);
        if |current| == 0 {
          status := 1;
        }
        if n != 0 {
          namedParams := namedParams[name := param[..n]];
        } else if name in namedParams {
          namedParams := namedParams - {name};
        } else {
          assert namedParams - {name} == namedParams;
        }
      }
      SetNamedParamThenGet(old(namedParams), name, param, n, name);
    }

    /** The simulation thread comes into existence with an empty queue. */
    method SimulationThreadStarted()
      requires Valid()
      modifies this`simThread
      ensures Valid() && simThread == Some([])
    {
      simThread := Some([]);
    }

    /** The simulation thread is gone; later commands are buffered again. */
    method SimulationThreadEnded()
      requires Valid()
      modifies this`simThread
      ensures Valid() && simThread == None
    {
      simThread := None;
    }

    /** Posts a command: buffered while there is no simulation thread;
        otherwise the buffered commands are forwarded first, in order, and the
        buffers emptied. Either way the command is posted after every earlier
        one. */
    method AppendSimulationThreadCommand(cmd: Command, delay: int)
      requires Valid()
      modifies this`delayedCmd, this`delayedDelay, this`simThread
      ensures Valid()
      ensures Posted() == old(Posted()) + [QueuedCommand(cmd, delay)]
      ensures old(simThread).None? ==>
        && simThread == None
        && delayedCmd == old(delayedCmd) + [cmd] && delayedDelay == old(delayedDelay) + [delay]
      ensures old(simThread).Some? ==>
        && simThread == Some(old(simThread).value + old(Pending()) + [QueuedCommand(cmd, delay)])
        && delayedCmd == [] && delayedDelay == []
    {
      ghost var pendingBefore := Pending();
      if simThread.Some? {
        var queue := simThread.value;
        if |delayedCmd| != 0 {
          queue := ForwardPending(queue);
          delayedCmd, delayedDelay := [], [];
        } else {
          assert pendingBefore == [];
        }
        assert queue == old(simThread).value + pendingBefore;
        simThread := Some(queue + [QueuedCommand(cmd, delay)]);
        assert Pending() == Paired([], []) == [];
      } else {
        PairedAppend(delayedCmd, delayedDelay, cmd, delay);
        delayedCmd := delayedCmd + [cmd];
        delayedDelay := delayedDelay + [delay];
      }
    }

    /** The loop that forwards the buffered commands, in order, to the
        thread's queue. */
    method ForwardPending(queue: seq<QueuedCommand>) returns (forwarded: seq<QueuedCommand>)
      requires Valid()
      ensures forwarded == queue + Pending()
    {
      forwarded := queue;
      var i := 0;
      while i < |delayedCmd|
        invariant 0 <= i <= |delayedCmd| == |delayedDelay|
        invariant forwarded == queue + Paired(delayedCmd[..i], delayedDelay[..i])
      {
        PairedAppend(delayedCmd[..i], delayedDelay[..i], delayedCmd[i], delayedDelay[i]);
        assert delayedCmd[..i + 1] == delayedCmd[..i] + [delayedCmd[i]];
        assert delayedDelay[..i + 1] == delayedDelay[..i] + [delayedDelay[i]];
        forwarded := forwarded + [QueuedCommand(delayedCmd[i], delayedDelay[i])];
        i := i + 1;
      }
      assert delayedCmd[..i] == delayedCmd && delayedDelay[..i] == delayedDelay;
    }

    /** The convenience overload: builds the command, then posts it. */
    method AppendSimulationThreadCommandWith(cmdId: int, intP1: int, intP2: int,
                                             floatP1: Float32, floatP2: Float32,
                                             stringP1: Option<string>, stringP2: Option<string>,
                                             delay: int)
      requires Valid()
      modifies this`delayedCmd, this`delayedDelay, this`simThread
      ensures Valid()
      ensures var cmd := MakeCommand(cmdId, intP1, intP2, floatP1, floatP2, stringP1, stringP2);
        Posted() == old(Posted()) + [QueuedCommand(cmd, delay)]
      ensures var cmd := MakeCommand(cmdId, intP1, intP2, floatP1, floatP2, stringP1, stringP2);
        old(simThread).None? ==>
        && simThread == None
        && delayedCmd == old(delayedCmd) + [cmd] && delayedDelay == old(delayedDelay) + [delay]
      ensures var cmd := MakeCommand(cmdId, intP1, intP2, floatP1, floatP2, stringP1, stringP2);
        old(simThread).Some? ==>
        && simThread == Some(old(simThread).value + old(Pending()) + [QueuedCommand(cmd, delay)])
        && delayedCmd == [] && delayedDelay == []
    {
      var cmd := MakeCommand(cmdId, intP1, intP2, floatP1, floatP2, stringP1, stringP2);
      AppendSimulationThreadCommand(cmd, delay);
    }

    function GetConsoleVerbosity(pluginName: Option<string>): (v: int)
      reads this
      ensures pluginName.None? ==> v == consoleVerbosity
      ensures pluginName.Some? && pluginName.value in plugins
              && plugins[pluginName.value].console != levels.useGlobal
              ==> v == plugins[pluginName.value].console
      ensures pluginName.Some? && (pluginName.value !in plugins
              || plugins[pluginName.value].console == levels.useGlobal)
              ==> v == consoleVerbosity
    {
      EffectiveVerbosity(levels, Globals(), plugins, Console, pluginName)
    }

    function GetStatusbarVerbosity(pluginName: Option<string>): (v: int)
      reads this
      ensures pluginName.None? ==> v == statusbarVerbosity
      ensures pluginName.Some? && pluginName.value in plugins
              && plugins[pluginName.value].statusbar != levels.useGlobal
              ==> v == plugins[pluginName.value].statusbar
      ensures pluginName.Some? && (pluginName.value !in plugins
              || plugins[pluginName.value].statusbar == levels.useGlobal)
              ==> v == statusbarVerbosity
    {
      EffectiveVerbosity(levels, Globals(), plugins, Statusbar, pluginName)
    }

    /** A plugin enters the plugin container with its own thresholds. The
        container itself is not part of this model; this is the one way its
        table grows. */
    method PluginLoaded(name: string, thresholds: Thresholds)
      requires Valid()
      modifies this`plugins
      ensures Valid() && plugins == old(plugins)[name := thresholds]
    {
      plugins := plugins[name := thresholds];
    }

    method SetConsoleVerbosity(v: int, pluginName: Option<string>)
      requires Valid()
      modifies this`consoleVerbosity, this`plugins
      ensures Valid()
      ensures (Globals(), plugins) == SetVerbosity(old(Globals()), old(plugins), Console, v, pluginName)
    {
      if pluginName.Some? {
        if pluginName.value in plugins {
          plugins := plugins[pluginName.value := plugins[pluginName.value].(console := v)];
        }
      } else {
        consoleVerbosity := v;
      }
    }

    method SetStatusbarVerbosity(v: int, pluginName: Option<string>)
      requires Valid()
      modifies this`statusbarVerbosity, this`plugins
      ensures Valid()
      ensures (Globals(), plugins) == SetVerbosity(old(Globals()), old(plugins), Statusbar, v, pluginName)
    {
      if pluginName.Some? {
        if pluginName.value in plugins {
          plugins := plugins[pluginName.value := plugins[pluginName.value].(statusbar := v)];
        }
      } else {
        statusbarVerbosity := v;
      }
    }

    /** Records a message in the statusbar history, keeping the last 100;
        when the history is flushed to the message console, returns the
        text appended there and empties the history. */
    method RecordStatusbarMessage(text: string, flush: bool) returns (appended: Option<string>)
      requires Valid()
      modifies this`lastMessages
      ensures Valid()
      ensures !flush ==> appended == None && lastMessages == Recent(old(lastMessages) + [text], HistoryCap)
      ensures flush ==> appended == Some(Lines(Recent(old(lastMessages) + [text], HistoryCap))) && lastMessages == []
    {
      lastMessages := lastMessages + [text];
      if |lastMessages| > HistoryCap {
        lastMessages := lastMessages[1..];
      }
      appended := None;
      if flush {
        var toAppend := JoinLines(lastMessages);
        appended := Some(toAppend);
        lastMessages := [];
      }
    }
  }
}
