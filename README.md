# CoppeliaSim application bookkeeping, modelled in Dafny

`App` (`sourceCode/various/app.cpp`) is the application shell of the
CoppeliaSim robot simulator. Most of it starts threads and drives the GUI.
This project models the self-contained bookkeeping inside it:

- **Application argument slots.** There are nine string slots. They are created empty on first use, and access past the last slot is ignored.
- **Named-parameter table.** A name→value map. Setting an empty value erases the key, so no stored value is ever empty.
- **Deferred simulation-thread commands.** Commands posted before the simulation thread exists are buffered. The next post after the thread exists forwards them, in order, ahead of the new command.
- **Logging.** `_getDecoratedLogMsg` decorates a message with its origin and level, and `getVerbosityLevelFromString` parses a level name. The model also covers the routing decision of `_logMsg` between console and statusbar, the gate in `logMsg`, and the per-plugin thresholds of `logPluginMsg` and the verbosity getters and setters. It also covers the `@html` marker that the statusbar path adds and `addStatusbarMessage` strips again.
- **Colour lookups.** `getVisualParamPointerFromItem` finds the colour object behind a dialog item and the `allowedParts` bit mask. `getRGBPointerFromItem` uses that mask to pick one colour component's three floats.
- **Statusbar history.** It keeps the last 100 messages. It is flushed to the message console when a script error arrives.

Files:
- `wrappers.dfy`: `Option`.
- `verbosity.dfy`: the level constants, tags, names and thresholds (module `Verbosity`).
- `routing.dfy`: log routing, the plugin thresholds and the `@html` suffix (module `Routing`).
- `colors.dfy`: colour-part selection (module `ColorParts`).
- `app.dfy`: the class `App`, which holds the static state, and the functions and lemmas that specify it (module `AppState`).

The numeric values of the `sim_verbosity_*` constants live in a header that
is not part of this model. So the constants are a record, `Levels`, passed
to every operation that needs them. The predicate `Ordered` states the
assumptions about them:
- the ten named levels are distinct and all ten are greater than -1;
- `none` < `errors` < `warnings` < every other named level;
- `useGlobal` is not a named level.

Under those assumptions, a threshold admits a message whenever it is numerically at least the message's level.

The `COLOR_ID_*` and `sim_colorcomponent_*` codes are also defined in a header
that is not part of this model. They are modelled as datatype constructors, which assumes the codes
in each family are distinct, as the lookups' independent equality tests
require. A Dafny `char` stands for one C++ `char`, so string lengths (such as
`paramLength`) count the same units. Names passed as `const char*`
(`paramName`, `verbosityStr`, `pluginName`) end at their first NUL in the
source, so the model assumes that names contain no NUL character.

## Model

| member | source | states |
|---|---|---|
| `Verbosity.DecoratedLogMsg` | sourceCode/various/app.cpp:1529-1559 | `_getDecoratedLogMsg`: the decorated message is at least as long as the origin prefix plus the message, and always ends with the message. |
| `Verbosity.LevelFromString` | sourceCode/various/app.cpp:1567-1591 | `getVerbosityLevelFromString`: the result is -1 or one of the ten named levels, and it is -1 for every string that is not one of the ten names. |
| `Verbosity.Triggered` | sourceCode/various/app.cpp:1728-1731 | `getConsoleOrStatusbarVerbosityTriggered`: a level triggers exactly when it is at most the larger of the two global thresholds. |
| `Verbosity.LevelTagOfNamed` | sourceCode/various/app.cpp:1539-1556 | The nine level tests append tags independently of each other. For `Ordered` constants, each named level gets exactly its own tag ("error: " … "traceall: "), and `none` gets no tag. |
| `Verbosity.LevelTagOfUnnamed` | sourceCode/various/app.cpp:1539-1556 | A level that is not one of the ten named ones gets no tag. |
| `Verbosity.DecoratedLogMsgShape` | sourceCode/various/app.cpp:1529-1559 | The decorated message is the plugin name + ": " (or "CoppeliaSim: " when there is no plugin), then the level's tag, then the message. It starts with that prefix and always ends with the message. |
| `Verbosity.LevelFromStringExact` | sourceCode/various/app.cpp:1567-1591 | Each of the ten names maps to its own level. The result is -1 exactly when the string is none of the ten names, which are matched exactly and case-sensitively. A level comes back only for its own name. |
| `Routing.LogRoute` | sourceCode/various/app.cpp:1636-1672 | A threshold argument of -1 falls back to the global threshold. The console gets the message iff its threshold is at least the level. The statusbar gets it iff its threshold is at least the level, the statusbar is not forbidden, and both threads exist. Levels above `warnings` reach the statusbar as the plain message; warnings and errors reach it wrapped in a colour tag and followed by "@html". |
| `Routing.LogMsg` | sourceCode/various/app.cpp:1603-1607 | `logMsg`, the string overload with every substitution string null, which copies the message into a 2000-byte buffer with `strcpy` (the int overload at app.cpp:1561-1565 shares the gate but always formats the message): nothing is delivered when neither global threshold admits the level. The console gets the decorated message iff the global console threshold admits the level. The statusbar gets it iff the global statusbar threshold admits the level and both threads exist. |
| `Routing.LogMsgGateIsTransparent` | sourceCode/various/app.cpp:1603-1607 | The gate of `logMsg` (the same test as at app.cpp:1561-1565 and 1728-1731) never changes what is delivered. `logMsg` delivers exactly what `_logMsg` would deliver for the decorated message with the global thresholds. |
| `Routing.EffectiveVerbosity` | sourceCode/various/app.cpp:1674-1713 | `getConsoleVerbosity`/`getStatusbarVerbosity`: without a name, the global threshold. A named, known plugin with its own value (not `useGlobal`) gets that value. Any other result is the global one. |
| `AppState.App.GetConsoleVerbosity` | sourceCode/various/app.cpp:1674-1687 | Without a name, the global console threshold. A known plugin gets its own console threshold unless that is `useGlobal`. An unknown or deferring plugin gets the global one. |
| `AppState.App.GetStatusbarVerbosity` | sourceCode/various/app.cpp:1701-1714 | Without a name, the global statusbar threshold. A known plugin gets its own statusbar threshold unless that is `useGlobal`. An unknown or deferring plugin gets the global one. |
| `Routing.SetVerbosity` | sourceCode/various/app.cpp:1689-1726 | A setter never adds or removes plugins and never touches the other sink. Without a name, it sets the global threshold and leaves the plugins alone. With a name, it leaves the globals alone. |
| `Routing.SetGlobalVerbosityThenGet` | sourceCode/various/app.cpp:1674-1726 | A setter without a plugin name changes only the global threshold of its sink. Reading it back gives the new value, and so does every plugin that defers to the global value. Plugins with their own value keep it. |
| `Routing.SetPluginVerbosityThenGet` | sourceCode/various/app.cpp:1689-1698 | A setter with a plugin name changes only that plugin's entry for that sink. Reading it back gives the new value, or the global one when the new value is `useGlobal`. An unknown plugin leaves everything unchanged. |
| `Routing.LogPluginMsg` | sourceCode/various/app.cpp:1506-1527 | `logPluginMsg` returns true iff the plugin is known. An unknown plugin delivers nothing. Whatever the console gets is the message decorated with "simExt" + the plugin name. |
| `Routing.PluginMsgFollowsPluginVerbosity` | sourceCode/various/app.cpp:1506-1527 | For a known plugin, `logPluginMsg` returns true. The console gets the message decorated with "simExt" + name iff the plugin's effective console threshold (as reported by `getConsoleVerbosity(name)`) admits the level. The statusbar gets it iff the effective statusbar threshold admits the level and both threads exist, and then receives that decorated message in its statusbar form (plain, or colour-wrapped with "@html"). |
| `Routing.PluginMsgUnknownPlugin` | sourceCode/various/app.cpp:1506-1527 | For an unknown plugin, `logPluginMsg` returns false and delivers nothing. |
| `Routing.RFind` | sourceCode/various/app.cpp:883 | `rfind` returns a position where the pattern occurs, and no occurrence lies after it. It returns none only when there is no occurrence. |
| `Routing.SplitHtmlSuffix` | sourceCode/various/app.cpp:882-889 | In the GUI build (`SIM_WITH_GUI`) and for `scriptErrorMsg == false`, which is how `_logMsg` calls it: a text taken as HTML is the returned body followed by "@html". Any other text is returned whole. |
| `Routing.SplitHtmlSuffixExact` | sourceCode/various/app.cpp:882-889 | In the GUI build (`SIM_WITH_GUI`) and for `scriptErrorMsg == false`, which is how `_logMsg` calls it, `addStatusbarMessage` takes a text as HTML exactly when it ends with "@html", and then strips exactly those five characters. Any other text is kept whole. |
| `Routing.StatusbarTextRoundTrip` | sourceCode/various/app.cpp:1658-1670 | In the GUI build, after stripping, a routed error arrives as `<font color='red'>msg</font>` and a routed warning as `<font color='orange'>msg</font>`, both as HTML. A higher level arrives as the message itself, and is read as HTML only if the message itself ends with "@html". |
| `ColorParts.VisualParamFromItem` | sourceCode/various/app.cpp:1141-1375 | The item's colour object is found iff the item is recognised and the scene holds the object. A found object comes with the item's non-zero parts mask; when nothing is found, `allowedParts` is 0. The dialog title is assigned iff the item is recognised. |
| `ColorParts.RgbPointerFromItem` | sourceCode/various/app.cpp:1122-1138 | A component pointer is handed out only for an object that is present and a known component. It is that component's offset, a multiple of 3 no larger than 12. |
| `ColorParts.RgbOnlyWhenAllowed` | sourceCode/various/app.cpp:1122-1138 | A component is returned iff the colour object is found and the item allows that component's bit (ambient/diffuse 1, diffuse 2, specular 4, emission 8, auxiliary 16). Its offset is then 0, 3, 6, 9 or 12, and all three floats lie inside the 15-float array. |
| `ColorParts.ComponentSlotsDisjoint` | sourceCode/various/app.cpp:1122-1133 | Two different components get disjoint triples of floats and disjoint bits. |
| `ColorParts.DiffuseOnlyForLights` | sourceCode/various/app.cpp:1258-1272 | Only the light item allows the diffuse bit. That item does not allow ambient/diffuse. |
| `AppState.ArgumentSetThenGet` | sourceCode/various/app.cpp:688-709 | After setting slot i < 9, reading slot i gives the value. For i >= 9, the read gives "". Every other slot reads as before. |
| `AppState.NamedParam` | sourceCode/various/app.cpp:731-737 | `getApplicationNamedParam` returns the stored value. While no stored value is empty, it returns "" exactly for an absent name. |
| `AppState.SetNamedParam` | sourceCode/various/app.cpp:739-757 | The status is -1, 0 or 1. It is -1 with the table unchanged exactly when the name is empty. No key other than the name is added, and no stored value becomes empty. |
| `AppState.SetNamedParamStatus` | sourceCode/various/app.cpp:739-757 | While no stored value is empty, the status is -1 exactly for an empty name, 1 exactly for a key that was absent, and 0 exactly for a key that was present. |
| `AppState.SetNamedParamThenGet` | sourceCode/various/app.cpp:731-757 | After a set, the name reads back as the first n characters of the value ("" when n is 0, because the key is then erased). Other keys read as before. With an empty name, nothing changes. No stored value becomes empty. |
| `AppState.Paired` | sourceCode/various/app.cpp:245-247 | The buffered commands are paired index by index with their delays. |
| `AppState.PairedAppend` | sourceCode/various/app.cpp:254-256 | Buffering one more command appends its (command, delay) pair at the end: the two buffers stay in arrival order. |
| `AppState.RecentPush` | sourceCode/various/app.cpp:955-961 | Capping the history after every push keeps exactly the last 100 of all messages recorded since the last flush. |
| `AppState.LinesAppend` | sourceCode/various/app.cpp:980-982 | The console text for two runs of messages is the text for the first run followed by the text for the second. |
| `AppState.JoinLines` | sourceCode/various/app.cpp:980-982 | The loop builds each history message followed by a line break, in order. |
| `AppState.App.constructor` | sourceCode/various/app.cpp:41-48 | The initial static state: no argument slots yet, an empty table, nothing buffered and no simulation thread. The console threshold is `sim_verbosity_default`, the statusbar threshold is `sim_verbosity_warnings`, and the history is empty. |
| `AppState.App.EnsureArgumentSlots` | sourceCode/various/app.cpp:690-694 | Creates nine empty slots when there are none. What reads see does not change. |
| `AppState.App.GetApplicationArgument` | sourceCode/various/app.cpp:688-698 | Returns the slot's content, or "" for index >= 9. What later reads see is unchanged. |
| `AppState.App.SetApplicationArgument` | sourceCode/various/app.cpp:700-709 | Sets slot `index`. It is a no-op for index >= 9. |
| `AppState.App.GetApplicationNamedParam` | sourceCode/various/app.cpp:731-737 | Returns the stored value, or "" when the name is absent. |
| `AppState.App.SetApplicationNamedParam` | sourceCode/various/app.cpp:739-757 | Returns the status and leaves the table that `SetNamedParam` specifies, keeping the invariant that no stored value is empty. |
| `AppState.App.SimulationThreadStarted` | sourceCode/various/app.cpp:93 | The simulation thread now exists, with an empty queue. |
| `AppState.App.SimulationThreadEnded` | sourceCode/various/app.cpp:143-144 | The simulation thread no longer exists. |
| `AppState.App.AppendSimulationThreadCommand` | sourceCode/various/app.cpp:239-259 | Without a thread, the command and delay are appended to the two buffers, which stay of equal length. With a thread, the queue becomes old queue ++ buffered pairs in order ++ the new pair, and both buffers are emptied. Either way, the sequence of all posted commands grows by exactly the new one. |
| `AppState.App.ForwardPending` | sourceCode/various/app.cpp:245-247 | Forwards the buffered pairs to the queue in order. |
| `AppState.MakeCommand` | sourceCode/various/app.cpp:222-235 | The convenience overload's command has the given id, the int list `[intP1, intP2]`, the float list `[floatP1, floatP2]` and two strings in order, each the given string or "" when it is null. |
| `AppState.App.AppendSimulationThreadCommandWith` | sourceCode/various/app.cpp:220-237 | Posts that command exactly as the struct overload does. Without a thread, the command goes to the buffers and the thread stays absent. With a thread, the queue becomes old queue ++ buffered pairs ++ the new pair, and the buffers are emptied. |
| `AppState.App.SetConsoleVerbosity` | sourceCode/various/app.cpp:1689-1698 | Changes the global console threshold or the plugin's own threshold, as `SetVerbosity` specifies. Nothing else changes. |
| `AppState.App.SetStatusbarVerbosity` | sourceCode/various/app.cpp:1716-1726 | Changes the global statusbar threshold or the plugin's own threshold, as `SetVerbosity` specifies. Nothing else changes. |
| `AppState.App.RecordStatusbarMessage` | sourceCode/various/app.cpp:949-986 | Appends the message and keeps the last 100. When the history is flushed, returns the history as console text and empties it. |

## Left out

- Thread lifecycle: the two-thread handshake, `_workThread`, `simulationThreadInit`/`Destroy`/`Loop`, `run` and the `_quitLevel` polling are concurrency. Only the moments when `simThread` is assigned and cleared are modelled.
- Qt and GUI code: the style, font and resource setup, the splash screen, the icon and main-window helpers, and the statusbar widget calls are not modelled.
- `addStatusbarMessage`: the script-error colouring and its `QString` escaping are not modelled. The HTML-to-plain-text conversion of the history and of the headless console redirect is Qt, and is not modelled either. `RecordStatusbarMessage` takes the text as it is recorded.
- `RecordStatusbarMessage`: the history is kept only when a main window exists and a licence flag is set (app.cpp:948), and whether it is flushed depends on the message-console GUI (the `scriptErrorMsg` flag and an open console). That decision is taken as the `flush` parameter.
- Plugin dispatch, Lua script containers, `CWorldContainer`, `CLibLic` and the scene-object getters are foreign calls. The plugin table is a map from name to its two thresholds. The plugin container that fills it is not part of this model; `AppState.App.PluginLoaded` stands for its registration of a plugin. Scene lookups are partial maps in `ColorParts.Scene`, and pointer identity is not modelled.
- `getPluginFromName(name, true)` is modelled as an exact lookup by name.
- File and OS I/O are not modelled: `debugLog.txt` writing in `_logMsg`, the crash flag, auto-save deletion, `beep` and `setShowConsole`. The console sink of `_logMsg` is the line it would print.
- `_logMsg_noDecoration`'s `printf`-style substitution into a 2000-byte buffer is not modelled.
- `Routing.LogMsg`: the call without substitution strings copies the decorated message with `strcpy` into a `char[2000]` (app.cpp:1611, 1625). A decorated message of 2000 characters or more overflows that buffer, which is undefined behaviour. The model does not bound the length and routes the whole decorated message.
- `Routing.LogMsgGateIsTransparent`: it inherits the unbounded length of `Routing.LogMsg`, so it also covers decorated messages of 2000 characters or more, which overflow the source's buffer.
- `Routing.SplitHtmlSuffix`, `Routing.SplitHtmlSuffixExact`, `Routing.StatusbarTextRoundTrip`: the `@html` test and strip in `addStatusbarMessage` are compiled only with `SIM_WITH_GUI` (app.cpp:881-889), so these members describe the GUI build.
- Float command parameters are opaque 32-bit patterns (`Float32`). No arithmetic is done on them.
- `getRGBPointerFromItem`: the cases before the visual-parameter lookup (app.cpp:1013-1120) return fixed colour arrays of the environment, mirrors, octrees, point clouds, graphs and buttons. They do not involve `allowedParts` and are not modelled. The model covers only the component selection of app.cpp:1122-1138.
- `ColorParts.VisualParamFromItem`: the shape-component case models the GUI build, where `mainWindow` exists. Without the GUI, that item is never recognised.
- `AppState.App.GetApplicationArgument`, `AppState.App.SetApplicationArgument`: the source checks only `index < 9`, so a negative index reads or writes outside the vector, which is undefined behaviour. The index is a `nat` in the model.
- `AppState.App.SetApplicationNamedParam`: the source builds the value from `param` and `paramLength` without a check, so the model requires 0 <= n <= |param|.
- `Routing.PluginMsgFollowsPluginVerbosity`: stated only for effective plugin thresholds other than -1. `_logMsg` reads -1 as "use the global threshold", so a plugin whose own threshold is -1 would be routed by the global one (when `useGlobal` is not -1).
