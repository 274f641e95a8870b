# bladdons, modelled in Dafny

bladdons is a collection of Blender add-ons and Blender Game Engine scripts. This project
models the parts of it that hold logic of their own:

- the two OSC senders (`addons/modules/osc_sender.py`, `addons/ui-editor/osc_sender.py`);
- the **bl2030** add-on, which sends timeline markers and changed custom properties over OSC
  on every frame change;
- the **ui-editor** add-on, which walks an object tree and sends the position, rotation,
  scale and vertices of each object whenever they changed;
- the **point cloud loader** add-on: frame-file numbering, path resolution, CSV parsing with
  point skipping, and the mesh vertex bookkeeping;
- the cylinders sketch: its HTTP request handler and the `/rot/x/y/z` route, the animation
  timers, the spawner, the colour records and the rotation follower;
- the cylinders test game (`game.py`, `spawner.py`, `http_rot.py`) and the light-start
  sketch (`strip.py` and the animation manager of its test).

Each source file becomes one Dafny module. Code that updates objects in place is modelled
by classes whose methods state the new state in full; values, parsers and the sweeps
inside loops are modelled by functions, and the promises the code makes are lemmas about
those functions. A few shared modules hold what several files rely on: `Common` (Python
scalars and their `==`, exceptions, OSC messages), `Numerals` (`str(int)` and `int(str)`),
`Strings` (`split`, `rfind`, `startswith`) and `Lists` (`list.remove` and removing while
iterating). The cylinders test scripts share three more: `Rings` (the ring names, spawn
settings and ring sweep of the games and spawners), `RotCommand` (the `/rot/` request
pattern and the rotation it sets) and `RequestEvent` (the request event and the server
record of the test web server).

The host applications (`bpy`, `bge`), the operating system and the network are outside
the model. What the code reads from them is passed in as parameters: scene objects as
values, whether a socket opens or a send goes through, the wall clock, file contents, the
float parser. A Python exception that escapes an operation is an `Option<PyError>` result.
The add-ons hold Blender objects and scenes by reference, so a Blender object is an identity
(`BlenderRef`): registries are keyed by it, and an object's name and properties are read
from the current host state on every use. Reading a deleted object raises ReferenceError, as
Blender does.

The `try/except` around the send in `addons/modules/osc_sender.py` was meant to drop a
failed send. Its handler concatenates the exception onto a string, which raises TypeError.
`addons/ui-editor/osc_sender.py` logs the failure and raises it again. Both are modelled as
the exception escaping to the caller, and the callers' loops end there.

## Model

| member | source | states |
|---|---|---|
| Common.PyEqIsEquivalence | addons/bl2030.py:192-196 | Python `==` on property values is reflexive, symmetric and transitive, so "changed" never holds of a value and itself |
| Common.PyEqAcrossNumericTypes | addons/bl2030.py:194 | `cur != prev_value` treats 1, 1.0 and True as equal and a string as different from a number |
| Common.PyEq | addons/bl2030.py:194 | Python `==` on scalars: numbers compare by value across int, float and bool, a string equals only the same string |
| Common.Trunc | addons/blender_point_cloud_loader.py:138 | `int()` of a float truncates toward zero: the result lies within one of the argument, on the side of zero |
| Numerals.DigitChar | addons/ui-editor/osc_sender.py:17 | the digit character for a value below 10 is a decimal digit with that value |
| Numerals.Digits | addons/ui-editor/osc_sender.py:17 | `str(n)` of a natural number has at least one digit |
| Numerals.DigitsAreDigits | addons/ui-editor/osc_sender.py:17 | `str(n)` of a natural number consists of decimal digits only |
| Numerals.ParseDigitsOfDigits | addons/modules/osc_sender.py:55 | reading back the digits of a natural number gives that number |
| Numerals.ParseIntRoundTrip | addons/modules/osc_sender.py:55 | `int(str(n)) == n` for every integer, so a port given as a string of digits is read back as that port |
| Numerals.IntToStringInjective | addons/ui-editor/osc_sender.py:17 | different integers print differently |
| Numerals.IntToStringChars | addons/ui-editor/osc_sender.py:17 | `str(n)` holds only digits and '-', never the ':' of a registry key |
| Numerals.IntToString | addons/ui-editor/osc_sender.py:17 | `str(n)`: the digits of |n|, after a '-' when n is negative |
| Numerals.ParseDigits | addons/modules/osc_sender.py:55 | the value of a non-empty string of decimal digits, leading zeros allowed |
| Numerals.ParseInt | addons/modules/osc_sender.py:55 | `int(s)`: surrounding whitespace ignored, an optional sign, then digits that single underscores may group; None for the ValueError |
| Numerals.StripLeft | addons/modules/osc_sender.py:55 | `s.lstrip()`, never longer than s |
| Numerals.StripRight | addons/modules/osc_sender.py:55 | `s.rstrip()`, never longer than s |
| Numerals.Ungroup | addons/modules/osc_sender.py:55 | the numeral without its underscores, never longer than it |
| Numerals.StripLeftSpec | addons/modules/osc_sender.py:55 | `lstrip` leaves a suffix that does not start with whitespace and drops only whitespace |
| Numerals.StripRightSpec | addons/modules/osc_sender.py:55 | `rstrip` leaves a prefix that does not end with whitespace and drops only whitespace |
| Numerals.UngroupSpec | addons/modules/osc_sender.py:55 | ungrouping keeps no underscore and only characters of the numeral, so grouped digits ungroup to digits |
| Numerals.UngroupDigits | addons/modules/osc_sender.py:55 | a plain string of digits is grouped and ungroups to itself |
| Numerals.UnsignedOfDigits | addons/modules/osc_sender.py:55 | the digits of a natural number read back as that number |
| Numerals.ParseIntSkipsLeadingSpace | addons/modules/osc_sender.py:55 | whitespace before a numeral does not change what `int()` reads |
| Numerals.StripLeftSnoc | addons/modules/osc_sender.py:55 | appending to a string that does not start with whitespace leaves its left strip as it is |
| Numerals.ParseIntSkipsTrailingSpace | addons/modules/osc_sender.py:55 | whitespace after a numeral does not change what `int()` reads |
| Numerals.ParseInt2031 | addons/bl2030.py:25 | the configured port string '2031' reads as 2031 |
| Numerals.ParseIntSpaceExamples | addons/modules/osc_sender.py:55 | ' 2031' and '2031\n' read as 2031 |
| Numerals.ParseIntUnderscoreExample | addons/modules/osc_sender.py:55 | '2_031' reads as 2031 |
| Numerals.ParseIntRejectExamples | addons/modules/osc_sender.py:55 | a doubled, leading or trailing underscore, a space after the sign and a blank string raise ValueError |
| Strings.LastIndex | tests/cylinders/scripts/game.py:82 | the result is -1 or an index holding the character, and no later index holds it |
| Strings.LastIndexBeforeFree | tests/cylinders/scripts/game.py:82 | in `h + c + t` with no `c` in `t`, the last `c` is the one right after `h` |
| Strings.Split | sketches/cylinders/scripts/http_rot.py:57 | `s.split(sep)` always has at least one part |
| Strings.JoinSplit | sketches/cylinders/scripts/http_rot.py:57 | joining the parts of `s.split(sep)` with `sep` gives back `s` |
| Strings.SplitJoin | sketches/cylinders/scripts/http_rot.py:57 | splitting a join of separator-free parts gives back exactly those parts |
| Strings.SplitPartsFree | sketches/cylinders/scripts/http_rot.py:57 | no part of a split holds the separator |
| Strings.SplitOfFree | sketches/cylinders/scripts/http_rot.py:57 | a string without the separator splits into itself alone |
| Strings.SplitCons | sketches/cylinders/scripts/http_rot.py:57 | a separator-free head followed by the separator splits off as the first part |
| Strings.SplitCount | addons/ui-editor/__init__.py:137-140 | `s.split(c)` has one part more than `s` has occurrences of `c` |
| Strings.SplitHead | addons/ui-editor/__init__.py:128 | the first part of a split is a separator-free prefix of the string, the whole string when it holds no separator |
| Strings.JoinSnoc | sketches/cylinders/scripts/http_rot.py:57 | joining one more part appends the separator and that part |
| Strings.Join | sketches/cylinders/scripts/http_rot.py:57 | `sep.join(parts)`: the parts with the separator between each two |
| Strings.StartsWith | addons/bl2030.py:67 | `s.startswith(prefix)` |
| Strings.Count | addons/ui-editor/__init__.py:137-140 | the number of occurrences of a character (`s.count(c)`) |
| Lists.RemoveFirst | sketches/cylinders/scripts/anim.py:79 | `list.remove(x)` drops one element when `x` is present and leaves the list alone otherwise |
| Lists.RemoveFirstAt | sketches/cylinders/scripts/anim.py:79 | removing the element at a position whose value occurs nowhere earlier drops exactly that position |
| Lists.RemoveFirstMultiset | tests/cylinders/scripts/http_rot.py:28 | `list.remove(x)` of a present `x` takes exactly one `x` out of the multiset of subscribed callbacks |
| Lists.Keep | sketches/cylinders/scripts/anim.py:68-75 | what is kept is a sub-list of the original that avoids the dropped elements |
| Lists.Only | sketches/cylinders/scripts/anim.py:68-72 | what is collected is a sub-list of the original made of picked elements |
| Lists.KeepAppend | sketches/cylinders/scripts/anim.py:68-75 | keeping from a concatenation keeps from the first part, then from the second, so the kept elements stay in their order |
| Lists.OnlyAppend | sketches/cylinders/scripts/anim.py:68-72 | collecting from a concatenation collects from the first part, then from the second, so the collected elements stay in their order |
| Lists.RemoveAll | sketches/cylinders/scripts/anim.py:74-75 | `for x in xs: s.remove(x)`, each removal in turn |
| Lists.RemoveAllSnoc | sketches/cylinders/scripts/spawner.py:32-34 | removing one more element after a batch is removing the batch extended by that element |
| Lists.Distinct | sketches/cylinders/scripts/spawner.py:23-30 | a list without repetitions |
| Lists.OnlySnoc | sketches/cylinders/scripts/anim.py:69-72 | collecting over one more element appends it exactly when it is picked |
| Lists.OnlyComplete | sketches/cylinders/scripts/spawner.py:23-30 | every picked element of the list is collected |
| Lists.KeepComplete | sketches/cylinders/scripts/spawner.py:32-33 | every element of the list that is not dropped is kept |
| Lists.DistinctSnoc | addons/bl2030.py:100-101 | appending an element that is not there yet keeps a list without repetitions |
| Lists.OnlyMultiset | sketches/cylinders/scripts/anim.py:68-75 | the collected elements are taken from the list, each at most as often as it occurs, so removing them one by one never misses |
| Lists.OnlyDistinct | sketches/cylinders/scripts/spawner.py:23-30 | collecting from a list without repetitions gives a list without repetitions |
| Lists.RemoveAllSkipsHead | sketches/cylinders/scripts/anim.py:74-75 | removing elements that do not include the head leaves the head in front |
| Lists.RemoveCollected | sketches/cylinders/scripts/anim.py:68-75 | removing the collected elements one by one leaves exactly the others, in order |
| Lists.OddPositions | sketches/cylinders/scripts/anim.py:83-85 | half the elements (rounded down), those at odd positions, in order |
| Lists.ClearStep | sketches/cylinders/scripts/anim.py:83-85 | one iteration of removing while iterating drops the element at the cursor and keeps the odd positions before it |
| Lists.ClearDone | sketches/cylinders/scripts/anim.py:83-85 | when the cursor passes the end, the list is the odd positions of the original |
| ModulesOscSender.IntOf | addons/modules/osc_sender.py:55 | `int(v)`: an int is itself, a string is parsed as `int()` parses it (None for ValueError) |
| ModulesOscSender.PortOf | addons/modules/osc_sender.py:53-55 | no port option gives 8080; otherwise the port is `int()` of the option, which for a string is Python's parse (whitespace, sign, underscores) and None for its ValueError |
| ModulesOscSender.HostOf | addons/modules/osc_sender.py:57-59 | the `host` option, or '127.0.0.1' when there is none |
| ModulesOscSender.Opens | addons/modules/osc_sender.py:61-69 | the client is created: the port parses and the socket opens |
| ModulesOscSender.Connects | addons/modules/osc_sender.py:61-73 | `_connect()` returns True: the client is created and the log line, which concatenates the host onto a string, does not raise |
| ModulesOscSender.PrintedPortReadsBack | addons/modules/osc_sender.py:55 | a port option holding `str(n)` is read as port `n` |
| ModulesOscSender.OscSender.constructor | addons/modules/osc_sender.py:17-29 | a new sender has the given options, no client, and is neither running nor connected |
| ModulesOscSender.OscSender.Configure | addons/modules/osc_sender.py:34-43 | the given options are merged over the old ones; a host or port given while running reconnects, leaving the sender running exactly when the connect succeeds and raising TypeError after the client is set when the host is not a string; anything else leaves the connection alone and raises nothing |
| ModulesOscSender.OscSender.Setup | addons/modules/osc_sender.py:45-47 | the sender runs from the moment a connect succeeds; a client that opens is kept even when the log line then raises TypeError, which escapes before `running` is set; a connect that fails to open changes nothing |
| ModulesOscSender.OscSender.Destroy | addons/modules/osc_sender.py:49-51 | afterwards there is no client and the sender is neither running nor connected, whatever it was before |
| ModulesOscSender.OscSender.Connect | addons/modules/osc_sender.py:61-73 | succeeds exactly when the port parses, the socket opens and the host is a string; an opened client is held for host and port even when the log line raises TypeError for a non-string host; a failure to open is caught and changes nothing |
| ModulesOscSender.OscSender.Disconnect | addons/modules/osc_sender.py:75-80 | afterwards there is no client and the sender is not connected |
| ModulesOscSender.OscSender.Send | addons/modules/osc_sender.py:83-98 | with a client and a working network exactly one message with the address and the arguments in order goes to the client; otherwise the handler's string concatenation raises TypeError and nothing is sent |
| ModulesOscSender.BuildMessage | addons/modules/osc_sender.py:88-91 | the built message has the given address and the parameters in order |
| UiOscSender.InstanceKeyInjective | addons/ui-editor/osc_sender.py:17 | two host and port pairs share a registry key only when they are the same pair |
| UiOscSender.InstanceKey | addons/ui-editor/osc_sender.py:17 | the registry key `str(host) + ':' + str(port)` |
| UiOscSender.OscSender.constructor | addons/ui-editor/osc_sender.py:28-36 | a new sender has its host and port, no client, and is not connected |
| UiOscSender.OscSender.Setup | addons/ui-editor/osc_sender.py:45-46 | a successful connect holds a client for host and port; a failed one changes nothing |
| UiOscSender.OscSender.Destroy | addons/ui-editor/osc_sender.py:48-49 | afterwards there is no client and the sender is not connected |
| UiOscSender.OscSender.Connect | addons/ui-editor/osc_sender.py:51-74 | the result is whether the socket opened; on success a client for host and port and `connected` set, on failure nothing changes |
| UiOscSender.OscSender.Disconnect | addons/ui-editor/osc_sender.py:76-81 | afterwards there is no client and the sender is not connected |
| UiOscSender.OscSender.Send | addons/ui-editor/osc_sender.py:84-100 | with a client and a working network one message with the address and arguments in order is sent; without a client AttributeError escapes, and a failed transmit re-raises its error; a failure sends nothing |
| UiOscSender.OscSender.SetVerbose | addons/ui-editor/osc_sender.py:108-112 | the log level is DEBUG when verbose and WARNING otherwise |
| UiOscSender.OscSender.IsConnected | addons/ui-editor/osc_sender.py:105-106 | `isConnected()` has no return statement, so it yields None whatever the connection state |
| UiOscSender.Registry.constructor | addons/ui-editor/osc_sender.py:15 | the registry starts empty |
| UiOscSender.Registry.InstanceFor | addons/ui-editor/osc_sender.py:16-26 | the result always targets exactly the requested host and port: the sender filed under `host:port` when present, the registry unchanged; otherwise a new sender for that host and port is filed under the key, other entries unchanged |
| CylindersAnim.Advance | sketches/cylinders/scripts/anim.py:19-35 | an inactive animation is left alone; an active one adds the step (a truthy `dt`, else the wall-clock delta) to `t`, sets progress to `t / duration`, and is finished and inactive exactly when `t` reached the duration |
| CylindersAnim.WallClock | sketches/cylinders/scripts/anim.py:23-29 | without a step the first update only reads the clock, and the next one advances by the time elapsed since |
| CylindersAnim.ProgressGrows | sketches/cylinders/scripts/anim.py:31-32 | with a positive duration and step, progress strictly increases |
| CylindersAnim.Anim.constructor | sketches/cylinders/scripts/anim.py:4-10 | no time, progress 0, neither active nor finished, no clock reading |
| CylindersAnim.Anim.Start | sketches/cylinders/scripts/anim.py:12-17 | time and progress 0, active, not finished, clock forgotten |
| CylindersAnim.Anim.Update | sketches/cylinders/scripts/anim.py:19-35 | the new state is `Advance` of the old one |
| CylindersAnim.Manager.constructor | sketches/cylinders/scripts/anim.py:47-54 | no animations and no clock reading |
| CylindersAnim.Manager.Add | sketches/cylinders/scripts/anim.py:56-57 | the animation is appended |
| CylindersAnim.Manager.Remove | sketches/cylinders/scripts/anim.py:77-81 | the first occurrence is removed; an unknown animation leaves the list and logs one warning |
| CylindersAnim.Manager.Start | sketches/cylinders/scripts/anim.py:87-89 | the animation is reset to its started state and appended |
| CylindersAnim.Manager.Clear | sketches/cylinders/scripts/anim.py:83-85 | removing while iterating leaves exactly the animations at odd positions of a list without repetitions, not an empty list; no removal warns, whatever the list |
| CylindersAnim.Manager.Update | sketches/cylinders/scripts/anim.py:59-75 | every animation advances once with the manager's step; with `removeFinished` exactly the unfinished ones remain, in order, and otherwise the list is unchanged; no removal warns |
| CylindersAnim.Manager.CollectFinished | sketches/cylinders/scripts/anim.py:68-72 | every animation advances with the step, and the finished ones are collected in list order when `removeFinished` is set, each at most as often as it is in the list |
| CylindersAnim.Manager.RemoveEach | sketches/cylinders/scripts/anim.py:74-75 | the list after removing each collected animation in turn; no warning when every collected animation is in the list at least as often |
| LightStartAnim.Advance | tests/lightStart/anim/anim.py:17-25 | an inactive animation is left alone; an active one adds `dt` to `t`, sets progress to `t / duration`, and is finished and inactive exactly when `t` reached the duration |
| LightStartAnim.Anim.constructor | tests/lightStart/anim/anim.py:4-9 | no time, progress 0, neither active nor finished |
| LightStartAnim.Anim.Start | tests/lightStart/anim/anim.py:11-15 | time and progress 0, active, not finished |
| LightStartAnim.Anim.Update | tests/lightStart/anim/anim.py:17-25 | the new state is `Advance` of the old one |
| LightStartAnim.FinishesWithAdvance | tests/lightStart/anim/anim.py:21-25 | an animation is finished after `update(dt)` exactly when it already was, or was active and `t + dt` reaches the duration |
| LightStartAnim.Fates | tests/lightStart/anim/anim.py:57-60 | one fate (kept, removed or skipped) per position of the list |
| LightStartAnim.FatesPrefix | tests/lightStart/anim/anim.py:57-60 | the fate of a position depends only on the positions before it |
| LightStartAnim.FateAt | tests/lightStart/anim/anim.py:57-60 | a position is skipped exactly when the one before it was removed; any other position is removed exactly when its animation finishes |
| LightStartAnim.NextIsSkipped | tests/lightStart/anim/anim.py:57-60 | removing an animation while iterating makes the loop pass over the next one, so two animations are never removed in a row |
| LightStartAnim.NoneFinishAllKept | tests/lightStart/anim/anim.py:57-60 | when no animation finishes, every one is updated and kept |
| LightStartAnim.Survivors | tests/lightStart/anim/anim.py:57-60 | the list after a pass holds at most as many animations as were looked at |
| LightStartAnim.SurvivorsSubset | tests/lightStart/anim/anim.py:57-60 | a pass keeps only animations it has been over, and every one of them it did not remove |
| LightStartAnim.RemovedAreGone | tests/lightStart/anim/anim.py:59-60 | an animation the pass removes is not in the list afterwards |
| LightStartAnim.ProgressAt | tests/lightStart/anim/anim.py:57 | the loop goes on exactly while positions remain, and the element at the iteration index is the animation at the current position |
| LightStartAnim.ProgressDone | tests/lightStart/anim/anim.py:57 | when the loop stops, every position has been dealt with and the list is what the pass keeps |
| LightStartAnim.ProgressKept | tests/lightStart/anim/anim.py:57-59 | an animation that is not removed moves the pass on by one position |
| LightStartAnim.RemovedAt | tests/lightStart/anim/anim.py:59-60 | the animation removed is the one at the current position, and removing its first occurrence removes exactly it |
| LightStartAnim.ProgressRemovedLast | tests/lightStart/anim/anim.py:59-60 | removing the last animation ends the loop with the index past the end |
| LightStartAnim.ProgressRemovedSkip | tests/lightStart/anim/anim.py:59-60 | removing any other animation moves the pass on by two positions, past the one that slid into its place |
| LightStartAnim.Durations | tests/lightStart/anim/anim.py:4-5 | one duration per animation, in list order |
| LightStartAnim.States | tests/lightStart/anim/anim.py:3-25 | one state per animation, in list order, valid when the animations are |
| LightStartAnim.ValidFromStates | tests/lightStart/anim/anim.py:3-25 | animations whose states and durations are valid are valid |
| LightStartAnim.AfterVisits | tests/lightStart/anim/anim.py:57-58 | the states after the pass has been over some positions stay valid |
| LightStartAnim.AfterVisitsStep | tests/lightStart/anim/anim.py:57-58 | visiting a position updates exactly that animation; passing over a skipped one changes nothing |
| LightStartAnim.Visit | tests/lightStart/anim/anim.py:57-60 | at a position not after a removal the animation is updated, removed exactly when it then is finished, and a removal passes over the next position |
| LightStartAnim.UpdateAt | tests/lightStart/anim/anim.py:58 | updating one animation of a list without repetitions changes only that animation's state |
| LightStartAnim.Manager.constructor | tests/lightStart/anim/anim.py:37-43 | no animations and no clock reading |
| LightStartAnim.Manager.Remove | tests/lightStart/anim/anim.py:62-66 | the first occurrence is removed; an unknown animation leaves the list and logs one warning |
| LightStartAnim.Manager.Add | tests/lightStart/anim/anim.py:45-46 | the animation is appended |
| LightStartAnim.Manager.Start | tests/lightStart/anim/anim.py:72-74 | the animation is reset to its started state and appended |
| LightStartAnim.Manager.Clear | tests/lightStart/anim/anim.py:68-70 | removing while iterating leaves exactly the animations at odd positions of a list without repetitions; no removal warns, whatever the list |
| LightStartAnim.Manager.Update | tests/lightStart/anim/anim.py:48-60 | the clock is advanced as for the cylinders manager; every position that is not skipped is updated, and the list keeps exactly the animations not removed, in order; no removal warns |
| LightStartAnim.Manager.RemoveVisited | tests/lightStart/anim/anim.py:60 | removing an animation from the list changes no animation's state, and one in the list is removed without a warning |
| LightStartAnim.Manager.SweepList | tests/lightStart/anim/anim.py:57-60 | the list after the loop is the survivors of the pass and the states are those after visiting every position, and no warning is logged |
| LightStartAnim.Manager.VisitAt | tests/lightStart/anim/anim.py:57-60 | one iteration keeps the pass consistent with the fates and moves it on by at least one position, without a warning |
| Bl2030.RelevantNames | addons/bl2030.py:141-147 | at most as many names as keys, all of them OSC addresses |
| Bl2030.RelevantNamesMembers | addons/bl2030.py:141-147 | a name is kept exactly when it is a key that starts with '/' |
| Bl2030.RelevantIffAddressKey | addons/bl2030.py:132-133 | an object is relevant exactly when one of its keys starts with '/' |
| Bl2030.RelevantRefs | addons/bl2030.py:96-102 | at most one entry per scene object; a scene object is listed exactly when one of its keys starts with '/' |
| Bl2030.RegisterSpec | addons/bl2030.py:104-124 | registration keeps the existing entries in place, registers every candidate, adds nothing else, and never registers a name twice |
| Bl2030.RegisteredIn | addons/bl2030.py:117-124 | the object-name lookup over the wrapped objects: true at the first with the name, none (ReferenceError) at a deleted one reached first |
| Bl2030.RegisteredInSpec | addons/bl2030.py:117-124 | the lookup raises exactly when a deleted object's wrapper comes before any with the name; over live objects it says whether one of them has the name |
| Bl2030.NameLookupIsIdentity | addons/bl2030.py:104-124 | with unique names and live objects, looking an object's name up finds exactly whether that object is wrapped, whatever it was called when wrapped |
| Bl2030.RegisterScene | addons/bl2030.py:104-115 | `_update_object_wrappers()` over the scene: each object looked up by its current name and, when not found and relevant, wrapped at the end; a lookup that raises ends the loop |
| Bl2030.RegisterSceneAlive | addons/bl2030.py:104-124 | while every wrapped object is alive a refresh never raises, and with unique names it registers by identity: every relevant scene object not wrapped yet is appended once, in scene order, and a renamed object keeps its single wrapper |
| Bl2030.RegisterSceneRaises | addons/bl2030.py:104-124 | a refresh only appends; it raises only ReferenceError and only when a wrapped object was deleted, and with a deleted object first any non-empty scene raises at once |
| Bl2030.RelevantRefsStep | addons/bl2030.py:98-101 | one more scene object is listed exactly when it is relevant |
| Bl2030.RelevantRefsAppend | addons/bl2030.py:98-101 | the relevant objects of a scene with one more object are those of the scene, then that object when relevant |
| Bl2030.RegisterSnoc | addons/bl2030.py:163-172 | one more candidate is appended exactly when it is not registered yet |
| Bl2030.Register | addons/bl2030.py:163-172 | registration of candidates one by one: each is appended unless already registered |
| Bl2030.IsAddress | addons/bl2030.py:145 | a name that starts with '/' |
| Bl2030.MarkerFires | addons/bl2030.py:67 | a marker on the current frame whose name starts with '/' |
| Bl2030.MarkerMessages | addons/bl2030.py:66-68 | at most one message per marker, each addressed with an OSC address and without arguments |
| Bl2030.MarkerMessagesSpec | addons/bl2030.py:66-68 | a message is sent for a marker exactly when it sits on the current frame and its name starts with '/' |
| Bl2030.MarkerMessagesAppend | addons/bl2030.py:66-68 | the markers of a concatenation fire in order, those of the first part first |
| Bl2030.MarkerMessagesStep | addons/bl2030.py:66-68 | marker `k` adds its message, if it fires, after those of the markers before it |
| Bl2030.ChangedValue | addons/bl2030.py:192-196 | the current value exactly when it differs (Python `!=`) from the previous one or nothing was sent yet, None otherwise |
| Bl2030.Stored | addons/bl2030.py:198-202 | after `update()` the wrapper always remembers a value equal to the current one |
| Bl2030.SecondUpdateIsSilent | addons/bl2030.py:192-202 | a second `update()` with an equal value reports nothing |
| Bl2030.SweepUpTo | addons/bl2030.py:73-78 | a pass keeps one remembered value per wrapper |
| Bl2030.SweepUpToFrame | addons/bl2030.py:74-78 | the first `k` iterations leave the later wrappers untouched |
| Bl2030.Emitted | addons/bl2030.py:75-78 | a property contributes one message, its name with its value, exactly when it is present and changed |
| Bl2030.ReportAdvances | addons/bl2030.py:74-78 | one wrapper's report either ends the pass with its exception or completes its iteration with its message appended |
| Bl2030.SweepHalts | addons/bl2030.py:73-78 | once an exception is raised, the rest of the pass changes nothing |
| Bl2030.SweepUpToSpec | addons/bl2030.py:73-78 | the first `k` iterations complete exactly when those properties exist and either sending works or none changed; they then remember every current value and send one message per changed property, carrying its name and value, and no other |
| Bl2030.SweepAllSpec | addons/bl2030.py:73-78 | the same for the whole pass over an object's property wrappers |
| Bl2030.SweepTwiceIsSilent | addons/bl2030.py:73-78 | after a completed pass, a second pass over the same values sends nothing and remembers the same values |
| Bl2030.SilentUpTo | addons/bl2030.py:73-78 | wrappers that remember the current values send nothing and keep their values |
| Bl2030.SweepMessagesNamed | addons/bl2030.py:78 | every message of a pass is addressed to one of the property names and carries one argument |
| Bl2030.SweepStep | addons/bl2030.py:74-78 | one property wrapper's iteration: read the value (KeyError when gone), remember and send it when changed, raising when the send fails |
| Bl2030.SweepAll | addons/bl2030.py:73-78 | the property loop over an object's wrappers, in order, up to the first exception |
| Bl2030.SentFor | addons/bl2030.py:78 | the message a changed property sends: its name with the value as the one argument |
| Bl2030.Padded | addons/bl2030.py:187 | the remembered values of the wrappers after new ones were appended: the old values first, no previous value for the new wrappers |
| Bl2030.WrappedNames | addons/bl2030.py:149-172 | the property names after `property_wrappers()`: new address keys registered when there are wrappers, else built from the cached names, else from the keys |
| Bl2030.Deliveries | addons/modules/osc_sender.py:93-95 | one datagram per message, in order, all to the client's endpoint |
| Bl2030.DeliveriesAppend | addons/modules/osc_sender.py:93-95 | the datagrams of two batches of messages are those of the first, then those of the second |
| Bl2030.SentAfter | addons/modules/osc_sender.py:93-95 | with a client the messages are delivered to it; without one nothing is delivered |
| Bl2030.Sent | addons/modules/osc_sender.py:93-95 | the datagrams of a batch of messages: one per message to the client, none without one |
| Bl2030.PropertyWrapper.constructor | addons/bl2030.py:184-187 | the wrapper holds the property name and no previous value |
| Bl2030.PropertyWrapper.Update | addons/bl2030.py:198-202 | the result is the changed value, if any, and the wrapper then remembers it |
| Bl2030.PropertyWrapper.Report | addons/bl2030.py:74-78 | a missing property raises KeyError and changes nothing; a changed value is remembered and sent as a one-argument message named after the property, and a send that cannot go through raises TypeError after the store |
| Bl2030.PropertyNames | addons/bl2030.py:178-180 | the property names of the wrappers, in order |
| Bl2030.PrevValues | addons/bl2030.py:187 | the remembered values of the wrappers, in order |
| Bl2030.PrevValuesAre | addons/bl2030.py:187 | the remembered values are determined wrapper by wrapper |
| Bl2030.ObjectWrapper.Names | addons/bl2030.py:178-180 | the registered property names, in registration order |
| Bl2030.ObjectWrapper.Prevs | addons/bl2030.py:187 | the values the property wrappers remember, in registration order |
| Bl2030.ObjectWrapper.constructor | addons/bl2030.py:127-130 | no cached property names and no property wrappers |
| Bl2030.ObjectWrapper.GetRelevantPropertyNames | addons/bl2030.py:141-147 | the keys that start with '/', in key order |
| Bl2030.ObjectWrapper.PropNames | addons/bl2030.py:135-139 | the cached names when the cache is non-empty, else the relevant names of the keys, which are then cached |
| Bl2030.ObjectWrapper.IsRelevant | addons/bl2030.py:132-133 | true exactly when the (possibly just filled) name cache is non-empty |
| Bl2030.ObjectWrapper.AlreadyRegistered | addons/bl2030.py:174-181 | true exactly when a registered wrapper has the name |
| Bl2030.ObjectWrapper.GetPropWrappers | addons/bl2030.py:157-161 | one new wrapper per cached name, in order, none with a previous value |
| Bl2030.ObjectWrapper.UpdatePropWrappers | addons/bl2030.py:163-172 | every relevant key not registered yet gets a new wrapper at the end; registered wrappers stay where they are |
| Bl2030.ObjectWrapper.AddWrapper | addons/bl2030.py:171-172 | one new wrapper for the name is appended |
| Bl2030.ObjectWrapper.PropertyWrappers | addons/bl2030.py:149-155 | with wrappers registered, new relevant keys are registered; with none, the wrappers are built from the cached names |
| Bl2030.ObjectWrapper.UpdateValues | addons/bl2030.py:74-78 | the wrappers' values, the exception and the datagrams sent are exactly those of `SweepAll` |
| Bl2030.UpdateWrapper | addons/bl2030.py:73-78 | the property names become those of `property_wrappers()`; the remembered values, the exception and the datagrams sent are exactly those of `SweepAll` over the wrappers, new ones starting without a previous value; everything sent goes to the client, is addressed to an OSC address and carries one value |
| Bl2030.ReportAll | addons/bl2030.py:74-78 | over distinct wrappers, the values, the exception and the datagrams sent are exactly those of `SweepAll` |
| Bl2030.ReportAt | addons/bl2030.py:74-78 | one iteration either ends the pass with its exception or completes it with its message handed to the client |
| Bl2030.RunnerPortIs2031 | addons/bl2030.py:22-25 | the configured port, the string '2031', is read as port 2031 |
| Bl2030.WrapObject | addons/bl2030.py:99-100 | a new wrapper of the object, without property wrappers, whose cached names are the object's address keys, relevant exactly when there is one |
| Bl2030.WrapperRefs | addons/bl2030.py:128 | the objects the wrappers hold, in order |
| Bl2030.Runner.Refs | addons/bl2030.py:121-122 | the wrapped objects, in registration order |
| Bl2030.Runner.constructor | addons/bl2030.py:44-48 | no object wrappers, no sender, not set up |
| Bl2030.Runner.AlreadyRegistered | addons/bl2030.py:117-124 | walks the wrappers reading each object's current name: true at the first one with the name, ReferenceError at a deleted object reached first, false otherwise |
| Bl2030.Runner.GetRelevantObjectWrappers | addons/bl2030.py:96-102 | one new wrapper per relevant scene object, in scene order, all different, each with the object's address keys cached and no property wrappers yet |
| Bl2030.WrapNext | addons/bl2030.py:98-101 | one iteration: the wrapper of the scene object is appended exactly when the object is relevant, new and different from the ones before |
| Bl2030.Runner.UpdateObjectWrappers | addons/bl2030.py:104-124 | the wrapped objects become those `RegisterScene` gives, and the exception too: each relevant scene object no wrapped object is currently named like is wrapped at the end, and a deleted wrapped object raises ReferenceError and ends the loop; registered wrappers stay |
| Bl2030.Runner.RegisterObject | addons/bl2030.py:105-115 | the name lookup raising ReferenceError changes nothing; otherwise the object is appended exactly when its name is not found and it has an address property |
| Bl2030.Runner.ObjectWrappers | addons/bl2030.py:82-94 | with wrappers registered, new relevant objects are picked up as `RegisterScene` says, ReferenceError included; with none, exactly the relevant scene objects are wrapped, in scene order, nothing raises, and each wrapper then holds one property wrapper per address key of its object, in key order, none holding a value |
| Bl2030.Runner.ListObjectWrappers | addons/bl2030.py:87-92 | the first call: exactly the relevant scene objects are wrapped, in scene order, and each wrapper is listed: one property wrapper per address key of its object, in key order, none holding a value |
| Bl2030.ListPropertyWrappers | addons/bl2030.py:135-172 | `property_wrappers()` over the object's current keys, as the listing loop calls it: the names registered are `WrappedNames`'s (new address keys appended after the registered ones, else the cached names, else the address keys), the registered wrappers keep their values and the new ones remember nothing; a wrapper just made, with its address keys cached, gets one per address key, in key order, none holding a value |
| Bl2030.ListAt | addons/bl2030.py:90-92 | one iteration of the listing loop: wrapper k becomes listed, the ones before stay listed and the ones after stay untouched |
| Bl2030.Runner.Setup | addons/bl2030.py:50-57 | the wrappers are collected, then a new sender for 127.0.0.1 port '2031' is set up, running exactly when its socket opens; when collecting raises (only for a runner whose wrapped object was deleted) the sender and the set-up flag stay as they were |
| Bl2030.Runner.SendMarkers | addons/bl2030.py:65-68 | with a working connection exactly the markers' messages are delivered, in marker order; otherwise nothing is sent, and TypeError is raised exactly when some marker fires |
| Bl2030.Runner.UpdateObject | addons/bl2030.py:73-78 | a deleted object raises ReferenceError and sends nothing, a wrapper without property wrappers having built them from its cached names first; for a live object the property names, the remembered values, the exception and the datagrams are exactly those of `SweepAll` over its current values |
| Bl2030.TouchDeleted | addons/bl2030.py:149-161 | a wrapper whose object was deleted raises ReferenceError; when it had no property wrappers yet they are built from its cached property names first, otherwise its names stay as they were |
| Bl2030.Runner.UpdateLive | addons/bl2030.py:73-78 | for a live object the property names, the remembered values, the exception and the datagrams sent are exactly those of `SweepAll` over the object's current values; the wrapper list and the client stay as they are |
| Bl2030.Runner.Update | addons/bl2030.py:59-80 | set up on first use; the markers' messages are delivered first, and a failing marker send ends the update with TypeError and nothing sent |
| Bl2030.Runner.SendChanges | addons/bl2030.py:63-80 | the marker messages come first, everything sent goes to the client with an OSC address, and a failing marker send ends the update |
| Bl2030.Runner.UpdateObjects | addons/bl2030.py:73-78 | the wrappers are visited in order and everything sent goes to the client with an OSC address |
| Bl2030.Runners.constructor | addons/bl2030.py:29-30 | no singleton and no per-scene runners |
| Bl2030.Runners.Instance | addons/bl2030.py:32-36 | the singleton, made on first use and the same object afterwards |
| Bl2030.Runners.InstanceFor | addons/bl2030.py:38-42 | the runner of the target scene itself, made and registered on first use; other scenes keep theirs |
| Bl2030.Runners.SetupHandler | addons/bl2030.py:208-210 | the singleton is set up; the per-scene runners are not touched |
| Bl2030.Runners.DestroyHandler | addons/bl2030.py:222-225 | `Runner` has no `destroy`, so the handler always raises AttributeError |
| Bl2030.Runners.FrameHandler | addons/bl2030.py:231-233 | the scene's own runner is updated and set up; other scenes' runners and the singleton are unchanged |
| Bl2030.SendMarkersVia | addons/bl2030.py:66-68 | as `Runner.SendMarkers`, for a given sender |
| Bl2030.SendMarkerAt | addons/bl2030.py:67-68 | one marker is sent exactly when it fires; a failed send raises TypeError and sends nothing |
| Bl2030.AddressedToGrows | addons/bl2030.py:73-78 | two runs of sends that each go to the client with OSC addresses together do too |
| UiEditor.ObjId | addons/ui-editor/__init__.py:126-134 | without a scope the id is a dot-free prefix of the name, the whole name when it holds no '.'; with a scope it starts with the scope and '/' |
| UiEditor.UiType | addons/ui-editor/__init__.py:136-142 | a non-empty type comes from a name with exactly one '.', and never holds a '.' |
| UiEditor.IdAndTypeRoundTrip | addons/ui-editor/__init__.py:126-142 | a name built as id + '.' + type from dot-free parts gives back that id and that type |
| UiEditor.ScopedIdIsPath | addons/ui-editor/__init__.py:95-102 | along a path of non-empty names the id sent and the scope handed down are the ancestors' names and the object's joined by '/', and splitting the id on '/' gives the path back |
| UiEditor.JoinNonEmpty | addons/ui-editor/__init__.py:95 | a path whose first name is non-empty joins to a non-empty scope |
| UiEditor.Coords | addons/ui-editor/__init__.py:118-122 | the coordinate list holds three values per vertex |
| UiEditor.VerticesOfCoords | addons/ui-editor/__init__.py:118-122 | the coordinate list reads back as the vertex list |
| UiEditor.VertexMessageReadsBack | addons/ui-editor/__init__.py:117-124 | the vertices message holds the id and 3 coordinates per vertex, from which the vertices are recovered in order |
| UiEditor.VectorChanges | addons/ui-editor/__init__.py:105-114 | at most one message per vector field, each of the form (id, x, y, z) |
| UiEditor.Changes | addons/ui-editor/__init__.py:100-124 | at most four messages, each starting with the object's id |
| UiEditor.Addresses | addons/ui-editor/__init__.py:110 | one address per message |
| UiEditor.Prefixed | addons/ui-editor/__init__.py:101 | one prefixed address per field name |
| UiEditor.ChangesForNewObject | addons/ui-editor/__init__.py:105-124 | an object without a previous record gets all four messages in field order, with its vectors and its vertices |
| UiEditor.ChangesOfKnownObject | addons/ui-editor/__init__.py:107-124 | an object seen before gets a message for exactly the fields that differ, in field order |
| UiEditor.DifferingHas | addons/ui-editor/__init__.py:105-124 | a field is among the differing ones exactly when its comparison says it changed |
| UiEditor.VectorAddresses | addons/ui-editor/__init__.py:107-114 | the vector messages go to exactly the changed vector fields, in order |
| UiEditor.OnlyFieldsStep | addons/ui-editor/__init__.py:107-109 | the changed fields among the first n are those among the first n - 1, then field n - 1 if it changed |
| UiEditor.VectorAddressesChanged | addons/ui-editor/__init__.py:109-114 | a changed vector field adds its own address after those of the earlier fields |
| UiEditor.AddressesAppend | addons/ui-editor/__init__.py:110 | the addresses of two runs of messages are those of the first run, then the second's |
| UiEditor.PrefixedAppend | addons/ui-editor/__init__.py:101 | prefixing distributes over concatenation of field lists |
| UiEditor.ChangesOfUnchanged | addons/ui-editor/__init__.py:105-124 | an object equal to its cached record sends nothing |
| UiEditor.Data | addons/ui-editor/__init__.py:144-152 | the snapshot of an object: its name, location, rotation, scale and vertices |
| UiEditor.ScopedId | addons/ui-editor/__init__.py:102 | scope + '/' + name when the scope is a non-empty string, else the name |
| UiEditor.ChildScope | addons/ui-editor/__init__.py:95 | the name at the root, else scope + '/' + name |
| UiEditor.FieldChanged | addons/ui-editor/__init__.py:109-117 | a field is sent when there is no previous record or it differs from the previous one |
| UiEditor.VectorMessage | addons/ui-editor/__init__.py:110-114 | `/ui-editor/mesh/<field>` with the id and the vector's three coordinates |
| UiEditor.VertexMessage | addons/ui-editor/__init__.py:117-124 | `/ui-editor/mesh/vertices` with the id and three coordinates per vertex |
| UiEditor.Meshes | addons/ui-editor/__init__.py:151 | every object of the tree is a mesh, so its snapshot does not raise |
| UiEditor.Visit | addons/ui-editor/__init__.py:84-98 | snapshot (AttributeError for a non-mesh), cache under the name, send the changes, then the children in order under the child scope; the first exception stops the pass |
| UiEditor.VisitAll | addons/ui-editor/__init__.py:97-98 | the children loop of a pass |
| UiEditor.VisitOutcome | addons/ui-editor/__init__.py:84-98 | a tree holding an object that is not a mesh always fails; while sends go through, a pass fails exactly for such a tree and never because of a send; when sends do not go through, nothing reaches the client |
| UiEditor.VisitAllOutcome | addons/ui-editor/__init__.py:97-98 | the same for the children loop |
| UiEditor.VisitFrame | addons/ui-editor/__init__.py:88-91 | a pass writes the cache only under the names of the tree's objects |
| UiEditor.VisitAllFrame | addons/ui-editor/__init__.py:97-98 | the same for the children loop |
| UiEditor.CachedFrame | addons/ui-editor/__init__.py:88-91 | rewriting cache keys outside a tree keeps that tree cached |
| UiEditor.CachedAllFrame | addons/ui-editor/__init__.py:88-91 | the same for a list of trees |
| UiEditor.VisitCaches | addons/ui-editor/__init__.py:88-98 | after a pass that did not fail over a tree with distinct names, the cache holds every object's current record |
| UiEditor.VisitAllCaches | addons/ui-editor/__init__.py:97-98 | the same for the children loop |
| UiEditor.SilentWhenCached | addons/ui-editor/__init__.py:84-98 | a tree whose records are all cached sends nothing and leaves the cache as it is |
| UiEditor.SilentAllWhenCached | addons/ui-editor/__init__.py:97-98 | the same for the children loop |
| UiEditor.SecondPassSilent | addons/ui-editor/__init__.py:84-152 | a second pass over an unchanged all-mesh tree with distinct names sends nothing and keeps the cache; a tree with a non-mesh object stops again with AttributeError |
| UiEditor.Stamp | addons/ui-editor/__init__.py:107-124 | the client receives each message in order; without a client nothing |
| UiEditor.StampOne | addons/ui-editor/__init__.py:110 | one message gives one datagram to the client |
| UiEditor.StampAppend | addons/ui-editor/__init__.py:107-124 | the datagrams of two runs of messages are those of the first, then the second's |
| UiEditor.SetupSender | addons/ui-editor/__init__.py:58-65 | the runner gets the registry's sender for its host and port, made and registered when missing, and set up so that it is connected whenever a socket can be opened |
| UiEditor.ObjectRunner.constructor | addons/ui-editor/__init__.py:51-56 | an empty cache, the object's configuration, and the sender that setup chose |
| UiEditor.ObjectRunner.Update | addons/ui-editor/__init__.py:67-70 | the sender's log level follows the verbose setting, and the cache, the datagrams sent and whether an exception escaped are those of a pass from the root scope; a non-mesh object raises AttributeError |
| UiEditor.ObjectRunner.Process | addons/ui-editor/__init__.py:84-98 | an object that is not a mesh raises AttributeError from its snapshot before anything is cached or sent; otherwise the new cache, the datagrams sent and whether an exception escaped are exactly those of the pass over the tree |
| UiEditor.ObjectRunner.ProcessChildren | addons/ui-editor/__init__.py:97-98 | the same for the children, in order, stopping at the first exception, which is AttributeError when a child is not a mesh |
| UiEditor.ObjectRunner.ProcessNext | addons/ui-editor/__init__.py:97-98 | one iteration extends the children's pass by one child, and a non-mesh child raises AttributeError |
| UiEditor.ObjectRunner.SendChanges | addons/ui-editor/__init__.py:100-124 | with a working client every changed field is sent in order; otherwise nothing is sent and an exception escapes exactly when something had to be sent |
| UiEditor.ObjectRunner.SendVectors | addons/ui-editor/__init__.py:105-114 | the vector messages go out in field order, up to the first send that raises |
| UiEditor.ObjectRunner.SendVerticesAfter | addons/ui-editor/__init__.py:116-124 | the vertices message follows the vector messages when the vertices changed |
| UiEditor.ObjectRunner.SendVectorAt | addons/ui-editor/__init__.py:107-114 | one iteration sends field k exactly when it changed |
| UiEditor.VertexParams | addons/ui-editor/__init__.py:118-122 | the parameter list is the id followed by each vertex's x, y and z |
| UiEditor.VisitAllStep | addons/ui-editor/__init__.py:97-98 | one more child continues the pass of the earlier children |
| UiEditor.PrefixFailed | addons/ui-editor/__init__.py:97-98 | once the pass over a prefix of the children fails, the pass over all of them ends the same way |
| UiEditor.NonEmptyPrefix | addons/ui-editor/__init__.py:109-110 | a changed vector field means there is something to send |
| UiEditor.LongerPrefix | addons/ui-editor/__init__.py:107-114 | the vector messages of fewer fields are a prefix of those of more |
| UiEditor.Targets | addons/ui-editor/__init__.py:38-39 | an object is processed exactly when it is a scene mesh without parent with the add-on enabled |
| UiEditor.Editor.constructor | addons/ui-editor/__init__.py:43 | both registries start empty |
| UiEditor.Editor.ObjectRunnerFor | addons/ui-editor/__init__.py:45-49 | the runner registered for the object itself, whatever it is called now, else a fresh runner for its configuration with an empty cache, registered for that object |
| UiEditor.Editor.AddRunner | addons/ui-editor/__init__.py:48 | the new runner is filed under the object itself and nothing else changes in the runner registry |
| UiEditor.Editor.Dispatch | addons/ui-editor/__init__.py:40 | the object has a runner afterwards and no runner is dropped; that runner's cache and the exception are those of a pass over the object's tree from the cache the runner had (empty for a new one), so a renamed root keeps its runner and cache; a non-mesh object raises AttributeError |
| UiEditor.Editor.Run | addons/ui-editor/__init__.py:40 | `update()` on the runner already filed for the object: its cache and the exception are those of a pass over the tree from the cache it had; a non-mesh object raises AttributeError; the runner registry stays as it is |
| UiEditor.Editor.Update | addons/ui-editor/__init__.py:36-40 | when no send raises, every target of the scene has a runner afterwards |
| UiEditor.IsTarget | addons/ui-editor/__init__.py:39 | a mesh without a parent that has the ui-editor enabled |
| PointCloud.PrefixInSet | addons/blender_point_cloud_loader.py:171-172 | a set holding 0 .. n-1 has at least n elements, which bounds the counting loop |
| PointCloud.GapFrom | addons/blender_point_cloud_loader.py:171-172 | counting up from a run of existing frame files always reaches a missing one |
| PointCloud.FirstGap | addons/blender_point_cloud_loader.py:168-174 | the automatic file count: frames 0 .. n-1 exist and frame n does not |
| PointCloud.GapUnique | addons/blender_point_cloud_loader.py:168-174 | that count is unique |
| PointCloud.FrameFor | addons/blender_point_cloud_loader.py:133-138 | no frame exactly when there are no files, else a frame number from 0 to the file count minus one |
| PointCloud.FramesWithinCountPickThemselves | addons/blender_point_cloud_loader.py:138 | at ratio 1 a scene frame below the file count picks the file with its own number |
| PointCloud.TruncWhole | addons/blender_point_cloud_loader.py:138 | `int()` of a whole number times 1.0 is that number |
| PointCloud.PathForPointCloudFrame | addons/blender_point_cloud_loader.py:147-155 | no path for no frame; a formatted path starting with '/' as it is, any other resolved relative to the blend file |
| PointCloud.ObjectFileManager.constructor | addons/blender_point_cloud_loader.py:123-125 | the object's settings and no cached file count |
| PointCloud.ObjectFileManager.GetPointCloudFrameNumber | addons/blender_point_cloud_loader.py:127-138 | the configured frame when it is not -1, else the scene frame scaled and wrapped into the file count, with no frame when there are no files |
| PointCloud.ObjectFileManager.FrameFilePath | addons/blender_point_cloud_loader.py:142-144 | the path of the frame number chosen for the scene frame |
| PointCloud.ObjectFileManager.NumberOfFiles | addons/blender_point_cloud_loader.py:157-161 | the configured count when positive, else the automatic one, the same before and after caching |
| PointCloud.ObjectFileManager.AutoNumberOfFiles | addons/blender_point_cloud_loader.py:164-176 | the cached count when there is one, else the number of consecutive existing files from frame 0, which is then cached |
| PointCloud.ParseLine | addons/blender_point_cloud_loader.py:362 | a line parses only when it splits into exactly four comma-separated parts |
| PointCloud.Scan | addons/blender_point_cloud_loader.py:359-404 | no more points are kept or rejected than read, every rejected point is out of bounds and every kept point is within them |
| PointCloud.ScanStep | addons/blender_point_cloud_loader.py:366-396 | a parsed line adds its transformed point to all points, then to the rejected points when out of bounds, else to the kept points when its product is non-zero |
| PointCloud.ScanReadsOnlyVisited | addons/blender_point_cloud_loader.py:398-403 | skipped lines and the lines after the first malformed one are never parsed: files that agree on the parsed lines give the same points |
| PointCloud.VisitedSpacing | addons/blender_point_cloud_loader.py:401-403 | with a skip of s no two parsed lines are closer than s + 1 |
| PointCloud.FrameFile.constructor | addons/blender_point_cloud_loader.py:329-340 | the path and options, and three empty point lists |
| PointCloud.FrameFile.GetPoints | addons/blender_point_cloud_loader.py:350-357 | the points already collected, with nothing read and all three lists unchanged; else, when the frame file is missing, FileNotFoundError with the lists unchanged; else the kept points the scan of the file yields, with the read and the rejected points appended to their lists |
| PointCloud.FrameFile.LoadFrameData | addons/blender_point_cloud_loader.py:355-406 | a missing file raises FileNotFoundError and changes nothing; otherwise the three lists grow by exactly the points the scan of the file yields |
| PointCloud.Mesh.constructor | addons/blender_point_cloud_loader.py:199-201 | a new mesh has no vertices |
| PointCloud.Mesh.AddVertices | addons/blender_point_cloud_loader.py:295 | n vertices at the origin after the existing ones, which are kept |
| PointCloud.Mesh.RemoveVertices | addons/blender_point_cloud_loader.py:231-250 | the last count vertices are removed and the others kept in order |
| PointCloud.PointCloudObject.constructor | addons/blender_point_cloud_loader.py:217-223 | no frame loaded yet and an empty point cloud mesh |
| PointCloud.PointCloudObject.LoadFrame | addons/blender_point_cloud_loader.py:57-98 | nothing changes without a frame file path, or when not forced and it is the file loaded; a missing frame file raises FileNotFoundError and leaves the mesh and the loaded path as they were; otherwise the mesh vertices become exactly the kept points of that file, in order, and the path is recorded |
| PointCloud.PointCloudObject.CreatePoints | addons/blender_point_cloud_loader.py:283-306 | the mesh vertices become exactly the points, in order |
| PointCloud.OptionsOf | addons/blender_point_cloud_loader.py:70-77 | the file gets bounds only when bounds are enabled, and offset and multiplier only when `modify` is set |
| PointCloud.PointCloudObject.PathFor | addons/blender_point_cloud_loader.py:61 | the frame file path of the scene frame, from a fresh file manager |
| PointCloud.NonZero | addons/blender_point_cloud_loader.py:395 | the coordinates as read and scaled by 100 have a non-zero product |
| PointCloud.Transform | addons/blender_point_cloud_loader.py:366-374 | multiply, then offset, coordinate by coordinate |
| PointCloud.Rejected | addons/blender_point_cloud_loader.py:376-386 | a point below the lower bound or above the upper bound on some axis |
| PointCloud.Next | addons/blender_point_cloud_loader.py:401-403 | after a parsed line the scan goes on past `skip` more lines |
| PointCloud.Visited | addons/blender_point_cloud_loader.py:359-403 | the positions of the lines the scan parses |
| WebServer.PatternPhase | sketches/cylinders/scripts/web_server.py:22-27 | the pattern loop ends early only after a handler call that left the request handled; otherwise the handled flag is unchanged |
| WebServer.DoneStaysDone | sketches/cylinders/scripts/web_server.py:26-27 | once a handler marks the request handled, no later handler is tried |
| WebServer.Relative | sketches/cylinders/scripts/web_server.py:59 | one leading '/' is dropped, and only that |
| WebServer.JoinedUnderFolder | sketches/cylinders/scripts/web_server.py:57-60 | a path with at most one leading '/' is looked up under the public folder |
| WebServer.DoubleSlashDropsFolder | sketches/cylinders/scripts/web_server.py:57-60 | a path starting with '//' stays absolute after the join, so it escapes the public folder |
| WebServer.HandlersCalledOnSingleMatch | sketches/cylinders/scripts/web_server.py:22-25 | handlers are called in registration order, each only when its pattern has exactly one match, with that match's groups |
| WebServer.CalledInOrderWiden | sketches/cylinders/scripts/web_server.py:22 | calls recorded against the first handlers stay valid against the whole list |
| WebServer.CalledInOrderSnoc | sketches/cylinders/scripts/web_server.py:24-25 | a call of a later handler with its single match keeps the calls in order |
| WebServer.Outcomes | sketches/cylinders/scripts/web_server.py:21-51 | the request event fires exactly when no pattern handler handled the request; a file is served exactly when no listener handled it and the file exists; the standard file handler answers exactly when nobody handled it and there is no file; every request ends handled, served or answered |
| WebServer.RequestHandler.constructor | sketches/cylinders/scripts/web_server.py:7-15 | the folder, path and current handler list, and not handled |
| WebServer.RequestHandler.GetHandled | sketches/cylinders/scripts/web_server.py:63-64 | the handled flag |
| WebServer.RequestHandler.SetHandled | sketches/cylinders/scripts/web_server.py:66-67 | the handled flag becomes the value |
| WebServer.RequestHandler.RespondOk | sketches/cylinders/scripts/web_server.py:69-72 | status 200 is sent and the request is handled |
| WebServer.RequestHandler.CallHandler | sketches/cylinders/scripts/web_server.py:25 | the call is recorded and the request is handled afterwards exactly when it was before or the handler marked it |
| WebServer.RequestHandler.TryPatterns | sketches/cylinders/scripts/web_server.py:22-27 | the calls made, the handled flag and whether the loop returned early are those of the pattern phase |
| WebServer.RequestHandler.DoGet | sketches/cylinders/scripts/web_server.py:21-51 | the steps taken and the final handled flag are those of the whole dispatch |
| WebServer.EndLog | sketches/cylinders/scripts/web_server.py:125-133 | an error is logged exactly when serving ended with an OSError other than errno 9 |
| WebServer.Server.constructor | sketches/cylinders/scripts/web_server.py:85-98 | the folder and port, no handlers, not running and nothing logged |
| WebServer.Server.AddHandler | sketches/cylinders/scripts/web_server.py:139-140 | the pattern and handler are appended at the end of the list |
| WebServer.Server.ClearHandlers | sketches/cylinders/scripts/web_server.py:142-143 | the handler list becomes empty |
| WebServer.Server.NewRequest | sketches/cylinders/scripts/web_server.py:120 | a request sees the handler list as it is when it arrives, and starts unhandled |
| WebServer.Server.Setup | sketches/cylinders/scripts/web_server.py:103-126 | the thread runs, logs its start and serves |
| WebServer.Server.Destroy | sketches/cylinders/scripts/web_server.py:107-137 | nothing when the thread is not alive; otherwise serving stops, with the error log of how it ended and the closing line |
| WebServer.PathJoin | sketches/cylinders/scripts/web_server.py:60 | `os.path.join(a, b)`: an absolute b replaces a |
| WebServer.TranslatePath | sketches/cylinders/scripts/web_server.py:57-61 | one leading '/' dropped, joined to the public folder, then mapped by the standard handler |
| WebServer.Get | sketches/cylinders/scripts/web_server.py:21-51 | the pattern handlers, the request event, then the file or the not-found event and the standard answer |
| WebServer.CalledInOrder | sketches/cylinders/scripts/web_server.py:22-25 | each call is of a handler whose pattern matched exactly once, with that match's groups, in registration order |
| RequestEvent.Event.constructor | tests/cylinders/scripts/game.py:37-39 | no callback subscribed |
| RequestEvent.Event.Subscribe | tests/cylinders/scripts/game.py:49 | `+=` appends the callback |
| RequestEvent.Event.Unsubscribe | tests/cylinders/scripts/game.py:63-64 | `-=` removes the first occurrence of the callback, exactly one copy of it |
| RequestEvent.Server.constructor | tests/cylinders/scripts/http_rot.py:11-13 | a fresh request event with no callbacks and no call made |
| RequestEvent.Server.Setup | tests/cylinders/scripts/http_rot.py:21 | records one `setup()` call |
| RequestEvent.Server.Destroy | tests/cylinders/scripts/http_rot.py:25 | records one `destroy()` call |
| RequestEvent.SubscribeThenUnsubscribe | tests/cylinders/scripts/http_rot.py:20-28 | subscribing then unsubscribing a callback leaves every callback subscribed as often as before, and the very same list when it was not subscribed before |
| RotCommand.Body | tests/cylinders/scripts/game.py:82 | `$` matches at the end or before one final newline |
| RotCommand.Cuts | tests/cylinders/scripts/game.py:82 | the greedy groups end at two '/' that leave three non-empty groups, with no '/' inside the third group nor inside the second before its end |
| RotCommand.CutsOfSegments | tests/cylinders/scripts/game.py:82 | for `a/b/c` with b and c free of '/', the cuts fall right after a and after b |
| RotCommand.Reassemble | tests/cylinders/scripts/game.py:82 | two '/' cut a text into three parts that spell it back |
| RotCommand.CharFreeSlice | tests/cylinders/scripts/game.py:82 | a slice of a text without a character does not hold it either |
| RotCommand.GroupsOfCuts | tests/cylinders/scripts/game.py:82 | the cuts leave three non-empty newline-free groups that spell the text back |
| RotCommand.Reassociate | tests/cylinders/scripts/game.py:82 | regrouping the prefix and the three parts gives the same text |
| RotCommand.RotGroupsShape | tests/cylinders/scripts/game.py:82-83 | every match spells its path back as `/rot/` and three non-empty groups separated by '/', with at most a final newline after them |
| RotCommand.NoNewline | tests/cylinders/scripts/game.py:82 | a path built from newline-free groups holds no newline |
| RotCommand.RotGroupsOfCuts | tests/cylinders/scripts/game.py:82 | a newline-free `/rot/` path matches with the groups its cuts leave |
| RotCommand.SegmentSlices | tests/cylinders/scripts/game.py:82 | the slices of `a/b/c` at the cut positions are a, b and c |
| RotCommand.RotGroupsOfSegments | tests/cylinders/scripts/game.py:82-83 | `/rot/a/b/c` with non-empty segments, the last two free of '/', matches with exactly those groups |
| RotCommand.CommandOfGroups | tests/cylinders/scripts/game.py:84-101 | a match sets the rotation to radians of the third group, of minus the second and of the first, a group that does not parse counting as 0 on its own axis only |
| RotCommand.CommandOfSegments | tests/cylinders/scripts/game.py:82-101 | the same stated for `/rot/a/b/c` directly |
| RotCommand.NoCommand | tests/cylinders/scripts/game.py:82-83 | a path outside `/rot/`, or with only two segments after it, sets no rotation |
| RotCommand.RotGroups | tests/cylinders/scripts/game.py:82-83 | the groups of the single match of `^\/rot/(.+)\/(.+)\/(.+)$`, greedy, with `.` not matching a newline |
| RotCommand.OrZero | tests/cylinders/scripts/game.py:84-97 | `float(x)`, or 0.0 when it raises |
| RotCommand.Rotation | tests/cylinders/scripts/game.py:101 | `[radians(c), radians(-b), radians(a)]` of the three groups |
| RotCommand.Command | tests/cylinders/scripts/game.py:82-101 | the rotation a request path sets, or none when the pattern does not match |
| CylindersHttpRot.RotSplit | sketches/cylinders/scripts/http_rot.py:57 | `/rot/a/b/c...` splits on '/' into "", "rot", a, b, then the parts of the rest |
| CylindersHttpRot.QueuedOfRotPath | sketches/cylinders/scripts/http_rot.py:56-59 | `/rot/a/b/c` queues the segments last first |
| CylindersHttpRot.QueuedIgnoresTail | sketches/cylinders/scripts/http_rot.py:58-59 | segments after the third are ignored |
| CylindersHttpRot.QueuedShortPath | sketches/cylinders/scripts/http_rot.py:58 | a path with fewer than three segments after `/rot/` queues nothing |
| CylindersHttpRot.RotPathTargets | sketches/cylinders/scripts/http_rot.py:27-59 | a request's last segment turns about x, its middle one about y with the sign flipped, its first about z |
| CylindersHttpRot.UnparsableTargetsOrigin | sketches/cylinders/scripts/http_rot.py:32-38 | one segment that does not parse sends the target to the origin, with a warning |
| CylindersHttpRot.LerpBounds | sketches/cylinders/scripts/http_rot.py:47-50 | progress 0 gives the start, progress 1 the target, and any progress in between keeps every axis between its start and its target |
| CylindersHttpRot.AxisBetween | sketches/cylinders/scripts/http_rot.py:48 | one axis of the blend lies between its ends |
| CylindersHttpRot.ScaleDown | sketches/cylinders/scripts/http_rot.py:48 | a non-negative distance scaled by a progress in [0, 1] stays within it |
| CylindersHttpRot.Tick | sketches/cylinders/scripts/http_rot.py:27-50 | an update keeps the animation's state consistent and always takes the queued command |
| CylindersHttpRot.TickIdle | sketches/cylinders/scripts/http_rot.py:27-50 | with nothing queued and nothing running an update changes nothing |
| CylindersHttpRot.TickCommand | sketches/cylinders/scripts/http_rot.py:28-46 | the update that takes a command animates from the current rotation to the command's target without moving yet, and warns exactly when the command does not parse |
| CylindersHttpRot.TickFollows | sketches/cylinders/scripts/http_rot.py:45-50 | between commands the rotation is the blend with progress t / 0.1 at animation time t, and the animation stops once t reaches 0.1 |
| CylindersHttpRot.LateFrameOvershoots | sketches/cylinders/scripts/http_rot.py:45-50 | progress is not capped, so a late frame carries the rotation past its target, where it then stays |
| CylindersHttpRot.HttpRot.constructor | sketches/cylinders/scripts/http_rot.py:6-17 | a stopped server on the folder and port 2031 with no handlers, the rotation at the origin, no command queued and an idle 0.1-second animation |
| CylindersHttpRot.HttpRot.Setup | sketches/cylinders/scripts/http_rot.py:22-25 | the rotation handler is registered for `^/rot/.+$`, then the server starts |
| CylindersHttpRot.HttpRot.Destroy | sketches/cylinders/scripts/http_rot.py:52-54 | every handler is dropped and the server stopped |
| CylindersHttpRot.HttpRot.OnRot | sketches/cylinders/scripts/http_rot.py:56-60 | a path with enough segments replaces the queued command, any other leaves it; the request is always answered 200 |
| CylindersHttpRot.HttpRot.Update | sketches/cylinders/scripts/http_rot.py:27-50 | the new state is the update step of the old one |
| CylindersHttpRot.Queued | sketches/cylinders/scripts/http_rot.py:57-59 | the third, fourth and fifth parts of the path split on '/', last first, when there are at least five parts |
| CylindersHttpRot.Targets | sketches/cylinders/scripts/http_rot.py:32-38 | each queued argument parsed and turned into radians, the middle one negated; all zero and a warning when one does not parse |
| CylindersHttpRot.Lerp | sketches/cylinders/scripts/http_rot.py:47-50 | per axis `from + (to - from) * progress` |
| CylindersHttpRot.Between | sketches/cylinders/scripts/http_rot.py:48 | a value between two ends, in either order |
| TestHttpRot.HttpRot.constructor | tests/cylinders/scripts/http_rot.py:5-15 | a server not set up yet, no callback subscribed, and the rotation at the origin |
| TestHttpRot.HttpRot.Setup | tests/cylinders/scripts/http_rot.py:20-22 | the server is set up, then `_onRequest` is subscribed |
| TestHttpRot.HttpRot.Destroy | tests/cylinders/scripts/http_rot.py:24-28 | the server is destroyed, then `_onRequest` is unsubscribed once if it was subscribed, and the callbacks are left alone otherwise |
| TestHttpRot.HttpRot.OnRequest | tests/cylinders/scripts/http_rot.py:30-52 | a path matching the rotation pattern sets the rotation it commands; any other path leaves the rotation as it was |
| TestGame.Commands | tests/cylinders/scripts/game.py:79-101 | one command per queued request, the one its path carries |
| TestGame.LatestNone | tests/cylinders/scripts/game.py:79-101 | without any command the rotation stays |
| TestGame.LatestLast | tests/cylinders/scripts/game.py:79-101 | a command followed only by requests without one decides the rotation |
| TestGame.LatestSpec | tests/cylinders/scripts/game.py:79-103 | the last request carrying a command decides the rotation; without one it stays |
| TestGame.Latest | tests/cylinders/scripts/game.py:79-103 | the rotation after applying each present command in order |
| TestGame.Game.constructor | tests/cylinders/scripts/game.py:25-41 | the owner, a server not set up yet with no callbacks, no rings and no queued request |
| TestGame.Game.Setup | tests/cylinders/scripts/game.py:46-55 | the server is set up, `_onRequest` subscribed, the spawn settings read from the owner's properties and the rotation set to the origin |
| TestGame.Game.Destroy | tests/cylinders/scripts/game.py:62-65 | `_onRequest` is unsubscribed once if it was subscribed, then the server is destroyed |
| TestGame.Game.OnRequest | tests/cylinders/scripts/game.py:156-157 | the request is queued at the end |
| TestGame.Game.Fire | tests/cylinders/scripts/game.py:119-145 | without ring names only a warning and nothing spawned; otherwise one of the ring names is chosen, the ring is recorded unless adding it failed, and an error is logged unless everything went through |
| TestGame.Game.TakeRequests | tests/cylinders/scripts/game.py:79-103 | the rotation becomes that of the last queued request carrying a command, and the queue is emptied |
| TestGame.Game.Update | tests/cylinders/scripts/game.py:73-114 | fire, take the requests, then keep exactly the rings, the one just fired included, whose action still plays, in order |
| TestGame.Registry.constructor | tests/cylinders/scripts/game.py:12 | no game registered |
| TestGame.Registry.ForOwner | tests/cylinders/scripts/game.py:14-23 | the owner's registered game, else a new game filed under the owner; every entry belongs to the owner it is filed under |
| Rings.RingKeyInjective | tests/cylinders/scripts/game.py:150 | different indexes give different `ring<i>` keys |
| Rings.BelowSucc | tests/cylinders/scripts/game.py:150-152 | one more index adds exactly its own key |
| Rings.NotBelow | tests/cylinders/scripts/game.py:150 | `ring<i>` is not among the keys of smaller indexes |
| Rings.BelowStep | tests/cylinders/scripts/game.py:150-152 | each found key leaves fewer keys to look at, so the counting loop ends |
| Rings.NamesFromAt | tests/cylinders/scripts/game.py:150-152 | the k-th name from index i is the value of `ring<k+i>` |
| Rings.NamesFromEnd | tests/cylinders/scripts/game.py:150 | the key after the last name found is missing |
| Rings.RingNamesSpec | tests/cylinders/scripts/game.py:147-154 | the ring names are the values of `ring1` ... `ringN` in order, and `ring<N+1>` is missing |
| Rings.GetRingNames | tests/cylinders/scripts/game.py:147-154 | the loop returns exactly the ring names |
| Rings.ConfigOf | tests/cylinders/scripts/game.py:51-53 | each of `spawner`, `orientator` and `spawnRot` names its object when present, and falls back to the owner (or no spawn rotation) when absent |
| Rings.Appended | tests/cylinders/scripts/game.py:128-145 | a spawn attempt records at most one ring, and none exactly when adding or parenting it failed |
| Rings.CollectEnded | tests/cylinders/scripts/game.py:104-111 | the collected rings are exactly those not playing, in order |
| Rings.RemoveEach | tests/cylinders/scripts/game.py:113-114 | each collected ring is removed from the list in turn |
| Rings.Sweep | tests/cylinders/scripts/game.py:104-114 | exactly the rings still playing remain, in their order |
| Rings.RingKey | tests/cylinders/scripts/game.py:150 | `'ring' + str(i)` |
| Rings.NamesFrom | tests/cylinders/scripts/game.py:150-152 | the values of `ring<i>`, `ring<i+1>`, ... up to the first missing key |
| Rings.RingNames | tests/cylinders/scripts/game.py:147-154 | the values of `ring1`, `ring2`, ... up to the first missing key |
| Rings.Stopped | tests/cylinders/scripts/game.py:104-111 | the rings whose action no longer plays |
| TestSpawner.Spawner.constructor | tests/cylinders/scripts/spawner.py:4-9 | no rings, no logic object yet, nothing logged |
| TestSpawner.Spawner.Setup | tests/cylinders/scripts/spawner.py:14-19 | the logic object is remembered, the spawn settings read from its properties and the rotation set to the origin |
| TestSpawner.Spawner.Update | tests/cylinders/scripts/spawner.py:24-35 | exactly the rings whose action still plays remain, in order |
| TestSpawner.Spawner.Spawn | tests/cylinders/scripts/spawner.py:37-63 | without ring names only a warning; otherwise one of the ring names is chosen, the ring is recorded unless adding it failed, and an error is logged unless everything went through |
| SketchSpawner.Spawner.constructor | sketches/cylinders/scripts/spawner.py:4-9 | the colour registry, no rings, no logic object yet, nothing logged |
| SketchSpawner.Spawner.Setup | sketches/cylinders/scripts/spawner.py:14-17 | the logic object is remembered and the spawn parent and `spawnRot` read from its properties; no orientator is read |
| SketchSpawner.Spawner.DropEnded | sketches/cylinders/scripts/spawner.py:32-34 | each collected ring leaves the list and loses its colour record; KeyError when one has no record, which for distinct rings happens exactly when some collected ring has no record, and then the rings up to and including that one have left the list and only those before it have lost their records |
| SketchSpawner.Spawner.Update | sketches/cylinders/scripts/spawner.py:22-34 | on success exactly the rings still playing remain, in order, and the stopped ones lose their colour records; for a list without repetitions KeyError is raised exactly when a stopped ring has no colour record, and then the stopped rings up to that one have left the list and those before it have lost their records |
| SketchSpawner.Spawner.Spawn | sketches/cylinders/scripts/spawner.py:36-63 | as the test spawner's, and a ring spawned in full also has a colour record afterwards, new ones taking the ring's orientation as colour; the registry changes in no other case |
| SketchSpawner.Elements | sketches/cylinders/scripts/spawner.py:32-34 | the set of rings in a list |
| Colorize.Colorize.constructor | sketches/cylinders/scripts/colorize.py:21-28 | the owner, the creation time, and the owner's Euler angles x, y, z as the colours red, green, blue |
| Colorize.Registry.constructor | sketches/cylinders/scripts/colorize.py:4 | no record registered |
| Colorize.Registry.ForOwner | sketches/cylinders/scripts/colorize.py:7-15 | the owner's registered record, else a new record of the owner's orientation filed under the owner; every entry belongs to the owner it is filed under |
| Colorize.Registry.DestroyByOwner | sketches/cylinders/scripts/colorize.py:17-19 | the owner's entry is removed and no other changes; KeyError and no change when there is none |
| Strip.Light.constructor | sketches/lightStart/strip.py:50-52 | a light of the given shape, parented to the owner at the given local position |
| Strip.Strip.constructor | sketches/lightStart/strip.py:37-42 | the owner and no lights |
| Strip.Strip.Setup | sketches/lightStart/strip.py:44-53 | ten distinct new lights of the owner's `lightshape`, parented to it, light i at local position (0, 2(i+1), 0); KeyError with no lights when the owner has no `lightshape` |
| Strip.Registry.constructor | sketches/lightStart/strip.py:17 | no strip registered |
| Strip.Registry.ForOwner | sketches/lightStart/strip.py:19-31 | the owner's registered strip; else None when not asked to create, or a new strip filed under the owner |
| Strip.Registry.OwnerInstances | sketches/lightStart/strip.py:33-35 | exactly the registered strips |
| Strip.LightPosition | sketches/lightStart/strip.py:52 | light i sits at `[0.0, 2.0 * (i + 1), 0.0]` |

## Left out

- The host applications: every `bpy`, `bge`, `bmesh` and `mathutils` call. Scene objects,
  properties, markers and the frame number are parameters. This covers panels, property
  registration, operators, `register`/`unregister` and the handler lists (`frame_change_pre`,
  `game_post`), plus `addObject`, `setParent`, `playAction` and `endObject` in the games and
  spawners. How a spawn attempt went is an input (`Rings.SpawnOutcome`).
- Edit-mode mesh operations and the point cloud container object lookup. The mesh is its
  vertex array. Point cloud skinning, material application, `removeExisting` and
  `removeFaces` are left out; they are host calls only.
- The OSC wire format and UDP transport. They belong to the external python-osc library.
  A client is an endpoint, and a datagram is the pair of endpoint and message. Whether a
  socket can be opened and whether a send goes through are parameters.
- Threads and concurrency of the web server. Starting the thread, `serve_forever`, socket
  closing and `join` become one `Setup` and one `Destroy` step. The standard handler's file
  serving, directory listing and path normalisation are an input, and so is what it
  answers when no file exists (a 404, a directory listing or a redirect).
  `do_HEAD`, `do_POST`, `log_request` and `log_error` only print or do nothing, so they are
  left out.
- Regular expressions in general. The match list of a handler pattern is an input. The one
  fixed pattern `^\/rot/(.+)\/(.+)\/(.+)$` is modelled with Python's greedy semantics.
- The web server the test scripts import, `tests/cylinders/scripts/web_server.py`, and the
  `evento` event library are not part of this model. The request event is modelled as a
  list of subscribed callbacks, and the server as the record of its `setup` and `destroy`
  calls.
- Floating point: values are `real`. `float()` and `math.radians` are parameters, and so
  are the `%` formatting of the point cloud file name and `bpy.path.abspath`. IEEE
  rounding is not modelled.
- The wall clock (`time.time()`) is a parameter. `random.choice` is any element of the list.
- Logging and `print` are left out. Where a warning or an error log is the only effect of a
  branch, it is counted (`warnings`, `errors`) or recorded (`WebServer.LogEntry`).
- File I/O: a frame file is its sequence of lines, and `os.path.isfile` on the numbered
  frame files is the set of existing frame numbers.
- The keyboard polling in the `ui.py` files (`Ui.singleton`, `keyPressEvent`) and the game's
  `_onKey` and `_onGameEnded` handlers. They only react to host events.
- `Strip.update`, which only logs.
- `Colorize.get_colors` has no contract of its own. Its fields are constants, and the
  constructor states the colours it returns.
- The `Manager` singletons of the two animation modules. A manager is an object the caller
  holds.
- The point cloud loader's scene-wide `PointCloudLoader.loadFrame`, which only loops over
  the enabled objects. `PointCloud.PointCloudObject.LoadFrame` models one object.
- `Strip.Registry.OwnerInstances`: a set of strips, so the dictionary's value order is not
  modelled.
- The `key` of a ui-editor runner and of a registered sender is a ghost field. It names the
  registry entry the runner draws its sender from and is not data the source keeps.
- Bl2030.Runner.Update: states that marker messages are delivered first and that everything
  sent goes to the client with an OSC address. It does not state the full sequence of property
  messages across objects. `Bl2030.Runner.UpdateObject` states that sequence per object, as
  `SweepAll` over the object's current values.
- Bl2030.Runner.UpdateObjects: states that the wrappers are visited in order and that
  everything sent is a one-value message to the client at an OSC address. The sequence across
  objects is the concatenation of what `Bl2030.Runner.UpdateObject` states per object, and
  the model does not spell out that concatenation.
- Bl2030.Runner.SendChanges: states the marker messages, the refresh of the wrappers and the
  addressing of what follows. The property messages are stated per object, as for
  `Bl2030.Runner.UpdateObjects`.
- CylindersAnim.Manager.Update, LightStartAnim.Manager.Update and LightStartAnim.Manager.SweepList:
  a manager holding the same animation twice is not modelled; these require a list without
  repetitions. `Clear` of both managers states its result only for such a list.
- PointCloud.FrameFile.LoadFrameData and PointCloud.FrameFile.GetPoints: the only failure of
  `open` modelled is a missing file (FileNotFoundError). Other OSErrors, such as permission
  denied or a path that is a directory, are not modelled.
- CylindersAnim.Advance, LightStartAnim.Advance, the `Anim` constructors and the `Start`
  methods of both animation modules and their managers: they require a non-zero duration,
  so the ZeroDivisionError that `t / duration` raises for a zero duration is not modelled.
- WebServer.Server.Setup: a second `setup()` starts the same thread again, which raises
  RuntimeError in Python. The model does not capture that.
- TestGame.Game.Update and TestSpawner.Spawner.Spawn: the rotation is written to the spawned
  orientation object (`localOrientation`), a game-engine call that the model does not record.
- Bl2030.Runner.Setup: states which objects are wrapped, not their property wrappers.
  `Bl2030.Runner.ObjectWrappers` states those.
- UiEditor.Editor.Update: states that every target of the scene has a runner once no send
  raised. What each runner sends is stated by `UiEditor.ObjectRunner.Update` and is not
  repeated across the scene loop.
- Whether a send goes through is one flag per pass (`networkUp`), taken together with
  whether the sender has a client. A network that fails part-way through a pass, so that some
  sends go out and a later one raises, is not modelled. This holds for the members below.
- Bl2030.Runner.SendMarkers: one network flag for all markers of the pass.
- Bl2030.Runner.UpdateObjects: one network flag for all objects of the pass.
- Bl2030.Runner.Update: one network flag for the markers and the properties together.
- UiEditor.Visit: one flag for the whole tree.
- UiEditor.ObjectRunner.Update: one network flag for the whole tree.
- UiEditor.ObjectRunner.SendChanges: one network flag for the object's four messages.
- UiOscSender.OscSender.SetVerbose: the log level is kept per sender. In the source every
  sender shares the module logger, so setting one sender's level sets them all. Logging has
  no other effect in the model.
- Numerals.ParseInt: accepts ASCII digits only. Python's `int()` also accepts the decimal
  digits of other scripts (such as Arabic-Indic digits), which the model rejects.
- `sketches/ui-editor/scripts/osc_sender.py` is left out. It is an older copy of the
  ui-editor sender that does not parse.
- `sketches/cylinders/scripts/shader1.py` is left out: shader sources and host calls.
- The animation effects of `tests/lightStart/anim/__init__.py` are left out. They are driven
  by `math.sin`.
- The orchestration scripts `sketches/cylinders/scripts/game.py` and `tests/lightStart/game.py`
  are left out. They only wire the modelled parts to the engine.
