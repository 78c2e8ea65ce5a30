# Chromecast plugin controller — a Dafny model

This project models the Android side of a Cordova Chromecast plugin. The
class `Chromecast` takes commands from the web view as an action name plus a
JSON array of arguments. Reflection routes each command to one of its public
methods. The class keeps the state of a single cast session: the session in
use, the remembered session id and app id with their durable copies, and the
auto-connect flag. It reacts to the media router (routes added, removed or
selected) and to the asynchronous answers of the cast sessions it creates.

Modules:

- `Wrappers` — `Option`.
- `Dispatch` — the generic part of `execute`:
  - the runtime classes of JSON values and the declared parameter types;
  - the first-match method search (`FirstMatch`, the loop `Resolve`);
  - building the argument array (`BindArguments`, on an `array`);
  - what `Method.invoke` accepts;
  - how the result becomes `execute`'s answer.
- `CastPlugin` — the plugin itself:
  - its table of public methods;
  - the class `Chromecast`, whose fields are the source's fields plus logs.
    `requests` logs the calls made on cast sessions. `replies` logs the
    calls on callback contexts. `notes` logs the notifications sent to the
    web view. `uiQueue` holds the work posted to the UI thread.
  - A `ChromecastSession` object is a fresh `nat` token. Comparing objects by
    identity is comparing tokens.
  - Each asynchronous callback is an `On…` method. It takes what the
    source's closure captured.
- `Scenarios` — example runs built on the class contracts: select then
  launch, a superseded launch, a failed launch, auto-join, initialize
  policies, media commands, and commands `execute` cannot route.

Inputs the plugin cannot see are parameters:

- the router's route list at the moment a UI task runs;
- whether a cast session accepts a load (`loadAccepted`);
- the results the cast sessions report.

## Model

| member | source | states |
|---|---|---|
| Dispatch.ClassOf | src/android/Chromecast.java:70 | A JSON value's runtime class is never a primitive type and never the callback context type. |
| Dispatch.FirstMatch | src/android/Chromecast.java:62-83 | The result is the first table entry with the action's name, arity `|args|+1` and exactly matching classes. No entry matches exactly when the result is `None`. |
| Dispatch.Resolve | src/android/Chromecast.java:62-83 | The nested loops with `break` and the `isValid` flag compute `FirstMatch`: the first method that matches, or none. |
| Dispatch.BindArguments | src/android/Chromecast.java:86-91 | A fresh array with one slot per declared parameter. Slot `i` holds JSON argument `i`, and the last slot holds the callback context. |
| Dispatch.ArgsFit | src/android/Chromecast.java:66-77 | The condition of the inner loop: one more declared parameter than arguments, and each argument's runtime class is exactly the declared type at its position. |
| Dispatch.Matches | src/android/Chromecast.java:65-77 | An entry is a candidate when its name equals the action and the arguments fit its parameters. |
| Dispatch.Assignable | src/android/Chromecast.java:93-96 | What `Method.invoke` accepts in one slot: a value of the declared class, an unboxable wrapper for a primitive parameter, `null` for a reference parameter, and the callback context only for a callback context parameter. |
| Dispatch.Accepts | src/android/Chromecast.java:93-107 | `invoke` accepts the array when every slot is assignable; otherwise it throws `IllegalArgumentException`, which `execute` turns into `false`. |
| Dispatch.ExecuteResult | src/android/Chromecast.java:92-111 | A thrown exception gives `false`. Otherwise a boolean method's own result is returned, and any other method counts as handled. |
| Dispatch.BoundArgumentsAccepted | src/android/Chromecast.java:86-94 | After an exact class match, `invoke` accepts the bound array exactly when the last declared parameter is the callback context type. |
| Dispatch.NoArgumentsMatchOnNameAndArity | src/android/Chromecast.java:65-80 | With no arguments, any entry with the action's name and a single parameter matches, whatever its type. |
| Dispatch.PrimitiveParameterNeverMatches | src/android/Chromecast.java:68-76 | An entry declaring a primitive parameter where an argument sits never matches. |
| Dispatch.DistinctNamesDetermineMatch | src/android/Chromecast.java:62-83 | In any table whose names are distinct, a matching entry is the result of the search regardless of its position. |
| CastPlugin.SeekMillis | src/android/Chromecast.java:442 | Seconds times 1000 always fits in a Java `long`. It is a whole number of seconds equal to the input. |
| CastPlugin.AvailabilityNote | src/android/Chromecast.java:506-513 | "Receiver available" exactly when the router lists any route at all. |
| CastPlugin.PhoneRouteAloneIsAvailable | src/android/Chromecast.java:506-513 | The phone's own route by itself already makes a receiver "available". |
| CastPlugin.RouteIndex | src/android/Chromecast.java:239-244 | The first route with the id, and `None` exactly when no route has it. |
| CastPlugin.FindRouteById | src/android/Chromecast.java:239-244 | The loop over the route list finds the route `RouteIndex` names. |
| CastPlugin.ShouldJoin | src/android/Chromecast.java:535 | The auto-join condition: auto-connect is on, no session is current, and the route is not named "Phone". |
| CastPlugin.Signature | src/android/Chromecast.java:125-594 | The declared name, parameter types and return type of each public method of the plugin. `PluginMethods` lists them in declaration order. |
| CastPlugin.TargetIndex | src/android/Chromecast.java:125-594 | Each method's position in the table; the entry there is the method's signature. |
| CastPlugin.PluginMethodsAreSignatures | src/android/Chromecast.java:62 | Every table entry is the declared signature of the method it invokes. |
| CastPlugin.TargetNamed | src/android/Chromecast.java:64 | A method found by name carries that name. |
| CastPlugin.NameIdentifiesMethod | src/android/Chromecast.java:125-594 | No two entries of the modelled table share a name, so a name identifies the method. |
| CastPlugin.TargetAtIndex | src/android/Chromecast.java:125-594 | Each position of the table holds a different method. |
| CastPlugin.PluginNamesDistinct | src/android/Chromecast.java:125-594 | No two entries of the modelled table share a name. |
| CastPlugin.SelectedMethodIsNamed | src/android/Chromecast.java:62-83 | What `execute` selects is the method named by the action. |
| CastPlugin.OnlyNamedActionsResolve | src/android/Chromecast.java:62-83 | An action that names no public method is never resolved. |
| CastPlugin.SelectedMethodIs | src/android/Chromecast.java:62-83 | If a method's own name resolves, the selected entry is that method, and the arguments fit its parameters. |
| CastPlugin.FittingArgumentsSelect | src/android/Chromecast.java:62-83 | Arguments that fit a method's parameters, sent with its name, select that method, wherever it sits in the table. |
| CastPlugin.PrimitiveMethodsNeverSelected | src/android/Chromecast.java:327-340 | `setReceiverVolumeLevel`, `setReceiverMuted` and `onSessionUpdated` declare a primitive first parameter, so `execute` never selects them. |
| CastPlugin.PrimitiveMethodsRejectArguments | src/android/Chromecast.java:68-76 | No JSON arguments fit the parameters of `setReceiverVolumeLevel`, `setReceiverMuted` or `onSessionUpdated`, whose first parameter is primitive. |
| CastPlugin.ListenersRejectTheCallback | src/android/Chromecast.java:576-594 | `onMediaUpdated` and `onMediaLoaded` are selected only with no arguments. Their single parameter is then not a callback context, so `invoke` rejects the call. |
| CastPlugin.InvokeOutcome | src/android/Chromecast.java:372-480 | Only media commands other than `loadMedia` throw, and only without a session. Only `loadMedia` returns `false`: without a session, or when the session refuses the load (`!loadAccepted`). |
| CastPlugin.InvokedCommandHandled | src/android/Chromecast.java:91-97 | Once invoked, a command is handled exactly when it works without a session or one is current (for `loadMedia`, also when `loadAccepted`). |
| CastPlugin.Chromecast.constructor | src/android/Chromecast.java:50-57 | The in-memory last ids and their stored copies both start from the preferences, with "" for a missing key. There is no session, and auto-connect is off. |
| CastPlugin.Chromecast.SetLastSessionId | src/android/Chromecast.java:114-117 | The field and its durable copy both get the new id. |
| CastPlugin.Chromecast.Setup | src/android/Chromecast.java:125-128 | Answers success and returns true. |
| CastPlugin.Chromecast.Initialize | src/android/Chromecast.java:138-165 | Auto-connect is switched on exactly for origin_scoped with the remembered app id. Under origin_scoped with another app id, only the stored app id changes. Router registration is posted and answers later. |
| CastPlugin.Chromecast.RequestSession | src/android/Chromecast.java:173-216 | With a session: success with that session, nothing else changes. Without one: the last session id is cleared, and the chooser is posted. |
| CastPlugin.Chromecast.OnChooserPick | src/android/Chromecast.java:206-209 | Item `which` launches a new current session on route `which + 1`. |
| CastPlugin.Chromecast.OnChooserCancel | src/android/Chromecast.java:197-203 | Answers the error "cancel". |
| CastPlugin.Chromecast.SelectRoute | src/android/Chromecast.java:225-252 | With a session: success with that session. Without one: the last session id is cleared, and the route lookup is posted. |
| CastPlugin.Chromecast.RunUiTask | src/android/Chromecast.java:153-162 | Runs the oldest posted task. Registration answers success. For the chooser (lines 183-212), the answer comes through `OnChooserPick` or `OnChooserCancel`. The route lookup (lines 236-249) launches on the first route with the id, or answers "No route found". The availability check (lines 505-513) sends `AvailabilityNote`. Only that task leaves the queue. |
| CastPlugin.Chromecast.CreateSession | src/android/Chromecast.java:259-263 | A fresh session becomes current unconditionally and is asked to launch. It differs from every session an earlier request went to. |
| CastPlugin.Chromecast.OnLaunchSuccess | src/android/Chromecast.java:266-279 | A null result is the error "unknown". A result for the current session sets the last id, then answers the callback, or notifies "session joined" when there is none. A superseded session's result changes nothing. |
| CastPlugin.Chromecast.OnLaunchError | src/android/Chromecast.java:282-293 | Answers the reason, or "unknown" for null, but only when there is a callback. The current session is kept. |
| CastPlugin.Chromecast.JoinSession | src/android/Chromecast.java:298-300 | A fresh session is asked to join the remembered session id with the app id. It does not become current. |
| CastPlugin.Chromecast.OnJoinSuccess | src/android/Chromecast.java:303-313 | The result is adopted only while no session is current. Adopting sets the last id and notifies "session joined". |
| CastPlugin.Chromecast.SetReceiverVolumeLevel | src/android/Chromecast.java:327-330 | Answers "not_implemented" and returns true. |
| CastPlugin.Chromecast.SetReceiverMuted | src/android/Chromecast.java:337-340 | Answers "not_implemented" and returns true. |
| CastPlugin.Chromecast.StopSession | src/android/Chromecast.java:346-349 | Answers "not_implemented" and returns true. |
| CastPlugin.Chromecast.SendMessage | src/android/Chromecast.java:357-360 | Answers "not_implemented" and returns true. |
| CastPlugin.Chromecast.LoadMedia | src/android/Chromecast.java:372-397 | Without a session: error "session_error" and false. With one: a load request to that session, returning what the session answers. |
| CastPlugin.Chromecast.OnLoadSuccess | src/android/Chromecast.java:379-385 | The media object is passed on, and a null one becomes the error "unknown". |
| CastPlugin.Chromecast.MediaPlay | src/android/Chromecast.java:404-407 | With a session: a play request and true. Without one: it throws. |
| CastPlugin.Chromecast.MediaPause | src/android/Chromecast.java:414-431 | With a session: a pause request and true. Without one: it throws. |
| CastPlugin.Chromecast.MediaSeek | src/android/Chromecast.java:441-444 | With a session: a seek to `SeekMillis(seekTime)` and true. Without one: it throws. |
| CastPlugin.Chromecast.SetMediaVolume | src/android/Chromecast.java:453-457 | With a session: a volume request and true. Without one: it throws. |
| CastPlugin.Chromecast.SetMediaMuted | src/android/Chromecast.java:465-469 | With a session: a mute request and true. Without one: it throws. |
| CastPlugin.Chromecast.MediaStop | src/android/Chromecast.java:476-480 | With a session: a stop request and true. Without one: it throws. |
| CastPlugin.Chromecast.SessionStop | src/android/Chromecast.java:487-497 | With a session: it is asked to stop, dropped at once, and the last id is cleared. Without one: success. Returns true either way. |
| CastPlugin.Chromecast.OnGenericSuccess | src/android/Chromecast.java:518-524 | Answers success without a payload. |
| CastPlugin.Chromecast.OnGenericError | src/android/Chromecast.java:527-529 | Answers the session's reason unchanged, null included. |
| CastPlugin.Chromecast.OnRouteAdded | src/android/Chromecast.java:534-545 | A join is attempted exactly when auto-connect is on, no session is current and the route is not the phone's. Every route except the phone's is reported. An availability check is posted. |
| CastPlugin.Chromecast.OnRouteRemoved | src/android/Chromecast.java:547-552 | An availability check is posted. Every route except the phone's is reported. |
| CastPlugin.Chromecast.OnRouteSelected | src/android/Chromecast.java:554-556 | A new session without a callback becomes current, superseding any other. |
| CastPlugin.Chromecast.OnMediaUpdated | src/android/Chromecast.java:576-578 | Forwards the media status. |
| CastPlugin.Chromecast.OnSessionUpdated | src/android/Chromecast.java:581-589 | Forwards the status. A report that a session is no longer alive clears the current session, whichever session sent it: superseded launches and join attempts report to the plugin too (lines 260 and 299). |
| CastPlugin.Chromecast.OnMediaLoaded | src/android/Chromecast.java:592-594 | Forwards the loaded media. |
| CastPlugin.Chromecast.Invoke | src/android/Chromecast.java:93-97 | Runs the selected method on the unwrapped arguments and the callback. Its outcome is `InvokeOutcome` of whether a session was current, and the new state is the one that method's contract gives (`Ran`). |
| CastPlugin.Chromecast.InvokeMediaCommand | src/android/Chromecast.java:372-480 | `Invoke` for `loadMedia` and the media commands: each runs with its unwrapped arguments, with the outcome and effect of `Ran`. |
| CastPlugin.Chromecast.InvokeControlCommand | src/android/Chromecast.java:125-497 | `Invoke` for the commands that return `true` whatever the session: each runs with its unwrapped arguments, with the effect of `Ran`. |
| CastPlugin.Chromecast.CallEntry | src/android/Chromecast.java:85-111 | Binds the arguments. If the last parameter is not the callback context, `invoke` throws and the answer is `false` with nothing changed. Otherwise the method runs (`Ran`) and the answer is `ExecuteResult` of its outcome. |
| CastPlugin.Chromecast.Execute | src/android/Chromecast.java:60-112 | No match, or a match whose last parameter is not the callback context: `false`, with nothing changed. Otherwise the selected entry is a method's signature, the answer is `ExecuteResult` of its outcome, and its state change is that method's (`Ran`). |
| Scenarios.Started | src/android/Chromecast.java:50-162 | A plugin built from the preferences, initialized under origin_scoped and with the router registration run: no session, no requests, one success answer. |
| Scenarios.SelectThenLaunch | src/android/Chromecast.java:225-279 | Select by id, the lookup runs, the launch succeeds: the host gets the session, and its id is remembered and stored. |
| Scenarios.SupersededLaunchIsDropped | src/android/Chromecast.java:259-279 | A launch superseded by a route selection is dropped silently. The newer one is announced as joined. |
| Scenarios.FailedLaunchStaysCurrent | src/android/Chromecast.java:225-229 | After a launch error, the next selection succeeds at once with the failed session. |
| Scenarios.AutoJoin | src/android/Chromecast.java:534-538 | Under origin_scoped with the remembered app id, every non-phone route starts a join while no session is current. A later join success is ignored. |
| Scenarios.InitializePolicies | src/android/Chromecast.java:142-149 | Another policy changes nothing. A new app id under origin_scoped is stored, but the in-memory one is kept. |
| Scenarios.MediaCommands | src/android/Chromecast.java:372-497 | Without a session, load answers false and play throws. Seek sends 30 s as 30000 ms. Stopping clears the session and the stored id. |
| Scenarios.VolumeStubUnroutable | src/android/Chromecast.java:327-330 | `execute("setReceiverVolumeLevel", …)` is `false` and nothing is answered. |
| Scenarios.ListenerUnroutable | src/android/Chromecast.java:576-578 | `execute("onMediaUpdated", [])` is `false` and nothing is answered. |
| Scenarios.UnknownActionUnroutable | src/android/Chromecast.java:99-101 | An unknown action is `false`. |
| Scenarios.MediaPlayResolves | src/android/Chromecast.java:62-83 | `mediaPlay` with no arguments resolves to `mediaPlay`. |
| Scenarios.PlayNeedsSession | src/android/Chromecast.java:404-407 | `execute("mediaPlay", [])` is `false` without a session and `true` with one. |

## Behaviour of the code worth noting

The model follows the code in each of these.

- There is no `Busy` rejection of a second session attempt:
  - `selectRoute` and `requestSession` answer success with the pending session;
  - a route selection from the router replaces the current session.
- A launch error does not clear the current session. The next `selectRoute` therefore succeeds with the failed session.
- Auto-join is attempted for every reported route while no session is current, not just once.
- Under a policy other than origin_scoped the code does not overwrite the stored app id. Under origin_scoped with a new app id it stores the id but keeps the in-memory one.
- Media commands other than `loadMedia` do not answer "no session". They dereference the absent session, and `execute` answers `false` with no reply.
- Every session the plugin creates, superseded launches and join attempts included, reports its status to the plugin (lines 260 and 299). A report from any of them that it is no longer alive clears the current session.
- Generic error callbacks pass the channel's reason through unchanged, null included. Only the launch and load paths default to "unknown".

## Left out

- The MediaRouter, the route selector and the chooser dialog are not modelled beyond the route list passed to `RunUiTask`. The chooser's item list is not modelled either. With an empty route list, building that list would throw a `NegativeArraySizeException`; the model does not show this.
- `ChromecastSession` — its launch, join, media and kill operations and their channel traffic — is not part of this model. Its results enter as parameters of the `On…` methods.
- JSON serialisation (`createSessionObject`, `routeToJSON`, `toString`) is not modelled. Sessions are carried as tokens, media and session status as opaque strings.
- Logging is not modelled.
- SharedPreferences is not modelled as a durable store. It is a pair of fields, and asynchronous `apply()` and durability across restarts are left out.
- The threads are not modelled, and neither are `volatile` fields: UI-thread work and callbacks run one at a time in the order a caller chooses.
- The table holds only the plugin's own command and listener methods. `getMethods()` also returns `execute` itself, `initialize(CordovaInterface, CordovaWebView)` (line 50) and the public methods inherited from CordovaPlugin and Object; CordovaPlugin is not part of this model, and a re-entrant `execute` would need dispatch over nested JSON arrays. What this loses:
  - `execute("execute", [string, array])` dispatches again in the source; the model answers `false`.
  - An inherited public method whose parameters fit would run. For instance an `onMessage(String, Object)` receives `[string]` with the callback context as its `Object`, and `execute` answers `true`; `equals(Object)` or `wait(long)` would be matched by `[]`.
- Method order: `getMethods()` order is unspecified. For the modelled table it does not matter: `PluginNamesDistinct` with `DistinctNamesDetermineMatch` gives `FittingArgumentsSelect`: a method's own name and fitting arguments select that method wherever it sits. `SelectedMethodIs` is the converse.
- The join error callback (lines 316-318) only logs, and `onRouteUnselected` (lines 558-560) does nothing (its body is commented out), so no member models them.
- `Chromecast.Invoke` requires the shape `Execute` establishes. The five methods it can never reach (`setReceiverVolumeLevel`, `setReceiverMuted`, `onSessionUpdated`, `onMediaUpdated`, `onMediaLoaded`) are ruled out by that shape, as `PrimitiveMethodsRejectArguments` and `ListenersRejectTheCallback` show.
- `IllegalAccessException` cannot occur for public methods, so it is left out.
- Java `double` values are Dafny `real`s, with no arithmetic on them.
- `OnJoinSuccess` models a null join result as a no-op. In the source the exception is raised after `currentSession` is set to null, which it already was.
