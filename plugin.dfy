/**
 * The plugin controller (`Chromecast.java`): the session and identity state
 * machine driven by host commands and by callbacks of the media router and
 * of the cast sessions, and `execute`, which routes host commands onto it.
 *
 * Collaborators are abstracted as follows.
 * - A `ChromecastSession` object is a fresh token drawn from `nextSession`;
 *   the object identity test of the source is equality of tokens.
 * - Calls made on a cast session (launch, join, kill, media commands) are
 *   appended to `requests`; their asynchronous answers come back through the
 *   `On...` event methods, which take what the source's callback closure
 *   captured.
 * - `callbackContext.success`/`error` calls are appended to `replies`, and
 *   notifications sent to the web view are appended to `notes`.
 * - Work posted with `runOnUiThread` is queued in `uiQueue` and run in order
 *   by `RunUiTask`, which is given the router's route list of that moment.
 * - The shared preferences store is the pair `storedLastSessionId`,
 *   `storedLastAppId`.
 */
module CastPlugin {
  import opened Wrappers
  import opened Dispatch

  /** A media route: `RouteInfo.getId()` and `RouteInfo.getName()`. */
  datatype Route = Route(id: string, name: string)

  /** The name of the phone's own route, which the plugin never reports or auto-joins. */
  const PhoneRouteName: string := "Phone"

  /** The only auto-join policy that enables auto-connect. */
  const OriginScoped: string := "origin_scoped"

  /** Identity of a `ChromecastSession` object. */
  type SessionToken = nat

  /** A cast session object as a launch or join callback hands it back. */
  datatype SessionHandle = SessionHandle(session: SessionToken, sessionId: string)

  /** The parameters of a media load request. */
  datatype LoadRequest = LoadRequest(
    contentId: string, contentType: string, duration: Int32,
    streamType: string, autoPlay: bool, currentTime: Int32)

  /** A call made on a cast session object. */
  datatype Request =
    | Launch(session: SessionToken, route: Route, appId: Option<string>, launchCallback: Option<CallbackId>)
    | Join(session: SessionToken, route: Route, appId: Option<string>, sessionId: string)
    | Kill(session: SessionToken, callback: CallbackId)
    | Load(session: SessionToken, load: LoadRequest, callback: CallbackId)
    | Play(session: SessionToken, callback: CallbackId)
    | Pause(session: SessionToken, callback: CallbackId)
    | Seek(session: SessionToken, millis: int, resumeState: string, callback: CallbackId)
    | SetVolume(session: SessionToken, level: real, callback: CallbackId)
    | SetMuted(session: SessionToken, muted: bool, callback: CallbackId)
    | StopMedia(session: SessionToken, callback: CallbackId)

  /** What a success reply carries. */
  datatype Payload = Empty | SessionObject(session: SessionToken) | MediaObject(json: string)

  /** A call on a callback context; an error message may be Java `null`. */
  datatype Reply =
    | Success(callback: CallbackId, payload: Payload)
    | Error(callback: CallbackId, message: Option<string>)

  /** A notification pushed to the web view. */
  datatype Note =
    | ReceiverAvailable
    | ReceiverUnavailable
    | RouteAdded(route: Route)
    | RouteRemoved(route: Route)
    | SessionJoined(session: SessionToken)
    | SessionUpdated(isAlive: bool, json: string)
    | MediaUpdated(json: string)
    | MediaLoaded(json: string)

  /** A `Runnable` posted to the UI thread, with what it captured. */
  datatype UiTask =
    | RegisterRouter(callback: CallbackId)
    | ShowChooser(callback: CallbackId)
    | FindRoute(routeId: string, callback: CallbackId)
    | CheckAvailable

  /** What the preferences store holds when the plugin starts; absent keys read as "". */
  datatype Prefs = Prefs(lastSessionId: Option<string>, lastAppId: Option<string>)

  predicate IsUserRoute(route: Route) {
    route.name != PhoneRouteName
  }

  /** The auto-join test of `onRouteAdded`, line 535. */
  predicate ShouldJoin(autoConnect: bool, currentSession: Option<SessionToken>, route: Route) {
    autoConnect && currentSession.None? && IsUserRoute(route)
  }

  /**
   * `seekTime.longValue() * 1000` (line 442): seconds to milliseconds. The
   * product of an `int` and 1000 always fits in a `long`, so nothing wraps.
   */
  function SeekMillis(seconds: Int32): (millis: int)
    ensures -0x8000_0000_0000_0000 <= millis < 0x8000_0000_0000_0000
    ensures millis % 1000 == 0 && millis / 1000 == seconds
  {
    seconds * 1000
  }

  /**
   * The body of `checkReceiverAvailable`, lines 506-513: every route the
   * router lists counts, the phone's own route included.
   */
  function AvailabilityNote(routes: seq<Route>): (n: Note)
    ensures n == ReceiverAvailable || n == ReceiverUnavailable
    ensures n == ReceiverAvailable <==> routes != []
  {
    if |routes| > 0 then ReceiverAvailable else ReceiverUnavailable
  }

  /** The phone's own route alone makes a receiver "available". */
  lemma PhoneRouteAloneIsAvailable(id: string)
    ensures AvailabilityNote([Route(id, PhoneRouteName)]) == ReceiverAvailable
  {
  }

  /** Reference definition of the route lookup of `selectRoute`: the first route with that id. */
  function RouteIndex(routes: seq<Route>, routeId: string): (r: Option<nat>)
    ensures r.Some? ==> r.value < |routes| && routes[r.value].id == routeId
    ensures r.Some? ==> forall j :: 0 <= j < r.value ==> routes[j].id != routeId
    ensures r.None? <==> forall j :: 0 <= j < |routes| ==> routes[j].id != routeId
  {
    if routes == [] then None
    else if routes[0].id == routeId then Some(0)
    else match RouteIndex(routes[1..], routeId)
      case None => None
      case Some(k) => Some(k + 1)
  }

  /** The loop over the router's routes in `selectRoute`, lines 239-244. */
  method FindRouteById(routes: seq<Route>, routeId: string) returns (found: Option<nat>)
    ensures found == RouteIndex(routes, routeId)
  {
    found := None;
    var n := 0;
    while n < |routes|
      invariant 0 <= n <= |routes|
      invariant forall j :: 0 <= j < n ==> routes[j].id != routeId
    {
      if routes[n].id == routeId {
        found := Some(n);
        return;
      }
      n := n + 1;
    }
  }

  /** The plugin's public methods, the targets `execute` can reach by reflection. */
  datatype Target =
    | Setup | Initialize | RequestSession | SelectRoute
    | SetReceiverVolumeLevel | SetReceiverMuted | StopSession | SendMessage
    | LoadMedia | MediaPlay | MediaPause | MediaSeek | SetMediaVolume | SetMediaMuted | MediaStop
    | SessionStop
    | OnMediaUpdated | OnSessionUpdated | OnMediaLoaded

  /** The declared signature of each public method. */
  function Signature(t: Target): MethodSig<Target> {
    match t
    case Setup => MethodSig(t, "setup", [CallbackContextClass], true)
    case Initialize => MethodSig(t, "initialize", [StringClass, StringClass, StringClass, CallbackContextClass], true)
    case RequestSession => MethodSig(t, "requestSession", [CallbackContextClass], true)
    case SelectRoute => MethodSig(t, "selectRoute", [StringClass, CallbackContextClass], true)
    case SetReceiverVolumeLevel => MethodSig(t, "setReceiverVolumeLevel", [PrimitiveDouble, CallbackContextClass], true)
    case SetReceiverMuted => MethodSig(t, "setReceiverMuted", [PrimitiveBoolean, CallbackContextClass], true)
    case StopSession => MethodSig(t, "stopSession", [CallbackContextClass], true)
    case SendMessage => MethodSig(t, "sendMessage", [StringClass, StringClass, CallbackContextClass], true)
    case LoadMedia => MethodSig(t, "loadMedia",
      [StringClass, StringClass, IntegerClass, StringClass, BooleanClass, IntegerClass, CallbackContextClass], true)
    case MediaPlay => MethodSig(t, "mediaPlay", [CallbackContextClass], true)
    case MediaPause => MethodSig(t, "mediaPause", [CallbackContextClass], true)
    case MediaSeek => MethodSig(t, "mediaSeek", [IntegerClass, StringClass, CallbackContextClass], true)
    case SetMediaVolume => MethodSig(t, "setMediaVolume", [DoubleClass, CallbackContextClass], true)
    case SetMediaMuted => MethodSig(t, "setMediaMuted", [BooleanClass, CallbackContextClass], true)
    case MediaStop => MethodSig(t, "mediaStop", [CallbackContextClass], true)
    case SessionStop => MethodSig(t, "sessionStop", [CallbackContextClass], true)
    case OnMediaUpdated => MethodSig(t, "onMediaUpdated", [JsonObjectClass], false)
    case OnSessionUpdated => MethodSig(t, "onSessionUpdated", [PrimitiveBoolean, JsonObjectClass], false)
    case OnMediaLoaded => MethodSig(t, "onMediaLoaded", [JsonObjectClass], false)
  }

  /** The public methods in declaration order, the order `getMethods()` is taken to yield. */
  const Targets: seq<Target> := [
    Setup, Initialize, RequestSession, SelectRoute, SetReceiverVolumeLevel, SetReceiverMuted,
    StopSession, SendMessage, LoadMedia, MediaPlay, MediaPause, MediaSeek, SetMediaVolume,
    SetMediaMuted, MediaStop, SessionStop, OnMediaUpdated, OnSessionUpdated, OnMediaLoaded]

  /** The method table `execute` searches. */
  const PluginMethods: seq<MethodSig<Target>> :=
    seq(|Targets|, i requires 0 <= i < |Targets| => Signature(Targets[i]))

  /** Where a method sits in the table. */
  function TargetIndex(t: Target): (k: nat)
    ensures k < |Targets| && Targets[k] == t
  {
    match t
    case Setup => 0
    case Initialize => 1
    case RequestSession => 2
    case SelectRoute => 3
    case SetReceiverVolumeLevel => 4
    case SetReceiverMuted => 5
    case StopSession => 6
    case SendMessage => 7
    case LoadMedia => 8
    case MediaPlay => 9
    case MediaPause => 10
    case MediaSeek => 11
    case SetMediaVolume => 12
    case SetMediaMuted => 13
    case MediaStop => 14
    case SessionStop => 15
    case OnMediaUpdated => 16
    case OnSessionUpdated => 17
    case OnMediaLoaded => 18
  }

  /** Each position of the table holds a different method. */
  lemma TargetAtIndex(k: nat)
    requires k < |Targets|
    ensures TargetIndex(Targets[k]) == k
  {
  }

  /** Every entry of the table is the signature of the method it denotes. */
  lemma PluginMethodsAreSignatures(k: nat)
    requires k < |PluginMethods|
    ensures PluginMethods[k] == Signature(PluginMethods[k].target)
  {
    assert PluginMethods[k] == Signature(Targets[k]);
  }

  /** `getMethod(name)` for the plugin: the public method with that name, if any. */
  function TargetNamed(name: string): (t: Option<Target>)
    ensures t.Some? ==> Signature(t.value).name == name
  {
    if name == "setup" then Some(Setup)
    else if name == "initialize" then Some(Initialize)
    else if name == "requestSession" then Some(RequestSession)
    else if name == "selectRoute" then Some(SelectRoute)
    else if name == "setReceiverVolumeLevel" then Some(SetReceiverVolumeLevel)
    else if name == "setReceiverMuted" then Some(SetReceiverMuted)
    else if name == "stopSession" then Some(StopSession)
    else if name == "sendMessage" then Some(SendMessage)
    else if name == "loadMedia" then Some(LoadMedia)
    else if name == "mediaPlay" then Some(MediaPlay)
    else if name == "mediaPause" then Some(MediaPause)
    else if name == "mediaSeek" then Some(MediaSeek)
    else if name == "setMediaVolume" then Some(SetMediaVolume)
    else if name == "setMediaMuted" then Some(SetMediaMuted)
    else if name == "mediaStop" then Some(MediaStop)
    else if name == "sessionStop" then Some(SessionStop)
    else if name == "onMediaUpdated" then Some(OnMediaUpdated)
    else if name == "onSessionUpdated" then Some(OnSessionUpdated)
    else if name == "onMediaLoaded" then Some(OnMediaLoaded)
    else None
  }

  /** A method's name identifies it: no two entries of the modelled table share a name. */
  lemma NameIdentifiesMethod(t: Target)
    ensures TargetNamed(Signature(t).name) == Some(t)
  {
    match t
    case Setup =>
    case Initialize =>
    case RequestSession =>
    case SelectRoute =>
    case SetReceiverVolumeLevel =>
    case SetReceiverMuted =>
    case StopSession =>
    case SendMessage =>
    case LoadMedia =>
    case MediaPlay =>
    case MediaPause =>
    case MediaSeek =>
    case SetMediaVolume =>
    case SetMediaMuted =>
    case MediaStop =>
    case SessionStop =>
    case OnMediaUpdated =>
    case OnSessionUpdated =>
    case OnMediaLoaded =>
  }

  /** The names in the table are distinct, so its order does not decide which entry matches. */
  lemma PluginNamesDistinct()
    ensures forall i, j :: 0 <= i < j < |PluginMethods| ==> PluginMethods[i].name != PluginMethods[j].name
  {
    forall i, j | 0 <= i < j < |PluginMethods|
      ensures PluginMethods[i].name != PluginMethods[j].name
    {
      NameIdentifiesMethod(Targets[i]);
      NameIdentifiesMethod(Targets[j]);
      TargetAtIndex(i);
      TargetAtIndex(j);
    }
  }

  /** Whatever entry `execute` selects is the signature of the method named by the action. */
  lemma {:induction false} SelectedMethodIsNamed(action: string, args: seq<Arg>)
    ensures FirstMatch(PluginMethods, action, args).Some? ==>
      && TargetNamed(action).Some?
      && PluginMethods[FirstMatch(PluginMethods, action, args).value] == Signature(TargetNamed(action).value)
  {
    if FirstMatch(PluginMethods, action, args).Some? {
      var k := FirstMatch(PluginMethods, action, args).value;
      PluginMethodsAreSignatures(k);
      NameIdentifiesMethod(PluginMethods[k].target);
    }
  }

  /** Only an action that names a public method of the plugin is ever resolved. */
  lemma {:induction false} OnlyNamedActionsResolve(action: string, args: seq<Arg>)
    ensures TargetNamed(action).None? ==> FirstMatch(PluginMethods, action, args).None?
  {
    SelectedMethodIsNamed(action, args);
  }

  /** The same, stated for a method given by its target. */
  lemma {:induction false} SelectedMethodIs(t: Target, args: seq<Arg>)
    ensures FirstMatch(PluginMethods, Signature(t).name, args).Some? ==>
      && PluginMethods[FirstMatch(PluginMethods, Signature(t).name, args).value] == Signature(t)
      && ArgsFit(Signature(t).params, args)
  {
    SelectedMethodIsNamed(Signature(t).name, args);
    NameIdentifiesMethod(t);
  }

  /**
   * The converse: when the JSON arguments fit a method's parameters, a
   * command with that method's name selects that very method, wherever it
   * sits in the table.
   */
  lemma {:induction false} FittingArgumentsSelect(t: Target, args: seq<Arg>)
    requires ArgsFit(Signature(t).params, args)
    ensures FirstMatch(PluginMethods, Signature(t).name, args).Some?
    ensures PluginMethods[FirstMatch(PluginMethods, Signature(t).name, args).value] == Signature(t)
  {
    var k := TargetIndex(t);
    assert PluginMethods[k] == Signature(t);
    assert Matches(PluginMethods[k], Signature(t).name, args);
    PluginNamesDistinct();
    DistinctNamesDetermineMatch(PluginMethods, Signature(t).name, args, k);
  }

  /**
   * The receiver stubs and `onSessionUpdated` declare a primitive first
   * parameter, which no JSON value's class equals, so `execute` never
   * selects them.
   */
  lemma {:induction false} PrimitiveMethodsNeverSelected(t: Target, args: seq<Arg>)
    requires t == SetReceiverVolumeLevel || t == SetReceiverMuted || t == OnSessionUpdated
    ensures FirstMatch(PluginMethods, Signature(t).name, args).None?
  {
    PrimitiveMethodsRejectArguments(t, args);
    SelectedMethodIs(t, args);
  }

  /** No JSON arguments fit the parameters of a method with a primitive first parameter. */
  lemma PrimitiveMethodsRejectArguments(t: Target, args: seq<Arg>)
    ensures t == SetReceiverVolumeLevel || t == SetReceiverMuted || t == OnSessionUpdated ==>
      !ArgsFit(Signature(t).params, args)
  {
    if (t == SetReceiverVolumeLevel || t == SetReceiverMuted || t == OnSessionUpdated)
       && |args| + 1 == |Signature(t).params| {
      assert ClassOf(args[0]) != Signature(t).params[0];
    }
  }

  /**
   * `onMediaUpdated` and `onMediaLoaded` are selected by a call without
   * arguments, but their one parameter is not a callback context, so
   * `invoke` rejects the binding.
   */
  lemma {:induction false} ListenersRejectTheCallback(t: Target, args: seq<Arg>)
    requires t == OnMediaUpdated || t == OnMediaLoaded
    ensures FirstMatch(PluginMethods, Signature(t).name, args).Some? ==>
      args == [] && PluginMethods[FirstMatch(PluginMethods, Signature(t).name, args).value].params[0] != CallbackContextClass
  {
    SelectedMethodIs(t, args);
  }

  /**
   * What a plugin method returns when `execute` invokes it, given whether a
   * session is current: `loadMedia` answers `false` without a session and
   * otherwise what the session answers; the other media commands call the
   * session unchecked and throw without one; every other method returns
   * `true`.
   */
  function InvokeOutcome(t: Target, hasSession: bool, loadAccepted: bool): (o: Outcome)
    ensures o.Threw? <==> !hasSession && IsSessionCommand(t)
    ensures o == Returned(false) <==> t == LoadMedia && !(hasSession && loadAccepted)
  {
    match t
    case LoadMedia => Returned(hasSession && loadAccepted)
    case MediaPlay => if hasSession then Returned(true) else Threw
    case MediaPause => if hasSession then Returned(true) else Threw
    case MediaSeek => if hasSession then Returned(true) else Threw
    case SetMediaVolume => if hasSession then Returned(true) else Threw
    case SetMediaMuted => if hasSession then Returned(true) else Threw
    case MediaStop => if hasSession then Returned(true) else Threw
    case _ => Returned(true)
  }

  /** The media commands that call the current session without checking it. */
  predicate IsSessionCommand(t: Target) {
    t == MediaPlay || t == MediaPause || t == MediaSeek || t == SetMediaVolume || t == SetMediaMuted || t == MediaStop
  }

  /** The commands `execute` can reach that return `true` whether or not a session is current. */
  predicate IsControlCommand(t: Target) {
    t == Setup || t == Initialize || t == RequestSession || t == SelectRoute
    || t == StopSession || t == SendMessage || t == SessionStop
  }

  /**
   * Once a method is invoked, `execute` answers `true` exactly when a
   * session is current or the method works without one (and, for
   * `loadMedia`, the session accepted the load).
   */
  lemma InvokedCommandHandled(t: Target, hasSession: bool, loadAccepted: bool)
    requires Signature(t).params[|Signature(t).params| - 1] == CallbackContextClass
    ensures ExecuteResult(Signature(t).returnsBool, InvokeOutcome(t, hasSession, loadAccepted)) <==>
      (t == LoadMedia ==> hasSession && loadAccepted) && (IsSessionCommand(t) ==> hasSession)
  {
  }

  class Chromecast {
    var appId: Option<string>
    var autoConnect: bool
    var lastSessionId: string
    var lastAppId: string
    var storedLastSessionId: string
    var storedLastAppId: string
    var currentSession: Option<SessionToken>
    /** Token of the next `ChromecastSession` object to be allocated. */
    var nextSession: SessionToken
    var uiQueue: seq<UiTask>
    var requests: seq<Request>
    var replies: seq<Reply>
    var notes: seq<Note>

    /**
     * The in-memory last session id mirrors the stored one, and the current
     * session and every session a request went to were allocated already.
     */
    ghost predicate Valid()
      reads this
    {
      && lastSessionId == storedLastSessionId
      && (currentSession.Some? ==> currentSession.value < nextSession)
      && (forall i :: 0 <= i < |requests| ==> requests[i].session < nextSession)
    }

    /** Plugin creation followed by the host's `initialize(cordova, webView)`, lines 50-57. */
    constructor (prefs: Prefs)
      ensures Valid()
      ensures appId.None? && !autoConnect && currentSession.None?
      ensures lastSessionId == storedLastSessionId == prefs.lastSessionId.GetOr("")
      ensures lastAppId == storedLastAppId == prefs.lastAppId.GetOr("")
      ensures nextSession == 0
      ensures uiQueue == [] && requests == [] && replies == [] && notes == []
    {
      appId := None;
      autoConnect := false;
      currentSession := None;
      nextSession := 0;
      lastSessionId := prefs.lastSessionId.GetOr("");
      storedLastSessionId := prefs.lastSessionId.GetOr("");
      lastAppId := prefs.lastAppId.GetOr("");
      storedLastAppId := prefs.lastAppId.GetOr("");
      uiQueue, requests, replies, notes := [], [], [], [];
    }

    /** Lines 114-117: the field and its stored copy get the same id. */
    method SetLastSessionId(sessionId: string)
      modifies this`lastSessionId, this`storedLastSessionId
      ensures lastSessionId == sessionId && storedLastSessionId == sessionId
    {
      lastSessionId := sessionId;
      storedLastSessionId := sessionId;
    }

    /** Lines 125-128. */
    method Setup(callback: CallbackId) returns (r: Outcome)
      modifies this`replies
      ensures replies == old(replies) + [Success(callback, Empty)]
      ensures r == Returned(true)
    {
      replies := replies + [Success(callback, Empty)];
      r := Returned(true);
    }

    /**
     * Lines 138-165. Auto-connect is switched on (never off) when the policy
     * is origin_scoped and the app id is the remembered one; under
     * origin_scoped with another app id only the STORED app id is updated,
     * the in-memory `lastAppId` is left as it was.
     */
    method Initialize(appId: string, autoJoinPolicy: string, defaultActionPolicy: string, callback: CallbackId)
      returns (r: Outcome)
      requires Valid()
      modifies this`appId, this`autoConnect, this`storedLastAppId, this`uiQueue
      ensures Valid()
      ensures this.appId == Some(appId)
      ensures autoConnect <==> old(autoConnect) || (autoJoinPolicy == OriginScoped && appId == lastAppId)
      ensures storedLastAppId == if autoJoinPolicy == OriginScoped && appId != lastAppId then appId else old(storedLastAppId)
      ensures uiQueue == old(uiQueue) + [RegisterRouter(callback)]
      ensures r == Returned(true)
    {
      this.appId := Some(appId);
      if autoJoinPolicy == OriginScoped && appId == lastAppId {
        autoConnect := true;
      } else if autoJoinPolicy == OriginScoped {
        storedLastAppId := appId;
      }
      uiQueue := uiQueue + [RegisterRouter(callback)];
      r := Returned(true);
    }

    /**
     * Lines 173-216. With a current session the request succeeds with it and
     * nothing else changes; otherwise the last session id is cleared and the
     * route chooser is posted to the UI thread.
     */
    method RequestSession(callback: CallbackId) returns (r: Outcome)
      requires Valid()
      modifies this`lastSessionId, this`storedLastSessionId, this`replies, this`uiQueue
      ensures Valid()
      ensures currentSession.Some? ==>
        && replies == old(replies) + [Success(callback, SessionObject(currentSession.value))]
        && lastSessionId == old(lastSessionId) && uiQueue == old(uiQueue)
      ensures currentSession.None? ==>
        && lastSessionId == "" && replies == old(replies)
        && uiQueue == old(uiQueue) + [ShowChooser(callback)]
      ensures r == Returned(true)
    {
      if currentSession.Some? {
        replies := replies + [Success(callback, SessionObject(currentSession.value))];
        return Returned(true);
      }
      SetLastSessionId("");
      uiQueue := uiQueue + [ShowChooser(callback)];
      r := Returned(true);
    }

    /** The chooser's item click, lines 206-209: item `which` is route `which + 1` of the list shown. */
    method OnChooserPick(callback: CallbackId, routeList: seq<Route>, which: nat)
      requires Valid()
      requires which + 1 < |routeList|
      modifies this`currentSession, this`nextSession, this`requests
      ensures Valid()
      ensures currentSession == Some(old(nextSession)) && nextSession == old(nextSession) + 1
      ensures requests == old(requests) + [Launch(old(nextSession), routeList[which + 1], appId, Some(callback))]
    {
      CreateSession(routeList[which + 1], Some(callback));
    }

    /** The chooser's cancel button, lines 197-203. */
    method OnChooserCancel(callback: CallbackId)
      modifies this`replies
      ensures replies == old(replies) + [Error(callback, Some("cancel"))]
    {
      replies := replies + [Error(callback, Some("cancel"))];
    }

    /**
     * Lines 225-252. With a current session the request succeeds with it and
     * nothing else changes; otherwise the last session id is cleared and the
     * route lookup is posted to the UI thread.
     */
    method SelectRoute(routeId: string, callback: CallbackId) returns (r: Outcome)
      requires Valid()
      modifies this`lastSessionId, this`storedLastSessionId, this`replies, this`uiQueue
      ensures Valid()
      ensures currentSession.Some? ==>
        && replies == old(replies) + [Success(callback, SessionObject(currentSession.value))]
        && lastSessionId == old(lastSessionId) && uiQueue == old(uiQueue)
      ensures currentSession.None? ==>
        && lastSessionId == "" && replies == old(replies)
        && uiQueue == old(uiQueue) + [FindRoute(routeId, callback)]
      ensures r == Returned(true)
    {
      if currentSession.Some? {
        replies := replies + [Success(callback, SessionObject(currentSession.value))];
        return Returned(true);
      }
      SetLastSessionId("");
      uiQueue := uiQueue + [FindRoute(routeId, callback)];
      r := Returned(true);
    }

    /**
     * Runs the oldest task posted to the UI thread; `routes` is what the
     * router lists at that moment.
     * - router registration (lines 154-160) answers the initialize callback;
     * - the chooser (lines 184-211) is shown, its answer comes back through
     *   `OnChooserPick` or `OnChooserCancel`;
     * - the route lookup (lines 236-247) creates a session on the first
     *   route with the id, or answers "No route found";
     * - the availability check (lines 505-513) notifies the web view.
     */
    method RunUiTask(routes: seq<Route>)
      requires Valid()
      requires uiQueue != []
      modifies this`uiQueue, this`replies, this`notes, this`currentSession, this`nextSession, this`requests
      ensures Valid()
      ensures uiQueue == old(uiQueue[1..])
      ensures old(uiQueue[0]).RegisterRouter? ==>
        && replies == old(replies) + [Success(old(uiQueue[0]).callback, Empty)]
        && notes == old(notes) && currentSession == old(currentSession)
        && nextSession == old(nextSession) && requests == old(requests)
      ensures old(uiQueue[0]).ShowChooser? ==>
        && replies == old(replies) && notes == old(notes) && currentSession == old(currentSession)
        && nextSession == old(nextSession) && requests == old(requests)
      ensures old(uiQueue[0]).FindRoute? ==>
        var task := old(uiQueue[0]);
        notes == old(notes) &&
        match RouteIndex(routes, task.routeId)
        case None =>
          && replies == old(replies) + [Error(task.callback, Some("No route found"))]
          && currentSession == old(currentSession) && nextSession == old(nextSession) && requests == old(requests)
        case Some(k) =>
          && replies == old(replies)
          && currentSession == Some(old(nextSession)) && nextSession == old(nextSession) + 1
          && requests == old(requests) + [Launch(old(nextSession), routes[k], appId, Some(task.callback))]
      ensures old(uiQueue[0]).CheckAvailable? ==>
        && notes == old(notes) + [AvailabilityNote(routes)]
        && replies == old(replies) && currentSession == old(currentSession)
        && nextSession == old(nextSession) && requests == old(requests)
    {
      var task := uiQueue[0];
      uiQueue := uiQueue[1..];
      match task
      case RegisterRouter(callback) =>
        replies := replies + [Success(callback, Empty)];
      case ShowChooser(_) =>
      case FindRoute(routeId, callback) =>
        var found := FindRouteById(routes, routeId);
        if found.Some? {
          CreateSession(routes[found.value], Some(callback));
        } else {
          replies := replies + [Error(callback, Some("No route found"))];
        }
      case CheckAvailable =>
        notes := notes + [AvailabilityNote(routes)];
    }

    /**
     * Lines 259-263: a new session object becomes the current session,
     * unconditionally, and is asked to launch the app. Every session an
     * earlier request went to is thereby superseded.
     */
    method CreateSession(route: Route, callback: Option<CallbackId>)
      requires Valid()
      modifies this`currentSession, this`nextSession, this`requests
      ensures Valid()
      ensures currentSession == Some(old(nextSession)) && nextSession == old(nextSession) + 1
      ensures requests == old(requests) + [Launch(old(nextSession), route, appId, callback)]
      ensures forall i :: 0 <= i < |old(requests)| ==> old(requests)[i].session != currentSession.value
    {
      currentSession := Some(nextSession);
      requests := requests + [Launch(nextSession, route, appId, callback)];
      nextSession := nextSession + 1;
    }

    /**
     * The launch success callback, lines 266-279. A null result is handled
     * as the error "unknown". A result that is the current session sets the
     * last session id and answers the callback, or notifies "session joined"
     * when there is no callback. A result for a superseded session changes
     * and reports nothing. The current session is never changed here.
     */
    method OnLaunchSuccess(callback: Option<CallbackId>, result: Option<SessionHandle>)
      requires Valid()
      requires result.Some? ==> result.value.session < nextSession
      modifies this`lastSessionId, this`storedLastSessionId, this`replies, this`notes
      ensures Valid()
      ensures result.None? ==>
        && lastSessionId == old(lastSessionId) && notes == old(notes)
        && replies == old(replies) + (if callback.Some? then [Error(callback.value, Some("unknown"))] else [])
      ensures result.Some? && currentSession == Some(result.value.session) ==>
        && lastSessionId == result.value.sessionId
        && (callback.Some? ==>
              replies == old(replies) + [Success(callback.value, SessionObject(result.value.session))]
              && notes == old(notes))
        && (callback.None? ==>
              notes == old(notes) + [SessionJoined(result.value.session)] && replies == old(replies))
      ensures result.Some? && currentSession != Some(result.value.session) ==>
        lastSessionId == old(lastSessionId) && replies == old(replies) && notes == old(notes)
    {
      if result.None? {
        OnLaunchError(callback, Some("unknown"));
      } else if currentSession == Some(result.value.session) {
        SetLastSessionId(result.value.sessionId);
        if callback.Some? {
          replies := replies + [Success(callback.value, SessionObject(result.value.session))];
        } else {
          notes := notes + [SessionJoined(result.value.session)];
        }
      }
    }

    /**
     * The launch error callback, lines 282-293: the reason, or "unknown" for
     * a null reason, is reported when there is a callback. The current
     * session is NOT cleared.
     */
    method OnLaunchError(callback: Option<CallbackId>, reason: Option<string>)
      modifies this`replies
      ensures replies == old(replies) + (if callback.Some? then [Error(callback.value, Some(reason.GetOr("unknown")))] else [])
    {
      if reason.Some? {
        if callback.Some? {
          replies := replies + [Error(callback.value, reason)];
        }
      } else {
        if callback.Some? {
          replies := replies + [Error(callback.value, Some("unknown"))];
        }
      }
    }

    /**
     * Lines 298-300: a new session object is asked to join the remembered
     * session. It does not become the current session.
     */
    method JoinSession(route: Route)
      requires Valid()
      modifies this`nextSession, this`requests
      ensures Valid()
      ensures nextSession == old(nextSession) + 1
      ensures requests == old(requests) + [Join(old(nextSession), route, appId, lastSessionId)]
    {
      requests := requests + [Join(nextSession, route, appId, lastSessionId)];
      nextSession := nextSession + 1;
    }

    /**
     * The join success callback, lines 303-313: the result is adopted only
     * while there is still no current session. Adopting sets the last
     * session id and notifies "session joined"; a null result makes the
     * source's `getSessionId` call fail inside its catch-all, leaving
     * everything as it was. A join error (lines 316-318) only logs.
     */
    method OnJoinSuccess(result: Option<SessionHandle>)
      requires Valid()
      requires result.Some? ==> result.value.session < nextSession
      modifies this`currentSession, this`lastSessionId, this`storedLastSessionId, this`notes
      ensures Valid()
      ensures old(currentSession).None? && result.Some? ==>
        && currentSession == Some(result.value.session)
        && lastSessionId == result.value.sessionId
        && notes == old(notes) + [SessionJoined(result.value.session)]
      ensures old(currentSession).Some? || result.None? ==>
        currentSession == old(currentSession) && lastSessionId == old(lastSessionId) && notes == old(notes)
    {
      if currentSession.None? {
        currentSession := if result.Some? then Some(result.value.session) else None;
        if result.Some? {
          SetLastSessionId(result.value.sessionId);
          notes := notes + [SessionJoined(result.value.session)];
        }
      }
    }

    /** Lines 327-330: a stub. */
    method SetReceiverVolumeLevel(newLevel: real, callback: CallbackId) returns (r: Outcome)
      modifies this`replies
      ensures replies == old(replies) + [Error(callback, Some("not_implemented"))]
      ensures r == Returned(true)
    {
      replies := replies + [Error(callback, Some("not_implemented"))];
      r := Returned(true);
    }

    /** Lines 337-340: a stub. */
    method SetReceiverMuted(muted: bool, callback: CallbackId) returns (r: Outcome)
      modifies this`replies
      ensures replies == old(replies) + [Error(callback, Some("not_implemented"))]
      ensures r == Returned(true)
    {
      replies := replies + [Error(callback, Some("not_implemented"))];
      r := Returned(true);
    }

    /** Lines 346-349: a stub; the session is really stopped by `SessionStop`. */
    method StopSession(callback: CallbackId) returns (r: Outcome)
      modifies this`replies
      ensures replies == old(replies) + [Error(callback, Some("not_implemented"))]
      ensures r == Returned(true)
    {
      replies := replies + [Error(callback, Some("not_implemented"))];
      r := Returned(true);
    }

    /** Lines 357-360: a stub. */
    method SendMessage(namespace: string, message: string, callback: CallbackId) returns (r: Outcome)
      modifies this`replies
      ensures replies == old(replies) + [Error(callback, Some("not_implemented"))]
      ensures r == Returned(true)
    {
      replies := replies + [Error(callback, Some("not_implemented"))];
      r := Returned(true);
    }

    /**
     * Lines 372-397: the one media command that checks for a session.
     * Without one it answers "session_error" and returns false; with one it
     * asks the session to load and returns what the session's `loadMedia`
     * returns (`loadAccepted`, decided by the session object).
     */
    method LoadMedia(contentId: string, contentType: string, duration: Int32, streamType: string,
                     autoPlay: bool, currentTime: Int32, callback: CallbackId, loadAccepted: bool)
      returns (r: Outcome)
      requires Valid()
      modifies this`requests, this`replies
      ensures Valid()
      ensures currentSession.None? ==>
        && replies == old(replies) + [Error(callback, Some("session_error"))]
        && requests == old(requests) && r == Returned(false)
      ensures currentSession.Some? ==>
        && requests == old(requests) + [Load(currentSession.value,
             LoadRequest(contentId, contentType, duration, streamType, autoPlay, currentTime), callback)]
        && replies == old(replies) && r == Returned(loadAccepted)
    {
      if currentSession.Some? {
        requests := requests + [Load(currentSession.value,
          LoadRequest(contentId, contentType, duration, streamType, autoPlay, currentTime), callback)];
        r := Returned(loadAccepted);
      } else {
        replies := replies + [Error(callback, Some("session_error"))];
        r := Returned(false);
      }
    }

    /** Lines 404-407; without a session the call on `null` throws. */
    method MediaPlay(callback: CallbackId) returns (r: Outcome)
      requires Valid()
      modifies this`requests
      ensures Valid()
      ensures currentSession.None? ==> r == Threw && requests == old(requests)
      ensures currentSession.Some? ==>
        r == Returned(true) && requests == old(requests) + [Play(currentSession.value, callback)]
    {
      if currentSession.None? {
        return Threw;
      }
      requests := requests + [Play(currentSession.value, callback)];
      r := Returned(true);
    }

    /** Lines 414-431; its callback behaves as the generic one. */
    method MediaPause(callback: CallbackId) returns (r: Outcome)
      requires Valid()
      modifies this`requests
      ensures Valid()
      ensures currentSession.None? ==> r == Threw && requests == old(requests)
      ensures currentSession.Some? ==>
        r == Returned(true) && requests == old(requests) + [Pause(currentSession.value, callback)]
    {
      if currentSession.None? {
        return Threw;
      }
      requests := requests + [Pause(currentSession.value, callback)];
      r := Returned(true);
    }

    /** Lines 441-444: the seek time is passed on in milliseconds. */
    method MediaSeek(seekTime: Int32, resumeState: string, callback: CallbackId) returns (r: Outcome)
      requires Valid()
      modifies this`requests
      ensures Valid()
      ensures currentSession.None? ==> r == Threw && requests == old(requests)
      ensures currentSession.Some? ==>
        && r == Returned(true)
        && requests == old(requests) + [Seek(currentSession.value, SeekMillis(seekTime), resumeState, callback)]
    {
      if currentSession.None? {
        return Threw;
      }
      requests := requests + [Seek(currentSession.value, SeekMillis(seekTime), resumeState, callback)];
      r := Returned(true);
    }

    /** Lines 453-457. */
    method SetMediaVolume(level: real, callback: CallbackId) returns (r: Outcome)
      requires Valid()
      modifies this`requests
      ensures Valid()
      ensures currentSession.None? ==> r == Threw && requests == old(requests)
      ensures currentSession.Some? ==>
        r == Returned(true) && requests == old(requests) + [SetVolume(currentSession.value, level, callback)]
    {
      if currentSession.None? {
        return Threw;
      }
      requests := requests + [SetVolume(currentSession.value, level, callback)];
      r := Returned(true);
    }

    /** Lines 465-469. */
    method SetMediaMuted(muted: bool, callback: CallbackId) returns (r: Outcome)
      requires Valid()
      modifies this`requests
      ensures Valid()
      ensures currentSession.None? ==> r == Threw && requests == old(requests)
      ensures currentSession.Some? ==>
        r == Returned(true) && requests == old(requests) + [SetMuted(currentSession.value, muted, callback)]
    {
      if currentSession.None? {
        return Threw;
      }
      requests := requests + [SetMuted(currentSession.value, muted, callback)];
      r := Returned(true);
    }

    /** Lines 476-480. */
    method MediaStop(callback: CallbackId) returns (r: Outcome)
      requires Valid()
      modifies this`requests
      ensures Valid()
      ensures currentSession.None? ==> r == Threw && requests == old(requests)
      ensures currentSession.Some? ==>
        r == Returned(true) && requests == old(requests) + [StopMedia(currentSession.value, callback)]
    {
      if currentSession.None? {
        return Threw;
      }
      requests := requests + [StopMedia(currentSession.value, callback)];
      r := Returned(true);
    }

    /**
     * Lines 487-497: with a session, the session is asked to stop, the
     * current session is dropped at once and the last session id cleared;
     * without one the command simply succeeds.
     */
    method SessionStop(callback: CallbackId) returns (r: Outcome)
      requires Valid()
      modifies this`currentSession, this`lastSessionId, this`storedLastSessionId, this`requests, this`replies
      ensures Valid()
      ensures old(currentSession).Some? ==>
        && requests == old(requests) + [Kill(old(currentSession).value, callback)]
        && currentSession.None? && lastSessionId == "" && replies == old(replies)
      ensures old(currentSession).None? ==>
        && replies == old(replies) + [Success(callback, Empty)]
        && currentSession.None? && lastSessionId == old(lastSessionId) && requests == old(requests)
      ensures r == Returned(true)
    {
      if currentSession.Some? {
        requests := requests + [Kill(currentSession.value, callback)];
        currentSession := None;
        SetLastSessionId("");
      } else {
        replies := replies + [Success(callback, Empty)];
      }
      r := Returned(true);
    }

    /** The generic callback's success, lines 522-524 (also `mediaPause`'s, lines 418-421). */
    method OnGenericSuccess(callback: CallbackId)
      modifies this`replies
      ensures replies == old(replies) + [Success(callback, Empty)]
    {
      replies := replies + [Success(callback, Empty)];
    }

    /**
     * The generic callback's error, lines 527-529, and likewise those of
     * `mediaPause` and `loadMedia`: the reason is passed on as it is, null
     * included.
     */
    method OnGenericError(callback: CallbackId, reason: Option<string>)
      modifies this`replies
      ensures replies == old(replies) + [Error(callback, reason)]
    {
      replies := replies + [Error(callback, reason)];
    }

    /** The load callback's success, lines 379-385: a null media object is the error "unknown". */
    method OnLoadSuccess(callback: CallbackId, media: Option<string>)
      modifies this`replies
      ensures replies == old(replies) + [if media.Some? then Success(callback, MediaObject(media.value))
                                         else Error(callback, Some("unknown"))]
    {
      if media.None? {
        OnGenericError(callback, Some("unknown"));
      } else {
        replies := replies + [Success(callback, MediaObject(media.value))];
      }
    }

    /**
     * Lines 534-545: a join is attempted only with auto-connect on, no
     * current session and a route other than the phone's; the web view
     * hears of every route but the phone's; an availability check is posted.
     */
    method OnRouteAdded(route: Route)
      requires Valid()
      modifies this`nextSession, this`requests, this`notes, this`uiQueue
      ensures Valid()
      ensures ShouldJoin(autoConnect, currentSession, route) ==>
        && nextSession == old(nextSession) + 1
        && requests == old(requests) + [Join(old(nextSession), route, appId, lastSessionId)]
      ensures !ShouldJoin(autoConnect, currentSession, route) ==>
        nextSession == old(nextSession) && requests == old(requests)
      ensures notes == old(notes) + (if IsUserRoute(route) then [RouteAdded(route)] else [])
      ensures uiQueue == old(uiQueue) + [CheckAvailable]
    {
      if autoConnect && currentSession.None? && route.name != PhoneRouteName {
        JoinSession(route);
      }
      if route.name != PhoneRouteName {
        notes := notes + [RouteAdded(route)];
      }
      uiQueue := uiQueue + [CheckAvailable];
    }

    /** Lines 547-552. */
    method OnRouteRemoved(route: Route)
      modifies this`notes, this`uiQueue
      ensures uiQueue == old(uiQueue) + [CheckAvailable]
      ensures notes == old(notes) + (if IsUserRoute(route) then [RouteRemoved(route)] else [])
    {
      uiQueue := uiQueue + [CheckAvailable];
      if route.name != PhoneRouteName {
        notes := notes + [RouteRemoved(route)];
      }
    }

    /** Lines 554-556: a route picked outside the plugin creates a session with no callback. */
    method OnRouteSelected(route: Route)
      requires Valid()
      modifies this`currentSession, this`nextSession, this`requests
      ensures Valid()
      ensures currentSession == Some(old(nextSession)) && nextSession == old(nextSession) + 1
      ensures requests == old(requests) + [Launch(old(nextSession), route, appId, None)]
    {
      CreateSession(route, None);
    }

    /** Lines 576-578. */
    method OnMediaUpdated(media: string)
      modifies this`notes
      ensures notes == old(notes) + [MediaUpdated(media)]
    {
      notes := notes + [MediaUpdated(media)];
    }

    /** Lines 581-589: a session reported dead stops being the current session. */
    method OnSessionUpdated(isAlive: bool, session: string)
      requires Valid()
      modifies this`notes, this`currentSession
      ensures Valid()
      ensures notes == old(notes) + [SessionUpdated(isAlive, session)]
      ensures currentSession == if isAlive then old(currentSession) else None
    {
      notes := notes + [SessionUpdated(isAlive, session)];
      if !isAlive {
        currentSession := None;
      }
    }

    /** Lines 592-594. */
    method OnMediaLoaded(media: string)
      modifies this`notes
      ensures notes == old(notes) + [MediaLoaded(media)]
    {
      notes := notes + [MediaLoaded(media)];
    }

    /** The configuration, the app ids and the session counter are as they were. */
    twostate predicate SettingsKept()
      reads this
    {
      && appId == old(appId) && autoConnect == old(autoConnect)
      && lastAppId == old(lastAppId) && storedLastAppId == old(storedLastAppId)
      && nextSession == old(nextSession)
    }

    /** The current session and both copies of the last session id are as they were. */
    twostate predicate SessionKept()
      reads this
    {
      currentSession == old(currentSession) && lastSessionId == old(lastSessionId)
      && storedLastSessionId == old(storedLastSessionId)
    }

    /** The only change is that the replies `rs` were sent. */
    twostate predicate OnlyReplied(rs: seq<Reply>)
      reads this
    {
      && SettingsKept() && SessionKept()
      && uiQueue == old(uiQueue) && requests == old(requests) && notes == old(notes)
      && replies == old(replies) + rs
    }

    /** The only change is that the request `rq` was sent to a cast session. */
    twostate predicate OnlyRequested(rq: Request)
      reads this
    {
      && SettingsKept() && SessionKept()
      && uiQueue == old(uiQueue) && replies == old(replies) && notes == old(notes)
      && requests == old(requests) + [rq]
    }

    /**
     * The plugin method `target` ran on the JSON arguments `args`, unwrapped
     * as its declared parameters say, with the callback context `callback`
     * in the last parameter: each case is the effect that method's contract
     * states, and the arguments have the shape its parameters demand. A
     * media command without a session throws before it changes anything.
     * It is `false` for the five methods `execute` never runs.
     */
    twostate predicate Ran(target: Target, args: seq<Arg>, callback: CallbackId, loadAccepted: bool)
      reads this
    {
      match target
      case Setup =>
        args == [] && OnlyReplied([Success(callback, Empty)])
      case Initialize =>
        && |args| == 3 && args[0].JString? && args[1].JString? && args[2].JString?
        && appId == Some(args[0].s)
        && (autoConnect <==> old(autoConnect) || (args[1].s == OriginScoped && args[0].s == old(lastAppId)))
        && storedLastAppId == (if args[1].s == OriginScoped && args[0].s != old(lastAppId) then args[0].s
                               else old(storedLastAppId))
        && uiQueue == old(uiQueue) + [RegisterRouter(callback)]
        && lastAppId == old(lastAppId) && nextSession == old(nextSession) && SessionKept()
        && requests == old(requests) && replies == old(replies) && notes == old(notes)
      case RequestSession =>
        && args == []
        && if old(currentSession).Some? then OnlyReplied([Success(callback, SessionObject(old(currentSession).value))])
           else
             && lastSessionId == "" && storedLastSessionId == "" && currentSession == old(currentSession)
             && uiQueue == old(uiQueue) + [ShowChooser(callback)]
             && SettingsKept() && requests == old(requests) && replies == old(replies) && notes == old(notes)
      case SelectRoute =>
        && |args| == 1 && args[0].JString?
        && if old(currentSession).Some? then OnlyReplied([Success(callback, SessionObject(old(currentSession).value))])
           else
             && lastSessionId == "" && storedLastSessionId == "" && currentSession == old(currentSession)
             && uiQueue == old(uiQueue) + [FindRoute(args[0].s, callback)]
             && SettingsKept() && requests == old(requests) && replies == old(replies) && notes == old(notes)
      case StopSession =>
        args == [] && OnlyReplied([Error(callback, Some("not_implemented"))])
      case SendMessage =>
        && |args| == 2 && args[0].JString? && args[1].JString?
        && OnlyReplied([Error(callback, Some("not_implemented"))])
      case LoadMedia =>
        && |args| == 6 && args[0].JString? && args[1].JString? && args[2].JInteger?
        && args[3].JString? && args[4].JBoolean? && args[5].JInteger?
        && if old(currentSession).Some? then
             OnlyRequested(Load(old(currentSession).value,
               LoadRequest(args[0].s, args[1].s, args[2].i, args[3].s, args[4].b, args[5].i), callback))
           else OnlyReplied([Error(callback, Some("session_error"))])
      case MediaPlay =>
        && args == []
        && if old(currentSession).Some? then OnlyRequested(Play(old(currentSession).value, callback)) else OnlyReplied([])
      case MediaPause =>
        && args == []
        && if old(currentSession).Some? then OnlyRequested(Pause(old(currentSession).value, callback)) else OnlyReplied([])
      case MediaSeek =>
        && |args| == 2 && args[0].JInteger? && args[1].JString?
        && if old(currentSession).Some? then
             OnlyRequested(Seek(old(currentSession).value, SeekMillis(args[0].i), args[1].s, callback))
           else OnlyReplied([])
      case SetMediaVolume =>
        && |args| == 1 && args[0].JDouble?
        && if old(currentSession).Some? then OnlyRequested(SetVolume(old(currentSession).value, args[0].d, callback))
           else OnlyReplied([])
      case SetMediaMuted =>
        && |args| == 1 && args[0].JBoolean?
        && if old(currentSession).Some? then OnlyRequested(SetMuted(old(currentSession).value, args[0].b, callback))
           else OnlyReplied([])
      case MediaStop =>
        && args == []
        && if old(currentSession).Some? then OnlyRequested(StopMedia(old(currentSession).value, callback)) else OnlyReplied([])
      case SessionStop =>
        && args == []
        && if old(currentSession).Some? then
             && currentSession.None? && lastSessionId == "" && storedLastSessionId == ""
             && requests == old(requests) + [Kill(old(currentSession).value, callback)]
             && SettingsKept() && uiQueue == old(uiQueue) && replies == old(replies) && notes == old(notes)
           else OnlyReplied([Success(callback, Empty)])
      // The receiver stubs and `onSessionUpdated` declare a primitive first
      // parameter no JSON value fits, and the listeners' last parameter is not
      // a callback context, so `execute` never runs these five.
      case SetReceiverVolumeLevel | SetReceiverMuted | OnMediaUpdated | OnSessionUpdated | OnMediaLoaded => false
    }

    /**
     * `Method.invoke` on an accepted method (lines 93-97): the JSON
     * arguments are unwrapped as the declared parameter types say and the
     * plugin method runs. The receiver stubs and the listener methods never
     * get here: no JSON value has a primitive class, and the listeners do
     * not take a callback context.
     */
    method Invoke(target: Target, args: seq<Arg>, callback: CallbackId, loadAccepted: bool) returns (outcome: Outcome)
      requires Valid()
      requires ArgsFit(Signature(target).params, args)
      requires Signature(target).params[|args|] == CallbackContextClass
      modifies this
      ensures Valid()
      ensures outcome == InvokeOutcome(target, old(currentSession).Some?, loadAccepted)
      ensures Ran(target, args, callback, loadAccepted)
    {
      PrimitiveMethodsRejectArguments(target, args);
      if IsSessionCommand(target) || target.LoadMedia? {
        outcome := InvokeMediaCommand(target, args, callback, loadAccepted);
      } else {
        outcome := InvokeControlCommand(target, args, callback);
      }
    }

    /** `Invoke` for `loadMedia` and the media commands, whose effect depends on the current session. */
    method InvokeMediaCommand(target: Target, args: seq<Arg>, callback: CallbackId, loadAccepted: bool) returns (outcome: Outcome)
      requires Valid()
      requires IsSessionCommand(target) || target.LoadMedia?
      requires ArgsFit(Signature(target).params, args)
      modifies this
      ensures Valid()
      ensures outcome == InvokeOutcome(target, old(currentSession).Some?, loadAccepted)
      ensures Ran(target, args, callback, loadAccepted)
    {
      match target
      case LoadMedia =>
        outcome := LoadMedia(args[0].s, args[1].s, args[2].i, args[3].s, args[4].b, args[5].i, callback, loadAccepted);
      case MediaPlay => outcome := MediaPlay(callback);
      case MediaPause => outcome := MediaPause(callback);
      case MediaSeek => outcome := MediaSeek(args[0].i, args[1].s, callback);
      case SetMediaVolume => outcome := SetMediaVolume(args[0].d, callback);
      case SetMediaMuted => outcome := SetMediaMuted(args[0].b, callback);
      case MediaStop => outcome := MediaStop(callback);
    }

    /** `Invoke` for the commands that answer `true` whatever the session. */
    method InvokeControlCommand(target: Target, args: seq<Arg>, callback: CallbackId) returns (outcome: Outcome)
      requires Valid()
      requires IsControlCommand(target)
      requires ArgsFit(Signature(target).params, args)
      modifies this
      ensures Valid()
      ensures outcome == Returned(true)
      ensures Ran(target, args, callback, false)
    {
      match target
      case Setup => outcome := Setup(callback);
      case Initialize => outcome := Initialize(args[0].s, args[1].s, args[2].s, callback);
      case RequestSession => outcome := RequestSession(callback);
      case SelectRoute => outcome := SelectRoute(args[0].s, callback);
      case StopSession => outcome := StopSession(callback);
      case SendMessage => outcome := SendMessage(args[0].s, args[1].s, callback);
      case SessionStop => outcome := SessionStop(callback);
    }

    /**
     * `execute`, lines 60-112: resolve the action against the plugin's
     * method table, bind the arguments and the callback context, invoke.
     * No match, an argument `invoke` rejects, and an exception thrown by the
     * method all give `false` without any effect. `loadAccepted` is what a
     * cast session's `loadMedia` answers, should `loadMedia` be invoked.
     */
    method Execute(action: string, args: seq<Arg>, callback: CallbackId, loadAccepted: bool) returns (handled: bool)
      requires Valid()
      modifies this
      ensures Valid()
      ensures FirstMatch(PluginMethods, action, args).None? ==> !handled && unchanged(this)
      ensures FirstMatch(PluginMethods, action, args).Some? ==>
        var t := PluginMethods[FirstMatch(PluginMethods, action, args).value].target;
        && PluginMethods[FirstMatch(PluginMethods, action, args).value] == Signature(t)
        && (Signature(t).params[|args|] != CallbackContextClass ==> !handled && unchanged(this))
        && (Signature(t).params[|args|] == CallbackContextClass ==>
              && handled == ExecuteResult(Signature(t).returnsBool, InvokeOutcome(t, old(currentSession).Some?, loadAccepted))
              && Ran(t, args, callback, loadAccepted))
    {
      var found := Resolve(PluginMethods, action, args);
      if found.Some? {
        PluginMethodsAreSignatures(found.value);
        handled := CallEntry(PluginMethods[found.value].target, args, callback, loadAccepted);
      } else {
        handled := false;
      }
    }

    /**
     * The second half of `execute`, lines 85-97: the method `target` matched,
     * so the argument array is built with the callback context in its last
     * slot and the method is invoked on it.
     */
    method CallEntry(target: Target, args: seq<Arg>, callback: CallbackId, loadAccepted: bool) returns (handled: bool)
      requires Valid()
      requires ArgsFit(Signature(target).params, args)
      modifies this
      ensures Valid()
      ensures Signature(target).params[|args|] != CallbackContextClass ==> !handled && unchanged(this)
      ensures Signature(target).params[|args|] == CallbackContextClass ==>
        && handled == ExecuteResult(Signature(target).returnsBool,
                                    InvokeOutcome(target, old(currentSession).Some?, loadAccepted))
        && Ran(target, args, callback, loadAccepted)
    {
      var m := Signature(target);
      var variableArgs := BindArguments(m.params, args, callback);
      assert variableArgs[..] == seq(|args|, i requires 0 <= i < |args| => ArgValue(args[i])) + [CallbackValue(callback)];
      BoundArgumentsAccepted(m.params, args, callback);
      if !Accepts(m.params, variableArgs[..]) {
        return false;   // IllegalArgumentException
      }
      var outcome := Invoke(target, args, callback, loadAccepted);
      handled := ExecuteResult(m.returnsBool, outcome);
    }
  }
}
