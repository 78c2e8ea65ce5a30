/**
 * Client runs of the plugin that follow a host and a media router through
 * typical event orders. Each result is derived from the operations'
 * contracts alone.
 */
module Scenarios {
  import opened Wrappers
  import opened Dispatch
  import opened CastPlugin

  /**
   * The host's start-up order: the plugin is created, `initialize` is called
   * with callback 1 under origin_scoped, and its UI task registers the
   * router callbacks and answers. Router events can only arrive after this.
   */
  method Started(prefs: Prefs, appId: string) returns (plugin: Chromecast)
    ensures fresh(plugin) && plugin.Valid()
    ensures plugin.appId == Some(appId) && plugin.currentSession.None? && plugin.nextSession == 0
    ensures plugin.autoConnect <==> appId == prefs.lastAppId.GetOr("")
    ensures plugin.lastSessionId == prefs.lastSessionId.GetOr("")
    ensures plugin.uiQueue == [] && plugin.requests == [] && plugin.notes == []
    ensures plugin.replies == [Success(1, Empty)]
  {
    plugin := new Chromecast(prefs);
    var _ := plugin.Initialize(appId, OriginScoped, "create_session", 1);
    plugin.RunUiTask([]);
  }

  /**
   * A route is discovered, the host selects it by id and the launch
   * succeeds: the host's callback receives the new session and its id is
   * remembered in memory and in the store.
   */
  method SelectThenLaunch() returns (reply: Reply, lastId: string, stored: string)
    ensures reply == Success(7, SessionObject(0))
    ensures lastId == "s1" && stored == "s1"
  {
    var plugin := Started(Prefs(None, None), "app");
    var livingRoom := Route("r1", "Living Room");
    plugin.OnRouteAdded(livingRoom);
    plugin.RunUiTask([livingRoom]);
    var _ := plugin.SelectRoute("r1", 7);
    plugin.RunUiTask([livingRoom]);
    plugin.OnLaunchSuccess(Some(7), Some(SessionHandle(0, "s1")));
    reply := plugin.replies[|plugin.replies| - 1];
    lastId, stored := plugin.lastSessionId, plugin.storedLastSessionId;
  }

  /**
   * A second launch supersedes the first before it completes: the first
   * launch's success is dropped without any answer, the second one's is
   * adopted and, having no callback, announced as "session joined".
   */
  method SupersededLaunchIsDropped() returns (repliesAfterStale: seq<Reply>, idAfterStale: string,
                                              notes: seq<Note>, lastId: string)
    ensures repliesAfterStale == [Success(1, Empty)] && idAfterStale == ""
    ensures notes == [SessionJoined(1)] && lastId == "s1"
  {
    var plugin := Started(Prefs(Some("old"), None), "app");
    var livingRoom, kitchen := Route("r1", "Living Room"), Route("r2", "Kitchen");
    var _ := plugin.SelectRoute("r1", 7);
    plugin.RunUiTask([livingRoom, kitchen]);
    plugin.OnRouteSelected(kitchen);
    plugin.OnLaunchSuccess(Some(7), Some(SessionHandle(0, "s0")));
    repliesAfterStale, idAfterStale := plugin.replies, plugin.lastSessionId;
    plugin.OnLaunchSuccess(None, Some(SessionHandle(1, "s1")));
    notes, lastId := plugin.notes, plugin.lastSessionId;
  }

  /**
   * A launch that fails leaves its session current, so the next selection
   * succeeds at once with that session instead of reporting it busy or
   * starting again.
   */
  method FailedLaunchStaysCurrent() returns (replies: seq<Reply>, current: Option<SessionToken>)
    ensures replies == [Success(1, Empty), Error(7, Some("timeout")), Success(8, SessionObject(0))]
    ensures current == Some(0)
  {
    var plugin := Started(Prefs(None, None), "app");
    var livingRoom := Route("r1", "Living Room");
    var _ := plugin.SelectRoute("r1", 7);
    plugin.RunUiTask([livingRoom]);
    plugin.OnLaunchError(Some(7), Some("timeout"));
    var _ := plugin.SelectRoute("r1", 8);
    replies, current := plugin.replies, plugin.currentSession;
  }

  /**
   * Under origin_scoped with the remembered app id, every new route other
   * than the phone's starts a join with the remembered session id while no
   * session is current; the first join to succeed is adopted and a later
   * one is ignored.
   */
  method AutoJoin() returns (requests: seq<Request>, current: Option<SessionToken>, notes: seq<Note>)
    ensures requests == [Join(0, Route("r1", "Living Room"), Some("app"), "s9"),
                         Join(1, Route("r2", "Kitchen"), Some("app"), "s9")]
    ensures current == Some(1)
    ensures notes == [RouteAdded(Route("r1", "Living Room")), RouteAdded(Route("r2", "Kitchen")), SessionJoined(1)]
  {
    var plugin := Started(Prefs(Some("s9"), Some("app")), "app");
    plugin.OnRouteAdded(Route("phone", "Phone"));
    plugin.OnRouteAdded(Route("r1", "Living Room"));
    plugin.OnRouteAdded(Route("r2", "Kitchen"));
    plugin.OnJoinSuccess(Some(SessionHandle(1, "s9")));
    plugin.OnJoinSuccess(Some(SessionHandle(0, "s9")));
    requests, current, notes := plugin.requests, plugin.currentSession, plugin.notes;
  }

  /**
   * Any other policy neither enables auto-connect nor touches the stored
   * app id; origin_scoped with a new app id stores it but keeps the
   * in-memory one, so a second initialize with that id in the same run
   * still does not auto-connect.
   */
  method InitializePolicies() returns (pageScoped: (bool, string), newApp: (bool, string, string), again: bool)
    ensures pageScoped == (false, "app")
    ensures newApp == (false, "new", "app")
    ensures !again
  {
    var plugin := new Chromecast(Prefs(None, Some("app")));
    var _ := plugin.Initialize("app", "page_scoped", "create_session", 1);
    pageScoped := (plugin.autoConnect, plugin.storedLastAppId);
    var _ := plugin.Initialize("new", "origin_scoped", "create_session", 2);
    newApp := (plugin.autoConnect, plugin.storedLastAppId, plugin.lastAppId);
    var _ := plugin.Initialize("new", "origin_scoped", "create_session", 3);
    again := plugin.autoConnect;
  }

  /**
   * Without a session only `loadMedia` answers; with one, a seek of 30
   * seconds reaches the session as 30000 milliseconds, and stopping the
   * session clears it and the remembered id.
   */
  method MediaCommands() returns (load: Outcome, play: Outcome, seek: Request, stopped: (Option<SessionToken>, string))
    ensures load == Returned(false) && play == Threw
    ensures seek == Seek(0, 30000, "PLAYBACK_START", 4)
    ensures stopped == (None, "")
  {
    var plugin := Started(Prefs(None, None), "app");
    load := plugin.LoadMedia("http://example.com/a.mp4", "video/mp4", 0, "buffered", true, 0, 2, true);
    play := plugin.MediaPlay(3);
    plugin.OnRouteSelected(Route("r1", "Living Room"));
    plugin.OnLaunchSuccess(None, Some(SessionHandle(0, "s1")));
    var _ := plugin.MediaSeek(30, "PLAYBACK_START", 4);
    seek := plugin.requests[|plugin.requests| - 1];
    var _ := plugin.SessionStop(5);
    stopped := (plugin.currentSession, plugin.storedLastSessionId);
  }

  /**
   * The receiver volume stub takes a primitive `double`, so `execute` never
   * selects it: the command gives `false` and nothing is answered.
   */
  method VolumeStubUnroutable() returns (handled: bool, replies: seq<Reply>)
    ensures !handled && replies == []
  {
    var plugin := new Chromecast(Prefs(None, None));
    PrimitiveMethodsNeverSelected(SetReceiverVolumeLevel, [JDouble(0.5)]);
    handled := plugin.Execute("setReceiverVolumeLevel", [JDouble(0.5)], 1, true);
    replies := plugin.replies;
  }

  /**
   * A listener called with no arguments would take the callback as its
   * JSON object, which it cannot: `false`, and nothing is answered.
   */
  method ListenerUnroutable() returns (handled: bool, replies: seq<Reply>)
    ensures !handled && replies == []
  {
    var plugin := new Chromecast(Prefs(None, None));
    ListenersRejectTheCallback(OnMediaUpdated, []);
    handled := plugin.Execute("onMediaUpdated", [], 2, true);
    replies := plugin.replies;
  }

  /** An action no method is named after gives `false`. */
  method UnknownActionUnroutable() returns (handled: bool, replies: seq<Reply>)
    ensures !handled && replies == []
  {
    var plugin := new Chromecast(Prefs(None, None));
    OnlyNamedActionsResolve("launch", []);
    handled := plugin.Execute("launch", [], 3, true);
    replies := plugin.replies;
  }

  /**
   * `mediaPlay` without a session resolves and is invoked, but calling the
   * absent session throws, so `execute` gives `false` and nothing is sent;
   * once a router selection has made a session current, the same command
   * is handled and the play request goes to that session with the
   * command's callback.
   */
  method PlayNeedsSession() returns (before: bool, after: bool, requests: seq<Request>, replies: seq<Reply>)
    ensures !before && after
    ensures requests == [Launch(0, Route("r1", "Living Room"), Some("app"), None), Play(0, 3)]
    ensures replies == [Success(1, Empty)]
  {
    var plugin := Started(Prefs(None, None), "app");
    MediaPlayResolves();
    var m := PluginMethods[FirstMatch(PluginMethods, "mediaPlay", []).value];
    assert m.params == [CallbackContextClass] && m.returnsBool && m.target == MediaPlay;
    before := plugin.Execute("mediaPlay", [], 2, true);
    plugin.OnRouteSelected(Route("r1", "Living Room"));
    after := plugin.Execute("mediaPlay", [], 3, true);
    requests, replies := plugin.requests, plugin.replies;
  }

  /** `mediaPlay` with no JSON arguments resolves to the `mediaPlay` method. */
  lemma MediaPlayResolves()
    ensures FirstMatch(PluginMethods, "mediaPlay", []).Some?
    ensures PluginMethods[FirstMatch(PluginMethods, "mediaPlay", []).value] == Signature(MediaPlay)
  {
    FittingArgumentsSelect(MediaPlay, []);
  }
}
