/** WebAppMgrProxy.cpp: the client side of the web application manager service.
    A `connected` flag, maintained from the service-status subscription, guards
    every outbound call; launchApp runs an ordered check chain; app events and
    the running-app list are turned into start and finish notifications.
    Luna-service calls, Qt signals and notifications to the process manager are
    effect-log entries; JSON payloads are given already parsed. */
module WebAppMgr {
  import opened Common
  import opened Catalog

  const SERVICE_NAME: string := "org.webosports.webappmanager"
  const RETRY_CONNECT_MS: nat := 2000
  const SWMANAGER_ID: string := "com.palm.app.swmanager"
  const LAUNCHER_ID: string := "com.palm.launcher"

  /** A parsed json-c value. A key mapped to JSON null reads back as a NULL
      object, exactly like a missing key. */
  datatype JsonValue = JNull | JBool(b: bool) | JInt(i: int) | JDouble(d: real) | JString(s: string) | JComposite
  type JsonObject = map<string, JsonValue>

  /** json_object_object_get returned a non-NULL object. */
  predicate Present(obj: JsonObject, key: string) {
    key in obj && obj[key] != JNull
  }

  /** json_object_get_boolean: booleans as they are, integers and doubles
      non-zero, strings non-empty, objects and arrays false. */
  function JsonBoolean(v: JsonValue): (r: bool)
    ensures v.JBool? ==> r == v.b
    ensures v.JInt? ==> (r <==> v.i != 0)
    ensures v.JDouble? ==> (r <==> v.d != 0.0)
    ensures v.JString? ==> (r <==> v.s != "")
    ensures v.JNull? || v.JComposite? ==> !r
  {
    match v
    case JBool(b) => b
    case JInt(i) => i != 0
    case JDouble(d) => d != 0.0
    case JString(s) => s != ""
    case _ => false
  }

  /** The 32-bit int that json_object_new_int receives when a qint64 is passed. */
  function Int32Wrap(x: int): (r: int)
    ensures InInt32(r)
    ensures InInt32(x) ==> r == x
    ensures (x - r) % 0x1_0000_0000 == 0
  {
    var m := x % 0x1_0000_0000;
    if m > INT32_MAX then m - 0x1_0000_0000 else m
  }

  /** `%llu` applied to a qint64: the two's-complement value read as unsigned. */
  function Unsigned64(x: int): (r: nat)
    requires -0x8000_0000_0000_0000 <= x < 0x8000_0000_0000_0000
    ensures r < 0x1_0000_0000_0000_0000
    ensures x >= 0 ==> r == x
    ensures x < 0 ==> r == x + 0x1_0000_0000_0000_0000
  {
    if x >= 0 then x else x + 0x1_0000_0000_0000_0000
  }

  /** The killApp payload, built with g_strdup_printf("{\"processId\":%llu}"). */
  function KillPayload(processId: int): (p: string)
    requires -0x8000_0000_0000_0000 <= processId < 0x8000_0000_0000_0000
  {
    "{\"processId\":" + NatToDecimal(Unsigned64(processId)) + "}"
  }

  /** The killApp payload names the process: its digits read back as the pid
      (as the unsigned 64-bit value for a negative one). */
  lemma KillPayloadNamesProcess(processId: int)
    requires -0x8000_0000_0000_0000 <= processId < 0x8000_0000_0000_0000
    ensures var p := KillPayload(processId);
      var digits := p[13..|p| - 1];
      && p[..13] == "{\"processId\":" && p[|p| - 1] == '}'
      && IsDigits(digits)
      && (processId >= 0 ==> DecimalToNat(digits) == processId)
      && (processId < 0 ==> DecimalToNat(digits) == processId + 0x1_0000_0000_0000_0000)
  {
    var n := Unsigned64(processId);
    DecimalRoundTrip(n);
    var p := KillPayload(processId);
    assert p[13..|p| - 1] == NatToDecimal(n);
  }

  /** The windowType string of launchUrl; every other type is a card. */
  function WindowTypeName(winType: WindowType): (r: string)
    ensures winType == Launcher <==> r == "launcher"
    ensures winType == Dashboard <==> r == "dashboard"
    ensures winType == PopupAlert <==> r == "popupAlert"
    ensures winType == BannerAlert <==> r == "bannerAlert"
    ensures winType == StatusBar <==> r == "statusBar"
    ensures r == "card" <==> winType !in {Launcher, Dashboard, PopupAlert, BannerAlert, StatusBar}
  {
    match winType
    case Launcher => "launcher"
    case Dashboard => "dashboard"
    case PopupAlert => "popupAlert"
    case BannerAlert => "bannerAlert"
    case StatusBar => "statusBar"
    case _ => "card"
  }

  /** How the web application manager reads the name back; "card" stands for
      every type the switch does not name. */
  function WindowTypeFromName(name: string): Option<WindowType> {
    if name == "launcher" then Some(Launcher)
    else if name == "dashboard" then Some(Dashboard)
    else if name == "popupAlert" then Some(PopupAlert)
    else if name == "bannerAlert" then Some(BannerAlert)
    else if name == "statusBar" then Some(StatusBar)
    else if name == "card" then Some(Card)
    else None
  }

  /** The name loses exactly the distinctions the switch does not make: the five
      named types and Card come back, every other type comes back as a card. */
  lemma WindowTypeNameRoundTrip(winType: WindowType)
    ensures winType in {Card, Launcher, Dashboard, PopupAlert, BannerAlert, StatusBar} ==>
      WindowTypeFromName(WindowTypeName(winType)) == Some(winType)
    ensures winType !in {Card, Launcher, Dashboard, PopupAlert, BannerAlert, StatusBar} ==>
      WindowTypeFromName(WindowTypeName(winType)) == Some(Card)
  {
  }

  /** What the guard at the top of launchUrl does. */
  datatype GuardOutcome = Proceed | Refuse | NullDereference

  /** The guard as written: the warning it prints while disconnected reads
      appDesc->id() although appDesc defaults to 0 and is tested for NULL further on. */
  function LaunchUrlGuardAsWritten(connected: bool, appDesc: Option<AppDescription>): (g: GuardOutcome)
    ensures g == Proceed <==> connected
    ensures g == NullDereference <==> !connected && appDesc.None?
  {
    if connected then Proceed
    else if appDesc.None? then NullDereference
    else Refuse
  }

  /** The guard with the warning not reading the descriptor. */
  function LaunchUrlGuard(connected: bool): (g: GuardOutcome)
    ensures g != NullDereference
    ensures g == Proceed <==> connected
    ensures forall d: Option<AppDescription> :: d.Some? ==> g == LaunchUrlGuardAsWritten(connected, d)
  {
    if connected then Proceed else Refuse
  }

  /** launchUrl(url) with the default descriptor while disconnected dereferences NULL. */
  lemma LaunchUrlWithoutDescriptorWhileDisconnected()
    ensures LaunchUrlGuardAsWritten(false, None) == NullDereference
    ensures LaunchUrlGuard(false) == Refuse
  {
  }

  /** The launchUrl request fields. */
  datatype LaunchUrlRequest = LaunchUrlRequest(
    url: string, windowType: string, appDesc: Option<AppDescription>,
    params: string, processId: int, launchingAppId: string, launchingProcId: string)

  datatype Effect =
    | ScheduleRetry(delayMs: nat)                      // register failed: retry later
    | SubscribeServiceStatus(serviceName: string)      // registerServerStatus
    | ConnectionStatusChanged(nowConnected: bool)      // the Qt signal; listeners read connected()
    | ListRunningApps
    | RegisterForAppEvents
    | RemoveAllWebApplications
    | NotifyStarted(appId: string, processId: int)
    | NotifyFinished(processId: int)
    | KillAppCall(payload: string)
    | LaunchUrlCall(request: LaunchUrlRequest)
    | LaunchAppCall(desc: AppDescription, params: string, processId: int,
                    launchingAppId: string, launchingProcId: string)
    | StartSysmgrBuiltIn(builtinId: string, params: string)
    | RelaunchCall(appId: string, params: string)
    | ClearAllCaches
    | ClearProcessCaches(processId: int)
    | ClearAppCaches(appId: string)

  /** The connection state the last ConnectionStatusChanged announced (false before any). */
  function LastAnnounced(log: seq<Effect>): bool
    decreases |log|
  {
    if log == [] then false
    else if log[|log| - 1].ConnectionStatusChanged? then log[|log| - 1].nowConnected
    else LastAnnounced(log[..|log| - 1])
  }

  predicate Announces(log: seq<Effect>) {
    exists i :: 0 <= i < |log| && log[i].ConnectionStatusChanged?
  }

  /** Entries that announce nothing leave the last announcement as it was; an
      announcing tail decides it. */
  lemma {:induction false} LastAnnouncedAppend(log: seq<Effect>, tail: seq<Effect>)
    ensures !Announces(tail) ==> LastAnnounced(log + tail) == LastAnnounced(log)
    ensures tail != [] && tail[|tail| - 1].ConnectionStatusChanged? ==>
      LastAnnounced(log + tail) == tail[|tail| - 1].nowConnected
    decreases |tail|
  {
    if tail == [] {
      assert log + tail == log;
    } else {
      var all := log + tail;
      assert all[|all| - 1] == tail[|tail| - 1];
      assert all[..|all| - 1] == log + tail[..|tail| - 1];
      if !Announces(tail) {
        assert !tail[|tail| - 1].ConnectionStatusChanged?;
        var front := tail[..|tail| - 1];
        assert !Announces(front) by {
          forall i | 0 <= i < |front| ensures !front[i].ConnectionStatusChanged? {
            assert front[i] == tail[i];
          }
        }
        LastAnnouncedAppend(log, tail[..|tail| - 1]);
      }
    }
  }

  /** handleAppEvent's classification. */
  datatype AppEventAction = AppStarted(appId: string, processId: int) | AppFinished(processId: int) | NoAction

  /** event and appId are strings and processId an int. */
  predicate WellTypedEvent(obj: JsonObject) {
    && Present(obj, "event") && obj["event"].JString?
    && Present(obj, "appId") && obj["appId"].JString?
    && Present(obj, "processId") && obj["processId"].JInt?
  }

  function ClassifyAppEvent(payload: Option<JsonObject>): (a: AppEventAction)
    ensures a != NoAction ==> payload.Some? && WellTypedEvent(payload.value)
    ensures a.AppStarted? <==> payload.Some? && WellTypedEvent(payload.value) && payload.value["event"].s == "start"
    ensures a.AppFinished? <==> payload.Some? && WellTypedEvent(payload.value) && payload.value["event"].s == "close"
    ensures a.AppStarted? ==> a.appId == payload.value["appId"].s && a.processId == payload.value["processId"].i
    ensures a.AppFinished? ==> a.processId == payload.value["processId"].i
  {
    if payload.None? || !WellTypedEvent(payload.value) then NoAction
    else
      var obj := payload.value;
      if obj["event"].s == "start" then AppStarted(obj["appId"].s, obj["processId"].i)
      else if obj["event"].s == "close" then AppFinished(obj["processId"].i)
      else NoAction
  }

  /** A service-status message: Some(connected) when it carries a "connected" value. */
  function StatusChange(payload: Option<JsonObject>): (r: Option<bool>)
    ensures r.Some? <==> payload.Some? && Present(payload.value, "connected")
    ensures r.Some? ==> r.value == JsonBoolean(payload.value["connected"])
  {
    if payload.None? || !Present(payload.value, "connected") then None
    else Some(JsonBoolean(payload.value["connected"]))
  }

  /** One entry of the listRunningApps reply. */
  datatype RunningApp = RunningApp(appId: string, processId: int)

  /** The notifications updateRunningApps sends, one per entry in array order. */
  function StartedLog(apps: seq<RunningApp>): seq<Effect> {
    if apps == [] then []
    else [NotifyStarted(apps[0].appId, apps[0].processId)] + StartedLog(apps[1..])
  }

  lemma {:induction false} StartedLogEntries(apps: seq<RunningApp>)
    ensures |StartedLog(apps)| == |apps|
    ensures forall i :: 0 <= i < |apps| ==>
      StartedLog(apps)[i] == NotifyStarted(apps[i].appId, apps[i].processId)
  {
    if apps != [] {
      StartedLogEntries(apps[1..]);
      forall i | 0 <= i < |apps|
        ensures StartedLog(apps)[i] == NotifyStarted(apps[i].appId, apps[i].processId)
      {
        if i > 0 {
          assert StartedLog(apps)[i] == StartedLog(apps[1..])[i - 1];
          assert apps[i] == apps[1..][i - 1];
        }
      }
    }
  }

  lemma {:induction false} StartedLogSnoc(apps: seq<RunningApp>, a: RunningApp)
    ensures StartedLog(apps + [a]) == StartedLog(apps) + [NotifyStarted(a.appId, a.processId)]
    decreases |apps|
  {
    if apps == [] {
      assert apps + [a] == [a];
    } else {
      assert (apps + [a])[0] == apps[0];
      assert (apps + [a])[1..] == apps[1..] + [a];
      StartedLogSnoc(apps[1..], a);
    }
  }

  lemma StartedLogAnnouncesNothing(apps: seq<RunningApp>)
    ensures !Announces(StartedLog(apps))
  {
    StartedLogEntries(apps);
  }

  /** What launchApp decides, in the order of its checks. */
  datatype LaunchOutcome =
    | NotConnected
    | NotFound(missingId: string)
    | NoAppId
    | Locked(lockedId: string)
    | NoSwManager
    | InsecureWebApp
    | WebLaunch(desc: AppDescription, params: string)
    | BuiltinStart(desc: AppDescription, params: string)
    | UnknownType

  function NotFoundMessage(appId: string): string { "\"" + appId + "\" was not found" }
  function LockedMessage(appId: string): string { "\"" + appId + "\" has been locked" }

  /** The check chain: the connection, the descriptor (pending first), the id,
      the execution lock, the redirect of apps not ready and not in sucApps to
      the software manager with "{}", then the type. */
  function DecideLaunch(connected: bool, appId: string, params: string, launchingAppId: string,
                        catalog: Catalog, sucApps: set<string>): LaunchOutcome
  {
    if !connected then NotConnected
    else
      var found := FindApp(catalog, appId);
      if found.None? then NotFound(appId)
      else if appId == "" then NoAppId
      else if !found.value.canExecute then Locked(appId)
      else
        var redirect := !found.value.ready && found.value.id !in sucApps;
        var target := if redirect then InstalledApp(catalog, SWMANAGER_ID) else found;
        var launchParams := if redirect then "{}" else params;
        if target.None? then NoSwManager
        else if target.value.appType == Web then
          if target.value.securityChecksVerified then WebLaunch(target.value, launchParams) else InsecureWebApp
        else if target.value.appType == SysmgrBuiltin && launchingAppId == LAUNCHER_ID then
          BuiltinStart(target.value, launchParams)
        else UnknownType
  }

  function OutcomeResult(o: LaunchOutcome): (r: string)
    ensures r == "success" <==> o.WebLaunch? || o.BuiltinStart?
    ensures r != "success" ==> r == ""
  {
    if o.WebLaunch? || o.BuiltinStart? then "success" else ""
  }

  function OutcomeError(o: LaunchOutcome): (e: string)
    ensures e != "" <==> o.NotFound? || o.NoAppId? || o.Locked?
    ensures o.NotFound? ==> e == "\"" + o.missingId + "\" was not found"
    ensures o.NoAppId? ==> e == "No appId"
    ensures o.Locked? ==> e == "\"" + o.lockedId + "\" has been locked"
  {
    match o
    case NotFound(id) => NotFoundMessage(id)
    case NoAppId => "No appId"
    case Locked(id) => LockedMessage(id)
    case _ => ""
  }

  function OutcomeEffects(o: LaunchOutcome, processId: int, launchingAppId: string, launchingProcId: string): seq<Effect> {
    match o
    case WebLaunch(d, p) => [LaunchAppCall(d, p, Int32Wrap(processId), launchingAppId, launchingProcId)]
    case BuiltinStart(d, p) => [StartSysmgrBuiltIn(d.id, p)]
    case _ => []
  }

  /** The descriptor launchApp finally acts on. */
  function LaunchTarget(appId: string, catalog: Catalog, sucApps: set<string>): Option<AppDescription>
    requires FindApp(catalog, appId).Some?
  {
    var d := FindApp(catalog, appId).value;
    if !d.ready && d.id !in sucApps then InstalledApp(catalog, SWMANAGER_ID) else Some(d)
  }

  /** launchApp answers "success" exactly when it is connected, the app is known
      by a non-empty id and not locked, and the descriptor it ends up with is a
      verified web app or a builtin asked for by the launcher. */
  lemma LaunchSucceedsExactlyWhenAllowed(connected: bool, appId: string, params: string, launchingAppId: string,
                                         catalog: Catalog, sucApps: set<string>)
    ensures OutcomeResult(DecideLaunch(connected, appId, params, launchingAppId, catalog, sucApps)) == "success"
      <==> (&& connected && FindApp(catalog, appId).Some? && appId != ""
            && FindApp(catalog, appId).value.canExecute
            && LaunchTarget(appId, catalog, sucApps).Some?
            && var t := LaunchTarget(appId, catalog, sucApps).value;
               || (t.appType == Web && t.securityChecksVerified)
               || (t.appType == SysmgrBuiltin && launchingAppId == LAUNCHER_ID))
  {
  }

  /** An error message is given exactly for the first three refusals; in
      particular a disconnected proxy leaves errMsg empty. */
  lemma LaunchErrorExactlyOnRefusal(connected: bool, appId: string, params: string, launchingAppId: string,
                                    catalog: Catalog, sucApps: set<string>, processId: int, launchingProcId: string)
    ensures var o := DecideLaunch(connected, appId, params, launchingAppId, catalog, sucApps);
      OutcomeError(o) != "" <==> (connected && (FindApp(catalog, appId).None? || appId == ""
                                                || !FindApp(catalog, appId).value.canExecute))
    ensures var o := DecideLaunch(connected, appId, params, launchingAppId, catalog, sucApps);
      OutcomeError(o) != "" ==> OutcomeResult(o) == "" && OutcomeEffects(o, processId, launchingAppId, launchingProcId) == []
  {
  }

  /** An app not ready and not in sucApps is never launched itself: what runs
      is the installed software manager, with "{}" as params. */
  lemma NotReadyAppRedirected(appId: string, params: string, launchingAppId: string,
                              catalog: Catalog, sucApps: set<string>)
    requires FindApp(catalog, appId).Some?
    requires !FindApp(catalog, appId).value.ready && FindApp(catalog, appId).value.id !in sucApps
    ensures var o := DecideLaunch(true, appId, params, launchingAppId, catalog, sucApps);
      (o.WebLaunch? || o.BuiltinStart?) ==> o.desc == catalog.installed[SWMANAGER_ID] && o.params == "{}"
    ensures SWMANAGER_ID !in catalog.installed && appId != "" && FindApp(catalog, appId).value.canExecute ==>
      DecideLaunch(true, appId, params, launchingAppId, catalog, sucApps) == NoSwManager
  {
  }

  /** The not-found check comes before the id check, so "No appId" is only
      reported when the catalog has an entry under the empty id. */
  lemma EmptyIdReportedAsNotFound(params: string, launchingAppId: string, catalog: Catalog, sucApps: set<string>)
    ensures DecideLaunch(true, "", params, launchingAppId, catalog, sucApps) == NoAppId
      <==> ("" in catalog.pending || "" in catalog.installed)
    ensures "" !in catalog.pending && "" !in catalog.installed ==>
      OutcomeError(DecideLaunch(true, "", params, launchingAppId, catalog, sucApps)) == "\"\" was not found"
  {
  }

  class WebAppMgrProxy {
    var connected: bool
    var hasService: bool              // mService != 0
    var effects: seq<Effect>

    /** Listeners of connectionStatusChanged always saw the current state. */
    predicate Valid()
      reads this
    {
      connected == LastAnnounced(effects)
    }

    /** The constructor starts disconnected and tries to connect. */
    constructor (registerOk: bool)
      ensures Valid() && !connected
      ensures hasService == registerOk
      ensures effects == if registerOk then [SubscribeServiceStatus(SERVICE_NAME)] else [ScheduleRetry(RETRY_CONNECT_MS)]
    {
      connected := false;
      hasService := false;
      effects := [];
      new;
      ConnectWebAppMgr(registerOk);
    }

    /** connectWebAppMgr: nothing when connected; else register with the bus and
        subscribe to the manager's status, or schedule a retry. */
    method ConnectWebAppMgr(registerOk: bool)
      requires Valid()
      modifies this`hasService, this`effects
      ensures Valid()
      ensures old(connected) ==> effects == old(effects) && hasService == old(hasService)
      ensures !old(connected) && !registerOk ==>
        effects == old(effects) + [ScheduleRetry(RETRY_CONNECT_MS)] && !hasService
      ensures !old(connected) && registerOk ==>
        effects == old(effects) + [SubscribeServiceStatus(SERVICE_NAME)] && hasService
    {
      if connected {
        return;
      }
      if !registerOk {
        Log([ScheduleRetry(RETRY_CONNECT_MS)]);
        hasService := false;
        return;
      }
      hasService := true;
      Log([SubscribeServiceStatus(SERVICE_NAME)]);
    }

    /** retryConnectWebAppMgr: one more attempt; the timer does not repeat. */
    method RetryConnect(registerOk: bool) returns (repeat: bool)
      requires Valid()
      modifies this`hasService, this`effects
      ensures Valid() && !repeat
      ensures old(connected) ==> effects == old(effects) && hasService == old(hasService)
      ensures !old(connected) && !registerOk ==>
        effects == old(effects) + [ScheduleRetry(RETRY_CONNECT_MS)] && !hasService
      ensures !old(connected) && registerOk ==>
        effects == old(effects) + [SubscribeServiceStatus(SERVICE_NAME)] && hasService
    {
      ConnectWebAppMgr(registerOk);
      return false;
    }

    /** Appends entries that announce nothing. */
    method Log(tail: seq<Effect>)
      requires Valid() && !Announces(tail)
      modifies this`effects
      ensures Valid() && effects == old(effects) + tail
    {
      LastAnnouncedAppend(effects, tail);
      effects := effects + tail;
    }

    /** onWebAppManagerConnected. */
    method OnConnected()
      requires Valid()
      modifies this`connected, this`effects
      ensures Valid() && connected
      ensures effects == old(effects) + [ConnectionStatusChanged(true), ListRunningApps, RegisterForAppEvents]
    {
      connected := true;
      LastAnnouncedAppend(effects, [ConnectionStatusChanged(true)]);
      effects := effects + [ConnectionStatusChanged(true)];
      Log([ListRunningApps, RegisterForAppEvents]);
    }

    /** onWebAppManagerDisconnected: every web application is dropped. */
    method OnDisconnected()
      requires Valid()
      modifies this`connected, this`effects
      ensures Valid() && !connected
      ensures effects == old(effects) + [RemoveAllWebApplications, ConnectionStatusChanged(false)]
    {
      connected := false;
      LastAnnouncedAppend(effects, [RemoveAllWebApplications, ConnectionStatusChanged(false)]);
      effects := effects + [RemoveAllWebApplications, ConnectionStatusChanged(false)];
    }

    /** webAppManagerServiceStatusCb: follows "connected" when it is present. */
    method ServiceStatusCb(payload: Option<JsonObject>) returns (keep: bool)
      requires Valid()
      modifies this`connected, this`effects
      ensures Valid() && keep
      ensures StatusChange(payload).None? ==> connected == old(connected) && effects == old(effects)
      ensures StatusChange(payload) == Some(true) ==>
        connected && effects == old(effects) + [ConnectionStatusChanged(true), ListRunningApps, RegisterForAppEvents]
      ensures StatusChange(payload) == Some(false) ==>
        !connected && effects == old(effects) + [RemoveAllWebApplications, ConnectionStatusChanged(false)]
    {
      var change := StatusChange(payload);
      if change.Some? {
        if change.value {
          OnConnected();
        } else {
          OnDisconnected();
        }
      }
      return true;
    }

    /** updateRunningApps: a start notification per entry of the "apps" array. */
    method UpdateRunningApps(apps: Option<seq<RunningApp>>)
      requires Valid()
      modifies this`effects
      ensures Valid()
      ensures apps.None? ==> effects == old(effects)
      ensures apps.Some? ==> effects == old(effects) + StartedLog(apps.value)
    {
      if apps.None? {
        return;
      }
      var list := apps.value;
      var i := 0;
      while i < |list|
        invariant 0 <= i <= |list|
        invariant Valid()
        invariant effects == old(effects) + StartedLog(list[..i])
      {
        StartedLogSnoc(list[..i], list[i]);
        assert list[..i + 1] == list[..i] + [list[i]];
        Log([NotifyStarted(list[i].appId, list[i].processId)]);
        i := i + 1;
      }
      assert list[..i] == list;
    }

    /** handleAppEvent: start and close events become notifications. */
    method HandleAppEvent(payload: Option<JsonObject>)
      requires Valid()
      modifies this`effects
      ensures Valid()
      ensures match ClassifyAppEvent(payload)
        case AppStarted(id, pid) => effects == old(effects) + [NotifyStarted(id, pid)]
        case AppFinished(pid) => effects == old(effects) + [NotifyFinished(pid)]
        case NoAction => effects == old(effects)
    {
      match ClassifyAppEvent(payload)
      case AppStarted(id, pid) =>
        Log([NotifyStarted(id, pid)]);
      case AppFinished(pid) =>
        Log([NotifyFinished(pid)]);
      case NoAction =>
    }

    /** killApp. */
    method KillApp(processId: int)
      requires -0x8000_0000_0000_0000 <= processId < 0x8000_0000_0000_0000
      requires Valid()
      modifies this`effects
      ensures Valid()
      ensures !connected ==> effects == old(effects)
      ensures connected ==> effects == old(effects) + [KillAppCall(KillPayload(processId))]
    {
      if !connected {
        return;
      }
      Log([KillAppCall(KillPayload(processId))]);
    }

    /** launchUrl, with the guard's warning not reading the descriptor. */
    method LaunchUrl(url: string, winType: WindowType, appDesc: Option<AppDescription>, processId: int,
                     params: string, launchingAppId: string, launchingProcId: string)
      requires Valid()
      modifies this`effects
      ensures Valid()
      ensures LaunchUrlGuard(connected) == Refuse ==> effects == old(effects)
      ensures LaunchUrlGuard(connected) == Proceed ==> effects == old(effects) + [LaunchUrlCall(LaunchUrlRequest(
        url, WindowTypeName(winType), appDesc, params, Int32Wrap(processId), launchingAppId, launchingProcId))]
    {
      if LaunchUrlGuard(connected) == Refuse {
        return;
      }
      var windowType := "card";
      match winType {
        case Launcher => windowType := "launcher";
        case Dashboard => windowType := "dashboard";
        case PopupAlert => windowType := "popupAlert";
        case BannerAlert => windowType := "bannerAlert";
        case StatusBar => windowType := "statusBar";
        case _ =>
      }
      Log([LaunchUrlCall(LaunchUrlRequest(url, windowType, appDesc, params, Int32Wrap(processId),
                                          launchingAppId, launchingProcId))]);
    }

    /** launchApp: the check chain run step by step on appIdToLaunch,
        paramsToLaunch and errMsg. */
    method LaunchApp(appId: string, params: string, processId: int, launchingAppId: string,
                     launchingProcId: string, catalog: Catalog, sucApps: set<string>)
      returns (r: string, errMsg: string)
      requires Valid()
      modifies this`effects
      ensures Valid()
      ensures var o := DecideLaunch(connected, appId, params, launchingAppId, catalog, sucApps);
        && r == OutcomeResult(o) && errMsg == OutcomeError(o)
        && effects == old(effects) + OutcomeEffects(o, processId, launchingAppId, launchingProcId)
    {
      var appIdToLaunch := appId;
      var paramsToLaunch := params;
      errMsg := "";
      if !connected {
        return "", errMsg;
      }
      var desc := FindApp(catalog, appIdToLaunch);
      if desc.None? {
        errMsg := NotFoundMessage(appIdToLaunch);
        return "", errMsg;
      }
      if appIdToLaunch == "" {
        errMsg := "No appId";
        return "", errMsg;
      }
      if !desc.value.canExecute {
        errMsg := LockedMessage(appIdToLaunch);
        return "", errMsg;
      }
      if !desc.value.ready && desc.value.id !in sucApps {
        desc := InstalledApp(catalog, SWMANAGER_ID);
        if desc.Some? {
          appIdToLaunch := desc.value.id;
          paramsToLaunch := "{}";
        } else {
          return "", errMsg;
        }
      }
      if desc.value.appType == Web {
        if !desc.value.securityChecksVerified {
          return "", errMsg;
        }
        Log([LaunchAppCall(desc.value, paramsToLaunch, Int32Wrap(processId), launchingAppId, launchingProcId)]);
        return "success", errMsg;
      } else if desc.value.appType == SysmgrBuiltin {
        if launchingAppId == LAUNCHER_ID {
          Log([StartSysmgrBuiltIn(desc.value.id, paramsToLaunch)]);
          return "success", errMsg;
        }
      }
      return "", errMsg;
    }

    /** relaunch. */
    method Relaunch(appId: string, params: string)
      requires Valid()
      modifies this`effects
      ensures Valid()
      ensures !connected ==> effects == old(effects)
      ensures connected ==> effects == old(effects) + [RelaunchCall(appId, params)]
    {
      if !connected {
        return;
      }
      Log([RelaunchCall(appId, params)]);
    }

    /** clearMemoryCaches(). */
    method ClearMemoryCaches()
      requires Valid()
      modifies this`effects
      ensures Valid()
      ensures !connected ==> effects == old(effects)
      ensures connected ==> effects == old(effects) + [ClearAllCaches]
    {
      if !connected {
        return;
      }
      Log([ClearAllCaches]);
    }

    /** clearMemoryCaches(processId). */
    method ClearMemoryCachesForProcess(processId: int)
      requires Valid()
      modifies this`effects
      ensures Valid()
      ensures !connected ==> effects == old(effects)
      ensures connected ==> effects == old(effects) + [ClearProcessCaches(Int32Wrap(processId))]
    {
      if !connected {
        return;
      }
      Log([ClearProcessCaches(Int32Wrap(processId))]);
    }

    /** clearMemoryCaches(appId). */
    method ClearMemoryCachesForApp(appId: string)
      requires Valid()
      modifies this`effects
      ensures Valid()
      ensures !connected ==> effects == old(effects)
      ensures connected ==> effects == old(effects) + [ClearAppCaches(appId)]
    {
      if !connected {
        return;
      }
      Log([ClearAppCaches(appId)]);
    }
  }

  /** A disconnect after a connect leaves the proxy disconnected, with the web
      applications dropped and both changes announced. */
  method ConnectThenDisconnect(registerOk: bool) returns (p: WebAppMgrProxy)
    ensures fresh(p) && p.Valid() && !p.connected
    ensures |p.effects| == 6
    ensures p.effects[1..] == [ConnectionStatusChanged(true), ListRunningApps, RegisterForAppEvents,
                               RemoveAllWebApplications, ConnectionStatusChanged(false)]
  {
    p := new WebAppMgrProxy(registerOk);
    p.OnConnected();
    p.OnDisconnected();
  }
}
