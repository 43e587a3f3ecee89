/** ApplicationProcessManager.cpp: the list of processes started for
    applications, launch with reuse of a running process or dispatch on the
    descriptor's type, the fixed launcher command lines, and removal when a
    process finishes. Whether QProcess reached Running, the pid it got and the
    temporary file's name are inputs; start, kill and the app-info write are
    effect-log entries. */
module AppProcesses {
  import opened Common
  import opened Catalog

  const WEBAPP_LAUNCHER_PATH: string := "/usr/sbin/webapp-launcher"

  /** An ApplicationProcess: a started QProcess tagged with its application id.
      List entries are compared by identity, as the pointers in m_applications are. */
  class ApplicationProcess {
    const id: string
    const pid: int

    constructor (id: string, pid: int)
      ensures this.id == id && this.pid == pid
    {
      this.id := id;
      this.pid := pid;
    }
  }

  datatype Effect =
    | Start(path: string, arguments: seq<string>)     // QProcess::start
    | Kill(killedPid: int)                            // QProcess::kill
    | WriteAppInfo(appId: string, fileName: string)   // desc->toString() into the temporary file

  /** What QProcess reports after start and waitForStarted. */
  datatype StartResult = StartResult(running: bool, osPid: int)

  /** The first entry for `appId`, as the Q_FOREACH loops meet it. */
  function FirstWithId(apps: seq<ApplicationProcess>, appId: string): (r: Option<ApplicationProcess>)
    ensures r.None? <==> forall i :: 0 <= i < |apps| ==> apps[i].id != appId
    ensures r.Some? ==> (exists i :: 0 <= i < |apps| && apps[i] == r.value && r.value.id == appId
                           && forall j :: 0 <= j < i ==> apps[j].id != appId)
  {
    if apps == [] then None
    else if apps[0].id == appId then Some(apps[0])
    else
      var r := FirstWithId(apps[1..], appId);
      assert r.Some? ==> (exists i :: 0 <= i < |apps[1..]| && apps[1..][i] == r.value && r.value.id == appId
                            && forall j :: 0 <= j < i ==> apps[1..][j].id != appId);
      r
  }

  /** The kills killByAppId sends: one per entry with the id, in list order. */
  function KillLog(apps: seq<ApplicationProcess>, appId: string): seq<Effect> {
    if apps == [] then []
    else (if apps[0].id == appId then [Kill(apps[0].pid)] else []) + KillLog(apps[1..], appId)
  }

  function CountWithId(apps: seq<ApplicationProcess>, appId: string): nat {
    if apps == [] then 0 else (if apps[0].id == appId then 1 else 0) + CountWithId(apps[1..], appId)
  }

  /** killByAppId signals exactly the entries with the id: one kill per
      matching entry, and a kill for an entry's pid whenever it matches. */
  lemma {:induction false} KillLogMatches(apps: seq<ApplicationProcess>, appId: string)
    ensures |KillLog(apps, appId)| == CountWithId(apps, appId)
    ensures forall i :: 0 <= i < |apps| && apps[i].id == appId ==> Kill(apps[i].pid) in KillLog(apps, appId)
    ensures forall e :: e in KillLog(apps, appId) ==>
      exists i :: 0 <= i < |apps| && apps[i].id == appId && e == Kill(apps[i].pid)
  {
    if apps != [] {
      KillLogMatches(apps[1..], appId);
      var head := if apps[0].id == appId then [Kill(apps[0].pid)] else [];
      assert KillLog(apps, appId) == head + KillLog(apps[1..], appId);
      forall i | 0 <= i < |apps| && apps[i].id == appId
        ensures Kill(apps[i].pid) in KillLog(apps, appId)
      {
        if i > 0 {
          assert apps[i] == apps[1..][i - 1];
        }
      }
      forall e | e in KillLog(apps, appId)
        ensures exists i :: 0 <= i < |apps| && apps[i].id == appId && e == Kill(apps[i].pid)
      {
        if e !in head {
          var i :| 0 <= i < |apps[1..]| && apps[1..][i].id == appId && e == Kill(apps[1..][i].pid);
          assert apps[i + 1] == apps[1..][i];
        }
      }
    }
  }

  /** QList::removeAll(process). */
  function Without(apps: seq<ApplicationProcess>, p: ApplicationProcess): (r: seq<ApplicationProcess>)
    ensures p !in r && |r| <= |apps|
    ensures forall q :: q in r ==> q in apps
    ensures forall q :: q in apps && q != p ==> multiset(r)[q] == multiset(apps)[q]
  {
    if apps == [] then []
    else
      var rest := Without(apps[1..], p);
      assert apps == [apps[0]] + apps[1..];
      if apps[0] == p then rest else [apps[0]] + rest
  }

  /** Removal works entry by entry, so list order is kept. */
  lemma {:induction false} WithoutConcat(a: seq<ApplicationProcess>, b: seq<ApplicationProcess>, p: ApplicationProcess)
    ensures Without(a + b, p) == Without(a, p) + Without(b, p)
    decreases |a|
  {
    if a == [] {
      assert a + b == b;
    } else {
      assert (a + b)[0] == a[0];
      assert (a + b)[1..] == a[1..] + b;
      WithoutConcat(a[1..], b, p);
    }
  }

  /** Removing a process that was never listed changes nothing. */
  lemma {:induction false} WithoutAbsent(apps: seq<ApplicationProcess>, p: ApplicationProcess)
    requires p !in apps
    ensures Without(apps, p) == apps
  {
    if apps != [] {
      assert apps[1..] == apps[1..];
      WithoutAbsent(apps[1..], p);
      assert apps == [apps[0]] + apps[1..];
    }
  }

  /** The window-type argument of the web-app launcher. */
  function LauncherWindowName(winType: WindowType): (r: string)
    ensures r == "launcher" <==> winType == Launcher
    ensures r == "card" <==> winType != Launcher
  {
    if winType == Launcher then "launcher" else "card"
  }

  /** The webapp-launcher command line: "-u <entry> -w <window> [-p <params>] -a <file>",
      the -p pair present only for non-empty params. */
  function WebAppArgs(entryPoint: string, winType: WindowType, params: string, appInfoFile: string): (args: seq<string>)
    ensures |args| == if params == "" then 6 else 8
    ensures args[0] == "-u" && args[2] == "-w" && args[|args| - 2] == "-a"
    ensures params != "" ==> args[4] == "-p" && args[5] == params
    ensures args[1] == entryPoint && args[3] == LauncherWindowName(winType) && args[|args| - 1] == appInfoFile
  {
    ["-u", entryPoint] + ["-w", LauncherWindowName(winType)]
      + (if |params| > 0 then ["-p", params] else [])
      + ["-a", appInfoFile]
  }

  datatype LauncherArgs = LauncherArgs(entry: string, window: string, params: string, appInfoFile: string)

  /** How webapp-launcher reads the fixed layout back. */
  function ParseLauncherArgs(args: seq<string>): Option<LauncherArgs> {
    if |args| == 6 && args[0] == "-u" && args[2] == "-w" && args[4] == "-a" then
      Some(LauncherArgs(args[1], args[3], "", args[5]))
    else if |args| == 8 && args[0] == "-u" && args[2] == "-w" && args[4] == "-p" && args[6] == "-a" then
      Some(LauncherArgs(args[1], args[3], args[5], args[7]))
    else None
  }

  /** The command line loses nothing: entry point, window name, params and the
      app-info file are all recovered from it. */
  lemma WebAppArgsRoundTrip(entryPoint: string, winType: WindowType, params: string, appInfoFile: string)
    ensures ParseLauncherArgs(WebAppArgs(entryPoint, winType, params, appInfoFile))
      == Some(LauncherArgs(entryPoint, LauncherWindowName(winType), params, appInfoFile))
  {
  }

  /** The argument list of a native launch: the params as its one argument, even
      when empty. */
  function NativeAppArgs(params: string): (args: seq<string>)
    ensures |args| == 1 && args[0] == params
  {
    [params]
  }

  /** Which launcher a descriptor's type selects in launch(). */
  datatype Route = WebRoute | NativeRoute | QmlRoute | NoRoute | NullDescriptor

  /** The switch of launch() as written: the descriptor pointer is dereferenced
      even when neither lookup found one. */
  function RouteAsWritten(desc: Option<AppDescription>): (r: Route)
    ensures r == NullDescriptor <==> desc.None?
  {
    match desc
    case None => NullDescriptor
    case Some(d) =>
      match d.appType
      case Web => WebRoute
      case Native => NativeRoute
      case PDK => NativeRoute
      case Qt => NativeRoute
      case QML => QmlRoute
      case _ => NoRoute
  }

  /** The switch with the missing-descriptor case taken as the default branch
      (pid 0, so launch answers ""). */
  function LaunchRoute(desc: Option<AppDescription>): (r: Route)
    ensures r != NullDescriptor
    ensures desc.None? ==> r == NoRoute
    ensures desc.Some? ==> r == RouteAsWritten(desc)
    ensures r == WebRoute <==> desc.Some? && desc.value.appType == Web
    ensures r == NativeRoute <==> desc.Some? && desc.value.appType in {Native, PDK, Qt}
    ensures r == QmlRoute <==> desc.Some? && desc.value.appType == QML
  {
    if desc.None? then NoRoute else RouteAsWritten(desc)
  }

  /** Launching an id that neither catalog lookup knows and that is not running
      reaches the dereference of a null descriptor. BootStateFirstUse::enter
      launches "org.webosports.app.firstuse" without looking it up first. */
  lemma LaunchOfUnknownAppDereferencesNull(c: Catalog, appId: string)
    requires appId !in c.pending && appId !in c.installed
    ensures RouteAsWritten(FindApp(c, appId)) == NullDescriptor
    ensures LaunchRoute(FindApp(c, appId)) == NoRoute
  {
  }

  /** launch's answer: "" for a pid that is not positive, else its decimal form. */
  function PidString(pid: int): (s: string)
    ensures s == "" <==> pid <= 0
    ensures pid > 0 ==> IsDigits(s) && s[0] != '0' && DecimalToNat(s) == pid
  {
    if pid <= 0 then ""
    else
      DecimalRoundTrip(pid);
      NatToDecimal(pid)
  }

  class ApplicationProcessManager {
    var applications: seq<ApplicationProcess>
    var effects: seq<Effect>

    constructor ()
      ensures applications == [] && effects == []
    {
      applications := [];
      effects := [];
    }

    /** isRunning. */
    method IsRunning(appId: string) returns (r: bool)
      ensures r <==> exists i :: 0 <= i < |applications| && applications[i].id == appId
    {
      var i := 0;
      while i < |applications|
        invariant 0 <= i <= |applications|
        invariant forall j :: 0 <= j < i ==> applications[j].id != appId
      {
        if applications[i].id == appId {
          return true;
        }
        i := i + 1;
      }
      return false;
    }

    /** killByAppId: kills every entry with the id; the list itself is left to
        onProcessFinished. */
    method KillByAppId(appId: string)
      modifies this`effects
      ensures effects == old(effects) + KillLog(applications, appId)
    {
      var i := 0;
      while i < |applications|
        invariant 0 <= i <= |applications|
        invariant effects == old(effects) + KillLog(applications[..i], appId)
      {
        KillLogSnoc(applications[..i], applications[i], appId);
        assert applications[..i + 1] == applications[..i] + [applications[i]];
        if applications[i].id == appId {
          effects := effects + [Kill(applications[i].pid)];
        }
        i := i + 1;
      }
      assert applications[..i] == applications;
    }

    /** launchProcess: start, and on reaching Running append the new process. */
    method LaunchProcess(id: string, path: string, parameters: seq<string>, start: StartResult)
      returns (pid: int, process: Option<ApplicationProcess>)
      modifies this
      ensures effects == old(effects) + [Start(path, parameters)]
      ensures !start.running ==> pid == -1 && process.None? && applications == old(applications)
      ensures start.running ==> (pid == start.osPid && process.Some?
                                 && fresh(process.value) && process.value.id == id && process.value.pid == start.osPid
                                 && applications == old(applications) + [process.value])
    {
      effects := effects + [Start(path, parameters)];
      if !start.running {
        return -1, None;
      }
      var p := new ApplicationProcess(id, start.osPid);
      applications := applications + [p];
      return start.osPid, Some(p);
    }

    /** launchWebApp. */
    method LaunchWebApp(desc: AppDescription, params: string, winType: WindowType, appInfoFile: string, start: StartResult)
      returns (pid: int)
      modifies this
      ensures effects == old(effects) + [WriteAppInfo(desc.id, appInfoFile),
        Start(WEBAPP_LAUNCHER_PATH, WebAppArgs(desc.entryPoint, winType, params, appInfoFile))]
      ensures pid == (if start.running then start.osPid else -1)
      ensures !start.running ==> applications == old(applications)
      ensures start.running ==> (|applications| == |old(applications)| + 1
                                 && applications[..|old(applications)|] == old(applications)
                                 && applications[|old(applications)|].id == desc.id
                                 && applications[|old(applications)|].pid == start.osPid)
    {
      effects := effects + [WriteAppInfo(desc.id, appInfoFile)];
      var parameters := WebAppArgs(desc.entryPoint, winType, params, appInfoFile);
      var process;
      pid, process := LaunchProcess(desc.id, WEBAPP_LAUNCHER_PATH, parameters, start);
    }

    /** launchNativeApp: the entry point run with the params as its argument. */
    method LaunchNativeApp(desc: AppDescription, params: string, start: StartResult)
      returns (pid: int)
      modifies this
      ensures effects == old(effects) + [Start(desc.entryPoint, NativeAppArgs(params))]
      ensures pid == (if start.running then start.osPid else -1)
      ensures !start.running ==> applications == old(applications)
      ensures start.running ==> (|applications| == |old(applications)| + 1
                                 && applications[..|old(applications)|] == old(applications)
                                 && applications[|old(applications)|].id == desc.id
                                 && applications[|old(applications)|].pid == start.osPid)
    {
      var process;
      pid, process := LaunchProcess(desc.id, desc.entryPoint, NativeAppArgs(params), start);
    }

    /** launch: reuse the first running entry, otherwise dispatch on the type of
        the pending or installed descriptor. */
    method Launch(appId: string, params: string, winType: WindowType, catalog: Catalog,
                  appInfoFile: string, start: StartResult) returns (r: string)
      modifies this
      ensures var running := FirstWithId(old(applications), appId);
        var route := LaunchRoute(FindApp(catalog, appId));
        var launched := running.None? && route in {WebRoute, NativeRoute};
        && (running.Some? ==> r == PidString(running.value.pid))
        && (!launched ==> applications == old(applications) && effects == old(effects))
        && (running.None? && route !in {WebRoute, NativeRoute} ==> r == "")
        && (launched ==> r == PidString(if start.running then start.osPid else -1))
        && (launched && route == WebRoute ==>
              effects == old(effects) + [WriteAppInfo(FindApp(catalog, appId).value.id, appInfoFile),
                Start(WEBAPP_LAUNCHER_PATH, WebAppArgs(FindApp(catalog, appId).value.entryPoint, winType, params, appInfoFile))])
        && (launched && route == NativeRoute ==>
              effects == old(effects) + [Start(FindApp(catalog, appId).value.entryPoint, NativeAppArgs(params))])
        && (launched && !start.running ==> applications == old(applications))
        && (launched && start.running ==> (|applications| == |old(applications)| + 1
                                             && applications[..|old(applications)|] == old(applications)
                                             && applications[|old(applications)|].id == FindApp(catalog, appId).value.id
                                             && applications[|old(applications)|].pid == start.osPid))
    {
      var desc := FindApp(catalog, appId);
      var running := false;
      var pid := 0;
      var i := 0;
      while i < |applications|
        invariant 0 <= i <= |applications|
        invariant forall j :: 0 <= j < i ==> applications[j].id != appId
        invariant !running && pid == 0
      {
        if applications[i].id == appId {
          running := true;
          pid := applications[i].pid;
          FirstAt(applications, i, appId);
          break;
        }
        i := i + 1;
      }
      if !running {
        pid := 0;
        match LaunchRoute(desc)
        case WebRoute =>
          pid := LaunchWebApp(desc.value, params, winType, appInfoFile, start);
        case NativeRoute =>
          pid := LaunchNativeApp(desc.value, params, start);
        case QmlRoute =>
          pid := LaunchQmlApp(desc.value, params, winType);
        case _ =>
      }
      if pid <= 0 {
        return "";
      }
      return PidString(pid);
    }

    /** launchQMLApp: not implemented, always -1. */
    method LaunchQmlApp(desc: AppDescription, params: string, winType: WindowType) returns (pid: int)
      ensures pid == -1
    {
      return -1;
    }

    /** onProcessFinished: every occurrence of the finished process is removed. */
    method OnProcessFinished(process: ApplicationProcess)
      modifies this`applications
      ensures applications == Without(old(applications), process)
    {
      applications := Without(applications, process);
    }
  }

  lemma FirstAt(apps: seq<ApplicationProcess>, i: nat, appId: string)
    requires i < |apps| && apps[i].id == appId
    requires forall j :: 0 <= j < i ==> apps[j].id != appId
    ensures FirstWithId(apps, appId) == Some(apps[i])
  {
    var r := FirstWithId(apps, appId);
    var k :| 0 <= k < |apps| && apps[k] == r.value && r.value.id == appId
      && forall j :: 0 <= j < k ==> apps[j].id != appId;
    assert k == i;
  }

  lemma {:induction false} KillLogSnoc(apps: seq<ApplicationProcess>, p: ApplicationProcess, appId: string)
    ensures KillLog(apps + [p], appId) == KillLog(apps, appId) + (if p.id == appId then [Kill(p.pid)] else [])
    decreases |apps|
  {
    if apps == [] {
      assert apps + [p] == [p];
    } else {
      var s := apps + [p];
      assert s[0] == apps[0];
      assert s[1..] == apps[1..] + [p];
      KillLogSnoc(apps[1..], p, appId);
      var h := if apps[0].id == appId then [Kill(apps[0].pid)] else [];
      assert KillLog(s, appId) == h + KillLog(s[1..], appId);
      assert KillLog(apps, appId) == h + KillLog(apps[1..], appId);
    }
  }

  /** A started process is forgotten once it finishes: removal undoes the append. */
  lemma FinishUndoesStart(apps: seq<ApplicationProcess>, p: ApplicationProcess)
    requires p !in apps
    ensures Without(apps + [p], p) == apps
  {
    WithoutConcat(apps, [p], p);
    WithoutAbsent(apps, p);
    assert Without([p], p) == [];
  }
}
