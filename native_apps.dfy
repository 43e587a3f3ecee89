/** NativeAppManager.cpp: the registry of native processes (appId to pid, plus
    the web-app map that removal also searches), the set of pids to kill when
    the nuke timer fires, the two path helpers that work on NUL-terminated
    character buffers, and the extraction of an app id from an executable path.
    Fork, kill and waitid are effect-log entries; the fork result, the target
    of /proc/<pid>/exe and the catalog are inputs. */
module NativeApps {
  import opened Common
  import opened Catalog
  import Memory

  const NUKE_PROCESS_TIMEOUT_MS: int := 2000
  const PATH_MAX: nat := 4096
  /** snprintf(buf, 255, "%s", exeName) keeps at most 254 characters. */
  const EXE_BUFFER_CHARS: nat := 254

  const NUL: char := '\0'

  // ---------------------------------------------------------------------------
  // NUL-terminated buffers.

  predicate NoNul(s: string) {
    forall i :: 0 <= i < |s| ==> s[i] != NUL
  }

  /** The C string a buffer holds: everything before its first NUL. */
  function CStr(buf: seq<char>): (s: string)
    ensures |s| <= |buf| && s == buf[..|s|] && NoNul(s)
    ensures |s| < |buf| ==> buf[|s|] == NUL
    ensures |s| == |buf| ==> NoNul(buf)
  {
    if buf == [] then []
    else if buf[0] == NUL then []
    else [buf[0]] + CStr(buf[1..])
  }

  lemma {:induction false} CStrAt(buf: seq<char>, n: nat)
    requires n < |buf| && buf[n] == NUL && NoNul(buf[..n])
    ensures CStr(buf) == buf[..n]
    decreases n
  {
    if n > 0 {
      assert buf[0] == buf[..n][0];
      assert buf[1..][..n - 1] == buf[..n][1..];
      CStrAt(buf[1..], n - 1);
    }
  }

  /** What strncpy(dst, src, n) leaves in dst[0..n): src, then NUL padding. */
  function StrncpyResult(src: string, n: nat): (r: seq<char>)
    ensures |r| == n
    ensures forall i :: 0 <= i < n ==> r[i] == if i < |src| then src[i] else NUL
  {
    seq(n, i requires 0 <= i < n => if i < |src| then src[i] else NUL)
  }

  /** A copy that fits, NUL included, reads back as the source. */
  lemma StrncpyReadsBack(src: string, n: nat)
    requires NoNul(src) && |src| < n
    ensures CStr(StrncpyResult(src, n)) == src
  {
    var r := StrncpyResult(src, n);
    assert r[..|src|] == src;
    CStrAt(r, |src|);
  }

  /** strncpy: writes exactly n characters. */
  method Strncpy(dst: array<char>, src: string, n: nat)
    requires n <= dst.Length
    modifies dst
    ensures dst[..n] == StrncpyResult(src, n)
    ensures dst[n..] == old(dst[n..])
  {
    var i := 0;
    while i < n
      invariant 0 <= i <= n
      invariant forall k :: 0 <= k < i ==> dst[k] == if k < |src| then src[k] else NUL
      invariant dst[n..] == old(dst[n..])
    {
      dst[i] := if i < |src| then src[i] else NUL;
      i := i + 1;
    }
  }

  /** strlen. */
  method StrLen(a: array<char>) returns (n: nat)
    requires NUL in a[..]
    ensures n < a.Length && a[..n] == CStr(a[..])
  {
    n := 0;
    while a[n] != NUL
      invariant 0 <= n < a.Length
      invariant NoNul(a[..n])
      invariant NUL in a[n..]
      decreases a.Length - n
    {
      assert a[n..] == [a[n]] + a[n + 1..];
      n := n + 1;
    }
    CStrAt(a[..], n);
  }

  // ---------------------------------------------------------------------------
  // stripOneDirectoryLevel and HApp_GetBaseFile.

  /** The last '/' at an index in [1, hi]. */
  function LastSlashDownFrom(path: string, hi: int): (r: Option<nat>)
    requires hi < |path|
    ensures r.Some? ==> (1 <= r.value <= hi && path[r.value] == '/'
      && forall k :: r.value < k <= hi ==> path[k] != '/')
    ensures r.None? ==> forall k :: 1 <= k <= hi ==> path[k] != '/'
    decreases hi
  {
    if hi < 1 then None
    else if path[hi] == '/' then Some(hi)
    else LastSlashDownFrom(path, hi - 1)
  }

  /** The path with its last component removed: the prefix through the last '/'
      that lies strictly after index 0 and strictly before the last character,
      or "" when there is none. */
  function StrippedPath(path: string): (r: string)
    ensures r != "" ==> (2 <= |r| < |path| && r == path[..|r|] && r[|r| - 1] == '/'
      && forall k :: |r| <= k <= |path| - 2 ==> path[k] != '/')
    ensures r == "" <==> forall k :: 1 <= k <= |path| - 2 ==> path[k] != '/'
  {
    if |path| <= 1 then ""
    else
      match LastSlashDownFrom(path, |path| - 2)
      case None => ""
      case Some(j) => path[..j + 1]
  }

  /** A '/' at index p, past index 0, with none after it before the last
      character: the stripped path ends there. */
  lemma StrippedAtSlash(path: string, p: int)
    requires 1 <= p <= |path| - 2 && path[p] == '/'
    requires forall k :: p < k <= |path| - 2 ==> path[k] != '/'
    ensures StrippedPath(path) == path[..p + 1]
  {
    var r := LastSlashDownFrom(path, |path| - 2);
    assert r.Some? && r.value == p;
  }

  /** stripOneDirectoryLevel, in place: the terminator is written just after the
      slash it finds, or at index 0. */
  method StripOneDirectoryLevel(path: array<char>)
    requires NUL in path[..]
    modifies path
    ensures |StrippedPath(CStr(old(path[..])))| < path.Length
    ensures path[..] == old(path[..])[|StrippedPath(CStr(old(path[..])))| := NUL]
    ensures CStr(path[..]) == StrippedPath(CStr(old(path[..])))
  {
    ghost var s := CStr(path[..]);
    var len := StrLen(path);
    var cut := StripPoint(path, len);
    path[cut] := NUL;
    assert path[..cut] == s[..cut];
    CStrAt(path[..], cut);
  }

  /** The backward scan of stripOneDirectoryLevel: where the terminator goes,
      the length of the stripped path. */
  method StripPoint(path: array<char>, len: nat) returns (cut: nat)
    requires len < path.Length && path[..len] == CStr(path[..])
    ensures cut == |StrippedPath(CStr(path[..]))|
  {
    ghost var s := CStr(path[..]);
    var p: int := len as int - 1;
    if p <= 0 {
      return 0;
    }
    while true
      invariant 1 <= p <= len - 1
      invariant forall k :: p <= k <= len - 2 ==> s[k] != '/'
      decreases p
    {
      p := p - 1;
      if p == 0 {
        return 0;
      }
      if path[p] == '/' {
        break;
      }
    }
    assert s[p] == '/';
    StrippedAtSlash(s, p);
    return p + 1;
  }

  /** The name HApp_GetBaseFile hands back: the last component, or the whole
      input when nothing could be stripped. */
  function BaseFile(fullPath: string): string {
    var stripped := StrippedPath(fullPath);
    if stripped == "" then fullPath else fullPath[|stripped|..]
  }

  /** Stripped directory and base name put back together give the input; the
      base name has no '/' except possibly as its final character. */
  lemma BaseFileSplits(fullPath: string)
    ensures StrippedPath(fullPath) + BaseFile(fullPath) == fullPath
    ensures StrippedPath(fullPath) != "" ==>
      0 < |BaseFile(fullPath)| && forall k :: 0 <= k < |BaseFile(fullPath)| - 1 ==> BaseFile(fullPath)[k] != '/'
  {
    var stripped := StrippedPath(fullPath);
    if stripped != "" {
      var b := BaseFile(fullPath);
      forall k | 0 <= k < |b| - 1 ensures b[k] != '/' {
        assert b[k] == fullPath[|stripped| + k];
      }
    }
  }

  /** HApp_GetBaseFile: the base name is copied into the caller's buffer with
      strncpy, so a name that fits is NUL-terminated and one that does not is cut. */
  method GetBaseFile(fullPath: string, outBuffer: array<char>) returns (status: int)
    requires NoNul(fullPath) && |fullPath| < PATH_MAX
    modifies outBuffer
    ensures status == 1
    ensures outBuffer[..] == StrncpyResult(BaseFile(fullPath), outBuffer.Length)
  {
    var workingPath := new char[PATH_MAX];
    Strncpy(workingPath, fullPath, PATH_MAX);
    assert workingPath[..] == StrncpyResult(fullPath, PATH_MAX);
    StrncpyReadsBack(fullPath, PATH_MAX);
    assert workingPath[|fullPath|] == NUL;
    StripOneDirectoryLevel(workingPath);
    ghost var stripped := StrippedPath(fullPath);
    if workingPath[0] == NUL {
      assert stripped == "";
      Strncpy(outBuffer, fullPath, outBuffer.Length);
      assert outBuffer[..] == outBuffer[..outBuffer.Length];
      return 1;
    }
    var len := StrLen(workingPath);
    assert len == |stripped|;
    Strncpy(outBuffer, fullPath[len..], outBuffer.Length);
    assert outBuffer[..] == outBuffer[..outBuffer.Length];
    return 1;
  }

  // ---------------------------------------------------------------------------
  // appIdFromPid.

  /** `needle` occurs in `haystack` at index i. */
  predicate OccursAt(haystack: string, needle: string, i: nat) {
    i + |needle| <= |haystack| && haystack[i..i + |needle|] == needle
  }

  /** g_strrstr: the start of the last occurrence of `needle`; an empty needle
      is found at the start. */
  function LastIndexOf(haystack: string, needle: string): (r: Option<nat>)
    ensures needle == [] ==> r == Some(0)
    ensures needle != [] && r.Some? ==>
      (OccursAt(haystack, needle, r.value) && forall i :: r.value < i ==> !OccursAt(haystack, needle, i))
    ensures needle != [] && r.None? ==> forall i :: !OccursAt(haystack, needle, i)
  {
    if needle == [] then Some(0)
    else if |haystack| < |needle| then None
    else LastIndexFrom(haystack, needle, |haystack| - |needle|)
  }

  function LastIndexFrom(haystack: string, needle: string, p: nat): (r: Option<nat>)
    requires p + |needle| <= |haystack|
    requires forall i :: p < i ==> !OccursAt(haystack, needle, i)
    ensures r.Some? ==> (OccursAt(haystack, needle, r.value) && forall i :: r.value < i ==> !OccursAt(haystack, needle, i))
    ensures r.None? ==> forall i :: !OccursAt(haystack, needle, i)
    decreases p
  {
    if OccursAt(haystack, needle, p) then Some(p)
    else if p == 0 then None
    else LastIndexFrom(haystack, needle, p - 1)
  }

  /** The first index at or after i that does not hold '/'. */
  function SkipSlashes(buf: string, i: nat): (k: nat)
    requires i <= |buf|
    ensures i <= k <= |buf| && (k < |buf| ==> buf[k] != '/')
    ensures forall j :: i <= j < k ==> buf[j] == '/'
    decreases |buf| - i
  {
    if i < |buf| && buf[i] == '/' then SkipSlashes(buf, i + 1) else i
  }

  /** The first index at or after i that holds '/'. */
  function FindSlash(buf: string, i: nat): (m: nat)
    requires i <= |buf|
    ensures i <= m <= |buf| && (m < |buf| ==> buf[m] == '/')
    ensures forall j :: i <= j < m ==> buf[j] != '/'
    decreases |buf| - i
  {
    if i < |buf| && buf[i] != '/' then FindSlash(buf, i + 1) else i
  }

  /** The segment the two pointer loops of appIdFromPid delimit from `start`:
      leading '/'s skipped, then everything up to the next '/'. It is empty
      exactly when no '/' follows a non-'/' character. */
  function SegmentAt(buf: string, start: nat): (id: string)
    requires start <= |buf|
    ensures NoSlash(id)
  {
    var k := SkipSlashes(buf, start);
    if k == |buf| then ""
    else
      var m := FindSlash(buf, k);
      if m == |buf| then ""
      else
        assert forall i :: 0 <= i < m - k ==> buf[k..m][i] == buf[k + i];
        buf[k..m]
  }

  /** The segment is the run of non-'/' characters after the leading '/'s and
      before a '/'; it is empty exactly when no '/' follows a non-'/' character. */
  lemma SegmentAtMeaning(buf: string, start: nat)
    requires start <= |buf|
    ensures var id := SegmentAt(buf, start);
      id != "" ==> exists k, m :: (start <= k < m < |buf| && id == buf[k..m] && buf[m] == '/'
        && (forall j :: start <= j < k ==> buf[j] == '/') && (forall j :: k <= j < m ==> buf[j] != '/'))
    ensures SegmentAt(buf, start) == "" <==> forall k, m :: start <= k < m < |buf| && buf[k] != '/' ==> buf[m] != '/'
  {
    var k := SkipSlashes(buf, start);
    if k < |buf| {
      var m := FindSlash(buf, k);
      if m < |buf| {
        assert buf[k] != '/' && buf[m] == '/';
      }
    }
  }

  /** The app id for an executable whose /proc link reads `exe` (None when it
      could not be read): the segment after the last occurrence of the install
      prefix in the first 254 characters. */
  function AppIdFromExe(exe: Option<string>, installRelative: string): (id: string)
    ensures id != "" ==> exe.Some? && NoSlash(id)
  {
    if exe.None? then ""
    else
      var buf := exe.value[..Min(|exe.value|, EXE_BUFFER_CHARS)];
      match LastIndexOf(buf, installRelative)
      case None => ""
      case Some(loc) => SegmentAt(buf, loc + |installRelative|)
  }

  predicate NoSlash(s: string) {
    forall i :: 0 <= i < |s| ==> s[i] != '/'
  }

  /** NativeAppManager::appIdFromPid after the readlink. */
  method AppIdFromPid(exe: Option<string>, installRelative: string) returns (appId: string)
    ensures appId == AppIdFromExe(exe, installRelative)
  {
    if exe.None? {
      return "";
    }
    var buf := exe.value[..Min(|exe.value|, EXE_BUFFER_CHARS)];
    var location := LastIndexOf(buf, installRelative);
    if location.None? {
      return "";
    }
    appId := ScanSegment(buf, location.value + |installRelative|);
  }

  /** The two pointer loops of appIdFromPid, from just after the prefix. */
  method ScanSegment(buf: string, start: nat) returns (appId: string)
    requires start <= |buf|
    ensures appId == SegmentAt(buf, start)
  {
    var appIdStart := start;
    while true
      invariant start <= appIdStart <= |buf|
      invariant SkipSlashes(buf, appIdStart) == SkipSlashes(buf, start)
      decreases |buf| - appIdStart
    {
      if appIdStart == |buf| {
        return "";
      }
      if buf[appIdStart] != '/' {
        break;
      }
      appIdStart := appIdStart + 1;
    }
    assert SkipSlashes(buf, start) == appIdStart;
    var appIdEnd := appIdStart;
    while true
      invariant appIdStart <= appIdEnd <= |buf|
      invariant FindSlash(buf, appIdEnd) == FindSlash(buf, appIdStart)
      decreases |buf| - appIdEnd
    {
      if appIdEnd == |buf| {
        return "";
      }
      if buf[appIdEnd] == '/' {
        break;
      }
      appIdEnd := appIdEnd + 1;
    }
    return buf[appIdStart..appIdEnd];
  }

  /** For a path "<head><installRelative><slashes><id>/<rest>" that fits the
      buffer, with no later occurrence of the install prefix, the id is the
      component after the prefix. */
  lemma AppIdOfInstalledApp(head: string, installRelative: string, slashes: nat, id: string, rest: string)
    requires installRelative != [] && id != [] && NoSlash(id)
    requires var exe := head + installRelative + seq(slashes, _ => '/') + id + "/" + rest;
      |exe| <= EXE_BUFFER_CHARS
      && forall i :: |head| < i ==> !OccursAt(exe, installRelative, i)
    ensures AppIdFromExe(Some(head + installRelative + seq(slashes, _ => '/') + id + "/" + rest), installRelative) == id
  {
    var sl: string := seq(slashes, _ => '/');
    var exe := head + installRelative + sl + id + "/" + rest;
    var p := |head|;
    var n := |installRelative|;
    var k := p + n + slashes;
    assert exe[..Min(|exe|, EXE_BUFFER_CHARS)] == exe;
    assert exe[p..p + n] == installRelative;
    assert forall j :: p + n <= j < k ==> exe[j] == sl[j - p - n];
    assert exe[k..k + |id|] == id;
    assert exe[k + |id|] == '/';
    AppIdInBuffer(exe, installRelative, p, k, id);
  }

  /** The same, stated on positions in the buffer. */
  lemma AppIdInBuffer(buf: string, installRelative: string, p: nat, k: nat, id: string)
    requires installRelative != [] && id != [] && NoSlash(id) && |buf| <= EXE_BUFFER_CHARS
    requires OccursAt(buf, installRelative, p) && forall i :: p < i ==> !OccursAt(buf, installRelative, i)
    requires p + |installRelative| <= k && k + |id| < |buf|
    requires forall j :: p + |installRelative| <= j < k ==> buf[j] == '/'
    requires buf[k..k + |id|] == id && buf[k + |id|] == '/'
    ensures AppIdFromExe(Some(buf), installRelative) == id
  {
    var n := |installRelative|;
    assert buf[..Min(|buf|, EXE_BUFFER_CHARS)] == buf;
    LastOccurrenceAt(buf, installRelative, p);
    SegmentAtLayout(buf, p + n, k, id);
  }

  lemma SegmentAtLayout(buf: string, start: nat, k: nat, id: string)
    requires id != [] && NoSlash(id) && start <= k && k + |id| < |buf|
    requires forall j :: start <= j < k ==> buf[j] == '/'
    requires buf[k..k + |id|] == id && buf[k + |id|] == '/'
    ensures SegmentAt(buf, start) == id
  {
    assert buf[k] == id[0];
    SkipSlashesAt(buf, start, k);
    forall j | k <= j < k + |id| ensures buf[j] != '/' {
      assert buf[j] == id[j - k];
    }
    FindSlashAt(buf, k, k + |id|);
  }

  lemma LastOccurrenceAt(buf: string, needle: string, p: nat)
    requires needle != []
    requires OccursAt(buf, needle, p) && forall i :: p < i ==> !OccursAt(buf, needle, i)
    ensures LastIndexOf(buf, needle) == Some(p)
  {
    var r := LastIndexOf(buf, needle);
    assert r.Some?;
    assert r.value >= p;
    assert r.value <= p;
  }

  lemma {:induction false} SkipSlashesAt(buf: string, i: nat, k: nat)
    requires i <= k < |buf| && buf[k] != '/'
    requires forall j :: i <= j < k ==> buf[j] == '/'
    ensures SkipSlashes(buf, i) == k
    decreases k - i
  {
    if i < k {
      SkipSlashesAt(buf, i + 1, k);
    }
  }

  lemma {:induction false} FindSlashAt(buf: string, i: nat, m: nat)
    requires i <= m < |buf| && buf[m] == '/'
    requires forall j :: i <= j < m ==> buf[j] != '/'
    ensures FindSlash(buf, i) == m
    decreases m - i
  {
    if i < m {
      FindSlashAt(buf, i + 1, m);
    }
  }

  // ---------------------------------------------------------------------------
  // The registry.

  datatype Sig = SigKill | SigStop | SigCont

  datatype Effect =
    | GenerateRole(roleAppId: string, rolePath: string)   // pdkGenerateRole
    | Spawn(exePath: string)                               // PrvLaunchProcess (argv left out)
    | WatchChild(watchedPid: int)                          // g_child_watch_add_full
    | Signal(target: int, sig: Sig)                        // ::kill
    | Reap(reapedPid: int)                                 // ::waitid(P_PID, pid, WEXITED | WNOHANG)
    | PostTerminated(title: string, name: string, appId: string)  // postApplicationHasBeenTerminated
    | ClosePid(closedPid: int)                             // g_spawn_close_pid

  /** What the kill path reads from the outside world. */
  datatype ProcEnv = ProcEnv(
    exeLinks: map<int, string>,   // the target of /proc/<pid>/exe, where readable
    installRelative: string,      // Settings::appInstallRelative
    catalog: Catalog)

  function ExeLink(env: ProcEnv, pid: int): Option<string> {
    if pid in env.exeLinks then Some(env.exeLinks[pid]) else None
  }

  /** The user notice killProcess posts: the menu name and default launch-point
      title of the app the pid runs, "Application" and "" when unknown. */
  function TerminationNotice(pid: int, env: ProcEnv): (e: Effect)
    ensures e.PostTerminated?
    ensures e.appId == AppIdFromExe(ExeLink(env, pid), env.installRelative)
    ensures e.appId == "" || e.appId !in env.catalog.installed ==> e.name == "Application" && e.title == ""
    ensures e.appId != "" && e.appId in env.catalog.installed ==>
      e.name == env.catalog.installed[e.appId].menuName
    ensures e.appId != "" && e.appId in env.catalog.installed ==>
      e.title == (if env.catalog.installed[e.appId].defaultLaunchPointTitle.Some?
                  then env.catalog.installed[e.appId].defaultLaunchPointTitle.value else "")
  {
    var appId := AppIdFromExe(ExeLink(env, pid), env.installRelative);
    var desc := if appId == "" then None else InstalledApp(env.catalog, appId);
    var name := if desc.Some? then desc.value.menuName else "Application";
    var title := if desc.Some? && desc.value.defaultLaunchPointTitle.Some? then desc.value.defaultLaunchPointTitle.value else "";
    PostTerminated(title, name, appId)
  }

  /** The lookups killProcess makes before posting its notice. */
  method ComposeTerminationNotice(pid: int, env: ProcEnv) returns (e: Effect)
    ensures e == TerminationNotice(pid, env)
  {
    var appId := AppIdFromPid(ExeLink(env, pid), env.installRelative);
    var appName := "Application";
    var appTitle := "";
    if appId != "" {
      var desc := InstalledApp(env.catalog, appId);
      if desc.Some? {
        appName := desc.value.menuName;
        if desc.value.defaultLaunchPointTitle.Some? {
          appTitle := desc.value.defaultLaunchPointTitle.value;
        }
      }
    }
    e := PostTerminated(appTitle, appName, appId);
  }

  predicate HasPid(m: map<string, int>, pid: int) {
    exists k :: k in m && m[k] == pid
  }

  function KeysWithPid(m: map<string, int>, pid: int): (ks: set<string>)
    ensures forall k :: k in ks <==> k in m && m[k] == pid
    ensures ks == {} <==> !HasPid(m, pid)
  {
    set k | k in m && m[k] == pid
  }

  /** One erase of the first entry, in key order, that holds the pid. */
  ghost function EraseFirstWithPid(m: map<string, int>, pid: int): (r: map<string, int>)
    ensures !HasPid(m, pid) ==> r == m
    ensures HasPid(m, pid) ==> exists k :: IsLeastKey(k, KeysWithPid(m, pid)) && r == m - {k}
    ensures r.Keys <= m.Keys && forall k :: k in r ==> r[k] == m[k]
    ensures HasPid(m, pid) ==> |r| == |m| - 1
  {
    if HasPid(m, pid) then m - {LeastKey(KeysWithPid(m, pid))} else m
  }

  /** The first key in map order whose value is `pid`. */
  method FirstKeyWithPid(m: map<string, int>, pid: int) returns (found: Option<string>)
    ensures found.None? <==> !HasPid(m, pid)
    ensures found.Some? ==> IsLeastKey(found.value, KeysWithPid(m, pid))
  {
    var rest := m.Keys;
    found := None;
    while rest != {}
      invariant rest <= m.Keys
      invariant found.Some? ==> found.value in m && m[found.value] == pid && found.value !in rest
      invariant found.Some? ==> forall j :: j in m && j !in rest && m[j] == pid && j != found.value ==> StrLess(found.value, j)
      invariant found.None? ==> forall j :: j in m && j !in rest ==> m[j] != pid
      decreases |rest|
    {
      var x :| x in rest;
      if m[x] == pid {
        if found.None? {
          found := Some(x);
        } else if StrLess(x, found.value) {
          var old_k := found.value;
          forall j | j in m && j !in rest - {x} && m[j] == pid && j != x
            ensures StrLess(x, j)
          {
            if j != old_k {
              StrLessTransitive(x, old_k, j);
            }
          }
          found := Some(x);
        } else {
          StrLessTotal(x, found.value);
        }
      }
      rest := rest - {x};
    }
  }

  /** Launching records appId under a pid no entry held; removing that pid
      undoes the launch. */
  lemma RemoveUndoesLaunch(m: map<string, int>, appId: string, pid: int)
    requires appId !in m && !HasPid(m, pid)
    ensures EraseFirstWithPid(m[appId := pid], pid) == m
  {
    var m' := m[appId := pid];
    assert KeysWithPid(m', pid) == {appId};
    var k := LeastKey(KeysWithPid(m', pid));
    assert m' - {appId} == m;
  }

  /** The two maps removal works on. */
  datatype Registry = Registry(native: map<string, int>, web: map<string, int>)

  /** processRemoved on the maps: the native map is searched first, and the web
      map only when no native entry holds the pid. */
  ghost function RemoveProcess(r: Registry, pid: int): (r': Registry)
    ensures HasPid(r.native, pid) ==> r'.web == r.web && |r'.native| == |r.native| - 1
    ensures !HasPid(r.native, pid) ==> r'.native == r.native
    ensures |r.native| + |r.web| - 1 <= |r'.native| + |r'.web| <= |r.native| + |r.web|
    ensures !HasPid(r.native, pid) && !HasPid(r.web, pid) ==> r' == r
  {
    if HasPid(r.native, pid) then Registry(EraseFirstWithPid(r.native, pid), r.web)
    else Registry(r.native, EraseFirstWithPid(r.web, pid))
  }

  /** The maps after killing the pids in this order. */
  ghost function RemoveAll(r: Registry, pids: seq<int>): Registry
    decreases |pids|
  {
    if pids == [] then r else RemoveAll(RemoveProcess(r, pids[0]), pids[1..])
  }

  lemma {:induction false} RemoveAllSnoc(r: Registry, pids: seq<int>, p: int)
    ensures RemoveAll(r, pids + [p]) == RemoveProcess(RemoveAll(r, pids), p)
    decreases |pids|
  {
    if pids == [] {
      assert pids + [p] == [p];
    } else {
      assert (pids + [p])[1..] == pids[1..] + [p];
      RemoveAllSnoc(RemoveProcess(r, pids[0]), pids[1..], p);
    }
  }

  /** The SIGKILLs killProcess(pid) sends, one per pid, in order. */
  function KillSignals(pids: seq<int>): (r: seq<Effect>)
    ensures |r| == |pids|
    ensures forall i :: 0 <= i < |pids| ==> r[i] == Signal(pids[i], SigKill)
  {
    seq(|pids|, i requires 0 <= i < |pids| => Signal(pids[i], SigKill))
  }

  lemma KillSignalsTargets(pids: seq<int>)
    ensures forall p :: Signal(p, SigKill) in KillSignals(pids) <==> p in pids
  {
    var sig := KillSignals(pids);
    forall p ensures Signal(p, SigKill) in sig <==> p in pids {
      if p in pids {
        var i :| 0 <= i < |pids| && pids[i] == p;
        assert sig[i] == Signal(p, SigKill);
      }
    }
  }

  /** The nuke timer kills exactly the members of the set, each once, in
      ascending pid order. */
  lemma NukeKillsEveryMember(s: set<int>)
    ensures forall p :: p in s <==> Signal(p, SigKill) in KillSignals(Ascending(s))
    ensures forall i, j :: 0 <= i < j < |s| ==>
      KillSignals(Ascending(s))[i].target < KillSignals(Ascending(s))[j].target
  {
    AscendingContents(s);
    KillSignalsTargets(Ascending(s));
  }

  lemma KillSignalsSnoc(pids: seq<int>, p: int)
    ensures KillSignals(pids + [p]) == KillSignals(pids) + [Signal(p, SigKill)]
  {
  }

  /** One more SIGKILL appended to a log of them. */
  lemma KillSignalsStep(log0: seq<Effect>, before: seq<Effect>, after: seq<Effect>, pids: seq<int>, p: int)
    requires before == log0 + KillSignals(pids) && after == before + [Signal(p, SigKill)]
    ensures after == log0 + KillSignals(pids + [p])
  {
    KillSignalsSnoc(pids, p);
  }

  /** Taking the least member off the front of the remaining ascending order. */
  lemma AscendingStep(done: seq<int>, pending: set<int>, p: int, all: seq<int>)
    requires IsLeastInt(p, pending) && done + Ascending(pending) == all
    ensures (done + [p]) + Ascending(pending - {p}) == all
  {
    var m := LeastInt(pending);
    assert m <= p && p <= m;
    assert Ascending(pending) == [p] + Ascending(pending - {p});
  }

  class NativeAppManager {
    var nativeProcessMap: map<string, int>
    var webAppProcessMap: map<string, int>
    var nukeSet: set<int>
    var nukeTimerArmed: bool
    /** The interval and single-shot flag the nuke timer was last started with. */
    var nukeTimerIntervalMs: int
    var nukeTimerSingleShot: bool
    var effects: seq<Effect>

    constructor ()
      ensures nativeProcessMap == map[] && webAppProcessMap == map[]
      ensures nukeSet == {} && !nukeTimerArmed && effects == []
      ensures nukeTimerIntervalMs == 0 && !nukeTimerSingleShot
    {
      nativeProcessMap := map[];
      webAppProcessMap := map[];
      nukeSet := {};
      nukeTimerArmed := false;
      nukeTimerIntervalMs := 0;
      nukeTimerSingleShot := false;
      effects := [];
    }

    ghost function Maps(): Registry
      reads this
    {
      Registry(nativeProcessMap, webAppProcessMap)
    }

    /** launchNativeProcess: `memState` is the memory monitor's state and
        `forkPid` what the fork returned. */
    method LaunchNativeProcess(appId: string, path: string, appType: AppType, requiredMemory: int,
                               memState: Memory.MemState, forkPid: int) returns (pid: int)
      modifies this`nativeProcessMap, this`effects
      ensures webAppProcessMap == old(webAppProcessMap) && nukeSet == old(nukeSet)
      ensures nukeTimerArmed == old(nukeTimerArmed)
      ensures appId in old(nativeProcessMap) ==>
        pid == old(nativeProcessMap)[appId] && nativeProcessMap == old(nativeProcessMap) && effects == old(effects)
      ensures appId !in old(nativeProcessMap) && !Memory.AllowNewNativeAppLaunch(memState, requiredMemory) ==>
        pid == 0 && nativeProcessMap == old(nativeProcessMap) && effects == old(effects)
      ensures appId !in old(nativeProcessMap) && Memory.AllowNewNativeAppLaunch(memState, requiredMemory) && forkPid < 0 ==>
        pid == -1 && nativeProcessMap == old(nativeProcessMap)
        && effects == old(effects) + [GenerateRole(appId, path), Spawn(path)]
      ensures appId !in old(nativeProcessMap) && Memory.AllowNewNativeAppLaunch(memState, requiredMemory) && forkPid >= 0 ==>
        pid == forkPid && nativeProcessMap == old(nativeProcessMap)[appId := forkPid]
        && effects == old(effects) + [GenerateRole(appId, path), Spawn(path), WatchChild(forkPid)]
    {
      if appId in nativeProcessMap {
        return nativeProcessMap[appId];
      }
      if !Memory.AllowNewNativeAppLaunch(memState, requiredMemory) {
        return 0;
      }
      effects := effects + [GenerateRole(appId, path)];
      effects := effects + [Spawn(path)];
      if forkPid < 0 {
        return -1;
      }
      nativeProcessMap := nativeProcessMap[appId := forkPid];
      effects := effects + [WatchChild(forkPid)];
      return forkPid;
    }

    method SuspendProcess(pid: int)
      modifies this`effects
      ensures effects == old(effects) + [Signal(pid, SigStop)]
    {
      effects := effects + [Signal(pid, SigStop)];
    }

    method ResumeProcess(pid: int)
      modifies this`effects
      ensures effects == old(effects) + [Signal(pid, SigCont)]
    {
      effects := effects + [Signal(pid, SigCont)];
    }

    /** processRemoved. */
    method ProcessRemoved(pid: int, doCleanup: bool)
      modifies this`nativeProcessMap, this`webAppProcessMap, this`effects
      ensures Maps() == RemoveProcess(old(Maps()), pid)
      ensures doCleanup ==> effects == old(effects) + [Reap(pid)]
      ensures !doCleanup ==> effects == old(effects)
    {
      if doCleanup {
        effects := effects + [Reap(pid)];
      }
      var k := FirstKeyWithPid(nativeProcessMap, pid);
      if k.Some? {
        LeastKeyUnique(k.value, LeastKey(KeysWithPid(nativeProcessMap, pid)), KeysWithPid(nativeProcessMap, pid));
        nativeProcessMap := nativeProcessMap - {k.value};
        return;
      }
      var w := FirstKeyWithPid(webAppProcessMap, pid);
      if w.Some? {
        LeastKeyUnique(w.value, LeastKey(KeysWithPid(webAppProcessMap, pid)), KeysWithPid(webAppProcessMap, pid));
        webAppProcessMap := webAppProcessMap - {w.value};
      }
    }

    /** killProcess: the optional user notice, SIGKILL, then removal without reaping. */
    method KillProcess(pid: int, notifyUser: bool, env: ProcEnv)
      modifies this`nativeProcessMap, this`webAppProcessMap, this`effects
      ensures Maps() == RemoveProcess(old(Maps()), pid)
      ensures notifyUser ==> effects == old(effects) + [TerminationNotice(pid, env), Signal(pid, SigKill)]
      ensures !notifyUser ==> effects == old(effects) + [Signal(pid, SigKill)]
    {
      if notifyUser {
        var notice := ComposeTerminationNotice(pid, env);
        effects := effects + [notice, Signal(pid, SigKill)];
      } else {
        effects := effects + [Signal(pid, SigKill)];
      }
      ProcessRemoved(pid, false);
    }

    /** addProcessToNukeList: a set insert, and the timer stopped and started
        again as a 2000 ms single shot, whatever it was doing before. */
    method AddProcessToNukeList(pid: int)
      modifies this`nukeSet, this`nukeTimerArmed, this`nukeTimerIntervalMs, this`nukeTimerSingleShot
      ensures nukeSet == old(nukeSet) + {pid}
      ensures nukeTimerArmed && nukeTimerIntervalMs == NUKE_PROCESS_TIMEOUT_MS && nukeTimerSingleShot
    {
      nukeSet := nukeSet + {pid};
      nukeTimerArmed := true;
      nukeTimerIntervalMs := NUKE_PROCESS_TIMEOUT_MS;
      nukeTimerSingleShot := true;
    }

    /** nukeProcessTimer: killProcess(pid) for every member in ascending order,
        the set emptied, and false so that the timer does not repeat. */
    method NukeProcessTimer(env: ProcEnv) returns (repeat: bool)
      modifies this`nativeProcessMap, this`webAppProcessMap, this`effects, this`nukeSet, this`nukeTimerArmed
      ensures !repeat && nukeSet == {} && !nukeTimerArmed
      ensures effects == old(effects) + KillSignals(Ascending(old(nukeSet)))
      ensures Maps() == RemoveAll(old(Maps()), Ascending(old(nukeSet)))
    {
      var pending := nukeSet;
      ghost var done: seq<int> := [];
      while pending != {}
        invariant done + Ascending(pending) == Ascending(old(nukeSet))
        invariant effects == old(effects) + KillSignals(done)
        invariant Maps() == RemoveAll(old(Maps()), done)
        decreases |pending|
      {
        LeastIntExists(pending);
        var p :| p in pending && forall q :: q in pending ==> p <= q;
        AscendingStep(done, pending, p, Ascending(old(nukeSet)));
        ghost var before := effects;
        KillProcess(p, false, env);
        RemoveAllSnoc(old(Maps()), done, p);
        KillSignalsStep(old(effects), before, effects, done, p);
        pending := pending - {p};
        done := done + [p];
      }
      assert done == Ascending(old(nukeSet));
      nukeSet := {};
      nukeTimerArmed := false;
      return false;
    }

    /** childProcessDied: removal without reaping, then the pid handle closed. */
    method ChildProcessDied(pid: int, status: int)
      modifies this`nativeProcessMap, this`webAppProcessMap, this`effects
      ensures Maps() == RemoveProcess(old(Maps()), pid)
      ensures effects == old(effects) + [ClosePid(pid)]
    {
      ProcessRemoved(pid, false);
      effects := effects + [ClosePid(pid)];
    }
  }
}
