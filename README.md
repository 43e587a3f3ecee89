# luna-appmanager core, modelled in Dafny

This project models five engines of the webOS-ports application manager:

- **Boot state machine** (`boot.dfy`, module `Boot`). Three phases (startup, first use, normal), each with enter, leave and event handlers. `switchState` leaves the old phase, assigns the new one, enters it and publishes it, and it is re-entered from the startup phase's `enter`.
- **Native process registry** (`native_apps.dfy`, module `NativeApps`). It holds:
  - the `appId ↦ pid` maps for native and web processes;
  - launch admission through the memory monitor;
  - removal by pid, native map first;
  - the nuke set, flushed by a one-shot timer;
  - the two C path helpers on `char` buffers;
  - the app-id extraction from a process's executable path.
- **Application process list** (`app_processes.dfy`, module `AppProcesses`). It covers:
  - the `QList` of started processes;
  - `launch`, which reuses a running entry or dispatches on the descriptor type;
  - the fixed `webapp-launcher` command line;
  - removal when a process finishes.
- **Memory monitor** (`memory.dfy`, module `Memory`). It covers:
  - admission by the ordered memory state;
  - the `/proc/<pid>/status` scan through an `ifstream`, with unit normalisation;
  - the page-to-megabyte arithmetic;
  - the periodic timer.
- **Web application manager proxy** (`web_app_mgr.dfy`, module `WebAppMgr`). It covers:
  - the `connected` flag that guards every outbound call;
  - the ordered check chain of `launchApp`;
  - the window-type names;
  - the classification of app events and service-status messages.

Two shared modules sit underneath:

- `common.dfy` (`Common`) holds C integer division, the `std::map` key order, ascending `std::set<int>` order and decimal digits.
- `catalog.dfy` (`Catalog`) holds the application descriptors and the two catalog lookups.

Entities whose fields the source updates become classes with those fields:

- `BootManager`
- `NativeAppManager`
- `ApplicationProcessManager`
- `MemoryMonitor`
- `WebAppMgrProxy`

Every outbound call goes into an ordinary `effects` sequence on its class, in order. These calls are launches, kills, signals, display locks, luna-service calls, Qt signals and notifications. Everything read from the outside world is a parameter of the method that reads it:

- marker files;
- catalog lookups;
- the outcome of `fork`, `QProcess::start` and `LSRegister`;
- `/proc` contents;
- JSON payloads.

The main properties proved:

- **Boot.** Every switch leaves the old phase before it enters the new one, also across the nested switch. This is the `Alternates` invariant over the whole log. Every post of a switch reports the phase the switch ends in. The display lock is held exactly while the first-use phase is current.
- **Native launches.** A launch of a known app returns its pid and changes nothing. An admission refusal returns 0 and a failed fork returns -1, and both leave the maps unchanged.
- **Removal.** It erases the first entry in key order that holds the pid, native map first.
- **Nuke timer.** It kills every member of the set once, in ascending order, and empties the set.
- **Path helpers.**
  - `stripOneDirectoryLevel` works in place on an `array<char>`.
  - `HApp_GetBaseFile` gives back a base name that, put after the stripped path, rebuilds the input.
  - The extracted app id is non-empty only when it is `/`-free, and for an installed app's path it is exactly that app's id.
- **Memory monitor.** `getProcessMemInfo` (a loop) computes the token-stream scan. That scan gives -1 when a field is missing, and the sum of the normalised values for a well-formed file. Admission is refused exactly from Low upwards.
- **Process list.** `isRunning` holds iff an entry has the id. `launch` returns the pid of the first running entry in decimal, or dispatches by type; exactly one entry is appended when the process runs. The launcher command line parses back to its four inputs.
- **Proxy.**
  - While disconnected every outbound operation does nothing.
  - `connected` always equals the last announced connection status.
  - `launchApp` answers "success" exactly when every check passes.
  - An error message is set exactly for the first three refusals.
  - An app that is not ready is redirected to the software manager with `{}` as params.

Where the comments of the source and its code disagree, the model follows the code. The comment over `stripOneDirectoryLevel` says `/foo/` becomes `/`. The code clears it to the empty string, because it never accepts a `/` at index 0. `StrippedPath` states that.

## Model

| member | source | states |
|---|---|---|
| Catalog.InstalledApp | Src/base/BootManager.cpp:146 | the installed descriptor is found exactly when the id is a key of the installed catalog |
| Catalog.FindApp | Src/remote/ApplicationProcessManager.cpp:86-88 | the pending descriptor wins; otherwise the installed one; nothing exactly when neither knows the id |
| Common.TruncDiv | Src/base/MemoryMonitor.cpp:185 | C division truncates toward zero, and for a non-negative dividend it is the floor quotient with remainder in [0, d) |
| Common.DecimalRoundTrip | Src/remote/ApplicationProcessManager.cpp:127 | the decimal digits of a number read back as that number, with no leading zero |
| Boot.BootStateToStr | Src/base/BootManager.cpp:57-74 | startup, firstuse and normal for the three phases, "unknown" exactly for the out-of-range value |
| Boot.BootStateNameRoundTrip | Src/base/BootManager.cpp:57-74 | a published name identifies the real phase it came from; "unknown" names none |
| Boot.SwitchLogAlternates | Src/base/BootManager.cpp:248-257 | every enter of a switch is preceded by the leave of the phase entered before, also across the nested switch of the startup phase |
| Boot.SwitchLogPostsFinal | Src/base/BootManager.cpp:248-257 | a switch ends with a post, and every post it makes, the inner one included, reports the phase the switch ends in |
| Boot.SwitchLogDnast | Src/base/BootManager.cpp:88-100 | a switch releases the display lock iff it leaves first use and takes it iff it ends there |
| Boot.AppendSwitch | Src/base/BootManager.cpp:248-257 | a switch appended to a log with the leave-before-enter and lock invariants keeps both |
| Boot.AppendLeaveEnter | Src/base/BootManager.cpp:252-254 | between the assignment and enter() the markers still alternate and no lock is held |
| Boot.EventOutcome | Src/base/BootManager.cpp:102-135 | only FIRST_USE_DONE in first use with the profile marker absent does anything; a refused call switches to Normal at once, an accepted one waits for the reply |
| Boot.FirstUseEnterLeavePair | Src/base/BootManager.cpp:88-100 | first use launches the first-use app and pushes the boot-manager lock; leaving kills that same app and pops that same lock |
| Boot.NormalEnterLaunches | Src/base/BootManager.cpp:142-155 | the launcher is launched iff its descriptor exists, and the boot-time apps are always requested last |
| Boot.BootManager.constructor | Src/base/BootManager.cpp:175-177 | a fresh manager is in Startup with an empty log |
| Boot.BootManager.Leave | Src/base/BootManager.cpp:95-100 | only the first-use phase's leave kills the first-use app and pops the lock |
| Boot.BootManager.Enter | Src/base/BootManager.cpp:80-93 | the startup phase switches to first use or normal by the marker; first use launches and locks; normal launches |
| Boot.BootManager.LaunchBootTimeAppsInNormal | Src/base/BootManager.cpp:142-155 | the launcher launch only with a descriptor, then the boot-time apps |
| Boot.BootManager.SwitchState | Src/base/BootManager.cpp:248-257 | the log grows by leave, enter and post of the switch, the state is the final phase, the invariants are kept |
| Boot.BootManager.PostCurrentState | Src/base/BootManager.cpp:280-296 | one post carrying the name of the current phase |
| Boot.BootManager.OnInitialize | Src/base/BootManager.cpp:201-204 | after initialisation the phase is never Startup: first use without the marker, normal with it |
| Boot.BootManager.HandleEvent | Src/base/BootManager.cpp:259-262 | only the current phase's handler runs, with the outcome of EventOutcome |
| Boot.BootManager.CreateLocalAccount | Src/base/BootManager.cpp:108-126 | with the profile marker present nothing happens; otherwise the call is made and a refused call switches to Normal |
| Boot.BootManager.OnCreateLocalAccountReply | Src/base/BootManager.cpp:128-135 | whatever the reply says, the manager switches to Normal |
| Boot.BootManager.OnFileChanged | Src/base/BootManager.cpp:264-268 | FIRST_USE_DONE is raised only when the ran-first-use marker exists; otherwise nothing changes |
| Boot.BootFromScratch | Src/base/BootManager.cpp:175-204 | a new manager's first initialisation ends in first use without the marker and in normal with it |
| Memory.AllowNewNativeAppLaunch | Src/base/MemoryMonitor.cpp:219-227 | refused exactly in the Low and Critical states, whatever the requirement |
| Memory.AdmissionMonotone | Src/base/MemoryMonitor.cpp:219-227 | a launch allowed in some state is allowed in every lower state and for any requirement |
| Memory.NameForState | Src/base/MemoryMonitor.cpp:114-128 | each state gets its own name among Normal, Medium, Low and Critical, and the name reads back as the state |
| Memory.NameForStateInjective | Src/base/MemoryMonitor.cpp:114-128 | distinct states are logged under distinct names |
| Memory.RssMegabytes | Src/base/MemoryMonitor.cpp:156 | pages times 4096 divided by 1048576 is the floor of the megabytes, i.e. pages / 256, for a product within int |
| Memory.ReadWord | Src/base/MemoryMonitor.cpp:175 | a word read gives the next token, or fails the stream at its end |
| Memory.ReadInt | Src/base/MemoryMonitor.cpp:180 | an int read on a failed or exhausted stream stores nothing and leaves it failed; a token without a leading number stores 0 and fails the stream; an out-of-range number stores the nearest 32-bit limit and fails it; otherwise the number is stored, the stream stays good and the rest of the token is read next |
| Memory.ReadDecimal | Src/base/MemoryMonitor.cpp:180 | a token of decimal digits within int is read whole and the stream stays good |
| Memory.ReadEntry | Src/base/MemoryMonitor.cpp:180-181 | a good stream after value and label means both were stored |
| Memory.Chop | Src/base/MemoryMonitor.cpp:177 | the field name is the token without its last character |
| Memory.ToMegabytes | Src/base/MemoryMonitor.cpp:183-187 | kb in any case divides by 1024 with C truncation, mb keeps the value, any other label divides by 1048576 |
| Memory.KbIsNotMb | Src/base/MemoryMonitor.cpp:184-186 | the kb and mb branches never both apply |
| Memory.GetProcessMemInfo | Src/base/MemoryMonitor.cpp:159-213 | the loop computes exactly the scan of the token stream, -1 for a file that does not open |
| Memory.ScanKeepsRssWithoutField | Src/base/MemoryMonitor.cpp:175-205 | without a VmRSS line the scan never changes procRss |
| Memory.ScanKeepsSwapWithoutField | Src/base/MemoryMonitor.cpp:175-205 | without a VmSwap line the scan never changes procSwap |
| Memory.MissingFieldGivesMinusOne | Src/base/MemoryMonitor.cpp:209-210 | a status file lacking VmRSS or VmSwap gives -1 |
| Memory.ScanSkipsPlain | Src/base/MemoryMonitor.cpp:175-179 | lines other than the two fields are skipped |
| Memory.ScanRssLine | Src/base/MemoryMonitor.cpp:179-191 | a VmRSS line stores the normalised value and stops the scan once the swap value is known |
| Memory.ScanSwapLine | Src/base/MemoryMonitor.cpp:192-204 | a VmSwap line stores the normalised value and stops the scan once the rss value is known |
| Memory.WellFormedStatus | Src/base/MemoryMonitor.cpp:159-213 | a file with both lines, in either order, gives the sum of the two normalised values |
| Memory.MemoryMonitor.constructor | Src/base/MemoryMonitor.cpp:61-65 | a new monitor is in Normal with zero usage and no timer |
| Memory.MemoryMonitor.CurrentRssUsage | Src/base/MemoryMonitor.cpp:143-157 | an unreadable file gives the previous usage; otherwise the page arithmetic |
| Memory.MemoryMonitor.Start | Src/base/MemoryMonitor.cpp:106-112 | a running timer is left alone; otherwise it is started at 5000 ms |
| Memory.MemoryMonitor.TimerTicked | Src/base/MemoryMonitor.cpp:130-141 | always repeats; usage is untouched in Normal and sampled otherwise |
| Memory.StartTwice | Src/base/MemoryMonitor.cpp:106-112 | starting twice is the same as starting once |
| NativeApps.CStr | Src/remote/NativeAppManager.cpp:59 | a buffer's C string is its prefix before the first NUL |
| NativeApps.StrncpyReadsBack | Src/remote/NativeAppManager.cpp:100 | a copy that fits with its terminator reads back as the source |
| NativeApps.Strncpy | Src/remote/NativeAppManager.cpp:107 | exactly n characters are written, the source and then NUL padding, and nothing beyond |
| NativeApps.StrLen | Src/remote/NativeAppManager.cpp:112 | the length of the buffer's C string |
| NativeApps.StrippedPath | Src/remote/NativeAppManager.cpp:56-94 | either empty, exactly when no '/' lies in [1, len-2], or a proper prefix ending in '/' with no '/' after it |
| NativeApps.StripOneDirectoryLevel | Src/remote/NativeAppManager.cpp:56-94 | one NUL is written in place, at the length of the stripped path, and the buffer then holds that path |
| NativeApps.StripPoint | Src/remote/NativeAppManager.cpp:58-87 | the backward scan stops at the length of the stripped path: just past the last '/' after index 0 and before the last character, or 0 |
| NativeApps.BaseFileSplits | Src/remote/NativeAppManager.cpp:97-121 | stripped path followed by the base name is the full path; with nothing stripped the base name is the full path |
| NativeApps.GetBaseFile | Src/remote/NativeAppManager.cpp:97-121 | returns 1 and fills the buffer with the base name, NUL padded, as strncpy does |
| NativeApps.LastIndexOf | Src/remote/NativeAppManager.cpp:314 | the start of the last occurrence, none exactly when there is no occurrence, the start for an empty needle |
| NativeApps.SegmentAt | Src/remote/NativeAppManager.cpp:318-350 | the segment the two loops delimit never holds a '/' |
| NativeApps.SegmentAtMeaning | Src/remote/NativeAppManager.cpp:318-350 | the segment is the non-'/' run after the leading slashes and before a '/'; empty exactly when no '/' follows a non-slash character |
| NativeApps.AppIdFromExe | Src/remote/NativeAppManager.cpp:288-351 | a non-empty id needs a readable link and is '/'-free |
| NativeApps.AppIdFromPid | Src/remote/NativeAppManager.cpp:305-350 | the two pointer loops compute AppIdFromExe |
| NativeApps.ScanSegment | Src/remote/NativeAppManager.cpp:317-350 | the skip-slashes loop and the find-slash loop return SegmentAt from the given start |
| NativeApps.AppIdOfInstalledApp | Src/remote/NativeAppManager.cpp:313-350 | for a path of the form head, install prefix, slashes, id, '/', rest, within the 254-character copy, the extracted id is exactly id |
| NativeApps.TerminationNotice | Src/remote/NativeAppManager.cpp:218-235 | the notice carries the id extracted from the exe link; for an installed id it names the app by its menu name and its default launch point's title ("" without one), else "Application" with an empty title |
| NativeApps.ComposeTerminationNotice | Src/remote/NativeAppManager.cpp:218-235 | the lookups before the notice produce exactly TerminationNotice |
| NativeApps.KeysWithPid | Src/remote/NativeAppManager.cpp:246-255 | the keys whose entry holds the pid |
| NativeApps.EraseFirstWithPid | Src/remote/NativeAppManager.cpp:246-255 | at most one entry goes, the least key holding the pid, and the others keep their values |
| NativeApps.FirstKeyWithPid | Src/remote/NativeAppManager.cpp:246-255 | the loop finds the least key in map order that holds the pid, none exactly when no entry holds it |
| NativeApps.RemoveUndoesLaunch | Src/remote/NativeAppManager.cpp:194 | removing the pid of a fresh launch gives back the map before it |
| NativeApps.RemoveProcess | Src/remote/NativeAppManager.cpp:241-267 | exactly one entry goes if either map holds the pid; the web map is touched only when the native map has no entry with it |
| NativeApps.KillSignalsTargets | Src/remote/NativeAppManager.cpp:237 | a SIGKILL is sent to a pid exactly when it is in the list |
| NativeApps.NukeKillsEveryMember | Src/remote/NativeAppManager.cpp:276-286 | every member of the nuke set is killed, nothing else, once each, in ascending order |
| NativeApps.NativeAppManager.constructor | Src/remote/NativeAppManager.cpp:133-137 | empty maps, empty nuke set, timer idle |
| NativeApps.NativeAppManager.LaunchNativeProcess | Src/remote/NativeAppManager.cpp:143-202 | a known app gets its pid back with nothing changed and no admission check; refusal gives 0 and fork failure -1, both leaving the maps unchanged; success records exactly that entry |
| NativeApps.NativeAppManager.SuspendProcess | Src/remote/NativeAppManager.cpp:204-207 | one SIGSTOP to the pid |
| NativeApps.NativeAppManager.ResumeProcess | Src/remote/NativeAppManager.cpp:209-212 | one SIGCONT to the pid |
| NativeApps.NativeAppManager.ProcessRemoved | Src/remote/NativeAppManager.cpp:241-267 | the maps become RemoveProcess of the old maps, with a reap only when asked |
| NativeApps.NativeAppManager.KillProcess | Src/remote/NativeAppManager.cpp:214-239 | the optional notice, then SIGKILL, then removal of the pid |
| NativeApps.NativeAppManager.AddProcessToNukeList | Src/remote/NativeAppManager.cpp:269-274 | the pid is inserted into the set (idempotent) and the timer is restarted as a 2000 ms single shot |
| NativeApps.NativeAppManager.NukeProcessTimer | Src/remote/NativeAppManager.cpp:276-286 | each member killed in ascending order, the set emptied, no repeat |
| NativeApps.NativeAppManager.ChildProcessDied | Src/remote/NativeAppManager.cpp:359-364 | removal of the pid without reaping, then the pid handle closed |
| AppProcesses.FirstWithId | Src/remote/ApplicationProcessManager.cpp:92-98 | the first entry with the id, none exactly when no entry has it |
| AppProcesses.KillLogMatches | Src/remote/ApplicationProcessManager.cpp:73-80 | one kill per entry with the id, every such entry killed, no other process killed |
| AppProcesses.Without | Src/remote/ApplicationProcessManager.cpp:169 | the process is gone, and every other entry keeps its multiplicity |
| AppProcesses.WithoutConcat | Src/remote/ApplicationProcessManager.cpp:169 | removal works entry by entry, so the order of the others is kept |
| AppProcesses.WithoutAbsent | Src/remote/ApplicationProcessManager.cpp:169 | removing a process that is not listed changes nothing |
| AppProcesses.FinishUndoesStart | Src/remote/ApplicationProcessManager.cpp:158-169 | a started process that finishes leaves the list as it was before the start |
| AppProcesses.LauncherWindowName | Src/remote/ApplicationProcessManager.cpp:182-189 | "launcher" exactly for the launcher type, "card" for every other |
| AppProcesses.WebAppArgs | Src/remote/ApplicationProcessManager.cpp:191-196 | -u entry, -w window, -p params only for non-empty params, -a file: 6 or 8 arguments |
| AppProcesses.WebAppArgsRoundTrip | Src/remote/ApplicationProcessManager.cpp:191-196 | the command line parses back into entry point, window name, params and file |
| AppProcesses.NativeAppArgs | Src/remote/ApplicationProcessManager.cpp:203-204 | the params are the one argument, even when empty |
| AppProcesses.RouteAsWritten | Src/remote/ApplicationProcessManager.cpp:100-117 | as written, a missing descriptor reaches the dereference |
| AppProcesses.LaunchRoute | Src/remote/ApplicationProcessManager.cpp:100-117 | Web to the web launcher, Native/PDK/Qt to the native launcher, QML to -1, every other type and a missing descriptor to no launch |
| AppProcesses.LaunchOfUnknownAppDereferencesNull | Src/remote/ApplicationProcessManager.cpp:86-102 | an id neither lookup knows reaches the NULL dereference as written and no launch when corrected |
| AppProcesses.PidString | Src/remote/ApplicationProcessManager.cpp:124-128 | "" exactly for a pid that is not positive, otherwise digits that read back as the pid |
| AppProcesses.ApplicationProcessManager.constructor | Src/remote/ApplicationProcessManager.cpp:53-56 | an empty list |
| AppProcesses.ApplicationProcessManager.IsRunning | Src/remote/ApplicationProcessManager.cpp:58-66 | true iff some entry has the id |
| AppProcesses.ApplicationProcessManager.KillByAppId | Src/remote/ApplicationProcessManager.cpp:73-80 | the kills of KillLog, and the list itself untouched |
| AppProcesses.ApplicationProcessManager.LaunchProcess | Src/remote/ApplicationProcessManager.cpp:131-161 | one start; without Running -1 and an unchanged list, with it exactly one new entry carrying id and pid |
| AppProcesses.ApplicationProcessManager.LaunchWebApp | Src/remote/ApplicationProcessManager.cpp:173-199 | the app info is written, then the web launcher started with WebAppArgs |
| AppProcesses.ApplicationProcessManager.LaunchNativeApp | Src/remote/ApplicationProcessManager.cpp:201-207 | the entry point started with the params as its argument |
| AppProcesses.ApplicationProcessManager.LaunchQmlApp | Src/remote/ApplicationProcessManager.cpp:209-212 | always -1 |
| AppProcesses.ApplicationProcessManager.Launch | Src/remote/ApplicationProcessManager.cpp:82-129 | a running id gives the first entry's pid in decimal with nothing started; otherwise the route's launch, "" unless a positive pid results; a started process is appended under the descriptor's id (not necessarily `appId`) with the new pid |
| AppProcesses.ApplicationProcessManager.OnProcessFinished | Src/remote/ApplicationProcessManager.cpp:163-171 | every occurrence of the finished process removed, the rest kept |
| WebAppMgr.JsonBoolean | Src/remote/WebAppMgrProxy.cpp:112 | booleans as they are, integers and doubles non-zero, strings non-empty, anything else false |
| WebAppMgr.Int32Wrap | Src/remote/WebAppMgrProxy.cpp:320 | the 32-bit value json_object_new_int receives: equal within range, congruent modulo 2^32 |
| WebAppMgr.Unsigned64 | Src/remote/WebAppMgrProxy.cpp:268 | %llu reads a negative qint64 as its value plus 2^64 |
| WebAppMgr.KillPayloadNamesProcess | Src/remote/WebAppMgrProxy.cpp:268 | the kill payload's digits read back as the process id (as unsigned 64-bit) |
| WebAppMgr.WindowTypeName | Src/remote/WebAppMgrProxy.cpp:293-310 | launcher, dashboard, popupAlert, bannerAlert, statusBar for the five types, "card" exactly for every other |
| WebAppMgr.WindowTypeNameRoundTrip | Src/remote/WebAppMgrProxy.cpp:293-310 | the five named types and Card come back from their names, every other type as a card |
| WebAppMgr.LaunchUrlGuardAsWritten | Src/remote/WebAppMgrProxy.cpp:287-291 | as written, disconnected with no descriptor is a NULL dereference |
| WebAppMgr.LaunchUrlGuard | Src/remote/WebAppMgrProxy.cpp:287-291 | proceed exactly when connected; agrees with the written guard whenever a descriptor is given |
| WebAppMgr.LaunchUrlWithoutDescriptorWhileDisconnected | Src/remote/WebAppMgrProxy.cpp:287-291 | the default descriptor while disconnected dereferences NULL as written and is refused when corrected |
| WebAppMgr.ClassifyAppEvent | Src/remote/WebAppMgrProxy.cpp:211-232 | a start or finish only with event and appId strings and processId an int; "start" starts, "close" finishes, anything else does nothing |
| WebAppMgr.StatusChange | Src/remote/WebAppMgrProxy.cpp:100-116 | a status change exactly when the message parses and carries "connected", with its boolean reading |
| WebAppMgr.StartedLogEntries | Src/remote/WebAppMgrProxy.cpp:176-185 | one start notification per array entry, in array order |
| WebAppMgr.LaunchSucceedsExactlyWhenAllowed | Src/remote/WebAppMgrProxy.cpp:343-425 | "success" exactly when connected, known, non-empty id, not locked, and the final descriptor is a verified web app or a builtin launched by the launcher |
| WebAppMgr.LaunchErrorExactlyOnRefusal | Src/remote/WebAppMgrProxy.cpp:343-371 | an error message exactly for not found, empty id and locked; then the result is "" and nothing is launched, whatever the process ids passed |
| WebAppMgr.NotReadyAppRedirected | Src/remote/WebAppMgrProxy.cpp:373-385 | an app not ready and not in sucApps never launches itself: the software manager runs with "{}", and without it nothing |
| WebAppMgr.EmptyIdReportedAsNotFound | Src/remote/WebAppMgrProxy.cpp:351-364 | "No appId" only when the catalog has an entry under the empty id; otherwise the empty id is "not found" |
| WebAppMgr.OutcomeResult | Src/remote/WebAppMgrProxy.cpp:390-425 | "success" exactly for a web launch or builtin start, "" otherwise |
| WebAppMgr.OutcomeError | Src/remote/WebAppMgrProxy.cpp:355-371 | an error text exactly for the three refusals: `"<id>" was not found`, `No appId` and `"<id>" has been locked` |
| WebAppMgr.WebAppMgrProxy.constructor | Src/remote/WebAppMgrProxy.cpp:48-53 | starts disconnected and tries to connect |
| WebAppMgr.WebAppMgrProxy.ConnectWebAppMgr | Src/remote/WebAppMgrProxy.cpp:61-92 | nothing when connected; otherwise a status subscription, or a 2000 ms retry when registration fails |
| WebAppMgr.WebAppMgrProxy.RetryConnect | Src/remote/WebAppMgrProxy.cpp:55-59 | one connection attempt, appending the status subscription or a 2000 ms retry while disconnected and nothing when connected, and the timer does not repeat |
| WebAppMgr.WebAppMgrProxy.OnConnected | Src/remote/WebAppMgrProxy.cpp:123-146 | connected, announced, then the running-app list and the app-event subscription requested |
| WebAppMgr.WebAppMgrProxy.OnDisconnected | Src/remote/WebAppMgrProxy.cpp:148-157 | disconnected, every web application removed, then announced |
| WebAppMgr.WebAppMgrProxy.ServiceStatusCb | Src/remote/WebAppMgrProxy.cpp:94-121 | a present "connected" runs onConnected (announce, list running apps, register for events) or onDisconnected (drop web apps, announce), even when the flag already had that value; changes nothing otherwise; always keeps the subscription |
| WebAppMgr.WebAppMgrProxy.UpdateRunningApps | Src/remote/WebAppMgrProxy.cpp:166-190 | the loop sends StartedLog of the array, nothing without one |
| WebAppMgr.WebAppMgrProxy.HandleAppEvent | Src/remote/WebAppMgrProxy.cpp:199-236 | the notification ClassifyAppEvent names, or nothing |
| WebAppMgr.WebAppMgrProxy.KillApp | Src/remote/WebAppMgrProxy.cpp:257-277 | nothing while disconnected; otherwise one kill call with the printf payload |
| WebAppMgr.WebAppMgrProxy.LaunchUrl | Src/remote/WebAppMgrProxy.cpp:279-332 | nothing while disconnected; otherwise one call carrying the window-type name and the 32-bit process id |
| WebAppMgr.WebAppMgrProxy.LaunchApp | Src/remote/WebAppMgrProxy.cpp:334-426 | the step-by-step chain gives exactly the result, error text and calls of DecideLaunch |
| WebAppMgr.WebAppMgrProxy.Relaunch | Src/remote/WebAppMgrProxy.cpp:428-450 | nothing while disconnected; otherwise one relaunch call |
| WebAppMgr.WebAppMgrProxy.ClearMemoryCaches | Src/remote/WebAppMgrProxy.cpp:452-467 | nothing while disconnected; otherwise one clear call |
| WebAppMgr.WebAppMgrProxy.ClearMemoryCachesForProcess | Src/remote/WebAppMgrProxy.cpp:469-490 | nothing while disconnected; otherwise one clear call for the 32-bit process id |
| WebAppMgr.WebAppMgrProxy.ClearMemoryCachesForApp | Src/remote/WebAppMgrProxy.cpp:492-514 | nothing while disconnected; otherwise one clear call for the app |
| WebAppMgr.ConnectThenDisconnect | Src/remote/WebAppMgrProxy.cpp:123-157 | a connect then a disconnect leaves the proxy disconnected with both changes announced and the web apps dropped |

## Left out

- The luna-service transport (LSRegister, LSCall, LSSubscriptionPost, LSMessageReply) and JSON building and parsing through json-c. Calls are effect entries. Payloads arrive parsed, as records or as `JsonObject` maps.
- `cbGetStatus` (Src/base/BootManager.cpp:298-331). This is the luna-service getStatus reply; its state name is `BootStateToStr` of the current phase. The service registration in `startService`/`stopService` is also left out.
- The directory watcher and the zero-delay timer of the boot manager's constructor. `OnInitialize` and `OnFileChanged` are explicit method calls, with the marker files given in `Environment`.
- OS process work:
  - `fork`, `execv`, `waitid` and the signals themselves;
  - cgroups and CPU affinity in `PrvForkFunction`/`PrvLaunchProcess`;
  - `pdkGenerateRole`;
  - reading the `/proc/<pid>/exe` link.

  Pids, link contents and fork results are parameters.
- The argv assembly of `launchNativeProcess` (Src/remote/NativeAppManager.cpp:167-176). It copies the terminating NULL into every slot and leaves one slot uninitialised, so no property is stated about it. `appType` is accepted and unused, as there.
- `monitorNativeProcessMemory` (empty body) and the memory watch it would add. `adjustOomScore` file I/O. The `snprintf` of the statm file name.
- `Memory.MemoryMonitor.CurrentRssUsage`: when `fscanf` fails to read the second number, `rssSize` is uninitialised. The model takes the read page count as input (`None` only for a file that does not open). The product `rssSize * 4096` is required to fit in `int`, because the source's signed overflow is undefined.
- `Memory.GetProcessMemInfo`: the status file is given as its whitespace-separated tokens, and the `/proc` path formatting is not modelled. `procRss + procSwap` is plain integer addition; the `int` overflow of a sum above 2^31 - 1 is not modelled.
- MemoryMonitor.h is not part of this model. `allowNewNativeAppLaunch` (Src/base/MemoryMonitor.cpp:221-222) tests `m_state >= Low` and calls Low and Critical the states at or above that threshold; Medium's place below Low, giving Normal < Medium < Low < Critical, is assumed from the declaration order of the enum in that header. No code shown assigns `m_state`, so `state` changes only through the constructor.
- QProcess environment, channel mode and the temporary file itself. `WriteAppInfo` stands for writing the descriptor's `toString()`, which is not modelled, and the file name is a parameter.
- `ApplicationProcessManager::notifyApplicationHasStarted`, `notifyApplicationHasFinished` and `removeAllWebApplications` are not in the ApplicationProcessManager.cpp this model covers. The proxy's calls of them are effect entries. The `WebApplication` objects are not modelled.
- `WebAppMgr.WebAppMgrProxy.UpdateRunningApps`: entries are taken as (appId, processId) records. json-c's coercions in `json_object_get_string`/`json_object_get_int` are not modelled. Neither is the undefined behaviour of an entry without an "appId" (a NULL handed to `std::string`).
- `WebAppMgr.ClassifyAppEvent`: a JSON integer is taken as already 32-bit, as `json_object_get_int` returns it.
- `setAppToLaunchUponConnection` stores a string no code shown reads. `instance()` singletons and destructors are not modelled.
- `ApplicationDescription::toJSON`, `startSysmgrBuiltIn` and `Settings` are outside the model. `sucApps` and the catalog are parameters; the perf-testing log line is dropped.
- Compositor events, `activateSuspend` and the display-blocker methods are declared without behaviour in the headers, so they have nothing to model.
- Logging (`g_warning`, `qDebug`, `g_message`) is not modelled.
- NativeApps.GetBaseFile: requires the path to be shorter than PATH_MAX. For a longer one `strncpy(workingPath, fullPath, PATH_MAX)` leaves `workingPath` without a terminator and `stripOneDirectoryLevel`'s `strlen` reads past the buffer, which is undefined behaviour (Src/remote/NativeAppManager.cpp:98-100).
- One Dafny `char` stands for one C byte (`char`/`gchar`). The 254-character cut of the exe link, `strncpy`'s count, `strlen` and the `std::map` key order all count and compare bytes, so a multi-byte UTF-8 character is several `char`s here.
- JSON doubles appear only where `json_object_get_boolean` reads them (non-zero is true); every other reader in the model takes its typed value.

## Findings

| source | as written | input that shows it | evidently intended | confidence | as-written member | corrected member |
|---|---|---|---|---|---|---|
| Src/remote/ApplicationProcessManager.cpp:100-102 | `switch (desc->type())` runs even when neither `getPendingAppById` nor `getAppById` found a descriptor | `launch("org.webosports.app.firstuse", "")` from the first-use phase when that app is not installed and not running | no launch for an unknown id, so `launch` answers "" (the normal phase checks the descriptor before launching the launcher) | not executed | AppProcesses.RouteAsWritten, AppProcesses.LaunchOfUnknownAppDereferencesNull | AppProcesses.LaunchRoute |
| Src/remote/WebAppMgrProxy.cpp:287-291 | the disconnected warning reads `appDesc->id()`, while `appDesc` defaults to 0 (WebAppMgrProxy.h:44-47) and is tested for NULL at line 316 | `launchUrl("http://example.org")` while the manager is disconnected | refuse the call without reading the descriptor | not executed | WebAppMgr.LaunchUrlGuardAsWritten, WebAppMgr.LaunchUrlWithoutDescriptorWhileDisconnected | WebAppMgr.LaunchUrlGuard |
