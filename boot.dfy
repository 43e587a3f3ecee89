/** The boot state machine of BootManager.cpp: three phases, each with enter,
    leave and event handlers, switched by a re-entrant switchState that leaves,
    assigns, enters and publishes. Marker files, the launcher descriptor and the
    outcome of the account-service call are inputs; every outbound call is an
    entry of the manager's effect log. */
module Boot {
  import opened Common

  /** enum BootState, BOOT_STATE_MAX included. */
  datatype BootState = Startup | FirstUse | Normal | Max

  /** enum BootEvent. */
  datatype BootEvent = FirstUseDone | CompositorAvailable | CompositorNotAvailable

  const FIRST_USE_APP: string := "org.webosports.app.firstuse"
  const LAUNCHER_APP: string := "com.palm.launcher"
  const DNAST_CLIENT: string := "org.webosports.bootmgr"
  const CREATE_LOCAL_ACCOUNT_URI: string := "palm://com.palm.service.accounts/createLocalAccount"

  /** What the phases read from the outside world at the moment they run. */
  datatype Environment = Environment(
    ranFirstUse: bool,          // /var/luna/preferences/ran-first-use exists
    profileCreated: bool,       // /var/luna/preferences/first-use-profile-created exists
    launcherInstalled: bool)    // getAppById("com.palm.launcher") found a descriptor

  /** The manager's observable behaviour, in order. `Left` and `Entered` mark the
      calls of a phase's leave() and enter(). */
  datatype Effect =
    | Left(left: BootState)
    | Entered(entered: BootState)
    | LaunchApp(appId: string, params: string)   // ApplicationProcessManager::launch
    | KillApp(killedId: string)                  // ApplicationProcessManager::killByAppId
    | PushDnast(pushed: string)                  // DisplayManager::pushDNAST
    | PopDnast(popped: string)                   // DisplayManager::popDNAST
    | LaunchBootTimeApps                         // ApplicationManager::launchBootTimeApps
    | CallCreateLocalAccount(uri: string)        // LSCall to the accounts service
    | PostState(stateName: string)               // getStatus subscription post {"state": ...}

  /** The name published for a phase; BOOT_STATE_MAX, the only other value,
      falls through the switch. */
  function BootStateToStr(s: BootState): (r: string)
    ensures s == Startup <==> r == "startup"
    ensures s == FirstUse <==> r == "firstuse"
    ensures s == Normal <==> r == "normal"
    ensures s == Max <==> r == "unknown"
  {
    match s
    case Startup => "startup"
    case FirstUse => "firstuse"
    case Normal => "normal"
    case Max => "unknown"
  }

  /** How a getStatus subscriber reads the published name back. */
  function ParseBootState(name: string): (r: Option<BootState>)
  {
    if name == "startup" then Some(Startup)
    else if name == "firstuse" then Some(FirstUse)
    else if name == "normal" then Some(Normal)
    else None
  }

  /** The published names identify the real phases; "unknown" names none. */
  lemma BootStateNameRoundTrip(s: BootState, name: string)
    ensures s != Max ==> ParseBootState(BootStateToStr(s)) == Some(s)
    ensures ParseBootState(name) == Some(s) ==> s != Max && BootStateToStr(s) == name
    ensures ParseBootState(BootStateToStr(Max)) == None
  {
  }

  /** Startup.enter's choice: first use until the ran-first-use marker exists. */
  function NextFromStartup(env: Environment): BootState {
    if env.ranFirstUse then Normal else FirstUse
  }

  function Rank(s: BootState): nat {
    if s == Startup then 1 else 0
  }

  /** The phase a switchState(target) call ends in. */
  function FinalState(target: BootState, env: Environment): BootState {
    if target == Startup then NextFromStartup(env) else target
  }

  function LeaveEffects(s: BootState): seq<Effect> {
    [Left(s)] + (if s == FirstUse then [KillApp(FIRST_USE_APP), PopDnast(DNAST_CLIENT)] else [])
  }

  function NormalEnterEffects(env: Environment): seq<Effect> {
    (if env.launcherInstalled then [LaunchApp(LAUNCHER_APP, "")] else []) + [LaunchBootTimeApps]
  }

  /** What a phase's enter() does after the `Entered` marker. */
  function EnterEffects(s: BootState, env: Environment): seq<Effect>
    requires s != Max
    decreases Rank(s), 0
  {
    match s
    case Startup => SwitchLog(Startup, NextFromStartup(env), env)
    case FirstUse => [LaunchApp(FIRST_USE_APP, ""), PushDnast(DNAST_CLIENT)]
    case Normal => NormalEnterEffects(env)
  }

  /** Everything switchState(target) does when the current phase is `from`. */
  function SwitchLog(from: BootState, target: BootState, env: Environment): seq<Effect>
    requires from != Max && target != Max
    decreases Rank(target), 1
  {
    LeaveEffects(from) + [Entered(target)] + EnterEffects(target, env)
      + [PostState(BootStateToStr(FinalState(target, env)))]
  }

  // ---------------------------------------------------------------------------
  // Leave-before-enter, stated over the markers of a log.

  predicate IsMarker(e: Effect) {
    e.Left? || e.Entered?
  }

  function Markers(log: seq<Effect>): seq<Effect> {
    if log == [] then []
    else (if IsMarker(log[0]) then [log[0]] else []) + Markers(log[1..])
  }

  /** The markers come in pairs Left(s) Entered(t), each Left naming the phase
      entered last (or `from` at the start), and the last phase entered is `to`. */
  ghost predicate Alternates(m: seq<Effect>, from: BootState, to: BootState)
    decreases |m|
  {
    if m == [] then from == to
    else |m| >= 2 && m[0] == Left(from) && m[1].Entered? && Alternates(m[2..], m[1].entered, to)
  }

  lemma {:induction false} MarkersConcat(a: seq<Effect>, b: seq<Effect>)
    ensures Markers(a + b) == Markers(a) + Markers(b)
    decreases |a|
  {
    if a == [] {
      assert a + b == b;
    } else {
      assert (a + b)[0] == a[0];
      assert (a + b)[1..] == a[1..] + b;
      MarkersConcat(a[1..], b);
    }
  }

  lemma {:induction false} AlternatesConcat(a: seq<Effect>, b: seq<Effect>, s: BootState, t: BootState, u: BootState)
    requires Alternates(a, s, t) && Alternates(b, t, u)
    ensures Alternates(a + b, s, u)
    decreases |a|
  {
    if a == [] {
      assert a + b == b;
    } else {
      assert (a + b)[0] == a[0] && (a + b)[1] == a[1];
      assert (a + b)[2..] == a[2..] + b;
      AlternatesConcat(a[2..], b, a[1].entered, t, u);
    }
  }

  lemma LeaveMarkers(s: BootState)
    ensures Markers(LeaveEffects(s)) == [Left(s)]
  {
    var tail := if s == FirstUse then [KillApp(FIRST_USE_APP), PopDnast(DNAST_CLIENT)] else [];
    MarkersConcat([Left(s)], tail);
    if s == FirstUse {
      MarkersConcat([KillApp(FIRST_USE_APP)], [PopDnast(DNAST_CLIENT)]);
    }
  }

  lemma NormalEnterMarkers(env: Environment)
    ensures Markers(NormalEnterEffects(env)) == []
  {
    var l := if env.launcherInstalled then [LaunchApp(LAUNCHER_APP, "")] else [];
    MarkersConcat(l, [LaunchBootTimeApps]);
  }

  lemma FirstUseEnterMarkers()
    ensures Markers([LaunchApp(FIRST_USE_APP, ""), PushDnast(DNAST_CLIENT)]) == []
  {
    MarkersConcat([LaunchApp(FIRST_USE_APP, "")], [PushDnast(DNAST_CLIENT)]);
  }

  /** The markers of a switch: this switch's pair, then those of its enter(). */
  lemma SwitchLogMarkers(from: BootState, target: BootState, env: Environment)
    requires from != Max && target != Max
    ensures Markers(SwitchLog(from, target, env))
      == [Left(from), Entered(target)] + Markers(EnterEffects(target, env))
  {
    var post := [PostState(BootStateToStr(FinalState(target, env)))];
    var enter := EnterEffects(target, env);
    var head := LeaveEffects(from) + [Entered(target)];
    var body := head + enter;
    assert SwitchLog(from, target, env) == body + post;
    MarkersConcat(body, post);
    MarkersConcat(head, enter);
    MarkersConcat(LeaveEffects(from), [Entered(target)]);
    LeaveMarkers(from);
    assert Markers(post) == [];
    assert Markers([Entered(target)]) == [Entered(target)];
    assert Markers(head) == [Left(from), Entered(target)];
    assert Markers(body + post) == Markers(head) + Markers(enter);
  }

  /** Every switch leaves the old phase before it enters the new one; a nested
      switch from Startup.enter keeps the pairing. */
  lemma {:induction false} SwitchLogAlternates(from: BootState, target: BootState, env: Environment)
    requires from != Max && target != Max
    ensures Alternates(Markers(SwitchLog(from, target, env)), from, FinalState(target, env))
    decreases Rank(target)
  {
    SwitchLogMarkers(from, target, env);
    var em := Markers(EnterEffects(target, env));
    var m := [Left(from), Entered(target)] + em;
    assert m[2..] == em;
    if target == Startup {
      SwitchLogAlternates(Startup, NextFromStartup(env), env);
    } else if target == FirstUse {
      FirstUseEnterMarkers();
    } else {
      NormalEnterMarkers(env);
    }
  }

  /** Every post of a switch, the nested one included, reports the phase the
      switch ends in, and the switch ends with such a post. */
  lemma {:induction false} SwitchLogPostsFinal(from: BootState, target: BootState, env: Environment)
    requires from != Max && target != Max
    ensures var log := SwitchLog(from, target, env);
      && log[|log| - 1] == PostState(BootStateToStr(FinalState(target, env)))
      && forall i :: 0 <= i < |log| && log[i].PostState? ==>
           log[i].stateName == BootStateToStr(FinalState(target, env))
    decreases Rank(target)
  {
    var log := SwitchLog(from, target, env);
    var final := BootStateToStr(FinalState(target, env));
    var head := LeaveEffects(from) + [Entered(target)];
    var enter := EnterEffects(target, env);
    assert log == head + enter + [PostState(final)];
    if target == Startup {
      SwitchLogPostsFinal(Startup, NextFromStartup(env), env);
    }
    assert forall i :: 0 <= i < |enter| && enter[i].PostState? ==> enter[i].stateName == final;
    assert forall i :: 0 <= i < |head| ==> !head[i].PostState?;
    forall i | 0 <= i < |log| && log[i].PostState?
      ensures log[i].stateName == final
    {
      if |head| <= i < |head| + |enter| {
        assert log[i] == enter[i - |head|];
      }
    }
  }

  // ---------------------------------------------------------------------------
  // The display lock (DNAST) is held exactly while the first-use phase is current.

  function DnastBalance(log: seq<Effect>): int {
    if log == [] then 0
    else (if log[0].PushDnast? then 1 else if log[0].PopDnast? then -1 else 0) + DnastBalance(log[1..])
  }

  function Held(s: BootState): int {
    if s == FirstUse then 1 else 0
  }

  lemma {:induction false} DnastBalanceConcat(a: seq<Effect>, b: seq<Effect>)
    ensures DnastBalance(a + b) == DnastBalance(a) + DnastBalance(b)
    decreases |a|
  {
    if a == [] {
      assert a + b == b;
    } else {
      assert (a + b)[0] == a[0];
      assert (a + b)[1..] == a[1..] + b;
      DnastBalanceConcat(a[1..], b);
    }
  }

  lemma LeaveDnast(s: BootState)
    ensures DnastBalance(LeaveEffects(s)) == -Held(s)
  {
    var tail := if s == FirstUse then [KillApp(FIRST_USE_APP), PopDnast(DNAST_CLIENT)] else [];
    DnastBalanceConcat([Left(s)], tail);
    if s == FirstUse {
      DnastBalanceConcat([KillApp(FIRST_USE_APP)], [PopDnast(DNAST_CLIENT)]);
    }
  }

  lemma NormalEnterDnast(env: Environment)
    ensures DnastBalance(NormalEnterEffects(env)) == 0
  {
    var l := if env.launcherInstalled then [LaunchApp(LAUNCHER_APP, "")] else [];
    DnastBalanceConcat(l, [LaunchBootTimeApps]);
  }

  lemma FirstUseEnterDnast()
    ensures DnastBalance([LaunchApp(FIRST_USE_APP, ""), PushDnast(DNAST_CLIENT)]) == 1
  {
    DnastBalanceConcat([LaunchApp(FIRST_USE_APP, "")], [PushDnast(DNAST_CLIENT)]);
  }

  /** A switch releases the lock iff it leaves the first-use phase and takes it
      iff it ends there. */
  lemma {:induction false} SwitchLogDnast(from: BootState, target: BootState, env: Environment)
    requires from != Max && target != Max
    ensures DnastBalance(SwitchLog(from, target, env)) == Held(FinalState(target, env)) - Held(from)
    decreases Rank(target)
  {
    var post := [PostState(BootStateToStr(FinalState(target, env)))];
    var enter := EnterEffects(target, env);
    DnastBalanceConcat(LeaveEffects(from) + [Entered(target)] + enter, post);
    DnastBalanceConcat(LeaveEffects(from) + [Entered(target)], enter);
    DnastBalanceConcat(LeaveEffects(from), [Entered(target)]);
    LeaveDnast(from);
    assert DnastBalance(post) == 0;
    assert DnastBalance([Entered(target)]) == 0;
    if target == Startup {
      SwitchLogDnast(Startup, NextFromStartup(env), env);
    } else if target == FirstUse {
      FirstUseEnterDnast();
    } else {
      NormalEnterDnast(env);
    }
  }

  /** Appending effects that are neither markers nor lock operations. */
  lemma AppendPlain(log0: seq<Effect>, e: Effect)
    requires !IsMarker(e) && !e.PushDnast? && !e.PopDnast?
    ensures Markers(log0 + [e]) == Markers(log0)
    ensures DnastBalance(log0 + [e]) == DnastBalance(log0)
  {
    MarkersConcat(log0, [e]);
    DnastBalanceConcat(log0, [e]);
  }

  /** The two invariants survive a switch appended to a log that satisfied them. */
  lemma AppendSwitch(log0: seq<Effect>, from: BootState, target: BootState, env: Environment)
    requires from != Max && target != Max
    requires Alternates(Markers(log0), Startup, from) && DnastBalance(log0) == Held(from)
    ensures Alternates(Markers(log0 + SwitchLog(from, target, env)), Startup, FinalState(target, env))
    ensures DnastBalance(log0 + SwitchLog(from, target, env)) == Held(FinalState(target, env))
  {
    MarkersConcat(log0, SwitchLog(from, target, env));
    SwitchLogAlternates(from, target, env);
    AlternatesConcat(Markers(log0), Markers(SwitchLog(from, target, env)), Startup, from, FinalState(target, env));
    DnastBalanceConcat(log0, SwitchLog(from, target, env));
    SwitchLogDnast(from, target, env);
  }

  /** The log of switchState assembled from its four steps keeps both invariants. */
  lemma SwitchSteps(log0: seq<Effect>, head: seq<Effect>, entered: seq<Effect>, log: seq<Effect>,
                    from: BootState, target: BootState, env: Environment)
    requires from != Max && target != Max
    requires Alternates(Markers(log0), Startup, from) && DnastBalance(log0) == Held(from)
    requires head == log0 + LeaveEffects(from) + [Entered(target)]
    requires entered == head + EnterEffects(target, env)
    requires log == entered + [PostState(BootStateToStr(FinalState(target, env)))]
    ensures log == log0 + SwitchLog(from, target, env)
    ensures Alternates(Markers(log), Startup, FinalState(target, env))
    ensures DnastBalance(log) == Held(FinalState(target, env))
  {
    var post := [PostState(BootStateToStr(FinalState(target, env)))];
    var enter := EnterEffects(target, env);
    var step := LeaveEffects(from) + [Entered(target)];
    assert SwitchLog(from, target, env) == step + enter + post;
    assert head == log0 + step;
    assert log == log0 + (step + enter + post);
    AppendSwitch(log0, from, target, env);
  }

  /** The state between `m_currentState = state` and `enter()`: the switch's
      pair of markers is logged and the lock has been released. */
  lemma AppendLeaveEnter(log0: seq<Effect>, from: BootState, target: BootState)
    requires from != Max && target != Max
    requires Alternates(Markers(log0), Startup, from) && DnastBalance(log0) == Held(from)
    ensures Alternates(Markers(log0 + LeaveEffects(from) + [Entered(target)]), Startup, target)
    ensures DnastBalance(log0 + LeaveEffects(from) + [Entered(target)]) == 0
  {
    var step := LeaveEffects(from) + [Entered(target)];
    assert log0 + LeaveEffects(from) + [Entered(target)] == log0 + step;
    LeaveEnterStep(from, target);
    MarkersConcat(log0, step);
    AlternatesConcat(Markers(log0), [Left(from), Entered(target)], Startup, from, target);
    DnastBalanceConcat(log0, step);
  }

  /** leave() followed by the `Entered` marker: one marker pair, the lock released. */
  lemma LeaveEnterStep(from: BootState, target: BootState)
    requires from != Max && target != Max
    ensures Markers(LeaveEffects(from) + [Entered(target)]) == [Left(from), Entered(target)]
    ensures Alternates([Left(from), Entered(target)], from, target)
    ensures DnastBalance(LeaveEffects(from) + [Entered(target)]) == -Held(from)
  {
    MarkersConcat(LeaveEffects(from), [Entered(target)]);
    LeaveMarkers(from);
    assert Markers([Entered(target)]) == [Entered(target)];
    var pair := [Left(from), Entered(target)];
    assert pair[2..] == [];
    DnastBalanceConcat(LeaveEffects(from), [Entered(target)]);
    LeaveDnast(from);
    assert DnastBalance([Entered(target)]) == 0;
  }

  // ---------------------------------------------------------------------------
  // Events and the local-account step of the first-use phase.

  /** A handled FIRST_USE_DONE: the first-use phase is current and the profile
      marker is absent, so the accounts service is called. */
  predicate CallsAccountService(cur: BootState, event: BootEvent, env: Environment) {
    cur == FirstUse && event == FirstUseDone && !env.profileCreated
  }

  /** What handleEvent does; `accepted` is whether LSCall accepted the request. */
  function EventEffects(cur: BootState, event: BootEvent, env: Environment, accepted: bool): seq<Effect>
    requires cur != Max
  {
    if CallsAccountService(cur, event, env) then
      [CallCreateLocalAccount(CREATE_LOCAL_ACCOUNT_URI)]
        + (if accepted then [] else SwitchLog(FirstUse, Normal, env))
    else []
  }

  function StateAfterEvent(cur: BootState, event: BootEvent, env: Environment, accepted: bool): BootState {
    if CallsAccountService(cur, event, env) && !accepted then Normal else cur
  }

  /** Only FIRST_USE_DONE in the first-use phase does anything, and only with
      the profile marker absent; a refused call switches to Normal at once
      (leaving first use, entering Normal), an accepted one leaves the phase
      alone until its reply. */
  lemma EventOutcome(cur: BootState, event: BootEvent, env: Environment, accepted: bool)
    requires cur != Max
    ensures !CallsAccountService(cur, event, env) ==>
      EventEffects(cur, event, env, accepted) == [] && StateAfterEvent(cur, event, env, accepted) == cur
    ensures CallsAccountService(cur, event, env) && !accepted ==>
      StateAfterEvent(cur, event, env, accepted) == Normal
      && EventEffects(cur, event, env, accepted)[..4]
         == [CallCreateLocalAccount(CREATE_LOCAL_ACCOUNT_URI), Left(FirstUse), KillApp(FIRST_USE_APP), PopDnast(DNAST_CLIENT)]
    ensures CallsAccountService(cur, event, env) && accepted ==>
      EventEffects(cur, event, env, accepted) == [CallCreateLocalAccount(CREATE_LOCAL_ACCOUNT_URI)]
      && StateAfterEvent(cur, event, env, accepted) == FirstUse
  {
  }

  /** The first-use phase launches the first-use app and takes the display lock;
      leaving it kills that same app and releases that same lock. */
  lemma FirstUseEnterLeavePair(env: Environment)
    ensures var e := EnterEffects(FirstUse, env); var l := LeaveEffects(FirstUse);
      && e == [LaunchApp(FIRST_USE_APP, ""), PushDnast(DNAST_CLIENT)]
      && l == [Left(FirstUse), KillApp(e[0].appId), PopDnast(e[1].pushed)]
  {
  }

  /** Normal.enter launches the launcher only when its descriptor exists and
      always asks for the boot-time applications, last. */
  lemma NormalEnterLaunches(env: Environment)
    ensures var e := EnterEffects(Normal, env);
      && e[|e| - 1] == LaunchBootTimeApps
      && (LaunchApp(LAUNCHER_APP, "") in e <==> env.launcherInstalled)
  {
  }

  // ---------------------------------------------------------------------------

  class BootManager {
    var currentState: BootState
    /** Accounts-service calls accepted and not yet answered. */
    var pendingAccountReplies: nat
    var effects: seq<Effect>

    /** The phase is a real one; over the whole log every enter() was preceded
        by the leave() of the phase before it; the display lock is held exactly
        in the first-use phase. */
    ghost predicate Valid()
      reads this
    {
      && currentState != Max
      && Alternates(Markers(effects), Startup, currentState)
      && DnastBalance(effects) == Held(currentState)
    }

    /** Between the assignment in switchState and the call of enter(). */
    ghost predicate Entering()
      reads this
    {
      && currentState != Max
      && Alternates(Markers(effects), Startup, currentState)
      && DnastBalance(effects) == 0
    }

    constructor ()
      ensures Valid()
      ensures currentState == Startup && pendingAccountReplies == 0 && effects == []
    {
      currentState := Startup;
      pendingAccountReplies := 0;
      effects := [];
    }

    method Leave()
      requires currentState != Max
      modifies this`effects
      ensures effects == old(effects) + LeaveEffects(currentState)
    {
      effects := effects + [Left(currentState)];
      if currentState == FirstUse {
        effects := effects + [KillApp(FIRST_USE_APP)];
        effects := effects + [PopDnast(DNAST_CLIENT)];
      }
    }

    /** The current phase's enter(). */
    method Enter(env: Environment)
      requires Entering()
      modifies this
      ensures currentState == FinalState(old(currentState), env)
      ensures effects == old(effects) + EnterEffects(old(currentState), env)
      ensures pendingAccountReplies == old(pendingAccountReplies)
      decreases Rank(currentState), 0
    {
      match currentState
      case Startup =>
        if !env.ranFirstUse {
          SwitchState(FirstUse, env);
        } else {
          SwitchState(Normal, env);
        }
      case FirstUse =>
        effects := effects + [LaunchApp(FIRST_USE_APP, "")];
        effects := effects + [PushDnast(DNAST_CLIENT)];
      case Normal =>
        LaunchBootTimeAppsInNormal(env);
    }

    /** BootStateNormal::launchBootTimeApps. */
    method LaunchBootTimeAppsInNormal(env: Environment)
      modifies this`effects
      ensures effects == old(effects) + NormalEnterEffects(env)
    {
      if env.launcherInstalled {
        effects := effects + [LaunchApp(LAUNCHER_APP, "")];
      }
      effects := effects + [LaunchBootTimeApps];
    }

    /** BootManager::switchState: leave, assign, enter, publish. */
    method SwitchState(target: BootState, env: Environment)
      requires Valid() && target != Max
      modifies this
      ensures Valid()
      ensures currentState == FinalState(target, env)
      ensures effects == old(effects) + SwitchLog(old(currentState), target, env)
      ensures pendingAccountReplies == old(pendingAccountReplies)
      decreases Rank(target), 1
    {
      ghost var from := currentState;
      ghost var log0 := effects;
      Leave();
      currentState := target;
      effects := effects + [Entered(target)];
      AppendLeaveEnter(log0, from, target);
      ghost var head := effects;
      Enter(env);
      ghost var entered := effects;
      PostCurrentState();
      SwitchSteps(log0, head, entered, effects, from, target, env);
    }

    /** BootManager::postCurrentState. */
    method PostCurrentState()
      requires currentState != Max
      modifies this`effects
      ensures effects == old(effects) + [PostState(BootStateToStr(currentState))]
    {
      effects := effects + [PostState(BootStateToStr(currentState))];
    }

    /** BootManager::onInitialize, run once from a zero-delay timer. */
    method OnInitialize(env: Environment)
      requires Valid()
      modifies this
      ensures Valid()
      ensures currentState == NextFromStartup(env) && currentState != Startup
      ensures effects == old(effects) + SwitchLog(old(currentState), Startup, env)
      ensures pendingAccountReplies == old(pendingAccountReplies)
    {
      SwitchState(Startup, env);
    }

    /** BootManager::handleEvent: only the current phase's handler runs. */
    method HandleEvent(event: BootEvent, env: Environment, accepted: bool)
      requires Valid()
      modifies this
      ensures Valid()
      ensures currentState == StateAfterEvent(old(currentState), event, env, accepted)
      ensures effects == old(effects) + EventEffects(old(currentState), event, env, accepted)
      ensures pendingAccountReplies == old(pendingAccountReplies)
        + (if CallsAccountService(old(currentState), event, env) && accepted then 1 else 0)
    {
      if currentState == FirstUse && event == FirstUseDone {
        CreateLocalAccount(env, accepted);
      }
    }

    /** BootStateFirstUse::createLocalAccount. */
    method CreateLocalAccount(env: Environment, accepted: bool)
      requires Valid() && currentState == FirstUse
      modifies this
      ensures Valid()
      ensures currentState == StateAfterEvent(FirstUse, FirstUseDone, env, accepted)
      ensures effects == old(effects) + EventEffects(FirstUse, FirstUseDone, env, accepted)
      ensures pendingAccountReplies ==
        old(pendingAccountReplies) + (if !env.profileCreated && accepted then 1 else 0)
    {
      if !env.profileCreated {
        AppendPlain(effects, CallCreateLocalAccount(CREATE_LOCAL_ACCOUNT_URI));
        effects := effects + [CallCreateLocalAccount(CREATE_LOCAL_ACCOUNT_URI)];
        if !accepted {
          SwitchState(Normal, env);
        } else {
          pendingAccountReplies := pendingAccountReplies + 1;
        }
      }
    }

    /** BootStateFirstUse::cbCreateLocalAccount: whatever the reply says, and
        whatever the phase is by then, switch to Normal. */
    method OnCreateLocalAccountReply(env: Environment)
      requires Valid() && pendingAccountReplies > 0
      modifies this
      ensures Valid()
      ensures currentState == Normal
      ensures effects == old(effects) + SwitchLog(old(currentState), Normal, env)
      ensures pendingAccountReplies == old(pendingAccountReplies) - 1
    {
      pendingAccountReplies := pendingAccountReplies - 1;
      SwitchState(Normal, env);
    }

    /** BootManager::onFileChanged: FIRST_USE_DONE once the ran-first-use marker exists. */
    method OnFileChanged(path: string, env: Environment, accepted: bool)
      requires Valid()
      modifies this
      ensures Valid()
      ensures !env.ranFirstUse ==> currentState == old(currentState) && effects == old(effects)
      ensures env.ranFirstUse ==>
        currentState == StateAfterEvent(old(currentState), FirstUseDone, env, accepted)
        && effects == old(effects) + EventEffects(old(currentState), FirstUseDone, env, accepted)
      ensures pendingAccountReplies == old(pendingAccountReplies)
        + (if env.ranFirstUse && CallsAccountService(old(currentState), FirstUseDone, env) && accepted then 1 else 0)
    {
      if env.ranFirstUse {
        HandleEvent(FirstUseDone, env, accepted);
      }
    }
  }

  /** A fresh manager starts in Startup; its first initialisation ends in the
      first-use phase when the ran-first-use marker is absent and in Normal
      otherwise. */
  method BootFromScratch(env: Environment) returns (m: BootManager)
    ensures fresh(m) && m.Valid()
    ensures m.currentState == (if env.ranFirstUse then Normal else FirstUse)
    ensures m.effects == SwitchLog(Startup, Startup, env)
  {
    m := new BootManager();
    m.OnInitialize(env);
  }
}
