/** Exactly when a failing operation leaves the managed server at odds with the saved setting. */
module DaemonFailures {
  import opened Common
  import opened Daemon
  import opened DaemonSafety

  /** The managed server does not die just before step `k`. */
  predicate Spares(h: Host, e: Env, k: nat)
  {
    h.pidFile.Some? && Dies(h.pidFile.value) !in e.at(k).events
  }

  predicate LeavesRunning(outcome: Outcome)
  {
    outcome.Refused? || outcome.Torn?
  }

  /** Whether the server outlives step `k`, and that it is still the recorded one. */
  predicate Outlives(h: Host, h': Host, e: Env, k: nat)
  {
    Managed(h).Some? ==> (Managed(h').Some? <==> Spares(h, e, k)) && (Managed(h').Some? ==> h'.pidFile == h.pidFile)
  }

  lemma CheckOutlives(h: Host, e: Env, k: nat)
    requires Sound(h)
    ensures Outlives(h, Check(h, Server, e.at(k)).0, e, k)
  {
    PassKeeps(h, e.at(k));
  }

  lemma SaveOutlives(h: Host, on: bool, e: Env, k: nat)
    requires Sound(h)
    ensures Outlives(h, Save(h, on, e.at(k)).0, e, k)
  {
    PassKeeps(h, e.at(k));
  }

  lemma EndOutlives(h: Host, outcome: Outcome)
    requires Sound(h)
    ensures Managed(End(h, Server, outcome).0).Some? <==> Managed(h).Some? && LeavesRunning(outcome)
  {
  }

  /** A replacement breaks nothing unless the old server outlives the attempt to stop it. */
  lemma ReplaceBreaksIff(h: Host, mode: bool, e: Env, k: nat)
    requires Sound(h) && Managed(h) == Some(!mode) && Flag(h.settings) == Some(mode)
    ensures !Consistent(Replace(h, Server, mode, e, k).0) <==> LeavesRunning(e.at(k).outcome) && Spares(h, e, k)
  {
    PassKeeps(h, e.at(k));
    EndOutlives(Pass(h, e.at(k)), e.at(k).outcome);
    TerminateKeeps(h, Server, e.at(k));
    ReplaceKeeps(h, Server, mode, e, k);
    var (h1, stopped) := Terminate(h, Server, e.at(k));
    if stopped { LaunchKeeps(h1, Server, mode, e.at(k + 1)); }
  }

  // ----- Setting remote control -----

  predicate SwitchStrands(h: Host, e: Env)
  {
    && Spares(h, e, 2)
    && match e.at(2).outcome
       case Refused => false
       case Done => Spares(h, e, 3) && (!e.at(3).outcome.Done? || (LeavesRunning(e.at(4).outcome) && Spares(h, e, 4)))
       case _ => true
  }

  lemma SwitchBreaksIff(h: Host, mode: bool, e: Env)
    requires Sound(h) && Managed(h) == Some(!mode) && Consistent(h)
    ensures !Consistent(Switch(h, mode, e).0) <==> SwitchStrands(h, e)
  {
    var (h1, saved) := Save(h, mode, e.at(2));
    SaveKeeps(h, mode, e.at(2));
    SaveOutlives(h, mode, e, 2);
    if !saved { return; }
    var (h2, binary) := Look(h1, e.at(3));
    PassKeeps(h1, e.at(3));
    if !binary { return; }
    var (h3, replaced) := Replace(h2, Server, mode, e, 4);
    ReplaceKeeps(h2, Server, mode, e, 4);
    if Managed(h2).Some? { ReplaceBreaksIff(h2, mode, e, 4); }
    WaitKeeps(h3, e.polls);
  }

  predicate SetBreaks(h: Host, mode: bool, e: Env)
  {
    && e.at(0).outcome.Done? && e.at(1).outcome.Done?
    && Managed(h) == Some(!mode) && Spares(h, e, 0) && Spares(h, e, 1) && SwitchStrands(h, e)
  }

  /**
  Setting remote control leaves a consistent host inconsistent exactly when the
  managed server runs with the other setting, the new one reaches the settings
  file, and the server outlives the step that then fails.
  */
  lemma SetBreaksIff(h: Host, mode: bool, e: Env)
    requires Sound(h) && Consistent(h)
    ensures !Consistent(SetRemoteControl(h, mode, e).0) <==> SetBreaks(h, mode, e)
  {
    var (h1, on) := Load(h, e.at(0));
    PassKeeps(h, e.at(0));
    if on.None? { return; }
    var (h2, active) := Check(h1, Server, e.at(1));
    CheckKeeps(h1, Server, e.at(1));
    CheckOutlives(h1, e, 1);
    if active.None? { return; }
    if active.value {
      if on.value == mode { WaitKeeps(h2, e.polls); } else { SwitchBreaksIff(h2, mode, e); }
    } else {
      SetWhileDownKeeps(h2, on.value, mode, e);
    }
  }

  /** Nothing happens meanwhile, and every step works but perhaps the look for the managed binary. */
  ghost predicate Calm(e: Env)
  {
    forall k: nat :: e.at(k).events == [] && (k != 3 ==> e.at(k).outcome.Done?)
  }

  /** On a quiet host it comes down to what a caller can see beforehand. */
  lemma SetNeedsBinary(h: Host, mode: bool, e: Env)
    requires Sound(h) && Consistent(h) && Calm(e)
    ensures Consistent(SetRemoteControl(h, mode, e).0) <==> Managed(h) != Some(!mode) || e.at(3).outcome.Done?
  {
    SetBreaksIff(h, mode, e);
    assert forall k: nat :: e.at(k).events == [];
    assert e.at(2).outcome.Done? && e.at(4).outcome.Done?;
  }

  // ----- Bootstrapping -----

  predicate BootstrapStrands(h: Host, on: bool, e: Env)
  {
    && Spares(h, e, 0) && Spares(h, e, 1) && (e.at(1).outcome.Done? ==> Spares(h, e, 2)) && Spares(h, e, 3)
    && match e.at(3).outcome
       case Refused => false
       case Torn => true
       case Late => Managed(h) != Some(on)
       case Done =>
         && Managed(h) != Some(on) && Spares(h, e, 4)
         && (!e.at(4).outcome.Done? || (LeavesRunning(e.at(5).outcome) && Spares(h, e, 5)))
  }

  lemma InstallBreaksIff(h: Host, on: bool, e: Env)
    requires Sound(h) && h.settings == Saved(on)
    ensures !Consistent(Install(h, on, e).0) <==>
      && Managed(h) == Some(!on) && Spares(h, e, 4)
      && (!e.at(4).outcome.Done? || (LeavesRunning(e.at(5).outcome) && Spares(h, e, 5)))
  {
    InstallKeeps(h, on, e);
    RenewKeeps(h, Server, on, e, 4);
    var (h1, active) := Check(h, Server, e.at(4));
    CheckKeeps(h, Server, e.at(4));
    CheckOutlives(h, e, 4);
    if active == Some(false) { LaunchKeeps(h1, Server, on, e.at(6)); }
    if active == Some(true) && Managed(h1) == Some(!on) { ReplaceBreaksIff(h1, on, e, 5); }
  }

  lemma ForeignerOutlives(h: Host, e: Env)
    requires Sound(h) && Managed(h).Some?
    ensures var (h', refusal) := Foreigner(h, e, 1);
      && (Managed(h').Some? <==> Spares(h, e, 1) && (e.at(1).outcome.Done? ==> Spares(h, e, 2)))
      && (Managed(h').Some? ==> h'.pidFile == h.pidFile && (refusal.Some? <==> e.at(1).outcome.Done? && !e.at(2).outcome.Done?))
  {
    PassKeeps(h, e.at(1));
    var h1 := Pass(h, e.at(1));
    CheckKeeps(h1, Server, e.at(2));
    CheckOutlives(h1, e, 2);
  }

  predicate BootstrapBreaks(h: Host, on: bool, e: Env)
  {
    && e.at(0).outcome.Done? && (e.at(1).outcome.Done? ==> e.at(2).outcome.Done?)
    && Managed(h).Some? && BootstrapStrands(h, on, e)
  }

  /** Bootstrapping, likewise. */
  lemma BootstrapBreaksIff(h: Host, on: bool, e: Env)
    requires Sound(h) && Consistent(h)
    ensures !Consistent(Bootstrap(h, on, e).0) <==> BootstrapBreaks(h, on, e)
  {
    var (h1, binary) := Look(h, e.at(0));
    PassKeeps(h, e.at(0));
    if !binary { return; }
    var (h2, refusal) := Foreigner(h1, e, 1);
    ForeignerKeeps(h1, e, 1);
    if Managed(h1).Some? { ForeignerOutlives(h1, e); }
    if refusal.Some? { return; }
    var (h3, saved) := Save(h2, on, e.at(3));
    SaveKeeps(h2, on, e.at(3));
    SaveOutlives(h2, on, e, 3);
    if saved { InstallBreaksIff(h3, on, e); }
  }

  // ----- Ensuring remote control, and all operations -----

  /** The updater is alive when the check at step 1 looks. */
  predicate UpdaterSeen(h: Host, e: Env)
  {
    && Active(h, Updater)
    && Dies(h.updatePidFile.value) !in e.at(0).events && Dies(h.updatePidFile.value) !in e.at(1).events
  }

  lemma {:induction false} UpdaterAfter(h: Host, events: seq<Event>)
    requires Sound(h)
    ensures var h' := After(h, events);
      && h'.updatePidFile == h.updatePidFile
      && (Active(h', Updater) <==> Active(h, Updater) && Dies(h.updatePidFile.value) !in events)
    decreases |events|
  {
    if events != [] {
      HappenKeeps(h, events[0]);
      UpdaterAfter(Happen(h, events[0]), events[1..]);
    }
  }

  predicate EnsureBreaks(h: Host, e: nat -> Env)
  {
    && e(0).at(0).outcome.Done? && e(0).at(1).outcome.Done?
    && Managed(h).Some? && Spares(h, e(0), 0) && Spares(h, e(0), 1)
    && if UpdaterSeen(h, e(0)) then SetBreaks(h, true, e(1)) else BootstrapBreaks(h, true, e(1))
  }

  /** What the failure conditions say of a host they say of any later one with the same server. */
  lemma BreaksCarry(h: Host, h': Host, e: Env)
    requires h'.pidFile == h.pidFile && Managed(h') == Managed(h)
    ensures SetBreaks(h', true, e) == SetBreaks(h, true, e) && BootstrapBreaks(h', true, e) == BootstrapBreaks(h, true, e)
  {
  }

  /** The two looks that `EnsureRemoteControl` begins with. */
  lemma LooksOutlive(h: Host, e: Env)
    requires Sound(h) && Consistent(h)
    ensures var h' := Check(Load(h, e.at(0)).0, Updater, e.at(1)).0;
      && Sound(h') && Consistent(h')
      && (Managed(h').Some? <==> Managed(h).Some? && Spares(h, e, 0) && Spares(h, e, 1))
      && (Managed(h').Some? ==> h'.pidFile == h.pidFile && Managed(h') == Managed(h))
      && (e.at(1).outcome.Done? ==> Check(Load(h, e.at(0)).0, Updater, e.at(1)).1 == Some(UpdaterSeen(h, e)))
  {
    var h1 := Load(h, e.at(0)).0;
    PassKeeps(h, e.at(0));
    PassKeeps(h1, e.at(1));
    CheckKeeps(h1, Updater, e.at(1));
    UpdaterAfter(h, e.at(0).events);
    UpdaterAfter(h1, e.at(1).events);
  }

  lemma SetThenStart(h: Host, e: nat -> Env)
    requires Sound(h) && Consistent(h)
    ensures var (h1, set1) := SetRemoteControl(h, true, e(1));
      !Consistent(if set1.Ok? then Start(h1, e(2)).0 else h1) <==> SetBreaks(h, true, e(1))
  {
    SetKeeps(h, true, e(1));
    SetBreaksIff(h, true, e(1));
    StartKeeps(SetRemoteControl(h, true, e(1)).0, e(2));
  }

  /** Ensuring remote control: the condition of whichever of the other two it comes down to. */
  lemma EnsureBreaksIff(h: Host, e: nat -> Env)
    requires Sound(h) && Consistent(h)
    ensures !Consistent(EnsureRemoteControl(h, e).0) <==> EnsureBreaks(h, e)
  {
    var (h1, on) := Load(h, e(0).at(0));
    PassKeeps(h, e(0).at(0));
    if on.None? { return; }
    var (h2, updating) := Check(h1, Updater, e(0).at(1));
    LooksOutlive(h, e(0));
    if updating.None? { return; }
    if Managed(h2).Some? { BreaksCarry(h, h2, e(1)); }
    if updating.value { SetThenStart(h2, e); } else { BootstrapBreaksIff(h2, true, e(1)); }
  }

  predicate Breaks(h: Host, op: Operation, e: nat -> Env)
  {
    e(0).locked &&
    match op
    case DoSet(on) => SetBreaks(h, on, e(0))
    case DoBootstrap(on) => BootstrapBreaks(h, on, e(0))
    case DoEnsure => EnsureBreaks(h, e)
    case _ => false
  }

  /** For every operation: the exact condition under which it leaves a consistent host inconsistent. */
  lemma ExecuteBreaksIff(h: Host, op: Operation, e: nat -> Env)
    requires Sound(h) && Consistent(h)
    ensures !Consistent(Execute(h, op, e).0) <==> Breaks(h, op, e)
  {
    match op
    case DoSet(on) => SetBreaksIff(h, on, e(0));
    case DoBootstrap(on) => BootstrapBreaksIff(h, on, e(0));
    case DoEnsure => EnsureBreaksIff(h, e);
    case _ => ExecuteKeeps(h, op, e);
  }

  /** Over a whole run: the host is consistent throughout exactly when no call meets its failure condition. */
  lemma AlwaysConsistentIff(h: Host, calls: seq<Call>)
    requires Sound(h) && Consistent(h)
    ensures (forall i :: 0 <= i <= |calls| ==> Consistent(Run(h, calls[..i]).0))
      <==> forall i :: 0 <= i < |calls| ==> !Breaks(Run(h, calls[..i]).0, calls[i].op, calls[i].env)
  {
    if forall i :: 0 <= i <= |calls| ==> Consistent(Run(h, calls[..i]).0) {
      forall i | 0 <= i < |calls| ensures !Breaks(Run(h, calls[..i]).0, calls[i].op, calls[i].env) { StepBreaksIff(h, calls, i); }
    }
    if forall i :: 0 <= i < |calls| ==> !Breaks(Run(h, calls[..i]).0, calls[i].op, calls[i].env) {
      forall i | 0 <= i <= |calls| ensures Consistent(Run(h, calls[..i]).0) { StaysConsistent(h, calls, i); }
    }
  }

  lemma StepBreaksIff(h: Host, calls: seq<Call>, i: nat)
    requires Sound(h) && i < |calls| && Consistent(Run(h, calls[..i]).0)
    ensures Consistent(Run(h, calls[..i + 1]).0) <==> !Breaks(Run(h, calls[..i]).0, calls[i].op, calls[i].env)
  {
    RunKeeps(h, calls[..i]);
    RunSnoc(h, calls[..i], calls[i]);
    assert calls[..i + 1] == calls[..i] + [calls[i]];
    ExecuteBreaksIff(Run(h, calls[..i]).0, calls[i].op, calls[i].env);
  }

  lemma {:induction false} StaysConsistent(h: Host, calls: seq<Call>, i: nat)
    requires Sound(h) && Consistent(h) && i <= |calls|
    requires forall j :: 0 <= j < |calls| ==> !Breaks(Run(h, calls[..j]).0, calls[j].op, calls[j].env)
    ensures Consistent(Run(h, calls[..i]).0)
  {
    if i > 0 {
      StaysConsistent(h, calls, i - 1);
      StepBreaksIff(h, calls, i - 1);
    }
  }

  // ----- It does happen -----

  const SERVER := Record(7, 0)
  const LIVE := Host(Saved(false), map[SERVER := AppServer(false)], Some(SERVER), None, 1, [])

  function AllGoesWell(k: nat): Moment
  {
    Moment([], Done, 8)
  }

  function BinaryMissing(k: nat): Moment
  {
    Moment([], if k == 3 then Refused else Done, 8)
  }

  /** Enabling remote control without the managed binary fails, strands the server, and a later start reports success. */
  lemma SetCanBreak()
    ensures Sound(LIVE) && Consistent(LIVE)
    ensures var ready := [Poll(AllGoesWell(0), false)];
      var (h, r) := SetRemoteControl(LIVE, true, Env(true, BinaryMissing, ready));
      var (h', r') := Start(h, Env(true, AllGoesWell, ready));
      && r == Err && !Consistent(h)
      && r' == Ok(AlreadyRunning, true) && !Consistent(h')
  {
    var ready := [Poll(AllGoesWell(0), false)];
    var e := Env(true, BinaryMissing, ready);
    var h := SetRemoteControl(LIVE, true, e).0;
    assert h == LIVE.(settings := Saved(true));
    assert Start(h, Env(true, AllGoesWell, ready)) == (h, Ok(AlreadyRunning, true));
  }
}
