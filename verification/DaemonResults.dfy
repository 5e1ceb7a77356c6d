/**
The exact result of every lifecycle operation, read off the host and the
outcomes of the steps: when it succeeds, when it refuses, when it fails, and
what it then leaves running.
*/
module DaemonResults {
  import opened Common
  import opened Daemon
  import opened DaemonSafety

  // ----- Who is alive when -----

  predicate Works(e: Env, k: nat)
  {
    e.at(k).outcome.Done?
  }

  /** The process `b`'s pid file names at the outset does not die just before step `k`. */
  predicate Spared(h: Host, b: Backend, e: Env, k: nat)
  {
    File(h, b).Some? && Dies(File(h, b).value) !in e.at(k).events
  }

  /** In `h'`, some steps after `h`, the backend recorded in `h` is alive and still recorded, or nothing recorded is. */
  ghost predicate Tracks(h: Host, h': Host, b: Backend, alive: bool)
  {
    && Sound(h')
    && (Active(h', b) <==> alive)
    && (alive ==> Active(h, b) && File(h', b) == File(h, b))
  }

  lemma {:induction false} AfterTracks(h: Host, events: seq<Event>, b: Backend)
    requires Sound(h)
    ensures Sound(After(h, events)) && File(After(h, events), b) == File(h, b)
    ensures Active(After(h, events), b) <==> Active(h, b) && Dies(File(h, b).value) !in events
    decreases |events|
  {
    if events != [] {
      HappenKeeps(h, events[0]);
      AfterTracks(Happen(h, events[0]), events[1..], b);
    }
  }

  lemma PassTracks(h: Host, h': Host, b: Backend, alive: bool, e: Env, k: nat)
    requires Tracks(h, h', b, alive)
    ensures Tracks(h, Pass(h', e.at(k)), b, alive && Spared(h, b, e, k))
  {
    AfterTracks(h', e.at(k).events, b);
  }

  lemma CheckTracks(h: Host, h': Host, b: Backend, alive: bool, e: Env, k: nat)
    requires Tracks(h, h', b, alive)
    ensures var (h'', active) := Check(h', b, e.at(k));
      && Tracks(h, h'', b, alive && Spared(h, b, e, k))
      && active == (if Works(e, k) then Some(alive && Spared(h, b, e, k)) else None)
      && (active == Some(false) ==> File(h'', b).None?)
  {
    PassTracks(h, h', b, alive, e, k);
    CheckKeeps(h', b, e.at(k));
  }

  // ----- Stopping and starting a backend -----

  lemma TerminateWorks(h: Host, b: Backend, m: Moment)
    ensures Terminate(h, b, m).1 <==> m.outcome.Done?
    ensures Terminate(h, b, m).1 ==> File(Terminate(h, b, m).0, b).None?
  {
  }

  lemma {:induction false} AfterKeepsFile(h: Host, events: seq<Event>, b: Backend)
    ensures File(After(h, events), b) == File(h, b)
    decreases |events|
  {
    if events != [] { AfterKeepsFile(Happen(h, events[0]), events[1..], b); }
  }

  lemma LaunchWorks(h: Host, b: Backend, on: bool, m: Moment)
    ensures Launch(h, b, on, m).1 <==> m.outcome.Done?
  {
  }

  lemma ReplaceWorks(h: Host, b: Backend, on: bool, e: Env, k: nat)
    ensures Replace(h, b, on, e, k).1 <==> Works(e, k) && Works(e, k + 1)
  {
    TerminateWorks(h, b, e.at(k));
    LaunchWorks(Terminate(h, b, e.at(k)).0, b, on, e.at(k + 1));
  }

  /** A renewal stops the backend only if the check finds it alive. */
  predicate RenewalWorks(e: Env, k: nat, alive: bool)
  {
    Works(e, k) && (alive ==> Works(e, k + 1)) && Works(e, k + 2)
  }

  lemma RenewWorks(h: Host, h': Host, b: Backend, alive: bool, on: bool, e: Env, k: nat)
    requires Tracks(h, h', b, alive)
    ensures Renew(h', b, on, e, k).1 <==> RenewalWorks(e, k, alive && Spared(h, b, e, k))
  {
    CheckTracks(h, h', b, alive, e, k);
    var (h1, active) := Check(h', b, e.at(k));
    ReplaceWorks(h1, b, on, e, k + 1);
    LaunchWorks(h1, b, on, e.at(k + 2));
  }

  /** A stop that works on a live backend signals exactly that process, and it is gone. */
  lemma TerminateKills(h: Host, b: Backend, m: Moment)
    requires Active(Pass(h, m), b) && m.outcome.Done?
    ensures var p, h' := Pass(h, m), Terminate(h, b, m).0;
      && h'.processes == p.processes - {File(p, b).value} && h'.signalled == p.signalled + [p.processes[File(p, b).value]]
      && File(h', b).None? && h'.settings == p.settings
  {
  }

  /** A start that works with no backend alive adds exactly the one process it records. */
  lemma LaunchAdds(h: Host, b: Backend, on: bool, m: Moment)
    requires !Active(Pass(h, m), b) && m.outcome.Done?
    ensures var p, h' := Pass(h, m), Launch(h, b, on, m).0;
      var r := Record(m.pid, p.clock);
      && File(h', b) == Some(r) && h'.signalled == p.signalled && h'.settings == p.settings
      && h'.processes == p.processes[r := if b.Server? then AppServer(on) else UpdateLoop]
  {
  }

  /** A start that fails records nothing: untouched, or the process told to stop, or left behind unrecorded. */
  lemma LaunchFails(h: Host, b: Backend, on: bool, m: Moment)
    requires !Active(Pass(h, m), b) && !m.outcome.Done?
    ensures var p, h', program := Pass(h, m), Launch(h, b, on, m).0, if b.Server? then AppServer(on) else UpdateLoop;
      match m.outcome
      case Refused => h' == p
      case Late => File(h', b).None? && h'.processes == p.processes && h'.signalled == p.signalled + [program]
      case _ => File(h', b).None? && h'.processes == p.processes[Record(m.pid, p.clock) := program] && h'.signalled == p.signalled
  {
  }

  /** A stop that fails has told the process at most once, and leaves its record. */
  lemma TerminateFails(h: Host, b: Backend, m: Moment)
    requires Active(Pass(h, m), b) && !m.outcome.Done?
    ensures var p, h' := Pass(h, m), Terminate(h, b, m).0;
      var r := File(p, b).value;
      && File(h', b) == Some(r)
      && h'.signalled == p.signalled + (if m.outcome.Refused? then [] else [p.processes[r]])
      && h'.processes == if m.outcome.Late? then p.processes - {r} else p.processes
  {
  }

  // ----- Waiting -----

  /** Some poll answers, and no earlier one was past the deadline. */
  predicate Answered(polls: seq<Poll>)
  {
    exists i :: 0 <= i < |polls| && polls[i].moment.outcome.Done? && forall j :: 0 <= j < i ==> !polls[j].late
  }

  lemma {:induction false} ReadyIff(h: Host, polls: seq<Poll>)
    ensures WaitUntilReady(h, polls).1 <==> Answered(polls)
    decreases |polls|
  {
    if polls != [] {
      var p := polls[0];
      ReadyIff(Pass(h, p.moment), polls[1..]);
      if p.moment.outcome.Done? {
        assert Answered(polls);
      } else {
        AnsweredLater(polls);
      }
    }
  }

  lemma AnsweredLater(polls: seq<Poll>)
    requires polls != [] && !polls[0].moment.outcome.Done?
    ensures Answered(polls) <==> !polls[0].late && Answered(polls[1..])
  {
    var rest := polls[1..];
    if Answered(polls) {
      var i :| 0 <= i < |polls| && polls[i].moment.outcome.Done? && forall j :: 0 <= j < i ==> !polls[j].late;
      assert rest[i - 1] == polls[i] && forall j :: 0 <= j < i - 1 ==> rest[j] == polls[j + 1];
    }
    if !polls[0].late && Answered(rest) {
      var i :| 0 <= i < |rest| && rest[i].moment.outcome.Done? && forall j :: 0 <= j < i ==> !rest[j].late;
      assert polls[i + 1] == rest[i] && forall j :: 0 < j < i + 1 ==> polls[j] == rest[j - 1];
    }
  }

  /** Nothing dies while polling. */
  predicate Quiet(polls: seq<Poll>)
  {
    forall i :: 0 <= i < |polls| ==> forall w :: w in polls[i].moment.events ==> w.Arrives?
  }

  lemma {:induction false} QuietWaitKeeps(h: Host, polls: seq<Poll>)
    requires Sound(h) && Quiet(polls)
    ensures Managed(WaitUntilReady(h, polls).0) == Managed(h)
    decreases |polls|
  {
    if polls != [] {
      PassKeeps(h, polls[0].moment);
      assert Managed(h).Some? ==> Dies(h.pidFile.value) !in polls[0].moment.events;
      if !polls[0].moment.outcome.Done? && !polls[0].late { QuietWaitKeeps(Pass(h, polls[0].moment), polls[1..]); }
    }
  }

  // ----- Start -----

  predicate Loads(h: Host, e: Env)
  {
    Works(e, 0) && h.settings != Unreadable
  }

  function Finally(polls: seq<Poll>, status: Status): Result
  {
    if Answered(polls) then Ok(status, true) else Err
  }

  /** The server is alive when the third step looks. */
  predicate AliveAt2(h: Host, e: Env)
  {
    Active(h, Server) && Spared(h, Server, e, 0) && Spared(h, Server, e, 1) && Spared(h, Server, e, 2)
  }

  /** `start`, by the settings, the socket, the pid file, the binary, the launch and the polls. */
  function StartResult(h: Host, e: Env): Result
  {
    if !Loads(h, e) || !Works(e, 2) then Err
    else if Works(e, 1) then Ok(AlreadyRunning, AliveAt2(h, e))
    else if AliveAt2(h, e) then Finally(e.polls, AlreadyRunning)
    else if Works(e, 3) && Works(e, 4) then Finally(e.polls, Started)
    else Err
  }

  lemma StartExact(h: Host, e: Env)
    requires Sound(h)
    ensures Start(h, e).1 == StartResult(h, e)
  {
    var h1 := Load(h, e.at(0)).0;
    PassTracks(h, h, Server, Active(h, Server), e, 0);
    var h2 := Look(h1, e.at(1)).0;
    PassTracks(h, h1, Server, Active(h, Server) && Spared(h, Server, e, 0), e, 1);
    CheckTracks(h, h2, Server, Active(h, Server) && Spared(h, Server, e, 0) && Spared(h, Server, e, 1), e, 2);
    var h3 := Check(h2, Server, e.at(2)).0;
    if Loads(h, e) && Works(e, 2) && !Works(e, 1) {
      if AliveAt2(h, e) { ReadyIff(h3, e.polls); } else { DownExact(h3, Flag(h.settings).value, e); }
    }
  }

  lemma DownExact(h: Host, on: bool, e: Env)
    ensures StartFromDown(h, on, e).1 == if Works(e, 3) && Works(e, 4) then Finally(e.polls, Started) else Err
  {
    var h1 := Look(h, e.at(3)).0;
    LaunchWorks(h1, Server, on, e.at(4));
    ReadyIff(Launch(h1, Server, on, e.at(4)).0, e.polls);
  }

  /** Started means running with the saved setting, unless it died while the daemon was waiting for it. */
  lemma StartedRuns(h: Host, e: Env)
    requires Sound(h) && Start(h, e).1 == Ok(Started, true) && Quiet(e.polls)
    ensures Managed(Start(h, e).0).Some? && Managed(Start(h, e).0) == Flag(h.settings)
  {
    StartBringsUp(h, e);
    var up := StartUp(h, Flag(h.settings).value, e);
    StartUpSound(h, e);
    QuietWaitKeeps(up, e.polls);
  }

  /** A first start, with no settings file, comes up with remote control off. */
  lemma FirstStartIsOff(h: Host, e: Env)
    requires Sound(h) && h.settings == Missing && Start(h, e).1 == Ok(Started, true) && Quiet(e.polls)
    ensures Managed(Start(h, e).0) == Some(false)
  {
    StartedRuns(h, e);
  }

  lemma StartUpSound(h: Host, e: Env)
    requires Sound(h) && Flag(h.settings).Some?
    ensures Sound(StartUp(h, Flag(h.settings).value, e))
  {
    var h1 := Load(h, e.at(0)).0;
    PassKeeps(h, e.at(0));
    var h2 := Look(h1, e.at(1)).0;
    PassKeeps(h1, e.at(1));
    CheckKeeps(h2, Server, e.at(2));
    var h3 := Check(h2, Server, e.at(2)).0;
    PassKeeps(h3, e.at(3));
    LaunchKeeps(Look(h3, e.at(3)).0, Server, Flag(h.settings).value, e.at(4));
  }

  // ----- Stop and version -----

  predicate AliveAt1(h: Host, e: Env)
  {
    Active(h, Server) && Spared(h, Server, e, 0) && Spared(h, Server, e, 1)
  }

  lemma TwoLooks(h: Host, e: Env)
    requires Sound(h)
    ensures var (h', active) := Check(Load(h, e.at(0)).0, Server, e.at(1));
      && Tracks(h, h', Server, AliveAt1(h, e)) && active == (if Works(e, 1) then Some(AliveAt1(h, e)) else None)
      && (active == Some(false) ==> Managed(h').None?)
  {
    PassTracks(h, h, Server, Active(h, Server), e, 0);
    CheckTracks(h, Load(h, e.at(0)).0, Server, Active(h, Server) && Spared(h, Server, e, 0), e, 1);
  }

  /** `stop`. */
  function StopResult(h: Host, e: Env): Result
  {
    if !Loads(h, e) || !Works(e, 1) then Err
    else if AliveAt1(h, e) then (if Works(e, 2) then Ok(Stopped, true) else Err)
    else if Works(e, 2) then Unmanaged
    else Ok(NotRunning, false)
  }

  lemma StopExact(h: Host, e: Env)
    requires Sound(h)
    ensures Stop(h, e).1 == StopResult(h, e)
  {
    TwoLooks(h, e);
    TerminateWorks(Check(Load(h, e.at(0)).0, Server, e.at(1)).0, Server, e.at(2));
  }

  /** Stopped means the recorded process is gone, and was told so unless it died by itself. */
  lemma StoppedIsGone(h: Host, e: Env)
    requires Sound(h) && Stop(h, e).1 == Ok(Stopped, true)
    ensures Active(h, Server) && h.pidFile.value !in Stop(h, e).0.processes && Stop(h, e).0.pidFile.None?
    ensures Spared(h, Server, e, 2) ==> exists p :: Stop(h, e).0.signalled == h.signalled + [p] && p.AppServer?
  {
    StopExact(h, e);
    TwoLooks(h, e);
    var h2 := Check(Load(h, e.at(0)).0, Server, e.at(1)).0;
    SameSignals(h, e);
    PassTracks(h, h2, Server, true, e, 2);
    PassKeeps(h2, e.at(2));
    AfterKeepsFile(h2, e.at(2).events, Server);
    var p := Pass(h2, e.at(2));
    if Spared(h, Server, e, 2) {
      TerminateKills(h2, Server, e.at(2));
      assert Stop(h, e).0.signalled == h.signalled + [p.processes[h.pidFile.value]];
    }
  }

  lemma SameSignals(h: Host, e: Env)
    requires Sound(h)
    ensures Check(Load(h, e.at(0)).0, Server, e.at(1)).0.signalled == h.signalled
  {
    PassKeeps(h, e.at(0));
    CheckKeeps(Load(h, e.at(0)).0, Server, e.at(1));
  }

  /** `version`. */
  function VersionResult(h: Host, e: Env): Result
  {
    if Loads(h, e) && Works(e, 1) && Works(e, 2) then Ok(Running, AliveAt2(h, e)) else Err
  }

  lemma VersionExact(h: Host, e: Env)
    requires Sound(h)
    ensures Version(h, e).1 == VersionResult(h, e)
  {
    PassTracks(h, h, Server, Active(h, Server), e, 0);
    var h1 := Load(h, e.at(0)).0;
    PassTracks(h, h1, Server, Active(h, Server) && Spared(h, Server, e, 0), e, 1);
    CheckTracks(h, Look(h1, e.at(1)).0, Server, AliveAt1(h, e), e, 2);
  }

  // ----- Restart -----

  /** Alive through the probe at step 1, and through the check at step 2 if the probe is answered. */
  predicate AliveThenLooked(h: Host, e: Env, was: bool)
  {
    was && Spared(h, Server, e, 1) && (Works(e, 1) ==> Spared(h, Server, e, 2))
  }

  lemma ForeignerExact(h: Host, h': Host, e: Env, was: bool)
    requires Tracks(h, h', Server, was)
    ensures var (h'', refusal) := Foreigner(h', e, 1);
      && Tracks(h, h'', Server, AliveThenLooked(h, e, was))
      && refusal == (if !Works(e, 1) then None else if !Works(e, 2) then Some(Err)
                     else if AliveThenLooked(h, e, was) then None else Some(Unmanaged))
  {
    PassTracks(h, h', Server, was, e, 1);
    if Works(e, 1) { CheckTracks(h, Look(h', e.at(1)).0, Server, was && Spared(h, Server, e, 1), e, 2); }
  }

  predicate RestartAlive(h: Host, e: Env)
  {
    AliveThenLooked(h, e, Active(h, Server) && Spared(h, Server, e, 0)) && Spared(h, Server, e, 3) && Spared(h, Server, e, 4)
  }

  /** `restart`: an answer from a server that is not the recorded one refuses it; otherwise every step taken must work. */
  function RestartResult(h: Host, e: Env): Result
  {
    if !Loads(h, e) || (Works(e, 1) && !Works(e, 2)) then Err
    else if Works(e, 1) && !AliveAt2(h, e) then Unmanaged
    else if Works(e, 3) && RenewalWorks(e, 4, RestartAlive(h, e)) then Finally(e.polls, Restarted)
    else Err
  }

  lemma RestartExact(h: Host, e: Env)
    requires Sound(h)
    ensures Restart(h, e).1 == RestartResult(h, e)
  {
    var was := Active(h, Server) && Spared(h, Server, e, 0);
    PassTracks(h, h, Server, Active(h, Server), e, 0);
    var h1 := Load(h, e.at(0)).0;
    ForeignerExact(h, h1, e, was);
    var (h2, refusal) := Foreigner(h1, e, 1);
    if Loads(h, e) && refusal.None? { RestartRest(h, h2, e, AliveThenLooked(h, e, was)); }
  }

  lemma RestartRest(h: Host, h': Host, e: Env, was: bool)
    requires Tracks(h, h', Server, was) && Flag(h.settings).Some?
    ensures var h3 := Look(h', e.at(3)).0;
      var (h4, renewed) := Renew(h3, Server, Flag(h.settings).value, e, 4);
      && (renewed <==> RenewalWorks(e, 4, was && Spared(h, Server, e, 3) && Spared(h, Server, e, 4)))
      && (WaitUntilReady(h4, e.polls).1 <==> Answered(e.polls))
  {
    PassTracks(h, h', Server, was, e, 3);
    var h3 := Look(h', e.at(3)).0;
    RenewWorks(h, h3, Server, was && Spared(h, Server, e, 3), Flag(h.settings).value, e, 4);
    ReadyIff(Renew(h3, Server, Flag(h.settings).value, e, 4).0, e.polls);
  }

  /** Restarted means running with the saved setting, unless it died while the daemon was waiting for it. */
  lemma RestartedRuns(h: Host, e: Env)
    requires Sound(h) && Restart(h, e).1.Ok? && Quiet(e.polls)
    ensures Managed(Restart(h, e).0).Some? && Managed(Restart(h, e).0) == Flag(h.settings)
  {
    RestartBringsUp(h, e);
    RestartUpSound(h, e);
    QuietWaitKeeps(RestartUp(h, Flag(h.settings).value, e), e.polls);
  }

  lemma RestartUpSound(h: Host, e: Env)
    requires Sound(h) && Flag(h.settings).Some?
    ensures Sound(RestartUp(h, Flag(h.settings).value, e))
  {
    var h1 := Load(h, e.at(0)).0;
    PassKeeps(h, e.at(0));
    ForeignerKeeps(h1, e, 1);
    var h2 := Foreigner(h1, e, 1).0;
    PassKeeps(h2, e.at(3));
    RenewKeeps(Look(h2, e.at(3)).0, Server, Flag(h.settings).value, e, 4);
  }

  // ----- Setting remote control -----

  /** `set_remote_control`. */
  function SetResult(h: Host, mode: bool, e: Env): Result
  {
    if !Loads(h, e) || !Works(e, 1) then Err
    else if AliveAt1(h, e) then
      if Flag(h.settings) == Some(mode) then Finally(e.polls, AlreadySet(mode))
      else if Works(e, 2) && Works(e, 3) && Works(e, 4) && Works(e, 5) then Finally(e.polls, NowSet(mode))
      else Err
    else if Works(e, 2) then Unmanaged
    else if Flag(h.settings) == Some(mode) then Ok(AlreadySet(mode), false)
    else if Works(e, 3) then Ok(NowSet(mode), false)
    else Err
  }

  lemma SetExact(h: Host, mode: bool, e: Env)
    requires Sound(h)
    ensures SetRemoteControl(h, mode, e).1 == SetResult(h, mode, e)
  {
    TwoLooks(h, e);
    var h2 := Check(Load(h, e.at(0)).0, Server, e.at(1)).0;
    if Loads(h, e) && Works(e, 1) && AliveAt1(h, e) {
      ReadyIff(h2, e.polls);
      SwitchExact(h2, mode, e);
    }
  }

  lemma SwitchExact(h: Host, mode: bool, e: Env)
    ensures Switch(h, mode, e).1 ==
      if Works(e, 2) && Works(e, 3) && Works(e, 4) && Works(e, 5) then Finally(e.polls, NowSet(mode)) else Err
  {
    var h2 := Look(Save(h, mode, e.at(2)).0, e.at(3)).0;
    ReplaceWorks(h2, Server, mode, e, 4);
    ReadyIff(Replace(h2, Server, mode, e, 4).0, e.polls);
  }

  /** A new setting reported with the managed server means it runs with that setting, unless it died while being waited for. */
  lemma SetRuns(h: Host, mode: bool, e: Env)
    requires Sound(h) && SetRemoteControl(h, mode, e).1 == Ok(NowSet(mode), true) && Quiet(e.polls)
    ensures Managed(SetRemoteControl(h, mode, e).0) == Some(mode) && SetRemoteControl(h, mode, e).0.settings == Saved(mode)
  {
    SetBringsUp(h, mode, e);
    TwoLooks(h, e);
    var checked := Check(Load(h, e.at(0)).0, Server, e.at(1)).0;
    SetExact(h, mode, e);
    assert SetRemoteControl(h, mode, e) == Switch(checked, mode, e);
    SwitchKeeps(checked, mode, e);
    SwitchUpSound(checked, mode, e);
    QuietWaitKeeps(SwitchUp(checked, mode, e), e.polls);
  }

  lemma SwitchUpSound(h: Host, mode: bool, e: Env)
    requires Sound(h)
    ensures Sound(SwitchUp(h, mode, e))
  {
    SaveKeeps(h, mode, e.at(2));
    var h1 := Save(h, mode, e.at(2)).0;
    PassKeeps(h1, e.at(3));
    ReplaceKeeps(Look(h1, e.at(3)).0, Server, mode, e, 4);
  }

  // ----- The updater's restart -----

  /** Which versions cause a restart. */
  lemma DecideIff(mode: RestartMode, running: Option<string>, installed: string)
    ensures Decide(mode, running, installed) == Renewal <==> mode == Always || (running.Some? && running.value != installed)
    ensures Decide(mode, running, installed) == Keep <==> mode == IfVersionChanged && running == Some(installed)
    ensures Decide(mode, running, installed) == Wait <==> mode == IfVersionChanged && running.None?
  {
  }

  /** `try_restart_if_running`. */
  function TryRestartResult(h: Host, mode: RestartMode, reexec: bool, running: string, installed: string, e: Env): Result
  {
    if !e.locked then Ok(Busy, false)
    else if !Loads(h, e) || !Works(e, 1) then Err
    else if !AliveAt1(h, e) then (if Works(e, 2) then Unmanaged else Ok(NotRunning, false))
    else if Works(e, 2) && !Works(e, 3) then Err
    else if mode == IfVersionChanged && !Works(e, 2) then Ok(NotReady, false)
    else if mode == IfVersionChanged && running == installed then Ok(AlreadyCurrent, false)
    else if Works(e, 4) && Works(e, 5) && Answered(e.polls) && (reexec ==> Works(e, 6)) then Ok(Restarted, false)
    else Err
  }

  lemma TryRestartExact(h: Host, mode: RestartMode, reexec: bool, running: string, installed: string, e: Env)
    requires Sound(h)
    ensures TryRestart(h, mode, reexec, running, installed, e).1 == TryRestartResult(h, mode, reexec, running, installed, e)
  {
    TwoLooks(h, e);
    if e.locked && Loads(h, e) && Works(e, 1) && AliveAt1(h, e) {
      var h3 := Look(Check(Load(h, e.at(0)).0, Server, e.at(1)).0, e.at(2)).0;
      RefreshExact(if Works(e, 2) then Look(h3, e.at(3)).0 else h3, Flag(h.settings).value, reexec, e);
    }
  }

  lemma RefreshExact(h: Host, on: bool, reexec: bool, e: Env)
    ensures Refresh(h, on, reexec, e).1 ==
      if Works(e, 4) && Works(e, 5) && Answered(e.polls) && (reexec ==> Works(e, 6)) then Ok(Restarted, false) else Err
  {
    ReplaceWorks(h, Server, on, e, 4);
    ReadyIff(Replace(h, Server, on, e, 4).0, e.polls);
  }

  // ----- Bootstrapping -----

  lemma SaveTracks(h: Host, h': Host, b: Backend, alive: bool, on: bool, e: Env, k: nat)
    requires Tracks(h, h', b, alive)
    ensures Tracks(h, Save(h', on, e.at(k)).0, b, alive && Spared(h, b, e, k))
  {
    PassTracks(h, h', b, alive, e, k);
    SaveKeeps(h', on, e.at(k));
  }

  // What is done to the server leaves the updater alone.

  lemma CheckLeavesUpdater(h: Host, h': Host, alive: bool, e: Env, k: nat)
    requires Tracks(h, h', Updater, alive)
    ensures Tracks(h, Check(h', Server, e.at(k)).0, Updater, alive && Spared(h, Updater, e, k))
  {
    PassTracks(h, h', Updater, alive, e, k);
    CheckKeeps(h', Server, e.at(k));
  }

  lemma EndLeavesUpdater(h: Host, outcome: Outcome)
    requires Sound(h)
    ensures var h' := End(h, Server, outcome).0;
      File(h', Updater) == File(h, Updater) && (Active(h', Updater) <==> Active(h, Updater))
  {
  }

  lemma TerminateLeavesUpdater(h: Host, h': Host, alive: bool, e: Env, k: nat)
    requires Tracks(h, h', Updater, alive)
    ensures Tracks(h, Terminate(h', Server, e.at(k)).0, Updater, alive && Spared(h, Updater, e, k))
  {
    PassTracks(h, h', Updater, alive, e, k);
    TerminateKeeps(h', Server, e.at(k));
    EndLeavesUpdater(Pass(h', e.at(k)), e.at(k).outcome);
  }

  lemma BeginLeavesUpdater(h: Host, on: bool, pid: nat, outcome: Outcome)
    requires Sound(h)
    ensures var h' := Begin(h, Server, on, pid, outcome).0;
      File(h', Updater) == File(h, Updater) && (Active(h', Updater) <==> Active(h, Updater))
  {
  }

  lemma LaunchLeavesUpdater(h: Host, h': Host, alive: bool, on: bool, e: Env, k: nat)
    requires Tracks(h, h', Updater, alive)
    ensures Tracks(h, Launch(h', Server, on, e.at(k)).0, Updater, alive && Spared(h, Updater, e, k))
  {
    PassTracks(h, h', Updater, alive, e, k);
    LaunchKeeps(h', Server, on, e.at(k));
    BeginLeavesUpdater(Pass(h', e.at(k)), on, e.at(k).pid, e.at(k).outcome);
  }

  /** Through a renewal of the server that works. */
  predicate UpdaterThroughRenewal(h: Host, e: Env, k: nat, serverAlive: bool)
  {
    Spared(h, Updater, e, k) && (serverAlive ==> Spared(h, Updater, e, k + 1)) && Spared(h, Updater, e, k + 2)
  }

  lemma RenewLeavesUpdater(h: Host, h': Host, alive: bool, updating: bool, on: bool, e: Env, k: nat)
    requires Tracks(h, h', Server, alive) && Tracks(h, h', Updater, updating)
    requires Renew(h', Server, on, e, k).1
    ensures Tracks(h, Renew(h', Server, on, e, k).0, Updater,
      updating && UpdaterThroughRenewal(h, e, k, alive && Spared(h, Server, e, k)))
  {
    CheckTracks(h, h', Server, alive, e, k);
    CheckLeavesUpdater(h, h', updating, e, k);
    var (h1, active) := Check(h', Server, e.at(k));
    var still := updating && Spared(h, Updater, e, k);
    if active == Some(true) {
      TerminateLeavesUpdater(h, h1, still, e, k + 1);
      LaunchLeavesUpdater(h, Terminate(h1, Server, e.at(k + 1)).0, still && Spared(h, Updater, e, k + 1), on, e, k + 2);
    } else {
      LaunchLeavesUpdater(h, h1, still, on, e, k + 2);
    }
  }

  lemma ForeignerLeavesUpdater(h: Host, h': Host, e: Env, updating: bool)
    requires Tracks(h, h', Updater, updating)
    ensures Tracks(h, Foreigner(h', e, 1).0, Updater, updating && Spared(h, Updater, e, 1) && (Works(e, 1) ==> Spared(h, Updater, e, 2)))
  {
    PassTracks(h, h', Updater, updating, e, 1);
    if Works(e, 1) { CheckLeavesUpdater(h, Look(h', e.at(1)).0, updating && Spared(h, Updater, e, 1), e, 2); }
  }

  /** The server, and then the updater, when the bootstrap comes to check them. */
  predicate BootServerAlive(h: Host, e: Env)
  {
    AliveThenLooked(h, e, Active(h, Server) && Spared(h, Server, e, 0)) && Spared(h, Server, e, 3) && Spared(h, Server, e, 4)
  }

  predicate BootUpdaterAlive(h: Host, e: Env)
  {
    && Active(h, Updater) && Spared(h, Updater, e, 0) && Spared(h, Updater, e, 1) && (Works(e, 1) ==> Spared(h, Updater, e, 2))
    && Spared(h, Updater, e, 3) && UpdaterThroughRenewal(h, e, 4, BootServerAlive(h, e)) && Spared(h, Updater, e, 7)
  }

  /** `bootstrap`. */
  function BootstrapResult(h: Host, on: bool, e: Env): Result
  {
    if !Works(e, 0) || (Works(e, 1) && !Works(e, 2)) then Err
    else if Works(e, 1) && !AliveAt2(h, e) then Unmanaged
    else if Works(e, 3) && RenewalWorks(e, 4, BootServerAlive(h, e)) && RenewalWorks(e, 7, BootUpdaterAlive(h, e))
    then Finally(e.polls, Bootstrapped)
    else Err
  }

  lemma BootstrapExact(h: Host, on: bool, e: Env)
    requires Sound(h)
    ensures Bootstrap(h, on, e).1 == BootstrapResult(h, on, e)
  {
    var alive, updating := Active(h, Server) && Spared(h, Server, e, 0), Active(h, Updater) && Spared(h, Updater, e, 0);
    PassTracks(h, h, Server, Active(h, Server), e, 0);
    PassTracks(h, h, Updater, Active(h, Updater), e, 0);
    var h1 := Look(h, e.at(0)).0;
    ForeignerExact(h, h1, e, alive);
    ForeignerLeavesUpdater(h, h1, e, updating);
    var (h2, refusal) := Foreigner(h1, e, 1);
    if Works(e, 0) && refusal.None? {
      BootstrapRest(h, h2, on, e, AliveThenLooked(h, e, alive),
        updating && Spared(h, Updater, e, 1) && (Works(e, 1) ==> Spared(h, Updater, e, 2)));
    }
  }

  lemma BootstrapRest(h: Host, h': Host, on: bool, e: Env, alive: bool, updating: bool)
    requires Tracks(h, h', Server, alive) && Tracks(h, h', Updater, updating)
    ensures var (h3, saved) := Save(h', on, e.at(3));
      var serverAlive := alive && Spared(h, Server, e, 3) && Spared(h, Server, e, 4);
      var updaterAlive := updating && Spared(h, Updater, e, 3) && UpdaterThroughRenewal(h, e, 4, serverAlive) && Spared(h, Updater, e, 7);
      && (saved <==> Works(e, 3))
      && Install(h3, on, e).1 ==
           if RenewalWorks(e, 4, serverAlive) && RenewalWorks(e, 7, updaterAlive) then Finally(e.polls, Bootstrapped) else Err
  {
    SaveTracks(h, h', Server, alive, on, e, 3);
    SaveTracks(h, h', Updater, updating, on, e, 3);
    var h3 := Save(h', on, e.at(3)).0;
    var was, up := alive && Spared(h, Server, e, 3), updating && Spared(h, Updater, e, 3);
    RenewWorks(h, h3, Server, was, on, e, 4);
    var (h4, renewed) := Renew(h3, Server, on, e, 4);
    if renewed {
      RenewLeavesUpdater(h, h3, was, up, on, e, 4);
      RenewWorks(h, h4, Updater, up && UpdaterThroughRenewal(h, e, 4, was && Spared(h, Server, e, 4)), on, e, 7);
      ReadyIff(Renew(h4, Updater, on, e, 7).0, e.polls);
    }
  }

  // What is done to the updater leaves the server alone.

  lemma EndLeavesServer(h: Host, outcome: Outcome)
    requires Sound(h)
    ensures Managed(End(h, Updater, outcome).0) == Managed(h)
  {
  }

  lemma BeginLeavesServer(h: Host, pid: nat, on: bool, outcome: Outcome)
    requires Sound(h)
    ensures var (h', begun) := Begin(h, Updater, on, pid, outcome);
      Managed(h') == Managed(h) && (begun ==> Active(h', Updater))
  {
  }

  /** Nothing dies just before step `k`. */
  predicate QuietAt(e: Env, k: nat)
  {
    forall w :: w in e.at(k).events ==> w.Arrives?
  }

  lemma QuietPass(h: Host, e: Env, k: nat)
    requires Sound(h) && QuietAt(e, k)
    ensures Sound(Pass(h, e.at(k))) && Managed(Pass(h, e.at(k))) == Managed(h)
    ensures Active(Pass(h, e.at(k)), Updater) <==> Active(h, Updater)
  {
    PassKeeps(h, e.at(k));
    AfterTracks(h, e.at(k).events, Updater);
    assert Managed(h).Some? ==> Dies(h.pidFile.value) !in e.at(k).events;
    assert Active(h, Updater) ==> Dies(h.updatePidFile.value) !in e.at(k).events;
  }

  lemma QuietLaunch(h: Host, on: bool, e: Env, k: nat)
    requires Sound(h) && QuietAt(e, k)
    ensures var (h', launched) := Launch(h, Updater, on, e.at(k));
      Sound(h') && Managed(h') == Managed(h) && (launched ==> Active(h', Updater))
  {
    QuietPass(h, e, k);
    LaunchKeeps(h, Updater, on, e.at(k));
    BeginLeavesServer(Pass(h, e.at(k)), e.at(k).pid, on, e.at(k).outcome);
  }

  /** Renewing the updater while nothing dies leaves it running, and the server as it was. */
  lemma QuietRenew(h: Host, on: bool, e: Env, k: nat)
    requires Sound(h) && QuietAt(e, k) && QuietAt(e, k + 1) && QuietAt(e, k + 2)
    ensures var (h', renewed) := Renew(h, Updater, on, e, k);
      Sound(h') && (renewed ==> Managed(h') == Managed(h) && Active(h', Updater))
  {
    RenewKeeps(h, Updater, on, e, k);
    QuietPass(h, e, k);
    CheckKeeps(h, Updater, e.at(k));
    var (h1, active) := Check(h, Updater, e.at(k));
    assert Managed(h1) == Managed(h);
    if active == Some(true) {
      QuietPass(h1, e, k + 1);
      TerminateKeeps(h1, Updater, e.at(k + 1));
      EndLeavesServer(Pass(h1, e.at(k + 1)), e.at(k + 1).outcome);
      QuietLaunch(Terminate(h1, Updater, e.at(k + 1)).0, on, e, k + 2);
    } else if active == Some(false) {
      QuietLaunch(h1, on, e, k + 2);
    }
  }

  lemma {:induction false} QuietWaitKeepsUpdater(h: Host, polls: seq<Poll>)
    requires Sound(h) && Quiet(polls)
    ensures Active(WaitUntilReady(h, polls).0, Updater) <==> Active(h, Updater)
    decreases |polls|
  {
    if polls != [] {
      PassKeeps(h, polls[0].moment);
      AfterTracks(h, polls[0].moment.events, Updater);
      assert Active(h, Updater) ==> Dies(h.updatePidFile.value) !in polls[0].moment.events;
      if !polls[0].moment.outcome.Done? && !polls[0].late { QuietWaitKeepsUpdater(Pass(h, polls[0].moment), polls[1..]); }
    }
  }

  /** Bootstrapped means the server running with the setting and the updater beside it, if nothing has died since the server came up. */
  lemma BootstrappedRuns(h: Host, on: bool, e: Env)
    requires Sound(h) && Bootstrap(h, on, e).1.Ok?
    requires QuietAt(e, 7) && QuietAt(e, 8) && QuietAt(e, 9) && Quiet(e.polls)
    ensures var h' := Bootstrap(h, on, e).0; Managed(h') == Some(on) && Active(h', Updater) && h'.settings == Saved(on)
  {
    BootstrapRepairs(h, on, e);
    PassKeeps(h, e.at(0));
    var h1 := Look(h, e.at(0)).0;
    ForeignerKeeps(h1, e, 1);
    var h2 := Foreigner(h1, e, 1).0;
    SaveKeeps(h2, on, e.at(3));
    InstalledRuns(Save(h2, on, e.at(3)).0, on, e);
  }

  lemma InstalledRuns(h: Host, on: bool, e: Env)
    requires Sound(h) && Install(h, on, e).1.Ok?
    requires QuietAt(e, 7) && QuietAt(e, 8) && QuietAt(e, 9) && Quiet(e.polls)
    ensures var h' := Install(h, on, e).0; Managed(h') == Some(on) && Active(h', Updater)
  {
    RenewKeeps(h, Server, on, e, 4);
    var h1 := Renew(h, Server, on, e, 4).0;
    QuietRenew(h1, on, e, 7);
    var h2 := Renew(h1, Updater, on, e, 7).0;
    QuietWaitKeeps(h2, e.polls);
    QuietWaitKeepsUpdater(h2, e.polls);
  }

  // ----- Ensuring remote control -----

  /** `ensure_remote_control_started` sets and starts when it sees the updater alive, and bootstraps when it does not. */
  lemma EnsureExact(h: Host, e: nat -> Env)
    requires Sound(h)
    ensures var looked := Check(Load(h, e(0).at(0)).0, Updater, e(0).at(1)).0;
      var seen := Active(h, Updater) && Spared(h, Updater, e(0), 0) && Spared(h, Updater, e(0), 1);
      var (h1, set1) := SetRemoteControl(looked, true, e(1));
      EnsureRemoteControl(h, e) ==
        if !Works(e(0), 0) || h.settings == Unreadable then (Load(h, e(0).at(0)).0, Err)
        else if !Works(e(0), 1) then (looked, Err)
        else if !seen then Bootstrap(looked, true, e(1))
        else if set1.Ok? then Start(h1, e(2))
        else (h1, set1)
  {
    PassTracks(h, h, Updater, Active(h, Updater), e(0), 0);
    CheckTracks(h, Load(h, e(0).at(0)).0, Updater, Active(h, Updater) && Spared(h, Updater, e(0), 0), e(0), 1);
  }

  // ----- Without the lock -----

  /** Without the operation lock nothing happens; only the updater reports that as being busy, and asking the version needs none. */
  lemma LockedOut(h: Host, op: Operation, e: nat -> Env)
    requires !e(0).locked && !op.DoVersion?
    ensures Execute(h, op, e) == (h, if op.DoTryRestart? then Ok(Busy, false) else Err)
  {
  }
}
