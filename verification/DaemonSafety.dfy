/** What every lifecycle operation keeps, whatever the world does meanwhile. */
module DaemonSafety {
  import opened Common
  import opened Daemon

  // ----- Invariants -----

  /** The setting the managed server was started with, while it is alive. */
  function Managed(h: Host): Option<bool>
  {
    if Active(h, Server) && h.processes[h.pidFile.value].AppServer? then Some(h.processes[h.pidFile.value].remoteControl) else None
  }

  predicate Fits(b: Backend, p: Program)
  {
    if b.Server? then p.AppServer? else p.UpdateLoop?
  }

  ghost predicate FileSound(h: Host, b: Backend)
  {
    File(h, b).Some? ==>
      && File(h, b).value.started < h.clock
      && (Active(h, b) ==> Fits(b, h.processes[File(h, b).value]))
  }

  ghost predicate OnlyOwn(signalled: seq<Program>)
  {
    forall p :: p in signalled ==> p != Foreign
  }

  /** A live recorded process is one the daemon launched, and no other was ever signalled. */
  ghost predicate Sound(h: Host)
  {
    && FileSound(h, Server) && FileSound(h, Updater) && OnlyOwn(h.signalled)
    && forall r :: r in h.processes ==> r.started < h.clock
  }

  /** A running managed server has the saved setting. */
  predicate Consistent(h: Host)
  {
    Managed(h).Some? ==> Flag(h.settings) == Managed(h)
  }

  /** At most the managed server has died. */
  predicate Fades(h: Host, h': Host)
  {
    Managed(h') == Managed(h) || Managed(h').None?
  }

  /** Nothing the daemon is responsible for has changed, save that the managed server may have died. */
  predicate Untouched(h: Host, h': Host)
  {
    h'.settings == h.settings && h'.signalled == h.signalled && Fades(h, h')
  }

  // ----- Steps -----

  lemma HappenKeeps(h: Host, w: Event)
    requires Sound(h)
    ensures Sound(Happen(h, w)) && Untouched(h, Happen(h, w))
    ensures Happen(h, w).pidFile == h.pidFile
    ensures Managed(h).Some? ==> (Managed(Happen(h, w)).Some? <==> w != Dies(h.pidFile.value))
  {
  }

  lemma {:induction false} AfterKeeps(h: Host, events: seq<Event>)
    requires Sound(h)
    ensures Sound(After(h, events)) && Untouched(h, After(h, events))
    ensures After(h, events).pidFile == h.pidFile
    ensures Managed(h).Some? ==> (Managed(After(h, events)).Some? <==> Dies(h.pidFile.value) !in events)
    decreases |events|
  {
    if events != [] {
      HappenKeeps(h, events[0]);
      AfterKeeps(Happen(h, events[0]), events[1..]);
    }
  }

  lemma PassKeeps(h: Host, m: Moment)
    requires Sound(h)
    ensures Sound(Pass(h, m)) && Untouched(h, Pass(h, m))
    ensures Pass(h, m).pidFile == h.pidFile
    ensures Managed(h).Some? ==> (Managed(Pass(h, m)).Some? <==> Dies(h.pidFile.value) !in m.events)
  {
    AfterKeeps(h, m.events);
  }

  lemma CheckKeeps(h: Host, b: Backend, m: Moment)
    requires Sound(h)
    ensures Sound(Check(h, b, m).0) && Untouched(h, Check(h, b, m).0)
    ensures b.Server? && Check(h, b, m).1.Some? ==> (Check(h, b, m).1.value <==> Managed(Check(h, b, m).0).Some?)
  {
    PassKeeps(h, m);
  }

  lemma ClearKeeps(h: Host, b: Backend)
    requires Sound(h) && !Active(h, b)
    ensures Sound(WithFile(h, b, None)) && Untouched(h, WithFile(h, b, None))
  {
  }

  lemma VanishKeeps(h: Host, r: Record)
    requires Sound(h)
    ensures Sound(Vanish(h, r)) && Untouched(h, Vanish(h, r))
  {
  }

  lemma SpawnKeeps(h: Host, b: Backend, pid: nat, on: bool)
    requires Sound(h) && File(h, b).None?
    ensures var r, p := Record(pid, h.clock), ProgramOf(b, on);
      && Sound(Spawn(h, r, p)) && Untouched(h, Spawn(h, r, p))
      && Sound(WithFile(Spawn(h, r, p), b, Some(r)))
      && (b.Updater? ==> Untouched(h, WithFile(Spawn(h, r, p), b, Some(r))))
  {
  }

  lemma EndKeeps(h: Host, b: Backend, outcome: Outcome)
    requires Sound(h)
    ensures Sound(End(h, b, outcome).0) && End(h, b, outcome).0.settings == h.settings && Fades(h, End(h, b, outcome).0)
    ensures b.Server? && End(h, b, outcome).1 ==> Managed(End(h, b, outcome).0).None?
  {
    if !Active(h, b) {
      ClearKeeps(h, b);
    } else {
      var r, signalled := File(h, b).value, Signal(h, b);
      assert Sound(signalled) && Managed(signalled) == Managed(h);
      VanishKeeps(signalled, r);
      ClearKeeps(Vanish(signalled, r), b);
    }
  }

  lemma TerminateKeeps(h: Host, b: Backend, m: Moment)
    requires Sound(h)
    ensures Sound(Terminate(h, b, m).0) && Terminate(h, b, m).0.settings == h.settings && Fades(h, Terminate(h, b, m).0)
    ensures b.Server? && Terminate(h, b, m).1 ==> Managed(Terminate(h, b, m).0).None?
  {
    PassKeeps(h, m);
    EndKeeps(Pass(h, m), b, m.outcome);
  }

  lemma BeginKeeps(h: Host, b: Backend, on: bool, pid: nat, outcome: Outcome)
    requires Sound(h)
    ensures var (h', begun) := Begin(h, b, on, pid, outcome);
      && Sound(h') && h'.settings == h.settings
      && (Fades(h, h') || (b.Server? && Managed(h') == Some(on)))
      && (b.Server? && Managed(h).None? && begun ==> Managed(h') == Some(on))
  {
    if !Active(h, b) {
      ClearKeeps(h, b);
      SpawnKeeps(WithFile(h, b, None), b, pid, on);
    }
  }

  lemma LaunchKeeps(h: Host, b: Backend, on: bool, m: Moment)
    requires Sound(h)
    ensures var (h', launched) := Launch(h, b, on, m);
      && Sound(h') && h'.settings == h.settings
      && (Fades(h, h') || (b.Server? && Managed(h') == Some(on)))
      && (b.Server? && Managed(h).None? && launched ==> Managed(h') == Some(on))
  {
    PassKeeps(h, m);
    BeginKeeps(Pass(h, m), b, on, m.pid, m.outcome);
  }

  lemma {:induction false} WaitKeeps(h: Host, polls: seq<Poll>)
    requires Sound(h)
    ensures Sound(WaitUntilReady(h, polls).0) && Untouched(h, WaitUntilReady(h, polls).0)
    decreases |polls|
  {
    if polls != [] {
      PassKeeps(h, polls[0].moment);
      if !polls[0].moment.outcome.Done? && !polls[0].late { WaitKeeps(Pass(h, polls[0].moment), polls[1..]); }
    }
  }

  lemma ReplaceKeeps(h: Host, b: Backend, on: bool, e: Env, k: nat)
    requires Sound(h)
    ensures var (h', replaced) := Replace(h, b, on, e, k);
      && Sound(h') && h'.settings == h.settings
      && (Fades(h, h') || (b.Server? && Managed(h') == Some(on)))
      && (b.Server? && replaced ==> Managed(h') == Some(on))
  {
    TerminateKeeps(h, b, e.at(k));
    LaunchKeeps(Terminate(h, b, e.at(k)).0, b, on, e.at(k + 1));
  }

  lemma RenewKeeps(h: Host, b: Backend, on: bool, e: Env, k: nat)
    requires Sound(h)
    ensures var (h', renewed) := Renew(h, b, on, e, k);
      && Sound(h') && h'.settings == h.settings
      && (Fades(h, h') || (b.Server? && Managed(h') == Some(on)))
      && (b.Server? && renewed ==> Managed(h') == Some(on))
  {
    CheckKeeps(h, b, e.at(k));
    var h1 := Check(h, b, e.at(k)).0;
    ReplaceKeeps(h1, b, on, e, k + 1);
    LaunchKeeps(h1, b, on, e.at(k + 2));
  }

  lemma ForeignerKeeps(h: Host, e: Env, k: nat)
    requires Sound(h)
    ensures Sound(Foreigner(h, e, k).0) && Untouched(h, Foreigner(h, e, k).0)
  {
    PassKeeps(h, e.at(k));
    CheckKeeps(Pass(h, e.at(k)), Server, e.at(k + 1));
  }

  lemma SaveKeeps(h: Host, on: bool, m: Moment)
    requires Sound(h)
    ensures Sound(Save(h, on, m).0) && Fades(h, Save(h, on, m).0)
    ensures Managed(Save(h, on, m).0) == Managed(Pass(h, m))
    ensures Save(h, on, m).1 ==> Save(h, on, m).0.settings == Saved(on)
  {
    PassKeeps(h, m);
  }

  // ----- Operations -----

  /** The settings are as they were, and a server newly running has them. */
  predicate Follows(h: Host, h': Host)
  {
    && h'.settings == h.settings
    && (Fades(h, h') || (Managed(h').Some? && Managed(h') == Flag(h.settings)))
  }

  lemma StartKeeps(h: Host, e: Env)
    requires Sound(h)
    ensures var (h', r) := Start(h, e);
      Sound(h') && Follows(h, h') && !r.Unmanaged?
  {
    var (h1, on) := Load(h, e.at(0));
    PassKeeps(h, e.at(0));
    if on.None? { return; }
    var (h2, answers) := Look(h1, e.at(1));
    PassKeeps(h1, e.at(1));
    var (h3, active) := Check(h2, Server, e.at(2));
    CheckKeeps(h2, Server, e.at(2));
    if active.None? || answers { return; }
    if active.value { WaitKeeps(h3, e.polls); } else { StartFromDownKeeps(h3, on.value, e); }
  }

  lemma StartFromDownKeeps(h: Host, on: bool, e: Env)
    requires Sound(h) && Flag(h.settings) == Some(on)
    ensures var (h', r) := StartFromDown(h, on, e);
      Sound(h') && Follows(h, h') && !r.Unmanaged?
  {
    var (h1, binary) := Look(h, e.at(3));
    PassKeeps(h, e.at(3));
    if !binary { return; }
    LaunchKeeps(h1, Server, on, e.at(4));
    WaitKeeps(Launch(h1, Server, on, e.at(4)).0, e.polls);
  }

  /** A restart that succeeds leaves a server with the saved setting, from any state. */
  lemma RestartRepairs(h: Host, e: Env)
    requires Sound(h)
    ensures var (h', r) := Restart(h, e);
      && Sound(h') && Follows(h, h')
      && (r.Ok? ==> Consistent(h'))
      && (r.Unmanaged? ==> Untouched(h, h'))
  {
    var (h1, on) := Load(h, e.at(0));
    PassKeeps(h, e.at(0));
    if on.None? { return; }
    var (h2, refusal) := Foreigner(h1, e, 1);
    ForeignerKeeps(h1, e, 1);
    if refusal.Some? { return; }
    var (h3, binary) := Look(h2, e.at(3));
    PassKeeps(h2, e.at(3));
    if !binary { return; }
    RenewKeeps(h3, Server, on.value, e, 4);
    WaitKeeps(Renew(h3, Server, on.value, e, 4).0, e.polls);
  }

  lemma StopKeeps(h: Host, e: Env)
    requires Sound(h)
    ensures var (h', r) := Stop(h, e);
      && Sound(h') && h'.settings == h.settings && Fades(h, h')
      && (r.Ok? ==> Managed(h').None?)
      && (r.Unmanaged? ==> Untouched(h, h'))
  {
    PassKeeps(h, e.at(0));
    var h1 := Pass(h, e.at(0));
    CheckKeeps(h1, Server, e.at(1));
    var h2 := Check(h1, Server, e.at(1)).0;
    TerminateKeeps(h2, Server, e.at(2));
    PassKeeps(h2, e.at(2));
  }

  lemma VersionKeeps(h: Host, e: Env)
    requires Sound(h)
    ensures Sound(Version(h, e).0) && Untouched(h, Version(h, e).0)
  {
    PassKeeps(h, e.at(0));
    var h1 := Pass(h, e.at(0));
    PassKeeps(h1, e.at(1));
    CheckKeeps(Pass(h1, e.at(1)), Server, e.at(2));
  }

  lemma InstallKeeps(h: Host, on: bool, e: Env)
    requires Sound(h) && h.settings == Saved(on)
    ensures var (h', r) := Install(h, on, e);
      && Sound(h') && !r.Unmanaged? && h'.settings == Saved(on)
      && (r.Ok? || Renew(h, Server, on, e, 4).1 ==> Consistent(h'))
      && (!Renew(h, Server, on, e, 4).1 ==> h' == Renew(h, Server, on, e, 4).0)
  {
    var (h1, renewed) := Renew(h, Server, on, e, 4);
    RenewKeeps(h, Server, on, e, 4);
    if !renewed { return; }
    RenewKeeps(h1, Updater, on, e, 7);
    WaitKeeps(Renew(h1, Updater, on, e, 7).0, e.polls);
  }

  /** A bootstrap that succeeds saves the setting and leaves a server with it, from any state, even unreadable settings. */
  lemma BootstrapRepairs(h: Host, on: bool, e: Env)
    requires Sound(h)
    ensures var (h', r) := Bootstrap(h, on, e);
      && Sound(h')
      && (r.Ok? ==> Consistent(h') && h'.settings == Saved(on))
      && (r.Unmanaged? ==> Untouched(h, h'))
  {
    var (h1, binary) := Look(h, e.at(0));
    PassKeeps(h, e.at(0));
    if !binary { return; }
    var (h2, refusal) := Foreigner(h1, e, 1);
    ForeignerKeeps(h1, e, 1);
    if refusal.Some? { return; }
    var (h3, saved) := Save(h2, on, e.at(3));
    SaveKeeps(h2, on, e.at(3));
    if saved { InstallKeeps(h3, on, e); }
  }

  lemma SwitchKeeps(h: Host, mode: bool, e: Env)
    requires Sound(h)
    ensures var (h', r) := Switch(h, mode, e);
      && Sound(h') && !r.Unmanaged?
      && (r.Ok? ==> Consistent(h') && h'.settings == Saved(mode))
  {
    SaveKeeps(h, mode, e.at(2));
    var h1 := Save(h, mode, e.at(2)).0;
    PassKeeps(h1, e.at(3));
    var h2 := Pass(h1, e.at(3));
    ReplaceKeeps(h2, Server, mode, e, 4);
    WaitKeeps(Replace(h2, Server, mode, e, 4).0, e.polls);
  }

  lemma SetKeeps(h: Host, mode: bool, e: Env)
    requires Sound(h)
    ensures var (h', r) := SetRemoteControl(h, mode, e);
      && Sound(h')
      && (r.Ok? ==> Flag(h'.settings) == Some(mode) && (Consistent(h) ==> Consistent(h')))
      && (r.Unmanaged? ==> Untouched(h, h'))
  {
    var (h1, on) := Load(h, e.at(0));
    PassKeeps(h, e.at(0));
    if on.None? { return; }
    var (h2, active) := Check(h1, Server, e.at(1));
    CheckKeeps(h1, Server, e.at(1));
    if active.None? { return; }
    if active.value {
      if on.value == mode { WaitKeeps(h2, e.polls); } else { SwitchKeeps(h2, mode, e); }
    } else {
      SetWhileDownKeeps(h2, on.value, mode, e);
    }
  }

  lemma SetWhileDownKeeps(h: Host, on: bool, mode: bool, e: Env)
    requires Sound(h) && Flag(h.settings) == Some(on) && Managed(h).None?
    ensures var (h', r) := SetWhileDown(h, on, mode, e);
      && Sound(h') && Managed(h').None?
      && (r.Ok? ==> Flag(h'.settings) == Some(mode))
      && (r.Unmanaged? ==> Untouched(h, h'))
  {
    PassKeeps(h, e.at(2));
    SaveKeeps(Pass(h, e.at(2)), mode, e.at(3));
  }

  lemma RefreshKeeps(h: Host, on: bool, reexec: bool, e: Env)
    requires Sound(h) && Flag(h.settings) == Some(on)
    ensures var (h', r) := Refresh(h, on, reexec, e);
      && Sound(h') && Follows(h, h') && !r.Unmanaged?
      && (r.Ok? ==> Consistent(h'))
  {
    var (h1, replaced) := Replace(h, Server, on, e, 4);
    ReplaceKeeps(h, Server, on, e, 4);
    if !replaced { return; }
    WaitKeeps(h1, e.polls);
    PassKeeps(WaitUntilReady(h1, e.polls).0, e.at(6));
  }

  lemma ConsiderKeeps(h: Host, on: bool, mode: RestartMode, reexec: bool, running: Option<string>, installed: string, e: Env)
    requires Sound(h) && Flag(h.settings) == Some(on)
    ensures var (h', r) := Consider(h, on, mode, reexec, running, installed, e);
      && Sound(h') && Follows(h, h') && !r.Unmanaged?
      && (r.Ok? ==> !r.status.NotRunning? && (r.status.Restarted? ==> Consistent(h')))
  {
    PassKeeps(h, e.at(3));
    RefreshKeeps(if running.Some? then Pass(h, e.at(3)) else h, on, reexec, e);
  }

  lemma TryRestartKeeps(h: Host, mode: RestartMode, reexec: bool, running: string, installed: string, e: Env)
    requires Sound(h)
    ensures var (h', r) := TryRestart(h, mode, reexec, running, installed, e);
      && Sound(h') && Follows(h, h')
      && (r.Ok? && (r.status.Restarted? || r.status.NotRunning?) ==> Consistent(h'))
      && (r.Unmanaged? ==> Untouched(h, h'))
  {
    if !e.locked { return; }
    var (h1, on) := Load(h, e.at(0));
    PassKeeps(h, e.at(0));
    if on.None? { return; }
    var (h2, active) := Check(h1, Server, e.at(1));
    CheckKeeps(h1, Server, e.at(1));
    if active.None? { return; }
    var (h3, answers) := Look(h2, e.at(2));
    PassKeeps(h2, e.at(2));
    if !active.value { return; }
    ConsiderKeeps(h3, on.value, mode, reexec, if answers then Some(running) else None, installed, e);
  }

  lemma EnsureKeeps(h: Host, e: nat -> Env)
    requires Sound(h)
    ensures var (h', r) := EnsureRemoteControl(h, e);
      && Sound(h')
      && (r.Ok? ==> Flag(h'.settings) == Some(true) && (Consistent(h) ==> Consistent(h')))
      && (r.Unmanaged? ==> Untouched(h, h'))
  {
    PassKeeps(h, e(0).at(0));
    var h1 := Pass(h, e(0).at(0));
    CheckKeeps(h1, Updater, e(0).at(1));
    var h2 := Check(h1, Updater, e(0).at(1)).0;
    BootstrapRepairs(h2, true, e(1));
    SetKeeps(h2, true, e(1));
    StartKeeps(SetRemoteControl(h2, true, e(1)).0, e(2));
  }

  // ----- What a success has brought up -----

  /** The server has this setting in `up`, from where the wait for it to be ready led to `h`. */
  predicate BroughtUp(up: Host, h: Host, polls: seq<Poll>, on: Option<bool>)
  {
    on.Some? && Managed(up) == on && h == WaitUntilReady(up, polls).0
  }

  /** The host just after `Start` has launched the server. */
  function StartUp(h: Host, on: bool, e: Env): Host
  {
    var h := Look(Load(h, e.at(0)).0, e.at(1)).0;
    var h := Look(Check(h, Server, e.at(2)).0, e.at(3)).0;
    Launch(h, Server, on, e.at(4)).0
  }

  /** A start that reports the server started has launched it with the saved setting. */
  lemma StartBringsUp(h: Host, e: Env)
    requires Sound(h) && Start(h, e).1.Ok? && Start(h, e).1.status.Started?
    ensures var on := Flag(h.settings); on.Some? && BroughtUp(StartUp(h, on.value, e), Start(h, e).0, e.polls, on)
  {
    var (h1, on) := Load(h, e.at(0));
    PassKeeps(h, e.at(0));
    var h2 := Look(h1, e.at(1)).0;
    PassKeeps(h1, e.at(1));
    var h3 := Check(h2, Server, e.at(2)).0;
    CheckKeeps(h2, Server, e.at(2));
    PassKeeps(h3, e.at(3));
    LaunchKeeps(Look(h3, e.at(3)).0, Server, on.value, e.at(4));
  }

  /** The host just after `Restart` has launched the server. */
  function RestartUp(h: Host, on: bool, e: Env): Host
  {
    var h := Foreigner(Load(h, e.at(0)).0, e, 1).0;
    Renew(Look(h, e.at(3)).0, Server, on, e, 4).0
  }

  lemma RestartBringsUp(h: Host, e: Env)
    requires Sound(h) && Restart(h, e).1.Ok?
    ensures var on := Flag(h.settings); on.Some? && BroughtUp(RestartUp(h, on.value, e), Restart(h, e).0, e.polls, on)
  {
    var (h1, on) := Load(h, e.at(0));
    PassKeeps(h, e.at(0));
    var h2 := Foreigner(h1, e, 1).0;
    ForeignerKeeps(h1, e, 1);
    PassKeeps(h2, e.at(3));
    RenewKeeps(Look(h2, e.at(3)).0, Server, on.value, e, 4);
  }

  /** The host just after `Switch` has launched the server. */
  function SwitchUp(h: Host, mode: bool, e: Env): Host
  {
    Replace(Look(Save(h, mode, e.at(2)).0, e.at(3)).0, Server, mode, e, 4).0
  }

  lemma SwitchBringsUp(h: Host, mode: bool, e: Env)
    requires Sound(h) && Switch(h, mode, e).1.Ok?
    ensures BroughtUp(SwitchUp(h, mode, e), Switch(h, mode, e).0, e.polls, Some(mode))
  {
    SaveKeeps(h, mode, e.at(2));
    var h1 := Save(h, mode, e.at(2)).0;
    PassKeeps(h1, e.at(3));
    ReplaceKeeps(Look(h1, e.at(3)).0, Server, mode, e, 4);
  }

  /** A change of setting that names the managed server has launched it with the new one. */
  lemma SetBringsUp(h: Host, mode: bool, e: Env)
    requires Sound(h)
    requires var r := SetRemoteControl(h, mode, e).1; r.Ok? && r.status.NowSet? && r.managed
    ensures var checked := Check(Load(h, e.at(0)).0, Server, e.at(1)).0;
      BroughtUp(SwitchUp(checked, mode, e), SetRemoteControl(h, mode, e).0, e.polls, Some(mode))
  {
    PassKeeps(h, e.at(0));
    var h1 := Load(h, e.at(0)).0;
    CheckKeeps(h1, Server, e.at(1));
    SwitchBringsUp(Check(h1, Server, e.at(1)).0, mode, e);
  }

  // ----- Runs -----

  /** Only these write the settings. */
  predicate Writes(op: Operation)
  {
    op.DoBootstrap? || op.DoSet? || op.DoEnsure?
  }

  lemma ExecuteKeeps(h: Host, op: Operation, e: nat -> Env)
    requires Sound(h)
    ensures var (h', r) := Execute(h, op, e);
      && Sound(h')
      && (Consistent(h) && (r.Ok? || r.Unmanaged? || !Writes(op)) ==> Consistent(h'))
      && (r.Unmanaged? ==> Untouched(h, h'))
  {
    match op
    case DoStart => StartKeeps(h, e(0));
    case DoRestart => RestartRepairs(h, e(0));
    case DoStop => StopKeeps(h, e(0));
    case DoVersion => VersionKeeps(h, e(0));
    case DoBootstrap(on) => BootstrapRepairs(h, on, e(0));
    case DoSet(on) => SetKeeps(h, on, e(0));
    case DoEnsure => EnsureKeeps(h, e);
    case DoTryRestart(mode, reexec, running, installed) => TryRestartKeeps(h, mode, reexec, running, installed, e(0));
  }

  lemma {:induction false} RunSnoc(h: Host, calls: seq<Call>, c: Call)
    ensures var (h1, results) := Run(h, calls);
      var (h2, r) := Execute(h1, c.op, c.env);
      Run(h, calls + [c]) == (h2, results + [r])
    decreases |calls|
  {
    if calls == [] {
      var (h2, r) := Execute(h, c.op, c.env);
      assert calls + [c] == [c] && [c][1..] == [];
      assert Run(h2, []) == (h2, []);
      assert [r] + [] == [r] && [] + [r] == [r];
    } else {
      var first := Execute(h, calls[0].op, calls[0].env);
      RunSnoc(first.0, calls[1..], c);
      assert (calls + [c])[1..] == calls[1..] + [c];
      var (h1, results) := Run(first.0, calls[1..]);
      var r := Execute(h1, c.op, c.env).1;
      assert [first.1] + (results + [r]) == [first.1] + results + [r];
    }
  }

  /** No call that writes the settings has failed half way. */
  predicate WritesSucceed(calls: seq<Call>, results: seq<Result>)
    requires |calls| == |results|
  {
    forall i :: 0 <= i < |calls| ==> Writes(calls[i].op) ==> results[i] != Err
  }

  lemma {:induction false} RunKeeps(h: Host, calls: seq<Call>)
    requires Sound(h)
    ensures |Run(h, calls).1| == |calls| && Sound(Run(h, calls).0)
    ensures Consistent(h) && WritesSucceed(calls, Run(h, calls).1) ==> Consistent(Run(h, calls).0)
    decreases |calls|
  {
    if calls != [] {
      ExecuteKeeps(h, calls[0].op, calls[0].env);
      var (h', first) := Execute(h, calls[0].op, calls[0].env);
      RunKeeps(h', calls[1..]);
      var rest := Run(h', calls[1..]).1;
      assert Run(h, calls) == (Run(h', calls[1..]).0, [first] + rest);
      if WritesSucceed(calls, [first] + rest) {
        forall i | 0 <= i < |rest| ensures Writes(calls[1..][i].op) ==> rest[i] != Err {
          assert ([first] + rest)[i + 1] == rest[i];
        }
        assert Writes(calls[0].op) ==> ([first] + rest)[0] != Err;
      }
    }
  }

  /** A host the daemon has never run on: any settings, any processes, none of them recorded. */
  ghost predicate Untended(h: Host)
  {
    && h.pidFile.None? && h.updatePidFile.None? && h.signalled == []
    && forall r :: r in h.processes ==> r.started < h.clock
  }

  /**
  Over every serial run on any host: no process the daemon did not launch is
  ever signalled, and unless a call that writes the settings failed, a running
  managed server has the saved setting.
  */
  lemma EveryRunIsSafe(h: Host, calls: seq<Call>)
    requires Untended(h)
    ensures var (h', results) := Run(h, calls);
      && OnlyOwn(h'.signalled)
      && |results| == |calls|
      && (WritesSucceed(calls, results) ==> Consistent(h'))
  {
    assert Sound(h);
    RunKeeps(h, calls);
  }
}
