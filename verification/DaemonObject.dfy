/**
The daemon as an object that changes the host step by step.  Every step and
every operation keeps the invariant and says what became of the settings and
the managed server; a whole run carries the safety theorem.
*/
module DaemonObject {
  import opened Common
  import opened Daemon
  import opened DaemonSafety
  import opened DaemonFailures
  import opened DaemonResults

  class DaemonProcess {
    var host: Host

    ghost predicate Valid()
      reads this
    {
      Sound(host)
    }

    constructor (h: Host)
      requires Sound(h)
      ensures Valid() && host == h
    {
      host := h;
    }

    // ----- Steps -----

    method LoadSettings(m: Moment) returns (on: Option<bool>)
      requires Valid()
      modifies this
      ensures Valid()
      ensures (host, on) == Load(old(host), m)
      ensures Untouched(old(host), host)
    {
      PassKeeps(host, m);
      host := Pass(host, m);
      on := None;
      if m.outcome.Done? { on := Flag(host.settings); }
      PassKeepsSettings(old(host), m.events);
    }

    method Probe(m: Moment) returns (ok: bool)
      requires Valid()
      modifies this
      ensures Valid()
      ensures (host, ok) == Look(old(host), m)
      ensures Untouched(old(host), host)
    {
      PassKeeps(host, m);
      host := Pass(host, m);
      ok := m.outcome.Done?;
    }

    method IsRunning(b: Backend, m: Moment) returns (active: Option<bool>)
      requires Valid()
      modifies this
      ensures Valid()
      ensures (host, active) == Check(old(host), b, m)
      ensures Untouched(old(host), host) && (b.Server? && active.Some? ==> (active.value <==> Managed(host).Some?))
    {
      CheckKeeps(host, b, m);
      host := Pass(host, m);
      if !m.outcome.Done? { return None; }
      if Active(host, b) { return Some(true); }
      host := WithFile(host, b, None);
      return Some(false);
    }

    method SaveSettings(on: bool, m: Moment) returns (ok: bool)
      requires Valid()
      modifies this
      ensures Valid()
      ensures (host, ok) == Save(old(host), on, m)
      ensures Fades(old(host), host) && (ok ==> host.settings == Saved(on))
    {
      SaveKeeps(host, on, m);
      PassKeepsSettings(host, m.events);
      host := Pass(host, m);
      if m.outcome.Torn? {
        host := host.(settings := Unreadable);
      } else if !m.outcome.Refused? {
        host := host.(settings := Saved(on));
      }
      ok := m.outcome.Done?;
    }

    method StopBackend(b: Backend, m: Moment) returns (ok: bool)
      requires Valid()
      modifies this
      ensures Valid()
      ensures (host, ok) == Terminate(old(host), b, m)
      ensures host.settings == old(host).settings && Fades(old(host), host) && (b.Server? && ok ==> Managed(host).None?)
    {
      TerminateKeeps(host, b, m);
      host := Pass(host, m);
      if m.outcome.Refused? { return false; }
      ok := m.outcome.Done?;
      if Active(host, b) {
        var r := File(host, b).value;
        host := Signal(host, b);
        if m.outcome.Torn? { return; }
        host := Vanish(host, r);
        if m.outcome.Late? { return; }
      }
      host := WithFile(host, b, None);
    }

    method StartBackend(b: Backend, on: bool, m: Moment) returns (ok: bool)
      requires Valid()
      modifies this
      ensures Valid()
      ensures (host, ok) == Launch(old(host), b, on, m)
      ensures host.settings == old(host).settings && (b.Server? && ok && Managed(old(host)).None? ==> Managed(host) == Some(on))
    {
      LaunchKeeps(host, b, on, m);
      host := Pass(host, m);
      if m.outcome.Refused? { return false; }
      ok := m.outcome.Done?;
      if Active(host, b) { return; }
      var r, p := Record(m.pid, host.clock), ProgramOf(b, on);
      host := WithFile(host, b, None);
      if m.outcome.Late? {
        host := host.(signalled := host.signalled + [p]);
      } else {
        host := Spawn(host, r, p);
        if ok { host := WithFile(host, b, Some(r)); }
      }
    }

    method Wait(polls: seq<Poll>) returns (ready: bool)
      requires Valid()
      modifies this
      ensures Valid()
      ensures (host, ready) == WaitUntilReady(old(host), polls)
      ensures ready <==> Answered(polls)
      ensures Untouched(old(host), host)
    {
      WaitKeeps(host, polls);
      ReadyIff(host, polls);
      ready := false;
      for i := 0 to |polls|
        invariant Valid() && WaitUntilReady(host, polls[i..]) == WaitUntilReady(old(host), polls)
      {
        assert polls[i..][1..] == polls[i + 1..];
        ready := Probe(polls[i].moment);
        if ready || polls[i].late { return; }
      }
      ready := false;
    }

    method AwaitReady(polls: seq<Poll>, status: Status) returns (r: Result)
      requires Valid()
      modifies this
      ensures Valid()
      ensures (host, r) == Finish(old(host), polls, status)
      ensures Untouched(old(host), host)
    {
      var ready := Wait(polls);
      r := if ready then Ok(status, true) else Err;
    }

    method ReplaceBackend(b: Backend, on: bool, e: Env, k: nat) returns (ok: bool)
      requires Valid()
      modifies this
      ensures Valid()
      ensures (host, ok) == Replace(old(host), b, on, e, k)
      ensures host.settings == old(host).settings && (b.Server? && ok ==> Managed(host) == Some(on))
    {
      ReplaceKeeps(host, b, on, e, k);
      ok := StopBackend(b, e.at(k));
      if ok { ok := StartBackend(b, on, e.at(k + 1)); }
    }

    method RenewBackend(b: Backend, on: bool, e: Env, k: nat) returns (ok: bool)
      requires Valid()
      modifies this
      ensures Valid()
      ensures (host, ok) == Renew(old(host), b, on, e, k)
      ensures host.settings == old(host).settings && (b.Server? && ok ==> Managed(host) == Some(on))
    {
      RenewKeeps(host, b, on, e, k);
      var active := IsRunning(b, e.at(k));
      if active.None? { return false; }
      if active.value {
        ok := ReplaceBackend(b, on, e, k + 1);
      } else {
        ok := StartBackend(b, on, e.at(k + 2));
      }
    }

    method LookForForeigner(e: Env, k: nat) returns (refusal: Option<Result>)
      requires Valid()
      modifies this
      ensures Valid()
      ensures (host, refusal) == Foreigner(old(host), e, k)
      ensures Untouched(old(host), host)
    {
      ForeignerKeeps(host, e, k);
      var answers := Probe(e.at(k));
      if !answers { return None; }
      var active := IsRunning(Server, e.at(k + 1));
      refusal := if active.None? then Some(Err) else if active.value then None else Some(Unmanaged);
    }

    // ----- Operations -----

    method StartServer(e: Env) returns (r: Result)
      requires Valid()
      modifies this
      ensures Valid()
      ensures (host, r) == Start(old(host), e)
      ensures Follows(old(host), host) && !r.Unmanaged? && (Consistent(old(host)) ==> Consistent(host))
      ensures r == StartResult(old(host), e)
    {
      StartExact(host, e);
      StartKeeps(host, e);
      var on := LoadSettings(e.at(0));
      if on.None? { return Err; }
      var answers := Probe(e.at(1));
      var active := IsRunning(Server, e.at(2));
      if active.None? { return Err; }
      if answers { return Ok(AlreadyRunning, active.value); }
      if active.value {
        r := AwaitReady(e.polls, AlreadyRunning);
        return;
      }
      var binary := Probe(e.at(3));
      if !binary { return Err; }
      var ok := StartBackend(Server, on.value, e.at(4));
      if !ok { return Err; }
      r := AwaitReady(e.polls, Started);
    }

    method RestartServer(e: Env) returns (r: Result)
      requires Valid()
      modifies this
      ensures Valid()
      ensures (host, r) == Restart(old(host), e)
      ensures Follows(old(host), host) && (r.Ok? ==> Consistent(host)) && (r.Unmanaged? ==> Untouched(old(host), host))
      ensures r == RestartResult(old(host), e)
    {
      RestartExact(host, e);
      RestartRepairs(host, e);
      var on := LoadSettings(e.at(0));
      if on.None? { return Err; }
      var refusal := LookForForeigner(e, 1);
      if refusal.Some? { return refusal.value; }
      var binary := Probe(e.at(3));
      if !binary { return Err; }
      var ok := RenewBackend(Server, on.value, e, 4);
      if !ok { return Err; }
      r := AwaitReady(e.polls, Restarted);
    }

    method StopServer(e: Env) returns (r: Result)
      requires Valid()
      modifies this
      ensures Valid()
      ensures (host, r) == Stop(old(host), e)
      ensures Fades(old(host), host) && (r.Ok? ==> Managed(host).None?) && (r.Unmanaged? ==> Untouched(old(host), host))
      ensures r == StopResult(old(host), e)
    {
      StopExact(host, e);
      StopKeeps(host, e);
      var on := LoadSettings(e.at(0));
      if on.None? { return Err; }
      var active := IsRunning(Server, e.at(1));
      if active.None? { return Err; }
      if active.value {
        var ok := StopBackend(Server, e.at(2));
        return if ok then Ok(Stopped, true) else Err;
      }
      var answers := Probe(e.at(2));
      r := if answers then Unmanaged else Ok(NotRunning, false);
    }

    method ReportVersion(e: Env) returns (r: Result)
      requires Valid()
      modifies this
      ensures Valid()
      ensures (host, r) == Version(old(host), e)
      ensures Untouched(old(host), host)
      ensures r == VersionResult(old(host), e)
    {
      VersionExact(host, e);
      VersionKeeps(host, e);
      var on := LoadSettings(e.at(0));
      if on.None? { return Err; }
      var answers := Probe(e.at(1));
      if !answers { return Err; }
      var active := IsRunning(Server, e.at(2));
      r := if active.None? then Err else Ok(Running, active.value);
    }

    method BootstrapServer(on: bool, e: Env) returns (r: Result)
      requires Valid()
      modifies this
      ensures Valid()
      ensures (host, r) == Bootstrap(old(host), on, e)
      ensures (r.Ok? ==> Consistent(host) && host.settings == Saved(on)) && (r.Unmanaged? ==> Untouched(old(host), host))
      ensures Consistent(old(host)) ==> (!Consistent(host) <==> BootstrapBreaks(old(host), on, e))
      ensures r == BootstrapResult(old(host), on, e)
    {
      BootstrapExact(host, on, e);
      BootstrapRepairs(host, on, e);
      if Consistent(host) { BootstrapBreaksIff(host, on, e); }
      var ok := Probe(e.at(0));
      if !ok { return Err; }
      var refusal := LookForForeigner(e, 1);
      if refusal.Some? { return refusal.value; }
      ok := SaveSettings(on, e.at(3));
      if !ok { return Err; }
      ok := RenewBackend(Server, on, e, 4);
      if !ok { return Err; }
      ok := RenewBackend(Updater, on, e, 7);
      if !ok { return Err; }
      r := AwaitReady(e.polls, Bootstrapped);
    }

    method SetMode(mode: bool, e: Env) returns (r: Result)
      requires Valid()
      modifies this
      ensures Valid()
      ensures (host, r) == SetRemoteControl(old(host), mode, e)
      ensures (r.Ok? ==> Flag(host.settings) == Some(mode)) && (r.Unmanaged? ==> Untouched(old(host), host))
      ensures Consistent(old(host)) ==> (!Consistent(host) <==> SetBreaks(old(host), mode, e))
      ensures r == SetResult(old(host), mode, e)
    {
      SetExact(host, mode, e);
      SetKeeps(host, mode, e);
      if Consistent(host) { SetBreaksIff(host, mode, e); }
      var on := LoadSettings(e.at(0));
      if on.None? { return Err; }
      var active := IsRunning(Server, e.at(1));
      if active.None? { return Err; }
      if !active.value {
        var answers := Probe(e.at(2));
        if answers { return Unmanaged; }
        if on.value == mode { return Ok(AlreadySet(mode), false); }
        var saved := SaveSettings(mode, e.at(3));
        return if saved then Ok(NowSet(mode), false) else Err;
      }
      if on.value == mode {
        r := AwaitReady(e.polls, AlreadySet(mode));
        return;
      }
      var ok := SaveSettings(mode, e.at(2));
      if !ok { return Err; }
      ok := Probe(e.at(3));
      if !ok { return Err; }
      ok := ReplaceBackend(Server, mode, e, 4);
      if !ok { return Err; }
      r := AwaitReady(e.polls, NowSet(mode));
    }

    method RestartIfRunning(mode: RestartMode, reexec: bool, running: string, installed: string, e: Env) returns (r: Result)
      requires Valid()
      modifies this
      ensures Valid()
      ensures (host, r) == TryRestart(old(host), mode, reexec, running, installed, e)
      ensures Follows(old(host), host) && (r.Ok? && (r.status.Restarted? || r.status.NotRunning?) ==> Consistent(host))
      ensures r.Unmanaged? ==> Untouched(old(host), host)
      ensures r == TryRestartResult(old(host), mode, reexec, running, installed, e)
    {
      TryRestartExact(host, mode, reexec, running, installed, e);
      TryRestartKeeps(host, mode, reexec, running, installed, e);
      if !e.locked { return Ok(Busy, false); }
      var on := LoadSettings(e.at(0));
      if on.None? { return Err; }
      var active := IsRunning(Server, e.at(1));
      if active.None? { return Err; }
      var answers := Probe(e.at(2));
      if !active.value { return if answers then Unmanaged else Ok(NotRunning, false); }
      if answers {
        var versioned := Probe(e.at(3));
        if !versioned { return Err; }
      }
      match Decide(mode, if answers then Some(running) else None, installed) {
        case Wait => return Ok(NotReady, false);
        case Keep => return Ok(AlreadyCurrent, false);
        case Renewal =>
      }
      var ok := ReplaceBackend(Server, on.value, e, 4);
      if !ok { return Err; }
      ok := Wait(e.polls);
      if !ok { return Err; }
      if reexec { ok := Probe(e.at(6)); }
      r := if ok then Ok(Restarted, false) else Err;
    }

    method EnsureStarted(e: nat -> Env) returns (r: Result)
      requires Valid()
      modifies this
      ensures Valid()
      ensures (host, r) == EnsureRemoteControl(old(host), e)
      ensures (r.Ok? ==> Flag(host.settings) == Some(true)) && (r.Unmanaged? ==> Untouched(old(host), host))
      ensures Consistent(old(host)) ==> (!Consistent(host) <==> EnsureBreaks(old(host), e))
    {
      EnsureKeeps(host, e);
      if Consistent(host) { EnsureBreaksIff(host, e); }
      var on := LoadSettings(e(0).at(0));
      if on.None? { return Err; }
      var updating := IsRunning(Updater, e(0).at(1));
      if updating.None? { return Err; }
      if !updating.value {
        r := BootstrapServer(true, e(1));
        return;
      }
      r := SetMode(true, e(1));
      if r.Ok? { r := StartServer(e(2)); }
    }

    /** One call, with the operation lock taken first where the source takes it. */
    method ExecuteCall(op: Operation, e: nat -> Env) returns (r: Result)
      requires Valid()
      modifies this
      ensures Valid() && (host, r) == Execute(old(host), op, e)
      ensures Consistent(old(host)) ==> (!Consistent(host) <==> Breaks(old(host), op, e))
    {
      if Consistent(host) { ExecuteBreaksIff(host, op, e); }
      if !e(0).locked && !op.DoVersion? && !op.DoTryRestart? { return Err; }
      match op
      case DoStart => r := StartServer(e(0));
      case DoRestart => r := RestartServer(e(0));
      case DoStop => r := StopServer(e(0));
      case DoVersion => r := ReportVersion(e(0));
      case DoBootstrap(on) => r := BootstrapServer(on, e(0));
      case DoSet(on) => r := SetMode(on, e(0));
      case DoEnsure => r := EnsureStarted(e);
      case DoTryRestart(mode, reexec, running, installed) => r := RestartIfRunning(mode, reexec, running, installed, e(0));
    }
  }

  /**
  The daemon through any serial run on a host it has never run on: only its own
  processes are signalled, and unless a call that writes the settings failed, a
  running managed server has the saved setting.
  */
  method ExecuteAll(h: Host, calls: seq<Call>) returns (daemon: DaemonProcess, results: seq<Result>)
    requires Untended(h)
    ensures fresh(daemon) && daemon.Valid() && (daemon.host, results) == Run(h, calls)
    ensures OnlyOwn(daemon.host.signalled) && |results| == |calls|
    ensures WritesSucceed(calls, results) ==> Consistent(daemon.host)
  {
    daemon := new DaemonProcess(h);
    results := [];
    for i := 0 to |calls|
      invariant fresh(daemon) && daemon.Valid() && (daemon.host, results) == Run(h, calls[..i])
    {
      RunSnoc(h, calls[..i], calls[i]);
      assert calls[..i + 1] == calls[..i] + [calls[i]];
      var r := daemon.ExecuteCall(calls[i].op, calls[i].env);
      results := results + [r];
    }
    assert calls[..|calls|] == calls;
    EveryRunIsSafe(h, calls);
  }

  lemma {:induction false} PassKeepsSettings(h: Host, events: seq<Event>)
    ensures After(h, events).settings == h.settings
    decreases |events|
  {
    if events != [] { PassKeepsSettings(Happen(h, events[0]), events[1..]); }
  }
}
