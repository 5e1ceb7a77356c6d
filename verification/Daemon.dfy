/**
The app-server daemon's lifecycle operations over the saved settings and the
processes recorded in its pid files.

Operations hold the daemon's lock, so they run one after another, but the world
does not wait: before every step any process may die and foreign processes may
appear, and any step may fail with or without having taken effect.  What the
world does is a parameter of every operation.
*/
module Daemon {
  import opened Common

  // ----- The host -----

  /** A process as the pid file identifies it.  No two processes share both fields. */
  datatype Record = Record(pid: nat, started: nat)

  datatype Program = AppServer(remoteControl: bool) | UpdateLoop | Foreign

  datatype Settings = Missing | Unreadable | Saved(remoteControl: bool)

  datatype Backend = Server | Updater

  datatype Host = Host(
    settings: Settings,
    processes: map<Record, Program>,
    pidFile: Option<Record>,
    updatePidFile: Option<Record>,
    clock: nat,
    signalled: seq<Program>)  // every program the daemon has sent a termination signal to

  /** How a step goes: it works, fails untouched, fails after taking effect, or fails half done. */
  datatype Outcome = Done | Refused | Late | Torn

  datatype Event = Dies(r: Record) | Arrives(pid: nat)

  /** What happens just before a step, how the step goes, and the pid of a process it launches. */
  datatype Moment = Moment(events: seq<Event>, outcome: Outcome, pid: nat)

  datatype Poll = Poll(moment: Moment, late: bool)

  datatype Env = Env(locked: bool, at: nat -> Moment, polls: seq<Poll>)

  function File(h: Host, b: Backend): Option<Record>
  {
    if b.Server? then h.pidFile else h.updatePidFile
  }

  function WithFile(h: Host, b: Backend, r: Option<Record>): Host
  {
    if b.Server? then h.(pidFile := r) else h.(updatePidFile := r)
  }

  predicate Active(h: Host, b: Backend)
  {
    File(h, b).Some? && File(h, b).value in h.processes
  }

  /** A missing settings file stands for the defaults. */
  function Flag(s: Settings): Option<bool>
  {
    match s
    case Missing => Some(false)
    case Unreadable => None
    case Saved(on) => Some(on)
  }

  // ----- Steps -----

  function Happen(h: Host, w: Event): Host
  {
    match w
    case Dies(r) => h.(processes := h.processes - {r})
    case Arrives(pid) => h.(processes := h.processes[Record(pid, h.clock) := Foreign], clock := h.clock + 1)
  }

  function After(h: Host, events: seq<Event>): Host
    decreases |events|
  {
    if events == [] then h else After(Happen(h, events[0]), events[1..])
  }

  function Pass(h: Host, m: Moment): Host
  {
    After(h, m.events)
  }

  function Load(h: Host, m: Moment): (Host, Option<bool>)
  {
    (Pass(h, m), if m.outcome.Done? then Flag(h.settings) else None)
  }

  function Save(h: Host, on: bool, m: Moment): (Host, bool)
  {
    var settings := match m.outcome case Refused => h.settings case Torn => Unreadable case _ => Saved(on);
    (Pass(h, m).(settings := settings), m.outcome.Done?)
  }

  /** A step that only looks: the socket probe, the managed binary, its version, the lock. */
  function Look(h: Host, m: Moment): (Host, bool)
  {
    (Pass(h, m), m.outcome.Done?)
  }

  /** `is_starting_or_running`: a stale record is removed. */
  function Check(h: Host, b: Backend, m: Moment): (Host, Option<bool>)
  {
    var h := Pass(h, m);
    if !m.outcome.Done? then (h, None)
    else if Active(h, b) then (h, Some(true))
    else (WithFile(h, b, None), Some(false))
  }

  /** `PidBackend::stop`: signals the recorded process, if it is still the recorded one. */
  function Terminate(h: Host, b: Backend, m: Moment): (Host, bool)
  {
    End(Pass(h, m), b, m.outcome)
  }

  function End(h: Host, b: Backend, outcome: Outcome): (Host, bool)
  {
    if outcome.Refused? then (h, false)
    else if !Active(h, b) then (WithFile(h, b, None), outcome.Done?)
    else
      match outcome
      case Torn => (Signal(h, b), false)
      case Late => (Vanish(Signal(h, b), File(h, b).value), false)
      case Done => (WithFile(Vanish(Signal(h, b), File(h, b).value), b, None), true)
  }

  function Signal(h: Host, b: Backend): Host
    requires Active(h, b)
  {
    h.(signalled := h.signalled + [h.processes[File(h, b).value]])
  }

  function Vanish(h: Host, r: Record): Host
  {
    h.(processes := h.processes - {r})
  }

  function ProgramOf(b: Backend, on: bool): Program
  {
    if b.Server? then AppServer(on) else UpdateLoop
  }

  /** `PidBackend::start`: launches nothing when the recorded process is alive. */
  function Launch(h: Host, b: Backend, on: bool, m: Moment): (Host, bool)
  {
    Begin(Pass(h, m), b, on, m.pid, m.outcome)
  }

  function Begin(h: Host, b: Backend, on: bool, pid: nat, outcome: Outcome): (Host, bool)
  {
    if outcome.Refused? then (h, false)
    else if Active(h, b) then (h, outcome.Done?)
    else
      var r, p, cleared := Record(pid, h.clock), ProgramOf(b, on), WithFile(h, b, None);
      match outcome
      case Done => (WithFile(Spawn(cleared, r, p), b, Some(r)), true)
      case Torn => (Spawn(cleared, r, p), false)
      case Late => (cleared.(signalled := h.signalled + [p]), false)  // signalled by the daemon itself
  }

  function Spawn(h: Host, r: Record, p: Program): Host
  {
    h.(processes := h.processes[r := p], clock := h.clock + 1)
  }

  /** `wait_until_ready`: probes until one answers or the deadline has passed. */
  function WaitUntilReady(h: Host, polls: seq<Poll>): (Host, bool)
    decreases |polls|
  {
    if polls == [] then (h, false)
    else
      var (h, ready) := Look(h, polls[0].moment);
      if ready || polls[0].late then (h, ready) else WaitUntilReady(h, polls[1..])
  }

  // ----- Operations -----

  datatype Status =
    | AlreadyRunning | Started | Restarted | Stopped | NotRunning | Running
    | Bootstrapped | NowSet(on: bool) | AlreadySet(on: bool)
    | Busy | NotReady | AlreadyCurrent

  /** `managed` tells whether the output names the managed backend. */
  datatype Result = Ok(status: Status, managed: bool) | Unmanaged | Err

  function Finish(h: Host, polls: seq<Poll>, status: Status): (Host, Result)
  {
    var (h, ready) := WaitUntilReady(h, polls);
    (h, if ready then Ok(status, true) else Err)
  }

  function Start(h: Host, e: Env): (Host, Result)
  {
    var (h, on) := Load(h, e.at(0));
    if on.None? then (h, Err) else
    var (h, answers) := Look(h, e.at(1));
    var (h, active) := Check(h, Server, e.at(2));
    if active.None? then (h, Err)
    else if answers then (h, Ok(AlreadyRunning, active.value))
    else if active.value then Finish(h, e.polls, AlreadyRunning)
    else StartFromDown(h, on.value, e)
  }

  function StartFromDown(h: Host, on: bool, e: Env): (Host, Result)
  {
    var (h, binary) := Look(h, e.at(3));
    if !binary then (h, Err) else
    var (h, launched) := Launch(h, Server, on, e.at(4));
    if !launched then (h, Err) else Finish(h, e.polls, Started)
  }

  /** Stops the running backend, then starts one with the given setting. */
  function Replace(h: Host, b: Backend, on: bool, e: Env, k: nat): (Host, bool)
  {
    var (h, stopped) := Terminate(h, b, e.at(k));
    if !stopped then (h, false) else Launch(h, b, on, e.at(k + 1))
  }

  /** As `Replace`, where the backend may not be running. */
  function Renew(h: Host, b: Backend, on: bool, e: Env, k: nat): (Host, bool)
  {
    var (h, active) := Check(h, b, e.at(k));
    if active.None? then (h, false)
    else if active.value then Replace(h, b, on, e, k + 1)
    else Launch(h, b, on, e.at(k + 2))
  }

  /** Whether an unmanaged server answers on the socket, or the check for it fails. */
  function Foreigner(h: Host, e: Env, k: nat): (Host, Option<Result>)
  {
    var (h, answers) := Look(h, e.at(k));
    if !answers then (h, None) else
    var (h, active) := Check(h, Server, e.at(k + 1));
    (h, if active.None? then Some(Err) else if active.value then None else Some(Unmanaged))
  }

  function Restart(h: Host, e: Env): (Host, Result)
  {
    var (h, on) := Load(h, e.at(0));
    if on.None? then (h, Err) else
    var (h, refusal) := Foreigner(h, e, 1);
    if refusal.Some? then (h, refusal.value) else
    var (h, binary) := Look(h, e.at(3));
    if !binary then (h, Err) else
    var (h, renewed) := Renew(h, Server, on.value, e, 4);
    if !renewed then (h, Err) else Finish(h, e.polls, Restarted)
  }

  function Stop(h: Host, e: Env): (Host, Result)
  {
    var (h, on) := Load(h, e.at(0));
    if on.None? then (h, Err) else
    var (h, active) := Check(h, Server, e.at(1));
    if active.None? then (h, Err)
    else if active.value then
      var (h, stopped) := Terminate(h, Server, e.at(2));
      (h, if stopped then Ok(Stopped, true) else Err)
    else
      var (h, answers) := Look(h, e.at(2));
      (h, if answers then Unmanaged else Ok(NotRunning, false))
  }

  function Version(h: Host, e: Env): (Host, Result)
  {
    var (h, on) := Load(h, e.at(0));
    if on.None? then (h, Err) else
    var (h, answers) := Look(h, e.at(1));
    if !answers then (h, Err) else
    var (h, active) := Check(h, Server, e.at(2));
    (h, if active.None? then Err else Ok(Running, active.value))
  }

  /** `bootstrap_locked`. */
  function Bootstrap(h: Host, on: bool, e: Env): (Host, Result)
  {
    var (h, binary) := Look(h, e.at(0));
    if !binary then (h, Err) else
    var (h, refusal) := Foreigner(h, e, 1);
    if refusal.Some? then (h, refusal.value) else
    var (h, saved) := Save(h, on, e.at(3));
    if !saved then (h, Err) else Install(h, on, e)
  }

  /** Replaces the server and the updater. */
  function Install(h: Host, on: bool, e: Env): (Host, Result)
  {
    var (h, renewed) := Renew(h, Server, on, e, 4);
    if !renewed then (h, Err) else
    var (h, updating) := Renew(h, Updater, on, e, 7);
    if !updating then (h, Err) else Finish(h, e.polls, Bootstrapped)
  }

  /** `set_remote_control_locked`. */
  function SetRemoteControl(h: Host, mode: bool, e: Env): (Host, Result)
  {
    var (h, on) := Load(h, e.at(0));
    if on.None? then (h, Err) else
    var (h, active) := Check(h, Server, e.at(1));
    if active.None? then (h, Err)
    else if active.value then
      if on.value == mode then Finish(h, e.polls, AlreadySet(mode)) else Switch(h, mode, e)
    else SetWhileDown(h, on.value, mode, e)
  }

  function SetWhileDown(h: Host, on: bool, mode: bool, e: Env): (Host, Result)
  {
    var (h, answers) := Look(h, e.at(2));
    if answers then (h, Unmanaged)
    else if on == mode then (h, Ok(AlreadySet(mode), false))
    else
      var (h, saved) := Save(h, mode, e.at(3));
      (h, if saved then Ok(NowSet(mode), false) else Err)
  }

  /** Saves the new setting first, and only then looks for the binary and restarts the backend. */
  function Switch(h: Host, mode: bool, e: Env): (Host, Result)
  {
    var (h, saved) := Save(h, mode, e.at(2));
    if !saved then (h, Err) else
    var (h, binary) := Look(h, e.at(3));
    if !binary then (h, Err) else
    var (h, replaced) := Replace(h, Server, mode, e, 4);
    if !replaced then (h, Err) else Finish(h, e.polls, NowSet(mode))
  }

  datatype RestartMode = IfVersionChanged | Always

  datatype RestartDecision = Wait | Keep | Renewal

  /** `restart_decision`. */
  function Decide(mode: RestartMode, running: Option<string>, installed: string): RestartDecision
  {
    if mode.Always? then Renewal
    else if running.None? then Wait
    else if running.value == installed then Keep
    else Renewal
  }

  /** `try_restart_if_running`; `reexec` asks the updater to re-execute itself after a restart. */
  function TryRestart(h: Host, mode: RestartMode, reexec: bool, running: string, installed: string, e: Env): (Host, Result)
  {
    if !e.locked then (h, Ok(Busy, false)) else
    var (h, on) := Load(h, e.at(0));
    if on.None? then (h, Err) else
    var (h, active) := Check(h, Server, e.at(1));
    if active.None? then (h, Err) else
    var (h, answers) := Look(h, e.at(2));
    if !active.value then (h, if answers then Unmanaged else Ok(NotRunning, false))
    else Consider(h, on.value, mode, reexec, if answers then Some(running) else None, installed, e)
  }

  /** `running` is the version the server reports, if it answers; only then is the installed version looked up. */
  function Consider(h: Host, on: bool, mode: RestartMode, reexec: bool, running: Option<string>, installed: string, e: Env)
    : (Host, Result)
  {
    var (h, versioned) := if running.Some? then Look(h, e.at(3)) else (h, true);
    if !versioned then (h, Err) else
    match Decide(mode, running, installed)
    case Wait => (h, Ok(NotReady, false))
    case Keep => (h, Ok(AlreadyCurrent, false))
    case Renewal => Refresh(h, on, reexec, e)
  }

  function Refresh(h: Host, on: bool, reexec: bool, e: Env): (Host, Result)
  {
    var (h, replaced) := Replace(h, Server, on, e, 4);
    if !replaced then (h, Err) else
    var (h, ready) := WaitUntilReady(h, e.polls);
    if !ready then (h, Err)
    else if !reexec then (h, Ok(Restarted, false))
    else
      var (h, executed) := Look(h, e.at(6));
      (h, if executed then Ok(Restarted, false) else Err)
  }

  /** `ensure_remote_control_started`. */
  function EnsureRemoteControl(h: Host, e: nat -> Env): (Host, Result)
  {
    var (h, on) := Load(h, e(0).at(0));
    if on.None? then (h, Err) else
    var (h, updating) := Check(h, Updater, e(0).at(1));
    if updating.None? then (h, Err)
    else if !updating.value then Bootstrap(h, true, e(1))
    else
      var (h, set1) := SetRemoteControl(h, true, e(1));
      if !set1.Ok? then (h, set1) else Start(h, e(2))
  }

  datatype Operation =
    | DoStart | DoRestart | DoStop | DoVersion | DoBootstrap(on: bool) | DoSet(on: bool) | DoEnsure
    | DoTryRestart(mode: RestartMode, reexec: bool, running: string, installed: string)

  function Execute(h: Host, op: Operation, e: nat -> Env): (Host, Result)
  {
    if !e(0).locked && !op.DoVersion? && !op.DoTryRestart? then (h, Err) else
    match op
    case DoStart => Start(h, e(0))
    case DoRestart => Restart(h, e(0))
    case DoStop => Stop(h, e(0))
    case DoVersion => Version(h, e(0))
    case DoBootstrap(on) => Bootstrap(h, on, e(0))
    case DoSet(on) => SetRemoteControl(h, on, e(0))
    case DoEnsure => EnsureRemoteControl(h, e)
    case DoTryRestart(mode, reexec, running, installed) => TryRestart(h, mode, reexec, running, installed, e(0))
  }

  datatype Call = Call(op: Operation, env: nat -> Env)

  function Run(h: Host, calls: seq<Call>): (Host, seq<Result>)
    decreases |calls|
  {
    if calls == [] then (h, [])
    else
      var (h, first) := Execute(h, calls[0].op, calls[0].env);
      var (h, rest) := Run(h, calls[1..]);
      (h, [first] + rest)
  }
}
