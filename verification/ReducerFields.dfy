/**
Field by field: where every part of a turn's record, of a pending request and
of a thread comes from, and that events carry exactly that.
*/
module ReducerFields {
  import opened Common
  import opened AnalyticsReducer
  import opened ReducerTurns

  // ----- Turns -----

  predicate IsStarted(f: Fact, turn: string) { f.OfTurn? && f.t.TurnStarted? && f.t.turn == turn }
  predicate IsDiff(f: Fact, turn: string) { f.OfTurn? && f.t.TurnDiffUpdated? && f.t.turn == turn }
  predicate IsUsage(f: Fact, turn: string) { f.OfTurn? && f.t.TurnTokenUsage? && f.t.turn == turn }

  /** A steer response that finds its request pending. */
  predicate Steers(s: Reducer, f: Fact, turn: string)
  {
    && f.OfTurn? && f.t.TurnSteerResponse? && f.t.turn == turn
    && (f.t.connection, f.t.request) in s.requests && s.requests[(f.t.connection, f.t.request)].PendingTurnSteer?
  }

  /** The facts that begin a turn's record if there is none. */
  predicate Begins(s: Reducer, f: Fact, turn: string)
  {
    Starts(s, f, turn) || Configures(f, turn) || Completes(f, turn) || IsStarted(f, turn) || IsDiff(f, turn) || IsUsage(f, turn)
  }

  function Asked(s: Reducer, f: Fact, turn: string): PendingRequest
    requires Starts(s, f, turn)
  {
    s.requests[(f.t.connection, f.t.request)]
  }

  // One function a field: what it is after a fact, given what it was.

  function ConnectionAfter(s: Reducer, f: Fact, turn: string, was: Option<nat>): Option<nat>
  {
    if Starts(s, f, turn) then Some(f.t.connection) else was
  }

  function ThreadAfter(s: Reducer, f: Fact, turn: string, was: Option<string>): Option<string>
  {
    if Starts(s, f, turn) then Some(Asked(s, f, turn).thread)
    else if Configures(f, turn) then Some(f.t.config.thread)
    else if IsDiff(f, turn) || IsUsage(f, turn) then Some(f.t.thread)
    else was
  }

  function ImagesAfter(s: Reducer, f: Fact, turn: string, was: Option<nat>): Option<nat>
  {
    if Starts(s, f, turn) then Some(Asked(s, f, turn).images)
    else if Configures(f, turn) then Some(f.t.config.images)
    else was
  }

  function ConfigAfter(f: Fact, turn: string, was: Option<Config>): Option<Config> { if Configures(f, turn) then Some(f.t.config) else was }
  function StartedAfter(f: Fact, turn: string, was: Option<nat>): Option<nat> { if IsStarted(f, turn) then f.t.startedAt else was }
  function UsageAfter(f: Fact, turn: string, was: Option<string>): Option<string> { if IsUsage(f, turn) then Some(f.t.tokens) else was }
  function CompletedAfter(f: Fact, turn: string, was: Option<string>): Option<string> { if Completes(f, turn) then Some(f.t.completion) else was }
  function DiffAfter(f: Fact, turn: string, was: Option<Diff>): Option<Diff> { if IsDiff(f, turn) then Some(f.t.diff) else was }

  /** The record after a fact, all but its tool counts. */
  function After(s: Reducer, f: Fact, turn: string, t: Turn): Turn
  {
    Turn(ConnectionAfter(s, f, turn, t.connection), ThreadAfter(s, f, turn, t.thread), ImagesAfter(s, f, turn, t.images),
         ConfigAfter(f, turn, t.config), StartedAfter(f, turn, t.startedAt), UsageAfter(f, turn, t.tokens),
         CompletedAfter(f, turn, t.completed), DiffAfter(f, turn, t.diff),
         t.steers + Bit(Steers(s, f, turn) && turn in s.turns), t.tools)
  }

  lemma UpdateIsAfter(s: Reducer, f: TurnFact, turn: string)
    ensures turn in UpdateTurn(s, f).turns <==> turn in s.turns || Begins(s, OfTurn(f), turn)
    ensures turn in UpdateTurn(s, f).turns ==> UpdateTurn(s, f).turns[turn] == After(s, OfTurn(f), turn, TurnOf(s, turn))
  {
    match f
    case TurnStartResponse(c, r, t) => StartIsAfter(s, c, r, t, turn);
    case TurnSteerResponse(c, r, t) =>
    case _ =>
  }

  lemma StartIsAfter(s: Reducer, c: nat, r: RequestId, t: string, turn: string)
    ensures var f := TurnStartResponse(c, r, t);
      && (turn in UpdateTurn(s, f).turns <==> turn in s.turns || Begins(s, OfTurn(f), turn))
      && (turn in UpdateTurn(s, f).turns ==> UpdateTurn(s, f).turns[turn] == After(s, OfTurn(f), turn, TurnOf(s, turn)))
  {
  }

  /** A turn's record since it began, field by field. */
  function RecordOf(facts: seq<Fact>, turn: string): Turn
  {
    if facts == [] || turn !in Run(facts).0.turns then NewTurn
    else
      var init, f := facts[..|facts| - 1], facts[|facts| - 1];
      After(Run(init).0, f, turn, RecordOf(init, turn))
  }

  lemma StepRecord(s: Reducer, f: Fact, turn: string)
    requires turn in Ingest(s, f).0.turns
    ensures Ingest(s, f).0.turns[turn].(tools := NoTools) == After(s, f, turn, TurnOf(s, turn)).(tools := NoTools)
  {
    if f.OfTurn? {
      UpdateIsAfter(s, f.t, turn);
      if JoinCheck(s, f.t).Some? { EmitOnce(UpdateTurn(s, f.t), JoinCheck(s, f.t).value, turn); }
    } else {
      OtherStepPays(s, f, turn);
    }
  }

  /** In every run a live turn's record is what the facts since it began last said of each field. */
  lemma {:induction false} RecordsExact(facts: seq<Fact>, turn: string)
    ensures TurnOf(Run(facts).0, turn).(tools := NoTools) == RecordOf(facts, turn).(tools := NoTools)
  {
    if facts != [] && turn in Run(facts).0.turns {
      var init, f := facts[..|facts| - 1], facts[|facts| - 1];
      RecordsExact(init, turn);
      StepRecord(Run(init).0, f, turn);
    }
  }

  /** The four kinds of fact that check whether a turn is complete. */
  lemma ChecksIff(s: Reducer, f: TurnFact, turn: string)
    ensures JoinCheck(s, f) == Some(turn) <==>
      Starts(s, OfTurn(f), turn) || Configures(OfTurn(f), turn) || Completes(OfTurn(f), turn) || IsUsage(OfTurn(f), turn)
  {
  }

  /** A turn event carries the record as the reporting fact left it, its connection's client and its thread's metadata. */
  lemma TurnEventCarries(s: Reducer, f: Fact, e: Event)
    requires e in Ingest(s, f).1 && e.TurnEvent?
    ensures var t := After(s, f, e.turn, TurnOf(s, e.turn));
      && Joined(t) && t.connection.value in s.connections && MetadataOf(s, t.thread.value).Some?
      && e == TurnEvent(e.turn, t.thread.value, Context(s.connections[t.connection.value], MetadataOf(s, t.thread.value).value),
                        t.images.value, t.config.value.model, t.config.value.settings, t.startedAt, t.tokens, t.completed.value,
                        t.steers, t.tools)
  {
    TurnEventCounted(Ingest(s, f).1, e);
    assert f.OfTurn? && JoinCheck(s, f.t).Some?;
    UpdateIsAfter(s, f.t, JoinCheck(s, f.t).value);
  }

  /** The accepted lines follow the turn event, when the turn's last diff added or deleted any. */
  lemma AcceptedLinesFollow(s: Reducer, f: Fact, e: Event)
    requires e in Ingest(s, f).1 && e.TurnEvent?
    ensures var t := After(s, f, e.turn, TurnOf(s, e.turn));
      && t.thread.Some? && t.config.Some?
      && Ingest(s, f).1 == [e] +
           if t.diff.Some? && t.diff.value.added + t.diff.value.deleted > 0
           then [AcceptedLineFingerprints(e.turn, t.thread.value, t.config.value.model, t.diff.value.added, t.diff.value.deleted)] else []
  {
    TurnEventCounted(Ingest(s, f).1, e);
    assert f.OfTurn? && JoinCheck(s, f.t).Some?;
    UpdateIsAfter(s, f.t, JoinCheck(s, f.t).value);
  }

  // ----- Requests -----

  predicate Requests(f: Fact, key: RequestKey)
  {
    f.OfTurn? && (f.t.TurnStartRequest? || f.t.TurnSteerRequest?) && (f.t.connection, f.t.request) == key
  }

  predicate Responds(f: Fact, key: RequestKey)
  {
    && f.OfTurn? && (f.t.TurnStartResponse? || f.t.TurnSteerResponse? || f.t.ErrorResponse?)
    && (f.t.connection, f.t.request) == key
  }

  /** The last request under a key that nothing has responded to. */
  function OpenRequest(facts: seq<Fact>, key: RequestKey): Option<PendingRequest>
  {
    if facts == [] then None
    else
      var init, f := facts[..|facts| - 1], facts[|facts| - 1];
      if Requests(f, key) then
        Some(if f.t.TurnStartRequest? then PendingTurnStart(f.t.thread, f.t.images)
             else PendingTurnSteer(f.t.thread, f.t.expectedTurn, f.t.images, f.t.now))
      else if Responds(f, key) then None
      else OpenRequest(init, key)
  }

  function RequestAt(s: Reducer, key: RequestKey): Option<PendingRequest>
  {
    if key in s.requests then Some(s.requests[key]) else None
  }

  lemma UpdateRequests(s: Reducer, f: TurnFact, key: RequestKey)
    ensures RequestAt(UpdateTurn(s, f), key) ==
      if Requests(OfTurn(f), key) then
        Some(if f.TurnStartRequest? then PendingTurnStart(f.thread, f.images)
             else PendingTurnSteer(f.thread, f.expectedTurn, f.images, f.now))
      else if Responds(OfTurn(f), key) then None
      else RequestAt(s, key)
  {
  }

  /** In every run the requests kept are those that nothing has responded to. */
  lemma {:induction false} RequestsKept(facts: seq<Fact>, key: RequestKey)
    ensures RequestAt(Run(facts).0, key) == OpenRequest(facts, key)
  {
    if facts != [] {
      var init, f := facts[..|facts| - 1], facts[|facts| - 1];
      RequestsKept(init, key);
      if f.OfTurn? {
        UpdateRequests(Run(init).0, f.t, key);
      } else {
        OtherStepPays(Run(init).0, f, "");
      }
    }
  }

  /** A steer is reported when it is accepted or rejected, with what was asked, if its connection and thread are known. */
  lemma SteerEmits(facts: seq<Fact>, f: TurnFact)
    requires f.TurnSteerResponse? || f.ErrorResponse?
    ensures var s, key := Run(facts).0, (f.connection, f.request);
      var asked := OpenRequest(facts, key);
      var accepted, reason := if f.TurnSteerResponse? then Some(f.turn) else None, if f.ErrorResponse? then f.reason else None;
      IngestTurn(s, f).1 ==
        if asked.Some? && asked.value.PendingTurnSteer? && f.connection in s.connections && MetadataOf(s, asked.value.thread).Some?
        then [TurnSteer(asked.value.thread, asked.value.expectedTurn, accepted,
                        Context(s.connections[f.connection], MetadataOf(s, asked.value.thread).value),
                        asked.value.images, reason, asked.value.createdAt)]
        else []
  {
    RequestsKept(facts, (f.connection, f.request));
  }

  // ----- Connections and threads -----

  predicate Opens(s: Reducer, f: Fact, thread: string)
  {
    f.OfConnection? && f.c.ThreadOpened? && f.c.thread == thread && f.c.connection in s.connections
  }

  predicate Spawned(f: Fact, thread: string)
  {
    f.OfConnection? && f.c.SubAgentThreadStarted? && f.c.thread == thread
  }

  function ParentOf(f: Fact, thread: string): Option<string>
    requires Spawned(f, thread)
  {
    if f.c.parent.Some? then f.c.parent else f.c.sourceParent
  }

  function ThreadAt(s: Reducer, thread: string): Thread
  {
    if thread in s.threads then s.threads[thread] else Thread(None, None)
  }

  function ThreadConnectionAfter(s: Reducer, f: Fact, thread: string): Option<nat>
  {
    var was := ThreadAt(s, thread).connection;
    if Opens(s, f, thread) then Some(f.c.connection)
    else if Spawned(f, thread) && was.None? && ParentOf(f, thread).Some? then ThreadAt(s, ParentOf(f, thread).value).connection
    else was
  }

  function MetadataAfter(s: Reducer, f: Fact, thread: string): Option<Metadata>
  {
    var was := ThreadAt(s, thread).metadata;
    if Opens(s, f, thread) then Some(f.c.metadata)
    else if Spawned(f, thread) && was.None? then
      Some(Metadata(f.c.session, Some("subagent"), New, Some(f.c.subagent), ParentOf(f, thread)))
    else was
  }

  /** What a fact makes of a thread: opening overwrites, spawning only fills in what is missing. */
  lemma ThreadStep(s: Reducer, f: Fact, thread: string)
    ensures ThreadAt(Ingest(s, f).0, thread) == Thread(ThreadConnectionAfter(s, f, thread), MetadataAfter(s, f, thread))
    ensures thread in Ingest(s, f).0.threads <==> thread in s.threads || Opens(s, f, thread) || Spawned(f, thread)
  {
    if f.OfConnection? {
      if f.c.SubAgentThreadStarted? { SpawnStep(s, f, thread); } else { OpenStep(s, f, thread); }
    } else {
      OthersKeepThreads(s, f);
    }
  }

  lemma OthersKeepThreads(s: Reducer, f: Fact)
    requires !f.OfConnection?
    ensures Ingest(s, f).0.threads == s.threads && Ingest(s, f).0.connections == s.connections
  {
  }

  lemma OpenStep(s: Reducer, f: Fact, thread: string)
    requires f.OfConnection? && !f.c.SubAgentThreadStarted?
    ensures var t := IngestConnection(s, f.c).0;
      && ThreadAt(t, thread) == Thread(ThreadConnectionAfter(s, f, thread), MetadataAfter(s, f, thread))
      && (thread in t.threads <==> thread in s.threads || Opens(s, f, thread))
  {
  }

  lemma SpawnStep(s: Reducer, f: Fact, thread: string)
    requires f.OfConnection? && f.c.SubAgentThreadStarted?
    ensures var t := IngestConnection(s, f.c).0;
      && ThreadAt(t, thread) == Thread(ThreadConnectionAfter(s, f, thread), MetadataAfter(s, f, thread))
      && (thread in t.threads <==> thread in s.threads || Spawned(f, thread))
  {
    var parent := if f.c.parent.Some? then f.c.parent else f.c.sourceParent;
    assert IngestConnection(s, f.c).0 == IngestSubAgentThread(s, f.c.thread, parent, f.c.session, f.c.subagent);
    ChildThread(s, f.c.thread, parent, f.c.session, f.c.subagent, thread);
  }

  lemma ChildThread(s: Reducer, child: string, parent: Option<string>, session: string, subagent: string, thread: string)
    ensures var t, known := IngestSubAgentThread(s, child, parent, session, subagent), ThreadAt(s, thread);
      && (thread in t.threads <==> thread in s.threads || thread == child)
      && ThreadAt(t, thread) ==
           if thread != child then known
           else Thread(if known.connection.None? && parent.Some? then ThreadAt(s, parent.value).connection else known.connection,
                       if known.metadata.None? then Some(Metadata(session, Some("subagent"), New, Some(subagent), parent)) else known.metadata)
  {
  }

  /** A connection is known by the client that last initialised it. */
  function ClientOf(facts: seq<Fact>, connection: nat): Option<string>
  {
    if facts == [] then None
    else
      var f := facts[|facts| - 1];
      if f.OfConnection? && f.c.Initialize? && f.c.connection == connection then Some(f.c.client)
      else ClientOf(facts[..|facts| - 1], connection)
  }

  function ClientAt(s: Reducer, connection: nat): Option<string>
  {
    if connection in s.connections then Some(s.connections[connection]) else None
  }

  lemma ClientStep(s: Reducer, f: Fact, connection: nat)
    ensures ClientAt(Ingest(s, f).0, connection) ==
      if f.OfConnection? && f.c.Initialize? && f.c.connection == connection then Some(f.c.client) else ClientAt(s, connection)
  {
    if !f.OfConnection? { OthersKeepThreads(s, f); }
  }

  lemma {:induction false} ClientsKept(facts: seq<Fact>, connection: nat)
    ensures ClientAt(Run(facts).0, connection) == ClientOf(facts, connection)
  {
    if facts != [] {
      var init, f := facts[..|facts| - 1], facts[|facts| - 1];
      ClientsKept(init, connection);
      ClientStep(Run(init).0, f, connection);
    }
  }

  /** A thread is reported as it opens on a known connection, and as it is spawned. */
  lemma ThreadEmits(s: Reducer, f: ConnectionFact)
    ensures IngestConnection(s, f).1 ==
      match f
      case Initialize(_, _) => []
      case ThreadOpened(c, thread, _) => if c in s.connections then [ThreadInitialized(thread, s.connections[c])] else []
      case SubAgentThreadStarted(thread, _, _, _, subagent) => [ThreadInitialized(thread, subagent)]
  {
  }

  // ----- Passing facts -----

  /** Facts that change nothing emit one event a body, or one if the thread's context is known. */
  lemma {:induction false} OthersOneEach(bodies: seq<string>, i: nat)
    requires i < |bodies|
    ensures Others(bodies)[i] == OtherEvent(bodies[i])
  {
    if i > 0 { OthersOneEach(bodies[1..], i - 1); }
  }

  lemma PassingEmits(s: Reducer, p: PassingFact)
    ensures Ingest(s, Passing(p)).0 == s
    ensures var out := Ingest(s, Passing(p)).1;
      match p
      case ContextOnly(thread, body) => out == if ThreadContext(s, thread).Found? then [OtherEvent(body)] else []
      case EmitOnly(bodies) => |out| == |bodies| && forall i :: 0 <= i < |bodies| ==> out[i] == OtherEvent(bodies[i])
      case Untracked => out == []
  {
    if p.EmitOnly? {
      forall i | 0 <= i < |p.bodies| ensures Others(p.bodies)[i] == OtherEvent(p.bodies[i]) { OthersOneEach(p.bodies, i); }
    }
  }
}
