/** Turn events: how many there can be, what they carry, and why the joining order does not matter. */
module ReducerTurns {
  import opened Common
  import opened AnalyticsReducer

  // ----- Counting emissions -----

  function EventsOf(events: seq<Event>, turn: string): nat
  {
    if events == [] then 0
    else (if events[0].TurnEvent? && events[0].turn == turn then 1 else 0) + EventsOf(events[1..], turn)
  }

  lemma {:induction false} EventsOfConcat(a: seq<Event>, b: seq<Event>, turn: string)
    ensures EventsOf(a + b, turn) == EventsOf(a, turn) + EventsOf(b, turn)
    ensures TurnEvents(a + b) == TurnEvents(a) + TurnEvents(b)
  {
    if a == [] {
      assert a + b == b;
    } else {
      assert (a + b)[1..] == a[1..] + b;
      EventsOfConcat(a[1..], b, turn);
    }
  }

  lemma {:induction false} NoTurnEvents(events: seq<Event>, turn: string)
    requires TurnEvents(events) == 0
    ensures EventsOf(events, turn) == 0
  {
    if events != [] { NoTurnEvents(events[1..], turn); }
  }

  /** An emission consumes the turn and yields exactly one turn event, for it. */
  lemma EmitOnce(s: Reducer, turn: string, other: string)
    ensures var r := MaybeEmit(s, turn);
      && TurnEvents(r.1) == (if Emits(s, turn) then 1 else 0)
      && EventsOf(r.1, other) == (if Emits(s, turn) && other == turn then 1 else 0)
      && r.0.turns == (if Emits(s, turn) then s.turns - {turn} else s.turns)
  {
    if Emits(s, turn) {
      var t := s.turns[turn];
      var e := EventOf(turn, t, Context(s.connections[t.connection.value], MetadataOf(s, t.thread.value).value));
      var accepted := AcceptedLineEvents(turn, t);
      EventsOfConcat([e], accepted, other);
      assert [e][1..] == [];
      assert accepted != [] ==> accepted[1..] == [];
    }
  }

  // The three things a turn event consumes.
  predicate HasCompletion(s: Reducer, turn: string) { turn in s.turns && s.turns[turn].completed.Some? }
  predicate HasConfig(s: Reducer, turn: string) { turn in s.turns && s.turns[turn].config.Some? }
  predicate HasConnection(s: Reducer, turn: string) { turn in s.turns && s.turns[turn].connection.Some? }

  predicate Completes(f: Fact, turn: string) { f.OfTurn? && f.t.TurnCompleted? && f.t.turn == turn }
  predicate Configures(f: Fact, turn: string) { f.OfTurn? && f.t.TurnResolvedConfig? && f.t.config.turn == turn }

  /** A turn-start response that finds its request pending. */
  predicate Starts(s: Reducer, f: Fact, turn: string)
  {
    && f.OfTurn? && f.t.TurnStartResponse? && f.t.turn == turn
    && (f.t.connection, f.t.request) in s.requests && s.requests[(f.t.connection, f.t.request)].PendingTurnStart?
  }

  /** An emission takes all three away from the turn it reports. */
  lemma EmitPays(s: Reducer, turn: string, other: string)
    ensures var r := MaybeEmit(s, turn);
      && EventsOf(r.1, other) + Bit(HasCompletion(r.0, other)) == Bit(HasCompletion(s, other))
      && EventsOf(r.1, other) + Bit(HasConfig(r.0, other)) == Bit(HasConfig(s, other))
      && EventsOf(r.1, other) + Bit(HasConnection(r.0, other)) == Bit(HasConnection(s, other))
  {
    EmitOnce(s, turn, other);
  }

  // Only the matching fact gives a turn one of them.

  lemma UpdateCompletion(s: Reducer, f: TurnFact, turn: string)
    ensures HasCompletion(UpdateTurn(s, f), turn) <==> HasCompletion(s, turn) || Completes(OfTurn(f), turn)
  {
  }

  lemma UpdateConfig(s: Reducer, f: TurnFact, turn: string)
    ensures HasConfig(UpdateTurn(s, f), turn) <==> HasConfig(s, turn) || Configures(OfTurn(f), turn)
  {
  }

  lemma UpdateConnection(s: Reducer, f: TurnFact, turn: string)
    ensures HasConnection(UpdateTurn(s, f), turn) <==> HasConnection(s, turn) || Starts(s, OfTurn(f), turn)
  {
  }

  /** What the turn held or the fact brought is still held or has paid for an event. */
  lemma StepConserves(s: Reducer, f: Fact, turn: string)
    ensures var r := Ingest(s, f);
      && EventsOf(r.1, turn) + Bit(HasCompletion(r.0, turn)) == Bit(HasCompletion(s, turn) || Completes(f, turn))
      && EventsOf(r.1, turn) + Bit(HasConfig(r.0, turn)) == Bit(HasConfig(s, turn) || Configures(f, turn))
      && EventsOf(r.1, turn) + Bit(HasConnection(r.0, turn)) == Bit(HasConnection(s, turn) || Starts(s, f, turn))
  {
    if f.OfTurn? {
      UpdateCompletion(s, f.t, turn);
      UpdateConfig(s, f.t, turn);
      UpdateConnection(s, f.t, turn);
      if JoinCheck(s, f.t).Some? {
        EmitPays(UpdateTurn(s, f.t), JoinCheck(s, f.t).value, turn);
      } else {
        NoTurnEvents(SteerReport(s, f.t), turn);
      }
    } else {
      OtherStepPays(s, f, turn);
    }
  }

  lemma ItemTurns(s: Reducer, f: ItemFact)
    ensures IngestItem(s, f).0.turns ==
      if f.ItemCompleted? && TrackedId(f.item).Some? && f.turn in s.turns
      then s.turns[f.turn := s.turns[f.turn].(tools := Record(s.turns[f.turn].tools, f.item.kind))] else s.turns
  {
  }

  lemma ItemsKeepTurns(s: Reducer, f: ItemFact, turn: string)
    ensures var r := IngestItem(s, f).0;
      && (turn in r.turns <==> turn in s.turns)
      && (turn in s.turns ==> r.turns[turn] == s.turns[turn].(tools := r.turns[turn].tools))
  {
    ItemTurns(s, f);
  }

  lemma OtherStepPays(s: Reducer, f: Fact, turn: string)
    requires !f.OfTurn?
    ensures var r := Ingest(s, f);
      && EventsOf(r.1, turn) == 0 && TurnEvents(r.1) == 0 && r.0.requests == s.requests
      && (turn in r.0.turns <==> turn in s.turns)
      && (turn in s.turns ==> r.0.turns[turn] == s.turns[turn].(tools := r.0.turns[turn].tools))
  {
    NoTurnEvents(Ingest(s, f).1, turn);
    if f.OfItem? { ItemsKeepTurns(s, f.i, turn); }
  }

  // ----- Whole runs -----

  function Completions(facts: seq<Fact>, turn: string): nat
  {
    if facts == [] then 0 else Completions(facts[..|facts| - 1], turn) + Bit(Completes(facts[|facts| - 1], turn))
  }

  function Configurations(facts: seq<Fact>, turn: string): nat
  {
    if facts == [] then 0 else Configurations(facts[..|facts| - 1], turn) + Bit(Configures(facts[|facts| - 1], turn))
  }

  function MatchedStarts(facts: seq<Fact>, turn: string): nat
  {
    if facts == [] then 0
    else MatchedStarts(facts[..|facts| - 1], turn) + Bit(Starts(Run(facts[..|facts| - 1]).0, facts[|facts| - 1], turn))
  }

  /** A turn is never reported more often than it completed, was configured, or was started. */
  lemma {:induction false} TurnEventsBounded(facts: seq<Fact>, turn: string)
    ensures var r := Run(facts);
      && EventsOf(r.1, turn) + Bit(HasCompletion(r.0, turn)) <= Completions(facts, turn)
      && EventsOf(r.1, turn) + Bit(HasConfig(r.0, turn)) <= Configurations(facts, turn)
      && EventsOf(r.1, turn) + Bit(HasConnection(r.0, turn)) <= MatchedStarts(facts, turn)
  {
    if facts != [] {
      var init, f := facts[..|facts| - 1], facts[|facts| - 1];
      TurnEventsBounded(init, turn);
      StepConserves(Run(init).0, f, turn);
      EventsOfConcat(Run(init).1, Ingest(Run(init).0, f).1, turn);
    }
  }

  function StartRequests(facts: seq<Fact>): nat
  {
    if facts == [] then 0
    else StartRequests(facts[..|facts| - 1]) + Bit(facts[|facts| - 1].OfTurn? && facts[|facts| - 1].t.TurnStartRequest?)
  }

  ghost function ConnectedTurns(s: Reducer): set<string>
  {
    set t | t in s.turns && s.turns[t].connection.Some?
  }

  ghost function PendingStarts(s: Reducer): set<RequestKey>
  {
    set k | k in s.requests && s.requests[k].PendingTurnStart?
  }

  lemma GrowsByOne<T>(a: set<T>, b: set<T>, x: T)
    requires b <= a + {x}
    ensures |b| <= |a| + 1
    ensures x in a ==> |b| <= |a|
  {
    SubsetSize(b, a + {x});
  }

  lemma {:induction false} SubsetSize<T>(a: set<T>, b: set<T>)
    requires a <= b
    ensures |a| <= |b|
  {
    if a != {} {
      var x :| x in a;
      SubsetSize(a - {x}, b - {x});
    }
  }

  lemma ShrinksByOne<T>(a: set<T>, b: set<T>, x: T)
    requires b <= a - {x} && x in a
    ensures |b| + 1 <= |a|
  {
    SubsetSize(b, a - {x});
  }

  /** Outstanding starts: requests waiting for a response, and turns a response has connected. */
  ghost function Outstanding(s: Reducer): nat
  {
    |ConnectedTurns(s)| + |PendingStarts(s)|
  }

  lemma StartSets(s: Reducer, key: RequestKey, turn: string)
    ensures var t := StartTurn(s, key, turn);
      && PendingStarts(t) <= PendingStarts(s) - {key}
      && ConnectedTurns(t) <= ConnectedTurns(s) + {turn}
      && (key !in PendingStarts(s) ==> ConnectedTurns(t) <= ConnectedTurns(s))
  {
  }

  lemma StartOutstanding(s: Reducer, key: RequestKey, turn: string)
    ensures Outstanding(StartTurn(s, key, turn)) <= Outstanding(s)
  {
    StartSets(s, key, turn);
    var p, q := PendingStarts(s), PendingStarts(StartTurn(s, key, turn));
    var c, d := ConnectedTurns(s), ConnectedTurns(StartTurn(s, key, turn));
    if key in p {
      ShrinksByOne(p, q, key);
      GrowsByOne(c, d, turn);
    } else {
      SubsetSize(q, p);
      SubsetSize(d, c);
    }
  }

  lemma UpdateOutstanding(s: Reducer, f: TurnFact)
    ensures Outstanding(UpdateTurn(s, f)) <= Outstanding(s) + Bit(f.TurnStartRequest?)
  {
    var t := UpdateTurn(s, f);
    if f.TurnStartResponse? {
      StartOutstanding(s, (f.connection, f.request), f.turn);
    } else if f.TurnStartRequest? {
      GrowsByOne(PendingStarts(s), PendingStarts(t), (f.connection, f.request));
    } else {
      UpdateShrinks(s, f);
      SubsetSize(PendingStarts(t), PendingStarts(s));
      SubsetSize(ConnectedTurns(t), ConnectedTurns(s));
    }
  }

  lemma UpdateShrinks(s: Reducer, f: TurnFact)
    requires !f.TurnStartResponse? && !f.TurnStartRequest?
    ensures PendingStarts(UpdateTurn(s, f)) <= PendingStarts(s)
    ensures ConnectedTurns(UpdateTurn(s, f)) <= ConnectedTurns(s)
  {
    forall x | x in ConnectedTurns(UpdateTurn(s, f)) ensures x in ConnectedTurns(s) {
      UpdateConnection(s, f, x);
    }
  }

  lemma EmitOutstanding(s: Reducer, turn: string)
    ensures var r := MaybeEmit(s, turn); TurnEvents(r.1) + Outstanding(r.0) <= Outstanding(s)
  {
    EmitOnce(s, turn, turn);
    if Emits(s, turn) {
      ShrinksByOne(ConnectedTurns(s), ConnectedTurns(MaybeEmit(s, turn).0), turn);
    }
  }

  lemma StepOutstanding(s: Reducer, f: Fact)
    ensures var r := Ingest(s, f);
      TurnEvents(r.1) + Outstanding(r.0) <= Outstanding(s) + Bit(f.OfTurn? && f.t.TurnStartRequest?)
  {
    if f.OfTurn? {
      UpdateOutstanding(s, f.t);
      if JoinCheck(s, f.t).Some? { EmitOutstanding(UpdateTurn(s, f.t), JoinCheck(s, f.t).value); }
    } else {
      OtherStepPays(s, f, "");
      forall x ensures x in ConnectedTurns(Ingest(s, f).0) <==> x in ConnectedTurns(s) { OtherStepPays(s, f, x); }
      assert ConnectedTurns(Ingest(s, f).0) == ConnectedTurns(s);
    }
  }

  /** In every run there are never more turn events than turn-start requests. */
  lemma {:induction false} TurnEventsAtMostStartRequests(facts: seq<Fact>)
    ensures TurnEvents(Run(facts).1) + Outstanding(Run(facts).0) <= StartRequests(facts)
  {
    if facts != [] {
      var init, f := facts[..|facts| - 1], facts[|facts| - 1];
      TurnEventsAtMostStartRequests(init);
      StepOutstanding(Run(init).0, f);
      EventsOfConcat(Run(init).1, Ingest(Run(init).0, f).1, "");
    }
  }

  // ----- Tool counts -----

  predicate IsTool(kind: ItemKind)
  {
    TrackedId(Item(kind, "", false, "")).Some?
  }

  function CountOf(c: ToolCounts, kind: ItemKind): nat
  {
    match kind
    case CommandExecution => c.shellCommand
    case FileChange => c.fileChange
    case McpToolCall => c.mcpToolCall
    case DynamicToolCall => c.dynamicToolCall
    case CollabAgentToolCall => c.subagentToolCall
    case WebSearch => c.webSearch
    case ImageGeneration => c.imageGeneration
    case _ => 0
  }

  function SumOfKinds(c: ToolCounts): nat
  {
    c.shellCommand + c.fileChange + c.mcpToolCall + c.dynamicToolCall + c.subagentToolCall + c.webSearch + c.imageGeneration
  }

  predicate CompletesTool(f: Fact, turn: string, kind: ItemKind)
  {
    f.OfItem? && f.i.ItemCompleted? && f.i.turn == turn && f.i.item.kind == kind && TrackedId(f.i.item).Some?
  }

  /** Tracked completions of one kind since the turn's state was last created; 0 when there is none. */
  function ToolsSince(facts: seq<Fact>, turn: string, kind: ItemKind): nat
  {
    if facts == [] || turn !in Run(facts).0.turns then 0
    else
      var init, f := facts[..|facts| - 1], facts[|facts| - 1];
      ToolsSince(init, turn, kind) + Bit(turn in Run(init).0.turns && CompletesTool(f, turn, kind))
  }

  ghost predicate ToolsHonest(c: ToolCounts)
  {
    c.total == SumOfKinds(c)
  }

  /** `record` and `tracked_tool_item_id` classify items alike. */
  lemma RecordCounts(c: ToolCounts, kind: ItemKind, other: ItemKind)
    ensures CountOf(Record(c, kind), other) == CountOf(c, other) + Bit(kind == other && IsTool(kind))
    ensures ToolsHonest(c) ==> ToolsHonest(Record(c, kind))
  {
  }

  /** The counts `after` one more fact, from the counts `before` it. */
  ghost predicate Counted(before: ToolCounts, after: ToolCounts, kind: ItemKind, completes: bool)
  {
    && CountOf(after, kind) == CountOf(before, kind) + Bit(completes)
    && (ToolsHonest(before) ==> ToolsHonest(after))
  }

  lemma ItemTools(s: Reducer, f: ItemFact, turn: string, kind: ItemKind)
    requires turn in IngestItem(s, f).0.turns
    ensures turn in s.turns
    ensures Counted(s.turns[turn].tools, IngestItem(s, f).0.turns[turn].tools, kind, CompletesTool(OfItem(f), turn, kind))
  {
    ItemTurns(s, f);
    if turn in s.turns { RecordCounts(s.turns[turn].tools, f.item.kind, kind); }
  }

  lemma TurnTools(s: Reducer, f: TurnFact, turn: string)
    requires turn in IngestTurn(s, f).0.turns
    ensures IngestTurn(s, f).0.turns[turn].tools == TurnOf(s, turn).tools
  {
    UpdateTools(s, f, turn);
    if JoinCheck(s, f).Some? { EmitOnce(UpdateTurn(s, f), JoinCheck(s, f).value, turn); }
  }

  lemma UpdateTools(s: Reducer, f: TurnFact, turn: string)
    ensures var t := UpdateTurn(s, f); turn in t.turns ==> t.turns[turn].tools == TurnOf(s, turn).tools
  {
  }

  /** Every surviving turn keeps its counts, except for the tools the fact completes; a new one starts at zero. */
  lemma StepTools(s: Reducer, f: Fact, turn: string, kind: ItemKind)
    requires turn in Ingest(s, f).0.turns
    ensures Counted(TurnOf(s, turn).tools, Ingest(s, f).0.turns[turn].tools, kind, turn in s.turns && CompletesTool(f, turn, kind))
  {
    if f.OfTurn? {
      TurnTools(s, f.t, turn);
    } else if f.OfItem? {
      ItemTools(s, f.i, turn, kind);
    } else {
      assert Ingest(s, f).0.turns == s.turns;
    }
  }

  /**
  In every run a live turn's count of each kind is the number of tracked
  completions of that kind since its state was created, and its total is the sum.
  */
  lemma {:induction false} ToolCountsExact(facts: seq<Fact>, turn: string, kind: ItemKind)
    ensures var c := TurnOf(Run(facts).0, turn).tools; CountOf(c, kind) == ToolsSince(facts, turn, kind) && ToolsHonest(c)
  {
    if facts != [] && turn in Run(facts).0.turns {
      var init, f := facts[..|facts| - 1], facts[|facts| - 1];
      ToolCountsExact(init, turn, kind);
      StepTools(Run(init).0, f, turn, kind);
    }
  }

  ghost predicate CountsFrom(facts: seq<Fact>, s: Reducer, turn: string, kind: ItemKind)
  {
    var c := TurnOf(s, turn).tools; CountOf(c, kind) == ToolsSince(facts, turn, kind) && ToolsHonest(c)
  }

  lemma {:induction false} TurnEventCounted(events: seq<Event>, e: Event)
    requires e in events && e.TurnEvent?
    ensures TurnEvents(events) > 0
  {
    if e != events[0] { TurnEventCounted(events[1..], e); }
  }

  /** A turn event is only emitted by a fact about its turn, and reports that turn's counts. */
  lemma EmittedTools(s: Reducer, f: Fact, e: Event)
    requires e in Ingest(s, f).1 && e.TurnEvent?
    ensures e.tools == TurnOf(s, e.turn).tools
  {
    TurnEventCounted(Ingest(s, f).1, e);
    assert f.OfTurn? && JoinCheck(s, f.t).Some?;
    var turn := JoinCheck(s, f.t).value;
    UpdateTools(s, f.t, turn);
  }

  /** Every turn event a run emits carries exact counts. */
  lemma EmittedCountsExact(facts: seq<Fact>, f: Fact, e: Event, kind: ItemKind)
    requires e in Ingest(Run(facts).0, f).1 && e.TurnEvent?
    ensures CountOf(e.tools, kind) == ToolsSince(facts, e.turn, kind) && ToolsHonest(e.tools)
  {
    EmittedTools(Run(facts).0, f, e);
    ToolCountsExact(facts, e.turn, kind);
  }

  // ----- Joining in any order -----

  /** What the three facts of one turn say. */
  datatype Join = Join(connection: nat, request: RequestId, turn: string, thread: string, images: nat, config: Config, completion: string)

  function StartFact(j: Join): TurnFact { TurnStartResponse(j.connection, j.request, j.turn) }
  function ConfigFact(j: Join): TurnFact { TurnResolvedConfig(j.config) }
  function CompletionFact(j: Join): TurnFact { TurnCompleted(j.turn, j.completion) }

  function KeyOf(j: Join): RequestKey { (j.connection, j.request) }

  /** The turn's request is pending, its connection and threads are known, and none of the three facts was seen. */
  ghost predicate Unseen(s: Reducer, j: Join)
  {
    && j.config.turn == j.turn
    && KeyOf(j) in s.requests && s.requests[KeyOf(j)] == PendingTurnStart(j.thread, j.images)
    && j.connection in s.connections && MetadataOf(s, j.thread).Some? && MetadataOf(s, j.config.thread).Some?
    && var t := TurnOf(s, j.turn); t.connection.None? && t.config.None? && t.completed.None?
  }

  /** Which facts have arrived, and the thread and image count last written. */
  datatype Seen = Seen(start: bool, config: bool, completion: bool, thread: string, images: nat)

  function TurnSeen(t: Turn, j: Join, k: Seen): Turn
  {
    t.(connection := if k.start then Some(j.connection) else t.connection,
       config := if k.config then Some(j.config) else t.config,
       completed := if k.completion then Some(j.completion) else t.completed,
       thread := if k.start || k.config then Some(k.thread) else t.thread,
       images := if k.start || k.config then Some(k.images) else t.images)
  }

  function StateSeen(s: Reducer, j: Join, k: Seen): Reducer
  {
    if !k.start && !k.config && !k.completion then s
    else s.(requests := if k.start then s.requests - {KeyOf(j)} else s.requests,
            turns := s.turns[j.turn := TurnSeen(TurnOf(s, j.turn), j, k)])
  }

  function Arrives(k: Seen, j: Join, f: TurnFact): Seen
  {
    match f
    case TurnStartResponse(_, _, _) => k.(start := true, thread := j.thread, images := j.images)
    case TurnResolvedConfig(_) => k.(config := true, thread := j.config.thread, images := j.config.images)
    case _ => k.(completion := true)
  }

  /** `f` is one of the three facts and has not arrived. */
  predicate Missing(k: Seen, j: Join, f: TurnFact)
  {
    || (f == StartFact(j) && !k.start)
    || (f == ConfigFact(j) && !k.config)
    || (f == CompletionFact(j) && !k.completion)
  }

  predicate All(k: Seen) { k.start && k.config && k.completion }

  lemma StartArrives(s: Reducer, j: Join, k: Seen)
    requires Unseen(s, j) && !k.start
    ensures UpdateTurn(StateSeen(s, j, k), StartFact(j)) == StateSeen(s, j, Arrives(k, j, StartFact(j)))
    ensures JoinCheck(StateSeen(s, j, k), StartFact(j)) == Some(j.turn)
  {
    SetTwice(s, j, k, TurnSeen(TurnOf(s, j.turn), j, Arrives(k, j, StartFact(j))));
  }

  lemma ConfigArrives(s: Reducer, j: Join, k: Seen)
    requires Unseen(s, j) && !k.config
    ensures UpdateTurn(StateSeen(s, j, k), ConfigFact(j)) == StateSeen(s, j, Arrives(k, j, ConfigFact(j)))
  {
    SetTwice(s, j, k, TurnSeen(TurnOf(s, j.turn), j, Arrives(k, j, ConfigFact(j))));
  }

  lemma CompletionArrives(s: Reducer, j: Join, k: Seen)
    requires Unseen(s, j) && !k.completion
    ensures UpdateTurn(StateSeen(s, j, k), CompletionFact(j)) == StateSeen(s, j, Arrives(k, j, CompletionFact(j)))
  {
    SetTwice(s, j, k, TurnSeen(TurnOf(s, j.turn), j, Arrives(k, j, CompletionFact(j))));
  }

  lemma SetTwice(s: Reducer, j: Join, k: Seen, t: Turn)
    ensures TurnOf(StateSeen(s, j, k), j.turn) == TurnSeen(TurnOf(s, j.turn), j, k)
    ensures StateSeen(s, j, k).turns[j.turn := t] == s.turns[j.turn := t]
  {
  }

  lemma ArrivalUpdates(s: Reducer, j: Join, k: Seen, f: TurnFact)
    requires Unseen(s, j) && Missing(k, j, f)
    ensures UpdateTurn(StateSeen(s, j, k), f) == StateSeen(s, j, Arrives(k, j, f))
    ensures JoinCheck(StateSeen(s, j, k), f) == Some(j.turn)
  {
    if f == StartFact(j) {
      StartArrives(s, j, k);
    } else if f == ConfigFact(j) {
      ConfigArrives(s, j, k);
    } else {
      CompletionArrives(s, j, k);
    }
  }

  /** The event, and the state without the turn and its request, when the last written thread and images are `k`'s. */
  function Reported(s: Reducer, j: Join, k: Seen): (Reducer, seq<Event>)
    requires Unseen(s, j) && All(k) && MetadataOf(s, k.thread).Some?
  {
    var t := TurnSeen(TurnOf(s, j.turn), j, k);
    var c := Context(s.connections[j.connection], MetadataOf(s, k.thread).value);
    (s.(requests := s.requests - {KeyOf(j)}, turns := s.turns - {j.turn}), [EventOf(j.turn, t, c)] + AcceptedLineEvents(j.turn, t))
  }

  lemma SeenEmits(s: Reducer, j: Join, k: Seen)
    requires Unseen(s, j) && (k.start || k.config || k.completion)
    requires All(k) ==> MetadataOf(s, k.thread).Some?
    ensures MaybeEmit(StateSeen(s, j, k), j.turn) == if All(k) then Reported(s, j, k) else (StateSeen(s, j, k), [])
  {
    var t := StateSeen(s, j, k);
    assert t.turns[j.turn] == TurnSeen(TurnOf(s, j.turn), j, k);
    assert t.turns - {j.turn} == s.turns - {j.turn};
  }

  lemma ArrivalEmits(s: Reducer, j: Join, k: Seen, f: TurnFact)
    requires Unseen(s, j) && Missing(k, j, f)
    requires All(Arrives(k, j, f)) ==> MetadataOf(s, Arrives(k, j, f).thread).Some?
    ensures IngestTurn(StateSeen(s, j, k), f) ==
      if All(Arrives(k, j, f)) then Reported(s, j, Arrives(k, j, f)) else (StateSeen(s, j, Arrives(k, j, f)), [])
  {
    ArrivalUpdates(s, j, k, f);
    SeenEmits(s, j, Arrives(k, j, f));
  }

  const NoneSeen: Seen := Seen(false, false, false, "", 0)

  /** Three facts in the order given, each of the three kinds once. */
  predicate IsOrder(j: Join, a: TurnFact, b: TurnFact, c: TurnFact)
  {
    && Missing(NoneSeen, j, a)
    && Missing(Arrives(NoneSeen, j, a), j, b)
    && Missing(Arrives(Arrives(NoneSeen, j, a), j, b), j, c)
  }

  function AfterAll(j: Join, a: TurnFact, b: TurnFact, c: TurnFact): Seen
  {
    Arrives(Arrives(Arrives(NoneSeen, j, a), j, b), j, c)
  }

  function RunThree(s: Reducer, a: TurnFact, b: TurnFact, c: TurnFact): (Reducer, seq<Event>)
  {
    RunFrom(s, [OfTurn(a), OfTurn(b), OfTurn(c)])
  }

  lemma RunThreeSteps(s: Reducer, a: TurnFact, b: TurnFact, c: TurnFact)
    ensures var x := IngestTurn(s, a);
      var y := IngestTurn(x.0, b);
      var z := IngestTurn(y.0, c);
      && RunFrom(s, [OfTurn(a), OfTurn(b)]) == (y.0, x.1 + y.1)
      && RunThree(s, a, b, c) == (z.0, x.1 + y.1 + z.1)
  {
    var f, g, h := OfTurn(a), OfTurn(b), OfTurn(c);
    RunSnoc(s, [], f);
    RunSnoc(s, [f], g);
    RunSnoc(s, [f, g], h);
    assert [] + [f] == [f] && [f] + [g] == [f, g] && [f, g] + [h] == [f, g, h];
    assert RunFrom(s, []).1 + Ingest(s, f).1 == Ingest(s, f).1;
  }

  lemma RunSnoc(s: Reducer, facts: seq<Fact>, f: Fact)
    ensures var r, q := RunFrom(s, facts), Ingest(RunFrom(s, facts).0, f);
      RunFrom(s, facts + [f]) == (q.0, r.1 + q.1)
  {
    assert (facts + [f])[..|facts|] == facts;
  }

  lemma OrderComplete(j: Join, a: TurnFact, b: TurnFact, c: TurnFact)
    requires IsOrder(j, a, b, c)
    ensures var k := AfterAll(j, a, b, c);
      && All(k) && !All(Arrives(Arrives(NoneSeen, j, a), j, b)) && !All(Arrives(NoneSeen, j, a))
      && ((k.thread == j.thread && k.images == j.images) || (k.thread == j.config.thread && k.images == j.config.images))
  {
  }

  lemma OrderReports(s: Reducer, j: Join, a: TurnFact, b: TurnFact, c: TurnFact)
    requires Unseen(s, j) && IsOrder(j, a, b, c)
    ensures MetadataOf(s, AfterAll(j, a, b, c).thread).Some? && All(AfterAll(j, a, b, c))
    ensures RunThree(s, a, b, c) == Reported(s, j, AfterAll(j, a, b, c))
    ensures RunFrom(s, [OfTurn(a), OfTurn(b)]).1 == []
  {
    var k1 := Arrives(NoneSeen, j, a);
    var k2 := Arrives(k1, j, b);
    OrderComplete(j, a, b, c);
    ArrivalEmits(s, j, NoneSeen, a);
    ArrivalEmits(s, j, k1, b);
    ArrivalEmits(s, j, k2, c);
    RunThreeSteps(s, a, b, c);
    NothingBefore<Event>([]);
    NothingBefore(Reported(s, j, AfterAll(j, a, b, c)).1);
  }

  predicate Agree(j: Join)
  {
    j.config.thread == j.thread && j.config.images == j.images
  }

  /**
  The turn-start response, the resolved config and the completion of a turn may
  arrive in any order: two of them emit nothing, the third emits one turn event,
  and the event and the final state are the same for all six orders.
  */
  lemma JoinInAnyOrder(s: Reducer, j: Join, a: TurnFact, b: TurnFact, c: TurnFact)
    requires Unseen(s, j) && Agree(j) && IsOrder(j, a, b, c)
    ensures RunThree(s, a, b, c) == Reported(s, j, Seen(true, true, true, j.thread, j.images))
    ensures RunFrom(s, [OfTurn(a), OfTurn(b)]).1 == []
    ensures TurnEvents(RunThree(s, a, b, c).1) == 1 && EventsOf(RunThree(s, a, b, c).1, j.turn) == 1
  {
    OrderReports(s, j, a, b, c);
    ReportedOnce(s, j, AfterAll(j, a, b, c));
  }

  lemma ReportedOnce(s: Reducer, j: Join, k: Seen)
    requires Unseen(s, j) && All(k) && MetadataOf(s, k.thread).Some?
    ensures var e := Reported(s, j, k).1;
      && TurnEvents(e) == 1 && EventsOf(e, j.turn) == 1
      && e != [] && e[0].TurnEvent? && e[0].thread == k.thread && e[0].images == k.images
  {
    var t := TurnSeen(TurnOf(s, j.turn), j, k);
    var e := [EventOf(j.turn, t, Context(s.connections[j.connection], MetadataOf(s, k.thread).value))];
    EventsOfConcat(e, AcceptedLineEvents(j.turn, t), j.turn);
    assert e[1..] == [];
    NoTurnEvents(AcceptedLineEvents(j.turn, t), j.turn);
  }

  /** The order is immaterial exactly when the request and the config agree on thread and image count. */
  lemma OrderImmaterialIff(s: Reducer, j: Join)
    requires Unseen(s, j)
    ensures (forall a, b, c, d, e, f :: IsOrder(j, a, b, c) && IsOrder(j, d, e, f) ==> RunThree(s, a, b, c) == RunThree(s, d, e, f))
      <==> Agree(j)
  {
    if Agree(j) {
      forall a, b, c, d, e, f | IsOrder(j, a, b, c) && IsOrder(j, d, e, f)
        ensures RunThree(s, a, b, c) == RunThree(s, d, e, f)
      {
        JoinInAnyOrder(s, j, a, b, c);
        JoinInAnyOrder(s, j, d, e, f);
      }
    } else {
      LastWriterWins(s, j);
      assert RunThree(s, StartFact(j), ConfigFact(j), CompletionFact(j)) != RunThree(s, ConfigFact(j), StartFact(j), CompletionFact(j));
    }
  }

  lemma LastWriterWins(s: Reducer, j: Join)
    requires Unseen(s, j)
    ensures var x, y := RunThree(s, StartFact(j), ConfigFact(j), CompletionFact(j)).1, RunThree(s, ConfigFact(j), StartFact(j), CompletionFact(j)).1;
      && x != [] && x[0].TurnEvent? && x[0].thread == j.config.thread && x[0].images == j.config.images
      && y != [] && y[0].TurnEvent? && y[0].thread == j.thread && y[0].images == j.images
    ensures IsOrder(j, StartFact(j), ConfigFact(j), CompletionFact(j)) && IsOrder(j, ConfigFact(j), StartFact(j), CompletionFact(j))
  {
    OrderReports(s, j, StartFact(j), ConfigFact(j), CompletionFact(j));
    OrderReports(s, j, ConfigFact(j), StartFact(j), CompletionFact(j));
    ReportedOnce(s, j, AfterAll(j, StartFact(j), ConfigFact(j), CompletionFact(j)));
    ReportedOnce(s, j, AfterAll(j, ConfigFact(j), StartFact(j), CompletionFact(j)));
  }
}
