/** The reducer as the object it is: seven maps updated in place, fact by fact. */
module ReducerObject {
  import opened Common
  import opened AnalyticsReducer
  import ReducerContext
  import ReducerReviews
  import ReducerTurns

  class AnalyticsReducerObject {
    var requests: map<RequestKey, PendingRequest>
    var turns: map<string, Turn>
    var connections: map<nat, string>
    var threads: map<string, Thread>
    var toolItemsStartedAtMs: map<ItemKey, nat>
    var pendingReviews: map<RequestId, Review>
    var itemReviewSummaries: map<ItemKey, ReviewSummary>

    ghost function State(): Reducer
      reads this
    {
      Reducer(requests, turns, connections, threads, toolItemsStartedAtMs, pendingReviews, itemReviewSummaries)
    }

    constructor ()
      ensures State() == Empty
    {
      requests, turns, connections, threads := map[], map[], map[], map[];
      toolItemsStartedAtMs, pendingReviews, itemReviewSummaries := map[], map[], map[];
    }

    method ThreadContextOrWarn(thread: string) returns (context: Option<Context>)
      ensures context == match ThreadContext(State(), thread) case Found(c) => Some(c) case _ => None
    {
      if thread !in threads || threads[thread].connection.None? { return None; }
      var c := threads[thread].connection.value;
      if c !in connections || threads[thread].metadata.None? { return None; }
      return Some(Context(connections[c], threads[thread].metadata.value));
    }

    method MaybeEmitTurnEvent(turn: string) returns (out: seq<Event>)
      modifies this`turns
      ensures (State(), out) == MaybeEmit(old(State()), turn)
    {
      out := [];
      if turn !in turns || !Joined(turns[turn]) { return; }
      var t := turns[turn];
      if t.connection.value !in connections { return; }
      if t.thread.value !in threads || threads[t.thread.value].metadata.None? { return; }
      var context := Context(connections[t.connection.value], threads[t.thread.value].metadata.value);
      out := [EventOf(turn, t, context)] + AcceptedLineEvents(turn, t);
      turns := turns - {turn};
    }

    // ----- Connections and threads -----

    method IngestConnectionFact(f: ConnectionFact) returns (out: seq<Event>)
      modifies this`connections, this`threads
      ensures (State(), out) == IngestConnection(old(State()), f)
    {
      match f
      case Initialize(c, client) =>
        connections := connections[c := client];
        out := [];
      case ThreadOpened(c, thread, metadata) =>
        if c !in connections { return []; }
        threads := threads[thread := Thread(Some(c), Some(metadata))];
        out := [ThreadInitialized(thread, connections[c])];
      case SubAgentThreadStarted(thread, parent, sourceParent, session, subagent) =>
        var parentThread := if parent.Some? then parent else sourceParent;
        var inherited := if parentThread.Some? && parentThread.value in threads then threads[parentThread.value].connection else None;
        var state := if thread in threads then threads[thread] else Thread(None, None);
        if state.metadata.None? {
          state := state.(metadata := Some(Metadata(session, Some("subagent"), New, Some(subagent), parentThread)));
        }
        if state.connection.None? {
          state := state.(connection := inherited);
        }
        threads := threads[thread := state];
        out := [ThreadInitialized(thread, subagent)];
    }

    // ----- Turns -----

    method UpdateTurnState(turn: string, t: Turn)
      modifies this`turns
      ensures State() == SetTurn(old(State()), turn, t)
    {
      turns := turns[turn := t];
    }

    method TurnState(turn: string) returns (t: Turn)
      ensures t == TurnOf(State(), turn)
    {
      t := if turn in turns then turns[turn] else NewTurn;
    }

    method IngestTurnStartResponse(key: RequestKey, turn: string) returns (out: seq<Event>)
      modifies this`requests, this`turns
      ensures (State(), out) == IngestTurn(old(State()), TurnStartResponse(key.0, key.1, turn))
    {
      var pending := if key in requests then Some(requests[key]) else None;
      requests := requests - {key};
      if pending.None? || !pending.value.PendingTurnStart? { return []; }
      var t := TurnState(turn);
      UpdateTurnState(turn, t.(connection := Some(key.0), thread := Some(pending.value.thread), images := Some(pending.value.images)));
      out := MaybeEmitTurnEvent(turn);
    }

    method EmitTurnSteerEvent(connection: nat, p: PendingRequest, accepted: Option<string>, reason: Option<string>) returns (out: seq<Event>)
      requires p.PendingTurnSteer?
      ensures out == if connection !in connections || MetadataOf(State(), p.thread).None? then []
        else [TurnSteer(p.thread, p.expectedTurn, accepted, Context(connections[connection], MetadataOf(State(), p.thread).value), p.images, reason, p.createdAt)]
    {
      if connection !in connections || p.thread !in threads || threads[p.thread].metadata.None? { return []; }
      return [TurnSteer(p.thread, p.expectedTurn, accepted, Context(connections[connection], threads[p.thread].metadata.value), p.images, reason, p.createdAt)];
    }

    method IngestTurnSteerResponse(key: RequestKey, turn: string) returns (out: seq<Event>)
      modifies this`requests, this`turns
      ensures (State(), out) == IngestTurn(old(State()), TurnSteerResponse(key.0, key.1, turn))
    {
      var pending := if key in requests then Some(requests[key]) else None;
      requests := requests - {key};
      if pending.None? || !pending.value.PendingTurnSteer? { return []; }
      if turn in turns {
        turns := turns[turn := turns[turn].(steers := turns[turn].steers + 1)];
      }
      out := EmitTurnSteerEvent(key.0, pending.value, Some(turn), None);
    }

    method IngestErrorResponse(key: RequestKey, reason: Option<string>) returns (out: seq<Event>)
      modifies this`requests
      ensures (State(), out) == IngestTurn(old(State()), ErrorResponse(key.0, key.1, reason))
    {
      var pending := if key in requests then Some(requests[key]) else None;
      requests := requests - {key};
      if pending.None? || !pending.value.PendingTurnSteer? { return []; }
      out := EmitTurnSteerEvent(key.0, pending.value, None, reason);
    }

    /** The facts that update a turn and check its join. */
    method IngestJoinFact(f: TurnFact) returns (out: seq<Event>)
      requires f.TurnCompleted? || f.TurnResolvedConfig? || f.TurnTokenUsage?
      modifies this`turns
      ensures (State(), out) == IngestTurn(old(State()), f)
    {
      var turn := if f.TurnResolvedConfig? then f.config.turn else f.turn;
      var t := TurnState(turn);
      match f {
        case TurnCompleted(_, completion) => t := t.(completed := Some(completion));
        case TurnResolvedConfig(config) =>
          t := t.(thread := Some(config.thread), images := Some(config.images), config := Some(config));
        case TurnTokenUsage(_, thread, tokens) => t := t.(thread := Some(thread), tokens := Some(tokens));
      }
      UpdateTurnState(turn, t);
      out := MaybeEmitTurnEvent(turn);
    }

    method IngestTurnFact(f: TurnFact) returns (out: seq<Event>)
      modifies this`requests, this`turns
      ensures (State(), out) == IngestTurn(old(State()), f)
    {
      out := [];
      match f
      case TurnStartRequest(c, r, thread, images) => requests := requests[(c, r) := PendingTurnStart(thread, images)];
      case TurnSteerRequest(c, r, thread, expected, images, now) =>
        requests := requests[(c, r) := PendingTurnSteer(thread, expected, images, now)];
      case TurnStartResponse(c, r, turn) => out := IngestTurnStartResponse((c, r), turn);
      case TurnSteerResponse(c, r, turn) => out := IngestTurnSteerResponse((c, r), turn);
      case ErrorResponse(c, r, reason) => out := IngestErrorResponse((c, r), reason);
      case TurnStarted(turn, at) =>
        var t := TurnState(turn);
        UpdateTurnState(turn, t.(startedAt := at));
      case TurnDiffUpdated(thread, turn, diff) =>
        var t := TurnState(turn);
        UpdateTurnState(turn, t.(thread := Some(thread), diff := Some(diff)));
      case _ => out := IngestJoinFact(f);
    }

    // ----- Items and reviews -----

    method IngestItemFact(f: ItemFact) returns (out: seq<Event>)
      modifies this`turns, this`toolItemsStartedAtMs, this`itemReviewSummaries
      ensures (State(), out) == IngestItem(old(State()), f)
    {
      out := [];
      var id := TrackedId(f.item);
      if id.None? { return; }
      var key := ItemKey(f.thread, f.turn, id.value);
      if f.ItemStarted? {
        if f.at >= 0 { toolItemsStartedAtMs := toolItemsStartedAtMs[key := f.at]; }
        return;
      }
      if f.turn !in turns { return; }
      turns := turns[f.turn := turns[f.turn].(tools := Record(turns[f.turn].tools, f.item.kind))];
      if key !in toolItemsStartedAtMs { return; }
      var started := toolItemsStartedAtMs[key];
      toolItemsStartedAtMs := toolItemsStartedAtMs - {key};
      if f.at < 0 { return; }
      var context := ThreadContextOrWarn(f.thread);
      if context.None? { return; }
      if f.item.terminal {
        var reviews := if key in itemReviewSummaries then Some(itemReviewSummaries[key]) else None;
        out := [ToolItem(key, f.item, started, f.at, context.value, reviews)];
      }
      itemReviewSummaries := itemReviewSummaries - {key};
    }

    method RecordItemReviewSummary(key: ItemKey, who: Reviewer, v: Verdict, r: Review)
      modifies this`itemReviewSummaries
      ensures State() == RecordReview(old(State()), key, who, v, r)
    {
      var s := if key in itemReviewSummaries then itemReviewSummaries[key] else NoReviews;
      s := s.(reviews := s.reviews + 1);
      match who {
        case Guardian => s := s.(guardian := s.guardian + 1);
        case User => s := s.(user := s.user + 1);
      }
      s := s.(outcome := Some(OutcomeOf(who, v)));
      s := s.(additionalPermissions := s.additionalPermissions || r.additionalPermissions);
      s := s.(networkAccess := s.networkAccess || r.networkAccess);
      itemReviewSummaries := itemReviewSummaries[key := s];
    }

    method EmitReviewEvent(r: Review, who: Reviewer, v: Verdict, ended: int) returns (out: seq<Event>)
      modifies this`itemReviewSummaries
      ensures (State(), out) == CloseReview(old(State()), r, who, v, ended)
    {
      if SummaryKey(r).Some? { RecordItemReviewSummary(SummaryKey(r).value, who, v, r); }
      var context := ThreadContextOrWarn(r.thread);
      out := if context.None? then [] else [ReviewEvent(r, who, v, context.value, ended)];
    }

    method CloseApproval(request: RequestId, v: Verdict, ended: int) returns (out: seq<Event>)
      modifies this`pendingReviews, this`itemReviewSummaries
      ensures (State(), out) == IngestApprovalClosed(old(State()), request, v, ended)
    {
      if request !in pendingReviews { return []; }
      var r := pendingReviews[request];
      pendingReviews := pendingReviews - {request};
      out := EmitReviewEvent(r, User, v, ended);
    }

    method IngestReviewFact(f: ReviewFact) returns (out: seq<Event>)
      modifies this`pendingReviews, this`itemReviewSummaries
      ensures (State(), out) == IngestReview(old(State()), f)
    {
      out := [];
      match f
      case GuardianReviewCompleted(r, result, began, ended) =>
        if result.None? || began < 0 || ended < 0 { return; }
        out := EmitReviewEvent(r.(startedAt := began), Guardian, result.value, ended);
      case ApprovalRequested(request, approval, thread, turn, item, at) =>
        if at < 0 { return; }
        pendingReviews := pendingReviews[request := ReviewOf(approval, thread, turn, item, UserReviewId(request), at)];
      case ApprovalAnswered(request, v, ended) => out := CloseApproval(request, v, ended);
      case ApprovalAborted(request, ended) => out := CloseApproval(request, Verdict(Aborted, NoResolution), ended);
    }

    method IngestFact(f: Fact) returns (out: seq<Event>)
      modifies this
      ensures (State(), out) == Ingest(old(State()), f)
    {
      match f
      case OfConnection(c) => out := IngestConnectionFact(c);
      case OfTurn(t) => out := IngestTurnFact(t);
      case OfItem(i) => out := IngestItemFact(i);
      case OfReview(r) => out := IngestReviewFact(r);
      case Passing(p) =>
        match p {
          case ContextOnly(thread, body) =>
            var context := ThreadContextOrWarn(thread);
            out := if context.Some? then [OtherEvent(body)] else [];
          case EmitOnly(bodies) => out := Others(bodies);
          case Untracked => out := [];
        }
    }
  }

  /** The reducer over a whole run. */
  method IngestAll(facts: seq<Fact>) returns (reducer: AnalyticsReducerObject, out: seq<Event>)
    ensures fresh(reducer) && (reducer.State(), out) == Run(facts)
    ensures ReducerContext.WellConnected(reducer.State())
    ensures TurnEvents(out) <= ReducerTurns.StartRequests(facts)
    ensures forall turn, kind :: ReducerTurns.CountsFrom(facts, reducer.State(), turn, kind)
    ensures forall key :: ReducerReviews.SummaryFrom(facts, reducer.State(), key)
  {
    reducer := new AnalyticsReducerObject();
    out := [];
    for i := 0 to |facts|
      invariant fresh(reducer) && (reducer.State(), out) == Run(facts[..i])
    {
      assert facts[..i + 1][..i] == facts[..i];
      var more := reducer.IngestFact(facts[i]);
      out := out + more;
    }
    assert facts[..|facts|] == facts;
    ReducerContext.RunKeepsConnected(facts);
    ReducerTurns.TurnEventsAtMostStartRequests(facts);
    forall turn, kind ensures ReducerTurns.CountsFrom(facts, reducer.State(), turn, kind) {
      ReducerTurns.ToolCountsExact(facts, turn, kind);
    }
    forall key ensures ReducerReviews.SummaryFrom(facts, reducer.State(), key) { ReducerReviews.SummaryCountsReviews(facts, key); }
  }
}
