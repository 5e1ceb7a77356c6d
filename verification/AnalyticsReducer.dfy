/**
The analytics reducer: seven maps updated by facts, and the events emitted
when enough facts about a thread, a turn, an item or a review have joined.

Records keep the fields the reducer routes or joins on; payload it only copies
is one string.
*/
module AnalyticsReducer {
  import opened Common
  import Json

  // ----- Threads and connections -----

  datatype InitializationMode = New | Resumed | Forked

  datatype Metadata = Metadata(
    session: string, source: Option<string>, mode: InitializationMode, subagent: Option<string>, parent: Option<string>)

  datatype Thread = Thread(connection: Option<nat>, metadata: Option<Metadata>)

  datatype Context = Context(client: string, metadata: Metadata)

  // ----- Items -----

  datatype ItemKind =
    | CommandExecution | FileChange | McpToolCall | DynamicToolCall | CollabAgentToolCall | WebSearch | ImageGeneration
    | UserMessage | HookPrompt | AgentMessage | Plan | Reasoning | ImageView | EnteredReviewMode | ExitedReviewMode
    | ContextCompaction

  /** `terminal` says whether the item's status has a terminal outcome to report. */
  datatype Item = Item(kind: ItemKind, id: string, terminal: bool, body: string)

  datatype ItemKey = ItemKey(thread: string, turn: string, item: string)

  /** `tracked_tool_item_id`. */
  function TrackedId(item: Item): Option<string>
  {
    match item.kind
    case CommandExecution => Some(item.id)
    case FileChange => Some(item.id)
    case McpToolCall => Some(item.id)
    case DynamicToolCall => Some(item.id)
    case CollabAgentToolCall => Some(item.id)
    case WebSearch => Some(item.id)
    case ImageGeneration => Some(item.id)
    case _ => None
  }

  datatype ToolCounts = ToolCounts(
    total: nat, shellCommand: nat, fileChange: nat, mcpToolCall: nat, dynamicToolCall: nat,
    subagentToolCall: nat, webSearch: nat, imageGeneration: nat)

  const NoTools: ToolCounts := ToolCounts(0, 0, 0, 0, 0, 0, 0, 0)

  /** `TurnToolCounts::record`. */
  function Record(c: ToolCounts, kind: ItemKind): ToolCounts
  {
    match kind
    case CommandExecution => c.(shellCommand := c.shellCommand + 1, total := c.total + 1)
    case FileChange => c.(fileChange := c.fileChange + 1, total := c.total + 1)
    case McpToolCall => c.(mcpToolCall := c.mcpToolCall + 1, total := c.total + 1)
    case DynamicToolCall => c.(dynamicToolCall := c.dynamicToolCall + 1, total := c.total + 1)
    case CollabAgentToolCall => c.(subagentToolCall := c.subagentToolCall + 1, total := c.total + 1)
    case WebSearch => c.(webSearch := c.webSearch + 1, total := c.total + 1)
    case ImageGeneration => c.(imageGeneration := c.imageGeneration + 1, total := c.total + 1)
    case _ => c
  }

  // ----- Turns -----

  datatype Config = Config(turn: string, thread: string, images: nat, model: string, settings: string)

  /** A turn's latest diff, as the accepted-line scanner totals it. */
  datatype Diff = Diff(added: nat, deleted: nat)

  datatype Turn = Turn(
    connection: Option<nat>, thread: Option<string>, images: Option<nat>, config: Option<Config>,
    startedAt: Option<nat>, tokens: Option<string>, completed: Option<string>, diff: Option<Diff>,
    steers: nat, tools: ToolCounts)

  const NewTurn: Turn := Turn(None, None, None, None, None, None, None, None, 0, NoTools)

  datatype PendingRequest =
    | PendingTurnStart(thread: string, images: nat)
    | PendingTurnSteer(thread: string, expectedTurn: string, images: nat, createdAt: nat)

  // ----- Reviews -----

  datatype Subject = CommandSubject | FileChangeSubject | McpSubject | PermissionsSubject | NetworkSubject

  datatype Reviewer = Guardian | User

  datatype Status = Approved | Denied | Aborted | TimedOut

  datatype Resolution = NoResolution | SessionApproval | ExecPolicyAmendment | NetworkPolicyAmendment

  datatype Verdict = Verdict(status: Status, resolution: Resolution)

  datatype Review = Review(
    thread: string, turn: string, item: Option<string>, id: string, subject: Subject, startedAt: nat,
    additionalPermissions: bool, networkAccess: bool)

  datatype Outcome =
    | GuardianApproved | GuardianDenied | GuardianAborted
    | UserApproved | UserApprovedForSession | UserDenied | UserAborted

  datatype ReviewSummary = ReviewSummary(
    reviews: nat, guardian: nat, user: nat, outcome: Option<Outcome>, additionalPermissions: bool, networkAccess: bool)

  const NoReviews: ReviewSummary := ReviewSummary(0, 0, 0, None, false, false)

  /** `final_approval_outcome`. */
  function OutcomeOf(reviewer: Reviewer, v: Verdict): Outcome
  {
    match (reviewer, v.status)
    case (Guardian, Approved) => GuardianApproved
    case (Guardian, Denied) => GuardianDenied
    case (Guardian, _) => GuardianAborted
    case (User, Approved) => if v.resolution == SessionApproval then UserApprovedForSession else UserApproved
    case (User, Denied) => UserDenied
    case (User, _) => UserAborted
  }

  /** The approval requests the server sends, with what decides the review's subject. */
  datatype Approval =
    | CommandApproval(networkContext: bool, amendments: bool, permissions: Option<bool>)
    | FileChangeApproval(grantRoot: bool)
    | PermissionsApproval(network: bool, fileSystem: bool)

  function ReviewOf(a: Approval, thread: string, turn: string, item: string, id: string, startedAt: nat): Review
  {
    match a
    case CommandApproval(context, amendments, permissions) =>
      Review(thread, turn, Some(item), id, if context then NetworkSubject else CommandSubject, startedAt,
             permissions.Some?, context || amendments || permissions == Some(true))
    case FileChangeApproval(grantRoot) =>
      Review(thread, turn, Some(item), id, FileChangeSubject, startedAt, grantRoot, false)
    case PermissionsApproval(network, fileSystem) =>
      Review(thread, turn, Some(item), id, PermissionsSubject, startedAt, network || fileSystem, network)
  }

  /** `item_review_summary_key`: only command, patch and MCP reviews attach to an item. */
  function SummaryKey(r: Review): Option<ItemKey>
  {
    if r.item.None? || r.subject == PermissionsSubject || r.subject == NetworkSubject then None
    else Some(ItemKey(r.thread, r.turn, r.item.value))
  }

  // ----- Facts and events -----

  /** Facts about connections and threads. */
  datatype ConnectionFact =
    | Initialize(connection: nat, client: string)
    | ThreadOpened(connection: nat, thread: string, metadata: Metadata)  // start, resume and fork responses
    | SubAgentThreadStarted(thread: string, parent: Option<string>, sourceParent: Option<string>, session: string, subagent: string)

  /** Facts about turns and the requests that start or steer them. */
  datatype TurnFact =
    | TurnStartRequest(connection: nat, request: RequestId, thread: string, images: nat)
    | TurnSteerRequest(connection: nat, request: RequestId, thread: string, expectedTurn: string, images: nat, now: nat)
    | TurnStartResponse(connection: nat, request: RequestId, turn: string)
    | TurnSteerResponse(connection: nat, request: RequestId, turn: string)
    | ErrorResponse(connection: nat, request: RequestId, reason: Option<string>)
    | TurnStarted(turn: string, startedAt: Option<nat>)
    | TurnDiffUpdated(thread: string, turn: string, diff: Diff)
    | TurnCompleted(turn: string, completion: string)
    | TurnResolvedConfig(config: Config)
    | TurnTokenUsage(turn: string, thread: string, tokens: string)

  datatype ItemFact =
    | ItemStarted(thread: string, turn: string, item: Item, at: int)
    | ItemCompleted(thread: string, turn: string, item: Item, at: int)

  datatype ReviewFact =
    | GuardianReviewCompleted(review: Review, result: Option<Verdict>, began: int, ended: int)
    | ApprovalRequested(request: RequestId, approval: Approval, thread: string, turn: string, itemId: string, at: int)
    | ApprovalAnswered(request: RequestId, verdict: Verdict, ended: int)
    | ApprovalAborted(request: RequestId, ended: int)

  /** Facts that change no map. */
  datatype PassingFact =
    | ContextOnly(thread: string, body: string)  // compaction, guardian review
    | EmitOnly(bodies: seq<string>)              // skill, app, hook and plugin facts
    | Untracked                                  // requests, responses and notifications of no interest

  datatype Fact =
    | OfConnection(c: ConnectionFact)
    | OfTurn(t: TurnFact)
    | OfItem(i: ItemFact)
    | OfReview(r: ReviewFact)
    | Passing(p: PassingFact)

  datatype Event =
    | ThreadInitialized(thread: string, body: string)
    | TurnEvent(turn: string, thread: string, context: Context, images: nat, model: string, settings: string,
                startedAt: Option<nat>, tokens: Option<string>, completed: string, steers: nat, tools: ToolCounts)
    | AcceptedLineFingerprints(turn: string, thread: string, model: string, added: nat, deleted: nat)
    | TurnSteer(thread: string, expectedTurn: string, acceptedTurn: Option<string>, context: Context, images: nat,
                reason: Option<string>, createdAt: nat)
    | ReviewEvent(review: Review, reviewer: Reviewer, verdict: Verdict, context: Context, ended: int)
    | ToolItem(key: ItemKey, item: Item, began: nat, finished: nat, context: Context, reviews: Option<ReviewSummary>)
    | OtherEvent(body: string)

  /** How many turn events a batch of events holds. */
  function TurnEvents(events: seq<Event>): nat
  {
    if events == [] then 0 else (if events[0].TurnEvent? then 1 else 0) + TurnEvents(events[1..])
  }

  type RequestKey = (nat, RequestId)

  datatype Reducer = Reducer(
    requests: map<RequestKey, PendingRequest>,
    turns: map<string, Turn>,
    connections: map<nat, string>,
    threads: map<string, Thread>,
    itemsStarted: map<ItemKey, nat>,
    pendingReviews: map<RequestId, Review>,
    summaries: map<ItemKey, ReviewSummary>)

  const Empty: Reducer := Reducer(map[], map[], map[], map[], map[], map[], map[])

  // ----- Context lookup -----

  datatype ContextResult = Found(context: Context) | NoThreadConnection | NoConnection(connection: nat) | NoMetadata

  /** `thread_context_or_warn`, with the reason it warns about. */
  function ThreadContext(s: Reducer, thread: string): ContextResult
  {
    if thread !in s.threads || s.threads[thread].connection.None? then NoThreadConnection
    else
      var c := s.threads[thread].connection.value;
      if c !in s.connections then NoConnection(c)
      else if s.threads[thread].metadata.None? then NoMetadata
      else Found(Context(s.connections[c], s.threads[thread].metadata.value))
  }

  function MetadataOf(s: Reducer, thread: string): Option<Metadata>
  {
    if thread in s.threads then s.threads[thread].metadata else None
  }

  // ----- Turns: join and emit -----

  function TurnOf(s: Reducer, turn: string): Turn
  {
    if turn in s.turns then s.turns[turn] else NewTurn
  }

  function SetTurn(s: Reducer, turn: string, t: Turn): Reducer
  {
    s.(turns := s.turns[turn := t])
  }

  predicate Joined(t: Turn)
  {
    t.thread.Some? && t.images.Some? && t.config.Some? && t.completed.Some? && t.connection.Some?
  }

  function EventOf(turn: string, t: Turn, c: Context): Event
    requires Joined(t)
  {
    TurnEvent(turn, t.thread.value, c, t.images.value, t.config.value.model, t.config.value.settings,
              t.startedAt, t.tokens, t.completed.value, t.steers, t.tools)
  }

  function AcceptedLineEvents(turn: string, t: Turn): seq<Event>
    requires Joined(t)
  {
    if t.diff.None? || (t.diff.value.added == 0 && t.diff.value.deleted == 0) then []
    else [AcceptedLineFingerprints(turn, t.thread.value, t.config.value.model, t.diff.value.added, t.diff.value.deleted)]
  }

  predicate Emits(s: Reducer, turn: string)
  {
    && turn in s.turns && Joined(s.turns[turn])
    && s.turns[turn].connection.value in s.connections
    && MetadataOf(s, s.turns[turn].thread.value).Some?
  }

  /** `maybe_emit_turn_event`. */
  function MaybeEmit(s: Reducer, turn: string): (Reducer, seq<Event>)
  {
    if !Emits(s, turn) then (s, [])
    else
      var t := s.turns[turn];
      var c := Context(s.connections[t.connection.value], MetadataOf(s, t.thread.value).value);
      (s.(turns := s.turns - {turn}), [EventOf(turn, t, c)] + AcceptedLineEvents(turn, t))
  }

  // ----- Ingest, one fact at a time -----

  function IngestThreadOpened(s: Reducer, connection: nat, thread: string, metadata: Metadata): (Reducer, seq<Event>)
  {
    if connection !in s.connections then (s, [])
    else (s.(threads := s.threads[thread := Thread(Some(connection), Some(metadata))]), [ThreadInitialized(thread, s.connections[connection])])
  }

  function StartTurn(s: Reducer, key: RequestKey, turn: string): Reducer
  {
    var t := s.(requests := s.requests - {key});
    if key !in s.requests || !s.requests[key].PendingTurnStart? then t
    else
      var p := s.requests[key];
      SetTurn(t, turn, TurnOf(s, turn).(connection := Some(key.0), thread := Some(p.thread), images := Some(p.images)))
  }

  function SteerTurn(s: Reducer, key: RequestKey, turn: string): Reducer
  {
    var t := s.(requests := s.requests - {key});
    if key !in s.requests || !s.requests[key].PendingTurnSteer? || turn !in t.turns then t
    else SetTurn(t, turn, t.turns[turn].(steers := t.turns[turn].steers + 1))
  }

  /** `emit_turn_steer_event`, for a steer request that was pending under `key`. */
  function SteerEvents(s: Reducer, key: RequestKey, accepted: Option<string>, reason: Option<string>): (r: seq<Event>)
    ensures TurnEvents(r) == 0
  {
    if key !in s.requests || !s.requests[key].PendingTurnSteer? then []
    else
      var p := s.requests[key];
      if key.0 !in s.connections || MetadataOf(s, p.thread).None? then []
      else [TurnSteer(p.thread, p.expectedTurn, accepted, Context(s.connections[key.0], MetadataOf(s, p.thread).value), p.images, reason, p.createdAt)]
  }

  function IngestItemStarted(s: Reducer, thread: string, turn: string, item: Item, at: int): Reducer
  {
    if TrackedId(item).None? || at < 0 then s
    else s.(itemsStarted := s.itemsStarted[ItemKey(thread, turn, TrackedId(item).value) := at])
  }

  function IngestItemCompleted(s: Reducer, thread: string, turn: string, item: Item, at: int): (Reducer, seq<Event>)
  {
    if TrackedId(item).None? || turn !in s.turns then (s, [])
    else
      var key := ItemKey(thread, turn, TrackedId(item).value);
      var t := SetTurn(s, turn, s.turns[turn].(tools := Record(s.turns[turn].tools, item.kind)));
      if key !in s.itemsStarted then (t, [])
      else
        var u := t.(itemsStarted := t.itemsStarted - {key});
        var c := ThreadContext(u, thread);
        if at < 0 || !c.Found? then (u, [])
        else
          var reviews := if key in s.summaries then Some(s.summaries[key]) else None;
          (u.(summaries := u.summaries - {key}),
           if item.terminal then [ToolItem(key, item, s.itemsStarted[key], at, c.context, reviews)] else [])
  }

  /** `record_item_review_summary`. */
  function RecordReview(s: Reducer, key: ItemKey, reviewer: Reviewer, v: Verdict, r: Review): Reducer
  {
    var prior := if key in s.summaries then s.summaries[key] else NoReviews;
    var counted := match reviewer
      case Guardian => prior.(guardian := prior.guardian + 1)
      case User => prior.(user := prior.user + 1);
    s.(summaries := s.summaries[key := counted.(
      reviews := prior.reviews + 1, outcome := Some(OutcomeOf(reviewer, v)),
      additionalPermissions := prior.additionalPermissions || r.additionalPermissions,
      networkAccess := prior.networkAccess || r.networkAccess)])
  }

  /** `emit_review_event`. */
  function CloseReview(s: Reducer, r: Review, reviewer: Reviewer, v: Verdict, ended: int): (Reducer, seq<Event>)
  {
    var t := if SummaryKey(r).Some? then RecordReview(s, SummaryKey(r).value, reviewer, v, r) else s;
    var c := ThreadContext(t, r.thread);
    (t, if c.Found? then [ReviewEvent(r, reviewer, v, c.context, ended)] else [])
  }

  function IngestApprovalClosed(s: Reducer, request: RequestId, v: Verdict, ended: int): (Reducer, seq<Event>)
  {
    if request !in s.pendingReviews then (s, [])
    else CloseReview(s.(pendingReviews := s.pendingReviews - {request}), s.pendingReviews[request], User, v, ended)
  }

  function IngestGuardianReviewCompleted(s: Reducer, r: Review, verdict: Option<Verdict>, began: int, ended: int): (Reducer, seq<Event>)
  {
    if verdict.None? || began < 0 || ended < 0 then (s, [])
    else CloseReview(s, r.(startedAt := began), Guardian, verdict.value, ended)
  }

  function UserReviewId(request: RequestId): string
  {
    match request case StringId(t) => "user:" + t case IntegerId(n) => "user:" + Json.NumberText(Json.Int(n))
  }

  function IngestApprovalRequested(s: Reducer, request: RequestId, a: Approval, thread: string, turn: string, item: string, at: int): Reducer
  {
    if at < 0 then s
    else s.(pendingReviews := s.pendingReviews[request := ReviewOf(a, thread, turn, item, UserReviewId(request), at)])
  }

  function IngestSubAgentThread(s: Reducer, thread: string, parent: Option<string>, session: string, subagent: string): Reducer
  {
    var inherited := if parent.Some? && parent.value in s.threads then s.threads[parent.value].connection else None;
    var known := if thread in s.threads then s.threads[thread] else Thread(None, None);
    var metadata := if known.metadata.Some? then known.metadata
      else Some(Metadata(session, Some("subagent"), New, Some(subagent), parent));
    var connection := if known.connection.Some? then known.connection else inherited;
    s.(threads := s.threads[thread := Thread(connection, metadata)])
  }

  function Others(bodies: seq<string>): (r: seq<Event>)
    ensures |r| == |bodies| && TurnEvents(r) == 0
  {
    if bodies == [] then [] else [OtherEvent(bodies[0])] + Others(bodies[1..])
  }

  function IngestConnection(s: Reducer, f: ConnectionFact): (r: (Reducer, seq<Event>))
    ensures r.0 == s.(connections := r.0.connections, threads := r.0.threads)
    ensures TurnEvents(r.1) == 0
  {
    match f
    case Initialize(c, client) => (s.(connections := s.connections[c := client]), [])
    case ThreadOpened(c, thread, metadata) => IngestThreadOpened(s, c, thread, metadata)
    case SubAgentThreadStarted(thread, parent, sourceParent, session, subagent) =>
      (IngestSubAgentThread(s, thread, if parent.Some? then parent else sourceParent, session, subagent), [ThreadInitialized(thread, subagent)])
  }

  /** The maps after a turn fact's own update. */
  function UpdateTurn(s: Reducer, f: TurnFact): (r: Reducer)
    ensures r == s.(requests := r.requests, turns := r.turns)
  {
    match f
    case TurnStartRequest(c, r, thread, images) => s.(requests := s.requests[(c, r) := PendingTurnStart(thread, images)])
    case TurnSteerRequest(c, r, thread, expected, images, now) =>
      s.(requests := s.requests[(c, r) := PendingTurnSteer(thread, expected, images, now)])
    case TurnStartResponse(c, r, turn) => StartTurn(s, (c, r), turn)
    case TurnSteerResponse(c, r, turn) => SteerTurn(s, (c, r), turn)
    case ErrorResponse(c, r, _) => s.(requests := s.requests - {(c, r)})
    case TurnStarted(turn, at) => SetTurn(s, turn, TurnOf(s, turn).(startedAt := at))
    case TurnDiffUpdated(thread, turn, diff) => SetTurn(s, turn, TurnOf(s, turn).(thread := Some(thread), diff := Some(diff)))
    case TurnCompleted(turn, completion) => SetTurn(s, turn, TurnOf(s, turn).(completed := Some(completion)))
    case TurnResolvedConfig(config) =>
      SetTurn(s, config.turn, TurnOf(s, config.turn).(thread := Some(config.thread), images := Some(config.images), config := Some(config)))
    case TurnTokenUsage(turn, thread, tokens) => SetTurn(s, turn, TurnOf(s, turn).(thread := Some(thread), tokens := Some(tokens)))
  }

  /** The turn whose join is checked after the update, if the fact checks one. */
  function JoinCheck(s: Reducer, f: TurnFact): Option<string>
  {
    match f
    case TurnStartResponse(c, r, turn) =>
      if (c, r) in s.requests && s.requests[(c, r)].PendingTurnStart? then Some(turn) else None
    case TurnCompleted(turn, _) => Some(turn)
    case TurnResolvedConfig(config) => Some(config.turn)
    case TurnTokenUsage(turn, _, _) => Some(turn)
    case _ => None
  }

  function SteerReport(s: Reducer, f: TurnFact): (r: seq<Event>)
    ensures TurnEvents(r) == 0
  {
    match f
    case TurnSteerResponse(c, r, turn) => SteerEvents(s, (c, r), Some(turn), None)
    case ErrorResponse(c, r, reason) => SteerEvents(s, (c, r), None, reason)
    case _ => []
  }

  function IngestTurn(s: Reducer, f: TurnFact): (r: (Reducer, seq<Event>))
    ensures r.0 == s.(requests := r.0.requests, turns := r.0.turns)
  {
    var t := UpdateTurn(s, f);
    match JoinCheck(s, f)
    case Some(turn) => MaybeEmit(t, turn)
    case None => (t, SteerReport(s, f))
  }

  function IngestItem(s: Reducer, f: ItemFact): (r: (Reducer, seq<Event>))
    ensures r.0 == s.(turns := r.0.turns, itemsStarted := r.0.itemsStarted, summaries := r.0.summaries)
    ensures TurnEvents(r.1) == 0
  {
    match f
    case ItemStarted(thread, turn, item, at) => (IngestItemStarted(s, thread, turn, item, at), [])
    case ItemCompleted(thread, turn, item, at) => IngestItemCompleted(s, thread, turn, item, at)
  }

  function IngestReview(s: Reducer, f: ReviewFact): (r: (Reducer, seq<Event>))
    ensures r.0 == s.(pendingReviews := r.0.pendingReviews, summaries := r.0.summaries)
    ensures TurnEvents(r.1) == 0
  {
    match f
    case GuardianReviewCompleted(r, v, began, ended) => IngestGuardianReviewCompleted(s, r, v, began, ended)
    case ApprovalRequested(r, a, thread, turn, item, at) => (IngestApprovalRequested(s, r, a, thread, turn, item, at), [])
    case ApprovalAnswered(r, v, ended) => IngestApprovalClosed(s, r, v, ended)
    case ApprovalAborted(r, ended) => IngestApprovalClosed(s, r, Verdict(Aborted, NoResolution), ended)
  }

  function PassingEvents(s: Reducer, f: PassingFact): (r: seq<Event>)
    ensures TurnEvents(r) == 0
  {
    match f
    case ContextOnly(thread, body) => if ThreadContext(s, thread).Found? then [OtherEvent(body)] else []
    case EmitOnly(bodies) => Others(bodies)
    case Untracked => []
  }

  /** `AnalyticsReducer::ingest`. */
  function Ingest(s: Reducer, f: Fact): (Reducer, seq<Event>)
  {
    match f
    case OfConnection(c) => IngestConnection(s, c)
    case OfTurn(t) => IngestTurn(s, t)
    case OfItem(i) => IngestItem(s, i)
    case OfReview(r) => IngestReview(s, r)
    case Passing(p) => (s, PassingEvents(s, p))
  }

  /** The reducer over a run of facts: its final state and all it emitted. */
  function RunFrom(s: Reducer, facts: seq<Fact>): (Reducer, seq<Event>)
  {
    if facts == [] then (s, [])
    else
      var before := RunFrom(s, facts[..|facts| - 1]);
      var after := Ingest(before.0, facts[|facts| - 1]);
      (after.0, before.1 + after.1)
  }

  function Run(facts: seq<Fact>): (Reducer, seq<Event>)
  {
    RunFrom(Empty, facts)
  }
}
