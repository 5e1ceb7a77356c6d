/** Review summaries count exactly the reviews closed for their item; an approval request closes at most one. */
module ReducerReviews {
  import opened Common
  import opened AnalyticsReducer

  /** The review a fact closes in state `s`, and who closed it. */
  function Closing(s: Reducer, f: ReviewFact): Option<(Review, Reviewer)>
  {
    match f
    case GuardianReviewCompleted(r, v, began, ended) =>
      if v.Some? && began >= 0 && ended >= 0 then Some((r.(startedAt := began), Guardian)) else None
    case ApprovalRequested(_, _, _, _, _, _) => None
    case ApprovalAnswered(q, _, _) => if q in s.pendingReviews then Some((s.pendingReviews[q], User)) else None
    case ApprovalAborted(q, _) => if q in s.pendingReviews then Some((s.pendingReviews[q], User)) else None
  }

  predicate ClosesFor(s: Reducer, f: Fact, key: ItemKey, who: Reviewer)
  {
    f.OfReview? && Closing(s, f.r).Some? && SummaryKey(Closing(s, f.r).value.0) == Some(key) && Closing(s, f.r).value.1 == who
  }

  /** A completion that reports the item, with its review summary, and so retires the summary. */
  predicate Retires(s: Reducer, f: Fact, key: ItemKey)
  {
    && f.OfItem? && f.i.ItemCompleted? && TrackedId(f.i.item).Some?
    && key == ItemKey(f.i.thread, f.i.turn, TrackedId(f.i.item).value)
    && f.i.turn in s.turns && key in s.itemsStarted && f.i.at >= 0 && ThreadContext(s, f.i.thread).Found?
  }

  /** Reviews of exactly this item closed by `who` since its summary was last retired. */
  function ClosedSince(facts: seq<Fact>, key: ItemKey, who: Reviewer): nat
  {
    if facts == [] then 0
    else
      var init, f := facts[..|facts| - 1], facts[|facts| - 1];
      var s := Run(init).0;
      if Retires(s, f, key) then 0 else ClosedSince(init, key, who) + Bit(ClosesFor(s, f, key, who))
  }

  function SummaryAt(s: Reducer, key: ItemKey): ReviewSummary
  {
    if key in s.summaries then s.summaries[key] else NoReviews
  }

  ghost predicate SummaryIs(s: Reducer, key: ItemKey, guardian: nat, user: nat)
  {
    && SummaryAt(s, key).guardian == guardian && SummaryAt(s, key).user == user
    && SummaryAt(s, key).reviews == guardian + user
    && (key in s.summaries <==> guardian + user > 0)
  }

  lemma CloseRecords(s: Reducer, r: Review, who: Reviewer, v: Verdict, ended: int, key: ItemKey, guardian: nat, user: nat)
    requires SummaryIs(s, key, guardian, user)
    ensures SummaryIs(CloseReview(s, r, who, v, ended).0, key,
              guardian + Bit(SummaryKey(r) == Some(key) && who == Guardian), user + Bit(SummaryKey(r) == Some(key) && who == User))
  {
  }

  /** After `f` the summary has one more of whatever review `f` closed for the item. */
  ghost predicate Recorded(s: Reducer, f: ReviewFact, key: ItemKey, guardian: nat, user: nat)
  {
    SummaryIs(IngestReview(s, f).0, key,
      guardian + Bit(ClosesFor(s, OfReview(f), key, Guardian)), user + Bit(ClosesFor(s, OfReview(f), key, User)))
  }

  lemma GuardianRecords(s: Reducer, f: ReviewFact, key: ItemKey, guardian: nat, user: nat)
    requires SummaryIs(s, key, guardian, user) && f.GuardianReviewCompleted?
    ensures Recorded(s, f, key, guardian, user)
  {
    if f.result.Some? && f.began >= 0 && f.ended >= 0 {
      CloseRecords(s, f.review.(startedAt := f.began), Guardian, f.result.value, f.ended, key, guardian, user);
    }
  }

  lemma ApprovalRecords(s: Reducer, f: ReviewFact, key: ItemKey, guardian: nat, user: nat)
    requires SummaryIs(s, key, guardian, user) && (f.ApprovalAnswered? || f.ApprovalAborted?)
    ensures Recorded(s, f, key, guardian, user)
  {
    var q := f.request;
    var v := if f.ApprovalAnswered? then f.verdict else Verdict(Aborted, NoResolution);
    if q in s.pendingReviews {
      CloseRecords(s.(pendingReviews := s.pendingReviews - {q}), s.pendingReviews[q], User, v, f.ended, key, guardian, user);
    }
  }

  lemma ReviewRecords(s: Reducer, f: ReviewFact, key: ItemKey, guardian: nat, user: nat)
    requires SummaryIs(s, key, guardian, user)
    ensures Recorded(s, f, key, guardian, user)
  {
    if f.GuardianReviewCompleted? {
      GuardianRecords(s, f, key, guardian, user);
    } else if !f.ApprovalRequested? {
      ApprovalRecords(s, f, key, guardian, user);
    }
  }

  lemma ItemRetires(s: Reducer, f: ItemFact, key: ItemKey)
    ensures IngestItem(s, f).0.summaries == if Retires(s, OfItem(f), ItemKeyOf(f)) then s.summaries - {ItemKeyOf(f)} else s.summaries
    ensures Retires(s, OfItem(f), key) ==> key == ItemKeyOf(f)
  {
  }

  function ItemKeyOf(f: ItemFact): ItemKey
  {
    ItemKey(f.thread, f.turn, f.item.id)
  }

  lemma StepRecords(s: Reducer, f: Fact, key: ItemKey, guardian: nat, user: nat)
    requires SummaryIs(s, key, guardian, user)
    ensures var t := Ingest(s, f).0;
      if Retires(s, f, key) then SummaryIs(t, key, 0, 0)
      else SummaryIs(t, key, guardian + Bit(ClosesFor(s, f, key, Guardian)), user + Bit(ClosesFor(s, f, key, User)))
  {
    if f.OfReview? {
      ReviewRecords(s, f.r, key, guardian, user);
    } else if f.OfItem? {
      ItemRetires(s, f.i, key);
    }
  }

  ghost predicate SummaryFrom(facts: seq<Fact>, s: Reducer, key: ItemKey)
  {
    SummaryIs(s, key, ClosedSince(facts, key, Guardian), ClosedSince(facts, key, User))
  }

  /**
  In every reachable state an item's summary counts, by reviewer and in total,
  exactly the reviews closed for that item since its summary was last retired;
  there is a summary only if there is such a review.
  */
  lemma {:induction false} SummaryCountsReviews(facts: seq<Fact>, key: ItemKey)
    ensures SummaryFrom(facts, Run(facts).0, key)
  {
    if facts != [] {
      var init, f := facts[..|facts| - 1], facts[|facts| - 1];
      SummaryCountsReviews(init, key);
      StepRecords(Run(init).0, f, key, ClosedSince(init, key, Guardian), ClosedSince(init, key, User));
    }
  }

  // ----- Approval requests -----

  predicate Asks(f: Fact, q: RequestId)
  {
    f.OfReview? && f.r.ApprovalRequested? && f.r.request == q && f.r.at >= 0
  }

  predicate Answers(f: Fact, q: RequestId)
  {
    f.OfReview? && ((f.r.ApprovalAnswered? && f.r.request == q) || (f.r.ApprovalAborted? && f.r.request == q))
  }

  function Asked(facts: seq<Fact>, q: RequestId): nat
  {
    if facts == [] then 0 else Asked(facts[..|facts| - 1], q) + Bit(Asks(facts[|facts| - 1], q))
  }

  /** Answers and aborts that found the request open. */
  function Closed(facts: seq<Fact>, q: RequestId): nat
  {
    if facts == [] then 0
    else
      var init, f := facts[..|facts| - 1], facts[|facts| - 1];
      Closed(init, q) + Bit(Answers(f, q) && Closing(Run(init).0, f.r).Some?)
  }

  lemma StepClosing(s: Reducer, f: Fact, q: RequestId)
    ensures Bit(Answers(f, q) && Closing(s, f.r).Some?) + Bit(q in Ingest(s, f).0.pendingReviews)
      <= Bit(q in s.pendingReviews) + Bit(Asks(f, q))
  {
    if f.OfReview? {
      ReviewPending(s, f.r, q);
    } else {
      assert Ingest(s, f).0.pendingReviews == s.pendingReviews;
    }
  }

  lemma ReviewPending(s: Reducer, f: ReviewFact, q: RequestId)
    ensures q in IngestReview(s, f).0.pendingReviews <==>
      Asks(OfReview(f), q) || (q in s.pendingReviews && !Answers(OfReview(f), q))
  {
  }

  /** However many responses and aborts follow, a request closes at most one review each time it is asked. */
  lemma {:induction false} ClosesAtMostOnce(facts: seq<Fact>, q: RequestId)
    ensures Closed(facts, q) + Bit(q in Run(facts).0.pendingReviews) <= Asked(facts, q)
  {
    if facts != [] {
      ClosesAtMostOnce(facts[..|facts| - 1], q);
      StepClosing(Run(facts[..|facts| - 1]).0, facts[|facts| - 1], q);
    }
  }

  // ----- The review events emitted -----

  function UserReviews(events: seq<Event>): nat
  {
    if events == [] then 0 else Bit(events[0].ReviewEvent? && events[0].reviewer == User) + UserReviews(events[1..])
  }

  lemma {:induction false} UserReviewsConcat(a: seq<Event>, b: seq<Event>)
    ensures UserReviews(a + b) == UserReviews(a) + UserReviews(b)
  {
    if a == [] {
      NothingBefore(b);
    } else {
      assert (a + b)[1..] == a[1..] + b;
      UserReviewsConcat(a[1..], b);
    }
  }

  lemma {:induction false} OthersReviewNothing(bodies: seq<string>)
    ensures UserReviews(Others(bodies)) == 0
  {
    if bodies != [] {
      OthersReviewNothing(bodies[1..]);
      UserReviewsConcat([OtherEvent(bodies[0])], Others(bodies[1..]));
      assert [OtherEvent(bodies[0])][1..] == [];
    }
  }

  lemma EmissionsReviewNothing(s: Reducer, turn: string)
    ensures UserReviews(MaybeEmit(s, turn).1) == 0
  {
    if Emits(s, turn) {
      var t := s.turns[turn];
      var e := [EventOf(turn, t, Context(s.connections[t.connection.value], MetadataOf(s, t.thread.value).value))];
      var accepted := AcceptedLineEvents(turn, t);
      UserReviewsConcat(e, accepted);
      assert e[1..] == [];
      assert accepted != [] ==> accepted[1..] == [];
    }
  }

  lemma SteersReviewNothing(s: Reducer, f: TurnFact)
    ensures UserReviews(SteerReport(s, f)) == 0
  {
    var r := SteerReport(s, f);
    assert r != [] ==> r[1..] == [];
  }

  predicate IsAnswer(f: Fact)
  {
    f.OfReview? && (f.r.ApprovalAnswered? || f.r.ApprovalAborted?)
  }

  lemma OneEvent(e: Event)
    ensures UserReviews([e]) == Bit(e.ReviewEvent? && e.reviewer == User)
  {
    assert [e][1..] == [];
  }

  lemma ConnectionsReviewNothing(s: Reducer, f: ConnectionFact)
    ensures UserReviews(IngestConnection(s, f).1) == 0
  {
    var r := IngestConnection(s, f).1;
    if r != [] { OneEvent(r[0]); }
  }

  lemma ItemsReviewNothing(s: Reducer, f: ItemFact)
    ensures UserReviews(IngestItem(s, f).1) == 0
  {
    var r := IngestItem(s, f).1;
    if r != [] { OneEvent(r[0]); }
  }

  /** No fact but an answer or an abort emits a user's review. */
  lemma OnlyAnswersReview(s: Reducer, f: Fact)
    requires !IsAnswer(f)
    ensures UserReviews(Ingest(s, f).1) == 0
  {
    match f
    case OfConnection(c) => ConnectionsReviewNothing(s, c);
    case OfTurn(t) =>
      if JoinCheck(s, t).Some? { EmissionsReviewNothing(UpdateTurn(s, t), JoinCheck(s, t).value); } else { SteersReviewNothing(s, t); }
    case OfItem(i) => ItemsReviewNothing(s, i);
    case OfReview(r) =>
      var events := IngestReview(s, r).1;
      if events != [] { OneEvent(events[0]); }
    case Passing(p) =>
      if p.EmitOnly? {
        OthersReviewNothing(p.bodies);
      } else {
        var events := PassingEvents(s, p);
        if events != [] { OneEvent(events[0]); }
      }
  }

  /** An answer emits the review it closes, when the context of its thread is known, and nothing else. */
  lemma AnswerReviews(s: Reducer, f: Fact)
    requires IsAnswer(f)
    ensures var closing := Closing(s, f.r);
      UserReviews(Ingest(s, f).1) == Bit(closing.Some? && ThreadContext(s, closing.value.0.thread).Found?)
  {
    var events := IngestReview(s, f.r).1;
    var q := f.r.request;
    if q in s.pendingReviews {
      AnswerContext(s, s.pendingReviews[q], q, if f.r.ApprovalAnswered? then f.r.verdict else Verdict(Aborted, NoResolution));
    }
    if events != [] { OneEvent(events[0]); }
  }

  /** Neither the open requests nor the summaries matter to the context. */
  lemma AnswerContext(s: Reducer, r: Review, q: RequestId, v: Verdict)
    ensures var t := s.(pendingReviews := s.pendingReviews - {q});
      var u := if SummaryKey(r).Some? then RecordReview(t, SummaryKey(r).value, User, v, r) else t;
      ThreadContext(u, r.thread) == ThreadContext(s, r.thread)
  {
  }

  /** The user reviews emitted by answers to one request. */
  function ReviewsFor(facts: seq<Fact>, q: RequestId): nat
  {
    if facts == [] then 0
    else
      var init, f := facts[..|facts| - 1], facts[|facts| - 1];
      ReviewsFor(init, q) + if Answers(f, q) then UserReviews(Ingest(Run(init).0, f).1) else 0
  }

  /** Closings of a request whose thread's context was known. */
  function ClosedKnown(facts: seq<Fact>, q: RequestId): nat
  {
    if facts == [] then 0
    else
      var init, f := facts[..|facts| - 1], facts[|facts| - 1];
      var s := Run(init).0;
      ClosedKnown(init, q) + Bit(Answers(f, q) && Closing(s, f.r).Some? && ThreadContext(s, Closing(s, f.r).value.0.thread).Found?)
  }

  /**
  In every run a request leads to at most one review event each time it is
  asked, and to exactly as many as were closed with the context known.
  */
  lemma {:induction false} ReviewedAtMostOnce(facts: seq<Fact>, q: RequestId)
    ensures ReviewsFor(facts, q) == ClosedKnown(facts, q) <= Closed(facts, q)
    ensures ReviewsFor(facts, q) + Bit(q in Run(facts).0.pendingReviews) <= Asked(facts, q)
  {
    ClosesAtMostOnce(facts, q);
    if facts != [] {
      var init, f := facts[..|facts| - 1], facts[|facts| - 1];
      ReviewedAtMostOnce(init, q);
      if Answers(f, q) { AnswerReviews(Run(init).0, f); }
    }
  }

  /** Every user review event of a run comes from an answer to some request. */
  lemma {:induction false} ReviewsComeFromAnswers(facts: seq<Fact>)
    ensures UserReviews(Run(facts).1) == AnswerEvents(facts)
  {
    if facts != [] {
      var init, f := facts[..|facts| - 1], facts[|facts| - 1];
      ReviewsComeFromAnswers(init);
      UserReviewsConcat(Run(init).1, Ingest(Run(init).0, f).1);
      if !IsAnswer(f) { OnlyAnswersReview(Run(init).0, f); }
    }
  }

  function AnswerEvents(facts: seq<Fact>): nat
  {
    if facts == [] then 0
    else
      var init, f := facts[..|facts| - 1], facts[|facts| - 1];
      AnswerEvents(init) + if IsAnswer(f) then UserReviews(Ingest(Run(init).0, f).1) else 0
  }
}
