/** What reviews and their summaries say: subjects, verdicts, outcomes and the events that report them. */
module ReducerVerdicts {
  import opened Common
  import opened AnalyticsReducer
  import opened ReducerReviews

  // ----- What a request asks for -----

  /** The review an approval request opens. */
  lemma ReviewAsks(a: Approval, thread: string, turn: string, item: string, id: string, at: nat)
    ensures var r := ReviewOf(a, thread, turn, item, id, at);
      && r.thread == thread && r.turn == turn && r.item == Some(item) && r.id == id && r.startedAt == at
      && (a.CommandApproval? && a.networkContext <==> r.subject == NetworkSubject)
      && (a.CommandApproval? && !a.networkContext <==> r.subject == CommandSubject)
      && (a.FileChangeApproval? <==> r.subject == FileChangeSubject)
      && (a.PermissionsApproval? <==> r.subject == PermissionsSubject)
      && (r.networkAccess <==>
            || (a.CommandApproval? && (a.networkContext || a.amendments || a.permissions == Some(true)))
            || (a.PermissionsApproval? && a.network))
      && (r.additionalPermissions <==>
            || (a.CommandApproval? && a.permissions.Some?)
            || (a.FileChangeApproval? && a.grantRoot)
            || (a.PermissionsApproval? && (a.network || a.fileSystem)))
  {
  }

  /** Only reviews of a command, a patch or an MCP call attach to an item. */
  lemma AttachesIff(r: Review)
    ensures SummaryKey(r).Some? <==> r.item.Some? && r.subject in {CommandSubject, FileChangeSubject, McpSubject}
    ensures SummaryKey(r).Some? ==> SummaryKey(r).value == ItemKey(r.thread, r.turn, r.item.value)
  {
  }

  /** How a verdict shows in a summary. */
  lemma OutcomeTable(v: Verdict)
    ensures OutcomeOf(Guardian, v) == (if v.status == Approved then GuardianApproved else if v.status == Denied then GuardianDenied else GuardianAborted)
    ensures v.status == Denied ==> OutcomeOf(User, v) == UserDenied
    ensures v.status in {Aborted, TimedOut} ==> OutcomeOf(User, v) == UserAborted
    ensures v.status == Approved ==> OutcomeOf(User, v) == (if v.resolution == SessionApproval then UserApprovedForSession else UserApproved)
  {
  }

  // ----- Open requests -----

  /** The review left open under a request by the last fact that asked it, if no answer has come since. */
  function OpenReview(facts: seq<Fact>, q: RequestId): Option<Review>
  {
    if facts == [] then None
    else
      var init, f := facts[..|facts| - 1], facts[|facts| - 1];
      if Asks(f, q) then Some(ReviewOf(f.r.approval, f.r.thread, f.r.turn, f.r.itemId, UserReviewId(q), f.r.at))
      else if Answers(f, q) then None
      else OpenReview(init, q)
  }

  function Pending(s: Reducer, q: RequestId): Option<Review>
  {
    if q in s.pendingReviews then Some(s.pendingReviews[q]) else None
  }

  lemma StepPending(s: Reducer, f: ReviewFact, q: RequestId)
    ensures Pending(IngestReview(s, f).0, q) ==
      if Asks(OfReview(f), q) then Some(ReviewOf(f.approval, f.thread, f.turn, f.itemId, UserReviewId(q), f.at))
      else if Answers(OfReview(f), q) then None
      else Pending(s, q)
  {
  }

  /** In every run the reviews kept open are those asked for and not answered. */
  lemma {:induction false} PendingKept(facts: seq<Fact>, q: RequestId)
    ensures Pending(Run(facts).0, q) == OpenReview(facts, q)
  {
    if facts != [] {
      var init, f := facts[..|facts| - 1], facts[|facts| - 1];
      PendingKept(init, q);
      if f.OfReview? {
        StepPending(Run(init).0, f.r, q);
      } else {
        assert Ingest(Run(init).0, f).0.pendingReviews == Run(init).0.pendingReviews;
      }
    }
  }

  function VerdictOf(f: ReviewFact): Verdict
    requires f.ApprovalAnswered? || f.ApprovalAborted?
  {
    if f.ApprovalAnswered? then f.verdict else Verdict(Aborted, NoResolution)
  }

  /** An answer emits the open review with its verdict, or nothing: no review open, or no context. */
  lemma AnswerEmits(facts: seq<Fact>, f: Fact, q: RequestId)
    requires Answers(f, q)
    ensures var s, open := Run(facts).0, OpenReview(facts, q);
      Ingest(s, f).1 ==
        if open.Some? && ThreadContext(s, open.value.thread).Found?
        then [ReviewEvent(open.value, User, VerdictOf(f.r), ThreadContext(s, open.value.thread).context, f.r.ended)] else []
  {
    var s := Run(facts).0;
    PendingKept(facts, q);
    if q in s.pendingReviews { AnswerContext(s, s.pendingReviews[q], q, VerdictOf(f.r)); }
  }

  /** A guardian's review is reported at once, when it has a verdict, real times and a context. */
  lemma GuardianEmits(s: Reducer, r: Review, v: Option<Verdict>, began: int, ended: int)
    ensures var known := v.Some? && began >= 0 && ended >= 0 && ThreadContext(s, r.thread).Found?;
      IngestReview(s, GuardianReviewCompleted(r, v, began, ended)).1 ==
        if known then [ReviewEvent(r.(startedAt := began), Guardian, v.value, ThreadContext(s, r.thread).context, ended)] else []
  {
    if v.Some? && began >= 0 {
      var r' := r.(startedAt := began);
      var t := if SummaryKey(r').Some? then RecordReview(s, SummaryKey(r').value, Guardian, v.value, r') else s;
      assert ThreadContext(t, r.thread) == ThreadContext(s, r.thread);
    }
  }

  // ----- What a summary says besides its counts -----

  /** The verdict with which a fact closes a review. */
  function ClosingVerdict(s: Reducer, f: ReviewFact): Verdict
    requires Closing(s, f).Some?
  {
    if f.GuardianReviewCompleted? then f.result.value else VerdictOf(f)
  }

  datatype Details = Details(outcome: Option<Outcome>, permissions: bool, network: bool)

  /** The last outcome, and whether any review asked for permissions or network, since the summary was last retired. */
  function DetailsSince(facts: seq<Fact>, key: ItemKey): Details
  {
    if facts == [] then Details(None, false, false)
    else
      var init, f := facts[..|facts| - 1], facts[|facts| - 1];
      var s, d := Run(init).0, DetailsSince(init, key);
      if Retires(s, f, key) then Details(None, false, false)
      else if ClosesFor(s, f, key, Guardian) || ClosesFor(s, f, key, User) then
        var (r, who) := Closing(s, f.r).value;
        Details(Some(OutcomeOf(who, ClosingVerdict(s, f.r))), d.permissions || r.additionalPermissions, d.network || r.networkAccess)
      else d
  }

  ghost predicate Says(s: Reducer, key: ItemKey, d: Details)
  {
    var m := SummaryAt(s, key);
    m.outcome == d.outcome && m.additionalPermissions == d.permissions && m.networkAccess == d.network
  }

  lemma CloseSays(s: Reducer, r: Review, who: Reviewer, v: Verdict, ended: int, key: ItemKey, d: Details)
    requires Says(s, key, d)
    ensures Says(CloseReview(s, r, who, v, ended).0, key,
      if SummaryKey(r) == Some(key) then Details(Some(OutcomeOf(who, v)), d.permissions || r.additionalPermissions, d.network || r.networkAccess)
      else d)
  {
  }

  lemma ReviewSays(s: Reducer, f: ReviewFact, key: ItemKey, d: Details)
    requires Says(s, key, d)
    ensures Says(IngestReview(s, f).0, key,
      if Closing(s, f).Some? && SummaryKey(Closing(s, f).value.0) == Some(key) then
        var (r, who) := Closing(s, f).value;
        Details(Some(OutcomeOf(who, ClosingVerdict(s, f))), d.permissions || r.additionalPermissions, d.network || r.networkAccess)
      else d)
  {
    if Closing(s, f).Some? {
      var (r, who) := Closing(s, f).value;
      var t := if f.GuardianReviewCompleted? then s else s.(pendingReviews := s.pendingReviews - {f.request});
      CloseSays(t, r, who, ClosingVerdict(s, f), f.ended, key, d);
    }
  }

  /** In every reachable state a summary's outcome is the last closing's, and its flags are those of all of them together. */
  lemma {:induction false} SummarySays(facts: seq<Fact>, key: ItemKey)
    ensures Says(Run(facts).0, key, DetailsSince(facts, key))
  {
    if facts != [] {
      var init, f := facts[..|facts| - 1], facts[|facts| - 1];
      SummarySays(init, key);
      if f.OfReview? {
        ReviewSays(Run(init).0, f.r, key, DetailsSince(init, key));
      } else if f.OfItem? {
        ItemRetires(Run(init).0, f.i, key);
      }
    }
  }
}
