/** Tool events: exactly which completions are reported, and what the reports carry. */
module ReducerTools {
  import opened Common
  import opened AnalyticsReducer
  import Reviews = ReducerReviews

  function ToolEvents(events: seq<Event>, key: ItemKey): nat
  {
    if events == [] then 0 else Bit(events[0].ToolItem? && events[0].key == key) + ToolEvents(events[1..], key)
  }

  lemma {:induction false} ToolEventsConcat(a: seq<Event>, b: seq<Event>, key: ItemKey)
    ensures ToolEvents(a + b, key) == ToolEvents(a, key) + ToolEvents(b, key)
  {
    if a == [] {
      NothingBefore(b);
    } else {
      assert (a + b)[1..] == a[1..] + b;
      ToolEventsConcat(a[1..], b, key);
    }
  }

  // ----- Only item completions report tools -----

  ghost predicate Toolless(events: seq<Event>)
  {
    forall e :: e in events ==> !e.ToolItem?
  }

  lemma {:induction false} ToollessCounts(events: seq<Event>, key: ItemKey)
    requires Toolless(events)
    ensures ToolEvents(events, key) == 0
  {
    if events != [] { ToollessCounts(events[1..], key); }
  }

  lemma {:induction false} OthersToolless(bodies: seq<string>)
    ensures Toolless(Others(bodies))
  {
    if bodies != [] { OthersToolless(bodies[1..]); }
  }

  lemma TurnsToolless(s: Reducer, f: TurnFact)
    ensures Toolless(IngestTurn(s, f).1)
  {
    if JoinCheck(s, f).Some? {
      EmissionToolless(UpdateTurn(s, f), JoinCheck(s, f).value);
    }
  }

  lemma EmissionToolless(s: Reducer, turn: string)
    ensures Toolless(MaybeEmit(s, turn).1)
  {
  }

  lemma OthersReportNoTools(s: Reducer, f: Fact)
    requires !f.OfItem?
    ensures Toolless(Ingest(s, f).1)
  {
    match f
    case OfTurn(t) => TurnsToolless(s, t);
    case Passing(EmitOnly(bodies)) => OthersToolless(bodies);
    case _ =>
  }

  // ----- Which completions are reported -----

  /** The seven kinds of item that are tools, tracked under their own id. */
  lemma TrackedIff(item: Item)
    ensures var tools := {CommandExecution, FileChange, McpToolCall, DynamicToolCall, CollabAgentToolCall, WebSearch, ImageGeneration};
      TrackedId(item).Some? <==> item.kind in tools
    ensures TrackedId(item).Some? ==> TrackedId(item).value == item.id
  {
  }

  /** A completion of the tracked item `key`. */
  predicate CompletesItem(f: Fact, key: ItemKey)
  {
    && f.OfItem? && f.i.ItemCompleted? && TrackedId(f.i.item).Some?
    && key == ItemKey(f.i.thread, f.i.turn, f.i.item.id)
  }

  predicate StartsItem(f: Fact, key: ItemKey)
  {
    && f.OfItem? && f.i.ItemStarted? && f.i.at >= 0 && TrackedId(f.i.item).Some?
    && key == ItemKey(f.i.thread, f.i.turn, f.i.item.id)
  }

  /** When the item was last started, if no completion in a live turn has used that up. */
  function StartedAt(facts: seq<Fact>, key: ItemKey): Option<nat>
  {
    if facts == [] then None
    else
      var init, f := facts[..|facts| - 1], facts[|facts| - 1];
      if StartsItem(f, key) then Some(f.i.at)
      else if CompletesItem(f, key) && key.turn in Run(init).0.turns then None
      else StartedAt(init, key)
  }

  function Lookup(m: map<ItemKey, nat>, key: ItemKey): Option<nat>
  {
    if key in m then Some(m[key]) else None
  }

  lemma ItemStarts(s: Reducer, f: ItemFact, key: ItemKey)
    ensures Lookup(IngestItem(s, f).0.itemsStarted, key) ==
      if StartsItem(OfItem(f), key) then Some(f.at)
      else if CompletesItem(OfItem(f), key) && key.turn in s.turns then None
      else Lookup(s.itemsStarted, key)
  {
    assert TrackedId(f.item).Some? ==> TrackedId(f.item).value == f.item.id;
  }

  /** In every run the start times kept are those of items started and not yet completed. */
  lemma {:induction false} StartsKept(facts: seq<Fact>, key: ItemKey)
    ensures Lookup(Run(facts).0.itemsStarted, key) == StartedAt(facts, key)
  {
    if facts != [] {
      var init, f := facts[..|facts| - 1], facts[|facts| - 1];
      StartsKept(init, key);
      if f.OfItem? {
        ItemStarts(Run(init).0, f.i, key);
      } else {
        assert Ingest(Run(init).0, f).0.itemsStarted == Run(init).0.itemsStarted;
      }
    }
  }

  /** A completion that finds its turn, its start and its context, at a real time and with something final to say. */
  predicate Reportable(facts: seq<Fact>, f: Fact, key: ItemKey)
  {
    && CompletesItem(f, key) && f.i.item.terminal && f.i.at >= 0
    && StartedAt(facts, key).Some? && key.turn in Run(facts).0.turns && ThreadContext(Run(facts).0, key.thread).Found?
  }

  /** The event it makes. */
  function ReportOf(facts: seq<Fact>, f: Fact, key: ItemKey): Event
    requires Reportable(facts, f, key)
  {
    var s := Run(facts).0;
    ToolItem(key, f.i.item, StartedAt(facts, key).value, f.i.at, ThreadContext(s, key.thread).context,
             if key in s.summaries then Some(s.summaries[key]) else None)
  }

  lemma ContextUntouched(s: Reducer, t: Reducer, thread: string)
    requires t.threads == s.threads && t.connections == s.connections
    ensures ThreadContext(t, thread) == ThreadContext(s, thread)
  {
  }

  /** A completion emits its report and nothing else, exactly when it is reportable. */
  lemma CompletionReports(facts: seq<Fact>, f: Fact, key: ItemKey)
    requires CompletesItem(f, key)
    ensures Ingest(Run(facts).0, f).1 == if Reportable(facts, f, key) then [ReportOf(facts, f, key)] else []
  {
    var s := Run(facts).0;
    StartsKept(facts, key);
    assert TrackedId(f.i.item) == Some(f.i.item.id);
    if key.turn in s.turns && key in s.itemsStarted {
      var t := SetTurn(s, key.turn, s.turns[key.turn].(tools := Record(s.turns[key.turn].tools, f.i.item.kind)));
      ContextUntouched(s, t.(itemsStarted := t.itemsStarted - {key}), key.thread);
    }
  }

  /** No other fact reports this item. */
  lemma OthersDoNotReport(s: Reducer, f: Fact, key: ItemKey)
    requires !CompletesItem(f, key)
    ensures ToolEvents(Ingest(s, f).1, key) == 0
  {
    if f.OfItem? {
      var events := IngestItem(s, f.i).1;
      assert forall e :: e in events && e.ToolItem? ==> e.key != key;
      if events != [] { assert events[1..] == []; }
    } else {
      OthersReportNoTools(s, f);
      ToollessCounts(Ingest(s, f).1, key);
    }
  }

  function Reportables(facts: seq<Fact>, key: ItemKey): nat
  {
    if facts == [] then 0
    else Reportables(facts[..|facts| - 1], key) + Bit(Reportable(facts[..|facts| - 1], facts[|facts| - 1], key))
  }

  /** In every run the tool events for an item number exactly its reportable completions. */
  lemma {:induction false} ToolEventsExact(facts: seq<Fact>, key: ItemKey)
    ensures ToolEvents(Run(facts).1, key) == Reportables(facts, key)
  {
    if facts != [] {
      var init, f := facts[..|facts| - 1], facts[|facts| - 1];
      var out := Ingest(Run(init).0, f).1;
      ToolEventsExact(init, key);
      ToolEventsConcat(Run(init).1, out, key);
      if CompletesItem(f, key) {
        CompletionReports(init, f, key);
        if out != [] { assert out[1..] == []; }
      } else {
        OthersDoNotReport(Run(init).0, f, key);
      }
    }
  }

  /** And each carries the item's own times, its context, and a summary of exactly the reviews closed since the last report. */
  lemma ReportsCarry(facts: seq<Fact>, f: Fact, key: ItemKey)
    requires Reportable(facts, f, key)
    ensures var e, g, u := ReportOf(facts, f, key), Reviews.ClosedSince(facts, key, Guardian), Reviews.ClosedSince(facts, key, User);
      && Ingest(Run(facts).0, f).1 == [e]
      && e.item == f.i.item && StartedAt(facts, key) == Some(e.began) && e.finished == f.i.at
      && ThreadContext(Run(facts).0, key.thread) == Found(e.context)
      && (e.reviews.None? <==> g + u == 0)
      && (e.reviews.Some? ==> e.reviews.value.guardian == g && e.reviews.value.user == u && e.reviews.value.reviews == g + u)
  {
    CompletionReports(facts, f, key);
    Reviews.SummaryCountsReviews(facts, key);
  }
}
