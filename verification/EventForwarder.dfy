/**
The in-process worker's event path: a bounded channel to the consumer with a
lossless tier (blocks) and a best-effort tier (dropped, counted, and reported
later by a lag marker).

What the consumer does while a send is blocked, and between the two sends of
one event, is a parameter (`Wait`), so the theorems hold for every
interleaving.
*/
module EventForwarder {

  const USIZE_MAX: nat := 0xFFFF_FFFF_FFFF_FFFF

  /** Error codes of the two ways the worker fails a server request itself. */
  const UNSUPPORTED_REFRESH: int := -32000
  const QUEUE_FULL: int := -32001

  datatype Notification =
    | TurnCompleted(body: string)
    | ThreadSettingsUpdated(body: string)
    | ItemCompleted(body: string)
    | AgentMessageDelta(body: string)
    | PlanDelta(body: string)
    | ReasoningSummaryTextDelta(body: string)
    | ReasoningTextDelta(body: string)
    | OtherNotification(body: string)

  datatype Request = ChatgptAuthTokensRefresh(id: int) | OtherRequest(id: int)

  datatype Event =
    | Lagged(skipped: nat)
    | ServerNotification(notification: Notification)
    | ServerRequest(request: Request)

  /** `event_requires_delivery`: transcript and completion notifications are lossless. */
  predicate RequiresDelivery(e: Event)
  {
    e.ServerNotification? && !e.notification.OtherNotification?
  }

  predicate IsRefresh(e: Event)
  {
    e.ServerRequest? && e.request.ChatgptAuthTokensRefresh?
  }

  // ----- State -----

  /**
  What went into the channel.  A marker remembers, besides the count it
  reports, how many events were really dropped since the previous one.
  */
  datatype Item = Original(event: Event) | Marker(reported: nat, dropped: nat)

  function OnWire(i: Item): Event
  {
    match i case Original(e) => e case Marker(k, _) => Lagged(k)
  }

  datatype Failure = Failure(id: int, code: int)

  datatype Lane = Lane(
    queue: seq<Event>,      // in the channel
    open: bool,             // the receiver still exists
    skipped: nat,           // the worker's counter
    enabled: bool,          // `event_stream_enabled`
    pulled: seq<Event>,     // log: events taken from the runtime
    sent: seq<Item>,        // log: channel sends that succeeded
    taken: seq<Event>,      // log: events the consumer received
    failures: seq<Failure>, // log: server requests the worker failed
    owed: nat,              // log: events dropped since the last marker
    levels: seq<nat>)       // log: how full the channel was at each drop

  const Start: Lane := Lane([], true, 0, true, [], [], [], [], 0, [])

  /** What the consumer does before or during a send. */
  datatype Wait = Wait(takes: nat, closes: bool)

  function Reads(s: Lane, n: nat): Lane
  {
    var k := if n < |s.queue| then n else |s.queue|;
    s.(queue := s.queue[k..], taken := s.taken + s.queue[..k])
  }

  function Put(s: Lane, i: Item): Lane
  {
    s.(queue := s.queue + [OnWire(i)], sent := s.sent + [i])
  }

  // ----- The channel -----

  datatype SendResult = Sent(lane: Lane) | Full | Closed

  function TrySend(s: Lane, cap: nat, i: Item): SendResult
  {
    if !s.open then Closed else if |s.queue| >= cap then Full else Sent(Put(s, i))
  }

  /** The consumer runs on its own task, so it may act just before a send that does not block. */
  function Meanwhile(s: Lane, w: Wait): Lane
  {
    Reads(s, w.takes).(open := s.open && !w.closes)
  }

  /** A blocking send returns once there is room, or once the receiver is gone. */
  function Awaited(s: Lane, cap: nat, w: Wait): Lane
  {
    var room := if |s.queue| >= cap then |s.queue| - cap + 1 else 0;
    Reads(s, if w.closes || room <= w.takes then w.takes else room).(open := s.open && !w.closes)
  }

  function Send(s: Lane, cap: nat, w: Wait, i: Item): Lane
  {
    var t := Awaited(s, cap, w);
    if t.open then Put(t, i) else t.(enabled := false)
  }

  // ----- `forward_in_process_event` -----

  function SaturatingIncrement(n: nat): nat
  {
    if n >= USIZE_MAX then USIZE_MAX else n + 1
  }

  function Drop(s: Lane, e: Event): Lane
  {
    s.(skipped := SaturatingIncrement(s.skipped), owed := s.owed + 1, levels := s.levels + [|s.queue|],
       failures := s.failures + if e.ServerRequest? then [Failure(e.request.id, QUEUE_FULL)] else [])
  }

  function Flushed(s: Lane): Lane
  {
    s.(skipped := 0, owed := 0)
  }

  function Deliver(s: Lane, cap: nat, e: Event, w: Wait): Lane
  {
    if RequiresDelivery(e) then Send(s, cap, w, Original(e))
    else
      var s := Meanwhile(s, w);
      match TrySend(s, cap, Original(e))
      case Sent(t) => t
      case Full => Drop(s, e)
      case Closed => s.(enabled := false)
  }

  /** The stream stays enabled exactly when the source returns `Continue`. */
  function Forward(s: Lane, cap: nat, e: Event, w1: Wait, w2: Wait): Lane
  {
    if s.skipped == 0 then Deliver(s, cap, e, w2)
    else
      var marker := Marker(s.skipped, s.owed);
      if RequiresDelivery(e) then
        var t := Send(s, cap, w1, marker);
        if t.enabled then Deliver(Flushed(t), cap, e, w2) else t
      else
        var s := Meanwhile(s, w1);
        match TrySend(s, cap, marker)
        case Sent(t) => Deliver(Flushed(t), cap, e, w2)
        case Full => Drop(s, e)
        case Closed => s.(enabled := false)
  }

  /** One event pulled by the worker loop; a disabled stream pulls nothing. */
  function Pull(s: Lane, cap: nat, e: Event, w1: Wait, w2: Wait): Lane
  {
    if !s.enabled then s
    else
      var t := s.(pulled := s.pulled + [e]);
      if IsRefresh(e) then t.(failures := t.failures + [Failure(e.request.id, UNSUPPORTED_REFRESH)])
      else Forward(t, cap, e, w1, w2)
  }

  datatype Action =
    | PullEvent(event: Event, w1: Wait, w2: Wait)
    | ConsumerReads(count: nat)
    | ConsumerCloses

  function Act(s: Lane, cap: nat, a: Action): Lane
  {
    match a
    case PullEvent(e, w1, w2) => Pull(s, cap, e, w1, w2)
    case ConsumerReads(n) => Reads(s, n)
    case ConsumerCloses => s.(open := false)
  }

  function Run(cap: nat, actions: seq<Action>): Lane
  {
    if actions == [] then Start else Act(Run(cap, actions[..|actions| - 1]), cap, actions[|actions| - 1])
  }

  // ----- What the logs must say -----

  /** The fate of one forwarded event. */
  datatype Slot = Delivered(event: Event) | Hole | InFlight

  function Holes(n: nat): (h: seq<Slot>)
    ensures |h| == n && forall i :: 0 <= i < n ==> h[i] == Hole
  {
    seq(n, _ => Hole)
  }

  /** Every marker stands for the events it dropped. */
  function Slots(sent: seq<Item>): seq<Slot>
  {
    if sent == [] then []
    else
      var last := match sent[|sent| - 1] case Original(e) => [Delivered(e)] case Marker(_, n) => Holes(n);
      Slots(sent[..|sent| - 1]) + last
  }

  /** Sent items, then drops not reported yet, then the event a closed channel swallowed. */
  function Fates(s: Lane): seq<Slot>
  {
    Slots(s.sent) + Holes(s.owed) + if s.enabled then [] else [InFlight]
  }

  function Forwardable(pulled: seq<Event>): seq<Event>
  {
    if pulled == [] then []
    else
      var rest, last := Forwardable(pulled[..|pulled| - 1]), pulled[|pulled| - 1];
      if IsRefresh(last) then rest else rest + [last]
  }

  /** Position by position: delivered unchanged, or a hole on a best-effort event. */
  ghost predicate Aligned(slots: seq<Slot>, inputs: seq<Event>)
  {
    && |slots| == |inputs|
    && forall i :: 0 <= i < |slots| ==>
         match slots[i]
         case Delivered(e) => inputs[i] == e
         case Hole => !RequiresDelivery(inputs[i])
         case InFlight => i == |slots| - 1
  }

  /** The failures the fates call for, in the order the requests were pulled. */
  function ExpectedFailures(pulled: seq<Event>, slots: seq<Slot>): seq<Failure>
  {
    if pulled == [] then []
    else
      var init, last := pulled[..|pulled| - 1], pulled[|pulled| - 1];
      if IsRefresh(last) then ExpectedFailures(init, slots) + [Failure(last.request.id, UNSUPPORTED_REFRESH)]
      else if slots == [] then []
      else
        var dropped := slots[|slots| - 1].Hole? && last.ServerRequest?;
        ExpectedFailures(init, slots[..|slots| - 1]) + if dropped then [Failure(last.request.id, QUEUE_FULL)] else []
  }

  function Capped(n: nat): nat
  {
    if n <= USIZE_MAX then n else USIZE_MAX
  }

  ghost predicate MarkersHonest(sent: seq<Item>)
  {
    forall i :: 0 <= i < |sent| && sent[i].Marker? ==> sent[i].dropped > 0 && sent[i].reported == Capped(sent[i].dropped)
  }

  function WireOf(sent: seq<Item>): (r: seq<Event>)
    ensures |r| == |sent| && forall i :: 0 <= i < |sent| ==> r[i] == OnWire(sent[i])
  {
    seq(|sent|, i requires 0 <= i < |sent| => OnWire(sent[i]))
  }

  /** Nothing is dropped, and so no marker is sent, before some event has filled the channel. */
  ghost predicate StartsWithEvent(s: Lane)
  {
    && (s.owed > 0 ==> s.sent != [])
    && (s.sent != [] ==> s.sent[0].Original?)
  }

  /** Book-keeping between the worker and the channel. */
  ghost predicate Transport(s: Lane, cap: nat)
  {
    && |s.queue| <= cap
    && WireOf(s.sent) == s.taken + s.queue
    && s.skipped == Capped(s.owed)
    && MarkersHonest(s.sent) && StartsWithEvent(s)
  }

  /** Book-keeping between the runtime's events and what became of them. */
  ghost predicate Accounted(s: Lane)
  {
    && Aligned(Fates(s), Forwardable(s.pulled))
    && s.failures == ExpectedFailures(s.pulled, Fates(s))
  }

  // ----- Every step keeps the books -----

  lemma PutKeeps(s: Lane, cap: nat, i: Item)
    requires Transport(s, cap) && |s.queue| < cap
    requires i.Marker? ==> i.dropped > 0 && i.reported == Capped(i.dropped) && s.owed > 0
    ensures Transport(Put(s, i), cap)
  {
    assert WireOf(s.sent + [i]) == WireOf(s.sent) + [OnWire(i)];
  }

  lemma ReadsKeeps(s: Lane, cap: nat, n: nat)
    requires Transport(s, cap)
    ensures Transport(Reads(s, n), cap)
  {
  }

  lemma SlotsPut(sent: seq<Item>, i: Item)
    ensures Slots(sent + [i]) == Slots(sent) + match i case Original(e) => [Delivered(e)] case Marker(_, n) => Holes(n)
  {
    assert (sent + [i])[..|sent|] == sent;
  }

  /** Consumer activity never touches the fates. */
  lemma AwaitedKeeps(s: Lane, cap: nat, w: Wait)
    requires Transport(s, cap) && cap > 0
    ensures Transport(Awaited(s, cap, w), cap)
    ensures Awaited(s, cap, w).open ==> |Awaited(s, cap, w).queue| < cap
    ensures Fates(Awaited(s, cap, w)) == Fates(s)
  {
  }

  lemma MeanwhileKeeps(s: Lane, cap: nat, w: Wait)
    requires Transport(s, cap)
    ensures Transport(Meanwhile(s, w), cap) && Fates(Meanwhile(s, w)) == Fates(s)
  {
  }

  /** Reporting the drops moves them from `owed` into the channel, position for position. */
  lemma FlushKeeps(s: Lane, cap: nat)
    requires Transport(s, cap) && |s.queue| < cap && s.skipped > 0 && s.enabled
    ensures var t := Flushed(Put(s, Marker(s.skipped, s.owed)));
      Transport(t, cap) && Fates(t) == Fates(s)
  {
    var i := Marker(s.skipped, s.owed);
    PutKeeps(s, cap, i);
    SlotsPut(s.sent, i);
  }

  /** `t` is `s` after `e` met the fate `slot`. */
  ghost predicate Met(s: Lane, t: Lane, e: Event, slot: Slot)
  {
    && t.pulled == s.pulled
    && Fates(t) == Fates(s) + [slot]
    && (t.enabled <==> !slot.InFlight?)
    && (slot.Delivered? ==> slot.event == e)
    && (slot.Hole? ==> !RequiresDelivery(e))
    && |t.levels| == |s.levels| + (if slot.Hole? then 1 else 0)
    && t.failures == s.failures + if slot.Hole? && e.ServerRequest? then [Failure(e.request.id, QUEUE_FULL)] else []
  }

  lemma DropMeets(s: Lane, cap: nat, e: Event)
    requires Transport(s, cap) && s.enabled && !RequiresDelivery(e) && s.queue != []
    ensures Transport(Drop(s, e), cap) && Met(s, Drop(s, e), e, Hole)
  {
    assert Holes(s.owed + 1) == Holes(s.owed) + [Hole];
  }

  lemma PutMeets(s: Lane, cap: nat, e: Event)
    requires Transport(s, cap) && s.enabled && s.owed == 0 && |s.queue| < cap
    ensures Transport(Put(s, Original(e)), cap) && Met(s, Put(s, Original(e)), e, Delivered(e))
  {
    PutKeeps(s, cap, Original(e));
    SlotsPut(s.sent, Original(e));
  }

  lemma SwallowMeets(s: Lane, cap: nat, e: Event)
    requires Transport(s, cap) && s.enabled
    ensures Transport(s.(enabled := false), cap) && Met(s, s.(enabled := false), e, InFlight)
  {
  }

  lemma DeliverMeets(s: Lane, cap: nat, e: Event, w: Wait) returns (slot: Slot)
    requires Transport(s, cap) && cap > 0 && s.enabled && s.owed == 0
    ensures Transport(Deliver(s, cap, e, w), cap) && Met(s, Deliver(s, cap, e, w), e, slot)
  {
    if RequiresDelivery(e) {
      AwaitedKeeps(s, cap, w);
      var t := Awaited(s, cap, w);
      if t.open {
        PutMeets(t, cap, e);
        slot := Delivered(e);
      } else {
        SwallowMeets(t, cap, e);
        slot := InFlight;
      }
    } else {
      MeanwhileKeeps(s, cap, w);
      var t := Meanwhile(s, w);
      match TrySend(t, cap, Original(e))
      case Sent(_) =>
        PutMeets(t, cap, e);
        slot := Delivered(e);
      case Full =>
        DropMeets(t, cap, e);
        slot := Hole;
      case Closed =>
        SwallowMeets(t, cap, e);
        slot := InFlight;
    }
  }

  /** The drops are reported, then the event meets its fate. */
  lemma FlushedMeets(s: Lane, m: Lane, cap: nat, e: Event, w: Wait) returns (slot: Slot)
    requires Transport(m, cap) && cap > 0 && m.enabled && m.skipped > 0 && |m.queue| < cap
    requires Fates(m) == Fates(s) && m.pulled == s.pulled && m.failures == s.failures && m.levels == s.levels
    ensures var r := Deliver(Flushed(Put(m, Marker(m.skipped, m.owed))), cap, e, w);
      Transport(r, cap) && Met(s, r, e, slot)
  {
    FlushKeeps(m, cap);
    slot := DeliverMeets(Flushed(Put(m, Marker(m.skipped, m.owed))), cap, e, w);
  }

  lemma ForwardMeets(s: Lane, cap: nat, e: Event, w1: Wait, w2: Wait) returns (slot: Slot)
    requires Transport(s, cap) && cap > 0 && s.enabled
    ensures Transport(Forward(s, cap, e, w1, w2), cap) && Met(s, Forward(s, cap, e, w1, w2), e, slot)
  {
    var marker := Marker(s.skipped, s.owed);
    if s.skipped == 0 {
      slot := DeliverMeets(s, cap, e, w2);
    } else if RequiresDelivery(e) {
      AwaitedKeeps(s, cap, w1);
      var t := Awaited(s, cap, w1);
      if t.open {
        slot := FlushedMeets(s, t, cap, e, w2);
      } else {
        SwallowMeets(t, cap, e);
        slot := InFlight;
      }
    } else {
      MeanwhileKeeps(s, cap, w1);
      var m := Meanwhile(s, w1);
      match TrySend(m, cap, marker)
      case Sent(_) =>
        slot := FlushedMeets(s, m, cap, e, w2);
      case Full =>
        DropMeets(m, cap, e);
        slot := Hole;
      case Closed =>
        SwallowMeets(m, cap, e);
        slot := InFlight;
    }
  }

  lemma {:induction false} SentNotInFlight(sent: seq<Item>)
    ensures InFlight !in Slots(sent)
  {
    if sent != [] { SentNotInFlight(sent[..|sent| - 1]); }
  }

  lemma MetKeepsAccounts(s: Lane, r: Lane, e: Event, slot: Slot)
    requires Accounted(s) && s.enabled && !IsRefresh(e) && Met(s.(pulled := s.pulled + [e]), r, e, slot)
    ensures Accounted(r)
  {
    SentNotInFlight(s.sent);
    assert r.pulled[..|s.pulled|] == s.pulled;
    assert Fates(s.(pulled := r.pulled)) == Fates(s);
    assert Fates(r)[..|Fates(s)|] == Fates(s);
    assert Forwardable(r.pulled) == Forwardable(s.pulled) + [e];
  }

  lemma RefreshKeepsAccounts(s: Lane, e: Event)
    requires Accounted(s) && IsRefresh(e)
    ensures Accounted(s.(pulled := s.pulled + [e], failures := s.failures + [Failure(e.request.id, UNSUPPORTED_REFRESH)]))
  {
    assert (s.pulled + [e])[..|s.pulled|] == s.pulled;
  }

  lemma PullKeeps(s: Lane, cap: nat, e: Event, w1: Wait, w2: Wait)
    requires Transport(s, cap) && cap > 0 && Accounted(s)
    ensures Transport(Pull(s, cap, e, w1, w2), cap) && Accounted(Pull(s, cap, e, w1, w2))
  {
    if s.enabled {
      if IsRefresh(e) {
        RefreshKeepsAccounts(s, e);
      } else {
        var t := s.(pulled := s.pulled + [e]);
        var slot := ForwardMeets(t, cap, e, w1, w2);
        MetKeepsAccounts(s, Forward(t, cap, e, w1, w2), e, slot);
      }
    }
  }

  /**
  Over every run, with any interleaving of consumer reads: the queue stays
  within capacity and holds, after what the consumer took, exactly what was
  sent; the sent items with markers expanded to holes line up with the pulled
  events one for one, holes only on best-effort events; and the server requests
  failed are exactly the unsupported refreshes and the dropped ones, in order.
  */
  lemma {:induction false} RunKeepsBooks(cap: nat, actions: seq<Action>)
    requires cap > 0
    ensures Transport(Run(cap, actions), cap) && Accounted(Run(cap, actions))
  {
    if actions != [] {
      var s, a := Run(cap, actions[..|actions| - 1]), actions[|actions| - 1];
      RunKeepsBooks(cap, actions[..|actions| - 1]);
      match a
      case PullEvent(e, w1, w2) => PullKeeps(s, cap, e, w1, w2);
      case ConsumerReads(n) => ReadsKeeps(s, cap, n);
      case ConsumerCloses =>
    }
  }

  // ----- Consequences -----

  function Lossless(events: seq<Event>): seq<Event>
  {
    if events == [] then []
    else
      var last := events[|events| - 1];
      Lossless(events[..|events| - 1]) + if RequiresDelivery(last) then [last] else []
  }

  function LosslessSlots(slots: seq<Slot>): seq<Event>
  {
    if slots == [] then []
    else
      var last := slots[|slots| - 1];
      LosslessSlots(slots[..|slots| - 1]) + if last.Delivered? && RequiresDelivery(last.event) then [last.event] else []
  }

  lemma {:induction false} AlignedLossless(slots: seq<Slot>, inputs: seq<Event>)
    requires Aligned(slots, inputs) && InFlight !in slots
    ensures Lossless(inputs) == LosslessSlots(slots)
  {
    if slots != [] {
      AlignedLossless(slots[..|slots| - 1], inputs[..|inputs| - 1]);
    }
  }

  lemma {:induction false} LosslessHoles(slots: seq<Slot>, n: nat)
    ensures LosslessSlots(slots + Holes(n)) == LosslessSlots(slots)
  {
    if n > 0 {
      LosslessHoles(slots, n - 1);
      assert (slots + Holes(n))[..|slots| + n - 1] == slots + Holes(n - 1);
    } else {
      assert slots + Holes(n) == slots;
    }
  }

  lemma {:induction false} LosslessSent(sent: seq<Item>)
    ensures LosslessSlots(Slots(sent)) == Lossless(WireOf(sent))
  {
    if sent != [] {
      var init, i := sent[..|sent| - 1], sent[|sent| - 1];
      LosslessSent(init);
      assert sent == init + [i];
      SlotsPut(init, i);
      assert WireOf(sent)[..|init|] == WireOf(init);
      match i
      case Original(e) => assert (Slots(init) + [Delivered(e)])[..|Slots(init)|] == Slots(init);
      case Marker(_, n) => LosslessHoles(Slots(init), n);
    }
  }

  /** While the stream is enabled every lossless event is sent, in order and unchanged. */
  lemma LosslessAllArrive(cap: nat, actions: seq<Action>)
    requires cap > 0 && Run(cap, actions).enabled
    ensures var s := Run(cap, actions);
      Lossless(Forwardable(s.pulled)) == Lossless(s.taken + s.queue)
  {
    var s := Run(cap, actions);
    RunKeepsBooks(cap, actions);
    SentNotInFlight(s.sent);
    LosslessSent(s.sent);
    LosslessHoles(Slots(s.sent), s.owed);
    assert Fates(s) == Slots(s.sent) + Holes(s.owed);
    AlignedLossless(Fates(s), Forwardable(s.pulled));
  }

  /** What the consumer can add up: one per event, `k` per marker reporting `k`. */
  function Reported(sent: seq<Item>): nat
  {
    if sent == [] then 0
    else Reported(sent[..|sent| - 1]) + match sent[|sent| - 1] case Original(_) => 1 case Marker(k, _) => k
  }

  /** No stretch of consecutive drops is longer than the counter can count. */
  ghost predicate CounterSuffices(s: Lane)
  {
    s.owed <= USIZE_MAX && forall i :: 0 <= i < |s.sent| && s.sent[i].Marker? ==> s.sent[i].dropped <= USIZE_MAX
  }

  lemma {:induction false} ReportedBound(sent: seq<Item>)
    requires MarkersHonest(sent)
    ensures Reported(sent) <= |Slots(sent)|
    ensures Reported(sent) == |Slots(sent)| <==>
      forall i :: 0 <= i < |sent| && sent[i].Marker? ==> sent[i].dropped <= USIZE_MAX
  {
    if sent != [] {
      ReportedBound(sent[..|sent| - 1]);
    }
  }

  /** The consumer's count of events is exact precisely when the counter was never incremented at its top. */
  lemma CountExactIff(cap: nat, actions: seq<Action>)
    requires cap > 0 && Run(cap, actions).enabled
    ensures var s := Run(cap, actions);
      Reported(s.sent) + s.skipped == |Forwardable(s.pulled)| <==> CounterSuffices(s)
  {
    RunKeepsBooks(cap, actions);
    ReportedBound(Run(cap, actions).sent);
  }

  lemma {:induction false} ForwardableShorter(pulled: seq<Event>)
    ensures |Forwardable(pulled)| <= |pulled|
  {
    if pulled != [] { ForwardableShorter(pulled[..|pulled| - 1]); }
  }

  lemma {:induction false} RunPulls(cap: nat, actions: seq<Action>)
    requires cap > 0
    ensures |Run(cap, actions).pulled| <= |actions|
  {
    if actions != [] {
      var init, a := actions[..|actions| - 1], actions[|actions| - 1];
      RunPulls(cap, init);
      RunKeepsBooks(cap, init);
      var s := Run(cap, init);
      if a.PullEvent? && s.enabled { var _ := ForwardMeets(s.(pulled := s.pulled + [a.event]), cap, a.event, a.w1, a.w2); }
    }
  }

  /** A marker's drops come on top of the first event. */
  lemma {:induction false} MarkerFits(sent: seq<Item>, i: nat)
    requires 0 < i < |sent| && sent[0].Original? && sent[i].Marker?
    ensures sent[i].dropped < |Slots(sent)|
  {
    if i < |sent| - 1 { MarkerFits(sent[..|sent| - 1], i); } else { SlotsNonEmpty(sent[..i]); }
  }

  lemma {:induction false} SlotsNonEmpty(sent: seq<Item>)
    requires sent != [] && sent[0].Original?
    ensures |Slots(sent)| > 0
  {
    if |sent| > 1 { SlotsNonEmpty(sent[..|sent| - 1]); }
  }

  /** Every run of at most 2^64 actions is counted exactly; `CountCanFail` needs one more. */
  lemma ShortRunsCountExactly(cap: nat, actions: seq<Action>)
    requires cap > 0 && Run(cap, actions).enabled && |actions| <= USIZE_MAX + 1
    ensures var s := Run(cap, actions);
      Reported(s.sent) + s.skipped == |Forwardable(s.pulled)|
  {
    var s := Run(cap, actions);
    RunKeepsBooks(cap, actions);
    RunPulls(cap, actions);
    ForwardableShorter(s.pulled);
    assert |Fates(s)| == |Slots(s.sent)| + s.owed;
    FewSlotsSuffice(s);
    CountExactIff(cap, actions);
  }

  lemma FewSlotsSuffice(s: Lane)
    requires StartsWithEvent(s) && |Slots(s.sent)| + s.owed <= USIZE_MAX + 1
    ensures CounterSuffices(s)
  {
    if s.sent != [] { SlotsNonEmpty(s.sent); }
    forall i | 0 <= i < |s.sent| && s.sent[i].Marker? ensures s.sent[i].dropped <= USIZE_MAX { MarkerFits(s.sent, i); }
  }

  const Nudge: Action := PullEvent(Lagged(0), Wait(0, false), Wait(0, false))

  ghost predicate Flooded(s: Lane, n: nat)
  {
    && s.open && s.enabled && |s.queue| == 1 && s.owed == n && s.skipped == Capped(n)
    && |s.sent| == 1 && s.sent[0].Original? && |Forwardable(s.pulled)| == n + 1
  }

  lemma FloodStep(s: Lane, n: nat)
    requires Flooded(s, n)
    ensures Flooded(Act(s, 1, Nudge), n + 1)
  {
    assert (s.pulled + [Lagged(0)])[..|s.pulled|] == s.pulled;
  }

  lemma FloodStarts()
    ensures Flooded(Act(Start, 1, Nudge), 0)
  {
    assert ([] + [Lagged(0)])[..0] == [];
  }

  /** A flood of best-effort events against a reader that never reads. */
  lemma {:induction false} Flood(n: nat)
    ensures Flooded(Run(1, seq(n + 1, _ => Nudge)), n)
  {
    var actions := seq(n + 1, _ => Nudge);
    assert actions[..n] == seq(n, _ => Nudge) && actions[n] == Nudge;
    if n == 0 {
      FloodStarts();
    } else {
      Flood(n - 1);
      FloodStep(Run(1, actions[..n]), n - 1);
    }
  }

  lemma CountCanFail()
    ensures exists actions ::
              && |actions| == USIZE_MAX + 2
              && Run(1, actions).enabled
              && Reported(Run(1, actions).sent) + Run(1, actions).skipped != |Forwardable(Run(1, actions).pulled)|
  {
    var actions := seq(USIZE_MAX + 2, _ => Nudge);
    Flood(USIZE_MAX + 1);
    CountExactIff(1, actions);
    assert !CounterSuffices(Run(1, actions));
  }

  // ----- When an event is dropped -----

  /** Every drop so far found the channel full. */
  ghost predicate DroppedFull(s: Lane, cap: nat)
  {
    forall i :: 0 <= i < |s.levels| ==> s.levels[i] == cap
  }

  lemma TryDropsFull(s: Lane, cap: nat, i: Item, e: Event)
    requires DroppedFull(s, cap) && |s.queue| <= cap && TrySend(s, cap, i) == Full
    ensures DroppedFull(Drop(s, e), cap)
  {
  }

  lemma DeliverDropsFull(s: Lane, cap: nat, e: Event, w: Wait)
    requires Transport(s, cap) && cap > 0 && DroppedFull(s, cap)
    ensures DroppedFull(Deliver(s, cap, e, w), cap)
  {
    if !RequiresDelivery(e) {
      MeanwhileKeeps(s, cap, w);
      if TrySend(Meanwhile(s, w), cap, Original(e)) == Full { TryDropsFull(Meanwhile(s, w), cap, Original(e), e); }
    }
  }

  lemma ForwardDropsFull(s: Lane, cap: nat, e: Event, w1: Wait, w2: Wait)
    requires Transport(s, cap) && cap > 0 && s.enabled && DroppedFull(s, cap)
    ensures DroppedFull(Forward(s, cap, e, w1, w2), cap)
  {
    var marker := Marker(s.skipped, s.owed);
    if s.skipped == 0 {
      DeliverDropsFull(s, cap, e, w2);
    } else if RequiresDelivery(e) {
      AwaitedKeeps(s, cap, w1);
      var t := Awaited(s, cap, w1);
      if t.open {
        FlushKeeps(t, cap);
        DeliverDropsFull(Flushed(Put(t, marker)), cap, e, w2);
      }
    } else {
      MeanwhileKeeps(s, cap, w1);
      var m := Meanwhile(s, w1);
      match TrySend(m, cap, marker)
      case Sent(t) =>
        FlushKeeps(m, cap);
        DeliverDropsFull(Flushed(t), cap, e, w2);
      case Full => TryDropsFull(m, cap, marker, e);
      case Closed =>
    }
  }

  /** Over every run, an event is dropped only when the channel holds exactly its capacity. */
  lemma {:induction false} DropsOnlyWhenFull(cap: nat, actions: seq<Action>)
    requires cap > 0
    ensures DroppedFull(Run(cap, actions), cap)
  {
    if actions != [] {
      var init, a := actions[..|actions| - 1], actions[|actions| - 1];
      var s := Run(cap, init);
      DropsOnlyWhenFull(cap, init);
      RunKeepsBooks(cap, init);
      if a.PullEvent? && s.enabled { ForwardDropsFull(s.(pulled := s.pulled + [a.event]), cap, a.event, a.w1, a.w2); }
    }
  }

  function HolesIn(slots: seq<Slot>): nat
  {
    if slots == [] then 0 else HolesIn(slots[..|slots| - 1]) + if slots[|slots| - 1].Hole? then 1 else 0
  }

  /** And the log misses none: there is one entry for every hole. */
  lemma {:induction false} EveryHoleLogged(cap: nat, actions: seq<Action>)
    requires cap > 0
    ensures HolesIn(Fates(Run(cap, actions))) == |Run(cap, actions).levels|
  {
    if actions != [] {
      var init, a := actions[..|actions| - 1], actions[|actions| - 1];
      var s := Run(cap, init);
      EveryHoleLogged(cap, init);
      RunKeepsBooks(cap, init);
      if a.PullEvent? && s.enabled && !IsRefresh(a.event) {
        var t := s.(pulled := s.pulled + [a.event]);
        var slot := ForwardMeets(t, cap, a.event, a.w1, a.w2);
        var r := Forward(t, cap, a.event, a.w1, a.w2);
        assert Fates(t) == Fates(s) && Fates(r)[..|Fates(r)| - 1] == Fates(s);
      }
    }
  }

  /** A best-effort event is delivered whenever nothing is owed and a slot is free at its send. */
  lemma DeliveredWhenRoom(s: Lane, cap: nat, e: Event, w1: Wait, w2: Wait)
    requires !RequiresDelivery(e) && s.skipped == 0 && Meanwhile(s, w2).open && |Meanwhile(s, w2).queue| < cap
    ensures var t := Meanwhile(s, w2);
      Forward(s, cap, e, w1, w2) == t.(queue := t.queue + [e], sent := t.sent + [Original(e)])
  {
  }

  /** With drops owed, the marker goes first, and the event follows it when there is still room. */
  lemma ReportedWhenRoom(s: Lane, cap: nat, e: Event, w1: Wait, w2: Wait)
    requires !RequiresDelivery(e) && s.skipped > 0 && Meanwhile(s, w1).open && |Meanwhile(s, w1).queue| < cap
    ensures var t := Meanwhile(s, w1);
      var u := Meanwhile(t.(queue := t.queue + [Lagged(s.skipped)], sent := t.sent + [Marker(s.skipped, s.owed)], skipped := 0, owed := 0), w2);
      var r := Forward(s, cap, e, w1, w2);
      && (u.open && |u.queue| < cap ==> r == u.(queue := u.queue + [e], sent := u.sent + [Original(e)]))
      && (u.open && |u.queue| >= cap ==> r.queue == u.queue && r.sent == u.sent && r.skipped == 1)
  {
    var t := Meanwhile(s, w1);
    assert Flushed(Put(t, Marker(s.skipped, s.owed))) ==
      t.(queue := t.queue + [Lagged(s.skipped)], sent := t.sent + [Marker(s.skipped, s.owed)], skipped := 0, owed := 0);
  }

  /** A lossless event is sent behind whatever is owed, once the consumer has made room. */
  lemma LosslessDelivered(s: Lane, cap: nat, e: Event, w1: Wait, w2: Wait)
    requires RequiresDelivery(e) && s.skipped == 0 && s.open && !w2.closes
    ensures var t := Awaited(s, cap, w2);
      Forward(s, cap, e, w1, w2) == t.(queue := t.queue + [e], sent := t.sent + [Original(e)])
  {
  }

  /** While nothing has been dropped, everything sent is an event, one slot each. */
  lemma {:induction false} NoDropsNoMarkers(sent: seq<Item>)
    requires forall i :: 0 <= i < |sent| ==> sent[i].Original?
    ensures |Slots(sent)| == |sent|
  {
    if sent != [] { NoDropsNoMarkers(sent[..|sent| - 1]); }
  }

  ghost predicate Undropped(s: Lane)
  {
    s.levels == [] ==> s.owed == 0 && forall i :: 0 <= i < |s.sent| ==> s.sent[i].Original?
  }

  lemma DeliverUndropped(s: Lane, cap: nat, e: Event, w: Wait)
    requires Undropped(s)
    ensures Undropped(Deliver(s, cap, e, w))
  {
  }

  lemma DeliverKeepsLevels(s: Lane, cap: nat, e: Event, w: Wait)
    ensures s.levels <= Deliver(s, cap, e, w).levels
  {
  }

  lemma ForwardKeepsLevels(s: Lane, cap: nat, e: Event, w1: Wait, w2: Wait)
    ensures s.levels <= Forward(s, cap, e, w1, w2).levels
  {
    var marker := Marker(s.skipped, s.owed);
    if s.skipped == 0 {
      DeliverKeepsLevels(s, cap, e, w2);
    } else if RequiresDelivery(e) {
      DeliverKeepsLevels(Flushed(Put(Awaited(s, cap, w1), marker)), cap, e, w2);
    } else {
      DeliverKeepsLevels(Flushed(Put(Meanwhile(s, w1), marker)), cap, e, w2);
    }
  }

  lemma {:induction false} RunUndropped(cap: nat, actions: seq<Action>)
    requires cap > 0
    ensures Undropped(Run(cap, actions))
  {
    if actions != [] {
      var init, a := actions[..|actions| - 1], actions[|actions| - 1];
      var s := Run(cap, init);
      RunUndropped(cap, init);
      RunKeepsBooks(cap, init);
      if a.PullEvent? && s.enabled {
        var t := s.(pulled := s.pulled + [a.event]);
        if s.skipped == 0 {
          DeliverUndropped(t, cap, a.event, a.w2);
        } else {
          ForwardKeepsLevels(t, cap, a.event, a.w1, a.w2);
        }
      }
    }
  }

  /** The first drop of a run finds a whole channel's worth of events sent before it. */
  lemma FirstDropNeedsFull(s: Lane, cap: nat, e: Event, w1: Wait, w2: Wait)
    requires Transport(s, cap) && Undropped(s) && s.levels == [] && Forward(s, cap, e, w1, w2).levels != []
    ensures |Slots(s.sent)| >= cap
  {
    NoDropsNoMarkers(s.sent);
    assert s.skipped == 0 && !RequiresDelivery(e);
    assert |WireOf(s.sent)| == |s.taken| + |s.queue|;
    assert |s.queue| >= |Meanwhile(s, w2).queue| >= cap;
  }

  /** So no run drops any of the first `cap` events it forwards. */
  lemma {:induction false} FirstEventsKept(cap: nat, actions: seq<Action>)
    requires cap > 0 && |Forwardable(Run(cap, actions).pulled)| <= cap
    ensures Run(cap, actions).levels == [] && Run(cap, actions).owed == 0
  {
    RunUndropped(cap, actions);
    if actions != [] {
      var init, a := actions[..|actions| - 1], actions[|actions| - 1];
      var s := Run(cap, init);
      RunKeepsBooks(cap, init);
      RunUndropped(cap, init);
      PulledGrows(cap, init, a);
      FirstEventsKept(cap, init);
      if a.PullEvent? && s.enabled && !IsRefresh(a.event) {
        var t := s.(pulled := s.pulled + [a.event]);
        if Forward(t, cap, a.event, a.w1, a.w2).levels != [] { FirstDropNeedsFull(t, cap, a.event, a.w1, a.w2); }
      }
    }
  }

  lemma PulledGrows(cap: nat, init: seq<Action>, a: Action)
    requires cap > 0
    ensures var s, t := Run(cap, init), Act(Run(cap, init), cap, a);
      |Forwardable(t.pulled)| == |Forwardable(s.pulled)| + if a.PullEvent? && s.enabled && !IsRefresh(a.event) then 1 else 0
  {
    var s := Run(cap, init);
    RunKeepsBooks(cap, init);
    if a.PullEvent? && s.enabled {
      var t := s.(pulled := s.pulled + [a.event]);
      assert t.pulled[..|s.pulled|] == s.pulled;
      if !IsRefresh(a.event) { var _ := ForwardMeets(t, cap, a.event, a.w1, a.w2); }
    }
  }

  /** Which notifications are lossless; server requests and lag markers never are. */
  lemma LosslessIff(e: Event)
    ensures RequiresDelivery(e) <==>
      match e
      case ServerNotification(TurnCompleted(_)) => true
      case ServerNotification(ThreadSettingsUpdated(_)) => true
      case ServerNotification(ItemCompleted(_)) => true
      case ServerNotification(AgentMessageDelta(_)) => true
      case ServerNotification(PlanDelta(_)) => true
      case ServerNotification(ReasoningSummaryTextDelta(_)) => true
      case ServerNotification(ReasoningTextDelta(_)) => true
      case _ => false
  {
  }

  /** The codes the worker fails server requests with, and when. */
  lemma FailureCodes(s: Lane, cap: nat, e: Event, w1: Wait, w2: Wait)
    requires Transport(s, cap) && cap > 0 && s.enabled && e.ServerRequest?
    ensures var t := Pull(s, cap, e, w1, w2);
      if e.request.ChatgptAuthTokensRefresh? then t.failures == s.failures + [Failure(e.request.id, -32000)] && t.sent == s.sent
      else if |t.levels| > |s.levels| then t.failures == s.failures + [Failure(e.request.id, -32001)]
      else t.failures == s.failures
  {
    if !IsRefresh(e) { LevelsMatchFailures(s.(pulled := s.pulled + [e]), cap, e, w1, w2); }
  }

  lemma DeliverMatchesFailures(s: Lane, cap: nat, e: Event, w: Wait)
    requires e.ServerRequest?
    ensures var t := Deliver(s, cap, e, w);
      if |t.levels| > |s.levels| then t.failures == s.failures + [Failure(e.request.id, QUEUE_FULL)] else t.failures == s.failures
  {
  }

  lemma LevelsMatchFailures(s: Lane, cap: nat, e: Event, w1: Wait, w2: Wait)
    requires e.ServerRequest?
    ensures var t := Forward(s, cap, e, w1, w2);
      if |t.levels| > |s.levels| then t.failures == s.failures + [Failure(e.request.id, QUEUE_FULL)] else t.failures == s.failures
  {
    if s.skipped == 0 {
      DeliverMatchesFailures(s, cap, e, w2);
    } else {
      DeliverMatchesFailures(Flushed(Put(Meanwhile(s, w1), Marker(s.skipped, s.owed))), cap, e, w2);
    }
  }

  // ----- The worker object -----

  datatype TrySendError = FullError | ClosedError | NoError

  class InProcessWorker {
    const capacity: nat
    var queue: seq<Event>
    var open: bool
    var skippedEvents: nat
    var eventStreamEnabled: bool
    var failures: seq<Failure>
    ghost var pulled: seq<Event>
    ghost var sent: seq<Item>
    ghost var taken: seq<Event>
    ghost var owed: nat
    ghost var levels: seq<nat>

    ghost function State(): Lane
      reads this
    {
      Lane(queue, open, skippedEvents, eventStreamEnabled, pulled, sent, taken, failures, owed, levels)
    }

    /** The channel capacity is clamped to at least one. */
    constructor (channelCapacity: nat)
      ensures State() == Start && capacity == if channelCapacity > 1 then channelCapacity else 1
    {
      capacity := if channelCapacity > 1 then channelCapacity else 1;
      queue, open, skippedEvents, eventStreamEnabled, failures := [], true, 0, true, [];
      pulled, sent, taken, owed, levels := [], [], [], 0, [];
    }

    method Receive(n: nat)
      modifies this
      ensures State() == Reads(old(State()), n)
    {
      var k := if n < |queue| then n else |queue|;
      taken := taken + queue[..k];
      queue := queue[k..];
    }

    method Close()
      modifies this
      ensures State() == old(State()).(open := false)
    {
      open := false;
    }

    method Interlude(w: Wait)
      modifies this
      ensures State() == Meanwhile(old(State()), w)
    {
      Receive(w.takes);
      if w.closes { Close(); }
    }

    method TrySendItem(e: Event, ghost i: Item) returns (error: TrySendError)
      requires e == OnWire(i)
      modifies this
      ensures error == match TrySend(old(State()), capacity, i) case Sent(_) => NoError case Full => FullError case Closed => ClosedError
      ensures State() == match TrySend(old(State()), capacity, i) case Sent(t) => t case _ => old(State())
    {
      if !open { return ClosedError; }
      if |queue| >= capacity { return FullError; }
      queue, sent := queue + [e], sent + [i];
      error := NoError;
    }

    /** `send().await`; the consumer acts as `w` says until there is room. */
    method SendItem(e: Event, ghost i: Item, w: Wait) returns (ok: bool)
      requires e == OnWire(i)
      modifies this
      ensures ok == Awaited(old(State()), capacity, w).open
      ensures State() == if ok then Put(Awaited(old(State()), capacity, w), i) else Awaited(old(State()), capacity, w)
    {
      var room := if |queue| >= capacity then |queue| - capacity + 1 else 0;
      Receive(if w.closes || room <= w.takes then w.takes else room);
      if w.closes { Close(); }
      ok := open;
      if ok {
        queue, sent := queue + [e], sent + [i];
      }
    }

    method DropEvent(e: Event)
      modifies this
      ensures State() == Drop(old(State()), e)
    {
      skippedEvents := SaturatingIncrement(skippedEvents);
      owed, levels := owed + 1, levels + [|queue|];
      if e.ServerRequest? {
        failures := failures + [Failure(e.request.id, QUEUE_FULL)];
      }
    }

    /** The second half of forwarding, once the drops have been reported. */
    method DeliverEvent(e: Event, w: Wait) returns (proceed: bool)
      requires eventStreamEnabled
      modifies this
      ensures proceed == Deliver(old(State()), capacity, e, w).enabled
      ensures State() == Deliver(old(State()), capacity, e, w).(enabled := true)
    {
      if RequiresDelivery(e) {
        proceed := SendItem(e, Original(e), w);
        return;
      }
      Interlude(w);
      var error := TrySendItem(e, Original(e));
      match error
      case NoError => return true;
      case FullError => DropEvent(e); return true;
      case ClosedError => return false;
    }

    /** Returns true for `Continue`, false for `DisableStream`. */
    method ForwardInProcessEvent(e: Event, w1: Wait, w2: Wait) returns (proceed: bool)
      requires eventStreamEnabled
      modifies this
      ensures proceed == Forward(old(State()), capacity, e, w1, w2).enabled
      ensures State() == Forward(old(State()), capacity, e, w1, w2).(enabled := true)
    {
      ghost var marker := Marker(skippedEvents, owed);
      if skippedEvents > 0 {
        if RequiresDelivery(e) {
          var ok := SendItem(Lagged(skippedEvents), Marker(skippedEvents, owed), w1);
          if !ok { return false; }
          skippedEvents, owed := 0, 0;
          assert State() == Flushed(Send(old(State()), capacity, w1, marker));
        } else {
          Interlude(w1);
          var error := TrySendItem(Lagged(skippedEvents), Marker(skippedEvents, owed));
          match error
          case NoError =>
            skippedEvents, owed := 0, 0;
            assert State() == Flushed(Put(Meanwhile(old(State()), w1), marker));
          case FullError => DropEvent(e); return true;
          case ClosedError => return false;
        }
      }
      proceed := DeliverEvent(e, w2);
    }

    /** The event branch of the worker's `select!`. */
    method HandleEvent(e: Event, w1: Wait, w2: Wait)
      requires eventStreamEnabled
      modifies this
      ensures State() == Pull(old(State()), capacity, e, w1, w2)
    {
      pulled := pulled + [e];
      if IsRefresh(e) {
        failures := failures + [Failure(e.request.id, UNSUPPORTED_REFRESH)];
        return;
      }
      var proceed := ForwardInProcessEvent(e, w1, w2);
      if !proceed { eventStreamEnabled := false; }
    }
  }

  /** The worker loop over any schedule of runtime events and consumer steps. */
  method RunWorker(channelCapacity: nat, schedule: seq<Action>) returns (worker: InProcessWorker)
    ensures fresh(worker) && worker.capacity > 0
    ensures worker.State() == Run(worker.capacity, schedule)
    ensures |worker.queue| <= worker.capacity && Accounted(worker.State()) && DroppedFull(worker.State(), worker.capacity)
  {
    worker := new InProcessWorker(channelCapacity);
    for i := 0 to |schedule|
      invariant fresh(worker) && worker.capacity > 0 && worker.State() == Run(worker.capacity, schedule[..i])
    {
      assert schedule[..i + 1][..i] == schedule[..i];
      match schedule[i]
      case PullEvent(e, w1, w2) =>
        if worker.eventStreamEnabled { worker.HandleEvent(e, w1, w2); }
      case ConsumerReads(n) => worker.Receive(n);
      case ConsumerCloses => worker.Close();
    }
    assert schedule[..|schedule|] == schedule;
    RunKeepsBooks(worker.capacity, schedule);
    DropsOnlyWhenFull(worker.capacity, schedule);
  }
}
