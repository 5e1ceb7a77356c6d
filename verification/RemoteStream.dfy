/**
The remote client from end to end: one wire, read first by the handshake and
then by the worker, and what `next_event` makes of it.

The worker's select loop takes turns between the wire and the command channel;
the turns are a parameter, so the theorems hold for every scheduling.
*/
module RemoteStream {
  import opened Common
  import opened RemoteClient

  datatype Turn =
    | ReadNext                              // the next frame, once there is one
    | TakeCommand(command: Command, write: Write)
    | CommandsClosed

  /** What the worker meets when it takes these turns on what is left of the wire. */
  function Feed(turns: seq<Turn>, wire: seq<Arrival>): seq<Input>
    decreases |turns|
  {
    if turns == [] then []
    else
      match turns[0]
      case ReadNext =>
        if wire == [] then Feed(turns[1..], wire)
        else [Receive(wire[0].frame, wire[0].reject)] + Feed(turns[1..], wire[1..])
      case TakeCommand(c, write) => [Accept(c, write)] + Feed(turns[1..], wire)
      case CommandsClosed => [CommandChannelClosed] + Feed(turns[1..], wire)
  }

  /** Where the handshake stops reading; the length if it never does. */
  function HandshakeEnd(wire: seq<Arrival>): (k: nat)
    ensures k <= |wire| && (k < |wire| ==> EndsHandshake(wire[k])) && forall j :: 0 <= j < k ==> !EndsHandshake(wire[j])
  {
    if wire == [] || EndsHandshake(wire[0]) then 0 else 1 + HandshakeEnd(wire[1..])
  }

  /** The first arrival that ends the handshake is the initialize response. */
  predicate HandshakeSucceeds(wire: seq<Arrival>)
  {
    HandshakeEnd(wire) < |wire| && IsInitializeResponse(wire[HandshakeEnd(wire)].frame)
  }

  lemma HandshakeEndIs(wire: seq<Arrival>, k: nat)
    requires k < |wire| && EndsHandshake(wire[k]) && forall j :: 0 <= j < k ==> !EndsHandshake(wire[j])
    ensures HandshakeEnd(wire) == k
  {
    var end := HandshakeEnd(wire);
    assert !(end < k) && !(k < end);
  }

  /** The worker on the wire the handshake has left it. */
  function WorkerOn(endpoint: string, wire: seq<Arrival>, turns: seq<Turn>): Worker
    requires HandshakeSucceeds(wire)
  {
    Run(Fresh, endpoint, Feed(turns, wire[HandshakeEnd(wire) + 1..]))
  }

  // ----- The worker reads the wire in order -----

  lemma FramesOfSplit(wire: seq<Arrival>, c: nat)
    requires c <= |wire|
    ensures FramesOf(wire[..c]) == FramesOf(wire)[..c] && FramesOf(wire[c..]) == FramesOf(wire)[c..]
  {
  }

  lemma {:induction false} FeedKeepsConsumer(turns: seq<Turn>, wire: seq<Arrival>)
    ensures forall i :: 0 <= i < |Feed(turns, wire)| ==> !Feed(turns, wire)[i].ConsumerGone?
    decreases |turns|
  {
    if turns != [] {
      FeedKeepsConsumer(turns[1..], if turns[0].ReadNext? && wire != [] then wire[1..] else wire);
    }
  }

  lemma PrefixCons<T>(x: T, a: seq<T>, b: seq<T>)
    requires a <= b
    ensures [x] + a <= [x] + b
  {
  }

  lemma FramesOfCons(wire: seq<Arrival>)
    requires wire != []
    ensures FramesOf(wire) == [wire[0].frame] + FramesOf(wire[1..])
  {
  }

  lemma FramesInCons(input: Input, inputs: seq<Input>)
    ensures FramesIn([input] + inputs) == (if input.Receive? then [input.frame] else []) + FramesIn(inputs)
  {
    assert ([input] + inputs)[1..] == inputs;
  }

  lemma TakeCons<T>(x: T, rest: seq<T>, k: nat)
    requires 0 < k <= |rest| + 1
    ensures ([x] + rest)[..k] == [x] + rest[..k - 1]
  {
  }

  lemma {:induction false} FeedFollowsWire(turns: seq<Turn>, wire: seq<Arrival>, k: nat)
    requires k <= |Feed(turns, wire)|
    ensures FramesIn(Feed(turns, wire)[..k]) <= FramesOf(wire)
    decreases |turns|
  {
    if turns != [] && k > 0 {
      var rest := turns[1..];
      match turns[0]
      case ReadNext =>
        if wire == [] {
          FeedFollowsWire(rest, wire, k);
        } else {
          var input, more := Receive(wire[0].frame, wire[0].reject), Feed(rest, wire[1..]);
          FeedFollowsWire(rest, wire[1..], k - 1);
          TakeCons(input, more, k);
          FramesInCons(input, more[..k - 1]);
          FramesOfCons(wire);
          PrefixCons(input.frame, FramesIn(more[..k - 1]), FramesOf(wire[1..]));
        }
      case TakeCommand(c, write) =>
        FeedFollowsWire(rest, wire, k - 1);
        TakeCons(Accept(c, write), Feed(rest, wire), k);
        FramesInCons(Accept(c, write), Feed(rest, wire)[..k - 1]);
      case CommandsClosed =>
        FeedFollowsWire(rest, wire, k - 1);
        TakeCons(CommandChannelClosed, Feed(rest, wire), k);
        FramesInCons(CommandChannelClosed, Feed(rest, wire)[..k - 1]);
    }
  }

  predicate AtMostOneDisconnect(tail: seq<Event>)
  {
    tail == [] || (|tail| == 1 && tail[0].Disconnected?)
  }

  /**
  Of a wire whose first `c` frames went to the handshake, the first `m` frames
  and `tail` are what the handshake and the worker `t`, which read `n` frames,
  deliver together.
  */
  ghost predicate Streams(frames: seq<Frame>, c: nat, t: Worker, n: nat, m: nat, tail: seq<Event>)
  {
    && c <= m <= |frames|
    && Decode(frames[..c]) + t.events == Decode(frames[..m]) + tail
    && AtMostOneDisconnect(tail)
    && (!t.exited ==> tail == [] && m == c + n)
  }

  lemma StreamsUpTo(frames: seq<Frame>, c: nat, t: Worker, n: nat, part: seq<Frame>, tail: seq<Event>)
    requires c <= |frames| && part <= frames[c..]
    requires Decode(frames[..c]) + t.events == Decode(frames[..c] + part) + tail
    requires AtMostOneDisconnect(tail)
    requires !t.exited ==> tail == [] && |part| == n
    ensures Streams(frames, c, t, n, c + |part|, tail)
  {
    TakeMore(frames, c, part);
  }

  lemma TakeMore<T>(f: seq<T>, c: nat, part: seq<T>)
    requires c <= |f| && part <= f[c..]
    ensures c + |part| <= |f| && f[..c] + part == f[..c + |part|]
  {
  }

  /**
  For every wire, every position of the initialize response and every
  scheduling: the handshake's buffer and the worker's channel together are the
  in-order decoding of the frames read, all of them while the worker lives, then
  at most one `Disconnected`, only once it has exited.
  */
  lemma StreamIsDecodingOfWire(endpoint: string, wire: seq<Arrival>, turns: seq<Turn>) returns (m: nat, tail: seq<Event>)
    requires HandshakeSucceeds(wire)
    ensures var c := HandshakeEnd(wire) + 1;
      Streams(FramesOf(wire), c, WorkerOn(endpoint, wire, turns), |FramesIn(Feed(turns, wire[c..]))|, m, tail)
  {
    var c := HandshakeEnd(wire) + 1;
    FramesOfSplit(wire, c);
    m, tail := StreamIsDecodingAfter(endpoint, FramesOf(wire), c, turns, wire[c..]);
  }

  lemma StreamIsDecodingAfter(endpoint: string, frames: seq<Frame>, c: nat, turns: seq<Turn>, left: seq<Arrival>)
    returns (m: nat, tail: seq<Event>)
    requires c <= |frames| && FramesOf(left) == frames[c..]
    ensures Streams(frames, c, Run(Fresh, endpoint, Feed(turns, left)), |FramesIn(Feed(turns, left))|, m, tail)
  {
    var t, n := Run(Fresh, endpoint, Feed(turns, left)), |FramesIn(Feed(turns, left))|;
    var part;
    part, tail := WorkerFollows(endpoint, frames[..c], turns, left, t, n);
    StreamsUpTo(frames, c, t, n, part, tail);
    m := c + |part|;
  }

  lemma WorkerFollows(endpoint: string, before: seq<Frame>, turns: seq<Turn>, wire: seq<Arrival>, t: Worker, n: nat)
    returns (part: seq<Frame>, tail: seq<Event>)
    requires t == Run(Fresh, endpoint, Feed(turns, wire)) && n == |FramesIn(Feed(turns, wire))|
    ensures part <= FramesOf(wire) && AtMostOneDisconnect(tail)
    ensures Decode(before) + t.events == Decode(before + part) + tail
    ensures !t.exited ==> tail == [] && |part| == n
  {
    var inputs := Feed(turns, wire);
    FeedKeepsConsumer(turns, wire);
    var k;
    k, tail := WholeStream(before, endpoint, inputs);
    FeedFollowsWire(turns, wire, k);
    part := FramesIn(inputs[..k]);
    assert inputs[..|inputs|] == inputs;
  }

  // ----- Where the initialize response falls does not matter -----

  /** What one reader of a whole wire would deliver, knowing nothing of handshakes. */
  function Delivered(endpoint: string, wire: seq<Arrival>): seq<Event>
  {
    if wire == [] then []
    else
      var effect := EffectOf(wire[0].frame, endpoint, wire[0].reject);
      if effect.Ends? then [Disconnected(effect.message)] else EventOf(wire[0].frame) + Delivered(endpoint, wire[1..])
  }

  /** A turn that does not end the worker by itself. */
  predicate Quiet(turn: Turn)
  {
    match turn
    case ReadNext => true
    case TakeCommand(c, write) => c.OneWayCommand? || (c.RequestCommand? && write.Written?)
    case CommandsClosed => false
  }

  function Readings(turns: seq<Turn>): nat
  {
    if turns == [] then 0 else (if turns[0].ReadNext? then 1 else 0) + Readings(turns[1..])
  }

  ghost predicate ReadsAll(turns: seq<Turn>, wire: seq<Arrival>)
  {
    Readings(turns) >= |wire| && forall i :: 0 <= i < |turns| ==> Quiet(turns[i])
  }

  lemma QuietStep(s: Worker, endpoint: string, turn: Turn)
    requires !s.exited && s.consumer && Quiet(turn) && turn.TakeCommand?
    ensures var t := Step(s, endpoint, Accept(turn.command, turn.write)); !t.exited && t.consumer && t.events == s.events
  {
  }

  lemma RunCons(s: Worker, endpoint: string, input: Input, inputs: seq<Input>)
    ensures Run(s, endpoint, [input] + inputs) == Run(Step(s, endpoint, input), endpoint, inputs)
  {
    assert ([input] + inputs)[1..] == inputs;
  }

  lemma {:induction false} WorkerDelivers(s: Worker, endpoint: string, turns: seq<Turn>, wire: seq<Arrival>)
    requires !s.exited && s.consumer && ReadsAll(turns, wire)
    ensures Run(s, endpoint, Feed(turns, wire)).events == s.events + Delivered(endpoint, wire)
    decreases |turns|
  {
    if turns != [] {
      var rest := turns[1..];
      if turns[0].TakeCommand? {
        var input := Accept(turns[0].command, turns[0].write);
        QuietStep(s, endpoint, turns[0]);
        RunCons(s, endpoint, input, Feed(rest, wire));
        WorkerDelivers(Step(s, endpoint, input), endpoint, rest, wire);
      } else if wire == [] {
        WorkerDelivers(s, endpoint, rest, wire);
      } else {
        var a, left := wire[0], wire[1..];
        var t := Apply(s, EffectOf(a.frame, endpoint, a.reject));
        RunCons(s, endpoint, Receive(a.frame, a.reject), Feed(rest, left));
        ApplyEvents(s, a.frame, endpoint, a.reject);
        if t.exited {
          ExitedStays(t, endpoint, Feed(rest, left));
        } else {
          WorkerDelivers(t, endpoint, rest, left);
          Regroup(s.events, EventOf(a.frame), Delivered(endpoint, left));
        }
      }
    }
  }

  /** Frames that do not end the handshake do not end the worker either; nor does the initialize response. */
  predicate Harmless(a: Arrival)
  {
    !EndsHandshake(a) || IsInitializeResponse(a.frame)
  }

  predicate AllHarmless(wire: seq<Arrival>)
  {
    forall i :: 0 <= i < |wire| ==> Harmless(wire[i])
  }

  lemma HarmlessSnoc(wire: seq<Arrival>, a: Arrival)
    requires AllHarmless(wire) && Harmless(a)
    ensures AllHarmless(wire + [a])
  {
  }

  lemma HarmlessStays(endpoint: string, a: Arrival)
    requires Harmless(a)
    ensures !EffectOf(a.frame, endpoint, a.reject).Ends?
  {
  }

  lemma DeliveredCons(endpoint: string, a: Arrival, b: seq<Arrival>)
    requires Harmless(a)
    ensures Delivered(endpoint, [a] + b) == EventOf(a.frame) + Delivered(endpoint, b)
  {
    HarmlessStays(endpoint, a);
    assert ([a] + b)[1..] == b;
  }

  lemma DecodeOne(f: Frame)
    ensures Decode([f]) == EventOf(f)
  {
    assert [f][..0] == [];
  }

  lemma DecodeFrames(wire: seq<Arrival>)
    requires wire != []
    ensures Decode(FramesOf(wire)) == EventOf(wire[0].frame) + Decode(FramesOf(wire[1..]))
  {
    FramesOfCons(wire);
    DecodeConcat([wire[0].frame], FramesOf(wire[1..]));
    DecodeOne(wire[0].frame);
  }

  lemma {:induction false} DeliveredConcat(endpoint: string, a: seq<Arrival>, b: seq<Arrival>)
    requires AllHarmless(a)
    ensures Delivered(endpoint, a + b) == Decode(FramesOf(a)) + Delivered(endpoint, b)
    decreases |a|
  {
    if a == [] {
      assert a + b == b;
    } else {
      var rest := a[1..] + b;
      assert a + b == [a[0]] + rest;
      DeliveredConcat(endpoint, a[1..], b);
      DeliveredCons(endpoint, a[0], rest);
      DecodeFrames(a);
      Regroup(EventOf(a[0].frame), Decode(FramesOf(a[1..])), Delivered(endpoint, b));
    }
  }

  /** Handshake and worker together deliver what one reader of the whole wire would, the disconnect included. */
  lemma HandshakeIsTransparent(endpoint: string, wire: seq<Arrival>, turns: seq<Turn>)
    requires HandshakeSucceeds(wire) && ReadsAll(turns, wire[HandshakeEnd(wire) + 1..])
    ensures Decode(FramesOf(wire[..HandshakeEnd(wire) + 1])) + WorkerOn(endpoint, wire, turns).events == Delivered(endpoint, wire)
  {
    var c := HandshakeEnd(wire) + 1;
    FreshDelivers(endpoint, turns, wire[c..]);
    UpToResponseIsHarmless(wire);
    DeliveredConcat(endpoint, wire[..c], wire[c..]);
    SplitsAt(wire, c);
  }

  lemma FreshDelivers(endpoint: string, turns: seq<Turn>, wire: seq<Arrival>)
    requires ReadsAll(turns, wire)
    ensures Run(Fresh, endpoint, Feed(turns, wire)).events == Delivered(endpoint, wire)
  {
    WorkerDelivers(Fresh, endpoint, turns, wire);
    NothingBefore(Delivered(endpoint, wire));
  }

  lemma UpToResponseIsHarmless(wire: seq<Arrival>)
    requires HandshakeSucceeds(wire)
    ensures AllHarmless(wire[..HandshakeEnd(wire) + 1])
  {
    var k := HandshakeEnd(wire);
    assert wire[..k + 1] == wire[..k] + [wire[k]];
    BeforeIsHarmless(wire);
    HarmlessSnoc(wire[..k], wire[k]);
  }

  lemma SplitsAt<T>(a: seq<T>, c: nat)
    requires c <= |a|
    ensures a == a[..c] + a[c..]
  {
  }

  /** `wire` is `others` with the initialize response put in at `k`. */
  predicate Inserted(wire: seq<Arrival>, others: seq<Arrival>, response: Arrival, k: nat)
  {
    k <= |others| && wire == others[..k] + [response] + others[k..]
  }

  /** The handshake meets the response first exactly when nothing put ahead of it ends the handshake. */
  lemma ResponseInTimeIff(wire: seq<Arrival>, others: seq<Arrival>, response: Arrival, k: nat)
    requires Inserted(wire, others, response, k) && IsInitializeResponse(response.frame)
    ensures HandshakeSucceeds(wire) && HandshakeEnd(wire) == k <==> k <= HandshakeEnd(others)
  {
    InsertedSplits(wire, others, response, k);
    assert wire[k] == response;
    assert forall j :: 0 <= j < k ==> wire[j] == wire[..k][j] == others[j];
    if k <= HandshakeEnd(others) {
      HandshakeEndIs(wire, k);
    } else {
      assert EndsHandshake(wire[HandshakeEnd(others)]);
    }
  }

  lemma DeliveredSkips(endpoint: string, before: seq<Arrival>, response: Arrival, after: seq<Arrival>)
    requires IsInitializeResponse(response.frame) && AllHarmless(before)
    ensures Delivered(endpoint, before + ([response] + after)) == Delivered(endpoint, before + after)
  {
    DeliveredConcat(endpoint, before, [response] + after);
    DeliveredCons(endpoint, response, after);
    DeliveredConcat(endpoint, before, after);
  }

  lemma InsertedSplits<T>(wire: seq<T>, others: seq<T>, x: T, k: nat)
    requires k <= |others| && wire == others[..k] + [x] + others[k..]
    ensures wire == others[..k] + ([x] + others[k..]) && others == others[..k] + others[k..]
    ensures wire[..k] == others[..k]
  {
  }

  lemma BeforeIsHarmless(wire: seq<Arrival>)
    ensures AllHarmless(wire[..HandshakeEnd(wire)])
  {
  }

  lemma ResponseDeliversNothing(endpoint: string, wire: seq<Arrival>, others: seq<Arrival>, response: Arrival, k: nat)
    requires Inserted(wire, others, response, k) && IsInitializeResponse(response.frame) && HandshakeEnd(wire) == k
    ensures Delivered(endpoint, wire) == Delivered(endpoint, others)
  {
    InsertedSplits(wire, others, response, k);
    BeforeIsHarmless(wire);
    DeliveredSkips(endpoint, others[..k], response, others[k..]);
  }

  /**
  Two wires that differ only in where the initialize response falls yield the
  same stream, disconnect included, whenever both handshakes succeed; the
  scheduling may differ too.  `ResponseInTimeIff` says when they do: an error
  reply to initialize, say, fails the handshake ahead of the response and is
  ignored behind it.
  */
  lemma InitializePositionIrrelevant(
    endpoint: string, others: seq<Arrival>, response: Arrival,
    wire: seq<Arrival>, k: nat, turns: seq<Turn>, wire': seq<Arrival>, k': nat, turns': seq<Turn>)
    requires IsInitializeResponse(response.frame)
    requires Inserted(wire, others, response, k) && HandshakeSucceeds(wire) && HandshakeEnd(wire) == k
    requires Inserted(wire', others, response, k') && HandshakeSucceeds(wire') && HandshakeEnd(wire') == k'
    requires ReadsAll(turns, wire[k + 1..]) && ReadsAll(turns', wire'[k' + 1..])
    ensures Decode(FramesOf(wire[..k + 1])) + WorkerOn(endpoint, wire, turns).events
      == Decode(FramesOf(wire'[..k' + 1])) + WorkerOn(endpoint, wire', turns').events
  {
    HandshakeIsTransparent(endpoint, wire, turns);
    HandshakeIsTransparent(endpoint, wire', turns');
    ResponseDeliversNothing(endpoint, wire, others, response, k);
    ResponseDeliversNothing(endpoint, wire', others, response, k');
  }

  // ----- The client object -----

  /** `next_event` waits while the channel is empty and its sender alive. */
  datatype Next = Yielded(event: Event) | Ended | Waiting

  /** The consumer's side: events buffered by the handshake come before the channel's. */
  class RemoteAppServerClient {
    var pendingEvents: seq<Event>
    var eventRx: seq<Event>
    const senderAlive: bool
    ghost var yielded: seq<Event>

    ghost function Stream(): seq<Event>
      reads this
    {
      yielded + pendingEvents + eventRx
    }

    constructor (pending: seq<Event>, channel: seq<Event>, alive: bool)
      ensures Stream() == pending + channel && yielded == [] && senderAlive == alive
    {
      pendingEvents, eventRx, senderAlive, yielded := pending, channel, alive, [];
    }

    /** Yields the stream in order, losing and inventing nothing. */
    method NextEvent() returns (n: Next)
      modifies this
      ensures Stream() == old(Stream())
      ensures n.Yielded? <==> old(yielded) != old(Stream())
      ensures n.Yielded? ==> yielded == old(yielded) + [n.event]
      ensures !n.Yielded? ==> yielded == old(yielded) && (n.Waiting? <==> senderAlive)
    {
      if pendingEvents != [] {
        n := Yielded(pendingEvents[0]);
        yielded, pendingEvents := yielded + [pendingEvents[0]], pendingEvents[1..];
      } else if eventRx != [] {
        n := Yielded(eventRx[0]);
        yielded, eventRx := yielded + [eventRx[0]], eventRx[1..];
      } else {
        n := if senderAlive then Waiting else Ended;
      }
    }

    /** Calling `next_event` until it ends or waits yields all that was left of the stream. */
    method TakeAll() returns (events: seq<Event>)
      modifies this
      ensures Stream() == old(Stream()) && yielded == Stream()
      ensures old(yielded) + events == yielded
    {
      events := [];
      var n := NextEvent();
      while n.Yielded?
        invariant Stream() == old(Stream())
        invariant n.Yielded? ==> old(yielded) + events + [n.event] == yielded
        invariant !n.Yielded? ==> old(yielded) + events == yielded == Stream()
        decreases |Stream()| - |yielded|, n.Yielded?
      {
        events := events + [n.event];
        n := NextEvent();
      }
    }
  }

  lemma OnlyLastDisconnects(frames: seq<Frame>, tail: seq<Event>)
    requires AtMostOneDisconnect(tail)
    ensures forall i :: 0 <= i < |Decode(frames) + tail| - 1 ==> !(Decode(frames) + tail)[i].Disconnected?
  {
    DecodeNeverDisconnects(frames);
  }

  /**
  A whole connection: the handshake, then the worker, then a consumer that calls
  `next_event` until it ends or waits.  It yields the decoding of the frames
  read off the wire, in order, then at most one `Disconnected`.
  */
  method Converse(endpoint: string, wire: seq<Arrival>, initialize: Write, initialized: Write, turns: seq<Turn>)
    returns (h: Handshake, events: seq<Event>, ghost m: nat, ghost tail: seq<Event>)
    ensures h.Ready? <==> initialize.Written? && initialized.Written? && HandshakeSucceeds(wire)
    ensures h.Refused? ==> events == []
    ensures h.Ready? ==>
      var c := HandshakeEnd(wire) + 1;
      && Streams(FramesOf(wire), c, WorkerOn(endpoint, wire, turns), |FramesIn(Feed(turns, wire[c..]))|, m, tail)
      && events == Decode(FramesOf(wire)[..m]) + tail
    ensures forall i :: 0 <= i < |events| - 1 ==> !events[i].Disconnected?
  {
    events, m, tail := [], 0, [];
    h := InitializeRemoteConnection(wire, initialize, initialized);
    if h.Refused? { return; }
    HandshakeEndIs(wire, h.consumed - 1);
    FramesOfSplit(wire, h.consumed);
    var worker := RunWorker(endpoint, Feed(turns, wire[h.consumed..]));
    var client := new RemoteAppServerClient(h.pending, worker.events, !worker.exited);
    m, tail := StreamIsDecodingOfWire(endpoint, wire, turns);
    events := client.TakeAll();
    NothingBefore(events);
    OnlyLastDisconnects(FramesOf(wire)[..m], tail);
  }
}
