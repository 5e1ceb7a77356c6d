/**
The remote app-server client: the initialize handshake, the worker that
multiplexes requests over one connection, and the event stream.

Reads, writes and the consumer's departure are inputs, so a run is any
sequence of them.  Decoding a message is part of the input.
*/
module RemoteClient {
  import opened Common
  import Json

  const INITIALIZE_ID: RequestId := StringId("initialize")
  const METHOD_NOT_FOUND: int := -32601

  datatype ErrorKind = InvalidInput | InvalidData | BrokenPipe | ConnectionAborted | UnexpectedEof | OtherKind

  datatype IoError = IoError(kind: ErrorKind, message: string)

  datatype RpcError = RpcError(code: int, message: string)

  /** A JSON-RPC message; notifications and requests carry what decoding them gives. */
  datatype Message =
    | Response(id: RequestId, result: string)
    | Error(id: RequestId, error: RpcError)
    | Notification(decodedNotification: Option<string>)
    | Request(id: RequestId, name: string, decodedRequest: Option<string>)

  datatype Frame =
    | Text(message: Option<Message>)  // None: not valid JSON-RPC
    | CloseFrame(reason: Option<string>)
    | Ignored                         // binary, ping, pong, raw frame
    | TransportFailure(cause: string)
    | EndOfStream

  datatype Event =
    | ServerNotification(body: string)
    | ServerRequest(body: string)
    | Disconnected(message: string)

  datatype Write = Written | WriteFailed(error: IoError)

  // ----- The worker -----

  datatype Command =
    | RequestCommand(id: RequestId)
    | OneWayCommand          // notify, resolve or reject a server request
    | ShutdownCommand

  datatype Reply =
    | Result(result: string)
    | ServerError(error: RpcError)
    | Failed(io: IoError)
    | Completed(write: Write)

  datatype Input =
    | Accept(command: Command, write: Write)  // `write` is what the write or close returned
    | CommandChannelClosed
    | Receive(frame: Frame, reject: Write)    // `reject` is what writing a rejection returns
    | ConsumerGone

  datatype Worker = Worker(
    pending: map<RequestId, nat>,   // waiters, numbered in the order they were accepted
    accepted: seq<Command>,         // log: the commands taken from the channel
    replies: seq<seq<Reply>>,       // log: what each waiter was sent
    events: seq<Event>,             // log: sends on the event channel
    written: seq<(RequestId, int)>, // log: rejections written to the server
    consumer: bool,
    exited: bool)

  const Fresh: Worker := Worker(map[], [], [], [], [], true, false)

  const ChannelClosed: IoError := IoError(BrokenPipe, "remote app-server worker channel is closed")

  function Answer(s: Worker, w: nat, r: Reply): Worker
  {
    if w < |s.replies| then s.(replies := s.replies[w := s.replies[w] + [r]]) else s
  }

  function Take(s: Worker, c: Command): Worker
  {
    s.(accepted := s.accepted + [c], replies := s.replies + [[]])
  }

  /** Leaving the loop: every pending waiter is sent the exit error. */
  function Exit(s: Worker, e: IoError): Worker
  {
    s.(replies := seq(|s.replies|, w requires 0 <= w < |s.replies| =>
         s.replies[w] + if w in s.pending.Values then [Failed(e)] else []),
       pending := map[], exited := true)
  }

  /** `deliver_event`: unbounded, so it fails only when the consumer is gone. */
  function Deliver(s: Worker, e: Event): Worker
  {
    if s.consumer then s.(events := s.events + [e]) else s
  }

  function Disconnect(s: Worker, kind: ErrorKind, message: string): Worker
  {
    Exit(Deliver(s, Disconnected(message)), IoError(kind, message))
  }

  function WriteFailure(endpoint: string, e: IoError): string
  {
    "remote app server at `" + endpoint + "` write failed: " + e.message
  }

  function Display(id: RequestId): string
  {
    match id case StringId(t) => t case IntegerId(n) => Json.NumberText(Json.Int(n))
  }

  function DuplicateId(id: RequestId): IoError
  {
    IoError(InvalidInput, "duplicate remote app-server request id `" + Display(id) + "`")
  }

  function AcceptCommand(s: Worker, endpoint: string, c: Command, write: Write): Worker
  {
    var w := |s.accepted|;
    var t := Take(s, c);
    match c
    case RequestCommand(id) =>
      if id in s.pending then Answer(t, w, Failed(DuplicateId(id)))
      else if write.WriteFailed? then Disconnect(Answer(t, w, Failed(write.error)), BrokenPipe, WriteFailure(endpoint, write.error))
      else t.(pending := t.pending[id := w])
    case OneWayCommand => Answer(t, w, Completed(write))
    case ShutdownCommand => Exit(Answer(t, w, Completed(write)), ChannelClosed)
  }

  function Settle(s: Worker, id: RequestId, r: Reply): Worker
  {
    if id in s.pending then Answer(s, s.pending[id], r).(pending := s.pending - {id}) else s
  }

  /** What one frame asks of the worker. */
  datatype Effect =
    | Settles(id: RequestId, reply: Reply)
    | Emits(event: Event)
    | Rejects(id: RequestId)
    | Nothing
    | Ends(kind: ErrorKind, message: string)

  function EffectOf(frame: Frame, endpoint: string, reject: Write): Effect
  {
    match frame
    case Text(Some(Response(id, v))) => Settles(id, Result(v))
    case Text(Some(Error(id, e))) => Settles(id, ServerError(e))
    case Text(Some(Notification(decoded))) =>
      if decoded.Some? then Emits(ServerNotification(decoded.value)) else Nothing
    case Text(Some(Request(id, _, decoded))) =>
      if decoded.Some? then Emits(ServerRequest(decoded.value))
      else if reject.WriteFailed? then Ends(BrokenPipe, WriteFailure(endpoint, reject.error))
      else Rejects(id)
    case Text(None) => Ends(InvalidData, "remote app server at `" + endpoint + "` sent invalid JSON-RPC")
    case CloseFrame(reason) =>
      Ends(ConnectionAborted, "remote app server at `" + endpoint + "` disconnected: " + CloseReason(reason))
    case Ignored => Nothing
    case TransportFailure(cause) =>
      Ends(InvalidData, "remote app server at `" + endpoint + "` transport failed: " + cause)
    case EndOfStream => Ends(UnexpectedEof, "remote app server at `" + endpoint + "` closed the connection")
  }

  function Apply(s: Worker, effect: Effect): Worker
  {
    match effect
    case Settles(id, r) => Settle(s, id, r)
    case Emits(e) => if s.consumer then Deliver(s, e) else Exit(s, ChannelClosed)
    case Rejects(id) => s.(written := s.written + [(id, METHOD_NOT_FOUND)])
    case Nothing => s
    case Ends(kind, message) => Disconnect(s, kind, message)
  }

  function CloseReason(reason: Option<string>): string
  {
    if reason.Some? && reason.value != "" then reason.value else "connection closed"
  }

  ghost predicate Live(s: Worker)
  {
    && |s.replies| == |s.accepted|
    && (forall i :: i in s.pending ==> s.pending[i] < |s.accepted| && s.accepted[s.pending[i]] == RequestCommand(i))
  }

  function Step(s: Worker, endpoint: string, input: Input): Worker
  {
    if s.exited then s
    else
      match input
      case Accept(c, write) => AcceptCommand(s, endpoint, c, write)
      case CommandChannelClosed => Exit(s, ChannelClosed)
      case Receive(frame, reject) => Apply(s, EffectOf(frame, endpoint, reject))
      case ConsumerGone => s.(consumer := false)
  }

  function Run(s: Worker, endpoint: string, inputs: seq<Input>): Worker
    decreases inputs
  {
    if inputs == [] then s else Run(Step(s, endpoint, inputs[0]), endpoint, inputs[1..])
  }

  // ----- Every waiter is answered exactly once -----

  predicate Waiting(s: Worker, w: nat)
  {
    w in s.pending.Values
  }

  /** Each accepted waiter is pending and unanswered, or answered once and no longer pending. */
  ghost predicate OneReplyEach(s: Worker)
  {
    && Live(s)
    && (s.exited ==> s.pending == map[])
    && forall w :: 0 <= w < |s.replies| ==> |s.replies[w]| == if Waiting(s, w) then 0 else 1
  }

  lemma ExitAnswers(s: Worker, e: IoError)
    requires OneReplyEach(s)
    ensures OneReplyEach(Exit(s, e))
  {
  }

  lemma SettleAnswers(s: Worker, id: RequestId, r: Reply)
    requires OneReplyEach(s)
    ensures OneReplyEach(Settle(s, id, r))
  {
    if id in s.pending {
      var t := Settle(s, id, r);
      forall w | 0 <= w < |s.replies| ensures Waiting(t, w) <==> Waiting(s, w) && w != s.pending[id] {
        if Waiting(s, w) && w != s.pending[id] {
          var i :| i in s.pending && s.pending[i] == w;
          assert i in t.pending && t.pending[i] == w;
        }
        if Waiting(t, w) {
          var i :| i in t.pending && t.pending[i] == w;
          assert s.accepted[w] == RequestCommand(i);
        }
      }
    }
  }

  lemma TakeAnswers(s: Worker, c: Command, r: Reply)
    requires OneReplyEach(s)
    ensures OneReplyEach(Answer(Take(s, c), |s.accepted|, r))
  {
  }

  lemma RegisterAnswers(s: Worker, id: RequestId)
    requires OneReplyEach(s) && !s.exited && id !in s.pending
    ensures OneReplyEach(Take(s, RequestCommand(id)).(pending := s.pending[id := |s.accepted|]))
  {
    var w0 := |s.accepted|;
    var t := Take(s, RequestCommand(id)).(pending := s.pending[id := w0]);
    forall w | 0 <= w < |t.replies| ensures Waiting(t, w) <==> w == w0 || Waiting(s, w) {
      if Waiting(s, w) {
        var i :| i in s.pending && s.pending[i] == w;
        assert i in t.pending && t.pending[i] == w;
      }
      if w == w0 { assert id in t.pending && t.pending[id] == w; }
    }
  }

  lemma StepAnswers(s: Worker, endpoint: string, input: Input)
    requires OneReplyEach(s)
    ensures OneReplyEach(Step(s, endpoint, input))
  {
    if !s.exited {
      match input
      case Accept(c, write) => AcceptAnswers(s, endpoint, c, write);
      case CommandChannelClosed => ExitAnswers(s, ChannelClosed);
      case Receive(frame, reject) => ApplyAnswers(s, EffectOf(frame, endpoint, reject));
      case ConsumerGone =>
    }
  }

  lemma AcceptAnswers(s: Worker, endpoint: string, c: Command, write: Write)
    requires OneReplyEach(s) && !s.exited
    ensures OneReplyEach(AcceptCommand(s, endpoint, c, write))
  {
    match c
    case RequestCommand(id) =>
      if id in s.pending {
        TakeAnswers(s, c, Failed(DuplicateId(id)));
      } else if write.WriteFailed? {
        TakeAnswers(s, c, Failed(write.error));
        DisconnectAnswers(Answer(Take(s, c), |s.accepted|, Failed(write.error)), BrokenPipe, WriteFailure(endpoint, write.error));
      } else {
        RegisterAnswers(s, id);
      }
    case OneWayCommand => TakeAnswers(s, c, Completed(write));
    case ShutdownCommand =>
      TakeAnswers(s, c, Completed(write));
      ExitAnswers(Answer(Take(s, c), |s.accepted|, Completed(write)), ChannelClosed);
  }

  lemma DisconnectAnswers(s: Worker, kind: ErrorKind, message: string)
    requires OneReplyEach(s)
    ensures OneReplyEach(Disconnect(s, kind, message))
  {
    ExitAnswers(Deliver(s, Disconnected(message)), IoError(kind, message));
  }

  lemma ApplyAnswers(s: Worker, effect: Effect)
    requires OneReplyEach(s) && !s.exited
    ensures OneReplyEach(Apply(s, effect))
  {
    match effect
    case Settles(id, r) => SettleAnswers(s, id, r);
    case Emits(_) => ExitAnswers(s, ChannelClosed);
    case Ends(kind, message) => DisconnectAnswers(s, kind, message);
    case _ =>
  }

  /**
  In every run each accepted waiter has had exactly one reply, or none while it
  is still pending; when the worker has exited nothing is pending.
  */
  lemma {:induction false} EveryWaiterAnsweredOnce(s: Worker, endpoint: string, inputs: seq<Input>)
    requires OneReplyEach(s)
    ensures OneReplyEach(Run(s, endpoint, inputs))
    ensures Run(s, endpoint, inputs).exited ==>
      forall w :: 0 <= w < |Run(s, endpoint, inputs).replies| ==> |Run(s, endpoint, inputs).replies[w]| == 1
    decreases inputs
  {
    if inputs != [] {
      StepAnswers(s, endpoint, inputs[0]);
      EveryWaiterAnsweredOnce(Step(s, endpoint, inputs[0]), endpoint, inputs[1..]);
    }
  }

  // ----- Which reply -----

  /** The reply a waiter pending under `id` gets: its own response, or the exit error, whichever is first. */
  ghost function FirstAnswer(s: Worker, endpoint: string, inputs: seq<Input>, id: RequestId): seq<Reply>
    decreases inputs
  {
    if inputs == [] then []
    else
      var t := Step(s, endpoint, inputs[0]);
      if SettlesId(inputs[0], id).Some? then [SettlesId(inputs[0], id).value]
      else if t.exited then [Failed(ExitError(endpoint, inputs[0]))]
      else FirstAnswer(t, endpoint, inputs[1..], id)
  }

  /** The error an exiting input leaves for the waiters: the disconnect it reports, or the closed channel. */
  function ExitError(endpoint: string, input: Input): IoError
  {
    match input
    case Accept(RequestCommand(_), WriteFailed(e)) => IoError(BrokenPipe, WriteFailure(endpoint, e))
    case Receive(frame, reject) =>
      var effect := EffectOf(frame, endpoint, reject);
      if effect.Ends? then IoError(effect.kind, effect.message) else ChannelClosed
    case _ => ChannelClosed
  }

  ghost predicate PendingUnder(s: Worker, id: RequestId, w: nat)
  {
    OneReplyEach(s) && !s.exited && id in s.pending && s.pending[id] == w
  }

  lemma AnsweredStays(s: Worker, endpoint: string, input: Input, w: nat)
    requires OneReplyEach(s) && w < |s.replies| && !Waiting(s, w)
    ensures var t := Step(s, endpoint, input);
      OneReplyEach(t) && w < |t.replies| && t.replies[w] == s.replies[w] && !Waiting(t, w)
  {
    StepAnswers(s, endpoint, input);
    var t := Step(s, endpoint, input);
    assert w < |t.replies| && t.replies[w] == s.replies[w] by {
      if input.Receive? { ApplyLeaves(s, EffectOf(input.frame, endpoint, input.reject), w); }
    }
  }

  lemma ApplyLeaves(s: Worker, effect: Effect, w: nat)
    requires Live(s) && w < |s.replies| && !Waiting(s, w)
    ensures var t := Apply(s, effect); w < |t.replies| && t.replies[w] == s.replies[w]
  {
  }

  /** Once answered, a waiter is never answered again, whatever arrives. */
  lemma {:induction false} AnsweredForever(s: Worker, endpoint: string, inputs: seq<Input>, w: nat)
    requires OneReplyEach(s) && w < |s.replies| && !Waiting(s, w)
    ensures var t := Run(s, endpoint, inputs); w < |t.replies| && t.replies[w] == s.replies[w]
    decreases inputs
  {
    if inputs != [] {
      AnsweredStays(s, endpoint, inputs[0], w);
      AnsweredForever(Step(s, endpoint, inputs[0]), endpoint, inputs[1..], w);
    }
  }

  function SettlesId(input: Input, id: RequestId): Option<Reply>
  {
    match input
    case Receive(Text(Some(Response(i, v))), _) => if i == id then Some(Result(v)) else None
    case Receive(Text(Some(Error(i, e))), _) => if i == id then Some(ServerError(e)) else None
    case _ => None
  }

  lemma AcceptPending(s: Worker, endpoint: string, c: Command, write: Write, id: RequestId, w: nat)
    requires PendingUnder(s, id, w)
    ensures var t := AcceptCommand(s, endpoint, c, write);
      && w < |t.replies|
      && if t.exited then t.replies[w] == s.replies[w] + [Failed(ExitError(endpoint, Accept(c, write)))]
         else id in t.pending && t.pending[id] == w
  {
    assert Waiting(s, w);
  }

  lemma ApplyPending(s: Worker, effect: Effect, id: RequestId, w: nat)
    requires PendingUnder(s, id, w)
    ensures var t := Apply(s, effect);
      && w < |t.replies|
      && if effect.Settles? && effect.id == id then t.replies[w] == s.replies[w] + [effect.reply]
         else if t.exited then
           t.replies[w] == s.replies[w] + [Failed(if effect.Ends? then IoError(effect.kind, effect.message) else ChannelClosed)]
         else id in t.pending && t.pending[id] == w
  {
    assert Waiting(s, w);
  }

  /** One input: the waiter is answered by its own response, or drained, or stays pending under its id. */
  lemma StepPending(s: Worker, endpoint: string, input: Input, id: RequestId, w: nat)
    requires PendingUnder(s, id, w)
    ensures var t := Step(s, endpoint, input);
      && OneReplyEach(t) && w < |t.replies|
      && if SettlesId(input, id).Some? then t.replies[w] == [SettlesId(input, id).value]
         else if t.exited then t.replies[w] == [Failed(ExitError(endpoint, input))]
         else PendingUnder(t, id, w)
  {
    StepAnswers(s, endpoint, input);
    assert Waiting(s, w) && s.replies[w] == [];
    match input
    case Accept(c, write) => AcceptPending(s, endpoint, c, write, id, w);
    case Receive(frame, reject) => ApplyPending(s, EffectOf(frame, endpoint, reject), id, w);
    case _ =>
  }

  /** A second request under a pending id is refused and leaves the first one in place. */
  lemma DuplicateNeverDisplaces(s: Worker, endpoint: string, id: RequestId, write: Write, w: nat)
    requires PendingUnder(s, id, w)
    ensures var t := Step(s, endpoint, Accept(RequestCommand(id), write));
      && PendingUnder(t, id, w) && t.pending == s.pending && t.events == s.events
      && |t.replies| == |s.replies| + 1 && t.replies[..|s.replies|] == s.replies
      && t.replies[|s.replies|] == [Failed(DuplicateId(id))]
  {
    StepPending(s, endpoint, Accept(RequestCommand(id), write), id, w);
  }

  /** For every continuation of the run, the waiter's whole reply log is its first answer. */
  lemma {:induction false} WaiterGetsFirstAnswer(s: Worker, endpoint: string, inputs: seq<Input>, id: RequestId, w: nat)
    requires PendingUnder(s, id, w)
    ensures var t := Run(s, endpoint, inputs); w < |t.replies| && t.replies[w] == FirstAnswer(s, endpoint, inputs, id)
    decreases inputs
  {
    if inputs != [] {
      var t := Step(s, endpoint, inputs[0]);
      StepPending(s, endpoint, inputs[0], id, w);
      if PendingUnder(t, id, w) {
        WaiterGetsFirstAnswer(t, endpoint, inputs[1..], id, w);
      } else {
        assert !Waiting(t, w);
        AnsweredForever(t, endpoint, inputs[1..], w);
      }
    }
  }

  // ----- The event stream -----

  /** The event a frame stands for, whoever reads it. */
  function EventOf(frame: Frame): seq<Event>
  {
    match frame
    case Text(Some(Notification(Some(body)))) => [ServerNotification(body)]
    case Text(Some(Request(_, _, Some(body)))) => [ServerRequest(body)]
    case _ => []
  }

  function Decode(frames: seq<Frame>): seq<Event>
  {
    if frames == [] then [] else Decode(frames[..|frames| - 1]) + EventOf(frames[|frames| - 1])
  }

  lemma DecodeSnoc(frames: seq<Frame>, f: Frame)
    ensures Decode(frames + [f]) == Decode(frames) + EventOf(f)
  {
    assert (frames + [f])[..|frames|] == frames;
  }

  lemma {:induction false} DecodeConcat(a: seq<Frame>, b: seq<Frame>)
    ensures Decode(a + b) == Decode(a) + Decode(b)
  {
    if b == [] {
      assert a + b == a;
    } else {
      var init, f := b[..|b| - 1], b[|b| - 1];
      calc {
        Decode(a + b);
        { assert a + b == a + init + [f]; }
        Decode(a + init + [f]);
        { DecodeSnoc(a + init, f); }
        Decode(a + init) + EventOf(f);
        { DecodeConcat(a, init); }
        Decode(a) + Decode(init) + EventOf(f);
        { assert b == init + [f]; DecodeSnoc(init, f); }
        Decode(a) + Decode(b);
      }
    }
  }

  lemma {:induction false} DecodeNeverDisconnects(frames: seq<Frame>)
    ensures forall e :: e in Decode(frames) ==> !e.Disconnected?
  {
    if frames != [] { DecodeNeverDisconnects(frames[..|frames| - 1]); }
  }

  datatype Arrival = Arrival(frame: Frame, reject: Write)

  function FramesOf(arrivals: seq<Arrival>): (r: seq<Frame>)
    ensures |r| == |arrivals| && forall i :: 0 <= i < |arrivals| ==> r[i] == arrivals[i].frame
  {
    seq(|arrivals|, i requires 0 <= i < |arrivals| => arrivals[i].frame)
  }

  lemma DecodeNext(arrivals: seq<Arrival>, i: nat)
    requires i < |arrivals|
    ensures Decode(FramesOf(arrivals[..i + 1])) == Decode(FramesOf(arrivals[..i])) + EventOf(arrivals[i].frame)
  {
    assert FramesOf(arrivals[..i + 1]) == FramesOf(arrivals[..i]) + [arrivals[i].frame];
    DecodeSnoc(FramesOf(arrivals[..i]), arrivals[i].frame);
  }

  /** An arrival that ends the handshake: the response to initialize, or a failure. */
  predicate EndsHandshake(a: Arrival)
  {
    match a.frame
    case Text(None) => true
    case Text(Some(Response(id, _))) => id == INITIALIZE_ID
    case Text(Some(Error(id, _))) => id == INITIALIZE_ID
    case Text(Some(Notification(_))) => false
    case Text(Some(Request(_, _, decoded))) => decoded.None? && a.reject.WriteFailed?
    case Ignored => false
    case _ => true
  }

  predicate IsInitializeResponse(frame: Frame)
  {
    frame.Text? && frame.message.Some? && frame.message.value.Response? && frame.message.value.id == INITIALIZE_ID
  }

  datatype Heard = GoOn(pending: seq<Event>) | Greeted | Fails(error: IoError)

  /** One turn of the handshake loop. */
  method HearArrival(pending: seq<Event>, a: Arrival) returns (heard: Heard)
    ensures heard.GoOn? <==> !EndsHandshake(a)
    ensures heard.Greeted? <==> IsInitializeResponse(a.frame)
    ensures heard.GoOn? ==> heard.pending == pending + EventOf(a.frame)
  {
    match a.frame {
    case Text(None) => return Fails(IoError(OtherKind, "invalid initialize response"));
    case Text(Some(Response(id, _))) =>
      if id == INITIALIZE_ID { return Greeted; }
    case Text(Some(Error(id, e))) =>
      if id == INITIALIZE_ID { return Fails(IoError(OtherKind, e.message)); }
    case Text(Some(Notification(decoded))) =>
      if decoded.Some? { return GoOn(pending + [ServerNotification(decoded.value)]); }
    case Text(Some(Request(_, _, decoded))) =>
      if decoded.Some? { return GoOn(pending + [ServerRequest(decoded.value)]); }
      if a.reject.WriteFailed? { return Fails(a.reject.error); }
    case Ignored =>
    case CloseFrame(_) => return Fails(IoError(ConnectionAborted, "closed during initialize"));
    case TransportFailure(cause) => return Fails(IoError(OtherKind, cause));
    case EndOfStream => return Fails(IoError(UnexpectedEof, "closed during initialize"));
    }
    return GoOn(pending);
  }

  datatype Handshake = Ready(pending: seq<Event>, consumed: nat) | Refused(error: IoError)

  /**
  `initialize_remote_connection`.  It succeeds exactly when both writes do and
  the first arrival that ends the handshake is the initialize response; running
  out of arrivals is the timeout.  The events buffered are the decoding of what
  it read.
  */
  method InitializeRemoteConnection(arrivals: seq<Arrival>, initialize: Write, initialized: Write) returns (h: Handshake)
    ensures h.Ready? <==>
      && initialize.Written? && initialized.Written?
      && exists k :: 0 <= k < |arrivals| && IsInitializeResponse(arrivals[k].frame) && forall j :: 0 <= j < k ==> !EndsHandshake(arrivals[j])
    ensures h.Ready? ==>
      && 0 < h.consumed <= |arrivals| && IsInitializeResponse(arrivals[h.consumed - 1].frame)
      && (forall j :: 0 <= j < h.consumed - 1 ==> !EndsHandshake(arrivals[j]))
      && h.pending == Decode(FramesOf(arrivals[..h.consumed]))
  {
    if initialize.WriteFailed? { return Refused(initialize.error); }
    var pending: seq<Event> := [];
    for i := 0 to |arrivals|
      invariant pending == Decode(FramesOf(arrivals[..i]))
      invariant forall j :: 0 <= j < i ==> !EndsHandshake(arrivals[j])
    {
      DecodeNext(arrivals, i);
      var heard := HearArrival(pending, arrivals[i]);
      match heard
      case GoOn(more) => pending := more;
      case Fails(error) => return Refused(error);
      case Greeted =>
        if initialized.WriteFailed? { return Refused(initialized.error); }
        return Ready(pending, i + 1);
    }
    return Refused(IoError(OtherKind, "timed out"));
  }

  function FramesIn(inputs: seq<Input>): seq<Frame>
  {
    if inputs == [] then []
    else (if inputs[0].Receive? then [inputs[0].frame] else []) + FramesIn(inputs[1..])
  }

  /** The `Disconnected` event, if any, with which an exiting input leaves the stream. */
  function Farewell(endpoint: string, input: Input): seq<Event>
  {
    if input.Receive? || (input.Accept? && input.command.RequestCommand?)
    then [Disconnected(ExitError(endpoint, input).message)] else []
  }

  lemma ApplyEvents(s: Worker, frame: Frame, endpoint: string, reject: Write)
    requires !s.exited && s.consumer
    ensures var effect := EffectOf(frame, endpoint, reject);
      var t := Apply(s, effect);
      && t.consumer && (t.exited <==> effect.Ends?)
      && (if t.exited then EventOf(frame) == [] && t.events == s.events + [Disconnected(effect.message)]
          else t.events == s.events + EventOf(frame))
  {
  }

  lemma StepEvents(s: Worker, endpoint: string, input: Input)
    requires !s.exited && s.consumer && !input.ConsumerGone?
    ensures var t := Step(s, endpoint, input);
      && t.consumer
      && t.events == s.events + (if t.exited then Farewell(endpoint, input) else Decode(FramesIn([input])))
      && (t.exited ==> Decode(FramesIn([input])) == [])
  {
    if input.Receive? {
      ApplyEvents(s, input.frame, endpoint, input.reject);
      assert FramesIn([input]) == [] + [input.frame];
      DecodeSnoc([], input.frame);
    } else {
      assert FramesIn([input]) == [];
    }
  }

  lemma FramesCons(input: Input, inputs: seq<Input>)
    ensures FramesIn([input] + inputs) == FramesIn([input]) + FramesIn(inputs)
  {
    assert ([input] + inputs)[1..] == inputs;
  }

  /** Between `s` and `t` the stream grew by the decoding of the first `k` inputs and `tail`. */
  ghost predicate StreamGrew(s: Worker, t: Worker, endpoint: string, inputs: seq<Input>, k: nat, tail: seq<Event>)
  {
    && k <= |inputs|
    && t.events == s.events + Decode(FramesIn(inputs[..k])) + tail
    && (if t.exited then k > 0 && tail == Farewell(endpoint, inputs[k - 1]) else k == |inputs| && tail == [])
  }

  lemma StreamGrewCons(s: Worker, m: Worker, t: Worker, endpoint: string, input: Input, rest: seq<Input>, k: nat, tail: seq<Event>)
    requires m.events == s.events + Decode(FramesIn([input])) && StreamGrew(m, t, endpoint, rest, k, tail)
    ensures StreamGrew(s, t, endpoint, [input] + rest, k + 1, tail)
  {
    var first, more := FramesIn([input]), FramesIn(rest[..k]);
    FramesCons(input, rest[..k]);
    assert ([input] + rest)[..k + 1] == [input] + rest[..k];
    DecodeConcat(first, more);
    Regroup(s.events, Decode(first), Decode(more));
  }

  /**
  As long as there is a consumer, the worker's events are the in-order decoding
  of the frames it read, then at most one `Disconnected` if it has exited.
  */
  lemma {:induction false} StreamIsDecoding(s: Worker, endpoint: string, inputs: seq<Input>) returns (k: nat, tail: seq<Event>)
    requires !s.exited && s.consumer
    requires forall i :: 0 <= i < |inputs| ==> !inputs[i].ConsumerGone?
    ensures StreamGrew(s, Run(s, endpoint, inputs), endpoint, inputs, k, tail)
    decreases inputs
  {
    if inputs == [] {
      k, tail := 0, [];
    } else {
      var t, rest := Step(s, endpoint, inputs[0]), inputs[1..];
      StepEvents(s, endpoint, inputs[0]);
      assert inputs == [inputs[0]] + rest;
      if t.exited {
        ExitedStays(t, endpoint, rest);
        k, tail := 1, Farewell(endpoint, inputs[0]);
        assert inputs[..1] == [inputs[0]];
      } else {
        k, tail := StreamIsDecoding(t, endpoint, rest);
        StreamGrewCons(s, t, Run(t, endpoint, rest), endpoint, inputs[0], rest, k, tail);
        k := k + 1;
      }
    }
  }

  lemma {:induction false} ExitedStays(s: Worker, endpoint: string, inputs: seq<Input>)
    requires s.exited
    ensures Run(s, endpoint, inputs) == s
    decreases inputs
  {
    if inputs != [] { ExitedStays(s, endpoint, inputs[1..]); }
  }

  /**
  The worker's channel behind frames `h` read before it started: the decoding of
  all frames read, in order, then at most one `Disconnected`.
  */
  lemma WholeStream(h: seq<Frame>, endpoint: string, inputs: seq<Input>) returns (k: nat, tail: seq<Event>)
    requires forall i :: 0 <= i < |inputs| ==> !inputs[i].ConsumerGone?
    ensures var t := Run(Fresh, endpoint, inputs);
      && k <= |inputs| && (!t.exited ==> k == |inputs| && tail == [])
      && Decode(h) + t.events == Decode(h + FramesIn(inputs[..k])) + tail
    ensures tail == [] || (|tail| == 1 && tail[0].Disconnected?)
  {
    k, tail := StreamIsDecoding(Fresh, endpoint, inputs);
    DecodePrepend(h, FramesIn(inputs[..k]), Run(Fresh, endpoint, inputs).events, tail);
  }

  lemma DecodePrepend(h: seq<Frame>, f: seq<Frame>, events: seq<Event>, tail: seq<Event>)
    requires events == [] + Decode(f) + tail
    ensures Decode(h) + events == Decode(h + f) + tail
  {
    DecodeConcat(h, f);
    NothingBefore(Decode(f));
    Regroup(Decode(h), Decode(f), tail);
  }

  // ----- The objects -----

  lemma {:induction false} RunSnoc(s: Worker, endpoint: string, inputs: seq<Input>, input: Input)
    ensures Run(s, endpoint, inputs + [input]) == Step(Run(s, endpoint, inputs), endpoint, input)
    decreases inputs
  {
    if inputs == [] {
      assert [input][1..] == [];
    } else {
      assert (inputs + [input])[1..] == inputs[1..] + [input];
      RunSnoc(Step(s, endpoint, inputs[0]), endpoint, inputs[1..], input);
    }
  }

  class RemoteWorker {
    const endpoint: string
    var pendingRequests: map<RequestId, nat>
    var replies: seq<seq<Reply>>
    var events: seq<Event>
    var written: seq<(RequestId, int)>
    var consumer: bool
    var workerExitError: Option<IoError>
    ghost var accepted: seq<Command>
    var exited: bool

    ghost function State(): Worker
      reads this
    {
      Worker(pendingRequests, accepted, replies, events, written, consumer, exited)
    }

    constructor (endpoint: string)
      ensures State() == Fresh && this.endpoint == endpoint && workerExitError == None
    {
      this.endpoint := endpoint;
      pendingRequests, replies, events, written, consumer, workerExitError := map[], [], [], [], true, None;
      accepted, exited := [], false;
    }

    method Send(w: nat, r: Reply)
      modifies this`replies
      ensures State() == Answer(old(State()), w, r)
    {
      if w < |replies| { replies := replies[w := replies[w] + [r]]; }
    }

    method DeliverEvent(e: Event) returns (ok: bool)
      modifies this`events
      ensures ok == consumer && State() == Deliver(old(State()), e)
    {
      ok := consumer;
      if ok { events := events + [e]; }
    }

    method Report(kind: ErrorKind, message: string)
      modifies this`events, this`workerExitError
      ensures State() == Deliver(old(State()), Disconnected(message)) && workerExitError == Some(IoError(kind, message))
    {
      var _ := DeliverEvent(Disconnected(message));
      workerExitError := Some(IoError(kind, message));
    }

    ghost function ExitReason(): IoError
      reads this
    {
      if workerExitError.Some? then workerExitError.value else ChannelClosed
    }

    /** `this` has stopped on the way from `s` to `t`: draining it gives `t`. */
    ghost predicate Ends(stop: bool, t: Worker)
      reads this
    {
      && stop == t.exited && !exited && (!stop ==> workerExitError == None)
      && (if stop then OneReplyEach(State()) && Exit(State(), ExitReason()) == t else State() == t)
    }

    method OnRequest(id: RequestId, write: Write) returns (stop: bool)
      requires OneReplyEach(State()) && !exited && workerExitError == None
      modifies this
      ensures Ends(stop, AcceptCommand(old(State()), endpoint, RequestCommand(id), write))
    {
      ghost var s := State();
      var w := |replies|;
      replies, accepted := replies + [[]], accepted + [RequestCommand(id)];
      if id in pendingRequests {
        Send(w, Failed(DuplicateId(id)));
        return false;
      }
      if write.WriteFailed? {
        Send(w, Failed(write.error));
        TakeAnswers(s, RequestCommand(id), Failed(write.error));
        Report(BrokenPipe, WriteFailure(endpoint, write.error));
        return true;
      }
      pendingRequests := pendingRequests[id := w];
      return false;
    }

    /** The command branch of the `select!`; `stop` is its `break`. */
    method OnCommand(c: Command, write: Write) returns (stop: bool)
      requires OneReplyEach(State()) && !exited && workerExitError == None
      modifies this
      ensures Ends(stop, AcceptCommand(old(State()), endpoint, c, write))
    {
      ghost var s := State();
      if c.RequestCommand? {
        stop := OnRequest(c.id, write);
        return;
      }
      var w := |replies|;
      replies, accepted := replies + [[]], accepted + [c];
      Send(w, Completed(write));
      TakeAnswers(s, c, Completed(write));
      stop := c.ShutdownCommand?;
    }

    method SettleRequest(id: RequestId, r: Reply)
      modifies this`pendingRequests, this`replies
      ensures State() == Settle(old(State()), id, r)
    {
      if id in pendingRequests {
        Send(pendingRequests[id], r);
        pendingRequests := pendingRequests - {id};
      }
    }

    method OnEvent(e: Event) returns (stop: bool)
      requires OneReplyEach(State()) && !exited && workerExitError == None
      modifies this
      ensures Ends(stop, Apply(old(State()), Emits(e)))
    {
      var ok := DeliverEvent(e);
      stop := !ok;
    }

    method OnDisconnect(kind: ErrorKind, message: string) returns (stop: bool)
      requires OneReplyEach(State()) && !exited && workerExitError == None
      modifies this
      ensures Ends(stop, Disconnect(old(State()), kind, message))
    {
      Report(kind, message);
      stop := true;
    }

    /** The message branch of the `select!`; `stop` is its `break`. */
    method OnFrame(frame: Frame, reject: Write) returns (stop: bool)
      requires OneReplyEach(State()) && !exited && workerExitError == None
      modifies this
      ensures Ends(stop, Apply(old(State()), EffectOf(frame, endpoint, reject)))
    {
      stop := false;
      match frame
      case Text(Some(Response(id, v))) => SettleRequest(id, Result(v));
      case Text(Some(Error(id, e))) => SettleRequest(id, ServerError(e));
      case Text(Some(Notification(decoded))) =>
        if decoded.Some? { stop := OnEvent(ServerNotification(decoded.value)); }
      case Text(Some(Request(id, _, decoded))) =>
        if decoded.Some? {
          stop := OnEvent(ServerRequest(decoded.value));
        } else if reject.WriteFailed? {
          stop := OnDisconnect(BrokenPipe, WriteFailure(endpoint, reject.error));
        } else {
          written := written + [(id, METHOD_NOT_FOUND)];
        }
      case Ignored =>
      case _ =>
        var effect := EffectOf(frame, endpoint, reject);
        stop := OnDisconnect(effect.kind, effect.message);
    }

    /** After the loop. */
    method Drain()
      requires OneReplyEach(State()) && !exited
      modifies this`replies, this`pendingRequests, this`exited
      ensures State() == Exit(old(State()), ExitReason())
    {
      var e := if workerExitError.Some? then workerExitError.value else ChannelClosed;
      replies := DrainPending(pendingRequests, replies, e, State());
      pendingRequests, exited := map[], true;
    }

    method OnInput(input: Input) returns (stop: bool)
      requires OneReplyEach(State()) && !exited && workerExitError == None
      modifies this
      ensures State() == Step(old(State()), endpoint, input) && OneReplyEach(State())
      ensures exited == stop && (!stop ==> workerExitError == None)
    {
      StepAnswers(State(), endpoint, input);
      stop := false;
      match input {
        case Accept(c, write) => stop := OnCommand(c, write);
        case CommandChannelClosed => stop := true;
        case Receive(frame, reject) => stop := OnFrame(frame, reject);
        case ConsumerGone => consumer := false;
      }
      if stop { Drain(); }
    }
  }

  /** `m` holds the waiters still to be drained; the others of `s` have been sent `e`. */
  ghost predicate PartlyDrained(s: Worker, replies: seq<seq<Reply>>, m: map<RequestId, nat>, e: IoError)
  {
    && Live(s) && |replies| == |s.replies|
    && (forall id :: id in m ==> id in s.pending && m[id] == s.pending[id])
    && forall w :: 0 <= w < |replies| ==>
         replies[w] == s.replies[w] + if w in s.pending.Values && w !in m.Values then [Failed(e)] else []
  }

  lemma FullyDrained(s: Worker, replies: seq<seq<Reply>>, e: IoError)
    requires PartlyDrained(s, replies, map[], e)
    ensures Exit(s, e) == s.(replies := replies, pending := map[], exited := true)
  {
    assert forall w :: 0 <= w < |replies| ==> replies[w] == Exit(s, e).replies[w];
  }

  /** Draining one id answers exactly its own waiter. */
  lemma DrainOne(s: Worker, replies: seq<seq<Reply>>, m: map<RequestId, nat>, id: RequestId, e: IoError)
    requires PartlyDrained(s, replies, m, e) && id in m
    ensures m[id] < |replies|
    ensures PartlyDrained(s, replies[m[id] := replies[m[id]] + [Failed(e)]], m - {id}, e) && |m - {id}| < |m|
  {
    RemoveValue(s, m, id);
    var w0 := m[id];
    var r, m' := replies[w0 := replies[w0] + [Failed(e)]], m - {id};
    assert w0 in m.Values && w0 in s.pending.Values;
    forall w | 0 <= w < |r|
      ensures r[w] == s.replies[w] + if w in s.pending.Values && w !in m'.Values then [Failed(e)] else []
    {
      assert w in m'.Values <==> w in m.Values && w != w0;
    }
  }

  /** Every pending waiter is sent the exit error; the map is drained in no particular order. */
  method DrainPending(pending: map<RequestId, nat>, replies: seq<seq<Reply>>, e: IoError, ghost s: Worker) returns (r: seq<seq<Reply>>)
    requires Live(s) && s.pending == pending && s.replies == replies
    ensures Exit(s, e) == s.(replies := r, pending := map[], exited := true)
  {
    r := replies;
    var m := pending;
    while m != map[]
      invariant PartlyDrained(s, r, m, e)
      decreases |m|
    {
      var id :| id in m;
      DrainOne(s, r, m, id, e);
      r := r[m[id] := r[m[id]] + [Failed(e)]];
      m := m - {id};
    }
    FullyDrained(s, r, e);
  }

  lemma RemoveValue(s: Worker, m: map<RequestId, nat>, id: RequestId)
    requires Live(s) && id in m && forall i :: i in m ==> i in s.pending && m[i] == s.pending[i]
    ensures (m - {id}).Values == m.Values - {m[id]} && |m - {id}| < |m|
  {
    forall w | w in m.Values && w != m[id] ensures w in (m - {id}).Values {
      var i :| i in m && m[i] == w;
      assert i in m - {id} && (m - {id})[i] == w;
    }
    forall w | w in (m - {id}).Values ensures w != m[id] {
      var i :| i in m - {id} && (m - {id})[i] == w;
      assert s.accepted[m[i]] == RequestCommand(i) && s.accepted[m[id]] == RequestCommand(id);
    }
    assert (m - {id}).Keys == m.Keys - {id};
    assert |(m - {id}).Keys| < |m.Keys|;
  }

  lemma {:induction false} RunConcat(s: Worker, endpoint: string, a: seq<Input>, b: seq<Input>)
    ensures Run(s, endpoint, a + b) == Run(Run(s, endpoint, a), endpoint, b)
    decreases a
  {
    if a == [] {
      assert a + b == b;
    } else {
      assert (a + b)[1..] == a[1..] + b;
      RunConcat(Step(s, endpoint, a[0]), endpoint, a[1..], b);
    }
  }

  lemma RunAfterExit(endpoint: string, inputs: seq<Input>, i: nat)
    requires i <= |inputs| && Run(Fresh, endpoint, inputs[..i]).exited
    ensures Run(Fresh, endpoint, inputs) == Run(Fresh, endpoint, inputs[..i])
  {
    RunConcat(Fresh, endpoint, inputs[..i], inputs[i..]);
    assert inputs == inputs[..i] + inputs[i..];
    ExitedStays(Run(Fresh, endpoint, inputs[..i]), endpoint, inputs[i..]);
  }

  /** The whole worker task: the loop, then the drain. */
  method RunWorker(endpoint: string, inputs: seq<Input>) returns (worker: RemoteWorker)
    ensures fresh(worker) && worker.State() == Run(Fresh, endpoint, inputs) && OneReplyEach(worker.State())
  {
    worker := new RemoteWorker(endpoint);
    var i, stop := 0, false;
    while i < |inputs| && !stop
      invariant 0 <= i <= |inputs| && fresh(worker) && worker.endpoint == endpoint
      invariant worker.State() == Run(Fresh, endpoint, inputs[..i])
      invariant OneReplyEach(worker.State()) && worker.exited == stop && (!stop ==> worker.workerExitError == None)
      decreases |inputs| - i
    {
      RunSnoc(Fresh, endpoint, inputs[..i], inputs[i]);
      assert inputs[..i + 1] == inputs[..i] + [inputs[i]];
      stop := worker.OnInput(inputs[i]);
      i := i + 1;
    }
    if stop { RunAfterExit(endpoint, inputs, i); } else { assert inputs[..i] == inputs; }
  }
}
