/** Exactly what each frame and each command does to the worker: what ends it, who is told what, and what is left alone. */
module RemoteExits {
  import opened Common
  import opened RemoteClient
  import Json

  // ----- Frames -----

  /** The frames that end the worker. */
  predicate Fatal(f: Frame, reject: Write)
  {
    || f.CloseFrame? || f.TransportFailure? || f.EndOfStream? || f == Text(None)
    || (f.Text? && f.message.Some? && f.message.value.Request? && f.message.value.decodedRequest.None? && reject.WriteFailed?)
  }

  /** The error they leave behind. */
  function FatalError(endpoint: string, f: Frame, reject: Write): IoError
    requires Fatal(f, reject)
  {
    var who := "remote app server at `" + endpoint;
    match f
    case CloseFrame(reason) =>
      var text := if reason.Some? && reason.value != "" then reason.value else "connection closed";
      IoError(ConnectionAborted, who + "` disconnected: " + text)
    case TransportFailure(cause) => IoError(InvalidData, who + "` transport failed: " + cause)
    case EndOfStream => IoError(UnexpectedEof, who + "` closed the connection")
    case Text(None) => IoError(InvalidData, who + "` sent invalid JSON-RPC")
    case Text(Some(_)) => IoError(BrokenPipe, who + "` write failed: " + reject.error.message)
  }

  /** Frames that carry something for the consumer. */
  function Carries(f: Frame): Option<Event>
  {
    match f
    case Text(Some(Notification(Some(body)))) => Some(ServerNotification(body))
    case Text(Some(Request(_, _, Some(body)))) => Some(ServerRequest(body))
    case _ => None
  }

  lemma EffectIsFatal(f: Frame, endpoint: string, reject: Write)
    ensures EffectOf(f, endpoint, reject).Ends? <==> Fatal(f, reject)
    ensures Fatal(f, reject) ==>
      var e := FatalError(endpoint, f, reject); EffectOf(f, endpoint, reject) == Ends(e.kind, e.message)
  {
  }

  /** A live worker exits on a frame exactly when the frame is fatal, or has something for a consumer that is gone. */
  lemma ReceiveExitsIff(s: Worker, endpoint: string, f: Frame, reject: Write)
    requires !s.exited
    ensures Step(s, endpoint, Receive(f, reject)).exited <==> Fatal(f, reject) || (Carries(f).Some? && !s.consumer)
  {
    EffectIsFatal(f, endpoint, reject);
  }

  /** Every pending waiter's whole log becomes this one error, and nobody else's log changes. */
  ghost predicate AllTold(s: Worker, t: Worker, e: IoError)
  {
    && t.exited && t.pending == map[] && |t.replies| == |s.replies|
    && (forall w :: 0 <= w < |s.replies| && w !in s.pending.Values ==> t.replies[w] == s.replies[w])
    && forall id :: id in s.pending && s.pending[id] < |s.replies| ==> t.replies[s.pending[id]] == [Failed(e)]
  }

  lemma ExitTells(s: Worker, e: IoError)
    requires OneReplyEach(s)
    ensures AllTold(s, Exit(s, e), e)
  {
    forall id | id in s.pending && s.pending[id] < |s.replies| ensures Exit(s, e).replies[s.pending[id]] == [Failed(e)] {
      assert s.pending[id] in s.pending.Values;
      assert s.replies[s.pending[id]] == [];
    }
  }

  /** What a fatal frame does, in full. */
  lemma FatalFrame(s: Worker, endpoint: string, f: Frame, reject: Write)
    requires !s.exited && s.consumer && OneReplyEach(s) && Fatal(f, reject)
    ensures var t, e := Step(s, endpoint, Receive(f, reject)), FatalError(endpoint, f, reject);
      && AllTold(s, t, e)
      && t.events == s.events + [Disconnected(e.message)]
      && t.accepted == s.accepted && t.written == s.written && t.consumer
  {
    EffectIsFatal(f, endpoint, reject);
    var e := FatalError(endpoint, f, reject);
    ExitTells(Deliver(s, Disconnected(e.message)), e);
  }

  /** What any other frame does: at most one waiter is answered, one event sent or one rejection written. */
  lemma OtherFrame(s: Worker, endpoint: string, f: Frame, reject: Write)
    requires !s.exited && s.consumer && !Fatal(f, reject)
    ensures var t := Step(s, endpoint, Receive(f, reject));
      match f
      case Text(Some(Response(id, v))) =>
        if id in s.pending && s.pending[id] < |s.replies| then
          t == s.(pending := s.pending - {id}, replies := s.replies[s.pending[id] := s.replies[s.pending[id]] + [Result(v)]])
        else t == s.(pending := s.pending - {id})
      case Text(Some(Error(id, e))) =>
        if id in s.pending && s.pending[id] < |s.replies| then
          t == s.(pending := s.pending - {id}, replies := s.replies[s.pending[id] := s.replies[s.pending[id]] + [ServerError(e)]])
        else t == s.(pending := s.pending - {id})
      case Text(Some(Notification(Some(body)))) => t == s.(events := s.events + [ServerNotification(body)])
      case Text(Some(Request(_, _, Some(body)))) => t == s.(events := s.events + [ServerRequest(body)])
      case Text(Some(Request(id, _, None))) => t == s.(written := s.written + [(id, -32601)])
      case _ => t == s
  {
    match f
    case Text(Some(Response(id, _))) => assert id !in s.pending ==> s.pending - {id} == s.pending;
    case Text(Some(Error(id, _))) => assert id !in s.pending ==> s.pending - {id} == s.pending;
    case _ =>
  }

  // ----- Commands -----

  /** The commands that end the worker: a shutdown, and a new request that cannot be written. */
  predicate Final(s: Worker, c: Command, write: Write)
  {
    c.ShutdownCommand? || (c.RequestCommand? && c.id !in s.pending && write.WriteFailed?)
  }

  lemma CommandExitsIff(s: Worker, endpoint: string, c: Command, write: Write)
    requires !s.exited
    ensures Step(s, endpoint, Accept(c, write)).exited <==> Final(s, c, write)
  {
  }

  lemma TakeThenAnswer(s: Worker, c: Command, r: Reply)
    requires |s.replies| == |s.accepted|
    ensures Answer(Take(s, c), |s.accepted|, r).replies == s.replies + [[r]]
  {
    NothingBefore([r]);
  }

  /** A request that is written becomes the waiter under its id; one that is not is told why, and everybody else that the connection is lost. */
  lemma NewRequest(s: Worker, endpoint: string, id: RequestId, write: Write)
    requires !s.exited && s.consumer && OneReplyEach(s) && id !in s.pending
    ensures var t := Step(s, endpoint, Accept(RequestCommand(id), write));
      if write.Written? then
        && !t.exited && t.pending == s.pending[id := |s.replies|] && t.replies == s.replies + [[]] && t.events == s.events
      else
        var lost := IoError(BrokenPipe, "remote app server at `" + endpoint + "` write failed: " + write.error.message);
        && t.exited && |t.replies| == |s.replies| + 1 && t.replies[|s.replies|] == [Failed(write.error)]
        && t.events == s.events + [Disconnected(lost.message)]
        && (forall other :: other in s.pending && s.pending[other] < |s.replies| ==> t.replies[s.pending[other]] == [Failed(lost)])
  {
    if write.WriteFailed? {
      var lost := IoError(BrokenPipe, WriteFailure(endpoint, write.error));
      var told := Answer(Take(s, RequestCommand(id)), |s.accepted|, Failed(write.error));
      TakeAnswers(s, RequestCommand(id), Failed(write.error));
      ExitTells(Deliver(told, Disconnected(lost.message)), lost);
      TakeThenAnswer(s, RequestCommand(id), Failed(write.error));
    }
  }

  /** A request under an id that is pending is told so, by that id. */
  lemma DuplicateTold(s: Worker, endpoint: string, id: RequestId, write: Write, text: string)
    requires !s.exited && OneReplyEach(s) && id in s.pending
    requires match id case StringId(t) => text == t case IntegerId(n) => n >= 0 && text == Json.Decimal(n)
    ensures var t := Step(s, endpoint, Accept(RequestCommand(id), write));
      && !t.exited && t.pending == s.pending && t.events == s.events
      && t.replies == s.replies + [[Failed(IoError(InvalidInput, "duplicate remote app-server request id `" + text + "`"))]]
  {
    TakeThenAnswer(s, RequestCommand(id), Failed(DuplicateId(id)));
  }

  /** A one-way command is answered with its write, a shutdown with its close; the shutdown then tells the rest. */
  lemma PlainCommand(s: Worker, endpoint: string, c: Command, write: Write)
    requires !s.exited && OneReplyEach(s) && !c.RequestCommand?
    ensures var t := Step(s, endpoint, Accept(c, write));
      && |t.replies| == |s.replies| + 1 && t.replies[|s.replies|] == [Completed(write)] && t.events == s.events
      && (c.OneWayCommand? ==> !t.exited && t.pending == s.pending && t.replies[..|s.replies|] == s.replies)
      && (c.ShutdownCommand? ==> t.exited && forall id :: id in s.pending && s.pending[id] < |s.replies| ==>
            t.replies[s.pending[id]] == [Failed(IoError(BrokenPipe, "remote app-server worker channel is closed"))])
  {
    var told := Answer(Take(s, c), |s.accepted|, Completed(write));
    TakeAnswers(s, c, Completed(write));
    TakeThenAnswer(s, c, Completed(write));
    ExitTells(told, ChannelClosed);
  }

  // ----- Whole runs -----

  /** This input ends a worker in state `s`. */
  predicate EndsWorker(s: Worker, input: Input)
  {
    match input
    case Accept(c, write) => Final(s, c, write)
    case CommandChannelClosed => true
    case Receive(f, reject) => Fatal(f, reject) || (Carries(f).Some? && !s.consumer)
    case ConsumerGone => false
  }

  lemma StepExitsIff(s: Worker, endpoint: string, input: Input)
    requires !s.exited
    ensures Step(s, endpoint, input).exited <==> EndsWorker(s, input)
  {
    match input
    case Accept(c, write) => CommandExitsIff(s, endpoint, c, write);
    case Receive(f, reject) => ReceiveExitsIff(s, endpoint, f, reject);
    case _ =>
  }

  /** Over every run: the worker has exited exactly when some input met an ending condition. */
  lemma {:induction false} RunExitsIff(s: Worker, endpoint: string, inputs: seq<Input>)
    requires !s.exited
    ensures Run(s, endpoint, inputs).exited <==>
      exists i :: 0 <= i < |inputs| && EndsWorker(Run(s, endpoint, inputs[..i]), inputs[i]) && !Run(s, endpoint, inputs[..i]).exited
    decreases |inputs|
  {
    if inputs != [] {
      var n := |inputs| - 1;
      var before := Run(s, endpoint, inputs[..n]);
      RunExitsIff(s, endpoint, inputs[..n]);
      RunSnoc(s, endpoint, inputs[..n], inputs[n]);
      assert inputs == inputs[..n] + [inputs[n]];
      assert forall i :: 0 <= i < n ==> inputs[..n][..i] == inputs[..i] && inputs[..n][i] == inputs[i];
      if before.exited {
        var i :| 0 <= i < n && EndsWorker(Run(s, endpoint, inputs[..n][..i]), inputs[..n][i]) && !Run(s, endpoint, inputs[..n][..i]).exited;
        assert EndsWorker(Run(s, endpoint, inputs[..i]), inputs[i]);
      } else {
        StepExitsIff(before, endpoint, inputs[n]);
      }
    }
  }

  // ----- The handshake -----

  /** What the handshake loop stops at, spelled out. */
  lemma HandshakeStopsAt(a: Arrival)
    ensures EndsHandshake(a) <==>
      || a.frame.CloseFrame? || a.frame.TransportFailure? || a.frame.EndOfStream? || a.frame == Text(None)
      || (a.frame.Text? && a.frame.message.Some? &&
          match a.frame.message.value
          case Response(id, _) => id == StringId("initialize")
          case Error(id, _) => id == StringId("initialize")
          case Request(_, _, decoded) => decoded.None? && a.reject.WriteFailed?
          case Notification(_) => false)
  {
  }
}
