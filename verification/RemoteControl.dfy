/**
Enabling remote control over the control socket: the enable request, then a
wait for the connection status to settle.

The stream is a sequence of ticks: whether the ready deadline has passed when
the loop looks at the clock, and what the next read returns.  A stream that
ends is silence, so the next read times out.
*/
module RemoteControl {
  import opened Common

  datatype ConnectionStatus = Disabled | Connecting | Connected | Errored

  datatype ReadyStatus = ReadyStatus(status: ConnectionStatus, server: string, environment: Option<string>, timedOut: bool)

  datatype Message =
    | EnableResponse(report: Option<ReadyStatus>)  // None: the result does not parse
    | EnableError
    | StatusChanged(report: Option<ReadyStatus>)   // None: another notification, or one that does not parse
    | OtherMessage

  datatype Read = Got(message: Message) | ReadFailed | ReadTimedOut

  datatype Tick = Tick(late: bool, read: Read)

  datatype Outcome = Ok(value: ReadyStatus) | Err

  /** Statuses come off the wire with the flag unset. */
  function Fresh(r: ReadyStatus): ReadyStatus
  {
    r.(timedOut := false)
  }

  // ----- The two loops -----

  /** A read after which `read_enable_response` returns. */
  predicate EndsEnable(t: Tick)
  {
    !t.read.Got? || t.read.message.EnableResponse? || t.read.message.EnableError?
  }

  /** Where the enable response loop stops; the length if it never does. */
  function EnableEnd(ticks: seq<Tick>): (k: nat)
    ensures k <= |ticks| && (k < |ticks| ==> EndsEnable(ticks[k])) && forall i :: 0 <= i < k ==> !EndsEnable(ticks[i])
  {
    if ticks == [] || EndsEnable(ticks[0]) then 0 else 1 + EnableEnd(ticks[1..])
  }

  /** The status the enable response carries, if the loop ends with a good one. */
  function EnableReport(ticks: seq<Tick>): Option<ReadyStatus>
  {
    var k := EnableEnd(ticks);
    if k < |ticks| && ticks[k].read.Got? && ticks[k].read.message.EnableResponse? then ticks[k].read.message.report else None
  }

  /** `read_enable_response`: skips everything else, status notifications included. */
  method ReadEnableResponse(ticks: seq<Tick>) returns (r: Outcome, consumed: nat)
    ensures r == if EnableReport(ticks).Some? then Ok(Fresh(EnableReport(ticks).value)) else Err
    ensures r.Ok? ==> consumed == EnableEnd(ticks) + 1 <= |ticks|
  {
    var i := 0;
    while i < |ticks|
      invariant 0 <= i <= |ticks| && EnableEnd(ticks) >= i
    {
      consumed := i + 1;
      if !ticks[i].read.Got? { return Err, consumed; }
      match ticks[i].read.message {
        case EnableResponse(report) =>
          if report.None? { return Err, consumed; }
          return Ok(Fresh(report.value)), consumed;
        case EnableError => return Err, consumed;
        case StatusChanged(_) =>
        case OtherMessage =>
      }
      i := i + 1;
    }
    return Err, i;
  }

  /** The statuses notified on time, up to the end of the wait. */
  function Notified(ticks: seq<Tick>): seq<ReadyStatus>
  {
    if ticks == [] || ticks[0].late || !ticks[0].read.Got? then []
    else
      var m := ticks[0].read.message;
      (if m.StatusChanged? && m.report.Some? then [Fresh(m.report.value)] else []) + Notified(ticks[1..])
  }

  /** The wait ran into a read error rather than the deadline. */
  predicate Fails(ticks: seq<Tick>)
  {
    ticks != [] && !ticks[0].late && (ticks[0].read.ReadFailed? || (ticks[0].read.Got? && Fails(ticks[1..])))
  }

  function FirstSettled(statuses: seq<ReadyStatus>): Option<ReadyStatus>
  {
    if statuses == [] then None
    else if statuses[0].status != Connecting then Some(statuses[0])
    else FirstSettled(statuses[1..])
  }

  /** The first settled status notified in time; else a read error, or the latest status marked as timed out. */
  function WaitResult(latest: ReadyStatus, ticks: seq<Tick>): Outcome
  {
    var n := Notified(ticks);
    if FirstSettled(n).Some? then Ok(FirstSettled(n).value)
    else if Fails(ticks) then Err
    else Ok((if n == [] then latest else n[|n| - 1]).(timedOut := true))
  }

  /** `wait_for_remote_control_status`. */
  method WaitForStatus(initial: ReadyStatus, ticks: seq<Tick>) returns (r: Outcome)
    requires initial.status == Connecting
    ensures r == WaitResult(initial, ticks)
  {
    var latest := initial;
    var i := 0;
    while i < |ticks|
      invariant 0 <= i <= |ticks| && latest.status == Connecting
      invariant WaitResult(latest, ticks[i..]) == WaitResult(initial, ticks)
    {
      assert ticks[i..][1..] == ticks[i + 1..];
      WaitStep(latest, ticks[i..]);
      var tick := ticks[i];
      i := i + 1;
      if tick.late || tick.read.ReadTimedOut? { return Ok(latest.(timedOut := true)); }
      if tick.read.ReadFailed? { return Err; }
      if tick.read.message.StatusChanged? && tick.read.message.report.Some? {
        latest := Fresh(tick.read.message.report.value);
        if latest.status != Connecting { return Ok(latest); }
      }
    }
    return Ok(latest.(timedOut := true));
  }

  lemma WaitStep(latest: ReadyStatus, ticks: seq<Tick>)
    requires ticks != []
    ensures WaitResult(latest, ticks) ==
      if ticks[0].late || ticks[0].read.ReadTimedOut? then Ok(latest.(timedOut := true))
      else if ticks[0].read.ReadFailed? then Err
      else if ticks[0].read.message.StatusChanged? && ticks[0].read.message.report.Some? then
        var s := Fresh(ticks[0].read.message.report.value);
        if s.status != Connecting then Ok(s) else WaitResult(s, ticks[1..])
      else WaitResult(latest, ticks[1..])
  {
    var n, rest := Notified(ticks), Notified(ticks[1..]);
    if !ticks[0].late && ticks[0].read.Got? {
      var m := ticks[0].read.message;
      if m.StatusChanged? && m.report.Some? {
        assert n == [Fresh(m.report.value)] + rest;
        assert n[1..] == rest;
      } else {
        assert n == rest;
      }
    }
  }

  /** `enable_remote_control_with_timeout`, after the handshake. */
  method EnableRemoteControl(ticks: seq<Tick>) returns (r: Outcome)
    ensures r == Enable(ticks)
  {
    var consumed;
    r, consumed := ReadEnableResponse(ticks);
    if r.Ok? && r.value.status == Connecting {
      r := WaitForStatus(r.value, ticks[consumed..]);
    }
  }

  function Enable(ticks: seq<Tick>): Outcome
  {
    if EnableReport(ticks).None? then Err
    else
      var first := Fresh(EnableReport(ticks).value);
      if first.status != Connecting then Ok(first) else WaitResult(first, ticks[EnableEnd(ticks) + 1..])
  }

  // ----- What an Ok result means -----

  /** The statuses from the enable response onward, in order. */
  function Statuses(ticks: seq<Tick>): seq<ReadyStatus>
    requires EnableReport(ticks).Some?
  {
    [Fresh(EnableReport(ticks).value)] + Notified(ticks[EnableEnd(ticks) + 1..])
  }

  lemma {:induction false} SettledIsFirst(statuses: seq<ReadyStatus>)
    ensures FirstSettled(statuses).None? <==> forall i :: 0 <= i < |statuses| ==> statuses[i].status == Connecting
    ensures FirstSettled(statuses).Some? ==>
      exists i :: 0 <= i < |statuses| && FirstSettled(statuses).value == statuses[i] && statuses[i].status != Connecting &&
        forall k :: 0 <= k < i ==> statuses[k].status == Connecting
  {
    if statuses != [] && statuses[0].status == Connecting {
      SettledIsFirst(statuses[1..]);
      if FirstSettled(statuses).Some? {
        var i :| 0 <= i < |statuses[1..]| && FirstSettled(statuses).value == statuses[1..][i] && statuses[1..][i].status != Connecting &&
          forall k :: 0 <= k < i ==> statuses[1..][k].status == Connecting;
        assert statuses[i + 1] == statuses[1..][i];
        forall k | 0 <= k < i + 1 ensures statuses[k].status == Connecting {
          if k > 0 { assert statuses[1..][k - 1].status == Connecting; }
        }
      }
    }
  }

  lemma {:induction false} NotifiedFresh(ticks: seq<Tick>)
    ensures forall i :: 0 <= i < |Notified(ticks)| ==> !Notified(ticks)[i].timedOut
  {
    if ticks != [] { NotifiedFresh(ticks[1..]); }
  }

  /**
  For every message stream and clock: an Ok result has timed out exactly when
  its status is Connecting; otherwise it is the first settled status from the
  enable response onward.
  */
  lemma OkMeansSettledOrTimedOut(ticks: seq<Tick>)
    requires Enable(ticks).Ok?
    ensures EnableReport(ticks).Some?
    ensures var r, all := Enable(ticks).value, Statuses(ticks);
      && (r.timedOut <==> r.status == Connecting)
      && (if FirstSettled(all).Some? then r == FirstSettled(all).value else r == all[|all| - 1].(timedOut := true))
  {
    var first, rest := Fresh(EnableReport(ticks).value), ticks[EnableEnd(ticks) + 1..];
    var n := Notified(rest);
    NotifiedFresh(rest);
    SettledIsFirst(n);
    assert Statuses(ticks)[1..] == n;
  }

  /** Nothing received before the enable response has any influence on the result. */
  lemma EarlierMessagesIgnored(before: seq<Tick>, ticks: seq<Tick>)
    requires forall i :: 0 <= i < |before| ==> !EndsEnable(before[i])
    ensures Enable(before + ticks) == Enable(ticks)
  {
    EnableEndAfter(before, ticks);
    var all := before + ticks;
    if EnableEnd(ticks) < |ticks| {
      assert all[EnableEnd(all)] == ticks[EnableEnd(ticks)];
      assert all[EnableEnd(all) + 1..] == ticks[EnableEnd(ticks) + 1..];
    }
  }

  lemma {:induction false} EnableEndAfter(before: seq<Tick>, ticks: seq<Tick>)
    requires forall i :: 0 <= i < |before| ==> !EndsEnable(before[i])
    ensures EnableEnd(before + ticks) == |before| + EnableEnd(ticks)
  {
    if before == [] {
      assert before + ticks == ticks;
    } else {
      EnableEndAfter(before[1..], ticks);
      assert (before + ticks)[1..] == before[1..] + ticks;
    }
  }

  // ----- Exactly which result -----

  /** Messages that the enable loop passes over. */
  predicate Skipped(t: Tick)
  {
    t.read.Got? && (t.read.message.StatusChanged? || t.read.message.OtherMessage?)
  }

  /** The enable response at `k` is the first message that is not passed over, and it parses. */
  predicate RepliedAt(ticks: seq<Tick>, k: nat, r: ReadyStatus)
  {
    && k < |ticks| && ticks[k].read == Got(EnableResponse(Some(r)))
    && forall j :: 0 <= j < k ==> Skipped(ticks[j])
  }

  lemma RepliedIff(ticks: seq<Tick>, k: nat, r: ReadyStatus)
    ensures RepliedAt(ticks, k, r) <==> EnableReport(ticks) == Some(r) && EnableEnd(ticks) == k
  {
    var end := EnableEnd(ticks);
    if RepliedAt(ticks, k, r) {
      assert EndsEnable(ticks[k]);
      assert end < k ==> Skipped(ticks[end]);
    }
    if EnableReport(ticks) == Some(r) && end == k {
      forall j | 0 <= j < k ensures Skipped(ticks[j]) { assert !EndsEnable(ticks[j]); }
    }
  }

  /** Where the wait stops reading: the deadline has passed, a read times out, or a read fails. */
  function WaitEnd(ticks: seq<Tick>): (k: nat)
    ensures k <= |ticks| && (k < |ticks| ==> ticks[k].late || !ticks[k].read.Got?)
    ensures forall j :: 0 <= j < k ==> !ticks[j].late && ticks[j].read.Got?
  {
    if ticks == [] || ticks[0].late || !ticks[0].read.Got? then 0 else 1 + WaitEnd(ticks[1..])
  }

  /** The statuses notified in a stretch of messages. */
  function Reports(ticks: seq<Tick>): seq<ReadyStatus>
  {
    if ticks == [] then []
    else
      var m := ticks[0].read;
      (if m.Got? && m.message.StatusChanged? && m.message.report.Some? then [m.message.report.value.(timedOut := false)] else [])
      + Reports(ticks[1..])
  }

  /** What counts as notified is what comes before the wait stops, and the wait fails exactly when it stops at a failed read in time. */
  lemma {:induction false} NotifiedInTime(ticks: seq<Tick>)
    ensures Notified(ticks) == Reports(ticks[..WaitEnd(ticks)])
    ensures Fails(ticks) <==> WaitEnd(ticks) < |ticks| && !ticks[WaitEnd(ticks)].late && ticks[WaitEnd(ticks)].read.ReadFailed?
    decreases |ticks|
  {
    if ticks != [] && !ticks[0].late && ticks[0].read.Got? {
      NotifiedInTime(ticks[1..]);
      var k := WaitEnd(ticks);
      assert ticks[..k][1..] == ticks[1..][..k - 1];
    }
  }

  /**
  The whole result: an error unless the enable response comes first and parses;
  its status if settled; else the first settled status notified before the wait
  stops; else an error if it stops at a failed read; else the last status known,
  timed out.
  */
  lemma EnableExact(ticks: seq<Tick>, k: nat, r: ReadyStatus)
    ensures (forall i, q :: !RepliedAt(ticks, i, q)) ==> Enable(ticks) == Err
    ensures RepliedAt(ticks, k, r) ==>
      var rest := ticks[k + 1..];
      var heard := [r.(timedOut := false)] + Reports(rest[..WaitEnd(rest)]);
      var settled := FirstSettled(heard);
      Enable(ticks) ==
        if settled.Some? then Ok(settled.value)
        else if WaitEnd(rest) < |rest| && !rest[WaitEnd(rest)].late && rest[WaitEnd(rest)].read.ReadFailed? then Err
        else Ok(heard[|heard| - 1].(timedOut := true))
  {
    if RepliedAt(ticks, k, r) {
      RepliedIff(ticks, k, r);
      var rest := ticks[k + 1..];
      NotifiedInTime(rest);
      var heard := [r.(timedOut := false)] + Reports(rest[..WaitEnd(rest)]);
      assert heard[1..] == Notified(rest);
    }
    if EnableReport(ticks).Some? {
      RepliedIff(ticks, EnableEnd(ticks), EnableReport(ticks).value);
    }
  }
}
