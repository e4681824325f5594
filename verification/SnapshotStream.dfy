/** Streaming a state snapshot between two peers.  Requests carry a correlation id; every
    request and every overflow of the receiving channel starts a new id and closes the old
    channel, and only messages of the current id are let in. */
module SnapshotStream {
  import opened Common
  import opened StateTypes

  type Corr = nat
  // A delta of one key, or the empty delta that ends the stream.
  datatype Msg = Msg(corr: Corr, sequence: nat, delta: Option<KeyValue>)

  // A goroutine sending the snapshot for one request.
  datatype Sender = Sender(
    snapshot: seq<KeyValue>,
    next: nat,           // how many deltas it has sent
    failed: bool,        // a send failed, which ends the deltas
    ended: bool,         // the terminating message has been tried
    emitted: seq<Msg>)   // what it has put on the stream

  datatype State = State(
    correlationID: Corr,
    channel: nat,                   // messages waiting in the current channel
    placed: map<Corr, seq<Msg>>,    // what was ever put into the channel of an id
    requests: seq<Corr>,            // the stream to the other peer
    senders: map<Corr, Sender>,
    stream: seq<Msg>)               // the stream back

  const Start := State(0, 0, map[], [], map[], [])

  datatype Op =
    | Request(sent: bool)
    | Serve(snapshot: Option<seq<KeyValue>>)   // the request arrives; the snapshot may be unavailable
    | SendDelta(corr: Corr, ok: bool)
    | SendEnd(corr: Corr, ok: bool)
    | Receive
    | Consume

  predicate Enabled(s: State, op: Op) {
    match op
    case Request(_) => true
    case Serve(_) => s.requests != []
    case SendDelta(c, _) =>
      c in s.senders && !s.senders[c].failed && !s.senders[c].ended && s.senders[c].next < |s.senders[c].snapshot|
    case SendEnd(c, _) =>
      c in s.senders && !s.senders[c].ended && (s.senders[c].failed || s.senders[c].next == |s.senders[c].snapshot|)
    case Receive => s.stream != []
    case Consume => s.channel > 0
  }

  function Placed(s: State, c: Corr): seq<Msg> {
    if c in s.placed then s.placed[c] else []
  }

  function Emitted(s: State, c: Corr): seq<Msg> {
    if c in s.senders then s.senders[c].emitted else []
  }

  /** `reset`: the channel is closed and replaced, the id moves on. */
  function Reset(s: State): State {
    s.(correlationID := s.correlationID + 1, channel := 0)
  }

  /** The number the terminating message carries: one past the last delta tried, and 1 when
      there was none. */
  function EndSequence(x: Sender): nat {
    if x.failed then x.next + 1 else if x.next == 0 then 1 else x.next
  }

  function DeltaMsg(c: Corr, x: Sender): Msg
    requires x.next < |x.snapshot|
  {
    Msg(c, x.next, Some(x.snapshot[x.next]))
  }

  function Step(s: State, capacity: nat, op: Op): State
    requires Enabled(s, op)
  {
    match op
    case Request(sent) =>
      var r := Reset(s);
      if sent then r.(requests := r.requests + [r.correlationID]) else r
    case Serve(snapshot) =>
      var rest := s.(requests := s.requests[1..]);
      if snapshot.None? then rest
      else rest.(senders := s.senders[s.requests[0] := Sender(snapshot.value, 0, false, false, [])])
    case SendDelta(c, ok) =>
      var x := s.senders[c];
      if ok then
        s.(senders := s.senders[c := x.(next := x.next + 1, emitted := x.emitted + [DeltaMsg(c, x)])],
           stream := s.stream + [DeltaMsg(c, x)])
      else s.(senders := s.senders[c := x.(failed := true)])
    case SendEnd(c, ok) =>
      var x := s.senders[c];
      var m := Msg(c, EndSequence(x), None);
      if ok then s.(senders := s.senders[c := x.(ended := true, emitted := x.emitted + [m])], stream := s.stream + [m])
      else s.(senders := s.senders[c := x.(ended := true)])
    case Receive =>
      var m := s.stream[0];
      var rest := s.(stream := s.stream[1..]);
      if m.corr != s.correlationID then rest
      else if s.channel < capacity then
        rest.(placed := s.placed[m.corr := Placed(s, m.corr) + [m]], channel := s.channel + 1)
      else Reset(rest)
    case Consume => s.(channel := s.channel - 1)
  }

  // ---------------------------------------------------------------- the invariant

  /** The messages of one id still on the stream. */
  function InFlight(stream: seq<Msg>, c: Corr): seq<Msg> {
    if stream == [] then []
    else
      var rest := InFlight(stream[1..], c);
      if stream[0].corr == c then [stream[0]] + rest else rest
  }

  lemma {:induction false} InFlightAppend(stream: seq<Msg>, m: Msg, c: Corr)
    ensures InFlight(stream + [m], c) == if m.corr == c then InFlight(stream, c) + [m] else InFlight(stream, c)
    decreases |stream|
  {
    if stream == [] {
      assert stream + [m] == [m];
      assert [m][1..] == [];
    } else {
      assert (stream + [m])[1..] == stream[1..] + [m];
      InFlightAppend(stream[1..], m, c);
    }
  }

  function Deltas(c: Corr, snapshot: seq<KeyValue>, n: nat): seq<Msg>
    requires n <= |snapshot|
  {
    if n == 0 then [] else Deltas(c, snapshot, n - 1) + [Msg(c, n - 1, Some(snapshot[n - 1]))]
  }

  /** A sender has put out its first deltas, numbered from 0, and at most the end after
      them; the end only when the deltas were complete or one could not be sent. */
  predicate SenderOk(c: Corr, x: Sender) {
    && x.next <= |x.snapshot| && (x.failed ==> x.next < |x.snapshot|)
    && (x.ended ==> x.failed || x.next == |x.snapshot|)
    && (|| x.emitted == Deltas(c, x.snapshot, x.next)
        || (x.ended && x.emitted == Deltas(c, x.snapshot, x.next) + [Msg(c, EndSequence(x), None)]))
    && (!x.ended ==> x.emitted == Deltas(c, x.snapshot, x.next))
  }

  ghost predicate InvFor(s: State, c: Corr) {
    && (c in s.senders ==> SenderOk(c, s.senders[c]) && c <= s.correlationID)
    // an id is asked for once
    && (forall i :: 0 <= i < |s.requests| && s.requests[i] == c ==> c <= s.correlationID && c !in s.senders)
    && (forall i, j :: 0 <= i < j < |s.requests| && s.requests[i] == c ==> s.requests[j] != c)
    // what arrives is a prefix of what was sent; all of it so far while the id is current
    && Placed(s, c) <= Emitted(s, c)
    && (c == s.correlationID ==> Emitted(s, c) == Placed(s, c) + InFlight(s.stream, c))
    && (c > s.correlationID ==> InFlight(s.stream, c) == [] && Placed(s, c) == [])
  }

  lemma RequestKeeps(s: State, capacity: nat, sent: bool, c: Corr)
    requires InvFor(s, c)
    ensures InvFor(Step(s, capacity, Request(sent)), c)
  {
  }

  lemma ServeKeeps(s: State, capacity: nat, op: Op, c: Corr)
    requires InvFor(s, c) && Enabled(s, op) && op.Serve?
    ensures InvFor(Step(s, capacity, op), c)
  {
    var s' := Step(s, capacity, op);
    assert forall i :: 0 <= i < |s'.requests| ==> s'.requests[i] == s.requests[i + 1];
  }

  lemma SendDeltaKeeps(s: State, capacity: nat, op: Op, c: Corr)
    requires op.SendDelta? && InvFor(s, c) && InvFor(s, op.corr) && Enabled(s, op)
    ensures InvFor(Step(s, capacity, op), c)
  {
    var x := s.senders[op.corr];
    if op.ok {
      InFlightAppend(s.stream, DeltaMsg(op.corr, x), c);
    }
  }

  lemma SendEndKeeps(s: State, capacity: nat, op: Op, c: Corr)
    requires op.SendEnd? && InvFor(s, c) && InvFor(s, op.corr) && Enabled(s, op)
    ensures InvFor(Step(s, capacity, op), c)
  {
    if op.ok {
      InFlightAppend(s.stream, Msg(op.corr, EndSequence(s.senders[op.corr]), None), c);
    }
  }

  lemma ReceiveKeeps(s: State, capacity: nat, c: Corr)
    requires InvFor(s, c) && s.stream != []
    ensures InvFor(Step(s, capacity, Receive), c)
  {
    var m, rest := s.stream[0], InFlight(s.stream[1..], c);
    if m.corr == c && c == s.correlationID {
      assert Placed(s, c) + ([m] + rest) == (Placed(s, c) + [m]) + rest;
    }
  }

  lemma StepKeeps(s: State, capacity: nat, op: Op, c: Corr)
    requires (forall d: Corr :: InvFor(s, d)) && Enabled(s, op)
    ensures InvFor(Step(s, capacity, op), c)
  {
    assert InvFor(s, c);
    match op
    case Request(sent) => RequestKeeps(s, capacity, sent, c);
    case Serve(_) => ServeKeeps(s, capacity, op, c);
    case SendDelta(_, _) => SendDeltaKeeps(s, capacity, op, c);
    case SendEnd(_, _) => SendEndKeeps(s, capacity, op, c);
    case Receive => ReceiveKeeps(s, capacity, c);
    case Consume =>
  }

  // ---------------------------------------------------------------- every run

  ghost predicate Runs(s: State, capacity: nat, ops: seq<Op>, s': State)
    decreases |ops|
  {
    if ops == [] then s' == s else Enabled(s, ops[0]) && Runs(Step(s, capacity, ops[0]), capacity, ops[1..], s')
  }

  lemma {:induction false} RunKeeps(s: State, capacity: nat, ops: seq<Op>, s': State)
    requires (forall c: Corr :: InvFor(s, c)) && Runs(s, capacity, ops, s')
    ensures forall c: Corr :: InvFor(s', c)
    decreases |ops|
  {
    if ops != [] {
      var next := Step(s, capacity, ops[0]);
      forall c: Corr ensures InvFor(next, c) {
        StepKeeps(s, capacity, ops[0], c);
      }
      RunKeeps(next, capacity, ops[1..], s');
    }
  }

  /** For any mix of requests, full channels and concurrent senders, what was ever put into
      the channel of an id is a prefix of what was sent for it. */
  lemma EveryRunPlacesAPrefix(capacity: nat, ops: seq<Op>, s: State, c: Corr)
    requires Runs(Start, capacity, ops, s)
    ensures Placed(s, c) <= Emitted(s, c)
    ensures c in s.senders ==> SenderOk(c, s.senders[c])
  {
    RunKeeps(Start, capacity, ops, s);
    assert InvFor(s, c);
  }

  lemma {:induction false} DeltasCarryOn(c: Corr, snapshot: seq<KeyValue>, n: nat)
    requires n <= |snapshot|
    ensures |Deltas(c, snapshot, n)| == n
    ensures forall i :: 0 <= i < n ==> Deltas(c, snapshot, n)[i] == Msg(c, i, Some(snapshot[i]))
  {
    if n > 0 {
      DeltasCarryOn(c, snapshot, n - 1);
    }
  }

  /** If the terminating message is in the channel of an id, everything sent for the id came
      before it, numbered without a gap from 0.  After at least one delta, the receiver can
      tell by its number: it is the number of deltas before it if and only if they are the
      whole snapshot.  Without any delta the number is 1 whatever happened. */
  lemma TerminatedMeansAllSent(capacity: nat, ops: seq<Op>, s: State, c: Corr, i: nat)
    requires Runs(Start, capacity, ops, s)
    requires i < |Placed(s, c)| && Placed(s, c)[i].delta == None
    ensures c in s.senders && s.senders[c].ended && i == s.senders[c].next && Placed(s, c) == s.senders[c].emitted
    ensures var x, end := s.senders[c], Placed(s, c)[i];
            && i <= |x.snapshot| && (forall j :: 0 <= j < i ==> Placed(s, c)[j] == Msg(c, j, Some(x.snapshot[j])))
            && (i > 0 ==> (i == |x.snapshot| <==> end.sequence == i))
            && (i == 0 ==> end.sequence == 1)
  {
    EveryRunPlacesAPrefix(capacity, ops, s, c);
    var x := s.senders[c];
    DeltasCarryOn(c, x.snapshot, x.next);
    assert Placed(s, c)[i] == x.emitted[i];
  }

  lemma RunStep(s: State, capacity: nat, op: Op, mid: State, ops: seq<Op>, s': State)
    requires Enabled(s, op) && Step(s, capacity, op) == mid && Runs(mid, capacity, ops, s')
    ensures Runs(s, capacity, [op] + ops, s')
  {
    assert ([op] + ops)[1..] == ops;
  }

  // A session after the first request has been served with this snapshot.
  function Served(snapshot: seq<KeyValue>, failed: bool): State {
    State(1, 0, map[], [], map[1 := Sender(snapshot, 0, failed, false, [])], [])
  }

  // And after its sender has ended without a delta, and the end has arrived.
  function EndedAtOnce(snapshot: seq<KeyValue>, failed: bool): State {
    State(1, 1, map[1 := [Msg(1, 1, None)]], [], map[1 := Sender(snapshot, 0, failed, true, [Msg(1, 1, None)])], [])
  }

  lemma ServedReached(capacity: nat, snapshot: seq<KeyValue>, ops: seq<Op>, s: State)
    requires Runs(Served(snapshot, false), capacity, ops, s)
    ensures Runs(Start, capacity, [Request(true)] + ([Serve(Some(snapshot))] + ops), s)
  {
    var s1 := Start.(correlationID := 1, requests := [1]);
    assert Step(Start, capacity, Request(true)) == s1;
    assert Step(s1, capacity, Serve(Some(snapshot))) == Served(snapshot, false);
    RunStep(s1, capacity, Serve(Some(snapshot)), Served(snapshot, false), ops, s);
    RunStep(Start, capacity, Request(true), s1, [Serve(Some(snapshot))] + ops, s);
  }

  lemma EndReached(capacity: nat, snapshot: seq<KeyValue>, failed: bool)
    requires capacity > 0 && (failed || snapshot == [])
    ensures Runs(Served(snapshot, failed), capacity, [SendEnd(1, true)] + ([Receive] + []), EndedAtOnce(snapshot, failed))
  {
    var s := Served(snapshot, failed);
    var end := Msg(1, 1, None);
    var sent := s.(senders := map[1 := Sender(snapshot, 0, failed, true, [end])], stream := [end]);
    assert [] + [end] == [end];
    assert Step(s, capacity, SendEnd(1, true)) == sent;
    assert Step(sent, capacity, Receive) == EndedAtOnce(snapshot, failed);
    RunStep(sent, capacity, Receive, EndedAtOnce(snapshot, failed), [], EndedAtOnce(snapshot, failed));
    RunStep(s, capacity, SendEnd(1, true), sent, [Receive] + [], EndedAtOnce(snapshot, failed));
  }

  /** An empty snapshot and a snapshot whose first delta could not be sent look the same to
      the receiver: it gets the same messages in both. */
  lemma NoDeltasTellNothing(capacity: nat, snapshot: seq<KeyValue>) returns (ops: seq<Op>, s: State, ops': seq<Op>, s': State)
    requires capacity > 0 && snapshot != []
    ensures Runs(Start, capacity, ops, s) && Runs(Start, capacity, ops', s')
    ensures Placed(s, 1) == Placed(s', 1) == [Msg(1, 1, None)] && s.correlationID == s'.correlationID == 1
    ensures 1 in s.senders && 1 in s'.senders && s.senders[1].snapshot == [] && s'.senders[1].snapshot == snapshot
  {
    s, s' := EndedAtOnce([], false), EndedAtOnce(snapshot, true);
    var end: seq<Op> := [SendEnd(1, true)] + ([Receive] + []);
    EndReached(capacity, [], false);
    ServedReached(capacity, [], end, s);
    ops := [Request(true)] + ([Serve(Some([]))] + end);
    EndReached(capacity, snapshot, true);
    assert Step(Served(snapshot, false), capacity, SendDelta(1, false)) == Served(snapshot, true);
    RunStep(Served(snapshot, false), capacity, SendDelta(1, false), Served(snapshot, true), end, s');
    ServedReached(capacity, snapshot, [SendDelta(1, false)] + end, s');
    ops' := [Request(true)] + ([Serve(Some(snapshot))] + ([SendDelta(1, false)] + end));
  }

  // ---------------------------------------------------------------- with room in the channel

  /** The arrival of a message of the current id that finds the channel full. */
  predicate Overflows(s: State, capacity: nat, op: Op) {
    op.Receive? && s.stream != [] && s.stream[0].corr == s.correlationID && s.channel >= capacity
  }

  /** A run without a request in which no arrival finds the channel full. */
  ghost predicate RoomyRuns(s: State, capacity: nat, ops: seq<Op>, s': State)
    decreases |ops|
  {
    if ops == [] then s' == s
    else
      && Enabled(s, ops[0]) && !ops[0].Request? && !Overflows(s, capacity, ops[0])
      && RoomyRuns(Step(s, capacity, ops[0]), capacity, ops[1..], s')
  }

  function Consumes(ops: seq<Op>): nat {
    if ops == [] then 0 else (if ops[0].Consume? then 1 else 0) + Consumes(ops[1..])
  }

  /** With room, the id stays, and the channel holds what was placed and not yet consumed. */
  lemma {:induction false} RoomKeepsChannel(s: State, capacity: nat, ops: seq<Op>, s': State, c: Corr)
    requires RoomyRuns(s, capacity, ops, s') && c == s.correlationID
    ensures s'.correlationID == c && Placed(s, c) <= Placed(s', c)
    ensures s'.channel + Consumes(ops) == s.channel + |Placed(s', c)| - |Placed(s, c)|
    decreases |ops|
  {
    if ops != [] {
      RoomKeepsChannel(Step(s, capacity, ops[0]), capacity, ops[1..], s', c);
    }
  }

  lemma {:induction false} RoomyIsRun(s: State, capacity: nat, ops: seq<Op>, s': State)
    requires RoomyRuns(s, capacity, ops, s')
    ensures Runs(s, capacity, ops, s')
    decreases |ops|
  {
    if ops != [] {
      RoomyIsRun(Step(s, capacity, ops[0]), capacity, ops[1..], s');
    }
  }

  lemma {:induction false} RunsOn(s: State, capacity: nat, ops: seq<Op>, mid: State, more: seq<Op>, s': State)
    requires Runs(s, capacity, ops, mid) && Runs(mid, capacity, more, s')
    ensures Runs(s, capacity, ops + more, s')
    decreases |ops|
  {
    if ops == [] {
      assert ops + more == more;
    } else {
      assert (ops + more)[1..] == ops[1..] + more;
      RunsOn(Step(s, capacity, ops[0]), capacity, ops[1..], mid, more, s');
    }
  }

  /** The whole snapshot and the end. */
  function Whole(c: Corr, snapshot: seq<KeyValue>): seq<Msg> {
    Deltas(c, snapshot, |snapshot|) + [Msg(c, if snapshot == [] then 1 else |snapshot|, None)]
  }

  /** Whatever happens in between: if from some moment on no arrival finds the channel full and
      nothing is requested, and the sender of the id current then gets everything sent, then
      once nothing is in flight the whole snapshot and its end are in the channel of the id. */
  lemma RoomyStreamArrivesWhole(capacity: nat, ops: seq<Op>, s: State, more: seq<Op>, s': State, c: Corr)
    requires Runs(Start, capacity, ops, s) && c == s.correlationID && RoomyRuns(s, capacity, more, s')
    requires c in s'.senders && !s'.senders[c].failed && |s'.senders[c].emitted| == |s'.senders[c].snapshot| + 1
    requires forall i :: 0 <= i < |s'.stream| ==> s'.stream[i].corr != c
    ensures s'.correlationID == c && Placed(s', c) == Whole(c, s'.senders[c].snapshot)
  {
    RoomKeepsChannel(s, capacity, more, s', c);
    RoomyIsRun(s, capacity, more, s');
    RunsOn(Start, capacity, ops, s, more, s');
    RunKeeps(Start, capacity, ops + more, s');
    assert InvFor(s', c);
    NoneInFlight(s'.stream, c);
    var x := s'.senders[c];
    DeltasCarryOn(c, x.snapshot, x.next);
    assert Placed(s', c) + [] == Placed(s', c);
  }

  lemma {:induction false} NoneInFlight(stream: seq<Msg>, c: Corr)
    requires forall i :: 0 <= i < |stream| ==> stream[i].corr != c
    ensures InFlight(stream, c) == []
    decreases |stream|
  {
    if stream != [] {
      NoneInFlight(stream[1..], c);
    }
  }

  /** Conversely, without a request the id moves on only when an arrival finds the channel
      full. */
  lemma {:induction false} IdMovesOnlyWhenFull(s: State, capacity: nat, ops: seq<Op>, s': State)
    requires Runs(s, capacity, ops, s') && (forall i :: 0 <= i < |ops| ==> !ops[i].Request?)
    requires s'.correlationID != s.correlationID
    ensures exists k, mid :: 0 <= k < |ops| && Runs(s, capacity, ops[..k], mid) && Overflows(mid, capacity, ops[k])
    decreases |ops|
  {
    var next, rest := Step(s, capacity, ops[0]), ops[1..];
    if Overflows(s, capacity, ops[0]) {
      assert Runs(s, capacity, ops[..0], s);
    } else {
      assert !ops[0].Request? && forall i :: 0 <= i < |rest| ==> rest[i] == ops[i + 1];
      IdMovesOnlyWhenFull(next, capacity, rest, s');
      var k, mid :| 0 <= k < |rest| && Runs(next, capacity, rest[..k], mid) && Overflows(mid, capacity, rest[k]);
      assert ops[..k + 1][1..] == rest[..k] && ops[..k + 1][0] == ops[0];
      assert Runs(s, capacity, ops[..k + 1], mid);
    }
  }

  // The session with k deltas sent, received and consumed.
  ghost predicate SentSoFar(s: State, snapshot: seq<KeyValue>, k: nat) {
    && k <= |snapshot| && s.correlationID == 1 && s.channel == 0 && s.stream == [] && Placed(s, 1) == Deltas(1, snapshot, k)
    && s.senders == map[1 := Sender(snapshot, k, false, false, Deltas(1, snapshot, k))]
  }

  lemma OneMoreDelta(s: State, capacity: nat, snapshot: seq<KeyValue>, k: nat) returns (ops: seq<Op>, s': State)
    requires capacity > 0 && SentSoFar(s, snapshot, k) && k < |snapshot|
    ensures RoomyRuns(s, capacity, ops, s') && SentSoFar(s', snapshot, k + 1)
  {
    var x := s.senders[1];
    var m := DeltaMsg(1, x);
    var s1 := Step(s, capacity, SendDelta(1, true));
    assert s1.stream == [m] && m.corr == 1;
    assert s1.senders == map[1 := Sender(snapshot, k + 1, false, false, Deltas(1, snapshot, k + 1))];
    var s2 := Step(s1, capacity, Receive);
    assert s2.stream == [];
    s' := Step(s2, capacity, Consume);
    RoomyStep(s2, capacity, Consume, s', [], s');
    RoomyStep(s1, capacity, Receive, s2, [Consume] + [], s');
    RoomyStep(s, capacity, SendDelta(1, true), s1, [Receive] + ([Consume] + []), s');
    ops := [SendDelta(1, true)] + ([Receive] + ([Consume] + []));
  }

  lemma RoomyStep(s: State, capacity: nat, op: Op, mid: State, ops: seq<Op>, s': State)
    requires Enabled(s, op) && !op.Request? && !Overflows(s, capacity, op) && Step(s, capacity, op) == mid
    requires RoomyRuns(mid, capacity, ops, s')
    ensures RoomyRuns(s, capacity, [op] + ops, s')
  {
    assert ([op] + ops)[1..] == ops;
  }

  lemma {:induction false} RoomyOn(s: State, capacity: nat, ops: seq<Op>, mid: State, more: seq<Op>, s': State)
    requires RoomyRuns(s, capacity, ops, mid) && RoomyRuns(mid, capacity, more, s')
    ensures RoomyRuns(s, capacity, ops + more, s')
    decreases |ops|
  {
    if ops == [] {
      assert ops + more == more;
    } else {
      assert (ops + more)[1..] == ops[1..] + more;
      RoomyOn(Step(s, capacity, ops[0]), capacity, ops[1..], mid, more, s');
    }
  }

  lemma {:induction false} AllDeltas(s: State, capacity: nat, snapshot: seq<KeyValue>, k: nat) returns (ops: seq<Op>, s': State)
    requires capacity > 0 && SentSoFar(s, snapshot, k)
    ensures RoomyRuns(s, capacity, ops, s') && SentSoFar(s', snapshot, |snapshot|)
    decreases |snapshot| - k
  {
    if k == |snapshot| {
      ops, s' := [], s;
    } else {
      var ops1, mid := OneMoreDelta(s, capacity, snapshot, k);
      var more;
      more, s' := AllDeltas(mid, capacity, snapshot, k + 1);
      RoomyOn(s, capacity, ops1, mid, more, s');
      ops := ops1 + more;
    }
  }

  lemma TheEnd(s: State, capacity: nat, snapshot: seq<KeyValue>) returns (ops: seq<Op>, s': State)
    requires capacity > 0 && SentSoFar(s, snapshot, |snapshot|)
    ensures RoomyRuns(s, capacity, ops, s') && s'.correlationID == 1 && Placed(s', 1) == Whole(1, snapshot)
  {
    var s1 := Step(s, capacity, SendEnd(1, true));
    assert s1.stream == [Msg(1, if snapshot == [] then 1 else |snapshot|, None)];
    s' := Step(s1, capacity, Receive);
    RoomyStep(s1, capacity, Receive, s', [], s');
    RoomyStep(s, capacity, SendEnd(1, true), s1, [Receive] + [], s');
    ops := [SendEnd(1, true)] + ([Receive] + []);
  }

  /** And it does happen: for every snapshot and every channel with room for one message there
      is a run with a single request that ends with the whole snapshot placed under its id. */
  lemma WholeSnapshotCanArrive(capacity: nat, snapshot: seq<KeyValue>) returns (ops: seq<Op>, s: State)
    requires capacity > 0
    ensures Runs(Start, capacity, [Request(true)] + ([Serve(Some(snapshot))] + ops), s)
    ensures RoomyRuns(Served(snapshot, false), capacity, ops, s) && s.correlationID == 1 && Placed(s, 1) == Whole(1, snapshot)
  {
    var ops1, mid := AllDeltas(Served(snapshot, false), capacity, snapshot, 0);
    var ops2;
    ops2, s := TheEnd(mid, capacity, snapshot);
    RoomyOn(Served(snapshot, false), capacity, ops1, mid, ops2, s);
    ops := ops1 + ops2;
    RoomyIsRun(Served(snapshot, false), capacity, ops, s);
    ServedReached(capacity, snapshot, ops, s);
  }

  // ---------------------------------------------------------------- the two ends as code

  class SyncStateSnapshotRequestHandler {
    var correlationID: Corr
    var channel: nat
    var placed: map<Corr, seq<Msg>>

    // This end of the state, with the rest of it empty.
    ghost function View(): State
      reads this
    {
      State(correlationID, channel, placed, [], map[], [])
    }

    constructor ()
      ensures View() == Start
    {
      correlationID, channel, placed := 0, 0, map[];
    }

    method ResetChannel()
      modifies this
      ensures View() == Reset(old(View()))
    {
      channel := 0;
      correlationID := correlationID + 1;
    }

    method RequestStateSnapshot(sent: bool) returns (requests: seq<Corr>)
      modifies this
      ensures View().(requests := requests) == Step(old(View()), 0, Request(sent))
    {
      ResetChannel();
      requests := if sent then [correlationID] else [];
    }

    /** A message comes in: placed if it is of the current id and there is room; without
        room the channel is given up, so that no later message can follow a lost one. */
    method BeforeSyncStateSnapshot(m: Msg, capacity: nat)
      modifies this
      ensures View() == Step(old(View()).(stream := [m]), capacity, Receive)
    {
      if m.corr == correlationID {
        if channel < capacity {
          placed := placed[m.corr := (if m.corr in placed then placed[m.corr] else []) + [m]];
          channel := channel + 1;
        } else {
          ResetChannel();
        }
      }
    }
  }

  /** `sendStateSnapshot`: which sends succeed is up to the stream.  What it puts out is what
      a sender of the model may have put out when it has ended. */
  method SendStateSnapshot(c: Corr, snapshot: seq<KeyValue>, sends: nat -> bool, endOk: bool) returns (x: Sender)
    ensures x.snapshot == snapshot && x.ended && SenderOk(c, x)
    ensures x.failed <==> exists i :: 0 <= i < |snapshot| && !sends(i)
    ensures (exists i :: 0 <= i < |x.emitted| && x.emitted[i].delta == None) <==> endOk
  {
    var sequence := 0;
    var emitted: seq<Msg> := [];
    var i, failed := 0, false;
    while i < |snapshot| && !failed
      invariant 0 <= i <= |snapshot| && emitted == Deltas(c, snapshot, i)
      invariant forall j :: 0 <= j < i ==> sends(j)
      invariant failed ==> i < |snapshot| && !sends(i)
      invariant sequence == if failed then i else if i == 0 then 0 else i - 1
      decreases |snapshot| - i, !failed
    {
      sequence := i;
      if sends(i) {
        emitted := emitted + [Msg(c, i, Some(snapshot[i]))];
        i := i + 1;
      } else {
        failed := true;
      }
    }
    DeltasCarryOn(c, snapshot, i);
    if endOk {
      emitted := emitted + [Msg(c, sequence + 1, None)];
      assert emitted[i].delta == None;
    }
    x := Sender(snapshot, i, failed, true, emitted);
  }
}
