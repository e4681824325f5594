/** The product of the two machines: neither end is ever handed a message it cannot take,
    requests and queries are conserved, and the machines match whenever the streams are
    quiet. */
module LockstepRuns {
  import opened Common
  import opened ChaincodeFsm
  import opened Lockstep
  import opened LockstepShares
  import opened LockstepViews
  import P = PeerSpec
  import S = ShimSpec

  // ---------------------------------------------------------------- what is in flight

  /** Where a stream of messages takes the shim's machine, if it can take them all. */
  function Fold(s: ShimState, q: seq<Msg>): Option<ShimState>
    decreases |q|
  {
    if q == [] then Some(s)
    else
      match ShimNext(s, q[0].typ)
      case None => None
      case Some(s') => Fold(s', q[1..])
  }

  lemma {:induction false} FoldAppend(s: ShimState, q: seq<Msg>, m: Msg)
    ensures Fold(s, q + [m]) == match Fold(s, q) case None => None case Some(s') => ShimNext(s', m.typ)
    decreases |q|
  {
    if q == [] {
      assert q + [m] == [m];
      assert [m][1..] == [];
    } else {
      assert (q + [m])[1..] == q[1..] + [m];
      if ShimNext(s, q[0].typ).Some? {
        FoldAppend(ShimNext(s, q[0].typ).value, q[1..], m);
      }
    }
  }

  ghost predicate NoEnds(q: seq<Msg>) {
    forall i :: 0 <= i < |q| ==> q[i].typ != COMPLETED && q[i].typ != ERROR
  }

  ghost predicate NoLaunches(q: seq<Msg>) {
    forall i :: 0 <= i < |q| ==> q[i].typ != INIT && q[i].typ != TRANSACTION
  }

  predicate FromShim(t: MsgType) {
    || IsRead(t) || t == PUT_STATE || t == DEL_STATE
    || t == COMPLETED || t == ERROR || t == QUERY_COMPLETED || t == QUERY_ERROR
  }

  ghost predicate AllFromShim(q: seq<Msg>) {
    forall i :: 0 <= i < |q| ==> FromShim(q[i].typ)
  }

  lemma AppendToPeer(q: seq<Msg>, m: Msg)
    requires AllFromShim(q) && FromShim(m.typ)
    ensures AllFromShim(q + [m]) && multiset(q + [m]) == multiset(q) + multiset{m}
  {
  }

  /** Messages that leave a transaction running are taken just as well after it. */
  lemma {:induction false} FoldAfterTransaction(q: seq<Msg>)
    requires Fold(STransaction, q) == Some(STransaction) && NoEnds(q)
    ensures Fold(SReady, q) == Some(SReady)
    decreases |q|
  {
    if q != [] {
      assert q[0].typ != COMPLETED;
      FoldAfterTransaction(q[1..]);
    }
  }

  /** A machine that a stream without launches leaves launched was launched before it. */
  lemma {:induction false} LaunchedBefore(s: ShimState, q: seq<Msg>, dst: ShimState)
    requires Fold(s, q) == Some(dst) && NoLaunches(q) && (dst == SInit || dst == STransaction)
    ensures s == dst
    decreases |q|
  {
    if q != [] {
      assert q[0].typ != INIT;
      LaunchedBefore(ShimNext(s, q[0].typ).value, q[1..], dst);
    }
  }

  lemma AppendToShim(s: ShimState, q: seq<Msg>, m: Msg)
    requires Fold(s, q).Some? && NoEnds(q) && m.typ != COMPLETED && m.typ != ERROR
    ensures Fold(s, q + [m]) == ShimNext(Fold(s, q).value, m.typ)
    ensures NoEnds(q + [m]) && multiset(q + [m]) == multiset(q) + multiset{m}
  {
    FoldAppend(s, q, m);
  }

  // ---------------------------------------------------------------- the invariant

  // The machines and loops, which the stage determines; the shim's machine counting what
  // is on its way.
  datatype Control = Control(fsm: PeerState, loop: Loop, shimFold: Option<ShimState>, shimLoop: Loop)

  function ControlOf(w: World): Control {
    Control(w.peer.fsm, w.peer.loop, Fold(w.shim.fsm, w.toShim), w.shim.loop)
  }

  function Expected(st: Stage): Control {
    match st
    case Boot => Control(Created, Free, Some(SCreated), Free)
    case Registered => Control(Established, Free, Some(SEstablished), Free)
    case Readying(u) => Control(Ready, Sending(Msg(READY, u)), Some(SEstablished), Free)
    case Calm => Control(Ready, Free, Some(SReady), Free)
    case Launching(u) => Control(Transaction, Sending(Msg(TRANSACTION, u)), Some(SReady), Free)
    case Delivering(u, mode) =>
      if mode.MInit? then Control(Init, Free, Some(SInit), Free)
      else Control(Transaction, Free, Some(STransaction), Free)
    case Executing(u, mode, write) =>
      var busy := write.Spawned? || write.Entered? || write.Offered?;
      var loop := if write.Replying? then Sending(Msg(RESPONSE, u)) else Free;
      if mode.MInit? then Control(if busy then BusyInit else Init, loop, Some(SInit), Free)
      else Control(if busy then BusyXact else Transaction, loop, Some(STransaction), Free)
    case Ending(u, mode, ok, phase) =>
      Control(if mode.MInit? then Init else Transaction, Free,
              Some(if phase.EndOffered? then (if mode.MInit? then SInit else STransaction)
                   else if mode.MInit? && !ok then SEstablished else SReady),
              if phase.EndSending? then Sending(S.FinishMsg(u, ok)) else Free)
    case Over => Control(End, Free, Some(SEstablished), Free)
  }

  predicate HasContext(w: World, u: Uuid, notified: nat) {
    u in w.peer.contexts && BriefOf(w.peer.contexts[u]) == Brief(false, notified)
  }

  predicate ExecOk(w: World, st: Stage) {
    match st
    case Boot => w.exec == NotLaunched && w.toPeer == [Msg(REGISTER, 0)]
    case Registered =>
      w.exec == NotLaunched || (w.exec.Offering? && (w.exec.msg.typ == INIT || w.exec.msg.typ == READY) && HasContext(w, w.exec.msg.uuid, 0))
    case Readying(_) => BetweenTransactions(w)
    case Calm => BetweenTransactions(w)
    case Over => w.exec == Idle || (w.exec.AwaitingNotice? && HasContext(w, w.exec.uuid, 1))
    case _ => w.exec == AwaitingNotice(st.u)
  }

  predicate BetweenTransactions(w: World) {
    || w.exec == Idle
    || (w.exec.AwaitingNotice? && HasContext(w, w.exec.uuid, 1))
    || (w.exec.Offering? && w.exec.msg.typ == TRANSACTION && HasContext(w, w.exec.msg.uuid, 0)
        && P.IsTransaction(w.peer, w.exec.msg.uuid))
  }

  ghost predicate StreamsOk(w: World, st: Stage) {
    NoEnds(w.toShim) && (!st.Boot? ==> AllFromShim(w.toPeer))
  }

  function ViewOf(w: World): View {
    View(w.peer, w.shim, multiset(w.toShim), multiset(w.toPeer))
  }

  ghost predicate Rest(w: World, st: Stage) {
    && ControlOf(w) == Expected(st)
    && ExecOk(w, st)
    && StreamsOk(w, st)
    && w.peer.dropped == 0
  }

  ghost predicate Inv(w: World, st: Stage) {
    Rest(w, st) && LocalsOk(ViewOf(w), st)
  }

  lemma StartLocals(u: Uuid)
    ensures LocalOk(LocalOf(View(P.NewPeer, S.NewShim, multiset{}, multiset{Msg(REGISTER, 0)}), u), ShareOf(Boot, u))
  {
  }

  lemma StartInv()
    ensures Inv(Start, Boot)
  {
    assert ViewOf(Start) == View(P.NewPeer, S.NewShim, multiset{}, multiset{Msg(REGISTER, 0)});
    forall u: Uuid ensures LocalOk(LocalOf(ViewOf(Start), u), ShareOf(Boot, u)) {
      StartLocals(u);
    }
  }

  /** The executor of transactions is not disturbed by what happens to queries. */
  lemma ExecutorUndisturbed(w: World, w': World, st: Stage)
    requires ExecOk(w, st) && !st.Boot? && w'.exec == w.exec
    requires forall v: Uuid :: v in w.peer.contexts && !w.peer.contexts[v].query ==>
               && v in w'.peer.contexts && w'.peer.contexts[v] == w.peer.contexts[v]
               && (P.IsTransaction(w.peer, v) ==> P.IsTransaction(w'.peer, v))
    ensures ExecOk(w', st)
  {
  }

  /** A step that leaves the stage as it is. */
  lemma RestKeeps(w: World, w': World, st: Stage)
    requires Rest(w, st) && !st.Boot? && w'.exec == w.exec
    requires ControlOf(w') == ControlOf(w) && w'.peer.dropped == w.peer.dropped
    requires NoEnds(w'.toShim) && AllFromShim(w'.toPeer)
    requires forall v: Uuid :: v in w.peer.contexts && !w.peer.contexts[v].query ==>
               && v in w'.peer.contexts && w'.peer.contexts[v] == w.peer.contexts[v]
               && (P.IsTransaction(w.peer, v) ==> P.IsTransaction(w'.peer, v))
    ensures Rest(w', st)
  {
    ExecutorUndisturbed(w, w', st);
  }

  /** What the shim is sent while a transaction or a query is about leaves its machine
      where it will be. */
  lemma DataLeavesControl(w: World, st: Stage, m: Msg)
    requires Rest(w, st) && (m.typ == RESPONSE || m.typ == QUERY)
    requires Launched(st) || (st.Executing? && m.typ == RESPONSE)
    ensures Fold(w.shim.fsm, w.toShim + [m]) == Fold(w.shim.fsm, w.toShim) && NoEnds(w.toShim + [m])
    ensures multiset(w.toShim + [m]) == multiset(w.toShim) + multiset{m}
  {
    AppendToShim(w.shim.fsm, w.toShim, m);
  }

  // ---------------------------------------------------------------- executors

  lemma LaunchKeeps(w: World, st: Stage, u: Uuid, deploy: bool)
    requires Inv(w, st) && w.exec == NotLaunched && w.peer.fsm == Established && u !in w.peer.contexts
    ensures Inv(DoLaunch(w, u, deploy), st)
  {
    LaunchLocals(ViewOf(w), st, u);
  }

  lemma SubmitKeeps(w: World, st: Stage, u: Uuid)
    requires Inv(w, st) && w.exec == Idle && w.peer.fsm != End && u !in w.peer.contexts
    ensures Inv(DoSubmit(w, u), st)
  {
    SubmitLocals(ViewOf(w), st, u);
  }

  lemma CollectKeeps(w: World, st: Stage, u: Uuid)
    requires Inv(w, st) && w.exec == AwaitingNotice(u) && u in w.peer.contexts && w.peer.contexts[u].notices != []
    ensures Inv(DoCollect(w), st)
  {
    CollectLocals(ViewOf(w), st, u);
  }

  lemma CollectQueryKeeps(w: World, st: Stage, u: Uuid)
    requires Inv(w, st) && u in w.peer.contexts && w.peer.contexts[u].query && w.peer.contexts[u].notices != []
    ensures Inv(DoCollectQuery(w, u), st)
  {
    CollectLocals(ViewOf(w), st, u);
  }

  lemma QueryWhenLaunched(w: World, st: Stage)
    requires ControlOf(w) == Expected(st)
    ensures MaySendQuery(w.peer) <==> Launched(st)
  {
  }

  lemma SubmitQueryKeeps(w: World, st: Stage, u: Uuid)
    requires Inv(w, st) && u !in w.peer.contexts && MaySendQuery(w.peer)
    ensures Inv(DoSubmitQuery(w, u), st)
  {
    QueryWhenLaunched(w, st);
    SubmitQueryLocals(ViewOf(w), st, u);
    DataLeavesControl(w, st, Msg(QUERY, u));
    RestKeeps(w, DoSubmitQuery(w, u), st);
  }

  // ---------------------------------------------------------------- request goroutines of the peer

  lemma StartReadKeeps(w: World, st: Stage, u: Uuid)
    requires Inv(w, st) && u in w.peer.readSpawned
    ensures Inv(DoStartRead(w, u), st)
  {
    StartReadLocals(ViewOf(w), st, u);
  }

  lemma ReleaseReadKeeps(w: World, st: Stage, u: Uuid)
    requires Inv(w, st) && u in w.peer.readEntered
    ensures Inv(DoReleaseRead(w, u), st)
  {
    ReleaseReadLocals(ViewOf(w), st, u);
  }

  lemma ReplyReadKeeps(w: World, st: Stage, u: Uuid)
    requires Inv(w, st) && u in w.peer.readReleased
    ensures Inv(DoReplyRead(w, u, true), st)
  {
    ReplyReadLocals(ViewOf(w), st, u);
    DataLeavesControl(w, st, Msg(RESPONSE, u));
    RestKeeps(w, DoReplyRead(w, u, true), st);
  }

  lemma StartWriteKeeps(w: World, st: Stage, u: Uuid)
    requires Inv(w, st) && u in w.peer.writeSpawned
    ensures st.Executing? && Inv(DoStartWrite(w, u), st.(write := Entered))
  {
    StartWriteLocals(ViewOf(w), st, u);
  }

  lemma FinishWriteKeeps(w: World, st: Stage, u: Uuid)
    requires Inv(w, st) && u in w.peer.writeEntered
    ensures st.Executing? && Inv(DoFinishWrite(w, u, true), st.(write := Offered))
  {
    FinishWriteLocals(ViewOf(w), st, u);
  }

  // ---------------------------------------------------------------- executions on the shim

  lemma StartThreadKeeps(w: World, st: Stage, u: Uuid)
    requires Inv(w, st) && S.InPhase(w.shim, u, S.Started)
    ensures Inv(DoStartThread(w, u), st)
  {
    StartThreadLocals(ViewOf(w), st, u);
  }

  lemma ResumeThreadKeeps(w: World, st: Stage, u: Uuid)
    requires Inv(w, st) && S.InPhase(w.shim, u, S.Delivered)
    ensures Inv(DoResumeThread(w, u), st)
  {
    ResumeThreadLocals(ViewOf(w), st, u);
  }

  lemma RequestGoesOut(w: World, u: Uuid, t: MsgType)
    requires S.InPhase(w.shim, u, S.Running) && u !in w.shim.responseChannel && IsRead(t)
    ensures DoRequest(w, u, t) == w.(shim := S.Request(w.shim, u, t).0, toPeer := w.toPeer + [Msg(t, u)])
    ensures ControlOf(DoRequest(w, u, t)) == ControlOf(w)
  {
  }

  lemma RequestReadKeeps(w: World, st: Stage, u: Uuid, t: MsgType)
    requires Inv(w, st) && S.InPhase(w.shim, u, S.Running) && IsRead(t)
    ensures Inv(DoRequest(w, u, t), st)
  {
    RequestReadLocals(ViewOf(w), st, u, t);
    RequestGoesOut(w, u, t);
    AppendToPeer(w.toPeer, Msg(t, u));
    RestKeeps(w, DoRequest(w, u, t), st);
  }

  lemma RequestWriteKeeps(w: World, st: Stage, u: Uuid, t: MsgType)
    requires Inv(w, st) && S.InPhase(w.shim, u, S.Running) && w.shim.threads[u].tx && (t == PUT_STATE || t == DEL_STATE)
    ensures st.Executing? && Inv(DoRequest(w, u, t), st.(write := InFlight))
  {
    RequestWriteLocals(ViewOf(w), st, u, t);
    AppendToPeer(w.toPeer, Msg(t, u));
  }

  /** A query's write is refused by the shim itself. */
  lemma QueryWriteRefused(w: World, st: Stage, u: Uuid, t: MsgType)
    requires Inv(w, st) && S.InPhase(w.shim, u, S.Running) && !w.shim.threads[u].tx && IsWrite(t)
    ensures DoRequest(w, u, t) == w
  {
    assert LocalOk(LocalOf(ViewOf(w), u), ShareOf(st, u));
    assert w.toPeer + [] == w.toPeer;
  }

  lemma EndQueryKeeps(w: World, st: Stage, u: Uuid, ok: bool)
    requires Inv(w, st) && S.InPhase(w.shim, u, S.Running) && !w.shim.threads[u].tx
    ensures Inv(DoEndThread(w, u, ok), st)
  {
    var t := if ok then QUERY_COMPLETED else QUERY_ERROR;
    EndQueryLocals(ViewOf(w), st, u, ok, t);
    AppendToPeer(w.toPeer, Msg(t, u));
  }

  lemma EndTransactionKeeps(w: World, st: Stage, u: Uuid, ok: bool)
    requires Inv(w, st) && S.InPhase(w.shim, u, S.Running) && w.shim.threads[u].tx
    ensures st.Executing? && Inv(DoEndThread(w, u, ok), Ending(u, st.mode, ok, EndOffered))
  {
    EndTransactionLocals(ViewOf(w), st, u, ok);
    assert w.toPeer + [] == w.toPeer;
  }

  // ---------------------------------------------------------------- the shim's loop

  /** Nothing launches on the stream unless the stage says so. */
  lemma NoLaunch(w: World, st: Stage)
    requires LocalsOk(ViewOf(w), st) && !st.Delivering?
    ensures NoLaunches(w.toShim)
  {
    forall i | 0 <= i < |w.toShim| ensures w.toShim[i].typ != INIT && w.toShim[i].typ != TRANSACTION {
      var m := w.toShim[i];
      assert m in multiset(w.toShim);
      assert LocalOk(LocalOf(ViewOf(w), m.uuid), ShareOf(st, m.uuid));
    }
  }

  lemma RepliesOnly(q: seq<Msg>)
    requires q != [] && Fold(SInit, q).Some? && NoEnds(q)
    ensures Msg(RESPONSE, q[0].uuid) in multiset(q)
  {
    assert q[0].typ != COMPLETED;
    assert q[0] in multiset(q);
  }

  lemma NoReplies(x: View, st: Stage, v: Uuid)
    requires LocalsOk(x, st) && st.Ending? && st.mode.MInit? && st.phase.EndOffered?
    ensures Msg(RESPONSE, v) !in x.down
  {
    assert LocalOk(LocalOf(x, v), ShareOf(st, v));
  }

  /** While an initialisation ends, nothing is on its way to the shim. */
  lemma InitEndsQuietly(w: World, st: Stage)
    requires Inv(w, st) && st.Ending? && st.mode.MInit? && st.phase.EndOffered?
    ensures w.shim.fsm == SInit && w.toShim == []
  {
    NoLaunch(w, st);
    LaunchedBefore(w.shim.fsm, w.toShim, SInit);
    if w.toShim != [] {
      RepliesOnly(w.toShim);
      NoReplies(ViewOf(w), st, w.toShim[0].uuid);
      assert false;
    }
  }

  lemma TakeFinishKeeps(w: World, st: Stage, u: Uuid)
    requires Inv(w, st) && u in w.shim.threads && w.shim.threads[u].phase.Finishing? && w.shim.loop == Free
    ensures st.Ending? && Inv(DoTakeFinish(w, u), st.(phase := EndSending))
  {
    TakeFinishLocals(ViewOf(w), st, u);
    if st.mode.MInit? {
      InitEndsQuietly(w, st);
    } else {
      NoLaunch(w, st);
      LaunchedBefore(w.shim.fsm, w.toShim, STransaction);
      FoldAfterTransaction(w.toShim);
    }
  }

  lemma ShimSendKeeps(w: World, st: Stage)
    requires Inv(w, st) && w.shim.loop.Sending?
    ensures st.Ending? && Inv(DoShimSend(w), st.(phase := EndInFlight))
  {
    ShimSendLocals(ViewOf(w), st, st.u, w.shim.loop.msg.typ);
    AppendToPeer(w.toPeer, w.shim.loop.msg);
  }

  lemma HeadToShim(w: World, m: Msg)
    requires w.toShim != [] && m == w.toShim[0] && NoEnds(w.toShim)
    ensures m in multiset(w.toShim) && m.typ != COMPLETED && m.typ != ERROR && NoEnds(w.toShim[1..])
    ensures ViewOf(DoShimReceive(w)) == TakeDown(ViewOf(w), m)
  {
    assert w.toShim == [m] + w.toShim[1..];
  }

  lemma ShimReceiveLocals(w: World, st: Stage, m: Msg) returns (st': Stage)
    requires LocalsOk(ViewOf(w), st) && m in multiset(w.toShim) && ShimNext(w.shim.fsm, m.typ).Some?
    requires m.typ != COMPLETED && m.typ != ERROR
    ensures LocalsOk(TakeDown(ViewOf(w), m), st') && Taken(w.shim, S.HandleMessage(w.shim, m), m)
    ensures if st' == st then true else st.Delivering? && st' == Executing(st.u, st.mode, NoWrite)
  {
    var x := ViewOf(w);
    st' := st;
    if m.typ == INIT || m.typ == TRANSACTION {
      LaunchArrives(x, st, m);
      st' := Executing(m.uuid, st.mode, NoWrite);
    } else if m.typ == QUERY {
      QueryArrives(x, st, m);
    } else if m.typ == RESPONSE {
      ReplyArrives(x, st, m);
    } else {
      BootArrives(x, st, m);
    }
  }

  lemma ShimReceiveKeeps(w: World, st: Stage) returns (st': Stage)
    requires Inv(w, st) && w.toShim != [] && w.shim.loop == Free
    ensures Inv(DoShimReceive(w), st')
  {
    HeadToShim(w, w.toShim[0]);
    st' := ShimReceiveLocals(w, st, w.toShim[0]);
  }

  // ---------------------------------------------------------------- the peer's loop

  lemma PeerSendKeeps(w: World, st: Stage)
    requires Inv(w, st) && w.peer.loop.Sending?
    ensures Inv(DoPeerSend(w), AfterSend(st))
  {
    AppendToShim(w.shim.fsm, w.toShim, w.peer.loop.msg);
    PeerSendLocals(ViewOf(w), st, w.peer.loop.msg);
  }

  lemma ReplyTakenKeeps(w: World, st: Stage, u: Uuid)
    requires Inv(w, st) && u in w.peer.offersOk
    ensures st.Executing? && st.write.Offered? && Inv(w.(peer := ReplyTaken(w.peer, u)), st.(write := Replying))
  {
    TakeReplyLocals(ViewOf(w), st, u);
  }

  lemma TakesReply(w: World, u: Uuid)
    requires w.peer.fsm == BusyInit || w.peer.fsm == BusyXact
    ensures DoPeerTakeReply(w, u) == w.(peer := ReplyTaken(w.peer, u))
  {
    assert w.toShim + [] == w.toShim;
  }

  lemma TakeReplyKeeps(w: World, st: Stage, u: Uuid)
    requires Inv(w, st) && u in w.peer.offersOk
    ensures st.Executing? && Inv(DoPeerTakeReply(w, u), st.(write := Replying))
  {
    ReplyTakenKeeps(w, st, u);
    TakesReply(w, u);
  }

  // What the executor offers.

  function InitTaken(w: World, u: Uuid): World {
    w.(peer := P.Mark(w.peer, u, true).(fsm := Init), toShim := w.toShim + [Msg(INIT, u)], exec := AwaitingNotice(u))
  }

  lemma InitTakenKeeps(w: World, st: Stage, u: Uuid)
    requires Inv(w, st) && w.peer.loop == Free && w.exec == Offering(Msg(INIT, u))
    ensures st.Registered? && Inv(InitTaken(w, u), Delivering(u, MInit))
  {
    AppendToShim(w.shim.fsm, w.toShim, Msg(INIT, u));
    TakeInitLocals(ViewOf(w), st, u);
  }

  function ReadyTaken(w: World, u: Uuid): World {
    w.(peer := P.Conclude(w.peer, Msg(READY, u)).(fsm := Ready, loop := Sending(Msg(READY, u))), exec := AwaitingNotice(u))
  }

  lemma ReadyTakenKeeps(w: World, st: Stage, u: Uuid)
    requires Inv(w, st) && w.peer.loop == Free && w.exec == Offering(Msg(READY, u))
    ensures st.Registered? && Inv(ReadyTaken(w, u), Readying(u))
  {
    ConcludeEffect(w.peer, Msg(READY, u), Ready, Sending(Msg(READY, u)));
    TakeReadyLocals(ViewOf(w), st, u, ReadyTaken(w, u).peer);
  }

  function TransactionTaken(w: World, u: Uuid): World {
    w.(peer := w.peer.(fsm := Transaction, loop := Sending(Msg(TRANSACTION, u))), exec := AwaitingNotice(u))
  }

  lemma TransactionTakenKeeps(w: World, st: Stage, u: Uuid)
    requires Inv(w, st) && w.peer.loop == Free && w.exec == Offering(Msg(TRANSACTION, u))
    ensures st.Calm? && Inv(TransactionTaken(w, u), Launching(u))
  {
    TakeTransactionLocals(ViewOf(w), st, u, Sending(Msg(TRANSACTION, u)));
  }

  lemma TakesInit(w: World, u: Uuid)
    requires w.exec == Offering(Msg(INIT, u)) && w.peer.fsm == Established && w.peer.loop == Free
    ensures DoPeerTakeExec(w) == InitTaken(w, u)
  {
  }

  lemma TakesReady(w: World, u: Uuid)
    requires w.exec == Offering(Msg(READY, u)) && w.peer.fsm == Established
    ensures DoPeerTakeExec(w) == ReadyTaken(w, u)
  {
    assert w.toShim + [] == w.toShim;
  }

  lemma TakesTransaction(w: World, u: Uuid)
    requires w.exec == Offering(Msg(TRANSACTION, u)) && w.peer.fsm == Ready
    ensures DoPeerTakeExec(w) == TransactionTaken(w, u)
  {
    assert w.toShim + [] == w.toShim;
  }

  lemma TakeExecKeeps(w: World, st: Stage) returns (st': Stage)
    requires Inv(w, st) && w.peer.loop == Free && w.exec.Offering?
    ensures Inv(DoPeerTakeExec(w), st')
  {
    var m := w.exec.msg;
    if m.typ == INIT {
      InitTakenKeeps(w, st, m.uuid);
      TakesInit(w, m.uuid);
      st' := Delivering(m.uuid, MInit);
    } else if m.typ == READY {
      ReadyTakenKeeps(w, st, m.uuid);
      TakesReady(w, m.uuid);
      st' := Readying(m.uuid);
    } else {
      TransactionTakenKeeps(w, st, m.uuid);
      TakesTransaction(w, m.uuid);
      st' := Launching(m.uuid);
    }
  }

  // What the shim sends.

  function Received(w: World, p: P.Peer): World
    requires w.toPeer != []
  {
    w.(peer := p, toPeer := w.toPeer[1..])
  }

  lemma HeadToPeer(w: World, m: Msg, p: P.Peer)
    requires w.toPeer != [] && m == w.toPeer[0] && AllFromShim(w.toPeer)
    ensures m in multiset(w.toPeer) && FromShim(m.typ) && AllFromShim(w.toPeer[1..])
    ensures ViewOf(Received(w, p)) == ViewOf(w).(peer := p, up := multiset(w.toPeer) - multiset{m})
  {
    assert w.toPeer == [m] + w.toPeer[1..];
  }

  function RegisterReceived(w: World): World
    requires w.toPeer != []
  {
    Received(w, w.peer.(fsm := Established)).(toShim := w.toShim + [Msg(REGISTERED, 0)])
  }

  lemma RegisterKeeps(w: World, st: Stage)
    requires Inv(w, st) && st.Boot?
    ensures Inv(RegisterReceived(w), Registered)
  {
    AppendToShim(w.shim.fsm, w.toShim, Msg(REGISTERED, 0));
    RegisterLocals(ViewOf(w), st, w.peer.(fsm := Established));
  }

  lemma ReceiveReadKeeps(w: World, st: Stage, m: Msg)
    requires Inv(w, st) && !st.Boot? && w.toPeer != [] && m == w.toPeer[0] && IsRead(m.typ)
    ensures w.peer.fsm != Created && w.peer.fsm != Established && w.peer.fsm != End
    ensures Inv(Received(w, P.SpawnRead(w.peer, m.uuid)), st)
  {
    HeadToPeer(w, m, P.SpawnRead(w.peer, m.uuid));
    ReceiveReadLocals(ViewOf(w), st, m);
    RestKeeps(w, Received(w, P.SpawnRead(w.peer, m.uuid)), st);
  }

  lemma ReceiveWriteKeeps(w: World, st: Stage, m: Msg)
    requires Inv(w, st) && !st.Boot? && w.toPeer != [] && m == w.toPeer[0] && (m.typ == PUT_STATE || m.typ == DEL_STATE)
    ensures st.Executing? && st.write.InFlight? && Inv(Received(w, WriteReceived(w.peer, m.uuid)), st.(write := Spawned))
  {
    HeadToPeer(w, m, WriteReceived(w.peer, m.uuid));
    ReceiveWriteLocals(ViewOf(w), st, m);
  }

  function EndReceived(p: P.Peer, m: Msg): P.Peer {
    P.Conclude(p, m).(fsm := if p.fsm == Init && m.typ == ERROR then End else Ready, loop := Free)
  }

  lemma ReceiveEndKeeps(w: World, st: Stage, m: Msg)
    requires Inv(w, st) && !st.Boot? && w.toPeer != [] && m == w.toPeer[0] && (m.typ == COMPLETED || m.typ == ERROR)
    ensures st.Ending? && st.phase.EndInFlight? && Inv(Received(w, EndReceived(w.peer, m)), AfterEnd(st.mode, st.ok))
  {
    var p := EndReceived(w.peer, m);
    HeadToPeer(w, m, p);
    if m.uuid in w.peer.contexts {
      ConcludeEffect(w.peer, m, p.fsm, Free);
    }
    ReceiveEndLocals(ViewOf(w), st, m, p);
  }

  function QueryEndReceived(p: P.Peer, m: Msg): P.Peer {
    P.Conclude(p, m).(fsm := p.fsm, loop := p.loop)
  }

  lemma ReceiveQueryEndKeeps(w: World, st: Stage, m: Msg)
    requires Inv(w, st) && !st.Boot? && w.toPeer != [] && m == w.toPeer[0] && (m.typ == QUERY_COMPLETED || m.typ == QUERY_ERROR)
    ensures Inv(Received(w, QueryEndReceived(w.peer, m)), st)
  {
    var p := QueryEndReceived(w.peer, m);
    HeadToPeer(w, m, p);
    if m.uuid in w.peer.contexts {
      ConcludeEffect(w.peer, m, w.peer.fsm, w.peer.loop);
    }
    ReceiveQueryEndLocals(ViewOf(w), st, m, p);
    RestKeeps(w, Received(w, p), st);
  }

  lemma ReceivesRegister(w: World)
    requires w.toPeer != [] && w.toPeer[0] == Msg(REGISTER, 0) && w.peer.fsm == Created && w.peer.loop == Free
    ensures DoPeerReceive(w) == RegisterReceived(w)
  {
  }

  lemma ReadsAt(p: P.Peer, m: Msg)
    requires p.loop == Free && IsRead(m.typ) && p.fsm != Created && p.fsm != Established && p.fsm != End
    ensures P.Receive(p, m) == P.SpawnRead(p, m.uuid) && P.Sends(p, m) == []
  {
    assert PeerNext(p.fsm, m.typ) == Some(p.fsm);
    assert P.HandleMessage(p, m) == (P.SpawnRead(p, m.uuid), true);
  }

  lemma ReceivesRead(w: World, m: Msg)
    requires w.toPeer != [] && m == w.toPeer[0] && w.peer.loop == Free && IsRead(m.typ)
    requires w.peer.fsm != Created && w.peer.fsm != Established && w.peer.fsm != End
    ensures DoPeerReceive(w) == Received(w, P.SpawnRead(w.peer, m.uuid))
  {
    ReadsAt(w.peer, m);
    assert w.toShim + [] == w.toShim;
  }

  lemma WritesAt(p: P.Peer, m: Msg)
    requires p.loop == Free && (m.typ == PUT_STATE || m.typ == DEL_STATE) && (p.fsm == Init || p.fsm == Transaction)
    ensures P.Receive(p, m) == WriteReceived(p, m.uuid) && P.Sends(p, m) == []
  {
    var dst := if p.fsm == Init then BusyInit else BusyXact;
    assert PeerNext(p.fsm, m.typ) == Some(dst);
    assert P.HandleMessage(p, m) == (P.SpawnWrite(p.(fsm := dst), m.uuid), true);
  }

  lemma ReceivesWrite(w: World, m: Msg)
    requires w.toPeer != [] && m == w.toPeer[0] && w.peer.loop == Free && (m.typ == PUT_STATE || m.typ == DEL_STATE)
    requires w.peer.fsm == Init || w.peer.fsm == Transaction
    ensures DoPeerReceive(w) == Received(w, WriteReceived(w.peer, m.uuid))
  {
    WritesAt(w.peer, m);
    assert w.toShim + [] == w.toShim;
  }

  lemma EndsAt(p: P.Peer, m: Msg)
    requires p.loop == Free && (p.fsm == Init || p.fsm == Transaction) && (m.typ == COMPLETED || m.typ == ERROR)
    ensures P.Receive(p, m) == EndReceived(p, m)
  {
    var dst := if p.fsm == Init && m.typ == ERROR then End else Ready;
    assert PeerNext(p.fsm, m.typ) == Some(dst);
    assert P.HandleMessage(p, m) == (P.Conclude(p.(fsm := dst), m), true);
  }

  lemma ReceivesEnd(w: World, m: Msg)
    requires w.toPeer != [] && m == w.toPeer[0] && w.peer.loop == Free && (m.typ == COMPLETED || m.typ == ERROR)
    requires w.peer.fsm == Init || w.peer.fsm == Transaction
    ensures DoPeerReceive(w) == Received(w, EndReceived(w.peer, m))
  {
    EndsAt(w.peer, m);
    assert w.toShim + [] == w.toShim;
  }

  lemma ReceivesQueryEnd(w: World, m: Msg)
    requires w.toPeer != [] && m == w.toPeer[0] && w.peer.loop == Free && (m.typ == QUERY_COMPLETED || m.typ == QUERY_ERROR)
    ensures DoPeerReceive(w) == Received(w, QueryEndReceived(w.peer, m))
  {
    assert w.toShim + [] == w.toShim;
  }

  lemma PeerReceiveKeeps(w: World, st: Stage) returns (st': Stage)
    requires Inv(w, st) && w.toPeer != [] && w.peer.loop == Free
    ensures Inv(DoPeerReceive(w), st')
  {
    var m := w.toPeer[0];
    if st.Boot? {
      RegisterKeeps(w, st);
      ReceivesRegister(w);
      st' := Registered;
    } else {
      assert FromShim(m.typ);
      st' := ReceiveFromShimKeeps(w, st, m);
    }
  }

  lemma ReceiveFromShimKeeps(w: World, st: Stage, m: Msg) returns (st': Stage)
    requires Inv(w, st) && !st.Boot? && w.toPeer != [] && m == w.toPeer[0] && w.peer.loop == Free && FromShim(m.typ)
    ensures Inv(DoPeerReceive(w), st')
  {
    if IsRead(m.typ) {
      ReceiveReadKeeps(w, st, m);
      ReceivesRead(w, m);
      st' := st;
    } else if m.typ == PUT_STATE || m.typ == DEL_STATE {
      ReceiveWriteKeeps(w, st, m);
      ReceivesWrite(w, m);
      st' := st.(write := Spawned);
    } else if m.typ == COMPLETED || m.typ == ERROR {
      ReceiveEndKeeps(w, st, m);
      ReceivesEnd(w, m);
      st' := AfterEnd(st.mode, st.ok);
    } else {
      ReceiveQueryEndKeeps(w, st, m);
      ReceivesQueryEnd(w, m);
      st' := st;
    }
  }

  // ---------------------------------------------------------------- every run

  lemma ThreadStepKeeps(w: World, st: Stage, op: Op) returns (st': Stage)
    requires Inv(w, st) && Allowed(w, op) && (op.StartThread? || op.Request? || op.ResumeThread? || op.EndThread?)
    ensures Inv(Step(w, op), st')
  {
    st' := st;
    match op
    case StartThread(u) => StartThreadKeeps(w, st, u);
    case ResumeThread(u) => ResumeThreadKeeps(w, st, u);
    case Request(u, t) =>
      if IsRead(t) {
        RequestReadKeeps(w, st, u, t);
      } else if w.shim.threads[u].tx {
        RequestWriteKeeps(w, st, u, t);
        st' := st.(write := InFlight);
      } else {
        QueryWriteRefused(w, st, u, t);
      }
    case EndThread(u, ok) =>
      if w.shim.threads[u].tx {
        EndTransactionKeeps(w, st, u, ok);
        st' := Ending(u, st.mode, ok, EndOffered);
      } else {
        EndQueryKeeps(w, st, u, ok);
      }
  }

  lemma StepKeeps(w: World, st: Stage, op: Op) returns (st': Stage)
    requires Inv(w, st) && Allowed(w, op)
    ensures Inv(Step(w, op), st')
  {
    st' := st;
    match op
    case Launch(u, deploy) => LaunchKeeps(w, st, u, deploy);
    case Submit(u) => SubmitKeeps(w, st, u);
    case Collect => CollectKeeps(w, st, w.exec.uuid);
    case SubmitQuery(u) => SubmitQueryKeeps(w, st, u);
    case CollectQuery(u) => CollectQueryKeeps(w, st, u);
    case PeerReceive => st' := PeerReceiveKeeps(w, st);
    case PeerTakeExec => st' := TakeExecKeeps(w, st);
    case PeerTakeReply(u) => TakeReplyKeeps(w, st, u); st' := st.(write := Replying);
    case PeerSend => PeerSendKeeps(w, st); st' := AfterSend(st);
    case StartRead(u) => StartReadKeeps(w, st, u);
    case ReleaseRead(u) => ReleaseReadKeeps(w, st, u);
    case ReplyRead(u, _) => ReplyReadKeeps(w, st, u);
    case StartWrite(u) => StartWriteKeeps(w, st, u); st' := st.(write := Entered);
    case FinishWrite(u, _) => FinishWriteKeeps(w, st, u); st' := st.(write := Offered);
    case ShimReceive => st' := ShimReceiveKeeps(w, st);
    case ShimTakeFinish(u) => TakeFinishKeeps(w, st, u); st' := st.(phase := EndSending);
    case ShimSend => ShimSendKeeps(w, st); st' := st.(phase := EndInFlight);
    case _ => st' := ThreadStepKeeps(w, st, op);
  }

  /** The run that performs ops one after the other, each allowed where it happens. */
  ghost predicate Reaches(w: World, ops: seq<Op>, w': World)
    decreases |ops|
  {
    if ops == [] then w' == w
    else Allowed(w, ops[0]) && Reaches(Step(w, ops[0]), ops[1..], w')
  }

  lemma {:induction false} RunKeeps(w: World, st: Stage, ops: seq<Op>, w': World) returns (st': Stage)
    requires Inv(w, st) && Reaches(w, ops, w')
    ensures Inv(w', st')
    decreases |ops|
  {
    if ops == [] {
      st' := st;
    } else {
      var next := StepKeeps(w, st, ops[0]);
      st' := RunKeeps(Step(w, ops[0]), next, ops[1..], w');
    }
  }

  predicate Matching(p: PeerState, s: ShimState) {
    match p
    case Created => s == SCreated
    case Established => s == SEstablished
    case Init => s == SInit
    case BusyInit => s == SInit
    case Ready => s == SReady
    case Transaction => s == STransaction
    case BusyXact => s == STransaction
    case End => s == SEstablished
  }

  /** No message is in flight. */
  predicate Quiet(w: World) {
    w.toShim == [] && w.toPeer == [] && w.peer.loop == Free && w.shim.loop == Free
  }

  lemma QuietMatches(w: World, st: Stage)
    requires Inv(w, st) && Quiet(w)
    ensures Matching(w.peer.fsm, w.shim.fsm)
  {
    if st.Delivering? || st.Ending? {
      assert LocalOk(LocalOf(ViewOf(w), st.u), ShareOf(st, st.u));
    }
  }

  lemma ReachedInv(ops: seq<Op>, w: World) returns (st: Stage)
    requires Reaches(Start, ops, w)
    ensures Inv(w, st)
  {
    StartInv();
    st := RunKeeps(Start, Boot, ops, w);
  }

  /** In every run neither loop is ever handed a message it cannot take, no request is
      dropped as a duplicate, and whenever no message is in flight the machines match. */
  lemma EveryRunInLockstep(ops: seq<Op>, w: World)
    requires Reaches(Start, ops, w)
    ensures w.peer.loop != Dead && w.shim.loop != Dead && w.peer.dropped == 0
    ensures Quiet(w) ==> Matching(w.peer.fsm, w.shim.fsm)
  {
    var st := ReachedInv(ops, w);
    if Quiet(w) {
      QuietMatches(w, st);
    }
  }

  /** The replies, requests and goroutines that carry one uuid. */
  function RequestTraces(w: World, u: Uuid): nat {
    var l := LocalOf(ViewOf(w), u);
    l.up.gets + l.up.writes + l.peer.readSpawned + l.peer.readEntered + l.peer.readReleased
    + l.peer.writeSpawned + l.peer.writeEntered + l.peer.offersOk + l.down.replies
    + Count(w.peer.loop == Sending(Msg(RESPONSE, u)))
  }

  lemma Conserved(w: World, st: Stage, u: Uuid)
    requires Inv(w, st)
    ensures RequestTraces(w, u) == Count(S.InPhase(w.shim, u, S.Awaiting))
    ensures u in w.peer.uuidMap ==> S.InPhase(w.shim, u, S.Awaiting)
    ensures u in w.shim.responseChannel <==> S.InPhase(w.shim, u, S.Awaiting) || S.InPhase(w.shim, u, S.Delivered)
    ensures u in w.peer.contexts ==> |w.peer.contexts[u].notices| <= 1
  {
    assert LocalOk(LocalOf(ViewOf(w), u), ShareOf(st, u));
  }

  /** In every run a uuid has one request under way exactly while its execution waits for
      the reply, its entry in the peer's map is backed by a waiting channel of the shim,
      and no notifier is sent more than the one message it has room for. */
  lemma EveryRunConservesRequests(ops: seq<Op>, w: World, u: Uuid)
    requires Reaches(Start, ops, w)
    ensures RequestTraces(w, u) == Count(S.InPhase(w.shim, u, S.Awaiting))
    ensures u in w.peer.uuidMap ==> S.InPhase(w.shim, u, S.Awaiting) && u in w.shim.responseChannel
    ensures u in w.shim.responseChannel <==> S.InPhase(w.shim, u, S.Awaiting) || S.InPhase(w.shim, u, S.Delivered)
    ensures u in w.peer.contexts ==> |w.peer.contexts[u].notices| <= 1
  {
    var st := ReachedInv(ops, w);
    Conserved(w, st, u);
  }
}
