/** What an executor is told is what happened: the notice of a context names the outcome of
    the execution under it, for initialisations, transactions and queries alike. */
module LockstepOutcomes {
  import opened Common
  import opened ChaincodeFsm
  import opened Lockstep
  import opened LockstepShares
  import opened LockstepViews
  import opened LockstepRuns
  import P = PeerSpec
  import S = ShimSpec

  // What the steps of a run say of a uuid since it was last submitted: how that was, and how
  // the chaincode returned, if it has.
  datatype How = Deployed | Readied | Transacted | Queried
  datatype Record = Unsubmitted | Submitted(how: How, returned: Option<bool>)

  function RecordAfter(r: Record, op: Op, u: Uuid): Record {
    match op
    case Launch(v, deploy) => if v == u then Submitted(if deploy then Deployed else Readied, None) else r
    case Submit(v) => if v == u then Submitted(Transacted, None) else r
    case SubmitQuery(v) => if v == u then Submitted(Queried, None) else r
    case EndThread(v, ok) => if v == u && r.Submitted? then r.(returned := Some(ok)) else r
    case _ => r
  }

  function RecordOf(r: Record, ops: seq<Op>, u: Uuid): Record
    decreases |ops|
  {
    if ops == [] then r else RecordOf(RecordAfter(r, ops[0], u), ops[1..], u)
  }

  /** The one notice that tells the truth about a record. */
  function TrueNotice(r: Record): Option<MsgType> {
    match r
    case Unsubmitted => None
    case Submitted(Readied, _) => Some(READY)
    case Submitted(_, None) => None
    case Submitted(Queried, Some(ok)) => Some(if ok then QUERY_COMPLETED else QUERY_ERROR)
    case Submitted(_, Some(ok)) => Some(if ok then COMPLETED else ERROR)
  }

  // ---------------------------------------------------------------- the invariant

  predicate IsEnd(t: MsgType) {
    t == COMPLETED || t == ERROR || t == QUERY_COMPLETED || t == QUERY_ERROR
  }

  predicate EndTells(t: MsgType, r: Record) {
    IsEnd(t) && r.Submitted? && r.returned == Some(t == COMPLETED || t == QUERY_COMPLETED)
  }

  predicate ContextTells(p: P.Peer, exec: Exec, u: Uuid, r: Record) {
    u in p.contexts ==>
      var c := p.contexts[u];
      && r.Submitted? && (c.query <==> r.how == Queried)
      && (c.notices == [] || Some(c.notices[0]) == TrueNotice(r))
      && (r.how == Readied ==> c.notices != [] || exec == Offering(Msg(READY, u)))
  }

  predicate ExecTells(exec: Exec, u: Uuid, r: Record) {
    exec.Offering? && exec.msg.uuid == u ==>
      r == Submitted(if exec.msg.typ == INIT then Deployed else if exec.msg.typ == READY then Readied else Transacted, None)
  }

  predicate ThreadTells(s: S.Shim, u: Uuid, r: Record) {
    && (u in s.threads && s.threads[u].phase.Finishing? ==> r.Submitted? && r.returned == Some(s.threads[u].phase.ok))
    && (s.loop.Sending? && s.loop.msg.uuid == u ==> EndTells(s.loop.msg.typ, r))
  }

  predicate StreamTells(q: seq<Msg>, u: Uuid, r: Record) {
    forall i :: 0 <= i < |q| && q[i].uuid == u && IsEnd(q[i].typ) ==> EndTells(q[i].typ, r)
  }

  predicate Tells(w: World, u: Uuid, r: Record) {
    && ContextTells(w.peer, w.exec, u, r) && ExecTells(w.exec, u, r)
    && ThreadTells(w.shim, u, r) && StreamTells(w.toPeer, u, r)
  }

  // ---------------------------------------------------------------- nothing is left over

  /** No end of an execution under u is on its way. */
  predicate NoEndOf(w: World, u: Uuid) {
    && !(u in w.shim.threads && w.shim.threads[u].phase.Finishing?)
    && !(w.shim.loop.Sending? && w.shim.loop.msg.uuid == u)
    && forall i :: 0 <= i < |w.toPeer| && w.toPeer[i].uuid == u ==> !IsEnd(w.toPeer[i].typ)
  }

  lemma NoneOnStream(q: seq<Msg>, u: Uuid)
    requires UpOf(multiset(q), u).dones == 0 && UpOf(multiset(q), u).fails == 0 && UpOf(multiset(q), u).queryEnds == 0
    ensures forall i :: 0 <= i < |q| && q[i].uuid == u ==> !IsEnd(q[i].typ)
  {
    forall i | 0 <= i < |q| && q[i].uuid == u ensures !IsEnd(q[i].typ) {
      assert q[i] in multiset(q);
      assert q[i] == Msg(q[i].typ, u);
    }
  }

  lemma NoEndInShare(l: Local, st: Stage, u: Uuid)
    requires LocalOk(l, ShareOf(st, u))
    requires l.peer.context.None? || (l.shim.thread.Some? && l.shim.thread.value.phase == S.Running)
    ensures l.up.dones == 0 && l.up.fails == 0 && l.up.queryEnds == 0
    ensures !(l.shim.thread.Some? && l.shim.thread.value.phase.Finishing?)
    ensures !(st.Ending? && st.phase.EndSending? && st.u == u)
    ensures l.peer.context.Some? ==> l.peer.context.value.notified == 0
  {
  }

  lemma SendingIsEnding(w: World, st: Stage)
    requires ControlOf(w) == Expected(st) && w.shim.loop.Sending?
    ensures st.Ending? && st.phase.EndSending? && st.u == w.shim.loop.msg.uuid
  {
  }

  /** Neither before a uuid is submitted nor while its chaincode runs. */
  lemma NothingLeftOver(w: World, st: Stage, u: Uuid)
    requires Inv(w, st) && (u !in w.peer.contexts || S.InPhase(w.shim, u, S.Running))
    ensures NoEndOf(w, u)
    ensures u in w.peer.contexts ==> w.peer.contexts[u].notices == []
  {
    assert LocalOk(LocalOf(ViewOf(w), u), ShareOf(st, u));
    NoEndInShare(LocalOf(ViewOf(w), u), st, u);
    NoneOnStream(w.toPeer, u);
    if w.shim.loop.Sending? {
      SendingIsEnding(w, st);
    }
  }

  // ---------------------------------------------------------------- the steps

  /** A step that leaves u's context, the executor, the ends of u and the stream alone. */
  predicate Unconcerned(w: World, w': World, u: Uuid) {
    && Get(w'.peer.contexts, u) == Get(w.peer.contexts, u) && w'.exec == w.exec
    && w'.toPeer == w.toPeer && w'.shim == w.shim
  }

  lemma UnconcernedTells(w: World, w': World, u: Uuid, r: Record)
    requires Tells(w, u, r) && Unconcerned(w, w', u)
    ensures Tells(w', u, r)
  {
  }

  lemma SubmitTells(w: World, st: Stage, op: Op, u: Uuid, r: Record)
    requires Inv(w, st) && Allowed(w, op) && Tells(w, u, r) && (op.Launch? || op.Submit? || op.SubmitQuery?)
    ensures Tells(Step(w, op), u, RecordAfter(r, op, u))
  {
    if op.uuid == u {
      NothingLeftOver(w, st, u);
    }
  }

  lemma CollectTells(w: World, op: Op, u: Uuid, r: Record)
    requires Allowed(w, op) && Tells(w, u, r) && (op.Collect? || op.CollectQuery?)
    ensures Tells(Step(w, op), u, RecordAfter(r, op, u))
  {
  }

  /** A notice that the executor or the loop puts into a context. */
  lemma NoticeTells(w: World, m: Msg, p: P.Peer, exec: Exec, q: seq<Msg>, u: Uuid, r: Record)
    requires Tells(w, u, r) && p.contexts == P.Conclude(w.peer, m).contexts
    requires q == w.toPeer || (w.toPeer != [] && q == w.toPeer[1..])
    requires exec == w.exec || (w.exec == Offering(m) && !exec.Offering?)
    requires u == m.uuid && u in w.peer.contexts ==> w.peer.contexts[u].notices == [] && TrueNotice(r) == Some(m.typ)
    requires u != m.uuid || u !in w.peer.contexts ==> exec == w.exec || m.uuid != u
    ensures ContextTells(p, exec, u, r) && StreamTells(q, u, r)
  {
    if w.toPeer != [] && q == w.toPeer[1..] {
      assert forall i :: 0 <= i < |q| ==> q[i] == w.toPeer[i + 1];
    }
  }

  lemma TakeExecTells(w: World, st: Stage, u: Uuid, r: Record)
    requires Inv(w, st) && Allowed(w, PeerTakeExec) && Tells(w, u, r)
    ensures Tells(Step(w, PeerTakeExec), u, r)
  {
    var m := w.exec.msg;
    if m.typ == INIT {
      InitTakenKeeps(w, st, m.uuid);
      TakesInit(w, m.uuid);
      TakenTells(w, InitTaken(w, m.uuid), u, r);
    } else if m.typ == READY {
      TakeReadyTells(w, st, m, u, r);
    } else {
      TransactionTakenKeeps(w, st, m.uuid);
      TakesTransaction(w, m.uuid);
      TakenTells(w, DoPeerTakeExec(w), u, r);
    }
  }

  lemma TakenTells(w: World, w': World, u: Uuid, r: Record)
    requires Tells(w, u, r) && w.exec.Offering? && w.exec.msg.typ != READY && w'.exec == AwaitingNotice(w.exec.msg.uuid)
    requires w'.peer.contexts == w.peer.contexts && w'.shim == w.shim && w'.toPeer == w.toPeer
    ensures Tells(w', u, r)
  {
  }

  lemma TakeReadyTells(w: World, st: Stage, m: Msg, u: Uuid, r: Record)
    requires Inv(w, st) && Allowed(w, PeerTakeExec) && Tells(w, u, r) && m == w.exec.msg && m.typ == READY
    ensures Tells(Step(w, PeerTakeExec), u, r)
  {
    ReadyTakenKeeps(w, st, m.uuid);
    TakesReady(w, m.uuid);
    ReadyOffered(w, st);
    NoticeTells(w, m, ReadyTaken(w, m.uuid).peer, AwaitingNotice(m.uuid), w.toPeer, u, r);
  }

  lemma ReadyOffered(w: World, st: Stage)
    requires Inv(w, st) && w.exec.Offering? && w.exec.msg.typ == READY
    ensures w.exec.msg.uuid in w.peer.contexts && w.peer.contexts[w.exec.msg.uuid].notices == []
  {
  }

  lemma ReceiveTells(w: World, st: Stage, u: Uuid, r: Record)
    requires Inv(w, st) && Allowed(w, PeerReceive) && Tells(w, u, r)
    ensures Tells(Step(w, PeerReceive), u, r)
  {
    var m := w.toPeer[0];
    if st.Boot? {
      ReceivesRegister(w);
    } else {
      assert FromShim(m.typ);
      if IsRead(m.typ) {
        ReceiveReadKeeps(w, st, m);
        ReceivesRead(w, m);
        PoppedTells(w, P.SpawnRead(w.peer, m.uuid), u, r);
      } else if m.typ == PUT_STATE || m.typ == DEL_STATE {
        ReceiveWriteKeeps(w, st, m);
        ReceivesWrite(w, m);
        PoppedTells(w, WriteReceived(w.peer, m.uuid), u, r);
      } else if m.typ == COMPLETED || m.typ == ERROR {
        ReceiveEndTells(w, st, m, u, r);
      } else {
        ReceiveQueryEndTells(w, st, m, u, r);
      }
    }
  }

  lemma PoppedTells(w: World, p: P.Peer, u: Uuid, r: Record)
    requires Tells(w, u, r) && w.toPeer != [] && p.contexts == w.peer.contexts
    ensures Tells(Received(w, p), u, r)
  {
    var q := w.toPeer[1..];
    assert forall i :: 0 <= i < |q| ==> q[i] == w.toPeer[i + 1];
  }

  lemma ReceiveEndTells(w: World, st: Stage, m: Msg, u: Uuid, r: Record)
    requires Inv(w, st) && !st.Boot? && Allowed(w, PeerReceive) && Tells(w, u, r) && m == w.toPeer[0]
    requires m.typ == COMPLETED || m.typ == ERROR
    ensures Tells(Step(w, PeerReceive), u, r)
  {
    ReceiveEndKeeps(w, st, m);
    ReceivesEnd(w, m);
    EndOfMain(w, st, m);
    NoticeTells(w, m, EndReceived(w.peer, m), w.exec, w.toPeer[1..], u, r);
  }

  /** The end of an execution other than a query finds its context waiting. */
  lemma EndOfMain(w: World, st: Stage, m: Msg)
    requires Inv(w, st) && st.Ending? && w.toPeer != [] && m == w.toPeer[0] && (m.typ == COMPLETED || m.typ == ERROR)
    ensures m.uuid in w.peer.contexts ==> BriefOf(w.peer.contexts[m.uuid]) == Brief(false, 0)
    ensures !w.exec.Offering?
  {
    var l := LocalOf(ViewOf(w), m.uuid);
    assert LocalOk(l, ShareOf(st, m.uuid));
    assert m in multiset(w.toPeer) && m == Msg(m.typ, m.uuid);
  }

  lemma ReceiveQueryEndTells(w: World, st: Stage, m: Msg, u: Uuid, r: Record)
    requires Inv(w, st) && !st.Boot? && Allowed(w, PeerReceive) && Tells(w, u, r) && m == w.toPeer[0]
    requires m.typ == QUERY_COMPLETED || m.typ == QUERY_ERROR
    ensures Tells(Step(w, PeerReceive), u, r)
  {
    ReceiveQueryEndKeeps(w, st, m);
    ReceivesQueryEnd(w, m);
    EndOfQuery(w, st, m);
    NoticeTells(w, m, QueryEndReceived(w.peer, m), w.exec, w.toPeer[1..], u, r);
  }

  lemma EndOfQuery(w: World, st: Stage, m: Msg)
    requires Inv(w, st) && w.toPeer != [] && m == w.toPeer[0] && (m.typ == QUERY_COMPLETED || m.typ == QUERY_ERROR)
    ensures m.uuid in w.peer.contexts ==> BriefOf(w.peer.contexts[m.uuid]) == Brief(true, 0)
  {
    var l := LocalOf(ViewOf(w), m.uuid);
    assert LocalOk(l, ShareOf(st, m.uuid));
    assert m in multiset(w.toPeer) && m == Msg(m.typ, m.uuid);
  }

  lemma GoroutineTells(w: World, st: Stage, op: Op, u: Uuid, r: Record)
    requires Inv(w, st) && Allowed(w, op) && Tells(w, u, r)
    requires op.PeerTakeReply? || op.PeerSend? || op.StartRead? || op.ReleaseRead? || op.ReplyRead? || op.StartWrite? || op.FinishWrite?
    ensures Tells(Step(w, op), u, r)
  {
    if op.PeerTakeReply? {
      TakeReplyKeeps(w, st, op.uuid);
      OffersWhenBusy(w, st, op.uuid);
      TakesReply(w, op.uuid);
    }
    UnconcernedTells(w, Step(w, op), u, r);
  }

  lemma OffersWhenBusy(w: World, st: Stage, u: Uuid)
    requires Inv(w, st) && u in w.peer.offersOk
    ensures w.peer.fsm == BusyInit || w.peer.fsm == BusyXact
  {
    ReplyTakenKeeps(w, st, u);
  }

  lemma ShimLoopTells(w: World, st: Stage, op: Op, u: Uuid, r: Record)
    requires Inv(w, st) && Allowed(w, op) && Tells(w, u, r) && (op.ShimReceive? || op.ShimTakeFinish? || op.ShimSend?)
    ensures Tells(Step(w, op), u, r)
  {
    match op
    case ShimReceive => DeliveredTells(w.shim, w.toShim[0], u, r);
    case ShimTakeFinish(v) => FinishTells(w.shim, v, u, r);
    case ShimSend =>
  }

  lemma DeliveredTells(s: S.Shim, m: Msg, u: Uuid, r: Record)
    requires ThreadTells(s, u, r)
    ensures ThreadTells(S.HandleMessage(s, m), u, r)
  {
  }

  lemma FinishTells(s: S.Shim, v: Uuid, u: Uuid, r: Record)
    requires ThreadTells(s, u, r) && v in s.threads && s.threads[v].phase.Finishing?
    ensures ThreadTells(S.TakeFinish(s, v), u, r)
  {
    var m := S.FinishMsg(v, s.threads[v].phase.ok);
    var s1 := s.(threads := s.threads - {v});
    assert ThreadTells(s1, u, r);
    DeliveredTells(s1, m, u, r);
  }

  lemma ThreadStepTells(w: World, st: Stage, op: Op, u: Uuid, r: Record)
    requires Inv(w, st) && Allowed(w, op) && Tells(w, u, r)
    requires op.StartThread? || op.Request? || op.ResumeThread?
    ensures Tells(Step(w, op), u, r)
  {
  }

  lemma EndThreadTells(w: World, st: Stage, op: Op, u: Uuid, r: Record)
    requires Inv(w, st) && Allowed(w, op) && Tells(w, u, r) && op.EndThread?
    ensures Tells(Step(w, op), u, RecordAfter(r, op, u))
  {
    if op.uuid == u {
      NothingLeftOver(w, st, u);
      RunningHasContext(w, st, u);
    }
  }

  lemma RunningHasContext(w: World, st: Stage, u: Uuid)
    requires Inv(w, st) && S.InPhase(w.shim, u, S.Running)
    ensures u in w.peer.contexts && !(w.exec.Offering? && w.exec.msg.uuid == u)
  {
    var l := LocalOf(ViewOf(w), u);
    assert LocalOk(l, ShareOf(st, u));
  }

  lemma StepTells(w: World, st: Stage, op: Op, u: Uuid, r: Record)
    requires Inv(w, st) && Allowed(w, op) && Tells(w, u, r)
    ensures Tells(Step(w, op), u, RecordAfter(r, op, u))
  {
    match op
    case Launch(_, _) => SubmitTells(w, st, op, u, r);
    case Submit(_) => SubmitTells(w, st, op, u, r);
    case SubmitQuery(_) => SubmitTells(w, st, op, u, r);
    case Collect => CollectTells(w, op, u, r);
    case CollectQuery(_) => CollectTells(w, op, u, r);
    case PeerReceive => ReceiveTells(w, st, u, r);
    case PeerTakeExec => TakeExecTells(w, st, u, r);
    case ShimReceive => ShimLoopTells(w, st, op, u, r);
    case ShimTakeFinish(_) => ShimLoopTells(w, st, op, u, r);
    case ShimSend => ShimLoopTells(w, st, op, u, r);
    case StartThread(_) => ThreadStepTells(w, st, op, u, r);
    case Request(_, _) => ThreadStepTells(w, st, op, u, r);
    case ResumeThread(_) => ThreadStepTells(w, st, op, u, r);
    case EndThread(_, _) => EndThreadTells(w, st, op, u, r);
    case _ => GoroutineTells(w, st, op, u, r);
  }

  lemma {:induction false} RunTells(w: World, st: Stage, ops: seq<Op>, w': World, u: Uuid, r: Record)
    requires Inv(w, st) && Reaches(w, ops, w') && Tells(w, u, r)
    ensures Tells(w', u, RecordOf(r, ops, u))
    decreases |ops|
  {
    if ops != [] {
      StepTells(w, st, ops[0], u, r);
      var next := StepKeeps(w, st, ops[0]);
      RunTells(Step(w, ops[0]), next, ops[1..], w', u, RecordAfter(r, ops[0], u));
    }
  }

  /** In every run, the notice found in a context is READY if the chaincode was only launched;
      otherwise the chaincode has returned since the uuid was submitted, and the notice says
      success if and only if it returned with success. */
  lemma EveryNoticeTellsTheOutcome(ops: seq<Op>, w: World, u: Uuid)
    requires Reaches(Start, ops, w) && u in w.peer.contexts && w.peer.contexts[u].notices != []
    ensures var t, r := w.peer.contexts[u].notices[0], RecordOf(Unsubmitted, ops, u);
            && r.Submitted? && (t == READY <==> r.how == Readied)
            && (r.how != Readied ==>
                  && r.returned.Some? && (t == COMPLETED || t == QUERY_COMPLETED <==> r.returned.value)
                  && (t == QUERY_COMPLETED || t == QUERY_ERROR <==> r.how == Queried)
                  && IsEnd(t))
    ensures |w.peer.contexts[u].notices| == 1
  {
    NoticeIsTrue(ops, w, u);
  }

  lemma NoticeIsTrue(ops: seq<Op>, w: World, u: Uuid)
    requires Reaches(Start, ops, w) && u in w.peer.contexts && w.peer.contexts[u].notices != []
    ensures Some(w.peer.contexts[u].notices[0]) == TrueNotice(RecordOf(Unsubmitted, ops, u))
    ensures |w.peer.contexts[u].notices| == 1
  {
    StartInv();
    RunTells(Start, Boot, ops, w, u, Unsubmitted);
    EveryRunConservesRequests(ops, w, u);
  }

  /** So is what the executors collect, at the step at which they do. */
  lemma CollectedNoticeTellsTheOutcome(ops: seq<Op>, w: World, op: Op, u: Uuid)
    requires Reaches(Start, ops, w) && Allowed(w, op) && (op == CollectQuery(u) || (op == Collect && w.exec == AwaitingNotice(u)))
    ensures u in w.peer.contexts && |w.peer.contexts[u].notices| == 1
    ensures var t, r := w.peer.contexts[u].notices[0], RecordOf(Unsubmitted, ops, u);
            r.Submitted? && (t == COMPLETED || t == QUERY_COMPLETED <==> r.how != Readied && r.returned == Some(true))
  {
    EveryNoticeTellsTheOutcome(ops, w, u);
  }
}
