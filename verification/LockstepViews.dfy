/** Every step of a session keeps every uuid's part in order, stated on what a world
    holds: the two ends and the messages in flight. */
module LockstepViews {
  import opened Common
  import opened ChaincodeFsm
  import opened LockstepShares
  import P = PeerSpec
  import S = ShimSpec

  // ---------------------------------------------------------------- putting parts together

  ghost predicate OthersAlike(x: View, x': View, u: Uuid) {
    forall v: Uuid :: v != u ==> LocalOf(x', v) == LocalOf(x, v)
  }

  lemma BystandersKeep(l: Local, q: bool, q': bool)
    requires LocalOk(l, Bystander(q)) && (q ==> q')
    ensures LocalOk(l, Bystander(q'))
  {
  }

  /** A step that touches one uuid need only keep that uuid's part in order. */
  lemma Glue(x: View, x': View, st: Stage, st': Stage, u: Uuid)
    requires LocalsOk(x, st) && OthersAlike(x, x', u) && Moves(st, st', u)
    requires LocalOk(LocalOf(x', u), ShareOf(st', u))
    ensures LocalsOk(x', st')
  {
    forall v: Uuid ensures LocalOk(LocalOf(x', v), ShareOf(st', v)) {
      if v != u {
        assert LocalOf(x', v) == LocalOf(x, v);
        if st' != st {
          BystandersKeep(LocalOf(x, v), Launched(st), Launched(st'));
        }
      }
    }
  }

  lemma DownAdd(b: multiset<Msg>, m: Msg, u: Uuid)
    ensures DownOf(b + multiset{m}, u) == if m.uuid == u then AddDown(DownOf(b, u), m.typ) else DownOf(b, u)
  {
  }

  lemma DownRemove(b: multiset<Msg>, m: Msg, u: Uuid)
    requires m in b
    ensures DownOf(b, u) == if m.uuid == u then AddDown(DownOf(b - multiset{m}, u), m.typ) else DownOf(b - multiset{m}, u)
  {
  }

  lemma UpAdd(b: multiset<Msg>, m: Msg, u: Uuid)
    ensures UpOf(b + multiset{m}, u) == if m.uuid == u then AddUp(UpOf(b, u), m.typ) else UpOf(b, u)
  {
    assert forall t :: (b + multiset{m})[Msg(t, u)] == b[Msg(t, u)] + Count(m.typ == t && m.uuid == u);
  }

  lemma UpRemove(b: multiset<Msg>, m: Msg, u: Uuid)
    requires m in b
    ensures UpOf(b, u) == if m.uuid == u then AddUp(UpOf(b - multiset{m}, u), m.typ) else UpOf(b - multiset{m}, u)
  {
  }

  ghost predicate PeersAlike(p: P.Peer, p': P.Peer, u: Uuid) {
    forall v: Uuid :: v != u ==> PeerPartOf(p', v) == PeerPartOf(p, v)
  }

  ghost predicate ShimsAlike(s: S.Shim, s': S.Shim, u: Uuid) {
    forall v: Uuid :: v != u ==> ShimPartOf(s', v) == ShimPartOf(s, v)
  }

  /** A step in the peer that sends m. */
  lemma GluePeerSends(x: View, p: P.Peer, m: Msg, st: Stage, st': Stage, l: Local)
    requires LocalsOk(x, st) && Moves(st, st', m.uuid) && PeersAlike(x.peer, p, m.uuid)
    requires l == Local(AddDown(DownOf(x.down, m.uuid), m.typ),
                        UpOf(x.up, m.uuid), PeerPartOf(p, m.uuid), ShimPartOf(x.shim, m.uuid))
    requires LocalOk(l, ShareOf(st', m.uuid))
    ensures LocalsOk(x.(peer := p, down := x.down + multiset{m}), st')
  {
    var x' := x.(peer := p, down := x.down + multiset{m});
    forall v: Uuid ensures v != m.uuid ==> LocalOf(x', v) == LocalOf(x, v) {
      DownAdd(x.down, m, v);
    }
    DownAdd(x.down, m, m.uuid);
    assert LocalOf(x', m.uuid) == l;
    Glue(x, x', st, st', m.uuid);
  }

  /** A step in the shim that sends m. */
  lemma GlueShimSends(x: View, s: S.Shim, m: Msg, st: Stage, st': Stage, l: Local)
    requires LocalsOk(x, st) && Moves(st, st', m.uuid) && ShimsAlike(x.shim, s, m.uuid)
    requires l == Local(DownOf(x.down, m.uuid), AddUp(UpOf(x.up, m.uuid), m.typ),
                        PeerPartOf(x.peer, m.uuid), ShimPartOf(s, m.uuid))
    requires LocalOk(l, ShareOf(st', m.uuid))
    ensures LocalsOk(x.(shim := s, up := x.up + multiset{m}), st')
  {
    var x' := x.(shim := s, up := x.up + multiset{m});
    forall v: Uuid ensures v != m.uuid ==> LocalOf(x', v) == LocalOf(x, v) {
      UpAdd(x.up, m, v);
    }
    UpAdd(x.up, m, m.uuid);
    assert LocalOf(x', m.uuid) == l;
    Glue(x, x', st, st', m.uuid);
  }

  /** The peer takes m off its stream. */
  lemma GluePeerTakes(x: View, p: P.Peer, m: Msg, st: Stage, st': Stage, l: Local)
    requires LocalsOk(x, st) && Moves(st, st', m.uuid) && PeersAlike(x.peer, p, m.uuid) && m in x.up
    requires l.down == DownOf(x.down, m.uuid) && l.up == UpOf(x.up - multiset{m}, m.uuid)
    requires l.peer == PeerPartOf(p, m.uuid) && l.shim == ShimPartOf(x.shim, m.uuid)
    requires LocalOk(l, ShareOf(st', m.uuid))
    ensures LocalsOk(x.(peer := p, up := x.up - multiset{m}), st')
  {
    var x' := x.(peer := p, up := x.up - multiset{m});
    forall v: Uuid ensures v != m.uuid ==> LocalOf(x', v) == LocalOf(x, v) {
      UpRemove(x.up, m, v);
    }
    assert LocalOf(x', m.uuid) == l;
    Glue(x, x', st, st', m.uuid);
  }

  /** The shim takes m off its stream. */
  lemma GlueShimTakes(x: View, s: S.Shim, m: Msg, st: Stage, st': Stage, l: Local)
    requires LocalsOk(x, st) && Moves(st, st', m.uuid) && ShimsAlike(x.shim, s, m.uuid) && m in x.down
    requires l == Local(DownOf(x.down - multiset{m}, m.uuid), UpOf(x.up, m.uuid), PeerPartOf(x.peer, m.uuid), ShimPartOf(s, m.uuid))
    requires LocalOk(l, ShareOf(st', m.uuid))
    ensures LocalsOk(x.(shim := s, down := x.down - multiset{m}), st')
  {
    var x' := x.(shim := s, down := x.down - multiset{m});
    forall v: Uuid ensures v != m.uuid ==> LocalOf(x', v) == LocalOf(x, v) {
      DownRemove(x.down, m, v);
    }
    Glue(x, x', st, st', m.uuid);
  }

  // ---------------------------------------------------------------- executors

  lemma ContextEffect(p: P.Peer, u: Uuid, query: bool)
    ensures forall v: Uuid ::
              PeerPartOf(P.CreateContext(p, u, query), v) == if v == u then PeerPartOf(p, v).(context := Some(Brief(query, 0))) else PeerPartOf(p, v)
  {
  }

  lemma MarkEffect(p: P.Peer, u: Uuid, isTrans: bool)
    ensures forall v: Uuid ::
              PeerPartOf(P.Mark(p, u, isTrans), v) == if v == u then PeerPartOf(p, v).(marked := isTrans) else PeerPartOf(p, v)
  {
  }

  lemma DeleteEffect(p: P.Peer, u: Uuid)
    ensures forall v: Uuid ::
              PeerPartOf(P.DeleteContext(p, u), v) == if v == u then PeerPartOf(p, v).(context := None) else PeerPartOf(p, v)
  {
  }

  lemma FsmEffect(p: P.Peer, fsm: PeerState, loop: Loop)
    ensures forall v: Uuid :: PeerPartOf(p.(fsm := fsm, loop := loop), v) == PeerPartOf(p, v)
  {
  }

  lemma LaunchLocals(x: View, st: Stage, u: Uuid)
    requires LocalsOk(x, st) && u !in x.peer.contexts
    ensures LocalsOk(x.(peer := P.CreateContext(x.peer, u, false)), st)
  {
    ContextEffect(x.peer, u, false);
    Glue(x, x.(peer := P.CreateContext(x.peer, u, false)), st, st, u);
  }

  lemma SubmitLocals(x: View, st: Stage, u: Uuid)
    requires LocalsOk(x, st) && u !in x.peer.contexts
    ensures LocalsOk(x.(peer := P.Mark(P.CreateContext(x.peer, u, false), u, true)), st)
  {
    ContextEffect(x.peer, u, false);
    MarkEffect(P.CreateContext(x.peer, u, false), u, true);
    Glue(x, x.(peer := P.Mark(P.CreateContext(x.peer, u, false), u, true)), st, st, u);
  }

  lemma CollectLocals(x: View, st: Stage, u: Uuid)
    requires LocalsOk(x, st) && u in x.peer.contexts && x.peer.contexts[u].notices != []
    ensures !IsMain(st, u)
    ensures LocalsOk(x.(peer := P.DeleteContext(x.peer, u)), st)
  {
    assert LocalOk(LocalOf(x, u), ShareOf(st, u));
    DeleteEffect(x.peer, u);
    Glue(x, x.(peer := P.DeleteContext(x.peer, u)), st, st, u);
  }

  lemma QueryShare(l: Local, st: Stage, u: Uuid)
    requires LocalOk(l, ShareOf(st, u)) && l.peer.context == None && Launched(st)
    ensures LocalOk(l.(down := AddDown(l.down, QUERY), peer := l.peer.(context := Some(Brief(true, 0)), marked := false)),
                    ShareOf(st, u))
  {
  }

  lemma SubmitQueryLocals(x: View, st: Stage, u: Uuid)
    requires LocalsOk(x, st) && u !in x.peer.contexts && Launched(st)
    ensures LocalsOk(x.(peer := P.Mark(P.CreateContext(x.peer, u, true), u, false), down := x.down + multiset{Msg(QUERY, u)}), st)
  {
    var l := LocalOf(x, u);
    ContextEffect(x.peer, u, true);
    MarkEffect(P.CreateContext(x.peer, u, true), u, false);
    var p, l' := P.Mark(P.CreateContext(x.peer, u, true), u, false),
                 l.(down := AddDown(l.down, QUERY), peer := l.peer.(context := Some(Brief(true, 0)), marked := false));
    assert PeersAlike(x.peer, p, u) && PeerPartOf(p, u) == l'.peer;
    QueryShare(l, st, u);
    GluePeerSends(x, p, Msg(QUERY, u), st, st, l');
  }

  // ---------------------------------------------------------------- request goroutines of the peer

  lemma StartReadEffect(p: P.Peer, u: Uuid)
    requires u in p.readSpawned && u !in p.uuidMap
    ensures forall v: Uuid ::
              PeerPartOf(P.StartRead(p, u), v) == if v == u then PeerPartOf(p, v).(readSpawned := p.readSpawned[u] - 1, readEntered := p.readEntered[u] + 1, inMap := true) else PeerPartOf(p, v)
  {
  }

  lemma ReleaseReadEffect(p: P.Peer, u: Uuid)
    requires u in p.readEntered
    ensures forall v: Uuid ::
              PeerPartOf(P.ReleaseRead(p, u), v) == if v == u then PeerPartOf(p, v).(readEntered := p.readEntered[u] - 1, readReleased := p.readReleased[u] + 1, inMap := false) else PeerPartOf(p, v)
  {
  }

  lemma ReplyReadEffect(p: P.Peer, u: Uuid)
    requires u in p.readReleased
    ensures forall v: Uuid ::
              PeerPartOf(P.ReplyRead(p, u, true).0, v) == if v == u then PeerPartOf(p, v).(readReleased := p.readReleased[u] - 1) else PeerPartOf(p, v)
  {
  }

  lemma StartWriteEffect(p: P.Peer, u: Uuid)
    requires u in p.writeSpawned && u !in p.uuidMap && P.IsTransaction(p, u)
    ensures forall v: Uuid ::
              PeerPartOf(P.StartWrite(p, u), v) == if v == u then PeerPartOf(p, v).(writeSpawned := p.writeSpawned[u] - 1, writeEntered := p.writeEntered[u] + 1, inMap := true) else PeerPartOf(p, v)
  {
  }

  lemma FinishWriteEffect(p: P.Peer, u: Uuid)
    requires u in p.writeEntered
    ensures forall v: Uuid ::
              PeerPartOf(P.FinishWrite(p, u, true), v) == if v == u then PeerPartOf(p, v).(writeEntered := p.writeEntered[u] - 1, offersOk := p.offersOk[u] + 1, inMap := false) else PeerPartOf(p, v)
  {
  }

  lemma StartReadLocals(x: View, st: Stage, u: Uuid)
    requires LocalsOk(x, st) && u in x.peer.readSpawned
    ensures u !in x.peer.uuidMap && LocalsOk(x.(peer := P.StartRead(x.peer, u)), st)
  {
    assert LocalOk(LocalOf(x, u), ShareOf(st, u));
    StartReadEffect(x.peer, u);
    Glue(x, x.(peer := P.StartRead(x.peer, u)), st, st, u);
  }

  lemma ReleaseReadLocals(x: View, st: Stage, u: Uuid)
    requires LocalsOk(x, st) && u in x.peer.readEntered
    ensures LocalsOk(x.(peer := P.ReleaseRead(x.peer, u)), st)
  {
    assert LocalOk(LocalOf(x, u), ShareOf(st, u));
    ReleaseReadEffect(x.peer, u);
    Glue(x, x.(peer := P.ReleaseRead(x.peer, u)), st, st, u);
  }

  lemma ReplyReadLocals(x: View, st: Stage, u: Uuid)
    requires LocalsOk(x, st) && u in x.peer.readReleased
    ensures Launched(st) || st.Executing?
    ensures LocalsOk(x.(peer := P.ReplyRead(x.peer, u, true).0, down := x.down + multiset{Msg(RESPONSE, u)}), st)
  {
    var l := LocalOf(x, u);
    ReplyReadShare(l, st, u);
    ReplyReadEffect(x.peer, u);
    GluePeerSends(x, P.ReplyRead(x.peer, u, true).0, Msg(RESPONSE, u), st, st,
                  l.(down := AddDown(l.down, RESPONSE), peer := l.peer.(readReleased := l.peer.readReleased - 1)));
  }

  lemma StartWriteLocals(x: View, st: Stage, u: Uuid)
    requires LocalsOk(x, st) && u in x.peer.writeSpawned
    ensures st.Executing? && st.u == u && st.write.Spawned? && u !in x.peer.uuidMap && P.IsTransaction(x.peer, u)
    ensures LocalsOk(x.(peer := P.StartWrite(x.peer, u)), st.(write := Entered))
  {
    StartWriteShare(LocalOf(x, u), st, u);
    StartWriteEffect(x.peer, u);
    Glue(x, x.(peer := P.StartWrite(x.peer, u)), st, st.(write := Entered), u);
  }

  lemma FinishWriteLocals(x: View, st: Stage, u: Uuid)
    requires LocalsOk(x, st) && u in x.peer.writeEntered
    ensures st.Executing? && st.u == u && st.write.Entered?
    ensures LocalsOk(x.(peer := P.FinishWrite(x.peer, u, true)), st.(write := Offered))
  {
    FinishWriteShare(LocalOf(x, u), st, u);
    FinishWriteEffect(x.peer, u);
    Glue(x, x.(peer := P.FinishWrite(x.peer, u, true)), st, st.(write := Offered), u);
  }

  // ---------------------------------------------------------------- executions on the shim

  lemma StartThreadEffect(s: S.Shim, u: Uuid)
    requires S.InPhase(s, u, S.Started)
    ensures forall v: Uuid ::
              ShimPartOf(S.StartThread(s, u), v) == if v == u then ShimPartOf(s, v).(thread := Some(S.Thread(s.threads[u].tx, S.Running)), mark := Some(s.threads[u].tx)) else ShimPartOf(s, v)
  {
  }

  lemma ResumeThreadEffect(s: S.Shim, u: Uuid)
    requires S.InPhase(s, u, S.Delivered)
    ensures forall v: Uuid ::
              ShimPartOf(S.ResumeThread(s, u), v) == if v == u then ShimPartOf(s, v).(thread := Some(S.Thread(s.threads[u].tx, S.Running)), channel := false) else ShimPartOf(s, v)
  {
  }

  lemma RequestEffect(s: S.Shim, u: Uuid, t: MsgType)
    requires S.InPhase(s, u, S.Running) && u !in s.responseChannel && (IsWrite(t) ==> Get(s.isTransaction, u) == Some(true))
    ensures forall v: Uuid ::
              ShimPartOf(S.Request(s, u, t).0, v) == if v == u then ShimPartOf(s, v).(thread := Some(S.Thread(s.threads[u].tx, S.Awaiting)), channel := true) else ShimPartOf(s, v)
  {
  }

  lemma EndQueryEffect(s: S.Shim, u: Uuid, ok: bool)
    requires S.InPhase(s, u, S.Running) && !s.threads[u].tx
    ensures forall v: Uuid ::
              ShimPartOf(S.EndThread(s, u, ok).0, v) == if v == u then ShimPartOf(s, v).(thread := None, mark := None) else ShimPartOf(s, v)
  {
  }

  lemma EndTransactionEffect(s: S.Shim, u: Uuid, ok: bool)
    requires S.InPhase(s, u, S.Running) && s.threads[u].tx
    ensures forall v: Uuid ::
              ShimPartOf(S.EndThread(s, u, ok).0, v) == if v == u then ShimPartOf(s, v).(thread := Some(S.Thread(true, S.Finishing(ok))), mark := None) else ShimPartOf(s, v)
  {
  }

  lemma StartThreadLocals(x: View, st: Stage, u: Uuid)
    requires LocalsOk(x, st) && S.InPhase(x.shim, u, S.Started)
    ensures LocalsOk(x.(shim := S.StartThread(x.shim, u)), st)
  {
    assert LocalOk(LocalOf(x, u), ShareOf(st, u));
    StartThreadEffect(x.shim, u);
    Glue(x, x.(shim := S.StartThread(x.shim, u)), st, st, u);
  }

  lemma ResumeThreadLocals(x: View, st: Stage, u: Uuid)
    requires LocalsOk(x, st) && S.InPhase(x.shim, u, S.Delivered)
    ensures LocalsOk(x.(shim := S.ResumeThread(x.shim, u)), st)
  {
    assert LocalOk(LocalOf(x, u), ShareOf(st, u));
    ResumeThreadEffect(x.shim, u);
    Glue(x, x.(shim := S.ResumeThread(x.shim, u)), st, st, u);
  }

  lemma RequestReadLocals(x: View, st: Stage, u: Uuid, t: MsgType)
    requires LocalsOk(x, st) && S.InPhase(x.shim, u, S.Running) && IsRead(t)
    ensures u !in x.shim.responseChannel && (Launched(st) || st.Executing?)
    ensures LocalsOk(x.(shim := S.Request(x.shim, u, t).0, up := x.up + multiset{Msg(t, u)}), st)
  {
    var l, tx := LocalOf(x, u), x.shim.threads[u].tx;
    RequestReadShare(l, st, u, tx, t);
    RequestEffect(x.shim, u, t);
    GlueShimSends(x, S.Request(x.shim, u, t).0, Msg(t, u), st, st,
                  l.(up := AddUp(l.up, t), shim := l.shim.(thread := Some(S.Thread(tx, S.Awaiting)), channel := true)));
  }

  lemma RequestWriteLocals(x: View, st: Stage, u: Uuid, t: MsgType)
    requires LocalsOk(x, st) && S.InPhase(x.shim, u, S.Running) && x.shim.threads[u].tx && (t == PUT_STATE || t == DEL_STATE)
    ensures u !in x.shim.responseChannel && Get(x.shim.isTransaction, u) == Some(true)
    ensures st.Executing? && st.u == u && st.write.NoWrite?
    ensures LocalsOk(x.(shim := S.Request(x.shim, u, t).0, up := x.up + multiset{Msg(t, u)}), st.(write := InFlight))
  {
    var l := LocalOf(x, u);
    RequestWriteShare(l, st, u, t);
    RequestEffect(x.shim, u, t);
    GlueShimSends(x, S.Request(x.shim, u, t).0, Msg(t, u), st, st.(write := InFlight),
                  l.(up := AddUp(l.up, t), shim := l.shim.(thread := Some(S.Thread(true, S.Awaiting)), channel := true)));
  }

  lemma EndQueryLocals(x: View, st: Stage, u: Uuid, ok: bool, t: MsgType)
    requires LocalsOk(x, st) && S.InPhase(x.shim, u, S.Running) && !x.shim.threads[u].tx
    requires t == QUERY_COMPLETED || t == QUERY_ERROR
    ensures Launched(st)
    ensures LocalsOk(x.(shim := S.EndThread(x.shim, u, ok).0, up := x.up + multiset{Msg(t, u)}), st)
  {
    var l := LocalOf(x, u);
    EndQueryShare(l, st, u, t);
    EndQueryEffect(x.shim, u, ok);
    GlueShimSends(x, S.EndThread(x.shim, u, ok).0, Msg(t, u), st, st,
                  l.(up := AddUp(l.up, t), shim := l.shim.(thread := None, mark := None)));
  }

  lemma EndTransactionLocals(x: View, st: Stage, u: Uuid, ok: bool)
    requires LocalsOk(x, st) && S.InPhase(x.shim, u, S.Running) && x.shim.threads[u].tx
    ensures st.Executing? && st.u == u && st.write.NoWrite?
    ensures LocalsOk(x.(shim := S.EndThread(x.shim, u, ok).0), Ending(u, st.mode, ok, EndOffered))
  {
    EndTransactionShare(LocalOf(x, u), st, u, ok);
    EndTransactionEffect(x.shim, u, ok);
    Glue(x, x.(shim := S.EndThread(x.shim, u, ok).0), st, Ending(u, st.mode, ok, EndOffered), u);
  }

  // ---------------------------------------------------------------- the shim's loop

  lemma TakeFinishEffect(s: S.Shim, u: Uuid)
    requires u in s.threads && s.threads[u].phase.Finishing? && u !in s.responseChannel
    ensures forall v: Uuid ::
              ShimPartOf(S.TakeFinish(s, u), v) == if v == u then ShimPartOf(s, v).(thread := None) else ShimPartOf(s, v)
  {
  }

  lemma SpawnEffect(s: S.Shim, m: Msg, u: Uuid)
    requires ShimNext(s.fsm, m.typ).Some? && m.uuid == u && (m.typ == INIT || m.typ == TRANSACTION || m.typ == QUERY) && u !in s.threads
    ensures S.HandleMessage(s, m).loop == s.loop && Some(S.HandleMessage(s, m).fsm) == ShimNext(s.fsm, m.typ)
    ensures forall v: Uuid ::
              ShimPartOf(S.HandleMessage(s, m), v) == if v == u then ShimPartOf(s, v).(thread := Some(S.Thread(m.typ != QUERY, S.Started))) else ShimPartOf(s, v)
  {
  }

  lemma DeliverEffect(s: S.Shim, m: Msg, u: Uuid)
    requires ShimNext(s.fsm, m.typ).Some? && m.uuid == u && m.typ == RESPONSE && u in s.responseChannel && S.InPhase(s, u, S.Awaiting)
    ensures S.HandleMessage(s, m).loop == s.loop && Some(S.HandleMessage(s, m).fsm) == ShimNext(s.fsm, m.typ)
    ensures forall v: Uuid ::
              ShimPartOf(S.HandleMessage(s, m), v) == if v == u then ShimPartOf(s, v).(thread := Some(S.Thread(s.threads[u].tx, S.Delivered))) else ShimPartOf(s, v)
  {
  }

  lemma TakeFinishLocals(x: View, st: Stage, u: Uuid)
    requires LocalsOk(x, st) && u in x.shim.threads && x.shim.threads[u].phase.Finishing?
    ensures st.Ending? && st.phase.EndOffered? && st.u == u && st.ok == x.shim.threads[u].phase.ok && u !in x.shim.responseChannel
    ensures LocalsOk(x.(shim := S.TakeFinish(x.shim, u)), st.(phase := EndSending))
  {
    TakeFinishShare(LocalOf(x, u), st, u, x.shim.threads[u].tx, x.shim.threads[u].phase.ok);
    TakeFinishEffect(x.shim, u);
    Glue(x, x.(shim := S.TakeFinish(x.shim, u)), st, st.(phase := EndSending), u);
  }

  lemma ShimSendLocals(x: View, st: Stage, u: Uuid, t: MsgType)
    requires LocalsOk(x, st) && st.Ending? && st.phase.EndSending? && st.u == u
    requires if st.ok then t == COMPLETED else t == ERROR
    ensures LocalsOk(x.(shim := x.shim.(loop := Free), up := x.up + multiset{Msg(t, u)}), st.(phase := EndInFlight))
  {
    var l := LocalOf(x, u);
    ShimSendShare(l, st, u, t);
    assert forall v: Uuid :: ShimPartOf(x.shim.(loop := Free), v) == ShimPartOf(x.shim, v);
    GlueShimSends(x, x.shim.(loop := Free), Msg(t, u), st, st.(phase := EndInFlight), l.(up := AddUp(l.up, t)));
  }

  /** What every message the shim takes off its stream does to its machine and loop. */
  predicate Taken(s: S.Shim, s': S.Shim, m: Msg) {
    s'.loop == s.loop && Some(s'.fsm) == ShimNext(s.fsm, m.typ)
  }

  function TakeDown(x: View, m: Msg): View {
    x.(shim := S.HandleMessage(x.shim, m), down := x.down - multiset{m})
  }

  lemma LaunchArrives(x: View, st: Stage, m: Msg)
    requires LocalsOk(x, st) && m in x.down && (m.typ == INIT || m.typ == TRANSACTION) && ShimNext(x.shim.fsm, m.typ).Some?
    ensures st.Delivering? && st.u == m.uuid && LocalsOk(TakeDown(x, m), Executing(m.uuid, st.mode, NoWrite))
    ensures Taken(x.shim, TakeDown(x, m).shim, m)
  {
    var l, d := LocalOf(x, m.uuid), DownOf(x.down - multiset{m}, m.uuid);
    DownRemove(x.down, m, m.uuid);
    LaunchArrivesShare(l, d, st, m.uuid, m.typ);
    SpawnEffect(x.shim, m, m.uuid);
    GlueShimTakes(x, S.HandleMessage(x.shim, m), m, st, Executing(m.uuid, st.mode, NoWrite),
                  l.(down := d, shim := l.shim.(thread := Some(S.Thread(true, S.Started)))));
  }

  lemma QueryArrives(x: View, st: Stage, m: Msg)
    requires LocalsOk(x, st) && m in x.down && m.typ == QUERY && ShimNext(x.shim.fsm, m.typ).Some?
    ensures LocalsOk(TakeDown(x, m), st) && Taken(x.shim, TakeDown(x, m).shim, m)
  {
    var l, d := LocalOf(x, m.uuid), DownOf(x.down - multiset{m}, m.uuid);
    DownRemove(x.down, m, m.uuid);
    QueryArrivesShare(l, d, st, m.uuid);
    SpawnEffect(x.shim, m, m.uuid);
    GlueShimTakes(x, S.HandleMessage(x.shim, m), m, st, st,
                  l.(down := d, shim := l.shim.(thread := Some(S.Thread(false, S.Started)))));
  }

  lemma ReplyArrives(x: View, st: Stage, m: Msg)
    requires LocalsOk(x, st) && m in x.down && m.typ == RESPONSE && ShimNext(x.shim.fsm, m.typ).Some?
    ensures LocalsOk(TakeDown(x, m), st) && Taken(x.shim, TakeDown(x, m).shim, m)
  {
    var l, d := LocalOf(x, m.uuid), DownOf(x.down - multiset{m}, m.uuid);
    DownRemove(x.down, m, m.uuid);
    ReplyArrivesShare(l, d, st, m.uuid);
    DeliverEffect(x.shim, m, m.uuid);
    GlueShimTakes(x, S.HandleMessage(x.shim, m), m, st, st,
                  l.(down := d, shim := l.shim.(thread := Some(S.Thread(l.shim.thread.value.tx, S.Delivered)))));
  }

  lemma BootArrives(x: View, st: Stage, m: Msg)
    requires LocalsOk(x, st) && m in x.down && (m.typ == REGISTERED || m.typ == READY) && ShimNext(x.shim.fsm, m.typ).Some?
    ensures LocalsOk(TakeDown(x, m), st) && Taken(x.shim, TakeDown(x, m).shim, m)
  {
    DownRemove(x.down, m, m.uuid);
    assert forall v: Uuid :: ShimPartOf(S.HandleMessage(x.shim, m), v) == ShimPartOf(x.shim, v);
    GlueShimTakes(x, S.HandleMessage(x.shim, m), m, st, st, LocalOf(x, m.uuid));
  }

  // ---------------------------------------------------------------- the peer's loop

  lemma PeerSendLocals(x: View, st: Stage, m: Msg)
    requires LocalsOk(x, st) && SendsIn(st, m)
    ensures LocalsOk(x.(peer := x.peer.(loop := Free), down := x.down + multiset{m}), AfterSend(st))
  {
    var l := LocalOf(x, m.uuid);
    PeerSendShare(l, st, m);
    FsmEffect(x.peer, x.peer.fsm, Free);
    assert x.peer.(fsm := x.peer.fsm, loop := Free) == x.peer.(loop := Free);
    GluePeerSends(x, x.peer.(loop := Free), m, st, AfterSend(st), l.(down := AddDown(l.down, m.typ)));
  }

  function ReplyTaken(p: P.Peer, u: Uuid): P.Peer {
    p.(offersOk := p.offersOk - multiset{u}, fsm := if p.fsm == BusyInit then Init else Transaction,
       loop := Sending(Msg(RESPONSE, u)))
  }

  lemma TakeReplyEffect(p: P.Peer, u: Uuid)
    requires u in p.offersOk
    ensures forall v: Uuid ::
              PeerPartOf(ReplyTaken(p, u), v)
              == if v == u then PeerPartOf(p, v).(offersOk := p.offersOk[u] - 1) else PeerPartOf(p, v)
  {
  }

  lemma TakeReplyLocals(x: View, st: Stage, u: Uuid)
    requires LocalsOk(x, st) && u in x.peer.offersOk
    ensures st.Executing? && st.u == u && st.write.Offered?
    ensures LocalsOk(x.(peer := ReplyTaken(x.peer, u)), st.(write := Replying))
  {
    TakeReplyShare(LocalOf(x, u), st, u);
    TakeReplyEffect(x.peer, u);
    Glue(x, x.(peer := ReplyTaken(x.peer, u)), st, st.(write := Replying), u);
  }

  lemma TakeInitLocals(x: View, st: Stage, u: Uuid)
    requires LocalsOk(x, st) && st.Registered? && ContextPart(x.peer, u) == Some(Brief(false, 0))
    ensures LocalsOk(x.(peer := P.Mark(x.peer, u, true).(fsm := Init), down := x.down + multiset{Msg(INIT, u)}), Delivering(u, MInit))
  {
    var l, p := LocalOf(x, u), P.Mark(x.peer, u, true).(fsm := Init);
    assert LocalOk(l, ShareOf(st, u));
    MarkEffect(x.peer, u, true);
    assert forall v: Uuid :: PeerPartOf(p, v) == PeerPartOf(P.Mark(x.peer, u, true), v);
    GluePeerSends(x, p, Msg(INIT, u), st, Delivering(u, MInit),
                  l.(down := AddDown(l.down, INIT), peer := l.peer.(marked := true)));
  }

  lemma TakeTransactionLocals(x: View, st: Stage, u: Uuid, loop: Loop)
    requires LocalsOk(x, st) && st.Calm? && ContextPart(x.peer, u) == Some(Brief(false, 0)) && P.IsTransaction(x.peer, u)
    ensures LocalsOk(x.(peer := x.peer.(fsm := Transaction, loop := loop)), Launching(u))
  {
    assert LocalOk(LocalOf(x, u), ShareOf(st, u));
    FsmEffect(x.peer, Transaction, loop);
    Glue(x, x.(peer := x.peer.(fsm := Transaction, loop := loop)), st, Launching(u), u);
  }

  /** One uuid loses its mark and is notified; nothing else about any uuid changes. */
  ghost predicate Concluded(p: P.Peer, p': P.Peer, u: Uuid) {
    && PeersAlike(p, p', u)
    && u in p.contexts
    && PeerPartOf(p', u) == PeerPartOf(p, u).(marked := false, context := Some(Brief(p.contexts[u].query, |p.contexts[u].notices| + 1)))
  }

  lemma ConcludeEffect(p: P.Peer, m: Msg, fsm: PeerState, loop: Loop)
    requires m.uuid in p.contexts
    ensures Concluded(p, P.Conclude(p, m).(fsm := fsm, loop := loop), m.uuid)
  {
  }

  lemma TakeReadyLocals(x: View, st: Stage, u: Uuid, p: P.Peer)
    requires LocalsOk(x, st) && st.Registered? && ContextPart(x.peer, u) == Some(Brief(false, 0)) && Concluded(x.peer, p, u)
    ensures LocalsOk(x.(peer := p), Readying(u))
  {
    var l := LocalOf(x, u);
    assert LocalOk(l, ShareOf(st, u));
    assert LocalOf(x.(peer := p), u) == l.(peer := l.peer.(marked := false, context := Some(Brief(false, 1))));
    Glue(x, x.(peer := p), st, Readying(u), u);
  }

  lemma RegisterLeaves(x: View, p: P.Peer, v: Uuid)
    requires x.up == multiset{Msg(REGISTER, 0)} && p == x.peer.(fsm := Established)
    ensures LocalOf(x.(peer := p, up := multiset{}, down := x.down + multiset{Msg(REGISTERED, 0)}), v) == LocalOf(x, v)
  {
    FsmEffect(x.peer, Established, x.peer.loop);
    assert p == x.peer.(fsm := Established, loop := x.peer.loop);
    DownAdd(x.down, Msg(REGISTERED, 0), v);
  }

  lemma RegisterLocals(x: View, st: Stage, p: P.Peer)
    requires LocalsOk(x, st) && st.Boot? && x.up == multiset{Msg(REGISTER, 0)} && p == x.peer.(fsm := Established)
    ensures LocalsOk(x.(peer := p, up := multiset{}, down := x.down + multiset{Msg(REGISTERED, 0)}), Registered)
  {
    var x' := x.(peer := p, up := multiset{}, down := x.down + multiset{Msg(REGISTERED, 0)});
    forall v: Uuid ensures LocalOk(LocalOf(x', v), ShareOf(Registered, v)) {
      RegisterLeaves(x, p, v);
      assert ShareOf(Registered, v) == ShareOf(st, v);
    }
  }

  lemma SpawnReadEffect(p: P.Peer, u: Uuid)
    ensures forall v: Uuid ::
              PeerPartOf(P.SpawnRead(p, u), v)
              == if v == u then PeerPartOf(p, v).(readSpawned := p.readSpawned[v] + 1) else PeerPartOf(p, v)
  {
  }

  lemma ReceiveReadLocals(x: View, st: Stage, m: Msg)
    requires LocalsOk(x, st) && m in x.up && IsRead(m.typ)
    ensures Launched(st) || st.Executing?
    ensures LocalsOk(x.(peer := P.SpawnRead(x.peer, m.uuid), up := x.up - multiset{m}), st)
  {
    var l, d := LocalOf(x, m.uuid), UpOf(x.up - multiset{m}, m.uuid);
    UpRemove(x.up, m, m.uuid);
    ReceiveReadShare(l, d, st, m.uuid, m.typ);
    SpawnReadEffect(x.peer, m.uuid);
    GluePeerTakes(x, P.SpawnRead(x.peer, m.uuid), m, st, st, l.(up := d, peer := l.peer.(readSpawned := l.peer.readSpawned + 1)));
  }

  function WriteReceived(p: P.Peer, u: Uuid): P.Peer {
    P.SpawnWrite(p, u).(fsm := if p.fsm == Init then BusyInit else BusyXact)
  }

  lemma SpawnWriteEffect(p: P.Peer, u: Uuid)
    ensures forall v: Uuid ::
              PeerPartOf(WriteReceived(p, u), v)
              == if v == u then PeerPartOf(p, v).(writeSpawned := p.writeSpawned[v] + 1) else PeerPartOf(p, v)
  {
  }

  lemma ReceiveWriteLocals(x: View, st: Stage, m: Msg)
    requires LocalsOk(x, st) && m in x.up && (m.typ == PUT_STATE || m.typ == DEL_STATE)
    ensures st.Executing? && st.u == m.uuid && st.write.InFlight?
    ensures LocalsOk(x.(peer := WriteReceived(x.peer, m.uuid), up := x.up - multiset{m}), st.(write := Spawned))
  {
    UpRemove(x.up, m, m.uuid);
    var l' := ReceiveWriteShare(LocalOf(x, m.uuid), UpOf(x.up - multiset{m}, m.uuid), st, m.uuid, m.typ);
    SpawnWriteEffect(x.peer, m.uuid);
    GluePeerTakes(x, WriteReceived(x.peer, m.uuid), m, st, st.(write := Spawned), l');
  }

  lemma ReceiveEndLocals(x: View, st: Stage, m: Msg, p: P.Peer)
    requires LocalsOk(x, st) && m in x.up && (m.typ == COMPLETED || m.typ == ERROR)
    requires m.uuid in x.peer.contexts ==> Concluded(x.peer, p, m.uuid)
    ensures st.Ending? && st.u == m.uuid && st.phase.EndInFlight? && (st.ok <==> m.typ == COMPLETED)
    ensures ContextPart(x.peer, m.uuid) == Some(Brief(false, 0))
    ensures LocalsOk(x.(peer := p, up := x.up - multiset{m}), AfterEnd(st.mode, st.ok))
  {
    UpRemove(x.up, m, m.uuid);
    var l' := ReceiveEndShare(LocalOf(x, m.uuid), UpOf(x.up - multiset{m}, m.uuid), st, m.uuid, m.typ);
    GluePeerTakes(x, p, m, st, AfterEnd(st.mode, st.ok), l');
  }

  lemma ReceiveQueryEndLocals(x: View, st: Stage, m: Msg, p: P.Peer)
    requires LocalsOk(x, st) && m in x.up && (m.typ == QUERY_COMPLETED || m.typ == QUERY_ERROR)
    requires m.uuid in x.peer.contexts ==> Concluded(x.peer, p, m.uuid)
    ensures ContextPart(x.peer, m.uuid) == Some(Brief(true, 0))
    ensures LocalsOk(x.(peer := p, up := x.up - multiset{m}), st)
  {
    var l, d := LocalOf(x, m.uuid), UpOf(x.up - multiset{m}, m.uuid);
    UpRemove(x.up, m, m.uuid);
    ReceiveQueryEndShare(l, d, st, m.uuid, m.typ);
    GluePeerTakes(x, p, m, st, st, l.(up := d, peer := l.peer.(marked := false, context := Some(Brief(true, 1)))));
  }
}
