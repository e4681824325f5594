/** What a session of peer and shim looks like from one uuid: the counts of its messages
    and goroutines and its table entries, and what the stage of the session says of them. */
module LockstepShares {
  import opened Common
  import opened ChaincodeFsm
  import P = PeerSpec
  import S = ShimSpec

  // ---------------------------------------------------------------- the stage of a session

  datatype Mode = MInit | MTx
  datatype WritePhase = NoWrite | InFlight | Spawned | Entered | Offered | Replying
  datatype EndPhase = EndOffered | EndSending | EndInFlight

  /** Where the session's single thread of control is. */
  datatype Stage =
    | Boot
    | Registered
    | Readying(u: Uuid)
    | Calm
    | Launching(u: Uuid)
    | Delivering(u: Uuid, mode: Mode)
    | Executing(u: Uuid, mode: Mode, write: WritePhase)
    | Ending(u: Uuid, mode: Mode, ok: bool, phase: EndPhase)
    | Over

  // ---------------------------------------------------------------- one uuid's part of a world

  // On the stream to the shim.
  datatype Down = Down(inits: nat, txs: nat, queries: nat, replies: nat)

  // On the stream to the peer.
  datatype Up = Up(gets: nat, writes: nat, dones: nat, fails: nat, queryEnds: nat)

  // A context, with the number of its notices.
  datatype Brief = Brief(query: bool, notified: nat)

  function BriefOf(c: P.Context): Brief {
    Brief(c.query, |c.notices|)
  }

  function ContextPart(p: P.Peer, u: Uuid): Option<Brief> {
    if u in p.contexts then Some(BriefOf(p.contexts[u])) else None
  }

  // In the peer: its goroutines and tables.
  datatype PeerPart = PeerPart(
    readSpawned: nat, readEntered: nat, readReleased: nat, writeSpawned: nat, writeEntered: nat,
    offersOk: nat, offersError: nat,
    inMap: bool, context: Option<Brief>, marked: bool)

  // In the shim: its execution and tables.
  datatype ShimPart = ShimPart(thread: Option<S.Thread>, channel: bool, mark: Option<bool>)

  datatype Local = Local(down: Down, up: Up, peer: PeerPart, shim: ShimPart)

  function AddDown(d: Down, t: MsgType): Down {
    Down(d.inits + Count(t == INIT), d.txs + Count(t == TRANSACTION), d.queries + Count(t == QUERY),
         d.replies + Count(t == RESPONSE))
  }

  function AddUp(d: Up, t: MsgType): Up {
    Up(d.gets + Count(IsRead(t)), d.writes + Count(t == PUT_STATE || t == DEL_STATE), d.dones + Count(t == COMPLETED),
       d.fails + Count(t == ERROR), d.queryEnds + Count(t == QUERY_COMPLETED || t == QUERY_ERROR))
  }

  function Get<K, V>(m: map<K, V>, k: K): Option<V> {
    if k in m then Some(m[k]) else None
  }

  function PeerPartOf(p: P.Peer, u: Uuid): PeerPart {
    PeerPart(p.readSpawned[u], p.readEntered[u], p.readReleased[u], p.writeSpawned[u], p.writeEntered[u],
             p.offersOk[u], p.offersError[u], u in p.uuidMap, ContextPart(p, u), P.IsTransaction(p, u))
  }

  function ShimPartOf(s: S.Shim, u: Uuid): ShimPart {
    ShimPart(Get(s.threads, u), u in s.responseChannel, Get(s.isTransaction, u))
  }

  // A world without its executor and the order of its streams.
  datatype View = View(peer: P.Peer, shim: S.Shim, down: multiset<Msg>, up: multiset<Msg>)

  function DownOf(b: multiset<Msg>, u: Uuid): Down {
    Down(b[Msg(INIT, u)], b[Msg(TRANSACTION, u)], b[Msg(QUERY, u)], b[Msg(RESPONSE, u)])
  }

  function UpOf(b: multiset<Msg>, u: Uuid): Up {
    Up(b[Msg(GET_STATE, u)] + b[Msg(RANGE_QUERY_STATE, u)] + b[Msg(RANGE_QUERY_STATE_NEXT, u)] + b[Msg(RANGE_QUERY_STATE_CLOSE, u)],
       b[Msg(PUT_STATE, u)] + b[Msg(DEL_STATE, u)], b[Msg(COMPLETED, u)], b[Msg(ERROR, u)],
       b[Msg(QUERY_COMPLETED, u)] + b[Msg(QUERY_ERROR, u)])
  }

  function LocalOf(x: View, u: Uuid): Local {
    Local(DownOf(x.down, u), UpOf(x.up, u), PeerPartOf(x.peer, u), ShimPartOf(x.shim, u))
  }

  function Count(b: bool): nat {
    if b then 1 else 0
  }

  // What the stage says of one uuid.
  datatype Thrd = NoTx | LiveTx | EndedTx(ok: bool)
  datatype Share = Share(
    inits: nat, txs: nat, writes: nat, writeSpawned: nat, writeEntered: nat, offersOk: nat, replying: nat,
    dones: nat, fails: nat, tx: Thrd, main: bool, queries: bool)

  predicate HasMain(st: Stage) {
    st.Launching? || st.Delivering? || st.Executing? || st.Ending?
  }

  predicate IsMain(st: Stage, u: Uuid) {
    HasMain(st) && st.u == u
  }

  /** Queries may be around. */
  predicate Launched(st: Stage) {
    st.Calm? || st.Launching? || ((st.Delivering? || st.Executing? || st.Ending?) && st.mode.MTx?)
  }

  /** A change of stage that concerns only one uuid. */
  predicate Moves(st: Stage, st': Stage, u: Uuid) {
    || st' == st
    || ((HasMain(st) ==> st.u == u) && (HasMain(st') ==> st'.u == u) && (Launched(st) ==> Launched(st')))
  }

  function Bystander(queries: bool): Share {
    Share(0, 0, 0, 0, 0, 0, 0, 0, 0, NoTx, false, queries)
  }

  function MainShare(st: Stage): Share {
    var sh := Bystander(Launched(st)).(main := true);
    match st
    case Delivering(_, mode) => sh.(inits := Count(mode.MInit?), txs := Count(mode.MTx?))
    case Executing(_, _, write) =>
      sh.(tx := LiveTx, writes := Count(write.InFlight?), writeSpawned := Count(write.Spawned?),
          writeEntered := Count(write.Entered?), offersOk := Count(write.Offered?), replying := Count(write.Replying?))
    case Ending(_, _, ok, phase) =>
      sh.(tx := if phase.EndOffered? then EndedTx(ok) else NoTx,
          dones := Count(phase.EndInFlight? && ok), fails := Count(phase.EndInFlight? && !ok))
    case _ => sh
  }

  function ShareOf(st: Stage, u: Uuid): Share {
    if IsMain(st, u) then MainShare(st) else Bystander(Launched(st))
  }

  predicate OpenQuery(l: Local) {
    l.peer.context.Some? && l.peer.context.value.query && l.peer.context.value.notified == 0
  }

  /** A waiting thread has exactly one trace of its request in the world, any other uuid
      none, and the peer's map holds a uuid exactly while a goroutine serves it. */
  predicate RequestConserved(l: Local, sh: Share) {
    && l.up.gets + l.up.writes + l.peer.readSpawned + l.peer.readEntered + l.peer.readReleased
       + l.peer.writeSpawned + l.peer.writeEntered + l.peer.offersOk + sh.replying + l.down.replies
       == Count(l.shim.thread.Some? && l.shim.thread.value.phase == S.Awaiting)
    && l.peer.readEntered + l.peer.writeEntered == Count(l.peer.inMap)
    && l.peer.offersError == 0
  }

  /** An open query is on its way, running, or on its way back. */
  predicate QueryConserved(l: Local, sh: Share) {
    && l.down.queries + Count(l.shim.thread.Some? && !l.shim.thread.value.tx) + l.up.queryEnds == Count(OpenQuery(l))
    && (OpenQuery(l) ==> sh.queries)
    && (l.peer.context.Some? ==> l.peer.context.value.notified <= 1)
    // a mark belongs to a transaction that has not been concluded
    && (l.peer.marked ==> l.peer.context == Some(Brief(false, 0)))
  }

  predicate ThreadOk(s: ShimPart, sh: Share) {
    match s.thread
    case None => sh.tx == NoTx && !s.channel && s.mark == None
    case Some(t) =>
      && (sh.tx == NoTx <==> !t.tx)
      && (if t.phase.Finishing? then sh.tx == EndedTx(t.phase.ok) else !sh.tx.EndedTx?)
      && (s.channel <==> t.phase == S.Awaiting || t.phase == S.Delivered)
      && s.mark == (if t.phase == S.Started || t.phase.Finishing? then None else Some(t.tx))
  }

  /** The messages and goroutines of the transaction are where the stage says. */
  predicate MainOk(l: Local, sh: Share) {
    && l.down.inits == sh.inits && l.down.txs == sh.txs
    && l.up.writes == sh.writes && l.up.dones == sh.dones && l.up.fails == sh.fails
    && l.peer.writeSpawned == sh.writeSpawned && l.peer.writeEntered == sh.writeEntered
    && l.peer.offersOk == sh.offersOk
    && (sh.main ==> l.peer.context == Some(Brief(false, 0)) && l.peer.marked)
  }

  predicate LocalOk(l: Local, sh: Share) {
    RequestConserved(l, sh) && QueryConserved(l, sh) && ThreadOk(l.shim, sh) && MainOk(l, sh)
  }

  ghost predicate LocalsOk(x: View, st: Stage) {
    forall u: Uuid :: LocalOk(LocalOf(x, u), ShareOf(st, u))
  }

  // ---------------------------------------------------------------- one uuid's part, step by step

  lemma RequestReadShare(l: Local, st: Stage, u: Uuid, tx: bool, t: MsgType)
    requires LocalOk(l, ShareOf(st, u)) && IsRead(t) && l.shim.thread == Some(S.Thread(tx, S.Running))
    ensures !l.shim.channel && (Launched(st) || st.Executing?)
    ensures LocalOk(l.(up := AddUp(l.up, t),
                       shim := l.shim.(thread := Some(S.Thread(tx, S.Awaiting)), channel := true)), ShareOf(st, u))
  {
  }

  lemma RequestWriteShare(l: Local, st: Stage, u: Uuid, t: MsgType)
    requires LocalOk(l, ShareOf(st, u)) && (t == PUT_STATE || t == DEL_STATE) && l.shim.thread == Some(S.Thread(true, S.Running))
    ensures st.Executing? && st.u == u && st.write.NoWrite? && !l.shim.channel && l.shim.mark == Some(true)
    ensures LocalOk(l.(up := AddUp(l.up, t),
                       shim := l.shim.(thread := Some(S.Thread(true, S.Awaiting)), channel := true)),
                    ShareOf(st.(write := InFlight), u))
    ensures Moves(st, st.(write := InFlight), u)
  {
  }

  lemma EndQueryShare(l: Local, st: Stage, u: Uuid, t: MsgType)
    requires LocalOk(l, ShareOf(st, u)) && l.shim.thread == Some(S.Thread(false, S.Running))
    requires t == QUERY_COMPLETED || t == QUERY_ERROR
    ensures Launched(st) && LocalOk(l.(up := AddUp(l.up, t), shim := l.shim.(thread := None, mark := None)), ShareOf(st, u))
  {
  }

  lemma EndTransactionShare(l: Local, st: Stage, u: Uuid, ok: bool)
    requires LocalOk(l, ShareOf(st, u)) && l.shim.thread == Some(S.Thread(true, S.Running))
    ensures st.Executing? && st.u == u && st.write.NoWrite?
    ensures LocalOk(l.(shim := l.shim.(thread := Some(S.Thread(true, S.Finishing(ok))), mark := None)),
                    ShareOf(Ending(u, st.mode, ok, EndOffered), u))
    ensures Moves(st, Ending(u, st.mode, ok, EndOffered), u)
  {
  }

  lemma ReplyReadShare(l: Local, st: Stage, u: Uuid)
    requires LocalOk(l, ShareOf(st, u)) && l.peer.readReleased > 0
    ensures Launched(st) || st.Executing?
    ensures LocalOk(l.(down := AddDown(l.down, RESPONSE), peer := l.peer.(readReleased := l.peer.readReleased - 1)), ShareOf(st, u))
  {
  }

  lemma StartWriteShare(l: Local, st: Stage, u: Uuid)
    requires LocalOk(l, ShareOf(st, u)) && l.peer.writeSpawned > 0
    ensures st.Executing? && st.u == u && st.write.Spawned? && !l.peer.inMap && l.peer.marked
    ensures LocalOk(l.(peer := l.peer.(writeSpawned := l.peer.writeSpawned - 1, writeEntered := l.peer.writeEntered + 1, inMap := true)),
                    ShareOf(st.(write := Entered), u))
    ensures Moves(st, st.(write := Entered), u)
  {
  }

  lemma FinishWriteShare(l: Local, st: Stage, u: Uuid)
    requires LocalOk(l, ShareOf(st, u)) && l.peer.writeEntered > 0
    ensures st.Executing? && st.u == u && st.write.Entered?
    ensures LocalOk(l.(peer := l.peer.(writeEntered := l.peer.writeEntered - 1, offersOk := l.peer.offersOk + 1, inMap := false)),
                    ShareOf(st.(write := Offered), u))
    ensures Moves(st, st.(write := Offered), u)
  {
  }

  lemma TakeFinishShare(l: Local, st: Stage, u: Uuid, tx: bool, ok: bool)
    requires LocalOk(l, ShareOf(st, u)) && l.shim.thread == Some(S.Thread(tx, S.Finishing(ok)))
    ensures st.Ending? && st.phase.EndOffered? && st.u == u && st.ok == ok && !l.shim.channel
    ensures LocalOk(l.(shim := l.shim.(thread := None)), ShareOf(st.(phase := EndSending), u))
    ensures Moves(st, st.(phase := EndSending), u)
  {
  }

  lemma ShimSendShare(l: Local, st: Stage, u: Uuid, t: MsgType)
    requires LocalOk(l, ShareOf(st, u)) && st.Ending? && st.phase.EndSending? && st.u == u
    requires if st.ok then t == COMPLETED else t == ERROR
    ensures LocalOk(l.(up := AddUp(l.up, t)), ShareOf(st.(phase := EndInFlight), u))
    ensures Moves(st, st.(phase := EndInFlight), u)
  {
  }

  lemma LaunchArrivesShare(l: Local, d: Down, st: Stage, u: Uuid, t: MsgType)
    requires LocalOk(l, ShareOf(st, u)) && l.down == AddDown(d, t) && (t == INIT || t == TRANSACTION)
    ensures st.Delivering? && st.u == u && l.shim.thread == None
    ensures LocalOk(l.(down := d, shim := l.shim.(thread := Some(S.Thread(true, S.Started)))),
                    ShareOf(Executing(u, st.mode, NoWrite), u))
    ensures Moves(st, Executing(u, st.mode, NoWrite), u)
  {
  }

  lemma QueryArrivesShare(l: Local, d: Down, st: Stage, u: Uuid)
    requires LocalOk(l, ShareOf(st, u)) && l.down == AddDown(d, QUERY)
    ensures l.shim.thread == None
    ensures LocalOk(l.(down := d, shim := l.shim.(thread := Some(S.Thread(false, S.Started)))), ShareOf(st, u))
  {
  }

  lemma ReplyArrivesShare(l: Local, d: Down, st: Stage, u: Uuid)
    requires LocalOk(l, ShareOf(st, u)) && l.down == AddDown(d, RESPONSE)
    ensures l.shim.thread.Some? && l.shim.thread.value.phase == S.Awaiting && l.shim.channel
    ensures LocalOk(l.(down := d, shim := l.shim.(thread := Some(S.Thread(l.shim.thread.value.tx, S.Delivered)))), ShareOf(st, u))
  {
  }

  function AfterSend(st: Stage): Stage {
    match st
    case Readying(_) => Calm
    case Launching(u) => Delivering(u, MTx)
    case Executing(u, mode, _) => Executing(u, mode, NoWrite)
    case _ => st
  }

  predicate SendsIn(st: Stage, m: Msg) {
    || (st == Readying(m.uuid) && m.typ == READY)
    || (st == Launching(m.uuid) && m.typ == TRANSACTION)
    || (st.Executing? && st.u == m.uuid && st.write.Replying? && m.typ == RESPONSE)
  }

  lemma PeerSendShare(l: Local, st: Stage, m: Msg)
    requires LocalOk(l, ShareOf(st, m.uuid)) && SendsIn(st, m)
    ensures LocalOk(l.(down := AddDown(l.down, m.typ)), ShareOf(AfterSend(st), m.uuid))
    ensures Moves(st, AfterSend(st), m.uuid)
  {
  }

  lemma TakeReplyShare(l: Local, st: Stage, u: Uuid)
    requires LocalOk(l, ShareOf(st, u)) && l.peer.offersOk > 0
    ensures st.Executing? && st.u == u && st.write.Offered?
    ensures LocalOk(l.(peer := l.peer.(offersOk := l.peer.offersOk - 1)), ShareOf(st.(write := Replying), u))
    ensures Moves(st, st.(write := Replying), u)
  {
  }

  lemma ReceiveReadShare(l: Local, d: Up, st: Stage, u: Uuid, t: MsgType)
    requires LocalOk(l, ShareOf(st, u)) && l.up == AddUp(d, t) && IsRead(t)
    ensures Launched(st) || st.Executing?
    ensures LocalOk(l.(up := d, peer := l.peer.(readSpawned := l.peer.readSpawned + 1)), ShareOf(st, u))
  {
  }

  lemma ReceiveWriteShare(l: Local, d: Up, st: Stage, u: Uuid, t: MsgType) returns (l': Local)
    requires LocalOk(l, ShareOf(st, u)) && l.up == AddUp(d, t) && (t == PUT_STATE || t == DEL_STATE)
    ensures st.Executing? && st.u == u && st.write.InFlight?
    ensures l'.down == l.down && l'.up == d && l'.shim == l.shim
    ensures l'.peer == l.peer.(writeSpawned := l.peer.writeSpawned + 1)
    ensures LocalOk(l', ShareOf(st.(write := Spawned), u))
    ensures Moves(st, st.(write := Spawned), u)
  {
    l' := l.(up := d, peer := l.peer.(writeSpawned := l.peer.writeSpawned + 1));
  }

  function AfterEnd(mode: Mode, ok: bool): Stage {
    if mode.MInit? && !ok then Over else Calm
  }

  lemma ReceiveEndShare(l: Local, d: Up, st: Stage, u: Uuid, t: MsgType) returns (l': Local)
    requires LocalOk(l, ShareOf(st, u)) && l.up == AddUp(d, t) && (t == COMPLETED || t == ERROR)
    ensures st.Ending? && st.u == u && st.phase.EndInFlight? && (st.ok <==> t == COMPLETED) && l.peer.context == Some(Brief(false, 0))
    ensures l'.down == l.down && l'.up == d && l'.shim == l.shim
    ensures l'.peer == l.peer.(marked := false, context := Some(Brief(false, 1)))
    ensures LocalOk(l', ShareOf(AfterEnd(st.mode, st.ok), u))
    ensures Moves(st, AfterEnd(st.mode, st.ok), u)
  {
    l' := l.(up := d, peer := l.peer.(marked := false, context := Some(Brief(false, 1))));
  }

  lemma ReceiveQueryEndShare(l: Local, d: Up, st: Stage, u: Uuid, t: MsgType)
    requires LocalOk(l, ShareOf(st, u)) && l.up == AddUp(d, t) && (t == QUERY_COMPLETED || t == QUERY_ERROR)
    ensures l.peer.context == Some(Brief(true, 0))
    ensures LocalOk(l.(up := d, peer := l.peer.(marked := false, context := Some(Brief(true, 1)))), ShareOf(st, u))
  {
  }
}
