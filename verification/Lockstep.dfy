/** Peer and shim run against each other over two FIFO streams, with any number of
    concurrent queries beside one transaction at a time.  The theorem: neither machine is
    ever handed a message it cannot take, requests are conserved, and whenever the
    streams are quiet the two machines are in matching states. */
module Lockstep {
  import opened ChaincodeFsm
  import P = PeerSpec
  import S = ShimSpec

  // The sequential executor of transactions on the peer.
  datatype Exec =
    | NotLaunched
    | Offering(msg: Msg)           // blocked handing a next state to the peer's loop
    | AwaitingNotice(uuid: Uuid)   // waiting on the notifier of this context
    | Idle

  datatype World = World(peer: P.Peer, shim: S.Shim, exec: Exec, toShim: seq<Msg>, toPeer: seq<Msg>)

  // The shim has just connected and sent REGISTER.
  const Start := World(P.NewPeer, S.NewShim, NotLaunched, [], [Msg(REGISTER, 0)])

  datatype Op =
    // executors on the peer
    | Launch(uuid: Uuid, deploy: bool) | Submit(uuid: Uuid) | Collect
    | SubmitQuery(uuid: Uuid) | CollectQuery(uuid: Uuid)
    // the peer's loop
    | PeerReceive | PeerTakeExec | PeerTakeReply(uuid: Uuid) | PeerSend
    // the peer's request goroutines
    | StartRead(uuid: Uuid) | ReleaseRead(uuid: Uuid) | ReplyRead(uuid: Uuid, ok: bool)
    | StartWrite(uuid: Uuid) | FinishWrite(uuid: Uuid, ok: bool)
    // the shim's loop
    | ShimReceive | ShimTakeFinish(uuid: Uuid) | ShimSend
    // the shim's executions
    | StartThread(uuid: Uuid) | Request(uuid: Uuid, typ: MsgType) | ResumeThread(uuid: Uuid)
    | EndThread(uuid: Uuid, ok: bool)

  /** `isRunning`, by which the peer decides that a chaincode need not be launched. */
  predicate IsRunning(s: PeerState) {
    s !in {Created, Established, Init}
  }

  predicate Enabled(w: World, op: Op) {
    match op
    case Launch(u, _) => w.exec == NotLaunched && w.peer.fsm == Established && u !in w.peer.contexts
    case Submit(u) => w.exec == Idle && w.peer.fsm != End && u !in w.peer.contexts
    case Collect =>
      w.exec.AwaitingNotice? && w.exec.uuid in w.peer.contexts && w.peer.contexts[w.exec.uuid].notices != []
    case SubmitQuery(u) => IsRunning(w.peer.fsm) && w.peer.fsm != End && u !in w.peer.contexts
    case CollectQuery(u) =>
      u in w.peer.contexts && w.peer.contexts[u].query && w.peer.contexts[u].notices != []
    case PeerReceive => w.peer.loop == Free && w.toPeer != []
    case PeerTakeExec => w.peer.loop == Free && w.exec.Offering?
    case PeerTakeReply(u) => w.peer.loop == Free && u in w.peer.offersOk
    case PeerSend => w.peer.loop.Sending?
    case StartRead(u) => u in w.peer.readSpawned
    case ReleaseRead(u) => u in w.peer.readEntered
    case ReplyRead(u, _) => u in w.peer.readReleased
    case StartWrite(u) => u in w.peer.writeSpawned
    case FinishWrite(u, _) => u in w.peer.writeEntered
    case ShimReceive => w.shim.loop == Free && w.toShim != []
    case ShimTakeFinish(u) => w.shim.loop == Free && u in w.shim.threads && w.shim.threads[u].phase.Finishing?
    case ShimSend => w.shim.loop.Sending?
    case StartThread(u) => S.InPhase(w.shim, u, S.Started)
    case Request(u, t) => S.InPhase(w.shim, u, S.Running) && (IsRead(t) || IsWrite(t))
    case ResumeThread(u) => S.InPhase(w.shim, u, S.Delivered)
    case EndThread(u, _) => S.InPhase(w.shim, u, S.Running)
  }

  function DoLaunch(w: World, u: Uuid, deploy: bool): World {
    w.(peer := P.CreateContext(w.peer, u, false), exec := Offering(Msg(if deploy then INIT else READY, u)))
  }

  function DoSubmit(w: World, u: Uuid): World {
    w.(peer := P.Mark(P.CreateContext(w.peer, u, false), u, true), exec := Offering(Msg(TRANSACTION, u)))
  }

  function DoCollect(w: World): World
    requires w.exec.AwaitingNotice?
  {
    w.(peer := P.DeleteContext(w.peer, w.exec.uuid), exec := Idle)
  }

  function DoSubmitQuery(w: World, u: Uuid): World {
    w.(peer := P.Mark(P.CreateContext(w.peer, u, true), u, false), toShim := w.toShim + [Msg(QUERY, u)])
  }

  function DoCollectQuery(w: World, u: Uuid): World {
    w.(peer := P.DeleteContext(w.peer, u))
  }

  function DoPeerReceive(w: World): World
    requires w.toPeer != []
  {
    var m := w.toPeer[0];
    w.(peer := P.Receive(w.peer, m), toShim := w.toShim + P.Sends(w.peer, m), toPeer := w.toPeer[1..])
  }

  function DoPeerTakeExec(w: World): World
    requires w.exec.Offering?
  {
    var m := w.exec.msg;
    w.(peer := P.TakeOffer(w.peer, m, m.typ != INIT), toShim := w.toShim + P.Sends(w.peer, m), exec := AwaitingNotice(m.uuid))
  }

  function DoPeerTakeReply(w: World, u: Uuid): World {
    var p := w.peer.(offersOk := w.peer.offersOk - multiset{u});
    w.(peer := P.TakeOffer(p, Msg(RESPONSE, u), true), toShim := w.toShim + P.Sends(p, Msg(RESPONSE, u)))
  }

  function DoPeerSend(w: World): World
    requires w.peer.loop.Sending?
  {
    w.(peer := w.peer.(loop := Free), toShim := w.toShim + [w.peer.loop.msg])
  }

  function DoStartRead(w: World, u: Uuid): World
    requires u in w.peer.readSpawned
  {
    w.(peer := P.StartRead(w.peer, u))
  }

  function DoReleaseRead(w: World, u: Uuid): World
    requires u in w.peer.readEntered
  {
    w.(peer := P.ReleaseRead(w.peer, u))
  }

  function DoReplyRead(w: World, u: Uuid, ok: bool): World
    requires u in w.peer.readReleased
  {
    var (peer, reply) := P.ReplyRead(w.peer, u, ok);
    w.(peer := peer, toShim := w.toShim + [reply])
  }

  function DoStartWrite(w: World, u: Uuid): World
    requires u in w.peer.writeSpawned
  {
    w.(peer := P.StartWrite(w.peer, u))
  }

  function DoFinishWrite(w: World, u: Uuid, ok: bool): World
    requires u in w.peer.writeEntered
  {
    w.(peer := P.FinishWrite(w.peer, u, ok))
  }

  function DoShimReceive(w: World): World
    requires w.toShim != []
  {
    w.(shim := S.HandleMessage(w.shim, w.toShim[0]), toShim := w.toShim[1..])
  }

  function DoShimSend(w: World): World
    requires w.shim.loop.Sending?
  {
    w.(shim := w.shim.(loop := Free), toPeer := w.toPeer + [w.shim.loop.msg])
  }

  function DoStartThread(w: World, u: Uuid): World
    requires S.InPhase(w.shim, u, S.Started)
  {
    w.(shim := S.StartThread(w.shim, u))
  }

  function DoResumeThread(w: World, u: Uuid): World
    requires S.InPhase(w.shim, u, S.Delivered)
  {
    w.(shim := S.ResumeThread(w.shim, u))
  }

  function DoTakeFinish(w: World, u: Uuid): World
    requires u in w.shim.threads && w.shim.threads[u].phase.Finishing?
  {
    w.(shim := S.TakeFinish(w.shim, u))
  }

  function DoRequest(w: World, u: Uuid, t: MsgType): World
    requires S.InPhase(w.shim, u, S.Running)
  {
    var (shim, sent) := S.Request(w.shim, u, t);
    w.(shim := shim, toPeer := w.toPeer + sent)
  }

  function DoEndThread(w: World, u: Uuid, ok: bool): World
    requires S.InPhase(w.shim, u, S.Running)
  {
    var (shim, sent) := S.EndThread(w.shim, u, ok);
    w.(shim := shim, toPeer := w.toPeer + sent)
  }

  function Step(w: World, op: Op): World
    requires Enabled(w, op)
  {
    match op
    case Launch(u, deploy) => DoLaunch(w, u, deploy)
    case Submit(u) => DoSubmit(w, u)
    case Collect => DoCollect(w)
    case SubmitQuery(u) => DoSubmitQuery(w, u)
    case CollectQuery(u) => DoCollectQuery(w, u)
    case PeerReceive => DoPeerReceive(w)
    case PeerTakeExec => DoPeerTakeExec(w)
    case PeerTakeReply(u) => DoPeerTakeReply(w, u)
    case PeerSend => DoPeerSend(w)
    case StartRead(u) => DoStartRead(w, u)
    case ReleaseRead(u) => DoReleaseRead(w, u)
    case ReplyRead(u, ok) => DoReplyRead(w, u, ok)
    case StartWrite(u) => DoStartWrite(w, u)
    case FinishWrite(u, ok) => DoFinishWrite(w, u, ok)
    case ShimReceive => DoShimReceive(w)
    case ShimTakeFinish(u) => DoTakeFinish(w, u)
    case ShimSend => DoShimSend(w)
    case StartThread(u) => DoStartThread(w, u)
    case Request(u, t) => DoRequest(w, u, t)
    case ResumeThread(u) => DoResumeThread(w, u)
    case EndThread(u, ok) => DoEndThread(w, u, ok)
  }

  /** The peer may send a QUERY: it is past initialisation and READY is on the stream. */
  predicate MaySendQuery(p: P.Peer) {
    (p.fsm == Ready || p.fsm == Transaction || p.fsm == BusyXact) && !(p.loop.Sending? && p.loop.msg.typ == READY)
  }

  /** What the theorem grants: ledger requests succeed, chaincodes do not invoke each
      other, and a query is sent only when it may be. */
  predicate Allowed(w: World, op: Op) {
    && Enabled(w, op)
    && (op.SubmitQuery? ==> MaySendQuery(w.peer))
    && ((op.ReplyRead? || op.FinishWrite?) ==> op.ok)
    && (op.Request? ==> op.typ != INVOKE_CHAINCODE)
  }
}
