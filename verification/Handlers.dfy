/** The two handlers as objects whose methods update their tables in place, and a session of
    the two: whatever a schedule asks of it, the session stays in lockstep. */
module Handlers {
  import opened Common
  import opened ChaincodeFsm
  import P = PeerSpec
  import S = ShimSpec

  class PeerHandler {
    var fsm: PeerState
    var loop: Loop
    var txCtxs: map<Uuid, P.Context>
    var uuidMap: set<Uuid>
    var isTransaction: map<Uuid, bool>
    // goroutines under way
    var readSpawned: multiset<Uuid>
    var readEntered: multiset<Uuid>
    var readReleased: multiset<Uuid>
    var writeSpawned: multiset<Uuid>
    var writeEntered: multiset<Uuid>
    var offersOk: multiset<Uuid>
    var offersError: multiset<Uuid>
    var dropped: nat

    function View(): P.Peer
      reads this
    {
      P.Peer(fsm, loop, uuidMap, txCtxs, isTransaction, readSpawned, readEntered, readReleased,
             writeSpawned, writeEntered, offersOk, offersError, dropped)
    }

    constructor ()
      ensures View() == P.NewPeer
    {
      fsm, loop, txCtxs, uuidMap, isTransaction := Created, Free, map[], {}, map[];
      readSpawned, readEntered, readReleased := multiset{}, multiset{}, multiset{};
      writeSpawned, writeEntered, offersOk, offersError, dropped := multiset{}, multiset{}, multiset{}, multiset{}, 0;
    }

    /** A uuid that has a context already is refused. */
    method CreateTxContext(u: Uuid, query: bool) returns (ok: bool)
      modifies this
      ensures ok <==> u !in old(txCtxs)
      ensures View() == if ok then P.CreateContext(old(View()), u, query) else old(View())
    {
      ok := u !in txCtxs;
      if ok {
        txCtxs := txCtxs[u := P.Context(query, [])];
      }
    }

    method CreateUUIDEntry(u: Uuid) returns (unique: bool)
      modifies this
      ensures unique <==> u !in old(uuidMap)
      ensures View() == if unique then old(View()).(uuidMap := old(uuidMap) + {u}) else old(View())
    {
      unique := u !in uuidMap;
      if unique {
        uuidMap := uuidMap + {u};
      }
    }

    method DeleteUUIDEntry(u: Uuid)
      modifies this
      ensures View() == old(View()).(uuidMap := old(uuidMap) - {u})
    {
      uuidMap := uuidMap - {u};
    }

    method Conclude(m: Msg)
      modifies this
      ensures View() == P.Conclude(old(View()), m)
    {
      isTransaction := isTransaction - {m.uuid};
      if m.uuid in txCtxs {
        txCtxs := txCtxs[m.uuid := txCtxs[m.uuid].(notices := txCtxs[m.uuid].notices + [m.typ])];
      }
    }

    /** The enter callbacks, run after the state has changed. */
    method EnterState(m: Msg)
      modifies this
      ensures View() == P.Enter(old(View()), m)
    {
      if fsm == Init {
        if m.typ == INIT {
          isTransaction := isTransaction[m.uuid := true];
        }
      } else if fsm == Ready || fsm == End {
        Conclude(m);
      } else if fsm == BusyInit || fsm == BusyXact {
        writeSpawned := writeSpawned + multiset{m.uuid};
      }
    }

    method HandleMessage(m: Msg) returns (sent: seq<Msg>, ok: bool)
      modifies this
      ensures (View(), ok) == P.HandleMessage(old(View()), m)
      ensures sent == P.Sends(old(View()), m)
    {
      sent, ok := [], true;
      if m.typ == QUERY_COMPLETED || m.typ == QUERY_ERROR {
        Conclude(m);
        return;
      }
      if m.typ == INVOKE_QUERY {
        readSpawned := readSpawned + multiset{m.uuid};
        return;
      }
      var next := PeerNext(fsm, m.typ);
      if next.None? {
        if IsWrite(m.typ) && !(m.uuid in isTransaction && isTransaction[m.uuid]) {
          sent := [Msg(ERROR, m.uuid)];
        }
        ok := false;
        return;
      }
      if m.typ == REGISTER {
        sent := [Msg(REGISTERED, 0)];
      }
      if m.typ == INIT {
        sent := [m];
      }
      if next.value != fsm {
        fsm := next.value;
        EnterState(m);
      } else if IsRead(m.typ) {
        readSpawned := readSpawned + multiset{m.uuid};
      }
    }

    /** One round of `processStream` on a message from the stream: a message the machine
        cannot take ends the loop. */
    method Receive(m: Msg) returns (sent: seq<Msg>)
      modifies this
      ensures View() == P.Receive(old(View()), m) && sent == P.Sends(old(View()), m)
    {
      var ok;
      sent, ok := HandleMessage(m);
      loop := if ok then Free else Dead;
    }

    /** One round of it on an offered next state, which may have to be sent on afterwards. */
    method TakeOffer(m: Msg, send: bool) returns (sent: seq<Msg>)
      modifies this
      ensures View() == P.TakeOffer(old(View()), m, send) && sent == P.Sends(old(View()), m)
    {
      var ok;
      sent, ok := HandleMessage(m);
      loop := if !ok then Dead else if send then Sending(m) else Free;
    }

    /** The goroutine of a read request, up to its reply. */
    method StartRead(u: Uuid)
      requires u in readSpawned
      modifies this
      ensures View() == P.StartRead(old(View()), u)
    {
      var unique := CreateUUIDEntry(u);
      readSpawned := readSpawned - multiset{u};
      if unique {
        readEntered := readEntered + multiset{u};
      } else {
        dropped := dropped + 1;
      }
    }

    /** Its end: the entry is deleted, the reply still to be sent. */
    method ReleaseRead(u: Uuid)
      requires u in readEntered
      modifies this
      ensures View() == P.ReleaseRead(old(View()), u)
    {
      DeleteUUIDEntry(u);
      readEntered := readEntered - multiset{u};
      readReleased := readReleased + multiset{u};
    }

    /** The goroutine of `enterBusyState`, up to its call of the ledger. */
    method StartWrite(u: Uuid)
      requires u in writeSpawned
      modifies this
      ensures View() == P.StartWrite(old(View()), u)
    {
      if u in isTransaction && isTransaction[u] {
        StartMarkedWrite(u);
      } else {
        writeSpawned, offersError := writeSpawned - multiset{u}, offersError + multiset{u};
      }
    }

    method StartMarkedWrite(u: Uuid)
      requires u in writeSpawned && P.IsTransaction(View(), u)
      modifies this
      ensures View() == P.StartWrite(old(View()), u)
    {
      var unique := CreateUUIDEntry(u);
      writeSpawned := writeSpawned - multiset{u};
      if unique {
        writeEntered := writeEntered + multiset{u};
      } else {
        dropped := dropped + 1;
      }
    }

    method FinishWrite(u: Uuid, ok: bool)
      requires u in writeEntered
      modifies this
      ensures View() == P.FinishWrite(old(View()), u, ok)
    {
      writeEntered := writeEntered - multiset{u};
      DeleteUUIDEntry(u);
      if ok {
        offersOk := offersOk + multiset{u};
      } else {
        offersError := offersError + multiset{u};
      }
    }

    /** A transaction is offered to the loop, a query sent at once; neither happens under a
        uuid that is still in use. */
    method SendExecuteMessage(m: Msg) returns (ok: bool, sent: seq<Msg>)
      modifies this
      ensures ok <==> m.uuid !in old(txCtxs)
      ensures View() == if ok then P.Mark(P.CreateContext(old(View()), m.uuid, m.typ == QUERY), m.uuid, m.typ != QUERY)
                        else old(View())
      ensures sent == if ok && m.typ != TRANSACTION then [m] else []
    {
      sent := [];
      ok := CreateTxContext(m.uuid, m.typ == QUERY);
      if ok {
        isTransaction := isTransaction[m.uuid := m.typ != QUERY];
        if m.typ != TRANSACTION {
          sent := [m];
        }
      }
    }
  }

  class ShimHandler {
    var fsm: ShimState
    var loop: Loop
    var responseChannel: set<Uuid>
    var isTransaction: map<Uuid, bool>
    var threads: map<Uuid, S.Thread>

    function View(): S.Shim
      reads this
    {
      S.Shim(fsm, loop, responseChannel, isTransaction, threads)
    }

    constructor ()
      ensures View() == S.NewShim
    {
      fsm, loop, responseChannel, isTransaction, threads := SCreated, Free, {}, map[], map[];
    }

    method CreateChannel(u: Uuid) returns (ok: bool)
      modifies this`responseChannel
      ensures ok <==> u !in old(responseChannel)
      ensures responseChannel == old(responseChannel) + {u}
    {
      ok := u !in responseChannel;
      responseChannel := responseChannel + {u};
    }

    method SendChannel(u: Uuid)
      modifies this
      ensures View() == S.SendChannel(old(View()), u)
    {
      if u in responseChannel {
        if u in threads && threads[u].phase == S.Awaiting {
          threads := threads[u := threads[u].(phase := S.Delivered)];
        } else {
          loop := Dead;
        }
      }
    }

    method HandleMessage(m: Msg)
      modifies this
      ensures View() == S.HandleMessage(old(View()), m)
    {
      var next := ShimNext(fsm, m.typ);
      if next.None? {
        loop := Dead;
        return;
      }
      fsm := next.value;
      if m.typ == INIT || m.typ == TRANSACTION || m.typ == QUERY {
        if m.uuid in threads {
          loop := Dead;
        } else {
          threads := threads[m.uuid := S.Thread(m.typ != QUERY, S.Started)];
        }
      } else if m.typ == RESPONSE || m.typ == ERROR {
        SendChannel(m.uuid);
      }
    }

    /** The loop takes the outcome of a finished transaction. */
    method TakeFinish(u: Uuid)
      requires u in threads && threads[u].phase.Finishing?
      modifies this
      ensures View() == S.TakeFinish(old(View()), u)
    {
      var m := S.FinishMsg(u, threads[u].phase.ok);
      threads := threads - {u};
      HandleMessage(m);
      if loop != Dead {
        loop := Sending(m);
      }
    }

    /** A request for the peer: the reply will come on a channel of its own. */
    method Request(u: Uuid, t: MsgType) returns (sent: seq<Msg>)
      requires S.InPhase(View(), u, S.Running)
      modifies this
      ensures (View(), sent) == S.Request(old(View()), u, t)
    {
      sent := [];
      if IsWrite(t) && !(u in isTransaction && isTransaction[u]) {
        return;
      }
      var ok := CreateChannel(u);
      if !ok {
        assert responseChannel == old(responseChannel);
        return;
      }
      threads := threads[u := threads[u].(phase := S.Awaiting)];
      sent := [Msg(t, u)];
    }

    method DeleteChannel(u: Uuid)
      requires S.InPhase(View(), u, S.Delivered)
      modifies this
      ensures View() == S.ResumeThread(old(View()), u)
    {
      responseChannel := responseChannel - {u};
      threads := threads[u := threads[u].(phase := S.Running)];
    }

    /** The chaincode returns. */
    method EndThread(u: Uuid, ok: bool) returns (sent: seq<Msg>)
      requires S.InPhase(View(), u, S.Running)
      modifies this
      ensures (View(), sent) == S.EndThread(old(View()), u, ok)
    {
      isTransaction := isTransaction - {u};
      if threads[u].tx {
        threads := threads[u := threads[u].(phase := S.Finishing(ok))];
        sent := [];
      } else {
        threads := threads - {u};
        sent := [Msg(if ok then QUERY_COMPLETED else QUERY_ERROR, u)];
      }
    }
  }
}

/** The two handlers connected by their streams. */
module HandlerSession {
  import opened Common
  import opened ChaincodeFsm
  import opened Lockstep
  import opened LockstepShares
  import opened LockstepRuns
  import opened Handlers
  import P = PeerSpec
  import S = ShimSpec

  /** A schedule, of which what is possible when its turn comes is performed. */
  function Performed(w: World, schedule: seq<Op>): World
    decreases |schedule|
  {
    if schedule == [] then w
    else Performed(if Allowed(w, schedule[0]) then Step(w, schedule[0]) else w, schedule[1..])
  }

  lemma {:induction false} PerformedReaches(w: World, schedule: seq<Op>) returns (ops: seq<Op>)
    ensures Reaches(w, ops, Performed(w, schedule))
    decreases |schedule|
  {
    if schedule == [] {
      ops := [];
    } else if Allowed(w, schedule[0]) {
      ops := PerformedReaches(Step(w, schedule[0]), schedule[1..]);
      assert ([schedule[0]] + ops)[1..] == ops;
      ops := [schedule[0]] + ops;
    } else {
      ops := PerformedReaches(w, schedule[1..]);
    }
  }

  class Session {
    const peer: PeerHandler
    const shim: ShimHandler
    var exec: Exec
    var toShim: seq<Msg>
    var toPeer: seq<Msg>

    function View(): World
      reads this, peer, shim
    {
      World(peer.View(), shim.View(), exec, toShim, toPeer)
    }

    /** The shim has connected and sent REGISTER. */
    constructor ()
      ensures fresh(peer) && fresh(shim) && View() == Lockstep.Start
    {
      peer := new PeerHandler();
      shim := new ShimHandler();
      exec, toShim, toPeer := NotLaunched, [], [Msg(REGISTER, 0)];
    }

    /** The executors: one of transactions, any number of queries. */
    method Execute(op: Op)
      requires Enabled(View(), op)
      requires op.Launch? || op.Submit? || op.Collect? || op.SubmitQuery? || op.CollectQuery?
      modifies this, peer
      ensures View() == Step(old(View()), op)
    {
      var ok, sent;
      match op
      case Launch(u, deploy) =>
        ok := peer.CreateTxContext(u, false);
        exec := Offering(Msg(if deploy then INIT else READY, u));
      case Submit(u) =>
        ok, sent := peer.SendExecuteMessage(Msg(TRANSACTION, u));
        exec := Offering(Msg(TRANSACTION, u));
      case Collect =>
        peer.txCtxs := peer.txCtxs - {exec.uuid};
        exec := Idle;
      case SubmitQuery(u) =>
        ok, sent := peer.SendExecuteMessage(Msg(QUERY, u));
        toShim := toShim + sent;
      case CollectQuery(u) =>
        peer.txCtxs := peer.txCtxs - {u};
    }

    /** One round of the peer's loop: a message from the shim, or a next state offered by the
        executor or by a goroutine; or the message just handled is sent on. */
    method ProcessStream(op: Op)
      requires Enabled(View(), op)
      requires op.PeerReceive? || op.PeerTakeExec? || op.PeerTakeReply? || op.PeerSend?
      modifies this, peer
      ensures View() == Step(old(View()), op)
    {
      match op
      case PeerReceive => ReceiveFromShim();
      case PeerTakeExec => TakeFromExecutor();
      case PeerTakeReply(u) => TakeReply(u);
      case PeerSend =>
        toShim := toShim + [peer.loop.msg];
        peer.loop := Free;
    }

    method ReceiveFromShim()
      requires toPeer != []
      modifies this, peer
      ensures View() == DoPeerReceive(old(View()))
    {
      var sent := peer.Receive(toPeer[0]);
      toShim, toPeer := toShim + sent, toPeer[1..];
    }

    method TakeFromExecutor()
      requires exec.Offering?
      modifies this, peer
      ensures View() == DoPeerTakeExec(old(View()))
    {
      var m := exec.msg;
      var sent := peer.TakeOffer(m, m.typ != INIT);
      toShim, exec := toShim + sent, AwaitingNotice(m.uuid);
    }

    method TakeReply(u: Uuid)
      modifies this, peer
      ensures View() == DoPeerTakeReply(old(View()), u)
    {
      peer.offersOk := peer.offersOk - multiset{u};
      var sent := peer.TakeOffer(Msg(RESPONSE, u), true);
      toShim := toShim + sent;
    }

    /** The peer's goroutines, for reads and for writes. */
    method ServeRead(op: Op)
      requires Enabled(View(), op) && (op.StartRead? || op.ReleaseRead?)
      modifies peer
      ensures View() == Step(old(View()), op)
    {
      match op
      case StartRead(u) => peer.StartRead(u);
      case ReleaseRead(u) => peer.ReleaseRead(u);
    }

    method ServeWrite(op: Op)
      requires Enabled(View(), op) && (op.StartWrite? || op.FinishWrite?)
      modifies peer
      ensures View() == Step(old(View()), op)
    {
      match op
      case StartWrite(u) => peer.StartWrite(u);
      case FinishWrite(u, ok) => peer.FinishWrite(u, ok);
    }

    method Reply(u: Uuid, ok: bool)
      requires u in peer.readReleased
      modifies this, peer
      ensures View() == DoReplyRead(old(View()), u, ok)
    {
      peer.readReleased := peer.readReleased - multiset{u};
      toShim := toShim + [Msg(if ok then RESPONSE else ERROR, u)];
    }

    /** One round of the shim's loop. */
    method ChatWithPeer(op: Op)
      requires Enabled(View(), op)
      requires op.ShimReceive? || op.ShimTakeFinish? || op.ShimSend?
      modifies this, shim
      ensures View() == Step(old(View()), op)
    {
      match op
      case ShimReceive =>
        shim.HandleMessage(toShim[0]);
        toShim := toShim[1..];
      case ShimTakeFinish(u) => shim.TakeFinish(u);
      case ShimSend =>
        toPeer := toPeer + [shim.loop.msg];
        shim.loop := Free;
    }

    /** The executions of the shim. */
    method RunChaincode(op: Op)
      requires Enabled(View(), op)
      requires op.StartThread? || op.Request? || op.ResumeThread? || op.EndThread?
      modifies this, shim
      ensures View() == Step(old(View()), op)
    {
      var sent;
      match op
      case StartThread(u) =>
        shim.isTransaction := shim.isTransaction[u := shim.threads[u].tx];
        shim.threads := shim.threads[u := shim.threads[u].(phase := S.Running)];
      case Request(u, t) =>
        sent := shim.Request(u, t);
        toPeer := toPeer + sent;
      case ResumeThread(u) => shim.DeleteChannel(u);
      case EndThread(u, ok) =>
        sent := shim.EndThread(u, ok);
        toPeer := toPeer + sent;
    }

    method Perform(op: Op)
      requires Enabled(View(), op)
      modifies this, peer, shim
      ensures View() == Step(old(View()), op)
    {
      match op
      case Launch(_, _) => Execute(op);
      case Submit(_) => Execute(op);
      case Collect => Execute(op);
      case SubmitQuery(_) => Execute(op);
      case CollectQuery(_) => Execute(op);
      case PeerReceive => ProcessStream(op);
      case PeerTakeExec => ProcessStream(op);
      case PeerTakeReply(_) => ProcessStream(op);
      case PeerSend => ProcessStream(op);
      case StartRead(_) => ServeRead(op);
      case ReleaseRead(_) => ServeRead(op);
      case ReplyRead(u, ok) => Reply(u, ok);
      case StartWrite(_) => ServeWrite(op);
      case FinishWrite(_, _) => ServeWrite(op);
      case ShimReceive => ChatWithPeer(op);
      case ShimTakeFinish(_) => ChatWithPeer(op);
      case ShimSend => ChatWithPeer(op);
      case _ => RunChaincode(op);
    }

    /** One turn: the step is performed if it is possible. */
    method Turn(op: Op, ghost st: Stage) returns (ghost st': Stage)
      requires Inv(View(), st)
      modifies this, peer, shim
      ensures View() == (if Allowed(old(View()), op) then Step(old(View()), op) else old(View())) && Inv(View(), st')
    {
      st' := st;
      if Allowed(View(), op) {
        st' := StepKeeps(View(), st, op);
        Perform(op);
      }
    }

    /** The session under any schedule, of which it performs what is possible when its turn
        comes: neither loop is ever handed a message it cannot take, no request is dropped
        as a duplicate, and whenever no message is in flight the machines match. */
    method Drive(schedule: seq<Op>)
      requires View() == Lockstep.Start
      modifies this, peer, shim
      ensures View() == Performed(Lockstep.Start, schedule)
      ensures peer.loop != Dead && shim.loop != Dead && peer.dropped == 0
      ensures Quiet(View()) ==> Matching(peer.fsm, shim.fsm)
    {
      ghost var st := Boot;
      StartInv();
      assert schedule[0..] == schedule;
      var i := 0;
      while i < |schedule|
        invariant 0 <= i <= |schedule| && Inv(View(), st)
        invariant Performed(View(), schedule[i..]) == Performed(Lockstep.Start, schedule)
      {
        assert schedule[i..][1..] == schedule[i + 1..];
        st := Turn(schedule[i], st);
        i := i + 1;
      }
      ghost var ops := PerformedReaches(Lockstep.Start, schedule);
      EveryRunInLockstep(ops, View());
    }
  }
}
