/** The peer's guard against chaincode that writes from a query.  The chaincode side may
    send any message at any time; executors submit transactions and queries; submitting
    creates the context first and sets the mark in a second step.  Whether a query stays
    read-only is decided by one thing the submitter could look up beforehand. */
module QueryGuard {
  import opened ChaincodeFsm
  import P = PeerSpec

  // The handler, the submissions between context and mark (true for queries), and the
  // transactions offered to the loop.
  datatype Guard = Guard(peer: P.Peer, marking: map<Uuid, bool>, offered: multiset<Uuid>)

  datatype Op =
    | ChaincodeSends(msg: Msg)
    | Begin(uuid: Uuid, query: bool)   // createTxContext
    | Mark(uuid: Uuid)                 // markIsTransaction, then offer or send
    | Forget(uuid: Uuid)               // deleteTxContext
    | TakeTransaction(uuid: Uuid)
    | TakeReply(uuid: Uuid, ok: bool)
    | LoopSends
    | StartRead(uuid: Uuid)
    | ReleaseRead(uuid: Uuid)
    | ReplyRead(uuid: Uuid, ok: bool)
    | StartWrite(uuid: Uuid)
    | FinishWrite(uuid: Uuid, ok: bool)   // the ledger write (or its failure) has happened

  predicate Enabled(g: Guard, op: Op) {
    match op
    case ChaincodeSends(_) => g.peer.loop == Free
    case Begin(u, _) => u !in g.peer.contexts
    case Mark(u) => u in g.marking
    case Forget(u) => u in g.peer.contexts && u !in g.marking
    case TakeTransaction(u) => g.peer.loop == Free && u in g.offered
    case TakeReply(u, ok) => g.peer.loop == Free && u in (if ok then g.peer.offersOk else g.peer.offersError)
    case LoopSends => g.peer.loop.Sending?
    case StartRead(u) => u in g.peer.readSpawned
    case ReleaseRead(u) => u in g.peer.readEntered
    case ReplyRead(u, _) => u in g.peer.readReleased
    case StartWrite(u) => u in g.peer.writeSpawned
    case FinishWrite(u, _) => u in g.peer.writeEntered
  }

  function Step(g: Guard, op: Op): Guard
    requires Enabled(g, op)
  {
    match op
    case ChaincodeSends(m) => g.(peer := P.Receive(g.peer, m))
    case Begin(u, query) => g.(peer := P.CreateContext(g.peer, u, query), marking := g.marking[u := query])
    case Mark(u) =>
      g.(peer := P.Mark(g.peer, u, !g.marking[u]), marking := g.marking - {u},
         offered := if g.marking[u] then g.offered else g.offered + multiset{u})
    case Forget(u) => g.(peer := P.DeleteContext(g.peer, u))
    case TakeTransaction(u) =>
      g.(peer := P.TakeOffer(g.peer, Msg(TRANSACTION, u), true), offered := g.offered - multiset{u})
    case TakeReply(u, ok) =>
      g.(peer := if ok then P.TakeOffer(g.peer.(offersOk := g.peer.offersOk - multiset{u}), Msg(RESPONSE, u), true)
                 else P.TakeOffer(g.peer.(offersError := g.peer.offersError - multiset{u}), Msg(ERROR, u), true))
    case LoopSends => g.(peer := g.peer.(loop := Free))
    case StartRead(u) => g.(peer := P.StartRead(g.peer, u))
    case ReleaseRead(u) => g.(peer := P.ReleaseRead(g.peer, u))
    case ReplyRead(u, ok) => g.(peer := P.ReplyRead(g.peer, u, ok).0)
    case StartWrite(u) => g.(peer := P.StartWrite(g.peer, u))
    case FinishWrite(u, ok) => g.(peer := P.FinishWrite(g.peer, u, ok))
  }

  /** The run that performs ops one after the other. */
  ghost predicate Runs(g: Guard, ops: seq<Op>, g': Guard)
    decreases |ops|
  {
    if ops == [] then g' == g
    else Enabled(g, ops[0]) && Runs(Step(g, ops[0]), ops[1..], g')
  }

  /** The handler has been ready: from here it never initialises again. */
  predicate PastInit(g: Guard) {
    g.peer.fsm == Ready || g.peer.fsm == Transaction || g.peer.fsm == BusyXact
  }

  predicate LiveQuery(g: Guard, u: Uuid) {
    u in g.peer.contexts && g.peer.contexts[u].query
  }

  /** A ledger write under u is under way: past the guard, its effect not yet finished. */
  predicate Writing(g: Guard, u: Uuid) {
    u in g.peer.writeEntered
  }

  /** Nothing is left over from an earlier use of the uuid: no mark, no write under way. */
  predicate Fresh(g: Guard, u: Uuid) {
    !P.IsTransaction(g.peer, u) && !Writing(g, u)
  }

  // ---------------------------------------------------------------- a fresh query never writes

  predicate Guarded(g: Guard, u: Uuid) {
    && PastInit(g) && LiveQuery(g, u) && Fresh(g, u)
    && (u in g.marking ==> g.marking[u])
  }

  /** What handling a message past initialisation leaves alone. */
  predicate Unmoved(p: P.Peer, p': P.Peer, u: Uuid) {
    && (p'.fsm == Ready || p'.fsm == Transaction || p'.fsm == BusyXact)
    && !P.IsTransaction(p', u) && p'.writeEntered == p.writeEntered
    && (u in p.contexts ==> u in p'.contexts && p'.contexts[u].query == p.contexts[u].query)
  }

  lemma ConcludingMarksNothing(p: P.Peer, m: Msg, u: Uuid)
    requires Unmoved(p, p, u)
    ensures Unmoved(p, P.Conclude(p, m), u)
  {
  }

  lemma EnteringMarksNothing(p: P.Peer, m: Msg, u: Uuid)
    requires Unmoved(p, p, u)
    ensures Unmoved(p, P.Enter(p, m), u)
  {
    if p.fsm == Ready {
      ConcludingMarksNothing(p, m, u);
    }
  }

  /** No message marks a uuid or starts a write past initialisation. */
  lemma HandlingMarksNothing(p: P.Peer, m: Msg, u: Uuid)
    requires Unmoved(p, p, u)
    ensures Unmoved(p, P.HandleMessage(p, m).0, u)
  {
    var next := PeerNext(p.fsm, m.typ);
    if m.typ == QUERY_COMPLETED || m.typ == QUERY_ERROR {
      ConcludingMarksNothing(p, m, u);
    } else if m.typ != INVOKE_QUERY && next.Some? && next.value != p.fsm {
      assert Unmoved(p, p.(fsm := next.value), u);
      EnteringMarksNothing(p.(fsm := next.value), m, u);
    }
  }

  lemma StepKeepsGuarded(g: Guard, op: Op, u: Uuid)
    requires Guarded(g, u) && Enabled(g, op) && op != Forget(u)
    ensures Guarded(Step(g, op), u)
  {
    match op
    case ChaincodeSends(m) => HandlingMarksNothing(g.peer, m, u);
    case TakeTransaction(v) => HandlingMarksNothing(g.peer, Msg(TRANSACTION, v), u);
    case TakeReply(v, ok) =>
      if ok {
        HandlingMarksNothing(g.peer.(offersOk := g.peer.offersOk - multiset{v}), Msg(RESPONSE, v), u);
      } else {
        HandlingMarksNothing(g.peer.(offersError := g.peer.offersError - multiset{v}), Msg(ERROR, v), u);
      }
    case _ =>
  }

  lemma {:induction false} RunKeepsGuarded(g: Guard, ops: seq<Op>, g': Guard, u: Uuid)
    requires Guarded(g, u) && Runs(g, ops, g') && Forget(u) !in ops
    ensures Guarded(g', u)
    decreases |ops|
  {
    if ops != [] {
      StepKeepsGuarded(g, ops[0], u);
      RunKeepsGuarded(Step(g, ops[0]), ops[1..], g', u);
    }
  }

  // The handler after a query has been given its context.
  function Submitted(g: Guard, u: Uuid): Guard {
    g.(peer := P.CreateContext(g.peer, u, true), marking := g.marking[u := true])
  }

  /** Whatever the chaincode sends and whatever else is submitted, a query whose uuid was
      fresh never has a write under way while its context lives. */
  lemma FreshQueryNeverWrites(g: Guard, u: Uuid, ops: seq<Op>, g': Guard)
    requires PastInit(g) && u !in g.peer.contexts && Fresh(g, u)
    requires Runs(Submitted(g, u), ops, g') && Forget(u) !in ops
    ensures LiveQuery(g', u) && !Writing(g', u)
  {
    RunKeepsGuarded(Submitted(g, u), ops, g', u);
  }

  lemma WriteTaken(p: P.Peer, m: Msg)
    requires IsWrite(m.typ) && (p.fsm == Init || p.fsm == Transaction)
    ensures P.HandleMessage(p, m) == (P.SpawnWrite(p.(fsm := if p.fsm == Init then BusyInit else BusyXact), m.uuid), true)
  {
  }

  lemma WriteNotTaken(p: P.Peer, m: Msg)
    requires IsWrite(m.typ) && p.fsm != Init && p.fsm != Transaction
    ensures P.HandleMessage(p, m) == (p, false)
    ensures !P.IsTransaction(p, m.uuid) ==> P.Sends(p, m) == [Msg(ERROR, m.uuid)]
  {
  }

  /** A write that a query asks for does not go unanswered: in every state the peer either
      refuses it on the spot, or has a goroutine look at it, which offers an error. */
  lemma QueryWriteIsRefused(p: P.Peer, m: Msg) returns (p': P.Peer, ok: bool)
    requires IsWrite(m.typ) && !P.IsTransaction(p, m.uuid)
    ensures (p', ok) == P.HandleMessage(p, m)
    ensures !ok ==> P.Sends(p, m) == [Msg(ERROR, m.uuid)]
    ensures ok ==> m.uuid in p'.writeSpawned && m.uuid in P.StartWrite(p', m.uuid).offersError
                   && P.StartWrite(p', m.uuid).writeEntered == p.writeEntered
  {
    if p.fsm == Init || p.fsm == Transaction {
      WriteTaken(p, m);
    } else {
      WriteNotTaken(p, m);
    }
    p', ok := P.HandleMessage(p, m).0, P.HandleMessage(p, m).1;
  }

  // ---------------------------------------------------------------- and only a fresh one stays read-only

  /** An entry of the peer's map belongs to just one goroutine, which will delete it, and no
      goroutine serves a request without one. */
  predicate Held(p: P.Peer, u: Uuid) {
    p.readEntered[u] + p.writeEntered[u] == if u in p.uuidMap then 1 else 0
  }

  lemma HandlingHolds(p: P.Peer, m: Msg)
    ensures var p' := P.HandleMessage(p, m).0;
            p'.uuidMap == p.uuidMap && p'.readEntered == p.readEntered && p'.writeEntered == p.writeEntered
  {
  }

  lemma GoroutinesKeepHeld(p: P.Peer, v: Uuid, ok: bool, u: Uuid)
    requires Held(p, u)
    ensures v in p.readSpawned ==> Held(P.StartRead(p, v), u)
    ensures v in p.readEntered ==> Held(P.ReleaseRead(p, v), u)
    ensures v in p.readReleased ==> Held(P.ReplyRead(p, v, ok).0, u)
    ensures v in p.writeSpawned ==> Held(P.StartWrite(p, v), u)
    ensures v in p.writeEntered ==> Held(P.FinishWrite(p, v, ok), u)
  {
  }

  lemma StepKeepsHeld(g: Guard, op: Op, u: Uuid)
    requires Held(g.peer, u) && Enabled(g, op)
    ensures Held(Step(g, op).peer, u)
  {
    match op
    case ChaincodeSends(m) => HandlingHolds(g.peer, m);
    case TakeTransaction(v) => HandlingHolds(g.peer, Msg(TRANSACTION, v));
    case TakeReply(v, ok) =>
      HandlingHolds(g.peer.(offersOk := g.peer.offersOk - multiset{v}), Msg(RESPONSE, v));
      HandlingHolds(g.peer.(offersError := g.peer.offersError - multiset{v}), Msg(ERROR, v));
    case StartRead(v) => GoroutinesKeepHeld(g.peer, v, true, u);
    case ReleaseRead(v) => GoroutinesKeepHeld(g.peer, v, true, u);
    case ReplyRead(v, ok) => GoroutinesKeepHeld(g.peer, v, ok, u);
    case StartWrite(v) => GoroutinesKeepHeld(g.peer, v, true, u);
    case FinishWrite(v, ok) => GoroutinesKeepHeld(g.peer, v, ok, u);
    case _ =>
  }

  /** In every run from a new handler on. */
  lemma {:induction false} RunKeepsHeld(g: Guard, ops: seq<Op>, g': Guard, u: Uuid)
    requires Held(g.peer, u) && Runs(g, ops, g')
    ensures Held(g'.peer, u)
    decreases |ops|
  {
    if ops != [] {
      StepKeepsHeld(g, ops[0], u);
      RunKeepsHeld(Step(g, ops[0]), ops[1..], g', u);
    }
  }

  /** Some run from here has a write under way under u while its context lives. */
  ghost predicate MayWrite(g: Guard, u: Uuid) {
    exists ops, g' :: Runs(g, ops, g') && Forget(u) !in ops && Writing(g', u)
  }

  lemma OneMore(g: Guard, op: Op, u: Uuid)
    requires Enabled(g, op) && op != Forget(u) && MayWrite(Step(g, op), u)
    ensures MayWrite(g, u)
  {
    var ops, g' :| Runs(Step(g, op), ops, g') && Forget(u) !in ops && Writing(g', u);
    assert ([op] + ops)[1..] == ops;
    assert Runs(g, [op] + ops, g') && Forget(u) !in [op] + ops;
  }

  lemma WritingMayWrite(g: Guard, u: Uuid)
    requires Writing(g, u)
    ensures MayWrite(g, u)
  {
    var none: seq<Op> := [];
    assert Runs(g, none, g) && Forget(u) !in none;
  }

  // A uuid still marked from before.
  predicate Stale(g: Guard, u: Uuid) {
    PastInit(g) && P.IsTransaction(g.peer, u)
  }

  /** Inside a transaction, a request to write under the marked uuid gets past the guard. */
  lemma WritesInTransaction(g: Guard, u: Uuid)
    requires Stale(g, u) && g.peer.fsm == Transaction && g.peer.loop == Free && u !in g.peer.uuidMap
    ensures MayWrite(g, u)
  {
    var put := ChaincodeSends(Msg(PUT_STATE, u));
    var g1 := g.(peer := P.SpawnWrite(g.peer, u).(fsm := BusyXact));
    assert Step(g, put) == g1;
    WritingMayWrite(Step(g1, StartWrite(u)), u);
    OneMore(g1, StartWrite(u), u);
    OneMore(g, put, u);
  }

  /** A handler past initialisation can be taken into a transaction. */
  lemma WritesWhenFree(g: Guard, u: Uuid)
    requires Stale(g, u) && g.peer.loop == Free && u !in g.peer.uuidMap
    ensures MayWrite(g, u)
  {
    if g.peer.fsm == Transaction {
      WritesInTransaction(g, u);
    } else {
      var op := ChaincodeSends(Msg(if g.peer.fsm == Ready then TRANSACTION else RESPONSE, u));
      assert Step(g, op) == g.(peer := g.peer.(fsm := Transaction));
      WritesInTransaction(Step(g, op), u);
      OneMore(g, op, u);
    }
  }

  lemma WritesWhenSent(g: Guard, u: Uuid)
    requires Stale(g, u) && g.peer.loop != Dead && u !in g.peer.uuidMap
    ensures MayWrite(g, u)
  {
    if g.peer.loop == Free {
      WritesWhenFree(g, u);
    } else {
      WritesWhenFree(Step(g, LoopSends), u);
      OneMore(g, LoopSends, u);
    }
  }

  lemma StaleMayWrite(g: Guard, u: Uuid)
    requires Stale(g, u) && g.peer.loop != Dead && Held(g.peer, u)
    ensures MayWrite(g, u)
  {
    if Writing(g, u) {
      WritingMayWrite(g, u);
    } else if u in g.peer.uuidMap {
      WritesWhenSent(Step(g, ReleaseRead(u)), u);
      OneMore(g, ReleaseRead(u), u);
    } else {
      WritesWhenSent(g, u);
    }
  }

  lemma FreshMayNotWrite(g: Guard, u: Uuid)
    requires PastInit(g) && u !in g.peer.contexts && Fresh(g, u)
    ensures !MayWrite(Submitted(g, u), u)
  {
    forall ops, g' | Runs(Submitted(g, u), ops, g') && Forget(u) !in ops
      ensures !Writing(g', u)
    {
      FreshQueryNeverWrites(g, u, ops, g');
    }
  }

  /** In every handler past initialisation whose loop is alive, whatever it is doing, a query
      under a free uuid stays read-only if and only if the uuid is fresh when the query is
      submitted. */
  lemma QueryReadOnlyIffFresh(g: Guard, u: Uuid)
    requires PastInit(g) && g.peer.loop != Dead && u !in g.peer.contexts && Held(g.peer, u)
    ensures !MayWrite(Submitted(g, u), u) <==> Fresh(g, u)
  {
    if Fresh(g, u) {
      FreshMayNotWrite(g, u);
    } else if Writing(g, u) {
      WritingMayWrite(Submitted(g, u), u);
    } else {
      StaleMayWrite(Submitted(g, u), u);
    }
  }
}
