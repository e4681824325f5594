/** The messages of the chaincode stream and the two finite state machines that speak
    it: the peer's and the shim's. */
module ChaincodeFsm {
  import opened Common

  type Uuid = nat

  datatype MsgType =
    | REGISTER | REGISTERED | INIT | READY | TRANSACTION | COMPLETED | ERROR
    | GET_STATE | PUT_STATE | DEL_STATE | INVOKE_CHAINCODE | INVOKE_QUERY | RESPONSE
    | QUERY | QUERY_COMPLETED | QUERY_ERROR
    | RANGE_QUERY_STATE | RANGE_QUERY_STATE_NEXT | RANGE_QUERY_STATE_CLOSE

  datatype Msg = Msg(typ: MsgType, uuid: Uuid)

  predicate IsRead(t: MsgType) {
    t == GET_STATE || t == RANGE_QUERY_STATE || t == RANGE_QUERY_STATE_NEXT || t == RANGE_QUERY_STATE_CLOSE
  }

  predicate IsWrite(t: MsgType) {
    t == PUT_STATE || t == DEL_STATE || t == INVOKE_CHAINCODE
  }

  datatype PeerState = Created | Established | Init | Ready | Transaction | BusyInit | BusyXact | End

  /** The peer's event table: where an event leads, if it is possible at all. */
  function PeerNext(s: PeerState, t: MsgType): Option<PeerState> {
    match s
    case Created => if t == REGISTER then Some(Established) else None
    case Established =>
      if t == INIT then Some(Init) else if t == READY then Some(Ready) else None
    case Init =>
      if IsWrite(t) then Some(BusyInit) else if IsRead(t) then Some(Init)
      else if t == COMPLETED then Some(Ready) else if t == ERROR then Some(End) else None
    case Ready =>
      if t == TRANSACTION then Some(Transaction) else if IsRead(t) || t == COMPLETED then Some(Ready) else None
    case Transaction =>
      if IsWrite(t) then Some(BusyXact) else if IsRead(t) then Some(Transaction)
      else if t == COMPLETED || t == ERROR then Some(Ready) else None
    case BusyInit =>
      if IsRead(t) then Some(BusyInit) else if t == ERROR || t == RESPONSE then Some(Init) else None
    case BusyXact =>
      if IsRead(t) then Some(BusyXact) else if t == ERROR || t == RESPONSE then Some(Transaction) else None
    case End => None
  }

  datatype ShimState = SCreated | SEstablished | SInit | SReady | STransaction

  /** The shim's event table. */
  function ShimNext(s: ShimState, t: MsgType): Option<ShimState> {
    match s
    case SCreated => if t == REGISTERED then Some(SEstablished) else None
    case SEstablished =>
      if t == INIT then Some(SInit) else if t == READY then Some(SReady) else None
    case SInit =>
      if t == ERROR then Some(SEstablished) else if t == RESPONSE then Some(SInit)
      else if t == COMPLETED then Some(SReady) else None
    case SReady =>
      if t == TRANSACTION then Some(STransaction) else if t == QUERY || t == RESPONSE then Some(SReady) else None
    case STransaction =>
      if t == COMPLETED || t == ERROR then Some(SReady)
      else if t == RESPONSE || t == QUERY then Some(STransaction) else None
  }

  // A handler's message loop: free, about to send what it just handled, or ended by a
  // message its machine could not take (or, on the shim, blocked for good).
  datatype Loop = Free | Sending(msg: Msg) | Dead
}

/** The peer's end of the stream. */
module PeerSpec {
  import opened Common
  import opened ChaincodeFsm

  // A transaction context: what it was submitted as, and the types of the messages that were
  // ever put into its notifier, a channel with room for one.
  datatype Context = Context(query: bool, notices: seq<MsgType>)

  datatype Peer = Peer(
    fsm: PeerState,
    loop: Loop,
    uuidMap: set<Uuid>,
    contexts: map<Uuid, Context>,
    isTransaction: map<Uuid, bool>,
    // Goroutines serving read requests: started, holding their uuid entry, about to reply.
    readSpawned: multiset<Uuid>, readEntered: multiset<Uuid>, readReleased: multiset<Uuid>,
    // Goroutines serving write requests: started, holding their uuid entry, and blocked
    // offering the next state, RESPONSE or ERROR.
    writeSpawned: multiset<Uuid>, writeEntered: multiset<Uuid>,
    offersOk: multiset<Uuid>, offersError: multiset<Uuid>,
    dropped: nat)               // requests dropped as duplicates

  const NewPeer := Peer(Created, Free, {}, map[], map[],
    multiset{}, multiset{}, multiset{}, multiset{}, multiset{}, multiset{}, multiset{}, 0)

  predicate IsTransaction(p: Peer, u: Uuid) {
    u in p.isTransaction && p.isTransaction[u]
  }

  function Mark(p: Peer, u: Uuid, isTrans: bool): Peer {
    p.(isTransaction := p.isTransaction[u := isTrans])
  }

  function Unmark(p: Peer, u: Uuid): Peer {
    p.(isTransaction := p.isTransaction - {u})
  }

  function Notify(p: Peer, m: Msg): Peer {
    if m.uuid in p.contexts
    then p.(contexts := p.contexts[m.uuid := p.contexts[m.uuid].(notices := p.contexts[m.uuid].notices + [m.typ])])
    else p
  }

  /** The end of a transaction or query: its mark goes, its notifier is told. */
  function Conclude(p: Peer, m: Msg): Peer {
    Notify(Unmark(p, m.uuid), m)
  }

  function SpawnRead(p: Peer, u: Uuid): Peer {
    p.(readSpawned := p.readSpawned + multiset{u})
  }

  function SpawnWrite(p: Peer, u: Uuid): Peer {
    p.(writeSpawned := p.writeSpawned + multiset{u})
  }

  /** What the enter callback of the state just reached does with the message that led there. */
  function Enter(p: Peer, m: Msg): Peer {
    match p.fsm
    case Init => if m.typ == INIT then Mark(p, m.uuid, true) else p
    case Ready => Conclude(p, m)
    case End => Conclude(p, m)
    case BusyInit => SpawnWrite(p, m.uuid)
    case BusyXact => SpawnWrite(p, m.uuid)
    case _ => p
  }

  /** `HandleMessage`: the new state, and whether the message was acceptable.  The enter
      callback runs only when the state changes; the after-callbacks of reads run always. */
  function HandleMessage(p: Peer, m: Msg): (Peer, bool) {
    if m.typ == QUERY_COMPLETED || m.typ == QUERY_ERROR then (Conclude(p, m), true)
    else if m.typ == INVOKE_QUERY then (SpawnRead(p, m.uuid), true)
    else
      match PeerNext(p.fsm, m.typ)
      case None => (p, false)
      case Some(dst) =>
        if dst != p.fsm then (Enter(p.(fsm := dst), m), true)
        else if IsRead(m.typ) then (SpawnRead(p, m.uuid), true)
        else (p, true)
  }

  /** What `HandleMessage` itself sends: the answer to REGISTER, the INIT that starts the
      chaincode, and the refusal of a request that came at the wrong time from a query. */
  function Sends(p: Peer, m: Msg): seq<Msg> {
    if m.typ == QUERY_COMPLETED || m.typ == QUERY_ERROR || m.typ == INVOKE_QUERY then []
    else if PeerNext(p.fsm, m.typ).None? then
      (if IsWrite(m.typ) && !IsTransaction(p, m.uuid) then [Msg(ERROR, m.uuid)] else [])
    else if m.typ == REGISTER then [Msg(REGISTERED, 0)]
    else if m.typ == INIT then [m]
    else []
  }

  /** The loop receives a message from the stream. */
  function Receive(p: Peer, m: Msg): Peer {
    var (p', ok) := HandleMessage(p, m);
    p'.(loop := if ok then Free else Dead)
  }

  /** The loop takes an offered next state; it sends the message on afterwards unless the
      offer says otherwise. */
  function TakeOffer(p: Peer, m: Msg, send: bool): Peer {
    var (p', ok) := HandleMessage(p, m);
    p'.(loop := if !ok then Dead else if send then Sending(m) else Free)
  }

  // ---------------------------------------------------------------- request goroutines

  function StartRead(p: Peer, u: Uuid): Peer
    requires u in p.readSpawned
  {
    var p' := p.(readSpawned := p.readSpawned - multiset{u});
    if u in p.uuidMap then p'.(dropped := p.dropped + 1)
    else p'.(uuidMap := p.uuidMap + {u}, readEntered := p.readEntered + multiset{u})
  }

  function ReleaseRead(p: Peer, u: Uuid): Peer
    requires u in p.readEntered
  {
    p.(uuidMap := p.uuidMap - {u}, readEntered := p.readEntered - multiset{u},
       readReleased := p.readReleased + multiset{u})
  }

  function ReplyRead(p: Peer, u: Uuid, ok: bool): (Peer, Msg)
    requires u in p.readReleased
  {
    (p.(readReleased := p.readReleased - multiset{u}), Msg(if ok then RESPONSE else ERROR, u))
  }

  /** The first half of `enterBusyState`: queries are refused, duplicates dropped. */
  function StartWrite(p: Peer, u: Uuid): Peer
    requires u in p.writeSpawned
  {
    var p' := p.(writeSpawned := p.writeSpawned - multiset{u});
    if !IsTransaction(p, u) then p'.(offersError := p.offersError + multiset{u})
    else if u in p.uuidMap then p'.(dropped := p.dropped + 1)
    else p'.(uuidMap := p.uuidMap + {u}, writeEntered := p.writeEntered + multiset{u})
  }

  /** The second half: the ledger is changed under uuid u (or fails to be), the entry is
      deleted and the outcome offered as the next state. */
  function FinishWrite(p: Peer, u: Uuid, ok: bool): Peer
    requires u in p.writeEntered
  {
    var p' := p.(uuidMap := p.uuidMap - {u}, writeEntered := p.writeEntered - multiset{u});
    if ok then p'.(offersOk := p.offersOk + multiset{u}) else p'.(offersError := p.offersError + multiset{u})
  }

  // ---------------------------------------------------------------- contexts

  function CreateContext(p: Peer, u: Uuid, query: bool): Peer {
    p.(contexts := p.contexts[u := Context(query, [])])
  }

  function DeleteContext(p: Peer, u: Uuid): Peer {
    p.(contexts := p.contexts - {u})
  }
}

/** The shim's end of the stream: its machine and the executions it runs, one thread per
    transaction or query. */
module ShimSpec {
  import opened Common
  import opened ChaincodeFsm

  datatype Phase =
    | Started
    | Running
    | Awaiting              // a request is out, the thread waits on its channel
    | Delivered             // the reply has arrived, the channel is not yet deleted
    | Finishing(ok: bool)   // blocked offering COMPLETED or ERROR as the next state

  datatype Thread = Thread(tx: bool, phase: Phase)

  datatype Shim = Shim(
    fsm: ShimState,
    loop: Loop,
    responseChannel: set<Uuid>,
    isTransaction: map<Uuid, bool>,
    threads: map<Uuid, Thread>)

  const NewShim := Shim(SCreated, Free, {}, map[], map[])

  predicate InPhase(s: Shim, u: Uuid, ph: Phase) {
    u in s.threads && s.threads[u].phase == ph
  }

  function SetPhase(s: Shim, u: Uuid, ph: Phase): Shim
    requires u in s.threads
  {
    s.(threads := s.threads[u := s.threads[u].(phase := ph)])
  }

  /** A second execution under a live uuid would be a fault: the loop is declared dead. */
  function Spawn(s: Shim, u: Uuid, tx: bool): Shim {
    if u in s.threads then s.(loop := Dead) else s.(threads := s.threads[u := Thread(tx, Started)])
  }

  /** `sendChannel`: without a channel the message is lost; with a channel nobody reads
      the loop blocks for good. */
  function SendChannel(s: Shim, u: Uuid): Shim {
    if u !in s.responseChannel then s
    else if InPhase(s, u, Awaiting) then SetPhase(s, u, Delivered)
    else s.(loop := Dead)
  }

  function HandleMessage(s: Shim, m: Msg): Shim {
    match ShimNext(s.fsm, m.typ)
    case None => s.(loop := Dead)
    case Some(dst) =>
      var s' := s.(fsm := dst);
      if m.typ == INIT || m.typ == TRANSACTION then Spawn(s', m.uuid, true)
      else if m.typ == QUERY then Spawn(s', m.uuid, false)
      else if m.typ == RESPONSE || m.typ == ERROR then SendChannel(s', m.uuid)
      else s'
  }

  function FinishMsg(u: Uuid, ok: bool): Msg {
    Msg(if ok then COMPLETED else ERROR, u)
  }

  /** The loop takes the outcome a finished transaction offers, then sends it on. */
  function TakeFinish(s: Shim, u: Uuid): Shim
    requires u in s.threads && s.threads[u].phase.Finishing?
  {
    var m := FinishMsg(u, s.threads[u].phase.ok);
    var s' := HandleMessage(s.(threads := s.threads - {u}), m);
    if s'.loop == Dead then s' else s'.(loop := Sending(m))
  }

  // ---------------------------------------------------------------- threads

  function StartThread(s: Shim, u: Uuid): Shim
    requires InPhase(s, u, Started)
  {
    SetPhase(s, u, Running).(isTransaction := s.isTransaction[u := s.threads[u].tx])
  }

  /** A request: refused locally when one is pending for the uuid, or when a query tries
      to write; otherwise the channel is created and the message sent. */
  function Request(s: Shim, u: Uuid, t: MsgType): (Shim, seq<Msg>)
    requires InPhase(s, u, Running)
  {
    if (IsWrite(t) && !(u in s.isTransaction && s.isTransaction[u])) || u in s.responseChannel then (s, [])
    else (SetPhase(s, u, Awaiting).(responseChannel := s.responseChannel + {u}), [Msg(t, u)])
  }

  function ResumeThread(s: Shim, u: Uuid): Shim
    requires InPhase(s, u, Delivered)
  {
    SetPhase(s, u, Running).(responseChannel := s.responseChannel - {u})
  }

  /** The chaincode returns: a transaction offers its outcome to the loop, a query sends
      its own. */
  function EndThread(s: Shim, u: Uuid, ok: bool): (Shim, seq<Msg>)
    requires InPhase(s, u, Running)
  {
    var s' := s.(isTransaction := s.isTransaction - {u});
    if s.threads[u].tx then (SetPhase(s', u, Finishing(ok)), [])
    else (s'.(threads := s'.threads - {u}), [Msg(if ok then QUERY_COMPLETED else QUERY_ERROR, u)])
  }
}
