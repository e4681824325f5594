/** What the lockstep theorem has to grant: a query sent before READY, and a ledger error told
    to a waiting execution, each part the machines. */
module LockstepLimits {
  import opened Common
  import opened ChaincodeFsm
  import opened Lockstep
  import opened LockstepShares
  import opened LockstepViews
  import opened LockstepRuns
  import P = PeerSpec
  import S = ShimSpec

  lemma TakesQuery(w: World, st: Stage, u: Uuid)
    requires ControlOf(w) == Expected(st) && IsRunning(w.peer.fsm)
    ensures Fold(w.shim.fsm, w.toShim + [Msg(QUERY, u)]).Some? <==> Launched(st)
  {
    FoldAppend(w.shim.fsm, w.toShim, Msg(QUERY, u));
  }

  /** After any run that finds the chaincode running, the shim will take a QUERY sent now
      exactly when the peer may send one: past initialisation, not ended, and with READY
      already on the stream. */
  lemma QueryTakenIff(ops: seq<Op>, w: World, u: Uuid)
    requires Reaches(Start, ops, w) && IsRunning(w.peer.fsm)
    ensures Fold(w.shim.fsm, w.toShim + [Msg(QUERY, u)]).Some? <==> MaySendQuery(w.peer)
  {
    var st := ReachedInv(ops, w);
    QueryWhenLaunched(w, st);
    TakesQuery(w, st, u);
  }

  // ---------------------------------------------------------------- ledger errors

  lemma TakesError(w: World, st: Stage, u: Uuid)
    requires ControlOf(w) == Expected(st) && (Launched(st) || st.Executing?)
    ensures var f := Fold(w.shim.fsm, w.toShim + [Msg(ERROR, u)]);
            f.None? || !Matching(w.peer.fsm, f.value)
  {
    FoldAppend(w.shim.fsm, w.toShim, Msg(ERROR, u));
  }

  /** After any run, telling a waiting execution that its read failed would part the machines
      for good: the shim's leaves an initialisation or transaction that the peer's keeps
      open, or cannot take the message at all. */
  lemma ReadErrorBreaksLockstep(ops: seq<Op>, w: World, u: Uuid)
    requires Reaches(Start, ops, w) && u in w.peer.readReleased
    ensures var w' := DoReplyRead(w, u, false); var f := Fold(w'.shim.fsm, w'.toShim);
            f.None? || !Matching(w'.peer.fsm, f.value)
  {
    var st := ReachedInv(ops, w);
    ReplyReadLocals(ViewOf(w), st, u);
    TakesError(w, st, u);
  }

  /** The loop takes the error a failed write offers, and sends it on. */
  function ErrorTaken(w: World, u: Uuid): World {
    var p := w.peer.(offersError := w.peer.offersError - multiset{u});
    w.(peer := P.TakeOffer(p, Msg(ERROR, u), true), toShim := w.toShim + P.Sends(p, Msg(ERROR, u)))
  }

  lemma TakesErrorOffer(p: P.Peer, u: Uuid)
    requires p.fsm == BusyInit || p.fsm == BusyXact
    ensures var p' := P.TakeOffer(p, Msg(ERROR, u), true);
            p'.loop == Sending(Msg(ERROR, u)) && p'.fsm == if p.fsm == BusyInit then Init else Transaction
    ensures P.Sends(p, Msg(ERROR, u)) == []
  {
  }

  lemma BusyTakesError(w: World, u: Uuid) returns (w': World)
    requires u in w.peer.writeEntered && (w.peer.fsm == BusyInit || w.peer.fsm == BusyXact)
    ensures u in DoFinishWrite(w, u, false).peer.offersError && w' == ErrorTaken(DoFinishWrite(w, u, false), u)
    ensures w'.peer.loop == Sending(Msg(ERROR, u)) && w'.toShim == w.toShim && w'.shim == w.shim
    ensures w'.peer.fsm == if w.peer.fsm == BusyInit then Init else Transaction
  {
    var p := P.FinishWrite(w.peer, u, false);
    TakesErrorOffer(p.(offersError := p.offersError - multiset{u}), u);
    assert w.toShim + [] == w.toShim;
    w' := ErrorTaken(DoFinishWrite(w, u, false), u);
  }

  lemma EnteredIsBusy(w: World, st: Stage, u: Uuid)
    requires Inv(w, st) && u in w.peer.writeEntered
    ensures w.peer.loop == Free
    ensures || (w.peer.fsm == BusyInit && Fold(w.shim.fsm, w.toShim) == Some(SInit))
            || (w.peer.fsm == BusyXact && Fold(w.shim.fsm, w.toShim) == Some(STransaction))
  {
    FinishWriteLocals(ViewOf(w), st, u);
    assert ControlOf(w) == Expected(st);
  }

  /** After any run in which a write is under way, its failure parts the machines too: the
      peer's loop, which is free, takes the error, stays in the initialisation or transaction
      and sends the error on, which takes the shim's machine out of it. */
  lemma WriteErrorBreaksLockstep(ops: seq<Op>, w: World, u: Uuid) returns (w': World)
    requires Reaches(Start, ops, w) && u in w.peer.writeEntered
    ensures w.peer.loop == Free && u in DoFinishWrite(w, u, false).peer.offersError
    ensures w' == ErrorTaken(DoFinishWrite(w, u, false), u) && w'.peer.loop.Sending?
    ensures var f := Fold(w'.shim.fsm, DoPeerSend(w').toShim);
            f.Some? && !Matching(w'.peer.fsm, f.value)
  {
    var st := ReachedInv(ops, w);
    EnteredIsBusy(w, st, u);
    w' := BusyTakesError(w, u);
    ErrorParts(w', u);
  }

  lemma ErrorParts(w: World, u: Uuid)
    requires w.peer.loop == Sending(Msg(ERROR, u))
    requires || (w.peer.fsm == Init && Fold(w.shim.fsm, w.toShim) == Some(SInit))
             || (w.peer.fsm == Transaction && Fold(w.shim.fsm, w.toShim) == Some(STransaction))
    ensures var f := Fold(w.shim.fsm, DoPeerSend(w).toShim); f.Some? && !Matching(w.peer.fsm, f.value)
  {
    FoldAppend(w.shim.fsm, w.toShim, Msg(ERROR, u));
  }

  // ---------------------------------------------------------------- runs that get there

  lemma Prepend(w: World, op: Op, mid: World, ops: seq<Op>, w': World)
    requires Allowed(w, op) && Step(w, op) == mid && Reaches(mid, ops, w')
    ensures Reaches(w, [op] + ops, w')
  {
    assert ([op] + ops)[1..] == ops;
  }

  // The first four steps of a session.
  const AfterRegister := Start.(peer := P.NewPeer.(fsm := Established), toShim := [Msg(REGISTERED, 0)], toPeer := [])
  const AfterRegistered := AfterRegister.(shim := S.NewShim.(fsm := SEstablished), toShim := [])
  const AfterLaunch := DoLaunch(AfterRegistered, 1, false)
  const AfterReady := ReadyTaken(AfterLaunch, 1)

  lemma FirstStep()
    ensures Allowed(Start, PeerReceive) && Step(Start, PeerReceive) == AfterRegister
  {
    ReceivesRegister(Start);
  }

  lemma SecondStep()
    ensures Allowed(AfterRegister, ShimReceive) && Step(AfterRegister, ShimReceive) == AfterRegistered
  {
  }

  lemma ThirdStep()
    ensures Allowed(AfterRegistered, Launch(1, false)) && Step(AfterRegistered, Launch(1, false)) == AfterLaunch
  {
  }

  lemma FourthStep()
    ensures Allowed(AfterLaunch, PeerTakeExec) && Step(AfterLaunch, PeerTakeExec) == AfterReady
  {
    TakesReady(AfterLaunch, 1);
  }

  lemma RegisteredReached(ops: seq<Op>, w: World)
    requires Reaches(AfterRegistered, ops, w)
    ensures exists ops' :: Reaches(Start, ops', w)
  {
    SecondStep();
    Prepend(AfterRegister, ShimReceive, AfterRegistered, ops, w);
    FirstStep();
    Prepend(Start, PeerReceive, AfterRegister, [ShimReceive] + ops, w);
  }

  lemma ReadyReached()
    ensures exists ops :: Reaches(Start, ops, AfterReady)
  {
    FourthStep();
    Prepend(AfterLaunch, PeerTakeExec, AfterReady, [], AfterReady);
    ThirdStep();
    Prepend(AfterRegistered, Launch(1, false), AfterLaunch, [PeerTakeExec] + [], AfterReady);
    RegisteredReached([Launch(1, false)] + ([PeerTakeExec] + []), AfterReady);
  }

  /** `isRunning` is not enough: the peer reports ready before it has sent READY, and a
      QUERY let in between ends the shim. */
  lemma QueryOvertakesReady()
    ensures exists ops, w, u ::
              && Reaches(Start, ops, w) && Enabled(w, SubmitQuery(u)) && IsRunning(w.peer.fsm)
              && DoSubmitQuery(w, u).toShim != []
              && DoShimReceive(DoSubmitQuery(w, u)).shim.loop == Dead
  {
    ReadyReached();
    assert Enabled(AfterReady, SubmitQuery(2));
    assert DoSubmitQuery(AfterReady, 2).toShim[0] == Msg(QUERY, 2);
  }

  // A deployed chaincode whose execution is running.
  const Deployed := DoLaunch(AfterRegistered, 1, true)
  const Initialising := InitTaken(Deployed, 1)
  const Delivered := Initialising.(shim := S.NewShim.(fsm := SInit, threads := map[1 := S.Thread(true, S.Started)]), toShim := [])
  const Running := Delivered.(shim := Waits(S.Running, {}))

  function Waits(ph: S.Phase, channels: set<Uuid>): S.Shim {
    S.Shim(SInit, Free, channels, map[1 := true], map[1 := S.Thread(true, ph)])
  }

  // The world after it has sent a request.
  function Requested(t: MsgType): World {
    Running.(shim := Waits(S.Awaiting, {1}), toPeer := [Msg(t, 1)])
  }

  lemma DeploySteps()
    ensures Allowed(AfterRegistered, Launch(1, true)) && Step(AfterRegistered, Launch(1, true)) == Deployed
    ensures Allowed(Deployed, PeerTakeExec) && Step(Deployed, PeerTakeExec) == Initialising
    ensures Allowed(Initialising, ShimReceive) && Step(Initialising, ShimReceive) == Delivered
  {
    TakesInit(Deployed, 1);
    assert Initialising.toShim == [Msg(INIT, 1)];
    assert Initialising.toShim[1..] == [];
  }

  lemma RequestSteps(t: MsgType)
    requires t == GET_STATE || t == PUT_STATE
    ensures Allowed(Delivered, StartThread(1)) && Step(Delivered, StartThread(1)) == Running
    ensures Allowed(Running, Request(1, t)) && Step(Running, Request(1, t)) == Requested(t)
  {
    assert S.StartThread(Delivered.shim, 1) == Waits(S.Running, {});
    assert {} + {1} == {1} && Running.shim.threads[1 := S.Thread(true, S.Awaiting)] == map[1 := S.Thread(true, S.Awaiting)];
    assert S.Request(Running.shim, 1, t) == (Waits(S.Awaiting, {1}), [Msg(t, 1)]);
    assert [] + [Msg(t, 1)] == [Msg(t, 1)];
  }

  lemma RequestReached(t: MsgType, ops: seq<Op>, w: World)
    requires (t == GET_STATE || t == PUT_STATE) && Reaches(Requested(t), ops, w)
    ensures exists ops' :: Reaches(Start, ops', w)
  {
    RequestSteps(t);
    Prepend(Running, Request(1, t), Requested(t), ops, w);
    var ops1 := [Request(1, t)] + ops;
    Prepend(Delivered, StartThread(1), Running, ops1, w);
    var ops2 := [StartThread(1)] + ops1;
    DeploySteps();
    Prepend(Initialising, ShimReceive, Delivered, ops2, w);
    var ops3 := [ShimReceive] + ops2;
    Prepend(Deployed, PeerTakeExec, Initialising, ops3, w);
    var ops4 := [PeerTakeExec] + ops3;
    Prepend(AfterRegistered, Launch(1, true), Deployed, ops4, w);
    var ops5 := [Launch(1, true)] + ops4;
    RegisteredReached(ops5, w);
  }

  /** Both errors can happen: a run leads to a read about to be answered, and one to a write
      under way. */
  lemma ErrorsCanHappen()
    ensures exists ops, w, u :: Reaches(Start, ops, w) && u in w.peer.readReleased
    ensures exists ops, w, u :: Reaches(Start, ops, w) && u in w.peer.writeEntered
  {
    var w := ReadServed();
    assert 1 in w.peer.readReleased;
    w := WriteServed();
    assert 1 in w.peer.writeEntered;
  }

  lemma ReadServed() returns (w: World)
    ensures 1 in w.peer.readReleased && exists ops :: Reaches(Start, ops, w)
  {
    var w0 := Requested(GET_STATE);
    ReceivesRead(w0, Msg(GET_STATE, 1));
    var w1 := Step(w0, PeerReceive);
    var w2 := DoStartRead(w1, 1);
    w := DoReleaseRead(w2, 1);
    Prepend(w2, ReleaseRead(1), w, [], w);
    Prepend(w1, StartRead(1), w2, [ReleaseRead(1)] + [], w);
    Prepend(w0, PeerReceive, w1, [StartRead(1)] + ([ReleaseRead(1)] + []), w);
    RequestReached(GET_STATE, [PeerReceive] + ([StartRead(1)] + ([ReleaseRead(1)] + [])), w);
  }

  lemma WriteServed() returns (w: World)
    ensures 1 in w.peer.writeEntered && exists ops :: Reaches(Start, ops, w)
  {
    var w0 := Requested(PUT_STATE);
    ReceivesWrite(w0, Msg(PUT_STATE, 1));
    var w1 := Step(w0, PeerReceive);
    w := DoStartWrite(w1, 1);
    Prepend(w1, StartWrite(1), w, [], w);
    Prepend(w0, PeerReceive, w1, [StartWrite(1)] + [], w);
    RequestReached(PUT_STATE, [PeerReceive] + ([StartWrite(1)] + []), w);
  }
}
