/** A session never gets stuck and leaves nothing behind: as long as anyone waits for an
    outcome some step that leads on is possible, and a uuid whose context is gone has no
    trace left on either side. */
module LockstepProgress {
  import opened ChaincodeFsm
  import opened Lockstep
  import opened LockstepShares
  import opened LockstepViews
  import opened LockstepRuns
  import P = PeerSpec
  import S = ShimSpec

  /** Not a new submission. */
  predicate LeadsOn(op: Op) {
    !op.Launch? && !op.Submit? && !op.SubmitQuery?
  }

  ghost predicate CanMove(w: World) {
    exists op :: Allowed(w, op) && LeadsOn(op)
  }

  lemma Leads(w: World, op: Op)
    requires Allowed(w, op) && LeadsOn(op)
    ensures CanMove(w)
  {
  }

  /** What is on a stream gets off it, or the loop has something to send first. */
  lemma PeerMoves(w: World)
    requires w.peer.loop != Dead && (w.toPeer != [] || w.peer.loop.Sending?)
    ensures CanMove(w)
  {
    Leads(w, if w.peer.loop.Sending? then PeerSend else PeerReceive);
  }

  lemma ShimMoves(w: World)
    requires w.shim.loop != Dead && (w.toShim != [] || w.shim.loop.Sending?)
    ensures CanMove(w)
  {
    Leads(w, if w.shim.loop.Sending? then ShimSend else ShimReceive);
  }

  lemma Alive(w: World, st: Stage)
    requires ControlOf(w) == Expected(st)
    ensures w.peer.loop != Dead && w.shim.loop != Dead
  {
  }

  /** A message counted in a share is on its stream. */
  lemma UpMeansStream(w: World, u: Uuid)
    requires UpOf(multiset(w.toPeer), u) != Up(0, 0, 0, 0, 0)
    ensures w.toPeer != []
  {
  }

  lemma DownMeansStream(w: World, u: Uuid)
    requires DownOf(multiset(w.toShim), u) != Down(0, 0, 0, 0)
    ensures w.toShim != []
  {
  }

  lemma GoroutineMoves(w: World, u: Uuid)
    requires var p := PeerPartOf(w.peer, u);
             p.readSpawned + p.readEntered + p.readReleased + p.writeSpawned + p.writeEntered > 0
    ensures CanMove(w)
  {
    if u in w.peer.readSpawned {
      Leads(w, StartRead(u));
    } else if u in w.peer.readEntered {
      Leads(w, ReleaseRead(u));
    } else if u in w.peer.readReleased {
      Leads(w, ReplyRead(u, true));
    } else if u in w.peer.writeSpawned {
      Leads(w, StartWrite(u));
    } else {
      Leads(w, FinishWrite(u, true));
    }
  }

  /** The request of a waiting execution is somewhere, and moves from there. */
  lemma RequestMoves(w: World, st: Stage, u: Uuid)
    requires Inv(w, st) && S.InPhase(w.shim, u, S.Awaiting)
    ensures CanMove(w)
  {
    Alive(w, st);
    var l := LocalOf(ViewOf(w), u);
    assert LocalOk(l, ShareOf(st, u));
    if w.peer.loop.Sending? || l.up.gets + l.up.writes > 0 {
      if !w.peer.loop.Sending? {
        UpMeansStream(w, u);
      }
      PeerMoves(w);
    } else if l.down.replies > 0 {
      DownMeansStream(w, u);
      ShimMoves(w);
    } else if l.peer.offersOk > 0 {
      Leads(w, PeerTakeReply(u));
    } else {
      NotReplying(w, st, u);
      GoroutineMoves(w, u);
    }
  }

  lemma NotReplying(w: World, st: Stage, u: Uuid)
    requires ControlOf(w) == Expected(st) && !w.peer.loop.Sending?
    ensures ShareOf(st, u).replying == 0
  {
  }

  /** An execution on the shim moves, whatever it is doing. */
  lemma ThreadMoves(w: World, st: Stage, u: Uuid)
    requires Inv(w, st) && u in w.shim.threads
    ensures CanMove(w)
  {
    Alive(w, st);
    match w.shim.threads[u].phase
    case Started => Leads(w, StartThread(u));
    case Running => Leads(w, EndThread(u, true));
    case Awaiting => RequestMoves(w, st, u);
    case Delivered => Leads(w, ResumeThread(u));
    case Finishing(_) =>
      if w.shim.loop.Sending? {
        ShimMoves(w);
      } else {
        Leads(w, ShimTakeFinish(u));
      }
  }

  lemma QueryMoves(w: World, st: Stage, u: Uuid)
    requires Inv(w, st) && OpenQuery(LocalOf(ViewOf(w), u))
    ensures CanMove(w)
  {
    Alive(w, st);
    var l := LocalOf(ViewOf(w), u);
    assert LocalOk(l, ShareOf(st, u));
    if l.down.queries > 0 {
      DownMeansStream(w, u);
      ShimMoves(w);
    } else if l.up.queryEnds > 0 {
      UpMeansStream(w, u);
      PeerMoves(w);
    } else {
      ThreadMoves(w, st, u);
    }
  }

  /** The transaction under way moves. */
  lemma DeliveringMoves(w: World, st: Stage)
    requires Inv(w, st) && st.Delivering?
    ensures CanMove(w)
  {
    Alive(w, st);
    assert LocalOk(LocalOf(ViewOf(w), st.u), ShareOf(st, st.u));
    DownMeansStream(w, st.u);
    ShimMoves(w);
  }

  lemma EndSent(w: World, st: Stage)
    requires ControlOf(w) == Expected(st) && st.Ending? && st.phase.EndSending?
    ensures w.shim.loop.Sending?
  {
  }

  lemma EndOnStream(l: Local, st: Stage)
    requires st.Ending? && st.phase.EndInFlight? && MainOk(l, ShareOf(st, st.u))
    ensures l.up != Up(0, 0, 0, 0, 0)
  {
  }

  lemma EndingMoves(w: World, st: Stage)
    requires Inv(w, st) && st.Ending? && !st.phase.EndOffered?
    ensures CanMove(w)
  {
    Alive(w, st);
    if st.phase.EndSending? {
      EndSent(w, st);
      ShimMoves(w);
    } else {
      EndInFlightMoves(w, st);
    }
  }

  lemma EndInFlightMoves(w: World, st: Stage)
    requires Inv(w, st) && st.Ending? && st.phase.EndInFlight? && w.peer.loop != Dead
    ensures CanMove(w)
  {
    var l := LocalOf(ViewOf(w), st.u);
    assert LocalOk(l, ShareOf(st, st.u));
    EndOnStream(l, st);
    UpMeansStream(w, st.u);
    PeerMoves(w);
  }

  lemma MainThreadMoves(w: World, st: Stage)
    requires Inv(w, st) && (st.Executing? || (st.Ending? && st.phase.EndOffered?))
    ensures CanMove(w)
  {
    assert LocalOk(LocalOf(ViewOf(w), st.u), ShareOf(st, st.u));
    ThreadMoves(w, st, st.u);
  }

  lemma MainMoves(w: World, st: Stage)
    requires Inv(w, st) && HasMain(st)
    ensures CanMove(w)
  {
    if st.Launching? {
      Alive(w, st);
      PeerMoves(w);
    } else if st.Delivering? {
      DeliveringMoves(w, st);
    } else if st.Executing? || st.phase.EndOffered? {
      MainThreadMoves(w, st);
    } else {
      EndingMoves(w, st);
    }
  }

  /** Whoever waits for the launch or a transaction to end. */
  predicate Busy(e: Exec) {
    e.Offering? || e.AwaitingNotice?
  }

  lemma ExecutorMoves(w: World, st: Stage)
    requires Inv(w, st) && Busy(w.exec)
    ensures CanMove(w)
  {
    Alive(w, st);
    if HasMain(st) {
      MainMoves(w, st);
    } else if w.peer.loop.Sending? {
      PeerMoves(w);
    } else if w.exec.Offering? {
      Leads(w, PeerTakeExec);
    } else {
      Leads(w, Collect);
    }
  }

  /** In every run, while the executor or the submitter of a query waits, some step is
      possible that is not just another submission. */
  lemma EveryRunCanMove(ops: seq<Op>, w: World, u: Uuid)
    requires Reaches(Start, ops, w)
    requires Busy(w.exec) || (u in w.peer.contexts && w.peer.contexts[u].query)
    ensures CanMove(w)
  {
    var st := ReachedInv(ops, w);
    if Busy(w.exec) {
      ExecutorMoves(w, st);
    } else if w.peer.contexts[u].notices != [] {
      Leads(w, CollectQuery(u));
    } else {
      QueryMoves(w, st, u);
    }
  }

  lemma NoTraces(w: World, st: Stage, u: Uuid)
    requires Inv(w, st) && u !in w.peer.contexts
    ensures !P.IsTransaction(w.peer, u) && u !in w.peer.writeEntered && u !in w.peer.uuidMap
    ensures u !in w.shim.threads && u !in w.shim.responseChannel && u !in w.shim.isTransaction && RequestTraces(w, u) == 0
  {
    assert LocalOk(LocalOf(ViewOf(w), u), ShareOf(st, u));
    Conserved(w, st, u);
  }

  /** In every run a uuid without a context is fresh: no mark, no request or write, no
      execution and no channel is left of any earlier use. */
  lemma EveryRunForgetsFinished(ops: seq<Op>, w: World, u: Uuid)
    requires Reaches(Start, ops, w) && u !in w.peer.contexts
    ensures !P.IsTransaction(w.peer, u) && u !in w.peer.writeEntered && u !in w.peer.uuidMap
    ensures u !in w.shim.threads && u !in w.shim.responseChannel && u !in w.shim.isTransaction && RequestTraces(w, u) == 0
  {
    var st := ReachedInv(ops, w);
    NoTraces(w, st, u);
  }
}
