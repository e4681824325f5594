/** Executing a batch of transactions: each is bracketed by begin and finish, queries are
    not, and the batch keeps the changes of the successful ones. */
module BatchExec {
  import opened Common
  import opened StateTypes
  import opened WorldState

  datatype TxType = Deploy | Invoke | Query | Undefined

  // A transaction and how its execution goes: whether it gets as far as its bracket, what
  // its chaincode writes, and whether the chaincode reports success.
  datatype Job = Job(uuid: string, typ: TxType, prepared: bool, writes: seq<(Key, Option<Value>)>, ok: bool)

  function Writes(s: State, writes: seq<(Key, Option<Value>)>): State
    decreases |writes|
  {
    if writes == [] then s else Writes(Change(s, writes[0].0, writes[0].1), writes[1..])
  }

  function MarkTxBegin(s: State, job: Job): State {
    if job.typ == Query then s else TxBegin(s, job.uuid)
  }

  function MarkTxFinish(s: State, job: Job, ok: bool): State {
    if job.typ == Query then s else TxFinish(s, job.uuid, ok)
  }

  /** `Execute`: the new state and whether an error is returned. */
  function Execute(s: State, job: Job): (State, bool) {
    if !job.prepared || job.typ == Undefined then (s, true)
    else (MarkTxFinish(Writes(MarkTxBegin(s, job), job.writes), job, job.ok), !job.ok)
  }

  function ExecuteAll(s: State, jobs: seq<Job>): State
    decreases |jobs|
  {
    if jobs == [] then s else ExecuteAll(Execute(s, jobs[0]).0, jobs[1..])
  }

  // ---------------------------------------------------------------- what it amounts to

  function PutAll(m: KVs, writes: seq<(Key, Option<Value>)>): KVs
    decreases |writes|
  {
    if writes == [] then m else PutAll(Put(m, writes[0].0, writes[0].1), writes[1..])
  }

  /** No error, and not a query. */
  predicate Counts(job: Job) {
    job.prepared && job.ok && (job.typ == Deploy || job.typ == Invoke)
  }

  /** The changes of the transactions that count, in order. */
  function FoldOfSuccesses(m: KVs, jobs: seq<Job>): KVs
    decreases |jobs|
  {
    if jobs == [] then m
    else FoldOfSuccesses(if Counts(jobs[0]) then PutAll(m, jobs[0].writes) else m, jobs[1..])
  }

  /** The uuids of the transactions that count. */
  function Successes(jobs: seq<Job>): set<string> {
    set i | 0 <= i < |jobs| && Counts(jobs[i]) :: jobs[i].uuid
  }

  lemma FirstSuccess(jobs: seq<Job>)
    requires jobs != []
    ensures Successes(jobs) == (if Counts(jobs[0]) then {jobs[0].uuid} else {}) + Successes(jobs[1..])
  {
    var rest := jobs[1..];
    forall u | u in Successes(jobs) ensures u in (if Counts(jobs[0]) then {jobs[0].uuid} else {}) + Successes(rest) {
      var i :| 0 <= i < |jobs| && Counts(jobs[i]) && jobs[i].uuid == u;
      assert i > 0 ==> rest[i - 1] == jobs[i];
    }
    forall u | u in Successes(rest) ensures u in Successes(jobs) {
      var i :| 0 <= i < |rest| && Counts(rest[i]) && rest[i].uuid == u;
      assert rest[i] == jobs[i + 1];
    }
  }

  /** No transaction is open. */
  predicate Idle(s: State) {
    s.currentTx == "" && s.tx == map[] && !s.panicked
  }

  /** What writes is a transaction with a uuid: neither a query nor the empty uuid opens one. */
  predicate Named(job: Job) {
    job.prepared && job.typ != Undefined && job.writes != [] ==> job.typ != Query && job.uuid != ""
  }

  lemma IdleSeesBatch(s: State)
    requires s.tx == map[]
    ensures Visible(s) == BatchState(s)
  {
    forall k ensures Lookup(Visible(s), k) == Lookup(BatchState(s), k) {
      OverlaidLookup(BatchState(s), s.tx, k);
    }
    SameLookups(Visible(s), BatchState(s));
  }

  lemma {:induction false} WritesArePuts(s: State, writes: seq<(Key, Option<Value>)>)
    requires s.currentTx != ""
    ensures var s' := Writes(s, writes);
            && Visible(s') == PutAll(Visible(s), writes) && BatchState(s') == BatchState(s)
            && s'.currentTx == s.currentTx && s'.panicked == s.panicked
    decreases |writes|
  {
    if writes != [] {
      ChangeIsPut(s, writes[0].0, writes[0].1);
      WritesArePuts(Change(s, writes[0].0, writes[0].1), writes[1..]);
    }
  }

  /** One transaction on an idle state: it ends idle, with its changes merged if it counts
      and without a trace if it does not. */
  lemma ExecuteOne(s: State, job: Job)
    requires Idle(s) && Named(job)
    ensures var (s', err) := Execute(s, job);
            && Idle(s') && s'.committed == s.committed
            && BatchState(s') == (if Counts(job) then PutAll(BatchState(s), job.writes) else BatchState(s))
            && s'.succeeded == s.succeeded + (if Counts(job) then {job.uuid} else {})
            && (!err <==> Counts(job) || (job.prepared && job.ok && job.typ == Query))
  {
    if job.prepared && (job.typ == Deploy || job.typ == Invoke) {
      var begun := TxBegin(s, job.uuid);
      var written := Writes(begun, job.writes);
      IdleSeesBatch(begun);
      if job.writes != [] {
        WritesArePuts(begun, job.writes);
      }
      CommittedStays(begun, job.writes);
      FinishMergesOrDiscards(written, job.uuid, job.ok);
    }
  }

  lemma {:induction false} CommittedStays(s: State, writes: seq<(Key, Option<Value>)>)
    ensures Writes(s, writes).committed == s.committed && Writes(s, writes).succeeded == s.succeeded && (s.panicked ==> Writes(s, writes).panicked)
    decreases |writes|
  {
    if writes != [] {
      CommittedStays(Change(s, writes[0].0, writes[0].1), writes[1..]);
    }
  }

  /** A panic is never taken back. */
  lemma {:induction false} PanicStays(s: State, jobs: seq<Job>)
    requires s.panicked
    ensures ExecuteAll(s, jobs).panicked
    decreases |jobs|
  {
    if jobs != [] {
      CommittedStays(MarkTxBegin(s, jobs[0]), jobs[0].writes);
      PanicStays(Execute(s, jobs[0]).0, jobs[1..]);
    }
  }

  lemma UnnamedPanics(s: State, job: Job)
    requires Idle(s) && !Named(job)
    ensures Execute(s, job).0.panicked
  {
    var begun := MarkTxBegin(s, job);
    assert Change(begun, job.writes[0].0, job.writes[0].1).panicked;
    CommittedStays(Change(begun, job.writes[0].0, job.writes[0].1), job.writes[1..]);
  }

  /** For every batch: the peer panics exactly if something writes that is a query or has
      the empty uuid.  Otherwise every bracket is closed when the batch ends, and the batch state is
      the one before with the changes of exactly the successful transactions applied. */
  lemma {:induction false} BatchIsFoldOfSuccesses(s: State, jobs: seq<Job>)
    requires Idle(s)
    ensures ExecuteAll(s, jobs).panicked <==> exists i :: 0 <= i < |jobs| && !Named(jobs[i])
    ensures !ExecuteAll(s, jobs).panicked ==>
              var s' := ExecuteAll(s, jobs);
              && Idle(s') && s'.committed == s.committed && BatchState(s') == FoldOfSuccesses(BatchState(s), jobs)
              && s'.succeeded == s.succeeded + Successes(jobs)
    decreases |jobs|
  {
    if jobs != [] {
      var rest := jobs[1..];
      assert forall i :: 0 <= i < |rest| ==> rest[i] == jobs[i + 1];
      if Named(jobs[0]) {
        ExecuteOne(s, jobs[0]);
        FirstSuccess(jobs);
        BatchIsFoldOfSuccesses(Execute(s, jobs[0]).0, rest);
        if i :| 0 <= i < |jobs| && !Named(jobs[i]) {
          assert !Named(rest[i - 1]);
        }
      } else {
        UnnamedPanics(s, jobs[0]);
        PanicStays(Execute(s, jobs[0]).0, rest);
      }
    }
  }

  // ---------------------------------------------------------------- the loops

  method RunJob(state: StateObject, job: Job) returns (err: bool)
    modifies state
    ensures (state.View(), err) == Execute(old(state.View()), job)
  {
    if !job.prepared || job.typ == Undefined {
      return true;
    }
    if job.typ != Query {
      state.Begin(job.uuid);
    }
    ghost var begun := state.View();
    var i := 0;
    while i < |job.writes|
      invariant 0 <= i <= |job.writes|
      invariant Writes(state.View(), job.writes[i..]) == Writes(begun, job.writes)
    {
      assert job.writes[i..][1..] == job.writes[i + 1..];
      state.Set(job.writes[i].0, job.writes[i].1);
      i := i + 1;
    }
    if job.typ != Query {
      state.Finish(job.uuid, job.ok);
    }
    err := !job.ok;
  }

  /** `ExecuteTransactions`: an error slot per transaction, and one for the state hash.  A
      panic ends it on the spot. */
  method ExecuteTransactions(state: StateObject, xacts: seq<Job>, hashErr: bool) returns (errs: array<bool>)
    requires Idle(state.View())
    modifies state
    ensures fresh(errs) && errs.Length == |xacts| + 1
    ensures state.panicked <==> exists i :: 0 <= i < |xacts| && !Named(xacts[i])
    ensures !state.panicked ==>
              && errs[|xacts|] == hashErr
              && (forall i :: 0 <= i < |xacts| ==>
                    (!errs[i] <==> Counts(xacts[i]) || (xacts[i].prepared && xacts[i].ok && xacts[i].typ == Query)))
              && Idle(state.View()) && state.View().committed == old(state.View().committed)
              && BatchState(state.View()) == FoldOfSuccesses(old(BatchState(state.View())), xacts)
  {
    errs := new bool[|xacts| + 1];
    var i := 0;
    while i < |xacts|
      invariant 0 <= i <= |xacts| && Idle(state.View()) && state.View().committed == old(state.View().committed)
      invariant FoldOfSuccesses(BatchState(state.View()), xacts[i..]) == FoldOfSuccesses(old(BatchState(state.View())), xacts)
      invariant forall j :: 0 <= j < i ==> Named(xacts[j])
      invariant forall j :: 0 <= j < i ==>
                  (!errs[j] <==> Counts(xacts[j]) || (xacts[j].prepared && xacts[j].ok && xacts[j].typ == Query))
    {
      if Named(xacts[i]) {
        ExecuteOne(state.View(), xacts[i]);
      } else {
        UnnamedPanics(state.View(), xacts[i]);
      }
      assert xacts[i..][1..] == xacts[i + 1..];
      var err := RunJob(state, xacts[i]);
      if state.panicked {
        return;
      }
      errs[i] := err;
      i := i + 1;
    }
    errs[|xacts|] := hashErr;
  }
}
