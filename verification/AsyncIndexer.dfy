/** The asynchronous indexer: a goroutine that indexes committed blocks one by one, a
    watermark it persists with every block, the catch-up a restart performs, and the
    readers that wait for the index to reach the chain.

    The state machine below interleaves all of them freely with commits, write errors
    and crashes.  The database is the replay of its write history, so the history is
    what the state carries. */
module AsyncIndexSpec {
  import opened Common
  import opened Codec
  import opened Blocks
  import opened Indexes

  // ---------------------------------------------------------------- the database

  /** The atomic batch that indexes block n: its entries and the new watermark. */
  function BlockPuts(w: Wire, blocks: seq<Block>, n: nat): seq<Put>
    requires n < |blocks|
  {
    IndexPuts(blocks[n], n, w.HashOf(blocks[n])) + [(LastIndexedBlockKey, Varint(n))]
  }

  /** The index column family after indexing these blocks in this order. */
  function Replay(w: Wire, blocks: seq<Block>, writes: seq<nat>): Index {
    if writes == [] then map[]
    else
      var n, before := writes[|writes| - 1], Replay(w, blocks, writes[..|writes| - 1]);
      if n < |blocks| then ApplyPuts(before, BlockPuts(w, blocks, n)) else before
  }

  /** `fetchLastIndexedBlockNumFromDB` */
  function FetchLastIndexed(index: Index): (bool, nat) {
    match Lookup(index, LastIndexedBlockKey)
    case None => (false, 0)
    case Some(bs) => (true, DecodeBlockNumber(bs))
  }

  // ---------------------------------------------------------------- restarting

  /** The block numbers from `from` to `upto` - 1 whose writes succeed, in order. */
  function Succeeding(from: nat, upto: nat, ok: nat -> bool): seq<nat>
    decreases upto
  {
    if from >= upto then []
    else Succeeding(from, upto - 1, ok) + (if ok(upto - 1) then [upto - 1] else [])
  }

  // What the indexer remembers: has any block been indexed, and the last one.
  datatype Memory = Memory(zeroth: bool, last: nat)

  /** `blockIndexed`, once for every block of the list. */
  function Remember(m: Memory, written: seq<nat>): Memory {
    if written == [] then m else Memory(true, written[|written| - 1])
  }

  function ReadMemory(index: Index): Memory {
    var (zeroth, last) := FetchLastIndexed(index);
    Memory(zeroth, last)
  }

  // ---------------------------------------------------------------- the state machine

  // What the indexing goroutine is doing.
  datatype Work =
    | Idle
    | Holding(n: nat)       // block n received from the channel
    | Written(n: nat)       // its entries are in the database, memory not yet updated
    | CatchingUp(n: nat)    // the process is starting, block n is the next to catch up with

  // A client inside a fetch call; `since` is the chain size when the call began.
  datatype Reader =
    | Checked(since: nat)
    | Waiting(since: nat, target: nat)
    | Cleared(since: nat)
    | Answered(since: nat, seen: seq<nat>)   // read from the database after these writes

  datatype State = State(
    blocks: seq<Block>,          // committed; the size in memory is |blocks|
    writes: seq<nat>,            // the blocks indexed in the database, in write order
    memory: Memory,
    failed: bool,                // err != nil
    offer: Option<nat>,          // the committer, blocked handing this block over
    work: Work,
    readers: map<int, Reader>)

  function Database(w: Wire, s: State): Index {
    Replay(w, s.blocks, s.writes)
  }

  datatype Op =
    | Commit(block: Block)
    | Receive
    | Write(ok: bool)
    | Announce
    | Call(reader: int)
    | StartWait(reader: int)
    | EndWait(reader: int)
    | Fetch(reader: int)
    | Crash
    | CatchUp(ok: bool)     // one round of the loop at start-up; its write may fail

  function ReaderStep(s: State, op: Op): State
    requires op.Call? || op.StartWait? || op.EndWait? || op.Fetch?
  {
    var r := op.reader;
    match op
    case Call(_) =>
      if r in s.readers || s.failed || s.work.CatchingUp? then s else s.(readers := s.readers[r := Checked(|s.blocks|)])
    case StartWait(_) =>
      if !(r in s.readers && s.readers[r].Checked?) then s
      else if s.blocks == [] then s.(readers := s.readers[r := Cleared(s.readers[r].since)])
      else s.(readers := s.readers[r := Waiting(s.readers[r].since, |s.blocks| - 1)])
    case EndWait(_) =>
      if r in s.readers && s.readers[r].Waiting? && s.memory.zeroth && s.readers[r].target <= s.memory.last
      then s.(readers := s.readers[r := Cleared(s.readers[r].since)]) else s
    case Fetch(_) =>
      if r in s.readers && s.readers[r].Cleared?
      then s.(readers := s.readers[r := Answered(s.readers[r].since, s.writes)]) else s
  }

  /** The process starts again: it reads the watermark back and is about to catch up. */
  function Restarted(s: State, m: Memory): State {
    State(s.blocks, s.writes, m, false, None, CatchingUp(m.last + 1), map[])
  }

  /** A step that is not enabled leaves the state as it is. */
  function Step(w: Wire, s: State, op: Op): State {
    match op
    case Commit(b) =>
      if s.offer.Some? || s.work.CatchingUp? then s else s.(blocks := s.blocks + [b], offer := Some(|s.blocks|))
    case Receive =>
      if s.work.Idle? && s.offer.Some? then s.(work := Holding(s.offer.value), offer := None) else s
    case Write(ok) =>
      if !s.work.Holding? then s
      else if s.failed then s.(work := Idle)
      else if !ok then s.(failed := true, work := Idle)
      else s.(writes := s.writes + [s.work.n], work := Written(s.work.n))
    case Announce =>
      if !s.work.Written? then s else s.(memory := Remember(s.memory, [s.work.n]), work := Idle)
    case Crash => Restarted(s, ReadMemory(Database(w, s)))
    case CatchUp(ok) =>
      if !s.work.CatchingUp? then s
      else if s.work.n >= |s.blocks| then s.(work := Idle)
      else if !ok then s.(work := CatchingUp(s.work.n + 1))
      else s.(writes := s.writes + [s.work.n], memory := Remember(s.memory, [s.work.n]), work := CatchingUp(s.work.n + 1))
    case _ => ReaderStep(s, op)
  }

  const Fresh := State([], [], Memory(false, 0), false, None, Idle, map[])

  // ---------------------------------------------------------------- the invariant

  /** Memory says that exactly the first k blocks are indexed. */
  ghost predicate Remembers(m: Memory, k: nat) {
    m == if k == 0 then Memory(false, 0) else Memory(true, k - 1)
  }

  ghost predicate ReaderOk(size: nat, k: nat, r: Reader) {
    match r
    case Checked(since) => since <= size
    case Waiting(since, target) => since <= target + 1
    case Cleared(since) => since <= k
    case Answered(since, seen) => since <= |seen| <= size && seen == UpTo(|seen|)
  }

  /** Exactly the first k blocks are indexed, each once and in order, in the database and
      in memory; without an error the rest of the chain is on its way, in order. */
  ghost predicate Inv(s: State, k: nat) {
    && WellSized(s.blocks) && k <= |s.blocks|
    && s.writes == UpTo(k)
    && (if s.work.Written?
        then k > 0 && s.work.n == k - 1 && !s.failed && Remembers(s.memory, k - 1)
        else Remembers(s.memory, k))
    && (s.offer.Some? ==> s.offer.value == |s.blocks| - 1)
    && (s.work.CatchingUp? ==>
          !s.failed && s.offer.None? && (if s.blocks == [] then s.work.n == 1 else s.work.n == k))
    && (!s.failed && !s.work.CatchingUp? ==>
          && (s.work.Holding? ==> s.work.n == k)
          && |s.blocks| == k + (if s.work.Holding? then 1 else 0) + (if s.offer.Some? then 1 else 0))
    && forall r :: r in s.readers ==> ReaderOk(|s.blocks|, k, s.readers[r])
  }

  // ---------------------------------------------------------------- the database of a prefix

  lemma {:induction false} OverwriteAfterPuts(m: Index, puts: seq<Put>, key: Bytes, v: Bytes, v': Bytes)
    ensures ApplyPuts(m[key := v], puts)[key := v'] == ApplyPuts(m, puts)[key := v']
    decreases |puts|
  {
    if puts != [] {
      var (pk, pv) := puts[|puts| - 1];
      OverwriteAfterPuts(m, puts[..|puts| - 1], key, v, v');
      var a: Index, b: Index := ApplyPuts(m[key := v], puts[..|puts| - 1]), ApplyPuts(m, puts[..|puts| - 1]);
      assert a[key := v'] == b[key := v'];
      assert a[pk := pv][key := v'] == a[key := v'][pk := pv][key := v'];
      assert b[pk := pv][key := v'] == b[key := v'][pk := pv][key := v'];
    }
  }

  /** Indexing the first k blocks leaves the synchronous index of those blocks, plus the
      watermark. */
  lemma {:induction false} ReplayOfPrefix(w: Wire, blocks: seq<Block>, k: nat)
    requires k <= |blocks|
    ensures Replay(w, blocks, UpTo(k))
         == if k == 0 then map[] else IndexOfFirst(w, blocks, k)[LastIndexedBlockKey := Varint(k - 1)]
    decreases k
  {
    if k > 0 {
      var n := k - 1;
      ReplayOfPrefix(w, blocks, n);
      assert UpTo(k)[..n] == UpTo(n);
      var puts, all := IndexPuts(blocks[n], n, w.HashOf(blocks[n])), BlockPuts(w, blocks, n);
      assert all[..|all| - 1] == puts && all[|all| - 1] == (LastIndexedBlockKey, Varint(n));
      if n > 0 {
        OverwriteAfterPuts(IndexOfFirst(w, blocks, n), puts, LastIndexedBlockKey, Varint(n - 1), Varint(n));
      }
    }
  }

  lemma WatermarkReadBack(w: Wire, blocks: seq<Block>, k: nat)
    requires WellSized(blocks) && k <= |blocks|
    ensures Remembers(ReadMemory(Replay(w, blocks, UpTo(k))), k)
  {
    ReplayOfPrefix(w, blocks, k);
    if k > 0 {
      BlockNumberRoundTrip(k - 1);
    }
  }

  lemma ReplayLookup(w: Wire, blocks: seq<Block>, k: nat, key: Bytes)
    requires k <= |blocks| && key != [] && key[0] != 0
    ensures Lookup(Replay(w, blocks, UpTo(k)), key) == Lookup(IndexOfFirst(w, blocks, k), key)
  {
    ReplayOfPrefix(w, blocks, k);
    assert LastIndexedBlockKey[0] == 0;
  }

  /** A database holding the first k blocks answers as a scan of those blocks would. */
  lemma ReplayAnswersAsScan(w: Wire, blocks: seq<Block>, k: nat, uuid: Bytes, h: Bytes)
    requires WellSized(blocks) && k <= |blocks|
    ensures FetchTransactionIndexByUUID(Replay(w, blocks, UpTo(k)), uuid)
         == match LastTx(blocks[..k], uuid) case Some(p) => Found(p) case None => ResourceNotFound
    ensures FetchBlockNumberByBlockHash(Replay(w, blocks, UpTo(k)), h)
         == match LastWithHash(w, blocks[..k], h) case Some(n) => n case None => 0
  {
    ReplayLookup(w, blocks, k, TxUUIDKey(uuid));
    ReplayLookup(w, blocks, k, BlockHashKey(h));
    FetchByUUIDIsLastTx(w, blocks, k, uuid);
    FetchByHashIsLastOrZero(w, blocks, k, h);
  }

  // ---------------------------------------------------------------- catch-up, exactly

  lemma {:induction false} SucceedingIs(from: nat, upto: nat, ok: nat -> bool, n: nat)
    ensures n in Succeeding(from, upto, ok) <==> from <= n < upto && ok(n)
    decreases upto
  {
    if from < upto {
      SucceedingIs(from, upto - 1, ok, n);
    }
  }

  lemma {:induction false} AllSucceed(k: nat, upto: nat, ok: nat -> bool)
    requires k <= upto && forall n: nat :: k <= n < upto ==> ok(n)
    ensures UpTo(k) + Succeeding(k, upto, ok) == UpTo(upto)
    ensures k < upto ==> Succeeding(k, upto, ok) != [] && Succeeding(k, upto, ok)[|Succeeding(k, upto, ok)| - 1] == upto - 1
    decreases upto
  {
    if k < upto {
      AllSucceed(k, upto - 1, ok);
      assert UpTo(upto) == UpTo(upto - 1) + [upto - 1];
    }
  }

  /** When a restart repairs the index: nothing was committed, or block 0 had been
      indexed before the crash and no catch-up write fails. */
  ghost predicate CanCatchUp(size: nat, k: nat, ok: nat -> bool) {
    size == 0 || (k > 0 && forall n: nat :: k <= n < size ==> ok(n))
  }

  /** The catch-up carried to its end, with these outcomes of its writes. */
  function CaughtUp(w: Wire, s: State, ok: nat -> bool): State
    decreases if s.work.CatchingUp? && s.work.n < |s.blocks| then |s.blocks| - s.work.n else 0, s.work.CatchingUp?
  {
    if !s.work.CatchingUp? then s else CaughtUp(w, Step(w, s, CatchUp(ok(s.work.n))), ok)
  }

  lemma {:induction false} SucceedingFirst(from: nat, upto: nat, ok: nat -> bool)
    requires from < upto
    ensures Succeeding(from, upto, ok) == (if ok(from) then [from] else []) + Succeeding(from + 1, upto, ok)
    decreases upto
  {
    var first := if ok(from) then [from] else [];
    if from + 1 < upto {
      SucceedingFirst(from, upto - 1, ok);
      var last := if ok(upto - 1) then [upto - 1] else [];
      assert first + Succeeding(from + 1, upto - 1, ok) + last == first + (Succeeding(from + 1, upto - 1, ok) + last);
    } else {
      assert Succeeding(from, from, ok) == [] && Succeeding(upto, upto, ok) == [];
    }
  }

  /** The state when these blocks have been caught up with and no more are to be. */
  function Done(s: State, written: seq<nat>): State {
    s.(writes := s.writes + written, memory := Remember(s.memory, written), work := Idle)
  }

  lemma DoneFirst(s: State, n: nat, ok: bool, rest: seq<nat>)
    requires s.work == CatchingUp(n) && n < |s.blocks|
    ensures var next := if ok then s.(writes := s.writes + [n], memory := Remember(s.memory, [n]), work := CatchingUp(n + 1))
                        else s.(work := CatchingUp(n + 1));
            Done(next, rest) == Done(s, (if ok then [n] else []) + rest)
  {
    if ok {
      assert s.writes + [n] + rest == s.writes + ([n] + rest);
    } else {
      assert [] + rest == rest;
    }
  }

  /** It writes the blocks above the last one it knows of, going on after a failed write. */
  lemma {:induction false} CaughtUpIs(w: Wire, s: State, ok: nat -> bool)
    requires s.work.CatchingUp?
    ensures CaughtUp(w, s, ok) == Done(s, Succeeding(s.work.n, |s.blocks|, ok))
    decreases if s.work.n < |s.blocks| then |s.blocks| - s.work.n else 0
  {
    var n := s.work.n;
    var next := Step(w, s, CatchUp(ok(n)));
    if n < |s.blocks| {
      CaughtUpIs(w, next, ok);
      SucceedingFirst(n, |s.blocks|, ok);
      DoneFirst(s, n, ok(n), Succeeding(n + 1, |s.blocks|, ok));
    } else {
      assert CaughtUp(w, next, ok) == next;
      assert s.writes + [] == s.writes;
    }
  }

  /** The writes and the memory that a start leaves which reads the memory m back. */
  ghost predicate StartLeaves(w: Wire, blocks: seq<Block>, writes: seq<nat>, m: Memory, ok: nat -> bool,
                              writes': seq<nat>, m': Memory)
  {
    var s := CaughtUp(w, Restarted(Fresh.(blocks := blocks, writes := writes), m), ok);
    s.writes == writes' && s.memory == m'
  }

  lemma StartIs(w: Wire, blocks: seq<Block>, writes: seq<nat>, m: Memory, ok: nat -> bool, writes': seq<nat>, m': Memory)
    requires var done := Succeeding(m.last + 1, |blocks|, ok); writes' == writes + done && m' == Remember(m, done)
    ensures StartLeaves(w, blocks, writes, m, ok, writes', m')
  {
    CaughtUpIs(w, Restarted(Fresh.(blocks := blocks, writes := writes), m), ok);
  }

  /** Exactly then: after a crash with the first k blocks indexed, a catch-up that is not
      itself interrupted has the whole chain indexed, in order, if and only if `CanCatchUp`. */
  lemma RestartIndexesAllIff(w: Wire, s: State, k: nat, ok: nat -> bool)
    requires WellSized(s.blocks) && k <= |s.blocks| && s.writes == UpTo(k)
    ensures var s' := CaughtUp(w, Step(w, s, Crash), ok);
            && (s'.writes == UpTo(|s.blocks|) <==> CanCatchUp(|s.blocks|, k, ok))
            && (CanCatchUp(|s.blocks|, k, ok) ==> Remembers(s'.memory, |s.blocks|))
  {
    WatermarkReadBack(w, s.blocks, k);
    var m, size := ReadMemory(Database(w, s)), |s.blocks|;
    assert Remembers(m, k);
    CaughtUpIs(w, Step(w, s, Crash), ok);
    if size > 0 && k == 0 {
      SucceedingIs(1, size, ok, 0);
      assert UpTo(size)[0] == 0;
    } else if k > 0 && !CanCatchUp(size, k, ok) {
      var n: nat :| k <= n < size && !ok(n);
      SucceedingIs(k, size, ok, n);
      assert UpTo(size)[n] == n && n !in UpTo(k);
    } else if k > 0 {
      AllSucceed(k, size, ok);
    }
  }

  // ---------------------------------------------------------------- every run

  /** What a run must grant the code: blocks fit their counters, a crash comes when nothing is
      committed or a watermark is stored, and catch-up writes succeed. */
  ghost predicate Allowed(w: Wire, s: State, op: Op) {
    && (op.Commit? ==> |op.block.transactions| < TWO64 && |s.blocks| + 1 < TWO64)
    && (op.Crash? ==> s.blocks == [] || LastIndexedBlockKey in Database(w, s))
    && (op.CatchUp? ==> op.ok)
  }

  lemma ReaderStepKeeps(s: State, k: nat, op: Op)
    requires Inv(s, k)
    requires op.Call? || op.StartWait? || op.EndWait? || op.Fetch?
    ensures Inv(ReaderStep(s, op), k)
  {
    assert op.reader in s.readers ==> ReaderOk(|s.blocks|, k, s.readers[op.reader]);
  }

  /** A crash, be it in the middle of a catch-up, loses nothing that was indexed. */
  lemma CrashKeeps(w: Wire, s: State, k: nat)
    requires Inv(s, k) && Allowed(w, s, Crash)
    ensures Inv(Step(w, s, Crash), k)
  {
    ReplayOfPrefix(w, s.blocks, k);
    WatermarkReadBack(w, s.blocks, k);
  }

  lemma StepKeepsPrefix(w: Wire, s: State, k: nat, op: Op) returns (k': nat)
    requires Inv(s, k) && Allowed(w, s, op)
    ensures Inv(Step(w, s, op), k')
  {
    k' := k;
    match op
    case Commit(b) =>
    case Receive =>
    case Write(ok) =>
      if s.work.Holding? && !s.failed && ok {
        k' := k + 1;
        assert UpTo(k) + [k] == UpTo(k + 1);
      }
    case Announce =>
    case Crash => CrashKeeps(w, s, k);
    case CatchUp(ok) =>
      if s.work.CatchingUp? && s.work.n < |s.blocks| {
        k' := k + 1;
        assert UpTo(k) + [k] == UpTo(k + 1);
      }
    case _ =>
      ReaderStepKeeps(s, k, op);
  }

  /** A run: the states it passes through and the steps between them. */
  ghost predicate IsRun(w: Wire, states: seq<State>, ops: seq<Op>) {
    && |states| == |ops| + 1 && states[0] == Fresh
    && forall i :: 0 <= i < |ops| ==>
         Allowed(w, states[i], ops[i]) && states[i + 1] == Step(w, states[i], ops[i])
  }

  /** In every state of every run the indexed blocks are a prefix of the chain, and the
      database, the watermark and memory all agree on which. */
  lemma {:induction false} IndexIsAlwaysAPrefix(w: Wire, states: seq<State>, ops: seq<Op>, i: nat) returns (k: nat)
    requires IsRun(w, states, ops) && i < |states|
    ensures Inv(states[i], k)
    ensures Remembers(ReadMemory(Database(w, states[i])), k)
    decreases i
  {
    if i == 0 {
      k := 0;
    } else {
      k := IndexIsAlwaysAPrefix(w, states, ops, i - 1);
      k := StepKeepsPrefix(w, states[i - 1], k, ops[i - 1]);
    }
    WatermarkReadBack(w, states[i].blocks, k);
  }

  /** Fresh reads: a fetch that returned answers as a scan of some prefix of the chain
      would, and that prefix includes every block committed before the call began. */
  lemma FreshRead(w: Wire, states: seq<State>, ops: seq<Op>, i: nat, r: int, uuid: Bytes, h: Bytes) returns (m: nat)
    requires IsRun(w, states, ops) && i < |states|
    requires r in states[i].readers && states[i].readers[r].Answered?
    ensures var blocks, Answered(since, seen) := states[i].blocks, states[i].readers[r];
            && since <= m <= |blocks|
            && FetchTransactionIndexByUUID(Replay(w, blocks, seen), uuid)
               == (match LastTx(blocks[..m], uuid) case Some(p) => Found(p) case None => ResourceNotFound)
            && FetchBlockNumberByBlockHash(Replay(w, blocks, seen), h)
               == (match LastWithHash(w, blocks[..m], h) case Some(n) => n case None => 0)
  {
    var k := IndexIsAlwaysAPrefix(w, states, ops, i);
    assert ReaderOk(|states[i].blocks|, k, states[i].readers[r]);
    m := |states[i].readers[r].seen|;
    ReplayAnswersAsScan(w, states[i].blocks, m, uuid, h);
  }

  // ---------------------------------------------------------------- readers get through

  /** A run of allowed steps from one state to another. */
  ghost predicate Goes(w: Wire, s: State, ops: seq<Op>, s': State)
    decreases |ops|
  {
    if ops == [] then s' == s else Allowed(w, s, ops[0]) && Goes(w, Step(w, s, ops[0]), ops[1..], s')
  }

  lemma GoFirst(w: Wire, s: State, op: Op, ops: seq<Op>, s': State)
    requires Allowed(w, s, op) && Goes(w, Step(w, s, op), ops, s')
    ensures Goes(w, s, [op] + ops, s')
  {
    assert ([op] + ops)[1..] == ops;
  }

  lemma {:induction false} GoOn(w: Wire, s: State, ops: seq<Op>, mid: State, more: seq<Op>, s': State)
    requires Goes(w, s, ops, mid) && Goes(w, mid, more, s')
    ensures Goes(w, s, ops + more, s')
    decreases |ops|
  {
    if ops == [] {
      assert ops + more == more;
    } else {
      assert (ops + more)[1..] == ops[1..] + more;
      GoOn(w, Step(w, s, ops[0]), ops[1..], mid, more, s');
    }
  }

  /** A reader that waits for a block goes on to its answer as soon as the block is indexed
      and announced. */
  lemma WaitingReaderGoesOn(w: Wire, s: State, k: nat, r: int)
    requires Inv(s, k) && r in s.readers && s.readers[r].Waiting?
    requires s.readers[r].target < (if s.work.Written? then k - 1 else k)
    ensures var s' := Step(w, Step(w, s, EndWait(r)), Fetch(r));
            s' == s.(readers := s.readers[r := Answered(s.readers[r].since, s.writes)])
  {
    var s1 := Step(w, s, EndWait(r));
    assert s1 == s.(readers := s.readers[r := Cleared(s.readers[r].since)]);
  }

  /** The steps by which a healthy indexer indexes the block it holds. */
  lemma FinishBlock(w: Wire, s: State, k: nat) returns (ops: seq<Op>, s': State)
    requires Inv(s, k) && !s.failed && s.work.Holding?
    ensures Goes(w, s, ops, s') && Inv(s', k + 1)
    ensures s' == s.(writes := s.writes + [k], memory := Memory(true, k), work := Idle)
  {
    var s1 := Step(w, s, Write(true));
    var k1 := StepKeepsPrefix(w, s, k, Write(true));
    s' := Step(w, s1, Announce);
    var k2 := StepKeepsPrefix(w, s1, k1, Announce);
    assert |s'.writes| == k + 1 == k2;
    GoFirst(w, s1, Announce, [], s');
    GoFirst(w, s, Write(true), [Announce] + [], s');
    ops := [Write(true)] + ([Announce] + []);
  }

  /** Whatever it was doing, it can come to rest with the whole chain indexed. */
  lemma IndexSettles(w: Wire, s: State, k: nat) returns (ops: seq<Op>, s': State)
    requires Inv(s, k) && !s.failed && !s.work.CatchingUp?
    ensures Goes(w, s, ops, s') && Inv(s', |s.blocks|) && s'.blocks == s.blocks && s'.readers == s.readers
    ensures s'.work == Idle && s'.offer == None && !s'.failed
  {
    var ops1, s1, k1 := BecomesIdle(w, s, k);
    if s1.offer.None? {
      ops, s' := ops1, s1;
    } else {
      var s2 := Step(w, s1, Receive);
      var k2 := StepKeepsPrefix(w, s1, k1, Receive);
      assert k2 == |s2.writes|;
      var ops3;
      ops3, s' := FinishBlock(w, s2, k2);
      GoFirst(w, s1, Receive, ops3, s');
      GoOn(w, s, ops1, s1, [Receive] + ops3, s');
      ops := ops1 + ([Receive] + ops3);
    }
  }

  lemma BecomesIdle(w: Wire, s: State, k: nat) returns (ops: seq<Op>, s': State, k': nat)
    requires Inv(s, k) && !s.failed && !s.work.CatchingUp?
    ensures Goes(w, s, ops, s') && Inv(s', k') && s'.work == Idle && !s'.failed
    ensures s'.blocks == s.blocks && s'.readers == s.readers && s'.offer == s.offer
  {
    if s.work.Idle? {
      ops, s', k' := [], s, k;
    } else if s.work.Written? {
      s' := Step(w, s, Announce);
      k' := StepKeepsPrefix(w, s, k, Announce);
      GoFirst(w, s, Announce, [], s');
      ops := [Announce] + [];
    } else {
      ops, s' := FinishBlock(w, s, k);
      k' := k + 1;
    }
  }

  lemma SettledAnswers(w: Wire, s: State, r: int) returns (ops: seq<Op>, s': State)
    requires Inv(s, |s.blocks|) && s.work == Idle && !s.failed && r !in s.readers
    ensures Goes(w, s, ops, s') && r in s'.readers && s'.readers[r] == Answered(|s.blocks|, UpTo(|s.blocks|))
  {
    var n := |s.blocks|;
    var s1 := Step(w, s, Call(r));
    assert s1 == s.(readers := s.readers[r := Checked(n)]);
    var s2 := Step(w, s1, StartWait(r));
    if n == 0 {
      s' := Step(w, s2, Fetch(r));
      GoFirst(w, s2, Fetch(r), [], s');
      ops := [Fetch(r)] + [];
    } else {
      assert s2 == s.(readers := s.readers[r := Waiting(n, n - 1)]);
      var k1 := StepKeepsPrefix(w, s, n, Call(r));
      var k2 := StepKeepsPrefix(w, s1, k1, StartWait(r));
      assert k2 == |s.writes| == n;
      WaitingReaderGoesOn(w, s2, n, r);
      s' := Step(w, Step(w, s2, EndWait(r)), Fetch(r));
      GoFirst(w, Step(w, s2, EndWait(r)), Fetch(r), [], s');
      GoFirst(w, s2, EndWait(r), [Fetch(r)] + [], s');
      ops := [EndWait(r)] + ([Fetch(r)] + []);
    }
    GoFirst(w, s1, StartWait(r), ops, s');
    GoFirst(w, s, Call(r), [StartWait(r)] + ops, s');
    ops := [Call(r)] + ([StartWait(r)] + ops);
  }

  /** In every state without an error, once start-up is over, a call can be answered, from an
      index that has every block of the chain. */
  lemma EveryCallCanBeAnswered(w: Wire, s: State, k: nat, r: int) returns (ops: seq<Op>, s': State)
    requires Inv(s, k) && !s.failed && !s.work.CatchingUp? && r !in s.readers
    ensures Goes(w, s, ops, s') && r in s'.readers && s'.readers[r] == Answered(|s.blocks|, UpTo(|s.blocks|))
  {
    var ops1, s1 := IndexSettles(w, s, k);
    var ops2;
    ops2, s' := SettledAnswers(w, s1, r);
    GoOn(w, s, ops1, s1, ops2, s');
    ops := ops1 + ops2;
  }

  /** After an error a call is refused at once. */
  lemma FailedIndexRefuses(w: Wire, s: State, r: int)
    requires s.failed
    ensures Step(w, s, Call(r)) == s
  {
  }

  lemma FailedStays(w: Wire, s: State, op: Op)
    requires s.failed && !s.work.CatchingUp? && !op.Crash?
    ensures var s' := Step(w, s, op); s'.failed && !s'.work.CatchingUp? && s'.writes == s.writes
  {
  }

  lemma {:induction false} FailedStaysSo(w: Wire, states: seq<State>, ops: seq<Op>, i: nat, j: nat)
    requires IsRun(w, states, ops) && i <= j < |states| && states[i].failed && !states[i].work.CatchingUp?
    requires forall t :: i <= t < j ==> !ops[t].Crash?
    ensures states[j].failed && !states[j].work.CatchingUp? && states[j].writes == states[i].writes
    decreases j
  {
    if i < j {
      FailedStaysSo(w, states, ops, i, j - 1);
      FailedStays(w, states[j - 1], ops[j - 1]);
    }
  }

  /** After an indexing error nothing more is indexed until the process restarts. */
  lemma ErrorFreezesIndex(w: Wire, states: seq<State>, ops: seq<Op>, i: nat, j: nat)
    requires IsRun(w, states, ops) && i <= j < |states| && states[i].failed
    requires forall t :: i <= t < j ==> !ops[t].Crash?
    ensures states[j].failed && states[j].writes == states[i].writes
  {
    var k := IndexIsAlwaysAPrefix(w, states, ops, i);
    FailedStaysSo(w, states, ops, i, j);
  }

  /** Without that grant the prefix property fails: a crash between the commit and the
      indexing of block 0 leaves block 0 out for good, while block 1 gets indexed. */
  lemma CrashBeforeBlockZeroLosesIt(w: Wire, b0: Block, b1: Block, ok: bool)
    ensures var s1 := Step(w, Fresh, Commit(b0));
            var s2 := Step(w, Step(w, s1, Crash), CatchUp(ok));
            var s5 := Step(w, Step(w, Step(w, s2, Commit(b1)), Receive), Write(true));
            && !Allowed(w, s1, Crash)
            && s2.work == Idle && s2.writes == [] && s5.writes == [1] && s5.blocks == [b0, b1]
  {
    var s1 := Step(w, Fresh, Commit(b0));
    assert s1.blocks == [b0];
    assert ReadMemory(Database(w, s1)) == Memory(false, 0);
    var s2 := Step(w, Step(w, s1, Crash), CatchUp(ok));
    assert s2 == State([b0], [], Memory(false, 0), false, None, Idle, map[]);
    var s3 := Step(w, s2, Commit(b1));
    assert s3.blocks == [b0, b1] && s3.offer == Some(1);
  }
}

module AsyncIndexObject {
  import opened Common
  import opened Codec
  import opened Blocks
  import opened Indexes
  import opened AsyncIndexSpec

  /** The indexer's mutable side: the database handle and the indexer state. */
  class Indexer {
    const w: Wire
    const blocks: seq<Block>
    var index: Index
    var zerothBlockIndexed: bool
    var lastBlockIndexed: nat
    ghost var writes: seq<nat>

    ghost predicate Valid()
      reads this
    {
      WellSized(blocks) && index == Replay(w, blocks, writes)
    }

    ghost function Remembered(): Memory
      reads this
    {
      Memory(zerothBlockIndexed, lastBlockIndexed)
    }

    constructor (w: Wire, blocks: seq<Block>, index: Index, ghost writes: seq<nat>)
      requires WellSized(blocks) && index == Replay(w, blocks, writes)
      ensures Valid() && this.w == w && this.blocks == blocks && this.writes == writes
      ensures Remembered() == ReadMemory(index)
    {
      this.w := w;
      this.blocks := blocks;
      this.index := index;
      this.writes := writes;
      var (zeroth, last) := FetchLastIndexed(index);
      this.zerothBlockIndexed := zeroth;
      this.lastBlockIndexed := last;
    }

    method BlockIndexed(n: nat)
      modifies this`zerothBlockIndexed, this`lastBlockIndexed
      ensures Remembered() == Remember(old(Remembered()), [n])
    {
      lastBlockIndexed := n;
      zerothBlockIndexed := true;
    }

    /** `writeFails` is the outcome of the one database write. */
    method CreateIndexesInternal(n: nat, writeFails: bool) returns (ok: bool)
      requires Valid() && n < |blocks|
      modifies this
      ensures Valid() && ok == !writeFails
      ensures ok ==> writes == old(writes) + [n] && Remembered() == Remember(old(Remembered()), [n])
      ensures !ok ==> writes == old(writes) && Remembered() == old(Remembered())
    {
      var batch := AddIndexDataForPersistence(blocks[n], n, w.HashOf(blocks[n]), []);
      batch := batch + [(LastIndexedBlockKey, Varint(n))];
      assert batch == BlockPuts(w, blocks, n);
      if writeFails {
        return false;
      }
      index := ApplyPuts(index, batch);
      writes := writes + [n];
      assert writes[..|writes| - 1] == old(writes);
      BlockIndexed(n);
      return true;
    }

    /** Since some earlier moment the blocks from `from` to `next` - 1 were attempted. */
    ghost predicate Attempted(writes0: seq<nat>, memory0: Memory, from: nat, next: nat, ok: nat -> bool)
      reads this
    {
      var done := Succeeding(from, next, ok);
      writes == writes0 + done && Remembered() == Remember(memory0, done)
    }

    /** One round of the catch-up loop, which ignores the outcome of the write. */
    method Attempt(n: nat, ok: nat -> bool, ghost writes0: seq<nat>, ghost memory0: Memory, ghost from: nat)
      requires Valid() && from <= n < |blocks| && Attempted(writes0, memory0, from, n, ok)
      modifies this
      ensures Valid() && Attempted(writes0, memory0, from, n + 1, ok)
    {
      ghost var done := Succeeding(from, n, ok);
      var wrote := CreateIndexesInternal(n, !ok(n));
      if wrote {
        assert Succeeding(from, n + 1, ok) == done + [n];
        assert writes0 + done + [n] == writes0 + (done + [n]);
      }
    }

    method IndexPendingBlocks(ok: nat -> bool)
      requires Valid()
      modifies this
      ensures Valid()
      ensures Attempted(old(writes), old(Remembered()), old(lastBlockIndexed) + 1, |blocks|, ok)
    {
      var lastIndexed := lastBlockIndexed;
      ghost var from := lastIndexed + 1;
      if |blocks| == 0 {
        assert Succeeding(from, |blocks|, ok) == [];
        return;
      }
      var lastCommitted := |blocks| - 1;
      if lastCommitted == lastIndexed {
        assert Succeeding(from, |blocks|, ok) == [];
        return;
      }
      assert Succeeding(from, from, ok) == [];
      while lastIndexed < lastCommitted
        invariant Valid() && from <= lastIndexed + 1
        invariant lastIndexed <= lastCommitted || lastIndexed + 1 == from
        invariant Attempted(old(writes), old(Remembered()), from, lastIndexed + 1, ok)
      {
        Attempt(lastIndexed + 1, ok, old(writes), old(Remembered()), from);
        lastIndexed := lastIndexed + 1;
      }
    }

    /** `start`: the memory is read back and the pending blocks indexed, as a crash and the
        catch-up steps after it do. */
    static method Start(w: Wire, blocks: seq<Block>, index: Index, ghost writes: seq<nat>, ok: nat -> bool)
      returns (indexer: Indexer)
      requires WellSized(blocks) && index == Replay(w, blocks, writes)
      ensures fresh(indexer) && indexer.Valid()
      ensures StartLeaves(w, blocks, writes, ReadMemory(index), ok, indexer.writes, indexer.Remembered())
    {
      indexer := new Indexer(w, blocks, index, writes);
      ghost var m := ReadMemory(index);
      assert indexer.lastBlockIndexed == m.last;
      indexer.IndexPendingBlocks(ok);
      StartIs(w, blocks, writes, m, ok, indexer.writes, indexer.Remembered());
    }
  }
}
