/** The ledger with its synchronous indexer: transaction batches, the hash-linked chain,
    its index and the committed world state, all in one database written by atomic
    batches.

    The first half is the specification: a value for the whole ledger, a step for every
    operation (with the faults the environment can inject) and the invariant that every
    run keeps.  The second half is the class, whose methods are proved to take exactly
    those steps. */
module LedgerSpec {
  import opened Common
  import opened Codec
  import opened Blocks
  import opened Indexes
  import T = StateTypes

  /** A batch's changes committed; forwards it does not matter to which data structure. */
  function ApplyDelta(m: T.KVs, d: T.Delta): T.KVs {
    T.Committed(T.BucketTree, m, d, false)
  }

  // The column families the model needs.
  datatype Disk = Disk(chain: map<Bytes, Bytes>, index: Index, state: T.KVs)

  datatype Processed = Processed(block: Block, number: Uint64, hash: Bytes)

  datatype Ledger = Ledger(
    disk: Disk,
    size: Uint64,
    previousBlockHash: Bytes,
    lastProcessed: Option<Processed>,
    currentID: Option<int>,
    delta: T.Delta)

  // What can go wrong inside CommitTxBatch.
  datatype Fault = NoFault | StateHashFails | WriteFails

  datatype BatchInput = BatchInput(
    transactions: seq<Transaction>,
    results: seq<Bytes>,
    metadata: Bytes,
    now: int)

  // ---------------------------------------------------------------- reading the disk

  function FetchBlock(w: Wire, chain: map<Bytes, Bytes>, n: Uint64): Option<Block> {
    var key := EncodeUint64(n);
    if key in chain then w.unmarshal(chain[key]) else None
  }

  function FetchSize(chain: map<Bytes, Bytes>): nat {
    if BlockCountKey in chain then DecodeBigEndian(chain[BlockCountKey]) else 0
  }

  // ---------------------------------------------------------------- steps

  /** `buildBlock` on a fresh block. */
  function BuildBlock(w: Wire, s: Ledger, b: BatchInput): Block {
    NewBlock(b.transactions, b.metadata)
    .(previousBlockHash := s.previousBlockHash,
      stateHash := w.stateDigest(ApplyDelta(s.disk.state, s.delta)))
  }

  function CommittedBlock(w: Wire, s: Ledger, b: BatchInput): Block {
    BuildBlock(w, s, b).(nonHashData := Some(NonHashData(b.now, b.results)))
  }

  function Reset(s: Ledger): Ledger {
    s.(currentID := None, delta := map[])
  }

  function BeginTxBatch(s: Ledger, id: Option<int>): (Ledger, bool) {
    if s.currentID.Some? then (s, false) else (s.(currentID := id), true)
  }

  function RollbackTxBatch(s: Ledger, id: Option<int>): (Ledger, bool) {
    if s.currentID != id then (s, false) else (Reset(s), true)
  }

  function WriteBlock(disk: Disk, b: Block, n: Uint64, hash: Bytes, bytes: Bytes, delta: T.Delta): Disk {
    Disk(disk.chain[EncodeUint64(n) := bytes][BlockCountKey := EncodeUint64(Inc(n))],
         ApplyPuts(disk.index, IndexPuts(b, n, hash)),
         ApplyDelta(disk.state, delta))
  }

  function CommitTxBatch(w: Wire, s: Ledger, id: Option<int>, b: BatchInput, fault: Fault): (Ledger, bool) {
    if s.currentID != id then (s, false)
    else if fault.StateHashFails? then (Reset(s).(lastProcessed := None), false)
    else
      var block := CommittedBlock(w, s, b);
      match w.GetHash(block)
      case None => (Reset(s).(lastProcessed := None), false)
      case Some(hash) =>
        if fault.WriteFails? then (Reset(s).(lastProcessed := None), false)
        else (Reset(s).(lastProcessed := None,
                        disk := WriteBlock(s.disk, block, s.size, hash, w.marshal(block), s.delta),
                        size := Inc(s.size),
                        previousBlockHash := hash), true)
  }

  /** What `newBlockchain` rebuilds from the disk after a crash. */
  function Restart(w: Wire, disk: Disk): Option<Ledger> {
    var size := FetchSize(disk.chain);
    if size >= TWO64 then None
    else if size == 0 then Some(Ledger(disk, 0, [], None, None, map[]))
    else
      match FetchBlock(w, disk.chain, size - 1)
      case None => None
      case Some(b) =>
        match w.GetHash(b)
        case None => None
        case Some(h) => Some(Ledger(disk, size, h, None, None, map[]))
  }

  const EmptyDisk := Disk(map[], map[], map[])

  // ---------------------------------------------------------------- runs

  datatype Op =
    | Begin(id: Option<int>)
    | Execute(delta: T.Delta)      // the transactions of the batch leave this delta behind
    | Commit(id: Option<int>, input: BatchInput, fault: Fault)
    | Rollback(id: Option<int>)
    | Crash                      // memory is lost, the process starts again on the disk

  ghost predicate OpOk(op: Op) {
    op.Commit? ==> |op.input.transactions| < TWO64
  }

  function Step(w: Wire, s: Ledger, op: Op): Option<Ledger> {
    match op
    case Begin(id) => Some(BeginTxBatch(s, id).0)
    case Execute(d) => Some(s.(delta := d))
    case Commit(id, b, fault) => Some(CommitTxBatch(w, s, id, b, fault).0)
    case Rollback(id) => Some(RollbackTxBatch(s, id).0)
    case Crash => Restart(w, s.disk)
  }

  function Run(w: Wire, ops: seq<Op>): Option<Ledger> {
    if ops == [] then Restart(w, EmptyDisk)
    else
      match Run(w, ops[..|ops| - 1])
      case None => None
      case Some(s) => Step(w, s, ops[|ops| - 1])
  }

  // ---------------------------------------------------------------- the invariant

  ghost predicate ChainOnDisk(w: Wire, chain: map<Bytes, Bytes>, blocks: seq<Block>)
    requires |blocks| < TWO64
  {
    && (forall i :: 0 <= i < |blocks| ==>
          EncodeUint64(i) in chain && chain[EncodeUint64(i)] == w.marshal(blocks[i]))
    && (if blocks == [] then BlockCountKey !in chain
        else BlockCountKey in chain && chain[BlockCountKey] == EncodeUint64(|blocks|))
  }

  function FoldDeltas(deltas: seq<T.Delta>): T.KVs {
    if deltas == [] then map[]
    else ApplyDelta(FoldDeltas(deltas[..|deltas| - 1]), deltas[|deltas| - 1])
  }

  /** Every block carries the digest of the world state its delta leads to. */
  ghost predicate StateHashesRight(w: Wire, blocks: seq<Block>, deltas: seq<T.Delta>) {
    && |deltas| == |blocks|
    && forall i :: 0 <= i < |blocks| ==>
         blocks[i].stateHash == w.stateDigest(FoldDeltas(deltas[..i + 1]))
  }

  /** The disk holds exactly this chain: every block linked to the one before, the index
      the blocks build, and the world state their deltas add up to. */
  ghost predicate DiskHolds(w: Wire, disk: Disk, blocks: seq<Block>, deltas: seq<T.Delta>) {
    && WellSized(blocks)
    && ChainOnDisk(w, disk.chain, blocks)
    && Linked(w, blocks)
    && disk.index == BuildIndex(w, blocks)
    && disk.state == FoldDeltas(deltas)
    && StateHashesRight(w, blocks, deltas)
  }

  /** Memory agrees with the disk, and no half-processed block is left behind. */
  ghost predicate Inv(w: Wire, s: Ledger, blocks: seq<Block>, deltas: seq<T.Delta>) {
    && DiskHolds(w, s.disk, blocks, deltas)
    && s.size == |blocks|
    && s.previousBlockHash == LastHash(w, blocks)
    && s.lastProcessed == None
  }

  lemma FetchBlockOnDisk(w: Wire, chain: map<Bytes, Bytes>, blocks: seq<Block>, n: Uint64)
    requires w.Lawful() && |blocks| < TWO64 && ChainOnDisk(w, chain, blocks)
    requires n < |blocks|
    ensures FetchBlock(w, chain, n) == Some(blocks[n])
  {
    assert w.unmarshal(w.marshal(blocks[n])) == Some(blocks[n]);
  }

  lemma WriteBlockExtends(w: Wire, chain: map<Bytes, Bytes>, blocks: seq<Block>, b: Block)
    requires |blocks| + 1 < TWO64 && ChainOnDisk(w, chain, blocks)
    ensures ChainOnDisk(w,
              chain[EncodeUint64(|blocks|) := w.marshal(b)][BlockCountKey := EncodeUint64(Inc(|blocks|))],
              blocks + [b])
  {
    forall i: Uint64 | i <= |blocks|
      ensures EncodeUint64(i) != BlockCountKey && (EncodeUint64(i) == EncodeUint64(|blocks|) ==> i == |blocks|)
    {
      BlockKeysUnambiguous(i, |blocks|);
    }
  }

  lemma LinkedExtends(w: Wire, blocks: seq<Block>, b: Block)
    requires Linked(w, blocks) && b.previousBlockHash == LastHash(w, blocks)
    ensures Linked(w, blocks + [b]) && LastHash(w, blocks + [b]) == w.HashOf(b)
  {
    var all := blocks + [b];
    forall i | 0 <= i < |all| ensures Names(w, all, i) {
      if i < |blocks| {
        assert Names(w, blocks, i);
      }
    }
  }

  lemma IndexExtends(w: Wire, blocks: seq<Block>, b: Block)
    requires WellSized(blocks) && |blocks| + 1 < TWO64 && |b.transactions| < TWO64
    ensures WellSized(blocks + [b])
    ensures BuildIndex(w, blocks + [b])
         == ApplyPuts(BuildIndex(w, blocks), IndexPuts(b, |blocks|, w.HashOf(b)))
  {
    IndexOfPrefix(w, blocks, b, |blocks|);
  }

  lemma StateExtends(w: Wire, blocks: seq<Block>, deltas: seq<T.Delta>, b: Block, d: T.Delta)
    requires StateHashesRight(w, blocks, deltas)
    requires b.stateHash == w.stateDigest(ApplyDelta(FoldDeltas(deltas), d))
    ensures FoldDeltas(deltas + [d]) == ApplyDelta(FoldDeltas(deltas), d)
    ensures StateHashesRight(w, blocks + [b], deltas + [d])
  {
    var deltas' := deltas + [d];
    assert deltas'[..|deltas|] == deltas;
    forall i | 0 <= i < |blocks + [b]|
      ensures (blocks + [b])[i].stateHash == w.stateDigest(FoldDeltas(deltas'[..i + 1]))
    {
      assert deltas'[..i + 1] == if i < |blocks| then deltas[..i + 1] else deltas';
    }
  }

  /** Writing the next block extends the chain, the index and the world state together. */
  lemma DiskExtends(w: Wire, disk: Disk, blocks: seq<Block>, deltas: seq<T.Delta>, b: Block, d: T.Delta)
    requires DiskHolds(w, disk, blocks, deltas)
    requires |blocks| + 1 < TWO64 && |b.transactions| < TWO64
    requires b.previousBlockHash == LastHash(w, blocks)
    requires b.stateHash == w.stateDigest(ApplyDelta(disk.state, d))
    ensures DiskHolds(w, WriteBlock(disk, b, |blocks|, w.HashOf(b), w.marshal(b), d), blocks + [b], deltas + [d])
  {
    LinkedExtends(w, blocks, b);
    IndexExtends(w, blocks, b);
    StateExtends(w, blocks, deltas, b, d);
    WriteBlockExtends(w, disk.chain, blocks, b);
  }

  /** A successful commit appends exactly one block. */
  lemma CommitAppends(w: Wire, s: Ledger, blocks: seq<Block>, deltas: seq<T.Delta>, b: BatchInput)
    requires w.Lawful() && Inv(w, s, blocks, deltas)
    requires |b.transactions| < TWO64 && |blocks| + 1 < TWO64
    ensures var (s', ok) := CommitTxBatch(w, s, s.currentID, b, NoFault);
            ok && Inv(w, s', blocks + [CommittedBlock(w, s, b)], deltas + [s.delta])
  {
    var block := CommittedBlock(w, s, b);
    w.GetHashIsHashOf(block);
    DiskExtends(w, s.disk, blocks, deltas, block, s.delta);
    LinkedExtends(w, blocks, block);
  }

  /** Restarting on a disk that holds a chain rebuilds the size and the last hash the
      crashed process had. */
  lemma RestartRebuilds(w: Wire, disk: Disk, blocks: seq<Block>, deltas: seq<T.Delta>)
    requires w.Lawful() && DiskHolds(w, disk, blocks, deltas)
    ensures Restart(w, disk) == Some(Ledger(disk, |blocks|, LastHash(w, blocks), None, None, map[]))
  {
    if blocks != [] {
      Uint64RoundTrip(|blocks|);
      FetchBlockOnDisk(w, disk.chain, blocks, |blocks| - 1);
      w.GetHashIsHashOf(blocks[|blocks| - 1]);
    }
  }

  /** A commit that does not succeed changes neither the disk nor the chain in memory;
      when the id was the open batch's, the batch is closed and its changes dropped. */
  lemma FailedCommitChangesNothing(w: Wire, s: Ledger, id: Option<int>, b: BatchInput, fault: Fault)
    requires s.lastProcessed == None
    requires !CommitTxBatch(w, s, id, b, fault).1
    ensures var s' := CommitTxBatch(w, s, id, b, fault).0;
            && s' == (if s.currentID == id then Reset(s) else s)
            && s'.disk == s.disk && s'.size == s.size && s'.previousBlockHash == s.previousBlockHash
  {
  }

  lemma StepKeepsChain(w: Wire, s: Ledger, blocks: seq<Block>, deltas: seq<T.Delta>, op: Op)
    returns (s': Ledger, blocks': seq<Block>, deltas': seq<T.Delta>)
    requires w.Lawful() && Inv(w, s, blocks, deltas)
    requires OpOk(op) && |blocks| + 1 < TWO64
    ensures Step(w, s, op) == Some(s')
    ensures Inv(w, s', blocks', deltas') && |blocks'| <= |blocks| + 1
  {
    RestartRebuilds(w, s.disk, blocks, deltas);
    s', blocks', deltas' := Step(w, s, op).value, blocks, deltas;
    if op.Commit? {
      if CommitTxBatch(w, s, op.id, op.input, op.fault).1 {
        CommitAppends(w, s, blocks, deltas, op.input);
        blocks', deltas' := blocks + [CommittedBlock(w, s, op.input)], deltas + [s.delta];
      } else {
        FailedCommitChangesNothing(w, s, op.id, op.input, op.fault);
      }
    }
  }

  /** Along every run of begin, execute, commit, failed commit, rollback and crash the
      invariant holds, and a restart would find just what memory holds. */
  lemma {:induction false} EveryRunKeepsChain(w: Wire, ops: seq<Op>)
    returns (s: Ledger, blocks: seq<Block>, deltas: seq<T.Delta>)
    requires w.Lawful()
    requires |ops| + 1 < TWO64
    requires forall op :: op in ops ==> OpOk(op)
    ensures Run(w, ops) == Some(s)
    ensures Inv(w, s, blocks, deltas) && |blocks| <= |ops|
    ensures Restart(w, s.disk) == Some(Reset(s))
    decreases |ops|
  {
    if ops == [] {
      s, blocks, deltas := Ledger(EmptyDisk, 0, [], None, None, map[]), [], [];
    } else {
      s, blocks, deltas := EveryRunKeepsChain(w, ops[..|ops| - 1]);
      s, blocks, deltas := StepKeepsChain(w, s, blocks, deltas, ops[|ops| - 1]);
    }
    RestartRebuilds(w, s.disk, blocks, deltas);
  }

  // ---------------------------------------------------------------- what a batch leaves behind

  /** No batch is open and nothing is pending. */
  predicate AtRest(s: Ledger) {
    s.currentID == None && s.delta == map[]
  }

  /** A batch that is begun, executed and rolled back leaves the ledger exactly as it was, on
      disk and in memory, whatever was executed. */
  lemma RollbackUndoesBatch(s: Ledger, id: Option<int>, d: T.Delta)
    requires AtRest(s)
    ensures var (begun, ok) := BeginTxBatch(s, id);
            ok && RollbackTxBatch(begun.(delta := d), id) == (s, true)
  {
  }

  /** While a batch is open, no other can be begun, and it cannot be rolled back or committed
      under another id: each is refused and changes nothing. */
  lemma OthersAreRefused(w: Wire, s: Ledger, id: Option<int>, b: BatchInput, fault: Fault)
    ensures s.currentID.Some? ==> BeginTxBatch(s, id) == (s, false)
    ensures s.currentID != id ==> RollbackTxBatch(s, id) == (s, false) && CommitTxBatch(w, s, id, b, fault) == (s, false)
  {
  }

  /** The step at this place of a run ends the batch: a crash, or a commit or rollback under
      the id of the batch, whether or not the commit succeeds. */
  predicate Closes(w: Wire, ops: seq<Op>, j: nat)
    requires j < |ops|
  {
    || ops[j].Crash?
    || ((ops[j].Commit? || ops[j].Rollback?) && Run(w, ops[..j]).Some? && Run(w, ops[..j]).value.currentID == ops[j].id)
  }

  /** These changes were executed in the run, and no batch has ended since. */
  ghost predicate PendingSince(w: Wire, ops: seq<Op>, d: T.Delta, i: nat) {
    i < |ops| && ops[i] == Execute(d) && forall j :: i < j < |ops| ==> !Closes(w, ops, j)
  }

  lemma {:induction false} ClosesInPrefix(w: Wire, ops: seq<Op>, op: Op, j: nat)
    requires j < |ops|
    ensures Closes(w, ops + [op], j) == Closes(w, ops, j)
  {
    assert (ops + [op])[..j] == ops[..j];
  }

  lemma PendingOn(w: Wire, ops: seq<Op>, op: Op, d: T.Delta, i: nat)
    requires PendingSince(w, ops, d, i) && !Closes(w, ops + [op], |ops|)
    ensures PendingSince(w, ops + [op], d, i)
  {
    forall j | i < j < |ops + [op]| ensures !Closes(w, ops + [op], j) {
      if j < |ops| {
        ClosesInPrefix(w, ops, op, j);
      }
    }
  }

  /** In every run, changes are pending only if they were executed and no batch has been
      committed, rolled back or lost since: a batch never commits what an earlier one left. */
  lemma {:induction false} PendingWasExecuted(w: Wire, ops: seq<Op>, s: Ledger)
    requires Run(w, ops) == Some(s) && s.delta != map[]
    ensures exists i :: PendingSince(w, ops, s.delta, i)
    decreases |ops|
  {
    if ops != [] {
      var n := |ops| - 1;
      var init, op := ops[..n], ops[n];
      assert ops == init + [op];
      var s0 := Run(w, init).value;
      if op == Execute(s.delta) {
        assert PendingSince(w, ops, s.delta, n);
      } else {
        ClosedIsEmpty(w, s0, op, s);
        PendingWasExecuted(w, init, s0);
        var i :| PendingSince(w, init, s0.delta, i);
        PendingOn(w, init, op, s0.delta, i);
      }
    }
  }

  lemma ClosedIsEmpty(w: Wire, s0: Ledger, op: Op, s: Ledger)
    requires Step(w, s0, op) == Some(s) && s.delta != map[] && op != Execute(s.delta)
    ensures s.delta == s0.delta && !op.Crash? && ((op.Commit? || op.Rollback?) ==> s0.currentID != op.id)
  {
  }

  /** A batch can be committed without being begun in exactly one way: both the open
      batch's id and the id given are the nil id. */
  lemma CommitNeedsBeginUnlessNil(w: Wire, s: Ledger, id: Option<int>, b: BatchInput)
    requires w.Lawful()
    ensures CommitTxBatch(w, s, id, b, NoFault).1 <==> s.currentID == id
    ensures s.currentID.None? && CommitTxBatch(w, s, id, b, NoFault).1 ==> id.None?
    ensures CommitTxBatch(w, BeginTxBatch(Reset(s), id).0, id, b, NoFault).1
  {
    w.GetHashIsHashOf(CommittedBlock(w, s, b));
    var s1 := BeginTxBatch(Reset(s), id).0;
    w.GetHashIsHashOf(CommittedBlock(w, s1, b));
  }

  /** The preview block has the hash the committed block will have. */
  lemma PreviewHashIsCommitHash(w: Wire, s: Ledger, b: BatchInput)
    requires w.Lawful()
    ensures CommitTxBatch(w, s, s.currentID, b, NoFault).1
    ensures w.GetHash(BuildBlock(w, s, b))
         == Some(CommitTxBatch(w, s, s.currentID, b, NoFault).0.previousBlockHash)
  {
    w.GetHashIsHashOf(BuildBlock(w, s, b));
    w.GetHashIsHashOf(CommittedBlock(w, s, b));
    assert BuildBlock(w, s, b).(nonHashData := None) == CommittedBlock(w, s, b).(nonHashData := None);
  }

  // ---------------------------------------------------------------- verifying the chain

  /** Block `i` and its predecessor are stored, and `i` names another hash. */
  ghost predicate Mismatch(w: Wire, chain: map<Bytes, Bytes>, i: Uint64) {
    && 0 < i
    && FetchBlock(w, chain, i).Some? && FetchBlock(w, chain, i - 1).Some?
    && w.HashOf(FetchBlock(w, chain, i - 1).value) != FetchBlock(w, chain, i).value.previousBlockHash
  }

  lemma NoMismatchOnDisk(w: Wire, disk: Disk, blocks: seq<Block>, deltas: seq<T.Delta>, i: Uint64)
    requires w.Lawful() && DiskHolds(w, disk, blocks, deltas)
    requires i < |blocks|
    ensures FetchBlock(w, disk.chain, i).Some? && !Mismatch(w, disk.chain, i)
  {
    FetchBlockOnDisk(w, disk.chain, blocks, i);
    if i > 0 {
      FetchBlockOnDisk(w, disk.chain, blocks, i - 1);
      assert Names(w, blocks, i);
    }
  }
}

module LedgerObject {
  import opened Common
  import opened Codec
  import opened Blocks
  import opened Indexes
  import T = StateTypes
  import opened LedgerSpec

  datatype Verdict = Verdict(block: nat, error: bool)

  class LedgerImpl {
    const w: Wire
    var disk: Disk
    var size: Uint64
    var previousBlockHash: Bytes
    var lastProcessed: Option<Processed>
    var currentID: Option<int>
    var delta: T.Delta

    ghost function View(): LedgerSpec.Ledger
      reads this
    {
      LedgerSpec.Ledger(disk, size, previousBlockHash, lastProcessed, currentID, delta)
    }

    constructor (w: Wire, disk: Disk, size: Uint64, previousBlockHash: Bytes)
      ensures this.w == w && View() == LedgerSpec.Ledger(disk, size, previousBlockHash, None, None, map[])
    {
      this.w := w;
      this.disk := disk;
      this.size := size;
      this.previousBlockHash := previousBlockHash;
      this.lastProcessed, this.currentID, this.delta := None, None, map[];
    }

    /** `newLedger` on a disk: the ledger a restart rebuilds, or no ledger at all. */
    static method NewLedger(w: Wire, disk: Disk) returns (ledger: LedgerImpl?)
      ensures ledger == null <==> Restart(w, disk).None?
      ensures ledger != null ==> fresh(ledger) && ledger.w == w && Restart(w, disk) == Some(ledger.View())
    {
      var n := FetchSize(disk.chain);
      if n >= TWO64 {
        return null;
      }
      var hash := [];
      if n > 0 {
        var block := FetchBlock(w, disk.chain, n - 1);
        if block.None? {
          return null;
        }
        var h := w.GetHash(block.value);
        if h.None? {
          return null;
        }
        hash := h.value;
      }
      ledger := new LedgerImpl(w, disk, n, hash);
    }

    method BeginTxBatch(id: Option<int>) returns (ok: bool)
      modifies this
      ensures (View(), ok) == LedgerSpec.BeginTxBatch(old(View()), id)
    {
      if currentID.Some? {
        return false;
      }
      currentID := id;
      return true;
    }

    method ResetForNextTxGroup()
      modifies this`currentID, this`delta
      ensures View() == LedgerSpec.Reset(old(View()))
    {
      currentID := None;
      delta := map[];
    }

    method RollbackTxBatch(id: Option<int>) returns (ok: bool)
      modifies this
      ensures (View(), ok) == LedgerSpec.RollbackTxBatch(old(View()), id)
    {
      if currentID != id {
        return false;
      }
      ResetForNextTxGroup();
      return true;
    }

    method BlockPersistenceStatus(success: bool)
      requires success ==> lastProcessed.Some?
      modifies this`size, this`previousBlockHash, this`lastProcessed
      ensures View() == if success
                        then old(View()).(size := Inc(old(size)),
                                          previousBlockHash := old(lastProcessed).value.hash,
                                          lastProcessed := None)
                        else old(View()).(lastProcessed := None)
    {
      if success {
        size := Inc(size);
        previousBlockHash := lastProcessed.value.hash;
      }
      lastProcessed := None;
    }

    /** Completes the block and gathers its chain and index entries. */
    method AddPersistenceChangesForNewBlock(block: Block, stateHash: Bytes, now: int)
      returns (ok: bool, chainPuts: seq<Put>, indexPuts: seq<Put>)
      requires |block.transactions| < TWO64
      requires block.nonHashData.Some?
      modifies this`lastProcessed
      ensures var done := block.(previousBlockHash := previousBlockHash, stateHash := stateHash,
                                 nonHashData := Some(block.nonHashData.value.(commitTimestamp := now)));
              && ok == w.GetHash(done).Some?
              && (ok ==>
                    && lastProcessed == Some(Processed(done, size, w.GetHash(done).value))
                    && chainPuts == [(EncodeUint64(size), w.marshal(done)), (BlockCountKey, EncodeUint64(Inc(size)))]
                    && indexPuts == IndexPuts(done, size, w.GetHash(done).value))
              && (!ok ==> lastProcessed == old(lastProcessed))
    {
      var done := block.(previousBlockHash := previousBlockHash, stateHash := stateHash);
      done := done.(nonHashData := Some(done.nonHashData.value.(commitTimestamp := now)));
      var hash := w.GetHash(done);
      if hash.None? {
        return false, [], [];
      }
      chainPuts := [(EncodeUint64(size), w.marshal(done))];
      chainPuts := chainPuts + [(BlockCountKey, EncodeUint64(Inc(size)))];
      indexPuts := AddIndexDataForPersistence(done, size, hash.value, []);
      lastProcessed := Some(Processed(done, size, hash.value));
      ok := true;
    }

    method CommitTxBatch(id: Option<int>, b: BatchInput, fault: Fault) returns (ok: bool)
      requires |b.transactions| < TWO64
      modifies this
      ensures (View(), ok) == LedgerSpec.CommitTxBatch(w, old(View()), id, b, fault)
    {
      if currentID != id {
        return false;
      }
      if fault.StateHashFails? {
        ResetForNextTxGroup();
        BlockPersistenceStatus(false);
        return false;
      }
      var stateHash := w.stateDigest(ApplyDelta(disk.state, delta));
      var block := NewBlock(b.transactions, b.metadata).(nonHashData := Some(NonHashData(0, b.results)));
      var added, chainPuts, indexPuts := AddPersistenceChangesForNewBlock(block, stateHash, b.now);
      if !added {
        ResetForNextTxGroup();
        BlockPersistenceStatus(false);
        return false;
      }
      assert lastProcessed.value.block == CommittedBlock(w, old(View()), b);
      if fault.WriteFails? {
        ResetForNextTxGroup();
        BlockPersistenceStatus(false);
        return false;
      }
      TwoPuts(disk.chain, chainPuts);
      disk := Disk(ApplyPuts(disk.chain, chainPuts), ApplyPuts(disk.index, indexPuts), ApplyDelta(disk.state, delta));
      ResetForNextTxGroup();
      BlockPersistenceStatus(true);
      return true;
    }

    lemma TwoPuts(m: Index, puts: seq<Put>)
      requires |puts| == 2
      ensures ApplyPuts(m, puts) == m[puts[0].0 := puts[0].1][puts[1].0 := puts[1].1]
    {
      assert puts[..1][..0] == [];
      assert ApplyPuts(m, puts[..1]) == m[puts[0].0 := puts[0].1];
    }

    method GetTXBatchPreviewBlock(id: Option<int>, b: BatchInput) returns (r: Option<Block>)
      ensures r == if currentID == id then Some(BuildBlock(w, View(), b)) else None
    {
      if currentID != id {
        return None;
      }
      var stateHash := w.stateDigest(ApplyDelta(disk.state, delta));
      var block := NewBlock(b.transactions, b.metadata);
      return Some(block.(previousBlockHash := previousBlockHash, stateHash := stateHash));
    }

    /** Returns the last transaction on the chain with this uuid; the block it names is
        always there and always long enough. */
    method GetTransactionByUUID(uuid: Bytes, ghost blocks: seq<Block>, ghost deltas: seq<T.Delta>)
      returns (r: Fetched<Transaction>)
      requires w.Lawful() && Inv(w, View(), blocks, deltas)
      ensures match LastTx(blocks, uuid)
              case None => r == ResourceNotFound
              case Some(p) => TxAt(blocks, p.0, p.1, uuid) && r == Found(blocks[p.0].transactions[p.1])
    {
      FetchByUUIDIsLastTx(w, blocks, |blocks|, uuid);
      assert blocks[..|blocks|] == blocks;
      LastTxIsLast(blocks, uuid);
      match FetchTransactionIndexByUUID(disk.index, uuid)
      case ResourceNotFound => return ResourceNotFound;
      case Malformed => return Malformed;
      case Found(p) =>
        FetchBlockOnDisk(w, disk.chain, blocks, p.0);
        var block := FetchBlock(w, disk.chain, p.0);
        return Found(block.value.transactions[p.1]);
    }

    /** Walks down from `high`; with every block of the range stored it reports the
        greatest mismatching block, and 0 exactly when there is none. */
    method VerifyChain(high: Uint64, low: Uint64) returns (r: Verdict)
      requires w.Lawful()
      ensures high >= size ==> r == Verdict(high, true)
      ensures high < size && high <= low ==> r == Verdict(low, true)
      ensures low < high < size ==>
                if r.error then
                  low <= r.block <= high && FetchBlock(w, disk.chain, r.block).None?
                else if r.block == 0 then
                  && (forall i: Uint64 :: low <= i <= high ==> FetchBlock(w, disk.chain, i).Some?)
                  && (forall i: Uint64 :: low < i <= high ==> !Mismatch(w, disk.chain, i))
                else
                  && low < r.block <= high && Mismatch(w, disk.chain, r.block)
                  && (forall i: Uint64 :: r.block < i <= high ==> !Mismatch(w, disk.chain, i))
    {
      if high >= size {
        return Verdict(high, true);
      }
      if high <= low {
        return Verdict(low, true);
      }
      var i := high;
      while i > low
        invariant low <= i <= high
        invariant i < high ==> FetchBlock(w, disk.chain, i).Some?
        invariant forall j: Uint64 :: i < j <= high ==> FetchBlock(w, disk.chain, j).Some?
        invariant forall j: Uint64 :: i < j <= high ==> !Mismatch(w, disk.chain, j)
      {
        var current := FetchBlock(w, disk.chain, i);
        if current.None? {
          return Verdict(i, true);
        }
        var previous := FetchBlock(w, disk.chain, i - 1);
        if previous.None? {
          return Verdict(i - 1, true);
        }
        w.GetHashIsHashOf(previous.value);
        var previousHash := w.GetHash(previous.value);
        if previousHash.value != current.value.previousBlockHash {
          return Verdict(i, false);
        }
        i := i - 1;
      }
      return Verdict(0, false);
    }

    /** After any run of commits the whole chain verifies. */
    method VerifyWholeChain(ghost blocks: seq<Block>, ghost deltas: seq<T.Delta>) returns (r: Verdict)
      requires w.Lawful() && Inv(w, View(), blocks, deltas)
      requires size > 1
      ensures r == Verdict(0, false)
    {
      r := VerifyChain(size - 1, 0);
      forall i: Uint64 | i < |blocks|
        ensures FetchBlock(w, disk.chain, i).Some? && !Mismatch(w, disk.chain, i)
      {
        NoMismatchOnDisk(w, disk, blocks, deltas, i);
      }
    }
  }
}
