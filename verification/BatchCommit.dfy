/** Execution and ledger put together: what a block commits is what its transactions did. */
module BatchCommit {
  import opened Common
  import opened Codec
  import opened Blocks
  import T = StateTypes
  import W = WorldState
  import E = BatchExec
  import L = LedgerSpec

  // A batch as the consensus layer hands it over.
  datatype Batch = Batch(jobs: seq<E.Job>, input: L.BatchInput)

  predicate BatchOk(b: Batch) {
    |b.input.transactions| < TWO64 && forall i :: 0 <= i < |b.jobs| ==> E.Named(b.jobs[i])
  }

  predicate AllOk(batches: seq<Batch>)
    decreases |batches|
  {
    batches != [] ==> BatchOk(batches[0]) && AllOk(batches[1..])
  }

  /** The committed state after a batch, from its transactions alone. */
  function StateAfter(m: T.KVs, b: Batch): T.KVs {
    W.DropEmpty(E.FoldOfSuccesses(m, b.jobs))
  }

  function StateAfterAll(m: T.KVs, batches: seq<Batch>): T.KVs
    decreases |batches|
  {
    if batches == [] then m else StateAfterAll(StateAfter(m, batches[0]), batches[1..])
  }

  /** The steps of the ledger for one batch: begun, executed, committed. */
  function OneBatch(w: Wire, s: L.Ledger, id: Option<int>, b: Batch): L.Ledger {
    var begun := L.BeginTxBatch(s, id).0;
    var executed := begun.(delta := E.ExecuteAll(W.Fresh(s.disk.state), b.jobs).batch);
    L.CommitTxBatch(w, executed, id, b.input, L.NoFault).0
  }

  /** Executing a batch on the committed state leaves a delta that commits to the fold of
      its successful transactions. */
  lemma DeltaOfBatch(m: T.KVs, b: Batch)
    requires T.NoEmpty(m) && BatchOk(b)
    ensures L.ApplyDelta(m, E.ExecuteAll(W.Fresh(m), b.jobs).batch) == StateAfter(m, b)
  {
    var s := W.Fresh(m);
    E.BatchIsFoldOfSuccesses(s, b.jobs);
    var s' := E.ExecuteAll(s, b.jobs);
    W.CommitKeepsBatchState(T.BucketTree, s');
    forall k ensures T.Lookup(W.BatchState(s), k) == T.Lookup(m, k) {
      W.OverlaidLookup(m, map[], k);
    }
    T.SameLookups(W.BatchState(s), m);
  }

  ghost predicate Ready(w: Wire, s: L.Ledger, blocks: seq<Block>, deltas: seq<T.Delta>) {
    w.Lawful() && L.Inv(w, s, blocks, deltas) && s.currentID == None && T.NoEmpty(s.disk.state)
  }

  /** Committing an executed batch appends one block, whose state hash is the digest of the
      fold of the batch's successful transactions over the state before. */
  lemma BatchCommitsItsSuccesses(w: Wire, s: L.Ledger, blocks: seq<Block>, deltas: seq<T.Delta>, id: Option<int>, b: Batch)
    returns (s': L.Ledger, block: Block, d: T.Delta)
    requires Ready(w, s, blocks, deltas) && BatchOk(b) && |blocks| + 1 < TWO64
    ensures s' == OneBatch(w, s, id, b) && Ready(w, s', blocks + [block], deltas + [d])
    ensures s'.disk.state == StateAfter(s.disk.state, b)
    ensures block.stateHash == w.stateDigest(StateAfter(s.disk.state, b))
    ensures block.transactions == b.input.transactions && block.consensusMetadata == b.input.metadata
    ensures block.nonHashData == Some(NonHashData(b.input.now, b.input.results)) && block.previousBlockHash == LastHash(w, blocks)
  {
    s' := OneBatch(w, s, id, b);
    d := E.ExecuteAll(W.Fresh(s.disk.state), b.jobs).batch;
    var executed := L.BeginTxBatch(s, id).0.(delta := d);
    block := L.CommittedBlock(w, executed, b.input);
    assert L.Inv(w, executed, blocks, deltas);
    L.CommitAppends(w, executed, blocks, deltas, b.input);
    DeltaOfBatch(s.disk.state, b);
    w.GetHashIsHashOf(block);
  }

  function AllBatches(w: Wire, s: L.Ledger, ids: seq<Option<int>>, batches: seq<Batch>): L.Ledger
    requires |ids| == |batches|
    decreases |batches|
  {
    if batches == [] then s else AllBatches(w, OneBatch(w, s, ids[0], batches[0]), ids[1..], batches[1..])
  }

  lemma FirstBatch(w: Wire, s: L.Ledger, blocks: seq<Block>, deltas: seq<T.Delta>, ids: seq<Option<int>>,
                   batches: seq<Batch>)
    returns (s1: L.Ledger, block: Block, d: T.Delta)
    requires Ready(w, s, blocks, deltas) && |blocks| + 1 < TWO64 && |ids| == |batches| > 0 && BatchOk(batches[0])
    ensures AllBatches(w, s, ids, batches) == AllBatches(w, s1, ids[1..], batches[1..])
    ensures Ready(w, s1, blocks + [block], deltas + [d]) && s1.disk.state == StateAfter(s.disk.state, batches[0])
    ensures block.stateHash == w.stateDigest(StateAfter(s.disk.state, batches[0]))
  {
    s1, block, d := BatchCommitsItsSuccesses(w, s, blocks, deltas, ids[0], batches[0]);
  }

  lemma Reassociate(w: Wire, s: L.Ledger, blocks: seq<Block>, block: Block, added: seq<Block>, deltas: seq<T.Delta>,
                    d: T.Delta, ds: seq<T.Delta>)
    requires Ready(w, s, (blocks + [block]) + added, (deltas + [d]) + ds)
    ensures Ready(w, s, blocks + ([block] + added), deltas + ([d] + ds))
  {
    Associate(blocks, [block], added);
    Associate(deltas, [d], ds);
  }

  lemma Associate<A>(a: seq<A>, b: seq<A>, c: seq<A>)
    ensures (a + b) + c == a + (b + c)
  {
  }

  /** Block i of the new ones carries the digest of the state its and all earlier
      transactions lead to. */
  ghost predicate HashesFollow(w: Wire, m: T.KVs, batches: seq<Batch>, added: seq<Block>) {
    |added| == |batches| && forall i :: 0 <= i < |added| ==> HashFollows(w, m, batches, added, i)
  }

  predicate HashFollows(w: Wire, m: T.KVs, batches: seq<Batch>, added: seq<Block>, i: nat)
    requires i < |added| == |batches|
  {
    added[i].stateHash == w.stateDigest(StateAfterAll(m, batches[..i + 1]))
  }

  /** What committing these batches from s must come to. */
  ghost predicate Grown(w: Wire, s: L.Ledger, blocks: seq<Block>, deltas: seq<T.Delta>, ids: seq<Option<int>>,
                        batches: seq<Batch>, s': L.Ledger, added: seq<Block>, ds: seq<T.Delta>)
    requires |ids| == |batches|
  {
    && s' == AllBatches(w, s, ids, batches) && Ready(w, s', blocks + added, deltas + ds)
    && s'.disk.state == StateAfterAll(s.disk.state, batches)
    && HashesFollow(w, s.disk.state, batches, added)
  }

  lemma GrownByNone(w: Wire, s: L.Ledger, blocks: seq<Block>, deltas: seq<T.Delta>)
    requires Ready(w, s, blocks, deltas)
    ensures Grown(w, s, blocks, deltas, [], [], s, [], [])
  {
    assert blocks + [] == blocks;
    assert deltas + [] == deltas;
  }

  lemma GrownByOne(w: Wire, s: L.Ledger, blocks: seq<Block>, deltas: seq<T.Delta>, ids: seq<Option<int>>,
                   batches: seq<Batch>, s1: L.Ledger, block: Block, d: T.Delta, s': L.Ledger, added: seq<Block>,
                   ds: seq<T.Delta>)
    requires |ids| == |batches| > 0
    requires AllBatches(w, s, ids, batches) == AllBatches(w, s1, ids[1..], batches[1..])
    requires s1.disk.state == StateAfter(s.disk.state, batches[0])
    requires block.stateHash == w.stateDigest(StateAfter(s.disk.state, batches[0]))
    requires Grown(w, s1, blocks + [block], deltas + [d], ids[1..], batches[1..], s', added, ds)
    ensures Grown(w, s, blocks, deltas, ids, batches, s', [block] + added, [d] + ds)
  {
    HashesPrepend(w, s.disk.state, batches, block, added);
    Reassociate(w, s', blocks, block, added, deltas, d, ds);
  }

  /** For any batches one after the other: one block each, linked to the chain before, and
      every state hash and the committed state are those of the successful transactions. */
  lemma {:induction false} ChainCommitsItsSuccesses(w: Wire, s: L.Ledger, blocks: seq<Block>, deltas: seq<T.Delta>,
                                                    ids: seq<Option<int>>, batches: seq<Batch>)
    returns (s': L.Ledger, added: seq<Block>, ds: seq<T.Delta>)
    requires Ready(w, s, blocks, deltas) && |blocks| + |batches| < TWO64 && |ids| == |batches|
    requires AllOk(batches)
    ensures Grown(w, s, blocks, deltas, ids, batches, s', added, ds)
    decreases |batches|
  {
    if batches == [] {
      GrownByNone(w, s, blocks, deltas);
      s', added, ds := s, [], [];
    } else {
      var s1, block, d := FirstBatch(w, s, blocks, deltas, ids, batches);
      s', added, ds := ChainCommitsItsSuccesses(w, s1, blocks + [block], deltas + [d], ids[1..], batches[1..]);
      GrownByOne(w, s, blocks, deltas, ids, batches, s1, block, d, s', added, ds);
      added, ds := [block] + added, [d] + ds;
    }
  }

  lemma HashesPrepend(w: Wire, m: T.KVs, batches: seq<Batch>, block: Block, added: seq<Block>)
    requires batches != [] && block.stateHash == w.stateDigest(StateAfter(m, batches[0]))
    requires HashesFollow(w, StateAfter(m, batches[0]), batches[1..], added)
    ensures HashesFollow(w, m, batches, [block] + added)
  {
    var all := [block] + added;
    forall i | 0 <= i < |all| ensures HashFollows(w, m, batches, all, i) {
      assert batches[..i + 1][0] == batches[0];
      if i == 0 {
        assert batches[..1][1..] == [];
      } else {
        assert batches[..i + 1][1..] == batches[1..][..i];
        assert HashFollows(w, StateAfter(m, batches[0]), batches[1..], added, i - 1);
      }
    }
  }
}
