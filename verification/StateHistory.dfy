/** The deltas stored with the blocks: rolled forwards they rebuild the state, rolled
    backwards they restore an earlier one, with the bucket tree always and with the trie
    exactly under a condition that the stored deltas show. */
module StateHistory {
  import opened Common
  import opened Codec
  import opened StateTypes
  import opened WorldState
  import opened DeltaCodec

  // ---------------------------------------------------------------- one delta

  /** Backwards over a delta just committed: a changed key gets its old value back, unless
      the trie finds that the change was a deletion. */
  lemma RolledBackAt(impl: Impl, m: KVs, d: Delta, next: KVs, k: Key)
    requires Remembers(m, d) && next == Committed(impl, m, d, false)
    ensures Lookup(Committed(impl, next, d, true), k)
         == if impl.Trie? && k in d && d[k].value.None? then None else Lookup(m, k)
  {
    CommittedLookup(impl, next, d, true, k);
    CommittedLookup(impl, m, d, false, k);
  }

  /** No entry of the delta deletes a key that was there. */
  predicate DeletesNothing(d: Delta) {
    forall k :: k in d && d[k].value.None? ==> Stored(d[k].previous).None?
  }

  /** A delta in memory, committed and rolled back, restores the state if and only if the
      state is a bucket tree or the delta deletes no key that was there. */
  lemma RollsBackIff(impl: Impl, m: KVs, d: Delta)
    requires Remembers(m, d)
    ensures Committed(impl, Committed(impl, m, d, false), d, true) == m <==> impl.BucketTree? || DeletesNothing(d)
  {
    var next := Committed(impl, m, d, false);
    var back := Committed(impl, next, d, true);
    if impl.BucketTree? || DeletesNothing(d) {
      forall k ensures Lookup(back, k) == Lookup(m, k) {
        RolledBackAt(impl, m, d, next, k);
      }
      SameLookups(back, m);
    } else {
      var k :| k in d && d[k].value.None? && Stored(d[k].previous).Some?;
      RolledBackAt(impl, m, d, next, k);
      assert Lookup(back, k) != Lookup(m, k);
    }
  }

  /** The trie does not bring back a deleted key. */
  lemma TrieLosesDeletedKey(k: Key, v: Value)
    requires v != []
    ensures var d: Delta := map[k := UpdatedValue(None, Some(v))];
            && Remembers(map[k := v], d)
            && Committed(BucketTree, Committed(BucketTree, map[k := v], d, false), d, true) == map[k := v]
            && k !in Committed(Trie, Committed(Trie, map[k := v], d, false), d, true)
  {
    var d: Delta := map[k := UpdatedValue(None, Some(v))];
    RollsBackIff(BucketTree, map[k := v], d);
    RolledBackAt(Trie, map[k := v], d, Committed(Trie, map[k := v], d, false), k);
  }

  // ---------------------------------------------------------------- stored deltas

  /** Storing a delta loses nothing that a commit would have kept: the empty values lost on
      the way are none in the database. */
  lemma StoredCommitsTheSame(impl: Impl, m: KVs, d: Delta, backwards: bool)
    requires impl.BucketTree? || !backwards
    ensures Committed(impl, m, NormalFlat(d), backwards) == Committed(impl, m, d, backwards)
  {
    var a, b := Committed(impl, m, NormalFlat(d), backwards), Committed(impl, m, d, backwards);
    forall k ensures Lookup(a, k) == Lookup(b, k) {
      CommittedLookup(impl, m, NormalFlat(d), backwards, k);
      CommittedLookup(impl, m, d, backwards, k);
    }
    SameLookups(a, b);
  }

  lemma NormalRemembers(m: KVs, d: Delta)
    requires Remembers(m, d)
    ensures Remembers(m, NormalFlat(d))
  {
  }

  // ---------------------------------------------------------------- many blocks

  /** The delta a batch leaves on a committed state. */
  function BlockDelta(m: KVs, batch: seq<Op>): Delta {
    Run(Fresh(m), batch).batch
  }

  function After(impl: Impl, m: KVs, batch: seq<Op>): KVs {
    Committed(impl, m, BlockDelta(m, batch), false)
  }

  /** The state after committing one batch after the other, and the deltas of the blocks. */
  function CommittedAll(impl: Impl, m: KVs, batches: seq<seq<Op>>): KVs
    decreases |batches|
  {
    if batches == [] then m else CommittedAll(impl, After(impl, m, batches[0]), batches[1..])
  }

  function Deltas(impl: Impl, m: KVs, batches: seq<seq<Op>>): seq<Delta>
    decreases |batches|
  {
    if batches == [] then []
    else [BlockDelta(m, batches[0])] + Deltas(impl, After(impl, m, batches[0]), batches[1..])
  }

  /** These bytes are stored for these deltas. */
  ghost predicate StoredAs(deltas: seq<Delta>, stored: seq<Bytes>) {
    |stored| == |deltas| && forall i :: 0 <= i < |deltas| ==> IsDelta(stored[i], NormalDelta(Nest(deltas[i])))
  }

  function RollForward(impl: Impl, m: KVs, stored: seq<Bytes>): KVs
    decreases |stored|
  {
    if stored == [] then m else RollForward(impl, Committed(impl, m, Loaded(stored[0]), false), stored[1..])
  }

  /** The deltas of later blocks are taken back before those of earlier ones. */
  function RollBack(impl: Impl, m: KVs, stored: seq<Bytes>): KVs
    decreases |stored|
  {
    if stored == [] then m else Committed(impl, RollBack(impl, m, stored[1..]), Loaded(stored[0]), true)
  }

  /** The first of the blocks to change the key deletes it, and it was there. */
  predicate FirstDeletes(stored: seq<Bytes>, k: Key)
    decreases |stored|
  {
    stored != [] &&
    var d := Loaded(stored[0]);
    if k in d then d[k].value.None? && d[k].previous.Some? else FirstDeletes(stored[1..], k)
  }

  lemma BlockDeltaRemembers(m: KVs, batch: seq<Op>)
    requires NoEmpty(m)
    ensures Remembers(m, BlockDelta(m, batch))
  {
    RunRemembers(Fresh(m), batch);
  }

  lemma FirstStored(impl: Impl, m: KVs, batches: seq<seq<Op>>, stored: seq<Bytes>)
    requires NoEmpty(m) && batches != [] && StoredAs(Deltas(impl, m, batches), stored)
    ensures var next := After(impl, m, batches[0]);
            && NoEmpty(next) && StoredAs(Deltas(impl, next, batches[1..]), stored[1..])
            && Loaded(stored[0]) == NormalFlat(BlockDelta(m, batches[0])) && Remembers(m, Loaded(stored[0]))
            && Committed(impl, m, Loaded(stored[0]), false) == next
  {
    var d, next := BlockDelta(m, batches[0]), After(impl, m, batches[0]);
    var deltas := Deltas(impl, m, batches);
    assert deltas[0] == d && deltas[1..] == Deltas(impl, next, batches[1..]);
    assert forall i :: 0 <= i < |stored| - 1 ==> stored[1..][i] == stored[i + 1] && deltas[1..][i] == deltas[i + 1];
    CommittedHasNoEmpty(impl, m, d, false);
    LoadedIsNormal(d, stored[0]);
    BlockDeltaRemembers(m, batches[0]);
    NormalRemembers(m, d);
    StoredCommitsTheSame(impl, m, d, false);
  }

  /** The stored deltas of any run of blocks lead from the state before it to the state
      after it. */
  lemma {:induction false} StoredDeltasRollForward(impl: Impl, m: KVs, batches: seq<seq<Op>>, stored: seq<Bytes>)
    requires NoEmpty(m) && StoredAs(Deltas(impl, m, batches), stored)
    ensures RollForward(impl, m, stored) == CommittedAll(impl, m, batches)
    decreases |batches|
  {
    if batches != [] {
      FirstStored(impl, m, batches, stored);
      StoredDeltasRollForward(impl, After(impl, m, batches[0]), batches[1..], stored[1..]);
    }
  }

  lemma {:induction false} RolledBackAllAt(impl: Impl, m: KVs, batches: seq<seq<Op>>, stored: seq<Bytes>, k: Key)
    requires NoEmpty(m) && StoredAs(Deltas(impl, m, batches), stored)
    ensures Lookup(RollBack(impl, CommittedAll(impl, m, batches), stored), k)
         == if impl.Trie? && FirstDeletes(stored, k) then None else Lookup(m, k)
    ensures FirstDeletes(stored, k) ==> Lookup(m, k).Some?
    decreases |batches|
  {
    if batches != [] {
      FirstStored(impl, m, batches, stored);
      var next, d := After(impl, m, batches[0]), Loaded(stored[0]);
      RolledBackAllAt(impl, next, batches[1..], stored[1..], k);
      CommittedLookup(impl, RollBack(impl, CommittedAll(impl, next, batches[1..]), stored[1..]), d, true, k);
      CommittedLookup(impl, m, d, false, k);
    }
  }

  /** They lead back to the state before it if and only if the state is a bucket tree or no
      key is deleted by the first block of the run that changes it. */
  lemma StoredDeltasRollBackIff(impl: Impl, m: KVs, batches: seq<seq<Op>>, stored: seq<Bytes>)
    requires NoEmpty(m) && StoredAs(Deltas(impl, m, batches), stored)
    ensures RollBack(impl, CommittedAll(impl, m, batches), stored) == m
            <==> impl.BucketTree? || forall k :: !FirstDeletes(stored, k)
  {
    var back := RollBack(impl, CommittedAll(impl, m, batches), stored);
    if impl.BucketTree? || forall k :: !FirstDeletes(stored, k) {
      forall k ensures Lookup(back, k) == Lookup(m, k) {
        RolledBackAllAt(impl, m, batches, stored, k);
      }
      SameLookups(back, m);
    } else {
      var k :| FirstDeletes(stored, k);
      RolledBackAllAt(impl, m, batches, stored, k);
      assert Lookup(back, k) != Lookup(m, k);
    }
  }

  /** From the empty state on, every committed state is without empty values. */
  lemma {:induction false} CommittedStatesHaveNoEmpty(impl: Impl, m: KVs, batches: seq<seq<Op>>)
    requires NoEmpty(m)
    ensures NoEmpty(CommittedAll(impl, m, batches))
    decreases |batches|
  {
    if batches != [] {
      CommittedHasNoEmpty(impl, m, BlockDelta(m, batches[0]), false);
      CommittedStatesHaveNoEmpty(impl, After(impl, m, batches[0]), batches[1..]);
    }
  }
}
