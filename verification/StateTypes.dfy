/** The world state and the changes to it, as all parts of the ledger see them. */
module StateTypes {
  import opened Common
  import opened Codec

  type Key = (Bytes, Bytes)   // a chaincode and one of its keys
  type Value = Bytes
  type KVs = map<Key, Value>

  datatype KeyValue = KeyValue(key: Key, value: Value)

  // A changed key: the new value and the one it replaces.  `None` is the nil slice: as a
  // value it deletes the key, as a previous value it says that there was none.
  datatype UpdatedValue = UpdatedValue(value: Option<Value>, previous: Option<Value>)

  type Delta = map<Key, UpdatedValue>

  function Lookup(m: KVs, k: Key): Option<Value> {
    if k in m then Some(m[k]) else None
  }

  function Put(m: KVs, k: Key, v: Option<Value>): KVs {
    if v.Some? then m[k := v.value] else m - {k}
  }

  function OrEmpty(v: Option<Value>): Bytes {
    if v.Some? then v.value else []
  }

  function NilIfEmpty(b: Bytes): Option<Value> {
    if b == [] then None else Some(b)
  }

  /** The database and the stored form of a delta know no empty value: it is none. */
  function Stored(v: Option<Value>): Option<Value> {
    NilIfEmpty(OrEmpty(v))
  }

  lemma SameLookups(a: KVs, b: KVs)
    requires forall k :: Lookup(a, k) == Lookup(b, k)
    ensures a == b
  {
    forall k ensures (k in a <==> k in b) && (k in a ==> a[k] == b[k]) {
      assert Lookup(a, k) == Lookup(b, k);
    }
  }

  // ---------------------------------------------------------------- committing a delta

  // The two data structures a peer may be configured with.
  datatype Impl = BucketTree | Trie

  /** What a changed key is set to, forwards or backwards.  The trie asks whether the change
      is a deletion before it asks for the direction. */
  function Picked(impl: Impl, u: UpdatedValue, backwards: bool): Option<Value> {
    if impl.Trie? && u.value.None? then None else if backwards then u.previous else u.value
  }

  function CommittedAt(impl: Impl, m: KVs, d: Delta, backwards: bool, k: Key): Option<Value> {
    if k in d then Stored(Picked(impl, d[k], backwards)) else Lookup(m, k)
  }

  /** The committed state a delta makes of another one. */
  function Committed(impl: Impl, m: KVs, d: Delta, backwards: bool): KVs {
    map k | k in m.Keys + d.Keys && CommittedAt(impl, m, d, backwards, k).Some? ::
      CommittedAt(impl, m, d, backwards, k).value
  }

  lemma CommittedLookup(impl: Impl, m: KVs, d: Delta, backwards: bool, k: Key)
    ensures Lookup(Committed(impl, m, d, backwards), k) == CommittedAt(impl, m, d, backwards, k)
  {
  }

  /** No key has the empty value, as in every state that was committed. */
  predicate NoEmpty(m: KVs) {
    forall k :: k in m ==> m[k] != []
  }

  lemma CommittedHasNoEmpty(impl: Impl, m: KVs, d: Delta, backwards: bool)
    requires NoEmpty(m)
    ensures NoEmpty(Committed(impl, m, d, backwards))
  {
  }

  /** Forwards the two data structures agree. */
  lemma ForwardsTheSame(m: KVs, d: Delta)
    ensures Committed(Trie, m, d, false) == Committed(BucketTree, m, d, false)
  {
    forall k ensures Lookup(Committed(Trie, m, d, false), k) == Lookup(Committed(BucketTree, m, d, false), k) {
      CommittedLookup(Trie, m, d, false, k);
      CommittedLookup(BucketTree, m, d, false, k);
    }
    SameLookups(Committed(Trie, m, d, false), Committed(BucketTree, m, d, false));
  }

  // ---------------------------------------------------------------- the loops over a delta

  // The nodes of a working set, each with the value it will have; `None` deletes it.
  type Nodes = map<Key, Option<Value>>

  /** `newDataNodesDelta`, the bucket tree's. */
  method NewDataNodesDelta(d: Delta, rollBackwards: bool) returns (nodes: Nodes)
    ensures nodes == map k | k in d :: Picked(BucketTree, d[k], rollBackwards)
  {
    nodes := map[];
    var todo := d.Keys;
    while todo != {}
      invariant todo <= d.Keys && nodes == map k | k in d && k !in todo :: Picked(BucketTree, d[k], rollBackwards)
      decreases |todo|
    {
      var k :| k in todo;
      if rollBackwards {
        nodes := nodes[k := d[k].previous];
      } else {
        nodes := nodes[k := d[k].value];
      }
      todo := todo - {k};
    }
  }

  /** `newTrieDelta`. */
  method NewTrieDelta(d: Delta, rollBackwards: bool) returns (nodes: Nodes)
    ensures nodes == map k | k in d :: Picked(Trie, d[k], rollBackwards)
  {
    nodes := map[];
    var todo := d.Keys;
    while todo != {}
      invariant todo <= d.Keys && nodes == map k | k in d && k !in todo :: Picked(Trie, d[k], rollBackwards)
      decreases |todo|
    {
      var k :| k in todo;
      if d[k].value.None? {
        nodes := nodes[k := None];
      } else if rollBackwards {
        nodes := nodes[k := d[k].previous];
      } else {
        nodes := nodes[k := d[k].value];
      }
      todo := todo - {k};
    }
  }

  /** `AddChangesForPersistence` of either: a node with no value, nil or empty, is deleted. */
  method AddChangesForPersistence(impl: Impl, m: KVs, d: Delta, backwards: bool) returns (m': KVs)
    ensures m' == Committed(impl, m, d, backwards)
  {
    var nodes;
    if impl.BucketTree? {
      nodes := NewDataNodesDelta(d, backwards);
    } else {
      nodes := NewTrieDelta(d, backwards);
    }
    m' := m;
    var todo := nodes.Keys;
    while todo != {}
      invariant todo <= d.Keys
      invariant forall k :: Lookup(m', k) == if k in todo then Lookup(m, k) else CommittedAt(impl, m, d, backwards, k)
      decreases |todo|
    {
      var k :| k in todo;
      m' := Put(m', k, Stored(nodes[k]));
      todo := todo - {k};
    }
    forall k ensures Lookup(m', k) == Lookup(Committed(impl, m, d, backwards), k) {
      CommittedLookup(impl, m, d, backwards, k);
    }
    SameLookups(m', Committed(impl, m, d, backwards));
  }
}
