/** A range scan inside a transaction walks three layers one after the other, skipping keys
    that a newer layer has changed.  What it yields is the visible state, key by key. */
module RangeScan {
  import opened Common
  import opened StateTypes
  import opened WorldState

  // ---------------------------------------------------------------- one layer

  /** The keys an iterator over a delta walks: those in range that are not deletions, each
      once, in no particular order. */
  ghost predicate Relevant(d: Delta, inRange: Key -> bool, keys: seq<Key>) {
    && (forall k :: k in keys <==> k in d && d[k].value.Some? && inRange(k))
    && Distinct(keys)
  }

  ghost predicate Distinct(keys: seq<Key>) {
    forall i, j :: 0 <= i < j < |keys| ==> keys[i] != keys[j]
  }

  /** The items of a scan over the committed state. */
  ghost predicate Scans(m: KVs, inRange: Key -> bool, items: seq<KeyValue>) {
    && (forall i :: 0 <= i < |items| ==> Lookup(m, items[i].key) == Some(items[i].value) && inRange(items[i].key))
    && (forall k :: k in m && inRange(k) ==> exists i :: 0 <= i < |items| && items[i].key == k)
    && NoRepeats(items)
  }

  // ---------------------------------------------------------------- the three layers

  datatype Layers = Layers(tx: Delta, txKeys: seq<Key>, batch: Delta, batchKeys: seq<Key>, items: seq<KeyValue>)

  ghost predicate LayersOf(l: Layers, s: State, inRange: Key -> bool) {
    && l.tx == s.tx && l.batch == s.batch
    && Relevant(s.tx, inRange, l.txKeys) && Relevant(s.batch, inRange, l.batchKeys)
    && Scans(s.committed, inRange, l.items)
  }

  /** What layer n holds at a position, if a newer layer does not hide it. */
  function Length(l: Layers, n: nat): nat {
    if n == 0 then |l.txKeys| else if n == 1 then |l.batchKeys| else |l.items|
  }

  predicate Readable(l: Layers) {
    && (forall i :: 0 <= i < |l.txKeys| ==> l.txKeys[i] in l.tx && l.tx[l.txKeys[i]].value.Some?)
    && (forall i :: 0 <= i < |l.batchKeys| ==> l.batchKeys[i] in l.batch && l.batch[l.batchKeys[i]].value.Some?)
  }

  function ItemAt(l: Layers, n: nat, i: nat): KeyValue
    requires Readable(l) && i < Length(l, n)
  {
    if n == 0 then KeyValue(l.txKeys[i], l.tx[l.txKeys[i]].value.value)
    else if n == 1 then KeyValue(l.batchKeys[i], l.batch[l.batchKeys[i]].value.value)
    else l.items[i]
  }

  predicate Hidden(l: Layers, n: nat, k: Key) {
    (n > 0 && k in l.tx) || (n > 1 && k in l.batch)
  }

  /** The items still to come: the rest of the current layer that is not hidden, then the
      layers after it. */
  function Remaining(l: Layers, n: nat, i: nat): seq<KeyValue>
    requires Readable(l) && n <= 2 && i <= Length(l, n)
    decreases 2 - n, Length(l, n) - i
  {
    if i == Length(l, n) then (if n == 2 then [] else Remaining(l, n + 1, 0))
    else
      var kv := ItemAt(l, n, i);
      if Hidden(l, n, kv.key) then Remaining(l, n, i + 1) else [kv] + Remaining(l, n, i + 1)
  }

  // ---------------------------------------------------------------- what a scan yields

  lemma LayersAreReadable(l: Layers, s: State, inRange: Key -> bool)
    requires LayersOf(l, s, inRange)
    ensures Readable(l)
  {
    forall i | 0 <= i < |l.txKeys| ensures l.txKeys[i] in l.tx && l.tx[l.txKeys[i]].value.Some? {
      assert l.txKeys[i] in l.txKeys;
    }
    forall i | 0 <= i < |l.batchKeys| ensures l.batchKeys[i] in l.batch && l.batch[l.batchKeys[i]].value.Some? {
      assert l.batchKeys[i] in l.batchKeys;
    }
  }

  /** Every item is in some layer from here on, not hidden there. */
  lemma {:induction false} RemainingSound(l: Layers, n: nat, i: nat, kv: KeyValue)
    requires Readable(l) && n <= 2 && i <= Length(l, n) && kv in Remaining(l, n, i)
    ensures exists m: nat, j: nat :: Holds(l, n, i, m, j) && ItemAt(l, m, j) == kv && !Hidden(l, m, kv.key)
    decreases 2 - n, Length(l, n) - i
  {
    if i == Length(l, n) {
      RemainingSound(l, n + 1, 0, kv);
      var m: nat, j: nat :| Holds(l, n + 1, 0, m, j) && ItemAt(l, m, j) == kv && !Hidden(l, m, kv.key);
      assert Holds(l, n, i, m, j);
    } else if kv == ItemAt(l, n, i) && !Hidden(l, n, kv.key) {
      assert Holds(l, n, i, n, i);
    } else {
      RemainingSound(l, n, i + 1, kv);
      var m: nat, j: nat :| Holds(l, n, i + 1, m, j) && ItemAt(l, m, j) == kv && !Hidden(l, m, kv.key);
      assert Holds(l, n, i, m, j);
    }
  }

  /** A position in a layer at or after another. */
  predicate Holds(l: Layers, n: nat, i: nat, m: nat, j: nat) {
    n <= m <= 2 && j < Length(l, m) && (m == n ==> i <= j)
  }

  lemma {:induction false} RemainingComplete(l: Layers, n: nat, i: nat, m: nat, j: nat)
    requires Readable(l) && n <= 2 && i <= Length(l, n) && Holds(l, n, i, m, j)
    requires !Hidden(l, m, ItemAt(l, m, j).key)
    ensures ItemAt(l, m, j) in Remaining(l, n, i)
    decreases 2 - n, Length(l, n) - i
  {
    if i == Length(l, n) {
      RemainingComplete(l, n + 1, 0, m, j);
    } else if !(m == n && i == j) {
      RemainingComplete(l, n, i + 1, m, j);
    }
  }

  /** For any layers of a state, a scan yields a key with a value exactly if the key is in
      range and visible with that value. */
  lemma ScanIsVisible(l: Layers, s: State, inRange: Key -> bool, k: Key, v: Value)
    requires LayersOf(l, s, inRange) && Readable(l)
    ensures KeyValue(k, v) in Remaining(l, 0, 0) <==> inRange(k) && Lookup(Visible(s), k) == Some(v)
  {
    OverlaidLookup(BatchState(s), s.tx, k);
    OverlaidLookup(s.committed, s.batch, k);
    var kv := KeyValue(k, v);
    if kv in Remaining(l, 0, 0) {
      RemainingSound(l, 0, 0, kv);
      var m: nat, j: nat :| Holds(l, 0, 0, m, j) && ItemAt(l, m, j) == kv && !Hidden(l, m, kv.key);
      LayerSees(l, s, inRange, m, j);
    }
    if inRange(k) && Lookup(Visible(s), k) == Some(v) {
      var m, j := FindLayer(l, s, inRange, k, v);
      RemainingComplete(l, 0, 0, m, j);
    }
  }

  lemma LayerSees(l: Layers, s: State, inRange: Key -> bool, m: nat, j: nat)
    requires LayersOf(l, s, inRange) && Readable(l) && m <= 2 && j < Length(l, m) && !Hidden(l, m, ItemAt(l, m, j).key)
    ensures var kv := ItemAt(l, m, j);
            inRange(kv.key) && Get(s, kv.key, false) == Some(kv.value) && Lookup(Visible(s), kv.key) == Some(kv.value)
  {
    var kv := ItemAt(l, m, j);
    if m == 0 {
      assert kv.key in l.txKeys;
    } else if m == 1 {
      assert kv.key in l.batchKeys;
    }
    GetReadsVisible(s, kv.key);
  }

  lemma FindLayer(l: Layers, s: State, inRange: Key -> bool, k: Key, v: Value) returns (m: nat, j: nat)
    requires LayersOf(l, s, inRange) && Readable(l) && inRange(k) && Lookup(Visible(s), k) == Some(v)
    ensures m <= 2 && j < Length(l, m) && ItemAt(l, m, j) == KeyValue(k, v) && !Hidden(l, m, k)
  {
    GetReadsVisible(s, k);
    if k in s.tx {
      assert k in l.txKeys;
      m := 0;
      j :| 0 <= j < |l.txKeys| && l.txKeys[j] == k;
    } else if k in s.batch {
      assert k in l.batchKeys;
      m := 1;
      j :| 0 <= j < |l.batchKeys| && l.batchKeys[j] == k;
    } else {
      m := 2;
      j :| 0 <= j < |l.items| && l.items[j].key == k;
    }
  }

  /** An item that is not hidden does not come again later. */
  lemma ComesOnce(l: Layers, s: State, inRange: Key -> bool, n: nat, i: nat, kv: KeyValue)
    requires LayersOf(l, s, inRange) && Readable(l) && n <= 2 && i < Length(l, n)
    requires kv in Remaining(l, n, i + 1)
    ensures kv.key != ItemAt(l, n, i).key
  {
    RemainingSound(l, n, i + 1, kv);
    var m: nat, j: nat :| Holds(l, n, i + 1, m, j) && ItemAt(l, m, j) == kv && !Hidden(l, m, kv.key);
    if m > n && n == 0 {
      assert ItemAt(l, n, i).key in l.txKeys;
    } else if m > n {
      assert ItemAt(l, n, i).key in l.batchKeys;
    }
  }

  ghost predicate NoRepeats(items: seq<KeyValue>) {
    forall a, b :: 0 <= a < b < |items| ==> items[a].key != items[b].key
  }

  /** No key comes twice. */
  lemma {:induction false} ScanHasNoRepeats(l: Layers, s: State, inRange: Key -> bool, n: nat, i: nat)
    requires LayersOf(l, s, inRange) && Readable(l) && n <= 2 && i <= Length(l, n)
    ensures NoRepeats(Remaining(l, n, i))
    decreases 2 - n, Length(l, n) - i
  {
    if i == Length(l, n) {
      if n < 2 {
        ScanHasNoRepeats(l, s, inRange, n + 1, 0);
        assert Remaining(l, n, i) == Remaining(l, n + 1, 0);
      }
    } else {
      ScanHasNoRepeats(l, s, inRange, n, i + 1);
      var rest := Remaining(l, n, i + 1);
      forall b | 0 <= b < |rest| ensures rest[b].key != ItemAt(l, n, i).key {
        ComesOnce(l, s, inRange, n, i, rest[b]);
      }
    }
  }

  // ---------------------------------------------------------------- the iterator

  class CompositeRangeScanIterator {
    const layers: Layers
    var currentItrNumber: nat
    var next: nat                      // how far the current layer's iterator has advanced
    ghost var yielded: seq<KeyValue>   // what it has moved to so far
    ghost var ended: bool

    /** What has been yielded and what is to come are the whole scan, and the iterator stands
        on the item it moved to last. */
    ghost predicate Valid()
      reads this
    {
      && Readable(layers) && currentItrNumber <= 2 && next <= Length(layers, currentItrNumber)
      && yielded + Rest() == Remaining(layers, 0, 0)
      && (yielded != [] && !ended ==>
            next > 0 && ItemAt(layers, currentItrNumber, next - 1) == yielded[|yielded| - 1])
    }

    constructor (layers: Layers)
      requires Readable(layers)
      ensures Valid() && this.layers == layers && yielded == [] && !ended
    {
      this.layers, currentItrNumber, next, yielded, ended := layers, 0, 0, [], false;
    }

    ghost function Rest(): seq<KeyValue>
      requires Readable(layers) && currentItrNumber <= 2 && next <= Length(layers, currentItrNumber)
      reads this
    {
      Remaining(layers, currentItrNumber, next)
    }

    /** Moves to the next visible item, if there is one. */
    method Next() returns (ok: bool)
      requires Valid()
      modifies this
      ensures Valid() && (ok <==> old(Rest()) != []) && ended == !ok
      ensures ok ==> yielded == old(yielded) + [old(Rest())[0]] && Rest() == old(Rest())[1..]
      ensures !ok ==> yielded == old(yielded) && Rest() == []
    {
      ok := Advance();
      if ok {
        yielded := yielded + [old(Rest())[0]];
      }
      ended := !ok;
    }

    /** The walk: hidden items are passed over, and at the end of a layer the next begins. */
    method Advance() returns (ok: bool)
      requires Readable(layers) && currentItrNumber <= 2 && next <= Length(layers, currentItrNumber)
      modifies this`currentItrNumber, this`next
      ensures currentItrNumber <= 2 && next <= Length(layers, currentItrNumber) && (ok <==> old(Rest()) != [])
      ensures ok ==> next > 0 && ItemAt(layers, currentItrNumber, next - 1) == old(Rest())[0] && Rest() == old(Rest())[1..]
      ensures !ok ==> Rest() == []
      decreases 2 - currentItrNumber
    {
      var keyAvailable := next < Length(layers, currentItrNumber);
      while keyAvailable && Hidden(layers, currentItrNumber, ItemAt(layers, currentItrNumber, next).key)
        invariant next <= Length(layers, currentItrNumber) && currentItrNumber == old(currentItrNumber) && Rest() == old(Rest())
        invariant keyAvailable <==> next < Length(layers, currentItrNumber)
        decreases Length(layers, currentItrNumber) - next
      {
        next := next + 1;
        keyAvailable := next < Length(layers, currentItrNumber);
      }
      if keyAvailable {
        next := next + 1;
        return true;
      }
      if currentItrNumber == 2 {
        return false;
      }
      currentItrNumber, next := currentItrNumber + 1, 0;
      ok := Advance();
    }

    /** The item the iterator moved to last. */
    method GetKeyValue() returns (kv: KeyValue)
      requires Valid() && yielded != [] && !ended
      ensures kv == yielded[|yielded| - 1]
    {
      kv := ItemAt(layers, currentItrNumber, next - 1);
    }
  }

  /** Walks an iterator to its end. */
  method Collect(l: Layers) returns (items: seq<KeyValue>)
    requires Readable(l)
    ensures items == Remaining(l, 0, 0)
  {
    var itr := new CompositeRangeScanIterator(l);
    items := [];
    var more := true;
    while more
      invariant itr.Valid() && itr.layers == l && items == itr.yielded && (!more ==> itr.Rest() == [])
      decreases |itr.Rest()|, more
    {
      more := itr.Next();
      if more {
        var kv := itr.GetKeyValue();
        items := items + [kv];
      }
    }
    assert items + [] == items;
  }

  /** A scan from beginning to end inside a transaction: the visible items in range, each once. */
  method ScanAll(l: Layers, ghost s: State, ghost inRange: Key -> bool) returns (items: seq<KeyValue>)
    requires LayersOf(l, s, inRange)
    ensures NoRepeats(items)
    ensures forall k, v :: KeyValue(k, v) in items <==> inRange(k) && Lookup(Visible(s), k) == Some(v)
  {
    LayersAreReadable(l, s, inRange);
    items := Collect(l);
    ScanHasNoRepeats(l, s, inRange, 0, 0);
    forall k, v ensures KeyValue(k, v) in items <==> inRange(k) && Lookup(Visible(s), k) == Some(v) {
      ScanIsVisible(l, s, inRange, k, v);
    }
  }
}
