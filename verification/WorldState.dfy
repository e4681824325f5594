/** The world state under execution: the committed map, the changes of the ongoing batch
    and those of the ongoing transaction, each a delta that remembers the committed value
    it replaces. */
module WorldState {
  import opened Common
  import opened Codec
  import opened StateTypes

  /** What a delta in memory makes of the state below it; an empty value is a value here. */
  function Overlaid(m: KVs, d: Delta): KVs {
    map k | k in m.Keys + d.Keys && OverlaidAt(m, d, k).Some? :: OverlaidAt(m, d, k).value
  }

  function OverlaidAt(m: KVs, d: Delta, k: Key): Option<Value> {
    if k in d then d[k].value else Lookup(m, k)
  }

  lemma OverlaidLookup(m: KVs, d: Delta, k: Key)
    ensures Lookup(Overlaid(m, d), k) == OverlaidAt(m, d, k)
  {
  }

  // ---------------------------------------------------------------- deltas

  /** `Set` and `Delete` of a delta: a key already changed keeps its previous value. */
  function Changed(d: Delta, k: Key, v: Option<Value>, previous: Option<Value>): Delta {
    d[k := UpdatedValue(v, if k in d then d[k].previous else previous)]
  }

  /** `ApplyChanges`: the other delta's values win, existing previous values stay. */
  function Merged(d: Delta, other: Delta): Delta {
    map k | k in d.Keys + other.Keys ::
      if k in other then UpdatedValue(other[k].value, if k in d then d[k].previous else other[k].previous) else d[k]
  }

  function Restrict(d: Delta, keys: set<Key>): Delta {
    map k | k in d && k in keys :: d[k]
  }

  lemma MergeOne(d: Delta, other: Delta, done: set<Key>, k: Key)
    requires k in other && k !in done
    ensures Changed(Merged(d, Restrict(other, done)), k, other[k].value, other[k].previous)
         == Merged(d, Restrict(other, done + {k}))
  {
  }

  datatype State = State(
    committed: KVs,
    batch: Delta,
    tx: Delta,
    currentTx: string,        // empty when no transaction is open
    succeeded: set<string>,   // the transactions with an entry in txStateDeltaHash
    panicked: bool)

  function Fresh(committed: KVs): State {
    State(committed, map[], map[], "", {}, false)
  }

  /** The state the batch has built up, and the one the open transaction sees. */
  function BatchState(s: State): KVs {
    Overlaid(s.committed, s.batch)
  }

  function Visible(s: State): KVs {
    Overlaid(BatchState(s), s.tx)
  }

  function TxBegin(s: State, uuid: string): State {
    if s.currentTx != "" then s.(panicked := true) else s.(currentTx := uuid)
  }

  function Change(s: State, k: Key, v: Option<Value>): State {
    if s.currentTx == "" then s.(panicked := true)
    else s.(tx := Changed(s.tx, k, v, if k in s.tx then None else Lookup(s.committed, k)))
  }

  function TxFinish(s: State, uuid: string, ok: bool): State {
    if s.currentTx != uuid then s.(panicked := true)
    else if ok then
      s.(batch := if s.tx == map[] then s.batch else Merged(s.batch, s.tx), succeeded := s.succeeded + {uuid},
         tx := map[], currentTx := "")
    else s.(tx := map[], currentTx := "")
  }

  function Get(s: State, k: Key, committed: bool): Option<Value> {
    if !committed && k in s.tx then s.tx[k].value
    else if !committed && k in s.batch then s.batch[k].value
    else Lookup(s.committed, k)
  }

  /** A read finds the newest layer's value, or the committed one when asked for it. */
  lemma GetReadsVisible(s: State, k: Key)
    ensures Get(s, k, false) == Lookup(Visible(s), k)
    ensures Get(s, k, true) == Lookup(s.committed, k)
  {
    OverlaidLookup(BatchState(s), s.tx, k);
    OverlaidLookup(s.committed, s.batch, k);
  }

  /** A change is seen at once, and nothing else changes. */
  lemma ChangeIsPut(s: State, k: Key, v: Option<Value>)
    requires s.currentTx != ""
    ensures Visible(Change(s, k, v)) == Put(Visible(s), k, v)
    ensures BatchState(Change(s, k, v)) == BatchState(s)
  {
    var s' := Change(s, k, v);
    forall j ensures Lookup(Visible(s'), j) == Lookup(Put(Visible(s), k, v), j) {
      OverlaidLookup(BatchState(s'), s'.tx, j);
      OverlaidLookup(BatchState(s), s.tx, j);
    }
    SameLookups(Visible(s'), Put(Visible(s), k, v));
  }

  /** A transaction that succeeds hands what it saw to the batch, one that fails leaves the
      batch as it was; either way the next one starts from the batch. */
  lemma FinishMergesOrDiscards(s: State, uuid: string, ok: bool)
    requires s.currentTx == uuid
    ensures var s' := TxFinish(s, uuid, ok);
            BatchState(s') == (if ok then Visible(s) else BatchState(s)) && Visible(s') == BatchState(s')
  {
    var s' := TxFinish(s, uuid, ok);
    forall k ensures Lookup(BatchState(s'), k) == Lookup(if ok then Visible(s) else BatchState(s), k) {
      OverlaidLookup(s.committed, s'.batch, k);
      OverlaidLookup(s.committed, s.batch, k);
      OverlaidLookup(BatchState(s), s.tx, k);
    }
    SameLookups(BatchState(s'), if ok then Visible(s) else BatchState(s));
    forall k ensures Lookup(Visible(s'), k) == Lookup(BatchState(s'), k) {
      OverlaidLookup(BatchState(s'), s'.tx, k);
    }
    SameLookups(Visible(s'), BatchState(s'));
  }

  // ---------------------------------------------------------------- what a delta remembers

  /** A delta remembers the committed value of every key it changes, up to the difference
      between none and empty. */
  ghost predicate Remembers(committed: KVs, d: Delta) {
    forall k :: k in d ==> Stored(d[k].previous) == Lookup(committed, k)
  }

  datatype Op = Begin(uuid: string) | Write(key: Key, value: Option<Value>) | Finish(uuid: string, ok: bool)

  function Step(s: State, op: Op): State {
    match op
    case Begin(u) => TxBegin(s, u)
    case Write(k, v) => Change(s, k, v)
    case Finish(u, ok) => TxFinish(s, u, ok)
  }

  function Run(s: State, ops: seq<Op>): State
    decreases |ops|
  {
    if ops == [] then s else Run(Step(s, ops[0]), ops[1..])
  }

  lemma ChangeRemembers(committed: KVs, d: Delta, k: Key, v: Option<Value>, previous: Option<Value>)
    requires Remembers(committed, d) && (k in d || Stored(previous) == Lookup(committed, k))
    ensures Remembers(committed, Changed(d, k, v, previous))
  {
  }

  lemma MergeRemembers(committed: KVs, d: Delta, other: Delta)
    requires Remembers(committed, d) && Remembers(committed, other)
    ensures Remembers(committed, Merged(d, other))
  {
  }

  lemma StoredLookup(m: KVs, k: Key)
    requires NoEmpty(m)
    ensures Stored(Lookup(m, k)) == Lookup(m, k)
  {
  }

  ghost predicate BothRemember(s: State) {
    Remembers(s.committed, s.batch) && Remembers(s.committed, s.tx)
  }

  lemma WriteRemembers(s: State, k: Key, v: Option<Value>)
    requires NoEmpty(s.committed) && BothRemember(s)
    ensures BothRemember(Change(s, k, v))
  {
    StoredLookup(s.committed, k);
    ChangeRemembers(s.committed, s.tx, k, v, if k in s.tx then None else Lookup(s.committed, k));
  }

  lemma StepRemembers(s: State, op: Op)
    requires NoEmpty(s.committed) && BothRemember(s)
    ensures Step(s, op).committed == s.committed && BothRemember(Step(s, op))
  {
    match op
    case Begin(_) =>
    case Write(k, v) => WriteRemembers(s, k, v);
    case Finish(_, _) => MergeRemembers(s.committed, s.batch, s.tx);
  }

  lemma {:induction false} RunRemembers(s: State, ops: seq<Op>)
    requires NoEmpty(s.committed) && BothRemember(s)
    ensures Run(s, ops).committed == s.committed && BothRemember(Run(s, ops))
    decreases |ops|
  {
    if ops != [] {
      StepRemembers(s, ops[0]);
      RunRemembers(Step(s, ops[0]), ops[1..]);
    }
  }

  /** The operations are bracketed: with this transaction open (none if empty) they go on with
      writes inside a transaction, an end under its uuid, or a begin outside any. */
  predicate Bracketed(open: string, ops: seq<Op>)
    decreases |ops|
  {
    if ops == [] then true
    else
      match ops[0]
      case Begin(u) => open == "" && Bracketed(u, ops[1..])
      case Write(_, _) => open != "" && Bracketed(open, ops[1..])
      case Finish(u, _) => open == u && Bracketed("", ops[1..])
  }

  lemma {:induction false} PanicIsFinal(s: State, ops: seq<Op>)
    requires s.panicked
    ensures Run(s, ops).panicked
    decreases |ops|
  {
    if ops != [] {
      PanicIsFinal(Step(s, ops[0]), ops[1..]);
    }
  }

  /** For any operations in any order: the state panics if and only if they are not bracketed. */
  lemma {:induction false} PanicsIffNotBracketed(s: State, ops: seq<Op>)
    requires !s.panicked
    ensures Run(s, ops).panicked <==> !Bracketed(s.currentTx, ops)
    decreases |ops|
  {
    if ops != [] {
      var s' := Step(s, ops[0]);
      if s'.panicked {
        PanicIsFinal(s', ops[1..]);
      } else {
        PanicsIffNotBracketed(s', ops[1..]);
      }
    }
  }

  /** The state without its empty values. */
  function DropEmpty(m: KVs): KVs {
    map k | k in m && m[k] != [] :: m[k]
  }

  /** Committing a batch leaves the state it had built up, except that a key set to the
      empty value is gone. */
  lemma CommitKeepsBatchState(impl: Impl, s: State)
    requires NoEmpty(s.committed)
    ensures Committed(impl, s.committed, s.batch, false) == DropEmpty(BatchState(s))
  {
    var m' := Committed(impl, s.committed, s.batch, false);
    forall k ensures Lookup(m', k) == Lookup(DropEmpty(BatchState(s)), k) {
      CommittedLookup(impl, s.committed, s.batch, false, k);
      OverlaidLookup(s.committed, s.batch, k);
    }
    SameLookups(m', DropEmpty(BatchState(s)));
  }

  // ---------------------------------------------------------------- the state as an object

  class StateObject {
    var committed: KVs
    var stateDelta: Delta
    var currentTxStateDelta: Delta
    var currentTxUUID: string
    var txStateDeltaHash: set<string>
    var panicked: bool

    ghost function View(): State
      reads this
    {
      State(committed, stateDelta, currentTxStateDelta, currentTxUUID, txStateDeltaHash, panicked)
    }

    constructor (committed: KVs)
      ensures View() == Fresh(committed)
    {
      this.committed, stateDelta, currentTxStateDelta := committed, map[], map[];
      currentTxUUID, txStateDeltaHash, panicked := "", {}, false;
    }

    method Begin(uuid: string)
      modifies this
      ensures View() == TxBegin(old(View()), uuid)
    {
      if currentTxUUID != "" {
        panicked := true;
      } else {
        currentTxUUID := uuid;
      }
    }

    method Set(k: Key, v: Option<Value>)
      modifies this
      ensures View() == Change(old(View()), k, v)
    {
      if currentTxUUID == "" {
        panicked := true;
      } else if k in currentTxStateDelta {
        currentTxStateDelta := currentTxStateDelta[k := currentTxStateDelta[k].(value := v)];
      } else {
        var previous := Lookup(committed, k);
        currentTxStateDelta := currentTxStateDelta[k := UpdatedValue(v, previous)];
      }
    }

    /** The loop of `ApplyChanges`, one key of the other delta after the other. */
    method ApplyChanges(other: Delta)
      modifies this`stateDelta
      ensures stateDelta == Merged(old(stateDelta), other)
    {
      var todo, done := other.Keys, {};
      while todo != {}
        invariant todo !! done && todo + done == other.Keys
        invariant stateDelta == Merged(old(stateDelta), Restrict(other, done))
        decreases |todo|
      {
        var k :| k in todo;
        MergeOne(old(stateDelta), other, done, k);
        stateDelta := Changed(stateDelta, k, other[k].value, other[k].previous);
        todo, done := todo - {k}, done + {k};
      }
      assert Restrict(other, done) == other;
    }

    method Finish(uuid: string, ok: bool)
      modifies this
      ensures View() == TxFinish(old(View()), uuid, ok)
    {
      if currentTxUUID != uuid {
        panicked := true;
        return;
      }
      if ok {
        if currentTxStateDelta != map[] {
          ApplyChanges(currentTxStateDelta);
        }
        txStateDeltaHash := txStateDeltaHash + {uuid};
      }
      currentTxStateDelta := map[];
      currentTxUUID := "";
    }
  }
}
