/** The serialised form of a state delta, in which deltas are stored with each block and sent
    to other peers.  Maps are written in whatever order they are walked, so writing is judged
    by what is read back. */
module DeltaCodec {
  import opened Common
  import opened Codec
  import opened StateTypes

  const MAX_INT: int := 0x8000_0000_0000_0000   // lengths at or above this are negative as int

  type ChaincodeDelta = map<Bytes, UpdatedValue>
  type Nested = map<Bytes, ChaincodeDelta>

  // ---------------------------------------------------------------- reading

  // A value read and what is left of the buffer.
  datatype Read<+T> = Error | Ok(value: T, rest: Bytes)

  function GetVarint(b: Bytes): Read<nat> {
    match Scan(b, 0, 0, 0)
    case Value(v, next) => Ok(v, b[next..])
    case _ => Error
  }

  function GetRaw(b: Bytes): Read<Bytes> {
    match GetVarint(b)
    case Error => Error
    case Ok(n, rest) => if n >= MAX_INT || n > |rest| then Error else Ok(rest[..n], rest[n..])
  }

  function GetEntry(b: Bytes): Read<(Bytes, UpdatedValue)> {
    match GetRaw(b)
    case Error => Error
    case Ok(key, b1) =>
      match GetRaw(b1)
      case Error => Error
      case Ok(value, b2) =>
        match GetRaw(b2)
        case Error => Error
        case Ok(previous, b3) => Ok((key, UpdatedValue(NilIfEmpty(value), NilIfEmpty(previous))), b3)
  }

  /** `count` entries read one after the other on top of `sofar`; a later one for the same key
      wins, and the first error is the result. */
  function GetMany<V>(get: Bytes -> Read<(Bytes, V)>, b: Bytes, count: nat, sofar: map<Bytes, V>): Read<map<Bytes, V>>
    decreases count
  {
    if count == 0 then Ok(sofar, b)
    else
      match get(b)
      case Error => Error
      case Ok(kv, rest) => GetMany(get, rest, count - 1, sofar[kv.0 := kv.1])
  }

  function GetMap<V>(get: Bytes -> Read<(Bytes, V)>, b: Bytes): Read<map<Bytes, V>> {
    match GetVarint(b)
    case Error => Error
    case Ok(count, rest) => GetMany(get, rest, count, map[])
  }

  function GetKVs(b: Bytes): Read<ChaincodeDelta> {
    GetMap(GetEntry, b)
  }

  function GetGroup(b: Bytes): Read<(Bytes, ChaincodeDelta)> {
    match GetRaw(b)
    case Error => Error
    case Ok(id, b1) =>
      match GetKVs(b1)
      case Error => Error
      case Ok(kvs, b2) => Ok((id, kvs), b2)
  }

  function GetDelta(b: Bytes): Read<Nested> {
    GetMap(GetGroup, b)
  }

  /** `Unmarshal`: what follows the last part is ignored. */
  function Unmarshal(b: Bytes): Option<Nested> {
    match GetDelta(b)
    case Error => None
    case Ok(d, _) => Some(d)
  }

  // ---------------------------------------------------------------- bytes that read as a value

  /** `get` reads `v` from the front of `chunk + post` and stops behind the chunk. */
  ghost predicate Reads<T(!new)>(get: Bytes -> Read<T>, chunk: Bytes, v: T, post: Bytes) {
    get(chunk + post) == Ok(v, post)
  }

  ghost predicate IsVarint(chunk: Bytes, n: nat) {
    forall post :: Reads<nat>(GetVarint, chunk, n, post)
  }

  ghost predicate IsRaw(chunk: Bytes, x: Bytes) {
    forall post :: Reads<Bytes>(GetRaw, chunk, x, post)
  }

  ghost predicate IsPair<V(!new)>(get: Bytes -> Read<(Bytes, V)>, chunk: Bytes, k: Bytes, v: V) {
    forall post :: Reads<(Bytes, V)>(get, chunk, (k, v), post)
  }

  ghost predicate IsKVs(chunk: Bytes, d: ChaincodeDelta) {
    forall post :: Reads<ChaincodeDelta>(GetKVs, chunk, d, post)
  }

  ghost predicate IsDelta(chunk: Bytes, d: Nested) {
    forall post :: Reads<Nested>(GetDelta, chunk, d, post)
  }

  lemma VarintHolds(x: Uint64)
    ensures IsVarint(Varint(x), x)
  {
    forall post ensures Reads<nat>(GetVarint, Varint(x), x, post) {
      assert [] + Varint(x) + post == Varint(x) + post;
      VarintRoundTrip([], x, post);
    }
  }

  lemma RawHolds(size: Bytes, x: Bytes)
    requires |x| < MAX_INT && IsVarint(size, |x|)
    ensures IsRaw(size + x, x)
  {
    forall post ensures Reads<Bytes>(GetRaw, size + x, x, post) {
      assert size + x + post == size + (x + post);
      assert Reads<nat>(GetVarint, size, |x|, x + post);
    }
  }

  lemma EntryHolds(k: Bytes, v: Bytes, p: Bytes, key: Bytes, value: Bytes, previous: Bytes)
    requires IsRaw(k, key) && IsRaw(v, value) && IsRaw(p, previous)
    ensures IsPair(GetEntry, k + v + p, key, UpdatedValue(NilIfEmpty(value), NilIfEmpty(previous)))
  {
    var u := UpdatedValue(NilIfEmpty(value), NilIfEmpty(previous));
    forall post ensures Reads<(Bytes, UpdatedValue)>(GetEntry, k + v + p, (key, u), post) {
      assert k + v + p + post == k + (v + (p + post));
      assert Reads<Bytes>(GetRaw, k, key, v + (p + post));
      assert Reads<Bytes>(GetRaw, v, value, p + post);
      assert Reads<Bytes>(GetRaw, p, previous, post);
    }
  }

  lemma GroupHolds(i: Bytes, m: Bytes, id: Bytes, kvs: ChaincodeDelta)
    requires IsRaw(i, id) && IsKVs(m, kvs)
    ensures IsPair(GetGroup, i + m, id, kvs)
  {
    forall post ensures Reads<(Bytes, ChaincodeDelta)>(GetGroup, i + m, (id, kvs), post) {
      assert i + m + post == i + (m + post);
      assert Reads<Bytes>(GetRaw, i, id, m + post);
      assert Reads<ChaincodeDelta>(GetKVs, m, kvs, post);
    }
  }

  /** Reading `size` entries from `body` adds `m` to whatever was read before. */
  ghost predicate Adds<V(!new)>(get: Bytes -> Read<(Bytes, V)>, body: Bytes, size: nat, m: map<Bytes, V>) {
    forall post, n, sofar :: AddsTo(get, body, size, m, post, n, sofar)
  }

  ghost predicate AddsTo<V(!new)>(get: Bytes -> Read<(Bytes, V)>, body: Bytes, size: nat, m: map<Bytes, V>,
                                  post: Bytes, n: nat, sofar: map<Bytes, V>) {
    GetMany(get, body + post, size + n, sofar) == GetMany(get, post, n, sofar + m)
  }

  lemma AddsNothing<V(!new)>(get: Bytes -> Read<(Bytes, V)>)
    ensures Adds(get, [], 0, map[])
  {
    forall post, n, sofar: map<Bytes, V> ensures AddsTo(get, [], 0, map[], post, n, sofar) {
      assert [] + post == post && sofar + map[] == sofar;
    }
  }

  lemma AddsOne<V(!new)>(get: Bytes -> Read<(Bytes, V)>, body: Bytes, size: nat, m: map<Bytes, V>, chunk: Bytes,
                         k: Bytes, v: V)
    requires Adds(get, body, size, m) && IsPair(get, chunk, k, v)
    ensures Adds(get, body + chunk, size + 1, m[k := v])
  {
    var body', size', m' := body + chunk, size + 1, m[k := v];
    forall post, n: nat, sofar: map<Bytes, V> ensures AddsTo(get, body', size', m', post, n, sofar) {
      assert body' + post == body + (chunk + post) && size' + n == size + (n + 1);
      assert AddsTo(get, body, size, m, chunk + post, n + 1, sofar);
      assert Reads<(Bytes, V)>(get, chunk, (k, v), post);
      assert (sofar + m)[k := v] == sofar + m';
    }
  }

  lemma MapAt<V(!new)>(get: Bytes -> Read<(Bytes, V)>, count: Bytes, body: Bytes, size: nat, m: map<Bytes, V>,
                       post: Bytes)
    requires IsVarint(count, size) && Adds(get, body, size, m)
    ensures GetMap(get, count + body + post) == Ok(m, post)
  {
    assert count + body + post == count + (body + post);
    assert Reads<nat>(GetVarint, count, size, body + post);
    assert AddsTo(get, body, size, m, post, 0, map[]);
    assert map[] + m == m;
  }

  lemma KVsHold(count: Bytes, body: Bytes, size: nat, d: ChaincodeDelta)
    requires IsVarint(count, size) && Adds(GetEntry, body, size, d)
    ensures IsKVs(count + body, d)
  {
    forall post ensures Reads<ChaincodeDelta>(GetKVs, count + body, d, post) {
      MapAt(GetEntry, count, body, size, d, post);
    }
  }

  lemma DeltaHolds(count: Bytes, body: Bytes, size: nat, d: Nested)
    requires IsVarint(count, size) && Adds(GetGroup, body, size, d)
    ensures IsDelta(count + body, d)
  {
    forall post ensures Reads<Nested>(GetDelta, count + body, d, post) {
      MapAt(GetGroup, count, body, size, d, post);
    }
  }

  // ---------------------------------------------------------------- writing

  // Lengths as they come: those of slices and maps in memory.
  ghost predicate FitsEntry(k: Bytes, u: UpdatedValue) {
    |k| < MAX_INT && |OrEmpty(u.value)| < MAX_INT && |OrEmpty(u.previous)| < MAX_INT
  }

  ghost predicate FitsKVs(d: ChaincodeDelta) {
    |d| < MAX_INT && forall k :: k in d ==> FitsEntry(k, d[k])
  }

  ghost predicate Fits(d: Nested) {
    |d| < MAX_INT && forall id :: id in d ==> |id| < MAX_INT && FitsKVs(d[id])
  }

  /** The updated value with empty byte strings turned into none. */
  function Normal(u: UpdatedValue): UpdatedValue {
    UpdatedValue(Stored(u.value), Stored(u.previous))
  }

  function NormalKVs(d: ChaincodeDelta): ChaincodeDelta {
    map k | k in d :: Normal(d[k])
  }

  function NormalDelta(d: Nested): Nested {
    map id | id in d :: NormalKVs(d[id])
  }

  /** The part of `m` already walked. */
  function Walked<V>(m: map<Bytes, V>, todo: set<Bytes>): map<Bytes, V> {
    map k | k in m && k !in todo :: m[k]
  }

  /** `body` holds all of `m` but the keys in `todo`. */
  ghost predicate Written<V(!new)>(get: Bytes -> Read<(Bytes, V)>, m: map<Bytes, V>, todo: set<Bytes>, body: Bytes) {
    todo <= m.Keys && |todo| <= |m.Keys| && Adds(get, body, |m.Keys| - |todo|, Walked(m, todo))
  }

  lemma WrittenNone<V(!new)>(get: Bytes -> Read<(Bytes, V)>, m: map<Bytes, V>)
    ensures Written(get, m, m.Keys, [])
  {
    AddsNothing(get);
    assert Walked(m, m.Keys) == map[];
  }

  lemma WrittenOne<V(!new)>(get: Bytes -> Read<(Bytes, V)>, m: map<Bytes, V>, todo: set<Bytes>, body: Bytes,
                            k: Bytes, chunk: Bytes)
    requires Written(get, m, todo, body) && k in todo && IsPair(get, chunk, k, m[k])
    ensures Written(get, m, todo - {k}, body + chunk)
  {
    AddsOne(get, body, |m.Keys| - |todo|, Walked(m, todo), chunk, k, m[k]);
    assert Walked(m, todo)[k := m[k]] == Walked(m, todo - {k});
    assert |todo - {k}| == |todo| - 1;
  }

  lemma WrittenAll<V(!new)>(get: Bytes -> Read<(Bytes, V)>, m: map<Bytes, V>, body: Bytes)
    requires Written(get, m, {}, body)
    ensures Adds(get, body, |m.Keys|, m)
  {
    assert Walked(m, {}) == m;
  }

  method EncodeRawBytes(x: Bytes) returns (out: Bytes)
    requires |x| < MAX_INT
    ensures IsRaw(out, x)
  {
    var size := EncodeVarint(|x|);
    VarintHolds(|x|);
    RawHolds(size, x);
    out := size + x;
  }

  method EncodeEntry(k: Bytes, u: UpdatedValue) returns (out: Bytes)
    requires FitsEntry(k, u)
    ensures IsPair(GetEntry, out, k, Normal(u))
  {
    var key := EncodeRawBytes(k);
    var value := EncodeRawBytes(OrEmpty(u.value));
    var previous := EncodeRawBytes(OrEmpty(u.previous));
    EntryHolds(key, value, previous, k, OrEmpty(u.value), OrEmpty(u.previous));
    out := key + value + previous;
  }

  /** One chaincode's part, its keys in any order. */
  method MarshalKVs(d: ChaincodeDelta) returns (out: Bytes)
    requires FitsKVs(d)
    ensures IsKVs(out, NormalKVs(d))
  {
    ghost var m := NormalKVs(d);
    assert m.Keys == d.Keys;
    out := EncodeVarint(|d.Keys|);
    VarintHolds(|d.Keys|);
    var body: Bytes, todo := [], d.Keys;
    WrittenNone(GetEntry, m);
    while todo != {}
      invariant Written(GetEntry, m, todo, body)
      decreases |todo|
    {
      var k :| k in todo;
      var chunk := EncodeEntry(k, d[k]);
      WrittenOne(GetEntry, m, todo, body, k, chunk);
      body, todo := body + chunk, todo - {k};
    }
    WrittenAll(GetEntry, m, body);
    KVsHold(out, body, |m.Keys|, m);
    out := out + body;
  }

  method EncodeGroup(id: Bytes, d: ChaincodeDelta) returns (out: Bytes)
    requires |id| < MAX_INT && FitsKVs(d)
    ensures IsPair(GetGroup, out, id, NormalKVs(d))
  {
    var name := EncodeRawBytes(id);
    var kvs := MarshalKVs(d);
    GroupHolds(name, kvs, id, NormalKVs(d));
    out := name + kvs;
  }

  /** `Marshal`, the chaincodes in any order. */
  method Marshal(d: Nested) returns (out: Bytes)
    requires Fits(d)
    ensures IsDelta(out, NormalDelta(d))
  {
    ghost var m := NormalDelta(d);
    assert m.Keys == d.Keys;
    out := EncodeVarint(|d.Keys|);
    VarintHolds(|d.Keys|);
    var body: Bytes, todo := [], d.Keys;
    WrittenNone(GetGroup, m);
    while todo != {}
      invariant Written(GetGroup, m, todo, body)
      decreases |todo|
    {
      var id :| id in todo;
      var chunk := EncodeGroup(id, d[id]);
      WrittenOne(GetGroup, m, todo, body, id, chunk);
      body, todo := body + chunk, todo - {id};
    }
    WrittenAll(GetGroup, m, body);
    DeltaHolds(out, body, |m.Keys|, m);
    out := out + body;
  }

  /** Both loops of `Unmarshal`: the announced number of entries, up to the first error. */
  method DecodeMany<V>(get: Bytes -> Read<(Bytes, V)>, b: Bytes, count: nat) returns (r: Read<map<Bytes, V>>)
    ensures r == GetMany(get, b, count, map[])
  {
    var m: map<Bytes, V> := map[];
    var rest, i := b, 0;
    while i < count
      invariant 0 <= i <= count
      invariant GetMany(get, rest, count - i, m) == GetMany(get, b, count, map[])
    {
      var e := get(rest);
      if e.Error? {
        return Error;
      }
      m, rest, i := m[e.value.0 := e.value.1], e.rest, i + 1;
    }
    r := Ok(m, rest);
  }

  // ---------------------------------------------------------------- what survives

  predicate NonEmpty(u: UpdatedValue) {
    u.value != Some([]) && u.previous != Some([])
  }

  predicate NonEmptyKVs(d: ChaincodeDelta) {
    forall k :: k in d ==> NonEmpty(d[k])
  }

  /** No value and no previous value is the empty byte string. */
  predicate NoEmptyValues(d: Nested) {
    forall id :: id in d ==> NonEmptyKVs(d[id])
  }

  lemma NormalKVsIff(d: ChaincodeDelta)
    ensures NormalKVs(d) == d <==> NonEmptyKVs(d)
  {
    assert forall u :: Normal(u) == u <==> NonEmpty(u);
    forall k | k in d && !NonEmpty(d[k]) ensures NormalKVs(d) != d {
      assert NormalKVs(d)[k] != d[k];
    }
  }

  lemma NormalIff(d: Nested)
    ensures NormalDelta(d) == d <==> NoEmptyValues(d)
  {
    forall id | id in d ensures NormalDelta(d)[id] == d[id] <==> NonEmptyKVs(d[id]) {
      NormalKVsIff(d[id]);
    }
  }

  /** A delta survives being stored if and only if it holds no empty value: an empty one comes
      back as a deletion, and an empty previous value as none. */
  lemma RoundTripIff(d: Nested, stored: Bytes)
    requires IsDelta(stored, NormalDelta(d))
    ensures Unmarshal(stored) == Some(NormalDelta(d))
    ensures Unmarshal(stored) == Some(d) <==> NoEmptyValues(d)
  {
    assert stored + [] == stored;
    assert Reads<Nested>(GetDelta, stored, NormalDelta(d), []);
    NormalIff(d);
  }

  /** A key set to the empty byte string is stored as a deletion of that key. */
  lemma EmptyValueBecomesDeletion(id: Bytes, key: Bytes, stored: Bytes)
    requires IsDelta(stored, NormalDelta(map[id := map[key := UpdatedValue(Some([]), None)]]))
    ensures Unmarshal(stored) == Some(map[id := map[key := UpdatedValue(None, None)]])
  {
    var d: Nested := map[id := map[key := UpdatedValue(Some([]), None)]];
    RoundTripIff(d, stored);
    assert NormalKVs(d[id]) == map[key := UpdatedValue(None, None)];
    assert NormalDelta(d) == map[id := map[key := UpdatedValue(None, None)]];
  }

  lemma {:induction false} ManyKeep<V>(get: Bytes -> Read<(Bytes, V)>, ok: V -> bool, b: Bytes, count: nat,
                                       sofar: map<Bytes, V>)
    requires forall c :: get(c).Ok? ==> ok(get(c).value.1)
    requires forall k :: k in sofar ==> ok(sofar[k])
    ensures var r := GetMany(get, b, count, sofar); r.Ok? ==> forall k :: k in r.value ==> ok(r.value[k])
    decreases count
  {
    if count > 0 && get(b).Ok? {
      ManyKeep(get, ok, get(b).rest, count - 1, sofar[get(b).value.0 := get(b).value.1]);
    }
  }

  /** Whatever the bytes, a delta read from them holds no empty value: storing what was read
      loses nothing more. */
  lemma UnmarshalNeverEmpty(b: Bytes)
    ensures Unmarshal(b).Some? ==> NoEmptyValues(Unmarshal(b).value)
  {
    forall c ensures GetGroup(c).Ok? ==> NonEmptyKVs(GetGroup(c).value.1) {
      if GetGroup(c).Ok? {
        var size := GetVarint(GetRaw(c).rest);
        ManyKeep(GetEntry, NonEmpty, size.rest, size.value, map[]);
      }
    }
    var size := GetVarint(b);
    if size.Ok? {
      ManyKeep(GetGroup, NonEmptyKVs, size.rest, size.value, map[]);
    }
  }

  // ---------------------------------------------------------------- flat and nested

  /** The changes of one chaincode. */
  function OfChaincode(d: Delta, id: Bytes): ChaincodeDelta {
    map key | key in (set k | k in d && k.0 == id :: k.1) :: d[(id, key)]
  }

  /** A delta as it is kept and written, chaincode by chaincode. */
  function Nest(d: Delta): Nested {
    map id | id in (set k | k in d :: k.0) :: OfChaincode(d, id)
  }

  function Pairs(n: Nested): set<Key> {
    set id, key | id in n && key in n[id] :: (id, key)
  }

  function Flat(n: Nested): Delta {
    map k | k in Pairs(n) :: n[k.0][k.1]
  }

  function NormalFlat(d: Delta): Delta {
    map k | k in d :: Normal(d[k])
  }

  lemma NestAt(d: Delta, k: Key)
    ensures k in d <==> k.0 in Nest(d) && k.1 in Nest(d)[k.0]
    ensures k in d ==> Nest(d)[k.0][k.1] == d[k]
  {
    if k.0 in Nest(d) && k.1 in Nest(d)[k.0] {
      var j :| j in d && j.0 == k.0 && j.1 == k.1;
      assert j == k;
    }
  }

  lemma FlatAt(d: Delta, k: Key)
    ensures k in Flat(NormalDelta(Nest(d))) <==> k in d
    ensures k in d ==> Flat(NormalDelta(Nest(d)))[k] == Normal(d[k])
  {
    NestAt(d, k);
    var n := NormalDelta(Nest(d));
    assert k in Pairs(n) <==> k.0 in n && k.1 in n[k.0];
  }

  /** The changes loaded from what was stored for a delta; anything that does not decode
      loads as no change. */
  function Loaded(stored: Bytes): Delta {
    match Unmarshal(stored)
    case None => map[]
    case Some(n) => Flat(n)
  }

  /** A stored delta loads with its empty values turned into none, and is otherwise the
      delta that was stored. */
  lemma LoadedIsNormal(d: Delta, stored: Bytes)
    requires IsDelta(stored, NormalDelta(Nest(d)))
    ensures Loaded(stored) == NormalFlat(d)
  {
    RoundTripIff(Nest(d), stored);
    forall k ensures k in Loaded(stored) <==> k in NormalFlat(d) {
      FlatAt(d, k);
    }
    forall k | k in d ensures Loaded(stored)[k] == NormalFlat(d)[k] {
      FlatAt(d, k);
    }
  }
}
