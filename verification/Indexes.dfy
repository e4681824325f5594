/** The index column family: the entries one block contributes, and the theorem that
    looking an entry up is the same as scanning the chain. */
module Indexes {
  import opened Common
  import opened Codec
  import opened Blocks

  type Put = (Bytes, Bytes)
  type Index = map<Bytes, Bytes>

  // ---------------------------------------------------------------- write batches

  /** The effect of writing a batch, in order, in one atomic step. */
  function ApplyPuts(m: Index, puts: seq<Put>): Index {
    if puts == [] then m
    else ApplyPuts(m, puts[..|puts| - 1])[puts[|puts| - 1].0 := puts[|puts| - 1].1]
  }

  function LastPut(puts: seq<Put>, key: Bytes): Option<Bytes> {
    if puts == [] then None
    else if puts[|puts| - 1].0 == key then Some(puts[|puts| - 1].1)
    else LastPut(puts[..|puts| - 1], key)
  }

  function Lookup(m: Index, key: Bytes): Option<Bytes> {
    if key in m then Some(m[key]) else None
  }

  lemma {:induction false} LookupAfterPuts(m: Index, puts: seq<Put>, key: Bytes)
    ensures Lookup(ApplyPuts(m, puts), key)
         == if LastPut(puts, key).Some? then LastPut(puts, key) else Lookup(m, key)
    decreases |puts|
  {
    if puts != [] {
      LookupAfterPuts(m, puts[..|puts| - 1], key);
    }
  }

  lemma {:induction false} LastPutConcat(a: seq<Put>, b: seq<Put>, key: Bytes)
    ensures LastPut(a + b, key) == if LastPut(b, key).Some? then LastPut(b, key) else LastPut(a, key)
    decreases |b|
  {
    if b == [] {
      assert a + b == a;
    } else {
      assert (a + b)[..|a + b| - 1] == a + b[..|b| - 1];
      LastPutConcat(a, b[..|b| - 1], key);
    }
  }

  // ---------------------------------------------------------------- one block's entries

  // The eight characters of "address1", the only executing address the code knows.
  const Address1: Bytes := [97, 100, 100, 114, 101, 115, 115, 49]

  function UpTo(n: nat): (r: seq<nat>)
    ensures |r| == n && forall i :: 0 <= i < n ==> r[i] == i
  {
    seq(n, i => i)
  }

  function TxPuts(txs: seq<Transaction>, n: nat): seq<Put> {
    if txs == [] then []
    else
      var i := |txs| - 1;
      TxPuts(txs[..i], n) + [(TxUUIDKey(txs[i].uuid), BlockNumTxIndex(n, i))]
  }

  function AddressPuts(txs: seq<Transaction>, n: nat): seq<Put> {
    if txs == [] then [] else [(AddressBlockNumKey(Address1, n), ListTxIndexes(UpTo(|txs|)))]
  }

  function IndexPuts(b: Block, n: nat, hash: Bytes): seq<Put> {
    [(BlockHashKey(hash), Varint(n))] + TxPuts(b.transactions, n) + AddressPuts(b.transactions, n)
  }

  /** `addIndexDataForPersistence`: one entry for the block hash, one per transaction,
      then the transaction lists gathered per executing address. */
  method AddIndexDataForPersistence(b: Block, n: Uint64, hash: Bytes, batch: seq<Put>) returns (batch': seq<Put>)
    requires |b.transactions| < TWO64
    ensures batch' == batch + IndexPuts(b, n, hash)
  {
    var v := EncodeVarint(n);
    var own := [(BlockHashKey(hash), v)];
    var addressToTxIndexes: map<Bytes, seq<Uint64>> := map[];
    var txs := b.transactions;
    for i := 0 to |txs|
      invariant own == [(BlockHashKey(hash), Varint(n))] + TxPuts(txs[..i], n)
      invariant addressToTxIndexes == if i == 0 then map[] else map[Address1 := UpTo(i)]
    {
      var vi := EncodeVarint(i);
      own := own + [(TxUUIDKey(txs[i].uuid), v + vi)];
      var before := if Address1 in addressToTxIndexes then addressToTxIndexes[Address1] else [];
      assert before == UpTo(i) && before + [i] == UpTo(i + 1);
      addressToTxIndexes := addressToTxIndexes[Address1 := before + [i]];
      assert txs[..i + 1][..i] == txs[..i];
    }
    assert txs[..|txs|] == txs;
    var pending := addressToTxIndexes.Keys;
    ghost var written: seq<Put> := [];
    while pending != {}
      invariant pending <= addressToTxIndexes.Keys
      invariant written == if pending == addressToTxIndexes.Keys then [] else AddressPuts(txs, n)
      invariant own == [(BlockHashKey(hash), Varint(n))] + TxPuts(txs, n) + written
      decreases pending
    {
      var address :| address in pending;
      assert address == Address1 && pending == {Address1} == addressToTxIndexes.Keys;
      var list := EncodeListTxIndexes(addressToTxIndexes[address]);
      own := own + [(AddressBlockNumKey(address, n), list)];
      written := AddressPuts(txs, n);
      pending := pending - {address};
    }
    assert own == IndexPuts(b, n, hash);
    batch' := batch + own;
  }

  lemma {:induction false} LastTxPut(txs: seq<Transaction>, n: nat, uuid: Bytes, h: Bytes)
    ensures LastPut(TxPuts(txs, n), TxUUIDKey(uuid))
         == match LastIn(txs, uuid) case Some(i) => Some(BlockNumTxIndex(n, i)) case None => None
    ensures LastPut(TxPuts(txs, n), BlockHashKey(h)).None?
    decreases |txs|
  {
    if txs != [] {
      var i := |txs| - 1;
      var puts := TxPuts(txs, n);
      assert puts[..|puts| - 1] == TxPuts(txs[..i], n);
      assert TxUUIDKey(uuid)[1..] == uuid && TxUUIDKey(txs[i].uuid)[1..] == txs[i].uuid;
      assert BlockHashKey(h)[0] != TxUUIDKey(txs[i].uuid)[0];
      LastTxPut(txs[..i], n, uuid, h);
    }
  }

  /** Entries whose keys start with another byte do not matter to a lookup. */
  lemma {:induction false} OtherFamily(puts: seq<Put>, key: Bytes)
    requires key != []
    requires forall i :: 0 <= i < |puts| ==> puts[i].0 != [] && puts[i].0[0] != key[0]
    ensures LastPut(puts, key).None?
    decreases |puts|
  {
    if puts != [] {
      OtherFamily(puts[..|puts| - 1], key);
    }
  }

  lemma UUIDEntry(b: Block, n: nat, hash: Bytes, uuid: Bytes)
    ensures LastPut(IndexPuts(b, n, hash), TxUUIDKey(uuid))
         == match LastIn(b.transactions, uuid) case Some(i) => Some(BlockNumTxIndex(n, i)) case None => None
  {
    var txs, first, key := b.transactions, [(BlockHashKey(hash), Varint(n))], TxUUIDKey(uuid);
    LastPutConcat(first + TxPuts(txs, n), AddressPuts(txs, n), key);
    LastPutConcat(first, TxPuts(txs, n), key);
    OtherFamily(AddressPuts(txs, n), key);
    OtherFamily(first, key);
    LastTxPut(txs, n, uuid, hash);
  }

  lemma HashEntry(b: Block, n: nat, hash: Bytes, h: Bytes)
    ensures LastPut(IndexPuts(b, n, hash), BlockHashKey(h)) == if hash == h then Some(Varint(n)) else None
  {
    var txs, first, key := b.transactions, [(BlockHashKey(hash), Varint(n))], BlockHashKey(h);
    LastPutConcat(first + TxPuts(txs, n), AddressPuts(txs, n), key);
    LastPutConcat(first, TxPuts(txs, n), key);
    OtherFamily(AddressPuts(txs, n), key);
    LastTxPut(txs, n, hash, h);
    assert BlockHashKey(hash)[1..] == hash && BlockHashKey(h)[1..] == h;
    assert first[..0] == [];
  }

  // ---------------------------------------------------------------- a whole chain's index

  ghost predicate WellSized(blocks: seq<Block>) {
    && |blocks| < TWO64
    && forall i :: 0 <= i < |blocks| ==> |blocks[i].transactions| < TWO64
  }

  /** The index after the first k blocks have been indexed one by one, in order. */
  function IndexOfFirst(w: Wire, blocks: seq<Block>, k: nat): Index
    requires k <= |blocks|
  {
    if k == 0 then map[]
    else ApplyPuts(IndexOfFirst(w, blocks, k - 1), IndexPuts(blocks[k - 1], k - 1, w.HashOf(blocks[k - 1])))
  }

  function BuildIndex(w: Wire, blocks: seq<Block>): Index {
    IndexOfFirst(w, blocks, |blocks|)
  }

  lemma {:induction false} IndexOfPrefix(w: Wire, blocks: seq<Block>, b: Block, k: nat)
    requires k <= |blocks|
    ensures IndexOfFirst(w, blocks + [b], k) == IndexOfFirst(w, blocks, k)
    decreases k
  {
    if k > 0 {
      IndexOfPrefix(w, blocks, b, k - 1);
      assert (blocks + [b])[k - 1] == blocks[k - 1];
    }
  }

  /** What the last block of a prefix adds to a lookup. */
  lemma LookupOneMore(w: Wire, blocks: seq<Block>, n: nat, key: Bytes)
    requires n < |blocks|
    ensures var put := LastPut(IndexPuts(blocks[n], n, w.HashOf(blocks[n])), key);
            Lookup(IndexOfFirst(w, blocks, n + 1), key) == if put.Some? then put else Lookup(IndexOfFirst(w, blocks, n), key)
  {
    LookupAfterPuts(IndexOfFirst(w, blocks, n), IndexPuts(blocks[n], n, w.HashOf(blocks[n])), key);
  }

  /** The bytes the index holds for a transaction at a position. */
  function PositionEntry(at: Option<(nat, nat)>): Option<Bytes> {
    match at case Some(p) => Some(BlockNumTxIndex(p.0, p.1)) case None => None
  }

  lemma UUIDOneMore(w: Wire, blocks: seq<Block>, n: nat, uuid: Bytes)
    requires n < |blocks|
    ensures Lookup(IndexOfFirst(w, blocks, n + 1), TxUUIDKey(uuid))
         == match LastIn(blocks[n].transactions, uuid)
            case Some(i) => PositionEntry(Some((n, i)))
            case None => Lookup(IndexOfFirst(w, blocks, n), TxUUIDKey(uuid))
  {
    UUIDEntry(blocks[n], n, w.HashOf(blocks[n]), uuid);
    LookupOneMore(w, blocks, n, TxUUIDKey(uuid));
  }

  lemma HashOneMore(w: Wire, blocks: seq<Block>, n: nat, h: Bytes)
    requires n < |blocks|
    ensures Lookup(IndexOfFirst(w, blocks, n + 1), BlockHashKey(h))
         == if w.HashOf(blocks[n]) == h then Some(Varint(n)) else Lookup(IndexOfFirst(w, blocks, n), BlockHashKey(h))
  {
    HashEntry(blocks[n], n, w.HashOf(blocks[n]), h);
    LookupOneMore(w, blocks, n, BlockHashKey(h));
  }

  lemma LastTxOneMore(blocks: seq<Block>, n: nat, uuid: Bytes)
    requires n < |blocks|
    ensures LastTx(blocks[..n + 1], uuid)
         == match LastIn(blocks[n].transactions, uuid) case Some(i) => Some((n, i)) case None => LastTx(blocks[..n], uuid)
  {
    assert blocks[..n + 1][..n] == blocks[..n];
  }

  lemma LastHashOneMore(w: Wire, blocks: seq<Block>, n: nat, h: Bytes)
    requires n < |blocks|
    ensures LastWithHash(w, blocks[..n + 1], h) == if w.HashOf(blocks[n]) == h then Some(n) else LastWithHash(w, blocks[..n], h)
  {
    assert blocks[..n + 1][..n] == blocks[..n];
  }

  lemma {:induction false} UUIDIndexRefinesScan(w: Wire, blocks: seq<Block>, k: nat, uuid: Bytes)
    requires k <= |blocks|
    ensures Lookup(IndexOfFirst(w, blocks, k), TxUUIDKey(uuid)) == PositionEntry(LastTx(blocks[..k], uuid))
    decreases k
  {
    if k > 0 {
      UUIDIndexRefinesScan(w, blocks, k - 1, uuid);
      UUIDOneMore(w, blocks, k - 1, uuid);
      LastTxOneMore(blocks, k - 1, uuid);
    }
  }

  lemma {:induction false} HashIndexRefinesScan(w: Wire, blocks: seq<Block>, k: nat, h: Bytes)
    requires k <= |blocks|
    ensures Lookup(IndexOfFirst(w, blocks, k), BlockHashKey(h))
         == match LastWithHash(w, blocks[..k], h) case Some(n) => Some(Varint(n)) case None => None
    decreases k
  {
    if k > 0 {
      HashIndexRefinesScan(w, blocks, k - 1, h);
      HashOneMore(w, blocks, k - 1, h);
      LastHashOneMore(w, blocks, k - 1, h);
    }
  }

  /** The index of a prefix refines a scan of that prefix, for every uuid and every hash. */
  lemma IndexRefinesScan(w: Wire, blocks: seq<Block>, k: nat, uuid: Bytes, h: Bytes)
    requires k <= |blocks|
    ensures Lookup(IndexOfFirst(w, blocks, k), TxUUIDKey(uuid))
         == match LastTx(blocks[..k], uuid) case Some(p) => Some(BlockNumTxIndex(p.0, p.1)) case None => None
    ensures Lookup(IndexOfFirst(w, blocks, k), BlockHashKey(h))
         == match LastWithHash(w, blocks[..k], h) case Some(n) => Some(Varint(n)) case None => None
  {
    UUIDIndexRefinesScan(w, blocks, k, uuid);
    HashIndexRefinesScan(w, blocks, k, h);
  }

  lemma AddressEntry(b: Block, m: Uint64, hash: Bytes, address: Bytes, n: Uint64)
    requires |address| < TWO64
    ensures LastPut(IndexPuts(b, m, hash), AddressBlockNumKey(address, n))
         == if address == Address1 && n == m && b.transactions != [] then Some(ListTxIndexes(UpTo(|b.transactions|))) else None
  {
    var key := AddressBlockNumKey(address, n);
    var head, rest := [(BlockHashKey(hash), Varint(m))] + TxPuts(b.transactions, m), AddressPuts(b.transactions, m);
    LastPutConcat(head, rest, key);
    TxPutKeys(b.transactions, m);
    OtherFamily(head, key);
    if key == AddressBlockNumKey(Address1, m) {
      AddressKeyInjective(address, n, Address1, m);
    }
    if b.transactions != [] {
      assert rest[..0] == [];
    }
  }

  lemma {:induction false} TxPutKeys(txs: seq<Transaction>, n: nat)
    ensures forall i :: 0 <= i < |TxPuts(txs, n)| ==> TxPuts(txs, n)[i].0 != [] && TxPuts(txs, n)[i].0[0] == TxUUIDKey([])[0]
    decreases |txs|
  {
    if txs != [] {
      TxPutKeys(txs[..|txs| - 1], n);
    }
  }

  /** After indexing any prefix, the entry of an address and a block number is there exactly
      for the one executing address and the indexed blocks that have transactions, and lists
      all of the block's transactions in order. */
  lemma {:induction false} AddressIndexIs(w: Wire, blocks: seq<Block>, k: nat, address: Bytes, n: Uint64)
    requires WellSized(blocks) && k <= |blocks| && |address| < TWO64
    ensures Lookup(IndexOfFirst(w, blocks, k), AddressBlockNumKey(address, n))
         == if address == Address1 && n < k && blocks[n].transactions != [] then Some(ListTxIndexes(UpTo(|blocks[n].transactions|)))
            else None
    decreases k
  {
    if k > 0 {
      var m := k - 1;
      AddressIndexIs(w, blocks, m, address, n);
      AddressEntry(blocks[m], m, w.HashOf(blocks[m]), address, n);
      LookupOneMore(w, blocks, m, AddressBlockNumKey(address, n));
    }
  }

  // ---------------------------------------------------------------- the fetch functions

  datatype Fetched<T> = Found(value: T) | ResourceNotFound | Malformed

  function FetchTransactionIndexByUUID(m: Index, uuid: Bytes): Fetched<(nat, nat)> {
    match Lookup(m, TxUUIDKey(uuid))
    case None => ResourceNotFound
    case Some(bs) =>
      match DecodeBlockNumTxIndex(bs)
      case Some(p) => Found(p)
      case None => Malformed
  }

  /** A missing entry is decoded like any other value: it reads as block 0. */
  function FetchBlockNumberByBlockHash(m: Index, h: Bytes): nat {
    DecodeBlockNumber(match Lookup(m, BlockHashKey(h)) case Some(bs) => bs case None => [])
  }

  lemma FetchByUUIDIsLastTx(w: Wire, blocks: seq<Block>, k: nat, uuid: Bytes)
    requires WellSized(blocks) && k <= |blocks|
    ensures FetchTransactionIndexByUUID(IndexOfFirst(w, blocks, k), uuid)
         == match LastTx(blocks[..k], uuid) case Some(p) => Found(p) case None => ResourceNotFound
  {
    IndexRefinesScan(w, blocks, k, uuid, []);
    LastTxIsLast(blocks[..k], uuid);
    match LastTx(blocks[..k], uuid)
    case None =>
    case Some(p) =>
      assert TxAt(blocks[..k], p.0, p.1, uuid);
      BlockNumTxIndexRoundTrip(p.0, p.1);
  }

  lemma FetchByHashIsLastOrZero(w: Wire, blocks: seq<Block>, k: nat, h: Bytes)
    requires WellSized(blocks) && k <= |blocks|
    ensures FetchBlockNumberByBlockHash(IndexOfFirst(w, blocks, k), h)
         == match LastWithHash(w, blocks[..k], h) case Some(n) => n case None => 0
  {
    IndexRefinesScan(w, blocks, k, [], h);
    match LastWithHash(w, blocks[..k], h)
    case None =>
      assert Scan([], 0, 0, 0) == UnexpectedEof;
    case Some(n) =>
      BlockNumberRoundTrip(n);
  }

  /** Looking a block up by hash is right exactly when the hash is on the chain: an
      unknown hash silently yields block 0. */
  lemma FetchByHashRightIff(w: Wire, blocks: seq<Block>, h: Bytes)
    requires WellSized(blocks)
    ensures (var n := FetchBlockNumberByBlockHash(BuildIndex(w, blocks), h);
             n < |blocks| && w.HashOf(blocks[n]) == h)
            <==> exists i :: 0 <= i < |blocks| && w.HashOf(blocks[i]) == h
  {
    FetchByHashIsLastOrZero(w, blocks, |blocks|, h);
    assert blocks[..|blocks|] == blocks;
  }
}
