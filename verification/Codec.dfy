/** The byte encodings behind the ledger database.

    Index values are base-128 varints, as in the "Base 128 Varints" section of the
    Protocol Buffers encoding specification; index keys carry a one-byte family prefix;
    block keys are eight big-endian bytes.  The loops are methods proved against the
    recursive functions, and the laws (round trips, disjointness, injectivity) are
    lemmas about those functions. */
module Codec {
  import opened Common

  type Byte = b: int | 0 <= b < 256
  type Bytes = seq<Byte>

  const TWO64: int := 0x1_0000_0000_0000_0000
  type Uint64 = n: int | 0 <= n < 0x1_0000_0000_0000_0000

  /** uint64 increment, with wrap-around. */
  function Inc(n: Uint64): Uint64 {
    if n + 1 == TWO64 then 0 else n + 1
  }

  // ---------------------------------------------------------------- varints

  function Varint(x: nat): (r: Bytes)
    ensures |r| > 0
  {
    if x < 128 then [x] else [x % 128 + 128] + Varint(x / 128)
  }

  function Pow2(k: nat): (p: nat)
    ensures p > 0
  {
    if k == 0 then 1 else 2 * Pow2(k - 1)
  }

  datatype Decoded = Value(value: nat, next: nat) | UnexpectedEof | Overflow

  /** What a decoder reads from `buf[i..]` when `acc` holds the bits below `shift`.
      The shifted group is cut to 64 bits; it shares no bit with `acc`, so the
      accumulating bitwise or is an addition. */
  function Scan(buf: Bytes, i: nat, shift: nat, acc: nat): (d: Decoded)
    requires i <= |buf|
    ensures d.Value? ==> i < d.next <= |buf|
    decreases |buf| - i
  {
    if shift >= 64 then Overflow
    else if i == |buf| then UnexpectedEof
    else
      var acc' := acc + (buf[i] % 128) * Pow2(shift) % TWO64;
      if buf[i] < 128 then Value(acc', i + 1) else Scan(buf, i + 1, shift + 7, acc')
  }

  method EncodeVarint(x: Uint64) returns (buf: Bytes)
    ensures buf == Varint(x)
  {
    var rest: nat := x;
    buf := [];
    while rest > 127
      invariant buf + Varint(rest) == Varint(x)
    {
      assert buf + ([rest % 128 + 128] + Varint(rest / 128)) == (buf + [rest % 128 + 128]) + Varint(rest / 128);
      buf := buf + [rest % 128 + 128];
      rest := rest / 128;
    }
    buf := buf + [rest];
  }

  method DecodeVarint(buf: Bytes, index: nat) returns (d: Decoded)
    requires index <= |buf|
    ensures d == Scan(buf, index, 0, 0)
  {
    var i, shift: nat := index, 0;
    var x: nat := 0;
    while shift < 64
      invariant index <= i <= |buf|
      invariant Scan(buf, i, shift, x) == Scan(buf, index, 0, 0)
      decreases 64 - shift
    {
      if i >= |buf| {
        return UnexpectedEof;
      }
      var b := buf[i];
      i := i + 1;
      x := x + (b % 128) * Pow2(shift) % TWO64;
      if b < 128 {
        return Value(x, i);
      }
      shift := shift + 7;
    }
    return Overflow;
  }

  lemma Pow2Add(a: nat, b: nat)
    ensures Pow2(a + b) == Pow2(a) * Pow2(b)
    decreases b
  {
    if b != 0 {
      Pow2Add(a, b - 1);
      assert Pow2(a + b) == 2 * Pow2(a + b - 1);
    }
  }

  lemma Pow2Is64()
    ensures Pow2(64) == TWO64
  {
    assert Pow2(8) == 256;
    Pow2Add(8, 8);
    Pow2Add(16, 16);
    Pow2Add(32, 32);
  }

  lemma Pow2Grows(k: nat)
    requires k >= 64
    ensures Pow2(k) >= TWO64
  {
    Pow2Is64();
    Pow2Add(64, k - 64);
    MulGrows(Pow2(64), Pow2(k - 64));
  }

  lemma MulGrows(a: nat, b: nat)
    requires b >= 1
    ensures a * b >= a
  {
  }

  lemma SplitGroup(x: nat, p: nat)
    requires x * p < TWO64
    ensures (x % 128) * p % TWO64 == (x % 128) * p
    ensures (x / 128) * (128 * p) < TWO64
    ensures (x % 128) * p + (x / 128) * (128 * p) == x * p
  {
    var q, r := x / 128, x % 128;
    assert x == 128 * q + r;
    Distribute(q, r, p);
  }

  lemma Distribute(q: nat, r: nat, p: nat)
    ensures (128 * q + r) * p == r * p + q * (128 * p)
    ensures 0 <= r * p && 0 <= q * (128 * p)
  {
  }

  lemma ShiftBelow64(x: nat, shift: nat)
    requires x * Pow2(shift) < TWO64
    requires x > 0
    ensures shift < 64
  {
    if shift >= 64 {
      Pow2Grows(shift);
      MulGrows(Pow2(shift), x);
      assert false;
    }
  }

  lemma Pow2Seven(shift: nat)
    ensures Pow2(shift + 7) == 128 * Pow2(shift)
  {
    Pow2Add(shift, 7);
    assert Pow2(7) == 128;
  }

  /** The arithmetic of one 7-bit group: what is left still fits in 64 bits. */
  lemma GroupStep(x: nat, shift: nat) returns (lo: nat)
    requires x * Pow2(shift) < TWO64
    requires x >= 128
    ensures shift < 64
    ensures lo == (x % 128) * Pow2(shift) % TWO64
    ensures (x / 128) * Pow2(shift + 7) == x * Pow2(shift) - lo
  {
    ShiftBelow64(x, shift);
    SplitGroup(x, Pow2(shift));
    Pow2Seven(shift);
    lo := (x % 128) * Pow2(shift);
  }

  /** Decoding undoes encoding wherever the varint stands, whatever surrounds it. */
  lemma {:induction false} VarintScan(pre: Bytes, x: nat, post: Bytes, shift: nat, acc: nat)
    requires x * Pow2(shift) < TWO64
    requires x > 0 || shift == 0
    ensures Scan(pre + Varint(x) + post, |pre|, shift, acc)
         == Value(acc + x * Pow2(shift), |pre| + |Varint(x)|)
    decreases x
  {
    var buf := pre + Varint(x) + post;
    if x < 128 {
      if x > 0 { ShiftBelow64(x, shift); }
      assert buf[|pre|] == x;
    } else {
      var b: Byte := x % 128 + 128;
      var lo := GroupStep(x, shift);
      assert Varint(x) == [b] + Varint(x / 128);
      assert buf[|pre|] == b && b % 128 == x % 128;
      assert buf == (pre + [b]) + Varint(x / 128) + post;
      VarintScan(pre + [b], x / 128, post, shift + 7, acc + lo);
    }
  }

  lemma VarintRoundTrip(pre: Bytes, x: Uint64, post: Bytes)
    ensures Scan(pre + Varint(x) + post, |pre|, 0, 0) == Value(x, |pre| + |Varint(x)|)
  {
    VarintScan(pre, x, post, 0, 0);
  }

  /** No varint is a proper prefix of another. */
  lemma {:induction false} VarintPrefixFree(x: nat, s: Bytes, y: nat, t: Bytes)
    requires Varint(x) + s == Varint(y) + t
    ensures x == y && s == t
    decreases x
  {
    var buf := Varint(x) + s;
    assert buf[0] == Varint(x)[0] == Varint(y)[0];
    if x < 128 {
      assert s == buf[1..] && t == buf[1..];
    } else {
      var x', y' := x / 128, y / 128;
      Tail(x, s);
      Tail(y, t);
      VarintPrefixFree(x', s, y', t);
      assert x == 128 * x' + (buf[0] - 128) && y == 128 * y' + (buf[0] - 128);
    }
  }

  lemma Tail(x: nat, s: Bytes)
    requires x >= 128
    ensures (Varint(x) + s)[1..] == Varint(x / 128) + s
  {
    assert Varint(x)[1..] == Varint(x / 128);
  }

  // ---------------------------------------------------------------- index values

  /** `decodeBlockNumber`: the error result of the decoder is dropped, so anything
      undecodable, the missing value (no bytes) included, reads as block 0. */
  function DecodeBlockNumber(bs: Bytes): nat {
    match Scan(bs, 0, 0, 0)
    case Value(n, _) => n
    case _ => 0
  }

  lemma BlockNumberRoundTrip(n: Uint64)
    ensures DecodeBlockNumber(Varint(n)) == n
  {
    VarintRoundTrip([], n, []);
    assert [] + Varint(n) + [] == Varint(n);
  }

  function BlockNumTxIndex(block: nat, tx: nat): Bytes {
    Varint(block) + Varint(tx)
  }

  function DecodeBlockNumTxIndex(bs: Bytes): Option<(nat, nat)> {
    match Scan(bs, 0, 0, 0)
    case Value(block, next) =>
      (match Scan(bs, next, 0, 0)
       case Value(tx, _) => Some((block, tx))
       case _ => None)
    case _ => None
  }

  lemma BlockNumTxIndexRoundTrip(block: Uint64, tx: Uint64)
    ensures DecodeBlockNumTxIndex(BlockNumTxIndex(block, tx)) == Some((block, tx))
  {
    var bs := BlockNumTxIndex(block, tx);
    VarintRoundTrip([], block, Varint(tx));
    assert [] + Varint(block) + Varint(tx) == bs;
    VarintRoundTrip(Varint(block), tx, []);
    assert Varint(block) + Varint(tx) + [] == bs;
  }

  function ListTxIndexes(l: seq<nat>): Bytes {
    if l == [] then [] else Varint(l[0]) + ListTxIndexes(l[1..])
  }

  method EncodeListTxIndexes(l: seq<Uint64>) returns (buf: Bytes)
    ensures buf == ListTxIndexes(l)
  {
    buf := [];
    for i := 0 to |l|
      invariant buf + ListTxIndexes(l[i..]) == ListTxIndexes(l)
    {
      var v := EncodeVarint(l[i]);
      assert l[i..][0] == l[i] && l[i..][1..] == l[i + 1..];
      assert buf + (v + ListTxIndexes(l[i + 1..])) == (buf + v) + ListTxIndexes(l[i + 1..]);
      buf := buf + v;
    }
  }

  /** Two different index lists never share an encoding. */
  lemma {:induction false} ListTxIndexesInjective(a: seq<nat>, b: seq<nat>)
    requires ListTxIndexes(a) == ListTxIndexes(b)
    ensures a == b
    decreases |a|
  {
    if a == [] || b == [] {
    } else {
      VarintPrefixFree(a[0], ListTxIndexes(a[1..]), b[0], ListTxIndexes(b[1..]));
      ListTxIndexesInjective(a[1..], b[1..]);
      assert a == [a[0]] + a[1..] && b == [b[0]] + b[1..];
    }
  }

  // ---------------------------------------------------------------- index keys

  const LastIndexedBlockKey: Bytes := [0]

  function BlockHashKey(hash: Bytes): Bytes {
    [1] + hash
  }

  function TxUUIDKey(uuid: Bytes): Bytes {
    [2] + uuid
  }

  function AddressBlockNumKey(address: Bytes, block: nat): Bytes {
    [3] + Varint(|address|) + address + Varint(block)
  }

  /** An index key by family, before encoding. */
  datatype IndexKey =
    | Watermark
    | ByHash(hash: Bytes)
    | ByUUID(uuid: Bytes)
    | ByAddress(address: Bytes, block: Uint64)

  function EncodeIndexKey(k: IndexKey): Bytes {
    match k
    case Watermark => LastIndexedBlockKey
    case ByHash(h) => BlockHashKey(h)
    case ByUUID(u) => TxUUIDKey(u)
    case ByAddress(a, n) => AddressBlockNumKey(a, n)
  }

  lemma AddressKeyInjective(a: Bytes, m: Uint64, b: Bytes, n: Uint64)
    requires |a| < TWO64 && |b| < TWO64
    requires AddressBlockNumKey(a, m) == AddressBlockNumKey(b, n)
    ensures a == b && m == n
  {
    var key := AddressBlockNumKey(a, m);
    var s, t := a + Varint(m), b + Varint(n);
    assert key[1..] == Varint(|a|) + s && key[1..] == Varint(|b|) + t;
    VarintPrefixFree(|a|, s, |b|, t);
    assert a == s[..|a|] && b == t[..|b|];
    assert Varint(m) + [] == s[|a|..] && Varint(n) + [] == t[|b|..];
    VarintPrefixFree(m, [], n, []);
  }

  /** The four key families are pairwise disjoint and each is injective: no index
      entry can overwrite another. */
  lemma IndexKeysUnambiguous(j: IndexKey, k: IndexKey)
    requires j.ByAddress? ==> |j.address| < TWO64
    requires k.ByAddress? ==> |k.address| < TWO64
    ensures EncodeIndexKey(j) == EncodeIndexKey(k) <==> j == k
  {
    if EncodeIndexKey(j) == EncodeIndexKey(k) {
      assert EncodeIndexKey(j)[0] == EncodeIndexKey(k)[0];
      if j.ByHash? {
        assert j.hash == EncodeIndexKey(j)[1..] && k.hash == EncodeIndexKey(k)[1..];
      } else if j.ByUUID? {
        assert j.uuid == EncodeIndexKey(j)[1..] && k.uuid == EncodeIndexKey(k)[1..];
      } else if j.ByAddress? {
        AddressKeyInjective(j.address, j.block, k.address, k.block);
      }
    }
  }

  // ---------------------------------------------------------------- block keys

  /** The low `k` bytes of `n`, most significant first. */
  function BigEndian(n: nat, k: nat): (r: Bytes)
    ensures |r| == k
  {
    if k == 0 then [] else BigEndian(n / 256, k - 1) + [n % 256]
  }

  function DecodeBigEndian(bs: Bytes): nat {
    if bs == [] then 0 else 256 * DecodeBigEndian(bs[..|bs| - 1]) + bs[|bs| - 1]
  }

  function EncodeUint64(n: nat): (r: Bytes)
    ensures |r| == 8
  {
    BigEndian(n, 8)
  }

  // The ten characters of "blockCount".
  const BlockCountKey: Bytes := [98, 108, 111, 99, 107, 67, 111, 117, 110, 116]

  lemma {:induction false} BigEndianRoundTrip(n: nat, k: nat)
    ensures n < Pow2(8 * k) ==> DecodeBigEndian(BigEndian(n, k)) == n
    decreases k
  {
    if k != 0 {
      var bs := BigEndian(n, k);
      assert bs[..|bs| - 1] == BigEndian(n / 256, k - 1);
      Pow2Add(8 * (k - 1), 8);
      assert Pow2(8) == 256;
      assert Pow2(8 * k) == Pow2(8 * (k - 1)) * 256;
      BigEndianRoundTrip(n / 256, k - 1);
    }
  }

  lemma Uint64RoundTrip(n: Uint64)
    ensures DecodeBigEndian(EncodeUint64(n)) == n
  {
    Pow2Is64();
    BigEndianRoundTrip(n, 8);
  }

  /** Block keys are injective and never collide with the block-count key. */
  lemma BlockKeysUnambiguous(m: Uint64, n: Uint64)
    ensures EncodeUint64(m) == EncodeUint64(n) <==> m == n
    ensures EncodeUint64(m) != BlockCountKey
  {
    Uint64RoundTrip(m);
    Uint64RoundTrip(n);
  }
}
