/** Blocks and their hash.  Serialisation and the hash function belong to libraries
    outside the repository: they are the fields of a `Wire` record, any functions at
    all as long as decoding undoes encoding. */
module Blocks {
  import opened Common
  import opened Codec
  import T = StateTypes

  datatype Transaction = Transaction(uuid: Bytes, payload: Bytes)

  // Data a peer keeps with a block but leaves out of the block's hash.
  datatype NonHashData = NonHashData(commitTimestamp: int, results: seq<Bytes>)

  datatype Block = Block(
    transactions: seq<Transaction>,
    consensusMetadata: Bytes,
    stateHash: Bytes,
    previousBlockHash: Bytes,
    nonHashData: Option<NonHashData>)

  datatype Wire = Wire(
    marshal: Block -> Bytes,
    unmarshal: Bytes -> Option<Block>,
    digest: Bytes -> Bytes,
    stateDigest: T.KVs -> Bytes)
  {
    ghost predicate Lawful() {
      forall b :: unmarshal(marshal(b)) == Some(b)
    }

    function HashOf(b: Block): Bytes {
      digest(marshal(b.(nonHashData := None)))
    }

    /** Copies the block through its encoding, drops the non-hash data, hashes the rest. */
    function GetHash(b: Block): Option<Bytes> {
      match unmarshal(marshal(b))
      case None => None
      case Some(copy) => Some(digest(marshal(copy.(nonHashData := None))))
    }

    lemma GetHashIsHashOf(b: Block)
      requires Lawful()
      ensures GetHash(b) == Some(HashOf(b))
    {
      assert unmarshal(marshal(b)) == Some(b);
    }
  }

  function NewBlock(transactions: seq<Transaction>, metadata: Bytes): Block {
    Block(transactions, metadata, [], [], None)
  }

  // ---------------------------------------------------------------- scanning a chain

  /** The last position of `uuid` in a block's transaction list. */
  function LastIn(txs: seq<Transaction>, uuid: Bytes): (r: Option<nat>)
    ensures r.Some? ==> r.value < |txs| && txs[r.value].uuid == uuid
    ensures forall i :: 0 <= i < |txs| && (r.Some? ==> r.value < i) ==> txs[i].uuid != uuid
  {
    if txs == [] then None
    else if txs[|txs| - 1].uuid == uuid then Some(|txs| - 1)
    else LastIn(txs[..|txs| - 1], uuid)
  }

  /** The last transaction with `uuid` on the chain, by block and then by index. */
  function LastTx(blocks: seq<Block>, uuid: Bytes): Option<(nat, nat)> {
    if blocks == [] then None
    else
      var n := |blocks| - 1;
      match LastIn(blocks[n].transactions, uuid)
      case Some(i) => Some((n, i))
      case None => LastTx(blocks[..n], uuid)
  }

  ghost predicate TxAt(blocks: seq<Block>, n: nat, i: nat, uuid: Bytes) {
    n < |blocks| && i < |blocks[n].transactions| && blocks[n].transactions[i].uuid == uuid
  }

  /** `LastTx` is what its name says: found exactly when the uuid occurs, and nothing
      later on the chain carries it. */
  lemma {:induction false} LastTxIsLast(blocks: seq<Block>, uuid: Bytes)
    ensures LastTx(blocks, uuid).None? <==> forall n: nat, i: nat :: !TxAt(blocks, n, i, uuid)
    ensures LastTx(blocks, uuid).Some? ==>
              var (n, i) := LastTx(blocks, uuid).value;
              && TxAt(blocks, n, i, uuid)
              && forall m: nat, j: nat :: TxAt(blocks, m, j, uuid) ==> m < n || (m == n && j <= i)
    decreases |blocks|
  {
    if blocks != [] {
      var n := |blocks| - 1;
      var front := blocks[..n];
      LastTxIsLast(front, uuid);
      forall m: nat, j: nat
        ensures TxAt(blocks, m, j, uuid) <==>
                TxAt(front, m, j, uuid) || (m == n && j < |blocks[n].transactions| && blocks[n].transactions[j].uuid == uuid)
      {
      }
      if LastIn(blocks[n].transactions, uuid).Some? {
        assert TxAt(blocks, n, LastIn(blocks[n].transactions, uuid).value, uuid);
      } else if LastTx(front, uuid).Some? {
        var (m, j) := LastTx(front, uuid).value;
        assert TxAt(blocks, m, j, uuid);
      }
    }
  }

  /** The number of the last block with hash `h`. */
  function LastWithHash(w: Wire, blocks: seq<Block>, h: Bytes): (r: Option<nat>)
    ensures r.Some? ==> r.value < |blocks| && w.HashOf(blocks[r.value]) == h
    ensures forall i :: 0 <= i < |blocks| && (r.Some? ==> r.value < i) ==> w.HashOf(blocks[i]) != h
  {
    if blocks == [] then None
    else if w.HashOf(blocks[|blocks| - 1]) == h then Some(|blocks| - 1)
    else LastWithHash(w, blocks[..|blocks| - 1], h)
  }

  /** Every block names the hash of the block before it; the first names none. */
  predicate Names(w: Wire, blocks: seq<Block>, i: nat)
    requires i < |blocks|
  {
    blocks[i].previousBlockHash == if i == 0 then [] else w.HashOf(blocks[i - 1])
  }

  ghost predicate Linked(w: Wire, blocks: seq<Block>) {
    forall i :: 0 <= i < |blocks| ==> Names(w, blocks, i)
  }

  function LastHash(w: Wire, blocks: seq<Block>): Bytes {
    if blocks == [] then [] else w.HashOf(blocks[|blocks| - 1])
  }
}
