/** Pre-blocks, block pointers and block shares, and what is signed and hashed.

    Cryptography is symbolic. A digest is the term it was computed from, so hashing is injective;
    a signature share names the key that made it and the document it signs; a joined threshold
    signature is a function of the document alone. */
module Blocks {

  datatype Option<+T> = None | Some(value: T)

  newtype byte = x: int | 0 <= x < 256

  type Bytes = seq<byte>

  datatype Digest =
    | OfBytes(bytes: Bytes)
    | OfNumber(number: int)
    | OfEntries(entries: seq<PreBlockMessage>)
    | OfPointer(blockHash: Digest, sig: Signature)
    | OfPair(first: Digest, second: Digest)
    | OfDigest(digest: Digest)
    | OfList(digests: seq<Digest>)
    | Raw(bits: int)  // 32 bytes that are nobody's hash

  datatype SigShare = SigShare(id: int, doc: Digest)
  {
    predicate Verify(d: Digest) { doc == d }
  }

  datatype Signature = Joined(doc: Digest) | Forged(bits: int)
  {
    predicate Verify(d: Digest) { this == Joined(d) }
  }

  datatype PreBlockMessage = PreBlockMessage(message: Bytes, sig: SigShare)

  datatype PreBlock = PreBlock(vec: seq<Option<PreBlockMessage>>, size: string)

  datatype BlockPointer = BlockPointer(blockHash: Digest, sig: Signature)

  datatype BlockShare = BlockShare(block: PreBlock, pointer: BlockPointer)

  /** The non-nil entries of a pre-block, in index order. */
  function Entries(vec: seq<Option<PreBlockMessage>>): seq<PreBlockMessage> {
    if vec == [] then []
    else (if vec[0].Some? then [vec[0].value] else []) + Entries(vec[1..])
  }

  /** The number of entries that are not nil. */
  function Quality(vec: seq<Option<PreBlockMessage>>): nat {
    |Entries(vec)|
  }

  function PreBlockHash(pre: PreBlock): Digest {
    OfEntries(Entries(pre.vec))
  }

  function ShareHash(bs: BlockShare): Digest {
    OfPair(OfPointer(bs.pointer.blockHash, bs.pointer.sig), PreBlockHash(bs.block))
  }

  function Hashes(shares: seq<BlockShare>): seq<Digest> {
    seq(|shares|, i requires 0 <= i < |shares| => ShareHash(shares[i]))
  }

  function ListHash(shares: seq<BlockShare>): Digest {
    OfList(Hashes(shares))
  }

  /** No slot is nil. */
  predicate Full(pre: PreBlock) {
    forall i :: 0 <= i < |pre.vec| ==> pre.vec[i].Some?
  }

  lemma {:induction false} FullEntries(vec: seq<Option<PreBlockMessage>>)
    requires forall i :: 0 <= i < |vec| ==> vec[i].Some?
    ensures |Entries(vec)| == |vec|
    ensures forall i :: 0 <= i < |vec| ==> vec[i] == Some(Entries(vec)[i])
  {
    if vec != [] {
      FullEntries(vec[1..]);
    }
  }

  /** A pre-block is full exactly when its quality is its length. */
  lemma {:induction false} QualityFull(vec: seq<Option<PreBlockMessage>>)
    ensures Quality(vec) <= |vec|
    ensures Quality(vec) == |vec| <==> forall i :: 0 <= i < |vec| ==> vec[i].Some?
  {
    if vec != [] {
      QualityFull(vec[1..]);
      assert forall i :: 1 <= i < |vec| ==> vec[i] == vec[1..][i - 1];
    }
  }

  /** The hash skips nil slots and the size label: it is injective on full pre-blocks of one label. */
  lemma HashInjective(a: BlockShare, b: BlockShare)
    requires ShareHash(a) == ShareHash(b)
    ensures a.pointer == b.pointer
    ensures Full(a.block) && Full(b.block) && a.block.size == b.block.size ==> a == b
  {
    if Full(a.block) && Full(b.block) {
      FullEntries(a.block.vec);
      FullEntries(b.block.vec);
      assert a.block.vec == b.block.vec;
    }
  }

  lemma {:induction false} EntriesAdd(vec: seq<Option<PreBlockMessage>>, k: int, m: PreBlockMessage)
    requires 0 <= k < |vec| && vec[k] == None
    ensures Quality(vec[k := Some(m)]) == Quality(vec) + 1
  {
    if k > 0 {
      EntriesAdd(vec[1..], k - 1, m);
      assert vec[k := Some(m)][1..] == vec[1..][k - 1 := Some(m)];
    }
  }

  lemma {:induction false} EntriesAppend(vec: seq<Option<PreBlockMessage>>, m: Option<PreBlockMessage>)
    ensures Quality(vec + [m]) == Quality(vec) + if m.Some? then 1 else 0
  {
    if vec == [] {
      assert (vec + [m])[1..] == [];
    } else {
      EntriesAppend(vec[1..], m);
      assert (vec + [m])[1..] == vec[1..] + [m];
    }
  }

  /** A pre-block under construction. */
  class PreBlockBuffer {
    var vec: array<Option<PreBlockMessage>>

    constructor (n: nat)
      ensures fresh(vec) && vec.Length == n && forall i :: 0 <= i < n ==> vec[i] == None
    {
      vec := new Option<PreBlockMessage>[n](_ => None);
    }

    /** The first message for a node stays. */
    method AddMessage(node: nat, message: PreBlockMessage)
      requires node < vec.Length
      modifies vec
      ensures vec[..] == if old(vec[node]) == None then old(vec[..])[node := Some(message)] else old(vec[..])
      ensures Quality(vec[..]) == Quality(old(vec[..])) + if old(vec[node]) == None then 1 else 0
    {
      if vec[node] == None {
        EntriesAdd(vec[..], node, message);
        vec[node] := Some(message);
        assert vec[..] == old(vec[..])[node := Some(message)];
      }
    }

    method CountQuality() returns (counter: nat)
      ensures counter == Quality(vec[..])
    {
      counter := 0;
      for i := 0 to vec.Length
        invariant counter == Quality(vec[..i])
      {
        EntriesAppend(vec[..i], vec[i]);
        assert vec[..i + 1] == vec[..i] + [vec[i]];
        if vec[i].Some? {
          counter := counter + 1;
        }
      }
      assert vec[..vec.Length] == vec[..];
    }
  }
}
