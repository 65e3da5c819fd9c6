/** Signature shares collected per hash, and joining them under the committee's key. */
module Certificates {
  import opened Quorums
  import opened Blocks

  datatype ShareKey = ShareKey(hash: Digest, sender: int)

  /** A node's own proof of committee membership: the dealer's signature on its index. */
  function OwnProof(id: int): SigShare {
    SigShare(1, OfNumber(id))
  }

  function OwnShare(id: int, hash: Digest): SigShare {
    SigShare(id + 1, hash)
  }

  /** The members whose share on hash has been stored, and the keys the shares were made with. */
  function ShareSenders(shares: map<ShareKey, SigShare>, hash: Digest): set<int> {
    set k | k in shares && k.hash == hash :: k.sender
  }

  function ShareIds(shares: map<ShareKey, SigShare>, hash: Digest): set<int> {
    set k | k in shares && k.hash == hash :: shares[k].id
  }

  // ---- Joining

  /** A join uses certK of the shares that are there; which ones depends on the order in which the
      map is ranged over. */
  predicate Picks(certK: nat, shares: map<ShareKey, SigShare>, hash: Digest, picked: set<int>) {
    |ShareSenders(shares, hash)| >= certK ==> picked <= ShareSenders(shares, hash) && |picked| == certK
  }

  function PickedIds(shares: map<ShareKey, SigShare>, hash: Digest, picked: set<int>): set<int> {
    set k | k in shares && k.hash == hash && k.sender in picked :: shares[k].id
  }

  /** The shares used were made with different keys. */
  predicate Apart(shares: map<ShareKey, SigShare>, hash: Digest, picked: set<int>) {
    |PickedIds(shares, hash, picked)| == |picked|
  }

  /** Joining needs certK shares; a key that is used twice gives bytes that are no signature. */
  function Join(certK: nat, shares: map<ShareKey, SigShare>, hash: Digest, picked: set<int>): Option<Signature> {
    if |ShareSenders(shares, hash)| < certK then None
    else if Apart(shares, hash, picked) then Some(Joined(hash))
    else Some(Forged(0))
  }

  /** No two of the stored shares on the hash were made with one key. */
  ghost predicate NoKeyTwice(shares: map<ShareKey, SigShare>, hash: Digest) {
    forall a, b | a in ShareSenders(shares, hash) && b in ShareSenders(shares, hash) && a != b ::
      shares[ShareKey(hash, a)].id != shares[ShareKey(hash, b)].id
  }

  ghost predicate NoKeyTwiceIn(shares: map<ShareKey, SigShare>, hash: Digest, picked: set<int>)
    requires picked <= ShareSenders(shares, hash)
  {
    forall a, b | a in picked && b in picked && a != b ::
      shares[ShareKey(hash, a)].id != shares[ShareKey(hash, b)].id
  }

  lemma PickedOne(shares: map<ShareKey, SigShare>, hash: Digest, picked: set<int>, x: int)
    requires picked <= ShareSenders(shares, hash) && x in picked
    ensures PickedIds(shares, hash, picked) ==
            PickedIds(shares, hash, picked - {x}) + {shares[ShareKey(hash, x)].id}
  {
    assert ShareKey(hash, x) in shares;
  }

  lemma {:induction false} PickedSize(shares: map<ShareKey, SigShare>, hash: Digest, picked: set<int>)
    requires picked <= ShareSenders(shares, hash)
    ensures |PickedIds(shares, hash, picked)| <= |picked|
    ensures Apart(shares, hash, picked) <==> NoKeyTwiceIn(shares, hash, picked)
    decreases |picked|
  {
    if |picked| == 0 {
      assert PickedIds(shares, hash, picked) == {};
    } else {
      Inhabited(picked);
      var x :| x in picked;
      var rest := picked - {x};
      PickedSize(shares, hash, rest);
      PickedOne(shares, hash, picked, x);
      var id := shares[ShareKey(hash, x)].id;
      if id in PickedIds(shares, hash, rest) {
        assert PickedIds(shares, hash, picked) == PickedIds(shares, hash, rest);
        var k :| k in shares && k.hash == hash && k.sender in rest && shares[k].id == id;
        assert k == ShareKey(hash, k.sender);
      } else {
        assert forall a :: a in rest ==> shares[ShareKey(hash, a)].id in PickedIds(shares, hash, rest);
      }
    }
  }

  /** Enough senders leave something to pick, with any few of them among it. */
  lemma {:induction false} PickWith(all: set<int>, some: set<int>, size: nat) returns (picked: set<int>)
    requires some <= all && |some| <= size <= |all|
    ensures some <= picked <= all && |picked| == size
    decreases size - |some|
  {
    if |some| == size {
      picked := some;
    } else {
      assert all == some + (all - some);
      Inhabited(all - some);
      var x :| x in all - some;
      picked := PickWith(all, some + {x}, size);
    }
  }

  lemma PickSome(certK: nat, shares: map<ShareKey, SigShare>, hash: Digest) returns (picked: set<int>)
    ensures Picks(certK, shares, hash, picked)
  {
    if |ShareSenders(shares, hash)| >= certK {
      picked := PickWith(ShareSenders(shares, hash), {}, certK);
    } else {
      picked := {};
    }
  }

  lemma PickBoth(certK: nat, shares: map<ShareKey, SigShare>, hash: Digest, a: int, b: int) returns (picked: set<int>)
    requires 2 <= certK <= |ShareSenders(shares, hash)| && a != b
    requires a in ShareSenders(shares, hash) && b in ShareSenders(shares, hash)
    requires shares[ShareKey(hash, a)].id == shares[ShareKey(hash, b)].id
    ensures Picks(certK, shares, hash, picked) && !Apart(shares, hash, picked)
  {
    picked := PickWith(ShareSenders(shares, hash), {a, b}, certK);
    PickedSize(shares, hash, picked);
  }

  lemma FewApart(certK: nat, shares: map<ShareKey, SigShare>, hash: Digest, picked: set<int>)
    requires |ShareSenders(shares, hash)| >= certK && Picks(certK, shares, hash, picked)
    requires certK <= 1 || NoKeyTwice(shares, hash)
    ensures Apart(shares, hash, picked)
  {
    PickedSize(shares, hash, picked);
    if certK <= 1 && picked != {} {
      var x :| x in picked;
      assert picked == {x} + (picked - {x});
    }
  }

  /** A join gives the signature in every map order, exactly when it uses one share only or no key
      has been used twice among all that are there. */
  lemma JoinsExactly(certK: nat, shares: map<ShareKey, SigShare>, hash: Digest)
    requires |ShareSenders(shares, hash)| >= certK
    ensures (forall picked | Picks(certK, shares, hash, picked) ::
               Join(certK, shares, hash, picked) == Some(Joined(hash)))
            <==> certK <= 1 || NoKeyTwice(shares, hash)
  {
    if certK <= 1 || NoKeyTwice(shares, hash) {
      forall picked | Picks(certK, shares, hash, picked) ensures Apart(shares, hash, picked) {
        FewApart(certK, shares, hash, picked);
      }
    } else {
      var a, b :| a in ShareSenders(shares, hash) && b in ShareSenders(shares, hash) && a != b
                  && shares[ShareKey(hash, a)].id == shares[ShareKey(hash, b)].id;
      var picked := PickBoth(certK, shares, hash, a, b);
    }
  }
}
