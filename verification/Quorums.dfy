/** Quorum counting shared by all protocols: n nodes numbered 0..n-1, of which at most t
    (the set `faulty`) may behave arbitrarily. */
module Quorums {

  datatype Config = Config(n: nat, t: nat, faulty: set<int>) {
    predicate Valid() {
      3 * t < n && faulty <= Ids(n) && |faulty| <= t
    }

    predicate Honest(i: int) {
      0 <= i < n && i !in faulty
    }

    function HonestIds(): set<int> {
      Ids(n) - faulty
    }
  }

  /** The node indices 0..n-1. */
  function Ids(n: nat): (ids: set<int>)
    ensures forall i :: i in ids <==> 0 <= i < n
    ensures |ids| == n
  {
    if n == 0 then {} else Ids(n - 1) + {n - 1}
  }

  lemma SubsetSize<T>(a: set<T>, b: set<T>)
    requires a <= b
    ensures |a| <= |b|
  {
    assert b == a + (b - a);
  }

  lemma Inhabited(s: set<int>)
    requires |s| > 0
    ensures exists x :: x in s
  {
    assert (forall x :: x !in s) ==> s == {};
  }

  /** A subset as large as the whole set is the whole set. */
  lemma SubsetFull<T>(a: set<T>, b: set<T>)
    requires a <= b && |a| >= |b|
    ensures a == b
  {
    assert b == a + (b - a);
  }

  lemma UnionSize<T>(a: set<T>, b: set<T>)
    ensures |a + b| + |a * b| == |a| + |b|
  {
    assert a + b == a + (b - a);
    assert b == (b - a) + (a * b);
  }

  /** Every element moved by d. */
  function Moved(s: set<int>, d: int): set<int> {
    set x | x in s :: x + d
  }

  lemma {:induction false} MovedSize(s: set<int>, d: int)
    ensures |Moved(s, d)| == |s|
    decreases |s|
  {
    if |s| > 0 {
      Inhabited(s);
      var x :| x in s;
      MovedSize(s - {x}, d);
      forall y ensures y in Moved(s, d) <==> y in Moved(s - {x}, d) + {x + d} {
        assert y in Moved(s, d) <==> y - d in s;
        assert y in Moved(s - {x}, d) <==> y - d in s - {x};
      }
      assert Moved(s, d) == Moved(s - {x}, d) + {x + d};
    } else {
      assert Moved(s, d) == {};
    }
  }

  /** More than t senders include an honest one. */
  lemma HonestMember(c: Config, senders: set<int>)
    requires c.Valid() && senders <= Ids(c.n) && |senders| > c.t
    ensures exists i :: i in senders && c.Honest(i)
  {
    if forall i :: i in senders ==> !c.Honest(i) {
      SubsetSize(senders, c.faulty);
    }
  }

  /** At least |s| - t members of a set of senders are honest. */
  lemma HonestPart(c: Config, senders: set<int>)
    requires c.Valid() && senders <= Ids(c.n)
    ensures |senders - c.faulty| >= |senders| - c.t
  {
    assert senders == (senders - c.faulty) + (senders * c.faulty);
    SubsetSize(senders * c.faulty, c.faulty);
  }

  lemma HonestCount(c: Config)
    requires c.Valid()
    ensures |c.HonestIds()| >= c.n - c.t
  {
    HonestPart(c, Ids(c.n));
  }

  /** Two sets of senders whose sizes add up to more than n + t share an honest sender. */
  lemma QuorumsMeet(c: Config, a: set<int>, b: set<int>)
    requires c.Valid() && a <= Ids(c.n) && b <= Ids(c.n)
    requires |a| + |b| > c.n + c.t
    ensures exists i :: i in a && i in b && c.Honest(i)
  {
    UnionSize(a, b);
    SubsetSize(a + b, Ids(c.n));
    HonestMember(c, a * b);
  }
}
