/** A run in which all honest nodes come to hold one well-formed pointer: the first n-ta nodes send
    their blocks, the honest members sign, exchange their shares, and send the pointer to the others. */
module BlockPointersRun {
  import opened Quorums
  import opened Blocks
  import opened Certificates
  import opened BlockPointers
  import opened BlockPointersSafety
  import opened BlockPointersProgress
  import opened BlockPointersSplit
  import opened BlockPointersAdoption

  /** No node: there is one version of the pre-block. */
  const NOBODY := -1

  lemma OfferOne(c: Config, p: Params) returns (steps: seq<Step>)
    requires ValidSetup(c, p)
    ensures Offered(c, p, NOBODY, Run(c, p, steps))
  {
    steps := Offer(c, p, NOBODY, Slots(p));
    forall j, v | 0 <= j < Slots(p) && (v == 0 || v == 1) ensures LargeOf(NOBODY, v, j) in Run(c, p, steps).net {
      assert LargeOf(NOBODY, v, j) == LargeOf(NOBODY, 0, j);
    }
  }

  function HonestMembers(c: Config, p: Params): set<int> {
    p.committee - c.faulty
  }

  function Good(p: Params): BlockPointer {
    Pointer(p, NOBODY, 0)
  }

  // ---- The members

  /** A node that has collected every honest member's share holds the pointer. */
  lemma AllShares(c: Config, p: Params, steps: seq<Step>, i: int)
    requires ValidSetup(c, p) && c.Honest(i) && i in p.committee && |HonestMembers(c, p)| >= Majority(p)
    requires |Run(c, p, steps).nodes| == c.n
    requires Collected(p, NOBODY, 0, HonestMembers(c, p), Run(c, p, steps).nodes[i], c.n)
    ensures Run(c, p, steps).nodes[i].ptr == Some(Good(p))
    ensures PointerMsg(i, Good(p)) in Run(c, p, steps).net
  {
    RunHolds(c, p, steps, i);
    var nd, ms := Run(c, p, steps).nodes[i], HandledBy(c, p, steps, i);
    var hash := HashOf(p, NOBODY, 0);
    forall j | j in HonestMembers(c, p) ensures j in ShareSenders(nd.blocksReceived, hash) {
      assert ShareKey(hash, j) in nd.blocksReceived;
    }
    SubsetSize(HonestMembers(c, p), ShareSenders(nd.blocksReceived, hash));
    assert Ripe(p, ms, hash);
    MemberSends(c, p, steps, i);
  }

  /** The honest members below k hold the pointer and have sent it, the others have just signed. */
  ghost predicate HoldTo(c: Config, p: Params, s: State, k: nat) {
    && |s.nodes| == c.n
    && (forall j :: j in HonestMembers(c, p) ==> Signed(j, Version(p, NOBODY, 0)) in s.net)
    && forall i :: c.Honest(i) ==>
         if i !in p.committee then s.nodes[i] == InitNode(p)
         else if i < k then s.nodes[i].ptr == Some(Good(p)) && PointerMsg(i, Good(p)) in s.net
         else !s.nodes[i].crashed && s.nodes[i].blocksReceived == map[] && s.nodes[i].ptr.None?
  }

  lemma SignedStart(c: Config, p: Params, s: State)
    requires ValidSetup(c, p) && SignedTo(c, p, NOBODY, {}, s, c.n)
    ensures HoldTo(c, p, s, 0)
  {
    assert forall i :: Side({}, i) == 0;
  }

  lemma HoldMore(c: Config, p: Params, s: State, s1: State, k: nat)
    requires HoldTo(c, p, s, k) && c.Honest(k) && k in p.committee && OnlyMoved(s, s1, k)
    requires s1.nodes[k].ptr == Some(Good(p)) && PointerMsg(k, Good(p)) in s1.net
    ensures HoldTo(c, p, s1, k + 1)
  {
  }

  lemma {:induction false} MembersHold(c: Config, p: Params, start: seq<Step>, k: nat) returns (steps: seq<Step>)
    requires ValidSetup(c, p) && |HonestMembers(c, p)| >= Majority(p) && k <= c.n
    requires HoldTo(c, p, Run(c, p, start), 0)
    ensures HoldTo(c, p, Run(c, p, steps), k)
  {
    if k == 0 {
      steps := start;
    } else {
      steps := MembersHold(c, p, start, k - 1);
      if k - 1 in p.committee && c.Honest(k - 1) {
        var before := steps;
        steps := Collect(c, p, NOBODY, 0, HonestMembers(c, p), before, k - 1, c.n);
        AllShares(c, p, steps, k - 1);
        HoldMore(c, p, Run(c, p, before), Run(c, p, steps), k - 1);
      }
    }
  }

  // ---- The other nodes

  ghost predicate AdoptTo(c: Config, p: Params, s: State, a: int, k: nat) {
    && |s.nodes| == c.n && a in HonestMembers(c, p) && PointerMsg(a, Good(p)) in s.net
    && forall i :: c.Honest(i) ==>
         if i in p.committee || i < k then s.nodes[i].ptr == Some(Good(p)) else s.nodes[i] == InitNode(p)
  }

  lemma {:induction false} OthersAdopt(c: Config, p: Params, start: seq<Step>, a: int, k: nat)
    returns (steps: seq<Step>)
    requires ValidSetup(c, p) && AdoptTo(c, p, Run(c, p, start), a, 0) && k <= c.n
    ensures AdoptTo(c, p, Run(c, p, steps), a, k)
  {
    if k == 0 {
      steps := start;
    } else {
      steps := OthersAdopt(c, p, start, a, k - 1);
      if k - 1 !in p.committee && c.Honest(k - 1) {
        var before := steps;
        var picked;
        steps, picked := Handle(c, p, before, k - 1, PointerMsg(a, Good(p)));
      }
    }
  }

  /** With enough honest members for a certificate, and whoever else is faulty, some run leaves all
      honest nodes with one pointer, that is well-formed. */
  lemma AllHoldOne(c: Config, p: Params) returns (steps: seq<Step>, pointer: BlockPointer)
    requires ValidSetup(c, p) && p.ta < p.n && |p.committee - c.faulty| >= Majority(p)
    ensures pointer.sig.Verify(pointer.blockHash)
    ensures var s := Run(c, p, steps);
      |s.nodes| == c.n && forall i :: c.Honest(i) ==> s.nodes[i].ptr == Some(pointer)
  {
    pointer := Good(p);
    steps := OfferOne(c, p);
    steps := SignAll(c, p, NOBODY, {}, steps, c.n);
    SignedStart(c, p, Run(c, p, steps));
    steps := MembersHold(c, p, steps, c.n);
    Inhabited(HonestMembers(c, p));
    var a :| a in HonestMembers(c, p);
    assert c.Honest(a);
    steps := OthersAdopt(c, p, steps, a, c.n);
  }
}
