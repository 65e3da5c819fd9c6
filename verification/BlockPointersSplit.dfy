/** How a faulty node outside the committee spoils its pointers, in any setup in which it can: it sends
    a member's share in its own name, so that a join uses one key twice; if it is among the first n-ta
    nodes it also shows the members two different messages, so that they sign different hashes. */
module BlockPointersSplit {
  import opened Quorums
  import opened Blocks
  import opened Tables
  import opened Certificates
  import opened BlockPointers
  import opened BlockPointersSafety
  import opened BlockPointersProgress
  import opened BlockPointersCommittee

  // ---- The two versions of a large pre-block; only the message of node f differs

  function Payload(f: int, v: int, j: int): Bytes {
    if j == f && v == 1 then [1] else [0]
  }

  function LargeOf(f: int, v: int, j: int): Msg {
    BlockMsg(j, true, Payload(f, v, j), SigShare(j + 1, OfBytes(Payload(f, v, j))))
  }

  function Entry(f: int, v: int, j: int): PreBlockMessage {
    PreBlockMessage(Payload(f, v, j), SigShare(j + 1, OfBytes(Payload(f, v, j))))
  }

  /** The messages of the first k nodes are in. */
  function VecOf(p: Params, f: int, v: int, k: nat): seq<Option<PreBlockMessage>> {
    seq(Slots(p), j => if j < k then Some(Entry(f, v, j)) else None)
  }

  function Version(p: Params, f: int, v: int): PreBlock {
    PreBlock(VecOf(p, f, v, Slots(p)), "large")
  }

  function HashOf(p: Params, f: int, v: int): Digest {
    PreBlockHash(Version(p, f, v))
  }

  lemma VersionsDiffer(p: Params, f: int)
    requires 0 <= f < Slots(p)
    ensures HashOf(p, f, 0) != HashOf(p, f, 1)
  {
    FullEntries(Version(p, f, 0).vec);
    FullEntries(Version(p, f, 1).vec);
    assert Version(p, f, 0).vec[f] != Version(p, f, 1).vec[f];
  }

  // ---- One step of one node

  lemma Handle(c: Config, p: Params, before: seq<Step>, i: int, m: Msg) returns (steps: seq<Step>, picked: set<int>)
    requires var s := Run(c, p, before); |s.nodes| == c.n && c.Honest(i) && !s.nodes[i].crashed && m in s.net
    ensures var s := Run(c, p, before);
      MayPick(p, s.nodes[i], m, picked)
      && Run(c, p, steps) == Install(s, i, OnMessage(p, i, s.nodes[i], m, picked))
  {
    var s := Run(c, p, before);
    picked := {};
    if m.CommitteeMsg? {
      picked := PickSome(Majority(p), Filed(s.nodes[i], m), m.hash);
    }
    RunMore(c, p, before, Deliver(i, m, picked));
    steps := before + [Deliver(i, m, picked)];
  }

  /** Only node i has moved. */
  ghost predicate OnlyMoved(s: State, s1: State, i: int) {
    && |s1.nodes| == |s.nodes| && s.net <= s1.net
    && forall j :: 0 <= j < |s.nodes| && j != i ==> s1.nodes[j] == s.nodes[j]
  }

  // ---- The block messages

  ghost predicate Offering(c: Config, p: Params, f: int, s: State, k: nat) {
    && |s.nodes| == c.n && (forall i :: 0 <= i < c.n ==> s.nodes[i] == InitNode(p))
    && (forall j :: 0 <= j < k ==> LargeOf(f, 0, j) in s.net)
    && (forall m :: m in s.net ==> m.BlockMsg? && 0 <= m.sender < k)
  }

  lemma {:induction false} Offer(c: Config, p: Params, f: int, k: nat) returns (steps: seq<Step>)
    requires ValidSetup(c, p) && k <= c.n
    ensures Offering(c, p, f, Run(c, p, steps), k)
  {
    if k == 0 {
      steps := [];
    } else {
      var before := Offer(c, p, f, k - 1);
      RunMore(c, p, before, Send(c, LargeOf(f, 0, k - 1)));
      OfferMore(c, p, f, Run(c, p, before), k - 1);
      steps := before + [Send(c, LargeOf(f, 0, k - 1))];
    }
  }

  lemma OfferMore(c: Config, p: Params, f: int, s: State, k: nat)
    requires ValidSetup(c, p) && k < c.n && Offering(c, p, f, s, k)
    ensures Offering(c, p, f, Do(c, p, s, Send(c, LargeOf(f, 0, k))), k + 1)
  {
    var m := LargeOf(f, 0, k);
    assert OneLarge(s.net, m);
    assert Do(c, p, s, Send(c, m)) == s.(net := s.net + {m});
  }

  /** Both versions of every message are around. */
  ghost predicate BothAround(p: Params, f: int, net: set<Msg>) {
    forall j, v :: 0 <= j < Slots(p) && (v == 0 || v == 1) ==> LargeOf(f, v, j) in net
  }

  ghost predicate Offered(c: Config, p: Params, f: int, s: State) {
    |s.nodes| == c.n && (forall i :: 0 <= i < c.n ==> s.nodes[i] == InitNode(p)) && BothAround(p, f, s.net)
  }

  lemma OfferBoth(c: Config, p: Params, f: int) returns (steps: seq<Step>)
    requires ValidSetup(c, p) && f in c.faulty
    ensures Offered(c, p, f, Run(c, p, steps))
  {
    var before := Offer(c, p, f, Slots(p));
    RunMore(c, p, before, Forge(LargeOf(f, 1, f)));
    steps := before + [Forge(LargeOf(f, 1, f))];
    forall j, v | 0 <= j < Slots(p) && (v == 0 || v == 1) ensures LargeOf(f, v, j) in Run(c, p, steps).net {
      assert LargeOf(f, 0, j) in Run(c, p, before).net;
      assert j != f ==> LargeOf(f, 1, j) == LargeOf(f, 0, j);
    }
  }

  // ---- The members sign

  /** The member has the first k messages of a version. */
  ghost predicate Filling(p: Params, f: int, v: int, nd: Node, k: nat) {
    && !nd.crashed && nd.blocksReceived == map[] && nd.ptr.None?
    && nd.largePb == VecOf(p, f, v, k) && (nd.readyLarge <==> k == Slots(p))
  }

  lemma FillOne(p: Params, i: int, f: int, v: int, nd: Node, k: nat)
    requires i in p.committee && p.ta < p.n && k < Slots(p) && Filling(p, f, v, nd, k)
    ensures var o := OnLarge(p, i, nd, LargeOf(f, v, k));
      && Filling(p, f, v, o.node, k + 1)
      && (k + 1 == Slots(p) ==> o.sent == [Signed(i, Version(p, f, v))])
  {
    var vec := nd.largePb[k := Some(Entry(f, v, k))];
    assert vec == VecOf(p, f, v, k + 1);
    QualityFull(vec);
    if k + 1 < Slots(p) {
      assert vec[k + 1].None?;
    }
  }

  ghost predicate FilledTo(c: Config, p: Params, f: int, v: int, s: State, s1: State, i: int, k: nat) {
    && OnlyMoved(s, s1, i) && 0 <= i < |s1.nodes| && Filling(p, f, v, s1.nodes[i], k)
    && (k == Slots(p) ==> Signed(i, Version(p, f, v)) in s1.net)
  }

  lemma FillNext(c: Config, p: Params, f: int, v: int, s: State, s1: State, i: int, k: nat)
    requires i in p.committee && p.ta < p.n && k < Slots(p) && FilledTo(c, p, f, v, s, s1, i, k)
    ensures FilledTo(c, p, f, v, s, Install(s1, i, OnMessage(p, i, s1.nodes[i], LargeOf(f, v, k), {})), i, k + 1)
  {
    FillOne(p, i, f, v, s1.nodes[i], k);
    var o := OnMessage(p, i, s1.nodes[i], LargeOf(f, v, k), {});
    if k + 1 == Slots(p) {
      assert o.sent[0] in Members(o.sent);
    }
  }

  lemma {:induction false} FillUp(c: Config, p: Params, f: int, v: int, before: seq<Step>, i: int, k: nat)
    returns (steps: seq<Step>)
    requires var s := Run(c, p, before);
      |s.nodes| == c.n && c.Honest(i) && s.nodes[i] == InitNode(p) && BothAround(p, f, s.net)
    requires i in p.committee && p.ta < p.n && k <= Slots(p) && (v == 0 || v == 1)
    ensures FilledTo(c, p, f, v, Run(c, p, before), Run(c, p, steps), i, k)
  {
    if k == 0 {
      steps := before;
      assert InitNode(p).largePb == VecOf(p, f, v, 0);
    } else {
      var some := FillUp(c, p, f, v, before, i, k - 1);
      var m := LargeOf(f, v, k - 1);
      assert m in Run(c, p, before).net;
      var picked;
      steps, picked := Handle(c, p, some, i, m);
      FillNext(c, p, f, v, Run(c, p, before), Run(c, p, some), i, k - 1);
    }
  }

  function Side(others: set<int>, i: int): int {
    if i in others then 1 else 0
  }

  /** The honest members below k have signed their version, and nobody else has moved. */
  ghost predicate SignedTo(c: Config, p: Params, f: int, others: set<int>, s: State, k: nat) {
    && |s.nodes| == c.n && BothAround(p, f, s.net)
    && forall i :: c.Honest(i) ==>
         if i in p.committee && i < k then
           && Filling(p, f, Side(others, i), s.nodes[i], Slots(p))
           && Signed(i, Version(p, f, Side(others, i))) in s.net
         else s.nodes[i] == InitNode(p)
  }

  lemma {:induction false} SignAll(c: Config, p: Params, f: int, others: set<int>, start: seq<Step>, k: nat)
    returns (steps: seq<Step>)
    requires Offered(c, p, f, Run(c, p, start)) && p.ta < p.n && k <= c.n
    ensures SignedTo(c, p, f, others, Run(c, p, steps), k)
  {
    if k == 0 {
      steps := start;
    } else {
      var before := SignAll(c, p, f, others, start, k - 1);
      if k - 1 in p.committee && c.Honest(k - 1) {
        steps := FillUp(c, p, f, Side(others, k - 1), before, k - 1, Slots(p));
        SignedMore(c, p, f, others, Run(c, p, before), Run(c, p, steps), k - 1);
      } else {
        steps := before;
      }
    }
  }

  lemma SignedMore(c: Config, p: Params, f: int, others: set<int>, s: State, s1: State, k: nat)
    requires SignedTo(c, p, f, others, s, k) && c.Honest(k) && k in p.committee
    requires FilledTo(c, p, f, Side(others, k), s, s1, k, Slots(p))
    ensures SignedTo(c, p, f, others, s1, k + 1)
  {
  }

  // ---- Node f repeats a member's share

  function Copy(p: Params, f: int, v: int, x: int): Msg {
    var hash := HashOf(p, f, v);
    CommitteeMsg(f, Version(p, f, v), hash, OwnShare(x, hash), OwnProof(f))
  }

  lemma CopyOne(c: Config, p: Params, f: int, v: int, x: int, before: seq<Step>) returns (steps: seq<Step>)
    requires f in c.faulty && x in p.committee && Signed(x, Version(p, f, v)) in Run(c, p, before).net
    ensures var s := Run(c, p, before); Run(c, p, steps) == s.(net := s.net + {Copy(p, f, v, x)})
  {
    var m := Signed(x, Version(p, f, v));
    assert m.CommitteeMsg? && m.sender == x && m.hash == HashOf(p, f, v) && m.hashSig == OwnShare(x, m.hash);
    assert HasSigned(Run(c, p, before).net, x, HashOf(p, f, v));
    RunMore(c, p, before, Forge(Copy(p, f, v, x)));
    steps := before + [Forge(Copy(p, f, v, x))];
  }

  // ---- A member collects the shares on its version

  /** A well-formed pointer to a version. */
  function Pointer(p: Params, f: int, v: int): BlockPointer {
    BlockPointer(HashOf(p, f, v), Joined(HashOf(p, f, v)))
  }

  /** It has the shares of the members of t below k and no others, and points to nothing else. */
  ghost predicate Collected(p: Params, f: int, v: int, t: set<int>, nd: Node, k: nat) {
    && !nd.crashed && (nd.ptr.Some? ==> nd.ptr.value == Pointer(p, f, v))
    && (forall x :: x in nd.blocksReceived <==> x.hash == HashOf(p, f, v) && x.sender in t && 0 <= x.sender < k)
    && (forall x :: x in nd.blocksReceived ==> nd.blocksReceived[x] == OwnShare(x.sender, x.hash))
  }

  /** Its own kind of shares do not spoil a join. */
  lemma CollectedJoin(p: Params, f: int, v: int, t: set<int>, nd: Node, k: nat, m: Msg, picked: set<int>)
    requires Collected(p, f, v, t, nd, k) && m.CommitteeMsg? && m.hashSig == OwnShare(m.sender, m.hash)
    requires MayPick(p, nd, m, picked) && |ShareSenders(Filed(nd, m), m.hash)| >= Majority(p)
    ensures Join(Majority(p), Filed(nd, m), m.hash, picked) == Some(Joined(m.hash))
  {
    FewApart(Majority(p), Filed(nd, m), m.hash, picked);
  }

  lemma CollectOne(p: Params, i: int, f: int, v: int, t: set<int>, nd: Node, k: nat, picked: set<int>)
    requires i in p.committee && k in t && Collected(p, f, v, t, nd, k)
    requires MayPick(p, nd, Signed(k, Version(p, f, v)), picked)
    ensures Collected(p, f, v, t, OnCommittee(p, i, nd, Signed(k, Version(p, f, v)), picked).node, k + 1)
  {
    var m := Signed(k, Version(p, f, v));
    if |ShareSenders(Filed(nd, m), m.hash)| >= Majority(p) {
      CollectedJoin(p, f, v, t, nd, k, m, picked);
    }
  }

  lemma {:induction false} Collect(c: Config, p: Params, f: int, v: int, t: set<int>, before: seq<Step>, i: int, k: nat)
    returns (steps: seq<Step>)
    requires var s := Run(c, p, before);
      && |s.nodes| == c.n && c.Honest(i)
      && !s.nodes[i].crashed && s.nodes[i].blocksReceived == map[] && s.nodes[i].ptr.None?
      && forall j :: j in t ==> Signed(j, Version(p, f, v)) in s.net
    requires i in p.committee
    ensures var s, s1 := Run(c, p, before), Run(c, p, steps);
      OnlyMoved(s, s1, i) && Collected(p, f, v, t, s1.nodes[i], k)
  {
    if k == 0 {
      steps := before;
    } else {
      var some := Collect(c, p, f, v, t, before, i, k - 1);
      if k - 1 in t {
        var picked;
        steps, picked := Handle(c, p, some, i, Signed(k - 1, Version(p, f, v)));
        CollectOne(p, i, f, v, t, Run(c, p, some).nodes[i], k - 1, picked);
      } else {
        steps := some;
      }
    }
  }

  /** Then node f's copy of one of the shares comes. */
  ghost predicate CopyTaken(p: Params, f: int, v: int, t: set<int>, s: State, s1: State, i: int) {
    && OnlyMoved(s, s1, i) && 0 <= i < |s1.nodes|
    && s1.nodes[i].ptr.Some? && s1.nodes[i].ptr.value.blockHash == HashOf(p, f, v)
    && (|t| + 1 == Majority(p) ==> s1.nodes[i].ptr.value.sig == Forged(0))
  }

  lemma CopySenders(p: Params, f: int, v: int, t: set<int>, nd: Node, k: nat, x: int)
    requires Collected(p, f, v, t, nd, k) && t <= Ids(k) && f !in t
    ensures var m := Copy(p, f, v, x); ShareSenders(Filed(nd, m), m.hash) == t + {f} && |t + {f}| == |t| + 1
  {
    var m := Copy(p, f, v, x);
    forall j ensures j in ShareSenders(Filed(nd, m), m.hash) <==> j in t + {f} {
      if j in t {
        assert ShareKey(m.hash, j) in Filed(nd, m);
      }
      assert ShareKey(m.hash, f) in Filed(nd, m);
    }
  }

  lemma CopyJoins(p: Params, i: int, f: int, v: int, t: set<int>, nd: Node, k: nat, x: int, picked: set<int>)
    requires Collected(p, f, v, t, nd, k) && t <= Ids(k) && f !in t && x in t && i in p.committee
    requires |t| + 1 >= Majority(p) && MayPick(p, nd, Copy(p, f, v, x), picked)
    ensures var ptr := OnCommittee(p, i, nd, Copy(p, f, v, x), picked).node.ptr;
      && ptr.Some? && ptr.value.blockHash == HashOf(p, f, v)
      && (|t| + 1 == Majority(p) ==> ptr.value.sig == Forged(0))
  {
    var m := Copy(p, f, v, x);
    CopySenders(p, f, v, t, nd, k, x);
    if |t| + 1 == Majority(p) {
      SubsetFull(picked, t + {f});
      assert ShareKey(m.hash, x) in nd.blocksReceived;
      assert Filed(nd, m)[ShareKey(m.hash, x)] == Filed(nd, m)[ShareKey(m.hash, f)];
      PickedSize(Filed(nd, m), m.hash, picked);
    }
  }

  lemma TakeCopy(c: Config, p: Params, f: int, v: int, t: set<int>, before: seq<Step>, i: int)
    returns (steps: seq<Step>)
    requires ValidSetup(c, p) && f !in t && i in t && t <= p.committee && |t| + 1 >= Majority(p) && c.Honest(i)
    requires var s := Run(c, p, before);
      && |s.nodes| == c.n
      && !s.nodes[i].crashed && s.nodes[i].blocksReceived == map[] && s.nodes[i].ptr.None?
      && (forall j :: j in t ==> Signed(j, Version(p, f, v)) in s.net) && Copy(p, f, v, i) in s.net
    ensures CopyTaken(p, f, v, t, Run(c, p, before), Run(c, p, steps), i)
  {
    var some := Collect(c, p, f, v, t, before, i, c.n);
    var picked;
    steps, picked := Handle(c, p, some, i, Copy(p, f, v, i));
    CopyJoins(p, i, f, v, t, Run(c, p, some).nodes[i], c.n, i, picked);
  }

  // ---- The run

  /** What the run leads up to: everything is signed and copied, and the members are as they were. */
  ghost predicate Prepared(c: Config, p: Params, f: int, others: set<int>, s: State, a: int, b: int) {
    SignedTo(c, p, f, others, s, c.n) && Copy(p, f, 0, a) in s.net && Copy(p, f, 1, b) in s.net
  }

  lemma Prepare(c: Config, p: Params, f: int, others: set<int>, a: int, b: int) returns (steps: seq<Step>)
    requires ValidSetup(c, p) && p.committee !! c.faulty && f in c.faulty && p.ta < p.n
    requires others <= p.committee && a in p.committee - others && b in others
    ensures Prepared(c, p, f, others, Run(c, p, steps), a, b)
  {
    steps := OfferBoth(c, p, f);
    steps := SignAll(c, p, f, others, steps, c.n);
    assert Side(others, a) == 0 && Side(others, b) == 1;
    steps := CopyOne(c, p, f, 0, a, steps);
    steps := CopyOne(c, p, f, 1, b, steps);
  }

  lemma SideSigned(c: Config, p: Params, f: int, others: set<int>, s: State, v: int, j: int)
    requires ValidSetup(c, p) && SignedTo(c, p, f, others, s, c.n) && j in p.committee && c.Honest(j)
    requires Side(others, j) == v
    ensures Signed(j, Version(p, f, v)) in s.net
    ensures !s.nodes[j].crashed && s.nodes[j].blocksReceived == map[] && s.nodes[j].ptr.None?
  {
  }

  /** One node outside the committee is enough: a and b, honest members, hold pointers to their
      versions, and b's does not verify. */
  lemma SplitRun(c: Config, p: Params, f: int, others: set<int>, a: int, b: int) returns (steps: seq<Step>)
    requires ValidSetup(c, p) && p.committee !! c.faulty && f in c.faulty && p.ta < p.n
    requires others <= p.committee && a in p.committee - others && b in others && |others| + 1 == Majority(p)
    ensures var s := Run(c, p, steps);
      && |s.nodes| == c.n && s.nodes[a].ptr.Some? && s.nodes[a].ptr.value.blockHash == HashOf(p, f, 0)
      && s.nodes[b].ptr == Some(BlockPointer(HashOf(p, f, 1), Forged(0)))
  {
    var start := Prepare(c, p, f, others, a, b);
    var s := Run(c, p, start);
    forall j | j in p.committee
      ensures Signed(j, Version(p, f, Side(others, j))) in s.net
      ensures !s.nodes[j].crashed && s.nodes[j].blocksReceived == map[] && s.nodes[j].ptr.None?
    {
      SideSigned(c, p, f, others, s, Side(others, j), j);
    }
    assert p.committee == (p.committee - others) + others;
    var some := TakeCopy(c, p, f, 0, p.committee - others, start, a);
    steps := TakeCopy(c, p, f, 1, others, some, b);
  }

  /** A committee of two or more splits into two sides of which each needs one more share. */
  lemma Sides(committee: set<int>) returns (others: set<int>, a: int, b: int)
    requires |committee| >= 2
    ensures others <= committee && |others| + 1 == |committee| / 2 + 1
    ensures a in committee - others && b in others
  {
    others := PickWith(committee, {}, |committee| / 2);
    assert committee == (committee - others) + others;
    Inhabited(others);
    Inhabited(committee - others);
    a :| a in committee - others;
    b :| b in others;
  }

  lemma Spoil(c: Config, p: Params, f: int) returns (steps: seq<Step>, a: int, b: int)
    requires ValidSetup(c, p) && p.committee !! c.faulty && f in c.faulty && |p.committee| > 1 && p.ta < p.n
    ensures c.Honest(a) && c.Honest(b)
    ensures var s := Run(c, p, steps);
      && |s.nodes| == c.n && s.nodes[a].ptr.Some? && s.nodes[a].ptr.value.blockHash == HashOf(p, f, 0)
      && s.nodes[b].ptr == Some(BlockPointer(HashOf(p, f, 1), Forged(0)))
  {
    var others;
    others, a, b := Sides(p.committee);
    steps := SplitRun(c, p, f, others, a, b);
  }

  // ---- Exactly when the committee's pointers can be relied on

  /** With a committee that follows the program, all pointers of honest nodes are well-formed, and so
      the same, in every run if and only if nobody is faulty, or one share is a certificate, or nobody
      can sign. */
  lemma WellFormedExactly(c: Config, p: Params)
    requires ValidSetup(c, p) && p.committee !! c.faulty
    ensures (forall steps :: AllWell(c, Run(c, p, steps))) <==> Trusted(c, p)
  {
    if Trusted(c, p) {
      forall steps ensures AllWell(c, Run(c, p, steps)) {
        TrustedApart(c, p, steps);
        RunClean(c, p, steps);
      }
    } else {
      Inhabited(c.faulty);
      var f :| f in c.faulty;
      var steps, a, b := Spoil(c, p, f);
      assert !AllWell(c, Run(c, p, steps));
    }
  }
}
