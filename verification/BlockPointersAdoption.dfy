/** Who holds which block pointer: a node outside the committee the first one a member sends it, a
    member as soon as it has heard of a well-formed one or of enough shares; a pointer a member holds
    it has sent on; and in some run all nodes come to hold one well-formed pointer. */
module BlockPointersAdoption {
  import opened Quorums
  import opened Blocks
  import opened Tables
  import opened Certificates
  import opened BlockPointers
  import opened BlockPointersSafety
  import opened BlockPointersProgress

  // ---- The first pointer that counts

  /** What a node without a pointer adopts: a member a well-formed pointer, whoever sends it, any
      other node what a member sends. */
  predicate Adoptable(p: Params, id: int, m: Msg) {
    m.PointerMsg? && if id in p.committee then m.pointer.sig.Verify(m.pointer.blockHash) else m.sender in p.committee
  }

  /** The first such pointer in ms is x. */
  ghost predicate IsFirst(p: Params, id: int, ms: seq<Msg>, x: BlockPointer) {
    exists k :: 0 <= k < |ms| && Adoptable(p, id, ms[k]) && ms[k].pointer == x && NoneYet(p, id, ms[..k])
  }

  ghost predicate NoneYet(p: Params, id: int, ms: seq<Msg>) {
    forall m :: m in ms ==> !Adoptable(p, id, m)
  }

  lemma FirstMore(p: Params, id: int, ms: seq<Msg>, m: Msg, x: BlockPointer)
    ensures IsFirst(p, id, ms + [m], x) <==>
            IsFirst(p, id, ms, x) || (NoneYet(p, id, ms) && Adoptable(p, id, m) && m.pointer == x)
  {
    var all := ms + [m];
    forall k | 0 <= k <= |ms| ensures all[..k] == ms[..k] {
    }
    assert ms[..|ms|] == ms && all[|ms|] == m;
    if IsFirst(p, id, ms, x) {
      var k :| 0 <= k < |ms| && Adoptable(p, id, ms[k]) && ms[k].pointer == x && NoneYet(p, id, ms[..k]);
      assert all[k] == ms[k];
    }
  }

  lemma NoneMore(p: Params, id: int, ms: seq<Msg>, m: Msg)
    ensures NoneYet(p, id, ms + [m]) <==> NoneYet(p, id, ms) && !Adoptable(p, id, m)
  {
    assert m in ms + [m];
  }

  // ---- A node outside the committee

  ghost predicate OutsiderOf(p: Params, i: int, nd: Node, ms: seq<Msg>) {
    && (nd.ptr.None? <==> NoneYet(p, i, ms))
    && (forall x :: nd.ptr == Some(x) <==> IsFirst(p, i, ms, x))
    && nd.ptrNotices == if nd.ptr.Some? then 1 else 0
  }

  lemma OutsiderTurn(p: Params, i: int, nd: Node, ms: seq<Msg>, m: Msg, picked: set<int>)
    requires i !in p.committee && OutsiderOf(p, i, nd, ms)
    ensures OutsiderOf(p, i, OnMessage(p, i, nd, m, picked).node, ms + [m])
  {
    NoneMore(p, i, ms, m);
    forall x
      ensures IsFirst(p, i, ms + [m], x) <==>
              IsFirst(p, i, ms, x) || (NoneYet(p, i, ms) && Adoptable(p, i, m) && m.pointer == x)
    {
      FirstMore(p, i, ms, m, x);
    }
  }

  // ---- A member

  /** A committee message whose share is on the hash of its pre-block, with the dealer's signature on
      its sender's number. */
  predicate Proves(m: Msg)
    requires m.CommitteeMsg?
  {
    m.hash == PreBlockHash(m.preBlock) && m.hashSig.doc == m.hash && m.proof.doc == OfNumber(m.sender)
  }

  /** Who has shown the node such a share on this hash. */
  ghost function Signers(ms: seq<Msg>, hash: Digest): set<int> {
    set m | m in ms && m.CommitteeMsg? && Proves(m) && m.hash == hash :: m.sender
  }

  /** Enough of them for a certificate. */
  ghost predicate Ripe(p: Params, ms: seq<Msg>, hash: Digest) {
    |Signers(ms, hash)| >= Majority(p)
  }

  ghost predicate SomeRipe(p: Params, ms: seq<Msg>) {
    exists hash :: Ripe(p, ms, hash)
  }

  lemma SignersMore(ms: seq<Msg>, m: Msg, hash: Digest)
    ensures Signers(ms + [m], hash) ==
            if m.CommitteeMsg? && ValidCommittee(m) && m.hash == hash then Signers(ms, hash) + {m.sender}
            else Signers(ms, hash)
  {
    forall j ensures j in Signers(ms + [m], hash) <==>
                     j in Signers(ms, hash)
                     || (m.CommitteeMsg? && ValidCommittee(m) && m.hash == hash && m.sender == j)
    {
      assert m in ms + [m];
    }
  }

  ghost predicate MemberOf(p: Params, i: int, nd: Node, ms: seq<Msg>) {
    && (forall hash :: ShareSenders(nd.blocksReceived, hash) == Signers(ms, hash))
    && (nd.ptr.None? <==> NoneYet(p, i, ms) && !SomeRipe(p, ms))
    && (SomeRipe(p, ms) ==> nd.ptr.Some? && Ripe(p, ms, nd.ptr.value.blockHash))
    && (!SomeRipe(p, ms) ==> forall x :: nd.ptr == Some(x) <==> IsFirst(p, i, ms, x))
    && (nd.ptr.Some? <==> nd.ptrNotices > 0)
  }

  lemma FiledSenders(nd: Node, m: Msg, hash: Digest)
    requires m.CommitteeMsg?
    ensures ShareSenders(Filed(nd, m), hash) ==
            if m.hash == hash then ShareSenders(nd.blocksReceived, hash) + {m.sender}
            else ShareSenders(nd.blocksReceived, hash)
  {
    forall j ensures j in ShareSenders(Filed(nd, m), hash) <==>
                     j in ShareSenders(nd.blocksReceived, hash) || (m.hash == hash && m.sender == j)
    {
      assert ShareKey(m.hash, m.sender) in Filed(nd, m);
      if j in ShareSenders(nd.blocksReceived, hash) {
        assert ShareKey(hash, j) in Filed(nd, m);
      }
    }
  }

  /** A valid share more: signers and the verdict on one hash change. */
  lemma ShareTurn(p: Params, i: int, nd: Node, ms: seq<Msg>, m: Msg, picked: set<int>)
    requires i in p.committee && MemberOf(p, i, nd, ms) && m.CommitteeMsg? && ValidCommittee(m)
    ensures MemberOf(p, i, OnCommittee(p, i, nd, m, picked).node, ms + [m])
  {
    var nd1 := OnCommittee(p, i, nd, m, picked).node;
    forall hash
      ensures ShareSenders(nd1.blocksReceived, hash) == Signers(ms + [m], hash)
      ensures hash != m.hash ==> (Ripe(p, ms + [m], hash) <==> Ripe(p, ms, hash))
      ensures Ripe(p, ms, hash) ==> Ripe(p, ms + [m], hash)
    {
      SignersMore(ms, m, hash);
      FiledSenders(nd, m, hash);
      SubsetSize(Signers(ms, hash), Signers(ms + [m], hash));
    }
    NoneMore(p, i, ms, m);
    forall x ensures IsFirst(p, i, ms + [m], x) <==> IsFirst(p, i, ms, x) {
      FirstMore(p, i, ms, m, x);
    }
    assert Ripe(p, ms + [m], m.hash) <==> |ShareSenders(Filed(nd, m), m.hash)| >= Majority(p);
    assert SomeRipe(p, ms + [m]) <==> SomeRipe(p, ms) || Ripe(p, ms + [m], m.hash);
  }

  /** A message that is no valid share: only a first well-formed pointer makes a difference. */
  lemma OtherTurn(p: Params, i: int, nd: Node, nd1: Node, ms: seq<Msg>, m: Msg)
    requires MemberOf(p, i, nd, ms) && !(m.CommitteeMsg? && ValidCommittee(m))
    requires nd1.blocksReceived == nd.blocksReceived
    requires if nd.ptr.None? && Adoptable(p, i, m)
             then nd1.ptr == Some(m.pointer) && nd1.ptrNotices > 0
             else nd1.ptr == nd.ptr && nd1.ptrNotices == nd.ptrNotices
    ensures MemberOf(p, i, nd1, ms + [m])
  {
    forall hash ensures Signers(ms + [m], hash) == Signers(ms, hash) {
      SignersMore(ms, m, hash);
    }
    assert forall hash :: Ripe(p, ms + [m], hash) <==> Ripe(p, ms, hash);
    assert SomeRipe(p, ms + [m]) <==> SomeRipe(p, ms);
    NoneMore(p, i, ms, m);
    forall x
      ensures IsFirst(p, i, ms + [m], x) <==>
              IsFirst(p, i, ms, x) || (NoneYet(p, i, ms) && Adoptable(p, i, m) && m.pointer == x)
    {
      FirstMore(p, i, ms, m, x);
    }
  }

  lemma OtherTurns(p: Params, i: int, nd: Node, m: Msg, picked: set<int>)
    requires i in p.committee && !(m.CommitteeMsg? && ValidCommittee(m))
    ensures var nd1 := OnMessage(p, i, nd, m, picked).node;
      && nd1.blocksReceived == nd.blocksReceived
      && if nd.ptr.None? && Adoptable(p, i, m)
         then nd1.ptr == Some(m.pointer) && nd1.ptrNotices > 0
         else nd1.ptr == nd.ptr && nd1.ptrNotices == nd.ptrNotices
  {
    match m
    case BlockMsg(_, _, _, _) =>
    case PointerMsg(_, _) =>
    case CommitteeMsg(_, _, _, _, _) =>
  }

  lemma MemberTurn(p: Params, i: int, nd: Node, ms: seq<Msg>, m: Msg, picked: set<int>)
    requires i in p.committee && MemberOf(p, i, nd, ms)
    ensures MemberOf(p, i, OnMessage(p, i, nd, m, picked).node, ms + [m])
  {
    if m.CommitteeMsg? && ValidCommittee(m) {
      ShareTurn(p, i, nd, ms, m, picked);
    } else {
      OtherTurns(p, i, nd, m, picked);
      OtherTurn(p, i, nd, OnMessage(p, i, nd, m, picked).node, ms, m);
    }
  }

  // ---- Runs

  ghost predicate HoldsAs(p: Params, i: int, nd: Node, ms: seq<Msg>) {
    if i in p.committee then MemberOf(p, i, nd, ms) else OutsiderOf(p, i, nd, ms)
  }

  /** A step that is not node i's turn leaves it alone; a turn is the handler's. */
  lemma Turns(c: Config, p: Params, steps: seq<Step>, i: int)
    requires ValidSetup(c, p) && c.Honest(i) && steps != []
    ensures |Run(c, p, steps).nodes| == c.n && |Run(c, p, steps[..|steps| - 1]).nodes| == c.n
    ensures var before, step := steps[..|steps| - 1], steps[|steps| - 1];
      var s, s1 := Run(c, p, before), Run(c, p, steps);
      var ms, ms1 := HandledBy(c, p, before, i), HandledBy(c, p, steps, i);
      if step.Deliver? && step.i == i && Enabled(c, p, s, step)
      then s1.nodes[i] == OnMessage(p, i, s.nodes[i], step.m, step.picked).node && ms1 == ms + [step.m]
      else s1.nodes[i] == s.nodes[i] && ms1 == ms
  {
    RunInv(c, p, steps[..|steps| - 1]);
  }

  lemma {:induction false} RunHolds(c: Config, p: Params, steps: seq<Step>, i: int)
    requires ValidSetup(c, p) && c.Honest(i)
    ensures |Run(c, p, steps).nodes| == c.n
    ensures HoldsAs(p, i, Run(c, p, steps).nodes[i], HandledBy(c, p, steps, i))
  {
    if steps == [] {
      assert forall hash :: Signers([], hash) == {} == ShareSenders(map[], hash);
    } else {
      var before, step := steps[..|steps| - 1], steps[|steps| - 1];
      RunHolds(c, p, before, i);
      Turns(c, p, steps, i);
      var nd, ms := Run(c, p, before).nodes[i], HandledBy(c, p, before, i);
      if step.Deliver? && step.i == i && Enabled(c, p, Run(c, p, before), step) {
        if i in p.committee {
          MemberTurn(p, i, nd, ms, step.m, step.picked);
        } else {
          OutsiderTurn(p, i, nd, ms, step.m, step.picked);
        }
      }
    }
  }

  /** In every run an honest node outside the committee holds a pointer if and only if it has
      handled one that a member sent, and then it holds the first of these. */
  lemma OutsiderHolds(c: Config, p: Params, steps: seq<Step>, i: int)
    requires ValidSetup(c, p) && c.Honest(i) && i !in p.committee
    ensures |Run(c, p, steps).nodes| == c.n
    ensures var nd, ms := Run(c, p, steps).nodes[i], HandledBy(c, p, steps, i);
      && (nd.ptr.Some? <==> exists m :: m in ms && m.PointerMsg? && m.sender in p.committee)
      && (forall x :: nd.ptr == Some(x) <==> IsFirst(p, i, ms, x))
  {
    RunHolds(c, p, steps, i);
  }

  /** In every run an honest member holds a pointer if and only if it has handled a well-formed one
      or valid shares on one hash of a majority of the committee's size. Without such shares it holds
      the first well-formed pointer, with them one to a hash that has them. */
  lemma MemberHolds(c: Config, p: Params, steps: seq<Step>, i: int)
    requires ValidSetup(c, p) && c.Honest(i) && i in p.committee
    ensures |Run(c, p, steps).nodes| == c.n
    ensures var nd, ms := Run(c, p, steps).nodes[i], HandledBy(c, p, steps, i);
      && (nd.ptr.Some? <==>
            SomeRipe(p, ms) || exists m :: m in ms && m.PointerMsg? && m.pointer.sig.Verify(m.pointer.blockHash))
      && (SomeRipe(p, ms) ==> Ripe(p, ms, nd.ptr.value.blockHash))
      && (!SomeRipe(p, ms) ==> forall x :: nd.ptr == Some(x) <==> IsFirst(p, i, ms, x))
  {
    RunHolds(c, p, steps, i);
  }

  // ---- A member sends what it holds

  ghost predicate Sent(p: Params, i: int, nd: Node, net: set<Msg>) {
    i in p.committee && nd.ptr.Some? ==> PointerMsg(i, nd.ptr.value) in net
  }

  lemma SendsTurn(p: Params, i: int, nd: Node, net: set<Msg>, m: Msg, picked: set<int>)
    requires Sent(p, i, nd, net)
    ensures var o := OnMessage(p, i, nd, m, picked); Sent(p, i, o.node, net + Members(o.sent))
  {
  }

  /** In every run an honest member has sent the pointer it holds. */
  lemma {:induction false} MemberSends(c: Config, p: Params, steps: seq<Step>, i: int)
    requires ValidSetup(c, p) && c.Honest(i) && i in p.committee
    ensures |Run(c, p, steps).nodes| == c.n
    ensures var s := Run(c, p, steps); forall x :: s.nodes[i].ptr == Some(x) ==> PointerMsg(i, x) in s.net
  {
    if steps != [] {
      var before, step := steps[..|steps| - 1], steps[|steps| - 1];
      MemberSends(c, p, before, i);
      Turns(c, p, steps, i);
      var s := Run(c, p, before);
      if step.Deliver? && step.i == i && Enabled(c, p, s, step) {
        SendsTurn(p, i, s.nodes[i], s.net, step.m, step.picked);
      }
    }
  }

  // ---- Those who wait for a pre-block or a pointer

  lemma NoticeTurn(p: Params, i: int, nd: Node, m: Msg, picked: set<int>)
    requires nd.readyNotices == if nd.readySmall then 1 else 0
    ensures var nd1 := OnMessage(p, i, nd, m, picked).node; nd1.readyNotices == if nd1.readySmall then 1 else 0
  {
  }

  /** In every run readyChan has one notice once the small pre-block is ready and none before, and
      ptrChan has notices exactly when there is a pointer, one only outside the committee. */
  lemma {:induction false} NoticesExactly(c: Config, p: Params, steps: seq<Step>, i: int)
    requires ValidSetup(c, p) && c.Honest(i)
    ensures |Run(c, p, steps).nodes| == c.n
    ensures var nd := Run(c, p, steps).nodes[i];
      && nd.readyNotices == (if nd.readySmall then 1 else 0)
      && (nd.ptrNotices > 0 <==> nd.ptr.Some?)
      && (i !in p.committee ==> nd.ptrNotices <= 1)
  {
    RunHolds(c, p, steps, i);
    if steps != [] {
      var before, step := steps[..|steps| - 1], steps[|steps| - 1];
      NoticesExactly(c, p, before, i);
      Turns(c, p, steps, i);
      if step.Deliver? && step.i == i {
        NoticeTurn(p, i, Run(c, p, before).nodes[i], step.m, step.picked);
      }
    }
  }
}
