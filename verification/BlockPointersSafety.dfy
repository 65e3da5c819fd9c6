/** Block pointers over all runs: any order, any loss, crashes, and faulty nodes that send what
    they like in their own names, may repeat shares they have seen, and cannot forge signatures. */
module BlockPointersSafety {
  import opened Quorums
  import opened Blocks
  import opened Tables
  import opened Certificates
  import opened BlockPointers

  datatype State = State(nodes: seq<Node>, net: set<Msg>)

  datatype Step =
    | Propose(m: Msg)          // an honest node sends a block message
    | Deliver(i: int, m: Msg, picked: set<int>)  // node i handles a message; a join uses these shares
    | Forge(m: Msg)            // a faulty node sends another message

  /** Fewer than 2K - kappa members are faulty, for kappa members and certificates of K shares. */
  ghost predicate ValidSetup(c: Config, p: Params) {
    && c.faulty <= Ids(c.n) && p.n == c.n && p.committee <= Ids(c.n)
    && |p.committee * c.faulty| + |p.committee| < 2 * Majority(p)
  }

  /** Member j has signed a hash. */
  ghost predicate HasSigned(net: set<Msg>, j: int, hash: Digest) {
    exists m :: m in net && m.CommitteeMsg? && m.sender == j && m.hash == hash && m.hashSig == OwnShare(j, hash)
  }

  /** A share on hash that can exist: made by a faulty member, or by an honest one that signed. */
  ghost predicate Possible(c: Config, p: Params, net: set<Msg>, share: SigShare, hash: Digest) {
    var j := share.id - 1;
    share.Verify(hash) && j in p.committee && (j in c.faulty || HasSigned(net, j, hash))
  }

  ghost function HonestSigners(c: Config, p: Params, net: set<Msg>, hash: Digest): set<int> {
    set j | j in p.committee && j !in c.faulty && HasSigned(net, j, hash)
  }

  /** Enough members, counting every faulty one, can have signed hash for a certificate. */
  ghost predicate Certifiable(c: Config, p: Params, net: set<Msg>, hash: Digest) {
    |HonestSigners(c, p, net, hash)| + |p.committee * c.faulty| >= Majority(p)
  }

  function Init(p: Params): State {
    State(seq(p.n, _ => InitNode(p)), {})
  }

  /** A node sends one large message, the same to all members. */
  ghost predicate OneLarge(net: set<Msg>, m: Msg) {
    forall x :: x in net && x.BlockMsg? && x.large && x.sender == m.sender ==> x == m
  }

  ghost predicate Enabled(c: Config, p: Params, s: State, step: Step) {
    match step
    case Propose(m) => m.BlockMsg? && c.Honest(m.sender) && (m.large ==> OneLarge(s.net, m))
    case Deliver(i, m, picked) =>
      c.Honest(i) && i < |s.nodes| && !s.nodes[i].crashed && m in s.net && MayPick(p, s.nodes[i], m, picked)
    case Forge(m) =>
      && m.sender in c.faulty
      && (m.CommitteeMsg? && m.hashSig.Verify(m.hash) ==> Possible(c, p, s.net, m.hashSig, m.hash))
      && (m.PointerMsg? && m.pointer.sig.Joined? ==> Certifiable(c, p, s.net, m.pointer.sig.doc))
  }

  function Install(s: State, i: int, o: Outcome): State
    requires 0 <= i < |s.nodes|
  {
    State(s.nodes[i := o.node], s.net + Members(o.sent))
  }

  ghost function Do(c: Config, p: Params, s: State, step: Step): State {
    if !Enabled(c, p, s, step) then s else
    match step
    case Propose(m) => s.(net := s.net + {m})
    case Deliver(i, m, picked) => Install(s, i, OnMessage(p, i, s.nodes[i], m, picked))
    case Forge(m) => s.(net := s.net + {m})
  }

  /** The state after a run; a step that is not enabled changes nothing. */
  ghost function Run(c: Config, p: Params, steps: seq<Step>): State {
    if steps == [] then Init(p)
    else Do(c, p, Run(c, p, steps[..|steps| - 1]), steps[|steps| - 1])
  }

  lemma RunMore(c: Config, p: Params, steps: seq<Step>, step: Step)
    ensures Run(c, p, steps + [step]) == Do(c, p, Run(c, p, steps), step)
  {
    assert (steps + [step])[..|steps|] == steps;
  }

  // ---- What every reachable state keeps

  /** A pre-block that is ready has no empty slot left, so it never changes again. */
  ghost predicate Filled(p: Params, nd: Node) {
    && |nd.largePb| == |nd.smallPb| == |EmptyVec(p)|
    && (nd.readyLarge ==> Full(PreBlock(nd.largePb, "large")))
    && (nd.readySmall ==> Full(PreBlock(nd.smallPb, "small")))
  }

  /** A node's committee messages carry its ready pre-block. */
  ghost predicate Own(p: Params, i: int, nd: Node, net: set<Msg>) {
    forall m :: m in net && m.CommitteeMsg? && m.sender == i ==>
      i in p.committee && nd.readyLarge && m == Signed(i, PreBlock(nd.largePb, "large"))
  }

  ghost predicate Stored(c: Config, p: Params, nd: Node, net: set<Msg>) {
    forall k :: k in nd.blocksReceived ==> Possible(c, p, net, nd.blocksReceived[k], k.hash)
  }

  /** A joined signature has its signers. */
  ghost predicate Backed(c: Config, p: Params, net: set<Msg>, pointer: BlockPointer) {
    pointer.sig.Joined? ==> Certifiable(c, p, net, pointer.sig.doc)
  }

  ghost predicate NodeInv(c: Config, p: Params, i: int, nd: Node, net: set<Msg>) {
    && Filled(p, nd) && Own(p, i, nd, net) && Stored(c, p, nd, net)
    && (nd.ptr.Some? ==> Backed(c, p, net, nd.ptr.value))
  }

  ghost predicate MsgInv(c: Config, p: Params, net: set<Msg>, m: Msg) {
    && (m.CommitteeMsg? && m.hashSig.Verify(m.hash) ==> Possible(c, p, net, m.hashSig, m.hash))
    && (m.PointerMsg? ==> Backed(c, p, net, m.pointer))
  }

  ghost predicate Inv(c: Config, p: Params, s: State) {
    && ValidSetup(c, p) && |s.nodes| == c.n
    && (forall i :: c.Honest(i) ==> NodeInv(c, p, i, s.nodes[i], s.net))
    && (forall m :: m in s.net ==> MsgInv(c, p, s.net, m))
  }

  // ---- Growing the network

  lemma SignedGrows(net: set<Msg>, net1: set<Msg>, j: int, hash: Digest)
    requires net <= net1
    ensures HasSigned(net, j, hash) ==> HasSigned(net1, j, hash)
  {
    if HasSigned(net, j, hash) {
      var m :| m in net && m.CommitteeMsg? && m.sender == j && m.hash == hash && m.hashSig == OwnShare(j, hash);
      assert m in net1;
    }
  }

  lemma PossibleGrows(c: Config, p: Params, net: set<Msg>, net1: set<Msg>, share: SigShare, hash: Digest)
    requires net <= net1
    ensures Possible(c, p, net, share, hash) ==> Possible(c, p, net1, share, hash)
  {
    SignedGrows(net, net1, share.id - 1, hash);
  }

  lemma CertifiableGrows(c: Config, p: Params, net: set<Msg>, net1: set<Msg>, hash: Digest)
    requires net <= net1
    ensures Certifiable(c, p, net, hash) ==> Certifiable(c, p, net1, hash)
  {
    forall j | j in HonestSigners(c, p, net, hash) ensures j in HonestSigners(c, p, net1, hash) {
      SignedGrows(net, net1, j, hash);
    }
    SubsetSize(HonestSigners(c, p, net, hash), HonestSigners(c, p, net1, hash));
  }

  lemma BackedGrows(c: Config, p: Params, net: set<Msg>, net1: set<Msg>, pointer: BlockPointer)
    requires net <= net1
    ensures Backed(c, p, net, pointer) ==> Backed(c, p, net1, pointer)
  {
    if pointer.sig.Joined? {
      CertifiableGrows(c, p, net, net1, pointer.sig.doc);
    }
  }

  lemma MsgGrows(c: Config, p: Params, net: set<Msg>, net1: set<Msg>, m: Msg)
    requires net <= net1 && MsgInv(c, p, net, m)
    ensures MsgInv(c, p, net1, m)
  {
    match m
    case CommitteeMsg(_, _, hash, hashSig, _) => PossibleGrows(c, p, net, net1, hashSig, hash);
    case PointerMsg(_, pointer) => BackedGrows(c, p, net, net1, pointer);
    case BlockMsg(_, _, _, _) =>
  }

  lemma StoredGrows(c: Config, p: Params, nd: Node, net: set<Msg>, net1: set<Msg>)
    requires net <= net1 && Stored(c, p, nd, net)
    ensures Stored(c, p, nd, net1)
  {
    forall k | k in nd.blocksReceived ensures Possible(c, p, net1, nd.blocksReceived[k], k.hash) {
      PossibleGrows(c, p, net, net1, nd.blocksReceived[k], k.hash);
    }
  }

  /** New messages that are not the node's own committee messages leave it alone. */
  lemma NodeGrows(c: Config, p: Params, i: int, nd: Node, net: set<Msg>, net1: set<Msg>)
    requires net <= net1 && NodeInv(c, p, i, nd, net)
    requires forall m :: m in net1 && m !in net && m.CommitteeMsg? ==> m.sender != i
    ensures NodeInv(c, p, i, nd, net1)
  {
    StoredGrows(c, p, nd, net, net1);
    if nd.ptr.Some? {
      BackedGrows(c, p, net, net1, nd.ptr.value);
    }
  }

  // ---- One node's turn

  lemma StoredKeeps(c: Config, p: Params, i: int, nd: Node, net: set<Msg>, m: Msg, picked: set<int>)
    requires Stored(c, p, nd, net) && MsgInv(c, p, net, m)
    ensures Stored(c, p, OnMessage(p, i, nd, m, picked).node, net)
  {
  }

  lemma FilledKeeps(p: Params, i: int, nd: Node, m: Msg, picked: set<int>)
    requires Filled(p, nd)
    ensures Filled(p, OnMessage(p, i, nd, m, picked).node)
  {
    if m.BlockMsg? {
      LargeFilled(p, i, nd, m);
      SmallFilled(p, nd, m);
    }
  }

  lemma LargeFilled(p: Params, i: int, nd: Node, m: Msg)
    requires Filled(p, nd) && m.BlockMsg?
    ensures Filled(p, OnLarge(p, i, nd, m).node)
  {
    if 0 <= m.sender < |nd.largePb| {
      QualityFull(nd.largePb[m.sender := Some(PreBlockMessage(m.payload, m.sig))]);
    }
  }

  lemma SmallFilled(p: Params, nd: Node, m: Msg)
    requires Filled(p, nd) && m.BlockMsg?
    ensures Filled(p, OnSmall(p, nd, m))
  {
    if 0 <= m.sender < |nd.smallPb| {
      QualityFull(nd.smallPb[m.sender := Some(PreBlockMessage(m.payload, m.sig))]);
    }
  }

  /** A signature joined from stored shares is backed: its keys belong to distinct members. */
  lemma JoinBacked(c: Config, p: Params, shares: map<ShareKey, SigShare>, net: set<Msg>, hash: Digest, picked: set<int>)
    requires forall k :: k in shares ==> Possible(c, p, net, shares[k], k.hash)
    requires Picks(Majority(p), shares, hash, picked)
    requires Join(Majority(p), shares, hash, picked) == Some(Joined(hash))
    ensures Certifiable(c, p, net, hash)
  {
    var ids := PickedIds(shares, hash, picked);
    var makers := Moved(ids, -1);
    MovedSize(ids, -1);
    forall j | j in makers ensures j in HonestSigners(c, p, net, hash) + p.committee * c.faulty {
      var k :| k in shares && k.hash == hash && shares[k].id - 1 == j;
      assert Possible(c, p, net, shares[k], hash);
    }
    SubsetSize(makers, HonestSigners(c, p, net, hash) + p.committee * c.faulty);
    UnionSize(HonestSigners(c, p, net, hash), p.committee * c.faulty);
  }

  lemma PointersKeep(c: Config, p: Params, i: int, nd: Node, net: set<Msg>, m: Msg, picked: set<int>)
    requires Stored(c, p, nd, net) && MsgInv(c, p, net, m) && MayPick(p, nd, m, picked)
    requires nd.ptr.Some? ==> Backed(c, p, net, nd.ptr.value)
    ensures var o := OnMessage(p, i, nd, m, picked);
      && (o.node.ptr.Some? ==> Backed(c, p, net, o.node.ptr.value))
      && (forall x :: x in o.sent && x.PointerMsg? ==> Backed(c, p, net, x.pointer))
  {
    if m.CommitteeMsg? && i in p.committee && ValidCommittee(m) {
      StoredKeeps(c, p, i, nd, net, m, picked);
      var blocks := OnMessage(p, i, nd, m, picked).node.blocksReceived;
      if Join(Majority(p), blocks, m.hash, picked) == Some(Joined(m.hash)) {
        JoinBacked(c, p, blocks, net, m.hash, picked);
      }
    }
  }

  /** What a node signs is what it then holds, and it has not signed before. */
  lemma OwnKeeps(p: Params, i: int, nd: Node, net: set<Msg>, m: Msg, picked: set<int>)
    requires Filled(p, nd) && Own(p, i, nd, net)
    ensures var o := OnMessage(p, i, nd, m, picked); Own(p, i, o.node, net + Members(o.sent))
  {
    var o := OnMessage(p, i, nd, m, picked);
    assert o.sent == [] || o.sent == [o.sent[0]];
    if nd.readyLarge {
      assert o.node.largePb == nd.largePb;
    }
  }

  lemma SentSigned(p: Params, i: int, nd: Node, m: Msg, picked: set<int>)
    ensures forall x :: x in OnMessage(p, i, nd, m, picked).sent ==>
              x.sender == i && (x.CommitteeMsg? ==> i in p.committee && x.hashSig == OwnShare(i, x.hash))
  {
  }

  lemma DeliverKeeps(c: Config, p: Params, s: State, i: int, m: Msg, picked: set<int>)
    requires Inv(c, p, s) && Enabled(c, p, s, Deliver(i, m, picked))
    ensures Inv(c, p, Do(c, p, s, Deliver(i, m, picked)))
  {
    var nd := s.nodes[i];
    var o := OnMessage(p, i, nd, m, picked);
    var net1 := s.net + Members(o.sent);
    TurnKeeps(c, p, i, nd, s.net, m, picked);
    forall j | c.Honest(j) && j != i ensures NodeInv(c, p, j, s.nodes[j], net1) {
      NodeGrows(c, p, j, s.nodes[j], s.net, net1);
    }
    forall x | x in net1 ensures MsgInv(c, p, net1, x) {
      if x in s.net {
        MsgGrows(c, p, s.net, net1, x);
      }
    }
  }

  lemma TurnKeeps(c: Config, p: Params, i: int, nd: Node, net: set<Msg>, m: Msg, picked: set<int>)
    requires c.Honest(i) && NodeInv(c, p, i, nd, net) && MsgInv(c, p, net, m) && MayPick(p, nd, m, picked)
    ensures var o := OnMessage(p, i, nd, m, picked);
      var net1 := net + Members(o.sent);
      NodeInv(c, p, i, o.node, net1) && forall x :: x in o.sent ==> x.sender == i && MsgInv(c, p, net1, x)
  {
    var o := OnMessage(p, i, nd, m, picked);
    var net1 := net + Members(o.sent);
    SentSigned(p, i, nd, m, picked);
    StoredKeeps(c, p, i, nd, net, m, picked);
    FilledKeeps(p, i, nd, m, picked);
    PointersKeep(c, p, i, nd, net, m, picked);
    OwnKeeps(p, i, nd, net, m, picked);
    StoredGrows(c, p, o.node, net, net1);
    if o.node.ptr.Some? {
      BackedGrows(c, p, net, net1, o.node.ptr.value);
    }
    forall x | x in o.sent ensures MsgInv(c, p, net1, x) {
      SentKeeps(c, p, i, net, net1, x);
    }
  }

  lemma SentKeeps(c: Config, p: Params, i: int, net: set<Msg>, net1: set<Msg>, x: Msg)
    requires net <= net1 && x in net1 && x.sender == i
    requires x.CommitteeMsg? ==> i in p.committee && x.hashSig == OwnShare(i, x.hash)
    requires x.PointerMsg? ==> Backed(c, p, net, x.pointer)
    ensures MsgInv(c, p, net1, x)
  {
    if x.PointerMsg? {
      BackedGrows(c, p, net, net1, x.pointer);
    }
  }

  lemma AddKeeps(c: Config, p: Params, s: State, m: Msg)
    requires Inv(c, p, s) && MsgInv(c, p, s.net, m) && (m.CommitteeMsg? ==> m.sender in c.faulty)
    ensures Inv(c, p, s.(net := s.net + {m}))
  {
    var net1 := s.net + {m};
    forall j | c.Honest(j) ensures NodeInv(c, p, j, s.nodes[j], net1) {
      NodeGrows(c, p, j, s.nodes[j], s.net, net1);
    }
    forall x | x in net1 ensures MsgInv(c, p, net1, x) {
      MsgGrows(c, p, s.net, net1, x);
    }
  }

  lemma {:induction false} RunInv(c: Config, p: Params, steps: seq<Step>)
    requires ValidSetup(c, p)
    ensures Inv(c, p, Run(c, p, steps))
  {
    if steps != [] {
      var s, step := Run(c, p, steps[..|steps| - 1]), steps[|steps| - 1];
      RunInv(c, p, steps[..|steps| - 1]);
      if Enabled(c, p, s, step) {
        match step
        case Propose(m) => AddKeeps(c, p, s, m);
        case Deliver(i, m, picked) => DeliverKeeps(c, p, s, i, m, picked);
        case Forge(m) => AddKeeps(c, p, s, m);
      }
    }
  }

  // ---- Results

  /** Two certifiable hashes share an honest signer. */
  lemma CommonSigner(c: Config, p: Params, net: set<Msg>, a: Digest, b: Digest) returns (j: int)
    requires ValidSetup(c, p) && Certifiable(c, p, net, a) && Certifiable(c, p, net, b)
    ensures j in p.committee && c.Honest(j) && HasSigned(net, j, a) && HasSigned(net, j, b)
  {
    var x, y := HonestSigners(c, p, net, a), HonestSigners(c, p, net, b);
    Overlap(x, y, p.committee - c.faulty);
    assert p.committee == (p.committee - c.faulty) + p.committee * c.faulty;
    Inhabited(x * y);
    j :| j in x * y;
  }

  lemma Overlap(x: set<int>, y: set<int>, all: set<int>)
    requires x <= all && y <= all
    ensures |x * y| >= |x| + |y| - |all|
  {
    SubsetSize(x + y, all);
    UnionSize(x, y);
  }

  /** An honest member signs one hash. */
  lemma OneHash(c: Config, p: Params, s: State, a: Digest, b: Digest)
    requires Inv(c, p, s) && Certifiable(c, p, s.net, a) && Certifiable(c, p, s.net, b)
    ensures a == b
  {
    var j := CommonSigner(c, p, s.net, a, b);
    assert NodeInv(c, p, j, s.nodes[j], s.net);
  }

  /** A pointer that some honest node holds or somebody has sent. */
  ghost predicate Around(c: Config, s: State, pointer: BlockPointer) {
    || (exists i :: c.Honest(i) && i < |s.nodes| && s.nodes[i].ptr == Some(pointer))
    || (exists m :: m in s.net && m.PointerMsg? && m.pointer == pointer)
  }

  /** Unique pointer: all well-formed block pointers around in a round are the same, with fewer
      than 2K - kappa faulty members and any number of other faulty nodes. */
  lemma UniquePointer(c: Config, p: Params, steps: seq<Step>, a: BlockPointer, b: BlockPointer)
    requires ValidSetup(c, p)
    requires Around(c, Run(c, p, steps), a) && a.sig.Verify(a.blockHash)
    requires Around(c, Run(c, p, steps), b) && b.sig.Verify(b.blockHash)
    ensures a == b
  {
    RunInv(c, p, steps);
    AroundBacked(c, p, Run(c, p, steps), a);
    AroundBacked(c, p, Run(c, p, steps), b);
    OneHash(c, p, Run(c, p, steps), a.blockHash, b.blockHash);
  }

  lemma AroundBacked(c: Config, p: Params, s: State, pointer: BlockPointer)
    requires Inv(c, p, s) && Around(c, s, pointer)
    ensures Backed(c, p, s.net, pointer)
  {
    if m :| m in s.net && m.PointerMsg? && m.pointer == pointer {
      assert MsgInv(c, p, s.net, m);
    }
  }

  /** A node that starts block agreement does so with a pre-block of n - ta messages and no gap. */
  lemma ReadyIsFull(c: Config, p: Params, steps: seq<Step>, i: int)
    requires ValidSetup(c, p) && p.ta <= p.n && c.Honest(i)
    ensures |Run(c, p, steps).nodes| == c.n
    ensures var nd := Run(c, p, steps).nodes[i];
      && (nd.readySmall ==> Full(PreBlock(nd.smallPb, "small")) && Quality(nd.smallPb) == p.n - p.ta)
      && (nd.readyLarge ==> Full(PreBlock(nd.largePb, "large")) && Quality(nd.largePb) == p.n - p.ta)
  {
    RunInv(c, p, steps);
    QualityFull(Run(c, p, steps).nodes[i].smallPb);
    QualityFull(Run(c, p, steps).nodes[i].largePb);
  }
}
