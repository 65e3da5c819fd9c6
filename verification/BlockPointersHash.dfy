/** One block hash per round. When the committee follows the program, all pointers of honest nodes have
    one hash in every run, exactly when the committee's pointers can be relied on or no faulty node
    is among the first n-ta, whose messages make up the pre-block. */
module BlockPointersHash {
  import opened Quorums
  import opened Blocks
  import opened BlockPointers
  import opened BlockPointersSafety
  import opened BlockPointersProgress
  import opened BlockPointersCommittee
  import opened BlockPointersSplit

  // ---- What fills a large pre-block

  /** The message in slot j was sent. */
  ghost predicate Sent(net: set<Msg>, j: int, e: PreBlockMessage) {
    BlockMsg(j, true, e.message, e.sig) in net
  }

  ghost predicate SlotsSent(net: set<Msg>, nd: Node) {
    forall j :: 0 <= j < |nd.largePb| && nd.largePb[j].Some? ==> Sent(net, j, nd.largePb[j].value)
  }

  /** An honest node has sent one large message, and slots hold what was sent. */
  ghost predicate Recorded(c: Config, s: State) {
    && |s.nodes| == c.n
    && (forall i :: c.Honest(i) ==> SlotsSent(s.net, s.nodes[i]))
    && (forall m :: m in s.net && m.BlockMsg? && m.large && c.Honest(m.sender) ==> OneLarge(s.net, m))
  }

  lemma TurnSlots(p: Params, i: int, nd: Node, net: set<Msg>, m: Msg, picked: set<int>)
    requires SlotsSent(net, nd) && m in net
    ensures SlotsSent(net, OnMessage(p, i, nd, m, picked).node)
  {
    if m.BlockMsg? {
      assert m == BlockMsg(m.sender, m.large, m.payload, m.sig);
    }
  }

  lemma SlotsGrow(net: set<Msg>, net1: set<Msg>, nd: Node)
    requires SlotsSent(net, nd) && net <= net1
    ensures SlotsSent(net1, nd)
  {
  }

  lemma DeliverRecorded(c: Config, p: Params, s: State, i: int, m: Msg, picked: set<int>)
    requires Recorded(c, s) && Enabled(c, p, s, Deliver(i, m, picked))
    ensures Recorded(c, Do(c, p, s, Deliver(i, m, picked)))
  {
    var o := OnMessage(p, i, s.nodes[i], m, picked);
    var s1 := Install(s, i, o);
    TurnSlots(p, i, s.nodes[i], s.net, m, picked);
    NoBlocksSent(p, i, s.nodes[i], m, picked);
    forall j | c.Honest(j) ensures SlotsSent(s1.net, s1.nodes[j]) {
      SlotsGrow(s.net, s1.net, s1.nodes[j]);
    }
  }

  lemma AddRecorded(c: Config, p: Params, s: State, m: Msg)
    requires Recorded(c, s)
    requires m.BlockMsg? && m.large && c.Honest(m.sender) ==> OneLarge(s.net, m)
    ensures Recorded(c, s.(net := s.net + {m}))
  {
    var s1 := s.(net := s.net + {m});
    forall x | x in s1.net && x.BlockMsg? && x.large && c.Honest(x.sender) ensures OneLarge(s1.net, x) {
      if x in s.net {
        assert OneLarge(s.net, x);
      }
    }
  }

  lemma {:induction false} RunRecorded(c: Config, p: Params, steps: seq<Step>)
    requires ValidSetup(c, p)
    ensures Recorded(c, Run(c, p, steps))
  {
    if steps != [] {
      var s, step := Run(c, p, steps[..|steps| - 1]), steps[|steps| - 1];
      RunRecorded(c, p, steps[..|steps| - 1]);
      if Enabled(c, p, s, step) {
        match step
        case Propose(m) => AddRecorded(c, p, s, m);
        case Deliver(i, m, picked) => DeliverRecorded(c, p, s, i, m, picked);
        case Forge(m) => AddRecorded(c, p, s, m);
      }
    }
  }

  // ---- All honest members sign one hash

  /** The first n-ta nodes are honest. */
  ghost predicate HonestFirst(c: Config, p: Params) {
    forall j :: 0 <= j < Slots(p) ==> j !in c.faulty
  }

  lemma SameSlots(c: Config, p: Params, s: State, i: int, j: int)
    requires Inv(c, p, s) && Recorded(c, s) && HonestFirst(c, p) && c.Honest(i) && c.Honest(j)
    requires s.nodes[i].readyLarge && s.nodes[j].readyLarge
    ensures s.nodes[i].largePb == s.nodes[j].largePb
  {
    var a, b := s.nodes[i].largePb, s.nodes[j].largePb;
    assert NodeInv(c, p, i, s.nodes[i], s.net) && NodeInv(c, p, j, s.nodes[j], s.net);
    assert |a| == |b| == Slots(p);
    forall k | 0 <= k < |a| ensures a[k] == b[k] {
      assert Sent(s.net, k, a[k].value) && Sent(s.net, k, b[k].value);
      var m := BlockMsg(k, true, a[k].value.message, a[k].value.sig);
      assert OneLarge(s.net, m);
    }
  }

  /** Some honest member has signed this hash. */
  ghost predicate Signature(c: Config, p: Params, net: set<Msg>, hash: Digest) {
    exists j :: j in p.committee && c.Honest(j) && HasSigned(net, j, hash)
  }

  lemma SignatureGrows(c: Config, p: Params, net: set<Msg>, net1: set<Msg>, hash: Digest)
    requires net <= net1 && Signature(c, p, net, hash)
    ensures Signature(c, p, net1, hash)
  {
    var j :| j in p.committee && c.Honest(j) && HasSigned(net, j, hash);
    SignedGrows(net, net1, j, hash);
  }

  lemma OneSigned(c: Config, p: Params, s: State, a: Digest, b: Digest)
    requires Inv(c, p, s) && Recorded(c, s) && HonestFirst(c, p)
    requires Signature(c, p, s.net, a) && Signature(c, p, s.net, b)
    ensures a == b
  {
    var i :| i in p.committee && c.Honest(i) && HasSigned(s.net, i, a);
    var j :| j in p.committee && c.Honest(j) && HasSigned(s.net, j, b);
    assert NodeInv(c, p, i, s.nodes[i], s.net) && NodeInv(c, p, j, s.nodes[j], s.net);
    SameSlots(c, p, s, i, j);
  }

  // ---- Pointers carry signed hashes

  ghost predicate Traced(c: Config, p: Params, s: State) {
    && |s.nodes| == c.n
    && (forall i :: c.Honest(i) && s.nodes[i].ptr.Some? ==> Signature(c, p, s.net, s.nodes[i].ptr.value.blockHash))
    && (forall m :: m in s.net && m.PointerMsg? && m.sender in p.committee ==>
          Signature(c, p, s.net, m.pointer.blockHash))
  }

  lemma CertifiedSigned(c: Config, p: Params, net: set<Msg>, hash: Digest)
    requires ValidSetup(c, p) && p.committee !! c.faulty && Certifiable(c, p, net, hash)
    ensures Signature(c, p, net, hash)
  {
    assert p.committee * c.faulty == {};
    Inhabited(HonestSigners(c, p, net, hash));
    var j :| j in HonestSigners(c, p, net, hash);
  }

  ghost predicate TracedOutcome(c: Config, p: Params, net: set<Msg>, o: Outcome) {
    && (o.node.ptr.Some? ==> Signature(c, p, net, o.node.ptr.value.blockHash))
    && forall x :: x in o.sent && x.PointerMsg? ==> Signature(c, p, net, x.pointer.blockHash)
  }

  lemma CommitteeTraced(c: Config, p: Params, i: int, nd: Node, net: set<Msg>, m: Msg, picked: set<int>)
    requires ValidSetup(c, p) && p.committee !! c.faulty && m.CommitteeMsg? && MsgInv(c, p, net, m)
    requires nd.ptr.Some? ==> Signature(c, p, net, nd.ptr.value.blockHash)
    ensures TracedOutcome(c, p, net, OnCommittee(p, i, nd, m, picked))
  {
    if ValidCommittee(m) {
      assert Possible(c, p, net, m.hashSig, m.hash);
      assert HasSigned(net, m.hashSig.id - 1, m.hash);
    }
  }

  lemma PointerTraced(c: Config, p: Params, i: int, nd: Node, net: set<Msg>, m: Msg)
    requires ValidSetup(c, p) && p.committee !! c.faulty && m.PointerMsg? && MsgInv(c, p, net, m)
    requires nd.ptr.Some? ==> Signature(c, p, net, nd.ptr.value.blockHash)
    requires m.sender in p.committee ==> Signature(c, p, net, m.pointer.blockHash)
    ensures TracedOutcome(c, p, net, OnPointer(p, i, nd, m))
  {
    if m.pointer.sig.Verify(m.pointer.blockHash) {
      CertifiedSigned(c, p, net, m.pointer.blockHash);
    }
  }

  lemma BlockTraced(c: Config, p: Params, i: int, nd: Node, net: set<Msg>, m: Msg)
    requires m.BlockMsg? && (nd.ptr.Some? ==> Signature(c, p, net, nd.ptr.value.blockHash))
    ensures TracedOutcome(c, p, net, OnBlock(p, i, nd, m))
  {
    assert OnBlock(p, i, nd, m).node.ptr == nd.ptr;
  }

  lemma TurnTraced(c: Config, p: Params, i: int, nd: Node, net: set<Msg>, m: Msg, picked: set<int>)
    requires ValidSetup(c, p) && p.committee !! c.faulty && MsgInv(c, p, net, m)
    requires nd.ptr.Some? ==> Signature(c, p, net, nd.ptr.value.blockHash)
    requires m.PointerMsg? && m.sender in p.committee ==> Signature(c, p, net, m.pointer.blockHash)
    ensures TracedOutcome(c, p, net, OnMessage(p, i, nd, m, picked))
  {
    match m
    case CommitteeMsg(_, _, _, _, _) => CommitteeTraced(c, p, i, nd, net, m, picked);
    case PointerMsg(_, _) => PointerTraced(c, p, i, nd, net, m);
    case BlockMsg(_, _, _, _) => BlockTraced(c, p, i, nd, net, m);
  }

  lemma StepTraced(c: Config, p: Params, s: State, step: Step)
    requires Inv(c, p, s) && p.committee !! c.faulty && Traced(c, p, s)
    ensures Traced(c, p, Do(c, p, s, step))
  {
    var s1 := Do(c, p, s, step);
    if Enabled(c, p, s, step) && step.Deliver? {
      TurnTraced(c, p, step.i, s.nodes[step.i], s.net, step.m, step.picked);
    }
    forall h | Signature(c, p, s.net, h) ensures Signature(c, p, s1.net, h) {
      SignatureGrows(c, p, s.net, s1.net, h);
    }
  }

  lemma {:induction false} RunTraced(c: Config, p: Params, steps: seq<Step>)
    requires ValidSetup(c, p) && p.committee !! c.faulty
    ensures Traced(c, p, Run(c, p, steps))
  {
    if steps != [] {
      RunTraced(c, p, steps[..|steps| - 1]);
      RunInv(c, p, steps[..|steps| - 1]);
      StepTraced(c, p, Run(c, p, steps[..|steps| - 1]), steps[|steps| - 1]);
    }
  }

  // ---- Exactly when there is one hash

  /** All pointers of honest nodes have one block hash. */
  ghost predicate SameHash(c: Config, s: State) {
    && |s.nodes| == c.n
    && forall i, j :: c.Honest(i) && c.Honest(j) && s.nodes[i].ptr.Some? && s.nodes[j].ptr.Some? ==>
         s.nodes[i].ptr.value.blockHash == s.nodes[j].ptr.value.blockHash
  }

  lemma HonestFirstSame(c: Config, p: Params, steps: seq<Step>)
    requires ValidSetup(c, p) && p.committee !! c.faulty && HonestFirst(c, p)
    ensures SameHash(c, Run(c, p, steps))
  {
    var s := Run(c, p, steps);
    RunInv(c, p, steps);
    RunRecorded(c, p, steps);
    RunTraced(c, p, steps);
    forall i, j | c.Honest(i) && c.Honest(j) && s.nodes[i].ptr.Some? && s.nodes[j].ptr.Some?
      ensures s.nodes[i].ptr.value.blockHash == s.nodes[j].ptr.value.blockHash
    {
      OneSigned(c, p, s, s.nodes[i].ptr.value.blockHash, s.nodes[j].ptr.value.blockHash);
    }
  }

  lemma TrustedSame(c: Config, p: Params, steps: seq<Step>)
    requires ValidSetup(c, p) && p.committee !! c.faulty && Trusted(c, p)
    ensures SameHash(c, Run(c, p, steps))
  {
    var s := Run(c, p, steps);
    TrustedApart(c, p, steps);
    RunClean(c, p, steps);
    forall i, j | c.Honest(i) && c.Honest(j) && s.nodes[i].ptr.Some? && s.nodes[j].ptr.Some?
      ensures s.nodes[i].ptr == s.nodes[j].ptr
    {
      WellIsSame(c, p, steps, i, j);
    }
  }

  lemma SplitHashes(c: Config, p: Params, f: int) returns (steps: seq<Step>)
    requires ValidSetup(c, p) && p.committee !! c.faulty && !Trusted(c, p) && f in c.faulty && 0 <= f < Slots(p)
    ensures !SameHash(c, Run(c, p, steps))
  {
    var a, b;
    steps, a, b := Spoil(c, p, f);
    VersionsDiffer(p, f);
  }

  /** With a committee that follows the program, all pointers formed or adopted by honest nodes in a
      round have one block hash, in every run, if and only if the committee's pointers can be relied
      on or the first n-ta nodes are honest. */
  lemma SameHashExactly(c: Config, p: Params)
    requires ValidSetup(c, p) && p.committee !! c.faulty
    ensures (forall steps :: SameHash(c, Run(c, p, steps))) <==> Trusted(c, p) || HonestFirst(c, p)
  {
    if Trusted(c, p) {
      forall steps ensures SameHash(c, Run(c, p, steps)) {
        TrustedSame(c, p, steps);
      }
    } else if HonestFirst(c, p) {
      forall steps ensures SameHash(c, Run(c, p, steps)) {
        HonestFirstSame(c, p, steps);
      }
    } else {
      var f :| 0 <= f < Slots(p) && f in c.faulty;
      var steps := SplitHashes(c, p, f);
    }
  }
}
