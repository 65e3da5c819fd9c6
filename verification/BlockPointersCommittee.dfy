/** A committee that follows the program. Its pointers are well-formed, and so all the same, as long as
    no join uses one key twice; a faulty node outside the committee can see to it that one does, by
    sending a member's share in its own name. */
module BlockPointersCommittee {
  import opened Quorums
  import opened Blocks
  import opened Certificates
  import opened BlockPointers
  import opened BlockPointersSafety

  // ---- Joins in a run

  ghost predicate WellFormed(pointer: BlockPointer) {
    pointer.sig.Verify(pointer.blockHash)
  }

  /** The member joins shares when it handles this message. */
  predicate JoinsNow(p: Params, i: int, nd: Node, m: Msg) {
    && m.CommitteeMsg? && i in p.committee && ValidCommittee(m)
    && |ShareSenders(Filed(nd, m), m.hash)| >= Majority(p)
  }

  /** If this step joins shares, it uses shares of different keys. */
  ghost predicate StepApart(c: Config, p: Params, s: State, step: Step) {
    Enabled(c, p, s, step) && step.Deliver? && JoinsNow(p, step.i, s.nodes[step.i], step.m) ==>
      Apart(Filed(s.nodes[step.i], step.m), step.m.hash, step.picked)
  }

  /** No join of the run uses a key twice. */
  ghost predicate JoinsApart(c: Config, p: Params, steps: seq<Step>) {
    forall k :: 0 <= k < |steps| ==> StepApart(c, p, Run(c, p, steps[..k]), steps[k])
  }

  /** Every pointer an honest node holds is well-formed. */
  ghost predicate AllWell(c: Config, s: State) {
    |s.nodes| == c.n && forall i :: c.Honest(i) && s.nodes[i].ptr.Some? ==> WellFormed(s.nodes[i].ptr.value)
  }

  /** So is every pointer a member sends. */
  ghost predicate Clean(c: Config, p: Params, s: State) {
    AllWell(c, s) && forall m :: m in s.net && m.PointerMsg? && m.sender in p.committee ==> WellFormed(m.pointer)
  }

  ghost predicate CleanOutcome(o: Outcome) {
    && (o.node.ptr.Some? ==> WellFormed(o.node.ptr.value))
    && forall x :: x in o.sent && x.PointerMsg? ==> WellFormed(x.pointer)
  }

  lemma CleanTurn(p: Params, i: int, nd: Node, m: Msg, picked: set<int>)
    requires nd.ptr.Some? ==> WellFormed(nd.ptr.value)
    requires m.PointerMsg? && m.sender in p.committee ==> WellFormed(m.pointer)
    requires JoinsNow(p, i, nd, m) ==> Apart(Filed(nd, m), m.hash, picked)
    ensures CleanOutcome(OnMessage(p, i, nd, m, picked))
  {
    match m
    case CommitteeMsg(_, _, _, _, _) => assert CleanOutcome(OnCommittee(p, i, nd, m, picked));
    case PointerMsg(_, _) => assert CleanOutcome(OnPointer(p, i, nd, m));
    case BlockMsg(_, _, _, _) => assert CleanOutcome(OnBlock(p, i, nd, m));
  }

  lemma CleanStep(c: Config, p: Params, s: State, step: Step)
    requires p.committee !! c.faulty && Clean(c, p, s) && StepApart(c, p, s, step)
    ensures Clean(c, p, Do(c, p, s, step))
  {
    if Enabled(c, p, s, step) && step.Deliver? {
      CleanTurn(p, step.i, s.nodes[step.i], step.m, step.picked);
    }
  }

  lemma {:induction false} RunClean(c: Config, p: Params, steps: seq<Step>)
    requires ValidSetup(c, p) && p.committee !! c.faulty && JoinsApart(c, p, steps)
    ensures Clean(c, p, Run(c, p, steps))
  {
    if steps != [] {
      var last := |steps| - 1;
      var before := steps[..last];
      assert forall k :: 0 <= k < last ==> before[..k] == steps[..k];
      RunClean(c, p, before);
      assert StepApart(c, p, Run(c, p, steps[..last]), steps[last]);
      CleanStep(c, p, Run(c, p, before), steps[last]);
    }
  }

  /** A join that uses a key twice leaves its member with a pointer that does not verify. */
  lemma JunkPointer(c: Config, p: Params, s: State, step: Step)
    requires |s.nodes| == c.n && Enabled(c, p, s, step) && step.Deliver?
    requires !StepApart(c, p, s, step)
    ensures var s1 := Do(c, p, s, step);
      |s1.nodes| == c.n && s1.nodes[step.i].ptr == Some(BlockPointer(step.m.hash, Forged(0)))
  {
  }

  lemma JunkInRun(c: Config, p: Params, steps: seq<Step>, k: nat)
    requires ValidSetup(c, p) && k < |steps| && !StepApart(c, p, Run(c, p, steps[..k]), steps[k])
    ensures !AllWell(c, Run(c, p, steps[..k + 1]))
  {
    RunInv(c, p, steps[..k]);
    JunkPointer(c, p, Run(c, p, steps[..k]), steps[k]);
    assert steps[..k + 1] == steps[..k] + [steps[k]];
    RunMore(c, p, steps[..k], steps[k]);
  }

  /** Well-formed throughout, exactly: in a run every pointer that any honest node ever holds is
      well-formed if and only if no join uses a key twice. */
  lemma WellExactly(c: Config, p: Params, steps: seq<Step>)
    requires ValidSetup(c, p) && p.committee !! c.faulty
    ensures (forall k :: 0 <= k <= |steps| ==> AllWell(c, Run(c, p, steps[..k]))) <==> JoinsApart(c, p, steps)
  {
    if JoinsApart(c, p, steps) {
      forall k | 0 <= k <= |steps| ensures AllWell(c, Run(c, p, steps[..k])) {
        ApartPrefix(c, p, steps, k);
        RunClean(c, p, steps[..k]);
      }
    } else {
      var k :| 0 <= k < |steps| && !StepApart(c, p, Run(c, p, steps[..k]), steps[k]);
      JunkInRun(c, p, steps, k);
    }
  }

  lemma ApartPrefix(c: Config, p: Params, steps: seq<Step>, k: nat)
    requires k <= |steps| && JoinsApart(c, p, steps)
    ensures JoinsApart(c, p, steps[..k])
  {
    forall j | 0 <= j < k ensures StepApart(c, p, Run(c, p, steps[..k][..j]), steps[..k][j]) {
      assert steps[..k][..j] == steps[..j];
    }
  }

  /** Then all pointers that honest nodes hold in a round are the same, in every such run. */
  lemma SamePointer(c: Config, p: Params, steps: seq<Step>, i: int, j: int)
    requires ValidSetup(c, p) && p.committee !! c.faulty && JoinsApart(c, p, steps) && c.Honest(i) && c.Honest(j)
    ensures |Run(c, p, steps).nodes| == c.n
    ensures var nodes := Run(c, p, steps).nodes;
      nodes[i].ptr.Some? && nodes[j].ptr.Some? ==> WellFormed(nodes[i].ptr.value) && nodes[i].ptr == nodes[j].ptr
  {
    RunClean(c, p, steps);
    WellIsSame(c, p, steps, i, j);
  }

  lemma WellIsSame(c: Config, p: Params, steps: seq<Step>, i: int, j: int)
    requires ValidSetup(c, p) && AllWell(c, Run(c, p, steps)) && c.Honest(i) && c.Honest(j)
    ensures var nodes := Run(c, p, steps).nodes;
      nodes[i].ptr.Some? && nodes[j].ptr.Some? ==> nodes[i].ptr == nodes[j].ptr
  {
    var s := Run(c, p, steps);
    if s.nodes[i].ptr.Some? && s.nodes[j].ptr.Some? {
      assert Around(c, s, s.nodes[i].ptr.value) && Around(c, s, s.nodes[j].ptr.value);
      UniquePointer(c, p, steps, s.nodes[i].ptr.value, s.nodes[j].ptr.value);
    }
  }

  // ---- Setups in which no join can use a key twice

  /** Nobody is faulty, or one share is a certificate, or nobody gets a pre-block ready. */
  ghost predicate Trusted(c: Config, p: Params) {
    c.faulty == {} || |p.committee| <= 1 || p.ta >= p.n
  }

  /** Every stored share is its sender's own. */
  ghost predicate OwnTable(nd: Node) {
    forall k :: k in nd.blocksReceived ==> nd.blocksReceived[k].id == k.sender + 1
  }

  ghost predicate OwnShares(c: Config, s: State) {
    && |s.nodes| == c.n
    && (forall i :: c.Honest(i) ==> OwnTable(s.nodes[i]))
    && (forall m :: m in s.net && m.CommitteeMsg? ==> m.hashSig == OwnShare(m.sender, m.hash))
  }

  lemma OwnTurn(p: Params, i: int, nd: Node, m: Msg, picked: set<int>)
    requires OwnTable(nd) && (m.CommitteeMsg? ==> m.hashSig == OwnShare(m.sender, m.hash))
    ensures OwnTable(OnMessage(p, i, nd, m, picked).node)
  {
  }

  lemma {:induction false} RunOwn(c: Config, p: Params, steps: seq<Step>)
    requires ValidSetup(c, p) && c.faulty == {}
    ensures OwnShares(c, Run(c, p, steps))
  {
    if steps != [] {
      var s, step := Run(c, p, steps[..|steps| - 1]), steps[|steps| - 1];
      RunOwn(c, p, steps[..|steps| - 1]);
      if Enabled(c, p, s, step) && step.Deliver? {
        OwnTurn(p, step.i, s.nodes[step.i], step.m, step.picked);
        SentSigned(p, step.i, s.nodes[step.i], step.m, step.picked);
      }
    }
  }

  lemma OwnApart(nd: Node, m: Msg)
    requires OwnTable(nd) && m.CommitteeMsg? && m.hashSig == OwnShare(m.sender, m.hash)
    ensures NoKeyTwice(Filed(nd, m), m.hash)
  {
  }

  /** Nobody is ever ready, so nobody signs. */
  ghost predicate Unsigned(c: Config, p: Params, s: State) {
    && |s.nodes| == c.n
    && (forall i :: c.Honest(i) ==> |s.nodes[i].largePb| == 0)
    && (forall m :: m in s.net && m.CommitteeMsg? ==> m.sender in c.faulty && !ValidCommittee(m))
  }

  lemma UnsignedStep(c: Config, p: Params, s: State, step: Step)
    requires p.committee !! c.faulty && Unsigned(c, p, s)
    ensures Unsigned(c, p, Do(c, p, s, step))
  {
  }

  lemma {:induction false} RunUnsigned(c: Config, p: Params, steps: seq<Step>)
    requires ValidSetup(c, p) && p.committee !! c.faulty && p.ta >= p.n
    ensures Unsigned(c, p, Run(c, p, steps))
  {
    if steps != [] {
      RunUnsigned(c, p, steps[..|steps| - 1]);
      UnsignedStep(c, p, Run(c, p, steps[..|steps| - 1]), steps[|steps| - 1]);
    }
  }

  lemma TrustedApart(c: Config, p: Params, steps: seq<Step>)
    requires ValidSetup(c, p) && p.committee !! c.faulty && Trusted(c, p)
    ensures JoinsApart(c, p, steps)
  {
    forall k | 0 <= k < |steps| ensures StepApart(c, p, Run(c, p, steps[..k]), steps[k]) {
      TrustedStep(c, p, steps[..k], steps[k]);
    }
  }

  lemma TrustedStep(c: Config, p: Params, before: seq<Step>, step: Step)
    requires ValidSetup(c, p) && p.committee !! c.faulty && Trusted(c, p)
    ensures StepApart(c, p, Run(c, p, before), step)
  {
    var s := Run(c, p, before);
    if Enabled(c, p, s, step) && step.Deliver? && JoinsNow(p, step.i, s.nodes[step.i], step.m) {
      if c.faulty == {} {
        RunOwn(c, p, before);
        OwnApart(s.nodes[step.i], step.m);
      } else if p.ta >= p.n {
        RunUnsigned(c, p, before);
      }
      FewApart(Majority(p), Filed(s.nodes[step.i], step.m), step.m.hash, step.picked);
    }
  }
}
