/** Whether receivedHash and signature are a matching pair. A certificate adopted from a message is; one
    joined from stored shares is when no key was used twice, and a faulty member can see to it that
    one is, by sending another member's share in its own name. */
module CommonSubsetCertificates {
  import opened Quorums
  import opened Blocks
  import opened Tables
  import opened Certificates
  import opened CommonSubset
  import opened CommonSubsetSafety
  import opened CommonSubsetProgress

  // ---- Joins in a run

  /** The node's signature is one on its receivedHash. */
  ghost predicate WellCertified(nd: Node) {
    nd.receivedHash.Some? ==> nd.signature.Some? && nd.signature.value.Verify(nd.receivedHash.value)
  }

  ghost predicate AllWell(c: Config, s: State) {
    |s.nodes| == c.n && forall i :: c.Honest(i) ==> WellCertified(s.nodes[i])
  }

  /** The node joins shares when it handles this message. */
  predicate JoinsNow(p: Params, nd: Node, m: Msg) {
    && m.CommitMsg? && ValidCommit(p, m)
    && |ShareSenders(Filed(nd, m), m.hash)| >= p.tk + 1 && |ShareSenders(Filed(nd, m), m.hash)| >= p.certK
  }

  ghost predicate StepApart(c: Config, p: Params, bc: seq<Digest>, s: State, step: Step)
    requires |bc| == c.n
  {
    Enabled(c, p, bc, s, step) && step.Receive? && JoinsNow(p, s.nodes[step.i], step.m) ==>
      Apart(Filed(s.nodes[step.i], step.m), step.m.hash, step.picked)
  }

  /** No join of the run uses a key twice. */
  ghost predicate JoinsApart(c: Config, p: Params, bc: seq<Digest>, steps: seq<Step>)
    requires |bc| == c.n
  {
    forall k :: 0 <= k < |steps| ==> StepApart(c, p, bc, Run(c, p, bc, steps[..k]), steps[k])
  }

  /** A turn that leaves the certificate alone. */
  ghost predicate SameCertificate(nd: Node, nd1: Node) {
    nd1.receivedHash == nd.receivedHash && nd1.signature == nd.signature
  }

  lemma HandlerCertificate(p: Params, id: int, nd: Node, order: seq<int>)
    ensures SameCertificate(nd, EventHandler(p, id, nd, order).node)
  {
    HandlerCases(p, id, nd, order);
  }

  lemma OtherTurns(c: Config, p: Params, bc: seq<Digest>, s: State, step: Step)
    requires |bc| == c.n && Enabled(c, p, bc, s, step) && !step.Forge? && !step.Receive?
    ensures SameCertificate(s.nodes[step.i], Turn(c, p, bc, s, step).node)
  {
    var nd := s.nodes[step.i];
    match step
    case RbcOutput(i, k, v, order) =>
      HandlerCertificate(p, i, nd.(rbcVals := nd.rbcVals[k := v], rbcDone := nd.rbcDone + [k]), order);
    case AbaOutput(i, k, one, order) => HandlerCertificate(p, i, AfterAba(p, nd, k, one), order);
    case TakeRbcDone(i) =>
    case TakeStartAba(i) =>
    case TakeAcsOut(i) =>
  }

  lemma MessageWell(p: Params, id: int, nd: Node, m: Msg, picked: set<int>)
    requires WellCertified(nd) && (JoinsNow(p, nd, m) ==> Apart(Filed(nd, m), m.hash, picked))
    ensures WellCertified(Finish(OnMessage(p, id, nd, m, picked).node))
  {
  }

  lemma StepWell(c: Config, p: Params, bc: seq<Digest>, s: State, step: Step)
    requires |bc| == c.n && AllWell(c, s) && StepApart(c, p, bc, s, step)
    ensures AllWell(c, Do(c, p, bc, s, step))
  {
    forall i | c.Honest(i)
      ensures |Do(c, p, bc, s, step).nodes| == c.n && WellCertified(Do(c, p, bc, s, step).nodes[i])
    {
      DoNode(c, p, bc, s, step, i);
      if Enabled(c, p, bc, s, step) && !step.Forge? && step.i == i {
        if step.Receive? {
          MessageWell(p, i, s.nodes[i], step.m, step.picked);
        } else {
          OtherTurns(c, p, bc, s, step);
        }
      }
    }
    DoSize(c, p, bc, s, step);
  }

  lemma {:induction false} RunWell(c: Config, p: Params, bc: seq<Digest>, steps: seq<Step>)
    requires |bc| == c.n && JoinsApart(c, p, bc, steps)
    ensures AllWell(c, Run(c, p, bc, steps))
  {
    if steps != [] {
      var last := |steps| - 1;
      ApartPrefix(c, p, bc, steps, last);
      RunWell(c, p, bc, steps[..last]);
      assert StepApart(c, p, bc, Run(c, p, bc, steps[..last]), steps[last]);
      StepWell(c, p, bc, Run(c, p, bc, steps[..last]), steps[last]);
    }
  }

  lemma ApartPrefix(c: Config, p: Params, bc: seq<Digest>, steps: seq<Step>, k: nat)
    requires |bc| == c.n && k <= |steps| && JoinsApart(c, p, bc, steps)
    ensures JoinsApart(c, p, bc, steps[..k])
  {
    forall j | 0 <= j < k ensures StepApart(c, p, bc, Run(c, p, bc, steps[..k][..j]), steps[..k][j]) {
      assert steps[..k][..j] == steps[..j];
    }
  }

  /** A join that uses a key twice leaves its node with a signature that does not verify. */
  lemma JunkCertificate(c: Config, p: Params, bc: seq<Digest>, s: State, step: Step)
    requires |bc| == c.n && |s.nodes| == c.n && Enabled(c, p, bc, s, step) && !StepApart(c, p, bc, s, step)
    ensures var s1 := Do(c, p, bc, s, step);
      && |s1.nodes| == c.n && step.Receive? && c.Honest(step.i)
      && s1.nodes[step.i].receivedHash == Some(step.m.hash) && s1.nodes[step.i].signature == Some(Forged(0))
  {
  }

  lemma JunkInRun(c: Config, p: Params, bc: seq<Digest>, steps: seq<Step>, k: nat)
    requires ValidSetup(c, p, bc) && k < |steps|
    requires !StepApart(c, p, bc, Run(c, p, bc, steps[..k]), steps[k])
    ensures !AllWell(c, Run(c, p, bc, steps[..k + 1]))
  {
    RunInv(c, p, bc, steps[..k]);
    JunkCertificate(c, p, bc, Run(c, p, bc, steps[..k]), steps[k]);
    assert steps[..k + 1] == steps[..k] + [steps[k]];
    RunMore(c, p, bc, steps[..k], steps[k]);
  }

  /** A matching pair throughout, exactly: in a run the signature of every honest node verifies its
      receivedHash at all times if and only if no join uses a key twice. */
  lemma CertifiedExactly(c: Config, p: Params, bc: seq<Digest>, steps: seq<Step>)
    requires ValidSetup(c, p, bc)
    ensures (forall k :: 0 <= k <= |steps| ==> AllWell(c, Run(c, p, bc, steps[..k])))
            <==> JoinsApart(c, p, bc, steps)
  {
    if JoinsApart(c, p, bc, steps) {
      forall k | 0 <= k <= |steps| ensures AllWell(c, Run(c, p, bc, steps[..k])) {
        ApartPrefix(c, p, bc, steps, k);
        RunWell(c, p, bc, steps[..k]);
      }
    } else {
      var k :| 0 <= k < |steps| && !StepApart(c, p, bc, Run(c, p, bc, steps[..k]), steps[k]);
      JunkInRun(c, p, bc, steps, k);
    }
  }

  // ---- A pair is replaced by another join only

  ghost predicate HasPair(c: Config, p: Params, bc: seq<Digest>, steps: seq<Step>, i: int, hash: Digest, sig: Signature)
    requires |bc| == c.n
  {
    var s := Run(c, p, bc, steps);
    |s.nodes| == c.n && c.Honest(i) && s.nodes[i].receivedHash == Some(hash) && s.nodes[i].signature == Some(sig)
  }

  lemma PairStep(c: Config, p: Params, bc: seq<Digest>, steps: seq<Step>, step: Step, i: int, hash: Digest,
                 sig: Signature)
    requires |bc| == c.n && HasPair(c, p, bc, steps, i, hash, sig)
    requires step.Receive? && step.i == i ==> !step.m.CommitMsg?
    ensures HasPair(c, p, bc, steps + [step], i, hash, sig)
  {
    var s := Run(c, p, bc, steps);
    RunMore(c, p, bc, steps, step);
    DoNode(c, p, bc, s, step, i);
    if Enabled(c, p, bc, s, step) && !step.Forge? && step.i == i {
      if step.Receive? {
        FinishLeaves(s.nodes[i]);
        assert OnMessage(p, i, s.nodes[i], step.m, step.picked) == Outcome(s.nodes[i], []);
      } else {
        OtherTurns(c, p, bc, s, step);
      }
    }
  }

  /** Once a node has a pair, whether it matches or not, certificates that come by message do not
      change it: it stays in every run that goes on without a commit message for the node. */
  lemma {:induction false} PairStays(c: Config, p: Params, bc: seq<Digest>, steps: seq<Step>, more: seq<Step>, i: int,
                                     hash: Digest, sig: Signature)
    requires |bc| == c.n && HasPair(c, p, bc, steps, i, hash, sig)
    requires forall k :: 0 <= k < |more| && more[k].Receive? && more[k].i == i ==> !more[k].m.CommitMsg?
    ensures HasPair(c, p, bc, steps + more, i, hash, sig)
    decreases |more|
  {
    if more == [] {
      assert steps + more == steps;
    } else {
      var before, last := more[..|more| - 1], more[|more| - 1];
      Regroup(steps, more);
      PairStays(c, p, bc, steps, before, i, hash, sig);
      PairStep(c, p, bc, steps + before, last, i, hash, sig);
    }
  }

  // ---- Setups in which no join can use a key twice

  /** A faulty member that may repeat a share, in a certificate of two shares or more that the
      committee can make up. */
  ghost predicate Spoilable(c: Config, p: Params) {
    p.committee * c.faulty != {} && 2 <= p.certK <= |p.committee| && p.tk + 1 <= |p.committee|
  }

  /** Shares of honest members are their own. */
  ghost predicate OwnShares(c: Config, p: Params, s: State) {
    && |s.nodes| == c.n
    && (forall m :: m in s.net && m.CommitMsg? && m.sender !in c.faulty ==> m.share == OwnShare(m.sender, m.hash))
    && (forall i :: c.Honest(i) ==> OwnTable(c, p, s.nodes[i]))
  }

  ghost predicate OwnTable(c: Config, p: Params, nd: Node) {
    forall k :: k in nd.sharesReceived ==>
      k.sender in p.committee && (k.sender !in c.faulty ==> nd.sharesReceived[k].id == k.sender + 1)
  }

  lemma MessageOwn(c: Config, p: Params, id: int, nd: Node, m: Msg, picked: set<int>)
    requires OwnTable(c, p, nd)
    requires m.CommitMsg? && m.sender !in c.faulty ==> m.share == OwnShare(m.sender, m.hash)
    ensures OwnTable(c, p, Finish(OnMessage(p, id, nd, m, picked).node))
  {
    var nd1 := OnMessage(p, id, nd, m, picked).node;
    TablesAfter(p, id, nd, m, picked);
    assert OwnTable(c, p, nd1);
    FinishLeaves(nd1);
    assert Finish(nd1).sharesReceived == nd1.sharesReceived;
  }

  lemma TablesAfter(p: Params, id: int, nd: Node, m: Msg, picked: set<int>)
    ensures var shares := OnMessage(p, id, nd, m, picked).node.sharesReceived;
      shares == nd.sharesReceived || (m.CommitMsg? && ValidCommit(p, m) && shares == Filed(nd, m))
  {
    if m.CommitMsg? {
      assert OnMessage(p, id, nd, m, picked) == OnCommit(p, id, nd, m, picked);
    } else {
      assert OnMessage(p, id, nd, m, picked) == OnCert(id, nd, m);
    }
  }

  lemma HandlerOwn(p: Params, id: int, nd: Node, order: seq<int>)
    ensures EventHandler(p, id, nd, order).node.sharesReceived == nd.sharesReceived
    ensures forall m :: m in EventHandler(p, id, nd, order).sent ==>
              m.CommitMsg? && m.sender == id && m.share == OwnShare(id, m.hash)
  {
    HandlerCases(p, id, nd, order);
  }

  lemma OthersOwn(c: Config, p: Params, bc: seq<Digest>, s: State, step: Step)
    requires |bc| == c.n && Enabled(c, p, bc, s, step) && !step.Forge? && !step.Receive?
    ensures Turn(c, p, bc, s, step).node.sharesReceived == s.nodes[step.i].sharesReceived
    ensures forall m :: m in Turn(c, p, bc, s, step).sent ==>
              m.CommitMsg? && m.sender == step.i && m.share == OwnShare(step.i, m.hash)
  {
    var nd := s.nodes[step.i];
    match step
    case RbcOutput(i, k, v, order) =>
      HandlerOwn(p, i, nd.(rbcVals := nd.rbcVals[k := v], rbcDone := nd.rbcDone + [k]), order);
    case AbaOutput(i, k, one, order) => HandlerOwn(p, i, AfterAba(p, nd, k, one), order);
    case TakeRbcDone(i) =>
    case TakeStartAba(i) =>
    case TakeAcsOut(i) =>
  }

  lemma MessageSends(p: Params, id: int, nd: Node, m: Msg, picked: set<int>)
    ensures forall x :: x in OnMessage(p, id, nd, m, picked).sent ==> x.CertMsg?
  {
  }

  lemma TurnOwn(c: Config, p: Params, bc: seq<Digest>, s: State, step: Step)
    requires |bc| == c.n && OwnShares(c, p, s) && Enabled(c, p, bc, s, step) && !step.Forge?
    ensures var o := Turn(c, p, bc, s, step);
      && OwnTable(c, p, o.node)
      && forall m :: m in o.sent && m.CommitMsg? ==> m.sender == step.i && m.share == OwnShare(step.i, m.hash)
  {
    if step.Receive? {
      MessageOwn(c, p, step.i, s.nodes[step.i], step.m, step.picked);
      MessageSends(p, step.i, s.nodes[step.i], step.m, step.picked);
    } else {
      OthersOwn(c, p, bc, s, step);
    }
  }

  lemma StepOwn(c: Config, p: Params, bc: seq<Digest>, s: State, step: Step)
    requires |bc| == c.n && OwnShares(c, p, s)
    ensures OwnShares(c, p, Do(c, p, bc, s, step))
  {
    if Enabled(c, p, bc, s, step) && !step.Forge? {
      TurnOwn(c, p, bc, s, step);
    }
  }

  lemma {:induction false} RunOwn(c: Config, p: Params, bc: seq<Digest>, steps: seq<Step>)
    requires |bc| == c.n
    ensures OwnShares(c, p, Run(c, p, bc, steps))
  {
    if steps != [] {
      RunOwn(c, p, bc, steps[..|steps| - 1]);
      StepOwn(c, p, bc, Run(c, p, bc, steps[..|steps| - 1]), steps[|steps| - 1]);
    }
  }

  lemma OwnApart(c: Config, p: Params, nd: Node, m: Msg)
    requires OwnTable(c, p, nd) && m.CommitMsg? && ValidCommit(p, m)
    requires m.sender !in c.faulty ==> m.share == OwnShare(m.sender, m.hash)
    ensures ShareSenders(Filed(nd, m), m.hash) <= p.committee
    ensures p.committee * c.faulty == {} ==> NoKeyTwice(Filed(nd, m), m.hash)
  {
    var shares := Filed(nd, m);
    forall a | a in ShareSenders(shares, m.hash)
      ensures a in p.committee && (a !in p.committee * c.faulty ==> shares[ShareKey(m.hash, a)].id == a + 1)
    {
      var k :| k in shares && k.hash == m.hash && k.sender == a;
      assert k == ShareKey(m.hash, a);
    }
  }

  lemma StepsApart(c: Config, p: Params, bc: seq<Digest>, before: seq<Step>, step: Step)
    requires ValidSetup(c, p, bc) && !Spoilable(c, p)
    ensures StepApart(c, p, bc, Run(c, p, bc, before), step)
  {
    var s := Run(c, p, bc, before);
    if Enabled(c, p, bc, s, step) && step.Receive? && JoinsNow(p, s.nodes[step.i], step.m) {
      RunOwn(c, p, bc, before);
      OwnApart(c, p, s.nodes[step.i], step.m);
      SubsetSize(ShareSenders(Filed(s.nodes[step.i], step.m), step.m.hash), p.committee);
      FewApart(p.certK, Filed(s.nodes[step.i], step.m), step.m.hash, step.picked);
    }
  }

  // ---- The run: all honest members sign one list, and a faulty one repeats a share

  const VALUE := BlockShare(PreBlock([], ""), BlockPointer(Raw(0), Forged(0)))

  /** Every broadcast delivers the same. */
  function Uniform(n: nat): seq<Digest> {
    seq(n, _ => ShareHash(VALUE))
  }

  function TheHash(): Digest {
    ListHash([VALUE])
  }

  function CommitOf(i: int): Msg {
    CommitMsg(i, [VALUE], TheHash(), OwnShare(i, TheHash()), OwnProof(i))
  }

  function Values(k: nat): map<int, BlockShare> {
    map j | j in Ids(k) :: VALUE
  }

  /** No agreement runs, and nothing has come from the committee. */
  ghost predicate OnlyHears(nd: Node) {
    nd == InitNode().(rbcVals := nd.rbcVals, rbcDone := nd.rbcDone, committed := nd.committed, acsOut := nd.acsOut)
  }

  /** The node has the first k broadcasts; enough of them make it commit. */
  ghost predicate Hearing(p: Params, i: int, nd: Node, net: set<Msg>, k: nat) {
    && OnlyHears(nd) && nd.rbcVals == Values(k)
    && (nd.committed.Some? <==> k > 0 && k >= p.n - p.t)
    && (nd.committed.Some? && i in p.committee ==> CommitOf(i) in net)
  }

  lemma AllHold(k: nat)
    ensures var vals := Values(k);
      |vals| == k && Holders(vals, ShareHash(VALUE)) == Ids(k)
  {
    var vals := Values(k);
    assert vals.Keys == Ids(k);
    assert |vals| == |vals.Keys|;
    assert Holders(vals, ShareHash(VALUE)) == Ids(k);
  }

  /** With k equal values C1 holds exactly when they are n-t. */
  lemma EqualValues(p: Params, nd: Node, k: nat, order: seq<int>)
    requires nd.rbcVals == Values(k) && k > 0 && IsOrder(order, nd.rbcVals)
    ensures COne(p, nd.rbcVals, order) == if k >= p.n - p.t then Some(VALUE) else None
  {
    AllHold(k);
    COneFinds(p, nd.rbcVals, order);
    FirstCOneHolds(p, nd.rbcVals, order);
    assert 0 in nd.rbcVals && COneHolds(p, nd.rbcVals, ShareHash(nd.rbcVals[0])) <==> k >= p.n - p.t;
    assert forall j :: j in nd.rbcVals ==> nd.rbcVals[j] == VALUE;
  }

  lemma MoreHeard(nd: Node, k: nat)
    requires OnlyHears(nd) && nd.rbcVals == Values(k)
    ensures var nd1 := nd.(rbcVals := nd.rbcVals[k := VALUE], rbcDone := nd.rbcDone + [k]);
      OnlyHears(nd1) && nd1.rbcVals == Values(k + 1)
  {
  }

  lemma HearOne(p: Params, i: int, nd: Node, net: set<Msg>, k: nat, order: seq<int>)
    requires p.t <= p.n && Hearing(p, i, nd, net, k) && IsOrder(order, nd.rbcVals[k := VALUE])
    ensures var o := OnRbcOutput(p, i, nd, k, VALUE, order); Hearing(p, i, o.node, net + Members(o.sent), k + 1)
  {
    var nd1 := nd.(rbcVals := nd.rbcVals[k := VALUE], rbcDone := nd.rbcDone + [k]);
    MoreHeard(nd, k);
    EqualValues(p, nd1, k + 1, order);
    HearHandler(p, i, nd1, net, k + 1, order);
  }

  lemma HearHandler(p: Params, i: int, nd: Node, net: set<Msg>, k: nat, order: seq<int>)
    requires p.t <= p.n && k > 0
    requires OnlyHears(nd) && nd.rbcVals == Values(k)
    requires nd.committed.Some? ==> k >= p.n - p.t && (i in p.committee ==> CommitOf(i) in net)
    requires COne(p, nd.rbcVals, order) == if k >= p.n - p.t then Some(VALUE) else None
    ensures var o := EventHandler(p, i, nd, order); Hearing(p, i, o.node, net + Members(o.sent), k)
  {
    var o := EventHandler(p, i, nd, order);
    if nd.committed.None? && k >= p.n - p.t {
      assert o == Commit(p, i, nd, C1, [VALUE]);
      if i in p.committee {
        assert o.sent == [CommitOf(i)];
        assert CommitOf(i) in o.sent;
      }
    } else {
      assert o == Outcome(nd, []);
    }
  }

  /** The nodes below k have all broadcasts. */
  ghost predicate HeardTo(c: Config, p: Params, s: State, k: nat) {
    && |s.nodes| == c.n
    && forall i :: c.Honest(i) ==> Hearing(p, i, s.nodes[i], s.net, if i < k then c.n else 0)
  }

  lemma HearMore(c: Config, p: Params, before: seq<Step>, i: int, k: nat) returns (steps: seq<Step>)
    requires ValidSetup(c, p, Uniform(c.n)) && c.Honest(i) && k < c.n
    requires var s := Run(c, p, Uniform(c.n), before);
      |s.nodes| == c.n && Hearing(p, i, s.nodes[i], s.net, k)
    ensures var s, s1 := Run(c, p, Uniform(c.n), before), Run(c, p, Uniform(c.n), steps);
      OnlyMoved(s, s1, i) && Hearing(p, i, s1.nodes[i], s1.net, k + 1)
  {
    var s := Run(c, p, Uniform(c.n), before);
    var order := SomeOrder(s.nodes[i].rbcVals[k := VALUE]);
    var step := RbcOutput(i, k, VALUE, order);
    HearOne(p, i, s.nodes[i], s.net, k, order);
    assert Enabled(c, p, Uniform(c.n), s, step);
    assert Turn(c, p, Uniform(c.n), s, step) == OnRbcOutput(p, i, s.nodes[i], k, VALUE, order);
    RunMore(c, p, Uniform(c.n), before, step);
    steps := before + [step];
  }

  /** Only node i has moved. */
  ghost predicate OnlyMoved(s: State, s1: State, i: int) {
    && |s1.nodes| == |s.nodes| && 0 <= i < |s.nodes| && s.net <= s1.net
    && forall j :: 0 <= j < |s.nodes| && j != i ==> s1.nodes[j] == s.nodes[j]
  }

  lemma {:induction false} HearAll(c: Config, p: Params, before: seq<Step>, i: int, k: nat) returns (steps: seq<Step>)
    requires ValidSetup(c, p, Uniform(c.n)) && c.Honest(i) && k <= c.n
    requires var s := Run(c, p, Uniform(c.n), before);
      |s.nodes| == c.n && Hearing(p, i, s.nodes[i], s.net, 0)
    ensures var s, s1 := Run(c, p, Uniform(c.n), before), Run(c, p, Uniform(c.n), steps);
      OnlyMoved(s, s1, i) && Hearing(p, i, s1.nodes[i], s1.net, k)
  {
    if k == 0 {
      steps := before;
    } else {
      var some := HearAll(c, p, before, i, k - 1);
      steps := HearMore(c, p, some, i, k - 1);
    }
  }

  lemma HearingGrows(p: Params, i: int, nd: Node, net: set<Msg>, net1: set<Msg>, k: nat)
    requires Hearing(p, i, nd, net, k) && net <= net1
    ensures Hearing(p, i, nd, net1, k)
  {
  }

  lemma {:induction false} AllHear(c: Config, p: Params, k: nat) returns (steps: seq<Step>)
    requires ValidSetup(c, p, Uniform(c.n)) && k <= c.n
    ensures HeardTo(c, p, Run(c, p, Uniform(c.n), steps), k)
  {
    if k == 0 {
      steps := [];
      assert InitNode().rbcVals == Values(0);
    } else {
      var before := AllHear(c, p, k - 1);
      if c.Honest(k - 1) {
        steps := HearAll(c, p, before, k - 1, c.n);
        HeardMore(c, p, Run(c, p, Uniform(c.n), before), Run(c, p, Uniform(c.n), steps), k - 1);
      } else {
        steps := before;
      }
    }
  }

  lemma HeardMore(c: Config, p: Params, s: State, s1: State, k: nat)
    requires HeardTo(c, p, s, k) && k < c.n && OnlyMoved(s, s1, k) && Hearing(p, k, s1.nodes[k], s1.net, c.n)
    ensures HeardTo(c, p, s1, k + 1)
  {
    forall i | c.Honest(i) ensures Hearing(p, i, s1.nodes[i], s1.net, if i < k + 1 then c.n else 0) {
      if i != k {
        HearingGrows(p, i, s1.nodes[i], s.net, s1.net, if i < k then c.n else 0);
      }
    }
  }

  // ---- The shares

  /** Member j's message; the faulty member f uses x's share. */
  function MsgOf(f: int, x: int, j: int): Msg {
    CommitMsg(j, [VALUE], TheHash(), OwnShare(if j == f then x else j, TheHash()), OwnProof(j))
  }

  /** All honest members have signed, and so have the faulty members below k. */
  ghost predicate Sending(c: Config, p: Params, f: int, x: int, s: State, k: nat) {
    && HeardTo(c, p, s, c.n)
    && forall j :: j in p.committee && (c.Honest(j) || 0 <= j < k) ==> MsgOf(f, x, j) in s.net
  }

  lemma SendMore(c: Config, p: Params, f: int, x: int, s: State, k: nat)
    requires Sending(c, p, f, x, s, k)
    ensures Sending(c, p, f, x, s.(net := s.net + {MsgOf(f, x, k)}), k + 1)
  {
    var s1 := s.(net := s.net + {MsgOf(f, x, k)});
    forall i | c.Honest(i) ensures Hearing(p, i, s1.nodes[i], s1.net, if i < c.n then c.n else 0) {
      HearingGrows(p, i, s1.nodes[i], s.net, s1.net, if i < c.n then c.n else 0);
    }
  }

  lemma {:induction false} SendAll(c: Config, p: Params, f: int, x: int, k: nat) returns (steps: seq<Step>)
    requires ValidSetup(c, p, Uniform(c.n)) && k <= c.n
    requires f in p.committee * c.faulty && x in p.committee && c.Honest(x)
    ensures Sending(c, p, f, x, Run(c, p, Uniform(c.n), steps), k)
  {
    if k == 0 {
      steps := AllHear(c, p, c.n);
      HonestSent(c, p, f, x, Run(c, p, Uniform(c.n), steps));
    } else {
      var before := SendAll(c, p, f, x, k - 1);
      var s, m := Run(c, p, Uniform(c.n), before), MsgOf(f, x, k - 1);
      if k - 1 in p.committee * c.faulty {
        ForgeOne(c, p, f, x, s, k - 1);
        RunMore(c, p, Uniform(c.n), before, Forge(m));
        SendMore(c, p, f, x, s, k - 1);
        steps := before + [Forge(m)];
      } else {
        steps := before;
      }
    }
  }

  lemma HonestSent(c: Config, p: Params, f: int, x: int, s: State)
    requires HeardTo(c, p, s, c.n) && f in c.faulty && c.n == p.n
    ensures Sending(c, p, f, x, s, 0)
  {
    forall j | j in p.committee && c.Honest(j) ensures MsgOf(f, x, j) in s.net {
      assert Hearing(p, j, s.nodes[j], s.net, c.n);
      assert MsgOf(f, x, j) == CommitOf(j);
    }
  }

  lemma ForgeOne(c: Config, p: Params, f: int, x: int, s: State, k: nat)
    requires |s.nodes| == c.n && Sending(c, p, f, x, s, k) && k in p.committee * c.faulty
    requires f in c.faulty && x in p.committee && c.Honest(x)
    ensures Do(c, p, Uniform(c.n), s, Forge(MsgOf(f, x, k))) == s.(net := s.net + {MsgOf(f, x, k)})
  {
    var m := MsgOf(f, x, x);
    assert m in s.net && m.share == OwnShare(x, TheHash());
    assert Possible(c, p, s.net, MsgOf(f, x, k).share);
  }

  // ---- An honest member joins them

  /** It has the shares of the members below k. */
  ghost predicate Collected(p: Params, f: int, x: int, nd: Node, k: nat) {
    && nd.out.None? && nd.acsFinished.None? && !nd.crashed
    && (forall y :: y in nd.sharesReceived <==> y.hash == TheHash() && y.sender in p.committee && 0 <= y.sender < k)
    && (forall y :: y in nd.sharesReceived ==> nd.sharesReceived[y] == MsgOf(f, x, y.sender).share)
  }

  lemma CollectOne(p: Params, id: int, f: int, x: int, nd: Node, k: nat, picked: set<int>)
    requires k in p.committee && Collected(p, f, x, nd, k)
    ensures Collected(p, f, x, Finish(OnCommit(p, id, nd, MsgOf(f, x, k), picked).node), k + 1)
  {
    var nd1 := OnCommit(p, id, nd, MsgOf(f, x, k), picked).node;
    assert nd1.sharesReceived == Filed(nd, MsgOf(f, x, k));
    assert Finish(nd1) == nd1;
  }

  lemma TakeOne(c: Config, p: Params, f: int, x: int, before: seq<Step>, k: nat) returns (steps: seq<Step>)
    requires k in p.committee && c.Honest(x)
    requires var s := Run(c, p, Uniform(c.n), before);
      |s.nodes| == c.n && Collected(p, f, x, s.nodes[x], k) && MsgOf(f, x, k) in s.net
    ensures var s, s1 := Run(c, p, Uniform(c.n), before), Run(c, p, Uniform(c.n), steps);
      |s1.nodes| == c.n && s.net <= s1.net && Collected(p, f, x, s1.nodes[x], k + 1)
  {
    var s, m := Run(c, p, Uniform(c.n), before), MsgOf(f, x, k);
    var picked := PickSome(p.certK, Filed(s.nodes[x], m), m.hash);
    CollectOne(p, x, f, x, s.nodes[x], k, picked);
    RunMore(c, p, Uniform(c.n), before, Receive(x, m, picked));
    steps := before + [Receive(x, m, picked)];
  }

  lemma {:induction false} TakeAll(c: Config, p: Params, f: int, x: int, k: nat) returns (steps: seq<Step>)
    requires ValidSetup(c, p, Uniform(c.n)) && k <= c.n
    requires f in p.committee * c.faulty && x in p.committee && c.Honest(x)
    ensures var s := Run(c, p, Uniform(c.n), steps);
      && |s.nodes| == c.n && Collected(p, f, x, s.nodes[x], k)
      && forall j :: j in p.committee ==> MsgOf(f, x, j) in s.net
  {
    if k == 0 {
      steps := SendAll(c, p, f, x, c.n);
      assert Hearing(p, x, Run(c, p, Uniform(c.n), steps).nodes[x], Run(c, p, Uniform(c.n), steps).net, c.n);
    } else {
      var before := TakeAll(c, p, f, x, k - 1);
      if k - 1 in p.committee {
        steps := TakeOne(c, p, f, x, before, k - 1);
      } else {
        steps := before;
      }
    }
  }

  lemma AllSenders(p: Params, f: int, x: int, nd: Node, k: nat)
    requires Collected(p, f, x, nd, k) && p.committee <= Ids(k) && f in p.committee && x in p.committee && f != x
    ensures Filed(nd, MsgOf(f, x, f)) == nd.sharesReceived && ShareSenders(nd.sharesReceived, TheHash()) == p.committee
    ensures nd.sharesReceived[ShareKey(TheHash(), f)].id == nd.sharesReceived[ShareKey(TheHash(), x)].id
  {
    assert ShareKey(TheHash(), f) in nd.sharesReceived && ShareKey(TheHash(), x) in nd.sharesReceived;
    forall j ensures j in ShareSenders(nd.sharesReceived, TheHash()) <==> j in p.committee {
      if j in p.committee {
        assert ShareKey(TheHash(), j) in nd.sharesReceived;
      }
    }
  }

  lemma BadPick(p: Params, f: int, x: int, nd: Node, k: nat) returns (picked: set<int>)
    requires Collected(p, f, x, nd, k) && p.committee <= Ids(k) && f in p.committee && x in p.committee && f != x
    requires 2 <= p.certK <= |p.committee| && p.tk + 1 <= |p.committee|
    ensures var m := MsgOf(f, x, f);
      MayPick(p, nd, m, picked) && JoinsNow(p, nd, m) && !Apart(Filed(nd, m), m.hash, picked)
  {
    AllSenders(p, f, x, nd, k);
    picked := PickBoth(p.certK, nd.sharesReceived, TheHash(), f, x);
  }

  /** In any setup that can be spoilt an honest member ends up with a signature that does not verify. */
  lemma SpoilRun(c: Config, p: Params, f: int, x: int) returns (steps: seq<Step>)
    requires ValidSetup(c, p, Uniform(c.n)) && Spoilable(c, p)
    requires f in p.committee * c.faulty && x in p.committee && c.Honest(x)
    ensures var s := Run(c, p, Uniform(c.n), steps);
      |s.nodes| == c.n && s.nodes[x].receivedHash == Some(TheHash()) && s.nodes[x].signature == Some(Forged(0))
  {
    var before := TakeAll(c, p, f, x, c.n);
    var s, m := Run(c, p, Uniform(c.n), before), MsgOf(f, x, f);
    var picked := BadPick(p, f, x, s.nodes[x], c.n);
    RunMore(c, p, Uniform(c.n), before, Receive(x, m, picked));
    steps := before + [Receive(x, m, picked)];
    JunkCertificate(c, p, Uniform(c.n), s, Receive(x, m, picked));
  }

  /** With too few faulty members to outvote the honest ones, some member is honest. */
  lemma HonestMemberExists(c: Config, p: Params, bc: seq<Digest>) returns (x: int)
    requires ValidSetup(c, p, bc) && Spoilable(c, p)
    ensures x in p.committee && c.Honest(x)
  {
    assert p.committee == (p.committee - c.faulty) + p.committee * c.faulty;
    Inhabited(p.committee - c.faulty);
    x :| x in p.committee - c.faulty;
  }

  /** A matching pair, exactly: whatever the broadcasts deliver, the signature of every honest node
      verifies its receivedHash in every run, if and only if no member is faulty, or one share is a
      certificate, or the committee is too small to make one up. */
  lemma PairsExactly(c: Config, p: Params)
    requires ValidSetup(c, p, Uniform(c.n))
    ensures (forall bc: seq<Digest>, steps | |bc| == c.n :: AllWell(c, Run(c, p, bc, steps))) <==> !Spoilable(c, p)
  {
    if Spoilable(c, p) {
      var f :| f in p.committee * c.faulty;
      var x := HonestMemberExists(c, p, Uniform(c.n));
      var steps := SpoilRun(c, p, f, x);
      assert !WellCertified(Run(c, p, Uniform(c.n), steps).nodes[x]);
    } else {
      forall bc: seq<Digest>, steps | |bc| == c.n ensures AllWell(c, Run(c, p, bc, steps)) {
        NeverSpoilt(c, p, bc, steps);
      }
    }
  }

  lemma NeverSpoilt(c: Config, p: Params, bc: seq<Digest>, steps: seq<Step>)
    requires ValidSetup(c, p, bc) && !Spoilable(c, p)
    ensures JoinsApart(c, p, bc, steps) && AllWell(c, Run(c, p, bc, steps))
  {
    forall k | 0 <= k < |steps| ensures StepApart(c, p, bc, Run(c, p, bc, steps[..k]), steps[k]) {
      StepsApart(c, p, bc, steps[..k], steps[k]);
    }
    RunWell(c, p, bc, steps);
  }
}
