/** When a node of the common subset commits. With all broadcasts and agreements in, it has
    committed in every run exactly when there is no fault to tolerate or more than half of the
    broadcasts deliver one value; C3 asks for exactly n-t of each and can be missed. */
module CommonSubsetProgress {
  import opened Quorums
  import opened Blocks
  import opened Tables
  import opened CommonSubset
  import opened CommonSubsetSafety

  // ---- What the event handler finds

  /** The broadcasts that have delivered a value of this hash to the node. */
  function Arrived(bc: seq<Digest>, nd: Node, hash: Digest): set<int> {
    nd.rbcVals.Keys * Delivering(bc, hash)
  }

  ghost predicate OneReady(p: Params, bc: seq<Digest>, nd: Node) {
    exists h :: |Arrived(bc, nd, h)| >= p.n - p.t
  }

  ghost predicate TwoReady(p: Params, bc: seq<Digest>, nd: Node) {
    |nd.s| >= p.n - p.t && |nd.abaFinished| >= p.n && exists h :: 2 * |Arrived(bc, nd, h)| > |nd.rbcVals|
  }

  ghost predicate Ready(p: Params, bc: seq<Digest>, nd: Node) {
    OneReady(p, bc, nd) || TwoReady(p, bc, nd) || CThreeHolds(p, nd.rbcVals, nd.s, nd.abaFinished)
  }

  lemma HolderExists(vals: map<int, BlockShare>, hash: Digest)
    requires |Holders(vals, hash)| > 0
    ensures exists k :: k in vals && ShareHash(vals[k]) == hash
  {
    Inhabited(Holders(vals, hash));
    var k :| k in Holders(vals, hash);
  }

  lemma OneFound(p: Params, bc: seq<Digest>, nd: Node, order: seq<int>)
    requires p.t < p.n && Delivered(p, bc, nd) && IsOrder(order, nd.rbcVals)
    ensures COne(p, nd.rbcVals, order).Some? <==> OneReady(p, bc, nd)
  {
    COneFinds(p, nd.rbcVals, order);
    forall h ensures Holders(nd.rbcVals, h) == Arrived(bc, nd, h) {
      HoldersDelivering(bc, nd.rbcVals, h);
    }
    if h :| |Arrived(bc, nd, h)| >= p.n - p.t {
      HolderExists(nd.rbcVals, h);
      SubsetSize(Holders(nd.rbcVals, h), nd.rbcVals.Keys);
      assert |nd.rbcVals| == |nd.rbcVals.Keys|;
    }
  }

  lemma TwoFound(p: Params, bc: seq<Digest>, nd: Node, order: seq<int>)
    requires Delivered(p, bc, nd) && IsOrder(order, nd.rbcVals)
    ensures CTwo(p, nd.rbcVals, nd.s, nd.abaFinished, order).Some? <==> TwoReady(p, bc, nd)
  {
    CTwoFinds(p, nd.rbcVals, nd.s, nd.abaFinished, order);
    forall h ensures Holders(nd.rbcVals, h) == Arrived(bc, nd, h) {
      HoldersDelivering(bc, nd.rbcVals, h);
    }
    if h :| 2 * |Arrived(bc, nd, h)| > |nd.rbcVals| {
      HolderExists(nd.rbcVals, h);
    }
  }

  /** A node commits exactly when n-t broadcasts have brought one value, or all agreements are in
      and most of the broadcasts that are have brought one value, or C3 holds. */
  lemma CommitsExactly(p: Params, bc: seq<Digest>, id: int, nd: Node, order: seq<int>)
    requires |bc| == p.n && p.t < p.n && Delivered(p, bc, nd) && StartUp(p, nd) && IsOrder(order, nd.rbcVals)
    requires nd.committed.None?
    ensures EventHandler(p, id, nd, order).node.committed.Some? <==> Ready(p, bc, nd)
    ensures !Ready(p, bc, nd) ==> EventHandler(p, id, nd, order) == Outcome(nd, [])
  {
    OneFound(p, bc, nd, order);
    TwoFound(p, bc, nd, order);
    if CThreeHolds(p, nd.rbcVals, nd.s, nd.abaFinished) {
      CThreeDomain(p, bc, nd);
    }
  }

  // ---- Every run: a node that has not committed had no reason to

  ghost predicate Settled(p: Params, bc: seq<Digest>, nd: Node) {
    nd.committed.None? ==> !Ready(p, bc, nd)
  }

  lemma InitSettled(p: Params, bc: seq<Digest>)
    requires p.t < p.n
    ensures Settled(p, bc, InitNode())
  {
    assert forall h :: Arrived(bc, InitNode(), h) == {};
  }

  lemma HandlerSettled(p: Params, bc: seq<Digest>, id: int, nd: Node, order: seq<int>)
    requires |bc| == p.n && p.t < p.n && Delivered(p, bc, nd) && StartUp(p, nd) && IsOrder(order, nd.rbcVals)
    ensures Settled(p, bc, EventHandler(p, id, nd, order).node)
  {
    if nd.committed.None? {
      CommitsExactly(p, bc, id, nd, order);
    }
  }

  /** A turn that leaves the conditions and the commitment alone. */
  ghost predicate Leaves(nd: Node, nd1: Node) {
    && nd1.committed == nd.committed && nd1.rbcVals == nd.rbcVals && nd1.s == nd.s
    && nd1.abaFinished == nd.abaFinished
  }

  lemma SameSettled(p: Params, bc: seq<Digest>, nd: Node, nd1: Node)
    requires Settled(p, bc, nd) && Leaves(nd, nd1)
    ensures Settled(p, bc, nd1)
  {
    assert forall h :: Arrived(bc, nd1, h) == Arrived(bc, nd, h);
  }

  lemma CommitLeaves(p: Params, id: int, nd: Node, m: Msg, picked: set<int>)
    requires m.CommitMsg?
    ensures Leaves(nd, OnCommit(p, id, nd, m, picked).node)
  {
  }

  lemma CertLeaves(id: int, nd: Node, m: Msg)
    requires m.CertMsg?
    ensures Leaves(nd, OnCert(id, nd, m).node)
  {
  }

  lemma FinishLeaves(nd: Node)
    ensures Leaves(nd, Finish(nd))
  {
  }

  lemma MessageLeaves(p: Params, id: int, nd: Node, m: Msg, picked: set<int>)
    ensures Leaves(nd, Finish(OnMessage(p, id, nd, m, picked).node))
  {
    match m {
      case CommitMsg(_, _, _, _, _) => CommitLeaves(p, id, nd, m, picked);
      case CertMsg(_, _, _) => CertLeaves(id, nd, m);
    }
    FinishLeaves(OnMessage(p, id, nd, m, picked).node);
  }

  /** Only outputs of broadcasts and agreements touch the conditions. */
  lemma TurnLeaves(c: Config, p: Params, bc: seq<Digest>, s: State, step: Step)
    requires |bc| == c.n && Enabled(c, p, bc, s, step) && !step.Forge? && !step.RbcOutput? && !step.AbaOutput?
    ensures Leaves(s.nodes[step.i], Turn(c, p, bc, s, step).node)
  {
    var nd := s.nodes[step.i];
    match step
    case TakeRbcDone(i) => FinishLeaves(OnRbcDone(nd));
    case TakeStartAba(i) => FinishLeaves(OnStartAba(nd, Ids(c.n)));
    case TakeAcsOut(i) => FinishLeaves(OnAcsOut(nd));
    case Receive(i, m, picked) => MessageLeaves(p, i, nd, m, picked);
  }

  lemma RbcSettled(p: Params, bc: seq<Digest>, id: int, nd: Node, k: int, v: BlockShare, order: seq<int>)
    requires |bc| == p.n && p.t < p.n && Delivered(p, bc, nd) && StartUp(p, nd)
    requires 0 <= k < p.n && ShareHash(v) == bc[k] && IsOrder(order, nd.rbcVals[k := v])
    ensures Settled(p, bc, OnRbcOutput(p, id, nd, k, v, order).node)
  {
    var nd1 := nd.(rbcVals := nd.rbcVals[k := v], rbcDone := nd.rbcDone + [k]);
    SubsetSize(nd.s * nd.rbcVals.Keys, nd.s * nd1.rbcVals.Keys);
    HandlerSettled(p, bc, id, nd1, order);
  }

  lemma AbaSettled(p: Params, bc: seq<Digest>, id: int, nd: Node, k: int, one: bool, order: seq<int>)
    requires |bc| == p.n && p.t < p.n && Delivered(p, bc, nd) && StartUp(p, nd)
    requires k in nd.abaRunning && IsOrder(order, nd.rbcVals)
    ensures Settled(p, bc, OnAbaOutput(p, id, nd, k, one, order).node)
  {
    AfterAbaStartUp(p, nd, k, one);
    HandlerSettled(p, bc, id, AfterAba(p, nd, k, one), order);
  }

  lemma TurnSettled(c: Config, p: Params, bc: seq<Digest>, s: State, step: Step)
    requires Inv(c, p, bc, s) && p.t < p.n && Enabled(c, p, bc, s, step) && !step.Forge?
    requires Settled(p, bc, s.nodes[step.i])
    ensures Settled(p, bc, Turn(c, p, bc, s, step).node)
  {
    var nd := s.nodes[step.i];
    assert NodeInv(c, p, bc, step.i, nd, s.net);
    if step.RbcOutput? {
      RbcSettled(p, bc, step.i, nd, step.k, step.v, step.order);
    } else if step.AbaOutput? {
      AbaSettled(p, bc, step.i, nd, step.k, step.one, step.order);
    } else {
      TurnLeaves(c, p, bc, s, step);
      SameSettled(p, bc, nd, Turn(c, p, bc, s, step).node);
    }
  }

  ghost predicate AllSettled(c: Config, p: Params, bc: seq<Digest>, s: State) {
    |s.nodes| == c.n && forall i :: c.Honest(i) ==> Settled(p, bc, s.nodes[i])
  }

  /** What a step does to one node. */
  lemma DoNode(c: Config, p: Params, bc: seq<Digest>, s: State, step: Step, i: int)
    requires |bc| == |s.nodes| == c.n && 0 <= i < c.n
    ensures |Do(c, p, bc, s, step).nodes| == c.n
    ensures Do(c, p, bc, s, step).nodes[i] ==
            if Enabled(c, p, bc, s, step) && !step.Forge? && step.i == i then Turn(c, p, bc, s, step).node
            else s.nodes[i]
  {
  }

  lemma StepSettled(c: Config, p: Params, bc: seq<Digest>, s: State, step: Step)
    requires Inv(c, p, bc, s) && p.t < p.n && AllSettled(c, p, bc, s)
    ensures AllSettled(c, p, bc, Do(c, p, bc, s, step))
  {
    var s1 := Do(c, p, bc, s, step);
    forall i | c.Honest(i) ensures |s1.nodes| == c.n && Settled(p, bc, s1.nodes[i]) {
      DoNode(c, p, bc, s, step, i);
      if Enabled(c, p, bc, s, step) && !step.Forge? && step.i == i {
        TurnSettled(c, p, bc, s, step);
      }
    }
    DoSize(c, p, bc, s, step);
  }

  lemma DoSize(c: Config, p: Params, bc: seq<Digest>, s: State, step: Step)
    requires |bc| == |s.nodes| == c.n
    ensures |Do(c, p, bc, s, step).nodes| == c.n
  {
  }

  lemma {:induction false} RunSettled(c: Config, p: Params, bc: seq<Digest>, steps: seq<Step>)
    requires ValidSetup(c, p, bc) && p.t < p.n
    ensures AllSettled(c, p, bc, Run(c, p, bc, steps))
  {
    if steps == [] {
      InitSettled(p, bc);
    } else {
      RunSettled(c, p, bc, steps[..|steps| - 1]);
      RunInv(c, p, bc, steps[..|steps| - 1]);
      StepSettled(c, p, bc, Run(c, p, bc, steps[..|steps| - 1]), steps[|steps| - 1]);
    }
  }

  // ---- A node with everything in

  /** All broadcasts and all agreements have output, n-t agreements with 1. */
  ghost predicate Complete(p: Params, nd: Node) {
    nd.rbcVals.Keys == Ids(p.n) && nd.abaFinished == Ids(p.n) && |nd.s| >= p.n - p.t
  }

  /** More than half of the broadcasts deliver one value. */
  ghost predicate Majority(bc: seq<Digest>) {
    exists h :: 2 * |Delivering(bc, h)| > |bc|
  }

  lemma ArrivedAll(p: Params, bc: seq<Digest>, nd: Node, hash: Digest)
    requires |bc| == p.n && nd.rbcVals.Keys == Ids(p.n)
    ensures Arrived(bc, nd, hash) == Delivering(bc, hash) && |nd.rbcVals| == p.n
  {
    assert |nd.rbcVals| == |nd.rbcVals.Keys|;
  }

  lemma CompleteReady(p: Params, bc: seq<Digest>, nd: Node)
    requires |bc| == p.n && p.n > 2 * p.t && Complete(p, nd)
    ensures Ready(p, bc, nd) <==> p.t == 0 || Majority(bc)
  {
    forall h ensures Arrived(bc, nd, h) == Delivering(bc, h) && |nd.rbcVals| == p.n {
      ArrivedAll(p, bc, nd, h);
    }
    if h :| 2 * |Delivering(bc, h)| > |bc| {
      assert 2 * |Arrived(bc, nd, h)| > |nd.rbcVals|;
    }
  }

  lemma CompleteCommits(c: Config, p: Params, bc: seq<Digest>, steps: seq<Step>, i: int)
    requires ValidSetup(c, p, bc) && p.n > 2 * p.t && c.Honest(i) && (p.t == 0 || Majority(bc))
    ensures var s := Run(c, p, bc, steps);
      |s.nodes| == c.n && (Complete(p, s.nodes[i]) ==> s.nodes[i].committed.Some?)
  {
    RunSettled(c, p, bc, steps);
    var s := Run(c, p, bc, steps);
    assert Settled(p, bc, s.nodes[i]);
    if Complete(p, s.nodes[i]) {
      CompleteReady(p, bc, s.nodes[i]);
    }
  }

  // ---- The run in which all broadcasts come before the first agreement

  /** Node i has the first k broadcasts and nothing else. */
  ghost predicate Gathering(nd: Node, vs: seq<BlockShare>, k: nat)
    requires k <= |vs|
  {
    && nd == InitNode().(rbcVals := nd.rbcVals, rbcDone := nd.rbcDone)
    && nd.rbcVals == (map j | 0 <= j < k :: vs[j])
    && nd.rbcDone == seq(k, j => j)
  }

  /** It has all broadcasts, and the first k agreements run with input 1. */
  ghost predicate Starting(nd: Node, vs: seq<BlockShare>, k: nat)
    requires k <= |vs|
  {
    && nd == InitNode().(rbcVals := nd.rbcVals, rbcDone := nd.rbcDone, abaRunning := nd.abaRunning)
    && nd.rbcVals == (map j | 0 <= j < |vs| :: vs[j])
    && nd.rbcDone == seq(|vs| - k, j => k + j)
    && nd.abaRunning.Keys == Ids(k)
  }

  /** All agreements run, and the first k have output 1. */
  ghost predicate Finishing(nd: Node, vs: seq<BlockShare>, k: nat)
    requires k <= |vs|
  {
    && nd.committed.None? && nd.acsFinished.None? && nd.out.None? && !nd.crashed
    && nd.rbcVals == (map j | 0 <= j < |vs| :: vs[j])
    && nd.abaRunning.Keys == Ids(|vs|) && nd.abaFinished == Ids(k) && nd.s == Ids(k)
  }

  ghost predicate Spread(p: Params, bc: seq<Digest>, vs: seq<BlockShare>) {
    |bc| == |vs| == p.n && bc == Hashes(vs) && 0 < p.t && p.n > 2 * p.t && !Majority(bc)
  }

  lemma SpreadIdle(p: Params, bc: seq<Digest>, vs: seq<BlockShare>, nd: Node)
    requires Spread(p, bc, vs) && (nd.s == {} || nd.rbcVals.Keys == Ids(p.n))
    ensures !Ready(p, bc, nd)
  {
    forall h ensures |Arrived(bc, nd, h)| < p.n - p.t {
      SubsetSize(Arrived(bc, nd, h), Delivering(bc, h));
      assert !(2 * |Delivering(bc, h)| > |bc|);
    }
    if nd.rbcVals.Keys == Ids(p.n) {
      forall h ensures 2 * |Arrived(bc, nd, h)| <= |nd.rbcVals| {
        ArrivedAll(p, bc, nd, h);
        assert !(2 * |Delivering(bc, h)| > |bc|);
      }
      ArrivedAll(p, bc, nd, Raw(0));
    }
  }

  /** One more broadcast: C1 fails, and C2 and C3 wait for agreements. */
  lemma GatherNode(p: Params, bc: seq<Digest>, vs: seq<BlockShare>, i: int, nd: Node, k: nat, order: seq<int>)
    requires Spread(p, bc, vs) && k < p.n && Gathering(nd, vs, k) && Delivered(p, bc, nd) && StartUp(p, nd)
    requires IsOrder(order, nd.rbcVals[k := vs[k]])
    ensures Gathering(OnRbcOutput(p, i, nd, k, vs[k], order).node, vs, k + 1)
  {
    var nd1 := nd.(rbcVals := nd.rbcVals[k := vs[k]], rbcDone := nd.rbcDone + [k]);
    GatheredMore(vs, nd, k);
    GatheredIdle(p, bc, vs, i, nd1, order);
  }

  lemma GatheredIdle(p: Params, bc: seq<Digest>, vs: seq<BlockShare>, i: int, nd: Node, order: seq<int>)
    requires Spread(p, bc, vs) && Delivered(p, bc, nd) && IsOrder(order, nd.rbcVals)
    requires nd.s == {} && nd.abaFinished == {} && nd.abaRunning == map[] && nd.startAba == 0 && nd.committed.None?
    ensures EventHandler(p, i, nd, order) == Outcome(nd, [])
  {
    SpreadIdle(p, bc, vs, nd);
    CommitsExactly(p, bc, i, nd, order);
  }

  lemma GatheredMore(vs: seq<BlockShare>, nd: Node, k: nat)
    requires k < |vs| && Gathering(nd, vs, k)
    ensures Gathering(nd.(rbcVals := nd.rbcVals[k := vs[k]], rbcDone := nd.rbcDone + [k]), vs, k + 1)
  {
    assert nd.rbcVals[k := vs[k]] == map j | 0 <= j < k + 1 :: vs[j];
    assert nd.rbcDone + [k] == seq(k + 1, j => j);
  }

  lemma GatherOne(c: Config, p: Params, bc: seq<Digest>, vs: seq<BlockShare>, s: State, i: int, k: nat)
    returns (step: Step)
    requires Inv(c, p, bc, s) && Spread(p, bc, vs) && c.Honest(i) && k < p.n && Gathering(s.nodes[i], vs, k)
    ensures var s1 := Do(c, p, bc, s, step); |s1.nodes| == c.n && Gathering(s1.nodes[i], vs, k + 1)
  {
    var nd := s.nodes[i];
    var order := SomeOrder(nd.rbcVals[k := vs[k]]);
    step := RbcOutput(i, k, vs[k], order);
    assert NodeInv(c, p, bc, i, nd, s.net);
    GatherNode(p, bc, vs, i, nd, k, order);
    assert Enabled(c, p, bc, s, step);
    assert Turn(c, p, bc, s, step) == OnRbcOutput(p, i, nd, k, vs[k], order);
    DoNode(c, p, bc, s, step, i);
  }

  lemma StartNode(vs: seq<BlockShare>, nd: Node, k: nat)
    requires k < |vs| && Starting(nd, vs, k)
    ensures nd.rbcDone != [] && Starting(Finish(OnRbcDone(nd)), vs, k + 1)
  {
    assert nd.rbcDone[0] == k && nd.rbcDone[1..] == seq(|vs| - (k + 1), j => k + 1 + j);
    StartedMore(vs, nd, k);
    assert Finish(OnRbcDone(nd)) == OnRbcDone(nd);
  }

  lemma StartedMore(vs: seq<BlockShare>, nd: Node, k: nat)
    requires k < |vs| && Starting(nd, vs, k) && nd.rbcDone != [] && nd.rbcDone[0] == k
    requires nd.rbcDone[1..] == seq(|vs| - (k + 1), j => k + 1 + j)
    ensures Starting(OnRbcDone(nd), vs, k + 1)
  {
    assert OnRbcDone(nd).abaRunning.Keys == Ids(k + 1);
  }

  lemma StartOne(c: Config, p: Params, bc: seq<Digest>, vs: seq<BlockShare>, s: State, i: int, k: nat)
    requires Inv(c, p, bc, s) && Spread(p, bc, vs) && c.Honest(i) && k < p.n && Starting(s.nodes[i], vs, k)
    ensures var s1 := Do(c, p, bc, s, TakeRbcDone(i)); |s1.nodes| == c.n && Starting(s1.nodes[i], vs, k + 1)
  {
    StartNode(vs, s.nodes[i], k);
    assert Enabled(c, p, bc, s, TakeRbcDone(i));
    assert Turn(c, p, bc, s, TakeRbcDone(i)).node == Finish(OnRbcDone(s.nodes[i]));
    DoNode(c, p, bc, s, TakeRbcDone(i), i);
  }

  /** One more agreement: there is no majority, and the broadcasts are past n-t. */
  lemma FinishNode(p: Params, bc: seq<Digest>, vs: seq<BlockShare>, i: int, nd: Node, k: nat, order: seq<int>)
    requires Spread(p, bc, vs) && k < p.n && Finishing(nd, vs, k) && Delivered(p, bc, nd) && StartUp(p, nd)
    requires IsOrder(order, nd.rbcVals)
    ensures Finishing(OnAbaOutput(p, i, nd, k, true, order).node, vs, k + 1)
  {
    var nd1 := AfterAba(p, nd, k, true);
    assert nd.rbcVals.Keys == Ids(p.n);
    AfterAbaStartUp(p, nd, k, true);
    SpreadIdle(p, bc, vs, nd1);
    CommitsExactly(p, bc, i, nd1, order);
    assert Ids(k + 1) == Ids(k) + {k};
  }

  lemma FinishOne(c: Config, p: Params, bc: seq<Digest>, vs: seq<BlockShare>, s: State, i: int, k: nat)
    returns (step: Step)
    requires Inv(c, p, bc, s) && Spread(p, bc, vs) && c.Honest(i) && k < p.n && Finishing(s.nodes[i], vs, k)
    ensures var s1 := Do(c, p, bc, s, step); |s1.nodes| == c.n && Finishing(s1.nodes[i], vs, k + 1)
  {
    var nd := s.nodes[i];
    var order := SomeOrder(nd.rbcVals);
    step := AbaOutput(i, k, true, order);
    assert NodeInv(c, p, bc, i, nd, s.net);
    FinishNode(p, bc, vs, i, nd, k, order);
    assert Enabled(c, p, bc, s, step);
    assert Turn(c, p, bc, s, step) == OnAbaOutput(p, i, nd, k, true, order);
    DoNode(c, p, bc, s, step, i);
  }

  lemma RunMore(c: Config, p: Params, bc: seq<Digest>, steps: seq<Step>, step: Step)
    requires |bc| == c.n
    ensures Run(c, p, bc, steps + [step]) == Do(c, p, bc, Run(c, p, bc, steps), step)
  {
    assert (steps + [step])[..|steps|] == steps;
  }

  ghost predicate GathersTo(c: Config, p: Params, bc: seq<Digest>, vs: seq<BlockShare>, steps: seq<Step>,
                            i: int, k: nat)
    requires |bc| == c.n && k <= |vs|
  {
    var s := Run(c, p, bc, steps);
    |s.nodes| == c.n && c.Honest(i) && Gathering(s.nodes[i], vs, k)
  }

  lemma {:induction false} Gather(c: Config, p: Params, bc: seq<Digest>, vs: seq<BlockShare>, i: int, k: nat)
    returns (steps: seq<Step>)
    requires ValidSetup(c, p, bc) && Spread(p, bc, vs) && c.Honest(i) && k <= p.n
    ensures GathersTo(c, p, bc, vs, steps, i, k)
  {
    if k == 0 {
      steps := [];
    } else {
      var before := Gather(c, p, bc, vs, i, k - 1);
      RunInv(c, p, bc, before);
      var step := GatherOne(c, p, bc, vs, Run(c, p, bc, before), i, k - 1);
      RunMore(c, p, bc, before, step);
      steps := before + [step];
    }
  }

  ghost predicate StartsTo(c: Config, p: Params, bc: seq<Digest>, vs: seq<BlockShare>, steps: seq<Step>,
                           i: int, k: nat)
    requires |bc| == c.n && k <= |vs|
  {
    var s := Run(c, p, bc, steps);
    |s.nodes| == c.n && c.Honest(i) && Starting(s.nodes[i], vs, k)
  }

  lemma GatheredStarts(vs: seq<BlockShare>, nd: Node)
    requires Gathering(nd, vs, |vs|)
    ensures Starting(nd, vs, 0)
  {
    assert seq(|vs| - 0, j => 0 + j) == seq(|vs|, j => j);
  }

  lemma StartZero(c: Config, p: Params, bc: seq<Digest>, vs: seq<BlockShare>, i: int) returns (steps: seq<Step>)
    requires ValidSetup(c, p, bc) && Spread(p, bc, vs) && c.Honest(i)
    ensures StartsTo(c, p, bc, vs, steps, i, 0)
  {
    steps := Gather(c, p, bc, vs, i, |vs|);
    GatheredStarts(vs, Run(c, p, bc, steps).nodes[i]);
  }

  lemma StartMore(c: Config, p: Params, bc: seq<Digest>, vs: seq<BlockShare>, steps: seq<Step>, i: int, k: nat)
    requires ValidSetup(c, p, bc) && Spread(p, bc, vs) && k < p.n && StartsTo(c, p, bc, vs, steps, i, k)
    ensures StartsTo(c, p, bc, vs, steps + [TakeRbcDone(i)], i, k + 1)
  {
    RunInv(c, p, bc, steps);
    StartOne(c, p, bc, vs, Run(c, p, bc, steps), i, k);
    RunMore(c, p, bc, steps, TakeRbcDone(i));
  }

  lemma {:induction false} StartUpTo(c: Config, p: Params, bc: seq<Digest>, vs: seq<BlockShare>, i: int, k: nat)
    returns (steps: seq<Step>)
    requires ValidSetup(c, p, bc) && Spread(p, bc, vs) && c.Honest(i) && k <= p.n
    ensures StartsTo(c, p, bc, vs, steps, i, k)
  {
    if k == 0 {
      steps := StartZero(c, p, bc, vs, i);
    } else {
      var before := StartUpTo(c, p, bc, vs, i, k - 1);
      StartMore(c, p, bc, vs, before, i, k - 1);
      steps := before + [TakeRbcDone(i)];
    }
  }

  ghost predicate FinishesTo(c: Config, p: Params, bc: seq<Digest>, vs: seq<BlockShare>, steps: seq<Step>,
                             i: int, k: nat)
    requires |bc| == c.n && k <= |vs|
  {
    var s := Run(c, p, bc, steps);
    |s.nodes| == c.n && c.Honest(i) && Finishing(s.nodes[i], vs, k)
  }

  lemma {:induction false} FinishUpTo(c: Config, p: Params, bc: seq<Digest>, vs: seq<BlockShare>, i: int, k: nat)
    returns (steps: seq<Step>)
    requires ValidSetup(c, p, bc) && Spread(p, bc, vs) && c.Honest(i) && k <= p.n
    ensures FinishesTo(c, p, bc, vs, steps, i, k)
  {
    if k == 0 {
      steps := StartUpTo(c, p, bc, vs, i, p.n);
    } else {
      var before := FinishUpTo(c, p, bc, vs, i, k - 1);
      RunInv(c, p, bc, before);
      var step := FinishOne(c, p, bc, vs, Run(c, p, bc, before), i, k - 1);
      RunMore(c, p, bc, before, step);
      steps := before + [step];
    }
  }

  ghost predicate CompleteAt(c: Config, p: Params, bc: seq<Digest>, steps: seq<Step>, i: int)
    requires |bc| == c.n
  {
    var s := Run(c, p, bc, steps);
    |s.nodes| == c.n && 0 <= i < c.n && Complete(p, s.nodes[i])
  }

  ghost predicate Uncommitted(c: Config, p: Params, bc: seq<Digest>, steps: seq<Step>, i: int)
    requires |bc| == c.n
  {
    var s := Run(c, p, bc, steps);
    |s.nodes| == c.n && 0 <= i < c.n && s.nodes[i].committed.None? && s.nodes[i].out.None?
  }

  /** With a fault to tolerate and no value that most broadcasts deliver, some run brings node i all
      it can ever get, and it has not committed. */
  lemma CompleteInVain(c: Config, p: Params, bc: seq<Digest>, vs: seq<BlockShare>, i: int) returns (steps: seq<Step>)
    requires ValidSetup(c, p, bc) && Spread(p, bc, vs) && c.Honest(i)
    ensures CompleteAt(c, p, bc, steps, i) && Uncommitted(c, p, bc, steps, i)
  {
    steps := FinishUpTo(c, p, bc, vs, i, p.n);
    assert Run(c, p, bc, steps).nodes[i].rbcVals.Keys == Ids(p.n);
  }

  /** Completion, exactly: in every run a node with everything in has committed, if and only if no
      fault is to be tolerated or more than half of the broadcasts deliver one value. */
  lemma CompletionExactly(c: Config, p: Params, bc: seq<Digest>, vs: seq<BlockShare>, i: int)
    requires ValidSetup(c, p, bc) && p.n > 2 * p.t && bc == Hashes(vs) && c.Honest(i)
    ensures (forall steps :: CompleteAt(c, p, bc, steps, i) ==> !Uncommitted(c, p, bc, steps, i))
            <==> p.t == 0 || Majority(bc)
  {
    if p.t == 0 || Majority(bc) {
      forall steps | CompleteAt(c, p, bc, steps, i) ensures !Uncommitted(c, p, bc, steps, i) {
        CompleteCommits(c, p, bc, steps, i);
      }
    } else {
      var steps := CompleteInVain(c, p, bc, vs, i);
    }
  }

  // ---- For ever

  /** A node that has everything and has not committed has nothing left that could make it. */
  lemma CompleteIdle(c: Config, p: Params, bc: seq<Digest>, s: State, step: Step, i: int)
    requires Inv(c, p, bc, s) && c.Honest(i) && Complete(p, s.nodes[i]) && s.nodes[i].committed.None?
    ensures var s1 := Do(c, p, bc, s, step);
      |s1.nodes| == c.n && Complete(p, s1.nodes[i]) && s1.nodes[i].committed.None?
  {
    DoNode(c, p, bc, s, step, i);
    if Enabled(c, p, bc, s, step) && !step.Forge? && step.i == i {
      assert NodeInv(c, p, bc, i, s.nodes[i], s.net);
      IdleTurn(c, p, bc, s, step);
    }
  }

  lemma IdleTurn(c: Config, p: Params, bc: seq<Digest>, s: State, step: Step)
    requires |bc| == c.n && Enabled(c, p, bc, s, step) && !step.Forge?
    requires c.n == p.n && Complete(p, s.nodes[step.i]) && StartUp(p, s.nodes[step.i])
    ensures Leaves(s.nodes[step.i], Turn(c, p, bc, s, step).node)
  {
    NothingLeft(c, p, bc, s, step);
    TurnLeaves(c, p, bc, s, step);
  }

  lemma NothingLeft(c: Config, p: Params, bc: seq<Digest>, s: State, step: Step)
    requires |bc| == c.n && Enabled(c, p, bc, s, step) && !step.Forge?
    requires c.n == p.n && Complete(p, s.nodes[step.i]) && StartUp(p, s.nodes[step.i])
    ensures !step.RbcOutput? && !step.AbaOutput?
  {
  }

  lemma OneMoreIdle(c: Config, p: Params, bc: seq<Digest>, steps: seq<Step>, step: Step, i: int)
    requires ValidSetup(c, p, bc) && c.Honest(i)
    requires CompleteAt(c, p, bc, steps, i) && Uncommitted(c, p, bc, steps, i)
    ensures CompleteAt(c, p, bc, steps + [step], i) && Uncommitted(c, p, bc, steps + [step], i)
  {
    RunInv(c, p, bc, steps);
    RunInv(c, p, bc, steps + [step]);
    RunMore(c, p, bc, steps, step);
    CompleteIdle(c, p, bc, Run(c, p, bc, steps), step, i);
    NoOutput(c, p, bc, Run(c, p, bc, steps + [step]), i);
  }

  lemma NoOutput(c: Config, p: Params, bc: seq<Digest>, s: State, i: int)
    requires Inv(c, p, bc, s) && c.Honest(i) && s.nodes[i].committed.None?
    ensures s.nodes[i].out.None?
  {
    assert NodeInv(c, p, bc, i, s.nodes[i], s.net);
  }

  /** Then it never commits, and so never returns, whatever happens afterwards. */
  lemma {:induction false} NeverCommits(c: Config, p: Params, bc: seq<Digest>, steps: seq<Step>,
                                        more: seq<Step>, i: int)
    requires ValidSetup(c, p, bc) && c.Honest(i)
    requires CompleteAt(c, p, bc, steps, i) && Uncommitted(c, p, bc, steps, i)
    ensures CompleteAt(c, p, bc, steps + more, i) && Uncommitted(c, p, bc, steps + more, i)
    decreases |more|
  {
    if more == [] {
      assert steps + more == steps;
    } else {
      var before, last := more[..|more| - 1], more[|more| - 1];
      Regroup(steps, more);
      NeverCommits(c, p, bc, steps, before, i);
      OneMoreIdle(c, p, bc, steps + before, last, i);
    }
  }

  lemma Regroup(steps: seq<Step>, more: seq<Step>)
    requires more != []
    ensures steps + more == (steps + more[..|more| - 1]) + [more[|more| - 1]]
  {
  }

  // ---- Before everything is in

  /** No value is delivered by more than half of n-t broadcasts: C1 and C2 never hold. */
  ghost predicate Scattered(p: Params, bc: seq<Digest>) {
    forall h :: 2 * |Delivering(bc, h)| <= p.n - p.t
  }

  /** The moment for C3 has passed without a commitment. */
  ghost predicate Missed(p: Params, nd: Node) {
    nd.committed.None? && (|nd.rbcVals| > p.n - p.t || |nd.abaFinished| > p.n - p.t)
  }

  lemma HandlerMisses(p: Params, bc: seq<Digest>, id: int, nd: Node, order: seq<int>)
    requires |bc| == p.n && p.t < p.n && Delivered(p, bc, nd) && StartUp(p, nd) && IsOrder(order, nd.rbcVals)
    requires Scattered(p, bc) && Missed(p, nd)
    ensures Missed(p, EventHandler(p, id, nd, order).node)
  {
    SubsetSize(nd.s * nd.rbcVals.Keys, nd.rbcVals.Keys);
    assert |nd.rbcVals| == |nd.rbcVals.Keys|;
    forall h ensures |nd.s| >= p.n - p.t ==> 2 * |Arrived(bc, nd, h)| <= |nd.rbcVals|
             ensures |Arrived(bc, nd, h)| < p.n - p.t {
      SubsetSize(Arrived(bc, nd, h), Delivering(bc, h));
      assert 2 * |Delivering(bc, h)| <= p.n - p.t;
    }
    assert !Ready(p, bc, nd);
    CommitsExactly(p, bc, id, nd, order);
  }

  lemma RbcMisses(p: Params, bc: seq<Digest>, id: int, nd: Node, k: int, v: BlockShare, order: seq<int>)
    requires |bc| == p.n && p.t < p.n && Delivered(p, bc, nd) && StartUp(p, nd) && Scattered(p, bc) && Missed(p, nd)
    requires 0 <= k < p.n && ShareHash(v) == bc[k] && IsOrder(order, nd.rbcVals[k := v])
    ensures Missed(p, OnRbcOutput(p, id, nd, k, v, order).node)
  {
    var nd1 := nd.(rbcVals := nd.rbcVals[k := v], rbcDone := nd.rbcDone + [k]);
    SubsetSize(nd.s * nd.rbcVals.Keys, nd.s * nd1.rbcVals.Keys);
    SubsetSize(nd.rbcVals.Keys, nd1.rbcVals.Keys);
    assert |nd.rbcVals| == |nd.rbcVals.Keys| && |nd1.rbcVals| == |nd1.rbcVals.Keys|;
    HandlerMisses(p, bc, id, nd1, order);
  }

  lemma AbaMisses(p: Params, bc: seq<Digest>, id: int, nd: Node, k: int, one: bool, order: seq<int>)
    requires |bc| == p.n && p.t < p.n && Delivered(p, bc, nd) && StartUp(p, nd) && Scattered(p, bc) && Missed(p, nd)
    requires k in nd.abaRunning && IsOrder(order, nd.rbcVals)
    ensures Missed(p, OnAbaOutput(p, id, nd, k, one, order).node)
  {
    var nd1 := AfterAba(p, nd, k, one);
    AfterAbaStartUp(p, nd, k, one);
    SubsetSize(nd.abaFinished, nd1.abaFinished);
    HandlerMisses(p, bc, id, nd1, order);
  }

  lemma TurnMisses(c: Config, p: Params, bc: seq<Digest>, s: State, step: Step)
    requires Inv(c, p, bc, s) && p.t < p.n && Scattered(p, bc) && Enabled(c, p, bc, s, step) && !step.Forge?
    requires Missed(p, s.nodes[step.i])
    ensures Missed(p, Turn(c, p, bc, s, step).node)
  {
    var nd := s.nodes[step.i];
    assert NodeInv(c, p, bc, step.i, nd, s.net);
    if step.RbcOutput? {
      RbcMisses(p, bc, step.i, nd, step.k, step.v, step.order);
    } else if step.AbaOutput? {
      AbaMisses(p, bc, step.i, nd, step.k, step.one, step.order);
    } else {
      TurnLeaves(c, p, bc, s, step);
    }
  }

  lemma StepMisses(c: Config, p: Params, bc: seq<Digest>, s: State, step: Step, i: int)
    requires Inv(c, p, bc, s) && p.t < p.n && Scattered(p, bc) && c.Honest(i) && Missed(p, s.nodes[i])
    ensures |Do(c, p, bc, s, step).nodes| == c.n && Missed(p, Do(c, p, bc, s, step).nodes[i])
  {
    DoNode(c, p, bc, s, step, i);
    if Enabled(c, p, bc, s, step) && !step.Forge? && step.i == i {
      TurnMisses(c, p, bc, s, step);
    }
  }

  ghost predicate HasMissed(c: Config, p: Params, bc: seq<Digest>, steps: seq<Step>, i: int)
    requires |bc| == c.n
  {
    var s := Run(c, p, bc, steps);
    |s.nodes| == c.n && 0 <= i < c.n && Missed(p, s.nodes[i])
  }

  lemma OneMoreStep(c: Config, p: Params, bc: seq<Digest>, steps: seq<Step>, step: Step, i: int)
    requires ValidSetup(c, p, bc) && p.t < p.n && Scattered(p, bc) && c.Honest(i) && HasMissed(c, p, bc, steps, i)
    ensures HasMissed(c, p, bc, steps + [step], i)
  {
    RunInv(c, p, bc, steps);
    StepMisses(c, p, bc, Run(c, p, bc, steps), step, i);
    RunMore(c, p, bc, steps, step);
  }

  /** When no value is delivered by more than half of n-t broadcasts, a node that has more than n-t
      broadcast or agreement outputs before it has committed never commits. */
  lemma {:induction false} MissedForever(c: Config, p: Params, bc: seq<Digest>, steps: seq<Step>,
                                         more: seq<Step>, i: int)
    requires ValidSetup(c, p, bc) && p.t < p.n && Scattered(p, bc) && c.Honest(i) && HasMissed(c, p, bc, steps, i)
    ensures HasMissed(c, p, bc, steps + more, i)
    decreases |more|
  {
    if more == [] {
      assert steps + more == steps;
    } else {
      var before, last := more[..|more| - 1], more[|more| - 1];
      Regroup(steps, more);
      MissedForever(c, p, bc, steps, before, i);
      OneMoreStep(c, p, bc, steps + before, last, i);
    }
  }
}
