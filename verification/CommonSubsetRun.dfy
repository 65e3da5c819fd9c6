/** A run in which every honest node returns, and all return one list, whatever the broadcasts
    deliver: all get the first n-t broadcasts, start those agreements, see them output 1, commit, and
    put the certificate together from the shares of the honest members. */
module CommonSubsetRun {
  import opened Quorums
  import opened Blocks
  import opened Tables
  import opened Certificates
  import opened CommonSubset
  import opened CommonSubsetSafety
  import opened CommonSubsetProgress
  import opened CommonSubsetReturn

  // ---- All honest nodes make the same move

  datatype Move =
    | Hear(k: int, order: seq<int>)   // broadcast k delivers vs[k]
    | Start                           // rbcDone is read
    | Agree(k: int, order: seq<int>)  // agreement k outputs 1
    | Take                            // acsOut is read

  /** What a node becomes; its index plays no part. */
  function Moved(p: Params, vs: seq<BlockShare>, nd: Node, mv: Move): Node
    requires mv.Hear? ==> 0 <= mv.k < |vs|
    requires mv.Start? ==> nd.rbcDone != []
    requires mv.Take? ==> nd.acsOut != []
  {
    match mv
    case Hear(k, order) => OnRbcOutput(p, 0, nd, k, vs[k], order).node
    case Start => Finish(OnRbcDone(nd))
    case Agree(k, order) => OnAbaOutput(p, 0, nd, k, true, order).node
    case Take => Finish(OnAcsOut(nd))
  }

  ghost predicate MayMove(p: Params, vs: seq<BlockShare>, nd: Node, mv: Move) {
    && !nd.crashed && nd.out.None?
    && match mv
       case Hear(k, order) =>
         0 <= k < p.n && k < |vs| && k !in nd.rbcVals && IsOrder(order, nd.rbcVals[k := vs[k]])
       case Start => nd.rbcDone != []
       case Agree(k, order) => k in nd.abaRunning && k !in nd.abaFinished && IsOrder(order, nd.rbcVals)
       case Take => nd.acsOut != []
  }

  function StepOf(vs: seq<BlockShare>, i: int, mv: Move): Step
    requires mv.Hear? ==> 0 <= mv.k < |vs|
  {
    match mv
    case Hear(k, order) => RbcOutput(i, k, vs[k], order)
    case Start => TakeRbcDone(i)
    case Agree(k, order) => AbaOutput(i, k, true, order)
    case Take => TakeAcsOut(i)
  }

  lemma SameForAll(p: Params, id: int, nd: Node, order: seq<int>)
    ensures EventHandler(p, id, nd, order).node == EventHandler(p, 0, nd, order).node
  {
  }

  lemma MoveOne(c: Config, p: Params, bc: seq<Digest>, vs: seq<BlockShare>, s: State, i: int, mv: Move)
    requires |bc| == |s.nodes| == c.n == p.n && bc == Hashes(vs) && c.Honest(i) && MayMove(p, vs, s.nodes[i], mv)
    ensures var s1 := Do(c, p, bc, s, StepOf(vs, i, mv));
      |s1.nodes| == c.n
      && forall j :: 0 <= j < c.n ==> s1.nodes[j] == if j == i then Moved(p, vs, s.nodes[i], mv) else s.nodes[j]
  {
    var nd, step := s.nodes[i], StepOf(vs, i, mv);
    assert Enabled(c, p, bc, s, step);
    match mv {
      case Hear(k, order) =>
        SameForAll(p, i, nd.(rbcVals := nd.rbcVals[k := vs[k]], rbcDone := nd.rbcDone + [k]), order);
      case Agree(k, order) => SameForAll(p, i, AfterAba(p, nd, k, true), order);
      case _ =>
    }
    assert Turn(c, p, bc, s, step).node == Moved(p, vs, nd, mv);
  }

  /** The honest nodes below k are nd1, the others nd. */
  ghost predicate HalfAre(c: Config, s: State, nd: Node, nd1: Node, k: nat) {
    |s.nodes| == c.n && forall i :: c.Honest(i) ==> s.nodes[i] == if i < k then nd1 else nd
  }

  ghost predicate AllAre(c: Config, s: State, nd: Node) {
    |s.nodes| == c.n && forall i :: c.Honest(i) ==> s.nodes[i] == nd
  }

  lemma {:induction false} MoveTo(c: Config, p: Params, bc: seq<Digest>, vs: seq<BlockShare>, before: seq<Step>,
                                  nd: Node, mv: Move, k: nat) returns (steps: seq<Step>)
    requires |bc| == c.n == p.n && bc == Hashes(vs) && k <= c.n
    requires AllAre(c, Run(c, p, bc, before), nd) && MayMove(p, vs, nd, mv)
    ensures HalfAre(c, Run(c, p, bc, steps), nd, Moved(p, vs, nd, mv), k)
  {
    if k == 0 {
      steps := before;
    } else {
      steps := MoveTo(c, p, bc, vs, before, nd, mv, k - 1);
      if c.Honest(k - 1) {
        MoveOne(c, p, bc, vs, Run(c, p, bc, steps), k - 1, mv);
        RunMore(c, p, bc, steps, StepOf(vs, k - 1, mv));
        steps := steps + [StepOf(vs, k - 1, mv)];
      }
    }
  }

  lemma MoveAll(c: Config, p: Params, bc: seq<Digest>, vs: seq<BlockShare>, before: seq<Step>, nd: Node, mv: Move)
    returns (steps: seq<Step>)
    requires |bc| == c.n == p.n && bc == Hashes(vs)
    requires AllAre(c, Run(c, p, bc, before), nd) && MayMove(p, vs, nd, mv)
    ensures AllAre(c, Run(c, p, bc, steps), Moved(p, vs, nd, mv))
  {
    steps := MoveTo(c, p, bc, vs, before, nd, mv, c.n);
  }

  // ---- The same stages for all

  /** Nothing has come from the committee, and nothing has been put out. */
  ghost predicate Undecided(nd: Node) {
    && !nd.crashed && nd.out.None? && nd.acsFinished.None? && nd.sharesReceived == map[]
    && nd.receivedHash.None? && nd.signature.None?
  }

  ghost predicate Heard(nd: Node, vs: seq<BlockShare>, k: nat)
    requires k <= |vs|
  {
    && Undecided(nd) && nd.rbcVals == (map j | 0 <= j < k :: vs[j]) && nd.rbcDone == seq(k, j => j)
    && nd.abaRunning == map[] && nd.abaFinished == {} && nd.s == {}
  }

  ghost predicate Started(nd: Node, vs: seq<BlockShare>, q: nat, k: nat)
    requires k <= q <= |vs|
  {
    && Undecided(nd) && nd.rbcVals == (map j | 0 <= j < q :: vs[j]) && nd.rbcDone == seq(q - k, j => k + j)
    && nd.abaRunning.Keys == Ids(k) && nd.abaFinished == {} && nd.s == {}
  }

  ghost predicate Agreed(nd: Node, vs: seq<BlockShare>, q: nat, k: nat)
    requires k <= q <= |vs|
  {
    && Undecided(nd) && nd.rbcVals == (map j | 0 <= j < q :: vs[j])
    && nd.abaRunning.Keys == Ids(q) && nd.abaFinished == Ids(k) && nd.s == Ids(k)
  }

  /** A turn of the event handler, in a run, leaves all but the commitment alone. */
  ghost predicate OnlyCommits(nd: Node, nd1: Node) {
    nd1 == nd.(committed := nd1.committed, acsOut := nd1.acsOut)
  }

  lemma HandlerCommits(p: Params, nd: Node, order: seq<int>)
    requires !EventHandler(p, 0, nd, order).node.crashed
    ensures OnlyCommits(nd, EventHandler(p, 0, nd, order).node)
  {
    HandlerCases(p, 0, nd, order);
  }

  lemma AllUp(c: Config, p: Params, bc: seq<Digest>, steps: seq<Step>, nd: Node, i: int)
    requires ValidSetup(c, p, bc) && AllAre(c, Run(c, p, bc, steps), nd) && c.Honest(i)
    ensures !nd.crashed
  {
    RunInv(c, p, bc, steps);
    assert NodeInv(c, p, bc, i, Run(c, p, bc, steps).nodes[i], Run(c, p, bc, steps).net);
  }

  function UpTo(k: nat): seq<int> {
    seq(k, j => j)
  }

  lemma UpToOrder(vs: seq<BlockShare>, k: nat)
    requires k <= |vs|
    ensures IsOrder(UpTo(k), map j | 0 <= j < k :: vs[j])
  {
    forall j ensures j in UpTo(k) <==> 0 <= j < k {
      if 0 <= j < k {
        assert UpTo(k)[j] == j;
      }
    }
  }

  lemma HearNode(p: Params, vs: seq<BlockShare>, nd: Node, k: nat)
    requires k < |vs| == p.n && Heard(nd, vs, k)
    ensures MayMove(p, vs, nd, Hear(k, UpTo(k + 1)))
    ensures var nd1 := Moved(p, vs, nd, Hear(k, UpTo(k + 1))); !nd1.crashed ==> Heard(nd1, vs, k + 1)
  {
    var next := nd.(rbcVals := nd.rbcVals[k := vs[k]], rbcDone := nd.rbcDone + [k]);
    UpToOrder(vs, k + 1);
    assert next.rbcVals == map j | 0 <= j < k + 1 :: vs[j];
    assert next.rbcDone == seq(k + 1, j => j);
    if !EventHandler(p, 0, next, UpTo(k + 1)).node.crashed {
      HandlerCommits(p, next, UpTo(k + 1));
    }
  }

  lemma HearMore(c: Config, p: Params, bc: seq<Digest>, vs: seq<BlockShare>, i: int, before: seq<Step>, nd: Node,
                 k: nat)
    returns (steps: seq<Step>, nd1: Node)
    requires ValidSetup(c, p, bc) && bc == Hashes(vs) && c.Honest(i) && k < p.n
    requires AllAre(c, Run(c, p, bc, before), nd) && Heard(nd, vs, k)
    ensures AllAre(c, Run(c, p, bc, steps), nd1) && Heard(nd1, vs, k + 1)
  {
    HearNode(p, vs, nd, k);
    steps := MoveAll(c, p, bc, vs, before, nd, Hear(k, UpTo(k + 1)));
    nd1 := Moved(p, vs, nd, Hear(k, UpTo(k + 1)));
    AllUp(c, p, bc, steps, nd1, i);
  }

  lemma {:induction false} HearAll(c: Config, p: Params, bc: seq<Digest>, vs: seq<BlockShare>, i: int, k: nat)
    returns (steps: seq<Step>, nd: Node)
    requires ValidSetup(c, p, bc) && bc == Hashes(vs) && c.Honest(i) && k <= p.n
    ensures AllAre(c, Run(c, p, bc, steps), nd) && Heard(nd, vs, k)
  {
    if k == 0 {
      steps, nd := [], InitNode();
    } else {
      var before, nd0 := HearAll(c, p, bc, vs, i, k - 1);
      steps, nd := HearMore(c, p, bc, vs, i, before, nd0, k - 1);
    }
  }

  lemma RestOfQueue(queue: seq<int>, q: nat, k: nat)
    requires k < q && queue == seq(q - k, j => k + j)
    ensures queue[0] == k && queue[1..] == seq(q - (k + 1), j => k + 1 + j)
  {
  }

  lemma OneMoreRuns(running: map<int, int>, k: nat)
    requires running.Keys == Ids(k)
    ensures StartMissing(running, {k}, 1).Keys == Ids(k + 1)
  {
    StartMissingKeys(running, {k}, 1);
  }

  lemma StartNode(p: Params, vs: seq<BlockShare>, nd: Node, q: nat, k: nat)
    requires k < q <= |vs| && Started(nd, vs, q, k)
    ensures MayMove(p, vs, nd, Start) && Started(Moved(p, vs, nd, Start), vs, q, k + 1)
  {
    RestOfQueue(nd.rbcDone, q, k);
    OneMoreRuns(nd.abaRunning, k);
    var nd1 := nd.(rbcDone := nd.rbcDone[1..], abaRunning := StartMissing(nd.abaRunning, {k}, 1));
    assert Moved(p, vs, nd, Start) == nd1;
  }

  lemma HeardStarts(nd: Node, vs: seq<BlockShare>, q: nat)
    requires q <= |vs| && Heard(nd, vs, q)
    ensures Started(nd, vs, q, 0)
  {
    assert seq(q - 0, j => 0 + j) == seq(q, j => j);
    assert nd.abaRunning.Keys == Ids(0);
  }

  lemma StartMore(c: Config, p: Params, bc: seq<Digest>, vs: seq<BlockShare>, before: seq<Step>, nd: Node, q: nat,
                  k: nat)
    returns (steps: seq<Step>, nd1: Node)
    requires |bc| == c.n == p.n && bc == Hashes(vs) && k < q <= p.n
    requires AllAre(c, Run(c, p, bc, before), nd) && Started(nd, vs, q, k)
    ensures AllAre(c, Run(c, p, bc, steps), nd1) && Started(nd1, vs, q, k + 1)
  {
    StartNode(p, vs, nd, q, k);
    steps := MoveAll(c, p, bc, vs, before, nd, Start);
    nd1 := Moved(p, vs, nd, Start);
  }

  lemma {:induction false} StartAll(c: Config, p: Params, bc: seq<Digest>, vs: seq<BlockShare>, i: int, q: nat, k: nat)
    returns (steps: seq<Step>, nd: Node)
    requires ValidSetup(c, p, bc) && bc == Hashes(vs) && c.Honest(i) && k <= q <= p.n
    ensures AllAre(c, Run(c, p, bc, steps), nd) && Started(nd, vs, q, k)
  {
    if k == 0 {
      steps, nd := HearAll(c, p, bc, vs, i, q);
      HeardStarts(nd, vs, q);
    } else {
      var before, nd0 := StartAll(c, p, bc, vs, i, q, k - 1);
      steps, nd := StartMore(c, p, bc, vs, before, nd0, q, k - 1);
    }
  }

  lemma AgreeNode(p: Params, vs: seq<BlockShare>, nd: Node, q: nat, k: nat)
    requires k < q <= |vs| == p.n && Agreed(nd, vs, q, k)
    ensures MayMove(p, vs, nd, Agree(k, UpTo(q)))
    ensures var nd1 := Moved(p, vs, nd, Agree(k, UpTo(q))); !nd1.crashed ==> Agreed(nd1, vs, q, k + 1)
  {
    var next := AfterAba(p, nd, k, true);
    UpToOrder(vs, q);
    assert Ids(k + 1) == Ids(k) + {k};
    if !EventHandler(p, 0, next, UpTo(q)).node.crashed {
      HandlerCommits(p, next, UpTo(q));
    }
  }

  lemma AgreeMore(c: Config, p: Params, bc: seq<Digest>, vs: seq<BlockShare>, i: int, before: seq<Step>, nd: Node,
                  q: nat, k: nat)
    returns (steps: seq<Step>, nd1: Node)
    requires ValidSetup(c, p, bc) && bc == Hashes(vs) && c.Honest(i) && k < q <= p.n
    requires AllAre(c, Run(c, p, bc, before), nd) && Agreed(nd, vs, q, k)
    ensures AllAre(c, Run(c, p, bc, steps), nd1) && Agreed(nd1, vs, q, k + 1)
  {
    AgreeNode(p, vs, nd, q, k);
    steps := MoveAll(c, p, bc, vs, before, nd, Agree(k, UpTo(q)));
    nd1 := Moved(p, vs, nd, Agree(k, UpTo(q)));
    AllUp(c, p, bc, steps, nd1, i);
  }

  lemma StartedAgrees(nd: Node, vs: seq<BlockShare>, q: nat)
    requires q <= |vs| && Started(nd, vs, q, q)
    ensures Agreed(nd, vs, q, 0)
  {
  }

  lemma {:induction false} AgreeAll(c: Config, p: Params, bc: seq<Digest>, vs: seq<BlockShare>, i: int, q: nat, k: nat)
    returns (steps: seq<Step>, nd: Node)
    requires ValidSetup(c, p, bc) && bc == Hashes(vs) && c.Honest(i) && k <= q <= p.n
    ensures AllAre(c, Run(c, p, bc, steps), nd) && Agreed(nd, vs, q, k)
  {
    if k == 0 {
      steps, nd := StartAll(c, p, bc, vs, i, q, q);
      StartedAgrees(nd, vs, q);
    } else {
      var before, nd0 := AgreeAll(c, p, bc, vs, i, q, k - 1);
      steps, nd := AgreeMore(c, p, bc, vs, i, before, nd0, q, k - 1);
    }
  }

  // ---- The list

  /** The node has its list and waits for a certificate. */
  ghost predicate Waiting(nd: Node, list: seq<BlockShare>) {
    && !nd.crashed && nd.out.None? && nd.acsFinished == Some(list) && nd.sharesReceived == map[]
    && nd.receivedHash.None? && nd.signature.None?
  }

  /** With n-t broadcasts and the n-t agreements on them, C3 holds, so the node has committed. */
  lemma AgreedCommitted(c: Config, p: Params, bc: seq<Digest>, vs: seq<BlockShare>, steps: seq<Step>, nd: Node, i: int)
    requires ValidSetup(c, p, bc) && p.t < p.n && bc == Hashes(vs) && c.Honest(i)
    requires AllAre(c, Run(c, p, bc, steps), nd) && Agreed(nd, vs, p.n - p.t, p.n - p.t)
    ensures nd.committed.Some? && nd.acsOut == [nd.committed.value.values]
  {
    RunSettled(c, p, bc, steps);
    assert Settled(p, bc, Run(c, p, bc, steps).nodes[i]);
    assert nd.rbcVals.Keys == Ids(p.n - p.t);
    assert |nd.rbcVals| == |nd.rbcVals.Keys|;
    assert CThreeHolds(p, nd.rbcVals, nd.s, nd.abaFinished);
    ReturnsExactly(c, p, bc, steps, i);
  }

  lemma AllWait(c: Config, p: Params, bc: seq<Digest>, vs: seq<BlockShare>, i: int)
    returns (steps: seq<Step>, nd: Node, list: seq<BlockShare>)
    requires ValidSetup(c, p, bc) && p.t < p.n && bc == Hashes(vs) && c.Honest(i)
    ensures AllAre(c, Run(c, p, bc, steps), nd) && Waiting(nd, list)
    ensures nd.committed.Some? && nd.committed.value.values == list
  {
    var before, nd0 := AgreeAll(c, p, bc, vs, i, p.n - p.t, p.n - p.t);
    AgreedCommitted(c, p, bc, vs, before, nd0, i);
    list := nd0.committed.value.values;
    steps := MoveAll(c, p, bc, vs, before, nd0, Take);
    nd := Moved(p, vs, nd0, Take);
  }

  // ---- The certificate

  function HonestMembers(c: Config, p: Params): set<int> {
    p.committee - c.faulty
  }

  function Below(ids: set<int>, k: nat): set<int> {
    set j | j in ids && 0 <= j < k
  }

  function ShareOf(i: int, list: seq<BlockShare>): Msg {
    CommitMsg(i, list, ListHash(list), OwnShare(i, ListHash(list)), OwnProof(i))
  }

  predicate Enough(p: Params, ids: set<int>) {
    |ids| >= p.tk + 1 && |ids| >= p.certK
  }

  /** The node has returned, or it has the shares of the honest members below k, and they are not
      enough. */
  ghost predicate Joining(c: Config, p: Params, nd: Node, list: seq<BlockShare>, k: nat) {
    || nd.out == Some(list)
    || (&& !nd.crashed && nd.out.None? && nd.acsFinished == Some(list) && nd.receivedHash.None? && nd.signature.None?
        && (forall x :: x in nd.sharesReceived <==>
              x.hash == ListHash(list) && x.sender in HonestMembers(c, p) && 0 <= x.sender < k)
        && (forall x :: x in nd.sharesReceived ==> nd.sharesReceived[x] == OwnShare(x.sender, x.hash))
        && !Enough(p, Below(HonestMembers(c, p), k)))
  }

  /** The shares after one more of them, and what a join of them gives. */
  lemma MoreShares(c: Config, p: Params, nd: Node, list: seq<BlockShare>, k: nat, picked: set<int>)
    requires Joining(c, p, nd, list, k) && nd.out.None? && k in HonestMembers(c, p)
    requires MayPick(p, nd, ShareOf(k, list), picked)
    ensures var m := ShareOf(k, list);
      && ValidCommit(p, m)
      && ShareSenders(Filed(nd, m), m.hash) == Below(HonestMembers(c, p), k + 1)
      && (Enough(p, Below(HonestMembers(c, p), k + 1)) ==>
            Join(p.certK, Filed(nd, m), m.hash, picked) == Some(Joined(m.hash)))
  {
    var m := ShareOf(k, list);
    forall j ensures j in ShareSenders(Filed(nd, m), m.hash) <==> j in Below(HonestMembers(c, p), k + 1) {
      if j in Below(HonestMembers(c, p), k + 1) {
        assert ShareKey(m.hash, j) in Filed(nd, m);
      }
    }
    assert ShareSenders(Filed(nd, m), m.hash) == Below(HonestMembers(c, p), k + 1);
    if Enough(p, Below(HonestMembers(c, p), k + 1)) {
      FewApart(p.certK, Filed(nd, m), m.hash, picked);
    }
  }

  lemma JoinNode(c: Config, p: Params, i: int, nd: Node, list: seq<BlockShare>, k: nat, picked: set<int>)
    requires Joining(c, p, nd, list, k) && nd.out.None? && k in HonestMembers(c, p)
    requires MayPick(p, nd, ShareOf(k, list), picked)
    ensures Joining(c, p, Finish(OnCommit(p, i, nd, ShareOf(k, list), picked).node), list, k + 1)
  {
    var m := ShareOf(k, list);
    MoreShares(c, p, nd, list, k, picked);
    var nd1 := OnCommit(p, i, nd, m, picked).node;
    if Enough(p, Below(HonestMembers(c, p), k + 1)) {
      assert nd1 == nd.(sharesReceived := Filed(nd, m), receivedHash := Some(m.hash),
                        signature := Some(Joined(m.hash)));
      assert Finish(nd1).out == Some(list);
    } else {
      assert nd1 == nd.(sharesReceived := Filed(nd, m)) && Finish(nd1) == nd1;
    }
  }

  lemma JoinSkip(c: Config, p: Params, nd: Node, list: seq<BlockShare>, k: nat)
    requires Joining(c, p, nd, list, k) && (nd.out.Some? || k !in HonestMembers(c, p))
    ensures Joining(c, p, nd, list, k + 1)
  {
    if k !in HonestMembers(c, p) {
      assert Below(HonestMembers(c, p), k + 1) == Below(HonestMembers(c, p), k);
    }
  }

  /** Only node i has moved. */
  ghost predicate OnlyMoved(s: State, s1: State, i: int) {
    && |s1.nodes| == |s.nodes| && 0 <= i < |s.nodes| && s.net <= s1.net
    && forall j :: 0 <= j < |s.nodes| && j != i ==> s1.nodes[j] == s.nodes[j]
  }

  lemma {:induction false} JoinAll(c: Config, p: Params, bc: seq<Digest>, before: seq<Step>, i: int,
                                   list: seq<BlockShare>, k: nat) returns (steps: seq<Step>)
    requires |bc| == c.n && c.Honest(i) && k <= c.n
    requires var s := Run(c, p, bc, before);
      && |s.nodes| == c.n && Joining(c, p, s.nodes[i], list, 0)
      && forall j :: j in HonestMembers(c, p) ==> ShareOf(j, list) in s.net
    ensures var s, s1 := Run(c, p, bc, before), Run(c, p, bc, steps);
      OnlyMoved(s, s1, i) && Joining(c, p, s1.nodes[i], list, k)
  {
    if k == 0 {
      steps := before;
    } else {
      steps := JoinAll(c, p, bc, before, i, list, k - 1);
      var s := Run(c, p, bc, steps);
      if k - 1 in HonestMembers(c, p) && s.nodes[i].out.None? {
        steps := JoinOne(c, p, bc, steps, i, list, k - 1);
      } else {
        JoinSkip(c, p, s.nodes[i], list, k - 1);
      }
    }
  }

  lemma JoinOne(c: Config, p: Params, bc: seq<Digest>, before: seq<Step>, i: int, list: seq<BlockShare>, k: nat)
    returns (steps: seq<Step>)
    requires |bc| == c.n && c.Honest(i) && k in HonestMembers(c, p)
    requires var s := Run(c, p, bc, before);
      && |s.nodes| == c.n && Joining(c, p, s.nodes[i], list, k) && s.nodes[i].out.None?
      && ShareOf(k, list) in s.net
    ensures var s, s1 := Run(c, p, bc, before), Run(c, p, bc, steps);
      OnlyMoved(s, s1, i) && Joining(c, p, s1.nodes[i], list, k + 1)
  {
    var s, m := Run(c, p, bc, before), ShareOf(k, list);
    var picked := PickSome(p.certK, Filed(s.nodes[i], m), m.hash);
    JoinNode(c, p, i, s.nodes[i], list, k, picked);
    RunMore(c, p, bc, before, Receive(i, m, picked));
    steps := before + [Receive(i, m, picked)];
  }

  // ---- Everybody returns

  /** The honest nodes below k have returned the list, the others wait; the shares are around. */
  ghost predicate ReturnedTo(c: Config, p: Params, s: State, list: seq<BlockShare>, k: nat) {
    && |s.nodes| == c.n
    && (forall j :: j in HonestMembers(c, p) ==> ShareOf(j, list) in s.net)
    && forall i :: c.Honest(i) ==> if i < k then s.nodes[i].out == Some(list) else Waiting(s.nodes[i], list)
  }

  lemma AllJoin(c: Config, p: Params, s: State, s1: State, list: seq<BlockShare>, k: nat)
    requires p.committee <= Ids(c.n) && Enough(p, HonestMembers(c, p))
    requires ReturnedTo(c, p, s, list, k) && OnlyMoved(s, s1, k) && Joining(c, p, s1.nodes[k], list, c.n)
    ensures ReturnedTo(c, p, s1, list, k + 1)
  {
    assert Below(HonestMembers(c, p), c.n) == HonestMembers(c, p);
  }

  lemma WaitingJoins(c: Config, p: Params, nd: Node, list: seq<BlockShare>)
    requires Waiting(nd, list)
    ensures Joining(c, p, nd, list, 0)
  {
    assert Below(HonestMembers(c, p), 0) == {};
  }

  lemma {:induction false} ReturnAll(c: Config, p: Params, bc: seq<Digest>, before: seq<Step>, list: seq<BlockShare>,
                                     k: nat) returns (steps: seq<Step>)
    requires |bc| == c.n && p.committee <= Ids(c.n) && Enough(p, HonestMembers(c, p)) && k <= c.n
    requires ReturnedTo(c, p, Run(c, p, bc, before), list, 0)
    ensures ReturnedTo(c, p, Run(c, p, bc, steps), list, k)
  {
    if k == 0 {
      steps := before;
    } else {
      var some := ReturnAll(c, p, bc, before, list, k - 1);
      if c.Honest(k - 1) {
        WaitingJoins(c, p, Run(c, p, bc, some).nodes[k - 1], list);
        steps := JoinAll(c, p, bc, some, k - 1, list, c.n);
        AllJoin(c, p, Run(c, p, bc, some), Run(c, p, bc, steps), list, k - 1);
      } else {
        steps := some;
      }
    }
  }

  lemma SharesAround(c: Config, p: Params, bc: seq<Digest>, steps: seq<Step>, nd: Node, list: seq<BlockShare>)
    requires ValidSetup(c, p, bc) && p.t < p.n && AllAre(c, Run(c, p, bc, steps), nd) && Waiting(nd, list)
    requires nd.committed.Some? && nd.committed.value.values == list
    ensures ReturnedTo(c, p, Run(c, p, bc, steps), list, 0)
  {
    forall j | j in HonestMembers(c, p) ensures ShareOf(j, list) in Run(c, p, bc, steps).net {
      assert c.Honest(j);
      TellsExactly(c, p, bc, steps, j);
    }
  }

  /** With enough honest members for a certificate, whoever else is faulty and whatever the
      broadcasts deliver, some run ends with all honest nodes having returned one list. */
  lemma AllReturn(c: Config, p: Params, bc: seq<Digest>, vs: seq<BlockShare>)
    returns (steps: seq<Step>, list: seq<BlockShare>)
    requires ValidSetup(c, p, bc) && p.t < p.n && bc == Hashes(vs)
    requires |p.committee - c.faulty| >= p.tk + 1 && |p.committee - c.faulty| >= p.certK
    ensures var s := Run(c, p, bc, steps);
      |s.nodes| == c.n && forall i :: c.Honest(i) ==> s.nodes[i].out == Some(list)
  {
    Inhabited(HonestMembers(c, p));
    var i :| i in HonestMembers(c, p);
    var nd;
    steps, nd, list := AllWait(c, p, bc, vs, i);
    SharesAround(c, p, bc, steps, nd, list);
    steps := ReturnAll(c, p, bc, steps, list, c.n);
  }
}
