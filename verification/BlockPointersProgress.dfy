/** When a node crashes over block messages and when its pre-blocks are ready. A pre-block has n-ta
    slots and is ready when they are full, so exactly the messages of the first n-ta nodes will do:
    each of those is needed, and any other is fatal. */
module BlockPointersProgress {
  import opened Quorums
  import opened Blocks
  import opened BlockPointers
  import opened BlockPointersSafety

  // ---- A node that handles a list of messages

  /** A node that handles these messages, as far as its pre-blocks go: the others leave them alone.
      Once it has crashed it handles nothing. */
  function HandleAll(p: Params, id: int, ms: seq<Msg>): Node {
    if ms == [] then InitNode(p)
    else
      var nd := HandleAll(p, id, ms[..|ms| - 1]);
      var m := ms[|ms| - 1];
      if nd.crashed || !m.BlockMsg? then nd else OnBlock(p, id, nd, m).node
  }

  function Slots(p: Params): nat {
    if p.ta <= p.n then p.n - p.ta else 0
  }

  predicate OutOfRange(p: Params, m: Msg) {
    m.BlockMsg? && !(0 <= m.sender < Slots(p))
  }

  ghost predicate SomeOut(p: Params, ms: seq<Msg>) {
    exists m :: m in ms && OutOfRange(p, m)
  }

  /** The node puts this message of j into its large or small pre-block. */
  predicate Fills(p: Params, id: int, large: bool, j: int, m: Msg) {
    m.BlockMsg? && m.sender == j && large == (m.large && id in p.committee)
  }

  ghost predicate Heard(p: Params, id: int, large: bool, ms: seq<Msg>, j: int) {
    exists m :: m in ms && Fills(p, id, large, j, m)
  }

  ghost predicate AllHeard(p: Params, id: int, large: bool, ms: seq<Msg>) {
    forall j :: 0 <= j < Slots(p) ==> Heard(p, id, large, ms, j)
  }

  function Vec(nd: Node, large: bool): seq<Option<PreBlockMessage>> {
    if large then nd.largePb else nd.smallPb
  }

  predicate IsReady(nd: Node, large: bool) {
    if large then nd.readyLarge else nd.readySmall
  }

  /** What a node holds that has handled ms without crashing: slots filled by those it has heard,
      ready when there is no empty one. */
  ghost predicate Holds(p: Params, id: int, large: bool, ms: seq<Msg>, nd: Node) {
    && |Vec(nd, large)| == Slots(p)
    && (forall j :: 0 <= j < Slots(p) ==> (Vec(nd, large)[j].Some? <==> Heard(p, id, large, ms, j)))
    && (IsReady(nd, large) <==> p.ta < p.n && AllHeard(p, id, large, ms))
  }

  lemma HeardMore(p: Params, id: int, large: bool, ms: seq<Msg>, j: int)
    requires ms != []
    ensures var last := |ms| - 1;
      Heard(p, id, large, ms, j) <==> Heard(p, id, large, ms[..last], j) || Fills(p, id, large, j, ms[last])
  {
    var last := |ms| - 1;
    assert ms == ms[..last] + [ms[last]];
  }

  lemma OutMore(p: Params, ms: seq<Msg>)
    requires ms != []
    ensures SomeOut(p, ms) <==> SomeOut(p, ms[..|ms| - 1]) || OutOfRange(p, ms[|ms| - 1])
  {
    var last := |ms| - 1;
    assert ms == ms[..last] + [ms[last]];
  }

  /** What one message does to one of the two pre-blocks. */
  predicate Fill(p: Params, nd: Node, nd1: Node, large: bool, m: Msg)
    requires m.BlockMsg?
  {
    && 0 <= m.sender < |Vec(nd, large)|
    && var vec := Vec(nd, large);
       if vec[m.sender].Some? then Vec(nd1, large) == vec && IsReady(nd1, large) == IsReady(nd, large)
       else
         && Vec(nd1, large) == vec[m.sender := Some(PreBlockMessage(m.payload, m.sig))]
         && IsReady(nd1, large) == (IsReady(nd, large) || Quality(Vec(nd1, large)) >= p.n - p.ta)
  }

  lemma Turn(p: Params, id: int, nd: Node, m: Msg, large: bool)
    requires |nd.largePb| == |nd.smallPb| == Slots(p) && !nd.crashed
    ensures var nd1 := if m.BlockMsg? then OnBlock(p, id, nd, m).node else nd;
      && (nd1.crashed <==> OutOfRange(p, m))
      && |nd1.largePb| == |nd1.smallPb| == Slots(p)
      && if !nd1.crashed && Fills(p, id, large, m.sender, m) then Fill(p, nd, nd1, large, m)
         else Vec(nd1, large) == Vec(nd, large) && IsReady(nd1, large) == IsReady(nd, large)
  {
  }

  lemma FillHolds(p: Params, id: int, large: bool, ms: seq<Msg>, nd: Node, nd1: Node)
    requires ms != [] && Holds(p, id, large, ms[..|ms| - 1], nd)
    requires var m := ms[|ms| - 1]; Fills(p, id, large, m.sender, m) && Fill(p, nd, nd1, large, m)
    ensures Holds(p, id, large, ms, nd1)
  {
    forall j ensures var last := |ms| - 1;
      Heard(p, id, large, ms, j) <==> Heard(p, id, large, ms[..last], j) || Fills(p, id, large, j, ms[last])
    {
      HeardMore(p, id, large, ms, j);
    }
    QualityFull(Vec(nd1, large));
  }

  lemma SkipHolds(p: Params, id: int, large: bool, ms: seq<Msg>, nd: Node, nd1: Node)
    requires ms != [] && Holds(p, id, large, ms[..|ms| - 1], nd)
    requires var m := ms[|ms| - 1]; !Fills(p, id, large, m.sender, m)
    requires Vec(nd1, large) == Vec(nd, large) && IsReady(nd1, large) == IsReady(nd, large)
    ensures Holds(p, id, large, ms, nd1)
  {
    forall j ensures Heard(p, id, large, ms, j) <==> Heard(p, id, large, ms[..|ms| - 1], j) {
      HeardMore(p, id, large, ms, j);
    }
  }

  /** A node has crashed exactly when it has handled a block message of a node outside 0..n-ta-1;
      until then each pre-block is what it has heard. */
  lemma {:induction false} Handled(p: Params, id: int, large: bool, ms: seq<Msg>)
    ensures var nd := HandleAll(p, id, ms);
      && |nd.largePb| == |nd.smallPb| == Slots(p)
      && (nd.crashed <==> SomeOut(p, ms))
      && (!nd.crashed ==> Holds(p, id, large, ms, nd))
  {
    if ms == [] {
      assert !Heard(p, id, large, ms, 0);
      assert forall j :: !Heard(p, id, large, ms, j);
    } else {
      var before := HandleAll(p, id, ms[..|ms| - 1]);
      var m := ms[|ms| - 1];
      Handled(p, id, large, ms[..|ms| - 1]);
      OutMore(p, ms);
      if !before.crashed {
        Turn(p, id, before, m, large);
        var nd := HandleAll(p, id, ms);
        if !nd.crashed && Fills(p, id, large, m.sender, m) {
          FillHolds(p, id, large, ms, before, nd);
        } else if !nd.crashed {
          SkipHolds(p, id, large, ms, before, nd);
        }
      }
    }
  }

  // ---- Before the first crash

  /** Some of the first messages are enough, and no message among them is fatal. */
  ghost predicate EnoughFirst(p: Params, id: int, large: bool, ms: seq<Msg>) {
    exists k :: 0 <= k <= |ms| && !SomeOut(p, ms[..k]) && AllHeard(p, id, large, ms[..k])
  }

  lemma EnoughMore(p: Params, id: int, large: bool, ms: seq<Msg>)
    requires ms != []
    ensures EnoughFirst(p, id, large, ms) <==>
            EnoughFirst(p, id, large, ms[..|ms| - 1]) || (!SomeOut(p, ms) && AllHeard(p, id, large, ms))
  {
    var before := ms[..|ms| - 1];
    assert ms[..|ms|] == ms;
    forall k | 0 <= k <= |before| ensures before[..k] == ms[..k] {
    }
    if EnoughFirst(p, id, large, ms) {
      var k :| 0 <= k <= |ms| && !SomeOut(p, ms[..k]) && AllHeard(p, id, large, ms[..k]);
      assert k < |ms| ==> before[..k] == ms[..k];
    }
    if EnoughFirst(p, id, large, before) {
      var k :| 0 <= k <= |before| && !SomeOut(p, before[..k]) && AllHeard(p, id, large, before[..k]);
      assert before[..k] == ms[..k];
    }
  }

  /** A pre-block is ready exactly when the node has heard each of the nodes 0..n-ta-1 before
      anybody else, whether it has crashed since or not. */
  lemma {:induction false} ReadyExactly(p: Params, id: int, large: bool, ms: seq<Msg>)
    ensures IsReady(HandleAll(p, id, ms), large) <==> p.ta < p.n && EnoughFirst(p, id, large, ms)
  {
    Handled(p, id, large, ms);
    if ms == [] {
      assert ms[..0] == ms;
      assert !Heard(p, id, large, ms, 0);
    } else {
      ReadyExactly(p, id, large, ms[..|ms| - 1]);
      EnoughMore(p, id, large, ms);
      ReadyMore(p, id, large, ms);
    }
  }

  /** Readiness does not go away, and does not come after a crash. */
  lemma ReadyMore(p: Params, id: int, large: bool, ms: seq<Msg>)
    requires ms != []
    ensures IsReady(HandleAll(p, id, ms), large) <==>
            || IsReady(HandleAll(p, id, ms[..|ms| - 1]), large)
            || (p.ta < p.n && !SomeOut(p, ms) && AllHeard(p, id, large, ms))
  {
    var before := HandleAll(p, id, ms[..|ms| - 1]);
    Handled(p, id, large, ms[..|ms| - 1]);
    Handled(p, id, large, ms);
    OutMore(p, ms);
    if !before.crashed {
      Turn(p, id, before, ms[|ms| - 1], large);
    }
  }

  // ---- Runs

  /** The messages that node i has handled in a run. */
  ghost function HandledBy(c: Config, p: Params, steps: seq<Step>, i: int): seq<Msg> {
    if steps == [] then []
    else
      var before, step := steps[..|steps| - 1], steps[|steps| - 1];
      HandledBy(c, p, before, i)
      + if step.Deliver? && step.i == i && Enabled(c, p, Run(c, p, before), step) then [step.m] else []
  }

  /** Two nodes with the same pre-blocks; what they know of pointers may differ. */
  ghost predicate SamePreBlocks(a: Node, b: Node) {
    && a.largePb == b.largePb && a.readyLarge == b.readyLarge
    && a.smallPb == b.smallPb && a.readySmall == b.readySmall && a.crashed == b.crashed
  }

  lemma LargePreBlocks(p: Params, i: int, a: Node, b: Node, m: Msg)
    requires SamePreBlocks(a, b) && m.BlockMsg?
    ensures SamePreBlocks(OnLarge(p, i, a, m).node, OnLarge(p, i, b, m).node)
  {
  }

  lemma SmallPreBlocks(p: Params, a: Node, b: Node, m: Msg)
    requires SamePreBlocks(a, b) && m.BlockMsg?
    ensures SamePreBlocks(OnSmall(p, a, m), OnSmall(p, b, m))
  {
  }

  lemma BlockPreBlocks(p: Params, i: int, a: Node, b: Node, m: Msg)
    requires SamePreBlocks(a, b) && m.BlockMsg?
    ensures SamePreBlocks(OnBlock(p, i, a, m).node, OnBlock(p, i, b, m).node)
  {
    LargePreBlocks(p, i, a, b, m);
    SmallPreBlocks(p, a, b, m);
  }

  lemma OtherPreBlocks(p: Params, i: int, nd: Node, m: Msg, picked: set<int>)
    requires !m.BlockMsg?
    ensures SamePreBlocks(OnMessage(p, i, nd, m, picked).node, nd)
  {
  }

  lemma MessagePreBlocks(p: Params, i: int, a: Node, b: Node, m: Msg, picked: set<int>)
    requires SamePreBlocks(a, b)
    ensures SamePreBlocks(OnMessage(p, i, a, m, picked).node, if m.BlockMsg? then OnBlock(p, i, b, m).node else b)
  {
    if m.BlockMsg? {
      BlockPreBlocks(p, i, a, b, m);
    } else {
      OtherPreBlocks(p, i, a, m, picked);
    }
  }

  lemma {:induction false} RunHandles(c: Config, p: Params, steps: seq<Step>, i: int)
    requires ValidSetup(c, p) && c.Honest(i)
    ensures |Run(c, p, steps).nodes| == c.n
    ensures SamePreBlocks(Run(c, p, steps).nodes[i], HandleAll(p, i, HandledBy(c, p, steps, i)))
  {
    if steps != [] {
      var before, step := steps[..|steps| - 1], steps[|steps| - 1];
      RunHandles(c, p, before, i);
      var ms := HandledBy(c, p, before, i);
      if step.Deliver? && step.i == i && Enabled(c, p, Run(c, p, before), step) {
        var all := HandledBy(c, p, steps, i);
        assert all == ms + [step.m] && all[..|all| - 1] == ms;
        MessagePreBlocks(p, i, Run(c, p, before).nodes[i], HandleAll(p, i, ms), step.m, step.picked);
      } else {
        assert HandledBy(c, p, steps, i) == ms;
      }
    }
  }

  /** In every run a node has crashed if and only if it has handled a block message of a node
      outside 0..n-ta-1. */
  lemma CrashesExactly(c: Config, p: Params, steps: seq<Step>, i: int)
    requires ValidSetup(c, p) && c.Honest(i)
    ensures |Run(c, p, steps).nodes| == c.n
    ensures Run(c, p, steps).nodes[i].crashed <==> SomeOut(p, HandledBy(c, p, steps, i))
  {
    RunHandles(c, p, steps, i);
    Handled(p, i, false, HandledBy(c, p, steps, i));
  }

  /** In every run a node that is up has its small pre-block ready if and only if it has handled a
      message for it of each of the nodes 0..n-ta-1, and likewise the large one. */
  lemma UpReadyExactly(c: Config, p: Params, steps: seq<Step>, i: int, large: bool)
    requires ValidSetup(c, p) && c.Honest(i)
    ensures |Run(c, p, steps).nodes| == c.n
    ensures var nd := Run(c, p, steps).nodes[i];
      !nd.crashed ==> (IsReady(nd, large) <==> p.ta < p.n && AllHeard(p, i, large, HandledBy(c, p, steps, i)))
  {
    RunHandles(c, p, steps, i);
    Handled(p, i, large, HandledBy(c, p, steps, i));
  }

  /** Nobody sends a block message in j's name. */
  ghost predicate SilentNode(steps: seq<Step>, j: int) {
    forall k :: 0 <= k < |steps| && (steps[k].Propose? || steps[k].Forge?) ==>
      !(steps[k].m.BlockMsg? && steps[k].m.sender == j)
  }

  lemma NoBlocksSent(p: Params, i: int, nd: Node, m: Msg, picked: set<int>)
    ensures forall x :: x in OnMessage(p, i, nd, m, picked).sent ==> !x.BlockMsg?
  {
  }

  lemma {:induction false} SilentNet(c: Config, p: Params, steps: seq<Step>, j: int)
    requires ValidSetup(c, p) && SilentNode(steps, j)
    ensures forall m :: m in Run(c, p, steps).net ==> !(m.BlockMsg? && m.sender == j)
  {
    if steps != [] {
      var before, step := steps[..|steps| - 1], steps[|steps| - 1];
      SilentNet(c, p, before, j);
      if step.Deliver? && Enabled(c, p, Run(c, p, before), step) {
        NoBlocksSent(p, step.i, Run(c, p, before).nodes[step.i], step.m, step.picked);
      }
    }
  }

  lemma {:induction false} SilentHandled(c: Config, p: Params, steps: seq<Step>, i: int, j: int)
    requires ValidSetup(c, p) && SilentNode(steps, j)
    ensures forall m :: m in HandledBy(c, p, steps, i) ==> !(m.BlockMsg? && m.sender == j)
  {
    if steps != [] {
      SilentHandled(c, p, steps[..|steps| - 1], i, j);
      SilentNet(c, p, steps[..|steps| - 1], j);
    }
  }

  /** One silent node among the first n-ta keeps everybody from ever being ready, although the
      program means n-ta messages of any nodes to do. */
  lemma OneSilentBlocks(c: Config, p: Params, steps: seq<Step>, i: int, j: int)
    requires ValidSetup(c, p) && c.Honest(i) && 0 <= j < p.n - p.ta && SilentNode(steps, j)
    ensures |Run(c, p, steps).nodes| == c.n
    ensures !Run(c, p, steps).nodes[i].readySmall && !Run(c, p, steps).nodes[i].readyLarge
  {
    RunHandles(c, p, steps, i);
    SilentHandled(c, p, steps, i, j);
    var ms := HandledBy(c, p, steps, i);
    forall large: bool ensures !IsReady(HandleAll(p, i, ms), large) {
      ReadyExactly(p, i, large, ms);
      forall k | 0 <= k <= |ms| ensures !Heard(p, i, large, ms[..k], j) {
      }
    }
    assert !IsReady(HandleAll(p, i, ms), true) && !IsReady(HandleAll(p, i, ms), false);
  }

  /** The step in which a message is sent by its sender, honest or not. */
  ghost function Send(c: Config, m: Msg): Step {
    if c.Honest(m.sender) then Propose(m) else Forge(m)
  }

  /** The message of any of the last ta nodes, honest or not, is fatal for whoever handles it, first
      of all. */
  lemma LastNodeCrashes(c: Config, p: Params, i: int, m: Msg) returns (steps: seq<Step>)
    requires ValidSetup(c, p) && c.Honest(i) && m.BlockMsg? && 0 <= m.sender && p.n - p.ta <= m.sender < p.n
    ensures steps == [Send(c, m), Deliver(i, m, {})]
    ensures |Run(c, p, steps).nodes| == c.n && Run(c, p, steps).nodes[i].crashed
  {
    steps := [Send(c, m), Deliver(i, m, {})];
    assert steps[..|steps| - 1] == [Send(c, m)];
    assert [Send(c, m)][..0] == [];
    assert Run(c, p, [Send(c, m)]).net == {m};
    RunHandles(c, p, [Send(c, m)], i);
    assert HandledBy(c, p, [Send(c, m)], i) == [];
    CrashesExactly(c, p, steps, i);
    assert m in HandledBy(c, p, steps, i);
  }

  /** A block message of node j. */
  function Herald(large: bool, j: nat): Msg {
    BlockMsg(j, large, [], SigShare(j + 1, OfBytes([])))
  }

  /** Node i has handled the block messages of the first k nodes, and is up; nothing else is around. */
  ghost predicate HeardFirst(c: Config, p: Params, steps: seq<Step>, i: int, large: bool, k: nat) {
    var s := Run(c, p, steps);
    && |s.nodes| == c.n && c.Honest(i) && !s.nodes[i].crashed
    && (forall m :: m in s.net && m.BlockMsg? && m.large ==> m.sender >= 0 && m == Herald(true, m.sender))
    && forall j :: 0 <= j < k ==> Heard(p, i, large, HandledBy(c, p, steps, i), j)
  }

  lemma HandsOver(c: Config, p: Params, before: seq<Step>, i: int, large: bool, k: nat) returns (steps: seq<Step>)
    requires ValidSetup(c, p) && k < Slots(p) && HeardFirst(c, p, before, i, large, k)
    ensures |Run(c, p, steps).nodes| == c.n && !Run(c, p, steps).nodes[i].crashed
    ensures HandledBy(c, p, steps, i) == HandledBy(c, p, before, i) + [Herald(large, k)]
    ensures forall m :: m in Run(c, p, steps).net && m.BlockMsg? && m.large ==>
              m.sender >= 0 && m == Herald(true, m.sender)
  {
    var m := Herald(large, k);
    var asked := before + [Send(c, m)];
    RunMore(c, p, before, Send(c, m));
    assert asked[..|asked| - 1] == before;
    assert HandledBy(c, p, asked, i) == HandledBy(c, p, before, i);
    steps := asked + [Deliver(i, m, {})];
    assert steps[..|steps| - 1] == asked;
    RunMore(c, p, asked, Deliver(i, m, {}));
    NoBlocksSent(p, i, Run(c, p, asked).nodes[i], m, {});
    CrashesExactly(c, p, before, i);
    CrashesExactly(c, p, steps, i);
  }

  lemma HeardOneMore(c: Config, p: Params, before: seq<Step>, i: int, large: bool, k: nat) returns (steps: seq<Step>)
    requires ValidSetup(c, p) && k < Slots(p) && HeardFirst(c, p, before, i, large, k) && (large ==> i in p.committee)
    ensures HeardFirst(c, p, steps, i, large, k + 1)
  {
    steps := HandsOver(c, p, before, i, large, k);
    var ms := HandledBy(c, p, before, i);
    var m := Herald(large, k);
    forall j | 0 <= j < k + 1 ensures Heard(p, i, large, ms + [m], j) {
      HeardMore(p, i, large, ms + [m], j);
      assert (ms + [m])[..|ms|] == ms;
    }
  }

  lemma {:induction false} HearsFirst(c: Config, p: Params, i: int, large: bool, k: nat) returns (steps: seq<Step>)
    requires ValidSetup(c, p) && c.Honest(i) && (large ==> i in p.committee) && k <= Slots(p)
    ensures HeardFirst(c, p, steps, i, large, k)
  {
    if k == 0 {
      steps := [];
    } else {
      steps := HearsFirst(c, p, i, large, k - 1);
      steps := HeardOneMore(c, p, steps, i, large, k - 1);
    }
  }

  /** The first n-ta nodes are enough: some run makes the small pre-block of any honest node ready,
      and the large one of any honest member. */
  lemma FirstNodesSuffice(c: Config, p: Params, i: int, large: bool) returns (steps: seq<Step>)
    requires ValidSetup(c, p) && c.Honest(i) && (large ==> i in p.committee) && p.ta < p.n
    ensures |Run(c, p, steps).nodes| == c.n && IsReady(Run(c, p, steps).nodes[i], large)
  {
    steps := HearsFirst(c, p, i, large, Slots(p));
    UpReadyExactly(c, p, steps, i, large);
  }
}
