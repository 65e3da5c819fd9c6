/** What an honest sender is promised, exactly: nothing but its value is put out, everybody puts out one
    and the same value, and nobody waits in vain, in every run, if and only if no node is faulty. */
module BroadcastSender {
  import opened Quorums
  import opened Blocks
  import opened Tables
  import opened Broadcast
  import opened BroadcastSafety
  import opened BroadcastProgress
  import opened BroadcastFeed
  import opened BroadcastOverride

  /** The sender follows the program and has a value. */
  ghost predicate HonestSender(c: Config, p: Params, inputs: seq<Option<BlockShare>>, a: BlockShare) {
    ValidSetup(c, p) && |inputs| == c.n && c.Honest(p.senderId) && inputs[p.senderId] == Some(a)
  }

  // ---- Without faults only the sender's value is around

  ghost predicate PureMsg(m: Msg, a: BlockShare) {
    match m
    case BMsg(_, kind, v) => kind == VAL ==> v == ShareHash(a)
    case CMsg(_, share, _, _) => share == a
    case SMsg(_, share) => share == a
  }

  ghost predicate PureNode(nd: Node, a: BlockShare) {
    (nd.senderValue.Some? ==> nd.senderValue.value == a) && (nd.output.Some? ==> nd.output.value == a)
  }

  ghost predicate Pure(c: Config, p: Params, inputs: seq<Option<BlockShare>>, s: State, a: BlockShare) {
    && |s.nodes| == |inputs| == c.n
    && (forall i :: 0 <= i < c.n ==> PureNode(s.nodes[i], a) && s.nodes[i].value == inputs[i])
    && (forall m :: m in s.net ==> PureMsg(m, a))
  }

  ghost predicate PureOutcome(o: Outcome, a: BlockShare) {
    PureNode(o.node, a) && forall x :: x in o.sent ==> PureMsg(x, a)
  }

  lemma EchoPure(p: Params, id: int, nd: Node, m: Msg, a: BlockShare)
    requires PureNode(nd, a) && m.BMsg?
    ensures PureOutcome(OnEcho(p, id, nd, m), a)
  {
  }

  lemma ReadyPure(p: Params, id: int, nd: Node, m: Msg, a: BlockShare)
    requires PureNode(nd, a) && m.BMsg?
    ensures PureOutcome(OnReady(p, id, nd, m), a)
  {
  }

  lemma BrachaPure(p: Params, id: int, nd: Node, m: Msg, a: BlockShare)
    requires PureNode(nd, a) && m.BMsg?
    ensures PureOutcome(OnBracha(p, id, nd, m), a)
  {
    EchoPure(p, id, nd, m, a);
    ReadyPure(p, id, nd, m, a);
    assert PureOutcome(OnVal(id, nd, m), a);
  }

  lemma CommitteePure(p: Params, id: int, nd: Node, m: Msg, a: BlockShare)
    requires PureNode(nd, a) && m.CMsg? && m.share == a
    ensures PureOutcome(OnCommittee(p, id, nd, m), a)
  {
  }

  lemma HandlePure(p: Params, id: int, nd: Node, m: Msg, a: BlockShare)
    requires PureNode(nd, a) && PureMsg(m, a)
    ensures PureOutcome(Handle(p, id, nd, m), a)
  {
    match m
    case BMsg(_, _, _) => BrachaPure(p, id, nd, m, a);
    case CMsg(_, _, _, _) => CommitteePure(p, id, nd, m, a);
    case SMsg(_, _) =>
  }

  lemma TurnPure(p: Params, id: int, nd: Node, m: Msg, a: BlockShare)
    requires PureNode(nd, a) && PureMsg(m, a)
    ensures var o := OnMessage(p, id, nd, m);
      PureNode(o.node, a) && forall x :: x in o.sent ==> PureMsg(x, a)
  {
    HandlePure(p, id, nd, m, a);
  }

  lemma StepPure(c: Config, p: Params, inputs: seq<Option<BlockShare>>, s: State, step: Step, a: BlockShare)
    requires HonestSender(c, p, inputs, a) && c.faulty == {} && Pure(c, p, inputs, s, a)
    ensures Pure(c, p, inputs, Do(c, p, s, step), a)
  {
    if Enabled(c, s, step) {
      match step
      case Launch(i) =>
      case Deliver(i, m) =>
        TurnPure(p, i, s.nodes[i], m, a);
        Stays(p, i, s.nodes[i], m);
      case Forge(m) =>
    }
  }

  lemma {:induction false} RunPure(c: Config, p: Params, inputs: seq<Option<BlockShare>>, steps: seq<Step>,
                                   a: BlockShare)
    requires HonestSender(c, p, inputs, a) && c.faulty == {}
    ensures Pure(c, p, inputs, Run(c, p, inputs, steps), a)
  {
    if steps != [] {
      RunPure(c, p, inputs, steps[..|steps| - 1], a);
      StepPure(c, p, inputs, Run(c, p, inputs, steps[..|steps| - 1]), steps[|steps| - 1], a);
    }
  }

  // ---- Validity

  /** Whatever honest nodes have put out has the hash of a. */
  ghost predicate OutputsHave(c: Config, s: State, a: BlockShare) {
    && |s.nodes| == c.n
    && forall i :: c.Honest(i) && s.nodes[i].output.Some? ==> ShareHash(s.nodes[i].output.value) == ShareHash(a)
  }

  /** Another value with another hash. */
  function Another(a: BlockShare): BlockShare {
    BlockShare(a.block, BlockPointer(a.pointer.blockHash, Forged(if a.pointer.sig == Forged(0) then 1 else 0)))
  }

  lemma AnotherDiffers(a: BlockShare)
    ensures ShareHash(Another(a)) != ShareHash(a)
  {
  }

  lemma PlanFor(c: Config, p: Params, inputs: seq<Option<BlockShare>>, a: BlockShare, b: BlockShare, b': BlockShare)
    returns (plan: Plan)
    requires HonestSender(c, p, inputs, a) && c.faulty != {} && ShareHash(b') == ShareHash(b)
    ensures ValidPlan(c, p, inputs, plan) && plan.a == a && plan.b == b && plan.b' == b'
  {
    var f :| f in c.faulty;
    plan := Plan(a, b, b', f);
  }

  /** With an honest sender, every run puts out nothing but the hash of its value, if and only if no
      node is faulty. */
  lemma ValidityExactly(c: Config, p: Params, inputs: seq<Option<BlockShare>>, a: BlockShare)
    requires HonestSender(c, p, inputs, a) && |p.committee| >= p.tk + 1
    ensures (forall steps :: OutputsHave(c, Run(c, p, inputs, steps), a)) <==> c.faulty == {}
  {
    if c.faulty == {} {
      forall steps ensures OutputsHave(c, Run(c, p, inputs, steps), a) {
        RunPure(c, p, inputs, steps, a);
      }
    } else {
      var plan := PlanFor(c, p, inputs, a, Another(a), Another(a));
      var steps := SenderOverridden(c, p, inputs, plan, p.senderId);
      AnotherDiffers(a);
      assert c.Honest(p.senderId);
      assert !OutputsHave(c, Run(c, p, inputs, steps), a);
    }
  }

  // ---- Agreement on the value itself

  ghost predicate OneOutput(c: Config, s: State) {
    && |s.nodes| == c.n
    && forall i, j :: c.Honest(i) && c.Honest(j) && s.nodes[i].output.Some? && s.nodes[j].output.Some? ==>
         s.nodes[i].output == s.nodes[j].output
  }

  /** The same value under another size label; the hash does not see it. */
  function Relabelled(a: BlockShare): BlockShare {
    BlockShare(PreBlock(a.block.vec, a.block.size + "x"), a.pointer)
  }

  lemma RelabelledSame(a: BlockShare)
    ensures ShareHash(Relabelled(a)) == ShareHash(a) && Relabelled(a) != a
  {
    assert |Relabelled(a).block.size| == |a.block.size| + 1;
  }

  lemma OtherHonest(c: Config, i: int) returns (j: int)
    requires c.Valid() && c.faulty != {}
    ensures c.Honest(j) && j != i
  {
    HonestCount(c);
    SubsetSize({}, c.faulty);
    assert |c.faulty| > 0;
    assert c.HonestIds() <= {i} + (c.HonestIds() - {i});
    SubsetSize(c.HonestIds(), {i} + (c.HonestIds() - {i}));
    UnionSize({i}, c.HonestIds() - {i});
    Inhabited(c.HonestIds() - {i});
    j :| j in c.HonestIds() - {i};
  }

  /** With an honest sender, all values put out are the same, size label and empty slots included, in
      every run if and only if no node is faulty. */
  lemma OneValueExactly(c: Config, p: Params, inputs: seq<Option<BlockShare>>, a: BlockShare)
    requires HonestSender(c, p, inputs, a) && |p.committee| >= p.tk + 1
    ensures (forall steps :: OneOutput(c, Run(c, p, inputs, steps))) <==> c.faulty == {}
  {
    if c.faulty == {} {
      forall steps ensures OneOutput(c, Run(c, p, inputs, steps)) {
        RunPure(c, p, inputs, steps, a);
      }
    } else {
      RelabelledSame(a);
      var plan := PlanFor(c, p, inputs, a, a, Relabelled(a));
      var steps := SenderOverridden(c, p, inputs, plan, p.senderId);
      var j := OtherHonest(c, p.senderId);
      var s := Run(c, p, inputs, steps);
      assert s.nodes[p.senderId].output != s.nodes[j].output;
      assert !OneOutput(c, s);
    }
  }

  /** What is left in general: outputs that are full and have one size label are the same value,
      whoever the sender is. */
  lemma FullOutputsAgree(c: Config, p: Params, inputs: seq<Option<BlockShare>>, steps: seq<Step>, i: int, j: int)
    requires ValidSetup(c, p) && |inputs| == c.n && c.Honest(i) && c.Honest(j)
    ensures var s := Run(c, p, inputs, steps);
      && |s.nodes| == c.n
      && (s.nodes[i].output.Some? && s.nodes[j].output.Some? ==>
            var v, w := s.nodes[i].output.value, s.nodes[j].output.value;
            v.pointer == w.pointer
            && (Full(v.block) && Full(w.block) && v.block.size == w.block.size ==> v == w))
  {
    Agreement(c, p, inputs, steps);
    var s := Run(c, p, inputs, steps);
    if s.nodes[i].output.Some? && s.nodes[j].output.Some? {
      HashInjective(s.nodes[i].output.value, s.nodes[j].output.value);
    }
  }

  // ---- Progress: every honest node gets a VAL of its own

  function SplitVal(f: int): int -> Msg {
    (i: int) => BMsg(f, VAL, Raw(i))
  }

  function SplitEcho(): int -> Msg {
    (i: int) => BMsg(i, ECHO, Raw(i))
  }

  function SplitReceipts(c: Config, k: nat): set<Receipt> {
    set i | i in HonestBelow(c, k) :: Receipt(OfDigest(Raw(i)), i)
  }

  /** The node has its own VAL, the sender's value, and the ECHOs of the honest nodes below k. */
  function Split(c: Config, value: Option<BlockShare>, a: BlockShare, k: nat): Node {
    Begun(value).(initialVal := true, senderSent := true, senderValue := Some(a),
                  echoReceived := SplitReceipts(c, k))
  }

  function OwnList(p: Params, a: BlockShare, f: int, j: int): seq<Msg> {
    [BMsg(f, VAL, Raw(j)), SMsg(p.senderId, a), BMsg(p.senderId, VAL, ShareHash(a))]
  }

  /** What it has become and sent after the three messages. */
  function SplitStart(c: Config, value: Option<BlockShare>, a: BlockShare, id: int): Outcome {
    Outcome(Split(c, value, a, 0), [SplitEcho()(id)])
  }

  lemma SplitVals(c: Config, p: Params, id: int, value: Option<BlockShare>, a: BlockShare, v: Msg)
    requires v.BMsg? && v.kind == VAL
    ensures OnMessage(p, id, Begun(value), v) ==
            Outcome(Begun(value).(initialVal := true), [BMsg(id, ECHO, v.value)])
    ensures OnMessage(p, id, Split(c, value, a, 0), v) == Outcome(Split(c, value, a, 0), [])
  {
  }

  lemma SplitValue(c: Config, p: Params, id: int, value: Option<BlockShare>, a: BlockShare)
    ensures OnMessage(p, id, Begun(value).(initialVal := true), SMsg(p.senderId, a)) ==
            Outcome(Split(c, value, a, 0), [])
  {
    assert SplitReceipts(c, 0) == {};
  }

  lemma SplitBegins(c: Config, p: Params, id: int, value: Option<BlockShare>, a: BlockShare, f: int)
    ensures Fed(p, id, Begun(value), OwnList(p, a, f, id)) == SplitStart(c, value, a, id)
  {
    FedThree(p, id, Begun(value), BMsg(f, VAL, Raw(id)), SMsg(p.senderId, a), BMsg(p.senderId, VAL, ShareHash(a)));
    SplitVals(c, p, id, value, a, BMsg(f, VAL, Raw(id)));
    SplitValue(c, p, id, value, a);
    SplitVals(c, p, id, value, a, BMsg(p.senderId, VAL, ShareHash(a)));
  }

  lemma SplitSenders(c: Config, k: nat)
    requires c.Honest(k)
    ensures SplitReceipts(c, k) + {Receipt(OfDigest(Raw(k)), k)} == SplitReceipts(c, k + 1)
    ensures |Senders(SplitReceipts(c, k + 1), OfDigest(Raw(k)))| <= 1
  {
    HonestNext(c, k);
    SubsetSize(Senders(SplitReceipts(c, k + 1), OfDigest(Raw(k))), {k});
  }

  /** One ECHO for each value is not enough for any. */
  lemma SplitOne(c: Config, p: Params, id: int, value: Option<BlockShare>, a: BlockShare, k: nat)
    requires p.n - p.t > 1 && c.Honest(k)
    ensures OnMessage(p, id, Split(c, value, a, k), BMsg(k, ECHO, Raw(k))) == Outcome(Split(c, value, a, k + 1), [])
  {
    SplitSenders(c, k);
  }

  lemma SplitNext(c: Config, p: Params, id: int, value: Option<BlockShare>, a: BlockShare, o: Outcome, k: nat)
    requires p.n - p.t > 1 && o == Outcome(Split(c, value, a, k), [])
    ensures (if c.Honest(k) then ThenOne(p, id, o, SplitEcho()(k)) else o) == Outcome(Split(c, value, a, k + 1), [])
  {
    if c.Honest(k) {
      SplitOne(c, p, id, value, a, k);
    } else {
      assert HonestBelow(c, k + 1) == HonestBelow(c, k);
    }
  }

  lemma SplitFed(c: Config, p: Params, id: int, value: Option<BlockShare>, a: BlockShare, k: nat)
    requires p.n - p.t > 1
    ensures Fed(p, id, Split(c, value, a, 0), OfHonest(c, SplitEcho(), k)) == Outcome(Split(c, value, a, k), [])
  {
    var good := (i: nat, o: Outcome) => o == Outcome(Split(c, value, a, i), []);
    forall i: nat ensures HonestStep(c, p, id, SplitEcho(), good, i) {
      forall o | good(i, o) ensures good(i + 1, if c.Honest(i) then ThenOne(p, id, o, SplitEcho()(i)) else o) {
        SplitNext(c, p, id, value, a, o, i);
      }
    }
    HonestInduction(c, p, id, Split(c, value, a, 0), SplitEcho(), good, k);
  }

  // ---- The run in which everybody waits

  /** The sender's two messages and the VALs of node f. */
  ghost predicate SplitNet(c: Config, p: Params, a: BlockShare, f: int, net: set<Msg>) {
    && SenderMsgs(p, a) <= net && (forall i :: c.Honest(i) ==> SplitVal(f)(i) in net)
    && forall m :: m in net && c.Honest(m.sender) ==>
         m in SenderMsgs(p, a) || (exists i :: c.Honest(i) && m == SplitEcho()(i))
  }

  lemma SplitStarts(c: Config, p: Params, inputs: seq<Option<BlockShare>>, a: BlockShare, f: int)
    returns (steps: seq<Step>)
    requires HonestSender(c, p, inputs, a) && f in c.faulty
    ensures var s := Run(c, p, inputs, steps);
      && SplitNet(c, p, a, f, s.net) && |s.nodes| == c.n
      && forall j :: c.Honest(j) ==> s.nodes[j] == Begun(inputs[j])
  {
    var before := LaunchAll(c, p, inputs, a, c.n);
    var vals := OfHonest(c, SplitVal(f), c.n);
    HonestAre(c, SplitVal(f), c.n);
    steps := ForgeAll(c, p, inputs, before, vals);
    SplitForged(c, p, a, f, vals);
  }

  lemma SplitForged(c: Config, p: Params, a: BlockShare, f: int, vals: seq<Msg>)
    requires f in c.faulty && forall m :: m in vals <==> exists i :: 0 <= i < c.n && c.Honest(i) && m == SplitVal(f)(i)
    ensures SplitNet(c, p, a, f, SenderMsgs(p, a) + Members(vals))
  {
    forall i | c.Honest(i) ensures SplitVal(f)(i) in Members(vals) {
      assert SplitVal(f)(i) in vals;
    }
  }

  ghost predicate SplitEchoed(c: Config, p: Params, inputs: seq<Option<BlockShare>>, a: BlockShare, f: int, s: State,
                              k: nat) {
    && SplitNet(c, p, a, f, s.net) && |s.nodes| == |inputs| == c.n
    && forall j :: c.Honest(j) ==> s.nodes[j] == Split(c, inputs[j], a, k) && SplitEcho()(j) in s.net
  }

  lemma OwnListsAround(c: Config, p: Params, a: BlockShare, f: int, net: set<Msg>)
    requires SplitNet(c, p, a, f, net)
    ensures forall j :: c.Honest(j) ==> forall m :: m in OwnList(p, a, f, j) ==> m in net
  {
    forall j, m | c.Honest(j) && m in OwnList(p, a, f, j) ensures m in net {
      assert SplitVal(f)(j) in net;
    }
  }

  lemma SplitGrows(c: Config, p: Params, a: BlockShare, f: int, net: set<Msg>, net1: set<Msg>, outs: seq<Outcome>)
    requires SplitNet(c, p, a, f, net) && net <= net1 && |outs| == c.n
    requires forall j :: c.Honest(j) ==> outs[j].sent == [SplitEcho()(j)]
    requires forall m :: m in net1 && m !in net ==> exists j :: c.Honest(j) && m in outs[j].sent
    ensures SplitNet(c, p, a, f, net1)
  {
    forall m | m in net1 && c.Honest(m.sender)
      ensures m in SenderMsgs(p, a) || exists i :: c.Honest(i) && m == SplitEcho()(i)
    {
      if m !in net {
        var j :| c.Honest(j) && m in outs[j].sent;
        assert m == SplitEcho()(j);
      }
    }
  }

  lemma SplitEchoes(c: Config, p: Params, inputs: seq<Option<BlockShare>>, a: BlockShare, f: int)
    returns (steps: seq<Step>)
    requires HonestSender(c, p, inputs, a) && f in c.faulty
    ensures SplitEchoed(c, p, inputs, a, f, Run(c, p, inputs, steps), 0)
  {
    var before := SplitStarts(c, p, inputs, a, f);
    OwnListsAround(c, p, a, f, Run(c, p, inputs, before).net);
    OwnListsFed(c, p, inputs, a, f);
    steps := SplitFeed(c, p, inputs, a, f, before, (j: int) => OwnList(p, a, f, j));
  }

  ghost predicate FeedsSplit(c: Config, p: Params, inputs: seq<Option<BlockShare>>, a: BlockShare,
                             lists: int -> seq<Msg>)
    requires |inputs| == c.n
  {
    forall j :: c.Honest(j) ==> Fed(p, j, Begun(inputs[j]), lists(j)) == SplitStart(c, inputs[j], a, j)
  }

  lemma OwnListsFed(c: Config, p: Params, inputs: seq<Option<BlockShare>>, a: BlockShare, f: int)
    requires |inputs| == c.n
    ensures FeedsSplit(c, p, inputs, a, (j: int) => OwnList(p, a, f, j))
  {
    forall j | c.Honest(j) ensures Fed(p, j, Begun(inputs[j]), OwnList(p, a, f, j)) == SplitStart(c, inputs[j], a, j) {
      SplitBegins(c, p, j, inputs[j], a, f);
    }
  }

  lemma SplitFeed(c: Config, p: Params, inputs: seq<Option<BlockShare>>, a: BlockShare, f: int, before: seq<Step>,
                  lists: int -> seq<Msg>)
    returns (steps: seq<Step>)
    requires |inputs| == c.n && FeedsSplit(c, p, inputs, a, lists)
    requires var s := Run(c, p, inputs, before);
      && SplitNet(c, p, a, f, s.net) && MayFeed(c, s, lists)
      && forall j :: c.Honest(j) ==> s.nodes[j] == Begun(inputs[j])
    ensures SplitEchoed(c, p, inputs, a, f, Run(c, p, inputs, steps), 0)
  {
    var good := (j: int, o: Outcome) => c.Honest(j) ==> o == SplitStart(c, inputs[j], a, j);
    var outs;
    steps, outs := FeedGood(c, p, inputs, before, lists, good);
    SplitGrows(c, p, a, f, Run(c, p, inputs, before).net, Run(c, p, inputs, steps).net, outs);
    SplitNow(c, p, inputs, a, f, Run(c, p, inputs, steps), outs);
  }

  lemma SplitNow(c: Config, p: Params, inputs: seq<Option<BlockShare>>, a: BlockShare, f: int, s: State,
                 outs: seq<Outcome>)
    requires SplitNet(c, p, a, f, s.net) && |s.nodes| == |inputs| == |outs| == c.n
    requires forall j :: c.Honest(j) ==> s.nodes[j] == outs[j].node && outs[j] == SplitStart(c, inputs[j], a, j)
    requires forall j :: c.Honest(j) ==> forall m :: m in outs[j].sent ==> m in s.net
    ensures SplitEchoed(c, p, inputs, a, f, s, 0)
  {
    forall j | c.Honest(j) ensures SplitEcho()(j) in s.net {
      assert SplitEcho()(j) in outs[j].sent;
    }
  }

  lemma SplitAll(c: Config, p: Params, inputs: seq<Option<BlockShare>>, a: BlockShare, f: int)
    returns (steps: seq<Step>)
    requires HonestSender(c, p, inputs, a) && f in c.faulty && p.n - p.t > 1
    ensures SplitEchoed(c, p, inputs, a, f, Run(c, p, inputs, steps), c.n)
  {
    var before := SplitEchoes(c, p, inputs, a, f);
    var s := Run(c, p, inputs, before);
    var list := OfHonest(c, SplitEcho(), c.n);
    var lists := (j: int) => list;
    HonestAre(c, SplitEcho(), c.n);
    var good := (j: int, o: Outcome) => c.Honest(j) ==> o == Outcome(Split(c, inputs[j], a, c.n), []);
    forall j | c.Honest(j) ensures good(j, Fed(p, j, s.nodes[j], lists(j))) {
      SplitFed(c, p, j, inputs[j], a, c.n);
    }
    var outs;
    steps, outs := FeedGood(c, p, inputs, before, lists, good);
  }

  lemma SplitHandled(c: Config, p: Params, value: Option<BlockShare>, a: BlockShare, m: Msg)
    requires m in SenderMsgs(p, a) || (exists i :: c.Honest(i) && m == SplitEcho()(i))
    ensures Handled(p, Split(c, value, a, c.n), m)
  {
    if m !in SenderMsgs(p, a) {
      var i :| c.Honest(i) && m == SplitEcho()(i);
      assert i in HonestBelow(c, c.n);
      assert Receipt(OfDigest(Raw(i)), i) in SplitReceipts(c, c.n);
    }
  }

  /** A faulty node shows every honest node another VAL before the sender's comes: everything honest
      has been handled, and no honest node is ready. */
  lemma AllWait(c: Config, p: Params, inputs: seq<Option<BlockShare>>, a: BlockShare, f: int) returns (steps: seq<Step>)
    requires HonestSender(c, p, inputs, a) && f in c.faulty
    ensures var s := Run(c, p, inputs, steps);
      && |s.nodes| == c.n && Quiet(c, p, s) && forall i :: c.Honest(i) ==> !s.nodes[i].ready
  {
    SubsetSize({f}, c.faulty);
    steps := SplitAll(c, p, inputs, a, f);
    var s := Run(c, p, inputs, steps);
    forall i, m | c.Honest(i) && m in s.net && c.Honest(m.sender) ensures Handled(p, s.nodes[i], m) {
      SplitHandled(c, p, inputs[i], a, m);
    }
  }

  ghost predicate QuietAt(c: Config, p: Params, inputs: seq<Option<BlockShare>>, steps: seq<Step>) {
    |Run(c, p, inputs, steps).nodes| == c.n && Quiet(c, p, Run(c, p, inputs, steps))
  }

  /** With an honest sender and more than tk honest members, a run can come to rest with nothing left to
      handle and no honest node returned, if and only if some node is faulty. */
  lemma RestsExactly(c: Config, p: Params, inputs: seq<Option<BlockShare>>, a: BlockShare)
    requires HonestSender(c, p, inputs, a) && |p.committee - c.faulty| >= p.tk + 1
    ensures (exists steps :: QuietAt(c, p, inputs, steps)) <==> c.faulty != {}
  {
    if c.faulty == {} {
      forall steps ensures !QuietAt(c, p, inputs, steps) {
        PureIsOneValue(c, p, inputs, steps, a);
        NeverStuck(c, p, inputs, steps, a);
      }
    } else {
      var f :| f in c.faulty;
      var steps := AllWait(c, p, inputs, a, f);
      assert QuietAt(c, p, inputs, steps);
    }
  }

  lemma PureIsOneValue(c: Config, p: Params, inputs: seq<Option<BlockShare>>, steps: seq<Step>, a: BlockShare)
    requires HonestSender(c, p, inputs, a) && c.faulty == {}
    ensures |Run(c, p, inputs, steps).nodes| == c.n && OneValue(c, p, inputs, Run(c, p, inputs, steps), a)
  {
    RunPure(c, p, inputs, steps, a);
    var s := Run(c, p, inputs, steps);
    forall k, v | BMsg(k, VAL, v) in s.net ensures v == ShareHash(a) {
      assert PureMsg(BMsg(k, VAL, v), a);
    }
    forall k, x | SMsg(k, x) in s.net ensures x == a {
      assert PureMsg(SMsg(k, x), a);
    }
  }
}
