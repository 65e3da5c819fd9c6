/** A committee message that comes too early is not relayed. With a faulty sender, and unless one
    member's word is enough, the exit can hang for good: the sender gives its value to one member only,
    and all others hear that member's message before they are done. */
module BroadcastEarly {
  import opened Quorums
  import opened Blocks
  import opened Certificates
  import opened Tables
  import opened Broadcast
  import opened BroadcastSafety
  import opened BroadcastProgress
  import opened BroadcastFeed
  import opened BroadcastOverride
  import opened BroadcastExit

  ghost predicate FaultySender(c: Config, p: Params, inputs: seq<Option<BlockShare>>) {
    ValidSetup(c, p) && |inputs| == c.n && p.senderId in c.faulty
  }

  // ---- All start, and the sender shows its value

  /** The honest nodes below k run, and have nothing to say. */
  ghost predicate SilentTo(c: Config, inputs: seq<Option<BlockShare>>, s: State, k: nat) {
    && |s.nodes| == |inputs| == c.n && s.net == {}
    && forall j :: c.Honest(j) ==> s.nodes[j] == if j < k then Begun(inputs[j]) else InitNode(inputs[j])
  }

  lemma SilentOne(c: Config, p: Params, inputs: seq<Option<BlockShare>>, s: State, k: nat)
    requires p.senderId in c.faulty && SilentTo(c, inputs, s, k) && c.Honest(k)
    ensures SilentTo(c, inputs, Do(c, p, s, Launch(k)), k + 1)
  {
    assert s.net + Members(Begin(p, k, s.nodes[k]).sent) == {};
  }

  lemma {:induction false} SilentAll(c: Config, p: Params, inputs: seq<Option<BlockShare>>, k: nat)
    returns (steps: seq<Step>)
    requires p.senderId in c.faulty && |inputs| == c.n && k <= c.n
    ensures SilentTo(c, inputs, Run(c, p, inputs, steps), k)
  {
    if k == 0 {
      steps := [];
    } else {
      steps := SilentAll(c, p, inputs, k - 1);
      if c.Honest(k - 1) {
        SilentOne(c, p, inputs, Run(c, p, inputs, steps), k - 1);
        RunMore(c, p, inputs, steps, Launch(k - 1));
        steps := steps + [Launch(k - 1)];
      }
    }
  }

  /** The sender's two messages are around; no value comes from anybody else, and of the committee only
      these. */
  ghost predicate Only(p: Params, a: BlockShare, net: set<Msg>, committee: set<Msg>) {
    && SenderMsgs(p, a) <= net
    && (forall m :: m in net && m.SMsg? ==> m.sender == p.senderId)
    && (forall m :: m in net && m.CMsg? ==> m in committee)
  }

  lemma OnlyMore(p: Params, a: BlockShare, net: set<Msg>, net1: set<Msg>, committee: set<Msg>)
    requires Only(p, a, net, committee) && net <= net1
    requires forall m :: m in net1 && m !in net ==> m.BMsg? || m in committee
    requires forall m :: m in committee ==> m.CMsg?
    ensures Only(p, a, net1, committee)
  {
  }

  lemma Shown(c: Config, p: Params, inputs: seq<Option<BlockShare>>, a: BlockShare) returns (steps: seq<Step>)
    requires FaultySender(c, p, inputs)
    ensures var s := Run(c, p, inputs, steps);
      && |s.nodes| == c.n && Only(p, a, s.net, {})
      && forall j :: c.Honest(j) ==> s.nodes[j] == Begun(inputs[j])
  {
    var ms := [SMsg(p.senderId, a), BMsg(p.senderId, VAL, ShareHash(a))];
    steps := SilentAll(c, p, inputs, c.n);
    steps := ForgeAll(c, p, inputs, steps, ms);
    assert Members(ms) == SenderMsgs(p, a);
  }

  // ---- Everybody is ready

  ghost predicate AllEcho(c: Config, p: Params, inputs: seq<Option<BlockShare>>, a: BlockShare, s: State) {
    && |s.nodes| == |inputs| == c.n && Only(p, a, s.net, {})
    && forall j :: c.Honest(j) ==>
         s.nodes[j] == Echoing(c, p, inputs[j], ShareHash(a), 0) && BMsg(j, ECHO, ShareHash(a)) in s.net
  }

  lemma Echo(c: Config, p: Params, inputs: seq<Option<BlockShare>>, a: BlockShare) returns (steps: seq<Step>)
    requires FaultySender(c, p, inputs)
    ensures AllEcho(c, p, inputs, a, Run(c, p, inputs, steps))
  {
    var before := Shown(c, p, inputs, a);
    var s, hash := Run(c, p, inputs, before), ShareHash(a);
    var lists := (j: int) => [BMsg(p.senderId, VAL, hash)];
    var good := (j: int, o: Outcome) =>
      c.Honest(j) ==> o == Outcome(Echoing(c, p, inputs[j], hash, 0), [BMsg(j, ECHO, hash)]);
    forall j | c.Honest(j) ensures good(j, Fed(p, j, s.nodes[j], lists(j))) {
      FirstVal(c, p, j, inputs[j], p.senderId, hash);
    }
    var outs;
    steps, outs := FeedGood(c, p, inputs, before, lists, good);
    assert forall j :: c.Honest(j) ==> BMsg(j, ECHO, hash) in outs[j].sent;
    OnlyMore(p, a, s.net, Run(c, p, inputs, steps).net, {});
  }

  /** Everybody has got the sender's VAL and all honest ECHOs. */
  ghost predicate AllCount(c: Config, p: Params, a: BlockShare, s: State) {
    && |s.nodes| == c.n && Only(p, a, s.net, {})
    && forall j :: c.Honest(j) ==>
         Counting(c, p, s.nodes[j], ShareHash(a), {}, 0) && BMsg(j, READY, ShareHash(a)) in s.net
  }

  lemma Count(c: Config, p: Params, inputs: seq<Option<BlockShare>>, a: BlockShare) returns (steps: seq<Step>)
    requires FaultySender(c, p, inputs)
    ensures AllCount(c, p, a, Run(c, p, inputs, steps))
  {
    var before := Echo(c, p, inputs, a);
    var s, hash := Run(c, p, inputs, before), ShareHash(a);
    var list := OfHonest(c, EchoOf(hash), c.n);
    var lists := (j: int) => list;
    HonestAre(c, EchoOf(hash), c.n);
    var good := (j: int, o: Outcome) => Counting(c, p, o.node, hash, {}, 0) && o.sent == [BMsg(j, READY, hash)];
    forall j | c.Honest(j) ensures good(j, Fed(p, j, s.nodes[j], lists(j))) {
      EchoesMake(c, p, j, inputs[j], hash);
    }
    var outs;
    steps, outs := FeedGood(c, p, inputs, before, lists, good);
    assert forall j :: c.Honest(j) ==> BMsg(j, READY, hash) in outs[j].sent;
    OnlyMore(p, a, s.net, Run(c, p, inputs, steps).net, {});
  }

  // ---- Member x is done first, and vouches

  function Word(x: int, a: BlockShare): Msg {
    CMsg(x, a, ShareHash(a), OwnProof(x))
  }

  /** The node is done, has the value a if it is x, and has noted this. */
  ghost predicate DoneWith(nd: Node, a: BlockShare, own: bool, noted: set<Receipt>) {
    && nd.started && nd.broadcastDone && nd.broadcastValue == ShareHash(a) && nd.output.None?
    && nd.committeeReceived == noted && nd.senderSent == own && (own ==> nd.senderValue == Some(a))
  }

  lemma FullCount(c: Config, p: Params, nd: Node, a: BlockShare, noted: set<Receipt>)
    requires c.Valid() && p.n == c.n && p.t == c.t && Counting(c, p, nd, ShareHash(a), noted, c.n)
    ensures DoneWith(nd, a, false, noted)
  {
    HonestNext(c, 0);
    HonestCount(c);
  }

  lemma ValueTurn(p: Params, x: int, nd: Node, a: BlockShare)
    requires x in p.committee && DoneWith(nd, a, false, {})
    ensures var o := OnMessage(p, x, nd, SMsg(p.senderId, a)); DoneWith(o.node, a, true, {}) && o.sent == [Word(x, a)]
  {
    var o := OnMessage(p, x, nd, SMsg(p.senderId, a));
    assert LoopTop(p, x, o.node) == [Word(x, a)];
  }

  lemma FirstDone(c: Config, p: Params, x: int, nd: Node, a: BlockShare)
    requires c.Valid() && p.n == c.n && p.t == c.t && x in p.committee && Counting(c, p, nd, ShareHash(a), {}, 0)
    ensures var o := Fed(p, x, nd, OfHonest(c, ReadyOf(ShareHash(a)), c.n) + [SMsg(p.senderId, a)]);
      DoneWith(o.node, a, true, {}) && o.sent == [Word(x, a)]
  {
    var list := OfHonest(c, ReadyOf(ShareHash(a)), c.n);
    ReadysFed(c, p, x, nd, ShareHash(a), {}, c.n);
    FullCount(c, p, Fed(p, x, nd, list).node, a, {});
    FedOne(p, x, nd, list, SMsg(p.senderId, a));
    ValueTurn(p, x, Fed(p, x, nd, list).node, a);
  }

  /** x is done and has vouched, the others are as they were. */
  ghost predicate OneDone(c: Config, p: Params, a: BlockShare, x: int, s: State, noted: set<Receipt>) {
    && |s.nodes| == c.n && Only(p, a, s.net, {Word(x, a)}) && Word(x, a) in s.net
    && (forall j :: c.Honest(j) ==> BMsg(j, READY, ShareHash(a)) in s.net)
    && forall j :: c.Honest(j) ==>
         if j == x then DoneWith(s.nodes[j], a, true, noted)
         else Counting(c, p, s.nodes[j], ShareHash(a), noted, 0)
  }

  /** What x and the others make of their lists. */
  ghost predicate FirstPart(c: Config, p: Params, a: BlockShare, x: int, j: int, o: Outcome) {
    if j == x then DoneWith(o.node, a, true, {}) && o.sent == [Word(x, a)]
    else Counting(c, p, o.node, ShareHash(a), {}, 0) && o.sent == []
  }

  lemma FirstParts(c: Config, p: Params, a: BlockShare, x: int, s: State, s1: State, outs: seq<Outcome>)
    requires AllCount(c, p, a, s) && |s1.nodes| == |outs| == c.n && s.net <= s1.net && c.Honest(x)
    requires forall j :: c.Honest(j) ==> FirstPart(c, p, a, x, j, outs[j]) && s1.nodes[j] == outs[j].node
    requires forall j :: c.Honest(j) ==> forall m :: m in outs[j].sent ==> m in s1.net
    requires forall m :: m in s1.net && m !in s.net ==> exists j :: c.Honest(j) && m in outs[j].sent
    ensures OneDone(c, p, a, x, s1, {})
  {
    assert Word(x, a) in outs[x].sent;
    OnlyMore(p, a, s.net, s1.net, {Word(x, a)});
  }

  lemma FirstWord(c: Config, p: Params, inputs: seq<Option<BlockShare>>, a: BlockShare, x: int)
    returns (steps: seq<Step>)
    requires FaultySender(c, p, inputs) && x in p.committee && c.Honest(x)
    ensures OneDone(c, p, a, x, Run(c, p, inputs, steps), {})
  {
    var before := Count(c, p, inputs, a);
    var s, hash := Run(c, p, inputs, before), ShareHash(a);
    var list := OfHonest(c, ReadyOf(hash), c.n) + [SMsg(p.senderId, a)];
    var lists := (j: int) => if j == x then list else [];
    HonestAre(c, ReadyOf(hash), c.n);
    var good := (j: int, o: Outcome) => FirstPart(c, p, a, x, j, o);
    forall j | c.Honest(j) ensures good(j, Fed(p, j, s.nodes[j], lists(j))) {
      if j == x {
        FirstDone(c, p, x, s.nodes[x], a);
      }
    }
    var outs;
    steps, outs := FeedGood(c, p, inputs, before, lists, good);
    FirstParts(c, p, a, x, s, Run(c, p, inputs, steps), outs);
  }

  // ---- Everybody hears its word

  lemma WordNoted(x: int, a: BlockShare)
    ensures |Senders({Receipt(ShareHash(a), x)}, ShareHash(a))| == 1
  {
    assert Senders({Receipt(ShareHash(a), x)}, ShareHash(a)) == {x};
  }

  lemma HearWord(c: Config, p: Params, j: int, x: int, nd: Node, a: BlockShare)
    requires p.tk >= 1 && x in p.committee
    requires if j == x then DoneWith(nd, a, true, {}) else Counting(c, p, nd, ShareHash(a), {}, 0) && !nd.broadcastDone
    ensures var o := OnMessage(p, j, nd, Word(x, a));
      var noted := {Receipt(ShareHash(a), x)};
      && (if j == x then DoneWith(o.node, a, true, noted) else Counting(c, p, o.node, ShareHash(a), noted, 0))
      && forall m :: m in o.sent ==> m == Word(x, a)
  {
    WordNoted(x, a);
    assert {} + {Receipt(ShareHash(a), x)} == {Receipt(ShareHash(a), x)};
  }

  lemma NotDone(c: Config, p: Params, nd: Node, hash: Digest, noted: set<Receipt>)
    requires p.t < p.n && Counting(c, p, nd, hash, noted, 0)
    ensures !nd.broadcastDone
  {
    assert HonestBelow(c, 0) == {};
  }

  lemma Hear(c: Config, p: Params, inputs: seq<Option<BlockShare>>, a: BlockShare, x: int)
    returns (steps: seq<Step>)
    requires FaultySender(c, p, inputs) && x in p.committee && c.Honest(x) && p.tk >= 1
    ensures OneDone(c, p, a, x, Run(c, p, inputs, steps), {Receipt(ShareHash(a), x)})
  {
    var before := FirstWord(c, p, inputs, a, x);
    var s, noted := Run(c, p, inputs, before), {Receipt(ShareHash(a), x)};
    var lists := (j: int) => [Word(x, a)];
    var good := (j: int, o: Outcome) =>
      && (if j == x then DoneWith(o.node, a, true, noted) else Counting(c, p, o.node, ShareHash(a), noted, 0))
      && forall m :: m in o.sent ==> m == Word(x, a);
    forall j | c.Honest(j) ensures good(j, Fed(p, j, s.nodes[j], lists(j))) {
      FedOne(p, j, s.nodes[j], [], Word(x, a));
      assert [] + [Word(x, a)] == [Word(x, a)];
      if j != x {
        NotDone(c, p, s.nodes[j], ShareHash(a), {});
      }
      HearWord(c, p, j, x, s.nodes[j], a);
    }
    var outs;
    steps, outs := FeedGood(c, p, inputs, before, lists, good);
    OnlyMore(p, a, s.net, Run(c, p, inputs, steps).net, {Word(x, a)});
  }

  // ---- Then the others are done, and say nothing

  lemma Rests(c: Config, p: Params, s: State, a: BlockShare, x: int)
    requires |s.nodes| == c.n && p.senderId in c.faulty && x in p.committee && c.Honest(x)
    requires Only(p, a, s.net, {Word(x, a)}) && Word(x, a) in s.net
    requires forall j :: c.Honest(j) ==> DoneWith(s.nodes[j], a, j == x, {Receipt(ShareHash(a), x)})
    ensures Quiet(c, p, s) && x in Vouchers(c, p, s)
  {
    forall i, m | c.Honest(i) && m in s.net && c.Honest(m.sender) ensures Handled(p, s.nodes[i], m) {
      assert m.CMsg? ==> m == Word(x, a);
    }
    assert Vouching(x, s.net);
  }

  /** With a faulty sender, and a committee of which one word is not enough: a run that comes to rest
      with every honest message dealt with, all honest nodes done, an honest member of choice that has
      vouched, and nobody honest returned. */
  lemma EarlyWordHangs(c: Config, p: Params, inputs: seq<Option<BlockShare>>, a: BlockShare, x: int)
    returns (steps: seq<Step>)
    requires FaultySender(c, p, inputs) && x in p.committee && c.Honest(x) && p.tk >= 1
    ensures var s := Run(c, p, inputs, steps);
      && |s.nodes| == c.n && Quiet(c, p, s) && x in Vouchers(c, p, s)
      && forall i :: c.Honest(i) ==> s.nodes[i].broadcastDone
  {
    var before := Hear(c, p, inputs, a, x);
    var s, hash, noted := Run(c, p, inputs, before), ShareHash(a), {Receipt(ShareHash(a), x)};
    var list := OfHonest(c, ReadyOf(hash), c.n);
    var lists := (j: int) => if j == x then [] else list;
    HonestAre(c, ReadyOf(hash), c.n);
    var good := (j: int, o: Outcome) => DoneWith(o.node, a, j == x, noted) && o.sent == [];
    forall j | c.Honest(j) ensures good(j, Fed(p, j, s.nodes[j], lists(j))) {
      if j != x {
        ReadysFed(c, p, j, s.nodes[j], hash, noted, c.n);
        FullCount(c, p, Fed(p, j, s.nodes[j], list).node, a, noted);
      }
    }
    var outs;
    steps, outs := FeedGood(c, p, inputs, before, lists, good);
    OnlyMore(p, a, s.net, Run(c, p, inputs, steps).net, {Word(x, a)});
    Rests(c, p, Run(c, p, inputs, steps), a, x);
  }

  /** The run comes to rest with an honest voucher and nobody returned. */
  ghost predicate HangsAt(c: Config, p: Params, inputs: seq<Option<BlockShare>>, steps: seq<Step>) {
    var s := Run(c, p, inputs, steps);
    |s.nodes| == c.n && Quiet(c, p, s) && Vouchers(c, p, s) != {}
  }

  /** The exit can hang although an honest member has vouched, with a faulty sender and an honest member,
      if and only if one word is not enough. */
  lemma HangsExactly(c: Config, p: Params, inputs: seq<Option<BlockShare>>, x: int, a: BlockShare)
    requires FaultySender(c, p, inputs) && x in p.committee && c.Honest(x)
    ensures (exists steps :: HangsAt(c, p, inputs, steps)) <==> p.tk >= 1
  {
    if p.tk >= 1 {
      var steps := EarlyWordHangs(c, p, inputs, a, x);
      assert HangsAt(c, p, inputs, steps);
    } else {
      forall steps ensures !HangsAt(c, p, inputs, steps) {
        OneWordReturns(c, p, inputs, steps, x);
      }
    }
  }

  /** Where one word is enough, a quiet state with a voucher has everybody returned, so there is none. */
  lemma OneWordReturns(c: Config, p: Params, inputs: seq<Option<BlockShare>>, steps: seq<Step>, x: int)
    requires ValidSetup(c, p) && |inputs| == c.n && p.tk == 0 && c.Honest(x)
    ensures !HangsAt(c, p, inputs, steps)
  {
    var s := Run(c, p, inputs, steps);
    RunInv(c, p, inputs, steps);
    RunActive(c, p, inputs, steps);
    if |s.nodes| == c.n && Quiet(c, p, s) && Vouchers(c, p, s) != {} {
      forall i, m | c.Honest(i) && m in s.net && m.CMsg? && c.Honest(m.sender)
        ensures Receipt(m.hash, m.sender) in s.nodes[i].committeeReceived
      {
        assert Handled(p, s.nodes[i], m);
        assert NodeInv(p, m.sender, s.nodes[m.sender], s.net);
      }
      var k :| k in Vouchers(c, p, s);
      SubsetSize({k}, Vouchers(c, p, s));
      EnoughReturn(c, p, inputs, s, x);
    }
  }
}
