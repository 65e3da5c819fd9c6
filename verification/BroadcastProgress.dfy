/** Reliable broadcast does not get stuck: with a sender that follows the program, there is a
    message left to handle until somebody returns. */
module BroadcastProgress {
  import opened Quorums
  import opened Blocks
  import opened Tables
  import opened Certificates
  import opened Broadcast
  import opened BroadcastSafety

  // ---- What every reachable state keeps: thresholds and duties

  ghost predicate HasEchoed(i: int, net: set<Msg>) {
    exists v :: BMsg(i, ECHO, v) in net
  }

  /** A tally that has reached its threshold has had its effect. */
  ghost predicate Fired(p: Params, nd: Node) {
    && (forall h :: |Senders(nd.echoReceived, h)| >= p.n - p.t ==> nd.ready)
    && (forall h :: |Senders(nd.committeeReceived, h)| >= p.tk + 1 ==> nd.output.Some?)
  }

  /** A done member that has the sender's value vouches for it, if it has the right hash. */
  ghost predicate Dutiful(p: Params, i: int, nd: Node, net: set<Msg>) {
    nd.output.None? && nd.senderSent && nd.senderValue.Some? && nd.broadcastDone && i in p.committee
    && ShareHash(nd.senderValue.value) == nd.broadcastValue ==>
      CMsg(i, nd.senderValue.value, nd.broadcastValue, OwnProof(i)) in net
  }

  ghost predicate Heard(nd: Node, net: set<Msg>) {
    && (nd.senderSent ==> nd.senderValue.Some?)
    && (nd.senderValue.Some? ==> exists k :: SMsg(k, nd.senderValue.value) in net)
  }

  ghost predicate Launched(p: Params, i: int, nd: Node, net: set<Msg>) {
    nd.started && i == p.senderId && nd.value.Some? ==>
      SMsg(i, nd.value.value) in net && BMsg(i, VAL, ShareHash(nd.value.value)) in net
  }

  ghost predicate Active(p: Params, i: int, nd: Node, net: set<Msg>) {
    && (nd.initialVal ==> HasEchoed(i, net))
    && Fired(p, nd) && Dutiful(p, i, nd, net) && Heard(nd, net) && Launched(p, i, nd, net)
  }

  lemma ActiveGrows(p: Params, i: int, nd: Node, net: set<Msg>, net1: set<Msg>)
    requires Active(p, i, nd, net) && net <= net1
    ensures Active(p, i, nd, net1)
  {
    if nd.initialVal {
      var v :| BMsg(i, ECHO, v) in net;
      assert BMsg(i, ECHO, v) in net1;
    }
    HeardGrows(nd, net, net1);
  }

  lemma OtherSenders(receipts: set<Receipt>, x: Receipt, h: Digest)
    requires h != x.hash
    ensures Senders(receipts + {x}, h) == Senders(receipts, h)
  {
  }

  lemma EchoFires(p: Params, i: int, nd: Node, m: Msg)
    requires Fired(p, nd) && m.BMsg?
    ensures Fired(p, OnEcho(p, i, nd, m).node)
  {
    var x := Receipt(OfDigest(m.value), m.sender);
    forall h | h != x.hash ensures Senders(nd.echoReceived + {x}, h) == Senders(nd.echoReceived, h) {
      OtherSenders(nd.echoReceived, x, h);
    }
  }

  lemma CommitteeFires(p: Params, i: int, nd: Node, m: Msg)
    requires Fired(p, nd) && nd.output.None? && m.CMsg?
    ensures Fired(p, OnCommittee(p, i, nd, m).node)
  {
    var x := Receipt(m.hash, m.sender);
    forall h | h != x.hash ensures Senders(nd.committeeReceived + {x}, h) == Senders(nd.committeeReceived, h) {
      OtherSenders(nd.committeeReceived, x, h);
    }
  }

  lemma FiredKeeps(p: Params, i: int, nd: Node, m: Msg)
    requires Fired(p, nd) && nd.output.None?
    ensures Fired(p, OnMessage(p, i, nd, m).node)
  {
    match m
    case BMsg(_, _, _) => EchoFires(p, i, nd, m);
    case CMsg(_, _, _, _) => CommitteeFires(p, i, nd, m);
    case SMsg(_, _) =>
  }

  lemma Stays(p: Params, i: int, nd: Node, m: Msg)
    ensures var nd1 := OnMessage(p, i, nd, m).node; nd1.started == nd.started && nd1.value == nd.value
  {
  }

  lemma DutyKeeps(p: Params, i: int, nd: Node, net: set<Msg>, m: Msg)
    ensures var o := OnMessage(p, i, nd, m); Dutiful(p, i, o.node, net + Members(o.sent))
  {
    var o := OnMessage(p, i, nd, m);
    var x := o.node;
    if x.output.None? && x.senderSent && x.senderValue.Some? && x.broadcastDone && i in p.committee
       && ShareHash(x.senderValue.value) == x.broadcastValue {
      var c := CMsg(i, x.senderValue.value, x.broadcastValue, OwnProof(i));
      assert LoopTop(p, i, x) == [c];
      assert c in LoopTop(p, i, x);
      assert c in o.sent;
    }
  }

  lemma HeardGrows(nd: Node, net: set<Msg>, net1: set<Msg>)
    requires Heard(nd, net) && net <= net1
    ensures Heard(nd, net1)
  {
    if nd.senderValue.Some? {
      var k :| SMsg(k, nd.senderValue.value) in net;
      assert SMsg(k, nd.senderValue.value) in net1;
    }
  }

  lemma HeardKeeps(p: Params, i: int, nd: Node, net: set<Msg>, m: Msg)
    requires Heard(nd, net) && m in net
    ensures Heard(OnMessage(p, i, nd, m).node, net)
  {
    if m.SMsg? {
      assert SMsg(m.sender, m.share) in net;
    }
  }

  lemma EchoSent(p: Params, i: int, nd: Node, net: set<Msg>, m: Msg)
    requires nd.initialVal ==> HasEchoed(i, net)
    ensures var o := OnMessage(p, i, nd, m); o.node.initialVal ==> HasEchoed(i, net + Members(o.sent))
  {
    var o := OnMessage(p, i, nd, m);
    if nd.initialVal {
      var v :| BMsg(i, ECHO, v) in net;
      assert BMsg(i, ECHO, v) in net + Members(o.sent);
    } else if o.node.initialVal {
      var e := BMsg(i, ECHO, m.value);
      assert e in Handle(p, i, nd, m).sent;
      assert e in o.sent;
      assert e in net + Members(o.sent);
    }
  }

  lemma MessageActive(p: Params, i: int, nd: Node, net: set<Msg>, m: Msg)
    requires Active(p, i, nd, net) && m in net && nd.output.None?
    ensures var o := OnMessage(p, i, nd, m); Active(p, i, o.node, net + Members(o.sent))
  {
    var o := OnMessage(p, i, nd, m);
    var net1 := net + Members(o.sent);
    EchoSent(p, i, nd, net, m);
    FiredKeeps(p, i, nd, m);
    DutyKeeps(p, i, nd, net, m);
    HeardKeeps(p, i, nd, net, m);
    HeardGrows(o.node, net, net1);
    Stays(p, i, nd, m);
  }

  lemma BeginActive(p: Params, i: int, nd: Node, net: set<Msg>)
    requires Active(p, i, nd, net)
    ensures var o := Begin(p, i, nd); Active(p, i, o.node, net + Members(o.sent))
  {
    var o := Begin(p, i, nd);
    ActiveGrows(p, i, nd, net, net + Members(o.sent));
    if i == p.senderId && nd.value.Some? {
      assert SMsg(i, nd.value.value) in o.sent && BMsg(i, VAL, ShareHash(nd.value.value)) in o.sent;
    }
  }

  ghost predicate AllActive(c: Config, p: Params, inputs: seq<Option<BlockShare>>, s: State) {
    && |inputs| == |s.nodes| == c.n
    && forall i :: 0 <= i < c.n ==> s.nodes[i].value == inputs[i] && Active(p, i, s.nodes[i], s.net)
  }

  lemma ActiveInstall(c: Config, p: Params, inputs: seq<Option<BlockShare>>, s: State, i: int, o: Outcome)
    requires AllActive(c, p, inputs, s) && 0 <= i < c.n && o.node.value == s.nodes[i].value
    requires Active(p, i, o.node, s.net + Members(o.sent))
    ensures AllActive(c, p, inputs, Install(s, i, o))
  {
    forall j | 0 <= j < c.n && j != i ensures Active(p, j, s.nodes[j], s.net + Members(o.sent)) {
      ActiveGrows(p, j, s.nodes[j], s.net, s.net + Members(o.sent));
    }
  }

  lemma DeliverActive(c: Config, p: Params, inputs: seq<Option<BlockShare>>, s: State, i: int, m: Msg)
    requires AllActive(c, p, inputs, s) && 0 <= i < c.n && m in s.net && s.nodes[i].output.None?
    ensures AllActive(c, p, inputs, Install(s, i, OnMessage(p, i, s.nodes[i], m)))
  {
    MessageActive(p, i, s.nodes[i], s.net, m);
    Stays(p, i, s.nodes[i], m);
    ActiveInstall(c, p, inputs, s, i, OnMessage(p, i, s.nodes[i], m));
  }

  lemma StepActive(c: Config, p: Params, inputs: seq<Option<BlockShare>>, s: State, step: Step)
    requires AllActive(c, p, inputs, s)
    ensures AllActive(c, p, inputs, Do(c, p, s, step))
  {
    if Enabled(c, s, step) {
      match step
      case Launch(i) =>
        BeginActive(p, i, s.nodes[i], s.net);
        ActiveInstall(c, p, inputs, s, i, Begin(p, i, s.nodes[i]));
      case Deliver(i, m) => DeliverActive(c, p, inputs, s, i, m);
      case Forge(m) =>
        forall j | 0 <= j < c.n ensures Active(p, j, s.nodes[j], s.net + {m}) {
          ActiveGrows(p, j, s.nodes[j], s.net, s.net + {m});
        }
    }
  }

  lemma {:induction false} RunActive(c: Config, p: Params, inputs: seq<Option<BlockShare>>, steps: seq<Step>)
    requires ValidSetup(c, p) && |inputs| == c.n
    ensures AllActive(c, p, inputs, Run(c, p, inputs, steps))
  {
    if steps == [] {
      assert forall h :: Senders({}, h) == {};
    } else {
      RunActive(c, p, inputs, steps[..|steps| - 1]);
      StepActive(c, p, inputs, Run(c, p, inputs, steps[..|steps| - 1]), steps[|steps| - 1]);
    }
  }

  // ---- Nothing left to handle

  /** Node nd has dealt with a message: what it asks for has been noted, or no longer counts. */
  ghost predicate Handled(p: Params, nd: Node, m: Msg) {
    match m
    case BMsg(k, kind, v) =>
      nd.broadcastDone
      || (match kind
          case VAL => nd.initialVal
          case ECHO => Receipt(OfDigest(v), k) in nd.echoReceived
          case READY => Receipt(OfDigest(v), k) in nd.readyReceived)
    case CMsg(k, _, hash, _) => ValidCommitteeMsg(p, m) ==> Receipt(hash, k) in nd.committeeReceived
    case SMsg(_, _) => nd.senderSent
  }

  /** Every honest node runs and has dealt with everything an honest node has sent. */
  ghost predicate Quiet(c: Config, p: Params, s: State)
    requires |s.nodes| == c.n
  {
    && (forall i :: c.Honest(i) ==> s.nodes[i].started && s.nodes[i].output.None?)
    && (forall i, m :: c.Honest(i) && m in s.net && c.Honest(m.sender) ==> Handled(p, s.nodes[i], m))
  }

  /** The sender is honest and its value b the only one that anybody presents as the sender's. */
  ghost predicate OneValue(c: Config, p: Params, inputs: seq<Option<BlockShare>>, s: State, b: BlockShare)
    requires |inputs| == c.n
  {
    && c.Honest(p.senderId) && inputs[p.senderId] == Some(b)
    && (forall k, v :: BMsg(k, VAL, v) in s.net ==> v == ShareHash(b))
    && (forall k, x :: SMsg(k, x) in s.net ==> x == b)
  }

  lemma QuietReadys(c: Config, p: Params, s: State)
    requires |s.nodes| == c.n && Quiet(c, p, s)
    ensures ReadysHandled(c, s)
  {
    forall i, j, v | c.Honest(i) && c.Honest(j) && BMsg(i, READY, v) in s.net
      ensures s.nodes[j].broadcastDone || Receipt(OfDigest(v), i) in s.nodes[j].readyReceived
    {
      assert Handled(p, s.nodes[j], BMsg(i, READY, v));
    }
  }

  /** In a quiet state where nobody is done, everybody has echoed the sender's value. */
  lemma AllEchoed(c: Config, p: Params, inputs: seq<Option<BlockShare>>, s: State, b: BlockShare, j: int)
    requires Inv(c, p, s) && AllActive(c, p, inputs, s) && Quiet(c, p, s) && OneValue(c, p, inputs, s, b)
    requires c.Honest(j) && !s.nodes[j].broadcastDone
    ensures BMsg(j, ECHO, ShareHash(b)) in s.net
  {
    assert Active(p, p.senderId, s.nodes[p.senderId], s.net);
    assert Handled(p, s.nodes[j], BMsg(p.senderId, VAL, ShareHash(b)));
    assert Active(p, j, s.nodes[j], s.net);
    var v :| BMsg(j, ECHO, v) in s.net;
    var k :| BMsg(k, VAL, v) in s.net;
  }

  /** Then everybody is ready. */
  lemma AllReady(c: Config, p: Params, inputs: seq<Option<BlockShare>>, s: State, b: BlockShare, j: int)
    requires Inv(c, p, s) && AllActive(c, p, inputs, s) && Quiet(c, p, s) && OneValue(c, p, inputs, s, b)
    requires c.Honest(j) && (forall k :: c.Honest(k) ==> !s.nodes[k].broadcastDone)
    ensures s.nodes[j].ready
  {
    var h := OfDigest(ShareHash(b));
    var mine := Senders(s.nodes[j].echoReceived, h);
    forall k | k in c.HonestIds() ensures k in mine {
      AllEchoed(c, p, inputs, s, b, k);
      assert Handled(p, s.nodes[j], BMsg(k, ECHO, ShareHash(b)));
      assert Receipt(h, k) in s.nodes[j].echoReceived;
    }
    HonestCount(c);
    SubsetSize(c.HonestIds(), mine);
    assert Active(p, j, s.nodes[j], s.net);
  }

  /** Every honest READY is for the sender's value. */
  lemma ReadyIsSenders(c: Config, p: Params, inputs: seq<Option<BlockShare>>, s: State, b: BlockShare, j: int,
                       v: Digest)
    requires Inv(c, p, s) && |inputs| == c.n && OneValue(c, p, inputs, s, b)
    requires c.Honest(j) && BMsg(j, READY, v) in s.net
    ensures v == ShareHash(b)
  {
    assert EchoQuorum(p, s.net, v);
    HonestMember(c, EchoSenders(s.net, v));
    var k :| k in EchoSenders(s.net, v) && c.Honest(k);
    assert BMsg(k, ECHO, v) in s.net;
    var x :| BMsg(x, VAL, v) in s.net;
  }

  /** If all honest nodes are ready in a quiet state, they are done. */
  lemma ReadyIsDone(c: Config, p: Params, inputs: seq<Option<BlockShare>>, s: State, b: BlockShare, j: int)
    requires Inv(c, p, s) && |inputs| == c.n && Quiet(c, p, s) && OneValue(c, p, inputs, s, b) && c.Honest(j)
    requires forall k :: c.Honest(k) ==> s.nodes[k].ready
    ensures s.nodes[j].broadcastDone
  {
    var h := OfDigest(ShareHash(b));
    var mine := Senders(s.nodes[j].readyReceived, h);
    assert NodeInv(p, j, s.nodes[j], s.net);
    if !s.nodes[j].broadcastDone {
      forall k | k in c.HonestIds() ensures k in mine {
        assert NodeInv(p, k, s.nodes[k], s.net);
        var v :| BMsg(k, READY, v) in s.net;
        ReadyIsSenders(c, p, inputs, s, b, k, v);
        assert Handled(p, s.nodes[j], BMsg(k, READY, ShareHash(b)));
        assert Receipt(h, k) in s.nodes[j].readyReceived;
      }
      HonestCount(c);
      SubsetSize(c.HonestIds(), mine);
    }
  }

  /** In a quiet state all honest nodes are done with the sender's value. */
  lemma QuietDone(c: Config, p: Params, inputs: seq<Option<BlockShare>>, s: State, b: BlockShare, j: int)
    requires Inv(c, p, s) && AllActive(c, p, inputs, s) && Quiet(c, p, s) && OneValue(c, p, inputs, s, b) && c.Honest(j)
    ensures s.nodes[j].broadcastDone && s.nodes[j].broadcastValue == ShareHash(b)
  {
    QuietReadys(c, p, s);
    if i :| c.Honest(i) && s.nodes[i].broadcastDone {
      AllDone(c, p, s, i, j);
    } else {
      forall k | c.Honest(k) ensures s.nodes[k].ready {
        AllReady(c, p, inputs, s, b, k);
      }
      ReadyIsDone(c, p, inputs, s, b, j);
    }
    DoneIsReady(c, p, s, j);
    var k :| c.Honest(k) && BMsg(k, READY, s.nodes[j].broadcastValue) in s.net;
    ReadyIsSenders(c, p, inputs, s, b, k, s.nodes[j].broadcastValue);
  }

  /** Every honest member has then vouched for the value, and every honest node has that noted. */
  lemma QuietVouched(c: Config, p: Params, inputs: seq<Option<BlockShare>>, s: State, b: BlockShare, k: int, j: int)
    requires Inv(c, p, s) && AllActive(c, p, inputs, s) && Quiet(c, p, s) && OneValue(c, p, inputs, s, b)
    requires c.Honest(k) && c.Honest(j) && k in p.committee
    ensures Receipt(ShareHash(b), k) in s.nodes[j].committeeReceived
  {
    QuietDone(c, p, inputs, s, b, k);
    assert Active(p, p.senderId, s.nodes[p.senderId], s.net);
    assert Handled(p, s.nodes[k], SMsg(p.senderId, b));
    assert Active(p, k, s.nodes[k], s.net);
    var x :| SMsg(x, s.nodes[k].senderValue.value) in s.net;
    var m := CMsg(k, b, ShareHash(b), OwnProof(k));
    assert m in s.net;
    assert Handled(p, s.nodes[j], m);
  }

  /** With an honest sender and more than tk honest members there is no quiet state: as long as no
      honest node has returned, some honest node has not dealt with some honest message. */
  lemma NeverStuck(c: Config, p: Params, inputs: seq<Option<BlockShare>>, steps: seq<Step>, b: BlockShare)
    requires ValidSetup(c, p) && |inputs| == c.n && |p.committee - c.faulty| >= p.tk + 1
    ensures var s := Run(c, p, inputs, steps);
      |s.nodes| == c.n && (OneValue(c, p, inputs, s, b) ==> !Quiet(c, p, s))
  {
    RunInv(c, p, inputs, steps);
    RunActive(c, p, inputs, steps);
    QuietImpossible(c, p, inputs, Run(c, p, inputs, steps), b);
  }

  lemma QuietImpossible(c: Config, p: Params, inputs: seq<Option<BlockShare>>, s: State, b: BlockShare)
    requires Inv(c, p, s) && AllActive(c, p, inputs, s) && |p.committee - c.faulty| >= p.tk + 1
    ensures OneValue(c, p, inputs, s, b) ==> !Quiet(c, p, s)
  {
    if OneValue(c, p, inputs, s, b) && Quiet(c, p, s) {
      var j := p.senderId;
      assert Active(p, j, s.nodes[j], s.net);
      var vouchers := Senders(s.nodes[j].committeeReceived, ShareHash(b));
      forall k | k in p.committee - c.faulty ensures k in vouchers {
        QuietVouched(c, p, inputs, s, b, k, j);
        assert Receipt(ShareHash(b), k) in s.nodes[j].committeeReceived;
      }
      SubsetSize(p.committee - c.faulty, vouchers);
    }
  }
}
