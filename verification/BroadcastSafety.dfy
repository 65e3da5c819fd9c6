/** Reliable broadcast over all runs: any order, any loss, at most t arbitrary nodes of which at
    most tk sit in the committee. */
module BroadcastSafety {
  import opened Quorums
  import opened Blocks
  import opened Certificates
  import opened Tables
  import opened Broadcast

  datatype State = State(nodes: seq<Node>, net: set<Msg>)

  datatype Step =
    | Launch(i: int)           // node i starts
    | Deliver(i: int, m: Msg)  // node i handles a message
    | Forge(m: Msg)            // a faulty node sends anything in its own name

  ghost predicate ValidSetup(c: Config, p: Params) {
    && c.Valid() && p.n == c.n && p.t == c.t
    && p.committee <= Ids(c.n) && |p.committee * c.faulty| <= p.tk
  }

  function Init(inputs: seq<Option<BlockShare>>): State {
    State(seq(|inputs|, i requires 0 <= i < |inputs| => InitNode(inputs[i])), {})
  }

  predicate Enabled(c: Config, s: State, step: Step) {
    match step
    case Launch(i) => c.Honest(i) && i < |s.nodes| && !s.nodes[i].started
    case Deliver(i, m) =>
      c.Honest(i) && i < |s.nodes| && s.nodes[i].started && s.nodes[i].output.None? && m in s.net
    case Forge(m) => m.sender in c.faulty
  }

  function Install(s: State, i: int, o: Outcome): State
    requires 0 <= i < |s.nodes|
  {
    State(s.nodes[i := o.node], s.net + Members(o.sent))
  }

  function Do(c: Config, p: Params, s: State, step: Step): State {
    if !Enabled(c, s, step) then s else
    match step
    case Launch(i) => Install(s, i, Begin(p, i, s.nodes[i]))
    case Deliver(i, m) => Install(s, i, OnMessage(p, i, s.nodes[i], m))
    case Forge(m) => s.(net := s.net + {m})
  }

  /** The state after a run; a step that is not enabled changes nothing. */
  function Run(c: Config, p: Params, inputs: seq<Option<BlockShare>>, steps: seq<Step>): State {
    if steps == [] then Init(inputs)
    else Do(c, p, Run(c, p, inputs, steps[..|steps| - 1]), steps[|steps| - 1])
  }

  // ---- What every reachable state keeps

  /** Every recorded sender did send its ECHO or READY. */
  ghost predicate Recorded(receipts: set<Receipt>, kind: Kind, net: set<Msg>) {
    forall x :: x in receipts ==> x.hash.OfDigest? && BMsg(x.sender, kind, x.hash.digest) in net
  }

  /** j vouched for a value with this hash, and showed the dealer's signature on its number. */
  ghost predicate Vouched(net: set<Msg>, j: int, hash: Digest) {
    exists m :: m in net && m.CMsg? && m.sender == j && m.hash == hash
                && ShareHash(m.share) == hash && m.proof.Verify(OfNumber(j))
  }

  ghost predicate CommitteeRecorded(p: Params, receipts: set<Receipt>, net: set<Msg>) {
    forall x :: x in receipts ==> x.sender in p.committee && Vouched(net, x.sender, x.hash)
  }

  function EchoSenders(net: set<Msg>, v: Digest): set<int> {
    set m | m in net && m.BMsg? && m.kind == ECHO && m.value == v :: m.sender
  }

  ghost predicate EchoQuorum(p: Params, net: set<Msg>, v: Digest) {
    |EchoSenders(net, v)| >= p.n - p.t
  }

  ghost predicate Thresholds(p: Params, nd: Node) {
    && (forall h :: |Senders(nd.readyReceived, h)| >= p.t + 1 ==> nd.ready)
    && (forall h :: |Senders(nd.readyReceived, h)| >= p.n - p.t ==> nd.broadcastDone)
    && (nd.broadcastDone ==> nd.ready && |Senders(nd.readyReceived, OfDigest(nd.broadcastValue))| >= p.n - p.t)
    && (nd.output.Some? ==> |Senders(nd.committeeReceived, ShareHash(nd.output.value))| >= p.tk + 1)
  }

  /** What a node's own messages say about it. */
  ghost predicate Own(p: Params, i: int, nd: Node, net: set<Msg>) {
    && (forall v :: BMsg(i, ECHO, v) in net ==> nd.initialVal)
    && (forall v, w :: BMsg(i, ECHO, v) in net && BMsg(i, ECHO, w) in net ==> v == w)
    && (forall v :: BMsg(i, READY, v) in net ==> nd.ready)
    && (nd.ready ==> exists v :: BMsg(i, READY, v) in net)
    && (forall v, w :: BMsg(i, READY, v) in net && BMsg(i, READY, w) in net ==> v == w)
    && (forall m :: m in net && m.CMsg? && m.sender == i ==>
          && i in p.committee && nd.broadcastDone && m.hash == nd.broadcastValue
          && ShareHash(m.share) == m.hash && m.proof == OwnProof(i))
  }

  ghost predicate NodeInv(p: Params, i: int, nd: Node, net: set<Msg>) {
    && Recorded(nd.echoReceived, ECHO, net)
    && Recorded(nd.readyReceived, READY, net)
    && CommitteeRecorded(p, nd.committeeReceived, net)
    && Thresholds(p, nd)
    && Own(p, i, nd, net)
  }

  ghost predicate Inv(c: Config, p: Params, s: State) {
    && ValidSetup(c, p) && |s.nodes| == c.n
    && (forall m :: m in s.net ==> 0 <= m.sender < c.n)
    && (forall i :: c.Honest(i) ==> NodeInv(p, i, s.nodes[i], s.net))
    && (forall i, v :: c.Honest(i) && BMsg(i, READY, v) in s.net ==> EchoQuorum(p, s.net, v))
    && (forall i, v :: c.Honest(i) && BMsg(i, ECHO, v) in s.net ==> exists j :: BMsg(j, VAL, v) in s.net)
  }

  lemma InitInv(c: Config, p: Params, inputs: seq<Option<BlockShare>>)
    requires ValidSetup(c, p) && |inputs| == c.n
    ensures Inv(c, p, Init(inputs))
  {
    assert forall h :: Senders({}, h) == {};
  }

  lemma NetGrows(p: Params, i: int, nd: Node, net: set<Msg>, extra: set<Msg>)
    requires NodeInv(p, i, nd, net)
    requires forall m :: m in extra ==> m.sender != i
    ensures NodeInv(p, i, nd, net + extra)
  {
    forall j, h | Vouched(net, j, h) ensures Vouched(net + extra, j, h) {
      var m :| m in net && m.CMsg? && m.sender == j && m.hash == h && ShareHash(m.share) == h
               && m.proof.Verify(OfNumber(j));
      assert m in net + extra;
    }
  }

  lemma EchoQuorumGrows(p: Params, net: set<Msg>, net1: set<Msg>, v: Digest)
    requires EchoQuorum(p, net, v) && net <= net1
    ensures EchoQuorum(p, net1, v)
  {
    SubsetSize(EchoSenders(net, v), EchoSenders(net1, v));
  }

  // ---- One node's turn

  lemma NetMonotone(p: Params, nd: Node, net: set<Msg>, net1: set<Msg>)
    requires net <= net1
    requires Recorded(nd.echoReceived, ECHO, net) && Recorded(nd.readyReceived, READY, net)
    requires CommitteeRecorded(p, nd.committeeReceived, net)
    ensures Recorded(nd.echoReceived, ECHO, net1) && Recorded(nd.readyReceived, READY, net1)
    ensures CommitteeRecorded(p, nd.committeeReceived, net1)
  {
    forall j, h | Vouched(net, j, h) ensures Vouched(net1, j, h) {
      var m :| m in net && m.CMsg? && m.sender == j && m.hash == h && ShareHash(m.share) == h
               && m.proof.Verify(OfNumber(j));
      assert m in net1;
    }
  }

  lemma BeginKeeps(p: Params, i: int, nd: Node, net: set<Msg>)
    requires NodeInv(p, i, nd, net)
    ensures var o := Begin(p, i, nd); NodeInv(p, i, o.node, net + Members(o.sent))
  {
    var o := Begin(p, i, nd);
    NetMonotone(p, nd, net, net + Members(o.sent));
  }

  lemma ValKeeps(p: Params, i: int, nd: Node, net: set<Msg>, m: Msg)
    requires NodeInv(p, i, nd, net) && m.BMsg?
    ensures var o := OnVal(i, nd, m); NodeInv(p, i, o.node, net + Members(o.sent))
  {
    var o := OnVal(i, nd, m);
    NetMonotone(p, nd, net, net + Members(o.sent));
  }

  lemma EchoKeeps(p: Params, i: int, nd: Node, net: set<Msg>, m: Msg)
    requires NodeInv(p, i, nd, net) && m.BMsg? && m.kind == ECHO && m in net
    ensures var o := OnEcho(p, i, nd, m); NodeInv(p, i, o.node, net + Members(o.sent))
  {
    var o := OnEcho(p, i, nd, m);
    NetMonotone(p, nd, net, net + Members(o.sent));
    if o.sent != [] {
      assert BMsg(i, READY, m.value) in net + Members(o.sent);
    }
  }

  lemma ReadyTallies(p: Params, i: int, nd: Node, net: set<Msg>, m: Msg)
    requires NodeInv(p, i, nd, net) && m.BMsg? && m.kind == READY && m in net && !nd.broadcastDone
    requires p.t + 1 <= p.n - p.t && nd.output == None
    ensures Thresholds(p, OnReady(p, i, nd, m).node)
  {
    var nd1 := OnReady(p, i, nd, m).node;
    var hash := OfDigest(m.value);
    forall h | h != hash ensures Senders(nd1.readyReceived, h) == Senders(nd.readyReceived, h) {
    }
    SubsetSize(Senders(nd.readyReceived, hash), Senders(nd1.readyReceived, hash));
  }

  lemma ReadyKeeps(p: Params, i: int, nd: Node, net: set<Msg>, m: Msg)
    requires NodeInv(p, i, nd, net) && m.BMsg? && m.kind == READY && m in net && !nd.broadcastDone
    requires p.t + 1 <= p.n - p.t && nd.output == None
    ensures var o := OnReady(p, i, nd, m); NodeInv(p, i, o.node, net + Members(o.sent))
  {
    var o := OnReady(p, i, nd, m);
    NetMonotone(p, nd, net, net + Members(o.sent));
    ReadyTallies(p, i, nd, net, m);
    if o.sent != [] {
      assert BMsg(i, READY, m.value) in net + Members(o.sent);
    }
  }

  /** Vouching for a value with the broadcast hash. */
  lemma VouchKeeps(p: Params, i: int, nd: Node, net: set<Msg>, share: BlockShare)
    requires NodeInv(p, i, nd, net) && nd.broadcastDone && i in p.committee
    ensures NodeInv(p, i, nd, net + Members(Vouch(i, share, nd.broadcastValue)))
  {
    var net1 := net + Members(Vouch(i, share, nd.broadcastValue));
    NetMonotone(p, nd, net, net1);
    assert forall kind, v :: BMsg(i, kind, v) in net1 <==> BMsg(i, kind, v) in net;
  }

  lemma CommitteeKeeps(p: Params, i: int, nd: Node, net: set<Msg>, m: Msg)
    requires NodeInv(p, i, nd, net) && m.CMsg? && ValidCommitteeMsg(p, m) && m in net && nd.output == None
    ensures var o := OnCommittee(p, i, nd, m); NodeInv(p, i, o.node, net + Members(o.sent))
  {
    var o := OnCommittee(p, i, nd, m);
    assert Vouched(net, m.sender, m.hash);
    assert NodeInv(p, i, o.node, net);
    if o.sent != [] {
      VouchKeeps(p, i, o.node, net, m.share);
    } else {
      assert net + Members(o.sent) == net;
    }
  }

  lemma HandleKeeps(p: Params, i: int, nd: Node, net: set<Msg>, m: Msg)
    requires NodeInv(p, i, nd, net) && m in net && nd.output == None && p.t + 1 <= p.n - p.t
    ensures var o := Handle(p, i, nd, m); NodeInv(p, i, o.node, net + Members(o.sent))
  {
    var o := Handle(p, i, nd, m);
    match m
    case BMsg(_, kind, _) =>
      if nd.broadcastDone {
        assert net + Members(o.sent) == net;
      } else {
        match kind
        case VAL => ValKeeps(p, i, nd, net, m);
        case ECHO => EchoKeeps(p, i, nd, net, m);
        case READY => ReadyKeeps(p, i, nd, net, m);
      }
    case CMsg(_, _, _, _) =>
      if ValidCommitteeMsg(p, m) {
        CommitteeKeeps(p, i, nd, net, m);
      } else {
        assert net + Members(o.sent) == net;
      }
    case SMsg(_, _) => assert net + Members(o.sent) == net;
  }

  lemma MessageKeeps(p: Params, i: int, nd: Node, net: set<Msg>, m: Msg)
    requires NodeInv(p, i, nd, net) && m in net && nd.output == None && p.t + 1 <= p.n - p.t
    ensures var o := OnMessage(p, i, nd, m); NodeInv(p, i, o.node, net + Members(o.sent))
  {
    var h := Handle(p, i, nd, m);
    var o := OnMessage(p, i, nd, m);
    HandleKeeps(p, i, nd, net, m);
    var net1 := net + Members(h.sent);
    var top := LoopTop(p, i, h.node);
    assert net + Members(o.sent) == net1 + Members(top);
    if top != [] {
      VouchKeeps(p, i, h.node, net1, h.node.senderValue.value);
    } else {
      assert net1 + Members(top) == net1;
    }
  }

  // ---- What is behind the messages a turn sends

  /** The tally that makes a node send READY. */
  lemma ReadyCause(p: Params, i: int, nd: Node, m: Msg, v: Digest)
    requires BMsg(i, READY, v) in OnMessage(p, i, nd, m).sent
    ensures m.BMsg? && m.value == v
    ensures var x := Receipt(OfDigest(v), m.sender);
      || (m.kind == ECHO && |Senders(nd.echoReceived + {x}, OfDigest(v))| >= p.n - p.t)
      || (m.kind == READY && |Senders(nd.readyReceived + {x}, OfDigest(v))| >= p.t + 1)
  {
    assert BMsg(i, READY, v) in Handle(p, i, nd, m).sent;
  }

  /** A READY rests on an ECHO quorum: its own, or that of an honest READY before it. */
  lemma ReadyRests(c: Config, p: Params, s: State, i: int, m: Msg, v: Digest)
    requires Inv(c, p, s) && c.Honest(i) && m in s.net
    requires BMsg(i, READY, v) in OnMessage(p, i, s.nodes[i], m).sent
    ensures EchoQuorum(p, s.net, v)
  {
    var nd := s.nodes[i];
    ReadyCause(p, i, nd, m, v);
    var hash := OfDigest(v);
    if m.kind == ECHO {
      var received := nd.echoReceived + {Receipt(hash, m.sender)};
      SubsetSize(Senders(received, hash), EchoSenders(s.net, v));
    } else {
      var received := nd.readyReceived + {Receipt(hash, m.sender)};
      HonestMember(c, Senders(received, hash));
      var j :| j in Senders(received, hash) && c.Honest(j);
      assert BMsg(j, READY, v) in s.net;
    }
  }

  lemma EchoRests(c: Config, p: Params, s: State, i: int, m: Msg, v: Digest)
    requires Inv(c, p, s) && c.Honest(i) && m in s.net && s.nodes[i].output == None
    requires BMsg(i, ECHO, v) in OnMessage(p, i, s.nodes[i], m).sent
    ensures BMsg(m.sender, VAL, v) in s.net
  {
    assert BMsg(i, ECHO, v) in Handle(p, i, s.nodes[i], m).sent;
  }

  lemma InstallKeeps(c: Config, p: Params, s: State, i: int, o: Outcome)
    requires Inv(c, p, s) && c.Honest(i)
    requires NodeInv(p, i, o.node, s.net + Members(o.sent))
    requires forall m :: m in o.sent ==> m.sender == i
    requires forall v :: BMsg(i, READY, v) in o.sent ==> EchoQuorum(p, s.net, v)
    requires forall v :: BMsg(i, ECHO, v) in o.sent ==> exists j :: BMsg(j, VAL, v) in s.net
    ensures Inv(c, p, Install(s, i, o))
  {
    var s1 := Install(s, i, o);
    forall j | c.Honest(j) && j != i ensures NodeInv(p, j, s1.nodes[j], s1.net) {
      NetGrows(p, j, s.nodes[j], s.net, Members(o.sent));
    }
    forall v | EchoQuorum(p, s.net, v) ensures EchoQuorum(p, s1.net, v) {
      EchoQuorumGrows(p, s.net, s1.net, v);
    }
    forall j, v | c.Honest(j) && BMsg(j, ECHO, v) in s1.net ensures exists k :: BMsg(k, VAL, v) in s1.net {
      var k :| BMsg(k, VAL, v) in s.net;
      assert BMsg(k, VAL, v) in s1.net;
    }
  }

  lemma ForgeKeeps(c: Config, p: Params, s: State, m: Msg)
    requires Inv(c, p, s) && m.sender in c.faulty
    ensures Inv(c, p, s.(net := s.net + {m}))
  {
    var s1 := s.(net := s.net + {m});
    forall j | c.Honest(j) ensures NodeInv(p, j, s1.nodes[j], s1.net) {
      NetGrows(p, j, s.nodes[j], s.net, {m});
    }
    forall v | EchoQuorum(p, s.net, v) ensures EchoQuorum(p, s1.net, v) {
      EchoQuorumGrows(p, s.net, s1.net, v);
    }
    forall j, v | c.Honest(j) && BMsg(j, ECHO, v) in s1.net ensures exists k :: BMsg(k, VAL, v) in s1.net {
      var k :| BMsg(k, VAL, v) in s.net;
      assert BMsg(k, VAL, v) in s1.net;
    }
  }

  lemma LaunchKeeps(c: Config, p: Params, s: State, i: int)
    requires Inv(c, p, s) && c.Honest(i)
    ensures Inv(c, p, Install(s, i, Begin(p, i, s.nodes[i])))
  {
    var o := Begin(p, i, s.nodes[i]);
    BeginKeeps(p, i, s.nodes[i], s.net);
    InstallKeeps(c, p, s, i, o);
  }

  /** A node speaks only in its own name. */
  lemma OwnName(p: Params, i: int, nd: Node, m: Msg)
    ensures forall x :: x in OnMessage(p, i, nd, m).sent ==> x.sender == i
  {
  }

  lemma DeliverKeeps(c: Config, p: Params, s: State, i: int, m: Msg)
    requires Inv(c, p, s) && c.Honest(i) && m in s.net && s.nodes[i].output == None
    ensures Inv(c, p, Install(s, i, OnMessage(p, i, s.nodes[i], m)))
  {
    var o := OnMessage(p, i, s.nodes[i], m);
    MessageKeeps(p, i, s.nodes[i], s.net, m);
    OwnName(p, i, s.nodes[i], m);
    forall v | BMsg(i, READY, v) in o.sent ensures EchoQuorum(p, s.net, v) {
      ReadyRests(c, p, s, i, m, v);
    }
    forall v | BMsg(i, ECHO, v) in o.sent ensures exists j :: BMsg(j, VAL, v) in s.net {
      EchoRests(c, p, s, i, m, v);
    }
    InstallKeeps(c, p, s, i, o);
  }

  lemma StepKeeps(c: Config, p: Params, s: State, step: Step)
    requires Inv(c, p, s)
    ensures Inv(c, p, Do(c, p, s, step))
  {
    if Enabled(c, s, step) {
      match step
      case Launch(i) => LaunchKeeps(c, p, s, i);
      case Deliver(i, m) => DeliverKeeps(c, p, s, i, m);
      case Forge(m) => ForgeKeeps(c, p, s, m);
    }
  }

  lemma {:induction false} RunInv(c: Config, p: Params, inputs: seq<Option<BlockShare>>, steps: seq<Step>)
    requires ValidSetup(c, p) && |inputs| == c.n
    ensures Inv(c, p, Run(c, p, inputs, steps))
  {
    if steps == [] {
      InitInv(c, p, inputs);
    } else {
      RunInv(c, p, inputs, steps[..|steps| - 1]);
      StepKeeps(c, p, Run(c, p, inputs, steps[..|steps| - 1]), steps[|steps| - 1]);
    }
  }

  // ---- Agreement

  /** All honest READYs are for one value. */
  lemma ReadysAgree(c: Config, p: Params, s: State, i: int, j: int, v: Digest, w: Digest)
    requires Inv(c, p, s) && c.Honest(i) && c.Honest(j)
    requires BMsg(i, READY, v) in s.net && BMsg(j, READY, w) in s.net
    ensures v == w
  {
    var a, b := EchoSenders(s.net, v), EchoSenders(s.net, w);
    QuorumsMeet(c, a, b);
    var k :| k in a && k in b && c.Honest(k);
    assert BMsg(k, ECHO, v) in s.net && BMsg(k, ECHO, w) in s.net;
  }

  /** A done node holds the value of an honest READY. */
  lemma DoneIsReady(c: Config, p: Params, s: State, i: int)
    requires Inv(c, p, s) && c.Honest(i) && s.nodes[i].broadcastDone
    ensures exists j :: c.Honest(j) && BMsg(j, READY, s.nodes[i].broadcastValue) in s.net
  {
    var v := s.nodes[i].broadcastValue;
    var senders := Senders(s.nodes[i].readyReceived, OfDigest(v));
    HonestMember(c, senders);
    var j :| j in senders && c.Honest(j);
    assert BMsg(j, READY, v) in s.net;
  }

  lemma DonesAgree(c: Config, p: Params, s: State, i: int, j: int)
    requires Inv(c, p, s) && c.Honest(i) && c.Honest(j)
    requires s.nodes[i].broadcastDone && s.nodes[j].broadcastDone
    ensures s.nodes[i].broadcastValue == s.nodes[j].broadcastValue
  {
    DoneIsReady(c, p, s, i);
    DoneIsReady(c, p, s, j);
    var a :| c.Honest(a) && BMsg(a, READY, s.nodes[i].broadcastValue) in s.net;
    var b :| c.Honest(b) && BMsg(b, READY, s.nodes[j].broadcastValue) in s.net;
    ReadysAgree(c, p, s, a, b, s.nodes[i].broadcastValue, s.nodes[j].broadcastValue);
  }

  /** The value output has the hash that some honest committee member got from the broadcast. */
  lemma OutputIsBroadcast(c: Config, p: Params, s: State, i: int)
    requires Inv(c, p, s) && c.Honest(i) && s.nodes[i].output.Some?
    ensures exists k :: c.Honest(k) && s.nodes[k].broadcastDone
              && s.nodes[k].broadcastValue == ShareHash(s.nodes[i].output.value)
  {
    var h := ShareHash(s.nodes[i].output.value);
    var senders := Senders(s.nodes[i].committeeReceived, h);
    if forall k :: k in senders ==> k in c.faulty {
      SubsetSize(senders, p.committee * c.faulty);
    }
    var k :| k in senders && k !in c.faulty;
    assert Vouched(s.net, k, h);
    var m :| m in s.net && m.CMsg? && m.sender == k && m.hash == h;
    assert c.Honest(k);
  }

  /** Agreement: in every run, what two honest nodes output has one hash; full pre-blocks of one
      size label are then the same value. */
  lemma Agreement(c: Config, p: Params, inputs: seq<Option<BlockShare>>, steps: seq<Step>)
    requires ValidSetup(c, p) && |inputs| == c.n
    ensures var s := Run(c, p, inputs, steps);
      && |s.nodes| == c.n
      && (forall i, j :: c.Honest(i) && c.Honest(j) && s.nodes[i].output.Some? && s.nodes[j].output.Some? ==>
            ShareHash(s.nodes[i].output.value) == ShareHash(s.nodes[j].output.value))
  {
    RunInv(c, p, inputs, steps);
    var s := Run(c, p, inputs, steps);
    forall i, j | c.Honest(i) && c.Honest(j) && s.nodes[i].output.Some? && s.nodes[j].output.Some?
      ensures ShareHash(s.nodes[i].output.value) == ShareHash(s.nodes[j].output.value)
    {
      OutputIsBroadcast(c, p, s, i);
      OutputIsBroadcast(c, p, s, j);
      var a :| c.Honest(a) && s.nodes[a].broadcastDone
               && s.nodes[a].broadcastValue == ShareHash(s.nodes[i].output.value);
      var b :| c.Honest(b) && s.nodes[b].broadcastDone
               && s.nodes[b].broadcastValue == ShareHash(s.nodes[j].output.value);
      DonesAgree(c, p, s, a, b);
    }
  }

  /** What an honest node puts out has come by a VAL, from whomever. */
  lemma OutputHasVal(c: Config, p: Params, s: State, i: int)
    requires Inv(c, p, s) && c.Honest(i) && s.nodes[i].output.Some?
    ensures exists j :: BMsg(j, VAL, ShareHash(s.nodes[i].output.value)) in s.net
  {
    OutputIsBroadcast(c, p, s, i);
    var v := ShareHash(s.nodes[i].output.value);
    var a :| c.Honest(a) && s.nodes[a].broadcastDone && s.nodes[a].broadcastValue == v;
    DoneIsReady(c, p, s, a);
    HonestMember(c, EchoSenders(s.net, v));
    var k :| k in EchoSenders(s.net, v) && c.Honest(k);
    assert BMsg(k, ECHO, v) in s.net;
  }

  /** If no VAL but the sender's value circulates, nothing else is output. */
  lemma SenderValidity(c: Config, p: Params, inputs: seq<Option<BlockShare>>, steps: seq<Step>, h: Digest)
    requires ValidSetup(c, p) && |inputs| == c.n
    ensures var s := Run(c, p, inputs, steps);
      && |s.nodes| == c.n
      && ((forall j, v :: BMsg(j, VAL, v) in s.net ==> v == h) ==>
            forall i :: c.Honest(i) && s.nodes[i].output.Some? ==> ShareHash(s.nodes[i].output.value) == h)
  {
    RunInv(c, p, inputs, steps);
    var s := Run(c, p, inputs, steps);
    if forall j, v :: BMsg(j, VAL, v) in s.net ==> v == h {
      forall i | c.Honest(i) && s.nodes[i].output.Some? ensures ShareHash(s.nodes[i].output.value) == h {
        OutputHasVal(c, p, s, i);
      }
    }
  }

  // ---- Totality

  /** Every honest READY has been processed by every honest node: it is recorded, or it came
      when the node was done. */
  ghost predicate ReadysHandled(c: Config, s: State)
    requires |s.nodes| == c.n
  {
    forall i, j, v :: c.Honest(i) && c.Honest(j) && BMsg(i, READY, v) in s.net ==>
      s.nodes[j].broadcastDone || Receipt(OfDigest(v), i) in s.nodes[j].readyReceived
  }

  /** One done node makes every node ready. */
  lemma AllAreReady(c: Config, p: Params, s: State, i: int, j: int)
    requires Inv(c, p, s) && ReadysHandled(c, s) && c.Honest(i) && c.Honest(j)
    requires s.nodes[i].broadcastDone
    ensures s.nodes[j].ready
  {
    var v := s.nodes[i].broadcastValue;
    if !s.nodes[j].broadcastDone {
      var senders := Senders(s.nodes[i].readyReceived, OfDigest(v));
      HonestPart(c, senders);
      var mine := Senders(s.nodes[j].readyReceived, OfDigest(v));
      forall k | k in senders - c.faulty ensures k in mine {
        assert BMsg(k, READY, v) in s.net;
        assert Receipt(OfDigest(v), k) in s.nodes[j].readyReceived;
      }
      SubsetSize(senders - c.faulty, mine);
    }
  }

  lemma ReadySpreads(c: Config, p: Params, s: State, i: int, j: int)
    requires Inv(c, p, s) && ReadysHandled(c, s) && c.Honest(i) && c.Honest(j)
    requires s.nodes[i].broadcastDone
    ensures BMsg(j, READY, s.nodes[i].broadcastValue) in s.net
  {
    AllAreReady(c, p, s, i, j);
    var w :| BMsg(j, READY, w) in s.net;
    DoneIsReady(c, p, s, i);
    var a :| c.Honest(a) && BMsg(a, READY, s.nodes[i].broadcastValue) in s.net;
    ReadysAgree(c, p, s, a, j, s.nodes[i].broadcastValue, w);
  }

  lemma AllDone(c: Config, p: Params, s: State, i: int, j: int)
    requires Inv(c, p, s) && ReadysHandled(c, s) && c.Honest(i) && c.Honest(j)
    requires s.nodes[i].broadcastDone
    ensures s.nodes[j].broadcastDone
  {
    if !s.nodes[j].broadcastDone {
      var v := s.nodes[i].broadcastValue;
      var mine := Senders(s.nodes[j].readyReceived, OfDigest(v));
      forall k | k in c.HonestIds() ensures k in mine {
        ReadySpreads(c, p, s, i, k);
        assert Receipt(OfDigest(v), k) in s.nodes[j].readyReceived;
      }
      HonestCount(c);
      SubsetSize(c.HonestIds(), mine);
    }
  }

  /** Totality: once all honest READYs are processed, one honest node is done only if all are,
      with the same value; a done node is ready. */
  lemma Totality(c: Config, p: Params, inputs: seq<Option<BlockShare>>, steps: seq<Step>)
    requires ValidSetup(c, p) && |inputs| == c.n
    ensures var s := Run(c, p, inputs, steps);
      && |s.nodes| == c.n
      && (forall i :: c.Honest(i) && s.nodes[i].broadcastDone ==> s.nodes[i].ready)
      && (ReadysHandled(c, s) ==>
            forall i, j :: c.Honest(i) && c.Honest(j) && s.nodes[i].broadcastDone ==>
              s.nodes[j].broadcastDone && s.nodes[j].broadcastValue == s.nodes[i].broadcastValue)
  {
    RunInv(c, p, inputs, steps);
    var s := Run(c, p, inputs, steps);
    if ReadysHandled(c, s) {
      forall i, j | c.Honest(i) && c.Honest(j) && s.nodes[i].broadcastDone
        ensures s.nodes[j].broadcastDone && s.nodes[j].broadcastValue == s.nodes[i].broadcastValue
      {
        AllDone(c, p, s, i, j);
        DonesAgree(c, p, s, i, j);
      }
    }
  }
}
