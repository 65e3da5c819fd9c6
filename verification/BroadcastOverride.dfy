/** How a faulty node takes over the broadcast of an honest sender, in any setup: a VAL counts from
    whomever it comes, so a faulty node that is faster has its own value put out by everybody, or two
    values of one hash by different nodes. */
module BroadcastOverride {
  import opened Quorums
  import opened Blocks
  import opened Tables
  import opened Certificates
  import opened Broadcast
  import opened BroadcastSafety
  import opened BroadcastFeed

  // ---- One node, stage by stage; hash is that of the faulty node's value

  /** Receipts for the hash from these senders. */
  function From(hash: Digest, ids: set<int>): set<Receipt> {
    set i | i in ids :: Receipt(hash, i)
  }

  lemma FromSenders(hash: Digest, ids: set<int>)
    ensures Senders(From(hash, ids), hash) == ids
  {
    forall i | i in ids ensures i in Senders(From(hash, ids), hash) {
      assert Receipt(hash, i) in From(hash, ids);
    }
  }

  lemma FromMore(hash: Digest, ids: set<int>, i: int)
    ensures From(hash, ids) + {Receipt(hash, i)} == From(hash, ids + {i})
  {
  }

  /** The node has echoed, and has the ECHOs of the honest nodes below k. */
  function Echoing(c: Config, p: Params, value: Option<BlockShare>, hash: Digest, k: nat): Node {
    Begun(value).(initialVal := true, echoReceived := From(OfDigest(hash), HonestBelow(c, k)),
                  ready := |HonestBelow(c, k)| >= p.n - p.t)
  }

  lemma FirstVal(c: Config, p: Params, id: int, value: Option<BlockShare>, f: int, hash: Digest)
    requires p.t < p.n
    ensures Fed(p, id, Begun(value), [BMsg(f, VAL, hash)]) ==
            Outcome(Echoing(c, p, value, hash, 0), [BMsg(id, ECHO, hash)])
  {
    FedOne(p, id, Begun(value), [], BMsg(f, VAL, hash));
    assert [] + [BMsg(f, VAL, hash)] == [BMsg(f, VAL, hash)];
    assert HonestBelow(c, 0) == {} && From(OfDigest(hash), {}) == {};
  }

  function EchoOf(hash: Digest): int -> Msg {
    (i: int) => BMsg(i, ECHO, hash)
  }

  function ReadyOf(hash: Digest): int -> Msg {
    (i: int) => BMsg(i, READY, hash)
  }

  lemma NextEcho(c: Config, p: Params, id: int, value: Option<BlockShare>, hash: Digest, k: nat)
    requires c.Honest(k)
    ensures OnMessage(p, id, Echoing(c, p, value, hash, k), BMsg(k, ECHO, hash)) ==
            Outcome(Echoing(c, p, value, hash, k + 1),
                    if |HonestBelow(c, k)| < p.n - p.t <= |HonestBelow(c, k + 1)| then [BMsg(id, READY, hash)] else [])
  {
    HonestNext(c, k);
    FromMore(OfDigest(hash), HonestBelow(c, k), k);
    FromSenders(OfDigest(hash), HonestBelow(c, k + 1));
    SubsetSize(HonestBelow(c, k), HonestBelow(c, k + 1));
  }

  lemma EchoNext(c: Config, p: Params, id: int, value: Option<BlockShare>, hash: Digest, o: Outcome, k: nat)
    requires o == EchoesTo(c, p, id, value, hash, k)
    ensures (if c.Honest(k) then ThenOne(p, id, o, EchoOf(hash)(k)) else o) == EchoesTo(c, p, id, value, hash, k + 1)
  {
    HonestNext(c, k);
    if c.Honest(k) {
      NextEcho(c, p, id, value, hash, k);
      SubsetSize(HonestBelow(c, k), HonestBelow(c, k + 1));
    } else {
      assert HonestBelow(c, k + 1) == HonestBelow(c, k);
    }
  }

  /** What the node has become and sent after the ECHOs of the honest nodes below k. */
  function EchoesTo(c: Config, p: Params, id: int, value: Option<BlockShare>, hash: Digest, k: nat): Outcome {
    Outcome(Echoing(c, p, value, hash, k),
            if |HonestBelow(c, k)| >= p.n - p.t then [BMsg(id, READY, hash)] else [])
  }

  lemma EchoesFed(c: Config, p: Params, id: int, value: Option<BlockShare>, hash: Digest, k: nat)
    requires p.t < p.n
    ensures Fed(p, id, Echoing(c, p, value, hash, 0), OfHonest(c, EchoOf(hash), k)) ==
            EchoesTo(c, p, id, value, hash, k)
  {
    var good := (i: nat, o: Outcome) => o == EchoesTo(c, p, id, value, hash, i);
    var none := HonestBelow(c, 0);
    assert none == {} && |none| == 0 < p.n - p.t;
    assert EchoesTo(c, p, id, value, hash, 0) == Outcome(Echoing(c, p, value, hash, 0), []);
    forall i: nat ensures HonestStep(c, p, id, EchoOf(hash), good, i) {
      forall o | good(i, o) ensures good(i + 1, if c.Honest(i) then ThenOne(p, id, o, EchoOf(hash)(i)) else o) {
        EchoNext(c, p, id, value, hash, o, i);
      }
    }
    HonestInduction(c, p, id, Echoing(c, p, value, hash, 0), EchoOf(hash), good, k);
  }

  /** A ready node with the READYs of the honest nodes below k, as far as it has counted them, and with
      what it has noted of the committee. */
  ghost predicate Counting(c: Config, p: Params, nd: Node, hash: Digest, noted: set<Receipt>, k: nat) {
    && nd.started && nd.ready && nd.output.None? && !nd.senderSent && nd.committeeReceived == noted
    && (nd.broadcastDone <==> |HonestBelow(c, k)| >= p.n - p.t)
    && (nd.broadcastDone ==> nd.broadcastValue == hash)
    && (!nd.broadcastDone ==> nd.readyReceived == From(OfDigest(hash), HonestBelow(c, k)))
  }

  lemma NextReady(c: Config, p: Params, id: int, nd: Node, hash: Digest, noted: set<Receipt>, k: nat)
    requires c.Honest(k) && Counting(c, p, nd, hash, noted, k)
    ensures var o := OnMessage(p, id, nd, BMsg(k, READY, hash));
      Counting(c, p, o.node, hash, noted, k + 1) && o.sent == []
  {
    HonestNext(c, k);
    FromMore(OfDigest(hash), HonestBelow(c, k), k);
    FromSenders(OfDigest(hash), HonestBelow(c, k + 1));
    SubsetSize(HonestBelow(c, k), HonestBelow(c, k + 1));
  }

  lemma CountNext(c: Config, p: Params, id: int, o: Outcome, hash: Digest, noted: set<Receipt>, k: nat)
    requires Counting(c, p, o.node, hash, noted, k) && o.sent == []
    ensures var o1 := if c.Honest(k) then ThenOne(p, id, o, ReadyOf(hash)(k)) else o;
      Counting(c, p, o1.node, hash, noted, k + 1) && o1.sent == []
  {
    if c.Honest(k) {
      NextReady(c, p, id, o.node, hash, noted, k);
    } else {
      assert HonestBelow(c, k + 1) == HonestBelow(c, k);
    }
  }

  lemma ReadysFed(c: Config, p: Params, id: int, nd: Node, hash: Digest, noted: set<Receipt>, k: nat)
    requires Counting(c, p, nd, hash, noted, 0)
    ensures var o := Fed(p, id, nd, OfHonest(c, ReadyOf(hash), k));
      Counting(c, p, o.node, hash, noted, k) && o.sent == []
  {
    var good := (i: nat, o: Outcome) => Counting(c, p, o.node, hash, noted, i) && o.sent == [];
    forall i: nat ensures HonestStep(c, p, id, ReadyOf(hash), good, i) {
      forall o | good(i, o) ensures good(i + 1, if c.Honest(i) then ThenOne(p, id, o, ReadyOf(hash)(i)) else o) {
        CountNext(c, p, id, o, hash, noted, i);
      }
    }
    HonestInduction(c, p, id, nd, ReadyOf(hash), good, k);
  }

  /** The node is done with the hash and has a value for it. */
  ghost predicate Done(nd: Node, hash: Digest) {
    nd.started && nd.broadcastDone && nd.broadcastValue == hash && nd.output.None? && nd.committeeReceived == {}
  }

  function VouchOf(b: BlockShare): int -> Msg {
    (i: int) => CMsg(i, b, ShareHash(b), OwnProof(i))
  }

  lemma ValueComes(p: Params, id: int, nd: Node, f: int, b: BlockShare)
    requires Done(nd, ShareHash(b))
    ensures var o := OnMessage(p, id, nd, SMsg(f, b));
      Done(o.node, ShareHash(b)) && (id in p.committee ==> VouchOf(b)(id) in o.sent)
  {
    var o := OnMessage(p, id, nd, SMsg(f, b));
    if id in p.committee {
      assert LoopTop(p, id, o.node) == [VouchOf(b)(id)];
    }
  }

  /** A done member vouches for two values of its hash, one after the other. */
  lemma ValuesFed(p: Params, id: int, nd: Node, f: int, b: BlockShare, b': BlockShare)
    requires Done(nd, ShareHash(b)) && ShareHash(b') == ShareHash(b)
    ensures var o := Fed(p, id, nd, [SMsg(f, b), SMsg(f, b')]);
      && Done(o.node, ShareHash(b))
      && (id in p.committee ==> VouchOf(b)(id) in o.sent && VouchOf(b')(id) in o.sent)
  {
    FedOne(p, id, nd, [], SMsg(f, b));
    FedOne(p, id, nd, [SMsg(f, b)], SMsg(f, b'));
    assert [] + [SMsg(f, b)] == [SMsg(f, b)] && [SMsg(f, b)] + [SMsg(f, b')] == [SMsg(f, b), SMsg(f, b')];
    ValueComes(p, id, nd, f, b);
    ValueComes(p, id, OnMessage(p, id, nd, SMsg(f, b)).node, f, b');
  }

  function MembersBelow(committee: set<int>, k: nat): set<int> {
    set i | i in committee && 0 <= i < k
  }

  /** The node has the messages of the members below k, and returns with the value when they are
      enough. */
  ghost predicate Tallying(p: Params, nd: Node, b: BlockShare, k: nat) {
    && (nd.output.None? ==>
          && nd.committeeReceived == From(ShareHash(b), MembersBelow(p.committee, k))
          && |MembersBelow(p.committee, k)| < p.tk + 1)
    && (nd.output.Some? ==> nd.output == Some(b))
  }

  lemma NextVouch(p: Params, id: int, nd: Node, b: BlockShare, k: nat)
    requires k in p.committee && Tallying(p, nd, b, k) && nd.output.None?
    ensures Tallying(p, OnMessage(p, id, nd, VouchOf(b)(k)).node, b, k + 1)
  {
    var hash := ShareHash(b);
    assert MembersBelow(p.committee, k + 1) == MembersBelow(p.committee, k) + {k};
    FromMore(hash, MembersBelow(p.committee, k), k);
    FromSenders(hash, MembersBelow(p.committee, k + 1));
  }

  lemma TallyNext(p: Params, id: int, o: Outcome, b: BlockShare, k: nat)
    requires Tallying(p, o.node, b, k)
    ensures Tallying(p, (if k in p.committee then ThenOne(p, id, o, VouchOf(b)(k)) else o).node, b, k + 1)
  {
    if k !in p.committee {
      assert MembersBelow(p.committee, k + 1) == MembersBelow(p.committee, k);
    } else if o.node.output.None? {
      NextVouch(p, id, o.node, b, k);
    }
  }

  lemma VouchesFed(p: Params, id: int, nd: Node, b: BlockShare, k: nat)
    requires Done(nd, ShareHash(b))
    ensures Tallying(p, Fed(p, id, nd, OfMembers(p.committee, VouchOf(b), k)).node, b, k)
  {
    var good := (i: nat, o: Outcome) => Tallying(p, o.node, b, i);
    assert MembersBelow(p.committee, 0) == {};
    forall i: nat ensures MemberStep(p, id, p.committee, VouchOf(b), good, i) {
      forall o | good(i, o) ensures good(i + 1, if i in p.committee then ThenOne(p, id, o, VouchOf(b)(i)) else o) {
        TallyNext(p, id, o, b, i);
      }
    }
    MemberInduction(p, id, nd, p.committee, VouchOf(b), good, k);
  }

  // ---- The run

  /** A faulty node f with two values of one hash; a is what the honest sender has. */
  datatype Plan = Plan(a: BlockShare, b: BlockShare, b': BlockShare, f: int)

  ghost predicate ValidPlan(c: Config, p: Params, inputs: seq<Option<BlockShare>>, plan: Plan) {
    && ValidSetup(c, p) && |inputs| == c.n && c.Honest(p.senderId) && inputs[p.senderId] == Some(plan.a)
    && plan.f in c.faulty && ShareHash(plan.b') == ShareHash(plan.b)
  }

  /** What the faulty nodes send: node f its VAL and its values, and faulty members vouch for them. */
  function FaultyMsgs(c: Config, p: Params, plan: Plan): seq<Msg> {
    [BMsg(plan.f, VAL, ShareHash(plan.b)), SMsg(plan.f, plan.b), SMsg(plan.f, plan.b')]
    + OfMembers(p.committee * c.faulty, VouchOf(plan.b), c.n)
    + OfMembers(p.committee * c.faulty, VouchOf(plan.b'), c.n)
  }

  ghost predicate Around(c: Config, p: Params, plan: Plan, net: set<Msg>) {
    SenderMsgs(p, plan.a) <= net && forall m :: m in FaultyMsgs(c, p, plan) ==> m in net
  }

  lemma Starts(c: Config, p: Params, inputs: seq<Option<BlockShare>>, plan: Plan) returns (steps: seq<Step>)
    requires ValidPlan(c, p, inputs, plan)
    ensures var s := Run(c, p, inputs, steps);
      && Around(c, p, plan, s.net) && |s.nodes| == c.n
      && forall j :: c.Honest(j) ==> s.nodes[j] == Begun(inputs[j])
  {
    var before := LaunchAll(c, p, inputs, plan.a, c.n);
    var ms := FaultyMsgs(c, p, plan);
    FaultySenders(c, p, plan);
    steps := ForgeAll(c, p, inputs, before, ms);
    assert forall m :: m in ms ==> m in Members(ms);
  }

  lemma FaultySenders(c: Config, p: Params, plan: Plan)
    requires plan.f in c.faulty
    ensures forall m :: m in FaultyMsgs(c, p, plan) ==> m.sender in c.faulty
  {
    MembersAre(p.committee * c.faulty, VouchOf(plan.b), c.n);
    MembersAre(p.committee * c.faulty, VouchOf(plan.b'), c.n);
  }

  ghost predicate Echoed(c: Config, p: Params, inputs: seq<Option<BlockShare>>, plan: Plan, s: State) {
    && Around(c, p, plan, s.net) && |s.nodes| == |inputs| == c.n
    && forall j :: c.Honest(j) ==>
         s.nodes[j] == Echoing(c, p, inputs[j], ShareHash(plan.b), 0) && BMsg(j, ECHO, ShareHash(plan.b)) in s.net
  }

  lemma Echoes(c: Config, p: Params, inputs: seq<Option<BlockShare>>, plan: Plan) returns (steps: seq<Step>)
    requires ValidPlan(c, p, inputs, plan)
    ensures Echoed(c, p, inputs, plan, Run(c, p, inputs, steps))
  {
    var before := Starts(c, p, inputs, plan);
    var s, hash := Run(c, p, inputs, before), ShareHash(plan.b);
    var lists := (j: int) => [BMsg(plan.f, VAL, hash)];
    var good := (j: int, o: Outcome) =>
      c.Honest(j) ==> o == Outcome(Echoing(c, p, inputs[j], hash, 0), [BMsg(j, ECHO, hash)]);
    assert BMsg(plan.f, VAL, hash) in FaultyMsgs(c, p, plan);
    forall j | c.Honest(j) ensures good(j, Fed(p, j, s.nodes[j], lists(j))) {
      FirstVal(c, p, j, inputs[j], plan.f, hash);
    }
    var outs;
    steps, outs := FeedGood(c, p, inputs, before, lists, good);
    assert forall j :: c.Honest(j) ==> BMsg(j, ECHO, hash) in outs[j].sent;
  }

  ghost predicate EveryReady(c: Config, p: Params, plan: Plan, s: State) {
    && Around(c, p, plan, s.net) && |s.nodes| == c.n
    && forall j :: c.Honest(j) ==>
         Counting(c, p, s.nodes[j], ShareHash(plan.b), {}, 0) && BMsg(j, READY, ShareHash(plan.b)) in s.net
  }

  lemma EchoesMake(c: Config, p: Params, id: int, value: Option<BlockShare>, hash: Digest)
    requires c.Valid() && p.n == c.n && p.t == c.t
    ensures var o := Fed(p, id, Echoing(c, p, value, hash, 0), OfHonest(c, EchoOf(hash), c.n));
      Counting(c, p, o.node, hash, {}, 0) && o.sent == [BMsg(id, READY, hash)]
  {
    HonestNext(c, 0);
    HonestCount(c);
    EchoesFed(c, p, id, value, hash, c.n);
    ReadyCounts(c, p, value, hash);
  }

  lemma Readys(c: Config, p: Params, inputs: seq<Option<BlockShare>>, plan: Plan) returns (steps: seq<Step>)
    requires ValidPlan(c, p, inputs, plan)
    ensures EveryReady(c, p, plan, Run(c, p, inputs, steps))
  {
    var before := Echoes(c, p, inputs, plan);
    var s, hash := Run(c, p, inputs, before), ShareHash(plan.b);
    var list := OfHonest(c, EchoOf(hash), c.n);
    var lists := (j: int) => list;
    HonestAre(c, EchoOf(hash), c.n);
    var good := (j: int, o: Outcome) => Counting(c, p, o.node, hash, {}, 0) && o.sent == [BMsg(j, READY, hash)];
    forall j | c.Honest(j) ensures good(j, Fed(p, j, s.nodes[j], lists(j))) {
      EchoesMake(c, p, j, inputs[j], hash);
    }
    var outs;
    steps, outs := FeedGood(c, p, inputs, before, lists, good);
    assert forall j :: c.Honest(j) ==> BMsg(j, READY, hash) in outs[j].sent;
  }

  lemma ReadyCounts(c: Config, p: Params, value: Option<BlockShare>, hash: Digest)
    requires p.t < p.n && |HonestBelow(c, c.n)| >= p.n - p.t
    ensures Counting(c, p, Echoing(c, p, value, hash, c.n), hash, {}, 0)
  {
    var none := HonestBelow(c, 0);
    assert none == {} && |none| == 0 < p.n - p.t;
    assert From(OfDigest(hash), none) == {};
  }

  ghost predicate EveryDone(c: Config, p: Params, plan: Plan, s: State) {
    Around(c, p, plan, s.net) && |s.nodes| == c.n && forall j :: c.Honest(j) ==> Done(s.nodes[j], ShareHash(plan.b))
  }

  lemma ReadysMake(c: Config, p: Params, id: int, nd: Node, hash: Digest)
    requires c.Valid() && p.n == c.n && p.t == c.t && Counting(c, p, nd, hash, {}, 0)
    ensures Done(Fed(p, id, nd, OfHonest(c, ReadyOf(hash), c.n)).node, hash)
  {
    HonestNext(c, 0);
    HonestCount(c);
    ReadysFed(c, p, id, nd, hash, {}, c.n);
  }

  lemma Dones(c: Config, p: Params, inputs: seq<Option<BlockShare>>, plan: Plan) returns (steps: seq<Step>)
    requires ValidPlan(c, p, inputs, plan)
    ensures EveryDone(c, p, plan, Run(c, p, inputs, steps))
  {
    var before := Readys(c, p, inputs, plan);
    var s, hash := Run(c, p, inputs, before), ShareHash(plan.b);
    var list := OfHonest(c, ReadyOf(hash), c.n);
    var lists := (j: int) => list;
    HonestAre(c, ReadyOf(hash), c.n);
    var good := (j: int, o: Outcome) => Done(o.node, hash);
    forall j | c.Honest(j) ensures good(j, Fed(p, j, s.nodes[j], lists(j))) {
      ReadysMake(c, p, j, s.nodes[j], hash);
    }
    var outs;
    steps, outs := FeedGood(c, p, inputs, before, lists, good);
  }

  /** All are done, and the whole committee vouches for both values. */
  ghost predicate EveryVouched(c: Config, p: Params, plan: Plan, s: State) {
    && EveryDone(c, p, plan, s)
    && forall j :: j in p.committee ==> VouchOf(plan.b)(j) in s.net && VouchOf(plan.b')(j) in s.net
  }

  lemma VouchBoth(c: Config, p: Params, inputs: seq<Option<BlockShare>>, plan: Plan) returns (steps: seq<Step>)
    requires ValidPlan(c, p, inputs, plan)
    ensures EveryVouched(c, p, plan, Run(c, p, inputs, steps))
  {
    var before := Dones(c, p, inputs, plan);
    var s := Run(c, p, inputs, before);
    var list := [SMsg(plan.f, plan.b), SMsg(plan.f, plan.b')];
    var lists := (j: int) => list;
    assert forall m :: m in list ==> m in FaultyMsgs(c, p, plan);
    var good := (j: int, o: Outcome) =>
      && Done(o.node, ShareHash(plan.b))
      && (j in p.committee ==> VouchOf(plan.b)(j) in o.sent && VouchOf(plan.b')(j) in o.sent);
    forall j | c.Honest(j) ensures good(j, Fed(p, j, s.nodes[j], lists(j))) {
      ValuesFed(p, j, s.nodes[j], plan.f, plan.b, plan.b');
    }
    var outs;
    steps, outs := FeedGood(c, p, inputs, before, lists, good);
    CommitteeVouched(c, p, plan, Run(c, p, inputs, steps), outs);
  }

  lemma CommitteeVouched(c: Config, p: Params, plan: Plan, s: State, outs: seq<Outcome>)
    requires EveryDone(c, p, plan, s) && p.committee <= Ids(c.n) && |outs| == c.n
    requires forall j :: c.Honest(j) ==> forall m :: m in outs[j].sent ==> m in s.net
    requires forall j :: c.Honest(j) && j in p.committee ==>
               VouchOf(plan.b)(j) in outs[j].sent && VouchOf(plan.b')(j) in outs[j].sent
    ensures EveryVouched(c, p, plan, s)
  {
    FaultyVouch(c, p, plan);
    forall j | j in p.committee ensures VouchOf(plan.b)(j) in s.net && VouchOf(plan.b')(j) in s.net {
      assert c.Honest(j) || j in c.faulty;
    }
  }

  lemma FaultyVouch(c: Config, p: Params, plan: Plan)
    requires p.committee <= Ids(c.n)
    ensures forall j :: j in p.committee && j in c.faulty ==>
              VouchOf(plan.b)(j) in FaultyMsgs(c, p, plan) && VouchOf(plan.b')(j) in FaultyMsgs(c, p, plan)
  {
    MembersAre(p.committee * c.faulty, VouchOf(plan.b), c.n);
    MembersAre(p.committee * c.faulty, VouchOf(plan.b'), c.n);
  }

  /** The sender is honest and has sent a; every honest node but one puts out b, and node i puts out b':
      any two values of one hash that a faulty node chooses. */
  lemma SenderOverridden(c: Config, p: Params, inputs: seq<Option<BlockShare>>, plan: Plan, i: int)
    returns (steps: seq<Step>)
    requires ValidPlan(c, p, inputs, plan) && |p.committee| >= p.tk + 1
    ensures var s := Run(c, p, inputs, steps);
      && SenderMsgs(p, plan.a) <= s.net && |s.nodes| == c.n
      && forall j :: c.Honest(j) ==> s.nodes[j].output == Some(if j == i then plan.b' else plan.b)
  {
    var before := VouchBoth(c, p, inputs, plan);
    var s := Run(c, p, inputs, before);
    var one, other := OfMembers(p.committee, VouchOf(plan.b), c.n), OfMembers(p.committee, VouchOf(plan.b'), c.n);
    var lists := (j: int) => if j == i then other else one;
    MembersAre(p.committee, VouchOf(plan.b), c.n);
    MembersAre(p.committee, VouchOf(plan.b'), c.n);
    var good := (j: int, o: Outcome) => o.node.output == Some(if j == i then plan.b' else plan.b);
    assert MembersBelow(p.committee, c.n) == p.committee;
    forall j | c.Honest(j) ensures good(j, Fed(p, j, s.nodes[j], lists(j))) {
      VouchesFed(p, j, s.nodes[j], if j == i then plan.b' else plan.b, c.n);
    }
    var outs;
    steps, outs := FeedGood(c, p, inputs, before, lists, good);
  }
}
