/** How the committee ends a broadcast, whoever the sender is: a member that is done relays the
    value it hears of, and enough members' messages make everybody return. */
module BroadcastExit {
  import opened Quorums
  import opened Blocks
  import opened Tables
  import opened Certificates
  import opened Broadcast
  import opened BroadcastSafety
  import opened BroadcastProgress
  import opened BroadcastFeed

  // ---- When a member vouches

  /** A member has its own committee message for this hash in the network. */
  ghost predicate HasVouched(i: int, hash: Digest, net: set<Msg>) {
    exists share :: CMsg(i, share, hash, OwnProof(i)) in net
  }

  /** A committee message of a member, with a value of its hash and the dealer's signature on the
      member's number. */
  predicate Proves(p: Params, m: Msg)
    requires m.CMsg?
  {
    m.sender in p.committee && m.hash == ShareHash(m.share) && m.proof.doc == OfNumber(m.sender)
  }

  /** The turn in which a member i handles m makes it vouch: it is done and hears another member
      vouch for its value, or ends the turn done and with a value of that hash from the sender. */
  ghost predicate Occasion(p: Params, i: int, nd: Node, m: Msg) {
    var nd1 := OnMessage(p, i, nd, m).node;
    || (nd.broadcastDone && m.CMsg? && Proves(p, m) && m.hash == nd.broadcastValue)
    || (nd1.broadcastDone && nd1.output.None? && nd1.senderSent && nd1.senderValue.Some?
        && ShareHash(nd1.senderValue.value) == nd1.broadcastValue)
  }

  lemma VouchIs(i: int, share: BlockShare, hash: Digest, m: Msg)
    ensures m in Vouch(i, share, hash) <==> m == CMsg(i, share, hash, OwnProof(i)) && ShareHash(share) == hash
  {
  }

  ghost predicate Vouches(i: int, sent: seq<Msg>) {
    exists x :: x in sent && x.CMsg?
  }

  /** The committee messages of a node are on its value, with its own proof. */
  ghost predicate OwnWords(i: int, sent: seq<Msg>, hash: Digest) {
    forall x :: x in sent && x.CMsg? ==> x.sender == i && x.proof == OwnProof(i) && x.hash == hash
  }

  lemma VouchOnce(i: int, share: BlockShare, hash: Digest)
    ensures Vouches(i, Vouch(i, share, hash)) <==> ShareHash(share) == hash
    ensures OwnWords(i, Vouch(i, share, hash), hash)
  {
    VouchIs(i, share, hash, CMsg(i, share, hash, OwnProof(i)));
  }

  lemma HandleVouches(p: Params, i: int, nd: Node, m: Msg)
    requires i in p.committee
    ensures var h := Handle(p, i, nd, m);
      && (Vouches(i, h.sent) <==> nd.broadcastDone && m.CMsg? && Proves(p, m) && m.hash == nd.broadcastValue)
      && OwnWords(i, h.sent, h.node.broadcastValue)
  {
    match m
    case BMsg(_, _, _) => BrachaVouches(p, i, nd, m);
    case CMsg(_, share, _, _) => VouchOnce(i, share, nd.broadcastValue);
    case SMsg(_, _) =>
  }

  lemma BrachaVouches(p: Params, i: int, nd: Node, m: Msg)
    requires m.BMsg?
    ensures !Vouches(i, OnBracha(p, i, nd, m).sent)
  {
  }

  lemma TopVouches(p: Params, i: int, nd: Node)
    requires i in p.committee
    ensures Vouches(i, LoopTop(p, i, nd)) <==>
            && nd.broadcastDone && nd.output.None? && nd.senderSent && nd.senderValue.Some?
            && ShareHash(nd.senderValue.value) == nd.broadcastValue
    ensures OwnWords(i, LoopTop(p, i, nd), nd.broadcastValue)
  {
    if nd.senderValue.Some? {
      VouchOnce(i, nd.senderValue.value, nd.broadcastValue);
    }
  }

  lemma VouchesBoth(i: int, a: seq<Msg>, b: seq<Msg>)
    ensures Vouches(i, a + b) <==> Vouches(i, a) || Vouches(i, b)
  {
    if x :| x in a && x.CMsg? {
      assert x in a + b;
    }
    if x :| x in b && x.CMsg? {
      assert x in a + b;
    }
  }

  /** What a turn adds to the committee messages of its node. */
  lemma TurnVouches(p: Params, i: int, nd: Node, m: Msg)
    requires i in p.committee
    ensures Vouches(i, OnMessage(p, i, nd, m).sent) <==> Occasion(p, i, nd, m)
    ensures var o := OnMessage(p, i, nd, m); OwnWords(i, o.sent, o.node.broadcastValue)
  {
    var h := Handle(p, i, nd, m);
    HandleVouches(p, i, nd, m);
    TopVouches(p, i, h.node);
    VouchesBoth(i, h.sent, LoopTop(p, i, h.node));
  }

  /** Step k of the run is such a turn of node i. */
  ghost predicate OccasionAt(c: Config, p: Params, inputs: seq<Option<BlockShare>>, steps: seq<Step>, i: int, k: nat)
    requires k < |steps| && c.Honest(i)
  {
    var s := Run(c, p, inputs, steps[..k]);
    Enabled(c, s, steps[k]) && steps[k].Deliver? && steps[k].i == i && Occasion(p, i, s.nodes[i], steps[k].m)
  }

  ghost predicate SomeOccasion(c: Config, p: Params, inputs: seq<Option<BlockShare>>, steps: seq<Step>, i: int)
    requires c.Honest(i)
  {
    exists k :: 0 <= k < |steps| && OccasionAt(c, p, inputs, steps, i, k)
  }

  lemma OccasionSplit(c: Config, p: Params, inputs: seq<Option<BlockShare>>, steps: seq<Step>, i: int)
    requires steps != [] && c.Honest(i)
    ensures SomeOccasion(c, p, inputs, steps, i) <==>
            (SomeOccasion(c, p, inputs, steps[..|steps| - 1], i) || OccasionAt(c, p, inputs, steps, i, |steps| - 1))
  {
    var before := steps[..|steps| - 1];
    forall k | 0 <= k < |before|
      ensures OccasionAt(c, p, inputs, steps, i, k) <==> OccasionAt(c, p, inputs, before, i, k)
    {
      assert steps[..k] == before[..k];
    }
  }

  ghost predicate Vouching(i: int, net: set<Msg>) {
    exists x :: x in net && x.CMsg? && x.sender == i
  }

  lemma StepVouches(c: Config, p: Params, s: State, step: Step, i: int)
    requires c.Honest(i) && |s.nodes| == c.n && i in p.committee
    ensures Vouching(i, Do(c, p, s, step).net) <==>
            Vouching(i, s.net)
            || (Enabled(c, s, step) && step.Deliver? && step.i == i && Occasion(p, i, s.nodes[i], step.m))
  {
    var s1 := Do(c, p, s, step);
    assert Vouching(i, s.net) ==> Vouching(i, s1.net);
    if Enabled(c, s, step) && step.Deliver? {
      OwnName(p, step.i, s.nodes[step.i], step.m);
      if step.i == i {
        TurnVouches(p, i, s.nodes[i], step.m);
      }
    }
  }

  /** In every run an honest member has a committee message out if and only if it has had occasion:
      done, it heard a member vouch for its value, or it held a value of that hash. */
  lemma {:induction false} VouchedExactly(c: Config, p: Params, inputs: seq<Option<BlockShare>>, steps: seq<Step>,
                                          i: int)
    requires c.Honest(i) && |inputs| == c.n && i in p.committee
    ensures Vouching(i, Run(c, p, inputs, steps).net) <==> SomeOccasion(c, p, inputs, steps, i)
    ensures |Run(c, p, inputs, steps).nodes| == c.n
  {
    if steps != [] {
      VouchedExactly(c, p, inputs, steps[..|steps| - 1], i);
      OccasionSplit(c, p, inputs, steps, i);
      StepVouches(c, p, Run(c, p, inputs, steps[..|steps| - 1]), steps[|steps| - 1], i);
    }
  }

  // ---- One member's message makes the others vouch

  lemma Relays(p: Params, i: int, nd: Node, m: Msg)
    requires i in p.committee && nd.broadcastDone && m.CMsg? && ValidCommitteeMsg(p, m) && m.hash == nd.broadcastValue
    ensures CMsg(i, m.share, m.hash, OwnProof(i)) in OnMessage(p, i, nd, m).sent
  {
    VouchIs(i, m.share, m.hash, CMsg(i, m.share, m.hash, OwnProof(i)));
    assert CMsg(i, m.share, m.hash, OwnProof(i)) in Handle(p, i, nd, m).sent;
  }

  /** In every run, an honest member that is done and has not returned sends on what it handles of a
      committee message for its value: that share, in its own name. */
  lemma RelaysNow(c: Config, p: Params, inputs: seq<Option<BlockShare>>, steps: seq<Step>, i: int, m: Msg)
    requires |inputs| == c.n && i in p.committee && m.CMsg? && ValidCommitteeMsg(p, m)
    requires Enabled(c, Run(c, p, inputs, steps), Deliver(i, m))
    requires var nd := Run(c, p, inputs, steps).nodes[i]; nd.broadcastDone && nd.broadcastValue == m.hash
    ensures CMsg(i, m.share, m.hash, OwnProof(i)) in Run(c, p, inputs, steps + [Deliver(i, m)]).net
  {
    RunMore(c, p, inputs, steps, Deliver(i, m));
    Relays(p, i, Run(c, p, inputs, steps).nodes[i], m);
  }

  /** The node is done; a member that has noted a committee message for its value has vouched for it. */
  ghost predicate Relaying(p: Params, i: int, nd: Node, net: set<Msg>) {
    && nd.broadcastDone
    && (i in p.committee && Senders(nd.committeeReceived, nd.broadcastValue) != {} ==>
          HasVouched(i, nd.broadcastValue, net))
  }

  /** A done node keeps its value, and notes a committee message only from a valid one. */
  lemma DoneTurn(p: Params, i: int, nd: Node, m: Msg)
    requires nd.broadcastDone
    ensures var nd1 := OnMessage(p, i, nd, m).node;
      && nd1.broadcastDone && nd1.broadcastValue == nd.broadcastValue
      && (nd1.committeeReceived == nd.committeeReceived
          || (m.CMsg? && ValidCommitteeMsg(p, m)
              && nd1.committeeReceived == nd.committeeReceived + {Receipt(m.hash, m.sender)}))
  {
  }

  lemma RelayingKeeps(p: Params, i: int, nd: Node, net: set<Msg>, m: Msg)
    requires Relaying(p, i, nd, net)
    ensures var o := OnMessage(p, i, nd, m); Relaying(p, i, o.node, net + Members(o.sent))
  {
    var o := OnMessage(p, i, nd, m);
    var v := nd.broadcastValue;
    DoneTurn(p, i, nd, m);
    if i in p.committee && Senders(o.node.committeeReceived, v) != {} {
      if Senders(nd.committeeReceived, v) != {} {
        var share :| CMsg(i, share, v, OwnProof(i)) in net;
        assert CMsg(i, share, v, OwnProof(i)) in net + Members(o.sent);
      } else {
        var j :| j in Senders(o.node.committeeReceived, v);
        assert j !in Senders(nd.committeeReceived, v);
        assert Receipt(v, j) in o.node.committeeReceived && Receipt(v, j) !in nd.committeeReceived;
        Relays(p, i, nd, m);
        assert CMsg(i, m.share, v, OwnProof(i)) in net + Members(o.sent);
      }
    }
  }

  lemma RelayingGrows(p: Params, i: int, nd: Node, net: set<Msg>, net1: set<Msg>)
    requires Relaying(p, i, nd, net) && net <= net1
    ensures Relaying(p, i, nd, net1)
  {
    if HasVouched(i, nd.broadcastValue, net) {
      var share :| CMsg(i, share, nd.broadcastValue, OwnProof(i)) in net;
      assert CMsg(i, share, nd.broadcastValue, OwnProof(i)) in net1;
    }
  }

  ghost predicate AllRelaying(c: Config, p: Params, s: State)
    requires |s.nodes| == c.n
  {
    forall i :: c.Honest(i) ==> Relaying(p, i, s.nodes[i], s.net)
  }

  lemma StepRelays(c: Config, p: Params, s: State, step: Step)
    requires |s.nodes| == c.n && AllRelaying(c, p, s)
    ensures var s1 := Do(c, p, s, step); |s1.nodes| == c.n && AllRelaying(c, p, s1)
  {
    var s1 := Do(c, p, s, step);
    forall i | c.Honest(i) ensures Relaying(p, i, s1.nodes[i], s1.net) {
      if Enabled(c, s, step) && step.Deliver? && step.i == i {
        RelayingKeeps(p, i, s.nodes[i], s.net, step.m);
      } else {
        RelayingGrows(p, i, s.nodes[i], s.net, s1.net);
        assert Enabled(c, s, step) && step.Launch? && step.i == i ==>
            s1.nodes[i] == s.nodes[i].(started := true);
      }
    }
  }

  /** All honest nodes are done, and none has noted a committee message for its value yet. */
  ghost predicate DoneFirst(c: Config, s: State)
    requires |s.nodes| == c.n
  {
    forall i :: c.Honest(i) ==>
      s.nodes[i].broadcastDone && Senders(s.nodes[i].committeeReceived, s.nodes[i].broadcastValue) == {}
  }

  lemma {:induction false} RunRelaying(c: Config, p: Params, inputs: seq<Option<BlockShare>>, before: seq<Step>,
                                       after: seq<Step>)
    requires |Run(c, p, inputs, before).nodes| == c.n && DoneFirst(c, Run(c, p, inputs, before))
    ensures var s := Run(c, p, inputs, before + after); |s.nodes| == c.n && AllRelaying(c, p, s)
  {
    if after == [] {
      assert before + after == before;
    } else {
      var last := |after| - 1;
      RunRelaying(c, p, inputs, before, after[..last]);
      assert before + after == (before + after[..last]) + [after[last]];
      RunMore(c, p, inputs, before + after[..last], after[last]);
      StepRelays(c, p, Run(c, p, inputs, before + after[..last]), after[last]);
    }
  }

  // ---- Everybody returns

  /** Every honest node that has not returned has noted every honest committee message. */
  ghost predicate CommitteeHeard(c: Config, s: State)
    requires |s.nodes| == c.n
  {
    forall i, m :: c.Honest(i) && m in s.net && m.CMsg? && c.Honest(m.sender) ==>
      s.nodes[i].output.Some? || Receipt(m.hash, m.sender) in s.nodes[i].committeeReceived
  }

  /** The honest members that have vouched. */
  ghost function Vouchers(c: Config, p: Params, s: State): set<int> {
    set i | i in p.committee - c.faulty && Vouching(i, s.net)
  }

  lemma VoucherHash(c: Config, p: Params, s: State, i: int, j: int)
    requires Inv(c, p, s) && i in Vouchers(c, p, s) && j in Vouchers(c, p, s)
    ensures s.nodes[i].broadcastDone && s.nodes[i].broadcastValue == s.nodes[j].broadcastValue
    ensures Vouched(s.net, i, s.nodes[i].broadcastValue)
  {
    assert NodeInv(p, i, s.nodes[i], s.net) && NodeInv(p, j, s.nodes[j], s.net);
    var x :| x in s.net && x.CMsg? && x.sender == i;
    var y :| y in s.net && y.CMsg? && y.sender == j;
    DonesAgree(c, p, s, i, j);
  }

  lemma EnoughReturn(c: Config, p: Params, inputs: seq<Option<BlockShare>>, s: State, j: int)
    requires Inv(c, p, s) && AllActive(c, p, inputs, s) && CommitteeHeard(c, s) && c.Honest(j)
    requires |Vouchers(c, p, s)| >= p.tk + 1
    ensures s.nodes[j].output.Some?
  {
    assert Active(p, j, s.nodes[j], s.net);
    if s.nodes[j].output.None? {
      Inhabited(Vouchers(c, p, s));
      var a :| a in Vouchers(c, p, s);
      var v := s.nodes[a].broadcastValue;
      var mine := Senders(s.nodes[j].committeeReceived, v);
      forall k | k in Vouchers(c, p, s) ensures k in mine {
        VoucherHash(c, p, s, k, a);
        var m :| m in s.net && m.CMsg? && m.sender == k && m.hash == v;
        assert Receipt(v, k) in s.nodes[j].committeeReceived;
      }
      SubsetSize(Vouchers(c, p, s), mine);
    }
  }

  /** In every run, whoever the sender is: once more than tk honest members have vouched and their
      messages are heard, every honest node has returned. */
  lemma EnoughVouchers(c: Config, p: Params, inputs: seq<Option<BlockShare>>, steps: seq<Step>)
    requires ValidSetup(c, p) && |inputs| == c.n
    ensures var s := Run(c, p, inputs, steps);
      && |s.nodes| == c.n
      && (CommitteeHeard(c, s) && |Vouchers(c, p, s)| >= p.tk + 1 ==>
            forall i :: c.Honest(i) ==> s.nodes[i].output.Some?)
  {
    RunInv(c, p, inputs, steps);
    RunActive(c, p, inputs, steps);
    var s := Run(c, p, inputs, steps);
    if CommitteeHeard(c, s) && |Vouchers(c, p, s)| >= p.tk + 1 {
      forall i | c.Honest(i) ensures s.nodes[i].output.Some? {
        EnoughReturn(c, p, inputs, s, i);
      }
    }
  }

  /** Whoever has returned has noted messages on its value. */
  lemma ReturnedNoted(c: Config, p: Params, s: State, j: int)
    requires Inv(c, p, s) && c.Honest(j) && s.nodes[j].broadcastDone && s.nodes[j].output.Some?
    ensures Senders(s.nodes[j].committeeReceived, s.nodes[j].broadcastValue) != {}
  {
    var nd := s.nodes[j];
    OutputIsBroadcast(c, p, s, j);
    var a :| c.Honest(a) && s.nodes[a].broadcastDone && s.nodes[a].broadcastValue == ShareHash(nd.output.value);
    DonesAgree(c, p, s, a, j);
    assert NodeInv(p, j, nd, s.net);
  }

  /** One voucher whose message is heard makes every honest member vouch. */
  lemma OneMakesAll(c: Config, p: Params, s: State, k: int, j: int)
    requires Inv(c, p, s) && AllRelaying(c, p, s) && CommitteeHeard(c, s)
    requires k in Vouchers(c, p, s) && j in p.committee - c.faulty
    ensures j in Vouchers(c, p, s)
  {
    VoucherHash(c, p, s, k, k);
    var v := s.nodes[k].broadcastValue;
    assert c.Honest(j) && c.Honest(k);
    DonesAgree(c, p, s, k, j);
    var m :| m in s.net && m.CMsg? && m.sender == k && m.hash == v;
    var nd := s.nodes[j];
    if nd.output.Some? {
      ReturnedNoted(c, p, s, j);
    } else {
      assert Receipt(v, k) in nd.committeeReceived;
      assert k in Senders(nd.committeeReceived, v);
    }
    var share :| CMsg(j, share, v, OwnProof(j)) in s.net;
  }

  /** The exit needs one honest voucher, whoever the sender is: if the honest nodes are done before
      the committee's messages on the value get to them, and there are more than tk honest members,
      then one committee message of an honest member, with all such messages heard, makes every
      honest member vouch and every honest node return. */
  lemma OneVoucherSuffices(c: Config, p: Params, inputs: seq<Option<BlockShare>>, before: seq<Step>, after: seq<Step>)
    requires ValidSetup(c, p) && |inputs| == c.n && |p.committee - c.faulty| >= p.tk + 1
    requires |Run(c, p, inputs, before).nodes| == c.n && DoneFirst(c, Run(c, p, inputs, before))
    ensures var s := Run(c, p, inputs, before + after);
      && |s.nodes| == c.n
      && (CommitteeHeard(c, s) && Vouchers(c, p, s) != {} ==>
            && Vouchers(c, p, s) == p.committee - c.faulty
            && forall i :: c.Honest(i) ==> s.nodes[i].output.Some?)
  {
    RunInv(c, p, inputs, before + after);
    RunRelaying(c, p, inputs, before, after);
    EnoughVouchers(c, p, inputs, before + after);
    var s := Run(c, p, inputs, before + after);
    if CommitteeHeard(c, s) && Vouchers(c, p, s) != {} {
      var k :| k in Vouchers(c, p, s);
      forall j | j in p.committee - c.faulty ensures j in Vouchers(c, p, s) {
        OneMakesAll(c, p, s, k, j);
      }
      assert Vouchers(c, p, s) == p.committee - c.faulty;
    }
  }

  /** In every run an honest node notes a committee message only if a member has sent one: with a value
      of the hash noted, and the dealer's signature on its number. */
  lemma NotesAreBacked(c: Config, p: Params, inputs: seq<Option<BlockShare>>, steps: seq<Step>, i: int, x: Receipt)
    requires ValidSetup(c, p) && |inputs| == c.n && c.Honest(i)
    ensures |Run(c, p, inputs, steps).nodes| == c.n
    ensures var s := Run(c, p, inputs, steps);
      x in s.nodes[i].committeeReceived ==>
        exists m :: m in s.net && m.CMsg? && m.sender == x.sender && m.hash == x.hash && Proves(p, m)
  {
    RunInv(c, p, inputs, steps);
    var s := Run(c, p, inputs, steps);
    assert NodeInv(p, i, s.nodes[i], s.net);
    if x in s.nodes[i].committeeReceived {
      assert Vouched(s.net, x.sender, x.hash);
    }
  }
}
