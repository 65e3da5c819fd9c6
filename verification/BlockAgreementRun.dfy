/** A run of block agreement without faults, for any number of nodes with n > 2t and any number of
    rounds: in each round all votes, the proposal and all commits are handled, and every node puts out
    the input of node 0, whoever leads the round. */
module BlockAgreementRun {
  import opened Quorums
  import opened Blocks
  import opened Tables
  import opened BlockAgreement
  import opened BlockAgreementSafety
  import opened BlockAgreementRounds
  import opened BlockAgreementProgress
  import opened BlockAgreementAdoption
  import opened BlockAgreementMessages

  // ---- Every node ticks

  lemma OrderExists<V>(m: map<int, V>)
    ensures exists order :: IsOrder(order, m)
  {
    var order := SomeOrder(m);
  }

  ghost function OrderOf<V>(m: map<int, V>): (order: seq<int>)
    ensures IsOrder(order, m)
  {
    OrderExists(m);
    var order :| IsOrder(order, m);
    order
  }

  ghost function PickOf(p: Params, received: map<int, Commit>, order: seq<int>): (pick: Digest)
    ensures GoodPick(p, received, order, pick)
  {
    if pick :| |Group(received, order, pick)| >= p.t + 1 then pick else Raw(0)
  }

  ghost function TickOf(p: Params, i: int, nd: Node): Outcome {
    var order := OrderOf(nd.received);
    OnTick(p, i, nd, order, PickOf(p, nd.received, order))
  }

  /** The first k nodes have ticked. */
  ghost predicate Ticked(p: Params, s: State, s1: State, k: nat) {
    && |s1.nodes| == |s.nodes| && k <= |s.nodes| && s1.clock == s.clock && s.net <= s1.net
    && (forall j :: k <= j < |s.nodes| ==> s1.nodes[j] == s.nodes[j])
    && (forall j :: 0 <= j < k ==>
          s1.nodes[j] == TickOf(p, j, s.nodes[j]).node && Members(TickOf(p, j, s.nodes[j]).sent) <= s1.net)
  }

  lemma TickOne(p: Params, s: State, s1: State, k: nat) returns (step: Step)
    requires k < |s.nodes| && Ticked(p, s, s1, k) && Live(s.nodes[k]) && s.nodes[k].ticks < s.clock
    ensures Ticked(p, s, Do(p, s1, step), k + 1)
  {
    var order := OrderOf(s.nodes[k].received);
    step := Tick(k, order, PickOf(p, s.nodes[k].received, order));
    assert Enabled(p, s1, step);
  }

  lemma {:induction false} TickUpTo(p: Params, inputs: seq<Option<BlockShare>>, before: seq<Step>, k: nat)
    returns (steps: seq<Step>)
    requires var s := Run(p, inputs, before);
      k <= |s.nodes| && forall j :: 0 <= j < k ==> Live(s.nodes[j]) && s.nodes[j].ticks < s.clock
    ensures Ticked(p, Run(p, inputs, before), Run(p, inputs, steps), k)
  {
    if k == 0 {
      steps := before;
    } else {
      var some := TickUpTo(p, inputs, before, k - 1);
      var step := TickOne(p, Run(p, inputs, before), Run(p, inputs, some), k - 1);
      RunStep(p, inputs, some, step);
      steps := some + [step];
    }
  }

  /** No node waits for a tick or for a notify: the clock may move. */
  ghost predicate InStep(p: Params, s: State) {
    && s.clock + 1 < 7 * p.kappa
    && forall j :: 0 <= j < |s.nodes| ==>
         Live(s.nodes[j]) && !s.nodes[j].pc.AwaitNotify? && s.nodes[j].ticks == s.clock
  }

  lemma Beat(p: Params, inputs: seq<Option<BlockShare>>, before: seq<Step>) returns (steps: seq<Step>)
    requires InStep(p, Run(p, inputs, before))
    ensures var s := Run(p, inputs, before);
      Ticked(p, s.(clock := s.clock + 1), Run(p, inputs, steps), |s.nodes|)
  {
    RunStep(p, inputs, before, Clock);
    steps := TickUpTo(p, inputs, before + [Clock], |Run(p, inputs, before).nodes|);
  }

  // ---- Every node handles the same messages

  lemma FeedOne(p: Params, s: State, i: int, m: Msg)
    requires 0 <= i < |s.nodes| && m in s.net
    ensures Do(p, s, Receive(i, m)) ==
            s.(nodes := s.nodes[i := if Reads(i, s.nodes[i], m) then OnMessage(p, i, s.nodes[i], m).node
                                     else s.nodes[i]])
  {
    if Reads(i, s.nodes[i], m) {
      MessageForwards(p, i, s.nodes[i], m);
      assert s.net + Members(OnMessage(p, i, s.nodes[i], m).sent) == s.net;
    }
  }

  lemma {:induction false} Feed(p: Params, inputs: seq<Option<BlockShare>>, before: seq<Step>, i: int, ms: seq<Msg>)
    returns (steps: seq<Step>)
    requires var s := Run(p, inputs, before); 0 <= i < |s.nodes| && forall m :: m in ms ==> m in s.net
    ensures var s := Run(p, inputs, before);
      Run(p, inputs, steps) == s.(nodes := s.nodes[i := Fed(p, i, s.nodes[i], ms)])
  {
    if ms == [] {
      steps := before;
    } else {
      var some := Feed(p, inputs, before, i, ms[..|ms| - 1]);
      var m := ms[|ms| - 1];
      assert m in ms;
      FeedOne(p, Run(p, inputs, some), i, m);
      RunStep(p, inputs, some, Receive(i, m));
      steps := some + [Receive(i, m)];
    }
  }

  /** The first k nodes have handled the messages. */
  ghost predicate FedTo(p: Params, s: State, s1: State, ms: seq<Msg>, k: nat) {
    && |s1.nodes| == |s.nodes| && k <= |s.nodes| && s1.clock == s.clock && s1.net == s.net
    && forall j :: 0 <= j < |s.nodes| ==>
         s1.nodes[j] == if j < k then Fed(p, j, s.nodes[j], ms) else s.nodes[j]
  }

  lemma {:induction false} FeedAll(p: Params, inputs: seq<Option<BlockShare>>, before: seq<Step>, ms: seq<Msg>, k: nat)
    returns (steps: seq<Step>)
    requires var s := Run(p, inputs, before); k <= |s.nodes| && forall m :: m in ms ==> m in s.net
    ensures FedTo(p, Run(p, inputs, before), Run(p, inputs, steps), ms, k)
  {
    if k == 0 {
      steps := before;
    } else {
      var some := FeedAll(p, inputs, before, ms, k - 1);
      steps := Feed(p, inputs, some, k - 1, ms);
    }
  }

  // ---- A round

  /** vs[j] is the vote of node j in round r. All blocks pass the checks, and the leader is a node. */
  ghost predicate Fair(p: Params, vs: seq<Vote>, r: int) {
    && |vs| == p.n > 2 * p.t && 0 <= r < p.kappa && 0 <= p.leader(r) < p.n
    && forall j :: 0 <= j < p.n ==> vs[j].round == r && CheckShare(p, vs[j].share) == Accept
  }

  function VoteOf(vs: seq<Vote>, j: int): VoteMsg
    requires 0 <= j < |vs|
  {
    VoteMsg(j, vs[j], true)
  }

  function Votes(vs: seq<Vote>, k: nat): map<int, VoteMsg>
    requires k <= |vs|
  {
    map j | 0 <= j < k :: VoteOf(vs, j)
  }

  function VoteMsgs(p: Params, vs: seq<Vote>, r: int, k: nat): seq<Msg>
    requires k <= |vs|
  {
    seq(k, j requires 0 <= j < k => VoteTo(r, p.leader(r), VoteOf(vs, j)))
  }

  /** The leader proposes the vote of node 0: all are of one round, and its index is the lowest. */
  function Proposed(p: Params, vs: seq<Vote>, r: int): Proposal
    requires |vs| > 0
  {
    Proposal(p.leader(r), vs[0], Votes(vs, |vs|), Some(true))
  }

  function CommitOf(b: BlockShare, r: int, j: int): Commit {
    Commit(j, r, b, true)
  }

  function CommitMap(b: BlockShare, r: int, k: nat): map<int, Commit> {
    map j | 0 <= j < k :: CommitOf(b, r, j)
  }

  function CommitMsgs(b: BlockShare, r: int, k: nat): seq<Msg> {
    seq(k, j requires 0 <= j < k => CommitOn(r, CommitOf(b, r, j)))
  }

  /** Where node j is in round r: 0 at the start, 1 votes are in, 2 proposed, 3 reads proposals, 4 has
      the leader's, 5 collects commits, 6 has them, 7 has notified, 8 has put out the block. */
  ghost predicate At(p: Params, vs: seq<Vote>, r: int, outs: seq<BlockShare>, j: int, nd: Node, stage: nat)
    requires 0 <= j < |vs|
  {
    && nd.round == (if stage == 8 then r + 1 else r)
    && nd.outs == (if stage == 8 then outs + [vs[0].share] else outs)
    && nd.ticks == 6 * r + TicksAt(stage)
    && match stage
       case 0 => nd.pc == (if j == p.leader(r) then Collect else WaitTwo) && nd.votes == map[]
       case 1 =>
         nd.pc == (if j == p.leader(r) then Collect else WaitTwo) && (j == p.leader(r) ==> nd.votes == Votes(vs, |vs|))
       case 2 => nd.pc == WaitTwo
       case 3 => nd.pc == Proposals && nd.leaderProposal == None && nd.forwarded == []
       case 4 => nd.pc == Proposals && nd.leaderProposal == Some(Proposed(p, vs, r)) && nd.forwarded == []
       case 5 => nd.pc == Commits && nd.received == map[]
       case 6 => nd.pc == Commits && nd.received == CommitMap(vs[0].share, r, |vs|)
       case 7 => nd.pc.Notified? && nd.pc.share == vs[0].share
       case _ => nd.pc == RoundEnd && nd.share == vs[0].share
  }

  function TicksAt(stage: nat): nat {
    match stage
    case 0 => 0
    case 1 => 0
    case 2 => 1
    case 3 => 2
    case 4 => 2
    case 5 => 3
    case 6 => 3
    case 7 => 4
    case _ => 5
  }

  /** What a node sends at the tick that ends a stage. */
  ghost predicate Sends(p: Params, vs: seq<Vote>, r: int, j: int, sent: seq<Msg>, stage: nat)
    requires |vs| > 0
  {
    && (stage == 1 && j == p.leader(r) ==> sent == [Propose(r, Proposed(p, vs, r))])
    && (stage == 4 ==> sent == [CommitOn(r, CommitOf(vs[0].share, r, j))])
    && (stage == 6 ==> |sent| == 1 && sent[0].NotifyOn? && sent[0].round == r)
  }

  lemma FirstMax(vs: seq<Vote>, r: int)
    requires |vs| > 0 && forall j :: 0 <= j < |vs| ==> vs[j].round == r
    ensures 0 in Votes(vs, |vs|) && MaxVote(Votes(vs, |vs|)) == vs[0]
  {
    var votes := Votes(vs, |vs|);
    assert 0 in votes;
    assert IsMaxKey(votes, 0);
    MaxKeyUnique(votes, 0, MaxKey(votes));
  }

  lemma VotesSize(vs: seq<Vote>)
    ensures |Votes(vs, |vs|)| == |vs|
  {
    assert Votes(vs, |vs|).Keys == Ids(|vs|);
    assert |Votes(vs, |vs|)| == |Votes(vs, |vs|).Keys|;
  }

  lemma CommitsSize(b: BlockShare, r: int, k: nat)
    ensures |CommitMap(b, r, k)| == k
  {
    assert CommitMap(b, r, k).Keys == Ids(k);
    assert |CommitMap(b, r, k)| == |CommitMap(b, r, k).Keys|;
  }

  lemma LeaderTick(p: Params, vs: seq<Vote>, r: int, outs: seq<BlockShare>, j: int, nd: Node)
    requires Fair(p, vs, r) && 0 <= j < |vs| && At(p, vs, r, outs, j, nd, 1) && j == p.leader(r)
    ensures At(p, vs, r, outs, j, TickOf(p, j, nd).node, 2)
    ensures TickOf(p, j, nd).sent == [Propose(r, Proposed(p, vs, r))]
  {
    FirstMax(vs, r);
    VotesSize(vs);
    assert nd.votes == Votes(vs, |vs|);
    assert ProposeMax(p, j, nd.(ticks := nd.ticks + 1)).sent == [Propose(r, Proposed(p, vs, r))];
  }

  lemma FirstTick(p: Params, vs: seq<Vote>, r: int, outs: seq<BlockShare>, j: int, nd: Node)
    requires Fair(p, vs, r) && 0 <= j < |vs| && At(p, vs, r, outs, j, nd, 1)
    ensures At(p, vs, r, outs, j, TickOf(p, j, nd).node, 2) && Sends(p, vs, r, j, TickOf(p, j, nd).sent, 1)
  {
    if j == p.leader(r) {
      LeaderTick(p, vs, r, outs, j, nd);
    }
  }

  lemma WaitTick(p: Params, vs: seq<Vote>, r: int, outs: seq<BlockShare>, j: int, nd: Node)
    requires Fair(p, vs, r) && 0 <= j < |vs| && At(p, vs, r, outs, j, nd, 2)
    ensures At(p, vs, r, outs, j, TickOf(p, j, nd).node, 3)
  {
  }

  lemma ProposalsTick(p: Params, vs: seq<Vote>, r: int, outs: seq<BlockShare>, j: int, nd: Node)
    requires Fair(p, vs, r) && 0 <= j < |vs| && At(p, vs, r, outs, j, nd, 4)
    ensures At(p, vs, r, outs, j, TickOf(p, j, nd).node, 5) && Sends(p, vs, r, j, TickOf(p, j, nd).sent, 4)
  {
  }

  /** Whatever group is picked is large and on the one block. */
  lemma PickedGroup(p: Params, b: BlockShare, r: int, order: seq<int>, pick: Digest)
    requires p.n > 2 * p.t && IsOrder(order, CommitMap(b, r, p.n)) && GoodPick(p, CommitMap(b, r, p.n), order, pick)
    ensures var group := Group(CommitMap(b, r, p.n), order, pick); |group| >= p.t + 1 && group[0].share == b
  {
    var received := CommitMap(b, r, p.n);
    OrderKeys(order, received);
    OrderSize(order, received);
    GroupAll(received, order, ShareHash(b));
    CommitsSize(b, r, p.n);
    var group := Group(received, order, pick);
    GroupIs(received, order, pick);
    assert group[0] in group;
  }

  lemma CommitsTick(p: Params, vs: seq<Vote>, r: int, outs: seq<BlockShare>, j: int, nd: Node)
    requires Fair(p, vs, r) && 0 <= j < |vs| && At(p, vs, r, outs, j, nd, 6)
    ensures At(p, vs, r, outs, j, TickOf(p, j, nd).node, 7) && Sends(p, vs, r, j, TickOf(p, j, nd).sent, 6)
  {
    var order := OrderOf(nd.received);
    var pick := PickOf(p, nd.received, order);
    PickedGroup(p, vs[0].share, r, order, pick);
    LargeGroupTick(p, j, nd, order, pick);
  }

  lemma NotifiedTick(p: Params, vs: seq<Vote>, r: int, outs: seq<BlockShare>, j: int, nd: Node)
    requires Fair(p, vs, r) && 0 <= j < |vs| && At(p, vs, r, outs, j, nd, 7)
    ensures At(p, vs, r, outs, j, TickOf(p, j, nd).node, 8)
  {
  }

  lemma FedOne(p: Params, j: int, nd: Node, ms: seq<Msg>)
    requires ms != []
    ensures var nd1 := Fed(p, j, nd, ms[..|ms| - 1]);
      var m := ms[|ms| - 1];
      Fed(p, j, nd, ms) == if Reads(j, nd1, m) then OnMessage(p, j, nd1, m).node else nd1
  {
  }

  /** The leader gets one more vote; nobody else reads it. */
  lemma TakesVote(p: Params, vs: seq<Vote>, r: int, j: int, nd: Node, k: nat)
    requires Fair(p, vs, r) && k < |vs| && nd.round == r
    requires if j == p.leader(r) then nd.pc == Collect && nd.votes == Votes(vs, k) else nd.pc == WaitTwo
    ensures var m := VoteTo(r, p.leader(r), VoteOf(vs, k));
      (if Reads(j, nd, m) then OnMessage(p, j, nd, m).node else nd) ==
      if j == p.leader(r) then nd.(votes := Votes(vs, k + 1)) else nd
  {
    assert Votes(vs, k + 1) == Votes(vs, k)[k := VoteOf(vs, k)];
  }

  lemma {:induction false} FedVotes(p: Params, vs: seq<Vote>, r: int, outs: seq<BlockShare>, j: int, nd: Node, k: nat)
    requires Fair(p, vs, r) && 0 <= j < |vs| && At(p, vs, r, outs, j, nd, 0) && k <= |vs|
    ensures Fed(p, j, nd, VoteMsgs(p, vs, r, k)) == if j == p.leader(r) then nd.(votes := Votes(vs, k)) else nd
  {
    if k > 0 {
      FedVotes(p, vs, r, outs, j, nd, k - 1);
      var ms := VoteMsgs(p, vs, r, k);
      assert ms[..|ms| - 1] == VoteMsgs(p, vs, r, k - 1);
      FedOne(p, j, nd, ms);
      TakesVote(p, vs, r, j, Fed(p, j, nd, VoteMsgs(p, vs, r, k - 1)), k - 1);
    } else {
      assert Votes(vs, 0) == map[];
    }
  }

  lemma FedProposal(p: Params, vs: seq<Vote>, r: int, outs: seq<BlockShare>, j: int, nd: Node)
    requires Fair(p, vs, r) && 0 <= j < |vs| && At(p, vs, r, outs, j, nd, 3)
    requires CheckProposal(p, r, Proposed(p, vs, r)) == Accept
    ensures At(p, vs, r, outs, j, Fed(p, j, nd, [Propose(r, Proposed(p, vs, r))]), 4)
  {
    var m := Propose(r, Proposed(p, vs, r));
    assert [m][..|[m]| - 1] == [];
    assert Fed(p, j, nd, [m]) == OnMessage(p, j, nd, m).node;
  }

  lemma {:induction false} FedCommits(p: Params, j: int, nd: Node, b: BlockShare, k: nat)
    requires p.n > 2 * p.t && CheckShare(p, b) == Accept && nd.pc == Commits && nd.received == map[]
    ensures Fed(p, j, nd, CommitMsgs(b, nd.round, k)) == nd.(received := CommitMap(b, nd.round, k))
  {
    if k > 0 {
      FedCommits(p, j, nd, b, k - 1);
      var ms := CommitMsgs(b, nd.round, k);
      assert ms[..|ms| - 1] == CommitMsgs(b, nd.round, k - 1);
      assert CommitMap(b, nd.round, k) == CommitMap(b, nd.round, k - 1)[k - 1 := CommitOf(b, nd.round, k - 1)];
    } else {
      assert CommitMap(b, nd.round, 0) == map[];
    }
  }

  // ---- The round in a run

  ghost predicate StateAt(p: Params, vs: seq<Vote>, r: int, outs: seq<BlockShare>, s: State, stage: nat) {
    && |s.nodes| == |vs| && s.clock == 6 * r + TicksAt(stage)
    && (r > 0 ==> NotifyBefore(s.net, r))
    && forall j :: 0 <= j < |vs| ==> At(p, vs, r, outs, j, s.nodes[j], stage)
  }

  ghost predicate AllAt(p: Params, vs: seq<Vote>, r: int, outs: seq<BlockShare>, inputs: seq<Option<BlockShare>>,
                        steps: seq<Step>, stage: nat)
  {
    StateAt(p, vs, r, outs, Run(p, inputs, steps), stage)
  }

  ghost predicate Around(p: Params, inputs: seq<Option<BlockShare>>, steps: seq<Step>, ms: seq<Msg>) {
    forall m :: m in ms ==> m in Run(p, inputs, steps).net
  }

  /** The messages that end a stage. */
  ghost predicate Ends(p: Params, vs: seq<Vote>, r: int, ms: seq<Msg>, stage: nat) {
    && |vs| > 0
    && (|| (stage == 0 && ms == VoteMsgs(p, vs, r, |vs|))
        || (stage == 3 && ms == [Propose(r, Proposed(p, vs, r))]
            && CheckProposal(p, r, Proposed(p, vs, r)) == Accept)
        || (stage == 5 && ms == CommitMsgs(vs[0].share, r, |vs|)))
  }

  lemma Fills(p: Params, vs: seq<Vote>, r: int, outs: seq<BlockShare>, j: int, nd: Node, stage: nat, ms: seq<Msg>)
    requires Fair(p, vs, r) && 0 <= j < |vs| && At(p, vs, r, outs, j, nd, stage) && Ends(p, vs, r, ms, stage)
    ensures At(p, vs, r, outs, j, Fed(p, j, nd, ms), stage + 1)
  {
    if stage == 0 {
      FedVotes(p, vs, r, outs, j, nd, |vs|);
    } else if stage == 3 {
      FedProposal(p, vs, r, outs, j, nd);
    } else {
      FedCommits(p, j, nd, vs[0].share, |vs|);
    }
  }

  /** Everybody handles the messages that end a stage. */
  lemma Handle(p: Params, vs: seq<Vote>, r: int, outs: seq<BlockShare>, inputs: seq<Option<BlockShare>>,
               before: seq<Step>, stage: nat, ms: seq<Msg>) returns (steps: seq<Step>)
    requires Fair(p, vs, r) && AllAt(p, vs, r, outs, inputs, before, stage) && Around(p, inputs, before, ms)
    requires Ends(p, vs, r, ms, stage)
    ensures AllAt(p, vs, r, outs, inputs, steps, stage + 1)
  {
    steps := FeedAll(p, inputs, before, ms, |vs|);
    var s := Run(p, inputs, before);
    forall j | 0 <= j < |vs| ensures At(p, vs, r, outs, j, Fed(p, j, s.nodes[j], ms), stage + 1) {
      Fills(p, vs, r, outs, j, s.nodes[j], stage, ms);
    }
  }

  const TICKING := {1, 2, 4, 6, 7}

  lemma Ticks(p: Params, vs: seq<Vote>, r: int, outs: seq<BlockShare>, j: int, nd: Node, stage: nat)
    requires Fair(p, vs, r) && 0 <= j < |vs| && At(p, vs, r, outs, j, nd, stage) && stage in TICKING
    ensures At(p, vs, r, outs, j, TickOf(p, j, nd).node, stage + 1) && Sends(p, vs, r, j, TickOf(p, j, nd).sent, stage)
  {
    if stage == 1 {
      FirstTick(p, vs, r, outs, j, nd);
    } else if stage == 2 {
      WaitTick(p, vs, r, outs, j, nd);
    } else if stage == 4 {
      ProposalsTick(p, vs, r, outs, j, nd);
    } else if stage == 6 {
      CommitsTick(p, vs, r, outs, j, nd);
    } else {
      NotifiedTick(p, vs, r, outs, j, nd);
    }
  }

  lemma InStepAt(p: Params, vs: seq<Vote>, r: int, outs: seq<BlockShare>, s: State, stage: nat)
    requires Fair(p, vs, r) && StateAt(p, vs, r, outs, s, stage) && stage in TICKING
    ensures InStep(p, s)
  {
    forall j | 0 <= j < |s.nodes|
      ensures Live(s.nodes[j]) && !s.nodes[j].pc.AwaitNotify? && s.nodes[j].ticks == s.clock
    {
      assert At(p, vs, r, outs, j, s.nodes[j], stage);
    }
  }

  lemma TickSent(p: Params, vs: seq<Vote>, r: int, s: State, s1: State, j: int, stage: nat)
    requires 0 <= j < |vs| == |s.nodes| && Ticked(p, s.(clock := s.clock + 1), s1, |s.nodes|)
    requires Sends(p, vs, r, j, TickOf(p, j, s.nodes[j]).sent, stage)
    ensures stage == 1 && j == p.leader(r) ==> Propose(r, Proposed(p, vs, r)) in s1.net
    ensures stage == 4 ==> CommitOn(r, CommitOf(vs[0].share, r, j)) in s1.net
    ensures stage == 6 ==> NotifySent(s1.net, r)
  {
    var sent := TickOf(p, j, s.nodes[j]).sent;
    assert Members(sent) <= s1.net;
    if sent != [] {
      assert sent[0] in Members(sent);
    }
  }

  lemma TickedAt(p: Params, vs: seq<Vote>, r: int, outs: seq<BlockShare>, s: State, s1: State, stage: nat)
    requires Fair(p, vs, r) && StateAt(p, vs, r, outs, s, stage) && stage in TICKING
    requires Ticked(p, s.(clock := s.clock + 1), s1, |s.nodes|)
    ensures StateAt(p, vs, r, outs, s1, stage + 1)
    ensures stage == 1 ==> Propose(r, Proposed(p, vs, r)) in s1.net
    ensures stage == 4 ==> forall j :: 0 <= j < |vs| ==> CommitOn(r, CommitOf(vs[0].share, r, j)) in s1.net
    ensures stage == 6 ==> NotifySent(s1.net, r)
  {
    forall j | 0 <= j < |vs|
      ensures At(p, vs, r, outs, j, s1.nodes[j], stage + 1)
      ensures stage == 1 && j == p.leader(r) ==> Propose(r, Proposed(p, vs, r)) in s1.net
      ensures stage == 4 ==> CommitOn(r, CommitOf(vs[0].share, r, j)) in s1.net
      ensures stage == 6 ==> NotifySent(s1.net, r)
    {
      Ticks(p, vs, r, outs, j, s.nodes[j], stage);
      TickSent(p, vs, r, s, s1, j, stage);
    }
    BeforeGrows(s.net, s1.net, r, r);
    var leader := p.leader(r);
    assert At(p, vs, r, outs, leader, s1.nodes[leader], stage + 1);
  }

  /** Everybody ticks. */
  lemma Advance(p: Params, vs: seq<Vote>, r: int, outs: seq<BlockShare>, inputs: seq<Option<BlockShare>>,
                before: seq<Step>, stage: nat) returns (steps: seq<Step>)
    requires Fair(p, vs, r) && AllAt(p, vs, r, outs, inputs, before, stage) && stage in TICKING
    ensures AllAt(p, vs, r, outs, inputs, steps, stage + 1)
    ensures Run(p, inputs, before).net <= Run(p, inputs, steps).net
    ensures stage == 1 ==> Around(p, inputs, steps, [Propose(r, Proposed(p, vs, r))])
    ensures stage == 4 ==> Around(p, inputs, steps, CommitMsgs(vs[0].share, r, |vs|))
    ensures stage == 6 ==> NotifySent(Run(p, inputs, steps).net, r)
  {
    InStepAt(p, vs, r, outs, Run(p, inputs, before), stage);
    steps := Beat(p, inputs, before);
    TickedAt(p, vs, r, outs, Run(p, inputs, before), Run(p, inputs, steps), stage);
  }

  /** The proposal of a round passes: in round 0 always, later because of the notify before it. */
  lemma Passes(p: Params, vs: seq<Vote>, r: int, outs: seq<BlockShare>, inputs: seq<Option<BlockShare>>,
               steps: seq<Step>, stage: nat)
    requires Fair(p, vs, r) && AllAt(p, vs, r, outs, inputs, steps, stage)
    requires Around(p, inputs, steps, [Propose(r, Proposed(p, vs, r))])
    ensures CheckProposal(p, r, Proposed(p, vs, r)) == Accept
  {
    var m := Propose(r, Proposed(p, vs, r));
    assert m in [m];
    assert m in Run(p, inputs, steps).net;
    AcceptedExactly(p, inputs, steps, m);
  }

  /** All votes are in, the leader proposes, everybody has its proposal and commits. */
  lemma Committed(p: Params, vs: seq<Vote>, r: int, outs: seq<BlockShare>, inputs: seq<Option<BlockShare>>,
                  before: seq<Step>) returns (steps: seq<Step>)
    requires Fair(p, vs, r) && AllAt(p, vs, r, outs, inputs, before, 0)
    requires Around(p, inputs, before, VoteMsgs(p, vs, r, |vs|))
    ensures AllAt(p, vs, r, outs, inputs, steps, 5) && Around(p, inputs, steps, CommitMsgs(vs[0].share, r, |vs|))
  {
    steps := Handle(p, vs, r, outs, inputs, before, 0, VoteMsgs(p, vs, r, |vs|));
    steps := Advance(p, vs, r, outs, inputs, steps, 1);
    steps := Advance(p, vs, r, outs, inputs, steps, 2);
    Passes(p, vs, r, outs, inputs, steps, 3);
    steps := Handle(p, vs, r, outs, inputs, steps, 3, [Propose(r, Proposed(p, vs, r))]);
    steps := Advance(p, vs, r, outs, inputs, steps, 4);
  }

  /** Everybody gets the commits, notifies, and puts out the block of node 0's vote. */
  lemma Decided(p: Params, vs: seq<Vote>, r: int, outs: seq<BlockShare>, inputs: seq<Option<BlockShare>>,
                before: seq<Step>) returns (steps: seq<Step>)
    requires Fair(p, vs, r) && AllAt(p, vs, r, outs, inputs, before, 0)
    requires Around(p, inputs, before, VoteMsgs(p, vs, r, |vs|))
    ensures AllAt(p, vs, r, outs, inputs, steps, 8) && NotifySent(Run(p, inputs, steps).net, r)
  {
    steps := Committed(p, vs, r, outs, inputs, before);
    steps := Handle(p, vs, r, outs, inputs, steps, 5, CommitMsgs(vs[0].share, r, |vs|));
    steps := Advance(p, vs, r, outs, inputs, steps, 6);
    NotifySentGrows(Run(p, inputs, steps).net, Run(p, inputs, steps).net, r);
    var some := steps;
    steps := Advance(p, vs, r, outs, inputs, some, 7);
    NotifySentGrows(Run(p, inputs, some).net, Run(p, inputs, steps).net, r);
  }

  // ---- From one round to the next

  /** The votes of the next round. */
  function NextVotes(nodes: seq<Node>, r: int): seq<Vote> {
    seq(|nodes|, j requires 0 <= j < |nodes| => Vote(r, nodes[j].share, nodes[j].commits))
  }

  lemma StartTick(p: Params, vs: seq<Vote>, r: int, outs: seq<BlockShare>, vs1: seq<Vote>, j: int, nd: Node)
    requires 0 <= j < |vs| == |vs1| && At(p, vs, r, outs, j, nd, 8) && r + 1 < p.kappa
    requires vs1[j] == Vote(r + 1, nd.share, nd.commits)
    ensures At(p, vs1, r + 1, outs + [vs[0].share], j, TickOf(p, j, nd).node, 0)
    ensures TickOf(p, j, nd).sent == [VoteTo(r + 1, p.leader(r + 1), VoteOf(vs1, j))]
  {
  }

  lemma NextFair(p: Params, vs: seq<Vote>, r: int, outs: seq<BlockShare>, s: State)
    requires Fair(p, vs, r) && StateAt(p, vs, r, outs, s, 8) && r + 1 < p.kappa && 0 <= p.leader(r + 1) < p.n
    ensures var vs1 := NextVotes(s.nodes, r + 1); Fair(p, vs1, r + 1) && vs1[0].share == vs[0].share
  {
    forall j | 0 <= j < p.n ensures s.nodes[j].share == vs[0].share {
      assert At(p, vs, r, outs, j, s.nodes[j], 8);
    }
  }

  lemma StartedAt(p: Params, vs: seq<Vote>, r: int, outs: seq<BlockShare>, s: State, s1: State)
    requires Fair(p, vs, r) && StateAt(p, vs, r, outs, s, 8) && r + 1 < p.kappa && NotifySent(s.net, r)
    requires Ticked(p, s.(clock := s.clock + 1), s1, |s.nodes|)
    ensures var vs1 := NextVotes(s.nodes, r + 1);
      && StateAt(p, vs1, r + 1, outs + [vs[0].share], s1, 0)
      && forall j :: 0 <= j < |vs1| ==> VoteTo(r + 1, p.leader(r + 1), VoteOf(vs1, j)) in s1.net
  {
    var vs1 := NextVotes(s.nodes, r + 1);
    forall j | 0 <= j < |vs1|
      ensures At(p, vs1, r + 1, outs + [vs[0].share], j, s1.nodes[j], 0)
      ensures VoteTo(r + 1, p.leader(r + 1), VoteOf(vs1, j)) in s1.net
    {
      StartTick(p, vs, r, outs, vs1, j, s.nodes[j]);
      assert TickOf(p, j, s.nodes[j]).sent[0] in Members(TickOf(p, j, s.nodes[j]).sent);
    }
    var m :| m in s.net && m.NotifyOn? && m.round == r;
    assert m in s1.net && m.round < r + 1;
  }

  lemma NextRound(p: Params, vs: seq<Vote>, r: int, outs: seq<BlockShare>, inputs: seq<Option<BlockShare>>,
                  before: seq<Step>) returns (steps: seq<Step>, vs1: seq<Vote>)
    requires Fair(p, vs, r) && AllAt(p, vs, r, outs, inputs, before, 8) && NotifySent(Run(p, inputs, before).net, r)
    requires r + 1 < p.kappa && 0 <= p.leader(r + 1) < p.n
    ensures Fair(p, vs1, r + 1) && vs1[0].share == vs[0].share
    ensures AllAt(p, vs1, r + 1, outs + [vs[0].share], inputs, steps, 0)
    ensures Around(p, inputs, steps, VoteMsgs(p, vs1, r + 1, |vs1|))
  {
    var s := Run(p, inputs, before);
    vs1 := NextVotes(s.nodes, r + 1);
    NextFair(p, vs, r, outs, s);
    forall j | 0 <= j < |s.nodes|
      ensures Live(s.nodes[j]) && !s.nodes[j].pc.AwaitNotify? && s.nodes[j].ticks == s.clock
    {
      assert At(p, vs, r, outs, j, s.nodes[j], 8);
    }
    steps := Beat(p, inputs, before);
    StartedAt(p, vs, r, outs, s, Run(p, inputs, steps));
  }

  // ---- All rounds

  function Inputs(bs: seq<BlockShare>): seq<Option<BlockShare>> {
    seq(|bs|, j requires 0 <= j < |bs| => Some(bs[j]))
  }

  function FirstVotes(bs: seq<BlockShare>): seq<Vote> {
    seq(|bs|, j requires 0 <= j < |bs| => Vote(0, bs[j], []))
  }

  function Copies(b: BlockShare, k: nat): seq<BlockShare> {
    seq(k, _ => b)
  }

  lemma Starts(p: Params, bs: seq<BlockShare>)
    requires Fair(p, FirstVotes(bs), 0)
    ensures AllAt(p, FirstVotes(bs), 0, [], Inputs(bs), [], 0)
    ensures Around(p, Inputs(bs), [], VoteMsgs(p, FirstVotes(bs), 0, |bs|))
  {
    var s, vs := Init(p, Inputs(bs)), FirstVotes(bs);
    forall j | 0 <= j < |bs|
      ensures At(p, vs, 0, [], j, s.nodes[j], 0)
      ensures VoteTo(0, p.leader(0), VoteOf(vs, j)) in s.net
    {
      assert Inputs(bs)[j] == Some(bs[j]);
      assert VoteTo(0, p.leader(0), VoteOf(vs, j)) in InitNode(p, j, Inputs(bs)[j]).sent;
    }
  }

  /** All nodes have an input that passes the checks, and the leaders of the first k rounds are nodes. */
  ghost predicate NoFaults(p: Params, bs: seq<BlockShare>, k: nat) {
    && |bs| == p.n > 2 * p.t && k <= p.kappa
    && (forall r :: 0 <= r < k ==> 0 <= p.leader(r) < p.n)
    && forall j :: 0 <= j < p.n ==> CheckShare(p, bs[j]) == Accept
  }

  lemma {:induction false} Rounds(p: Params, bs: seq<BlockShare>, k: nat) returns (steps: seq<Step>, vs: seq<Vote>)
    requires NoFaults(p, bs, k) && k > 0
    ensures Fair(p, vs, k - 1) && vs[0].share == bs[0]
    ensures AllAt(p, vs, k - 1, Copies(bs[0], k - 1), Inputs(bs), steps, 8)
    ensures NotifySent(Run(p, Inputs(bs), steps).net, k - 1)
  {
    if k == 1 {
      vs := FirstVotes(bs);
      Starts(p, bs);
      steps := Decided(p, vs, 0, [], Inputs(bs), []);
    } else {
      var some, vs0 := Rounds(p, bs, k - 1);
      some, vs := NextRound(p, vs0, k - 2, Copies(bs[0], k - 2), Inputs(bs), some);
      assert Copies(bs[0], k - 2) + [bs[0]] == Copies(bs[0], k - 1);
      steps := Decided(p, vs, k - 1, Copies(bs[0], k - 1), Inputs(bs), some);
    }
  }

  /** Without faults, and with inputs that pass the checks, there is for every k up to kappa a run in
      which every node puts out the input of node 0 in each of the first k rounds. */
  lemma FaultFree(p: Params, bs: seq<BlockShare>, k: nat) returns (steps: seq<Step>)
    requires NoFaults(p, bs, k) && k > 0
    ensures var s := Run(p, Inputs(bs), steps);
      |s.nodes| == p.n && forall j :: 0 <= j < p.n ==> s.nodes[j].outs == Copies(bs[0], k) && s.nodes[j].round == k
  {
    var vs;
    steps, vs := Rounds(p, bs, k);
    var s := Run(p, Inputs(bs), steps);
    assert Copies(bs[0], k - 1) + [bs[0]] == Copies(bs[0], k);
    forall j | 0 <= j < p.n ensures s.nodes[j].outs == Copies(bs[0], k) && s.nodes[j].round == k {
      assert At(p, vs, k - 1, Copies(bs[0], k - 1), j, s.nodes[j], 8);
    }
  }
}
