/** When benign runs of block agreement put something out. Whoever notifies a block and stays up puts
    it out; in round 0 enough votes lead to a proposal that nobody rejects, and enough commits to a
    notify; and a run without faults puts out the input of node 0. */
module BlockAgreementProgress {
  import opened Quorums
  import opened Blocks
  import opened Tables
  import opened BlockAgreement
  import opened BlockAgreementSafety
  import opened BlockAgreementRounds

  // ---- Whoever sends a notify puts its block out

  /** The sender of a notify is down, still waits with grade 2, or has put the block out. */
  ghost predicate Owes(nd: Node, m: Msg)
    requires m.NotifyOn?
  {
    || nd.pc.Crashed?
    || (nd.round == m.round && nd.pc == Notified(m.notify.share, m.notify.commits))
    || (nd.round > m.round && m.notify.share in nd.outs)
  }

  ghost predicate SenderOwes(nodes: seq<Node>, m: Msg)
    requires m.NotifyOn?
  {
    0 <= m.notify.sender < |nodes| && Owes(nodes[m.notify.sender], m)
  }

  ghost predicate AllOwe(s: State) {
    forall m :: m in s.net && m.NotifyOn? ==> SenderOwes(s.nodes, m)
  }

  lemma TickOwes(p: Params, i: int, nd: Node, order: seq<int>, pick: Digest, m: Msg)
    requires m.NotifyOn? && Owes(nd, m)
    ensures Owes(OnTick(p, i, nd, order, pick).node, m)
  {
  }

  lemma MessageOwes(p: Params, i: int, nd: Node, x: Msg, m: Msg)
    requires m.NotifyOn? && Owes(nd, m) && Reads(i, nd, x)
    ensures Owes(OnMessage(p, i, nd, x).node, m)
  {
  }

  /** A tick sends a notify only with grade 2 on its block. */
  lemma TickNotified(p: Params, i: int, nd: Node, order: seq<int>, pick: Digest, m: Msg)
    requires m in OnTick(p, i, nd, order, pick).sent && m.NotifyOn?
    ensures m.notify.sender == i && Owes(OnTick(p, i, nd, order, pick).node, m)
  {
    OnlyGroupsNotify(p, i, nd, order, pick);
  }

  lemma InstallOwes(s: State, i: int, o: Outcome)
    requires AllOwe(s) && 0 <= i < |s.nodes|
    requires forall m: Msg :: m.NotifyOn? && Owes(s.nodes[i], m) ==> Owes(o.node, m)
    requires forall m :: m in o.sent && m.NotifyOn? && m !in s.net ==> m.notify.sender == i && Owes(o.node, m)
    ensures AllOwe(Install(s, i, o))
  {
  }

  lemma TurnOwes(p: Params, s: State, i: int, order: seq<int>, pick: Digest)
    requires AllOwe(s) && 0 <= i < |s.nodes|
    ensures AllOwe(Install(s, i, OnTick(p, i, s.nodes[i], order, pick)))
  {
    var o := OnTick(p, i, s.nodes[i], order, pick);
    forall m: Msg | m.NotifyOn? && Owes(s.nodes[i], m) ensures Owes(o.node, m) {
      TickOwes(p, i, s.nodes[i], order, pick, m);
    }
    forall m | m in o.sent && m.NotifyOn? ensures m.notify.sender == i && Owes(o.node, m) {
      TickNotified(p, i, s.nodes[i], order, pick, m);
    }
    InstallOwes(s, i, o);
  }

  lemma ReceiveOwes(p: Params, s: State, i: int, x: Msg)
    requires AllOwe(s) && 0 <= i < |s.nodes| && Reads(i, s.nodes[i], x) && x in s.net
    ensures AllOwe(Install(s, i, OnMessage(p, i, s.nodes[i], x)))
  {
    var o := OnMessage(p, i, s.nodes[i], x);
    forall m: Msg | m.NotifyOn? && Owes(s.nodes[i], m) ensures Owes(o.node, m) {
      MessageOwes(p, i, s.nodes[i], x, m);
    }
    MessageForwards(p, i, s.nodes[i], x);
    InstallOwes(s, i, o);
  }

  lemma StepOwes(p: Params, s: State, step: Step)
    requires AllOwe(s)
    ensures AllOwe(Do(p, s, step))
  {
    if Enabled(p, s, step) {
      match step
      case Clock =>
      case Tick(i, order, pick) => TurnOwes(p, s, i, order, pick);
      case Receive(i, m) => ReceiveOwes(p, s, i, m);
      case Crash(i) =>
    }
  }

  lemma {:induction false} RunOwes(p: Params, inputs: seq<Option<BlockShare>>, steps: seq<Step>)
    ensures AllOwe(Run(p, inputs, steps))
  {
    if steps == [] {
      var s := Init(p, inputs);
      forall m | m in s.net ensures m.VoteTo? {
        var i :| 0 <= i < |inputs| && m in InitNode(p, i, inputs[i]).sent;
      }
    } else {
      RunOwes(p, inputs, steps[..|steps| - 1]);
      StepOwes(p, Run(p, inputs, steps[..|steps| - 1]), steps[|steps| - 1]);
    }
  }

  /** In every run whoever sends a notify, in whatever round, has put its block out as soon as it is
      past the round, unless it has crashed. */
  lemma NotifierPutsOut(p: Params, inputs: seq<Option<BlockShare>>, steps: seq<Step>, m: Msg)
    requires m in Run(p, inputs, steps).net && m.NotifyOn?
    ensures var nodes := Run(p, inputs, steps).nodes;
      var j := m.notify.sender;
      && 0 <= j < |nodes|
      && (!nodes[j].pc.Crashed? && nodes[j].round > m.round ==> m.notify.share in nodes[j].outs)
  {
    RunOwes(p, inputs, steps);
    assert SenderOwes(Run(p, inputs, steps).nodes, m);
  }

  /** The senders of round 0's notifies are up and past it. */
  ghost predicate NotifiersPast(s: State) {
    forall m :: m in s.net && m.NotifyOn? && m.round == 0 ==>
      0 <= m.notify.sender < |s.nodes| && !s.nodes[m.notify.sender].pc.Crashed? && s.nodes[m.notify.sender].round > 0
  }

  ghost predicate PutOut(s: State, b: BlockShare) {
    exists i :: 0 <= i < |s.nodes| && b in s.nodes[i].outs
  }

  /** Round 0 decides, exactly: a block is put out, in whatever round, if and only if round 0
      notifies it, once those who do are past the round and have not crashed. */
  lemma RoundZeroExactly(p: Params, inputs: seq<Option<BlockShare>>, steps: seq<Step>, b: BlockShare)
    requires NotifiersPast(Run(p, inputs, steps))
    ensures PutOut(Run(p, inputs, steps), b) <==> FirstNotified(Run(p, inputs, steps).net, b)
  {
    var s := Run(p, inputs, steps);
    RoundZeroDecides(p, inputs, steps);
    if FirstNotified(s.net, b) {
      var m :| m in s.net && m.NotifyOn? && m.round == 0 && m.notify.share == b;
      NotifierPutsOut(p, inputs, steps, m);
    }
  }

  // ---- Round 0 moves on when enough messages arrive

  lemma RunStep(p: Params, inputs: seq<Option<BlockShare>>, steps: seq<Step>, step: Step)
    ensures Run(p, inputs, steps + [step]) == Do(p, Run(p, inputs, steps), step)
  {
    assert (steps + [step])[..|steps|] == steps;
  }

  /** The votes of a proposal, and the one it is for, were cast in its round for blocks that pass. */
  lemma ProposalVotes(p: Params, s: State, m: Msg)
    requires Inv(p, s) && m in s.net && m.Propose?
    ensures var q := m.proposal;
      && q.sig == Some(true) && |q.votes| >= p.t + 1
      && (forall k :: k in q.votes ==> q.votes[k].sigOk && q.votes[k].vote.round == m.round)
      && q.vote.round == m.round && CheckShare(p, q.vote.share) == Accept
      && exists v :: VoteTo(m.round, q.sender, v) in s.net && v.vote == q.vote
  {
    var q := m.proposal;
    assert GoodMsg(p, s.net, s.clock, m);
    forall k | k in q.votes ensures q.votes[k].sigOk && q.votes[k].vote.round == m.round {
      var v := VoteTo(m.round, q.sender, q.votes[k]);
      assert v in s.net && GoodMsg(p, s.net, s.clock, v);
    }
    var k :| k in q.votes && q.votes[k].vote == q.vote;
    assert VoteTo(m.round, q.sender, q.votes[k]) in s.net;
  }

  /** So everything hangs on the commits of the vote. */
  lemma ProposalRule(p: Params, s: State, m: Msg)
    requires Inv(p, s) && m in s.net && m.Propose?
    ensures CheckProposal(p, m.round, m.proposal) == Accept <==> VoteRule(p, m.round, m.proposal.vote)
  {
    ProposalVotes(p, s, m);
  }

  /** Votes of round 0 carry no commits, so its proposals meet the rule of round 0. */
  lemma FirstProposal(p: Params, s: State, m: Msg)
    requires Inv(p, s) && CommitsNotified(s) && m in s.net && m.Propose? && m.round == 0
    ensures CheckProposal(p, 0, m.proposal) == Accept
  {
    ProposalRule(p, s, m);
    ProposalVotes(p, s, m);
    var v :| VoteTo(m.round, m.proposal.sender, v) in s.net && v.vote == m.proposal.vote;
    var x := VoteTo(m.round, m.proposal.sender, v);
    assert x.vote.vote.commits != [] ==> NotifyBefore(s.net, x.round);
  }

  /** In every run nobody rejects a proposal of round 0. */
  lemma FirstProposalsAccepted(p: Params, inputs: seq<Option<BlockShare>>, steps: seq<Step>)
    ensures !Rejected(p, Run(p, inputs, steps).net, 0)
  {
    RunInv(p, inputs, steps);
    RunCommits(p, inputs, steps);
    var s := Run(p, inputs, steps);
    forall m | m in s.net && m.Propose? && m.round == 0 ensures CheckProposal(p, 0, m.proposal) == Accept {
      FirstProposal(p, s, m);
    }
  }

  /** Whoever reads a proposal of round 0 has it as the leader's, and commits to its block at the
      next tick. */
  lemma FirstProposalAdopted(p: Params, inputs: seq<Option<BlockShare>>, steps: seq<Step>, i: int, m: Msg)
    requires Enabled(p, Run(p, inputs, steps), Receive(i, m)) && m.Propose? && m.round == 0
    ensures var nd := Run(p, inputs, steps + [Receive(i, m)]).nodes[i];
      nd.pc.Proposals? && nd.round == 0 && nd.leaderProposal == Some(m.proposal) && nd.forwarded == []
  {
    RunInv(p, inputs, steps);
    RunCommits(p, inputs, steps);
    RunStep(p, inputs, steps, Receive(i, m));
    AdoptsFirst(p, Run(p, inputs, steps), i, m);
  }

  lemma AdoptsFirst(p: Params, s: State, i: int, m: Msg)
    requires Inv(p, s) && CommitsNotified(s) && Enabled(p, s, Receive(i, m)) && m.Propose? && m.round == 0
    ensures var o := OnMessage(p, i, s.nodes[i], m);
      && o.node == s.nodes[i].(leaderProposal := Some(m.proposal))
      && o.node.pc.Proposals? && o.node.round == 0 && o.node.forwarded == []
  {
    var nd := s.nodes[i];
    FirstProposal(p, s, m);
    assert NodeData(p, i, nd, s.net) && GoodMsg(p, s.net, s.clock, m);
    if nd.leaderProposal.Some? {
      var x := Propose(0, nd.leaderProposal.value);
      assert x in s.net && x == m;
    }
  }

  lemma LeaderCommits(p: Params, i: int, nd: Node, order: seq<int>, pick: Digest)
    requires nd.pc.Proposals? && nd.leaderProposal.Some? && nd.forwarded == []
    ensures OnTick(p, i, nd, order, pick).sent ==
            [CommitOn(nd.round, Commit(i, nd.round, nd.leaderProposal.value.vote.share, true))]
  {
  }

  /** When round 0's leader has enough votes, its next tick makes a proposal. */
  lemma FirstLeaderProposes(p: Params, inputs: seq<Option<BlockShare>>, steps: seq<Step>, i: int,
                            order: seq<int>, pick: Digest)
    requires Enabled(p, Run(p, inputs, steps), Tick(i, order, pick))
    requires var nd := Run(p, inputs, steps).nodes[i]; nd.pc.Collect? && nd.round == 0 && |nd.votes| >= p.t + 1
    ensures var nd := Run(p, inputs, steps).nodes[i];
      var q := Proposal(i, MaxVote(nd.votes), nd.votes, Some(true));
      Propose(0, q) in Run(p, inputs, steps + [Tick(i, order, pick)]).net && CheckProposal(p, 0, q) == Accept
  {
    var all := steps + [Tick(i, order, pick)];
    RunStep(p, inputs, steps, Tick(i, order, pick));
    var nd := Run(p, inputs, steps).nodes[i];
    var m := Propose(0, Proposal(i, MaxVote(nd.votes), nd.votes, Some(true)));
    assert m in OnTick(p, i, nd, order, pick).sent;
    assert m in Run(p, inputs, all).net;
    FirstProposalsAccepted(p, inputs, all);
  }

  // ---- Enough commits make a notify, in every round

  lemma {:induction false} GroupAll(received: map<int, Commit>, order: seq<int>, hash: Digest)
    requires forall a :: 0 <= a < |order| ==> order[a] in received && ShareHash(received[order[a]].share) == hash
    ensures |Group(received, order, hash)| == |order|
  {
    if order != [] {
      GroupAll(received, order[1..], hash);
    }
  }

  /** All commits a node has received in a round are on one block. */
  lemma OneHash(p: Params, s: State, i: int, j: int, k: int)
    requires Inv(p, s) && 0 <= i < |s.nodes| && s.nodes[i].pc.Commits?
    requires j in s.nodes[i].received && k in s.nodes[i].received
    ensures s.nodes[i].received[j].share == s.nodes[i].received[k].share
  {
    var nd := s.nodes[i];
    assert NodeData(p, i, nd, s.net);
    var x, y := CommitOn(nd.round, nd.received[j]), CommitOn(nd.round, nd.received[k]);
    assert GoodMsg(p, s.net, s.clock, x) && GoodMsg(p, s.net, s.clock, y);
    OneBlock(p, s, nd.round, nd.received[j].share, nd.received[k].share);
  }

  lemma AllOneGroup(p: Params, s: State, i: int, order: seq<int>, k: int)
    requires Inv(p, s) && 0 <= i < |s.nodes| && s.nodes[i].pc.Commits? && IsOrder(order, s.nodes[i].received)
    requires k in s.nodes[i].received
    ensures var received := s.nodes[i].received;
      |Group(received, order, ShareHash(received[k].share))| == |received|
  {
    var received := s.nodes[i].received;
    OrderKeys(order, received);
    forall a | 0 <= a < |order| ensures received[order[a]].share == received[k].share {
      OneHash(p, s, i, order[a], k);
    }
    GroupAll(received, order, ShareHash(received[k].share));
    OrderSize(order, received);
  }

  lemma PickedIsLarge(p: Params, s: State, i: int, order: seq<int>, pick: Digest)
    requires Inv(p, s) && Enabled(p, s, Tick(i, order, pick)) && s.nodes[i].pc.Commits?
    requires |s.nodes[i].received| >= p.t + 1
    ensures |Group(s.nodes[i].received, order, pick)| >= p.t + 1
  {
    var received := s.nodes[i].received;
    assert |received.Keys| == |received|;
    Inhabited(received.Keys);
    var k :| k in received.Keys;
    AllOneGroup(p, s, i, order, k);
  }

  /** In every run and every round: a node that has received t+1 commits notifies at its next tick,
      with all it has received on one block. */
  lemma EnoughCommitsNotify(p: Params, inputs: seq<Option<BlockShare>>, steps: seq<Step>, i: int,
                            order: seq<int>, pick: Digest)
    requires Enabled(p, Run(p, inputs, steps), Tick(i, order, pick))
    requires var nd := Run(p, inputs, steps).nodes[i]; nd.pc.Commits? && |nd.received| >= p.t + 1
    ensures var nd := Run(p, inputs, steps).nodes[i];
      var s1 := Run(p, inputs, steps + [Tick(i, order, pick)]);
      && s1.nodes[i].pc.Notified?
      && NotifyOn(nd.round, Notify(i, nd.round, s1.nodes[i].pc.share, s1.nodes[i].pc.commits)) in s1.net
      && forall k :: k in nd.received ==> nd.received[k].share == s1.nodes[i].pc.share
  {
    RunInv(p, inputs, steps);
    RunStep(p, inputs, steps, Tick(i, order, pick));
    GroupNotifies(p, Run(p, inputs, steps), i, order, pick);
  }

  lemma LargeGroupTick(p: Params, i: int, nd: Node, order: seq<int>, pick: Digest)
    requires nd.pc.Commits? && |Group(nd.received, order, pick)| >= p.t + 1
    ensures var group := Group(nd.received, order, pick);
      OnTick(p, i, nd, order, pick) ==
        Outcome(nd.(ticks := nd.ticks + 1, pc := Notified(group[0].share, group)),
                [NotifyOn(nd.round, Notify(i, nd.round, group[0].share, group))])
  {
  }

  /** The block of any group is that of all commits received. */
  lemma GroupShare(p: Params, s: State, i: int, order: seq<int>, pick: Digest)
    requires Inv(p, s) && 0 <= i < |s.nodes| && s.nodes[i].pc.Commits? && IsOrder(order, s.nodes[i].received)
    requires Group(s.nodes[i].received, order, pick) != []
    ensures var received := s.nodes[i].received;
      forall k :: k in received ==> received[k].share == Group(received, order, pick)[0].share
  {
    var nd := s.nodes[i];
    var c := Group(nd.received, order, pick)[0];
    assert NodeData(p, i, nd, s.net);
    GroupIs(nd.received, order, pick);
    assert c in Group(nd.received, order, pick);
    forall k | k in nd.received ensures nd.received[k].share == c.share {
      OneHash(p, s, i, k, c.sender);
    }
  }

  lemma GroupNotifies(p: Params, s: State, i: int, order: seq<int>, pick: Digest)
    requires Inv(p, s) && Enabled(p, s, Tick(i, order, pick)) && s.nodes[i].pc.Commits?
    requires |s.nodes[i].received| >= p.t + 1
    ensures var nd := s.nodes[i];
      var group := Group(nd.received, order, pick);
      && group != []
      && OnTick(p, i, nd, order, pick) ==
           Outcome(nd.(ticks := nd.ticks + 1, pc := Notified(group[0].share, group)),
                   [NotifyOn(nd.round, Notify(i, nd.round, group[0].share, group))])
      && forall k :: k in nd.received ==> nd.received[k].share == group[0].share
  {
    PickedIsLarge(p, s, i, order, pick);
    LargeGroupTick(p, i, s.nodes[i], order, pick);
    GroupShare(p, s, i, order, pick);
  }
}
