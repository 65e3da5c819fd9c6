/** What a result of graded consensus leaves behind. A grade above 0 hands over the block together with
    its t+1 commits, and these travel with every later vote: after a notify the proposals of all later
    rounds are accepted by everybody, and without one by nobody. */
module BlockAgreementAdoption {
  import opened Blocks
  import opened BlockAgreement
  import opened BlockAgreementSafety
  import opened BlockAgreementRounds
  import opened BlockAgreementProgress

  // ---- Results of grade 2 and 0

  /** At the tick after its notify a node takes over the notify's block and commits itself, and puts
      the block out. */
  lemma GradeTwoResult(p: Params, inputs: seq<Option<BlockShare>>, steps: seq<Step>, i: int, order: seq<int>,
                       pick: Digest, b: BlockShare, commits: seq<Commit>)
    requires Enabled(p, Run(p, inputs, steps), Tick(i, order, pick))
    requires Run(p, inputs, steps).nodes[i].pc == Notified(b, commits)
    ensures var nd := Run(p, inputs, steps).nodes[i];
      Run(p, inputs, steps + [Tick(i, order, pick)]).nodes[i] ==
      nd.(share := b, commits := commits, outs := nd.outs + [b], ticks := nd.ticks + 1, round := nd.round + 1,
          pc := RoundEnd)
  {
    RunStep(p, inputs, steps, Tick(i, order, pick));
  }

  /** A node that waits in vain keeps its block and its commits. */
  lemma GradeZeroResult(p: Params, inputs: seq<Option<BlockShare>>, steps: seq<Step>, i: int, order: seq<int>,
                        pick: Digest)
    requires Enabled(p, Run(p, inputs, steps), Tick(i, order, pick))
    requires Run(p, inputs, steps).nodes[i].pc.AwaitNotify?
    ensures var nd := Run(p, inputs, steps).nodes[i];
      Run(p, inputs, steps + [Tick(i, order, pick)]).nodes[i] ==
      nd.(ticks := nd.ticks + 1, round := nd.round + 1, pc := RoundEnd)
  {
    RunStep(p, inputs, steps, Tick(i, order, pick));
  }

  // ---- Certificates travel with the votes

  /** t+1 nodes have committed to the block, in rounds before this one. */
  ghost predicate CertificateOn(p: Params, commits: seq<Commit>, b: BlockShare, round: int) {
    |CommitSenders(commits)| >= p.t + 1 && forall c :: c in commits ==> c.share == b && c.round < round
  }

  /** A node that is past the round of a notify holds a certificate on its block. */
  ghost predicate NodeHolds(p: Params, nd: Node, net: set<Msg>) {
    !nd.pc.Crashed? ==>
      forall m | m in net && m.NotifyOn? && nd.round > m.round :: CertificateOn(p, nd.commits, m.notify.share, nd.round)
  }

  /** So does every vote of a later round. */
  ghost predicate VoteHolds(p: Params, x: Msg, net: set<Msg>) {
    x.VoteTo? ==>
      forall m | m in net && m.NotifyOn? && x.round > m.round ::
        CertificateOn(p, x.vote.vote.commits, m.notify.share, x.round)
  }

  ghost predicate AllHold(p: Params, s: State) {
    && (forall j :: 0 <= j < |s.nodes| ==> NodeHolds(p, s.nodes[j], s.net))
    && (forall m :: m in s.net ==> VoteHolds(p, m, s.net))
  }

  /** A turn that sends no notify. */
  lemma TurnHolds(p: Params, s: State, i: int, o: Outcome)
    requires AllHold(p, s) && 0 <= i < |s.nodes| && NodeHolds(p, o.node, s.net)
    requires forall m :: m in o.sent ==> m in s.net || (!m.NotifyOn? && VoteHolds(p, m, s.net))
    ensures AllHold(p, Install(s, i, o))
  {
    var s1 := Install(s, i, o);
    assert forall m :: m in s1.net && m.NotifyOn? ==> m in s.net;
    forall j | 0 <= j < |s1.nodes| ensures NodeHolds(p, s1.nodes[j], s1.net) {
      assert NodeHolds(p, s1.nodes[j], s.net);
    }
    forall m | m in s1.net ensures VoteHolds(p, m, s1.net) {
      assert VoteHolds(p, m, s.net);
    }
  }

  /** What a notify carries is a certificate on its block. */
  lemma NotifyCertifies(p: Params, s: State, m: Msg, round: int)
    requires Inv(p, s) && m in s.net && m.NotifyOn? && round > m.round
    ensures CertificateOn(p, m.notify.commits, m.notify.share, round)
  {
    assert GoodMsg(p, s.net, s.clock, m);
    forall c | c in m.notify.commits ensures c.share == m.notify.share && c.round < round {
      assert CommitOn(m.round, c) in s.net && GoodMsg(p, s.net, s.clock, CommitOn(m.round, c));
      OneBlock(p, s, m.round, m.notify.share, c.share);
    }
  }

  /** Taking over a notify of the round just ended. */
  lemma AdopterHolds(p: Params, s: State, nd1: Node, m: Msg)
    requires Inv(p, s) && m in s.net && m.NotifyOn? && nd1.round == m.round + 1 && nd1.commits == m.notify.commits
    ensures NodeHolds(p, nd1, s.net)
  {
    NotifyCertifies(p, s, m, nd1.round);
    forall x | x in s.net && x.NotifyOn? && nd1.round > x.round ensures x.notify.share == m.notify.share {
      NotifiesAgree(p, s, x, m);
    }
  }

  /** A node whose round nobody notified keeps what it has. */
  lemma KeeperHolds(p: Params, s: State, nd: Node, nd1: Node)
    requires NodeHolds(p, nd, s.net) && !nd.pc.Crashed?
    requires nd1.commits == nd.commits && nd1.round == nd.round + 1 && !NotifySent(s.net, nd.round)
    ensures NodeHolds(p, nd1, s.net)
  {
  }

  lemma ReceiveHolds(p: Params, s: State, i: int, m: Msg)
    requires Inv(p, s) && AllHold(p, s) && Enabled(p, s, Receive(i, m))
    ensures AllHold(p, Do(p, s, Receive(i, m)))
  {
    var o := OnMessage(p, i, s.nodes[i], m);
    MessageForwards(p, i, s.nodes[i], m);
    if m.NotifyOn? {
      NotifyValid(p, s, m);
      AdopterHolds(p, s, o.node, m);
    } else {
      MessageStays(p, i, s.nodes[i], m);
      assert NodeHolds(p, s.nodes[i], s.net);
    }
    TurnHolds(p, s, i, o);
  }

  lemma MessageStays(p: Params, i: int, nd: Node, m: Msg)
    requires Reads(i, nd, m) && !m.NotifyOn?
    ensures var nd1 := OnMessage(p, i, nd, m).node;
      nd1.round == nd.round && nd1.commits == nd.commits && !nd.pc.Crashed?
  {
    match m
    case VoteTo(_, _, _) =>
    case Propose(_, _) =>
    case CommitOn(_, _) =>
  }

  /** Whoever is past the round already has the certificate of an earlier notify of it. */
  lemma PastHolds(p: Params, s: State, m: Msg, j: int)
    requires Inv(p, s) && AllHold(p, s) && m.NotifyOn? && Accepted(p, s.net, m.round, m.notify.share)
    requires s.clock == 6 * m.round + 4
    requires 0 <= j < |s.nodes| && s.nodes[j].round > m.round && !s.nodes[j].pc.Crashed?
    ensures CertificateOn(p, s.nodes[j].commits, m.notify.share, s.nodes[j].round)
  {
    OneBlock(p, s, m.round, m.notify.share, m.notify.share);
    assert NodeTime(p, s.nodes[j], s.net, s.clock);
    assert s.nodes[j].pc.RoundEnd? && s.nodes[j].round == m.round + 1;
    var x :| x in s.net && x.NotifyOn? && x.round == m.round;
    assert Accepted(p, s.net, m.round, x.notify.share);
    OneBlock(p, s, m.round, m.notify.share, x.notify.share);
    assert NodeHolds(p, s.nodes[j], s.net);
  }

  ghost predicate PastHold(p: Params, s: State, m: Msg)
    requires m.NotifyOn?
  {
    forall j | 0 <= j < |s.nodes| && s.nodes[j].round > m.round && !s.nodes[j].pc.Crashed? ::
      CertificateOn(p, s.nodes[j].commits, m.notify.share, s.nodes[j].round)
  }

  lemma AllPastHold(p: Params, s: State, m: Msg)
    requires Inv(p, s) && AllHold(p, s) && m.NotifyOn? && Accepted(p, s.net, m.round, m.notify.share)
    requires s.clock == 6 * m.round + 4
    ensures PastHold(p, s, m)
  {
    forall j | 0 <= j < |s.nodes| && s.nodes[j].round > m.round && !s.nodes[j].pc.Crashed?
      ensures CertificateOn(p, s.nodes[j].commits, m.notify.share, s.nodes[j].round)
    {
      PastHolds(p, s, m, j);
    }
  }

  /** A notify comes while nobody runs that is past its round, but those who have taken over another. */
  lemma NotifyHolds(p: Params, s: State, i: int, nd1: Node, m: Msg)
    requires AllHold(p, s) && 0 <= i < |s.nodes| && m.NotifyOn? && MayNotify(s, m) && PastHold(p, s, m)
    requires nd1.round == s.nodes[i].round == m.round && nd1.commits == s.nodes[i].commits
    requires !s.nodes[i].pc.Crashed?
    ensures AllHold(p, s.(nodes := s.nodes[i := nd1], net := s.net + {m}))
  {
    var s1 := s.(nodes := s.nodes[i := nd1], net := s.net + {m});
    forall j | 0 <= j < |s1.nodes| ensures NodeHolds(p, s1.nodes[j], s1.net) {
      assert NodeHolds(p, s.nodes[j], s.net);
    }
    forall x | x in s1.net ensures VoteHolds(p, x, s1.net) {
      assert x != m ==> VoteHolds(p, x, s.net);
    }
  }

  lemma NotifyInstallHolds(p: Params, s: State, i: int, m: Msg)
    requires Inv(p, s) && AllHold(p, s) && 0 <= i < |s.nodes| && s.nodes[i].pc.Commits?
    requires m.NotifyOn? && m.round == s.nodes[i].round && s.clock == 6 * m.round + 4
    requires Accepted(p, s.net, m.round, m.notify.share)
    ensures var nd := s.nodes[i];
      var nd1 := nd.(ticks := nd.ticks + 1, pc := Notified(m.notify.share, m.notify.commits));
      AllHold(p, s.(nodes := s.nodes[i := nd1], net := s.net + {m}))
  {
    var nd := s.nodes[i];
    NotifyAllowed(p, s, m);
    AllPastHold(p, s, m);
    NotifyHolds(p, s, i, nd.(ticks := nd.ticks + 1, pc := Notified(m.notify.share, m.notify.commits)), m);
  }

  lemma NotifyTickHolds(p: Params, s: State, i: int, order: seq<int>, pick: Digest)
    requires Inv(p, s) && AllHold(p, s) && Enabled(p, s, Tick(i, order, pick)) && s.nodes[i].pc.Commits?
    requires |Group(s.nodes[i].received, order, pick)| >= p.t + 1
    ensures AllHold(p, Install(s, i, OnTick(p, i, s.nodes[i], order, pick)))
  {
    var nd := s.nodes[i];
    var group := Group(nd.received, order, pick);
    GroupNotify(p, s, i, order, pick);
    NotifyInstallHolds(p, s, i, NotifyOn(nd.round, Notify(i, nd.round, group[0].share, group)));
    TickNotifies(p, s, i, order, pick);
  }

  /** Within a round a tick leaves the commits alone, and it votes with what the node holds. */
  lemma TickStays(p: Params, i: int, nd: Node, order: seq<int>, pick: Digest)
    requires !nd.pc.Notified? && !nd.pc.AwaitNotify?
    ensures var o := OnTick(p, i, nd, order, pick);
      && o.node.round == nd.round && o.node.commits == nd.commits
      && (o.node.pc.Crashed? <==> nd.pc.Crashed?)
      && forall m :: m in o.sent && m.VoteTo? ==> m.round == nd.round && m.vote.vote.commits == nd.commits
  {
    match nd.pc
    case Collect =>
    case WaitTwo =>
    case Proposals =>
    case Commits =>
    case RoundEnd =>
    case _ =>
  }

  lemma PlainTickHolds(p: Params, s: State, i: int, order: seq<int>, pick: Digest)
    requires AllHold(p, s) && Enabled(p, s, Tick(i, order, pick))
    requires var nd := s.nodes[i];
      && !nd.pc.Notified? && !nd.pc.AwaitNotify?
      && (nd.pc.Commits? ==> |Group(nd.received, order, pick)| < p.t + 1)
    ensures AllHold(p, Do(p, s, Tick(i, order, pick)))
  {
    var nd := s.nodes[i];
    TickStays(p, i, nd, order, pick);
    OnlyGroupsNotify(p, i, nd, order, pick);
    assert NodeHolds(p, nd, s.net);
    TurnHolds(p, s, i, OnTick(p, i, nd, order, pick));
  }

  /** The tick at which graded consensus returns with grade 2 or 0. */
  lemma ResultTickHolds(p: Params, s: State, i: int, order: seq<int>, pick: Digest)
    requires Inv(p, s) && AllHold(p, s) && Enabled(p, s, Tick(i, order, pick))
    requires s.nodes[i].pc.Notified? || s.nodes[i].pc.AwaitNotify?
    ensures AllHold(p, Do(p, s, Tick(i, order, pick)))
  {
    var nd := s.nodes[i];
    var o := OnTick(p, i, nd, order, pick);
    assert NodeHolds(p, nd, s.net) && NodeData(p, i, nd, s.net);
    if nd.pc.Notified? {
      AdopterHolds(p, s, o.node, NotifyOn(nd.round, Notify(i, nd.round, nd.pc.share, nd.pc.commits)));
    } else {
      KeeperHolds(p, s, nd, o.node);
    }
    assert o.sent == [];
    TurnHolds(p, s, i, o);
  }

  lemma TickHolds(p: Params, s: State, i: int, order: seq<int>, pick: Digest)
    requires Inv(p, s) && AllHold(p, s) && Enabled(p, s, Tick(i, order, pick))
    ensures AllHold(p, Do(p, s, Tick(i, order, pick)))
  {
    var nd := s.nodes[i];
    if nd.pc.Notified? || nd.pc.AwaitNotify? {
      ResultTickHolds(p, s, i, order, pick);
    } else if nd.pc.Commits? && |Group(nd.received, order, pick)| >= p.t + 1 {
      NotifyTickHolds(p, s, i, order, pick);
    } else {
      PlainTickHolds(p, s, i, order, pick);
    }
  }

  lemma {:induction false} RunHolds(p: Params, inputs: seq<Option<BlockShare>>, steps: seq<Step>)
    ensures AllHold(p, Run(p, inputs, steps))
  {
    if steps == [] {
      var s := Init(p, inputs);
      forall m | m in s.net ensures m.VoteTo? {
        var i :| 0 <= i < |inputs| && m in InitNode(p, i, inputs[i]).sent;
      }
    } else {
      var s := Run(p, inputs, steps[..|steps| - 1]);
      RunHolds(p, inputs, steps[..|steps| - 1]);
      RunInv(p, inputs, steps[..|steps| - 1]);
      if Enabled(p, s, steps[|steps| - 1]) {
        match steps[|steps| - 1]
        case Clock =>
        case Tick(i, order, pick) => TickHolds(p, s, i, order, pick);
        case Receive(i, m) => ReceiveHolds(p, s, i, m);
        case Crash(i) =>
      }
    }
  }

  /** After a notify on B in round k, in every run, every vote of a later round is for B and carries
      t+1 nodes' commits on B, and every running node past round k has such commits. */
  lemma VotesCertified(p: Params, inputs: seq<Option<BlockShare>>, steps: seq<Step>)
    ensures var s := Run(p, inputs, steps);
      && (forall x, m | x in s.net && m in s.net && x.NotifyOn? && m.VoteTo? && m.round > x.round ::
            m.vote.vote.share == x.notify.share && CertificateOn(p, m.vote.vote.commits, x.notify.share, m.round))
      && (forall x, j | x in s.net && x.NotifyOn? && 0 <= j < |s.nodes| && !s.nodes[j].pc.Crashed?
                        && s.nodes[j].round > x.round ::
            CertificateOn(p, s.nodes[j].commits, x.notify.share, s.nodes[j].round))
  {
    RunHolds(p, inputs, steps);
    GradeTwoLocks(p, inputs, steps);
  }

  // ---- Which proposals are accepted

  lemma {:induction false} SendersFew(commits: seq<Commit>)
    ensures |CommitSenders(commits)| <= |commits|
  {
    if commits == [] {
      assert CommitSenders(commits) == {};
    } else {
      SendersFew(commits[1..]);
      assert commits == [commits[0]] + commits[1..];
      assert CommitSenders(commits) == {commits[0].sender} + CommitSenders(commits[1..]);
    }
  }

  lemma LaterRule(p: Params, s: State, m: Msg)
    requires Inv(p, s) && AllHold(p, s) && CommitsNotified(s) && m in s.net && m.Propose? && m.round != 0
    ensures VoteRule(p, m.round, m.proposal.vote) <==> NotifyBefore(s.net, m.round)
  {
    var q := m.proposal;
    ProposalVotes(p, s, m);
    var v :| VoteTo(m.round, q.sender, v) in s.net && v.vote == q.vote;
    var x := VoteTo(m.round, q.sender, v);
    assert VoteHolds(p, x, s.net);
    if NotifyBefore(s.net, m.round) {
      var y :| y in s.net && y.NotifyOn? && y.round < m.round;
      assert CertificateOn(p, q.vote.commits, y.notify.share, m.round);
      SendersFew(q.vote.commits);
    } else {
      assert x.vote.vote.commits == [];
    }
  }

  /** In every run a proposal is valid at every reader if and only if it is one of round 0 or there
      was a notify in an earlier round. */
  lemma AcceptedExactly(p: Params, inputs: seq<Option<BlockShare>>, steps: seq<Step>, m: Msg)
    requires m in Run(p, inputs, steps).net && m.Propose?
    ensures CheckProposal(p, m.round, m.proposal) == Accept <==>
            m.round == 0 || NotifyBefore(Run(p, inputs, steps).net, m.round)
  {
    RunInv(p, inputs, steps);
    RunCommits(p, inputs, steps);
    RunHolds(p, inputs, steps);
    if m.round == 0 {
      FirstProposal(p, Run(p, inputs, steps), m);
    } else {
      LaterRule(p, Run(p, inputs, steps), m);
      ProposalRule(p, Run(p, inputs, steps), m);
    }
  }
}
