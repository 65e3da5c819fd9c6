/** What benign runs of block agreement have besides agreement: every round takes its six ticks,
    and graded consensus keeps its promises within a round. */
module BlockAgreementRounds {
  import opened Blocks
  import opened BlockAgreement
  import opened BlockAgreementSafety

  // ---- Ticks

  /** Where a node is says how many ticks it has consumed: proposals are handled right after tick
      6r+2 of round r, the propose protocol never gives up without output, and a node that still
      runs has consumed fewer than the 7*kappa - 1 ticks its ticker emits. */
  lemma TickDiscipline(p: Params, inputs: seq<Option<BlockShare>>, steps: seq<Step>)
    ensures var s := Run(p, inputs, steps);
      forall i | 0 <= i < |s.nodes| ::
        var nd := s.nodes[i];
        && !nd.pc.Stuck?
        && (nd.pc.Proposals? ==> nd.ticks == 6 * nd.round + 2)
        && (nd.pc.Commits? ==> nd.ticks == 6 * nd.round + 2 || nd.ticks == 6 * nd.round + 3)
        && (nd.pc.Notified? ==> nd.ticks == 6 * nd.round + 4)
        && (nd.pc.AwaitNotify? ==> nd.ticks == 6 * nd.round + 3 || nd.ticks == 6 * nd.round + 4)
        && (Live(nd) ==> nd.ticks + 1 <= 6 * p.kappa <= 7 * p.kappa - 1)
        && (nd.pc.Done? ==> nd.ticks == 6 * p.kappa - 1 || nd.ticks == 6 * p.kappa)
  {
    RunInv(p, inputs, steps);
    var s := Run(p, inputs, steps);
    forall i | 0 <= i < |s.nodes|
      ensures var nd := s.nodes[i]; NodeTime(p, nd, s.net, s.clock)
    {
    }
  }

  /** The tick that ends round k - 1 is tick 6k - 1 or 6k: this is where round k starts. */
  lemma RoundStart(p: Params, inputs: seq<Option<BlockShare>>, steps: seq<Step>, i: int,
                   order: seq<int>, pick: Digest)
    requires Enabled(p, Run(p, inputs, steps), Tick(i, order, pick))
    requires Run(p, inputs, steps).nodes[i].pc.RoundEnd?
    ensures var k := Run(p, inputs, steps).nodes[i].round;
      var nd := Run(p, inputs, steps + [Tick(i, order, pick)]).nodes[i];
      && nd.round == k > 0
      && (nd.ticks == 6 * k - 1 || nd.ticks == 6 * k)
      && (if k == p.kappa then nd.pc == Done
          else nd.pc == if i == p.leader(k) then Collect else WaitTwo)
  {
    RunInv(p, inputs, steps);
    var s := Run(p, inputs, steps);
    assert NodeTime(p, s.nodes[i], s.net, s.clock);
    var more := steps + [Tick(i, order, pick)];
    assert more[..|more| - 1] == steps;
  }

  // ---- One round of graded consensus

  /** Whatever block is committed to or notified in a round is the block of its proposal, so all
      results of grade 1 and 2 of a round carry one block share. */
  lemma OneBlockPerRound(p: Params, inputs: seq<Option<BlockShare>>, steps: seq<Step>)
    ensures var s := Run(p, inputs, steps);
      && (forall m, m' | m in s.net && m' in s.net && m.round == m'.round
                         && (m.CommitOn? || m.NotifyOn?) && (m'.CommitOn? || m'.NotifyOn?) ::
            Block(m) == Block(m'))
      && (forall i, m | 0 <= i < |s.nodes| && s.nodes[i].pc.Notified? && m in s.net
                        && (m.CommitOn? || m.NotifyOn?) && m.round == s.nodes[i].round ::
            s.nodes[i].pc.share == Block(m))
  {
    RunInv(p, inputs, steps);
    var s := Run(p, inputs, steps);
    forall m, m' | m in s.net && m' in s.net && m.round == m'.round
                   && (m.CommitOn? || m.NotifyOn?) && (m'.CommitOn? || m'.NotifyOn?)
      ensures Block(m) == Block(m')
    {
      assert GoodMsg(p, s.net, s.clock, m) && GoodMsg(p, s.net, s.clock, m');
      OneBlock(p, s, m.round, Block(m), Block(m'));
    }
    forall i, m | 0 <= i < |s.nodes| && s.nodes[i].pc.Notified? && m in s.net
                  && (m.CommitOn? || m.NotifyOn?) && m.round == s.nodes[i].round
      ensures s.nodes[i].pc.share == Block(m)
    {
      var nd := s.nodes[i];
      assert NodeData(p, i, nd, s.net);
      var x := NotifyOn(nd.round, Notify(i, nd.round, nd.pc.share, nd.pc.commits));
      assert x in s.net && Block(x) == nd.pc.share;
      assert GoodMsg(p, s.net, s.clock, m) && GoodMsg(p, s.net, s.clock, x);
      OneBlock(p, s, m.round, Block(m), Block(x));
    }
  }

  function Block(m: Msg): BlockShare
    requires m.CommitOn? || m.NotifyOn?
  {
    if m.CommitOn? then m.commit.share else m.notify.share
  }

  lemma {:induction false} GroupMember(received: map<int, Commit>, order: seq<int>, hash: Digest)
    requires Group(received, order, hash) != []
    ensures exists k :: k in received && ShareHash(received[k].share) == hash
  {
    var k := order[0];
    if k in received && ShareHash(received[k].share) == hash {
      assert k in received;
    } else {
      GroupMember(received, order[1..], hash);
    }
  }

  /** At most one group reaches t+1, so the result of findSubset does not depend on the map order. */
  lemma OneLargeGroup(p: Params, inputs: seq<Option<BlockShare>>, steps: seq<Step>, i: int,
                      order: seq<int>, h: Digest, h': Digest)
    requires var s := Run(p, inputs, steps); 0 <= i < |s.nodes| && s.nodes[i].pc.Commits?
    requires var s := Run(p, inputs, steps);
      |Group(s.nodes[i].received, order, h)| >= p.t + 1 && |Group(s.nodes[i].received, order, h')| >= p.t + 1
    ensures h == h'
  {
    var s := Run(p, inputs, steps);
    var received := s.nodes[i].received;
    RunInv(p, inputs, steps);
    assert NodeData(p, i, s.nodes[i], s.net);
    GroupMember(received, order, h);
    GroupMember(received, order, h');
    var k :| k in received && ShareHash(received[k].share) == h;
    var k' :| k' in received && ShareHash(received[k'].share) == h';
    OneBlockPerRound(p, inputs, steps);
    var m, m' := CommitOn(s.nodes[i].round, received[k]), CommitOn(s.nodes[i].round, received[k']);
    assert m in s.net && m' in s.net && Block(m) == Block(m');
  }

  /** Whoever reads a notify finds it valid: it takes over its block and its commits, puts nothing out,
      and waits for the tick that starts the next round. */
  lemma NotifiesAdopted(p: Params, inputs: seq<Option<BlockShare>>, steps: seq<Step>, i: int, m: Msg)
    requires Enabled(p, Run(p, inputs, steps), Receive(i, m)) && m.NotifyOn?
    ensures var nd := Run(p, inputs, steps).nodes[i];
      Run(p, inputs, steps + [Receive(i, m)]).nodes[i] ==
      nd.(share := m.notify.share, commits := m.notify.commits, round := nd.round + 1, pc := RoundEnd)
  {
    RunInv(p, inputs, steps);
    NotifyTaken(p, Run(p, inputs, steps), i, m);
    var more := steps + [Receive(i, m)];
    assert more[..|more| - 1] == steps;
  }

  lemma NotifyTaken(p: Params, s: State, i: int, m: Msg)
    requires Inv(p, s) && Enabled(p, s, Receive(i, m)) && m.NotifyOn?
    ensures var nd := s.nodes[i];
      Do(p, s, Receive(i, m)).nodes[i] ==
      nd.(share := m.notify.share, commits := m.notify.commits, round := nd.round + 1, pc := RoundEnd)
  {
    NotifyValid(p, s, m);
  }

  // ---- A grade 2 excludes a grade 0

  /** No notify of round r has been sent, and none can be. */
  ghost predicate TooLate(p: Params, s: State, r: int) {
    !NotifySent(s.net, r) && (s.clock >= 6 * r + 5 || Rejected(p, s.net, r))
  }

  lemma QuietKeeps(p: Params, s: State, i: int, o: Outcome, r: int)
    requires TooLate(p, s, r) && 0 <= i < |s.nodes|
    requires forall m :: m in o.sent ==> !(m.NotifyOn? && m.round == r)
    ensures TooLate(p, Install(s, i, o), r)
  {
    RejectedGrows(p, s.net, Install(s, i, o).net, r);
  }

  lemma OnlyGroupsNotify(p: Params, i: int, nd: Node, order: seq<int>, pick: Digest)
    ensures forall m :: m in OnTick(p, i, nd, order, pick).sent && m.NotifyOn? ==>
              nd.pc.Commits? && m.round == nd.round && |Group(nd.received, order, pick)| >= p.t + 1
  {
    match nd.pc
    case Collect =>
    case WaitTwo =>
    case Proposals =>
    case Commits =>
    case Notified(_, _) =>
    case AwaitNotify =>
    case RoundEnd =>
    case _ =>
  }

  lemma LateTick(p: Params, s: State, i: int, order: seq<int>, pick: Digest, r: int)
    requires Inv(p, s) && TooLate(p, s, r) && Enabled(p, s, Tick(i, order, pick))
    ensures TooLate(p, Install(s, i, OnTick(p, i, s.nodes[i], order, pick)), r)
  {
    NoLateGroup(p, s, i, order, pick, r);
    OnlyGroupsNotify(p, i, s.nodes[i], order, pick);
    QuietKeeps(p, s, i, OnTick(p, i, s.nodes[i], order, pick), r);
  }

  /** Then no group of commits is large enough for a notify either. */
  lemma NoLateGroup(p: Params, s: State, i: int, order: seq<int>, pick: Digest, r: int)
    requires Inv(p, s) && TooLate(p, s, r) && Enabled(p, s, Tick(i, order, pick))
    ensures s.nodes[i].pc.Commits? && s.nodes[i].round == r ==> |Group(s.nodes[i].received, order, pick)| < p.t + 1
  {
    var nd := s.nodes[i];
    var group := Group(nd.received, order, pick);
    assert NodeTime(p, nd, s.net, s.clock);
    if nd.pc.Commits? && nd.round == r && |group| >= p.t + 1 {
      GroupSent(p, s, i, order, pick);
      assert group[0] in group;
      OneBlock(p, s, r, group[0].share, group[0].share);
    }
  }

  lemma LateStep(p: Params, s: State, step: Step, r: int)
    requires Inv(p, s) && TooLate(p, s, r)
    ensures TooLate(p, Do(p, s, step), r)
  {
    if Enabled(p, s, step) {
      match step
      case Clock =>
      case Tick(i, order, pick) => LateTick(p, s, i, order, pick, r);
      case Receive(i, m) => QuietKeeps(p, s, i, OnMessage(p, i, s.nodes[i], m), r);
      case Crash(i) =>
    }
  }

  lemma {:induction false} LateForever(p: Params, inputs: seq<Option<BlockShare>>, steps: seq<Step>,
                                       more: seq<Step>, r: int)
    requires TooLate(p, Run(p, inputs, steps), r)
    ensures TooLate(p, Run(p, inputs, steps + more), r)
  {
    if more == [] {
      assert steps + more == steps;
    } else {
      var before := more[..|more| - 1];
      var all := steps + more;
      assert all[..|all| - 1] == steps + before;
      LateForever(p, inputs, steps, before, r);
      RunInv(p, inputs, steps + before);
      LateStep(p, Run(p, inputs, steps + before), more[|more| - 1], r);
    }
  }

  /** Graded consistency: when a node leaves a round with grade 0, no node ever sends a notify in
      that round, before or after; so one grade 2 forces a grade of at least 1 on every node that
      stays up. */
  lemma GradeZeroExcludesTwo(p: Params, inputs: seq<Option<BlockShare>>, steps: seq<Step>, i: int,
                             order: seq<int>, pick: Digest, more: seq<Step>)
    requires Enabled(p, Run(p, inputs, steps), Tick(i, order, pick))
    requires Run(p, inputs, steps).nodes[i].pc.AwaitNotify?
    ensures !NotifySent(Run(p, inputs, steps + more).net, Run(p, inputs, steps).nodes[i].round)
  {
    RunInv(p, inputs, steps);
    var s := Run(p, inputs, steps);
    assert NodeTime(p, s.nodes[i], s.net, s.clock);
    LateForever(p, inputs, steps, more, s.nodes[i].round);
  }

  // ---- Everything hangs on round 0

  ghost predicate NotifyBefore(net: set<Msg>, round: int) {
    exists m :: m in net && m.NotifyOn? && m.round < round
  }

  /** Rounds count from 0; commits come out of a notify, so a node or a vote that has some has a
      notify before it. */
  ghost predicate CommitsNotified(s: State) {
    && (forall m :: m in s.net ==> m.round >= 0)
    && (forall i | 0 <= i < |s.nodes| && s.nodes[i].commits != [] :: NotifyBefore(s.net, s.nodes[i].round))
    && (forall m | m in s.net && m.VoteTo? && m.vote.vote.commits != [] :: NotifyBefore(s.net, m.round))
  }

  lemma BeforeGrows(net: set<Msg>, net1: set<Msg>, r: int, r1: int)
    requires net <= net1 && r <= r1
    ensures NotifyBefore(net, r) ==> NotifyBefore(net1, r1)
  {
    if NotifyBefore(net, r) {
      var m :| m in net && m.NotifyOn? && m.round < r;
      assert m in net1;
    }
  }

  /** A step that hands its node no commits without a notify, and votes with what the node holds. */
  lemma CommitsKeep(s: State, i: int, o: Outcome)
    requires CommitsNotified(s) && 0 <= i < |s.nodes| && o.node.round >= s.nodes[i].round >= 0
    requires o.node.commits == s.nodes[i].commits || NotifyBefore(s.net, o.node.round)
    requires forall m | m in o.sent :: m.round == s.nodes[i].round
    requires forall m | m in o.sent && m.VoteTo? :: m.vote.vote.commits == s.nodes[i].commits
    ensures CommitsNotified(Install(s, i, o))
  {
    var s1 := Install(s, i, o);
    forall j | 0 <= j < |s1.nodes| && s1.nodes[j].commits != [] ensures NotifyBefore(s1.net, s1.nodes[j].round) {
      BeforeGrows(s.net, s1.net, s.nodes[j].round, s1.nodes[j].round);
      BeforeGrows(s.net, s1.net, s1.nodes[j].round, s1.nodes[j].round);
    }
    forall m | m in s1.net && m.VoteTo? && m.vote.vote.commits != [] ensures NotifyBefore(s1.net, m.round) {
      BeforeGrows(s.net, s1.net, m.round, m.round);
    }
  }

  lemma TickCommits(p: Params, s: State, i: int, order: seq<int>, pick: Digest)
    requires Inv(p, s) && CommitsNotified(s) && Enabled(p, s, Tick(i, order, pick))
    ensures CommitsNotified(Do(p, s, Tick(i, order, pick)))
  {
    var nd := s.nodes[i];
    assert NodeTime(p, nd, s.net, s.clock);
    if nd.pc.Notified? {
      assert NodeData(p, i, nd, s.net);
      assert NotifyOn(nd.round, Notify(i, nd.round, nd.pc.share, nd.pc.commits)) in s.net;
    }
    CommitsKeep(s, i, OnTick(p, i, nd, order, pick));
  }

  /** A message leaves a node's commits alone, unless it is a notify. */
  lemma MessageCommits(p: Params, i: int, nd: Node, m: Msg)
    requires m.round == nd.round
    ensures var o := OnMessage(p, i, nd, m);
      && o.node.round >= nd.round
      && (o.node.commits == nd.commits || (m.NotifyOn? && o.node.round == nd.round + 1))
      && forall x :: x in o.sent ==> x.round == nd.round && !x.VoteTo?
  {
    match m
    case VoteTo(_, _, vote) => assert OnVote(p, nd, vote).commits == nd.commits;
    case Propose(_, proposal) =>
    case CommitOn(_, commit) =>
    case NotifyOn(_, notify) =>
  }

  lemma ReceiveCommits(p: Params, s: State, i: int, m: Msg)
    requires Inv(p, s) && CommitsNotified(s) && Enabled(p, s, Receive(i, m))
    ensures CommitsNotified(Do(p, s, Receive(i, m)))
  {
    assert NodeTime(p, s.nodes[i], s.net, s.clock);
    MessageCommits(p, i, s.nodes[i], m);
    CommitsKeep(s, i, OnMessage(p, i, s.nodes[i], m));
  }

  lemma {:induction false} RunCommits(p: Params, inputs: seq<Option<BlockShare>>, steps: seq<Step>)
    ensures CommitsNotified(Run(p, inputs, steps))
  {
    if steps == [] {
      var s := Init(p, inputs);
      forall m | m in s.net ensures m.VoteTo? && m.vote.vote.commits == [] && m.round == 0 {
        var i :| 0 <= i < |inputs| && m in InitNode(p, i, inputs[i]).sent;
      }
    } else {
      var s := Run(p, inputs, steps[..|steps| - 1]);
      RunCommits(p, inputs, steps[..|steps| - 1]);
      RunInv(p, inputs, steps[..|steps| - 1]);
      if Enabled(p, s, steps[|steps| - 1]) {
        match steps[|steps| - 1]
        case Clock =>
        case Tick(i, order, pick) => TickCommits(p, s, i, order, pick);
        case Receive(i, m) => ReceiveCommits(p, s, i, m);
        case Crash(i) =>
      }
    }
  }

  /** The proposal behind a notify of a later round carries commits, so a notify came earlier. */
  lemma EarlierNotify(p: Params, s: State, m: Msg)
    requires Inv(p, s) && CommitsNotified(s) && m in s.net && m.NotifyOn? && m.round != 0
    ensures NotifyBefore(s.net, m.round)
  {
    NotifyAccepted(p, s, m);
    var q :| q in s.net && q.Propose? && q.round == m.round
      && CheckProposal(p, m.round, q.proposal) == Accept && q.proposal.vote.share == m.notify.share;
    assert GoodMsg(p, s.net, s.clock, q);
    var k :| k in q.proposal.votes && q.proposal.votes[k].vote == q.proposal.vote;
    assert VoteTo(q.round, q.proposal.sender, q.proposal.votes[k]) in s.net;
  }

  lemma {:induction false} RoundZeroNotify(p: Params, s: State, m: Msg)
    requires Inv(p, s) && CommitsNotified(s) && m in s.net && m.NotifyOn?
    ensures NotifySent(s.net, 0)
    decreases m.round
  {
    if m.round != 0 {
      EarlierNotify(p, s, m);
      var x :| x in s.net && x.NotifyOn? && x.round < m.round;
      RoundZeroNotify(p, s, x);
    }
  }

  /** A notify of round 0 carried this block. */
  ghost predicate FirstNotified(net: set<Msg>, b: BlockShare) {
    exists m :: m in net && m.NotifyOn? && m.round == 0 && m.notify.share == b
  }

  /** Votes are cast with the current round, and a vote of a later round needs commits: only the
      block that round 0 notifies can ever be put out, and without a notify in round 0 nothing is. */
  lemma RoundZeroDecides(p: Params, inputs: seq<Option<BlockShare>>, steps: seq<Step>)
    ensures var s := Run(p, inputs, steps);
      forall i, b | 0 <= i < |s.nodes| && b in s.nodes[i].outs :: FirstNotified(s.net, b)
  {
    RunInv(p, inputs, steps);
    RunCommits(p, inputs, steps);
    var s := Run(p, inputs, steps);
    forall i, b | 0 <= i < |s.nodes| && b in s.nodes[i].outs ensures FirstNotified(s.net, b) {
      OutputNotified(p, s, i, b);
    }
  }

  lemma OutputNotified(p: Params, s: State, i: int, b: BlockShare)
    requires Inv(p, s) && CommitsNotified(s) && 0 <= i < |s.nodes| && b in s.nodes[i].outs
    ensures FirstNotified(s.net, b)
  {
    assert NodeData(p, i, s.nodes[i], s.net);
    var m :| m in s.net && m.NotifyOn? && m.round < s.nodes[i].round && m.notify.share == b;
    RoundZeroNotify(p, s, m);
    var z :| z in s.net && z.NotifyOn? && z.round == 0;
    NotifiesAgree(p, s, z, m);
  }

  // ---- A first leader that takes no part

  ghost predicate Silent(s: State, l: int) {
    && 0 <= l < |s.nodes| && s.nodes[l].pc.Crashed?
    && forall m | m in s.net && m.Propose? :: m.proposal.sender != l
  }

  lemma {:induction false} SilentRun(p: Params, inputs: seq<Option<BlockShare>>, steps: seq<Step>, l: int)
    requires 0 <= l < |inputs| && inputs[l] == None
    ensures Silent(Run(p, inputs, steps), l)
  {
    if steps == [] {
      var s := Init(p, inputs);
      forall m | m in s.net ensures m.VoteTo? {
        var i :| 0 <= i < |inputs| && m in InitNode(p, i, inputs[i]).sent;
      }
    } else {
      SilentRun(p, inputs, steps[..|steps| - 1], l);
      SilentStep(p, Run(p, inputs, steps[..|steps| - 1]), steps[|steps| - 1], l);
    }
  }

  lemma SilentStep(p: Params, s: State, step: Step, l: int)
    requires Silent(s, l)
    ensures Silent(Do(p, s, step), l)
  {
    if Enabled(p, s, step) {
      match step
      case Clock =>
      case Tick(i, order, pick) =>
      case Receive(i, m) => MessageForwards(p, i, s.nodes[i], m);
      case Crash(i) =>
    }
  }

  /** Handling a message sends nothing but the message itself: a forwarded proposal. */
  lemma MessageForwards(p: Params, i: int, nd: Node, m: Msg)
    requires m.round == nd.round
    ensures forall x :: x in OnMessage(p, i, nd, m).sent ==> x == m
  {
  }

  /** When the leader of round 0 takes no part, no node ever puts out a block, in any round. */
  lemma FirstLeaderSilent(p: Params, inputs: seq<Option<BlockShare>>, steps: seq<Step>)
    requires 0 <= p.leader(0) < |inputs| && inputs[p.leader(0)] == None
    ensures var s := Run(p, inputs, steps); forall i | 0 <= i < |s.nodes| :: s.nodes[i].outs == []
  {
    RunInv(p, inputs, steps);
    RunCommits(p, inputs, steps);
    SilentRun(p, inputs, steps, p.leader(0));
    var s := Run(p, inputs, steps);
    forall i | 0 <= i < |s.nodes| ensures s.nodes[i].outs == [] || NotifySent(s.net, 0) {
      if s.nodes[i].outs != [] {
        OutputNotified(p, s, i, s.nodes[i].outs[0]);
      }
    }
    NoRoundZeroNotify(p, s);
  }

  lemma NoRoundZeroNotify(p: Params, s: State)
    requires Inv(p, s) && Silent(s, p.leader(0))
    ensures !NotifySent(s.net, 0)
  {
    if NotifySent(s.net, 0) {
      var m :| m in s.net && m.NotifyOn? && m.round == 0;
      NotifyAccepted(p, s, m);
    }
  }
}
