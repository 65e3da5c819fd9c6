/** Block agreement over all benign runs: nodes follow the program or have crashed, at any time
    and in any number; messages are lost, reordered and repeated at will, with one exception: a
    notify reaches every running node that waits for one before that node's next tick. All
    tickers start together and ticks are consumed as they come. */
module BlockAgreementSafety {
  import opened Blocks
  import opened Tables
  import opened BlockAgreement

  /** clock is the number of ticks every ticker has emitted. */
  datatype State = State(nodes: seq<Node>, net: set<Msg>, clock: nat)

  datatype Step =
    | Clock                                               // the tickers emit a tick
    | Tick(i: int, order: seq<int>, pick: Digest)         // node i consumes its next tick
    | Receive(i: int, m: Msg)                             // node i handles a message
    | Crash(i: int)

  /** A node without input does not take part. */
  function InitNode(p: Params, id: int, input: Option<BlockShare>): Outcome {
    match input
    case None =>
      Outcome(Node(0, 0, Crashed, BlockShare(PreBlock([], ""), BlockPointer(Raw(0), Forged(0))), [],
                   map[], None, [], map[], []), [])
    case Some(share) => StartRound(p, id, Node(0, 0, WaitTwo, share, [], map[], None, [], map[], []))
  }

  function Init(p: Params, inputs: seq<Option<BlockShare>>): State {
    State(seq(|inputs|, i requires 0 <= i < |inputs| => InitNode(p, i, inputs[i]).node),
          set i, m | 0 <= i < |inputs| && m in InitNode(p, i, inputs[i]).sent :: m, 0)
  }

  ghost predicate NotifySent(net: set<Msg>, round: int) {
    exists m :: m in net && m.NotifyOn? && m.round == round
  }

  ghost predicate Enabled(p: Params, s: State, step: Step) {
    match step
    case Clock =>
      && s.clock + 1 < 7 * p.kappa
      && (forall i :: 0 <= i < |s.nodes| && Live(s.nodes[i]) ==> s.nodes[i].ticks == s.clock)
      && (forall i :: 0 <= i < |s.nodes| && s.nodes[i].pc.AwaitNotify? ==> !NotifySent(s.net, s.nodes[i].round))
    case Tick(i, order, pick) =>
      && 0 <= i < |s.nodes| && Live(s.nodes[i]) && s.nodes[i].ticks < s.clock
      && IsOrder(order, s.nodes[i].received) && GoodPick(p, s.nodes[i].received, order, pick)
    case Receive(i, m) => 0 <= i < |s.nodes| && m in s.net && Reads(i, s.nodes[i], m)
    case Crash(i) => 0 <= i < |s.nodes|
  }

  function Install(s: State, i: int, o: Outcome): State
    requires 0 <= i < |s.nodes|
  {
    s.(nodes := s.nodes[i := o.node], net := s.net + Members(o.sent))
  }

  ghost function Do(p: Params, s: State, step: Step): State {
    if !Enabled(p, s, step) then s else
    match step
    case Clock => s.(clock := s.clock + 1)
    case Tick(i, order, pick) => Install(s, i, OnTick(p, i, s.nodes[i], order, pick))
    case Receive(i, m) => Install(s, i, OnMessage(p, i, s.nodes[i], m))
    case Crash(i) => s.(nodes := s.nodes[i := s.nodes[i].(pc := Crashed)])
  }

  /** The state after a run; a step that is not enabled changes nothing. */
  ghost function Run(p: Params, inputs: seq<Option<BlockShare>>, steps: seq<Step>): State {
    if steps == [] then Init(p, inputs)
    else Do(p, Run(p, inputs, steps[..|steps| - 1]), steps[|steps| - 1])
  }

  // ---- Time: what the number of consumed ticks says about where a node is

  /** The leader's proposal of the round is one that every receiver rejects. */
  ghost predicate Rejected(p: Params, net: set<Msg>, round: int) {
    exists m :: m in net && m.Propose? && m.round == round && CheckProposal(p, round, m.proposal) != Accept
  }

  /** Ticks consumed since tick 6r, where a node that leads or waits in round r may start one early. */
  ghost predicate OnTime(p: Params, nd: Node, net: set<Msg>) {
    var age := nd.ticks - 6 * nd.round;
    match nd.pc
    case Collect => -1 <= age <= 0
    case WaitTwo => -1 <= age <= 1
    case Proposals => age == 2
    case Commits => age == 3 || (age == 2 && Rejected(p, net, nd.round))
    case Notified(_, _) => age == 4
    case AwaitNotify => age == 4 || (age == 3 && Rejected(p, net, nd.round))
    case RoundEnd =>
      age == -1 || (age == -2 && (Rejected(p, net, nd.round - 1) || NotifySent(net, nd.round - 1)))
    case Done => -1 <= age <= 0
    case Stuck => false
    case Crashed => true
  }

  ghost predicate NodeTime(p: Params, nd: Node, net: set<Msg>, clock: nat) {
    && OnTime(p, nd, net)
    && nd.round >= 0
    && (nd.pc.Done? ==> nd.round == p.kappa)
    && (Live(nd) ==> clock - 1 <= nd.ticks <= clock)
    && (nd.pc.Done? ==> nd.ticks <= clock)
    && (Live(nd) && !nd.pc.RoundEnd? ==> nd.round < p.kappa)
    && (nd.pc.RoundEnd? ==> 0 < nd.round <= p.kappa)
  }

  // ---- Data: what nodes hold and messages carry

  /** The round's proposal is acceptable and is for this block. */
  ghost predicate Accepted(p: Params, net: set<Msg>, round: int, share: BlockShare) {
    exists m :: m in net && m.Propose? && m.round == round
      && CheckProposal(p, round, m.proposal) == Accept && m.proposal.vote.share == share
  }

  /** A node in round r has been told that this block got a notify in an earlier round. */
  ghost predicate NotifiedEarlier(net: set<Msg>, round: int, share: BlockShare) {
    exists m :: m in net && m.NotifyOn? && m.round < round && m.notify.share == share
  }

  /** Votes a leader may propose with: cast in this round, sent to it, signed, for a valid block. */
  ghost predicate VotesSent(p: Params, net: set<Msg>, round: int, leader: int, votes: map<int, VoteMsg>) {
    forall k :: k in votes ==>
      VoteTo(round, leader, votes[k]) in net && votes[k].sigOk && CheckShare(p, votes[k].vote.share) == Accept
  }

  ghost predicate LeaderHolds(p: Params, nd: Node, net: set<Msg>) {
    && nd.forwarded == []
    && match nd.leaderProposal
       case None => true
       case Some(q) => Propose(nd.round, q) in net && CheckProposal(p, nd.round, q) == Accept
  }

  ghost predicate NodeData(p: Params, i: int, nd: Node, net: set<Msg>) {
    && (nd.pc.Collect? ==> p.leader(nd.round) == i && VotesSent(p, net, nd.round, i, nd.votes))
    && (nd.pc.Proposals? ==> LeaderHolds(p, nd, net))
    && (nd.pc.Commits? ==>
          forall k :: k in nd.received ==> CommitOn(nd.round, nd.received[k]) in net && nd.received[k].sender == k)
    && (nd.pc.Notified? ==> NotifyOn(nd.round, Notify(i, nd.round, nd.pc.share, nd.pc.commits)) in net)
    && (forall b :: b in nd.outs ==> NotifiedEarlier(net, nd.round, b))
  }

  ghost predicate GoodMsg(p: Params, net: set<Msg>, clock: nat, m: Msg) {
    match m
    case VoteTo(r, _, v) => v.vote.round == r && v.sigOk && 6 * r - 1 <= clock
    case Propose(r, q) =>
      && q.sender == p.leader(r) && q.sig == Some(true) && 6 * r - 1 <= clock && |q.votes| >= p.t + 1
      && VotesSent(p, net, r, q.sender, q.votes)
      && (exists k :: k in q.votes && q.votes[k].vote == q.vote)
    case CommitOn(r, c) => c.round == r && c.sigOk && Accepted(p, net, r, c.share)
    case NotifyOn(r, q) =>
      && q.round == r && 6 * r + 4 <= clock && Accepted(p, net, r, q.share)
      && (forall c :: c in q.commits ==> CommitOn(r, c) in net)
      && |CommitSenders(q.commits)| >= p.t + 1
  }

  /** The node has yet to collect votes in its round, or does so now. */
  ghost predicate Before(nd: Node) {
    nd.pc.RoundEnd? || nd.pc.Collect?
  }

  /** The round's leader is past collecting votes. */
  ghost predicate LeaderPast(p: Params, nodes: seq<Node>, round: int) {
    var l := p.leader(round);
    && 0 <= l < |nodes| && nodes[l].round >= round
    && (nodes[l].round == round ==> !Before(nodes[l]))
  }

  /** Nobody leads a round twice. */
  ghost predicate OneProposal(p: Params, s: State) {
    && (forall m, m' | m in s.net && m' in s.net && m.Propose? && m'.Propose? && m.round == m'.round :: m == m')
    && (forall m | m in s.net && m.Propose? :: LeaderPast(p, s.nodes, m.round))
  }

  /** The block of a message that was cast in a round. */
  ghost predicate On(m: Msg, share: BlockShare) {
    match m
    case VoteTo(_, _, v) => v.vote.share == share
    case Propose(_, q) => q.vote.share == share
    case CommitOn(_, c) => c.share == share
    case NotifyOn(_, q) => q.share == share
  }

  /** A node that is past the round of a notify is on its block. */
  ghost predicate NodeLocked(nd: Node, net: set<Msg>) {
    !nd.pc.Crashed? ==>
      forall m | m in net && m.NotifyOn? && nd.round > m.round :: nd.share == m.notify.share
  }

  /** So is every vote and proposal of a later round. */
  ghost predicate MsgLocked(m': Msg, net: set<Msg>) {
    m'.VoteTo? || m'.Propose? ==>
      forall m | m in net && m.NotifyOn? && m'.round > m.round :: On(m', m.notify.share)
  }

  /** After a notify in round k, everybody beyond round k is on its block. */
  ghost predicate Locked(s: State) {
    && (forall j :: 0 <= j < |s.nodes| ==> NodeLocked(s.nodes[j], s.net))
    && (forall m :: m in s.net ==> MsgLocked(m, s.net))
  }

  /** Whoever is about to give up waiting for a notify has none to wait for. */
  ghost predicate Timely(s: State) {
    forall j :: 0 <= j < |s.nodes| && s.nodes[j].pc.AwaitNotify? && s.nodes[j].ticks < s.clock ==>
      !NotifySent(s.net, s.nodes[j].round)
  }

  ghost predicate Inv(p: Params, s: State) {
    && (forall i :: 0 <= i < |s.nodes| ==> NodeTime(p, s.nodes[i], s.net, s.clock))
    && (forall i :: 0 <= i < |s.nodes| ==> NodeData(p, i, s.nodes[i], s.net))
    && (forall m :: m in s.net ==> GoodMsg(p, s.net, s.clock, m))
    && OneProposal(p, s) && Locked(s) && Timely(s)
  }

  lemma InitInv(p: Params, inputs: seq<Option<BlockShare>>)
    ensures Inv(p, Init(p, inputs))
  {
    var s := Init(p, inputs);
    forall m | m in s.net ensures m.VoteTo? && GoodMsg(p, s.net, 0, m) && m.round == 0 {
      var i :| 0 <= i < |inputs| && m in InitNode(p, i, inputs[i]).sent;
    }
  }

  // ---- Growing the network and the clock

  lemma TimeGrows(p: Params, nd: Node, net: set<Msg>, net1: set<Msg>, clock: nat)
    requires NodeTime(p, nd, net, clock) && net <= net1
    ensures NodeTime(p, nd, net1, clock)
  {
    if nd.pc.RoundEnd? || nd.pc.Commits? || nd.pc.AwaitNotify? {
      RejectedGrows(p, net, net1, nd.round);
      RejectedGrows(p, net, net1, nd.round - 1);
      NotifySentGrows(net, net1, nd.round - 1);
    }
  }

  lemma RejectedGrows(p: Params, net: set<Msg>, net1: set<Msg>, r: int)
    requires net <= net1
    ensures Rejected(p, net, r) ==> Rejected(p, net1, r)
  {
    if Rejected(p, net, r) {
      var m :| m in net && m.Propose? && m.round == r && CheckProposal(p, r, m.proposal) != Accept;
      assert m in net1;
    }
  }

  lemma NotifySentGrows(net: set<Msg>, net1: set<Msg>, r: int)
    requires net <= net1
    ensures NotifySent(net, r) ==> NotifySent(net1, r)
  {
    if NotifySent(net, r) {
      var m :| m in net && m.NotifyOn? && m.round == r;
      assert m in net1;
    }
  }

  lemma AcceptedGrows(p: Params, net: set<Msg>, net1: set<Msg>, r: int, share: BlockShare)
    requires net <= net1
    ensures Accepted(p, net, r, share) ==> Accepted(p, net1, r, share)
  {
    if Accepted(p, net, r, share) {
      var m :| m in net && m.Propose? && m.round == r
        && CheckProposal(p, r, m.proposal) == Accept && m.proposal.vote.share == share;
      assert m in net1;
    }
  }

  lemma EarlierGrows(net: set<Msg>, net1: set<Msg>, r: int, r1: int, share: BlockShare)
    requires net <= net1 && r <= r1
    ensures NotifiedEarlier(net, r, share) ==> NotifiedEarlier(net1, r1, share)
  {
    if NotifiedEarlier(net, r, share) {
      var m :| m in net && m.NotifyOn? && m.round < r && m.notify.share == share;
      assert m in net1;
    }
  }

  lemma DataGrows(p: Params, i: int, nd: Node, net: set<Msg>, net1: set<Msg>)
    requires NodeData(p, i, nd, net) && net <= net1
    ensures NodeData(p, i, nd, net1)
  {
    forall b | b in nd.outs ensures NotifiedEarlier(net1, nd.round, b) {
      EarlierGrows(net, net1, nd.round, nd.round, b);
    }
  }

  lemma GoodMsgGrows(p: Params, net: set<Msg>, net1: set<Msg>, clock: nat, clock1: nat, m: Msg)
    requires GoodMsg(p, net, clock, m) && net <= net1 && clock <= clock1
    ensures GoodMsg(p, net1, clock1, m)
  {
    match m
    case CommitOn(r, c) => AcceptedGrows(p, net, net1, r, c.share);
    case NotifyOn(r, q) => AcceptedGrows(p, net, net1, r, q.share);
    case _ =>
  }

  lemma ClockKeeps(p: Params, s: State)
    requires Inv(p, s) && Enabled(p, s, Clock)
    ensures Inv(p, s.(clock := s.clock + 1))
  {
    forall m | m in s.net ensures GoodMsg(p, s.net, s.clock + 1, m) {
      GoodMsgGrows(p, s.net, s.net, s.clock, s.clock + 1, m);
    }
  }

  lemma CrashKeeps(p: Params, s: State, i: int)
    requires Inv(p, s) && 0 <= i < |s.nodes|
    ensures Inv(p, s.(nodes := s.nodes[i := s.nodes[i].(pc := Crashed)]))
  {
  }

  // ---- What one round's messages have in common

  /** All accepted blocks of a round are the same, and then nobody rejects the round's proposal. */
  lemma OneBlock(p: Params, s: State, r: int, a: BlockShare, b: BlockShare)
    requires Inv(p, s) && Accepted(p, s.net, r, a) && Accepted(p, s.net, r, b)
    ensures a == b && !Rejected(p, s.net, r)
  {
    var m :| m in s.net && m.Propose? && m.round == r && m.proposal.vote.share == a
      && CheckProposal(p, r, m.proposal) == Accept;
  }

  lemma NotifyAccepted(p: Params, s: State, m: Msg)
    requires Inv(p, s) && m in s.net && m.NotifyOn?
    ensures Accepted(p, s.net, m.round, m.notify.share) && !Rejected(p, s.net, m.round)
  {
    OneBlock(p, s, m.round, m.notify.share, m.notify.share);
  }

  // ---- One node's turn: first the node moves, then its message appears (a notify the other way round)

  ghost predicate NodeTimely(nd: Node, net: set<Msg>, clock: nat) {
    nd.pc.AwaitNotify? && nd.ticks < clock ==> !NotifySent(net, nd.round)
  }

  lemma MoveKeeps(p: Params, s: State, i: int, nd: Node)
    requires Inv(p, s) && 0 <= i < |s.nodes|
    requires NodeTime(p, nd, s.net, s.clock) && NodeData(p, i, nd, s.net)
    requires nd.round >= s.nodes[i].round
    requires Before(nd) ==> nd.round > s.nodes[i].round || Before(s.nodes[i])
    requires NodeLocked(nd, s.net) && NodeTimely(nd, s.net, s.clock)
    ensures Inv(p, s.(nodes := s.nodes[i := nd]))
  {
    var s1 := s.(nodes := s.nodes[i := nd]);
    forall m | m in s.net && m.Propose? ensures LeaderPast(p, s1.nodes, m.round) {
      assert LeaderPast(p, s.nodes, m.round);
    }
  }

  lemma AddKeeps(p: Params, s: State, m: Msg)
    requires Inv(p, s)
    requires var net1 := s.net + {m};
      GoodMsg(p, net1, s.clock, m) && OneProposal(p, s.(net := net1))
      && Locked(s.(net := net1)) && Timely(s.(net := net1))
    ensures Inv(p, s.(net := s.net + {m}))
  {
    var net1 := s.net + {m};
    forall i | 0 <= i < |s.nodes| ensures NodeTime(p, s.nodes[i], net1, s.clock) && NodeData(p, i, s.nodes[i], net1) {
      TimeGrows(p, s.nodes[i], s.net, net1, s.clock);
      DataGrows(p, i, s.nodes[i], s.net, net1);
    }
    forall x | x in s.net ensures GoodMsg(p, net1, s.clock, x) {
      GoodMsgGrows(p, s.net, net1, s.clock, s.clock, x);
    }
  }

  /** A message that is no notify leaves the lock and the waiting nodes alone. */
  lemma NoNotify(s: State, m: Msg)
    requires Locked(s) && Timely(s) && !m.NotifyOn? && MsgLocked(m, s.net)
    ensures Locked(s.(net := s.net + {m})) && Timely(s.(net := s.net + {m}))
  {
  }

  lemma NoProposal(p: Params, s: State, m: Msg)
    requires OneProposal(p, s) && !m.Propose?
    ensures OneProposal(p, s.(net := s.net + {m}))
  {
  }

  lemma AddVoteKeeps(p: Params, s: State, m: Msg)
    requires Inv(p, s) && m.VoteTo? && GoodMsg(p, s.net, s.clock, m) && MsgLocked(m, s.net)
    ensures Inv(p, s.(net := s.net + {m}))
  {
    NoNotify(s, m);
    NoProposal(p, s, m);
    AddKeeps(p, s, m);
  }

  lemma AddProposalKeeps(p: Params, s: State, m: Msg)
    requires Inv(p, s) && m.Propose? && GoodMsg(p, s.net, s.clock, m) && MsgLocked(m, s.net)
    requires forall x | x in s.net && x.Propose? :: x.round != m.round
    requires LeaderPast(p, s.nodes, m.round)
    ensures Inv(p, s.(net := s.net + {m}))
  {
    NoNotify(s, m);
    GoodMsgGrows(p, s.net, s.net + {m}, s.clock, s.clock, m);
    AddKeeps(p, s, m);
  }

  lemma AddCommitKeeps(p: Params, s: State, m: Msg)
    requires Inv(p, s) && m.CommitOn? && GoodMsg(p, s.net, s.clock, m)
    ensures Inv(p, s.(net := s.net + {m}))
  {
    NoNotify(s, m);
    NoProposal(p, s, m);
    GoodMsgGrows(p, s.net, s.net + {m}, s.clock, s.clock, m);
    AddKeeps(p, s, m);
  }

  /** A notify may appear while nobody is past its round on another block, and nobody gives up. */
  ghost predicate MayNotify(s: State, m: Msg)
    requires m.NotifyOn?
  {
    && (forall j | 0 <= j < |s.nodes| && !s.nodes[j].pc.Crashed? && s.nodes[j].round > m.round ::
          s.nodes[j].share == m.notify.share)
    && (forall x | x in s.net && (x.VoteTo? || x.Propose?) :: x.round <= m.round)
    && (forall j | 0 <= j < |s.nodes| && s.nodes[j].pc.AwaitNotify? && s.nodes[j].round == m.round ::
          s.nodes[j].ticks >= s.clock)
  }

  lemma NotifyLocks(s: State, m: Msg)
    requires Locked(s) && m.NotifyOn? && MayNotify(s, m)
    ensures Locked(s.(net := s.net + {m}))
  {
  }

  lemma NotifyInTime(s: State, m: Msg)
    requires Timely(s) && m.NotifyOn? && MayNotify(s, m)
    ensures Timely(s.(net := s.net + {m}))
  {
  }

  lemma AddNotifyKeeps(p: Params, s: State, m: Msg)
    requires Inv(p, s) && m.NotifyOn? && GoodMsg(p, s.net, s.clock, m) && MayNotify(s, m)
    ensures Inv(p, s.(net := s.net + {m}))
  {
    NotifyLocks(s, m);
    NotifyInTime(s, m);
    NoProposal(p, s, m);
    GoodMsgGrows(p, s.net, s.net + {m}, s.clock, s.clock, m);
    AddKeeps(p, s, m);
  }

  // ---- Receiving

  lemma VoteKeeps(p: Params, s: State, i: int, m: Msg)
    requires Inv(p, s) && 0 <= i < |s.nodes| && m in s.net && m.VoteTo? && Reads(i, s.nodes[i], m)
    ensures Inv(p, s.(nodes := s.nodes[i := OnVote(p, s.nodes[i], m.vote)]))
  {
    MoveKeeps(p, s, i, OnVote(p, s.nodes[i], m.vote));
  }

  lemma ProposalKeeps(p: Params, s: State, i: int, m: Msg)
    requires Inv(p, s) && 0 <= i < |s.nodes| && m in s.net && m.Propose? && Reads(i, s.nodes[i], m)
    ensures Inv(p, Install(s, i, OnPropose(p, i, s.nodes[i], m.proposal)))
  {
    var o := OnPropose(p, i, s.nodes[i], m.proposal);
    if CheckProposal(p, m.round, m.proposal) != Accept {
      assert Rejected(p, s.net, m.round);
    }
    assert s.net + Members(o.sent) == s.net;
    MoveKeeps(p, s, i, o.node);
  }

  lemma CommitKeeps(p: Params, s: State, i: int, m: Msg)
    requires Inv(p, s) && 0 <= i < |s.nodes| && m in s.net && m.CommitOn? && Reads(i, s.nodes[i], m)
    ensures Inv(p, s.(nodes := s.nodes[i := OnCommit(p, s.nodes[i], m.commit)]))
  {
    MoveKeeps(p, s, i, OnCommit(p, s.nodes[i], m.commit));
  }

  lemma SharesOf(commits: seq<Commit>, share: BlockShare)
    requires forall c :: c in commits ==> c.share == share
    ensures forall c, d :: c in commits && d in commits ==> ShareHash(c.share) == ShareHash(d.share)
  {
  }

  /** Every notify of a benign run is valid at every receiver of its round. */
  lemma NotifyValid(p: Params, s: State, m: Msg)
    requires Inv(p, s) && m in s.net && m.NotifyOn?
    ensures ValidNotify(p, m.round, m.notify)
  {
    var share := m.notify.share;
    var q :| q in s.net && q.Propose? && q.round == m.round
      && CheckProposal(p, m.round, q.proposal) == Accept && q.proposal.vote.share == share;
    forall c | c in m.notify.commits ensures c.share == share && c.round == m.round {
      assert CommitOn(m.round, c) in s.net;
      OneBlock(p, s, m.round, share, c.share);
    }
    SharesOf(m.notify.commits, share);
  }

  /** Adopting a result on the notified block of the round, or of no block when nothing was notified. */
  lemma FinishLocked(p: Params, s: State, i: int, nd1: Node)
    requires Inv(p, s) && 0 <= i < |s.nodes| && Live(s.nodes[i])
    requires nd1.round == s.nodes[i].round + 1
    requires forall m | m in s.net && m.NotifyOn? && m.round == s.nodes[i].round :: nd1.share == m.notify.share
    requires nd1.share == s.nodes[i].share || NotifySent(s.net, s.nodes[i].round)
    ensures NodeLocked(nd1, s.net)
  {
  }

  lemma NotifyKeeps(p: Params, s: State, i: int, m: Msg)
    requires Inv(p, s) && 0 <= i < |s.nodes| && m in s.net && m.NotifyOn? && Reads(i, s.nodes[i], m)
    ensures Inv(p, s.(nodes := s.nodes[i := OnNotify(p, s.nodes[i], m.notify)]))
  {
    var nd := s.nodes[i];
    var nd1 := OnNotify(p, nd, m.notify);
    NotifyValid(p, s, m);
    NotifyAccepted(p, s, m);
    assert NotifySent(s.net, nd.round);
    forall x | x in s.net && x.NotifyOn? && x.round == nd.round ensures nd1.share == x.notify.share {
      OneBlock(p, s, nd.round, m.notify.share, x.notify.share);
    }
    FinishLocked(p, s, i, nd1);
    FinishData(p, s, i, nd1);
    MoveKeeps(p, s, i, nd1);
  }

  /** What a node holds when graded consensus has returned: outputs, each with its notify. */
  lemma FinishData(p: Params, s: State, i: int, nd1: Node)
    requires Inv(p, s) && 0 <= i < |s.nodes| && nd1.pc.RoundEnd?
    requires nd1.round == s.nodes[i].round + 1
    requires forall b :: b in nd1.outs ==> b in s.nodes[i].outs || NotifiedEarlier(s.net, nd1.round, b)
    ensures NodeData(p, i, nd1, s.net)
  {
    forall b | b in s.nodes[i].outs ensures NotifiedEarlier(s.net, nd1.round, b) {
      EarlierGrows(s.net, s.net, s.nodes[i].round, nd1.round, b);
    }
  }

  lemma ReceiveKeeps(p: Params, s: State, i: int, m: Msg)
    requires Inv(p, s) && Enabled(p, s, Receive(i, m))
    ensures Inv(p, Install(s, i, OnMessage(p, i, s.nodes[i], m)))
  {
    var o := OnMessage(p, i, s.nodes[i], m);
    match m
    case VoteTo(_, _, _) =>
      VoteKeeps(p, s, i, m);
      assert s.net + Members(o.sent) == s.net;
    case Propose(_, _) => ProposalKeeps(p, s, i, m);
    case CommitOn(_, _) =>
      CommitKeeps(p, s, i, m);
      assert s.net + Members(o.sent) == s.net;
    case NotifyOn(_, _) =>
      NotifyKeeps(p, s, i, m);
      assert s.net + Members(o.sent) == s.net;
  }

  // ---- Ticks

  lemma SentOne(net: set<Msg>, sent: seq<Msg>)
    requires |sent| <= 1
    ensures net + Members(sent) == if sent == [] then net else net + {sent[0]}
  {
    if sent != [] {
      assert sent == [sent[0]];
      assert Members(sent) == {sent[0]};
    }
  }

  /** The vote a leader picks is one it was sent, so its proposal is in order and on the lock. */
  lemma PickedVote(p: Params, s: State, i: int)
    requires Inv(p, s) && 0 <= i < |s.nodes| && s.nodes[i].pc.Collect? && |s.nodes[i].votes| >= p.t + 1
    ensures var nd := s.nodes[i];
      var m := Propose(nd.round, Proposal(i, MaxVote(nd.votes), nd.votes, Some(true)));
      GoodMsg(p, s.net, s.clock, m) && MsgLocked(m, s.net)
  {
    var nd := s.nodes[i];
    var k := MaxKey(nd.votes);
    var v := VoteTo(nd.round, i, nd.votes[k]);
    assert v in s.net && GoodMsg(p, s.net, s.clock, v) && MsgLocked(v, s.net);
  }

  lemma CollectTick(p: Params, s: State, i: int, order: seq<int>, pick: Digest)
    requires Inv(p, s) && Enabled(p, s, Tick(i, order, pick)) && s.nodes[i].pc.Collect?
    ensures Inv(p, Install(s, i, OnTick(p, i, s.nodes[i], order, pick)))
  {
    var nd := s.nodes[i];
    var o := OnTick(p, i, nd, order, pick);
    MoveKeeps(p, s, i, o.node);
    var s1 := s.(nodes := s.nodes[i := o.node]);
    SentOne(s.net, o.sent);
    if o.sent != [] {
      PickedVote(p, s, i);
      forall x | x in s.net && x.Propose? ensures x.round != nd.round {
        assert LeaderPast(p, s.nodes, x.round);
      }
      AddProposalKeeps(p, s1, o.sent[0]);
    }
  }

  lemma WaitTick(p: Params, s: State, i: int, order: seq<int>, pick: Digest)
    requires Inv(p, s) && Enabled(p, s, Tick(i, order, pick)) && s.nodes[i].pc.WaitTwo?
    ensures Inv(p, Install(s, i, OnTick(p, i, s.nodes[i], order, pick)))
  {
    var o := OnTick(p, i, s.nodes[i], order, pick);
    SentOne(s.net, o.sent);
    MoveKeeps(p, s, i, o.node);
  }

  lemma ProposalsTick(p: Params, s: State, i: int, order: seq<int>, pick: Digest)
    requires Inv(p, s) && Enabled(p, s, Tick(i, order, pick)) && s.nodes[i].pc.Proposals?
    ensures Inv(p, Install(s, i, OnTick(p, i, s.nodes[i], order, pick)))
  {
    var nd := s.nodes[i];
    var o := OnTick(p, i, nd, order, pick);
    MoveKeeps(p, s, i, o.node);
    var s1 := s.(nodes := s.nodes[i := o.node]);
    SentOne(s.net, o.sent);
    if o.sent != [] {
      var q := Propose(nd.round, nd.leaderProposal.value);
      assert q in s.net;
      assert GoodMsg(p, s1.net, s1.clock, o.sent[0]);
      AddCommitKeeps(p, s1, o.sent[0]);
    }
  }

  lemma {:induction false} GroupIs(received: map<int, Commit>, order: seq<int>, hash: Digest)
    requires forall k :: k in received ==> received[k].sender == k
    requires forall a, b :: 0 <= a < b < |order| ==> order[a] != order[b]
    ensures forall c :: c in Group(received, order, hash) ==>
              c.sender in received && received[c.sender] == c && c.sender in order
    ensures |CommitSenders(Group(received, order, hash))| == |Group(received, order, hash)|
  {
    if order != [] {
      var k, rest := order[0], Group(received, order[1..], hash);
      GroupIs(received, order[1..], hash);
      forall c | c in rest ensures c.sender in order && c.sender != k {
        var a :| 0 <= a < |order[1..]| && order[1..][a] == c.sender;
        assert order[a + 1] == c.sender;
      }
      var group := Group(received, order, hash);
      if k in received && ShareHash(received[k].share) == hash {
        assert group == [received[k]] + rest;
        assert CommitSenders(group) == {k} + CommitSenders(rest);
      } else {
        assert group == rest;
      }
    }
  }

  /** Nobody is past the round of a notify that is about to be sent, but on its block. */
  lemma NotifyAllowed(p: Params, s: State, m: Msg)
    requires Inv(p, s) && m.NotifyOn? && Accepted(p, s.net, m.round, m.notify.share)
    requires s.clock == 6 * m.round + 4
    ensures MayNotify(s, m)
  {
    OneBlock(p, s, m.round, m.notify.share, m.notify.share);
    forall j | 0 <= j < |s.nodes| && !s.nodes[j].pc.Crashed? && s.nodes[j].round > m.round
      ensures s.nodes[j].share == m.notify.share
    {
      assert NodeTime(p, s.nodes[j], s.net, s.clock);
      assert s.nodes[j].pc.RoundEnd? && s.nodes[j].round == m.round + 1;
      var x :| x in s.net && x.NotifyOn? && x.round == m.round;
      assert Accepted(p, s.net, m.round, x.notify.share);
      OneBlock(p, s, m.round, m.notify.share, x.notify.share);
    }
    forall j | 0 <= j < |s.nodes| && s.nodes[j].pc.AwaitNotify? && s.nodes[j].round == m.round
      ensures s.nodes[j].ticks >= s.clock
    {
      assert NodeTime(p, s.nodes[j], s.net, s.clock);
    }
    forall x | x in s.net && (x.VoteTo? || x.Propose?) ensures x.round <= m.round {
      assert GoodMsg(p, s.net, s.clock, x);
    }
  }

  /** The commits of a group have been sent in the round, on an accepted block. */
  lemma GroupSent(p: Params, s: State, i: int, order: seq<int>, pick: Digest)
    requires Inv(p, s) && 0 <= i < |s.nodes| && s.nodes[i].pc.Commits? && IsOrder(order, s.nodes[i].received)
    ensures var group := Group(s.nodes[i].received, order, pick);
      && |CommitSenders(group)| == |group|
      && forall c :: c in group ==>
           CommitOn(s.nodes[i].round, c) in s.net && Accepted(p, s.net, s.nodes[i].round, c.share)
  {
    var nd := s.nodes[i];
    var group := Group(nd.received, order, pick);
    assert NodeData(p, i, nd, s.net);
    GroupIs(nd.received, order, pick);
    forall c | c in group ensures CommitOn(nd.round, c) in s.net && Accepted(p, s.net, nd.round, c.share) {
      assert nd.received[c.sender] == c;
      assert GoodMsg(p, s.net, s.clock, CommitOn(nd.round, c));
    }
  }

  lemma GroupNotify(p: Params, s: State, i: int, order: seq<int>, pick: Digest)
    requires Inv(p, s) && Enabled(p, s, Tick(i, order, pick)) && s.nodes[i].pc.Commits?
    requires |Group(s.nodes[i].received, order, pick)| >= p.t + 1
    ensures var nd := s.nodes[i];
      var group := Group(nd.received, order, pick);
      var m := NotifyOn(nd.round, Notify(i, nd.round, group[0].share, group));
      GoodMsg(p, s.net, s.clock, m) && nd.ticks == 6 * nd.round + 3 && s.clock == nd.ticks + 1
  {
    var nd := s.nodes[i];
    var group := Group(nd.received, order, pick);
    GroupSent(p, s, i, order, pick);
    assert group[0] in group;
    OneBlock(p, s, nd.round, group[0].share, group[0].share);
    assert NodeTime(p, nd, s.net, s.clock);
  }

  /** The sender of a notify waits one more tick with grade 2. */
  lemma NotifiedMove(p: Params, s: State, i: int, nd1: Node)
    requires Inv(p, s) && 0 <= i < |s.nodes| && s.nodes[i].pc.Commits?
    requires nd1 == s.nodes[i].(ticks := nd1.ticks, pc := nd1.pc) && nd1.pc.Notified?
    requires NotifyOn(nd1.round, Notify(i, nd1.round, nd1.pc.share, nd1.pc.commits)) in s.net
    requires nd1.ticks == 6 * nd1.round + 4 == s.clock
    ensures Inv(p, s.(nodes := s.nodes[i := nd1]))
  {
    assert NodeTime(p, s.nodes[i], s.net, s.clock) && NodeData(p, i, s.nodes[i], s.net);
    assert NodeLocked(s.nodes[i], s.net);
    MoveKeeps(p, s, i, nd1);
  }

  lemma SubsetTick(p: Params, s: State, i: int, order: seq<int>, pick: Digest)
    requires Inv(p, s) && Enabled(p, s, Tick(i, order, pick)) && s.nodes[i].pc.Commits?
    requires |Group(s.nodes[i].received, order, pick)| >= p.t + 1
    ensures Inv(p, Install(s, i, OnTick(p, i, s.nodes[i], order, pick)))
  {
    var nd := s.nodes[i];
    var group := Group(nd.received, order, pick);
    var m := NotifyOn(nd.round, Notify(i, nd.round, group[0].share, group));
    GroupNotify(p, s, i, order, pick);
    NotifyInstall(p, s, i, m);
    TickNotifies(p, s, i, order, pick);
  }

  lemma TickNotifies(p: Params, s: State, i: int, order: seq<int>, pick: Digest)
    requires 0 <= i < |s.nodes| && s.nodes[i].pc.Commits?
    requires |Group(s.nodes[i].received, order, pick)| >= p.t + 1
    ensures var nd := s.nodes[i];
      var group := Group(nd.received, order, pick);
      var m := NotifyOn(nd.round, Notify(i, nd.round, group[0].share, group));
      var nd1 := nd.(ticks := nd.ticks + 1, pc := Notified(group[0].share, group));
      Install(s, i, OnTick(p, i, nd, order, pick)) == s.(nodes := s.nodes[i := nd1], net := s.net + {m})
  {
    SentOne(s.net, OnTick(p, i, s.nodes[i], order, pick).sent);
  }

  /** The notify appears and its sender moves on. */
  lemma NotifyInstall(p: Params, s: State, i: int, m: Msg)
    requires Inv(p, s) && 0 <= i < |s.nodes| && s.nodes[i].pc.Commits?
    requires s.nodes[i].ticks == 6 * s.nodes[i].round + 3 && s.clock == s.nodes[i].ticks + 1
    requires m.NotifyOn? && m.round == s.nodes[i].round && m.notify.sender == i && GoodMsg(p, s.net, s.clock, m)
    ensures var nd := s.nodes[i];
      var nd1 := nd.(ticks := nd.ticks + 1, pc := Notified(m.notify.share, m.notify.commits));
      Inv(p, s.(nodes := s.nodes[i := nd1], net := s.net + {m}))
  {
    var nd := s.nodes[i];
    NotifyAllowed(p, s, m);
    AddNotifyKeeps(p, s, m);
    assert m == NotifyOn(nd.round, Notify(i, nd.round, m.notify.share, m.notify.commits));
    var nd1 := nd.(ticks := nd.ticks + 1, pc := Notified(m.notify.share, m.notify.commits));
    NotifiedMove(p, s.(net := s.net + {m}), i, nd1);
  }

  lemma NoSubsetTick(p: Params, s: State, i: int, order: seq<int>, pick: Digest)
    requires Inv(p, s) && Enabled(p, s, Tick(i, order, pick)) && s.nodes[i].pc.Commits?
    requires |Group(s.nodes[i].received, order, pick)| < p.t + 1
    ensures Inv(p, Install(s, i, OnTick(p, i, s.nodes[i], order, pick)))
  {
    var o := OnTick(p, i, s.nodes[i], order, pick);
    SentOne(s.net, o.sent);
    MoveKeeps(p, s, i, o.node);
  }

  lemma NotifiedTick(p: Params, s: State, i: int, order: seq<int>, pick: Digest)
    requires Inv(p, s) && Enabled(p, s, Tick(i, order, pick)) && s.nodes[i].pc.Notified?
    ensures Inv(p, Install(s, i, OnTick(p, i, s.nodes[i], order, pick)))
  {
    var nd := s.nodes[i];
    var o := OnTick(p, i, nd, order, pick);
    SentOne(s.net, o.sent);
    var m := NotifyOn(nd.round, Notify(i, nd.round, nd.pc.share, nd.pc.commits));
    assert m in s.net;
    NotifyAccepted(p, s, m);
    forall x | x in s.net && x.NotifyOn? && x.round == nd.round ensures o.node.share == x.notify.share {
      NotifyAccepted(p, s, x);
      OneBlock(p, s, nd.round, m.notify.share, x.notify.share);
    }
    assert NotifySent(s.net, nd.round) && NotifiedEarlier(s.net, o.node.round, nd.pc.share);
    FinishLocked(p, s, i, o.node);
    FinishData(p, s, i, o.node);
    MoveKeeps(p, s, i, o.node);
  }

  lemma AwaitTick(p: Params, s: State, i: int, order: seq<int>, pick: Digest)
    requires Inv(p, s) && Enabled(p, s, Tick(i, order, pick)) && s.nodes[i].pc.AwaitNotify?
    ensures Inv(p, Install(s, i, OnTick(p, i, s.nodes[i], order, pick)))
  {
    var nd := s.nodes[i];
    var o := OnTick(p, i, nd, order, pick);
    SentOne(s.net, o.sent);
    assert !NotifySent(s.net, nd.round);
    FinishLocked(p, s, i, o.node);
    FinishData(p, s, i, o.node);
    MoveKeeps(p, s, i, o.node);
  }

  lemma RoundEndTick(p: Params, s: State, i: int, order: seq<int>, pick: Digest)
    requires Inv(p, s) && Enabled(p, s, Tick(i, order, pick)) && s.nodes[i].pc.RoundEnd?
    ensures Inv(p, Install(s, i, OnTick(p, i, s.nodes[i], order, pick)))
  {
    var nd := s.nodes[i];
    var o := OnTick(p, i, nd, order, pick);
    SentOne(s.net, o.sent);
    MoveKeeps(p, s, i, o.node);
    if o.sent != [] {
      AddVoteKeeps(p, s.(nodes := s.nodes[i := o.node]), o.sent[0]);
    }
  }

  lemma TickKeeps(p: Params, s: State, i: int, order: seq<int>, pick: Digest)
    requires Inv(p, s) && Enabled(p, s, Tick(i, order, pick))
    ensures Inv(p, Install(s, i, OnTick(p, i, s.nodes[i], order, pick)))
  {
    match s.nodes[i].pc
    case Collect => CollectTick(p, s, i, order, pick);
    case WaitTwo => WaitTick(p, s, i, order, pick);
    case Proposals => ProposalsTick(p, s, i, order, pick);
    case Commits =>
      if |Group(s.nodes[i].received, order, pick)| >= p.t + 1 {
        SubsetTick(p, s, i, order, pick);
      } else {
        NoSubsetTick(p, s, i, order, pick);
      }
    case Notified(_, _) => NotifiedTick(p, s, i, order, pick);
    case AwaitNotify => AwaitTick(p, s, i, order, pick);
    case RoundEnd => RoundEndTick(p, s, i, order, pick);
  }

  lemma StepKeeps(p: Params, s: State, step: Step)
    requires Inv(p, s)
    ensures Inv(p, Do(p, s, step))
  {
    if Enabled(p, s, step) {
      match step
      case Clock => ClockKeeps(p, s);
      case Tick(i, order, pick) => TickKeeps(p, s, i, order, pick);
      case Receive(i, m) => ReceiveKeeps(p, s, i, m);
      case Crash(i) => CrashKeeps(p, s, i);
    }
  }

  lemma {:induction false} RunInv(p: Params, inputs: seq<Option<BlockShare>>, steps: seq<Step>)
    ensures Inv(p, Run(p, inputs, steps))
  {
    if steps == [] {
      InitInv(p, inputs);
    } else {
      RunInv(p, inputs, steps[..|steps| - 1]);
      StepKeeps(p, Run(p, inputs, steps[..|steps| - 1]), steps[|steps| - 1]);
    }
  }

  // ---- Results

  /** Agreement: any two block shares ever put on `out`, by whomever and in whatever rounds, are equal. */
  lemma Agreement(p: Params, inputs: seq<Option<BlockShare>>, steps: seq<Step>)
    ensures var nodes := Run(p, inputs, steps).nodes;
      forall i, j, a, b | 0 <= i < |nodes| && 0 <= j < |nodes| && a in nodes[i].outs && b in nodes[j].outs :: a == b
  {
    RunInv(p, inputs, steps);
    var s := Run(p, inputs, steps);
    forall i, j, a, b | 0 <= i < |s.nodes| && 0 <= j < |s.nodes| && a in s.nodes[i].outs && b in s.nodes[j].outs
      ensures a == b
    {
      var x :| x in s.net && x.NotifyOn? && x.round < s.nodes[i].round && x.notify.share == a;
      var y :| y in s.net && y.NotifyOn? && y.round < s.nodes[j].round && y.notify.share == b;
      if x.round <= y.round {
        NotifiesAgree(p, s, x, y);
      } else {
        NotifiesAgree(p, s, y, x);
      }
    }
  }

  lemma AcceptedLocked(p: Params, s: State, x: Msg, r: int, share: BlockShare)
    requires Inv(p, s) && x in s.net && x.NotifyOn? && r > x.round && Accepted(p, s.net, r, share)
    ensures share == x.notify.share
  {
    var m :| m in s.net && m.Propose? && m.round == r && m.proposal.vote.share == share
      && CheckProposal(p, r, m.proposal) == Accept;
    assert MsgLocked(m, s.net);
  }

  lemma NotifiesAgree(p: Params, s: State, x: Msg, y: Msg)
    requires Inv(p, s) && x in s.net && y in s.net && x.NotifyOn? && y.NotifyOn? && x.round <= y.round
    ensures x.notify.share == y.notify.share
  {
    NotifyAccepted(p, s, x);
    NotifyAccepted(p, s, y);
    if x.round == y.round {
      OneBlock(p, s, x.round, x.notify.share, y.notify.share);
    } else {
      AcceptedLocked(p, s, x, y.round, y.notify.share);
    }
  }

  /** Lock: after a notify (a grade 2) on B in round k, every vote, proposal, commit and notify of
      a later round is on B, and so is every running node that is past round k: its grade in
      round k and in every later round was not on another block, and in round k not 0. */
  lemma GradeTwoLocks(p: Params, inputs: seq<Option<BlockShare>>, steps: seq<Step>)
    ensures var s := Run(p, inputs, steps);
      && (forall x, m | x in s.net && m in s.net && x.NotifyOn? && m.round > x.round :: On(m, x.notify.share))
      && (forall x, j | x in s.net && x.NotifyOn? && 0 <= j < |s.nodes| && !s.nodes[j].pc.Crashed?
                        && s.nodes[j].round > x.round :: s.nodes[j].share == x.notify.share)
  {
    RunInv(p, inputs, steps);
    var s := Run(p, inputs, steps);
    forall x, m | x in s.net && m in s.net && x.NotifyOn? && m.round > x.round
      ensures On(m, x.notify.share)
    {
      match m
      case CommitOn(r, c) => AcceptedLocked(p, s, x, r, c.share);
      case NotifyOn(r, q) => AcceptedLocked(p, s, x, r, q.share);
      case _ => assert MsgLocked(m, s.net);
    }
    forall x, j | x in s.net && x.NotifyOn? && 0 <= j < |s.nodes| && !s.nodes[j].pc.Crashed?
                  && s.nodes[j].round > x.round
      ensures s.nodes[j].share == x.notify.share
    {
      assert NodeLocked(s.nodes[j], s.net);
    }
  }
}
