/** Block agreement as the program runs it: the checks and searches as loops, ranging over maps
    in any order, and a node whose methods do to its fields what `BlockAgreement` says. */
module BlockAgreementNode {
  import opened Quorums
  import opened Blocks
  import opened Tables
  import opened BlockAgreement
  import B = BlockAgreement

  // ---- The checks

  /** Which block shares pass: enough entries, no nil slot, and in slot i a message signed with
      key i + 1. */
  lemma AcceptedShare(p: Params, bs: BlockShare)
    ensures CheckShare(p, bs) == Accept <==>
            Quality(bs.block.vec) >= p.n - p.t && GoodFrom(bs.block.vec, 0)
    ensures CheckShare(p, bs) == Accept ==> Full(bs.block) && |bs.block.vec| >= p.n - p.t
  {
    AcceptedSlots(bs.block.vec, 0);
    QualityFull(bs.block.vec);
  }

  predicate GoodFrom(vec: seq<Option<PreBlockMessage>>, i: nat) {
    forall j :: i <= j < |vec| ==>
      && vec[j].Some?
      && j == (vec[j].value.sig.id - 1) % 0x1_0000
      && vec[j].value.sig.Verify(OfBytes(vec[j].value.message))
  }

  lemma {:induction false} AcceptedSlots(vec: seq<Option<PreBlockMessage>>, i: nat)
    requires i <= |vec|
    ensures CheckSlots(vec, i) == Accept <==> GoodFrom(vec, i)
    decreases |vec| - i
  {
    if i < |vec| {
      AcceptedSlots(vec, i + 1);
      var here := vec[i].Some? && i == (vec[i].value.sig.id - 1) % 0x1_0000
                  && vec[i].value.sig.Verify(OfBytes(vec[i].value.message));
      assert GoodFrom(vec, i) <==> (here && GoodFrom(vec, i + 1));
    }
  }

  method IsValidBlockShare(p: Params, bs: BlockShare) returns (v: Verdict)
    ensures v == CheckShare(p, bs)
    ensures v == Accept <==> Quality(bs.block.vec) >= p.n - p.t && GoodFrom(bs.block.vec, 0)
  {
    AcceptedShare(p, bs);
    var vec := bs.block.vec;
    if Quality(vec) < p.n - p.t {
      return Reject;
    }
    for i := 0 to |vec|
      invariant CheckSlots(vec, 0) == CheckSlots(vec, i)
    {
      if vec[i].None? {
        return Panic;
      }
      var mes := vec[i].value;
      if i != (mes.sig.id - 1) % 0x1_0000 || !mes.sig.Verify(OfBytes(mes.message)) {
        return Reject;
      }
    }
    return Accept;
  }

  /** The caller has seen to it that the signature is not nil. */
  method IsValidProposal(p: Params, round: int, m: Proposal, order: seq<int>) returns (v: Verdict)
    requires m.sig.Some? && IsOrder(order, m.votes)
    ensures v == CheckProposal(p, round, m)
    ensures v == Accept <==>
            && m.sig == Some(true) && |m.votes| >= p.t + 1
            && (forall k :: k in m.votes ==> m.votes[k].sigOk && m.votes[k].vote.round <= m.vote.round)
            && Quality(m.vote.share.block.vec) >= p.n - p.t && GoodFrom(m.vote.share.block.vec, 0)
            && if round == 0 then m.vote.round == 0 && m.vote.commits == []
               else |m.vote.commits| >= p.t + 1 && forall c :: c in m.vote.commits ==> c.round <= m.vote.round
  {
    if !m.sig.value {
      return Reject;
    }
    OrderKeys(order, m.votes);
    for a := 0 to |order|
      invariant forall b :: 0 <= b < a ==> m.votes[order[b]].sigOk
    {
      var k := order[a];
      if !m.votes[k].sigOk {
        assert k in m.votes;
        return Reject;
      }
    }
    assert forall k :: k in m.votes ==> k in order;
    v := IsValidBlockShare(p, m.vote.share);
    if v != Accept {
      return;
    }
    var inRound := MeetsVoteRule(p, round, m.vote);
    if !inRound || |m.votes| < p.t + 1 {
      return Reject;
    }
    for a := 0 to |order|
      invariant forall b :: 0 <= b < a ==> m.votes[order[b]].vote.round <= m.vote.round
    {
      if m.vote.round < m.votes[order[a]].vote.round {
        return Reject;
      }
    }
  }

  method MeetsVoteRule(p: Params, round: int, vote: Vote) returns (ok: bool)
    ensures ok == VoteRule(p, round, vote)
    ensures ok <==>
            if round == 0 then vote.round == 0 && vote.commits == []
            else |vote.commits| >= p.t + 1 && forall c :: c in vote.commits ==> c.round <= vote.round
  {
    if round == 0 {
      return vote.round == 0 && |vote.commits| == 0;
    }
    if |vote.commits| < p.t + 1 {
      return false;
    }
    for i := 0 to |vote.commits|
      invariant forall j :: 0 <= j < i ==> vote.commits[j].round <= vote.round
    {
      if vote.commits[i].round > vote.round {
        return false;
      }
    }
    return true;
  }

  function CommitBlocks(commits: seq<Commit>): set<Digest> {
    set c | c in commits :: ShareHash(c.share)
  }

  lemma SameBlock(commits: seq<Commit>)
    ensures |CommitBlocks(commits)| <= 1 <==>
            forall c, d :: c in commits && d in commits ==> ShareHash(c.share) == ShareHash(d.share)
  {
    var blocks := CommitBlocks(commits);
    if |blocks| <= 1 {
      forall c, d | c in commits && d in commits ensures ShareHash(c.share) == ShareHash(d.share) {
        assert ShareHash(c.share) in blocks && ShareHash(d.share) in blocks;
        SubsetFull({ShareHash(c.share)}, blocks);
      }
    }
    if forall c, d :: c in commits && d in commits ==> ShareHash(c.share) == ShareHash(d.share) {
      if commits == [] {
        assert blocks == {};
      } else {
        assert blocks == {ShareHash(commits[0].share)};
      }
    }
  }

  /** The senders and the blocks of the commits; None when a commit is from an earlier round. */
  method Distinct(round: int, commits: seq<Commit>) returns (ok: bool, nodes: set<int>, preBlocks: set<Digest>)
    ensures ok <==> forall c :: c in commits ==> c.round >= round
    ensures ok ==> nodes == CommitSenders(commits) && preBlocks == CommitBlocks(commits)
  {
    ok, nodes, preBlocks := true, {}, {};
    for i := 0 to |commits|
      invariant forall j :: 0 <= j < i ==> commits[j].round >= round
      invariant nodes == CommitSenders(commits[..i]) && preBlocks == CommitBlocks(commits[..i])
    {
      if commits[i].round < round {
        return false, nodes, preBlocks;
      }
      assert commits[..i + 1] == commits[..i] + [commits[i]];
      nodes := nodes + {commits[i].sender};
      preBlocks := preBlocks + {ShareHash(commits[i].share)};
    }
    assert commits[..|commits|] == commits;
  }

  method IsValidNotify(p: Params, round: int, m: Notify) returns (ok: bool)
    ensures ok == ValidNotify(p, round, m)
    ensures ok <==>
            && Quality(m.share.block.vec) >= p.n - p.t
            && (forall c :: c in m.commits ==> c.round >= round)
            && (forall c, d :: c in m.commits && d in m.commits ==> ShareHash(c.share) == ShareHash(d.share))
            && |CommitSenders(m.commits)| >= p.t + 1
  {
    if Quality(m.share.block.vec) < p.n - p.t {
      return false;
    }
    var current, distinctNodes, distinctPreBlocks := Distinct(round, m.commits);
    SameBlock(m.commits);
    return current && |distinctPreBlocks| <= 1 && |distinctNodes| >= p.t + 1;
  }

  // ---- The leader

  /** The vote of the highest round, of the lowest index among those, whatever the map order. */
  method FindMaxVote(votes: map<int, VoteMsg>, order: seq<int>) returns (maxVote: Option<Vote>)
    requires IsOrder(order, votes)
    ensures maxVote == if votes == map[] then None else Some(MaxVote(votes))
  {
    maxVote := None;
    var index := 0;
    for a := 0 to |order|
      invariant a == 0 ==> maxVote == None
      invariant a > 0 ==> index in votes && maxVote == Some(votes[index].vote)
      invariant forall b | 0 <= b < a ::
                  votes[order[b]].vote.round < votes[index].vote.round
                  || (votes[order[b]].vote.round == votes[index].vote.round && index <= order[b])
    {
      var i := order[a];
      var v := votes[i].vote;
      if maxVote.None? || v.round > maxVote.value.round || (v.round == maxVote.value.round && i < index) {
        index, maxVote := i, Some(v);
      }
    }
    if order != [] {
      assert order[0] in votes;
      assert forall j :: j in votes ==> j in order;
      assert IsMaxKey(votes, index);
      MaxKeyUnique(votes, index, MaxKey(votes));
    } else {
      assert forall j :: j !in votes;
    }
  }

  /** What an honest leader builds from enough votes that passed its checks is valid at every
      receiver exactly when the chosen vote has the commits the round asks for. */
  lemma ProposerValidatorMatch(p: Params, id: int, round: int, votes: map<int, VoteMsg>)
    requires |votes| >= p.t + 1
    requires forall k :: k in votes ==> votes[k].sigOk && CheckShare(p, votes[k].vote.share) == Accept
    ensures CheckProposal(p, round, Proposal(id, MaxVote(votes), votes, Some(true))) == Accept
            <==> VoteRule(p, round, MaxVote(votes))
  {
    var k := MaxKey(votes);
    assert votes[k].sigOk;
  }

  /** The other outcome occurs: a leader of a later round whose voters have seen no notify makes a
      proposal that everybody rejects. */
  lemma UncertifiedProposal(p: Params, id: int, round: int, votes: map<int, VoteMsg>)
    requires round != 0 && |votes| >= p.t + 1
    requires forall k :: k in votes ==> votes[k].sigOk && CheckShare(p, votes[k].vote.share) == Accept
    requires forall k :: k in votes ==> votes[k].vote.commits == []
    ensures CheckProposal(p, round, Proposal(id, MaxVote(votes), votes, Some(true))) == Reject
  {
    var k := MaxKey(votes);
    assert votes[k].vote.commits == [];
    assert votes[k].sigOk;
  }

  // ---- The grouping of commits

  lemma {:induction false} GroupAppend(received: map<int, Commit>, order: seq<int>, k: int, hash: Digest)
    requires k in received
    ensures Group(received, order + [k], hash) ==
            Group(received, order, hash) + if ShareHash(received[k].share) == hash then [received[k]] else []
  {
    if order == [] {
      assert (order + [k])[1..] == [];
    } else {
      GroupAppend(received, order[1..], k, hash);
      assert (order + [k])[1..] == order[1..] + [k];
    }
  }

  lemma {:induction false} GroupSmall(received: map<int, Commit>, order: seq<int>, hash: Digest)
    ensures |Group(received, order, hash)| <= |order|
  {
    if order != [] {
      GroupSmall(received, order[1..], hash);
    }
  }

  // ---- A node

  /** `sent` collects what is sent. */
  class Agreement {
    const p: Params
    const nodeId: int
    var round: int
    var ticks: nat
    var pc: Pc
    var share: BlockShare
    var commits: seq<Commit>
    var votes: map<int, VoteMsg>
    var leaderProposal: Option<Proposal>
    var forwarded: seq<Proposal>
    var received: map<int, Commit>
    var outs: seq<BlockShare>
    var sent: seq<Msg>

    ghost function View(): Node
      reads this
    {
      Node(round, ticks, pc, share, commits, votes, leaderProposal, forwarded, received, outs)
    }

    constructor (p: Params, nodeId: int, input: BlockShare)
      ensures this.p == p && this.nodeId == nodeId
      ensures var o := B.StartRound(p, nodeId, Node(0, 0, WaitTwo, input, [], map[], None, [], map[], []));
        View() == o.node && sent == o.sent
    {
      this.p, this.nodeId := p, nodeId;
      round, ticks, pc, share, commits := 0, 0, WaitTwo, input, [];
      votes, leaderProposal, forwarded, received, outs, sent := map[], None, [], map[], [], [];
      new;
      StartRound();
    }

    method StartRound()
      modifies this
      ensures var o := B.StartRound(p, nodeId, old(View())); View() == o.node && sent == old(sent) + o.sent
    {
      if round >= p.kappa {
        pc := Done;
        return;
      }
      var proposer := p.leader(round);
      sent := sent + [VoteTo(round, proposer, VoteMsg(nodeId, Vote(round, share, commits), true))];
      votes := map[];
      pc := if nodeId == proposer then Collect else WaitTwo;
    }

    method HandleVote(m: VoteMsg)
      modifies this`votes, this`pc
      ensures View() == OnVote(p, old(View()), m)
    {
      if !m.sigOk {
        return;
      }
      var v := IsValidBlockShare(p, m.vote.share);
      match v {
        case Panic => pc := Crashed;
        case Reject =>
        case Accept =>
          if m.sender !in votes {
            votes := votes[m.sender := m];
          }
      }
    }

    /** The leader has collected votes for one tick. */
    method ProposeVote(order: seq<int>)
      requires IsOrder(order, votes)
      modifies this`sent, this`pc
      ensures var o := ProposeMax(p, nodeId, old(View())); View() == o.node && sent == old(sent) + o.sent
    {
      if |votes| >= p.t + 1 {
        var maxVote := FindMaxVote(votes, order);
        sent := sent + [Propose(round, Proposal(nodeId, maxVote.value, votes, Some(true)))];
      }
      pc := WaitTwo;
    }

    method HandleProposal(m: Proposal, order: seq<int>)
      requires IsOrder(order, m.votes)
      modifies this
      ensures var o := OnPropose(p, nodeId, old(View()), m); View() == o.node && sent == old(sent) + o.sent
    {
      if m.sender != p.leader(round) {
        forwarded := forwarded + [m];
        return;
      }
      if m.sig.None? || leaderProposal.Some? {
        return;
      }
      var v := IsValidProposal(p, round, m, order);
      match v {
        case Panic => pc := Crashed;
        case Reject => CommitTo(None);
        case Accept =>
          leaderProposal := Some(m);
          sent := sent + [Propose(round, m)];
      }
    }

    /** Graded consensus takes over with the output of the propose protocol. */
    method CommitTo(output: Option<BlockShare>)
      modifies this
      ensures var o := EnterCommits(nodeId, old(View()), output); View() == o.node && sent == old(sent) + o.sent
    {
      if output.Some? {
        sent := sent + [CommitOn(round, Commit(nodeId, round, output.value, true))];
      }
      received := map[];
      pc := Commits;
    }

    method FindOutput() returns (output: Option<BlockShare>)
      ensures output == ProposeOutput(View())
    {
      if leaderProposal.None? {
        return None;
      }
      for i := 0 to |forwarded|
        invariant forall j :: 0 <= j < i ==> forwarded[j] == leaderProposal.value
      {
        if forwarded[i] != leaderProposal.value {
          assert forwarded[i] in forwarded;
          return None;
        }
      }
      return Some(leaderProposal.value.vote.share);
    }

    method HandleCommit(m: Commit)
      modifies this`received
      ensures View() == OnCommit(p, old(View()), m)
    {
      if m.sigOk && Quality(m.share.block.vec) >= p.t + 1 {
        if m.sender !in received {
          received := received[m.sender := m];
        }
      }
    }

    /** Groups the commits by block and ranges over the groups in any order; `pick` is the group
        it stops at. */
    method FindSubset(order: seq<int>) returns (ghost pick: Digest)
      requires IsOrder(order, received)
      modifies this`pc, this`sent
      ensures GoodPick(p, old(received), order, pick)
      ensures var o := B.FindSubset(p, nodeId, old(View()), order, pick);
        View() == o.node && sent == old(sent) + o.sent
    {
      pick := Raw(0);
      pc := AwaitNotify;
      if |received| < p.t + 1 {
        OrderSize(order, received);
        forall h ensures |Group(received, order, h)| < p.t + 1 {
          GroupSmall(received, order, h);
        }
        return;
      }
      var subsets := SplitCommits(order);
      var pending := subsets.Keys;
      while pending != {}
        invariant pending <= subsets.Keys
        invariant forall h :: h in subsets && h !in pending ==> |subsets[h]| < p.t + 1
      {
        var h :| h in pending;
        if |subsets[h]| >= p.t + 1 {
          pick := h;
          pc := Notified(subsets[h][0].share, subsets[h]);
          sent := sent + [NotifyOn(round, Notify(nodeId, round, subsets[h][0].share, subsets[h]))];
          return;
        }
        pending := pending - {h};
      }
      assert forall h :: |Group(received, order, h)| < p.t + 1;
    }

    method SplitCommits(order: seq<int>) returns (subsets: map<Digest, seq<Commit>>)
      requires IsOrder(order, received)
      ensures forall h :: if h in subsets then subsets[h] == Group(received, order, h)
                          else Group(received, order, h) == []
    {
      subsets := map[];
      OrderKeys(order, received);
      for a := 0 to |order|
        invariant forall h :: if h in subsets then subsets[h] == Group(received, order[..a], h)
                              else Group(received, order[..a], h) == []
      {
        var commit := received[order[a]];
        var hash := ShareHash(commit.share);
        forall h
          ensures Group(received, order[..a + 1], h) ==
                  Group(received, order[..a], h) + if hash == h then [commit] else []
        {
          GroupAppend(received, order[..a], order[a], h);
          assert order[..a + 1] == order[..a] + [order[a]];
        }
        if hash !in subsets {
          subsets := subsets[hash := [commit]];
        } else {
          subsets := subsets[hash := subsets[hash] + [commit]];
        }
      }
      assert order[..|order|] == order;
    }

    method HandleNotify(m: Notify)
      modifies this
      ensures View() == OnNotify(p, old(View()), m) && sent == old(sent)
    {
      var ok := IsValidNotify(p, round, m);
      if ok {
        TakeResult(1, m.share, m.commits);
      } else {
        TakeResult(0, m.share, []);
      }
    }

    /** Graded consensus has returned. */
    method TakeResult(grade: int, b: BlockShare, cs: seq<Commit>)
      modifies this
      ensures View() == Finish(old(View()), grade, b, cs) && sent == old(sent)
      ensures share == (if grade > 0 then b else old(share)) && commits == (if grade > 0 then cs else old(commits))
      ensures outs == (if grade == 2 then old(outs) + [b] else old(outs)) && round == old(round) + 1 && pc == RoundEnd
    {
      if grade > 0 {
        share, commits := b, cs;
      }
      if grade == 2 {
        outs := outs + [b];
      }
      round := round + 1;
      pc := RoundEnd;
    }

    /** A tick during the propose protocol. */
    method TickPropose(voteOrder: seq<int>)
      requires pc.Collect? || pc.WaitTwo? || pc.Proposals?
      requires IsOrder(voteOrder, votes)
      modifies this
      ensures var o := OnTick(p, nodeId, old(View()), [], Raw(0)); View() == o.node && sent == old(sent) + o.sent
    {
      ticks := ticks + 1;
      match pc {
        case Collect => ProposeVote(voteOrder);
        case WaitTwo =>
          var time := ticks % 6;
          if time == 2 {
            leaderProposal, forwarded, pc := None, [], Proposals;
          } else if time > 2 {
            pc := Stuck;
          }
        case Proposals =>
          var output := FindOutput();
          CommitTo(output);
      }
    }

    /** A tick during graded consensus or at the end of a round; `pick` is the group it notifies. */
    method TickGraded(order: seq<int>) returns (ghost pick: Digest)
      requires pc.Commits? || pc.Notified? || pc.AwaitNotify? || pc.RoundEnd?
      requires IsOrder(order, received)
      modifies this
      ensures old(pc).Commits? ==> GoodPick(p, old(received), order, pick)
      ensures var o := OnTick(p, nodeId, old(View()), order, pick); View() == o.node && sent == old(sent) + o.sent
    {
      pick := Raw(0);
      ticks := ticks + 1;
      match pc {
        case Commits => pick := FindSubset(order);
        case Notified(b, cs) => TakeResult(2, b, cs);
        case AwaitNotify => TakeResult(0, share, []);
        case RoundEnd => StartRound();
      }
    }

    /** The node takes a message off the channel it reads. */
    method Receive(m: Msg, order: seq<int>)
      requires m.Propose? ==> IsOrder(order, m.proposal.votes)
      modifies this
      ensures var o := OnMessage(p, nodeId, old(View()), m); View() == o.node && sent == old(sent) + o.sent
    {
      match m {
        case VoteTo(_, _, vote) => HandleVote(vote);
        case Propose(_, proposal) => HandleProposal(proposal, order);
        case CommitOn(_, commit) => HandleCommit(commit);
        case NotifyOn(_, notify) => HandleNotify(notify);
      }
    }
  }
}
