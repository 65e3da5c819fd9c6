/** Block agreement: kappa rounds of graded consensus, each run over the propose protocol and
    driven by ticks. This module has the messages, the checks, and one node as a machine: where
    it blocks, what a tick does to it and what a message does to it. */
module BlockAgreement {
  import opened Quorums
  import opened Blocks

  /** leader maps a round to the node that proposes in it. */
  datatype Params = Params(n: nat, t: nat, kappa: nat, leader: int -> int)

  /** Signatures are recorded as checked: sigOk says whether the signature verifies. */
  datatype Commit = Commit(sender: int, round: int, share: BlockShare, sigOk: bool)

  datatype Vote = Vote(round: int, share: BlockShare, commits: seq<Commit>)

  datatype VoteMsg = VoteMsg(sender: int, vote: Vote, sigOk: bool)

  /** sig is None when the signature is nil. */
  datatype Proposal = Proposal(sender: int, vote: Vote, votes: map<int, VoteMsg>, sig: Option<bool>)

  datatype Notify = Notify(sender: int, round: int, share: BlockShare, commits: seq<Commit>)

  /** A message on the channel of a round; votes go to one receiver. */
  datatype Msg =
    | VoteTo(round: int, to: int, vote: VoteMsg)
    | Propose(round: int, proposal: Proposal)
    | CommitOn(round: int, commit: Commit)
    | NotifyOn(round: int, notify: Notify)

  // ---- Checks

  /** A check panics when it dereferences a nil slot. */
  datatype Verdict = Accept | Reject | Panic

  /** The slots from index i on: own key, valid signature on the message. */
  function CheckSlots(vec: seq<Option<PreBlockMessage>>, i: nat): Verdict
    requires i <= |vec|
    decreases |vec| - i
  {
    if i == |vec| then Accept
    else if vec[i].None? then Panic
    else if i != (vec[i].value.sig.id - 1) % 0x1_0000 then Reject
    else if !vec[i].value.sig.Verify(OfBytes(vec[i].value.message)) then Reject
    else CheckSlots(vec, i + 1)
  }

  function CheckShare(p: Params, bs: BlockShare): Verdict {
    if Quality(bs.block.vec) < p.n - p.t then Reject else CheckSlots(bs.block.vec, 0)
  }

  /** What a vote needs to be proposed in a round. */
  predicate VoteRule(p: Params, round: int, vote: Vote) {
    if round == 0 then vote.round == 0 && vote.commits == []
    else |vote.commits| >= p.t + 1 && forall c :: c in vote.commits ==> c.round <= vote.round
  }

  function CheckProposal(p: Params, round: int, m: Proposal): Verdict {
    if m.sig != Some(true) then Reject
    else if exists k :: k in m.votes && !m.votes[k].sigOk then Reject
    else if CheckShare(p, m.vote.share) != Accept then CheckShare(p, m.vote.share)
    else if !VoteRule(p, round, m.vote) then Reject
    else if |m.votes| < p.t + 1 then Reject
    else if exists k :: k in m.votes && m.votes[k].vote.round > m.vote.round then Reject
    else Accept
  }

  predicate ValidCommit(p: Params, c: Commit) {
    c.sigOk && Quality(c.share.block.vec) >= p.t + 1
  }

  function CommitSenders(commits: seq<Commit>): set<int> {
    set c | c in commits :: c.sender
  }

  predicate ValidNotify(p: Params, round: int, m: Notify) {
    && Quality(m.share.block.vec) >= p.n - p.t
    && (forall c :: c in m.commits ==> c.round >= round)
    && (forall c, d :: c in m.commits && d in m.commits ==> ShareHash(c.share) == ShareHash(d.share))
    && |CommitSenders(m.commits)| >= p.t + 1
  }

  /** Votes with the highest round; among them the lowest index wins. */
  predicate IsMaxKey(votes: map<int, VoteMsg>, k: int) {
    && k in votes
    && forall j :: j in votes ==>
         votes[j].vote.round < votes[k].vote.round || (votes[j].vote.round == votes[k].vote.round && k <= j)
  }

  lemma {:induction false} MaxKeyExists(votes: map<int, VoteMsg>)
    requires votes != map[]
    ensures exists k :: IsMaxKey(votes, k)
    decreases |votes|
  {
    assert |votes.Keys| == |votes| > 0;
    Inhabited(votes.Keys);
    var k :| k in votes.Keys;
    var rest := votes - {k};
    if rest == map[] {
      assert forall j :: j in votes ==> j == k || j in rest;
      assert IsMaxKey(votes, k);
    } else {
      MaxKeyExists(rest);
      var j :| IsMaxKey(rest, j);
      assert forall i :: i in votes ==> i == k || (i in rest && votes[i] == rest[i]);
      assert IsMaxKey(votes, j) || IsMaxKey(votes, k);
    }
  }

  ghost function MaxKey(votes: map<int, VoteMsg>): (k: int)
    requires votes != map[]
    ensures IsMaxKey(votes, k)
  {
    MaxKeyExists(votes);
    var k :| IsMaxKey(votes, k);
    k
  }

  /** The vote a leader proposes. */
  ghost function MaxVote(votes: map<int, VoteMsg>): Vote
    requires votes != map[]
  {
    votes[MaxKey(votes)].vote
  }

  lemma MaxKeyUnique(votes: map<int, VoteMsg>, j: int, k: int)
    requires IsMaxKey(votes, j) && IsMaxKey(votes, k)
    ensures j == k
  {
  }

  // ---- One node

  datatype Pc =
    | Collect                                  // leader, collecting votes until a tick
    | WaitTwo                                  // waiting for the tick of value 2
    | Proposals                                // handling proposals until a tick
    | Commits                                  // handling commits until a tick
    | Notified(share: BlockShare, commits: seq<Commit>)  // sent a notify: grade 2, waits for a tick
    | AwaitNotify                              // waiting for a notify or a tick
    | RoundEnd                                 // graded consensus returned, waits for a tick
    | Done
    | Stuck                                    // the propose protocol returned without output
    | Crashed

  datatype Node = Node(
    round: int,
    ticks: nat,                          // ticks consumed so far
    pc: Pc,
    share: BlockShare,
    commits: seq<Commit>,
    votes: map<int, VoteMsg>,
    leaderProposal: Option<Proposal>,
    forwarded: seq<Proposal>,
    received: map<int, Commit>,
    outs: seq<BlockShare>)

  datatype Outcome = Outcome(node: Node, sent: seq<Msg>)

  predicate Live(nd: Node) {
    !nd.pc.Done? && !nd.pc.Stuck? && !nd.pc.Crashed?
  }

  /** The start of a round: the node votes; the leader collects. */
  function StartRound(p: Params, id: int, nd: Node): Outcome {
    if nd.round >= p.kappa then Outcome(nd.(pc := Done), [])
    else
      var proposer := p.leader(nd.round);
      Outcome(nd.(votes := map[], pc := if id == proposer then Collect else WaitTwo),
              [VoteTo(nd.round, proposer, VoteMsg(id, Vote(nd.round, nd.share, nd.commits), true))])
  }

  /** The end of graded consensus: a result of grade above 0 is adopted, grade 2 is output. */
  function Finish(nd: Node, grade: int, share: BlockShare, commits: seq<Commit>): Node {
    var nd1 := if grade > 0 then nd.(share := share, commits := commits) else nd;
    var nd2 := if grade == 2 then nd1.(outs := nd1.outs + [share]) else nd1;
    nd2.(round := nd.round + 1, pc := RoundEnd)
  }

  /** The leader proposes if it has enough votes. */
  ghost function ProposeMax(p: Params, id: int, nd: Node): Outcome {
    Outcome(nd.(pc := WaitTwo),
            if |nd.votes| >= p.t + 1
            then [Propose(nd.round, Proposal(id, MaxVote(nd.votes), nd.votes, Some(true)))] else [])
  }

  /** The output of the propose protocol at its last tick. */
  function ProposeOutput(nd: Node): Option<BlockShare> {
    if nd.leaderProposal.None? then None
    else if exists m :: m in nd.forwarded && m != nd.leaderProposal.value then None
    else Some(nd.leaderProposal.value.vote.share)
  }

  /** Graded consensus takes over: commit to the output, if there is one. */
  function EnterCommits(id: int, nd: Node, output: Option<BlockShare>): Outcome {
    Outcome(nd.(pc := Commits, received := map[]),
            if output.Some? then [CommitOn(nd.round, Commit(id, nd.round, output.value, true))] else [])
  }

  /** The commits on one block, in the order in which the map is ranged over. */
  function Group(received: map<int, Commit>, order: seq<int>, hash: Digest): seq<Commit> {
    if order == [] then []
    else (if order[0] in received && ShareHash(received[order[0]].share) == hash
          then [received[order[0]]] else [])
         + Group(received, order[1..], hash)
  }

  /** findSubset takes a group that is large enough whenever there is one. */
  ghost predicate GoodPick(p: Params, received: map<int, Commit>, order: seq<int>, pick: Digest) {
    |Group(received, order, pick)| >= p.t + 1 || forall h :: |Group(received, order, h)| < p.t + 1
  }

  /** Sends a notify if the picked group is large enough. */
  function FindSubset(p: Params, id: int, nd: Node, order: seq<int>, pick: Digest): Outcome {
    var group := Group(nd.received, order, pick);
    if |group| >= p.t + 1
    then Outcome(nd.(pc := Notified(group[0].share, group)),
                 [NotifyOn(nd.round, Notify(id, nd.round, group[0].share, group))])
    else Outcome(nd.(pc := AwaitNotify), [])
  }

  /** What the next tick does; order and pick are the map orders findSubset meets. */
  ghost function OnTick(p: Params, id: int, nd0: Node, order: seq<int>, pick: Digest): Outcome {
    var nd := nd0.(ticks := nd0.ticks + 1);
    match nd.pc
    case Collect => ProposeMax(p, id, nd)
    case WaitTwo =>
      var time := nd.ticks % 6;
      if time == 2 then Outcome(nd.(pc := Proposals, leaderProposal := None, forwarded := []), [])
      else Outcome(if time > 2 then nd.(pc := Stuck) else nd, [])
    case Proposals => EnterCommits(id, nd, ProposeOutput(nd))
    case Commits => FindSubset(p, id, nd, order, pick)
    case Notified(share, commits) => Outcome(Finish(nd, 2, share, commits), [])
    case AwaitNotify => Outcome(Finish(nd, 0, nd.share, []), [])
    case RoundEnd => StartRound(p, id, nd)
    case _ => Outcome(nd0, [])
  }

  /** The node is reading the channel this message is on. */
  predicate Reads(id: int, nd: Node, m: Msg) {
    && m.round == nd.round
    && match m
       case VoteTo(_, to, _) => nd.pc.Collect? && to == id
       case Propose(_, _) => nd.pc.Proposals?
       case CommitOn(_, _) => nd.pc.Commits?
       case NotifyOn(_, _) => nd.pc.AwaitNotify?
  }

  function OnVote(p: Params, nd: Node, m: VoteMsg): Node {
    if !m.sigOk then nd
    else
      match CheckShare(p, m.vote.share)
      case Panic => nd.(pc := Crashed)
      case Reject => nd
      case Accept => if m.sender in nd.votes then nd else nd.(votes := nd.votes[m.sender := m])
  }

  function OnPropose(p: Params, id: int, nd: Node, m: Proposal): Outcome {
    if m.sender != p.leader(nd.round) then Outcome(nd.(forwarded := nd.forwarded + [m]), [])
    else if m.sig.None? || nd.leaderProposal.Some? then Outcome(nd, [])
    else
      match CheckProposal(p, nd.round, m)
      case Panic => Outcome(nd.(pc := Crashed), [])
      case Reject => EnterCommits(id, nd, None)
      case Accept => Outcome(nd.(leaderProposal := Some(m)), [Propose(nd.round, m)])
  }

  function OnCommit(p: Params, nd: Node, m: Commit): Node {
    if ValidCommit(p, m) && m.sender !in nd.received then nd.(received := nd.received[m.sender := m]) else nd
  }

  function OnNotify(p: Params, nd: Node, m: Notify): Node {
    if ValidNotify(p, nd.round, m) then Finish(nd, 1, m.share, m.commits) else Finish(nd, 0, m.share, [])
  }

  function OnMessage(p: Params, id: int, nd: Node, m: Msg): Outcome {
    match m
    case VoteTo(_, _, vote) => Outcome(OnVote(p, nd, vote), [])
    case Propose(_, proposal) => OnPropose(p, id, nd, proposal)
    case CommitOn(_, commit) => Outcome(OnCommit(p, nd, commit), [])
    case NotifyOn(_, notify) => Outcome(OnNotify(p, nd, notify), [])
  }
}
