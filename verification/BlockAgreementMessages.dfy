/** What one node of block agreement makes of the messages it reads between two ticks, whatever these
    are and whoever sent them: which votes and commits it keeps, what the propose protocol puts out,
    how a wait for a notify ends, and what waiting for tick 2 comes to. */
module BlockAgreementMessages {
  import opened Blocks
  import opened BlockAgreement

  /** The node handles those of the messages that it reads. */
  function Fed(p: Params, i: int, nd: Node, ms: seq<Msg>): Node {
    if ms == [] then nd
    else
      var nd1 := Fed(p, i, nd, ms[..|ms| - 1]);
      if Reads(i, nd1, ms[|ms| - 1]) then OnMessage(p, i, nd1, ms[|ms| - 1]).node else nd1
  }

  /** What it sends meanwhile. */
  function FedSent(p: Params, i: int, nd: Node, ms: seq<Msg>): seq<Msg> {
    if ms == [] then []
    else
      var nd1 := Fed(p, i, nd, ms[..|ms| - 1]);
      FedSent(p, i, nd, ms[..|ms| - 1])
      + if Reads(i, nd1, ms[|ms| - 1]) then OnMessage(p, i, nd1, ms[|ms| - 1]).sent else []
  }

  // ---- The first message that counts

  /** m is the first message of sender j that counts. */
  ghost predicate FirstBy(ms: seq<Msg>, counts: Msg -> bool, from: Msg -> int, j: int, m: Msg) {
    exists k :: 0 <= k < |ms| && ms[k] == m && counts(m) && from(m) == j && NoneBy(ms[..k], counts, from, j)
  }

  ghost predicate NoneBy(ms: seq<Msg>, counts: Msg -> bool, from: Msg -> int, j: int) {
    forall m :: m in ms ==> !(counts(m) && from(m) == j)
  }

  /** What one more message changes. */
  lemma FirstMore(ms: seq<Msg>, x: Msg, counts: Msg -> bool, from: Msg -> int, j: int, m: Msg)
    ensures FirstBy(ms + [x], counts, from, j, m) <==>
            FirstBy(ms, counts, from, j, m) || (x == m && counts(x) && from(x) == j && NoneBy(ms, counts, from, j))
  {
    var all := ms + [x];
    forall k | 0 <= k <= |ms| ensures all[..k] == ms[..k] {
    }
    assert ms[..|ms|] == ms && all[|ms|] == x;
    if FirstBy(ms, counts, from, j, m) {
      var k :| 0 <= k < |ms| && ms[k] == m && counts(m) && from(m) == j && NoneBy(ms[..k], counts, from, j);
      assert all[k] == m;
    }
  }

  lemma NoneMore(ms: seq<Msg>, x: Msg, counts: Msg -> bool, from: Msg -> int, j: int)
    ensures NoneBy(ms + [x], counts, from, j) <==> NoneBy(ms, counts, from, j) && !(counts(x) && from(x) == j)
  {
    assert x in ms + [x];
  }

  lemma FirstOrNone(ms: seq<Msg>, counts: Msg -> bool, from: Msg -> int, j: int, m: Msg)
    requires FirstBy(ms, counts, from, j, m)
    ensures !NoneBy(ms, counts, from, j)
  {
    assert m in ms;
  }

  lemma LastOf(ms: seq<Msg>)
    requires ms != []
    ensures ms == ms[..|ms| - 1] + [ms[|ms| - 1]]
  {
  }

  // ---- Votes

  /** A signed vote of the round to this leader, for a block share that passes the checks. */
  function GoodVote(p: Params, i: int, round: int): Msg -> bool {
    (m: Msg) =>
      m.VoteTo? && m.round == round && m.to == i && m.vote.sigOk && CheckShare(p, m.vote.vote.share) == Accept
  }

  function VoteFrom(): Msg -> int {
    (m: Msg) => if m.VoteTo? then m.vote.sender else 0
  }

  /** A signed one for a block share on which the check panics. */
  predicate Fatal(p: Params, i: int, round: int, m: Msg) {
    m.VoteTo? && m.round == round && m.to == i && m.vote.sigOk && CheckShare(p, m.vote.vote.share) == Panic
  }

  ghost predicate SomeFatal(p: Params, i: int, round: int, ms: seq<Msg>) {
    exists m :: m in ms && Fatal(p, i, round, m)
  }

  /** What the leader has made of ms. */
  ghost predicate VotesAre(p: Params, i: int, nd: Node, ms: seq<Msg>, nd1: Node) {
    if SomeFatal(p, i, nd.round, ms) then nd1.pc.Crashed?
    else
      && nd1 == nd.(votes := nd1.votes)
      && (forall j :: j in nd1.votes <==> !NoneBy(ms, GoodVote(p, i, nd.round), VoteFrom(), j))
      && (forall j :: j in nd1.votes ==>
            FirstBy(ms, GoodVote(p, i, nd.round), VoteFrom(), j, VoteTo(nd.round, i, nd1.votes[j])))
  }

  lemma FatalMore(p: Params, i: int, round: int, ms: seq<Msg>, x: Msg)
    ensures SomeFatal(p, i, round, ms + [x]) <==> SomeFatal(p, i, round, ms) || Fatal(p, i, round, x)
  {
    assert x in ms + [x];
  }

  /** One more message, for what is kept of the first ones. */
  lemma KeptMore(ms: seq<Msg>, x: Msg, counts: Msg -> bool, from: Msg -> int)
    ensures forall j :: NoneBy(ms + [x], counts, from, j) <==>
              NoneBy(ms, counts, from, j) && !(counts(x) && from(x) == j)
    ensures forall j, m :: FirstBy(ms + [x], counts, from, j, m) <==>
              FirstBy(ms, counts, from, j, m) || (x == m && counts(x) && from(x) == j && NoneBy(ms, counts, from, j))
  {
    forall j
      ensures NoneBy(ms + [x], counts, from, j) <==> NoneBy(ms, counts, from, j) && !(counts(x) && from(x) == j)
    {
      NoneMore(ms, x, counts, from, j);
    }
    forall j, m
      ensures FirstBy(ms + [x], counts, from, j, m) <==>
              FirstBy(ms, counts, from, j, m) || (x == m && counts(x) && from(x) == j && NoneBy(ms, counts, from, j))
    {
      FirstMore(ms, x, counts, from, j, m);
    }
  }

  /** What a message does to the leader's votes. */
  lemma VoteKept(p: Params, i: int, nd: Node, nd1: Node, x: Msg)
    requires nd.pc.Collect? && nd1 == nd.(votes := nd1.votes) && !Fatal(p, i, nd.round, x)
    ensures (if Reads(i, nd1, x) then OnMessage(p, i, nd1, x).node else nd1) ==
            if GoodVote(p, i, nd.round)(x) && x.vote.sender !in nd1.votes
            then nd1.(votes := nd1.votes[x.vote.sender := x.vote]) else nd1
  {
  }

  lemma VoteTurn(p: Params, i: int, nd: Node, ms: seq<Msg>, nd1: Node, x: Msg)
    requires nd.pc.Collect? && VotesAre(p, i, nd, ms, nd1)
    ensures VotesAre(p, i, nd, ms + [x], if Reads(i, nd1, x) then OnMessage(p, i, nd1, x).node else nd1)
  {
    FatalMore(p, i, nd.round, ms, x);
    if !SomeFatal(p, i, nd.round, ms) && !Fatal(p, i, nd.round, x) {
      VoteKept(p, i, nd, nd1, x);
      KeptMore(ms, x, GoodVote(p, i, nd.round), VoteFrom());
    }
  }

  /** A leader that has handled any messages keeps the first valid vote of every sender and nothing
      else, and it has crashed if and only if a signed vote among them makes the check panic. */
  lemma {:induction false} VotesExactly(p: Params, i: int, nd: Node, ms: seq<Msg>)
    requires nd.pc.Collect? && nd.votes == map[]
    ensures VotesAre(p, i, nd, ms, Fed(p, i, nd, ms))
  {
    if ms != [] {
      var before := ms[..|ms| - 1];
      LastOf(ms);
      VotesExactly(p, i, nd, before);
      VoteTurn(p, i, nd, before, Fed(p, i, nd, before), ms[|ms| - 1]);
    }
  }

  // ---- Commits

  /** A signed commit of the round on a block with more than t messages. */
  function GoodCommit(p: Params, round: int): Msg -> bool {
    (m: Msg) => m.CommitOn? && m.round == round && m.commit.sigOk && Quality(m.commit.share.block.vec) >= p.t + 1
  }

  function CommitFrom(): Msg -> int {
    (m: Msg) => if m.CommitOn? then m.commit.sender else 0
  }

  ghost predicate CommitsAre(p: Params, nd: Node, ms: seq<Msg>, nd1: Node) {
    && nd1 == nd.(received := nd1.received)
    && (forall j :: j in nd1.received <==> !NoneBy(ms, GoodCommit(p, nd.round), CommitFrom(), j))
    && (forall j :: j in nd1.received ==>
          FirstBy(ms, GoodCommit(p, nd.round), CommitFrom(), j, CommitOn(nd.round, nd1.received[j])))
  }

  lemma CommitTurn(p: Params, i: int, nd: Node, ms: seq<Msg>, nd1: Node, x: Msg)
    requires nd.pc.Commits? && CommitsAre(p, nd, ms, nd1)
    ensures CommitsAre(p, nd, ms + [x], if Reads(i, nd1, x) then OnMessage(p, i, nd1, x).node else nd1)
  {
    KeptMore(ms, x, GoodCommit(p, nd.round), CommitFrom());
  }

  /** A node that has handled any messages while it collects commits has the first valid commit of
      every sender, and nothing else has changed. */
  lemma {:induction false} CommitsExactly(p: Params, i: int, nd: Node, ms: seq<Msg>)
    requires nd.pc.Commits? && nd.received == map[]
    ensures CommitsAre(p, nd, ms, Fed(p, i, nd, ms))
  {
    if ms != [] {
      var before := ms[..|ms| - 1];
      LastOf(ms);
      CommitsExactly(p, i, nd, before);
      CommitTurn(p, i, nd, before, Fed(p, i, nd, before), ms[|ms| - 1]);
    }
  }

  // ---- Proposals

  /** A proposal of the round in the name of its leader, with some signature. */
  function LeaderProposal(p: Params, round: int): Msg -> bool {
    (m: Msg) => m.Propose? && m.round == round && m.proposal.sender == p.leader(round) && m.proposal.sig.Some?
  }

  function Anyone(): Msg -> int {
    (m: Msg) => 0
  }

  /** A proposal of the round in another's name. */
  predicate Foreign(p: Params, round: int, m: Msg) {
    m.Propose? && m.round == round && m.proposal.sender != p.leader(round)
  }

  ghost predicate SomeForeign(p: Params, round: int, ms: seq<Msg>) {
    exists m :: m in ms && Foreign(p, round, m)
  }

  ghost predicate Leads(p: Params, round: int, ms: seq<Msg>, m: Msg) {
    FirstBy(ms, LeaderProposal(p, round), Anyone(), 0, m)
  }

  /** No leader's proposal has come. */
  ghost predicate Unproposed(p: Params, nd: Node, ms: seq<Msg>, nd1: Node, sent: seq<Msg>) {
    NoneBy(ms, LeaderProposal(p, nd.round), Anyone(), 0) && nd1 == nd.(forwarded := nd1.forwarded) && sent == []
  }

  /** m has come first, and is valid: it is kept, and sent on once. */
  ghost predicate Adopted(p: Params, nd: Node, ms: seq<Msg>, nd1: Node, sent: seq<Msg>, m: Msg) {
    && Leads(p, nd.round, ms, m) && m.Propose? && m.round == nd.round
    && CheckProposal(p, nd.round, m.proposal) == Accept
    && nd1 == nd.(leaderProposal := Some(m.proposal), forwarded := nd1.forwarded) && sent == [m]
  }

  /** m has come first, and is not: it ends the propose protocol without output, or crashes the node. */
  ghost predicate Refused(p: Params, nd: Node, ms: seq<Msg>, nd1: Node, sent: seq<Msg>, m: Msg) {
    && Leads(p, nd.round, ms, m) && m.Propose? && sent == [] && nd1.round == nd.round
    && match CheckProposal(p, nd.round, m.proposal)
       case Reject => nd1.pc == Commits
       case Panic => nd1.pc == Crashed
       case Accept => false
  }

  ghost predicate ProposalsAre(p: Params, nd: Node, ms: seq<Msg>, nd1: Node, sent: seq<Msg>) {
    && (|| Unproposed(p, nd, ms, nd1, sent)
        || (exists m :: Adopted(p, nd, ms, nd1, sent, m))
        || (exists m :: Refused(p, nd, ms, nd1, sent, m)))
    && (nd1.pc.Proposals? ==> (nd1.forwarded != [] <==> SomeForeign(p, nd.round, ms))
                              && forall q :: q in nd1.forwarded ==> q.sender != p.leader(nd.round))
  }

  lemma ForeignMore(p: Params, round: int, ms: seq<Msg>, x: Msg)
    ensures SomeForeign(p, round, ms + [x]) <==> SomeForeign(p, round, ms) || Foreign(p, round, x)
  {
    assert x in ms + [x];
  }

  lemma LeadsStays(p: Params, round: int, ms: seq<Msg>, x: Msg, m: Msg)
    requires Leads(p, round, ms, m)
    ensures Leads(p, round, ms + [x], m)
  {
    FirstMore(ms, x, LeaderProposal(p, round), Anyone(), 0, m);
  }

  lemma LeadsNow(p: Params, round: int, ms: seq<Msg>, x: Msg)
    requires NoneBy(ms, LeaderProposal(p, round), Anyone(), 0)
    ensures if LeaderProposal(p, round)(x) then Leads(p, round, ms + [x], x)
            else NoneBy(ms + [x], LeaderProposal(p, round), Anyone(), 0)
  {
    FirstMore(ms, x, LeaderProposal(p, round), Anyone(), 0, x);
    NoneMore(ms, x, LeaderProposal(p, round), Anyone(), 0);
  }

  /** Before the leader's proposal. */
  lemma UnproposedTurn(p: Params, i: int, nd: Node, ms: seq<Msg>, nd1: Node, x: Msg)
    requires nd.pc == Proposals && nd.leaderProposal.None? && Unproposed(p, nd, ms, nd1, [])
    ensures var o := if Reads(i, nd1, x) then OnMessage(p, i, nd1, x) else Outcome(nd1, []);
      || Unproposed(p, nd, ms + [x], o.node, o.sent)
      || Adopted(p, nd, ms + [x], o.node, o.sent, x)
      || Refused(p, nd, ms + [x], o.node, o.sent, x)
  {
    LeadsNow(p, nd.round, ms, x);
  }

  /** After it. */
  lemma AdoptedTurn(p: Params, i: int, nd: Node, ms: seq<Msg>, nd1: Node, sent: seq<Msg>, m: Msg, x: Msg)
    requires nd.pc == Proposals && Adopted(p, nd, ms, nd1, sent, m)
    ensures var o := if Reads(i, nd1, x) then OnMessage(p, i, nd1, x) else Outcome(nd1, []);
      Adopted(p, nd, ms + [x], o.node, sent + o.sent, m)
  {
    LeadsStays(p, nd.round, ms, x, m);
  }

  lemma RefusedTurn(p: Params, i: int, nd: Node, ms: seq<Msg>, nd1: Node, sent: seq<Msg>, m: Msg, x: Msg)
    requires Refused(p, nd, ms, nd1, sent, m)
    ensures var o := if Reads(i, nd1, x) then OnMessage(p, i, nd1, x) else Outcome(nd1, []);
      Refused(p, nd, ms + [x], o.node, sent + o.sent, m)
  {
    LeadsStays(p, nd.round, ms, x, m);
  }

  lemma ForeignTurn(p: Params, i: int, nd1: Node, x: Msg, round: int)
    requires nd1.round == round
    ensures var nd2 := if Reads(i, nd1, x) then OnMessage(p, i, nd1, x).node else nd1;
      nd2.pc.Proposals? ==>
        nd1.pc.Proposals? && nd2.forwarded == nd1.forwarded + if Foreign(p, round, x) then [x.proposal] else []
  {
  }

  lemma ProposalTurn(p: Params, i: int, nd: Node, ms: seq<Msg>, nd1: Node, sent: seq<Msg>, x: Msg)
    requires nd.pc == Proposals && nd.leaderProposal.None? && ProposalsAre(p, nd, ms, nd1, sent)
    ensures var o := if Reads(i, nd1, x) then OnMessage(p, i, nd1, x) else Outcome(nd1, []);
      ProposalsAre(p, nd, ms + [x], o.node, sent + o.sent)
  {
    ForeignMore(p, nd.round, ms, x);
    ForeignTurn(p, i, nd1, x, nd.round);
    if Unproposed(p, nd, ms, nd1, sent) {
      UnproposedTurn(p, i, nd, ms, nd1, x);
    } else if m :| Adopted(p, nd, ms, nd1, sent, m) {
      AdoptedTurn(p, i, nd, ms, nd1, sent, m, x);
    } else {
      var m :| Refused(p, nd, ms, nd1, sent, m);
      RefusedTurn(p, i, nd, ms, nd1, sent, m, x);
    }
  }

  /** A node that has handled any messages while it reads proposals has gone by the leader's first: if
      it is valid it is kept and sent on once, if not the propose protocol has ended without output or
      the node has crashed; nothing else is sent. */
  lemma {:induction false} ProposalsExactly(p: Params, i: int, nd: Node, ms: seq<Msg>)
    requires nd.pc == Proposals && nd.leaderProposal.None? && nd.forwarded == []
    ensures ProposalsAre(p, nd, ms, Fed(p, i, nd, ms), FedSent(p, i, nd, ms))
  {
    if ms == [] {
      assert nd == nd.(forwarded := []);
    } else {
      var before := ms[..|ms| - 1];
      LastOf(ms);
      ProposalsExactly(p, i, nd, before);
      ProposalTurn(p, i, nd, before, Fed(p, i, nd, before), FedSent(p, i, nd, before), ms[|ms| - 1]);
    }
  }

  /** The propose protocol puts out a block, exactly: the first proposal in the leader's name is valid
      and for this block, and no proposal in any other name has come. */
  lemma OutputExactly(p: Params, i: int, nd: Node, ms: seq<Msg>, b: BlockShare)
    requires nd.pc == Proposals && nd.leaderProposal.None? && nd.forwarded == []
    ensures var nd1 := Fed(p, i, nd, ms);
      nd1.pc.Proposals? && ProposeOutput(nd1) == Some(b) <==>
      && !SomeForeign(p, nd.round, ms)
      && exists m :: Leads(p, nd.round, ms, m) && m.Propose? && m.proposal.vote.share == b
                     && CheckProposal(p, nd.round, m.proposal) == Accept
  {
    var nd1, sent := Fed(p, i, nd, ms), FedSent(p, i, nd, ms);
    ProposalsExactly(p, i, nd, ms);
    forall m, m' | Leads(p, nd.round, ms, m) && Leads(p, nd.round, ms, m') ensures m == m' {
      OneLeads(p, nd.round, ms, m, m');
    }
    if Unproposed(p, nd, ms, nd1, sent) {
      forall m | Leads(p, nd.round, ms, m) ensures false {
        FirstOrNone(ms, LeaderProposal(p, nd.round), Anyone(), 0, m);
      }
    } else if m :| Adopted(p, nd, ms, nd1, sent, m) {
      AdoptedOutput(p, nd, ms, nd1, sent, m);
    }
  }

  lemma AdoptedOutput(p: Params, nd: Node, ms: seq<Msg>, nd1: Node, sent: seq<Msg>, m: Msg)
    requires nd.pc == Proposals && Adopted(p, nd, ms, nd1, sent, m) && ProposalsAre(p, nd, ms, nd1, sent)
    ensures ProposeOutput(nd1) == if SomeForeign(p, nd.round, ms) then None else Some(m.proposal.vote.share)
  {
    assert m.proposal.sender == p.leader(nd.round);
    if nd1.forwarded != [] {
      assert nd1.forwarded[0] in nd1.forwarded;
    }
  }

  lemma OneLeads(p: Params, round: int, ms: seq<Msg>, m: Msg, m': Msg)
    requires Leads(p, round, ms, m) && Leads(p, round, ms, m')
    ensures m == m'
  {
    var counts, from := LeaderProposal(p, round), Anyone();
    var a :| 0 <= a < |ms| && ms[a] == m && counts(m) && from(m) == 0 && NoneBy(ms[..a], counts, from, 0);
    var b :| 0 <= b < |ms| && ms[b] == m' && counts(m') && from(m') == 0 && NoneBy(ms[..b], counts, from, 0);
    NoneBelow(ms, counts, from, 0, a);
    NoneBelow(ms, counts, from, 0, b);
  }

  lemma NoneBelow(ms: seq<Msg>, counts: Msg -> bool, from: Msg -> int, j: int, b: nat)
    requires b <= |ms| && NoneBy(ms[..b], counts, from, j)
    ensures forall k :: 0 <= k < b ==> !(counts(ms[k]) && from(ms[k]) == j)
  {
    forall k | 0 <= k < b ensures !(counts(ms[k]) && from(ms[k]) == j) {
      assert ms[..b][k] == ms[k];
    }
  }

  // ---- Notifies

  function NotifyOf(round: int): Msg -> bool {
    (m: Msg) => m.NotifyOn? && m.round == round
  }

  /** The checks of a notify, written out: enough messages in the block, no commit of an earlier round,
      all commits on one block, and t+1 senders. */
  ghost predicate GoodNotify(p: Params, round: int, q: Notify) {
    && Quality(q.share.block.vec) >= p.n - p.t
    && (forall c :: c in q.commits ==> c.round >= round)
    && (forall c, d :: c in q.commits && d in q.commits ==> ShareHash(c.share) == ShareHash(d.share))
    && |set c | c in q.commits :: c.sender| >= p.t + 1
  }

  ghost predicate NotifiesAre(p: Params, nd: Node, ms: seq<Msg>, nd1: Node) {
    if NoneBy(ms, NotifyOf(nd.round), Anyone(), 0) then nd1 == nd
    else exists m ::
      && FirstBy(ms, NotifyOf(nd.round), Anyone(), 0, m) && m.NotifyOn?
      && nd1 == if GoodNotify(p, nd.round, m.notify)
                then nd.(share := m.notify.share, commits := m.notify.commits, round := nd.round + 1, pc := RoundEnd)
                else nd.(round := nd.round + 1, pc := RoundEnd)
  }

  lemma NotifyTurn(p: Params, i: int, nd: Node, ms: seq<Msg>, nd1: Node, x: Msg)
    requires nd.pc.AwaitNotify? && NotifiesAre(p, nd, ms, nd1)
    ensures NotifiesAre(p, nd, ms + [x], if Reads(i, nd1, x) then OnMessage(p, i, nd1, x).node else nd1)
  {
    var counts, from := NotifyOf(nd.round), Anyone();
    KeptMore(ms, x, counts, from);
    if NoneBy(ms, counts, from, 0) && counts(x) {
      assert FirstBy(ms + [x], counts, from, 0, x);
    }
  }

  /** A node that waits for a notify goes by the first it reads, be it valid or not: a valid one is
      adopted with its commits, an invalid one ends the round with what the node has, and no later one
      is read. */
  lemma {:induction false} FirstNotifyDecides(p: Params, i: int, nd: Node, ms: seq<Msg>)
    requires nd.pc.AwaitNotify?
    ensures NotifiesAre(p, nd, ms, Fed(p, i, nd, ms))
  {
    if ms != [] {
      var before := ms[..|ms| - 1];
      LastOf(ms);
      FirstNotifyDecides(p, i, nd, before);
      NotifyTurn(p, i, nd, before, Fed(p, i, nd, before), ms[|ms| - 1]);
    }
  }

  // ---- Waiting for tick 2

  /** How many ticks it is to tick 2 of a round, for a node that is not past it. */
  function ToTwo(ticks: nat): nat {
    if ticks % 6 == 5 then 3 else if ticks % 6 < 2 then 2 - ticks % 6 else 0
  }

  /** What the next tick does to a node that waits for tick 2: it reads proposals with a clean slate if
      the tick is that one, gets stuck if it was past it, and is one tick nearer otherwise. */
  lemma WaitsExactly(p: Params, i: int, nd: Node)
    requires nd.pc.WaitTwo?
    ensures var nd1 := OnTick(p, i, nd, [], Raw(0)).node;
      match ToTwo(nd.ticks)
      case 0 => nd1 == nd.(ticks := nd.ticks + 1, pc := Stuck)
      case 1 => nd1 == nd.(ticks := nd.ticks + 1, pc := Proposals, leaderProposal := None, forwarded := [])
      case k => nd1 == nd.(ticks := nd.ticks + 1) && ToTwo(nd1.ticks) == k - 1
  {
  }
}
