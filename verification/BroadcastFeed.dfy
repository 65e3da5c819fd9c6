/** Building runs of the broadcast: every honest node starts, faulty nodes send what they like, and
    every honest node handles a list of messages. */
module BroadcastFeed {
  import opened Quorums
  import opened Blocks
  import opened Tables
  import opened Broadcast
  import opened BroadcastSafety
  import opened BroadcastProgress

  lemma RunMore(c: Config, p: Params, inputs: seq<Option<BlockShare>>, steps: seq<Step>, step: Step)
    ensures Run(c, p, inputs, steps + [step]) == Do(c, p, Run(c, p, inputs, steps), step)
  {
    assert (steps + [step])[..|steps|] == steps;
  }

  // ---- One node handles a list

  /** The node handles the messages in turn until it returns. */
  function Fed(p: Params, id: int, nd: Node, ms: seq<Msg>): Outcome {
    if ms == [] then Outcome(nd, [])
    else
      var o := Fed(p, id, nd, ms[..|ms| - 1]);
      if o.node.output.Some? then o
      else
        var o1 := OnMessage(p, id, o.node, ms[|ms| - 1]);
        Outcome(o1.node, o.sent + o1.sent)
  }

  /** One more message of a list: it is handled unless the node has returned. */
  function ThenOne(p: Params, id: int, o: Outcome, m: Msg): Outcome {
    if o.node.output.Some? then o
    else var o1 := OnMessage(p, id, o.node, m); Outcome(o1.node, o.sent + o1.sent)
  }

  lemma {:induction false} FedStays(p: Params, id: int, nd: Node, ms: seq<Msg>)
    ensures Fed(p, id, nd, ms).node.started == nd.started
  {
    if ms != [] {
      FedStays(p, id, nd, ms[..|ms| - 1]);
      Stays(p, id, Fed(p, id, nd, ms[..|ms| - 1]).node, ms[|ms| - 1]);
    }
  }

  lemma FedOne(p: Params, id: int, nd: Node, ms: seq<Msg>, m: Msg)
    ensures Fed(p, id, nd, ms + [m]) == ThenOne(p, id, Fed(p, id, nd, ms), m)
  {
    assert (ms + [m])[..|ms|] == ms;
  }

  lemma FedThree(p: Params, id: int, nd: Node, x: Msg, y: Msg, z: Msg)
    ensures Fed(p, id, nd, [x, y, z]) == ThenOne(p, id, ThenOne(p, id, ThenOne(p, id, Outcome(nd, []), x), y), z)
  {
    FedOne(p, id, nd, [], x);
    FedOne(p, id, nd, [x], y);
    FedOne(p, id, nd, [x, y], z);
    assert [] + [x] == [x] && [x] + [y] == [x, y] && [x, y] + [z] == [x, y, z];
  }

  lemma InstallTwice(s: State, i: int, o: Outcome, o1: Outcome)
    requires 0 <= i < |s.nodes|
    ensures Install(Install(s, i, o), i, o1) == Install(s, i, Outcome(o1.node, o.sent + o1.sent))
  {
    assert Members(o.sent + o1.sent) == Members(o.sent) + Members(o1.sent);
  }

  lemma {:induction false} Feed(c: Config, p: Params, inputs: seq<Option<BlockShare>>, before: seq<Step>, i: int,
                                ms: seq<Msg>)
    returns (steps: seq<Step>)
    requires var s := Run(c, p, inputs, before);
      c.Honest(i) && i < |s.nodes| && s.nodes[i].started && forall m :: m in ms ==> m in s.net
    ensures var s := Run(c, p, inputs, before);
      Run(c, p, inputs, steps) == Install(s, i, Fed(p, i, s.nodes[i], ms))
  {
    var s := Run(c, p, inputs, before);
    if ms == [] {
      steps := before;
      assert s.net + Members([]) == s.net;
    } else {
      var some := Feed(c, p, inputs, before, i, ms[..|ms| - 1]);
      var o, m := Fed(p, i, s.nodes[i], ms[..|ms| - 1]), ms[|ms| - 1];
      FedStays(p, i, s.nodes[i], ms[..|ms| - 1]);
      assert m in ms;
      if o.node.output.None? {
        InstallTwice(s, i, o, OnMessage(p, i, o.node, m));
      }
      RunMore(c, p, inputs, some, Deliver(i, m));
      steps := some + [Deliver(i, m)];
    }
  }

  // ---- All honest nodes handle their lists

  /** What every node becomes and sends with its list. */
  function Outs(p: Params, s: State, lists: int -> seq<Msg>): seq<Outcome> {
    seq(|s.nodes|, j requires 0 <= j < |s.nodes| => Fed(p, j, s.nodes[j], lists(j)))
  }

  /** What the honest nodes below k send. */
  function SentBy(c: Config, outs: seq<Outcome>, k: nat): set<Msg>
    requires k <= |outs|
  {
    if k == 0 then {} else SentBy(c, outs, k - 1) + if c.Honest(k - 1) then Members(outs[k - 1].sent) else {}
  }

  lemma {:induction false} SentAre(c: Config, outs: seq<Outcome>, k: nat)
    requires k <= |outs|
    ensures forall j :: 0 <= j < k && c.Honest(j) ==> Members(outs[j].sent) <= SentBy(c, outs, k)
    ensures forall m :: m in SentBy(c, outs, k) ==> exists j :: 0 <= j < k && c.Honest(j) && m in outs[j].sent
  {
    if k > 0 {
      SentAre(c, outs, k - 1);
    }
  }

  ghost predicate FedTo(c: Config, s: State, s1: State, outs: seq<Outcome>, k: nat) {
    && |s1.nodes| == |s.nodes| == |outs| && k <= |outs|
    && (forall j :: 0 <= j < |outs| ==> s1.nodes[j] == if c.Honest(j) && j < k then outs[j].node else s.nodes[j])
    && s1.net == s.net + SentBy(c, outs, k)
  }

  /** All honest nodes run, and their lists are around. */
  ghost predicate MayFeed(c: Config, s: State, lists: int -> seq<Msg>) {
    && |s.nodes| == c.n
    && forall j :: c.Honest(j) ==> s.nodes[j].started && forall m :: m in lists(j) ==> m in s.net
  }

  lemma FedMore(c: Config, s: State, s1: State, outs: seq<Outcome>, k: nat)
    requires FedTo(c, s, s1, outs, k) && k < |outs| && c.Honest(k)
    ensures FedTo(c, s, Install(s1, k, outs[k]), outs, k + 1)
  {
  }

  lemma FedSkip(c: Config, s: State, s1: State, outs: seq<Outcome>, k: nat)
    requires FedTo(c, s, s1, outs, k) && k < |outs| && !c.Honest(k)
    ensures FedTo(c, s, s1, outs, k + 1)
  {
  }

  lemma FeedNext(c: Config, p: Params, inputs: seq<Option<BlockShare>>, s: State, some: seq<Step>,
                 lists: int -> seq<Msg>, outs: seq<Outcome>, k: nat)
    returns (steps: seq<Step>)
    requires MayFeed(c, s, lists) && outs == Outs(p, s, lists) && k < c.n
    requires FedTo(c, s, Run(c, p, inputs, some), outs, k)
    ensures FedTo(c, s, Run(c, p, inputs, steps), outs, k + 1)
  {
    if c.Honest(k) {
      steps := Feed(c, p, inputs, some, k, lists(k));
      FedMore(c, s, Run(c, p, inputs, some), outs, k);
    } else {
      steps := some;
      FedSkip(c, s, Run(c, p, inputs, some), outs, k);
    }
  }

  lemma {:induction false} FeedAll(c: Config, p: Params, inputs: seq<Option<BlockShare>>, before: seq<Step>,
                                   lists: int -> seq<Msg>, outs: seq<Outcome>, k: nat)
    returns (steps: seq<Step>)
    requires MayFeed(c, Run(c, p, inputs, before), lists) && k <= c.n
    requires outs == Outs(p, Run(c, p, inputs, before), lists)
    ensures FedTo(c, Run(c, p, inputs, before), Run(c, p, inputs, steps), outs, k)
  {
    if k == 0 {
      steps := before;
    } else {
      var some := FeedAll(c, p, inputs, before, lists, outs, k - 1);
      steps := FeedNext(c, p, inputs, Run(c, p, inputs, before), some, lists, outs, k - 1);
    }
  }

  /** All honest nodes handle their lists, and what holds of each outcome holds of the new state. */
  lemma FeedGood(c: Config, p: Params, inputs: seq<Option<BlockShare>>, before: seq<Step>, lists: int -> seq<Msg>,
                 good: (int, Outcome) -> bool)
    returns (steps: seq<Step>, outs: seq<Outcome>)
    requires var s := Run(c, p, inputs, before);
      MayFeed(c, s, lists) && forall j :: c.Honest(j) ==> good(j, Fed(p, j, s.nodes[j], lists(j)))
    ensures var s, s1 := Run(c, p, inputs, before), Run(c, p, inputs, steps);
      && |s1.nodes| == |outs| == c.n && s.net <= s1.net
      && (forall j :: c.Honest(j) ==> good(j, outs[j]) && s1.nodes[j] == outs[j].node)
      && (forall j :: c.Honest(j) ==> forall m :: m in outs[j].sent ==> m in s1.net)
      && (forall m :: m in s1.net && m !in s.net ==> exists j :: c.Honest(j) && m in outs[j].sent)
  {
    var s := Run(c, p, inputs, before);
    outs := Outs(p, s, lists);
    steps := FeedAll(c, p, inputs, before, lists, outs, c.n);
    FedGood(c, s, Run(c, p, inputs, steps), outs);
  }

  lemma FedGood(c: Config, s: State, s1: State, outs: seq<Outcome>)
    requires |outs| == c.n && FedTo(c, s, s1, outs, c.n)
    ensures |s1.nodes| == c.n && s.net <= s1.net
    ensures forall j :: c.Honest(j) ==> s1.nodes[j] == outs[j].node
    ensures forall j :: c.Honest(j) ==> forall m :: m in outs[j].sent ==> m in s1.net
    ensures forall m :: m in s1.net && m !in s.net ==> exists j :: c.Honest(j) && m in outs[j].sent
  {
    SentAre(c, outs, c.n);
    forall j, m | c.Honest(j) && m in outs[j].sent ensures m in s1.net {
      assert m in Members(outs[j].sent);
    }
  }

  // ---- The start

  /** The two messages of the sender. */
  function SenderMsgs(p: Params, a: BlockShare): set<Msg> {
    {SMsg(p.senderId, a), BMsg(p.senderId, VAL, ShareHash(a))}
  }

  function Begun(value: Option<BlockShare>): Node {
    InitNode(value).(started := true)
  }

  /** The honest nodes below k run; the sender, if it is one of them, has sent its value. */
  ghost predicate Launched(c: Config, p: Params, inputs: seq<Option<BlockShare>>, a: BlockShare, s: State, k: nat) {
    && |s.nodes| == |inputs| == c.n
    && (forall j :: c.Honest(j) ==> s.nodes[j] == if j < k then Begun(inputs[j]) else InitNode(inputs[j]))
    && s.net == if p.senderId < k then SenderMsgs(p, a) else {}
  }

  lemma LaunchOne(c: Config, p: Params, inputs: seq<Option<BlockShare>>, a: BlockShare, s: State, k: nat)
    requires c.Honest(p.senderId) && |inputs| == c.n && inputs[p.senderId] == Some(a)
    requires Launched(c, p, inputs, a, s, k) && k < c.n && c.Honest(k)
    ensures Launched(c, p, inputs, a, Do(c, p, s, Launch(k)), k + 1)
  {
    var o := Begin(p, k, s.nodes[k]);
    if k == p.senderId {
      assert Members(o.sent) == SenderMsgs(p, a);
    } else {
      assert Members(o.sent) == {};
    }
  }

  lemma {:induction false} LaunchAll(c: Config, p: Params, inputs: seq<Option<BlockShare>>, a: BlockShare, k: nat)
    returns (steps: seq<Step>)
    requires c.Honest(p.senderId) && |inputs| == c.n && inputs[p.senderId] == Some(a) && k <= c.n
    ensures Launched(c, p, inputs, a, Run(c, p, inputs, steps), k)
  {
    if k == 0 {
      steps := [];
    } else {
      steps := LaunchAll(c, p, inputs, a, k - 1);
      if c.Honest(k - 1) {
        LaunchOne(c, p, inputs, a, Run(c, p, inputs, steps), k - 1);
        RunMore(c, p, inputs, steps, Launch(k - 1));
        steps := steps + [Launch(k - 1)];
      }
    }
  }

  /** Faulty nodes send these messages. */
  lemma {:induction false} ForgeAll(c: Config, p: Params, inputs: seq<Option<BlockShare>>, before: seq<Step>,
                                    ms: seq<Msg>)
    returns (steps: seq<Step>)
    requires forall m :: m in ms ==> m.sender in c.faulty
    ensures var s := Run(c, p, inputs, before);
      Run(c, p, inputs, steps) == s.(net := s.net + Members(ms))
  {
    if ms == [] {
      steps := before;
      assert Run(c, p, inputs, before).net + Members([]) == Run(c, p, inputs, before).net;
    } else {
      var last := ms[|ms| - 1];
      assert last in ms;
      var some := ForgeAll(c, p, inputs, before, ms[..|ms| - 1]);
      RunMore(c, p, inputs, some, Forge(last));
      steps := some + [Forge(last)];
      assert ms == ms[..|ms| - 1] + [last];
      assert Members(ms) == Members(ms[..|ms| - 1]) + {last};
    }
  }

  // ---- Lists of messages of many nodes

  function HonestBelow(c: Config, k: nat): set<int> {
    set i | 0 <= i < k && c.Honest(i)
  }

  /** One message of every honest node below k. */
  function OfHonest(c: Config, of: int -> Msg, k: nat): seq<Msg> {
    if k == 0 then []
    else OfHonest(c, of, k - 1) + if c.Honest(k - 1) then [of(k - 1)] else []
  }

  /** One message of every member below k. */
  function OfMembers(committee: set<int>, of: int -> Msg, k: nat): seq<Msg> {
    if k == 0 then []
    else OfMembers(committee, of, k - 1) + if k - 1 in committee then [of(k - 1)] else []
  }

  lemma {:induction false} HonestAre(c: Config, of: int -> Msg, k: nat)
    ensures forall m :: m in OfHonest(c, of, k) <==> exists i :: 0 <= i < k && c.Honest(i) && m == of(i)
  {
    if k > 0 {
      HonestAre(c, of, k - 1);
    }
  }

  lemma {:induction false} MembersAre(committee: set<int>, of: int -> Msg, k: nat)
    ensures forall m :: m in OfMembers(committee, of, k) <==> exists i :: 0 <= i < k && i in committee && m == of(i)
  {
    if k > 0 {
      MembersAre(committee, of, k - 1);
    }
  }

  lemma HonestNext(c: Config, k: nat)
    ensures HonestBelow(c, k + 1) == HonestBelow(c, k) + if c.Honest(k) then {k} else {}
    ensures HonestBelow(c, c.n) == c.HonestIds()
  {
  }

  lemma FedHonest(c: Config, p: Params, id: int, nd: Node, of: int -> Msg, k: nat)
    ensures var o := Fed(p, id, nd, OfHonest(c, of, k));
      Fed(p, id, nd, OfHonest(c, of, k + 1)) == if c.Honest(k) then ThenOne(p, id, o, of(k)) else o
  {
    FedOne(p, id, nd, OfHonest(c, of, k), of(k));
    assert OfHonest(c, of, k + 1) == if c.Honest(k) then OfHonest(c, of, k) + [of(k)] else OfHonest(c, of, k);
  }

  lemma FedMembers(p: Params, id: int, nd: Node, committee: set<int>, of: int -> Msg, k: nat)
    ensures var o := Fed(p, id, nd, OfMembers(committee, of, k));
      Fed(p, id, nd, OfMembers(committee, of, k + 1)) == if k in committee then ThenOne(p, id, o, of(k)) else o
  {
    FedOne(p, id, nd, OfMembers(committee, of, k), of(k));
    assert OfMembers(committee, of, k + 1) ==
           if k in committee then OfMembers(committee, of, k) + [of(k)] else OfMembers(committee, of, k);
  }

  // ---- Induction over such a list

  /** What holds of the outcome after the nodes below i holds after node i. */
  ghost predicate HonestStep(c: Config, p: Params, id: int, of: int -> Msg, good: (nat, Outcome) -> bool, i: nat) {
    forall o :: good(i, o) ==> good(i + 1, if c.Honest(i) then ThenOne(p, id, o, of(i)) else o)
  }

  lemma {:induction false} HonestInduction(c: Config, p: Params, id: int, nd: Node, of: int -> Msg,
                                           good: (nat, Outcome) -> bool, k: nat)
    requires good(0, Outcome(nd, [])) && forall i: nat :: HonestStep(c, p, id, of, good, i)
    ensures good(k, Fed(p, id, nd, OfHonest(c, of, k)))
  {
    if k == 0 {
      assert OfHonest(c, of, 0) == [];
    } else {
      HonestInduction(c, p, id, nd, of, good, k - 1);
      assert HonestStep(c, p, id, of, good, k - 1);
      FedHonest(c, p, id, nd, of, k - 1);
    }
  }

  ghost predicate MemberStep(p: Params, id: int, committee: set<int>, of: int -> Msg, good: (nat, Outcome) -> bool,
                             i: nat) {
    forall o :: good(i, o) ==> good(i + 1, if i in committee then ThenOne(p, id, o, of(i)) else o)
  }

  lemma {:induction false} MemberInduction(p: Params, id: int, nd: Node, committee: set<int>, of: int -> Msg,
                                           good: (nat, Outcome) -> bool, k: nat)
    requires good(0, Outcome(nd, [])) && forall i: nat :: MemberStep(p, id, committee, of, good, i)
    ensures good(k, Fed(p, id, nd, OfMembers(committee, of, k)))
  {
    if k == 0 {
      assert OfMembers(committee, of, 0) == [];
    } else {
      MemberInduction(p, id, nd, committee, of, good, k - 1);
      assert MemberStep(p, id, committee, of, good, k - 1);
      FedMembers(p, id, nd, committee, of, k - 1);
    }
  }
}
