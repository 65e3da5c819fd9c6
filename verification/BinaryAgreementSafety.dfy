/** Binary agreement over all runs: n nodes, at most t of them arbitrary, messages delivered in
    any order, any number of times or never. */
module BinaryAgreementSafety {
  import opened Quorums
  import opened Tables
  import opened BinaryAgreement

  /** The nodes' states (entries of faulty nodes are meaningless) and every message ever sent. */
  datatype State = State(nodes: seq<Node>, net: set<Msg>)

  datatype Step =
    | Deliver(i: int, m: Msg)  // node i handles a message
    | Loop(i: int)             // node i's round loop moves on
    | Forge(m: Msg)            // a faulty node sends anything in its own name

  function Init(inputs: seq<Bit>): State {
    State(seq(|inputs|, i requires 0 <= i < |inputs| => InitNode(inputs[i])), {})
  }

  predicate Enabled(c: Config, s: State, step: Step) {
    match step
    case Deliver(i, m) => c.Honest(i) && i < |s.nodes| && m in s.net
    case Loop(i) => c.Honest(i) && i < |s.nodes| && CanAdvance(s.nodes[i])
    case Forge(m) => m.sender in c.faulty
  }

  function Install(s: State, i: int, o: Outcome): State
    requires 0 <= i < |s.nodes|
  {
    State(s.nodes[i := o.node], s.net + Members(o.sent))
  }

  function Do(c: Config, coin: int -> Bit, s: State, step: Step): State {
    if !Enabled(c, s, step) then s else
    match step
    case Deliver(i, m) => Install(s, i, OnMessage(c.n, c.t, i, s.nodes[i], m))
    case Loop(i) => Install(s, i, Advance(i, s.nodes[i], coin(s.nodes[i].round)))
    case Forge(m) => s.(net := s.net + {m})
  }

  /** The state after a run; a step that is not enabled changes nothing. */
  function Run(c: Config, coin: int -> Bit, inputs: seq<Bit>, steps: seq<Step>): State {
    if steps == [] then Init(inputs)
    else Do(c, coin, Run(c, coin, inputs, steps[..|steps| - 1]), steps[|steps| - 1])
  }

  // ---- What every reachable state keeps

  /** `fired` holds exactly the values whose EST tally has reached the threshold. */
  ghost predicate Fired(threshold: nat, ests: set<Msg>, fired: set<Slot>) {
    forall r, v :: Slot(r, v) in fired <==> |Senders(ests, r, v)| >= threshold
  }

  /** A node records only messages that were sent, and its thresholds have fired. */
  ghost predicate Tallies(c: Config, nd: Node, net: set<Msg>) {
    && (forall m :: m in nd.estValues ==> m in net && m.status == EST)
    && (forall m :: m in nd.auxValues ==> m in net && m.status == AUX)
    && Fired(2 * c.t + 1, nd.estValues, nd.binValues)
    && Fired(c.t + 1, nd.estValues, nd.estEchoes)
  }

  /** v alone may end round r: it is in binValues and n-t nodes sent AUX for it. */
  ghost predicate Single(c: Config, nd: Node, r: int, v: int) {
    Slot(r, v) in nd.binValues && |Senders(nd.auxValues, r, v)| >= c.n - c.t
  }

  /** Two values may end round r. */
  ghost predicate Mixed(nd: Node, r: int) {
    exists v, w :: v != w && Slot(r, v) in nd.binValues && Slot(r, w) in nd.binValues
  }

  /** The values with which a node may leave round r. */
  ghost predicate Supported(c: Config, nd: Node, r: int, values: seq<int>) {
    if |values| == 1 then Single(c, nd, r, values[0]) else Mixed(nd, r)
  }

  ghost predicate Queues(c: Config, coin: int -> Bit, nd: Node) {
    && (forall r, v :: v in Queue(nd.notifyEst, r) ==> Slot(r, v) in nd.binValues)
    && (forall r, values :: values in Queue(nd.notifyAux, r) ==> Supported(c, nd, r, values))
    && (nd.phase.AwaitCoin? ==> Supported(c, nd, nd.round, nd.phase.values))
    && (nd.phase.Decided? ==> Single(c, nd, nd.round, nd.phase.value) && nd.phase.value == coin(nd.round))
  }

  /** Node nd had est w when it began round r. */
  ghost predicate Entered(nd: Node, r: int, w: int) {
    Slot(r, w) in nd.estSent || (r == nd.round && w == nd.est)
  }

  /** est w is what round r left behind: a single value, or the coin after a mixed round. */
  ghost predicate Carried(c: Config, coin: int -> Bit, nd: Node, r: int, w: int) {
    Single(c, nd, r, w) || (Mixed(nd, r) && w == coin(r))
  }

  ghost predicate History(c: Config, coin: int -> Bit, nd: Node) {
    && nd.round >= 0
    && (forall x :: x in nd.estSent ==> 0 <= x.round <= nd.round)
    && (forall w :: Slot(nd.round, w) in nd.estSent ==> nd.phase != Start && w == nd.est)
    && (nd.phase != Start ==> Slot(nd.round, nd.est) in nd.estSent)
    && (forall w :: Entered(nd, 0, w) ==> w == nd.value)
    && (forall r, w :: r > 0 && Entered(nd, r, w) ==> Carried(c, coin, nd, r - 1, w))
  }

  /** What a node's own messages say about it. */
  ghost predicate Own(i: int, nd: Node, net: set<Msg>) {
    && (forall r, v :: Msg(i, EST, r, v) in net <==> Slot(r, v) in nd.estSent || Slot(r, v) in nd.estEchoes)
    && (forall r, v :: Msg(i, AUX, r, v) in net ==>
          Slot(r, v) in nd.binValues && r <= nd.round
          && (r == nd.round ==> nd.phase != Start && nd.phase != AwaitEst))
    && (forall r, v, w :: Msg(i, AUX, r, v) in net && Msg(i, AUX, r, w) in net ==> v == w)
  }

  ghost predicate NodeInv(c: Config, coin: int -> Bit, i: int, nd: Node, net: set<Msg>) {
    Tallies(c, nd, net) && Queues(c, coin, nd) && History(c, coin, nd) && Own(i, nd, net)
  }

  /** v was the est of an honest node in round r. */
  ghost predicate Justified(c: Config, s: State, r: int, v: int)
    requires |s.nodes| == c.n
  {
    exists j :: c.Honest(j) && Slot(r, v) in s.nodes[j].estSent
  }

  ghost predicate Inv(c: Config, coin: int -> Bit, s: State) {
    && c.Valid() && |s.nodes| == c.n
    && (forall m :: m in s.net ==> 0 <= m.sender < c.n)
    && (forall i :: c.Honest(i) ==> NodeInv(c, coin, i, s.nodes[i], s.net))
    && (forall i, r, v :: c.Honest(i) && Slot(r, v) in s.nodes[i].estEchoes ==> Justified(c, s, r, v))
  }

  lemma InitNodeInv(c: Config, coin: int -> Bit, i: int, value: int)
    ensures NodeInv(c, coin, i, InitNode(value), {})
  {
    assert forall r, v :: Senders({}, r, v) == {};
  }

  lemma InitInv(c: Config, coin: int -> Bit, inputs: seq<Bit>)
    requires c.Valid() && |inputs| == c.n
    ensures Inv(c, coin, Init(inputs))
  {
    forall i | c.Honest(i) ensures NodeInv(c, coin, i, Init(inputs).nodes[i], {}) {
      InitNodeInv(c, coin, i, inputs[i]);
    }
  }

  /** Messages of other nodes do not disturb a node's invariant. */
  lemma NetGrows(c: Config, coin: int -> Bit, i: int, nd: Node, net: set<Msg>, extra: set<Msg>)
    requires NodeInv(c, coin, i, nd, net)
    requires forall m :: m in extra ==> m.sender != i
    ensures NodeInv(c, coin, i, nd, net + extra)
  {
  }

  lemma FiredKeeps(threshold: nat, ests: set<Msg>, fired: set<Slot>, m: Msg)
    requires Fired(threshold, ests, fired)
    ensures var slot := Slot(m.round, m.value);
      Fired(threshold, ests + {m},
            if |Senders(ests + {m}, m.round, m.value)| >= threshold then fired + {slot} else fired)
  {
    SubsetSize(Senders(ests, m.round, m.value), Senders(ests + {m}, m.round, m.value));
    forall r, v | r != m.round || v != m.value ensures Senders(ests + {m}, r, v) == Senders(ests, r, v) {
    }
  }

  lemma EstTallies(c: Config, i: int, nd: Node, net: set<Msg>, m: Msg)
    requires Tallies(c, nd, net) && m in net && m.status == EST
    ensures Tallies(c, OnEst(c.t, i, nd, m).node, net)
  {
    FiredKeeps(2 * c.t + 1, nd.estValues, nd.binValues, m);
    FiredKeeps(c.t + 1, nd.estValues, nd.estEchoes, m);
    assert Slot(m.round, m.value) in nd.estEchoes ==>
        nd.estEchoes + {Slot(m.round, m.value)} == nd.estEchoes;
  }

  /** The echo goes out exactly when the value is echoed for the first time. */
  lemma EstOwn(c: Config, i: int, nd: Node, net: set<Msg>, m: Msg)
    requires Own(i, nd, net) && m.status == EST
    ensures var o := OnEst(c.t, i, nd, m); Own(i, o.node, net + Members(o.sent))
  {
  }

  lemma SingleGrows(c: Config, nd: Node, nd1: Node, r: int, v: int)
    requires Single(c, nd, r, v)
    requires nd.binValues <= nd1.binValues && nd.auxValues <= nd1.auxValues
    ensures Single(c, nd1, r, v)
  {
    SubsetSize(Senders(nd.auxValues, r, v), Senders(nd1.auxValues, r, v));
  }

  /** More tallies, same round loop: what the node holds for its rounds stays supported. */
  lemma LoopFactsGrow(c: Config, coin: int -> Bit, nd: Node, nd1: Node)
    requires Queues(c, coin, nd) && History(c, coin, nd)
    requires nd.binValues <= nd1.binValues && nd.auxValues <= nd1.auxValues
    requires nd1.round == nd.round && nd1.est == nd.est && nd1.phase == nd.phase
    requires nd1.value == nd.value && nd1.estSent == nd.estSent
    requires forall r, v :: v in Queue(nd1.notifyEst, r) ==> v in Queue(nd.notifyEst, r) || Slot(r, v) in nd1.binValues
    requires forall r, values :: values in Queue(nd1.notifyAux, r) ==>
               values in Queue(nd.notifyAux, r) || Supported(c, nd1, r, values)
    ensures Queues(c, coin, nd1) && History(c, coin, nd1)
  {
    forall r, v | Single(c, nd, r, v) ensures Single(c, nd1, r, v) {
      SingleGrows(c, nd, nd1, r, v);
    }
    assert forall r, w :: Entered(nd1, r, w) ==> Entered(nd, r, w);
  }

  lemma EstKeeps(c: Config, coin: int -> Bit, i: int, nd: Node, net: set<Msg>, m: Msg)
    requires NodeInv(c, coin, i, nd, net) && m in net && m.status == EST
    ensures var o := OnEst(c.t, i, nd, m); NodeInv(c, coin, i, o.node, net + Members(o.sent))
  {
    var o := OnEst(c.t, i, nd, m);
    EstTallies(c, i, nd, net, m);
    EstOwn(c, i, nd, net, m);
    LoopFactsGrow(c, coin, nd, o.node);
  }

  lemma TwoValues(bin: set<Slot>, r: int)
    requires |Values(bin, r)| == 2
    ensures exists v, w :: v != w && Slot(r, v) in bin && Slot(r, w) in bin
  {
    var v :| v in Values(bin, r);
    assert |Values(bin, r) - {v}| == 1;
    var w :| w in Values(bin, r) - {v};
    assert Slot(r, v) in bin && Slot(r, w) in bin;
  }

  lemma NoticesSupported(c: Config, nd: Node, r: int, values: seq<int>)
    requires values in AuxNotices(c.n, c.t, nd.binValues, nd.auxValues, r)
    ensures Supported(c, nd, r, values)
  {
    if values == [0, 1] {
      TwoValues(nd.binValues, r);
    }
  }

  lemma AuxKeeps(c: Config, coin: int -> Bit, i: int, nd: Node, net: set<Msg>, m: Msg)
    requires NodeInv(c, coin, i, nd, net) && m in net && m.status == AUX
    ensures NodeInv(c, coin, i, OnAux(c.n, c.t, nd, m), net)
  {
    var nd1 := OnAux(c.n, c.t, nd, m);
    forall values | values in AuxNotices(c.n, c.t, nd1.binValues, nd1.auxValues, m.round)
      ensures Supported(c, nd1, m.round, values)
    {
      NoticesSupported(c, nd1, m.round, values);
    }
    LoopFactsGrow(c, coin, nd, nd1);
  }

  /** The round loop leaves the tallies alone. */
  ghost predicate SameTallies(nd: Node, nd1: Node) {
    && nd1.estValues == nd.estValues && nd1.auxValues == nd.auxValues
    && nd1.binValues == nd.binValues && nd1.estEchoes == nd.estEchoes && nd1.value == nd.value
  }

  lemma LoopQueues(c: Config, coin: int -> Bit, nd: Node, nd1: Node)
    requires Queues(c, coin, nd) && SameTallies(nd, nd1)
    requires forall r, v :: v in Queue(nd1.notifyEst, r) ==> v in Queue(nd.notifyEst, r)
    requires forall r, values :: values in Queue(nd1.notifyAux, r) ==> values in Queue(nd.notifyAux, r)
    requires nd1.phase.AwaitCoin? ==> Supported(c, nd, nd1.round, nd1.phase.values)
    requires nd1.phase.Decided? ==> Single(c, nd, nd1.round, nd1.phase.value) && nd1.phase.value == coin(nd1.round)
    ensures Queues(c, coin, nd1)
  {
  }

  /** Within a round est stands still; its only new record is the round's own. */
  lemma SameRoundHistory(c: Config, coin: int -> Bit, nd: Node, nd1: Node)
    requires History(c, coin, nd) && SameTallies(nd, nd1)
    requires nd1.round == nd.round && nd1.est == nd.est
    requires nd1.estSent == nd.estSent + {Slot(nd.round, nd.est)} && nd1.phase != Start
    ensures History(c, coin, nd1)
  {
    assert forall r, w :: Entered(nd1, r, w) ==> Entered(nd, r, w);
  }

  lemma NextRoundHistory(c: Config, coin: int -> Bit, nd: Node, nd1: Node)
    requires History(c, coin, nd) && SameTallies(nd, nd1) && nd.phase != Start
    requires nd1.round == nd.round + 1 && nd1.estSent == nd.estSent && nd1.phase == Start
    requires Carried(c, coin, nd, nd.round, nd1.est)
    ensures History(c, coin, nd1)
  {
    assert forall r, w :: Entered(nd1, r, w) ==> Entered(nd, r, w) || (r == nd.round + 1 && w == nd1.est);
  }

  lemma LoopOwn(c: Config, i: int, nd: Node, nd1: Node, net: set<Msg>)
    requires Own(i, nd, net) && SameTallies(nd, nd1) && nd1.estSent == nd.estSent && nd1.round >= nd.round
    requires nd1.round == nd.round ==> nd.phase == AwaitAux || nd.phase.AwaitCoin?
    requires nd1.round == nd.round ==> nd1.phase != Start && nd1.phase != AwaitEst
    ensures Own(i, nd1, net)
  {
  }

  lemma SendEstOwn(c: Config, coin: int -> Bit, i: int, nd: Node, net: set<Msg>)
    requires Own(i, nd, net) && nd.phase == Start
    ensures var o := Advance(i, nd, coin(nd.round)); Own(i, o.node, net + Members(o.sent))
  {
  }

  lemma SendEstKeeps(c: Config, coin: int -> Bit, i: int, nd: Node, net: set<Msg>)
    requires NodeInv(c, coin, i, nd, net) && nd.phase == Start
    ensures var o := Advance(i, nd, coin(nd.round)); NodeInv(c, coin, i, o.node, net + Members(o.sent))
  {
    var o := Advance(i, nd, coin(nd.round));
    LoopQueues(c, coin, nd, o.node);
    SameRoundHistory(c, coin, nd, o.node);
    SendEstOwn(c, coin, i, nd, net);
  }

  lemma SendAuxOwn(c: Config, coin: int -> Bit, i: int, nd: Node, net: set<Msg>)
    requires NodeInv(c, coin, i, nd, net) && nd.phase == AwaitEst && CanAdvance(nd)
    ensures var o := Advance(i, nd, coin(nd.round)); Own(i, o.node, net + Members(o.sent))
  {
    var v := Queue(nd.notifyEst, nd.round)[0];
    assert v in Queue(nd.notifyEst, nd.round);
  }

  lemma SendAuxKeeps(c: Config, coin: int -> Bit, i: int, nd: Node, net: set<Msg>)
    requires NodeInv(c, coin, i, nd, net) && nd.phase == AwaitEst && CanAdvance(nd)
    ensures var o := Advance(i, nd, coin(nd.round)); NodeInv(c, coin, i, o.node, net + Members(o.sent))
  {
    var o := Advance(i, nd, coin(nd.round));
    LoopQueues(c, coin, nd, o.node);
    assert nd.estSent == nd.estSent + {Slot(nd.round, nd.est)};
    SameRoundHistory(c, coin, nd, o.node);
    SendAuxOwn(c, coin, i, nd, net);
  }

  lemma TakeAuxKeeps(c: Config, coin: int -> Bit, i: int, nd: Node, net: set<Msg>)
    requires NodeInv(c, coin, i, nd, net) && nd.phase == AwaitAux && CanAdvance(nd)
    ensures NodeInv(c, coin, i, Advance(i, nd, coin(nd.round)).node, net)
  {
    var nd1 := Advance(i, nd, coin(nd.round)).node;
    var q := Queue(nd.notifyAux, nd.round);
    assert q[0] in q;
    LoopQueues(c, coin, nd, nd1);
    assert nd.estSent == nd.estSent + {Slot(nd.round, nd.est)};
    SameRoundHistory(c, coin, nd, nd1);
    LoopOwn(c, i, nd, nd1, net);
  }

  lemma CoinKeeps(c: Config, coin: int -> Bit, i: int, nd: Node, net: set<Msg>)
    requires NodeInv(c, coin, i, nd, net) && nd.phase.AwaitCoin?
    ensures NodeInv(c, coin, i, Advance(i, nd, coin(nd.round)).node, net)
  {
    var nd1 := Advance(i, nd, coin(nd.round)).node;
    LoopQueues(c, coin, nd, nd1);
    if nd1.phase.Decided? {
      assert nd.estSent == nd.estSent + {Slot(nd.round, nd.est)};
      SameRoundHistory(c, coin, nd, nd1);
    } else {
      NextRoundHistory(c, coin, nd, nd1);
    }
    LoopOwn(c, i, nd, nd1, net);
  }

  lemma LoopKeeps(c: Config, coin: int -> Bit, i: int, nd: Node, net: set<Msg>)
    requires NodeInv(c, coin, i, nd, net) && CanAdvance(nd)
    ensures var o := Advance(i, nd, coin(nd.round)); NodeInv(c, coin, i, o.node, net + Members(o.sent))
  {
    var o := Advance(i, nd, coin(nd.round));
    match nd.phase
    case Start => SendEstKeeps(c, coin, i, nd, net);
    case AwaitEst => SendAuxKeeps(c, coin, i, nd, net);
    case AwaitAux =>
      TakeAuxKeeps(c, coin, i, nd, net);
      assert net + Members(o.sent) == net;
    case AwaitCoin(_) =>
      CoinKeeps(c, coin, i, nd, net);
      assert net + Members(o.sent) == net;
  }

  // ---- The invariant over a step and over a run

  /** One node's turn: the node's own invariant, the others' and the justification of echoes. */
  lemma InstallKeeps(c: Config, coin: int -> Bit, s: State, i: int, o: Outcome)
    requires Inv(c, coin, s) && c.Honest(i)
    requires NodeInv(c, coin, i, o.node, s.net + Members(o.sent))
    requires forall m :: m in o.sent ==> m.sender == i
    requires s.nodes[i].estSent <= o.node.estSent
    requires forall x :: x in o.node.estEchoes ==> Justified(c, s, x.round, x.value)
    ensures Inv(c, coin, Install(s, i, o))
  {
    var s1 := Install(s, i, o);
    forall j | c.Honest(j) && j != i ensures NodeInv(c, coin, j, s1.nodes[j], s1.net) {
      NetGrows(c, coin, j, s.nodes[j], s.net, Members(o.sent));
    }
    forall r, v | Justified(c, s, r, v) ensures Justified(c, s1, r, v) {
      var j :| c.Honest(j) && Slot(r, v) in s.nodes[j].estSent;
      assert Slot(r, v) in s1.nodes[j].estSent;
    }
  }

  /** A tally above t holds an honest EST, whose value somebody honest had as est. */
  lemma TallyJustified(c: Config, coin: int -> Bit, s: State, ests: set<Msg>, r: int, v: int)
    requires Inv(c, coin, s)
    requires forall m :: m in ests ==> m in s.net && m.status == EST
    requires |Senders(ests, r, v)| >= c.t + 1
    ensures Justified(c, s, r, v)
  {
    HonestMember(c, Senders(ests, r, v));
    var j :| j in Senders(ests, r, v) && c.Honest(j);
    assert Msg(j, EST, r, v) in s.net;
    assert Slot(r, v) in s.nodes[j].estSent || Slot(r, v) in s.nodes[j].estEchoes;
  }

  lemma DeliverKeeps(c: Config, coin: int -> Bit, s: State, i: int, m: Msg)
    requires Inv(c, coin, s) && c.Honest(i) && m in s.net
    ensures Inv(c, coin, Install(s, i, OnMessage(c.n, c.t, i, s.nodes[i], m)))
  {
    var nd := s.nodes[i];
    var o := OnMessage(c.n, c.t, i, nd, m);
    if m.status == EST {
      EstKeeps(c, coin, i, nd, s.net, m);
      forall x | x in o.node.estEchoes ensures Justified(c, s, x.round, x.value) {
        if x !in nd.estEchoes {
          TallyJustified(c, coin, s, o.node.estValues, x.round, x.value);
        }
      }
    } else {
      AuxKeeps(c, coin, i, nd, s.net, m);
      assert s.net + Members(o.sent) == s.net;
    }
    InstallKeeps(c, coin, s, i, o);
  }

  lemma ForgeKeeps(c: Config, coin: int -> Bit, s: State, m: Msg)
    requires Inv(c, coin, s) && m.sender in c.faulty
    ensures Inv(c, coin, s.(net := s.net + {m}))
  {
    var s1 := s.(net := s.net + {m});
    forall i | c.Honest(i) ensures NodeInv(c, coin, i, s1.nodes[i], s1.net) {
      NetGrows(c, coin, i, s.nodes[i], s.net, {m});
    }
    forall r, v | Justified(c, s, r, v) ensures Justified(c, s1, r, v) {
      var j :| c.Honest(j) && Slot(r, v) in s.nodes[j].estSent;
      assert Slot(r, v) in s1.nodes[j].estSent;
    }
  }

  lemma StepKeeps(c: Config, coin: int -> Bit, s: State, step: Step)
    requires Inv(c, coin, s)
    ensures Inv(c, coin, Do(c, coin, s, step))
  {
    if Enabled(c, s, step) {
      match step
      case Deliver(i, m) => DeliverKeeps(c, coin, s, i, m);
      case Loop(i) =>
        var o := Advance(i, s.nodes[i], coin(s.nodes[i].round));
        LoopKeeps(c, coin, i, s.nodes[i], s.net);
        InstallKeeps(c, coin, s, i, o);
      case Forge(m) => ForgeKeeps(c, coin, s, m);
    }
  }

  lemma {:induction false} RunInv(c: Config, coin: int -> Bit, inputs: seq<Bit>, steps: seq<Step>)
    requires c.Valid() && |inputs| == c.n
    ensures Inv(c, coin, Run(c, coin, inputs, steps))
  {
    if steps == [] {
      InitInv(c, coin, inputs);
    } else {
      RunInv(c, coin, inputs, steps[..|steps| - 1]);
      StepKeeps(c, coin, Run(c, coin, inputs, steps[..|steps| - 1]), steps[|steps| - 1]);
    }
  }

  // ---- Agreement

  /** Every value of binValues was the est of an honest node. */
  lemma BinJustified(c: Config, coin: int -> Bit, s: State, i: int, r: int, v: int)
    requires Inv(c, coin, s) && c.Honest(i) && Slot(r, v) in s.nodes[i].binValues
    ensures Justified(c, s, r, v)
  {
    TallyJustified(c, coin, s, s.nodes[i].estValues, r, v);
  }

  /** Two honest nodes cannot see different single values in one round. */
  lemma SinglesAgree(c: Config, coin: int -> Bit, s: State, i: int, j: int, r: int, v: int, w: int)
    requires Inv(c, coin, s) && c.Honest(i) && c.Honest(j)
    requires Single(c, s.nodes[i], r, v) && Single(c, s.nodes[j], r, w)
    ensures v == w
  {
    var a, b := Senders(s.nodes[i].auxValues, r, v), Senders(s.nodes[j].auxValues, r, w);
    QuorumsMeet(c, a, b);
    var k :| k in a && k in b && c.Honest(k);
    assert Msg(k, AUX, r, v) in s.net && Msg(k, AUX, r, w) in s.net;
  }

  /** Every honest node that began round r had est v. */
  ghost predicate Unanimous(c: Config, s: State, r: int, v: int)
    requires |s.nodes| == c.n
  {
    forall i, w :: c.Honest(i) && Entered(s.nodes[i], r, w) ==> w == v
  }

  /** A decision on v in round r leaves nothing but v for round r+1. */
  lemma DecisionLocks(c: Config, coin: int -> Bit, s: State, i: int)
    requires Inv(c, coin, s) && c.Honest(i) && s.nodes[i].phase.Decided?
    ensures Unanimous(c, s, s.nodes[i].round + 1, s.nodes[i].phase.value)
  {
    var r, v := s.nodes[i].round, s.nodes[i].phase.value;
    var next := r + 1;
    forall j, w | c.Honest(j) && Entered(s.nodes[j], next, w) ensures w == v {
      assert Carried(c, coin, s.nodes[j], next - 1, w);
      if Single(c, s.nodes[j], r, w) {
        SinglesAgree(c, coin, s, i, j, r, v, w);
      }
    }
  }

  /** A unanimous round leaves binValues with no other value. */
  lemma UnanimousBin(c: Config, coin: int -> Bit, s: State, r: int, v: int, i: int, w: int)
    requires Inv(c, coin, s) && Unanimous(c, s, r, v) && c.Honest(i)
    requires Slot(r, w) in s.nodes[i].binValues
    ensures w == v
  {
    BinJustified(c, coin, s, i, r, w);
    var j :| c.Honest(j) && Slot(r, w) in s.nodes[j].estSent;
    assert Entered(s.nodes[j], r, w);
  }

  /** Unanimity is for ever. */
  lemma {:induction false} UnanimousForever(c: Config, coin: int -> Bit, s: State, r: int, v: int, r1: int)
    requires Inv(c, coin, s) && 0 <= r <= r1 && Unanimous(c, s, r, v)
    ensures Unanimous(c, s, r1, v)
    decreases r1 - r
  {
    if r < r1 {
      var next := r + 1;
      forall j, w | c.Honest(j) && Entered(s.nodes[j], next, w) ensures w == v {
        assert Carried(c, coin, s.nodes[j], next - 1, w);
        forall x | Slot(r, x) in s.nodes[j].binValues ensures x == v {
          UnanimousBin(c, coin, s, r, v, j, x);
        }
      }
      UnanimousForever(c, coin, s, r + 1, v, r1);
    }
  }

  lemma DecisionsAgreeOrdered(c: Config, coin: int -> Bit, s: State, i: int, j: int)
    requires Inv(c, coin, s) && c.Honest(i) && c.Honest(j)
    requires s.nodes[i].phase.Decided? && s.nodes[j].phase.Decided?
    requires s.nodes[i].round <= s.nodes[j].round
    ensures s.nodes[i].phase.value == s.nodes[j].phase.value
  {
    var ri, rj := s.nodes[i].round, s.nodes[j].round;
    if ri < rj {
      DecisionLocks(c, coin, s, i);
      UnanimousForever(c, coin, s, ri + 1, s.nodes[i].phase.value, rj);
      UnanimousBin(c, coin, s, rj, s.nodes[i].phase.value, j, s.nodes[j].phase.value);
    }
  }

  ghost predicate HasDecided(c: Config, s: State, i: int, v: int)
    requires |s.nodes| == c.n
  {
    c.Honest(i) && s.nodes[i].phase == Decided(v)
  }

  /** Agreement: in every run, honest nodes that decide, in whatever rounds, decide the same bit. */
  lemma Agreement(c: Config, coin: int -> Bit, inputs: seq<Bit>, steps: seq<Step>)
    requires c.Valid() && |inputs| == c.n
    ensures var s := Run(c, coin, inputs, steps);
      && |s.nodes| == c.n
      && (forall i, j, v, w :: HasDecided(c, s, i, v) && HasDecided(c, s, j, w) ==> v == w)
  {
    RunInv(c, coin, inputs, steps);
    var s := Run(c, coin, inputs, steps);
    forall i, j, v, w | HasDecided(c, s, i, v) && HasDecided(c, s, j, w) ensures v == w {
      if s.nodes[i].round <= s.nodes[j].round {
        DecisionsAgreeOrdered(c, coin, s, i, j);
      } else {
        DecisionsAgreeOrdered(c, coin, s, j, i);
      }
    }
  }

  /** After a decision on v every honest est of every later round is v. */
  lemma EstsFollowDecision(c: Config, coin: int -> Bit, inputs: seq<Bit>, steps: seq<Step>)
    requires c.Valid() && |inputs| == c.n
    ensures var s := Run(c, coin, inputs, steps);
      && |s.nodes| == c.n
      && (forall i, r, v :: HasDecided(c, s, i, v) && r > s.nodes[i].round ==> Unanimous(c, s, r, v))
  {
    RunInv(c, coin, inputs, steps);
    var s := Run(c, coin, inputs, steps);
    forall i, r, v | HasDecided(c, s, i, v) && r > s.nodes[i].round ensures Unanimous(c, s, r, v) {
      DecisionLocks(c, coin, s, i);
      UnanimousForever(c, coin, s, s.nodes[i].round + 1, v, r);
    }
  }

  // ---- Validity

  /** Only bits ever become an est. */
  lemma {:induction false} EstIsBit(c: Config, coin: int -> Bit, s: State, r: int, j: int, w: int)
    requires Inv(c, coin, s) && (forall i :: c.Honest(i) ==> s.nodes[i].value in {0, 1})
    requires r >= 0 && c.Honest(j) && Entered(s.nodes[j], r, w)
    ensures w == 0 || w == 1
    decreases r
  {
    if r > 0 {
      assert Carried(c, coin, s.nodes[j], r - 1, w);
      if Single(c, s.nodes[j], r - 1, w) {
        BinJustified(c, coin, s, j, r - 1, w);
        var k :| c.Honest(k) && Slot(r - 1, w) in s.nodes[k].estSent;
        EstIsBit(c, coin, s, r - 1, k, w);
      }
    }
  }

  lemma {:induction false} InputsStay(c: Config, coin: int -> Bit, inputs: seq<Bit>, steps: seq<Step>)
    requires |inputs| == c.n
    ensures var s := Run(c, coin, inputs, steps);
      |s.nodes| == c.n && forall i :: 0 <= i < c.n ==> s.nodes[i].value == inputs[i]
  {
    if steps != [] {
      InputsStay(c, coin, inputs, steps[..|steps| - 1]);
    }
  }

  /** Justification: every value in an honest binValues and every honest AUX value was, in that
      round, the est of an honest node, and is a bit. */
  lemma Justification(c: Config, coin: int -> Bit, inputs: seq<Bit>, steps: seq<Step>)
    requires c.Valid() && |inputs| == c.n
    ensures var s := Run(c, coin, inputs, steps);
      && |s.nodes| == c.n
      && (forall i, r, v :: c.Honest(i) && (Slot(r, v) in s.nodes[i].binValues || Msg(i, AUX, r, v) in s.net) ==>
            Justified(c, s, r, v) && (v == 0 || v == 1))
  {
    RunInv(c, coin, inputs, steps);
    InputsStay(c, coin, inputs, steps);
    var s := Run(c, coin, inputs, steps);
    forall i, r, v | c.Honest(i) && (Slot(r, v) in s.nodes[i].binValues || Msg(i, AUX, r, v) in s.net)
      ensures Justified(c, s, r, v) && (v == 0 || v == 1)
    {
      BinJustified(c, coin, s, i, r, v);
      var j :| c.Honest(j) && Slot(r, v) in s.nodes[j].estSent;
      EstIsBit(c, coin, s, r, j, v);
    }
  }

  /** Validity: if all honest nodes start with v, nobody honest decides anything else. */
  lemma Validity(c: Config, coin: int -> Bit, inputs: seq<Bit>, steps: seq<Step>, v: Bit)
    requires c.Valid() && |inputs| == c.n
    requires forall i :: c.Honest(i) ==> inputs[i] == v
    ensures var s := Run(c, coin, inputs, steps);
      && |s.nodes| == c.n
      && (forall i, w :: HasDecided(c, s, i, w) ==> w == v)
  {
    RunInv(c, coin, inputs, steps);
    InputsStay(c, coin, inputs, steps);
    var s := Run(c, coin, inputs, steps);
    assert Unanimous(c, s, 0, v);
    forall i, w | HasDecided(c, s, i, w) ensures w == v {
      UnanimousForever(c, coin, s, 0, v, s.nodes[i].round);
      UnanimousBin(c, coin, s, s.nodes[i].round, v, i, w);
    }
  }

  // ---- Uniformity

  /** Every honest EST of round r has been handled by every honest node. */
  ghost predicate RoundHandled(c: Config, s: State, r: int)
    requires |s.nodes| == c.n
  {
    forall i, j, v :: c.Honest(i) && c.Honest(j) && Msg(i, EST, r, v) in s.net ==>
      Msg(i, EST, r, v) in s.nodes[j].estValues
  }

  /** With more than t honest senders of v, everybody honest has sent and everybody has v. */
  lemma HandledSpreads(c: Config, coin: int -> Bit, s: State, r: int, v: int, honest: set<int>, j: int)
    requires Inv(c, coin, s) && RoundHandled(c, s, r) && c.Honest(j)
    requires |honest| >= c.t + 1 && honest <= c.HonestIds()
    requires forall i :: i in honest ==> Msg(i, EST, r, v) in s.net
    ensures Msg(j, EST, r, v) in s.net
  {
    SubsetSize(honest, Senders(s.nodes[j].estValues, r, v));
  }

  lemma BinSpreads(c: Config, coin: int -> Bit, s: State, r: int, v: int, i: int, k: int)
    requires Inv(c, coin, s) && RoundHandled(c, s, r) && c.Honest(i) && c.Honest(k)
    requires Slot(r, v) in s.nodes[i].binValues
    ensures Msg(k, EST, r, v) in s.net
  {
    var senders := Senders(s.nodes[i].estValues, r, v);
    HonestPart(c, senders);
    HandledSpreads(c, coin, s, r, v, senders - c.faulty, k);
  }

  lemma AllSentFills(c: Config, coin: int -> Bit, s: State, r: int, v: int, j: int)
    requires Inv(c, coin, s) && RoundHandled(c, s, r) && c.Honest(j)
    requires forall k :: c.Honest(k) ==> Msg(k, EST, r, v) in s.net
    ensures Slot(r, v) in s.nodes[j].binValues
  {
    var senders := Senders(s.nodes[j].estValues, r, v);
    forall k | k in c.HonestIds() ensures k in senders {
      assert Msg(k, EST, r, v) in s.nodes[j].estValues;
    }
    HonestCount(c);
    SubsetSize(c.HonestIds(), senders);
  }

  /** Uniformity: once all honest ESTs of a round are handled, all honest binValues of that
      round are the same. */
  lemma Uniformity(c: Config, coin: int -> Bit, inputs: seq<Bit>, steps: seq<Step>, r: int)
    requires c.Valid() && |inputs| == c.n
    ensures var s := Run(c, coin, inputs, steps);
      && |s.nodes| == c.n
      && (RoundHandled(c, s, r) ==> forall i, j :: c.Honest(i) && c.Honest(j) ==>
            Values(s.nodes[i].binValues, r) == Values(s.nodes[j].binValues, r))
  {
    RunInv(c, coin, inputs, steps);
    var s := Run(c, coin, inputs, steps);
    if RoundHandled(c, s, r) {
      forall i, j, v | c.Honest(i) && c.Honest(j) && Slot(r, v) in s.nodes[i].binValues
        ensures Slot(r, v) in s.nodes[j].binValues
      {
        forall k | c.Honest(k) ensures Msg(k, EST, r, v) in s.net {
          BinSpreads(c, coin, s, r, v, i, k);
        }
        AllSentFills(c, coin, s, r, v, j);
      }
    }
  }
}
