/** When binary agreement decides: exactly on a single value that is the coin, and, from any inputs
    and with any faulty nodes, in some run in the first round whose coin is a popular value. */
module BinaryAgreementDecision {
  import opened Quorums
  import opened Tables
  import opened BinaryAgreement
  import opened BinaryAgreementSafety
  import opened BinaryAgreementProgress

  lemma After(c: Config, coin: int -> Bit, inputs: seq<Bit>, steps: seq<Step>, step: Step)
    ensures Run(c, coin, inputs, steps + [step]) == Do(c, coin, Run(c, coin, inputs, steps), step)
  {
    assert (steps + [step])[..|steps + [step]| - 1] == steps;
  }

  /** In every run the coin's answer ends the protocol exactly when the node's values are that one
      bit. Otherwise the next round begins, with the single value or else the coin as est. */
  lemma DecidesExactly(c: Config, coin: int -> Bit, inputs: seq<Bit>, steps: seq<Step>, i: int)
    requires |inputs| == c.n && |Run(c, coin, inputs, steps).nodes| == c.n && c.Honest(i)
    requires Run(c, coin, inputs, steps).nodes[i].phase.AwaitCoin?
    ensures var nd := Run(c, coin, inputs, steps).nodes[i];
      var s1 := Run(c, coin, inputs, steps + [Loop(i)]);
      var vs, r, b := nd.phase.values, nd.round, coin(nd.round);
      && |s1.nodes| == c.n && s1.net == Run(c, coin, inputs, steps).net
      && (HasDecided(c, s1, i, b) <==> vs == [b])
      && (vs == [b] ==> s1.nodes[i].round == r)
      && (vs != [b] ==> s1.nodes[i].phase == Start && s1.nodes[i].round == r + 1
                        && s1.nodes[i].est == if |vs| == 1 then vs[0] else b)
  {
    After(c, coin, inputs, steps, Loop(i));
    var s := Run(c, coin, inputs, steps);
    assert Enabled(c, s, Loop(i));
    var o := Advance(i, s.nodes[i], coin(s.nodes[i].round));
    assert s.net + Members(o.sent) == s.net;
  }

  // ---- A run in which everybody decides

  /** From round r on the node has heard of v only, and for round r only. */
  ghost predicate Pure(nd: Node, r: int, v: int) {
    forall m :: m in nd.estValues + nd.auxValues && m.round >= r ==> m.round == r && m.value == v
  }

  ghost predicate NoAux(nd: Node, r: int) {
    forall m :: m in nd.auxValues ==> m.round < r
  }

  /** How far an honest node is in round r, on its way to leave it with v alone. */
  datatype Stage = Starting | Begun | Filled | Heard | Backed | Asking | Ended

  ghost predicate At(c: Config, coin: int -> Bit, nd: Node, r: int, v: int, stage: Stage) {
    && Pure(nd, r, v)
    && (nd.round == if stage == Ended && coin(r) != v then r + 1 else r)
    && match stage
       case Starting => nd.phase == Start && NoAux(nd, r)
       case Begun => nd.phase == AwaitEst && NoAux(nd, r)
       case Filled => nd.phase == AwaitEst && NoAux(nd, r) && Slot(r, v) in nd.binValues
       case Heard =>
         nd.phase == AwaitAux && Slot(r, v) in nd.binValues
         && (|Senders(nd.auxValues, r, v)| >= c.n - c.t ==> CanAdvance(nd))
       case Backed => nd.phase == AwaitAux && CanAdvance(nd)
       case Asking => nd.phase == AwaitCoin([v])
       case Ended => if coin(r) == v then nd.phase == Decided(v) else nd.phase == Start && nd.est == v
  }

  function Next(stage: Stage): Stage {
    match stage
    case Starting => Begun
    case Filled => Heard
    case Backed => Asking
    case _ => Ended
  }

  const MOVING := {Starting, Filled, Backed, Asking}

  lemma OnlyBin(c: Config, coin: int -> Bit, i: int, nd: Node, net: set<Msg>, r: int, v: int, w: int)
    requires NodeInv(c, coin, i, nd, net) && Pure(nd, r, v) && Slot(r, w) in nd.binValues
    ensures w == v
  {
    Inhabited(Senders(nd.estValues, r, w));
    var j :| j in Senders(nd.estValues, r, w);
  }

  /** The node leaves its ESTs behind with v as AUX. */
  lemma FilledTurn(c: Config, coin: int -> Bit, i: int, nd: Node, net: set<Msg>, r: int, v: int)
    requires c.Valid() && NodeInv(c, coin, i, nd, net) && Queued(nd) && At(c, coin, nd, r, v, Filled)
    ensures CanAdvance(nd)
    ensures var o := Advance(i, nd, coin(nd.round));
      At(c, coin, o.node, r, v, Heard) && o.sent == [Msg(i, AUX, r, v)]
  {
    var q := Queue(nd.notifyEst, r);
    assert q[0] in q;
    OnlyBin(c, coin, i, nd, net, r, v, q[0]);
    assert Senders(nd.auxValues, r, v) == {};
  }

  /** The node takes v alone to the coin. */
  lemma BackedTurn(c: Config, coin: int -> Bit, i: int, nd: Node, net: set<Msg>, r: int, v: int)
    requires NodeInv(c, coin, i, nd, net) && At(c, coin, nd, r, v, Backed)
    ensures At(c, coin, Advance(i, nd, coin(nd.round)).node, r, v, Asking)
  {
    var q := Queue(nd.notifyAux, r);
    assert q[0] in q;
    assert Supported(c, nd, r, q[0]);
    forall w | Slot(r, w) in nd.binValues ensures w == v {
      OnlyBin(c, coin, i, nd, net, r, v, w);
    }
    assert q[0] == [v];
  }

  /** One stretch of the round loop takes a node to the next stage. */
  lemma LoopTurn(c: Config, coin: int -> Bit, i: int, nd: Node, net: set<Msg>, r: int, v: int, stage: Stage)
    requires c.Valid() && NodeInv(c, coin, i, nd, net) && Queued(nd) && At(c, coin, nd, r, v, stage)
    requires stage in MOVING
    ensures CanAdvance(nd)
    ensures var o := Advance(i, nd, coin(nd.round));
      && At(c, coin, o.node, r, v, Next(stage))
      && (stage != Asking ==> o.node.est == nd.est)
      && (stage == Filled ==> Msg(i, AUX, r, v) in o.sent)
  {
    match stage
    case Filled => FilledTurn(c, coin, i, nd, net, r, v);
    case Backed => BackedTurn(c, coin, i, nd, net, r, v);
    case _ =>
  }

  ghost predicate Knows(nd: Node, nd1: Node) {
    nd1.est == nd.est && nd.estValues <= nd1.estValues && nd.auxValues <= nd1.auxValues
  }

  ghost predicate Known(nd: Node, m: Msg) {
    if m.status == EST then m in nd.estValues else m in nd.auxValues
  }

  /** An EST for v, or an AUX for v, of the round leaves the node at its stage. */
  lemma HandleTurn(c: Config, coin: int -> Bit, i: int, nd: Node, r: int, v: Bit, stage: Stage, m: Msg)
    requires At(c, coin, nd, r, v, stage) && m.round == r && m.value == v
    requires (stage == Begun && m.status == EST) || (stage == Heard && m.status == AUX)
    ensures var nd1 := OnMessage(c.n, c.t, i, nd, m).node;
      At(c, coin, nd1, r, v, stage) && Knows(nd, nd1) && Known(nd1, m)
  {
  }

  // ---- The same for all nodes, one after the other

  ghost predicate AllAt(c: Config, coin: int -> Bit, s: State, r: int, v: int, stage: Stage) {
    |s.nodes| == c.n && forall i :: c.Honest(i) ==> At(c, coin, s.nodes[i], r, v, stage)
  }

  /** What a pass over the nodes leaves alone. */
  ghost predicate Grew(c: Config, s: State, s1: State) {
    && |s.nodes| == |s1.nodes| == c.n && s.net <= s1.net
    && (forall i :: c.Honest(i) ==> Knows(s.nodes[i], s1.nodes[i]))
  }

  /** The first k nodes have made their move. */
  ghost predicate Half(c: Config, coin: int -> Bit, s: State, r: int, v: int, stage: Stage, k: int) {
    |s.nodes| == c.n && forall i :: c.Honest(i) ==> At(c, coin, s.nodes[i], r, v, if i < k then Next(stage) else stage)
  }

  lemma RunReady(c: Config, coin: int -> Bit, inputs: seq<Bit>, steps: seq<Step>)
    requires c.Valid() && |inputs| == c.n
    ensures var s := Run(c, coin, inputs, steps);
      Inv(c, coin, s) && (forall i :: c.Honest(i) ==> NodeInv(c, coin, i, s.nodes[i], s.net) && Queued(s.nodes[i]))
  {
    RunInv(c, coin, inputs, steps);
    RunQueued(c, coin, inputs, steps);
  }

  lemma LoopStep(c: Config, coin: int -> Bit, s: State, r: int, v: Bit, stage: Stage, i: nat)
    requires c.Valid() && i < c.n && Half(c, coin, s, r, v, stage, i) && stage in MOVING
    requires c.Honest(i) ==> NodeInv(c, coin, i, s.nodes[i], s.net) && Queued(s.nodes[i])
    ensures var s1 := Do(c, coin, s, Loop(i));
      && |s1.nodes| == c.n && s.net <= s1.net
      && Half(c, coin, s1, r, v, stage, i + 1)
      && (stage != Asking ==> forall j :: c.Honest(j) ==> s1.nodes[j].est == s.nodes[j].est)
      && (stage == Filled && c.Honest(i) ==> Msg(i, AUX, r, v) in s1.net)
  {
    if c.Honest(i) {
      assert At(c, coin, s.nodes[i], r, v, stage);
      LoopTurn(c, coin, i, s.nodes[i], s.net, r, v, stage);
      var o := Advance(i, s.nodes[i], coin(s.nodes[i].round));
      assert Do(c, coin, s, Loop(i)) == Install(s, i, o);
    }
  }

  /** Every node's round loop moves on. */
  lemma {:induction false} LoopAll(c: Config, coin: int -> Bit, inputs: seq<Bit>, steps: seq<Step>, r: int, v: Bit,
                                   stage: Stage, k: nat) returns (all: seq<Step>)
    requires c.Valid() && |inputs| == c.n && k <= c.n && stage in MOVING
    requires AllAt(c, coin, Run(c, coin, inputs, steps), r, v, stage)
    ensures var s, s1 := Run(c, coin, inputs, steps), Run(c, coin, inputs, all);
      && Half(c, coin, s1, r, v, stage, k)
      && (stage != Asking ==> forall i :: c.Honest(i) ==> s1.nodes[i].est == s.nodes[i].est)
      && (stage == Filled ==> forall i :: c.Honest(i) && i < k ==> Msg(i, AUX, r, v) in s1.net)
  {
    if k == 0 {
      all := steps;
    } else {
      var before := LoopAll(c, coin, inputs, steps, r, v, stage, k - 1);
      var i := k - 1;
      all := before + [Loop(i)];
      After(c, coin, inputs, before, Loop(i));
      RunReady(c, coin, inputs, before);
      LoopStep(c, coin, Run(c, coin, inputs, before), r, v, stage, i);
    }
  }

  lemma DeliverStep(c: Config, coin: int -> Bit, s: State, r: int, v: Bit, stage: Stage, m: Msg, i: nat)
    requires i < c.n && AllAt(c, coin, s, r, v, stage) && m.round == r && m.value == v
    requires (stage == Begun && m.status == EST) || (stage == Heard && m.status == AUX)
    ensures var s1 := Do(c, coin, s, Deliver(i, m));
      && AllAt(c, coin, s1, r, v, stage) && Grew(c, s, s1)
      && (c.Honest(i) && m in s.net ==> Known(s1.nodes[i], m))
  {
    if c.Honest(i) {
      HandleTurn(c, coin, i, s.nodes[i], r, v, stage, m);
    }
  }

  lemma DeliverNext(c: Config, coin: int -> Bit, s: State, s0: State, r: int, v: Bit, stage: Stage, m: Msg, i: nat)
    requires i < c.n && Grew(c, s, s0)
    requires AllAt(c, coin, s0, r, v, stage) && m.round == r && m.value == v
    requires (stage == Begun && m.status == EST) || (stage == Heard && m.status == AUX)
    requires m in s.net ==> forall j :: c.Honest(j) && j < i ==> Known(s0.nodes[j], m)
    ensures var s1 := Do(c, coin, s0, Deliver(i, m));
      && AllAt(c, coin, s1, r, v, stage) && Grew(c, s, s1)
      && (m in s.net ==> forall j :: c.Honest(j) && j < i + 1 ==> Known(s1.nodes[j], m))
  {
    DeliverStep(c, coin, s0, r, v, stage, m, i);
  }

  /** The first k nodes handle one message, if it is there. */
  lemma {:induction false} DeliverAll(c: Config, coin: int -> Bit, inputs: seq<Bit>, steps: seq<Step>, r: int, v: Bit,
                                      stage: Stage, m: Msg, k: nat) returns (all: seq<Step>)
    requires |inputs| == c.n && k <= c.n && m.round == r && m.value == v
    requires (stage == Begun && m.status == EST) || (stage == Heard && m.status == AUX)
    requires AllAt(c, coin, Run(c, coin, inputs, steps), r, v, stage)
    ensures var s, s1 := Run(c, coin, inputs, steps), Run(c, coin, inputs, all);
      && AllAt(c, coin, s1, r, v, stage) && Grew(c, s, s1)
      && (m in s.net ==> forall i :: c.Honest(i) && i < k ==> Known(s1.nodes[i], m))
  {
    if k == 0 {
      all := steps;
    } else {
      var before := DeliverAll(c, coin, inputs, steps, r, v, stage, m, k - 1);
      all := before + [Deliver(k - 1, m)];
      After(c, coin, inputs, before, Deliver(k - 1, m));
      DeliverNext(c, coin, Run(c, coin, inputs, steps), Run(c, coin, inputs, before), r, v, stage, m, k - 1);
    }
  }

  /** All nodes handle the first k nodes' messages on v, as far as these have been sent. */
  lemma {:induction false} ExchangeAll(c: Config, coin: int -> Bit, inputs: seq<Bit>, steps: seq<Step>, r: int, v: Bit,
                                       stage: Stage, status: Status, k: nat) returns (all: seq<Step>)
    requires |inputs| == c.n && k <= c.n
    requires (stage == Begun && status == EST) || (stage == Heard && status == AUX)
    requires AllAt(c, coin, Run(c, coin, inputs, steps), r, v, stage)
    ensures var s, s1 := Run(c, coin, inputs, steps), Run(c, coin, inputs, all);
      && AllAt(c, coin, s1, r, v, stage) && Grew(c, s, s1)
      && (forall i, j :: c.Honest(i) && 0 <= j < k && Msg(j, status, r, v) in s.net ==>
            Known(s1.nodes[i], Msg(j, status, r, v)))
  {
    if k == 0 {
      all := steps;
    } else {
      var before := ExchangeAll(c, coin, inputs, steps, r, v, stage, status, k - 1);
      all := DeliverAll(c, coin, inputs, before, r, v, stage, Msg(k - 1, status, r, v), c.n);
    }
  }

  // ---- A round

  ghost function Holders(c: Config, s: State, v: int): set<int>
    requires |s.nodes| == c.n
  {
    set i | i in c.HonestIds() && s.nodes[i].est == v
  }

  /** Nodes that have begun the round have sent the EST they hold. */
  lemma Multicast(c: Config, coin: int -> Bit, s: State, r: int, v: int)
    requires Inv(c, coin, s) && AllAt(c, coin, s, r, v, Begun)
    ensures forall i :: i in Holders(c, s, v) ==> Msg(i, EST, r, v) in s.net
  {
    forall i | i in Holders(c, s, v) ensures Msg(i, EST, r, v) in s.net {
      assert NodeInv(c, coin, i, s.nodes[i], s.net);
    }
  }

  /** Every honest node has handled the ESTs on v of these senders. */
  ghost predicate HeardFrom(c: Config, s: State, r: int, v: int, senders: set<int>)
    requires |s.nodes| == c.n
  {
    forall i, j :: c.Honest(i) && j in senders ==> Known(s.nodes[i], Msg(j, EST, r, v))
  }

  lemma TallySize(nd: Node, r: int, v: int, senders: set<int>)
    requires forall j :: j in senders ==> Known(nd, Msg(j, EST, r, v))
    ensures |Senders(nd.estValues, r, v)| >= |senders|
  {
    forall j | j in senders ensures j in Senders(nd.estValues, r, v) {
      assert Known(nd, Msg(j, EST, r, v));
    }
    SubsetSize(senders, Senders(nd.estValues, r, v));
  }

  /** More than t ESTs are echoed by everybody. */
  lemma Echoes(c: Config, coin: int -> Bit, s: State, r: int, v: int, senders: set<int>)
    requires Inv(c, coin, s) && |senders| >= c.t + 1 && HeardFrom(c, s, r, v, senders)
    ensures forall i :: c.Honest(i) ==> Msg(i, EST, r, v) in s.net
  {
    forall i | c.Honest(i) ensures Msg(i, EST, r, v) in s.net {
      TallySize(s.nodes[i], r, v, senders);
      assert NodeInv(c, coin, i, s.nodes[i], s.net);
    }
  }

  lemma TallyFills(c: Config, nd: Node, net: set<Msg>, r: int, v: int)
    requires c.Valid() && Tallies(c, nd, net)
    requires forall j :: j in c.HonestIds() ==> Known(nd, Msg(j, EST, r, v))
    ensures Slot(r, v) in nd.binValues
  {
    HonestCount(c);
    TallySize(nd, r, v, c.HonestIds());
  }

  /** The ESTs of all honest nodes put v into binValues. */
  lemma Fills(c: Config, coin: int -> Bit, s: State, r: int, v: int)
    requires Inv(c, coin, s) && AllAt(c, coin, s, r, v, Begun) && HeardFrom(c, s, r, v, c.HonestIds())
    ensures AllAt(c, coin, s, r, v, Filled)
  {
    forall i | c.Honest(i) ensures Slot(r, v) in s.nodes[i].binValues {
      TallyFills(c, s.nodes[i], s.net, r, v);
    }
  }

  /** All nodes handle what these senders have sent. */
  lemma Exchange(c: Config, coin: int -> Bit, inputs: seq<Bit>, steps: seq<Step>, r: int, v: Bit, senders: set<int>)
    returns (all: seq<Step>)
    requires c.Valid() && |inputs| == c.n && senders <= Ids(c.n)
    requires AllAt(c, coin, Run(c, coin, inputs, steps), r, v, Begun)
    requires forall j :: j in senders ==> Msg(j, EST, r, v) in Run(c, coin, inputs, steps).net
    ensures var s1 := Run(c, coin, inputs, all);
      Inv(c, coin, s1) && AllAt(c, coin, s1, r, v, Begun) && HeardFrom(c, s1, r, v, senders)
  {
    all := ExchangeAll(c, coin, inputs, steps, r, v, Begun, EST, c.n);
    RunInv(c, coin, inputs, all);
  }

  /** With more than t honest nodes on v, all nodes come to have v, and nothing else, in binValues. */
  lemma EstPart(c: Config, coin: int -> Bit, inputs: seq<Bit>, steps: seq<Step>, r: int, v: Bit)
    returns (all: seq<Step>)
    requires c.Valid() && |inputs| == c.n
    requires AllAt(c, coin, Run(c, coin, inputs, steps), r, v, Starting)
    requires |Holders(c, Run(c, coin, inputs, steps), v)| >= c.t + 1
    ensures AllAt(c, coin, Run(c, coin, inputs, all), r, v, Filled)
  {
    var holders := Holders(c, Run(c, coin, inputs, steps), v);
    all := LoopAll(c, coin, inputs, steps, r, v, Starting, c.n);
    RunInv(c, coin, inputs, all);
    assert Holders(c, Run(c, coin, inputs, all), v) == holders;
    Multicast(c, coin, Run(c, coin, inputs, all), r, v);
    all := Exchange(c, coin, inputs, all, r, v, holders);
    Echoes(c, coin, Run(c, coin, inputs, all), r, v, holders);
    all := Exchange(c, coin, inputs, all, r, v, c.HonestIds());
    Fills(c, coin, Run(c, coin, inputs, all), r, v);
  }

  /** The AUX messages of all honest nodes let everybody go on. */
  lemma Backs(c: Config, coin: int -> Bit, s: State, r: int, v: int)
    requires c.Valid() && AllAt(c, coin, s, r, v, Heard)
    requires forall i, j :: c.Honest(i) && j in c.HonestIds() ==> Known(s.nodes[i], Msg(j, AUX, r, v))
    ensures AllAt(c, coin, s, r, v, Backed)
  {
    forall i | c.Honest(i) ensures At(c, coin, s.nodes[i], r, v, Backed) {
      forall j | j in c.HonestIds() ensures j in Senders(s.nodes[i].auxValues, r, v) {
        assert Known(s.nodes[i], Msg(j, AUX, r, v));
      }
      HonestCount(c);
      SubsetSize(c.HonestIds(), Senders(s.nodes[i].auxValues, r, v));
    }
  }

  /** All nodes leave the round with v alone. */
  lemma AuxPart(c: Config, coin: int -> Bit, inputs: seq<Bit>, steps: seq<Step>, r: int, v: Bit)
    returns (all: seq<Step>)
    requires c.Valid() && |inputs| == c.n
    requires AllAt(c, coin, Run(c, coin, inputs, steps), r, v, Filled)
    ensures AllAt(c, coin, Run(c, coin, inputs, all), r, v, Ended)
  {
    var sent := LoopAll(c, coin, inputs, steps, r, v, Filled, c.n);
    var heard := ExchangeAll(c, coin, inputs, sent, r, v, Heard, AUX, c.n);
    Backs(c, coin, Run(c, coin, inputs, heard), r, v);
    var asking := LoopAll(c, coin, inputs, heard, r, v, Backed, c.n);
    all := LoopAll(c, coin, inputs, asking, r, v, Asking, c.n);
  }

  /** Where the coin is not v, all begin the next round with v. */
  lemma Restarts(c: Config, coin: int -> Bit, s: State, r: int, v: int)
    requires c.Valid() && AllAt(c, coin, s, r, v, Ended) && coin(r) != v
    ensures AllAt(c, coin, s, r + 1, v, Starting) && |Holders(c, s, v)| >= c.t + 1
  {
    forall i | c.Honest(i) ensures At(c, coin, s.nodes[i], r + 1, v, Starting) && s.nodes[i].est == v {
      assert At(c, coin, s.nodes[i], r, v, Ended);
    }
    assert Holders(c, s, v) == c.HonestIds();
    HonestCount(c);
  }

  /** All honest nodes begin round r, more than t of them with v. */
  lemma {:induction false} Reaches(c: Config, coin: int -> Bit, inputs: seq<Bit>, r: nat, v: Bit)
    returns (all: seq<Step>)
    requires c.Valid() && |inputs| == c.n
    requires |Holders(c, Init(inputs), v)| >= c.t + 1
    requires forall k :: 0 <= k < r ==> coin(k) != v
    ensures var s := Run(c, coin, inputs, all);
      && AllAt(c, coin, s, r, v, Starting) && |Holders(c, s, v)| >= c.t + 1
  {
    if r == 0 {
      all := [];
    } else {
      var before := Reaches(c, coin, inputs, r - 1, v);
      var filled := EstPart(c, coin, inputs, before, r - 1, v);
      all := AuxPart(c, coin, inputs, filled, r - 1, v);
      Restarts(c, coin, Run(c, coin, inputs, all), r - 1, v);
    }
  }

  /** More than t honest inputs are v, and r is the first round whose coin is v: whatever the other
      inputs and whoever is faulty, in some run every honest node decides v in round r. */
  lemma DecidingRun(c: Config, coin: int -> Bit, inputs: seq<Bit>, v: Bit, r: nat) returns (steps: seq<Step>)
    requires c.Valid() && |inputs| == c.n
    requires |set i | i in c.HonestIds() && inputs[i] == v| >= c.t + 1
    requires coin(r) == v && forall k :: 0 <= k < r ==> coin(k) != v
    ensures var s := Run(c, coin, inputs, steps);
      && |s.nodes| == c.n
      && forall i :: c.Honest(i) ==> HasDecided(c, s, i, v) && s.nodes[i].round == r
  {
    assert Holders(c, Init(inputs), v) == set i | i in c.HonestIds() && inputs[i] == v;
    steps := Reaches(c, coin, inputs, r, v);
    steps := EstPart(c, coin, inputs, steps, r, v);
    steps := AuxPart(c, coin, inputs, steps, r, v);
    var s := Run(c, coin, inputs, steps);
    forall i | c.Honest(i) ensures HasDecided(c, s, i, v) && s.nodes[i].round == r {
      assert At(c, coin, s.nodes[i], r, v, Ended);
    }
  }

  /** Of n-t honest bits more than t are the same, so there is such a v for any inputs. */
  lemma PopularInput(c: Config, inputs: seq<Bit>) returns (v: Bit)
    requires c.Valid() && |inputs| == c.n
    ensures |set i | i in c.HonestIds() && inputs[i] == v| >= c.t + 1
  {
    var zeros := set i | i in c.HonestIds() && inputs[i] == 0;
    var ones := set i | i in c.HonestIds() && inputs[i] == 1;
    assert c.HonestIds() == zeros + ones;
    UnionSize(zeros, ones);
    HonestCount(c);
    v := if |zeros| >= c.t + 1 then 0 else 1;
  }
}
