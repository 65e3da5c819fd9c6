/** When the round loop of binary agreement can move on. A round never blocks while ESTs are
    awaited; while AUX messages are awaited it can, because only an AUX message looks at binValues. */
module BinaryAgreementProgress {
  import opened Quorums
  import opened Tables
  import opened BinaryAgreement
  import opened BinaryAgreementSafety

  // ---- Waiting for ESTs

  /** A value in binValues of a round that has not got past its ESTs waits in the round's queue. */
  ghost predicate Queued(nd: Node) {
    forall r, v | Slot(r, v) in nd.binValues
                  && (r > nd.round || (r == nd.round && (nd.phase.Start? || nd.phase.AwaitEst?))) ::
      Queue(nd.notifyEst, r) != []
  }

  lemma MessageQueued(n: nat, t: nat, id: int, nd: Node, m: Msg)
    requires Queued(nd)
    ensures Queued(OnMessage(n, t, id, nd, m).node)
  {
  }

  lemma LoopQueued(id: int, nd: Node, coin: Bit)
    requires Queued(nd) && CanAdvance(nd)
    ensures Queued(Advance(id, nd, coin).node)
  {
  }

  lemma {:induction false} RunQueued(c: Config, coin: int -> Bit, inputs: seq<Bit>, steps: seq<Step>)
    requires |inputs| == c.n
    ensures var s := Run(c, coin, inputs, steps); |s.nodes| == c.n && forall i :: 0 <= i < c.n ==> Queued(s.nodes[i])
  {
    if steps != [] {
      var s, step := Run(c, coin, inputs, steps[..|steps| - 1]), steps[|steps| - 1];
      RunQueued(c, coin, inputs, steps[..|steps| - 1]);
      if Enabled(c, s, step) {
        match step
        case Deliver(i, m) => MessageQueued(c.n, c.t, i, s.nodes[i], m);
        case Loop(i) => LoopQueued(i, s.nodes[i], coin(s.nodes[i].round));
        case Forge(m) =>
      }
    }
  }

  /** Every honest node has begun round r. */
  ghost predicate AllBegan(c: Config, s: State, r: int)
    requires |s.nodes| == c.n
  {
    forall j :: c.Honest(j) ==> exists w :: Slot(r, w) in s.nodes[j].estSent
  }

  ghost function Beginners(c: Config, s: State, r: int, v: int): set<int>
    requires |s.nodes| == c.n
  {
    set j | j in c.HonestIds() && Slot(r, v) in s.nodes[j].estSent
  }

  /** Of n-t honest bits more than t are the same. */
  lemma Popular(c: Config, coin: int -> Bit, s: State, r: int) returns (v: int)
    requires Inv(c, coin, s) && AllBegan(c, s, r) && (forall i :: c.Honest(i) ==> s.nodes[i].value in {0, 1})
    ensures |Beginners(c, s, r, v)| >= c.t + 1
  {
    var zeros, ones := Beginners(c, s, r, 0), Beginners(c, s, r, 1);
    forall j | j in c.HonestIds() ensures j in zeros + ones {
      var w :| Slot(r, w) in s.nodes[j].estSent;
      assert NodeInv(c, coin, j, s.nodes[j], s.net);
      EstIsBit(c, coin, s, r, j, w);
    }
    HonestCount(c);
    SubsetSize(c.HonestIds(), zeros + ones);
    UnionSize(zeros, ones);
    v := if |zeros| >= c.t + 1 then 0 else 1;
  }

  /** Once all honest nodes have begun round r and their ESTs are handled, nobody honest is blocked
      waiting for a value in binValues. */
  lemma EstProgress(c: Config, coin: int -> Bit, inputs: seq<Bit>, steps: seq<Step>, r: int, i: int)
    requires c.Valid() && |inputs| == c.n && c.Honest(i)
    ensures var s := Run(c, coin, inputs, steps);
      && |s.nodes| == c.n
      && (AllBegan(c, s, r) && RoundHandled(c, s, r) && s.nodes[i].round == r && s.nodes[i].phase.AwaitEst? ==>
            CanAdvance(s.nodes[i]))
  {
    RunInv(c, coin, inputs, steps);
    RunQueued(c, coin, inputs, steps);
    InputsStay(c, coin, inputs, steps);
    var s := Run(c, coin, inputs, steps);
    if AllBegan(c, s, r) && RoundHandled(c, s, r) {
      var v := Popular(c, coin, s, r);
      var honest := Beginners(c, s, r, v);
      forall j | j in honest ensures Msg(j, EST, r, v) in s.net {
        assert NodeInv(c, coin, j, s.nodes[j], s.net);
      }
      forall k | c.Honest(k) ensures Msg(k, EST, r, v) in s.net {
        HandledSpreads(c, coin, s, r, v, honest, k);
      }
      AllSentFills(c, coin, s, r, v, i);
      assert Queued(s.nodes[i]);
    }
  }

  // ---- Waiting for AUX messages

  /** A node that handles messages while its round loop is blocked. */
  function HandleAll(n: nat, t: nat, id: int, nd: Node, ms: seq<Msg>): Node {
    if ms == [] then nd else OnMessage(n, t, id, HandleAll(n, t, id, nd, ms[..|ms| - 1]), ms[|ms| - 1]).node
  }

  /** The k-th message is an AUX of the round that finds support for an end of the round. */
  ghost predicate Wakes(n: nat, t: nat, id: int, nd: Node, ms: seq<Msg>, k: nat)
    requires k < |ms|
  {
    var nd1 := HandleAll(n, t, id, nd, ms[..k + 1]);
    ms[k].status == AUX && ms[k].round == nd.round && AuxNotices(n, t, nd1.binValues, nd1.auxValues, nd.round) != []
  }

  lemma OnlyAuxWakes(n: nat, t: nat, id: int, nd: Node, m: Msg)
    requires nd.phase == AwaitAux
    ensures var nd1 := OnMessage(n, t, id, nd, m).node;
      && nd1.phase == AwaitAux && nd1.round == nd.round
      && (CanAdvance(nd1) <==>
            CanAdvance(nd)
            || (m.status == AUX && m.round == nd.round
                && AuxNotices(n, t, nd1.binValues, nd1.auxValues, nd.round) != []))
  {
  }

  ghost predicate SomeWakes(n: nat, t: nat, id: int, nd: Node, ms: seq<Msg>) {
    exists k :: 0 <= k < |ms| && Wakes(n, t, id, nd, ms, k)
  }

  lemma SomeWakesSplit(n: nat, t: nat, id: int, nd: Node, ms: seq<Msg>)
    requires ms != []
    ensures SomeWakes(n, t, id, nd, ms) <==>
            (SomeWakes(n, t, id, nd, ms[..|ms| - 1]) || Wakes(n, t, id, nd, ms, |ms| - 1))
  {
    var before := ms[..|ms| - 1];
    forall k | 0 <= k < |before| ensures Wakes(n, t, id, nd, ms, k) <==> Wakes(n, t, id, nd, before, k) {
      assert ms[..k + 1] == before[..k + 1];
    }
  }

  /** A waiting node moves on exactly when some AUX message of its round finds enough support in
      binValues at the moment it is handled: a value that enters binValues later wakes nobody. */
  lemma {:induction false} WokenExactly(n: nat, t: nat, id: int, nd: Node, ms: seq<Msg>)
    requires nd.phase == AwaitAux
    ensures HandleAll(n, t, id, nd, ms).phase == AwaitAux && HandleAll(n, t, id, nd, ms).round == nd.round
    ensures CanAdvance(HandleAll(n, t, id, nd, ms)) <==> CanAdvance(nd) || SomeWakes(n, t, id, nd, ms)
  {
    if ms != [] {
      var last := |ms| - 1;
      WokenExactly(n, t, id, nd, ms[..last]);
      OnlyAuxWakes(n, t, id, HandleAll(n, t, id, nd, ms[..last]), ms[last]);
      assert ms[..last + 1] == ms;
      SomeWakesSplit(n, t, id, nd, ms);
    }
  }

  /** Node nd has j's AUX for round r, and its value in binValues. */
  ghost predicate HasAux(nd: Node, j: int, r: int) {
    exists v :: Msg(j, AUX, r, v) in nd.auxValues && Slot(r, v) in nd.binValues
  }

  ghost predicate AuxComplete(c: Config, nd: Node, r: int) {
    forall j :: j in c.HonestIds() ==> HasAux(nd, j, r)
  }

  /** Either all honest AUX messages carry one bit that is in binValues, or both bits are. */
  lemma BothBits(c: Config, nd: Node, i: int, r: int)
    requires i in c.HonestIds() && AuxComplete(c, nd, r)
    requires forall v :: Slot(r, v) in nd.binValues ==> v == 0 || v == 1
    ensures || (c.HonestIds() <= Senders(nd.auxValues, r, 0) && Slot(r, 0) in nd.binValues)
            || (c.HonestIds() <= Senders(nd.auxValues, r, 1) && Slot(r, 1) in nd.binValues)
            || (Values(nd.binValues, r) == {0, 1}
                && c.HonestIds() <= Senders(nd.auxValues, r, 0) + Senders(nd.auxValues, r, 1))
  {
    forall j | j in c.HonestIds()
      ensures j in Senders(nd.auxValues, r, 0) + Senders(nd.auxValues, r, 1)
      ensures Slot(r, 1) !in nd.binValues ==> j in Senders(nd.auxValues, r, 0)
      ensures Slot(r, 0) !in nd.binValues ==> j in Senders(nd.auxValues, r, 1)
    {
      assert HasAux(nd, j, r);
      var v :| Msg(j, AUX, r, v) in nd.auxValues && Slot(r, v) in nd.binValues;
    }
    assert HasAux(nd, i, r);
    if Slot(r, 0) in nd.binValues && Slot(r, 1) in nd.binValues {
      assert 0 in Values(nd.binValues, r) && 1 in Values(nd.binValues, r);
    }
  }

  /** With all honest AUX messages recorded and their values in binValues there is support. */
  lemma CompleteNotices(c: Config, nd: Node, i: int, r: int)
    requires c.Valid() && i in c.HonestIds() && AuxComplete(c, nd, r)
    requires forall v :: Slot(r, v) in nd.binValues ==> v == 0 || v == 1
    ensures AuxNotices(c.n, c.t, nd.binValues, nd.auxValues, r) != []
  {
    var zeros, ones := Senders(nd.auxValues, r, 0), Senders(nd.auxValues, r, 1);
    HonestCount(c);
    BothBits(c, nd, i, r);
    if c.HonestIds() <= zeros {
      SubsetSize(c.HonestIds(), zeros);
    }
    if c.HonestIds() <= ones {
      SubsetSize(c.HonestIds(), ones);
    }
    if c.HonestIds() <= zeros + ones {
      SubsetSize(c.HonestIds(), zeros + ones);
      UnionSize(zeros, ones);
    }
  }

  /** An AUX message after which a waiting node has all honest AUX messages of its round, and their
      values in binValues, wakes it. */
  lemma AuxProgress(c: Config, coin: int -> Bit, inputs: seq<Bit>, steps: seq<Step>, i: int, m: Msg)
    requires c.Valid() && |inputs| == c.n && Enabled(c, Run(c, coin, inputs, steps), Deliver(i, m))
    requires var nd := Run(c, coin, inputs, steps).nodes[i];
      nd.phase == AwaitAux && m.status == AUX && m.round == nd.round
    ensures var s := Run(c, coin, inputs, steps + [Deliver(i, m)]);
      |s.nodes| == c.n && (AuxComplete(c, s.nodes[i], m.round) ==> CanAdvance(s.nodes[i]))
  {
    var all := steps + [Deliver(i, m)];
    assert all[..|all| - 1] == steps;
    BinBits(c, coin, inputs, all, i, m.round);
    AuxTurn(c, Run(c, coin, inputs, steps).nodes[i], i, m);
  }

  lemma BinBits(c: Config, coin: int -> Bit, inputs: seq<Bit>, steps: seq<Step>, i: int, r: int)
    requires c.Valid() && |inputs| == c.n && c.Honest(i)
    ensures var s := Run(c, coin, inputs, steps);
      |s.nodes| == c.n && forall v :: Slot(r, v) in s.nodes[i].binValues ==> v == 0 || v == 1
  {
    RunInv(c, coin, inputs, steps);
    InputsStay(c, coin, inputs, steps);
    StateBits(c, coin, Run(c, coin, inputs, steps), i, r);
  }

  lemma StateBits(c: Config, coin: int -> Bit, s: State, i: int, r: int)
    requires Inv(c, coin, s) && c.Honest(i) && (forall j :: c.Honest(j) ==> s.nodes[j].value in {0, 1})
    ensures forall v :: Slot(r, v) in s.nodes[i].binValues ==> v == 0 || v == 1
  {
    forall v | Slot(r, v) in s.nodes[i].binValues ensures v == 0 || v == 1 {
      BinJustified(c, coin, s, i, r, v);
      var j :| c.Honest(j) && Slot(r, v) in s.nodes[j].estSent;
      assert NodeInv(c, coin, j, s.nodes[j], s.net);
      EstIsBit(c, coin, s, r, j, v);
    }
  }

  lemma AuxTurn(c: Config, nd: Node, i: int, m: Msg)
    requires c.Valid() && c.Honest(i) && nd.phase == AwaitAux && m.status == AUX && m.round == nd.round
    ensures var nd1 := OnMessage(c.n, c.t, i, nd, m).node;
      (forall v :: Slot(m.round, v) in nd1.binValues ==> v == 0 || v == 1) && AuxComplete(c, nd1, m.round) ==>
        CanAdvance(nd1)
  {
    var nd1 := OnMessage(c.n, c.t, i, nd, m).node;
    OnlyAuxWakes(c.n, c.t, i, nd, m);
    if (forall v :: Slot(m.round, v) in nd1.binValues ==> v == 0 || v == 1) && AuxComplete(c, nd1, m.round) {
      CompleteNotices(c, nd1, i, m.round);
    }
  }

  // ---- A round that nobody leaves: two nodes, no fault, inputs 0 and 1

  const TWO := Config(2, 0, {})

  function Est(i: int, v: int): Msg {
    Msg(i, EST, 0, v)
  }

  function Aux(i: int): Msg {
    Msg(i, AUX, 0, i)
  }

  /** Node i, whose input is i, in the order in which it comes by its messages: its own EST, both
      AUX messages, the other EST and the two echoes. */
  function At(i: Bit, stage: nat): Node {
    var own, other := Slot(0, i), Slot(0, 1 - i);
    var begun := InitNode(i).(estSent := {own}, phase := AwaitEst);
    var filled := begun.(estValues := {Est(i, i)}, estEchoes := {own}, binValues := {own});
    var waiting := filled.(phase := AwaitAux, notifyEst := map[0 := []]);
    var both := waiting.(auxValues := {Aux(0), Aux(1)}, notifyAux := map[0 := []]);
    var late := both.(estValues := {Est(0, 0), Est(1, 1)}, estEchoes := {own, other}, binValues := {own, other});
    match stage
    case 0 => InitNode(i)
    case 1 => begun
    case 2 => filled.(notifyEst := map[0 := [i]])
    case 3 => waiting
    case 4 => waiting.(auxValues := {Aux(0)}, notifyAux := map[0 := []])
    case 5 => both
    case 6 => late.(notifyEst := map[0 := [1 - i]])
    case 7 => late.(estValues := late.estValues + {Est(0, 1)}, notifyEst := map[0 := [1 - i, 1]])
    case _ => late.(estValues := late.estValues + {Est(0, 1), Est(1, 0)}, notifyEst := map[0 := [1 - i, 1, 0]])
  }

  lemma EstTurn(id: int, nd: Node, m: Msg)
    requires m.status == EST
    ensures var slot := Slot(m.round, m.value);
      var o := OnMessage(2, 0, id, nd, m);
      && o.node == nd.(estValues := nd.estValues + {m}, estEchoes := nd.estEchoes + {slot},
                       binValues := nd.binValues + {slot}, notifyEst := Push(nd.notifyEst, m.round, [m.value]))
      && o.sent == if slot in nd.estEchoes then [] else [Msg(id, EST, m.round, m.value)]
  {
    var senders := Senders(nd.estValues + {m}, m.round, m.value);
    assert m in nd.estValues + {m};
    assert m.sender in senders;
    SubsetSize({m.sender}, senders);
    var slot := Slot(m.round, m.value);
    assert slot in nd.estEchoes ==> nd.estEchoes + {slot} == nd.estEchoes;
  }

  /** With one AUX for each value and one value in binValues there is no support. */
  lemma AuxTurnTwo(i: Bit, nd: Node, m: Msg)
    requires nd.binValues == {Slot(0, i)} && nd.auxValues + {m} <= {Aux(0), Aux(1)} && m.status == AUX && m.round == 0
    ensures OnMessage(2, 0, i, nd, m) ==
            Outcome(nd.(auxValues := nd.auxValues + {m}, notifyAux := Push(nd.notifyAux, 0, [])), [])
  {
    var auxs := nd.auxValues + {m};
    SubsetSize(Senders(auxs, 0, 0), {0});
    SubsetSize(Senders(auxs, 0, 1), {1});
    assert Values(nd.binValues, 0) == {i};
  }

  lemma SameEsts(a: Node, b: Node)
    requires a == b.(estValues := a.estValues, estEchoes := a.estEchoes, binValues := a.binValues,
                     notifyEst := a.notifyEst)
    requires a.estValues == b.estValues && a.estEchoes == b.estEchoes && a.binValues == b.binValues
    requires a.notifyEst.Keys == b.notifyEst.Keys == {0} && a.notifyEst[0] == b.notifyEst[0]
    ensures a == b
  {
    assert a.notifyEst == b.notifyEst;
  }

  lemma BeginTurn(i: Bit, coin: Bit)
    ensures CanAdvance(At(i, 0)) && Advance(i, At(i, 0), coin) == Outcome(At(i, 1), [Est(i, i)])
  {
  }

  lemma OwnEstTurn(i: Bit)
    ensures OnMessage(2, 0, i, At(i, 1), Est(i, i)) == Outcome(At(i, 2), [Est(i, i)])
  {
    EstTurn(i, At(i, 1), Est(i, i));
    SameEsts(OnMessage(2, 0, i, At(i, 1), Est(i, i)).node, At(i, 2));
  }

  lemma SendAuxTurn(i: Bit, coin: Bit)
    ensures CanAdvance(At(i, 2)) && Advance(i, At(i, 2), coin) == Outcome(At(i, 3), [Aux(i)])
  {
  }

  lemma AuxTurns(i: Bit)
    ensures OnMessage(2, 0, i, At(i, 3), Aux(0)) == Outcome(At(i, 4), [])
    ensures OnMessage(2, 0, i, At(i, 4), Aux(1)) == Outcome(At(i, 5), [])
  {
    AuxTurnTwo(i, At(i, 3), Aux(0));
    AuxTurnTwo(i, At(i, 4), Aux(1));
  }

  lemma OtherEstTurn(i: Bit)
    ensures OnMessage(2, 0, i, At(i, 5), Est(1 - i, 1 - i)) == Outcome(At(i, 6), [Est(i, 1 - i)])
  {
    EstTurn(i, At(i, 5), Est(1 - i, 1 - i));
    SameEsts(OnMessage(2, 0, i, At(i, 5), Est(1 - i, 1 - i)).node, At(i, 6));
  }

  lemma EchoTurns(i: Bit)
    ensures OnMessage(2, 0, i, At(i, 6), Est(0, 1)) == Outcome(At(i, 7), [])
    ensures OnMessage(2, 0, i, At(i, 7), Est(1, 0)) == Outcome(At(i, 8), [])
  {
    EstTurn(i, At(i, 6), Est(0, 1));
    SameEsts(OnMessage(2, 0, i, At(i, 6), Est(0, 1)).node, At(i, 7));
    EstTurn(i, At(i, 7), Est(1, 0));
    SameEsts(OnMessage(2, 0, i, At(i, 7), Est(1, 0)).node, At(i, 8));
  }

  /** The run reaches this state. */
  ghost predicate Reaches(coin: int -> Bit, steps: seq<Step>, a: nat, b: nat, net: set<Msg>) {
    Run(TWO, coin, [0, 1], steps) == State([At(0, a), At(1, b)], net)
  }

  lemma Handles(coin: int -> Bit, steps: seq<Step>, a: nat, b: nat, net: set<Msg>, i: Bit, m: Msg, stage: nat,
                sent: seq<Msg>)
    requires Reaches(coin, steps, a, b, net) && m in net
    requires OnMessage(2, 0, i, At(i, if i == 0 then a else b), m) == Outcome(At(i, stage), sent)
    ensures Reaches(coin, steps + [Deliver(i, m)], if i == 0 then stage else a, if i == 0 then b else stage,
                    net + Members(sent))
  {
    var all := steps + [Deliver(i, m)];
    assert all[..|all| - 1] == steps;
  }

  lemma Loops(coin: int -> Bit, steps: seq<Step>, a: nat, b: nat, net: set<Msg>, i: Bit, stage: nat, sent: Msg)
    requires Reaches(coin, steps, a, b, net)
    requires var nd := At(i, if i == 0 then a else b);
      CanAdvance(nd) && nd.round == 0 && Advance(i, nd, coin(0)) == Outcome(At(i, stage), [sent])
    ensures Reaches(coin, steps + [Loop(i)], if i == 0 then stage else a, if i == 0 then b else stage, net + {sent})
  {
    var all := steps + [Loop(i)];
    assert all[..|all| - 1] == steps;
    assert Members([sent]) == {sent};
  }

  /** Both nodes multicast their ESTs and get their own back. */
  lemma Begun(coin: int -> Bit) returns (steps: seq<Step>)
    ensures Reaches(coin, steps, 2, 2, {Est(0, 0), Est(1, 1)})
  {
    assert Reaches(coin, [], 0, 0, {});
    BeginTurn(0, coin(0));
    BeginTurn(1, coin(0));
    Loops(coin, [], 0, 0, {}, 0, 1, Est(0, 0));
    Loops(coin, [] + [Loop(0)], 1, 0, {} + {Est(0, 0)}, 1, 1, Est(1, 1));
    steps := [] + [Loop(0)] + [Loop(1)];
    var net := {Est(0, 0), Est(1, 1)};
    assert {} + {Est(0, 0)} + {Est(1, 1)} == net;
    OwnEstTurn(0);
    OwnEstTurn(1);
    Handles(coin, steps, 1, 1, net, 0, Est(0, 0), 2, [Est(0, 0)]);
    assert net + Members([Est(0, 0)]) == net;
    Handles(coin, steps + [Deliver(0, Est(0, 0))], 2, 1, net, 1, Est(1, 1), 2, [Est(1, 1)]);
    assert net + Members([Est(1, 1)]) == net;
    steps := steps + [Deliver(0, Est(0, 0))] + [Deliver(1, Est(1, 1))];
  }

  lemma Waiting(coin: int -> Bit, before: seq<Step>, net: set<Msg>) returns (steps: seq<Step>)
    requires Reaches(coin, before, 2, 2, net)
    ensures Reaches(coin, steps, 3, 3, net + {Aux(0), Aux(1)})
  {
    SendAuxTurn(0, coin(0));
    SendAuxTurn(1, coin(0));
    Loops(coin, before, 2, 2, net, 0, 3, Aux(0));
    Loops(coin, before + [Loop(0)], 3, 2, net + {Aux(0)}, 1, 3, Aux(1));
    assert net + {Aux(0)} + {Aux(1)} == net + {Aux(0), Aux(1)};
    steps := before + [Loop(0)] + [Loop(1)];
  }

  lemma Tallied(coin: int -> Bit, before: seq<Step>, a: nat, b: nat, net: set<Msg>, i: Bit) returns (steps: seq<Step>)
    requires Reaches(coin, before, a, b, net) && (if i == 0 then a else b) == 3 && Aux(0) in net && Aux(1) in net
    ensures Reaches(coin, steps, if i == 0 then 5 else a, if i == 0 then b else 5, net)
  {
    AuxTurns(i);
    assert net + Members([]) == net;
    Handles(coin, before, a, b, net, i, Aux(0), 4, []);
    steps := before + [Deliver(i, Aux(0))];
    Handles(coin, steps, if i == 0 then 4 else a, if i == 0 then b else 4, net, i, Aux(1), 5, []);
    steps := steps + [Deliver(i, Aux(1))];
  }

  lemma Filled(coin: int -> Bit, before: seq<Step>, a: nat, b: nat, net: set<Msg>, i: Bit) returns (steps: seq<Step>)
    requires Reaches(coin, before, a, b, net) && (if i == 0 then a else b) == 5 && Est(1 - i, 1 - i) in net
    ensures Reaches(coin, steps, if i == 0 then 6 else a, if i == 0 then b else 6, net + {Est(i, 1 - i)})
  {
    OtherEstTurn(i);
    Handles(coin, before, a, b, net, i, Est(1 - i, 1 - i), 6, [Est(i, 1 - i)]);
    assert net + Members([Est(i, 1 - i)]) == net + {Est(i, 1 - i)};
    steps := before + [Deliver(i, Est(1 - i, 1 - i))];
  }

  lemma Echoed(coin: int -> Bit, before: seq<Step>, a: nat, b: nat, net: set<Msg>, i: Bit) returns (steps: seq<Step>)
    requires Reaches(coin, before, a, b, net) && (if i == 0 then a else b) == 6 && Est(0, 1) in net && Est(1, 0) in net
    ensures Reaches(coin, steps, if i == 0 then 8 else a, if i == 0 then b else 8, net)
  {
    EchoTurns(i);
    assert net + Members([]) == net;
    Handles(coin, before, a, b, net, i, Est(0, 1), 7, []);
    steps := before + [Deliver(i, Est(0, 1))];
    Handles(coin, steps, if i == 0 then 7 else a, if i == 0 then b else 7, net, i, Est(1, 0), 8, []);
    steps := steps + [Deliver(i, Est(1, 0))];
  }

  /** Both AUX messages come before the second value gets into binValues: every message has been
      handled by everybody, both bits are in binValues, and no node can ever leave round 0. */
  lemma RoundStuck(coin: int -> Bit) returns (steps: seq<Step>)
    ensures var s := Run(TWO, coin, [0, 1], steps);
      && |s.nodes| == 2
      && forall i | 0 <= i < 2 ::
           && s.nodes[i].phase == AwaitAux && !CanAdvance(s.nodes[i])
           && Values(s.nodes[i].binValues, 0) == {0, 1}
           && forall m :: m in s.net ==> m in s.nodes[i].estValues || m in s.nodes[i].auxValues
  {
    var net := {Est(0, 0), Est(1, 1)} + {Aux(0), Aux(1)};
    steps := Begun(coin);
    steps := Waiting(coin, steps, {Est(0, 0), Est(1, 1)});
    steps := Tallied(coin, steps, 3, 3, net, 0);
    steps := Tallied(coin, steps, 5, 3, net, 1);
    steps := Filled(coin, steps, 5, 5, net, 0);
    steps := Filled(coin, steps, 6, 5, net + {Est(0, 1)}, 1);
    net := net + {Est(0, 1)} + {Est(1, 0)};
    steps := Echoed(coin, steps, 6, 6, net, 0);
    steps := Echoed(coin, steps, 8, 6, net, 1);
    forall i: Bit ensures Values(At(i, 8).binValues, 0) == {0, 1} {
      assert Slot(0, i) in At(i, 8).binValues && Slot(0, 1 - i) in At(i, 8).binValues;
    }
  }
}
