/** The binary agreement of Mostefaoui et al. with a common coin, as one node runs it.
    `OnMessage` is one turn of the message handler; `Advance` carries the round loop from one
    blocking point to the next. */
module BinaryAgreement {
  import opened Tables

  type Bit = b: int | b == 0 || b == 1

  datatype Status = EST | AUX

  datatype Msg = Msg(sender: int, status: Status, round: int, value: int)

  /** Where the round loop is blocked. */
  datatype Phase =
    | Start                        // about to send the round's EST
    | AwaitEst                     // reading notifyEST
    | AwaitAux                     // reading notifyAUX
    | AwaitCoin(values: seq<int>)  // calling the common coin
    | Decided(value: int)          // returned with an output

  /** A value in a round, as in estSent[round][value]. */
  datatype Slot = Slot(round: int, value: int)

  /** A nested map of booleans is the set of its true entries: estValues and auxValues map
      round, value and sender, so they are kept as the messages they record. */
  datatype Node = Node(
    value: int,
    round: int,
    est: int,
    phase: Phase,
    binValues: set<Slot>,
    estValues: set<Msg>,
    auxValues: set<Msg>,
    estSent: set<Slot>,
    estEchoes: set<Slot>,
    notifyEst: map<int, seq<int>>,
    notifyAux: map<int, seq<seq<int>>>)

  /** The senders recorded for value v in round r. */
  function Senders(tally: set<Msg>, r: int, v: int): set<int> {
    set m | m in tally && m.round == r && m.value == v :: m.sender
  }

  /** The values of round r in a set of slots. */
  function Values(slots: set<Slot>, r: int): set<int> {
    set x | x in slots && x.round == r :: x.value
  }

  /** The new state of a node and what it multicasts on the way. */
  datatype Outcome = Outcome(node: Node, sent: seq<Msg>)

  function InitNode(value: int): Node {
    Node(value, 0, value, Start, {}, {}, {}, {}, {}, map[], map[])
  }

  function OnEst(t: nat, id: int, nd: Node, m: Msg): Outcome {
    var slot := Slot(m.round, m.value);
    var ests := nd.estValues + {m};
    var count := |Senders(ests, m.round, m.value)|;
    var echo := count >= t + 1 && slot !in nd.estEchoes;
    var full := count >= 2 * t + 1;
    Outcome(
      nd.(estValues := ests,
          estEchoes := if echo then nd.estEchoes + {slot} else nd.estEchoes,
          binValues := if full then nd.binValues + {slot} else nd.binValues,
          notifyEst := if full then Push(nd.notifyEst, m.round, [m.value]) else nd.notifyEst),
      if echo then [Msg(id, EST, m.round, m.value)] else [])
  }

  /** The notifications an AUX message for round r triggers: {0}, {1} and {0,1}, in this order. */
  function AuxNotices(n: nat, t: nat, bin: set<Slot>, auxs: set<Msg>, r: int): seq<seq<int>> {
    var zeros, ones := |Senders(auxs, r, 0)|, |Senders(auxs, r, 1)|;
    (if Slot(r, 0) in bin && zeros >= n - t then [[0]] else [])
    + (if Slot(r, 1) in bin && ones >= n - t then [[1]] else [])
    + (if |Values(bin, r)| == 2 && zeros + ones >= n - t then [[0, 1]] else [])
  }

  function OnAux(n: nat, t: nat, nd: Node, m: Msg): Node {
    var auxs := nd.auxValues + {m};
    nd.(auxValues := auxs,
        notifyAux := Push(nd.notifyAux, m.round, AuxNotices(n, t, nd.binValues, auxs, m.round)))
  }

  function OnMessage(n: nat, t: nat, id: int, nd: Node, m: Msg): Outcome {
    match m.status
    case EST => OnEst(t, id, nd, m)
    case AUX => Outcome(OnAux(n, t, nd, m), [])
  }

  predicate CanAdvance(nd: Node) {
    match nd.phase
    case Start => true
    case AwaitEst => Queue(nd.notifyEst, nd.round) != []
    case AwaitAux => Queue(nd.notifyAux, nd.round) != []
    case AwaitCoin(_) => true
    case Decided(_) => false
  }

  /** One stretch of the round loop; `coin` is the answer of the coin for the node's round. */
  function Advance(id: int, nd: Node, coin: Bit): Outcome
    requires CanAdvance(nd)
  {
    match nd.phase
    case Start =>
      if Slot(nd.round, nd.est) in nd.estSent then Outcome(nd.(phase := AwaitEst), [])
      else Outcome(nd.(estSent := nd.estSent + {Slot(nd.round, nd.est)}, phase := AwaitEst),
                   [Msg(id, EST, nd.round, nd.est)])
    case AwaitEst =>
      var q := Queue(nd.notifyEst, nd.round);
      Outcome(nd.(notifyEst := nd.notifyEst[nd.round := q[1..]], phase := AwaitAux),
              [Msg(id, AUX, nd.round, q[0])])
    case AwaitAux =>
      var q := Queue(nd.notifyAux, nd.round);
      Outcome(nd.(notifyAux := nd.notifyAux[nd.round := q[1..]], phase := AwaitCoin(q[0])), [])
    case AwaitCoin(values) =>
      if |values| == 1 && values[0] == coin then Outcome(nd.(phase := Decided(coin)), [])
      else
        Outcome(nd.(est := if |values| == 1 then values[0] else coin, round := nd.round + 1, phase := Start), [])
  }

  /** A node as the program keeps it: every method is one atomic stretch of `Run`, and does to
      the node's state what the functions above say. `sent` collects what is multicast. */
  class Agreement {
    const n: nat
    const t: nat
    const nodeId: int
    var value: int
    var round: int
    var est: int
    var phase: Phase
    var binValues: set<Slot>
    var estValues: set<Msg>
    var auxValues: set<Msg>
    var estSent: set<Slot>
    var estEchoes: set<Slot>
    var notifyEst: map<int, seq<int>>
    var notifyAux: map<int, seq<seq<int>>>
    var sent: seq<Msg>

    ghost function View(): Node
      reads this
    {
      Node(value, round, est, phase, binValues, estValues, auxValues, estSent, estEchoes, notifyEst, notifyAux)
    }

    constructor (n: nat, t: nat, nodeId: int, value: int)
      ensures this.n == n && this.t == t && this.nodeId == nodeId
      ensures View() == InitNode(value) && sent == []
    {
      this.n, this.t, this.nodeId, this.value := n, t, nodeId, value;
      round, est, phase := 0, value, Start;
      binValues, estValues, auxValues, estSent, estEchoes := {}, {}, {}, {}, {};
      notifyEst, notifyAux, sent := map[], map[], [];
    }

    method EchoEst(r: int, v: int)
      modifies this`estEchoes, this`sent
      ensures estEchoes == old(estEchoes) + {Slot(r, v)}
      ensures sent == if Slot(r, v) in old(estEchoes) then old(sent) else old(sent) + [Msg(nodeId, EST, r, v)]
    {
      if Slot(r, v) !in estEchoes {
        estEchoes := estEchoes + {Slot(r, v)};
        sent := sent + [Msg(nodeId, EST, r, v)];
      }
    }

    method HandleEst(m: Msg)
      requires m.status == EST
      modifies this
      ensures var o := OnEst(t, nodeId, old(View()), m); View() == o.node && sent == old(sent) + o.sent
    {
      estValues := estValues + {m};
      var count := |Senders(estValues, m.round, m.value)|;
      if count >= t + 1 {
        EchoEst(m.round, m.value);
        assert Slot(m.round, m.value) in old(estEchoes) ==> estEchoes == old(estEchoes);
      }
      if count >= 2 * t + 1 {
        binValues := binValues + {Slot(m.round, m.value)};
        notifyEst := Push(notifyEst, m.round, [m.value]);
      }
    }

    method HandleAux(m: Msg)
      requires m.status == AUX
      modifies this
      ensures View() == OnAux(n, t, old(View()), m) && sent == old(sent)
    {
      auxValues := auxValues + {m};
      var zeros, ones := |Senders(auxValues, m.round, 0)|, |Senders(auxValues, m.round, 1)|;
      var notices: seq<seq<int>> := [];
      if Slot(m.round, 0) in binValues && zeros >= n - t {
        notices := notices + [[0]];
      }
      if Slot(m.round, 1) in binValues && ones >= n - t {
        notices := notices + [[1]];
      }
      if |Values(binValues, m.round)| == 2 && zeros + ones >= n - t {
        notices := notices + [[0, 1]];
      }
      assert notices == AuxNotices(n, t, binValues, auxValues, m.round);
      notifyAux := Push(notifyAux, m.round, notices);
    }

    /** One turn of the message handler. */
    method HandleMessage(m: Msg)
      modifies this
      ensures var o := OnMessage(n, t, nodeId, old(View()), m); View() == o.node && sent == old(sent) + o.sent
    {
      match m.status
      case EST => HandleEst(m);
      case AUX => HandleAux(m);
    }

    method SendEst()
      requires phase == Start
      modifies this
      ensures var o := Advance(nodeId, old(View()), 0); View() == o.node && sent == old(sent) + o.sent
    {
      if Slot(round, est) !in estSent {
        estSent := estSent + {Slot(round, est)};
        sent := sent + [Msg(nodeId, EST, round, est)];
      }
      phase := AwaitEst;
    }

    method SendAux()
      requires phase == AwaitEst && CanAdvance(View())
      modifies this
      ensures var o := Advance(nodeId, old(View()), 0); View() == o.node && sent == old(sent) + o.sent
    {
      var w := Queue(notifyEst, round);
      notifyEst := notifyEst[round := w[1..]];
      sent := sent + [Msg(nodeId, AUX, round, w[0])];
      phase := AwaitAux;
    }

    method TakeValues()
      requires phase == AwaitAux && CanAdvance(View())
      modifies this
      ensures var o := Advance(nodeId, old(View()), 0); View() == o.node && sent == old(sent) + o.sent
    {
      var q := Queue(notifyAux, round);
      notifyAux := notifyAux[round := q[1..]];
      phase := AwaitCoin(q[0]);
    }

    /** The coin has answered: decide, or carry an est into the next round. */
    method Decide(coin: Bit)
      requires phase.AwaitCoin?
      modifies this
      ensures var o := Advance(nodeId, old(View()), coin); View() == o.node && sent == old(sent) + o.sent
      ensures old(phase.values) == [coin] ==> phase == Decided(coin) && round == old(round) && est == old(est)
      ensures old(phase.values) != [coin] ==> phase == Start && round == old(round) + 1
      ensures old(phase.values) != [coin] ==> est == if |old(phase.values)| == 1 then old(phase.values)[0] else coin
    {
      var values := phase.values;
      if |values| == 1 {
        if values[0] == coin {
          phase := Decided(coin);
          return;
        } else {
          est := values[0];
        }
      } else {
        est := coin;
      }
      round := round + 1;
      phase := Start;
    }
  }
}
