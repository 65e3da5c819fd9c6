/** Committee reliable broadcast: Bracha's protocol agrees on a hash, committee members then
    vouch for a value with that hash. */
module Broadcast {
  import opened Blocks
  import opened Certificates

  /** tk is the number of faulty committee members the exit tolerates. */
  datatype Params = Params(n: nat, t: nat, tk: nat, senderId: int, committee: set<int>)

  datatype Kind = VAL | ECHO | READY

  datatype Msg =
    | BMsg(sender: int, kind: Kind, value: Digest)
    | CMsg(sender: int, share: BlockShare, hash: Digest, proof: SigShare)
    | SMsg(sender: int, share: BlockShare)

  /** One true entry of a map from hash to senders. */
  datatype Receipt = Receipt(hash: Digest, sender: int)

  datatype Node = Node(
    value: Option<BlockShare>,      // input of the sender
    started: bool,
    ready: bool,
    senderSent: bool,
    initialVal: bool,
    broadcastDone: bool,
    echoReceived: set<Receipt>,
    readyReceived: set<Receipt>,
    committeeReceived: set<Receipt>,
    broadcastValue: Digest,
    senderValue: Option<BlockShare>,
    output: Option<BlockShare>)

  datatype Outcome = Outcome(node: Node, sent: seq<Msg>)

  const ZERO_HASH := Raw(0)

  function InitNode(value: Option<BlockShare>): Node {
    Node(value, false, false, false, false, false, {}, {}, {}, ZERO_HASH, None, None)
  }

  function Senders(receipts: set<Receipt>, hash: Digest): set<int> {
    set x | x in receipts && x.hash == hash :: x.sender
  }

  function Begin(p: Params, id: int, nd: Node): Outcome {
    Outcome(nd.(started := true),
            if id == p.senderId && nd.value.Some?
            then [SMsg(id, nd.value.value), BMsg(id, VAL, ShareHash(nd.value.value))]
            else [])
  }

  /** What multicastCommitteeMessage sends. */
  function Vouch(id: int, share: BlockShare, hash: Digest): seq<Msg> {
    if ShareHash(share) == hash then [CMsg(id, share, hash, OwnProof(id))] else []
  }

  predicate ValidCommitteeMsg(p: Params, m: Msg)
    requires m.CMsg?
  {
    m.sender in p.committee && ShareHash(m.share) == m.hash && m.proof.Verify(OfNumber(m.sender))
  }

  function OnVal(id: int, nd: Node, m: Msg): Outcome
    requires m.BMsg?
  {
    if nd.initialVal then Outcome(nd, [])
    else Outcome(nd.(initialVal := true), [BMsg(id, ECHO, m.value)])
  }

  function OnEcho(p: Params, id: int, nd: Node, m: Msg): Outcome
    requires m.BMsg?
  {
    var hash := OfDigest(m.value);
    var nd1 := nd.(echoReceived := nd.echoReceived + {Receipt(hash, m.sender)});
    if |Senders(nd1.echoReceived, hash)| >= p.n - p.t && !nd.ready
    then Outcome(nd1.(ready := true), [BMsg(id, READY, m.value)])
    else Outcome(nd1, [])
  }

  function OnReady(p: Params, id: int, nd: Node, m: Msg): Outcome
    requires m.BMsg?
  {
    var hash := OfDigest(m.value);
    var nd1 := nd.(readyReceived := nd.readyReceived + {Receipt(hash, m.sender)});
    var count := |Senders(nd1.readyReceived, hash)|;
    var amplify := count >= p.t + 1 && !nd.ready;
    var nd2 := if amplify then nd1.(ready := true) else nd1;
    Outcome(
      if count >= p.n - p.t then nd2.(broadcastDone := true, broadcastValue := m.value) else nd2,
      if amplify then [BMsg(id, READY, m.value)] else [])
  }

  /** A valid committee message: a member that is done vouches for the value too. */
  function OnCommittee(p: Params, id: int, nd: Node, m: Msg): Outcome
    requires m.CMsg?
  {
    var received := nd.committeeReceived + {Receipt(m.hash, m.sender)};
    Outcome(
      nd.(committeeReceived := received,
          output := if |Senders(received, m.hash)| >= p.tk + 1 then Some(m.share) else None),
      if nd.broadcastDone && id in p.committee then Vouch(id, m.share, nd.broadcastValue) else [])
  }

  /** Bracha's messages count until the broadcast is done. */
  function OnBracha(p: Params, id: int, nd: Node, m: Msg): Outcome
    requires m.BMsg?
  {
    if nd.broadcastDone then Outcome(nd, [])
    else
      match m.kind
      case VAL => OnVal(id, nd, m)
      case ECHO => OnEcho(p, id, nd, m)
      case READY => OnReady(p, id, nd, m)
  }

  function Handle(p: Params, id: int, nd: Node, m: Msg): Outcome {
    match m
    case BMsg(_, _, _) => OnBracha(p, id, nd, m)
    case CMsg(_, _, _, _) =>
      if ValidCommitteeMsg(p, m) then OnCommittee(p, id, nd, m) else Outcome(nd, [])
    case SMsg(_, share) => Outcome(nd.(senderSent := true, senderValue := Some(share)), [])
  }

  /** What a member sends at the top of the loop. */
  function LoopTop(p: Params, id: int, nd: Node): seq<Msg> {
    if nd.output.None? && nd.senderSent && nd.senderValue.Some? && nd.broadcastDone && id in p.committee
    then Vouch(id, nd.senderValue.value, nd.broadcastValue) else []
  }

  /** One turn of the receive loop, up to the next receive. */
  function OnMessage(p: Params, id: int, nd: Node, m: Msg): Outcome {
    var o := Handle(p, id, nd, m);
    Outcome(o.node, o.sent + LoopTop(p, id, o.node))
  }

  /** A node of the protocol as the program keeps it; `sent` collects what is multicast. */
  class ReliableBroadcast {
    const p: Params
    const nodeId: int
    var value: Option<BlockShare>
    var started: bool
    var ready: bool
    var senderSent: bool
    var initialVal: bool
    var broadcastDone: bool
    var echoReceived: set<Receipt>
    var readyReceived: set<Receipt>
    var committeeReceived: set<Receipt>
    var broadcastValue: Digest
    var senderValue: Option<BlockShare>
    var output: Option<BlockShare>
    var sent: seq<Msg>

    ghost function View(): Node
      reads this
    {
      Node(value, started, ready, senderSent, initialVal, broadcastDone, echoReceived, readyReceived,
           committeeReceived, broadcastValue, senderValue, output)
    }

    constructor (p: Params, nodeId: int, value: Option<BlockShare>)
      ensures this.p == p && this.nodeId == nodeId
      ensures View() == InitNode(value) && sent == []
    {
      this.p, this.nodeId, this.value := p, nodeId, value;
      started, ready, senderSent, initialVal, broadcastDone := false, false, false, false, false;
      echoReceived, readyReceived, committeeReceived := {}, {}, {};
      broadcastValue, senderValue, output, sent := ZERO_HASH, None, None, [];
    }

    method Start()
      modifies this
      ensures var o := Begin(p, nodeId, old(View())); View() == o.node && sent == old(sent) + o.sent
    {
      started := true;
      if nodeId == p.senderId && value.Some? {
        sent := sent + [SMsg(nodeId, value.value)] + [BMsg(nodeId, VAL, ShareHash(value.value))];
      }
    }

    method HandleVal(m: Msg)
      requires m.BMsg?
      modifies this
      ensures var o := OnVal(nodeId, old(View()), m); View() == o.node && sent == old(sent) + o.sent
    {
      if !initialVal {
        initialVal := true;
        sent := sent + [BMsg(nodeId, ECHO, m.value)];
      }
    }

    method SendReady(value: Digest)
      modifies this`ready, this`sent
      ensures ready && sent == if old(ready) then old(sent) else old(sent) + [BMsg(nodeId, READY, value)]
    {
      if !ready {
        ready := true;
        sent := sent + [BMsg(nodeId, READY, value)];
      }
    }

    method HandleEcho(m: Msg)
      requires m.BMsg?
      modifies this
      ensures var o := OnEcho(p, nodeId, old(View()), m); View() == o.node && sent == old(sent) + o.sent
    {
      var hash := OfDigest(m.value);
      echoReceived := echoReceived + {Receipt(hash, m.sender)};
      if |Senders(echoReceived, hash)| >= p.n - p.t {
        SendReady(m.value);
      }
    }

    method HandleReady(m: Msg)
      requires m.BMsg?
      modifies this
      ensures var o := OnReady(p, nodeId, old(View()), m); View() == o.node && sent == old(sent) + o.sent
    {
      var hash := OfDigest(m.value);
      readyReceived := readyReceived + {Receipt(hash, m.sender)};
      var count := |Senders(readyReceived, hash)|;
      if count >= p.t + 1 {
        SendReady(m.value);
      }
      if count >= p.n - p.t {
        broadcastDone := true;
        broadcastValue := m.value;
      }
    }

    method HandleBracha(m: Msg)
      requires m.BMsg?
      modifies this
      ensures var o := OnBracha(p, nodeId, old(View()), m); View() == o.node && sent == old(sent) + o.sent
    {
      if !broadcastDone {
        match m.kind {
          case VAL => HandleVal(m);
          case ECHO => HandleEcho(m);
          case READY => HandleReady(m);
        }
      }
    }

    method MulticastCommitteeMessage(share: BlockShare)
      modifies this`sent
      ensures sent == old(sent) + Vouch(nodeId, share, broadcastValue)
    {
      if ShareHash(share) == broadcastValue {
        sent := sent + [CMsg(nodeId, share, broadcastValue, OwnProof(nodeId))];
      }
    }

    /** Returns whether the protocol ends. */
    method HandleCommitteeMessage(m: Msg) returns (done: bool)
      requires m.CMsg?
      requires output == None
      modifies this`committeeReceived, this`output
      ensures committeeReceived == old(committeeReceived) + {Receipt(m.hash, m.sender)}
      ensures done == (|Senders(committeeReceived, m.hash)| >= p.tk + 1)
      ensures output == if done then Some(m.share) else None
    {
      committeeReceived := committeeReceived + {Receipt(m.hash, m.sender)};
      done := |Senders(committeeReceived, m.hash)| >= p.tk + 1;
      if done {
        output := Some(m.share);
      }
    }

    /** A member that is done vouches for the value; then the message is counted. */
    method TakeCommitteeMessage(m: Msg) returns (done: bool)
      requires m.CMsg?
      requires output == None
      modifies this
      ensures var o := OnCommittee(p, nodeId, old(View()), m); View() == o.node && sent == old(sent) + o.sent
      ensures done == output.Some?
      ensures broadcastDone && nodeId in p.committee && ShareHash(m.share) == broadcastValue ==>
                sent == old(sent) + [CMsg(nodeId, m.share, broadcastValue, OwnProof(nodeId))]
    {
      if broadcastDone && nodeId in p.committee {
        MulticastCommitteeMessage(m.share);
      }
      done := HandleCommitteeMessage(m);
    }

    /** Handles one message; returns whether the protocol ends. */
    method Dispatch(m: Msg) returns (done: bool)
      requires output == None
      modifies this
      ensures var o := Handle(p, nodeId, old(View()), m); View() == o.node && sent == old(sent) + o.sent
      ensures done == output.Some?
    {
      done := false;
      match m {
        case BMsg(_, _, _) => HandleBracha(m);
        case CMsg(_, _, _, _) =>
          if ValidCommitteeMsg(p, m) {
            done := TakeCommitteeMessage(m);
          }
        case SMsg(_, share) =>
          senderSent, senderValue := true, Some(share);
      }
    }

    /** One turn of the receive loop; a node that has output has returned. */
    method Receive(m: Msg)
      requires output == None
      modifies this
      ensures var o := OnMessage(p, nodeId, old(View()), m); View() == o.node && sent == old(sent) + o.sent
    {
      var done := Dispatch(m);
      if done {
        return;
      }
      if senderSent && senderValue.Some? && broadcastDone && nodeId in p.committee {
        MulticastCommitteeMessage(senderValue.value);
      }
    }
  }
}
