/** The opening phase of a protocol round: nodes collect small pre-blocks, the committee collects
    large ones, signs a hash and forms block pointers. */
module BlockPointers {
  import opened Blocks
  import opened Certificates

  /** ta is the number of faults of the asynchronous phase. */
  datatype Params = Params(n: nat, ta: nat, committee: set<int>)

  /** A strict majority of the committee; joining a signature takes as many shares. */
  function Majority(p: Params): nat {
    |p.committee| / 2 + 1
  }

  datatype Msg =
    | BlockMsg(sender: int, large: bool, payload: Bytes, sig: SigShare)
    | CommitteeMsg(sender: int, preBlock: PreBlock, hash: Digest, hashSig: SigShare, proof: SigShare)
    | PointerMsg(sender: int, pointer: BlockPointer)

  datatype Node = Node(
    largePb: seq<Option<PreBlockMessage>>,
    readyLarge: bool,
    smallPb: seq<Option<PreBlockMessage>>,
    readySmall: bool,
    ptr: Option<BlockPointer>,
    blocksReceived: map<ShareKey, SigShare>,
    readyNotices: nat,   // length of readyChan
    ptrNotices: nat,     // length of ptrChan
    crashed: bool)

  datatype Outcome = Outcome(node: Node, sent: seq<Msg>)

  function EmptyVec(p: Params): seq<Option<PreBlockMessage>> {
    seq(if p.ta <= p.n then p.n - p.ta else 0, _ => None)
  }

  function InitNode(p: Params): Node {
    Node(EmptyVec(p), false, EmptyVec(p), false, None, map[], 0, 0, false)
  }

  /** The pre-blocks have n - ta slots; a message of a later node is out of range. */
  function OnSmall(p: Params, nd: Node, m: Msg): Node
    requires m.BlockMsg?
  {
    if !(0 <= m.sender < |nd.smallPb|) then nd.(crashed := true)
    else if nd.smallPb[m.sender].Some? then nd
    else
      var vec := nd.smallPb[m.sender := Some(PreBlockMessage(m.payload, m.sig))];
      if Quality(vec) >= p.n - p.ta && !nd.readySmall
      then nd.(smallPb := vec, readySmall := true, readyNotices := nd.readyNotices + 1)
      else nd.(smallPb := vec)
  }

  /** A member that has enough large messages signs the hash of its pre-block, once. */
  function OnLarge(p: Params, id: int, nd: Node, m: Msg): Outcome
    requires m.BlockMsg?
  {
    if !(0 <= m.sender < |nd.largePb|) then Outcome(nd.(crashed := true), [])
    else if nd.largePb[m.sender].Some? then Outcome(nd, [])
    else
      var vec := nd.largePb[m.sender := Some(PreBlockMessage(m.payload, m.sig))];
      if Quality(vec) >= p.n - p.ta && !nd.readyLarge
      then Outcome(nd.(largePb := vec, readyLarge := true), [Signed(id, PreBlock(vec, "large"))])
      else Outcome(nd.(largePb := vec), [])
  }

  function Signed(id: int, pb: PreBlock): Msg {
    var hash := PreBlockHash(pb);
    CommitteeMsg(id, pb, hash, OwnShare(id, hash), OwnProof(id))
  }

  function OnPointer(p: Params, id: int, nd: Node, m: Msg): Outcome
    requires m.PointerMsg?
  {
    if nd.ptr.Some? then Outcome(nd, [])
    else if id in p.committee then
      if !m.pointer.sig.Verify(m.pointer.blockHash) then Outcome(nd, [])
      else Outcome(nd.(ptr := Some(m.pointer), ptrNotices := nd.ptrNotices + 1), [PointerMsg(id, m.pointer)])
    else if m.sender in p.committee
    then Outcome(nd.(ptr := Some(m.pointer), ptrNotices := nd.ptrNotices + 1), [])
    else Outcome(nd, [])
  }

  predicate ValidCommittee(m: Msg)
    requires m.CommitteeMsg?
  {
    m.proof.Verify(OfNumber(m.sender)) && m.hashSig.Verify(m.hash) && PreBlockHash(m.preBlock) == m.hash
  }

  function Filed(nd: Node, m: Msg): map<ShareKey, SigShare>
    requires m.CommitteeMsg?
  {
    nd.blocksReceived[ShareKey(m.hash, m.sender) := m.hashSig]
  }

  /** The program's echo branch tests an address that is never nil, so no message is echoed; a
      pointer is formed again with every further message. picked says whose shares the join uses. */
  function OnCommittee(p: Params, id: int, nd: Node, m: Msg, picked: set<int>): Outcome
    requires m.CommitteeMsg?
  {
    if id !in p.committee || !ValidCommittee(m) then Outcome(nd, [])
    else
      var blocks := Filed(nd, m);
      var nd1 := nd.(blocksReceived := blocks);
      var sig := Join(Majority(p), blocks, m.hash, picked);
      if |ShareSenders(blocks, m.hash)| >= Majority(p) && sig.Some?
      then
        var pointer := BlockPointer(m.hash, sig.value);
        Outcome(nd1.(ptr := Some(pointer), ptrNotices := nd1.ptrNotices + 1), [PointerMsg(id, pointer)])
      else Outcome(nd1, [])
  }

  function OnBlock(p: Params, id: int, nd: Node, m: Msg): Outcome
    requires m.BlockMsg?
  {
    if m.large && id in p.committee then OnLarge(p, id, nd, m) else Outcome(OnSmall(p, nd, m), [])
  }

  function OnMessage(p: Params, id: int, nd: Node, m: Msg, picked: set<int>): Outcome {
    match m
    case BlockMsg(_, _, _, _) => OnBlock(p, id, nd, m)
    case PointerMsg(_, _) => OnPointer(p, id, nd, m)
    case CommitteeMsg(_, _, _, _, _) => OnCommittee(p, id, nd, m, picked)
  }

  /** Whose shares a join may use when the node handles this message. */
  predicate MayPick(p: Params, nd: Node, m: Msg, picked: set<int>) {
    m.CommitteeMsg? ==> Picks(Majority(p), Filed(nd, m), m.hash, picked)
  }

  // ---- A node as the program keeps it

  class Round {
    const p: Params
    const nodeId: int
    var largePb: array<Option<PreBlockMessage>>
    var readyLarge: bool
    var smallPb: array<Option<PreBlockMessage>>
    var readySmall: bool
    var ptr: Option<BlockPointer>
    var blocksReceived: map<ShareKey, SigShare>
    var readyNotices: nat
    var ptrNotices: nat
    var crashed: bool
    var sent: seq<Msg>

    ghost predicate Valid()
      reads this
    {
      largePb != smallPb
    }

    ghost function View(): Node
      reads this, largePb, smallPb
    {
      Node(largePb[..], readyLarge, smallPb[..], readySmall, ptr, blocksReceived, readyNotices, ptrNotices, crashed)
    }

    constructor (p: Params, nodeId: int)
      ensures this.p == p && this.nodeId == nodeId
      ensures Valid() && fresh(largePb) && fresh(smallPb) && View() == InitNode(p) && sent == []
    {
      this.p, this.nodeId := p, nodeId;
      var size := if p.ta <= p.n then p.n - p.ta else 0;
      largePb := new Option<PreBlockMessage>[size](_ => None);
      smallPb := new Option<PreBlockMessage>[size](_ => None);
      readyLarge, readySmall, ptr, blocksReceived := false, false, None, map[];
      readyNotices, ptrNotices, crashed, sent := 0, 0, false, [];
      new;
      assert largePb[..] == EmptyVec(p) && smallPb[..] == EmptyVec(p);
    }

    method HandleSmallBlockMessage(m: Msg)
      requires m.BlockMsg? && Valid()
      modifies this, smallPb
      ensures Valid() && smallPb == old(smallPb) && largePb == old(largePb)
      ensures View() == OnSmall(p, old(View()), m) && sent == old(sent)
    {
      if !(0 <= m.sender < smallPb.Length) {
        crashed := true;
        return;
      }
      if smallPb[m.sender].None? {
        smallPb[m.sender] := Some(PreBlockMessage(m.payload, m.sig));
        if Quality(smallPb[..]) >= p.n - p.ta && !readySmall {
          readySmall := true;
          readyNotices := readyNotices + 1;
        }
        assert smallPb[..] == old(smallPb[..])[m.sender := Some(PreBlockMessage(m.payload, m.sig))];
      }
    }

    method HandleLargeBlockMessage(m: Msg)
      requires m.BlockMsg? && Valid()
      modifies this, largePb
      ensures Valid() && smallPb == old(smallPb) && largePb == old(largePb)
      ensures var o := OnLarge(p, nodeId, old(View()), m); View() == o.node && sent == old(sent) + o.sent
    {
      if !(0 <= m.sender < largePb.Length) {
        crashed := true;
        return;
      }
      if largePb[m.sender].None? {
        largePb[m.sender] := Some(PreBlockMessage(m.payload, m.sig));
        assert largePb[..] == old(largePb[..])[m.sender := Some(PreBlockMessage(m.payload, m.sig))];
        if Quality(largePb[..]) >= p.n - p.ta && !readyLarge {
          readyLarge := true;
          sent := sent + [Signed(nodeId, PreBlock(largePb[..], "large"))];
        }
      }
    }

    method HandlePointerMessage(m: Msg)
      requires m.PointerMsg? && Valid()
      modifies this`ptr, this`ptrNotices, this`sent
      ensures var o := OnPointer(p, nodeId, old(View()), m); View() == o.node && sent == old(sent) + o.sent
      ensures old(ptr).None? && nodeId !in p.committee && m.sender in p.committee ==> ptr == Some(m.pointer)
      ensures old(ptr).None? && nodeId in p.committee && m.pointer.sig.Verify(m.pointer.blockHash) ==>
                ptr == Some(m.pointer) && sent == old(sent) + [PointerMsg(nodeId, m.pointer)]
    {
      if ptr.Some? {
        return;
      }
      if nodeId in p.committee {
        if !m.pointer.sig.Verify(m.pointer.blockHash) {
          return;
        }
        ptr, ptrNotices := Some(m.pointer), ptrNotices + 1;
        sent := sent + [PointerMsg(nodeId, m.pointer)];
        return;
      }
      if m.sender in p.committee {
        ptr, ptrNotices := Some(m.pointer), ptrNotices + 1;
      }
    }

    method HandleCommitteeMessage(m: Msg, picked: set<int>)
      requires m.CommitteeMsg? && Valid() && MayPick(p, View(), m, picked)
      modifies this`ptr, this`ptrNotices, this`blocksReceived, this`sent
      ensures var o := OnCommittee(p, nodeId, old(View()), m, picked); View() == o.node && sent == old(sent) + o.sent
      ensures ptr == old(ptr) || (ptr.Some? && sent == old(sent) + [PointerMsg(nodeId, ptr.value)])
    {
      if nodeId !in p.committee || !ValidCommittee(m) {
        return;
      }
      blocksReceived := blocksReceived[ShareKey(m.hash, m.sender) := m.hashSig];
      if |ShareSenders(blocksReceived, m.hash)| >= Majority(p) {
        var signature := Join(Majority(p), blocksReceived, m.hash, picked);
        if signature.Some? {
          ptr, ptrNotices := Some(BlockPointer(m.hash, signature.value)), ptrNotices + 1;
          sent := sent + [PointerMsg(nodeId, ptr.value)];
        }
      }
    }

    /** The listener hands a message to its handler. */
    method Receive(m: Msg, picked: set<int>)
      requires Valid() && MayPick(p, View(), m, picked)
      modifies this, largePb, smallPb
      ensures Valid() && smallPb == old(smallPb) && largePb == old(largePb)
      ensures var o := OnMessage(p, nodeId, old(View()), m, picked); View() == o.node && sent == old(sent) + o.sent
    {
      match m {
        case BlockMsg(_, large, _, _) =>
          if large && nodeId in p.committee {
            HandleLargeBlockMessage(m);
          } else {
            HandleSmallBlockMessage(m);
          }
        case PointerMsg(_, _) => HandlePointerMessage(m);
        case CommitteeMsg(_, _, _, _, _) => HandleCommitteeMessage(m, picked);
      }
    }
  }
}
