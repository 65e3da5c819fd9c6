/** The asynchronous common subset: n broadcasts, n binary agreements, three output conditions
    and a committee certificate before a node returns. */
module CommonSubset {
  import opened Quorums
  import opened Blocks
  import opened Certificates
  import opened Tables

  /** certK is the number of shares the committee's threshold scheme needs. */
  datatype Params = Params(n: nat, t: nat, tk: nat, certK: nat, committee: set<int>)

  datatype Msg =
    | CommitMsg(sender: int, values: seq<BlockShare>, hash: Digest, share: SigShare, proof: SigShare)
    | CertMsg(sender: int, hash: Digest, sig: Signature)

  datatype Rule = C1 | C2 | C3

  /** The list a node put on acsOut and the condition that made it; the program keeps a flag. */
  datatype Commitment = Commitment(rule: Rule, values: seq<BlockShare>)

  datatype Node = Node(
    committed: Option<Commitment>,
    acsOut: seq<seq<BlockShare>>,
    acsFinished: Option<seq<BlockShare>>,
    signature: Option<Signature>,
    receivedHash: Option<Digest>,
    rbcVals: map<int, BlockShare>,
    s: set<int>,
    rbcDone: seq<int>,
    startAba: nat,
    abaRunning: map<int, int>,   // instance -> input it was started with
    abaFinished: set<int>,
    sharesReceived: map<ShareKey, SigShare>,
    out: Option<seq<BlockShare>>,
    crashed: bool)               // a nil share was hashed

  datatype Outcome = Outcome(node: Node, sent: seq<Msg>)

  function InitNode(): Node {
    Node(None, [], None, None, None, map[], {}, [], 0, map[], {}, map[], None, false)
  }

  // ---- The output conditions; `order` is the order in which the map rbcVals is ranged over

  /** The broadcasts that output a value with this hash. */
  function Holders(vals: map<int, BlockShare>, hash: Digest): set<int> {
    set k | k in vals && ShareHash(vals[k]) == hash
  }

  predicate COneHolds(p: Params, vals: map<int, BlockShare>, hash: Digest) {
    |Holders(vals, hash)| >= p.n - p.t
  }

  predicate CTwoHolds(p: Params, vals: map<int, BlockShare>, s: set<int>, finished: set<int>, hash: Digest) {
    |s| >= p.n - p.t && |finished| >= p.n && |Holders(vals, hash)| > |vals| / 2
  }

  predicate CThreeHolds(p: Params, vals: map<int, BlockShare>, s: set<int>, finished: set<int>) {
    |s| >= p.n - p.t && |finished| == p.n - p.t && |vals| == p.n - p.t
  }

  /** The first value, in the given order, for which C1 holds. */
  function FirstCOne(p: Params, vals: map<int, BlockShare>, order: seq<int>): Option<BlockShare> {
    if order == [] then None
    else if order[0] in vals && COneHolds(p, vals, ShareHash(vals[order[0]])) then Some(vals[order[0]])
    else FirstCOne(p, vals, order[1..])
  }

  function FirstCTwo(p: Params, vals: map<int, BlockShare>, s: set<int>, finished: set<int>,
                     order: seq<int>): Option<BlockShare> {
    if order == [] then None
    else if order[0] in vals && CTwoHolds(p, vals, s, finished, ShareHash(vals[order[0]])) then Some(vals[order[0]])
    else FirstCTwo(p, vals, s, finished, order[1..])
  }

  function COne(p: Params, vals: map<int, BlockShare>, order: seq<int>): Option<BlockShare> {
    if |vals| < p.n - p.t then None else FirstCOne(p, vals, order)
  }

  function CTwo(p: Params, vals: map<int, BlockShare>, s: set<int>, finished: set<int>,
                order: seq<int>): Option<BlockShare> {
    if |s| < p.n - p.t then None else FirstCTwo(p, vals, s, finished, order)
  }

  /** The values of the instances in s below i, in index order. */
  function Collect(vals: map<int, BlockShare>, s: set<int>, i: nat): seq<BlockShare>
    requires s <= vals.Keys
  {
    if i == 0 then []
    else Collect(vals, s, i - 1) + if i - 1 in s then [vals[i - 1]] else []
  }

  function Commit(p: Params, id: int, nd: Node, rule: Rule, values: seq<BlockShare>): Outcome {
    var hash := ListHash(values);
    Outcome(nd.(committed := Some(Commitment(rule, values)), acsOut := nd.acsOut + [values]),
            if id in p.committee then [CommitMsg(id, values, hash, OwnShare(id, hash), OwnProof(id))] else [])
  }

  /** Commits to the first condition that holds, once. */
  function EventHandler(p: Params, id: int, nd: Node, order: seq<int>): Outcome {
    if nd.committed.Some? then Outcome(nd, [])
    else
      var one := COne(p, nd.rbcVals, order);
      if one.Some? then Commit(p, id, nd, C1, [one.value])
      else
        var two := CTwo(p, nd.rbcVals, nd.s, nd.abaFinished, order);
        if two.Some? then Commit(p, id, nd, C2, [two.value])
        else if !CThreeHolds(p, nd.rbcVals, nd.s, nd.abaFinished) then Outcome(nd, [])
        else if nd.s <= nd.rbcVals.Keys then Commit(p, id, nd, C3, Collect(nd.rbcVals, nd.s, p.n))
        else Outcome(nd.(crashed := true), [])
  }

  // ---- The goroutines of the broadcasts and agreements

  function OnRbcOutput(p: Params, id: int, nd: Node, k: int, v: BlockShare, order: seq<int>): Outcome {
    EventHandler(p, id, nd.(rbcVals := nd.rbcVals[k := v], rbcDone := nd.rbcDone + [k]), order)
  }

  function AfterAba(p: Params, nd: Node, k: int, one: bool): Node {
    var s := if one then nd.s + {k} else nd.s;
    nd.(abaFinished := nd.abaFinished + {k},
        s := s,
        startAba := if one && |s| >= p.n - p.t then nd.startAba + 1 else nd.startAba)
  }

  function OnAbaOutput(p: Params, id: int, nd: Node, k: int, one: bool, order: seq<int>): Outcome {
    EventHandler(p, id, AfterAba(p, nd, k, one), order)
  }

  // ---- The main loop

  /** An agreement is started once: checking and starting it is one atomic step. */
  function StartMissing(running: map<int, int>, instances: set<int>, input: int): map<int, int> {
    running + map k | k in instances && k !in running :: input
  }

  function OnRbcDone(nd: Node): Node
    requires nd.rbcDone != []
  {
    nd.(rbcDone := nd.rbcDone[1..], abaRunning := StartMissing(nd.abaRunning, {nd.rbcDone[0]}, 1))
  }

  function OnStartAba(nd: Node, instances: set<int>): Node
    requires nd.startAba > 0
  {
    nd.(startAba := nd.startAba - 1, abaRunning := StartMissing(nd.abaRunning, instances, 0))
  }

  function OnAcsOut(nd: Node): Node
    requires nd.acsOut != []
  {
    nd.(acsOut := nd.acsOut[1..], acsFinished := Some(nd.acsOut[0]))
  }

  predicate ValidCommit(p: Params, m: Msg)
    requires m.CommitMsg?
  {
    && m.sender in p.committee
    && ListHash(m.values) == m.hash && m.share.Verify(m.hash) && m.proof.Verify(OfNumber(m.sender))
  }

  function Filed(nd: Node, m: Msg): map<ShareKey, SigShare>
    requires m.CommitMsg?
  {
    nd.sharesReceived[ShareKey(m.hash, m.sender) := m.share]
  }

  /** picked says whose shares the join uses. */
  function OnCommit(p: Params, id: int, nd: Node, m: Msg, picked: set<int>): Outcome
    requires m.CommitMsg?
  {
    if !ValidCommit(p, m) then Outcome(nd, [])
    else
      var shares := Filed(nd, m);
      var nd1 := nd.(sharesReceived := shares);
      var sig := Join(p.certK, shares, m.hash, picked);
      if |ShareSenders(shares, m.hash)| >= p.tk + 1 && sig.Some?
      then Outcome(nd1.(receivedHash := Some(m.hash), signature := sig), [CertMsg(id, m.hash, sig.value)])
      else Outcome(nd1, [])
  }

  function OnCert(id: int, nd: Node, m: Msg): Outcome
    requires m.CertMsg?
  {
    if nd.receivedHash.Some? && nd.signature.Some? then Outcome(nd, [])
    else if !m.sig.Verify(m.hash) then Outcome(nd, [])
    else Outcome(nd.(receivedHash := Some(m.hash), signature := Some(m.sig)), [CertMsg(id, m.hash, m.sig)])
  }

  function OnMessage(p: Params, id: int, nd: Node, m: Msg, picked: set<int>): Outcome {
    match m
    case CommitMsg(_, _, _, _, _) => OnCommit(p, id, nd, m, picked)
    case CertMsg(_, _, _) => OnCert(id, nd, m)
  }

  /** Whose shares a join may use when the node handles this message. */
  predicate MayPick(p: Params, nd: Node, m: Msg, picked: set<int>) {
    m.CommitMsg? ==> Picks(p.certK, Filed(nd, m), m.hash, picked)
  }

  predicate CanTerminate(nd: Node) {
    && nd.acsFinished.Some? && nd.signature.Some? && nd.receivedHash.Some?
    && ListHash(nd.acsFinished.value) == nd.receivedHash.value
  }

  /** The end of every turn of the main loop. */
  function Finish(nd: Node): Node {
    if CanTerminate(nd) then nd.(out := nd.acsFinished) else nd
  }

  lemma StartOneMore(running: map<int, int>, ids: set<int>, i: int)
    ensures var m := StartMissing(running, ids, 0);
      StartMissing(running, ids + {i}, 0) == if i in m then m else m[i := 0]
  {
  }

  // ---- The program's loops

  /** Counts the broadcasts whose value has this hash, ranging over the map in the given order. */
  method CountHolders(vals: map<int, BlockShare>, hash: Digest, order: seq<int>) returns (count: nat)
    requires IsOrder(order, vals)
    ensures count == |Holders(vals, hash)|
  {
    count := 0;
    ghost var seen: set<int> := {};
    for a := 0 to |order|
      invariant forall k :: k in seen <==> k in vals && ShareHash(vals[k]) == hash && k in order[..a]
      invariant count == |seen|
    {
      var k := order[a];
      assert order[..a + 1] == order[..a] + [k];
      if ShareHash(vals[k]) == hash {
        count := count + 1;
        seen := seen + {k};
      }
    }
    assert order[..|order|] == order;
    forall k ensures k in seen <==> k in Holders(vals, hash) {
      assert k in vals ==> k in order;
    }
    assert seen == Holders(vals, hash);
  }

  method FindCOne(p: Params, vals: map<int, BlockShare>, order: seq<int>) returns (v: Option<BlockShare>)
    requires IsOrder(order, vals)
    ensures v == COne(p, vals, order)
  {
    if |vals| < p.n - p.t {
      return None;
    }
    for a := 0 to |order|
      invariant FirstCOne(p, vals, order) == FirstCOne(p, vals, order[a..])
    {
      var count := CountHolders(vals, ShareHash(vals[order[a]]), order);
      if count >= p.n - p.t {
        return Some(vals[order[a]]);
      }
    }
    return None;
  }

  method FindCTwo(p: Params, vals: map<int, BlockShare>, s: set<int>, finished: set<int>, order: seq<int>)
    returns (v: Option<BlockShare>)
    requires IsOrder(order, vals)
    ensures v == CTwo(p, vals, s, finished, order)
  {
    if |s| < p.n - p.t {
      return None;
    }
    for a := 0 to |order|
      invariant FirstCTwo(p, vals, s, finished, order) == FirstCTwo(p, vals, s, finished, order[a..])
    {
      var count := CountHolders(vals, ShareHash(vals[order[a]]), order);
      if |finished| >= p.n && count > |vals| / 2 {
        return Some(vals[order[a]]);
      }
    }
    return None;
  }

  /** A node of the protocol as the program keeps it; `sent` collects what is multicast. */
  class Subset {
    const p: Params
    const nodeId: int
    var committed: Option<Commitment>
    var acsOut: seq<seq<BlockShare>>
    var acsFinished: Option<seq<BlockShare>>
    var signature: Option<Signature>
    var receivedHash: Option<Digest>
    var rbcVals: map<int, BlockShare>
    var s: set<int>
    var rbcDone: seq<int>
    var startAba: nat
    var abaRunning: map<int, int>
    var abaFinished: set<int>
    var sharesReceived: map<ShareKey, SigShare>
    var out: Option<seq<BlockShare>>
    var crashed: bool
    var sent: seq<Msg>

    ghost function View(): Node
      reads this
    {
      Node(committed, acsOut, acsFinished, signature, receivedHash, rbcVals, s, rbcDone, startAba,
           abaRunning, abaFinished, sharesReceived, out, crashed)
    }

    constructor (p: Params, nodeId: int)
      ensures this.p == p && this.nodeId == nodeId && View() == InitNode() && sent == []
    {
      this.p, this.nodeId := p, nodeId;
      committed, acsOut, acsFinished, signature, receivedHash := None, [], None, None, None;
      rbcVals, s, rbcDone, startAba, abaRunning, abaFinished := map[], {}, [], 0, map[], {};
      sharesReceived, out, crashed, sent := map[], None, false, [];
    }

    method CommitTo(rule: Rule, values: seq<BlockShare>)
      modifies this`committed, this`acsOut, this`sent
      ensures var o := Commit(p, nodeId, old(View()), rule, values); View() == o.node && sent == old(sent) + o.sent
    {
      committed := Some(Commitment(rule, values));
      acsOut := acsOut + [values];
      if nodeId in p.committee {
        var hash := ListHash(values);
        sent := sent + [CommitMsg(nodeId, values, hash, OwnShare(nodeId, hash), OwnProof(nodeId))];
      }
    }

    method HandleEvent(order: seq<int>)
      requires IsOrder(order, rbcVals)
      modifies this
      ensures var o := EventHandler(p, nodeId, old(View()), order); View() == o.node && sent == old(sent) + o.sent
    {
      if committed.Some? {
        return;
      }
      var one := FindCOne(p, rbcVals, order);
      if one.Some? {
        CommitTo(C1, [one.value]);
        return;
      }
      var two := FindCTwo(p, rbcVals, s, abaFinished, order);
      if two.Some? {
        CommitTo(C2, [two.value]);
        return;
      }
      if CThreeHolds(p, rbcVals, s, abaFinished) {
        if !(s <= rbcVals.Keys) {
          crashed := true;
          return;
        }
        var outputs: seq<BlockShare> := [];
        for i := 0 to p.n
          invariant outputs == Collect(rbcVals, s, i)
        {
          if i in s {
            outputs := outputs + [rbcVals[i]];
          }
        }
        CommitTo(C3, outputs);
      }
    }

    method HandleRbcOutput(k: int, v: BlockShare, order: seq<int>)
      requires IsOrder(order, rbcVals[k := v])
      modifies this
      ensures var o := OnRbcOutput(p, nodeId, old(View()), k, v, order);
        View() == o.node && sent == old(sent) + o.sent
    {
      rbcVals := rbcVals[k := v];
      rbcDone := rbcDone + [k];
      HandleEvent(order);
    }

    method RecordAba(k: int, one: bool)
      modifies this`abaFinished, this`s, this`startAba
      ensures View() == AfterAba(p, old(View()), k, one)
    {
      abaFinished := abaFinished + {k};
      if one {
        s := s + {k};
        if |s| >= p.n - p.t {
          startAba := startAba + 1;
        }
      }
    }

    method HandleAbaOutput(k: int, one: bool, order: seq<int>)
      requires IsOrder(order, rbcVals)
      modifies this
      ensures var o := OnAbaOutput(p, nodeId, old(View()), k, one, order);
        View() == o.node && sent == old(sent) + o.sent
    {
      RecordAba(k, one);
      HandleEvent(order);
    }

    /** The check at the end of every turn of the main loop. */
    method TryTerminate()
      modifies this`out
      ensures View() == Finish(old(View()))
      ensures acsFinished.Some? && signature.Some? && receivedHash == Some(ListHash(acsFinished.value)) ==>
                out == acsFinished
    {
      if acsFinished.Some? && signature.Some? && receivedHash.Some?
         && ListHash(acsFinished.value) == receivedHash.value {
        out := acsFinished;
      }
    }

    method TakeRbcDone()
      requires rbcDone != []
      modifies this
      ensures View() == Finish(OnRbcDone(old(View()))) && sent == old(sent)
      ensures old(rbcDone[0]) !in old(abaRunning) ==> abaRunning == old(abaRunning)[old(rbcDone[0]) := 1]
    {
      var k := rbcDone[0];
      rbcDone := rbcDone[1..];
      if k !in abaRunning {
        abaRunning := abaRunning[k := 1];
      }
      assert abaRunning == StartMissing(old(abaRunning), {k}, 1);
      TryTerminate();
    }

    /** Starts every agreement that does not run yet with input 0. */
    method StartRemaining()
      modifies this`abaRunning
      ensures abaRunning == StartMissing(old(abaRunning), Ids(p.n), 0)
    {
      assert StartMissing(abaRunning, Ids(0), 0) == abaRunning;
      for i := 0 to p.n
        invariant abaRunning == StartMissing(old(abaRunning), Ids(i), 0)
      {
        StartOneMore(old(abaRunning), Ids(i), i);
        if i !in abaRunning {
          abaRunning := abaRunning[i := 0];
        }
      }
    }

    method TakeStartAba()
      requires startAba > 0
      modifies this
      ensures View() == Finish(OnStartAba(old(View()), Ids(p.n))) && sent == old(sent)
    {
      startAba := startAba - 1;
      StartRemaining();
      TryTerminate();
    }

    method TakeAcsOut()
      requires acsOut != []
      modifies this
      ensures View() == Finish(OnAcsOut(old(View()))) && sent == old(sent)
    {
      acsFinished := Some(acsOut[0]);
      acsOut := acsOut[1..];
      TryTerminate();
    }

    method HandleCommit(m: Msg, picked: set<int>)
      requires m.CommitMsg? && MayPick(p, View(), m, picked)
      modifies this
      ensures var o := OnCommit(p, nodeId, old(View()), m, picked); View() == o.node && sent == old(sent) + o.sent
    {
      if !ValidCommit(p, m) {
        return;
      }
      sharesReceived := sharesReceived[ShareKey(m.hash, m.sender) := m.share];
      if |ShareSenders(sharesReceived, m.hash)| >= p.tk + 1 {
        var sig := Join(p.certK, sharesReceived, m.hash, picked);
        if sig.Some? {
          Certify(m.hash, sig.value);
        }
      }
    }

    method Certify(hash: Digest, sig: Signature)
      modifies this`sent, this`receivedHash, this`signature
      ensures receivedHash == Some(hash) && signature == Some(sig)
      ensures sent == old(sent) + [CertMsg(nodeId, hash, sig)]
    {
      sent := sent + [CertMsg(nodeId, hash, sig)];
      receivedHash, signature := Some(hash), Some(sig);
    }

    method HandleSignatureMessage(m: Msg)
      requires m.CertMsg?
      modifies this
      ensures var o := OnCert(nodeId, old(View()), m); View() == o.node && sent == old(sent) + o.sent
    {
      if receivedHash.Some? && signature.Some? {
        return;
      }
      if m.sig.Verify(m.hash) {
        Certify(m.hash, m.sig);
      }
    }

    method Receive(m: Msg, picked: set<int>)
      requires MayPick(p, View(), m, picked)
      modifies this
      ensures var o := OnMessage(p, nodeId, old(View()), m, picked);
        View() == Finish(o.node) && sent == old(sent) + o.sent
    {
      match m {
        case CommitMsg(_, _, _, _, _) => HandleCommit(m, picked);
        case CertMsg(_, _, _) => HandleSignatureMessage(m);
      }
      TryTerminate();
    }
  }
}
