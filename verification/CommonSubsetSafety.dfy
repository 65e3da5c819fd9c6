/** The common subset over all runs, given broadcasts that agree: whatever broadcast k delivers to
    an honest node has hash bc[k]. The outputs of the agreements are arbitrary. */
module CommonSubsetSafety {
  import opened Quorums
  import opened Blocks
  import opened Certificates
  import opened Tables
  import opened CommonSubset

  datatype State = State(nodes: seq<Node>, net: set<Msg>)

  datatype Step =
    | RbcOutput(i: int, k: int, v: BlockShare, order: seq<int>)
    | AbaOutput(i: int, k: int, one: bool, order: seq<int>)
    | TakeRbcDone(i: int)
    | TakeStartAba(i: int)
    | TakeAcsOut(i: int)
    | Receive(i: int, m: Msg, picked: set<int>)  // a join uses these members' shares
    | Forge(m: Msg)  // a faulty node sends anything in its own name

  /** Fewer than 2 certK - kappa members are faulty, kappa being the size of the committee. */
  ghost predicate ValidSetup(c: Config, p: Params, bc: seq<Digest>) {
    && c.faulty <= Ids(c.n) && p.n == c.n && p.t == c.t <= p.n && |bc| == c.n
    && p.committee <= Ids(c.n)
    && |p.committee * c.faulty| + |p.committee| < 2 * p.certK
  }

  function HonestSigners(c: Config, p: Params, net: set<Msg>, hash: Digest): set<int> {
    set m | m in net && m.CommitMsg? && m.hash == hash && m.share.Verify(hash)
            && m.sender in p.committee && m.sender !in c.faulty :: m.sender
  }

  /** Enough members, counting every faulty one, can have signed hash for a certificate. */
  predicate Certifiable(c: Config, p: Params, net: set<Msg>, hash: Digest) {
    |HonestSigners(c, p, net, hash)| + |p.committee * c.faulty| >= p.certK
  }

  /** A member's share that can exist: a faulty member made it, or it has been sent. */
  ghost predicate Possible(c: Config, p: Params, net: set<Msg>, share: SigShare) {
    && share.id - 1 in p.committee
    && (share.id - 1 in c.faulty || exists m :: m in net && m.CommitMsg? && m.share == share)
  }

  function Init(n: nat): State {
    State(seq(n, _ => InitNode()), {})
  }

  predicate Running(c: Config, s: State, i: int) {
    c.Honest(i) && i < |s.nodes| && !s.nodes[i].crashed
  }

  /** A returned node's goroutines go on; its main loop does not. */
  predicate Looping(c: Config, s: State, i: int) {
    Running(c, s, i) && s.nodes[i].out.None?
  }

  /** order is the order in which the event handler ranges over the map it finds. */
  ghost predicate Enabled(c: Config, p: Params, bc: seq<Digest>, s: State, step: Step)
    requires |bc| == c.n
  {
    match step
    case RbcOutput(i, k, v, order) =>
      && Running(c, s, i) && 0 <= k < c.n && k !in s.nodes[i].rbcVals && ShareHash(v) == bc[k]
      && IsOrder(order, s.nodes[i].rbcVals[k := v])
    case AbaOutput(i, k, _, order) =>
      && Running(c, s, i) && k in s.nodes[i].abaRunning && k !in s.nodes[i].abaFinished
      && IsOrder(order, s.nodes[i].rbcVals)
    case TakeRbcDone(i) => Looping(c, s, i) && s.nodes[i].rbcDone != []
    case TakeStartAba(i) => Looping(c, s, i) && s.nodes[i].startAba > 0
    case TakeAcsOut(i) => Looping(c, s, i) && s.nodes[i].acsOut != []
    case Receive(i, m, picked) => Looping(c, s, i) && m in s.net && MayPick(p, s.nodes[i], m, picked)
    case Forge(m) =>
      && m.sender in c.faulty
      && (m.CommitMsg? && m.share.Verify(m.hash) ==> Possible(c, p, s.net, m.share))
      && (m.CertMsg? && m.sig.Joined? ==> Certifiable(c, p, s.net, m.sig.doc))
  }

  function Install(s: State, i: int, o: Outcome): State
    requires 0 <= i < |s.nodes|
  {
    State(s.nodes[i := o.node], s.net + Members(o.sent))
  }

  ghost function Turn(c: Config, p: Params, bc: seq<Digest>, s: State, step: Step): Outcome
    requires |bc| == c.n && Enabled(c, p, bc, s, step) && !step.Forge?
  {
    var nd := s.nodes[step.i];
    match step
    case RbcOutput(i, k, v, order) => OnRbcOutput(p, i, nd, k, v, order)
    case AbaOutput(i, k, one, order) => OnAbaOutput(p, i, nd, k, one, order)
    case TakeRbcDone(i) => Outcome(Finish(OnRbcDone(nd)), [])
    case TakeStartAba(i) => Outcome(Finish(OnStartAba(nd, Ids(c.n))), [])
    case TakeAcsOut(i) => Outcome(Finish(OnAcsOut(nd)), [])
    case Receive(i, m, picked) => var o := OnMessage(p, i, nd, m, picked); Outcome(Finish(o.node), o.sent)
  }

  ghost function Do(c: Config, p: Params, bc: seq<Digest>, s: State, step: Step): State
    requires |bc| == c.n
  {
    if !Enabled(c, p, bc, s, step) then s
    else if step.Forge? then s.(net := s.net + {step.m})
    else Install(s, step.i, Turn(c, p, bc, s, step))
  }

  /** The state after a run; a step that is not enabled changes nothing. */
  ghost function Run(c: Config, p: Params, bc: seq<Digest>, steps: seq<Step>): State
    requires |bc| == c.n
  {
    if steps == [] then Init(c.n)
    else Do(c, p, bc, Run(c, p, bc, steps[..|steps| - 1]), steps[|steps| - 1])
  }

  // ---- The conditions, read on the values the broadcasts deliver

  /** The broadcasts that deliver a value with this hash. */
  function Delivering(bc: seq<Digest>, hash: Digest): set<int> {
    set k | 0 <= k < |bc| && bc[k] == hash
  }

  function InOrder(bc: seq<Digest>, s: set<int>, i: nat): seq<Digest>
    requires i <= |bc|
  {
    if i == 0 then [] else InOrder(bc, s, i - 1) + if i - 1 in s then [bc[i - 1]] else []
  }

  /** w is delivered by a majority of the broadcasts in d. */
  ghost predicate MajorityOf(bc: seq<Digest>, d: set<int>, hash: Digest) {
    |d * Delivering(bc, hash)| > |d| / 2
  }

  /** What a commitment promises about the broadcasts, whenever it was made. */
  ghost predicate Sound(p: Params, bc: seq<Digest>, cm: Commitment)
    requires |bc| == p.n
  {
    match cm.rule
    case C1 => |cm.values| == 1 && |Delivering(bc, ShareHash(cm.values[0]))| >= p.n - p.t
    case C2 =>
      |cm.values| == 1 &&
      exists d :: d <= Ids(p.n) && |d| >= p.n - p.t && MajorityOf(bc, d, ShareHash(cm.values[0]))
    case C3 => exists s :: s <= Ids(p.n) && |s| == p.n - p.t && Hashes(cm.values) == InOrder(bc, s, p.n)
  }

  // ---- What every reachable state keeps

  ghost predicate Delivered(p: Params, bc: seq<Digest>, nd: Node) {
    && (forall k :: k in nd.rbcVals ==> 0 <= k < |bc| && ShareHash(nd.rbcVals[k]) == bc[k])
    && (forall k :: k in nd.rbcDone ==> k in nd.rbcVals)
  }

  /** Until n-t agreements output 1, an agreement runs only where the broadcast has output. */
  ghost predicate StartUp(p: Params, nd: Node) {
    && nd.s <= nd.abaFinished <= nd.abaRunning.Keys <= Ids(p.n)
    && (|nd.s| < p.n - p.t ==> nd.abaRunning.Keys <= nd.rbcVals.Keys)
    && (|nd.s| >= p.n - p.t ==> |nd.s * nd.rbcVals.Keys| >= p.n - p.t)
    && (nd.startAba > 0 ==> |nd.s| >= p.n - p.t)
  }

  ghost predicate Commits(p: Params, bc: seq<Digest>, nd: Node)
    requires |bc| == p.n
  {
    && !nd.crashed
    && (nd.committed.Some? ==> Sound(p, bc, nd.committed.value))
    && (forall l :: l in nd.acsOut ==> nd.committed.Some? && l == nd.committed.value.values)
    && (nd.acsFinished.Some? ==> nd.committed.Some? && nd.acsFinished.value == nd.committed.value.values)
    && (nd.out.Some? ==> nd.acsFinished == nd.out)
  }

  /** A member vouched for this hash. */
  ghost predicate Vouched(p: Params, net: set<Msg>, k: ShareKey) {
    exists m :: m in net && m.CommitMsg? && m.sender == k.sender && m.hash == k.hash && Proves(p, m)
  }

  /** A commit message of a member: its share is on the hash of its list, and it shows the dealer's
      signature on its number. */
  predicate Proves(p: Params, m: Msg)
    requires m.CommitMsg?
  {
    && m.sender in p.committee && m.hash == ListHash(m.values)
    && m.share.doc == m.hash && m.proof.doc == OfNumber(m.sender)
  }

  ghost predicate Certified(c: Config, p: Params, nd: Node, net: set<Msg>) {
    && (forall k :: k in nd.sharesReceived ==> Vouched(p, net, k))
    && (nd.receivedHash.Some? <==> nd.signature.Some?)
    && (nd.receivedHash.Some? ==> Certifiable(c, p, net, nd.receivedHash.value))
    && (nd.out.Some? ==> Certifiable(c, p, net, ListHash(nd.out.value)))
  }

  /** All of a node's commit messages carry its one list. */
  ghost predicate Own(p: Params, i: int, nd: Node, net: set<Msg>) {
    forall m :: m in net && m.CommitMsg? && m.sender == i ==>
      nd.committed.Some? && m.values == nd.committed.value.values && m.hash == ListHash(m.values)
  }

  ghost predicate NodeInv(c: Config, p: Params, bc: seq<Digest>, i: int, nd: Node, net: set<Msg>)
    requires |bc| == p.n
  {
    && Delivered(p, bc, nd) && StartUp(p, nd) && Commits(p, bc, nd)
    && Certified(c, p, nd, net) && Own(p, i, nd, net)
  }

  ghost predicate Inv(c: Config, p: Params, bc: seq<Digest>, s: State) {
    && ValidSetup(c, p, bc) && |s.nodes| == c.n
    && (forall i :: c.Honest(i) ==> NodeInv(c, p, bc, i, s.nodes[i], s.net))
    && (forall m :: m in s.net && m.CertMsg? && m.sig.Joined? ==> Certifiable(c, p, s.net, m.sig.doc))
  }

  lemma InitInv(c: Config, p: Params, bc: seq<Digest>)
    requires ValidSetup(c, p, bc)
    ensures Inv(c, p, bc, Init(c.n))
  {
  }

  lemma CertifiableGrows(c: Config, p: Params, net: set<Msg>, net1: set<Msg>, hash: Digest)
    requires Certifiable(c, p, net, hash) && net <= net1
    ensures Certifiable(c, p, net1, hash)
  {
    SubsetSize(HonestSigners(c, p, net, hash), HonestSigners(c, p, net1, hash));
  }

  lemma NetGrows(c: Config, p: Params, nd: Node, net: set<Msg>, net1: set<Msg>)
    requires Certified(c, p, nd, net) && net <= net1
    ensures Certified(c, p, nd, net1)
  {
    forall h | Certifiable(c, p, net, h) ensures Certifiable(c, p, net1, h) {
      CertifiableGrows(c, p, net, net1, h);
    }
    forall k | Vouched(p, net, k) ensures Vouched(p, net1, k) {
      var m :| m in net && m.CommitMsg? && m.sender == k.sender && m.hash == k.hash && Proves(p, m);
      assert m in net1;
    }
  }

  // ---- The conditions

  ghost predicate Found(vals: map<int, BlockShare>, order: seq<int>, v: BlockShare) {
    exists k :: k in order && k in vals && vals[k] == v
  }

  lemma FoundFirst(vals: map<int, BlockShare>, order: seq<int>)
    requires order != []
    ensures order[0] in vals ==> Found(vals, order, vals[order[0]])
  {
    var k := order[0];
    assert k in order;
  }

  lemma FoundLater(vals: map<int, BlockShare>, order: seq<int>, v: BlockShare)
    requires order != [] && Found(vals, order[1..], v)
    ensures Found(vals, order, v)
  {
    var k :| k in order[1..] && k in vals && vals[k] == v;
    assert k in order;
  }

  lemma {:induction false} FirstCOneHolds(p: Params, vals: map<int, BlockShare>, order: seq<int>)
    ensures var v := FirstCOne(p, vals, order);
      && (v.Some? ==> COneHolds(p, vals, ShareHash(v.value)) && Found(vals, order, v.value))
      && (v.None? ==> forall k :: k in order && k in vals ==> !COneHolds(p, vals, ShareHash(vals[k])))
  {
    if order != [] {
      FirstCOneHolds(p, vals, order[1..]);
      FoundFirst(vals, order);
      if FirstCOne(p, vals, order[1..]).Some? {
        FoundLater(vals, order, FirstCOne(p, vals, order[1..]).value);
      }
    }
  }

  lemma {:induction false} FirstCTwoHolds(p: Params, vals: map<int, BlockShare>, s: set<int>, finished: set<int>,
                                          order: seq<int>)
    ensures var v := FirstCTwo(p, vals, s, finished, order);
      && (v.Some? ==> CTwoHolds(p, vals, s, finished, ShareHash(v.value)) && Found(vals, order, v.value))
      && (v.None? ==> forall k :: k in order && k in vals ==> !CTwoHolds(p, vals, s, finished, ShareHash(vals[k])))
  {
    if order != [] {
      FirstCTwoHolds(p, vals, s, finished, order[1..]);
      FoundFirst(vals, order);
      if FirstCTwo(p, vals, s, finished, order[1..]).Some? {
        FoundLater(vals, order, FirstCTwo(p, vals, s, finished, order[1..]).value);
      }
    }
  }

  lemma HoldersMeet(vals: map<int, BlockShare>, g: Digest, h: Digest)
    requires |Holders(vals, g)| + |Holders(vals, h)| > |vals|
    ensures g == h
  {
    assert g != h ==> Holders(vals, g) * Holders(vals, h) == {};
    UnionSize(Holders(vals, g), Holders(vals, h));
    SubsetSize(Holders(vals, g) + Holders(vals, h), vals.Keys);
    assert |vals| == |vals.Keys|;
  }

  /** C1 finds a value exactly when there is one, in whatever order the map is ranged over. */
  lemma COneFinds(p: Params, vals: map<int, BlockShare>, order: seq<int>)
    requires IsOrder(order, vals)
    ensures COne(p, vals, order).Some? <==>
              |vals| >= p.n - p.t && exists k :: k in vals && COneHolds(p, vals, ShareHash(vals[k]))
    ensures COne(p, vals, order).Some? ==> COneHolds(p, vals, ShareHash(COne(p, vals, order).value))
  {
    FirstCOneHolds(p, vals, order);
  }

  lemma CTwoFinds(p: Params, vals: map<int, BlockShare>, s: set<int>, finished: set<int>, order: seq<int>)
    requires IsOrder(order, vals)
    ensures CTwo(p, vals, s, finished, order).Some? <==>
              exists k :: k in vals && CTwoHolds(p, vals, s, finished, ShareHash(vals[k]))
    ensures CTwo(p, vals, s, finished, order).Some? ==>
              CTwoHolds(p, vals, s, finished, ShareHash(CTwo(p, vals, s, finished, order).value))
  {
    FirstCTwoHolds(p, vals, s, finished, order);
  }

  /** Neither verdict nor chosen hash depends on the order in which the map is ranged over. */
  lemma OrderIrrelevant(p: Params, vals: map<int, BlockShare>, s: set<int>, finished: set<int>,
                        order1: seq<int>, order2: seq<int>)
    requires p.n > 2 * p.t && vals.Keys <= Ids(p.n)
    requires IsOrder(order1, vals) && IsOrder(order2, vals)
    ensures var v, w := COne(p, vals, order1), COne(p, vals, order2);
      v.Some? == w.Some? && (v.Some? ==> ShareHash(v.value) == ShareHash(w.value))
    ensures var v, w := CTwo(p, vals, s, finished, order1), CTwo(p, vals, s, finished, order2);
      v.Some? == w.Some? && (v.Some? ==> ShareHash(v.value) == ShareHash(w.value))
  {
    COneFinds(p, vals, order1);
    COneFinds(p, vals, order2);
    CTwoFinds(p, vals, s, finished, order1);
    CTwoFinds(p, vals, s, finished, order2);
    SubsetSize(vals.Keys, Ids(p.n));
    assert |vals| == |vals.Keys|;
    var v, w := COne(p, vals, order1), COne(p, vals, order2);
    if v.Some? && w.Some? {
      HoldersMeet(vals, ShareHash(v.value), ShareHash(w.value));
    }
    v, w := CTwo(p, vals, s, finished, order1), CTwo(p, vals, s, finished, order2);
    if v.Some? && w.Some? {
      HoldersMeet(vals, ShareHash(v.value), ShareHash(w.value));
    }
  }

  lemma HoldersDelivering(bc: seq<Digest>, vals: map<int, BlockShare>, hash: Digest)
    requires forall k :: k in vals ==> 0 <= k < |bc| && ShareHash(vals[k]) == bc[k]
    ensures Holders(vals, hash) == vals.Keys * Delivering(bc, hash)
  {
  }

  lemma {:induction false} CollectInOrder(bc: seq<Digest>, vals: map<int, BlockShare>, s: set<int>, i: nat)
    requires i <= |bc| && s <= vals.Keys
    requires forall k :: k in vals ==> 0 <= k < |bc| && ShareHash(vals[k]) == bc[k]
    ensures Hashes(Collect(vals, s, i)) == InOrder(bc, s, i)
  {
    if i > 0 {
      CollectInOrder(bc, vals, s, i - 1);
    }
  }

  /** When C3 fires, the instances with agreement output 1 are exactly those whose broadcast output. */
  lemma CThreeDomain(p: Params, bc: seq<Digest>, nd: Node)
    requires |bc| == p.n && p.t <= p.n && Delivered(p, bc, nd) && StartUp(p, nd)
    requires CThreeHolds(p, nd.rbcVals, nd.s, nd.abaFinished)
    ensures nd.s == nd.rbcVals.Keys && |nd.s| == p.n - p.t
  {
    var both := nd.s * nd.rbcVals.Keys;
    SubsetFull(both, nd.rbcVals.Keys);
    SubsetSize(nd.s, nd.abaFinished);
    SubsetFull(both, nd.s);
  }

  // ---- One node's turn

  lemma COneSound(p: Params, bc: seq<Digest>, nd: Node, order: seq<int>)
    requires |bc| == p.n && Delivered(p, bc, nd) && COne(p, nd.rbcVals, order).Some?
    ensures Sound(p, bc, Commitment(C1, [COne(p, nd.rbcVals, order).value]))
  {
    FirstCOneHolds(p, nd.rbcVals, order);
    var h := ShareHash(COne(p, nd.rbcVals, order).value);
    HoldersDelivering(bc, nd.rbcVals, h);
    SubsetSize(Holders(nd.rbcVals, h), Delivering(bc, h));
  }

  lemma CTwoSound(p: Params, bc: seq<Digest>, nd: Node, order: seq<int>)
    requires |bc| == p.n && Delivered(p, bc, nd) && StartUp(p, nd)
    requires CTwo(p, nd.rbcVals, nd.s, nd.abaFinished, order).Some?
    ensures Sound(p, bc, Commitment(C2, [CTwo(p, nd.rbcVals, nd.s, nd.abaFinished, order).value]))
  {
    FirstCTwoHolds(p, nd.rbcVals, nd.s, nd.abaFinished, order);
    var h := ShareHash(CTwo(p, nd.rbcVals, nd.s, nd.abaFinished, order).value);
    var d := nd.rbcVals.Keys;
    HoldersDelivering(bc, nd.rbcVals, h);
    SubsetSize(nd.s * d, d);
    assert |nd.rbcVals| == |d|;
    assert d <= Ids(p.n) && |d| >= p.n - p.t && MajorityOf(bc, d, h);
  }

  lemma CThreeSound(p: Params, bc: seq<Digest>, nd: Node)
    requires |bc| == p.n && p.t <= p.n && Delivered(p, bc, nd) && StartUp(p, nd)
    requires CThreeHolds(p, nd.rbcVals, nd.s, nd.abaFinished)
    ensures nd.s <= nd.rbcVals.Keys && Sound(p, bc, Commitment(C3, Collect(nd.rbcVals, nd.s, p.n)))
  {
    CThreeDomain(p, bc, nd);
    CollectInOrder(bc, nd.rbcVals, nd.s, p.n);
  }

  /** The commitment the event handler makes is sound, and it never hashes a nil share. */
  lemma HandlerSound(p: Params, bc: seq<Digest>, id: int, nd: Node, order: seq<int>)
    requires |bc| == p.n && p.t <= p.n && Delivered(p, bc, nd) && StartUp(p, nd) && Commits(p, bc, nd)
    ensures var nd1 := EventHandler(p, id, nd, order).node;
      !nd1.crashed && (nd1.committed.Some? ==> Sound(p, bc, nd1.committed.value))
  {
    if nd.committed.None? {
      if COne(p, nd.rbcVals, order).Some? {
        COneSound(p, bc, nd, order);
      } else if CTwo(p, nd.rbcVals, nd.s, nd.abaFinished, order).Some? {
        CTwoSound(p, bc, nd, order);
      } else if CThreeHolds(p, nd.rbcVals, nd.s, nd.abaFinished) {
        CThreeSound(p, bc, nd);
      }
    }
  }

  /** The handler either leaves the node alone, crashes it, or commits it to one list. */
  lemma HandlerCases(p: Params, id: int, nd: Node, order: seq<int>)
    ensures var o := EventHandler(p, id, nd, order);
      || o == Outcome(nd, [])
      || o == Outcome(nd.(crashed := true), [])
      || (nd.committed.None? && exists rule, values :: o == Commit(p, id, nd, rule, values))
  {
    var o := EventHandler(p, id, nd, order);
    if nd.committed.None? && o.node.committed.Some? {
      assert o == Commit(p, id, nd, o.node.committed.value.rule, o.node.committed.value.values);
    }
  }

  lemma CommitKeeps(c: Config, p: Params, bc: seq<Digest>, i: int, nd: Node, net: set<Msg>, rule: Rule,
                    values: seq<BlockShare>)
    requires |bc| == p.n && NodeInv(c, p, bc, i, nd, net) && nd.committed.None?
    requires Sound(p, bc, Commitment(rule, values))
    ensures var o := Commit(p, i, nd, rule, values); NodeInv(c, p, bc, i, o.node, net + Members(o.sent))
  {
    var o := Commit(p, i, nd, rule, values);
    CommitLocal(p, bc, i, nd, rule, values);
    CommitOwn(p, i, nd, net, rule, values);
    CommitCertificate(c, p, i, nd, net, rule, values);
  }

  lemma CommitLocal(p: Params, bc: seq<Digest>, i: int, nd: Node, rule: Rule, values: seq<BlockShare>)
    requires |bc| == p.n && Delivered(p, bc, nd) && StartUp(p, nd) && Commits(p, bc, nd) && nd.committed.None?
    requires Sound(p, bc, Commitment(rule, values))
    ensures var nd1 := Commit(p, i, nd, rule, values).node;
      Delivered(p, bc, nd1) && StartUp(p, nd1) && Commits(p, bc, nd1)
  {
    var nd1 := nd.(committed := Some(Commitment(rule, values)), acsOut := nd.acsOut + [values]);
    assert Commit(p, i, nd, rule, values).node == nd1;
    SameCounts(p, bc, nd, nd1);
    assert forall l :: l in nd1.acsOut ==> l == values;
  }

  /** What the start-up is about has not changed. */
  lemma SameCounts(p: Params, bc: seq<Digest>, nd: Node, nd1: Node)
    requires Delivered(p, bc, nd) && StartUp(p, nd)
    requires nd1 == nd.(committed := nd1.committed, acsOut := nd1.acsOut)
    ensures Delivered(p, bc, nd1) && StartUp(p, nd1)
  {
  }

  lemma CommitCertificate(c: Config, p: Params, i: int, nd: Node, net: set<Msg>, rule: Rule, values: seq<BlockShare>)
    requires Certified(c, p, nd, net)
    ensures var o := Commit(p, i, nd, rule, values); Certified(c, p, o.node, net + Members(o.sent))
  {
    var o := Commit(p, i, nd, rule, values);
    NetGrows(c, p, nd, net, net + Members(o.sent));
  }

  lemma CommitOwn(p: Params, i: int, nd: Node, net: set<Msg>, rule: Rule, values: seq<BlockShare>)
    requires Own(p, i, nd, net) && nd.committed.None?
    ensures var o := Commit(p, i, nd, rule, values); Own(p, i, o.node, net + Members(o.sent))
  {
  }

  lemma HandlerKeeps(c: Config, p: Params, bc: seq<Digest>, i: int, nd: Node, net: set<Msg>, order: seq<int>)
    requires |bc| == p.n && p.t <= p.n && NodeInv(c, p, bc, i, nd, net)
    ensures var o := EventHandler(p, i, nd, order); NodeInv(c, p, bc, i, o.node, net + Members(o.sent))
  {
    var o := EventHandler(p, i, nd, order);
    HandlerSound(p, bc, i, nd, order);
    HandlerCases(p, i, nd, order);
    if o == Outcome(nd, []) {
      assert net + Members(o.sent) == net;
    } else {
      var rule, values :| o == Commit(p, i, nd, rule, values);
      CommitKeeps(c, p, bc, i, nd, net, rule, values);
    }
  }

  lemma RbcKeeps(c: Config, p: Params, bc: seq<Digest>, i: int, nd: Node, net: set<Msg>, k: int, v: BlockShare,
                 order: seq<int>)
    requires |bc| == p.n && p.t <= p.n && NodeInv(c, p, bc, i, nd, net) && 0 <= k < p.n && ShareHash(v) == bc[k]
    ensures var o := OnRbcOutput(p, i, nd, k, v, order); NodeInv(c, p, bc, i, o.node, net + Members(o.sent))
  {
    var nd1 := nd.(rbcVals := nd.rbcVals[k := v], rbcDone := nd.rbcDone + [k]);
    SubsetSize(nd.s * nd.rbcVals.Keys, nd.s * nd1.rbcVals.Keys);
    HandlerKeeps(c, p, bc, i, nd1, net, order);
  }

  lemma AfterAbaStartUp(p: Params, nd: Node, k: int, one: bool)
    requires StartUp(p, nd) && k in nd.abaRunning
    ensures StartUp(p, AfterAba(p, nd, k, one))
  {
    var nd1 := AfterAba(p, nd, k, one);
    SubsetSize(nd.s * nd.rbcVals.Keys, nd1.s * nd1.rbcVals.Keys);
    SubsetSize(nd.s, nd1.s);
    if |nd.s| < p.n - p.t {
      assert nd1.s * nd1.rbcVals.Keys == nd1.s;
    }
  }

  lemma AbaKeeps(c: Config, p: Params, bc: seq<Digest>, i: int, nd: Node, net: set<Msg>, k: int, one: bool,
                 order: seq<int>)
    requires |bc| == p.n && p.t <= p.n && NodeInv(c, p, bc, i, nd, net) && k in nd.abaRunning
    ensures var o := OnAbaOutput(p, i, nd, k, one, order); NodeInv(c, p, bc, i, o.node, net + Members(o.sent))
  {
    AfterAbaStartUp(p, nd, k, one);
    HandlerKeeps(c, p, bc, i, AfterAba(p, nd, k, one), net, order);
  }

  lemma FinishKeeps(c: Config, p: Params, bc: seq<Digest>, i: int, nd: Node, net: set<Msg>)
    requires |bc| == p.n && NodeInv(c, p, bc, i, nd, net)
    ensures NodeInv(c, p, bc, i, Finish(nd), net)
  {
  }

  /** A turn that only moves the start-up state. */
  lemma StartUpOnly(c: Config, p: Params, bc: seq<Digest>, i: int, nd: Node, nd1: Node, net: set<Msg>)
    requires |bc| == p.n && NodeInv(c, p, bc, i, nd, net)
    requires Delivered(p, bc, nd1) && StartUp(p, nd1)
    requires nd1 == nd.(rbcDone := nd1.rbcDone, startAba := nd1.startAba, abaRunning := nd1.abaRunning)
    ensures NodeInv(c, p, bc, i, nd1, net)
  {
  }

  lemma StartMissingKeys(running: map<int, int>, instances: set<int>, input: int)
    ensures StartMissing(running, instances, input).Keys == running.Keys + instances
  {
  }

  lemma RbcDoneKeeps(c: Config, p: Params, bc: seq<Digest>, i: int, nd: Node, net: set<Msg>)
    requires |bc| == p.n && NodeInv(c, p, bc, i, nd, net) && nd.rbcDone != []
    ensures NodeInv(c, p, bc, i, OnRbcDone(nd), net)
  {
    var nd1 := OnRbcDone(nd);
    assert nd.rbcDone[0] in nd.rbcDone;
    StartMissingKeys(nd.abaRunning, {nd.rbcDone[0]}, 1);
    assert Delivered(p, bc, nd1);
    StartUpOnly(c, p, bc, i, nd, nd1, net);
  }

  lemma StartAbaKeeps(c: Config, p: Params, bc: seq<Digest>, i: int, nd: Node, net: set<Msg>)
    requires |bc| == p.n && NodeInv(c, p, bc, i, nd, net) && nd.startAba > 0
    ensures NodeInv(c, p, bc, i, OnStartAba(nd, Ids(p.n)), net)
  {
    StartMissingKeys(nd.abaRunning, Ids(p.n), 0);
    StartUpOnly(c, p, bc, i, nd, OnStartAba(nd, Ids(p.n)), net);
  }

  lemma AcsOutKeeps(c: Config, p: Params, bc: seq<Digest>, i: int, nd: Node, net: set<Msg>)
    requires |bc| == p.n && NodeInv(c, p, bc, i, nd, net) && nd.acsOut != [] && nd.out.None?
    ensures NodeInv(c, p, bc, i, OnAcsOut(nd), net)
  {
    var nd1 := OnAcsOut(nd);
    assert nd.acsOut[0] in nd.acsOut;
    assert forall l :: l in nd1.acsOut ==> l in nd.acsOut;
    assert Commits(p, bc, nd1);
  }

  /** A joined signature stands for certK distinct members. */
  lemma JoinCertifiable(c: Config, p: Params, shares: map<ShareKey, SigShare>, net: set<Msg>, hash: Digest)
    requires forall k :: k in shares ==> Vouched(p, net, k)
    requires |ShareSenders(shares, hash)| >= p.certK
    ensures Certifiable(c, p, net, hash)
  {
    var senders := ShareSenders(shares, hash);
    forall j | j in senders ensures j in p.committee && (j !in c.faulty ==> j in HonestSigners(c, p, net, hash)) {
      assert Vouched(p, net, ShareKey(hash, j));
    }
    SubsetSize(senders, HonestSigners(c, p, net, hash) + p.committee * c.faulty);
    UnionSize(HonestSigners(c, p, net, hash), p.committee * c.faulty);
  }

  lemma ShareStored(c: Config, p: Params, nd: Node, net: set<Msg>, m: Msg)
    requires Certified(c, p, nd, net) && m in net && m.CommitMsg? && ValidCommit(p, m)
    ensures Certified(c, p, nd.(sharesReceived := nd.sharesReceived[ShareKey(m.hash, m.sender) := m.share]), net)
  {
    assert Vouched(p, net, ShareKey(m.hash, m.sender));
  }

  lemma CommitMsgCertified(c: Config, p: Params, i: int, nd: Node, net: set<Msg>, m: Msg, picked: set<int>)
    requires Certified(c, p, nd, net) && m in net && m.CommitMsg?
    ensures Certified(c, p, OnCommit(p, i, nd, m, picked).node, net)
    ensures forall x :: x in OnCommit(p, i, nd, m, picked).sent ==>
              x.CertMsg? && x.sender == i && (x.sig.Joined? ==> Certifiable(c, p, net, x.sig.doc))
  {
    if ValidCommit(p, m) {
      var shares := nd.sharesReceived[ShareKey(m.hash, m.sender) := m.share];
      ShareStored(c, p, nd, net, m);
      if |ShareSenders(shares, m.hash)| >= p.certK {
        JoinCertifiable(c, p, shares, net, m.hash);
      }
    }
  }

  /** A turn that only moves the certificate. */
  lemma CertificateOnly(c: Config, p: Params, bc: seq<Digest>, i: int, nd: Node, nd1: Node, net: set<Msg>,
                        sent: seq<Msg>)
    requires |bc| == p.n && NodeInv(c, p, bc, i, nd, net)
    requires Certified(c, p, nd1, net)
    requires nd1 == nd.(sharesReceived := nd1.sharesReceived, receivedHash := nd1.receivedHash,
                        signature := nd1.signature)
    requires forall m :: m in sent ==> m.CertMsg?
    ensures NodeInv(c, p, bc, i, nd1, net + Members(sent))
  {
    NetGrows(c, p, nd1, net, net + Members(sent));
  }

  lemma CertMsgCertified(c: Config, p: Params, i: int, nd: Node, net: set<Msg>, m: Msg)
    requires Certified(c, p, nd, net) && m in net && m.CertMsg?
    requires m.sig.Joined? ==> Certifiable(c, p, net, m.sig.doc)
    ensures Certified(c, p, OnCert(i, nd, m).node, net)
    ensures forall x :: x in OnCert(i, nd, m).sent ==>
              x.CertMsg? && x.sender == i && (x.sig.Joined? ==> Certifiable(c, p, net, x.sig.doc))
  {
  }

  // ---- The invariant over a step and over a run

  lemma InstallKeeps(c: Config, p: Params, bc: seq<Digest>, s: State, i: int, o: Outcome)
    requires Inv(c, p, bc, s) && c.Honest(i)
    requires NodeInv(c, p, bc, i, o.node, s.net + Members(o.sent))
    requires forall m :: m in o.sent ==> m.sender == i
    requires forall m :: m in o.sent && m.CertMsg? && m.sig.Joined? ==> Certifiable(c, p, s.net, m.sig.doc)
    ensures Inv(c, p, bc, Install(s, i, o))
  {
    var s1 := Install(s, i, o);
    forall j | c.Honest(j) && j != i ensures NodeInv(c, p, bc, j, s1.nodes[j], s1.net) {
      NetGrows(c, p, s.nodes[j], s.net, s1.net);
    }
    forall h | Certifiable(c, p, s.net, h) ensures Certifiable(c, p, s1.net, h) {
      CertifiableGrows(c, p, s.net, s1.net, h);
    }
  }

  lemma ForgeKeeps(c: Config, p: Params, bc: seq<Digest>, s: State, m: Msg)
    requires Inv(c, p, bc, s) && Enabled(c, p, bc, s, Forge(m))
    ensures Inv(c, p, bc, s.(net := s.net + {m}))
  {
    var s1 := s.(net := s.net + {m});
    forall j | c.Honest(j) ensures NodeInv(c, p, bc, j, s1.nodes[j], s1.net) {
      NetGrows(c, p, s.nodes[j], s.net, s1.net);
    }
    forall h | Certifiable(c, p, s.net, h) ensures Certifiable(c, p, s1.net, h) {
      CertifiableGrows(c, p, s.net, s1.net, h);
    }
  }

  lemma HandlerSends(p: Params, id: int, nd: Node, order: seq<int>)
    ensures forall m :: m in EventHandler(p, id, nd, order).sent ==> m.CommitMsg? && m.sender == id
  {
  }

  /** A turn that only moves the certificate, and passes certificates on. */
  ghost predicate Certifying(c: Config, p: Params, i: int, nd: Node, o: Outcome, net: set<Msg>) {
    && o.node == nd.(sharesReceived := o.node.sharesReceived, receivedHash := o.node.receivedHash,
                     signature := o.node.signature)
    && Certified(c, p, o.node, net)
    && forall x :: x in o.sent ==>
         x.CertMsg? && x.sender == i && (x.sig.Joined? ==> Certifiable(c, p, net, x.sig.doc))
  }

  lemma MessageCertifies(c: Config, p: Params, i: int, nd: Node, net: set<Msg>, m: Msg, picked: set<int>)
    requires Certified(c, p, nd, net) && m in net
    requires m.CertMsg? && m.sig.Joined? ==> Certifiable(c, p, net, m.sig.doc)
    ensures Certifying(c, p, i, nd, OnMessage(p, i, nd, m, picked), net)
  {
    if m.CommitMsg? {
      CommitMsgCertified(c, p, i, nd, net, m, picked);
    } else {
      CertMsgCertified(c, p, i, nd, net, m);
    }
  }

  lemma CertifyingKeeps(c: Config, p: Params, bc: seq<Digest>, s: State, i: int, o: Outcome)
    requires Inv(c, p, bc, s) && c.Honest(i) && Certifying(c, p, i, s.nodes[i], o, s.net)
    ensures Inv(c, p, bc, Install(s, i, Outcome(Finish(o.node), o.sent)))
  {
    CertificateOnly(c, p, bc, i, s.nodes[i], o.node, s.net, o.sent);
    FinishKeeps(c, p, bc, i, o.node, s.net + Members(o.sent));
    InstallKeeps(c, p, bc, s, i, Outcome(Finish(o.node), o.sent));
  }

  lemma MessageKeeps(c: Config, p: Params, bc: seq<Digest>, s: State, i: int, m: Msg, picked: set<int>)
    requires Inv(c, p, bc, s) && c.Honest(i) && m in s.net
    ensures var o := OnMessage(p, i, s.nodes[i], m, picked);
      Inv(c, p, bc, Install(s, i, Outcome(Finish(o.node), o.sent)))
  {
    assert NodeInv(c, p, bc, i, s.nodes[i], s.net);
    MessageCertifies(c, p, i, s.nodes[i], s.net, m, picked);
    CertifyingKeeps(c, p, bc, s, i, OnMessage(p, i, s.nodes[i], m, picked));
  }

  /** A turn of the main loop that sends nothing. */
  lemma QuietKeeps(c: Config, p: Params, bc: seq<Digest>, s: State, i: int, nd: Node)
    requires Inv(c, p, bc, s) && c.Honest(i) && NodeInv(c, p, bc, i, nd, s.net)
    ensures Inv(c, p, bc, Install(s, i, Outcome(Finish(nd), [])))
  {
    FinishKeeps(c, p, bc, i, nd, s.net);
    assert s.net + Members([]) == s.net;
    InstallKeeps(c, p, bc, s, i, Outcome(Finish(nd), []));
  }

  lemma StepKeeps(c: Config, p: Params, bc: seq<Digest>, s: State, step: Step)
    requires Inv(c, p, bc, s)
    ensures Inv(c, p, bc, Do(c, p, bc, s, step))
  {
    if Enabled(c, p, bc, s, step) {
      match step
      case RbcOutput(i, k, v, order) =>
        var nd := s.nodes[i];
        RbcKeeps(c, p, bc, i, nd, s.net, k, v, order);
        HandlerSends(p, i, nd.(rbcVals := nd.rbcVals[k := v], rbcDone := nd.rbcDone + [k]), order);
        InstallKeeps(c, p, bc, s, i, OnRbcOutput(p, i, nd, k, v, order));
      case AbaOutput(i, k, one, order) =>
        var nd := s.nodes[i];
        AbaKeeps(c, p, bc, i, nd, s.net, k, one, order);
        HandlerSends(p, i, AfterAba(p, nd, k, one), order);
        InstallKeeps(c, p, bc, s, i, OnAbaOutput(p, i, nd, k, one, order));
      case TakeRbcDone(i) =>
        RbcDoneKeeps(c, p, bc, i, s.nodes[i], s.net);
        QuietKeeps(c, p, bc, s, i, OnRbcDone(s.nodes[i]));
      case TakeStartAba(i) =>
        StartAbaKeeps(c, p, bc, i, s.nodes[i], s.net);
        QuietKeeps(c, p, bc, s, i, OnStartAba(s.nodes[i], Ids(c.n)));
      case TakeAcsOut(i) =>
        AcsOutKeeps(c, p, bc, i, s.nodes[i], s.net);
        QuietKeeps(c, p, bc, s, i, OnAcsOut(s.nodes[i]));
      case Receive(i, m, picked) => MessageKeeps(c, p, bc, s, i, m, picked);
      case Forge(m) => ForgeKeeps(c, p, bc, s, m);
    }
  }

  lemma {:induction false} RunInv(c: Config, p: Params, bc: seq<Digest>, steps: seq<Step>)
    requires ValidSetup(c, p, bc)
    ensures Inv(c, p, bc, Run(c, p, bc, steps))
  {
    if steps == [] {
      InitInv(c, p, bc);
    } else {
      RunInv(c, p, bc, steps[..|steps| - 1]);
      StepKeeps(c, p, bc, Run(c, p, bc, steps[..|steps| - 1]), steps[|steps| - 1]);
    }
  }

  // ---- Agreement

  /** An honest member signs one hash. */
  lemma OneHashPerSigner(c: Config, p: Params, bc: seq<Digest>, s: State, g: Digest, h: Digest, j: int)
    requires Inv(c, p, bc, s)
    requires j in HonestSigners(c, p, s.net, g) && j in HonestSigners(c, p, s.net, h)
    ensures g == h
  {
    var m :| m in s.net && m.CommitMsg? && m.hash == g && m.sender == j;
    var m' :| m' in s.net && m'.CommitMsg? && m'.hash == h && m'.sender == j;
    assert c.Honest(j);
  }

  lemma SignersMeet(committee: set<int>, faulty: set<int>, certK: nat, a: set<int>, b: set<int>)
    requires |committee * faulty| + |committee| < 2 * certK
    requires a <= committee - faulty && b <= committee - faulty
    requires |a| + |committee * faulty| >= certK && |b| + |committee * faulty| >= certK
    ensures exists j :: j in a && j in b
  {
    assert committee == (committee - faulty) + committee * faulty;
    UnionSize(a, b);
    SubsetSize(a + b, committee - faulty);
    Inhabited(a * b);
    var j :| j in a * b;
  }

  /** Only one hash can be certified. */
  lemma CertificatesAgree(c: Config, p: Params, bc: seq<Digest>, s: State, g: Digest, h: Digest)
    requires Inv(c, p, bc, s) && Certifiable(c, p, s.net, g) && Certifiable(c, p, s.net, h)
    ensures g == h
  {
    var a, b := HonestSigners(c, p, s.net, g), HonestSigners(c, p, s.net, h);
    SignersMeet(p.committee, c.faulty, p.certK, a, b);
    var j :| j in a && j in b;
    OneHashPerSigner(c, p, bc, s, g, h, j);
  }

  /** Agreement: honest nodes that return have lists of one hash. */
  lemma Agreement(c: Config, p: Params, bc: seq<Digest>, steps: seq<Step>)
    requires ValidSetup(c, p, bc)
    ensures var s := Run(c, p, bc, steps);
      && |s.nodes| == c.n
      && (forall i, j :: c.Honest(i) && c.Honest(j) && s.nodes[i].out.Some? && s.nodes[j].out.Some? ==>
            ListHash(s.nodes[i].out.value) == ListHash(s.nodes[j].out.value))
  {
    RunInv(c, p, bc, steps);
    var s := Run(c, p, bc, steps);
    forall i, j | c.Honest(i) && c.Honest(j) && s.nodes[i].out.Some? && s.nodes[j].out.Some?
      ensures ListHash(s.nodes[i].out.value) == ListHash(s.nodes[j].out.value)
    {
      CertificatesAgree(c, p, bc, s, ListHash(s.nodes[i].out.value), ListHash(s.nodes[j].out.value));
    }
  }

  /** A node signs at most one list. */
  lemma OneListPerMember(c: Config, p: Params, bc: seq<Digest>, steps: seq<Step>)
    requires ValidSetup(c, p, bc)
    ensures var net := Run(c, p, bc, steps).net;
      forall m, m' | m in net && m' in net && m.CommitMsg? && m'.CommitMsg?
                     && m.sender == m'.sender && c.Honest(m.sender) :: m.values == m'.values && m.hash == m'.hash
  {
    RunInv(c, p, bc, steps);
  }

  /** Every list a node returns came from one of the three conditions: one value that n-t
      broadcasts deliver, one value that a majority of at least n-t broadcasts deliver, or the
      values of exactly n-t broadcasts in index order. No nil share is ever hashed. */
  lemma OutputSound(c: Config, p: Params, bc: seq<Digest>, steps: seq<Step>)
    requires ValidSetup(c, p, bc)
    ensures var s := Run(c, p, bc, steps);
      && |s.nodes| == c.n
      && (forall i :: c.Honest(i) ==> !s.nodes[i].crashed)
      && (forall i :: c.Honest(i) && s.nodes[i].out.Some? ==>
            s.nodes[i].committed.Some? && s.nodes[i].out.value == s.nodes[i].committed.value.values)
      && (forall i :: c.Honest(i) && s.nodes[i].committed.Some? ==> Sound(p, bc, s.nodes[i].committed.value))
  {
    RunInv(c, p, bc, steps);
  }

  /** Start-up: |s| >= n-t implies n-t local broadcast outputs; until then agreements run only
      where the local broadcast has output; when C3 holds, s is the domain of rbcVals. */
  lemma StartUpInvariant(c: Config, p: Params, bc: seq<Digest>, steps: seq<Step>, i: int)
    requires ValidSetup(c, p, bc) && c.Honest(i)
    ensures var s := Run(c, p, bc, steps);
      && |s.nodes| == c.n
      && var nd := s.nodes[i];
      && (|nd.s| < p.n - p.t ==> nd.abaRunning.Keys <= nd.rbcVals.Keys)
      && (|nd.s| >= p.n - p.t ==> |nd.rbcVals| >= p.n - p.t)
      && (CThreeHolds(p, nd.rbcVals, nd.s, nd.abaFinished) ==> nd.s == nd.rbcVals.Keys)
  {
    RunInv(c, p, bc, steps);
    var nd := Run(c, p, bc, steps).nodes[i];
    SubsetSize(nd.s * nd.rbcVals.Keys, nd.rbcVals.Keys);
    assert |nd.rbcVals| == |nd.rbcVals.Keys|;
    if CThreeHolds(p, nd.rbcVals, nd.s, nd.abaFinished) {
      CThreeDomain(p, bc, nd);
    }
  }

  /** A value delivered by n-t broadcasts leaves no other value a majority among n-t of them. */
  lemma MajorityIs(n: nat, t: nat, bc: seq<Digest>, d: set<int>, g: Digest, h: Digest)
    requires n > 3 * t && |bc| == n && d <= Ids(n) && |d| >= n - t
    requires |Delivering(bc, g)| >= n - t && MajorityOf(bc, d, h)
    ensures g == h
  {
    var a, b := Delivering(bc, g), d * Delivering(bc, h);
    UnionSize(a, d);
    SubsetSize(a + d, Ids(n));
    assert d == a * d + (d - a * d);
    if g != h {
      SubsetSize(b, d - a * d);
    }
  }

  lemma QuorumsOfOne(n: nat, t: nat, bc: seq<Digest>, g: Digest, h: Digest)
    requires n > 2 * t && |bc| == n
    requires |Delivering(bc, g)| >= n - t && |Delivering(bc, h)| >= n - t
    ensures g == h
  {
    var a, b := Delivering(bc, g), Delivering(bc, h);
    UnionSize(a, b);
    SubsetSize(a + b, Ids(n));
    Inhabited(a * b);
    var k :| k in a * b;
  }

  /** Commitments by C1 and by C1 or C2 are the same, whoever makes them and when. */
  lemma SoundCompatible(p: Params, bc: seq<Digest>, ci: Commitment, cj: Commitment)
    requires p.n > 3 * p.t && |bc| == p.n && Sound(p, bc, ci) && Sound(p, bc, cj)
    requires ci.rule == C1 && cj.rule != C3
    ensures ListHash(ci.values) == ListHash(cj.values)
  {
    var g, h := ShareHash(ci.values[0]), ShareHash(cj.values[0]);
    if cj.rule == C2 {
      var d :| d <= Ids(p.n) && |d| >= p.n - p.t && MajorityOf(bc, d, h);
      MajorityIs(p.n, p.t, bc, d, g, h);
    } else {
      QuorumsOfOne(p.n, p.t, bc, g, h);
    }
  }

  /** C1 is compatible with C1 and with C2, whenever and wherever they fire. */
  lemma COneCompatible(c: Config, p: Params, bc: seq<Digest>, steps: seq<Step>, i: int, j: int)
    requires ValidSetup(c, p, bc) && p.n > 3 * p.t && c.Honest(i) && c.Honest(j)
    ensures var s := Run(c, p, bc, steps);
      && |s.nodes| == c.n
      && var ci, cj := s.nodes[i].committed, s.nodes[j].committed;
      (ci.Some? && cj.Some? && ci.value.rule == C1 && cj.value.rule != C3 ==>
         ListHash(ci.value.values) == ListHash(cj.value.values))
  {
    RunInv(c, p, bc, steps);
    var s := Run(c, p, bc, steps);
    var ci, cj := s.nodes[i].committed, s.nodes[j].committed;
    if ci.Some? && cj.Some? && ci.value.rule == C1 && cj.value.rule != C3 {
      SoundCompatible(p, bc, ci.value, cj.value);
    }
  }
}
