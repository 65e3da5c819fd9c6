/** What a node of the common subset does with its outputs, in every run: which agreements it starts
    and with what input, how a commitment gets to the main loop, when there is a certificate, and
    exactly when the node returns. */
module CommonSubsetReturn {
  import opened Quorums
  import opened Blocks
  import opened Tables
  import opened Certificates
  import opened CommonSubset
  import opened CommonSubsetSafety
  import opened CommonSubsetProgress

  // ---- Starting agreements

  /** Every agreement that runs was started with 1 because the broadcast is in, or with 0 because n-t
      agreements have output 1. */
  ghost predicate Inputs(p: Params, nd: Node) {
    forall k :: k in nd.abaRunning ==>
      (nd.abaRunning[k] == 1 && k in nd.rbcVals) || (nd.abaRunning[k] == 0 && |nd.s| >= p.n - p.t)
  }

  /** A broadcast that is in has its agreement running or queued to be started; with n-t ones all
      agreements run or are to be started. */
  ghost predicate Owed(p: Params, nd: Node) {
    && (forall k :: k in nd.rbcDone ==> k in nd.rbcVals)
    && (forall k :: k in nd.rbcVals ==> k in nd.rbcDone || k in nd.abaRunning)
    && (nd.startAba > 0 ==> |nd.s| >= p.n - p.t)
    && (|nd.s| >= p.n - p.t ==> nd.startAba > 0 || Ids(p.n) <= nd.abaRunning.Keys)
  }

  ghost predicate Starts(p: Params, nd: Node) {
    Inputs(p, nd) && Owed(p, nd)
  }

  // ---- From the commitment to the return

  /** A commitment waits in acsOut until the main loop has taken it. */
  ghost predicate Hands(nd: Node) {
    && nd.acsOut == (if nd.committed.Some? && nd.acsFinished.None? then [nd.committed.value.values] else [])
    && (nd.acsFinished.Some? ==> nd.committed.Some? && nd.acsFinished.value == nd.committed.value.values)
  }

  /** The node has returned its list exactly when that is what the certificate is for. */
  ghost predicate Returned(nd: Node) {
    nd.out == if CanTerminate(nd) then nd.acsFinished else None
  }

  /** A member has sent its share on the list it has committed to; a certificate is passed on. */
  ghost predicate Tells(p: Params, i: int, nd: Node, net: set<Msg>) {
    && (nd.committed.Some? && i in p.committee ==>
          var values := nd.committed.value.values;
          CommitMsg(i, values, ListHash(values), OwnShare(i, ListHash(values)), OwnProof(i)) in net)
    && (nd.receivedHash.Some? <==> nd.signature.Some?)
    && (nd.receivedHash.Some? ==> CertMsg(i, nd.receivedHash.value, nd.signature.value) in net)
  }

  ghost predicate Goes(p: Params, i: int, nd: Node, net: set<Msg>) {
    Starts(p, nd) && Hands(nd) && Returned(nd) && Tells(p, i, nd, net)
  }

  // ---- One node's turn

  lemma HandlerGoes(p: Params, i: int, nd: Node, net: set<Msg>, order: seq<int>)
    requires Goes(p, i, nd, net)
    ensures var o := EventHandler(p, i, nd, order); Goes(p, i, o.node, net + Members(o.sent))
  {
    HandlerCases(p, i, nd, order);
    var o := EventHandler(p, i, nd, order);
    if rule, values :| nd.committed.None? && o == Commit(p, i, nd, rule, values) {
      if i in p.committee {
        assert o.sent[0] in Members(o.sent);
      }
    }
  }

  lemma RbcGoes(p: Params, i: int, nd: Node, net: set<Msg>, k: int, v: BlockShare, order: seq<int>)
    requires Goes(p, i, nd, net)
    ensures var o := OnRbcOutput(p, i, nd, k, v, order); Goes(p, i, o.node, net + Members(o.sent))
  {
    var nd1 := nd.(rbcVals := nd.rbcVals[k := v], rbcDone := nd.rbcDone + [k]);
    assert k in nd1.rbcDone;
    assert Starts(p, nd1);
    HandlerGoes(p, i, nd1, net, order);
  }

  lemma AbaGoes(p: Params, i: int, nd: Node, net: set<Msg>, k: int, one: bool, order: seq<int>)
    requires Goes(p, i, nd, net)
    ensures var o := OnAbaOutput(p, i, nd, k, one, order); Goes(p, i, o.node, net + Members(o.sent))
  {
    var nd1 := AfterAba(p, nd, k, one);
    SubsetSize(nd.s, nd1.s);
    assert nd.s + {k} == nd.s <==> k in nd.s;
    assert Starts(p, nd1);
    HandlerGoes(p, i, nd1, net, order);
  }

  lemma RbcDoneStarts(p: Params, nd: Node)
    requires Starts(p, nd) && nd.rbcDone != []
    ensures Starts(p, OnRbcDone(nd))
  {
    var nd1 := OnRbcDone(nd);
    assert nd.rbcDone[0] in nd.rbcDone;
    assert nd.rbcDone == [nd.rbcDone[0]] + nd1.rbcDone;
    StartMissingKeys(nd.abaRunning, {nd.rbcDone[0]}, 1);
  }

  lemma StartAbaStarts(p: Params, nd: Node)
    requires Starts(p, nd) && nd.startAba > 0
    ensures Starts(p, OnStartAba(nd, Ids(p.n)))
  {
    StartMissingKeys(nd.abaRunning, Ids(p.n), 0);
  }

  /** The end of a turn of the main loop. */
  lemma FinishGoes(p: Params, i: int, nd: Node, net: set<Msg>)
    requires Starts(p, nd) && Hands(nd) && nd.out.None? && Tells(p, i, nd, net)
    ensures Goes(p, i, Finish(nd), net)
  {
  }

  /** A turn that only takes up a certificate, and passes it on. */
  lemma CertificateTells(p: Params, i: int, nd: Node, net: set<Msg>, o: Outcome)
    requires Starts(p, nd) && Hands(nd) && nd.out.None? && Tells(p, i, nd, net)
    requires o.node == nd.(sharesReceived := o.node.sharesReceived, receivedHash := o.node.receivedHash,
                           signature := o.node.signature)
    requires || (o.sent == [] && o.node.receivedHash == nd.receivedHash && o.node.signature == nd.signature)
             || (o.node.receivedHash.Some? && o.node.signature.Some?
                 && o.sent == [CertMsg(i, o.node.receivedHash.value, o.node.signature.value)])
    ensures Goes(p, i, Finish(o.node), net + Members(o.sent))
  {
    if o.sent != [] {
      assert o.sent[0] in Members(o.sent);
    }
    FinishGoes(p, i, o.node, net + Members(o.sent));
  }

  lemma MessageGoes(p: Params, i: int, nd: Node, net: set<Msg>, m: Msg, picked: set<int>)
    requires Starts(p, nd) && Hands(nd) && nd.out.None? && Tells(p, i, nd, net)
    ensures var o := OnMessage(p, i, nd, m, picked); Goes(p, i, Finish(o.node), net + Members(o.sent))
  {
    var o := OnMessage(p, i, nd, m, picked);
    if m.CommitMsg? {
      assert o == OnCommit(p, i, nd, m, picked);
    } else {
      assert o == OnCert(i, nd, m);
    }
    CertificateTells(p, i, nd, net, o);
  }

  lemma TurnGoes(c: Config, p: Params, bc: seq<Digest>, s: State, step: Step)
    requires |bc| == c.n == p.n && Enabled(c, p, bc, s, step) && !step.Forge?
    requires Goes(p, step.i, s.nodes[step.i], s.net)
    ensures var o := Turn(c, p, bc, s, step); Goes(p, step.i, o.node, s.net + Members(o.sent))
  {
    var nd := s.nodes[step.i];
    match step
    case RbcOutput(i, k, v, order) => RbcGoes(p, i, nd, s.net, k, v, order);
    case AbaOutput(i, k, one, order) => AbaGoes(p, i, nd, s.net, k, one, order);
    case TakeRbcDone(i) =>
      RbcDoneStarts(p, nd);
      FinishGoes(p, i, OnRbcDone(nd), s.net);
      assert s.net + Members([]) == s.net;
    case TakeStartAba(i) =>
      StartAbaStarts(p, nd);
      FinishGoes(p, i, OnStartAba(nd, Ids(c.n)), s.net);
      assert s.net + Members([]) == s.net;
    case TakeAcsOut(i) =>
      FinishGoes(p, i, OnAcsOut(nd), s.net);
      assert s.net + Members([]) == s.net;
    case Receive(i, m, picked) =>
      MessageGoes(p, i, nd, s.net, m, picked);
  }

  // ---- Every run

  lemma GoesOn(p: Params, i: int, nd: Node, net: set<Msg>, net1: set<Msg>)
    requires Goes(p, i, nd, net) && net <= net1
    ensures Goes(p, i, nd, net1)
  {
  }

  lemma StepGoes(c: Config, p: Params, bc: seq<Digest>, s: State, step: Step, i: int)
    requires |bc| == c.n == p.n && |s.nodes| == c.n && c.Honest(i) && Goes(p, i, s.nodes[i], s.net)
    ensures var s1 := Do(c, p, bc, s, step); |s1.nodes| == c.n && Goes(p, i, s1.nodes[i], s1.net)
  {
    var s1 := Do(c, p, bc, s, step);
    DoNode(c, p, bc, s, step, i);
    if Enabled(c, p, bc, s, step) && !step.Forge? && step.i == i {
      TurnGoes(c, p, bc, s, step);
    } else {
      GoesOn(p, i, s.nodes[i], s.net, s1.net);
    }
  }

  lemma {:induction false} RunGoes(c: Config, p: Params, bc: seq<Digest>, steps: seq<Step>, i: int)
    requires |bc| == c.n == p.n && p.t < p.n && c.Honest(i)
    ensures var s := Run(c, p, bc, steps); |s.nodes| == c.n && Goes(p, i, s.nodes[i], s.net)
  {
    if steps != [] {
      RunGoes(c, p, bc, steps[..|steps| - 1], i);
      StepGoes(c, p, bc, Run(c, p, bc, steps[..|steps| - 1]), steps[|steps| - 1], i);
    }
  }

  /** In every run an agreement that was started with 1 has its broadcast in, one that was started
      with 0 came after n-t ones, and there is no other. A broadcast that is in has its agreement
      running as soon as rbcDone has been read, and all agreements run once n-t have output 1 and
      startAba has been read. */
  lemma StartsExactly(c: Config, p: Params, bc: seq<Digest>, steps: seq<Step>, i: int, k: int)
    requires ValidSetup(c, p, bc) && p.t < p.n && c.Honest(i) && 0 <= k < c.n
    ensures |Run(c, p, bc, steps).nodes| == c.n
    ensures var nd := Run(c, p, bc, steps).nodes[i];
      && (k in nd.abaRunning ==> nd.abaRunning[k] == 0 || nd.abaRunning[k] == 1)
      && (k in nd.abaRunning && nd.abaRunning[k] == 1 ==> k in nd.rbcVals)
      && (k in nd.abaRunning && nd.abaRunning[k] == 0 ==> |nd.s| >= p.n - p.t)
      && (k in nd.rbcVals && k !in nd.rbcDone ==> k in nd.abaRunning)
      && (|nd.s| >= p.n - p.t && nd.startAba == 0 ==> k in nd.abaRunning)
  {
    RunGoes(c, p, bc, steps, i);
  }

  /** In every run a node has returned if and only if it has taken its list from acsOut and has a
      certificate for the list's hash, and it returns that list. Until it has taken the list it has
      committed to, that list is all there is in acsOut. */
  lemma ReturnsExactly(c: Config, p: Params, bc: seq<Digest>, steps: seq<Step>, i: int)
    requires ValidSetup(c, p, bc) && p.t < p.n && c.Honest(i)
    ensures |Run(c, p, bc, steps).nodes| == c.n
    ensures var nd := Run(c, p, bc, steps).nodes[i];
      && (nd.out.Some? <==> nd.acsFinished.Some? && nd.signature.Some?
                            && nd.receivedHash == Some(ListHash(nd.acsFinished.value)))
      && (nd.out.Some? ==> nd.out == nd.acsFinished)
      && nd.acsOut == (if nd.committed.Some? && nd.acsFinished.None? then [nd.committed.value.values] else [])
  {
    RunGoes(c, p, bc, steps, i);
  }

  /** In every run an honest member that has committed has sent its share on its list, and a node
      that has a certificate has sent it on. */
  lemma TellsExactly(c: Config, p: Params, bc: seq<Digest>, steps: seq<Step>, i: int)
    requires ValidSetup(c, p, bc) && p.t < p.n && c.Honest(i)
    ensures |Run(c, p, bc, steps).nodes| == c.n
    ensures var s := Run(c, p, bc, steps);
      var nd := s.nodes[i];
      && (nd.committed.Some? && i in p.committee ==>
            var values := nd.committed.value.values;
            CommitMsg(i, values, ListHash(values), OwnShare(i, ListHash(values)), OwnProof(i)) in s.net)
      && (nd.receivedHash.Some? ==>
            nd.signature.Some? && CertMsg(i, nd.receivedHash.value, nd.signature.value) in s.net)
  {
    RunGoes(c, p, bc, steps, i);
  }

  // ---- When a node has a certificate

  /** The messages that node i has handled in a run. */
  ghost function Received(c: Config, p: Params, bc: seq<Digest>, steps: seq<Step>, i: int): seq<Msg>
    requires |bc| == c.n
  {
    if steps == [] then []
    else
      var before, step := steps[..|steps| - 1], steps[|steps| - 1];
      Received(c, p, bc, before, i)
      + if step.Receive? && step.i == i && Enabled(c, p, bc, Run(c, p, bc, before), step) then [step.m] else []
  }

  /** The members that have shown a valid share on this hash. */
  ghost function Signers(p: Params, ms: seq<Msg>, hash: Digest): set<int> {
    set m | m in ms && m.CommitMsg? && Proves(p, m) && m.hash == hash :: m.sender
  }

  ghost predicate Ripe(p: Params, ms: seq<Msg>, hash: Digest) {
    |Signers(p, ms, hash)| >= p.tk + 1 && |Signers(p, ms, hash)| >= p.certK
  }

  ghost predicate SomeRipe(p: Params, ms: seq<Msg>) {
    exists hash :: Ripe(p, ms, hash)
  }

  predicate Certificate(m: Msg) {
    m.CertMsg? && m.sig.Verify(m.hash)
  }

  ghost predicate SomeCertificate(ms: seq<Msg>) {
    exists m :: m in ms && Certificate(m)
  }

  ghost predicate KnowsAs(p: Params, nd: Node, ms: seq<Msg>) {
    && (forall hash :: ShareSenders(nd.sharesReceived, hash) == Signers(p, ms, hash))
    && (nd.receivedHash.Some? <==> SomeRipe(p, ms) || SomeCertificate(ms))
    && (nd.receivedHash.Some? <==> nd.signature.Some?)
  }

  lemma SignersMore(p: Params, ms: seq<Msg>, m: Msg, hash: Digest)
    ensures Signers(p, ms + [m], hash) ==
            if m.CommitMsg? && ValidCommit(p, m) && m.hash == hash then Signers(p, ms, hash) + {m.sender}
            else Signers(p, ms, hash)
  {
    forall j ensures j in Signers(p, ms + [m], hash) <==>
                     j in Signers(p, ms, hash)
                     || (m.CommitMsg? && ValidCommit(p, m) && m.hash == hash && m.sender == j)
    {
      assert m in ms + [m];
    }
  }

  lemma CertificateMore(ms: seq<Msg>, m: Msg)
    ensures SomeCertificate(ms + [m]) <==> SomeCertificate(ms) || Certificate(m)
  {
    assert m in ms + [m];
  }

  lemma FiledSenders(nd: Node, m: Msg, hash: Digest)
    requires m.CommitMsg?
    ensures ShareSenders(Filed(nd, m), hash) ==
            if m.hash == hash then ShareSenders(nd.sharesReceived, hash) + {m.sender}
            else ShareSenders(nd.sharesReceived, hash)
  {
    forall j ensures j in ShareSenders(Filed(nd, m), hash) <==>
                     j in ShareSenders(nd.sharesReceived, hash) || (m.hash == hash && m.sender == j)
    {
      assert ShareKey(m.hash, m.sender) in Filed(nd, m);
      if j in ShareSenders(nd.sharesReceived, hash) {
        assert ShareKey(hash, j) in Filed(nd, m);
      }
    }
  }

  lemma ShareKnows(p: Params, i: int, nd: Node, ms: seq<Msg>, m: Msg, picked: set<int>)
    requires KnowsAs(p, nd, ms) && m.CommitMsg? && ValidCommit(p, m)
    ensures KnowsAs(p, OnCommit(p, i, nd, m, picked).node, ms + [m])
  {
    forall hash
      ensures ShareSenders(Filed(nd, m), hash) == Signers(p, ms + [m], hash)
      ensures hash != m.hash ==> (Ripe(p, ms + [m], hash) <==> Ripe(p, ms, hash))
      ensures Ripe(p, ms, hash) ==> Ripe(p, ms + [m], hash)
    {
      SignersMore(p, ms, m, hash);
      FiledSenders(nd, m, hash);
      SubsetSize(Signers(p, ms, hash), Signers(p, ms + [m], hash));
    }
    CertificateMore(ms, m);
    assert SomeRipe(p, ms + [m]) <==> SomeRipe(p, ms) || Ripe(p, ms + [m], m.hash);
  }

  lemma OtherKnows(p: Params, nd: Node, nd1: Node, ms: seq<Msg>, m: Msg)
    requires KnowsAs(p, nd, ms) && !(m.CommitMsg? && ValidCommit(p, m))
    requires nd1.sharesReceived == nd.sharesReceived
    requires nd1.receivedHash.Some? <==> nd.receivedHash.Some? || Certificate(m)
    requires nd1.receivedHash.Some? <==> nd1.signature.Some?
    ensures KnowsAs(p, nd1, ms + [m])
  {
    forall hash ensures Signers(p, ms + [m], hash) == Signers(p, ms, hash) {
      SignersMore(p, ms, m, hash);
    }
    assert forall hash :: Ripe(p, ms + [m], hash) <==> Ripe(p, ms, hash);
    assert SomeRipe(p, ms + [m]) <==> SomeRipe(p, ms);
    CertificateMore(ms, m);
  }

  lemma MessageKnows(p: Params, i: int, nd: Node, ms: seq<Msg>, m: Msg, picked: set<int>)
    requires KnowsAs(p, nd, ms)
    ensures KnowsAs(p, Finish(OnMessage(p, i, nd, m, picked).node), ms + [m])
  {
    if m.CommitMsg? && ValidCommit(p, m) {
      ShareKnows(p, i, nd, ms, m, picked);
    } else {
      OtherKnows(p, nd, OnMessage(p, i, nd, m, picked).node, ms, m);
    }
  }

  /** A turn that handles no message. */
  lemma IdleKnows(c: Config, p: Params, bc: seq<Digest>, s: State, step: Step)
    requires |bc| == c.n && Enabled(c, p, bc, s, step) && !step.Forge? && !step.Receive?
    ensures var nd, nd1 := s.nodes[step.i], Turn(c, p, bc, s, step).node;
      && nd1.sharesReceived == nd.sharesReceived
      && nd1.receivedHash == nd.receivedHash && nd1.signature == nd.signature
  {
    var nd := s.nodes[step.i];
    match step
    case RbcOutput(i, k, v, order) =>
      HandlerCases(p, i, nd.(rbcVals := nd.rbcVals[k := v], rbcDone := nd.rbcDone + [k]), order);
    case AbaOutput(i, k, one, order) => HandlerCases(p, i, AfterAba(p, nd, k, one), order);
    case _ =>
  }

  lemma ReceivedMore(c: Config, p: Params, bc: seq<Digest>, steps: seq<Step>, i: int)
    requires |bc| == c.n && steps != []
    ensures var before, step := steps[..|steps| - 1], steps[|steps| - 1];
      var ms := Received(c, p, bc, before, i);
      Received(c, p, bc, steps, i) ==
      if step.Receive? && step.i == i && Enabled(c, p, bc, Run(c, p, bc, before), step) then ms + [step.m] else ms
  {
  }

  lemma {:induction false} RunKnows(c: Config, p: Params, bc: seq<Digest>, steps: seq<Step>, i: int)
    requires |bc| == c.n && c.Honest(i)
    ensures |Run(c, p, bc, steps).nodes| == c.n
    ensures KnowsAs(p, Run(c, p, bc, steps).nodes[i], Received(c, p, bc, steps, i))
  {
    if steps == [] {
      assert forall hash :: Signers(p, [], hash) == {} == ShareSenders(map[], hash);
    } else {
      var before, step := steps[..|steps| - 1], steps[|steps| - 1];
      RunKnows(c, p, bc, before, i);
      var s := Run(c, p, bc, before);
      DoNode(c, p, bc, s, step, i);
      ReceivedMore(c, p, bc, steps, i);
      if Enabled(c, p, bc, s, step) && !step.Forge? && step.i == i {
        if step.Receive? {
          MessageKnows(p, i, s.nodes[i], Received(c, p, bc, before, i), step.m, step.picked);
        } else {
          IdleKnows(c, p, bc, s, step);
        }
      }
    }
  }

  /** In every run an honest node has a certificate if and only if it has handled one that verifies,
      or valid shares on one hash of enough members for the program's threshold and for a join. */
  lemma CertificateExactly(c: Config, p: Params, bc: seq<Digest>, steps: seq<Step>, i: int)
    requires ValidSetup(c, p, bc) && c.Honest(i)
    ensures |Run(c, p, bc, steps).nodes| == c.n
    ensures var nd, ms := Run(c, p, bc, steps).nodes[i], Received(c, p, bc, steps, i);
      && (nd.receivedHash.Some? <==> nd.signature.Some?)
      && (nd.receivedHash.Some? <==> SomeRipe(p, ms) || SomeCertificate(ms))
  {
    RunKnows(c, p, bc, steps, i);
  }
}
