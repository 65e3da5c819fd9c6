/** The coin server: it stores requests per instance and, once enough senders have asked, answers
    with a bit of the hash of the joined signature on the round number. */
module CommonCoin {
  import Quorums
  import opened Blocks

  type Bit = b: int | b == 0 || b == 1

  /** One binary agreement in one protocol round. */
  datatype Key = Key(uround: int, round: int, instance: int)

  datatype Request = Request(key: Key, sender: int, sig: SigShare)

  datatype Answer = Answer(request: Request, val: Bit)

  /** One entry of coinVals. */
  datatype Slot = Slot(uround: int, round: int)

  /** One entry of the table of stored requests. */
  datatype Place = Place(key: Key, sender: int)

  datatype Server = Server(
    received: map<Place, Request>,
    alreadySent: set<Key>,
    coinVals: map<Slot, Bit>,
    answers: set<Answer>)

  /** lsb is the last bit of the hash of a signature. */
  datatype Params = Params(n: nat, lsb: Signature -> Bit)

  const INITIAL := Server(map[], {}, map[], {})

  predicate ValidSig(r: Request) {
    r.sig.Verify(OfNumber(r.key.round))
  }

  function Stored(received: map<Place, Request>, key: Key): set<Request> {
    set x | x in received && x.key == key :: received[x]
  }

  function StoredSenders(received: map<Place, Request>, key: Key): set<int> {
    set x | x in received && x.key == key :: x.sender
  }

  /** The keys that the stored shares were made with. */
  function Ids(requests: set<Request>): set<int> {
    set r | r in requests :: r.sig.id
  }

  /** No two of the shares were made with one key. */
  predicate NoKeyTwice(requests: set<Request>) {
    forall r, q :: r in requests && q in requests && r.sig.id == q.sig.id ==> r == q
  }

  /** Every share verifies, and any n/2+1 of them are of different keys. */
  predicate Joinable(p: Params, requests: set<Request>, round: int) {
    && (forall r :: r in requests ==> r.sig.Verify(OfNumber(round)))
    && |Ids(requests)| >= p.n / 2 + 1 && (p.n / 2 + 1 == 1 || NoKeyTwice(requests))
  }

  /** Joining such shares gives the signature on the round; what comes out of others is open. */
  predicate JoinGives(p: Params, requests: set<Request>, round: int, certificate: Option<Signature>) {
    Joinable(p, requests, round) ==> certificate == Some(Joined(OfNumber(round)))
  }

  /** One turn of the server's loop; certificate is what joining the stored shares gives. */
  function Serve(p: Params, s: Server, r: Request, certificate: Option<Signature>): Server {
    var key, slot := r.key, Slot(r.key.uround, r.key.round);
    var received := s.received[Place(key, r.sender) := r];
    var s1 := s.(received := received);
    if !ValidSig(r) || |StoredSenders(received, key)| < p.n / 2 + 1 then s1
    else if key in s.alreadySent then
      // a missing entry reads as 0
      s1.(answers := s.answers + {Answer(r, if slot in s.coinVals then s.coinVals[slot] else 0)})
    else if certificate.None? then s1
    else
      var bit := p.lsb(certificate.value);
      s1.(alreadySent := s.alreadySent + {key},
          coinVals := s.coinVals[slot := bit],
          answers := s.answers + set x | x in Stored(received, key) :: Answer(x, bit))
  }

  /** A request and what joining gives when it is handled. */
  datatype Turn = Turn(request: Request, certificate: Option<Signature>)

  function Run(p: Params, turns: seq<Turn>): Server {
    if turns == [] then INITIAL
    else
      var last := turns[|turns| - 1];
      Serve(p, Run(p, turns[..|turns| - 1]), last.request, last.certificate)
  }

  /** Every join in the run gives what it has to give. */
  ghost predicate Joins(p: Params, turns: seq<Turn>) {
    forall k | 0 <= k < |turns| ::
      var r := turns[k].request;
      JoinGives(p, Stored(Run(p, turns[..k + 1]).received, r.key), r.key.round, turns[k].certificate)
  }

  // ---- The senders that have asked

  function Asked(turns: seq<Turn>, key: Key): set<int> {
    set k | 0 <= k < |turns| && turns[k].request.key == key :: turns[k].request.sender
  }

  lemma AskedGrows(turns: seq<Turn>, turn: Turn, key: Key)
    ensures Asked(turns + [turn], key) ==
            Asked(turns, key) + if turn.request.key == key then {turn.request.sender} else {}
  {
    var all := turns + [turn];
    forall x | x in Asked(turns, key) ensures x in Asked(all, key) {
      var k :| 0 <= k < |turns| && turns[k].request.key == key && turns[k].request.sender == x;
      assert all[k] == turns[k];
    }
    assert all[|turns|] == turn;
  }

  lemma SplitLast(turns: seq<Turn>)
    requires turns != []
    ensures turns == turns[..|turns| - 1] + [turns[|turns| - 1]]
  {
  }

  /** What is stored: the last request of each sender that has asked, whatever its signature. */
  lemma {:induction false} StoredAre(p: Params, turns: seq<Turn>, key: Key)
    ensures StoredSenders(Run(p, turns).received, key) == Asked(turns, key)
    ensures forall x :: x in Run(p, turns).received ==>
              var r := Run(p, turns).received[x];
              r.key == x.key && r.sender == x.sender && exists k :: 0 <= k < |turns| && turns[k].request == r
  {
    if turns != [] {
      var before, last := turns[..|turns| - 1], turns[|turns| - 1];
      StoredAre(p, before, key);
      SplitLast(turns);
      AskedGrows(before, last, key);
      var received := Run(p, turns).received;
      assert received == Run(p, before).received[Place(last.request.key, last.request.sender) := last.request];
      forall x | x in received
        ensures received[x].key == x.key && received[x].sender == x.sender
        ensures exists k :: 0 <= k < |turns| && turns[k].request == received[x]
      {
        if received[x] == last.request {
          assert turns[|turns| - 1].request == received[x];
        } else {
          var k :| 0 <= k < |before| && before[k].request == received[x];
          assert turns[k].request == received[x];
        }
      }
      forall i ensures i in StoredSenders(received, key) <==> i in Asked(turns, key) {
        assert i in StoredSenders(Run(p, before).received, key) <==> Place(key, i) in Run(p, before).received;
        assert i in StoredSenders(received, key) <==> Place(key, i) in received;
      }
    }
  }

  /** No answer before n/2+1 distinct senders have asked, in any run with any requests. */
  lemma {:induction false} Threshold(p: Params, turns: seq<Turn>, a: Answer)
    requires a in Run(p, turns).answers
    ensures |Asked(turns, a.request.key)| >= p.n / 2 + 1
    ensures exists k :: 0 <= k < |turns| && turns[k].request == a.request
  {
    var before, last := turns[..|turns| - 1], turns[|turns| - 1];
    SplitLast(turns);
    if a in Run(p, before).answers {
      Threshold(p, before, a);
      AskedGrows(before, last, a.request.key);
      Quorums.SubsetSize(Asked(before, a.request.key), Asked(turns, a.request.key));
      var k :| 0 <= k < |before| && before[k].request == a.request;
      assert turns[k].request == a.request;
    } else {
      StoredAre(p, turns, last.request.key);
      assert turns[|turns| - 1].request == last.request;
    }
  }

  // ---- What the requests alone decide

  function Requests(turns: seq<Turn>): seq<Request> {
    seq(|turns|, k requires 0 <= k < |turns| => turns[k].request)
  }

  /** The stored requests. */
  function Table(rs: seq<Request>): map<Place, Request> {
    if rs == [] then map[]
    else
      var r := rs[|rs| - 1];
      Table(rs[..|rs| - 1])[Place(r.key, r.sender) := r]
  }

  lemma TableOne(rs: seq<Request>, r: Request)
    ensures Table(rs + [r]) == Table(rs)[Place(r.key, r.sender) := r]
  {
    assert (rs + [r])[..|rs|] == rs;
  }

  lemma RequestsOne(turns: seq<Turn>, turn: Turn)
    ensures Requests(turns + [turn]) == Requests(turns) + [turn.request]
  {
  }

  lemma RunOne(p: Params, turns: seq<Turn>, turn: Turn)
    ensures Run(p, turns + [turn]) == Serve(p, Run(p, turns), turn.request, turn.certificate)
  {
    assert (turns + [turn])[..|turns|] == turns;
  }

  lemma {:induction false} TableIs(p: Params, turns: seq<Turn>)
    ensures Run(p, turns).received == Table(Requests(turns))
  {
    if turns != [] {
      var before, last := turns[..|turns| - 1], turns[|turns| - 1];
      SplitLast(turns);
      TableIs(p, before);
      RequestsOne(before, last);
      TableOne(Requests(before), last.request);
    }
  }

  lemma {:induction false} Filed(rs: seq<Request>)
    ensures forall x :: x in Table(rs) ==>
              Table(rs)[x].key == x.key && Table(rs)[x].sender == x.sender && Table(rs)[x] in rs
  {
    if rs != [] {
      Filed(rs[..|rs| - 1]);
    }
  }

  lemma {:induction false} AllFiled(rs: seq<Request>)
    ensures forall r :: r in rs ==> Place(r.key, r.sender) in Table(rs)
  {
    if rs != [] {
      AllFiled(rs[..|rs| - 1]);
      assert rs == rs[..|rs| - 1] + [rs[|rs| - 1]];
    }
  }

  /** The k-th request is valid and finds enough senders stored, so that the server answers or joins. */
  predicate Ripe(p: Params, rs: seq<Request>, k: nat)
    requires k < |rs|
  {
    ValidSig(rs[k]) && |StoredSenders(Table(rs[..k + 1]), rs[k].key)| >= p.n / 2 + 1
  }

  ghost predicate Ripened(p: Params, rs: seq<Request>, key: Key) {
    exists k :: 0 <= k < |rs| && rs[k].key == key && Ripe(p, rs, k)
  }

  /** The k-th request is the first of its instance to be ripe: what is stored then is joined. */
  ghost predicate First(p: Params, rs: seq<Request>, k: nat)
    requires k < |rs|
  {
    Ripe(p, rs, k) && !Ripened(p, rs[..k], rs[k].key)
  }

  /** What is stored when the k-th request has come joins to the round's signature. */
  ghost predicate JoinsWell(p: Params, rs: seq<Request>, k: nat)
    requires k < |rs|
  {
    Joinable(p, Stored(Table(rs[..k + 1]), rs[k].key), rs[k].key.round)
  }

  function SlotOf(key: Key): Slot {
    Slot(key.uround, key.round)
  }

  /** Whenever an instance of the slot is first joined, every stored share verifies and no key is
      among them twice. Requests for other slots do not matter. */
  ghost predicate CleanSlot(p: Params, rs: seq<Request>, slot: Slot) {
    forall k :: 0 <= k < |rs| && SlotOf(rs[k].key) == slot && First(p, rs, k) ==> JoinsWell(p, rs, k)
  }

  ghost predicate CleanKey(p: Params, rs: seq<Request>, key: Key) {
    forall k :: 0 <= k < |rs| && rs[k].key == key && First(p, rs, k) ==> JoinsWell(p, rs, k)
  }

  lemma RipePrefix(p: Params, rs: seq<Request>, m: nat, k: nat)
    requires k < m <= |rs|
    ensures Ripe(p, rs[..m], k) <==> Ripe(p, rs, k)
  {
    assert rs[..m][..k + 1] == rs[..k + 1];
  }

  lemma RipenedOne(p: Params, rs: seq<Request>, r: Request, key: Key)
    ensures var all := rs + [r];
      Ripened(p, all, key) <==> Ripened(p, rs, key) || (r.key == key && Ripe(p, all, |rs|))
  {
    var all := rs + [r];
    assert all[..|rs|] == rs;
    forall k | 0 <= k < |rs| ensures Ripe(p, rs, k) <==> Ripe(p, all, k) {
      RipePrefix(p, all, |rs|, k);
    }
    if k :| 0 <= k < |rs| && rs[k].key == key && Ripe(p, rs, k) {
      assert all[k].key == key && Ripe(p, all, k);
    }
    if k :| 0 <= k < |all| && all[k].key == key && Ripe(p, all, k) {
      assert k < |rs| ==> rs[k].key == key && Ripe(p, rs, k);
    }
  }

  lemma FirstLast(p: Params, rs: seq<Request>, r: Request)
    ensures var all := rs + [r];
      First(p, all, |rs|) <==> Ripe(p, all, |rs|) && !Ripened(p, rs, r.key)
  {
    assert (rs + [r])[..|rs|] == rs;
  }

  lemma FirstPrefix(p: Params, rs: seq<Request>, m: nat, k: nat)
    requires k < m <= |rs|
    ensures First(p, rs[..m], k) <==> First(p, rs, k)
    ensures JoinsWell(p, rs[..m], k) <==> JoinsWell(p, rs, k)
  {
    RipePrefix(p, rs, m, k);
    assert rs[..m][..k] == rs[..k] && rs[..m][..k + 1] == rs[..k + 1];
  }

  lemma CleanBefore(p: Params, rs: seq<Request>, m: nat, slot: Slot)
    requires m <= |rs| && CleanSlot(p, rs, slot)
    ensures CleanSlot(p, rs[..m], slot)
  {
    forall k | 0 <= k < m && SlotOf(rs[k].key) == slot && First(p, rs[..m], k) ensures JoinsWell(p, rs[..m], k) {
      FirstPrefix(p, rs, m, k);
    }
  }

  lemma CleanKeyBefore(p: Params, rs: seq<Request>, m: nat, key: Key)
    requires m <= |rs| && CleanKey(p, rs, key)
    ensures CleanKey(p, rs[..m], key)
  {
    forall k | 0 <= k < m && rs[k].key == key && First(p, rs[..m], k) ensures JoinsWell(p, rs[..m], k) {
      FirstPrefix(p, rs, m, k);
    }
  }

  lemma RipeIs(p: Params, rs: seq<Request>, r: Request)
    ensures Ripe(p, rs + [r], |rs|) <==>
            ValidSig(r) && |StoredSenders(Table(rs)[Place(r.key, r.sender) := r], r.key)| >= p.n / 2 + 1
    ensures JoinsWell(p, rs + [r], |rs|) <==>
            Joinable(p, Stored(Table(rs)[Place(r.key, r.sender) := r], r.key), r.key.round)
  {
    TableOne(rs, r);
    assert (rs + [r])[..|rs| + 1] == rs + [r];
  }

  // ---- The bit of a slot

  function Coin(p: Params, round: int): Bit {
    p.lsb(Joined(OfNumber(round)))
  }

  /** All answers of the slot carry the round's coin. */
  ghost predicate AllCoin(p: Params, s: Server, slot: Slot) {
    forall a :: a in s.answers && SlotOf(a.request.key) == slot ==> a.val == Coin(p, slot.round)
  }

  ghost predicate Right(p: Params, s: Server, slot: Slot) {
    && AllCoin(p, s, slot)
    && (slot in s.coinVals ==> s.coinVals[slot] == Coin(p, slot.round))
    && (forall key :: SlotOf(key) == slot && key in s.alreadySent ==> slot in s.coinVals)
  }

  /** An instance is served from its first join on. */
  ghost predicate Tracked(p: Params, rs: seq<Request>, s: Server, slot: Slot) {
    forall key :: SlotOf(key) == slot ==> (key in s.alreadySent <==> Ripened(p, rs, key))
  }

  lemma ServeRight(p: Params, s: Server, r: Request, certificate: Option<Signature>, slot: Slot)
    requires Right(p, s, slot)
    requires var received := s.received[Place(r.key, r.sender) := r];
      && (forall x :: x in Stored(received, r.key) ==> x.key == r.key)
      && (SlotOf(r.key) == slot && r.key !in s.alreadySent && ValidSig(r)
          && |StoredSenders(received, r.key)| >= p.n / 2 + 1 ==>
            certificate == Some(Joined(OfNumber(r.key.round))))
    ensures Right(p, Serve(p, s, r, certificate), slot)
  {
  }

  /** An instance is marked as served by a turn that joins. */
  lemma ServeMarks(p: Params, s: Server, r: Request, certificate: Option<Signature>, key: Key)
    ensures key in Serve(p, s, r, certificate).alreadySent <==>
            || key in s.alreadySent
            || (key == r.key && ValidSig(r) && certificate.Some?
                && |StoredSenders(s.received[Place(key, r.sender) := r], key)| >= p.n / 2 + 1)
  {
  }

  lemma TrackOne(p: Params, rs: seq<Request>, s: Server, r: Request, certificate: Option<Signature>, key: Key)
    requires (key in s.alreadySent <==> Ripened(p, rs, key)) && s.received == Table(rs)
    requires key == r.key && First(p, rs + [r], |rs|) ==> certificate.Some?
    ensures key in Serve(p, s, r, certificate).alreadySent <==> Ripened(p, rs + [r], key)
  {
    ServeMarks(p, s, r, certificate, key);
    RipeIs(p, rs, r);
    FirstLast(p, rs, r);
    RipenedOne(p, rs, r, key);
  }

  lemma ServeTracked(p: Params, rs: seq<Request>, s: Server, r: Request, certificate: Option<Signature>, slot: Slot)
    requires Tracked(p, rs, s, slot) && s.received == Table(rs)
    requires SlotOf(r.key) == slot && First(p, rs + [r], |rs|) ==> certificate.Some?
    ensures Tracked(p, rs + [r], Serve(p, s, r, certificate), slot)
  {
    forall key | SlotOf(key) == slot
      ensures key in Serve(p, s, r, certificate).alreadySent <==> Ripened(p, rs + [r], key)
    {
      TrackOne(p, rs, s, r, certificate, key);
    }
  }

  /** One turn, with the table as it then is. */
  lemma TurnKeepsSlot(p: Params, rs: seq<Request>, s: Server, r: Request, certificate: Option<Signature>, slot: Slot)
    requires Right(p, s, slot) && Tracked(p, rs, s, slot) && s.received == Table(rs)
    requires SlotOf(r.key) == slot && First(p, rs + [r], |rs|) ==> certificate == Some(Joined(OfNumber(r.key.round)))
    ensures Right(p, Serve(p, s, r, certificate), slot) && Tracked(p, rs + [r], Serve(p, s, r, certificate), slot)
  {
    ServeTracked(p, rs, s, r, certificate, slot);
    RipeIs(p, rs, r);
    FirstLast(p, rs, r);
    TableOne(rs, r);
    Filed(rs + [r]);
    ServeRight(p, s, r, certificate, slot);
  }

  lemma JoinsBefore(p: Params, turns: seq<Turn>)
    requires turns != [] && Joins(p, turns)
    ensures Joins(p, turns[..|turns| - 1])
    ensures var r := turns[|turns| - 1].request;
      JoinGives(p, Stored(Run(p, turns).received, r.key), r.key.round, turns[|turns| - 1].certificate)
  {
    var before := turns[..|turns| - 1];
    assert turns[..|turns| - 1 + 1] == turns;
    forall k | 0 <= k < |before| ensures before[..k + 1] == turns[..k + 1] && before[k] == turns[k] {
    }
  }

  lemma JoinsOne(p: Params, turns: seq<Turn>, turn: Turn)
    requires Joins(p, turns)
    requires JoinGives(p, Stored(Table(Requests(turns) + [turn.request]), turn.request.key), turn.request.key.round,
                       turn.certificate)
    ensures Joins(p, turns + [turn])
  {
    var all := turns + [turn];
    TableIs(p, all);
    RequestsOne(turns, turn);
    forall k | 0 <= k < |all|
      ensures var r := all[k].request;
        JoinGives(p, Stored(Run(p, all[..k + 1]).received, r.key), r.key.round, all[k].certificate)
    {
      if k < |turns| {
        assert all[..k + 1] == turns[..k + 1];
      } else {
        assert all[..k + 1] == all;
      }
    }
  }

  /** What joining gives at the last turn, if that is the first join of its instance. */
  lemma FirstCertificate(p: Params, before: seq<Turn>, last: Turn)
    requires Joins(p, before + [last])
    requires JoinsWell(p, Requests(before) + [last.request], |before|)
    ensures last.certificate == Some(Joined(OfNumber(last.request.key.round)))
  {
    var all := before + [last];
    JoinsBefore(p, all);
    TableIs(p, all);
    RequestsOne(before, last);
    assert (Requests(before) + [last.request])[..|before| + 1] == Requests(before) + [last.request];
  }

  lemma {:induction false} RunSlot(p: Params, turns: seq<Turn>, slot: Slot)
    requires Joins(p, turns) && CleanSlot(p, Requests(turns), slot)
    ensures Right(p, Run(p, turns), slot) && Tracked(p, Requests(turns), Run(p, turns), slot)
  {
    if turns == [] {
      assert forall key :: !Ripened(p, [], key);
    } else {
      var before, last := turns[..|turns| - 1], turns[|turns| - 1];
      var rs := Requests(before);
      SplitLast(turns);
      JoinsBefore(p, turns);
      RequestsOne(before, last);
      assert Requests(turns)[..|rs|] == rs;
      CleanBefore(p, Requests(turns), |rs|, slot);
      RunSlot(p, before, slot);
      TableIs(p, before);
      RunOne(p, before, last);
      if SlotOf(last.request.key) == slot && First(p, rs + [last.request], |rs|) {
        FirstCertificate(p, before, last);
      }
      TurnKeepsSlot(p, rs, Run(p, before), last.request, last.certificate, slot);
    }
  }

  // ---- What a bad join can do

  lemma ServeAdds(p: Params, s: Server, r: Request, certificate: Option<Signature>)
    ensures s.answers <= Serve(p, s, r, certificate).answers
  {
  }

  /** Joining may always give the signature, so every run goes on with any further requests. */
  function Usually(rs: seq<Request>): seq<Turn> {
    seq(|rs|, k requires 0 <= k < |rs| => Usual(rs[k]))
  }

  lemma UsuallyOne(turns: seq<Turn>, rs: seq<Request>)
    requires rs != []
    ensures turns + Usually(rs) == (turns + Usually(rs[..|rs| - 1])) + [Usual(rs[|rs| - 1])]
  {
  }

  lemma {:induction false} ExtendJoins(p: Params, turns: seq<Turn>, rs: seq<Request>)
    requires Joins(p, turns)
    ensures Joins(p, turns + Usually(rs))
  {
    if rs == [] {
      assert turns + Usually(rs) == turns;
    } else {
      ExtendJoins(p, turns, rs[..|rs| - 1]);
      JoinsOne(p, turns + Usually(rs[..|rs| - 1]), Usual(rs[|rs| - 1]));
      UsuallyOne(turns, rs);
    }
  }

  lemma {:induction false} ExtendAnswers(p: Params, turns: seq<Turn>, rs: seq<Request>, a: Answer)
    requires a in Run(p, turns).answers
    ensures a in Run(p, turns + Usually(rs)).answers
  {
    if rs == [] {
      assert turns + Usually(rs) == turns;
    } else {
      ExtendAnswers(p, turns, rs[..|rs| - 1], a);
      AnswerStays(p, turns + Usually(rs[..|rs| - 1]), Usual(rs[|rs| - 1]), a);
      UsuallyOne(turns, rs);
    }
  }

  lemma AnswerStays(p: Params, turns: seq<Turn>, turn: Turn, a: Answer)
    requires a in Run(p, turns).answers
    ensures a in Run(p, turns + [turn]).answers
  {
    RunOne(p, turns, turn);
    ServeAdds(p, Run(p, turns), turn.request, turn.certificate);
  }

  lemma UsualRequests(turns: seq<Turn>, rs: seq<Request>)
    ensures Requests(turns + Usually(rs)) == Requests(turns) + rs
  {
  }

  function Usual(r: Request): Turn {
    Turn(r, Some(Joined(OfNumber(r.key.round))))
  }

  lemma {:induction false} SentRipened(p: Params, turns: seq<Turn>, key: Key)
    ensures key in Run(p, turns).alreadySent ==> Ripened(p, Requests(turns), key)
  {
    if turns != [] {
      var before, last := turns[..|turns| - 1], turns[|turns| - 1];
      SplitLast(turns);
      SentRipened(p, before, key);
      RunOne(p, before, last);
      RequestsOne(before, last);
      TableIs(p, before);
      RipeIs(p, Requests(before), last.request);
      RipenedOne(p, Requests(before), last.request, key);
    }
  }

  /** Only instances that have been served have answers. */
  lemma {:induction false} AnswersSent(p: Params, turns: seq<Turn>, a: Answer)
    requires a in Run(p, turns).answers
    ensures a.request.key in Run(p, turns).alreadySent
  {
    var before, last := turns[..|turns| - 1], turns[|turns| - 1];
    SplitLast(turns);
    RunOne(p, before, last);
    if a in Run(p, before).answers {
      AnswersSent(p, before, a);
    } else {
      TableIs(p, turns);
      Filed(Requests(turns));
    }
  }

  /** If the first join of an instance is a bad one, it may give any certificate. */
  lemma BadJoin(p: Params, rs: seq<Request>, k: nat, certificate: Option<Signature>) returns (turns: seq<Turn>)
    requires k < |rs| && First(p, rs, k) && !JoinsWell(p, rs, k)
    ensures Joins(p, turns) && Requests(turns) == rs[..k + 1]
    ensures certificate.Some? ==> Answer(rs[k], p.lsb(certificate.value)) in Run(p, turns).answers
    ensures certificate.None? ==> forall a :: a in Run(p, turns).answers ==> a.request.key != rs[k].key
  {
    var r := rs[k];
    var before := [] + Usually(rs[..k]);
    ExtendJoins(p, [], rs[..k]);
    UsualRequests([], rs[..k]);
    assert Requests(before) == rs[..k];
    assert rs[..k + 1] == rs[..k] + [r];
    var last := Turn(r, certificate);
    JoinsOne(p, before, last);
    turns := before + [last];
    RequestsOne(before, last);
    RunOne(p, before, last);
    TableIs(p, before);
    FirstPrefix(p, rs, k + 1, k);
    RipeIs(p, rs[..k], r);
    RipePrefix(p, rs, k + 1, k);
    SentRipened(p, before, r.key);
    forall a | a in Run(p, before).answers ensures a.request.key != r.key {
      AnswersSent(p, before, a);
    }
    var received := Table(rs[..k])[Place(r.key, r.sender) := r];
    assert received[Place(r.key, r.sender)] == r;
    assert r in Stored(received, r.key);
  }

  /** Every run on these requests gives all answers of the slot the round's coin. */
  ghost predicate AlwaysCoin(p: Params, rs: seq<Request>, slot: Slot) {
    forall turns :: Joins(p, turns) && Requests(turns) == rs ==> AllCoin(p, Run(p, turns), slot)
  }

  /** Consistency, exactly: for any requests, all answers of a slot are the round's coin in every run
      if and only if no instance of the slot is first joined with a share that does not verify or a
      key that is there twice. */
  lemma OneBit(p: Params, rs: seq<Request>, slot: Slot, a: Signature, b: Signature)
    requires p.lsb(a) != p.lsb(b)
    ensures AlwaysCoin(p, rs, slot) <==> CleanSlot(p, rs, slot)
  {
    if CleanSlot(p, rs, slot) {
      forall turns | Joins(p, turns) && Requests(turns) == rs ensures AllCoin(p, Run(p, turns), slot) {
        RunSlot(p, turns, slot);
      }
    }
    if k :| 0 <= k < |rs| && SlotOf(rs[k].key) == slot && First(p, rs, k) && !JoinsWell(p, rs, k) {
      var turns := WrongBit(p, rs, k, if p.lsb(a) == Coin(p, slot.round) then b else a);
      assert !AllCoin(p, Run(p, turns), slot);
    }
  }

  lemma WrongBit(p: Params, rs: seq<Request>, k: nat, wrong: Signature) returns (turns: seq<Turn>)
    requires k < |rs| && First(p, rs, k) && !JoinsWell(p, rs, k)
    ensures Joins(p, turns) && Requests(turns) == rs && Answer(rs[k], p.lsb(wrong)) in Run(p, turns).answers
  {
    var before := BadJoin(p, rs, k, Some(wrong));
    turns := before + Usually(rs[k + 1..]);
    ExtendJoins(p, before, rs[k + 1..]);
    ExtendAnswers(p, before, rs[k + 1..], Answer(rs[k], p.lsb(wrong)));
    UsualRequests(before, rs[k + 1..]);
    assert rs == rs[..k + 1] + rs[k + 1..];
  }

  /** All answers for a round carry one bit, across instances and protocol rounds, in every run
      whose slots of the round are clean. */
  lemma OneBitPerRound(p: Params, turns: seq<Turn>, round: int)
    requires Joins(p, turns)
    requires forall slot: Slot :: slot.round == round ==> CleanSlot(p, Requests(turns), slot)
    ensures forall a | a in Run(p, turns).answers && a.request.key.round == round :: a.val == Coin(p, round)
  {
    forall a | a in Run(p, turns).answers && a.request.key.round == round ensures a.val == Coin(p, round) {
      RunSlot(p, turns, SlotOf(a.request.key));
    }
  }

  // ---- Shares of one's own

  /** The sender's own share on the round number. */
  predicate Proper(r: Request) {
    r.sig == SigShare(r.sender + 1, OfNumber(r.key.round))
  }

  /** Own shares of n/2+1 senders join to the round's signature. */
  lemma ProperJoins(p: Params, rs: seq<Request>, k: nat)
    requires k < |rs| && Ripe(p, rs, k)
    requires forall r :: r in rs && r.key == rs[k].key ==> Proper(r)
    ensures JoinsWell(p, rs, k)
  {
    var key, table := rs[k].key, Table(rs[..k + 1]);
    Filed(rs[..k + 1]);
    var ids := Ids(Stored(table, key));
    var senders := StoredSenders(table, key);
    forall i | i in senders ensures i + 1 in ids {
      var x :| x in table && x.key == key && x.sender == i;
      assert table[x] in Stored(table, key) && table[x] in rs[..k + 1];
      assert table[x].sig.id == i + 1;
    }
    assert Quorums.Moved(senders, 1) <= ids;
    Quorums.MovedSize(senders, 1);
    Quorums.SubsetSize(Quorums.Moved(senders, 1), ids);
  }

  /** A slot whose requests all carry the sender's own share is clean, whatever the other slots get. */
  lemma ProperClean(p: Params, rs: seq<Request>, slot: Slot)
    requires forall r :: r in rs && SlotOf(r.key) == slot ==> Proper(r)
    ensures CleanSlot(p, rs, slot)
  {
    forall k | 0 <= k < |rs| && SlotOf(rs[k].key) == slot && First(p, rs, k) ensures JoinsWell(p, rs, k) {
      ProperJoins(p, rs, k);
    }
  }

  // ---- Service

  /** A sender has had an answer for an instance. */
  ghost predicate Got(s: Server, key: Key, sender: int) {
    exists a :: a in s.answers && a.request.key == key && a.request.sender == sender
  }

  ghost predicate KeyInv(p: Params, rs: seq<Request>, s: Server, key: Key) {
    && (key in s.alreadySent <==> Ripened(p, rs, key))
    && (key in s.alreadySent ==>
          |StoredSenders(s.received, key)| >= p.n / 2 + 1
          && forall r :: r in rs && r.key == key && ValidSig(r) ==> Got(s, key, r.sender))
  }

  lemma SendersAfter(received: map<Place, Request>, r: Request, key: Key)
    ensures var received1 := received[Place(r.key, r.sender) := r];
      StoredSenders(received, key) <= StoredSenders(received1, key)
      && |StoredSenders(received, key)| <= |StoredSenders(received1, key)|
  {
    Quorums.SubsetSize(StoredSenders(received, key), StoredSenders(received[Place(r.key, r.sender) := r], key));
  }

  lemma GotGrows(s: Server, s1: Server, key: Key, sender: int)
    requires s.answers <= s1.answers
    ensures Got(s, key, sender) ==> Got(s1, key, sender)
  {
    if Got(s, key, sender) {
      var a :| a in s.answers && a.request.key == key && a.request.sender == sender;
      assert a in s1.answers;
    }
  }

  /** The first join answers everybody who has asked. */
  lemma FirstServes(p: Params, rs: seq<Request>, s: Server, r: Request, certificate: Option<Signature>)
    requires s.received == Table(rs) && r.key !in s.alreadySent && Ripe(p, rs + [r], |rs|) && certificate.Some?
    ensures forall x :: x in rs + [r] && x.key == r.key ==> Got(Serve(p, s, r, certificate), r.key, x.sender)
  {
    RipeIs(p, rs, r);
    TableOne(rs, r);
    Filed(rs + [r]);
    AllFiled(rs + [r]);
    var received := Table(rs + [r]);
    forall x | x in rs + [r] && x.key == r.key ensures Got(Serve(p, s, r, certificate), r.key, x.sender) {
      var y := received[Place(x.key, x.sender)];
      assert y in Stored(received, r.key);
      assert Answer(y, p.lsb(certificate.value)) in Serve(p, s, r, certificate).answers;
    }
  }

  /** A valid request of an instance that has been served is answered at once. */
  lemma LateServes(p: Params, rs: seq<Request>, s: Server, r: Request, certificate: Option<Signature>)
    requires s.received == Table(rs) && r.key in s.alreadySent && ValidSig(r)
    requires |StoredSenders(s.received, r.key)| >= p.n / 2 + 1
    ensures Ripe(p, rs + [r], |rs|) && Got(Serve(p, s, r, certificate), r.key, r.sender)
  {
    RipeIs(p, rs, r);
    SendersAfter(s.received, r, r.key);
    var slot := Slot(r.key.uround, r.key.round);
    var val := if slot in s.coinVals then s.coinVals[slot] else 0;
    assert Answer(r, val) in Serve(p, s, r, certificate).answers;
  }

  lemma TurnKeepsKey(p: Params, rs: seq<Request>, s: Server, r: Request, certificate: Option<Signature>, key: Key)
    requires KeyInv(p, rs, s, key) && s.received == Table(rs)
    requires r.key == key && First(p, rs + [r], |rs|) ==> certificate.Some?
    ensures KeyInv(p, rs + [r], Serve(p, s, r, certificate), key)
  {
    var s1 := Serve(p, s, r, certificate);
    TrackOne(p, rs, s, r, certificate, key);
    ServeMarks(p, s, r, certificate, key);
    SendersAfter(s.received, r, key);
    ServeStores(p, s, r, certificate);
    if key in s.alreadySent {
      ServedStay(p, rs, s, r, certificate, key);
    } else if key in s1.alreadySent {
      RipeIs(p, rs, r);
      FirstServes(p, rs, s, r, certificate);
    }
  }

  lemma ServeStores(p: Params, s: Server, r: Request, certificate: Option<Signature>)
    ensures Serve(p, s, r, certificate).received == s.received[Place(r.key, r.sender) := r]
  {
  }

  /** Who has been served stays so, and a late valid request is. */
  lemma ServedStay(p: Params, rs: seq<Request>, s: Server, r: Request, certificate: Option<Signature>, key: Key)
    requires KeyInv(p, rs, s, key) && s.received == Table(rs) && key in s.alreadySent
    ensures forall x :: x in rs + [r] && x.key == key && ValidSig(x) ==>
              Got(Serve(p, s, r, certificate), key, x.sender)
  {
    var s1 := Serve(p, s, r, certificate);
    ServeAdds(p, s, r, certificate);
    if r.key == key && ValidSig(r) {
      LateServes(p, rs, s, r, certificate);
    }
    forall x | x in rs + [r] && x.key == key && ValidSig(x) ensures Got(s1, key, x.sender) {
      GotGrows(s, s1, key, x.sender);
    }
  }

  lemma {:induction false} RunKey(p: Params, turns: seq<Turn>, key: Key)
    requires Joins(p, turns) && CleanKey(p, Requests(turns), key)
    ensures KeyInv(p, Requests(turns), Run(p, turns), key)
  {
    if turns != [] {
      var before, last := turns[..|turns| - 1], turns[|turns| - 1];
      var rs := Requests(before);
      SplitLast(turns);
      JoinsBefore(p, turns);
      RequestsOne(before, last);
      assert Requests(turns)[..|rs|] == rs;
      CleanKeyBefore(p, Requests(turns), |rs|, key);
      RunKey(p, before, key);
      TableIs(p, before);
      RunOne(p, before, last);
      if last.request.key == key && First(p, rs + [last.request], |rs|) {
        FirstCertificate(p, before, last);
      }
      TurnKeepsKey(p, rs, Run(p, before), last.request, last.certificate, key);
    }
  }

  /** After these requests, a valid request of the instance has been answered exactly when some
      request of the instance has been ripe. */
  ghost predicate Serves(p: Params, s: Server, rs: seq<Request>, key: Key) {
    forall r :: r in rs && r.key == key && ValidSig(r) ==> (Got(s, key, r.sender) <==> Ripened(p, rs, key))
  }

  ghost predicate AlwaysServes(p: Params, rs: seq<Request>, key: Key) {
    forall m, turns :: 0 <= m <= |rs| && Joins(p, turns) && Requests(turns) == rs[..m] ==>
      Serves(p, Run(p, turns), rs[..m], key)
  }

  /** Service, exactly: for any requests, at every time in every run a sender with a valid request is
      answered as soon as a valid request of the instance has found n/2+1 senders stored and not
      before, if and only if the first join of the instance is no bad one. */
  lemma Answered(p: Params, rs: seq<Request>, key: Key)
    ensures AlwaysServes(p, rs, key) <==> CleanKey(p, rs, key)
  {
    if CleanKey(p, rs, key) {
      forall m, turns | 0 <= m <= |rs| && Joins(p, turns) && Requests(turns) == rs[..m]
        ensures Serves(p, Run(p, turns), rs[..m], key)
      {
        CleanKeyBefore(p, rs, m, key);
        RunKey(p, turns, key);
        forall r | r in rs[..m] && r.key == key && ValidSig(r)
          ensures Got(Run(p, turns), key, r.sender) <==> Ripened(p, rs[..m], key)
        {
          if a :| a in Run(p, turns).answers && a.request.key == key && a.request.sender == r.sender {
            AnswersSent(p, turns, a);
          }
        }
      }
    }
    if k :| 0 <= k < |rs| && rs[k].key == key && First(p, rs, k) && !JoinsWell(p, rs, k) {
      var turns := BadJoin(p, rs, k, None);
      RipePrefix(p, rs, k + 1, k);
      assert rs[..k + 1][k] == rs[k];
      assert Ripened(p, rs[..k + 1], key) && rs[k] in rs[..k + 1];
      assert !Serves(p, Run(p, turns), rs[..k + 1], key);
    }
  }

  /** With own shares only, being served comes down to n/2+1 senders having asked. */
  lemma ProperRipens(p: Params, turns: seq<Turn>, key: Key)
    requires forall r :: r in Requests(turns) && r.key == key ==> Proper(r)
    ensures CleanKey(p, Requests(turns), key)
    ensures Ripened(p, Requests(turns), key) <==> |Asked(turns, key)| >= p.n / 2 + 1
  {
    var rs := Requests(turns);
    forall k | 0 <= k < |rs| && rs[k].key == key && First(p, rs, k) ensures JoinsWell(p, rs, k) {
      ProperJoins(p, rs, k);
    }
    AskedRipens(p, turns, key);
  }

  lemma {:induction false} AskedRipens(p: Params, turns: seq<Turn>, key: Key)
    requires forall r :: r in Requests(turns) && r.key == key ==> Proper(r)
    ensures Ripened(p, Requests(turns), key) <==> |Asked(turns, key)| >= p.n / 2 + 1
  {
    if turns == [] {
      assert Asked(turns, key) == {};
    } else {
      var before, last := turns[..|turns| - 1], turns[|turns| - 1];
      var rs := Requests(before);
      SplitLast(turns);
      RequestsOne(before, last);
      assert last.request in rs + [last.request];
      AskedRipens(p, before, key);
      RipenedOne(p, rs, last.request, key);
      AskedGrows(before, last, key);
      RipeIs(p, rs, last.request);
      TableIs(p, before);
      RunOne(p, before, last);
      StoredAre(p, turns, key);
      Quorums.SubsetSize(Asked(before, key), Asked(turns, key));
    }
  }

  // ---- One bad share, two bits

  function Ask(instance: int, sender: int): Request {
    Request(Key(0, 0, instance), sender, SigShare(sender + 1, OfNumber(0)))
  }

  /** A share that does not verify, sent in its own name. */
  function Bad(instance: int, sender: int): Request {
    Request(Key(0, 0, instance), sender, SigShare(sender + 1, Raw(0)))
  }

  lemma SendersOne(rs: seq<Request>, r: Request, key: Key)
    ensures StoredSenders(Table(rs + [r]), key) ==
            StoredSenders(Table(rs), key) + if r.key == key then {r.sender} else {}
  {
    TableOne(rs, r);
    var senders := StoredSenders(Table(rs + [r]), key);
    forall i
      ensures i in senders <==> i in StoredSenders(Table(rs), key) || (r.key == key && i == r.sender)
    {
      assert i in senders <==> Place(key, i) in Table(rs + [r]);
      assert i in StoredSenders(Table(rs), key) <==> Place(key, i) in Table(rs);
    }
  }

  /** A run on these requests that has served these instances and given these answers. */
  ghost predicate Reaches(p: Params, turns: seq<Turn>, rs: seq<Request>, sent: set<Key>, given: set<Answer>) {
    Joins(p, turns) && Requests(turns) == rs && Run(p, turns).alreadySent == sent && given <= Run(p, turns).answers
  }

  /** A turn that only stores its request. */
  lemma Idle(p: Params, turns: seq<Turn>, rs: seq<Request>, sent: set<Key>, given: set<Answer>, r: Request)
    returns (next: seq<Turn>)
    requires Reaches(p, turns, rs, sent, given)
    requires !ValidSig(r) || |StoredSenders(Table(rs + [r]), r.key)| < p.n / 2 + 1
    ensures Reaches(p, next, rs + [r], sent, given)
  {
    next := turns + [Usual(r)];
    RunOne(p, turns, Usual(r));
    RequestsOne(turns, Usual(r));
    TableIs(p, turns);
    TableOne(rs, r);
    JoinsOne(p, turns, Usual(r));
  }

  /** A turn that joins what is stored. */
  lemma JoinTurn(p: Params, turns: seq<Turn>, rs: seq<Request>, sent: set<Key>, given: set<Answer>, turn: Turn,
                 x: Request)
    returns (next: seq<Turn>)
    requires Reaches(p, turns, rs, sent, given) && turn.certificate.Some?
    requires var r := turn.request;
      && r.key !in sent && ValidSig(r) && |StoredSenders(Table(rs + [r]), r.key)| >= p.n / 2 + 1
      && JoinGives(p, Stored(Table(rs + [r]), r.key), r.key.round, turn.certificate)
      && x in Stored(Table(rs + [r]), r.key)
    ensures Reaches(p, next, rs + [turn.request], sent + {turn.request.key},
                    given + {Answer(x, p.lsb(turn.certificate.value))})
    ensures var slot, s := SlotOf(turn.request.key), Run(p, next);
      slot in s.coinVals && s.coinVals[slot] == p.lsb(turn.certificate.value)
  {
    next := turns + [turn];
    RunOne(p, turns, turn);
    RequestsOne(turns, turn);
    TableIs(p, turns);
    TableOne(rs, turn.request);
    JoinsOne(p, turns, turn);
  }

  /** A turn that answers with the stored bit. */
  lemma LateTurn(p: Params, turns: seq<Turn>, rs: seq<Request>, sent: set<Key>, given: set<Answer>, r: Request,
                 bit: Bit)
    returns (next: seq<Turn>)
    requires Reaches(p, turns, rs, sent, given) && r.key in sent && ValidSig(r)
    requires |StoredSenders(Table(rs + [r]), r.key)| >= p.n / 2 + 1
    requires var coinVals := Run(p, turns).coinVals; SlotOf(r.key) in coinVals && coinVals[SlotOf(r.key)] == bit
    ensures Reaches(p, next, rs + [r], sent, given + {Answer(r, bit)})
  {
    next := turns + [Usual(r)];
    RunOne(p, turns, Usual(r));
    RequestsOne(turns, Usual(r));
    TableIs(p, turns);
    TableOne(rs, r);
    JoinsOne(p, turns, Usual(r));
  }

  /** Nodes 0, 1 and 3 of four ask in instance 1; then the faulty node 3 sends a bad share to
      instance 2, where nodes 0 and 1 ask; at last node 2 asks in instance 1. */
  function Item(k: nat): Request {
    if k == 0 then Ask(1, 0)
    else if k == 1 then Ask(1, 1)
    else if k == 2 then Ask(1, 3)
    else if k == 3 then Bad(2, 3)
    else if k == 4 then Ask(2, 0)
    else if k == 5 then Ask(2, 1)
    else Ask(1, 2)
  }

  function Trouble(k: nat): seq<Request> {
    if k == 0 then [] else Trouble(k - 1) + [Item(k - 1)]
  }

  lemma {:induction false} TroubleItems(k: nat)
    ensures |Trouble(k)| == k && forall j :: 0 <= j < k ==> Trouble(k)[j] == Item(j)
  {
    if k > 0 {
      TroubleItems(k - 1);
    }
  }

  /** Who has asked in the two instances after k requests. */
  function InFirst(k: nat): set<int> {
    if k == 0 then {} else if k == 1 then {0} else if k == 2 then {0, 1} else if k < 7 then {0, 1, 3} else {0, 1, 2, 3}
  }

  function InSecond(k: nat): set<int> {
    if k < 4 then {} else if k == 4 then {3} else if k == 5 then {0, 3} else {0, 1, 3}
  }

  lemma InstancesNext(k: nat)
    requires k < 7
    ensures InFirst(k + 1) == InFirst(k) + if Item(k).key == Key(0, 0, 1) then {Item(k).sender} else {}
    ensures InSecond(k + 1) == InSecond(k) + if Item(k).key == Key(0, 0, 2) then {Item(k).sender} else {}
  {
  }

  lemma {:induction false} FirstSenders(k: nat)
    requires k <= 7
    ensures StoredSenders(Table(Trouble(k)), Key(0, 0, 1)) == InFirst(k)
  {
    if k > 0 {
      FirstSenders(k - 1);
      InstancesNext(k - 1);
      SendersOne(Trouble(k - 1), Item(k - 1), Key(0, 0, 1));
    }
  }

  lemma {:induction false} SecondSenders(k: nat)
    requires k <= 7
    ensures StoredSenders(Table(Trouble(k)), Key(0, 0, 2)) == InSecond(k)
  {
    if k > 0 {
      SecondSenders(k - 1);
      InstancesNext(k - 1);
      SendersOne(Trouble(k - 1), Item(k - 1), Key(0, 0, 2));
    }
  }

  /** Three of four senders are enough. */
  lemma TroubleEnough(p: Params, k: nat)
    requires p.n == 4 && k < 7
    ensures var r := Item(k);
      |StoredSenders(Table(Trouble(k) + [r]), r.key)| >= p.n / 2 + 1 <==> k == 2 || k == 5 || k == 6
  {
    FirstSenders(k + 1);
    SecondSenders(k + 1);
    Sizes(k + 1);
  }

  lemma Sizes(k: nat)
    ensures |InFirst(k)| >= 3 <==> k >= 3
    ensures |InSecond(k)| >= 3 <==> k >= 6
  {
    assert |InFirst(k)| == if k == 0 then 0 else if k == 1 then 1 else if k == 2 then 2 else if k < 7 then 3 else 4;
    assert |InSecond(k)| == if k < 4 then 0 else if k == 4 then 1 else if k == 5 then 2 else 3;
  }

  /** What is filed for the two nodes that matter. */
  lemma {:induction false} TroubleFiled(k: nat)
    requires 1 <= k <= 7
    ensures var table := Table(Trouble(k));
      && Place(Key(0, 0, 1), 0) in table && table[Place(Key(0, 0, 1), 0)] == Ask(1, 0)
      && (k >= 4 ==> Place(Key(0, 0, 2), 3) in table && table[Place(Key(0, 0, 2), 3)] == Bad(2, 3))
  {
    TableOne(Trouble(k - 1), Item(k - 1));
    if k > 1 {
      TroubleFiled(k - 1);
    }
  }

  lemma TroubleStored(k: nat)
    requires 1 <= k <= 7
    ensures Ask(1, 0) in Stored(Table(Trouble(k)), Key(0, 0, 1))
    ensures k >= 4 ==> Bad(2, 3) in Stored(Table(Trouble(k)), Key(0, 0, 2)) && !ValidSig(Bad(2, 3))
  {
    TroubleFiled(k);
  }

  function Sent(k: nat): set<Key> {
    if k >= 6 then {Key(0, 0, 1), Key(0, 0, 2)} else if k >= 3 then {Key(0, 0, 1)} else {}
  }

  function Given(p: Params, k: nat, wrong: Signature): set<Answer> {
    var first, second := Answer(Ask(1, 0), Coin(p, 0)), Answer(Ask(1, 2), p.lsb(wrong));
    if k >= 7 then {first, second} else if k >= 3 then {first} else {}
  }

  ghost predicate At(p: Params, k: nat, wrong: Signature, turns: seq<Turn>) {
    && Reaches(p, turns, Trouble(k), Sent(k), Given(p, k, wrong))
    && (k == 6 ==> Slot(0, 0) in Run(p, turns).coinVals && Run(p, turns).coinVals[Slot(0, 0)] == p.lsb(wrong))
  }

  lemma IdleStep(p: Params, k: nat, wrong: Signature, turns: seq<Turn>) returns (next: seq<Turn>)
    requires p.n == 4 && k in {0, 1, 3, 4} && At(p, k, wrong, turns)
    ensures At(p, k + 1, wrong, next)
  {
    TroubleEnough(p, k);
    next := Idle(p, turns, Trouble(k), Sent(k), Given(p, k, wrong), Item(k));
  }

  /** Instance 1 is served: node 0 is told the round's coin. */
  lemma FirstJoin(p: Params, k: nat, wrong: Signature, turns: seq<Turn>) returns (next: seq<Turn>)
    requires p.n == 4 && k == 2 && At(p, k, wrong, turns)
    ensures At(p, k + 1, wrong, next)
  {
    TroubleEnough(p, k);
    TroubleStored(k + 1);
    next := JoinTurn(p, turns, Trouble(k), Sent(k), Given(p, k, wrong), Usual(Item(k)), Ask(1, 0));
  }

  /** Instance 2 is served with the bad share, and the slot's bit is overwritten. */
  lemma BadStep(p: Params, k: nat, wrong: Signature, turns: seq<Turn>) returns (next: seq<Turn>)
    requires p.n == 4 && k == 5 && At(p, k, wrong, turns)
    ensures At(p, k + 1, wrong, next)
  {
    TroubleEnough(p, k);
    TroubleStored(k + 1);
    next := JoinTurn(p, turns, Trouble(k), Sent(k), Given(p, k, wrong), Turn(Item(k), Some(wrong)), Bad(2, 3));
  }

  lemma LateStep(p: Params, k: nat, wrong: Signature, turns: seq<Turn>) returns (next: seq<Turn>)
    requires p.n == 4 && k == 6 && At(p, k, wrong, turns)
    ensures At(p, k + 1, wrong, next)
  {
    TroubleEnough(p, k);
    next := LateTurn(p, turns, Trouble(k), Sent(k), Given(p, k, wrong), Item(k), p.lsb(wrong));
  }

  lemma {:induction false} Unfolds(p: Params, k: nat, wrong: Signature) returns (turns: seq<Turn>)
    requires p.n == 4 && k <= 7
    ensures At(p, k, wrong, turns)
  {
    if k == 0 {
      turns := [];
    } else {
      turns := Unfolds(p, k - 1, wrong);
      if k == 3 {
        turns := FirstJoin(p, k - 1, wrong, turns);
      } else if k == 6 {
        turns := BadStep(p, k - 1, wrong, turns);
      } else if k == 7 {
        turns := LateStep(p, k - 1, wrong, turns);
      } else {
        turns := IdleStep(p, k - 1, wrong, turns);
      }
    }
  }

  /** The coin splits: with own valid shares of the honest nodes 0, 1 and 2 and one bad share of the
      faulty node 3, node 0 is told the round's coin in instance 1, and node 2, asking there after
      instance 2 has been joined with the bad share, is told whatever that join gave. */
  lemma BadShareSplits(p: Params, wrong: Signature) returns (turns: seq<Turn>)
    requires p.n == 4
    ensures Joins(p, turns) && |turns| == 7
    ensures forall k :: 0 <= k < 7 ==> turns[k].request == Item(k) && (Item(k).sender != 3 ==> Proper(Item(k)))
    ensures Answer(Ask(1, 0), Coin(p, 0)) in Run(p, turns).answers
    ensures Answer(Ask(1, 2), p.lsb(wrong)) in Run(p, turns).answers
  {
    var k := 7;
    turns := Unfolds(p, k, wrong);
    TroubleItems(k);
    assert forall j :: 0 <= j < |turns| ==> Requests(turns)[j] == turns[j].request;
  }

  // ---- The server as the program keeps it

  class Coins {
    const p: Params
    var received: map<Place, Request>
    var alreadySent: set<Key>
    var coinVals: map<Slot, Bit>
    var answers: set<Answer>

    ghost function View(): Server
      reads this
    {
      Server(received, alreadySent, coinVals, answers)
    }

    constructor (p: Params)
      ensures this.p == p && View() == INITIAL
    {
      this.p := p;
      received, alreadySent, coinVals, answers := map[], {}, map[], {};
    }

    /** One turn of the loop over requests; certificate is the result of joining. */
    method Handle(r: Request, certificate: Option<Signature>)
      modifies this
      ensures View() == Serve(p, old(View()), r, certificate)
    {
      received := received[Place(r.key, r.sender) := r];
      if !ValidSig(r) {
        return;
      }
      if |StoredSenders(received, r.key)| >= p.n / 2 + 1 {
        var slot := Slot(r.key.uround, r.key.round);
        if r.key in alreadySent {
          answers := answers + {Answer(r, if slot in coinVals then coinVals[slot] else 0)};
        } else if certificate.Some? {
          var lsb := p.lsb(certificate.value);
          AnswerAll(Stored(received, r.key), lsb);
          alreadySent := alreadySent + {r.key};
          coinVals := coinVals[slot := lsb];
        }
      }
    }

    method AnswerAll(requests: set<Request>, val: Bit)
      modifies this`answers
      ensures answers == old(answers) + set x | x in requests :: Answer(x, val)
    {
      var pending := requests;
      while pending != {}
        invariant pending <= requests
        invariant answers == old(answers) + set x | x in requests - pending :: Answer(x, val)
      {
        var x :| x in pending;
        answers := answers + {Answer(x, val)};
        pending := pending - {x};
      }
      assert requests - pending == requests;
    }
  }
}
