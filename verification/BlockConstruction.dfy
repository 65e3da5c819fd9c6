/** Building a block from decryption shares: vectors of shares arrive in any order and are
    combined cell by cell as soon as enough members have contributed. */
module BlockConstruction {
  import opened Blocks
  import opened Tables

  /** A committee member's share of the decryption of a ciphertext with this plaintext. */
  datatype Share = Share(member: int, plain: Bytes)

  /** One vector: a row per pre-block (or per node, for a large block), a cell per ciphertext. */
  type Grid<T> = seq<seq<Option<T>>>

  /** rows and n are the dimensions of the share table; k shares are needed for a plaintext.
      target says how many transactions end the construction, checked in a row of some width. */
  datatype Params = Params(large: bool, rows: nat, n: nat, k: nat, target: nat -> nat)

  /** A large block counts its nodes and asks for as many transactions as if all rows were as wide
      as this one; small blocks count their messages. */
  function TargetOf(large: bool, txsCount: nat): nat -> nat {
    if large then (width: nat) => txsCount * width else (width: nat) => txsCount
  }

  /** Combining needs k shares of distinct members on one ciphertext. */
  function Combine(k: nat, shares: seq<Option<Share>>): Option<Bytes> {
    if |shares| < k || shares == [] || shares[0].None? then None
    else if |Contributors(shares)| < k then None
    else if exists s :: s in shares && (s.None? || s.value.plain != shares[0].value.plain) then None
    else Some(shares[0].value.plain)
  }

  function Contributors(shares: seq<Option<Share>>): set<int> {
    set s | s in shares && s.Some? :: s.value.member
  }

  // ---- One cell at a time

  datatype Cell<T> = Cell(i: int, j: int, content: Option<T>, width: nat)

  datatype Pos = Pos(i: int, j: int)

  datatype Phase = Waiting | Done | Panicked

  function Place<T>(c: Cell<T>): Pos {
    Pos(c.i, c.j)
  }

  /** decshares keeps the shares collected for each position. */
  datatype State = State(decshares: map<Pos, seq<Option<Share>>>, txs: seq<Bytes>, phase: Phase)

  const INITIAL := State(map[], [], Waiting)

  function At(decshares: map<Pos, seq<Option<Share>>>, pos: Pos): seq<Option<Share>> {
    if pos in decshares then decshares[pos] else []
  }

  /** One cell; a large block appends nil shares too. */
  function OnCell(p: Params, s: State, c: Cell<Share>): State {
    if s.phase != Waiting then s
    else if c.i >= p.rows || c.j >= p.n then s.(phase := Panicked)
    else
      var pos := Place(c);
      var shares := At(s.decshares, pos) + if c.content.Some? || p.large then [c.content] else [];
      var decshares := s.decshares[pos := shares];
      var dec := if |shares| >= p.k then Combine(p.k, shares) else None;
      if dec.None? then s.(decshares := decshares)
      else
        var txs := s.txs + [dec.value];
        State(decshares, txs, if |txs| == p.target(c.width) then Done else Waiting)
  }

  function Fold(p: Params, cells: seq<Cell<Share>>): State {
    if cells == [] then INITIAL
    else OnCell(p, Fold(p, cells[..|cells| - 1]), cells[|cells| - 1])
  }

  function RowCells<T>(i: int, row: seq<Option<T>>): seq<Cell<T>> {
    seq(|row|, j requires 0 <= j < |row| => Cell(i, j, row[j], |row|))
  }

  /** The cells of a vector in the order in which they are visited: row by row. */
  function GridCells<T>(grid: Grid<T>): seq<Cell<T>> {
    if grid == [] then [] else GridCells(grid[..|grid| - 1]) + RowCells(|grid| - 1, grid[|grid| - 1])
  }

  function VectorCells(vectors: seq<Grid<Share>>): seq<Cell<Share>> {
    if vectors == [] then []
    else VectorCells(vectors[..|vectors| - 1]) + GridCells(vectors[|vectors| - 1])
  }

  /** What constructBlock does with the vectors that have arrived. */
  function Construct(p: Params, vectors: seq<Grid<Share>>): State {
    Fold(p, VectorCells(vectors))
  }

  lemma FoldOne(p: Params, cells: seq<Cell<Share>>, c: Cell<Share>)
    ensures Fold(p, cells + [c]) == OnCell(p, Fold(p, cells), c)
  {
    assert (cells + [c])[..|cells|] == cells;
  }

  // ---- Whatever arrives: what the table holds, and when the construction fails

  /** What has arrived for a position; a large block keeps nil shares too. */
  function Contents(large: bool, cells: seq<Cell<Share>>, pos: Pos): seq<Option<Share>> {
    if cells == [] then []
    else
      var c := cells[|cells| - 1];
      Contents(large, cells[..|cells| - 1], pos)
      + if Place(c) == pos && (c.content.Some? || large) then [c.content] else []
  }

  predicate Outside(p: Params, c: Cell<Share>) {
    c.i >= p.rows || c.j >= p.n
  }

  /** As long as the construction waits, the table holds for every position all that has arrived. */
  lemma {:induction false} TableHolds(p: Params, cells: seq<Cell<Share>>, pos: Pos)
    requires Fold(p, cells).phase == Waiting
    ensures At(Fold(p, cells).decshares, pos) == Contents(p.large, cells, pos)
  {
    if cells != [] {
      TableHolds(p, cells[..|cells| - 1], pos);
    }
  }

  /** One nil share at a position of a large block, and nothing ever comes out of that position. */
  lemma NilSpoils(p: Params, cells: seq<Cell<Share>>, c: Cell<Share>)
    requires p.large && Fold(p, cells).phase == Waiting
    requires None in Contents(p.large, cells, Place(c)) || c.content.None?
    ensures Fold(p, cells + [c]).txs == Fold(p, cells).txs
  {
    FoldOne(p, cells, c);
    TableHolds(p, cells, Place(c));
    var shares := At(Fold(p, cells).decshares, Place(c)) + [c.content];
    if c.content.None? {
      assert shares[|shares| - 1] in shares;
    }
    assert None in shares;
  }

  ghost predicate OutsideFirst(p: Params, cells: seq<Cell<Share>>) {
    exists k :: 0 <= k < |cells| && Outside(p, cells[k]) && Fold(p, cells[..k]).phase == Waiting
  }

  /** The construction panics if and only if a cell outside the table comes before it has ended. */
  lemma {:induction false} PanicsExactly(p: Params, cells: seq<Cell<Share>>)
    ensures Fold(p, cells).phase == Panicked <==> OutsideFirst(p, cells)
  {
    if cells != [] {
      var last := |cells| - 1;
      PanicsExactly(p, cells[..last]);
      forall k | 0 <= k < last ensures cells[..last][..k] == cells[..k] && cells[..last][k] == cells[k] {
      }
      if OutsideFirst(p, cells[..last]) {
        var k :| 0 <= k < last && Outside(p, cells[..last][k]) && Fold(p, cells[..last][..k]).phase == Waiting;
        assert Outside(p, cells[k]) && Fold(p, cells[..k]).phase == Waiting;
      }
      if OutsideFirst(p, cells) {
        var k :| 0 <= k < |cells| && Outside(p, cells[k]) && Fold(p, cells[..k]).phase == Waiting;
        if k < last {
          assert Outside(p, cells[..last][k]) && Fold(p, cells[..last][..k]).phase == Waiting;
        }
      }
    }
  }

  // ---- Plaintexts in row-major order

  function Texts(cells: seq<Cell<Bytes>>): seq<Bytes> {
    if cells == [] then []
    else
      var last := cells[|cells| - 1].content;
      Texts(cells[..|cells| - 1]) + if last.Some? then [last.value] else []
  }

  function RowTexts(row: seq<Option<Bytes>>): seq<Bytes> {
    if row == [] then []
    else RowTexts(row[..|row| - 1]) + if row[|row| - 1].Some? then [row[|row| - 1].value] else []
  }

  /** Every plaintext of the grid once, row after row, without the nil cells. */
  function RowMajor(plain: Grid<Bytes>): seq<Bytes> {
    if plain == [] then [] else RowMajor(plain[..|plain| - 1]) + RowTexts(plain[|plain| - 1])
  }

  lemma {:induction false} TextsAppend(a: seq<Cell<Bytes>>, b: seq<Cell<Bytes>>)
    ensures Texts(a + b) == Texts(a) + Texts(b)
  {
    if b == [] {
      assert a + b == a;
    } else {
      TextsAppend(a, b[..|b| - 1]);
      assert (a + b)[..|a + b| - 1] == a + b[..|b| - 1];
    }
  }

  lemma {:induction false} RowTextsAre(i: int, row: seq<Option<Bytes>>, m: nat)
    requires m <= |row|
    ensures Texts(RowCells(i, row)[..m]) == RowTexts(row[..m])
  {
    if m > 0 {
      RowTextsAre(i, row, m - 1);
      assert RowCells(i, row)[..m][..m - 1] == RowCells(i, row)[..m - 1];
      assert row[..m][..m - 1] == row[..m - 1];
    }
  }

  lemma {:induction false} TextsRowMajor(plain: Grid<Bytes>)
    ensures Texts(GridCells(plain)) == RowMajor(plain)
  {
    if plain != [] {
      var row := plain[|plain| - 1];
      TextsRowMajor(plain[..|plain| - 1]);
      TextsAppend(GridCells(plain[..|plain| - 1]), RowCells(|plain| - 1, row));
      RowTextsAre(|plain| - 1, row, |row|);
      assert RowCells(|plain| - 1, row)[..|row|] == RowCells(|plain| - 1, row) && row[..|row|] == row;
    }
  }

  /** Every cell of the grid is visited at its own position. */
  lemma {:induction false} CellsAre<T>(grid: Grid<T>)
    ensures forall c :: c in GridCells(grid) ==>
              0 <= c.i < |grid| && 0 <= c.j < |grid[c.i]| && c.width == |grid[c.i]| && c.content == grid[c.i][c.j]
    ensures forall a, b :: 0 <= a < b < |GridCells(grid)| ==>
              Place(GridCells(grid)[a]) != Place(GridCells(grid)[b])
  {
    if grid != [] {
      CellsAre(grid[..|grid| - 1]);
      var before, row := GridCells(grid[..|grid| - 1]), RowCells(|grid| - 1, grid[|grid| - 1]);
      var all: seq<Cell<T>> := before + row;
      assert GridCells(grid) == all;
      forall a, b | 0 <= a < b < |all| ensures Place(all[a]) != Place(all[b]) {
        assert a < |before| ==> before[a] in before;
      }
    }
  }

  // ---- Vectors of distinct members on the same plaintexts

  function ShareOf(member: int, text: Option<Bytes>): Option<Share> {
    if text.Some? then Some(Share(member, text.value)) else None
  }

  /** What a committee member sends. */
  function VectorOf(member: int, plain: Grid<Bytes>): Grid<Share> {
    seq(|plain|, i requires 0 <= i < |plain| => RowOf(member, plain[i]))
  }

  function RowOf(member: int, row: seq<Option<Bytes>>): seq<Option<Share>> {
    seq(|row|, j requires 0 <= j < |row| => ShareOf(member, row[j]))
  }

  function Shared(member: int, c: Cell<Bytes>): Cell<Share> {
    Cell(c.i, c.j, ShareOf(member, c.content), c.width)
  }

  function AllShared(member: int, cells: seq<Cell<Bytes>>): seq<Cell<Share>> {
    seq(|cells|, q requires 0 <= q < |cells| => Shared(member, cells[q]))
  }

  function Arrivals(members: seq<int>, plain: Grid<Bytes>): seq<Grid<Share>> {
    seq(|members|, a requires 0 <= a < |members| => VectorOf(members[a], plain))
  }

  lemma {:induction false} SharedCells(member: int, plain: Grid<Bytes>)
    ensures GridCells(VectorOf(member, plain)) == AllShared(member, GridCells(plain))
  {
    if plain != [] {
      var before, row := plain[..|plain| - 1], plain[|plain| - 1];
      SharedCells(member, before);
      assert VectorOf(member, plain)[..|plain| - 1] == VectorOf(member, before);
      assert RowCells(|plain| - 1, RowOf(member, row)) == AllShared(member, RowCells(|plain| - 1, row));
    }
  }

  /** The shares of the first members to answer, in the order in which they came. */
  function Held(members: seq<int>, text: Bytes): seq<Option<Share>> {
    seq(|members|, a requires 0 <= a < |members| => Some(Share(members[a], text)))
  }

  predicate Distinct(members: seq<int>) {
    forall a, b :: 0 <= a < b < |members| ==> members[a] != members[b]
  }

  lemma {:induction false} HeldBy(members: seq<int>, text: Bytes)
    requires Distinct(members)
    ensures |Contributors(Held(members, text))| == |members|
    ensures Contributors(Held(members, text)) == Members(members)
  {
    if members != [] {
      var before, m := members[..|members| - 1], members[|members| - 1];
      HeldBy(before, text);
      assert Held(members, text) == Held(before, text) + [Some(Share(m, text))];
      assert m !in before && Members(members) == Members(before) + {m};
      assert Contributors(Held(members, text)) == Contributors(Held(before, text)) + {m};
    } else {
      assert Contributors(Held(members, text)) == {};
    }
  }

  lemma HeldCombines(k: nat, members: seq<int>, text: Bytes)
    requires 0 < k <= |members| && Distinct(members)
    ensures Combine(k, Held(members, text)) == Some(text)
  {
    HeldBy(members, text);
  }

  /** The plaintexts fit the table; a large block has no nil. */
  ghost predicate Shaped(p: Params, plain: Grid<Bytes>) {
    && p.k > 0 && |plain| <= p.rows
    && (forall row :: row in plain ==> |row| <= p.n)
    && (p.large ==> forall row, text :: row in plain && text in row ==> text.Some?)
  }

  /** Also, every row counts the same total. */
  ghost predicate Fits(p: Params, plain: Grid<Bytes>) {
    Shaped(p, plain) && forall row :: row in plain ==> p.target(|row|) == |RowMajor(plain)|
  }

  /** In the k-th vector the count of plaintexts meets the target of this cell's row. */
  predicate Hit(p: Params, cells: seq<Cell<Bytes>>, q: nat)
    requires q < |cells|
  {
    cells[q].content.Some? && |Texts(cells[..q + 1])| == p.target(cells[q].width)
  }

  predicate Ended(p: Params, cells: seq<Cell<Bytes>>, c: nat)
    requires c <= |cells|
  {
    c > 0 && (Ended(p, cells, c - 1) || Hit(p, cells, c - 1))
  }

  /** The plaintexts up to the first such cell. */
  function Out(p: Params, cells: seq<Cell<Bytes>>, c: nat): seq<Bytes>
    requires c <= |cells|
  {
    if c > 0 && Ended(p, cells, c - 1) then Out(p, cells, c - 1) else Texts(cells[..c])
  }

  /** The state when v whole vectors and c cells of the next have been handled, v below k. */
  ghost predicate Progress(p: Params, s: State, cells: seq<Cell<Bytes>>, members: seq<int>, v: nat, c: nat)
    requires v < |members| && c <= |cells|
  {
    && s.txs == (if v + 1 < p.k then [] else Out(p, cells, c))
    && (s.phase == if v + 1 == p.k && Ended(p, cells, c) then Done else Waiting)
    && (s.phase == Waiting ==>
          forall q :: 0 <= q < |cells| ==> Collected(s, cells[q], members[..if q < c then v + 1 else v]))
  }

  ghost predicate Collected(s: State, c: Cell<Bytes>, members: seq<int>) {
    At(s.decshares, Place(c)) == if c.content.None? then [] else Held(members, c.content.value)
  }

  lemma TextsOne(cells: seq<Cell<Bytes>>, c: nat)
    requires c < |cells|
    ensures Texts(cells[..c + 1]) == Texts(cells[..c]) + if cells[c].content.Some? then [cells[c].content.value] else []
    ensures |Texts(cells[..c + 1])| <= |Texts(cells)|
  {
    assert cells[..c + 1][..c] == cells[..c];
    assert cells == cells[..c + 1] + cells[c + 1..];
    TextsAppend(cells[..c + 1], cells[c + 1..]);
  }

  /** The cells of a plaintext grid that fits the table. */
  ghost predicate GoodCells(p: Params, cells: seq<Cell<Bytes>>) {
    && p.k > 0
    && (forall q :: 0 <= q < |cells| ==> 0 <= cells[q].i < p.rows && 0 <= cells[q].j < p.n)
    && (forall a, b :: 0 <= a < b < |cells| ==> Place(cells[a]) != Place(cells[b]))
    && (p.large ==> forall q :: 0 <= q < |cells| ==> cells[q].content.Some?)
  }

  lemma ShapedCells(p: Params, plain: Grid<Bytes>)
    requires Shaped(p, plain)
    ensures GoodCells(p, GridCells(plain)) && Texts(GridCells(plain)) == RowMajor(plain)
  {
    CellsAre(plain);
    TextsRowMajor(plain);
    var cells := GridCells(plain);
    forall q | 0 <= q < |cells|
      ensures 0 <= cells[q].i < p.rows && 0 <= cells[q].j < p.n
      ensures p.large ==> cells[q].content.Some?
    {
      assert cells[q] in cells;
      assert plain[cells[q].i] in plain;
      assert plain[cells[q].i][cells[q].j] in plain[cells[q].i];
    }
  }

  /** The next member's share of a cell joins those of the members before. */
  lemma CellCollects(p: Params, s: State, cells: seq<Cell<Bytes>>, members: seq<int>, v: nat, c: nat)
    requires GoodCells(p, cells) && v < |members| && c < |cells|
    requires s.phase == Waiting && Collected(s, cells[c], members[..v])
    ensures var s1 := OnCell(p, s, Shared(members[v], cells[c]));
      s1.phase != Panicked && Collected(s1, cells[c], members[..v + 1])
      && forall pos :: pos != Place(cells[c]) ==> At(s1.decshares, pos) == At(s.decshares, pos)
  {
    if cells[c].content.Some? {
      assert Held(members[..v + 1], cells[c].content.value)
          == Held(members[..v], cells[c].content.value) + [Shared(members[v], cells[c]).content];
    }
  }

  /** The k-th share of a cell gives its plaintext. */
  lemma CellCombines(p: Params, s: State, cells: seq<Cell<Bytes>>, members: seq<int>, v: nat, c: nat)
    requires GoodCells(p, cells) && Distinct(members) && v < |members| && v < p.k && c < |cells|
    requires s.phase == Waiting && Collected(s, cells[c], members[..v])
    ensures var s1 := OnCell(p, s, Shared(members[v], cells[c]));
      if v + 1 == p.k && cells[c].content.Some?
      then
        && s1.txs == s.txs + [cells[c].content.value]
        && s1.phase == if |s1.txs| == p.target(cells[c].width) then Done else Waiting
      else s1.txs == s.txs && s1.phase == Waiting
  {
    if cells[c].content.Some? {
      assert Held(members[..v + 1], cells[c].content.value)
          == Held(members[..v], cells[c].content.value) + [Shared(members[v], cells[c]).content];
      if v + 1 == p.k {
        HeldCombines(p.k, members[..v + 1], cells[c].content.value);
      }
    }
  }

  lemma CellStep(p: Params, s: State, cells: seq<Cell<Bytes>>, members: seq<int>, v: nat, c: nat)
    requires GoodCells(p, cells) && Distinct(members) && v < |members| && v < p.k && c < |cells|
    requires Progress(p, s, cells, members, v, c)
    ensures Progress(p, OnCell(p, s, Shared(members[v], cells[c])), cells, members, v, c + 1)
  {
    TextsOne(cells, c);
    if s.phase == Waiting {
      var s1 := OnCell(p, s, Shared(members[v], cells[c]));
      assert Collected(s, cells[c], members[..v]);
      CellCollects(p, s, cells, members, v, c);
      CellCombines(p, s, cells, members, v, c);
      forall q | 0 <= q < |cells| ensures Collected(s1, cells[q], members[..if q < c + 1 then v + 1 else v]) {
        assert Collected(s, cells[q], members[..if q < c then v + 1 else v]);
        assert q != c ==> Place(cells[q]) != Place(cells[c]);
      }
    }
  }

  /** What has been handled after v whole vectors and c cells of the next. */
  function Seen(members: seq<int>, plain: Grid<Bytes>, v: nat, c: nat): seq<Cell<Share>>
    requires v < |members| && c <= |GridCells(plain)|
  {
    VectorCells(Arrivals(members[..v], plain)) + AllShared(members[v], GridCells(plain)[..c])
  }

  lemma VectorsOne(a: seq<Grid<Share>>, v: Grid<Share>)
    ensures VectorCells(a + [v]) == VectorCells(a) + GridCells(v)
  {
    assert (a + [v])[..|a|] == a;
  }

  lemma SeenVector(members: seq<int>, plain: Grid<Bytes>, v: nat)
    requires v < |members|
    ensures VectorCells(Arrivals(members[..v + 1], plain)) == Seen(members, plain, v, |GridCells(plain)|)
  {
    var cells := GridCells(plain);
    assert cells[..|cells|] == cells;
    assert Arrivals(members[..v + 1], plain) == Arrivals(members[..v], plain) + [VectorOf(members[v], plain)];
    VectorsOne(Arrivals(members[..v], plain), VectorOf(members[v], plain));
    SharedCells(members[v], plain);
  }

  lemma SeenCell(members: seq<int>, plain: Grid<Bytes>, v: nat, c: nat)
    requires v < |members| && 0 < c <= |GridCells(plain)|
    ensures Seen(members, plain, v, c) ==
            Seen(members, plain, v, c - 1) + [Shared(members[v], GridCells(plain)[c - 1])]
  {
    var cells := GridCells(plain);
    assert AllShared(members[v], cells[..c])
        == AllShared(members[v], cells[..c - 1]) + [Shared(members[v], cells[c - 1])];
  }

  lemma SeenNext(members: seq<int>, plain: Grid<Bytes>, v: nat)
    requires 0 < v < |members|
    ensures Seen(members, plain, v, 0) == Seen(members, plain, v - 1, |GridCells(plain)|)
  {
    SeenVector(members, plain, v - 1);
    assert AllShared(members[v], GridCells(plain)[..0]) == [];
  }

  /** The state then, cell by cell. */
  function Reached(p: Params, plain: Grid<Bytes>, members: seq<int>, v: nat, c: nat): State
    requires v < |members| && c <= |GridCells(plain)|
    decreases v, c
  {
    if c > 0 then OnCell(p, Reached(p, plain, members, v, c - 1), Shared(members[v], GridCells(plain)[c - 1]))
    else if v > 0 then Reached(p, plain, members, v - 1, |GridCells(plain)|)
    else INITIAL
  }

  lemma {:induction false} ReachedFold(p: Params, plain: Grid<Bytes>, members: seq<int>, v: nat, c: nat)
    requires v < |members| && c <= |GridCells(plain)|
    ensures Fold(p, Seen(members, plain, v, c)) == Reached(p, plain, members, v, c)
    decreases v, c
  {
    if c > 0 {
      ReachedFold(p, plain, members, v, c - 1);
      SeenCell(members, plain, v, c);
      FoldOne(p, Seen(members, plain, v, c - 1), Shared(members[v], GridCells(plain)[c - 1]));
    } else if v > 0 {
      ReachedFold(p, plain, members, v - 1, |GridCells(plain)|);
      SeenNext(members, plain, v);
    } else {
      assert Seen(members, plain, 0, 0) == [];
    }
  }

  lemma ReachedCell(p: Params, plain: Grid<Bytes>, members: seq<int>, v: nat, c: nat)
    requires GoodCells(p, GridCells(plain)) && Distinct(members)
    requires v < |members| && v < p.k && 0 < c <= |GridCells(plain)|
    requires Progress(p, Reached(p, plain, members, v, c - 1), GridCells(plain), members, v, c - 1)
    ensures Progress(p, Reached(p, plain, members, v, c), GridCells(plain), members, v, c)
  {
    CellStep(p, Reached(p, plain, members, v, c - 1), GridCells(plain), members, v, c - 1);
  }

  lemma ReachedNext(p: Params, plain: Grid<Bytes>, members: seq<int>, v: nat)
    requires 0 < v < |members| && v < p.k
    requires var cells := GridCells(plain);
      Progress(p, Reached(p, plain, members, v - 1, |cells|), cells, members, v - 1, |cells|)
    ensures Progress(p, Reached(p, plain, members, v, 0), GridCells(plain), members, v, 0)
  {
    NextVector(p, Reached(p, plain, members, v, 0), GridCells(plain), members, v);
  }

  lemma {:induction false} ReachedProgress(p: Params, plain: Grid<Bytes>, members: seq<int>, v: nat, c: nat)
    requires GoodCells(p, GridCells(plain)) && Distinct(members)
    requires v < |members| && v < p.k && c <= |GridCells(plain)|
    ensures Progress(p, Reached(p, plain, members, v, c), GridCells(plain), members, v, c)
    decreases v, c
  {
    var cells := GridCells(plain);
    if c > 0 {
      ReachedProgress(p, plain, members, v, c - 1);
      ReachedCell(p, plain, members, v, c);
    } else if v > 0 {
      ReachedProgress(p, plain, members, v - 1, |cells|);
      ReachedNext(p, plain, members, v);
    } else {
      Begins(p, cells, members);
    }
  }

  lemma Reaches(p: Params, plain: Grid<Bytes>, members: seq<int>, v: nat, c: nat)
    requires GoodCells(p, GridCells(plain)) && Distinct(members)
    requires v < |members| && v < p.k && c <= |GridCells(plain)|
    ensures Progress(p, Fold(p, Seen(members, plain, v, c)), GridCells(plain), members, v, c)
  {
    ReachedProgress(p, plain, members, v, c);
    ReachedFold(p, plain, members, v, c);
  }

  lemma Begins(p: Params, cells: seq<Cell<Bytes>>, members: seq<int>)
    requires p.k > 0 && members != []
    ensures Progress(p, INITIAL, cells, members, 0, 0)
  {
    forall q | 0 <= q < |cells| ensures Collected(INITIAL, cells[q], members[..0]) {
    }
  }

  lemma NextVector(p: Params, s: State, cells: seq<Cell<Bytes>>, members: seq<int>, v: nat)
    requires 0 < v < |members| && v < p.k && Progress(p, s, cells, members, v - 1, |cells|)
    ensures Progress(p, s, cells, members, v, 0)
  {
    forall q | 0 <= q < |cells| ensures Collected(s, cells[q], members[..v]) {
      assert Collected(s, cells[q], members[..if q < |cells| then v - 1 + 1 else v - 1]);
    }
  }

  // ---- The block that is built

  lemma {:induction false} EndedAt(p: Params, cells: seq<Cell<Bytes>>, c: nat)
    requires c <= |cells|
    ensures Ended(p, cells, c) <==> exists q :: 0 <= q < c && Hit(p, cells, q)
  {
    if c > 0 {
      EndedAt(p, cells, c - 1);
    }
  }

  lemma ArrivalsPrefix(members: seq<int>, plain: Grid<Bytes>, v: nat)
    requires v <= |members|
    ensures Arrivals(members, plain)[..v] == Arrivals(members[..v], plain)
  {
  }

  /** The state after whole vectors, at most k. */
  lemma AfterVectors(p: Params, plain: Grid<Bytes>, members: seq<int>, v: nat, c: nat)
    requires GoodCells(p, GridCells(plain)) && Distinct(members) && v < p.k && v < |members| && c == |GridCells(plain)|
    ensures Progress(p, Construct(p, Arrivals(members[..v + 1], plain)), GridCells(plain), members, v, c)
  {
    SeenVector(members, plain, v);
    Reaches(p, plain, members, v, c);
  }

  lemma AfterKVectors(p: Params, plain: Grid<Bytes>, members: seq<int>)
    requires Shaped(p, plain) && Distinct(members) && |members| >= p.k
    ensures Progress(p, Construct(p, Arrivals(members[..p.k], plain)), GridCells(plain), members, p.k - 1,
                     |GridCells(plain)|)
  {
    ShapedCells(p, plain);
    AfterVectors(p, plain, members, p.k - 1, |GridCells(plain)|);
  }

  /** With fewer than k vectors there is no plaintext yet. */
  lemma WaitsForMembers(p: Params, plain: Grid<Bytes>, members: seq<int>)
    requires Shaped(p, plain) && Distinct(members) && |members| < p.k
    ensures Construct(p, Arrivals(members, plain)).phase == Waiting
    ensures Construct(p, Arrivals(members, plain)).txs == []
  {
    if members == [] {
      assert Arrivals(members, plain) == [];
    } else {
      var v, cells := |members| - 1, GridCells(plain);
      ShapedCells(p, plain);
      Reaches(p, plain, members, v, |cells|);
      SeenVector(members, plain, v);
      assert members[..v + 1] == members;
    }
  }

  lemma {:induction false} OutAtHit(p: Params, cells: seq<Cell<Bytes>>, q: nat, c: nat)
    requires q < c <= |cells| && Hit(p, cells, q) && !Ended(p, cells, q)
    ensures Ended(p, cells, c) && Out(p, cells, c) == Texts(cells[..q + 1])
  {
    if q + 1 < c {
      OutAtHit(p, cells, q, c - 1);
    }
  }

  /** Inside the k-th vector: the plaintexts so far come out one by one, and the construction ends at
      the first cell at which their number meets the target of the row. */
  lemma StopsAtFirstHit(p: Params, plain: Grid<Bytes>, members: seq<int>, c: nat)
    requires Shaped(p, plain) && Distinct(members) && |members| >= p.k && c <= |GridCells(plain)|
    ensures var s, cells := Fold(p, Seen(members, plain, p.k - 1, c)), GridCells(plain);
      && (s.phase == Done <==> exists q :: 0 <= q < c && Hit(p, cells, q))
      && (s.phase != Done ==> s.phase == Waiting && s.txs == Texts(cells[..c]))
      && (forall q | 0 <= q < c && Hit(p, cells, q) && !Ended(p, cells, q) :: s.txs == Texts(cells[..q + 1]))
  {
    var cells := GridCells(plain);
    ShapedCells(p, plain);
    Reaches(p, plain, members, p.k - 1, c);
    EndedAt(p, cells, c);
    if c > 0 {
      assert Ended(p, cells, c - 1) ==> Ended(p, cells, c);
    }
    forall q | 0 <= q < c && Hit(p, cells, q) && !Ended(p, cells, q)
      ensures Out(p, cells, c) == Texts(cells[..q + 1])
    {
      OutAtHit(p, cells, q, c);
    }
  }

  // ---- The last usable cell

  /** No plaintext comes after this one. */
  predicate Last(cells: seq<Cell<Bytes>>, q: nat)
    requires q < |cells|
  {
    cells[q].content.Some? && |Texts(cells[..q + 1])| == |Texts(cells)|
  }

  /** The count meets the target of a row at the last usable cell, and only there. */
  predicate CountsRight(p: Params, cells: seq<Cell<Bytes>>) {
    forall q :: 0 <= q < |cells| ==> (Hit(p, cells, q) <==> Last(cells, q))
  }

  lemma TextsMore(cells: seq<Cell<Bytes>>, a: nat, b: nat)
    requires a <= b <= |cells|
    ensures |Texts(cells[..a])| <= |Texts(cells[..b])| <= |Texts(cells)|
    ensures |Texts(cells[..a])| == |Texts(cells[..b])| ==> Texts(cells[..a]) == Texts(cells[..b])
  {
    TextsSplit(cells[..b], cells[..a], cells[a..b]);
    TextsSplit(cells, cells[..b], cells[b..]);
  }

  lemma TextsSplit(cells: seq<Cell<Bytes>>, a: seq<Cell<Bytes>>, b: seq<Cell<Bytes>>)
    requires cells == a + b
    ensures Texts(cells) == Texts(a) + Texts(b)
  {
    TextsAppend(a, b);
  }

  lemma {:induction false} LastExists(cells: seq<Cell<Bytes>>, c: nat)
    requires c <= |cells| && Texts(cells[..c]) != [] && |Texts(cells[..c])| == |Texts(cells)|
    ensures exists q :: 0 <= q < |cells| && Last(cells, q)
  {
    if c > 0 {
      TextsOne(cells, c - 1);
      if cells[c - 1].content.Some? {
        assert Last(cells, c - 1);
      } else {
        LastExists(cells, c - 1);
      }
    }
  }

  /** After the last usable cell there is nothing usable. */
  lemma LastIsLast(cells: seq<Cell<Bytes>>, q: nat, r: nat)
    requires q < r < |cells| && Last(cells, q)
    ensures cells[r].content.None?
  {
    TextsOne(cells, r);
    TextsMore(cells, q + 1, r);
  }

  lemma {:induction false} FirstHit(p: Params, cells: seq<Cell<Bytes>>, c: nat) returns (q: nat)
    requires c <= |cells| && Ended(p, cells, c)
    ensures q < c && Hit(p, cells, q) && !Ended(p, cells, q)
  {
    if Ended(p, cells, c - 1) {
      q := FirstHit(p, cells, c - 1);
    } else {
      q := c - 1;
    }
  }

  /** When the k-th vector ends the construction, the block is complete exactly when the count is
      right. */
  lemma EndedRight(p: Params, cells: seq<Cell<Bytes>>)
    requires Ended(p, cells, |cells|)
    ensures Out(p, cells, |cells|) == Texts(cells) <==> CountsRight(p, cells)
  {
    var all := cells[..|cells|];
    assert all == cells;
    var q := FirstHit(p, cells, |cells|);
    OutAtHit(p, cells, q, |cells|);
    TextsMore(cells, q + 1, |cells|);
    if Last(cells, q) {
      forall r | 0 <= r < |cells| ensures Hit(p, cells, r) <==> Last(cells, r) {
        if r < q {
          EndedAt(p, cells, q);
          TextsOne(cells, q);
          TextsMore(cells, r + 1, q);
        } else if q < r {
          LastIsLast(cells, q, r);
        }
      }
    }
  }

  // ---- When the k-th vector does not end it

  /** While no usable cell of the next vector has been handled nothing happens; then there are too
      many plaintexts. */
  ghost predicate Overruns(s: State, cells: seq<Cell<Bytes>>, members: seq<int>, c: nat)
    requires c <= |cells|
  {
    if Texts(cells[..c]) == []
    then s.phase == Waiting && s.txs == Texts(cells) && forall q :: 0 <= q < |cells| ==> Collected(s, cells[q], members)
    else |s.txs| > |Texts(cells)|
  }

  lemma OverrunsOne(p: Params, s: State, cells: seq<Cell<Bytes>>, members: seq<int>, c: nat)
    requires GoodCells(p, cells) && Distinct(members) && |members| == p.k + 1 && c < |cells|
    requires Overruns(s, cells, members[..p.k], c)
    ensures Overruns(OnCell(p, s, Shared(members[p.k], cells[c])), cells, members[..p.k], c + 1)
  {
    TextsOne(cells, c);
    if Texts(cells[..c]) == [] {
      assert Collected(s, cells[c], members[..p.k]);
      if cells[c].content.Some? {
        OneMoreText(p, s, cells[c], members);
      } else {
        NilChanges(p, s, cells[c], members);
        SameCollected(s, OnCell(p, s, Shared(members[p.k], cells[c])), cells, members[..p.k]);
      }
    }
  }

  lemma SameCollected(s: State, s1: State, cells: seq<Cell<Bytes>>, members: seq<int>)
    requires forall q :: 0 <= q < |cells| ==> Collected(s, cells[q], members)
    requires forall pos :: At(s1.decshares, pos) == At(s.decshares, pos)
    ensures forall q :: 0 <= q < |cells| ==> Collected(s1, cells[q], members)
  {
  }

  /** With one share too many the plaintext comes out again. */
  lemma OneMoreText(p: Params, s: State, c: Cell<Bytes>, members: seq<int>)
    requires p.k > 0 && Distinct(members) && |members| == p.k + 1 && s.phase == Waiting && c.content.Some?
    requires 0 <= c.i < p.rows && 0 <= c.j < p.n && Collected(s, c, members[..p.k])
    ensures var s1 := OnCell(p, s, Shared(members[p.k], c));
      s1.txs == s.txs + [c.content.value] && s1.phase == if |s1.txs| == p.target(c.width) then Done else Waiting
  {
    assert Held(members, c.content.value) == Held(members[..p.k], c.content.value) + [Shared(members[p.k], c).content];
    HeldCombines(p.k, members, c.content.value);
  }

  /** A nil share of a small block changes no entry. */
  lemma NilChanges(p: Params, s: State, c: Cell<Bytes>, members: seq<int>)
    requires p.k > 0 && |members| == p.k + 1 && s.phase == Waiting && c.content.None? && !p.large
    requires 0 <= c.i < p.rows && 0 <= c.j < p.n && Collected(s, c, members[..p.k])
    ensures var s1 := OnCell(p, s, Shared(members[p.k], c));
      s1.phase == Waiting && s1.txs == s.txs && forall pos :: At(s1.decshares, pos) == At(s.decshares, pos)
  {
  }

  lemma {:induction false} OverrunsTo(p: Params, s: State, cells: seq<Cell<Bytes>>, members: seq<int>, c: nat)
    requires GoodCells(p, cells) && Distinct(members) && |members| == p.k + 1 && c <= |cells|
    requires Overruns(s, cells, members[..p.k], 0)
    ensures Overruns(FoldFrom(p, s, AllShared(members[p.k], cells[..c])), cells, members[..p.k], c)
  {
    if c > 0 {
      OverrunsTo(p, s, cells, members, c - 1);
      var shared := AllShared(members[p.k], cells[..c]);
      assert shared[..c - 1] == AllShared(members[p.k], cells[..c - 1]);
      assert shared[c - 1] == Shared(members[p.k], cells[c - 1]);
      OverrunsOne(p, FoldFrom(p, s, AllShared(members[p.k], cells[..c - 1])), cells, members, c - 1);
    } else {
      assert AllShared(members[p.k], cells[..0]) == [];
    }
  }

  lemma {:induction false} TxsGrow(p: Params, s: State, cells: seq<Cell<Share>>)
    ensures |FoldFrom(p, s, cells).txs| >= |s.txs|
  {
    if cells != [] {
      TxsGrow(p, s, cells[..|cells| - 1]);
    }
  }

  lemma {:induction false} ConstructGrows(p: Params, vectors: seq<Grid<Share>>, v: nat)
    requires v <= |vectors|
    ensures |Construct(p, vectors).txs| >= |Construct(p, vectors[..v]).txs|
    decreases |vectors| - v
  {
    if v < |vectors| {
      NextState(p, vectors, v);
      TxsGrow(p, Construct(p, vectors[..v]), GridCells(vectors[v]));
      ConstructGrows(p, vectors, v + 1);
    } else {
      assert vectors[..v] == vectors;
    }
  }

  lemma OneTooMany(p: Params, plain: Grid<Bytes>, members: seq<int>)
    requires Shaped(p, plain) && Distinct(members) && |members| == p.k + 1 && RowMajor(plain) != []
    requires !Ended(p, GridCells(plain), |GridCells(plain)|)
    ensures |Construct(p, Arrivals(members, plain)).txs| > |RowMajor(plain)|
  {
    var cells := GridCells(plain);
    var s := Construct(p, Arrivals(members[..p.k], plain));
    ShapedCells(p, plain);
    AfterKVectors(p, plain, members);
    NotEnded(p, s, cells, members);
    OverrunsAll(p, s, cells, members);
    NextArrival(p, plain, members);
  }

  lemma OverrunsAll(p: Params, s: State, cells: seq<Cell<Bytes>>, members: seq<int>)
    requires GoodCells(p, cells) && Distinct(members) && |members| == p.k + 1 && Texts(cells) != []
    requires Overruns(s, cells, members[..p.k], 0)
    ensures |FoldFrom(p, s, AllShared(members[p.k], cells)).txs| > |Texts(cells)|
  {
    assert cells[..|cells|] == cells;
    OverrunsTo(p, s, cells, members, |cells|);
  }

  lemma NextArrival(p: Params, plain: Grid<Bytes>, members: seq<int>)
    requires |members| == p.k + 1
    ensures Construct(p, Arrivals(members, plain)) ==
            FoldFrom(p, Construct(p, Arrivals(members[..p.k], plain)), AllShared(members[p.k], GridCells(plain)))
  {
    ArrivalsPrefix(members, plain, p.k);
    NextState(p, Arrivals(members, plain), p.k);
    assert Arrivals(members, plain)[..p.k + 1] == Arrivals(members, plain);
    SharedCells(members[p.k], plain);
  }

  lemma NotEnded(p: Params, s: State, cells: seq<Cell<Bytes>>, members: seq<int>)
    requires p.k > 0 && |members| > p.k && !Ended(p, cells, |cells|)
    requires Progress(p, s, cells, members, p.k - 1, |cells|)
    ensures s.phase == Waiting && s.txs == Texts(cells) && Overruns(s, cells, members[..p.k], 0)
  {
    assert cells[..|cells|] == cells;
    forall q | 0 <= q < |cells| ensures Collected(s, cells[q], members[..p.k]) {
      assert Collected(s, cells[q], members[..if q < |cells| then p.k - 1 + 1 else p.k - 1]);
    }
  }

  // ---- The block that is built, exactly

  /** From k members on, whoever they are, in whatever order they answer and however many vectors
      follow: the block is every plaintext once in row-major order, if and only if the count meets
      the target of a row at the last usable cell and only there. */
  lemma BuildsExactly(p: Params, plain: Grid<Bytes>, members: seq<int>)
    requires Shaped(p, plain) && Distinct(members) && |members| >= p.k && RowMajor(plain) != []
    ensures var s := Construct(p, Arrivals(members, plain));
      s.phase == Done && s.txs == RowMajor(plain) <==> CountsRight(p, GridCells(plain))
  {
    var cells := GridCells(plain);
    ShapedCells(p, plain);
    if Ended(p, cells, |cells|) {
      EndsExactly(p, plain, members);
    } else {
      NeverExactly(p, plain, members);
    }
  }

  lemma EndsExactly(p: Params, plain: Grid<Bytes>, members: seq<int>)
    requires Shaped(p, plain) && Distinct(members) && |members| >= p.k
    requires Ended(p, GridCells(plain), |GridCells(plain)|)
    ensures var s := Construct(p, Arrivals(members, plain));
      s.phase == Done && (s.txs == RowMajor(plain) <==> CountsRight(p, GridCells(plain)))
  {
    ShapedCells(p, plain);
    AfterKVectors(p, plain, members);
    ArrivalsPrefix(members, plain, p.k);
    StateStays(p, Arrivals(members, plain), p.k);
    EndedRight(p, GridCells(plain));
  }

  lemma NeverExactly(p: Params, plain: Grid<Bytes>, members: seq<int>)
    requires Shaped(p, plain) && Distinct(members) && |members| >= p.k && RowMajor(plain) != []
    requires !Ended(p, GridCells(plain), |GridCells(plain)|)
    ensures !CountsRight(p, GridCells(plain))
    ensures var s := Construct(p, Arrivals(members, plain)); !(s.phase == Done && s.txs == RowMajor(plain))
  {
    TextsRowMajor(plain);
    NotRight(p, GridCells(plain));
    if |members| == p.k {
      NotDone(p, plain, members);
    } else {
      OneTooMany(p, plain, members[..p.k + 1]);
      ArrivalsPrefix(members, plain, p.k + 1);
      ConstructGrows(p, Arrivals(members, plain), p.k + 1);
    }
  }

  lemma NotRight(p: Params, cells: seq<Cell<Bytes>>)
    requires Texts(cells) != [] && !Ended(p, cells, |cells|)
    ensures !CountsRight(p, cells)
  {
    assert cells[..|cells|] == cells;
    LastExists(cells, |cells|);
    EndedAt(p, cells, |cells|);
  }

  lemma NotDone(p: Params, plain: Grid<Bytes>, members: seq<int>)
    requires Shaped(p, plain) && Distinct(members) && |members| == p.k
    requires !Ended(p, GridCells(plain), |GridCells(plain)|)
    ensures Construct(p, Arrivals(members, plain)).phase == Waiting
  {
    AfterKVectors(p, plain, members);
    assert members[..p.k] == members;
  }

  lemma FitsCounts(p: Params, plain: Grid<Bytes>)
    requires Fits(p, plain)
    ensures CountsRight(p, GridCells(plain))
  {
    var cells := GridCells(plain);
    CellsAre(plain);
    TextsRowMajor(plain);
    forall q | 0 <= q < |cells| ensures p.target(cells[q].width) == |Texts(cells)| {
      assert cells[q] in cells;
      assert plain[cells[q].i] in plain;
    }
  }

  /** In particular when every row counts the same total. */
  lemma BuildsRowMajor(p: Params, plain: Grid<Bytes>, members: seq<int>)
    requires Fits(p, plain) && Distinct(members) && |members| >= p.k && RowMajor(plain) != []
    ensures Construct(p, Arrivals(members, plain)).phase == Done
    ensures Construct(p, Arrivals(members, plain)).txs == RowMajor(plain)
  {
    FitsCounts(p, plain);
    BuildsExactly(p, plain, members);
  }

  /** All nodes build the same block, whoever answers them first. */
  lemma SameBlock(p: Params, plain: Grid<Bytes>, members: seq<int>, others: seq<int>)
    requires Shaped(p, plain) && CountsRight(p, GridCells(plain)) && RowMajor(plain) != []
    requires Distinct(members) && |members| >= p.k && Distinct(others) && |others| >= p.k
    ensures Construct(p, Arrivals(members, plain)).txs == Construct(p, Arrivals(others, plain)).txs
  {
    BuildsExactly(p, plain, members);
    BuildsExactly(p, plain, others);
  }

  // ---- The two kinds of block

  /** The number of messages in all pre-blocks. */
  function TotalQuality(pbs: seq<PreBlock>): nat {
    if pbs == [] then 0 else TotalQuality(pbs[..|pbs| - 1]) + Quality(pbs[|pbs| - 1].vec)
  }

  /** The setting of constructBlock: one pre-block is decrypted as a large block. */
  function Setting(n: nat, committeeSize: nat, pbs: seq<PreBlock>): Params {
    Params(|pbs| == 1, if |pbs| == 1 then |pbs[0].vec| else |pbs|, n, committeeSize / 2 + 1,
           TargetOf(|pbs| == 1, TotalQuality(pbs)))
  }

  lemma {:induction false} RowCounts(row: seq<Option<Bytes>>, vec: seq<Option<PreBlockMessage>>)
    requires |row| == |vec| && forall j :: 0 <= j < |row| ==> row[j].Some? == vec[j].Some?
    ensures |RowTexts(row)| == Quality(vec)
  {
    if row != [] {
      var before := vec[..|vec| - 1];
      RowCounts(row[..|row| - 1], before);
      EntriesAppend(before, vec[|vec| - 1]);
      assert vec == before + [vec[|vec| - 1]];
    }
  }

  /** A grid with a cell for every slot of the pre-blocks, nil where the slot is. */
  ghost predicate Matches(plain: Grid<Bytes>, pbs: seq<PreBlock>) {
    && |plain| == |pbs|
    && forall i :: 0 <= i < |plain| ==> SameShape(plain[i], pbs[i].vec)
  }

  ghost predicate SameShape(row: seq<Option<Bytes>>, vec: seq<Option<PreBlockMessage>>) {
    |row| == |vec| && forall j :: 0 <= j < |row| ==> row[j].Some? == vec[j].Some?
  }

  lemma {:induction false} GridCounts(plain: Grid<Bytes>, pbs: seq<PreBlock>)
    requires Matches(plain, pbs)
    ensures |RowMajor(plain)| == TotalQuality(pbs)
  {
    if plain != [] {
      assert SameShape(plain[|plain| - 1], pbs[|pbs| - 1].vec);
      GridCounts(plain[..|plain| - 1], pbs[..|pbs| - 1]);
      RowCounts(plain[|plain| - 1], pbs[|pbs| - 1].vec);
    }
  }

  /** Small pre-blocks, any number but one, with nil shares at their empty slots. */
  lemma SmallBlockFits(n: nat, committeeSize: nat, pbs: seq<PreBlock>, plain: Grid<Bytes>)
    requires |pbs| != 1 && Matches(plain, pbs) && forall pb :: pb in pbs ==> |pb.vec| <= n
    ensures Fits(Setting(n, committeeSize, pbs), plain)
  {
    GridCounts(plain, pbs);
    forall row | row in plain ensures |row| <= n {
      var i :| 0 <= i < |plain| && plain[i] == row;
      assert SameShape(plain[i], pbs[i].vec);
      assert pbs[i] in pbs;
    }
  }

  lemma {:induction false} RectangleCounts(plain: Grid<Bytes>, width: nat)
    requires forall i :: 0 <= i < |plain| ==> FullOf(plain[i], width)
    ensures |RowMajor(plain)| == |plain| * width
  {
    if plain != [] {
      var before := plain[..|plain| - 1];
      RectangleCounts(before, width);
      assert FullOf(plain[|plain| - 1], width);
      FullRow(plain[|plain| - 1]);
      OneMore(|before|, width);
    }
  }

  lemma OneMore(a: nat, width: nat)
    ensures (a + 1) * width == a * width + width
  {
  }

  predicate FullOf(row: seq<Option<Bytes>>, width: nat) {
    |row| == width && forall text :: text in row ==> text.Some?
  }

  lemma {:induction false} FullRow(row: seq<Option<Bytes>>)
    requires forall text :: text in row ==> text.Some?
    ensures |RowTexts(row)| == |row|
  {
    if row != [] {
      FullRow(row[..|row| - 1]);
    }
  }

  /** One full large pre-block, whose messages split into equally many ciphertexts, at most n. */
  lemma LargeBlockFits(n: nat, committeeSize: nat, pb: PreBlock, plain: Grid<Bytes>, width: nat)
    requires Full(pb) && |plain| == |pb.vec| && width <= n
    requires forall row :: row in plain ==> FullOf(row, width)
    ensures Fits(Setting(n, committeeSize, [pb]), plain)
  {
    RectangleCounts(plain, width);
    QualityFull(pb.vec);
    assert [pb][..0] == [];
    assert TotalQuality([pb]) == |plain|;
  }

  lemma {:induction false} FullCells(cells: seq<Cell<Bytes>>, c: nat)
    requires c <= |cells| && forall q :: 0 <= q < |cells| ==> cells[q].content.Some?
    ensures |Texts(cells[..c])| == c
  {
    if c > 0 {
      FullCells(cells, c - 1);
      TextsOne(cells, c - 1);
    }
  }

  /** With m messages, a cell whose number, counted from 1, is m times the width of its row is the
      last one, and the last one is such a cell. */
  predicate WidthsRight(plain: Grid<Bytes>) {
    var cells := GridCells(plain);
    forall q :: 0 <= q < |cells| ==> (q + 1 == |plain| * cells[q].width <==> q + 1 == |cells|)
  }

  lemma LargeSetting(n: nat, committeeSize: nat, pb: PreBlock, plain: Grid<Bytes>)
    requires Full(pb) && |plain| == |pb.vec| && forall row :: row in plain ==> |row| <= n && FullOf(row, |row|)
    ensures var p := Setting(n, committeeSize, [pb]);
      Shaped(p, plain) && p.large && p.k == committeeSize / 2 + 1 && p.target == TargetOf(true, |plain|)
  {
    QualityFull(pb.vec);
    assert [pb][..0] == [];
    assert TotalQuality([pb]) == |plain|;
  }

  lemma LargeHits(p: Params, cells: seq<Cell<Bytes>>, q: nat)
    requires q < |cells| && forall r :: 0 <= r < |cells| ==> cells[r].content.Some?
    ensures Hit(p, cells, q) <==> q + 1 == p.target(cells[q].width)
    ensures Last(cells, q) <==> q + 1 == |cells|
  {
    FullCells(cells, q + 1);
    FullCells(cells, |cells|);
    assert cells[..|cells|] == cells;
  }

  lemma LargeCounts(p: Params, plain: Grid<Bytes>)
    requires Shaped(p, plain) && p.large && p.target == TargetOf(true, |plain|)
    ensures CountsRight(p, GridCells(plain)) <==> WidthsRight(plain)
  {
    var cells := GridCells(plain);
    ShapedCells(p, plain);
    forall q | 0 <= q < |cells|
      ensures Hit(p, cells, q) <==> q + 1 == |plain| * cells[q].width
      ensures Last(cells, q) <==> q + 1 == |cells|
    {
      LargeHits(p, cells, q);
    }
  }

  /** A full large pre-block whose messages split into any numbers of ciphertexts, at most n: the block
      is right exactly when the widths are. */
  lemma LargeBlockExactly(n: nat, committeeSize: nat, pb: PreBlock, plain: Grid<Bytes>, members: seq<int>)
    requires Full(pb) && |plain| == |pb.vec| && RowMajor(plain) != []
    requires forall row :: row in plain ==> |row| <= n && FullOf(row, |row|)
    requires Distinct(members) && |members| >= committeeSize / 2 + 1
    ensures var s := Construct(Setting(n, committeeSize, [pb]), Arrivals(members, plain));
      s.phase == Done && s.txs == RowMajor(plain) <==> WidthsRight(plain)
  {
    var p := Setting(n, committeeSize, [pb]);
    LargeSetting(n, committeeSize, pb, plain);
    BuildsExactly(p, plain, members);
    LargeCounts(p, plain);
  }

  /** Two messages that split into two ciphertexts and one. */
  function Uneven(x: Bytes, y: Bytes, z: Bytes): Grid<Bytes> {
    [[Some(x), Some(y)], [Some(z)]]
  }

  lemma UnevenCells(x: Bytes, y: Bytes, z: Bytes)
    ensures GridCells(Uneven(x, y, z)) ==
            [Cell(0, 0, Some(x), 2), Cell(0, 1, Some(y), 2), Cell(1, 0, Some(z), 1)]
    ensures RowMajor(Uneven(x, y, z)) == [x, y, z]
  {
    var plain, first, second := Uneven(x, y, z), [Some(x), Some(y)], [Some(z)];
    assert plain[..1] == [first] && [first][..0] == [];
    assert GridCells([first]) == [] + RowCells(0, first);
    assert GridCells(plain) == GridCells([first]) + RowCells(1, second);
    var cells := GridCells(plain);
    assert cells[..2] == [Cell(0, 0, Some(x), 2), Cell(0, 1, Some(y), 2)];
    assert cells[..2][..1] == [Cell(0, 0, Some(x), 2)] && cells[..1][..0] == [];
    assert Texts(cells[..1]) == [x] && Texts(cells[..2]) == [x, y];
    assert cells[..3] == cells;
    TextsRowMajor(plain);
  }

  /** In the k-th vector no count meets the target of its row. */
  lemma UnevenMisses(p: Params, x: Bytes, y: Bytes, z: Bytes)
    requires p.large && p.target == TargetOf(true, 2)
    ensures var cells := GridCells(Uneven(x, y, z)); !Ended(p, cells, |cells|)
  {
    var cells := GridCells(Uneven(x, y, z));
    UnevenCells(x, y, z);
    forall q | 0 <= q < |cells| ensures !Hit(p, cells, q) {
      LargeHits(p, cells, q);
    }
    EndedAt(p, cells, |cells|);
  }

  lemma UnevenWaits(p: Params, x: Bytes, y: Bytes, z: Bytes, members: seq<int>)
    requires Shaped(p, Uneven(x, y, z)) && p.large && p.target == TargetOf(true, 2)
    requires Distinct(members) && |members| == p.k + 1
    ensures var s := Construct(p, Arrivals(members[..p.k], Uneven(x, y, z)));
      && s.phase == Waiting && s.txs == [x, y, z]
      && Overruns(s, GridCells(Uneven(x, y, z)), members[..p.k], 0)
  {
    var plain := Uneven(x, y, z);
    UnevenCells(x, y, z);
    UnevenMisses(p, x, y, z);
    TextsRowMajor(plain);
    AfterKVectors(p, plain, members);
    NotEnded(p, Construct(p, Arrivals(members[..p.k], plain)), GridCells(plain), members);
  }

  /** When the first vector too many comes, its first plaintext brings the count to four, which is
      the target of the first row. */
  lemma UnevenEnds(p: Params, s: State, x: Bytes, y: Bytes, z: Bytes, members: seq<int>)
    requires GoodCells(p, GridCells(Uneven(x, y, z))) && p.target == TargetOf(true, 2)
    requires Distinct(members) && |members| == p.k + 1 && s.phase == Waiting && s.txs == [x, y, z]
    requires Overruns(s, GridCells(Uneven(x, y, z)), members[..p.k], 0)
    ensures var s1 := FoldFrom(p, s, AllShared(members[p.k], GridCells(Uneven(x, y, z))));
      s1.phase == Done && s1.txs == [x, y, z, x]
  {
    var cells := GridCells(Uneven(x, y, z));
    UnevenCells(x, y, z);
    var shared := AllShared(members[p.k], cells);
    assert cells[..0] == [];
    assert Collected(s, cells[0], members[..p.k]);
    OneMoreText(p, s, cells[0], members);
    assert shared[..1] == [Shared(members[p.k], cells[0])] && shared[..1][..0] == [];
    assert FoldFrom(p, s, shared[..1]) == OnCell(p, s, Shared(members[p.k], cells[0]));
    CellStays(p, s, shared, 1);
  }

  /** The program's answer to such a pre-block: after the k-th vector it still waits, and one vector
      later it puts out a block with the first plaintext twice. */
  lemma UnevenSplit(n: nat, committeeSize: nat, pb: PreBlock, x: Bytes, y: Bytes, z: Bytes, members: seq<int>)
    requires n >= 2 && Full(pb) && |pb.vec| == 2 && Distinct(members) && |members| == committeeSize / 2 + 2
    ensures var p := Setting(n, committeeSize, [pb]);
      && Construct(p, Arrivals(members[..p.k], Uneven(x, y, z))).phase == Waiting
      && Construct(p, Arrivals(members, Uneven(x, y, z))).phase == Done
      && Construct(p, Arrivals(members, Uneven(x, y, z))).txs == [x, y, z, x]
  {
    var p, plain := Setting(n, committeeSize, [pb]), Uneven(x, y, z);
    LargeSetting(n, committeeSize, pb, plain);
    ShapedCells(p, plain);
    UnevenWaits(p, x, y, z, members);
    UnevenEnds(p, Construct(p, Arrivals(members[..p.k], plain)), x, y, z, members);
    NextArrival(p, plain, members);
  }

  // ---- The program's loops

  method CountTransactions(pbs: seq<PreBlock>) returns (txsCount: nat)
    ensures txsCount == TotalQuality(pbs)
  {
    txsCount := 0;
    for a := 0 to |pbs|
      invariant txsCount == TotalQuality(pbs[..a])
    {
      assert pbs[..a + 1][..a] == pbs[..a];
      txsCount := txsCount + Quality(pbs[a].vec);
    }
    assert pbs[..|pbs|] == pbs;
  }

  /** The share table agrees with the shares collected so far. */
  ghost predicate Table(p: Params, decshares: array2<seq<Option<Share>>>, s: State)
    reads decshares
  {
    && decshares.Length0 == p.rows && decshares.Length1 == p.n
    && forall i, j :: 0 <= i < p.rows && 0 <= j < p.n ==> decshares[i, j] == At(s.decshares, Pos(i, j))
  }

  ghost predicate Agrees(p: Params, decshares: array2<seq<Option<Share>>>, txs: seq<Bytes>, phase: Phase, s: State)
    reads decshares
  {
    txs == s.txs && phase == s.phase && (phase == Waiting ==> Table(p, decshares, s))
  }

  /** One share: fills its cell of the table and combines when there are enough. */
  method AddShare(p: Params, decshares: array2<seq<Option<Share>>>, c: Cell<Share>, txs: seq<Bytes>, ghost s: State)
    returns (txs': seq<Bytes>, phase: Phase)
    requires Agrees(p, decshares, txs, Waiting, s) && c.i >= 0 && c.j >= 0
    modifies decshares
    ensures Agrees(p, decshares, txs', phase, OnCell(p, s, c))
  {
    txs', phase := txs, Waiting;
    if c.i >= p.rows || c.j >= p.n {
      return txs, Panicked;
    }
    assert decshares[c.i, c.j] == At(s.decshares, Place(c));
    if c.content.Some? || p.large {
      decshares[c.i, c.j] := decshares[c.i, c.j] + [c.content];
    }
    var shares := decshares[c.i, c.j];
    assert shares == At(s.decshares, Place(c)) + if c.content.Some? || p.large then [c.content] else [];
    if |shares| >= p.k {
      var dec := Combine(p.k, shares);
      if dec.Some? {
        txs' := txs + [dec.value];
        if |txs'| == p.target(c.width) {
          phase := Done;
        }
      }
    }
  }

  /** The fold from a state on. */
  function FoldFrom(p: Params, s: State, cells: seq<Cell<Share>>): State {
    if cells == [] then s else OnCell(p, FoldFrom(p, s, cells[..|cells| - 1]), cells[|cells| - 1])
  }

  lemma {:induction false} FoldParts(p: Params, a: seq<Cell<Share>>, b: seq<Cell<Share>>)
    ensures FoldFrom(p, Fold(p, a), b) == Fold(p, a + b)
  {
    if b == [] {
      assert a + b == a;
    } else {
      FoldParts(p, a, b[..|b| - 1]);
      assert (a + b)[..|a + b| - 1] == a + b[..|b| - 1];
    }
  }

  lemma {:induction false} FromParts(p: Params, s: State, a: seq<Cell<Share>>, b: seq<Cell<Share>>)
    ensures FoldFrom(p, FoldFrom(p, s, a), b) == FoldFrom(p, s, a + b)
  {
    if b == [] {
      assert a + b == a;
    } else {
      FromParts(p, s, a, b[..|b| - 1]);
      assert (a + b)[..|a + b| - 1] == a + b[..|b| - 1];
    }
  }

  lemma {:induction false} FromEnds(p: Params, s: State, cells: seq<Cell<Share>>)
    requires s.phase != Waiting
    ensures FoldFrom(p, s, cells) == s
  {
    if cells != [] {
      FromEnds(p, s, cells[..|cells| - 1]);
    }
  }

  /** Handles the vectors that have arrived; the transactions are the block when the phase is Done. */
  method ConstructBlock(n: nat, committeeSize: nat, pbs: seq<PreBlock>, vectors: seq<Grid<Share>>)
    returns (txs: seq<Bytes>, phase: Phase)
    ensures var s := Construct(Setting(n, committeeSize, pbs), vectors); txs == s.txs && phase == s.phase
  {
    var txsCount := CountTransactions(pbs);
    var p := Params(|pbs| == 1, if |pbs| == 1 then |pbs[0].vec| else |pbs|, n, committeeSize / 2 + 1,
                    TargetOf(|pbs| == 1, txsCount));
    var decshares := new seq<Option<Share>>[p.rows, p.n]((i, j) => []);
    txs, phase := [], Waiting;
    ghost var s := INITIAL;
    for v := 0 to |vectors|
      invariant s == Construct(p, vectors[..v]) && Agrees(p, decshares, txs, phase, s) && phase == Waiting
    {
      txs, phase := AddVector(p, decshares, vectors[v], txs, s);
      s := FoldFrom(p, s, GridCells(vectors[v]));
      NextState(p, vectors, v);
      if phase != Waiting {
        StateStays(p, vectors, v + 1);
        return;
      }
    }
    assert vectors[..|vectors|] == vectors;
  }

  lemma NextState(p: Params, vectors: seq<Grid<Share>>, v: nat)
    requires v < |vectors|
    ensures Construct(p, vectors[..v + 1]) == FoldFrom(p, Construct(p, vectors[..v]), GridCells(vectors[v]))
  {
    assert vectors[..v + 1] == vectors[..v] + [vectors[v]];
    VectorsOne(vectors[..v], vectors[v]);
    FoldParts(p, VectorCells(vectors[..v]), GridCells(vectors[v]));
  }

  /** A finished construction ignores later vectors. */
  lemma {:induction false} StateStays(p: Params, vectors: seq<Grid<Share>>, v: nat)
    requires v <= |vectors| && Construct(p, vectors[..v]).phase != Waiting
    ensures Construct(p, vectors) == Construct(p, vectors[..v])
    decreases |vectors| - v
  {
    if v < |vectors| {
      NextState(p, vectors, v);
      FromEnds(p, Construct(p, vectors[..v]), GridCells(vectors[v]));
      StateStays(p, vectors, v + 1);
    } else {
      assert vectors[..v] == vectors;
    }
  }

  method AddVector(p: Params, decshares: array2<seq<Option<Share>>>, vector: Grid<Share>, txs: seq<Bytes>,
                   ghost s: State)
    returns (txs': seq<Bytes>, phase: Phase)
    requires Agrees(p, decshares, txs, Waiting, s)
    modifies decshares
    ensures Agrees(p, decshares, txs', phase, FoldFrom(p, s, GridCells(vector)))
  {
    txs', phase := txs, Waiting;
    ghost var r := s;
    for i := 0 to |vector|
      invariant r == FoldFrom(p, s, GridCells(vector[..i])) && Agrees(p, decshares, txs', phase, r) && phase == Waiting
    {
      txs', phase := AddRow(p, decshares, i, vector[i], txs', r);
      r := FoldFrom(p, r, RowCells(i, vector[i]));
      NextRow(p, s, vector, i);
      if phase != Waiting {
        RowStays(p, s, vector, i + 1);
        return;
      }
    }
    assert vector[..|vector|] == vector;
  }

  lemma NextRow(p: Params, s: State, grid: Grid<Share>, i: nat)
    requires i < |grid|
    ensures FoldFrom(p, s, GridCells(grid[..i + 1])) ==
            FoldFrom(p, FoldFrom(p, s, GridCells(grid[..i])), RowCells(i, grid[i]))
  {
    assert grid[..i + 1][..i] == grid[..i];
    FromParts(p, s, GridCells(grid[..i]), RowCells(i, grid[i]));
  }

  lemma {:induction false} RowStays(p: Params, s: State, grid: Grid<Share>, i: nat)
    requires i <= |grid| && FoldFrom(p, s, GridCells(grid[..i])).phase != Waiting
    ensures FoldFrom(p, s, GridCells(grid)) == FoldFrom(p, s, GridCells(grid[..i]))
    decreases |grid| - i
  {
    if i < |grid| {
      NextRow(p, s, grid, i);
      FromEnds(p, FoldFrom(p, s, GridCells(grid[..i])), RowCells(i, grid[i]));
      RowStays(p, s, grid, i + 1);
    } else {
      assert grid[..i] == grid;
    }
  }

  method AddRow(p: Params, decshares: array2<seq<Option<Share>>>, i: nat, row: seq<Option<Share>>, txs: seq<Bytes>,
                ghost s: State)
    returns (txs': seq<Bytes>, phase: Phase)
    requires Agrees(p, decshares, txs, Waiting, s)
    modifies decshares
    ensures Agrees(p, decshares, txs', phase, FoldFrom(p, s, RowCells(i, row)))
  {
    txs', phase := txs, Waiting;
    ghost var r := s;
    ghost var cells := RowCells(i, row);
    for j := 0 to |row|
      invariant r == FoldFrom(p, s, cells[..j]) && Agrees(p, decshares, txs', phase, r) && phase == Waiting
    {
      txs', phase := AddShare(p, decshares, Cell(i, j, row[j], |row|), txs', r);
      r := OnCell(p, r, cells[j]);
      NextCell(p, s, cells, j);
      if phase != Waiting {
        CellStays(p, s, cells, j + 1);
        return;
      }
    }
    assert cells[..|row|] == cells;
  }

  lemma CellStays(p: Params, s: State, cells: seq<Cell<Share>>, j: nat)
    requires j <= |cells| && FoldFrom(p, s, cells[..j]).phase != Waiting
    ensures FoldFrom(p, s, cells) == FoldFrom(p, s, cells[..j])
  {
    assert cells == cells[..j] + cells[j..];
    FromParts(p, s, cells[..j], cells[j..]);
    FromEnds(p, FoldFrom(p, s, cells[..j]), cells[j..]);
  }

  lemma NextCell(p: Params, s: State, cells: seq<Cell<Share>>, j: nat)
    requires j < |cells|
    ensures FoldFrom(p, s, cells[..j + 1]) == OnCell(p, FoldFrom(p, s, cells[..j]), cells[j])
  {
    assert cells[..j + 1][..j] == cells[..j];
  }
}
