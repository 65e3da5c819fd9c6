/** The transaction buffer: taking the transactions of a block out of it, in place, by moving the
    last entry into the gap while ranging over the buffer's old length. */
module TransactionBuffer {
  import opened Blocks

  // ---- What one block does to the buffer

  /** The last entry moves to index i. */
  function RemoveAt(buf: seq<Bytes>, i: nat): seq<Bytes>
    requires i < |buf|
  {
    buf[i := buf[|buf| - 1]][..|buf| - 1]
  }

  /** Index i and on of ranging over a buffer that had `end` entries at the start. Beyond the live
      entries there is nil, which equals the empty transaction only; removing it there panics. */
  function Sweep(buf: seq<Bytes>, tx: Bytes, i: nat, end: nat): Option<seq<Bytes>>
    requires |buf| <= end
    decreases end - i
  {
    if i >= end then Some(buf)
    else if i < |buf| then Sweep(if buf[i] == tx then RemoveAt(buf, i) else buf, tx, i + 1, end)
    else if tx == [] then None
    else Sweep(buf, tx, i + 1, end)
  }

  function RemoveTx(buf: seq<Bytes>, tx: Bytes): Option<seq<Bytes>> {
    Sweep(buf, tx, 0, |buf|)
  }

  /** The buffer after a block; None when the program panics. */
  function RemoveTxs(buf: seq<Bytes>, txs: seq<Bytes>): Option<seq<Bytes>> {
    if txs == [] then Some(buf)
    else
      var rest := RemoveTxs(buf, txs[..|txs| - 1]);
      if rest.None? then None else RemoveTx(rest.value, txs[|txs| - 1])
  }

  // ---- Conservation

  lemma RemoveAtCount(buf: seq<Bytes>, i: nat)
    requires i < |buf|
    ensures multiset(buf) == multiset(RemoveAt(buf, i)) + multiset{buf[i]}
  {
    var last := |buf| - 1;
    var moved := buf[i := buf[last]];
    assert moved == RemoveAt(buf, i) + [buf[last]];
    assert multiset(moved) == multiset(buf) - multiset{buf[i]} + multiset{buf[last]};
  }

  /** n copies of a transaction. */
  function Copies(tx: Bytes, n: nat): (m: multiset<Bytes>)
    ensures |m| == n && forall x :: m[x] == if x == tx then n else 0
  {
    if n == 0 then multiset{} else Copies(tx, n - 1) + multiset{tx}
  }

  /** A sweep loses copies of its transaction, one for each entry the buffer gets shorter. */
  lemma {:induction false} SweepConserves(buf: seq<Bytes>, tx: Bytes, i: nat, end: nat)
    requires |buf| <= end && Sweep(buf, tx, i, end).Some?
    ensures var r := Sweep(buf, tx, i, end).value;
      |r| <= |buf| && multiset(buf) == multiset(r) + Copies(tx, |buf| - |r|)
    decreases end - i
  {
    if i < end {
      if i < |buf| && buf[i] == tx {
        RemoveAtCount(buf, i);
        SweepConserves(RemoveAt(buf, i), tx, i + 1, end);
      } else {
        SweepConserves(buf, tx, i + 1, end);
      }
    }
  }

  lemma OneMoreLoss(a: multiset<Bytes>, b: multiset<Bytes>, r: multiset<Bytes>, tx: Bytes, n: nat)
    requires b <= a && b == r + Copies(tx, n)
    ensures r <= a && a - r == (a - b) + Copies(tx, n)
  {
  }

  /** Conservation over a whole block: the old buffer is the new one plus what was removed; as many
      entries were removed as the buffer got shorter, and each of them is in the block. */
  lemma {:induction false} BlockConserves(buf: seq<Bytes>, txs: seq<Bytes>)
    requires RemoveTxs(buf, txs).Some?
    ensures var r := RemoveTxs(buf, txs).value;
      && multiset(r) <= multiset(buf) && |multiset(buf) - multiset(r)| == |buf| - |r|
      && forall x :: x in multiset(buf) - multiset(r) ==> x in txs
  {
    if txs != [] {
      var before, tx := txs[..|txs| - 1], txs[|txs| - 1];
      BlockConserves(buf, before);
      var mid := RemoveTxs(buf, before).value;
      SweepConserves(mid, tx, 0, |mid|);
      var r := RemoveTxs(buf, txs).value;
      OneMoreLoss(multiset(buf), multiset(mid), multiset(r), tx, |mid| - |r|);
    }
  }

  // ---- Panics

  /** Ranging over the empty transaction panics exactly when one sits before the buffer's end. */
  lemma {:induction false} SweepPanics(buf: seq<Bytes>, tx: Bytes, i: nat, end: nat)
    requires |buf| <= end
    ensures Sweep(buf, tx, i, end).None? <==>
            tx == [] && i < end && (|buf| < end || exists j :: i <= j < |buf| - 1 && buf[j] == [])
    decreases end - i
  {
    if i < end {
      if i < |buf| && buf[i] == tx {
        SweepPanics(RemoveAt(buf, i), tx, i + 1, end);
      } else {
        SweepPanics(buf, tx, i + 1, end);
      }
    }
  }

  lemma PanicsExactly(buf: seq<Bytes>, tx: Bytes)
    ensures RemoveTx(buf, tx).None? <==> tx == [] && exists j :: 0 <= j < |buf| - 1 && buf[j] == []
  {
    SweepPanics(buf, tx, 0, |buf|);
  }

  /** An empty transaction is due that finds another before the last entry of what is left by then. */
  ghost predicate PanicsAt(buf: seq<Bytes>, txs: seq<Bytes>, k: nat)
    requires k < |txs|
  {
    && txs[k] == [] && RemoveTxs(buf, txs[..k]).Some?
    && var r := RemoveTxs(buf, txs[..k]).value; exists j :: 0 <= j < |r| - 1 && r[j] == []
  }

  /** A block panics exactly when one of its transactions does. */
  lemma {:induction false} BlockPanicsExactly(buf: seq<Bytes>, txs: seq<Bytes>)
    ensures RemoveTxs(buf, txs).None? <==> exists k :: 0 <= k < |txs| && PanicsAt(buf, txs, k)
  {
    if txs != [] {
      var last := |txs| - 1;
      var before := txs[..last];
      BlockPanicsExactly(buf, before);
      forall k | 0 <= k < last ensures PanicsAt(buf, txs, k) <==> PanicsAt(buf, before, k) {
        assert before[..k] == txs[..k];
      }
      if RemoveTxs(buf, before).Some? {
        PanicsExactly(RemoveTxs(buf, before).value, txs[last]);
        assert PanicsAt(buf, txs, last) <==> RemoveTxs(buf, txs).None?;
      }
    }
  }

  /** Of two entries that are the same transaction one is not the last. */
  lemma {:induction false} EarlierCopy(buf: seq<Bytes>, tx: Bytes)
    requires multiset(buf)[tx] >= 2
    ensures exists j :: 0 <= j < |buf| - 1 && buf[j] == tx
  {
    var last := |buf| - 1;
    assert buf == buf[..last] + [buf[last]];
    assert multiset(buf[..last])[tx] >= 1;
    assert tx in buf[..last];
  }

  /** On the buffer as it was: unless it has exactly one empty transaction, a block panics if and only
      if the buffer has two or more and the block has one. */
  lemma {:induction false} BlockPanics(buf: seq<Bytes>, txs: seq<Bytes>)
    requires multiset(buf)[[]] != 1
    ensures RemoveTxs(buf, txs).None? <==> [] in txs && multiset(buf)[[]] >= 2
  {
    if txs != [] {
      var before, tx := txs[..|txs| - 1], txs[|txs| - 1];
      BlockPanics(buf, before);
      assert txs == before + [tx];
      if RemoveTxs(buf, before).Some? {
        var mid := RemoveTxs(buf, before).value;
        BlockConserves(buf, before);
        EmptiesStay(buf, mid, before);
        PanicsExactly(mid, tx);
        if multiset(mid)[[]] >= 2 {
          EarlierCopy(mid, []);
        } else {
          assert multiset(mid)[[]] == 0;
          assert forall j :: 0 <= j < |mid| ==> mid[j] in multiset(mid);
        }
      }
    }
  }

  /** Without panics nothing but the block's transactions goes, and of empty ones only a single one. */
  lemma EmptiesStay(buf: seq<Bytes>, r: seq<Bytes>, txs: seq<Bytes>)
    requires multiset(r) <= multiset(buf) && forall x :: x in multiset(buf) - multiset(r) ==> x in txs
    requires [] in txs ==> multiset(buf)[[]] < 2
    requires multiset(buf)[[]] != 1
    ensures multiset(r)[[]] == multiset(buf)[[]]
  {
    assert multiset(r)[[]] < multiset(buf)[[]] ==> [] in multiset(buf) - multiset(r);
  }

  /** No panic for a block without empty transactions. */
  lemma {:induction false} NoPanic(buf: seq<Bytes>, txs: seq<Bytes>)
    requires [] !in txs
    ensures RemoveTxs(buf, txs).Some?
  {
    if txs != [] {
      NoPanic(buf, txs[..|txs| - 1]);
      PanicsExactly(RemoveTxs(buf, txs[..|txs| - 1]).value, txs[|txs| - 1]);
    }
  }

  // ---- What is left of a transaction

  /** Ranging never comes back to what it has passed. */
  lemma {:induction false} SweepPrefix(buf: seq<Bytes>, tx: Bytes, i: nat, end: nat)
    requires i <= |buf| <= end && Sweep(buf, tx, i, end).Some?
    ensures var r := Sweep(buf, tx, i, end).value; i <= |r| && r[..i] == buf[..i]
    decreases end - i
  {
    if i == |buf| {
      SweepBeyond(buf, tx, i, end);
    } else {
      var buf1 := if buf[i] == tx then RemoveAt(buf, i) else buf;
      if i + 1 <= |buf1| {
        SweepPrefix(buf1, tx, i + 1, end);
        var r := Sweep(buf, tx, i, end).value;
        assert r[..i] == r[..i + 1][..i] && buf[..i] == buf1[..i + 1][..i];
      } else {
        SweepBeyond(buf1, tx, i + 1, end);
      }
    }
  }

  lemma {:induction false} SweepBeyond(buf: seq<Bytes>, tx: Bytes, i: nat, end: nat)
    requires |buf| <= end && |buf| <= i && Sweep(buf, tx, i, end).Some?
    ensures Sweep(buf, tx, i, end).value == buf
    decreases end - i
  {
    if i < end {
      SweepBeyond(buf, tx, i + 1, end);
    }
  }

  lemma {:induction false} CountBound(s: seq<Bytes>, tx: Bytes)
    ensures multiset(s)[tx] <= |s|
  {
    if s != [] {
      CountBound(s[..|s| - 1], tx);
      assert s == s[..|s| - 1] + [s[|s| - 1]];
    }
  }

  lemma CountFrom(buf: seq<Bytes>, tx: Bytes, i: nat, j: nat)
    requires i <= j <= |buf| && tx !in buf[..i] && tx !in buf[j..]
    ensures multiset(buf)[tx] <= j - i
  {
    assert buf == buf[..i] + buf[i..j] + buf[j..];
    CountBound(buf[i..j], tx);
    assert multiset(buf[..i])[tx] == 0 && multiset(buf[j..])[tx] == 0;
  }

  lemma TwoCopies(buf: seq<Bytes>, tx: Bytes, i: nat, j: nat)
    requires i < j < |buf| && buf[i] == tx == buf[j]
    ensures multiset(buf)[tx] >= 2
  {
    assert buf == buf[..j] + [buf[j]] + buf[j + 1..];
    assert buf[i] in buf[..j];
    assert multiset(buf[..j])[tx] >= 1;
  }

  /** With c copies in the buffer, none of the last c - 1 entries is one. */
  ghost predicate CleanEnd(buf: seq<Bytes>, tx: Bytes) {
    forall k :: 0 <= k < |buf| && k + multiset(buf)[tx] > |buf| ==> buf[k] != tx
  }

  lemma EndKept(buf: seq<Bytes>, tx: Bytes, i: nat)
    requires i < |buf| - 1 && tx !in buf[..i] && buf[i] == tx && buf[|buf| - 1] != tx
    ensures CleanEnd(RemoveAt(buf, i), tx) <==> CleanEnd(buf, tx)
  {
    var last := |buf| - 1;
    var buf1 := RemoveAt(buf, i);
    RemoveAtCount(buf, i);
    CountFrom(buf, tx, i, last);
    assert i + multiset(buf)[tx] <= last;
    assert forall k :: 0 <= k < last ==> buf1[k] == if k == i then buf[last] else buf[k];
  }

  /** The entry moved into the gap is skipped: a sweep takes out all copies exactly when none of
      them is moved. */
  lemma {:induction false} SweepLeaves(buf: seq<Bytes>, tx: Bytes, i: nat, end: nat)
    requires i <= |buf| <= end && tx !in buf[..i] && Sweep(buf, tx, i, end).Some?
    ensures tx !in Sweep(buf, tx, i, end).value <==> CleanEnd(buf, tx)
    decreases end - i
  {
    var last := |buf| - 1;
    if i == |buf| {
      SweepBeyond(buf, tx, i, end);
      assert buf[..i] == buf;
    } else if buf[i] != tx {
      assert buf[..i + 1] == buf[..i] + [buf[i]];
      SweepLeaves(buf, tx, i + 1, end);
    } else {
      var buf1 := RemoveAt(buf, i);
      if i == last {
        RemoveAtCount(buf, i);
        assert buf1 == buf[..i];
        SweepBeyond(buf1, tx, i + 1, end);
        assert multiset(buf1)[tx] == 0;
      } else if buf[last] == tx {
        TwoCopies(buf, tx, i, last);
        SweepPrefix(buf1, tx, i + 1, end);
        var r := Sweep(buf, tx, i, end).value;
        assert r[i] == r[..i + 1][i] == buf1[..i + 1][i] == tx;
      } else {
        assert buf1[..i + 1] == buf[..i] + [buf[last]];
        SweepLeaves(buf1, tx, i + 1, end);
        EndKept(buf, tx, i);
      }
    }
  }

  lemma LeftExactly(buf: seq<Bytes>, tx: Bytes)
    requires RemoveTx(buf, tx).Some?
    ensures tx !in RemoveTx(buf, tx).value <==> CleanEnd(buf, tx)
  {
    SweepLeaves(buf, tx, 0, |buf|);
  }

  /** The same over a block, for the last time it names a transaction: what comes later brings back
      no copy. */
  lemma {:induction false} BlockLeftExactly(buf: seq<Bytes>, txs: seq<Bytes>, k: nat)
    requires k < |txs| && txs[k] !in txs[k + 1..] && RemoveTxs(buf, txs).Some?
    ensures RemoveTxs(buf, txs[..k]).Some?
    ensures txs[k] !in RemoveTxs(buf, txs).value <==> CleanEnd(RemoveTxs(buf, txs[..k]).value, txs[k])
    decreases |txs|
  {
    var last := |txs| - 1;
    var before := txs[..last];
    if k == last {
      LeftExactly(RemoveTxs(buf, before).value, txs[k]);
    } else {
      assert before[k + 1..] == txs[k + 1..][..last - k - 1];
      assert before[..k] == txs[..k];
      BlockLeftExactly(buf, before, k);
      assert txs[last] == txs[k + 1..][last - k - 1];
      var mid := RemoveTxs(buf, before).value;
      SweepConserves(mid, txs[last], 0, |mid|);
      assert multiset(mid)[txs[k]] == multiset(RemoveTxs(buf, txs).value)[txs[k]];
    }
  }

  /** Two copies at the end of the buffer: one stays. */
  lemma CopyStays(tx: Bytes)
    requires tx != []
    ensures RemoveTx([tx, tx], tx) == Some([tx])
  {
    assert RemoveAt([tx, tx], 0) == [tx];
    SweepBeyond([tx], tx, 1, 2);
  }

  /** No transaction is in the buffer twice. */
  ghost predicate Once(buf: seq<Bytes>) {
    forall x :: multiset(buf)[x] <= 1
  }

  lemma OnceRemoved(buf: seq<Bytes>, tx: Bytes)
    requires Once(buf) && RemoveTx(buf, tx).Some?
    ensures var r := RemoveTx(buf, tx).value;
      forall x :: multiset(r)[x] == if x == tx then 0 else multiset(buf)[x]
  {
    LeftExactly(buf, tx);
    SweepConserves(buf, tx, 0, |buf|);
  }

  /** For a buffer without duplicates the result is exactly the old buffer minus the block. */
  lemma {:induction false} BlockRemoved(buf: seq<Bytes>, txs: seq<Bytes>)
    requires Once(buf) && RemoveTxs(buf, txs).Some?
    ensures var r := RemoveTxs(buf, txs).value;
      Once(r) && forall x :: multiset(r)[x] == if x in txs then 0 else multiset(buf)[x]
  {
    if txs != [] {
      var before, tx := txs[..|txs| - 1], txs[|txs| - 1];
      BlockRemoved(buf, before);
      OnceRemoved(RemoveTxs(buf, before).value, tx);
      assert txs == before + [tx];
    }
  }

  /** With duplicates, every transaction of the block that is in the buffer loses a copy. */
  lemma {:induction false} BlockProgress(buf: seq<Bytes>, txs: seq<Bytes>, tx: Bytes)
    requires RemoveTxs(buf, txs).Some? && tx in txs && tx in buf
    ensures multiset(RemoveTxs(buf, txs).value)[tx] < multiset(buf)[tx]
  {
    var before, last := txs[..|txs| - 1], txs[|txs| - 1];
    var mid := RemoveTxs(buf, before).value;
    BlockConserves(buf, before);
    SweepConserves(mid, last, 0, |mid|);
    assert multiset(mid)[tx] <= multiset(buf)[tx];
    if tx in before {
      BlockProgress(buf, before, tx);
    } else if tx in mid {
      assert tx == last;
      var k :| 0 <= k < |mid| && mid[k] == tx;
      SweepProgress(mid, tx, 0, |mid|, k);
    }
  }

  lemma {:induction false} SweepProgress(buf: seq<Bytes>, tx: Bytes, i: nat, end: nat, k: nat)
    requires i <= k < |buf| <= end && buf[k] == tx && Sweep(buf, tx, i, end).Some?
    ensures |Sweep(buf, tx, i, end).value| < |buf|
    decreases end - i
  {
    if buf[i] == tx {
      SweepConserves(RemoveAt(buf, i), tx, i + 1, end);
    } else {
      SweepProgress(buf, tx, i + 1, end, k);
    }
  }

  // ---- The buffer as the program keeps it

  /** A slice: the live entries are the first len of the array; removed places hold nil, which is
      written as the empty transaction here, since the program's comparison cannot tell them apart. */
  class Buffer {
    var arr: array<Bytes>
    var len: nat
    var blocks: map<int, seq<Bytes>>

    ghost predicate Valid()
      reads this
    {
      len <= arr.Length
    }

    ghost function Contents(): seq<Bytes>
      reads this, arr
      requires Valid()
    {
      arr[..len]
    }

    constructor (txs: seq<Bytes>)
      ensures Valid() && fresh(arr) && Contents() == txs && blocks == map[]
    {
      arr := new Bytes[|txs|](i requires 0 <= i < |txs| => txs[i]);
      len := |txs|;
      blocks := map[];
      new;
      assert arr[..len] == txs;
    }

    method Remove(i: nat)
      requires Valid() && i < len
      modifies this`len, arr
      ensures Valid() && len == old(len) - 1
      ensures Contents() == RemoveAt(old(Contents()), i)
      ensures arr[len] == [] && forall j :: old(len) <= j < arr.Length ==> arr[j] == old(arr[j])
    {
      arr[i] := arr[len - 1];
      arr[len - 1] := [];
      len := len - 1;
    }

    /** One transaction: ranges over the length at the start; `ok` is false when Remove panics. */
    method TakeOut(tx: Bytes) returns (ok: bool)
      requires Valid()
      modifies this`len, arr
      ensures Valid() && ok == RemoveTx(old(Contents()), tx).Some?
      ensures ok ==> Contents() == RemoveTx(old(Contents()), tx).value
    {
      var end := len;
      for i := 0 to end
        invariant Valid() && len <= end
        invariant forall j :: len <= j < end ==> arr[j] == []
        invariant Sweep(Contents(), tx, i, end) == RemoveTx(old(Contents()), tx)
      {
        if arr[i] == tx {
          if i >= len {
            return false;
          }
          Remove(i);
        }
      }
      return true;
    }

    /** Takes a block out of the buffer and keeps it as the block of round r. */
    method SetBlock(r: int, txs: seq<Bytes>) returns (ok: bool, removedTxs: nat)
      requires Valid()
      modifies this, arr
      ensures Valid() && arr == old(arr) && ok == RemoveTxs(old(Contents()), txs).Some?
      ensures ok ==>
                && Contents() == RemoveTxs(old(Contents()), txs).value
                && removedTxs == |old(Contents())| - |Contents()|
                && blocks == old(blocks)[r := txs]
    {
      ok, removedTxs := true, 0;
      for a := 0 to |txs|
        invariant Valid() && arr == old(arr) && blocks == old(blocks)
        invariant RemoveTxs(old(Contents()), txs[..a]) == Some(Contents())
        invariant removedTxs == |old(Contents())| - len
      {
        assert txs[..a + 1][..a] == txs[..a];
        var before := len;
        ghost var buf := Contents();
        ok := TakeOut(txs[a]);
        if !ok {
          PanicStays(old(Contents()), txs, a + 1);
          return;
        }
        SweepConserves(buf, txs[a], 0, |buf|);
        removedTxs := removedTxs + (before - len);
      }
      assert txs[..|txs|] == txs;
      blocks := blocks[r := txs];
    }
  }

  lemma {:induction false} PanicStays(buf: seq<Bytes>, txs: seq<Bytes>, a: nat)
    requires a <= |txs| && RemoveTxs(buf, txs[..a]).None?
    ensures RemoveTxs(buf, txs).None?
    decreases |txs|
  {
    if a < |txs| {
      assert txs[..|txs| - 1][..a] == txs[..a];
      PanicStays(buf, txs[..|txs| - 1], a);
    } else {
      assert txs[..a] == txs;
    }
  }
}
