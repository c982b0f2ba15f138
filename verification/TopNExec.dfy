/** TopNExec: rows in growing chunks, pointers to the kept ones in a heap. */
module TopNExec {
  import opened TopNSpec

  const UINT64: nat := 0x1_0000_0000_0000_0000
  const COMPACTION_FACTOR: nat := 4

  /** An unsigned 64-bit integer read as a signed one. */
  function AsInt(x: nat): int {
    if x < 0x8000_0000_0000_0000 then x else x - UINT64
  }

  function Flatten<Row>(chunks: seq<seq<Row>>): seq<Row> {
    if chunks == [] then [] else chunks[0] + Flatten(chunks[1..])
  }

  /** A child signals its end by an empty chunk, so no chunk before the end is empty. */
  predicate NonEmpty<Row>(chunks: seq<seq<Row>>) {
    forall i :: 0 <= i < |chunks| ==> |chunks[i]| > 0
  }

  function Min(a: nat, b: nat): nat { if a < b then a else b }

  ghost predicate InBounds<Row>(rows: seq<Row>, ptrs: seq<nat>) {
    forall i :: 0 <= i < |ptrs| ==> ptrs[i] < |rows|
  }

  /** The rows the pointers stand for. */
  ghost function Rows<Row>(rows: seq<Row>, ptrs: seq<nat>): seq<Row>
    requires InBounds(rows, ptrs)
  {
    seq(|ptrs|, i requires 0 <= i < |ptrs| => rows[ptrs[i]])
  }

  lemma {:induction false} RowsLength<Row>(rows: seq<Row>, ptrs: seq<nat>)
    requires InBounds(rows, ptrs)
    ensures |Rows(rows, ptrs)| == |ptrs|
  {
  }

  lemma {:induction false} RowsSwap<Row>(rows: seq<Row>, ptrs: seq<nat>, i: nat, j: nat)
    requires InBounds(rows, ptrs) && i < |ptrs| && j < |ptrs|
    ensures InBounds(rows, Swap(ptrs, i, j)) && Rows(rows, Swap(ptrs, i, j)) == Swap(Rows(rows, ptrs), i, j)
    ensures Same(Rows(rows, Swap(ptrs, i, j)), Rows(rows, ptrs))
  {
    assert Rows(rows, Swap(ptrs, i, j)) == Swap(Rows(rows, ptrs), i, j);
    SwapKeeps(Rows(rows, ptrs), i, j);
  }

  lemma {:induction false} RowsAppend<Row>(rows: seq<Row>, x: Row, ptrs: seq<nat>)
    requires InBounds(rows, ptrs) && ptrs != []
    ensures InBounds(rows + [x], ptrs[0 := |rows|])
    ensures Rows(rows + [x], ptrs[0 := |rows|]) == Rows(rows, ptrs)[0 := x]
  {
  }

  class Exec<Row(!new)> {
    const items: seq<ByItem<Row>>
    const offset: nat
    const count: nat
    const totalLimit: nat
    var child: seq<seq<Row>>
    var rowChunks: seq<Row>
    var rowPtrs: seq<nat>
    var idx: int
    /** Everything read from the child, and what was let go of it. */
    ghost var input: seq<Row>
    ghost var dropped: seq<Row>

    /** A LIMIT clause over a child that returns the given chunks, none of them empty. */
    constructor (items: seq<ByItem<Row>>, offset: nat, count: nat, child: seq<seq<Row>>)
      requires offset < UINT64 && count < UINT64
      ensures this.items == items && this.offset == offset && this.count == count && this.child == child
      ensures totalLimit == (offset + count) % UINT64 && rowChunks == [] && rowPtrs == [] && idx == AsInt(offset)
      ensures input == [] && dropped == []
    {
      this.items := items;
      this.offset := offset;
      this.count := count;
      this.totalLimit := (offset + count) % UINT64;
      this.child := child;
      rowChunks := [];
      rowPtrs := [];
      idx := AsInt(offset);
      input := [];
      dropped := [];
    }

    method GreaterRow(a: Row, b: Row) returns (r: bool)
      ensures r == (Compare(items, a, b) > 0) == After(items, a, b)
    {
      CompareMeans(items, a, b);
      var i := 0;
      while i < |items|
        invariant 0 <= i <= |items|
        invariant Compare(items, a, b) == Compare(items[i..], a, b)
      {
        assert items[i..][1..] == items[i + 1..];
        var cmp := items[i].cmp(a, b);
        if items[i].desc {
          cmp := -cmp;
        }
        if cmp > 0 {
          return true;
        } else if cmp < 0 {
          return false;
        }
        i := i + 1;
      }
      return false;
    }

    method LessRow(a: Row, b: Row) returns (r: bool)
      ensures r == (Compare(items, a, b) < 0) == Before(items, a, b)
    {
      CompareMeans(items, a, b);
      var i := 0;
      while i < |items|
        invariant 0 <= i <= |items|
        invariant Compare(items, a, b) == Compare(items[i..], a, b)
      {
        assert items[i..][1..] == items[i + 1..];
        var cmp := items[i].cmp(a, b);
        if items[i].desc {
          cmp := -cmp;
        }
        if cmp < 0 {
          return true;
        } else if cmp > 0 {
          return false;
        }
        i := i + 1;
      }
      return false;
    }

    /** heap.Interface's Less: pointer `i` stands for a greater row than pointer `j`. */
    method Less(i: nat, j: nat) returns (r: bool)
      requires InBounds(rowChunks, rowPtrs) && i < |rowPtrs| && j < |rowPtrs|
      ensures r == (Compare(items, Rows(rowChunks, rowPtrs)[i], Rows(rowChunks, rowPtrs)[j]) > 0)
    {
      r := GreaterRow(rowChunks[rowPtrs[i]], rowChunks[rowPtrs[j]]);
    }

    /** The index of the greater child of node `i`. */
    method GreaterChild(i: nat, n: nat) returns (j: nat)
      requires InBounds(rowChunks, rowPtrs) && 2 * i + 1 < n <= |rowPtrs| && Lawful(items)
      ensures (j == 2 * i + 1 || j == 2 * i + 2) && j < n
      ensures ChildrenLe(items, Rows(rowChunks, rowPtrs), n, i, Rows(rowChunks, rowPtrs)[j])
    {
      ghost var h := Rows(rowChunks, rowPtrs);
      j := 2 * i + 1;
      var j2 := j + 1;
      LeTotal(items, h[j], h[j]);
      if j2 < n {
        LeTotal(items, h[j2], h[j2]);
        CompareFlips(items, h[j], h[j2]);
        var less := Less(j2, j);
        if less {
          j := j2;
        }
      }
    }

    /** Lets the row at `i0` sink until no child is greater. */
    method Down(i0: nat, n: nat)
      requires InBounds(rowChunks, rowPtrs) && i0 < n <= |rowPtrs| && Lawful(items)
      requires HeapFrom(items, Rows(rowChunks, rowPtrs), n, i0 + 1)
      modifies this`rowPtrs
      ensures InBounds(rowChunks, rowPtrs) && |rowPtrs| == old(|rowPtrs|)
      ensures HeapFrom(items, Rows(rowChunks, rowPtrs), n, i0)
      ensures Same(Rows(rowChunks, rowPtrs), old(Rows(rowChunks, rowPtrs)))
      ensures forall k :: n <= k < |rowPtrs| ==> rowPtrs[k] == old(rowPtrs[k])
    {
      hide Le, Lawful, Ranked, ChildrenLe;
      var i := i0;
      SinkStarts(items, Rows(rowChunks, rowPtrs), n, i0);
      while true
        invariant InBounds(rowChunks, rowPtrs) && |rowPtrs| == old(|rowPtrs|)
        invariant Sinking(items, Rows(rowChunks, rowPtrs), n, i0, i)
        invariant Same(Rows(rowChunks, rowPtrs), old(Rows(rowChunks, rowPtrs)))
        invariant forall k :: n <= k < |rowPtrs| ==> rowPtrs[k] == old(rowPtrs[k])
        decreases n - i
      {
        ghost var h := Rows(rowChunks, rowPtrs);
        if 2 * i + 1 >= n {
          NoChildren(items, h, n, i);
          SinkEnds(items, h, n, i0, i);
          break;
        }
        var j := GreaterChild(i, n);
        var less := Less(j, i);
        if !less {
          ChildrenBelow(items, h, n, i, j);
          SinkEnds(items, h, n, i0, i);
          break;
        }
        GreaterIsLe(items, h[j], h[i]);
        SinkStep(items, h, n, i0, i, j);
        RowsSwap(rowChunks, rowPtrs, i, j);
        rowPtrs := Swap(rowPtrs, i, j);
        i := j;
      }
    }

    /** heap.Init */
    method InitHeap()
      requires InBounds(rowChunks, rowPtrs) && Lawful(items)
      modifies this`rowPtrs
      ensures InBounds(rowChunks, rowPtrs) && |rowPtrs| == old(|rowPtrs|)
      ensures HeapFrom(items, Rows(rowChunks, rowPtrs), |rowPtrs|, 0)
      ensures Same(Rows(rowChunks, rowPtrs), old(Rows(rowChunks, rowPtrs)))
    {
      hide Le, Lawful, Ranked;
      var n := |rowPtrs|;
      var i := n / 2;
      while i > 0
        invariant 0 <= i <= n / 2
        invariant InBounds(rowChunks, rowPtrs) && |rowPtrs| == n
        invariant HeapFrom(items, Rows(rowChunks, rowPtrs), n, i)
        invariant Same(Rows(rowChunks, rowPtrs), old(Rows(rowChunks, rowPtrs)))
      {
        i := i - 1;
        Down(i, n);
      }
    }

    /** heap.Pop: drops a greatest row. */
    method PopHeap()
      requires InBounds(rowChunks, rowPtrs) && Lawful(items) && rowPtrs != []
      requires HeapFrom(items, Rows(rowChunks, rowPtrs), |rowPtrs|, 0)
      requires Split(items, Rows(rowChunks, rowPtrs), dropped, input)
      modifies this`rowPtrs, this`dropped
      ensures InBounds(rowChunks, rowPtrs) && |rowPtrs| == old(|rowPtrs|) - 1
      ensures HeapFrom(items, Rows(rowChunks, rowPtrs), |rowPtrs|, 0)
      ensures Split(items, Rows(rowChunks, rowPtrs), dropped, input)
    {
      hide Le, Lawful, Ranked, Split;
      var n := |rowPtrs| - 1;
      ghost var h0 := Rows(rowChunks, rowPtrs);
      RowsSwap(rowChunks, rowPtrs, 0, n);
      SwappedRoot(items, h0, n);
      rowPtrs := Swap(rowPtrs, 0, n);
      SplitSame(items, h0, Rows(rowChunks, rowPtrs), dropped, input);
      ghost var h1 := Rows(rowChunks, rowPtrs);
      if n > 0 {
        Down(0, n);
        SplitSame(items, h1, Rows(rowChunks, rowPtrs), dropped, input);
      }
      ghost var h2 := Rows(rowChunks, rowPtrs);
      GreatestStays(items, h0, h2, n);
      PopRoot(items, h2, dropped, input);
      dropped := dropped + [h2[n]];
      rowPtrs := rowPtrs[..n];
      assert Rows(rowChunks, rowPtrs) == h2[..n];
      HeapShrinks(items, h2, n);
    }

    /** Reads chunks until there are enough rows or the child is exhausted, and points at all of them. */
    method LoadChunksUntilTotalLimit()
      requires rowChunks == [] && input == [] && NonEmpty(child)
      modifies this`child, this`rowChunks, this`rowPtrs, this`input
      ensures NonEmpty(child) && input + Flatten(child) == old(Flatten(child))
      ensures InBounds(rowChunks, rowPtrs) && Rows(rowChunks, rowPtrs) == rowChunks == input
      ensures |input| >= totalLimit || child == []
      ensures totalLimit == 0 ==> child == old(child)
    {
      while |rowChunks| < totalLimit && child != []
        invariant rowChunks == input && NonEmpty(child) && input + Flatten(child) == old(Flatten(child))
        invariant totalLimit == 0 ==> child == old(child)
        decreases |child|
      {
        var chk := child[0];
        assert input + (chk + Flatten(child[1..])) == (input + chk) + Flatten(child[1..]);
        child := child[1..];
        rowChunks := rowChunks + chk;
        input := input + chk;
      }
      rowPtrs := [];
      var i := 0;
      while i < |rowChunks|
        invariant 0 <= i <= |rowChunks| && |rowPtrs| == i && forall k :: 0 <= k < i ==> rowPtrs[k] == k
        invariant rowChunks == input && NonEmpty(child) && input + Flatten(child) == old(Flatten(child))
        invariant |input| >= totalLimit || child == []
        invariant totalLimit == 0 ==> child == old(child)
      {
        rowPtrs := rowPtrs + [i];
        i := i + 1;
      }
    }

    ghost predicate Processing()
      reads this
    {
      && InBounds(rowChunks, rowPtrs)
      && HeapFrom(items, Rows(rowChunks, rowPtrs), |rowPtrs|, 0)
      && Split(items, Rows(rowChunks, rowPtrs), dropped, input)
    }

    /** Every further row either replaces the greatest kept one or is dropped. */
    method ProcessChildChk(chk: seq<Row>)
      requires Processing() && Lawful(items) && rowPtrs != []
      modifies this`rowChunks, this`rowPtrs, this`dropped, this`input
      ensures Processing() && |rowPtrs| == old(|rowPtrs|) && input == old(input) + chk
    {
      hide Le, Lawful, Ranked, Split, HeapFrom;
      var i := 0;
      assert chk[..0] == [] && input + [] == input;
      while i < |chk|
        invariant 0 <= i <= |chk| && Processing() && |rowPtrs| == old(|rowPtrs|) && input == old(input) + chk[..i]
      {
        var heapMax, next := rowChunks[rowPtrs[0]], chk[i];
        ghost var h := Rows(rowChunks, rowPtrs);
        assert old(input) + chk[..i] + [next] == old(input) + chk[..i + 1];
        var greater := GreaterRow(heapMax, next);
        if greater {
          GreaterIsLe(items, heapMax, next);
          DropRoot(items, h, dropped, input, next);
          RootReplaced(items, h, |h|, next);
          RowsAppend(rowChunks, next, rowPtrs);
          dropped := dropped + [heapMax];
          input := input + [next];
          rowPtrs := rowPtrs[0 := |rowChunks|];
          rowChunks := rowChunks + [next];
          ghost var h' := Rows(rowChunks, rowPtrs);
          Down(0, |rowPtrs|);
          SplitSame(items, h', Rows(rowChunks, rowPtrs), dropped, input);
        } else {
          NotGreaterIsLe(items, heapMax, next);
          DropNew(items, h, dropped, input, next);
          dropped := dropped + [next];
          input := input + [next];
        }
        i := i + 1;
      }
      assert chk[..i] == chk;
    }

    /** Copies the kept rows into new chunks; what the pointers stand for does not change. */
    method DoCompaction()
      requires InBounds(rowChunks, rowPtrs)
      modifies this`rowChunks, this`rowPtrs
      ensures InBounds(rowChunks, rowPtrs) && Rows(rowChunks, rowPtrs) == old(Rows(rowChunks, rowPtrs))
      ensures |rowPtrs| == old(|rowPtrs|) == |rowChunks|
    {
      var newRows: seq<Row>, newPtrs: seq<nat> := [], [];
      var i := 0;
      while i < |rowPtrs|
        invariant 0 <= i <= |rowPtrs| == old(|rowPtrs|) && |newRows| == |newPtrs| == i
        invariant rowChunks == old(rowChunks) && rowPtrs == old(rowPtrs)
        invariant forall k :: 0 <= k < i ==> newPtrs[k] == k && newRows[k] == rowChunks[rowPtrs[k]]
      {
        newPtrs := newPtrs + [|newRows|];
        newRows := newRows + [rowChunks[rowPtrs[i]]];
        i := i + 1;
      }
      rowChunks := newRows;
      rowPtrs := newPtrs;
      assert Rows(rowChunks, rowPtrs) == old(Rows(rowChunks, rowPtrs));
    }

    /** Sorts the pointers by their rows, in the place of the library's sort. */
    method SortPtrs()
      requires InBounds(rowChunks, rowPtrs) && Lawful(items)
      modifies this`rowPtrs
      ensures InBounds(rowChunks, rowPtrs) && |rowPtrs| == old(|rowPtrs|)
      ensures Sorted(items, Rows(rowChunks, rowPtrs)) && Same(Rows(rowChunks, rowPtrs), old(Rows(rowChunks, rowPtrs)))
    {
      hide Lawful, Le;
      var sorted: seq<nat> := [];
      var i := 0;
      while i < |rowPtrs|
        invariant 0 <= i <= |rowPtrs| && rowPtrs == old(rowPtrs) && |sorted| == i
        invariant InBounds(rowChunks, sorted) && Sorted(items, Rows(rowChunks, sorted))
        invariant Same(Rows(rowChunks, sorted), Rows(rowChunks, rowPtrs)[..i])
      {
        var x := rowPtrs[i];
        ghost var s := Rows(rowChunks, sorted);
        assert Rows(rowChunks, rowPtrs)[..i + 1] == Rows(rowChunks, rowPtrs)[..i] + [rowChunks[x]];
        var k := FindPlace(sorted, x);
        sorted := sorted[..k] + [x] + sorted[k..];
        assert Rows(rowChunks, sorted) == s[..k] + [rowChunks[x]] + s[k..];
        assert s == s[..k] + s[k..];
        i := i + 1;
      }
      assert Rows(rowChunks, rowPtrs)[..i] == Rows(rowChunks, rowPtrs);
      rowPtrs := sorted;
    }

    method FindPlace(sorted: seq<nat>, x: nat) returns (k: nat)
      requires InBounds(rowChunks, sorted) && x < |rowChunks| && Lawful(items) && Sorted(items, Rows(rowChunks, sorted))
      ensures k <= |sorted|
      ensures var s := Rows(rowChunks, sorted); Sorted(items, s[..k] + [rowChunks[x]] + s[k..])
    {
      ghost var s := Rows(rowChunks, sorted);
      var row := rowChunks[x];
      k := |sorted|;
      while k > 0
        invariant 0 <= k <= |sorted|
        invariant forall j :: k <= j < |s| ==> Le(items, row, s[j])
      {
        var less := LessRow(row, rowChunks[sorted[k - 1]]);
        if !less {
          NotLessIsLe(items, s[k - 1], row);
          PlaceFound(items, s, row, k);
          return k;
        }
        k := k - 1;
      }
      PlaceFound(items, s, row, k);
    }

    /** Removes the greatest rows while there are more than the limit allows. */
    method TrimToLimit()
      requires Processing() && Lawful(items)
      modifies this`rowPtrs, this`dropped
      ensures Processing() && |rowPtrs| == Min(old(|rowPtrs|), totalLimit)
    {
      hide Le, Lawful, Ranked, Split, HeapFrom;
      while |rowPtrs| > totalLimit
        invariant Processing() && |rowPtrs| <= old(|rowPtrs|) && |rowPtrs| >= Min(old(|rowPtrs|), totalLimit)
      {
        PopHeap();
      }
    }

    /** Feeds the remaining chunks of the child through the heap. */
    method ProcessChild() returns (fatal: bool)
      requires Processing() && Lawful(items) && NonEmpty(child) && (child != [] ==> |rowPtrs| == totalLimit)
      modifies this`child, this`rowChunks, this`rowPtrs, this`dropped, this`input
      ensures fatal <==> totalLimit == 0 && old(child) != []
      ensures !fatal ==> Processing() && |rowPtrs| == old(|rowPtrs|) && input == old(input) + old(Flatten(child))
    {
      hide Le, Lawful, Ranked, Split, HeapFrom;
      assert input + Flatten(child) == old(input) + old(Flatten(child));
      while child != []
        invariant Processing() && |rowPtrs| == old(|rowPtrs|) && NonEmpty(child)
        invariant input + Flatten(child) == old(input) + old(Flatten(child))
        invariant totalLimit == 0 ==> child == old(child)
        invariant old(child) == [] ==> child == []
        decreases |child|
      {
        var chk := child[0];
        assert input + (chk + Flatten(child[1..])) == (input + chk) + Flatten(child[1..]);
        if |rowPtrs| == 0 {
          return true;
        }
        child := child[1..];
        ProcessChildChk(chk);
        if |rowChunks| > |rowPtrs| * COMPACTION_FACTOR {
          DoCompaction();
        }
      }
      assert input + [] == input;
      return false;
    }

    /** Runs the child to its end. Exits fatally, by an index out of range, exactly if the limit is zero and
        the child has rows. */
    method ExecuteTopN() returns (fatal: bool)
      requires rowChunks == [] && rowPtrs == [] && input == [] && dropped == [] && NonEmpty(child) && Lawful(items)
      modifies this
      ensures fatal <==> totalLimit == 0 && old(child) != []
      ensures !fatal ==>
                && input == old(Flatten(child)) && idx == old(idx)
                && InBounds(rowChunks, rowPtrs)
                && Sorted(items, Rows(rowChunks, rowPtrs))
                && Split(items, Rows(rowChunks, rowPtrs), dropped, input)
                && |rowPtrs| == Min(|input|, totalLimit)
    {
      hide Lawful, Split, HeapFrom, Sorted, Flatten, Rows, InBounds, NonEmpty, Same;
      LoadChunksUntilTotalLimit();
      SplitStart(items, input);
      ghost var h := Rows(rowChunks, rowPtrs);
      RowsLength(rowChunks, rowPtrs);
      InitHeap();
      SplitSame(items, h, Rows(rowChunks, rowPtrs), dropped, input);
      TrimToLimit();
      assert child == [] ==> Flatten(child) == [] by { FlattenNothing(child); }
      fatal := ProcessChild();
      if !fatal {
        h := Rows(rowChunks, rowPtrs);
        SortPtrs();
        SplitSame(items, h, Rows(rowChunks, rowPtrs), dropped, input);
      }
    }

    /** Hands out up to `required` rows, going on where the last call stopped. */
    method NextRows(required: nat) returns (fatal: bool, out: seq<Row>)
      requires InBounds(rowChunks, rowPtrs)
      modifies this`idx
      ensures fatal <==> required > 0 && old(idx) < 0
      ensures !fatal && 0 <= old(idx) <= |rowPtrs| ==>
                && old(idx) <= idx <= |rowPtrs| && out == Rows(rowChunks, rowPtrs)[old(idx)..idx]
                && (|out| == required || idx == |rowPtrs|)
      ensures !fatal && old(idx) > |rowPtrs| ==> out == [] && idx == old(idx)
    {
      out := [];
      if idx >= |rowPtrs| {
        return false, [];
      }
      if required > 0 && idx < 0 {
        return true, [];
      }
      ghost var start := idx;
      while |out| < required && idx < |rowPtrs|
        invariant required > 0 ==> 0 <= start <= idx <= |rowPtrs|
        invariant required > 0 ==> out == Rows(rowChunks, rowPtrs)[start..idx] && |out| <= required
        invariant required == 0 ==> idx == start && out == []
      {
        var row := rowChunks[rowPtrs[idx]];
        assert Rows(rowChunks, rowPtrs)[start..idx + 1] == Rows(rowChunks, rowPtrs)[start..idx] + [row];
        out := out + [row];
        idx := idx + 1;
      }
      return false, out;
    }
  }

  /** A whole run, for every 64-bit offset and count. It exits fatally exactly if the offset is negative when
      read as a signed integer, or if the limit is zero, possibly by wrapping around, while the child has
      rows. Otherwise the rows returned are the LIMIT of some sorted arrangement of the child's rows, unless
      offset + count wraps around: then nothing is returned, which is right exactly if the offset lies
      behind all rows. */
  method RunTopN<Row(!new)>(items: seq<ByItem<Row>>, offset: nat, count: nat, child: seq<seq<Row>>, required: nat)
    returns (fatal: bool, rows: seq<Row>, ghost all: seq<Row>)
    requires Lawful(items) && NonEmpty(child) && required >= 1
    requires offset < UINT64 && count < UINT64
    ensures fatal <==> offset >= 0x8000_0000_0000_0000 || ((offset + count) % UINT64 == 0 && child != [])
    ensures !fatal ==> InOrder(items, all) && Same(all, Flatten(child))
    ensures !fatal && offset + count < UINT64 ==> rows == Limit(all, offset, count)
    ensures !fatal && offset + count >= UINT64 ==> rows == [] && (rows == Limit(all, offset, count) <==> |all| <= offset)
  {
    hide Lawful, Split, Sorted, InOrder, Same, Rows, InBounds, NonEmpty, Flatten, Limit;
    var e := new Exec(items, offset, count, child);
    rows, all := [], [];
    fatal := e.ExecuteTopN();
    if fatal {
      return;
    }
    ghost var kept := Rows(e.rowChunks, e.rowPtrs);
    RowsLength(e.rowChunks, e.rowPtrs);
    if e.idx < 0 {
      fatal, rows := e.NextRows(required);
      return;
    }
    if offset + count < UINT64 {
      all := OutputIsLimit(items, kept, e.dropped, e.input, offset, count);
    } else {
      all := OutputIsNothing(items, kept, e.dropped, e.input, offset, count);
    }
    SortedIsInOrder(items, all);
    rows := Emit(e, required);
  }

  lemma {:induction false} OutputIsNothing<Row(!new)>(items: seq<ByItem<Row>>, kept: seq<Row>, dropped: seq<Row>, input: seq<Row>, offset: nat, count: nat)
    returns (all: seq<Row>)
    requires Lawful(items) && Sorted(items, kept) && Split(items, kept, dropped, input) && count > 0
    ensures Sorted(items, all) && Same(all, input)
    ensures Limit(all, offset, count) == [] <==> |all| <= offset
  {
    all := KeptIsPrefix(items, kept, dropped, input);
  }

  /** Calls Next until it returns fewer rows than asked for. */
  method Emit<Row(!new)>(e: Exec<Row>, required: nat) returns (rows: seq<Row>)
    requires InBounds(e.rowChunks, e.rowPtrs) && e.idx >= 0 && required >= 1
    modifies e`idx
    ensures rows == Rows(e.rowChunks, e.rowPtrs)[Min(old(e.idx), |e.rowPtrs|)..]
  {
    rows := [];
    ghost var kept, start := Rows(e.rowChunks, e.rowPtrs), e.idx;
    var done := false;
    while !done
      invariant InBounds(e.rowChunks, e.rowPtrs) && Rows(e.rowChunks, e.rowPtrs) == kept
      invariant start > |kept| ==> rows == [] && e.idx == start
      invariant start <= |kept| ==> start <= e.idx <= |kept| && rows == kept[start..e.idx]
      invariant done && start <= |kept| ==> e.idx == |kept|
      decreases !done, |kept| - e.idx
    {
      var fatal, out := e.NextRows(required);
      rows := rows + out;
      done := |out| < required;
    }
  }

  /** The rows of the clause LIMIT offset, count in an arrangement of the input. */
  function Limit<Row>(all: seq<Row>, offset: nat, count: nat): seq<Row> {
    all[Min(offset, |all|)..Min(offset + count, |all|)]
  }

  /** TopN is sort-then-slice, up to ties: what the executor hands out from position `offset` on is the LIMIT
      of some sorted arrangement of the whole input. */
  lemma {:induction false} OutputIsLimit<Row(!new)>(items: seq<ByItem<Row>>, kept: seq<Row>, dropped: seq<Row>, input: seq<Row>, offset: nat, count: nat)
    returns (all: seq<Row>)
    requires Lawful(items) && Sorted(items, kept) && Split(items, kept, dropped, input)
    requires |kept| == Min(|input|, offset + count)
    ensures Sorted(items, all) && Same(all, input)
    ensures Limit(all, offset, count) == kept[Min(offset, |kept|)..]
  {
    all := KeptIsPrefix(items, kept, dropped, input);
    SameLength(all, input);
    assert all[..|kept|][Min(offset, |kept|)..] == all[Min(offset, |kept|)..|kept|];
  }

  lemma {:induction false} SameLength<Row>(a: seq<Row>, b: seq<Row>)
    requires Same(a, b)
    ensures |a| == |b|
  {
    assert |multiset(a)| == |a| && |multiset(b)| == |b|;
  }

  lemma {:induction false} FlattenNothing<Row>(chunks: seq<seq<Row>>)
    ensures chunks == [] ==> Flatten(chunks) == []
  {
  }

  lemma {:induction false} SplitStart<Row>(items: seq<ByItem<Row>>, input: seq<Row>)
    ensures Split(items, input, [], input)
  {
    assert input + [] == input;
  }

  lemma {:induction false} NotGreaterIsLe<Row(!new)>(items: seq<ByItem<Row>>, a: Row, b: Row)
    requires Compare(items, a, b) <= 0
    ensures Le(items, a, b)
  {
  }

  lemma {:induction false} NotLessIsLe<Row(!new)>(items: seq<ByItem<Row>>, a: Row, b: Row)
    requires Lawful(items) && Compare(items, b, a) >= 0
    ensures Le(items, a, b)
  {
    CompareFlips(items, b, a);
    CompareFlips(items, a, b);
  }

  lemma {:induction false} PlaceFound<Row(!new)>(items: seq<ByItem<Row>>, s: seq<Row>, row: Row, k: nat)
    requires Lawful(items) && Sorted(items, s) && k <= |s|
    requires forall j :: k <= j < |s| ==> Le(items, row, s[j])
    requires k > 0 ==> Le(items, s[k - 1], row)
    ensures Sorted(items, s[..k] + [row] + s[k..])
  {
    forall i | 0 <= i < k
      ensures Le(items, s[i], row)
    {
      if i < k - 1 {
        CompareTransitive(items, s[i], s[k - 1], row);
      }
    }
  }

  lemma {:induction false} SinkStarts<Row>(items: seq<ByItem<Row>>, h: seq<Row>, n: nat, i: nat)
    requires HeapFrom(items, h, n, i + 1) && i < n
    ensures Sinking(items, h, n, i, i)
  {
  }

  lemma {:induction false} NoChildren<Row>(items: seq<ByItem<Row>>, h: seq<Row>, n: nat, i: nat)
    requires i < n <= |h| && 2 * i + 1 >= n
    ensures ChildrenLe(items, h, n, i, h[i])
  {
  }

  lemma {:induction false} ChildrenBelow<Row(!new)>(items: seq<ByItem<Row>>, h: seq<Row>, n: nat, i: nat, j: nat)
    requires Lawful(items) && i < n <= |h| && j < n && ChildrenLe(items, h, n, i, h[j]) && Compare(items, h[j], h[i]) <= 0
    ensures ChildrenLe(items, h, n, i, h[i])
  {
    if 2 * i + 1 < n {
      CompareTransitive(items, h[2 * i + 1], h[j], h[i]);
    }
    if 2 * i + 2 < n {
      CompareTransitive(items, h[2 * i + 2], h[j], h[i]);
    }
  }

  lemma {:induction false} GreaterIsLe<Row(!new)>(items: seq<ByItem<Row>>, a: Row, b: Row)
    requires Lawful(items) && Compare(items, a, b) > 0
    ensures Le(items, b, a)
  {
    CompareFlips(items, b, a);
  }

  lemma {:induction false} SwappedRoot<Row(!new)>(items: seq<ByItem<Row>>, h: seq<Row>, n: nat)
    requires HeapFrom(items, h, |h|, 0) && n == |h| - 1
    ensures HeapFrom(items, Swap(h, 0, n), n, 1)
  {
    var h' := Swap(h, 0, n);
    forall k | 0 < k < n && Parent(k) >= 1
      ensures Ranked(items, h', k)
    {
      assert Ranked(items, h, k);
    }
  }

  lemma {:induction false} HeapShrinks<Row>(items: seq<ByItem<Row>>, h: seq<Row>, n: nat)
    requires n <= |h| && (n > 0 ==> HeapFrom(items, h, n, 0))
    ensures HeapFrom(items, h[..n], n, 0)
  {
    forall k | 0 < k < n
      ensures Ranked(items, h[..n], k)
    {
      assert Ranked(items, h, k);
    }
  }

  /** A greatest row stays greatest under any rearrangement that keeps it last. */
  lemma {:induction false} GreatestStays<Row(!new)>(items: seq<ByItem<Row>>, h: seq<Row>, h': seq<Row>, n: nat)
    requires Lawful(items) && HeapFrom(items, h, |h|, 0) && Same(h', h) && n == |h| - 1 == |h'| - 1 && h'[n] == h[0]
    ensures forall i :: 0 <= i < |h'| ==> Le(items, h'[i], h'[n])
  {
    forall i | 0 <= i < |h'|
      ensures Le(items, h'[i], h'[n])
    {
      var k := SameMembers(h', h, i);
      RootIsGreatest(items, h, |h|, k);
    }
  }
}
