/** The hash row container: chunks of rows plus the hash table over their keys. */
module HashRowContainer {
  import opened HashTable

  /** The rows of all chunks, in order. */
  function Flatten<Row>(records: seq<seq<Row>>): seq<Row> {
    if records == [] then [] else Flatten(records[..|records| - 1]) + records[|records| - 1]
  }

  /** The simple definition: scan all rows. */
  function Scan<Row>(rows: seq<Row>, p: Row -> bool): seq<Row> {
    if rows == [] then []
    else Scan(rows[..|rows| - 1], p) + (if p(rows[|rows| - 1]) then [rows[|rows| - 1]] else [])
  }

  /** What putting the first `n` rows of chunk `idx` puts into the table. */
  ghost function PutsOfChunk<Row>(chk: seq<Row>, idx: nat, n: nat, hash: Row -> nat, hasNull: Row -> bool): seq<(nat, RowPtr)>
    requires n <= |chk|
  {
    if n == 0 then []
    else PutsOfChunk(chk, idx, n - 1, hash, hasNull) +
           (if hasNull(chk[n - 1]) then [] else [(hash(chk[n - 1]), RowPtr(idx, n - 1))])
  }

  ghost function PutsOf<Row>(records: seq<seq<Row>>, hash: Row -> nat, hasNull: Row -> bool): seq<(nat, RowPtr)> {
    if records == [] then []
    else
      var last := |records| - 1;
      PutsOf(records[..last], hash, hasNull) + PutsOfChunk(records[last], last, |records[last]|, hash, hasNull)
  }

  predicate ValidPtr<Row>(records: seq<seq<Row>>, p: RowPtr) {
    p.chkIdx < |records| && p.rowIdx < |records[p.chkIdx]|
  }

  /** The rows behind the pointers that satisfy `p`. */
  ghost function Resolve<Row>(records: seq<seq<Row>>, ptrs: seq<RowPtr>, p: Row -> bool): seq<Row>
    requires forall i :: 0 <= i < |ptrs| ==> ValidPtr(records, ptrs[i])
  {
    if ptrs == [] then []
    else
      var last := ptrs[|ptrs| - 1];
      assert ValidPtr(records, last);
      var row := records[last.chkIdx][last.rowIdx];
      Resolve(records, ptrs[..|ptrs| - 1], p) + (if p(row) then [row] else [])
  }

  lemma {:induction false} SelectedConcat(a: seq<(nat, RowPtr)>, b: seq<(nat, RowPtr)>, h: nat)
    ensures Selected(a + b, h) == Selected(a, h) + Selected(b, h)
    decreases |b|
  {
    if b == [] {
      assert a + b == a;
    } else {
      var last := |b| - 1;
      assert (a + b)[..|a + b| - 1] == a + b[..last];
      SelectedConcat(a, b[..last], h);
    }
  }

  lemma {:induction false} ResolveConcat<Row>(records: seq<seq<Row>>, a: seq<RowPtr>, b: seq<RowPtr>, p: Row -> bool)
    requires forall i :: 0 <= i < |a| ==> ValidPtr(records, a[i])
    requires forall i :: 0 <= i < |b| ==> ValidPtr(records, b[i])
    ensures forall i :: 0 <= i < |a + b| ==> ValidPtr(records, (a + b)[i])
    ensures Resolve(records, a + b, p) == Resolve(records, a, p) + Resolve(records, b, p)
    decreases |b|
  {
    if b == [] {
      assert a + b == a;
    } else {
      var last := |b| - 1;
      assert (a + b)[..|a + b| - 1] == a + b[..last];
      ResolveConcat(records, a, b[..last], p);
    }
  }

  lemma {:induction false} ResolvePrefix<Row>(records: seq<seq<Row>>, chk: seq<Row>, ptrs: seq<RowPtr>, p: Row -> bool)
    requires forall i :: 0 <= i < |ptrs| ==> ValidPtr(records, ptrs[i])
    ensures forall i :: 0 <= i < |ptrs| ==> ValidPtr(records + [chk], ptrs[i])
    ensures Resolve(records + [chk], ptrs, p) == Resolve(records, ptrs, p)
    decreases |ptrs|
  {
    if ptrs != [] {
      ResolvePrefix(records, chk, ptrs[..|ptrs| - 1], p);
    }
  }

  /** What the container looks for: rows without a null in the key, in the bucket, equal to the probe. */
  function Wanted<Row>(hash: Row -> nat, hasNull: Row -> bool, key: nat, equal: Row -> bool): Row -> bool {
    r => !hasNull(r) && hash(r) == key && equal(r)
  }

  lemma {:induction false} ResolveSnoc<Row>(records: seq<seq<Row>>, ptrs: seq<RowPtr>, ptr: RowPtr, p: Row -> bool)
    requires (forall i :: 0 <= i < |ptrs| ==> ValidPtr(records, ptrs[i])) && ValidPtr(records, ptr)
    ensures forall i :: 0 <= i < |ptrs + [ptr]| ==> ValidPtr(records, (ptrs + [ptr])[i])
    ensures Resolve(records, ptrs + [ptr], p) ==
              Resolve(records, ptrs, p) + (if p(records[ptr.chkIdx][ptr.rowIdx]) then [records[ptr.chkIdx][ptr.rowIdx]] else [])
  {
    assert (ptrs + [ptr])[..|ptrs|] == ptrs;
  }

  lemma {:induction false} SelectedSnoc(puts: seq<(nat, RowPtr)>, put: (nat, RowPtr), h: nat)
    ensures Selected(puts + [put], h) == Selected(puts, h) + (if put.0 == h then [put.1] else [])
  {
    assert (puts + [put])[..|puts|] == puts;
  }

  lemma {:induction false} ScanSnoc<Row>(rows: seq<Row>, n: nat, p: Row -> bool)
    requires n < |rows|
    ensures Scan(rows[..n + 1], p) == Scan(rows[..n], p) + (if p(rows[n]) then [rows[n]] else [])
  {
    assert rows[..n + 1][..n] == rows[..n];
  }

  lemma {:induction false} ChunkScan<Row>(records: seq<seq<Row>>, idx: nat, n: nat, hash: Row -> nat, hasNull: Row -> bool, key: nat, equal: Row -> bool)
    requires idx < |records| && n <= |records[idx]|
    ensures var ptrs := Selected(PutsOfChunk(records[idx], idx, n, hash, hasNull), key);
            && (forall i :: 0 <= i < |ptrs| ==> ValidPtr(records, ptrs[i]))
            && Resolve(records, ptrs, equal) == Scan(records[idx][..n], Wanted(hash, hasNull, key, equal))
    decreases n
  {
    if n > 0 {
      hide Selected, Resolve, Scan;
      ChunkScan(records, idx, n - 1, hash, hasNull, key, equal);
      var chk := records[idx];
      var row, ptr := chk[n - 1], RowPtr(idx, n - 1);
      ScanSnoc(chk, n - 1, Wanted(hash, hasNull, key, equal));
      var before := PutsOfChunk(chk, idx, n - 1, hash, hasNull);
      if hasNull(row) {
        assert before + [] == before;
      } else {
        SelectedSnoc(before, (hash(row), ptr), key);
        if hash(row) == key {
          ResolveSnoc(records, Selected(before, key), ptr, equal);
        } else {
          assert Selected(before, key) + [] == Selected(before, key);
        }
      }
    } else {
      assert records[idx][..0] == [];
    }
  }

  lemma {:induction false} ScanConcat<Row>(a: seq<Row>, b: seq<Row>, p: Row -> bool)
    ensures Scan(a + b, p) == Scan(a, p) + Scan(b, p)
    decreases |b|
  {
    if b == [] {
      assert a + b == a;
    } else {
      var last := |b| - 1;
      assert (a + b)[..|a + b| - 1] == a + b[..last];
      ScanConcat(a, b[..last], p);
    }
  }

  /** Looking up a bucket and filtering it is a scan of all rows. */
  lemma {:induction false} LookupIsScan<Row>(records: seq<seq<Row>>, hash: Row -> nat, hasNull: Row -> bool, key: nat, equal: Row -> bool)
    ensures var ptrs := Selected(PutsOf(records, hash, hasNull), key);
            && (forall i :: 0 <= i < |ptrs| ==> ValidPtr(records, ptrs[i]))
            && Resolve(records, ptrs, equal) == Scan(Flatten(records), Wanted(hash, hasNull, key, equal))
    decreases |records|
  {
    if records != [] {
      var last := |records| - 1;
      var front, chk := records[..last], records[last];
      assert records == front + [chk];
      LookupIsScan(front, hash, hasNull, key, equal);
      var a, b := PutsOf(front, hash, hasNull), PutsOfChunk(chk, last, |chk|, hash, hasNull);
      SelectedConcat(a, b, key);
      ResolvePrefix(front, chk, Selected(a, key), equal);
      ChunkScan(records, last, |chk|, hash, hasNull, key, equal);
      assert chk[..|chk|] == chk;
      ResolveConcat(records, Selected(a, key), Selected(b, key), equal);
      ScanConcat(Flatten(front), chk, Wanted(hash, hasNull, key, equal));
    }
  }

  lemma {:induction false} ScanSame<Row>(rows: seq<Row>, p: Row -> bool, q: Row -> bool)
    requires forall i :: 0 <= i < |rows| ==> p(rows[i]) == q(rows[i])
    ensures Scan(rows, p) == Scan(rows, q)
    decreases |rows|
  {
    if rows != [] {
      ScanSame(rows[..|rows| - 1], p, q);
    }
  }

  /** If the hash respects equality of keys, the container finds exactly the rows with an equal key that has
      no null, in insertion order, duplicates included. */
  lemma {:induction false} MatchesAreEqualRows<Row(!new)>(rows: seq<Row>, hash: Row -> nat, hasNull: Row -> bool, key: nat, equal: Row -> bool)
    requires forall r :: equal(r) && !hasNull(r) ==> hash(r) == key
    ensures Scan(rows, Wanted(hash, hasNull, key, equal)) == Scan(rows, r => !hasNull(r) && equal(r))
  {
    ScanSame(rows, Wanted(hash, hasNull, key, equal), r => !hasNull(r) && equal(r));
  }

  // ------------------------------------------------------------------ what is found, position by position

  predicate Earlier(p: RowPtr, q: RowPtr) {
    p.chkIdx < q.chkIdx || (p.chkIdx == q.chkIdx && p.rowIdx < q.rowIdx)
  }

  /** The rows are those at the given places, which are all the places of rows that are wanted, in order. */
  ghost predicate FoundAt<Row>(records: seq<seq<Row>>, w: Row -> bool, rows: seq<Row>, places: seq<RowPtr>) {
    && |places| == |rows|
    && (forall i, j :: 0 <= i < j < |places| ==> Earlier(places[i], places[j]))
    && (forall i :: 0 <= i < |places| ==> ValidPtr(records, places[i]) && rows[i] == records[places[i].chkIdx][places[i].rowIdx] && w(rows[i]))
    && (forall p :: ValidPtr(records, p) && w(records[p.chkIdx][p.rowIdx]) ==> p in places)
  }

  /** The places of wanted rows among the first `n` of chunk `idx`. */
  ghost function ChunkHits<Row>(chk: seq<Row>, idx: nat, n: nat, w: Row -> bool): seq<RowPtr>
    requires n <= |chk|
  {
    if n == 0 then [] else ChunkHits(chk, idx, n - 1, w) + (if w(chk[n - 1]) then [RowPtr(idx, n - 1)] else [])
  }

  lemma {:induction false} ChunkHitsFacts<Row>(chk: seq<Row>, idx: nat, n: nat, w: Row -> bool)
    requires n <= |chk|
    ensures var ps := ChunkHits(chk, idx, n, w);
            && |ps| == |Scan(chk[..n], w)|
            && (forall i :: 0 <= i < |ps| ==> ps[i].chkIdx == idx && ps[i].rowIdx < n && Scan(chk[..n], w)[i] == chk[ps[i].rowIdx] && w(chk[ps[i].rowIdx]))
            && (forall i, j :: 0 <= i < j < |ps| ==> Earlier(ps[i], ps[j]))
            && (forall k :: 0 <= k < n && w(chk[k]) ==> RowPtr(idx, k) in ps)
    decreases n
  {
    if n > 0 {
      ChunkHitsFacts(chk, idx, n - 1, w);
      ScanSnoc(chk, n - 1, w);
    }
  }

  ghost function Hits<Row>(records: seq<seq<Row>>, w: Row -> bool): seq<RowPtr> {
    if records == [] then []
    else
      var last := |records| - 1;
      Hits(records[..last], w) + ChunkHits(records[last], last, |records[last]|, w)
  }

  /** A scan finds each wanted row once, in the order of chunks and rows. */
  lemma {:induction false} ScanFinds<Row>(records: seq<seq<Row>>, w: Row -> bool)
    ensures FoundAt(records, w, Scan(Flatten(records), w), Hits(records, w))
    decreases |records|
  {
    if records != [] {
      var last := |records| - 1;
      var front, chk := records[..last], records[last];
      ScanFinds(front, w);
      ChunkHitsFacts(chk, last, |chk|, w);
      assert chk[..|chk|] == chk;
      ScanConcat(Flatten(front), chk, w);
      hide Scan, Flatten, ChunkHits;
      FoundMore(front, chk, w, Scan(Flatten(front), w), Hits(front, w), Scan(chk, w), ChunkHits(chk, last, |chk|, w));
      assert front + [chk] == records;
    }
  }

  lemma {:induction false} FoundMore<Row>(front: seq<seq<Row>>, chk: seq<Row>, w: Row -> bool, rows: seq<Row>, places: seq<RowPtr>, more: seq<Row>, ps: seq<RowPtr>)
    requires FoundAt(front, w, rows, places) && |ps| == |more|
    requires forall i :: 0 <= i < |ps| ==> ps[i].chkIdx == |front| && ps[i].rowIdx < |chk| && more[i] == chk[ps[i].rowIdx] && w(chk[ps[i].rowIdx])
    requires forall i, j :: 0 <= i < j < |ps| ==> Earlier(ps[i], ps[j])
    requires forall k :: 0 <= k < |chk| && w(chk[k]) ==> RowPtr(|front|, k) in ps
    ensures FoundAt(front + [chk], w, rows + more, places + ps)
  {
    var all, out, records := places + ps, rows + more, front + [chk];
    forall i | 0 <= i < |all|
      ensures ValidPtr(records, all[i]) && out[i] == records[all[i].chkIdx][all[i].rowIdx] && w(out[i])
      ensures i < |places| ==> all[i].chkIdx < |front|
    {
      if i < |places| {
        assert all[i] == places[i] && ValidPtr(front, places[i]) && out[i] == rows[i];
      } else {
        assert all[i] == ps[i - |places|] && out[i] == more[i - |places|];
      }
    }
    forall i, j | 0 <= i < j < |all|
      ensures Earlier(all[i], all[j])
    {
      if j < |places| {
        assert all[i] == places[i] && all[j] == places[j];
      } else if i >= |places| {
        assert all[i] == ps[i - |places|] && all[j] == ps[j - |places|];
      } else {
        assert all[j] == ps[j - |places|];
      }
    }
    forall p | ValidPtr(records, p) && w(records[p.chkIdx][p.rowIdx])
      ensures p in all
    {
      FoundThere(front, chk, w, rows, places, ps, p);
    }
  }

  lemma {:induction false} FoundThere<Row>(front: seq<seq<Row>>, chk: seq<Row>, w: Row -> bool, rows: seq<Row>, places: seq<RowPtr>, ps: seq<RowPtr>, p: RowPtr)
    requires FoundAt(front, w, rows, places) && ValidPtr(front + [chk], p) && w((front + [chk])[p.chkIdx][p.rowIdx])
    requires forall k :: 0 <= k < |chk| && w(chk[k]) ==> RowPtr(|front|, k) in ps
    ensures p in places + ps
  {
    if p.chkIdx < |front| {
      assert ValidPtr(front, p) && p in places;
    } else {
      assert p == RowPtr(|front|, p.rowIdx) && p in ps;
    }
  }

  lemma {:induction false} LookupFinds<Row>(records: seq<seq<Row>>, hash: Row -> nat, hasNull: Row -> bool, key: nat, equal: Row -> bool) returns (places: seq<RowPtr>)
    ensures FoundAt(records, r => !hasNull(r) && hash(r) == key && equal(r), Scan(Flatten(records), Wanted(hash, hasNull, key, equal)), places)
  {
    var w := r => !hasNull(r) && hash(r) == key && equal(r);
    places := Hits(records, w);
    ScanFinds(records, w);
    ScanSame(Flatten(records), Wanted(hash, hasNull, key, equal), w);
  }

  class Container<Row> {
    const hash: Row -> nat
    const hasNull: Row -> bool
    const table: RowHashMap
    var records: seq<seq<Row>>

    ghost predicate Valid()
      reads this, table, table.store
    {
      table.Valid() && table.puts == PutsOf(records, hash, hasNull)
    }

    constructor (hash: Row -> nat, hasNull: Row -> bool)
      ensures Valid() && records == [] && this.hash == hash && this.hasNull == hasNull && fresh(table) && fresh(table.store)
    {
      this.hash := hash;
      this.hasNull := hasNull;
      table := new RowHashMap();
      records := [];
    }

    method PutChunk(chk: seq<Row>)
      requires Valid()
      modifies this`records, table, table.store
      ensures Valid() && records == old(records) + [chk]
    {
      var chkIdx := |records|;
      ghost var before := table.puts;
      records := records + [chk];
      var i := 0;
      while i < |chk|
        invariant 0 <= i <= |chk| && table.Valid() && records == old(records) + [chk]
        invariant table.puts == before + PutsOfChunk(chk, chkIdx, i, hash, hasNull)
      {
        ghost var sofar := PutsOfChunk(chk, chkIdx, i, hash, hasNull);
        if !hasNull(chk[i]) {
          table.Put(hash(chk[i]), RowPtr(chkIdx, i));
          assert (before + sofar) + [(hash(chk[i]), RowPtr(chkIdx, i))] == before + (sofar + [(hash(chk[i]), RowPtr(chkIdx, i))]);
        } else {
          assert sofar + [] == sofar;
        }
        i := i + 1;
      }
      assert records[..chkIdx] == old(records);
    }

    /** Agrees with a linear scan of everything inserted: the rows of the bucket that have no NULL in the key and equal the
        probe, each once, in the order of chunks and rows. */
    method GetMatchedRows(probeKey: nat, equal: Row -> bool) returns (matched: seq<Row>, ghost places: seq<RowPtr>)
      requires Valid()
      ensures matched == Scan(Flatten(records), Wanted(hash, hasNull, probeKey, equal))
      ensures FoundAt(records, r => !hasNull(r) && hash(r) == probeKey && equal(r), matched, places)
    {
      hide Scan, Flatten, FoundAt, PutsOf, Selected;
      var innerPtrs := table.Get(probeKey);
      LookupIsScan(records, hash, hasNull, probeKey, equal);
      places := LookupFinds(records, hash, hasNull, probeKey, equal);
      matched := [];
      var i := 0;
      while i < |innerPtrs|
        invariant 0 <= i <= |innerPtrs|
        invariant matched == Resolve(records, innerPtrs[..i], equal)
      {
        var row := records[innerPtrs[i].chkIdx][innerPtrs[i].rowIdx];
        assert innerPtrs[..i + 1][..i] == innerPtrs[..i];
        if equal(row) {
          matched := matched + [row];
        }
        i := i + 1;
      }
      assert innerPtrs[..i] == innerPtrs;
    }
  }
}
