/** Parallel hash aggregation as a whole: any distribution of the chunks over the partial workers, any routing of
    groups to final workers, any order of arrival. */
module HashAggRun {
  import opened HashAggSpec
  import opened HashAggWorkers

  /** The rows partial worker `p` gets when chunk i goes to worker assign[i]. */
  function WorkerRows(chunks: seq<seq<Row>>, assign: seq<nat>, p: nat): seq<Row>
    requires |assign| == |chunks|
  {
    if chunks == [] then []
    else
      var last := |chunks| - 1;
      WorkerRows(chunks[..last], assign[..last], p) + (if assign[last] == p then chunks[last] else [])
  }

  /** The rows whose group goes to final worker `f`. */
  function Routed(rows: seq<Row>, hash: string -> nat, n: nat, f: nat): seq<Row>
    requires n >= 1
  {
    if rows == [] then []
    else Routed(rows[..|rows| - 1], hash, n, f) + (if hash(rows[|rows| - 1].key) % n == f then [rows[|rows| - 1]] else [])
  }

  /** The rows of the workers in the order in which their results arrive. */
  function Arrival(parts: seq<seq<Row>>, order: seq<nat>): seq<seq<Row>>
    requires forall i :: 0 <= i < |order| ==> order[i] < |parts|
  {
    seq(|order|, i requires 0 <= i < |order| => parts[order[i]])
  }

  /** Every worker occurs exactly once. */
  ghost predicate IsOrder(order: seq<nat>, n: nat) {
    Distinct(order) && (forall i :: 0 <= i < |order| ==> order[i] < n) && forall p :: 0 <= p < n ==> p in order
  }

  // ------------------------------------------------------------------ nothing is lost or doubled

  lemma {:induction false} ArrivalStep(parts: seq<seq<Row>>, order: seq<nat>)
    requires (forall i :: 0 <= i < |order| ==> order[i] < |parts|) && order != []
    ensures var front, last := order[..|order| - 1], order[|order| - 1];
            Arrival(parts, order) == Arrival(parts, front) + [parts[last]]
    ensures var front, last := order[..|order| - 1], order[|order| - 1];
            Flatten(Arrival(parts, order)) == Flatten(Arrival(parts, front)) + parts[last]
  {
    var front, last := order[..|order| - 1], order[|order| - 1];
    assert Arrival(parts, order) == Arrival(parts, front) + [parts[last]];
    FlattenMore(Arrival(parts, front), parts[last]);
  }

  /** Giving one worker more rows adds just these, whatever its place in the order. */
  lemma {:induction false} ArrivalMore(parts: seq<seq<Row>>, order: seq<nat>, q: nat, more: seq<Row>)
    requires Distinct(order) && (forall i :: 0 <= i < |order| ==> order[i] < |parts|) && q in order
    ensures q < |parts|
    ensures multiset(Flatten(Arrival(parts[q := parts[q] + more], order))) == multiset(Flatten(Arrival(parts, order))) + multiset(more)
    decreases |order|
  {
    hide Flatten, Arrival;
    var parts' := parts[q := parts[q] + more];
    var front, last := order[..|order| - 1], order[|order| - 1];
    assert order == front + [last];
    ArrivalStep(parts, order);
    ArrivalStep(parts', order);
    var a, a' := Flatten(Arrival(parts, front)), Flatten(Arrival(parts', front));
    if last == q {
      ArrivalSame(parts, parts', front);
      assert a' + parts'[q] == (a + parts[q]) + more;
    } else {
      ArrivalMore(parts, front, q, more);
      assert multiset(a' + parts[last]) == multiset(a + parts[last]) + multiset(more);
    }
  }

  lemma {:induction false} ArrivalSame(parts: seq<seq<Row>>, parts': seq<seq<Row>>, order: seq<nat>)
    requires |parts'| == |parts| && forall i :: 0 <= i < |order| ==> order[i] < |parts| && parts'[order[i]] == parts[order[i]]
    ensures Arrival(parts', order) == Arrival(parts, order)
  {
  }

  function Parts(chunks: seq<seq<Row>>, assign: seq<nat>, n: nat): seq<seq<Row>>
    requires |assign| == |chunks|
  {
    seq(n, p requires 0 <= p < n => WorkerRows(chunks, assign, p))
  }

  lemma {:induction false} ArrivalNothing(parts: seq<seq<Row>>, order: seq<nat>)
    requires forall i :: 0 <= i < |order| ==> order[i] < |parts|
    requires forall p :: 0 <= p < |parts| ==> parts[p] == []
    ensures Flatten(Arrival(parts, order)) == []
    decreases |order|
  {
    if order != [] {
      ArrivalStep(parts, order);
      ArrivalNothing(parts, order[..|order| - 1]);
    }
  }

  /** Chunk i goes to partial worker assign[i] of `n`, and a final worker hears from the workers in this order. */
  ghost predicate Scheduled(chunks: seq<seq<Row>>, assign: seq<nat>, n: nat, order: seq<nat>) {
    |assign| == |chunks| && (forall i :: 0 <= i < |assign| ==> assign[i] < n) && IsOrder(order, n)
  }

  /** What a final worker hears under a schedule. */
  ghost function Heard(chunks: seq<seq<Row>>, assign: seq<nat>, n: nat, order: seq<nat>): seq<seq<Row>>
    requires Scheduled(chunks, assign, n, order)
  {
    Arrival(Parts(chunks, assign, n), order)
  }

  /** Under every schedule the workers together have exactly the rows of the input. */
  lemma {:induction false} PartsAreInput(chunks: seq<seq<Row>>, assign: seq<nat>, n: nat, order: seq<nat>)
    requires Scheduled(chunks, assign, n, order)
    ensures multiset(Flatten(Heard(chunks, assign, n, order))) == multiset(Flatten(chunks))
    decreases |chunks|
  {
    hide Arrival;
    var parts := Parts(chunks, assign, n);
    if chunks == [] {
      ArrivalNothing(parts, order);
    } else {
      var last := |chunks| - 1;
      var q, before := assign[last], Parts(chunks[..last], assign[..last], n);
      PartsAreInput(chunks[..last], assign[..last], n, order);
      assert parts == before[q := before[q] + chunks[last]] by {
        forall p | 0 <= p < n
          ensures parts[p] == before[q := before[q] + chunks[last]][p]
        {
          assert before[p] + [] == before[p];
        }
      }
      ArrivalMore(before, order, q, chunks[last]);
    }
  }

  // ------------------------------------------------------------------ routing

  lemma {:induction false} RoutedConcat(x: seq<Row>, y: seq<Row>, hash: string -> nat, n: nat, f: nat)
    requires n >= 1
    ensures Routed(x + y, hash, n, f) == Routed(x, hash, n, f) + Routed(y, hash, n, f)
    decreases |y|
  {
    if y == [] {
      assert x + y == x;
    } else {
      assert (x + y)[..|x + y| - 1] == x + y[..|y| - 1];
      RoutedConcat(x, y[..|y| - 1], hash, n, f);
    }
  }

  lemma {:induction false} RoutedOf(rows: seq<Row>, hash: string -> nat, n: nat, f: nat, k: string)
    requires n >= 1
    ensures Of(Routed(rows, hash, n, f), k) == if hash(k) % n == f then Of(rows, k) else []
    decreases |rows|
  {
    if rows != [] {
      var front, last := rows[..|rows| - 1], rows[|rows| - 1];
      RoutedOf(front, hash, n, f, k);
      var r := Routed(front, hash, n, f);
      if hash(last.key) % n == f {
        assert (r + [last])[..|r|] == r;
      } else {
        assert r + [] == r;
      }
    }
  }

  lemma {:induction false} RoutedKeys(rows: seq<Row>, hash: string -> nat, n: nat, f: nat, k: string)
    requires n >= 1
    ensures k in Keys(Routed(rows, hash, n, f)) <==> k in Keys(rows) && hash(k) % n == f
    decreases |rows|
  {
    if rows != [] {
      var front, last := rows[..|rows| - 1], rows[|rows| - 1];
      RoutedKeys(front, hash, n, f, k);
      assert rows == front + [last];
      KeysConcat(front, [last]);
      var more := if hash(last.key) % n == f then [last] else [];
      KeysConcat(Routed(front, hash, n, f), more);
      assert last in [last];
      assert Keys([last]) == {last.key} && Keys([]) == {};
    }
  }

  /** A worker's slice for final worker `f` selects exactly the rows routed there. */
  lemma {:induction false} SliceIsRouted(rows: seq<Row>, slice: set<string>, hash: string -> nat, n: nat, f: nat)
    requires n >= 1 && forall i :: 0 <= i < |rows| ==> (rows[i].key in slice <==> hash(rows[i].key) % n == f)
    ensures Select(rows, slice) == Routed(rows, hash, n, f)
    decreases |rows|
  {
    if rows != [] {
      SliceIsRouted(rows[..|rows| - 1], slice, hash, n, f);
    }
  }

  /** Of every part, the rows whose group goes to final worker `f`; parts without any are not sent. */
  function RoutedParts(parts: seq<seq<Row>>, hash: string -> nat, n: nat, f: nat): seq<seq<Row>>
    requires n >= 1
  {
    if parts == [] then []
    else
      var front, r := RoutedParts(parts[..|parts| - 1], hash, n, f), Routed(parts[|parts| - 1], hash, n, f);
      if r == [] then front else front + [r]
  }

  lemma {:induction false} RoutedFlatten(parts: seq<seq<Row>>, hash: string -> nat, n: nat, f: nat)
    requires n >= 1
    ensures Flatten(RoutedParts(parts, hash, n, f)) == Routed(Flatten(parts), hash, n, f)
    decreases |parts|
  {
    if parts != [] {
      var front, last := parts[..|parts| - 1], parts[|parts| - 1];
      RoutedFlatten(front, hash, n, f);
      RoutedConcat(Flatten(front), last, hash, n, f);
      FlattenMore(RoutedParts(front, hash, n, f), Routed(last, hash, n, f));
    }
  }

  /** For a group routed to the worker, routing changes nothing. */
  lemma {:induction false} RoutedMerged<S>(a: Agg<S>, parts: seq<seq<Row>>, hash: string -> nat, n: nat, f: nat, k: string)
    requires n >= 1 && hash(k) % n == f
    ensures Merged(a, RoutedParts(parts, hash, n, f), k) == Merged(a, parts, k)
    decreases |parts|
  {
    if parts != [] {
      var front, last := parts[..|parts| - 1], parts[|parts| - 1];
      RoutedMerged(a, front, hash, n, f, k);
      RoutedOf(last, hash, n, f, k);
      MergedMore(a, RoutedParts(front, hash, n, f), Routed(last, hash, n, f), k);
    }
  }

  // ------------------------------------------------------------------ the stages

  /** A partial worker's map and its slices for the final workers. */
  datatype Partial<S> = Partial(results: map<string, seq<S>>, slices: seq<seq<string>>)

  ghost predicate PartialOK<S(!new)>(w: Partial<S>, aggs: seq<Agg<S>>, rows: seq<Row>, hash: string -> nat, n: nat)
    requires n >= 1
  {
    && Represents(w.results, aggs, rows)
    && |w.slices| == n
    && forall f :: 0 <= f < n ==> IsSlice(w.slices[f], w.results.Keys, hash, n, f)
  }

  /** One partial worker: it processes its chunks in order, then shuffles its groups. */
  method PartialStage<S(!new)>(aggs: seq<Agg<S>>, chunks: seq<seq<Row>>, assign: seq<nat>, p: nat, finals: nat, hash: string -> nat)
    returns (w: Partial<S>)
    requires |assign| == |chunks| && finals >= 1
    ensures PartialOK(w, aggs, WorkerRows(chunks, assign, p), hash, finals)
  {
    hide Represents, IsSlice;
    var worker := new PartialWorker(aggs);
    var i := 0;
    while i < |chunks|
      invariant 0 <= i <= |chunks| && worker.Valid() && worker.aggs == aggs
      invariant worker.rows == WorkerRows(chunks[..i], assign[..i], p)
    {
      assert chunks[..i + 1][..i] == chunks[..i] && assign[..i + 1][..i] == assign[..i];
      if assign[i] == p {
        worker.UpdatePartialResult(chunks[i]);
      }
      i := i + 1;
    }
    assert chunks[..i] == chunks && assign[..i] == assign;
    var slices := worker.ShuffleIntermData(finals, hash);
    w := Partial(worker.partialResultsMap, slices);
  }

  lemma {:induction false} SliceFits<S(!new)>(w: Partial<S>, aggs: seq<Agg<S>>, rows: seq<Row>, hash: string -> nat, n: nat, f: nat)
    requires n >= 1 && PartialOK(w, aggs, rows, hash, n) && f < n
    ensures Distinct(w.slices[f]) && forall i :: 0 <= i < |w.slices[f]| ==> w.slices[f][i] in w.results
    ensures Select(rows, (set k | k in w.slices[f])) == Routed(rows, hash, n, f)
    ensures w.slices[f] == [] <==> Routed(rows, hash, n, f) == []
  {
    var slice := w.slices[f];
    assert IsSlice(slice, w.results.Keys, hash, n, f);
    forall i | 0 <= i < |slice|
      ensures slice[i] in w.results
    {
      assert slice[i] in slice;
    }
    forall i | 0 <= i < |rows|
      ensures rows[i].key in (set k | k in slice) <==> hash(rows[i].key) % n == f
    {
      KeyOfRow(rows, i);
    }
    SliceIsRouted(rows, (set k | k in slice), hash, n, f);
    if slice == [] {
      SelectNone(rows, (set k | k in slice));
    } else {
      assert slice[0] in slice;
      RoutedKeys(rows, hash, n, f, slice[0]);
      assert Routed(rows, hash, n, f) != [];
    }
  }

  lemma {:induction false} SelectNone(rows: seq<Row>, keys: set<string>)
    requires keys == {}
    ensures Select(rows, keys) == []
    decreases |rows|
  {
    if rows != [] {
      SelectNone(rows[..|rows| - 1], keys);
    }
  }

  /** One final worker: it merges what arrives from the partial workers, in the order it arrives. */
  method FinalStage<S(!new)>(aggs: seq<Agg<S>>, partials: seq<Partial<S>>, order: seq<nat>, f: nat, finals: nat, hash: string -> nat,
                             maxChunkSize: nat, ghost parts: seq<seq<Row>>)
    returns (chunks: seq<seq<Result<S>>>, ghost results: map<string, seq<S>>)
    requires finals >= 1 && f < finals && maxChunkSize >= 1 && |parts| == |partials|
    requires forall p :: 0 <= p < |partials| ==> PartialOK(partials[p], aggs, parts[p], hash, finals)
    requires forall i :: 0 <= i < |order| ==> order[i] < |partials|
    ensures Gathers(results, aggs, RoutedParts(Arrival(parts, order), hash, finals, f))
    ensures ResultsOf(FlattenResults(chunks), results)
  {
    hide Represents, Gathers, ResultsOf, PartialOK, Select, Arrival;
    var worker := new FinalWorker(aggs, maxChunkSize);
    var i := 0;
    ArrivalNone(parts, order[..0]);
    while i < |order|
      invariant 0 <= i <= |order| && worker.Valid() && worker.aggs == aggs
      invariant worker.parts == RoutedParts(Arrival(parts, order[..i]), hash, finals, f)
    {
      var p := order[i];
      assert PartialOK(partials[p], aggs, parts[p], hash, finals);
      SliceFits(partials[p], aggs, parts[p], hash, finals, f);
      PartialMap(partials[p], aggs, parts[p], hash, finals);
      assert order[..i + 1][..i] == order[..i];
      ArrivalStep(parts, order[..i + 1]);
      RoutedNext(Arrival(parts, order[..i]), parts[p], hash, finals, f);
      if partials[p].slices[f] != [] {
        var data := new IntermData(partials[p].slices[f], partials[p].results);
        worker.ConsumeIntermData(data, parts[p]);
      }
      i := i + 1;
    }
    assert order[..i] == order;
    results := worker.partialResultMap;
    chunks := worker.GetFinalResult();
  }

  lemma {:induction false} ArrivalNone(parts: seq<seq<Row>>, order: seq<nat>)
    requires order == []
    ensures Arrival(parts, order) == []
  {
  }

  lemma {:induction false} RoutedNext(parts: seq<seq<Row>>, last: seq<Row>, hash: string -> nat, n: nat, f: nat)
    requires n >= 1
    ensures var before, r := RoutedParts(parts, hash, n, f), Routed(last, hash, n, f);
            RoutedParts(parts + [last], hash, n, f) == if r == [] then before else before + [r]
  {
    assert (parts + [last])[..|parts|] == parts;
  }

  lemma {:induction false} PartialMap<S(!new)>(w: Partial<S>, aggs: seq<Agg<S>>, rows: seq<Row>, hash: string -> nat, n: nat)
    requires n >= 1 && PartialOK(w, aggs, rows, hash, n)
    ensures Represents(w.results, aggs, rows) && |w.slices| == n
  {
  }

  // ------------------------------------------------------------------ the whole

  /** An output row: its values are the merged results of the parts its final worker heard of. Where an
      aggregate is mergeable on the rows of the group, they are its fold over them in the order heard, and in
      input order if the order does not matter. */
  ghost predicate IsGroup<S(!new)>(r: Result<S>, aggs: seq<Agg<S>>, heard: seq<seq<Row>>, rows: seq<Row>) {
    && r.key in Keys(rows)
    && r.values == MergedResult(aggs, heard, r.key)
    && forall j :: 0 <= j < |aggs| && Mergeable(aggs[j], multiset(Of(rows, r.key))) ==>
         && r.values[j] == Fold(aggs[j], Of(Flatten(heard), r.key))
         && (Unordered(aggs[j], multiset(Of(rows, r.key))) ==> r.values[j] == Fold(aggs[j], Of(rows, r.key)))
  }

  /** What every final worker heard, in order. */
  ghost predicate Arrangements(heard: seq<seq<seq<Row>>>, rows: seq<Row>) {
    |heard| >= 1 && forall f :: 0 <= f < |heard| ==> multiset(Flatten(heard[f])) == multiset(rows)
  }

  /** The final workers below `f` have given exactly one row for each of their groups. */
  ghost predicate GroupsBelow<S(!new)>(out: seq<Result<S>>, aggs: seq<Agg<S>>, heard: seq<seq<seq<Row>>>, rows: seq<Row>, hash: string -> nat, f: nat)
    requires |heard| >= 1
  {
    && (forall i, j :: 0 <= i < j < |out| ==> out[i].key != out[j].key)
    && (forall i :: 0 <= i < |out| ==> var w := hash(out[i].key) % |heard|; w < f && IsGroup(out[i], aggs, heard[w], rows))
    && (forall k :: k in Keys(rows) && hash(k) % |heard| < f ==> HasKey(out, k))
  }

  ghost predicate HasKey<S(!new)>(out: seq<Result<S>>, k: string) {
    exists i :: 0 <= i < |out| && out[i].key == k
  }

  lemma {:induction false} SameKeys(x: seq<Row>, y: seq<Row>)
    requires multiset(x) == multiset(y)
    ensures Keys(x) == Keys(y)
  {
    forall r: Row
      ensures r in x <==> r in y
    {
      assert r in multiset(x) <==> r in multiset(y);
    }
  }

  /** The groups of a final worker are those routed to it, and its results are those of an output row. */
  lemma {:induction false} FinalIsGroup<S(!new)>(results: map<string, seq<S>>, aggs: seq<Agg<S>>, heard: seq<seq<Row>>, rows: seq<Row>,
                                                 hash: string -> nat, n: nat, f: nat, k: string)
    requires n >= 1 && multiset(Flatten(heard)) == multiset(rows)
    requires Gathers(results, aggs, RoutedParts(heard, hash, n, f))
    ensures k in results <==> k in Keys(rows) && hash(k) % n == f
    ensures k in results ==> IsGroup(Result(k, results[k]), aggs, heard, rows)
  {
    hide Mergeable, Unordered, Fold, Merged;
    RoutedFlatten(heard, hash, n, f);
    RoutedKeys(Flatten(heard), hash, n, f, k);
    SameKeys(Flatten(heard), rows);
    if k in results {
      forall j | 0 <= j < |aggs|
        ensures results[k][j] == Merged(aggs[j], heard, k)
      {
        RoutedMerged(aggs[j], heard, hash, n, f, k);
      }
      forall j | 0 <= j < |aggs| && Mergeable(aggs[j], multiset(Of(rows, k)))
        ensures results[k][j] == Fold(aggs[j], Of(Flatten(heard), k))
        ensures Unordered(aggs[j], multiset(Of(rows, k))) ==> results[k][j] == Fold(aggs[j], Of(rows, k))
      {
        OfAnyOrder(Flatten(heard), rows, k);
        MergedIsFold(aggs[j], heard, k, multiset(Of(rows, k)));
        if Unordered(aggs[j], multiset(Of(rows, k))) {
          MergedAnyOrder(aggs[j], heard, rows, k);
        }
      }
    }
  }

  lemma {:induction false} AddFinal<S(!new)>(out: seq<Result<S>>, more: seq<Result<S>>, results: map<string, seq<S>>, aggs: seq<Agg<S>>,
                                             heard: seq<seq<seq<Row>>>, rows: seq<Row>, hash: string -> nat, f: nat)
    requires Arrangements(heard, rows) && f < |heard|
    requires GroupsBelow(out, aggs, heard, rows, hash, f) && ResultsOf(more, results)
    requires Gathers(results, aggs, RoutedParts(heard[f], hash, |heard|, f))
    ensures GroupsBelow(out + more, aggs, heard, rows, hash, f + 1)
  {
    hide Gathers, GroupResult, Keys, IsGroup, RoutedParts, Flatten;
    var all, n := out + more, |heard|;
    forall i | 0 <= i < |more|
      ensures hash(more[i].key) % n == f && IsGroup(more[i], aggs, heard[f], rows)
    {
      FinalIsGroup(results, aggs, heard[f], rows, hash, n, f, more[i].key);
      assert more[i] == Result(more[i].key, results[more[i].key]);
    }
    forall k | k in Keys(rows) && hash(k) % n < f + 1
      ensures HasKey(all, k)
    {
      if hash(k) % n < f {
        assert HasKey(out, k);
        var i :| 0 <= i < |out| && out[i].key == k;
        assert all[i].key == k;
      } else {
        FinalIsGroup(results, aggs, heard[f], rows, hash, n, f, k);
        var i :| 0 <= i < |more| && more[i].key == k;
        assert all[|out| + i].key == k;
      }
    }
  }

  /** Exactly one row for each group. */
  ghost predicate IsAggregation<S(!new)>(out: seq<Result<S>>, aggs: seq<Agg<S>>, heard: seq<seq<seq<Row>>>, rows: seq<Row>, hash: string -> nat)
    requires |heard| >= 1
  {
    && (forall i, j :: 0 <= i < j < |out| ==> out[i].key != out[j].key)
    && (forall i :: 0 <= i < |out| ==> IsGroup(out[i], aggs, heard[hash(out[i].key) % |heard|], rows))
    && (forall k :: k in Keys(rows) ==> HasKey(out, k))
  }

  lemma {:induction false} NoGroupsYet<S(!new)>(aggs: seq<Agg<S>>, heard: seq<seq<seq<Row>>>, rows: seq<Row>, hash: string -> nat)
    requires |heard| >= 1
    ensures GroupsBelow([], aggs, heard, rows, hash, 0)
  {
  }

  lemma {:induction false} AllGroups<S(!new)>(out: seq<Result<S>>, aggs: seq<Agg<S>>, heard: seq<seq<seq<Row>>>, rows: seq<Row>, hash: string -> nat)
    requires |heard| >= 1 && GroupsBelow(out, aggs, heard, rows, hash, |heard|)
    ensures IsAggregation(out, aggs, heard, rows, hash)
    ensures out == [] <==> rows == []
  {
    if rows != [] {
      KeyOfRow(rows, 0);
      assert HasKey(out, rows[0].key);
    }
    if out != [] {
      KeyHasRow(rows, out[0].key);
    }
  }

  lemma {:induction false} KeyHasRow(rows: seq<Row>, k: string)
    requires k in Keys(rows)
    ensures rows != []
  {
  }

  /** The partial workers one by one. */
  method PartialStages<S(!new)>(aggs: seq<Agg<S>>, chunks: seq<seq<Row>>, assign: seq<nat>, partialCount: nat, finals: nat, hash: string -> nat)
    returns (partials: seq<Partial<S>>)
    requires |assign| == |chunks| && finals >= 1
    ensures |partials| == partialCount
    ensures forall p :: 0 <= p < partialCount ==> PartialOK(partials[p], aggs, Parts(chunks, assign, partialCount)[p], hash, finals)
  {
    hide PartialOK, WorkerRows;
    partials := [];
    while |partials| < partialCount
      invariant |partials| <= partialCount
      invariant forall p :: 0 <= p < |partials| ==> PartialOK(partials[p], aggs, WorkerRows(chunks, assign, p), hash, finals)
    {
      var w := PartialStage(aggs, chunks, assign, |partials|, finals, hash);
      partials := partials + [w];
    }
  }

  /** What every final worker hears. */
  ghost function HeardAll(chunks: seq<seq<Row>>, assign: seq<nat>, n: nat, orders: seq<seq<nat>>): seq<seq<seq<Row>>>
    requires forall f :: 0 <= f < |orders| ==> Scheduled(chunks, assign, n, orders[f])
  {
    seq(|orders|, f requires 0 <= f < |orders| && Scheduled(chunks, assign, n, orders[f]) => Heard(chunks, assign, n, orders[f]))
  }

  lemma {:induction false} AreArrangements(chunks: seq<seq<Row>>, assign: seq<nat>, n: nat, orders: seq<seq<nat>>)
    requires |orders| >= 1 && forall f :: 0 <= f < |orders| ==> Scheduled(chunks, assign, n, orders[f])
    ensures Arrangements(HeardAll(chunks, assign, n, orders), Flatten(chunks))
  {
    hide Heard, Scheduled;
    forall f | 0 <= f < |orders|
      ensures multiset(Flatten(HeardAll(chunks, assign, n, orders)[f])) == multiset(Flatten(chunks))
    {
      PartsAreInput(chunks, assign, n, orders[f]);
    }
  }

  /** Parallel hash aggregation refines the sequential one: for every assignment of chunks to partial workers,
      every hash function and every order in which a final worker receives its input, the result has exactly
      one row for each group. An empty input gives the default row, if there is one. */
  method Aggregate<S(!new)>(aggs: seq<Agg<S>>, chunks: seq<seq<Row>>, assign: seq<nat>, partialCount: nat, hash: string -> nat,
                            orders: seq<seq<nat>>, maxChunkSize: nat, defaultVal: seq<Result<S>>)
    returns (out: seq<Result<S>>)
    requires maxChunkSize >= 1 && |orders| >= 1 && |defaultVal| <= 1
    requires |assign| == |chunks| && forall f :: 0 <= f < |orders| ==> Scheduled(chunks, assign, partialCount, orders[f])
    ensures Flatten(chunks) == [] ==> out == defaultVal
    ensures Flatten(chunks) != [] ==>
              IsAggregation(out, aggs, HeardAll(chunks, assign, partialCount, orders), Flatten(chunks), hash)
  {
    hide *;
    ghost var rows, heard := Flatten(chunks), HeardAll(chunks, assign, partialCount, orders);
    var partials := PartialStages(aggs, chunks, assign, partialCount, |orders|, hash);
    AreArrangements(chunks, assign, partialCount, orders);
    AllHeard(chunks, assign, partialCount, orders);
    out := [];
    NoGroupsYet(aggs, heard, rows, hash);
    var f := 0;
    while f < |orders|
      invariant 0 <= f <= |orders| && GroupsBelow(out, aggs, heard, rows, hash, f)
    {
      var more := FinalOutput(aggs, partials, chunks, assign, partialCount, orders, f, hash, maxChunkSize, out);
      out := out + more;
      f := f + 1;
    }
    AllGroups(out, aggs, heard, rows, hash);
    if out == [] {
      out := defaultVal;
    }
  }

  lemma {:induction false} AllHeard(chunks: seq<seq<Row>>, assign: seq<nat>, n: nat, orders: seq<seq<nat>>)
    requires forall f :: 0 <= f < |orders| ==> Scheduled(chunks, assign, n, orders[f])
    ensures |HeardAll(chunks, assign, n, orders)| == |orders|
  {
  }

  /** What the caller receives from one final worker. */
  method FinalOutput<S(!new)>(aggs: seq<Agg<S>>, partials: seq<Partial<S>>, chunks: seq<seq<Row>>, assign: seq<nat>, partialCount: nat,
                              orders: seq<seq<nat>>, f: nat, hash: string -> nat, maxChunkSize: nat, ghost out: seq<Result<S>>)
    returns (more: seq<Result<S>>)
    requires maxChunkSize >= 1 && f < |orders| && |partials| == partialCount
    requires |assign| == |chunks| && forall g :: 0 <= g < |orders| ==> Scheduled(chunks, assign, partialCount, orders[g])
    requires forall p :: 0 <= p < partialCount ==> PartialOK(partials[p], aggs, Parts(chunks, assign, partialCount)[p], hash, |orders|)
    requires GroupsBelow(out, aggs, HeardAll(chunks, assign, partialCount, orders), Flatten(chunks), hash, f)
    ensures GroupsBelow(out + more, aggs, HeardAll(chunks, assign, partialCount, orders), Flatten(chunks), hash, f + 1)
  {
    hide Gathers, ResultsOf, PartialOK, GroupsBelow, Keys, Flatten, WorkerRows, RoutedParts, Arrival, FlattenResults, Arrangements;
    ghost var rows, heard := Flatten(chunks), HeardAll(chunks, assign, partialCount, orders);
    assert Scheduled(chunks, assign, partialCount, orders[f]);
    ghost var results;
    var finalChunks;
    finalChunks, results := FinalStage(aggs, partials, orders[f], f, |orders|, hash, maxChunkSize, Parts(chunks, assign, partialCount));
    more := Collect(finalChunks);
    AreArrangements(chunks, assign, partialCount, orders);
    AddFinal(out, more, results, aggs, heard, rows, hash, f);
  }

  /** The chunks as they come. */
  method Collect<S(!new)>(chunks: seq<seq<Result<S>>>) returns (out: seq<Result<S>>)
    ensures out == FlattenResults(chunks)
  {
    out := [];
    var i := 0;
    while i < |chunks|
      invariant 0 <= i <= |chunks| && out == FlattenResults(chunks[..i])
    {
      assert chunks[..i + 1][..i] == chunks[..i];
      out := out + chunks[i];
      i := i + 1;
    }
    assert chunks[..i] == chunks;
  }
}
