/** The workers of the two-stage hash aggregation. */
module HashAggWorkers {
  import opened HashAggSpec

  /** Every key has the aggregates of its rows; keys without rows have empty ones. */
  ghost predicate Holds<S(!new)>(results: map<string, seq<S>>, aggs: seq<Agg<S>>, rows: seq<Row>) {
    forall k :: k in results ==> results[k] == GroupResult(aggs, rows, k)
  }

  /** getPartialResult: adds empty results for the keys that have none. */
  method AddMissing<S(!new)>(aggs: seq<Agg<S>>, keys: seq<string>, results: map<string, seq<S>>) returns (more: map<string, seq<S>>)
    ensures more.Keys == results.Keys + set k | k in keys
    ensures forall k :: k in results ==> more[k] == results[k]
    ensures forall k :: k in more && k !in results ==> more[k] == GroupResult(aggs, [], k)
  {
    more := results;
    var i := 0;
    while i < |keys|
      invariant 0 <= i <= |keys|
      invariant more.Keys == results.Keys + set k | k in keys[..i]
      invariant forall k :: k in results ==> more[k] == results[k]
      invariant forall k :: k in more && k !in results ==> more[k] == GroupResult(aggs, [], k)
    {
      assert keys[..i + 1] == keys[..i] + [keys[i]];
      if keys[i] !in more {
        var empty: seq<S> := [];
        var j := 0;
        while j < |aggs|
          invariant 0 <= j <= |aggs| && |empty| == j && forall x :: 0 <= x < j ==> empty[x] == aggs[x].init
        {
          empty := empty + [aggs[j].init];
          j := j + 1;
        }
        assert empty == GroupResult(aggs, [], keys[i]);
        more := more[keys[i] := empty];
      }
      i := i + 1;
    }
    assert keys[..i] == keys;
  }

  lemma {:induction false} StillHolds<S(!new)>(results: map<string, seq<S>>, more: map<string, seq<S>>, aggs: seq<Agg<S>>, rows: seq<Row>)
    requires Represents(results, aggs, rows)
    requires forall k :: k in results ==> k in more && more[k] == results[k]
    requires forall k :: k in more && k !in results ==> more[k] == GroupResult(aggs, [], k)
    ensures Holds(more, aggs, rows)
  {
    forall k | k in more
      ensures more[k] == GroupResult(aggs, rows, k)
    {
      if k !in results {
        NotInGroup(rows, k);
      }
    }
  }

  // ------------------------------------------------------------------ partial workers

  class PartialWorker<S(!new)> {
    const aggs: seq<Agg<S>>
    var partialResultsMap: map<string, seq<S>>
    /** The key buffer is reused: after a shorter chunk its end still has keys of earlier rows. */
    var groupKey: seq<string>
    ghost var rows: seq<Row>

    ghost predicate Valid()
      reads this
    {
      Represents(partialResultsMap, aggs, rows) && forall i :: 0 <= i < |groupKey| ==> groupKey[i] in partialResultsMap
    }

    constructor (aggs: seq<Agg<S>>)
      ensures Valid() && rows == [] && this.aggs == aggs
    {
      this.aggs := aggs;
      partialResultsMap := map[];
      groupKey := [];
      rows := [];
    }

    /** Evaluates the group keys of the chunk into the buffer. */
    method GetGroupKey(chk: seq<Row>)
      modifies this`groupKey
      ensures |groupKey| == (if old(|groupKey|) > |chk| then old(|groupKey|) else |chk|)
      ensures forall i :: 0 <= i < |chk| ==> groupKey[i] == chk[i].key
      ensures forall i :: |chk| <= i < |groupKey| ==> groupKey[i] == old(groupKey)[i]
    {
      var i := 0;
      while i < |chk|
        invariant 0 <= i <= |chk| && |groupKey| == (if old(|groupKey|) > i then old(|groupKey|) else i)
        invariant forall k :: 0 <= k < i ==> groupKey[k] == chk[k].key
        invariant forall k :: i <= k < |groupKey| ==> groupKey[k] == old(groupKey)[k]
      {
        if i < |groupKey| {
          groupKey := groupKey[i := chk[i].key];
        } else {
          groupKey := groupKey + [chk[i].key];
        }
        i := i + 1;
      }
    }

    /** Feeds one row to all aggregate functions of its group. */
    method UpdateRow(row: Row)
      requires row.key in partialResultsMap && Holds(partialResultsMap, aggs, rows)
      modifies this`partialResultsMap, this`rows
      ensures partialResultsMap.Keys == old(partialResultsMap.Keys) && rows == old(rows) + [row]
      ensures Holds(partialResultsMap, aggs, rows)
    {
      var results := partialResultsMap[row.key];
      ghost var before := results;
      var j := 0;
      while j < |aggs|
        invariant 0 <= j <= |aggs| == |results|
        invariant forall x :: 0 <= x < j ==> results[x] == aggs[x].update(before[x], row)
        invariant forall x :: j <= x < |aggs| ==> results[x] == before[x]
      {
        results := results[j := aggs[j].update(results[j], row)];
        j := j + 1;
      }
      RowTaken(aggs, rows, row, before, results);
      forall k | k != row.key
        ensures GroupResult(aggs, rows + [row], k) == GroupResult(aggs, rows, k)
      {
        OtherGroup(aggs, rows, row, k);
      }
      partialResultsMap := partialResultsMap[row.key := results];
      rows := rows + [row];
    }

    /** Updates the partial results with a chunk. Stale keys in the buffer add no groups. */
    method UpdatePartialResult(chk: seq<Row>)
      requires Valid()
      modifies this
      ensures Valid() && rows == old(rows) + chk
    {
      hide GroupResult, Keys, Holds;
      GetGroupKey(chk);
      ghost var keys, rows0 := partialResultsMap.Keys, rows;
      var more := AddMissing(aggs, groupKey, partialResultsMap);
      StillHolds(partialResultsMap, more, aggs, rows);
      KeysGrow(keys, rows0, groupKey, chk, more.Keys);
      partialResultsMap := more;
      var i := 0;
      assert rows0 + chk[..0] == rows0;
      while i < |chk|
        invariant 0 <= i <= |chk| && rows == rows0 + chk[..i] && partialResultsMap.Keys == more.Keys == Keys(rows0 + chk)
        invariant Holds(partialResultsMap, aggs, rows)
        invariant forall k :: 0 <= k < |groupKey| ==> groupKey[k] in more.Keys
      {
        KeyOfRow(rows0 + chk, |rows0| + i);
        assert rows0 + chk[..i] + [chk[i]] == rows0 + chk[..i + 1];
        UpdateRow(chk[i]);
        i := i + 1;
      }
      assert chk[..i] == chk;
      HoldsAll(partialResultsMap, aggs, rows);
    }

    /** Assigns every group to the final worker its hash selects. */
    method ShuffleIntermData(finalConcurrency: nat, hash: string -> nat) returns (slices: seq<seq<string>>)
      requires finalConcurrency >= 1
      ensures |slices| == finalConcurrency
      ensures forall f :: 0 <= f < finalConcurrency ==> IsSlice(slices[f], partialResultsMap.Keys, hash, finalConcurrency, f)
    {
      slices := seq(finalConcurrency, _ => []);
      var todo := partialResultsMap.Keys;
      while todo != {}
        invariant todo <= partialResultsMap.Keys && |slices| == finalConcurrency
        invariant forall f :: 0 <= f < finalConcurrency ==> IsSlice(slices[f], partialResultsMap.Keys - todo, hash, finalConcurrency, f)
        decreases todo
      {
        var k :| k in todo;
        var idx := hash(k) % finalConcurrency;
        slices := slices[idx := slices[idx] + [k]];
        todo := todo - {k};
      }
      assert partialResultsMap.Keys - todo == partialResultsMap.Keys;
    }
  }

  predicate Distinct<T(==)>(s: seq<T>) {
    forall i, j :: 0 <= i < j < |s| ==> s[i] != s[j]
  }

  /** The keys routed to final worker `f`, each once. */
  ghost predicate IsSlice(slice: seq<string>, keys: set<string>, hash: string -> nat, n: nat, f: nat)
    requires n >= 1
  {
    Distinct(slice) && forall k :: k in slice <==> k in keys && hash(k) % n == f
  }

  lemma {:induction false} HoldsAll<S(!new)>(results: map<string, seq<S>>, aggs: seq<Agg<S>>, rows: seq<Row>)
    requires Holds(results, aggs, rows) && results.Keys == Keys(rows)
    ensures Represents(results, aggs, rows)
  {
  }

  lemma {:induction false} KeyOfRow(rows: seq<Row>, i: nat)
    requires i < |rows|
    ensures rows[i].key in Keys(rows)
  {
    assert rows[i] in rows;
  }

  lemma {:induction false} RowTaken<S(!new)>(aggs: seq<Agg<S>>, rows: seq<Row>, row: Row, before: seq<S>, results: seq<S>)
    requires before == GroupResult(aggs, rows, row.key) && |results| == |aggs|
    requires forall x :: 0 <= x < |aggs| ==> results[x] == aggs[x].update(before[x], row)
    ensures results == GroupResult(aggs, rows + [row], row.key)
  {
    assert (rows + [row])[..|rows|] == rows;
    var g := Of(rows, row.key);
    assert (g + [row])[..|g|] == g;
  }

  lemma {:induction false} OtherGroup<S(!new)>(aggs: seq<Agg<S>>, rows: seq<Row>, row: Row, k: string)
    requires row.key != k
    ensures GroupResult(aggs, rows + [row], k) == GroupResult(aggs, rows, k)
  {
    assert (rows + [row])[..|rows|] == rows;
    assert Of(rows, k) + [] == Of(rows, k);
  }

  lemma {:induction false} KeysGrow(keys: set<string>, rows: seq<Row>, buffer: seq<string>, chk: seq<Row>, more: set<string>)
    requires keys == Keys(rows) && more == keys + (set k | k in buffer)
    requires |buffer| >= |chk| && (forall i :: 0 <= i < |chk| ==> buffer[i] == chk[i].key)
    requires forall i :: |chk| <= i < |buffer| ==> buffer[i] in keys
    ensures more == Keys(rows + chk)
  {
    KeysConcat(rows, chk);
    forall k | k in more
      ensures k in keys + Keys(chk)
    {
      if k !in keys {
        var i :| 0 <= i < |buffer| && buffer[i] == k;
        assert chk[i] in chk;
      }
    }
    forall k | k in Keys(chk)
      ensures k in more
    {
      var r :| r in chk && r.key == k;
      var i :| 0 <= i < |chk| && chk[i] == r;
      assert buffer[i] in buffer;
    }
  }

  // ------------------------------------------------------------------ final workers

  /** The rows whose key is among the given ones. */
  function Select(rows: seq<Row>, keys: set<string>): seq<Row> {
    if rows == [] then []
    else Select(rows[..|rows| - 1], keys) + (if rows[|rows| - 1].key in keys then [rows[|rows| - 1]] else [])
  }

  lemma {:induction false} SelectOf(rows: seq<Row>, keys: set<string>, k: string)
    ensures Of(Select(rows, keys), k) == if k in keys then Of(rows, k) else []
    decreases |rows|
  {
    if rows != [] {
      var front, last := rows[..|rows| - 1], rows[|rows| - 1];
      SelectOf(front, keys, k);
      if last.key in keys {
        assert (Select(front, keys) + [last])[..|Select(front, keys)|] == Select(front, keys);
      } else {
        assert Select(front, keys) + [] == Select(front, keys);
      }
    }
  }

  lemma {:induction false} SelectKeys(rows: seq<Row>, keys: set<string>)
    ensures Keys(Select(rows, keys)) == Keys(rows) * keys
    decreases |rows|
  {
    if rows != [] {
      var front, last := rows[..|rows| - 1], rows[|rows| - 1];
      SelectKeys(front, keys);
      assert rows == front + [last];
      KeysConcat(front, [last]);
      KeysConcat(Select(front, keys), if last.key in keys then [last] else []);
      assert last in [last];
      assert Keys([last]) == {last.key};
      assert Keys([]) == {};
    }
  }

  /** Intermediate data of one partial worker for one final worker, read in batches. */
  class IntermData<S(!new)> {
    const groupKeys: seq<string>
    const partialResultMap: map<string, seq<S>>
    var cursor: nat

    constructor (groupKeys: seq<string>, results: map<string, seq<S>>)
      ensures this.groupKeys == groupKeys && partialResultMap == results && cursor == 0
    {
      this.groupKeys := groupKeys;
      partialResultMap := results;
      cursor := 0;
    }

    /** The next batch: keys, their results, and whether these were the last. */
    method GetPartialResultBatch(maxChunkSize: nat) returns (prs: seq<seq<S>>, keys: seq<string>, reachEnd: bool)
      requires cursor <= |groupKeys| && (forall i :: 0 <= i < |groupKeys| ==> groupKeys[i] in partialResultMap) && maxChunkSize >= 1
      modifies this`cursor
      ensures old(cursor) <= cursor <= |groupKeys| && keys == groupKeys[old(cursor)..cursor] && |prs| == |keys|
      ensures forall i :: 0 <= i < |keys| ==> keys[i] in partialResultMap && prs[i] == partialResultMap[keys[i]]
      ensures reachEnd <==> cursor == |groupKeys|
      ensures old(cursor) < |groupKeys| ==> old(cursor) < cursor
    {
      prs := [];
      var start := cursor;
      while cursor < |groupKeys| && |prs| < maxChunkSize
        invariant start <= cursor <= |groupKeys| && |prs| == cursor - start
        invariant forall i :: 0 <= i < |prs| ==> prs[i] == partialResultMap[groupKeys[start + i]]
      {
        prs := prs + [partialResultMap[groupKeys[cursor]]];
        cursor := cursor + 1;
      }
      keys := groupKeys[start..cursor];
      reachEnd := cursor == |groupKeys|;
    }
  }

  class FinalWorker<S(!new)> {
    const aggs: seq<Agg<S>>
    const maxChunkSize: nat
    var partialResultMap: map<string, seq<S>>
    var groupSet: set<string>
    /** The rows behind the intermediate data consumed so far. */
    ghost var parts: seq<seq<Row>>

    ghost predicate Valid()
      reads this
    {
      Gathers(partialResultMap, aggs, parts) && groupSet == partialResultMap.Keys && maxChunkSize >= 1
    }

    constructor (aggs: seq<Agg<S>>, maxChunkSize: nat)
      requires maxChunkSize >= 1
      ensures Valid() && parts == [] && this.aggs == aggs
    {
      this.aggs := aggs;
      this.maxChunkSize := maxChunkSize;
      partialResultMap := map[];
      groupSet := {};
      parts := [];
    }

    /** Merges the results of one group into the final ones. */
    method MergeKey(key: string, prs: seq<S>, ghost before: seq<seq<Row>>, ghost theirs: seq<Row>)
      requires key in partialResultMap && Of(theirs, key) != []
      requires partialResultMap[key] == MergedResult(aggs, before, key) && prs == GroupResult(aggs, theirs, key)
      modifies this`partialResultMap, this`groupSet
      ensures partialResultMap == old(partialResultMap)[key := MergedResult(aggs, before + [theirs], key)]
      ensures groupSet == old(groupSet) + {key}
    {
      if key !in groupSet {
        groupSet := groupSet + {key};
      }
      var results := partialResultMap[key];
      ghost var was := results;
      var j := 0;
      while j < |aggs|
        invariant 0 <= j <= |aggs| == |results|
        invariant forall x :: 0 <= x < j ==> results[x] == aggs[x].merge(was[x], prs[x])
        invariant forall x :: j <= x < |aggs| ==> results[x] == was[x]
      {
        results := results[j := aggs[j].merge(results[j], prs[j])];
        j := j + 1;
      }
      forall x | 0 <= x < |aggs|
        ensures results[x] == MergedResult(aggs, before + [theirs], key)[x]
      {
        MergedMore(aggs[x], before, theirs, key);
      }
      assert results == MergedResult(aggs, before + [theirs], key);
      partialResultMap := partialResultMap[key := results];
    }

    /** Merges one batch of groups, numbers `start` to `present` of the input. */
    method ConsumeBatch(keys: seq<string>, prs: seq<seq<S>>, ghost groupKeys: seq<string>, ghost start: nat, ghost present: nat, ghost theirs: seq<Row>)
      requires Distinct(groupKeys) && start <= present <= |groupKeys| && keys == groupKeys[start..present] && |prs| == |keys|
      requires forall i :: 0 <= i < |keys| ==> keys[i] in Keys(theirs) && prs[i] == GroupResult(aggs, theirs, keys[i])
      requires Merging(partialResultMap, groupSet, aggs, parts, theirs, groupKeys, start, start)
      modifies this`partialResultMap, this`groupSet
      ensures Merging(partialResultMap, groupSet, aggs, parts, theirs, groupKeys, present, present)
    {
      hide GroupResult, MergedResult, Keys, Distinct, Merging;
      MergingMore(partialResultMap, groupSet, aggs, parts, theirs, groupKeys, start, present);
      partialResultMap := AddMissing(aggs, keys, partialResultMap);
      assert Merging(partialResultMap, groupSet, aggs, parts, theirs, groupKeys, present, start);
      var i := 0;
      while i < |keys|
        invariant 0 <= i <= |keys|
        invariant Merging(partialResultMap, groupSet, aggs, parts, theirs, groupKeys, present, start + i)
      {
        assert keys[i] == groupKeys[start + i];
        MergingNext(partialResultMap, groupSet, aggs, parts, theirs, groupKeys, present, start + i);
        InGroup(theirs, keys[i]);
        MergeKey(keys[i], prs[i], parts, theirs);
        i := i + 1;
      }
    }

    /** Consumes the intermediate data of one partial worker, batch by batch: its groups are merged in. */
    method ConsumeIntermData(input: IntermData<S>, ghost theirs: seq<Row>)
      requires Valid() && input.cursor == 0 && Distinct(input.groupKeys)
      requires Represents(input.partialResultMap, aggs, theirs)
      requires forall i :: 0 <= i < |input.groupKeys| ==> input.groupKeys[i] in input.partialResultMap
      modifies this, input`cursor
      ensures Valid() && parts == old(parts) + [Select(theirs, set k | k in input.groupKeys)]
    {
      hide GroupResult, MergedResult, Keys, Distinct, Merging, Select;
      MergingStarts(partialResultMap, groupSet, aggs, parts, theirs, input.groupKeys);
      var reachEnd := false;
      while !reachEnd
        invariant input.cursor <= |input.groupKeys| && parts == old(parts)
        invariant Merging(partialResultMap, groupSet, aggs, parts, theirs, input.groupKeys, input.cursor, input.cursor)
        invariant reachEnd ==> input.cursor == |input.groupKeys|
        decreases !reachEnd, |input.groupKeys| - input.cursor
      {
        ghost var start := input.cursor;
        var prs, keys;
        prs, keys, reachEnd := input.GetPartialResultBatch(maxChunkSize);
        ConsumeBatch(keys, prs, input.groupKeys, start, input.cursor, theirs);
      }
      MergingEnds(partialResultMap, groupSet, aggs, parts, theirs, input.groupKeys, input.partialResultMap.Keys);
      parts := parts + [Select(theirs, set k | k in input.groupKeys)];
    }

    /** Hands out the final results, one row for each group, in chunks. */
    method GetFinalResult() returns (chunks: seq<seq<Result<S>>>)
      requires Valid()
      ensures ResultsOf(FlattenResults(chunks), partialResultMap)
      ensures forall i :: 0 <= i < |chunks| ==> |chunks[i]| <= maxChunkSize
    {
      hide ResultsFor, FlattenResults, Gathers;
      chunks := [];
      var result: seq<Result<S>> := [];
      var todo := groupSet;
      NoResults(partialResultMap);
      assert groupSet - todo == {};
      while todo != {}
        invariant todo <= groupSet && |result| < maxChunkSize
        invariant ResultsFor(FlattenResults(chunks) + result, partialResultMap, groupSet - todo)
        invariant forall i :: 0 <= i < |chunks| ==> |chunks[i]| <= maxChunkSize
        decreases todo
      {
        var k :| k in todo;
        OneMoreResult(FlattenResults(chunks) + result, partialResultMap, groupSet - todo, k);
        assert groupSet - todo + {k} == groupSet - (todo - {k});
        var row := Result(k, partialResultMap[k]);
        assert FlattenResults(chunks) + result + [row] == FlattenResults(chunks) + (result + [row]);
        result := result + [row];
        if |result| >= maxChunkSize {
          FlattenSnoc(chunks, result);
          assert FlattenResults(chunks + [result]) + [] == FlattenResults(chunks) + result;
          chunks := chunks + [result];
          result := [];
        }
        todo := todo - {k};
      }
      assert groupSet - todo == groupSet;
      FlattenSnoc(chunks, result);
      chunks := chunks + [result];
    }
  }

  // ------------------------------------------------------------------ merging under way

  lemma {:induction false} InGroup(rows: seq<Row>, key: string)
    requires key in Keys(rows)
    ensures Of(rows, key) != []
  {
    var r :| r in rows && r.key == key;
    assert multiset(rows)[r] > 0;
    OfCount(rows, key, r);
  }

  /** The first `present` keys of the input are in the map; of these the first `d` have been merged. */
  ghost predicate Merging<S(!new)>(results: map<string, seq<S>>, groups: set<string>, aggs: seq<Agg<S>>, parts: seq<seq<Row>>, theirs: seq<Row>,
                                   groupKeys: seq<string>, present: nat, d: nat) {
    && d <= present <= |groupKeys|
    && results.Keys == Keys(Flatten(parts)) + (set k | k in groupKeys[..present])
    && groups == Keys(Flatten(parts)) + (set k | k in groupKeys[..d])
    && forall k :: k in results ==> results[k] == MergedResult(aggs, if k in groupKeys[..d] then parts + [theirs] else parts, k)
  }

  lemma {:induction false} MergingStarts<S(!new)>(results: map<string, seq<S>>, groups: set<string>, aggs: seq<Agg<S>>, parts: seq<seq<Row>>,
                                                  theirs: seq<Row>, groupKeys: seq<string>)
    requires Gathers(results, aggs, parts) && groups == results.Keys
    ensures Merging(results, groups, aggs, parts, theirs, groupKeys, 0, 0)
  {
  }

  /** A group that no part has is as if nothing had been merged. */
  lemma {:induction false} MergedNothing<S>(a: Agg<S>, parts: seq<seq<Row>>, key: string)
    requires key !in Keys(Flatten(parts))
    ensures Merged(a, parts, key) == a.init
    decreases |parts|
  {
    if parts != [] {
      var front, last := parts[..|parts| - 1], parts[|parts| - 1];
      KeysConcat(Flatten(front), last);
      NotInGroup(last, key);
      MergedNothing(a, front, key);
    }
  }

  /** Whatever AddMissing returns, the new keys are present and not merged. */
  lemma {:induction false} MergingMore<S(!new)>(results: map<string, seq<S>>, groups: set<string>, aggs: seq<Agg<S>>, parts: seq<seq<Row>>,
                                                theirs: seq<Row>, groupKeys: seq<string>, start: nat, present: nat)
    requires Merging(results, groups, aggs, parts, theirs, groupKeys, start, start) && start <= present <= |groupKeys|
    ensures forall more: map<string, seq<S>> ::
              && more.Keys == results.Keys + (set k | k in groupKeys[start..present])
              && (forall k :: k in results ==> more[k] == results[k])
              && (forall k :: k in more && k !in results ==> more[k] == GroupResult(aggs, [], k)) ==>
                Merging(more, groups, aggs, parts, theirs, groupKeys, present, start)
  {
    assert groupKeys[..present] == groupKeys[..start] + groupKeys[start..present];
    forall k | k !in results
      ensures GroupResult(aggs, [], k) == MergedResult(aggs, parts, k)
    {
      forall j | 0 <= j < |aggs|
        ensures Merged(aggs[j], parts, k) == aggs[j].init
      {
        MergedNothing(aggs[j], parts, k);
      }
    }
  }

  /** The next key to merge is present and still has the results of the parts before. */
  lemma {:induction false} MergingNext<S(!new)>(results: map<string, seq<S>>, groups: set<string>, aggs: seq<Agg<S>>, parts: seq<seq<Row>>,
                                                theirs: seq<Row>, groupKeys: seq<string>, present: nat, d: nat)
    requires Merging(results, groups, aggs, parts, theirs, groupKeys, present, d) && d < present && Distinct(groupKeys)
    ensures groupKeys[d] in results && results[groupKeys[d]] == MergedResult(aggs, parts, groupKeys[d])
    ensures Merging(results[groupKeys[d] := MergedResult(aggs, parts + [theirs], groupKeys[d])], groups + {groupKeys[d]},
                    aggs, parts, theirs, groupKeys, present, d + 1)
  {
    hide MergedResult, Keys, Flatten;
    var key := groupKeys[d];
    assert groupKeys[..present][d] == key;
    assert groupKeys[..d + 1] == groupKeys[..d] + [key];
    assert key !in groupKeys[..d];
  }

  /** Of a selected part, a selected group has all its rows and any other none. */
  lemma {:induction false} MergedSelected<S(!new)>(aggs: seq<Agg<S>>, parts: seq<seq<Row>>, theirs: seq<Row>, keys: set<string>, k: string)
    ensures MergedResult(aggs, parts + [Select(theirs, keys)], k) == MergedResult(aggs, if k in keys then parts + [theirs] else parts, k)
  {
    hide Merged, Select;
    SelectOf(theirs, keys, k);
    forall j | 0 <= j < |aggs|
      ensures Merged(aggs[j], parts + [Select(theirs, keys)], k) == Merged(aggs[j], if k in keys then parts + [theirs] else parts, k)
    {
      MergedMore(aggs[j], parts, Select(theirs, keys), k);
      MergedMore(aggs[j], parts, theirs, k);
    }
  }

  lemma {:induction false} MergingEnds<S(!new)>(results: map<string, seq<S>>, groups: set<string>, aggs: seq<Agg<S>>, parts: seq<seq<Row>>,
                                                theirs: seq<Row>, groupKeys: seq<string>, theirKeys: set<string>)
    requires Merging(results, groups, aggs, parts, theirs, groupKeys, |groupKeys|, |groupKeys|)
    requires theirKeys == Keys(theirs) && forall i :: 0 <= i < |groupKeys| ==> groupKeys[i] in theirKeys
    ensures Gathers(results, aggs, parts + [Select(theirs, set k | k in groupKeys)]) && groups == results.Keys
  {
    hide MergedResult, Select, Flatten, Keys;
    var keys := set k | k in groupKeys;
    var selected := Select(theirs, keys);
    assert groupKeys[..|groupKeys|] == groupKeys;
    SelectKeys(theirs, keys);
    FlattenMore(parts, selected);
    KeysConcat(Flatten(parts), selected);
    assert results.Keys == Keys(Flatten(parts + [selected]));
    forall k | k in results
      ensures results[k] == MergedResult(aggs, parts + [selected], k)
    {
      MergedSelected(aggs, parts, theirs, keys, k);
    }
  }

  // ------------------------------------------------------------------ results

  datatype Result<S> = Result(key: string, values: seq<S>)

  function FlattenResults<S>(chunks: seq<seq<Result<S>>>): seq<Result<S>> {
    if chunks == [] then [] else FlattenResults(chunks[..|chunks| - 1]) + chunks[|chunks| - 1]
  }

  lemma {:induction false} FlattenSnoc<S>(chunks: seq<seq<Result<S>>>, last: seq<Result<S>>)
    ensures FlattenResults(chunks + [last]) == FlattenResults(chunks) + last
  {
    assert (chunks + [last])[..|chunks|] == chunks;
  }

  /** One row for each of the keys, with the values of the map. */
  ghost predicate ResultsFor<S(!new)>(out: seq<Result<S>>, results: map<string, seq<S>>, keys: set<string>) {
    && (forall i, j :: 0 <= i < j < |out| ==> out[i].key != out[j].key)
    && (forall i :: 0 <= i < |out| ==> out[i].key in keys && out[i].key in results && out[i].values == results[out[i].key])
    && (forall k :: k in keys ==> exists i :: 0 <= i < |out| && out[i].key == k)
  }

  ghost predicate ResultsOf<S(!new)>(out: seq<Result<S>>, results: map<string, seq<S>>) {
    ResultsFor(out, results, results.Keys)
  }

  lemma {:induction false} NoResults<S(!new)>(results: map<string, seq<S>>)
    ensures FlattenResults<S>([]) + [] == [] && ResultsFor([], results, {})
  {
  }

  lemma {:induction false} OneMoreResult<S(!new)>(out: seq<Result<S>>, results: map<string, seq<S>>, keys: set<string>, k: string)
    requires ResultsFor(out, results, keys) && k !in keys && k in results
    ensures ResultsFor(out + [Result(k, results[k])], results, keys + {k})
  {
    var more := out + [Result(k, results[k])];
    forall x | x in keys + {k}
      ensures exists i :: 0 <= i < |more| && more[i].key == x
    {
      if x == k {
        assert more[|out|].key == x;
      } else {
        var i :| 0 <= i < |out| && out[i].key == x;
        assert more[i].key == x;
      }
    }
  }
}
