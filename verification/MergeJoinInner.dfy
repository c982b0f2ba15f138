/** The inner side of the merge join: it hands out groups of rows with the same key as references into
    chunks, and reuses chunks that no group refers to any more.

    Chunks are objects in the program; here a chunk is an index into a pool of chunk contents, so that
    overwriting a chunk that is still referred to would show. */
module MergeJoinInner {
  import opened MergeJoinSpec

  datatype Option<T> = None | Some(value: T)

  /** A row of a chunk, as the program holds it: by reference. */
  datatype Ref = Ref(chunk: nat, idx: nat)

  predicate ValidRef(pool: seq<seq<Row>>, r: Ref) {
    r.chunk < |pool| && r.idx < |pool[r.chunk]|
  }

  function Deref(pool: seq<seq<Row>>, r: Ref): Row
    requires ValidRef(pool, r)
  {
    pool[r.chunk][r.idx]
  }

  predicate ValidRefs(pool: seq<seq<Row>>, refs: seq<Ref>) {
    forall i :: 0 <= i < |refs| ==> ValidRef(pool, refs[i])
  }

  function DerefAll(pool: seq<seq<Row>>, refs: seq<Ref>): seq<Row>
    requires ValidRefs(pool, refs)
  {
    seq(|refs|, i requires 0 <= i < |refs| => Deref(pool, refs[i]))
  }

  predicate Distinct(ids: seq<nat>) {
    forall i, j :: 0 <= i < j < |ids| ==> ids[i] != ids[j]
  }

  /** The references point into the given chunks. */
  predicate Within(refs: seq<Ref>, ids: seq<nat>) {
    forall i :: 0 <= i < |refs| ==> refs[i].chunk in ids
  }

  /** The chunks keep their contents. */
  predicate SameChunks(pool: seq<seq<Row>>, pool': seq<seq<Row>>, ids: seq<nat>) {
    |pool| <= |pool'| && forall id :: id in ids && id < |pool| ==> pool'[id] == pool[id]
  }

  lemma {:induction false} DerefSame(pool: seq<seq<Row>>, pool': seq<seq<Row>>, ids: seq<nat>, refs: seq<Ref>)
    requires ValidRefs(pool, refs) && Within(refs, ids) && SameChunks(pool, pool', ids)
    ensures ValidRefs(pool', refs) && DerefAll(pool', refs) == DerefAll(pool, refs)
  {
    forall i | 0 <= i < |refs|
      ensures ValidRef(pool', refs[i]) && Deref(pool', refs[i]) == Deref(pool, refs[i])
    {
      assert ValidRef(pool, refs[i]) && refs[i].chunk in ids;
    }
  }

  /** How many rows at the beginning share the key of the first one. */
  function GroupSize(rows: seq<Row>, key: seq<Value>): (k: nat)
    ensures k <= |rows|
    ensures forall i :: 0 <= i < k ==> rows[i].key == key
    ensures k < |rows| ==> rows[k].key != key
  {
    if rows == [] || rows[0].key != key then 0 else 1 + GroupSize(rows[1..], key)
  }

  class InnerTable {
    var reader: seq<seq<Row>>
    var pool: seq<seq<Row>>
    var curResult: nat
    var curRow: Option<nat>
    var curResultInUse: bool
    var resultQueue: seq<nat>
    var resourceQueue: seq<nat>
    var sameKeyRows: seq<Ref>
    var firstRow4Key: Option<Ref>

    /** The current chunk is the last of those in use, and no chunk is both in use and free. */
    ghost predicate Valid()
      reads this
    {
      && resultQueue != [] && resultQueue[|resultQueue| - 1] == curResult
      && Distinct(resultQueue + resourceQueue)
      && (forall i :: 0 <= i < |resultQueue| ==> resultQueue[i] < |pool|)
      && (forall i :: 0 <= i < |resourceQueue| ==> resourceQueue[i] < |pool|)
      && (curRow.Some? ==> curRow.value < |pool[curResult]| && curResultInUse)
      && (forall i :: 0 <= i < |reader| ==> |reader[i]| > 0)
    }

    /** The rows nextRow has not returned yet, those with a NULL in the key left out. */
    ghost function Rest(): seq<Row>
      reads this
      requires Valid()
    {
      NonNull((if curRow.Some? then pool[curResult][curRow.value..] else []) + Flatten(reader))
    }

    constructor (reader: seq<seq<Row>>)
      requires forall i :: 0 <= i < |reader| ==> |reader[i]| > 0
      ensures Valid() && Rest() == NonNull(Flatten(reader)) && firstRow4Key == None && !curResultInUse
    {
      this.reader := reader;
      pool := [[]];
      curResult := 0;
      curRow := None;
      curResultInUse := false;
      resultQueue := [0];
      resourceQueue := [];
      sameKeyRows := [];
      firstRow4Key := None;
      new;
      assert [] + Flatten(reader) == Flatten(reader);
    }

    /** Makes the current chunk an empty one that nobody refers to: itself if it is not in use, else a free
        or a new one. Chunks in use keep their contents. */
    method ReallocReaderResult()
      requires Valid() && curRow == None
      modifies this`pool, this`curResult, this`curResultInUse, this`resultQueue, this`resourceQueue
      ensures Valid() && !curResultInUse && pool[curResult] == []
      ensures old(resultQueue) <= resultQueue
      ensures |old(pool)| <= |pool|
      ensures old(curResultInUse) ==> SameChunks(old(pool), pool, old(resultQueue)) && curResult !in old(resultQueue)
    {
      hide Distinct;
      if !curResultInUse {
        pool := pool[curResult := []];
        return;
      }
      if |resourceQueue| == 0 {
        AddFresh(resultQueue, resourceQueue, |pool|);
        resourceQueue := resourceQueue + [|pool|];
        pool := pool + [[]];
      }
      MoveFirst(resultQueue, resourceQueue);
      curResult := resourceQueue[0];
      resourceQueue := resourceQueue[1..];
      resultQueue := resultQueue + [curResult];
      pool := pool[curResult := []];
      curResultInUse := false;
    }

    /** Fetches the next chunk; false at the end of the data. */
    method ReadChunk() returns (more: bool)
      requires Valid() && curRow == None
      modifies this`reader, this`pool, this`curResult, this`curRow, this`curResultInUse, this`resultQueue, this`resourceQueue
      ensures Valid() && Rest() == old(Rest())
      ensures old(resultQueue) <= resultQueue
      ensures old(curResultInUse) ==> SameChunks(old(pool), pool, old(resultQueue))
      ensures !more ==> Rest() == [] && curRow == None
      ensures more ==> |reader| < old(|reader|) && curRow.Some? && curResultInUse
    {
      hide NonNull, Flatten, Distinct, SameChunks;
      ghost var pool1, used1, rest0 := pool, resultQueue, Rest();
      ReallocReaderResult();
      if old(curResultInUse) {
        SameRefl(pool1, used1);
        FillFresh(old(pool), pool1, pool, used1, used1, curResult, if reader == [] then [] else reader[0]);
      }
      if |reader| == 0 {
        RestEmpty(rest0, reader);
        return false;
      }
      RestChunk(reader);
      pool := pool[curResult := reader[0]];
      reader := reader[1..];
      curRow := Some(0);
      curResultInUse := true;
      return true;
    }

    /** The next row without a NULL in its key, skipping the others. */
    method NextRow() returns (r: Option<Ref>)
      requires Valid()
      modifies this`reader, this`pool, this`curResult, this`curRow, this`curResultInUse, this`resultQueue, this`resourceQueue
      ensures Valid()
      ensures old(resultQueue) <= resultQueue
      ensures old(curResultInUse) ==> SameChunks(old(pool), pool, old(resultQueue))
      ensures r.None? ==> old(Rest()) == [] && Rest() == []
      ensures r.Some? ==>
                && old(Rest()) != [] && ValidRef(pool, r.value) && Deref(pool, r.value) == old(Rest())[0]
                && Rest() == old(Rest())[1..] && r.value.chunk == curResult && curResultInUse
    {
      hide NonNull, Flatten, Distinct, SameChunks, HasNull;
      SameRefl(pool, resultQueue);
      ghost var rest0 := Rest();
      while true
        invariant Valid() && Rest() == rest0
        invariant old(resultQueue) <= resultQueue
        invariant old(curResultInUse) ==> SameChunks(old(pool), pool, old(resultQueue)) && curResultInUse
        decreases |reader|, if curRow.Some? then |pool[curResult]| - curRow.value else 0
      {
        if curRow.None? {
          ghost var pool1, used1 := pool, resultQueue;
          var more := ReadChunk();
          if old(curResultInUse) {
            SameLonger(old(pool), pool1, pool, old(resultQueue), used1);
          }
          if !more {
            return None;
          }
        }
        var i := curRow.value;
        var result := Ref(curResult, i);
        RestStep(pool[curResult], i, reader);
        curRow := if i + 1 < |pool[curResult]| then Some(i + 1) else None;
        if !HasNull(pool[curResult][i].key) {
          return Some(result);
        }
      }
    }

    /** The first row of the next group is in the current chunk, which is in use. */
    ghost predicate FirstOK()
      reads this
    {
      firstRow4Key.Some? ==> ValidRef(pool, firstRow4Key.value) && firstRow4Key.value.chunk == curResult && curResultInUse
    }

    /** All rows not yet handed out in a group. */
    ghost function Pending(): seq<Row>
      reads this
      requires Valid() && FirstOK()
    {
      (if firstRow4Key.Some? then [Deref(pool, firstRow4Key.value)] else []) + Rest()
    }

    /** Prepares the first group. */
    method Init()
      requires Valid() && firstRow4Key == None
      modifies this
      ensures Valid() && FirstOK() && Pending() == old(Rest())
      ensures firstRow4Key == None ==> Rest() == []
    {
      hide NonNull, Flatten, Distinct, SameChunks;
      firstRow4Key := NextRow();
      assert old(Rest()) != [] ==> [old(Rest())[0]] + old(Rest())[1..] == old(Rest());
    }

    /** Frees every chunk in use but the current one. */
    method ReleaseChunks()
      requires Valid() && FirstOK()
      modifies this`resultQueue, this`resourceQueue
      ensures Valid() && FirstOK() && Pending() == old(Pending()) && resultQueue == [curResult]
    {
      hide NonNull, Flatten;
      var last := |resultQueue| - 1;
      Rotate(resultQueue, resourceQueue);
      resourceQueue := resourceQueue + resultQueue[..last];
      resultQueue := resultQueue[last..];
    }

    /** The group so far is the beginning of `all`, and the rest of `all` is still to be read. */
    ghost predicate Growing(all: seq<Row>)
      reads this
    {
      && Valid() && curResultInUse && sameKeyRows != [] && |sameKeyRows| <= |all|
      && Collected(pool, resultQueue, sameKeyRows, all)
      && |sameKeyRows| <= GroupSize(all, all[0].key)
      && Rest() == all[|sameKeyRows|..]
    }

    /** The group is complete, and the row after it, if any, is remembered. */
    ghost predicate Grown(all: seq<Row>)
      reads this
    {
      && Valid() && FirstOK() && (firstRow4Key == None ==> Rest() == []) && all != [] && |sameKeyRows| <= |all|
      && Collected(pool, resultQueue, sameKeyRows, all)
      && |sameKeyRows| == GroupSize(all, all[0].key)
      && Pending() == all[|sameKeyRows|..]
    }

    /** Reads one more row: it belongs to the group, or the group is complete. */
    method ExtendGroup(ghost all: seq<Row>, ghost n: nat) returns (done: bool)
      requires Growing(all) && Keyed(all, n)
      modifies this
      ensures done ==> Grown(all)
      ensures !done ==> Growing(all) && |sameKeyRows| == old(|sameKeyRows|) + 1
    {
      hide NonNull, Flatten, Distinct, SameChunks, GroupSize, Collected, Keyed, Compare;
      ghost var pool1, used1, m := pool, resultQueue, |sameKeyRows|;
      CollectedRef(pool, resultQueue, sameKeyRows, all, 0);
      var r := NextRow();
      CollectedKept(pool1, pool, used1, resultQueue, sameKeyRows, all);
      if r.None? {
        GroupEnds(all, m);
        firstRow4Key := None;
        return true;
      }
      CollectedRef(pool, resultQueue, sameKeyRows, all, 0);
      var row, first := pool[r.value.chunk][r.value.idx], pool[sameKeyRows[0].chunk][sameKeyRows[0].idx];
      KeyedRow(all, n, 0);
      KeyedRow(all, n, m);
      var c := CompareChunkRow(row.key, first.key);
      CompareEqual(row.key, first.key);
      GroupGoesOn(all, m);
      if c == 0 {
        CollectedMore(pool, resultQueue, sameKeyRows, r.value, all);
        sameKeyRows := sameKeyRows + [r.value];
        return false;
      }
      firstRow4Key := r;
      assert [all[m]] + all[m + 1..] == all[m..];
      return true;
    }

    /** The next group of rows with equal keys, as references into chunks that stay untouched until the next
        group is asked for. */
    method RowsWithSameKey(ghost n: nat) returns (refs: seq<Ref>)
      requires Valid() && FirstOK() && (firstRow4Key == None ==> Rest() == []) && Keyed(Pending(), n)
      modifies this
      ensures Valid() && FirstOK() && (firstRow4Key == None ==> Rest() == [])
      ensures ValidRefs(pool, refs) && Within(refs, resultQueue)
      ensures var all := old(Pending());
              var k := if all == [] then 0 else GroupSize(all, all[0].key);
              DerefAll(pool, refs) == all[..k] && Pending() == all[k..]
    {
      hide NonNull, Flatten, Distinct, GroupSize, Collected, Keyed, Within, ValidRefs, DerefAll;
      ReleaseChunks();
      ghost var all := Pending();
      if firstRow4Key == None {
        NothingCollected(pool, resultQueue, all);
        return [];
      }
      sameKeyRows := [firstRow4Key.value];
      GroupStarts(all);
      CollectedFirst(pool, resultQueue, firstRow4Key.value, all);
      var done := false;
      while !done
        invariant !done ==> Growing(all)
        invariant done ==> Grown(all)
        decreases !done, |all| - |sameKeyRows|
      {
        CollectedSize(pool, resultQueue, sameKeyRows, all);
        done := ExtendGroup(all, n);
      }
      CollectedIs(pool, resultQueue, sameKeyRows, all);
      return sameKeyRows;
    }
  }

  lemma {:induction false} CollectedSize(pool: seq<seq<Row>>, used: seq<nat>, refs: seq<Ref>, all: seq<Row>)
    requires Collected(pool, used, refs, all)
    ensures |refs| <= |all|
  {
  }

  /** The references stand for the first of `all` rows, and point into chunks in use. */
  ghost predicate Collected(pool: seq<seq<Row>>, used: seq<nat>, refs: seq<Ref>, all: seq<Row>) {
    |refs| <= |all| && ValidRefs(pool, refs) && Within(refs, used) && DerefAll(pool, refs) == all[..|refs|]
  }

  lemma {:induction false} NothingCollected(pool: seq<seq<Row>>, used: seq<nat>, all: seq<Row>)
    ensures ValidRefs(pool, []) && Within([], used) && DerefAll(pool, []) == all[..0] && all[0..] == all
  {
  }

  lemma {:induction false} CollectedFirst(pool: seq<seq<Row>>, used: seq<nat>, r: Ref, all: seq<Row>)
    requires ValidRef(pool, r) && r.chunk in used && all != [] && Deref(pool, r) == all[0]
    ensures Collected(pool, used, [r], all)
  {
  }

  lemma {:induction false} CollectedIs(pool: seq<seq<Row>>, used: seq<nat>, refs: seq<Ref>, all: seq<Row>)
    requires Collected(pool, used, refs, all)
    ensures ValidRefs(pool, refs) && Within(refs, used) && DerefAll(pool, refs) == all[..|refs|]
  {
  }

  lemma {:induction false} CollectedRef(pool: seq<seq<Row>>, used: seq<nat>, refs: seq<Ref>, all: seq<Row>, i: nat)
    requires Collected(pool, used, refs, all) && i < |refs|
    ensures ValidRef(pool, refs[i]) && Deref(pool, refs[i]) == all[i]
  {
    assert DerefAll(pool, refs)[i] == all[..|refs|][i];
  }

  lemma {:induction false} CollectedMore(pool: seq<seq<Row>>, used: seq<nat>, refs: seq<Ref>, r: Ref, all: seq<Row>)
    requires Collected(pool, used, refs, all) && |refs| < |all|
    requires ValidRef(pool, r) && r.chunk in used && Deref(pool, r) == all[|refs|]
    ensures Collected(pool, used, refs + [r], all)
  {
    assert DerefAll(pool, refs + [r]) == DerefAll(pool, refs) + [Deref(pool, r)];
    assert all[..|refs| + 1] == all[..|refs|] + [all[|refs|]];
  }

  lemma {:induction false} CollectedKept(pool: seq<seq<Row>>, pool': seq<seq<Row>>, used: seq<nat>, used': seq<nat>, refs: seq<Ref>, all: seq<Row>)
    requires Collected(pool, used, refs, all) && SameChunks(pool, pool', used) && used <= used'
    ensures Collected(pool', used', refs, all)
  {
    DerefSame(pool, pool', used, refs);
    WithinMore(refs, used, used');
  }

  lemma {:induction false} KeyedRow(all: seq<Row>, n: nat, i: nat)
    requires Keyed(all, n) && i < |all|
    ensures |all[i].key| == n
  {
  }

  method CompareChunkRow(a: seq<Value>, b: seq<Value>) returns (c: int)
    requires |a| == |b|
    ensures c == Compare(a, b)
  {
    var i := 0;
    while i < |a|
      invariant 0 <= i <= |a| && Compare(a, b) == Compare(a[i..], b[i..])
    {
      assert a[i..][1..] == a[i + 1..] && b[i..][1..] == b[i + 1..];
      c := CompareValue(a[i], b[i]);
      if c != 0 {
        return c;
      }
      i := i + 1;
    }
    return 0;
  }

  lemma {:induction false} GroupStarts(all: seq<Row>)
    requires all != []
    ensures GroupSize(all, all[0].key) >= 1
  {
  }

  lemma {:induction false} GroupEnds(all: seq<Row>, m: nat)
    requires all != [] && m <= GroupSize(all, all[0].key) && all[m..] == []
    ensures GroupSize(all, all[0].key) == m
  {
  }

  lemma {:induction false} GroupGoesOn(all: seq<Row>, m: nat)
    requires m < |all| && m <= GroupSize(all, all[0].key)
    ensures all[m].key == all[0].key <==> m + 1 <= GroupSize(all, all[0].key)
  {
  }

  lemma {:induction false} WithinMore(refs: seq<Ref>, ids: seq<nat>, more: seq<nat>)
    requires Within(refs, ids) && ids <= more
    ensures Within(refs, more)
  {
    forall i | 0 <= i < |refs|
      ensures refs[i].chunk in more
    {
      var k :| 0 <= k < |ids| && ids[k] == refs[i].chunk;
      assert more[k] == refs[i].chunk;
    }
  }

  lemma {:induction false} Rotate(used: seq<nat>, free: seq<nat>)
    requires used != [] && Distinct(used + free)
    ensures Distinct(used[|used| - 1..] + (free + used[..|used| - 1]))
  {
    var last := |used| - 1;
    var a, b := used + free, used[last..] + (free + used[..last]);
    forall i, j | 0 <= i < j < |b|
      ensures b[i] != b[j]
    {
      var p := if i <= |free| then last + i else i - |free| - 1;
      var q := if j <= |free| then last + j else j - |free| - 1;
      assert b[i] == a[p] && b[j] == a[q] && p != q;
    }
  }

  lemma {:induction false} SameLonger(pool: seq<seq<Row>>, pool1: seq<seq<Row>>, pool2: seq<seq<Row>>, used: seq<nat>, used1: seq<nat>)
    requires SameChunks(pool, pool1, used) && SameChunks(pool1, pool2, used1) && used <= used1
    ensures SameChunks(pool, pool2, used)
  {
    forall x | x in used && x < |pool|
      ensures x in used1
    {
      var i :| 0 <= i < |used| && used[i] == x;
      assert used1[i] == x;
    }
  }

  lemma {:induction false} SameRefl(pool: seq<seq<Row>>, ids: seq<nat>)
    ensures SameChunks(pool, pool, ids)
  {
  }

  /** Filling a chunk that is not among those in use, after a step that left them alone. */
  lemma {:induction false} FillFresh(pool: seq<seq<Row>>, pool1: seq<seq<Row>>, pool2: seq<seq<Row>>, used: seq<nat>, used1: seq<nat>, id: nat, chk: seq<Row>)
    requires SameChunks(pool, pool1, used) && SameChunks(pool1, pool2, used1) && used <= used1
    requires id < |pool2| && id !in used1
    ensures SameChunks(pool, pool2, used) && SameChunks(pool, pool2[id := chk], used)
  {
    forall x | x in used && x < |pool|
      ensures x in used1 && x != id
    {
      var i :| 0 <= i < |used| && used[i] == x;
      assert used1[i] == x;
    }
  }

  lemma {:induction false} AddFresh(used: seq<nat>, free: seq<nat>, id: nat)
    requires Distinct(used + free)
    requires (forall i :: 0 <= i < |used| ==> used[i] < id) && (forall i :: 0 <= i < |free| ==> free[i] < id)
    ensures Distinct(used + (free + [id]))
  {
    assert used + (free + [id]) == (used + free) + [id];
  }

  lemma {:induction false} MoveFirst(used: seq<nat>, free: seq<nat>)
    requires Distinct(used + free) && free != []
    ensures Distinct((used + [free[0]]) + free[1..])
    ensures free[0] !in used
  {
    assert (used + [free[0]]) + free[1..] == used + free;
    forall i | 0 <= i < |used|
      ensures used[i] != free[0]
    {
      assert (used + free)[i] == used[i] && (used + free)[|used|] == free[0];
    }
  }

  lemma {:induction false} RestEmpty(rest: seq<Row>, reader: seq<seq<Row>>)
    requires reader == [] && rest == NonNull([] + Flatten(reader))
    ensures rest == []
  {
  }

  /** Reading a chunk does not change what is still to come. */
  lemma {:induction false} RestChunk(reader: seq<seq<Row>>)
    requires reader != []
    ensures NonNull([] + Flatten(reader)) == NonNull(reader[0][0..] + Flatten(reader[1..]))
  {
    assert [] + Flatten(reader) == Flatten(reader);
    assert reader[0][0..] == reader[0];
  }

  /** Stepping over one row. */
  lemma {:induction false} RestStep(chk: seq<Row>, i: nat, reader: seq<seq<Row>>)
    requires i < |chk|
    ensures var later := NonNull((if i + 1 < |chk| then chk[i + 1..] else []) + Flatten(reader));
            NonNull(chk[i..] + Flatten(reader)) == if HasNull(chk[i].key) then later else [chk[i]] + later
  {
    assert chk[i..] == [chk[i]] + chk[i + 1..];
    assert i + 1 == |chk| ==> chk[i + 1..] == [];
    var all := chk[i..] + Flatten(reader);
    assert all[1..] == chk[i + 1..] + Flatten(reader);
  }
}
