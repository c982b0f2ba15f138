/** Backfilling an index over a fixed set of rows: batches, tasks, and the checkpoint saved for a resume. */
module IndexBackfill {

  const MAX_INT64: int := 0x7fff_ffff_ffff_ffff
  const MIN_INT64: int := -0x8000_0000_0000_0000

  predicate IsHandle(h: int) { MIN_INT64 <= h <= MAX_INT64 }

  /** A range of row handles; the end belongs to it only if `endIncluded`. */
  datatype Task = Task(startHandle: int, endHandle: int, endIncluded: bool)

  predicate InRange(t: Task, h: int) {
    t.startHandle <= h && (h < t.endHandle || (t.endIncluded && h == t.endHandle))
  }

  predicate Ascending(s: seq<int>) {
    forall i, j :: 0 <= i < j < |s| ==> s[i] < s[j]
  }

  /** The table: row handles in key order, all of them 64-bit integers. */
  predicate IsTable(rows: seq<int>) {
    Ascending(rows) && forall i :: 0 <= i < |rows| ==> IsHandle(rows[i])
  }

  predicate IsTask(t: Task) {
    IsHandle(t.startHandle) && IsHandle(t.endHandle)
  }

  /** What the snapshot iterator yields for the task. */
  function RowsIn(rows: seq<int>, t: Task): seq<int> {
    if rows == [] then []
    else RowsIn(rows[..|rows| - 1], t) + (if InRange(t, rows[|rows| - 1]) then [rows[|rows| - 1]] else [])
  }

  lemma {:induction false} RowsInFacts(rows: seq<int>, t: Task)
    requires Ascending(rows)
    ensures Ascending(RowsIn(rows, t))
    ensures forall x :: x in RowsIn(rows, t) <==> x in rows && InRange(t, x)
    decreases |rows|
  {
    if rows != [] {
      var front, last := rows[..|rows| - 1], rows[|rows| - 1];
      RowsInFacts(front, t);
      InFront(rows);
      forall i | 0 <= i < |RowsIn(front, t)|
        ensures RowsIn(front, t)[i] < last
      {
        assert RowsIn(front, t)[i] in RowsIn(front, t);
        LastIsLargest(rows, RowsIn(front, t)[i]);
      }
    }
  }

  lemma {:induction false} InFront(a: seq<int>)
    requires Ascending(a) && a != []
    ensures forall x :: x in a <==> x in a[..|a| - 1] || x == a[|a| - 1]
    ensures a[|a| - 1] !in a[..|a| - 1]
  {
    assert a == a[..|a| - 1] + [a[|a| - 1]];
  }

  lemma {:induction false} LastIsLargest(a: seq<int>, x: int)
    requires Ascending(a) && a != [] && x in a
    ensures x <= a[|a| - 1] && (x in a[..|a| - 1] ==> x < a[|a| - 1])
  {
  }

  lemma {:induction false} SameLast(a: seq<int>, b: seq<int>)
    requires Ascending(a) && Ascending(b) && a != [] && b != [] && forall x :: x in a <==> x in b
    ensures a[|a| - 1] == b[|b| - 1]
  {
    hide Ascending;
    assert a[|a| - 1] in a && b[|b| - 1] in b;
    LastIsLargest(b, a[|a| - 1]);
    LastIsLargest(a, b[|b| - 1]);
  }

  lemma {:induction false} SameFront(a: seq<int>, b: seq<int>, x: int)
    requires Ascending(a) && Ascending(b) && a != [] && b != [] && a[|a| - 1] == b[|b| - 1] && (x in a <==> x in b)
    ensures x in a[..|a| - 1] <==> x in b[..|b| - 1]
  {
    hide Ascending;
    InFront(a);
    InFront(b);
  }

  /** An ascending sequence is determined by its elements. */
  lemma {:induction false} AscendingUnique(a: seq<int>, b: seq<int>)
    requires Ascending(a) && Ascending(b) && forall x :: x in a <==> x in b
    ensures a == b
    decreases |a|
  {
    assert (a == [] || a[0] in a) && (b == [] || b[0] in b);
    if a != [] && b != [] {
      SameLast(a, b);
      var a', b' := a[..|a| - 1], b[..|b| - 1];
      forall x
        ensures x in a' <==> x in b'
      {
        SameFront(a, b, x);
      }
      AscendingUnique(a', b');
      assert a == a' + [a[|a| - 1]] && b == b' + [b[|b| - 1]];
    }
  }

  lemma {:induction false} BehindPosition(it: seq<int>, n: nat, x: int)
    requires Ascending(it) && 0 < n <= |it|
    ensures x in it[n..] <==> x in it && x > it[n - 1]
  {
    if x in it && x > it[n - 1] {
      var i :| 0 <= i < |it| && it[i] == x;
      assert it[n..][i - n] == x;
    }
  }

  /** Continuing after the last row of a batch leaves exactly the rows behind it. */
  lemma {:induction false} RestAfter(rows: seq<int>, t: Task, n: nat)
    requires Ascending(rows) && 0 < n <= |RowsIn(rows, t)|
    ensures RowsIn(rows, t.(startHandle := RowsIn(rows, t)[n - 1] + 1)) == RowsIn(rows, t)[n..]
  {
    hide RowsIn;
    var it := RowsIn(rows, t);
    var t' := t.(startHandle := it[n - 1] + 1);
    RowsInFacts(rows, t);
    RowsInFacts(rows, t');
    assert it[n - 1] in it;
    forall x
      ensures x in it[n..] <==> x in RowsIn(rows, t')
    {
      BehindPosition(it, n, x);
    }
    AscendingUnique(it[n..], RowsIn(rows, t'));
  }

  // ------------------------------------------------------------------ one batch

  class AddIndexWorker {
    var idxRecords: seq<int>
    var batchCnt: nat

    constructor (batchCnt: nat)
      ensures this.batchCnt == batchCnt && idxRecords == []
    {
      this.batchCnt := batchCnt;
      idxRecords := [];
    }

    /** The handle the next batch starts from. It never leaves the 64-bit range. */
    method GetNextHandle(t: Task, taskDone: bool) returns (next: int)
      requires IsTask(t) && (taskDone || idxRecords != [])
      ensures !taskDone ==> next == idxRecords[|idxRecords| - 1] + 1
      ensures taskDone ==> next == Next(t)
      ensures taskDone ==> IsHandle(next) && t.endHandle <= next
    {
      if !taskDone {
        return idxRecords[|idxRecords| - 1] + 1;
      }
      if t.endHandle == MAX_INT64 || !t.endIncluded {
        return t.endHandle;
      }
      return t.endHandle + 1;
    }

    /** Scans one batch: the first rows of the range that still need an index. `decodes` says which rows can
        be decoded; a failure abandons the batch. */
    method FetchRowColVals(rows: seq<int>, t: Task, decodes: int -> bool) returns (next: int, taskDone: bool, err: bool)
      requires IsTable(rows) && IsTask(t) && batchCnt >= 1
      modifies this`idxRecords
      ensures !err ==> Scanned(rows, t, batchCnt, idxRecords, next, taskDone)
    {
      hide RowsIn, Ascending;
      idxRecords := [];
      taskDone := false;
      var it := RowsIn(rows, t);
      RowsInFacts(rows, t);
      var i := 0;
      while i < |it|
        invariant 0 <= i <= |it| && i <= batchCnt && idxRecords == it[..i]
        invariant !taskDone
        invariant i > 0 ==> it[i - 1] != t.endHandle
      {
        var handle := it[i];
        assert handle in it;
        if !t.endIncluded {
          taskDone := handle >= t.endHandle;
        } else {
          taskDone := handle > t.endHandle;
        }
        if taskDone || |idxRecords| >= batchCnt {
          break;
        }
        if !decodes(handle) {
          return 0, false, true;
        }
        assert it[..i + 1] == it[..i] + [handle];
        idxRecords := idxRecords + [handle];
        i := i + 1;
        if handle == t.endHandle {
          taskDone := true;
          LastOfRange(it, t, i - 1);
          break;
        }
      }
      if |idxRecords| == 0 {
        taskDone := true;
      }
      next := GetNextHandle(t, taskDone);
      ScannedRest(rows, t, batchCnt, i, next, taskDone);
      return next, taskDone, false;
    }

    /** Backfills a task batch by batch. `fails` says at which batch the job is cancelled or its transaction
        fails. `scanned` are the rows whose index has been committed. */
    method HandleBackfillTask(rows: seq<int>, t: Task, decodes: int -> bool, fails: nat -> bool)
      returns (scanned: seq<int>, nextHandle: int, err: bool)
      requires IsTable(rows) && IsTask(t) && batchCnt >= 1
      modifies this`idxRecords
      ensures Backfilled(rows, t, scanned, nextHandle, err)
    {
      hide RowsIn, Ascending, IsTable, Backfilled;
      scanned, nextHandle, err := [], t.startHandle, false;
      IsAscending(rows);
      var range, round := t, 0;
      var done := false;
      ghost var it := RowsIn(rows, t);
      while !done
        invariant IsTask(range) && range == t.(startHandle := nextHandle) && (done || t.startHandle <= nextHandle)
        invariant |scanned| <= |it| && scanned == it[..|scanned|]
        invariant !done ==> RowsIn(rows, range) == it[|scanned|..] && forall x :: x in scanned ==> x < nextHandle
        invariant done ==> scanned == it && nextHandle == Next(t)
        decreases !done, |it| - |scanned|
      {
        if fails(round) {
          Unfinished(rows, t, range, scanned);
          return scanned, nextHandle, true;
        }
        var next, taskDone, bad := FetchRowColVals(rows, range, decodes);
        if bad {
          Unfinished(rows, t, range, scanned);
          return scanned, nextHandle, true;
        }
        ghost var n, rest := |idxRecords|, RowsIn(rows, range);
        RowsInFacts(rows, range);
        BatchBefore(rest, n, scanned, nextHandle);
        assert it[..|scanned|] + rest[..n] == it[..|scanned| + n];
        assert rest[n..] == it[|scanned| + n..];
        scanned := scanned + idxRecords;
        nextHandle := next;
        range := range.(startHandle := next);
        done := taskDone;
        round := round + 1;
      }
      Finished(rows, t);
    }
  }

  /** One batch: the records are as many of the next rows of the range as fit. The task is done exactly if there
      are none or the last of them is the end of the range; unless it is done, the rest of the range starts
      at `next`, and may be empty. */
  ghost predicate Scanned(rows: seq<int>, t: Task, batchCnt: nat, records: seq<int>, next: int, taskDone: bool) {
    var it, n := RowsIn(rows, t), |records|;
    && n == (if |it| < batchCnt then |it| else batchCnt) && records == it[..n]
    && IsHandle(next)
    && (taskDone <==> n == 0 || it[n - 1] == t.endHandle)
    && (taskDone ==> n == |it| && next == Next(t))
    && (!taskDone ==> next == it[n - 1] + 1 && RowsIn(rows, t.(startHandle := next)) == it[n..])
  }

  lemma {:induction false} ScannedRest(rows: seq<int>, t: Task, batchCnt: nat, n: nat, next: int, taskDone: bool)
    requires IsTable(rows) && IsTask(t) && n == (if |RowsIn(rows, t)| < batchCnt then |RowsIn(rows, t)| else batchCnt)
    requires taskDone ==> n == |RowsIn(rows, t)| && next == Next(t) && (n == 0 || RowsIn(rows, t)[n - 1] == t.endHandle)
    requires !taskDone ==> 0 < n && next == RowsIn(rows, t)[n - 1] + 1 && RowsIn(rows, t)[n - 1] != t.endHandle
    ensures Scanned(rows, t, batchCnt, RowsIn(rows, t)[..n], next, taskDone)
  {
    hide RowsIn;
    if !taskDone {
      var it := RowsIn(rows, t);
      RestAfter(rows, t, n);
      RowsInFacts(rows, t);
      assert it[n - 1] in it;
    }
  }

  /** The handle after the task: outside its range, except at the very end of the 64-bit range. */
  function Next(t: Task): int {
    if t.endHandle == MAX_INT64 || !t.endIncluded then t.endHandle else t.endHandle + 1
  }

  lemma {:induction false} LastOfRange(it: seq<int>, t: Task, i: nat)
    requires Ascending(it) && i < |it| && it[i] == t.endHandle && forall x :: x in it ==> InRange(t, x)
    ensures i == |it| - 1
  {
    assert it[|it| - 1] in it;
  }

  /** What a worker reports: the committed rows are a prefix of the task's rows, all of them if there was no
      error, and no row of the task below the reported handle is missing. */
  ghost predicate Backfilled(rows: seq<int>, t: Task, scanned: seq<int>, nextHandle: int, err: bool) {
    var it := RowsIn(rows, t);
    && |scanned| <= |it| && scanned == it[..|scanned|]
    && (!err ==> scanned == it && nextHandle == Next(t))
    && (forall x :: x in it && x < nextHandle ==> x in scanned)
    && (err ==> forall x :: x in scanned ==> x < nextHandle)
    && IsHandle(nextHandle) && (err || t.startHandle <= t.endHandle ==> t.startHandle <= nextHandle)
  }

  lemma {:induction false} IsAscending(rows: seq<int>)
    requires IsTable(rows)
    ensures Ascending(rows)
  {
  }

  /** The rows of a batch are before the row that follows it. */
  lemma {:induction false} BatchBefore(rest: seq<int>, n: nat, scanned: seq<int>, start: int)
    requires Ascending(rest) && n <= |rest| && (forall x :: x in rest ==> start <= x) && forall x :: x in scanned ==> x < start
    ensures n > 0 ==> start <= rest[n - 1] && forall x :: x in scanned + rest[..n] ==> x < rest[n - 1] + 1
  {
    if n > 0 {
      assert rest[n - 1] in rest;
    }
  }

  lemma {:induction false} Unfinished(rows: seq<int>, t: Task, range: Task, scanned: seq<int>)
    requires IsTable(rows) && IsTask(range)
    requires |scanned| <= |RowsIn(rows, t)| && scanned == RowsIn(rows, t)[..|scanned|]
    requires RowsIn(rows, range) == RowsIn(rows, t)[|scanned|..]
    requires (forall x :: x in scanned ==> x < range.startHandle) && t.startHandle <= range.startHandle
    ensures Backfilled(rows, t, scanned, range.startHandle, true)
  {
    hide RowsIn;
    var it := RowsIn(rows, t);
    RowsInFacts(rows, range);
    assert it == it[..|scanned|] + it[|scanned|..];
  }

  lemma {:induction false} Finished(rows: seq<int>, t: Task)
    requires IsTask(t)
    ensures Backfilled(rows, t, RowsIn(rows, t), Next(t), false)
  {
  }

  // ------------------------------------------------------------------ many tasks

  datatype TaskResult = TaskResult(nextHandle: int, addedCount: nat, err: bool)

  /** How many results precede the first error. */
  function FirstError(results: seq<TaskResult>): (k: nat)
    ensures k <= |results|
    ensures forall i :: 0 <= i < k ==> !results[i].err
    ensures k < |results| ==> results[k].err
  {
    if results == [] || results[0].err then 0 else 1 + FirstError(results[1..])
  }

  function Added(results: seq<TaskResult>): nat {
    if results == [] then 0 else Added(results[..|results| - 1]) + results[|results| - 1].addedCount
  }

  /** Collects the results in task order; progress counts only up to the first error. */
  method WaitTaskResults(results: seq<TaskResult>, startHandle: int) returns (nextHandle: int, addedCount: nat, err: bool)
    ensures var k := FirstError(results);
            && nextHandle == (if k == 0 then startHandle else results[k - 1].nextHandle)
            && addedCount == Added(results[..k])
            && err == (k < |results|)
  {
    nextHandle, addedCount, err := startHandle, 0, false;
    ghost var k := FirstError(results);
    var i := 0;
    while i < |results|
      invariant 0 <= i <= |results|
      invariant err == (k < i)
      invariant !err ==> nextHandle == (if i == 0 then startHandle else results[i - 1].nextHandle) && addedCount == Added(results[..i])
      invariant err ==> nextHandle == (if k == 0 then startHandle else results[k - 1].nextHandle) && addedCount == Added(results[..k])
    {
      var result := results[i];
      if !err && result.err {
        err := true;
      } else if !err {
        assert results[..i + 1][..i] == results[..i];
        addedCount := addedCount + result.addedCount;
        nextHandle := result.nextHandle;
      }
      i := i + 1;
    }
  }

  /** Tasks follow each other without a gap. */
  predicate Chained(tasks: seq<Task>) {
    forall i :: 0 <= i < |tasks| - 1 ==>
      tasks[i + 1].startHandle <= (if tasks[i].endIncluded then tasks[i].endHandle + 1 else tasks[i].endHandle)
  }

  /** Every row between the start of the first task and the end of task `k` lies in one of them. */
  lemma {:induction false} RowHasTask(tasks: seq<Task>, k: nat, x: int) returns (i: nat)
    requires Chained(tasks) && k < |tasks|
    requires tasks[0].startHandle <= x < (if tasks[k].endIncluded then tasks[k].endHandle + 1 else tasks[k].endHandle)
    ensures i <= k && InRange(tasks[i], x)
    decreases k
  {
    if x >= tasks[k].startHandle {
      i := k;
    } else {
      i := RowHasTask(tasks, k - 1, x);
    }
  }

  /** Safe checkpoint: whatever mix of successes and failures the workers report, every row from the start of
      the first task up to the saved handle has been backfilled. */
  lemma {:induction false} CheckpointIsSafe(rows: seq<int>, tasks: seq<Task>, results: seq<TaskResult>, scanned: seq<seq<int>>, x: int)
    requires IsTable(rows) && Chained(tasks) && 0 < |tasks| == |results| == |scanned|
    requires forall i :: 0 <= i < |tasks| ==> IsTask(tasks[i]) && Backfilled(rows, tasks[i], scanned[i], results[i].nextHandle, results[i].err)
    requires var k := FirstError(results);
             x in rows && tasks[0].startHandle <= x < (if k == 0 then tasks[0].startHandle else results[k - 1].nextHandle)
    ensures exists i :: 0 <= i < |tasks| && x in scanned[i]
  {
    var k := FirstError(results);
    assert Backfilled(rows, tasks[k - 1], scanned[k - 1], results[k - 1].nextHandle, results[k - 1].err);
    var i := RowHasTask(tasks, k - 1, x);
    assert Backfilled(rows, tasks[i], scanned[i], results[i].nextHandle, results[i].err);
    RowsInFacts(rows, tasks[i]);
    assert x in scanned[i];
  }

  /** Without an error, everything the tasks cover has been backfilled, up to and including the largest
      64-bit handle. */
  lemma {:induction false} AllBackfilled(rows: seq<int>, tasks: seq<Task>, results: seq<TaskResult>, scanned: seq<seq<int>>, x: int)
    requires IsTable(rows) && Chained(tasks) && 0 < |tasks| == |results| == |scanned|
    requires forall i :: 0 <= i < |tasks| ==> IsTask(tasks[i]) && Backfilled(rows, tasks[i], scanned[i], results[i].nextHandle, results[i].err)
    requires FirstError(results) == |results|
    requires var last := tasks[|tasks| - 1];
             x in rows && tasks[0].startHandle <= x && (x < last.endHandle || (last.endIncluded && x == last.endHandle))
    ensures exists i :: 0 <= i < |tasks| && x in scanned[i]
  {
    var i := RowHasTask(tasks, |tasks| - 1, x);
    assert Backfilled(rows, tasks[i], scanned[i], results[i].nextHandle, results[i].err);
    RowsInFacts(rows, tasks[i]);
    assert x in scanned[i];
  }
}
