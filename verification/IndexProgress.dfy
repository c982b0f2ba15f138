/** What a round of an index backfill achieves: its checkpoint leaves behind every task before the first failed one,
    and the count it reports is the number of rows before the checkpoint. */
module IndexProgress {
  import opened IndexBackfill
  import opened IndexRounds

  /** Tasks before position `k` have all succeeded. */
  predicate AllDone(rd: Round, k: nat) {
    k <= |rd.results| && forall i :: 0 <= i < k ==> !rd.results[i].err
  }

  lemma {:induction false} DoneBeforeError(rd: Round, k: nat)
    requires AllDone(rd, k)
    ensures k <= FirstError(rd.results)
  {
    var f := FirstError(rd.results);
    assert f < |rd.results| ==> rd.results[f].err;
  }

  /** Where task `i` ends, task `j` has not begun. */
  lemma {:induction false} InOrder(ranges: seq<KeyRange>, start: int, end: int, i: nat, j: nat)
    requires IsSplit(ranges, start, end) && start <= end && i < j < |ranges|
    ensures ranges[i].endHandle <= ranges[j].startHandle
    decreases j - i
  {
    assert ranges[j - 1].endHandle == ranges[j - 1 + 1].startHandle;
    if i < j - 1 {
      InOrder(ranges, start, end, i, j - 1);
    }
  }

  /** The checkpoint a round reports is not before any row of the tasks before the first failed one, and behind all of
      them except one that the last of them shares with a later task, or one with the largest handle there is. */
  lemma {:induction false} CheckpointReaches(rows: seq<int>, ranges: seq<KeyRange>, start: int, end: int, workers: nat, rd: Round, k: nat, x: int)
    requires IsSplit(ranges, start, end) && start <= end && workers >= 1 && IsRound(rows, ranges, workers, rd)
    requires k < |rd.tasks| && AllDone(rd, k + 1) && InRange(rd.tasks[k], x)
    ensures rd.tasks != [] && x <= Reported(rd)
    ensures x < rd.tasks[k].endHandle || (FirstError(rd.results) == k + 1 && x < MAX_INT64) ==> x < Reported(rd)
  {
    hide Backfilled;
    DoneBeforeError(rd, k + 1);
    var last := FirstError(rd.results) - 1;
    NextOf(rows, rd, last);
    if k < last {
      InOrder(ranges, start, end, k, last);
    }
  }

  lemma {:induction false} NextOf(rows: seq<int>, rd: Round, i: nat)
    requires i < |rd.tasks| == |rd.results| == |rd.scanned| && !rd.results[i].err
    requires Backfilled(rows, rd.tasks[i], rd.scanned[i], rd.results[i].nextHandle, rd.results[i].err)
    ensures rd.results[i].nextHandle == Next(rd.tasks[i]) && rd.scanned[i] == RowsIn(rows, rd.tasks[i])
  {
  }

  // ------------------------------------------------------------------ counting

  /** Rows of two adjacent ranges are the rows of both. */
  lemma {:induction false} RowsAdd(rows: seq<int>, s: int, m: int, e: int, included: bool)
    requires s <= m <= e
    ensures |RowsIn(rows, Task(s, m, false))| + |RowsIn(rows, Task(m, e, included))| == |RowsIn(rows, Task(s, e, included))|
    decreases |rows|
  {
    if rows != [] {
      RowsAdd(rows[..|rows| - 1], s, m, e, included);
    }
  }

  /** The count for the first `k` tasks, all of which succeeded, is the number of rows of the table from the start of the
      round to the end of the last of them. */
  lemma {:induction false} CountIsExact(rows: seq<int>, ranges: seq<KeyRange>, start: int, end: int, workers: nat, rd: Round, k: nat)
    requires IsSplit(ranges, start, end) && start <= end && workers >= 1 && IsRound(rows, ranges, workers, rd)
    requires forall i :: 0 <= i < |ranges| - 1 ==> !ranges[i].beyond
    requires 1 <= k && AllDone(rd, k)
    ensures Added(rd.results[..k]) == |RowsIn(rows, Task(start, rd.tasks[k - 1].endHandle, rd.tasks[k - 1].endIncluded))|
    decreases k
  {
    hide Backfilled, RowsIn;
    assert Backfilled(rows, rd.tasks[k - 1], rd.scanned[k - 1], rd.results[k - 1].nextHandle, rd.results[k - 1].err);
    NextOf(rows, rd, k - 1);
    var before := rd.results[..k];
    assert before[..k - 1] == rd.results[..k - 1];
    assert Added(before) == Added(rd.results[..k - 1]) + |RowsIn(rows, rd.tasks[k - 1])|;
    if k == 1 {
      assert rd.results[..0] == [];
    } else {
      CountIsExact(rows, ranges, start, end, workers, rd, k - 1);
      SplitAbove(ranges, start, end, k - 2);
      assert ranges[k - 2].endHandle == ranges[k - 2 + 1].startHandle;
      RowsAdd(rows, start, ranges[k - 1].startHandle, ranges[k - 1].endHandle, ranges[k - 1].beyond);
    }
  }
}
