/** An index backfill job from its first round to its last: splitting the table, handing ranges to workers, saving
    the checkpoint, and starting again after errors, crashes and changes of owner. */
module IndexRounds {
  import opened IndexBackfill

  // ------------------------------------------------------------------ splitting

  /** A key range decoded to handles; `beyond` says that its end key lies behind the record key of the end. */
  datatype KeyRange = KeyRange(startHandle: int, endHandle: int, beyond: bool)

  /** The key range from handle `start` to handle `end` cut at region borders. A range that is empty, because it
      starts behind its end, is not cut. */
  predicate IsSplit(ranges: seq<KeyRange>, start: int, end: int) {
    && ranges != []
    && ranges[0].startHandle == start
    && ranges[|ranges| - 1].endHandle == end && ranges[|ranges| - 1].beyond
    && (forall i :: 0 <= i < |ranges| ==> IsHandle(ranges[i].startHandle) && IsHandle(ranges[i].endHandle))
    && (forall i :: 0 <= i < |ranges| - 1 ==> ranges[i].endHandle == ranges[i + 1].startHandle)
    && (start > end ==> |ranges| == 1)
    && (start <= end ==> forall i :: 0 <= i < |ranges| ==> ranges[i].startHandle <= ranges[i].endHandle)
  }

  function TaskOf(r: KeyRange): Task { Task(r.startHandle, r.endHandle, r.beyond) }

  /** One task for each of the first ranges, as many as there are workers. */
  function Tasks(ranges: seq<KeyRange>, workers: nat): seq<Task> {
    seq(if |ranges| < workers then |ranges| else workers, i requires 0 <= i < |ranges| => TaskOf(ranges[i]))
  }

  /** Tasks cut from one range leave no gap between them. */
  lemma {:induction false} SplitChained(ranges: seq<KeyRange>, start: int, end: int, workers: nat)
    requires IsSplit(ranges, start, end) && workers >= 1
    ensures var tasks := Tasks(ranges, workers);
            tasks != [] && tasks[0].startHandle == start && Chained(tasks) && forall i :: 0 <= i < |tasks| ==> IsTask(tasks[i])
  {
  }

  lemma {:induction false} SplitWithin(ranges: seq<KeyRange>, start: int, end: int, i: nat)
    requires IsSplit(ranges, start, end) && i < |ranges|
    ensures start <= ranges[i].startHandle && ranges[i].endHandle <= end
  {
    if start <= end {
      SplitAbove(ranges, start, end, i);
      SplitBelow(ranges, start, end, i);
    }
  }

  lemma {:induction false} SplitAbove(ranges: seq<KeyRange>, start: int, end: int, i: nat)
    requires IsSplit(ranges, start, end) && i < |ranges| && start <= end
    ensures start <= ranges[i].startHandle
    decreases i
  {
    if i > 0 {
      SplitAbove(ranges, start, end, i - 1);
      assert ranges[i - 1].endHandle == ranges[i - 1 + 1].startHandle;
    }
  }

  lemma {:induction false} SplitBelow(ranges: seq<KeyRange>, start: int, end: int, i: nat)
    requires IsSplit(ranges, start, end) && i < |ranges| && start <= end
    ensures ranges[i].endHandle <= end
    decreases |ranges| - i
  {
    if i < |ranges| - 1 {
      SplitBelow(ranges, start, end, i + 1);
      assert ranges[i].endHandle == ranges[i + 1].startHandle;
    }
  }

  // ------------------------------------------------------------------ one round

  /** What happened in one round: the tasks' results and the rows each has backfilled; `runnable` says whether
      the job may go on. */
  datatype Round = Round(tasks: seq<Task>, remains: seq<KeyRange>, results: seq<TaskResult>, scanned: seq<seq<int>>, runnable: bool)

  ghost predicate IsRound(rows: seq<int>, ranges: seq<KeyRange>, workers: nat, rd: Round) {
    && rd.tasks == Tasks(ranges, workers)
    && |rd.tasks| == |rd.results| == |rd.scanned| <= |ranges|
    && rd.remains == ranges[|rd.tasks|..]
    && (forall i :: 0 <= i < |rd.tasks| ==> Backfilled(rows, rd.tasks[i], rd.scanned[i], rd.results[i].nextHandle, rd.results[i].err))
    && forall i :: 0 <= i < |rd.tasks| ==> rd.results[i].addedCount == |rd.scanned[i]|
  }

  /** The handle the round reports: where its first failed task began, or the end of the last task. */
  function Reported(rd: Round): int
    requires |rd.tasks| == |rd.results| && rd.tasks != []
  {
    var k := FirstError(rd.results);
    if k == 0 then rd.tasks[0].startHandle else rd.results[k - 1].nextHandle
  }

  predicate Failed(rd: Round) {
    FirstError(rd.results) < |rd.results| || !rd.runnable
  }

  function Rows(scanned: seq<seq<int>>): set<int> {
    set i, x | 0 <= i < |scanned| && x in scanned[i] :: x
  }

  /** Builds the tasks. */
  method BuildTasks(ranges: seq<KeyRange>, workers: nat) returns (tasks: seq<Task>)
    requires workers >= 1
    ensures tasks == Tasks(ranges, workers)
  {
    tasks := [];
    var i := 0;
    while i < |ranges|
      invariant 0 <= i <= |ranges| && |tasks| == i < workers
      invariant forall k :: 0 <= k < i ==> tasks[k] == TaskOf(ranges[k])
    {
      tasks := tasks + [Task(ranges[i].startHandle, ranges[i].endHandle, ranges[i].beyond)];
      i := i + 1;
      if |tasks| >= workers {
        return;
      }
    }
  }

  /** Sends the first ranges to the workers and collects their results. `decodes`, `fails` and `runnable` are what
      storage and the owner do. */
  method SendRangeTaskToWorkers(rows: seq<int>, ranges: seq<KeyRange>, workers: nat, batchCnt: nat, decodes: int -> bool,
                                fails: (nat, nat) -> bool, runnable: bool)
    returns (nextHandle: int, added: nat, err: bool, remains: seq<KeyRange>, ghost rd: Round)
    requires IsTable(rows) && workers >= 1 && batchCnt >= 1 && ranges != []
    requires forall i :: 0 <= i < |ranges| ==> IsHandle(ranges[i].startHandle) && IsHandle(ranges[i].endHandle)
    ensures IsRound(rows, ranges, workers, rd)
    ensures nextHandle == Reported(rd) && added == Added(rd.results[..FirstError(rd.results)]) && err == Failed(rd) && (!err ==> remains == rd.remains)
  {
    var tasks := BuildTasks(ranges, workers);
    var results: seq<TaskResult> := [];
    ghost var scanned: seq<seq<int>> := [];
    var i := 0;
    while i < |tasks|
      invariant 0 <= i <= |tasks| && |results| == |scanned| == i
      invariant forall k :: 0 <= k < i ==> Backfilled(rows, tasks[k], scanned[k], results[k].nextHandle, results[k].err)
      invariant forall k :: 0 <= k < i ==> results[k].addedCount == |scanned[k]|
    {
      var worker := new AddIndexWorker(batchCnt);
      var id: nat := i;
      var done, next, bad := worker.HandleBackfillTask(rows, tasks[i], decodes, (b: nat) => fails(id, b));
      results := results + [TaskResult(next, |done|, bad)];
      scanned := scanned + [done];
      i := i + 1;
    }
    var bad;
    nextHandle, added, bad := WaitTaskResults(results, tasks[0].startHandle);
    err := bad || !runnable;
    remains := if err then [] else ranges[|tasks|..];
    rd := Round(tasks, ranges[|tasks|..], results, scanned, runnable);
  }

  /** Every row before the reported handle has been backfilled, and without an error every row before the rest. */
  lemma {:induction false} RoundCovers(rows: seq<int>, ranges: seq<KeyRange>, start: int, end: int, workers: nat, rd: Round, x: int)
    requires IsTable(rows) && IsSplit(ranges, start, end) && workers >= 1 && IsRound(rows, ranges, workers, rd) && x in rows && start <= x
    ensures rd.tasks != []
    ensures x < Reported(rd) ==> x in Rows(rd.scanned)
    ensures !Failed(rd) ==> (if rd.remains == [] then x <= end else x < rd.remains[0].startHandle) ==> x in Rows(rd.scanned)
  {
    hide Backfilled, Chained;
    SplitChained(ranges, start, end, workers);
    var tasks := rd.tasks;
    if x < Reported(rd) {
      CheckpointIsSafe(rows, tasks, rd.results, rd.scanned, x);
    }
    if !Failed(rd) && (if rd.remains == [] then x <= end else x < rd.remains[0].startHandle) {
      assert tasks[|tasks| - 1] == TaskOf(ranges[|tasks| - 1]);
      if rd.remains != [] {
        assert rd.remains[0] == ranges[|tasks|] == ranges[|tasks| - 1 + 1];
      }
      AllBackfilled(rows, tasks, rd.results, rd.scanned, x);
    }
  }

  /** Nothing else has been backfilled. */
  lemma {:induction false} RoundStays(rows: seq<int>, ranges: seq<KeyRange>, start: int, end: int, workers: nat, rd: Round, x: int)
    requires IsTable(rows) && IsSplit(ranges, start, end) && workers >= 1 && IsRound(rows, ranges, workers, rd) && x in Rows(rd.scanned)
    ensures x in rows && start <= x <= end
  {
    var i :| 0 <= i < |rd.scanned| && x in rd.scanned[i];
    assert Backfilled(rows, rd.tasks[i], rd.scanned[i], rd.results[i].nextHandle, rd.results[i].err);
    RowsInFacts(rows, rd.tasks[i]);
    assert x in RowsIn(rows, rd.tasks[i]);
    SplitWithin(ranges, start, end, i);
  }

  lemma {:induction false} ReportedWithin(rows: seq<int>, ranges: seq<KeyRange>, start: int, end: int, workers: nat, rd: Round)
    requires IsSplit(ranges, start, end) && workers >= 1 && IsRound(rows, ranges, workers, rd)
    ensures rd.tasks != [] && IsHandle(Reported(rd)) && (start <= Reported(rd) || end <= Reported(rd))
  {
    SplitChained(ranges, start, end, workers);
    var k := FirstError(rd.results);
    if k > 0 {
      assert Backfilled(rows, rd.tasks[k - 1], rd.scanned[k - 1], rd.results[k - 1].nextHandle, rd.results[k - 1].err);
      if start <= end {
        SplitAbove(ranges, start, end, k - 1);
      }
    }
  }

  // ------------------------------------------------------------------ the job

  /** A backfill job: where its next round starts, the handle in memory, the handle saved with the job, and the rows
      with an index. `finished` once no range is left. */
  datatype Job = Job(start: int, doneHandle: int, saved: int, filled: set<int>, finished: bool)

  datatype Event =
    /** A round over some split of the rest. If it fails and `stored`, its handle is saved, and the run ends. */
    | Work(ranges: seq<KeyRange>, workers: nat, round: Round, stored: bool)
    /** While a round goes on, the handle in memory is saved from time to time. */
    | Save
    /** A run starts from the saved handle, after an error, a crash or a change of owner; rounds under way may
        have backfilled rows of the table by then. */
    | Restart(more: set<int>)

  ghost predicate NextJob(rows: seq<int>, first: int, end: int, j: Job, e: Event, j': Job) {
    match e
    case Work(ranges, workers, rd, stored) =>
      && !j.finished && IsSplit(ranges, j.start, end) && workers >= 1 && IsRound(rows, ranges, workers, rd)
      && |rd.tasks| == |rd.results| && rd.tasks != []
      && j'.filled == j.filled + Rows(rd.scanned)
      && (if Failed(rd) then
            j' == j.(filled := j'.filled, saved := if stored then Reported(rd) else j.saved)
          else if rd.remains == [] then
            j' == j.(filled := j'.filled, doneHandle := Reported(rd), finished := true)
          else
            j' == j.(filled := j'.filled, doneHandle := Reported(rd), start := rd.remains[0].startHandle))
    case Save => !j.finished && j' == j.(saved := j.doneHandle)
    case Restart(more) =>
      && !j.finished && (forall x :: x in more ==> x in rows && first <= x <= end)
      && j' == j.(start := j.saved, doneHandle := j.saved, filled := j.filled + more)
  }

  ghost predicate StepJob(rows: seq<int>, first: int, end: int, j: Job, j': Job) {
    exists e :: NextJob(rows, first, end, j, e, j')
  }

  ghost predicate Jobs(rows: seq<int>, first: int, end: int, jobs: seq<Job>) {
    && jobs != []
    && jobs[0] == Job(first, first, first, {}, false)
    && forall i :: 0 <= i < |jobs| - 1 ==> StepJob(rows, first, end, jobs[i], jobs[i + 1])
  }

  /** Every row of the range before the handle has an index. */
  ghost predicate Behind(rows: seq<int>, first: int, h: int, filled: set<int>) {
    forall x :: x in rows && first <= x < h ==> x in filled
  }

  ghost predicate JobOK(rows: seq<int>, first: int, end: int, j: Job) {
    && Behind(rows, first, j.start, j.filled) && Behind(rows, first, j.doneHandle, j.filled) && Behind(rows, first, j.saved, j.filled)
    && first <= j.start && first <= j.doneHandle && first <= j.saved
    && IsHandle(j.start) && IsHandle(j.doneHandle) && IsHandle(j.saved)
    && (forall x :: x in j.filled ==> x in rows && first <= x <= end)
    && (j.finished ==> forall x :: x in rows && first <= x <= end ==> x in j.filled)
  }

  lemma {:induction false} WorkKeeps(rows: seq<int>, first: int, end: int, j: Job, e: Event, j': Job)
    requires IsTable(rows) && first <= end && JobOK(rows, first, end, j) && NextJob(rows, first, end, j, e, j') && e.Work?
    ensures JobOK(rows, first, end, j')
  {
    hide IsRound, IsTable, IsSplit;
    var rd := e.round;
    ReportedWithin(rows, e.ranges, j.start, end, e.workers, rd);
    forall x | x in rows && first <= x
      ensures x < Reported(rd) ==> x in j'.filled
      ensures !Failed(rd) ==> (if rd.remains == [] then x <= end else x < rd.remains[0].startHandle) ==> x in j'.filled
    {
      if x >= j.start {
        RoundCovers(rows, e.ranges, j.start, end, e.workers, rd, x);
      }
    }
    forall x | x in j'.filled
      ensures x in rows && first <= x <= end
    {
      if x in Rows(rd.scanned) {
        RoundStays(rows, e.ranges, j.start, end, e.workers, rd, x);
      }
    }
    RestWithin(rows, e.ranges, j.start, end, e.workers, rd);
  }

  lemma {:induction false} RestWithin(rows: seq<int>, ranges: seq<KeyRange>, start: int, end: int, workers: nat, rd: Round)
    requires IsSplit(ranges, start, end) && workers >= 1 && IsRound(rows, ranges, workers, rd)
    ensures rd.remains != [] ==> start <= rd.remains[0].startHandle && IsHandle(rd.remains[0].startHandle)
  {
    if rd.remains != [] {
      assert rd.remains[0] == ranges[|rd.tasks|];
      SplitWithin(ranges, start, end, |rd.tasks|);
    }
  }

  /** However many rounds a job takes and however often it fails, crashes or changes hands: every row before the
      saved handle, and before the handle the next round starts at, has its index; no other row of the table
      gets one; and when the job is finished, every row of the range has its index. */
  lemma {:induction false} JobIsSafe(rows: seq<int>, first: int, end: int, jobs: seq<Job>, i: nat)
    requires IsTable(rows) && IsHandle(first) && first <= end && Jobs(rows, first, end, jobs) && i < |jobs|
    ensures JobOK(rows, first, end, jobs[i])
    decreases i
  {
    hide IsTable, StepJob, JobOK;
    if i == 0 {
      StartOK(rows, first, end);
    } else {
      JobIsSafe(rows, first, end, jobs, i - 1);
      assert StepJob(rows, first, end, jobs[i - 1], jobs[i - 1 + 1]);
      StepKeeps(rows, first, end, jobs[i - 1], jobs[i]);
    }
  }

  lemma {:induction false} StartOK(rows: seq<int>, first: int, end: int)
    requires IsHandle(first)
    ensures JobOK(rows, first, end, Job(first, first, first, {}, false))
  {
  }

  lemma {:induction false} StepKeeps(rows: seq<int>, first: int, end: int, j: Job, j': Job)
    requires IsTable(rows) && first <= end && JobOK(rows, first, end, j) && StepJob(rows, first, end, j, j')
    ensures JobOK(rows, first, end, j')
  {
    hide IsTable, IsRound, IsSplit;
    var e :| NextJob(rows, first, end, j, e, j');
    if e.Work? {
      WorkKeeps(rows, first, end, j, e, j');
    }
  }

  /** From any state a job has reached, a run that is not interrupted again and succeeds in one round finishes it. */
  lemma {:induction false} ResumeIsComplete(rows: seq<int>, first: int, end: int, jobs: seq<Job>, ranges: seq<KeyRange>, workers: nat, rd: Round)
    requires IsTable(rows) && IsHandle(first) && first <= end && Jobs(rows, first, end, jobs)
    requires var j := jobs[|jobs| - 1]; IsSplit(ranges, j.saved, end)
    requires workers >= |ranges| >= 1 && IsRound(rows, ranges, workers, rd) && !Failed(rd)
    ensures forall x :: x in rows && first <= x <= end <==> x in jobs[|jobs| - 1].filled + Rows(rd.scanned)
  {
    hide IsRound, IsTable, IsSplit;
    var j := jobs[|jobs| - 1];
    JobIsSafe(rows, first, end, jobs, |jobs| - 1);
    NothingLeft(rows, ranges, workers, rd);
    forall x
      ensures x in rows && first <= x <= end <==> x in j.filled + Rows(rd.scanned)
    {
      if x in rows && j.saved <= x <= end {
        RoundCovers(rows, ranges, j.saved, end, workers, rd, x);
      }
      if x in Rows(rd.scanned) {
        RoundStays(rows, ranges, j.saved, end, workers, rd, x);
      }
    }
  }

  lemma {:induction false} NothingLeft(rows: seq<int>, ranges: seq<KeyRange>, workers: nat, rd: Round)
    requires workers >= |ranges| && IsRound(rows, ranges, workers, rd)
    ensures rd.remains == []
  {
  }
}
