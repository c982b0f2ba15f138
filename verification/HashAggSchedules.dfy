/** Which aggregates depend on how the input is scheduled over the workers, and when, exactly. */
module HashAggSchedules {
  import opened HashAggSpec
  import opened HashAggFuncs
  import opened HashAggOverflow
  import opened HashAggWorkers
  import opened HashAggRun

  type State = HashAggFuncs.Partial

  // ------------------------------------------------------------------ SUM and AVG

  /** A failure of one part is a failure of the whole. */
  lemma {:induction false} FailureMerges(a: Agg<State>, i: nat, parts: seq<seq<Row>>, q: nat, k: string)
    requires Adds(a, i) && q < |parts| && Of(parts[q], k) != [] && Fold(a, Of(parts[q], k)).Failed?
    ensures Merged(a, parts, k).Failed?
    decreases |parts|
  {
    if q < |parts| - 1 {
      FailureMerges(a, i, parts[..|parts| - 1], q, k);
    }
  }

  /** However the input is cut into chunks and these are scheduled over `n` partial workers, the group does not
      fail. */
  ghost predicate NoScheduleFails(a: Agg<State>, input: seq<Row>, n: nat, k: string) {
    forall chunks: seq<seq<Row>>, assign: seq<nat>, order: seq<nat> ::
      Flatten(chunks) == input && Scheduled(chunks, assign, n, order) ==>
        !Merged(a, Heard(chunks, assign, n, order), k).Failed?
  }

  /** For every input and every group: with two partial workers or more, SUM and AVG report no overflow under any
      schedule if and only if the positive arguments of the group and the negative ones each have a 64-bit sum. */
  lemma {:induction false} OverflowExact(a: Agg<State>, i: nat, input: seq<Row>, n: nat, k: string)
    requires Adds(a, i) && n >= 2
    ensures NoScheduleFails(a, input, n, k) <==> Fits(Of(input, k), i)
  {
    hide Scheduled, Heard, Fits, Merged, Flatten, Adds;
    if Fits(Of(input, k), i) {
      forall chunks: seq<seq<Row>>, assign: seq<nat>, order: seq<nat> | Flatten(chunks) == input && Scheduled(chunks, assign, n, order)
        ensures !Merged(a, Heard(chunks, assign, n, order), k).Failed?
      {
        NoOverflow(a, i, chunks, assign, n, order, Of(input, k), k);
      }
    } else {
      SomeScheduleFails(a, i, input, n, k);
    }
  }

  /** With one partial worker every schedule gives the sequential result, the overflow included. */
  lemma {:induction false} OneWorkerSequential(a: Agg<State>, i: nat, chunks: seq<seq<Row>>, assign: seq<nat>, order: seq<nat>, k: string)
    requires Adds(a, i) && Scheduled(chunks, assign, 1, order)
    ensures Merged(a, Heard(chunks, assign, 1, order), k) == Fold(a, Of(Flatten(chunks), k))
  {
    hide Flatten, Fold;
    OneOrder(order);
    WorkerGetsAll(chunks, assign);
    var all := Flatten(chunks);
    assert Heard(chunks, assign, 1, order) == [all];
    MergedMore(a, [], all, k);
    assert [] + [all] == [all];
    StartMerges(a, i, Of(all, k));
  }

  /** Merging into the empty result changes nothing. */
  lemma {:induction false} StartMerges(a: Agg<State>, i: nat, x: seq<Row>)
    requires Adds(a, i)
    ensures a.merge(a.init, Fold(a, x)) == Fold(a, x)
    ensures x == [] ==> Fold(a, x) == a.init
  {
    StatesOccur(a, i, x);
  }

  lemma {:induction false} StatesOccur(a: Agg<State>, i: nat, x: seq<Row>)
    requires Adds(a, i)
    ensures var p := Fold(a, x);
            || p.Failed?
            || (a == SumOf(i) && p.Sum? && (p.isNull ==> p.val == 0))
            || (a == AvgOf(i) && p.Avg? && p.count >= 0 && (p.count == 0 ==> p.sum == 0))
    decreases |x|
  {
    if x != [] {
      StatesOccur(a, i, x[..|x| - 1]);
    }
  }

  lemma {:induction false} NoOverflow(a: Agg<State>, i: nat, chunks: seq<seq<Row>>, assign: seq<nat>, n: nat, order: seq<nat>,
                                      rows: seq<Row>, k: string)
    requires Adds(a, i) && Fits(rows, i) && Scheduled(chunks, assign, n, order)
    requires multiset(Of(Flatten(chunks), k)) == multiset(rows)
    ensures Merged(a, Heard(chunks, assign, n, order), k) == Fold(a, rows) && !Fold(a, rows).Failed?
  {
    hide Scheduled, Heard, Fits, Merged, Mergeable, Unordered, Fold;
    SumLawful(i, rows);
    AvgLawful(i, rows);
    PartsAreInput(chunks, assign, n, order);
    MergedAnyOrder(a, Heard(chunks, assign, n, order), Flatten(chunks), k);
    NoOrderFails(a, i, rows, Of(Flatten(chunks), k));
  }

  /** Every row in a chunk of its own. */
  function Singles(rows: seq<Row>): seq<seq<Row>> {
    seq(|rows|, j requires 0 <= j < |rows| => [rows[j]])
  }

  /** The rows of the group with an argument of the given sign go to worker 0, all others to worker 1. */
  function BySign(rows: seq<Row>, k: string, i: nat, positive: bool): seq<nat> {
    seq(|rows|, j requires 0 <= j < |rows| =>
      if rows[j].key == k && (if positive then Up(i)(rows[j]) else Down(i)(rows[j])) > 0 then 0 else 1)
  }

  lemma {:induction false} SinglesFlatten(rows: seq<Row>)
    ensures Flatten(Singles(rows)) == rows
    decreases |rows|
  {
    if rows != [] {
      var front := rows[..|rows| - 1];
      assert Singles(rows) == Singles(front) + [[rows[|rows| - 1]]];
      SinglesFlatten(front);
      FlattenMore(Singles(front), [rows[|rows| - 1]]);
    }
  }

  lemma {:induction false} WorkerMore(chunks: seq<seq<Row>>, assign: seq<nat>, chunk: seq<Row>, w: nat, p: nat)
    requires |assign| == |chunks|
    ensures WorkerRows(chunks + [chunk], assign + [w], p) == WorkerRows(chunks, assign, p) + if w == p then chunk else []
  {
    assert (chunks + [chunk])[..|chunks|] == chunks && (assign + [w])[..|chunks|] == assign;
  }

  /** What worker 0 has of the group is exactly the rows of that sign. */
  lemma {:induction false} SignedWorker(rows: seq<Row>, k: string, i: nat, positive: bool)
    ensures Of(WorkerRows(Singles(rows), BySign(rows, k, i, positive), 0), k) == Signed(Of(rows, k), i, positive)
    decreases |rows|
  {
    hide WorkerRows, Signed, Of, Up, Down;
    if rows == [] {
      SignedNothing(k, i, positive);
    } else {
      var front, r := rows[..|rows| - 1], rows[|rows| - 1];
      var signed := (if positive then Up(i)(r) else Down(i)(r)) > 0;
      var w := if r.key == k && signed then 0 else 1;
      var chunks, assign := Singles(front), BySign(front, k, i, positive);
      assert Singles(rows) == chunks + [[r]] && BySign(rows, k, i, positive) == assign + [w];
      SignedWorker(front, k, i, positive);
      WorkerMore(chunks, assign, [r], w, 0);
      SignedStep(WorkerRows(chunks, assign, 0), front, r, k, i, positive);
      assert front + [r] == rows;
    }
  }

  lemma {:induction false} SignedNothing(k: string, i: nat, positive: bool)
    ensures Of(WorkerRows(Singles([]), BySign([], k, i, positive), 0), k) == [] == Signed(Of([], k), i, positive)
  {
  }

  lemma {:induction false} SignedStep(mine: seq<Row>, front: seq<Row>, r: Row, k: string, i: nat, positive: bool)
    requires Of(mine, k) == Signed(Of(front, k), i, positive)
    ensures var signed := (if positive then Up(i)(r) else Down(i)(r)) > 0;
            Of(mine + if r.key == k && signed then [r] else [], k) == Signed(Of(front + [r], k), i, positive)
  {
    hide Signed, Of, Up, Down;
    var signed := (if positive then Up(i)(r) else Down(i)(r)) > 0;
    OfConcat(mine, [r], k);
    OfConcat(front, [r], k);
    OneRow(r, k);
    SignedMore(Of(front, k), r, i, positive);
    assert mine + [] == mine && Of(front, k) + [] == Of(front, k) && Of(mine, k) + [] == Of(mine, k);
  }

  lemma {:induction false} OneRow(r: Row, k: string)
    ensures Of([r], k) == if r.key == k then [r] else []
  {
    assert [r][..0] == [] && Of([], k) == [];
  }

  lemma {:induction false} SignedMore(x: seq<Row>, r: Row, i: nat, positive: bool)
    ensures Signed(x + [r], i, positive) ==
              Signed(x, i, positive) + if (if positive then Up(i)(r) else Down(i)(r)) > 0 then [r] else []
  {
    assert (x + [r])[..|x|] == x;
  }

  lemma {:induction false} BySignScheduled(rows: seq<Row>, k: string, i: nat, positive: bool, n: nat)
    requires n >= 2
    ensures Scheduled(Singles(rows), BySign(rows, k, i, positive), n, InOrder(n))
  {
    AloneScheduled([], 0, n);
  }

  /** If a group does not fit, a schedule of the very same input fails: the rows of the sign that does not fit
      are summed first. */
  lemma {:induction false} SomeScheduleFails(a: Agg<State>, i: nat, input: seq<Row>, n: nat, k: string)
    requires Adds(a, i) && n >= 2 && !Fits(Of(input, k), i)
    ensures !NoScheduleFails(a, input, n, k)
  {
    hide Scheduled, Merged, Flatten, Adds, WorkerRows, Signed, Weigh, Singles, BySign, InOrder, Of, Fold;
    var rows := Of(input, k);
    var positive := Weigh(rows, Up(i)) > MAX_INT64;
    var chunks, assign, order := Singles(input), BySign(input, k, i, positive), InOrder(n);
    SinglesFlatten(input);
    BySignScheduled(input, k, i, positive, n);
    SignedWorker(input, k, i, positive);
    SignedSums(rows, i, positive);
    OneSided(a, i, Signed(rows, i, positive));
    FirstPart(chunks, assign, n);
    NothingFits(a, i);
    FailureMerges(a, i, Heard(chunks, assign, n, order), 0, k);
  }

  lemma {:induction false} FirstPart(chunks: seq<seq<Row>>, assign: seq<nat>, n: nat)
    requires n >= 2 && Scheduled(chunks, assign, n, InOrder(n))
    ensures |Heard(chunks, assign, n, InOrder(n))| == n && Heard(chunks, assign, n, InOrder(n))[0] == WorkerRows(chunks, assign, 0)
  {
  }

  /** Without rows nothing fails. */
  lemma {:induction false} NothingFits(a: Agg<State>, i: nat)
    requires Adds(a, i)
    ensures !Fold(a, []).Failed?
  {
  }

  /** Whether an overflow is reported depends on the schedule: of the largest number, 1 and -1 in three chunks, one
      partial worker that gets all of them overflows, while two that share them do not. */
  lemma {:induction false} OverflowDependsOnSchedule()
    ensures var a, b, c := Row("", [Int(MAX_INT64)]), Row("", [Int(1)]), Row("", [Int(-1)]);
            var chunks := [[a], [b], [c]];
            && Scheduled(chunks, [0, 0, 0], 2, [0, 1]) && Scheduled(chunks, [0, 1, 1], 2, [0, 1])
            && Merged(SumOf(0), Heard(chunks, [0, 0, 0], 2, [0, 1]), "").Failed?
            && Merged(SumOf(0), Heard(chunks, [0, 1, 1], 2, [0, 1]), "") == Sum(MAX_INT64, false)
  {
    hide Fold, SumOf, Merged, Flatten;
    var a, b, c := Row("", [Int(MAX_INT64)]), Row("", [Int(1)]), Row("", [Int(-1)]);
    OverflowDependsOnOrder();
    ThreeHeard(a, b, c);
    TwoParts([a, b, c], []);
    TwoParts([a], [b, c]);
  }

  lemma {:induction false} ThreeHeard(a: Row, b: Row, c: Row)
    ensures var chunks := [[a], [b], [c]];
            && Scheduled(chunks, [0, 0, 0], 2, [0, 1]) && Heard(chunks, [0, 0, 0], 2, [0, 1]) == [[a, b, c], []]
            && Scheduled(chunks, [0, 1, 1], 2, [0, 1]) && Heard(chunks, [0, 1, 1], 2, [0, 1]) == [[a], [b, c]]
  {
    ThreeRows(a, b, c, 0, 0);
    ThreeRows(a, b, c, 0, 1);
    ThreeRows(a, b, c, 1, 0);
    ThreeRows(a, b, c, 1, 1);
    TwoHeard([[a], [b], [c]], [0, 0, 0]);
    TwoHeard([[a], [b], [c]], [0, 1, 1]);
    assert [a] + [b, c] == [a, b, c] && [] + [b, c] == [b, c] && [a] + [] == [a];
  }

  lemma {:induction false} TwoHeard(chunks: seq<seq<Row>>, assign: seq<nat>)
    requires |assign| == |chunks| && forall j :: 0 <= j < |assign| ==> assign[j] < 2
    ensures Scheduled(chunks, assign, 2, [0, 1])
    ensures Heard(chunks, assign, 2, [0, 1]) == [WorkerRows(chunks, assign, 0), WorkerRows(chunks, assign, 1)]
  {
    assert [0, 1][0] == 0 && [0, 1][1] == 1;
  }

  lemma {:induction false} ThreeRows(a: Row, b: Row, c: Row, w: nat, p: nat)
    ensures WorkerRows([[a], [b], [c]], [0, w, w], p) == (if p == 0 then [a] else []) + if w == p then [b, c] else []
  {
    hide WorkerRows;
    WorkerMore([], [], [a], 0, p);
    WorkerMore([[a]], [0], [b], w, p);
    WorkerMore([[a], [b]], [0, w], [c], w, p);
    assert [] + [[a]] == [[a]] && [[a]] + [[b]] == [[a], [b]] && [[a], [b]] + [[c]] == [[a], [b], [c]];
    assert [] + [0] == [0] && [0] + [w] == [0, w] && [0, w] + [w] == [0, w, w];
    assert WorkerRows([], [], p) == [] by { NoRows(p); }
  }

  lemma {:induction false} NoRows(p: nat)
    ensures WorkerRows([], [], p) == []
  {
  }

  /** A group of rows with the key "" in two parts. */
  lemma {:induction false} TwoParts(x: seq<Row>, y: seq<Row>)
    requires x != [] && forall r :: r in x + y ==> r.key == ""
    ensures Merged(SumOf(0), [x, y], "") ==
              if y == [] then Fold(SumOf(0), x) else SumMerge(Fold(SumOf(0), x), Fold(SumOf(0), y))
  {
    hide Fold, Merged, SumMerge, Of;
    NoneMerged(SumOf(0));
    OfSame(x, "");
    OfSame(y, "");
    MergedMore(SumOf(0), [], x, "");
    MergedMore(SumOf(0), [x], y, "");
    assert [] + [x] == [x] && [x] + [y] == [x, y];
    StartMerges(SumOf(0), 0, x);
  }

  lemma {:induction false} NoneMerged(a: Agg<State>)
    ensures Merged(a, [], "") == a.init
  {
  }

  lemma {:induction false} OfSame(x: seq<Row>, k: string)
    requires forall r :: r in x ==> r.key == k
    ensures Of(x, k) == x
    decreases |x|
  {
    if x != [] {
      var front := x[..|x| - 1];
      assert x == front + [x[|x| - 1]];
      OfSame(front, k);
    }
  }

  /** With one partial worker everything stays in input order. */
  lemma {:induction false} WorkerGetsAll(chunks: seq<seq<Row>>, assign: seq<nat>)
    requires |assign| == |chunks| && forall j :: 0 <= j < |assign| ==> assign[j] == 0
    ensures WorkerRows(chunks, assign, 0) == Flatten(chunks)
    decreases |chunks|
  {
    if chunks != [] {
      WorkerGetsAll(chunks[..|chunks| - 1], assign[..|chunks| - 1]);
    }
  }

  // ------------------------------------------------------------------ FIRST_ROW

  /** The chunks that have rows of the group all begin it with the same argument. */
  predicate SameFirst(chunks: seq<seq<Row>>, k: string, i: nat) {
    forall c, d :: 0 <= c < |chunks| && 0 <= d < |chunks| && Of(chunks[c], k) != [] && Of(chunks[d], k) != [] ==>
      Arg(Of(chunks[c], k)[0], i) == Arg(Of(chunks[d], k)[0], i)
  }

  /** Under every schedule over `n` partial workers FIRST_ROW is that of the input. */
  ghost predicate FirstRowStable(chunks: seq<seq<Row>>, n: nat, k: string, i: nat) {
    forall assign: seq<nat>, order: seq<nat> :: Scheduled(chunks, assign, n, order) ==>
      Merged(FirstRowOf(i), Heard(chunks, assign, n, order), k) == Fold(FirstRowOf(i), Of(Flatten(chunks), k))
  }

  lemma {:induction false} BeginsWithChunk(chunks: seq<seq<Row>>, k: string) returns (c: nat)
    requires Of(Flatten(chunks), k) != []
    ensures c < |chunks| && Of(chunks[c], k) != [] && Of(Flatten(chunks), k)[0] == Of(chunks[c], k)[0]
    decreases |chunks|
  {
    var last := |chunks| - 1;
    OfConcat(Flatten(chunks[..last]), chunks[last], k);
    if Of(Flatten(chunks[..last]), k) == [] {
      c := last;
    } else {
      c := BeginsWithChunk(chunks[..last], k);
    }
  }

  lemma {:induction false} WorkerBegins(chunks: seq<seq<Row>>, assign: seq<nat>, p: nat, k: string) returns (c: nat)
    requires |assign| == |chunks| && Of(WorkerRows(chunks, assign, p), k) != []
    ensures c < |chunks| && Of(chunks[c], k) != [] && Of(WorkerRows(chunks, assign, p), k)[0] == Of(chunks[c], k)[0]
    decreases |chunks|
  {
    var last := |chunks| - 1;
    var front := WorkerRows(chunks[..last], assign[..last], p);
    OfConcat(front, if assign[last] == p then chunks[last] else [], k);
    if Of(front, k) == [] {
      c := last;
    } else {
      c := WorkerBegins(chunks[..last], assign[..last], p, k);
    }
  }

  /** Whatever the schedule, FIRST_ROW is the first row of the group in some chunk. */
  lemma {:induction false} HeardBegins(chunks: seq<seq<Row>>, assign: seq<nat>, n: nat, order: seq<nat>, k: string) returns (c: nat)
    requires Scheduled(chunks, assign, n, order) && Of(Flatten(Heard(chunks, assign, n, order)), k) != []
    ensures c < |chunks| && Of(chunks[c], k) != []
    ensures Of(Flatten(Heard(chunks, assign, n, order)), k)[0] == Of(chunks[c], k)[0]
  {
    var q := BeginsWithChunk(Heard(chunks, assign, n, order), k);
    c := WorkerBegins(chunks, assign, order[q], k);
  }

  lemma {:induction false} FirstRowHeard(chunks: seq<seq<Row>>, assign: seq<nat>, n: nat, order: seq<nat>, k: string, i: nat)
    requires Scheduled(chunks, assign, n, order)
    ensures Merged(FirstRowOf(i), Heard(chunks, assign, n, order), k) == Fold(FirstRowOf(i), Of(Flatten(Heard(chunks, assign, n, order)), k))
    ensures Of(Flatten(Heard(chunks, assign, n, order)), k) == [] <==> Of(Flatten(chunks), k) == []
  {
    hide Scheduled, Heard, Merged, Mergeable, FirstRowOf;
    var heard := Heard(chunks, assign, n, order);
    var within := multiset(Of(Flatten(heard), k));
    FirstRowMergeable(i, within);
    MergedIsFold(FirstRowOf(i), heard, k, within);
    PartsAreInput(chunks, assign, n, order);
    OfAnyOrder(Flatten(heard), Flatten(chunks), k);
    assert |multiset(Of(Flatten(heard), k))| == |multiset(Of(Flatten(chunks), k))|;
  }

  lemma {:induction false} SameFirstStable(chunks: seq<seq<Row>>, assign: seq<nat>, n: nat, order: seq<nat>, k: string, i: nat)
    requires Scheduled(chunks, assign, n, order) && (n == 1 || SameFirst(chunks, k, i))
    ensures Merged(FirstRowOf(i), Heard(chunks, assign, n, order), k) == Fold(FirstRowOf(i), Of(Flatten(chunks), k))
  {
    FirstRowHeard(chunks, assign, n, order, k, i);
    var x, y := Of(Flatten(Heard(chunks, assign, n, order)), k), Of(Flatten(chunks), k);
    if n == 1 {
      OneOrder(order);
      WorkerGetsAll(chunks, assign);
      assert Heard(chunks, assign, n, order) == [Flatten(chunks)];
      FlattenOne(Flatten(chunks));
    } else if y != [] {
      var c := HeardBegins(chunks, assign, n, order, k);
      var d := BeginsWithChunk(chunks, k);
      FirstRowExact(i, x, y);
    }
  }

  lemma {:induction false} OneOrder(order: seq<nat>)
    requires IsOrder(order, 1)
    ensures order == [0]
  {
    assert 0 in order;
    assert order[0] == order[|order| - 1];
  }

  lemma {:induction false} FlattenOne(x: seq<Row>)
    ensures Flatten([x]) == x
  {
    FlattenMore([], x);
    assert [] + [x] == [x] && [] + x == x;
  }

  /** Chunk `d` alone to worker 0, all others to worker 1, and worker 0 first. */
  function Alone(m: nat, d: nat): seq<nat> {
    seq(m, j => if j == d then 0 else 1)
  }

  function InOrder(n: nat): seq<nat> {
    seq(n, j => j)
  }

  lemma {:induction false} AloneScheduled(chunks: seq<seq<Row>>, d: nat, n: nat)
    requires n >= 2
    ensures Scheduled(chunks, Alone(|chunks|, d), n, InOrder(n))
  {
    forall p: nat | p < n
      ensures p in InOrder(n)
    {
      assert InOrder(n)[p] == p;
    }
  }

  lemma {:induction false} AloneRows(chunks: seq<seq<Row>>, assign: seq<nat>, d: nat)
    requires |assign| == |chunks| && forall j :: 0 <= j < |assign| ==> (assign[j] == 0 <==> j == d)
    ensures WorkerRows(chunks, assign, 0) == if d < |chunks| then chunks[d] else []
    decreases |chunks|
  {
    if chunks != [] {
      var last := |chunks| - 1;
      AloneRows(chunks[..last], assign[..last], d);
      assert WorkerRows(chunks[..last], assign[..last], 0) + [] == WorkerRows(chunks[..last], assign[..last], 0);
      assert [] + chunks[last] == chunks[last];
    }
  }

  lemma {:induction false} FlattenFirst(parts: seq<seq<Row>>, k: string)
    requires parts != [] && Of(parts[0], k) != []
    ensures Of(Flatten(parts), k) != [] && Of(Flatten(parts), k)[0] == Of(parts[0], k)[0]
    decreases |parts|
  {
    var last := |parts| - 1;
    OfConcat(Flatten(parts[..last]), parts[last], k);
    if last > 0 {
      FlattenFirst(parts[..last], k);
    }
  }

  /** Then FIRST_ROW is the first row of that chunk. */
  lemma {:induction false} AloneFirst(chunks: seq<seq<Row>>, d: nat, n: nat, k: string)
    requires n >= 2 && d < |chunks| && Of(chunks[d], k) != []
    ensures Scheduled(chunks, Alone(|chunks|, d), n, InOrder(n))
    ensures var x := Of(Flatten(Heard(chunks, Alone(|chunks|, d), n, InOrder(n))), k); x != [] && x[0] == Of(chunks[d], k)[0]
  {
    AloneScheduled(chunks, d, n);
    AloneRows(chunks, Alone(|chunks|, d), d);
    var heard := Heard(chunks, Alone(|chunks|, d), n, InOrder(n));
    assert heard[0] == chunks[d];
    FlattenFirst(heard, k);
  }

  /** FIRST_ROW of a group does not depend on the schedule if and only if there is one partial worker or all
      chunks that have the group begin it with the same argument. */
  lemma {:induction false} FirstRowSchedules(chunks: seq<seq<Row>>, n: nat, k: string, i: nat)
    requires n >= 1
    ensures FirstRowStable(chunks, n, k, i) <==> n == 1 || SameFirst(chunks, k, i)
  {
    hide Scheduled, Heard, Merged, Fold, FirstRowOf, Flatten, Alone, InOrder;
    if n == 1 || SameFirst(chunks, k, i) {
      forall assign: seq<nat>, order: seq<nat> | Scheduled(chunks, assign, n, order)
        ensures Merged(FirstRowOf(i), Heard(chunks, assign, n, order), k) == Fold(FirstRowOf(i), Of(Flatten(chunks), k))
      {
        SameFirstStable(chunks, assign, n, order, k, i);
      }
    } else {
      var c, d :| 0 <= c < |chunks| && 0 <= d < |chunks| && Of(chunks[c], k) != [] && Of(chunks[d], k) != []
                  && Arg(Of(chunks[c], k)[0], i) != Arg(Of(chunks[d], k)[0], i);
      FlattenHas(chunks, c, k);
      var first := Of(Flatten(chunks), k)[0];
      ChunkShows(chunks, if Arg(first, i) == Arg(Of(chunks[c], k)[0], i) then d else c, n, k, i);
    }
  }

  lemma {:induction false} FlattenHas(chunks: seq<seq<Row>>, c: nat, k: string)
    requires c < |chunks| && Of(chunks[c], k) != []
    ensures Of(Flatten(chunks), k) != []
    decreases |chunks|
  {
    hide Of;
    var last := |chunks| - 1;
    var front := chunks[..last];
    OfConcat(Flatten(front), chunks[last], k);
    if c < last {
      assert front[c] == chunks[c];
      FlattenHas(front, c, k);
    }
  }

  lemma {:induction false} ChunkShows(chunks: seq<seq<Row>>, d: nat, n: nat, k: string, i: nat)
    requires n >= 2 && d < |chunks| && Of(chunks[d], k) != [] && Of(Flatten(chunks), k) != []
    requires Arg(Of(chunks[d], k)[0], i) != Arg(Of(Flatten(chunks), k)[0], i)
    ensures !FirstRowStable(chunks, n, k, i)
  {
    hide Scheduled, Heard, Merged, Fold, FirstRowOf, Flatten, Alone, InOrder;
    var assign, order := Alone(|chunks|, d), InOrder(n);
    AloneFirst(chunks, d, n, k);
    FirstRowHeard(chunks, assign, n, order, k, i);
    FirstRowExact(i, Of(Flatten(Heard(chunks, assign, n, order)), k), Of(Flatten(chunks), k));
  }

  // ------------------------------------------------------------------ the output

  /** In the output of the executor: FIRST_ROW of a group whose chunks begin it alike or with one partial worker,
      and SUM and AVG of a group that fits, are those of the sequential aggregation, whatever the schedule. */
  lemma {:induction false} OutputIsSequential(out: seq<Result<State>>, aggs: seq<Agg<State>>, chunks: seq<seq<Row>>, assign: seq<nat>,
                                              n: nat, orders: seq<seq<nat>>, hash: string -> nat, x: nat, j: nat, i: nat)
    requires |orders| >= 1 && forall f :: 0 <= f < |orders| ==> Scheduled(chunks, assign, n, orders[f])
    requires IsAggregation(out, aggs, HeardAll(chunks, assign, n, orders), Flatten(chunks), hash) && x < |out| && j < |aggs|
    requires var rows := Of(Flatten(chunks), out[x].key);
             (aggs[j] == FirstRowOf(i) && (n == 1 || SameFirst(chunks, out[x].key, i))) || (Adds(aggs[j], i) && Fits(rows, i))
    ensures |out[x].values| == |aggs| && out[x].values[j] == Fold(aggs[j], Of(Flatten(chunks), out[x].key))
    ensures !out[x].values[j].Failed?
  {
    hide Scheduled, Heard, Merged, Fold, FirstRowOf, Flatten, Fits, SameFirst, Adds, Mergeable, Unordered;
    var k := out[x].key;
    var f := hash(k) % |orders|;
    assert IsGroup(out[x], aggs, HeardAll(chunks, assign, n, orders)[f], Flatten(chunks));
    assert Scheduled(chunks, assign, n, orders[f]);
    if aggs[j] == FirstRowOf(i) && (n == 1 || SameFirst(chunks, k, i)) {
      SameFirstStable(chunks, assign, n, orders[f], k, i);
      FirstRowNeverFails(i, Of(Flatten(chunks), k));
    } else {
      NoOverflow(aggs[j], i, chunks, assign, n, orders[f], Of(Flatten(chunks), k), k);
    }
  }

  /** COUNT, MAX and MIN need no condition: in the output of the executor they are the number of rows of the group
      with an argument, and the greatest and the smallest argument, NULL if there is none. */
  lemma {:induction false} OutputCountsAndExtremes(out: seq<Result<State>>, aggs: seq<Agg<State>>, chunks: seq<seq<Row>>, assign: seq<nat>,
                                                   n: nat, orders: seq<seq<nat>>, hash: string -> nat, x: nat, j: nat, i: nat, isMax: bool)
    requires |orders| >= 1 && forall f :: 0 <= f < |orders| ==> Scheduled(chunks, assign, n, orders[f])
    requires IsAggregation(out, aggs, HeardAll(chunks, assign, n, orders), Flatten(chunks), hash) && x < |out| && j < |aggs|
    ensures |out[x].values| == |aggs|
    ensures aggs[j] == CountOf(i) ==>
              var rows := Of(Flatten(chunks), out[x].key);
              out[x].values[j] == Count(|set k | 0 <= k < |rows| && Arg(rows[k], i).Int?|)
    ensures aggs[j] == MaxMinOf(i, isMax) ==>
              var rows, p := Of(Flatten(chunks), out[x].key), out[x].values[j];
              p.MaxMin? && (p.isNull <==> !HasArg(rows, i)) && (!p.isNull ==> IsExtreme(rows, i, isMax, p.val))
  {
    hide Scheduled, Heard, Merged, Fold, CountOf, MaxMinOf, Flatten, Mergeable, Unordered, HasArg, IsExtreme, Of;
    var k := out[x].key;
    var f, rows := hash(k) % |orders|, Of(Flatten(chunks), k);
    assert IsGroup(out[x], aggs, HeardAll(chunks, assign, n, orders)[f], Flatten(chunks));
    if aggs[j] == CountOf(i) {
      CountLawful(i, multiset(rows));
      CountIs(rows, i);
      SeenCounts(rows, i);
    }
    if aggs[j] == MaxMinOf(i, isMax) {
      MaxMinLawful(i, isMax, multiset(rows));
      MaxMinIs(rows, i, isMax);
    }
  }

  /** SUM, AVG and FIRST_ROW in the output, under their conditions: the sum of the arguments of the group, NULL if there
      is none, that sum with the number of arguments, and the argument of the first row. */
  lemma {:induction false} OutputSumsAndFirsts(out: seq<Result<State>>, aggs: seq<Agg<State>>, chunks: seq<seq<Row>>, assign: seq<nat>,
                                               n: nat, orders: seq<seq<nat>>, hash: string -> nat, x: nat, j: nat, i: nat)
    requires |orders| >= 1 && forall f :: 0 <= f < |orders| ==> Scheduled(chunks, assign, n, orders[f])
    requires IsAggregation(out, aggs, HeardAll(chunks, assign, n, orders), Flatten(chunks), hash) && x < |out| && j < |aggs|
    requires var rows := Of(Flatten(chunks), out[x].key);
             (aggs[j] == FirstRowOf(i) && (n == 1 || SameFirst(chunks, out[x].key, i))) || (Adds(aggs[j], i) && Fits(rows, i))
    ensures |out[x].values| == |aggs|
    ensures var rows, p := Of(Flatten(chunks), out[x].key), out[x].values[j];
            && (aggs[j] == SumOf(i) ==> p.Sum? && p.val == Total(rows, i) && (p.isNull <==> Weigh(rows, Seen(i)) == 0))
            && (aggs[j] == AvgOf(i) ==> p.Avg? && p.sum == Total(rows, i) && p.count == Weigh(rows, Seen(i)))
            && (aggs[j] == FirstRowOf(i) && rows != [] ==>
                  p.FirstRow? && p.gotFirstRow && (if p.isNull then Arg(rows[0], i) == Null else Arg(rows[0], i) == Int(p.val)))
  {
    hide Scheduled, Heard, Merged, Fold, Flatten, SameFirst, Mergeable, Unordered, Of, IsAggregation, Fits, Weigh, Total;
    OutputIsSequential(out, aggs, chunks, assign, n, orders, hash, x, j, i);
    var rows := Of(Flatten(chunks), out[x].key);
    if aggs[j] == SumOf(i) || aggs[j] == AvgOf(i) {
      DifferentStates(aggs[j], i);
      SumIs(rows, i);
      AvgIs(rows, i);
    }
    if aggs[j] == FirstRowOf(i) && rows != [] {
      FirstRowIs(i, rows);
    }
  }

  /** An aggregate that adds is not FIRST_ROW: they start from different states. */
  lemma {:induction false} DifferentStates(a: Agg<State>, i: nat)
    requires Adds(a, i)
    ensures forall k :: a != FirstRowOf(k)
  {
    forall k
      ensures a != FirstRowOf(k)
    {
      assert FirstRowOf(k).init.FirstRow? && !a.init.FirstRow?;
    }
  }

  lemma {:induction false} FirstRowNeverFails(i: nat, rows: seq<Row>)
    ensures Fold(FirstRowOf(i), rows).FirstRow?
    decreases |rows|
  {
    if rows != [] {
      FirstRowNeverFails(i, rows[..|rows| - 1]);
    }
  }
}
