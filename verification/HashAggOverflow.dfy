/** SUM and AVG of 64-bit integers: when the overflow error can occur, exactly. */
module HashAggOverflow {
  import opened HashAggSpec
  import opened HashAggFuncs

  // ------------------------------------------------------------------ sums

  function Weigh(rows: seq<Row>, f: Row -> nat): nat {
    if rows == [] then 0 else Weigh(rows[..|rows| - 1], f) + f(rows[|rows| - 1])
  }

  /** What an argument adds, what it takes away, and whether there is one. */
  function Up(i: nat): Row -> nat {
    r => if Arg(r, i).Int? && Arg(r, i).v > 0 then Arg(r, i).v else 0
  }

  function Negated(v: int): nat
    requires v < 0
  {
    -v
  }

  function Down(i: nat): Row -> nat {
    r => if Arg(r, i).Int? && Arg(r, i).v < 0 then Negated(Arg(r, i).v) else 0
  }

  function Seen(i: nat): Row -> nat {
    r => if Arg(r, i).Int? then 1 else 0
  }

  /** The positive arguments and the negative ones each have a 64-bit sum. */
  predicate Fits(rows: seq<Row>, i: nat) {
    Weigh(rows, Up(i)) <= MAX_INT64 && Weigh(rows, Down(i)) <= -MIN_INT64
  }

  lemma {:induction false} WeighConcat(x: seq<Row>, y: seq<Row>, f: Row -> nat)
    ensures Weigh(x + y, f) == Weigh(x, f) + Weigh(y, f)
    decreases |y|
  {
    if y == [] {
      assert x + y == x;
    } else {
      assert (x + y)[..|x + y| - 1] == x + y[..|y| - 1];
      WeighConcat(x, y[..|y| - 1], f);
    }
  }

  lemma {:induction false} WeighOne(p: seq<Row>, r: Row, q: seq<Row>, f: Row -> nat)
    ensures Weigh(p + [r] + q, f) == Weigh(p + q, f) + f(r)
  {
    WeighConcat(p, [r], f);
    WeighConcat(p + [r], q, f);
    WeighConcat(p, q, f);
    assert Weigh([r], f) == f(r) by { assert [r][..0] == []; }
  }

  lemma {:induction false} TakeOne(front: seq<Row>, last: Row, y: seq<Row>) returns (p: seq<Row>, q: seq<Row>)
    requires multiset(front + [last]) <= multiset(y)
    ensures y == p + [last] + q && multiset(front) <= multiset(p + q)
  {
    assert last in multiset(front + [last]);
    var k :| 0 <= k < |y| && y[k] == last;
    p, q := y[..k], y[k + 1..];
    assert y == p + [last] + q;
    assert multiset(p + q) == multiset(y) - multiset{last};
  }

  lemma {:induction false} WeighWithin(x: seq<Row>, y: seq<Row>, f: Row -> nat)
    requires multiset(x) <= multiset(y)
    ensures Weigh(x, f) <= Weigh(y, f)
    decreases |x|
  {
    if x != [] {
      var front, last := x[..|x| - 1], x[|x| - 1];
      assert x == front + [last];
      var p, q := TakeOne(front, last, y);
      WeighWithin(front, p + q, f);
      WeighOne(p, last, q, f);
    }
  }

  lemma {:induction false} FitsWithin(x: seq<Row>, y: seq<Row>, i: nat)
    requires multiset(x) <= multiset(y) && Fits(y, i)
    ensures Fits(x, i)
  {
    WeighWithin(x, y, Up(i));
    WeighWithin(x, y, Down(i));
  }

  // ------------------------------------------------------------------ the condition suffices

  function Total(rows: seq<Row>, i: nat): int {
    Weigh(rows, Up(i)) - Weigh(rows, Down(i))
  }

  /** Without an argument the sum is NULL, otherwise it is the sum of the arguments. */
  lemma {:induction false} SumIs(rows: seq<Row>, i: nat)
    requires Fits(rows, i)
    ensures MIN_INT64 <= Total(rows, i) <= MAX_INT64 && (Weigh(rows, Seen(i)) == 0 ==> Total(rows, i) == 0)
    ensures Fold(SumOf(i), rows) == Sum(Total(rows, i), Weigh(rows, Seen(i)) == 0)
    decreases |rows|
  {
    if rows != [] {
      SumIs(rows[..|rows| - 1], i);
    }
  }

  /** COUNT is the number of rows with an argument. */
  lemma {:induction false} CountIs(rows: seq<Row>, i: nat)
    ensures Fold(CountOf(i), rows) == Count(Weigh(rows, Seen(i)))
    decreases |rows|
  {
    if rows != [] {
      CountIs(rows[..|rows| - 1], i);
    }
  }

  /** Counting the rows with an argument is taking the size of the set of their positions. */
  lemma {:induction false} SeenCounts(rows: seq<Row>, i: nat)
    ensures Weigh(rows, Seen(i)) == |set k | 0 <= k < |rows| && Arg(rows[k], i).Int?|
    decreases |rows|
  {
    if rows != [] {
      var front, last := rows[..|rows| - 1], |rows| - 1;
      SeenCounts(front, i);
      var before, now := set k | 0 <= k < last && Arg(front[k], i).Int?, set k | 0 <= k < |rows| && Arg(rows[k], i).Int?;
      assert now == before + if Arg(rows[last], i).Int? then {last} else {};
    }
  }

  lemma {:induction false} AvgIs(rows: seq<Row>, i: nat)
    requires Fits(rows, i)
    ensures MIN_INT64 <= Total(rows, i) <= MAX_INT64 && (Weigh(rows, Seen(i)) == 0 ==> Total(rows, i) == 0)
    ensures Fold(AvgOf(i), rows) == Avg(Total(rows, i), Weigh(rows, Seen(i)))
    decreases |rows|
  {
    if rows != [] {
      AvgIs(rows[..|rows| - 1], i);
    }
  }

  lemma {:induction false} PartsFit(x: seq<Row>, y: seq<Row>, rows: seq<Row>, i: nat)
    requires Fits(rows, i) && multiset(x + y) <= multiset(rows)
    ensures Fits(x, i) && Fits(y, i) && Fits(x + y, i)
    ensures Total(x + y, i) == Total(x, i) + Total(y, i)
    ensures Weigh(x + y, Seen(i)) == Weigh(x, Seen(i)) + Weigh(y, Seen(i))
  {
    FitsWithin(x + y, rows, i);
    FitsWithin(x, x + y, i);
    FitsWithin(y, x + y, i);
    WeighConcat(x, y, Up(i));
    WeighConcat(x, y, Down(i));
    WeighConcat(x, y, Seen(i));
  }

  /** SUM may be merged in any order if the positive and the negative arguments fit. */
  lemma {:induction false} SumLawful(i: nat, rows: seq<Row>)
    requires Fits(rows, i)
    ensures Mergeable(SumOf(i), multiset(rows)) && Unordered(SumOf(i), multiset(rows))
    ensures !Fold(SumOf(i), rows).Failed?
  {
    SumIs(rows, i);
    forall x, y | multiset(x + y) <= multiset(rows)
      ensures SumOf(i).merge(Fold(SumOf(i), x), Fold(SumOf(i), y)) == Fold(SumOf(i), x + y) == Fold(SumOf(i), y + x)
    {
      SumMerges(i, rows, x, y);
    }
  }

  lemma {:induction false} SumMerges(i: nat, rows: seq<Row>, x: seq<Row>, y: seq<Row>)
    requires Fits(rows, i) && multiset(x + y) <= multiset(rows)
    ensures SumMerge(Fold(SumOf(i), x), Fold(SumOf(i), y)) == Fold(SumOf(i), x + y) == Fold(SumOf(i), y + x)
  {
    hide Fits, Total, Weigh, Fold, Up, Down, Seen;
    assert multiset(y + x) == multiset(x + y);
    PartsFit(x, y, rows, i);
    PartsFit(y, x, rows, i);
    SumIs(x, i);
    SumIs(y, i);
    SumIs(x + y, i);
    SumIs(y + x, i);
    SumAdds(Total(x, i), Weigh(x, Seen(i)), Total(y, i), Weigh(y, Seen(i)));
  }

  lemma {:induction false} SumAdds(u: Int64, m: nat, v: Int64, n: nat)
    requires (m == 0 ==> u == 0) && (n == 0 ==> v == 0) && MIN_INT64 <= u + v <= MAX_INT64
    ensures SumMerge(Sum(u, m == 0), Sum(v, n == 0)) == Sum(u + v, m + n == 0)
  {
  }

  /** AVG likewise, although a merge skips a source without rows. */
  lemma {:induction false} AvgLawful(i: nat, rows: seq<Row>)
    requires Fits(rows, i)
    ensures Mergeable(AvgOf(i), multiset(rows)) && Unordered(AvgOf(i), multiset(rows))
    ensures !Fold(AvgOf(i), rows).Failed?
  {
    AvgIs(rows, i);
    forall x, y | multiset(x + y) <= multiset(rows)
      ensures AvgOf(i).merge(Fold(AvgOf(i), x), Fold(AvgOf(i), y)) == Fold(AvgOf(i), x + y) == Fold(AvgOf(i), y + x)
    {
      AvgMerges(i, rows, x, y);
    }
  }

  lemma {:induction false} AvgMerges(i: nat, rows: seq<Row>, x: seq<Row>, y: seq<Row>)
    requires Fits(rows, i) && multiset(x + y) <= multiset(rows)
    ensures AvgMerge(Fold(AvgOf(i), x), Fold(AvgOf(i), y)) == Fold(AvgOf(i), x + y) == Fold(AvgOf(i), y + x)
  {
    hide Fits, Total, Weigh, Fold, Up, Down, Seen;
    assert multiset(y + x) == multiset(x + y);
    PartsFit(x, y, rows, i);
    PartsFit(y, x, rows, i);
    AvgIs(x, i);
    AvgIs(y, i);
    AvgIs(x + y, i);
    AvgIs(y + x, i);
  }

  // ------------------------------------------------------------------ the condition is needed

  /** An aggregate that, like SUM and AVG, adds its arguments up and fails where AddInt64 does. */
  ghost predicate Adds(a: Agg<Partial>, i: nat) {
    a == SumOf(i) || a == AvgOf(i)
  }

  lemma {:induction false} FailedStays(a: Agg<Partial>, i: nat, x: seq<Row>, y: seq<Row>)
    requires Adds(a, i) && Fold(a, x).Failed?
    ensures Fold(a, x + y).Failed?
    decreases |y|
  {
    if y == [] {
      assert x + y == x;
    } else {
      assert (x + y)[..|x + y| - 1] == x + y[..|y| - 1];
      FailedStays(a, i, x, y[..|y| - 1]);
    }
  }

  /** The rows with a positive argument, or those with a negative one. */
  function Signed(rows: seq<Row>, i: nat, positive: bool): seq<Row> {
    if rows == [] then []
    else
      var r := rows[|rows| - 1];
      Signed(rows[..|rows| - 1], i, positive) + (if (if positive then Up(i)(r) else Down(i)(r)) > 0 then [r] else [])
  }

  function Others(rows: seq<Row>, i: nat, positive: bool): seq<Row> {
    if rows == [] then []
    else
      var r := rows[|rows| - 1];
      Others(rows[..|rows| - 1], i, positive) + (if (if positive then Up(i)(r) else Down(i)(r)) > 0 then [] else [r])
  }

  lemma {:induction false} SignedFirst(rows: seq<Row>, i: nat, positive: bool)
    ensures multiset(Signed(rows, i, positive)) + multiset(Others(rows, i, positive)) == multiset(rows)
    decreases |rows|
  {
    if rows != [] {
      var front, r := rows[..|rows| - 1], rows[|rows| - 1];
      SignedFirst(front, i, positive);
      assert rows == front + [r];
      assert multiset(rows) == multiset(front) + multiset{r};
      if (if positive then Up(i)(r) else Down(i)(r)) > 0 {
        assert multiset(Signed(rows, i, positive)) == multiset(Signed(front, i, positive)) + multiset{r};
      } else {
        assert multiset(Others(rows, i, positive)) == multiset(Others(front, i, positive)) + multiset{r};
      }
    }
  }

  lemma {:induction false} SignedSums(rows: seq<Row>, i: nat, positive: bool)
    ensures var s := Signed(rows, i, positive);
            if positive then Weigh(s, Up(i)) == Weigh(rows, Up(i)) && Weigh(s, Down(i)) == 0
            else Weigh(s, Down(i)) == Weigh(rows, Down(i)) && Weigh(s, Up(i)) == 0
    decreases |rows|
  {
    if rows != [] {
      var front, r := rows[..|rows| - 1], rows[|rows| - 1];
      SignedSums(front, i, positive);
      var s := Signed(front, i, positive);
      assert s + [] == s;
      assert (s + [r])[..|s|] == s;
    }
  }

  /** Positive arguments that do not fit overflow, and so do negative ones. */
  lemma {:induction false} OneSided(a: Agg<Partial>, i: nat, s: seq<Row>)
    requires Adds(a, i) && (Weigh(s, Down(i)) == 0 || Weigh(s, Up(i)) == 0) && !Fits(s, i)
    ensures Fold(a, s).Failed?
    decreases |s|
  {
    var front, r := s[..|s| - 1], s[|s| - 1];
    if Fits(front, i) {
      SumIs(front, i);
      AvgIs(front, i);
    } else {
      OneSided(a, i, front);
      assert s == front + [r];
      FailedStays(a, i, front, [r]);
    }
  }

  lemma {:induction false} SomeOrderFails(a: Agg<Partial>, i: nat, rows: seq<Row>) returns (x: seq<Row>)
    requires Adds(a, i) && !Fits(rows, i)
    ensures multiset(x) == multiset(rows) && Fold(a, x).Failed?
  {
    var positive := Weigh(rows, Up(i)) > MAX_INT64;
    var s, t := Signed(rows, i, positive), Others(rows, i, positive);
    SignedFirst(rows, i, positive);
    SignedSums(rows, i, positive);
    OneSided(a, i, s);
    FailedStays(a, i, s, t);
    x := s + t;
  }

  lemma {:induction false} NoOrderFails(a: Agg<Partial>, i: nat, rows: seq<Row>, x: seq<Row>)
    requires Adds(a, i) && Fits(rows, i) && multiset(x) == multiset(rows)
    ensures !Fold(a, x).Failed? && Fold(a, x) == Fold(a, rows)
  {
    FitsWithin(x, rows, i);
    WeighWithin(x, rows, Up(i));
    WeighWithin(rows, x, Up(i));
    WeighWithin(x, rows, Down(i));
    WeighWithin(rows, x, Down(i));
    WeighWithin(x, rows, Seen(i));
    WeighWithin(rows, x, Seen(i));
    SumIs(x, i);
    SumIs(rows, i);
    AvgIs(x, i);
    AvgIs(rows, i);
  }

  lemma {:induction false} FoldNext(x: seq<Row>, v: Int64)
    ensures Fold(SumOf(0), x + [Row("", [Int(v)])]) == SumUpdate(Fold(SumOf(0), x), Int(v))
  {
    var r := Row("", [Int(v)]);
    var all := x + [r];
    assert all[..|all| - 1] == x && all[|all| - 1] == r && Arg(r, 0) == Int(v);
  }

  /** Whether an overflow is reported depends on the order: the largest number and 1 and -1 overflow one after
      the other, but not if the last two are summed first. */
  lemma {:induction false} OverflowDependsOnOrder()
    ensures var a, b, c := Row("", [Int(MAX_INT64)]), Row("", [Int(1)]), Row("", [Int(-1)]);
            && Fold(SumOf(0), [a, b, c]).Failed?
            && SumMerge(Fold(SumOf(0), [a]), Fold(SumOf(0), [b, c])) == Sum(MAX_INT64, false)
  {
    hide Fold, SumOf;
    var a, b, c := Row("", [Int(MAX_INT64)]), Row("", [Int(1)]), Row("", [Int(-1)]);
    assert [] + [a] == [a] && [a] + [b] == [a, b] && [a, b] + [c] == [a, b, c] && [] + [b] == [b] && [b] + [c] == [b, c];
    assert Fold(SumOf(0), []) == Sum(0, true) by { FoldNone(); }
    FoldNext([], MAX_INT64);
    FoldNext([a], 1);
    FoldNext([a, b], -1);
    FoldNext([], 1);
    FoldNext([b], -1);
  }

  lemma {:induction false} FoldNone()
    ensures Fold(SumOf(0), []) == Sum(0, true)
  {
  }
}
