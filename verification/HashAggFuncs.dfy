/** The integer aggregate functions, and which of them may be merged in any order. */
module HashAggFuncs {
  import opened HashAggSpec

  /** The partial results of COUNT, SUM, AVG, MAX or MIN, and FIRST_ROW; Failed is the overflow error, which
      ends the query. */
  datatype Partial =
    | Count(n: int)
    | Sum(val: Int64, isNull: bool)
    | Avg(sum: Int64, count: int)
    | MaxMin(val: Int64, isNull: bool)
    | FirstRow(val: Int64, isNull: bool, gotFirstRow: bool)
    | Failed

  function Arg(r: Row, i: nat): Datum {
    if i < |r.args| then r.args[i] else Null
  }

  function CountUpdate(p: Partial, d: Datum): Partial {
    if p.Count? && d.Int? then Count(p.n + 1) else p
  }

  function CountMerge(dst: Partial, src: Partial): Partial {
    if dst.Count? && src.Count? then Count(dst.n + src.n) else dst
  }

  /** The test of AddInt64. */
  predicate Overflows(a: Int64, b: Int64) {
    (a > 0 && b > 0 && MAX_INT64 - a < b) || (a < 0 && b < 0 && MIN_INT64 - a > b)
  }

  function SumUpdate(p: Partial, d: Datum): Partial {
    if !p.Sum? || d.Null? then p
    else if p.isNull then Sum(d.v, false)
    else if Overflows(p.val, d.v) then Failed
    else Sum(p.val + d.v, false)
  }

  function SumMerge(dst: Partial, src: Partial): Partial {
    if dst.Failed? || src.Failed? then Failed
    else if !dst.Sum? || !src.Sum? || src.isNull then dst
    else if Overflows(src.val, dst.val) then Failed
    else Sum(src.val + dst.val, false)
  }

  function AvgUpdate(p: Partial, d: Datum): Partial {
    if !p.Avg? || d.Null? then p
    else if Overflows(p.sum, d.v) then Failed
    else Avg(p.sum + d.v, p.count + 1)
  }

  function AvgMerge(dst: Partial, src: Partial): Partial {
    if dst.Failed? || src.Failed? then Failed
    else if !dst.Avg? || !src.Avg? || src.count == 0 then dst
    else if Overflows(src.sum, dst.sum) then Failed
    else Avg(src.sum + dst.sum, dst.count + src.count)
  }

  function MaxMinUpdate(p: Partial, d: Datum, isMax: bool): Partial {
    if !p.MaxMin? || d.Null? then p
    else if p.isNull then MaxMin(d.v, false)
    else if (isMax && d.v > p.val) || (!isMax && d.v < p.val) then MaxMin(d.v, false)
    else p
  }

  function MaxMinMerge(dst: Partial, src: Partial, isMax: bool): Partial {
    if !dst.MaxMin? || !src.MaxMin? || src.isNull then dst
    else if dst.isNull then src
    else if (isMax && src.val > dst.val) || (!isMax && src.val < dst.val) then MaxMin(src.val, false)
    else dst
  }

  function FirstRowUpdate(p: Partial, d: Datum): Partial {
    if !p.FirstRow? || p.gotFirstRow then p
    else match d
      case Null => FirstRow(0, true, true)
      case Int(v) => FirstRow(v, false, true)
  }

  function FirstRowMerge(dst: Partial, src: Partial): Partial {
    if dst.FirstRow? && src.FirstRow? && !dst.gotFirstRow then src else dst
  }

  function CountOf(i: nat): Agg<Partial> {
    Agg(Count(0), (p, r) => CountUpdate(p, Arg(r, i)), CountMerge)
  }

  function SumOf(i: nat): Agg<Partial> {
    Agg(Sum(0, true), (p, r) => SumUpdate(p, Arg(r, i)), SumMerge)
  }

  function AvgOf(i: nat): Agg<Partial> {
    Agg(Avg(0, 0), (p, r) => AvgUpdate(p, Arg(r, i)), AvgMerge)
  }

  function MaxMinOf(i: nat, isMax: bool): Agg<Partial> {
    Agg(MaxMin(0, true), (p, r) => MaxMinUpdate(p, Arg(r, i), isMax), (dst, src) => MaxMinMerge(dst, src, isMax))
  }

  function FirstRowOf(i: nat): Agg<Partial> {
    Agg(FirstRow(0, false, false), (p, r) => FirstRowUpdate(p, Arg(r, i)), FirstRowMerge)
  }

  lemma {:induction false} CountLawful(i: nat, within: multiset<Row>)
    ensures Mergeable(CountOf(i), within) && Unordered(CountOf(i), within)
  {
    LawfulMergeable(CountOf(i), (p: Partial) => p.Count?, within);
  }

  predicate MaxMinOccurs(p: Partial) {
    p.MaxMin? && (p.isNull ==> p.val == 0)
  }

  lemma {:induction false} MaxMinLaws(s: Partial, t: Partial, d: Datum, isMax: bool)
    requires MaxMinOccurs(s) && MaxMinOccurs(t)
    ensures MaxMinOccurs(MaxMinUpdate(s, d, isMax)) && MaxMinMerge(s, MaxMin(0, true), isMax) == s
    ensures MaxMinMerge(s, MaxMinUpdate(t, d, isMax), isMax) == MaxMinUpdate(MaxMinMerge(s, t, isMax), d, isMax)
    ensures MaxMinMerge(s, t, isMax) == MaxMinMerge(t, s, isMax)
  {
  }

  lemma {:induction false} MaxMinLawful(i: nat, isMax: bool, within: multiset<Row>)
    ensures Mergeable(MaxMinOf(i, isMax), within) && Unordered(MaxMinOf(i, isMax), within)
  {
    hide Mergeable, Unordered, MaxMinUpdate, MaxMinMerge, MaxMinOccurs;
    var a := MaxMinOf(i, isMax);
    MaxMinStart();
    forall s, r | MaxMinOccurs(s)
      ensures MaxMinOccurs(a.update(s, r))
    {
      MaxMinLaws(s, s, Arg(r, i), isMax);
    }
    forall s, t | MaxMinOccurs(s) && MaxMinOccurs(t)
      ensures a.merge(s, t) == a.merge(t, s) && a.merge(s, a.init) == s
    {
      MaxMinLaws(s, t, Null, isMax);
    }
    forall s, t, r | MaxMinOccurs(s) && MaxMinOccurs(t)
      ensures a.merge(s, a.update(t, r)) == a.update(a.merge(s, t), r)
    {
      MaxMinLaws(s, t, Arg(r, i), isMax);
    }
    LawfulMergeable(a, MaxMinOccurs, within);
  }

  /** Some row of the group has an argument. */
  ghost predicate HasArg(rows: seq<Row>, i: nat) {
    exists k :: 0 <= k < |rows| && Arg(rows[k], i).Int?
  }

  /** The value is an argument of the group, and no argument is greater, or smaller. */
  ghost predicate IsExtreme(rows: seq<Row>, i: nat, isMax: bool, v: int) {
    && (exists k :: 0 <= k < |rows| && Arg(rows[k], i).Int? && Arg(rows[k], i).v == v)
    && (forall k :: 0 <= k < |rows| && Arg(rows[k], i).Int? ==> if isMax then Arg(rows[k], i).v <= v else v <= Arg(rows[k], i).v)
  }

  /** MAX is the greatest argument and MIN the smallest; both are NULL exactly if there is no argument. */
  lemma {:induction false} MaxMinIs(rows: seq<Row>, i: nat, isMax: bool)
    ensures var p := Fold(MaxMinOf(i, isMax), rows);
            p.MaxMin? && (p.isNull <==> !HasArg(rows, i)) && (!p.isNull ==> IsExtreme(rows, i, isMax, p.val))
    decreases |rows|
  {
    if rows != [] {
      MaxMinIs(rows[..|rows| - 1], i, isMax);
      MaxMinMore(rows, i, isMax);
    }
  }

  lemma {:induction false} MaxMinMore(rows: seq<Row>, i: nat, isMax: bool)
    requires rows != []
    requires var p := Fold(MaxMinOf(i, isMax), rows[..|rows| - 1]);
             p.MaxMin? && (p.isNull <==> !HasArg(rows[..|rows| - 1], i)) && (!p.isNull ==> IsExtreme(rows[..|rows| - 1], i, isMax, p.val))
    ensures var p := Fold(MaxMinOf(i, isMax), rows);
            p.MaxMin? && (p.isNull <==> !HasArg(rows, i)) && (!p.isNull ==> IsExtreme(rows, i, isMax, p.val))
  {
    var front, last := rows[..|rows| - 1], |rows| - 1;
    var p, q := Fold(MaxMinOf(i, isMax), front), Fold(MaxMinOf(i, isMax), rows);
    assert q == MaxMinUpdate(p, Arg(rows[last], i), isMax);
    hide Fold, MaxMinOf;
    assert forall k :: 0 <= k < last ==> rows[k] == front[k];
    if Arg(rows[last], i).Int? {
      assert HasArg(rows, i);
    } else if !p.isNull {
      var k :| 0 <= k < |front| && Arg(front[k], i).Int? && Arg(front[k], i).v == p.val;
      assert Arg(rows[k], i).Int?;
    }
    if !p.isNull {
      var k :| 0 <= k < |front| && Arg(front[k], i).Int? && Arg(front[k], i).v == p.val;
      assert Arg(rows[k], i).Int? && Arg(rows[k], i).v == p.val;
    }
  }

  lemma {:induction false} MaxMinStart()
    ensures MaxMinOccurs(MaxMin(0, true))
  {
  }

  /** FIRST_ROW can be merged, but the order in which parts arrive shows. */
  lemma {:induction false} FirstRowMergeable(i: nat, within: multiset<Row>)
    ensures Mergeable(FirstRowOf(i), within)
  {
    LawfulMergeable(FirstRowOf(i), (p: Partial) => p.FirstRow? && (!p.gotFirstRow ==> p == FirstRow(0, false, false)), within);
  }

  /** FIRST_ROW is the argument of the first row, NULL or not. */
  lemma {:induction false} FirstRowIs(i: nat, rows: seq<Row>)
    requires rows != []
    ensures Fold(FirstRowOf(i), rows) ==
              match Arg(rows[0], i)
              case Null => FirstRow(0, true, true)
              case Int(v) => FirstRow(v, false, true)
    decreases |rows|
  {
    if |rows| == 1 {
      assert Fold(FirstRowOf(i), rows[..0]) == FirstRow(0, false, false);
    } else {
      FirstRowIs(i, rows[..|rows| - 1]);
    }
  }

  /** Two orders of a group agree on FIRST_ROW exactly if they begin with the same argument. */
  lemma {:induction false} FirstRowExact(i: nat, x: seq<Row>, y: seq<Row>)
    requires x != [] && y != []
    ensures Fold(FirstRowOf(i), x) == Fold(FirstRowOf(i), y) <==> Arg(x[0], i) == Arg(y[0], i)
  {
    FirstRowIs(i, x);
    FirstRowIs(i, y);
  }

  lemma {:induction false} FirstRowOrdered(i: nat)
    ensures exists within :: !Unordered(FirstRowOf(i), within)
  {
    var x, y := Row("k", seq(i + 1, _ => Int(1))), Row("k", seq(i + 1, _ => Int(2)));
    FirstRowExact(i, [x] + [y], [y] + [x]);
    assert Fold(FirstRowOf(i), [x] + [y]) != Fold(FirstRowOf(i), [y] + [x]);
    assert !Unordered(FirstRowOf(i), multiset([x] + [y]));
  }
}
