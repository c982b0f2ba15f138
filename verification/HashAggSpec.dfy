/** Aggregation by groups, and why partial results can be merged in any order. */
module HashAggSpec {

  const MIN_INT64: int := -0x8000_0000_0000_0000
  const MAX_INT64: int := 0x7FFF_FFFF_FFFF_FFFF

  type Int64 = x: int | MIN_INT64 <= x <= MAX_INT64

  /** An argument of an aggregate function. */
  datatype Datum = Null | Int(v: Int64)

  /** A row with its encoded group key and the arguments of the aggregate functions. */
  datatype Row = Row(key: string, args: seq<Datum>)

  /** An aggregate function over states `S`: start, take a row, merge a source into a destination. An error is
      a state that updates and merges keep. */
  datatype Agg<!S> = Agg(init: S, update: (S, Row) -> S, merge: (S, S) -> S)

  /** The sequential definition. */
  function Fold<S>(a: Agg<S>, rows: seq<Row>): S {
    if rows == [] then a.init else a.update(Fold(a, rows[..|rows| - 1]), rows[|rows| - 1])
  }

  /** For parts of the given rows: merging the results of two parts is the result of the first part followed
      by the second. */
  ghost predicate Mergeable<S(!new)>(a: Agg<S>, within: multiset<Row>) {
    forall x, y :: multiset(x + y) <= within ==> a.merge(Fold(a, x), Fold(a, y)) == Fold(a, x + y)
  }

  /** It does not matter which of two parts comes first. */
  ghost predicate Unordered<S(!new)>(a: Agg<S>, within: multiset<Row>) {
    forall x, y :: multiset(x + y) <= within ==> Fold(a, x + y) == Fold(a, y + x)
  }

  /** What an update and a merge must keep to be mergeable, on the states that occur. */
  ghost predicate Lawful<S(!new)>(a: Agg<S>, occurs: S -> bool) {
    && occurs(a.init)
    && (forall s, r :: occurs(s) ==> occurs(a.update(s, r)))
    && (forall s :: occurs(s) ==> a.merge(s, a.init) == s)
    && (forall s, t, r :: occurs(s) && occurs(t) ==> a.merge(s, a.update(t, r)) == a.update(a.merge(s, t), r))
  }

  ghost predicate Commutes<S(!new)>(a: Agg<S>, occurs: S -> bool) {
    forall s, t :: occurs(s) && occurs(t) ==> a.merge(s, t) == a.merge(t, s)
  }

  lemma {:induction false} FoldOccurs<S(!new)>(a: Agg<S>, occurs: S -> bool, rows: seq<Row>)
    requires Lawful(a, occurs)
    ensures occurs(Fold(a, rows))
    decreases |rows|
  {
    if rows != [] {
      FoldOccurs(a, occurs, rows[..|rows| - 1]);
    }
  }

  lemma {:induction false} FoldConcat<S(!new)>(a: Agg<S>, occurs: S -> bool, x: seq<Row>, y: seq<Row>)
    requires Lawful(a, occurs)
    ensures a.merge(Fold(a, x), Fold(a, y)) == Fold(a, x + y)
    decreases |y|
  {
    FoldOccurs(a, occurs, x);
    if y == [] {
      assert x + y == x;
    } else {
      var front := y[..|y| - 1];
      assert (x + y)[..|x + y| - 1] == x + front;
      FoldConcat(a, occurs, x, front);
      FoldOccurs(a, occurs, front);
    }
  }

  lemma {:induction false} LawfulMergeable<S(!new)>(a: Agg<S>, occurs: S -> bool, within: multiset<Row>)
    requires Lawful(a, occurs)
    ensures Mergeable(a, within) && (Commutes(a, occurs) ==> Unordered(a, within))
  {
    forall x, y
      ensures a.merge(Fold(a, x), Fold(a, y)) == Fold(a, x + y)
    {
      FoldConcat(a, occurs, x, y);
    }
    if Commutes(a, occurs) {
      forall x, y
        ensures Fold(a, x + y) == Fold(a, y + x)
      {
        FoldConcat(a, occurs, x, y);
        FoldConcat(a, occurs, y, x);
        FoldOccurs(a, occurs, x);
        FoldOccurs(a, occurs, y);
      }
    }
  }

  /** Then any order of the rows gives the same result. */
  lemma {:induction false} FoldAnyOrder<S(!new)>(a: Agg<S>, x: seq<Row>, y: seq<Row>, within: multiset<Row>)
    requires Mergeable(a, within) && Unordered(a, within) && multiset(x) == multiset(y) <= within
    ensures Fold(a, x) == Fold(a, y)
    decreases |x|
  {
    hide Mergeable, Unordered, Fold;
    if x == [] {
      assert |multiset(y)| == 0;
    } else {
      var front, last := x[..|x| - 1], x[|x| - 1];
      assert x == front + [last];
      var p, q := TakeOut(front, last, y);
      FoldAnyOrder(a, front, p + q, within);
      FoldMove(a, p, last, q, within);
      MergeOf(a, front, [last], within);
    }
  }

  lemma {:induction false} TakeOut(front: seq<Row>, last: Row, y: seq<Row>) returns (p: seq<Row>, q: seq<Row>)
    requires multiset(front + [last]) == multiset(y)
    ensures y == p + [last] + q && multiset(p + q) == multiset(front)
    ensures |p + q| == |front|
  {
    assert multiset(front + [last]) == multiset(front) + multiset{last};
    assert last in multiset(y);
    var i :| 0 <= i < |y| && y[i] == last;
    p, q := y[..i], y[i + 1..];
    assert y == p + [last] + q;
    assert multiset(p + [last] + q) == multiset(p + q) + multiset{last};
    assert multiset(p + q) == multiset(p + q) + multiset{last} - multiset{last} == multiset(front);
    assert |multiset(p + q)| == |multiset(front)|;
  }

  lemma {:induction false} MergeOf<S(!new)>(a: Agg<S>, x: seq<Row>, y: seq<Row>, within: multiset<Row>)
    requires Mergeable(a, within) && multiset(x + y) <= within
    ensures a.merge(Fold(a, x), Fold(a, y)) == Fold(a, x + y)
  {
  }

  lemma {:induction false} FoldMove<S(!new)>(a: Agg<S>, p: seq<Row>, r: Row, q: seq<Row>, within: multiset<Row>)
    requires Mergeable(a, within) && Unordered(a, within) && multiset(p + [r] + q) <= within
    ensures Fold(a, p + [r] + q) == a.merge(Fold(a, p + q), Fold(a, [r]))
  {
    hide Mergeable, Fold;
    MovedRows(p, r, q);
    MergeOf(a, p, [r] + q, within);
    MergeOf(a, p, q + [r], within);
    MergeOf(a, p + q, [r], within);
    assert Fold(a, [r] + q) == Fold(a, q + [r]);
  }

  lemma {:induction false} MovedRows(p: seq<Row>, r: Row, q: seq<Row>)
    ensures p + [r] + q == p + ([r] + q) && p + q + [r] == p + (q + [r])
    ensures multiset(p + (q + [r])) == multiset(p + ([r] + q)) == multiset(p + [r] + q)
    ensures multiset([r] + q) <= multiset(p + [r] + q)
  {
    assert multiset(p + ([r] + q)) == multiset(p) + multiset([r] + q);
    assert multiset(p + (q + [r])) == multiset(p) + multiset(q + [r]);
    assert multiset([r] + q) == multiset(q + [r]);
  }

  // ------------------------------------------------------------------ groups

  /** The rows of one group, in order. */
  function Of(rows: seq<Row>, key: string): seq<Row> {
    if rows == [] then []
    else Of(rows[..|rows| - 1], key) + (if rows[|rows| - 1].key == key then [rows[|rows| - 1]] else [])
  }

  function Keys(rows: seq<Row>): set<string> {
    set r | r in rows :: r.key
  }

  lemma {:induction false} OfConcat(x: seq<Row>, y: seq<Row>, key: string)
    ensures Of(x + y, key) == Of(x, key) + Of(y, key)
    decreases |y|
  {
    if y == [] {
      assert x + y == x;
    } else {
      assert (x + y)[..|x + y| - 1] == x + y[..|y| - 1];
      OfConcat(x, y[..|y| - 1], key);
    }
  }

  lemma {:induction false} OfCount(rows: seq<Row>, key: string, r: Row)
    ensures multiset(Of(rows, key))[r] == if r.key == key then multiset(rows)[r] else 0
    decreases |rows|
  {
    if rows != [] {
      OfCount(rows[..|rows| - 1], key, r);
      assert rows == rows[..|rows| - 1] + [rows[|rows| - 1]];
    }
  }

  lemma {:induction false} OfAnyOrder(x: seq<Row>, y: seq<Row>, key: string)
    requires multiset(x) == multiset(y)
    ensures multiset(Of(x, key)) == multiset(Of(y, key))
  {
    forall r: Row
      ensures multiset(Of(x, key))[r] == multiset(Of(y, key))[r]
    {
      OfCount(x, key, r);
      OfCount(y, key, r);
    }
  }

  lemma {:induction false} KeysConcat(x: seq<Row>, y: seq<Row>)
    ensures Keys(x + y) == Keys(x) + Keys(y)
  {
  }

  lemma {:induction false} NotInGroup(rows: seq<Row>, key: string)
    requires key !in Keys(rows)
    ensures Of(rows, key) == []
    decreases |rows|
  {
    if rows != [] {
      var front := rows[..|rows| - 1];
      assert rows == front + [rows[|rows| - 1]];
      KeysConcat(front, [rows[|rows| - 1]]);
      assert rows[|rows| - 1] in [rows[|rows| - 1]];
      NotInGroup(front, key);
    }
  }

  // ------------------------------------------------------------------ result maps

  /** The aggregates of one group. */
  function GroupResult<S>(aggs: seq<Agg<S>>, rows: seq<Row>, key: string): seq<S> {
    seq(|aggs|, j requires 0 <= j < |aggs| => Fold(aggs[j], Of(rows, key)))
  }

  /** The map holds exactly the groups of the rows with their aggregates. */
  ghost predicate Represents<S(!new)>(results: map<string, seq<S>>, aggs: seq<Agg<S>>, rows: seq<Row>) {
    results.Keys == Keys(rows) && forall k :: k in results ==> results[k] == GroupResult(aggs, rows, k)
  }

  // ------------------------------------------------------------------ merged parts

  function Flatten(parts: seq<seq<Row>>): seq<Row> {
    if parts == [] then [] else Flatten(parts[..|parts| - 1]) + parts[|parts| - 1]
  }

  lemma {:induction false} FlattenMore(parts: seq<seq<Row>>, last: seq<Row>)
    ensures Flatten(parts + [last]) == Flatten(parts) + last
  {
    assert (parts + [last])[..|parts|] == parts;
  }

  /** What a destination holds for a group after the results of the parts that have the group are merged into it. */
  function Merged<S>(a: Agg<S>, parts: seq<seq<Row>>, key: string): S {
    if parts == [] then a.init
    else
      var before, g := Merged(a, parts[..|parts| - 1], key), Of(parts[|parts| - 1], key);
      if g == [] then before else a.merge(before, Fold(a, g))
  }

  function MergedResult<S>(aggs: seq<Agg<S>>, parts: seq<seq<Row>>, key: string): seq<S> {
    seq(|aggs|, j requires 0 <= j < |aggs| => Merged(aggs[j], parts, key))
  }

  /** The map holds exactly the groups of the parts with their merged results. */
  ghost predicate Gathers<S(!new)>(results: map<string, seq<S>>, aggs: seq<Agg<S>>, parts: seq<seq<Row>>) {
    results.Keys == Keys(Flatten(parts)) && forall k :: k in results ==> results[k] == MergedResult(aggs, parts, k)
  }

  lemma {:induction false} MergedMore<S>(a: Agg<S>, parts: seq<seq<Row>>, last: seq<Row>, key: string)
    ensures Merged(a, parts + [last], key) ==
              if Of(last, key) == [] then Merged(a, parts, key) else a.merge(Merged(a, parts, key), Fold(a, Of(last, key)))
  {
    assert (parts + [last])[..|parts|] == parts;
  }

  /** If the aggregate is mergeable, the merged results are the fold over all rows of the group. */
  lemma {:induction false} MergedIsFold<S(!new)>(a: Agg<S>, parts: seq<seq<Row>>, key: string, within: multiset<Row>)
    requires Mergeable(a, within) && multiset(Of(Flatten(parts), key)) <= within
    ensures Merged(a, parts, key) == Fold(a, Of(Flatten(parts), key))
    decreases |parts|
  {
    hide Mergeable;
    if parts != [] {
      var front, last := parts[..|parts| - 1], parts[|parts| - 1];
      OfConcat(Flatten(front), last, key);
      MergedIsFold(a, front, key, within);
      MergeOf(a, Of(Flatten(front), key), Of(last, key), within);
      assert Of(Flatten(front), key) + [] == Of(Flatten(front), key);
    }
  }

  /** If moreover the order does not matter, they are the fold over the group in any order of the rows. */
  lemma {:induction false} MergedAnyOrder<S(!new)>(a: Agg<S>, parts: seq<seq<Row>>, rows: seq<Row>, key: string)
    requires multiset(Flatten(parts)) == multiset(rows)
    requires Mergeable(a, multiset(Of(rows, key))) && Unordered(a, multiset(Of(rows, key)))
    ensures Merged(a, parts, key) == Fold(a, Of(rows, key))
  {
    hide Mergeable, Unordered;
    OfAnyOrder(Flatten(parts), rows, key);
    MergedIsFold(a, parts, key, multiset(Of(rows, key)));
    FoldAnyOrder(a, Of(Flatten(parts), key), Of(rows, key), multiset(Of(rows, key)));
  }
}
