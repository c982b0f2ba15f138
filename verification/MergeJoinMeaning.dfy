/** What a join is, row by row and in which order, said on the two inputs alone; the nested loop computes just that. */
module MergeJoinMeaning {
  import opened MergeJoinSpec

  // ------------------------------------------------------------------ the order of the inputs

  /** NULL comes before every value. */
  predicate ValueBefore(a: Value, b: Value) {
    match b
    case Null => false
    case Val(y) => a.Null? || a.v < y
  }

  /** The first column in which the keys differ decides. */
  predicate KeyBefore(a: seq<Value>, b: seq<Value>)
    requires |a| == |b|
  {
    exists c :: 0 <= c < |a| && a[..c] == b[..c] && ValueBefore(a[c], b[c])
  }

  /** No row has a key before that of an earlier row. */
  predicate Ascending(rows: seq<Row>, n: nat) {
    Keyed(rows, n) && forall i, j :: 0 <= i < j < |rows| ==> !KeyBefore(rows[j].key, rows[i].key)
  }

  lemma {:induction false} CompareMeans(a: seq<Value>, b: seq<Value>)
    requires |a| == |b|
    ensures Compare(a, b) < 0 <==> KeyBefore(a, b)
    ensures Compare(a, b) > 0 <==> KeyBefore(b, a)
    decreases |a|
  {
    hide KeyBefore, Compare;
    CompareLess(a, b);
    CompareLess(b, a);
    CompareFlips(a, b);
    CompareFlips(b, a);
  }

  lemma {:induction false} CompareLess(a: seq<Value>, b: seq<Value>)
    requires |a| == |b|
    ensures Compare(a, b) < 0 <==> KeyBefore(a, b)
    decreases |a|
  {
    if a != [] {
      var u, v := a[1..], b[1..];
      CompareLess(u, v);
      if CompareValue(a[0], b[0]) < 0 {
        assert a[..0] == b[..0] && ValueBefore(a[0], b[0]);
      } else if Compare(a, b) < 0 {
        var c :| 0 <= c < |u| && u[..c] == v[..c] && ValueBefore(u[c], v[c]);
        assert a[..c + 1] == [a[0]] + u[..c] && b[..c + 1] == [b[0]] + v[..c];
      }
      if d :| 0 < d < |a| && a[..d] == b[..d] && ValueBefore(a[d], b[d]) {
        assert a[0] == a[..d][0] == b[..d][0] == b[0];
        assert u[..d - 1] == a[..d][1..] && v[..d - 1] == b[..d][1..] && ValueBefore(u[d - 1], v[d - 1]);
      }
    }
  }

  lemma {:induction false} AscendingIsSorted(rows: seq<Row>, n: nat)
    ensures Ascending(rows, n) <==> SortedRows(rows, n)
  {
    hide KeyBefore, Compare;
    if Keyed(rows, n) {
      forall i, j | 0 <= i < j < |rows|
        ensures Compare(rows[i].key, rows[j].key) <= 0 <==> !KeyBefore(rows[j].key, rows[i].key)
      {
        CompareMeans(rows[i].key, rows[j].key);
      }
    }
  }

  // ------------------------------------------------------------------ the rows of a join

  /** The outer row is the right half of the output. */
  predicate OuterOnRight(j: Join) {
    j.kind == RightOuter || (j.kind == Inner && j.outerIsRight)
  }

  function Combined(j: Join, outer: Row, inner: Row): Joined {
    if OuterOnRight(j) then Joined(inner, outer) else Joined(outer, inner)
  }

  /** The outer row passes its filter, the keys are equal and free of NULL, and the pair passes the other conditions. */
  predicate Partner(j: Join, outer: Row, inner: Row) {
    && j.selects(outer)
    && inner.key == outer.key
    && (forall c :: 0 <= c < |inner.key| ==> !inner.key[c].Null?)
    && (j.conditions ==> j.accepts(Combined(j, outer, inner)))
  }

  /** Where an output row comes from: an outer row and an inner one, or an outer row alone. */
  datatype Source = Source(outer: int, inner: int)

  const ALONE: int := -1

  /** Pairs of partners, and the outer rows of an outer join that have no partner. */
  ghost predicate Produces(j: Join, outers: seq<Row>, inners: seq<Row>, x: Source) {
    && 0 <= x.outer < |outers|
    && if x.inner == ALONE then j.kind != Inner && forall i :: 0 <= i < |inners| ==> !Partner(j, outers[x.outer], inners[i])
       else 0 <= x.inner < |inners| && Partner(j, outers[x.outer], inners[x.inner])
  }

  /** The row a source gives; an outer row alone is padded. */
  function RowFrom(j: Join, outers: seq<Row>, inners: seq<Row>, x: Source): Joined
    requires 0 <= x.outer < |outers| && ALONE <= x.inner < |inners|
  {
    Combined(j, outers[x.outer], if x.inner == ALONE then j.defaultInner else inners[x.inner])
  }

  predicate Earlier(x: Source, y: Source) {
    x.outer < y.outer || (x.outer == y.outer && x.inner < y.inner)
  }

  predicate Increasing(src: seq<Source>) {
    forall a, b :: 0 <= a < b < |src| ==> Earlier(src[a], src[b])
  }

  /** The rows come from all sources, each once, by outer row and then by inner row. */
  ghost predicate ComesFrom(j: Join, outers: seq<Row>, inners: seq<Row>, rows: seq<Joined>, src: seq<Source>) {
    && |src| == |rows|
    && Increasing(src)
    && (forall k :: 0 <= k < |src| ==> Produces(j, outers, inners, src[k]) && rows[k] == RowFrom(j, outers, inners, src[k]))
    && (forall x :: Produces(j, outers, inners, x) ==> x in src)
  }

  ghost predicate IsJoin(j: Join, outers: seq<Row>, inners: seq<Row>, rows: seq<Joined>) {
    exists src :: ComesFrom(j, outers, inners, rows, src)
  }

  // ------------------------------------------------------------------ one outer row

  /** The positions from `from` on of the inner rows that match. */
  function Positions(j: Join, outer: Row, inners: seq<Row>, from: nat): seq<int>
    requires from <= |inners|
    decreases |inners| - from
  {
    if from == |inners| then []
    else (if Partner(j, outer, inners[from]) then [from] else []) + Positions(j, outer, inners, from + 1)
  }

  lemma {:induction false} PositionsNext(j: Join, outer: Row, inners: seq<Row>, from: nat)
    requires from < |inners|
    ensures var ps, rest := Positions(j, outer, inners, from), Positions(j, outer, inners, from + 1);
            ps == if Partner(j, outer, inners[from]) then [from] + rest else rest
  {
    hide Partner;
    var rest := Positions(j, outer, inners, from + 1);
    assert [] + rest == rest;
  }

  lemma {:induction false} PositionsOrdered(j: Join, outer: Row, inners: seq<Row>, from: nat)
    requires from <= |inners|
    ensures var ps := Positions(j, outer, inners, from);
            && (forall a :: 0 <= a < |ps| ==> from <= ps[a] < |inners|)
            && (forall a, b :: 0 <= a < b < |ps| ==> ps[a] < ps[b])
    decreases |inners| - from
  {
    hide Partner;
    if from < |inners| {
      PositionsOrdered(j, outer, inners, from + 1);
      PositionsNext(j, outer, inners, from);
    }
  }

  lemma {:induction false} PositionsAre(j: Join, outer: Row, inners: seq<Row>, from: nat, i: int)
    requires 0 <= from <= i < |inners|
    ensures i in Positions(j, outer, inners, from) <==> Partner(j, outer, inners[i])
    decreases |inners| - from
  {
    hide Partner;
    PositionsOrdered(j, outer, inners, from + 1);
    PositionsNext(j, outer, inners, from);
    if from < i {
      PositionsAre(j, outer, inners, from + 1, i);
    }
  }

  lemma {:induction false} MatchIsPartner(j: Join, outer: Row, inner: Row)
    requires j.selects(outer)
    ensures Pair(j, outer, inner) == Combined(j, outer, inner)
    ensures Partner(j, outer, inner) <==> inner.key == outer.key && !HasNull(inner.key) && Accepts(j, Pair(j, outer, inner))
  {
  }

  lemma {:induction false} MatchesFrom(j: Join, outer: Row, inners: seq<Row>, from: nat)
    requires from <= |inners| && j.selects(outer)
    ensures var ms, ps := Matches(j, outer, inners[from..]), Positions(j, outer, inners, from);
            && |ms| == |ps|
            && forall a :: 0 <= a < |ps| ==> 0 <= ps[a] < |inners| && ms[a] == Combined(j, outer, inners[ps[a]])
    decreases |inners| - from
  {
    hide Partner, HasNull, Accepts, Pair, Combined;
    if from < |inners| {
      var rest := inners[from..];
      assert rest[0] == inners[from] && rest[1..] == inners[from + 1..];
      MatchesFrom(j, outer, inners, from + 1);
      MatchIsPartner(j, outer, inners[from]);
      var ms, ps := Matches(j, outer, inners[from + 1..]), Positions(j, outer, inners, from + 1);
      if Partner(j, outer, inners[from]) {
        assert Matches(j, outer, rest) == [Pair(j, outer, inners[from])] + ms;
      } else {
        assert Matches(j, outer, rest) == [] + ms == ms && [] + ps == ps;
      }
    }
  }

  /** The sources of one outer row. */
  ghost function RowSources(j: Join, outers: seq<Row>, inners: seq<Row>, o: nat): seq<Source>
    requires o < |outers|
  {
    var ps := Positions(j, outers[o], inners, 0);
    if ps != [] then seq(|ps|, a requires 0 <= a < |ps| => Source(o, ps[a]))
    else if j.kind == Inner then [] else [Source(o, ALONE)]
  }

  lemma {:induction false} NoPositions(j: Join, outer: Row, inners: seq<Row>, from: nat)
    requires from <= |inners| && forall i :: 0 <= i < |inners| ==> !Partner(j, outer, inners[i])
    ensures Positions(j, outer, inners, from) == []
    decreases |inners| - from
  {
    if from < |inners| {
      NoPositions(j, outer, inners, from + 1);
    }
  }

  /** What one outer row contributes is what its sources give. */
  lemma {:induction false} RowIsSources(j: Join, outers: seq<Row>, inners: seq<Row>, o: nat)
    requires o < |outers|
    ensures var rows, src := JoinRow(j, outers[o], inners), RowSources(j, outers, inners, o);
            && |src| == |rows|
            && forall a :: 0 <= a < |src| ==>
                 ALONE <= src[a].inner < |inners| && src[a].outer == o && rows[a] == RowFrom(j, outers, inners, src[a])
  {
    hide Matches, Positions;
    assert inners[0..] == inners;
    if j.selects(outers[o]) {
      MatchesFrom(j, outers[o], inners, 0);
    } else {
      NoPositions(j, outers[o], inners, 0);
    }
  }

  lemma {:induction false} RowSourcesFacts(j: Join, outers: seq<Row>, inners: seq<Row>, o: nat)
    requires o < |outers|
    ensures var src := RowSources(j, outers, inners, o);
            && Increasing(src)
            && (forall a :: 0 <= a < |src| ==> src[a].outer == o && Produces(j, outers, inners, src[a]))
            && (forall x :: Produces(j, outers, inners, x) && x.outer == o ==> x in src)
  {
    hide Partner, Positions;
    var ps, src := Positions(j, outers[o], inners, 0), RowSources(j, outers, inners, o);
    PositionsOrdered(j, outers[o], inners, 0);
    forall i | 0 <= i < |inners|
      ensures i in ps <==> Partner(j, outers[o], inners[i])
    {
      PositionsAre(j, outers[o], inners, 0, i);
    }
    forall a | 0 <= a < |src|
      ensures src[a].outer == o && Produces(j, outers, inners, src[a])
    {
      RowSourceProduced(j, outers, inners, o, ps, a);
    }
    forall x | Produces(j, outers, inners, x) && x.outer == o
      ensures x in src
    {
      RowSourcesAll(j, outers, inners, o, ps, x);
    }
  }

  lemma {:induction false} RowSourceProduced(j: Join, outers: seq<Row>, inners: seq<Row>, o: nat, ps: seq<int>, a: nat)
    requires o < |outers| && ps == Positions(j, outers[o], inners, 0) && a < |RowSources(j, outers, inners, o)|
    requires forall i :: 0 <= i < |inners| ==> (i in ps <==> Partner(j, outers[o], inners[i]))
    requires forall b :: 0 <= b < |ps| ==> 0 <= ps[b] < |inners|
    ensures var x := RowSources(j, outers, inners, o)[a]; x.outer == o && Produces(j, outers, inners, x)
  {
    hide Partner, Positions;
    var x := RowSources(j, outers, inners, o)[a];
    if ps == [] {
      assert x == Source(o, ALONE);
      assert forall i :: 0 <= i < |inners| ==> !Partner(j, outers[o], inners[i]);
    } else {
      assert x == Source(o, ps[a]) && ps[a] in ps;
      assert Partner(j, outers[o], inners[ps[a]]);
    }
  }

  lemma {:induction false} RowSourcesAll(j: Join, outers: seq<Row>, inners: seq<Row>, o: nat, ps: seq<int>, x: Source)
    requires o < |outers| && ps == Positions(j, outers[o], inners, 0)
    requires forall i :: 0 <= i < |inners| ==> (i in ps <==> Partner(j, outers[o], inners[i]))
    requires forall a :: 0 <= a < |ps| ==> 0 <= ps[a] < |inners|
    requires Produces(j, outers, inners, x) && x.outer == o
    ensures x in RowSources(j, outers, inners, o)
  {
    hide Partner, Positions;
    var src := RowSources(j, outers, inners, o);
    if x.inner == ALONE {
      NoPositions(j, outers[o], inners, 0);
      assert src[0] == x;
    } else {
      var a :| 0 <= a < |ps| && ps[a] == x.inner;
      assert src[a] == x;
    }
  }

  // ------------------------------------------------------------------ all outer rows

  ghost function Sources(j: Join, outers: seq<Row>, inners: seq<Row>, from: nat): seq<Source>
    requires from <= |outers|
    decreases |outers| - from
  {
    if from == |outers| then [] else RowSources(j, outers, inners, from) + Sources(j, outers, inners, from + 1)
  }

  lemma {:induction false} LoopIsSources(j: Join, outers: seq<Row>, inners: seq<Row>, from: nat)
    requires from <= |outers|
    ensures var rows, src := NestedLoop(j, outers[from..], inners), Sources(j, outers, inners, from);
            && |src| == |rows|
            && forall a :: 0 <= a < |src| ==>
                 0 <= src[a].outer < |outers| && ALONE <= src[a].inner < |inners| && rows[a] == RowFrom(j, outers, inners, src[a])
    decreases |outers| - from
  {
    hide JoinRow, RowSources, RowFrom;
    if from < |outers| {
      var rest := outers[from..];
      assert rest[0] == outers[from] && rest[1..] == outers[from + 1..];
      RowIsSources(j, outers, inners, from);
      LoopIsSources(j, outers, inners, from + 1);
    }
  }

  lemma {:induction false} SourcesFacts(j: Join, outers: seq<Row>, inners: seq<Row>, from: nat)
    requires from <= |outers|
    ensures var src := Sources(j, outers, inners, from);
            && Increasing(src)
            && (forall a :: 0 <= a < |src| ==> src[a].outer >= from && Produces(j, outers, inners, src[a]))
            && (forall x :: Produces(j, outers, inners, x) && x.outer >= from ==> x in src)
    decreases |outers| - from
  {
    hide RowSources, Produces;
    if from < |outers| {
      RowSourcesFacts(j, outers, inners, from);
      SourcesFacts(j, outers, inners, from + 1);
    } else {
      ProducesInside(j, outers, inners);
    }
  }

  lemma {:induction false} ProducesInside(j: Join, outers: seq<Row>, inners: seq<Row>)
    ensures forall x :: Produces(j, outers, inners, x) ==> 0 <= x.outer < |outers| && ALONE <= x.inner < |inners|
  {
  }

  /** The nested loop is the join. */
  lemma {:induction false} LoopIsJoin(j: Join, outers: seq<Row>, inners: seq<Row>)
    ensures IsJoin(j, outers, inners, NestedLoop(j, outers, inners))
  {
    hide Produces, RowFrom;
    assert outers[0..] == outers;
    LoopIsSources(j, outers, inners, 0);
    SourcesFacts(j, outers, inners, 0);
    ProducesInside(j, outers, inners);
    var src := Sources(j, outers, inners, 0);
    assert ComesFrom(j, outers, inners, NestedLoop(j, outers, inners), src);
  }

  // ------------------------------------------------------------------ what follows

  /** A row is in the output exactly if it combines two partners, or pads an outer row of an outer join that has none. */
  lemma {:induction false} JoinMembers(j: Join, outers: seq<Row>, inners: seq<Row>, rows: seq<Joined>, p: Joined)
    requires IsJoin(j, outers, inners, rows)
    ensures p in rows <==> exists x :: Produces(j, outers, inners, x) && p == RowFrom(j, outers, inners, x)
  {
    hide Produces, RowFrom, Increasing;
    ProducesInside(j, outers, inners);
    var src :| ComesFrom(j, outers, inners, rows, src);
    if p in rows {
      var k :| 0 <= k < |rows| && rows[k] == p;
      assert Produces(j, outers, inners, src[k]);
    }
    if x :| Produces(j, outers, inners, x) && p == RowFrom(j, outers, inners, x) {
      var k :| 0 <= k < |src| && src[k] == x;
      assert rows[k] == p;
    }
  }

  /** An inner join never pads. */
  lemma {:induction false} InnerRowsPaired(j: Join, outers: seq<Row>, inners: seq<Row>, rows: seq<Joined>, p: Joined)
    requires IsJoin(j, outers, inners, rows) && j.kind == Inner && p in rows
    ensures exists o, i :: 0 <= o < |outers| && 0 <= i < |inners| && Partner(j, outers[o], inners[i]) && p == Combined(j, outers[o], inners[i])
  {
    hide Partner, IsJoin, Combined;
    JoinMembers(j, outers, inners, rows, p);
    var x :| Produces(j, outers, inners, x) && p == RowFrom(j, outers, inners, x);
    assert p == Combined(j, outers[x.outer], inners[x.inner]);
  }

  /** An outer join loses no outer row. */
  lemma {:induction false} OuterRowsKept(j: Join, outers: seq<Row>, inners: seq<Row>, rows: seq<Joined>, o: nat)
    requires IsJoin(j, outers, inners, rows) && j.kind != Inner && o < |outers|
    ensures exists k :: 0 <= k < |rows| && (if j.kind == RightOuter then rows[k].rhs else rows[k].lhs) == outers[o]
  {
    hide Partner, IsJoin;
    var x := Source(o, ALONE);
    if i :| 0 <= i < |inners| && Partner(j, outers[o], inners[i]) {
      x := Source(o, i);
    }
    assert Produces(j, outers, inners, x);
    var p := RowFrom(j, outers, inners, x);
    JoinMembers(j, outers, inners, rows, p);
    var k :| 0 <= k < |rows| && rows[k] == p;
  }
}
