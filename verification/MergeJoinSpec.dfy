/** Rows, join keys and the nested-loop join that the merge join must equal. */
module MergeJoinSpec {

  datatype Value = Null | Val(v: int)

  /** A row with its join key; `id` stands for everything else in it. */
  datatype Row = Row(key: seq<Value>, id: int)

  // ------------------------------------------------------------------ keys

  function CompareValue(a: Value, b: Value): int {
    match (a, b)
    case (Null, Null) => 0
    case (Null, Val(_)) => -1
    case (Val(_), Null) => 1
    case (Val(x), Val(y)) => if x < y then -1 else if x > y then 1 else 0
  }

  /** Lexicographic comparison of keys of equal length; NULL comes first. */
  function Compare(a: seq<Value>, b: seq<Value>): int
    requires |a| == |b|
  {
    if a == [] then 0
    else if CompareValue(a[0], b[0]) != 0 then CompareValue(a[0], b[0])
    else Compare(a[1..], b[1..])
  }

  lemma {:induction false} CompareEqual(a: seq<Value>, b: seq<Value>)
    requires |a| == |b|
    ensures Compare(a, b) == 0 <==> a == b
    decreases |a|
  {
    if a != [] {
      CompareEqual(a[1..], b[1..]);
      assert a == [a[0]] + a[1..] && b == [b[0]] + b[1..];
    }
  }

  lemma {:induction false} CompareFlips(a: seq<Value>, b: seq<Value>)
    requires |a| == |b|
    ensures Compare(a, b) < 0 <==> Compare(b, a) > 0
    decreases |a|
  {
    if a != [] {
      CompareFlips(a[1..], b[1..]);
    }
  }

  lemma {:induction false} CompareTransitive(a: seq<Value>, b: seq<Value>, c: seq<Value>)
    requires |a| == |b| == |c| && Compare(a, b) <= 0 && Compare(b, c) <= 0
    ensures Compare(a, c) <= 0
    ensures Compare(a, b) < 0 || Compare(b, c) < 0 ==> Compare(a, c) < 0
    decreases |a|
  {
    if a != [] && CompareValue(a[0], b[0]) == 0 && CompareValue(b[0], c[0]) == 0 {
      CompareTransitive(a[1..], b[1..], c[1..]);
    }
  }

  predicate HasNull(key: seq<Value>) {
    exists i :: 0 <= i < |key| && key[i].Null?
  }

  /** All keys have `n` columns. */
  predicate Keyed(rows: seq<Row>, n: nat) {
    forall i :: 0 <= i < |rows| ==> |rows[i].key| == n
  }

  /** Ascending by key, as a sorted child delivers its rows. */
  predicate SortedRows(rows: seq<Row>, n: nat) {
    Keyed(rows, n) && forall i, j :: 0 <= i < j < |rows| ==> Compare(rows[i].key, rows[j].key) <= 0
  }

  /** The rows whose key has no NULL. */
  function NonNull(rows: seq<Row>): seq<Row> {
    if rows == [] then []
    else (if HasNull(rows[0].key) then [] else [rows[0]]) + NonNull(rows[1..])
  }

  function Flatten(chunks: seq<seq<Row>>): seq<Row> {
    if chunks == [] then [] else chunks[0] + Flatten(chunks[1..])
  }

  lemma {:induction false} NonNullConcat(a: seq<Row>, b: seq<Row>)
    ensures NonNull(a + b) == NonNull(a) + NonNull(b)
    decreases |a|
  {
    if a == [] {
      assert a + b == b;
    } else {
      assert (a + b)[1..] == a[1..] + b;
      NonNullConcat(a[1..], b);
    }
  }

  // ------------------------------------------------------------------ joins

  datatype Kind = LeftOuter | RightOuter | Inner

  datatype Joined = Joined(lhs: Row, rhs: Row)

  /** What a join does with rows: its kind, the filter on outer rows, the other conditions, if any, and the
      row that stands in for a missing inner row. */
  datatype Join = Join(kind: Kind, outerIsRight: bool, selects: Row -> bool, conditions: bool, accepts: Joined -> bool, defaultInner: Row)

  function Pair(j: Join, outer: Row, inner: Row): Joined {
    match j.kind
    case LeftOuter => Joined(outer, inner)
    case RightOuter => Joined(inner, outer)
    case Inner => if j.outerIsRight then Joined(inner, outer) else Joined(outer, inner)
  }

  function Miss(j: Join, outer: Row): seq<Joined> {
    match j.kind
    case LeftOuter => [Joined(outer, j.defaultInner)]
    case RightOuter => [Joined(j.defaultInner, outer)]
    case Inner => []
  }

  predicate Accepts(j: Join, p: Joined) { !j.conditions || j.accepts(p) }

  /** The pairs of the outer row with the inner rows of equal, non-NULL key that pass the conditions. */
  function Matches(j: Join, outer: Row, inners: seq<Row>): seq<Joined> {
    if inners == [] then []
    else
      var p := Pair(j, outer, inners[0]);
      (if inners[0].key == outer.key && !HasNull(inners[0].key) && Accepts(j, p) then [p] else []) + Matches(j, outer, inners[1..])
  }

  /** What one outer row contributes. */
  function JoinRow(j: Join, outer: Row, inners: seq<Row>): seq<Joined> {
    var ms := Matches(j, outer, inners);
    if !j.selects(outer) || ms == [] then Miss(j, outer) else ms
  }

  /** The simple definition: for each outer row, scan all inner rows. */
  function NestedLoop(j: Join, outers: seq<Row>, inners: seq<Row>): seq<Joined> {
    if outers == [] then [] else JoinRow(j, outers[0], inners) + NestedLoop(j, outers[1..], inners)
  }

  lemma {:induction false} MatchesConcat(j: Join, outer: Row, a: seq<Row>, b: seq<Row>)
    ensures Matches(j, outer, a + b) == Matches(j, outer, a) + Matches(j, outer, b)
    decreases |a|
  {
    if a == [] {
      assert a + b == b;
    } else {
      assert (a + b)[1..] == a[1..] + b;
      MatchesConcat(j, outer, a[1..], b);
    }
  }

  lemma {:induction false} NoMatches(j: Join, outer: Row, inners: seq<Row>)
    requires forall i :: 0 <= i < |inners| ==> inners[i].key != outer.key
    ensures Matches(j, outer, inners) == []
    decreases |inners|
  {
    if inners != [] {
      NoMatches(j, outer, inners[1..]);
    }
  }

  /** Inner rows with a NULL in the key never match. */
  lemma {:induction false} NullsNeverMatch(j: Join, outer: Row, inners: seq<Row>)
    ensures Matches(j, outer, inners) == Matches(j, outer, NonNull(inners))
    decreases |inners|
  {
    if inners != [] {
      NullsNeverMatch(j, outer, inners[1..]);
      MatchesConcat(j, outer, if HasNull(inners[0].key) then [] else [inners[0]], NonNull(inners[1..]));
      assert [inners[0]][1..] == [];
    }
  }

  lemma {:induction false} LoopIgnoresNulls(j: Join, outers: seq<Row>, inners: seq<Row>)
    ensures NestedLoop(j, outers, inners) == NestedLoop(j, outers, NonNull(inners))
    decreases |outers|
  {
    if outers != [] {
      NullsNeverMatch(j, outers[0], inners);
      LoopIgnoresNulls(j, outers[1..], inners);
    }
  }

  // ------------------------------------------------------------------ a join under way

  /** What is left of the current outer row: `inners` not yet tried, and whether it has matched before. */
  function RowRest(j: Join, outer: Row, inners: seq<Row>, hasMatch: bool): seq<Joined> {
    var ms := Matches(j, outer, inners);
    if !j.selects(outer) || (ms == [] && !hasMatch) then Miss(j, outer) else ms
  }

  /** All keys of the group are `key`. */
  predicate Group(rows: seq<Row>, key: seq<Value>) {
    forall i :: 0 <= i < |rows| ==> rows[i].key == key
  }

  /** Inner rows that come before all remaining outer rows can be forgotten. */
  lemma {:induction false} ForgetGroup(j: Join, outers: seq<Row>, group: seq<Row>, rest: seq<Row>, n: nat)
    requires SortedRows(outers, n) && outers != [] && group != [] && Group(group, group[0].key) && |group[0].key| == n
    requires Compare(outers[0].key, group[0].key) > 0
    ensures NestedLoop(j, outers, group + rest) == NestedLoop(j, outers, rest)
  {
    forall i | 0 <= i < |outers|
      ensures outers[i].key != group[0].key
    {
      CompareFlips(outers[0].key, group[0].key);
      CompareFlips(group[0].key, outers[0].key);
      if i > 0 {
        CompareTransitive(group[0].key, outers[0].key, outers[i].key);
      }
      CompareEqual(group[0].key, outers[i].key);
    }
    ForgetUnequal(j, outers, group, rest);
  }

  lemma {:induction false} ForgetRow(j: Join, outer: Row, group: seq<Row>, rest: seq<Row>)
    requires forall i :: 0 <= i < |group| ==> group[i].key != outer.key
    ensures JoinRow(j, outer, group + rest) == JoinRow(j, outer, rest)
  {
    hide Matches;
    MatchesConcat(j, outer, group, rest);
    NoMatches(j, outer, group);
    assert [] + Matches(j, outer, rest) == Matches(j, outer, rest);
  }

  lemma {:induction false} ForgetUnequal(j: Join, outers: seq<Row>, group: seq<Row>, rest: seq<Row>)
    requires group != [] && Group(group, group[0].key)
    requires forall i :: 0 <= i < |outers| ==> outers[i].key != group[0].key
    ensures NestedLoop(j, outers, group + rest) == NestedLoop(j, outers, rest)
    decreases |outers|
  {
    hide JoinRow;
    if outers != [] {
      ForgetRow(j, outers[0], group, rest);
      ForgetUnequal(j, outers[1..], group, rest);
    }
  }

  /** An outer row before all inner rows matches none of them. */
  lemma {:induction false} BeforeAll(j: Join, outer: Row, inners: seq<Row>, n: nat)
    requires SortedRows(inners, n) && |outer.key| == n
    requires inners != [] ==> Compare(outer.key, inners[0].key) < 0
    ensures Matches(j, outer, inners) == []
  {
    forall i | 0 <= i < |inners|
      ensures inners[i].key != outer.key
    {
      if i > 0 {
        CompareTransitive(outer.key, inners[0].key, inners[i].key);
      }
      CompareEqual(outer.key, inners[i].key);
    }
    NoMatches(j, outer, inners);
  }

  /** Joining the outer row with the next `k` rows of its group leaves the rest of the group. */
  lemma {:induction false} RowStep(j: Join, outer: Row, inners: seq<Row>, k: nat, hasMatch: bool)
    requires k <= |inners| && j.selects(outer)
    ensures var some := Matches(j, outer, inners[..k]);
            RowRest(j, outer, inners, hasMatch) ==
              (if some == [] then RowRest(j, outer, inners[k..], hasMatch) else some + RowRest(j, outer, inners[k..], true))
  {
    assert inners == inners[..k] + inners[k..];
    MatchesConcat(j, outer, inners[..k], inners[k..]);
  }
}
