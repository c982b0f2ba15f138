/** The three moves of the merge join, and why each keeps what is still to be produced. */
module MergeJoinSteps {
  import opened MergeJoinSpec

  predicate NoNulls(rows: seq<Row>) {
    forall i :: 0 <= i < |rows| ==> !HasNull(rows[i].key)
  }

  /** Where the join stands: the outer rows not finished, the current inner group and how much of it has been
      tried with the first outer row, the inner rows after it, and whether that outer row has matched. */
  datatype Place = Place(outers: seq<Row>, group: seq<Row>, rest: seq<Row>, pos: nat, hasMatch: bool)

  predicate Ordered(s: Place, n: nat) {
    && SortedRows(s.outers, n)
    && SortedRows(s.group + s.rest, n)
    && NoNulls(s.group + s.rest)
    && (s.group != [] ==> Group(s.group, s.group[0].key) && forall i :: 0 <= i < |s.rest| ==> s.rest[i].key != s.group[0].key)
    && (s.group == [] ==> s.rest == [])
  }

  /** A partly joined outer row belongs to the current group. */
  predicate Midway(j: Join, s: Place) {
    && s.pos <= |s.group| && (s.group != [] ==> s.pos < |s.group|)
    && (s.pos > 0 || s.hasMatch ==>
          s.outers != [] && j.selects(s.outers[0]) && s.group != [] && s.outers[0].key == s.group[0].key)
  }

  predicate Good(j: Join, s: Place, n: nat) { Ordered(s, n) && Midway(j, s) }

  /** What is still to be produced, by the simple definition. */
  function Output(j: Join, s: Place): seq<Joined>
    requires s.pos <= |s.group|
  {
    if s.outers == [] then []
    else RowRest(j, s.outers[0], s.group[s.pos..] + s.rest, s.hasMatch) + NestedLoop(j, s.outers[1..], s.group + s.rest)
  }

  /** At the start of an outer row this is the nested loop over all that is left. */
  lemma {:induction false} OutputAtStart(j: Join, outers: seq<Row>, group: seq<Row>, rest: seq<Row>)
    ensures Output(j, Place(outers, group, rest, 0, false)) == NestedLoop(j, outers, group + rest)
  {
    assert group[0..] == group;
  }

  predicate RowBehindGroup(j: Join, s: Place) {
    s.outers != [] && j.selects(s.outers[0]) && s.pos < |s.group| && |s.outers[0].key| == |s.group[s.pos].key|
    && Compare(s.outers[0].key, s.group[s.pos].key) > 0
  }

  /** The outer row comes after the group: no remaining outer row needs it, so the next group takes its place. */
  lemma {:induction false} SkipGroup(j: Join, s: Place, n: nat)
    requires Good(j, s, n) && RowBehindGroup(j, s)
    ensures s.pos == 0 && !s.hasMatch && Output(j, s) == NestedLoop(j, s.outers, s.rest)
  {
    CompareEqual(s.outers[0].key, s.group[s.pos].key);
    assert s.group[s.pos].key == s.group[0].key;
    OutputAtStart(j, s.outers, s.group, s.rest);
    assert s == Place(s.outers, s.group, s.rest, 0, false);
    assert (s.group + s.rest)[0] == s.group[0];
    ForgetGroup(j, s.outers, s.group, s.rest, n);
  }

  /** Any new split of the rest into a group and what follows keeps the order. */
  lemma {:induction false} NextGroup(j: Join, s: Place, n: nat, group: seq<Row>, rest: seq<Row>)
    requires Good(j, s, n) && group + rest == s.rest && (group == [] ==> rest == [])
    requires group != [] ==> Group(group, group[0].key) && (rest != [] ==> rest[0].key != group[0].key)
    ensures Good(j, Place(s.outers, group, rest, 0, false), n)
  {
    var all := s.group + s.rest;
    forall i | 0 <= i < |s.rest|
      ensures s.rest[i] == all[|s.group| + i]
    {
    }
    if group != [] {
      forall i | 0 <= i < |rest|
        ensures rest[i].key != group[0].key
      {
        assert group[0] == s.rest[0] && rest[0] == s.rest[|group|] && rest[i] == s.rest[|group| + i];
        GroupLeftBehind(s.rest, n, |group|, |group| + i);
      }
    }
  }

  /** In a sorted sequence a key that was left behind does not come back. */
  lemma {:induction false} GroupLeftBehind(rows: seq<Row>, n: nat, k: nat, i: nat)
    requires SortedRows(rows, n) && 0 < k <= i < |rows| && rows[k].key != rows[0].key
    ensures rows[i].key != rows[0].key
  {
    CompareEqual(rows[0].key, rows[k].key);
    if i > k {
      CompareTransitive(rows[0].key, rows[k].key, rows[i].key);
    }
    CompareEqual(rows[0].key, rows[i].key);
  }

  predicate RowHasNoPartner(j: Join, s: Place) {
    && s.outers != []
    && (!j.selects(s.outers[0]) || s.group == []
        || (s.pos < |s.group| && |s.outers[0].key| == |s.group[s.pos].key| && Compare(s.outers[0].key, s.group[s.pos].key) < 0))
  }

  /** The outer row is filtered out or comes before the group: it matches nothing. */
  lemma {:induction false} MissRow(j: Join, s: Place, n: nat)
    requires Good(j, s, n) && RowHasNoPartner(j, s)
    ensures var s' := Place(s.outers[1..], s.group, s.rest, 0, false);
            Good(j, s', n) && Output(j, s) == Miss(j, s.outers[0]) + Output(j, s')
  {
    var o := s.outers[0];
    if j.selects(o) && s.group != [] {
      CompareEqual(o.key, s.group[s.pos].key);
      assert s.group[s.pos].key == s.group[0].key;
      assert (s.group + s.rest)[0] == s.group[0];
      BeforeAll(j, o, s.group + s.rest, n);
    }
    assert s.group[0..] == s.group;
    OutputAtStart(j, s.outers[1..], s.group, s.rest);
  }

  predicate RowInGroup(j: Join, s: Place) {
    s.outers != [] && j.selects(s.outers[0]) && s.pos < |s.group| && s.outers[0].key == s.group[s.pos].key
  }

  lemma {:induction false} GroupIsAllMatches(j: Join, s: Place, n: nat)
    requires Good(j, s, n) && RowInGroup(j, s)
    ensures Matches(j, s.outers[0], s.rest) == []
  {
    assert s.group[s.pos].key == s.group[0].key;
    NoMatches(j, s.outers[0], s.rest);
  }

  /** Trying the next `k` rows of the group, with some of it left. */
  lemma {:induction false} MatchSome(j: Join, s: Place, n: nat, k: nat)
    requires Good(j, s, n) && RowInGroup(j, s) && s.pos + k < |s.group|
    ensures var some := Matches(j, s.outers[0], s.group[s.pos..s.pos + k]);
            var s' := s.(pos := s.pos + k, hasMatch := s.hasMatch || some != []);
            Good(j, s', n) && Output(j, s) == some + Output(j, s')
  {
    hide Ordered, Matches, RowRest, NestedLoop;
    var o, inners := s.outers[0], s.group[s.pos..] + s.rest;
    GroupKey(s, n);
    SameOrder(s, s.(pos := s.pos + k, hasMatch := s.hasMatch || Matches(j, o, s.group[s.pos..s.pos + k]) != []), n);
    assert inners[..k] == s.group[s.pos..s.pos + k] && inners[k..] == s.group[s.pos + k..] + s.rest;
    RestWithMatch(j, o, inners, k, s.hasMatch);
  }

  lemma {:induction false} GroupKey(s: Place, n: nat)
    requires Ordered(s, n) && s.pos < |s.group|
    ensures s.group[s.pos].key == s.group[0].key
  {
  }

  /** The order does not depend on how far the current row has come. */
  lemma {:induction false} SameOrder(s: Place, s': Place, n: nat)
    requires Ordered(s, n) && s'.outers == s.outers && s'.group == s.group && s'.rest == s.rest
    ensures Ordered(s', n)
  {
  }

  lemma {:induction false} RestWithMatch(j: Join, o: Row, inners: seq<Row>, k: nat, hasMatch: bool)
    requires k <= |inners| && j.selects(o)
    ensures var some := Matches(j, o, inners[..k]);
            RowRest(j, o, inners, hasMatch) == some + RowRest(j, o, inners[k..], hasMatch || some != [])
  {
    RowStep(j, o, inners, k, hasMatch);
  }

  /** Trying the rest of the group finishes the outer row. */
  lemma {:induction false} MatchRest(j: Join, s: Place, n: nat)
    requires Good(j, s, n) && RowInGroup(j, s)
    ensures var o := s.outers[0];
            var some := Matches(j, o, s.group[s.pos..]);
            var s' := Place(s.outers[1..], s.group, s.rest, 0, false);
            && Good(j, s', n)
            && Output(j, s) == some + (if s.hasMatch || some != [] then [] else Miss(j, o)) + Output(j, s')
  {
    var o := s.outers[0];
    GroupIsAllMatches(j, s, n);
    MatchesConcat(j, o, s.group[s.pos..], s.rest);
    OutputAtStart(j, s.outers[1..], s.group, s.rest);
  }

  /** Within the outer row's own group every pair that passes the conditions is a match. */
  lemma {:induction false} MatchesInGroup(j: Join, o: Row, inners: seq<Row>, i: nat)
    requires i < |inners| && inners[i].key == o.key && !HasNull(inners[i].key)
    ensures Matches(j, o, inners[..i + 1]) ==
              Matches(j, o, inners[..i]) + (if Accepts(j, Pair(j, o, inners[i])) then [Pair(j, o, inners[i])] else [])
  {
    assert inners[..i + 1] == inners[..i] + [inners[i]];
    MatchesConcat(j, o, inners[..i], [inners[i]]);
    assert [inners[i]][1..] == [];
  }
}
