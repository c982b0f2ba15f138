/** MergeJoinExec: joins two sorted inputs chunk by chunk, keeping its place between calls of Next. */
module MergeJoinExec {
  import opened MergeJoinSpec
  import opened MergeJoinMeaning
  import opened MergeJoinInner
  import opened MergeJoinSteps

  class MergeJoin {
    const join: Join
    /** The number of join keys. */
    const n: nat
    const inner: InnerTable
    var outerReader: seq<seq<Row>>
    var outerChk: seq<Row>
    var selected: seq<bool>
    var outerRow: Option<nat>
    var hasMatch: bool
    var innerRows: seq<Ref>
    var innerPos: nat

    ghost function OuterRest(): seq<Row>
      reads this
      requires outerRow.Some? ==> outerRow.value < |outerChk|
    {
      (if outerRow.Some? then outerChk[outerRow.value..] else []) + Flatten(outerReader)
    }

    /** The objects are consistent: the group is alive, and the outer chunk has been filtered. */
    ghost predicate Shaped()
      reads this, inner
    {
      && inner.Valid() && inner.FirstOK() && (inner.firstRow4Key == None ==> inner.Rest() == [])
      && ValidRefs(inner.pool, innerRows) && Within(innerRows, inner.resultQueue)
      && innerPos <= |innerRows|
      && (outerRow.Some? ==> outerRow.value < |outerChk|)
      && |selected| == |outerChk| && (forall i :: 0 <= i < |outerChk| ==> selected[i] == join.selects(outerChk[i]))
      && (forall i :: 0 <= i < |outerReader| ==> |outerReader[i]| > 0)
    }

    /** Where the join stands. */
    ghost function At(): (s: Place)
      reads this, inner
      requires Shaped()
      ensures s.pos <= |s.group|
    {
      Place(OuterRest(), DerefAll(inner.pool, innerRows), inner.Pending(), innerPos, hasMatch)
    }

    ghost predicate Valid()
      reads this, inner
    {
      Shaped() && Good(join, At(), n)
    }

    /** Everything that has not been returned yet. */
    ghost function Remaining(): seq<Joined>
      reads this, inner
      requires Valid()
    {
      Output(join, At())
    }

    /** Before the first call of Next nothing has been read. */
    ghost predicate Unprepared(outers: seq<seq<Row>>, inners: seq<seq<Row>>)
      reads this, inner
    {
      && inner.Valid() && inner.firstRow4Key == None && inner.Rest() == NonNull(Flatten(inners))
      && outerReader == outers && (forall i :: 0 <= i < |outers| ==> |outers[i]| > 0)
      && outerChk == [] && selected == [] && outerRow == None && !hasMatch && innerRows == [] && innerPos == 0
    }

    /** Children deliver chunks that are empty only at the end. */
    constructor (join: Join, n: nat, outers: seq<seq<Row>>, inners: seq<seq<Row>>)
      requires forall i :: 0 <= i < |outers| ==> |outers[i]| > 0
      requires forall i :: 0 <= i < |inners| ==> |inners[i]| > 0
      ensures Unprepared(outers, inners) && fresh(inner) && this.join == join && this.n == n
    {
      this.join := join;
      this.n := n;
      inner := new InnerTable(inners);
      outerReader := outers;
      outerChk := [];
      selected := [];
      outerRow := None;
      hasMatch := false;
      innerRows := [];
      innerPos := 0;
    }

    /** Reads the first inner group. If both children deliver their rows sorted on the join key, what is to be
        produced is the nested-loop join of all their rows. */
    method Prepare(ghost outers: seq<seq<Row>>, ghost inners: seq<seq<Row>>)
      requires Unprepared(outers, inners) && SortedRows(Flatten(outers), n) && SortedRows(Flatten(inners), n)
      modifies this, inner
      ensures Valid() && Remaining() == NestedLoop(join, Flatten(outers), Flatten(inners))
    {
      hide NonNull, Flatten, NestedLoop, Output, Good, SortedRows, ValidRefs, DerefAll, Within, GroupSize, Keyed, NoNulls;
      ghost var all, os := NonNull(Flatten(inners)), Flatten(outers);
      NonNullSorted(Flatten(inners), n);
      LoopIgnoresNulls(join, os, Flatten(inners));
      inner.Init();
      SortedKeyed(all, n);
      innerRows := inner.RowsWithSameKey(n);
      FirstGroup(join, n, os, all, DerefAll(inner.pool, innerRows), inner.Pending());
      assert OuterRest() == [] + os == os;
      assert Shaped();
    }

    // ------------------------------------------------------------------ fetching

    /** The next group replaces the current one. */
    method FetchNextInnerRows()
      requires Shaped() && Keyed(inner.Pending(), n)
      modifies this`innerRows, this`innerPos, inner
      ensures Shaped() && innerPos == 0 && OuterRest() == old(OuterRest())
      ensures IsNextGroup(old(inner.Pending()), DerefAll(inner.pool, innerRows), inner.Pending())
    {
      ghost var all := inner.Pending();
      innerRows := inner.RowsWithSameKey(n);
      innerPos := 0;
      GroupSplit(all, DerefAll(inner.pool, innerRows), inner.Pending());
    }

    /** Reads and filters the next outer chunk; there are no rows at the end. */
    method FetchNextOuterRows()
      requires Shaped() && outerRow == None
      modifies this`outerReader, this`outerChk, this`selected, this`outerRow
      ensures Shaped() && At() == old(At())
      ensures outerRow == None ==> OuterRest() == []
    {
      if |outerReader| == 0 {
        outerChk := [];
        selected := [];
        outerRow := None;
      } else {
        ghost var before := outerReader;
        var chk := outerReader[0];
        var sel := VectorizedFilter(chk);
        outerChk := chk;
        selected := sel;
        outerReader := outerReader[1..];
        outerRow := Some(0);
        assert outerChk[0..] == outerChk;
        assert [] + Flatten(before) == outerChk + Flatten(outerReader);
      }
    }

    method VectorizedFilter(rows: seq<Row>) returns (sel: seq<bool>)
      ensures |sel| == |rows| && forall i :: 0 <= i < |rows| ==> sel[i] == join.selects(rows[i])
    {
      sel := [];
      var i := 0;
      while i < |rows|
        invariant 0 <= i <= |rows| && |sel| == i && forall k :: 0 <= k < i ==> sel[k] == join.selects(rows[k])
      {
        sel := sel + [join.selects(rows[i])];
        i := i + 1;
      }
    }

    // ------------------------------------------------------------------ the joiner

    method MakeJoinRow(outer: Row, innerRow: Row) returns (p: Joined)
      ensures p == Pair(join, outer, innerRow) == Combined(join, outer, innerRow)
    {
      match join.kind {
        case LeftOuter => p := Joined(outer, innerRow);
        case RightOuter => p := Joined(innerRow, outer);
        case Inner =>
          if join.outerIsRight {
            p := Joined(innerRow, outer);
          } else {
            p := Joined(outer, innerRow);
          }
      }
    }

    method OnMissMatch(outer: Row, chk: seq<Joined>) returns (out: seq<Joined>)
      ensures out == chk + Miss(join, outer) && |out| <= |chk| + 1
      ensures out == chk + if join.kind == Inner then [] else [Combined(join, outer, join.defaultInner)]
    {
      match join.kind {
        case LeftOuter => out := chk + [Joined(outer, join.defaultInner)];
        case RightOuter => out := chk + [Joined(join.defaultInner, outer)];
        case Inner => out := chk + [];
      }
    }

    /** Joins the outer row with as many rows of its group as fit into the chunk, then filters them. */
    method TryToMatchInners(outer: Row, chk: seq<Joined>, required: nat) returns (out: seq<Joined>, matched: bool)
      requires Shaped() && |chk| < required && innerPos < |innerRows|
      requires var group := DerefAll(inner.pool, innerRows);
               forall i :: 0 <= i < |group| ==> group[i].key == outer.key && !HasNull(group[i].key)
      modifies this`innerPos
      ensures Shaped() && old(innerPos) < innerPos <= |innerRows|
      ensures innerPos == |innerRows| || innerPos - old(innerPos) == required - |chk|
      ensures innerPos - old(innerPos) <= required - |chk|
      ensures var some := Matches(join, outer, DerefAll(inner.pool, innerRows)[old(innerPos)..innerPos]);
              out == chk + some && matched == (some != [])
    {
      ghost var group := DerefAll(inner.pool, innerRows);
      ghost var segment := group[innerPos..];
      var candidates: seq<Joined> := [];
      var start, numToAppend := innerPos, required - |chk|;
      while innerPos < |innerRows| && numToAppend > 0
        invariant start <= innerPos <= |innerRows| && |candidates| == innerPos - start
        invariant numToAppend == required - |chk| - (innerPos - start) && numToAppend >= 0
        invariant forall i :: 0 <= i < |candidates| ==> candidates[i] == Pair(join, outer, segment[i])
      {
        var r := innerRows[innerPos];
        assert segment[innerPos - start] == group[innerPos] == Deref(inner.pool, r);
        var p := MakeJoinRow(outer, inner.pool[r.chunk][r.idx]);
        candidates := candidates + [p];
        innerPos := innerPos + 1;
        numToAppend := numToAppend - 1;
      }
      out := Filter(outer, chk, candidates, segment);
      matched := |out| > |chk|;
      assert segment[..|candidates|] == group[start..innerPos];
    }

    /** Copies the joined rows that pass the conditions to the output; all of them if there are none. */
    method Filter(outer: Row, chk: seq<Joined>, candidates: seq<Joined>, ghost segment: seq<Row>) returns (out: seq<Joined>)
      requires |candidates| <= |segment|
      requires forall i :: 0 <= i < |candidates| ==> candidates[i] == Pair(join, outer, segment[i])
      requires forall i :: 0 <= i < |segment| ==> segment[i].key == outer.key && !HasNull(segment[i].key)
      ensures out == chk + Matches(join, outer, segment[..|candidates|])
    {
      out := chk;
      var i := 0;
      assert segment[..0] == [] && chk + [] == chk;
      while i < |candidates|
        invariant 0 <= i <= |candidates| && out == chk + Matches(join, outer, segment[..i])
      {
        MatchesInGroup(join, outer, segment, i);
        if !join.conditions || join.accepts(candidates[i]) {
          assert chk + Matches(join, outer, segment[..i]) + [candidates[i]] == chk + (Matches(join, outer, segment[..i]) + [candidates[i]]);
          out := out + [candidates[i]];
        }
        i := i + 1;
      }
    }

    // ------------------------------------------------------------------ joining

    method Compare3() returns (c: int)
      requires Shaped() && outerRow.Some? && innerPos < |innerRows|
      requires |outerChk[outerRow.value].key| == |Deref(inner.pool, innerRows[innerPos]).key|
      ensures c == Compare(outerChk[outerRow.value].key, Deref(inner.pool, innerRows[innerPos]).key)
    {
      var r := innerRows[innerPos];
      c := CompareChunkRow(outerChk[outerRow.value].key, inner.pool[r.chunk][r.idx].key);
    }

    /** Moves on to the next outer row. */
    method AdvanceOuter()
      requires Shaped() && outerRow.Some?
      modifies this`outerRow, this`hasMatch, this`innerPos
      ensures Shaped() && old(OuterRest()) != []
      ensures At() == Place(old(OuterRest())[1..], old(At().group), old(At().rest), 0, false)
    {
      ghost var i, before := outerRow.value, OuterRest();
      outerRow := if outerRow.value + 1 < |outerChk| then Some(outerRow.value + 1) else None;
      hasMatch := false;
      innerPos := 0;
      assert before == [outerChk[i]] + (outerChk[i + 1..] + Flatten(outerReader));
      assert i + 1 == |outerChk| ==> outerChk[i + 1..] == [];
    }

    /** The outer row comes after the current group. */
    method SkipInnerGroup()
      requires Valid() && RowBehindGroup(join, At())
      modifies this`innerRows, this`innerPos, inner
      ensures Valid() && Remaining() == old(Remaining())
      ensures |At().outers| == old(|At().outers|) && |At().group| + |At().rest| < old(|At().group| + |At().rest|)
    {
      hide NonNull, Flatten, NestedLoop, Output, Good, RowBehindGroup, IsNextGroup;
      ghost var s := At();
      SkipGroup(join, s, n);
      RestKeyed(join, s, n);
      FetchNextInnerRows();
      ghost var s' := At();
      GroupTaken(join, s, n, s'.group, s'.rest);
      BehindMeansGroup(join, s);
    }

    /** The outer row has no partner. */
    method MissOuterRow(chk: seq<Joined>) returns (out: seq<Joined>)
      requires Valid() && outerRow.Some? && RowHasNoPartner(join, At())
      modifies this`outerRow, this`hasMatch, this`innerPos
      ensures Valid() && out + Remaining() == chk + old(Remaining())
      ensures |out| <= |chk| + 1 && |At().outers| < old(|At().outers|)
    {
      hide NonNull, Flatten, NestedLoop, Output, Good, RowHasNoPartner;
      ghost var s := At();
      MissRow(join, s, n);
      CurrentRow();
      out := OnMissMatch(outerChk[outerRow.value], chk);
      AdvanceOuter();
      assert out + Remaining() == chk + (Miss(join, s.outers[0]) + Remaining());
    }

    /** All of the group has been tried with the outer row. */
    method FinishOuterRow(outer: Row, chk: seq<Joined>) returns (out: seq<Joined>)
      requires Shaped() && outerRow.Some?
      modifies this`outerRow, this`hasMatch, this`innerPos
      ensures Shaped() && old(OuterRest()) != []
      ensures At() == Place(old(OuterRest())[1..], old(At().group), old(At().rest), 0, false)
      ensures out == chk + (if old(hasMatch) then [] else Miss(join, outer))
      ensures |out| <= |chk| + (if old(hasMatch) then 0 else 1)
    {
      out := chk;
      assert chk + [] == chk;
      if !hasMatch {
        out := OnMissMatch(outer, out);
      }
      AdvanceOuter();
    }

    /** The outer row belongs to the current group. */
    method MatchOuterRow(chk: seq<Joined>, required: nat) returns (out: seq<Joined>)
      requires Valid() && outerRow.Some? && RowInGroup(join, At()) && |chk| < required
      modifies this`outerRow, this`hasMatch, this`innerPos
      ensures Valid() && out + Remaining() == chk + old(Remaining()) && |out| <= required
      ensures |At().group| + |At().rest| == old(|At().group| + |At().rest|)
      ensures || |At().outers| < old(|At().outers|)
              || (|At().outers| == old(|At().outers|) && |At().group| - At().pos < old(|At().group| - At().pos))
    {
      hide NonNull, Flatten, NestedLoop, Output, Good, Matches, RowInGroup, ValidRefs, Within, Miss, HasNull;
      ghost var s, before := At(), innerPos;
      CurrentRow();
      var outer := outerChk[outerRow.value];
      GroupOfRow(join, s, n);
      var matched;
      out, matched := TryToMatchInners(outer, chk, required);
      ghost var some := Matches(join, outer, s.group[before..innerPos]);
      hasMatch := hasMatch || matched;
      MatchesFit(join, outer, s.group[before..innerPos]);
      if innerPos == |innerRows| {
        MatchRest(join, s, n);
        assert s.group[before..] == s.group[before..innerPos];
        out := FinishOuterRow(outer, out);
        Regroup(chk, some, if s.hasMatch || some != [] then [] else Miss(join, outer), Remaining());
      } else {
        MatchSome(join, s, n, innerPos - before);
        Regroup(chk, some, [], Remaining());
      }
    }

    lemma {:induction false} CurrentRow()
      requires Shaped() && outerRow.Some?
      ensures OuterRest() != [] && OuterRest()[0] == outerChk[outerRow.value]
    {
    }

    /** Fills the chunk until it has the required rows or the outer input ends. */
    method JoinToChunk(chk: seq<Joined>, required: nat) returns (out: seq<Joined>, hasMore: bool)
      requires Valid() && |chk| < required
      modifies this, inner
      ensures Valid() && out + Remaining() == chk + old(Remaining()) && |out| <= required
      ensures hasMore ==> |out| == required
      ensures !hasMore ==> Remaining() == []
    {
      hide NonNull, Flatten, NestedLoop, Output, Good, RowInGroup, RowHasNoPartner, RowBehindGroup;
      out := chk;
      while true
        invariant Valid() && out + Remaining() == chk + old(Remaining()) && |out| < required
        decreases |At().outers|, |At().group| + |At().rest|, |At().group| - At().pos
      {
        if outerRow == None {
          FetchNextOuterRows();
          if outerRow == None {
            NothingLeft(join, At());
            return out, false;
          }
        }
        CurrentRow();
        var cmpResult := -1;
        if selected[outerRow.value] && |innerRows| > 0 {
          SameColumns(join, At(), n);
          cmpResult := Compare3();
        }
        Verdict(join, At(), n, cmpResult);
        if cmpResult > 0 {
          SkipInnerGroup();
        } else if cmpResult < 0 {
          out := MissOuterRow(out);
          if |out| == required {
            return out, true;
          }
        } else {
          out := MatchOuterRow(out, required);
          if |out| == required {
            return out, true;
          }
        }
      }
    }

    /** Next returns the following rows of the nested-loop join: as many as required, or all that are left. */
    method Next(required: nat) returns (out: seq<Joined>)
      requires Valid() && required >= 1
      modifies this, inner
      ensures Valid() && out + Remaining() == old(Remaining())
      ensures |out| == required || (|out| < required && Remaining() == [])
    {
      hide Good, Output, Flatten, ValidRefs, DerefAll, Within;
      var hasMore;
      out, hasMore := JoinToChunk([], required);
      assert [] + old(Remaining()) == old(Remaining());
    }
  }

  /** A whole run: however the inputs are cut into chunks and however many rows each call asks for, the
      rows returned are the nested-loop join, in the order of the outer rows. */
  method JoinAll(join: Join, n: nat, outers: seq<seq<Row>>, inners: seq<seq<Row>>, required: nat) returns (rows: seq<Joined>)
    requires (forall i :: 0 <= i < |outers| ==> |outers[i]| > 0) && (forall i :: 0 <= i < |inners| ==> |inners[i]| > 0)
    requires Ascending(Flatten(outers), n) && Ascending(Flatten(inners), n) && required >= 1
    ensures rows == NestedLoop(join, Flatten(outers), Flatten(inners))
    ensures IsJoin(join, Flatten(outers), Flatten(inners), rows)
  {
    hide *;
    LoopIsJoin(join, Flatten(outers), Flatten(inners));
    AscendingIsSorted(Flatten(outers), n);
    AscendingIsSorted(Flatten(inners), n);
    var e := new MergeJoin(join, n, outers, inners);
    e.Prepare(outers, inners);
    ghost var all := e.Remaining();
    rows := [];
    var done := false;
    while !done
      invariant e.Valid() && fresh(e) && fresh(e.inner) && rows + e.Remaining() == all
      invariant done ==> e.Remaining() == []
      decreases !done, |e.Remaining()|
    {
      var out := e.Next(required);
      assert rows + (out + e.Remaining()) == (rows + out) + e.Remaining();
      rows := rows + out;
      done := |out| < required;
    }
    assert rows + [] == rows;
  }

  // ------------------------------------------------------------------ which move comes next

  lemma {:induction false} Regroup(chk: seq<Joined>, some: seq<Joined>, more: seq<Joined>, later: seq<Joined>)
    ensures (chk + some + more) + later == chk + (some + more + later)
    ensures more == [] ==> chk + some + more == chk + some && some + more + later == some + later
  {
  }

  lemma {:induction false} NothingLeft(j: Join, s: Place)
    requires s.pos <= |s.group| && s.outers == []
    ensures Output(j, s) == []
  {
  }

  lemma {:induction false} SameColumns(j: Join, s: Place, n: nat)
    requires Good(j, s, n) && s.outers != [] && s.group != []
    ensures s.pos < |s.group| && |s.outers[0].key| == n && |s.group[s.pos].key| == n
  {
    assert (s.group + s.rest)[s.pos] == s.group[s.pos];
  }

  lemma {:induction false} Verdict(j: Join, s: Place, n: nat, c: int)
    requires Good(j, s, n) && s.outers != []
    requires if j.selects(s.outers[0]) && s.group != []
             then s.pos < |s.group| && |s.outers[0].key| == |s.group[s.pos].key| && c == Compare(s.outers[0].key, s.group[s.pos].key)
             else c == -1
    ensures c > 0 ==> RowBehindGroup(j, s)
    ensures c < 0 ==> RowHasNoPartner(j, s)
    ensures c == 0 ==> RowInGroup(j, s)
  {
    if c == 0 {
      CompareEqual(s.outers[0].key, s.group[s.pos].key);
    }
  }

  lemma {:induction false} RestKeyed(j: Join, s: Place, n: nat)
    requires Good(j, s, n)
    ensures Keyed(s.rest, n)
  {
    forall i | 0 <= i < |s.rest|
      ensures |s.rest[i].key| == n
    {
      assert (s.group + s.rest)[|s.group| + i] == s.rest[i];
    }
  }

  lemma {:induction false} BehindMeansGroup(j: Join, s: Place)
    requires RowBehindGroup(j, s)
    ensures |s.group| > 0
  {
  }

  lemma {:induction false} GroupTaken(j: Join, s: Place, n: nat, group: seq<Row>, rest: seq<Row>)
    requires Good(j, s, n) && IsNextGroup(s.rest, group, rest)
    ensures Good(j, Place(s.outers, group, rest, 0, false), n)
    ensures Output(j, Place(s.outers, group, rest, 0, false)) == NestedLoop(j, s.outers, s.rest)
    ensures |group| + |rest| == |s.rest|
  {
    NextGroup(j, s, n, group, rest);
    OutputAtStart(j, s.outers, group, rest);
  }

  lemma {:induction false} GroupOfRow(j: Join, s: Place, n: nat)
    requires Good(j, s, n) && RowInGroup(j, s)
    ensures s.outers != [] && s.pos < |s.group|
    ensures forall i :: 0 <= i < |s.group| ==> s.group[i].key == s.outers[0].key && !HasNull(s.group[i].key)
  {
    forall i | 0 <= i < |s.group|
      ensures s.group[i].key == s.outers[0].key && !HasNull(s.group[i].key)
    {
      assert (s.group + s.rest)[i] == s.group[i];
      assert s.group[s.pos].key == s.group[0].key;
    }
  }

  lemma {:induction false} MatchesFit(j: Join, o: Row, inners: seq<Row>)
    ensures |Matches(j, o, inners)| <= |inners|
    decreases |inners|
  {
    if inners != [] {
      MatchesFit(j, o, inners[1..]);
    }
  }

  // ------------------------------------------------------------------ groups

  /** The group and what follows are the rows, cut where the first key ends. */
  ghost predicate IsNextGroup(all: seq<Row>, group: seq<Row>, rest: seq<Row>) {
    && group + rest == all
    && (group == [] ==> rest == [])
    && (group != [] ==> Group(group, group[0].key) && (rest != [] ==> rest[0].key != group[0].key))
  }

  lemma {:induction false} GroupSplit(all: seq<Row>, group: seq<Row>, rest: seq<Row>)
    requires var k := if all == [] then 0 else GroupSize(all, all[0].key); group == all[..k] && rest == all[k..]
    ensures IsNextGroup(all, group, rest)
  {
  }

  lemma {:induction false} SortedKeyed(rows: seq<Row>, n: nat)
    requires SortedRows(rows, n)
    ensures Keyed(rows, n)
  {
  }

  lemma {:induction false} TailSorted(rows: seq<Row>, n: nat)
    requires SortedRows(rows, n) && rows != []
    ensures SortedRows(rows[1..], n)
  {
    hide Compare;
  }

  lemma {:induction false} ConsSorted(r: Row, rest: seq<Row>, n: nat)
    requires SortedRows(rest, n) && |r.key| == n && forall i :: 0 <= i < |rest| ==> Compare(r.key, rest[i].key) <= 0
    ensures SortedRows([r] + rest, n)
  {
    hide Compare;
  }

  lemma {:induction false} NonNullSorted(rows: seq<Row>, n: nat)
    requires SortedRows(rows, n)
    ensures SortedRows(NonNull(rows), n) && NoNulls(NonNull(rows))
    ensures forall i :: 0 <= i < |NonNull(rows)| ==> NonNull(rows)[i] in rows
    decreases |rows|
  {
    if rows != [] {
      var tail := rows[1..];
      assert rows == [rows[0]] + tail;
      TailSorted(rows, n);
      NonNullSorted(tail, n);
      var rest := NonNull(tail);
      forall i | 0 <= i < |rest|
        ensures rest[i] in rows && Compare(rows[0].key, rest[i].key) <= 0
      {
        var k :| 0 <= k < |tail| && tail[k] == rest[i];
        assert rows[k + 1] == rest[i];
      }
      hide Compare;
      if NonNull(rows) != rest {
        ConsSorted(rows[0], rest, n);
      }
    }
  }

  lemma {:induction false} FirstGroup(j: Join, n: nat, outers: seq<Row>, all: seq<Row>, group: seq<Row>, rest: seq<Row>)
    requires SortedRows(outers, n) && SortedRows(all, n) && NoNulls(all)
    requires var k := if all == [] then 0 else GroupSize(all, all[0].key); group == all[..k] && rest == all[k..]
    ensures Good(j, Place(outers, group, rest, 0, false), n)
    ensures Output(j, Place(outers, group, rest, 0, false)) == NestedLoop(j, outers, all)
  {
    GroupSplit(all, group, rest);
    OutputAtStart(j, outers, group, rest);
    var s := Place(outers, [], [], 0, false);
    if group != [] {
      forall i | 0 <= i < |rest|
        ensures rest[i].key != group[0].key
      {
        assert group[0] == all[0] && rest[0] == all[|group|] && rest[i] == all[|group| + i];
        GroupLeftBehind(all, n, |group|, |group| + i);
      }
    }
  }
}
