/** How far back the validator's history reaches. */
module SchemaValidatorReach {
  import opened SchemaValidatorSpec
  import opened SchemaValidatorLease

  /** The changes reported to the running validator since it last forgot everything, in order. */
  ghost function Recent(calls: seq<Call>): seq<Delta> {
    if calls == [] then []
    else
      var before, c := calls[..|calls| - 1], calls[|calls| - 1];
      if Forgetting(c) then []
      else if IsChange(c) && IsStarted(before) then Recent(before) + [Delta(c.currVer, c.tables)]
      else Recent(before)
  }

  /** The items are changes of the sequence, each with at least as many changes behind it as there are items. */
  ghost predicate Placed(deltas: seq<Delta>, recent: seq<Delta>) {
    && |deltas| <= |recent|
    && forall i :: 0 <= i < |deltas| ==> PlacedAt(deltas[i], recent, |recent| - |deltas| + i)
  }

  ghost predicate PlacedAt(d: Delta, recent: seq<Delta>, last: int) {
    exists p :: 0 <= p <= last && p < |recent| && recent[p] == d
  }

  /** What is retained with room for `m` items: the last change, no more than `m` items, and fewer only if nothing has
      been dropped. */
  ghost predicate Retains(deltas: seq<Delta>, recent: seq<Delta>, m: nat) {
    && (deltas == [] <==> recent == [])
    && |deltas| <= m
    && Placed(deltas, recent)
    && (deltas != [] ==> deltas[|deltas| - 1] == recent[|recent| - 1] && (deltas[0] == recent[0] || |deltas| == m))
  }

  lemma {:induction false} PlacedMore(d: Delta, recent: seq<Delta>, last: int, last': int, c: Delta)
    requires PlacedAt(d, recent, last) && last <= last'
    ensures PlacedAt(d, recent + [c], last')
  {
    var p :| 0 <= p <= last && p < |recent| && recent[p] == d;
    assert (recent + [c])[p] == d;
  }

  lemma {:induction false} PlacedLast(recent: seq<Delta>, c: Delta)
    ensures PlacedAt(c, recent + [c], |recent|)
  {
    assert (recent + [c])[|recent|] == c;
  }

  lemma {:induction false} PlacedAppend(deltas: seq<Delta>, recent: seq<Delta>, c: Delta)
    requires Placed(deltas, recent)
    ensures Placed(deltas + [c], recent + [c])
  {
    hide PlacedAt;
    PlacedLast(recent, c);
    var longer := deltas + [c];
    forall i | 0 <= i < |deltas|
      ensures PlacedAt(longer[i], recent + [c], |recent| - |deltas| + i)
    {
      PlacedMore(deltas[i], recent, |recent| - |deltas| + i, |recent| - |deltas| + i, c);
    }
  }

  lemma {:induction false} PlacedMerge(deltas: seq<Delta>, recent: seq<Delta>, c: Delta)
    requires Placed(deltas, recent) && deltas != []
    ensures Placed(deltas[|deltas| - 1 := c], recent + [c])
  {
    hide PlacedAt;
    PlacedLast(recent, c);
    var n := |deltas|;
    var merged := deltas[n - 1 := c];
    forall i | 0 <= i < |merged|
      ensures PlacedAt(merged[i], recent + [c], |recent| + 1 - n + i)
    {
      if i < n - 1 {
        PlacedMore(deltas[i], recent, |recent| - n + i, |recent| + 1 - n + i, c);
      }
    }
  }

  lemma {:induction false} PlacedDrop(deltas: seq<Delta>, recent: seq<Delta>)
    requires Placed(deltas, recent) && deltas != []
    ensures Placed(deltas[1..], recent)
  {
    hide PlacedAt;
    var rest := deltas[1..];
    forall i | 0 <= i < |rest|
      ensures PlacedAt(rest[i], recent, |recent| - |rest| + i)
    {
      assert rest[i] == deltas[i + 1];
    }
  }

  lemma {:induction false} EnqueueRetains(deltas: seq<Delta>, recent: seq<Delta>, d: Delta, m: nat)
    requires Retains(deltas, recent, m) && m > 0
    ensures Retains(Enqueue(deltas, d, m), recent + [d], m)
  {
    hide Placed, ContainedIn;
    if deltas == [] {
      OnePlaced(d);
      assert recent + [d] == [d];
    } else {
      var last := |deltas| - 1;
      if last != 0 && ContainedIn(deltas[last].tables, d.tables) {
        PlacedMerge(deltas, recent, d);
      } else {
        PlacedAppend(deltas, recent, d);
        PlacedDrop(deltas + [d], recent + [d]);
      }
    }
  }

  lemma {:induction false} OnePlaced(d: Delta)
    ensures Placed([d], [d])
  {
    assert [d][0] == d;
    assert PlacedAt(d, [d], 0);
  }

  /** All changes come with the same count. */
  predicate Constant(calls: seq<Call>, m: int) {
    forall n :: 0 <= n < |calls| && IsChange(calls[n]) ==> calls[n].maxCount == m
  }

  lemma {:induction false} RunRetains(lease: int, calls: seq<Call>, m: nat)
    requires m > 0 && Constant(calls, m)
    ensures Retains(Run(New(lease), calls).deltas, Recent(calls), m)
    decreases |calls|
  {
    hide Retains, Enqueue, IsStarted, FieldsMean;
    if calls == [] {
      NothingRetained(m);
    } else {
      var k := |calls| - 1;
      var before, c := calls[..k], calls[k];
      RunRetains(lease, before, m);
      StartedIs(lease, before);
      RetainsChanges(lease, before);
      NothingRetained(m);
      if IsChange(c) && IsStarted(before) {
        EnqueueRetains(Run(New(lease), before).deltas, Recent(before), Delta(c.currVer, c.tables), m);
      }
    }
  }

  lemma {:induction false} StartedIs(lease: int, calls: seq<Call>)
    ensures Run(New(lease), calls).started <==> IsStarted(calls)
  {
    RunMeans(lease, calls);
  }

  lemma {:induction false} NothingRetained(m: nat)
    ensures Retains([], [], m)
  {
  }

  /** With room for `m` items the history reaches back over at least the last `m` changes. */
  lemma {:induction false} HistoryReach(lease: int, calls: seq<Call>, m: nat) returns (p: nat)
    requires m > 0 && Constant(calls, m) && Recent(calls) != []
    ensures var v, recent := Run(New(lease), calls), Recent(calls);
            && 0 < |v.deltas| <= m
            && p < |recent| && v.deltas[0] == recent[p] && (p == 0 || p + m <= |recent|)
  {
    hide Retains, Constant;
    RunRetains(lease, calls, m);
    p := FirstPlace(Run(New(lease), calls).deltas, Recent(calls), m);
  }

  lemma {:induction false} FirstPlace(deltas: seq<Delta>, recent: seq<Delta>, m: nat) returns (p: nat)
    requires Retains(deltas, recent, m) && recent != []
    ensures 0 < |deltas| <= m && p < |recent| && deltas[0] == recent[p] && (p == 0 || p + m <= |recent|)
  {
    if deltas[0] == recent[0] {
      p := 0;
    } else {
      assert PlacedAt(deltas[0], recent, |recent| - |deltas| + 0);
      p :| 0 <= p <= |recent| - |deltas| && p < |recent| && recent[p] == deltas[0];
    }
  }

  /** Recent changes are changes, with increasing versions. */
  lemma {:induction false} RecentOrdered(calls: seq<Call>)
    requires Ordered(calls)
    ensures forall i :: 0 <= i < |Recent(calls)| ==> Recent(calls)[i] in Changes(calls)
    ensures Increasing(Recent(calls))
    decreases |calls|
  {
    if calls != [] {
      RecentOrdered(calls[..|calls| - 1]);
    }
  }

  /** So a check of any version from the `m`-th last change on is decided by the tables alone: it succeeds exactly if
      no later change touched any of them. */
  lemma {:induction false} RecentDecided(lease: int, calls: seq<Call>, m: nat, time: int, version: int, tables: seq<int>)
    requires lease != 0 && m > 0 && Ordered(calls) && Constant(calls, m) && IsOlder(lease, calls, version) && tables != []
    requires var recent := Recent(calls);
             recent != [] && version >= recent[if |recent| <= m then 0 else |recent| - m].version
    ensures Check(Run(New(lease), calls), time, version, tables) ==
              if forall c :: c in Changes(calls) && c.version > version ==> forall x :: x in tables ==> x !in c.tables
              then ResultSucc else ResultFail
  {
    hide Ordered, Constant, Recent, Kept, Check, Run;
    ConstantCountKeeps(lease, calls, m) by { assert Constant(calls, m); ConstantIs(calls, m); }
    var p := HistoryReach(lease, calls, m);
    RecentOrdered(calls);
    CheckExact(lease, calls, time, version, tables);
    forall c | c in Changes(calls)
      ensures Related(c.tables, tables) <==> !(forall x :: x in tables ==> x !in c.tables)
    {
      if Related(c.tables, tables) {
        var x :| x in c.tables && x in tables;
      }
    }
  }

  lemma {:induction false} ConstantIs(calls: seq<Call>, m: int)
    requires Constant(calls, m)
    ensures forall n :: 0 <= n < |calls| && IsChange(calls[n]) ==> calls[n].maxCount == m
  {
  }

  /** Changes after the first that each touch all tables of the one before take no room: the history then reaches back
      to the first change, however many there are. */
  lemma {:induction false} ChainReaches(lease: int, calls: seq<Call>, m: nat)
    requires m >= 2 && Constant(calls, m) && Recent(calls) != []
    requires var recent := Recent(calls);
             forall i, j :: 1 <= i < |recent| && j == i + 1 < |recent| ==> Swallows(recent[j], recent[i])
    ensures var v, recent := Run(New(lease), calls), Recent(calls);
            |v.deltas| <= 2 && v.deltas != [] && v.deltas[0] == recent[0]
    decreases |calls|
  {
    hide Enqueue, IsStarted, Retains, Constant;
    var k := |calls| - 1;
    var before, c := calls[..k], calls[k];
    assert Constant(before, m) by { ConstantBefore(calls, m); }
    RunRetains(lease, before, m);
    RunRetains(lease, calls, m);
    StartedIs(lease, before);
    RetainsChanges(lease, before);
    var v, r := Run(New(lease), before), Recent(before);
    RetainsFacts(v.deltas, r, m);
    if IsChange(c) && IsStarted(before) {
      assert Recent(calls)[..|r|] == r;
      if r != [] {
        ChainBefore(r, Recent(calls));
        ChainReaches(lease, before, m);
        assert c.maxCount == m by { ConstantAt(calls, m, k); }
        var recent := Recent(calls);
        assert recent[|r|] == Delta(c.currVer, c.tables) && recent[|r| - 1] == r[|r| - 1];
        assert |r| >= 2 ==> Swallows(recent[|r|], recent[|r| - 1]);
        ChainStep(v.deltas, r, Delta(c.currVer, c.tables), m);
      } else {
        assert c.maxCount == m by { ConstantAt(calls, m, k); }
        assert Enqueue([], Delta(c.currVer, c.tables), m) == [Delta(c.currVer, c.tables)] by { FirstItem(Delta(c.currVer, c.tables), m); }
      }
    } else {
      ChainReaches(lease, before, m);
    }
  }

  /** The later change touches all tables of the earlier one, and no fewer. */
  predicate Swallows(later: Delta, d: Delta) {
    |d.tables| <= |later.tables| && forall x :: x in d.tables ==> x in later.tables
  }

  lemma {:induction false} FirstItem(d: Delta, m: nat)
    requires m > 0
    ensures Enqueue([], d, m) == [d]
  {
  }

  lemma {:induction false} ConstantBefore(calls: seq<Call>, m: int)
    requires Constant(calls, m) && calls != []
    ensures Constant(calls[..|calls| - 1], m)
  {
  }

  lemma {:induction false} ConstantAt(calls: seq<Call>, m: int, k: nat)
    requires Constant(calls, m) && k < |calls| && IsChange(calls[k])
    ensures calls[k].maxCount == m
  {
  }

  lemma {:induction false} RetainsFacts(deltas: seq<Delta>, recent: seq<Delta>, m: nat)
    requires Retains(deltas, recent, m)
    ensures (deltas == [] <==> recent == []) && (deltas != [] ==> deltas[|deltas| - 1] == recent[|recent| - 1])
    ensures |deltas| <= |recent|
  {
  }

  lemma {:induction false} ChainBefore(r: seq<Delta>, recent: seq<Delta>)
    requires |r| <= |recent| && recent[..|r|] == r
    requires forall i, j :: 1 <= i < |recent| && j == i + 1 < |recent| ==> Swallows(recent[j], recent[i])
    ensures forall i, j :: 1 <= i < |r| && j == i + 1 < |r| ==> Swallows(r[j], r[i])
  {
    forall i, j | 1 <= i < |r| && j == i + 1 < |r|
      ensures Swallows(r[j], r[i])
    {
      assert r[i] == recent[i] && r[j] == recent[j];
    }
  }

  lemma {:induction false} ChainStep(deltas: seq<Delta>, r: seq<Delta>, d: Delta, m: nat)
    requires m >= 2 && 0 < |deltas| <= 2 && |deltas| <= |r| && deltas[0] == r[0] && deltas[|deltas| - 1] == r[|r| - 1]
    requires |r| >= 2 ==> Swallows(d, r[|r| - 1])
    ensures 0 < |Enqueue(deltas, d, m)| <= 2 && Enqueue(deltas, d, m)[0] == r[0]
  {
  }
}
