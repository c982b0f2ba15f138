/** The schema validator as a value: a bounded, lossy history of schema changes, and what it still decides
    correctly. Times are in milliseconds; the conversion of timestamps is left to the caller. */
module SchemaValidatorSpec {

  datatype Delta = Delta(version: int, tables: seq<int>)

  datatype CheckResult = ResultSucc | ResultFail | ResultUnknown

  datatype Validator = Validator(started: bool, lease: int, latest: int, expire: int, deltas: seq<Delta>)

  /** A call that changes the validator. `maxCount` is the global maximum delta count at that moment. */
  datatype Call =
    | Update(grantTime: int, oldVer: int, currVer: int, tables: seq<int>, maxCount: int)
    | Stop
    | Restart
    | Reset

  /** The zero time of a fresh validator, in milliseconds before the epoch. */
  const ZERO_TIME: int := -62135596800000

  function New(lease: int): Validator { Validator(true, lease, 0, ZERO_TIME, []) }

  predicate ContainedIn(a: seq<int>, b: seq<int>) {
    |a| <= |b| && forall x :: x in a ==> x in b
  }

  predicate Related(a: seq<int>, b: seq<int>) {
    exists x :: x in a && x in b
  }

  /** The first item is never merged into, so that the history reaches back further. */
  function Enqueue(deltas: seq<Delta>, d: Delta, maxCount: int): seq<Delta> {
    if maxCount <= 0 then deltas
    else if deltas == [] then [d]
    else
      var last := |deltas| - 1;
      var longer := if last != 0 && ContainedIn(deltas[last].tables, d.tables) then deltas[last := d] else deltas + [d];
      if |longer| > maxCount then longer[1..] else longer
  }

  function Apply(v: Validator, c: Call): Validator {
    match c
    case Update(grantTime, oldVer, currVer, tables, maxCount) =>
      if !v.started then v
      else
        var v1 := v.(latest := currVer, expire := grantTime + v.lease - 1);
        if currVer != oldVer then v1.(deltas := Enqueue(v1.deltas, Delta(currVer, tables), maxCount)) else v1
    case Stop => v.(started := false, latest := 0, deltas := [])
    case Restart => v.(started := true)
    case Reset => v.(started := true, latest := 0, deltas := [])
  }

  /** The longest suffix of items newer than `version`. */
  function Newer(deltas: seq<Delta>, version: int): seq<Delta> {
    if deltas == [] || deltas[|deltas| - 1].version <= version then []
    else Newer(deltas[..|deltas| - 1], version) + [deltas[|deltas| - 1]]
  }

  predicate TablesChanged(v: Validator, version: int, tables: seq<int>) {
    var newer := Newer(v.deltas, version);
    || v.deltas == []
    || |newer| == |v.deltas|
    || exists i :: 0 <= i < |newer| && Related(newer[i].tables, tables)
  }

  function Check(v: Validator, time: int, version: int, tables: seq<int>): CheckResult {
    if !v.started then ResultUnknown
    else if v.lease == 0 then ResultSucc
    else if version < v.latest then
      if tables == [] || TablesChanged(v, version, tables) then ResultFail else ResultSucc
    else if time > v.expire then ResultUnknown
    else ResultSucc
  }

  // ------------------------------------------------------------------ histories

  function Run(v: Validator, calls: seq<Call>): Validator
    decreases |calls|
  {
    if calls == [] then v else Apply(Run(v, calls[..|calls| - 1]), calls[|calls| - 1])
  }

  /** Every schema change reported, whether or not the validator was running then. */
  function Changes(calls: seq<Call>): set<Delta>
    decreases |calls|
  {
    if calls == [] then {}
    else
      var before, c := Changes(calls[..|calls| - 1]), calls[|calls| - 1];
      if c.Update? && c.currVer != c.oldVer then before + {Delta(c.currVer, c.tables)} else before
  }

  predicate IsChange(c: Call) {
    c.Update? && c.currVer != c.oldVer
  }

  /** Every change reported has a larger version than those before. */
  predicate Ordered(calls: seq<Call>)
    decreases |calls|
  {
    calls == [] ||
    (var before, c := calls[..|calls| - 1], calls[|calls| - 1];
     && Ordered(before)
     && (IsChange(c) ==> forall d :: d in Changes(before) ==> d.version < c.currVer))
  }

  /** A change that the validator drops, because the count does not let it keep anything, although it keeps a
      history that reaches back before the change. */
  predicate Forgets(v: Validator, c: Call) {
    IsChange(c) && c.tables != [] && c.maxCount <= 0 && v.deltas != []
  }

  /** No change of the history is forgotten. */
  predicate Kept(lease: int, calls: seq<Call>) {
    forall n :: 0 <= n < |calls| ==> !Forgets(Run(New(lease), calls[..n]), calls[n])
  }

  predicate Increasing(deltas: seq<Delta>) {
    forall i, j :: 0 <= i < j < |deltas| ==> deltas[i].version < deltas[j].version
  }

  predicate Covers(d: Delta, c: Delta) {
    d.version >= c.version && forall x :: x in c.tables ==> x in d.tables
  }

  ghost predicate CoveredBy(deltas: seq<Delta>, c: Delta) {
    exists k :: 0 <= k < |deltas| && Covers(deltas[k], c)
  }

  /** What a non-empty history knows of a change of any table: if it is newer than the first item, an item at
      least as new touches no fewer tables. */
  ghost predicate Known(deltas: seq<Delta>, c: Delta)
    requires deltas != []
  {
    c.tables != [] && c.version > deltas[0].version ==> CoveredBy(deltas, c)
  }

  /** The retained items are changes, in order, and together they know of every change. */
  ghost predicate Remembers(v: Validator, changes: set<Delta>) {
    && Increasing(v.deltas)
    && (forall i :: 0 <= i < |v.deltas| ==> v.deltas[i] in changes)
    && (!v.started ==> v.deltas == [])
    && (v.deltas != [] ==> forall c :: c in changes ==> Known(v.deltas, c))
  }

  lemma {:induction false} CoveredAppend(deltas: seq<Delta>, d: Delta, c: Delta)
    requires CoveredBy(deltas, c)
    ensures CoveredBy(deltas + [d], c)
  {
    var k :| 0 <= k < |deltas| && Covers(deltas[k], c);
    assert Covers((deltas + [d])[k], c);
  }

  lemma {:induction false} CoveredMerge(deltas: seq<Delta>, d: Delta, c: Delta)
    requires CoveredBy(deltas, c) && d.version >= c.version && ContainedIn(deltas[|deltas| - 1].tables, d.tables)
    ensures CoveredBy(deltas[|deltas| - 1 := d], c)
  {
    var k :| 0 <= k < |deltas| && Covers(deltas[k], c);
    var merged := deltas[|deltas| - 1 := d];
    if k == |deltas| - 1 {
      assert Covers(merged[|deltas| - 1], c);
    } else {
      assert Covers(merged[k], c);
    }
  }

  lemma {:induction false} CoveredDrop(deltas: seq<Delta>, c: Delta)
    requires |deltas| > 1 && CoveredBy(deltas, c) && c.version > deltas[0].version
    ensures CoveredBy(deltas[1..], c)
  {
    var k :| 0 <= k < |deltas| && Covers(deltas[k], c);
    assert Covers(deltas[1..][k - 1], c);
  }

  lemma {:induction false} AppendRemembers(v: Validator, changes: set<Delta>, d: Delta)
    requires Remembers(v, changes) && v.started && (forall c :: c in changes ==> c.version < d.version)
    ensures Remembers(v.(deltas := v.deltas + [d]), changes + {d})
  {
    hide CoveredBy;
    var longer := v.deltas + [d];
    forall c | c in changes + {d}
      ensures Known(longer, c)
    {
      if c in changes && v.deltas != [] && c.tables != [] && c.version > v.deltas[0].version {
        assert Known(v.deltas, c);
        CoveredAppend(v.deltas, d, c);
      } else if c == d {
        CoveredByItself(longer, |v.deltas|);
      }
    }
  }

  lemma {:induction false} CoveredByItself(deltas: seq<Delta>, k: nat)
    requires k < |deltas|
    ensures CoveredBy(deltas, deltas[k])
  {
    assert Covers(deltas[k], deltas[k]);
  }

  lemma {:induction false} MergeRemembers(v: Validator, changes: set<Delta>, d: Delta)
    requires Remembers(v, changes) && v.started && (forall c :: c in changes ==> c.version < d.version)
    requires |v.deltas| > 1 && ContainedIn(v.deltas[|v.deltas| - 1].tables, d.tables)
    ensures Remembers(v.(deltas := v.deltas[|v.deltas| - 1 := d]), changes + {d})
  {
    hide CoveredBy;
    var merged := v.deltas[|v.deltas| - 1 := d];
    forall c | c in changes + {d}
      ensures Known(merged, c)
    {
      if c in changes {
        assert Known(v.deltas, c);
        if c.tables != [] && c.version > v.deltas[0].version {
          CoveredMerge(v.deltas, d, c);
        }
      } else {
        CoveredByItself(merged, |v.deltas| - 1);
      }
    }
  }

  lemma {:induction false} DropRemembers(v: Validator, changes: set<Delta>)
    requires Remembers(v, changes) && |v.deltas| > 1
    ensures Remembers(v.(deltas := v.deltas[1..]), changes)
  {
    hide CoveredBy;
    forall c | c in changes
      ensures Known(v.deltas[1..], c)
    {
      assert Known(v.deltas, c);
      if c.tables != [] && c.version > v.deltas[1].version {
        CoveredDrop(v.deltas, c);
      }
    }
  }

  lemma {:induction false} EnqueueRemembers(v: Validator, changes: set<Delta>, d: Delta, maxCount: int)
    requires Remembers(v, changes) && v.started && maxCount > 0
    requires forall c :: c in changes ==> c.version < d.version
    ensures Remembers(v.(deltas := Enqueue(v.deltas, d, maxCount)), changes + {d})
  {
    hide Remembers, ContainedIn;
    if v.deltas == [] {
      AppendRemembers(v, changes, d);
      assert v.deltas + [d] == [d];
    } else {
      var last := |v.deltas| - 1;
      var merge := last != 0 && ContainedIn(v.deltas[last].tables, d.tables);
      var longer := if merge then v.deltas[last := d] else v.deltas + [d];
      if merge {
        MergeRemembers(v, changes, d);
      } else {
        AppendRemembers(v, changes, d);
      }
      if |longer| > maxCount {
        DropRemembers(v.(deltas := longer), changes + {d});
      }
    }
  }

  lemma {:induction false} RunRemembers(lease: int, calls: seq<Call>)
    requires Ordered(calls) && Kept(lease, calls)
    ensures Remembers(Run(New(lease), calls), Changes(calls)) && Run(New(lease), calls).lease == lease
    decreases |calls|
  {
    hide Remembers, Forgets;
    if calls == [] {
      NothingToRemember(lease);
    } else {
      var k := |calls| - 1;
      var before, c := calls[..k], calls[k];
      KeptBefore(lease, calls);
      RunRemembers(lease, before);
      assert !Forgets(Run(New(lease), calls[..k]), calls[k]);
      ApplyRemembers(Run(New(lease), before), Changes(before), c);
    }
  }

  lemma {:induction false} NothingToRemember(lease: int)
    ensures Remembers(New(lease), {})
  {
  }

  lemma {:induction false} KeptBefore(lease: int, calls: seq<Call>)
    requires Kept(lease, calls) && calls != []
    ensures Kept(lease, calls[..|calls| - 1])
  {
    hide Forgets, Run;
    var before := calls[..|calls| - 1];
    forall n | 0 <= n < |before|
      ensures !Forgets(Run(New(lease), before[..n]), before[n])
    {
      assert before[..n] == calls[..n] && before[n] == calls[n];
    }
  }

  lemma {:induction false} ApplyRemembers(v: Validator, changes: set<Delta>, c: Call)
    requires Remembers(v, changes) && !Forgets(v, c)
    requires IsChange(c) ==> forall d :: d in changes ==> d.version < c.currVer
    ensures Remembers(Apply(v, c), if IsChange(c) then changes + {Delta(c.currVer, c.tables)} else changes)
    ensures Apply(v, c).lease == v.lease
  {
    hide Known, Enqueue;
    if IsChange(c) && v.started {
      var d, v1 := Delta(c.currVer, c.tables), v.(latest := c.currVer, expire := c.grantTime + v.lease - 1);
      if c.maxCount > 0 {
        EnqueueRemembers(v1, changes, d, c.maxCount);
      } else {
        DroppedRemembers(v1, changes, d, c.maxCount);
      }
    }
  }

  /** Without a history, or without a table, a change need not be kept. */
  lemma {:induction false} DroppedRemembers(v: Validator, changes: set<Delta>, d: Delta, maxCount: int)
    requires Remembers(v, changes) && maxCount <= 0 && (d.tables == [] || v.deltas == [])
    ensures Remembers(v.(deltas := Enqueue(v.deltas, d, maxCount)), changes + {d})
  {
    hide CoveredBy;
    if v.deltas != [] {
      assert Known(v.deltas, d);
    }
  }

  /** In a sorted history the newer items are exactly those with a larger version. */
  lemma {:induction false} NewerIsSuffix(deltas: seq<Delta>, version: int)
    requires Increasing(deltas)
    ensures var newer := Newer(deltas, version);
            && |newer| <= |deltas|
            && newer == deltas[|deltas| - |newer|..]
            && forall i :: 0 <= i < |deltas| ==> (deltas[i].version > version <==> i >= |deltas| - |newer|)
    decreases |deltas|
  {
    if deltas != [] && deltas[|deltas| - 1].version > version {
      NewerIsSuffix(deltas[..|deltas| - 1], version);
    }
  }

  /** A related change after `version` shows among the newer items. */
  lemma {:induction false} ChangeShows(v: Validator, changes: set<Delta>, version: int, tables: seq<int>, c: Delta)
    requires Remembers(v, changes) && v.deltas != [] && v.deltas[0].version <= version
    requires c in changes && c.version > version && Related(c.tables, tables)
    ensures exists i :: 0 <= i < |Newer(v.deltas, version)| && Related(Newer(v.deltas, version)[i].tables, tables)
  {
    hide Related, Newer;
    NewerIsSuffix(v.deltas, version);
    var newer := Newer(v.deltas, version);
    assert Known(v.deltas, c);
    RelatedSome(c.tables, tables);
    var k :| 0 <= k < |v.deltas| && Covers(v.deltas[k], c);
    RelatedMore(c.tables, v.deltas[k].tables, tables);
    assert newer[k - (|v.deltas| - |newer|)] == v.deltas[k];
  }

  /** A newer item is a change after `version`. */
  lemma {:induction false} ItemIsChange(v: Validator, changes: set<Delta>, version: int, i: nat)
    requires Remembers(v, changes) && i < |Newer(v.deltas, version)|
    ensures Newer(v.deltas, version)[i] in changes && Newer(v.deltas, version)[i].version > version
  {
    hide Newer, Known;
    NewerIsSuffix(v.deltas, version);
    var newer := Newer(v.deltas, version);
    assert newer[i] == v.deltas[|v.deltas| - |newer| + i];
  }

  /** The validator decides correctly about every version its history reaches back to. */
  lemma {:induction false} NewerDecides(v: Validator, changes: set<Delta>, version: int, tables: seq<int>)
    requires Remembers(v, changes) && v.deltas != [] && v.deltas[0].version <= version
    ensures TablesChanged(v, version, tables) <==> exists c :: c in changes && c.version > version && Related(c.tables, tables)
  {
    hide Related, Newer, Remembers;
    assert |Newer(v.deltas, version)| < |v.deltas| by { NewerSkipsFirst(v, changes, version); }
    if c :| c in changes && c.version > version && Related(c.tables, tables) {
      ChangeShows(v, changes, version, tables, c);
    }
    if i: nat :| i < |Newer(v.deltas, version)| && Related(Newer(v.deltas, version)[i].tables, tables) {
      ItemIsChange(v, changes, version, i);
    }
  }

  lemma {:induction false} NewerSkipsFirst(v: Validator, changes: set<Delta>, version: int)
    requires Remembers(v, changes) && v.deltas != [] && v.deltas[0].version <= version
    ensures |Newer(v.deltas, version)| < |v.deltas|
  {
    NewerIsSuffix(v.deltas, version);
  }

  lemma {:induction false} RelatedSome(a: seq<int>, b: seq<int>)
    requires Related(a, b)
    ensures a != []
  {
  }

  lemma {:induction false} RelatedSelf(a: seq<int>)
    requires a != []
    ensures Related(a, a)
  {
    var x := a[0];
    assert x in a && x in a;
  }

  lemma {:induction false} RelatedMore(a: seq<int>, b: seq<int>, tables: seq<int>)
    requires Related(a, tables) && forall x :: x in a ==> x in b
    ensures Related(b, tables)
  {
  }

  /** After these calls a check of an older version succeeds exactly if tables are given, the retained history
      reaches back to that version, and no change after it, reported at any time, touched any of the tables. */
  ghost predicate Exact(lease: int, calls: seq<Call>) {
    forall time, version, tables :: IsOlder(lease, calls, version) ==> Decides(lease, calls, time, version, tables)
  }

  predicate IsOlder(lease: int, calls: seq<Call>, version: int) {
    Run(New(lease), calls).started && version < Run(New(lease), calls).latest
  }

  ghost predicate Decides(lease: int, calls: seq<Call>, time: int, version: int, tables: seq<int>) {
    var v := Run(New(lease), calls);
    Check(v, time, version, tables) ==
      if && tables != []
         && v.deltas != [] && v.deltas[0].version <= version
         && forall c :: c in Changes(calls) && c.version > version ==> !Related(c.tables, tables)
      then ResultSucc else ResultFail
  }

  /** Soundness and precision, for every history of calls with increasing versions that forgets no change. */
  lemma {:induction false} CheckExact(lease: int, calls: seq<Call>, time: int, version: int, tables: seq<int>)
    requires lease != 0 && Ordered(calls) && Kept(lease, calls) && IsOlder(lease, calls, version)
    ensures Decides(lease, calls, time, version, tables)
  {
    hide Kept, Ordered;
    RunRemembers(lease, calls);
    var v := Run(New(lease), calls);
    if v.deltas != [] {
      NewerIsSuffix(v.deltas, version);
      if v.deltas[0].version <= version {
        NewerDecides(v, Changes(calls), version, tables);
      }
    }
  }

  // ------------------------------------------------------------------ forgetting

  /** Whatever is forgotten, what is retained are changes. */
  lemma {:induction false} RetainsChanges(lease: int, calls: seq<Call>)
    ensures var v := Run(New(lease), calls);
            && v.lease == lease && (!v.started ==> v.deltas == [])
            && forall i :: 0 <= i < |v.deltas| ==> v.deltas[i] in Changes(calls)
    decreases |calls|
  {
    if calls != [] {
      RetainsChanges(lease, calls[..|calls| - 1]);
    }
  }

  /** A forgotten change shows at once: the version before it still passes for the tables it changed. */
  lemma {:induction false} ForgottenPasses(lease: int, calls: seq<Call>, c: Call, time: int)
    requires lease != 0 && Ordered(calls + [c]) && Forgets(Run(New(lease), calls), c)
    ensures IsOlder(lease, calls + [c], c.currVer - 1)
    ensures Check(Run(New(lease), calls + [c]), time, c.currVer - 1, c.tables) == ResultSucc
    ensures Delta(c.currVer, c.tables) in Changes(calls + [c]) && !Exact(lease, calls + [c])
  {
    var all := calls + [c];
    assert all[..|all| - 1] == calls;
    RetainsChanges(lease, calls);
    var v := Run(New(lease), all);
    assert v.deltas == Run(New(lease), calls).deltas;
    assert v.deltas[|v.deltas| - 1] in Changes(calls);
    assert Newer(v.deltas, c.currVer - 1) == [];
    RelatedSelf(c.tables);
    assert !Decides(lease, all, time, c.currVer - 1, c.tables);
  }

  lemma {:induction false} OrderedPrefix(calls: seq<Call>, n: nat)
    requires Ordered(calls) && n <= |calls|
    ensures Ordered(calls[..n])
    decreases |calls|
  {
    if n == |calls| {
      assert calls[..n] == calls;
    } else {
      OrderedPrefix(calls[..|calls| - 1], n);
      assert calls[..|calls| - 1][..n] == calls[..n];
    }
  }

  lemma {:induction false} KeptPrefix(lease: int, calls: seq<Call>, n: nat)
    requires Kept(lease, calls) && n <= |calls|
    ensures Kept(lease, calls[..n])
    decreases |calls|
  {
    hide Kept;
    if n == |calls| {
      assert calls[..n] == calls;
    } else {
      KeptBefore(lease, calls);
      KeptPrefix(lease, calls[..|calls| - 1], n);
      assert calls[..|calls| - 1][..n] == calls[..n];
    }
  }

  /** The validator decides every check of an older version correctly, at every moment of a history with
      increasing versions, if and only if no change of a table comes with a count that is not positive while
      the validator has a history. */
  lemma {:induction false} AlwaysExact(lease: int, calls: seq<Call>)
    requires lease != 0 && Ordered(calls)
    ensures (forall n :: 0 <= n <= |calls| ==> Exact(lease, calls[..n])) <==> Kept(lease, calls)
  {
    hide Ordered, Decides, IsOlder;
    if Kept(lease, calls) {
      forall n | 0 <= n <= |calls|
        ensures Exact(lease, calls[..n])
      {
        OrderedPrefix(calls, n);
        KeptPrefix(lease, calls, n);
        forall time, version, tables | IsOlder(lease, calls[..n], version)
          ensures Decides(lease, calls[..n], time, version, tables)
        {
          CheckExact(lease, calls[..n], time, version, tables);
        }
      }
    } else {
      var n :| 0 <= n < |calls| && Forgets(Run(New(lease), calls[..n]), calls[n]);
      assert calls[..n + 1] == calls[..n] + [calls[n]];
      OrderedPrefix(calls, n + 1);
      ForgottenPasses(lease, calls[..n], calls[n], 0);
    }
  }

  /** As long as the count does not change nothing is forgotten, whatever the count. */
  lemma {:induction false} ConstantCountKeeps(lease: int, calls: seq<Call>, maxCount: int)
    requires forall n :: 0 <= n < |calls| && IsChange(calls[n]) ==> calls[n].maxCount == maxCount
    ensures Kept(lease, calls)
  {
    if maxCount <= 0 {
      forall n | 0 <= n < |calls|
        ensures Run(New(lease), calls[..n]).deltas == []
      {
        NothingKept(lease, calls[..n]);
      }
    }
  }

  lemma {:induction false} NothingKept(lease: int, calls: seq<Call>)
    requires forall n :: 0 <= n < |calls| && IsChange(calls[n]) ==> calls[n].maxCount <= 0
    ensures Run(New(lease), calls).deltas == []
    decreases |calls|
  {
    if calls != [] {
      NothingKept(lease, calls[..|calls| - 1]);
    }
  }

  /** The count must not become zero while there is a history: the change is forgotten, and an outdated version
      of the changed table still passes. */
  lemma {:induction false} ZeroCountForgets()
    ensures var calls := [Update(0, 0, 1, [7], 5), Update(0, 1, 2, [8], 0)];
            && Check(Run(New(10), calls), 0, 1, [8]) == ResultSucc
            && Delta(2, [8]) in Changes(calls)
  {
    var c1, c2 := Update(0, 0, 1, [7], 5), Update(0, 1, 2, [8], 0);
    assert [c1][..0] == [] && [c1] + [c2] == [c1, c2] && [c1, c2][..1] == [c1];
    assert Run(New(10), [c1]).deltas == [Delta(1, [7])];
    ForgottenPasses(10, [c1], c2, 0);
  }
}
