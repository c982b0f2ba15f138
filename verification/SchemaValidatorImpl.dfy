/** The validator as an object; every method is proved against the operation on values. */
module SchemaValidatorImpl {
  import opened S = SchemaValidatorSpec

  class SchemaValidator {
    var isStarted: bool
    const lease: int
    var latestSchemaVer: int
    var latestSchemaExpire: int
    var deltaSchemaInfos: seq<Delta>

    ghost function View(): Validator
      reads this
    {
      Validator(isStarted, lease, latestSchemaVer, latestSchemaExpire, deltaSchemaInfos)
    }

    constructor (lease: int)
      ensures View() == New(lease)
    {
      this.lease := lease;
      isStarted := true;
      latestSchemaVer := 0;
      latestSchemaExpire := ZERO_TIME;
      deltaSchemaInfos := [];
    }

    method Stop()
      modifies this
      ensures View() == Apply(old(View()), S.Stop)
    {
      isStarted := false;
      latestSchemaVer := 0;
      deltaSchemaInfos := [];
    }

    method Restart()
      modifies this
      ensures View() == Apply(old(View()), S.Restart)
    {
      isStarted := true;
    }

    method Reset()
      modifies this
      ensures View() == Apply(old(View()), S.Reset)
    {
      isStarted := true;
      latestSchemaVer := 0;
      deltaSchemaInfos := [];
    }

    method Update(grantTime: int, oldVer: int, currVer: int, changed: seq<int>, maxCount: int)
      modifies this
      ensures View() == Apply(old(View()), S.Update(grantTime, oldVer, currVer, changed, maxCount))
    {
      if !isStarted {
        return;
      }
      latestSchemaVer := currVer;
      latestSchemaExpire := grantTime + lease - 1;
      if currVer != oldVer {
        Enqueue(currVer, changed, maxCount);
      }
    }

    method Enqueue(version: int, tables: seq<int>, maxCount: int)
      modifies this`deltaSchemaInfos
      ensures deltaSchemaInfos == S.Enqueue(old(deltaSchemaInfos), Delta(version, tables), maxCount)
    {
      if maxCount <= 0 {
        return;
      }
      var delta := Delta(version, tables);
      if |deltaSchemaInfos| == 0 {
        deltaSchemaInfos := [delta];
        return;
      }
      var last := |deltaSchemaInfos| - 1;
      var merge := false;
      if last != 0 {
        merge := ContainIn(deltaSchemaInfos[last].tables, delta.tables);
      }
      if merge {
        deltaSchemaInfos := deltaSchemaInfos[last := delta];
      } else {
        deltaSchemaInfos := deltaSchemaInfos + [delta];
      }
      if |deltaSchemaInfos| > maxCount {
        deltaSchemaInfos := deltaSchemaInfos[1..];
      }
    }

    method FindNewerDeltas(currVer: int) returns (newer: seq<Delta>)
      ensures newer == Newer(deltaSchemaInfos, currVer)
    {
      var q := deltaSchemaInfos;
      var pos := |q|;
      assert q[..pos] == q && q[pos..] == [];
      while pos > 0 && q[pos - 1].version > currVer
        invariant 0 <= pos <= |q|
        invariant Newer(q, currVer) == Newer(q[..pos], currVer) + q[pos..]
      {
        assert q[..pos][..pos - 1] == q[..pos - 1];
        assert [q[pos - 1]] + q[pos..] == q[pos - 1..];
        ghost var rest := Newer(q[..pos - 1], currVer);
        assert Newer(q[..pos], currVer) == rest + [q[pos - 1]];
        assert rest + [q[pos - 1]] + q[pos..] == rest + ([q[pos - 1]] + q[pos..]);
        pos := pos - 1;
      }
      assert Newer(q[..pos], currVer) == [];
      newer := q[pos..];
    }

    method IsRelatedTablesChanged(currVer: int, tables: seq<int>) returns (changed: bool)
      ensures changed == TablesChanged(View(), currVer, tables)
    {
      if |deltaSchemaInfos| == 0 {
        return true;
      }
      var newer := FindNewerDeltas(currVer);
      if |newer| == |deltaSchemaInfos| {
        return true;
      }
      var i := 0;
      while i < |newer|
        invariant 0 <= i <= |newer|
        invariant forall k :: 0 <= k < i ==> !Related(newer[k].tables, tables)
      {
        var related := HasRelatedTableID(newer[i].tables, tables);
        if related {
          return true;
        }
        i := i + 1;
      }
      return false;
    }

    method Check(time: int, schemaVer: int, tables: seq<int>) returns (r: CheckResult)
      ensures r == S.Check(View(), time, schemaVer, tables)
    {
      if !isStarted {
        return ResultUnknown;
      }
      if lease == 0 {
        return ResultSucc;
      }
      if schemaVer < latestSchemaVer {
        if |tables| == 0 {
          return ResultFail;
        }
        var changed := IsRelatedTablesChanged(schemaVer, tables);
        return if changed then ResultFail else ResultSucc;
      }
      return if time > latestSchemaExpire then ResultUnknown else ResultSucc;
    }
  }

  method HasRelatedTableID(relatedTables: seq<int>, updateTables: seq<int>) returns (r: bool)
    ensures r == Related(relatedTables, updateTables)
  {
    var i := 0;
    while i < |updateTables|
      invariant 0 <= i <= |updateTables|
      invariant forall k :: 0 <= k < i ==> updateTables[k] !in relatedTables
    {
      var j := 0;
      while j < |relatedTables|
        invariant 0 <= j <= |relatedTables|
        invariant updateTables[i] !in relatedTables[..j]
      {
        if updateTables[i] == relatedTables[j] {
          assert updateTables[i] in relatedTables && updateTables[i] in updateTables;
          return true;
        }
        j := j + 1;
      }
      i := i + 1;
    }
    return false;
  }

  lemma {:induction false} NotContained(a: seq<int>, b: seq<int>, i: nat)
    requires i < |a| && a[i] !in b
    ensures !ContainedIn(a, b)
  {
    var x := a[i];
    assert x in a && x !in b;
  }

  method ContainIn(a: seq<int>, b: seq<int>) returns (r: bool)
    ensures r == ContainedIn(a, b)
  {
    if |a| > |b| {
      return false;
    }
    var i := 0;
    while i < |a|
      invariant 0 <= i <= |a|
      invariant forall k :: 0 <= k < i ==> a[k] in b
    {
      var isEqual := false;
      var j := 0;
      while j < |b| && !isEqual
        invariant 0 <= j <= |b|
        invariant isEqual ==> a[i] in b
        invariant !isEqual ==> a[i] !in b[..j]
      {
        if a[i] == b[j] {
          isEqual := true;
        }
        j := j + 1;
      }
      if !isEqual {
        assert b[..j] == b;
        NotContained(a, b, i);
        return false;
      }
      i := i + 1;
    }
    return true;
  }
}
