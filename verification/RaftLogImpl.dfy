/** RaftLog as an object over its storage; every method is proved against the operation on values. */
module RaftLogImpl {
  import opened RaftTypes
  import opened RaftStore
  import opened RaftStorageImpl
  import L = RaftLogSpec

  class RaftLog {
    const storage: MemoryStorage
    var entries: seq<Entry>
    var offset: nat
    var snapIndex: nat
    var snapTerm: nat
    var committed: nat
    var applied: nat
    var stabled: nat
    var pending: Option<Snapshot>

    ghost predicate Valid()
      reads storage
    {
      storage.Valid()
    }

    ghost function View(): L.Log
      reads this
    {
      L.Log(entries, offset, snapIndex, snapTerm, committed, applied, stabled, pending)
    }

    /** The log ends as the operation on values says. */
    ghost predicate Ends(o: Outcome<L.Log>, fatal: bool)
      reads this
    {
      fatal == o.Fatal? && (!fatal ==> View() == o.value)
    }

    constructor Build(storage: MemoryStorage, entries: seq<Entry>, first: nat, snapTerm: nat, last: nat)
      requires first >= 1
      ensures this.storage == storage
      ensures View() == L.Log(entries, first, first - 1, snapTerm, first - 1, first - 1, last, None)
    {
      this.storage := storage;
      this.entries := entries;
      this.offset := first;
      this.snapIndex := first - 1;
      this.snapTerm := snapTerm;
      this.stabled := last;
      this.committed := first - 1;
      this.applied := first - 1;
      this.pending := None;
    }

    static method NewLog(storage: MemoryStorage) returns (l: RaftLog?)
      requires storage.Valid()
      ensures l == null <==> L.NewLog(storage.View()).Fatal?
      ensures l != null ==> fresh(l) && l.storage == storage && l.View() == L.NewLog(storage.View()).value
    {
      var firstIndex := storage.FirstIndex();
      var lastIndex := storage.LastIndex();
      var term := storage.Term(firstIndex - 1);
      var ents := storage.Entries(firstIndex, lastIndex + 1);
      if ents.Fatal? || term.Err? || ents.value.Err? {
        return null;
      }
      l := new RaftLog.Build(storage, ents.value.value, firstIndex, term.value, lastIndex);
    }

    function FirstIndex(): (i: nat)
      reads this
      ensures i == L.FirstIndex(View())
    {
      if |entries| != 0 then entries[0].index
      else if pending.Some? then pending.value.index
      else snapIndex
    }

    function LastIndex(): (i: nat)
      reads this
      ensures i == L.LastIndex(View())
    {
      if |entries| != 0 then entries[|entries| - 1].index
      else if pending.Some? then pending.value.index
      else snapIndex
    }

    function Term(i: int): (r: Result<nat>)
      reads this
      ensures r == L.Term(View(), i)
    {
      if i == snapIndex then Ok(snapTerm)
      else if |entries| == 0 then Err(ErrCompacted)
      else if i < offset then Err(ErrCompacted)
      else if i > offset + |entries| - 1 then Err(ErrUnavailable)
      else Ok(entries[i - offset].term)
    }

    predicate MatchTerm(i: nat, term: nat)
      reads this
      ensures MatchTerm(i, term) == L.MatchTerm(View(), i, term)
    {
      Term(i).Ok? && Term(i).value == term
    }

    function LastTerm(): (o: Outcome<nat>)
      reads this
      ensures o == L.LastTerm(View())
    {
      if Term(LastIndex()).Ok? then Done(Term(LastIndex()).value) else Fatal
    }

    function IsUpToDate(lasti: nat, term: nat): (o: Outcome<bool>)
      reads this
      ensures o == L.IsUpToDate(View(), lasti, term)
    {
      var last :- LastTerm();
      Done(term > last || (term == last && lasti >= LastIndex()))
    }

    /** Scans the entries for the first one the log does not hold. */
    method FindConflict(ents: seq<Entry>) returns (ci: nat)
      ensures ci == L.FindConflict(View(), ents)
    {
      var i := 0;
      while i < |ents|
        invariant 0 <= i <= |ents|
        invariant L.FindConflict(View(), ents) == L.FindConflict(View(), ents[i..])
      {
        assert ents[i..][1..] == ents[i + 1..];
        if !MatchTerm(ents[i].index, ents[i].term) {
          return ents[i].index;
        }
        i := i + 1;
      }
      assert ents[i..] == [];
      return 0;
    }

    method CommitTo(tocommit: nat) returns (fatal: bool)
      modifies this`committed
      ensures Ends(L.CommitTo(old(View()), tocommit), fatal)
    {
      if committed < tocommit {
        if LastIndex() < tocommit {
          return true;
        }
        committed := tocommit;
      }
      return false;
    }

    method MaybeCommit(maxIndex: nat, term: nat) returns (fatal: bool, changed: bool)
      modifies this`committed
      ensures fatal == L.LogMaybeCommit(old(View()), maxIndex, term).Fatal?
      ensures !fatal ==> L.LogMaybeCommit(old(View()), maxIndex, term).value == (View(), changed)
    {
      if maxIndex > committed && MatchTerm(maxIndex, term) {
        fatal := CommitTo(maxIndex);
        return fatal, true;
      }
      return false, false;
    }

    method AppliedTo(i: nat) returns (fatal: bool)
      modifies this`applied
      ensures Ends(L.AppliedTo(old(View()), i), fatal)
    {
      if i == 0 {
        return false;
      }
      if committed < i || i < applied {
        return true;
      }
      applied := i;
      return false;
    }

    method StableTo(idx: nat, term: nat)
      modifies this`stabled
      ensures View() == L.StableTo(old(View()), idx, term)
    {
      if MatchTerm(idx, term) && stabled < idx {
        stabled := idx;
      }
    }

    method StableSnapTo(i: nat)
      modifies this`pending
      ensures View() == L.StableSnapTo(old(View()), i)
    {
      if pending.Some? && pending.value.index == i {
        pending := None;
      }
    }

    method TruncateAndAppend(ents: seq<Entry>) returns (fatal: bool)
      requires ents != []
      modifies this`entries, this`stabled
      ensures Ends(L.TruncateAndAppend(old(View()), ents), fatal)
    {
      var after := ents[0].index;
      if after == LastIndex() + 1 {
        entries := entries + ents;
        return false;
      }
      if after == 0 || after < offset || after - offset > |entries| {
        return true;
      }
      if after - 1 < stabled {
        stabled := after - 1;
      }
      entries := entries[..after - offset];
      entries := entries + ents;
      return false;
    }

    method MaybeCompact()
      requires Valid()
      modifies this`entries, this`offset, this`snapIndex, this`snapTerm
      ensures View() == L.MaybeCompact(old(View()), storage.View())
    {
      var fi := storage.FirstIndex();
      var ft := storage.Term(fi - 1);
      if fi > offset && fi - offset < |entries| {
        entries := entries[fi - offset..];
        offset := fi;
        snapIndex := fi - 1;
        snapTerm := ft.value;
      }
    }

    method Append(ents: seq<Entry>) returns (fatal: bool)
      requires Valid()
      modifies this
      ensures Ends(L.Append(old(View()), storage.View(), ents), fatal)
    {
      if |ents| == 0 {
        return false;
      }
      if ents[0].index == 0 || ents[0].index - 1 < committed {
        return true;
      }
      fatal := TruncateAndAppend(ents);
      if !fatal {
        MaybeCompact();
      }
    }

    method MaybeAppend(index: nat, logTerm: nat, commit: nat, ents: seq<Entry>)
      returns (fatal: bool, last: Option<nat>)
      requires Valid()
      modifies this
      ensures var o := L.MaybeAppend(old(View()), storage.View(), index, logTerm, commit, ents);
              fatal == o.Fatal? && (!fatal ==> o.value == (View(), last))
    {
      hide L.Append, L.FindConflict, L.MatchTerm, L.CommitTo;
      last := None;
      if !MatchTerm(index, logTerm) {
        return false, None;
      }
      var lastnewi := index + |ents|;
      var ci := FindConflict(ents);
      if ci != 0 {
        if ci <= committed || ci < index + 1 || ci - (index + 1) > |ents| {
          return true, None;
        }
        fatal := Append(ents[ci - (index + 1)..]);
        if fatal {
          return true, None;
        }
      }
      fatal := CommitTo(if commit > lastnewi then lastnewi else commit);
      return fatal, Some(lastnewi);
    }

    method Restore(s: Snapshot)
      modifies this
      ensures View() == L.Restore(old(View()), s)
    {
      committed := s.index;
      entries := [];
      stabled := s.index;
      offset := s.index + 1;
      snapIndex := s.index;
      snapTerm := s.term;
      pending := Some(s);
    }

    method Slice(lo: nat, hi: nat) returns (o: Outcome<Result<seq<Entry>>>)
      ensures o == L.Slice(View(), lo, hi)
    {
      if lo > hi {
        return Fatal;
      }
      if lo < FirstIndex() {
        return Done(Err(ErrCompacted));
      }
      if hi > LastIndex() + 1 {
        return Fatal;
      }
      if |entries| == 0 {
        return Done(Ok([]));
      }
      if lo < offset || hi - offset > |entries| {
        return Fatal;
      }
      return Done(Ok(entries[lo - offset..hi - offset]));
    }

    method NextEnts() returns (o: Outcome<seq<Entry>>)
      ensures o == L.NextEnts(View())
    {
      var off := if applied + 1 > FirstIndex() then applied + 1 else FirstIndex();
      if committed + 1 > off {
        var ents := Slice(off, committed + 1);
        if ents.Fatal? || ents.value.Err? {
          return Fatal;
        }
        return Done(ents.value.value);
      }
      return Done([]);
    }

    method HasNextEnts() returns (b: bool)
      ensures b == L.HasNextEnts(View())
    {
      var off := if applied + 1 > FirstIndex() then applied + 1 else FirstIndex();
      b := committed + 1 > off;
    }

    method UnstableEntries() returns (o: Outcome<seq<Entry>>)
      ensures o == L.UnstableEntries(View())
    {
      if stabled + 1 < offset {
        return Fatal;
      }
      if stabled + 1 - offset > |entries| {
        return Done([]);
      }
      return Done(entries[stabled + 1 - offset..]);
    }

    method Entries(i: nat) returns (o: Outcome<Result<seq<Entry>>>)
      ensures o == L.LogEntries(View(), i)
    {
      if i < FirstIndex() {
        return Done(Err(ErrCompacted));
      }
      if i > LastIndex() {
        return Done(Ok([]));
      }
      if i < offset || i - offset > |entries| {
        return Fatal;
      }
      return Done(Ok(entries[i - offset..]));
    }

    method LatestSnapshot() returns (s: Snapshot)
      ensures s == L.LogSnapshot(View(), storage.View())
    {
      s := if pending.Some? then pending.value else storage.snapshot;
    }
  }
}
