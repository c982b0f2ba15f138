/** MemoryStorage as an object whose methods replace its fields. */
module RaftStorageImpl {
  import opened RaftTypes
  import opened RaftStore

  class MemoryStorage {
    var hardState: HardState
    var snapshot: Snapshot
    var ents: seq<Entry>

    ghost predicate Valid()
      reads this
    {
      ents != []
    }

    ghost function View(): Store
      reads this
    {
      Store(hardState, snapshot, ents)
    }

    constructor ()
      ensures Valid() && View() == NewStore()
    {
      hardState := HardState(0, NONE, 0);
      snapshot := Snapshot(0, 0, {});
      ents := [Entry(EntryNormal, 0, 0, [])];
    }

    method SetHardState(hs: HardState)
      requires Valid()
      modifies this`hardState
      ensures Valid() && View() == old(View()).(hardState := hs)
    {
      hardState := hs;
    }

    method LastIndex() returns (i: nat)
      requires Valid()
      ensures i == StoreLast(View())
    {
      i := ents[0].index + |ents| - 1;
    }

    method FirstIndex() returns (i: nat)
      requires Valid()
      ensures i == StoreFirst(View())
    {
      i := ents[0].index + 1;
    }

    method Term(i: nat) returns (r: Result<nat>)
      requires Valid()
      ensures r == StoreTerm(View(), i)
    {
      var offset := ents[0].index;
      if i < offset {
        return Err(ErrCompacted);
      }
      if i - offset >= |ents| {
        return Err(ErrUnavailable);
      }
      return Ok(ents[i - offset].term);
    }

    method Entries(lo: nat, hi: nat) returns (o: Outcome<Result<seq<Entry>>>)
      requires Valid()
      ensures o == StoreEntries(View(), lo, hi)
    {
      var offset := ents[0].index;
      if lo <= offset {
        return Done(Err(ErrCompacted));
      }
      var last := LastIndex();
      if hi > last + 1 || lo > hi {
        return Fatal;
      }
      var es := ents[lo - offset..hi - offset];
      if |ents| == 1 && |es| != 0 {
        return Done(Err(ErrUnavailable));
      }
      return Done(Ok(es));
    }

    method ApplySnapshot(snap: Snapshot) returns (err: Option<StoreError>)
      requires Valid()
      modifies this`snapshot, this`ents
      ensures Valid()
      ensures match StoreApplySnapshot(old(View()), snap)
              case Ok(st) => err == None && View() == st
              case Err(e) => err == Some(e) && View() == old(View())
    {
      if snapshot.index >= snap.index {
        return Some(ErrSnapOutOfDate);
      }
      snapshot := snap;
      ents := [Entry(EntryNormal, snap.term, snap.index, [])];
      return None;
    }

    method CreateSnapshot(i: nat, cs: Option<set<NodeId>>) returns (o: Outcome<Result<Snapshot>>)
      requires Valid()
      modifies this`snapshot
      ensures Valid()
      ensures match StoreCreateSnapshot(old(View()), i, cs)
              case Fatal => o == Fatal
              case Done(Err(e)) => o == Done(Err(e)) && View() == old(View())
              case Done(Ok(st)) => o == Done(Ok(st.snapshot)) && View() == st
    {
      if i <= snapshot.index {
        return Done(Err(ErrSnapOutOfDate));
      }
      var offset := ents[0].index;
      var last := LastIndex();
      if i > last || i < offset {
        return Fatal;
      }
      snapshot := snapshot.(index := i, term := ents[i - offset].term);
      if cs.Some? {
        snapshot := snapshot.(nodes := cs.value);
      }
      return Done(Ok(snapshot));
    }

    method Compact(compactIndex: nat) returns (o: Outcome<Option<StoreError>>)
      requires Valid()
      modifies this`ents
      ensures Valid()
      ensures match StoreCompact(old(View()), compactIndex)
              case Fatal => o == Fatal
              case Done(Err(e)) => o == Done(Some(e)) && View() == old(View())
              case Done(Ok(st)) => o == Done(None) && View() == st
    {
      var offset := ents[0].index;
      if compactIndex <= offset {
        return Done(Some(ErrCompacted));
      }
      var last := LastIndex();
      if compactIndex > last {
        return Fatal;
      }
      var i := compactIndex - offset;
      var kept := [Entry(EntryNormal, ents[i].term, ents[i].index, [])];
      ents := kept + ents[i + 1..];
      return Done(None);
    }

    /** Returns true on a fatal exit. */
    method Append(entries: seq<Entry>) returns (fatal: bool)
      requires Valid()
      modifies this`ents
      ensures Valid()
      ensures var o := StoreAppend(old(View()), entries);
              fatal == o.Fatal? && (!fatal ==> View() == o.value)
    {
      if |entries| == 0 {
        return false;
      }
      var first := FirstIndex();
      var last := entries[0].index + |entries| - 1;
      if last < first {
        return false;
      }
      var kept := entries;
      if first > entries[0].index {
        kept := entries[first - entries[0].index..];
      }
      if kept[0].index < ents[0].index {
        return true;
      }
      var offset := kept[0].index - ents[0].index;
      if |ents| > offset {
        ents := ents[..offset];
        ents := ents + kept;
      } else if |ents| == offset {
        assert ents[..offset] == ents;
        ents := ents + kept;
      } else {
        return true;
      }
      return false;
    }
  }
}
