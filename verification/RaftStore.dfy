/** The durable side of a node: the value of a MemoryStorage and what its operations do to it. */
module RaftStore {
  import opened RaftTypes

  datatype HardState = HardState(term: nat, vote: NodeId, commit: nat)

  const EMPTY_HARD_STATE: HardState := HardState(0, NONE, 0)

  /** Snapshot metadata; the nodes are those of the configuration state. */
  datatype Snapshot = Snapshot(index: nat, term: nat, nodes: set<NodeId>)

  datatype StoreError = ErrCompacted | ErrUnavailable | ErrSnapOutOfDate

  datatype Result<+T> = Ok(value: T) | Err(error: StoreError)

  /** `ents[0]` is a dummy that carries the index and term of the last compacted entry. */
  datatype Store = Store(hardState: HardState, snapshot: Snapshot, ents: seq<Entry>)

  function NewStore(): Store {
    Store(EMPTY_HARD_STATE, Snapshot(0, 0, {}), [Entry(EntryNormal, 0, 0, [])])
  }

  function StoreFirst(st: Store): nat
    requires st.ents != []
  {
    st.ents[0].index + 1
  }

  function StoreLast(st: Store): nat
    requires st.ents != []
  {
    st.ents[0].index + |st.ents| - 1
  }

  function StoreTerm(st: Store, i: nat): Result<nat>
    requires st.ents != []
  {
    var offset := st.ents[0].index;
    if i < offset then Err(ErrCompacted)
    else if i - offset >= |st.ents| then Err(ErrUnavailable)
    else Ok(st.ents[i - offset].term)
  }

  function StoreEntries(st: Store, lo: nat, hi: nat): Outcome<Result<seq<Entry>>> {
    if st.ents == [] then Fatal
    else
      var offset := st.ents[0].index;
      if lo <= offset then Done(Err(ErrCompacted))
      else if hi > StoreLast(st) + 1 || lo > hi then Fatal
      else if |st.ents| == 1 && lo != hi then Done(Err(ErrUnavailable))
      else Done(Ok(st.ents[lo - offset..hi - offset]))
  }

  function StoreAppend(st: Store, entries: seq<Entry>): Outcome<Store> {
    if entries == [] then Done(st)
    else if st.ents == [] then Fatal
    else
      var first := StoreFirst(st);
      var last := entries[0].index + |entries| - 1;
      if last < first then Done(st)
      else
        var kept := if first > entries[0].index then entries[first - entries[0].index..] else entries;
        var offset := kept[0].index - st.ents[0].index;
        if offset < 0 || |st.ents| < offset then Fatal
        else Done(st.(ents := st.ents[..offset] + kept))
  }

  function StoreCompact(st: Store, compactIndex: nat): Outcome<Result<Store>> {
    if st.ents == [] then Fatal
    else
      var offset := st.ents[0].index;
      if compactIndex <= offset then Done(Err(ErrCompacted))
      else if compactIndex > StoreLast(st) then Fatal
      else
        var i := compactIndex - offset;
        Done(Ok(st.(ents := [Entry(EntryNormal, st.ents[i].term, st.ents[i].index, [])] + st.ents[i + 1..])))
  }

  function StoreApplySnapshot(st: Store, snap: Snapshot): Result<Store> {
    if st.snapshot.index >= snap.index then Err(ErrSnapOutOfDate)
    else Ok(st.(snapshot := snap, ents := [Entry(EntryNormal, snap.term, snap.index, [])]))
  }

  /** `cs` is the configuration state passed by the application; without one the old nodes stay. */
  function StoreCreateSnapshot(st: Store, i: nat, cs: Option<set<NodeId>>): Outcome<Result<Store>> {
    if st.ents == [] then Fatal
    else
      var offset := st.ents[0].index;
      if i <= st.snapshot.index then Done(Err(ErrSnapOutOfDate))
      else if i > StoreLast(st) || i < offset then Fatal
      else
        var nodes := if cs.Some? then cs.value else st.snapshot.nodes;
        Done(Ok(st.(snapshot := Snapshot(i, st.ents[i - offset].term, nodes))))
  }

  // ------------------------------------------------------------------ the complete durable log

  /** The store is what is left of the complete log `D` after compaction. */
  predicate StoreView(st: Store, D: seq<Entry>) {
    && st.ents != []
    && st.ents[0].index <= |D|
    && |st.ents| == |D| - st.ents[0].index + 1
    && st.ents[0].term == TermAt(D, st.ents[0].index)
    && (forall k :: 1 <= k < |st.ents| ==> st.ents[k] == D[st.ents[0].index + k - 1])
    && (forall k :: 0 <= k < |D| ==> D[k].index == k + 1)
    && st.ents[0].index <= st.hardState.commit <= |D|
    && st.snapshot.index <= st.hardState.commit
    && (st.snapshot.index > 0 ==> st.snapshot.term == TermAt(D, st.snapshot.index))
  }

  lemma {:induction false} StoreViewTerm(st: Store, D: seq<Entry>, i: nat)
    requires StoreView(st, D) && st.ents[0].index <= i <= |D|
    ensures StoreTerm(st, i) == Ok(TermAt(D, i))
  {
  }

  /** Reading a range the store retains gives exactly that stretch of the log; an earlier start is compacted, and a later
      end or an inverted range is fatal. */
  lemma {:induction false} StoreEntriesView(st: Store, D: seq<Entry>, lo: nat, hi: nat)
    requires StoreView(st, D)
    ensures lo <= st.ents[0].index ==> StoreEntries(st, lo, hi) == Done(Err(ErrCompacted))
    ensures lo > st.ents[0].index && (hi > |D| + 1 || lo > hi) ==> StoreEntries(st, lo, hi) == Fatal
    ensures st.ents[0].index < lo <= hi <= |D| + 1 ==> StoreEntries(st, lo, hi) == Done(Ok(D[lo - 1..hi - 1]))
  {
    var first := st.ents[0].index;
    if first < lo <= hi <= |D| + 1 {
      assert st.ents[lo - first..hi - first] == D[lo - 1..hi - 1];
    }
  }

  /** Compaction leaves exactly the log after the index, refuses an index that is compacted and is fatal beyond the end. */
  lemma {:induction false} CompactView(st: Store, D: seq<Entry>, i: nat)
    requires StoreView(st, D)
    ensures i <= st.ents[0].index ==> StoreCompact(st, i) == Done(Err(ErrCompacted))
    ensures i > |D| ==> StoreCompact(st, i) == Fatal
    ensures st.ents[0].index < i <= st.hardState.commit ==>
              && StoreCompact(st, i).Done? && StoreCompact(st, i).value.Ok?
              && var st' := StoreCompact(st, i).value.value;
                 StoreView(st', D) && st'.ents[0].index == i && st'.hardState == st.hardState && st'.snapshot == st.snapshot
  {
  }

  /** A snapshot of a committed index records the term the log has there and the given nodes, and nothing else changes;
      an index at or before the last snapshot is refused. */
  lemma {:induction false} CreateSnapshotView(st: Store, D: seq<Entry>, i: nat, cs: Option<set<NodeId>>)
    requires StoreView(st, D)
    ensures i <= st.snapshot.index ==> StoreCreateSnapshot(st, i, cs) == Done(Err(ErrSnapOutOfDate))
    ensures i > st.snapshot.index && (i > |D| || i < st.ents[0].index) ==> StoreCreateSnapshot(st, i, cs) == Fatal
    ensures st.snapshot.index < i <= st.hardState.commit && st.ents[0].index <= i ==>
              && StoreCreateSnapshot(st, i, cs).Done? && StoreCreateSnapshot(st, i, cs).value.Ok?
              && var st' := StoreCreateSnapshot(st, i, cs).value.value;
                 && StoreView(st', D) && st' == st.(snapshot := st'.snapshot)
                 && st'.snapshot == Snapshot(i, TermAt(D, i), if cs.Some? then cs.value else st.snapshot.nodes)
  {
  }

  /** Appending after position `after` replaces everything the store held beyond it. */
  lemma {:induction false} AppendView(st: Store, D: seq<Entry>, after: nat, ents: seq<Entry>)
    requires StoreView(st, D) && st.hardState.commit <= after <= |D| && ents != []
    requires forall k :: 0 <= k < |ents| ==> ents[k].index == after + k + 1
    ensures StoreAppend(st, ents).Done?
    ensures StoreView(StoreAppend(st, ents).value, D[..after] + ents)
  {
    var D' := D[..after] + ents;
    var st' := StoreAppend(st, ents).value;
    var off := st.ents[0].index;
    forall k | 1 <= k < |st'.ents|
      ensures st'.ents[k] == D'[off + k - 1]
    {
    }
  }
}
