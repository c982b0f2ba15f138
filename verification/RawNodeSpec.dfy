/** RawNode as a value: Ready, Advance, and the cycle an application runs between them. */
module RawNodeSpec {
  import opened RaftTypes
  import opened RaftStore
  import opened RaftLogSpec
  import opened RaftNodeSpec

  datatype SoftState = SoftState(lead: NodeId, state: StateType)

  /** An empty hard state or a snapshot with index 0 means "no update". */
  datatype Ready = Ready(
    softState: Option<SoftState>,
    hardState: HardState,
    entries: seq<Entry>,
    snapshot: Snapshot,
    committedEntries: seq<Entry>,
    messages: set<Message>)

  datatype RawNode = RawNode(raft: Raft, prevSoft: SoftState, prevHard: HardState)

  const EMPTY_SNAPSHOT: Snapshot := Snapshot(0, 0, {})

  function SoftStateOf(r: Raft): SoftState { SoftState(r.lead, r.state) }

  function HardStateOf(r: Raft): HardState { HardState(r.term, r.vote, r.log.committed) }

  function NewRawNode(r: Raft): RawNode { RawNode(r, SoftStateOf(r), HardStateOf(r)) }

  function NewReady(rn: RawNode): Outcome<Ready> {
    var r := rn.raft;
    var entries :- UnstableEntries(r.log);
    var committed :- NextEnts(r.log);
    Done(Ready(
           if SoftStateOf(r) == rn.prevSoft then None else Some(SoftStateOf(r)),
           if HardStateOf(r) == rn.prevHard then EMPTY_HARD_STATE else HardStateOf(r),
           entries,
           if r.log.pending.Some? then r.log.pending.value else EMPTY_SNAPSHOT,
           committed,
           r.msgs))
  }

  /** Ready hands the queued messages over and forgets them. */
  function TakeReady(rn: RawNode): Outcome<(Ready, RawNode)> {
    var rd :- NewReady(rn);
    Done((rd, rn.(raft := rn.raft.(msgs := {}))))
  }

  /** Whether there is anything to do, without taking it. */
  function HasReady(rn: RawNode): Outcome<bool> {
    var r := rn.raft;
    if SoftStateOf(r) != rn.prevSoft then Done(true)
    else if HardStateOf(r) != EMPTY_HARD_STATE && HardStateOf(r) != rn.prevHard then Done(true)
    else if r.log.pending.Some? && r.log.pending.value.index != 0 then Done(true)
    else if r.msgs != {} then Done(true)
    else
      var entries :- UnstableEntries(r.log);
      Done(entries != [] || HasNextEnts(r.log))
  }

  function Advance(rn: RawNode, rd: Ready): Outcome<RawNode> {
    var hard := if rd.hardState != EMPTY_HARD_STATE then rd.hardState else rn.prevHard;
    var soft := if rd.softState.Some? then rd.softState.value else rn.prevSoft;
    var log1 :- AppliedTo(rn.raft.log, hard.commit);
    var log2 :=
      if rd.entries != [] then
        var e := rd.entries[|rd.entries| - 1];
        StableTo(log1, e.index, e.term)
      else log1;
    var log3 := if rd.snapshot.index != 0 then StableSnapTo(log2, rd.snapshot.index) else log2;
    Done(RawNode(rn.raft.(log := log3), soft, hard))
  }

  /** What the application writes to the store before it sends anything. */
  function Persist(st: Store, rd: Ready): Outcome<Store> {
    if rd.snapshot.index != 0 && StoreApplySnapshot(st, rd.snapshot).Err? then Fatal
    else
      var st1 := if rd.snapshot.index != 0 then StoreApplySnapshot(st, rd.snapshot).value else st;
      var st2 := if rd.hardState != EMPTY_HARD_STATE then st1.(hardState := rd.hardState) else st1;
      StoreAppend(st2, rd.entries)
  }

  datatype Cycled = Cycled(rn: RawNode, st: Store, rd: Ready)

  /** One turn of the application's loop: Ready, persist, send and apply, Advance. */
  function Cycle(rn: RawNode, st: Store): Outcome<Cycled> {
    var (rd, rn1) :- TakeReady(rn);
    var st' :- Persist(st, rd);
    var rn' :- Advance(rn1, rd);
    Done(Cycled(rn', st', rd))
  }

  /** RawNode.Step ignores local messages and responses from strangers. */
  ghost function RawStep(rn: RawNode, st: Store, m: Message): Outcome<RawNode> {
    if m.MsgHup? || m.MsgBeat? then Done(rn)
    else if m.from !in rn.raft.prs && (m.MsgAppendResponse? || m.MsgRequestVoteResponse? || m.MsgHeartbeatResponse?) then
      Done(rn)
    else
      var s :- Step(rn.raft, st, m);
      Done(rn.(raft := s.raft))
  }

  // ------------------------------------------------------------------ what the application hears

  /** What an application that last heard `view` of the node's leader and role knows after a Ready. */
  function Heard(view: SoftState, rd: Ready): SoftState {
    if rd.softState.Some? then rd.softState.value else view
  }

  /** What it knows of the hard state. */
  function HeardHard(view: HardState, rd: Ready): HardState {
    if rd.hardState != EMPTY_HARD_STATE then rd.hardState else view
  }

  /** After every cycle the application knows the leader, the role and the hard state of the node, and it is only told of
      changes. */
  lemma {:induction false} ChangesReported(rn: RawNode, st: Store)
    requires st.ents != [] && Cycle(rn, st).Done? && (HardStateOf(rn.raft) == EMPTY_HARD_STATE ==> rn.prevHard == EMPTY_HARD_STATE)
    ensures var done, r := Cycle(rn, st).value, rn.raft;
            && Heard(rn.prevSoft, done.rd) == SoftState(r.lead, r.state) == done.rn.prevSoft
            && HeardHard(rn.prevHard, done.rd) == HardState(r.term, r.vote, r.log.committed) == done.rn.prevHard
            && (done.rd.softState.Some? ==> done.rd.softState.value != rn.prevSoft)
            && (done.rd.hardState != EMPTY_HARD_STATE ==> done.rd.hardState != rn.prevHard)
  {
    hide UnstableEntries, NextEnts, Persist, AppliedTo, StableTo, StableSnapTo;
  }

  /** There is something in the Ready. */
  predicate Carries(rd: Ready) {
    rd.softState.Some? || rd.hardState != EMPTY_HARD_STATE || rd.snapshot.index != 0 || rd.messages != {} || rd.entries != [] || rd.committedEntries != []
  }

  // ------------------------------------------------------------------ Ready in terms of the complete log

  lemma {:induction false} UnstableView(l: Log, F: seq<Entry>)
    requires LogView(l, F)
    ensures UnstableEntries(l) == Done(F[l.stabled..])
  {
    assert l.entries[l.stabled + 1 - l.offset..] == F[l.stabled..];
  }

  /** nextEnts is the committed part of the log after what is applied, or after an incoming snapshot. */
  lemma {:induction false} NextEntsView(l: Log, F: seq<Entry>)
    requires LogView(l, F)
    ensures NextEnts(l) == Done(F[Max(l.applied, l.snapIndex)..l.committed])
  {
    LastIndexView(l, F);
    var from := Max(l.applied, l.snapIndex);
    SliceOfRest(F, l.snapIndex, from, l.committed);
    if l.entries == [] {
      assert F[from..l.committed] == [];
    }
  }

  lemma {:induction false} SliceOfRest(F: seq<Entry>, start: nat, from: nat, to: nat)
    requires start <= from <= to <= |F|
    ensures F[start..][from - start..to - start] == F[from..to]
  {
  }

  /** hasNextEnts agrees with a non-empty nextEnts except right after a snapshot that brought no entries. */
  lemma {:induction false} HasNextEntsExact(l: Log, F: seq<Entry>)
    requires LogView(l, F)
    ensures HasNextEnts(l) <==> (NextEnts(l).value != [] || (l.pending.Some? && l.entries == []))
  {
    LastIndexView(l, F);
    NextEntsView(l, F);
  }

  /** HasReady never fails, and is true exactly if the next Ready has something in it. */
  lemma {:induction false} HasReadyExact(rn: RawNode, F: seq<Entry>)
    requires LogView(rn.raft.log, F)
    ensures NewReady(rn).Done? && HasReady(rn) == Done(Carries(NewReady(rn).value))
  {
    hide UnstableEntries, NextEnts, HasNextEnts;
    UnstableView(rn.raft.log, F);
    NextEntsView(rn.raft.log, F);
    HasNextEntsExact(rn.raft.log, F);
  }

  // ------------------------------------------------------------------ persistence

  lemma {:induction false} AppendIgnoresHardState(st: Store, hs: HardState, ents: seq<Entry>)
    requires st.ents != [] && StoreAppend(st, ents).Done?
    ensures StoreAppend(st.(hardState := hs), ents) == Done(StoreAppend(st, ents).value.(hardState := hs))
  {
  }

  lemma {:induction false} HardStateView(st: Store, D: seq<Entry>, hs: HardState)
    requires StoreView(st, D) && st.hardState.commit <= hs.commit <= |D|
    ensures StoreView(st.(hardState := hs), D)
  {
  }

  /** Without a snapshot, writing the unstable entries makes the store hold the in-memory log. */
  lemma {:induction false} PersistEntries(l: Log, F: seq<Entry>, st: Store, D: seq<Entry>, hs: HardState)
    requires Synced(l, F, st, D) && l.pending.None? && hs.commit == l.committed
    ensures StoreAppend(st.(hardState := hs), F[l.stabled..]).Done?
    ensures var st' := StoreAppend(st.(hardState := hs), F[l.stabled..]).value;
            StoreView(st', F) && st'.hardState == hs && st'.snapshot == st.snapshot && st'.ents[0].index == st.ents[0].index
  {
    var ents := F[l.stabled..];
    if ents == [] {
      assert D == F;
      HardStateView(st, D, hs);
    } else {
      AppendView(st, D, l.stabled, ents);
      assert D[..l.stabled] + ents == F;
      HardStateView(StoreAppend(st, ents).value, F, hs);
      AppendIgnoresHardState(st, hs, ents);
    }
  }

  /** With a snapshot, the store restarts from it. */
  lemma {:induction false} PersistSnapshot(l: Log, F: seq<Entry>, st: Store, D: seq<Entry>, hs: HardState)
    requires Synced(l, F, st, D) && l.pending.Some? && hs.commit == l.committed
    ensures StoreApplySnapshot(st, l.pending.value).Ok?
    ensures var st1 := StoreApplySnapshot(st, l.pending.value).value.(hardState := hs);
            && StoreAppend(st1, F[l.stabled..]).Done?
            && var st' := StoreAppend(st1, F[l.stabled..]).value;
               StoreView(st', F) && st'.hardState == hs && st'.snapshot == l.pending.value && st'.ents[0].index == l.snapIndex
  {
    var s := l.pending.value;
    var st1 := StoreApplySnapshot(st, s).value.(hardState := HardState(0, NONE, s.index));
    var ents := F[l.stabled..];
    var base := F[..s.index];
    assert StoreView(st1, base);
    if ents == [] {
      assert base == F;
      HardStateView(st1, F, hs);
    } else {
      AppendView(st1, base, s.index, ents);
      assert base[..s.index] + ents == F;
      HardStateView(StoreAppend(st1, ents).value, F, hs);
      AppendIgnoresHardState(st1, hs, ents);
    }
  }

  /** The store a cycle leaves behind holds exactly the in-memory log and the node's hard state. */
  lemma {:induction false} PersistView(rn: RawNode, F: seq<Entry>, st: Store, D: seq<Entry>)
    requires Synced(rn.raft.log, F, st, D) && rn.prevHard == st.hardState
    requires HardStateOf(rn.raft) == EMPTY_HARD_STATE ==> st.hardState == EMPTY_HARD_STATE
    ensures NewReady(rn).Done? && Persist(st, NewReady(rn).value).Done?
    ensures var st' := Persist(st, NewReady(rn).value).value;
            && StoreView(st', F)
            && st'.hardState == HardStateOf(rn.raft)
            && st'.snapshot == LogSnapshot(rn.raft.log, st)
            && rn.raft.log.snapIndex <= st'.ents[0].index <= rn.raft.log.committed
  {
    hide Synced, LogView, StoreView, StoreAppend, UnstableEntries, NextEnts;
    var l := rn.raft.log;
    var hs := HardStateOf(rn.raft);
    SyncedFacts(l, F, st, D);
    UnstableView(l, F);
    NextEntsView(l, F);
    assert st.(hardState := st.hardState) == st;
    if l.pending.Some? {
      PersistSnapshot(l, F, st, D, hs);
      var st1 := StoreApplySnapshot(st, l.pending.value).value;
      assert st1.(hardState := st.hardState) == st1;
    } else {
      PersistEntries(l, F, st, D, hs);
    }
  }

  lemma {:induction false} SyncedFacts(l: Log, F: seq<Entry>, st: Store, D: seq<Entry>)
    requires Synced(l, F, st, D)
    ensures LogView(l, F) && StoreView(st, D) && st.ents != []
    ensures st.ents[0].index <= l.applied <= st.hardState.commit <= l.committed <= |F|
    ensures l.snapIndex <= l.committed
    ensures l.pending.None? ==> l.snapIndex <= st.ents[0].index
    ensures l.pending.Some? ==> l.pending.value.index == l.snapIndex && l.snapIndex > 0
  {
  }

  /** After Advance everything is stable and everything committed counts as applied. */
  function Settled(l: Log, F: seq<Entry>): Log {
    l.(applied := l.committed, stabled := |F|, pending := None)
  }

  lemma {:induction false} AdvanceSettles(rn: RawNode, F: seq<Entry>, st: Store, D: seq<Entry>)
    requires Synced(rn.raft.log, F, st, D) && rn.prevHard == st.hardState && NewReady(rn).Done?
    requires HardStateOf(rn.raft) == EMPTY_HARD_STATE ==> st.hardState == EMPTY_HARD_STATE
    ensures Advance(rn.(raft := rn.raft.(msgs := {})), NewReady(rn).value) ==
              Done(RawNode(rn.raft.(msgs := {}, log := Settled(rn.raft.log, F)), SoftStateOf(rn.raft), HardStateOf(rn.raft)))
  {
    hide Synced, LogView, UnstableEntries, NextEnts, MatchTerm, StoreView;
    var l := rn.raft.log;
    SyncedFacts(l, F, st, D);
    UnstableView(l, F);
    NextEntsView(l, F);
    StabledBound(l, F);
    if l.stabled < |F| {
      var e := F[l.stabled..][|F| - l.stabled - 1];
      assert e == F[|F| - 1];
      LastMatches(l.(applied := l.committed), l, F);
    }
  }

  lemma {:induction false} StabledBound(l: Log, F: seq<Entry>)
    requires LogView(l, F)
    ensures l.stabled <= |F|
  {
  }

  lemma {:induction false} LastMatches(l': Log, l: Log, F: seq<Entry>)
    requires LogView(l, F) && F != [] && l' == l.(applied := l'.applied)
    ensures F[|F| - 1].index == |F| && MatchTerm(l', |F|, F[|F| - 1].term)
  {
    MatchTermView(l, F, |F|, F[|F| - 1].term);
  }

  lemma {:induction false} SettledSynced(l: Log, F: seq<Entry>, st: Store)
    requires LogView(l, F) && StoreView(st, F)
    requires l.snapIndex <= st.ents[0].index <= l.committed && st.hardState.commit == l.committed
    ensures Synced(Settled(l, F), F, st, F)
  {
  }
}
