/** RawNode as an object: Ready hands out what is new, Advance records that it is done. */
module RawNodeImpl {
  import opened RaftTypes
  import opened RaftStore
  import opened RaftImpl
  import opened W = RawNodeSpec
  import L = RaftLogSpec
  import N = RaftNodeSpec

  class RawNode {
    const raft: Raft
    var prevSoft: SoftState
    var prevHard: HardState

    ghost predicate Valid()
      reads raft.log.storage
    {
      raft.Valid()
    }

    ghost function View(): W.RawNode
      reads this, raft, raft.log
    {
      W.RawNode(raft.View(), prevSoft, prevHard)
    }

    constructor (raft: Raft)
      requires raft.Valid()
      ensures this.raft == raft && View() == NewRawNode(raft.View())
    {
      this.raft := raft;
      prevSoft := SoftState(raft.lead, raft.state);
      prevHard := HardState(raft.term, raft.vote, raft.log.committed);
    }

    method Step(m: N.Message) returns (fatal: bool)
      requires Valid()
      modifies raft, raft.log
      ensures Valid()
      ensures var o := RawStep(old(View()), raft.Stored(), m);
              fatal == o.Fatal? && (!fatal ==> View() == o.value)
    {
      hide N.Step;
      if m.MsgHup? || m.MsgBeat? {
        return false;
      }
      if m.from in raft.prs || !(m.MsgAppendResponse? || m.MsgRequestVoteResponse? || m.MsgHeartbeatResponse?) {
        var dropped;
        fatal, dropped := raft.Step(m);
        return fatal;
      }
      return false;
    }

    method Ready() returns (o: Outcome<Ready>)
      requires Valid()
      modifies raft`msgs
      ensures Valid()
      ensures match TakeReady(old(View()))
              case Fatal => o == Fatal
              case Done((rd, rn)) => o == Done(rd) && View() == rn
    {
      var entries := raft.log.UnstableEntries();
      var committed := raft.log.NextEnts();
      if entries.Fatal? || committed.Fatal? {
        return Fatal;
      }
      var soft := SoftState(raft.lead, raft.state);
      var hard := HardState(raft.term, raft.vote, raft.log.committed);
      var out := set m | m in raft.msgs;
      raft.msgs := [];
      o := Done(W.Ready(
                  if soft == prevSoft then None else Some(soft),
                  if hard == prevHard then EMPTY_HARD_STATE else hard,
                  entries.value,
                  if raft.log.pending.Some? then raft.log.pending.value else EMPTY_SNAPSHOT,
                  committed.value,
                  out));
    }

    method HasReady() returns (o: Outcome<bool>)
      requires Valid()
      ensures o == W.HasReady(View())
    {
      hide L.UnstableEntries, L.HasNextEnts;
      assert raft.View().msgs == {} <==> raft.msgs == [] by {
        assert raft.msgs != [] ==> raft.msgs[0] in raft.View().msgs;
      }
      var soft := SoftState(raft.lead, raft.state);
      var hard := HardState(raft.term, raft.vote, raft.log.committed);
      var pending := raft.log.pending;
      if soft != prevSoft || (hard != EMPTY_HARD_STATE && hard != prevHard) || (pending.Some? && pending.value.index != 0) || |raft.msgs| > 0 {
        return Done(true);
      }
      var entries := raft.log.UnstableEntries();
      if entries.Fatal? {
        return Fatal;
      }
      var more := raft.log.HasNextEnts();
      return Done(|entries.value| > 0 || more);
    }

    method Advance(rd: Ready) returns (fatal: bool)
      requires Valid()
      modifies this, raft.log
      ensures Valid()
      ensures var o := W.Advance(old(View()), rd);
              fatal == o.Fatal? && (!fatal ==> View() == o.value)
    {
      if rd.softState.Some? {
        prevSoft := rd.softState.value;
      }
      if rd.hardState != EMPTY_HARD_STATE {
        prevHard := rd.hardState;
      }
      fatal := raft.log.AppliedTo(prevHard.commit);
      if fatal {
        return true;
      }
      if |rd.entries| > 0 {
        var e := rd.entries[|rd.entries| - 1];
        raft.log.StableTo(e.index, e.term);
      }
      if rd.snapshot.index != 0 {
        raft.log.StableSnapTo(rd.snapshot.index);
      }
    }
  }

  /** One turn of the application's loop, persisting before anything is sent. */
  method RunCycle(rn: RawNode) returns (o: Outcome<Ready>)
    requires rn.Valid()
    modifies rn, rn.raft, rn.raft.log, rn.raft.log.storage
    ensures match Cycle(old(rn.View()), old(rn.raft.Stored()))
            case Fatal => o == Fatal
            case Done(c) => o == Done(c.rd) && rn.View() == c.rn && rn.Valid() && rn.raft.Stored() == c.st
  {
    o := rn.Ready();
    if o.Fatal? {
      return Fatal;
    }
    var rd, storage := o.value, rn.raft.log.storage;
    if rd.snapshot.index != 0 {
      var err := storage.ApplySnapshot(rd.snapshot);
      if err.Some? {
        return Fatal;
      }
    }
    if rd.hardState != EMPTY_HARD_STATE {
      storage.SetHardState(rd.hardState);
    }
    var fatal := storage.Append(rd.entries);
    if fatal {
      return Fatal;
    }
    fatal := rn.Advance(rd);
    if fatal {
      return Fatal;
    }
  }
}
