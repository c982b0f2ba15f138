/** A Ready cycle of the code is a flush of the protocol, and a restart is a crash. */
module RaftCycle {
  import opened RaftTypes
  import opened RaftStore
  import opened RaftLogSpec
  import opened RaftNodeSpec
  import opened RawNodeSpec
  import opened RaftCoupling
  import opened RaftSimulation
  import D = RaftProtocolDurable
  import P = RaftProtocol
  import L = RaftProtocolProofs

  // ------------------------------------------------------------------ messages survive a flush

  lemma {:induction false} AckFlush(a: P.State, a': P.State, n: NodeId, q: NodeId, t: nat, i: nat)
    requires D.Flushed(a, a', n) && P.HasAck(a, q, t, i)
    ensures P.HasAck(a', q, t, i)
    ensures q == n ==> P.NetAck(a', q, t, i)
  {
    var j: nat :| j >= i && P.Sent(a, P.Ack(t, q, j));
    assert P.Sent(a', P.Ack(t, q, j));
    if q == n {
      assert P.Ack(t, q, j) in a'.net;
    }
  }

  lemma {:induction false} FlushedCommit(a: P.State, a': P.State, n: NodeId, who: NodeId, t: nat, log: seq<Entry>, c: nat)
    requires P.InvTypes(a) && D.Flushed(a, a', n) && P.CommitOK(a, who, t, log, c)
    ensures P.CommitOK(a', if who == n then NONE else who, t, log, c)
  {
    if who == n {
      D.CommitFlush(a, a', n, t, log, c);
    } else {
      D.FlushGrows(a, a', n);
      L.CommitFits(a, who, t, log, c);
      L.CommitGrows(a, a', n, who, t, t, log, log, c);
    }
  }

  lemma {:induction false} AnnouncedFlush(a: P.State, a': P.State, n: NodeId, who: NodeId, from: NodeId, t: nat, i: nat)
    requires D.Flushed(a, a', n) && Announced(a, who, from, t, i) && (who == NONE || who == from)
    ensures Announced(a', if who == n then NONE else who, from, t, i)
  {
    if who == NONE {
      L.NetAckGrows(a, a', from, t, i);
    } else {
      AckFlush(a, a', n, from, t, i);
    }
  }

  lemma {:induction false} ResponseFlush(a: P.State, a': P.State, n: NodeId, who: NodeId, from: NodeId, t: nat, index: nat, reject: bool)
    requires P.InvTypes(a) && D.Flushed(a, a', n) && AppendResponseOK(a, who, from, t, index, reject)
    requires who == NONE || who == from
    ensures AppendResponseOK(a', if who == n then NONE else who, from, t, index, reject)
  {
    if !reject {
      if who == NONE {
        L.NetAckGrows(a, a', from, t, index);
      } else {
        AckFlush(a, a', n, from, t, index);
      }
    }
  }

  lemma {:induction false} RequestVoteFlush(a: P.State, a': P.State, n: NodeId, who: NodeId, from: NodeId, t: nat, index: nat, logTerm: nat)
    requires P.InvTypes(a) && D.Flushed(a, a', n) && from in a.ids && P.NodeOK(a, from)
    requires RequestVoteOK(a, who, from, t, index, logTerm) && (who == NONE || who == from)
    ensures RequestVoteOK(a', if who == n then NONE else who, from, t, index, logTerm)
  {
    hide P.Shaped, P.Rooted;
  }

  lemma {:induction false} VoteFlush(a: P.State, a': P.State, n: NodeId, who: NodeId, from: NodeId, to: NodeId, t: nat, reject: bool)
    requires D.Flushed(a, a', n) && VoteResponseOK(a, who, from, to, t, reject) && (who == NONE || who == from)
    ensures VoteResponseOK(a', if who == n then NONE else who, from, to, t, reject)
  {
    assert P.Sent(a', P.Vote(t, from, to)) == P.Sent(a, P.Vote(t, from, to));
  }

  /** Messages queued at `n` become network messages; all others stay what they are. */
  lemma {:induction false} MsgFlush(a: P.State, a': P.State, n: NodeId, who: NodeId, m: Message)
    requires P.InvTypes(a) && P.InvNodes(a) && D.Flushed(a, a', n) && MsgOK(a, who, m)
    ensures MsgOK(a', if who == n then NONE else who, m)
  {
    hide P.CommitOK, AppendResponseOK, RequestVoteOK, VoteResponseOK, Announced, P.NodeOK, P.InvTypes;
    match m {
      case MsgAppend(from, _, t, index, logTerm, ents, commit) =>
        FlushedCommit(a, a', n, who, t, a.tlog[t], commit);
        AnnouncedFlush(a, a', n, who, from, t, index + |ents|);
      case MsgAppendResponse(from, _, t, index, reject, _) =>
        ResponseFlush(a, a', n, who, from, t, index, reject);
      case MsgRequestVote(from, _, t, index, logTerm) =>
        assert P.NodeOK(a, from);
        RequestVoteFlush(a, a', n, who, from, t, index, logTerm);
      case MsgRequestVoteResponse(from, to, t, reject) =>
        VoteFlush(a, a', n, who, from, to, t, reject);
      case MsgSnapshot(from, _, t, s) =>
        FlushedCommit(a, a', n, who, t, a.tlog[t], s.index);
        AnnouncedFlush(a, a', n, who, from, t, 0);
      case MsgHeartbeat(_, to, t, commit) =>
        FlushedCommit(a, a', n, who, t, a.tlog[t], commit);
        if commit != 0 {
          L.NetAckGrows(a, a', to, t, commit);
        }
      case MsgHeartbeatResponse(_, _, _) =>
      case MsgTransferLeader(_, _, _) =>
      case MsgTimeoutNow(_, _, _) =>
    }
  }

  lemma {:induction false} VotesFlush(a: P.State, a': P.State, n: NodeId, m: NodeId, r: Raft)
    requires D.Flushed(a, a', n) && VotesOK(a, m, r)
    ensures VotesOK(a', m, r)
  {
    if r.state == StateCandidate {
      forall v | v in r.votes && r.votes[v]
        ensures v in a'.ids && (P.Vote(r.term, v, m) in a'.net || (v == m && P.Vote(r.term, v, m) in a'.queued))
      {
        assert P.Sent(a', P.Vote(r.term, v, m)) == P.Sent(a, P.Vote(r.term, v, m));
      }
    }
  }

  lemma {:induction false} ProgressesFlush(a: P.State, a': P.State, n: NodeId, m: NodeId, r: Raft)
    requires D.Flushed(a, a', n) && ProgressesOK(a, m, r)
    ensures ProgressesOK(a', m, r)
  {
    if r.state == StateLeader {
      forall q | q in r.prs
        ensures ProgressOK(a', m, q, r.prs[q], r.term, LastIndex(r.log))
      {
        assert ProgressOK(a, m, q, r.prs[q], r.term, LastIndex(r.log));
        if r.prs[q].Match != 0 {
          if P.NetAck(a, q, r.term, r.prs[q].Match) {
            L.NetAckGrows(a, a', q, r.term, r.prs[q].Match);
          } else {
            AckFlush(a, a', n, q, r.term, r.prs[q].Match);
          }
        }
      }
    }
  }

  /** Other nodes do not notice a flush of `n`. */
  lemma {:induction false} OthersFlush(a: P.State, a': P.State, n: NodeId, m: NodeId, r: Raft, st: Store)
    requires P.InvTypes(a) && P.InvNodes(a) && D.Flushed(a, a', n) && m != n && RaftOK(a, m, r, st)
    ensures RaftOK(a', m, r, st)
  {
    hide MsgOK, P.InvNodes, Synced, ProgressesOK, VotesOK;
    forall x | x in r.msgs
      ensures MsgOK(a', m, x)
    {
      MsgFlush(a, a', n, m, x);
    }
    VotesFlush(a, a', n, m, r);
    ProgressesFlush(a, a', n, m, r);
  }

  // ------------------------------------------------------------------ the cycle

  /** The hard state is only empty if the stored one is. */
  lemma {:induction false} HardStateGrows(a: P.State, n: NodeId, r: Raft, st: Store)
    requires FieldsOK(a, n, r, st) && P.NodeOK(a, n)
    ensures HardStateOf(r) == EMPTY_HARD_STATE ==> st.hardState == EMPTY_HARD_STATE
  {
  }

  /** What one cycle hands to the application and leaves behind. */
  lemma {:induction false} CycleResult(a: P.State, n: NodeId, rn: RawNode, st: Store)
    requires FieldsOK(a, n, rn.raft, st) && P.NodeOK(a, n) && rn.prevHard == st.hardState && st.ents != []
    ensures Cycle(rn, st).Done?
    ensures var done := Cycle(rn, st).value;
            var F := P.VolAt(a, n).hard.log;
            var l := rn.raft.log;
            && done.rn == RawNode(rn.raft.(msgs := {}, log := Settled(l, F)), SoftStateOf(rn.raft), HardStateOf(rn.raft))
            && done.st.ents != []
            && done.st.hardState == HardStateOf(rn.raft)
            && done.st.snapshot == LogSnapshot(l, st)
            && Synced(Settled(l, F), F, done.st, F)
            && done.rd.messages == rn.raft.msgs
            && done.rd.snapshot == (if l.pending.Some? then l.pending.value else EMPTY_SNAPSHOT)
            && Max(l.applied, l.snapIndex) <= l.committed <= |F|
            && done.rd.committedEntries == F[Max(l.applied, l.snapIndex)..l.committed]
  {
    hide Synced, LogView, StoreView, UnstableEntries, NextEnts, Advance, Persist, P.NodeOK;
    var F, Dl, l := a.vol[n].hard.log, a.dur[n].log, rn.raft.log;
    HardStateGrows(a, n, rn.raft, st);
    SyncedFacts(l, F, st, Dl);
    UnstableView(l, F);
    NextEntsView(l, F);
    PersistView(rn, F, st, Dl);
    AdvanceSettles(rn, F, st, Dl);
    var st' := Persist(st, NewReady(rn).value).value;
    StoreNotEmpty(st', F);
    SettledSynced(l, F, st');
  }

  lemma {:induction false} StoreNotEmpty(st: Store, D: seq<Entry>)
    requires StoreView(st, D)
    ensures st.ents != []
  {
  }

  /** A cycle of the code is a flush of the protocol. */
  lemma {:induction false} SimCycle(a: P.State, n: NodeId, rn: RawNode, st: Store)
    requires P.Inv(a) && RaftOK(a, n, rn.raft, st) && rn.prevHard == st.hardState && st.ents != []
    ensures Cycle(rn, st).Done? && n in a.vol
    ensures var done := Cycle(rn, st).value;
            && done.st.ents != []
            && RaftOK(P.Flush(a, n), n, done.rn.raft, done.st)
            && done.rn.prevHard == done.st.hardState
            && forall m :: m in done.rd.messages ==> MsgOK(P.Flush(a, n), NONE, m)
  {
    hide P.Inv, Synced, LogView, StoreView, MsgOK, Cycle, P.Flush, P.InvTypes, P.InvNodes, P.NodeOK, VotesOK, ProgressesOK;
    Facts(a, n);
    var a' := P.Flush(a, n);
    D.FlushIsFlushed(a, n);
    CycleResult(a, n, rn, st);
    var done := Cycle(rn, st).value;
    forall m | m in done.rd.messages
      ensures MsgOK(a', NONE, m)
    {
      MsgFlush(a, a', n, n, m);
    }
    VotesFlush(a, a', n, n, rn.raft);
    ProgressesFlush(a, a', n, n, rn.raft);
    SettledFields(a, a', n, rn.raft, st, done.st);
    SettledRest(a', n, rn.raft, done.rn.raft, a.vol[n].hard.log);
  }

  lemma {:induction false} SettledFields(a: P.State, a': P.State, n: NodeId, r: Raft, st: Store, st': Store)
    requires FieldsOK(a, n, r, st) && D.Flushed(a, a', n) && n in a.vol
    requires st'.hardState == HardStateOf(r) && st'.snapshot == LogSnapshot(r.log, st)
    requires Synced(Settled(r.log, P.VolAt(a, n).hard.log), P.VolAt(a, n).hard.log, st', P.VolAt(a, n).hard.log)
    ensures FieldsOK(a', n, r.(msgs := {}, log := Settled(r.log, P.VolAt(a, n).hard.log)), st')
  {
    hide Synced;
  }

  lemma {:induction false} SettledRest(a: P.State, n: NodeId, r: Raft, r': Raft, F: seq<Entry>)
    requires VotesOK(a, n, r) && ProgressesOK(a, n, r) && (r.state == StateLeader ==> r.log.entries != [])
    requires r' == r.(msgs := {}, log := Settled(r.log, F))
    ensures VotesOK(a, n, r') && ProgressesOK(a, n, r') && OutboxOK(a, n, r')
    ensures r'.state == StateLeader ==> r'.log.entries != [] && LastIndex(r'.log) == LastIndex(r.log)
  {
    hide ProgressOK;
  }

  // ------------------------------------------------------------------ messages survive a crash

  /** Messages of other nodes and of the network survive a crash of `n`. */
  lemma {:induction false} MsgCrash(a: P.State, a': P.State, n: NodeId, who: NodeId, m: Message)
    requires P.InvTypes(a) && P.InvAcks(a) && D.Crashed(a, a', n) && who != n && MsgOK(a, who, m)
    ensures MsgOK(a', who, m)
  {
    hide P.CommitOK, P.InvAcks, Announced;
    match m {
      case MsgAppend(from, _, t, index, logTerm, ents, commit) =>
        D.CommitCrash(a, a', n, who, t, a.tlog[t], commit);
        AnnouncedCrash(a, a', n, who, from, m.to, t, index + |ents|);
      case MsgAppendResponse(from, _, t, index, reject, _) =>
        ResponseCrash(a, a', n, who, from, m.to, t, index, reject);
      case MsgRequestVote(from, _, t, index, logTerm) =>
      case MsgRequestVoteResponse(from, to, t, _) =>
      case MsgSnapshot(from, _, t, s) =>
        D.CommitCrash(a, a', n, who, t, a.tlog[t], s.index);
        AnnouncedCrash(a, a', n, who, from, m.to, t, 0);
      case MsgHeartbeat(_, to, t, commit) =>
        D.CommitCrash(a, a', n, who, t, a.tlog[t], commit);
      case MsgHeartbeatResponse(_, _, _) =>
      case MsgTransferLeader(_, _, _) =>
      case MsgTimeoutNow(_, _, _) =>
    }
  }

  lemma {:induction false} AnnouncedCrash(a: P.State, a': P.State, n: NodeId, who: NodeId, from: NodeId, to: NodeId, t: nat, i: nat)
    requires D.Crashed(a, a', n) && who != n && (who == NONE || who == from) && Announced(a, who, from, t, i)
    requires from in a.ids && to in a.ids && from != to
    ensures Announced(a', who, from, t, i)
  {
    assert a.ids != {n};
    if who != NONE {
      AckCrash(a, a', n, from, t, i);
    }
  }

  lemma {:induction false} ResponseCrash(a: P.State, a': P.State, n: NodeId, who: NodeId, from: NodeId, to: NodeId, t: nat, index: nat, reject: bool)
    requires D.Crashed(a, a', n) && who != n && (who == NONE || who == from)
    requires from in a.ids && to in a.ids && from != to && AppendResponseOK(a, who, from, t, index, reject)
    ensures AppendResponseOK(a', who, from, t, index, reject)
  {
    if !reject && who != NONE {
      AckCrash(a, a', n, from, t, index);
    }
  }

  lemma {:induction false} AckCrash(a: P.State, a': P.State, n: NodeId, q: NodeId, t: nat, i: nat)
    requires D.Crashed(a, a', n) && q != n && P.HasAck(a, q, t, i)
    ensures P.HasAck(a', q, t, i)
  {
    var j: nat :| j >= i && P.Sent(a, P.Ack(t, q, j));
    assert P.Sent(a', P.Ack(t, q, j));
  }

  lemma {:induction false} ProgressesCrash(a: P.State, a': P.State, n: NodeId, m: NodeId, r: Raft)
    requires D.Crashed(a, a', n) && m != n && ProgressesOK(a, m, r)
    ensures ProgressesOK(a', m, r)
  {
    if r.state == StateLeader {
      forall q | q in r.prs
        ensures ProgressOK(a', m, q, r.prs[q], r.term, LastIndex(r.log))
      {
        assert ProgressOK(a, m, q, r.prs[q], r.term, LastIndex(r.log));
        if r.prs[q].Match != 0 && !P.NetAck(a, q, r.term, r.prs[q].Match) {
          AckCrash(a, a', n, q, r.term, r.prs[q].Match);
        }
      }
    }
  }

  lemma {:induction false} VotesCrash(a: P.State, a': P.State, n: NodeId, m: NodeId, r: Raft)
    requires D.Crashed(a, a', n) && m != n && VotesOK(a, m, r)
    ensures VotesOK(a', m, r)
  {
  }

  /** Other nodes do not notice a crash of `n`. */
  lemma {:induction false} OthersCrash(a: P.State, a': P.State, n: NodeId, m: NodeId, r: Raft, st: Store)
    requires P.InvTypes(a) && P.InvAcks(a) && D.Crashed(a, a', n) && m != n && RaftOK(a, m, r, st)
    ensures RaftOK(a', m, r, st)
  {
    hide MsgOK, P.InvAcks, Synced, ProgressesOK, VotesOK;
    forall x | x in r.msgs
      ensures MsgOK(a', m, x)
    {
      MsgCrash(a, a', n, m, x);
    }
    VotesCrash(a, a', n, m, r);
    ProgressesCrash(a, a', n, m, r);
  }

  // ------------------------------------------------------------------ restart

  /** The log newLog builds from a store is what the store retains of the durable log. */
  lemma {:induction false} NewLogView(st: Store, D: seq<Entry>)
    requires StoreView(st, D)
    ensures NewLog(st).Done?
    ensures var l := NewLog(st).value;
            && LogView(l, D)
            && l.committed == l.applied == l.snapIndex == st.ents[0].index && l.stabled == |D| && l.pending.None?
  {
    StoreViewTerm(st, D, st.ents[0].index);
    assert st.ents[1..] == D[st.ents[0].index..];
  }

  /** A node restarted on a store has the stored term, vote, commit index and log. The applied index the
      application passes is accepted exactly when it is 0 or between the compacted and the committed index. */
  lemma {:induction false} NewRaftView(n: NodeId, peers: set<NodeId>, applied: nat, st: Store, D: seq<Entry>)
    requires StoreView(st, D) && n != NONE && (st.snapshot.nodes == {} || peers == {})
    ensures NewRaft(n, peers, applied, st).Done? <==> (applied == 0 || st.ents[0].index <= applied <= st.hardState.commit)
    ensures NewRaft(n, peers, applied, st).Done? ==>
              var r := NewRaft(n, peers, applied, st).value;
              && Synced(r.log, D, st, D)
              && HardStateOf(r) == st.hardState
              && r.log.applied == Max(applied, st.ents[0].index)
              && r.state == StateFollower && r.id == n && r.msgs == {}
              && r.prs.Keys == (if st.snapshot.nodes != {} then st.snapshot.nodes else peers)
              && r.log.pending.None?
  {
    hide NewLog;
    NewLogView(st, D);
    LastIndexView(NewLog(st).value, D);
  }

  /** A restart of the code is a crash of the protocol. */
  lemma {:induction false} SimRestart(a: P.State, n: NodeId, st: Store, peers: set<NodeId>, applied: nat, r0: Raft)
    requires P.Inv(a) && FieldsOK(a, n, r0, st) && st.ents != []
    requires if st.snapshot.nodes == {} then peers == a.ids else st.snapshot.nodes == a.ids && peers == {}
    requires NewRaft(n, peers, applied, st).Done?
    ensures var r := NewRaft(n, peers, applied, st).value;
            RaftOK(P.Crash(a, n), n, r, st) && HardStateOf(r) == st.hardState
  {
    hide P.Inv, NewRaft, Synced, StoreView, P.Crash, P.InvTypes, P.InvNodes, P.NodeOK;
    Facts(a, n);
    SyncedFacts(r0.log, a.vol[n].hard.log, st, a.dur[n].log);
    assert n != NONE by { NotNone(a, n); }
    NewRaftView(n, peers, applied, st, a.dur[n].log);
    D.CrashIsCrashed(a, n);
  }

  lemma {:induction false} NotNone(a: P.State, n: NodeId)
    requires P.InvTypes(a) && n in a.ids
    ensures n != NONE
  {
  }

  /** On a fresh store the node starts in the initial state of the protocol. */
  lemma {:induction false} SimStart(ids: set<NodeId>, n: NodeId)
    requires NONE !in ids && n in ids
    ensures NewRaft(n, ids, 0, NewStore()).Done?
    ensures var r := NewRaft(n, ids, 0, NewStore()).value;
            RaftOK(P.Init(ids), n, r, NewStore()) && HardStateOf(r) == EMPTY_HARD_STATE && r.log.applied == 0
  {
    hide NewRaft;
    NewRaftView(n, ids, 0, NewStore(), []);
  }

  // ------------------------------------------------------------------ compaction and snapshots of the store

  lemma {:induction false} SimCompact(a: P.State, n: NodeId, r: Raft, st: Store, i: nat)
    requires RaftOK(a, n, r, st) && st.ents != [] && st.ents[0].index < i <= r.log.applied
    ensures StoreCompact(st, i).Done? && StoreCompact(st, i).value.Ok?
    ensures RaftOK(a, n, r, StoreCompact(st, i).value.value) && StoreCompact(st, i).value.value.ents != []
  {
    hide VotesOK, ProgressesOK, OutboxOK;
    var Dl := a.dur[n].log;
    SyncedFacts(r.log, a.vol[n].hard.log, st, Dl);
    CompactView(st, Dl, i);
  }

  lemma {:induction false} SimTakeSnapshot(a: P.State, n: NodeId, r: Raft, st: Store, i: nat)
    requires RaftOK(a, n, r, st) && st.ents != [] && Max(st.ents[0].index, st.snapshot.index + 1) <= i <= r.log.applied
    ensures StoreCreateSnapshot(st, i, Some(a.ids)).Done? && StoreCreateSnapshot(st, i, Some(a.ids)).value.Ok?
    ensures RaftOK(a, n, r, StoreCreateSnapshot(st, i, Some(a.ids)).value.value)
  {
    hide VotesOK, ProgressesOK, OutboxOK;
    var Dl := a.dur[n].log;
    SyncedFacts(r.log, a.vol[n].hard.log, st, Dl);
    CreateSnapshotView(st, Dl, i, Some(a.ids));
  }
}
