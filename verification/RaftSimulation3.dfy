/** Every step of the code is a sequence of steps of the protocol: what followers and leaders do with entries. */
module RaftSimulation3 {
  import opened RaftTypes
  import opened RaftStore
  import opened RaftLogSpec
  import opened RaftNodeSpec
  import opened RaftCoupling
  import opened RaftSimulation
  import opened RaftSimulation2
  import D = RaftProtocolDurable
  import P = RaftProtocol
  import L = RaftProtocolProofs
  import S1 = RaftProtocolSteps

  // ------------------------------------------------------------------ commit of a follower

  /** A commit index the leader announced is safe for a follower whose log agrees with the leader's up to it. */
  lemma {:induction false} BackedForFollower(a: P.State, n: NodeId, t: nat, T: seq<Entry>, F: seq<Entry>, c0: nat, c: nat)
    requires P.InvTypes(a) && P.CommitOK(a, NONE, t, T, c0) && c <= c0 && Agree(F, T, c)
    ensures P.CommitOK(a, n, t, F, c) && P.CommitOK(a, NONE, t, F, c)
  {
    L.CommitDown(a, NONE, t, T, c0, c);
    L.CommitUp(a, NONE, t, t, T, F, c);
    D.CommitAnyone(a, n, t, F, c);
  }

  lemma {:induction false} SimFollowCommit(a: P.State, n: NodeId, r: Raft, st: Store, c0: nat, c: nat) returns (a': P.State)
    requires P.Inv(a) && RaftCore(a, n, r, st) && r.term in a.tlog && n in a.vol
    requires P.CommitOK(a, NONE, r.term, P.TlogAt(a, r.term), c0) && c <= c0
    requires Agree(P.VolAt(a, n).hard.log, P.TlogAt(a, r.term), c)
    ensures CommitTo(r.log, c).Done?
    ensures P.Inv(a') && Reaches(a, a', n) && RaftCore(a', n, r.(log := CommitTo(r.log, c).value), st)
    ensures a'.queued == a.queued && a'.tlog == a.tlog && n in a'.vol && P.VolAt(a', n).hard.log == P.VolAt(a, n).hard.log
  {
    hide P.Inv, P.InvNodes, P.NodeOK, Reaches, FieldsOK, VotesOK, ProgressesOK, OutboxOK, Synced, LogView, P.CommitOK;
    TermOf(a, n, r, st);
    Facts(a, n);
    LastIndexView(r.log, a.vol[n].hard.log);
    if r.log.committed < c {
      BackedForFollower(a, n, r.term, a.tlog[r.term], a.vol[n].hard.log, c0, c);
      a' := SimCommit(a, n, r, st, c);
    } else {
      a' := a;
      ReachesRefl(a, n);
    }
  }

  // ------------------------------------------------------------------ handleAppendEntries

  /** The log after maybeAppend has dealt with the entries, before it moves the commit index. */
  function LogWith(l: Log, st: Store, index: nat, ents: seq<Entry>): Outcome<Log>
    requires st.ents != []
  {
    var ci := FindConflict(l, ents);
    if ci == 0 then Done(l)
    else if ci <= l.committed || ci < index + 1 || ci - (index + 1) > |ents| then Fatal
    else Append(l, st, ents[ci - (index + 1)..])
  }

  lemma {:induction false} MaybeAppendWith(l: Log, st: Store, index: nat, logTerm: nat, committed: nat, ents: seq<Entry>)
    requires st.ents != [] && MatchTerm(l, index, logTerm) && LogWith(l, st, index, ents).Done?
    ensures MaybeAppend(l, st, index, logTerm, committed, ents) ==
              var l' :- CommitTo(LogWith(l, st, index, ents).value, Min(committed, index + |ents|));
              Done((l', Some(index + |ents|)))
  {
  }

  lemma {:induction false} WithIsAdopt(a: P.State, l: Log, F: seq<Entry>, st: Store, D: seq<Entry>, T: seq<Entry>, index: nat, ents: seq<Entry>)
    requires Synced(l, F, st, D) && P.Rooted(a, F) && P.Rooted(a, T)
    requires index + |ents| <= |T| && (forall k :: 0 <= k < |ents| ==> ents[k] == T[index + k])
    requires (forall k :: 0 <= k < |T| ==> T[k].index == k + 1)
    requires l.committed <= index && MatchTerm(l, index, TermAt(T, index))
    ensures LogWith(l, st, index, ents).Done?
    ensures var l' := LogWith(l, st, index, ents).value;
            && Synced(l', P.AdoptLog(F, T, index + |ents|), st, D)
            && l'.committed == l.committed && l'.applied == l.applied && l'.pending == l.pending
  {
    hide Synced, Append, FindConflict, P.Rooted, MatchTerm, P.AdoptLog;
    AppendIsAdopt(a, l, F, st, D, T, index, ents);
  }

  lemma {:induction false} NodeLog(a: P.State, n: NodeId)
    requires P.Inv(a) && n in a.ids && n in a.vol
    ensures P.Rooted(a, P.VolAt(a, n).hard.log)
  {
    assert P.NodeOK(a, n);
  }

  /** First half of an accepted append: the entries. */
  lemma {:induction false} SimMerge(a: P.State, n: NodeId, r: Raft, st: Store, m: Message) returns (a': P.State)
    requires P.Inv(a) && RaftCore(a, n, r, st) && r.state == StateFollower
    requires m.MsgAppend? && MsgOK(a, NONE, m) && m.to == n && m.term == r.term && st.ents != []
    requires r.log.committed <= m.index && MatchTerm(r.log, m.index, m.logTerm)
    ensures LogWith(r.log, st, m.index, m.ents).Done?
    ensures P.Inv(a') && Reaches(a, a', n)
    ensures RaftCore(a', n, r.(log := LogWith(r.log, st, m.index, m.ents).value), st)
    ensures a'.tlog == a.tlog && n in a'.vol
    ensures Agree(P.VolAt(a', n).hard.log, P.TlogAt(a', r.term), m.index + |m.ents|)
    ensures P.HasAck(a', n, r.term, m.index + |m.ents|)
  {
    hide P.Inv, P.InvNodes, P.NodeOK, Reaches, FieldsOK, OutboxOK, Synced, LogView, P.CommitOK, LogWith, MatchTerm, P.Rooted;
    TermOf(a, n, r, st);
    Facts(a, n);
    var F := a.vol[n].hard.log;
    var T := a.tlog[r.term];
    var hi := m.index + |m.ents|;
    L.TermRooted(a, r.term);
    NodeLog(a, n);
    WithIsAdopt(a, r.log, F, st, a.dur[n].log, T, m.index, m.ents);
    var log := LogWith(r.log, st, m.index, m.ents).value;
    a' := SimAdopt(a, n, r, hi);
    PendingNodes(a, n, r, st);
    FollowerLogFields(a, a', n, r, st, log, P.AdoptLog(F, T, hi), r.prs);
    OutboxSame(a', n, r, r.(log := log));
  }

  lemma {:induction false} MessageCommit(a: P.State, a': P.State, n: NodeId, t: nat, c: nat)
    requires P.InvTypes(a) && Reaches(a, a', n) && t in a.tlog && a'.tlog == a.tlog && P.CommitOK(a, NONE, t, P.TlogAt(a, t), c)
    ensures P.CommitOK(a', NONE, t, P.TlogAt(a', t), c)
  {
    CommitStable(a, a', n, NONE, t, c);
  }

  lemma {:induction false} AppendMsgFacts(a: P.State, m: Message)
    requires m.MsgAppend? && MsgOK(a, NONE, m)
    ensures m.from in a.ids && m.from != m.to && m.term >= 1 && m.term in a.tlog
    ensures P.CommitOK(a, NONE, m.term, P.TlogAt(a, m.term), m.commit)
  {
  }

  lemma {:induction false} SimAcceptAppend(a: P.State, n: NodeId, r: Raft, st: Store, m: Message) returns (a': P.State)
    requires P.Inv(a) && RaftCore(a, n, r, st) && r.state == StateFollower
    requires m.MsgAppend? && MsgOK(a, NONE, m) && m.to == n && m.term == r.term && st.ents != []
    requires r.log.committed <= m.index && MatchTerm(r.log, m.index, m.logTerm)
    ensures HandleAppendEntries(r, st, m).Done?
    ensures P.Inv(a') && Reaches(a, a', n) && RaftOK(a', n, After(HandleAppendEntries(r, st, m), r), st)
  {
    hide P.Inv, P.InvNodes, P.NodeOK, Reaches, RaftCore, P.CommitOK, LogWith, MatchTerm, MsgOK, MaybeAppend, P.HasAck;
    Facts(a, n) by { CoreId(a, n, r, st); }
    AppendMsgFacts(a, m);
    var hi := m.index + |m.ents|;
    var a1 := SimMerge(a, n, r, st, m);
    NetOf(a, a1, n);
    MessageCommit(a, a1, n, r.term, m.commit);
    var log := LogWith(r.log, st, m.index, m.ents).value;
    a' := SimFollowCommit(a1, n, r.(log := log), st, m.commit, Min(m.commit, hi));
    NetOf(a1, a', n);
    ReachesTrans(a, a1, a', n);
    AckStays(a1, a', n, r.term, hi);
    MaybeAppendWith(r.log, st, m.index, m.logTerm, m.commit, m.ents);
    FinishResponse(a', n, r.(log := CommitTo(log, Min(m.commit, hi)).value), st, m.from, hi);
  }

  lemma {:induction false} CoreId(a: P.State, n: NodeId, r: Raft, st: Store)
    requires RaftCore(a, n, r, st)
    ensures n in a.ids && r.id == n && n in a.vol
  {
  }

  lemma {:induction false} GrowsOf(a: P.State, a': P.State, n: NodeId)
    requires Reaches(a, a', n) && P.InvTypes(a)
    ensures a'.ids == a.ids && a.net <= a'.net && L.Grows(a, a', n)
    ensures forall p :: p in a.queued && p.from == NONE ==> P.Sent(a', p)
  {
  }

  lemma {:induction false} NetOf(a: P.State, a': P.State, n: NodeId)
    requires Reaches(a, a', n)
    ensures a'.net == a.net && a'.ids == a.ids && a'.dur == a.dur
  {
  }

  lemma {:induction false} PendingNodes(a: P.State, n: NodeId, r: Raft, st: Store)
    requires FieldsOK(a, n, r, st)
    ensures r.log.pending.Some? ==> r.log.pending.value.nodes == a.ids
  {
  }

  lemma {:induction false} AckStays(a: P.State, a': P.State, n: NodeId, t: nat, i: nat)
    requires P.HasAck(a, n, t, i) && a'.net == a.net && a'.queued == a.queued
    ensures P.HasAck(a', n, t, i)
  {
    HasAckStable(a, a', n, t, i);
  }

  /** Queue the acceptance of what has just been acknowledged. */
  lemma {:induction false} FinishResponse(a: P.State, n: NodeId, r: Raft, st: Store, to: NodeId, index: nat)
    requires RaftCore(a, n, r, st) && r.state == StateFollower && P.HasAck(a, n, r.term, index)
    requires to in a.ids && to != n && r.term >= 1 && n != NONE
    ensures RaftOK(a, n, Send(r, MsgAppendResponse(r.id, to, r.term, index, false, 0)), st)
  {
    hide P.HasAck, MsgOK, FieldsOK, OutboxOK;
    TermOf(a, n, r, st);
    ResponseOK(a, n, to, r.term, index);
    SimSend(a, n, r, st, MsgAppendResponse(r.id, to, r.term, index, false, 0));
  }

  lemma {:induction false} SimHandleAppendEntries(a: P.State, n: NodeId, r: Raft, st: Store, m: Message) returns (a': P.State)
    requires P.Inv(a) && RaftCore(a, n, r, st) && r.state == StateFollower
    requires m.MsgAppend? && MsgOK(a, NONE, m) && m.to == n && m.term == r.term && st.ents != []
    ensures HandleAppendEntries(r, st, m).Done?
    ensures P.Inv(a') && Reaches(a, a', n) && RaftOK(a', n, After(HandleAppendEntries(r, st, m), r), st)
  {
    hide P.Inv, P.InvNodes, P.NodeOK, Reaches, FieldsOK, VotesOK, ProgressesOK, OutboxOK, P.CommitOK, MatchTerm, Synced, LogView;
    TermOf(a, n, r, st);
    Facts(a, n);
    if m.index < r.log.committed {
      a' := SimAckCommitted(a, n, r, st, m.from);
    } else if MatchTerm(r.log, m.index, m.logTerm) {
      a' := SimAcceptAppend(a, n, r, st, m);
    } else {
      a' := a;
      ReachesRefl(a, n);
      SimSend(a, n, r, st, MsgAppendResponse(r.id, m.from, r.term, m.index, true, LastIndex(r.log)));
    }
  }

  // ------------------------------------------------------------------ handleHeartbeat

  /** What a node acknowledged in its current term it still holds. */
  lemma {:induction false} AckedPrefix(a: P.State, n: NodeId, t: nat, i: nat)
    requires P.Inv(a) && n in a.ids && n in a.vol && P.VolAt(a, n).hard.term == t && P.NetAck(a, n, t, i)
    ensures t in a.tlog && Agree(P.VolAt(a, n).hard.log, P.TlogAt(a, t), i)
  {
    var j: nat :| j >= i && P.Ack(t, n, j) in a.net;
    assert P.Sent(a, P.Ack(t, n, j));
    assert P.AckOK(a, P.Ack(t, n, j));
  }

  lemma {:induction false} SimHandleHeartbeat(a: P.State, n: NodeId, r: Raft, st: Store, m: Message) returns (a': P.State)
    requires P.Inv(a) && RaftCore(a, n, r, st) && r.state == StateFollower
    requires m.MsgHeartbeat? && MsgOK(a, NONE, m) && m.to == n && m.term == r.term
    ensures HandleHeartbeat(r, m).Done?
    ensures P.Inv(a') && Reaches(a, a', n) && RaftOK(a', n, After(HandleHeartbeat(r, m), r), st)
  {
    hide P.Inv, P.InvNodes, P.NodeOK, Reaches, FieldsOK, VotesOK, ProgressesOK, OutboxOK, P.CommitOK, Synced, LogView;
    TermOf(a, n, r, st);
    Facts(a, n);
    if m.commit != 0 {
      AckedPrefix(a, n, r.term, m.commit);
    }
    a' := SimFollowCommit(a, n, r, st, m.commit, m.commit);
    NetOf(a, a', n);
    var r1 := r.(log := CommitTo(r.log, m.commit).value);
    SimSend(a', n, r1, st, MsgHeartbeatResponse(r.id, m.from, r.term));
  }

  // ------------------------------------------------------------------ handleSnapshot

  lemma {:induction false} SimRestore(a: P.State, n: NodeId, r: Raft, st: Store, s: Snapshot, from: NodeId) returns (a': P.State)
    requires P.Inv(a) && RaftCore(a, n, r, st) && r.state == StateFollower && Announced(a, NONE, from, r.term, 0) && from != n
    requires SnapshotOK(a, NONE, r.term, s) && s.index > r.log.committed && !MatchTerm(r.log, s.index, s.term)
    ensures RestoreSnapshot(r, s).Done?
    ensures P.Inv(a') && Reaches(a, a', n) && RaftCore(a', n, RestoreSnapshot(r, s).value.0, st)
    ensures LastIndex(RestoreSnapshot(r, s).value.0.log) == s.index
    ensures P.HasAck(a', n, r.term, s.index)
  {
    hide P.Inv, P.InvNodes, P.NodeOK, Reaches, FieldsOK, OutboxOK, P.CommitOK, Synced, LogView, MatchTerm;
    TermOf(a, n, r, st);
    Facts(a, n);
    var F := a.vol[n].hard.log;
    var T := a.tlog[r.term];
    NotMatching(r.log, F, T, s);
    LeaderHasDurable(a, from, r.term, T, s.index);
    var a1 := SimAdopt(a, n, r, s.index);
    NetOf(a, a1, n);
    L.TermRooted(a, r.term);
    RestoreSynced(r.log, F, st, a.dur[n].log, T, s);
    var r' := RestoreSnapshot(r, s).value.0;
    BackedForFollower(a, n, r.term, T, T[..s.index], s.index, s.index);
    L.CommitGrows(a, a1, n, n, r.term, r.term, T[..s.index], T[..s.index], s.index) by { GrowsOf(a, a1, n); QueueOf(a, a1, n); }
    L.CommitGrows(a, a1, n, NONE, r.term, r.term, T[..s.index], T[..s.index], s.index) by { GrowsOf(a, a1, n); }
    S1.CommitKeepsInv(a1, n, s.index);
    a' := P.Commit(a1, n, s.index);
    Facts(a1, n);
    CommitReaches(a1, n, s.index);
    ReachesTrans(a, a1, a', n);
    OutboxStable(a1, a', n, n, r);
    OutboxSame(a', n, r, r');
    FollowerLogFields(a, a', n, r, st, r'.log, T[..s.index], r'.prs);
    AckStays(a1, a', n, r.term, s.index);
  }

  lemma {:induction false} QueueOf(a: P.State, a': P.State, n: NodeId)
    requires Reaches(a, a', n)
    ensures a.queued <= a'.queued && a'.net == a.net
  {
  }

  lemma {:induction false} NotMatching(l: Log, F: seq<Entry>, T: seq<Entry>, s: Snapshot)
    requires LogView(l, F) && s.index > l.committed && !MatchTerm(l, s.index, s.term)
    requires 1 <= s.index <= |T| && s.term == TermAt(T, s.index)
    ensures !Agree(F, T, s.index)
  {
    MatchTermView(l, F, s.index, s.term);
  }

  lemma {:induction false} RestoreSynced(l: Log, F: seq<Entry>, st: Store, D: seq<Entry>, T: seq<Entry>, s: Snapshot)
    requires Synced(l, F, st, D) && s.index > l.committed
    requires 1 <= s.index <= |T| && s.term == TermAt(T, s.index) && (forall k :: 0 <= k < |T| ==> T[k].index == k + 1)
    ensures Synced(Restore(l, s), T[..s.index], st, D)
  {
    assert T[..s.index][s.index..] == [];
  }

  lemma {:induction false} SimHandleSnapshot(a: P.State, n: NodeId, r: Raft, st: Store, m: Message) returns (a': P.State)
    requires P.Inv(a) && RaftCore(a, n, r, st) && r.state == StateFollower
    requires m.MsgSnapshot? && MsgOK(a, NONE, m) && m.to == n && m.term == r.term
    ensures HandleSnapshot(r, m).Done?
    ensures P.Inv(a') && Reaches(a, a', n) && RaftOK(a', n, After(HandleSnapshot(r, m), r), st)
  {
    hide P.Inv, P.InvNodes, P.NodeOK, Reaches, FieldsOK, VotesOK, ProgressesOK, OutboxOK, P.CommitOK, Synced, LogView, MatchTerm;
    TermOf(a, n, r, st);
    Facts(a, n);
    var s := m.snapshot;
    if s.index <= r.log.committed {
      a' := SimAckCommitted(a, n, r, st, m.from);
    } else if MatchTerm(r.log, s.index, s.term) {
      var a1 := SimFastForward(a, n, r, st, s);
      NetOf(a, a1, n);
      AnnouncedStable(a, a1, n, NONE, m.from, r.term, 0);
      a' := SimAckCommitted(a1, n, r.(log := CommitTo(r.log, s.index).value), st, m.from);
      ReachesTrans(a, a1, a', n);
    } else {
      a' := SimRestore(a, n, r, st, s, m.from);
      NetOf(a, a', n);
      FinishResponse(a', n, RestoreSnapshot(r, s).value.0, st, m.from, s.index);
    }
  }

  lemma {:induction false} SimFastForward(a: P.State, n: NodeId, r: Raft, st: Store, s: Snapshot) returns (a': P.State)
    requires P.Inv(a) && RaftCore(a, n, r, st)
    requires SnapshotOK(a, NONE, r.term, s) && MatchTerm(r.log, s.index, s.term)
    ensures CommitTo(r.log, s.index).Done?
    ensures P.Inv(a') && Reaches(a, a', n) && RaftCore(a', n, r.(log := CommitTo(r.log, s.index).value), st)
    ensures a'.tlog == a.tlog
  {
    hide P.Inv, P.InvNodes, P.NodeOK, Reaches, FieldsOK, VotesOK, ProgressesOK, OutboxOK, P.CommitOK, Synced, LogView, MatchTerm, P.Rooted;
    TermOf(a, n, r, st);
    Facts(a, n);
    L.TermRooted(a, r.term);
    NodeLog(a, n);
    MatchTermView(r.log, a.vol[n].hard.log, s.index, s.term);
    PrefixAgrees(a, a.vol[n].hard.log, a.tlog[r.term], s.index);
    a' := SimFollowCommit(a, n, r, st, s.index, s.index);
  }

  lemma {:induction false} SimFollowLeader(a: P.State, n: NodeId, r: Raft, st: Store, m: Message) returns (a': P.State)
    requires P.Inv(a) && RaftCore(a, n, r, st) && r.state == StateFollower && st.ents != []
    requires m.MsgAppend? || m.MsgHeartbeat? || m.MsgSnapshot?
    requires MsgOK(a, NONE, m) && m.to == n && m.term == r.term
    ensures FollowLeader(r, st, m).Done?
    ensures P.Inv(a') && Reaches(a, a', n) && RaftOK(a', n, After(FollowLeader(r, st, m), r), st)
  {
    hide P.Inv, RaftCore, Reaches, MsgOK, HandleAppendEntries, HandleHeartbeat, HandleSnapshot;
    if m.MsgAppend? {
      a' := SimHandleAppendEntries(a, n, r, st, m);
    } else if m.MsgHeartbeat? {
      a' := SimHandleHeartbeat(a, n, r, st, m);
    } else {
      a' := SimHandleSnapshot(a, n, r, st, m);
    }
  }
}
