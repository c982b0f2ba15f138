/** Every step of the code is a sequence of steps of the protocol: messages. */
module RaftSimulation2 {
  import opened RaftTypes
  import opened RaftStore
  import opened RaftLogSpec
  import opened RaftNodeSpec
  import opened RaftCoupling
  import opened RaftSimulation
  import P = RaftProtocol
  import L = RaftProtocolProofs
  import S2 = RaftProtocolSteps2

  // ------------------------------------------------------------------ what the leader sends

  /** The entries a leader reads from position `next` on. */
  lemma {:induction false} LogEntriesView(l: Log, F: seq<Entry>, next: nat)
    requires LogView(l, F) && l.entries != [] && 1 <= next <= |F| + 1
    ensures LogEntries(l, next).Done?
    ensures LogEntries(l, next).value.Err? <==> next <= l.snapIndex
    ensures next > l.snapIndex ==> LogEntries(l, next).value == Ok(F[next - 1..])
    ensures Term(l, next - 1).Err? <==> next <= l.snapIndex
    ensures next > l.snapIndex ==> Term(l, next - 1) == Ok(TermAt(F, next - 1))
  {
    LastIndexView(l, F);
    if next > |F| {
      assert F[next - 1..] == [];
    } else if next > l.snapIndex {
      assert l.entries[next - l.offset..] == F[next - 1..];
    }
  }

  /** A snapshot the node can offer is a prefix of its log. */
  lemma {:induction false} SnapshotView(l: Log, F: seq<Entry>, st: Store, D: seq<Entry>)
    requires Synced(l, F, st, D) && LogSnapshot(l, st).index > 0
    ensures LogSnapshot(l, st).index <= l.committed
    ensures LogSnapshot(l, st).term == TermAt(F, LogSnapshot(l, st).index)
  {
  }

  /** What leads to a fatal exit while sending: the follower needs a snapshot and there is none. */
  lemma {:induction false} AppendMessageFatal(a: P.State, n: NodeId, r: Raft, st: Store, to: NodeId)
    requires RaftOK(a, n, r, st) && r.state == StateLeader && to in a.ids
    ensures to in r.prs
    ensures AppendMessage(r, st, to).Fatal? <==>
              PrAt(r, to).Next <= r.log.snapIndex && r.log.pending.None? && st.snapshot.index == 0
  {
    hide Synced, P.Counted;
    TermOf(a, n, r, st);
    var F := a.vol[n].hard.log;
    LastIndexView(r.log, F);
    assert ProgressOK(a, n, to, r.prs[to], r.term, LastIndex(r.log));
    LogEntriesView(r.log, F, r.prs[to].Next);
    if r.log.pending.Some? {
      PendingNonEmpty(r.log, F);
    }
  }

  lemma {:induction false} PendingNonEmpty(l: Log, F: seq<Entry>)
    requires LogView(l, F) && l.pending.Some?
    ensures l.pending.value.index > 0
  {
  }

  lemma {:induction false} LeaderLog(a: P.State, n: NodeId)
    requires P.NodeOK(a, n) && P.VolAt(a, n).role == P.Leader
    ensures P.VolAt(a, n).hard.term in a.tlog && P.TlogAt(a, P.VolAt(a, n).hard.term) == P.VolAt(a, n).hard.log && P.VolAt(a, n).hard.term >= 1
  {
  }

  /** A leader has acknowledged its whole log. */
  lemma {:induction false} LeaderAnnounces(a: P.State, n: NodeId, i: nat)
    requires P.Inv(a) && n in a.ids && n in a.vol && P.VolAt(a, n).role == P.Leader && i <= |P.VolAt(a, n).hard.log|
    ensures Announced(a, n, n, P.VolAt(a, n).hard.term, i)
  {
    hide P.InvTerms, P.InvVotes, P.InvUnique, P.InvAcks, P.InvKept, P.InvBallots, P.InvLeaders, P.InvCommit, P.CommitOK;
    assert P.NodeOK(a, n) && P.LedNode(a, n);
    var h := a.vol[n].hard;
    var j: nat :| j >= |h.log| && P.Sent(a, P.Ack(h.term, n, j));
    assert P.Sent(a, P.Ack(h.term, n, j));
  }

  lemma {:induction false} NodeCommit(a: P.State, n: NodeId)
    requires P.Inv(a) && n in a.ids && n in a.vol
    ensures P.CommitOK(a, n, P.VolAt(a, n).hard.term, P.VolAt(a, n).hard.log, P.VolAt(a, n).hard.commit)
  {
    assert P.NodeCommitOK(a, n);
  }

  lemma {:induction false} SnapshotMessageOK(a: P.State, n: NodeId, r: Raft, st: Store, to: NodeId)
    requires P.Inv(a) && FieldsOK(a, n, r, st) && r.state == StateLeader
    requires to in a.ids && to != n && LogSnapshot(r.log, st).index > 0
    ensures MsgOK(a, n, MsgSnapshot(n, to, r.term, LogSnapshot(r.log, st)))
  {
    hide P.Inv, P.InvNodes, P.NodeOK, P.CommitOK, Synced, LogView, FieldsOK, LogSnapshot;
    TermOf(a, n, r, st);
    Facts(a, n);
    LeaderLog(a, n);
    NodeCommit(a, n);
    var F := a.vol[n].hard.log;
    SnapshotView(r.log, F, st, a.dur[n].log);
    L.CommitDown(a, n, r.term, F, r.log.committed, LogSnapshot(r.log, st).index);
    SnapshotNodes(a, n, r, st);
    L.CommitFits(a, n, r.term, F, r.log.committed);
    LeaderAnnounces(a, n, 0);
  }

  lemma {:induction false} EntriesMessageOK(a: P.State, n: NodeId, r: Raft, st: Store, to: NodeId, next: nat)
    requires P.Inv(a) && FieldsOK(a, n, r, st) && r.state == StateLeader
    requires to in a.ids && to != n && 1 <= next <= |P.VolAt(a, n).hard.log| + 1
    ensures var F := P.VolAt(a, n).hard.log;
            MsgOK(a, n, MsgAppend(n, to, r.term, next - 1, TermAt(F, next - 1), F[next - 1..], r.log.committed))
  {
    hide P.Inv, P.InvNodes, P.NodeOK, P.CommitOK, Synced, LogView, FieldsOK;
    TermOf(a, n, r, st);
    Facts(a, n);
    LeaderLog(a, n);
    NodeCommit(a, n);
    LeaderAnnounces(a, n, |a.vol[n].hard.log|);
  }

  lemma {:induction false} AppendMessageOK(a: P.State, n: NodeId, r: Raft, st: Store, to: NodeId)
    requires P.Inv(a) && RaftOK(a, n, r, st) && r.state == StateLeader
    requires to in a.ids && to != n && AppendMessage(r, st, to).Done?
    ensures MsgOK(a, n, AppendMessage(r, st, to).value)
  {
    hide P.Inv, Synced, LogView, P.Counted, FieldsOK, OutboxOK, VotesOK, MsgOK, Term, LogEntries, LogSnapshot;
    TermOf(a, n, r, st);
    var F := a.vol[n].hard.log;
    LastIndexView(r.log, F);
    assert ProgressOK(a, n, to, r.prs[to], r.term, LastIndex(r.log));
    var next := r.prs[to].Next;
    LogEntriesView(r.log, F, next);
    if next <= r.log.snapIndex {
      SnapshotMessageOK(a, n, r, st, to);
    } else {
      EntriesMessageOK(a, n, r, st, to, next);
    }
  }

  lemma {:induction false} SnapshotNodes(a: P.State, n: NodeId, r: Raft, st: Store)
    requires FieldsOK(a, n, r, st) && LogSnapshot(r.log, st).index > 0
    ensures LogSnapshot(r.log, st).nodes == a.ids
  {
  }

  lemma {:induction false} SimSendAppend(a: P.State, n: NodeId, r: Raft, st: Store, to: NodeId)
    requires P.Inv(a) && RaftOK(a, n, r, st) && r.state == StateLeader
    requires to in a.ids && to != n && SendAppend(r, st, to).Done?
    ensures RaftOK(a, n, After(SendAppend(r, st, to), r), st)
  {
    hide P.Inv, RaftCore, MsgOK, AppendMessage;
    AppendMessageOK(a, n, r, st, to);
    SimSend(a, n, r, st, AppendMessage(r, st, to).value);
  }

  lemma {:induction false} SimBcastAppend(a: P.State, n: NodeId, r: Raft, st: Store)
    requires P.Inv(a) && RaftOK(a, n, r, st) && r.state == StateLeader && BcastAppend(r, st).Done?
    ensures RaftOK(a, n, After(BcastAppend(r, st), r), st)
  {
    hide P.Inv, FieldsOK, VotesOK, ProgressesOK, OutboxOK, MsgOK, AppendMessage;
    TermOf(a, n, r, st);
    var ms := set id | id in r.prs && id != r.id :: AppendMessage(r, st, id).value;
    forall m | m in ms
      ensures MsgOK(a, n, m)
    {
      var id :| id in r.prs && id != r.id && m == AppendMessage(r, st, id).value;
      AppendMessageOK(a, n, r, st, id);
    }
    SendMany(a, n, r, st, ms);
  }

  lemma {:induction false} HeartbeatMessageOK(a: P.State, n: NodeId, r: Raft, st: Store, to: NodeId)
    requires P.Inv(a) && RaftOK(a, n, r, st) && r.state == StateLeader
    requires to in a.ids && to != n && to in r.prs
    ensures MsgOK(a, n, HeartbeatMessage(r, to))
  {
    hide P.Inv, P.InvNodes, P.NodeOK, P.CommitOK, Synced, LogView, FieldsOK, OutboxOK, VotesOK;
    TermOf(a, n, r, st);
    Facts(a, n);
    LeaderLog(a, n);
    NodeCommit(a, n);
    assert ProgressOK(a, n, to, r.prs[to], r.term, LastIndex(r.log));
    var c := Min(r.prs[to].Match, r.log.committed);
    L.CommitDown(a, n, r.term, a.vol[n].hard.log, r.log.committed, c);
    if c != 0 {
      CountedDown(a, n, to, r.term, r.prs[to].Match, c);
    }
  }

  lemma {:induction false} SimBcastHeartbeat(a: P.State, n: NodeId, r: Raft, st: Store)
    requires P.Inv(a) && RaftOK(a, n, r, st) && r.state == StateLeader
    ensures RaftOK(a, n, BcastHeartbeat(r), st)
  {
    hide P.Inv, FieldsOK, VotesOK, ProgressesOK, OutboxOK, MsgOK, HeartbeatMessage;
    TermOf(a, n, r, st);
    var ms := set id | id in r.prs && id != r.id :: HeartbeatMessage(r, id);
    forall m | m in ms
      ensures MsgOK(a, n, m)
    {
      var id :| id in r.prs && id != r.id && m == HeartbeatMessage(r, id);
      HeartbeatMessageOK(a, n, r, st, id);
    }
    SendMany(a, n, r, st, ms);
  }

  // ------------------------------------------------------------------ what a follower does with it

  lemma {:induction false} AdoptReaches(a: P.State, n: NodeId, hi: nat)
    requires P.InvTypes(a) && n in a.ids && S2.CanAdopt(a, n, hi)
    ensures Reaches(a, P.Adopt(a, n, hi), n)
  {
  }

  /** The protocol step behind an acknowledgement: take over `hi` entries and say so. */
  lemma {:induction false} SimAdopt(a: P.State, n: NodeId, r: Raft, hi: nat) returns (a': P.State)
    requires P.Inv(a) && n in a.ids && S2.CanAdopt(a, n, hi) && OutboxOK(a, n, r)
    ensures a' == P.Adopt(a, n, hi)
    ensures P.Inv(a') && Reaches(a, a', n) && OutboxOK(a', n, r) && P.HasAck(a', n, P.VolAt(a, n).hard.term, hi)
  {
    hide P.Inv, P.InvTypes, P.InvNodes, P.NodeOK, Reaches, OutboxOK;
    Facts(a, n);
    a' := P.Adopt(a, n, hi);
    S2.AdoptKeepsInv(a, n, hi);
    AdoptReaches(a, n, hi);
    OutboxStable(a, a', n, n, r);
    assert P.Sent(a', P.Ack(a.vol[n].hard.term, n, hi));
  }

  /** The follower's committed prefix is a prefix of the current leader's log. */
  lemma {:induction false} CommittedOfLeader(a: P.State, n: NodeId)
    requires P.Inv(a) && n in a.ids && n in a.vol && P.VolAt(a, n).hard.term in a.tlog
    ensures Agree(P.VolAt(a, n).hard.log, P.TlogAt(a, P.VolAt(a, n).hard.term), P.VolAt(a, n).hard.commit)
  {
    hide P.InvTypes, P.InvNodes, P.InvTerms, P.InvVotes, P.InvUnique, P.InvAcks, P.InvKept, P.InvBallots, P.InvLeaders, P.InvLed;
    assert P.NodeCommitOK(a, n);
    var h := a.vol[n].hard;
    L.CommittedInLeader(a, n, h.term, h.log, h.commit, h.term);
  }

  /** Fields of a follower whose log became `log`, standing for the complete log `F`. */
  lemma {:induction false} FollowerLogFields(a: P.State, a': P.State, n: NodeId, r: Raft, st: Store, log: Log, F: seq<Entry>, prs: map<NodeId, Progress>)
    requires FieldsOK(a, n, r, st) && r.state == StateFollower && prs.Keys == a.ids
    requires n in a'.vol && a'.ids == a.ids && a'.dur == a.dur
    requires P.VolAt(a', n) == P.Vol(P.VolAt(a, n).hard.(log := F, commit := log.committed), P.Follower)
    requires Synced(log, F, st, P.DurAt(a, n).log)
    requires log.pending.Some? ==> log.pending.value.nodes == a.ids
    ensures FieldsOK(a', n, r.(log := log, prs := prs), st)
  {
    hide Synced;
  }

  lemma {:induction false} ResponseOK(a: P.State, n: NodeId, to: NodeId, t: nat, index: nat)
    requires n in a.ids && to in a.ids && n != to && t >= 1 && P.HasAck(a, n, t, index) && n != NONE
    ensures MsgOK(a, n, MsgAppendResponse(n, to, t, index, false, 0))
  {
  }

  /** What is committed in the log of a leader that has sent something, the leader has made durable. */
  lemma {:induction false} LeaderHasDurable(a: P.State, from: NodeId, t: nat, log: seq<Entry>, c: nat)
    requires P.Inv(a) && Announced(a, NONE, from, t, 0) && P.CommitOK(a, NONE, t, log, c)
    ensures P.NetAck(a, from, t, c)
  {
    hide P.InvNodes, P.InvTerms, P.InvVotes, P.InvUnique, P.InvAcks, P.InvKept, P.InvBallots, P.InvLeaders, P.InvCommit, P.InvLed, P.CommitOK, P.NetAck;
    L.CommittedIsLed(a, t, log, c);
  }

  lemma {:induction false} CommitForAll(a: P.State, n: NodeId)
    requires P.Inv(a) && n in a.ids && n in a.vol && a.ids != {n}
    ensures P.CommitOK(a, NONE, P.VolAt(a, n).hard.term, P.VolAt(a, n).hard.log, P.VolAt(a, n).hard.commit)
  {
    assert P.LedNode(a, n);
  }

  /** Acknowledging one's commit index. */
  lemma {:induction false} SimAckCommitted(a: P.State, n: NodeId, r: Raft, st: Store, to: NodeId) returns (a': P.State)
    requires P.Inv(a) && RaftCore(a, n, r, st) && r.state == StateFollower && r.term in a.tlog && r.term >= 1
    requires to in a.ids && to != n && Announced(a, NONE, to, r.term, 0)
    ensures P.Inv(a') && Reaches(a, a', n)
    ensures RaftOK(a', n, Send(r, MsgAppendResponse(n, to, r.term, r.log.committed, false, 0)), st)
  {
    hide P.Inv, P.InvNodes, P.NodeOK, Reaches, FieldsOK, OutboxOK, Synced, LogView, MsgOK;
    TermOf(a, n, r, st);
    Facts(a, n);
    CommittedOfLeader(a, n);
    CommitForAll(a, n);
    LeaderHasDurable(a, to, r.term, a.vol[n].hard.log, r.log.committed);
    a' := SimAdopt(a, n, r, r.log.committed);
    AckFields(a, n, r, st);
    ResponseOK(a', n, to, r.term, r.log.committed);
    assert RaftCore(a', n, r, st);
    SimSend(a', n, r, st, MsgAppendResponse(n, to, r.term, r.log.committed, false, 0));
  }

  lemma {:induction false} AckFields(a: P.State, n: NodeId, r: Raft, st: Store)
    requires FieldsOK(a, n, r, st) && r.state == StateFollower && S2.CanAdopt(a, n, r.log.committed)
    requires Agree(P.VolAt(a, n).hard.log, P.TlogAt(a, P.VolAt(a, n).hard.term), r.log.committed)
    ensures FieldsOK(P.Adopt(a, n, r.log.committed), n, r, st)
  {
    hide Synced;
  }

  // ------------------------------------------------------------------ maybeAppend

  /** What maybeAppend does to the complete log is to adopt the leader's first `index + |ents|` entries. */
  lemma {:induction false} AppendIsAdopt(a: P.State, l: Log, F: seq<Entry>, st: Store, D: seq<Entry>, T: seq<Entry>, index: nat, ents: seq<Entry>)
    requires Synced(l, F, st, D) && P.Rooted(a, F) && P.Rooted(a, T)
    requires index + |ents| <= |T| && (forall k :: 0 <= k < |ents| ==> ents[k] == T[index + k])
    requires (forall k :: 0 <= k < |T| ==> T[k].index == k + 1)
    requires l.committed <= index && MatchTerm(l, index, TermAt(T, index))
    ensures var ci := FindConflict(l, ents);
            if ci == 0 then P.AdoptLog(F, T, index + |ents|) == F
            else
              && l.committed < ci && index < ci <= index + |ents|
              && Append(l, st, ents[ci - (index + 1)..]).Done?
              && var l' := Append(l, st, ents[ci - (index + 1)..]).value;
                 && Synced(l', P.AdoptLog(F, T, index + |ents|), st, D)
                 && l'.committed == l.committed && l'.applied == l.applied && l'.pending == l.pending
  {
    hide P.Rooted, Synced, LogView, Append, FindConflict, TermsMatch;
    assert LogView(l, F) by { SyncedView(l, F, st, D); }
    MatchTermView(l, F, index, TermAt(T, index));
    PrefixAgrees(a, F, T, index);
    assert l.snapIndex <= index by { SnapBelow(l, F); }
    FindConflictView(l, F, index, ents);
    var ci := FindConflict(l, ents);
    MatchedAgrees(a, F, T, index, ents, if ci == 0 then |ents| else ci - index - 1);
    if ci != 0 {
      ConflictAppend(l, F, st, D, T, index, ents, ci);
    }
  }

  lemma {:induction false} SyncedView(l: Log, F: seq<Entry>, st: Store, D: seq<Entry>)
    requires Synced(l, F, st, D)
    ensures LogView(l, F)
  {
  }

  lemma {:induction false} SnapBelow(l: Log, F: seq<Entry>)
    requires LogView(l, F)
    ensures l.snapIndex <= l.committed <= |F|
  {
  }

  lemma {:induction false} ConflictAppend(l: Log, F: seq<Entry>, st: Store, D: seq<Entry>, T: seq<Entry>, index: nat, ents: seq<Entry>, ci: nat)
    requires Synced(l, F, st, D)
    requires index + |ents| <= |T| && (forall k :: 0 <= k < |ents| ==> ents[k] == T[index + k])
    requires (forall k :: 0 <= k < |T| ==> T[k].index == k + 1)
    requires l.committed <= index < ci <= index + |ents| && Agree(F, T, ci - 1)
    requires |F| < ci || F[ci - 1].term != ents[ci - index - 1].term
    ensures Append(l, st, ents[ci - (index + 1)..]).Done?
    ensures var l' := Append(l, st, ents[ci - (index + 1)..]).value;
            && Synced(l', P.AdoptLog(F, T, index + |ents|), st, D)
            && l'.committed == l.committed && l'.applied == l.applied && l'.pending == l.pending
  {
    hide Synced, LogView, Append;
    var hi := index + |ents|;
    var rest := ents[ci - (index + 1)..];
    assert !Agree(F, T, hi) by {
      assert |F| >= ci ==> F[ci - 1] != T[ci - 1];
    }
    AppendSynced(l, F, st, D, ci - 1, rest);
    assert F[..ci - 1] + rest == T[..hi];
  }

  lemma {:induction false} PrefixAgrees(a: P.State, F: seq<Entry>, T: seq<Entry>, i: nat)
    requires P.Rooted(a, F) && P.Rooted(a, T) && i <= |F| && i <= |T| && TermAt(F, i) == TermAt(T, i)
    ensures Agree(F, T, i)
  {
    if i > 0 {
      L.SameTermSamePrefix(a, F, T, i);
    }
  }

  lemma {:induction false} MatchedAgrees(a: P.State, F: seq<Entry>, T: seq<Entry>, index: nat, ents: seq<Entry>, n: nat)
    requires P.Rooted(a, F) && P.Rooted(a, T) && Agree(F, T, index)
    requires n <= |ents| && index + |ents| <= |T| && (forall k :: 0 <= k < |ents| ==> ents[k] == T[index + k])
    requires TermsMatch(F, index, ents, n)
    ensures Agree(F, T, index + n)
  {
    if n > 0 {
      assert F[index + n - 1].term == ents[n - 1].term;
      L.SameTermSamePrefix(a, F, T, index + n);
    }
  }
}
