/** Every step of the code is a sequence of steps of the protocol: roles, elections and the leader's log. */
module RaftSimulation {
  import opened RaftTypes
  import opened RaftStore
  import opened RaftLogSpec
  import opened RaftNodeSpec
  import opened RaftCoupling
  import S1 = RaftProtocolSteps
  import S2 = RaftProtocolSteps2
  import P = RaftProtocol
  import L = RaftProtocolProofs

  // ------------------------------------------------------------------ facts about a coupled node

  lemma {:induction false} Facts(a: P.State, n: NodeId)
    requires P.Inv(a) && n in a.ids
    ensures P.InvTypes(a) && P.InvNodes(a) && P.NodeOK(a, n)
  {
  }

  /** Sending a valid message keeps the coupling. */
  lemma {:induction false} SimSend(a: P.State, n: NodeId, r: Raft, st: Store, m: Message)
    requires RaftCore(a, n, r, st) && MsgOK(a, n, m)
    ensures RaftCore(a, n, Send(r, m), st)
  {
    hide MsgOK, P.Counted, FieldsOK, ProgressOK;
    FieldsIgnoreMsgs(a, n, r, st, Send(r, m));
  }

  /** The fields the coupling of a node depends on. */
  lemma {:induction false} FieldsIgnoreMsgs(a: P.State, n: NodeId, r: Raft, st: Store, r': Raft)
    requires FieldsOK(a, n, r, st)
    requires r'.id == r.id && r'.term == r.term && r'.vote == r.vote && r'.state == r.state && r'.log == r.log
    requires r'.prs.Keys == r.prs.Keys
    ensures FieldsOK(a, n, r', st)
  {
  }

  lemma {:induction false} SendMany(a: P.State, n: NodeId, r: Raft, st: Store, ms: set<Message>)
    requires RaftCore(a, n, r, st) && forall m :: m in ms ==> MsgOK(a, n, m)
    ensures RaftCore(a, n, r.(msgs := r.msgs + ms), st)
  {
    hide MsgOK, P.Counted, FieldsOK, ProgressOK;
    FieldsIgnoreMsgs(a, n, r, st, r.(msgs := r.msgs + ms));
  }

  // ------------------------------------------------------------------ becomeFollower

  lemma {:induction false} BumpReaches(a: P.State, n: NodeId, t: nat)
    requires P.InvTypes(a) && n in a.ids && t >= P.VolAt(a, n).hard.term
    ensures Reaches(a, P.Bump(a, n, t), n)
  {
  }

  lemma {:induction false} OutboxSame(a: P.State, n: NodeId, r: Raft, r': Raft)
    requires OutboxOK(a, n, r) && r'.msgs == r.msgs
    ensures OutboxOK(a, n, r')
  {
  }

  lemma {:induction false} FollowerFields(a: P.State, n: NodeId, r: Raft, st: Store, term: nat, lead: NodeId)
    requires FieldsOK(a, n, r, st) && term >= r.term
    ensures FieldsOK(P.Bump(a, n, term), n, BecomeFollower(r, term, lead), st)
  {
    hide Synced;
  }

  lemma {:induction false} TermOf(a: P.State, n: NodeId, r: Raft, st: Store)
    requires FieldsOK(a, n, r, st)
    ensures n in a.ids && n in a.vol && n in a.dur && r.id == n
    ensures r.term == P.VolAt(a, n).hard.term && RoleOf(r.state) == P.VolAt(a, n).role
    ensures r.prs.Keys == a.ids
    ensures r.log.committed == P.VolAt(a, n).hard.commit
    ensures Synced(r.log, P.VolAt(a, n).hard.log, st, P.DurAt(a, n).log)
    ensures LogView(r.log, P.VolAt(a, n).hard.log)
    ensures st.ents != []
  {
  }

  lemma {:induction false} SimBecomeFollower(a: P.State, n: NodeId, r: Raft, st: Store, term: nat, lead: NodeId) returns (a': P.State)
    requires P.Inv(a) && RaftCore(a, n, r, st) && term >= r.term
    ensures P.Inv(a') && Reaches(a, a', n) && RaftOK(a', n, BecomeFollower(r, term, lead), st)
    ensures a'.tlog == a.tlog && n in a'.vol && n in a.vol && P.VolAt(a', n).hard.log == P.VolAt(a, n).hard.log
  {
    hide P.Inv, P.InvTypes, P.InvNodes, P.NodeOK, Reaches, FieldsOK, OutboxOK, Synced, LogView;
    TermOf(a, n, r, st);
    Facts(a, n);
    a' := P.Bump(a, n, term);
    S1.BumpKeepsInv(a, n, term);
    BumpReaches(a, n, term);
    OutboxStable(a, a', n, n, r);
    OutboxSame(a', n, r, BecomeFollower(r, term, lead));
    FollowerFields(a, n, r, st, term, lead);
  }

  // ------------------------------------------------------------------ becomeCandidate

  lemma {:induction false} CampaignReaches(a: P.State, n: NodeId)
    requires P.InvTypes(a) && n in a.ids
    ensures Reaches(a, P.Campaign(a, n), n)
  {
  }

  lemma {:induction false} CandidateFields(a: P.State, n: NodeId, r: Raft, st: Store)
    requires FieldsOK(a, n, r, st)
    ensures FieldsOK(P.Campaign(a, n), n, Poll(BecomeCandidate(r), r.id, true), st)
    ensures VotesOK(P.Campaign(a, n), n, Poll(BecomeCandidate(r), r.id, true))
  {
    hide Synced;
  }

  lemma {:induction false} SimBecomeCandidate(a: P.State, n: NodeId, r: Raft, st: Store) returns (a': P.State)
    requires P.Inv(a) && RaftCore(a, n, r, st)
    ensures P.Inv(a') && Reaches(a, a', n) && RaftOK(a', n, Poll(BecomeCandidate(r), r.id, true), st)
    ensures a'.tlog == a.tlog && n in a'.vol && n in a.vol && P.VolAt(a', n).hard.log == P.VolAt(a, n).hard.log
  {
    hide P.Inv, P.InvTypes, P.InvNodes, P.NodeOK, Reaches, FieldsOK, VotesOK, OutboxOK, Synced, LogView;
    TermOf(a, n, r, st);
    Facts(a, n);
    a' := P.Campaign(a, n);
    S1.CampaignKeepsInv(a, n);
    CampaignReaches(a, n);
    OutboxStable(a, a', n, n, r);
    OutboxSame(a', n, r, Poll(BecomeCandidate(r), r.id, true));
    CandidateFields(a, n, r, st);
  }

  // ------------------------------------------------------------------ the leader's commit rule

  /** A majority of Match indexes at or above `c` chooses position `c`, if it is of the leader's own term. */
  lemma {:induction false} MajorityChooses(a: P.State, n: NodeId, r: Raft, st: Store, c: nat)
    requires P.Inv(a) && RaftCore(a, n, r, st) && r.state == StateLeader
    requires |r.prs| > 0 && |AtLeast(r.prs, c)| >= |r.prs| / 2 + 1
    requires 1 <= c && MatchTerm(r.log, c, r.term)
    ensures c <= LastIndex(r.log)
    ensures P.CommitOK(a, n, r.term, P.VolAt(a, n).hard.log, c)
    ensures a.ids != {n} ==> P.CommitOK(a, NONE, r.term, P.VolAt(a, n).hard.log, c)
  {
    hide P.Inv, P.InvTypes, P.InvNodes, FieldsOK, VotesOK, OutboxOK, Synced, LogView, P.Counted, P.Rooted;
    TermOf(a, n, r, st);
    Facts(a, n);
    var F := a.vol[n].hard.log;
    MatchTermView(r.log, F, c, r.term);
    LastIndexView(r.log, F);
    var Q := AtLeast(r.prs, c);
    assert |r.prs| == |r.prs.Keys|;
    assert Quorum(a.ids, Q);
    forall q | q in Q
      ensures P.Counted(a, n, q, r.term, c)
    {
      assert ProgressOK(a, n, q, r.prs[q], r.term, LastIndex(r.log));
      CountedDown(a, n, q, r.term, r.prs[q].Match, c);
    }
    assert P.AllCounted(a, n, Q, r.term, c);
    assert P.Own(a, r.term, c);
    assert P.Chosen(a, n, r.term, c);
    assert Agree(F, a.tlog[r.term], c);
    if a.ids != {n} {
      ChosenForAll(a, n, r.term, c);
    }
  }

  lemma {:induction false} ChosenForAll(a: P.State, n: NodeId, t: nat, c: nat)
    requires P.Inv(a) && n in a.ids && a.ids != {n} && t in a.owner && a.owner[t] == n && P.Chosen(a, n, t, c)
    ensures P.Chosen(a, NONE, t, c)
  {
    hide P.InvTypes, P.InvNodes, P.InvTerms, P.InvVotes, P.InvUnique, P.InvAcks, P.InvKept, P.InvBallots, P.InvLeaders, P.InvCommit, P.InvLed;
    L.LeaderChoosesForAll(a, n, t, c);
  }

  lemma {:induction false} CountedDown(a: P.State, n: NodeId, q: NodeId, t: nat, i: nat, j: nat)
    requires P.Counted(a, n, q, t, i) && j <= i
    ensures P.Counted(a, n, q, t, j)
  {
  }

  lemma {:induction false} CommitReaches(a: P.State, n: NodeId, c: nat)
    requires P.InvTypes(a) && n in a.ids
    ensures Reaches(a, P.Commit(a, n, c), n)
  {
  }

  lemma {:induction false} CommitFields(a: P.State, n: NodeId, r: Raft, st: Store, c: nat)
    requires FieldsOK(a, n, r, st) && r.log.committed <= c <= LastIndex(r.log)
    ensures FieldsOK(P.Commit(a, n, c), n, r.(log := r.log.(committed := c)), st)
  {
    SyncedCommit(r.log, a.vol[n].hard.log, st, a.dur[n].log, c);
    hide Synced;
  }

  /** Raising the commit index of a node to a backed position. */
  lemma {:induction false} SimCommit(a: P.State, n: NodeId, r: Raft, st: Store, c: nat) returns (a': P.State)
    requires P.Inv(a) && RaftCore(a, n, r, st) && r.log.committed <= c <= LastIndex(r.log)
    requires P.CommitOK(a, n, r.term, P.VolAt(a, n).hard.log, c)
    requires a.ids != {n} ==> P.CommitOK(a, NONE, r.term, P.VolAt(a, n).hard.log, c)
    ensures P.Inv(a') && Reaches(a, a', n) && RaftCore(a', n, r.(log := r.log.(committed := c)), st)
    ensures a' == P.Commit(a, n, c)
  {
    hide P.Inv, P.InvTypes, P.InvNodes, P.NodeOK, Reaches, FieldsOK, OutboxOK, P.CommitOK, Synced, LogView, ProgressOK;
    TermOf(a, n, r, st);
    Facts(a, n);
    a' := P.Commit(a, n, c);
    S1.CommitKeepsInv(a, n, c);
    CommitReaches(a, n, c);
    OutboxStable(a, a', n, n, r);
    OutboxSame(a', n, r, r.(log := r.log.(committed := c)));
    ProgressesStable(a, a', n, r);
    CommitFields(a, n, r, st, c);
  }

  lemma {:induction false} SyncedCommit(l: Log, F: seq<Entry>, st: Store, D: seq<Entry>, c: nat)
    requires Synced(l, F, st, D) && l.committed <= c <= LastIndex(l)
    ensures Synced(l.(committed := c), F, st, D)
  {
    LastIndexView(l, F);
  }

  lemma {:induction false} SimMaybeCommit(a: P.State, n: NodeId, r: Raft, st: Store) returns (a': P.State)
    requires P.Inv(a) && RaftCore(a, n, r, st) && r.state == StateLeader
    ensures MaybeCommit(r).Done?
    ensures P.Inv(a') && Reaches(a, a', n) && RaftCore(a', n, MaybeCommit(r).value.0, st)
    ensures MaybeCommit(r).value.0 == r.(log := r.log.(committed := MaybeCommit(r).value.0.log.committed))
    ensures a'.tlog == a.tlog
  {
    hide P.Inv, P.InvTypes, P.InvNodes, P.NodeOK, Reaches, FieldsOK, VotesOK, ProgressesOK, OutboxOK, Synced, LogView, P.CommitOK, Quorum;
    TermOf(a, n, r, st);
    Facts(a, n);
    assert n in r.prs.Keys;
    var c := QuorumMatch(r.prs);
    if c > r.log.committed && MatchTerm(r.log, c, r.term) {
      MajorityChooses(a, n, r, st, c);
      a' := SimCommit(a, n, r, st, c);
    } else {
      a' := a;
      ReachesRefl(a, n);
    }
  }

  // ------------------------------------------------------------------ appendEntry

  lemma {:induction false} ExtendReaches(a: P.State, n: NodeId, ents: seq<Entry>)
    requires P.InvTypes(a) && n in a.ids && P.NodeOK(a, n) && P.CanExtend(a, n, ents)
    ensures Reaches(a, P.Extend(a, n, ents), n)
  {
  }

  lemma {:induction false} StampOK(es: seq<Entry>, term: nat, last: nat)
    ensures |Stamp(es, term, last)| == |es|
    ensures forall k :: 0 <= k < |es| ==> Stamp(es, term, last)[k].term == term && Stamp(es, term, last)[k].index == last + k + 1
  {
  }

  /** The node after the entries are in its log and its own progress is updated, before maybeCommit. */
  function Appended(r: Raft, log: Log): Raft
    requires r.id in r.prs
  {
    r.(log := log, prs := r.prs[r.id := MaybeUpdate(r.prs[r.id], LastIndex(log))])
  }

  lemma {:induction false} SimAppend(a: P.State, n: NodeId, r: Raft, st: Store, es: seq<Entry>) returns (a': P.State)
    requires P.Inv(a) && RaftCore(a, n, r, st) && r.state == StateLeader && es != []
    ensures var ents := Stamp(es, r.term, LastIndex(r.log));
            && Append(r.log, st, ents).Done?
            && n in r.prs
            && RaftOK(a', n, Appended(r, Append(r.log, st, ents).value), st)
    ensures P.Inv(a') && Reaches(a, a', n)
  {
    hide P.Inv, P.InvTypes, P.InvNodes, P.NodeOK, Reaches, FieldsOK, ProgressesOK, OutboxOK, Synced, LogView, Append, Stamp;
    TermOf(a, n, r, st);
    Facts(a, n);
    var F := a.vol[n].hard.log;
    var ents := Stamp(es, r.term, LastIndex(r.log));
    LastIndexView(r.log, F);
    StampOK(es, r.term, |F|);
    LeaderCanExtend(a, n, ents);
    AppendFields(a, n, r, st, ents);
    a' := P.Extend(a, n, ents);
    S2.ExtendKeepsInv(a, n, ents);
    ExtendReaches(a, n, ents);
    OutboxStable(a, a', n, n, r);
    var log := Append(r.log, st, ents).value;
    OutboxSame(a', n, r, Appended(r, log));
    ExtendProgress(a, a', n, r, log, ents);
  }

  lemma {:induction false} LeaderCanExtend(a: P.State, n: NodeId, ents: seq<Entry>)
    requires n in a.vol && P.VolAt(a, n).role == P.Leader
    requires forall k :: 0 <= k < |ents| ==>
               ents[k].term == P.VolAt(a, n).hard.term && ents[k].index == |P.VolAt(a, n).hard.log| + k + 1
    ensures P.CanExtend(a, n, ents)
  {
  }

  lemma {:induction false} AppendFields(a: P.State, n: NodeId, r: Raft, st: Store, ents: seq<Entry>)
    requires FieldsOK(a, n, r, st) && ents != []
    requires forall k :: 0 <= k < |ents| ==> ents[k].index == |P.VolAt(a, n).hard.log| + k + 1
    ensures Append(r.log, st, ents).Done?
    ensures n in r.prs
    ensures FieldsOK(P.Extend(a, n, ents), n, Appended(r, Append(r.log, st, ents).value), st)
    ensures LastIndex(Append(r.log, st, ents).value) == |P.VolAt(a, n).hard.log + ents|
    ensures Append(r.log, st, ents).value.entries != []
  {
    hide TermAt, LogView, StoreView, Append;
    var F := a.vol[n].hard.log;
    ViewBounds(r.log, F);
    AppendSynced(r.log, F, st, a.dur[n].log, |F|, ents);
    assert F[..|F|] + ents == F + ents;
    var log := Append(r.log, st, ents).value;
    LastIndexView(log, F + ents);
  }

  lemma {:induction false} ExtendProgress(a: P.State, a': P.State, n: NodeId, r: Raft, log: Log, ents: seq<Entry>)
    requires n in a.ids && n in a.vol && a' == P.Extend(a, n, ents) && r.id == n && n in r.prs
    requires ProgressesOK(a, n, r) && r.state == StateLeader && r.term == P.VolAt(a, n).hard.term
    requires LastIndex(r.log) == |P.VolAt(a, n).hard.log| && LastIndex(log) == |P.VolAt(a, n).hard.log + ents|
    ensures ProgressesOK(a', n, Appended(r, log))
  {
    var r' := Appended(r, log);
    forall m | m in r'.prs
      ensures ProgressOK(a', n, m, r'.prs[m], r'.term, LastIndex(r'.log))
    {
      assert ProgressOK(a, n, m, r.prs[m], r.term, LastIndex(r.log));
      if m == n && r'.prs[m].Match == LastIndex(log) {
        assert P.Sent(a', P.Ack(r.term, n, LastIndex(log)));
        assert P.Counted(a', n, m, r.term, LastIndex(log));
      } else if r.prs[m].Match != 0 {
        CountedStable(a, a', n, m, r.term, r.prs[m].Match);
      }
    }
  }

  lemma {:induction false} SimAppendEntry(a: P.State, n: NodeId, r: Raft, st: Store, es: seq<Entry>) returns (a': P.State)
    requires P.Inv(a) && RaftCore(a, n, r, st) && r.state == StateLeader && es != []
    ensures AppendEntry(r, st, es).Done?
    ensures P.Inv(a') && Reaches(a, a', n) && RaftOK(a', n, After(AppendEntry(r, st, es), r), st)
    ensures After(AppendEntry(r, st, es), r).state == StateLeader
  {
    hide P.Inv, Reaches, Append, MaybeCommit, FieldsOK, VotesOK, ProgressesOK, OutboxOK;
    TermOf(a, n, r, st);
    var a1 := SimAppend(a, n, r, st, es);
    var log := Append(r.log, st, Stamp(es, r.term, LastIndex(r.log))).value;
    a' := SimMaybeCommit(a1, n, Appended(r, log), st);
    ReachesTrans(a, a1, a', n);
  }

  // ------------------------------------------------------------------ becomeLeader

  lemma {:induction false} ElectReaches(a: P.State, n: NodeId)
    requires P.InvTypes(a) && n in a.ids && P.VolAt(a, n).hard.term !in a.owner
    ensures Reaches(a, P.Elect(a, n), n)
  {
  }

  /** The node as becomeLeader leaves it before it appends the empty entry. */
  function Crowned(r: Raft): Raft {
    Reset(r, r.term).(lead := r.id, state := StateLeader, pendingConfIndex := LastIndex(r.log))
  }

  lemma {:induction false} SimElect(a: P.State, n: NodeId, r: Raft, st: Store) returns (a': P.State)
    requires P.Inv(a) && RaftCore(a, n, r, st) && r.state == StateCandidate
    requires Granted(r.votes) == QuorumSize(r)
    ensures P.Inv(a') && Reaches(a, a', n) && RaftCore(a', n, Crowned(r), st)
  {
    hide P.Inv, P.InvTypes, P.InvNodes, P.NodeOK, Reaches, FieldsOK, ProgressesOK, OutboxOK, Synced, LogView, P.CanElect;
    TermOf(a, n, r, st);
    Facts(a, n);
    var Q := Grantors(r.votes);
    VotersElect(a, n, r, st);
    a' := P.Elect(a, n);
    assert a.vol[n].hard.term !in a.owner by { FreshTerm(a, n, Q); }
    S2.ElectKeepsInv(a, n, Q);
    ElectReaches(a, n);
    OutboxStable(a, a', n, n, r);
    OutboxSame(a', n, r, Crowned(r));
    LastIndexView(r.log, a.vol[n].hard.log);
    ElectProgress(a, a', n, r);
    ElectFields(a, n, r, st);
  }

  lemma {:induction false} FreshTerm(a: P.State, n: NodeId, Q: set<NodeId>)
    requires P.Inv(a) && n in a.ids && P.CanElect(a, n, Q)
    ensures P.VolAt(a, n).hard.term !in a.owner
  {
    hide P.InvVotes, P.InvAcks, P.InvKept, P.InvBallots, P.InvLeaders, P.InvCommit, P.InvLed, P.CanElect, P.InvNodes, P.InvTerms, P.InvUnique;
    S2.ElectFresh(a, n, Q);
  }

  lemma {:induction false} VotersElect(a: P.State, n: NodeId, r: Raft, st: Store)
    requires P.InvTypes(a) && FieldsOK(a, n, r, st) && VotesOK(a, n, r) && r.state == StateCandidate
    requires Granted(r.votes) == QuorumSize(r)
    ensures P.CanElect(a, n, Grantors(r.votes))
  {
    assert |r.prs| == |r.prs.Keys|;
    assert Grantors(r.votes) <= a.ids;
  }

  lemma {:induction false} ElectFields(a: P.State, n: NodeId, r: Raft, st: Store)
    requires FieldsOK(a, n, r, st)
    ensures FieldsOK(P.Elect(a, n), n, Crowned(r), st)
  {
    hide Synced;
  }

  lemma {:induction false} ElectProgress(a: P.State, a': P.State, n: NodeId, r: Raft)
    requires n in a.ids && n in a.vol && a' == P.Elect(a, n) && r.id == n
    requires r.term == P.VolAt(a, n).hard.term && LastIndex(r.log) == |P.VolAt(a, n).hard.log|
    ensures ProgressesOK(a', n, Crowned(r))
  {
    var r' := Crowned(r);
    forall m | m in r'.prs
      ensures ProgressOK(a', n, m, r'.prs[m], r'.term, LastIndex(r'.log))
    {
      if m == n {
        assert P.Sent(a', P.Ack(r.term, n, LastIndex(r.log)));
      }
    }
  }

  lemma {:induction false} SimBecomeLeader(a: P.State, n: NodeId, r: Raft, st: Store) returns (a': P.State)
    requires P.Inv(a) && RaftCore(a, n, r, st) && r.state == StateCandidate
    requires Granted(r.votes) == QuorumSize(r)
    ensures BecomeLeader(r, st).Done?
    ensures P.Inv(a') && Reaches(a, a', n) && RaftOK(a', n, After(BecomeLeader(r, st), r), st)
    ensures After(BecomeLeader(r, st), r).state == StateLeader
  {
    hide P.Inv, Reaches, AppendEntry, FieldsOK, VotesOK, ProgressesOK, OutboxOK;
    TermOf(a, n, r, st);
    var a1 := SimElect(a, n, r, st);
    var noop := Entry(EntryNormal, 0, 0, []);
    a' := SimAppendEntry(a1, n, Crowned(r), st, [noop]);
    ReachesTrans(a, a1, a', n);
  }
}
