/** Every step of the code is a sequence of steps of the protocol: votes, responses and Step itself. */
module RaftSimulation4 {
  import opened RaftTypes
  import opened RaftStore
  import opened RaftLogSpec
  import opened RaftNodeSpec
  import opened RaftCoupling
  import opened RaftSimulation
  import opened RaftSimulation2
  import opened RaftSimulation3
  import P = RaftProtocol
  import S1 = RaftProtocolSteps

  // ------------------------------------------------------------------ campaign

  lemma {:induction false} RequestVoteMessageOK(a: P.State, n: NodeId, r: Raft, st: Store, to: NodeId)
    requires P.Inv(a) && FieldsOK(a, n, r, st) && r.state == StateCandidate && to in a.ids && to != n
    ensures LastTerm(r.log).Done?
    ensures MsgOK(a, n, MsgRequestVote(n, to, r.term, LastIndex(r.log), LastTerm(r.log).value))
  {
    hide Synced, LogView, P.InvTerms, P.InvVotes, P.InvUnique, P.InvAcks, P.InvKept, P.InvBallots, P.InvLeaders, P.InvCommit, P.InvLed, P.NodeOK, P.InvTypes;
    TermOf(a, n, r, st);
    Facts(a, n);
    LastIndexView(r.log, a.vol[n].hard.log);
  }

  lemma {:induction false} SimCampaign(a: P.State, n: NodeId, r: Raft, st: Store) returns (a': P.State)
    requires P.Inv(a) && RaftCore(a, n, r, st) && st.ents != []
    ensures Campaign(r, st).Done?
    ensures P.Inv(a') && Reaches(a, a', n) && RaftOK(a', n, After(Campaign(r, st), r), st)
  {
    hide P.Inv, Reaches, FieldsOK, VotesOK, ProgressesOK, OutboxOK, MsgOK, BecomeLeader, LastTerm, LastIndex;
    var a1 := SimBecomeCandidate(a, n, r, st);
    var r1 := Poll(BecomeCandidate(r), r.id, true);
    TermOf(a1, n, r1, st);
    if QuorumSize(r1) == Granted(r1.votes) {
      a' := SimBecomeLeader(a1, n, r1, st);
      ReachesTrans(a, a1, a', n);
    } else {
      a' := a1;
      if id :| id in r1.prs && id != r1.id {
        RequestVoteMessageOK(a1, n, r1, st, id);
        var ms := set id | id in r1.prs && id != r1.id ::
                        MsgRequestVote(r1.id, id, r1.term, LastIndex(r1.log), LastTerm(r1.log).value);
        forall m | m in ms
          ensures MsgOK(a1, n, m)
        {
          RequestVoteMessageOK(a1, n, r1, st, m.to);
        }
        SendMany(a1, n, r1, st, ms);
      }
    }
  }

  // ------------------------------------------------------------------ votes

  lemma {:induction false} GrantReaches(a: P.State, n: NodeId, c: NodeId)
    requires P.InvTypes(a) && n in a.ids
    ensures Reaches(a, P.Grant(a, n, c), n)
  {
  }

  lemma {:induction false} GrantAllowed(a: P.State, n: NodeId, r: Raft, st: Store, m: Message)
    requires P.InvTypes(a) && FieldsOK(a, n, r, st)
    requires m.MsgRequestVote? && MsgOK(a, NONE, m) && m.to == n && m.term == r.term
    requires r.vote == m.from || r.vote == NONE
    requires UpToDate(m.index, m.logTerm, P.VolAt(a, n).hard.log)
    ensures P.CanGrant(a, n, m.from)
  {
    hide Synced;
  }

  lemma {:induction false} GrantFields(a: P.State, n: NodeId, r: Raft, st: Store, c: NodeId)
    requires FieldsOK(a, n, r, st)
    ensures FieldsOK(P.Grant(a, n, c), n, r.(vote := c), st)
  {
    hide Synced;
  }

  lemma {:induction false} VoterIsFollower(a: P.State, n: NodeId, r: Raft, st: Store, c: NodeId)
    requires P.InvTypes(a) && P.NodeOK(a, n) && FieldsOK(a, n, r, st) && c != n && (r.vote == c || r.vote == NONE)
    ensures r.state == StateFollower
  {
    hide Synced, P.Rooted, P.Shaped;
  }

  lemma {:induction false} SimGrant(a: P.State, n: NodeId, r: Raft, st: Store, m: Message) returns (a': P.State)
    requires P.Inv(a) && RaftCore(a, n, r, st)
    requires m.MsgRequestVote? && MsgOK(a, NONE, m) && m.to == n && m.term == r.term
    requires (r.vote == m.from || r.vote == NONE) && IsUpToDate(r.log, m.index, m.logTerm) == Done(true)
    ensures P.Inv(a') && Reaches(a, a', n)
    ensures RaftOK(a', n, Send(r, MsgRequestVoteResponse(r.id, m.from, m.term, false)).(vote := m.from), st)
  {
    hide P.Inv, P.InvNodes, P.NodeOK, Reaches, FieldsOK, OutboxOK, Synced, LogView, P.CanGrant, IsUpToDate, RequestVoteOK;
    TermOf(a, n, r, st);
    Facts(a, n);
    VoterIsFollower(a, n, r, st, m.from);
    UpToDateView(r.log, a.vol[n].hard.log, m.index, m.logTerm);
    GrantAllowed(a, n, r, st, m);
    a' := P.Grant(a, n, m.from);
    S1.GrantKeepsInv(a, n, m.from);
    GrantReaches(a, n, m.from);
    OutboxStable(a, a', n, n, r);
    OutboxSame(a', n, r, r.(vote := m.from));
    GrantFields(a, n, r, st, m.from);
    assert P.Sent(a', P.Vote(m.term, n, m.from));
    SimSend(a', n, r.(vote := m.from), st, MsgRequestVoteResponse(r.id, m.from, m.term, false));
  }

  lemma {:induction false} SimRequestVote(a: P.State, n: NodeId, r: Raft, st: Store, m: Message) returns (a': P.State)
    requires P.Inv(a) && RaftOK(a, n, r, st)
    requires m.MsgRequestVote? && MsgOK(a, NONE, m) && m.to == n && m.term == r.term
    ensures StepRequestVote(r, m).Done?
    ensures P.Inv(a') && Reaches(a, a', n) && RaftOK(a', n, After(StepRequestVote(r, m), r), st)
  {
    hide P.Inv, P.InvNodes, P.NodeOK, Reaches, FieldsOK, VotesOK, ProgressesOK, OutboxOK, Synced, LogView, IsUpToDate, UpToDate;
    TermOf(a, n, r, st);
    Facts(a, n);
    UpToDateView(r.log, a.vol[n].hard.log, m.index, m.logTerm);
    if (r.vote == m.from || (r.vote == NONE && r.lead == NONE)) && IsUpToDate(r.log, m.index, m.logTerm).value {
      a' := SimGrant(a, n, r, st, m);
    } else {
      a' := a;
      ReachesRefl(a, n);
      SimSend(a, n, r, st, MsgRequestVoteResponse(r.id, m.from, r.term, true));
    }
  }

  lemma {:induction false} SimPoll(a: P.State, n: NodeId, r: Raft, st: Store, m: Message)
    requires RaftCore(a, n, r, st) && r.state == StateCandidate
    requires m.MsgRequestVoteResponse? && MsgOK(a, NONE, m) && m.to == n && m.term == r.term
    ensures RaftCore(a, n, Poll(r, m.from, !m.reject), st)
  {
    hide OutboxOK, FieldsOK;
    var r' := Poll(r, m.from, !m.reject);
    FieldsIgnoreMsgs(a, n, r, st, r');
    OutboxSame(a, n, r, r');
  }

  lemma {:induction false} SimVoteResponse(a: P.State, n: NodeId, r: Raft, st: Store, m: Message) returns (a': P.State)
    requires P.Inv(a) && RaftCore(a, n, r, st) && r.state == StateCandidate && st.ents != []
    requires m.MsgRequestVoteResponse? && MsgOK(a, NONE, m) && m.to == n && m.term == r.term
    requires CandidateVoteResponse(r, st, m).Done?
    ensures P.Inv(a') && Reaches(a, a', n) && RaftOK(a', n, After(CandidateVoteResponse(r, st, m), r), st)
  {
    hide P.Inv, Reaches, RaftCore, MsgOK, BecomeLeader, BcastAppend, P.InvTypes;
    SimPoll(a, n, r, st, m);
    var r1 := Poll(r, m.from, !m.reject);
    CoreId(a, n, r, st);
    if QuorumSize(r1) == Granted(r1.votes) {
      a' := SimBecomeLeader(a, n, r1, st);
      SimBcastAppend(a', n, BecomeLeader(r1, st).value, st);
    } else if QuorumSize(r1) == |r1.votes| - Granted(r1.votes) {
      a' := SimBecomeFollower(a, n, r1, st, r1.term, NONE);
    } else {
      a' := a;
      Facts(a, n);
      ReachesRefl(a, n);
    }
  }

  // ------------------------------------------------------------------ responses to the leader

  /** Changing one peer's progress. */
  lemma {:induction false} SimProgress(a: P.State, n: NodeId, r: Raft, st: Store, m: NodeId, pr: Progress)
    requires RaftOK(a, n, r, st) && r.state == StateLeader && m in r.prs
    requires ProgressOK(a, n, m, pr, r.term, LastIndex(r.log))
    ensures RaftOK(a, n, r.(prs := r.prs[m := pr]), st)
  {
    hide OutboxOK, FieldsOK, ProgressOK;
    var r' := r.(prs := r.prs[m := pr]);
    assert r'.prs.Keys == r.prs.Keys;
    FieldsIgnoreMsgs(a, n, r, st, r');
    OutboxSame(a, n, r, r');
  }

  lemma {:induction false} RejectedProgress(a: P.State, n: NodeId, r: Raft, st: Store, m: Message)
    requires P.Inv(a) && RaftOK(a, n, r, st) && r.state == StateLeader && m.from in r.prs
    requires m.MsgAppendResponse? && m.reject && MsgOK(a, NONE, m) && m.term == r.term
    ensures ProgressOK(a, n, m.from, MaybeDecrTo(PrAt(r, m.from), m.index, m.rejectHint).0, r.term, LastIndex(r.log))
  {
    hide OutboxOK, FieldsOK, P.Inv, P.InvNodes, P.NodeOK, P.Counted, Synced, LogView;
    TermOf(a, n, r, st);
    Facts(a, n);
    LeaderLog(a, n);
    LastIndexView(r.log, a.vol[n].hard.log);
    assert ProgressOK(a, n, m.from, r.prs[m.from], r.term, LastIndex(r.log));
  }

  lemma {:induction false} AckWithinLog(a: P.State, q: NodeId, t: nat, i: nat)
    requires P.Inv(a) && P.NetAck(a, q, t, i)
    ensures t in a.tlog && i <= |P.TlogAt(a, t)|
  {
    var j: nat :| j >= i && P.Ack(t, q, j) in a.net;
    assert P.Sent(a, P.Ack(t, q, j));
    assert P.AckOK(a, P.Ack(t, q, j));
  }

  lemma {:induction false} AcceptedProgress(a: P.State, n: NodeId, r: Raft, st: Store, m: Message)
    requires P.Inv(a) && RaftOK(a, n, r, st) && r.state == StateLeader && m.from in r.prs
    requires m.MsgAppendResponse? && !m.reject && MsgOK(a, NONE, m) && m.term == r.term
    ensures ProgressOK(a, n, m.from, MaybeUpdate(PrAt(r, m.from), m.index), r.term, LastIndex(r.log))
  {
    hide OutboxOK, FieldsOK, P.Inv, P.InvNodes, P.NodeOK, Synced, LogView, P.NetAck;
    TermOf(a, n, r, st);
    Facts(a, n);
    LeaderLog(a, n);
    AckWithinLog(a, m.from, r.term, m.index);
    LastIndexView(r.log, a.vol[n].hard.log);
    assert ProgressOK(a, n, m.from, r.prs[m.from], r.term, LastIndex(r.log));
  }

  lemma {:induction false} SimReject(a: P.State, n: NodeId, r: Raft, st: Store, m: Message)
    requires P.Inv(a) && RaftOK(a, n, r, st) && r.state == StateLeader && m.from in r.prs && st.ents != []
    requires m.MsgAppendResponse? && m.reject && MsgOK(a, NONE, m) && m.to == n && m.term == r.term
    requires LeaderAppendResponse(r, st, m).Done?
    ensures RaftOK(a, n, After(LeaderAppendResponse(r, st, m), r), st)
  {
    hide P.Inv, RaftCore, SendAppend, MaybeDecrTo, ProgressOK;
    RejectedProgress(a, n, r, st, m);
    var (pr, decreased) := MaybeDecrTo(r.prs[m.from], m.index, m.rejectHint);
    SimProgress(a, n, r, st, m.from, pr);
    if decreased {
      SimSendAppend(a, n, r.(prs := r.prs[m.from := pr]), st, m.from);
    }
  }

  lemma {:induction false} TimeoutNowOK(a: P.State, n: NodeId, r: Raft, st: Store, to: NodeId)
    requires P.Inv(a) && RaftOK(a, n, r, st) && r.state == StateLeader && to in a.ids && to != n
    ensures RaftOK(a, n, Send(r, MsgTimeoutNow(r.id, to, r.term)), st)
  {
    hide P.Inv, P.InvNodes, P.NodeOK, FieldsOK, VotesOK, ProgressesOK, OutboxOK, Synced, LogView;
    TermOf(a, n, r, st);
    Facts(a, n);
    LeaderLog(a, n);
    SimSend(a, n, r, st, MsgTimeoutNow(r.id, to, r.term));
  }

  lemma {:induction false} SimAccept(a: P.State, n: NodeId, r: Raft, st: Store, m: Message) returns (a': P.State)
    requires P.Inv(a) && RaftOK(a, n, r, st) && r.state == StateLeader && m.from in r.prs && st.ents != []
    requires m.MsgAppendResponse? && !m.reject && MsgOK(a, NONE, m) && m.to == n && m.term == r.term
    requires LeaderAppendResponse(r, st, m).Done?
    ensures P.Inv(a') && Reaches(a, a', n) && RaftOK(a', n, After(LeaderAppendResponse(r, st, m), r), st)
  {
    hide P.Inv, RaftCore, BcastAppend, MaybeUpdate, ProgressOK, Reaches, MaybeCommit, P.InvTypes;
    CoreId(a, n, r, st);
    Facts(a, n);
    AcceptedProgress(a, n, r, st, m);
    var pr := r.prs[m.from];
    SimProgress(a, n, r, st, m.from, MaybeUpdate(pr, m.index));
    var r1 := r.(prs := r.prs[m.from := MaybeUpdate(pr, m.index)]);
    if pr.Match < m.index {
      a' := SimMaybeCommit(a, n, r1, st);
      NetOf(a, a', n);
      var (r2, changed) := MaybeCommit(r1).value;
      var r3 := if changed then BcastAppend(r2, st).value else r2;
      if changed {
        SimBcastAppend(a', n, r2, st);
        BcastSame(r2, st);
      }
      if m.from == r3.leadTransferee && r3.prs[m.from].Match == LastIndex(r3.log) {
        TimeoutNowOK(a', n, r3, st, m.from);
      }
    } else {
      a' := a;
      ReachesRefl(a, n);
    }
  }

  lemma {:induction false} BcastSame(r: Raft, st: Store)
    requires BcastAppend(r, st).Done?
    ensures After(BcastAppend(r, st), r) == r.(msgs := After(BcastAppend(r, st), r).msgs)
  {
  }

  lemma {:induction false} SimAppendResponse(a: P.State, n: NodeId, r: Raft, st: Store, m: Message) returns (a': P.State)
    requires P.Inv(a) && RaftOK(a, n, r, st) && r.state == StateLeader && m.from in r.prs && st.ents != []
    requires m.MsgAppendResponse? && MsgOK(a, NONE, m) && m.to == n && m.term == r.term
    requires LeaderAppendResponse(r, st, m).Done?
    ensures P.Inv(a') && Reaches(a, a', n) && RaftOK(a', n, After(LeaderAppendResponse(r, st, m), r), st)
  {
    hide P.Inv, RaftCore, LeaderAppendResponse, Reaches, P.InvTypes, MsgOK;
    if m.reject {
      a' := a;
      CoreId(a, n, r, st);
      Facts(a, n);
      ReachesRefl(a, n);
      SimReject(a, n, r, st, m);
    } else {
      a' := SimAccept(a, n, r, st, m);
    }
  }

  // ------------------------------------------------------------------ proposals

  lemma {:induction false} FilterConfLength(ents: seq<Entry>, p: nat, applied: nat, last: nat)
    ensures |FilterConf(ents, p, applied, last).0| == |ents|
    decreases |ents|
  {
    if ents != [] {
      if ents[0].entryType == EntryConfChange && p <= applied {
        FilterConfLength(ents[1..], last + 1, applied, last + 1);
      } else {
        FilterConfLength(ents[1..], p, applied, last + 1);
      }
    }
  }

  lemma {:induction false} CoreIgnores(a: P.State, n: NodeId, r: Raft, st: Store, lead: NodeId, transferee: NodeId, p: nat)
    requires RaftOK(a, n, r, st)
    ensures RaftOK(a, n, r.(lead := lead, leadTransferee := transferee, pendingConfIndex := p), st)
  {
    hide OutboxOK, FieldsOK, ProgressOK;
    var r' := r.(lead := lead, leadTransferee := transferee, pendingConfIndex := p);
    FieldsIgnoreMsgs(a, n, r, st, r');
    OutboxSame(a, n, r, r');
  }

  lemma {:induction false} SimPropose(a: P.State, n: NodeId, r: Raft, st: Store, ents: seq<Entry>) returns (a': P.State)
    requires P.Inv(a) && RaftOK(a, n, r, st) && r.state == StateLeader && st.ents != []
    requires Propose(r, st, ents).Done?
    ensures P.Inv(a') && Reaches(a, a', n) && RaftOK(a', n, AfterStep(Propose(r, st, ents), r), st)
  {
    hide P.Inv, RaftCore, Reaches, P.InvTypes, AppendEntry, BcastAppend, FilterConf;
    CoreId(a, n, r, st);
    if r.id !in r.prs || r.leadTransferee != NONE {
      a' := a;
      Facts(a, n);
      ReachesRefl(a, n);
    } else {
      var (es, p) := FilterConf(ents, r.pendingConfIndex, r.log.applied, LastIndex(r.log));
      FilterConfLength(ents, r.pendingConfIndex, r.log.applied, LastIndex(r.log));
      CoreIgnores(a, n, r, st, r.lead, r.leadTransferee, p);
      a' := SimAppendEntry(a, n, r.(pendingConfIndex := p), st, es);
      SimBcastAppend(a', n, AppendEntry(r.(pendingConfIndex := p), st, es).value, st);
    }
  }

  lemma {:induction false} SimTransfer(a: P.State, n: NodeId, r: Raft, st: Store, transferee: NodeId)
    requires P.Inv(a) && RaftOK(a, n, r, st) && r.state == StateLeader && transferee in r.prs
    requires LeaderTransfer(r, st, transferee).Done?
    ensures RaftOK(a, n, After(LeaderTransfer(r, st, transferee), r), st)
  {
    hide P.Inv, FieldsOK, VotesOK, ProgressesOK, OutboxOK, SendAppend;
    TermOf(a, n, r, st);
    CoreIgnores(a, n, r, st, r.lead, NONE, r.pendingConfIndex);
    CoreIgnores(a, n, r, st, r.lead, transferee, r.pendingConfIndex);
    if transferee != n {
      var r2 := r.(leadTransferee := transferee);
      if r2.prs[transferee].Match == LastIndex(r2.log) {
        TimeoutNowOK(a, n, r2, st, transferee);
      } else if SendAppend(r2, st, transferee).Done? {
        SimSendAppend(a, n, r2, st, transferee);
      }
    }
  }

  // ------------------------------------------------------------------ Step

  /** What may be handed to a node: a message from the network, or a local request. */
  ghost predicate InputOK(a: P.State, n: NodeId, m: Message) {
    || (MsgOK(a, NONE, m) && m.to == n)
    || (m.term == 0 && (m.MsgHup? || m.MsgBeat? || m.MsgPropose? || m.MsgTransferLeader?))
  }

  lemma {:induction false} SimStepLeader(a: P.State, n: NodeId, r: Raft, st: Store, m: Message) returns (a': P.State)
    requires P.Inv(a) && RaftOK(a, n, r, st) && r.state == StateLeader && st.ents != []
    requires InputOK(a, n, m) && (m.term == 0 || m.term == r.term)
    requires StepLeader(r, st, m).Done?
    ensures P.Inv(a') && Reaches(a, a', n) && RaftOK(a', n, AfterStep(StepLeader(r, st, m), r), st)
  {
    hide P.Inv, FieldsOK, VotesOK, ProgressesOK, OutboxOK, Reaches, P.InvTypes, Propose, LeaderAppendResponse, LeaderTransfer, SendAppend, BcastHeartbeat;
    hide P.InvNodes, P.NodeOK, AppendOK, AppendResponseOK, RequestVoteOK, SnapshotOK, HeartbeatOK, VoteResponseOK, Synced, LogView, LastIndex;
    TermOf(a, n, r, st);
    if m.MsgPropose? {
      a' := SimPropose(a, n, r, st, m.ents);
    } else if m.MsgAppendResponse? && m.from in r.prs {
      a' := SimAppendResponse(a, n, r, st, m);
    } else {
      a' := a;
      Facts(a, n);
      ReachesRefl(a, n);
      if m.MsgBeat? {
        SimBcastHeartbeat(a, n, r, st);
      } else if m.MsgHeartbeatResponse? && m.from in r.prs && r.prs[m.from].Match < LastIndex(r.log) {
        SimSendAppend(a, n, r, st, m.from);
      } else if m.MsgTransferLeader? && m.from in r.prs {
        SimTransfer(a, n, r, st, m.from);
      }
    }
  }

  lemma {:induction false} SimStepCandidate(a: P.State, n: NodeId, r: Raft, st: Store, m: Message) returns (a': P.State)
    requires P.Inv(a) && RaftOK(a, n, r, st) && r.state == StateCandidate && st.ents != []
    requires InputOK(a, n, m) && (m.term == 0 || m.term == r.term)
    requires StepCandidate(r, st, m).Done?
    ensures P.Inv(a') && Reaches(a, a', n) && RaftOK(a', n, AfterStep(StepCandidate(r, st, m), r), st)
  {
    hide P.Inv, RaftCore, Reaches, P.InvTypes, FollowLeader, CandidateVoteResponse, BecomeFollower, P.InvNodes, P.NodeOK;
    CoreId(a, n, r, st);
    Facts(a, n);
    if m.MsgAppend? || m.MsgHeartbeat? || m.MsgSnapshot? {
      var a1 := SimBecomeFollower(a, n, r, st, m.term, m.from);
      var r1 := BecomeFollower(r, m.term, m.from);
      FollowerFacts(r, m.term, m.from);
      MsgStable(a, a1, n, NONE, m);
      a' := SimFollowLeader(a1, n, r1, st, m);
      ReachesTrans(a, a1, a', n);
    } else if m.MsgRequestVoteResponse? {
      a' := SimVoteResponse(a, n, r, st, m);
    } else {
      a' := a;
      ReachesRefl(a, n);
    }
  }

  lemma {:induction false} FollowerFacts(r: Raft, term: nat, lead: NodeId)
    ensures BecomeFollower(r, term, lead).state == StateFollower && BecomeFollower(r, term, lead).term == term
  {
  }

  lemma {:induction false} SimStepFollower(a: P.State, n: NodeId, r: Raft, st: Store, m: Message) returns (a': P.State)
    requires P.Inv(a) && RaftOK(a, n, r, st) && r.state == StateFollower && st.ents != []
    requires InputOK(a, n, m) && (m.term == 0 || m.term == r.term)
    requires StepFollower(r, st, m).Done?
    ensures P.Inv(a') && Reaches(a, a', n) && RaftOK(a', n, AfterStep(StepFollower(r, st, m), r), st)
  {
    hide P.Inv, RaftCore, Reaches, P.InvTypes, FollowLeader, Campaign, P.InvNodes, P.NodeOK;
    CoreId(a, n, r, st);
    Facts(a, n);
    if m.MsgAppend? || m.MsgHeartbeat? || m.MsgSnapshot? {
      CoreIgnores(a, n, r, st, m.from, r.leadTransferee, r.pendingConfIndex);
      a' := SimFollowLeader(a, n, r.(lead := m.from), st, m);
    } else if m.MsgTimeoutNow? && r.id in r.prs {
      a' := SimCampaign(a, n, r, st);
    } else {
      a' := a;
      ReachesRefl(a, n);
      if m.MsgTransferLeader? && r.lead != NONE {
        SimSend(a, n, r, st, MsgTransferLeader(r.id, r.lead, r.term));
      }
    }
  }

  lemma {:induction false} SimHup(a: P.State, n: NodeId, r: Raft, st: Store) returns (a': P.State)
    requires P.Inv(a) && RaftOK(a, n, r, st) && st.ents != [] && StepHup(r, st).Done?
    ensures P.Inv(a') && Reaches(a, a', n) && RaftOK(a', n, After(StepHup(r, st), r), st)
  {
    hide P.Inv, RaftCore, Reaches, P.InvTypes, Campaign, Slice, NumOfPendingConf;
    if r.state != StateLeader && !(NumOfPendingConf(Slice(r.log, r.log.applied + 1, r.log.committed + 1).value.value) != 0 && r.log.committed > r.log.applied) {
      a' := SimCampaign(a, n, r, st);
    } else {
      a' := a;
      CoreId(a, n, r, st);
      Facts(a, n);
      ReachesRefl(a, n);
    }
  }

  lemma {:induction false} SimSameTerm(a: P.State, n: NodeId, r: Raft, st: Store, m: Message) returns (a': P.State)
    requires P.Inv(a) && RaftOK(a, n, r, st) && st.ents != []
    requires InputOK(a, n, m) && (m.term == 0 || m.term == r.term)
    requires StepSameTerm(r, st, m).Done?
    ensures P.Inv(a') && Reaches(a, a', n) && RaftOK(a', n, AfterStep(StepSameTerm(r, st, m), r), st)
  {
    hide P.Inv, RaftOK, Reaches, StepHup, StepRequestVote, StepLeader, StepCandidate, StepFollower;
    if m.MsgHup? {
      a' := SimHup(a, n, r, st);
    } else if m.MsgRequestVote? {
      a' := SimRequestVote(a, n, r, st, m);
    } else {
      match r.state
      case StateFollower => a' := SimStepFollower(a, n, r, st, m);
      case StateCandidate => a' := SimStepCandidate(a, n, r, st, m);
      case StateLeader => a' := SimStepLeader(a, n, r, st, m);
    }
  }

  /** Raft.Step refines the protocol: whatever it does without a fatal exit, the protocol can do. */
  lemma {:induction false} SimStep(a: P.State, n: NodeId, r: Raft, st: Store, m: Message) returns (a': P.State)
    requires P.Inv(a) && RaftOK(a, n, r, st) && st.ents != [] && InputOK(a, n, m) && Step(r, st, m).Done?
    ensures P.Inv(a') && Reaches(a, a', n) && RaftOK(a', n, AfterStep(Step(r, st, m), r), st)
  {
    hide P.Inv, RaftCore, Reaches, StepSameTerm, BecomeFollower, P.InvTypes, P.InvNodes, P.NodeOK, MsgOK;
    if m.term != 0 && m.term > r.term {
      CoreId(a, n, r, st);
      Facts(a, n);
      var lead := if m.MsgAppend? || m.MsgHeartbeat? || m.MsgSnapshot? then m.from else NONE;
      var a1 := SimBecomeFollower(a, n, r, st, m.term, lead);
      FollowerFacts(r, m.term, lead);
      MsgStable(a, a1, n, NONE, m);
      a' := SimSameTerm(a1, n, BecomeFollower(r, m.term, lead), st, m);
      ReachesTrans(a, a1, a', n);
    } else if m.term != 0 && m.term < r.term {
      a' := a;
      CoreId(a, n, r, st);
      Facts(a, n);
      ReachesRefl(a, n);
    } else {
      a' := SimSameTerm(a, n, r, st, m);
    }
  }
}
