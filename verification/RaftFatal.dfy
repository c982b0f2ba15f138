/** When a step can end in a fatal exit, exactly. */
module RaftFatal {
  import opened RaftTypes
  import opened RaftStore
  import opened RaftLogSpec
  import opened RaftNodeSpec
  import opened RawNodeSpec
  import opened RaftCoupling
  import opened RaftSimulation
  import opened RaftSimulation2
  import opened RaftSimulation3
  import opened RaftSimulation4
  import opened RaftCluster
  import opened RaftCycle
  import opened RaftRefinement
  import opened RaftReigns
  import P = RaftProtocol

  /** The uncompacted part of the committed log, as MsgHup slices it, starts inside a pending snapshot. */
  predicate BehindSnapshot(l: Log) {
    l.pending.Some? && (l.entries != [] || l.applied + 1 < l.pending.value.index)
  }

  /** Three inputs end in a fatal exit whatever the store holds. The third cannot come up in a run. */
  predicate FatalInput(r: Raft, m: Message) {
    || (m.MsgHup? && r.state != StateLeader && BehindSnapshot(r.log))
    || (m.MsgPropose? && r.state == StateLeader && m.ents == [])
    || (m.MsgTransferLeader? && r.state == StateFollower && r.lead != NONE && m.term != 0 && m.term == r.term)
  }

  /** A peer that wants the entries from `next` on, of a log compacted up to `snap`, needs a snapshot, and
      there is none. */
  predicate Stuck(r: Raft, st: Store, next: nat, snap: nat) {
    r.log.pending.None? && st.snapshot.index == 0 && next <= snap
  }

  predicate SomeoneStuck(r: Raft, st: Store, prs: map<NodeId, Progress>, snap: nat) {
    exists id :: id in prs && id != r.id && Stuck(r, st, prs[id].Next, snap)
  }

  ghost predicate WouldCommit(r: Raft, prs: map<NodeId, Progress>) {
    |prs| > 0 && QuorumMatch(prs) > r.log.committed && MatchTerm(r.log, QuorumMatch(prs), r.term)
  }

  /** A leader would send a snapshot it does not have: to anybody after a proposal, which compacts its log as
      far as the store is, or after a response that moves the commit index; or to the sender of a
      rejection, a heartbeat response or a transfer request. */
  ghost predicate NeedsSnapshot(r: Raft, st: Store, m: Message) {
    && st.ents != []
    && r.state == StateLeader
    && (m.term == 0 || m.term == r.term)
    && match m
       case MsgPropose(_, _, _, ents) =>
         ents != [] && r.leadTransferee == NONE && SomeoneStuck(r, st, r.prs, st.ents[0].index)
       case MsgAppendResponse(from, _, _, index, reject, hint) =>
         && from in r.prs
         && if reject then
              var (pr, decreased) := MaybeDecrTo(r.prs[from], index, hint);
              decreased && Stuck(r, st, pr.Next, r.log.snapIndex)
            else
              var prs := r.prs[from := MaybeUpdate(r.prs[from], index)];
              r.prs[from].Match < index && WouldCommit(r, prs) && SomeoneStuck(r, st, prs, r.log.snapIndex)
       case MsgHeartbeatResponse(from, _, _) =>
         from in r.prs && r.prs[from].Match < LastIndex(r.log) && Stuck(r, st, r.prs[from].Next, r.log.snapIndex)
       case MsgTransferLeader(from, _, _) =>
         && from in r.prs && from != r.id && !(r.leadTransferee == from && from != NONE)
         && r.prs[from].Match != LastIndex(r.log) && Stuck(r, st, r.prs[from].Next, r.log.snapIndex)
       case _ => false
  }

  // ------------------------------------------------------------------ sending

  lemma {:induction false} NextPositive(a: P.State, n: NodeId, r: Raft, st: Store, to: NodeId)
    requires RaftOK(a, n, r, st) && r.state == StateLeader && to in r.prs
    ensures 1 <= PrAt(r, to).Next <= LastIndex(r.log) + 1
  {
    hide FieldsOK, VotesOK, OutboxOK, P.Counted;
    assert ProgressOK(a, n, to, r.prs[to], r.term, LastIndex(r.log));
  }

  lemma {:induction false} BcastFatal(a: P.State, n: NodeId, r: Raft, st: Store)
    requires RaftOK(a, n, r, st) && r.state == StateLeader && st.ents != []
    ensures BcastAppend(r, st).Fatal? <==> SomeoneStuck(r, st, r.prs, r.log.snapIndex)
  {
    hide AppendMessage, RaftOK;
    MembersOf(a, n, r, st);
    forall id | id in r.prs
      ensures AppendMessage(r, st, id).Fatal? <==> Stuck(r, st, r.prs[id].Next, r.log.snapIndex)
    {
      AppendMessageFatal(a, n, r, st, id);
    }
  }

  lemma {:induction false} MembersOf(a: P.State, n: NodeId, r: Raft, st: Store)
    requires RaftOK(a, n, r, st)
    ensures r.prs.Keys == a.ids && r.id == n && n in a.ids
  {
  }

  /** Appending compacts the log in memory as far as the store. */
  lemma {:induction false} AppendCompacts(l: Log, F: seq<Entry>, st: Store, D: seq<Entry>, ents: seq<Entry>)
    requires Synced(l, F, st, D) && ents != [] && ents[0].index == |F| + 1
    ensures Append(l, st, ents).Done? && Append(l, st, ents).value.pending == l.pending
    ensures l.pending.None? ==> Append(l, st, ents).value.snapIndex == st.ents[0].index
  {
    SyncedFacts(l, F, st, D);
    LastIndexView(l, F);
  }

  /** What appendEntry leaves of the node: the others' progress, the snapshot and, if there is no pending
      one, a log compacted as far as the store. */
  lemma {:induction false} AppendEntryKeeps(a: P.State, n: NodeId, r: Raft, st: Store, es: seq<Entry>)
    requires RaftCore(a, n, r, st) && es != [] && AppendEntry(r, st, es).Done? && st.ents != []
    ensures var r' := After(AppendEntry(r, st, es), r);
            && r'.id == r.id && r'.log.pending == r.log.pending && r'.prs.Keys == r.prs.Keys
            && (forall id :: id in r.prs && id != r.id ==> PrAt(r', id) == PrAt(r, id))
            && (r.log.pending.None? ==> r'.log.snapIndex == st.ents[0].index)
  {
    hide Append, VotesOK, ProgressesOK, OutboxOK, Synced, QuorumMatch, FieldsOK;
    TermOf(a, n, r, st);
    var F := a.vol[n].hard.log;
    LastIndexView(r.log, F);
    StampOK(es, r.term, |F|);
    AppendCompacts(r.log, F, st, a.dur[n].log, Stamp(es, r.term, |F|));
  }

  // ------------------------------------------------------------------ leaders

  lemma {:induction false} ProposeFatal(a: P.State, n: NodeId, r: Raft, st: Store, ents: seq<Entry>)
    requires P.Inv(a) && RaftOK(a, n, r, st) && r.state == StateLeader && st.ents != []
    ensures Propose(r, st, ents).Fatal? <==>
              ents == [] || (r.leadTransferee == NONE && SomeoneStuck(r, st, r.prs, st.ents[0].index))
  {
    hide P.Inv, RaftCore, Reaches, AppendEntry, BcastAppend, FilterConf;
    MembersOf(a, n, r, st);
    if ents != [] && r.leadTransferee == NONE {
      var (es, p) := FilterConf(ents, r.pendingConfIndex, r.log.applied, LastIndex(r.log));
      FilterConfLength(ents, r.pendingConfIndex, r.log.applied, LastIndex(r.log));
      CoreIgnores(a, n, r, st, r.lead, r.leadTransferee, p);
      var r0 := r.(pendingConfIndex := p);
      var a' := SimAppendEntry(a, n, r0, st, es);
      AppendEntryKeeps(a, n, r0, st, es);
      var r1 := AppendEntry(r0, st, es).value;
      BcastFatal(a', n, r1, st);
      SameStuck(r, r1, st);
    }
  }

  lemma {:induction false} SameStuck(r: Raft, r1: Raft, st: Store)
    requires st.ents != [] && r1.id == r.id && r1.log.pending == r.log.pending && r1.prs.Keys == r.prs.Keys
    requires forall id :: id in r.prs && id != r.id ==> PrAt(r1, id) == PrAt(r, id)
    requires r.log.pending.None? ==> r1.log.snapIndex == st.ents[0].index
    ensures SomeoneStuck(r1, st, r1.prs, r1.log.snapIndex) <==> SomeoneStuck(r, st, r.prs, st.ents[0].index)
  {
    if id :| id in r.prs && id != r.id && Stuck(r, st, r.prs[id].Next, st.ents[0].index) {
      assert Stuck(r1, st, r1.prs[id].Next, r1.log.snapIndex);
    }
    if id :| id in r1.prs && id != r1.id && Stuck(r1, st, r1.prs[id].Next, r1.log.snapIndex) {
      assert id in r.prs && Stuck(r, st, r.prs[id].Next, st.ents[0].index);
    }
  }

  lemma {:induction false} MaybeCommitIs(r: Raft)
    requires |r.prs| > 0 && MaybeCommit(r).Done?
    ensures MaybeCommit(r).value.1 <==> WouldCommit(r, r.prs)
    ensures MaybeCommit(r).value.0 == r.(log := r.log.(committed := MaybeCommit(r).value.0.log.committed))
  {
    hide QuorumMatch;
  }

  lemma {:induction false} AcceptFatal(a: P.State, n: NodeId, r: Raft, st: Store, m: Message)
    requires P.Inv(a) && RaftOK(a, n, r, st) && r.state == StateLeader && m.from in r.prs && st.ents != []
    requires m.MsgAppendResponse? && !m.reject && MsgOK(a, NONE, m) && m.to == n && m.term == r.term
    ensures LeaderAppendResponse(r, st, m).Fatal? <==> NeedsSnapshot(r, st, m)
  {
    hide P.Inv, RaftCore, BcastAppend, AppendMessage, MaybeUpdate, ProgressOK, Reaches, MaybeCommit, MsgOK, WouldCommit;
    MembersOf(a, n, r, st);
    var pr := r.prs[m.from];
    AcceptedProgress(a, n, r, st, m);
    SimProgress(a, n, r, st, m.from, MaybeUpdate(pr, m.index));
    var r1 := r.(prs := r.prs[m.from := MaybeUpdate(pr, m.index)]);
    if pr.Match < m.index {
      var a' := SimMaybeCommit(a, n, r1, st);
      MaybeCommitIs(r1);
      var (r2, changed) := MaybeCommit(r1).value;
      CommitIrrelevant(r, r1.prs);
      if changed {
        BcastFatal(a', n, r2, st);
        StuckIgnoresCommit(r, r2, st);
        if BcastAppend(r2, st).Done? {
          BcastSame(r2, st);
        }
      }
    }
  }

  lemma {:induction false} CommitIrrelevant(r: Raft, prs: map<NodeId, Progress>)
    ensures WouldCommit(r.(prs := prs), prs) <==> WouldCommit(r, prs)
  {
  }

  lemma {:induction false} StuckIgnoresCommit(r: Raft, r2: Raft, st: Store)
    requires r2.id == r.id && r2.log == r.log.(committed := r2.log.committed)
    ensures SomeoneStuck(r2, st, r2.prs, r2.log.snapIndex) <==> SomeoneStuck(r, st, r2.prs, r.log.snapIndex)
  {
    if id :| id in r2.prs && id != r.id && Stuck(r, st, r2.prs[id].Next, r.log.snapIndex) {
      assert Stuck(r2, st, r2.prs[id].Next, r2.log.snapIndex);
    }
    if id :| id in r2.prs && id != r2.id && Stuck(r2, st, r2.prs[id].Next, r2.log.snapIndex) {
      assert Stuck(r, st, r2.prs[id].Next, r.log.snapIndex);
    }
  }

  lemma {:induction false} RejectFatal(a: P.State, n: NodeId, r: Raft, st: Store, m: Message)
    requires P.Inv(a) && RaftOK(a, n, r, st) && r.state == StateLeader && m.from in r.prs && st.ents != []
    requires m.MsgAppendResponse? && m.reject && MsgOK(a, NONE, m) && m.to == n && m.term == r.term
    ensures LeaderAppendResponse(r, st, m).Fatal? <==> NeedsSnapshot(r, st, m)
  {
    hide P.Inv, RaftCore, AppendMessage, MaybeDecrTo, ProgressOK, MsgOK;
    MembersOf(a, n, r, st);
    RejectedProgress(a, n, r, st, m);
    var (pr, _) := MaybeDecrTo(r.prs[m.from], m.index, m.rejectHint);
    SimProgress(a, n, r, st, m.from, pr);
    AppendMessageFatal(a, n, r.(prs := r.prs[m.from := pr]), st, m.from);
  }

  lemma {:induction false} LeaderFatal(a: P.State, n: NodeId, r: Raft, st: Store, m: Message)
    requires P.Inv(a) && RaftOK(a, n, r, st) && r.state == StateLeader && st.ents != []
    requires InputOK(a, n, m) && (m.term == 0 || m.term == r.term)
    ensures StepLeader(r, st, m).Fatal? <==> (m.MsgPropose? && m.ents == []) || NeedsSnapshot(r, st, m)
  {
    hide P.Inv, RaftCore, Propose, LeaderAppendResponse, AppendMessage, BcastHeartbeat, LastIndex, SomeoneStuck, WouldCommit;
    hide AppendResponseOK, AppendOK, HeartbeatOK, SnapshotOK, RequestVoteOK, VoteResponseOK, Announced;
    MembersOf(a, n, r, st);
    if m.MsgPropose? {
      ProposeFatal(a, n, r, st, m.ents);
    } else if m.from in r.prs {
      if m.MsgAppendResponse? {
        if m.reject {
          RejectFatal(a, n, r, st, m);
        } else {
          AcceptFatal(a, n, r, st, m);
        }
      } else {
        AppendMessageFatal(a, n, r, st, m.from);
        CoreIgnores(a, n, r, st, r.lead, m.from, r.pendingConfIndex);
        AppendMessageFatal(a, n, r.(leadTransferee := m.from), st, m.from);
      }
    }
  }

  // ------------------------------------------------------------------ candidates and followers

  /** A new leader offers everybody the entries behind its log, so it needs no snapshot. */
  lemma {:induction false} NewLeaderDone(a: P.State, n: NodeId, r: Raft, st: Store)
    requires P.Inv(a) && RaftCore(a, n, r, st) && r.state == StateCandidate && st.ents != []
    requires Granted(r.votes) == QuorumSize(r)
    ensures BecomeLeader(r, st).Done? && BcastAppend(After(BecomeLeader(r, st), r), st).Done?
  {
    hide P.Inv, Reaches, AppendEntry, BcastAppend, VotesOK, ProgressesOK, OutboxOK, FieldsOK, Synced;
    TermOf(a, n, r, st);
    var F := a.vol[n].hard.log;
    LastIndexView(r.log, F);
    SyncedFacts(r.log, F, st, a.dur[n].log);
    var a1 := SimElect(a, n, r, st);
    var noop := Entry(EntryNormal, 0, 0, []);
    var a' := SimAppendEntry(a1, n, Crowned(r), st, [noop]);
    AppendEntryKeeps(a1, n, Crowned(r), st, [noop]);
    var r' := BecomeLeader(r, st).value;
    BcastFatal(a', n, r', st);
    forall id | id in r'.prs && id != r'.id
      ensures !Stuck(r', st, r'.prs[id].Next, r'.log.snapIndex)
    {
      assert r'.prs[id].Next == |F| + 1;
    }
  }

  lemma {:induction false} VoteResponseDone(a: P.State, n: NodeId, r: Raft, st: Store, m: Message)
    requires P.Inv(a) && RaftOK(a, n, r, st) && r.state == StateCandidate && st.ents != []
    requires m.MsgRequestVoteResponse? && MsgOK(a, NONE, m) && m.to == n && m.term == r.term
    ensures CandidateVoteResponse(r, st, m).Done?
  {
    hide P.Inv, RaftCore, MsgOK, BecomeLeader, BcastAppend;
    SimPoll(a, n, r, st, m);
    var r1 := Poll(r, m.from, !m.reject);
    if QuorumSize(r1) == Granted(r1.votes) {
      NewLeaderDone(a, n, r1, st);
    }
  }

  lemma {:induction false} CandidateDone(a: P.State, n: NodeId, r: Raft, st: Store, m: Message)
    requires P.Inv(a) && RaftOK(a, n, r, st) && r.state == StateCandidate && st.ents != []
    requires InputOK(a, n, m) && (m.term == 0 || m.term == r.term)
    ensures StepCandidate(r, st, m).Done?
  {
    hide P.Inv, RaftCore, Reaches, P.InvTypes, P.InvNodes, P.NodeOK, FollowLeader, CandidateVoteResponse, BecomeFollower, MsgOK;
    CoreId(a, n, r, st);
    Facts(a, n);
    InputTerm(a, n, m);
    if m.MsgAppend? || m.MsgHeartbeat? || m.MsgSnapshot? {
      var a1 := SimBecomeFollower(a, n, r, st, m.term, m.from);
      FollowerFacts(r, m.term, m.from);
      MsgStable(a, a1, n, NONE, m);
      var a2 := SimFollowLeader(a1, n, BecomeFollower(r, m.term, m.from), st, m);
    } else if m.MsgRequestVoteResponse? {
      VoteResponseDone(a, n, r, st, m);
    }
  }

  /** Only messages from the network carry a term. */
  lemma {:induction false} InputTerm(a: P.State, n: NodeId, m: Message)
    requires InputOK(a, n, m)
    ensures !(m.MsgHup? || m.MsgBeat? || m.MsgPropose? || m.MsgTransferLeader?) ==> m.term >= 1 && m.to == n && MsgOK(a, NONE, m)
    ensures m.MsgHup? || m.MsgBeat? || m.MsgPropose? ==> m.term == 0
  {
  }

  lemma {:induction false} FollowerFatal(a: P.State, n: NodeId, r: Raft, st: Store, m: Message)
    requires P.Inv(a) && RaftOK(a, n, r, st) && r.state == StateFollower && st.ents != []
    requires InputOK(a, n, m) && (m.term == 0 || m.term == r.term)
    ensures StepFollower(r, st, m).Fatal? <==> m.MsgTransferLeader? && r.lead != NONE && m.term != 0
  {
    hide P.Inv, RaftCore, Reaches, P.InvTypes, FollowLeader, Campaign, MsgOK;
    InputTerm(a, n, m);
    if m.MsgAppend? || m.MsgHeartbeat? || m.MsgSnapshot? {
      CoreIgnores(a, n, r, st, m.from, r.leadTransferee, r.pendingConfIndex);
      var a' := SimFollowLeader(a, n, r.(lead := m.from), st, m);
    } else if m.MsgTimeoutNow? {
      var a' := SimCampaign(a, n, r, st);
    }
  }

  // ------------------------------------------------------------------ Step

  lemma {:induction false} HupSlice(l: Log, F: seq<Entry>)
    requires LogView(l, F)
    ensures var s := Slice(l, l.applied + 1, l.committed + 1);
            (s.Done? && s.value.Ok?) <==> !BehindSnapshot(l)
  {
    LastIndexView(l, F);
  }

  lemma {:induction false} HupFatal(a: P.State, n: NodeId, r: Raft, st: Store)
    requires P.Inv(a) && RaftOK(a, n, r, st) && st.ents != []
    ensures StepHup(r, st).Fatal? <==> r.state != StateLeader && BehindSnapshot(r.log)
  {
    hide P.Inv, FieldsOK, VotesOK, ProgressesOK, OutboxOK, Reaches, Campaign, Slice, NumOfPendingConf, BehindSnapshot, LogView, Synced;
    ViewOf(a, n, r, st);
    HupSlice(r.log, a.vol[n].hard.log);
    var a' := SimCampaign(a, n, r, st);
  }

  lemma {:induction false} ViewOf(a: P.State, n: NodeId, r: Raft, st: Store)
    requires RaftOK(a, n, r, st)
    ensures n in a.vol && LogView(r.log, P.VolAt(a, n).hard.log) && r.term == P.VolAt(a, n).hard.term
  {
  }

  lemma {:induction false} SameTermFatal(a: P.State, n: NodeId, r: Raft, st: Store, m: Message)
    requires P.Inv(a) && RaftOK(a, n, r, st) && st.ents != []
    requires InputOK(a, n, m) && (m.term == 0 || m.term == r.term)
    ensures StepSameTerm(r, st, m).Fatal? <==> FatalInput(r, m) || NeedsSnapshot(r, st, m)
  {
    hide P.Inv, RaftOK, Reaches, StepHup, StepRequestVote, StepLeader, StepCandidate, StepFollower, BehindSnapshot, MsgOK;
    hide SomeoneStuck, WouldCommit, Stuck;
    InputTerm(a, n, m);
    if m.MsgHup? {
      HupFatal(a, n, r, st);
    } else if m.MsgRequestVote? {
      var a' := SimRequestVote(a, n, r, st, m);
    } else {
      match r.state
      case StateFollower => FollowerFatal(a, n, r, st, m);
      case StateCandidate => CandidateDone(a, n, r, st, m);
      case StateLeader => LeaderFatal(a, n, r, st, m);
    }
  }

  /** A step ends in a fatal exit exactly on the three inputs above, or if a leader would have to send a
      snapshot and has none. */
  lemma {:induction false} StepFatal(a: P.State, n: NodeId, r: Raft, st: Store, m: Message)
    requires P.Inv(a) && RaftOK(a, n, r, st) && st.ents != [] && InputOK(a, n, m)
    ensures Step(r, st, m).Fatal? <==> FatalInput(r, m) || NeedsSnapshot(r, st, m)
  {
    hide P.Inv, RaftCore, Reaches, StepSameTerm, BecomeFollower, P.InvTypes, P.InvNodes, P.NodeOK, MsgOK, BehindSnapshot;
    hide SomeoneStuck, WouldCommit, Stuck;
    InputTerm(a, n, m);
    if m.term != 0 && m.term > r.term {
      CoreId(a, n, r, st);
      Facts(a, n);
      var lead := if m.MsgAppend? || m.MsgHeartbeat? || m.MsgSnapshot? then m.from else NONE;
      var a1 := SimBecomeFollower(a, n, r, st, m.term, lead);
      FollowerFacts(r, m.term, lead);
      FollowerLead(r, m.term, lead);
      InputStable(a, a1, n, m);
      SameTermFatal(a1, n, BecomeFollower(r, m.term, lead), st, m);
    } else if m.term == 0 || m.term == r.term {
      SameTermFatal(a, n, r, st, m);
    }
  }

  /** A store that has some snapshot, or has compacted nothing, always has what a peer needs. */
  lemma {:induction false} SnapshotSuffices(a: P.State, n: NodeId, r: Raft, st: Store, m: Message)
    requires P.Inv(a) && RaftOK(a, n, r, st) && st.ents != [] && InputOK(a, n, m)
    requires st.snapshot.index > 0 || st.ents[0].index == 0
    ensures !NeedsSnapshot(r, st, m)
  {
    hide P.Inv, MsgOK, VotesOK, ProgressesOK, OutboxOK, Synced, WouldCommit, InputOK, FieldsOK;
    if r.state == StateLeader && r.log.pending.None? && st.ents[0].index == 0 {
      TermOf(a, n, r, st);
      SyncedFacts(r.log, a.vol[n].hard.log, st, a.dur[n].log);
      assert r.log.snapIndex == 0;
      forall id | id in r.prs
        ensures r.prs[id].Next >= 1
      {
        NextPositive(a, n, r, st, id);
      }
    }
  }

  lemma {:induction false} FollowerLead(r: Raft, term: nat, lead: NodeId)
    ensures BecomeFollower(r, term, lead).lead == lead && BecomeFollower(r, term, lead).state == StateFollower
  {
  }

  lemma {:induction false} InputStable(a: P.State, a': P.State, n: NodeId, m: Message)
    requires P.InvTypes(a) && P.InvNodes(a) && Reaches(a, a', n) && InputOK(a, n, m)
    ensures InputOK(a', n, m)
  {
    hide P.InvNodes, MsgOK, Reaches;
    if MsgOK(a, NONE, m) && m.to == n {
      MsgStable(a, a', n, NONE, m);
    }
  }

  /** In every run, a message from the network makes a node exit fatally exactly if it makes a leader send a
      snapshot it does not have. No append, heartbeat, snapshot, vote request, vote or timeout message ever
      does, whatever the store, and no forwarded transfer request meets a follower that would forward it. */
  lemma {:induction false} NetworkNeverFatal(run: seq<Cluster>, i: nat, n: NodeId, m: Message)
    requires Run(run) && i < |run| && n in run[i].peers && m in run[i].net && m.to == n
    ensures run[i].peers[n].st.ents != []
    ensures var p := run[i].peers[n]; RawStep(p.rn, p.st, m).Fatal? <==> NeedsSnapshot(p.rn.raft, p.st, m)
    ensures m.MsgAppend? || m.MsgHeartbeat? || m.MsgSnapshot? || m.MsgRequestVote? || m.MsgRequestVoteResponse? || m.MsgTimeoutNow? ==>
              RawStep(run[i].peers[n].rn, run[i].peers[n].st, m).Done?
  {
    hide P.Inv, Evolves, Step, RaftOK, MsgOK, DeliveredOK, BehindSnapshot, SomeoneStuck, WouldCommit, Stuck, Next, Init;
    var trace := RunFollows(run);
    var c, a := run[i], trace[i];
    var p := c.peers[n];
    assert PeerOK(a, n, p);
    PeerStore(a, n, p.rn.raft, p.st);
    assert MsgOK(a, NONE, m);
    InputTerm(a, n, m);
    SenderKnown(a, n, p.rn.raft, p.st, m);
    StepFatal(a, n, p.rn.raft, p.st, m);
    if m.MsgTransferLeader? && m.term != 0 {
      TransferReachesLeader(run, i, n, m);
    }
  }

  lemma {:induction false} SenderKnown(a: P.State, n: NodeId, r: Raft, st: Store, m: Message)
    requires RaftOK(a, n, r, st) && MsgOK(a, NONE, m)
    ensures m.from in r.prs && !m.MsgHup? && !m.MsgBeat? && !m.MsgPropose?
  {
  }

  /** Exactly which requests of the application make a node exit fatally: an election behind a pending
      snapshot, an empty proposal to a leader, or a proposal or transfer that needs a snapshot there is not. */
  lemma {:induction false} RequestFatal(run: seq<Cluster>, i: nat, n: NodeId, m: Message)
    requires Run(run) && i < |run| && n in run[i].peers && IsRequest(m)
    ensures run[i].peers[n].st.ents != []
    ensures var p := run[i].peers[n];
            Step(p.rn.raft, p.st, m).Fatal? <==> FatalInput(p.rn.raft, m) || NeedsSnapshot(p.rn.raft, p.st, m)
  {
    hide P.Inv, Evolves, Step, RaftOK, MsgOK, DeliveredOK, FatalInput, NeedsSnapshot, Next, Init;
    var trace := RunFollows(run);
    var a, p := trace[i], run[i].peers[n];
    assert PeerOK(a, n, p);
    PeerStore(a, n, p.rn.raft, p.st);
    StepFatal(a, n, p.rn.raft, p.st, m);
  }

  /** Ready, persisting and Advance never fail. */
  lemma {:induction false} CycleNeverFatal(run: seq<Cluster>, i: nat, n: NodeId)
    requires Run(run) && i < |run| && n in run[i].peers
    ensures run[i].peers[n].st.ents != [] && Cycle(run[i].peers[n].rn, run[i].peers[n].st).Done?
  {
    hide P.Inv, Evolves, RaftOK, MsgOK, DeliveredOK, Cycle;
    var trace := RunFollows(run);
    var a, p := trace[i], run[i].peers[n];
    assert PeerOK(a, n, p);
    PeerStore(a, n, p.rn.raft, p.st);
    SimCycle(a, n, p.rn, p.st);
  }
}
