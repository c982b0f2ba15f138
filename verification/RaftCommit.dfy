/** How far a leader commits: exactly as far as it may. */
module RaftCommit {
  import opened RaftTypes
  import opened RaftStore
  import opened RaftLogSpec
  import opened RaftNodeSpec
  import opened RawNodeSpec
  import opened RaftCoupling
  import opened RaftSimulation
  import opened RaftCluster
  import opened RaftCycle
  import opened RaftRefinement
  import opened RaftReigns
  import F = RaftImplFacts
  import P = RaftProtocol

  /** A majority has reported to hold index `x`. */
  predicate Majority(prs: map<NodeId, Progress>, x: nat) {
    |AtLeast(prs, x)| >= |prs| / 2 + 1
  }

  /** Nothing is left to commit for the index a majority has reached. */
  ghost predicate Caught(r: Raft) {
    r.state == StateLeader ==>
      |r.prs| > 0 && (QuorumMatch(r.prs) <= r.log.committed || !MatchTerm(r.log, QuorumMatch(r.prs), r.term))
  }

  /** The commit index is the one of before, or a later index of this term that a majority has reached; and nothing
      beyond the one of before has been compacted. */
  predicate CommitsFrom(committed: nat, r: Raft) {
    && (r.state == StateLeader ==> r.log.snapIndex <= committed)
    && (r.state == StateLeader && r.log.committed != committed ==>
          r.log.committed > committed && MatchTerm(r.log, r.log.committed, r.term) && Majority(r.prs, r.log.committed))
  }

  /** Only committed entries have been compacted, in memory and in the store. */
  predicate Room(r: Raft, st: Store) {
    st.ents != [] && st.ents[0].index <= r.log.committed && r.log.snapIndex <= r.log.committed
  }

  ghost predicate Commits(committed: nat, o: Outcome<Raft>) {
    o.Done? ==> Caught(o.value) && CommitsFrom(committed, o.value)
  }

  // ------------------------------------------------------------------ the leader's log

  lemma {:induction false} MaybeCommits(r: Raft)
    requires r.state == StateLeader && r.log.snapIndex <= r.log.committed
    ensures var o := MaybeCommit(r);
            o.Done? ==> Caught(o.value.0) && CommitsFrom(r.log.committed, o.value.0)
  {
    hide QuorumMatch, AtLeast;
  }

  lemma {:induction false} AppendCommitted(l: Log, st: Store, ents: seq<Entry>)
    requires st.ents != [] && Append(l, st, ents).Done?
    ensures Append(l, st, ents).value.committed == l.committed
    ensures Append(l, st, ents).value.snapIndex <= Max(l.snapIndex, st.ents[0].index)
  {
  }

  lemma {:induction false} AppendEntryCommits(r: Raft, st: Store, es: seq<Entry>)
    requires Room(r, st) && r.state == StateLeader
    ensures Commits(r.log.committed, AppendEntry(r, st, es))
    ensures AppendEntry(r, st, es).Done? ==> After(AppendEntry(r, st, es), r).state == StateLeader
  {
    hide Append, QuorumMatch, AtLeast, Caught, CommitsFrom, MatchTerm;
    var ents := Stamp(es, r.term, LastIndex(r.log));
    if Append(r.log, st, ents).Done? && r.id in r.prs {
      AppendCommitted(r.log, st, ents);
      var log := Append(r.log, st, ents).value;
      var r1 := r.(log := log, prs := r.prs[r.id := MaybeUpdate(r.prs[r.id], LastIndex(log))]);
      MaybeCommits(r1);
    }
  }

  /** Sending changes neither the log nor what is known of the others. */
  lemma {:induction false} SentCommits(r: Raft, r': Raft, committed: nat)
    requires r'.state == r.state && r'.prs == r.prs && r'.log == r.log && r'.term == r.term
    ensures Caught(r) ==> Caught(r')
    ensures CommitsFrom(committed, r) ==> CommitsFrom(committed, r')
  {
  }

  lemma {:induction false} BcastSends(r: Raft, st: Store)
    ensures BcastAppend(r, st).Done? ==>
              var r' := After(BcastAppend(r, st), r); r'.state == r.state && r'.prs == r.prs && r'.log == r.log && r'.term == r.term
  {
  }

  lemma {:induction false} ProposeCommits(r: Raft, st: Store, ents: seq<Entry>)
    requires Room(r, st) && r.state == StateLeader && Caught(r)
    ensures Propose(r, st, ents).Done? ==>
              Caught(AfterStep(Propose(r, st, ents), r)) && CommitsFrom(r.log.committed, AfterStep(Propose(r, st, ents), r))
  {
    hide AppendEntry, BcastAppend, FilterConf, LastIndex, Caught, MatchTerm, Majority;
    if ents != [] && r.id in r.prs && r.leadTransferee == NONE {
      var (es, p) := FilterConf(ents, r.pendingConfIndex, r.log.applied, LastIndex(r.log));
      var r0 := r.(pendingConfIndex := p);
      AppendEntryCommits(r0, st, es);
      if AppendEntry(r0, st, es).Done? {
        var r1 := AppendEntry(r0, st, es).value;
        BcastSends(r1, st);
        if BcastAppend(r1, st).Done? {
          SentCommits(r1, BcastAppend(r1, st).value, r.log.committed);
        }
      }
    }
  }

  // ------------------------------------------------------------------ responses

  /** Only Match counts. */
  lemma {:induction false} SameMatch(r: Raft, r': Raft)
    requires Caught(r) && r'.state == r.state && r'.term == r.term && r'.log == r.log && r'.prs.Keys == r.prs.Keys
    requires forall id :: id in r.prs ==> PrAt(r', id).Match == PrAt(r, id).Match
    ensures Caught(r')
  {
    hide QuorumMatch;
    if r.state == StateLeader {
      assert |r'.prs| == |r'.prs.Keys| && |r.prs| == |r.prs.Keys|;
      var q := QuorumMatch(r.prs);
      assert AtLeast(r'.prs, q) == AtLeast(r.prs, q) && AtLeast(r'.prs, q + 1) == AtLeast(r.prs, q + 1);
      F.QuorumMatchUnique(r'.prs, QuorumMatch(r'.prs), q);
    }
  }

  lemma {:induction false} SendSends(r: Raft, st: Store, to: NodeId)
    ensures SendAppend(r, st, to).Done? ==>
              var r' := After(SendAppend(r, st, to), r); r'.state == r.state && r'.prs == r.prs && r'.log == r.log && r'.term == r.term
  {
    hide AppendMessage;
  }

  lemma {:induction false} ResponseCommits(r: Raft, st: Store, m: Message)
    requires Room(r, st) && m.MsgAppendResponse? && m.from in r.prs && r.state == StateLeader && Caught(r)
    ensures Commits(r.log.committed, LeaderAppendResponse(r, st, m))
  {
    hide SendAppend, BcastAppend, QuorumMatch, MatchTerm, LastIndex, Caught, MaybeCommit, Majority;
    var pr := r.prs[m.from];
    if m.reject {
      var r1 := r.(prs := r.prs[m.from := MaybeDecrTo(pr, m.index, m.rejectHint).0]);
      SameMatch(r, r1);
      SendSends(r1, st, m.from);
      if SendAppend(r1, st, m.from).Done? {
        SentCommits(r1, SendAppend(r1, st, m.from).value, r.log.committed);
      }
    } else {
      var r1 := r.(prs := r.prs[m.from := MaybeUpdate(pr, m.index)]);
      if pr.Match < m.index {
        AcceptedCommits(r1, st, m, r.log.committed);
      } else {
        SameMatch(r, r1);
      }
    }
  }

  lemma {:induction false} AcceptedCommits(r: Raft, st: Store, m: Message, committed: nat)
    requires m.from in r.prs && r.state == StateLeader && r.log.snapIndex <= r.log.committed == committed
    ensures MaybeCommit(r).Done? ==>
              var (r2, changed) := MaybeCommit(r).value;
              var o := if changed then BcastAppend(r2, st) else Done(r2);
              o.Done? ==> forall ms :: Caught(o.value.(msgs := ms)) && CommitsFrom(committed, o.value.(msgs := ms))
  {
    hide BcastAppend, QuorumMatch, MatchTerm, Caught, MaybeCommit, Majority, CommitsFrom;
    MaybeCommits(r);
    if MaybeCommit(r).Done? {
      var (r2, changed) := MaybeCommit(r).value;
      BcastSends(r2, st);
      var o := if changed then BcastAppend(r2, st) else Done(r2);
      if o.Done? {
        forall ms
          ensures Caught(o.value.(msgs := ms)) && CommitsFrom(committed, o.value.(msgs := ms))
        {
          SentCommits(r2, o.value.(msgs := ms), committed);
        }
      }
    }
  }

  lemma {:induction false} LeaderStepCommits(r: Raft, st: Store, m: Message)
    requires Room(r, st) && r.state == StateLeader && Caught(r)
    ensures StepLeader(r, st, m).Done? ==>
              Caught(AfterStep(StepLeader(r, st, m), r)) && CommitsFrom(r.log.committed, AfterStep(StepLeader(r, st, m), r))
  {
    hide Propose, LeaderAppendResponse, SendAppend, LastIndex, Caught, MatchTerm, Majority;
    if m.MsgBeat? {
      SentCommits(r, BcastHeartbeat(r), r.log.committed);
    } else if m.MsgPropose? {
      ProposeCommits(r, st, m.ents);
    } else if m.from in r.prs {
      if m.MsgAppendResponse? {
        ResponseCommits(r, st, m);
      } else if m.MsgHeartbeatResponse? {
        SendSends(r, st, m.from);
        if SendAppend(r, st, m.from).Done? {
          SentCommits(r, SendAppend(r, st, m.from).value, r.log.committed);
        }
      } else if m.MsgTransferLeader? {
        TransferCommits(r, st, m.from);
      }
    }
  }

  lemma {:induction false} TransferCommits(r: Raft, st: Store, to: NodeId)
    requires to in r.prs && Caught(r) && r.log.snapIndex <= r.log.committed
    ensures Commits(r.log.committed, LeaderTransfer(r, st, to))
  {
    hide SendAppend, LastIndex, Caught, MatchTerm, Majority;
    var r2 := r.(leadTransferee := to);
    SendSends(r2, st, to);
    if LeaderTransfer(r, st, to).Done? {
      SentCommits(r, LeaderTransfer(r, st, to).value, r.log.committed);
    }
  }

  // ------------------------------------------------------------------ elections and the whole step

  lemma {:induction false} BecomeLeaderCommits(r: Raft, st: Store)
    requires Room(r, st)
    ensures Commits(r.log.committed, BecomeLeader(r, st))
  {
    hide AppendEntry, LastIndex, Caught, CommitsFrom;
    AppendEntryCommits(Reset(r, r.term).(lead := r.id, state := StateLeader, pendingConfIndex := LastIndex(r.log)), st,
                       [Entry(EntryNormal, 0, 0, [])]);
  }

  lemma {:induction false} NotLeading(r: Raft, committed: nat)
    requires r.state != StateLeader
    ensures Caught(r) && CommitsFrom(committed, r)
  {
  }

  lemma {:induction false} CampaignCommits(r: Raft, st: Store)
    requires Room(r, st)
    ensures Commits(r.log.committed, Campaign(r, st))
  {
    hide BecomeLeader, LastTerm, LastIndex, Caught, CommitsFrom;
    var r2 := Poll(BecomeCandidate(r), r.id, true);
    BecomeLeaderCommits(r2, st);
    if Campaign(r, st).Done? && Campaign(r, st) != BecomeLeader(r2, st) {
      NotLeading(Campaign(r, st).value, r.log.committed);
    }
  }

  lemma {:induction false} VoteCommits(r: Raft, st: Store, m: Message)
    requires Room(r, st) && m.MsgRequestVoteResponse? && r.state == StateCandidate
    ensures Commits(r.log.committed, CandidateVoteResponse(r, st, m))
  {
    hide BecomeLeader, BcastAppend, Grantors, LastIndex, Caught, CommitsFrom;
    var r1 := Poll(r, m.from, !m.reject);
    BecomeLeaderCommits(r1, st);
    NotLeading(r1, r.log.committed);
    NotLeading(BecomeFollower(r1, r1.term, NONE), r.log.committed);
    if BecomeLeader(r1, st).Done? {
      var r2 := BecomeLeader(r1, st).value;
      BcastSends(r2, st);
      if BcastAppend(r2, st).Done? {
        SentCommits(r2, BcastAppend(r2, st).value, r.log.committed);
      }
    }
  }

  lemma {:induction false} FollowStays(r: Raft, st: Store, m: Message)
    requires st.ents != [] && (m.MsgAppend? || m.MsgHeartbeat? || m.MsgSnapshot?)
    ensures FollowLeader(r, st, m).Done? ==> After(FollowLeader(r, st, m), r).state == r.state
  {
    hide MaybeAppend, CommitTo, MatchTerm, LastIndex;
  }

  lemma {:induction false} FollowerCommits(r: Raft, st: Store, m: Message)
    requires Room(r, st) && r.state == StateFollower
    ensures StepFollower(r, st, m).Done? ==>
              Caught(AfterStep(StepFollower(r, st, m), r)) && CommitsFrom(r.log.committed, AfterStep(StepFollower(r, st, m), r))
  {
    hide FollowLeader, Campaign, Caught, CommitsFrom;
    if m.MsgAppend? || m.MsgHeartbeat? || m.MsgSnapshot? {
      FollowStays(r.(lead := m.from), st, m);
    }
    if m.MsgTimeoutNow? && r.id in r.prs {
      CampaignCommits(r, st);
    } else if StepFollower(r, st, m).Done? {
      NotLeading(StepFollower(r, st, m).value.raft, r.log.committed);
    }
  }

  lemma {:induction false} CandidateCommits(r: Raft, st: Store, m: Message)
    requires Room(r, st) && r.state == StateCandidate
    ensures StepCandidate(r, st, m).Done? ==>
              Caught(AfterStep(StepCandidate(r, st, m), r)) && CommitsFrom(r.log.committed, AfterStep(StepCandidate(r, st, m), r))
  {
    hide FollowLeader, CandidateVoteResponse, LastIndex, Caught, CommitsFrom;
    if m.MsgRequestVoteResponse? {
      VoteCommits(r, st, m);
    } else {
      if m.MsgAppend? || m.MsgHeartbeat? || m.MsgSnapshot? {
        FollowStays(BecomeFollower(r, m.term, m.from), st, m);
      }
      if StepCandidate(r, st, m).Done? {
        NotLeading(StepCandidate(r, st, m).value.raft, r.log.committed);
      }
    }
  }

  lemma {:induction false} SameTermCommits(r: Raft, st: Store, m: Message)
    requires Room(r, st) && Caught(r)
    ensures StepSameTerm(r, st, m).Done? ==>
              Caught(AfterStep(StepSameTerm(r, st, m), r)) && CommitsFrom(r.log.committed, AfterStep(StepSameTerm(r, st, m), r))
  {
    hide StepLeader, StepCandidate, StepFollower, Campaign, Slice, IsUpToDate, NumOfPendingConf, Caught, MatchTerm, Majority;
    if m.MsgHup? {
      CampaignCommits(r, st);
    } else if m.MsgRequestVote? {
      if StepRequestVote(r, m).Done? {
        SentCommits(r, StepRequestVote(r, m).value, r.log.committed);
      }
    } else {
      match r.state
      case StateFollower => FollowerCommits(r, st, m);
      case StateCandidate => CandidateCommits(r, st, m);
      case StateLeader => LeaderStepCommits(r, st, m);
    }
  }

  lemma {:induction false} StepCommits(r: Raft, st: Store, m: Message)
    requires Room(r, st) && Caught(r)
    ensures Step(r, st, m).Done? ==> Caught(AfterStep(Step(r, st, m), r)) && CommitsFrom(r.log.committed, AfterStep(Step(r, st, m), r))
  {
    hide StepSameTerm, LastIndex, Caught, MatchTerm, Majority;
    if m.term != 0 && m.term > r.term {
      var lead := if m.MsgAppend? || m.MsgHeartbeat? || m.MsgSnapshot? then m.from else NONE;
      NotLeading(BecomeFollower(r, m.term, lead), r.log.committed);
      SameTermCommits(BecomeFollower(r, m.term, lead), st, m);
    } else if m.term == 0 || m.term == r.term {
      SameTermCommits(r, st, m);
    }
  }

  // ------------------------------------------------------------------ runs

  lemma {:induction false} CycleCommits(a: P.State, n: NodeId, rn: RawNode, st: Store)
    requires P.Inv(a) && RaftOK(a, n, rn.raft, st) && rn.prevHard == st.hardState && st.ents != [] && Caught(rn.raft)
    ensures Cycle(rn, st).Done? && Caught(Cycle(rn, st).value.rn.raft)
    ensures var l, l' := rn.raft.log, Cycle(rn, st).value.rn.raft.log;
            l' == l.(applied := l.committed, stabled := l'.stabled, pending := None)
  {
    hide P.Inv, Cycle, P.NodeOK, P.InvNodes, P.InvTypes, Synced, VotesOK, ProgressesOK, OutboxOK, QuorumMatch;
    Facts(a, n);
    CycleResult(a, n, rn, st);
  }

  lemma {:induction false} RestartFollows(n: NodeId, peers: set<NodeId>, applied: nat, st: Store)
    requires st.ents != [] && NewRaft(n, peers, applied, st).Done?
    ensures NewRaft(n, peers, applied, st).value.state == StateFollower
  {
    hide NewLog;
  }

  lemma {:induction false} RoomOf(a: P.State, n: NodeId, r: Raft, st: Store)
    requires RaftOK(a, n, r, st)
    ensures Room(r, st) && n in a.ids
  {
  }

  lemma {:induction false} ActionCommits(c: Cluster, a: P.State, n: NodeId, act: Action, c': Cluster)
    requires P.Inv(a) && Couple(c, a) && NextAt(c, n, act, c') && Caught(PeerAt(c, n).rn.raft)
    ensures n in c'.peers && Caught(PeerAt(c', n).rn.raft) && CommitsFrom(PeerAt(c, n).rn.raft.log.committed, PeerAt(c', n).rn.raft)
  {
    hide P.Inv, Step, RaftOK, MsgOK, DeliveredOK, Caught, Cycle, NewRaft, StoreCompact, StoreCreateSnapshot, MatchTerm, Majority;
    var p := c.peers[n];
    assert PeerOK(a, n, p);
    PeerStore(a, n, p.rn.raft, p.st);
    RoomOf(a, n, p.rn.raft, p.st);
    match act
    case Receive(m) =>
      StepCommits(p.rn.raft, p.st, m);
    case Request(m) =>
      StepCommits(p.rn.raft, p.st, m);
    case AbortTransfer =>
      SentCommits(p.rn.raft, p.rn.raft.(leadTransferee := NONE), p.rn.raft.log.committed);
    case RunCycle =>
      CycleCommits(a, n, p.rn, p.st);
    case Compact(_) =>
    case TakeSnapshot(_) =>
    case Restart(applied) =>
      RestartFollows(n, PeersArgument(c.ids, p.st), applied, p.st);
      NotLeading(c'.peers[n].rn.raft, p.rn.raft.log.committed);
  }

  lemma {:induction false} AlwaysCaught(run: seq<Cluster>, trace: seq<P.State>, i: nat, n: NodeId)
    requires Run(run) && Follows(run, trace) && i < |run| && n in run[i].peers
    ensures Caught(run[i].peers[n].rn.raft)
    decreases i
  {
    hide P.Inv, Couple, Evolves, Caught, Init, NextAt;
    if i == 0 {
      StartFollows(run[0], n);
      NotLeading(run[0].peers[n].rn.raft, 0);
    } else {
      assert Next(run[i - 1], run[i - 1 + 1]);
      var m, act :| NextAt(run[i - 1], m, act, run[i]);
      ActsHere(run[i - 1], m, act, run[i]);
      AlwaysCaught(run, trace, i - 1, n);
      if m == n {
        ActionCommits(run[i - 1], trace[i - 1], n, act, run[i]);
      } else {
        OtherSame(run[i - 1], m, act, run[i], n);
      }
    }
  }

  lemma {:induction false} StartFollows(c: Cluster, n: NodeId)
    requires Init(c) && n in c.peers
    ensures PeerAt(c, n).rn.raft.state == StateFollower
  {
    hide NewRaft;
    RestartFollows(n, c.ids, 0, NewStore());
  }

  // ------------------------------------------------------------------ what this means

  lemma {:induction false} BelowQuorum(prs: map<NodeId, Progress>, x: nat)
    requires |prs| > 0 && Majority(prs, x)
    ensures x <= QuorumMatch(prs)
  {
    hide QuorumMatch;
    var q := QuorumMatch(prs);
    if x > q {
      SubsetSize(AtLeast(prs, x), AtLeast(prs, q + 1));
    }
  }

  /** Nobody is ahead of the leader's log. */
  lemma {:induction false} QuorumInLog(a: P.State, n: NodeId, r: Raft, st: Store)
    requires P.Inv(a) && RaftOK(a, n, r, st) && r.state == StateLeader && |r.prs| > 0
    ensures n in a.vol && QuorumMatch(r.prs) <= |P.VolAt(a, n).hard.log|
  {
    hide P.Inv, FieldsOK, VotesOK, OutboxOK, QuorumMatch, P.Counted, P.NodeOK, P.InvNodes, P.InvTypes;
    var q := QuorumMatch(r.prs);
    RoomOf(a, n, r, st);
    Facts(a, n);
    LeaderLog(a, n, r, st);
    assert |AtLeast(r.prs, q)| > 0;
    var m :| m in AtLeast(r.prs, q);
    assert ProgressOK(a, n, m, r.prs[m], r.term, LastIndex(r.log));
    if r.prs[m].Match != 0 {
      CountedInLog(a, n, m, r.term, r.prs[m].Match);
    }
  }

  lemma {:induction false} LeaderLog(a: P.State, n: NodeId, r: Raft, st: Store)
    requires RaftOK(a, n, r, st) && P.NodeOK(a, n) && r.state == StateLeader
    ensures r.term in a.tlog && P.VolAt(a, n).hard.log == P.TlogAt(a, r.term)
    ensures LogView(r.log, P.VolAt(a, n).hard.log) && P.Shaped(P.VolAt(a, n).hard.log, r.term)
  {
  }

  lemma {:induction false} CountedInLog(a: P.State, n: NodeId, m: NodeId, t: nat, x: nat)
    requires P.Inv(a) && P.Counted(a, n, m, t, x)
    ensures t in a.tlog && x <= |P.TlogAt(a, t)|
  {
    hide P.InvTypes, P.InvNodes, P.InvTerms, P.InvVotes, P.InvUnique, P.InvBallots, P.InvLeaders, P.InvCommit, P.InvLed, P.InvKept, P.CommitOK;
    var j: nat;
    if P.NetAck(a, m, t, x) {
      j :| j >= x && P.Ack(t, m, j) in a.net;
      assert P.Sent(a, P.Ack(t, m, j));
    } else {
      j :| j >= x && P.Sent(a, P.Ack(t, m, j));
    }
    assert P.AckOK(a, P.Ack(t, m, j));
  }

  /** In a log with ordered terms, an entry of the leader's term is followed by entries of that term only. */
  lemma {:induction false} LaterSameTerm(l: Log, F: seq<Entry>, term: nat, x: nat, q: nat)
    requires LogView(l, F) && P.Shaped(F, term) && l.snapIndex < x <= q <= |F| && F[x - 1].term == term
    ensures MatchTerm(l, q, term)
  {
    MatchTermView(l, F, q, term);
  }

  /** A leader commits all it may: at every moment of a run, each entry of its own term that a majority has
      reported to hold is at or below its commit index. */
  lemma {:induction false} CommitsAllItMay(run: seq<Cluster>, i: nat, n: NodeId, k: nat)
    requires Run(run) && i < |run| && n in run[i].peers && run[i].peers[n].rn.raft.state == StateLeader
    requires k < |run[i].peers[n].rn.raft.log.entries|
    requires var r := run[i].peers[n].rn.raft;
             r.log.entries[k].term == r.term && |AtLeast(r.prs, r.log.entries[k].index)| >= |r.prs| / 2 + 1
    ensures run[i].peers[n].rn.raft.log.entries[k].index <= run[i].peers[n].rn.raft.log.committed
  {
    hide P.Inv, Evolves, QuorumMatch, RaftOK, MsgOK, DeliveredOK, P.NodeOK, P.InvNodes, P.InvTypes, MatchTerm, AtLeast, Next, Init;
    var trace := RunFollows(run);
    AlwaysCaught(run, trace, i, n);
    var a, p := trace[i], run[i].peers[n];
    var r := p.rn.raft;
    assert PeerOK(a, n, p);
    PeerStore(a, n, r, p.st);
    Facts(a, n);
    LeaderLog(a, n, r, p.st);
    QuorumInLog(a, n, r, p.st);
    var L, x := a.vol[n].hard.log, r.log.entries[k].index;
    assert r.log.entries[k] == L[r.log.snapIndex + k];
    BelowQuorum(r.prs, x);
    LaterSameTerm(r.log, L, r.term, x, QuorumMatch(r.prs));
  }

  /** A leader commits no more than it may: whenever its commit index moves, it moves to an entry of its own term
      that a majority has reported to hold. */
  lemma {:induction false} CommitsOnlyMajorities(run: seq<Cluster>, i: nat, n: NodeId) returns (k: nat)
    requires Run(run) && i + 1 < |run| && n in run[i].peers && n in run[i + 1].peers
    requires run[i + 1].peers[n].rn.raft.state == StateLeader
    requires run[i + 1].peers[n].rn.raft.log.committed != run[i].peers[n].rn.raft.log.committed
    ensures var r, before := run[i + 1].peers[n].rn.raft, run[i].peers[n].rn.raft;
            && r.log.committed > before.log.committed
            && k < |r.log.entries| && r.log.entries[k].index == r.log.committed && r.log.entries[k].term == r.term
            && |AtLeast(r.prs, r.log.committed)| >= |r.prs| / 2 + 1
  {
    hide P.Inv, Evolves, RaftOK, MsgOK, DeliveredOK, P.NodeOK, P.InvNodes, P.InvTypes, Init, NextAt, Caught, AtLeast;
    var trace := RunFollows(run);
    AlwaysCaught(run, trace, i, n);
    var m, act :| NextAt(run[i], m, act, run[i + 1]);
    ActsHere(run[i], m, act, run[i + 1]);
    if m != n {
      OtherSame(run[i], m, act, run[i + 1], n);
    }
    ActionCommits(run[i], trace[i], n, act, run[i + 1]);
    var a, p := trace[i + 1], run[i + 1].peers[n];
    var r := p.rn.raft;
    assert PeerOK(a, n, p);
    PeerStore(a, n, r, p.st);
    Facts(a, n);
    LeaderLog(a, n, r, p.st);
    var L := a.vol[n].hard.log;
    MatchTermView(r.log, L, r.log.committed, r.term);
    k := r.log.committed - 1 - r.log.snapIndex;
    assert r.log.entries[k] == L[r.log.committed - 1];
  }
}
