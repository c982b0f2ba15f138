/** Who has led which term: what followers believe, and what messages say, about the leader of a term is true. */
module RaftReigns {
  import opened RaftTypes
  import opened RaftStore
  import opened RaftLogSpec
  import opened RaftNodeSpec
  import opened RawNodeSpec
  import opened RaftCoupling
  import opened RaftSimulation
  import opened RaftCluster
  import opened RaftCycle
  import opened RaftRefinement
  import opened RaftSafety
  import P = RaftProtocol

  /** A node and a term it has led. */
  datatype Reign = Reign(node: NodeId, term: nat)

  /** An append, heartbeat or snapshot comes from a node that led its term; a forwarded transfer request goes to
      one. */
  predicate MsgLed(led: set<Reign>, m: Message) {
    && (m.MsgAppend? || m.MsgHeartbeat? || m.MsgSnapshot? ==> Reign(m.from, m.term) in led)
    && (m.MsgTransferLeader? && m.term != 0 ==> Reign(m.to, m.term) in led)
  }

  predicate MsgsLed(led: set<Reign>, ms: set<Message>) {
    forall m :: m in ms ==> MsgLed(led, m)
  }

  predicate RoleLed(led: set<Reign>, r: Raft) {
    && (r.state == StateLeader ==> Reign(r.id, r.term) in led)
    && (r.state == StateFollower && r.lead != NONE ==> r.lead != r.id && Reign(r.lead, r.term) in led)
  }

  predicate NodeLed(led: set<Reign>, r: Raft) {
    RoleLed(led, r) && MsgsLed(led, r.msgs)
  }

  /** The outcome, if not fatal, has the same role in the same term, and its messages are right. */
  predicate SameRole(led: set<Reign>, r: Raft, o: Outcome<Raft>) {
    o.Done? ==>
      && o.value.id == r.id && o.value.term == r.term && o.value.state == r.state && o.value.lead == r.lead
      && MsgsLed(led, o.value.msgs)
  }

  // ------------------------------------------------------------------ sending

  lemma {:induction false} AppendMessageLed(led: set<Reign>, r: Raft, st: Store, to: NodeId)
    requires Reign(r.id, r.term) in led
    ensures AppendMessage(r, st, to).Done? ==> MsgLed(led, AppendMessage(r, st, to).value)
  {
    hide Term, LogEntries;
  }

  lemma {:induction false} SendAppendLed(led: set<Reign>, r: Raft, st: Store, to: NodeId)
    requires Reign(r.id, r.term) in led && MsgsLed(led, r.msgs)
    ensures SameRole(led, r, SendAppend(r, st, to))
  {
    hide AppendMessage;
    AppendMessageLed(led, r, st, to);
  }

  lemma {:induction false} BcastAppendLed(led: set<Reign>, r: Raft, st: Store)
    requires Reign(r.id, r.term) in led && MsgsLed(led, r.msgs)
    ensures SameRole(led, r, BcastAppend(r, st))
  {
    hide AppendMessage;
    forall id | id in r.prs
      ensures AppendMessage(r, st, id).Done? ==> MsgLed(led, AppendMessage(r, st, id).value)
    {
      AppendMessageLed(led, r, st, id);
    }
  }

  lemma {:induction false} AppendEntryLed(led: set<Reign>, r: Raft, st: Store, es: seq<Entry>)
    requires st.ents != [] && MsgsLed(led, r.msgs)
    ensures SameRole(led, r, AppendEntry(r, st, es))
  {
    hide Append, QuorumMatch;
  }

  // ------------------------------------------------------------------ leaders

  lemma {:induction false} ResponseLed(led: set<Reign>, r: Raft, st: Store, m: Message)
    requires st.ents != [] && m.MsgAppendResponse? && m.from in r.prs && Reign(r.id, r.term) in led && MsgsLed(led, r.msgs)
    ensures SameRole(led, r, LeaderAppendResponse(r, st, m))
  {
    hide SendAppend, BcastAppend, QuorumMatch, MatchTerm, LastIndex;
    var pr := r.prs[m.from];
    if m.reject {
      SendAppendLed(led, r.(prs := r.prs[m.from := MaybeDecrTo(pr, m.index, m.rejectHint).0]), st, m.from);
    } else {
      var r1 := r.(prs := r.prs[m.from := MaybeUpdate(pr, m.index)]);
      if MaybeCommit(r1).Done? {
        BcastAppendLed(led, MaybeCommit(r1).value.0, st);
      }
    }
  }

  lemma {:induction false} ProposeLed(led: set<Reign>, r: Raft, st: Store, ents: seq<Entry>)
    requires st.ents != [] && RoleLed(led, r) && r.state == StateLeader && MsgsLed(led, r.msgs)
    ensures Propose(r, st, ents).Done? ==> NodeLed(led, AfterStep(Propose(r, st, ents), r))
  {
    hide AppendEntry, BcastAppend, FilterConf, LastIndex, MsgsLed;
    if ents != [] {
      var (es, p) := FilterConf(ents, r.pendingConfIndex, r.log.applied, LastIndex(r.log));
      var r0 := r.(pendingConfIndex := p);
      AppendEntryLed(led, r0, st, es);
      if AppendEntry(r0, st, es).Done? {
        BcastAppendLed(led, AppendEntry(r0, st, es).value, st);
      }
    }
  }

  lemma {:induction false} LeaderLed(led: set<Reign>, r: Raft, st: Store, m: Message)
    requires st.ents != [] && NodeLed(led, r) && r.state == StateLeader
    ensures StepLeader(r, st, m).Done? ==> NodeLed(led, AfterStep(StepLeader(r, st, m), r))
  {
    hide Propose, LeaderAppendResponse, SendAppend, LastIndex;
    if m.MsgPropose? {
      ProposeLed(led, r, st, m.ents);
    } else if m.from in r.prs {
      if m.MsgAppendResponse? {
        ResponseLed(led, r, st, m);
      }
      SendAppendLed(led, r, st, m.from);
      SendAppendLed(led, r.(leadTransferee := m.from), st, m.from);
    }
  }

  // ------------------------------------------------------------------ candidates

  /** A new leader: right as soon as its reign is recorded. */
  lemma {:induction false} BecomeLeaderLed(led: set<Reign>, r: Raft, st: Store)
    requires st.ents != [] && MsgsLed(led, r.msgs)
    ensures var o := BecomeLeader(r, st);
            o.Done? ==> o.value.id == r.id && o.value.term == r.term && o.value.state == StateLeader && MsgsLed(led, o.value.msgs)
  {
    hide AppendEntry, MsgsLed;
    AppendEntryLed(led, Reset(r, r.term).(lead := r.id, state := StateLeader, pendingConfIndex := LastIndex(r.log)), st,
                   [Entry(EntryNormal, 0, 0, [])]);
  }

  predicate Recorded(led: set<Reign>, o: Outcome<Raft>) {
    o.Done? && o.value.state == StateLeader ==> Reign(o.value.id, o.value.term) in led
  }

  lemma {:induction false} CampaignLed(led: set<Reign>, r: Raft, st: Store)
    requires st.ents != [] && MsgsLed(led, r.msgs) && Recorded(led, Campaign(r, st))
    ensures Campaign(r, st).Done? ==> NodeLed(led, After(Campaign(r, st), r))
  {
    hide BecomeLeader, LastTerm, LastIndex;
    BecomeLeaderLed(led, Poll(BecomeCandidate(r), r.id, true), st);
  }

  lemma {:induction false} VoteLed(led: set<Reign>, r: Raft, st: Store, m: Message)
    requires st.ents != [] && m.MsgRequestVoteResponse? && NodeLed(led, r) && r.state == StateCandidate
    requires Recorded(led, CandidateVoteResponse(r, st, m))
    ensures CandidateVoteResponse(r, st, m).Done? ==> NodeLed(led, After(CandidateVoteResponse(r, st, m), r))
  {
    hide BecomeLeader, BcastAppend, Grantors, MsgsLed, LastIndex;
    var r1 := Poll(r, m.from, !m.reject);
    BecomeLeaderLed(led, r1, st);
    if QuorumSize(r1) == Granted(r1.votes) && BecomeLeader(r1, st).Done? {
      var r2 := BecomeLeader(r1, st).value;
      BcastRole(r2, st);
      if BcastAppend(r2, st).Done? {
        BcastAppendLed(led, r2, st);
      }
    }
  }

  lemma {:induction false} BcastRole(r: Raft, st: Store)
    ensures BcastAppend(r, st).Done? ==>
              After(BcastAppend(r, st), r).id == r.id && After(BcastAppend(r, st), r).term == r.term && After(BcastAppend(r, st), r).state == r.state
  {
  }

  // ------------------------------------------------------------------ followers

  lemma {:induction false} FollowLed(led: set<Reign>, r: Raft, st: Store, m: Message)
    requires st.ents != [] && (m.MsgAppend? || m.MsgHeartbeat? || m.MsgSnapshot?) && MsgsLed(led, r.msgs)
    ensures SameRole(led, r, FollowLeader(r, st, m))
  {
    hide MaybeAppend, CommitTo, MatchTerm, LastIndex;
  }

  /** What a message or request may be. */
  predicate InputLed(led: set<Reign>, r: Raft, m: Message) {
    && MsgLed(led, m)
    && (m.MsgAppend? || m.MsgHeartbeat? || m.MsgSnapshot? ==> m.from != r.id && m.term >= 1)
  }

  lemma {:induction false} FollowerLed(led: set<Reign>, r: Raft, st: Store, m: Message)
    requires st.ents != [] && NodeLed(led, r) && r.state == StateFollower && InputLed(led, r, m) && (m.term == 0 || m.term == r.term)
    requires StepFollower(r, st, m).Done? && AfterStep(StepFollower(r, st, m), r).state == StateLeader ==>
               Reign(AfterStep(StepFollower(r, st, m), r).id, AfterStep(StepFollower(r, st, m), r).term) in led
    ensures StepFollower(r, st, m).Done? ==> NodeLed(led, AfterStep(StepFollower(r, st, m), r))
  {
    hide FollowLeader, Campaign;
    if m.MsgAppend? || m.MsgHeartbeat? || m.MsgSnapshot? {
      FollowLed(led, r.(lead := m.from), st, m);
    } else if m.MsgTimeoutNow? && r.id in r.prs {
      CampaignLed(led, r, st);
    }
  }

  lemma {:induction false} CandidateLed(led: set<Reign>, r: Raft, st: Store, m: Message)
    requires st.ents != [] && NodeLed(led, r) && r.state == StateCandidate && InputLed(led, r, m)
    requires StepCandidate(r, st, m).Done? && AfterStep(StepCandidate(r, st, m), r).state == StateLeader ==>
               Reign(AfterStep(StepCandidate(r, st, m), r).id, AfterStep(StepCandidate(r, st, m), r).term) in led
    ensures StepCandidate(r, st, m).Done? ==> NodeLed(led, AfterStep(StepCandidate(r, st, m), r))
  {
    hide FollowLeader, CandidateVoteResponse, LastIndex;
    if m.MsgAppend? || m.MsgHeartbeat? || m.MsgSnapshot? {
      FollowLed(led, BecomeFollower(r, m.term, m.from), st, m);
    } else if m.MsgRequestVoteResponse? {
      VoteLed(led, r, st, m);
    }
  }

  lemma {:induction false} SameTermLed(led: set<Reign>, r: Raft, st: Store, m: Message)
    requires st.ents != [] && NodeLed(led, r) && InputLed(led, r, m) && (m.term == 0 || m.term == r.term)
    requires StepSameTerm(r, st, m).Done? && AfterStep(StepSameTerm(r, st, m), r).state == StateLeader ==>
               Reign(AfterStep(StepSameTerm(r, st, m), r).id, AfterStep(StepSameTerm(r, st, m), r).term) in led
    ensures StepSameTerm(r, st, m).Done? ==> NodeLed(led, AfterStep(StepSameTerm(r, st, m), r))
  {
    hide StepLeader, StepCandidate, StepFollower, Campaign, Slice, IsUpToDate, NumOfPendingConf;
    if m.MsgHup? {
      if StepHup(r, st).Done? && StepHup(r, st) == Campaign(r, st) {
        CampaignLed(led, r, st);
      }
    } else if !m.MsgRequestVote? {
      match r.state
      case StateFollower => FollowerLed(led, r, st, m);
      case StateCandidate => CandidateLed(led, r, st, m);
      case StateLeader => LeaderLed(led, r, st, m);
    }
  }

  lemma {:induction false} StepLed(led: set<Reign>, r: Raft, st: Store, m: Message)
    requires st.ents != [] && NodeLed(led, r) && InputLed(led, r, m)
    requires Step(r, st, m).Done? && AfterStep(Step(r, st, m), r).state == StateLeader ==>
               Reign(AfterStep(Step(r, st, m), r).id, AfterStep(Step(r, st, m), r).term) in led
    ensures Step(r, st, m).Done? ==> NodeLed(led, AfterStep(Step(r, st, m), r))
  {
    hide StepSameTerm, LastIndex;
    if m.term != 0 && m.term > r.term {
      var lead := if m.MsgAppend? || m.MsgHeartbeat? || m.MsgSnapshot? then m.from else NONE;
      SameTermLed(led, BecomeFollower(r, m.term, lead), st, m);
    } else if m.term == 0 || m.term == r.term {
      SameTermLed(led, r, st, m);
    }
  }

  // ------------------------------------------------------------------ runs

  /** The reigns of one moment, and of all moments up to it. */
  ghost function Now(c: Cluster): set<Reign> {
    set n | n in c.peers && c.peers[n].rn.raft.state == StateLeader :: Reign(n, c.peers[n].rn.raft.term)
  }

  ghost function Reigns(run: seq<Cluster>, i: nat): set<Reign>
    requires i < |run|
    decreases i
  {
    Now(run[i]) + if i == 0 then {} else Reigns(run, i - 1)
  }

  ghost predicate ClusterLed(led: set<Reign>, c: Cluster) {
    && (forall n :: n in c.peers ==> NodeLed(led, c.peers[n].rn.raft))
    && MsgsLed(led, c.net)
  }

  lemma {:induction false} ReignHappened(run: seq<Cluster>, i: nat, x: Reign) returns (j: nat)
    requires i < |run| && x in Reigns(run, i)
    ensures j <= i && x.node in run[j].peers
    ensures run[j].peers[x.node].rn.raft.state == StateLeader && run[j].peers[x.node].rn.raft.term == x.term
    decreases i
  {
    if x in Now(run[i]) {
      j := i;
    } else {
      j := ReignHappened(run, i - 1, x);
    }
  }

  lemma {:induction false} MoreLed(led: set<Reign>, more: set<Reign>, r: Raft)
    requires NodeLed(led, r) && led <= more
    ensures NodeLed(more, r)
  {
  }

  /** What one action does: the node that acts stays right, and what it sends is right. */
  lemma {:induction false} ActionLed(c: Cluster, a: P.State, n: NodeId, act: Action, c': Cluster, led: set<Reign>)
    requires P.Inv(a) && Couple(c, a) && NextAt(c, n, act, c') && ClusterLed(led, c)
    requires n in c'.peers && (PeerAt(c', n).rn.raft.state == StateLeader ==> Reign(PeerAt(c', n).rn.raft.id, PeerAt(c', n).rn.raft.term) in led)
    ensures NodeLed(led, PeerAt(c', n).rn.raft) && MsgsLed(led, c'.net)
  {
    hide P.Inv, Step, RaftOK, MsgOK, DeliveredOK, NodeLed, Cycle, NewRaft, StoreCompact, StoreCreateSnapshot, MsgLed;
    var p := c.peers[n];
    assert PeerOK(a, n, p);
    PeerStore(a, n, p.rn.raft, p.st);
    match act
    case Receive(m) =>
      assert MsgOK(a, NONE, m);
      NetworkInput(a, n, p.rn.raft, p.st, m, led);
      StepLed(led, p.rn.raft, p.st, m);
    case Request(m) =>
      RequestInput(p.rn.raft, m, led);
      StepLed(led, p.rn.raft, p.st, m);
    case AbortTransfer =>
      AbortLed(led, p.rn.raft);
    case RunCycle =>
      CycleLed(a, n, p.rn, p.st, led);
    case Compact(_) =>
    case TakeSnapshot(_) =>
    case Restart(applied) =>
      RestartLed(n, PeersArgument(c.ids, p.st), applied, p.st, led);
  }

  lemma {:induction false} NetworkInput(a: P.State, n: NodeId, r: Raft, st: Store, m: Message, led: set<Reign>)
    requires RaftOK(a, n, r, st) && MsgOK(a, NONE, m) && m.to == n && MsgLed(led, m)
    ensures InputLed(led, r, m) && m.from in r.prs && !m.MsgHup? && !m.MsgBeat?
  {
  }

  lemma {:induction false} RequestInput(r: Raft, m: Message, led: set<Reign>)
    requires IsRequest(m)
    ensures InputLed(led, r, m)
  {
  }

  lemma {:induction false} AbortLed(led: set<Reign>, r: Raft)
    requires NodeLed(led, r)
    ensures NodeLed(led, r.(leadTransferee := NONE))
  {
  }

  lemma {:induction false} CycleLed(a: P.State, n: NodeId, rn: RawNode, st: Store, led: set<Reign>)
    requires P.Inv(a) && RaftOK(a, n, rn.raft, st) && rn.prevHard == st.hardState && st.ents != [] && NodeLed(led, rn.raft)
    ensures Cycle(rn, st).Done? && NodeLed(led, Cycle(rn, st).value.rn.raft) && MsgsLed(led, Cycle(rn, st).value.rd.messages)
  {
    hide P.Inv, Cycle, P.NodeOK, P.InvNodes, P.InvTypes, Synced, VotesOK, ProgressesOK, OutboxOK;
    Facts(a, n);
    CycleResult(a, n, rn, st);
  }

  lemma {:induction false} RestartLed(n: NodeId, peers: set<NodeId>, applied: nat, st: Store, led: set<Reign>)
    requires st.ents != [] && NewRaft(n, peers, applied, st).Done?
    ensures NodeLed(led, NewRaft(n, peers, applied, st).value)
  {
    hide NewLog;
  }

  /** In every run: a follower's leader has led its term and is another node; appends, heartbeats and snapshots
      come from a node that led their term, and forwarded transfer requests go to one. */
  lemma {:induction false} AlwaysLed(run: seq<Cluster>, trace: seq<P.State>, i: nat)
    requires Run(run) && Follows(run, trace) && i < |run|
    ensures ClusterLed(Reigns(run, i), run[i])
    decreases i
  {
    hide P.Inv, Couple, Evolves, NodeLed, MsgsLed, Init, NextAt;
    if i == 0 {
      StartLed(run[0], Reigns(run, 0));
    } else {
      AlwaysLed(run, trace, i - 1);
      assert Next(run[i - 1], run[i - 1 + 1]);
      var m, act :| NextAt(run[i - 1], m, act, run[i]);
      LaterLed(run[i - 1], trace[i - 1], m, act, run[i], trace[i], Reigns(run, i - 1), Reigns(run, i));
    }
  }

  lemma {:induction false} StartLed(c: Cluster, led: set<Reign>)
    requires Init(c)
    ensures ClusterLed(led, c)
  {
    hide NewRaft, NodeLed;
    forall n | n in c.peers
      ensures NodeLed(led, c.peers[n].rn.raft)
    {
      RestartLed(n, c.ids, 0, NewStore(), led);
    }
  }

  lemma {:induction false} LaterLed(c: Cluster, a: P.State, n: NodeId, act: Action, c': Cluster, a': P.State, led: set<Reign>, more: set<Reign>)
    requires P.Inv(a) && Couple(c, a) && Couple(c', a') && NextAt(c, n, act, c') && ClusterLed(led, c) && led <= more && Now(c') <= more
    ensures ClusterLed(more, c')
  {
    hide P.Inv, NodeLed, RaftOK, MsgOK, DeliveredOK, NextAt;
    assert n in c.peers && c'.peers.Keys == c.peers.Keys by { ActsHere(c, n, act, c'); }
    forall m | m in c.peers
      ensures NodeLed(more, c.peers[m].rn.raft)
    {
      MoreLed(led, more, c.peers[m].rn.raft);
    }
    assert PeerOK(a', n, c'.peers[n]);
    HasId(a', n, c'.peers[n].rn.raft, c'.peers[n].st);
    if c'.peers[n].rn.raft.state == StateLeader {
      assert Reign(n, c'.peers[n].rn.raft.term) in Now(c');
    }
    ActionLed(c, a, n, act, c', more);
    forall m | m in c'.peers
      ensures NodeLed(more, c'.peers[m].rn.raft)
    {
      if m != n {
        OtherSame(c, n, act, c', m);
      }
    }
  }

  lemma {:induction false} HasId(a: P.State, n: NodeId, r: Raft, st: Store)
    requires RaftOK(a, n, r, st)
    ensures r.id == n
  {
  }

  lemma {:induction false} ActsHere(c: Cluster, n: NodeId, act: Action, c': Cluster)
    requires NextAt(c, n, act, c')
    ensures n in c.peers && c'.peers.Keys == c.peers.Keys
  {
    hide Step, Cycle, NewRaft, RawStep, StoreCompact, StoreCreateSnapshot;
  }

  lemma {:induction false} OtherSame(c: Cluster, n: NodeId, act: Action, c': Cluster, m: NodeId)
    requires NextAt(c, n, act, c') && m != n && m in c.peers
    ensures m in c'.peers && PeerAt(c', m) == PeerAt(c, m)
  {
    hide Step, Cycle, NewRaft, RawStep, StoreCompact, StoreCreateSnapshot;
  }

  /** A follower that knows a leader is never sent a transfer request of its own term: the request goes to a
      node that led the term, and there is only one. */
  lemma {:induction false} TransferReachesLeader(run: seq<Cluster>, i: nat, n: NodeId, m: Message)
    requires Run(run) && i < |run| && n in run[i].peers && m in run[i].net && m.to == n && m.MsgTransferLeader? && m.term != 0
    ensures var r := run[i].peers[n].rn.raft;
            r.state == StateFollower && r.term == m.term ==> r.lead == NONE
  {
    hide P.Inv, Couple, Evolves, Next, Init, Reigns;
    var trace := RunFollows(run);
    AlwaysLed(run, trace, i);
    var r := run[i].peers[n].rn.raft;
    IdOf(run[i], trace[i], n);
    if r.state == StateFollower && r.term == m.term && r.lead != NONE {
      assert MsgLed(Reigns(run, i), m);
      var j := ReignHappened(run, i, Reign(n, m.term));
      var k := ReignHappened(run, i, Reign(r.lead, r.term));
      if j <= k {
        ElectionSafety(run, j, k, n, r.lead);
      } else {
        ElectionSafety(run, k, j, r.lead, n);
      }
    }
  }

  lemma {:induction false} IdOf(c: Cluster, a: P.State, n: NodeId)
    requires Couple(c, a) && n in c.peers
    ensures PeerAt(c, n).rn.raft.id == n
  {
    hide RaftOK, MsgOK, DeliveredOK;
    assert PeerOK(a, n, c.peers[n]);
    HasId(a, n, c.peers[n].rn.raft, c.peers[n].st);
  }
}
