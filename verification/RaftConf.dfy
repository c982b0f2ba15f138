/** At most one configuration change is pending: a leader appends one only when every earlier one in its
    log is applied. */
module RaftConf {
  import opened RaftTypes
  import opened RaftStore
  import opened RaftLogSpec
  import opened RaftNodeSpec
  import opened RawNodeSpec
  import opened RaftCoupling
  import opened RaftSimulation
  import opened RaftSimulation4
  import opened RaftCluster
  import opened RaftCycle
  import opened RaftRefinement
  import P = RaftProtocol

  /** Every configuration change beyond the applied index is at or below `p`. */
  predicate Bounded(entries: seq<Entry>, applied: nat, p: nat) {
    forall k :: 0 <= k < |entries| ==>
      entries[k].entryType == EntryConfChange && entries[k].index > applied ==> entries[k].index <= p
  }

  /** A leader's pendingConfIndex bounds every configuration change it has not applied. */
  predicate ConfOK(r: Raft) {
    r.state == StateLeader ==>
      && Bounded(r.log.entries, r.log.applied, r.pendingConfIndex)
      && (r.log.pending.Some? ==> r.log.snapIndex <= r.pendingConfIndex)
  }

  /** Among `entries`, which follow index `last`, each configuration change is added only when all earlier
      ones, up to bound `p` or among the entries, are applied. */
  ghost predicate OneAtATime(entries: seq<Entry>, applied: nat, p: nat, last: nat) {
    forall k :: 0 <= k < |entries| && entries[k].entryType == EntryConfChange ==>
      && p <= applied
      && forall j :: 0 <= j < k && entries[j].entryType == EntryConfChange ==> last + j + 1 <= applied
  }

  /** The filtered proposal has at most one configuration change beyond the applied index, none if one is
      pending already, and the new pendingConfIndex bounds it. */
  lemma {:induction false} FilterConfOne(ents: seq<Entry>, p: nat, applied: nat, last: nat)
    requires applied <= last
    ensures var (es, q) := FilterConf(ents, p, applied, last);
            && |es| == |ents|
            && OneAtATime(es, applied, p, last)
            && (q == p || (p <= applied && q > last))
            && (forall k :: 0 <= k < |es| && es[k].entryType == EntryConfChange ==> last + k + 1 <= q)
            && (q > applied && q == p ==> forall k :: 0 <= k < |es| ==> es[k].entryType != EntryConfChange)
            && forall k :: 0 <= k < |es| && es[k].entryType == EntryConfChange ==> es[k] == ents[k]
    decreases |ents|
  {
    if ents != [] {
      var adds := ents[0].entryType == EntryConfChange && p <= applied;
      var p1 := if adds then last + 1 else p;
      FilterConfOne(ents[1..], p1, applied, last + 1);
      var (rest, q) := FilterConf(ents[1..], p1, applied, last + 1);
      var (es, q') := FilterConf(ents, p, applied, last);
      assert es[1..] == rest && q' == q;
      assert forall k :: 0 < k < |es| ==> es[k] == rest[k - 1] && ents[k] == ents[1..][k - 1];
    }
  }

  /** Index of the first configuration change, or the number of entries. */
  function FirstConf(ents: seq<Entry>): (k: nat)
    ensures k <= |ents|
    ensures k < |ents| ==> ents[k].entryType == EntryConfChange
    ensures forall j :: 0 <= j < k ==> ents[j].entryType != EntryConfChange
  {
    if ents == [] || ents[0].entryType == EntryConfChange then 0 else 1 + FirstConf(ents[1..])
  }

  /** Of a proposal, exactly the first configuration change survives, and only if none is pending; every other
      one becomes an empty normal entry, all other entries stay as they are, and pendingConfIndex becomes the
      index of the survivor. */
  lemma {:induction false} FilterConfExact(ents: seq<Entry>, p: nat, applied: nat, last: nat)
    requires applied <= last
    ensures var (es, q) := FilterConf(ents, p, applied, last);
            && |es| == |ents|
            && q == (if p <= applied && FirstConf(ents) < |ents| then last + 1 + FirstConf(ents) else p)
            && forall k :: 0 <= k < |ents| ==>
                 es[k] == if ents[k].entryType == EntryConfChange && (p > applied || k > FirstConf(ents))
                          then Entry(EntryNormal, 0, 0, []) else ents[k]
    decreases |ents|
  {
    if ents != [] {
      var adds := ents[0].entryType == EntryConfChange && p <= applied;
      var p1 := if adds then last + 1 else p;
      FilterConfExact(ents[1..], p1, applied, last + 1);
      var (rest, q) := FilterConf(ents[1..], p1, applied, last + 1);
      var (es, q') := FilterConf(ents, p, applied, last);
      assert es[1..] == rest && q' == q;
      assert forall k :: 0 < k < |es| ==> es[k] == rest[k - 1] && ents[k] == ents[1..][k - 1];
    }
  }

  // ------------------------------------------------------------------ appending

  lemma {:induction false} AppendedEntries(l: Log, F: seq<Entry>, st: Store, D: seq<Entry>, ents: seq<Entry>)
    requires Synced(l, F, st, D) && ents != []
    requires forall k :: 0 <= k < |ents| ==> ents[k].index == |F| + k + 1
    ensures Append(l, st, ents).Done?
    ensures var l' := Append(l, st, ents).value;
            && l'.applied == l.applied && l'.pending == l.pending
            && (l.pending.Some? ==> l'.snapIndex == l.snapIndex)
            && l.snapIndex <= l'.snapIndex <= Max(l.applied, l.snapIndex)
            && l'.entries == (F + ents)[l'.snapIndex..]
            && l'.snapIndex <= |F|
  {
    LastIndexView(l, F);
    assert F[..|F|] == F;
    AppendSynced(l, F, st, D, |F|, ents);
  }

  lemma {:induction false} BoundedAppend(l: Log, F: seq<Entry>, ents: seq<Entry>, l': Log, p: nat)
    requires LogView(l, F) && Bounded(l.entries, l.applied, p) && l'.applied == l.applied
    requires forall k :: 0 <= k < |ents| && ents[k].entryType == EntryConfChange ==> ents[k].index <= p
    requires l.snapIndex <= l'.snapIndex <= |F| && l'.entries == (F + ents)[l'.snapIndex..]
    ensures Bounded(l'.entries, l.applied, p)
  {
    forall k | 0 <= k < |l'.entries| && l'.entries[k].entryType == EntryConfChange && l'.entries[k].index > l.applied
      ensures l'.entries[k].index <= p
    {
      var x := l'.snapIndex + k;
      if x < |F| {
        assert l.entries[x - l.snapIndex] == F[x];
      } else {
        assert l'.entries[k] == ents[x - |F|];
      }
    }
  }

  /** Appending entries whose configuration changes are bounded by pendingConfIndex keeps the bound. */
  lemma {:induction false} AppendEntryConf(r: Raft, st: Store, F: seq<Entry>, D: seq<Entry>, es: seq<Entry>)
    requires Synced(r.log, F, st, D) && es != [] && st.ents != []
    requires Bounded(r.log.entries, r.log.applied, r.pendingConfIndex)
    requires r.log.pending.Some? ==> r.log.snapIndex <= r.pendingConfIndex
    requires forall k :: 0 <= k < |es| && es[k].entryType == EntryConfChange ==> LastIndex(r.log) + k + 1 <= r.pendingConfIndex
    ensures AppendEntry(r, st, es).Done? ==> ConfOK(After(AppendEntry(r, st, es), r))
  {
    hide Append, Synced, LogView, Bounded, LastIndex, MatchTerm;
    SyncedFacts(r.log, F, st, D);
    LastIndexView(r.log, F);
    var ents := Stamp(es, r.term, |F|);
    AppendedEntries(r.log, F, st, D, ents);
    BoundedAppend(r.log, F, ents, Append(r.log, st, ents).value, r.pendingConfIndex);
  }

  // ------------------------------------------------------------------ steps

  predicate Keeps(o: Outcome<Raft>) { o.Done? ==> ConfOK(o.value) }

  lemma {:induction false} ViewBounded(l: Log, F: seq<Entry>)
    requires LogView(l, F)
    ensures Bounded(l.entries, l.applied, LastIndex(l)) && l.snapIndex <= LastIndex(l)
  {
    LastIndexView(l, F);
  }

  lemma {:induction false} BecomeLeaderConf(r: Raft, st: Store, F: seq<Entry>, D: seq<Entry>)
    requires Synced(r.log, F, st, D) && st.ents != []
    ensures Keeps(BecomeLeader(r, st))
  {
    hide AppendEntry, Bounded, Synced, LastIndex;
    SyncedFacts(r.log, F, st, D);
    ViewBounded(r.log, F);
    AppendEntryConf(Crowned(r), st, F, D, [Entry(EntryNormal, 0, 0, [])]);
  }

  lemma {:induction false} CampaignConf(r: Raft, st: Store, F: seq<Entry>, D: seq<Entry>)
    requires Synced(r.log, F, st, D) && st.ents != []
    ensures Keeps(Campaign(r, st))
  {
    hide BecomeLeader, LastTerm, Synced;
    var r1 := BecomeCandidate(r);
    BecomeLeaderConf(Poll(r1, r1.id, true), st, F, D);
  }

  lemma {:induction false} BcastConf(r: Raft, st: Store)
    requires ConfOK(r)
    ensures Keeps(BcastAppend(r, st))
  {
    hide AppendMessage;
  }

  lemma {:induction false} SendConf(r: Raft, st: Store, to: NodeId)
    requires ConfOK(r)
    ensures Keeps(SendAppend(r, st, to))
  {
    hide AppendMessage;
  }

  lemma {:induction false} ProposeConf(r: Raft, st: Store, F: seq<Entry>, D: seq<Entry>, ents: seq<Entry>)
    requires Synced(r.log, F, st, D) && st.ents != [] && ConfOK(r) && r.state == StateLeader
    ensures Propose(r, st, ents).Done? ==> ConfOK(AfterStep(Propose(r, st, ents), r))
  {
    hide AppendEntry, BcastAppend, FilterConf, Synced, LogView, Bounded, LastIndex, OneAtATime;
    if ents != [] {
      SyncedFacts(r.log, F, st, D);
      LastIndexView(r.log, F);
      var last := LastIndex(r.log);
      FilterConfOne(ents, r.pendingConfIndex, r.log.applied, last);
      var (es, p) := FilterConf(ents, r.pendingConfIndex, r.log.applied, last);
      var r0 := r.(pendingConfIndex := p);
      BoundedMore(r.log.entries, r.log.applied, r.pendingConfIndex, p);
      AppendEntryConf(r0, st, F, D, es);
      if AppendEntry(r0, st, es).Done? {
        BcastConf(AppendEntry(r0, st, es).value, st);
      }
    }
  }

  lemma {:induction false} BoundedMore(entries: seq<Entry>, applied: nat, p: nat, q: nat)
    requires Bounded(entries, applied, p) && (q == p || (p <= applied && q > applied))
    ensures Bounded(entries, applied, q)
  {
  }

  lemma {:induction false} LeaderAppendResponseConf(r: Raft, st: Store, m: Message)
    requires st.ents != [] && m.MsgAppendResponse? && m.from in r.prs && ConfOK(r)
    ensures Keeps(LeaderAppendResponse(r, st, m))
  {
    hide BcastAppend, SendAppend, LastIndex, QuorumMatch, Bounded, MatchTerm;
    var pr := r.prs[m.from];
    if m.reject {
      SendConf(r.(prs := r.prs[m.from := MaybeDecrTo(pr, m.index, m.rejectHint).0]), st, m.from);
    } else {
      var r1 := r.(prs := r.prs[m.from := MaybeUpdate(pr, m.index)]);
      if MaybeCommit(r1).Done? {
        BcastConf(MaybeCommit(r1).value.0, st);
      }
    }
  }

  lemma {:induction false} LeaderConf(r: Raft, st: Store, F: seq<Entry>, D: seq<Entry>, m: Message)
    requires Synced(r.log, F, st, D) && st.ents != [] && ConfOK(r) && r.state == StateLeader
    ensures StepLeader(r, st, m).Done? ==> ConfOK(AfterStep(StepLeader(r, st, m), r))
  {
    hide Propose, LeaderAppendResponse, SendAppend, LastIndex, Synced, Bounded;
    if m.MsgPropose? {
      ProposeConf(r, st, F, D, m.ents);
    } else if m.from in r.prs {
      if m.MsgAppendResponse? {
        LeaderAppendResponseConf(r, st, m);
      }
      SendConf(r, st, m.from);
      SendConf(r.(leadTransferee := m.from), st, m.from);
    }
  }

  lemma {:induction false} VoteResponseConf(r: Raft, st: Store, F: seq<Entry>, D: seq<Entry>, m: Message)
    requires Synced(r.log, F, st, D) && st.ents != [] && m.MsgRequestVoteResponse? && r.state == StateCandidate
    ensures Keeps(CandidateVoteResponse(r, st, m))
  {
    hide BecomeLeader, BcastAppend, Synced, Bounded;
    var r1 := Poll(r, m.from, !m.reject);
    BecomeLeaderConf(r1, st, F, D);
    if BecomeLeader(r1, st).Done? {
      BcastConf(BecomeLeader(r1, st).value, st);
    }
  }

  lemma {:induction false} FollowLeaderState(r: Raft, st: Store, m: Message)
    requires st.ents != [] && (m.MsgAppend? || m.MsgHeartbeat? || m.MsgSnapshot?) && r.state == StateFollower
    ensures Keeps(FollowLeader(r, st, m))
  {
    hide MaybeAppend, CommitTo, MatchTerm, Bounded;
  }

  lemma {:induction false} SameTermConf(r: Raft, st: Store, F: seq<Entry>, D: seq<Entry>, m: Message)
    requires Synced(r.log, F, st, D) && st.ents != [] && ConfOK(r)
    ensures StepSameTerm(r, st, m).Done? ==> ConfOK(AfterStep(StepSameTerm(r, st, m), r))
  {
    hide StepLeader, Campaign, CandidateVoteResponse, FollowLeader, Slice, NumOfPendingConf, IsUpToDate, Synced, Bounded;
    CampaignConf(r, st, F, D);
    if r.state == StateLeader {
      LeaderConf(r, st, F, D, m);
    }
    if r.state == StateCandidate && m.MsgRequestVoteResponse? {
      VoteResponseConf(r, st, F, D, m);
    }
    if m.MsgAppend? || m.MsgHeartbeat? || m.MsgSnapshot? {
      if r.state == StateFollower {
        FollowLeaderState(r.(lead := m.from), st, m);
      }
      FollowLeaderState(BecomeFollower(r, m.term, m.from), st, m);
    }
  }

  /** Every step keeps the leader's bound on configuration changes. */
  lemma {:induction false} StepConf(r: Raft, st: Store, F: seq<Entry>, D: seq<Entry>, m: Message)
    requires Synced(r.log, F, st, D) && st.ents != [] && ConfOK(r)
    ensures Step(r, st, m).Done? ==> ConfOK(AfterStep(Step(r, st, m), r))
  {
    hide StepSameTerm, Synced, Bounded;
    var lead := if m.MsgAppend? || m.MsgHeartbeat? || m.MsgSnapshot? then m.from else NONE;
    SameTermConf(r, st, F, D, m);
    SameTermConf(BecomeFollower(r, m.term, lead), st, F, D, m);
  }

  // ------------------------------------------------------------------ runs

  lemma {:induction false} SettledConf(r: Raft, F: seq<Entry>)
    requires ConfOK(r) && r.log.applied <= r.log.committed
    ensures ConfOK(r.(msgs := {}, log := Settled(r.log, F)))
  {
  }

  lemma {:induction false} PeerSynced(a: P.State, n: NodeId, r: Raft, st: Store)
    requires RaftOK(a, n, r, st)
    ensures n in a.vol && n in a.dur && st.ents != [] && Synced(r.log, P.VolAt(a, n).hard.log, st, P.DurAt(a, n).log)
    ensures r.log.applied <= r.log.committed
  {
  }

  lemma {:induction false} InputKeepsConf(c: Cluster, a: P.State, n: NodeId, m: Message, c': Cluster)
    requires Couple(c, a) && (NextAt(c, n, Receive(m), c') || NextAt(c, n, Request(m), c')) && ConfOK(PeerAt(c, n).rn.raft)
    ensures n in c'.peers && ConfOK(PeerAt(c', n).rn.raft)
  {
    hide Step, RaftOK, MsgOK, DeliveredOK, ConfOK, Synced;
    var p := c.peers[n];
    assert PeerOK(a, n, p);
    PeerSynced(a, n, p.rn.raft, p.st);
    StepConf(p.rn.raft, p.st, a.vol[n].hard.log, a.dur[n].log, m);
  }

  lemma {:induction false} AbortConf(r: Raft)
    requires ConfOK(r)
    ensures ConfOK(r.(leadTransferee := NONE))
  {
  }

  lemma {:induction false} StepKeepsConf(c: Cluster, a: P.State, n: NodeId, act: Action, c': Cluster)
    requires P.Inv(a) && Couple(c, a) && NextAt(c, n, act, c') && ConfOK(PeerAt(c, n).rn.raft)
    ensures n in c'.peers && ConfOK(PeerAt(c', n).rn.raft)
  {
    hide P.Inv, Step, RawStep, RaftOK, MsgOK, DeliveredOK, ConfOK, Cycle, NewRaft, StoreCompact, StoreCreateSnapshot, Covers;
    if act.Receive? || act.Request? {
      InputKeepsConf(c, a, n, act.m, c');
    } else if act.AbortTransfer? {
      AbortConf(c.peers[n].rn.raft);
    } else if act.RunCycle? {
      assert PeerOK(a, n, c.peers[n]);
      CycleKeepsConf(a, n, c.peers[n].rn, c.peers[n].st);
    } else if act.Restart? {
      RestartConf(n, PeersArgument(c.ids, c.peers[n].st), act.applied, c.peers[n].st);
    }
  }

  lemma {:induction false} CycleKeepsConf(a: P.State, n: NodeId, rn: RawNode, st: Store)
    requires P.Inv(a) && RaftOK(a, n, rn.raft, st) && rn.prevHard == st.hardState && st.ents != [] && ConfOK(rn.raft)
    ensures Cycle(rn, st).Done? && ConfOK(Cycle(rn, st).value.rn.raft)
  {
    hide P.Inv, RaftOK, Cycle, ConfOK, P.NodeOK, P.InvNodes, P.InvTypes, Synced, FieldsOK;
    FieldsOf(a, n, rn.raft, st);
    Facts(a, n);
    PeerSynced(a, n, rn.raft, st);
    CycleResult(a, n, rn, st);
    SettledConf(rn.raft, a.vol[n].hard.log);
  }

  lemma {:induction false} RestartConf(n: NodeId, peers: set<NodeId>, applied: nat, st: Store)
    requires st.ents != [] && NewRaft(n, peers, applied, st).Done?
    ensures ConfOK(NewRaft(n, peers, applied, st).value)
  {
    hide NewLog, Bounded;
  }

  lemma {:induction false} ConfAlways(run: seq<Cluster>, i: nat, n: NodeId)
    requires Run(run) && i < |run| && n in run[i].peers
    ensures ConfOK(run[i].peers[n].rn.raft)
    decreases i
  {
    hide P.Inv, Couple, Evolves, ConfOK, Init, NextAt;
    if i == 0 {
      StartConf(run[0], n);
    } else {
      var trace := RunFollows(run);
      assert Next(run[i - 1], run[i]);
      var m, act :| NextAt(run[i - 1], m, act, run[i]);
      SameNodes(run, trace, i);
      ConfAlways(run, i - 1, n);
      if m == n {
        StepKeepsConf(run[i - 1], trace[i - 1], n, act, run[i]);
      } else {
        OtherPeer(run[i - 1], m, act, run[i], n);
      }
    }
  }

  lemma {:induction false} StartConf(c: Cluster, n: NodeId)
    requires Init(c) && n in c.peers
    ensures ConfOK(PeerAt(c, n).rn.raft)
  {
    hide NewRaft, ConfOK;
    RestartConf(n, c.ids, 0, NewStore());
  }

  lemma {:induction false} SameNodes(run: seq<Cluster>, trace: seq<P.State>, i: nat)
    requires Follows(run, trace) && 0 < i < |run|
    ensures run[i].peers.Keys == run[i - 1].peers.Keys
  {
    hide P.Inv;
    assert Couple(run[i], trace[i]) && Couple(run[i - 1], trace[i - 1]) && Evolves(trace[i - 1], trace[i]);
  }

  lemma {:induction false} OtherPeer(c: Cluster, m: NodeId, act: Action, c': Cluster, n: NodeId)
    requires NextAt(c, m, act, c') && n != m && n in c.peers
    ensures n in c'.peers && PeerAt(c', n) == PeerAt(c, n)
  {
    hide Step, Cycle, NewRaft, RawStep, StoreCompact, StoreCreateSnapshot;
  }

  /** All entries of the new log from `from` on add configuration changes one at a time: whatever
      configuration change comes earlier in the log is applied. */
  ghost predicate AddedOneAtATime(l: Log, from: nat, applied: nat) {
    forall j, k :: 0 <= j < k < |l.entries| && l.entries[k].index > from
                   && l.entries[j].entryType == EntryConfChange && l.entries[k].entryType == EntryConfChange ==>
      l.entries[j].index <= applied
  }

  lemma {:induction false} AppendAddsOne(r: Raft, st: Store, F: seq<Entry>, D: seq<Entry>, es: seq<Entry>)
    requires Synced(r.log, F, st, D) && es != [] && st.ents != []
    requires Bounded(r.log.entries, r.log.applied, r.pendingConfIndex)
    requires OneAtATime(es, r.log.applied, r.pendingConfIndex, |F|)
    ensures var l' := Append(r.log, st, Stamp(es, r.term, |F|)).value; AddedOneAtATime(l', |F|, r.log.applied)
  {
    hide Append, Synced;
    SyncedFacts(r.log, F, st, D);
    var ents := Stamp(es, r.term, |F|);
    AppendedEntries(r.log, F, st, D, ents);
    var l' := Append(r.log, st, ents).value;
    var G := F + ents;
    forall j, k | 0 <= j < k < |l'.entries| && l'.entries[k].index > |F|
                  && l'.entries[j].entryType == EntryConfChange && l'.entries[k].entryType == EntryConfChange
      ensures l'.entries[j].index <= r.log.applied
    {
      var x, y := l'.snapIndex + j, l'.snapIndex + k;
      assert l'.entries[j] == G[x] && l'.entries[k] == G[y];
      assert y >= |F| && es[y - |F|].entryType == EntryConfChange;
      if x < |F| {
        assert r.log.entries[x - r.log.snapIndex] == F[x];
      }
    }
  }

  lemma {:induction false} ProposeAddsOne(r: Raft, st: Store, F: seq<Entry>, D: seq<Entry>, ents: seq<Entry>)
    requires Synced(r.log, F, st, D) && st.ents != [] && ConfOK(r) && r.state == StateLeader
    requires Propose(r, st, ents).Done?
    ensures AddedOneAtATime(AfterStep(Propose(r, st, ents), r).log, LastIndex(r.log), r.log.applied)
  {
    hide Append, BcastAppend, FilterConf, Synced, LogView, Bounded, OneAtATime, LastIndex, MatchTerm, AddedOneAtATime, QuorumMatch;
    SyncedFacts(r.log, F, st, D);
    LastIndexView(r.log, F);
    if r.id !in r.prs || r.leadTransferee != NONE {
      NothingAdded(r.log, F);
    } else {
      FilterConfOne(ents, r.pendingConfIndex, r.log.applied, |F|);
      var (es, p) := FilterConf(ents, r.pendingConfIndex, r.log.applied, |F|);
      AppendAddsOne(r, st, F, D, es);
      var r1 := AppendEntry(r.(pendingConfIndex := p), st, es).value;
      BcastSame(r1, st);
      SameAdded(Append(r.log, st, Stamp(es, r.term, |F|)).value, r1.log, |F|, r.log.applied);
    }
  }

  lemma {:induction false} NothingAdded(l: Log, F: seq<Entry>)
    requires LogView(l, F)
    ensures AddedOneAtATime(l, |F|, l.applied)
  {
  }

  lemma {:induction false} SameAdded(l: Log, l': Log, from: nat, applied: nat)
    requires AddedOneAtATime(l, from, applied) && l'.entries == l.entries
    ensures AddedOneAtATime(l', from, applied)
  {
  }

  /** One pending configuration change: whenever a leader appends a proposal, with any number of entries,
      every configuration change that precedes a newly appended one in its log is at or below its applied
      index; this holds from the moment of election on. */
  lemma {:induction false} OnePendingConfChange(run: seq<Cluster>, i: nat, n: NodeId, m: Message)
    requires Run(run) && i + 1 < |run| && NextAt(run[i], n, Request(m), run[i + 1])
    requires m.MsgPropose? && run[i].peers[n].rn.raft.state == StateLeader
    ensures n in run[i + 1].peers
    ensures AddedOneAtATime(run[i + 1].peers[n].rn.raft.log, LastIndex(run[i].peers[n].rn.raft.log), run[i].peers[n].rn.raft.log.applied)
  {
    hide P.Inv, Evolves, RaftOK, MsgOK, DeliveredOK, ConfOK, Propose, Synced, AddedOneAtATime, LastIndex;
    ConfAlways(run, i, n);
    var trace := RunFollows(run);
    var p := run[i].peers[n];
    assert PeerOK(trace[i], n, p);
    PeerSynced(trace[i], n, p.rn.raft, p.st);
    ProposeAddsOne(p.rn.raft, p.st, trace[i].vol[n].hard.log, trace[i].dur[n].log, m.ents);
  }
}
