/** A step of a node never moves its applied index: only Advance does. */
module RaftStepFacts {
  import opened RaftTypes
  import opened RaftStore
  import opened RaftLogSpec
  import opened RaftNodeSpec

  /** The outcome, if not fatal, has the same applied index. */
  predicate SameApplied(r: Raft, o: Outcome<Raft>) {
    o.Done? ==> o.value.log.applied == r.log.applied
  }

  predicate SameAppliedStep(r: Raft, o: Outcome<Stepped>) {
    o.Done? ==> o.value.raft.log.applied == r.log.applied
  }

  lemma {:induction false} AppendApplied(l: Log, st: Store, ents: seq<Entry>)
    requires st.ents != [] && Append(l, st, ents).Done?
    ensures Append(l, st, ents).value.applied == l.applied
  {
  }

  lemma {:induction false} MaybeAppendApplied(l: Log, st: Store, index: nat, logTerm: nat, committed: nat, ents: seq<Entry>)
    requires st.ents != [] && MaybeAppend(l, st, index, logTerm, committed, ents).Done?
    ensures MaybeAppend(l, st, index, logTerm, committed, ents).value.0.applied == l.applied
  {
    hide Append, FindConflict;
    if MatchTerm(l, index, logTerm) {
      var ci := FindConflict(l, ents);
      if ci != 0 {
        AppendApplied(l, st, ents[ci - (index + 1)..]);
      }
    }
  }

  lemma {:induction false} AppendEntryApplied(r: Raft, st: Store, es: seq<Entry>)
    requires st.ents != []
    ensures SameApplied(r, AppendEntry(r, st, es))
  {
    hide Append;
    var ents := Stamp(es, r.term, LastIndex(r.log));
    if Append(r.log, st, ents).Done? {
      AppendApplied(r.log, st, ents);
    }
  }

  lemma {:induction false} BecomeLeaderApplied(r: Raft, st: Store)
    requires st.ents != []
    ensures SameApplied(r, BecomeLeader(r, st))
  {
    hide AppendEntry;
    AppendEntryApplied(Reset(r, r.term).(lead := r.id, state := StateLeader, pendingConfIndex := LastIndex(r.log)), st,
                       [Entry(EntryNormal, 0, 0, [])]);
  }

  lemma {:induction false} CampaignApplied(r: Raft, st: Store)
    requires st.ents != []
    ensures SameApplied(r, Campaign(r, st))
  {
    hide BecomeLeader, LastTerm;
    var r1 := BecomeCandidate(r);
    BecomeLeaderApplied(Poll(r1, r1.id, true), st);
  }

  lemma {:induction false} BcastAppendApplied(r: Raft, st: Store)
    ensures SameApplied(r, BcastAppend(r, st))
  {
    hide AppendMessage;
  }

  lemma {:induction false} SendAppendApplied(r: Raft, st: Store, to: NodeId)
    ensures SameApplied(r, SendAppend(r, st, to))
  {
    hide AppendMessage;
  }

  lemma {:induction false} ProposeApplied(r: Raft, st: Store, ents: seq<Entry>)
    requires st.ents != []
    ensures SameAppliedStep(r, Propose(r, st, ents))
  {
    hide AppendEntry, BcastAppend, FilterConf;
    if ents != [] {
      var (es, p) := FilterConf(ents, r.pendingConfIndex, r.log.applied, LastIndex(r.log));
      var r0 := r.(pendingConfIndex := p);
      AppendEntryApplied(r0, st, es);
      if AppendEntry(r0, st, es).Done? {
        BcastAppendApplied(AppendEntry(r0, st, es).value, st);
      }
    }
  }

  lemma {:induction false} LeaderAppendResponseApplied(r: Raft, st: Store, m: Message)
    requires st.ents != [] && m.MsgAppendResponse? && m.from in r.prs
    ensures SameApplied(r, LeaderAppendResponse(r, st, m))
  {
    hide BcastAppend, SendAppend, LastIndex, QuorumMatch;
    var pr := r.prs[m.from];
    if m.reject {
      SendAppendApplied(r.(prs := r.prs[m.from := MaybeDecrTo(pr, m.index, m.rejectHint).0]), st, m.from);
    } else {
      var r1 := r.(prs := r.prs[m.from := MaybeUpdate(pr, m.index)]);
      if MaybeCommit(r1).Done? {
        BcastAppendApplied(MaybeCommit(r1).value.0, st);
      }
    }
  }

  lemma {:induction false} StepLeaderApplied(r: Raft, st: Store, m: Message)
    requires st.ents != []
    ensures SameAppliedStep(r, StepLeader(r, st, m))
  {
    hide Propose, LeaderAppendResponse, SendAppend, LastIndex;
    if m.MsgPropose? {
      ProposeApplied(r, st, m.ents);
    } else if m.from in r.prs {
      if m.MsgAppendResponse? {
        LeaderAppendResponseApplied(r, st, m);
      }
      SendAppendApplied(r, st, m.from);
      SendAppendApplied(r.(leadTransferee := m.from), st, m.from);
    }
  }

  lemma {:induction false} CandidateVoteResponseApplied(r: Raft, st: Store, m: Message)
    requires st.ents != [] && m.MsgRequestVoteResponse?
    ensures SameApplied(r, CandidateVoteResponse(r, st, m))
  {
    hide BecomeLeader, BcastAppend;
    var r1 := Poll(r, m.from, !m.reject);
    BecomeLeaderApplied(r1, st);
    if BecomeLeader(r1, st).Done? {
      BcastAppendApplied(BecomeLeader(r1, st).value, st);
    }
  }

  lemma {:induction false} FollowLeaderApplied(r: Raft, st: Store, m: Message)
    requires st.ents != [] && (m.MsgAppend? || m.MsgHeartbeat? || m.MsgSnapshot?)
    ensures SameApplied(r, FollowLeader(r, st, m))
  {
    hide MaybeAppend;
    if m.MsgAppend? && MaybeAppend(r.log, st, m.index, m.logTerm, m.commit, m.ents).Done? {
      MaybeAppendApplied(r.log, st, m.index, m.logTerm, m.commit, m.ents);
    }
  }

  lemma {:induction false} SameTermApplied(r: Raft, st: Store, m: Message)
    requires st.ents != []
    ensures SameAppliedStep(r, StepSameTerm(r, st, m))
  {
    hide StepLeader, Campaign, CandidateVoteResponse, FollowLeader, Slice, NumOfPendingConf, IsUpToDate;
    CampaignApplied(r, st);
    StepLeaderApplied(r, st, m);
    if m.MsgRequestVoteResponse? {
      CandidateVoteResponseApplied(r, st, m);
    }
    if m.MsgAppend? || m.MsgHeartbeat? || m.MsgSnapshot? {
      FollowLeaderApplied(r.(lead := m.from), st, m);
      FollowLeaderApplied(BecomeFollower(r, m.term, m.from), st, m);
    }
  }

  lemma {:induction false} StepApplied(r: Raft, st: Store, m: Message)
    requires st.ents != []
    ensures SameAppliedStep(r, Step(r, st, m))
  {
    hide StepSameTerm;
    SameTermApplied(r, st, m);
    SameTermApplied(BecomeFollower(r, m.term, if m.MsgAppend? || m.MsgHeartbeat? || m.MsgSnapshot? then m.from else NONE), st, m);
  }
}
