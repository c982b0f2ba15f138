/** What one node answers to one message, said on complete logs: the steps of an election and of a replication. */
module RaftAnswers {
  import opened RaftTypes
  import opened RaftStore
  import opened RaftLogSpec
  import opened RaftNodeSpec
  import opened RaftLogContract
  import S2 = RaftSimulation2

  // ------------------------------------------------------------------ broadcasts

  /** Everybody else is sent what they lack. */
  ghost predicate ToldAll(r: Raft, st: Store) {
    forall to :: to in r.prs && to != r.id ==> AppendMessage(r, st, to).Done? && AppendMessage(r, st, to).value in r.msgs
  }

  lemma {:induction false} MessageKept(r: Raft, ms: set<Message>, transferee: NodeId, st: Store, to: NodeId)
    ensures AppendMessage(r.(msgs := ms, leadTransferee := transferee), st, to) == AppendMessage(r, st, to)
  {
  }

  lemma {:induction false} BcastTells(r: Raft, st: Store, more: set<Message>)
    requires BcastAppend(r, st).Done?
    ensures var r' := After(BcastAppend(r, st), r); r' == r.(msgs := r'.msgs) && ToldAll(r'.(msgs := r'.msgs + more), st)
  {
    hide AppendMessage;
    var r' := BcastAppend(r, st).value;
    var r2 := r'.(msgs := r'.msgs + more);
    forall to | to in r2.prs && to != r2.id
      ensures AppendMessage(r2, st, to).Done? && AppendMessage(r2, st, to).value in r2.msgs
    {
      MessageKept(r, r2.msgs, r.leadTransferee, st, to);
      assert r2 == r.(msgs := r2.msgs, leadTransferee := r.leadTransferee);
    }
  }

  // ------------------------------------------------------------------ elections

  /** The node runs in the next term, has voted for itself and asks everybody else. */
  predicate Runs(r: Raft, r': Raft, F: seq<Entry>) {
    && r'.id == r.id && r'.state == StateCandidate && r'.term == r.term + 1 && r'.vote == r.id && r'.log == r.log
    && r'.votes == Ballots({r.id}) && r'.prs.Keys == r.prs.Keys && r'.lead == NONE && r'.leadTransferee == NONE
    && forall to :: to in r.prs && to != r.id ==> MsgRequestVote(r.id, to, r.term + 1, |F|, TermAt(F, |F|)) in r'.msgs
  }

  lemma {:induction false} CampaignStarts(r: Raft, st: Store, F: seq<Entry>)
    requires st.ents != [] && LogView(r.log, F) && |r.prs| > 1
    ensures Campaign(r, st).Done? && Runs(r, After(Campaign(r, st), r), F)
  {
    hide LogView, LastIndex, LastTerm, BecomeLeader;
    LastIndexView(r.log, F);
    var r2 := Poll(BecomeCandidate(r), r.id, true);
    assert r2.votes == map[r.id := true] == Ballots({r.id});
    assert Grantors(r2.votes) == {r.id};
    assert r2.prs.Keys == r.prs.Keys;
    assert |r2.prs| == |r2.prs.Keys| && |r.prs| == |r.prs.Keys|;
    Others(r2.prs.Keys, r.id);
  }

  /** An election timeout starts an election in the next term, unless the node leads, or has committed and not applied a
      configuration change. */
  lemma {:induction false} HupCampaigns(r: Raft, st: Store, F: seq<Entry>)
    requires st.ents != [] && LogView(r.log, F) && r.log.pending.None? && |r.prs| > 1
    ensures var o := Step(r, st, MsgHup(NONE, NONE, 0));
            && o.Done?
            && var l := r.log;
               if r.state == StateLeader || (exists k :: l.applied <= k < l.committed && F[k].entryType == EntryConfChange) then AfterStep(o, r) == r
               else Runs(r, AfterStep(o, r), F)
  {
    hide LogView, Slice, NumOfPendingConf, Campaign, Runs;
    HupReads(r.log, F);
    var ents := F[r.log.applied..r.log.committed];
    PendingConf(ents);
    assert forall k :: r.log.applied <= k < r.log.committed ==> F[k] == ents[k - r.log.applied];
    assert forall k :: 0 <= k < |ents| ==> ents[k] == F[k + r.log.applied];
    CampaignStarts(r, st, F);
  }

  lemma {:induction false} PendingConf(ents: seq<Entry>)
    ensures NumOfPendingConf(ents) != 0 <==> exists k :: 0 <= k < |ents| && ents[k].entryType == EntryConfChange
    decreases |ents|
  {
    if ents != [] {
      PendingConf(ents[1..]);
      assert forall k :: 0 < k < |ents| ==> ents[k] == ents[1..][k - 1];
    }
  }

  /** So does a leader's request to a follower to take over. */
  lemma {:induction false} TimeoutCampaigns(r: Raft, st: Store, F: seq<Entry>, m: Message)
    requires st.ents != [] && LogView(r.log, F) && r.state == StateFollower && r.id in r.prs && |r.prs| > 1
    requires m.MsgTimeoutNow? && m.term == r.term
    ensures Step(r, st, m).Done? && Runs(r, AfterStep(Step(r, st, m), r), F)
  {
    hide LogView, Campaign, Runs;
    CampaignStarts(r, st, F);
  }

  lemma {:induction false} HupReads(l: Log, F: seq<Entry>)
    requires LogView(l, F) && l.pending.None?
    ensures l.applied <= l.committed <= |F| && Slice(l, l.applied + 1, l.committed + 1) == Done(Ok(F[l.applied..l.committed]))
  {
    hide TermAt;
    LastIndexView(l, F);
    if l.entries != [] {
      assert l.entries[l.applied - l.snapIndex..l.committed - l.snapIndex] == F[l.applied..l.committed];
    } else {
      assert F[l.applied..l.committed] == [];
    }
  }

  lemma {:induction false} Others(ids: set<NodeId>, n: NodeId)
    requires |ids| > 1
    ensures exists m :: m in ids && m != n
  {
    if forall m :: m in ids ==> m == n {
      SubsetSize(ids, {n});
    }
  }

  /** A node that is in a later term than a vote request does not answer it. Otherwise it answers, and grants its vote
      exactly if the candidate's log is not behind its own and it has already voted for that candidate in that term, or
      has neither voted in it nor heard of a leader. */
  lemma {:induction false} VoteAnswered(r: Raft, st: Store, F: seq<Entry>, m: Message)
    requires st.ents != [] && LogView(r.log, F) && m.MsgRequestVote? && m.term > 0
    ensures var o := Step(r, st, m);
            var free := m.term > r.term || (r.vote == NONE && r.lead == NONE);
            var granted := UpToDate(m.index, m.logTerm, F) && (free || r.vote == m.from);
            && o.Done?
            && var r' := AfterStep(o, r);
               if m.term < r.term then r' == r
               else
                 && r'.id == r.id && r'.term == m.term && r'.log == r.log && r'.prs.Keys == r.prs.Keys
                 && r'.msgs == r.msgs + {MsgRequestVoteResponse(r.id, m.from, m.term, !granted)}
                 && r'.vote == (if granted then m.from else if m.term > r.term then NONE else r.vote)
                 && r'.state == (if m.term > r.term then StateFollower else r.state)
  {
    hide LogView, IsUpToDate, LastIndex;
    UpToDateView(r.log, F, m.index, m.logTerm);
    assert BecomeFollower(r, m.term, NONE).prs.Keys == r.prs.Keys;
  }

  /** All these nodes have granted their vote. */
  function Ballots(voters: set<NodeId>): map<NodeId, bool> {
    map v | v in voters :: true
  }

  /** A new vote counts, and the vote that completes a majority makes the candidate the leader. */
  lemma {:induction false} VoteCounted(r: Raft, st: Store, m: Message, voters: set<NodeId>)
    requires st.ents != [] && r.state == StateCandidate && m.MsgRequestVoteResponse? && !m.reject && m.term == r.term
    requires m.from !in voters && r.votes == Ballots(voters)
    requires Step(r, st, m).Done?
    ensures var r' := AfterStep(Step(r, st, m), r);
            if |voters| + 1 == |r.prs| / 2 + 1 then r'.state == StateLeader && r'.term == r.term && ToldAll(r', st)
            else if |voters| + 1 < |r.prs| / 2 + 1 then r' == r.(votes := Ballots(voters + {m.from}))
            else true
  {
    hide BecomeLeader, BcastAppend, Poll, Granted, Ballots, BecomeFollower, ToldAll;
    Polled(r, m.from, voters);
    var r1 := Poll(r, m.from, true);
    if QuorumSize(r1) == Granted(r1.votes) {
      Crowned(r1, st);
    }
  }

  /** Those who answered `v`. */
  function Answered(votes: map<NodeId, bool>, v: bool): set<NodeId> {
    set id | id in votes && votes[id] == v
  }

  lemma {:induction false} Tally(votes: map<NodeId, bool>)
    ensures Granted(votes) == |Answered(votes, true)| && |votes| == |Answered(votes, true)| + |Answered(votes, false)|
  {
    assert Grantors(votes) == Answered(votes, true);
    assert votes.Keys == Answered(votes, true) + Answered(votes, false);
    assert |votes| == |votes.Keys|;
  }

  /** The first answer of each voter counts. A candidate wins with the grant that makes a majority, gives up with the
      refusal that makes one, and otherwise goes on. */
  lemma {:induction false} VotesDecide(r: Raft, st: Store, m: Message)
    requires st.ents != [] && r.state == StateCandidate && m.MsgRequestVoteResponse? && m.term == r.term && Step(r, st, m).Done?
    ensures var r' := AfterStep(Step(r, st, m), r);
            var votes := if m.from in r.votes then r.votes else r.votes[m.from := !m.reject];
            && r'.term == r.term
            && if |Answered(votes, true)| == |r.prs| / 2 + 1 then
                 r'.state == StateLeader && r'.lead == r.id && r'.leadTransferee == NONE && ToldAll(r', st)
               else if |Answered(votes, false)| == |r.prs| / 2 + 1 then r'.state == StateFollower && r'.lead == NONE && r'.vote == r.vote
               else r' == r.(votes := votes)
  {
    hide BecomeLeader, BcastAppend, ToldAll, LastIndex, Granted, Answered;
    var r1 := Poll(r, m.from, !m.reject);
    Tally(r1.votes);
    if QuorumSize(r1) == Granted(r1.votes) {
      Crowned(r1, st);
    }
  }

  lemma {:induction false} Polled(r: Raft, from: NodeId, voters: set<NodeId>)
    requires from !in voters && r.votes == Ballots(voters)
    ensures var r1 := Poll(r, from, true);
            && r1 == r.(votes := Ballots(voters + {from}))
            && Granted(r1.votes) == |voters| + 1 == |r1.votes|
  {
    var votes := Poll(r, from, true).votes;
    assert votes == Ballots(voters + {from});
    assert Grantors(votes) == voters + {from};
    assert |votes| == |votes.Keys| && votes.Keys == voters + {from};
  }

  lemma {:induction false} Crowned(r: Raft, st: Store)
    requires st.ents != [] && BecomeLeader(r, st).Done? && BcastAppend(After(BecomeLeader(r, st), r), st).Done?
    ensures var r' := After(BcastAppend(After(BecomeLeader(r, st), r), st), After(BecomeLeader(r, st), r));
            r'.state == StateLeader && r'.term == r.term && r'.lead == r.id && r'.leadTransferee == NONE && ToldAll(r', st)
  {
    hide Append, LastIndex, BcastAppend, QuorumMatch, ToldAll;
    var r1 := BecomeLeader(r, st).value;
    BcastTells(r1, st, {});
    var r' := BcastAppend(r1, st).value;
    assert r'.(msgs := r'.msgs + {}) == r';
  }

  // ------------------------------------------------------------------ what a leader sends

  /** A leader tells everybody how far it has committed what they hold. */
  lemma {:induction false} BeatSends(r: Raft, st: Store)
    requires st.ents != [] && r.state == StateLeader
    ensures var o := Step(r, st, MsgBeat(NONE, NONE, 0));
            && o.Done?
            && var r' := AfterStep(o, r);
               && r' == r.(msgs := r'.msgs)
               && forall to :: to in r.prs && to != r.id ==> MsgHeartbeat(r.id, to, r.term, Min(PrAt(r, to).Match, r.log.committed)) in r'.msgs
  {
  }

  /** What a leader sends a peer: all of its log from Next on, or a snapshot if it no longer has that. */
  lemma {:induction false} AppendMessageIs(r: Raft, st: Store, F: seq<Entry>, to: NodeId)
    requires LogView(r.log, F) && r.log.entries != [] && to in r.prs && 1 <= PrAt(r, to).Next <= |F| + 1
    ensures var x := PrAt(r, to).Next;
            x > r.log.snapIndex ==>
              AppendMessage(r, st, to) == Done(MsgAppend(r.id, to, r.term, x - 1, TermAt(F, x - 1), F[x - 1..], r.log.committed))
    ensures PrAt(r, to).Next <= r.log.snapIndex && LogSnapshot(r.log, st).index > 0 ==>
              AppendMessage(r, st, to) == Done(MsgSnapshot(r.id, to, r.term, LogSnapshot(r.log, st)))
  {
    hide LogView, LogEntries, Term;
    S2.LogEntriesView(r.log, F, r.prs[to].Next);
  }

  /** A leader that hears from a peer that lacks entries sends it what follows from Next on. */
  lemma {:induction false} HeartbeatAnswered(r: Raft, st: Store, m: Message)
    requires st.ents != [] && r.state == StateLeader && m.MsgHeartbeatResponse? && m.term == r.term && m.from in r.prs
    requires PrAt(r, m.from).Match < LastIndex(r.log) && Step(r, st, m).Done?
    ensures AppendMessage(r, st, m.from).Done?
    ensures var r' := AfterStep(Step(r, st, m), r); r' == r.(msgs := r'.msgs) && AppendMessage(r, st, m.from).value in r'.msgs
  {
    hide AppendMessage, LastIndex;
  }

  /** What a leader learns from an answer: from an acceptance that the peer holds that much, from a rejection of an
      entry it did not know to be there where to try next. */
  predicate Learns(pr: Progress, pr': Progress, m: Message)
    requires m.MsgAppendResponse?
  {
    if !m.reject then pr'.Match == Max(pr.Match, m.index) && pr'.Next == Max(pr.Next, m.index + 1)
    else if m.index > pr.Match then pr'.Match == pr.Match && pr'.Next == Max(1, Min(m.index, m.rejectHint + 1))
    else pr' == pr
  }

  /** What a leader does about it: it tries again after a rejection, tells everybody when its commit index has moved, and
      hands over to the node it has been asked to once that is up to date. */
  ghost predicate Responds(r: Raft, r': Raft, st: Store, m: Message)
    requires m.MsgAppendResponse? && m.from in r.prs
  {
    && m.from in r'.prs
    && r' == r.(msgs := r'.msgs, prs := r.prs[m.from := r'.prs[m.from]], log := r.log.(committed := r'.log.committed))
    && Learns(r.prs[m.from], r'.prs[m.from], m)
    && (m.reject && m.index > r.prs[m.from].Match ==> AppendMessage(r', st, m.from).Done? && AppendMessage(r', st, m.from).value in r'.msgs)
    && (r'.log.committed != r.log.committed ==> ToldAll(r', st))
    && (!m.reject && m.index > r.prs[m.from].Match && m.from == r.leadTransferee && r'.prs[m.from].Match == LastIndex(r.log) ==>
          MsgTimeoutNow(r.id, m.from, r.term) in r'.msgs)
  }

  lemma {:induction false} RejectionAnswered(r: Raft, st: Store, m: Message)
    requires st.ents != [] && m.MsgAppendResponse? && m.from in r.prs && m.reject && LeaderAppendResponse(r, st, m).Done?
    ensures Responds(r, After(LeaderAppendResponse(r, st, m), r), st, m)
  {
    hide AppendMessage, LastIndex;
    var r' := LeaderAppendResponse(r, st, m).value;
    var r1 := r.(prs := r.prs[m.from := MaybeDecrTo(r.prs[m.from], m.index, m.rejectHint).0]);
    MessageKept(r1, r'.msgs, r.leadTransferee, st, m.from);
    assert r' == r1.(msgs := r'.msgs, leadTransferee := r.leadTransferee);
  }

  lemma {:induction false} AcceptanceAnswered(r: Raft, st: Store, m: Message)
    requires st.ents != [] && m.MsgAppendResponse? && m.from in r.prs && !m.reject && LeaderAppendResponse(r, st, m).Done?
    ensures Responds(r, After(LeaderAppendResponse(r, st, m), r), st, m)
  {
    hide AppendMessage, QuorumMatch, ToldAll, BcastAppend, MaybeCommit;
    var pr := r.prs[m.from];
    if pr.Match < m.index {
      var r1 := r.(prs := r.prs[m.from := MaybeUpdate(pr, m.index)]);
      CommitKeeps(r1);
      var (r2, changed) := MaybeCommit(r1).value;
      LastSame(r.log, r2.log);
      if changed {
        BcastTells(r2, st, {});
        BcastTells(r2, st, {MsgTimeoutNow(r.id, m.from, r.term)});
        var r3 := BcastAppend(r2, st).value;
        assert r3.(msgs := r3.msgs + {}) == r3;
      } else {
        CommitChanged(r1);
      }
    }
  }

  lemma {:induction false} LastSame(l: Log, l': Log)
    requires l' == l.(committed := l'.committed)
    ensures LastIndex(l') == LastIndex(l)
  {
  }

  lemma {:induction false} CommitChanged(r: Raft)
    requires MaybeCommit(r).Done? && !MaybeCommit(r).value.1
    ensures MaybeCommit(r).value.0 == r
  {
    hide QuorumMatch, MatchTerm;
  }

  lemma {:induction false} AppendAnswered(r: Raft, st: Store, m: Message)
    requires st.ents != [] && r.state == StateLeader && m.MsgAppendResponse? && m.term == r.term && m.term > 0 && m.from in r.prs
    requires Step(r, st, m).Done?
    ensures Responds(r, AfterStep(Step(r, st, m), r), st, m)
  {
    hide LeaderAppendResponse, Responds;
    if m.reject {
      RejectionAnswered(r, st, m);
    } else {
      AcceptanceAnswered(r, st, m);
    }
  }

  /** Asked to hand over, a leader that is doing just that goes on; asked to hand over to itself it stays; another node is
      told at once if it is up to date, and sent what it lacks if it is not. */
  lemma {:induction false} TransferStarted(r: Raft, st: Store, m: Message)
    requires st.ents != [] && r.state == StateLeader && m.MsgTransferLeader? && m.term == 0 && m.from in r.prs && m.from != NONE
    requires Step(r, st, m).Done?
    ensures var r' := AfterStep(Step(r, st, m), r);
            if r.leadTransferee == m.from then r' == r
            else if m.from == r.id then r' == r.(leadTransferee := NONE)
            else
              && r' == r.(msgs := r'.msgs, leadTransferee := m.from)
              && if PrAt(r, m.from).Match == LastIndex(r.log) then MsgTimeoutNow(r.id, m.from, r.term) in r'.msgs
                 else AppendMessage(r, st, m.from).Done? && AppendMessage(r, st, m.from).value in r'.msgs
  {
    hide AppendMessage, LastIndex;
    MessageKept(r, r.msgs, m.from, st, m.from);
    assert r.(msgs := r.msgs, leadTransferee := m.from) == r.(leadTransferee := m.from);
  }

  /** A follower forwards a request to hand over to the leader it knows. */
  lemma {:induction false} TransferForwarded(r: Raft, st: Store, m: Message)
    requires st.ents != [] && r.state == StateFollower && m.MsgTransferLeader? && m.term == 0
    ensures Step(r, st, m) == Done(Stepped(if r.lead == NONE then r else r.(msgs := r.msgs + {MsgTransferLeader(r.id, r.lead, r.term)}), false))
  {
  }

  // ------------------------------------------------------------------ what a follower does

  /** Message `m` comes from a leader that the node is to follow. */
  predicate FromLeader(r: Raft, m: Message) {
    && (m.MsgAppend? || m.MsgHeartbeat? || m.MsgSnapshot?)
    && m.term > 0 && (m.term > r.term || (m.term == r.term && r.state != StateLeader))
  }

  /** The node follows the sender of `m`. */
  predicate Obeys(r: Raft, r': Raft, m: Message) {
    r'.id == r.id && r'.state == StateFollower && r'.term == m.term && r'.lead == m.from
  }

  /** Whatever it has been before, the node handles the message as a follower of its sender. */
  lemma {:induction false} Followed(r: Raft, st: Store, m: Message) returns (r0: Raft)
    requires st.ents != [] && FromLeader(r, m)
    ensures Obeys(r, r0, m) && r0.log == r.log && r0.msgs == r.msgs && r0.prs.Keys == r.prs.Keys
    ensures FollowLeader(r0, st, m).Done? == Step(r, st, m).Done?
    ensures Step(r, st, m).Done? ==> AfterStep(Step(r, st, m), r) == After(FollowLeader(r0, st, m), r0)
  {
    hide FollowLeader, LastIndex;
    if m.term > r.term {
      r0 := BecomeFollower(r, m.term, m.from).(lead := m.from);
    } else if r.state == StateCandidate {
      r0 := BecomeFollower(r, m.term, m.from);
    } else {
      r0 := r.(lead := m.from);
    }
    assert r0.prs.Keys == r.prs.Keys;
  }

  /** A node that hears from a leader of its term or a later one follows it, and commits what it is told to. */
  lemma {:induction false} HeartbeatFollowed(r: Raft, st: Store, m: Message)
    requires st.ents != [] && FromLeader(r, m) && m.MsgHeartbeat? && Step(r, st, m).Done?
    ensures var r' := AfterStep(Step(r, st, m), r);
            && Obeys(r, r', m) && r'.prs.Keys == r.prs.Keys
            && r'.log == r.log.(committed := Max(r.log.committed, m.commit))
            && r'.msgs == r.msgs + {MsgHeartbeatResponse(r.id, m.from, m.term)}
  {
    hide Step, LastIndex;
    var r0 := Followed(r, st, m);
  }

  /** A follower answers an append with its commit index if it is behind that, with the index the entries reach if
      it has the entry before them, and otherwise with a rejection that says how long its log is. */
  lemma {:induction false} AppendFollowed(r: Raft, st: Store, G: seq<Entry>, D: seq<Entry>, m: Message)
    requires Synced(r.log, G, st, D) && FromLeader(r, m) && m.MsgAppend?
    requires forall k :: 0 <= k < |m.ents| ==> m.ents[k].index == m.index + k + 1
    ensures st.ents != [] && Step(r, st, m).Done?
    ensures var r' := AfterStep(Step(r, st, m), r);
            && Obeys(r, r', m) && r'.prs.Keys == r.prs.Keys && r'.log.pending == r.log.pending
            && if m.index < r.log.committed then
                 r'.log == r.log && r'.msgs == r.msgs + {MsgAppendResponse(r.id, m.from, m.term, r.log.committed, false, 0)}
               else if m.index <= |G| && TermAt(G, m.index) == m.logTerm then
                 && Synced(r'.log, Joined(G, m.index, m.ents), st, D)
                 && r'.log.committed == Max(r.log.committed, Min(m.commit, m.index + |m.ents|)) && r'.log.applied == r.log.applied
                 && r'.msgs == r.msgs + {MsgAppendResponse(r.id, m.from, m.term, m.index + |m.ents|, false, 0)}
               else
                 r'.log == r.log && r'.msgs == r.msgs + {MsgAppendResponse(r.id, m.from, m.term, m.index, true, |G|)}
  {
    hide MaybeAppend, Synced, LogView, LastIndex, Joined, Step;
    SyncedLog(r.log, G, st, D);
    LastIndexView(r.log, G);
    var r0 := Followed(r, st, m);
    if m.index >= r.log.committed {
      MaybeAppendMerges(r.log, G, st, D, m.index, m.logTerm, m.commit, m.ents);
      PendingKept(r.log, st, m.index, m.logTerm, m.commit, m.ents);
    }
  }

  lemma {:induction false} PendingKept(l: Log, st: Store, index: nat, logTerm: nat, commit: nat, ents: seq<Entry>)
    requires st.ents != [] && MaybeAppend(l, st, index, logTerm, commit, ents).Done?
    ensures MaybeAppend(l, st, index, logTerm, commit, ents).value.0.pending == l.pending
  {
    hide FindConflict, MatchTerm, LastIndex;
  }

  /** A follower answers a snapshot with its commit index, which is that of the snapshot if that is later. A snapshot of
      what it has committed changes nothing else; one of what it holds commits that; any other replaces its log. */
  lemma {:induction false} SnapshotFollowed(r: Raft, st: Store, G: seq<Entry>, m: Message)
    requires st.ents != [] && LogView(r.log, G) && FromLeader(r, m) && m.MsgSnapshot? && Step(r, st, m).Done?
    ensures var r', s := AfterStep(Step(r, st, m), r), m.snapshot;
            && Obeys(r, r', m) && r'.log.applied == r.log.applied
            && r'.msgs == r.msgs + {MsgAppendResponse(r.id, m.from, m.term, Max(r.log.committed, s.index), false, 0)}
            && if s.index <= r.log.committed || (s.index <= |G| && TermAt(G, s.index) == s.term) then
                 r'.log == r.log.(committed := Max(r.log.committed, s.index)) && r'.prs.Keys == r.prs.Keys
               else
                 && r'.log.entries == [] && r'.log.snapIndex == r'.log.committed == r'.log.stabled == s.index && r'.log.snapTerm == s.term
                 && r'.log.pending == Some(s) && LastIndex(r'.log) == s.index && r'.prs.Keys == s.nodes
  {
    hide MatchTerm, Step, LogView;
    var r0 := Followed(r, st, m);
    MatchTermView(r.log, G, m.snapshot.index, m.snapshot.term);
    ViewBounds(r.log, G);
  }

  // ------------------------------------------------------------------ proposals

  /** What becomes of proposed entries: each gets the leader's term and the next index, and except for configuration
      changes that are not let through keeps its type and data. */
  predicate Stamped(ents: seq<Entry>, es: seq<Entry>, term: nat, last: nat) {
    && |es| == |ents|
    && forall k :: 0 <= k < |ents| ==>
         && es[k].term == term && es[k].index == last + 1 + k
         && (ents[k].entryType == EntryNormal ==> es[k].entryType == EntryNormal && es[k].data == ents[k].data)
         && (es[k].entryType == EntryConfChange ==> ents[k].entryType == EntryConfChange && es[k].data == ents[k].data)
  }

  /** A leader that is not handing over appends what is proposed behind its log, and tells everybody. */
  lemma {:induction false} ProposalAppended(r: Raft, st: Store, F: seq<Entry>, D: seq<Entry>, ents: seq<Entry>) returns (es: seq<Entry>)
    requires Synced(r.log, F, st, D) && r.state == StateLeader && r.leadTransferee == NONE && r.id in r.prs
    requires st.ents != [] && PrAt(r, r.id).Match <= |F| && ents != []
    requires Step(r, st, MsgPropose(NONE, NONE, 0, ents)).Done?
    ensures Stamped(ents, es, r.term, |F|)
    ensures var s := Step(r, st, MsgPropose(NONE, NONE, 0, ents)).value;
            var r' := s.raft;
            && !s.dropped && r'.id == r.id && r'.state == StateLeader && r'.term == r.term && r'.prs.Keys == r.prs.Keys
            && LogEndsWith(r'.log, F + es) && PrAt(r', r.id).Match == |F| + |es|
            && r'.log.pending == r.log.pending && ToldAll(r', st)
  {
    hide BcastAppend, Synced, LogView, AppendEntry, ToldAll, Stamped, LogEndsWith, LastIndex;
    SyncedLog(r.log, F, st, D);
    LastIndexView(r.log, F);
    var (kept, p) := FilterConf(ents, r.pendingConfIndex, r.log.applied, |F|);
    es := Stamp(kept, r.term, |F|);
    FilteredStamped(ents, r.pendingConfIndex, r.log.applied, |F|, r.term);
    StampedShape(ents, es, r.term, |F|);
    EntriesAppended(r.(pendingConfIndex := p), st, F, D, kept);
    BcastTells(AppendEntry(r.(pendingConfIndex := p), st, kept).value, st, {});
    var r3 := BcastAppend(AppendEntry(r.(pendingConfIndex := p), st, kept).value, st).value;
    assert r3.(msgs := r3.msgs + {}) == r3;
  }

  lemma {:induction false} EntriesAppended(r: Raft, st: Store, F: seq<Entry>, D: seq<Entry>, kept: seq<Entry>)
    requires Synced(r.log, F, st, D) && r.id in r.prs && PrAt(r, r.id).Match <= |F| && st.ents != [] && kept != []
    requires AppendEntry(r, st, kept).Done?
    ensures var r', es := After(AppendEntry(r, st, kept), r), Stamp(kept, r.term, |F|);
            && r'.id == r.id && r'.state == r.state && r'.term == r.term && r'.prs.Keys == r.prs.Keys
            && LogEndsWith(r'.log, F + es) && PrAt(r', r.id).Match == |F| + |es| && r'.log.pending == r.log.pending
  {
    hide Append, Synced, LogView, MaybeCommit, LogEndsWith, LastIndex;
    SyncedLog(r.log, F, st, D);
    LastIndexView(r.log, F);
    ViewBounds(r.log, F);
    var es := Stamp(kept, r.term, |F|);
    AppendSynced(r.log, F, st, D, |F|, es);
    var log := Append(r.log, st, es).value;
    assert F[..|F|] + es == F + es;
    SyncedLog(log, F + es, st, D);
    LastIndexView(log, F + es);
    ViewEnds(log, F + es);
    var r1 := r.(log := log, prs := r.prs[r.id := MaybeUpdate(r.prs[r.id], LastIndex(log))]);
    CommitKeeps(r1);
    EndsSame(log, MaybeCommit(r1).value.0.log, F + es);
  }

  /** What the log retains is the end of `F`. */
  predicate LogEndsWith(l: Log, F: seq<Entry>) {
    l.entries != [] && |l.entries| <= |F| && l.entries == F[|F| - |l.entries|..] && LastIndex(l) == |F|
  }

  lemma {:induction false} ViewEnds(l: Log, F: seq<Entry>)
    requires LogView(l, F) && l.entries != []
    ensures LogEndsWith(l, F)
  {
  }

  lemma {:induction false} EndsSame(l: Log, l': Log, F: seq<Entry>)
    requires LogEndsWith(l, F) && l' == l.(committed := l'.committed)
    ensures LogEndsWith(l', F)
  {
  }

  lemma {:induction false} FilteredStamped(ents: seq<Entry>, p: nat, applied: nat, last: nat, term: nat)
    ensures Stamped(ents, Stamp(FilterConf(ents, p, applied, last).0, term, last), term, last)
    decreases |ents|
  {
    if ents != [] {
      var p1 := if ents[0].entryType == EntryConfChange && p <= applied then last + 1 else p;
      FilteredStamped(ents[1..], p1, applied, last + 1, term);
      var kept, rest := FilterConf(ents, p, applied, last).0, FilterConf(ents[1..], p1, applied, last + 1).0;
      assert kept[1..] == rest;
      var es, more := Stamp(kept, term, last), Stamp(rest, term, last + 1);
      assert forall k :: 0 < k < |ents| ==> es[k] == more[k - 1] && ents[k] == ents[1..][k - 1];
    }
  }

  lemma {:induction false} StampedShape(ents: seq<Entry>, es: seq<Entry>, term: nat, last: nat)
    requires Stamped(ents, es, term, last) && ents != []
    ensures es != [] && forall k :: 0 <= k < |es| ==> es[k].index == last + k + 1
  {
  }

  /** Everybody else, and a leader that is handing over, drops proposals. */
  lemma {:induction false} ProposalDropped(r: Raft, st: Store, ents: seq<Entry>)
    requires st.ents != [] && ents != [] && r.id in r.prs && (r.state != StateLeader || r.leadTransferee != NONE)
    ensures Step(r, st, MsgPropose(NONE, NONE, 0, ents)) == Done(Stepped(r, true))
  {
  }

  lemma {:induction false} CommitKeeps(r: Raft)
    ensures MaybeCommit(r).Done? ==>
              var r' := MaybeCommit(r).value.0; r' == r.(log := r.log.(committed := r'.log.committed))
  {
    hide QuorumMatch, MatchTerm, LastIndex;
  }
}
