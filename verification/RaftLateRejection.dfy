/** A run in which a leader's Match for a peer reaches Next: a rejection arrives a second time, after the peer has
    taken a snapshot. */
module RaftLateRejection {
  import opened RaftTypes
  import opened RaftStore
  import opened RaftLogSpec
  import opened RaftNodeSpec
  import opened RaftCluster
  import opened RaftScripts
  import opened RaftCounterexamples

  function Last(): Entry { Entry(EntryNormal, 3, 3, []) }

  function FirstSnapshot(): Snapshot { Snapshot(1, 1, Three()) }

  /** A store compacted up to entry 1, with a snapshot of it. */
  predicate Cut(st: Store) {
    st.ents != [] && st.ents[0].index == 1 && st.ents[0].term == 1 && st.snapshot == FirstSnapshot()
  }

  // ------------------------------------------------------------------ node 1 steps down and is elected again

  /** What node 1 had decided in its first term. */
  predicate Old(r: Raft) {
    r.id == 1 && r.prs.Keys == Three() && r.log == Log(Two(), 1, 0, 0, 2, 2, 2, None)
  }

  predicate SteppedDown(r: Raft) {
    Old(r) && r.term == 2 && r.state == StateFollower
  }

  predicate Seeking(r: Raft) {
    && Old(r) && r.term == 3 && r.vote == 1 && r.state == StateCandidate && r.votes == map[1 := true]
    && r.lead == NONE && r.leadTransferee == NONE
  }

  lemma {:induction false} StepsDown(st: Store)
    requires st.ents != []
    ensures var o := Step(Settle(Deciding({})), st, MsgRequestVote(3, 1, 2, 0, 0));
            Went(o) && SteppedDown(AfterStep(o, Settle(Deciding({}))))
  {
    ThreeNodes();
    var r1 := BecomeFollower(Settle(Deciding({})), 2, NONE);
    assert r1.prs.Keys == Three();
    assert IsUpToDate(r1.log, 0, 0) == Done(false);
  }

  lemma {:induction false} Seeks(r: Raft, st: Store)
    requires SteppedDown(r) && st.ents != []
    ensures var o := Step(r, st, MsgHup(0, 0, 0));
            Went(o) && Seeking(AfterStep(o, r)) && MsgRequestVote(1, 3, 3, 2, 1) in AfterStep(o, r).msgs
  {
    hide BecomeLeader;
    ThreeNodes();
    assert r.log.entries[2..2] == [];
    assert Slice(r.log, 3, 3) == Done(Ok([]));
    var r1 := Poll(BecomeCandidate(r), 1, true);
    assert r1.prs.Keys == Three() && |r1.prs| == |r1.prs.Keys|;
    assert Grantors(r1.votes) == {1};
    assert LastIndex(r1.log) == 2 && LastTerm(r1.log) == Done(1);
    assert 3 in r1.prs;
  }

  /** Leader 1 of term 3, which has dropped the compacted entry, with this progress of node 3. */
  predicate Leads(r: Raft, pr: Progress) {
    && r.id == 1 && r.term == 3 && r.state == StateLeader && r.leadTransferee == NONE
    && r.prs == map[1 := Progress(3, 4), 2 := Progress(0, 3), 3 := pr]
    && r.log.entries == [Two()[1], Last()] && r.log.offset == 2 && r.log.snapIndex == 1 && r.log.snapTerm == 1
    && r.log.committed == 2 && r.log.pending.None?
  }

  lemma {:induction false} OneHasThree(pr: Progress)
    requires pr.Match <= 2
    ensures QuorumMatch(map[1 := Progress(3, 4), 2 := Progress(0, 3), 3 := pr]) == pr.Match
  {
    hide QuorumMatch, AtLeast;
    var prs := map[1 := Progress(3, 4), 2 := Progress(0, 3), 3 := pr];
    WhoHas(pr, pr.Match);
    WhoHas(pr, pr.Match + 1);
    ThreeAndTwo();
    QuorumIs(prs, pr.Match, if pr.Match == 0 then {1, 2, 3} else {1, 3}, {1});
  }

  lemma {:induction false} WhoHas(pr: Progress, x: nat)
    requires x <= 3
    ensures var prs := map[1 := Progress(3, 4), 2 := Progress(0, 3), 3 := pr];
            && prs.Keys == {1, 2, 3}
            && AtLeast(prs, x) == (if x == 0 then {1, 2, 3} else if x <= pr.Match then {1, 3} else {1})
  {
  }

  lemma {:induction false} ThreeAndTwo()
    ensures var three: set<NodeId>, two: set<NodeId>, one: set<NodeId> := {1, 2, 3}, {1, 3}, {1}; |three| == 3 && |two| == 2 && |one| == 1
  {
  }

  /** What winning makes of the log and the progress. */
  lemma {:induction false} Begins(r: Raft, st: Store)
    requires Seeking(r) && Cut(st)
    ensures BecomeLeader(r, st).Done? && Leads(After(BecomeLeader(r, st), r), Progress(0, 3)) && After(BecomeLeader(r, st), r).msgs == r.msgs
  {
    hide QuorumMatch;
    ThreeNodes();
    var r1 := Reset(r, 3).(lead := 1, state := StateLeader, pendingConfIndex := 2);
    var e := Entry(EntryNormal, 0, 0, []);
    assert Stamp([e], 3, 2) == [Last()];
    assert (Two() + [Last()])[1..] == [Two()[1], Last()];
    var log := Log([Two()[1], Last()], 2, 1, 1, 2, 2, 2, None);
    assert Append(r1.log, st, [Last()]) == Done(log);
    var prs := map[1 := Progress(3, 4), 2 := Progress(0, 3), 3 := Progress(0, 3)];
    assert r1.prs == map[1 := Progress(2, 3), 2 := Progress(0, 3), 3 := Progress(0, 3)];
    assert r1.prs[1 := MaybeUpdate(r1.prs[1], 3)] == prs;
    OneHasThree(Progress(0, 3));
    assert |prs| == |prs.Keys|;
  }

  lemma {:induction false} FirstAppend(r: Raft, st: Store)
    requires Leads(r, Progress(0, 3))
    ensures var o := BcastAppend(r, st);
            o.Done? && Leads(o.value, Progress(0, 3)) && MsgAppend(1, 3, 3, 2, 1, [Last()], 2) in o.value.msgs
  {
    assert r.log.entries[1..] == [Last()];
    assert AppendMessage(r, st, 2) == Done(MsgAppend(1, 2, 3, 2, 1, [Last()], 2));
    assert AppendMessage(r, st, 3) == Done(MsgAppend(1, 3, 3, 2, 1, [Last()], 2));
  }

  lemma {:induction false} Wins(r: Raft, st: Store)
    requires Seeking(r) && Cut(st)
    ensures var o := Step(r, st, MsgRequestVoteResponse(3, 1, 3, false));
            Went(o) && Leads(AfterStep(o, r), Progress(0, 3)) && MsgAppend(1, 3, 3, 2, 1, [Last()], 2) in AfterStep(o, r).msgs
  {
    hide BecomeLeader, BcastAppend, Leads, QuorumMatch;
    ThreeNodes();
    var r1 := Poll(r, 3, true);
    assert Grantors(r1.votes) == {1, 3} && |r1.prs| == |r1.prs.Keys|;
    BeginsVoted(r, st);
    FirstAppend(BecomeLeader(r1, st).value, st);
  }

  /** The votes a leader was elected with do not matter afterwards. */
  lemma {:induction false} BeginsVoted(r: Raft, st: Store)
    requires Seeking(r) && Cut(st)
    ensures var r1 := Poll(r, 3, true); BecomeLeader(r1, st).Done? && Leads(After(BecomeLeader(r1, st), r1), Progress(0, 3))
  {
    hide AppendEntry;
    Begins(r, st);
    var r1 := Poll(r, 3, true);
    assert Reset(r1, r1.term) == Reset(r, r.term);
  }

  // ------------------------------------------------------------------ node 3

  /** Node 3 follows in term 3 with an empty log. */
  predicate Blank(r: Raft) {
    r.id == 3 && r.term == 3 && r.state == StateFollower && r.log == EMPTY_LOG && r.prs.Keys == Three()
  }

  lemma {:induction false} Grants(r: Raft, st: Store)
    requires r.id == 3 && r.term < 3 && r.log == EMPTY_LOG && r.prs.Keys == Three() && st.ents != []
    ensures var o := Step(r, st, MsgRequestVote(1, 3, 3, 2, 1));
            Went(o) && Blank(AfterStep(o, r)) && MsgRequestVoteResponse(3, 1, 3, false) in AfterStep(o, r).msgs
  {
    var r1 := BecomeFollower(r, 3, NONE);
    assert r1.prs.Keys == Three();
    assert IsUpToDate(r1.log, 2, 1) == Done(true);
  }

  lemma {:induction false} Rejects(r: Raft, st: Store)
    requires Blank(r) && st.ents != []
    ensures var o := Step(r, st, MsgAppend(1, 3, 3, 2, 1, [Last()], 2));
            Went(o) && Blank(AfterStep(o, r)) && MsgAppendResponse(3, 1, 3, 2, true, 0) in AfterStep(o, r).msgs
  {
    assert !MatchTerm(r.log, 2, 1);
  }

  lemma {:induction false} Takes(r: Raft, st: Store)
    requires Blank(r) && st.ents != []
    ensures var o := Step(r, st, MsgSnapshot(1, 3, 3, FirstSnapshot()));
            Went(o) && MsgAppendResponse(3, 1, 3, 1, false, 0) in AfterStep(o, r).msgs
  {
    assert !MatchTerm(r.log, 1, 1);
  }

  // ------------------------------------------------------------------ the leader hears from node 3

  /** The rejection, as long as it is not stale: Next falls to 1, and the snapshot is sent. */
  lemma {:induction false} Lowers(r: Raft, st: Store, pr: Progress)
    requires Leads(r, pr) && pr.Match < 2 && Cut(st)
    ensures var o := Step(r, st, MsgAppendResponse(3, 1, 3, 2, true, 0));
            Went(o) && Leads(AfterStep(o, r), Progress(pr.Match, 1)) && MsgSnapshot(1, 3, 3, FirstSnapshot()) in AfterStep(o, r).msgs
  {
    assert MaybeDecrTo(pr, 2, 0) == (Progress(pr.Match, 1), true);
    var r1 := r.(prs := r.prs[3 := Progress(pr.Match, 1)]);
    assert AppendMessage(r1, st, 3) == Done(MsgSnapshot(1, 3, 3, FirstSnapshot()));
  }

  /** The answer to the snapshot. */
  lemma {:induction false} Raises(r: Raft, st: Store)
    requires Leads(r, Progress(0, 1)) && st.ents != []
    ensures var o := Step(r, st, MsgAppendResponse(3, 1, 3, 1, false, 0));
            Went(o) && Leads(AfterStep(o, r), Progress(1, 2))
  {
    hide QuorumMatch, BcastAppend;
    var prs := r.prs[3 := Progress(1, 2)];
    assert prs == map[1 := Progress(3, 4), 2 := Progress(0, 3), 3 := Progress(1, 2)];
    assert MaybeUpdate(r.prs[3], 1) == Progress(1, 2);
    OneHasThree(Progress(1, 2));
    assert |prs| == |prs.Keys|;
    assert MaybeCommit(r.(prs := prs)) == Done((r.(prs := prs), false));
  }

  // ------------------------------------------------------------------ the run

  lemma {:induction false} Cuts(c: Cluster) returns (c': Cluster)
    requires Reachable(c) && c.ids == Three() && At(c, 1, Settle(Deciding({})))
    requires var st := PeerAt(c, 1).st; |st.ents| == 3 && st.ents[1].index == 1 && st.ents[1].term == 1
    ensures Reachable(c') && MovedAmong(c, c', 1, 1, 1) && 1 in c'.peers && PeerAt(c', 1).rn.raft == Settle(Deciding({})) && Cut(PeerAt(c', 1).st)
  {
    hide Reachable, Three, Deciding;
    var p := c.peers[1];
    assert p.rn.raft.log.applied == 2 by { DecidedApplied(); }
    var c1 := c.(peers := c.peers[1 := p.(st := StoreCreateSnapshot(p.st, 1, Some(c.ids)).value.value)]);
    Grow(c, 1, TakeSnapshot(1), c1);
    var p1 := c1.peers[1];
    c' := c1.(peers := c1.peers[1 := p1.(st := StoreCompact(p1.st, 1).value.value)]);
    Grow(c1, 1, Compact(1), c');
  }

  lemma {:induction false} DecidedApplied()
    ensures Settle(Deciding({})).log.applied == 2
  {
  }

  /** Node 1 acts on a message. */
  lemma {:induction false} First(c: Cluster, m: Message, r': Raft) returns (c': Cluster)
    requires Reachable(c) && 1 in c.peers && Cut(PeerAt(c, 1).st) && m in c.net && m.to == 1 && m.from in PeerAt(c, 1).rn.raft.prs
    requires !m.MsgHup? && !m.MsgBeat? && Step(PeerAt(c, 1).rn.raft, PeerAt(c, 1).st, m) == Done(Stepped(r', false))
    ensures Reachable(c') && MovedAmong(c, c', 1, 1, 1) && 1 in c'.peers && PeerAt(c', 1).rn.raft == r' && Cut(PeerAt(c', 1).st)
  {
    hide Step, Reachable;
    c' := Arrive(c, 1, m, c.peers[1].rn.raft, r');
  }

  /** Node 1 runs a Ready cycle. */
  lemma {:induction false} Sends(c: Cluster) returns (c': Cluster)
    requires Reachable(c) && 1 in c.peers && Cut(PeerAt(c, 1).st) && PeerAt(c, 1).rn.raft.log.pending.None?
    ensures Reachable(c') && MovedAmong(c, c', 1, 1, 1) && 1 in c'.peers && Cut(PeerAt(c', 1).st) && PeerAt(c, 1).rn.raft.msgs <= c'.net
    ensures TurnRests(PeerAt(c, 1).rn.raft, PeerAt(c, 1).st, PeerAt(c', 1).rn.raft, PeerAt(c', 1).st)
  {
    hide Reachable;
    c' := Turn(c, 1, c.peers[1].rn.raft);
  }

  /** Node 3 acts on a message and runs a Ready cycle. */
  lemma {:induction false} Third(c: Cluster, m: Message, r: Raft, r': Raft) returns (c': Cluster)
    requires Reachable(c) && At(c, 3, r) && m in c.net && m.to == 3 && m.from in r.prs
    requires !m.MsgHup? && !m.MsgBeat? && Step(r, PeerAt(c, 3).st, m) == Done(Stepped(r', false))
    ensures Reachable(c') && MovedAmong(c, c', 3, 3, 3) && r'.msgs <= c'.net
    ensures r'.log.snapIndex == 0 && r'.log.pending.None? ==> At(c', 3, Settle(r'))
  {
    hide Step, Reachable;
    var c1 := Deliver(c, 3, m, r, r');
    c' := Turn(c1, 3, r');
  }

  lemma {:induction false} OnlyThird(c: Cluster, c': Cluster)
    requires MovedAmong(c, c', 3, 3, 3) && 1 in c.peers
    ensures 1 in c'.peers && PeerAt(c', 1) == PeerAt(c, 1) && c.net <= c'.net
  {
  }

  lemma {:induction false} OnlyFirst(c: Cluster, c': Cluster, r: Raft)
    requires MovedAmong(c, c', 1, 1, 1) && At(c, 3, r)
    ensures At(c', 3, r) && c.net <= c'.net
  {
  }

  /** Node 3 runs twice, so that it asks for votes in term 2. */
  lemma {:induction false} ThirdRuns(c: Cluster) returns (c': Cluster, r: Raft)
    requires Reachable(c) && At(c, 3, Started(Three(), 3)) && 1 in c.peers
    ensures Reachable(c') && 1 in c'.peers && PeerAt(c', 1) == PeerAt(c, 1)
    ensures At(c', 3, r) && r.id == 3 && r.term == 2 && r.log == EMPTY_LOG && r.prs.Keys == Three()
    ensures MsgRequestVote(3, 1, 2, 0, 0) in c'.net
  {
    hide Reachable, Started, Three, Step;
    ThreeNodes();
    StartedFits(Three(), 3);
    var r0 := Started(Three(), 3);
    var c1 := Runs(Three(), c, 3, r0);
    var r1 := Running(r0, Three());
    var c2 := Runs(Three(), c1, 3, r1);
    var r2 := Running(r1, Three());
    c' := Turn(c2, 3, r2);
    assert MsgRequestVote(3, 1, 2, 0, 0) in Requests(Three(), 3, 2);
    r := Settle(r2);
  }

  /** Node 1 is elected again, in term 3, by node 3. */
  lemma {:induction false} Reelected() returns (c: Cluster, r: Raft)
    ensures Reachable(c) && 1 in c.peers && Cut(PeerAt(c, 1).st) && Leads(PeerAt(c, 1).rn.raft, Progress(0, 3))
    ensures At(c, 3, r) && Blank(r) && MsgAppend(1, 3, 3, 2, 1, [Last()], 2) in PeerAt(c, 1).rn.raft.msgs
  {
    hide Step, Reachable, At, Deciding, Three, Started, Cut, Leads, Settle, MovedAmong;
    var c0 := Decided();
    Stored(c0);
    var c1 := Cuts(c0);
    StillAt(c0, c1, 1, 1, 1, 3, Started(Three(), 3));
    var c2, r2 := ThirdRuns(c1);
    c, r := Elects(c2, r2);
  }

  lemma {:induction false} Elects(c: Cluster, r3: Raft) returns (c': Cluster, r: Raft)
    requires Reachable(c) && 1 in c.peers && Cut(PeerAt(c, 1).st) && PeerAt(c, 1).rn.raft == Settle(Deciding({}))
    requires At(c, 3, r3) && r3.id == 3 && r3.term == 2 && r3.log == EMPTY_LOG && r3.prs.Keys == Three()
    requires MsgRequestVote(3, 1, 2, 0, 0) in c.net
    ensures Reachable(c') && 1 in c'.peers && Cut(PeerAt(c', 1).st) && Leads(PeerAt(c', 1).rn.raft, Progress(0, 3))
    ensures At(c', 3, r) && Blank(r) && MsgAppend(1, 3, 3, 2, 1, [Last()], 2) in PeerAt(c', 1).rn.raft.msgs
  {
    hide Step, Reachable, At, Three, Leads, MovedAmong, Settle;
    ThreeNodes();
    assert 3 in c.peers[1].rn.raft.prs by { DecidedKnows(); }
    StepsDown(c.peers[1].st);
    var c1 := First(c, MsgRequestVote(3, 1, 2, 0, 0), Step(c.peers[1].rn.raft, c.peers[1].st, MsgRequestVote(3, 1, 2, 0, 0)).value.raft);
    OnlyFirst(c, c1, r3);
    var c2 := Campaigns(c1);
    OnlyFirst(c1, c2, r3);
    AtIs(c2, 3, r3);
    Grants(r3, c2.peers[3].st);
    var m := MsgRequestVote(1, 3, 3, 2, 1);
    var v := Step(r3, c2.peers[3].st, m).value.raft;
    var c3 := Third(c2, m, r3, v);
    OnlyThird(c2, c3);
    Wins(c3.peers[1].rn.raft, c3.peers[1].st);
    var m1 := MsgRequestVoteResponse(3, 1, 3, false);
    c' := First(c3, m1, Step(c3.peers[1].rn.raft, c3.peers[1].st, m1).value.raft);
    r := Settle(v);
    BlankSettles(v);
    OnlyFirst(c3, c', r);
  }

  lemma {:induction false} DecidedKnows()
    ensures 3 in Settle(Deciding({})).prs
  {
    ThreeNodes();
  }

  lemma {:induction false} BlankSettles(r: Raft)
    requires Blank(r)
    ensures Blank(Settle(r)) && 1 in r.prs
  {
    ThreeNodes();
  }

  /** Node 1 asks for votes in term 3 and sends its requests. */
  lemma {:induction false} Campaigns(c: Cluster) returns (c': Cluster)
    requires Reachable(c) && 1 in c.peers && Cut(PeerAt(c, 1).st) && SteppedDown(PeerAt(c, 1).rn.raft)
    ensures Reachable(c') && MovedAmong(c, c', 1, 1, 1) && 1 in c'.peers && Cut(PeerAt(c', 1).st)
    ensures Seeking(PeerAt(c', 1).rn.raft) && 3 in PeerAt(c', 1).rn.raft.prs && MsgRequestVote(1, 3, 3, 2, 1) in c'.net
  {
    hide Step, Reachable;
    ThreeNodes();
    var r := c.peers[1].rn.raft;
    Seeks(r, c.peers[1].st);
    var c1 := Ask(c, 1, MsgHup(0, 0, 0), r, Step(r, c.peers[1].st, MsgHup(0, 0, 0)).value.raft);
    c' := Sends(c1);
  }

  /** Node 3 rejects the first append; the leader lowers Next and sends the snapshot. */
  lemma {:induction false} Rejected(c: Cluster, r: Raft) returns (c': Cluster, r': Raft)
    requires Reachable(c) && 1 in c.peers && Cut(PeerAt(c, 1).st) && Leads(PeerAt(c, 1).rn.raft, Progress(0, 3))
    requires At(c, 3, r) && Blank(r) && MsgAppend(1, 3, 3, 2, 1, [Last()], 2) in PeerAt(c, 1).rn.raft.msgs
    ensures Reachable(c') && 1 in c'.peers && Cut(PeerAt(c', 1).st) && Leads(PeerAt(c', 1).rn.raft, Progress(0, 1))
    ensures At(c', 3, r') && Blank(r')
    ensures MsgAppendResponse(3, 1, 3, 2, true, 0) in c'.net && MsgSnapshot(1, 3, 3, FirstSnapshot()) in c'.net
  {
    hide Step, Reachable, At, Three, MovedAmong, Settle, Leads, FirstSnapshot, TurnRests;
    LeadsFacts(c.peers[1].rn.raft, Progress(0, 3));
    var c1 := Sends(c);
    LeadsRests(c.peers[1].rn.raft, c.peers[1].st, c1.peers[1].rn.raft, c1.peers[1].st, Progress(0, 3));
    OnlyFirst(c, c1, r);
    AtIs(c1, 3, r);
    BlankSettles(r);
    Rejects(r, c1.peers[3].st);
    var m := MsgAppend(1, 3, 3, 2, 1, [Last()], 2);
    var v := Step(r, c1.peers[3].st, m).value.raft;
    var c2 := Third(c1, m, r, v);
    OnlyThird(c1, c2);
    BlankSettles(v);
    r' := Settle(v);
    c' := Answers(c2, Progress(0, 3));
    OnlyFirst(c2, c', r');
  }

  /** The leader hears the rejection and sends the snapshot. */
  lemma {:induction false} Answers(c: Cluster, pr: Progress) returns (c': Cluster)
    requires Reachable(c) && 1 in c.peers && Cut(PeerAt(c, 1).st) && Leads(PeerAt(c, 1).rn.raft, pr) && pr.Match < 2
    requires MsgAppendResponse(3, 1, 3, 2, true, 0) in c.net
    ensures Reachable(c') && MovedAmong(c, c', 1, 1, 1) && 1 in c'.peers && Cut(PeerAt(c', 1).st)
    ensures Leads(PeerAt(c', 1).rn.raft, Progress(pr.Match, 1)) && MsgSnapshot(1, 3, 3, FirstSnapshot()) in c'.net
  {
    hide Step, Reachable, Leads, FirstSnapshot, TurnRests;
    var r, st, m := c.peers[1].rn.raft, c.peers[1].st, MsgAppendResponse(3, 1, 3, 2, true, 0);
    LeadsFacts(r, pr);
    Lowers(r, st, pr);
    var c1 := First(c, m, Step(r, st, m).value.raft);
    LeadsFacts(c1.peers[1].rn.raft, Progress(pr.Match, 1));
    c' := Sends(c1);
    LeadsRests(c1.peers[1].rn.raft, c1.peers[1].st, c'.peers[1].rn.raft, c'.peers[1].st, Progress(pr.Match, 1));
  }

  lemma {:induction false} LeadsFacts(r: Raft, pr: Progress)
    requires Leads(r, pr)
    ensures r.log.pending.None? && 3 in r.prs && PrAt(r, 3) == pr && r.state == StateLeader && r.term == 3
  {
  }

  lemma {:induction false} LeadsRests(r: Raft, st: Store, r': Raft, st': Store, pr: Progress)
    requires Leads(r, pr) && TurnRests(r, st, r', st')
    ensures Leads(r', pr)
  {
  }

  /** Node 3 takes the snapshot, and the leader hears of it. */
  lemma {:induction false} Caught(c: Cluster, r: Raft) returns (c': Cluster)
    requires Reachable(c) && 1 in c.peers && Cut(PeerAt(c, 1).st) && Leads(PeerAt(c, 1).rn.raft, Progress(0, 1))
    requires At(c, 3, r) && Blank(r) && MsgSnapshot(1, 3, 3, FirstSnapshot()) in c.net
    ensures Reachable(c') && 1 in c'.peers && Cut(PeerAt(c', 1).st) && Leads(PeerAt(c', 1).rn.raft, Progress(1, 2)) && c.net <= c'.net
  {
    hide Step, Reachable, At, Three, Settle, Leads, FirstSnapshot;
    AtIs(c, 3, r);
    BlankSettles(r);
    Takes(r, c.peers[3].st);
    var m := MsgSnapshot(1, 3, 3, FirstSnapshot());
    var c1 := Third(c, m, r, Step(r, c.peers[3].st, m).value.raft);
    OnlyThird(c, c1);
    var r1, st1, ack := c1.peers[1].rn.raft, c1.peers[1].st, MsgAppendResponse(3, 1, 3, 1, false, 0);
    LeadsFacts(r1, Progress(0, 1));
    Raises(r1, st1);
    c' := First(c1, ack, Step(r1, st1, ack).value.raft);
  }

  /** Match below Next is not an invariant: the network delivers a rejection again, after node 3 has answered the
      snapshot that followed it. */
  lemma {:induction false} LateRejectionBreaksOrder() returns (c: Cluster)
    ensures Reachable(c) && 1 in c.peers
    ensures var r := PeerAt(c, 1).rn.raft; r.state == StateLeader && 3 in r.prs && PrAt(r, 3).Next <= PrAt(r, 3).Match
  {
    hide Step, Reachable, At, Leads, Cut, Blank, FirstSnapshot;
    var c0, r0 := Reelected();
    var c1, r1 := Rejected(c0, r0);
    var c2 := Caught(c1, r1);
    c := Answers(c2, Progress(1, 2));
    LeadsFacts(c.peers[1].rn.raft, Progress(1, 1));
  }
}
