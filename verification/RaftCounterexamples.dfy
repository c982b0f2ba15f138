/** Runs that show where promises one might expect of the library end. */
module RaftCounterexamples {
  import opened RaftTypes
  import opened RaftStore
  import opened RaftLogSpec
  import opened RaftNodeSpec
  import opened RaftCluster
  import opened RaftScripts
  import opened RaftSafety
  import opened RaftFatal
  import opened RaftCoupling
  import opened RaftSimulation
  import opened RaftRefinement
  import F = RaftImplFacts
  import P = RaftProtocol

  // ------------------------------------------------------------------ elections over empty logs

  /** A node with an empty log that can be asked for its vote in term `t`. */
  predicate CanVote(ids: set<NodeId>, r: Raft, v: NodeId, t: nat) {
    r.id == v && r.log == EMPTY_LOG && r.prs.Keys == ids && r.term < t
  }

  /** A node with an empty log that may start an election. */
  predicate CanRun(ids: set<NodeId>, r: Raft, n: NodeId) {
    r.id == n && r.log == EMPTY_LOG && r.prs.Keys == ids && r.state != StateLeader
  }

  /** A candidate of term `t` with an empty log that has only its own vote and has asked for the others'. */
  predicate Asking(ids: set<NodeId>, r: Raft, n: NodeId, t: nat) {
    && r.id == n && r.term == t >= 1 && r.vote == n && r.log == EMPTY_LOG && r.prs.Keys == ids
    && r.state == StateCandidate && r.votes == map[n := true] && r.lead == NONE && r.leadTransferee == NONE
    && Requests(ids, n, t) <= r.msgs
  }

  function Crown(ids: set<NodeId>, n: NodeId, t: nat): Raft {
    Leading(ids, n, t, [Noop(t)], Appends(ids, n, t, [Noop(t)]))
  }

  lemma {:induction false} AtIs(c: Cluster, n: NodeId, r: Raft)
    requires At(c, n, r)
    ensures n in c.peers && PeerAt(c, n).rn.raft == r && Plain(PeerAt(c, n).st)
  {
  }

  lemma {:induction false} StartedFits(ids: set<NodeId>, n: NodeId)
    ensures var r := Started(ids, n);
            && r.term == 0 && CanRun(ids, r, n) && CanVote(ids, r, n, 1) && CanVote(ids, r, n, 2)
            && CanVote(ids, Settle(Voted(r, ids, 1, 1)), n, 2)
  {
  }

  /** A node with an empty log asks for votes. */
  lemma {:induction false} Runs(ids: set<NodeId>, c: Cluster, n: NodeId, r: Raft) returns (c': Cluster)
    requires Reachable(c) && n in ids && |ids| >= 2 && At(c, n, r) && CanRun(ids, r, n)
    ensures Reachable(c') && MovedAmong(c, c', n, n, n) && At(c', n, Running(r, ids))
    ensures var r' := Running(r, ids); r'.term == r.term + 1 && Asking(ids, r', n, r'.term) && CanRun(ids, r', n)
  {
    hide Step, Reachable;
    HupRuns(ids, r, c.peers[n].st);
    c' := Ask(c, n, MsgHup(0, 0, 0), r, Running(r, ids));
  }

  /** One voter hears of the election and answers. */
  lemma {:induction false} Vote(ids: set<NodeId>, c: Cluster, n: NodeId, t: nat, v: NodeId, r: Raft) returns (c': Cluster)
    requires Reachable(c) && n in ids && v in ids && v != n && At(c, v, r) && CanVote(ids, r, v, t)
    requires Requests(ids, n, t) <= c.net
    ensures Reachable(c') && MovedAmong(c, c', v, v, v) && At(c', v, Settle(Voted(r, ids, n, t)))
    ensures MsgRequestVoteResponse(v, n, t, false) in c'.net
  {
    hide Step, Reachable;
    RequestVotes(ids, r, c.peers[v].st, n, t);
    var c1 := Deliver(c, v, MsgRequestVote(n, v, t, 0, 0), r, Voted(r, ids, n, t));
    c' := Turn(c1, v, Voted(r, ids, n, t));
  }

  // ------------------------------------------------------------------ five nodes

  function Five(): set<NodeId> { {1, 2, 3, 4, 5} }

  lemma {:induction false} FiveNodes()
    ensures |Five()| == 5 && NONE !in Five() && 1 in Five() && 2 in Five() && 3 in Five() && 4 in Five() && 5 in Five()
  {
  }

  /** A candidate wins with the votes of `v` and `w`. */
  lemma {:induction false} Win(c: Cluster, n: NodeId, t: nat, rn: Raft, v: NodeId, rv: Raft, w: NodeId, rw: Raft) returns (c': Cluster)
    requires Reachable(c) && n in Five() && v in Five() && w in Five() && n != v && v != w && w != n
    requires At(c, n, rn) && Asking(Five(), rn, n, t)
    requires At(c, v, rv) && CanVote(Five(), rv, v, t) && At(c, w, rw) && CanVote(Five(), rw, w, t)
    ensures Reachable(c') && MovedAmong(c, c', n, v, w) && At(c', n, Crown(Five(), n, t))
    ensures At(c', v, Settle(Voted(rv, Five(), n, t))) && At(c', w, Settle(Voted(rw, Five(), n, t)))
  {
    hide Step, Reachable, At, Crown, Voted, CanVote, Requests;
    AtIs(c, n, rn);
    var c1 := Turn(c, n, rn);
    KeepsAt(c, c1, n, v, rv);
    KeepsAt(c, c1, n, w, rw);
    var c2 := Vote(Five(), c1, n, t, v, rv);
    StillAt(c1, c2, v, v, v, n, Settle(rn));
    StillAt(c1, c2, v, v, v, w, rw);
    var c3 := Vote(Five(), c2, n, t, w, rw);
    StillAt(c2, c3, w, w, w, n, Settle(rn));
    StillAt(c2, c3, w, w, w, v, Settle(Voted(rv, Five(), n, t)));
    c' := Tally(c3, n, t, Settle(rn), v, w);
    KeepsAt(c3, c', n, v, Settle(Voted(rv, Five(), n, t)));
    KeepsAt(c3, c', n, w, Settle(Voted(rw, Five(), n, t)));
  }

  lemma {:induction false} Tally(c: Cluster, n: NodeId, t: nat, r: Raft, v: NodeId, w: NodeId) returns (c': Cluster)
    requires Reachable(c) && n in Five() && v in Five() && w in Five() && n != v && v != w && w != n && At(c, n, r)
    requires r.id == n && r.term == t >= 1 && r.vote == n && r.log == EMPTY_LOG && r.prs.Keys == Five() && r.msgs == {}
    requires r.state == StateCandidate && r.votes == map[n := true] && r.lead == NONE && r.leadTransferee == NONE
    requires MsgRequestVoteResponse(v, n, t, false) in c.net && MsgRequestVoteResponse(w, n, t, false) in c.net
    ensures Reachable(c') && Moved(c, c', n) && At(c', n, Crown(Five(), n, t))
  {
    hide Step, Reachable, Leading;
    FiveNodes();
    var r1 := r.(votes := r.votes[v := true]);
    assert |r.votes| == |r.votes.Keys| && r.votes.Keys == {n};
    PollCounts(Five(), r, c.peers[n].st, v);
    var c1 := Deliver(c, n, MsgRequestVoteResponse(v, n, t, false), r, r1);
    assert |r1.votes| == |r1.votes.Keys| && r1.votes.Keys == {n, v};
    PollWins(Five(), r1, c1.peers[n].st, w);
    assert r.msgs + Appends(Five(), n, t, [Noop(t)]) == Appends(Five(), n, t, [Noop(t)]);
    c' := Deliver(c1, n, MsgRequestVoteResponse(w, n, t, false), r1, Crown(Five(), n, t));
  }

  /** The leader hears that one of four others has its entry; that is no majority. */
  function Heard(r: Raft, v: NodeId): Raft {
    r.(prs := r.prs[v := Progress(1, 2)])
  }

  lemma {:induction false} OneOfFourReached(n: NodeId, v: NodeId, t: nat)
    requires n in Five() && v in Five() && v != n
    ensures var prs := Heard(Settle(Crown(Five(), n, t)), v).prs; |prs| == 5 && QuorumMatch(prs) == 0
  {
    hide QuorumMatch;
    FiveNodes();
    var prs := Heard(Settle(Crown(Five(), n, t)), v).prs;
    assert prs.Keys == Five();
    assert AtLeast(prs, 0) == Five();
    assert AtLeast(prs, 1) == {n, v};
    QuorumIs(prs, 0, Five(), {n, v});
  }

  lemma {:induction false} OneOfFour(n: NodeId, v: NodeId, t: nat, st: Store)
    requires n in Five() && v in Five() && v != n && t >= 1 && Plain(st)
    ensures Step(Settle(Crown(Five(), n, t)), st, MsgAppendResponse(v, n, t, 1, false, 0)) ==
              Done(Stepped(Heard(Settle(Crown(Five(), n, t)), v), false))
  {
    hide QuorumMatch, BcastAppend, Five;
    FiveNodes();
    var r := Settle(Crown(Five(), n, t));
    OneOfFourReached(n, v, t);
    assert MaybeUpdate(r.prs[v], 1) == Progress(1, 2);
    assert MaybeCommit(Heard(r, v)) == Done((Heard(r, v), false));
    assert LeaderAppendResponse(r, st, MsgAppendResponse(v, n, t, 1, false, 0)) == Done(Heard(r, v));
  }

  /** A follower of term 1 takes over the log of the leader of term 2 and forgets its own entry. */
  lemma {:induction false} Overwritten(r: Raft, st: Store, c: NodeId)
    requires r.log == EMPTY_LOG.(entries := [Noop(1)], stabled := 1) && r.term == 1 && r.prs.Keys == Five() && Plain(st)
    ensures var o := Step(r, st, MsgAppend(c, r.id, 2, 0, 0, [Noop(2)], 0));
            Went(o) && AfterStep(o, r).log.entries == [Noop(2)] && AfterStep(o, r).log.offset == 1 && AfterStep(o, r).term == 2
  {
    var l := r.log;
    assert MatchTerm(l, 0, 0) && !MatchTerm(l, 1, 2);
    assert [Noop(2)][0..] == [Noop(2)] && l.entries[..0] + [Noop(2)] == [Noop(2)];
    assert FindConflict(l, [Noop(2)]) == 1;
    assert Append(l, st, [Noop(2)]) == Done(l.(entries := [Noop(2)], stabled := 0));
    assert MaybeAppend(l, st, 0, 0, 0, [Noop(2)]) == Done((l.(entries := [Noop(2)], stabled := 0), Some(1)));
  }

  /** Node 2 has the first entry of term 1. */
  ghost predicate HasFirst(c: Cluster) {
    && 2 in c.peers && Plain(c.peers[2].st)
    && var r := c.peers[2].rn.raft;
       r.id == 2 && r.term == 1 && r.prs.Keys == Five() && r.log == EMPTY_LOG.(entries := [Noop(1)], stabled := 1)
  }

  /** Up to the moment when leader 1 knows that node 2 has its entry. */
  lemma {:induction false} FirstReign() returns (c: Cluster)
    ensures Reachable(c) && At(c, 1, Heard(Settle(Crown(Five(), 1, 1)), 2)) && HasFirst(c)
    ensures At(c, 3, Settle(Voted(Started(Five(), 3), Five(), 1, 1)))
    ensures At(c, 4, Started(Five(), 4)) && At(c, 5, Started(Five(), 5))
  {
    hide Step, Reachable, At, Crown, Voted, HasFirst, Started, Running, Settle, Heard, CanRun, CanVote, Asking, Five, Moved, MovedAmong;
    FiveNodes();
    var c0 := Begin(Five());
    var r := Started(Five(), 1);
    StartedFits(Five(), 1);
    StartedFits(Five(), 2);
    StartedFits(Five(), 3);
    var c1 := Runs(Five(), c0, 1, r);
    StillAt(c0, c1, 1, 1, 1, 2, Started(Five(), 2));
    StillAt(c0, c1, 1, 1, 1, 3, Started(Five(), 3));
    StillAt(c0, c1, 1, 1, 1, 4, Started(Five(), 4));
    StillAt(c0, c1, 1, 1, 1, 5, Started(Five(), 5));
    var c2 := Win(c1, 1, 1, Running(r, Five()), 2, Started(Five(), 2), 3, Started(Five(), 3));
    StillAt(c1, c2, 1, 2, 3, 4, Started(Five(), 4));
    StillAt(c1, c2, 1, 2, 3, 5, Started(Five(), 5));
    c := Replicated(c2);
    StillAt(c2, c, 1, 2, 2, 3, Settle(Voted(Started(Five(), 3), Five(), 1, 1)));
    StillAt(c2, c, 1, 2, 2, 4, Started(Five(), 4));
    StillAt(c2, c, 1, 2, 2, 5, Started(Five(), 5));
  }

  lemma {:induction false} Replicated(c: Cluster) returns (c': Cluster)
    requires Reachable(c) && At(c, 1, Crown(Five(), 1, 1))
    requires At(c, 2, Settle(Voted(Started(Five(), 2), Five(), 1, 1)))
    ensures Reachable(c') && MovedAmong(c, c', 1, 2, 2) && At(c', 1, Heard(Settle(Crown(Five(), 1, 1)), 2)) && HasFirst(c')
  {
    hide Step, Reachable;
    var c1 := Turn(c, 1, Crown(Five(), 1, 1));
    var r2 := Settle(Voted(Started(Five(), 2), Five(), 1, 1));
    var m := MsgAppend(1, 2, 1, 0, 0, [Noop(1)], 0);
    assert m in Appends(Five(), 1, 1, [Noop(1)]);
    TakesAll(r2, c1.peers[2].st, 1, [Noop(1)]);
    var ack := MsgAppendResponse(2, 1, 1, 1, false, 0);
    var r2' := r2.(lead := 1, log := EMPTY_LOG.(entries := [Noop(1)]), msgs := r2.msgs + {ack});
    var c2 := Deliver(c1, 2, m, r2, r2');
    var c3 := Turn(c2, 2, r2');
    OneOfFour(1, 2, 1, c3.peers[1].st);
    c' := Deliver(c3, 1, ack, Settle(Crown(Five(), 1, 1)), Heard(Settle(Crown(Five(), 1, 1)), 2));
  }

  /** A leader's Match is no promise about a peer in a later term: leader 1 still believes that node 2 has its
      entry, which the leader of term 2 has made it forget. */
  lemma {:induction false} LaterTermForgets() returns (c: Cluster)
    ensures Reachable(c) && 1 in c.peers && 2 in c.peers
    ensures var r, p := PeerAt(c, 1).rn.raft, PeerAt(c, 2).rn.raft;
            && r.state == StateLeader && 2 in r.prs && |r.log.entries| == 1
            && r.log.entries[0].index <= PrAt(r, 2).Match && r.log.committed < r.log.entries[0].index
            && p.term > r.term && !HoldsEntry(p.log, r.log.entries[0])
  {
    hide Step, Reachable, HoldsEntry;
    var c0 := SecondReign();
    c := Forget(c0);
    StillAt(c0, c, 4, 2, 2, 1, Heard(Settle(Crown(Five(), 1, 1)), 2));
    Forgotten(c.peers[2].rn.raft.log);
  }

  lemma {:induction false} SecondReign() returns (c: Cluster)
    ensures Reachable(c) && At(c, 1, Heard(Settle(Crown(Five(), 1, 1)), 2)) && HasFirst(c) && At(c, 4, Crown(Five(), 4, 2))
  {
    hide Step, Reachable, At, Crown, Voted, HasFirst, Started, Running, Settle, Heard, CanRun, CanVote, Asking, Five, Moved, MovedAmong;
    FiveNodes();
    var c0 := FirstReign();
    StartedFits(Five(), 3);
    StartedFits(Five(), 4);
    StartedFits(Five(), 5);
    var r4, r3, r5 := Started(Five(), 4), Settle(Voted(Started(Five(), 3), Five(), 1, 1)), Started(Five(), 5);
    var r1 := Heard(Settle(Crown(Five(), 1, 1)), 2);
    var c1 := Runs(Five(), c0, 4, r4);
    StillAt(c0, c1, 4, 4, 4, 1, r1);
    StillAt(c0, c1, 4, 4, 4, 3, r3);
    StillAt(c0, c1, 4, 4, 4, 5, r5);
    var c2 := Runs(Five(), c1, 4, Running(r4, Five()));
    StillAt(c1, c2, 4, 4, 4, 1, r1);
    StillAt(c1, c2, 4, 4, 4, 3, r3);
    StillAt(c1, c2, 4, 4, 4, 5, r5);
    c := Win(c2, 4, 2, Running(Running(r4, Five()), Five()), 3, r3, 5, r5);
    StillAt(c2, c, 4, 3, 5, 1, r1);
    SameSecond(c0, c1, 4, 4, 4);
    SameSecond(c1, c2, 4, 4, 4);
    SameSecond(c2, c, 4, 3, 5);
  }

  lemma {:induction false} SameSecond(c: Cluster, c': Cluster, n: NodeId, v: NodeId, w: NodeId)
    requires HasFirst(c) && MovedAmong(c, c', n, v, w) && n != 2 && v != 2 && w != 2
    ensures HasFirst(c')
  {
  }

  lemma {:induction false} Forget(c: Cluster) returns (c': Cluster)
    requires Reachable(c) && At(c, 4, Crown(Five(), 4, 2)) && HasFirst(c)
    ensures Reachable(c') && MovedAmong(c, c', 4, 2, 2) && 2 in c'.peers
    ensures PeerAt(c', 2).rn.raft.log.entries == [Noop(2)] && PeerAt(c', 2).rn.raft.log.offset == 1 && PeerAt(c', 2).rn.raft.term == 2
  {
    hide Step, Reachable;
    var c1 := Turn(c, 4, Crown(Five(), 4, 2));
    var m := MsgAppend(4, 2, 2, 0, 0, [Noop(2)], 0);
    assert m in Appends(Five(), 4, 2, [Noop(2)]);
    var p := c1.peers[2];
    Overwritten(p.rn.raft, p.st, 4);
    c' := Deliver(c1, 2, m, p.rn.raft, Step(p.rn.raft, p.st, m).value.raft);
  }

  lemma {:induction false} Forgotten(l: Log)
    requires l.entries == [Noop(2)] && l.offset == 1
    ensures !HoldsEntry(l, Noop(1))
  {
  }

  // ------------------------------------------------------------------ three nodes

  function Three(): set<NodeId> { {1, 2, 3} }

  lemma {:induction false} ThreeNodes()
    ensures |Three()| == 3 && NONE !in Three() && 1 in Three() && 2 in Three() && 3 in Three()
  {
  }

  function Two(): seq<Entry> { [Noop(1), Entry(EntryNormal, 1, 2, [1])] }

  /** Leader 1 with two entries, persisted and sent to all. */
  function Offering(): Raft { Settle(Leading(Three(), 1, 1, Two(), {})) }

  /** Leader 1 once it knows that node 2 has both entries; node 3 has not answered. */
  function Deciding(msgs: set<Message>): Raft {
    var r := Offering();
    r.(prs := r.prs[2 := Progress(2, 3)], log := r.log.(committed := 2), msgs := msgs)
  }

  /** Leader 1 wins with the vote of node 2 and proposes. */
  lemma {:induction false} ThreeElect() returns (c: Cluster)
    ensures Reachable(c) && c.ids == Three() && At(c, 1, Crown(Three(), 1, 1))
    ensures At(c, 2, Settle(Voted(Started(Three(), 2), Three(), 1, 1))) && At(c, 3, Started(Three(), 3))
  {
    hide Step, Reachable, At, Crown, Voted, Started, Running, Settle, CanRun, CanVote, Asking, Three;
    ThreeNodes();
    StartedFits(Three(), 1);
    StartedFits(Three(), 2);
    var c0 := Begin(Three());
    var r2 := Started(Three(), 2);
    var c1 := Runs(Three(), c0, 1, Started(Three(), 1));
    StillAt(c0, c1, 1, 1, 1, 2, r2);
    StillAt(c0, c1, 1, 1, 1, 3, Started(Three(), 3));
    c := OneVote(c1, Running(Started(Three(), 1), Three()), r2);
    StillAt(c1, c, 1, 2, 2, 3, Started(Three(), 3));
  }

  lemma {:induction false} OneVote(c: Cluster, r: Raft, r2: Raft) returns (c': Cluster)
    requires Reachable(c) && At(c, 1, r) && Asking(Three(), r, 1, 1) && At(c, 2, r2) && CanVote(Three(), r2, 2, 1)
    ensures Reachable(c') && MovedAmong(c, c', 1, 2, 2) && At(c', 1, Crown(Three(), 1, 1))
    ensures At(c', 2, Settle(Voted(r2, Three(), 1, 1)))
  {
    hide Step, Reachable, Leading, Voted;
    ThreeNodes();
    var c1 := Turn(c, 1, r);
    var c2 := Vote(Three(), c1, 1, 1, 2, r2);
    var s := Settle(r);
    assert |s.votes| == |s.votes.Keys| && s.votes.Keys == {1};
    PollWins(Three(), s, c2.peers[1].st, 2);
    assert s.msgs + Appends(Three(), 1, 1, [Noop(1)]) == Appends(Three(), 1, 1, [Noop(1)]);
    c' := Deliver(c2, 1, MsgRequestVoteResponse(2, 1, 1, false), s, Crown(Three(), 1, 1));
  }

  lemma {:induction false} Offers(c: Cluster) returns (c': Cluster)
    requires Reachable(c) && At(c, 1, Crown(Three(), 1, 1))
    ensures Reachable(c') && MovedAmong(c, c', 1, 1, 1) && At(c', 1, Offering())
    ensures MsgAppend(1, 2, 1, 0, 0, Two(), 0) in c'.net
  {
    hide Step, Reachable;
    ThreeNodes();
    var msgs := Appends(Three(), 1, 1, [Noop(1)]);
    ProposeAhead(Three(), 1, 1, [Noop(1)], msgs, 1, c.peers[1].st);
    assert [Noop(1)] + [Entry(EntryNormal, 1, 2, [1])] == Two();
    var r := Leading(Three(), 1, 1, Two(), msgs + Appends(Three(), 1, 1, Two()));
    var c1 := Ask(c, 1, MsgPropose(0, 0, 0, [Entry(EntryNormal, 0, 0, [1])]), Crown(Three(), 1, 1), r);
    assert MsgAppend(1, 2, 1, 0, 0, Two(), 0) in Appends(Three(), 1, 1, Two());
    c' := Turn(c1, 1, r);
  }

  lemma {:induction false} Accepts(c: Cluster, r: Raft) returns (c': Cluster)
    requires Reachable(c) && At(c, 2, r) && r.id == 2 && r.state == StateFollower && r.log == EMPTY_LOG && r.term == 1 && 1 in r.prs
    requires MsgAppend(1, 2, 1, 0, 0, Two(), 0) in c.net
    ensures Reachable(c') && MovedAmong(c, c', 2, 2, 2) && MsgAppendResponse(2, 1, 1, 2, false, 0) in c'.net
  {
    hide Step, Reachable;
    TakesAll(r, c.peers[2].st, 1, Two());
    var ack := MsgAppendResponse(2, 1, 1, 2, false, 0);
    var r' := r.(lead := 1, log := EMPTY_LOG.(entries := Two()), msgs := r.msgs + {ack});
    var c1 := Deliver(c, 2, MsgAppend(1, 2, 1, 0, 0, Two(), 0), r, r');
    c' := Turn(c1, 2, r');
  }

  /** Two of three have entry 2, and at most one has more. */
  lemma {:induction false} MajorityOfTwo(top: nat)
    requires top >= 2
    ensures QuorumMatch(Deciding({}).prs[1 := Progress(top, top + 1)]) == 2
  {
    hide QuorumMatch;
    ThreeNodes();
    var prs := Deciding({}).prs[1 := Progress(top, top + 1)];
    assert prs.Keys == Three() && |prs| == |prs.Keys|;
    assert AtLeast(prs, 2) == {1, 2};
    assert AtLeast(prs, 3) <= {1};
    SubsetSize(AtLeast(prs, 3), {1});
    F.QuorumMatchUnique(prs, QuorumMatch(prs), 2);
  }

  lemma {:induction false} TellsAll(st: Store) returns (msgs: set<Message>)
    requires Plain(st)
    ensures BcastAppend(Deciding({}), st) == Done(Deciding(msgs))
  {
    var r := Deciding({});
    assert r.log.entries[2..] == [] && r.log.entries[0..] == Two();
    assert AppendMessage(r, st, 2) == Done(MsgAppend(1, 2, 1, 2, 1, [], 2));
    assert AppendMessage(r, st, 3) == Done(MsgAppend(1, 3, 1, 0, 0, Two(), 2));
    msgs := BcastAppend(r, st).value.msgs;
  }

  /** Two of three have both entries, which decides them. */
  lemma {:induction false} TwoOfThree(st: Store) returns (msgs: set<Message>)
    requires Plain(st)
    ensures Step(Offering(), st, MsgAppendResponse(2, 1, 1, 2, false, 0)) == Done(Stepped(Deciding(msgs), false))
  {
    hide QuorumMatch, BcastAppend;
    var r, r2 := Offering(), Deciding({});
    MajorityOfTwo(2);
    assert r2.prs[1 := Progress(2, 3)] == r2.prs;
    assert r2.prs.Keys == Three() && |r2.prs| == |r2.prs.Keys|;
    assert MaybeUpdate(r.prs[2], 2) == Progress(2, 3);
    assert MaybeCommit(r.(prs := r2.prs)) == Done((r2, true));
    msgs := TellsAll(st);
    assert LeaderAppendResponse(r, st, MsgAppendResponse(2, 1, 1, 2, false, 0)) == Done(Deciding(msgs));
  }

  /** Up to the moment when leader 1 has applied two entries of which node 3 has none. */
  lemma {:induction false} Decided() returns (c: Cluster)
    ensures Reachable(c) && c.ids == Three() && At(c, 1, Settle(Deciding({}))) && At(c, 3, Started(Three(), 3))
  {
    hide Step, Reachable, At, Crown, Voted, Started, Deciding, Offering, Three;
    ThreeNodes();
    var c0 := ThreeElect();
    var r2 := Settle(Voted(Started(Three(), 2), Three(), 1, 1));
    var c1 := Offers(c0);
    StillAt(c0, c1, 1, 1, 1, 2, r2);
    StillAt(c0, c1, 1, 1, 1, 3, Started(Three(), 3));
    VotedFits();
    var c2 := Accepts(c1, r2);
    StillAt(c1, c2, 2, 2, 2, 1, Offering());
    StillAt(c1, c2, 2, 2, 2, 3, Started(Three(), 3));
    c := Decides(c2);
    StillAt(c2, c, 1, 1, 1, 3, Started(Three(), 3));
  }

  lemma {:induction false} VotedFits()
    ensures var r := Settle(Voted(Started(Three(), 2), Three(), 1, 1));
            r.id == 2 && r.state == StateFollower && r.log == EMPTY_LOG && r.term == 1 && 1 in r.prs
  {
  }

  lemma {:induction false} Decides(c: Cluster) returns (c': Cluster)
    requires Reachable(c) && At(c, 1, Offering()) && MsgAppendResponse(2, 1, 1, 2, false, 0) in c.net
    ensures Reachable(c') && MovedAmong(c, c', 1, 1, 1) && At(c', 1, Settle(Deciding({})))
  {
    hide Step, Reachable;
    var msgs := TwoOfThree(c.peers[1].st);
    var c1 := Deliver(c, 1, MsgAppendResponse(2, 1, 1, 2, false, 0), Offering(), Deciding(msgs));
    c' := Turn(c1, 1, Deciding(msgs));
  }

  /** What leader 1 has applied is in its store. */
  lemma {:induction false} Stored(c: Cluster)
    requires Reachable(c) && At(c, 1, Settle(Deciding({})))
    ensures var st := PeerAt(c, 1).st; |st.ents| == 3 && st.ents[1].index == 1 && st.ents[1].term == 1 && st.ents[2].index == 2 && st.ents[2].term == 1
  {
    hide P.Inv, MsgOK, Synced, VotesOK, ProgressesOK, OutboxOK, P.NodeOK, P.InvNodes, P.InvTypes;
    var a := Coupled(c);
    var p := c.peers[1];
    assert PeerOK(a, 1, p);
    Facts(a, 1);
    PeerStore(a, 1, p.rn.raft, p.st);
    StoredTwo(p.rn.raft.log, a.vol[1].hard.log, p.st, a.dur[1].log);
  }

  lemma {:induction false} StoredTwo(l: Log, F: seq<Entry>, st: Store, D: seq<Entry>)
    requires Synced(l, F, st, D) && l.snapIndex == 0 && l.pending.None? && l.stabled == |l.entries| == 2 && st.ents[0].index == 0
    ensures |st.ents| == 3 && st.ents[1] == l.entries[0] && st.ents[2] == l.entries[1]
  {
    assert F[0..] == F;
    assert st.ents[1] == D[0] == F[0] && st.ents[2] == D[1] == F[1];
  }

  lemma {:induction false} RequestsFail(c: Cluster, n: NodeId, m: Message)
    requires Reachable(c) && n in c.peers && IsRequest(m)
    ensures PeerAt(c, n).st.ents != []
    ensures FatalInput(PeerAt(c, n).rn.raft, m) || NeedsSnapshot(PeerAt(c, n).rn.raft, PeerAt(c, n).st, m) ==>
              Step(PeerAt(c, n).rn.raft, PeerAt(c, n).st, m).Fatal?
  {
    hide Next, Init, Step, FatalInput, NeedsSnapshot;
    var run :| Run(run) && run[|run| - 1] == c;
    RequestFatal(run, |run| - 1, n, m);
  }

  /** An application that compacts what it has applied, but takes no snapshot, makes its leader fail at the
      next proposal: node 3 wants entries that are gone, and there is no snapshot to send. */
  lemma {:induction false} CompactedLeaderFails() returns (c: Cluster)
    ensures Reachable(c) && 1 in c.peers && PeerAt(c, 1).st.ents != []
    ensures var p := PeerAt(c, 1);
            && p.rn.raft.state == StateLeader && p.rn.raft.log.applied == p.st.ents[0].index == 2
            && forall ents :: ents != [] ==> Step(p.rn.raft, p.st, MsgPropose(0, 0, 0, ents)).Fatal?
  {
    hide Step, Reachable, At, Started;
    var c0 := Decided();
    Stored(c0);
    AtIs(c0, 1, Settle(Deciding({})));
    c := Compacts(c0);
    var p := c.peers[1];
    forall ents: seq<Entry> | ents != []
      ensures Step(p.rn.raft, p.st, MsgPropose(0, 0, 0, ents)).Fatal?
    {
      assert Stuck(p.rn.raft, p.st, p.rn.raft.prs[3].Next, 2);
      RequestsFail(c, 1, MsgPropose(0, 0, 0, ents));
    }
  }

  lemma {:induction false} Compacts(c: Cluster) returns (c': Cluster)
    requires Reachable(c) && 1 in c.peers && PeerAt(c, 1).rn.raft.log.applied == 2
    requires var st := PeerAt(c, 1).st; |st.ents| == 3 && st.ents[0].index == 0 && st.ents[2].index == 2
    ensures Reachable(c') && MovedAmong(c, c', 1, 1, 1) && 1 in c'.peers && PeerAt(c', 1).rn == PeerAt(c, 1).rn
    ensures var st, st' := PeerAt(c, 1).st, PeerAt(c', 1).st;
            st'.ents == [Entry(EntryNormal, st.ents[2].term, 2, [])] && st'.snapshot == st.snapshot
  {
    hide Reachable;
    var p := c.peers[1];
    c' := c.(peers := c.peers[1 := p.(st := StoreCompact(p.st, 2).value.value)]);
    Grow(c, 1, Compact(2), c');
  }

  lemma {:induction false} Snapshots(c: Cluster) returns (c': Cluster)
    requires Reachable(c) && At(c, 1, Settle(Deciding({})))
    requires var st := PeerAt(c, 1).st; |st.ents| == 3 && st.ents[2].index == 2 && st.ents[2].term == 1
    ensures Reachable(c') && MovedAmong(c, c', 1, 1, 1) && 1 in c'.peers && PeerAt(c', 1).rn.raft == Settle(Deciding({}))
    ensures var st := PeerAt(c', 1).st; st.snapshot == Snapshot(2, 1, c.ids) && st.ents == [Entry(EntryNormal, 1, 2, [])]
  {
    hide Reachable;
    var p := c.peers[1];
    var c1 := c.(peers := c.peers[1 := p.(st := StoreCreateSnapshot(p.st, 2, Some(c.ids)).value.value)]);
    Grow(c, 1, TakeSnapshot(2), c1);
    c' := Compacts(c1);
  }

  /** Leader 1 after one more proposal, for which it dropped the two compacted entries. */
  function Extended(): Raft {
    var r := Settle(Deciding({}));
    r.(log := Log([Entry(EntryNormal, 1, 3, [2])], 3, 2, 1, 2, 2, 2, None), prs := r.prs[1 := Progress(3, 4)])
  }

  lemma {:induction false} Extends(st: Store)
    requires st.ents == [Entry(EntryNormal, 1, 2, [])]
    ensures AppendEntry(Settle(Deciding({})), st, [Entry(EntryNormal, 0, 0, [2])]) == Done(Extended())
  {
    hide QuorumMatch;
    ThreeNodes();
    var r, e, e3 := Settle(Deciding({})), Entry(EntryNormal, 0, 0, [2]), Entry(EntryNormal, 1, 3, [2]);
    assert Stamp([e], 1, 2) == [e3];
    assert (Two() + [e3])[2..] == [e3];
    assert Append(r.log, st, [e3]) == Done(Extended().log);
    var prs := Extended().prs;
    assert MaybeUpdate(r.prs[1], 3) == Progress(3, 4);
    assert prs.Keys == Three() && |prs| == |prs.Keys|;
    MajorityOfTwo(3);
    assert MaybeCommit(Extended()) == Done((Extended(), false));
  }

  /** With a snapshot at hand the same proposal sends it to node 3. */
  lemma {:induction false} SendsSnapshot(st: Store)
    requires st.ents == [Entry(EntryNormal, 1, 2, [])] && st.snapshot.index == 2
    ensures var o := Step(Settle(Deciding({})), st, MsgPropose(0, 0, 0, [Entry(EntryNormal, 0, 0, [2])]));
            Went(o) && MsgSnapshot(1, 3, 1, st.snapshot) in AfterStep(o, Settle(Deciding({}))).msgs
  {
    hide AppendEntry, QuorumMatch;
    ThreeNodes();
    var e := Entry(EntryNormal, 0, 0, [2]);
    assert FilterConf([], 0, 2, 3) == ([], 0) && [e] + [] == [e] && [e][1..] == [];
    assert FilterConf([e], 0, 2, 2) == ([e], 0);
    Extends(st);
    var r := Extended();
    assert AppendMessage(r, st, 3) == Done(MsgSnapshot(1, 3, 1, st.snapshot));
    assert r.log.entries[0..] == r.log.entries;
    assert AppendMessage(r, st, 2) == Done(MsgAppend(1, 2, 1, 2, 1, r.log.entries, 2));
  }

  /** A node with an empty log takes a snapshot and has not yet given it to its application. */
  lemma {:induction false} TakesSnapshot(st: Store, s: Snapshot)
    requires Plain(st) && s.index == 2
    ensures var o := Step(Started(Three(), 3), st, MsgSnapshot(1, 3, 1, s));
            && Went(o) && AfterStep(o, Started(Three(), 3)).state == StateFollower && BehindSnapshot(AfterStep(o, Started(Three(), 3)).log)
  {
  }

  /** A follower that has received a snapshot fails if its election timer fires before it hands the snapshot
      to its application. */
  lemma {:induction false} PendingSnapshotFails() returns (c: Cluster)
    ensures Reachable(c) && 3 in c.peers && PeerAt(c, 3).st.ents != []
    ensures var p := PeerAt(c, 3);
            && p.rn.raft.state == StateFollower && p.rn.raft.log.pending.Some?
            && Step(p.rn.raft, p.st, MsgHup(0, 0, 0)).Fatal?
  {
    hide Step, Reachable, Settle, Deciding, Three;
    var c0 := Decided();
    Stored(c0);
    var c1 := Snapshots(c0);
    StillAt(c0, c1, 1, 1, 1, 3, Started(Three(), 3));
    c := Installs(c1);
    RequestsFail(c, 3, MsgHup(0, 0, 0));
  }

  lemma {:induction false} Installs(c: Cluster) returns (c': Cluster)
    requires Reachable(c) && At(c, 3, Started(Three(), 3)) && 1 in c.peers && PeerAt(c, 1).rn.raft == Settle(Deciding({}))
    requires var st := PeerAt(c, 1).st; st.snapshot.index == 2 && st.ents == [Entry(EntryNormal, 1, 2, [])]
    ensures Reachable(c') && 3 in c'.peers && PeerAt(c', 3).rn.raft.state == StateFollower && BehindSnapshot(PeerAt(c', 3).rn.raft.log)
  {
    hide Step, Reachable, Settle, Deciding, BehindSnapshot;
    var st := c.peers[1].st;
    SendsSnapshot(st);
    var m := MsgPropose(0, 0, 0, [Entry(EntryNormal, 0, 0, [2])]);
    var r := Step(Settle(Deciding({})), st, m).value.raft;
    var c1 := Ask(c, 1, m, Settle(Deciding({})), r);
    var c2 := Turn(c1, 1, r);
    KeepsAt(c, c1, 1, 3, Started(Three(), 3));
    KeepsAt(c1, c2, 1, 3, Started(Three(), 3));
    var m3 := MsgSnapshot(1, 3, 1, st.snapshot);
    TakesSnapshot(c2.peers[3].st, st.snapshot);
    c' := Deliver(c2, 3, m3, Started(Three(), 3), Step(Started(Three(), 3), c2.peers[3].st, m3).value.raft);
  }
}
