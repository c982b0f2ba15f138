/** A majority of nodes can always elect a leader, whatever state they are in. */
module RaftElect {
  import opened RaftTypes
  import opened RaftStore
  import opened RaftLogSpec
  import opened RaftNodeSpec
  import opened RawNodeSpec
  import opened RaftCoupling
  import opened RaftCluster
  import opened RaftRefinement
  import opened RaftFatal
  import opened RaftAnswers
  import opened RaftSchedule
  import P = RaftProtocol

  /** The last entry of a log, by term and index. */
  datatype Tip = Tip(term: nat, index: nat)

  function TipOf(l: Log): Tip {
    if l.entries != [] then Tip(l.entries[|l.entries| - 1].term, l.entries[|l.entries| - 1].index)
    else Tip(l.snapTerm, l.snapIndex)
  }

  predicate NotBehind(t: Tip, u: Tip) {
    t.term > u.term || (t.term == u.term && t.index >= u.index)
  }

  lemma {:induction false} TipView(l: Log, F: seq<Entry>)
    requires LogView(l, F)
    ensures TipOf(l) == Tip(TermAt(F, |F|), |F|)
  {
  }

  // ------------------------------------------------------------------ the best candidate

  lemma {:induction false} Longest(c: Cluster, Q: set<NodeId>) returns (w: NodeId)
    requires Q != {} && Q <= c.peers.Keys
    ensures w in Q && forall y :: y in Q ==> NotBehind(TipOf(LogAt(c, w)), TipOf(LogAt(c, y)))
    decreases |Q|
  {
    hide TipOf;
    w :| w in Q;
    var rest := Q - {w};
    if rest != {} {
      var v := Longest(c, rest);
      if NotBehind(TipOf(LogAt(c, v)), TipOf(LogAt(c, w))) {
        w := v;
      }
    }
  }

  lemma {:induction false} HighestTerm(c: Cluster, Q: set<NodeId>) returns (goal: nat)
    requires Q <= c.peers.Keys
    ensures forall y :: y in Q ==> NodeAt(c, y).term <= goal
    decreases |Q|
  {
    goal := 0;
    if Q != {} {
      var y :| y in Q;
      var rest := HighestTerm(c, Q - {y});
      goal := Max(rest, NodeAt(c, y).term);
    }
  }

  /** The nodes of `Q` are there, compact nothing that is not in a snapshot, and none has a later log than `w`. */
  ghost predicate Candidates(c: Cluster, Q: set<NodeId>, w: NodeId) {
    && w in Q && Q <= c.peers.Keys
    && forall y :: y in Q ==> Covered(PeerAt(c, y).st) && NotBehind(TipOf(LogAt(c, w)), TipOf(LogAt(c, y)))
  }

  /** Only `n` has changed, and its log ends as before. */
  predicate OnlyAt(c: Cluster, c': Cluster, n: NodeId) {
    && n in c.peers && n in c'.peers && c'.ids == c.ids && c'.peers == c.peers[n := PeerAt(c', n)] && c.net <= c'.net
    && TipOf(LogAt(c', n)) == TipOf(LogAt(c, n)) && (Covered(PeerAt(c, n).st) ==> Covered(PeerAt(c', n).st))
  }

  lemma {:induction false} StillCandidates(c: Cluster, c': Cluster, n: NodeId, Q: set<NodeId>, w: NodeId)
    requires Candidates(c, Q, w) && OnlyAt(c, c', n)
    ensures Candidates(c', Q, w)
  {
    hide TipOf, NotBehind, Covered;
    forall y | y in Q
      ensures Covered(PeerAt(c', y).st) && NotBehind(TipOf(LogAt(c', w)), TipOf(LogAt(c', y)))
    {
      assert TipOf(LogAt(c', y)) == TipOf(LogAt(c, y)) && TipOf(LogAt(c', w)) == TipOf(LogAt(c, w));
    }
  }

  // ------------------------------------------------------------------ moves of one node

  /** A cycle changes neither the log's end nor the role. */
  lemma {:induction false} Settle(run: seq<Cluster>, Q: set<NodeId>, n: NodeId) returns (run': seq<Cluster>)
    requires Run(run) && n in Q && n in Now(run).peers
    ensures Run(run') && Extends(run, run', Q) && OnlyAt(Now(run), Now(run'), n)
    ensures NodeAt(Now(run'), n) == Flushed(NodeAt(Now(run), n))
    ensures Now(run').net == Now(run).net + NodeAt(Now(run), n).msgs
  {
    hide Next, Init, Extends, Covered, LastIndex;
    run' := Cycles(run, Q, n);
  }

  /** An election timeout makes a node that is not alone a candidate of the next term. */
  lemma {:induction false} Hup(run: seq<Cluster>, Q: set<NodeId>, n: NodeId) returns (run': seq<Cluster>)
    requires Run(run) && n in Q && n in Now(run).peers && |Now(run).ids| > 1
    requires var r := NodeAt(Now(run), n); r.state != StateLeader && r.log.pending.None? && r.log.applied == r.log.committed
    ensures Run(run') && Extends(run, run', Q) && OnlyAt(Now(run), Now(run'), n)
    ensures var r, r' := NodeAt(Now(run), n), NodeAt(Now(run'), n);
            && r'.state == StateCandidate && r'.term == r.term + 1 && r'.log == r.log && r'.votes == Ballots({n})
            && forall to :: to in Now(run).ids && to != n ==>
                 MsgRequestVote(n, to, r'.term, TipOf(r.log).index, TipOf(r.log).term) in r'.msgs
  {
    hide P.Inv, Couple, Next, Init, Synced, LogView, Extends, LastIndex, Step, P.NodeOK, RaftOK, TipOf;
    var a := Arrived(run);
    NodeOf(Now(run), a, n);
    var p := PeerAt(Now(run), n);
    TipView(p.rn.raft.log, a.vol[n].hard.log);
    assert |p.rn.raft.prs| == |p.rn.raft.prs.Keys|;
    HupCampaigns(p.rn.raft, p.st, a.vol[n].hard.log);
    run' := Requests(run, Q, n, MsgHup(NONE, NONE, 0));
  }

  // ------------------------------------------------------------------ getting ahead of all terms

  lemma {:induction false} RequestLowers(r: Raft, st: Store, m: Message)
    requires st.ents != [] && m.MsgRequestVote? && m.term > r.term && Step(r, st, m).Done?
    ensures var r' := AfterStep(Step(r, st, m), r); r'.state == StateFollower && r'.log == r.log
  {
    hide IsUpToDate, LastIndex;
  }

  /** A node in a later term lets a leader know. */
  lemma {:induction false} Speak(run: seq<Cluster>, Q: set<NodeId>, x: NodeId, w: NodeId) returns (run': seq<Cluster>, m: Message)
    requires Run(run) && x in Q && x != w && x in Now(run).peers && w in Now(run).peers
    ensures Run(run') && Extends(run, run', Q) && OnlyAt(Now(run), Now(run'), x)
    ensures m in Now(run').net && m.to == w && (m.MsgHeartbeat? || m.MsgRequestVote?) && m.term >= NodeAt(Now(run), x).term
  {
    hide P.Inv, Couple, Next, Init, Synced, LogView, Extends, LastIndex, Step, P.NodeOK, RaftOK, TipOf, Covered;
    var a := Arrived(run);
    NodeOf(Now(run), a, x);
    NodeOf(Now(run), a, w);
    var run1 := Settle(run, Q, x);
    var r := NodeAt(Now(run1), x);
    var run2;
    if r.state == StateLeader {
      var a1 := Arrived(run1);
      NodeOf(Now(run1), a1, x);
      BeatSends(r, PeerAt(Now(run1), x).st);
      run2 := Requests(run1, Q, x, MsgBeat(NONE, NONE, 0));
      m := MsgHeartbeat(x, w, r.term, Min(PrAt(r, w).Match, r.log.committed));
      assert LogAt(Now(run2), x) == LogAt(Now(run1), x);
    } else {
      Two(Now(run).ids, x, w);
      run2 := Hup(run1, Q, x);
      m := MsgRequestVote(x, w, r.term + 1, TipOf(r.log).index, TipOf(r.log).term);
    }
    assert m in NodeAt(Now(run2), x).msgs;
    run' := Settle(run2, Q, x);
    ExtendsTrans(run, run1, run2, Q);
    ExtendsTrans(run, run2, run', Q);
  }

  lemma {:induction false} Two(ids: set<NodeId>, x: NodeId, w: NodeId)
    requires x in ids && w in ids && x != w
    ensures |ids| > 1
  {
    SubsetSize({x, w}, ids);
  }

  /** A leader that somebody has left behind steps down when it hears of it. */
  lemma {:induction false} StepDown(run: seq<Cluster>, Q: set<NodeId>, w: NodeId, x: NodeId) returns (run': seq<Cluster>)
    requires Run(run) && Candidates(Now(run), Q, w) && x in Q && x != w && NodeAt(Now(run), x).term > NodeAt(Now(run), w).term
    ensures Run(run') && Extends(run, run', Q) && Candidates(Now(run'), Q, w) && NodeAt(Now(run'), w).state != StateLeader
    ensures Now(run').ids == Now(run).ids
  {
    hide Next, Init, Extends, LastIndex, Step, TipOf, NotBehind;
    var run1, m := Speak(run, Q, x, w);
    StillCandidates(Now(run), Now(run1), x, Q, w);
    run' := Receives(run1, Q, w, m);
    var p := PeerAt(Now(run1), w);
    if m.MsgHeartbeat? {
      HeartbeatFollowed(p.rn.raft, p.st, m);
    } else {
      RequestLowers(p.rn.raft, p.st, m);
    }
    SameTip(p.rn.raft.log, LogAt(Now(run'), w));
    StillCandidates(Now(run1), Now(run'), w, Q, w);
    ExtendsTrans(run, run1, run', Q);
  }

  lemma {:induction false} SameTip(l: Log, l': Log)
    requires l' == l.(committed := l'.committed)
    ensures TipOf(l') == TipOf(l)
  {
  }

  /** Timeout after timeout a node gets to any term. */
  lemma {:induction false} Outbid(run: seq<Cluster>, Q: set<NodeId>, w: NodeId, goal: nat) returns (run': seq<Cluster>)
    requires Run(run) && w in Q && w in Now(run).peers && |Now(run).ids| > 1
    requires var r := NodeAt(Now(run), w); r.state != StateLeader && r.log.pending.None? && r.log.applied == r.log.committed
    ensures Run(run') && Extends(run, run', Q) && OnlyAt(Now(run), Now(run'), w)
    ensures var r := NodeAt(Now(run'), w);
            r.state != StateLeader && r.log.pending.None? && r.log.applied == r.log.committed && r.term >= goal
    decreases goal - NodeAt(Now(run), w).term
  {
    hide Next, Init, Extends, Covered, TipOf, Run;
    if NodeAt(Now(run), w).term >= goal {
      ExtendsRefl(run, Q);
      run' := run;
    } else {
      var run1 := Hup(run, Q, w);
      run' := Outbid(run1, Q, w, goal);
      ExtendsTrans(run, run1, run', Q);
    }
  }

  // ------------------------------------------------------------------ the election

  function Majority(c: Cluster): nat { |c.ids| / 2 + 1 }

  /** Node `w` runs in term `t` with the votes of `voters`; the rest of `Q` are in earlier terms, and asked. */
  ghost predicate Running(c: Cluster, Q: set<NodeId>, w: NodeId, t: nat, voters: set<NodeId>) {
    && Candidates(c, Q, w) && w in voters && voters <= Q
    && var r := NodeAt(c, w);
       && r.state == StateCandidate && r.term == t && r.votes == Ballots(voters)
       && (forall y :: y in Q ==> NodeAt(c, y).term <= t)
       && forall y :: y in Q && y !in voters ==>
            && NodeAt(c, y).term < t
            && MsgRequestVote(w, y, t, TipOf(r.log).index, TipOf(r.log).term) in c.net
  }

  /** Node `w` of `Q` leads, and nobody in `Q` is in a later term. */
  ghost predicate InCharge(c: Cluster, Q: set<NodeId>, w: NodeId) {
    && w in Q && Q <= c.peers.Keys && NodeAt(c, w).state == StateLeader
    && forall y :: y in Q ==> Covered(PeerAt(c, y).st) && NodeAt(c, y).term <= NodeAt(c, w).term
  }

  /** A node in an earlier term votes for a candidate with a log that is not behind its own. */
  lemma {:induction false} Ask(run: seq<Cluster>, Q: set<NodeId>, w: NodeId, t: nat, voters: set<NodeId>, y: NodeId) returns (run': seq<Cluster>)
    requires Run(run) && Running(Now(run), Q, w, t, voters) && y in Q && y !in voters
    ensures Run(run') && Extends(run, run', Q) && OnlyAt(Now(run), Now(run'), y)
    ensures NodeAt(Now(run'), y).term == t && MsgRequestVoteResponse(y, w, t, false) in Now(run').net
  {
    hide P.Inv, Couple, Next, Init, Synced, LogView, Extends, LastIndex, Step, P.NodeOK, RaftOK, TipOf, Covered;
    var a := Arrived(run);
    NodeOf(Now(run), a, y);
    var p := PeerAt(Now(run), y);
    TipView(p.rn.raft.log, a.vol[y].hard.log);
    var tip := TipOf(LogAt(Now(run), w));
    var m := MsgRequestVote(w, y, t, tip.index, tip.term);
    VoteAnswered(p.rn.raft, p.st, a.vol[y].hard.log, m);
    var run1 := Receives(run, Q, y, m);
    run' := Settle(run1, Q, y);
    ExtendsTrans(run, run1, run', Q);
  }

  /** One more vote: the candidate is elected, or has one vote more. */
  lemma {:induction false} Count(run: seq<Cluster>, Q: set<NodeId>, w: NodeId, t: nat, voters: set<NodeId>, y: NodeId) returns (run': seq<Cluster>)
    requires Run(run) && Running(Now(run), Q, w, t, voters) && y in Q && y !in voters && |voters| < Majority(Now(run))
    ensures Run(run') && Extends(run, run', Q) && Now(run').ids == Now(run).ids
    ensures if |voters| + 1 == Majority(Now(run)) then InCharge(Now(run'), Q, w) else Running(Now(run'), Q, w, t, voters + {y})
  {
    hide P.Inv, Couple, Next, Init, Synced, LogView, Extends, LastIndex, Step, P.NodeOK, RaftOK, TipOf, NotBehind, Covered, Ballots;
    var run1 := Ask(run, Q, w, t, voters, y);
    var resp := MsgRequestVoteResponse(y, w, t, false);
    StillCandidates(Now(run), Now(run1), y, Q, w);
    run' := Receives(run1, Q, w, resp);
    var p := PeerAt(Now(run1), w);
    var a := Arrived(run1);
    NodeOf(Now(run1), a, w);
    assert |p.rn.raft.prs| == |p.rn.raft.prs.Keys|;
    StoreThere(p.st);
    VoteCounted(p.rn.raft, p.st, resp, voters);
    ExtendsTrans(run, run1, run', Q);
    if |voters| + 1 != Majority(Now(run)) {
      StillCandidates(Now(run1), Now(run'), w, Q, w);
      StillRunning(Now(run), Now(run1), Now(run'), Q, w, t, voters, y);
    }
  }

  lemma {:induction false} StoreThere(st: Store)
    requires Covered(st)
    ensures st.ents != []
  {
  }

  lemma {:induction false} StillRunning(c: Cluster, c1: Cluster, c': Cluster, Q: set<NodeId>, w: NodeId, t: nat, voters: set<NodeId>, y: NodeId)
    requires Running(c, Q, w, t, voters) && y in Q && y !in voters && OnlyAt(c, c1, y) && PeerAt(c1, y).rn.raft.term == t
    requires OnlyAt(c1, c', w) && Candidates(c', Q, w) && NodeAt(c', w) == PeerAt(c1, w).rn.raft.(votes := Ballots(voters + {y}))
    ensures Running(c', Q, w, t, voters + {y})
  {
    hide TipOf, NotBehind, Covered, Ballots, Candidates;
    CandidatesThere(c, Q, w);
    var r := NodeAt(c', w);
    forall z | z in Q
      ensures z in c'.peers && NodeAt(c', z).term <= t
      ensures z !in voters + {y} ==> NodeAt(c', z).term < t && MsgRequestVote(w, z, t, TipOf(r.log).index, TipOf(r.log).term) in c'.net
    {
      assert NodeAt(c, z).term <= t;
    }
  }

  lemma {:induction false} CandidatesThere(c: Cluster, Q: set<NodeId>, w: NodeId)
    requires Candidates(c, Q, w)
    ensures w in Q && Q <= c.peers.Keys
  {
  }

  /** Vote by vote the candidate gets its majority. */
  lemma {:induction false} Elect(run: seq<Cluster>, Q: set<NodeId>, w: NodeId, t: nat, voters: set<NodeId>) returns (run': seq<Cluster>)
    requires Run(run) && Running(Now(run), Q, w, t, voters) && Quorum(Now(run).ids, Q) && |voters| < Majority(Now(run))
    ensures Run(run') && Extends(run, run', Q) && InCharge(Now(run'), Q, w) && Now(run').ids == Now(run).ids
    decreases |Q - voters|
  {
    hide Run, Extends, Candidates, InCharge, TipOf, Ballots;
    assert Q * voters == voters;
    assert |Q - voters| > 0;
    var y :| y in Q - voters;
    run' := Count(run, Q, w, t, voters, y);
    if |voters| + 1 != Majority(Now(run)) {
      var run1, more := run', voters + {y};
      assert Q - more == (Q - voters) - {y};
      run' := Elect(run1, Q, w, t, more);
      ExtendsTrans(run, run1, run', Q);
    }
  }

  /** A node that is not the leader gets itself elected. */
  lemma {:induction false} Win(run: seq<Cluster>, Q: set<NodeId>, w: NodeId) returns (run': seq<Cluster>)
    requires Run(run) && Candidates(Now(run), Q, w) && NodeAt(Now(run), w).state != StateLeader
    requires Quorum(Now(run).ids, Q) && |Now(run).ids| > 1
    ensures Run(run') && Extends(run, run', Q) && InCharge(Now(run'), Q, w) && Now(run').ids == Now(run).ids
  {
    hide Next, Init, Extends, LastIndex, TipOf, NotBehind, Covered;
    var goal := HighestTerm(Now(run), Q);
    var run1 := Settle(run, Q, w);
    StillCandidates(Now(run), Now(run1), w, Q, w);
    var run2 := Outbid(run1, Q, w, goal);
    StillCandidates(Now(run1), Now(run2), w, Q, w);
    var run3 := Hup(run2, Q, w);
    StillCandidates(Now(run2), Now(run3), w, Q, w);
    var run4 := Settle(run3, Q, w);
    StillCandidates(Now(run3), Now(run4), w, Q, w);
    ExtendsTrans(run, run1, run2, Q);
    ExtendsTrans(run, run2, run3, Q);
    ExtendsTrans(run, run3, run4, Q);
    var t := NodeAt(Now(run4), w).term;
    assert Running(Now(run4), Q, w, t, {w});
    run' := Elect(run4, Q, w, t, {w});
    ExtendsTrans(run, run4, run', Q);
  }

  /** Alone, a node elects itself. */
  lemma {:induction false} WinAlone(run: seq<Cluster>, Q: set<NodeId>, w: NodeId) returns (run': seq<Cluster>)
    requires Run(run) && Candidates(Now(run), Q, w) && NodeAt(Now(run), w).state != StateLeader
    requires Quorum(Now(run).ids, Q) && |Now(run).ids| <= 1
    ensures Run(run') && Extends(run, run', Q) && InCharge(Now(run'), Q, w) && Now(run').ids == Now(run).ids
  {
    hide P.Inv, Couple, Next, Init, Synced, LogView, Extends, LastIndex, Step, P.NodeOK, RaftOK, TipOf, NotBehind, Covered;
    var run1 := Settle(run, Q, w);
    var a := Arrived(run1);
    NodeOf(Now(run1), a, w);
    var p := PeerAt(Now(run1), w);
    StepFatal(a, w, p.rn.raft, p.st, MsgHup(NONE, NONE, 0));
    assert |p.rn.raft.prs| == |p.rn.raft.prs.Keys|;
    HupAlone(p.rn.raft, p.st, a.vol[w].hard.log);
    run' := Requests(run1, Q, w, MsgHup(NONE, NONE, 0));
    ExtendsTrans(run, run1, run', Q);
    OnlyOne(Now(run).ids, Q, w);
  }

  lemma {:induction false} OnlyOne(ids: set<NodeId>, Q: set<NodeId>, w: NodeId)
    requires Q <= ids && w in Q && |ids| <= 1
    ensures Q == {w}
  {
    forall y | y in Q
      ensures y == w
    {
      if y != w {
        Two(ids, y, w);
      }
    }
  }

  lemma {:induction false} HupAlone(r: Raft, st: Store, F: seq<Entry>)
    requires st.ents != [] && LogView(r.log, F) && r.log.pending.None? && r.log.applied == r.log.committed
    requires r.state != StateLeader && |r.prs| == 1 && Step(r, st, MsgHup(NONE, NONE, 0)).Done?
    ensures AfterStep(Step(r, st, MsgHup(NONE, NONE, 0)), r).state == StateLeader
  {
    hide LogView, Slice, LastIndex, NumOfPendingConf, Append, QuorumMatch;
    HupReads(r.log, F);
    var r2 := Poll(BecomeCandidate(r), r.id, true);
    assert Grantors(r2.votes) == {r.id};
    assert r2.prs.Keys == r.prs.Keys;
    assert |r2.prs| == |r2.prs.Keys| && |r.prs| == |r.prs.Keys|;
  }

  /** From every state it can get into, a majority can get to a state in which one of its nodes leads and none is in a
      later term. */
  lemma {:induction false} CanElect(run: seq<Cluster>, Q: set<NodeId>) returns (run': seq<Cluster>, w: NodeId)
    requires Run(run) && Quorum(Now(run).ids, Q) && (forall n :: n in Q ==> n in Now(run).peers && Covered(PeerAt(Now(run), n).st))
    ensures Run(run') && Extends(run, run', Q) && InCharge(Now(run'), Q, w) && Now(run').ids == Now(run).ids
  {
    hide Next, Init, Extends, LastIndex, TipOf, NotBehind, Covered, Run;
    w := Longest(Now(run), Q);
    var run1 := run;
    ExtendsRefl(run, Q);
    if NodeAt(Now(run), w).state == StateLeader {
      if x :| x in Q && NodeAt(Now(run), x).term > NodeAt(Now(run), w).term {
        run1 := StepDown(run, Q, w, x);
      } else {
        run' := run;
        return;
      }
    }
    if |Now(run).ids| > 1 {
      run' := Win(run1, Q, w);
    } else {
      run' := WinAlone(run1, Q, w);
    }
    ExtendsTrans(run, run1, run', Q);
  }
}
