/** A leader can bring any node that takes part up to date, whatever that node's log looks like. */
module RaftReplicate {
  import opened RaftTypes
  import opened RaftStore
  import opened RaftLogSpec
  import opened RaftNodeSpec
  import opened RawNodeSpec
  import opened RaftCoupling
  import opened RaftCluster
  import opened RaftRefinement
  import opened RaftAnswers
  import opened RaftSchedule
  import RaftSafety
  import RaftCommit
  import P = RaftProtocol

  /** Node `w` leads term `t`, its log ends in `e`, and what it has compacted is in a snapshot from before `e`. */
  ghost predicate Leads(c: Cluster, w: NodeId, t: nat, e: Entry) {
    && w in c.peers
    && var p := PeerAt(c, w);
       var r := p.rn.raft;
       && r.state == StateLeader && r.term == t
       && r.log.pending.None? && Covered(p.st) && p.st.snapshot.index < e.index
       && r.log.entries != [] && r.log.entries[|r.log.entries| - 1] == e && LastIndex(r.log) == e.index
       && w in r.prs && PrAt(r, w).Match == e.index
  }

  /** The node can be brought up to date: it has not moved beyond the term, and `e` will be delivered if it is applied. */
  ghost predicate Willing(c: Cluster, y: NodeId, t: nat, e: Entry) {
    && y in c.peers
    && var p := PeerAt(c, y);
       && p.rn.raft.term <= t && Covered(p.st) && Delivered(p, e)
       && (p.rn.raft.log.applied < e.index ==> p.rn.raft.log.snapIndex < e.index)
  }

  /** Only `w` and `y` have taken part. */
  predicate Between(c: Cluster, c': Cluster, w: NodeId, y: NodeId) {
    && c'.ids == c.ids && c'.peers.Keys == c.peers.Keys && c.net <= c'.net
    && forall n :: n in c.peers && n != w && n != y ==> PeerAt(c', n) == PeerAt(c, n)
  }

  // ------------------------------------------------------------------ what safety says about the two logs

  /** `F` is the complete log of the leader, `G` that of the node. What the node has committed is in `F`, and what the
      leader counts on in `G`. */
  ghost predicate Compatible(c: Cluster, a: P.State, w: NodeId, y: NodeId, t: nat, e: Entry, F: seq<Entry>, G: seq<Entry>) {
    && t >= 1
    && y in a.vol && y in a.dur && G == a.vol[y].hard.log && LogView(LogAt(c, y), G) && Synced(LogAt(c, y), G, PeerAt(c, y).st, a.dur[y].log)
    && w in a.vol && w in a.dur && LogView(LogAt(c, w), F) && Synced(LogAt(c, w), F, PeerAt(c, w).st, a.dur[w].log)
    && |F| == e.index > 0 && F[e.index - 1] == e && t in a.tlog && F == a.tlog[t]
    && y in NodeAt(c, w).prs && NodeAt(c, w).id == w && NodeAt(c, y).id == y
    && Agree(G, F, LogAt(c, y).committed)
    && var pr := PrAt(NodeAt(c, w), y);
       && 1 <= pr.Next <= |F| + 1 && pr.Match <= |F|
       && (NodeAt(c, y).term == t ==> Agree(G, F, pr.Match))
  }

  lemma {:induction false} LogsOf(run: seq<Cluster>, w: NodeId, y: NodeId, t: nat, e: Entry)
      returns (a: P.State, F: seq<Entry>, G: seq<Entry>)
    requires Run(run) && Leads(Now(run), w, t, e) && y in Now(run).peers && NodeAt(Now(run), y).term <= t
    ensures P.Inv(a) && Couple(Now(run), a) && Compatible(Now(run), a, w, y, t, e, F, G)
  {
    hide P.Inv, RaftOK, Synced, LogView, Couple, P.NodeOK, Next, Init, P.Counted, P.CommitOK;
    a := Arrived(run);
    var c := Now(run);
    NodeOf(c, a, w);
    NodeOf(c, a, y);
    F := a.vol[w].hard.log;
    G := a.vol[y].hard.log;
    var r := NodeAt(c, w);
    RaftCommit.LeaderLog(a, w, r, PeerAt(c, w).st);
    assert F == a.tlog[t];
    LastIndexView(r.log, F);
    ViewBounds(r.log, F);
    CommittedIn(a, y, t);
    ProgressOf(a, w, r, PeerAt(c, w).st, y);
    if PrAt(r, y).Match > 0 {
      RaftCommit.CountedInLog(a, w, y, t, PrAt(r, y).Match);
      RaftSafety.CountedAgrees(a, w, y, t, PrAt(r, y).Match, PrAt(r, y).Match);
    }
    LeaderTerm(a, w);
  }

  lemma {:induction false} LeaderTerm(a: P.State, w: NodeId)
    requires P.NodeOK(a, w) && P.VolAt(a, w).role == P.Leader
    ensures P.VolAt(a, w).hard.term >= 1
  {
  }

  lemma {:induction false} CommittedIn(a: P.State, y: NodeId, t: nat)
    requires P.Inv(a) && y in a.ids && y in a.vol && t in a.tlog && P.VolAt(a, y).hard.term <= t
    ensures Agree(P.VolAt(a, y).hard.log, P.TlogAt(a, t), P.VolAt(a, y).hard.commit)
  {
    hide P.InvTypes, P.InvNodes, P.InvTerms, P.InvVotes, P.InvUnique, P.InvAcks, P.InvKept, P.InvBallots, P.InvLeaders, P.InvLed, P.CommitOK;
    assert P.NodeCommitOK(a, y);
    var h := a.vol[y].hard;
    RaftSafety.CommitInLeader(a, y, h.term, h.log, h.commit, t);
  }

  lemma {:induction false} ProgressOf(a: P.State, w: NodeId, r: Raft, st: Store, y: NodeId)
    requires RaftOK(a, w, r, st) && r.state == StateLeader && y in a.ids
    ensures y in r.prs && 1 <= PrAt(r, y).Next <= LastIndex(r.log) + 1
    ensures PrAt(r, y).Match == 0 || P.Counted(a, w, y, r.term, PrAt(r, y).Match)
  {
    hide P.Counted, Synced;
    assert ProgressOK(a, w, y, PrAt(r, y), r.term, LastIndex(r.log));
  }

  // ------------------------------------------------------------------ cycles that deliver

  /** A cycle delivers `e` if it is committed, and keeps everything else that matters. */
  lemma {:induction false} FlushDelivers(run: seq<Cluster>, Q: set<NodeId>, w: NodeId, n: NodeId, t: nat, e: Entry) returns (run': seq<Cluster>)
    requires Run(run) && n in Q && Leads(Now(run), w, t, e) && Willing(Now(run), n, t, e)
    ensures Run(run') && Extends(run, run', Q) && Leads(Now(run'), w, t, e) && Willing(Now(run'), n, t, e)
    ensures var c, c' := Now(run), Now(run');
            && c' == c.(peers := c.peers[n := PeerAt(c', n)], net := c.net + NodeAt(c, n).msgs)
            && NodeAt(c', n) == Flushed(NodeAt(c, n))
            && PeerAt(c', n).st.snapshot == LogSnapshot(LogAt(c, n), PeerAt(c, n).st)
            && PeerAt(c, n).history <= PeerAt(c', n).history && (LogAt(c, n).committed >= e.index ==> e in PeerAt(c', n).history)
  {
    hide P.Inv, Couple, Next, Init, Synced, LogView, Extends, Covered, LastIndex;
    var a, F, G := LogsOf(run, w, n, t, e);
    run' := Cycles(run, Q, n);
    var c, p, p' := Now(run), PeerAt(Now(run), n), PeerAt(Now(run'), n);
    var l := p.rn.raft.log;
    if l.applied < e.index <= l.committed {
      Retained(l, G, e);
      assert e in l.entries;
    }
    ViewBounds(l, G);
    if n == w {
      assert LastIndex(p'.rn.raft.log) == LastIndex(l) by { LastKept(l, p'.rn.raft.log); }
    }
  }

  lemma {:induction false} LastKept(l: Log, l': Log)
    requires l.entries != [] && l'.entries == l.entries
    ensures LastIndex(l') == LastIndex(l)
  {
  }

  lemma {:induction false} Retained(l: Log, G: seq<Entry>, e: Entry)
    requires LogView(l, G) && l.snapIndex < e.index <= |G| && G[e.index - 1] == e
    ensures e in l.entries
  {
    assert l.entries[e.index - 1 - l.snapIndex] == e;
  }

  // ------------------------------------------------------------------ one round trip of each kind

  /** A heartbeat makes the node a follower of the leader, with all of its log the leader knows to be committed. */
  lemma {:induction false} HeartbeatTrip(run: seq<Cluster>, Q: set<NodeId>, w: NodeId, y: NodeId, t: nat, e: Entry) returns (run': seq<Cluster>)
    requires Run(run) && w in Q && y in Q && w != y && Leads(Now(run), w, t, e) && Willing(Now(run), w, t, e) && Willing(Now(run), y, t, e)
    ensures Run(run') && Extends(run, run', Q) && Leads(Now(run'), w, t, e) && Willing(Now(run'), w, t, e) && Willing(Now(run'), y, t, e)
    ensures Between(Now(run), Now(run'), w, y)
    ensures var r, r' := NodeAt(Now(run), w), NodeAt(Now(run'), w); r'.prs == r.prs && r'.log.committed == r.log.committed
    ensures PeerAt(Now(run), w).history <= PeerAt(Now(run'), w).history
    ensures var q, q' := NodeAt(Now(run), y), NodeAt(Now(run'), y);
            && q'.state == StateFollower && q'.term == t && q'.lead == w && q'.log.pending.None? && y in NodeAt(Now(run), w).prs
            && q'.log.committed == q'.log.applied == Max(q.log.committed, Min(PrAt(NodeAt(Now(run), w), y).Match, LogAt(Now(run), w).committed))
    ensures MsgHeartbeatResponse(y, w, t) in Now(run').net
  {
    hide P.Inv, Couple, Next, Init, Synced, LogView, Extends, LastIndex, Step;
    var a, F, G := LogsOf(run, w, y, t, e);
    var r := NodeAt(Now(run), w);
    BeatSends(r, PeerAt(Now(run), w).st);
    var beat := MsgBeat(NONE, NONE, 0);
    var run1 := Requests(run, Q, w, beat);
    var run2 := FlushDelivers(run1, Q, w, w, t, e);
    var hb := MsgHeartbeat(w, y, t, Min(PrAt(r, y).Match, r.log.committed));
    assert hb in Now(run2).net;
    var run3 := Receives(run2, Q, y, hb);
    var q := NodeAt(Now(run2), y);
    if q.term == t {
      NotBothLead(run2, w, y);
    }
    HeartbeatFollowed(q, PeerAt(Now(run2), y).st, hb);
    run' := FlushDelivers(run3, Q, w, y, t, e);
    ExtendsTrans(run, run1, run2, Q);
    ExtendsTrans(run, run2, run3, Q);
    ExtendsTrans(run, run3, run', Q);
  }

  lemma {:induction false} NotBothLead(run: seq<Cluster>, w: NodeId, y: NodeId)
    requires Run(run) && w in Now(run).peers && y in Now(run).peers && w != y
    requires NodeAt(Now(run), w).state == StateLeader && NodeAt(Now(run), y).term == NodeAt(Now(run), w).term
    ensures NodeAt(Now(run), y).state != StateLeader
  {
    hide Run;
    if NodeAt(Now(run), y).state == StateLeader {
      RaftSafety.ElectionSafety(run, |run| - 1, |run| - 1, w, y);
    }
  }

  lemma {:induction false} SameReads(l: Log, l': Log, i: nat)
    requires l' == l.(applied := l'.applied, stabled := l'.stabled)
    ensures Term(l', i - 1) == Term(l, i - 1) && LogEntries(l', i) == LogEntries(l, i)
  {
  }

  /** What a leader sends depends on its log, its term, what it knows of the peer and its snapshot. */
  lemma {:induction false} SameMessage(r: Raft, st: Store, r': Raft, st': Store, y: NodeId)
    requires r'.id == r.id && r'.term == r.term && r'.prs == r.prs
    requires r'.log == r.log.(applied := r'.log.applied, stabled := r'.log.stabled) && LogSnapshot(r'.log, st') == LogSnapshot(r.log, st)
    ensures AppendMessage(r', st', y) == AppendMessage(r, st, y)
  {
    hide Term, LogEntries, LogSnapshot;
    if y in r.prs {
      SameReads(r.log, r'.log, PrAt(r, y).Next);
    }
  }

  /** Hearing from a node that lacks entries, the leader sends it some. */
  lemma {:induction false} Offer(run: seq<Cluster>, Q: set<NodeId>, w: NodeId, y: NodeId, t: nat, e: Entry) returns (run': seq<Cluster>, m: Message)
    requires Run(run) && w in Q && w != y && Leads(Now(run), w, t, e) && Willing(Now(run), w, t, e) && y in Now(run).peers
    requires NodeAt(Now(run), y).term == t
    requires MsgHeartbeatResponse(y, w, t) in Now(run).net
    requires y in NodeAt(Now(run), w).prs && PrAt(NodeAt(Now(run), w), y).Match < e.index
    ensures Run(run') && Extends(run, run', Q) && Leads(Now(run'), w, t, e) && Willing(Now(run'), w, t, e)
    ensures Between(Now(run), Now(run'), w, w)
    ensures NodeAt(Now(run'), w).prs == NodeAt(Now(run), w).prs
    ensures m in Now(run').net && AppendMessage(NodeAt(Now(run'), w), PeerAt(Now(run'), w).st, y) == Done(m)
  {
    hide P.Inv, Couple, Next, Init, Synced, LogView, Extends, LastIndex, Step, AppendMessage;
    var hr := MsgHeartbeatResponse(y, w, t);
    var run1 := Receives(run, Q, w, hr);
    var r, st := NodeAt(Now(run), w), PeerAt(Now(run), w).st;
    HeartbeatAnswered(r, st, hr);
    var r1 := NodeAt(Now(run1), w);
    m := AppendMessage(r, st, y).value;
    run' := FlushDelivers(run1, Q, w, w, t, e);
    var r', st' := NodeAt(Now(run'), w), PeerAt(Now(run'), w).st;
    SameMessage(r, st, r', st', y);
    ExtendsTrans(run, run1, run', Q);
  }

  /** An answer that gets a leader further, for a peer with Match `match`, Next `x` and commit index `c`, then `c'`:
      the whole log is there, or it is known from where on the logs agree, or an earlier index is to be tried. */
  predicate Helpful(resp: Message, last: nat, match_: nat, x: nat, c: nat, c': nat) {
    && resp.MsgAppendResponse? && c <= c'
    && if resp.reject then resp.index == x - 1 && match_ < resp.index && c < resp.index && c <= resp.rejectHint && c' == c
       else resp.index == last || (resp.index == c' && x <= c' && (c < c' || x <= c))
  }

  /** A follower's answer to entries is always helpful. */
  lemma {:induction false} EntriesTaken(r: Raft, F: seq<Entry>, q: Raft, qst: Store, G: seq<Entry>, D: seq<Entry>, m: Message) returns (resp: Message)
    requires LogView(r.log, F) && Synced(q.log, G, qst, D) && q.state == StateFollower && q.term == r.term > 0
    requires q.id in r.prs && PrAt(r, q.id).Next > 0 && PrAt(r, q.id).Next <= |F| + 1 && PrAt(r, q.id).Match <= |F|
    requires Agree(G, F, q.log.committed) && Agree(G, F, PrAt(r, q.id).Match)
    requires var x := PrAt(r, q.id).Next; m == MsgAppend(r.id, q.id, r.term, x - 1, TermAt(F, x - 1), F[x - 1..], r.log.committed)
    ensures qst.ents != [] && Step(q, qst, m).Done?
    ensures var q' := AfterStep(Step(q, qst, m), q);
            && q'.id == q.id && q'.state == StateFollower && q'.term == q.term && q'.log.pending == q.log.pending && q'.log.applied == q.log.applied
            && resp.MsgAppendResponse? && resp in q'.msgs && resp.from == q.id && resp.to == r.id && resp.term == r.term
            && Helpful(resp, |F|, PrAt(r, q.id).Match, PrAt(r, q.id).Next, q.log.committed, q'.log.committed)
  {
    hide Step, Synced;
    var x := PrAt(r, q.id).Next;
    forall k | 0 <= k < |m.ents|
      ensures m.ents[k].index == m.index + k + 1
    {
      assert m.ents[k] == F[x - 1 + k];
    }
    AppendFollowed(q, qst, G, D, m);
    SyncedFacts(q.log, G, qst, D);
    var c := q.log.committed;
    SameTermAt(G, F, c);
    if m.index <= PrAt(r, q.id).Match {
      SameTermAt(G, F, m.index);
    }
    if m.index < c {
      resp := MsgAppendResponse(q.id, r.id, r.term, c, false, 0);
    } else if m.index <= |G| && TermAt(G, m.index) == m.logTerm {
      resp := MsgAppendResponse(q.id, r.id, r.term, |F|, false, 0);
    } else {
      resp := MsgAppendResponse(q.id, r.id, r.term, m.index, true, |G|);
    }
  }

  lemma {:induction false} SameTermAt(G: seq<Entry>, F: seq<Entry>, i: nat)
    requires Agree(G, F, i)
    ensures TermAt(G, i) == TermAt(F, i)
  {
  }

  /** The message a leader has for a follower, whatever it is, leads to a helpful answer. */
  lemma {:induction false} Taken(run: seq<Cluster>, w: NodeId, y: NodeId, t: nat, e: Entry, m: Message) returns (resp: Message)
    requires Run(run) && w != y && Leads(Now(run), w, t, e) && Willing(Now(run), y, t, e) && m in Now(run).net
    requires AppendMessage(NodeAt(Now(run), w), PeerAt(Now(run), w).st, y) == Done(m)
    requires var q := NodeAt(Now(run), y); q.state == StateFollower && q.term == t && q.log.pending.None?
    requires Step(NodeAt(Now(run), y), PeerAt(Now(run), y).st, m).Done?
    ensures m.to == y && !m.MsgTransferLeader? && y in NodeAt(Now(run), w).prs
    ensures var q, r := NodeAt(Now(run), y), NodeAt(Now(run), w);
            var q' := AfterStep(Step(q, PeerAt(Now(run), y).st, m), q);
            && q'.state == StateFollower && q'.term == t && q'.log.applied == q.log.applied
            && (q.log.applied < e.index ==> q'.log.snapIndex < e.index)
            && resp.MsgAppendResponse? && resp in q'.msgs && resp.from == y && resp.to == w && resp.term == t
            && Helpful(resp, e.index, PrAt(r, y).Match, PrAt(r, y).Next, q.log.committed, q'.log.committed)
  {
    hide P.Inv, Couple, Next, Init, Synced, LogView, LastIndex, Step, AppendMessage;
    var a, F, G := LogsOf(run, w, y, t, e);
    var r, st, q, qst := NodeAt(Now(run), w), PeerAt(Now(run), w).st, NodeAt(Now(run), y), PeerAt(Now(run), y).st;
    AppendMessageIs(r, st, F, y);
    var x := PrAt(r, y).Next;
    if x > r.log.snapIndex {
      resp := EntriesTaken(r, F, q, qst, G, a.dur[y].log, m);
      StillBelow(run, y, m, e);
    } else {
      CoveredLog(r.log, F, st, a.dur[w].log);
      SnapshotFollowed(q, qst, G, m);
      var q' := Step(q, qst, m).value.raft;
      resp := MsgAppendResponse(y, w, t, q'.log.committed, false, 0);
    }
  }

  lemma {:induction false} CoveredLog(l: Log, F: seq<Entry>, st: Store, D: seq<Entry>)
    requires Synced(l, F, st, D) && l.pending.None? && Covered(st)
    ensures l.snapIndex <= st.snapshot.index
  {
  }

  /** Compaction does not go beyond what is applied. */
  lemma {:induction false} StillBelow(run: seq<Cluster>, y: NodeId, m: Message, e: Entry)
    requires Run(run) && y in Now(run).peers && m in Now(run).net && m.to == y && m.MsgAppend? && Covered(PeerAt(Now(run), y).st)
    requires Step(NodeAt(Now(run), y), PeerAt(Now(run), y).st, m).Done?
    requires AfterStep(Step(NodeAt(Now(run), y), PeerAt(Now(run), y).st, m), NodeAt(Now(run), y)).log.pending.None?
    ensures var l := AfterStep(Step(NodeAt(Now(run), y), PeerAt(Now(run), y).st, m), NodeAt(Now(run), y)).log; l.snapIndex <= l.applied
  {
    hide P.Inv, Couple, Next, Init, Synced, LogView, Step, Extends, P.NodeOK, RaftOK;
    var run1 := Receives(run, {y}, y, m);
    var a := Arrived(run1);
    NodeOf(Now(run1), a, y);
    ViewBounds(LogAt(Now(run1), y), a.vol[y].hard.log);
  }

  /** A follower takes what the leader sent and answers. */
  lemma {:induction false} Take(run: seq<Cluster>, Q: set<NodeId>, w: NodeId, y: NodeId, t: nat, e: Entry, m: Message)
      returns (run': seq<Cluster>, resp: Message)
    requires Run(run) && w != y && y in Q && Leads(Now(run), w, t, e) && Willing(Now(run), y, t, e) && m in Now(run).net
    requires AppendMessage(NodeAt(Now(run), w), PeerAt(Now(run), w).st, y) == Done(m) && m.to == y && !m.MsgTransferLeader?
    requires var q := NodeAt(Now(run), y); q.state == StateFollower && q.term == t && q.log.pending.None?
    ensures Run(run') && Extends(run, run', Q) && Leads(Now(run'), w, t, e) && Willing(Now(run'), y, t, e)
    ensures Between(Now(run), Now(run'), y, y)
    ensures y in NodeAt(Now(run), w).prs && NodeAt(Now(run'), y).term == t
    ensures resp.MsgAppendResponse? && resp in Now(run').net && resp.from == y && resp.to == w && resp.term == t
    ensures var r := NodeAt(Now(run), w);
            Helpful(resp, e.index, PrAt(r, y).Match, PrAt(r, y).Next, LogAt(Now(run), y).committed, LogAt(Now(run'), y).committed)
  {
    hide P.Inv, Couple, Next, Init, Synced, LogView, Extends, LastIndex, Step, AppendMessage, Helpful;
    var run1 := Receives(run, Q, y, m);
    resp := Taken(run, w, y, t, e, m);
    run' := FlushDelivers(run1, Q, w, y, t, e);
    ExtendsTrans(run, run1, run', Q);
  }

  /** The leader takes the answer. */
  lemma {:induction false} Learn(run: seq<Cluster>, Q: set<NodeId>, w: NodeId, y: NodeId, t: nat, e: Entry, resp: Message, c: nat) returns (run': seq<Cluster>)
    requires Run(run) && w != y && w in Q && Leads(Now(run), w, t, e) && Willing(Now(run), w, t, e) && Willing(Now(run), y, t, e)
    requires resp.MsgAppendResponse? && resp in Now(run).net && resp.from == y && resp.to == w && resp.term == t
    requires y in NodeAt(Now(run), w).prs
    requires var r := NodeAt(Now(run), w); Helpful(resp, e.index, PrAt(r, y).Match, PrAt(r, y).Next, c, LogAt(Now(run), y).committed)
    ensures Run(run') && Extends(run, run', Q) && Leads(Now(run'), w, t, e) && Willing(Now(run'), w, t, e)
    ensures Between(Now(run), Now(run'), w, w)
    ensures var r, r' := NodeAt(Now(run), w), NodeAt(Now(run'), w);
            var c' := LogAt(Now(run'), y).committed;
            && y in r'.prs && r'.prs == r.prs[y := PrAt(r', y)]
            && (PrAt(r', y).Match == e.index || (c == c' < PrAt(r', y).Next < PrAt(r, y).Next) || (PrAt(r', y).Next == c' + 1 && (c < c' || PrAt(r, y).Next <= c)))
  {
    hide P.Inv, Couple, Next, Init, Synced, LogView, Extends, LastIndex, Step;
    var a, F, G := LogsOf(run, w, y, t, e);
    run' := Receives(run, Q, w, resp);
    var r := NodeAt(Now(run), w);
    AppendAnswered(r, PeerAt(Now(run), w).st, resp);
    LastKept(r.log, LogAt(Now(run'), w));
  }

  // ------------------------------------------------------------------ rounds

  /** Still to commit, and how far back the leader still has to look. */
  function Gap(c: Cluster, y: NodeId, e: Entry): nat {
    if LogAt(c, y).committed < e.index then e.index - LogAt(c, y).committed else 0
  }

  function Reach(c: Cluster, w: NodeId, y: NodeId, e: Entry): nat {
    var x := PrAt(NodeAt(c, w), y).Next;
    if x <= LogAt(c, y).committed then e.index + 2 else x
  }

  /** One round brings the node up to date, or closer to it. */
  lemma {:induction false} Round(run: seq<Cluster>, Q: set<NodeId>, w: NodeId, y: NodeId, t: nat, e: Entry) returns (run': seq<Cluster>)
    requires Run(run) && w in Q && y in Q && w != y && Leads(Now(run), w, t, e) && Willing(Now(run), w, t, e) && Willing(Now(run), y, t, e)
    requires y in NodeAt(Now(run), w).prs && PrAt(NodeAt(Now(run), w), y).Match != e.index
    ensures Run(run') && Extends(run, run', Q) && Leads(Now(run'), w, t, e) && Willing(Now(run'), w, t, e) && Willing(Now(run'), y, t, e)
    ensures Between(Now(run), Now(run'), w, y)
    ensures var r, r' := NodeAt(Now(run), w), NodeAt(Now(run'), w);
            && r'.prs.Keys == r.prs.Keys && (forall z :: z in r.prs && z != y ==> PrAt(r', z) == PrAt(r, z))
            && (PrAt(r', y).Match == e.index
                || Gap(Now(run'), y, e) < Gap(Now(run), y, e)
                || (Gap(Now(run'), y, e) == Gap(Now(run), y, e) && Reach(Now(run'), w, y, e) < Reach(Now(run), w, y, e)))
  {
    hide P.Inv, Couple, Next, Init, Synced, LogView, Extends, LastIndex, Step, AppendMessage, Covered;
    var a, F, G := LogsOf(run, w, y, t, e);
    var run1 := HeartbeatTrip(run, Q, w, y, t, e);
    var run2, m := Offer(run1, Q, w, y, t, e);
    Addressed(NodeAt(Now(run2), w), PeerAt(Now(run2), w).st, y, m);
    var run3, resp := Take(run2, Q, w, y, t, e, m);
    var c := LogAt(Now(run2), y).committed;
    run' := Learn(run3, Q, w, y, t, e, resp, c);
    var a', F', G' := LogsOf(run', w, y, t, e);
    ExtendsTrans(run, run1, run2, Q);
    ExtendsTrans(run, run2, run3, Q);
    ExtendsTrans(run, run3, run', Q);
  }

  lemma {:induction false} Addressed(r: Raft, st: Store, y: NodeId, m: Message)
    requires AppendMessage(r, st, y) == Done(m)
    ensures m.to == y && !m.MsgTransferLeader?
  {
    hide LogEntries, Term;
  }

  /** Round by round the leader brings the node up to date. */
  lemma {:induction false} Replicate(run: seq<Cluster>, Q: set<NodeId>, w: NodeId, y: NodeId, t: nat, e: Entry) returns (run': seq<Cluster>)
    requires Run(run) && w in Q && y in Q && w != y && Leads(Now(run), w, t, e) && Willing(Now(run), w, t, e) && Willing(Now(run), y, t, e)
    requires y in NodeAt(Now(run), w).prs
    ensures Run(run') && Extends(run, run', Q) && Leads(Now(run'), w, t, e) && Willing(Now(run'), w, t, e) && Willing(Now(run'), y, t, e)
    ensures Between(Now(run), Now(run'), w, y)
    ensures var r, r' := NodeAt(Now(run), w), NodeAt(Now(run'), w);
            && r'.prs.Keys == r.prs.Keys && (forall z :: z in r.prs && z != y ==> PrAt(r', z) == PrAt(r, z))
            && PrAt(r', y).Match == e.index
    decreases Gap(Now(run), y, e), Reach(Now(run), w, y, e)
  {
    hide Next, Init, Extends, LastIndex, Covered, Run;
    if PrAt(NodeAt(Now(run), w), y).Match == e.index {
      ExtendsRefl(run, Q);
      run' := run;
    } else {
      var run1 := Round(run, Q, w, y, t, e);
      if PrAt(NodeAt(Now(run1), w), y).Match == e.index {
        run' := run1;
      } else {
        run' := Replicate(run1, Q, w, y, t, e);
        ExtendsTrans(run, run1, run', Q);
      }
    }
  }

  /** Why the snapshot must cover what is compacted: a follower that has committed what the snapshot covers, but not what
      the leader has compacted, is offered the snapshot, changes nothing, and its answer leaves the leader where it was. */
  lemma {:induction false} SnapshotTooOld(r: Raft, st: Store, F: seq<Entry>, q: Raft, qst: Store, G: seq<Entry>)
    requires r.state == StateLeader && r.term > 0 && LogView(r.log, F) && r.log.entries != [] && r.log.pending.None? && st.ents != []
    requires q.state == StateFollower && q.term == r.term && LogView(q.log, G) && qst.ents != []
    requires q.id in r.prs && 1 <= PrAt(r, q.id).Next <= r.log.snapIndex && 0 < st.snapshot.index <= q.log.committed < r.log.snapIndex
    ensures AppendMessage(r, st, q.id) == Done(MsgSnapshot(r.id, q.id, r.term, st.snapshot))
    ensures var m, resp := MsgSnapshot(r.id, q.id, r.term, st.snapshot), MsgAppendResponse(q.id, r.id, r.term, q.log.committed, false, 0);
            && (Step(q, qst, m).Done? ==> AfterStep(Step(q, qst, m), q).log == q.log && AfterStep(Step(q, qst, m), q).msgs == q.msgs + {resp})
            && (Step(r, st, resp).Done? ==>
                  var r' := AfterStep(Step(r, st, resp), r); q.id in r'.prs && PrAt(r', q.id).Next <= r'.log.snapIndex == r.log.snapIndex)
  {
    hide Step, AppendMessage, LogView;
    ViewBounds(r.log, F);
    AppendMessageIs(r, st, F, q.id);
    var m, resp := MsgSnapshot(r.id, q.id, r.term, st.snapshot), MsgAppendResponse(q.id, r.id, r.term, q.log.committed, false, 0);
    if Step(q, qst, m).Done? {
      SnapshotFollowed(q, qst, G, m);
    }
    if Step(r, st, resp).Done? {
      AppendAnswered(r, st, resp);
    }
  }
}
