/** Progress is always possible: as long as a majority takes part, whatever has happened before. */
module RaftAvailability {
  import opened RaftTypes
  import opened RaftStore
  import opened RaftLogSpec
  import opened RaftNodeSpec
  import opened RawNodeSpec
  import opened RaftCoupling
  import opened RaftCluster
  import opened RaftRefinement
  import opened RaftFatal
  import opened RaftAnswers
  import opened RaftSchedule
  import opened RaftReplicate
  import opened RaftElect
  import opened RaftStepFacts
  import RaftCommit
  import P = RaftProtocol

  /** Node `w` leads with a log that ends in `e`, and all of `Q` can be brought up to date. */
  ghost predicate Offers(c: Cluster, Q: set<NodeId>, w: NodeId, t: nat, e: Entry) {
    && w in Q && Q <= c.peers.Keys && Q <= NodeAt(c, w).prs.Keys && Leads(c, w, t, e)
    && forall y :: y in Q ==> Willing(c, y, t, e)
  }

  // ------------------------------------------------------------------ proposing

  /** A leader gives up a transfer and settles. */
  lemma {:induction false} FreeLeader(run: seq<Cluster>, Q: set<NodeId>, w: NodeId) returns (run': seq<Cluster>)
    requires Run(run) && InCharge(Now(run), Q, w)
    ensures Run(run') && Extends(run, run', Q) && InCharge(Now(run'), Q, w) && Now(run').ids == Now(run).ids
    ensures var r := NodeAt(Now(run'), w); r.leadTransferee == NONE && r.log.pending.None?
  {
    hide P.Inv, Couple, Next, Init, Synced, LogView, Extends, LastIndex, P.NodeOK, RaftOK, Covered, TipOf;
    var a := Arrived(run);
    NodeOf(Now(run), a, w);
    var c := Now(run);
    var p := PeerAt(c, w);
    var run1 := Move(run, Q, w, AbortTransfer, c.(peers := c.peers[w := p.(rn := p.rn.(raft := p.rn.raft.(leadTransferee := NONE)))]));
    run' := Settle(run1, Q, w);
    ExtendsTrans(run, run1, run', Q);
  }

  /** A leader takes a proposal, and nobody has applied that far. */
  lemma {:induction false} Propose(run: seq<Cluster>, Q: set<NodeId>, w: NodeId, data: seq<nat>) returns (run': seq<Cluster>, t: nat, e: Entry)
    requires Run(run) && InCharge(Now(run), Q, w)
    requires var r := NodeAt(Now(run), w); r.leadTransferee == NONE && r.log.pending.None?
    ensures Run(run') && Extends(run, run', Q) && Offers(Now(run'), Q, w, t, e) && Now(run').ids == Now(run).ids
    ensures e.data == data && e.term == t
  {
    hide P.Inv, Couple, Next, Init, Synced, LogView, Extends, LastIndex, P.NodeOK, RaftOK, Step, P.Counted;
    var a := Arrived(run);
    NodeOf(Now(run), a, w);
    var p := PeerAt(Now(run), w);
    var r, F, m := p.rn.raft, a.vol[w].hard.log, MsgPropose(NONE, NONE, 0, [Entry(EntryNormal, 0, 0, data)]);
    t := r.term;
    StepFatal(a, w, r, p.st, m);
    SnapshotSuffices(a, w, r, p.st, m);
    RaftCommit.LeaderLog(a, w, r, p.st);
    ProgressOf(a, w, r, p.st, w);
    if PrAt(r, w).Match > 0 {
      RaftCommit.CountedInLog(a, w, w, t, PrAt(r, w).Match);
    }
    var es := ProposalAppended(r, p.st, F, a.dur[w].log, m.ents);
    e := es[0];
    OneProposed(m.ents, es, t, F, Step(r, p.st, m).value.raft.log);
    SnapshotBefore(r.log, F, p.st, a.dur[w].log);
    run' := Requests(run, Q, w, m);
    forall y | y in Q
      ensures Willing(Now(run'), y, t, e)
    {
      NobodyAhead(run, Q, w, y, a);
      if y == w {
        StepApplied(r, p.st, m);
        CompactedBelow(run', w);
      }
    }
  }

  lemma {:induction false} OneProposed(ents: seq<Entry>, es: seq<Entry>, t: nat, F: seq<Entry>, l: Log)
    requires |ents| == 1 && ents[0].entryType == EntryNormal && Stamped(ents, es, t, |F|) && LogEndsWith(l, F + es)
    ensures |es| == 1 && es[0].data == ents[0].data && es[0].term == t && es[0].index == |F| + 1 == LastIndex(l)
    ensures l.entries != [] && l.entries[|l.entries| - 1] == es[0]
  {
    assert (F + es)[|F|] == es[0];
  }

  lemma {:induction false} SnapshotBefore(l: Log, F: seq<Entry>, st: Store, D: seq<Entry>)
    requires Synced(l, F, st, D)
    ensures st.snapshot.index <= |F|
  {
  }

  /** Nobody has applied more than the leader has. */
  lemma {:induction false} NobodyAhead(run: seq<Cluster>, Q: set<NodeId>, w: NodeId, y: NodeId, a: P.State)
    requires InCharge(Now(run), Q, w) && y in Q && P.Inv(a) && Couple(Now(run), a)
    ensures w in a.vol && LogAt(Now(run), y).applied <= |P.VolAt(a, w).hard.log| && LogAt(Now(run), y).snapIndex <= |P.VolAt(a, w).hard.log|
  {
    hide P.Inv, Couple, Synced, LogView, P.NodeOK, RaftOK, Covered;
    var c := Now(run);
    NodeOf(c, a, w);
    NodeOf(c, a, y);
    RaftCommit.LeaderLog(a, w, NodeAt(c, w), PeerAt(c, w).st);
    CommittedIn(a, y, NodeAt(c, w).term);
    ViewBounds(LogAt(c, y), a.vol[y].hard.log);
  }

  lemma {:induction false} CompactedBelow(run: seq<Cluster>, w: NodeId)
    requires Run(run) && w in Now(run).peers && LogAt(Now(run), w).pending.None?
    ensures LogAt(Now(run), w).snapIndex <= LogAt(Now(run), w).applied
  {
    hide P.Inv, Couple, Next, Init, Synced, LogView, P.NodeOK, RaftOK;
    var a := Arrived(run);
    NodeOf(Now(run), a, w);
    ViewBounds(LogAt(Now(run), w), a.vol[w].hard.log);
  }

  // ------------------------------------------------------------------ replicating to everybody

  /** The leader brings the rest of `Q` up to date, one node after the other. */
  lemma {:induction false} ReplicateAll(run: seq<Cluster>, Q: set<NodeId>, w: NodeId, t: nat, e: Entry, todo: set<NodeId>) returns (run': seq<Cluster>)
    requires Run(run) && Offers(Now(run), Q, w, t, e) && todo <= Q && w !in todo
    requires forall y :: y in Q && y !in todo ==> PrAt(NodeAt(Now(run), w), y).Match == e.index
    ensures Run(run') && Extends(run, run', Q) && Offers(Now(run'), Q, w, t, e) && Now(run').ids == Now(run).ids
    ensures forall y :: y in Q ==> PrAt(NodeAt(Now(run'), w), y).Match == e.index
    decreases |todo|
  {
    hide Run, Extends, Leads, Willing;
    if todo == {} {
      ExtendsRefl(run, Q);
      run' := run;
    } else {
      var y :| y in todo;
      var run1 := Replicate(run, Q, w, y, t, e);
      OthersWilling(Now(run), Now(run1), Q, w, y, t, e);
      run' := ReplicateAll(run1, Q, w, t, e, todo - {y});
      ExtendsTrans(run, run1, run', Q);
    }
  }

  lemma {:induction false} OthersWilling(c: Cluster, c': Cluster, Q: set<NodeId>, w: NodeId, y: NodeId, t: nat, e: Entry)
    requires Offers(c, Q, w, t, e) && y in Q && Between(c, c', w, y) && Leads(c', w, t, e) && Willing(c', w, t, e) && Willing(c', y, t, e)
    requires w in c'.peers && NodeAt(c', w).prs.Keys == NodeAt(c, w).prs.Keys
    ensures Offers(c', Q, w, t, e)
  {
    hide Leads, Delivered, Covered;
    forall z | z in Q
      ensures Willing(c', z, t, e)
    {
      assert Willing(c, z, t, e);
    }
  }

  /** Then the leader has committed its whole log. */
  lemma {:induction false} AllCommitted(run: seq<Cluster>, Q: set<NodeId>, w: NodeId, t: nat, e: Entry)
    requires Run(run) && Offers(Now(run), Q, w, t, e) && Quorum(Now(run).ids, Q) && e.term == t
    requires forall y :: y in Q ==> PrAt(NodeAt(Now(run), w), y).Match == e.index
    ensures LogAt(Now(run), w).committed >= e.index
  {
    hide P.Inv, Couple, Next, Init, Synced, LogView, P.NodeOK, RaftOK, Willing;
    var a := Arrived(run);
    NodeOf(Now(run), a, w);
    var r := NodeAt(Now(run), w);
    assert |r.prs| == |r.prs.Keys|;
    SubsetSize(Q, AtLeast(r.prs, e.index));
    RaftCommit.CommitsAllItMay(run, |run| - 1, w, |r.log.entries| - 1);
  }

  // ------------------------------------------------------------------ committing everywhere

  /** Everybody hears how far the leader has committed, and delivers. */
  lemma {:induction false} CommitAll(run: seq<Cluster>, Q: set<NodeId>, w: NodeId, t: nat, e: Entry, todo: set<NodeId>) returns (run': seq<Cluster>)
    requires Run(run) && Offers(Now(run), Q, w, t, e) && todo <= Q && w !in todo && LogAt(Now(run), w).committed >= e.index
    requires forall y :: y in Q ==> PrAt(NodeAt(Now(run), w), y).Match == e.index
    requires forall y :: y in Q && y !in todo ==> e in PeerAt(Now(run), y).history && (y != w ==> Follows(Now(run), y, w, t))
    ensures Run(run') && Extends(run, run', Q) && Offers(Now(run'), Q, w, t, e) && Now(run').ids == Now(run).ids
    ensures forall y :: y in Q ==> PrAt(NodeAt(Now(run'), w), y).Match == e.index
    ensures forall y :: y in Q ==> e in PeerAt(Now(run'), y).history && (y != w ==> Follows(Now(run'), y, w, t))
    decreases |todo|
  {
    hide Run, Extends, Leads, Willing, Follows;
    if todo == {} {
      ExtendsRefl(run, Q);
      run' := run;
    } else {
      var y :| y in todo;
      var run1 := CommitAt(run, Q, w, t, e, y);
      OthersWilling(Now(run), Now(run1), Q, w, y, t, e);
      forall z | z in Q && z !in todo - {y}
        ensures e in PeerAt(Now(run1), z).history && (z != w ==> Follows(Now(run1), z, w, t))
      {
        if z != w && z != y {
          StillFollows(Now(run), Now(run1), z, w, t);
        }
      }
      run' := CommitAll(run1, Q, w, t, e, todo - {y});
      ExtendsTrans(run, run1, run', Q);
    }
  }

  /** Node `y` follows `w` in term `t`. */
  predicate Follows(c: Cluster, y: NodeId, w: NodeId, t: nat) {
    y in c.peers && NodeAt(c, y).state == StateFollower && NodeAt(c, y).term == t && NodeAt(c, y).lead == w
  }

  lemma {:induction false} StillFollows(c: Cluster, c': Cluster, z: NodeId, w: NodeId, t: nat)
    requires Follows(c, z, w, t) && z in c'.peers && PeerAt(c', z) == PeerAt(c, z)
    ensures Follows(c', z, w, t)
  {
  }

  lemma {:induction false} CommitAt(run: seq<Cluster>, Q: set<NodeId>, w: NodeId, t: nat, e: Entry, y: NodeId) returns (run': seq<Cluster>)
    requires Run(run) && Offers(Now(run), Q, w, t, e) && y in Q && w != y && LogAt(Now(run), w).committed >= e.index
    requires PrAt(NodeAt(Now(run), w), y).Match == e.index && e in PeerAt(Now(run), w).history
    ensures Run(run') && Extends(run, run', Q) && Between(Now(run), Now(run'), w, y)
    ensures Leads(Now(run'), w, t, e) && Willing(Now(run'), w, t, e) && Willing(Now(run'), y, t, e)
    ensures NodeAt(Now(run'), w).prs == NodeAt(Now(run), w).prs && LogAt(Now(run'), w).committed >= e.index
    ensures e in PeerAt(Now(run'), w).history && e in PeerAt(Now(run'), y).history && Follows(Now(run'), y, w, t)
  {
    hide Run, Extends, LastIndex, Covered;
    run' := HeartbeatTrip(run, Q, w, y, t, e);
  }

  // ------------------------------------------------------------------ progress

  /** Node `w` leads, its whole log, which ends in `e`, is known to be everywhere in `Q`, and everybody has delivered it. */
  ghost predicate InStep(c: Cluster, Q: set<NodeId>, w: NodeId, t: nat, e: Entry) {
    && Offers(c, Q, w, t, e) && e.term == t
    && (forall y :: y in Q ==> PrAt(NodeAt(c, w), y).Match == e.index && e in PeerAt(c, y).history)
    && forall y :: y in Q && y != w ==> Follows(c, y, w, t)
  }

  lemma {:induction false} GetInStep(run: seq<Cluster>, Q: set<NodeId>, data: seq<nat>) returns (run': seq<Cluster>, w: NodeId, t: nat, e: Entry)
    requires Run(run) && Quorum(Now(run).ids, Q) && forall n :: n in Q ==> n in Now(run).peers && Covered(PeerAt(Now(run), n).st)
    ensures Run(run') && Extends(run, run', Q) && InStep(Now(run'), Q, w, t, e) && e.data == data && Now(run').ids == Now(run).ids
  {
    hide Next, Init, Willing, Extends, LastIndex, Covered, Follows;
    var run1;
    run1, w := CanElect(run, Q);
    var run2 := FreeLeader(run1, Q, w);
    var run3;
    run3, t, e := Propose(run2, Q, w, data);
    var run4 := ReplicateAll(run3, Q, w, t, e, Q - {w});
    AllCommitted(run4, Q, w, t, e);
    var run5 := FlushDelivers(run4, Q, w, w, t, e);
    OthersWilling(Now(run4), Now(run5), Q, w, w, t, e);
    run' := CommitAll(run5, Q, w, t, e, Q - {w});
    ExtendsTrans(run, run1, run2, Q);
    ExtendsTrans(run, run2, run3, Q);
    ExtendsTrans(run, run3, run4, Q);
    ExtendsTrans(run, run4, run5, Q);
    ExtendsTrans(run, run5, run', Q);
  }

  /** Whatever has happened to a cluster (messages lost, repeated or out of order, nodes crashed and restarted, leaders
      deposed), a majority of its nodes can get any proposal committed and delivered by all of them, without anybody else
      and without another crash; at the end one of them leads and the others follow it. Nodes must only have compacted
      what is in their snapshots. */
  lemma {:induction false} ProgressPossible(run: seq<Cluster>, Q: set<NodeId>, data: seq<nat>) returns (run': seq<Cluster>, w: NodeId, e: Entry)
    requires Run(run) && Quorum(run[|run| - 1].ids, Q)
    requires forall n :: n in Q ==> n in run[|run| - 1].peers && Covered(run[|run| - 1].peers[n].st)
    ensures Extends(run, run', Q) && e.data == data && w in Q
    ensures var c := run'[|run'| - 1];
            && (forall n :: n in Q ==> n in c.peers && e in PeerAt(c, n).history)
            && NodeAt(c, w).state == StateLeader
            && forall n :: n in Q && n != w ==> Follows(c, n, w, NodeAt(c, w).term)
  {
    hide Next, Init, Willing, Extends, LastIndex, Covered, Follows;
    var t;
    run', w, t, e := GetInStep(run, Q, data);
  }

  // ------------------------------------------------------------------ handing over

  /** All logs in `Q` end with `e`. */
  lemma {:induction false} SameTips(run: seq<Cluster>, Q: set<NodeId>, w: NodeId, t: nat, e: Entry, y: NodeId)
    requires Run(run) && InStep(Now(run), Q, w, t, e) && y in Q
    ensures TipOf(LogAt(Now(run), y)) == Tip(t, e.index)
  {
    hide P.Inv, Couple, Next, Init, Synced, LogView, LastIndex, TipOf, Covered, P.NodeOK, RaftOK, Delivered;
    assert Willing(Now(run), y, t, e);
    var a, F, G := LogsOf(run, w, y, t, e);
    NodeOf(Now(run), a, y);
    if y != w {
      assert Follows(Now(run), y, w, t);
    }
    EndsThere(a, y, F, e);
    TipView(LogAt(Now(run), y), G);
  }

  /** Nothing follows the last entry a leader has written, in any log of its term. */
  lemma {:induction false} EndsThere(a: P.State, y: NodeId, F: seq<Entry>, e: Entry)
    requires P.NodeOK(a, y) && e.term in a.tlog && F == P.TlogAt(a, e.term) && F != [] && F[|F| - 1] == e
    requires P.VolAt(a, y).hard.term == e.term && Agree(P.VolAt(a, y).hard.log, F, |F|)
    ensures |P.VolAt(a, y).hard.log| == |F| && TermAt(P.VolAt(a, y).hard.log, |F|) == e.term
  {
    var G := a.vol[y].hard.log;
    assert G[|F| - 1] == e;
    assert G[|G| - 1].term == e.term;
  }

  /** A follower told to take over asks everybody for their votes. */
  lemma {:induction false} TakeOver(run: seq<Cluster>, Q: set<NodeId>, w: NodeId, y: NodeId, t: nat) returns (run': seq<Cluster>)
    requires Run(run) && y in Q && w in Now(run).peers && y != w && MsgTimeoutNow(w, y, t) in Now(run).net
    requires Follows(Now(run), y, w, t) && Covered(PeerAt(Now(run), y).st)
    ensures Run(run') && Extends(run, run', Q) && OnlyAt(Now(run), Now(run'), y)
    ensures var r := NodeAt(Now(run'), y);
            && r.state == StateCandidate && r.term == t + 1 && r.votes == Ballots({y})
            && forall to :: to in Now(run).ids && to != y ==> MsgRequestVote(y, to, r.term, TipOf(r.log).index, TipOf(r.log).term) in Now(run').net
  {
    hide P.Inv, Couple, Next, Init, Synced, LogView, Extends, LastIndex, TipOf, P.NodeOK, RaftOK, Step, Ballots, Covered;
    var a := Arrived(run);
    NodeOf(Now(run), a, y);
    NodeOf(Now(run), a, w);
    var p, m := PeerAt(Now(run), y), MsgTimeoutNow(w, y, t);
    var run1 := Receives(run, Q, y, m);
    Two(Now(run).ids, w, y);
    assert |p.rn.raft.prs| == |p.rn.raft.prs.Keys|;
    TimeoutCampaigns(p.rn.raft, p.st, a.vol[y].hard.log, m);
    TipView(p.rn.raft.log, a.vol[y].hard.log);
    run' := Settle(run1, Q, y);
    ExtendsTrans(run, run1, run', Q);
  }

  /** The leader tells `y` to take over, and `y` does. */
  lemma {:induction false} HandOver(run: seq<Cluster>, Q: set<NodeId>, w: NodeId, t: nat, e: Entry, y: NodeId) returns (run': seq<Cluster>)
    requires Run(run) && InStep(Now(run), Q, w, t, e) && y in Q && y != w && Q <= Now(run).ids
    ensures Run(run') && Extends(run, run', Q) && Now(run').ids == Now(run).ids && Running(Now(run'), Q, y, NodeAt(Now(run'), y).term, {y})
  {
    hide Next, Init, Extends, LastIndex, TipOf, Covered, Delivered, NotBehind, Ballots;
    var run1 := TellNode(run, Q, w, t, e, y);
    assert Follows(Now(run), y, w, t) && Willing(Now(run), y, t, e);
    run' := TakeOver(run1, Q, w, y, t);
    ExtendsTrans(run, run1, run', Q);
    forall z | z in Q
      ensures z in Now(run').peers && Covered(PeerAt(Now(run'), z).st) && NotBehind(TipOf(LogAt(Now(run'), y)), TipOf(LogAt(Now(run'), z)))
      ensures z != y ==> NodeAt(Now(run'), z).term == t
    {
      assert Willing(Now(run), z, t, e);
      assert z != w ==> Follows(Now(run), z, w, t);
      SameTips(run, Q, w, t, e, z);
      SameTips(run, Q, w, t, e, y);
      Level(Tip(t, e.index));
    }
  }

  lemma {:induction false} Level(t: Tip)
    ensures NotBehind(t, t)
  {
  }

  lemma {:induction false} TellNode(run: seq<Cluster>, Q: set<NodeId>, w: NodeId, t: nat, e: Entry, y: NodeId) returns (run': seq<Cluster>)
    requires Run(run) && InStep(Now(run), Q, w, t, e) && y in Q && y != w
    ensures Run(run') && Extends(run, run', Q) && OnlyAt(Now(run), Now(run'), w)
    ensures NodeAt(Now(run'), w).term == t && MsgTimeoutNow(w, y, t) in Now(run').net
  {
    hide P.Inv, Couple, Next, Init, Synced, LogView, Extends, LastIndex, TipOf, P.NodeOK, RaftOK, Step, Delivered, Willing, Follows;
    var c := Now(run);
    var p := PeerAt(c, w);
    var a := Arrived(run);
    NodeOf(c, a, w);
    var run1 := Move(run, Q, w, AbortTransfer, c.(peers := c.peers[w := p.(rn := p.rn.(raft := p.rn.raft.(leadTransferee := NONE)))]));
    var a1 := Arrived(run1);
    NodeOf(Now(run1), a1, w);
    NodeOf(Now(run1), a1, y);
    var r, m := NodeAt(Now(run1), w), MsgTransferLeader(y, w, 0);
    StepFatal(a1, w, r, p.st, m);
    SnapshotSuffices(a1, w, r, p.st, m);
    NotNone(a1, y);
    TransferStarted(r, p.st, m);
    var run2 := Requests(run1, Q, w, m);
    run' := Settle(run2, Q, w);
    ExtendsTrans(run, run1, run2, Q);
    ExtendsTrans(run, run2, run', Q);
  }

  lemma {:induction false} NotNone(a: P.State, y: NodeId)
    requires P.Inv(a) && y in a.ids
    ensures y != NONE
  {
    hide P.InvNodes, P.InvTerms, P.InvVotes, P.InvUnique, P.InvAcks, P.InvKept, P.InvBallots, P.InvLeaders, P.InvCommit, P.InvLed;
  }

  /** Leadership can always be handed to any node of the majority. */
  lemma {:induction false} TransferPossible(run: seq<Cluster>, Q: set<NodeId>, y: NodeId) returns (run': seq<Cluster>)
    requires Run(run) && Quorum(run[|run| - 1].ids, Q) && y in Q
    requires forall n :: n in Q ==> n in run[|run| - 1].peers && Covered(run[|run| - 1].peers[n].st)
    ensures Extends(run, run', Q)
    ensures var c := run'[|run'| - 1];
            && y in c.peers && NodeAt(c, y).state == StateLeader
            && forall n :: n in Q ==> n in c.peers && NodeAt(c, n).term <= NodeAt(c, y).term
  {
    hide Next, Init, Extends, LastIndex, Covered, Follows, Running;
    var run1, w, t, e := GetInStep(run, Q, []);
    if y == w {
      run' := run1;
      forall n | n in Q
        ensures n in Now(run').peers && NodeAt(Now(run'), n).term <= t
      {
        assert Willing(Now(run1), n, t, e);
      }
    } else {
      assert Q <= Now(run1).ids;
      var run2 := HandOver(run1, Q, w, t, e, y);
      OneIsFew(Now(run2), Q, w, y);
      run' := Elect(run2, Q, y, NodeAt(Now(run2), y).term, {y});
      ExtendsTrans(run, run1, run2, Q);
      ExtendsTrans(run, run2, run', Q);
    }
  }

  lemma {:induction false} OneIsFew(c: Cluster, Q: set<NodeId>, w: NodeId, y: NodeId)
    requires Quorum(c.ids, Q) && w in Q && y in Q && w != y
    ensures |{y}| < Majority(c)
  {
    Two(c.ids, w, y);
  }
}
