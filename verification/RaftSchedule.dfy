/** Runs that go on: what a cluster can do next if some of its nodes take part and nobody crashes. */
module RaftSchedule {
  import opened RaftTypes
  import opened RaftStore
  import opened RaftLogSpec
  import opened RaftNodeSpec
  import opened RawNodeSpec
  import opened RaftCoupling
  import opened RaftSimulation
  import opened RaftCluster
  import opened RaftCycle
  import opened RaftRefinement
  import opened RaftFatal
  import P = RaftProtocol

  /** Nobody crashes, compacts or takes a snapshot. */
  predicate Ordinary(act: Action) {
    act.Receive? || act.Request? || act.AbortTransfer? || act.RunCycle?
  }

  /** A node of `Q` takes an ordinary step. */
  ghost predicate Serves(c: Cluster, c': Cluster, Q: set<NodeId>) {
    exists n, act :: n in Q && Ordinary(act) && NextAt(c, n, act, c')
  }

  /** The run goes on with ordinary steps of nodes of `Q` only. */
  ghost predicate Extends(run: seq<Cluster>, run': seq<Cluster>, Q: set<NodeId>) {
    && Run(run) && Run(run')
    && run <= run'
    && forall i, j :: |run| - 1 <= i && j == i + 1 && j < |run'| ==> Serves(run'[i], run'[j], Q)
  }

  /** The cluster a run has arrived at. */
  function Now(run: seq<Cluster>): Cluster {
    if run == [] then Cluster({}, map[], {}) else run[|run| - 1]
  }

  // ------------------------------------------------------------------ runs

  lemma {:induction false} ExtendsRefl(run: seq<Cluster>, Q: set<NodeId>)
    requires Run(run)
    ensures Extends(run, run, Q)
  {
    hide Next, Serves, Init;
  }

  lemma {:induction false} ExtendsTrans(run: seq<Cluster>, run1: seq<Cluster>, run2: seq<Cluster>, Q: set<NodeId>)
    requires Extends(run, run1, Q) && Extends(run1, run2, Q)
    ensures Extends(run, run2, Q)
  {
    hide Next, Serves, Init;
    forall i, j | |run| - 1 <= i && j == i + 1 && j < |run2|
      ensures Serves(run2[i], run2[j], Q)
    {
      if j < |run1| {
        assert run2[i] == run1[i] && run2[j] == run1[j];
        assert Serves(run1[i], run1[j], Q);
      }
    }
  }

  /** One more step. */
  lemma {:induction false} Move(run: seq<Cluster>, Q: set<NodeId>, n: NodeId, act: Action, c': Cluster) returns (run': seq<Cluster>)
    requires Run(run) && n in Q && Ordinary(act) && NextAt(Now(run), n, act, c')
    ensures Run(run') && Extends(run, run', Q) && Now(run') == c'
  {
    hide NextAt, Init;
    run' := run + [c'];
    var k := |run| - 1;
    assert Next(run[k], c');
    forall i | 0 <= i < |run'| - 1
      ensures Next(run'[i], run'[i + 1])
    {
      if i < k {
        assert Next(run[i], run[i + 1]);
        assert run'[i] == run[i] && run'[i + 1] == run[i + 1];
      }
    }
    forall i, j | |run| - 1 <= i && j == i + 1 && j < |run'|
      ensures Serves(run'[i], run'[j], Q)
    {
      assert run'[i] == run[k] && run'[j] == c';
    }
  }

  // ------------------------------------------------------------------ what is known of a node in a run

  /** What the store has compacted away is in its snapshot. */
  predicate Covered(st: Store) {
    st.ents != [] && st.ents[0].index <= st.snapshot.index
  }

  /** The state of the protocol a run has arrived at. */
  lemma {:induction false} Arrived(run: seq<Cluster>) returns (a: P.State)
    requires Run(run)
    ensures P.Inv(a) && Couple(Now(run), a)
  {
    hide P.Inv, Couple, Evolves, Next, Init;
    var trace := RunFollows(run);
    a := trace[|run| - 1];
  }

  lemma {:induction false} NodeOf(c: Cluster, a: P.State, n: NodeId)
    requires P.Inv(a) && Couple(c, a) && n in c.peers
    ensures n in a.ids && n in a.vol && n in a.dur && n in c.ids && P.NodeOK(a, n)
    ensures var p := PeerAt(c, n);
            && p.st.ents != [] && RaftOK(a, n, p.rn.raft, p.st) && p.rn.prevHard == p.st.hardState
            && p.rn.raft.id == n && p.rn.raft.prs.Keys == c.ids && c.peers.Keys == c.ids
            && RoleOf(p.rn.raft.state) == P.VolAt(a, n).role
            && p.rn.raft.term == P.VolAt(a, n).hard.term && p.rn.raft.log.committed == P.VolAt(a, n).hard.commit
            && Synced(p.rn.raft.log, P.VolAt(a, n).hard.log, p.st, P.DurAt(a, n).log)
            && LogView(p.rn.raft.log, P.VolAt(a, n).hard.log)
  {
    hide P.Inv, MsgOK, DeliveredOK, P.NodeOK, P.InvTypes, P.InvNodes, VotesOK, ProgressesOK, OutboxOK;
    assert PeerOK(a, n, PeerAt(c, n));
    PeerStore(a, n, NodeAt(c, n), PeerAt(c, n).st);
    Facts(a, n);
  }

  // ------------------------------------------------------------------ steps

  /** A node takes a message off the network; without compaction beyond a snapshot it never fails. */
  lemma {:induction false} Receives(run: seq<Cluster>, Q: set<NodeId>, n: NodeId, m: Message) returns (run': seq<Cluster>)
    requires Run(run) && n in Q && n in Now(run).peers && m in Now(run).net && m.to == n && !m.MsgTransferLeader?
    requires Covered(PeerAt(Now(run), n).st)
    ensures Run(run') && Extends(run, run', Q)
    ensures var p := PeerAt(Now(run), n);
            && Step(p.rn.raft, p.st, m).Done?
            && Now(run') == Now(run).(peers := Now(run).peers[n := p.(rn := p.rn.(raft := Step(p.rn.raft, p.st, m).value.raft))])
  {
    hide P.Inv, Step, RaftOK, NeedsSnapshot, MsgOK, Next, Init, Extends, Synced, LogView, P.NodeOK, DeliveredOK;
    var a := Arrived(run);
    var c := Now(run);
    NodeOf(c, a, n);
    var p := PeerAt(c, n);
    assert MsgOK(a, NONE, m);
    SenderKnown(a, n, p.rn.raft, p.st, m);
    InputTerm(a, n, m);
    StepFatal(a, n, p.rn.raft, p.st, m);
    SnapshotSuffices(a, n, p.rn.raft, p.st, m);
    run' := Move(run, Q, n, Receive(m), c.(peers := c.peers[n := p.(rn := p.rn.(raft := Step(p.rn.raft, p.st, m).value.raft))]));
  }

  lemma {:induction false} Requests(run: seq<Cluster>, Q: set<NodeId>, n: NodeId, m: Message) returns (run': seq<Cluster>)
    requires Run(run) && n in Q && n in Now(run).peers && IsRequest(m) && PeerAt(Now(run), n).st.ents != []
    requires Step(NodeAt(Now(run), n), PeerAt(Now(run), n).st, m).Done?
    ensures Run(run') && Extends(run, run', Q)
    ensures var p := PeerAt(Now(run), n);
            Now(run') == Now(run).(peers := Now(run).peers[n := p.(rn := p.rn.(raft := Step(p.rn.raft, p.st, m).value.raft))])
  {
    hide Step, Next, Init, Extends;
    var c := Now(run);
    var p := PeerAt(c, n);
    run' := Move(run, Q, n, Request(m), c.(peers := c.peers[n := p.(rn := p.rn.(raft := Step(p.rn.raft, p.st, m).value.raft))]));
  }

  /** What a Ready cycle makes of a node. */
  function Flushed(r: Raft): Raft {
    r.(msgs := {}, log := r.log.(applied := r.log.committed, stabled := LastIndex(r.log), pending := None))
  }

  /** The application has been handed `e`, if the node counts it as applied. */
  predicate Delivered(p: Peer, e: Entry) {
    p.rn.raft.log.applied >= e.index ==> e in p.history
  }

  /** A node sends what it has queued, and delivers what it has committed. */
  lemma {:induction false} Cycles(run: seq<Cluster>, Q: set<NodeId>, n: NodeId) returns (run': seq<Cluster>)
    requires Run(run) && n in Q && n in Now(run).peers
    ensures Run(run') && Extends(run, run', Q) && n in Now(run').peers
    ensures var c, c' := Now(run), Now(run');
            var p, p' := PeerAt(c, n), PeerAt(c', n);
            && c' == c.(peers := c.peers[n := p'], net := c.net + p.rn.raft.msgs)
            && p'.rn.raft == Flushed(p.rn.raft)
            && (Covered(p.st) ==> Covered(p'.st)) && p'.st.snapshot == LogSnapshot(p.rn.raft.log, p.st)
            && p.history <= p'.history
            && forall e :: e in p.rn.raft.log.entries && p.rn.raft.log.applied < e.index <= p.rn.raft.log.committed ==> e in p'.history
  {
    hide P.Inv, Cycle, Next, Init, Extends, RaftOK, P.NodeOK, MsgOK, DeliveredOK, Couple, Synced, LogView, Covered, LastIndex;
    var a := Arrived(run);
    var c := Now(run);
    NodeOf(c, a, n);
    var p := PeerAt(c, n);
    CycleOf(a, n, p.rn, p.st);
    var done := Cycle(p.rn, p.st).value;
    var p' := Peer(done.rn, done.st, p.base, p.delivered + Deliveries(done.rd), p.history + Entries(done.rd.committedEntries));
    run' := Move(run, Q, n, RunCycle, c.(peers := c.peers[n := p'], net := c.net + done.rd.messages));
  }

  lemma {:induction false} CycleOf(a: P.State, n: NodeId, rn: RawNode, st: Store)
    requires RaftOK(a, n, rn.raft, st) && P.NodeOK(a, n) && rn.prevHard == st.hardState && st.ents != []
    ensures Cycle(rn, st).Done?
    ensures var done := Cycle(rn, st).value;
            && done.rn.raft == Flushed(rn.raft) && done.rd.messages == rn.raft.msgs
            && (Covered(st) ==> Covered(done.st)) && done.st.snapshot == LogSnapshot(rn.raft.log, st)
            && forall e :: e in rn.raft.log.entries && rn.raft.log.applied < e.index <= rn.raft.log.committed ==> e in done.rd.committedEntries
  {
    hide P.NodeOK, Cycle, VotesOK, ProgressesOK, OutboxOK, Synced, LogView, Covered, LastIndex;
    CycleResult(a, n, rn, st);
    var F, l := a.vol[n].hard.log, rn.raft.log;
    SyncedFacts(l, F, st, a.dur[n].log);
    LastIndexView(l, F);
    HardStateGrows(a, n, rn.raft, st);
    CycleCovered(rn, F, st, a.dur[n].log);
    forall e | e in l.entries && l.applied < e.index <= l.committed
      ensures e in Cycle(rn, st).value.rd.committedEntries
    {
      EntryAt(l, F, e);
      var from := Max(l.applied, l.snapIndex);
      assert F[from..l.committed][e.index - 1 - from] == e;
    }
  }

  lemma {:induction false} EntryAt(l: Log, F: seq<Entry>, e: Entry)
    requires LogView(l, F) && e in l.entries
    ensures l.snapIndex < e.index <= |F| && F[e.index - 1] == e
  {
    var k :| 0 <= k < |l.entries| && l.entries[k] == e;
    assert e == F[l.snapIndex + k];
  }

  /** Persisting compacts nothing that is not in the snapshot. */
  lemma {:induction false} CycleCovered(rn: RawNode, F: seq<Entry>, st: Store, D: seq<Entry>)
    requires Synced(rn.raft.log, F, st, D) && rn.prevHard == st.hardState && Cycle(rn, st).Done?
    requires HardStateOf(rn.raft) == EMPTY_HARD_STATE ==> st.hardState == EMPTY_HARD_STATE
    ensures Covered(st) ==> Covered(Cycle(rn, st).value.st)
  {
    hide Synced, LogView, StoreView, StoreAppend, UnstableEntries, NextEnts, Advance;
    var l, hs := rn.raft.log, HardStateOf(rn.raft);
    SyncedFacts(l, F, st, D);
    UnstableView(l, F);
    NextEntsView(l, F);
    assert st.(hardState := st.hardState) == st;
    if l.pending.Some? {
      PersistSnapshot(l, F, st, D, hs);
      var st1 := StoreApplySnapshot(st, l.pending.value).value;
      assert st1.(hardState := st.hardState) == st1;
      StoreNotEmpty(Cycle(rn, st).value.st, F);
    } else {
      PersistEntries(l, F, st, D, hs);
      StoreNotEmpty(Cycle(rn, st).value.st, F);
    }
  }
}
