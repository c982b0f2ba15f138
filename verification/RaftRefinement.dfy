/** Every run of the cluster is a run of the protocol. */
module RaftRefinement {
  import opened RaftTypes
  import opened RaftStore
  import opened RaftLogSpec
  import opened RaftNodeSpec
  import opened RawNodeSpec
  import opened RaftCoupling
  import opened RaftSimulation
  import opened RaftSimulation3
  import opened RaftSimulation4
  import opened RaftCluster
  import opened RaftCycle
  import opened RaftStepFacts
  import P = RaftProtocol
  import L = RaftProtocolProofs
  import D = RaftProtocolDurable

  // ------------------------------------------------------------------ coupling of a whole cluster

  /** What the node delivered is decided, in order, and reaches up to its applied index. */
  ghost predicate DeliveredOK(a: P.State, p: Peer) {
    && Covers(p.delivered, p.base, p.rn.raft.log.applied)
    && (forall k :: 0 <= k < |p.delivered| && p.delivered[k].Normal? ==> p.delivered[k].entry in p.history)
    && forall e :: e in p.history ==> 1 <= e.index <= |a.decided| && a.decided[e.index - 1] == e
  }

  ghost predicate PeerOK(a: P.State, n: NodeId, p: Peer) {
    && RaftOK(a, n, p.rn.raft, p.st)
    && p.rn.prevHard == p.st.hardState
    && (p.st.snapshot.nodes == {} || p.st.snapshot.nodes == a.ids)
    && DeliveredOK(a, p)
  }

  ghost predicate Couple(c: Cluster, a: P.State) {
    && a.ids == c.ids
    && c.peers.Keys == c.ids
    && (forall n :: n in c.ids ==> PeerOK(a, n, c.peers[n]))
    && (forall m :: m in c.net ==> MsgOK(a, NONE, m))
  }

  /** History variables never forget: what was decided, chosen or led stays so. Only in a one-node
      cluster can a term log disappear, with a reign that was never made durable. */
  ghost predicate Evolves(a: P.State, a': P.State) {
    && a'.ids == a.ids
    && Agree(a'.decided, a.decided, |a.decided|)
    && (forall term: nat, log, c: nat :: P.CommitOK(a, NONE, term, log, c) ==> P.CommitOK(a', NONE, term, log, c))
    && ((exists n :: a.ids == {n}) || KeepsReigns(a, a'))
  }

  ghost predicate KeepsReigns(a: P.State, a': P.State) {
    forall t :: t in a.tlog && t in a.owner ==>
      t in a'.tlog && t in a'.owner && a'.owner[t] == a.owner[t] && Agree(a'.tlog[t], a.tlog[t], |a.tlog[t]|)
  }

  // ------------------------------------------------------------------ steps of one node

  lemma {:induction false} ReachesEvolves(a: P.State, a': P.State, n: NodeId)
    requires P.InvTypes(a) && Reaches(a, a', n)
    ensures Evolves(a, a')
  {
    hide P.CommitOK;
    forall term: nat, log, c: nat | P.CommitOK(a, NONE, term, log, c)
      ensures P.CommitOK(a', NONE, term, log, c)
    {
      L.CommitFits(a, NONE, term, log, c);
      L.CommitGrows(a, a', n, NONE, term, term, log, log, c);
    }
  }

  lemma {:induction false} DeliveredStable(a: P.State, a': P.State, p: Peer, p': Peer)
    requires DeliveredOK(a, p) && Agree(a'.decided, a.decided, |a.decided|)
    requires p'.delivered == p.delivered && p'.base == p.base && p'.history == p.history
    requires p'.rn.raft.log.applied == p.rn.raft.log.applied
    ensures DeliveredOK(a', p')
  {
  }

  /** Replacing one peer after steps of that node alone. */
  lemma {:induction false} CoupleStep(c: Cluster, a: P.State, a': P.State, n: NodeId, p': Peer)
    requires P.Inv(a) && Couple(c, a) && n in c.ids && Reaches(a, a', n) && PeerOK(a', n, p')
    ensures Couple(c.(peers := c.peers[n := p']), a')
  {
    hide P.Inv, P.InvNodes, P.NodeOK, RaftCore, MsgOK, Reaches, RaftOK, DeliveredOK, P.InvTypes;
    Facts(a, n);
    NetOf(a, a', n);
    assert a'.decided == a.decided by { DecidedOf(a, a', n); }
    forall m | m in c.ids
      ensures PeerOK(a', m, c.peers[n := p'][m])
    {
      if m != n {
        assert PeerOK(a, m, c.peers[m]);
        OthersStable(a, a', n, m, c.peers[m].rn.raft, c.peers[m].st);
        DeliveredStable(a, a', c.peers[m], c.peers[m]);
      }
    }
    forall x | x in c.net
      ensures MsgOK(a', NONE, x)
    {
      MsgStable(a, a', n, NONE, x);
    }
  }

  lemma {:induction false} DecidedOf(a: P.State, a': P.State, n: NodeId)
    requires Reaches(a, a', n)
    ensures a'.decided == a.decided
  {
  }

  lemma {:induction false} PeerStore(a: P.State, n: NodeId, r: Raft, st: Store)
    requires RaftOK(a, n, r, st)
    ensures st.ents != [] && n in a.vol && n in a.dur
  {
  }

  /** A step of node `n` that ends in `r'`. */
  lemma {:induction false} PeerStep(c: Cluster, a: P.State, n: NodeId, r': Raft, m: Message) returns (a': P.State)
    requires P.Inv(a) && Couple(c, a) && n in c.ids && InputOK(a, n, m) && PeerAt(c, n).st.ents != []
    requires Step(PeerAt(c, n).rn.raft, PeerAt(c, n).st, m).Done?
    requires r' == AfterStep(Step(PeerAt(c, n).rn.raft, PeerAt(c, n).st, m), PeerAt(c, n).rn.raft)
    ensures P.Inv(a') && Evolves(a, a')
    ensures Couple(c.(peers := c.peers[n := PeerAt(c, n).(rn := PeerAt(c, n).rn.(raft := r'))]), a')
  {
    hide P.Inv, RaftOK, Reaches, Step, InputOK, MsgOK, Evolves, P.InvTypes, P.InvNodes, P.NodeOK;
    var p := c.peers[n];
    assert PeerOK(a, n, p);
    a' := SimStep(a, n, p.rn.raft, p.st, m);
    Facts(a, n);
    ReachesEvolves(a, a', n);
    StepApplied(p.rn.raft, p.st, m);
    NetOf(a, a', n);
    DecidedOf(a, a', n);
    DeliveredStable(a, a', p, p.(rn := p.rn.(raft := r')));
    CoupleStep(c, a, a', n, p.(rn := p.rn.(raft := r')));
  }

  lemma {:induction false} ReceiveStep(c: Cluster, a: P.State, n: NodeId, m: Message, c': Cluster) returns (a': P.State)
    requires P.Inv(a) && Couple(c, a) && NextAt(c, n, Receive(m), c')
    ensures P.Inv(a') && Couple(c', a') && Evolves(a, a')
  {
    hide P.Inv, Step, MsgOK, Evolves, PeerOK;
    var p := c.peers[n];
    if RawStep(p.rn, p.st, m).value == p.rn {
      a' := a;
      EvolvesRefl(a);
      assert c.peers[n := p.(rn := p.rn)] == c.peers;
    } else {
      a' := PeerStep(c, a, n, Step(p.rn.raft, p.st, m).value.raft, m);
    }
  }

  lemma {:induction false} EvolvesRefl(a: P.State)
    ensures Evolves(a, a)
  {
  }

  lemma {:induction false} RequestStep(c: Cluster, a: P.State, n: NodeId, m: Message, c': Cluster) returns (a': P.State)
    requires P.Inv(a) && Couple(c, a) && NextAt(c, n, Request(m), c')
    ensures P.Inv(a') && Couple(c', a') && Evolves(a, a')
  {
    hide P.Inv, Step, MsgOK, Evolves, PeerOK;
    var p := c.peers[n];
    a' := PeerStep(c, a, n, Step(p.rn.raft, p.st, m).value.raft, m);
  }

  // ------------------------------------------------------------------ Ready cycles

  lemma {:induction false} FlushEvolves(a: P.State, n: NodeId)
    requires P.Inv(a) && n in a.ids && n in a.vol
    ensures P.Inv(P.Flush(a, n)) && Evolves(a, P.Flush(a, n)) && D.Flushed(a, P.Flush(a, n), n)
  {
    hide P.Inv, P.CommitOK, P.InvTypes, P.InvNodes, P.NodeOK, P.Flush, Agree;
    Facts(a, n);
    var a' := P.Flush(a, n);
    D.FlushIsFlushed(a, n);
    D.FlushKeepsInv(a, n);
    assert n != NONE by { NotNone(a, n); }
    forall term: nat, log, c: nat | P.CommitOK(a, NONE, term, log, c)
      ensures P.CommitOK(a', NONE, term, log, c)
    {
      FlushedCommit(a, a', n, NONE, term, log, c);
    }
    assert KeepsReigns(a, a') by { SameReigns(a, a'); }
  }

  lemma {:induction false} SameReigns(a: P.State, a': P.State)
    requires a'.tlog == a.tlog && a'.owner == a.owner
    ensures KeepsReigns(a, a')
  {
  }

  lemma {:induction false} CycleDelivers(a: P.State, n: NodeId, p: Peer)
    requires P.Inv(a) && PeerOK(a, n, p) && p.st.ents != [] && n in a.vol
    ensures Cycle(p.rn, p.st).Done?
    ensures var done := Cycle(p.rn, p.st).value;
            DeliveredOK(P.Flush(a, n), Peer(done.rn, done.st, p.base, p.delivered + Deliveries(done.rd),
                                            p.history + Entries(done.rd.committedEntries)))
  {
    hide P.Inv, Cycle, P.Flush, Synced, P.InvNodes, P.NodeOK, RaftOK, P.InvTypes, Covers, Deliveries, Entries, Agree, FieldsOK, CycledOK;
    FieldsOf(a, n, p.rn.raft, p.st);
    Facts(a, n);
    CycledFacts(a, n, p.rn, p.st);
    D.FlushKeepsInv(a, n);
    var done := Cycle(p.rn, p.st).value;
    CycledDeliveries(a, n, p, done);
    CycledHistory(a, n, p.rn, p.st, done, P.Flush(a, n).decided);
    HistoryStable(a, P.Flush(a, n), p.history);
    DeliveriesRecorded(p.delivered, done.rd, p.history);
  }

  lemma {:induction false} HistoryStable(a: P.State, a': P.State, history: set<Entry>)
    requires forall e :: e in history ==> 1 <= e.index <= |a.decided| && a.decided[e.index - 1] == e
    requires Agree(a'.decided, a.decided, |a.decided|)
    ensures forall e :: e in history ==> 1 <= e.index <= |a'.decided| && a'.decided[e.index - 1] == e
  {
  }

  lemma {:induction false} DeliveriesRecorded(delivered: seq<Delivery>, rd: Ready, history: set<Entry>)
    requires forall k :: 0 <= k < |delivered| && delivered[k].Normal? ==> delivered[k].entry in history
    ensures var all := delivered + Deliveries(rd);
            forall k :: 0 <= k < |all| && all[k].Normal? ==> all[k].entry in history + Entries(rd.committedEntries)
  {
    var all, more := delivered + Deliveries(rd), Deliveries(rd);
    forall k | 0 <= k < |all| && all[k].Normal?
      ensures all[k].entry in history + Entries(rd.committedEntries)
    {
      if k >= |delivered| {
        var j := k - |delivered| - (if rd.snapshot.index != 0 then 1 else 0);
        assert all[k] == more[k - |delivered|] == Normal(rd.committedEntries[j]);
      }
    }
  }

  /** What a cycle hands out, in terms of the complete log. */
  ghost predicate CycledOK(a: P.State, n: NodeId, rn: RawNode, st: Store, done: Cycled) {
    && FieldsOK(a, n, rn.raft, st)
    && var F := a.vol[n].hard.log;
       var l := rn.raft.log;
       && done.rn.raft.log == Settled(l, F)
       && done.rd.snapshot == (if l.pending.Some? then l.pending.value else EMPTY_SNAPSHOT)
       && Max(l.applied, l.snapIndex) <= l.committed <= |F|
       && done.rd.committedEntries == F[Max(l.applied, l.snapIndex)..l.committed]
  }

  lemma {:induction false} CycledFacts(a: P.State, n: NodeId, rn: RawNode, st: Store)
    requires FieldsOK(a, n, rn.raft, st) && P.NodeOK(a, n) && rn.prevHard == st.hardState && st.ents != []
    ensures Cycle(rn, st).Done? && CycledOK(a, n, rn, st, Cycle(rn, st).value)
  {
    hide Cycle, Synced, P.NodeOK;
    CycleResult(a, n, rn, st);
  }

  lemma {:induction false} CycledDeliveries(a: P.State, n: NodeId, p: Peer, done: Cycled)
    requires CycledOK(a, n, p.rn, p.st, done) && DeliveredOK(a, p)
    ensures Covers(p.delivered + Deliveries(done.rd), p.base, done.rn.raft.log.applied)
  {
    hide Covers, Deliveries, Synced;
    var l := p.rn.raft.log;
    DeliveriesCover(l, a.vol[n].hard.log, p.st, a.dur[n].log, done.rd);
    CoversConcat(p.delivered, Deliveries(done.rd), p.base, l.applied, l.committed);
  }

  lemma {:induction false} CycledHistory(a: P.State, n: NodeId, rn: RawNode, st: Store, done: Cycled, decided: seq<Entry>)
    requires CycledOK(a, n, rn, st, done) && Agree(P.VolAt(a, n).hard.log, decided, P.VolAt(a, n).hard.commit)
    ensures forall e :: e in Entries(done.rd.committedEntries) ==> 1 <= e.index <= |decided| && decided[e.index - 1] == e
  {
    hide Synced;
    IndexesOf(a, n, rn.raft, st);
    var F, l := a.vol[n].hard.log, rn.raft.log;
    forall e | e in Entries(done.rd.committedEntries)
      ensures 1 <= e.index <= |decided| && decided[e.index - 1] == e
    {
      var k :| 0 <= k < |done.rd.committedEntries| && done.rd.committedEntries[k] == e;
      assert e == F[Max(l.applied, l.snapIndex) + k];
    }
  }

  lemma {:induction false} IndexesOf(a: P.State, n: NodeId, r: Raft, st: Store)
    requires FieldsOK(a, n, r, st)
    ensures forall k :: 0 <= k < |P.VolAt(a, n).hard.log| ==> P.VolAt(a, n).hard.log[k].index == k + 1
  {
  }

  /** The deliveries of one cycle lead from the applied to the committed index. */
  lemma {:induction false} DeliveriesCover(l: Log, F: seq<Entry>, st: Store, Dl: seq<Entry>, rd: Ready)
    requires Synced(l, F, st, Dl)
    requires rd.snapshot == (if l.pending.Some? then l.pending.value else EMPTY_SNAPSHOT)
    requires rd.committedEntries == F[Max(l.applied, l.snapIndex)..l.committed]
    ensures Covers(Deliveries(rd), l.applied, l.committed)
  {
    var from := Max(l.applied, l.snapIndex);
    NormalCovers(rd.committedEntries, from);
    var normal := NormalDeliveries(rd.committedEntries);
    if l.pending.Some? {
      assert Deliveries(rd)[1..] == normal;
    } else {
      assert Deliveries(rd) == normal;
    }
  }

  lemma {:induction false} CyclePeer(a: P.State, n: NodeId, p: Peer)
    requires P.Inv(a) && PeerOK(a, n, p) && p.st.ents != [] && n in a.vol
    ensures Cycle(p.rn, p.st).Done?
    ensures var done := Cycle(p.rn, p.st).value;
            && PeerOK(P.Flush(a, n), n, Peer(done.rn, done.st, p.base, p.delivered + Deliveries(done.rd),
                                             p.history + Entries(done.rd.committedEntries)))
            && forall m :: m in done.rd.messages ==> MsgOK(P.Flush(a, n), NONE, m)
  {
    hide P.Inv, RaftOK, MsgOK, Cycle, P.Flush, DeliveredOK, P.InvTypes, P.InvNodes, P.NodeOK;
    FieldsOf(a, n, p.rn.raft, p.st);
    Facts(a, n);
    SimCycle(a, n, p.rn, p.st);
    CycleDelivers(a, n, p);
    SnapshotNodesAfter(a, n, p);
    D.FlushIsFlushed(a, n);
    assert P.Flush(a, n).ids == a.ids by { D.FlushIsFlushed(a, n); }
  }

  lemma {:induction false} CycleOthers(c: Cluster, a: P.State, a': P.State, n: NodeId)
    requires P.Inv(a) && Couple(c, a) && n in a.ids && D.Flushed(a, a', n) && Agree(a'.decided, a.decided, |a.decided|)
    ensures forall m :: m in c.ids && m != n ==> PeerOK(a', m, PeerAt(c, m))
    ensures forall x :: x in c.net ==> MsgOK(a', NONE, x)
  {
    hide P.Inv, RaftOK, MsgOK, P.InvNodes, P.NodeOK, P.InvTypes, Agree;
    Facts(a, n);
    forall m | m in c.ids && m != n
      ensures PeerOK(a', m, c.peers[m])
    {
      assert PeerOK(a, m, c.peers[m]);
      OthersFlush(a, a', n, m, c.peers[m].rn.raft, c.peers[m].st);
      DeliveredStable(a, a', c.peers[m], c.peers[m]);
    }
    forall x | x in c.net
      ensures MsgOK(a', NONE, x)
    {
      assert n != NONE by { NotNone(a, n); }
      MsgFlush(a, a', n, NONE, x);
    }
  }

  lemma {:induction false} CycleStep(c: Cluster, a: P.State, n: NodeId, c': Cluster) returns (a': P.State)
    requires P.Inv(a) && Couple(c, a) && NextAt(c, n, RunCycle, c')
    ensures P.Inv(a') && Couple(c', a') && Evolves(a, a')
  {
    hide P.Inv, RaftOK, PeerOK, MsgOK, Cycle, P.Flush, KeepsReigns, P.CommitOK, Agree, Deliveries, Entries;
    var p := c.peers[n];
    assert PeerOK(a, n, p);
    assert n in a.vol by { Facts(a, n); }
    CyclePeer(a, n, p);
    FlushEvolves(a, n);
    a' := P.Flush(a, n);
    CycleOthers(c, a, a', n);
  }

  lemma {:induction false} SnapshotNodesAfter(a: P.State, n: NodeId, p: Peer)
    requires P.Inv(a) && PeerOK(a, n, p) && p.st.ents != []
    ensures Cycle(p.rn, p.st).Done?
    ensures var st := Cycle(p.rn, p.st).value.st; st.snapshot.nodes == {} || st.snapshot.nodes == a.ids
  {
    hide P.Inv, Cycle, Synced, P.InvNodes, P.NodeOK, P.InvTypes, VotesOK, ProgressesOK, OutboxOK;
    Facts(a, n);
    CycleResult(a, n, p.rn, p.st);
  }

  // ------------------------------------------------------------------ restart

  lemma {:induction false} CrashEvolves(a: P.State, n: NodeId)
    requires P.Inv(a) && n in a.ids && n in a.dur
    ensures P.Inv(P.Crash(a, n)) && Evolves(a, P.Crash(a, n)) && D.Crashed(a, P.Crash(a, n), n)
  {
    hide P.Inv, P.CommitOK, P.InvTypes, P.InvNodes, P.NodeOK, P.Crash, P.InvAcks;
    Facts(a, n);
    AcksOf(a);
    var a' := P.Crash(a, n);
    D.CrashIsCrashed(a, n);
    D.CrashKeepsInv(a, n);
    assert n != NONE by { NotNone(a, n); }
    forall term: nat, log, c: nat | P.CommitOK(a, NONE, term, log, c)
      ensures P.CommitOK(a', NONE, term, log, c)
    {
      D.CommitCrash(a, a', n, NONE, term, log, c);
    }
  }

  lemma {:induction false} AcksOf(a: P.State)
    requires P.Inv(a)
    ensures P.InvAcks(a)
  {
  }

  lemma {:induction false} RestartOthers(c: Cluster, a: P.State, a': P.State, n: NodeId)
    requires P.Inv(a) && Couple(c, a) && n in a.ids && D.Crashed(a, a', n)
    ensures forall m :: m in c.ids && m != n ==> PeerOK(a', m, PeerAt(c, m))
    ensures forall x :: x in c.net ==> MsgOK(a', NONE, x)
  {
    hide P.Inv, RaftOK, MsgOK, P.InvNodes, P.NodeOK, P.InvTypes, P.InvAcks;
    Facts(a, n);
    AcksOf(a);
    forall m | m in c.ids && m != n
      ensures PeerOK(a', m, c.peers[m])
    {
      assert PeerOK(a, m, c.peers[m]);
      OthersCrash(a, a', n, m, c.peers[m].rn.raft, c.peers[m].st);
      DeliveredStable(a, a', c.peers[m], c.peers[m]);
    }
    forall x | x in c.net
      ensures MsgOK(a', NONE, x)
    {
      assert n != NONE by { NotNone(a, n); }
      MsgCrash(a, a', n, NONE, x);
    }
  }

  lemma {:induction false} RestartStep(c: Cluster, a: P.State, n: NodeId, applied: nat, c': Cluster) returns (a': P.State)
    requires P.Inv(a) && Couple(c, a) && NextAt(c, n, Restart(applied), c')
    ensures P.Inv(a') && Couple(c', a') && Evolves(a, a')
  {
    hide P.Inv, RaftOK, PeerOK, MsgOK, NewRaft, P.Crash, KeepsReigns, P.CommitOK, Agree;
    var p := c.peers[n];
    assert PeerOK(a, n, p);
    assert n in a.dur by { Facts(a, n); }
    CrashEvolves(a, n);
    a' := P.Crash(a, n);
    RestartPeer(a, n, p, applied);
    RestartOthers(c, a, a', n);
  }

  lemma {:induction false} RestartPeer(a: P.State, n: NodeId, p: Peer, applied: nat)
    requires P.Inv(a) && PeerOK(a, n, p) && p.st.ents != [] && n in a.dur
    requires NewRaft(n, PeersArgument(a.ids, p.st), applied, p.st).Done?
    ensures var r := NewRaft(n, PeersArgument(a.ids, p.st), applied, p.st).value;
            PeerOK(P.Crash(a, n), n, Peer(NewRawNode(r), p.st, r.log.applied, [], p.history))
  {
    hide P.Inv, NewRaft, RaftOK, P.Crash, P.InvTypes, P.InvNodes, P.NodeOK;
    FieldsOf(a, n, p.rn.raft, p.st);
    SimRestart(a, n, p.st, PeersArgument(a.ids, p.st), applied, p.rn.raft);
    Facts(a, n);
    D.CrashIsCrashed(a, n);
  }

  lemma {:induction false} FieldsOf(a: P.State, n: NodeId, r: Raft, st: Store)
    requires RaftOK(a, n, r, st)
    ensures FieldsOK(a, n, r, st) && n in a.ids
  {
  }

  // ------------------------------------------------------------------ the store alone

  /** Replacing the store of one peer by an equivalent one. */
  lemma {:induction false} StoreStep(c: Cluster, a: P.State, n: NodeId, st': Store)
    requires Couple(c, a) && n in c.ids && RaftOK(a, n, PeerAt(c, n).rn.raft, st')
    requires st'.hardState == PeerAt(c, n).st.hardState && (st'.snapshot.nodes == {} || st'.snapshot.nodes == a.ids)
    ensures Couple(c.(peers := c.peers[n := PeerAt(c, n).(st := st')]), a)
  {
    hide RaftOK, MsgOK;
    assert PeerOK(a, n, c.peers[n]);
  }

  /** A leader that gives up a transfer after an election timeout. */
  lemma {:induction false} AbortStep(c: Cluster, a: P.State, n: NodeId, c': Cluster)
    requires Couple(c, a) && NextAt(c, n, AbortTransfer, c')
    ensures Couple(c', a)
  {
    hide RaftOK, MsgOK;
    var p := c.peers[n];
    assert PeerOK(a, n, p);
    CoreIgnores(a, n, p.rn.raft, p.st, p.rn.raft.lead, NONE, p.rn.raft.pendingConfIndex);
    assert p.rn.raft.(lead := p.rn.raft.lead, leadTransferee := NONE, pendingConfIndex := p.rn.raft.pendingConfIndex)
        == p.rn.raft.(leadTransferee := NONE);
  }

  lemma {:induction false} CompactStep(c: Cluster, a: P.State, n: NodeId, i: nat, c': Cluster)
    requires Couple(c, a) && NextAt(c, n, Compact(i), c')
    ensures Couple(c', a)
  {
    hide RaftOK, MsgOK;
    var p := c.peers[n];
    assert PeerOK(a, n, p);
    SimCompact(a, n, p.rn.raft, p.st, i);
    StoreStep(c, a, n, StoreCompact(p.st, i).value.value);
  }

  lemma {:induction false} SnapshotStep(c: Cluster, a: P.State, n: NodeId, i: nat, c': Cluster)
    requires Couple(c, a) && NextAt(c, n, TakeSnapshot(i), c')
    ensures Couple(c', a)
  {
    hide RaftOK, MsgOK;
    var p := c.peers[n];
    assert PeerOK(a, n, p);
    SimTakeSnapshot(a, n, p.rn.raft, p.st, i);
    StoreStep(c, a, n, StoreCreateSnapshot(p.st, i, Some(c.ids)).value.value);
  }

  // ------------------------------------------------------------------ runs

  /** Every action of the cluster is a run of the protocol. */
  lemma {:induction false} StepRefines(c: Cluster, a: P.State, n: NodeId, act: Action, c': Cluster) returns (a': P.State)
    requires P.Inv(a) && Couple(c, a) && NextAt(c, n, act, c')
    ensures P.Inv(a') && Couple(c', a') && Evolves(a, a')
  {
    hide P.Inv, Couple, NextAt, Evolves;
    match act
    case Receive(m) => a' := ReceiveStep(c, a, n, m, c');
    case Request(m) => a' := RequestStep(c, a, n, m, c');
    case RunCycle => a' := CycleStep(c, a, n, c');
    case AbortTransfer => a' := a; EvolvesRefl(a); AbortStep(c, a, n, c');
    case Compact(i) => a' := a; EvolvesRefl(a); CompactStep(c, a, n, i, c');
    case TakeSnapshot(i) => a' := a; EvolvesRefl(a); SnapshotStep(c, a, n, i, c');
    case Restart(applied) => a' := RestartStep(c, a, n, applied, c');
  }

  lemma {:induction false} InitCouples(c: Cluster)
    requires Init(c)
    ensures P.Inv(P.Init(c.ids)) && Couple(c, P.Init(c.ids))
  {
    hide P.Inv, RaftOK, NewRaft;
    D.InitInv(c.ids);
    forall n | n in c.ids
      ensures PeerOK(P.Init(c.ids), n, c.peers[n])
    {
      SimStart(c.ids, n);
    }
  }

  /** A run of the protocol that follows a run of the cluster, state by state. */
  ghost predicate Follows(run: seq<Cluster>, trace: seq<P.State>) {
    && |trace| == |run|
    && (forall i :: 0 <= i < |run| ==> P.Inv(trace[i]) && Couple(run[i], trace[i]))
    && (forall i :: 0 < i < |run| ==> Evolves(trace[i - 1], trace[i]))
  }

  lemma {:induction false} RunFollows(run: seq<Cluster>) returns (trace: seq<P.State>)
    requires Run(run)
    ensures Follows(run, trace)
    decreases |run|
  {
    hide P.Inv, Couple, Evolves, Next, Init;
    if |run| == 1 {
      InitCouples(run[0]);
      trace := [P.Init(run[0].ids)];
    } else {
      var k := |run| - 1;
      var before := RunFollows(run[..k]);
      assert Next(run[k - 1], run[k]);
      var a := NextRefines(run[k - 1], before[k - 1], run[k]);
      trace := before + [a];
      forall i | 0 < i < |run|
        ensures Evolves(trace[i - 1], trace[i])
      {
        if i < k {
          assert Evolves(before[i - 1], before[i]);
        }
      }
    }
  }

  lemma {:induction false} NextRefines(c: Cluster, a: P.State, c': Cluster) returns (a': P.State)
    requires P.Inv(a) && Couple(c, a) && Next(c, c')
    ensures P.Inv(a') && Couple(c', a') && Evolves(a, a')
  {
    hide P.Inv, Couple, NextAt, Evolves;
    var n, act :| NextAt(c, n, act, c');
    a' := StepRefines(c, a, n, act, c');
  }

  lemma {:induction false} EvolvesTrans(a: P.State, b: P.State, c: P.State)
    requires Evolves(a, b) && Evolves(b, c)
    ensures Evolves(a, c)
  {
    hide P.CommitOK, Agree;
    AgreeTrans(a.decided, b.decided, c.decided);
    if !(exists n :: a.ids == {n}) {
      forall t | t in a.tlog && t in a.owner
        ensures t in c.tlog && t in c.owner && c.owner[t] == a.owner[t] && Agree(c.tlog[t], a.tlog[t], |a.tlog[t]|)
      {
        AgreeTrans(a.tlog[t], b.tlog[t], c.tlog[t]);
      }
    }
  }

  lemma {:induction false} EvolvesOver(run: seq<Cluster>, trace: seq<P.State>, i: nat, j: nat)
    requires Follows(run, trace) && i <= j < |run|
    ensures Evolves(trace[i], trace[j])
    decreases j - i
  {
    hide P.Inv, Couple, Evolves;
    if i == j {
      EvolvesRefl(trace[i]);
    } else {
      EvolvesOver(run, trace, i, j - 1);
      EvolvesTrans(trace[i], trace[j - 1], trace[j]);
    }
  }
}
