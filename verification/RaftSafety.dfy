/** The promises of the Raft library, for every run of a cluster: elections, logs, commitment, delivery. */
module RaftSafety {
  import opened RaftTypes
  import opened RaftStore
  import opened RaftLogSpec
  import opened RaftNodeSpec
  import opened RawNodeSpec
  import opened RaftCoupling
  import opened RaftSimulation
  import opened RaftSimulation2
  import opened RaftCluster
  import opened RaftCycle
  import opened RaftRefinement
  import P = RaftProtocol
  import L = RaftProtocolProofs

  // ------------------------------------------------------------------ state machine safety

  lemma {:induction false} HistoryDecided(c: Cluster, a: P.State, n: NodeId, e: Entry)
    requires Couple(c, a) && n in c.ids && n in c.peers && e in PeerAt(c, n).history
    ensures 1 <= e.index <= |a.decided| && a.decided[e.index - 1] == e
  {
    hide RaftOK, MsgOK, Covers;
    assert PeerOK(a, n, c.peers[n]);
  }

  /** State machine safety: no two nodes, at no two moments of a run, however often they crashed in
      between, deliver different entries for the same index. */
  lemma {:induction false} StateMachineSafety(run: seq<Cluster>, i: nat, j: nat, n: NodeId, m: NodeId, e: Entry, f: Entry)
    requires Run(run) && i < |run| && j < |run| && n in run[i].peers && m in run[j].peers
    requires e in run[i].peers[n].history && f in run[j].peers[m].history && e.index == f.index
    ensures e == f
  {
    hide P.Inv, Couple, Evolves;
    var trace := RunFollows(run);
    PeersAreNodes(run[i], trace[i]);
    PeersAreNodes(run[j], trace[j]);
    HistoryDecided(run[i], trace[i], n, e);
    HistoryDecided(run[j], trace[j], m, f);
    if i <= j {
      EvolvesOver(run, trace, i, j);
      DecidedGrows(trace[i], trace[j], e.index);
    } else {
      EvolvesOver(run, trace, j, i);
      DecidedGrows(trace[j], trace[i], e.index);
    }
  }

  lemma {:induction false} PeersAreNodes(c: Cluster, a: P.State)
    requires Couple(c, a)
    ensures c.peers.Keys == c.ids == a.ids
  {
  }

  lemma {:induction false} DecidedGrows(a: P.State, a': P.State, i: nat)
    requires Evolves(a, a') && 1 <= i <= |a.decided|
    ensures i <= |a'.decided| && a'.decided[i - 1] == a.decided[i - 1]
  {
    hide P.CommitOK;
  }

  lemma {:induction false} CommitsComparable(a: P.State, n: NodeId, t: nat, F: seq<Entry>, c: nat, m: NodeId, u: nat, G: seq<Entry>, d: nat, k: nat)
    requires P.InvLeaders(a) && P.CommitOK(a, n, t, F, c) && P.CommitOK(a, m, u, G, d) && k < c && k < d
    ensures k < |F| && k < |G| && F[k] == G[k]
  {
    hide P.InvLeaders, P.AllCounted, Quorum;
    var t1: nat, i1: nat :| t1 <= t && c <= i1 && P.Chosen(a, n, t1, i1) && Agree(F, a.tlog[t1], c);
    var t2: nat, i2: nat :| t2 <= u && d <= i2 && P.Chosen(a, m, t2, i2) && Agree(G, a.tlog[t2], d);
    L.ChosenComparable(a, n, t1, i1, m, t2, i2);
  }

  /** What two nodes count as committed agrees on every index both retain, made durable or not: at one
      moment in every cluster, and at any two moments of a run in every cluster of more than one node. */
  lemma {:induction false} CommittedAgree(run: seq<Cluster>, i: nat, j: nat, n: NodeId, m: NodeId, x: nat, y: nat)
    requires Run(run) && i <= j < |run| && (i == j || |run[0].ids| > 1) && n in run[i].peers && m in run[j].peers
    requires x < |run[i].peers[n].rn.raft.log.entries| && y < |run[j].peers[m].rn.raft.log.entries|
    requires run[i].peers[n].rn.raft.log.entries[x].index <= run[i].peers[n].rn.raft.log.committed
    requires run[j].peers[m].rn.raft.log.entries[y].index <= run[j].peers[m].rn.raft.log.committed
    requires run[i].peers[n].rn.raft.log.entries[x].index == run[j].peers[m].rn.raft.log.entries[y].index
    ensures run[i].peers[n].rn.raft.log.entries[x] == run[j].peers[m].rn.raft.log.entries[y]
  {
    hide P.Inv, Evolves, Couple, P.CommitOK, P.InvLeaders, Next, Init;
    var trace := RunFollows(run);
    var a := trace[j];
    var F := CommittedLater(run, trace, i, j, n);
    PeerView(run[i], trace[i], n);
    PeerView(run[j], a, m);
    assert P.InvLeaders(a) by { LeadersOf(a); }
    CommittedOf(run[j], a, m);
    var h, G := trace[i].vol[n].hard, a.vol[m].hard;
    var k := run[i].peers[n].rn.raft.log.entries[x].index - 1;
    CommitsComparable(a, F, h.term, h.log, h.commit, m, G.term, G.log, G.commit, k);
  }

  /** What a node counts as committed stays committed; `who` is the node itself or, later on, everybody. */
  lemma {:induction false} CommittedLater(run: seq<Cluster>, trace: seq<P.State>, i: nat, j: nat, n: NodeId) returns (who: NodeId)
    requires Follows(run, trace) && i <= j < |run| && (i == j || |run[0].ids| > 1) && n in run[i].peers
    ensures n in trace[i].vol && run[i].peers[n].rn.raft.log.committed == trace[i].vol[n].hard.commit
    ensures var h := trace[i].vol[n].hard; P.CommitOK(trace[j], who, h.term, h.log, h.commit)
  {
    hide P.Inv, Couple, P.CommitOK, KeepsReigns;
    CommittedOf(run[i], trace[i], n);
    who := n;
    if i < j {
      who := NONE;
      EvolvesOver(run, trace, 0, i);
      PeersAreNodes(run[0], trace[0]);
      PeersAreNodes(run[i], trace[i]);
      NotAlone(trace[i].ids);
      CommitForAll(trace[i], n);
      EvolvesOver(run, trace, i, j);
    }
  }

  lemma {:induction false} LeadersOf(a: P.State)
    requires P.Inv(a)
    ensures P.InvLeaders(a)
  {
  }

  lemma {:induction false} CommittedOf(c: Cluster, a: P.State, n: NodeId)
    requires P.Inv(a) && Couple(c, a) && n in c.peers
    ensures n in a.vol && PeerAt(c, n).rn.raft.log.committed == P.VolAt(a, n).hard.commit
    ensures P.CommitOK(a, n, P.VolAt(a, n).hard.term, P.VolAt(a, n).hard.log, P.VolAt(a, n).hard.commit)
  {
    hide P.Inv, MsgOK, P.CommitOK, P.InvNodes, P.NodeOK;
    assert PeerOK(a, n, c.peers[n]);
    NodeCommit(a, n);
  }

  /** What any two stores count as committed agrees, at any two moments of a run. */
  lemma {:induction false} DurableCommitsAgree(run: seq<Cluster>, i: nat, j: nat, n: NodeId, m: NodeId, x: nat, y: nat)
    requires Run(run) && i <= j < |run| && n in run[i].peers && m in run[j].peers
    requires 1 <= x < |run[i].peers[n].st.ents| && 1 <= y < |run[j].peers[m].st.ents|
    requires run[i].peers[n].st.ents[x].index == run[j].peers[m].st.ents[y].index
    requires run[i].peers[n].st.ents[x].index <= run[i].peers[n].st.hardState.commit
    requires run[j].peers[m].st.ents[y].index <= run[j].peers[m].st.hardState.commit
    ensures run[i].peers[n].st.ents[x] == run[j].peers[m].st.ents[y]
  {
    hide P.Inv, Evolves, Couple;
    var trace := RunFollows(run);
    EvolvesOver(run, trace, i, j);
    StoredDecided(run[i], trace[i], n, x);
    StoredDecided(run[j], trace[j], m, y);
    DecidedGrows(trace[i], trace[j], run[i].peers[n].st.ents[x].index);
  }

  lemma {:induction false} StoredDecided(c: Cluster, a: P.State, n: NodeId, x: nat)
    requires P.Inv(a) && Couple(c, a) && n in c.peers && 1 <= x < |PeerAt(c, n).st.ents|
    requires PeerAt(c, n).st.ents[x].index <= PeerAt(c, n).st.hardState.commit
    ensures var e := PeerAt(c, n).st.ents[x]; 1 <= e.index <= |a.decided| && a.decided[e.index - 1] == e
  {
    hide P.Inv, RaftCore, MsgOK;
    assert PeerOK(a, n, c.peers[n]);
    DurableDecided(a, n);
    DurableView(a, n, c.peers[n].rn.raft, c.peers[n].st);
    var st := c.peers[n].st;
    assert st.ents[x] == a.dur[n].log[st.ents[0].index + x - 1];
  }

  lemma {:induction false} DurableDecided(a: P.State, n: NodeId)
    requires P.Inv(a) && n in a.ids
    ensures n in a.dur && Agree(P.DurAt(a, n).log, a.decided, P.DurAt(a, n).commit)
  {
    assert P.NodeCommitOK(a, n);
  }

  lemma {:induction false} DurableView(a: P.State, n: NodeId, r: Raft, st: Store)
    requires RaftOK(a, n, r, st)
    ensures n in a.dur && StoreView(st, P.DurAt(a, n).log)
    ensures st.hardState.term == P.DurAt(a, n).term && st.hardState.commit == P.DurAt(a, n).commit
  {
  }

  lemma {:induction false} CoveredIndex(ds: seq<Delivery>, from: nat, to: nat, k: nat)
    requires Covers(ds, from, to) && k < |ds| && ds[k].Normal?
    ensures from < ds[k].entry.index <= to
    decreases |ds|
  {
    var next := if ds[0].Normal? then from + 1 else ds[0].index;
    CoversForward(ds[1..], next, to);
    if k > 0 {
      assert ds[1..][k - 1] == ds[k];
      CoveredIndex(ds[1..], next, to, k - 1);
    }
  }

  lemma {:induction false} CoversForward(ds: seq<Delivery>, from: nat, to: nat)
    requires Covers(ds, from, to)
    ensures from <= to
    decreases |ds|
  {
    if ds != [] {
      CoversForward(ds[1..], if ds[0].Normal? then from + 1 else ds[0].index, to);
    }
  }

  /** The log in memory holds every decided entry up to the applied index. */
  lemma {:induction false} AppliedDecided(c: Cluster, a: P.State, n: NodeId, e: Entry)
    requires P.Inv(a) && Couple(c, a) && n in c.peers && 1 <= e.index <= PeerAt(c, n).rn.raft.log.applied
    requires e.index <= |a.decided| && a.decided[e.index - 1] == e
    ensures HoldsEntry(PeerAt(c, n).rn.raft.log, e)
  {
    hide P.Inv, Couple, P.CommitOK, P.InvLeaders, HoldsEntry;
    PeerView(c, a, n);
    CommittedOf(c, a, n);
    StoredCommit(c, a, n);
    AppliedDurable(c, a, n);
    DurableDecided(a, n) by { PeersAreNodes(c, a); }
    LeadersOf(a);
    var h, d := a.vol[n].hard, a.dur[n];
    CommitsComparable(a, n, h.term, h.log, h.commit, NONE, d.term, d.log, d.commit, e.index - 1);
    ViewHolds(c.peers[n].rn.raft.log, h.log, e);
  }

  lemma {:induction false} AppliedDurable(c: Cluster, a: P.State, n: NodeId)
    requires Couple(c, a) && n in c.peers
    ensures n in a.dur && n in a.vol && PeerAt(c, n).rn.raft.log.applied <= P.DurAt(a, n).commit <= P.VolAt(a, n).hard.commit
    ensures PeerAt(c, n).st.hardState.commit == P.DurAt(a, n).commit
  {
    hide MsgOK, Covers, VotesOK, ProgressesOK, OutboxOK;
    var p := c.peers[n];
    assert PeerOK(a, n, p);
    SyncedFacts(p.rn.raft.log, a.vol[n].hard.log, p.st, a.dur[n].log);
  }

  /** Exactly once, in order: since its last start a node has delivered every index from where it started
      up to its applied index, once each and in order, with jumps only where a snapshot was installed. Each
      delivered entry is recorded in its history, which never disagrees with another node's, and is the
      entry of its log. */
  lemma {:induction false} DeliveryInOrder(run: seq<Cluster>, i: nat, n: NodeId)
    requires Run(run) && i < |run| && n in run[i].peers
    ensures var p := run[i].peers[n];
            && Covers(p.delivered, p.base, p.rn.raft.log.applied)
            && forall k :: 0 <= k < |p.delivered| && p.delivered[k].Normal? ==>
                 p.delivered[k].entry in p.history && HoldsEntry(p.rn.raft.log, p.delivered[k].entry)
  {
    hide P.Inv, Evolves, RaftOK, MsgOK, HoldsEntry, Covers, Next, Init;
    var trace := RunFollows(run);
    var p := run[i].peers[n];
    assert PeerOK(trace[i], n, p);
    forall k | 0 <= k < |p.delivered| && p.delivered[k].Normal?
      ensures HoldsEntry(p.rn.raft.log, p.delivered[k].entry)
    {
      CoveredIndex(p.delivered, p.base, p.rn.raft.log.applied, k);
      AppliedDecided(run[i], trace[i], n, p.delivered[k].entry);
    }
  }

  // ------------------------------------------------------------------ election safety

  lemma {:induction false} LeaderOwns(c: Cluster, a: P.State, n: NodeId)
    requires P.Inv(a) && Couple(c, a) && n in c.peers && PeerAt(c, n).rn.raft.state == StateLeader
    ensures var t := PeerAt(c, n).rn.raft.term; t in a.tlog && t in a.owner && a.owner[t] == n
  {
    hide P.Inv, MsgOK;
    assert PeerOK(a, n, c.peers[n]);
    Facts(a, n);
  }

  /** Election safety: over a whole run, at most one node ever leads in a given term. */
  lemma {:induction false} ElectionSafety(run: seq<Cluster>, i: nat, j: nat, n: NodeId, m: NodeId)
    requires Run(run) && i <= j < |run| && n in run[i].peers && m in run[j].peers
    requires run[i].peers[n].rn.raft.state == StateLeader && run[j].peers[m].rn.raft.state == StateLeader
    requires run[i].peers[n].rn.raft.term == run[j].peers[m].rn.raft.term
    ensures n == m
  {
    hide P.Inv, Couple;
    var trace := RunFollows(run);
    PeersAreNodes(run[i], trace[i]);
    PeersAreNodes(run[j], trace[j]);
    EvolvesOver(run, trace, i, j);
    LeaderOwns(run[i], trace[i], n);
    LeaderOwns(run[j], trace[j], m);
  }

  // ------------------------------------------------------------------ log matching

  /** A stretch of log entries found somewhere in the cluster: in a node's memory, in its store, or in
      an append message that is queued or in the network. */
  ghost predicate Fragment(c: Cluster, s: seq<Entry>) {
    || (exists n :: n in c.peers && s == c.peers[n].rn.raft.log.entries)
    || (exists n :: n in c.peers && c.peers[n].st.ents != [] && s == c.peers[n].st.ents[1..])
    || (exists m :: m in c.net && m.MsgAppend? && s == m.ents)
    || (exists n, m :: n in c.peers && m in c.peers[n].rn.raft.msgs && m.MsgAppend? && s == m.ents)
  }

  /** `s` is the stretch of the rooted log `F` that follows position `k`. */
  ghost predicate Stretch(a: P.State, F: seq<Entry>, k: nat, s: seq<Entry>) {
    && P.Rooted(a, F)
    && (forall x :: 0 <= x < |F| ==> F[x].index == x + 1)
    && k + |s| <= |F|
    && forall x :: 0 <= x < |s| ==> s[x] == F[k + x]
  }

  lemma {:induction false} AppendStretch(a: P.State, who: NodeId, m: Message) returns (F: seq<Entry>, k: nat)
    requires P.Inv(a) && MsgOK(a, who, m) && m.MsgAppend?
    ensures Stretch(a, F, k, m.ents)
  {
    hide P.CommitOK, P.Rooted, P.Inv;
    L.TermRooted(a, m.term);
    F, k := a.tlog[m.term], m.index;
  }

  lemma {:induction false} MemoryStretch(a: P.State, n: NodeId, r: Raft, st: Store) returns (F: seq<Entry>, k: nat)
    requires P.Inv(a) && RaftOK(a, n, r, st)
    ensures Stretch(a, F, k, r.log.entries)
  {
    hide P.Inv, P.Rooted, P.Shaped, OutboxOK, ProgressesOK, VotesOK;
    Facts(a, n);
    F, k := a.vol[n].hard.log, r.log.snapIndex;
  }

  lemma {:induction false} StoreStretch(a: P.State, n: NodeId, r: Raft, st: Store) returns (F: seq<Entry>, k: nat)
    requires P.Inv(a) && RaftOK(a, n, r, st) && st.ents != []
    ensures Stretch(a, F, k, st.ents[1..])
  {
    hide P.Inv, P.Rooted, P.Shaped, OutboxOK, ProgressesOK, VotesOK;
    Facts(a, n);
    F, k := a.dur[n].log, st.ents[0].index;
  }

  /** Every fragment is a stretch of some rooted log. */
  lemma {:induction false} FragmentStretch(c: Cluster, a: P.State, s: seq<Entry>) returns (F: seq<Entry>, k: nat)
    requires P.Inv(a) && Couple(c, a) && Fragment(c, s)
    ensures Stretch(a, F, k, s)
  {
    hide P.Inv, MsgOK, RaftOK, Stretch;
    if n :| n in c.peers && s == c.peers[n].rn.raft.log.entries {
      assert PeerOK(a, n, c.peers[n]);
      F, k := MemoryStretch(a, n, c.peers[n].rn.raft, c.peers[n].st);
    } else if n :| n in c.peers && c.peers[n].st.ents != [] && s == c.peers[n].st.ents[1..] {
      assert PeerOK(a, n, c.peers[n]);
      F, k := StoreStretch(a, n, c.peers[n].rn.raft, c.peers[n].st);
    } else if m :| m in c.net && m.MsgAppend? && s == m.ents {
      F, k := AppendStretch(a, NONE, m);
    } else {
      var n, m :| n in c.peers && m in c.peers[n].rn.raft.msgs && m.MsgAppend? && s == m.ents;
      assert PeerOK(a, n, c.peers[n]);
      QueuedOK(a, n, c.peers[n].rn.raft, c.peers[n].st, m);
      F, k := AppendStretch(a, n, m);
    }
  }

  lemma {:induction false} QueuedOK(a: P.State, n: NodeId, r: Raft, st: Store, m: Message)
    requires RaftOK(a, n, r, st) && m in r.msgs
    ensures MsgOK(a, n, m)
  {
  }

  lemma {:induction false} StretchLater(a: P.State, a': P.State, F: seq<Entry>, k: nat, s: seq<Entry>)
    requires P.InvTypes(a) && KeepsReigns(a, a') && Stretch(a, F, k, s)
    ensures Stretch(a', F, k, s)
  {
    forall x | 0 <= x < |F|
      ensures F[x].term in a'.tlog && Agree(F, a'.tlog[F[x].term], x + 1)
    {
      assert Agree(F, a.tlog[F[x].term], x + 1);
    }
  }

  lemma {:induction false} StretchesMatch(a: P.State, F: seq<Entry>, k: nat, s: seq<Entry>, G: seq<Entry>, l: nat, u: seq<Entry>, x: nat, y: nat, d: nat)
    requires Stretch(a, F, k, s) && Stretch(a, G, l, u)
    requires x < |s| && y < |u| && s[x].index == u[y].index && s[x].term == u[y].term && d <= x && d <= y
    ensures s[x - d] == u[y - d]
  {
    hide P.Rooted;
    assert s[x] == F[k + x] && u[y] == G[l + y];
    L.SameTermSamePrefix(a, F, G, k + x + 1);
    assert s[x - d] == F[k + x - d] && u[y - d] == G[l + y - d];
  }

  /** Log matching: wherever two stretches of log have an entry with the same index and term, they are
      equal from there backwards. At one moment this holds in every cluster; across two moments of a run
      it holds in every cluster of more than one node. */
  lemma {:induction false} LogMatching(run: seq<Cluster>, i: nat, j: nat, s: seq<Entry>, u: seq<Entry>, x: nat, y: nat, d: nat)
    requires Run(run) && i <= j < |run| && (i == j || |run[0].ids| > 1)
    requires Fragment(run[i], s) && Fragment(run[j], u)
    requires x < |s| && y < |u| && s[x].index == u[y].index && s[x].term == u[y].term && d <= x && d <= y
    ensures s[x - d] == u[y - d]
  {
    hide P.Inv, Couple, Evolves, Fragment, Stretch, P.InvTypes;
    var trace := RunFollows(run);
    var F, k := FragmentStretch(run[i], trace[i], s);
    var G, l := FragmentStretch(run[j], trace[j], u);
    if i < j {
      EvolvesOver(run, trace, 0, i);
      EvolvesOver(run, trace, i, j);
      ManyKeepReigns(run, trace, i, j);
      TypesOf(trace[i]);
      StretchLater(trace[i], trace[j], F, k, s);
    }
    StretchesMatch(trace[j], F, k, s, G, l, u, x, y, d);
  }

  lemma {:induction false} TypesOf(a: P.State)
    requires P.Inv(a)
    ensures P.InvTypes(a)
  {
  }

  lemma {:induction false} ManyKeepReigns(run: seq<Cluster>, trace: seq<P.State>, i: nat, j: nat)
    requires Follows(run, trace) && i < j < |run| && |run[0].ids| > 1
    requires Evolves(trace[0], trace[i]) && Evolves(trace[i], trace[j])
    ensures KeepsReigns(trace[i], trace[j])
  {
    hide P.Inv, P.CommitOK, KeepsReigns, Couple, Agree;
    PeersAreNodes(run[0], trace[0]);
    NotAlone(trace[i].ids);
  }

  lemma {:induction false} NotAlone(ids: set<NodeId>)
    requires |ids| > 1
    ensures !exists n :: ids == {n}
  {
    forall n
      ensures ids != {n}
    {
      assert |{n}| == 1;
    }
  }

  // ------------------------------------------------------------------ leader completeness

  lemma {:induction false} StoredCommit(c: Cluster, a: P.State, n: NodeId)
    requires P.Inv(a) && Couple(c, a) && n in c.peers
    ensures n in a.dur && PeerAt(c, n).st.hardState.term == P.DurAt(a, n).term
    ensures P.CommitOK(a, NONE, P.DurAt(a, n).term, P.DurAt(a, n).log, PeerAt(c, n).st.hardState.commit)
    ensures StoreView(PeerAt(c, n).st, P.DurAt(a, n).log)
  {
    hide P.Inv, P.CommitOK, MsgOK, RaftCore;
    assert PeerOK(a, n, c.peers[n]);
    DurableCommit(a, n);
    DurableView(a, n, c.peers[n].rn.raft, c.peers[n].st);
  }

  lemma {:induction false} DurableCommit(a: P.State, n: NodeId)
    requires P.Inv(a) && n in a.ids
    ensures n in a.dur && P.CommitOK(a, NONE, P.DurAt(a, n).term, P.DurAt(a, n).log, P.DurAt(a, n).commit)
  {
    hide P.CommitOK;
    assert P.NodeCommitOK(a, n);
  }

  /** The log holds `e`: it retains it, or it has compacted it away after reaching its index. */
  predicate HoldsEntry(l: Log, e: Entry) {
    && e.index <= LastIndex(l)
    && (l.offset <= e.index ==> e.index - l.offset < |l.entries| && l.entries[e.index - l.offset] == e)
    && (l.snapIndex == e.index ==> l.snapTerm == e.term)
  }

  lemma {:induction false} ViewHolds(l: Log, F: seq<Entry>, e: Entry)
    requires LogView(l, F) && 1 <= e.index <= |F| && F[e.index - 1] == e
    ensures HoldsEntry(l, e)
  {
    LastIndexView(l, F);
  }

  lemma {:induction false} LeaderLogView(c: Cluster, a: P.State, m: NodeId)
    requires P.Inv(a) && Couple(c, a) && m in c.peers && PeerAt(c, m).rn.raft.state == StateLeader
    ensures PeerAt(c, m).rn.raft.term in a.tlog && LogView(PeerAt(c, m).rn.raft.log, P.TlogAt(a, PeerAt(c, m).rn.raft.term))
  {
    hide P.Inv, MsgOK;
    assert PeerOK(a, m, c.peers[m]);
    Facts(a, m);
  }

  /** Leader completeness: an entry some node counts as committed in term t, made durable or not, is in the
      log of every leader of term t or later: at that moment in every cluster, and at every later moment of
      the run in every cluster of more than one node. */
  lemma {:induction false} LeaderCompleteness(run: seq<Cluster>, i: nat, j: nat, n: NodeId, m: NodeId, k: nat)
    requires Run(run) && i <= j < |run| && (i == j || |run[0].ids| > 1) && n in run[i].peers && m in run[j].peers
    requires run[j].peers[m].rn.raft.state == StateLeader
    requires run[i].peers[n].rn.raft.term <= run[j].peers[m].rn.raft.term
    requires k < |run[i].peers[n].rn.raft.log.entries|
    requires run[i].peers[n].rn.raft.log.entries[k].index <= run[i].peers[n].rn.raft.log.committed
    ensures HoldsEntry(run[j].peers[m].rn.raft.log, run[i].peers[n].rn.raft.log.entries[k])
  {
    hide P.Inv, Couple, P.CommitOK, HoldsEntry, Evolves, Next, Init;
    var trace := RunFollows(run);
    var who := CommittedLater(run, trace, i, j, n);
    PeerView(run[i], trace[i], n);
    LeaderLogView(run[j], trace[j], m);
    var h, u := trace[i].vol[n].hard, run[j].peers[m].rn.raft.term;
    CommitInLeader(trace[j], who, h.term, h.log, h.commit, u);
    ViewHolds(run[j].peers[m].rn.raft.log, trace[j].tlog[u], run[i].peers[n].rn.raft.log.entries[k]);
  }

  /** In a cluster of any size, what has been made durable as committed is in the log of every leader of
      that or a later term from then on. */
  lemma {:induction false} DurableCompleteness(run: seq<Cluster>, i: nat, j: nat, n: NodeId, m: NodeId, k: nat)
    requires Run(run) && i <= j < |run| && n in run[i].peers && m in run[j].peers
    requires run[j].peers[m].rn.raft.state == StateLeader
    requires run[i].peers[n].st.hardState.term <= run[j].peers[m].rn.raft.term
    requires 1 <= k < |run[i].peers[n].st.ents| && run[i].peers[n].st.ents[k].index <= run[i].peers[n].st.hardState.commit
    ensures HoldsEntry(run[j].peers[m].rn.raft.log, run[i].peers[n].st.ents[k])
  {
    hide P.Inv, Couple, P.CommitOK, LogView, HoldsEntry, KeepsReigns;
    var trace := RunFollows(run);
    EvolvesOver(run, trace, i, j);
    var a, a' := trace[i], trace[j];
    StoredCommit(run[i], a, n);
    LeaderLogView(run[j], a', m);
    var st, l := run[i].peers[n].st, run[j].peers[m].rn.raft.log;
    var F := a'.tlog[run[j].peers[m].rn.raft.term];
    CommitInLeader(a', NONE, st.hardState.term, a.dur[n].log, st.hardState.commit, run[j].peers[m].rn.raft.term);
    ViewHolds(l, F, st.ents[k]);
  }

  lemma {:induction false} CommitInLeader(a: P.State, who: NodeId, term: nat, log: seq<Entry>, c: nat, u: nat)
    requires P.Inv(a) && P.CommitOK(a, who, term, log, c) && term <= u && u in a.tlog
    ensures Agree(log, P.TlogAt(a, u), c)
  {
    L.CommittedInLeader(a, who, term, log, c, u);
  }

  // ------------------------------------------------------------------ truthful progress

  /** What an acknowledgement that the leader counts says about the log of its sender, in memory and, if the
      sender is another node, in its store. */
  lemma {:induction false} CountedAgrees(a: P.State, n: NodeId, m: NodeId, t: nat, x: nat, y: nat)
    requires P.Inv(a) && P.Counted(a, n, m, t, x) && y <= x
    ensures t in a.tlog && m in a.vol && m in a.dur
    ensures P.VolAt(a, m).hard.term == t || P.CommitOK(a, n, t, P.TlogAt(a, t), y) ==> Agree(P.VolAt(a, m).hard.log, P.TlogAt(a, t), y)
    ensures m != n && (P.DurAt(a, m).term == t || P.CommitOK(a, n, t, P.TlogAt(a, t), y)) ==> Agree(P.DurAt(a, m).log, P.TlogAt(a, t), y)
  {
    hide P.InvTypes, P.InvNodes, P.InvTerms, P.InvVotes, P.InvUnique, P.InvBallots, P.InvLeaders, P.InvCommit, P.InvLed, P.CommitOK, P.HeldUpTo;
    L.CountedHasAck(a, n, m, t, x);
    var j: nat;
    if P.NetAck(a, m, t, x) {
      j :| j >= x && P.Ack(t, m, j) in a.net;
      assert P.Sent(a, P.Ack(t, m, j));
    } else {
      j :| j >= x && P.Sent(a, P.Ack(t, m, j));
    }
    var p := P.Ack(t, m, j);
    assert P.AckOK(a, p);
    if P.CommitOK(a, n, t, a.tlog[t], y) {
      L.AckedCommitted(a, n, p, a.vol[m].hard.log, y);
      if m != n {
        L.AckedCommitted(a, n, p, a.dur[m].log, y);
      }
    }
  }

  lemma {:induction false} MatchCounted(c: Cluster, a: P.State, n: NodeId, m: NodeId)
    requires P.Inv(a) && Couple(c, a) && n in c.peers && PeerAt(c, n).rn.raft.state == StateLeader
    requires m in PeerAt(c, n).rn.raft.prs && PeerAt(c, n).rn.raft.prs[m].Match > 0
    ensures P.Counted(a, n, m, PeerAt(c, n).rn.raft.term, PeerAt(c, n).rn.raft.prs[m].Match)
    ensures m in c.peers
  {
    hide P.Inv, MsgOK, P.Counted;
    assert PeerOK(a, n, c.peers[n]);
    assert ProgressOK(a, n, m, c.peers[n].rn.raft.prs[m], c.peers[n].rn.raft.term, LastIndex(c.peers[n].rn.raft.log));
  }

  lemma {:induction false} PeerView(c: Cluster, a: P.State, m: NodeId)
    requires Couple(c, a) && m in c.peers
    ensures m in a.vol && PeerAt(c, m).rn.raft.term == P.VolAt(a, m).hard.term && LogView(PeerAt(c, m).rn.raft.log, P.VolAt(a, m).hard.log)
  {
    assert PeerOK(a, m, c.peers[m]);
  }

  /** The store holds `e`: it retains it, or it has compacted it away after reaching its index. */
  predicate StoreHolds(st: Store, e: Entry) {
    && st.ents != []
    && e.index <= StoreLast(st)
    && (st.ents[0].index < e.index ==> st.ents[e.index - st.ents[0].index] == e)
    && (st.ents[0].index == e.index ==> st.ents[0].term == e.term)
  }

  lemma {:induction false} StoreViewHolds(st: Store, D: seq<Entry>, e: Entry)
    requires StoreView(st, D) && 1 <= e.index <= |D| && D[e.index - 1] == e
    ensures StoreHolds(st, e)
  {
  }

  /** Truthful Match: what a leader believes a peer holds, the peer does hold, as long as it is in the
      leader's term. Whatever term it is in, it holds what the leader counts as committed. The same is true
      of its store and its persisted term. */
  lemma {:induction false} MatchIsTruthful(run: seq<Cluster>, i: nat, n: NodeId, m: NodeId, k: nat)
    requires Run(run) && i < |run| && n in run[i].peers && run[i].peers[n].rn.raft.state == StateLeader
    requires m in run[i].peers[n].rn.raft.prs && m in run[i].peers
    requires k < |run[i].peers[n].rn.raft.log.entries|
    requires run[i].peers[n].rn.raft.log.entries[k].index <= run[i].peers[n].rn.raft.prs[m].Match
    ensures var r := run[i].peers[n].rn.raft;
            var p := run[i].peers[m];
            var e := r.log.entries[k];
            && (p.rn.raft.term == r.term || e.index <= r.log.committed ==> HoldsEntry(p.rn.raft.log, e))
            && (m != n && (p.st.hardState.term == r.term || e.index <= r.log.committed) ==> StoreHolds(p.st, e))
  {
    hide P.Inv, Couple, HoldsEntry, StoreHolds, P.Counted, P.CommitOK, Next, Init, Evolves;
    var trace := RunFollows(run);
    var c, a := run[i], trace[i];
    LeaderLogView(c, a, n);
    var r := c.peers[n].rn.raft;
    var F, e := a.tlog[r.term], r.log.entries[k];
    assert e == F[r.log.snapIndex + k];
    MatchCounted(c, a, n, m);
    CountedAgrees(a, n, m, r.term, r.prs[m].Match, e.index);
    if e.index <= r.log.committed {
      LeaderCommits(c, a, n, e.index);
    }
    PeerView(c, a, m);
    StoredCommit(c, a, m);
    if Agree(a.vol[m].hard.log, F, e.index) {
      ViewHolds(c.peers[m].rn.raft.log, a.vol[m].hard.log, e);
    }
    if Agree(a.dur[m].log, F, e.index) {
      StoreViewHolds(c.peers[m].st, a.dur[m].log, e);
    }
  }

  lemma {:induction false} LeaderCommits(c: Cluster, a: P.State, n: NodeId, x: nat)
    requires P.Inv(a) && Couple(c, a) && n in c.peers && PeerAt(c, n).rn.raft.state == StateLeader
    requires x <= PeerAt(c, n).rn.raft.log.committed
    ensures var t := PeerAt(c, n).rn.raft.term; t in a.tlog && P.CommitOK(a, n, t, P.TlogAt(a, t), x)
  {
    hide P.Inv, MsgOK, P.CommitOK;
    assert PeerOK(a, n, c.peers[n]);
    Facts(a, n);
    CommittedOf(c, a, n);
    var h := a.vol[n].hard;
    L.CommitDown(a, n, h.term, h.log, h.commit, x);
  }

  // ------------------------------------------------------------------ durability

  /** The store holds exactly the hard state and the log of the node. */
  predicate StoreMatches(r: Raft, st: Store) {
    && st.hardState == HardStateOf(r)
    && st.ents != []
    && r.log.snapIndex <= st.ents[0].index
    && LastIndex(r.log) == StoreLast(st) == r.log.stabled && r.log.pending.None?
    && forall k :: 1 <= k < |st.ents| ==> HoldsEntry(r.log, st.ents[k])
  }

  lemma {:induction false} CycledStore(a: P.State, n: NodeId, rn: RawNode, st: Store)
    requires P.Inv(a) && RaftOK(a, n, rn.raft, st) && rn.prevHard == st.hardState && st.ents != []
    ensures Cycle(rn, st).Done? && StoreMatches(Cycle(rn, st).value.rn.raft, Cycle(rn, st).value.st)
  {
    hide P.Inv, Cycle, P.NodeOK, P.InvNodes, P.InvTypes, HoldsEntry, OutboxOK, VotesOK, ProgressesOK, Synced, StoreLast, LastIndex;
    Facts(a, n);
    CycleResult(a, n, rn, st);
    var done := Cycle(rn, st).value;
    SyncedHolds(done.rn.raft.log, a.vol[n].hard.log, done.st);
  }

  /** After every Ready cycle the store holds exactly the node's hard state and retained log. */
  lemma {:induction false} CycleMakesDurable(run: seq<Cluster>, i: nat, n: NodeId)
    requires Run(run) && i + 1 < |run| && NextAt(run[i], n, RunCycle, run[i + 1])
    ensures n in run[i + 1].peers && StoreMatches(run[i + 1].peers[n].rn.raft, run[i + 1].peers[n].st)
  {
    hide P.Inv, Evolves, Cycle, RaftOK, StoreMatches, MsgOK, DeliveredOK;
    var trace := RunFollows(run);
    var p := run[i].peers[n];
    assert PeerOK(trace[i], n, p);
    CycledStore(trace[i], n, p.rn, p.st);
  }

  /** At every moment of a run HasReady says exactly whether the next Ready has anything in it, and after a cycle there is
      nothing left to do. */
  lemma {:induction false} CycleLeavesNothing(run: seq<Cluster>, i: nat, n: NodeId)
    requires Run(run) && i < |run| && n in run[i].peers
    ensures var p := run[i].peers[n];
            && NewReady(p.rn).Done? && HasReady(p.rn) == Done(Carries(NewReady(p.rn).value))
            && p.st.ents != [] && Cycle(p.rn, p.st).Done? && HasReady(Cycle(p.rn, p.st).value.rn) == Done(false)
  {
    hide P.Inv, Evolves, Cycle, RaftOK, MsgOK, DeliveredOK, LogView, Next, Init, HasReady, NewReady, Carries, P.NodeOK, P.InvNodes, P.InvTypes;
    var trace := RunFollows(run);
    var a, p := trace[i], run[i].peers[n];
    assert PeerOK(a, n, p);
    PeerView(run[i], a, n);
    HasReadyExact(p.rn, a.vol[n].hard.log);
    PeerStore(a, n, p.rn.raft, p.st);
    QuietAfterCycle(a, n, p.rn, p.st);
  }

  lemma {:induction false} QuietAfterCycle(a: P.State, n: NodeId, rn: RawNode, st: Store)
    requires P.Inv(a) && RaftOK(a, n, rn.raft, st) && rn.prevHard == st.hardState && st.ents != []
    ensures Cycle(rn, st).Done? && HasReady(Cycle(rn, st).value.rn) == Done(false)
  {
    hide P.Inv, Cycle, P.NodeOK, P.InvNodes, P.InvTypes, OutboxOK, VotesOK, ProgressesOK, Synced, LogView, UnstableEntries;
    Facts(a, n);
    CycleResult(a, n, rn, st);
    var F, rn' := a.vol[n].hard.log, Cycle(rn, st).value.rn;
    SyncedFacts(rn'.raft.log, F, Cycle(rn, st).value.st, F);
    UnstableView(rn'.raft.log, F);
    assert F[|F|..] == [];
  }

  lemma {:induction false} SyncedHolds(l: Log, F: seq<Entry>, st: Store)
    requires Synced(l, F, st, F) && l.pending.None?
    ensures st.ents != [] && l.snapIndex <= st.ents[0].index && LastIndex(l) == |F| == StoreLast(st)
    ensures forall k :: 1 <= k < |st.ents| ==> HoldsEntry(l, st.ents[k])
  {
    hide HoldsEntry;
    LastIndexView(l, F);
    forall k | 1 <= k < |st.ents|
      ensures HoldsEntry(l, st.ents[k])
    {
      ViewHolds(l, F, st.ents[k]);
    }
  }

  /** The node is what the store remembers of it. */
  predicate Rebuilt(r: Raft, st: Store, ids: set<NodeId>, applied: nat)
    requires st.ents != []
  {
    && HardStateOf(r) == st.hardState
    && r.log.entries == st.ents[1..]
    && r.log.snapIndex == st.ents[0].index && r.log.snapTerm == st.ents[0].term
    && r.log.applied == Max(applied, st.ents[0].index)
    && r.prs.Keys == ids
    && r.state == StateFollower && r.msgs == {}
  }

  /** A restart rebuilds exactly what was durable: hard state, retained log, membership. newRaft exits
      fatally only on an applied index outside the range of the store. */
  lemma {:induction false} RestartRebuilds(run: seq<Cluster>, i: nat, n: NodeId, applied: nat)
    requires Run(run) && i < |run| && n in run[i].peers
    ensures var st := run[i].peers[n].st;
            && st.ents != []
            && var o := NewRaft(n, PeersArgument(run[i].ids, st), applied, st);
               && (o.Done? <==> applied == 0 || st.ents[0].index <= applied <= st.hardState.commit)
               && (o.Done? ==> Rebuilt(o.value, st, run[i].ids, applied))
  {
    hide P.Inv, Evolves, NewRaft, RaftOK, MsgOK, DeliveredOK, Rebuilt;
    var trace := RunFollows(run);
    assert PeerOK(trace[i], n, run[i].peers[n]);
    RestartedPeer(trace[i], n, run[i].peers[n].rn.raft, run[i].peers[n].st, applied);
  }

  lemma {:induction false} RestartedPeer(a: P.State, n: NodeId, r: Raft, st: Store, applied: nat)
    requires P.Inv(a) && RaftOK(a, n, r, st) && (st.snapshot.nodes == {} || st.snapshot.nodes == a.ids)
    ensures st.ents != []
    ensures var o := NewRaft(n, PeersArgument(a.ids, st), applied, st);
            && (o.Done? <==> applied == 0 || st.ents[0].index <= applied <= st.hardState.commit)
            && (o.Done? ==> Rebuilt(o.value, st, a.ids, applied))
  {
    hide P.Inv, NewRaft, P.NodeOK, P.InvNodes, P.InvTypes, VotesOK, ProgressesOK, OutboxOK, Synced, StoreView;
    Facts(a, n);
    NotNone(a, n);
    var Dl := a.dur[n].log;
    SyncedFacts(r.log, a.vol[n].hard.log, st, Dl);
    NewRaftView(n, PeersArgument(a.ids, st), applied, st, Dl);
    if NewRaft(n, PeersArgument(a.ids, st), applied, st).Done? {
      RebuiltLog(n, PeersArgument(a.ids, st), applied, st, Dl);
    }
  }

  lemma {:induction false} RebuiltLog(n: NodeId, peers: set<NodeId>, applied: nat, st: Store, D: seq<Entry>)
    requires StoreView(st, D) && NewRaft(n, peers, applied, st).Done?
    ensures var l := NewRaft(n, peers, applied, st).value.log;
            l.entries == st.ents[1..] && l.snapIndex == st.ents[0].index && l.snapTerm == st.ents[0].term
  {
    StoreViewTerm(st, D, st.ents[0].index);
  }
}
