/** Building concrete runs of a cluster step by step. */
module RaftScripts {
  import opened RaftTypes
  import opened RaftStore
  import opened RaftLogSpec
  import opened RaftNodeSpec
  import opened RawNodeSpec
  import opened RaftCoupling
  import opened RaftSimulation
  import opened RaftCluster
  import opened RaftCycle
  import opened RaftRefinement
  import F = RaftImplFacts
  import P = RaftProtocol

  const EMPTY_LOG: Log := Log([], 1, 0, 0, 0, 0, 0, None)

  /** Some run of a cluster ends in this state. */
  ghost predicate Reachable(c: Cluster) {
    exists run :: Run(run) && run[|run| - 1] == c
  }

  /** Node `n` is in state `r`; its store has compacted nothing and has no snapshot. */
  ghost predicate At(c: Cluster, n: NodeId, r: Raft) {
    n in c.peers && c.peers[n].rn.raft == r && Plain(c.peers[n].st)
  }

  predicate Plain(st: Store) { st.ents != [] && st.ents[0].index == 0 && st.snapshot.index == 0 }

  /** Only node `n` moved, and nothing left the network. */
  ghost predicate Moved(c: Cluster, c': Cluster, n: NodeId) {
    && c'.ids == c.ids && c'.peers.Keys == c.peers.Keys && c.net <= c'.net
    && forall x :: x in c.peers && x != n ==> c'.peers[x] == c.peers[x]
  }

  // ------------------------------------------------------------------ actions

  lemma {:induction false} Grow(c: Cluster, n: NodeId, act: Action, c': Cluster)
    requires Reachable(c) && NextAt(c, n, act, c')
    ensures Reachable(c')
  {
    hide NextAt, Init;
    var run :| Run(run) && run[|run| - 1] == c;
    var run' := run + [c'];
    forall i | 0 <= i < |run'| - 1
      ensures Next(run'[i], run'[i + 1])
    {
      if i < |run| - 1 {
        assert Next(run[i], run[i + 1]);
      }
    }
    assert Run(run') && run'[|run'| - 1] == c';
  }

  /** Every node of a cluster before its first step. */
  function Started(ids: set<NodeId>, n: NodeId): Raft {
    Raft(n, 0, NONE, EMPTY_LOG, FreshPrs(ids, n, 0), StateFollower, map[], {}, NONE, NONE, 0)
  }

  /** The progress reset leaves, for a log of the given last index. */
  function FreshPrs(ids: set<NodeId>, n: NodeId, last: nat): map<NodeId, Progress> {
    map id | id in ids :: Progress(if id == n then last else 0, last + 1)
  }

  lemma {:induction false} StartIs(ids: set<NodeId>, n: NodeId)
    requires n != NONE
    ensures NewRaft(n, ids, 0, NewStore()) == Done(Started(ids, n))
  {
    var st := NewStore();
    assert st.ents[1..1] == [];
    assert NewLog(st) == Done(EMPTY_LOG);
    var r := Raft(n, 0, NONE, EMPTY_LOG, StartProgress(ids), StateFollower, map[], {}, NONE, NONE, 0);
    assert Reset(r, 0).prs == FreshPrs(ids, n, 0);
  }

  function FirstPeer(ids: set<NodeId>, n: NodeId): Peer {
    Peer(NewRawNode(Started(ids, n)), NewStore(), 0, [], {})
  }

  lemma {:induction false} Begin(ids: set<NodeId>) returns (c: Cluster)
    requires NONE !in ids
    ensures Reachable(c) && c.ids == ids && c.peers.Keys == ids
    ensures forall n :: n in ids ==> At(c, n, Started(ids, n))
  {
    hide Fresh, Started;
    forall n | n in ids
      ensures Fresh(ids, n) == Done(FirstPeer(ids, n))
    {
      FreshIs(ids, n);
    }
    c := Cluster(ids, map n | n in ids :: FirstPeer(ids, n), {});
    assert Run([c]) && [c][|[c]| - 1] == c;
  }

  lemma {:induction false} FreshIs(ids: set<NodeId>, n: NodeId)
    requires n != NONE
    ensures Fresh(ids, n) == Done(FirstPeer(ids, n))
  {
    hide NewRaft;
    StartIs(ids, n);
  }

  lemma {:induction false} Arrive(c: Cluster, n: NodeId, m: Message, r: Raft, r': Raft) returns (c': Cluster)
    requires Reachable(c) && n in c.peers && PeerAt(c, n).rn.raft == r && PeerAt(c, n).st.ents != []
    requires m in c.net && m.to == n && m.from in r.prs
    requires !m.MsgHup? && !m.MsgBeat? && Step(r, PeerAt(c, n).st, m) == Done(Stepped(r', false))
    ensures Reachable(c') && Moved(c, c', n) && n in c'.peers && PeerAt(c', n).rn.raft == r' && PeerAt(c', n).st == PeerAt(c, n).st
  {
    hide Step, Reachable;
    var p := c.peers[n];
    c' := c.(peers := c.peers[n := p.(rn := p.rn.(raft := r'))]);
    Grow(c, n, Receive(m), c');
  }

  lemma {:induction false} Deliver(c: Cluster, n: NodeId, m: Message, r: Raft, r': Raft) returns (c': Cluster)
    requires Reachable(c) && At(c, n, r) && m in c.net && m.to == n && m.from in r.prs
    requires !m.MsgHup? && !m.MsgBeat? && Step(r, PeerAt(c, n).st, m) == Done(Stepped(r', false))
    ensures Reachable(c') && Moved(c, c', n) && At(c', n, r')
  {
    hide Step, Reachable;
    c' := Arrive(c, n, m, r, r');
  }

  lemma {:induction false} Ask(c: Cluster, n: NodeId, m: Message, r: Raft, r': Raft) returns (c': Cluster)
    requires Reachable(c) && n in c.peers && PeerAt(c, n).rn.raft == r && PeerAt(c, n).st.ents != [] && IsRequest(m)
    requires Step(r, PeerAt(c, n).st, m) == Done(Stepped(r', false))
    ensures Reachable(c') && Moved(c, c', n) && n in c'.peers && PeerAt(c', n).rn.raft == r' && PeerAt(c', n).st == PeerAt(c, n).st
  {
    hide Step, Reachable;
    var p := c.peers[n];
    c' := c.(peers := c.peers[n := p.(rn := p.rn.(raft := r'))]);
    Grow(c, n, Request(m), c');
  }

  /** A Ready cycle sends what is queued. */
  lemma {:induction false} Turn(c: Cluster, n: NodeId, r: Raft) returns (c': Cluster)
    requires Reachable(c) && n in c.peers && PeerAt(c, n).rn.raft == r
    ensures Reachable(c') && Moved(c, c', n) && r.msgs <= c'.net
    ensures At(c, n, r) && r.log.snapIndex == 0 && r.log.pending.None? ==> At(c', n, Settle(r))
    ensures r.log.pending.None? ==> n in c'.peers && TurnRests(r, PeerAt(c, n).st, PeerAt(c', n).rn.raft, PeerAt(c', n).st)
  {
    hide Cycle, Reachable, P.Inv, Couple;
    var a := Coupled(c);
    var p := c.peers[n];
    TurnResult(c, a, n);
    var done := Cycle(p.rn, p.st).value;
    c' := c.(peers := c.peers[n := Peer(done.rn, done.st, p.base, p.delivered + Deliveries(done.rd),
                                        p.history + Entries(done.rd.committedEntries))],
             net := c.net + done.rd.messages);
    Grow(c, n, RunCycle, c');
  }

  lemma {:induction false} Coupled(c: Cluster) returns (a: P.State)
    requires Reachable(c)
    ensures P.Inv(a) && Couple(c, a)
  {
    hide P.Inv, Couple, Next, Init, Evolves;
    var run :| Run(run) && run[|run| - 1] == c;
    var trace := RunFollows(run);
    a := trace[|run| - 1];
  }

  /** A node after everything is persisted and applied. */
  function Settle(r: Raft): Raft {
    r.(msgs := {}, log := r.log.(applied := r.log.committed, stabled := |r.log.entries|))
  }

  lemma {:induction false} TurnResult(c: Cluster, a: P.State, n: NodeId)
    requires P.Inv(a) && Couple(c, a) && n in c.peers
    ensures var p := PeerAt(c, n);
            && p.st.ents != [] && Cycle(p.rn, p.st).Done?
            && var done := Cycle(p.rn, p.st).value;
               && done.rd.messages == p.rn.raft.msgs
               && (p.rn.raft.log.pending.None? ==> TurnRests(p.rn.raft, p.st, done.rn.raft, done.st))
  {
    hide P.Inv, MsgOK, Cycle, Synced, VotesOK, ProgressesOK, OutboxOK, P.NodeOK, P.InvNodes, P.InvTypes;
    var p := c.peers[n];
    assert PeerOK(a, n, p);
    Facts(a, n);
    PeerStore(a, n, p.rn.raft, p.st);
    CycleResult(a, n, p.rn, p.st);
    var l, F := p.rn.raft.log, a.vol[n].hard.log;
    if l.pending.None? {
      SyncedFacts(l, F, p.st, a.dur[n].log);
      LastIndexView(l, F);
      CycleKeepsFirst(p.rn, p.st, F, a.dur[n].log);
    }
  }

  /** What a Ready cycle leaves of a node without a pending snapshot, and of its store. */
  predicate TurnRests(r: Raft, st: Store, r': Raft, st': Store) {
    && r' == r.(msgs := {}, log := r.log.(applied := r.log.committed, stabled := LastIndex(r.log)))
    && (r.log.snapIndex == 0 ==> LastIndex(r.log) == |r.log.entries|)
    && st.ents != [] && st'.ents != [] && st'.ents[0] == st.ents[0] && st'.snapshot == st.snapshot
  }

  lemma {:induction false} CycleKeepsFirst(rn: RawNode, st: Store, F: seq<Entry>, D: seq<Entry>)
    requires Synced(rn.raft.log, F, st, D) && rn.raft.log.pending.None? && st.ents != [] && Cycle(rn, st).Done?
    ensures Cycle(rn, st).value.st.ents != [] && Cycle(rn, st).value.st.ents[0] == st.ents[0]
    ensures Cycle(rn, st).value.st.snapshot == st.snapshot
  {
    hide Advance, NextEnts;
    UnstableView(rn.raft.log, F);
  }

  lemma {:induction false} KeepsAt(c: Cluster, c': Cluster, n: NodeId, x: NodeId, r: Raft)
    requires Moved(c, c', n) && At(c, x, r) && x != n
    ensures At(c', x, r)
  {
  }

  /** At most the three given nodes moved. */
  ghost predicate MovedAmong(c: Cluster, c': Cluster, n: NodeId, v: NodeId, w: NodeId) {
    && c'.ids == c.ids && c'.peers.Keys == c.peers.Keys && c.net <= c'.net
    && forall x :: x in c.peers && x != n && x != v && x != w ==> c'.peers[x] == c.peers[x]
  }

  lemma {:induction false} StillAt(c: Cluster, c': Cluster, n: NodeId, v: NodeId, w: NodeId, x: NodeId, r: Raft)
    requires MovedAmong(c, c', n, v, w) && At(c, x, r) && x != n && x != v && x != w
    ensures At(c', x, r)
  {
  }

  // ------------------------------------------------------------------ elections

  function Requests(ids: set<NodeId>, n: NodeId, t: nat): set<Message> {
    set id | id in ids && id != n :: MsgRequestVote(n, id, t, 0, 0)
  }

  /** A node with an empty log that starts an election. */
  function Running(r: Raft, ids: set<NodeId>): Raft {
    Raft(r.id, r.term + 1, r.id, EMPTY_LOG, FreshPrs(ids, r.id, 0), StateCandidate, map[r.id := true],
         r.msgs + Requests(ids, r.id, r.term + 1), NONE, NONE, 0)
  }

  lemma {:induction false} HupRuns(ids: set<NodeId>, r: Raft, st: Store)
    requires r.log == EMPTY_LOG && r.prs.Keys == ids && r.id in ids && |ids| >= 2 && r.state != StateLeader && st.ents != []
    ensures Step(r, st, MsgHup(0, 0, 0)) == Done(Stepped(Running(r, ids), false))
  {
    hide BecomeLeader;
    assert Slice(r.log, 1, 1) == Done(Ok([]));
    var r1 := Poll(BecomeCandidate(r), r.id, true);
    assert r1.prs == FreshPrs(ids, r.id, 0);
    assert r1.prs.Keys == ids && |r1.prs| == |r1.prs.Keys|;
    assert Grantors(r1.votes) == {r.id};
    Another(ids, r.id);
    assert LastTerm(r1.log) == Done(0);
    assert Campaign(r, st).value.msgs == r.msgs + Requests(ids, r.id, r.term + 1);
    assert Campaign(r, st) == Done(Running(r, ids));
  }

  lemma {:induction false} Another(ids: set<NodeId>, n: NodeId)
    requires n in ids && |ids| >= 2
    ensures exists x :: x in ids && x != n
  {
    if forall x :: x in ids ==> x == n {
      SubsetSize(ids, {n});
    }
  }

  /** A node with an empty log that votes for `c` in a later term. */
  function Voted(r: Raft, ids: set<NodeId>, c: NodeId, t: nat): Raft {
    Raft(r.id, t, c, EMPTY_LOG, FreshPrs(ids, r.id, 0), StateFollower, map[],
         r.msgs + {MsgRequestVoteResponse(r.id, c, t, false)}, NONE, NONE, 0)
  }

  lemma {:induction false} RequestVotes(ids: set<NodeId>, r: Raft, st: Store, c: NodeId, t: nat)
    requires r.log == EMPTY_LOG && r.prs.Keys == ids && t > r.term && st.ents != []
    ensures Step(r, st, MsgRequestVote(c, r.id, t, 0, 0)) == Done(Stepped(Voted(r, ids, c, t), false))
  {
    var r1 := BecomeFollower(r, t, NONE);
    assert r1.prs == FreshPrs(ids, r.id, 0);
    assert IsUpToDate(r1.log, 0, 0) == Done(true);
  }

  /** A vote that does not make a majority. */
  lemma {:induction false} PollCounts(ids: set<NodeId>, r: Raft, st: Store, v: NodeId)
    requires r.state == StateCandidate && r.prs.Keys == ids && r.term >= 1 && v !in r.votes && st.ents != []
    requires (forall x :: x in r.votes ==> r.votes[x]) && |r.votes| + 1 < |ids| / 2 + 1
    ensures Step(r, st, MsgRequestVoteResponse(v, r.id, r.term, false)) == Done(Stepped(r.(votes := r.votes[v := true]), false))
  {
    var r1 := Poll(r, v, true);
    assert Grantors(r1.votes) == r1.votes.Keys == r.votes.Keys + {v};
    assert |r.votes| == |r.votes.Keys| && |r1.votes| == |r1.votes.Keys| && |r1.prs| == |r1.prs.Keys|;
  }

  function Noop(t: nat): Entry { Entry(EntryNormal, t, 1, []) }

  function Appends(ids: set<NodeId>, n: NodeId, t: nat, ents: seq<Entry>): set<Message> {
    set id | id in ids && id != n :: MsgAppend(n, id, t, 0, 0, ents, 0)
  }

  /** A leader whose log is `ents`, nothing of it committed, nobody heard from. */
  function Leading(ids: set<NodeId>, n: NodeId, t: nat, ents: seq<Entry>, msgs: set<Message>): Raft {
    Raft(n, t, n, Log(ents, 1, 0, 0, 0, 0, 0, None), FreshPrs(ids, n, 0)[n := Progress(|ents|, |ents| + 1)],
         StateLeader, map[], msgs, n, NONE, 0)
  }

  /** The index a majority has reached, from who has reached it and who has gone beyond. */
  lemma {:induction false} QuorumIs(prs: map<NodeId, Progress>, x: nat, reached: set<NodeId>, beyond: set<NodeId>)
    requires AtLeast(prs, x) == reached && AtLeast(prs, x + 1) == beyond
    requires |beyond| < |prs.Keys| / 2 + 1 <= |reached|
    ensures |prs| == |prs.Keys| > 0 && QuorumMatch(prs) == x
  {
    hide QuorumMatch, AtLeast;
    assert |prs| == |prs.Keys|;
    if prs.Keys == {} {
      assert reached == {} by { NobodyReached(prs, x); }
    }
    F.QuorumMatchUnique(prs, QuorumMatch(prs), x);
  }

  lemma {:induction false} NobodyReached(prs: map<NodeId, Progress>, x: nat)
    requires prs.Keys == {}
    ensures AtLeast(prs, x) == {}
  {
  }

  /** With one node ahead of all others a majority has reached nothing. */
  lemma {:induction false} AloneAhead(ids: set<NodeId>, n: NodeId, pr: Progress)
    requires n in ids && |ids| >= 2
    ensures QuorumMatch(FreshPrs(ids, n, 0)[n := pr]) == 0
  {
    var prs := FreshPrs(ids, n, 0)[n := pr];
    assert prs.Keys == ids && |prs| == |prs.Keys|;
    assert AtLeast(prs, 0) == ids;
    assert AtLeast(prs, 1) <= {n};
    SubsetSize(AtLeast(prs, 1), {n});
    F.QuorumMatchUnique(prs, QuorumMatch(prs), 0);
  }

  /** What a leader that nobody answered does with one more entry. */
  lemma {:induction false} AppendAhead(ids: set<NodeId>, n: NodeId, t: nat, ents: seq<Entry>, msgs: set<Message>, e: Entry, st: Store)
    requires n in ids && |ids| >= 2 && Plain(st) && t >= 1
    requires forall k :: 0 <= k < |ents| ==> ents[k].index == k + 1
    ensures AppendEntry(Leading(ids, n, t, ents, msgs), st, [e]) ==
              Done(Leading(ids, n, t, ents + [e.(term := t, index := |ents| + 1)], msgs))
  {
    hide QuorumMatch;
    var r := Leading(ids, n, t, ents, msgs);
    var more := e.(term := t, index := |ents| + 1);
    assert LastIndex(r.log) == |ents|;
    assert Stamp([e], t, |ents|) == [more];
    var log := Log(ents + [more], 1, 0, 0, 0, 0, 0, None);
    assert Append(r.log, st, [more]) == Done(log);
    assert LastIndex(log) == |ents| + 1;
    AloneAhead(ids, n, Progress(|ents| + 1, |ents| + 2));
    assert r.prs[n := MaybeUpdate(r.prs[n], |ents| + 1)] == FreshPrs(ids, n, 0)[n := Progress(|ents| + 1, |ents| + 2)];
  }

  lemma {:induction false} BcastAhead(ids: set<NodeId>, n: NodeId, t: nat, ents: seq<Entry>, msgs: set<Message>, st: Store)
    requires n in ids && ents != [] && Plain(st)
    requires forall k :: 0 <= k < |ents| ==> ents[k].index == k + 1
    ensures BcastAppend(Leading(ids, n, t, ents, msgs), st) == Done(Leading(ids, n, t, ents, msgs + Appends(ids, n, t, ents)))
  {
    var r := Leading(ids, n, t, ents, msgs);
    assert r.log.entries[0..] == ents;
    forall id | id in r.prs && id != n
      ensures AppendMessage(r, st, id) == Done(MsgAppend(n, id, t, 0, 0, ents, 0))
    {
      assert Term(r.log, 0) == Ok(0);
      assert LogEntries(r.log, 1) == Done(Ok(ents));
    }
    assert r.prs.Keys == ids;
    var sent := set id | id in r.prs && id != r.id :: AppendMessage(r, st, id).value;
    assert sent == Appends(ids, n, t, ents);
  }

  /** The vote that makes a majority. */
  lemma {:induction false} PollWins(ids: set<NodeId>, r: Raft, st: Store, v: NodeId)
    requires r.state == StateCandidate && r.log == EMPTY_LOG && r.prs.Keys == ids && r.id in ids && |ids| >= 2 && Plain(st)
    requires r.vote == r.id && r.term >= 1 && v !in r.votes && r.lead == NONE && r.leadTransferee == NONE
    requires (forall x :: x in r.votes ==> r.votes[x]) && |r.votes| + 1 == |ids| / 2 + 1
    ensures Step(r, st, MsgRequestVoteResponse(v, r.id, r.term, false)) ==
              Done(Stepped(Leading(ids, r.id, r.term, [Noop(r.term)], r.msgs + Appends(ids, r.id, r.term, [Noop(r.term)])), false))
  {
    hide AppendEntry, BcastAppend, QuorumMatch;
    var r1 := Poll(r, v, true);
    assert Grantors(r1.votes) == r1.votes.Keys == r.votes.Keys + {v};
    assert |r.votes| == |r.votes.Keys| && |r1.votes| == |r1.votes.Keys| && |r1.prs| == |r1.prs.Keys|;
    var t := r.term;
    assert Crowned(r1).prs == FreshPrs(ids, r.id, 0)[r.id := Progress(0, 1)];
    assert Crowned(r1) == Leading(ids, r.id, t, [], r.msgs);
    AppendAhead(ids, r.id, t, [], r.msgs, Entry(EntryNormal, 0, 0, []), st);
    assert [] + [Noop(t)] == [Noop(t)];
    BcastAhead(ids, r.id, t, [Noop(t)], r.msgs, st);
  }

  /** A proposal before anybody answered. */
  lemma {:induction false} ProposeAhead(ids: set<NodeId>, n: NodeId, t: nat, ents: seq<Entry>, msgs: set<Message>, d: nat, st: Store)
    requires n in ids && |ids| >= 2 && Plain(st) && t >= 1
    requires forall k :: 0 <= k < |ents| ==> ents[k].index == k + 1
    ensures var more := ents + [Entry(EntryNormal, t, |ents| + 1, [d])];
            Step(Leading(ids, n, t, ents, msgs), st, MsgPropose(0, 0, 0, [Entry(EntryNormal, 0, 0, [d])])) ==
              Done(Stepped(Leading(ids, n, t, more, msgs + Appends(ids, n, t, more)), false))
  {
    hide AppendEntry, BcastAppend, QuorumMatch;
    var r, e := Leading(ids, n, t, ents, msgs), Entry(EntryNormal, 0, 0, [d]);
    assert FilterConf([], 0, 0, |ents| + 1) == ([], 0) && [e] + [] == [e] && [e][1..] == [];
    assert LastIndex(r.log) == |ents|;
    assert FilterConf([e], 0, 0, |ents|) == ([e], 0);
    AppendAhead(ids, n, t, ents, msgs, e, st);
    BcastAhead(ids, n, t, ents + [Entry(EntryNormal, t, |ents| + 1, [d])], msgs, st);
  }

  // ------------------------------------------------------------------ replication

  /** A follower with an empty log takes over the leader's log. */
  lemma {:induction false} TakesAll(r: Raft, st: Store, c: NodeId, ents: seq<Entry>)
    requires r.state == StateFollower && r.log == EMPTY_LOG && r.term >= 1 && Plain(st) && ents != [] && ents[0].index == 1
    ensures Step(r, st, MsgAppend(c, r.id, r.term, 0, 0, ents, 0)) ==
              Done(Stepped(r.(lead := c, log := EMPTY_LOG.(entries := ents),
                              msgs := r.msgs + {MsgAppendResponse(r.id, c, r.term, |ents|, false, 0)}), false))
  {
    hide MaybeAppend;
    TakesLog(st, ents);
  }

  lemma {:induction false} TakesLog(st: Store, ents: seq<Entry>)
    requires Plain(st) && ents != [] && ents[0].index == 1
    ensures MaybeAppend(EMPTY_LOG, st, 0, 0, 0, ents) == Done((EMPTY_LOG.(entries := ents), Some(|ents|)))
  {
    var l := EMPTY_LOG;
    assert MatchTerm(l, 0, 0) && !MatchTerm(l, 1, ents[0].term);
    assert ents[0..] == ents && [] + ents == ents;
    assert Append(l, st, ents) == Done(l.(entries := ents));
  }
}
