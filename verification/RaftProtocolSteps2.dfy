/** The invariant of the protocol is inductive: elections and replication. */
module RaftProtocolSteps2 {
  import opened RaftTypes
  import opened RaftProtocol
  import opened RaftProtocolProofs
  import opened RaftProtocolSteps

  // ------------------------------------------------------------------ Elect

  /** Two majorities of votes in one term are for the same candidate. */
  lemma {:induction false} OneWinner(s: State, t: nat, n: NodeId, Q: set<NodeId>, o: NodeId)
    requires InvUnique(s) && n in s.ids && o in s.ids && n != o ==> ElectedBy(s, t, o)
    requires n in s.ids && o in s.ids && Quorum(s.ids, Q) && InvUnique(s)
    requires forall v :: v in Q ==> Sent(s, Vote(t, v, n))
    ensures o == n
  {
    if o != n {
      var P :| Quorum(s.ids, P) && AllVoted(s, P, t, o);
      var v := QuorumsMeet(s.ids, P, Q);
      assert s.ids != {v};
      assert Sent(s, Vote(t, v, o));
    }
  }

  lemma {:induction false} ElectFresh(s: State, n: NodeId, Q: set<NodeId>)
    requires InvTypes(s) && InvNodes(s) && InvTerms(s) && InvUnique(s)
    requires n in s.ids && CanElect(s, n, Q)
    ensures VolAt(s, n).hard.term !in s.owner
  {
    assert NodeOK(s, n);
    var t := s.vol[n].hard.term;
    if t in s.owner {
      assert TermOK(s, t);
      OneWinner(s, t, n, Q, s.owner[t]);
    }
  }

  /** Unless the cluster has a single node, all votes that elect a leader are already durable. */
  lemma {:induction false} ElectDurable(s: State, n: NodeId, Q: set<NodeId>)
    requires InvTypes(s) && InvVotes(s)
    requires n in s.ids && CanElect(s, n, Q)
    ensures forall v :: v in Q ==>
              (Vote(VolAt(s, n).hard.term, v, n) in s.net && DurAt(s, v).term >= VolAt(s, n).hard.term) || s.ids == {v}
    ensures DurAt(s, n).term >= VolAt(s, n).hard.term || s.ids == {n}
  {
    var t := s.vol[n].hard.term;
    if s.ids == {n} {
      forall v | v in Q
        ensures s.ids == {v}
      {
      }
    } else {
      var w := AnotherMember(s.ids, Q, n);
      assert VoteOK(s, Vote(t, w, n));
      forall v | v in Q
        ensures Vote(t, v, n) in s.net && s.dur[v].term >= t
      {
        assert VoteOK(s, Vote(t, v, n));
      }
    }
  }

  /** A newly elected leader holds every own entry of earlier terms that is not doomed. */
  lemma {:induction false} ElectHolds(s: State, n: NodeId, Q: set<NodeId>, t: nat, i: nat)
    requires InvTypes(s) && InvVotes(s) && InvBallots(s)
    requires n in s.ids && CanElect(s, n, Q) && t < VolAt(s, n).hard.term
    ensures HoldsOr(s, t, i, VolAt(s, n).hard.log)
  {
    var u := s.vol[n].hard.term;
    ElectDurable(s, n, Q);
    if v :| v in Q && HasAck(s, v, t, i) {
      var j: nat :| j >= i && Sent(s, Ack(t, v, j));
      assert Sent(s, Vote(u, v, n));
      assert Running(s, n, u);
      assert Keeps(s, Ack(t, v, j), s.vol[n].hard.log);
    } else {
      assert AllGone(s, Q, t, i);
    }
  }

  lemma {:induction false} ElectLocal(s: State, n: NodeId)
    requires InvTypes(s) && n in s.ids && VolAt(s, n).hard.term !in s.owner
    ensures InvTypes(Elect(s, n))
    ensures Local(s, Elect(s, n), n, {Ack(VolAt(s, n).hard.term, n, |VolAt(s, n).hard.log|)})
  {
  }

  lemma {:induction false} ElectNode(s: State, s': State, n: NodeId)
    requires InvTypes(s) && n in s.ids && NodeOK(s, n) && VolAt(s, n).role == Candidate
    requires s' == Elect(s, n) && Grows(s, s', n)
    ensures NodeOK(s', n)
  {
    RootedGrows(s, s', n, s.vol[n].hard.log);
    RootedGrows(s, s', n, s.dur[n].log);
  }

  lemma {:induction false} ElectTerms(s: State, s': State, n: NodeId, Q: set<NodeId>, add: set<Packet>)
    requires InvTypes(s) && InvTerms(s) && InvVotes(s) && NodeOK(s', n)
    requires n in s.ids && CanElect(s, n, Q) && s' == Elect(s, n) && Local(s, s', n, add)
    requires VolAt(s, n).hard.term !in s.owner
    ensures InvTerms(s')
  {
    ElectDurable(s, n, Q);
    var u := s.vol[n].hard.term;
    assert AllVoted(s', Q, u, n);
    forall t | t in s'.tlog
      ensures TermOK(s', t)
    {
      if t != u {
        assert TermOK(s, t);
        OtherTerm(s, s', n, add, t);
      }
    }
  }

  lemma {:induction false} NotOwn(s: State, t: nat, i: nat, log: seq<Entry>)
    requires t in s.tlog && forall k :: 0 <= k < |s.tlog[t]| ==> s.tlog[t][k].term < t
    ensures HoldsOr(s, t, i, log)
  {
  }

  lemma {:induction false} ElectLeaders(s: State, s': State, n: NodeId, Q: set<NodeId>, add: set<Packet>)
    requires InvTypes(s) && InvNodes(s) && InvVotes(s) && InvBallots(s) && InvLeaders(s)
    requires n in s.ids && CanElect(s, n, Q) && s' == Elect(s, n) && Local(s, s', n, add)
    requires VolAt(s, n).hard.term !in s.owner
    ensures InvLeaders(s')
  {
    hide InvVotes, InvBallots;
    var w := s.vol[n].hard.term;
    assert NodeOK(s, n);
    forall t: nat, i: nat, u: nat | t < u && u in s'.tlog
      ensures HoldsOr(s', t, i, s'.tlog[u])
    {
      if t == w {
        NotOwn(s', t, i, s'.tlog[u]);
      } else if t in s.tlog && i <= |s.tlog[t]| {
        hide HoldsOr, NodeOK, InvNodes, CanElect;
        if u == w {
          ElectHolds(s, n, Q, t, i);
        } else {
          assert HoldsOr(s, t, i, s.tlog[u]);
        }
        HoldsLocal(s, s', n, add, t, i, s'.tlog[u]);
      }
    }
  }

  lemma {:induction false} AckFact(s: State, p: Packet)
    requires InvAcks(s) && p.Ack?
    ensures Sent(s, p) ==> AckOK(s, p)
  {
  }

  /** A leader holds what it acknowledges of its own log. */
  lemma {:induction false} LeaderHolds(s: State, p: Packet)
    requires InvLeaders(s) && p.Ack? && p.term in s.tlog && p.index == |TlogAt(s, p.term)|
    ensures HeldUpTo(s, p, TlogAt(s, p.term))
  {
    hide Doomed;
    forall t: nat, i: nat | t <= p.term && Own(s, t, i)
      ensures Agree(s.tlog[p.term], s.tlog[t], Min(i, p.index)) || Doomed(s, t, i)
    {
      if t < p.term {
        assert HoldsOr(s, t, i, s.tlog[p.term]);
      }
    }
  }

  lemma {:induction false} ElectKept(s: State, s': State, n: NodeId, own: Packet)
    requires InvTypes(s) && InvNodes(s) && InvAcks(s) && InvKept(s) && InvLeaders(s')
    requires n in s.ids && VolAt(s, n).role == Candidate && s' == Elect(s, n)
    requires own == Ack(VolAt(s, n).hard.term, n, |VolAt(s, n).hard.log|)
    requires Local(s, s', n, {own}) && VolAt(s, n).hard.term !in s.owner
    ensures InvAcks(s') && InvKept(s') && LateDoomed(s, s')
  {
    hide HeldUpTo, LateDoomed, InvLeaders, Own;
    assert NodeOK(s, n);
    AckFact(s, own);
    assert forall p :: Sent(s, p) && p.Ack? && p.from == n ==> AckOK(s, p) && HeldUpTo(s, p, s.vol[n].hard.log);
    LeaderHolds(s', own);
    ElectLate(s, s', n);
    ElectAcks(s, s', n, own);
    LocalKept(s, s', n, {own});
  }

  lemma {:induction false} ElectAcks(s: State, s': State, n: NodeId, own: Packet)
    requires InvTypes(s) && InvNodes(s) && InvAcks(s)
    requires n in s.ids && VolAt(s, n).role == Candidate && s' == Elect(s, n)
    requires own == Ack(VolAt(s, n).hard.term, n, |VolAt(s, n).hard.log|)
    requires Local(s, s', n, {own}) && VolAt(s, n).hard.term !in s.owner
    ensures InvAcks(s')
  {
    assert NodeOK(s, n);
    AckFact(s, own);
    assert forall p :: Sent(s, p) && p.Ack? && p.from == n ==> AckOK(s, p);
    LocalAcks(s, s', n, {own});
  }

  lemma {:induction false} ElectLate(s: State, s': State, n: NodeId)
    requires InvTypes(s) && InvNodes(s)
    requires n in s.ids && VolAt(s, n).role == Candidate && s' == Elect(s, n) && VolAt(s, n).hard.term !in s.owner
    ensures LateDoomed(s, s')
  {
    hide Doomed;
    assert NodeOK(s, n);
    assert forall i :: !Own(s', s.vol[n].hard.term, i);
  }

  lemma {:induction false} ElectKeepsInv(s: State, n: NodeId, Q: set<NodeId>)
    requires Inv(s) && n in s.ids && CanElect(s, n, Q)
    ensures Inv(Elect(s, n))
  {
    hide InvNodes, InvTerms, InvVotes, InvUnique, InvAcks, InvKept, InvBallots, InvLeaders, InvCommit, InvLed, CommitOK, Grows;
    var s' := Elect(s, n);
    var own := Ack(s.vol[n].hard.term, n, |s.vol[n].hard.log|);
    assert NodeOK(s, n) by { OneNode(s, n); }
    ElectFresh(s, n, Q);
    ElectLocal(s, n);
    ElectNode(s, s', n);
    LocalNodes(s, s', n, {own});
    ElectTerms(s, s', n, Q, {own});
    LocalVotes(s, s', n, {own});
    LocalUnique(s, s', n, {own});
    ElectLeaders(s, s', n, Q, {own});
    ElectKept(s, s', n, own);
    LocalBallots(s, s', n, {own});
    CommitLater(s, n, s.vol[n].hard.term);
    LocalCommit(s, s', n, {own});
    ElectLed(s, s', n, own);
  }

  lemma {:induction false} ElectLed(s: State, s': State, n: NodeId, own: Packet)
    requires InvTypes(s) && InvLed(s) && n in s.ids && VolAt(s, n).hard.term !in s.owner && s' == Elect(s, n)
    requires own == Ack(VolAt(s, n).hard.term, n, |VolAt(s, n).hard.log|) && Local(s, s', n, {own})
    ensures InvLed(s')
  {
    hide CommitOK, Grows;
    assert LedNode(s, n);
    assert Sent(s', own);
    LocalLed(s, s', n, {own});
  }

  // ------------------------------------------------------------------ Extend

  lemma {:induction false} ExtendLocal(s: State, n: NodeId, ents: seq<Entry>)
    requires InvTypes(s) && n in s.ids && NodeOK(s, n) && CanExtend(s, n, ents)
    ensures InvTypes(Extend(s, n, ents))
    ensures Local(s, Extend(s, n, ents), n, {Ack(VolAt(s, n).hard.term, n, |VolAt(s, n).hard.log + ents|)})
  {
  }

  lemma {:induction false} ExtendNode(s: State, s': State, n: NodeId, ents: seq<Entry>)
    requires InvTypes(s) && n in s.ids && NodeOK(s, n) && CanExtend(s, n, ents)
    requires s' == Extend(s, n, ents) && Grows(s, s', n)
    ensures NodeOK(s', n)
  {
    RootedGrows(s, s', n, s.vol[n].hard.log);
    RootedGrows(s, s', n, s.dur[n].log);
    var log := s.vol[n].hard.log;
    var log' := s'.vol[n].hard.log;
    forall k | 0 <= k < |log'|
      ensures log'[k].term in s'.tlog && Agree(log', s'.tlog[log'[k].term], k + 1)
    {
      if k < |log| {
        assert Agree(log, s'.tlog[log[k].term], k + 1);
      }
    }
  }

  lemma {:induction false} ExtendTerms(s: State, s': State, n: NodeId, ents: seq<Entry>, add: set<Packet>)
    requires InvTypes(s) && InvTerms(s) && n in s.ids && NodeOK(s, n) && NodeOK(s', n) && CanExtend(s, n, ents)
    requires s' == Extend(s, n, ents) && Local(s, s', n, add)
    ensures InvTerms(s')
  {
    forall t | t in s'.tlog
      ensures TermOK(s', t)
    {
      assert TermOK(s, t);
      if t == s.vol[n].hard.term {
        ElectedGrows(s, s', t, n);
      } else {
        OtherTerm(s, s', n, add, t);
      }
    }
  }

  lemma {:induction false} HeldLonger(s: State, p: Packet, log: seq<Entry>, log': seq<Entry>)
    requires p.Ack? && HeldUpTo(s, p, log) && Agree(log', log, |log|)
    ensures HeldUpTo(s, p, log')
  {
    hide Doomed;
    forall t: nat, i: nat | t <= p.term && Own(s, t, i)
      ensures Agree(log', s.tlog[t], Min(i, p.index)) || Doomed(s, t, i)
    {
      assert Agree(log, s.tlog[t], Min(i, p.index)) || Doomed(s, t, i);
    }
  }

  lemma {:induction false} ExtendKept(s: State, s': State, n: NodeId, ents: seq<Entry>, own: Packet)
    requires InvTypes(s) && InvNodes(s) && InvAcks(s) && InvKept(s) && LateDoomed(s, s') && InvLeaders(s')
    requires n in s.ids && CanExtend(s, n, ents) && s' == Extend(s, n, ents)
    requires own == Ack(VolAt(s, n).hard.term, n, |VolAt(s, n).hard.log + ents|)
    requires Local(s, s', n, {own}) && (own in s.net ==> ents == [])
    ensures InvAcks(s') && InvKept(s')
  {
    hide HeldUpTo, LateDoomed, InvLeaders;
    var log := s.vol[n].hard.log;
    assert NodeOK(s, n);
    forall p | Sent(s, p) && p.Ack? && p.from == n
      ensures HeldUpTo(s, p, log + ents)
      ensures p.term == s.vol[n].hard.term ==> Agree(log + ents, s.tlog[p.term], p.index)
    {
      assert AckOK(s, p) && HeldUpTo(s, p, log);
      HeldLonger(s, p, log, log + ents);
    }
    if own in s.net {
      assert AckOK(s, own) && HeldUpTo(s, own, s.dur[n].log);
      HeldLocal(s, s', n, {own}, own, s.dur[n].log);
    }
    LeaderHolds(s', own);
    LocalAcks(s, s', n, {own});
    LocalKept(s, s', n, {own});
  }

  lemma {:induction false} ExtendAckNew(s: State, n: NodeId, ents: seq<Entry>)
    requires InvAcks(s) && InvTypes(s) && n in s.ids && NodeOK(s, n) && CanExtend(s, n, ents)
    ensures Ack(VolAt(s, n).hard.term, n, |VolAt(s, n).hard.log + ents|) in s.net ==> ents == []
  {
    var own := Ack(s.vol[n].hard.term, n, |s.vol[n].hard.log + ents|);
    if own in s.net {
      assert Sent(s, own) && AckOK(s, own);
    }
  }

  /** A position a deposed leader adds is doomed: the electors of the later leader never acknowledge it. */
  lemma {:induction false} ExtendDoomed(s: State, s': State, n: NodeId, ents: seq<Entry>, add: set<Packet>, i: nat, u: nat)
    requires InvTypes(s) && InvNodes(s) && InvTerms(s) && InvVotes(s) && InvAcks(s)
    requires n in s.ids && CanExtend(s, n, ents) && s' == Extend(s, n, ents) && Local(s, s', n, add)
    requires u in s.tlog && u > VolAt(s, n).hard.term && i > |VolAt(s, n).hard.log|
    ensures Doomed(s', VolAt(s, n).hard.term, i)
  {
    var t := s.vol[n].hard.term;
    assert NodeOK(s, n) && TermOK(s, u);
    var Q :| Quorum(s.ids, Q) && AllVoted(s, Q, u, s.owner[u]);
    forall q | q in Q
      ensures Gone(s', q, t, i)
    {
      ElectorGone(s, s', n, ents, add, i, u, q);
    }
    assert AllGone(s', Q, t, i);
  }

  lemma {:induction false} ExtendLate(s: State, s': State, n: NodeId, ents: seq<Entry>, add: set<Packet>)
    requires InvTypes(s) && InvNodes(s) && InvTerms(s) && InvVotes(s) && InvAcks(s) && NodeOK(s, n)
    requires n in s.ids && CanExtend(s, n, ents) && s' == Extend(s, n, ents) && Local(s, s', n, add)
    ensures LateDoomed(s, s')
  {
    hide InvVotes, InvAcks, InvTerms, InvNodes, Doomed, Local;
    forall t: nat, i: nat, u: nat | t < u && u in s.tlog && Own(s', t, i) && (t !in s.tlog || i > |s.tlog[t]|)
      ensures Doomed(s', t, i)
    {
      ExtendDoomed(s, s', n, ents, add, i, u);
    }
  }

  lemma {:induction false} ElectorGone(s: State, s': State, n: NodeId, ents: seq<Entry>, add: set<Packet>, i: nat, u: nat, q: NodeId)
    requires InvTypes(s) && InvVotes(s) && InvAcks(s)
    requires n in s.ids && CanExtend(s, n, ents) && s' == Extend(s, n, ents) && Local(s, s', n, add)
    requires u in s.tlog && u > VolAt(s, n).hard.term && i > |VolAt(s, n).hard.log|
    requires NodeOK(s, n) && TermOK(s, u)
    requires q in s.ids && (Vote(u, q, s.owner[u]) in s.net || s.ids == {q})
    ensures Gone(s', q, VolAt(s, n).hard.term, i)
  {
    hide Grows, Rooted, Shaped;
    var t := s.vol[n].hard.term;
    if Vote(u, q, s.owner[u]) in s.net {
      assert Sent(s, Vote(u, q, s.owner[u]));
      assert VoteOK(s, Vote(u, q, s.owner[u]));
    }
    assert q != n;
    forall j: nat | j >= i
      ensures !Sent(s', Ack(t, q, j))
    {
      assert Sent(s', Ack(t, q, j)) == Sent(s, Ack(t, q, j));
    }
  }

  lemma {:induction false} ExtendLeaders(s: State, s': State, n: NodeId, ents: seq<Entry>, add: set<Packet>)
    requires InvTypes(s) && InvNodes(s) && InvTerms(s) && InvVotes(s) && InvAcks(s) && InvLeaders(s)
    requires n in s.ids && CanExtend(s, n, ents) && s' == Extend(s, n, ents) && Local(s, s', n, add)
    ensures InvLeaders(s')
  {
    hide InvVotes, InvAcks, InvTerms, InvNodes, HoldsOr, Local;
    assert NodeOK(s, n) by { OneNode(s, n); }
    forall t: nat, i: nat, u: nat | t < u && u in s'.tlog
      ensures HoldsOr(s', t, i, s'.tlog[u])
    {
      assert HoldsOr(s, t, i, s.tlog[u]);
      ExtendHolds(s, s', n, ents, add, t, i, u);
    }
  }

  lemma {:induction false} ExtendHolds(s: State, s': State, n: NodeId, ents: seq<Entry>, add: set<Packet>, t: nat, i: nat, u: nat)
    requires InvTypes(s) && InvNodes(s) && InvTerms(s) && InvVotes(s) && InvAcks(s) && NodeOK(s, n)
    requires n in s.ids && CanExtend(s, n, ents) && s' == Extend(s, n, ents) && Local(s, s', n, add)
    requires t < u && u in s'.tlog && u in s.tlog && HoldsOr(s, t, i, TlogAt(s, u))
    ensures HoldsOr(s', t, i, TlogAt(s', u))
  {
    hide InvVotes, InvAcks, InvTerms, InvNodes, Doomed, Local;
    if t in s.tlog && i <= |s.tlog[t]| {
      HoldsLocal(s, s', n, add, t, i, s.tlog[u]);
      HoldsLonger(s', t, i, s.tlog[u], s'.tlog[u]);
    } else if t == s.vol[n].hard.term {
      ExtendDoomed(s, s', n, ents, add, i, u);
    }
  }

  lemma {:induction false} HoldsLonger(s: State, t: nat, i: nat, log: seq<Entry>, log': seq<Entry>)
    requires HoldsOr(s, t, i, log) && Agree(log', log, |log|)
    ensures HoldsOr(s, t, i, log')
  {
  }

  lemma {:induction false} ExtendKeepsInv(s: State, n: NodeId, ents: seq<Entry>)
    requires Inv(s) && n in s.ids && CanExtend(s, n, ents)
    ensures Inv(Extend(s, n, ents))
  {
    hide InvNodes, InvTerms, InvVotes, InvUnique, InvAcks, InvKept, InvBallots, InvLeaders, InvCommit, InvLed, Grows, NodeCommitOK, CommitOK;
    var s' := Extend(s, n, ents);
    var own := Ack(s.vol[n].hard.term, n, |s.vol[n].hard.log + ents|);
    assert NodeOK(s, n) by { OneNode(s, n); }
    ExtendLocal(s, n, ents);
    ExtendNode(s, s', n, ents);
    LocalNodes(s, s', n, {own});
    ExtendTerms(s, s', n, ents, {own});
    LocalVotes(s, s', n, {own});
    LocalUnique(s, s', n, {own});
    ExtendAckNew(s, n, ents);
    ExtendLate(s, s', n, ents, {own});
    ExtendLeaders(s, s', n, ents, {own});
    ExtendKept(s, s', n, ents, own);
    LocalBallots(s, s', n, {own});
    ExtendCommit(s, n, ents);
    LocalCommit(s, s', n, {own});
    ExtendLed(s, s', n, ents, own);
  }

  lemma {:induction false} ExtendLed(s: State, s': State, n: NodeId, ents: seq<Entry>, own: Packet)
    requires InvTypes(s) && InvLed(s) && n in s.ids && NodeOK(s, n) && CanExtend(s, n, ents) && s' == Extend(s, n, ents)
    requires own == Ack(VolAt(s, n).hard.term, n, |VolAt(s, n).hard.log + ents|) && Local(s, s', n, {own})
    ensures InvLed(s')
  {
    hide CommitOK, Grows, Rooted, Shaped;
    assert LedNode(s, n);
    assert Sent(s', own);
    var h := s.vol[n].hard;
    if s.ids != {n} {
      CommitExtends(s, NONE, h.term, h.log, ents, h.commit);
    }
    LocalLed(s, s', n, {own});
  }

  lemma {:induction false} CommitExtends(s: State, who: NodeId, term: nat, log: seq<Entry>, ents: seq<Entry>, c: nat)
    requires CommitOK(s, who, term, log, c)
    ensures CommitOK(s, who, term, log + ents, c)
  {
    CommitUp(s, who, term, term, log, log + ents, c);
  }

  lemma {:induction false} ExtendCommit(s: State, n: NodeId, ents: seq<Entry>)
    requires n in s.ids && n in s.vol && InvCommit(s)
    ensures CommitOK(s, n, VolAt(s, n).hard.term, VolAt(s, n).hard.log + ents, VolAt(s, n).hard.commit)
  {
    assert NodeCommitOK(s, n);
    var h := s.vol[n].hard;
    CommitUp(s, n, h.term, h.term, h.log, h.log + ents, h.commit);
  }

  // ------------------------------------------------------------------ Adopt

  /** Only what the leader has made durable and announced can be taken over. */
  ghost predicate CanAdopt(s: State, n: NodeId, hi: nat) {
    && n in s.vol && s.vol[n].hard.term in s.tlog && hi <= |s.tlog[s.vol[n].hard.term]|
    && s.vol[n].hard.term in s.owner && s.owner[s.vol[n].hard.term] != n
    && NetAck(s, s.owner[s.vol[n].hard.term], s.vol[n].hard.term, hi)
  }

  lemma {:induction false} AdoptLocal(s: State, n: NodeId, hi: nat)
    requires InvTypes(s) && n in s.ids && CanAdopt(s, n, hi)
    ensures InvTypes(Adopt(s, n, hi))
    ensures Local(s, Adopt(s, n, hi), n, {Ack(VolAt(s, n).hard.term, n, hi)})
  {
  }

  lemma {:induction false} AdoptNode(s: State, n: NodeId, hi: nat)
    requires InvTypes(s) && n in s.ids && NodeOK(s, n) && CanAdopt(s, n, hi) && TermOK(s, VolAt(s, n).hard.term)
    ensures NodeOK(Adopt(s, n, hi), n)
  {
    var s' := Adopt(s, n, hi);
    var t := s.vol[n].hard.term;
    var log := s'.vol[n].hard.log;
    RootedSame(s, s', s.vol[n].hard.log);
    RootedSame(s, s', s.dur[n].log);
    if log != s.vol[n].hard.log {
      RootedPrefix(s', s.tlog[t], hi);
    }
  }

  lemma {:induction false} RootedPrefix(s: State, log: seq<Entry>, hi: nat)
    requires Rooted(s, log) && hi <= |log|
    ensures Rooted(s, log[..hi])
  {
    forall k | 0 <= k < hi
      ensures log[k].term in s.tlog && Agree(log[..hi], s.tlog[log[k].term], k + 1)
    {
      assert Agree(log, s.tlog[log[k].term], k + 1);
    }
  }

  /** Taking over a prefix of the leader's log never loses an acknowledged entry that could still be chosen. */
  lemma {:induction false} AdoptHolds(s: State, n: NodeId, hi: nat, t: nat, i: nat, k: nat)
    requires InvLeaders(s) && n in s.vol && CanAdopt(s, n, hi) && t <= VolAt(s, n).hard.term && Own(s, t, i) && k <= i
    requires Agree(VolAt(s, n).hard.log, TlogAt(s, t), k) || Doomed(s, t, i)
    ensures Agree(Adopt(s, n, hi).vol[n].hard.log, TlogAt(s, t), k) || Doomed(s, t, i)
  {
    hide Doomed, NetAck;
    var u := s.vol[n].hard.term;
    var log := s.vol[n].hard.log;
    var log' := Adopt(s, n, hi).vol[n].hard.log;
    if !Doomed(s, t, i) && log' != log {
      if t < u {
        assert HoldsOr(s, t, i, s.tlog[u]);
      }
      assert Agree(s.tlog[u], s.tlog[t], i);
      assert Agree(log, s.tlog[u], k);
      assert k <= hi;
    }
  }

  lemma {:induction false} AdoptHeld(s: State, n: NodeId, hi: nat, p: Packet)
    requires InvLeaders(s) && n in s.vol && CanAdopt(s, n, hi) && p.Ack? && p.from == n && p.term <= VolAt(s, n).hard.term
    requires p.term == VolAt(s, n).hard.term ==> p.term in s.tlog && Agree(VolAt(s, n).hard.log, TlogAt(s, p.term), p.index)
    requires HeldUpTo(s, p, VolAt(s, n).hard.log)
    ensures HeldUpTo(s, p, Adopt(s, n, hi).vol[n].hard.log)
    ensures p.term == VolAt(s, n).hard.term ==> Agree(Adopt(s, n, hi).vol[n].hard.log, TlogAt(s, p.term), p.index)
  {
    hide Doomed, NetAck, InvLeaders;
    var log' := Adopt(s, n, hi).vol[n].hard.log;
    forall t: nat, i: nat | t <= p.term && Own(s, t, i)
      ensures Agree(log', s.tlog[t], Min(i, p.index)) || Doomed(s, t, i)
    {
      assert Agree(s.vol[n].hard.log, s.tlog[t], Min(i, p.index)) || Doomed(s, t, i);
      AdoptHolds(s, n, hi, t, i, Min(i, p.index));
    }
  }

  lemma {:induction false} AdoptKept(s: State, s': State, n: NodeId, hi: nat, own: Packet)
    requires InvTypes(s) && InvNodes(s) && InvTerms(s) && InvAcks(s) && InvKept(s) && InvLeaders(s)
    requires n in s.ids && CanAdopt(s, n, hi) && s' == Adopt(s, n, hi)
    requires own == Ack(VolAt(s, n).hard.term, n, hi) && Local(s, s', n, {own})
    ensures InvAcks(s') && InvKept(s') && LateDoomed(s, s')
  {
    hide InvNodes, InvTerms, InvLeaders, Grows, HoldsOr;
    var t := s.vol[n].hard.term;
    assert NodeOK(s, n) by { OneNode(s, n); }
    forall p | Sent(s, p) && p.Ack? && p.from == n
      ensures HeldUpTo(s, p, s'.vol[n].hard.log)
      ensures p.term == t ==> Agree(s'.vol[n].hard.log, s.tlog[t], p.index)
    {
      assert AckOK(s, p) && HeldUpTo(s, p, s.vol[n].hard.log);
      AdoptHeld(s, n, hi, p);
    }
    AdoptOwnAck(s, s', n, hi, own);
    LocalAcks(s, s', n, {own});
    LocalKept(s, s', n, {own});
  }

  lemma {:induction false} AdoptOwnAck(s: State, s': State, n: NodeId, hi: nat, own: Packet)
    requires InvTypes(s) && InvAcks(s) && InvKept(s) && NodeOK(s, n) && InvNodes(s) && InvLeaders(s)
    requires n in s.ids && CanAdopt(s, n, hi) && s' == Adopt(s, n, hi)
    requires own == Ack(VolAt(s, n).hard.term, n, hi) && Local(s, s', n, {own})
    ensures AckOK(s', own) && HeldUpTo(s', own, VolAt(s', n).hard.log)
    ensures own in s'.net ==> HeldUpTo(s', own, DurAt(s', n).log)
  {
    if own in s.net {
      assert Sent(s, own) && AckOK(s, own);
      HeldLocal(s, s', n, {own}, own, s.dur[n].log);
    }
    LocalLeaders(s, s', n, {own});
    AgreeingHolds(s', own, s'.vol[n].hard.log);
  }

  /** A log that agrees with the leader's up to the acknowledged index holds whatever the leader holds. */
  lemma {:induction false} AgreeingHolds(s: State, p: Packet, log: seq<Entry>)
    requires InvLeaders(s) && p.Ack? && p.term in s.tlog && Agree(log, TlogAt(s, p.term), p.index)
    ensures HeldUpTo(s, p, log)
  {
    hide Doomed;
    forall t: nat, i: nat | t <= p.term && Own(s, t, i)
      ensures Agree(log, s.tlog[t], Min(i, p.index)) || Doomed(s, t, i)
    {
      if t < p.term {
        assert HoldsOr(s, t, i, s.tlog[p.term]);
      }
    }
  }

  /** Leader completeness makes every adoption keep the committed prefix. */
  lemma {:induction false} AdoptCommit(s: State, n: NodeId, hi: nat)
    requires n in s.ids && CanAdopt(s, n, hi) && InvCommit(s) && InvLeaders(s)
    ensures Agree(VolAt(s, n).hard.log, TlogAt(s, VolAt(s, n).hard.term), VolAt(s, n).hard.commit)
    ensures Agree(Adopt(s, n, hi).vol[n].hard.log, VolAt(s, n).hard.log, VolAt(s, n).hard.commit)
    ensures CommitOK(s, n, VolAt(s, n).hard.term, Adopt(s, n, hi).vol[n].hard.log, VolAt(s, n).hard.commit)
  {
    assert NodeCommitOK(s, n);
    var h := s.vol[n].hard;
    var log' := Adopt(s, n, hi).vol[n].hard.log;
    CommittedInLeader(s, n, h.term, h.log, h.commit, h.term);
    assert log' != h.log ==> h.commit < hi;
    CommitUp(s, n, h.term, h.term, h.log, log', h.commit);
  }

  lemma {:induction false} AdoptKeepsInv(s: State, n: NodeId, hi: nat)
    requires Inv(s) && n in s.ids && CanAdopt(s, n, hi)
    ensures Inv(Adopt(s, n, hi))
  {
    hide InvNodes, InvTerms, InvVotes, InvUnique, InvAcks, InvKept, InvBallots, InvLeaders, InvCommit, InvLed, Grows, NodeCommitOK, CommitOK, Agree;
    var s' := Adopt(s, n, hi);
    var own := Ack(s.vol[n].hard.term, n, hi);
    assert NodeOK(s, n) by { OneNode(s, n); }
    assert TermOK(s, s.vol[n].hard.term) by { OneTerm(s, s.vol[n].hard.term); }
    AdoptLocal(s, n, hi);
    AdoptNode(s, n, hi);
    LocalNodes(s, s', n, {own});
    LocalTerms(s, s', n, {own});
    LocalVotes(s, s', n, {own});
    LocalUnique(s, s', n, {own});
    AdoptKept(s, s', n, hi, own);
    LocalBallots(s, s', n, {own});
    LocalLeaders(s, s', n, {own});
    AdoptCommit(s, n, hi);
    LocalCommit(s, s', n, {own});
    AdoptLed(s, s', n, hi, own);
  }

  lemma {:induction false} AdoptLed(s: State, s': State, n: NodeId, hi: nat, own: Packet)
    requires InvTypes(s) && InvLed(s) && n in s.ids && CanAdopt(s, n, hi) && s' == Adopt(s, n, hi)
    requires own == Ack(VolAt(s, n).hard.term, n, hi) && Local(s, s', n, {own})
    requires Agree(VolAt(s', n).hard.log, VolAt(s, n).hard.log, VolAt(s, n).hard.commit)
    ensures InvLed(s')
  {
    hide CommitOK, Grows;
    assert LedNode(s, n);
    var h := s.vol[n].hard;
    if s.ids != {n} {
      CommitUp(s, NONE, h.term, h.term, h.log, s'.vol[n].hard.log, h.commit);
    }
    NetAckGrows(s, s', s.owner[h.term], h.term, hi);
    LocalLed(s, s', n, {own});
  }

  lemma {:induction false} OneTerm(s: State, t: nat)
    requires t in s.tlog && InvTerms(s)
    ensures TermOK(s, t)
  {
  }
}
