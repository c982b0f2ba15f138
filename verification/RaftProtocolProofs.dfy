/** Consequences of the protocol's invariant, and what every step of one node keeps of it. */
module RaftProtocolProofs {
  import opened RaftTypes
  import opened RaftProtocol

  // ------------------------------------------------------------------ consequences of the invariant

  /** Log matching: logs that hold the same term at a position agree up to there. */
  lemma {:induction false} SameTermSamePrefix(s: State, a: seq<Entry>, b: seq<Entry>, i: nat)
    requires Rooted(s, a) && Rooted(s, b)
    requires 1 <= i <= |a| && i <= |b| && a[i - 1].term == b[i - 1].term
    ensures Agree(a, b, i)
  {
    var t := a[i - 1].term;
    assert Agree(a, s.tlog[t], i) && Agree(b, s.tlog[t], i);
  }

  lemma {:induction false} CountedHasAck(s: State, who: NodeId, q: NodeId, t: nat, i: nat)
    requires Counted(s, who, q, t, i)
    ensures HasAck(s, q, t, i)
  {
    if NetAck(s, q, t, i) {
      var j: nat :| j >= i && Ack(t, q, j) in s.net;
      assert Sent(s, Ack(t, q, j));
    }
  }

  /** A majority that acknowledged and a majority that left without doing so cannot both exist. */
  lemma {:induction false} ChosenNotDoomed(s: State, who: NodeId, t: nat, i: nat)
    requires Chosen(s, who, t, i)
    ensures !Doomed(s, t, i)
  {
    var Q :| Quorum(s.ids, Q) && AllCounted(s, who, Q, t, i);
    forall P | Quorum(s.ids, P)
      ensures !AllGone(s, P, t, i)
    {
      var q := QuorumsMeet(s.ids, P, Q);
      assert Counted(s, who, q, t, i);
      CountedHasAck(s, who, q, t, i);
      assert !Gone(s, q, t, i);
    }
  }

  /** A chosen position is not doomed, so every later leader holds it. */
  lemma {:induction false} ChosenInLaterLeader(s: State, who: NodeId, t: nat, i: nat, u: nat)
    requires InvLeaders(s)
    requires Chosen(s, who, t, i) && t < u && u in s.tlog
    ensures Agree(TlogAt(s, u), TlogAt(s, t), i)
  {
    ChosenNotDoomed(s, who, t, i);
    assert HoldsOr(s, t, i, s.tlog[u]);
  }

  /** Committed entries of any node are in the log of the leader of any term that is not older. */
  lemma {:induction false} CommittedInLeader(s: State, who: NodeId, term: nat, log: seq<Entry>, c: nat, u: nat)
    requires InvLeaders(s)
    requires CommitOK(s, who, term, log, c) && term <= u && u in s.tlog
    ensures Agree(log, TlogAt(s, u), c)
  {
    if c > 0 {
      var t: nat, i: nat :| t <= term && c <= i && Chosen(s, who, t, i) && Agree(log, s.tlog[t], c);
      if t < u {
        ChosenInLaterLeader(s, who, t, i, u);
      }
    }
  }

  /** Two chosen prefixes are comparable. */
  lemma {:induction false} ChosenComparable(s: State, who: NodeId, t: nat, i: nat, who': NodeId, u: nat, j: nat)
    requires InvLeaders(s)
    requires Chosen(s, who, t, i) && Chosen(s, who', u, j)
    ensures Agree(TlogAt(s, t), TlogAt(s, u), Min(i, j))
  {
    if t < u {
      ChosenInLaterLeader(s, who, t, i, u);
    } else if u < t {
      ChosenInLaterLeader(s, who', u, j, t);
    }
  }

  /** Whoever acknowledged a position in some term still holds what is committed of it, whatever its own
      term is by now. */
  lemma {:induction false} AckedCommitted(s: State, who: NodeId, p: Packet, log: seq<Entry>, x: nat)
    requires p.Ack? && HeldUpTo(s, p, log) && x <= p.index && p.term in s.tlog
    requires CommitOK(s, who, p.term, TlogAt(s, p.term), x)
    ensures Agree(log, TlogAt(s, p.term), x)
  {
    if x > 0 {
      var t: nat, i: nat :| t <= p.term && x <= i && Chosen(s, who, t, i) && Agree(s.tlog[p.term], s.tlog[t], x);
      ChosenNotDoomed(s, who, t, i);
      assert Own(s, t, i);
      assert Agree(log, s.tlog[t], Min(i, p.index));
    }
  }

  // ------------------------------------------------------------------ monotonicity

  /** Term logs only get longer, and only those led by `n` change. */
  ghost predicate Grows(s: State, s': State, n: NodeId) {
    && (forall t :: t in s.tlog ==>
          && t in s'.tlog && t in s.owner && t in s'.owner && s'.owner[t] == s.owner[t]
          && Agree(s'.tlog[t], s.tlog[t], |s.tlog[t]|)
          && (s.owner[t] != n ==> s'.tlog[t] == s.tlog[t]))
    && (forall t :: t in s'.owner ==> t in s.tlog || s'.owner[t] == n)
  }

  lemma {:induction false} RootedGrows(s: State, s': State, n: NodeId, log: seq<Entry>)
    requires Rooted(s, log) && Grows(s, s', n)
    ensures Rooted(s', log)
  {
    forall k | 0 <= k < |log|
      ensures log[k].term in s'.tlog && Agree(log, s'.tlog[log[k].term], k + 1)
    {
      assert Agree(log, s.tlog[log[k].term], k + 1);
    }
  }

  /** A step of node `n` that queues the packets `add`; acknowledgements are of a term it was already in. */
  ghost predicate Local(s: State, s': State, n: NodeId, add: set<Packet>) {
    && n in s.ids && n in s.vol && n in s'.vol
    && s'.ids == s.ids && s'.dur == s.dur && s'.net == s.net && s'.decided == s.decided
    && s'.vol == s.vol[n := s'.vol[n]]
    && s'.vol[n].hard.term >= s.vol[n].hard.term
    && s'.queued == s.queued + add
    && (forall p :: p in add ==> p.from == n && p.term == s'.vol[n].hard.term)
    && (forall p :: p in add && p.Ack? ==> p.term == s.vol[n].hard.term)
    && Grows(s, s', n)
  }

  lemma {:induction false} DoomedLocal(s: State, s': State, n: NodeId, add: set<Packet>, t: nat, i: nat)
    requires InvNodes(s) && Local(s, s', n, add)
    requires Doomed(s, t, i)
    ensures Doomed(s', t, i)
  {
    var Q :| Quorum(s.ids, Q) && AllGone(s, Q, t, i);
    forall q | q in Q
      ensures Gone(s', q, t, i)
    {
      assert Gone(s, q, t, i);
      assert NodeOK(s, q);
      forall j: nat | j >= i
        ensures !Sent(s', Ack(t, q, j))
      {
        assert !Sent(s, Ack(t, q, j));
      }
    }
    assert AllGone(s', Q, t, i);
  }

  lemma {:induction false} HoldsLocal(s: State, s': State, n: NodeId, add: set<Packet>, t: nat, i: nat, log: seq<Entry>)
    requires InvNodes(s) && Local(s, s', n, add)
    requires t in s.tlog && i <= |TlogAt(s, t)|
    requires HoldsOr(s, t, i, log)
    ensures HoldsOr(s', t, i, log)
  {
    if Own(s', t, i) {
      assert s'.tlog[t][i - 1] == s.tlog[t][i - 1];
      assert Own(s, t, i);
      if Doomed(s, t, i) {
        DoomedLocal(s, s', n, add, t, i);
      } else {
        assert Agree(log, s.tlog[t], i);
      }
    }
  }

  /** What the log of a term gains after a later leader was elected is doomed. */
  ghost predicate LateDoomed(s: State, s': State) {
    forall t: nat, i: nat, u: nat :: t < u && u in s.tlog && Own(s', t, i) && (t !in s.tlog || i > |s.tlog[t]|) ==>
      Doomed(s', t, i)
  }

  lemma {:induction false} KeepsLocal(s: State, s': State, n: NodeId, add: set<Packet>, p: Packet, log: seq<Entry>)
    requires InvNodes(s) && Local(s, s', n, add) && LateDoomed(s, s')
    requires p.Ack? && AckOK(s, p) && Keeps(s, p, log)
    ensures Keeps(s', p, log)
  {
    hide InvNodes, Local, Doomed;
    forall t: nat, i: nat | t <= p.term && i <= p.index
      ensures HoldsOr(s', t, i, log)
    {
      if t in s.tlog && i <= |s.tlog[t]| {
        HoldsLocal(s, s', n, add, t, i, log);
      }
    }
  }

  lemma {:induction false} HeldKeeps(s: State, p: Packet, log: seq<Entry>)
    requires p.Ack? && HeldUpTo(s, p, log)
    ensures Keeps(s, p, log)
  {
    hide Doomed;
    forall t: nat, i: nat | t <= p.term && i <= p.index
      ensures HoldsOr(s, t, i, log)
    {
      assert Own(s, t, i) ==> Agree(log, s.tlog[t], Min(i, p.index)) || Doomed(s, t, i);
    }
  }

  lemma {:induction false} HeldLocal(s: State, s': State, n: NodeId, add: set<Packet>, p: Packet, log: seq<Entry>)
    requires InvTypes(s) && InvNodes(s) && Local(s, s', n, add) && LateDoomed(s, s')
    requires p.Ack? && AckOK(s, p) && HeldUpTo(s, p, log)
    requires p.from == n && p.term == VolAt(s, n).hard.term ==> Agree(log, TlogAt(s, p.term), p.index)
    requires forall t :: t in s'.tlog && (t !in s.tlog || TlogAt(s', t) != TlogAt(s, t)) ==> t == VolAt(s, n).hard.term
    ensures HeldUpTo(s', p, log)
  {
    hide InvNodes, Doomed, LateDoomed;
    assert Agree(s'.tlog[p.term], s.tlog[p.term], p.index);
    forall t: nat, i: nat | t <= p.term && Own(s', t, i)
      ensures Agree(log, s'.tlog[t], Min(i, p.index)) || Doomed(s', t, i)
    {
      if t in s.tlog && i <= |s.tlog[t]| {
        HeldOld(s, s', n, add, p, log, t, i);
      } else {
        HeldNew(s, s', n, p, log, t, i);
      }
    }
  }

  lemma {:induction false} HeldOld(s: State, s': State, n: NodeId, add: set<Packet>, p: Packet, log: seq<Entry>, t: nat, i: nat)
    requires InvNodes(s) && Local(s, s', n, add) && p.Ack? && HeldUpTo(s, p, log)
    requires t <= p.term && Own(s', t, i) && t in s.tlog && i <= |TlogAt(s, t)|
    ensures Agree(log, TlogAt(s', t), Min(i, p.index)) || Doomed(s', t, i)
  {
    hide Doomed;
    assert s'.tlog[t][i - 1] == s.tlog[t][i - 1];
    assert Own(s, t, i);
    if Doomed(s, t, i) {
      DoomedLocal(s, s', n, add, t, i);
    } else {
      assert Agree(log, s.tlog[t], Min(i, p.index));
    }
  }

  lemma {:induction false} HeldNew(s: State, s': State, n: NodeId, p: Packet, log: seq<Entry>, t: nat, i: nat)
    requires InvTypes(s) && n in s.ids && Grows(s, s', n) && LateDoomed(s, s')
    requires p.Ack? && AckOK(s, p) && HeldUpTo(s, p, log) && s'.ids == s.ids
    requires p.from == n && p.term == VolAt(s, n).hard.term ==> Agree(log, TlogAt(s, p.term), p.index)
    requires t == VolAt(s, n).hard.term
    requires t <= p.term && Own(s', t, i) && !(t in s.tlog && i <= |TlogAt(s, t)|)
    ensures Agree(log, TlogAt(s', t), Min(i, p.index)) || Doomed(s', t, i)
  {
    hide Doomed;
    if u :| u in s.tlog && u > t {
      assert Doomed(s', t, i);
    } else {
      assert t == p.term && Latest(s, t) && p.from in s.ids;
      assert Agree(log, s.tlog[t], p.index);
    }
  }

  lemma {:induction false} NetAckGrows(s: State, s': State, q: NodeId, t: nat, i: nat)
    requires s.net <= s'.net && NetAck(s, q, t, i)
    ensures NetAck(s', q, t, i)
  {
    var j: nat :| j >= i && Ack(t, q, j) in s.net;
    assert Ack(t, q, j) in s'.net;
  }

  /** What is chosen stays chosen as long as nothing that was sent disappears. */
  lemma {:induction false} ChosenGrows(s: State, s': State, who: NodeId, t: nat, i: nat)
    requires s'.ids == s.ids && s.net <= s'.net && Chosen(s, who, t, i)
    requires t in s'.tlog && Agree(TlogAt(s', t), TlogAt(s, t), |TlogAt(s, t)|)
    requires forall p :: p in s.queued && p.from == who ==> Sent(s', p)
    ensures Chosen(s', who, t, i)
  {
    var Q :| Quorum(s.ids, Q) && AllCounted(s, who, Q, t, i);
    forall q | q in Q
      ensures Counted(s', who, q, t, i)
    {
      assert Counted(s, who, q, t, i);
      if NetAck(s, q, t, i) {
        NetAckGrows(s, s', q, t, i);
      } else {
        var j: nat :| j >= i && Sent(s, Ack(t, q, j));
        assert Sent(s', Ack(t, q, j));
      }
    }
    assert AllCounted(s', who, Q, t, i);
  }

  lemma {:induction false} CommitGrows(s: State, s': State, n: NodeId, who: NodeId, term: nat, term': nat, log: seq<Entry>, log': seq<Entry>, c: nat)
    requires s'.ids == s.ids && s.net <= s'.net && Grows(s, s', n)
    requires forall p :: p in s.queued && p.from == who ==> Sent(s', p)
    requires CommitOK(s, who, term, log, c) && term <= term' && Agree(log', log, c)
    ensures CommitOK(s', who, term', log', c)
  {
    if c > 0 {
      var t: nat, i: nat :| t <= term && c <= i && Chosen(s, who, t, i) && Agree(log, s.tlog[t], c);
      ChosenGrows(s, s', who, t, i);
      assert Agree(log', s'.tlog[t], c);
    }
  }

  lemma {:induction false} CommitDown(s: State, who: NodeId, term: nat, log: seq<Entry>, c: nat, c': nat)
    requires CommitOK(s, who, term, log, c) && c' <= c
    ensures CommitOK(s, who, term, log, c')
  {
    if c' > 0 {
      var t: nat, i: nat :| t <= term && c <= i && Chosen(s, who, t, i) && Agree(log, s.tlog[t], c);
      assert Agree(log, s.tlog[t], c');
    }
  }

  lemma {:induction false} CommitStays(s: State, s': State, n: NodeId, who: NodeId, term: nat, log: seq<Entry>, c: nat)
    requires s'.ids == s.ids && s.net <= s'.net && Grows(s, s', n)
    requires forall p :: p in s.queued && p.from == who ==> Sent(s', p)
    requires CommitOK(s, who, term, log, c)
    ensures CommitOK(s', who, term, log, c)
  {
    hide Grows;
    CommitGrows(s, s', n, who, term, term, log, log, c);
  }

  lemma {:induction false} BackedGrows(s: State, s': State, n: NodeId, log: seq<Entry>)
    requires s'.ids == s.ids && s.net <= s'.net && Grows(s, s', n) && NONE !in s.ids
    requires forall p :: p in s.queued ==> p.from in s.ids
    requires Backed(s, log)
    ensures Backed(s', log)
  {
    if log != [] {
      var t: nat, i: nat :| |log| <= i && Chosen(s, NONE, t, i) && Agree(log, s.tlog[t], |log|);
      ChosenGrows(s, s', NONE, t, i);
      assert Agree(log, s'.tlog[t], |log|);
    }
  }

  // ------------------------------------------------------------------ frames

  lemma {:induction false} OtherNode(s: State, s': State, n: NodeId, add: set<Packet>, m: NodeId)
    requires Local(s, s', n, add) && InvTypes(s) && InvTypes(s')
    requires m in s.ids && m != n && NodeOK(s, m)
    ensures NodeOK(s', m)
  {
    RootedGrows(s, s', n, s.vol[m].hard.log);
    RootedGrows(s, s', n, s.dur[m].log);
  }

  lemma {:induction false} ElectedGrows(s: State, s': State, t: nat, o: NodeId)
    requires s'.ids == s.ids && s.net <= s'.net && ElectedBy(s, t, o)
    ensures ElectedBy(s', t, o)
  {
    var Q :| Quorum(s.ids, Q) && AllVoted(s, Q, t, o);
    assert AllVoted(s', Q, t, o);
  }

  lemma {:induction false} OtherTerm(s: State, s': State, n: NodeId, add: set<Packet>, t: nat)
    requires Local(s, s', n, add)
    requires t in s.tlog && TermOK(s, t) && TlogAt(s', t) == TlogAt(s, t)
    ensures TermOK(s', t)
  {
    RootedGrows(s, s', n, s.tlog[t]);
    ElectedGrows(s, s', t, s.owner[t]);
  }

  lemma {:induction false} LocalTerms(s: State, s': State, n: NodeId, add: set<Packet>)
    requires Local(s, s', n, add) && InvTypes(s) && InvTerms(s) && s'.tlog == s.tlog
    ensures InvTerms(s')
  {
    forall t | t in s'.tlog
      ensures TermOK(s', t)
    {
      assert TermOK(s, t);
      OtherTerm(s, s', n, add, t);
    }
  }

  lemma {:induction false} LocalNodes(s: State, s': State, n: NodeId, add: set<Packet>)
    requires Local(s, s', n, add) && InvTypes(s) && InvTypes(s') && InvNodes(s) && NodeOK(s', n)
    ensures InvNodes(s')
  {
    forall m | m in s'.ids
      ensures NodeOK(s', m)
    {
      if m != n {
        assert NodeOK(s, m);
        OtherNode(s, s', n, add, m);
      }
    }
  }

  /** A vote for one candidate is unaffected by another node's step. */
  lemma {:induction false} LocalVotes(s: State, s': State, n: NodeId, add: set<Packet>)
    requires Local(s, s', n, add) && InvTypes(s) && InvVotes(s)
    requires VolAt(s', n).hard.term == VolAt(s, n).hard.term && VolAt(s, n).hard.vote != NONE ==>
               VolAt(s', n).hard.vote == VolAt(s, n).hard.vote
    requires forall p :: p in add && p.Vote? ==> VoteOK(s', p)
    ensures InvVotes(s')
  {
    forall p | Sent(s', p) && p.Vote?
      ensures VoteOK(s', p)
    {
      if Sent(s, p) {
        assert VoteOK(s, p);
        assert p.cand in s.ids;
      }
    }
  }

  lemma {:induction false} LocalUnique(s: State, s': State, n: NodeId, add: set<Packet>)
    requires Local(s, s', n, add) && InvUnique(s)
    requires forall p :: p in add ==> p.Ack?
    ensures InvUnique(s')
  {
    forall t, v, c, d | Sent(s', Vote(t, v, c)) && Sent(s', Vote(t, v, d))
      ensures c == d
    {
      assert Sent(s, Vote(t, v, c)) && Sent(s, Vote(t, v, d));
    }
  }

  lemma {:induction false} OldAck(s: State, s': State, n: NodeId, add: set<Packet>, p: Packet)
    requires Local(s, s', n, add) && InvTypes(s) && p.Ack? && AckOK(s, p) && NodeOK(s, n)
    requires p.from == n && p.term == VolAt(s', n).hard.term ==> Agree(VolAt(s', n).hard.log, TlogAt(s, p.term), p.index)
    ensures AckOK(s', p)
  {
    assert Agree(s'.tlog[p.term], s.tlog[p.term], p.index);
  }

  lemma {:induction false} LocalAcks(s: State, s': State, n: NodeId, add: set<Packet>)
    requires Local(s, s', n, add) && InvTypes(s) && InvAcks(s) && NodeOK(s, n)
    requires forall p :: Sent(s, p) && p.Ack? && p.from == n && p.term == VolAt(s', n).hard.term ==>
               Agree(VolAt(s', n).hard.log, TlogAt(s, p.term), p.index)
    requires forall p :: p in add && p.Ack? ==> AckOK(s', p)
    ensures InvAcks(s')
  {
    hide NodeOK, AckOK, Agree, Grows;
    forall p | Sent(s', p) && p.Ack?
      ensures AckOK(s', p)
    {
      if Sent(s, p) {
        assert AckOK(s, p);
        OldAck(s, s', n, add, p);
      }
    }
  }

  lemma {:induction false} LocalKept(s: State, s': State, n: NodeId, add: set<Packet>)
    requires Local(s, s', n, add) && InvTypes(s) && InvNodes(s) && InvAcks(s) && InvKept(s) && LateDoomed(s, s')
    requires forall t :: t in s'.tlog && (t !in s.tlog || TlogAt(s', t) != TlogAt(s, t)) ==> t == VolAt(s, n).hard.term
    requires forall p :: Sent(s, p) && p.Ack? && p.from == n ==>
               && HeldUpTo(s, p, VolAt(s', n).hard.log)
               && (p.term == VolAt(s, n).hard.term ==> p.term in s.tlog && Agree(VolAt(s', n).hard.log, TlogAt(s, p.term), p.index))
    requires forall p :: p in add && p.Ack? ==>
               n in s'.dur && HeldUpTo(s', p, VolAt(s', n).hard.log) && (p in s'.net ==> HeldUpTo(s', p, DurAt(s', n).log))
    ensures InvKept(s')
  {
    hide HeldUpTo, LateDoomed, Grows, Agree;
    forall p | Sent(s', p) && p.Ack?
      ensures p.from in s'.vol && p.from in s'.dur
      ensures HeldUpTo(s', p, s'.vol[p.from].hard.log)
      ensures p in s'.net ==> HeldUpTo(s', p, s'.dur[p.from].log)
    {
      if Sent(s, p) {
        assert AckOK(s, p);
        HeldLocal(s, s', n, add, p, s'.vol[p.from].hard.log);
        if p in s'.net {
          assert NodeOK(s, p.from) by { assert p.from in s.ids; }
          HeldLocal(s, s', n, add, p, s'.dur[p.from].log);
        }
      }
    }
  }

  /** Ballots stay valid when no new candidacy appears and the new packets are acknowledgements. */
  lemma {:induction false} LocalBallots(s: State, s': State, n: NodeId, add: set<Packet>)
    requires Local(s, s', n, add) && InvNodes(s) && InvVotes(s) && InvAcks(s) && InvBallots(s) && LateDoomed(s, s')
    requires VolAt(s', n).role == Candidate ==> VolAt(s', n) == VolAt(s, n).(hard := VolAt(s, n).hard.(commit := VolAt(s', n).hard.commit))
    requires forall p :: p in add ==> p.Ack?
    ensures InvBallots(s')
  {
    hide Keeps, LateDoomed, Grows;
    forall v, p | Sent(s', v) && Sent(s', p) && v.Vote? && p.Ack? && p.from == v.from && p.term < v.term
                  && Running(s', v.cand, v.term)
      ensures Keeps(s', p, s'.vol[v.cand].hard.log)
    {
      assert Sent(s, v) && VoteOK(s, v);
      assert p !in add;
      assert Sent(s, p) && AckOK(s, p);
      assert Running(s, v.cand, v.term);
      KeepsLocal(s, s', n, add, p, s.vol[v.cand].hard.log);
    }
  }

  lemma {:induction false} LocalLeaders(s: State, s': State, n: NodeId, add: set<Packet>)
    requires Local(s, s', n, add) && InvNodes(s) && InvLeaders(s) && s'.tlog == s.tlog
    ensures InvLeaders(s')
  {
    forall t: nat, i: nat, u: nat | t < u && u in s'.tlog
      ensures HoldsOr(s', t, i, s'.tlog[u])
    {
      assert HoldsOr(s, t, i, s.tlog[u]);
      if t in s.tlog && i <= |s.tlog[t]| {
        HoldsLocal(s, s', n, add, t, i, s.tlog[u]);
      }
    }
  }

  lemma {:induction false} LocalCommit(s: State, s': State, n: NodeId, add: set<Packet>)
    requires Local(s, s', n, add) && InvTypes(s) && InvCommit(s)
    requires CommitOK(s, n, VolAt(s', n).hard.term, VolAt(s', n).hard.log, VolAt(s', n).hard.commit)
    ensures InvCommit(s')
  {
    hide CommitOK, Backed, Agree, Grows;
    forall m | m in s'.ids
      ensures NodeCommitOK(s', m)
    {
      assert NodeCommitOK(s, m);
      var h := s'.vol[m].hard;
      CommitStays(s, s', n, m, h.term, h.log, h.commit);
      CommitStays(s, s', n, NONE, s.dur[m].term, s.dur[m].log, s.dur[m].commit);
    }
    BackedGrows(s, s', n, s.decided);
  }

  // ------------------------------------------------------------------ what leaders have made durable

  lemma {:induction false} HasAckGrows(s: State, s': State, q: NodeId, t: nat, i: nat)
    requires s.net <= s'.net && s.queued <= s'.queued && HasAck(s, q, t, i)
    ensures HasAck(s', q, t, i)
  {
    var j: nat :| j >= i && Sent(s, Ack(t, q, j));
    assert Sent(s', Ack(t, q, j));
  }

  /** What a term log gains is written by its own leader. */
  predicate GainsOwn(s: State, s': State) {
    forall t :: t in s.tlog ==>
      t in s'.tlog && forall k :: |s.tlog[t]| <= k < |s'.tlog[t]| ==> s'.tlog[t][k].term >= t
  }

  lemma {:induction false} LedAckGrows(s: State, s': State, n: NodeId, p: Packet)
    requires p.Ack? && LedAck(s, p) && s.net <= s'.net && Grows(s, s', n) && GainsOwn(s, s')
    ensures LedAck(s', p)
  {
    if p.from == s.owner[p.term] {
      forall i: nat | Inherited(s', p.term, i)
        ensures i <= p.index
      {
        assert Inherited(s, p.term, i);
      }
    } else {
      NetAckGrows(s, s', s.owner[p.term], p.term, p.index);
    }
  }

  lemma {:induction false} LocalLed(s: State, s': State, n: NodeId, add: set<Packet>)
    requires Local(s, s', n, add) && InvTypes(s) && InvLed(s) && GainsOwn(s, s')
    requires VolAt(s', n).role == Leader ==> HasAck(s', n, VolAt(s', n).hard.term, |VolAt(s', n).hard.log|)
    requires s.ids != {n} ==> CommitOK(s, NONE, VolAt(s', n).hard.term, VolAt(s', n).hard.log, VolAt(s', n).hard.commit)
    requires forall p :: p in add && p.Ack? ==> LedAck(s', p)
    ensures InvLed(s')
  {
    hide CommitOK, LedAck, Grows, GainsOwn, HasAck;
    forall m | m in s'.ids
      ensures LedNode(s', m)
    {
      assert LedNode(s, m);
      var h := s'.vol[m].hard;
      if s.ids != {m} {
        CommitStays(s, s', n, NONE, h.term, h.log, h.commit);
      }
      if m != n && s.vol[m].role == Leader {
        HasAckGrows(s, s', m, h.term, |h.log|);
      }
    }
    forall p | Sent(s', p) && p.Ack?
      ensures LedAck(s', p)
    {
      if Sent(s, p) {
        assert LedAck(s, p);
        LedAckGrows(s, s', n, p);
      }
    }
  }

  /** Steps that change neither the role to leader nor the log nor the commit index. */
  lemma {:induction false} SameLogLed(s: State, s': State, n: NodeId, add: set<Packet>)
    requires Local(s, s', n, add) && InvTypes(s) && InvLed(s) && s'.tlog == s.tlog
    requires VolAt(s', n).hard.log == VolAt(s, n).hard.log && VolAt(s', n).hard.commit == VolAt(s, n).hard.commit
    requires VolAt(s', n).role == Leader ==> VolAt(s', n).role == VolAt(s, n).role && VolAt(s', n).hard.term == VolAt(s, n).hard.term
    requires forall p :: p in add ==> p.Vote?
    ensures InvLed(s')
  {
    hide CommitOK, LedAck, Grows, HasAck;
    assert LedNode(s, n);
    var h := s.vol[n].hard;
    if s.ids != {n} {
      LaterTerm(s, NONE, h.term, s'.vol[n].hard.term, h.log, h.commit);
    }
    if s'.vol[n].role == Leader {
      HasAckGrows(s, s', n, h.term, |h.log|);
    }
    LocalLed(s, s', n, add);
  }

  lemma {:induction false} LaterTerm(s: State, who: NodeId, term: nat, term': nat, log: seq<Entry>, c: nat)
    requires CommitOK(s, who, term, log, c) && term <= term'
    ensures CommitOK(s, who, term', log, c)
  {
    CommitUp(s, who, term, term', log, log, c);
  }

  /** Unless the leader is alone, some other node has acknowledged whatever it counts, so everybody can
      count it. */
  lemma {:induction false} LeaderChoosesForAll(s: State, n: NodeId, t: nat, i: nat)
    requires InvLed(s) && n in s.ids && s.ids != {n} && t in s.owner && s.owner[t] == n && Chosen(s, n, t, i)
    ensures Chosen(s, NONE, t, i)
  {
    var Q :| Quorum(s.ids, Q) && AllCounted(s, n, Q, t, i);
    var q := AnotherMember(s.ids, Q, n);
    assert Counted(s, n, q, t, i);
    OwnerHasAck(s, q, t, i);
    forall x | x in Q
      ensures Counted(s, NONE, x, t, i)
    {
      assert Counted(s, n, x, t, i);
    }
    assert AllCounted(s, NONE, Q, t, i);
  }

  lemma {:induction false} OwnerHasAck(s: State, q: NodeId, t: nat, i: nat)
    requires InvLed(s) && NetAck(s, q, t, i)
    ensures t in s.tlog && t in s.owner && NetAck(s, s.owner[t], t, i)
  {
    var j: nat :| j >= i && Ack(t, q, j) in s.net;
    assert Sent(s, Ack(t, q, j)) && LedAck(s, Ack(t, q, j));
  }

  lemma {:induction false} AnotherMember(ids: set<NodeId>, Q: set<NodeId>, n: NodeId) returns (q: NodeId)
    requires n in ids && ids != {n} && Quorum(ids, Q)
    ensures q in Q && q != n
  {
    var x :| x in ids && x != n;
    SubsetSize({n, x}, ids);
    if Q <= {n} {
      SubsetSize(Q, {n});
    }
    q :| q in Q && q != n;
  }

  /** Once a leader has sent anything, it has made durable whatever is committed in its log. */
  lemma {:induction false} CommittedIsLed(s: State, t: nat, log: seq<Entry>, c: nat)
    requires InvTypes(s) && InvLeaders(s) && InvLed(s) && t in s.tlog && t in s.owner && NetAck(s, s.owner[t], t, 0)
    requires CommitOK(s, NONE, t, log, c)
    ensures NetAck(s, s.owner[t], t, c)
  {
    if c > 0 {
      var u: nat, i: nat :| u <= t && c <= i && Chosen(s, NONE, u, i) && Agree(log, s.tlog[u], c);
      if u == t {
        var Q :| Quorum(s.ids, Q) && AllCounted(s, NONE, Q, t, i);
        assert Q != {};
        var q :| q in Q;
        assert Counted(s, NONE, q, t, i);
        assert q in s.ids && q != NONE;
        OwnerHasAck(s, q, t, i);
      } else {
        ChosenInLaterLeader(s, NONE, u, i, t);
        assert Inherited(s, t, i);
        var j: nat :| Ack(t, s.owner[t], j) in s.net;
        assert Sent(s, Ack(t, s.owner[t], j)) && LedAck(s, Ack(t, s.owner[t], j));
      }
    }
  }

  lemma {:induction false} CommitUp(s: State, who: NodeId, term: nat, term': nat, log: seq<Entry>, log': seq<Entry>, c: nat)
    requires CommitOK(s, who, term, log, c) && term <= term' && Agree(log', log, c)
    ensures CommitOK(s, who, term', log', c)
  {
    if c > 0 {
      var t: nat, i: nat :| t <= term && c <= i && Chosen(s, who, t, i) && Agree(log, s.tlog[t], c);
      assert Agree(log', s.tlog[t], c);
    }
  }

  lemma {:induction false} CommitFits(s: State, who: NodeId, term: nat, log: seq<Entry>, c: nat)
    requires CommitOK(s, who, term, log, c)
    ensures c <= |log|
  {
  }

  lemma {:induction false} TermRooted(s: State, t: nat)
    requires Inv(s) && t in s.tlog
    ensures Rooted(s, TlogAt(s, t)) && forall k :: 0 <= k < |TlogAt(s, t)| ==> TlogAt(s, t)[k].index == k + 1
  {
    hide Rooted, InvNodes, InvVotes, InvUnique, InvAcks, InvKept, InvBallots, InvLeaders, InvCommit, InvTypes, ElectedBy;
    assert TermOK(s, t);
  }
}
