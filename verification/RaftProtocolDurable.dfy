/** The invariant of the protocol is inductive: persistence and restart. */
module RaftProtocolDurable {
  import opened RaftTypes
  import opened RaftProtocol
  import opened RaftProtocolProofs
  import opened RaftProtocolSteps

  // ------------------------------------------------------------------ Flush

  ghost predicate Flushed(s: State, s': State, n: NodeId) {
    && n in s.ids && n in s.vol
    && s'.ids == s.ids && s'.vol == s.vol && s'.tlog == s.tlog && s'.owner == s.owner
    && s'.dur == s.dur[n := s.vol[n].hard]
    && s.net <= s'.net
    && (forall p :: Sent(s', p) == Sent(s, p))
    && (forall p :: p in s'.net ==> p in s.net || p.from == n)
    && (forall p :: p in s'.queued ==> p in s.queued && p.from != n)
    && (forall p :: p in s.queued && p.from == n ==> p in s'.net)
  }

  lemma {:induction false} FlushIsFlushed(s: State, n: NodeId)
    requires InvTypes(s) && n in s.ids
    ensures Flushed(s, Flush(s, n), n) && InvTypes(Flush(s, n))
  {
  }

  lemma {:induction false} DoomedFlush(s: State, s': State, n: NodeId, t: nat, i: nat)
    requires Flushed(s, s', n) && InvTypes(s) && NodeOK(s, n) && Doomed(s, t, i)
    ensures Doomed(s', t, i)
  {
    var Q :| Quorum(s.ids, Q) && AllGone(s, Q, t, i);
    forall q | q in Q
      ensures Gone(s', q, t, i)
    {
      assert Gone(s, q, t, i);
      forall j: nat | j >= i
        ensures !Sent(s', Ack(t, q, j))
      {
        assert !Sent(s, Ack(t, q, j));
      }
    }
    assert AllGone(s', Q, t, i);
  }

  lemma {:induction false} HoldsFlush(s: State, s': State, n: NodeId, t: nat, i: nat, log: seq<Entry>)
    requires Flushed(s, s', n) && InvTypes(s) && NodeOK(s, n) && HoldsOr(s, t, i, log)
    ensures HoldsOr(s', t, i, log)
  {
    if Doomed(s, t, i) {
      DoomedFlush(s, s', n, t, i);
    }
  }

  lemma {:induction false} KeepsFlush(s: State, s': State, n: NodeId, p: Packet, log: seq<Entry>)
    requires Flushed(s, s', n) && InvTypes(s) && NodeOK(s, n) && p.Ack? && Keeps(s, p, log)
    ensures Keeps(s', p, log)
  {
    forall t: nat, i: nat | t <= p.term && i <= p.index
      ensures HoldsOr(s', t, i, log)
    {
      HoldsFlush(s, s', n, t, i, log);
    }
  }

  lemma {:induction false} FlushNodes(s: State, s': State, n: NodeId)
    requires Flushed(s, s', n) && InvTypes(s) && InvNodes(s)
    ensures InvNodes(s')
  {
    hide Shaped;
    forall m | m in s'.ids
      ensures NodeOK(s', m)
    {
      assert NodeOK(s, m);
      RootedSame(s, s', s.vol[m].hard.log);
      RootedSame(s, s', s.dur[m].log);
    }
  }

  lemma {:induction false} FlushTerms(s: State, s': State, n: NodeId)
    requires Flushed(s, s', n) && InvTypes(s) && InvTerms(s) && NodeOK(s, n)
    ensures InvTerms(s')
  {
    forall t | t in s'.tlog
      ensures TermOK(s', t)
    {
      assert TermOK(s, t);
      RootedSame(s, s', s.tlog[t]);
      ElectedGrows(s, s', t, s.owner[t]);
    }
  }

  lemma {:induction false} FlushVotes(s: State, s': State, n: NodeId)
    requires Flushed(s, s', n) && InvTypes(s) && InvVotes(s) && NodeOK(s, n) && InvUnique(s)
    ensures InvVotes(s') && InvUnique(s')
  {
    forall p | Sent(s', p) && p.Vote?
      ensures VoteOK(s', p)
    {
      assert VoteOK(s, p);
    }
    forall t, v, c, d | Sent(s', Vote(t, v, c)) && Sent(s', Vote(t, v, d))
      ensures c == d
    {
      assert Sent(s, Vote(t, v, c)) && Sent(s, Vote(t, v, d));
    }
  }

  lemma {:induction false} FlushAcks(s: State, s': State, n: NodeId)
    requires Flushed(s, s', n) && InvTypes(s) && InvAcks(s) && NodeOK(s, n)
    ensures InvAcks(s')
  {
    forall p | Sent(s', p) && p.Ack?
      ensures AckOK(s', p)
    {
      assert AckOK(s, p);
    }
  }

  lemma {:induction false} FlushKept(s: State, s': State, n: NodeId)
    requires Flushed(s, s', n) && InvTypes(s) && InvKept(s) && NodeOK(s, n)
    ensures InvKept(s')
  {
    hide HeldUpTo, NodeOK;
    forall p | Sent(s', p) && p.Ack?
      ensures p.from in s'.vol && p.from in s'.dur
      ensures HeldUpTo(s', p, s'.vol[p.from].hard.log)
      ensures p in s'.net ==> HeldUpTo(s', p, s'.dur[p.from].log)
    {
      assert Sent(s, p);
      HeldFlush(s, s', n, p, s.vol[p.from].hard.log);
      if p in s'.net {
        HeldFlush(s, s', n, p, s'.dur[p.from].log);
      }
    }
  }

  lemma {:induction false} HeldFlush(s: State, s': State, n: NodeId, p: Packet, log: seq<Entry>)
    requires Flushed(s, s', n) && InvTypes(s) && NodeOK(s, n) && p.Ack? && HeldUpTo(s, p, log)
    ensures HeldUpTo(s', p, log)
  {
    hide Doomed;
    forall t: nat, i: nat | t <= p.term && Own(s', t, i)
      ensures Agree(log, s'.tlog[t], Min(i, p.index)) || Doomed(s', t, i)
    {
      assert Agree(log, s.tlog[t], Min(i, p.index)) || Doomed(s, t, i);
      if Doomed(s, t, i) {
        DoomedFlush(s, s', n, t, i);
      }
    }
  }

  lemma {:induction false} FlushBallots(s: State, s': State, n: NodeId)
    requires Flushed(s, s', n) && InvTypes(s) && InvBallots(s) && NodeOK(s, n)
    ensures InvBallots(s')
  {
    forall v, p | Sent(s', v) && Sent(s', p) && v.Vote? && p.Ack? && p.from == v.from && p.term < v.term
                  && Running(s', v.cand, v.term)
      ensures Keeps(s', p, s'.vol[v.cand].hard.log)
    {
      assert Sent(s, v) && Sent(s, p) && Running(s, v.cand, v.term);
      KeepsFlush(s, s', n, p, s.vol[v.cand].hard.log);
    }
  }

  lemma {:induction false} FlushLeaders(s: State, s': State, n: NodeId)
    requires Flushed(s, s', n) && InvTypes(s) && InvLeaders(s) && NodeOK(s, n)
    ensures InvLeaders(s')
  {
    forall t: nat, i: nat, u: nat | t < u && u in s'.tlog
      ensures HoldsOr(s', t, i, s'.tlog[u])
    {
      assert HoldsOr(s, t, i, s.tlog[u]);
      HoldsFlush(s, s', n, t, i, s.tlog[u]);
    }
  }

  /** What the node counted with the help of its own queue is now chosen for everybody. */
  lemma {:induction false} ChosenFlush(s: State, s': State, n: NodeId, t: nat, i: nat)
    requires Flushed(s, s', n) && Chosen(s, n, t, i)
    ensures Chosen(s', NONE, t, i)
  {
    var Q :| Quorum(s.ids, Q) && AllCounted(s, n, Q, t, i);
    forall q | q in Q
      ensures Counted(s', NONE, q, t, i)
    {
      assert Counted(s, n, q, t, i);
      if NetAck(s, q, t, i) {
        NetAckGrows(s, s', q, t, i);
      } else {
        var j: nat :| j >= i && Sent(s, Ack(t, q, j));
        assert Ack(t, q, j) in s'.net;
      }
    }
    assert AllCounted(s', NONE, Q, t, i);
  }

  lemma {:induction false} CommitFlush(s: State, s': State, n: NodeId, term: nat, log: seq<Entry>, c: nat)
    requires Flushed(s, s', n) && CommitOK(s, n, term, log, c)
    ensures CommitOK(s', NONE, term, log, c)
  {
    if c > 0 {
      var t: nat, i: nat :| t <= term && c <= i && Chosen(s, n, t, i) && Agree(log, s.tlog[t], c);
      ChosenFlush(s, s', n, t, i);
      assert Agree(log, s'.tlog[t], c);
    }
  }

  /** A committed prefix and the decided log are comparable. */
  lemma {:induction false} CommittedVsDecided(s: State, who: NodeId, term: nat, log: seq<Entry>, c: nat)
    requires InvLeaders(s) && Backed(s, s.decided) && CommitOK(s, who, term, log, c)
    ensures Agree(log, s.decided, Min(c, |s.decided|))
  {
    if c > 0 && s.decided != [] {
      var t: nat, i: nat :| t <= term && c <= i && Chosen(s, who, t, i) && Agree(log, s.tlog[t], c);
      var u: nat, j: nat :|
        |s.decided| <= j && Chosen(s, NONE, u, j) && Agree(s.decided, s.tlog[u], |s.decided|);
      ChosenComparable(s, who, t, i, NONE, u, j);
    }
  }

  lemma {:induction false} FlushDecided(s: State, s': State, n: NodeId)
    requires InvTypes(s) && n in s.ids && s' == Flush(s, n) && Flushed(s, s', n) && InvCommit(s) && InvLeaders(s)
    ensures Backed(s', s'.decided)
    ensures |s.decided| <= |s'.decided| && Agree(s'.decided, s.decided, |s.decided|)
    ensures Agree(VolAt(s, n).hard.log, s'.decided, VolAt(s, n).hard.commit)
  {
    hide Flushed, InvTypes, InvLeaders, Backed, CommitOK, Agree;
    assert NodeCommitOK(s, n);
    var h := s.vol[n].hard;
    CommittedVsDecided(s, n, h.term, h.log, h.commit);
    CommitFits(s, n, h.term, h.log, h.commit);
    if h.commit > |s.decided| {
      FlushBacked(s, s', n, h.term, h.log, h.commit);
      TakeAgrees(h.log, s.decided, h.commit);
    } else {
      FlushGrows(s, s', n);
      FlushStillBacked(s, s', n);
      AgreeRefl(s.decided);
    }
  }

  lemma {:induction false} AgreeRefl(log: seq<Entry>)
    ensures Agree(log, log, |log|)
  {
  }

  lemma {:induction false} TakeAgrees(log: seq<Entry>, done: seq<Entry>, c: nat)
    requires |done| <= c <= |log| && Agree(log, done, |done|)
    ensures Agree(log[..c], done, |done|) && Agree(log, log[..c], c)
  {
  }

  lemma {:induction false} FlushStillBacked(s: State, s': State, n: NodeId)
    requires InvTypes(s) && Flushed(s, s', n) && Grows(s, s', n) && Backed(s, s.decided)
    ensures Backed(s', s.decided)
  {
    BackedGrows(s, s', n, s.decided);
  }

  lemma {:induction false} FlushBacked(s: State, s': State, n: NodeId, term: nat, log: seq<Entry>, c: nat)
    requires Flushed(s, s', n) && CommitOK(s, n, term, log, c)
    ensures Backed(s', log[..c])
  {
    if c > 0 {
      var t: nat, i: nat :| t <= term && c <= i && Chosen(s, n, t, i) && Agree(log, s.tlog[t], c);
      ChosenFlush(s, s', n, t, i);
      assert Agree(log[..c], s'.tlog[t], c);
    }
  }

  lemma {:induction false} FlushGrows(s: State, s': State, n: NodeId)
    requires Flushed(s, s', n) && InvTypes(s)
    ensures Grows(s, s', n)
  {
  }

  lemma {:induction false} FlushCommit(s: State, s': State, n: NodeId)
    requires InvTypes(s) && InvCommit(s) && InvLeaders(s) && n in s.ids
    requires s' == Flush(s, n) && Flushed(s, s', n)
    ensures InvCommit(s')
  {
    hide InvLeaders, Grows, Flush, CommitOK, InvTypes, Agree, Backed;
    FlushDecided(s, s', n);
    FlushGrows(s, s', n);
    forall m | m in s'.ids
      ensures NodeCommitOK(s', m)
    {
      FlushNodeCommit(s, s', n, m);
    }
  }

  lemma {:induction false} FlushNodeCommit(s: State, s': State, n: NodeId, m: NodeId)
    requires InvTypes(s) && Flushed(s, s', n) && Grows(s, s', n)
    requires m in s.ids && NodeCommitOK(s, m) && NodeCommitOK(s, n)
    requires |s.decided| <= |s'.decided| && Agree(s'.decided, s.decided, |s.decided|)
    requires Agree(VolAt(s, n).hard.log, s'.decided, VolAt(s, n).hard.commit)
    ensures NodeCommitOK(s', m)
  {
    var v := s.vol[m].hard;
    CommitGrows(s, s', n, m, v.term, v.term, v.log, v.log, v.commit);
    if m == n {
      CommitFlush(s, s', n, v.term, v.log, v.commit);
    } else {
      var d := s.dur[m];
      CommitGrows(s, s', n, NONE, d.term, d.term, d.log, d.log, d.commit);
    }
  }

  lemma {:induction false} FlushKeepsInv(s: State, n: NodeId)
    requires Inv(s) && n in s.ids
    ensures VolAt(s, n).hard.commit <= |VolAt(s, n).hard.log|
    ensures Inv(Flush(s, n))
    ensures |s.decided| <= |Flush(s, n).decided| && Agree(Flush(s, n).decided, s.decided, |s.decided|)
    ensures Agree(VolAt(s, n).hard.log, Flush(s, n).decided, VolAt(s, n).hard.commit)
  {
    hide InvNodes, InvTerms, InvVotes, InvUnique, InvAcks, InvKept, InvBallots, InvLeaders, InvCommit, InvLed;
    assert NodeOK(s, n) && NodeCommitOK(s, n) by { NodeFacts(s, n); }
    FlushIsFlushed(s, n);
    var s' := Flush(s, n);
    FlushNodes(s, s', n);
    FlushTerms(s, s', n);
    FlushVotes(s, s', n);
    FlushAcks(s, s', n);
    FlushKept(s, s', n);
    FlushBallots(s, s', n);
    FlushLeaders(s, s', n);
    FlushCommit(s, s', n);
    FlushDecided(s, s', n);
    FlushLed(s, s', n);
  }

  lemma {:induction false} FlushLed(s: State, s': State, n: NodeId)
    requires InvTypes(s) && InvLed(s) && Flushed(s, s', n)
    ensures InvLed(s')
  {
    hide CommitOK, Grows;
    FlushGrows(s, s', n);
    forall m | m in s'.ids
      ensures LedNode(s', m)
    {
      assert LedNode(s, m);
      var h := s.vol[m].hard;
      if s.ids != {m} {
        CommitStays(s, s', n, NONE, h.term, h.log, h.commit);
      }
      if s.vol[m].role == Leader {
        var j: nat :| j >= |h.log| && Sent(s, Ack(h.term, m, j));
        assert Sent(s', Ack(h.term, m, j));
      }
    }
    forall p | Sent(s', p) && p.Ack?
      ensures LedAck(s', p)
    {
      assert Sent(s, p) && LedAck(s, p);
      LedAckGrows(s, s', n, p);
    }
  }

  // ------------------------------------------------------------------ Crash

  ghost predicate Crashed(s: State, s': State, n: NodeId) {
    && n in s.ids && n in s.vol && n in s.dur
    && s'.ids == s.ids && s'.dur == s.dur && s'.net == s.net && s'.decided == s.decided
    && s'.vol == s.vol[n := Vol(s.dur[n], Follower)]
    && (forall p :: p in s'.queued <==> p in s.queued && p.from != n)
    && (forall t :: t in s'.tlog <==> t in s.tlog && (s.ids == {n} ==> t <= s.dur[n].term))
    && (forall t :: t in s'.tlog ==> s'.tlog[t] == s.tlog[t])
    && (forall t :: t in s'.owner <==> t in s.owner && (s.ids == {n} ==> t <= s.dur[n].term))
    && (forall t :: t in s'.owner ==> s'.owner[t] == s.owner[t])
  }

  lemma {:induction false} CrashIsCrashed(s: State, n: NodeId)
    requires InvTypes(s) && n in s.ids
    ensures Crashed(s, Crash(s, n), n) && InvTypes(Crash(s, n))
  {
  }

  lemma {:induction false} DoomedCrash(s: State, s': State, n: NodeId, t: nat, i: nat)
    requires Crashed(s, s', n) && Doomed(s, t, i) && (s.ids == {n} ==> t < DurAt(s, n).term)
    ensures Doomed(s', t, i)
  {
    var Q :| Quorum(s.ids, Q) && AllGone(s, Q, t, i);
    forall q | q in Q
      ensures Gone(s', q, t, i)
    {
      assert Gone(s, q, t, i);
      forall j: nat | j >= i
        ensures !Sent(s', Ack(t, q, j))
      {
        assert !Sent(s, Ack(t, q, j));
      }
    }
    assert AllGone(s', Q, t, i);
  }

  /** The only node of a cluster cannot doom what it has acknowledged itself. */
  lemma {:induction false} SingleNotDoomed(s: State, n: NodeId, t: nat, i: nat)
    requires s.ids == {n} && HasAck(s, n, t, i)
    ensures !Doomed(s, t, i)
  {
    forall Q | Quorum(s.ids, Q)
      ensures !AllGone(s, Q, t, i)
    {
      assert Q != {};
      assert n in Q;
      assert !Gone(s, n, t, i);
    }
  }

  lemma {:induction false} KeepsCrash(s: State, s': State, n: NodeId, p: Packet, log: seq<Entry>)
    requires Crashed(s, s', n) && InvTypes(s) && p.Ack? && Sent(s', p) && AckOK(s, p) && Keeps(s, p, log)
    ensures Keeps(s', p, log)
  {
    assert Sent(s, p) && p.from in s.ids;
    forall t: nat, i: nat | t <= p.term && i <= p.index
      ensures HoldsOr(s', t, i, log)
    {
      assert HoldsOr(s, t, i, log);
      if Doomed(s, t, i) {
        if s.ids == {n} && t == p.term {
          assert Sent(s, Ack(p.term, n, p.index));
          SingleNotDoomed(s, n, p.term, i);
        } else {
          DoomedCrash(s, s', n, t, i);
        }
      }
    }
  }

  lemma {:induction false} RootedCrash(s: State, s': State, n: NodeId, log: seq<Entry>, bound: nat)
    requires Crashed(s, s', n) && Rooted(s, log) && Shaped(log, bound) && (s.ids == {n} ==> bound <= DurAt(s, n).term)
    ensures Rooted(s', log)
  {
    forall k | 0 <= k < |log|
      ensures log[k].term in s'.tlog && Agree(log, s'.tlog[log[k].term], k + 1)
    {
      assert Agree(log, s.tlog[log[k].term], k + 1);
    }
  }

  lemma {:induction false} CrashNode(s: State, s': State, n: NodeId, m: NodeId)
    requires Crashed(s, s', n) && InvTypes(s) && m in s.ids && NodeOK(s, m)
    ensures NodeOK(s', m)
  {
    RootedCrash(s, s', n, s.dur[m].log, s.dur[m].term);
    if m != n {
      RootedCrash(s, s', n, s.vol[m].hard.log, s.vol[m].hard.term);
    }
    hide Shaped, Rooted;
  }

  lemma {:induction false} CrashNodes(s: State, s': State, n: NodeId)
    requires Crashed(s, s', n) && InvTypes(s) && InvNodes(s)
    ensures InvNodes(s')
  {
    hide NodeOK, InvTypes;
    forall m | m in s'.ids
      ensures NodeOK(s', m)
    {
      assert NodeOK(s, m);
      CrashNode(s, s', n, m);
    }
  }

  lemma {:induction false} CrashTerms(s: State, s': State, n: NodeId)
    requires Crashed(s, s', n) && InvTypes(s) && InvTerms(s)
    ensures InvTerms(s')
  {
    forall t | t in s'.tlog
      ensures TermOK(s', t)
    {
      assert TermOK(s, t);
      RootedCrash(s, s', n, s.tlog[t], t);
      ElectedGrows(s, s', t, s.owner[t]);
    }
  }

  lemma {:induction false} CrashVotes(s: State, s': State, n: NodeId)
    requires Crashed(s, s', n) && InvTypes(s) && InvVotes(s) && InvUnique(s)
    ensures InvVotes(s') && InvUnique(s')
  {
    forall p | Sent(s', p) && p.Vote?
      ensures VoteOK(s', p)
    {
      assert Sent(s, p) && VoteOK(s, p);
    }
    forall t, v, c, d | Sent(s', Vote(t, v, c)) && Sent(s', Vote(t, v, d))
      ensures c == d
    {
      assert Sent(s, Vote(t, v, c)) && Sent(s, Vote(t, v, d));
    }
  }

  lemma {:induction false} CrashAcks(s: State, s': State, n: NodeId)
    requires Crashed(s, s', n) && InvTypes(s) && InvAcks(s) && InvKept(s)
    ensures InvAcks(s') && InvKept(s')
  {
    hide HeldUpTo;
    forall p | Sent(s', p) && p.Ack?
      ensures AckOK(s', p)
      ensures p.from in s'.vol && p.from in s'.dur
      ensures HeldUpTo(s', p, s'.vol[p.from].hard.log)
      ensures p in s'.net ==> HeldUpTo(s', p, s'.dur[p.from].log)
    {
      assert Sent(s, p) && AckOK(s, p);
      HeldCrash(s, s', n, p, s'.vol[p.from].hard.log);
      if p in s'.net {
        HeldCrash(s, s', n, p, s'.dur[p.from].log);
      }
    }
  }

  lemma {:induction false} HeldCrash(s: State, s': State, n: NodeId, p: Packet, log: seq<Entry>)
    requires Crashed(s, s', n) && InvTypes(s) && p.Ack? && Sent(s', p) && AckOK(s, p) && HeldUpTo(s, p, log)
    requires s.ids == {n} ==> log == DurAt(s, n).log
    ensures HeldUpTo(s', p, log)
  {
    hide Doomed;
    assert Sent(s, p) && p.from in s.ids;
    forall t: nat, i: nat | t <= p.term && Own(s', t, i)
      ensures Agree(log, s'.tlog[t], Min(i, p.index)) || Doomed(s', t, i)
    {
      assert Agree(log, s.tlog[t], Min(i, p.index)) || Doomed(s, t, i);
      if Doomed(s, t, i) {
        if s.ids == {n} && t == s.dur[n].term {
          assert Agree(log, s.tlog[t], p.index);
        } else {
          DoomedCrash(s, s', n, t, i);
        }
      }
    }
  }

  lemma {:induction false} CrashBallots(s: State, s': State, n: NodeId)
    requires Crashed(s, s', n) && InvTypes(s) && InvAcks(s) && InvBallots(s)
    ensures InvBallots(s')
  {
    hide Keeps;
    forall v, p | Sent(s', v) && Sent(s', p) && v.Vote? && p.Ack? && p.from == v.from && p.term < v.term
                  && Running(s', v.cand, v.term)
      ensures Keeps(s', p, s'.vol[v.cand].hard.log)
    {
      assert Sent(s, v) && Sent(s, p) && AckOK(s, p) && Running(s, v.cand, v.term);
      KeepsCrash(s, s', n, p, s.vol[v.cand].hard.log);
    }
  }

  lemma {:induction false} CrashLeaders(s: State, s': State, n: NodeId)
    requires Crashed(s, s', n) && InvLeaders(s)
    ensures InvLeaders(s')
  {
    forall t: nat, i: nat, u: nat | t < u && u in s'.tlog
      ensures HoldsOr(s', t, i, s'.tlog[u])
    {
      assert HoldsOr(s, t, i, s.tlog[u]);
      if Own(s', t, i) && Doomed(s, t, i) {
        DoomedCrash(s, s', n, t, i);
      }
    }
  }

  /** Acknowledgements in the network outlive the crash, and so does what they chose. */
  lemma {:induction false} ChosenCrash(s: State, s': State, n: NodeId, who: NodeId, t: nat, i: nat)
    requires Crashed(s, s', n) && InvTypes(s) && InvAcks(s) && Chosen(s, who, t, i) && who != n
    ensures t in s'.tlog && Chosen(s', who, t, i)
  {
    var Q :| Quorum(s.ids, Q) && AllCounted(s, who, Q, t, i);
    if s.ids == {n} {
      assert Q != {};
      assert Counted(s, who, n, t, i);
      var j: nat :| j >= i && Ack(t, n, j) in s.net;
      assert AckOK(s, Ack(t, n, j));
    }
    ChosenGrows(s, s', who, t, i);
  }

  lemma {:induction false} CommitCrash(s: State, s': State, n: NodeId, who: NodeId, term: nat, log: seq<Entry>, c: nat)
    requires Crashed(s, s', n) && InvTypes(s) && InvAcks(s) && CommitOK(s, who, term, log, c) && who != n
    ensures CommitOK(s', who, term, log, c)
  {
    if c > 0 {
      var t: nat, i: nat :| t <= term && c <= i && Chosen(s, who, t, i) && Agree(log, s.tlog[t], c);
      ChosenCrash(s, s', n, who, t, i);
    }
  }

  /** What everybody can count, `n` can count. */
  lemma {:induction false} CommitAnyone(s: State, n: NodeId, term: nat, log: seq<Entry>, c: nat)
    requires CommitOK(s, NONE, term, log, c) && InvTypes(s)
    ensures CommitOK(s, n, term, log, c)
  {
    if c > 0 {
      var t: nat, i: nat :| t <= term && c <= i && Chosen(s, NONE, t, i) && Agree(log, s.tlog[t], c);
      var Q :| Quorum(s.ids, Q) && AllCounted(s, NONE, Q, t, i);
      forall q | q in Q
        ensures Counted(s, n, q, t, i)
      {
        assert Counted(s, NONE, q, t, i);
      }
      assert AllCounted(s, n, Q, t, i);
      assert Chosen(s, n, t, i);
    }
  }

  lemma {:induction false} CrashCommit(s: State, s': State, n: NodeId)
    requires Crashed(s, s', n) && InvTypes(s) && InvTypes(s') && InvAcks(s) && InvCommit(s)
    ensures InvCommit(s')
  {
    hide InvAcks, CommitOK, Agree;
    forall m | m in s'.ids
      ensures NodeCommitOK(s', m)
    {
      assert NodeCommitOK(s, m);
      var d := s.dur[m];
      CommitCrash(s, s', n, NONE, d.term, d.log, d.commit);
      if m == n {
        CommitAnyone(s', n, d.term, d.log, d.commit);
      } else {
        var v := s.vol[m].hard;
        CommitCrash(s, s', n, m, v.term, v.log, v.commit);
      }
    }
    CrashBacked(s, s', n);
  }

  lemma {:induction false} CrashBacked(s: State, s': State, n: NodeId)
    requires Crashed(s, s', n) && InvTypes(s) && InvAcks(s) && Backed(s, s.decided)
    ensures Backed(s', s'.decided)
  {
    if s.decided != [] {
      var t: nat, i: nat :| |s.decided| <= i && Chosen(s, NONE, t, i) && Agree(s.decided, s.tlog[t], |s.decided|);
      ChosenCrash(s, s', n, NONE, t, i);
    }
  }

  lemma {:induction false} CrashKeepsInv(s: State, n: NodeId)
    requires Inv(s) && n in s.ids
    ensures Inv(Crash(s, n))
  {
    hide InvNodes, InvTerms, InvVotes, InvUnique, InvAcks, InvKept, InvBallots, InvLeaders, InvCommit, InvLed;
    var s' := Crash(s, n);
    CrashIsCrashed(s, n);
    CrashNodes(s, s', n);
    CrashTerms(s, s', n);
    CrashVotes(s, s', n);
    CrashAcks(s, s', n);
    CrashBallots(s, s', n);
    CrashLeaders(s, s', n);
    CrashCommit(s, s', n);
    CrashLed(s, s', n);
  }

  lemma {:induction false} CrashLed(s: State, s': State, n: NodeId)
    requires InvTypes(s) && InvAcks(s) && InvCommit(s) && InvLed(s) && Crashed(s, s', n)
    ensures InvLed(s')
  {
    hide CommitOK, InvAcks, InvCommit, AckOK;
    forall m | m in s'.ids
      ensures LedNode(s', m)
    {
      CrashLedNode(s, s', n, m);
    }
    forall p | Sent(s', p) && p.Ack?
      ensures LedAck(s', p)
    {
      CrashLedAck(s, s', n, p);
    }
  }

  lemma {:induction false} CrashLedNode(s: State, s': State, n: NodeId, m: NodeId)
    requires InvTypes(s) && InvAcks(s) && InvCommit(s) && InvLed(s) && Crashed(s, s', n) && m in s.ids
    ensures LedNode(s', m)
  {
    hide CommitOK, InvAcks;
    assert LedNode(s, m) && NodeCommitOK(s, m);
    var h := s'.vol[m].hard;
    if s.ids != {m} {
      CommitCrash(s, s', n, NONE, h.term, h.log, h.commit);
    }
    if s'.vol[m].role == Leader {
      var j: nat :| j >= |h.log| && Sent(s, Ack(h.term, m, j));
      assert Sent(s', Ack(h.term, m, j));
    }
  }

  lemma {:induction false} CrashLedAck(s: State, s': State, n: NodeId, p: Packet)
    requires InvTypes(s) && InvAcks(s) && InvLed(s) && Crashed(s, s', n) && Sent(s', p) && p.Ack?
    ensures LedAck(s', p)
  {
    assert Sent(s, p) && LedAck(s, p) && AckOK(s, p);
    if p.from == s.owner[p.term] {
      forall i: nat | Inherited(s', p.term, i)
        ensures i <= p.index
      {
        assert Inherited(s, p.term, i);
      }
    } else {
      var j: nat :| j >= p.index && Ack(p.term, s.owner[p.term], j) in s.net;
      assert Ack(p.term, s.owner[p.term], j) in s'.net;
    }
  }

  // ------------------------------------------------------------------ Init

  lemma {:induction false} InitInv(ids: set<NodeId>)
    requires NONE !in ids
    ensures Inv(Init(ids))
  {
  }
}
