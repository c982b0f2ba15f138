/** The invariant of the protocol is inductive: terms, votes, acknowledgements and commitment. */
module RaftProtocolSteps {
  import opened RaftTypes
  import opened RaftProtocol
  import opened RaftProtocolProofs

  // ------------------------------------------------------------------ Bump

  lemma {:induction false} BumpNode(s: State, n: NodeId, t: nat)
    requires n in s.ids && NodeOK(s, n) && t >= VolAt(s, n).hard.term
    ensures NodeOK(Bump(s, n, t), n)
  {
    var s' := Bump(s, n, t);
    assert forall log :: Rooted(s', log) == Rooted(s, log);
  }

  lemma {:induction false} BumpLocal(s: State, n: NodeId, t: nat)
    requires InvTypes(s) && n in s.ids && t >= VolAt(s, n).hard.term
    ensures InvTypes(Bump(s, n, t)) && Local(s, Bump(s, n, t), n, {})
  {
  }

  lemma {:induction false} BumpKeepsInv(s: State, n: NodeId, t: nat)
    requires Inv(s) && n in s.ids && t >= VolAt(s, n).hard.term
    ensures Inv(Bump(s, n, t))
  {
    hide InvNodes, InvTerms, InvVotes, InvUnique, InvAcks, InvKept, InvBallots, InvLeaders, InvCommit, InvLed, NodeCommitOK, CommitOK, Grows;
    var s' := Bump(s, n, t);
    assert NodeOK(s, n) by { NodeFacts(s, n); }
    CommitLater(s, n, s'.vol[n].hard.term);
    BumpLocal(s, n, t);
    BumpNode(s, n, t);
    LocalNodes(s, s', n, {});
    LocalTerms(s, s', n, {});
    LocalVotes(s, s', n, {});
    LocalUnique(s, s', n, {});
    SameLogAcks(s, s', n, {});
    LocalBallots(s, s', n, {});
    LocalLeaders(s, s', n, {});
    LocalCommit(s, s', n, {});
    SameLogLed(s, s', n, {});
  }

  lemma {:induction false} NodeFacts(s: State, n: NodeId)
    requires n in s.ids && InvNodes(s) && InvCommit(s)
    ensures NodeOK(s, n) && NodeCommitOK(s, n)
  {
  }

  /** Steps that leave the node's log alone and add no acknowledgement. */
  lemma {:induction false} SameLogAcks(s: State, s': State, n: NodeId, add: set<Packet>)
    requires Local(s, s', n, add) && InvTypes(s) && InvNodes(s) && InvAcks(s) && InvKept(s)
    requires VolAt(s', n).hard.log == VolAt(s, n).hard.log && s'.tlog == s.tlog
    requires forall p :: p in add ==> p.Vote?
    ensures InvAcks(s') && InvKept(s') && LateDoomed(s, s')
  {
    assert NodeOK(s, n);
    assert forall p :: Sent(s, p) && p.Ack? && p.from == n ==> AckOK(s, p) && HeldUpTo(s, p, s.vol[n].hard.log);
    LocalAcks(s, s', n, add);
    LocalKept(s, s', n, add);
  }

  // ------------------------------------------------------------------ Campaign

  lemma {:induction false} CampaignNode(s: State, n: NodeId)
    requires n in s.ids && NodeOK(s, n) && InvTerms(s) && InvTypes(s)
    ensures NodeOK(Campaign(s, n), n)
  {
    var s' := Campaign(s, n);
    RootedSame(s, s', s.vol[n].hard.log);
    RootedSame(s, s', s.dur[n].log);
    var t := s'.vol[n].hard.term;
    if t in s.owner {
      assert TermOK(s, t);
    }
  }

  lemma {:induction false} RootedSame(s: State, s': State, log: seq<Entry>)
    requires s'.tlog == s.tlog && Rooted(s, log)
    ensures Rooted(s', log)
  {
  }

  lemma {:induction false} BallotFact(s: State, p: Packet)
    requires InvVotes(s) && p.Vote?
    ensures Sent(s, p) ==> VoteOK(s, p)
  {
  }

  lemma {:induction false} CampaignVote(s: State, n: NodeId)
    requires n in s.ids && InvTypes(s) && NodeOK(s, n) && InvVotes(s)
    ensures VoteOK(Campaign(s, n), Vote(VolAt(s, n).hard.term + 1, n, n))
  {
    var own := Vote(s.vol[n].hard.term + 1, n, n);
    BallotFact(s, own);
  }

  lemma {:induction false} CampaignUnique(s: State, n: NodeId)
    requires n in s.ids && InvTypes(s) && InvUnique(s) && InvVotes(s)
    ensures InvUnique(Campaign(s, n))
  {
    var s' := Campaign(s, n);
    var own := Vote(s.vol[n].hard.term + 1, n, n);
    forall t, v, c, d | Sent(s', Vote(t, v, c)) && Sent(s', Vote(t, v, d))
      ensures c == d
    {
      BallotFact(s, Vote(t, v, c));
      BallotFact(s, Vote(t, v, d));
    }
  }

  /** A ballot cast for an unchanged candidacy keeps its promise. */
  lemma {:induction false} OldBallot(s: State, s': State, n: NodeId, add: set<Packet>, v: Packet, p: Packet)
    requires InvNodes(s) && InvAcks(s) && InvBallots(s) && Local(s, s', n, add) && LateDoomed(s, s')
    requires Sent(s, v) && Sent(s, p) && v.Vote? && p.Ack? && p.from == v.from && p.term < v.term
    requires Running(s, v.cand, v.term) && v.cand in s'.vol && VolAt(s', v.cand).hard.log == VolAt(s, v.cand).hard.log
    ensures Keeps(s', p, VolAt(s', v.cand).hard.log)
  {
    assert AckOK(s, p);
    KeepsLocal(s, s', n, add, p, s.vol[v.cand].hard.log);
  }

  lemma {:induction false} CampaignBallots(s: State, s': State, n: NodeId, own: Packet)
    requires InvTypes(s) && InvNodes(s) && InvVotes(s) && InvAcks(s) && InvKept(s) && InvBallots(s)
    requires n in s.ids && s' == Campaign(s, n) && own == Vote(VolAt(s, n).hard.term + 1, n, n)
    ensures InvBallots(s')
  {
    hide InvNodes, Keeps, Grows;
    assert NodeOK(s, n) by { OneNode(s, n); }
    forall v, p | Sent(s', v) && Sent(s', p) && v.Vote? && p.Ack? && p.from == v.from && p.term < v.term
                  && Running(s', v.cand, v.term)
      ensures Keeps(s', p, s'.vol[v.cand].hard.log)
    {
      assert Sent(s, p) && AckOK(s, p);
      if v == own {
        CampaignLocal(s, n);
        HeldKeeps(s, p, s.vol[n].hard.log);
        KeepsLocal(s, s', n, {own}, p, s.vol[n].hard.log);
      } else {
        assert Sent(s, v) && VoteOK(s, v);
        assert Running(s, v.cand, v.term);
        CampaignLocal(s, n);
        OldBallot(s, s', n, {own}, v, p);
      }
    }
  }

  lemma {:induction false} OneNode(s: State, n: NodeId)
    requires n in s.ids && InvNodes(s)
    ensures NodeOK(s, n)
  {
  }

  lemma {:induction false} CampaignLocal(s: State, n: NodeId)
    requires n in s.ids && InvTypes(s)
    ensures Local(s, Campaign(s, n), n, {Vote(VolAt(s, n).hard.term + 1, n, n)})
  {
  }

  lemma {:induction false} GrantLocal(s: State, n: NodeId, c: NodeId)
    requires n in s.ids && InvTypes(s)
    ensures Local(s, Grant(s, n, c), n, {Vote(VolAt(s, n).hard.term, n, c)})
  {
  }

  lemma {:induction false} CampaignKeepsInv(s: State, n: NodeId)
    requires Inv(s) && n in s.ids
    ensures Inv(Campaign(s, n))
  {
    hide InvNodes, InvTerms, InvVotes, InvUnique, InvAcks, InvKept, InvBallots, InvLeaders, InvCommit, InvLed, NodeCommitOK, CommitOK;
    var s' := Campaign(s, n);
    var own := Vote(s.vol[n].hard.term + 1, n, n);
    assert NodeOK(s, n) by { NodeFacts(s, n); }
    CommitLater(s, n, s.vol[n].hard.term + 1);
    CampaignNode(s, n);
    LocalNodes(s, s', n, {own});
    LocalTerms(s, s', n, {own});
    CampaignVote(s, n);
    LocalVotes(s, s', n, {own});
    CampaignUnique(s, n);
    SameLogAcks(s, s', n, {own});
    CampaignBallots(s, s', n, own);
    LocalLeaders(s, s', n, {own});
    LocalCommit(s, s', n, {own});
    SameLogLed(s, s', n, {own});
  }

  lemma {:induction false} CommitLater(s: State, n: NodeId, t: nat)
    requires n in s.ids && n in s.vol && InvCommit(s) && t >= VolAt(s, n).hard.term
    ensures CommitOK(s, n, t, VolAt(s, n).hard.log, VolAt(s, n).hard.commit)
  {
    assert NodeCommitOK(s, n);
    var h := s.vol[n].hard;
    CommitUp(s, n, h.term, t, h.log, h.log, h.commit);
  }

  // ------------------------------------------------------------------ Grant

  /** The up-to-date check carries a voter's promise over to the candidate (section 5.4.1 of the Raft paper). */
  lemma {:induction false} UpToDateHolds(s: State, t: nat, i: nat, voter: seq<Entry>, cand: seq<Entry>, bound: nat)
    requires InvTerms(s) && InvLeaders(s)
    requires Rooted(s, voter) && Rooted(s, cand) && Shaped(voter, bound)
    requires UpToDate(|cand|, TermAt(cand, |cand|), voter)
    requires HoldsOr(s, t, i, voter)
    ensures HoldsOr(s, t, i, cand)
  {
    if Own(s, t, i) && Agree(voter, s.tlog[t], i) {
      var vt := TermAt(voter, |voter|);
      var ct := TermAt(cand, |cand|);
      assert TermOK(s, t);
      assert voter[i - 1].term == t;
      assert vt >= t;
      assert |cand| > 0;
      assert Agree(cand, s.tlog[ct], |cand|);
      if ct == vt {
        assert Agree(voter, s.tlog[vt], |voter|);
      } else {
        assert HoldsOr(s, t, i, s.tlog[ct]);
        if Agree(s.tlog[ct], s.tlog[t], i) {
          LaterEntryIsBeyond(s, t, i, ct, |cand|);
        }
      }
    }
  }

  /** An entry of a later term lies beyond everything shared with an earlier term's log. */
  lemma {:induction false} LaterEntryIsBeyond(s: State, t: nat, i: nat, u: nat, k: nat)
    requires t in s.tlog && u in s.tlog && t < u && Shaped(TlogAt(s, t), t)
    requires Agree(TlogAt(s, u), TlogAt(s, t), i)
    requires 1 <= k <= |TlogAt(s, u)| && TlogAt(s, u)[k - 1].term == u
    ensures k > i
  {
  }

  lemma {:induction false} GrantNode(s: State, n: NodeId, c: NodeId)
    requires InvTypes(s) && n in s.ids && NodeOK(s, n) && CanGrant(s, n, c)
    ensures NodeOK(Grant(s, n, c), n)
  {
    var s' := Grant(s, n, c);
    RootedSame(s, s', s.vol[n].hard.log);
    RootedSame(s, s', s.dur[n].log);
  }

  lemma {:induction false} GrantVote(s: State, n: NodeId, c: NodeId)
    requires InvTypes(s) && n in s.ids && InvVotes(s) && CanGrant(s, n, c)
    ensures VoteOK(Grant(s, n, c), Vote(VolAt(s, n).hard.term, n, c))
  {
    var own := Vote(s.vol[n].hard.term, n, c);
    BallotFact(s, own);
  }

  lemma {:induction false} GrantUnique(s: State, n: NodeId, c: NodeId)
    requires InvTypes(s) && n in s.ids && InvUnique(s) && InvVotes(s) && CanGrant(s, n, c)
    ensures InvUnique(Grant(s, n, c))
  {
    var s' := Grant(s, n, c);
    forall t, v, d, e | Sent(s', Vote(t, v, d)) && Sent(s', Vote(t, v, e))
      ensures d == e
    {
      BallotFact(s, Vote(t, v, d));
      BallotFact(s, Vote(t, v, e));
    }
  }

  lemma {:induction false} GrantPromise(s: State, n: NodeId, c: NodeId, p: Packet)
    requires InvTypes(s) && InvNodes(s) && InvTerms(s) && InvKept(s) && InvLeaders(s)
    requires n in s.ids && CanGrant(s, n, c) && Running(s, c, VolAt(s, n).hard.term)
    requires Sent(s, p) && p.Ack? && p.from == n
    ensures Keeps(s, p, VolAt(s, c).hard.log)
  {
    assert NodeOK(s, n) && NodeOK(s, c);
    HeldKeeps(s, p, s.vol[n].hard.log);
    forall t: nat, i: nat | t <= p.term && i <= p.index
      ensures HoldsOr(s, t, i, s.vol[c].hard.log)
    {
      UpToDateHolds(s, t, i, s.vol[n].hard.log, s.vol[c].hard.log, s.vol[n].hard.term);
    }
  }

  lemma {:induction false} GrantBallots(s: State, s': State, n: NodeId, c: NodeId, own: Packet)
    requires InvTypes(s) && InvNodes(s) && InvTerms(s) && InvVotes(s) && InvAcks(s) && InvKept(s) && InvBallots(s)
    requires InvLeaders(s)
    requires n in s.ids && CanGrant(s, n, c) && s' == Grant(s, n, c) && own == Vote(VolAt(s, n).hard.term, n, c)
    ensures InvBallots(s')
  {
    hide InvNodes, InvTerms, InvLeaders, InvKept, Keeps, Grows;
    forall v, p | Sent(s', v) && Sent(s', p) && v.Vote? && p.Ack? && p.from == v.from && p.term < v.term
                  && Running(s', v.cand, v.term)
      ensures Keeps(s', p, s'.vol[v.cand].hard.log)
    {
      assert Sent(s, p) && AckOK(s, p);
      GrantLocal(s, n, c);
      if v == own {
        GrantPromise(s, n, c, p);
        KeepsLocal(s, s', n, {own}, p, s.vol[c].hard.log);
      } else {
        assert Sent(s, v) && VoteOK(s, v);
        assert Running(s, v.cand, v.term);
        OldBallot(s, s', n, {own}, v, p);
      }
    }
  }

  lemma {:induction false} GrantKeepsInv(s: State, n: NodeId, c: NodeId)
    requires Inv(s) && n in s.ids && CanGrant(s, n, c)
    ensures Inv(Grant(s, n, c))
  {
    hide InvNodes, InvTerms, InvVotes, InvUnique, InvAcks, InvKept, InvBallots, InvLeaders, InvCommit, InvLed, NodeCommitOK, CommitOK;
    var s' := Grant(s, n, c);
    var own := Vote(s.vol[n].hard.term, n, c);
    assert NodeOK(s, n) by { NodeFacts(s, n); }
    CommitLater(s, n, s.vol[n].hard.term);
    GrantNode(s, n, c);
    LocalNodes(s, s', n, {own});
    LocalTerms(s, s', n, {own});
    GrantVote(s, n, c);
    LocalVotes(s, s', n, {own});
    GrantUnique(s, n, c);
    SameLogAcks(s, s', n, {own});
    GrantBallots(s, s', n, c, own);
    LocalLeaders(s, s', n, {own});
    LocalCommit(s, s', n, {own});
    SameLogLed(s, s', n, {own});
  }

  // ------------------------------------------------------------------ Commit

  lemma {:induction false} CommitNode(s: State, n: NodeId, c: nat)
    requires n in s.ids && NodeOK(s, n)
    ensures NodeOK(Commit(s, n, c), n)
  {
    var s' := Commit(s, n, c);
    RootedSame(s, s', s.vol[n].hard.log);
    RootedSame(s, s', s.dur[n].log);
  }

  lemma {:induction false} CommitKeepsInv(s: State, n: NodeId, c: nat)
    requires Inv(s) && n in s.ids
    requires CommitOK(s, n, VolAt(s, n).hard.term, VolAt(s, n).hard.log, c)
    requires s.ids != {n} ==> CommitOK(s, NONE, VolAt(s, n).hard.term, VolAt(s, n).hard.log, c)
    ensures Inv(Commit(s, n, c))
  {
    hide InvNodes, InvTerms, InvVotes, InvUnique, InvAcks, InvKept, InvBallots, InvLeaders, InvCommit, InvLed, NodeCommitOK, CommitOK;
    var s' := Commit(s, n, c);
    assert NodeOK(s, n) by { NodeFacts(s, n); }
    CommitNode(s, n, c);
    LocalNodes(s, s', n, {});
    LocalTerms(s, s', n, {});
    LocalVotes(s, s', n, {});
    LocalUnique(s, s', n, {});
    SameLogAcks(s, s', n, {});
    LocalBallots(s, s', n, {});
    LocalLeaders(s, s', n, {});
    LocalCommit(s, s', n, {});
    CommitLed(s, s', n, c);
  }

  lemma {:induction false} CommitLed(s: State, s': State, n: NodeId, c: nat)
    requires InvTypes(s) && InvLed(s) && n in s.ids && s' == Commit(s, n, c) && Local(s, s', n, {})
    requires s.ids != {n} ==> CommitOK(s, NONE, VolAt(s, n).hard.term, VolAt(s, n).hard.log, c)
    ensures InvLed(s')
  {
    hide CommitOK, LedAck, HasAck;
    assert LedNode(s, n);
    if s.vol[n].role == Leader {
      HasAckGrows(s, s', n, s.vol[n].hard.term, |s.vol[n].hard.log|);
    }
    LocalLed(s, s', n, {});
  }
}
