/** Raft as an object over its log; every method is proved against the step on values.

    Methods return `fatal` where the code panics or calls log.Fatal; the state is then of no interest. */
module RaftImpl {
  import opened RaftTypes
  import opened RaftStore
  import opened RaftStorageImpl
  import opened RaftLogImpl
  import opened N = RaftNodeSpec
  import opened RaftImplFacts
  import L = RaftLogSpec

  class Raft {
    const id: NodeId
    const log: RaftLog
    var term: nat
    var vote: NodeId
    var prs: map<NodeId, Progress>
    var state: StateType
    var votes: map<NodeId, bool>
    var msgs: seq<Message>
    var lead: NodeId
    var leadTransferee: NodeId
    var pendingConfIndex: nat

    ghost predicate Valid()
      reads log.storage
    {
      log.Valid()
    }

    ghost function View(): N.Raft
      reads this, log
    {
      N.Raft(id, term, vote, log.View(), prs, state, votes, SetOf(msgs), lead, leadTransferee, pendingConfIndex)
    }

    ghost function Stored(): (st: Store)
      requires Valid()
      reads log.storage
      ensures st.ents != []
    {
      log.storage.View()
    }

    ghost predicate Ends(o: Outcome<N.Raft>, fatal: bool)
      reads this, log
    {
      fatal == o.Fatal? && (!fatal ==> View() == o.value)
    }

    ghost predicate EndsStep(o: Outcome<Stepped>, fatal: bool, dropped: bool)
      reads this, log
    {
      fatal == o.Fatal? && (!fatal ==> o.value == Stepped(View(), dropped))
    }

    // ------------------------------------------------------------------ sending

    /** Stamps sender and term. Vote messages must carry their term, others must not. */
    method Send(m: Message) returns (fatal: bool)
      modifies this`msgs
      ensures fatal == ((m.MsgRequestVote? || m.MsgRequestVoteResponse?) == (m.term == 0))
      ensures !fatal ==> View() == N.Send(old(View()), Stamped(m, id, term))
    {
      var out := Envelope(m, id, m.to, m.term);
      if m.MsgRequestVote? || m.MsgRequestVoteResponse? {
        if m.term == 0 {
          return true;
        }
      } else {
        if m.term != 0 {
          return true;
        }
        if !m.MsgPropose? {
          out := Envelope(out, id, m.to, term);
        }
      }
      SetOfSnoc(msgs, out);
      msgs := msgs + [out];
      return false;
    }

    method SendAppend(to: NodeId) returns (fatal: bool)
      requires Valid()
      modifies this`msgs
      ensures Ends(N.SendAppend(old(View()), Stored(), to), fatal)
    {
      if to !in prs {
        return true;
      }
      var next := prs[to].Next;
      var prev: int := next;
      var t := log.Term(prev - 1);
      var ents := log.Entries(next);
      if ents.Fatal? {
        return true;
      }
      if t.Err? || ents.value.Err? {
        var snapshot := log.LatestSnapshot();
        if snapshot.index == 0 {
          return true;
        }
        fatal := Send(MsgSnapshot(NONE, to, 0, snapshot));
      } else {
        fatal := Send(MsgAppend(NONE, to, 0, next - 1, t.value, ents.value.value, log.committed));
      }
    }

    method SendHeartbeat(to: NodeId)
      requires to in prs
      modifies this`msgs
      ensures View() == N.Send(old(View()), HeartbeatMessage(old(View()), to))
    {
      var commit := if prs[to].Match > log.committed then log.committed else prs[to].Match;
      var fatal := Send(MsgHeartbeat(NONE, to, 0, commit));
    }

    method BcastAppend() returns (fatal: bool)
      requires Valid()
      modifies this`msgs
      ensures Ends(N.BcastAppend(old(View()), Stored()), fatal)
    {
      ghost var r0, st := View(), Stored();
      var todo := prs.Keys;
      AppendMessagesNone(r0, st);
      while todo != {}
        invariant todo <= prs.Keys
        invariant View() == r0.(msgs := r0.msgs + AppendMessages(r0, st, prs.Keys - todo))
        invariant forall x :: x in prs.Keys - todo && x != id ==> AppendMessage(r0, st, x).Done?
        decreases todo
      {
        var x :| x in todo;
        AppendMessageSame(r0, View().msgs, st, x);
        AppendMessagesMore(r0, st, prs.Keys - todo, x);
        assert prs.Keys - todo + {x} == prs.Keys - (todo - {x});
        if x != id {
          fatal := SendAppend(x);
          if fatal {
            return true;
          }
        }
        todo := todo - {x};
      }
      assert prs.Keys - todo == r0.prs.Keys;
      AppendMessagesAll(r0, st);
      return false;
    }

    method BcastHeartbeat()
      modifies this`msgs
      ensures View() == N.BcastHeartbeat(old(View()))
    {
      ghost var r0 := View();
      var todo := prs.Keys;
      HeartbeatsNone(r0);
      while todo != {}
        invariant todo <= prs.Keys
        invariant View() == r0.(msgs := r0.msgs + Heartbeats(r0, prs.Keys - todo))
        decreases todo
      {
        var x :| x in todo;
        HeartbeatsMore(r0, prs.Keys - todo, x);
        assert prs.Keys - todo + {x} == prs.Keys - (todo - {x});
        if x != id {
          SendHeartbeat(x);
        }
        todo := todo - {x};
      }
      assert prs.Keys - todo == r0.prs.Keys;
      HeartbeatsAll(r0);
    }

    // ------------------------------------------------------------------ committing

    /** Sorts the Match indexes and commits the one a majority has reached. */
    method MaybeCommit() returns (fatal: bool, changed: bool)
      modifies log`committed
      ensures var o := N.MaybeCommit(old(View()));
              fatal == o.Fatal? && (!fatal ==> o.value == (View(), changed))
    {
      changed := false;
      if |prs| == 0 {
        return true, false;
      }
      var matchIndex := [];
      var todo := prs.Keys;
      ReachedNone(prs);
      while todo != {}
        invariant View() == old(View())
        invariant todo <= prs.Keys
        invariant |matchIndex| == |prs.Keys - todo|
        invariant forall x :: CountFrom(matchIndex, x) == |Reached(prs, prs.Keys - todo, x)|
        decreases todo
      {
        var p :| p in todo;
        assert prs.Keys - todo + {p} == prs.Keys - (todo - {p});
        MatchAdded(prs, prs.Keys - todo, p, matchIndex);
        matchIndex := matchIndex + [prs[p].Match];
        todo := todo - {p};
      }
      assert prs.Keys - todo == prs.Keys;
      var sorted := Sort(matchIndex);
      var mci := sorted[|sorted| - (|prs| / 2 + 1)];
      QuorumMatchSorted(prs, matchIndex, sorted);
      fatal, changed := log.MaybeCommit(mci, term);
    }

    method AppendEntry(es: seq<Entry>) returns (fatal: bool)
      requires Valid()
      modifies this`prs, log
      ensures Ends(N.AppendEntry(old(View()), Stored(), es), fatal)
    {
      var li := log.LastIndex();
      var ents := [];
      var i := 0;
      while i < |es|
        invariant 0 <= i <= |es| && |ents| == i
        invariant forall k :: 0 <= k < i ==> ents[k] == Stamp(es, term, li)[k]
      {
        ents := ents + [es[i].(term := term, index := li + 1 + i)];
        i := i + 1;
      }
      assert ents == Stamp(es, term, li);
      fatal := log.Append(ents);
      if fatal || id !in prs {
        return true;
      }
      li := log.LastIndex();
      prs := prs[id := MaybeUpdate(prs[id], li)];
      var changed;
      fatal, changed := MaybeCommit();
    }

    // ------------------------------------------------------------------ roles

    /** Gives every member a fresh progress. */
    method ResetProgress()
      modifies this`prs
      ensures Fresh(prs, old(prs.Keys), id, log.LastIndex())
    {
      var last := log.LastIndex();
      ghost var ids := prs.Keys;
      var todo := prs.Keys;
      while todo != {}
        invariant todo <= prs.Keys == ids
        invariant forall x :: x in ids - todo ==> prs[x] == Progress(if x == id then last else 0, last + 1)
        decreases todo
      {
        var x :| x in todo;
        prs := prs[x := Progress(if x == id then last else 0, last + 1)];
        todo := todo - {x};
      }
    }

    method Reset(t: nat)
      modifies this
      ensures View() == N.Reset(old(View()), t)
    {
      hide N.Reset, Fresh;
      if term != t {
        term := t;
        vote := NONE;
      }
      lead := NONE;
      leadTransferee := NONE;
      votes := map[];
      ResetProgress();
      pendingConfIndex := 0;
      ResetIs(old(View()), t, prs);
    }

    method BecomeFollower(t: nat, leader: NodeId)
      modifies this
      ensures View() == N.BecomeFollower(old(View()), t, leader)
    {
      Reset(t);
      lead := leader;
      state := StateFollower;
    }

    method BecomeCandidate()
      modifies this
      ensures View() == N.BecomeCandidate(old(View()))
    {
      Reset(term + 1);
      vote := id;
      state := StateCandidate;
    }

    method BecomeLeader() returns (fatal: bool)
      requires Valid()
      modifies this, log
      ensures Ends(N.BecomeLeader(old(View()), Stored()), fatal)
    {
      Reset(term);
      lead := id;
      state := StateLeader;
      pendingConfIndex := log.LastIndex();
      fatal := AppendEntry([Entry(EntryNormal, 0, 0, [])]);
    }

    // ------------------------------------------------------------------ elections

    /** Records the vote unless there is one already, and counts those granted. */
    method Poll(voter: NodeId, v: bool) returns (granted: nat)
      modifies this`votes
      ensures View() == N.Poll(old(View()), voter, v)
      ensures granted == Granted(votes)
    {
      if voter !in votes {
        votes := votes[voter := v];
      }
      granted := 0;
      var todo := votes.Keys;
      ghost var r1 := View();
      GrantorsInNone(votes);
      while todo != {}
        invariant View() == r1
        invariant todo <= votes.Keys
        invariant granted == |GrantorsIn(votes, votes.Keys - todo)|
        decreases todo
      {
        var x :| x in todo;
        GrantorsInMore(votes, votes.Keys - todo, x);
        assert votes.Keys - todo + {x} == votes.Keys - (todo - {x});
        if votes[x] {
          granted := granted + 1;
        }
        todo := todo - {x};
      }
      assert votes.Keys - todo == votes.Keys;
      assert GrantorsIn(votes, votes.Keys) == Grantors(votes);
    }

    /** Asks every other member for its vote. */
    method RequestVotes() returns (fatal: bool)
      requires term >= 1
      modifies this`msgs
      ensures fatal == (log.LastTerm().Fatal? && exists x :: x in prs && x != id)
      ensures !fatal && log.LastTerm().Done? ==>
                View() == old(View()).(msgs := old(View()).msgs + VoteRequests(old(View()), prs.Keys, log.LastTerm().value))
      ensures !fatal && log.LastTerm().Fatal? ==> View() == old(View())
    {
      ghost var r2 := View();
      var todo := prs.Keys;
      var last, lastTerm := log.LastIndex(), log.LastTerm();
      ghost var t := if lastTerm.Done? then lastTerm.value else 0;
      VoteRequestsNone(r2, t);
      while todo != {}
        invariant todo <= prs.Keys
        invariant View() == r2.(msgs := r2.msgs + VoteRequests(r2, prs.Keys - todo, t))
        invariant lastTerm.Fatal? ==> forall x :: x in prs.Keys - todo ==> x == id
        decreases todo
      {
        var x :| x in todo;
        VoteRequestsMore(r2, prs.Keys - todo, x, t);
        assert prs.Keys - todo + {x} == prs.Keys - (todo - {x});
        if x != id {
          if lastTerm.Fatal? {
            return true;
          }
          var bad := Send(MsgRequestVote(NONE, x, term, last, lastTerm.value));
        }
        todo := todo - {x};
      }
      assert prs.Keys - todo == r2.prs.Keys;
      VoteRequestsAll(r2, t);
      return false;
    }

    method Campaign() returns (fatal: bool)
      requires Valid()
      modifies this, log
      ensures Ends(N.Campaign(old(View()), Stored()), fatal)
    {
      hide N.BecomeLeader, N.Reset, L.LastTerm;
      BecomeCandidate();
      var granted := Poll(id, true);
      if |prs| / 2 + 1 == granted {
        fatal := BecomeLeader();
        return fatal;
      }
      ghost var r2 := View();
      assert r2.term >= 1 by { CandidateTerm(old(View())); }
      fatal := RequestVotes();
      if log.LastTerm().Done? {
        VoteRequestsAll(r2, log.LastTerm().value);
      }
    }

    // ------------------------------------------------------------------ handlers

    method HandleAppendEntries(m: Message) returns (fatal: bool)
      requires Valid() && m.MsgAppend?
      modifies this, log
      ensures Ends(N.HandleAppendEntries(old(View()), Stored(), m), fatal)
    {
      if m.index < log.committed {
        fatal := Send(MsgAppendResponse(NONE, m.from, 0, log.committed, false, 0));
        return fatal;
      }
      var last;
      fatal, last := log.MaybeAppend(m.index, m.logTerm, m.commit, m.ents);
      if fatal {
        return true;
      }
      if last.Some? {
        fatal := Send(MsgAppendResponse(NONE, m.from, 0, last.value, false, 0));
      } else {
        var hint := log.LastIndex();
        fatal := Send(MsgAppendResponse(NONE, m.from, 0, m.index, true, hint));
      }
    }

    method HandleHeartbeat(m: Message) returns (fatal: bool)
      requires m.MsgHeartbeat?
      modifies this, log
      ensures Ends(N.HandleHeartbeat(old(View()), m), fatal)
    {
      fatal := log.CommitTo(m.commit);
      if !fatal {
        fatal := Send(MsgHeartbeatResponse(NONE, m.from, 0));
      }
    }

    method RestoreSnapshot(s: Snapshot) returns (fatal: bool, restored: bool)
      modifies this, log
      ensures var o := N.RestoreSnapshot(old(View()), s);
              fatal == o.Fatal? && (!fatal ==> o.value == (View(), restored))
    {
      restored := false;
      if s.index <= log.committed {
        return false, false;
      }
      if log.MatchTerm(s.index, s.term) {
        fatal := log.CommitTo(s.index);
        return fatal, false;
      }
      log.Restore(s);
      prs := map[];
      var last := log.LastIndex();
      var todo := s.nodes;
      ghost var r1 := View();
      while todo != {}
        invariant View() == r1.(prs := prs)
        invariant todo <= s.nodes && prs.Keys == s.nodes - todo
        invariant forall x :: x in prs ==> prs[x] == Progress(if x == id then last else 0, last + 1)
        decreases todo
      {
        var x :| x in todo;
        prs := prs[x := Progress(if x == id then last else 0, last + 1)];
        todo := todo - {x};
      }
      RestoreIs(old(View()), s, prs);
      return false, true;
    }

    method HandleSnapshot(m: Message) returns (fatal: bool)
      requires m.MsgSnapshot?
      modifies this, log
      ensures Ends(N.HandleSnapshot(old(View()), m), fatal)
    {
      var restored;
      fatal, restored := RestoreSnapshot(m.snapshot);
      if fatal {
        return true;
      }
      var index := if restored then log.LastIndex() else log.committed;
      fatal := Send(MsgAppendResponse(NONE, m.from, 0, index, false, 0));
    }

    method FollowLeader(m: Message) returns (fatal: bool)
      requires Valid() && (m.MsgAppend? || m.MsgHeartbeat? || m.MsgSnapshot?)
      modifies this, log
      ensures Ends(N.FollowLeader(old(View()), Stored(), m), fatal)
    {
      match m {
        case MsgAppend(_, _, _, _, _, _, _) => fatal := HandleAppendEntries(m);
        case MsgHeartbeat(_, _, _, _) => fatal := HandleHeartbeat(m);
        case MsgSnapshot(_, _, _, _) => fatal := HandleSnapshot(m);
      }
    }

    // ------------------------------------------------------------------ the leader

    /** Replaces configuration changes by empty entries while one is pending, then appends. */
    method Propose(ents: seq<Entry>) returns (fatal: bool, dropped: bool)
      requires Valid()
      modifies this, log
      ensures EndsStep(N.Propose(old(View()), Stored(), ents), fatal, dropped)
    {
      dropped := false;
      if |ents| == 0 {
        return true, false;
      }
      if id !in prs || leadTransferee != NONE {
        return false, true;
      }
      var es := FilterProposal(ents);
      fatal := AppendEntry(es);
      if fatal {
        return true, false;
      }
      fatal := BcastAppend();
    }

    /** The loop over a proposal's configuration changes. */
    method FilterProposal(ents: seq<Entry>) returns (es: seq<Entry>)
      requires Valid()
      modifies this`pendingConfIndex
      ensures (es, pendingConfIndex) == FilterConf(ents, old(pendingConfIndex), log.applied, old(log.LastIndex()))
    {
      es := [];
      var i := 0;
      var last := log.LastIndex();
      assert ents[0..] == ents;
      assert [] + FilterConf(ents, pendingConfIndex, log.applied, last).0 == FilterConf(ents, pendingConfIndex, log.applied, last).0;
      while i < |ents|
        invariant 0 <= i <= |ents|
        invariant var rest := FilterConf(ents[i..], pendingConfIndex, log.applied, last + i);
                  FilterConf(ents, old(pendingConfIndex), log.applied, last) == (es + rest.0, rest.1)
      {
        var e := ents[i];
        assert ents[i..][1..] == ents[i + 1..] && ents[i..][0] == e;
        if e.entryType == EntryConfChange {
          if pendingConfIndex > log.applied {
            e := Entry(EntryNormal, 0, 0, []);
          } else {
            pendingConfIndex := last + i + 1;
          }
        }
        ghost var rest := FilterConf(ents[i + 1..], pendingConfIndex, log.applied, last + i + 1);
        assert es + ([e] + rest.0) == (es + [e]) + rest.0;
        es := es + [e];
        i := i + 1;
      }
      assert ents[i..] == [] && es + [] == es;
    }

    method LeaderAppendResponse(m: Message) returns (fatal: bool)
      requires Valid() && m.MsgAppendResponse? && m.from in prs
      modifies this, log
      ensures Ends(N.LeaderAppendResponse(old(View()), Stored(), m), fatal)
    {
      fatal := false;
      var pr := prs[m.from];
      if m.reject {
        var decreased := MaybeDecrTo(pr, m.index, m.rejectHint);
        prs := prs[m.from := decreased.0];
        if decreased.1 {
          fatal := SendAppend(m.from);
        }
        return fatal;
      }
      prs := prs[m.from := MaybeUpdate(pr, m.index)];
      if pr.Match < m.index {
        var changed;
        fatal, changed := MaybeCommit();
        if fatal {
          return true;
        }
        if changed {
          fatal := BcastAppend();
          if fatal {
            return true;
          }
        }
        if m.from == leadTransferee && prs[m.from].Match == log.LastIndex() {
          fatal := Send(MsgTimeoutNow(NONE, m.from, 0));
        }
      }
    }

    method LeaderTransfer(transferee: NodeId) returns (fatal: bool)
      requires Valid() && transferee in prs
      modifies this`leadTransferee, this`msgs
      ensures Ends(N.LeaderTransfer(old(View()), Stored(), transferee), fatal)
    {
      if leadTransferee != NONE {
        if leadTransferee == transferee {
          return false;
        }
        leadTransferee := NONE;
      }
      if transferee == id {
        return false;
      }
      leadTransferee := transferee;
      if prs[transferee].Match == log.LastIndex() {
        fatal := Send(MsgTimeoutNow(NONE, transferee, 0));
      } else {
        fatal := SendAppend(transferee);
      }
    }

    method StepLeader(m: Message) returns (fatal: bool, dropped: bool)
      requires Valid()
      modifies this, log
      ensures EndsStep(N.StepLeader(old(View()), Stored(), m), fatal, dropped)
    {
      fatal, dropped := false, false;
      if m.from !in prs && !m.MsgBeat? && !m.MsgPropose? {
        return;
      }
      if m.MsgBeat? {
        BcastHeartbeat();
      } else if m.MsgPropose? {
        fatal, dropped := Propose(m.ents);
      } else if m.MsgAppendResponse? {
        fatal := LeaderAppendResponse(m);
      } else if m.MsgHeartbeatResponse? {
        if prs[m.from].Match < log.LastIndex() {
          fatal := SendAppend(m.from);
        }
      } else if m.MsgTransferLeader? {
        fatal := LeaderTransfer(m.from);
      }
    }

    // ------------------------------------------------------------------ candidates and followers

    method CandidateVoteResponse(m: Message) returns (fatal: bool)
      requires Valid() && m.MsgRequestVoteResponse?
      modifies this, log
      ensures Ends(N.CandidateVoteResponse(old(View()), Stored(), m), fatal)
    {
      fatal := false;
      var gr := Poll(m.from, !m.reject);
      if |prs| / 2 + 1 == gr {
        fatal := BecomeLeader();
        if !fatal {
          fatal := BcastAppend();
        }
      } else if |prs| / 2 + 1 == |votes| - gr {
        BecomeFollower(term, NONE);
      }
    }

    method StepCandidate(m: Message) returns (fatal: bool, dropped: bool)
      requires Valid()
      modifies this, log
      ensures EndsStep(N.StepCandidate(old(View()), Stored(), m), fatal, dropped)
    {
      fatal, dropped := false, false;
      if m.MsgPropose? {
        dropped := true;
      } else if m.MsgAppend? || m.MsgHeartbeat? || m.MsgSnapshot? {
        BecomeFollower(m.term, m.from);
        fatal := FollowLeader(m);
      } else if m.MsgRequestVoteResponse? {
        fatal := CandidateVoteResponse(m);
      }
    }

    method StepFollower(m: Message) returns (fatal: bool, dropped: bool)
      requires Valid()
      modifies this, log
      ensures EndsStep(N.StepFollower(old(View()), Stored(), m), fatal, dropped)
    {
      fatal, dropped := false, false;
      if m.MsgPropose? {
        dropped := true;
      } else if m.MsgAppend? || m.MsgHeartbeat? || m.MsgSnapshot? {
        lead := m.from;
        fatal := FollowLeader(m);
      } else if m.MsgTransferLeader? {
        if lead != NONE {
          fatal := Send(Envelope(m, m.from, lead, m.term));
        }
      } else if m.MsgTimeoutNow? {
        if id in prs {
          fatal := Campaign();
        }
      }
    }

    // ------------------------------------------------------------------ Step

    static method NumOfPendingConf(ents: seq<Entry>) returns (n: nat)
      ensures n == N.NumOfPendingConf(ents)
    {
      n := 0;
      var i := 0;
      while i < |ents|
        invariant 0 <= i <= |ents|
        invariant n + N.NumOfPendingConf(ents[i..]) == N.NumOfPendingConf(ents)
      {
        assert ents[i..][1..] == ents[i + 1..];
        if ents[i].entryType == EntryConfChange {
          n := n + 1;
        }
        i := i + 1;
      }
      assert ents[i..] == [];
    }

    method StepHup() returns (fatal: bool)
      requires Valid()
      modifies this, log
      ensures Ends(N.StepHup(old(View()), Stored()), fatal)
    {
      hide N.Campaign, L.Slice, N.NumOfPendingConf;
      fatal := false;
      if state != StateLeader {
        var ents := log.Slice(log.applied + 1, log.committed + 1);
        if ents.Fatal? || ents.value.Err? {
          return true;
        }
        var n := NumOfPendingConf(ents.value.value);
        if n != 0 && log.committed > log.applied {
          return false;
        }
        fatal := Campaign();
      }
    }

    method StepRequestVote(m: Message) returns (fatal: bool)
      requires m.MsgRequestVote?
      modifies this`vote, this`msgs
      ensures Ends(N.StepRequestVote(old(View()), m), fatal)
    {
      var upToDate := log.IsUpToDate(m.index, m.logTerm);
      if upToDate.Fatal? {
        return true;
      }
      if (vote == m.from || (vote == NONE && lead == NONE)) && upToDate.value {
        fatal := Send(MsgRequestVoteResponse(NONE, m.from, m.term, false));
        if !fatal {
          vote := m.from;
        }
      } else {
        fatal := Send(MsgRequestVoteResponse(NONE, m.from, term, true));
      }
    }

    method StepSameTerm(m: Message) returns (fatal: bool, dropped: bool)
      requires Valid()
      modifies this, log
      ensures EndsStep(N.StepSameTerm(old(View()), Stored(), m), fatal, dropped)
    {
      hide N.StepHup, N.StepRequestVote, N.StepLeader, N.StepCandidate, N.StepFollower;
      dropped := false;
      if m.MsgHup? {
        fatal := StepHup();
      } else if m.MsgRequestVote? {
        fatal := StepRequestVote(m);
      } else {
        match state {
          case StateFollower => fatal, dropped := StepFollower(m);
          case StateCandidate => fatal, dropped := StepCandidate(m);
          case StateLeader => fatal, dropped := StepLeader(m);
        }
      }
    }

    method Step(m: Message) returns (fatal: bool, dropped: bool)
      requires Valid()
      modifies this, log
      ensures EndsStep(N.Step(old(View()), Stored(), m), fatal, dropped)
    {
      hide N.StepSameTerm, N.BecomeFollower;
      if m.term != 0 {
        if m.term > term {
          if m.MsgAppend? || m.MsgHeartbeat? || m.MsgSnapshot? {
            BecomeFollower(m.term, m.from);
          } else {
            BecomeFollower(m.term, NONE);
          }
        } else if m.term < term {
          return false, false;
        }
      }
      fatal, dropped := StepSameTerm(m);
    }

    // ------------------------------------------------------------------ start

    constructor Build(id: NodeId, log: RaftLog, prs: map<NodeId, Progress>, hs: HardState)
      ensures this.log == log && this.id == id && this.prs == prs && this.term == hs.term && this.vote == hs.vote
      ensures state == StateFollower && votes == map[] && msgs == [] && lead == NONE && leadTransferee == NONE
      ensures pendingConfIndex == 0
    {
      this.id := id;
      this.log := log;
      this.prs := prs;
      this.term := hs.term;
      this.vote := hs.vote;
      this.state := StateFollower;
      this.votes := map[];
      this.msgs := [];
      this.lead := NONE;
      this.leadTransferee := NONE;
      this.pendingConfIndex := 0;
    }

    /** newRaft; null stands for a panic. */
    static method NewRaft(id: NodeId, peers: set<NodeId>, applied: nat, storage: MemoryStorage) returns (r: Raft?)
      requires storage.Valid()
      ensures r == null <==> N.NewRaft(id, peers, applied, storage.View()).Fatal?
      ensures r != null ==>
                && fresh(r) && fresh(r.log) && r.log.storage == storage && r.Valid()
                && r.View() == N.NewRaft(id, peers, applied, storage.View()).value
    {
      hide L.NewLog, N.BecomeFollower;
      if id == NONE {
        return null;
      }
      var l := RaftLog.NewLog(storage);
      if l == null {
        return null;
      }
      var nodes := peers;
      if storage.snapshot.nodes != {} {
        if peers != {} {
          return null;
        }
        nodes := storage.snapshot.nodes;
      }
      var prs := InitProgress(nodes);
      var hs := storage.hardState;
      if hs != HardState(0, NONE, 0) {
        if hs.commit < l.committed || hs.commit > l.LastIndex() {
          return null;
        }
        l.committed := hs.commit;
      }
      var fatal := l.AppliedTo(applied);
      if fatal {
        return null;
      }
      NewRaftIs(id, peers, applied, storage.View(), nodes, prs, l.View());
      r := new Raft.Build(id, l, prs, hs);
      assert SetOf([]) == {};
      r.BecomeFollower(r.term, NONE);
    }

    static method InitProgress(nodes: set<NodeId>) returns (prs: map<NodeId, Progress>)
      ensures prs.Keys == nodes && forall x :: x in prs ==> prs[x] == Progress(0, 1)
    {
      prs := map[];
      var todo := nodes;
      while todo != {}
        invariant todo <= nodes && prs.Keys == nodes - todo
        invariant forall x :: x in prs ==> prs[x] == Progress(0, 1)
        decreases todo
      {
        var p :| p in todo;
        prs := prs[p := Progress(0, 1)];
        todo := todo - {p};
      }
    }
  }
}
