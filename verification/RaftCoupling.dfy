/** How the state of a node of the code relates to the state of the protocol. */
module RaftCoupling {
  import opened RaftTypes
  import opened RaftStore
  import opened RaftLogSpec
  import opened RaftNodeSpec
  import P = RaftProtocol
  import L = RaftProtocolProofs

  function RoleOf(s: StateType): P.Role {
    match s
    case StateFollower => P.Follower
    case StateCandidate => P.Candidate
    case StateLeader => P.Leader
  }

  /** Truthful progress: `m` has acknowledged what the leader `n` believes it holds. */
  ghost predicate ProgressOK(a: P.State, n: NodeId, m: NodeId, pr: Progress, term: nat, last: nat) {
    && 1 <= pr.Next <= last + 1
    && (pr.Match == 0 || P.Counted(a, n, m, term, pr.Match))
  }

  /** A leader's append message is a stretch of its log, with a commit index that is backed. */
  ghost predicate AppendOK(a: P.State, who: NodeId, t: nat, index: nat, logTerm: nat, ents: seq<Entry>, commit: nat) {
    && t in a.tlog
    && index + |ents| <= |a.tlog[t]|
    && (forall k :: 0 <= k < |ents| ==> ents[k] == a.tlog[t][index + k])
    && logTerm == TermAt(a.tlog[t], index)
    && P.CommitOK(a, who, t, a.tlog[t], commit)
  }

  /** An acceptance is backed by an acknowledgement, a rejection names a position the leader has. */
  ghost predicate AppendResponseOK(a: P.State, who: NodeId, from: NodeId, t: nat, index: nat, reject: bool) {
    if reject then t in a.tlog && index <= |a.tlog[t]|
    else if who == NONE then P.NetAck(a, from, t, index)
    else P.HasAck(a, from, t, index)
  }

  /** A vote request describes the candidate's log for as long as the candidacy lasts. */
  ghost predicate RequestVoteOK(a: P.State, who: NodeId, from: NodeId, t: nat, index: nat, logTerm: nat) {
    && from in a.vol && from in a.dur
    && (if who == NONE then a.dur[from].term >= t else a.vol[from].hard.term >= t)
    && (P.Running(a, from, t) ==>
          index == |a.vol[from].hard.log| && logTerm == TermAt(a.vol[from].hard.log, index))
  }

  ghost predicate VoteResponseOK(a: P.State, who: NodeId, from: NodeId, to: NodeId, t: nat, reject: bool) {
    reject || (if who == NONE then P.Vote(t, from, to) in a.net else P.Sent(a, P.Vote(t, from, to)))
  }

  /** A snapshot is a committed prefix of the leader's log. */
  ghost predicate SnapshotOK(a: P.State, who: NodeId, t: nat, s: Snapshot) {
    && t in a.tlog
    && 1 <= s.index <= |a.tlog[t]|
    && s.term == TermAt(a.tlog[t], s.index)
    && s.nodes == a.ids
    && P.CommitOK(a, who, t, a.tlog[t], s.index)
  }

  /** A heartbeat commits nothing its receiver has not acknowledged. */
  ghost predicate HeartbeatOK(a: P.State, who: NodeId, to: NodeId, t: nat, commit: nat) {
    && t in a.tlog
    && P.CommitOK(a, who, t, a.tlog[t], commit)
    && (commit == 0 || P.NetAck(a, to, t, commit))
  }

  /** The sender leads the term and has acknowledged position `i` of it; once the message is in the network,
      so is the acknowledgement. */
  ghost predicate Announced(a: P.State, who: NodeId, from: NodeId, t: nat, i: nat) {
    && t in a.tlog && t in a.owner && a.owner[t] == from
    && (if who == NONE then P.NetAck(a, from, t, i) else P.HasAck(a, from, t, i))
  }

  /** The message says only what the protocol allows. `who` is its sender while it is queued there
      and NONE once it is in the network. */
  ghost predicate MsgOK(a: P.State, who: NodeId, m: Message) {
    && m.from in a.ids
    && (who == NONE || who == m.from)
    && (!m.MsgTransferLeader? ==> m.to in a.ids && m.from != m.to && m.term >= 1)
    && match m
       case MsgHup(_, _, _) => false
       case MsgBeat(_, _, _) => false
       case MsgPropose(_, _, _, _) => false
       case MsgAppend(from, _, t, index, logTerm, ents, commit) =>
         AppendOK(a, who, t, index, logTerm, ents, commit) && Announced(a, who, from, t, index + |ents|)
       case MsgAppendResponse(from, _, t, index, reject, _) => AppendResponseOK(a, who, from, t, index, reject)
       case MsgRequestVote(from, _, t, index, logTerm) => RequestVoteOK(a, who, from, t, index, logTerm)
       case MsgRequestVoteResponse(from, to, t, reject) => VoteResponseOK(a, who, from, to, t, reject)
       case MsgSnapshot(from, _, t, s) => SnapshotOK(a, who, t, s) && Announced(a, who, from, t, 0)
       case MsgHeartbeat(_, to, t, commit) => HeartbeatOK(a, who, to, t, commit)
       case MsgHeartbeatResponse(_, _, _) => true
       case MsgTransferLeader(_, _, _) => true
       case MsgTimeoutNow(_, _, _) => true
  }

  /** The node's fields are those of the protocol's node, seen through compaction. */
  ghost predicate FieldsOK(a: P.State, n: NodeId, r: Raft, st: Store) {
    && n in a.ids && n in a.vol && n in a.dur
    && r.id == n
    && r.term == a.vol[n].hard.term
    && r.vote == a.vol[n].hard.vote
    && RoleOf(r.state) == a.vol[n].role
    && r.log.committed == a.vol[n].hard.commit
    && Synced(r.log, a.vol[n].hard.log, st, a.dur[n].log)
    && st.hardState == HardState(a.dur[n].term, a.dur[n].vote, a.dur[n].commit)
    && r.prs.Keys == a.ids
    && (r.log.pending.Some? ==> r.log.pending.value.nodes == a.ids)
    && (st.snapshot.index > 0 ==> st.snapshot.nodes == a.ids)
  }

  /** Votes are counted only when cast, and only while running. */
  ghost predicate VotesOK(a: P.State, n: NodeId, r: Raft) {
    r.state == StateCandidate ==>
      forall v :: v in r.votes && r.votes[v] ==>
        v in a.ids && (P.Vote(r.term, v, n) in a.net || (v == n && P.Vote(r.term, v, n) in a.queued))
  }

  ghost predicate ProgressesOK(a: P.State, n: NodeId, r: Raft) {
    r.state == StateLeader ==>
      forall m :: m in r.prs ==> ProgressOK(a, n, m, r.prs[m], r.term, LastIndex(r.log))
  }

  ghost predicate OutboxOK(a: P.State, n: NodeId, r: Raft) {
    forall m :: m in r.msgs ==> MsgOK(a, n, m)
  }

  ghost predicate RaftCore(a: P.State, n: NodeId, r: Raft, st: Store) {
    FieldsOK(a, n, r, st) && VotesOK(a, n, r) && ProgressesOK(a, n, r) && OutboxOK(a, n, r)
  }

  /** A leader's retained log is never empty: it holds at least the entry its reign began with. */
  ghost predicate RaftOK(a: P.State, n: NodeId, r: Raft, st: Store) {
    RaftCore(a, n, r, st) && (r.state == StateLeader ==> r.log.entries != [])
  }

  // ------------------------------------------------------------------ steps of one node

  /** `a'` is reached from `a` by steps of node `n` alone. */
  ghost predicate Reaches(a: P.State, a': P.State, n: NodeId) {
    && n in a.ids && n in a.vol && n in a'.vol
    && a'.ids == a.ids && a'.dur == a.dur && a'.net == a.net && a'.decided == a.decided
    && a'.vol == a.vol[n := a'.vol[n]]
    && a'.vol[n].hard.term >= a.vol[n].hard.term
    && a.queued <= a'.queued
    && L.Grows(a, a', n)
    && (a'.vol[n].role == P.Candidate ==>
          || (a.vol[n].role == P.Candidate && a.vol[n].hard.term == a'.vol[n].hard.term
              && a.vol[n].hard.log == a'.vol[n].hard.log)
          || a'.vol[n].hard.term > a.vol[n].hard.term)
  }

  lemma {:induction false} ReachesRefl(a: P.State, n: NodeId)
    requires P.InvTypes(a) && n in a.ids
    ensures Reaches(a, a, n)
  {
  }

  lemma {:induction false} ReachesTrans(a: P.State, b: P.State, c: P.State, n: NodeId)
    requires Reaches(a, b, n) && Reaches(b, c, n)
    ensures Reaches(a, c, n)
  {
    hide Agree;
    forall t | t in a.tlog
      ensures t in c.tlog && t in a.owner && t in c.owner && c.owner[t] == a.owner[t]
      ensures Agree(c.tlog[t], a.tlog[t], |a.tlog[t]|)
      ensures a.owner[t] != n ==> c.tlog[t] == a.tlog[t]
    {
      AgreeTrans(a.tlog[t], b.tlog[t], c.tlog[t]);
    }
  }

  lemma {:induction false} AgreeTrans(x: seq<Entry>, y: seq<Entry>, z: seq<Entry>)
    requires Agree(y, x, |x|) && Agree(z, y, |y|)
    ensures Agree(z, x, |x|)
  {
  }

  // ------------------------------------------------------------------ stability

  lemma {:induction false} HasAckStable(a: P.State, a': P.State, q: NodeId, t: nat, i: nat)
    requires a.net <= a'.net && a.queued <= a'.queued && P.HasAck(a, q, t, i)
    ensures P.HasAck(a', q, t, i)
  {
    var j: nat :| j >= i && P.Sent(a, P.Ack(t, q, j));
    assert P.Sent(a', P.Ack(t, q, j));
  }

  lemma {:induction false} CountedStable(a: P.State, a': P.State, n: NodeId, q: NodeId, t: nat, i: nat)
    requires a.net <= a'.net && a.queued <= a'.queued && P.Counted(a, n, q, t, i)
    ensures P.Counted(a', n, q, t, i)
  {
    if P.NetAck(a, q, t, i) {
      L.NetAckGrows(a, a', q, t, i);
    } else {
      HasAckStable(a, a', q, t, i);
    }
  }

  lemma {:induction false} CommitStable(a: P.State, a': P.State, n: NodeId, who: NodeId, t: nat, c: nat)
    requires Reaches(a, a', n) && t in a.tlog && P.CommitOK(a, who, t, P.TlogAt(a, t), c)
    ensures t in a'.tlog && P.CommitOK(a', who, t, P.TlogAt(a', t), c)
  {
    L.CommitGrows(a, a', n, who, t, t, a.tlog[t], a'.tlog[t], c);
  }

  lemma {:induction false} AppendStable(a: P.State, a': P.State, n: NodeId, who: NodeId, t: nat, index: nat, logTerm: nat, ents: seq<Entry>, commit: nat)
    requires Reaches(a, a', n) && AppendOK(a, who, t, index, logTerm, ents, commit)
    ensures AppendOK(a', who, t, index, logTerm, ents, commit)
  {
    CommitStable(a, a', n, who, t, commit);
    hide P.CommitOK;
  }

  lemma {:induction false} AppendResponseStable(a: P.State, a': P.State, n: NodeId, who: NodeId, from: NodeId, t: nat, index: nat, reject: bool)
    requires Reaches(a, a', n) && AppendResponseOK(a, who, from, t, index, reject)
    ensures AppendResponseOK(a', who, from, t, index, reject)
  {
    if !reject {
      if who == NONE {
        L.NetAckGrows(a, a', from, t, index);
      } else {
        HasAckStable(a, a', from, t, index);
      }
    }
  }

  lemma {:induction false} RequestVoteStable(a: P.State, a': P.State, n: NodeId, who: NodeId, from: NodeId, t: nat, index: nat, logTerm: nat)
    requires P.InvTypes(a) && Reaches(a, a', n) && from in a.ids && P.NodeOK(a, from)
    requires RequestVoteOK(a, who, from, t, index, logTerm)
    ensures RequestVoteOK(a', who, from, t, index, logTerm)
  {
  }

  lemma {:induction false} SnapshotStable(a: P.State, a': P.State, n: NodeId, who: NodeId, t: nat, s: Snapshot)
    requires Reaches(a, a', n) && SnapshotOK(a, who, t, s)
    ensures SnapshotOK(a', who, t, s)
  {
    CommitStable(a, a', n, who, t, s.index);
    hide P.CommitOK;
  }

  lemma {:induction false} HeartbeatStable(a: P.State, a': P.State, n: NodeId, who: NodeId, to: NodeId, t: nat, commit: nat)
    requires Reaches(a, a', n) && HeartbeatOK(a, who, to, t, commit)
    ensures HeartbeatOK(a', who, to, t, commit)
  {
    CommitStable(a, a', n, who, t, commit);
    if commit != 0 {
      L.NetAckGrows(a, a', to, t, commit);
    }
    hide P.CommitOK;
  }

  lemma {:induction false} AnnouncedStable(a: P.State, a': P.State, n: NodeId, who: NodeId, from: NodeId, t: nat, i: nat)
    requires Reaches(a, a', n) && Announced(a, who, from, t, i)
    ensures Announced(a', who, from, t, i)
  {
    if who == NONE {
      L.NetAckGrows(a, a', from, t, i);
    } else {
      HasAckStable(a, a', from, t, i);
    }
  }

  /** Valid messages stay valid while a node works. */
  lemma {:induction false} MsgStable(a: P.State, a': P.State, n: NodeId, who: NodeId, m: Message)
    requires P.InvTypes(a) && P.InvNodes(a) && Reaches(a, a', n) && MsgOK(a, who, m)
    ensures MsgOK(a', who, m)
  {
    hide AppendOK, AppendResponseOK, RequestVoteOK, SnapshotOK, HeartbeatOK, Announced, P.InvTypes, P.NodeOK, L.Grows;
    match m {
      case MsgAppend(from, _, t, index, logTerm, ents, commit) =>
        AppendStable(a, a', n, who, t, index, logTerm, ents, commit);
        AnnouncedStable(a, a', n, who, from, t, index + |ents|);
      case MsgAppendResponse(from, _, t, index, reject, _) =>
        AppendResponseStable(a, a', n, who, from, t, index, reject);
      case MsgRequestVote(from, _, t, index, logTerm) =>
        assert P.NodeOK(a, from);
        RequestVoteStable(a, a', n, who, from, t, index, logTerm);
      case MsgRequestVoteResponse(_, _, _, _) =>
      case MsgSnapshot(from, _, t, s) =>
        SnapshotStable(a, a', n, who, t, s);
        AnnouncedStable(a, a', n, who, from, t, 0);
      case MsgHeartbeat(_, to, t, commit) =>
        HeartbeatStable(a, a', n, who, to, t, commit);
      case MsgHeartbeatResponse(_, _, _) =>
      case MsgTransferLeader(_, _, _) =>
      case MsgTimeoutNow(_, _, _) =>
    }
  }

  lemma {:induction false} OutboxStable(a: P.State, a': P.State, n: NodeId, m: NodeId, r: Raft)
    requires P.InvTypes(a) && P.InvNodes(a) && Reaches(a, a', n) && OutboxOK(a, m, r)
    ensures OutboxOK(a', m, r)
  {
    forall x | x in r.msgs
      ensures MsgOK(a', m, x)
    {
      MsgStable(a, a', n, m, x);
    }
  }

  /** Progress stays truthful as long as term and log length do not shrink. */
  lemma {:induction false} ProgressesStable(a: P.State, a': P.State, n: NodeId, r: Raft)
    requires a.net <= a'.net && a.queued <= a'.queued && ProgressesOK(a, n, r)
    ensures ProgressesOK(a', n, r)
  {
    if r.state == StateLeader {
      forall m | m in r.prs
        ensures ProgressOK(a', n, m, r.prs[m], r.term, LastIndex(r.log))
      {
        assert ProgressOK(a, n, m, r.prs[m], r.term, LastIndex(r.log));
        if r.prs[m].Match != 0 {
          CountedStable(a, a', n, m, r.term, r.prs[m].Match);
        }
      }
    }
  }

  /** Other nodes do not notice a step of `n`. */
  lemma {:induction false} OthersStable(a: P.State, a': P.State, n: NodeId, m: NodeId, r: Raft, st: Store)
    requires P.InvTypes(a) && P.InvNodes(a) && Reaches(a, a', n) && m != n && RaftOK(a, m, r, st)
    ensures RaftOK(a', m, r, st)
  {
    OutboxStable(a, a', n, m, r);
    ProgressesStable(a, a', m, r);
  }
}
