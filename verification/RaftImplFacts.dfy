/** Facts about loops over maps and queues that the methods of Raft rest on. */
module RaftImplFacts {
  import opened RaftTypes
  import opened RaftStore
  import opened RaftNodeSpec
  import L = RaftLogSpec

  ghost function SetOf(ms: seq<Message>): set<Message> {
    set m | m in ms
  }

  lemma {:induction false} SetOfSnoc(ms: seq<Message>, m: Message)
    ensures SetOf(ms + [m]) == SetOf(ms) + {m}
  {
  }

  /** The message with another sender, receiver and term. */
  function Envelope(m: Message, f: NodeId, t: NodeId, n: nat): Message {
    match m
    case MsgHup(_, _, _) => MsgHup(f, t, n)
    case MsgBeat(_, _, _) => MsgBeat(f, t, n)
    case MsgPropose(_, _, _, ents) => MsgPropose(f, t, n, ents)
    case MsgAppend(_, _, _, index, logTerm, ents, commit) => MsgAppend(f, t, n, index, logTerm, ents, commit)
    case MsgAppendResponse(_, _, _, index, reject, hint) => MsgAppendResponse(f, t, n, index, reject, hint)
    case MsgRequestVote(_, _, _, index, logTerm) => MsgRequestVote(f, t, n, index, logTerm)
    case MsgRequestVoteResponse(_, _, _, reject) => MsgRequestVoteResponse(f, t, n, reject)
    case MsgSnapshot(_, _, _, snapshot) => MsgSnapshot(f, t, n, snapshot)
    case MsgHeartbeat(_, _, _, commit) => MsgHeartbeat(f, t, n, commit)
    case MsgHeartbeatResponse(_, _, _) => MsgHeartbeatResponse(f, t, n)
    case MsgTransferLeader(_, _, _) => MsgTransferLeader(f, t, n)
    case MsgTimeoutNow(_, _, _) => MsgTimeoutNow(f, t, n)
  }

  /** The message as send puts it into the queue. */
  function Stamped(m: Message, id: NodeId, term: nat): Message {
    Envelope(m, id, m.to, if m.MsgRequestVote? || m.MsgRequestVoteResponse? || m.MsgPropose? then m.term else term)
  }

  // ------------------------------------------------------------------ broadcasts

  ghost function AppendMessages(r: Raft, st: Store, ids: set<NodeId>): set<Message> {
    set x | x in ids && x in r.prs && x != r.id && AppendMessage(r, st, x).Done? :: AppendMessage(r, st, x).value
  }

  lemma {:induction false} AppendMessagesNone(r: Raft, st: Store)
    ensures AppendMessages(r, st, r.prs.Keys - r.prs.Keys) == {}
  {
  }

  lemma {:induction false} AppendMessagesMore(r: Raft, st: Store, ids: set<NodeId>, x: NodeId)
    requires x in r.prs
    ensures AppendMessages(r, st, ids + {x}) ==
              AppendMessages(r, st, ids) + (if x != r.id && AppendMessage(r, st, x).Done? then {AppendMessage(r, st, x).value} else {})
  {
    hide AppendMessage;
  }

  lemma {:induction false} AppendMessagesAll(r: Raft, st: Store)
    requires forall x :: x in r.prs && x != r.id ==> AppendMessage(r, st, x).Done?
    ensures BcastAppend(r, st) == Done(r.(msgs := r.msgs + AppendMessages(r, st, r.prs.Keys)))
  {
    hide AppendMessage;
    assert (set id | id in r.prs && id != r.id :: AppendMessage(r, st, id).value) == AppendMessages(r, st, r.prs.Keys);
  }

  /** What is sent does not depend on what is queued. */
  lemma {:induction false} AppendMessageSame(r: Raft, ms: set<Message>, st: Store, x: NodeId)
    ensures AppendMessage(r.(msgs := ms), st, x) == AppendMessage(r, st, x)
  {
  }

  ghost function Heartbeats(r: Raft, ids: set<NodeId>): set<Message> {
    set x | x in ids && x in r.prs && x != r.id :: HeartbeatMessage(r, x)
  }

  lemma {:induction false} HeartbeatsNone(r: Raft)
    ensures Heartbeats(r, r.prs.Keys - r.prs.Keys) == {}
  {
  }

  lemma {:induction false} HeartbeatsMore(r: Raft, ids: set<NodeId>, x: NodeId)
    requires x in r.prs
    ensures Heartbeats(r, ids + {x}) == Heartbeats(r, ids) + (if x != r.id then {HeartbeatMessage(r, x)} else {})
  {
    hide HeartbeatMessage;
  }

  lemma {:induction false} HeartbeatsAll(r: Raft)
    ensures BcastHeartbeat(r) == r.(msgs := r.msgs + Heartbeats(r, r.prs.Keys))
  {
    hide HeartbeatMessage;
    assert (set id | id in r.prs && id != r.id :: HeartbeatMessage(r, id)) == Heartbeats(r, r.prs.Keys);
  }

  ghost function VoteRequests(r: Raft, ids: set<NodeId>, lastTerm: nat): set<Message> {
    set x | x in ids && x in r.prs && x != r.id :: MsgRequestVote(r.id, x, r.term, L.LastIndex(r.log), lastTerm)
  }

  lemma {:induction false} VoteRequestsNone(r: Raft, lastTerm: nat)
    ensures VoteRequests(r, r.prs.Keys - r.prs.Keys, lastTerm) == {}
  {
  }

  lemma {:induction false} VoteRequestsMore(r: Raft, ids: set<NodeId>, x: NodeId, lastTerm: nat)
    requires x in r.prs
    ensures VoteRequests(r, ids + {x}, lastTerm) == VoteRequests(r, ids, lastTerm) +
              (if x != r.id then {MsgRequestVote(r.id, x, r.term, L.LastIndex(r.log), lastTerm)} else {})
  {
  }

  lemma {:induction false} CandidateTerm(r: Raft)
    ensures BecomeCandidate(r).term == r.term + 1
  {
  }

  lemma {:induction false} VoteRequestsAll(r: Raft, lastTerm: nat)
    ensures (set id | id in r.prs && id != r.id :: MsgRequestVote(r.id, id, r.term, L.LastIndex(r.log), lastTerm)) ==
              VoteRequests(r, r.prs.Keys, lastTerm)
    ensures (forall id :: id in r.prs ==> id == r.id) ==> VoteRequests(r, r.prs.Keys, lastTerm) == {}
  {
  }

  // ------------------------------------------------------------------ counting votes

  ghost function GrantorsIn(votes: map<NodeId, bool>, ids: set<NodeId>): set<NodeId> {
    set x | x in ids && x in votes && votes[x]
  }

  lemma {:induction false} GrantorsInNone(votes: map<NodeId, bool>)
    ensures |GrantorsIn(votes, votes.Keys - votes.Keys)| == 0
  {
    assert GrantorsIn(votes, votes.Keys - votes.Keys) == {};
  }

  lemma {:induction false} GrantorsInMore(votes: map<NodeId, bool>, ids: set<NodeId>, x: NodeId)
    requires x in votes && x !in ids
    ensures |GrantorsIn(votes, ids + {x})| == |GrantorsIn(votes, ids)| + (if votes[x] then 1 else 0)
  {
    assert GrantorsIn(votes, ids + {x}) == GrantorsIn(votes, ids) + (if votes[x] then {x} else {});
  }

  // ------------------------------------------------------------------ sorting Match indexes

  /** How many elements are at least `x`. */
  ghost function CountFrom(s: seq<nat>, x: nat): nat {
    if s == [] then 0 else CountFrom(s[..|s| - 1], x) + (if s[|s| - 1] >= x then 1 else 0)
  }

  lemma {:induction false} CountSnoc(s: seq<nat>, y: nat, x: nat)
    ensures CountFrom(s + [y], x) == CountFrom(s, x) + (if y >= x then 1 else 0)
  {
    assert (s + [y])[..|s|] == s;
  }

  lemma {:induction false} CountConcat(s: seq<nat>, t: seq<nat>, x: nat)
    ensures CountFrom(s + t, x) == CountFrom(s, x) + CountFrom(t, x)
    decreases |t|
  {
    if t == [] {
      assert s + t == s;
    } else {
      var t' := t[..|t| - 1];
      assert (s + t)[..|s + t| - 1] == s + t';
      CountConcat(s, t', x);
    }
  }

  ghost function Reached(prs: map<NodeId, Progress>, ids: set<NodeId>, x: nat): set<NodeId> {
    set id | id in ids && id in prs && prs[id].Match >= x
  }

  lemma {:induction false} ReachedNone(prs: map<NodeId, Progress>)
    ensures forall x: nat :: CountFrom([], x) == |Reached(prs, prs.Keys - prs.Keys, x)|
  {
    forall x: nat
      ensures CountFrom([], x) == |Reached(prs, prs.Keys - prs.Keys, x)|
    {
      assert Reached(prs, prs.Keys - prs.Keys, x) == {};
    }
  }

  lemma {:induction false} MatchAdded(prs: map<NodeId, Progress>, ids: set<NodeId>, p: NodeId, s: seq<nat>)
    requires p in prs && p !in ids
    requires forall x: nat :: CountFrom(s, x) == |Reached(prs, ids, x)|
    ensures forall x: nat :: CountFrom(s + [prs[p].Match], x) == |Reached(prs, ids + {p}, x)|
  {
    forall x: nat
      ensures CountFrom(s + [prs[p].Match], x) == |Reached(prs, ids + {p}, x)|
    {
      CountSnoc(s, prs[p].Match, x);
      assert Reached(prs, ids + {p}, x) == Reached(prs, ids, x) + (if prs[p].Match >= x then {p} else {});
    }
  }

  predicate Sorted(s: seq<nat>) {
    forall i, j :: 0 <= i < j < |s| ==> s[i] <= s[j]
  }

  /** Insertion sort, in the place of the library's sort. */
  method Sort(s: seq<nat>) returns (r: seq<nat>)
    ensures Sorted(r) && |r| == |s| && multiset(r) == multiset(s)
    ensures forall x: nat :: CountFrom(r, x) == CountFrom(s, x)
  {
    r := [];
    var i := 0;
    while i < |s|
      invariant 0 <= i <= |s| && |r| == i && Sorted(r) && multiset(r) == multiset(s[..i])
      invariant forall x: nat :: CountFrom(r, x) == CountFrom(s[..i], x)
    {
      assert s[..i + 1] == s[..i] + [s[i]];
      forall x: nat
        ensures CountFrom(s[..i + 1], x) == CountFrom(s[..i], x) + (if s[i] >= x then 1 else 0)
      {
        CountSnoc(s[..i], s[i], x);
      }
      r := Insert(r, s[i]);
      i := i + 1;
    }
    assert s[..i] == s;
  }

  method Insert(s: seq<nat>, y: nat) returns (r: seq<nat>)
    requires Sorted(s)
    ensures Sorted(r) && |r| == |s| + 1 && multiset(r) == multiset(s) + multiset{y}
    ensures forall x: nat :: CountFrom(r, x) == CountFrom(s, x) + (if y >= x then 1 else 0)
  {
    hide CountFrom, Sorted;
    var k := 0;
    while k < |s| && s[k] <= y
      invariant 0 <= k <= |s|
      invariant forall j :: 0 <= j < k ==> s[j] <= y
    {
      k := k + 1;
    }
    r := s[..k] + [y] + s[k..];
    InsertedSorted(s, k, y);
    InsertedSame(s, k, y);
    forall x: nat
      ensures CountFrom(r, x) == CountFrom(s, x) + (if y >= x then 1 else 0)
    {
      InsertedCount(s, k, y, x);
    }
  }

  lemma {:induction false} InsertedSorted(s: seq<nat>, k: nat, y: nat)
    requires Sorted(s) && k <= |s| && (forall j :: 0 <= j < k ==> s[j] <= y) && (k < |s| ==> y <= s[k])
    ensures Sorted(s[..k] + [y] + s[k..])
  {
  }

  lemma {:induction false} InsertedSame(s: seq<nat>, k: nat, y: nat)
    requires k <= |s|
    ensures multiset(s[..k] + [y] + s[k..]) == multiset(s) + multiset{y}
  {
    assert s == s[..k] + s[k..];
  }

  lemma {:induction false} InsertedCount(s: seq<nat>, k: nat, y: nat, x: nat)
    requires k <= |s|
    ensures CountFrom(s[..k] + [y] + s[k..], x) == CountFrom(s, x) + (if y >= x then 1 else 0)
  {
    assert s == s[..k] + s[k..];
    CountConcat(s[..k], s[k..], x);
    CountSnoc(s[..k], y, x);
    CountConcat(s[..k] + [y], s[k..], x);
  }

  lemma {:induction false} CountAll(s: seq<nat>, x: nat)
    requires forall k :: 0 <= k < |s| ==> s[k] >= x
    ensures CountFrom(s, x) == |s|
    decreases |s|
  {
    if s != [] {
      CountAll(s[..|s| - 1], x);
    }
  }

  lemma {:induction false} CountNone(s: seq<nat>, x: nat)
    requires forall k :: 0 <= k < |s| ==> s[k] < x
    ensures CountFrom(s, x) == 0
    decreases |s|
  {
    if s != [] {
      CountNone(s[..|s| - 1], x);
    }
  }

  lemma {:induction false} CountBound(s: seq<nat>, x: nat)
    ensures CountFrom(s, x) <= |s|
    decreases |s|
  {
    if s != [] {
      CountBound(s[..|s| - 1], x);
    }
  }

  lemma {:induction false} SortedRank(sorted: seq<nat>, q: nat)
    requires Sorted(sorted) && 1 <= q <= |sorted|
    ensures CountFrom(sorted, sorted[|sorted| - q]) >= q
    ensures CountFrom(sorted, sorted[|sorted| - q] + 1) < q
  {
    hide CountFrom;
    var p := |sorted| - q;
    var x := sorted[p];
    SplitCount(sorted, p, x);
    CountAll(sorted[p..], x);
    SplitCount(sorted, p + 1, x + 1);
    CountNone(sorted[..p + 1], x + 1);
    CountBound(sorted[p + 1..], x + 1);
  }

  lemma {:induction false} SplitCount(s: seq<nat>, p: nat, x: nat)
    requires p <= |s|
    ensures CountFrom(s, x) == CountFrom(s[..p], x) + CountFrom(s[p..], x)
  {
    assert s == s[..p] + s[p..];
    CountConcat(s[..p], s[p..], x);
  }

  /** Position len - quorum of the sorted Match indexes is the largest index a majority has reached. */
  lemma {:induction false} QuorumMatchSorted(prs: map<NodeId, Progress>, matches: seq<nat>, sorted: seq<nat>)
    requires |prs| > 0 && Sorted(sorted) && |sorted| == |matches| == |prs|
    requires forall x: nat :: CountFrom(sorted, x) == CountFrom(matches, x)
    requires forall x: nat :: CountFrom(matches, x) == |Reached(prs, prs.Keys, x)|
    ensures sorted[|sorted| - (|prs| / 2 + 1)] == QuorumMatch(prs)
  {
    hide Sorted, CountFrom, QuorumMatch;
    var q := |prs| / 2 + 1;
    var x := sorted[|sorted| - q];
    SortedRank(sorted, q);
    assert Reached(prs, prs.Keys, x) == AtLeast(prs, x);
    assert Reached(prs, prs.Keys, x + 1) == AtLeast(prs, x + 1);
    assert IsQuorumMatch(prs, x);
    QuorumMatchUnique(prs, x, QuorumMatch(prs));
  }

  lemma {:induction false} QuorumMatchUnique(prs: map<NodeId, Progress>, x: nat, y: nat)
    requires IsQuorumMatch(prs, x) && IsQuorumMatch(prs, y)
    ensures x == y
  {
    if x < y {
      SubsetSize(AtLeast(prs, y), AtLeast(prs, x + 1));
    } else if y < x {
      SubsetSize(AtLeast(prs, x), AtLeast(prs, y + 1));
    }
  }

  // ------------------------------------------------------------------ progress maps

  /** The progress every member gets when a term starts or a snapshot is restored. */
  predicate Fresh(prs: map<NodeId, Progress>, ids: set<NodeId>, id: NodeId, last: nat) {
    prs.Keys == ids && forall x :: x in prs ==> prs[x] == Progress(if x == id then last else 0, last + 1)
  }

  lemma {:induction false} ResetIs(r: Raft, term: nat, prs: map<NodeId, Progress>)
    requires Fresh(prs, r.prs.Keys, r.id, L.LastIndex(r.log))
    ensures Reset(r, term) == r.(term := term, vote := if r.term != term then NONE else r.vote, lead := NONE,
                                 leadTransferee := NONE, votes := map[], prs := prs, pendingConfIndex := 0)
  {
    assert Reset(r, term).prs == prs;
  }

  lemma {:induction false} RestoreIs(r: Raft, s: Snapshot, prs: map<NodeId, Progress>)
    requires r.log.committed < s.index && !L.MatchTerm(r.log, s.index, s.term)
    requires Fresh(prs, s.nodes, r.id, L.LastIndex(L.Restore(r.log, s)))
    ensures RestoreSnapshot(r, s) == Done((r.(log := L.Restore(r.log, s), prs := prs), true))
  {
    assert RestoreSnapshot(r, s).value.0.prs == prs;
  }

  /** newRaft once the log is built and the hard state loaded. */
  lemma {:induction false} NewRaftIs(id: NodeId, peers: set<NodeId>, applied: nat, st: Store, nodes: set<NodeId>, prs: map<NodeId, Progress>, l: L.Log)
    requires st.ents != [] && id != NONE && (st.snapshot.nodes == {} || peers == {})
    requires nodes == if st.snapshot.nodes != {} then st.snapshot.nodes else peers
    requires prs.Keys == nodes && forall x :: x in prs ==> prs[x] == Progress(0, 1)
    requires L.NewLog(st).Done?
    requires var hs, l0 := st.hardState, L.NewLog(st).value;
             && (hs == EMPTY_HARD_STATE || l0.committed <= hs.commit <= L.LastIndex(l0))
             && L.AppliedTo(if hs != EMPTY_HARD_STATE then l0.(committed := hs.commit) else l0, applied) == Done(l)
    ensures NewRaft(id, peers, applied, st) ==
              Done(BecomeFollower(Raft(id, st.hardState.term, st.hardState.vote, l, prs, StateFollower, map[], {}, NONE, NONE, 0),
                                  st.hardState.term, NONE))
  {
    hide L.NewLog, BecomeFollower, L.AppliedTo;
    assert StartProgress(nodes) == prs;
  }
}
