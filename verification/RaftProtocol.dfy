/** The replication protocol seen from outside: complete logs, votes and acknowledgements.

    Every node has a volatile state and a durable one. Steps change the volatile state and
    queue packets; `Flush` is the Ready/persist/send/Advance cycle, the only point where state
    becomes durable and packets leave the node; `Crash` goes back to the durable state.

    Three history variables record what the proofs talk about: `tlog[t]` is the log of the
    leader of term t at the latest moment of its reign, `owner[t]` is that leader, and `decided`
    is the longest prefix any node has made durable as committed. */
module RaftProtocol {
  import opened RaftTypes

  datatype Packet =
    | Vote(term: nat, from: NodeId, cand: NodeId)
    | Ack(term: nat, from: NodeId, index: nat)

  datatype Role = Follower | Candidate | Leader

  datatype Hard = Hard(term: nat, vote: NodeId, log: seq<Entry>, commit: nat)

  datatype Vol = Vol(hard: Hard, role: Role)

  datatype State = State(
    ids: set<NodeId>,
    vol: map<NodeId, Vol>,
    dur: map<NodeId, Hard>,
    queued: set<Packet>,
    net: set<Packet>,
    tlog: map<nat, seq<Entry>>,
    owner: map<nat, NodeId>,
    decided: seq<Entry>)

  // ------------------------------------------------------------------ vocabulary

  const NO_HARD: Hard := Hard(0, NONE, [], 0)

  /** The volatile and the durable state of a node, and the log of a term; blank ones where there are none. */
  function VolAt(s: State, n: NodeId): Vol { if n in s.vol then s.vol[n] else Vol(NO_HARD, Follower) }

  function DurAt(s: State, n: NodeId): Hard { if n in s.dur then s.dur[n] else NO_HARD }

  function TlogAt(s: State, t: nat): seq<Entry> { if t in s.tlog then s.tlog[t] else [] }

  ghost predicate InvTypes(s: State) {
    && NONE !in s.ids
    && s.vol.Keys == s.ids
    && s.dur.Keys == s.ids
    && s.tlog.Keys == s.owner.Keys
    && (forall t :: t in s.owner ==> s.owner[t] in s.ids)
    && (forall p :: p in s.net || p in s.queued ==> p.from in s.ids)
  }

  /** The packet has been produced: it is in the network or still queued at its sender. */
  predicate Sent(s: State, p: Packet) {
    p in s.net || p in s.queued
  }

  /** Entries carry their position, and terms are positive, ordered and at most `bound`. */
  predicate Shaped(log: seq<Entry>, bound: nat) {
    && (forall k :: 0 <= k < |log| ==> log[k].index == k + 1 && 1 <= log[k].term <= bound)
    && (forall j, k :: 0 <= j < k < |log| ==> log[j].term <= log[k].term)
  }

  /** Every prefix of the log that ends in an entry of term t is a prefix of the log of term t's leader. */
  predicate Rooted(s: State, log: seq<Entry>) {
    forall k :: 0 <= k < |log| ==> log[k].term in s.tlog && Agree(log, s.tlog[log[k].term], k + 1)
  }

  /** Node `q` told the leader of term `t` that it holds the first `i` entries of that leader's log. */
  ghost predicate HasAck(s: State, q: NodeId, t: nat, i: nat) {
    exists j: nat :: j >= i && Sent(s, Ack(t, q, j))
  }

  ghost predicate NetAck(s: State, q: NodeId, t: nat, i: nat) {
    exists j: nat :: j >= i && Ack(t, q, j) in s.net
  }

  /** Position `i` of term t's log was written by term t's own leader. */
  predicate Own(s: State, t: nat, i: nat) {
    t in s.tlog && 1 <= i <= |s.tlog[t]| && s.tlog[t][i - 1].term == t
  }

  /** `q` has left term `t` for good without acknowledging position `i` of it. */
  ghost predicate Gone(s: State, q: NodeId, t: nat, i: nat) {
    && q in s.vol && q in s.dur
    && (s.dur[q].term > t || (s.ids == {q} && s.vol[q].hard.term > t))
    && !HasAck(s, q, t, i)
  }

  ghost predicate AllGone(s: State, Q: set<NodeId>, t: nat, i: nat) {
    forall q :: q in Q ==> Gone(s, q, t, i)
  }

  /** A majority has left term `t` without acknowledging position `i`: it can never be chosen. */
  ghost predicate Doomed(s: State, t: nat, i: nat) {
    exists Q :: Quorum(s.ids, Q) && AllGone(s, Q, t, i)
  }

  /** `q` counts as holding position `i` of term `t` in the eyes of `who`, which knows its own queue. */
  ghost predicate Counted(s: State, who: NodeId, q: NodeId, t: nat, i: nat) {
    NetAck(s, q, t, i) || (q == who && HasAck(s, q, t, i))
  }

  ghost predicate AllCounted(s: State, who: NodeId, Q: set<NodeId>, t: nat, i: nat) {
    forall q :: q in Q ==> Counted(s, who, q, t, i)
  }

  /** A majority has acknowledged position `i` of term `t`; node `who` may count what it has queued. */
  ghost predicate Chosen(s: State, who: NodeId, t: nat, i: nat) {
    Own(s, t, i) && exists Q :: Quorum(s.ids, Q) && AllCounted(s, who, Q, t, i)
  }

  /** The first `c` entries of `log` are part of a chosen prefix of some term up to `term`. */
  ghost predicate CommitOK(s: State, who: NodeId, term: nat, log: seq<Entry>, c: nat) {
    && c <= |log|
    && (c == 0 ||
        exists t: nat, i: nat :: t <= term && c <= i && Chosen(s, who, t, i) && Agree(log, s.tlog[t], c))
  }

  /** The whole log is part of a chosen prefix. */
  ghost predicate Backed(s: State, log: seq<Entry>) {
    log == [] || exists t: nat, i: nat :: |log| <= i && Chosen(s, NONE, t, i) && Agree(log, s.tlog[t], |log|)
  }

  // ------------------------------------------------------------------ invariants

  /** What holds of the logs and terms of one node. */
  ghost predicate NodeOK(s: State, n: NodeId) {
    && n in s.vol && n in s.dur
    && Shaped(s.vol[n].hard.log, s.vol[n].hard.term)
    && Rooted(s, s.vol[n].hard.log)
    && Shaped(s.dur[n].log, s.dur[n].term)
    && Rooted(s, s.dur[n].log)
    && s.dur[n].term <= s.vol[n].hard.term
    && (s.dur[n].term == s.vol[n].hard.term && s.dur[n].vote != NONE ==> s.vol[n].hard.vote == s.dur[n].vote)
    && (s.vol[n].role != Follower ==> s.vol[n].hard.vote == n && s.vol[n].hard.term >= 1)
    && (s.vol[n].role == Leader ==>
          && s.vol[n].hard.term in s.tlog && s.vol[n].hard.term in s.owner
          && s.owner[s.vol[n].hard.term] == n
          && s.vol[n].hard.log == s.tlog[s.vol[n].hard.term])
    && (s.vol[n].role == Candidate ==>
          && Shaped(s.vol[n].hard.log, s.vol[n].hard.term - 1)
          && (s.vol[n].hard.term in s.owner ==> s.owner[s.vol[n].hard.term] != n))
  }

  ghost predicate InvNodes(s: State) {
    forall n :: n in s.ids ==> NodeOK(s, n)
  }

  /** The leader of term `t` was elected by a majority whose votes are in the network. */
  ghost predicate ElectedBy(s: State, t: nat, o: NodeId) {
    exists Q :: Quorum(s.ids, Q) && AllVoted(s, Q, t, o)
  }

  ghost predicate AllVoted(s: State, Q: set<NodeId>, t: nat, o: NodeId) {
    forall v :: v in Q ==> Vote(t, v, o) in s.net || s.ids == {v}
  }

  /** What holds of one term that had a leader. */
  ghost predicate TermOK(s: State, t: nat) {
    && t in s.tlog && t in s.owner && s.owner[t] in s.vol && s.owner[t] in s.dur
    && Shaped(s.tlog[t], t)
    && Rooted(s, s.tlog[t])
    && ElectedBy(s, t, s.owner[t])
    && s.vol[s.owner[t]].hard.term >= t
    && (s.dur[s.owner[t]].term >= t || s.ids == {s.owner[t]})
  }

  ghost predicate InvTerms(s: State) {
    forall t :: t in s.tlog ==> TermOK(s, t)
  }

  /** What holds of one vote. */
  ghost predicate VoteOK(s: State, p: Packet) {
    && p.Vote?
    && p.from in s.vol && p.from in s.dur && p.cand in s.vol && p.cand in s.dur
    && (s.vol[p.from].hard.term > p.term || (s.vol[p.from].hard.term == p.term && s.vol[p.from].hard.vote == p.cand))
    && (p in s.net ==>
          s.dur[p.from].term > p.term || (s.dur[p.from].term == p.term && s.dur[p.from].vote == p.cand))
    && (p.from != p.cand ==> s.dur[p.cand].term >= p.term)
    && (p in s.queued && p.from == p.cand ==> s.dur[p.from].term < p.term)
  }

  ghost predicate InvVotes(s: State) {
    forall p :: Sent(s, p) && p.Vote? ==> VoteOK(s, p)
  }

  /** Nobody votes for two candidates in one term. */
  ghost predicate InvUnique(s: State) {
    forall t, v, c, d :: Sent(s, Vote(t, v, c)) && Sent(s, Vote(t, v, d)) ==> c == d
  }

  /** What holds of one acknowledgement. */
  ghost predicate AckOK(s: State, p: Packet) {
    && p.Ack?
    && p.from in s.vol && p.from in s.dur
    && p.term in s.tlog
    && p.index <= |s.tlog[p.term]|
    && p.term <= s.vol[p.from].hard.term
    && (p.term == s.vol[p.from].hard.term ==> Agree(s.vol[p.from].hard.log, s.tlog[p.term], p.index))
    && (p in s.net ==> p.term <= s.dur[p.from].term)
    && (p in s.net && p.term == s.dur[p.from].term ==> Agree(s.dur[p.from].log, s.tlog[p.term], p.index))
    && (p in s.queued ==> s.dur[p.from].term <= p.term)
  }

  ghost predicate InvAcks(s: State) {
    forall p :: Sent(s, p) && p.Ack? ==> AckOK(s, p)
  }

  /** The log still holds the first `i` entries of term `t`, or position `i` is doomed. */
  ghost predicate HoldsOr(s: State, t: nat, i: nat, log: seq<Entry>) {
    Own(s, t, i) ==> Agree(log, s.tlog[t], i) || Doomed(s, t, i)
  }

  /** The log holds everything that acknowledgement `p` promised and that is not doomed: what the leader of
      its term wrote, and what that leader took over from earlier terms. */
  ghost predicate Keeps(s: State, p: Packet, log: seq<Entry>) {
    && p.Ack?
    && forall t: nat, i: nat :: t <= p.term && i <= p.index ==> HoldsOr(s, t, i, log)
  }

  /** Nobody has led a term after `t`. */
  predicate Latest(s: State, t: nat) {
    forall u :: u in s.tlog ==> u <= t
  }

  /** The log of a node that sent acknowledgement `p` still agrees, up to the acknowledged index, with every
      prefix of an earlier or equal term that is not doomed; before a later leader appears it agrees with
      the log of the term itself. */
  ghost predicate HeldUpTo(s: State, p: Packet, log: seq<Entry>) {
    && p.Ack?
    && (s.ids != {p.from} && p.term in s.tlog && Latest(s, p.term) ==> Agree(log, s.tlog[p.term], p.index))
    && (forall t: nat, i: nat :: t <= p.term && Own(s, t, i) ==> Agree(log, s.tlog[t], Min(i, p.index)) || Doomed(s, t, i))
  }

  ghost predicate InvKept(s: State) {
    forall p :: Sent(s, p) && p.Ack? ==>
      && p.from in s.vol && p.from in s.dur
      && HeldUpTo(s, p, s.vol[p.from].hard.log)
      && (p in s.net ==> HeldUpTo(s, p, s.dur[p.from].log))
  }

  ghost predicate Running(s: State, c: NodeId, t: nat) {
    c in s.vol && s.vol[c].role == Candidate && s.vol[c].hard.term == t
  }

  /** A node votes only for candidates that hold everything the voter has acknowledged. */
  ghost predicate InvBallots(s: State) {
    forall v, p :: Sent(s, v) && Sent(s, p) && v.Vote? && p.Ack? && p.from == v.from && p.term < v.term
                   && Running(s, v.cand, v.term) ==>
      Keeps(s, p, s.vol[v.cand].hard.log)
  }

  /** Leader completeness in inductive form: later leaders hold every own entry that is not doomed. */
  ghost predicate InvLeaders(s: State) {
    forall t: nat, i: nat, u: nat :: t < u && u in s.tlog ==> HoldsOr(s, t, i, s.tlog[u])
  }

  ghost predicate NodeCommitOK(s: State, n: NodeId) {
    && n in s.vol && n in s.dur
    && CommitOK(s, n, s.vol[n].hard.term, s.vol[n].hard.log, s.vol[n].hard.commit)
    && CommitOK(s, NONE, s.dur[n].term, s.dur[n].log, s.dur[n].commit)
    && Agree(s.dur[n].log, s.decided, s.dur[n].commit)
  }

  ghost predicate InvCommit(s: State) {
    && (forall n :: n in s.ids ==> NodeCommitOK(s, n))
    && Backed(s, s.decided)
  }

  /** Position `i` of term t's log is older than the reign. */
  predicate Inherited(s: State, t: nat, i: nat) {
    t in s.tlog && 1 <= i <= |s.tlog[t]| && s.tlog[t][i - 1].term < t
  }

  /** A leader acknowledges its own log, at least what its reign began with. Nobody else acknowledges a
      position the leader has not made durable. */
  ghost predicate LedAck(s: State, p: Packet) {
    && p.Ack?
    && p.term in s.tlog && p.term in s.owner
    && (if p.from == s.owner[p.term] then forall i: nat :: Inherited(s, p.term, i) ==> i <= p.index
        else NetAck(s, s.owner[p.term], p.term, p.index))
  }

  /** A leader has acknowledged its whole log, and unless it is alone a node commits only what everybody can
      count. */
  ghost predicate LedNode(s: State, n: NodeId) {
    && n in s.vol
    && (s.vol[n].role == Leader ==> HasAck(s, n, s.vol[n].hard.term, |s.vol[n].hard.log|))
    && (s.ids != {n} ==> CommitOK(s, NONE, s.vol[n].hard.term, s.vol[n].hard.log, s.vol[n].hard.commit))
  }

  ghost predicate InvLed(s: State) {
    && (forall n :: n in s.ids ==> LedNode(s, n))
    && (forall p :: Sent(s, p) && p.Ack? ==> LedAck(s, p))
  }

  ghost predicate Inv(s: State) {
    && InvTypes(s)
    && InvNodes(s)
    && InvTerms(s)
    && InvVotes(s)
    && InvUnique(s)
    && InvAcks(s)
    && InvKept(s)
    && InvBallots(s)
    && InvLeaders(s)
    && InvCommit(s)
    && InvLed(s)
  }

  // ------------------------------------------------------------------ actions

  function Init(ids: set<NodeId>): State {
    var h := Hard(0, NONE, [], 0);
    State(ids, map n | n in ids :: Vol(h, Follower), map n | n in ids :: h, {}, {}, map[], map[], [])
  }

  /** Move to term `t` (a new one forgets the vote) as a follower. */
  function Bump(s: State, n: NodeId, t: nat): State {
    if n !in s.vol then s
    else
      var h := s.vol[n].hard;
      var h' := if t > h.term then Hard(t, NONE, h.log, h.commit) else h;
      s.(vol := s.vol[n := Vol(h', Follower)])
  }

  /** Start an election in the next term, voting for oneself. */
  function Campaign(s: State, n: NodeId): State {
    if n !in s.vol then s
    else
      var h := s.vol[n].hard;
      s.(vol := s.vol[n := Vol(Hard(h.term + 1, n, h.log, h.commit), Candidate)],
         queued := s.queued + {Vote(h.term + 1, n, n)})
  }

  /** Vote for `c` in the current term. */
  function Grant(s: State, n: NodeId, c: NodeId): State {
    if n !in s.vol then s
    else
      var v := s.vol[n];
      s.(vol := s.vol[n := v.(hard := v.hard.(vote := c))],
         queued := s.queued + {Vote(v.hard.term, n, c)})
  }

  ghost predicate CanGrant(s: State, n: NodeId, c: NodeId) {
    && n in s.vol && c in s.vol && c in s.dur
    && c in s.ids && c != n
    && (s.vol[n].hard.vote == NONE || s.vol[n].hard.vote == c)
    && s.dur[c].term >= s.vol[n].hard.term
    && (Running(s, c, s.vol[n].hard.term) ==>
          var log := s.vol[c].hard.log;
          UpToDate(|log|, TermAt(log, |log|), s.vol[n].hard.log))
  }

  /** Turn a candidate with a majority of votes into the leader of its term. */
  function Elect(s: State, n: NodeId): State {
    if n !in s.vol then s
    else
      var h := s.vol[n].hard;
      s.(vol := s.vol[n := Vol(h, Leader)],
         queued := s.queued + {Ack(h.term, n, |h.log|)},
         tlog := s.tlog[h.term := h.log],
         owner := s.owner[h.term := n])
  }

  ghost predicate CanElect(s: State, n: NodeId, Q: set<NodeId>) {
    && n in s.vol
    && s.vol[n].role == Candidate
    && Quorum(s.ids, Q)
    && forall v :: v in Q ==>
         Vote(s.vol[n].hard.term, v, n) in s.net || (v == n && Vote(s.vol[n].hard.term, v, n) in s.queued)
  }

  /** A leader appends entries of its own term. */
  function Extend(s: State, n: NodeId, ents: seq<Entry>): State {
    if n !in s.vol then s
    else
      var v := s.vol[n];
      var log := v.hard.log + ents;
      s.(vol := s.vol[n := v.(hard := v.hard.(log := log))],
         queued := s.queued + {Ack(v.hard.term, n, |log|)},
         tlog := s.tlog[v.hard.term := log])
  }

  ghost predicate CanExtend(s: State, n: NodeId, ents: seq<Entry>) {
    && n in s.vol
    && s.vol[n].role == Leader
    && forall k :: 0 <= k < |ents| ==>
         ents[k].term == s.vol[n].hard.term && ents[k].index == |s.vol[n].hard.log| + k + 1
  }

  /** The follower's log after taking over the first `hi` entries of the leader's log. */
  function AdoptLog(log: seq<Entry>, leaderLog: seq<Entry>, hi: nat): (r: seq<Entry>)
    requires hi <= |leaderLog|
    ensures Agree(r, leaderLog, hi)
  {
    if Agree(log, leaderLog, hi) then log else leaderLog[..hi]
  }

  /** A follower makes its log agree with the leader's first `hi` entries and acknowledges them. */
  function Adopt(s: State, n: NodeId, hi: nat): State
    requires n in s.vol && s.vol[n].hard.term in s.tlog && hi <= |s.tlog[s.vol[n].hard.term]|
  {
    var h := s.vol[n].hard;
    s.(vol := s.vol[n := Vol(h.(log := AdoptLog(h.log, s.tlog[h.term], hi)), Follower)],
       queued := s.queued + {Ack(h.term, n, hi)})
  }

  /** Raise the commit index. */
  function Commit(s: State, n: NodeId, c: nat): State {
    if n !in s.vol then s
    else
      s.(vol := s.vol[n := s.vol[n].(hard := s.vol[n].hard.(commit := c))])
  }

  /** Persist the volatile state, then send what is queued. */
  function Flush(s: State, n: NodeId): State {
    if n !in s.vol then s
    else
      var h := s.vol[n].hard;
      s.(dur := s.dur[n := h],
         queued := (set p | p in s.queued && p.from != n),
         net := s.net + (set p | p in s.queued && p.from == n),
         decided := if |s.decided| < h.commit <= |h.log| then h.log[..h.commit] else s.decided)
  }

  /** Restart from the durable state. Only in a one-node cluster can a reign have begun that was
      never made durable; it leaves no trace. */
  function Crash(s: State, n: NodeId): State {
    if n !in s.dur then s
    else
      var h := s.dur[n];
      s.(vol := s.vol[n := Vol(h, Follower)],
         queued := (set p | p in s.queued && p.from != n),
         tlog := if s.ids == {n} then map t | t in s.tlog && t <= h.term :: s.tlog[t] else s.tlog,
         owner := if s.ids == {n} then map t | t in s.owner && t <= h.term :: s.owner[t] else s.owner)
  }
}
