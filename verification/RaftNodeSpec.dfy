/** The behaviour of one node as functions on values: Raft.Step and everything it calls, branch by branch.

    Timers are left out: MsgHup and MsgBeat may arrive at any time. Outgoing messages form a set,
    since the code broadcasts in map order. */
module RaftNodeSpec {
  import opened RaftTypes
  import opened RaftStore
  import opened RaftLogSpec

  datatype Message =
    | MsgHup(from: NodeId, to: NodeId, term: nat)
    | MsgBeat(from: NodeId, to: NodeId, term: nat)
    | MsgPropose(from: NodeId, to: NodeId, term: nat, ents: seq<Entry>)
    | MsgAppend(from: NodeId, to: NodeId, term: nat, index: nat, logTerm: nat, ents: seq<Entry>, commit: nat)
    | MsgAppendResponse(from: NodeId, to: NodeId, term: nat, index: nat, reject: bool, rejectHint: nat)
    | MsgRequestVote(from: NodeId, to: NodeId, term: nat, index: nat, logTerm: nat)
    | MsgRequestVoteResponse(from: NodeId, to: NodeId, term: nat, reject: bool)
    | MsgSnapshot(from: NodeId, to: NodeId, term: nat, snapshot: Snapshot)
    | MsgHeartbeat(from: NodeId, to: NodeId, term: nat, commit: nat)
    | MsgHeartbeatResponse(from: NodeId, to: NodeId, term: nat)
    | MsgTransferLeader(from: NodeId, to: NodeId, term: nat)
    | MsgTimeoutNow(from: NodeId, to: NodeId, term: nat)

  datatype StateType = StateFollower | StateCandidate | StateLeader

  datatype Progress = Progress(Match: nat, Next: nat)

  datatype Raft = Raft(
    id: NodeId,
    term: nat,
    vote: NodeId,
    log: Log,
    prs: map<NodeId, Progress>,
    state: StateType,
    votes: map<NodeId, bool>,
    msgs: set<Message>,
    lead: NodeId,
    leadTransferee: NodeId,
    pendingConfIndex: nat)

  /** Result of a step; `dropped` is the ErrProposalDropped return. */
  datatype Stepped = Stepped(raft: Raft, dropped: bool)

  /** The node after an operation; one that exits fatally leaves it as it was. */
  function After(o: Outcome<Raft>, r: Raft): Raft { if o.Done? then o.value else r }

  predicate Went(o: Outcome<Stepped>) { o.Done? && !o.value.dropped }

  function AfterStep(o: Outcome<Stepped>, r: Raft): Raft { if o.Done? then o.value.raft else r }

  function PrAt(r: Raft, n: NodeId): Progress { if n in r.prs then r.prs[n] else Progress(0, 0) }

  function QuorumSize(r: Raft): nat { |r.prs| / 2 + 1 }

  function Send(r: Raft, m: Message): Raft { r.(msgs := r.msgs + {m}) }

  // ------------------------------------------------------------------ progress

  function MaybeUpdate(pr: Progress, n: nat): Progress {
    Progress(if pr.Match < n then n else pr.Match, if pr.Next < n + 1 then n + 1 else pr.Next)
  }

  function MaybeDecrTo(pr: Progress, rejected: nat, last: nat): (Progress, bool) {
    if rejected <= pr.Match then (pr, false)
    else
      var next := Min(rejected, last + 1);
      (pr.(Next := if next < 1 then 1 else next), true)
  }

  /** Match < Next is not an invariant: a rejection keeps it exactly if it is stale or its hint is not below
      Match; a delayed rejection with an old hint breaks it. */
  lemma {:induction false} RejectionKeepsOrder(pr: Progress, rejected: nat, last: nat)
    requires pr.Match < pr.Next
    ensures var pr' := MaybeDecrTo(pr, rejected, last).0;
            pr'.Match < pr'.Next <==> rejected <= pr.Match || pr.Match <= last
    ensures var pr' := MaybeDecrTo(Progress(5, 8), 7, 0).0; pr'.Next == 1 && pr'.Match == 5
  {
  }

  function AtLeast(prs: map<NodeId, Progress>, x: nat): set<NodeId> {
    set id | id in prs && prs[id].Match >= x
  }

  /** `x` is the value a sorted array of Match indexes has at position len - quorum. */
  predicate IsQuorumMatch(prs: map<NodeId, Progress>, x: nat) {
    && |AtLeast(prs, x)| >= |prs| / 2 + 1
    && |AtLeast(prs, x + 1)| < |prs| / 2 + 1
  }

  lemma {:induction false} QuorumMatchExists(prs: map<NodeId, Progress>) returns (x: nat)
    requires |prs| > 0
    ensures IsQuorumMatch(prs, x)
  {
    x := 0;
    assert AtLeast(prs, 0) == prs.Keys;
    var top := MatchBound(prs, prs.Keys);
    assert AtLeast(prs, top + 1) == {};
    while |AtLeast(prs, x + 1)| >= |prs| / 2 + 1
      invariant |AtLeast(prs, x)| >= |prs| / 2 + 1
      invariant x <= top
      decreases top - x
    {
      x := x + 1;
    }
  }

  lemma {:induction false} MatchBound(prs: map<NodeId, Progress>, ids: set<NodeId>) returns (top: nat)
    requires ids <= prs.Keys
    ensures forall id :: id in ids ==> prs[id].Match <= top
    decreases |ids|
  {
    top := 0;
    if ids != {} {
      var id :| id in ids;
      var rest := MatchBound(prs, ids - {id});
      top := Max(prs[id].Match, rest);
    }
  }

  ghost function QuorumMatch(prs: map<NodeId, Progress>): (x: nat)
    requires |prs| > 0
    ensures IsQuorumMatch(prs, x)
  {
    QuorumMatchHolds(prs);
    var x: nat :| IsQuorumMatch(prs, x);
    x
  }

  lemma {:induction false} QuorumMatchHolds(prs: map<NodeId, Progress>)
    requires |prs| > 0
    ensures exists x: nat :: IsQuorumMatch(prs, x)
  {
    var x := QuorumMatchExists(prs);
  }

  // ------------------------------------------------------------------ roles

  function Reset(r: Raft, term: nat): Raft {
    var last := LastIndex(r.log);
    r.(term := term,
       vote := if r.term != term then NONE else r.vote,
       lead := NONE,
       leadTransferee := NONE,
       votes := map[],
       prs := map id | id in r.prs :: Progress(if id == r.id then last else 0, last + 1),
       pendingConfIndex := 0)
  }

  function BecomeFollower(r: Raft, term: nat, lead: NodeId): Raft {
    Reset(r, term).(lead := lead, state := StateFollower)
  }

  function BecomeCandidate(r: Raft): Raft {
    Reset(r, r.term + 1).(vote := r.id, state := StateCandidate)
  }

  ghost function BecomeLeader(r: Raft, st: Store): Outcome<Raft> {
    var r1 := Reset(r, r.term).(lead := r.id, state := StateLeader, pendingConfIndex := LastIndex(r.log));
    AppendEntry(r1, st, [Entry(EntryNormal, 0, 0, [])])
  }

  // ------------------------------------------------------------------ the leader's log

  /** Entries stamped with the leader's term and consecutive indexes after `last`. */
  function Stamp(es: seq<Entry>, term: nat, last: nat): seq<Entry> {
    seq(|es|, i requires 0 <= i < |es| => es[i].(term := term, index := last + 1 + i))
  }

  ghost function MaybeCommit(r: Raft): Outcome<(Raft, bool)> {
    if |r.prs| == 0 then Fatal
    else
      var (log, changed) :- LogMaybeCommit(r.log, QuorumMatch(r.prs), r.term);
      Done((r.(log := log), changed))
  }

  ghost function AppendEntry(r: Raft, st: Store, es: seq<Entry>): Outcome<Raft> {
    var log :- Append(r.log, st, Stamp(es, r.term, LastIndex(r.log)));
    if r.id !in r.prs then Fatal
    else
      var r1 := r.(log := log, prs := r.prs[r.id := MaybeUpdate(r.prs[r.id], LastIndex(log))]);
      var (r2, _) :- MaybeCommit(r1);
      Done(r2)
  }

  // ------------------------------------------------------------------ sending

  function AppendMessage(r: Raft, st: Store, to: NodeId): Outcome<Message> {
    if to !in r.prs then Fatal
    else
      var next := r.prs[to].Next;
      var term := Term(r.log, next - 1);
      var ents :- LogEntries(r.log, next);
      if term.Err? || ents.Err? then
        var snap := LogSnapshot(r.log, st);
        if snap.index == 0 then Fatal else Done(MsgSnapshot(r.id, to, r.term, snap))
      else
        assert next > 0;
        Done(MsgAppend(r.id, to, r.term, next - 1, term.value, ents.value, r.log.committed))
  }

  function SendAppend(r: Raft, st: Store, to: NodeId): Outcome<Raft> {
    var m :- AppendMessage(r, st, to);
    Done(Send(r, m))
  }

  function BcastAppend(r: Raft, st: Store): Outcome<Raft> {
    if exists id :: id in r.prs && id != r.id && AppendMessage(r, st, id).Fatal? then Fatal
    else Done(r.(msgs := r.msgs + set id | id in r.prs && id != r.id :: AppendMessage(r, st, id).value))
  }

  function HeartbeatMessage(r: Raft, to: NodeId): Message
    requires to in r.prs
  {
    MsgHeartbeat(r.id, to, r.term, Min(r.prs[to].Match, r.log.committed))
  }

  function BcastHeartbeat(r: Raft): Raft {
    r.(msgs := r.msgs + set id | id in r.prs && id != r.id :: HeartbeatMessage(r, id))
  }

  // ------------------------------------------------------------------ elections

  function Poll(r: Raft, id: NodeId, v: bool): Raft {
    r.(votes := if id in r.votes then r.votes else r.votes[id := v])
  }

  function Grantors(votes: map<NodeId, bool>): set<NodeId> {
    set id | id in votes && votes[id]
  }

  function Granted(votes: map<NodeId, bool>): nat { |Grantors(votes)| }

  ghost function Campaign(r: Raft, st: Store): Outcome<Raft> {
    var r1 := BecomeCandidate(r);
    var r2 := Poll(r1, r1.id, true);
    if QuorumSize(r2) == Granted(r2.votes) then BecomeLeader(r2, st)
    else if forall id :: id in r2.prs ==> id == r2.id then Done(r2)
    else
      var lastTerm :- LastTerm(r2.log);
      Done(r2.(msgs := r2.msgs + set id | id in r2.prs && id != r2.id ::
                                   MsgRequestVote(r2.id, id, r2.term, LastIndex(r2.log), lastTerm)))
  }

  // ------------------------------------------------------------------ message handlers; each ignores messages of another kind

  function HandleAppendEntries(r: Raft, st: Store, m: Message): Outcome<Raft> {
    if !m.MsgAppend? then Done(r)
    else if m.index < r.log.committed then
      Done(Send(r, MsgAppendResponse(r.id, m.from, r.term, r.log.committed, false, 0)))
    else
      var (log, last) :- MaybeAppend(r.log, st, m.index, m.logTerm, m.commit, m.ents);
      match last
      case Some(i) => Done(Send(r.(log := log), MsgAppendResponse(r.id, m.from, r.term, i, false, 0)))
      case None => Done(Send(r, MsgAppendResponse(r.id, m.from, r.term, m.index, true, LastIndex(r.log))))
  }

  function HandleHeartbeat(r: Raft, m: Message): Outcome<Raft> {
    if !m.MsgHeartbeat? then Done(r)
    else
      var log :- CommitTo(r.log, m.commit);
      Done(Send(r.(log := log), MsgHeartbeatResponse(r.id, m.from, r.term)))
  }

  function RestoreSnapshot(r: Raft, s: Snapshot): Outcome<(Raft, bool)> {
    if s.index <= r.log.committed then Done((r, false))
    else if MatchTerm(r.log, s.index, s.term) then
      var log :- CommitTo(r.log, s.index);
      Done((r.(log := log), false))
    else
      var log := Restore(r.log, s);
      var last := LastIndex(log);
      Done((r.(log := log, prs := map n | n in s.nodes :: Progress(if n == r.id then last else 0, last + 1)), true))
  }

  function HandleSnapshot(r: Raft, m: Message): Outcome<Raft> {
    if !m.MsgSnapshot? then Done(r)
    else
      var (r1, restored) :- RestoreSnapshot(r, m.snapshot);
      var index := if restored then LastIndex(r1.log) else r1.log.committed;
      Done(Send(r1, MsgAppendResponse(r1.id, m.from, r1.term, index, false, 0)))
  }

  /** Only one configuration change may be pending: later ones in the proposal become normal entries. */
  function FilterConf(ents: seq<Entry>, pendingConfIndex: nat, applied: nat, last: nat): (seq<Entry>, nat)
    decreases |ents|
  {
    if ents == [] then ([], pendingConfIndex)
    else if ents[0].entryType == EntryConfChange then
      if pendingConfIndex > applied then
        var (rest, p) := FilterConf(ents[1..], pendingConfIndex, applied, last + 1);
        ([Entry(EntryNormal, 0, 0, [])] + rest, p)
      else
        var (rest, p) := FilterConf(ents[1..], last + 1, applied, last + 1);
        ([ents[0]] + rest, p)
    else
      var (rest, p) := FilterConf(ents[1..], pendingConfIndex, applied, last + 1);
      ([ents[0]] + rest, p)
  }

  ghost function Propose(r: Raft, st: Store, ents: seq<Entry>): Outcome<Stepped> {
    if ents == [] then Fatal
    else if r.id !in r.prs || r.leadTransferee != NONE then Done(Stepped(r, true))
    else
      var (es, p) := FilterConf(ents, r.pendingConfIndex, r.log.applied, LastIndex(r.log));
      var r1 :- AppendEntry(r.(pendingConfIndex := p), st, es);
      var r2 :- BcastAppend(r1, st);
      Done(Stepped(r2, false))
  }

  ghost function LeaderAppendResponse(r: Raft, st: Store, m: Message): Outcome<Raft> {
    if !m.MsgAppendResponse? || m.from !in r.prs then Done(r)
    else
      var pr := r.prs[m.from];
      if m.reject then
        var (pr', decreased) := MaybeDecrTo(pr, m.index, m.rejectHint);
        var r1 := r.(prs := r.prs[m.from := pr']);
        if decreased then SendAppend(r1, st, m.from) else Done(r1)
      else
        var r1 := r.(prs := r.prs[m.from := MaybeUpdate(pr, m.index)]);
        if pr.Match < m.index then
          var (r2, changed) :- MaybeCommit(r1);
          var r3 :- if changed then BcastAppend(r2, st) else Done(r2);
          if m.from == r3.leadTransferee && r3.prs[m.from].Match == LastIndex(r3.log) then
            Done(Send(r3, MsgTimeoutNow(r3.id, m.from, r3.term)))
          else Done(r3)
        else Done(r1)
  }

  function LeaderTransfer(r: Raft, st: Store, transferee: NodeId): Outcome<Raft> {
    if transferee !in r.prs then Done(r)
    else if r.leadTransferee == transferee && transferee != NONE then Done(r)
    else
      var r1 := r.(leadTransferee := NONE);
      if transferee == r.id then Done(r1)
      else
        var r2 := r1.(leadTransferee := transferee);
        if r2.prs[transferee].Match == LastIndex(r2.log) then
          Done(Send(r2, MsgTimeoutNow(r2.id, transferee, r2.term)))
        else SendAppend(r2, st, transferee)
  }

  ghost function StepLeader(r: Raft, st: Store, m: Message): Outcome<Stepped> {
    if m.MsgBeat? then Done(Stepped(BcastHeartbeat(r), false))
    else if m.MsgPropose? then Propose(r, st, m.ents)
    else if m.from !in r.prs then Done(Stepped(r, false))
    else if m.MsgAppendResponse? then
      var r1 :- LeaderAppendResponse(r, st, m);
      Done(Stepped(r1, false))
    else if m.MsgHeartbeatResponse? then
      if r.prs[m.from].Match < LastIndex(r.log) then
        var r1 :- SendAppend(r, st, m.from);
        Done(Stepped(r1, false))
      else Done(Stepped(r, false))
    else if m.MsgTransferLeader? then
      var r1 :- LeaderTransfer(r, st, m.from);
      Done(Stepped(r1, false))
    else Done(Stepped(r, false))
  }

  ghost function CandidateVoteResponse(r: Raft, st: Store, m: Message): Outcome<Raft> {
    if !m.MsgRequestVoteResponse? then Done(r)
    else
      var r1 := Poll(r, m.from, !m.reject);
      var granted := Granted(r1.votes);
      if QuorumSize(r1) == granted then
        var r2 :- BecomeLeader(r1, st);
        BcastAppend(r2, st)
      else if QuorumSize(r1) == |r1.votes| - granted then Done(BecomeFollower(r1, r1.term, NONE))
      else Done(r1)
  }

  /** Append, heartbeat and snapshot messages as a follower handles them. */
  function FollowLeader(r: Raft, st: Store, m: Message): Outcome<Raft> {
    match m
    case MsgAppend(_, _, _, _, _, _, _) => HandleAppendEntries(r, st, m)
    case MsgHeartbeat(_, _, _, _) => HandleHeartbeat(r, m)
    case MsgSnapshot(_, _, _, _) => HandleSnapshot(r, m)
    case _ => Done(r)
  }

  ghost function StepCandidate(r: Raft, st: Store, m: Message): Outcome<Stepped> {
    if m.MsgPropose? then Done(Stepped(r, true))
    else if m.MsgAppend? || m.MsgHeartbeat? || m.MsgSnapshot? then
      var r1 :- FollowLeader(BecomeFollower(r, m.term, m.from), st, m);
      Done(Stepped(r1, false))
    else if m.MsgRequestVoteResponse? then
      var r1 :- CandidateVoteResponse(r, st, m);
      Done(Stepped(r1, false))
    else Done(Stepped(r, false))
  }

  ghost function StepFollower(r: Raft, st: Store, m: Message): Outcome<Stepped> {
    if m.MsgPropose? then Done(Stepped(r, true))
    else if m.MsgAppend? || m.MsgHeartbeat? || m.MsgSnapshot? then
      var r1 :- FollowLeader(r.(lead := m.from), st, m);
      Done(Stepped(r1, false))
    else if m.MsgTransferLeader? then
      if r.lead == NONE then Done(Stepped(r, false))
      else if m.term != 0 then Fatal
      else Done(Stepped(Send(r, MsgTransferLeader(r.id, r.lead, r.term)), false))
    else if m.MsgTimeoutNow? then
      if r.id in r.prs then
        var r1 :- Campaign(r, st);
        Done(Stepped(r1, false))
      else Done(Stepped(r, false))
    else Done(Stepped(r, false))
  }

  function NumOfPendingConf(ents: seq<Entry>): nat {
    if ents == [] then 0
    else (if ents[0].entryType == EntryConfChange then 1 else 0) + NumOfPendingConf(ents[1..])
  }

  ghost function StepHup(r: Raft, st: Store): Outcome<Raft> {
    if r.state == StateLeader then Done(r)
    else
      var ents :- Slice(r.log, r.log.applied + 1, r.log.committed + 1);
      if ents.Err? then Fatal
      else if NumOfPendingConf(ents.value) != 0 && r.log.committed > r.log.applied then Done(r)
      else Campaign(r, st)
  }

  function StepRequestVote(r: Raft, m: Message): Outcome<Raft> {
    if !m.MsgRequestVote? then Done(r)
    else
      var upToDate :- IsUpToDate(r.log, m.index, m.logTerm);
      if (r.vote == m.from || (r.vote == NONE && r.lead == NONE)) && upToDate then
        if m.term == 0 then Fatal
        else Done(Send(r, MsgRequestVoteResponse(r.id, m.from, m.term, false)).(vote := m.from))
      else
        if r.term == 0 then Fatal
        else Done(Send(r, MsgRequestVoteResponse(r.id, m.from, r.term, true)))
  }

  /** Step once the term of the message has been dealt with. */
  ghost function StepSameTerm(r: Raft, st: Store, m: Message): Outcome<Stepped> {
    if m.MsgHup? then
      var r1 :- StepHup(r, st);
      Done(Stepped(r1, false))
    else if m.MsgRequestVote? then
      var r1 :- StepRequestVote(r, m);
      Done(Stepped(r1, false))
    else
      match r.state
      case StateFollower => StepFollower(r, st, m)
      case StateCandidate => StepCandidate(r, st, m)
      case StateLeader => StepLeader(r, st, m)
  }

  ghost function Step(r: Raft, st: Store, m: Message): Outcome<Stepped> {
    if m.term == 0 then StepSameTerm(r, st, m)
    else if m.term > r.term then
      var lead := if m.MsgAppend? || m.MsgHeartbeat? || m.MsgSnapshot? then m.from else NONE;
      StepSameTerm(BecomeFollower(r, m.term, lead), st, m)
    else if m.term < r.term then Done(Stepped(r, false))
    else StepSameTerm(r, st, m)
  }

  // ------------------------------------------------------------------ start and restart

  function StartProgress(nodes: set<NodeId>): map<NodeId, Progress> {
    map p | p in nodes :: Progress(0, 1)
  }

  /** newRaft: `peers` must be empty when the store already names the nodes. */
  function NewRaft(id: NodeId, peers: set<NodeId>, applied: nat, st: Store): Outcome<Raft> {
    if id == NONE || (st.snapshot.nodes != {} && peers != {}) then Fatal
    else
      var log :- NewLog(st);
      var nodes := if st.snapshot.nodes != {} then st.snapshot.nodes else peers;
      var hs := st.hardState;
      if hs != EMPTY_HARD_STATE && (hs.commit < log.committed || hs.commit > LastIndex(log)) then Fatal
      else
        var log1 := if hs != EMPTY_HARD_STATE then log.(committed := hs.commit) else log;
        var log2 :- AppliedTo(log1, applied);
        var r := Raft(id, hs.term, hs.vote, log2, StartProgress(nodes), StateFollower, map[], {}, NONE, NONE, 0);
        Done(BecomeFollower(r, r.term, NONE))
  }
}
