/** The in-memory log of a node as a value, and what each of its operations does to it.

    The operations follow the Go code branch by branch; `Fatal` stands for log.Fatal and for run-time
    panics. The lemmas at the end relate the retained entries to the complete log they come from. */
module RaftLogSpec {
  import opened RaftTypes
  import opened RaftStore

  datatype Log = Log(
    entries: seq<Entry>,
    offset: nat,
    snapIndex: nat,
    snapTerm: nat,
    committed: nat,
    applied: nat,
    stabled: nat,
    pending: Option<Snapshot>)

  function NewLog(st: Store): Outcome<Log> {
    if st.ents == [] then Fatal
    else
      var first := StoreFirst(st);
      var last := StoreLast(st);
      var snapTerm := StoreTerm(st, first - 1);
      var entries :- StoreEntries(st, first, last + 1);
      if snapTerm.Err? || entries.Err? then Fatal
      else Done(Log(entries.value, first, first - 1, snapTerm.value, first - 1, first - 1, last, None))
  }

  function FirstIndex(l: Log): nat {
    if l.entries != [] then l.entries[0].index
    else if l.pending.Some? then l.pending.value.index
    else l.snapIndex
  }

  function LastIndex(l: Log): nat {
    if l.entries != [] then l.entries[|l.entries| - 1].index
    else if l.pending.Some? then l.pending.value.index
    else l.snapIndex
  }

  /** `i` may be -1: the code computes Next - 1 on an unsigned integer and gets an error either way. */
  function Term(l: Log, i: int): Result<nat> {
    if i == l.snapIndex then Ok(l.snapTerm)
    else if l.entries == [] then Err(ErrCompacted)
    else if i < l.offset then Err(ErrCompacted)
    else if i > l.offset + |l.entries| - 1 then Err(ErrUnavailable)
    else Ok(l.entries[i - l.offset].term)
  }

  predicate MatchTerm(l: Log, i: nat, term: nat) {
    Term(l, i) == Ok(term)
  }

  function LastTerm(l: Log): Outcome<nat> {
    var t := Term(l, LastIndex(l));
    if t.Ok? then Done(t.value) else Fatal
  }

  function IsUpToDate(l: Log, lasti: nat, term: nat): Outcome<bool> {
    var t :- LastTerm(l);
    Done(term > t || (term == t && lasti >= LastIndex(l)))
  }

  function CommitTo(l: Log, tocommit: nat): Outcome<Log> {
    if l.committed < tocommit then
      if LastIndex(l) < tocommit then Fatal else Done(l.(committed := tocommit))
    else Done(l)
  }

  function LogMaybeCommit(l: Log, maxIndex: nat, term: nat): Outcome<(Log, bool)> {
    if maxIndex > l.committed && MatchTerm(l, maxIndex, term) then
      var l' :- CommitTo(l, maxIndex);
      Done((l', true))
    else Done((l, false))
  }

  function AppliedTo(l: Log, i: nat): Outcome<Log> {
    if i == 0 then Done(l)
    else if l.committed < i || i < l.applied then Fatal
    else Done(l.(applied := i))
  }

  function StableTo(l: Log, idx: nat, term: nat): Log {
    if MatchTerm(l, idx, term) && l.stabled < idx then l.(stabled := idx) else l
  }

  function StableSnapTo(l: Log, i: nat): Log {
    if l.pending.Some? && l.pending.value.index == i then l.(pending := None) else l
  }

  /** Index of the first given entry the log does not hold with the same term; 0 if it holds them all. */
  function FindConflict(l: Log, ents: seq<Entry>): nat {
    if ents == [] then 0
    else if !MatchTerm(l, ents[0].index, ents[0].term) then ents[0].index
    else FindConflict(l, ents[1..])
  }

  function TruncateAndAppend(l: Log, ents: seq<Entry>): Outcome<Log>
    requires ents != []
  {
    var after := ents[0].index;
    if after == LastIndex(l) + 1 then Done(l.(entries := l.entries + ents))
    else if after == 0 || after < l.offset || after - l.offset > |l.entries| then Fatal
    else Done(l.(stabled := if after - 1 < l.stabled then after - 1 else l.stabled,
                 entries := l.entries[..after - l.offset] + ents))
  }

  function MaybeCompact(l: Log, st: Store): Log
    requires st.ents != []
  {
    var fi := StoreFirst(st);
    if fi > l.offset && fi - l.offset < |l.entries| then
      l.(entries := l.entries[fi - l.offset..], offset := fi, snapIndex := fi - 1, snapTerm := st.ents[0].term)
    else l
  }

  function Append(l: Log, st: Store, ents: seq<Entry>): Outcome<Log> {
    if ents == [] then Done(l)
    else if ents[0].index == 0 || ents[0].index - 1 < l.committed then Fatal
    else
      var l' :- TruncateAndAppend(l, ents);
      if st.ents == [] then Fatal else Done(MaybeCompact(l', st))
  }

  /** Returns the new log and, when the entries were accepted, the last index they reach. */
  function MaybeAppend(l: Log, st: Store, index: nat, logTerm: nat, committed: nat, ents: seq<Entry>)
    : Outcome<(Log, Option<nat>)>
  {
    if MatchTerm(l, index, logTerm) then
      var lastnewi := index + |ents|;
      var ci := FindConflict(l, ents);
      if ci == 0 then
        var l' :- CommitTo(l, Min(committed, lastnewi));
        Done((l', Some(lastnewi)))
      else if ci <= l.committed || ci < index + 1 || ci - (index + 1) > |ents| then Fatal
      else
        var l1 :- Append(l, st, ents[ci - (index + 1)..]);
        var l' :- CommitTo(l1, Min(committed, lastnewi));
        Done((l', Some(lastnewi)))
    else Done((l, None))
  }

  function Restore(l: Log, s: Snapshot): Log {
    l.(committed := s.index, entries := [], stabled := s.index, offset := s.index + 1,
       snapIndex := s.index, snapTerm := s.term, pending := Some(s))
  }

  function Slice(l: Log, lo: nat, hi: nat): Outcome<Result<seq<Entry>>> {
    if lo > hi then Fatal
    else if lo < FirstIndex(l) then Done(Err(ErrCompacted))
    else if hi > LastIndex(l) + 1 then Fatal
    else if l.entries == [] then Done(Ok([]))
    else if lo < l.offset || hi - l.offset > |l.entries| then Fatal
    else Done(Ok(l.entries[lo - l.offset..hi - l.offset]))
  }

  function NextEnts(l: Log): Outcome<seq<Entry>> {
    var off := Max(l.applied + 1, FirstIndex(l));
    if l.committed + 1 > off then
      var ents :- Slice(l, off, l.committed + 1);
      if ents.Err? then Fatal else Done(ents.value)
    else Done([])
  }

  predicate HasNextEnts(l: Log) {
    l.committed + 1 > Max(l.applied + 1, FirstIndex(l))
  }

  function UnstableEntries(l: Log): Outcome<seq<Entry>> {
    if l.stabled + 1 < l.offset then Fatal
    else if l.stabled + 1 - l.offset > |l.entries| then Done([])
    else Done(l.entries[l.stabled + 1 - l.offset..])
  }

  function LogEntries(l: Log, i: nat): Outcome<Result<seq<Entry>>> {
    if i < FirstIndex(l) then Done(Err(ErrCompacted))
    else if i > LastIndex(l) then Done(Ok([]))
    else if i < l.offset || i - l.offset > |l.entries| then Fatal
    else Done(Ok(l.entries[i - l.offset..]))
  }

  function LogSnapshot(l: Log, st: Store): Snapshot {
    if l.pending.Some? then l.pending.value else st.snapshot
  }

  // ------------------------------------------------------------------ the complete log

  /** The log is what is left of the complete log `F` after compaction. */
  predicate LogView(l: Log, F: seq<Entry>) {
    && l.offset >= 1
    && l.snapIndex == l.offset - 1
    && l.snapIndex <= |F|
    && l.entries == F[l.snapIndex..]
    && l.snapTerm == TermAt(F, l.snapIndex)
    && (forall k :: 0 <= k < |F| ==> F[k].index == k + 1)
    && l.applied <= l.committed <= |F|
    && l.snapIndex <= l.committed
    && l.snapIndex <= l.stabled <= |F|
    && (l.pending.Some? ==>
          && l.pending.value.index == l.snapIndex
          && l.pending.value.term == l.snapTerm
          && l.stabled == l.snapIndex
          && l.applied < l.snapIndex)
    && (l.pending.None? ==> l.snapIndex <= l.applied)
  }

  /** How the in-memory log `F` and the durable log `D` relate between two Ready cycles. */
  predicate Synced(l: Log, F: seq<Entry>, st: Store, D: seq<Entry>) {
    && LogView(l, F)
    && StoreView(st, D)
    && st.ents[0].index <= l.applied <= st.hardState.commit <= l.committed
    && (l.pending.Some? ==> st.hardState.commit < l.snapIndex)
    && (l.pending.None? ==>
          && st.hardState.commit <= l.stabled
          && l.snapIndex <= st.ents[0].index
          && Agree(F, D, l.stabled)
          && (l.stabled == |F| ==> |D| == |F|))
  }

  lemma {:induction false} ViewBounds(l: Log, F: seq<Entry>)
    requires LogView(l, F)
    ensures l.snapIndex <= l.committed <= |F| && l.applied <= l.committed
    ensures l.pending.None? ==> l.snapIndex <= l.applied
    ensures l.entries != [] ==> l.entries[|l.entries| - 1] == F[|F| - 1]
  {
  }

  lemma {:induction false} LastIndexView(l: Log, F: seq<Entry>)
    requires LogView(l, F)
    ensures LastIndex(l) == |F|
    ensures LastTerm(l) == Done(TermAt(F, |F|))
  {
  }

  lemma {:induction false} MatchTermView(l: Log, F: seq<Entry>, i: nat, term: nat)
    requires LogView(l, F)
    ensures MatchTerm(l, i, term) <==> l.snapIndex <= i <= |F| && TermAt(F, i) == term
  {
  }

  lemma {:induction false} UpToDateView(l: Log, F: seq<Entry>, lasti: nat, term: nat)
    requires LogView(l, F)
    ensures IsUpToDate(l, lasti, term) == Done(UpToDate(lasti, term, F))
  {
    LastIndexView(l, F);
  }

  /** The first `n` given entries have the terms the complete log has after position `index`. */
  predicate TermsMatch(F: seq<Entry>, index: nat, ents: seq<Entry>, n: nat) {
    && n <= |ents|
    && (n == 0 || index + n <= |F|)
    && forall j :: index <= j < index + n ==> F[j].term == ents[j - index].term
  }

  lemma {:induction false} TermsMatchCons(F: seq<Entry>, index: nat, ents: seq<Entry>, n: nat)
    requires ents != [] && index < |F| && F[index].term == ents[0].term
    requires TermsMatch(F, index + 1, ents[1..], n)
    ensures TermsMatch(F, index, ents, n + 1)
  {
    forall j | index <= j < index + n + 1
      ensures F[j].term == ents[j - index].term
    {
      if j > index {
        assert ents[j - index] == ents[1..][j - (index + 1)];
      }
    }
  }

  /** findConflict returns the first position at which the entries and the log differ, or 0. */
  lemma {:induction false} FindConflictView(l: Log, F: seq<Entry>, index: nat, ents: seq<Entry>)
    requires LogView(l, F) && l.snapIndex <= index
    requires forall k :: 0 <= k < |ents| ==> ents[k].index == index + k + 1
    ensures var ci := FindConflict(l, ents);
            if ci == 0 then TermsMatch(F, index, ents, |ents|)
            else
              && index < ci <= index + |ents|
              && TermsMatch(F, index, ents, ci - index - 1)
              && (|F| < ci || F[ci - 1].term != ents[ci - index - 1].term)
    decreases |ents|
  {
    if ents != [] {
      MatchTermView(l, F, index + 1, ents[0].term);
      if MatchTerm(l, index + 1, ents[0].term) {
        FindConflictView(l, F, index + 1, ents[1..]);
        hide LogView, TermsMatch, MatchTerm;
        var ci := FindConflict(l, ents[1..]);
        assert FindConflict(l, ents) == ci;
        TermsMatchCons(F, index, ents, if ci == 0 then |ents| - 1 else ci - index - 2);
      }
    }
  }

  /** Appending after a committed position replaces what follows and keeps log and store in step. */
  lemma {:induction false} AppendSynced(l: Log, F: seq<Entry>, st: Store, D: seq<Entry>, after: nat, ents: seq<Entry>)
    requires Synced(l, F, st, D) && l.committed <= after <= |F| && ents != []
    requires forall k :: 0 <= k < |ents| ==> ents[k].index == after + k + 1
    ensures Append(l, st, ents).Done?
    ensures var l' := Append(l, st, ents).value;
            && Synced(l', F[..after] + ents, st, D)
            && l'.committed == l.committed && l'.applied == l.applied && l'.pending == l.pending
            && l'.entries != []
  {
    LastIndexView(l, F);
    var F' := F[..after] + ents;
    var l1 := TruncateAndAppend(l, ents).value;
    TruncateView(l, F, after, ents);
    if MaybeCompact(l1, st) != l1 {
      CompactedView(l1, F', st, D);
    }
  }

  lemma {:induction false} TruncateView(l: Log, F: seq<Entry>, after: nat, ents: seq<Entry>)
    requires LogView(l, F) && l.committed <= after <= |F| && ents != []
    requires forall k :: 0 <= k < |ents| ==> ents[k].index == after + k + 1
    ensures TruncateAndAppend(l, ents).Done?
    ensures var l' := TruncateAndAppend(l, ents).value;
            && l'.entries == (F[..after] + ents)[l.snapIndex..]
            && LogView(l', F[..after] + ents)
            && l' == l.(entries := l'.entries, stabled := Min(l.stabled, after))
  {
    hide LogView;
    TruncateResult(l, F, after, ents);
    TruncatedLog(l, F, after, ents);
  }

  lemma {:induction false} TruncateResult(l: Log, F: seq<Entry>, after: nat, ents: seq<Entry>)
    requires LogView(l, F) && l.committed <= after <= |F| && ents != [] && ents[0].index == after + 1
    ensures l.snapIndex <= after
    ensures TruncateAndAppend(l, ents) ==
              Done(l.(entries := (F[..after] + ents)[l.snapIndex..], stabled := Min(l.stabled, after)))
  {
    LastIndexView(l, F);
    var s := l.snapIndex;
    assert F[s..][..after - s] == F[s..after];
    assert (F[..after] + ents)[s..] == F[s..after] + ents;
    if after == |F| {
      assert F[s..after] == F[s..];
    }
  }

  lemma {:induction false} TruncatedLog(l: Log, F: seq<Entry>, after: nat, ents: seq<Entry>)
    requires LogView(l, F) && l.committed <= after <= |F|
    requires forall k :: 0 <= k < |ents| ==> ents[k].index == after + k + 1
    ensures l.snapIndex <= after
    ensures LogView(l.(entries := (F[..after] + ents)[l.snapIndex..], stabled := Min(l.stabled, after)), F[..after] + ents)
  {
    var G := F[..after] + ents;
    forall k | 0 <= k < |G|
      ensures G[k].index == k + 1
    {
      if k < after {
        assert G[k] == F[k];
      } else {
        assert G[k] == ents[k - after];
      }
    }
    assert TermAt(G, l.snapIndex) == TermAt(F, l.snapIndex);
  }

  lemma {:induction false} CompactedView(l: Log, F: seq<Entry>, st: Store, D: seq<Entry>)
    requires Synced(l, F, st, D)
    ensures Synced(MaybeCompact(l, st), F, st, D)
  {
    var fi := StoreFirst(st);
    if fi > l.offset && fi - l.offset < |l.entries| {
      assert l.entries[fi - l.offset..] == F[fi - 1..];
      assert TermAt(D, fi - 1) == TermAt(F, fi - 1);
    }
  }
}
