/** What maybeAppend promises for any contiguous entries, whoever sent them. */
module RaftLogContract {
  import opened RaftTypes
  import opened RaftStore
  import opened RaftLogSpec

  /** How many of the given entries the complete log already holds, by term, before the first conflict. */
  function Held(F: seq<Entry>, index: nat, ents: seq<Entry>): (n: nat)
    ensures n <= |ents|
    decreases |ents|
  {
    if ents == [] || index >= |F| || F[index].term != ents[0].term then 0
    else 1 + Held(F, index + 1, ents[1..])
  }

  /** The complete log after accepting the entries: unchanged if it holds them all, else cut at the first
      conflict and continued with the rest of the entries. */
  function Joined(F: seq<Entry>, index: nat, ents: seq<Entry>): seq<Entry>
    requires index <= |F|
  {
    var n := Held(F, index, ents);
    if n == |ents| || index + n > |F| then F else F[..index + n] + ents[n..]
  }

  lemma {:induction false} HeldIs(F: seq<Entry>, index: nat, ents: seq<Entry>, n: nat)
    requires TermsMatch(F, index, ents, n)
    requires n == |ents| || |F| <= index + n || F[index + n].term != ents[n].term
    ensures Held(F, index, ents) == n
    decreases |ents|
  {
    if n > 0 {
      assert F[index].term == ents[index - index].term;
      forall j | index + 1 <= j < index + n
        ensures F[j].term == ents[1..][j - (index + 1)].term
      {
        assert F[j].term == ents[j - index].term;
      }
      HeldIs(F, index + 1, ents[1..], n - 1);
    }
  }

  /** The code's findConflict finds the first position the reference definition leaves unheld. */
  lemma {:induction false} FindConflictIsHeld(l: Log, F: seq<Entry>, index: nat, ents: seq<Entry>)
    requires LogView(l, F) && l.snapIndex <= index
    requires forall k :: 0 <= k < |ents| ==> ents[k].index == index + k + 1
    ensures FindConflict(l, ents) == (if Held(F, index, ents) == |ents| then 0 else index + Held(F, index, ents) + 1)
  {
    FindConflictView(l, F, index, ents);
    var ci := FindConflict(l, ents);
    HeldIs(F, index, ents, if ci == 0 then |ents| else ci - index - 1);
  }

  /** maybeAppend of contiguous entries after a position at or beyond the commit index: it accepts exactly
      if the log has the given term there, and then the log becomes the merged log and the commit index
      the largest covered by both the message and the entries. It never exits fatally. */
  lemma {:induction false} MaybeAppendMerges(l: Log, F: seq<Entry>, st: Store, D: seq<Entry>, index: nat, logTerm: nat, commit: nat, ents: seq<Entry>)
    requires Synced(l, F, st, D) && l.committed <= index
    requires forall k :: 0 <= k < |ents| ==> ents[k].index == index + k + 1
    ensures MaybeAppend(l, st, index, logTerm, commit, ents).Done?
    ensures var (l', last) := MaybeAppend(l, st, index, logTerm, commit, ents).value;
            if index <= |F| && TermAt(F, index) == logTerm then
              && last == Some(index + |ents|)
              && Synced(l', Joined(F, index, ents), st, D)
              && l'.committed == Max(l.committed, Min(commit, index + |ents|))
              && l'.applied == l.applied
            else last == None && l' == l
  {
    hide Append, FindConflict, CommitTo, MatchTerm, Synced, LogView, Held;
    SyncedLog(l, F, st, D);
    MatchTermView(l, F, index, logTerm);
    if index <= |F| && TermAt(F, index) == logTerm {
      FindConflictIsHeld(l, F, index, ents);
      MergedLength(F, index, ents);
      var n := Held(F, index, ents);
      if n == |ents| {
        CommitSynced(l, F, st, D, Min(commit, index + |ents|));
      } else {
        assert forall k :: 0 <= k < |ents[n..]| ==> ents[n..][k].index == index + n + k + 1;
        AppendSynced(l, F, st, D, index + n, ents[n..]);
        CommitSynced(Append(l, st, ents[n..]).value, Joined(F, index, ents), st, D, Min(commit, index + |ents|));
      }
    }
  }

  lemma {:induction false} SyncedLog(l: Log, F: seq<Entry>, st: Store, D: seq<Entry>)
    requires Synced(l, F, st, D)
    ensures LogView(l, F) && l.snapIndex <= l.committed && st.ents != []
  {
  }

  lemma {:induction false} CommitSynced(l: Log, F: seq<Entry>, st: Store, D: seq<Entry>, c: nat)
    requires Synced(l, F, st, D) && c <= |F|
    ensures CommitTo(l, c).Done? && Synced(CommitTo(l, c).value, F, st, D)
    ensures CommitTo(l, c).value == l.(committed := Max(l.committed, c))
  {
    LastIndexView(l, F);
  }

  lemma {:induction false} HeldInside(F: seq<Entry>, index: nat, ents: seq<Entry>)
    requires index <= |F|
    ensures index + Held(F, index, ents) <= |F|
    decreases |ents|
  {
    if !(ents == [] || index >= |F| || F[index].term != ents[0].term) {
      HeldInside(F, index + 1, ents[1..]);
    }
  }

  lemma {:induction false} MergedLength(F: seq<Entry>, index: nat, ents: seq<Entry>)
    requires index <= |F|
    ensures index + Held(F, index, ents) <= |F|
    ensures |Joined(F, index, ents)| >= index + |ents|
  {
    HeldInside(F, index, ents);
  }

  lemma {:induction false} HeldTerm(F: seq<Entry>, index: nat, ents: seq<Entry>, k: nat)
    requires k < Held(F, index, ents)
    ensures index + k < |F| && F[index + k].term == ents[k].term
    decreases |ents|
  {
    if k > 0 {
      HeldTerm(F, index + 1, ents[1..], k - 1);
    }
  }

  /** What acceptance means: the log agrees with the message term by term, everything before the first
      conflict stays, nothing after the entries is dropped unless there was a conflict, and whatever was
      committed stays. */
  lemma {:induction false} JoinedMeaning(F: seq<Entry>, index: nat, ents: seq<Entry>, committed: nat)
    requires committed <= index <= |F|
    ensures var G := Joined(F, index, ents);
            var n := Held(F, index, ents);
            && |G| >= index + |ents|
            && (forall k :: 0 <= k < |ents| ==> G[index + k].term == ents[k].term)
            && (forall k :: n <= k < |ents| ==> G[index + k] == ents[k])
            && Agree(G, F, index + n)
            && Agree(G, F, committed)
            && (n == |ents| <==> G == F)
            && (n < |ents| ==> |G| == index + |ents| && (index + n == |F| || F[index + n].term != ents[n].term))
  {
    hide Held;
    MergedLength(F, index, ents);
    var G, n := Joined(F, index, ents), Held(F, index, ents);
    FirstUnheld(F, index, ents);
    JoinedParts(F, index, ents);
    forall k | 0 <= k < |ents|
      ensures G[index + k].term == ents[k].term
    {
      if k < n {
        HeldTerm(F, index, ents, k);
      }
    }
    if n < |ents| {
      assert G[index + n] == ents[n];
    }
  }

  /** Up to the first conflict the log, from there on the entries. */
  lemma {:induction false} JoinedParts(F: seq<Entry>, index: nat, ents: seq<Entry>)
    requires index <= |F| && index + Held(F, index, ents) <= |F| && |Joined(F, index, ents)| >= index + |ents|
    ensures var G, n := Joined(F, index, ents), Held(F, index, ents);
            && Agree(G, F, index + n)
            && (forall k :: n <= k < |ents| ==> G[index + k] == ents[k])
            && (n == |ents| ==> G == F) && (n < |ents| ==> |G| == index + |ents|)
  {
    hide Held;
  }

  lemma {:induction false} FirstUnheld(F: seq<Entry>, index: nat, ents: seq<Entry>)
    requires index <= |F|
    ensures var n := Held(F, index, ents);
            n < |ents| ==> index + n == |F| || (index + n < |F| && F[index + n].term != ents[n].term)
    decreases |ents|
  {
    if !(ents == [] || index >= |F| || F[index].term != ents[0].term) {
      FirstUnheld(F, index + 1, ents[1..]);
    }
  }
}
