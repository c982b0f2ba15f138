/** Values shared by every layer of the Raft model: log entries, node identifiers,
    and the two relations on logs that the safety argument is phrased in. */
module RaftTypes {

  type NodeId = nat

  /** Placeholder identifier used when there is no leader and no vote. */
  const NONE: NodeId := 0

  datatype EntryType = EntryNormal | EntryConfChange

  datatype Entry = Entry(entryType: EntryType, term: nat, index: nat, data: seq<nat>)

  datatype Option<+T> = None | Some(value: T)

  /** Outcome of an operation of the Go code that may call log.Fatal or panic. */
  datatype Outcome<+T> = Done(value: T) | Fatal {
    predicate IsFailure() { Fatal? }
    function PropagateFailure<U>(): Outcome<U> requires Fatal? { Fatal }
    function Extract(): T requires Done? { value }
  }

  function Min(a: nat, b: nat): nat { if a > b then b else a }

  function Max(a: nat, b: nat): nat { if a > b then a else b }

  /** Term of the entry at (1-based) position `i` of a complete log; outside the log it is 0. */
  function TermAt(log: seq<Entry>, i: nat): nat {
    if 1 <= i <= |log| then log[i - 1].term else 0
  }

  /** Both logs have at least `n` entries and their first `n` entries are equal. */
  predicate Agree(a: seq<Entry>, b: seq<Entry>, n: nat) {
    && n <= |a|
    && n <= |b|
    && forall k :: 0 <= k < n ==> a[k] == b[k]
  }

  /** `Q` is a majority of `ids`: the Go code's quorum() is len/2 + 1. */
  predicate Quorum(ids: set<NodeId>, Q: set<NodeId>) {
    Q <= ids && |Q| >= |ids| / 2 + 1
  }

  /** Any two majorities share a node. */
  lemma {:induction false} QuorumsMeet(ids: set<NodeId>, P: set<NodeId>, Q: set<NodeId>) returns (q: NodeId)
    requires Quorum(ids, P) && Quorum(ids, Q)
    ensures q in P && q in Q && q in ids
  {
    assert |P + Q| + |P * Q| == |P| + |Q|;
    SubsetSize(P + Q, ids);
    q :| q in P * Q;
  }

  lemma {:induction false} SubsetSize<T>(a: set<T>, b: set<T>)
    requires a <= b
    ensures |a| <= |b|
  {
    if a != {} {
      var x :| x in a;
      SubsetSize(a - {x}, b - {x});
    }
  }

  /** The candidate log described by (`lastTerm`, `lastIndex`) is at least as up to date as `log`. */
  predicate UpToDate(lastIndex: nat, lastTerm: nat, log: seq<Entry>) {
    var term := TermAt(log, |log|);
    lastTerm > term || (lastTerm == term && lastIndex >= |log|)
  }
}
