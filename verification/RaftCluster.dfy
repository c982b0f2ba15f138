/** A cluster of nodes that run the code over a network that loses, duplicates and reorders messages,
    with applications that persist, compact, snapshot, crash and restart.

    Membership is static. Between two Ready cycles a node may take any number of steps; what it has not
    persisted is lost in a crash together with the messages it has not sent. */
module RaftCluster {
  import opened RaftTypes
  import opened RaftStore
  import opened RaftLogSpec
  import opened RaftNodeSpec
  import opened RawNodeSpec

  /** What an application is told to apply. */
  datatype Delivery = Installed(index: nat) | Normal(entry: Entry)

  /** A node, its store, everything it delivered since it last started (from index `base` on), and every
      entry it has ever delivered. */
  datatype Peer = Peer(rn: RawNode, st: Store, base: nat, delivered: seq<Delivery>, history: set<Entry>)

  datatype Cluster = Cluster(ids: set<NodeId>, peers: map<NodeId, Peer>, net: set<Message>)

  /** What stands for a node that is not there. */
  const NOBODY: Peer :=
    Peer(NewRawNode(Raft(NONE, 0, NONE, Log([], 1, 0, 0, 0, 0, 0, None), map[], StateFollower, map[], {}, NONE, NONE, 0)), NewStore(), 0, [], {})

  function PeerAt(c: Cluster, n: NodeId): Peer { if n in c.peers then c.peers[n] else NOBODY }

  function NodeAt(c: Cluster, n: NodeId): Raft { PeerAt(c, n).rn.raft }

  function LogAt(c: Cluster, n: NodeId): Log { NodeAt(c, n).log }

  datatype Action =
    | Receive(m: Message)
    | Request(m: Message)
    | AbortTransfer
    | RunCycle
    | Compact(index: nat)
    | TakeSnapshot(index: nat)
    | Restart(applied: nat)

  function NormalDeliveries(ents: seq<Entry>): seq<Delivery> {
    seq(|ents|, i requires 0 <= i < |ents| => Normal(ents[i]))
  }

  function Deliveries(rd: Ready): seq<Delivery> {
    (if rd.snapshot.index != 0 then [Installed(rd.snapshot.index)] else []) + NormalDeliveries(rd.committedEntries)
  }

  function Entries(ents: seq<Entry>): set<Entry> {
    set e | e in ents
  }

  /** The deliveries advance from index `from` to index `to` without gap or repeat, except for snapshots. */
  predicate Covers(ds: seq<Delivery>, from: nat, to: nat)
    decreases |ds|
  {
    if ds == [] then from == to
    else match ds[0]
         case Normal(e) => e.index == from + 1 && Covers(ds[1..], from + 1, to)
         case Installed(i) => i > from && Covers(ds[1..], i, to)
  }

  function PeersArgument(ids: set<NodeId>, st: Store): set<NodeId> {
    if st.snapshot.nodes == {} then ids else {}
  }

  function Fresh(ids: set<NodeId>, n: NodeId): Outcome<Peer> {
    var r :- NewRaft(n, ids, 0, NewStore());
    Done(Peer(NewRawNode(r), NewStore(), 0, [], {}))
  }

  ghost predicate Init(c: Cluster) {
    && NONE !in c.ids
    && c.peers.Keys == c.ids
    && c.net == {}
    && forall n :: n in c.ids ==> Fresh(c.ids, n) == Done(c.peers[n])
  }

  predicate IsRequest(m: Message) {
    m.term == 0 && (m.MsgHup? || m.MsgBeat? || m.MsgPropose? || m.MsgTransferLeader?)
  }

  /** One action at node `n` turns `c` into `c'`. A step that ends in a fatal exit is no action: the node
      is then down until it restarts. */
  ghost predicate NextAt(c: Cluster, n: NodeId, act: Action, c': Cluster) {
    && n in c.peers
    && c.peers[n].st.ents != []
    && var p := c.peers[n];
       match act
       case Receive(m) =>
         && m in c.net && m.to == n
         && RawStep(p.rn, p.st, m).Done?
         && c' == c.(peers := c.peers[n := p.(rn := RawStep(p.rn, p.st, m).value)])
       case Request(m) =>
         && IsRequest(m)
         && Step(p.rn.raft, p.st, m).Done?
         && c' == c.(peers := c.peers[n := p.(rn := p.rn.(raft := Step(p.rn.raft, p.st, m).value.raft))])
       case AbortTransfer =>
         && p.rn.raft.state == StateLeader
         && c' == c.(peers := c.peers[n := p.(rn := p.rn.(raft := p.rn.raft.(leadTransferee := NONE)))])
       case RunCycle =>
         && Cycle(p.rn, p.st).Done?
         && var done := Cycle(p.rn, p.st).value;
            c' == c.(peers := c.peers[n := Peer(done.rn, done.st, p.base, p.delivered + Deliveries(done.rd),
                                                p.history + Entries(done.rd.committedEntries))],
                     net := c.net + done.rd.messages)
       case Compact(i) =>
         && i <= p.rn.raft.log.applied
         && StoreCompact(p.st, i).Done? && StoreCompact(p.st, i).value.Ok?
         && c' == c.(peers := c.peers[n := p.(st := StoreCompact(p.st, i).value.value)])
       case TakeSnapshot(i) =>
         && i <= p.rn.raft.log.applied
         && StoreCreateSnapshot(p.st, i, Some(c.ids)).Done? && StoreCreateSnapshot(p.st, i, Some(c.ids)).value.Ok?
         && c' == c.(peers := c.peers[n := p.(st := StoreCreateSnapshot(p.st, i, Some(c.ids)).value.value)])
       case Restart(applied) =>
         var r := NewRaft(n, PeersArgument(c.ids, p.st), applied, p.st);
         && r.Done?
         && c' == c.(peers := c.peers[n := Peer(NewRawNode(r.value), p.st, r.value.log.applied, [], p.history)])
  }

  ghost predicate Next(c: Cluster, c': Cluster) {
    exists n, act :: NextAt(c, n, act, c')
  }

  /** A run of the cluster, state by state. */
  ghost predicate Run(run: seq<Cluster>) {
    && run != []
    && Init(run[0])
    && forall i :: 0 <= i < |run| - 1 ==> Next(run[i], run[i + 1])
  }

  lemma {:induction false} CoversConcat(a: seq<Delivery>, b: seq<Delivery>, from: nat, mid: nat, to: nat)
    requires Covers(a, from, mid) && Covers(b, mid, to)
    ensures Covers(a + b, from, to)
    decreases |a|
  {
    if a == [] {
      assert a + b == b;
    } else {
      var next := if a[0].Normal? then from + 1 else a[0].index;
      assert (a + b)[1..] == a[1..] + b;
      CoversConcat(a[1..], b, next, mid, to);
    }
  }

  lemma {:induction false} NormalCovers(ents: seq<Entry>, from: nat)
    requires forall k :: 0 <= k < |ents| ==> ents[k].index == from + k + 1
    ensures Covers(NormalDeliveries(ents), from, from + |ents|)
    decreases |ents|
  {
    if ents != [] {
      var ds := NormalDeliveries(ents);
      assert ds[1..] == NormalDeliveries(ents[1..]);
      NormalCovers(ents[1..], from + 1);
    }
  }
}
