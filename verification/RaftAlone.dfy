/** A cluster of one node counts its vote and its entries before it persists them. A crash in between lets it
    use a term twice, so log matching and the agreement of committed entries across moments hold for every
    cluster of two nodes or more and fail for a cluster of one. */
module RaftAlone {
  import opened RaftTypes
  import opened RaftStore
  import opened RaftLogSpec
  import opened RaftNodeSpec
  import opened RawNodeSpec
  import opened RaftCluster
  import F = RaftImplFacts
  import opened RaftSafety

  const FIRST: Entry := Entry(EntryNormal, 1, 1, [])

  function Second(d: nat): Entry { Entry(EntryNormal, 1, 2, [d]) }

  function Only(last: nat): map<NodeId, Progress> { map[1 := Progress(last, last + 1)] }

  /** The node at its start, as the leader of term 1, and after a proposal. */
  function Started(): Raft {
    Raft(1, 0, NONE, Log([], 1, 0, 0, 0, 0, 0, None), Only(0), StateFollower, map[], {}, NONE, NONE, 0)
  }

  function Leading(ents: seq<Entry>): Raft {
    Raft(1, 1, 1, Log(ents, 1, 0, 0, |ents|, 0, 0, None), Only(|ents|), StateLeader, map[], {}, 1, NONE, 0)
  }

  function Holding(r: Raft): Cluster {
    Cluster({1}, map[1 := Peer(RawNode(r, SoftStateOf(Started()), HardStateOf(Started())), NewStore(), 0, [], {})], {})
  }

  lemma {:induction false} OnlyMatch(x: nat)
    ensures QuorumMatch(Only(x)) == x
  {
    assert AtLeast(Only(x), x) == {1};
    assert AtLeast(Only(x), x + 1) == {};
    F.QuorumMatchUnique(Only(x), QuorumMatch(Only(x)), x);
  }

  lemma {:induction false} ResetAlone(r: Raft, t: nat, last: nat)
    requires r.id == 1 && r.prs.Keys == {1} && LastIndex(r.log) == last
    ensures Reset(r, t).prs == map[1 := Progress(last, last + 1)]
  {
  }

  lemma {:induction false} StartAlone()
    ensures NewRaft(1, {1}, 0, NewStore()) == Done(Started())
  {
    var st := NewStore();
    assert st.ents[1..1] == [];
    assert NewLog(st) == Done(Log([], 1, 0, 0, 0, 0, 0, None));
    var r := Raft(1, 0, NONE, Log([], 1, 0, 0, 0, 0, 0, None), StartProgress({1}), StateFollower, map[], {}, NONE, NONE, 0);
    ResetAlone(r, 0, 0);
  }

  /** What a leader that is alone does with one more entry: it commits it at once. */
  lemma {:induction false} AppendAlone(r: Raft, ents: seq<Entry>, e: Entry)
    requires r == Leading(ents).(log := r.log, prs := Only(|ents|))
    requires r.log == Log(ents, 1, 0, 0, |ents|, 0, 0, None) && |ents| <= 1 && (|ents| == 1 ==> ents[0] == FIRST)
    ensures AppendEntry(r, NewStore(), [e]) == Done(Leading(ents + [e.(term := 1, index := |ents| + 1)]))
  {
    var last, more := |ents|, e.(term := 1, index := |ents| + 1);
    assert LastIndex(r.log) == last;
    assert Stamp([e], 1, last) == [more];
    var log := Log(ents + [more], 1, 0, 0, last, 0, 0, None);
    assert Append(r.log, NewStore(), [more]) == Done(log);
    assert LastIndex(log) == last + 1 && MatchTerm(log, last + 1, 1);
    assert r.prs[1 := MaybeUpdate(r.prs[1], last + 1)] == Only(last + 1);
    OnlyMatch(last + 1);
    assert LogMaybeCommit(log, last + 1, 1) == Done((log.(committed := last + 1), true));
  }

  lemma {:induction false} ElectAlone()
    ensures Step(Started(), NewStore(), MsgHup(0, 0, 0)) == Done(Stepped(Leading([FIRST]), false))
  {
    hide AppendEntry, QuorumMatch;
    var r := Started();
    ResetAlone(r, 1, 0);
    var r1 := BecomeCandidate(r);
    assert r1.prs == Only(0);
    var r2 := Poll(r1, 1, true);
    assert Grantors(r2.votes) == {1};
    ResetAlone(r2, 1, 0);
    var r3 := Reset(r2, 1).(lead := 1, state := StateLeader, pendingConfIndex := 0);
    assert r3 == Leading([]);
    AppendAlone(r3, [], Entry(EntryNormal, 0, 0, []));
    assert [] + [FIRST] == [FIRST];
    assert BecomeLeader(r2, NewStore()) == Done(Leading([FIRST]));
    assert Campaign(r, NewStore()) == Done(Leading([FIRST]));
    assert Slice(r.log, 1, 1) == Done(Ok([]));
  }

  lemma {:induction false} ProposeAlone(d: nat)
    ensures Step(Leading([FIRST]), NewStore(), MsgPropose(0, 0, 0, [Entry(EntryNormal, 0, 0, [d])])) ==
              Done(Stepped(Leading([FIRST, Second(d)]), false))
  {
    hide AppendEntry, QuorumMatch;
    var r, e := Leading([FIRST]), Entry(EntryNormal, 0, 0, [d]);
    assert [e][1..] == [];
    assert FilterConf([], 0, 0, 2) == ([], 0) && [e] + [] == [e];
    assert FilterConf([e], 0, 0, 1) == ([e], 0);
    AppendAlone(r, [FIRST], e);
    assert [FIRST] + [Second(d)] == [FIRST, Second(d)];
    var r2 := Leading([FIRST, Second(d)]);
    assert forall x :: x in r2.prs ==> x == 1;
    assert BcastAppend(r2, NewStore()).value.msgs == {};
  }

  /** Two terms in one: the run elects the node, proposes `d`, crashes, elects it again and proposes `e`. */
  function TwoReigns(d: nat, e: nat): seq<Cluster> {
    [Holding(Started()), Holding(Leading([FIRST])), Holding(Leading([FIRST, Second(d)])),
     Holding(Started()), Holding(Leading([FIRST])), Holding(Leading([FIRST, Second(e)]))]
  }

  lemma {:induction false} StepsAlone(d: nat)
    ensures NextAt(Holding(Started()), 1, Request(MsgHup(0, 0, 0)), Holding(Leading([FIRST])))
    ensures NextAt(Holding(Leading([FIRST])), 1, Request(MsgPropose(0, 0, 0, [Entry(EntryNormal, 0, 0, [d])])),
                   Holding(Leading([FIRST, Second(d)])))
    ensures NextAt(Holding(Leading([FIRST, Second(d)])), 1, Restart(0), Holding(Started()))
  {
    hide Step, NewRaft;
    ElectAlone();
    ProposeAlone(d);
    StartAlone();
  }

  /** For every two proposals there is a run of a single node in which they have the same index and term, and
      both are counted as committed. */
  lemma {:induction false} SingleNodeReusesTerm(d: nat, e: nat)
    requires d != e
    ensures var run := TwoReigns(d, e);
            && Run(run) && |run[0].ids| == 1
            && Fragment(run[2], [FIRST, Second(d)]) && Fragment(run[5], [FIRST, Second(e)])
            && run[2].peers[1].rn.raft.log.entries[1] == Second(d) && Second(d).index <= run[2].peers[1].rn.raft.log.committed
            && run[5].peers[1].rn.raft.log.entries[1] == Second(e) && Second(e).index <= run[5].peers[1].rn.raft.log.committed
            && Second(d).index == Second(e).index && Second(d).term == Second(e).term && Second(d) != Second(e)
  {
    hide Run;
    var run := TwoReigns(d, e);
    RunAlone(d, e);
    assert run[2].peers[1].rn.raft.log.entries == [FIRST, Second(d)];
    assert run[5].peers[1].rn.raft.log.entries == [FIRST, Second(e)];
    assert 1 in run[2].peers && 1 in run[5].peers;
    assert Second(d).data[0] != Second(e).data[0];
  }

  lemma {:induction false} RunAlone(d: nat, e: nat)
    ensures Run(TwoReigns(d, e))
  {
    hide NextAt, NewRaft;
    var run := TwoReigns(d, e);
    StepsAlone(d);
    StepsAlone(e);
    StartAlone();
    assert Fresh({1}, 1) == Done(run[0].peers[1]);
    forall i | 0 <= i < |run| - 1
      ensures Next(run[i], run[i + 1])
    {
      assert i == 0 || i == 1 || i == 2 || i == 3 || i == 4;
    }
  }
}
