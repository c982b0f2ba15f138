/** The chained hash table of hash joins: entries live in growing slices and are linked by address. */
module HashTable {

  datatype RowPtr = RowPtr(chkIdx: nat, rowIdx: nat)

  datatype EntryAddr = EntryAddr(sliceIdx: nat, offset: nat)

  datatype Entry = Entry(ptr: RowPtr, next: EntryAddr)

  const NULL_ADDR: EntryAddr := EntryAddr(0, 0)
  const INITIAL_SLICE_LEN: nat := 64
  const MAX_SLICE_LEN: nat := 8 * 1024

  // ------------------------------------------------------------------ addresses as positions

  /** All entries in the order they were put. */
  ghost function Flat(slices: seq<seq<Entry>>): seq<Entry> {
    if slices == [] then [] else Flat(slices[..|slices| - 1]) + slices[|slices| - 1]
  }

  predicate ValidAddr(slices: seq<seq<Entry>>, a: EntryAddr) {
    a.sliceIdx < |slices| && a.offset < |slices[a.sliceIdx]|
  }

  ghost function Position(slices: seq<seq<Entry>>, a: EntryAddr): nat
    requires a.sliceIdx < |slices|
  {
    |Flat(slices[..a.sliceIdx])| + a.offset
  }

  lemma {:induction false} EntryAtPosition(slices: seq<seq<Entry>>, a: EntryAddr)
    requires ValidAddr(slices, a)
    ensures Position(slices, a) < |Flat(slices)|
    ensures Flat(slices)[Position(slices, a)] == slices[a.sliceIdx][a.offset]
    decreases |slices|
  {
    var last := |slices| - 1;
    if a.sliceIdx < last {
      EntryAtPosition(slices[..last], a);
      assert slices[..last][..a.sliceIdx] == slices[..a.sliceIdx];
    }
  }

  lemma {:induction false} FlatGrows(slices: seq<seq<Entry>>, k: nat)
    requires k <= |slices|
    ensures |Flat(slices[..k])| <= |Flat(slices)|
    decreases |slices|
  {
    if k == |slices| {
      assert slices[..k] == slices;
    } else {
      FlatGrows(slices[..|slices| - 1], k);
      assert slices[..|slices| - 1][..k] == slices[..k];
    }
  }

  /** Only the reserved first entry has position 0. */
  lemma {:induction false} PositionZero(slices: seq<seq<Entry>>, a: EntryAddr)
    requires ValidAddr(slices, a) && slices[0] != []
    ensures Position(slices, a) == 0 <==> a == NULL_ADDR
  {
    assert Flat(slices[..0]) == [];
    if a.sliceIdx > 0 {
      assert slices[..a.sliceIdx][..1] == [slices[0]];
      FlatGrows(slices[..a.sliceIdx], 1);
      assert [slices[0]][..0] == [];
      assert Flat([slices[0]]) == slices[0];
    }
  }

  class EntryStore {
    var slices: seq<seq<Entry>>
    var caps: seq<nat>

    ghost predicate Valid()
      reads this
    {
      && slices != [] && |caps| == |slices|
      && (forall i :: 0 <= i < |slices| ==> 1 <= caps[i] && |slices[i]| <= caps[i])
    }

    /** Reserves the first entry, so that the zero address can stand for "none". */
    constructor ()
      ensures Valid() && Flat(slices) == [Entry(RowPtr(0, 0), NULL_ADDR)] && slices[0] != []
    {
      slices := [[Entry(RowPtr(0, 0), NULL_ADDR)]];
      caps := [INITIAL_SLICE_LEN];
      new;
      assert slices[..0] == [];
    }

    /** Appends an entry, opening a new slice of twice the size when the last one is full. Addresses keep
        their position. */
    method Put(e: Entry) returns (addr: EntryAddr)
      requires Valid()
      modifies this
      ensures Valid()
      ensures Flat(slices) == old(Flat(slices)) + [e]
      ensures ValidAddr(slices, addr) && Position(slices, addr) == |old(Flat(slices))|
      ensures old(slices[0] != []) ==> slices[0] != []
      ensures forall a :: ValidAddr(old(slices), a) ==> ValidAddr(slices, a) && Position(slices, a) == Position(old(slices), a)
    {
      var sliceIdx := |slices| - 1;
      if |slices[sliceIdx]| == caps[sliceIdx] {
        var size := caps[sliceIdx] * 2;
        if size >= MAX_SLICE_LEN {
          size := MAX_SLICE_LEN;
        }
        OpenSlice(slices);
        slices := slices + [[]];
        caps := caps + [size];
        sliceIdx := sliceIdx + 1;
      }
      addr := EntryAddr(sliceIdx, |slices[sliceIdx]|);
      ExtendLast(slices, e);
      slices := slices[sliceIdx := slices[sliceIdx] + [e]];
    }

    method Get(addr: EntryAddr) returns (e: Entry)
      requires ValidAddr(slices, addr)
      ensures Position(slices, addr) < |Flat(slices)| && e == Flat(slices)[Position(slices, addr)]
    {
      EntryAtPosition(slices, addr);
      e := slices[addr.sliceIdx][addr.offset];
    }
  }

  lemma {:induction false} OpenSlice(slices: seq<seq<Entry>>)
    requires slices != []
    ensures Flat(slices + [[]]) == Flat(slices)
    ensures forall a :: ValidAddr(slices, a) ==>
              ValidAddr(slices + [[]], a) && Position(slices + [[]], a) == Position(slices, a)
  {
    assert (slices + [[]])[..|slices|] == slices;
    forall a | ValidAddr(slices, a)
      ensures Position(slices + [[]], a) == Position(slices, a)
    {
      assert (slices + [[]])[..a.sliceIdx] == slices[..a.sliceIdx];
    }
  }

  lemma {:induction false} ExtendLast(slices: seq<seq<Entry>>, e: Entry)
    requires slices != []
    ensures var last := |slices| - 1;
            var more := slices[last := slices[last] + [e]];
            && Flat(more) == Flat(slices) + [e]
            && Position(more, EntryAddr(last, |slices[last]|)) == |Flat(slices)|
            && forall a :: ValidAddr(slices, a) ==> ValidAddr(more, a) && Position(more, a) == Position(slices, a)
  {
    var last := |slices| - 1;
    var more := slices[last := slices[last] + [e]];
    assert more[..last] == slices[..last];
    forall a | ValidAddr(slices, a)
      ensures Position(more, a) == Position(slices, a)
    {
      assert more[..a.sliceIdx] == slices[..a.sliceIdx];
    }
  }

  // ------------------------------------------------------------------ the map

  /** Position of the last of the first `k` puts with hash `h`, counting from 1; 0 if there is none. */
  ghost function Prev(puts: seq<(nat, RowPtr)>, k: nat, h: nat): (p: nat)
    requires k <= |puts|
    ensures p <= k && (p > 0 ==> puts[p - 1].0 == h)
  {
    if k == 0 then 0 else if puts[k - 1].0 == h then k else Prev(puts, k - 1, h)
  }

  /** The row pointers put with hash `h`, in the order they were put. */
  ghost function Selected(puts: seq<(nat, RowPtr)>, h: nat): seq<RowPtr> {
    if puts == [] then []
    else
      var last := puts[|puts| - 1];
      Selected(puts[..|puts| - 1], h) + (if last.0 == h then [last.1] else [])
  }

  lemma {:induction false} SelectedUpToPrev(puts: seq<(nat, RowPtr)>, k: nat, h: nat)
    requires k <= |puts|
    ensures Selected(puts[..k], h) == Selected(puts[..Prev(puts, k, h)], h)
    decreases k
  {
    if k > 0 && puts[k - 1].0 != h {
      assert puts[..k][..k - 1] == puts[..k - 1];
      SelectedUpToPrev(puts, k - 1, h);
    }
  }

  lemma {:induction false} PrevSame(puts: seq<(nat, RowPtr)>, p: (nat, RowPtr), k: nat, h: nat)
    requires k <= |puts|
    ensures Prev(puts + [p], k, h) == Prev(puts, k, h)
    decreases k
  {
    if k > 0 && puts[k - 1].0 != h {
      PrevSame(puts, p, k - 1, h);
    }
  }

  ghost function Reversed(s: seq<RowPtr>): seq<RowPtr> {
    seq(|s|, i requires 0 <= i < |s| => s[|s| - 1 - i])
  }

  /** The entry of the k-th put leads to the previous put with the same hash. */
  ghost predicate Linked(slices: seq<seq<Entry>>, puts: seq<(nat, RowPtr)>, k: nat)
    requires 1 <= k <= |puts| && |Flat(slices)| == |puts| + 1
  {
    var e := Flat(slices)[k];
    && e.ptr == puts[k - 1].1
    && ValidAddr(slices, e.next)
    && Position(slices, e.next) == Prev(puts, k - 1, puts[k - 1].0)
  }

  /** The address of a bucket's head has the position of the last put with that hash. */
  ghost predicate Head(slices: seq<seq<Entry>>, puts: seq<(nat, RowPtr)>, h: nat, a: EntryAddr) {
    ValidAddr(slices, a) && Position(slices, a) == Prev(puts, |puts|, h)
  }

  function Bucket(table: map<nat, EntryAddr>, h: nat): EntryAddr {
    if h in table then table[h] else NULL_ADDR
  }

  /** Later puts extend the store without moving anything. */
  ghost predicate Extends(slices: seq<seq<Entry>>, more: seq<seq<Entry>>, e: Entry) {
    && Flat(more) == Flat(slices) + [e]
    && forall a :: ValidAddr(slices, a) ==> ValidAddr(more, a) && Position(more, a) == Position(slices, a)
  }

  lemma {:induction false} LinkedStays(slices: seq<seq<Entry>>, more: seq<seq<Entry>>, e: Entry, puts: seq<(nat, RowPtr)>, p: (nat, RowPtr), k: nat)
    requires Extends(slices, more, e) && 1 <= k <= |puts| && |Flat(slices)| == |puts| + 1 && Linked(slices, puts, k)
    ensures |Flat(more)| == |puts + [p]| + 1 && Linked(more, puts + [p], k)
  {
    hide Flat, Position, Prev;
    PrevSame(puts, p, k - 1, puts[k - 1].0);
    assert Flat(more)[k] == Flat(slices)[k];
    assert (puts + [p])[k - 1] == puts[k - 1];
  }

  lemma {:induction false} LinkedNew(slices: seq<seq<Entry>>, more: seq<seq<Entry>>, puts: seq<(nat, RowPtr)>, p: (nat, RowPtr), a: EntryAddr)
    requires Extends(slices, more, Entry(p.1, a)) && |Flat(slices)| == |puts| + 1 && Head(slices, puts, p.0, a)
    ensures |Flat(more)| == |puts + [p]| + 1 && Linked(more, puts + [p], |puts| + 1)
  {
    hide Flat, Position, Prev;
    PrevSame(puts, p, |puts|, p.0);
  }

  lemma {:induction false} HeadStays(slices: seq<seq<Entry>>, more: seq<seq<Entry>>, e: Entry, puts: seq<(nat, RowPtr)>, p: (nat, RowPtr), h: nat, a: EntryAddr)
    requires Extends(slices, more, e) && h != p.0 && Head(slices, puts, h, a)
    ensures Head(more, puts + [p], h, a)
  {
    hide Flat, Position;
    PrevSame(puts, p, |puts|, h);
  }

  class RowHashMap {
    const store: EntryStore
    var hashTable: map<nat, EntryAddr>
    var length: nat
    ghost var puts: seq<(nat, RowPtr)>

    ghost predicate Valid()
      reads this, store
    {
      && store.Valid() && store.slices[0] != []
      && length == |puts|
      && |Flat(store.slices)| == |puts| + 1
      && (forall k :: 1 <= k <= |puts| ==> Linked(store.slices, puts, k))
      && (forall h: nat :: Head(store.slices, puts, h, Bucket(hashTable, h)))
    }

    constructor ()
      ensures Valid() && puts == [] && fresh(store)
    {
      store := new EntryStore();
      hashTable := map[];
      length := 0;
      puts := [];
      new;
      assert Flat(store.slices[..0]) == [];
    }

    method Put(hashKey: nat, rowPtr: RowPtr)
      requires Valid()
      modifies this, store
      ensures Valid() && puts == old(puts) + [(hashKey, rowPtr)]
    {
      hide Flat, Position, Prev;
      var oldAddr := Bucket(hashTable, hashKey);
      ghost var slices0, puts0, p := store.slices, puts, (hashKey, rowPtr);
      assert Head(slices0, puts0, hashKey, oldAddr);
      var addr := store.Put(Entry(rowPtr, oldAddr));
      hashTable := hashTable[hashKey := addr];
      length := length + 1;
      puts := puts + [p];
      forall k | 1 <= k <= |puts|
        ensures Linked(store.slices, puts, k)
      {
        if k <= |puts0| {
          LinkedStays(slices0, store.slices, Entry(rowPtr, oldAddr), puts0, p, k);
        } else {
          LinkedNew(slices0, store.slices, puts0, p, oldAddr);
        }
      }
      forall h: nat
        ensures Head(store.slices, puts, h, Bucket(hashTable, h))
      {
        if h == hashKey {
          PrevLast(puts0, p);
        } else {
          assert Head(slices0, puts0, h, Bucket(old(hashTable), h));
          HeadStays(slices0, store.slices, Entry(rowPtr, oldAddr), puts0, p, h, Bucket(hashTable, h));
        }
      }
    }

    /** Walks the chain, which ends because positions fall, and reverses what it found. */
    method Get(hashKey: nat) returns (rowPtrs: seq<RowPtr>)
      requires Valid()
      ensures rowPtrs == Selected(puts, hashKey)
    {
      hide Flat, Position, Prev, Selected;
      rowPtrs := [];
      var addr := Bucket(hashTable, hashKey);
      assert Head(store.slices, puts, hashKey, addr);
      ghost var p := Prev(puts, |puts|, hashKey);
      ChainStart(puts, hashKey);
      while addr != NULL_ADDR
        invariant ValidAddr(store.slices, addr) && Position(store.slices, addr) == p <= |puts|
        invariant p > 0 ==> puts[p - 1].0 == hashKey
        invariant Selected(puts, hashKey) == Selected(puts[..p], hashKey) + Reversed(rowPtrs)
        decreases p
      {
        PositionZero(store.slices, addr);
        var e := store.Get(addr);
        assert Linked(store.slices, puts, p);
        ChainStep(puts, p, hashKey, rowPtrs);
        addr := e.next;
        rowPtrs := rowPtrs + [e.ptr];
        p := Prev(puts, p - 1, hashKey);
      }
      PositionZero(store.slices, addr);
      ChainEnd(puts, hashKey, rowPtrs);
      rowPtrs := ReverseInPlace(rowPtrs);
    }

    method Len() returns (n: nat)
      requires Valid()
      ensures n == |puts|
    {
      n := length;
    }
  }

  lemma {:induction false} PrevLast(puts: seq<(nat, RowPtr)>, p: (nat, RowPtr))
    ensures Prev(puts + [p], |puts| + 1, p.0) == |puts| + 1
  {
  }

  lemma {:induction false} ChainStart(puts: seq<(nat, RowPtr)>, h: nat)
    ensures Prev(puts, |puts|, h) <= |puts|
    ensures Selected(puts, h) == Selected(puts[..Prev(puts, |puts|, h)], h) + Reversed([])
  {
    SelectedUpToPrev(puts, |puts|, h);
    assert puts[..|puts|] == puts;
    assert Reversed([]) == [];
  }

  lemma {:induction false} ChainStep(puts: seq<(nat, RowPtr)>, p: nat, h: nat, found: seq<RowPtr>)
    requires 1 <= p <= |puts| && puts[p - 1].0 == h
    ensures Prev(puts, p - 1, h) < p
    ensures Selected(puts[..p], h) + Reversed(found) ==
              Selected(puts[..Prev(puts, p - 1, h)], h) + Reversed(found + [puts[p - 1].1])
  {
    assert puts[..p][..p - 1] == puts[..p - 1];
    SelectedUpToPrev(puts, p - 1, h);
    var front, ptr := Selected(puts[..Prev(puts, p - 1, h)], h), puts[p - 1].1;
    assert Selected(puts[..p], h) == front + [ptr];
    assert Reversed(found + [ptr]) == [ptr] + Reversed(found);
    assert front + [ptr] + Reversed(found) == front + ([ptr] + Reversed(found));
  }

  lemma {:induction false} ChainEnd(puts: seq<(nat, RowPtr)>, h: nat, found: seq<RowPtr>)
    ensures Selected(puts[..0], h) + Reversed(found) == Reversed(found)
  {
    assert puts[..0] == [];
  }

  method ReverseInPlace(s: seq<RowPtr>) returns (r: seq<RowPtr>)
    ensures r == Reversed(s)
  {
    r := s;
    var i := 0;
    while i < |r| / 2
      invariant |r| == |s| && 0 <= i <= |r| / 2
      invariant forall k :: 0 <= k < i || |s| - i <= k < |s| ==> r[k] == s[|s| - 1 - k]
      invariant forall k :: i <= k < |s| - i ==> r[k] == s[k]
    {
      var j := |r| - 1 - i;
      r := r[i := r[j]][j := r[i]];
      i := i + 1;
    }
  }
}
