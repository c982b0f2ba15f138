/** ORDER BY ... LIMIT by a bounded max-heap, and why its output is a slice of the sorted input. */
module TopNSpec {

  /** One sort key: how to compare two rows by it, and whether the order is reversed. */
  datatype ByItem<!Row> = ByItem(cmp: (Row, Row) -> int, desc: bool)

  /** Comparison by all keys in turn: negative, zero or positive. */
  function Compare<Row>(items: seq<ByItem<Row>>, a: Row, b: Row): int {
    if items == [] then 0
    else
      var c := if items[0].desc then -items[0].cmp(a, b) else items[0].cmp(a, b);
      if c != 0 then c else Compare(items[1..], a, b)
  }

  /** Row `a` may come before row `b`. */
  predicate Le<Row>(items: seq<ByItem<Row>>, a: Row, b: Row) {
    Compare(items, a, b) <= 0
  }

  /** A comparison that orders all rows, up to ties. */
  ghost predicate Orders<Row(!new)>(cmp: (Row, Row) -> int) {
    && (forall a, b :: cmp(a, b) < 0 <==> cmp(b, a) > 0)
    && (forall a, b, c :: cmp(a, b) <= 0 && cmp(b, c) <= 0 ==> cmp(a, c) <= 0)
  }

  ghost predicate Lawful<Row(!new)>(items: seq<ByItem<Row>>) {
    forall i :: 0 <= i < |items| ==> Orders(items[i].cmp)
  }

  // ------------------------------------------------------------------ what ORDER BY asks for

  /** The rows tie on the first `k` keys. */
  ghost predicate Tie<Row>(items: seq<ByItem<Row>>, a: Row, b: Row, k: nat)
    requires k <= |items|
  {
    forall j :: 0 <= j < k ==> items[j].cmp(a, b) == 0
  }

  /** ORDER BY puts `a` before `b`: on the first key on which they differ, `a` has the smaller value, or the greater
      one if the key is descending. */
  ghost predicate Before<Row>(items: seq<ByItem<Row>>, a: Row, b: Row) {
    exists k :: 0 <= k < |items| && Tie(items, a, b, k) && if items[k].desc then items[k].cmp(a, b) > 0 else items[k].cmp(a, b) < 0
  }

  /** ORDER BY puts `b` before `a`, read off the same comparisons. */
  ghost predicate After<Row>(items: seq<ByItem<Row>>, a: Row, b: Row) {
    exists k :: 0 <= k < |items| && Tie(items, a, b, k) && if items[k].desc then items[k].cmp(a, b) < 0 else items[k].cmp(a, b) > 0
  }

  /** No row comes after a row that ORDER BY puts behind it. */
  ghost predicate InOrder<Row>(items: seq<ByItem<Row>>, s: seq<Row>) {
    forall i, j :: 0 <= i < j < |s| ==> !Before(items, s[j], s[i])
  }

  lemma {:induction false} TieMore<Row>(items: seq<ByItem<Row>>, a: Row, b: Row, k: nat)
    requires items != [] && k < |items|
    ensures Tie(items, a, b, k + 1) <==> items[0].cmp(a, b) == 0 && Tie(items[1..], a, b, k)
  {
    if items[0].cmp(a, b) == 0 && Tie(items[1..], a, b, k) {
      forall j | 0 <= j < k + 1
        ensures items[j].cmp(a, b) == 0
      {
        if j > 0 {
          assert items[1..][j - 1] == items[j];
        }
      }
    }
    if Tie(items, a, b, k + 1) {
      forall j | 0 <= j < k
        ensures items[1..][j].cmp(a, b) == 0
      {
        assert items[1..][j] == items[j + 1];
      }
    }
  }

  /** The sign of the comparison says which row comes first. */
  lemma {:induction false} CompareMeans<Row(!new)>(items: seq<ByItem<Row>>, a: Row, b: Row)
    ensures Compare(items, a, b) < 0 <==> Before(items, a, b)
    ensures Compare(items, a, b) > 0 <==> After(items, a, b)
    decreases |items|
  {
    if items != [] {
      var rest := items[1..];
      CompareMeans(rest, a, b);
      assert Tie(items, a, b, 0);
      forall k | 0 <= k < |rest|
        ensures rest[k] == items[k + 1]
        ensures Tie(items, a, b, k + 1) <==> items[0].cmp(a, b) == 0 && Tie(rest, a, b, k)
      {
        TieMore(items, a, b, k);
      }
      if items[0].cmp(a, b) == 0 {
        FirstTies(items, a, b);
      } else {
        FirstDecides(items, a, b);
      }
    }
  }

  lemma {:induction false} FirstDecides<Row(!new)>(items: seq<ByItem<Row>>, a: Row, b: Row)
    requires items != [] && items[0].cmp(a, b) != 0
    ensures Before(items, a, b) <==> if items[0].desc then items[0].cmp(a, b) > 0 else items[0].cmp(a, b) < 0
    ensures After(items, a, b) <==> if items[0].desc then items[0].cmp(a, b) < 0 else items[0].cmp(a, b) > 0
  {
    assert Tie(items, a, b, 0);
    assert forall k :: 0 < k < |items| ==> !Tie(items, a, b, k);
  }

  lemma {:induction false} FirstTies<Row(!new)>(items: seq<ByItem<Row>>, a: Row, b: Row)
    requires items != [] && items[0].cmp(a, b) == 0
    ensures Before(items, a, b) <==> Before(items[1..], a, b)
    ensures After(items, a, b) <==> After(items[1..], a, b)
  {
    var rest := items[1..];
    forall k | 0 <= k < |rest|
      ensures rest[k] == items[k + 1] && (Tie(items, a, b, k + 1) <==> Tie(rest, a, b, k))
    {
      TieMore(items, a, b, k);
    }
    hide Tie;
    if Before(items, a, b) {
      var k :| 0 <= k < |items| && Tie(items, a, b, k) && if items[k].desc then items[k].cmp(a, b) > 0 else items[k].cmp(a, b) < 0;
      assert Tie(items, a, b, k - 1 + 1) && rest[k - 1] == items[k - 1 + 1];
    }
    if Before(rest, a, b) {
      var k :| 0 <= k < |rest| && Tie(rest, a, b, k) && if rest[k].desc then rest[k].cmp(a, b) > 0 else rest[k].cmp(a, b) < 0;
      assert Tie(items, a, b, k + 1);
    }
    if After(items, a, b) {
      var k :| 0 <= k < |items| && Tie(items, a, b, k) && if items[k].desc then items[k].cmp(a, b) < 0 else items[k].cmp(a, b) > 0;
      assert Tie(items, a, b, k - 1 + 1) && rest[k - 1] == items[k - 1 + 1];
    }
    if After(rest, a, b) {
      var k :| 0 <= k < |rest| && Tie(rest, a, b, k) && if rest[k].desc then rest[k].cmp(a, b) < 0 else rest[k].cmp(a, b) > 0;
      assert Tie(items, a, b, k + 1);
    }
  }

  /** Sorted by the comparison is the same as in the order that ORDER BY asks for. */
  lemma {:induction false} SortedIsInOrder<Row(!new)>(items: seq<ByItem<Row>>, s: seq<Row>)
    requires Lawful(items)
    ensures Sorted(items, s) <==> InOrder(items, s)
  {
    forall i, j | 0 <= i < j < |s|
      ensures Le(items, s[i], s[j]) <==> !Before(items, s[j], s[i])
    {
      CompareMeans(items, s[j], s[i]);
      CompareFlips(items, s[j], s[i]);
    }
  }

  // ------------------------------------------------------------------ the comparison is an order

  lemma {:induction false} CompareFlips<Row(!new)>(items: seq<ByItem<Row>>, a: Row, b: Row)
    requires Lawful(items)
    ensures Compare(items, a, b) < 0 <==> Compare(items, b, a) > 0
    decreases |items|
  {
    if items != [] {
      assert Orders(items[0].cmp);
      assert items[0].cmp(b, a) < 0 <==> items[0].cmp(a, b) > 0;
      CompareFlips(items[1..], a, b);
    }
  }

  /** Lexicographic comparison, with any mix of directions, is transitive. */
  lemma {:induction false} CompareTransitive<Row(!new)>(items: seq<ByItem<Row>>, a: Row, b: Row, c: Row)
    requires Lawful(items) && Le(items, a, b) && Le(items, b, c)
    ensures Le(items, a, c)
    decreases |items|
  {
    if items != [] {
      var f := items[0].cmp;
      assert Orders(f);
      KeyChain(f, a, b, c);
      KeyChain(f, c, b, a);
      if f(a, b) == 0 && f(b, c) == 0 {
        CompareTransitive(items[1..], a, b, c);
      }
    }
  }

  lemma {:induction false} KeyChain<Row(!new)>(f: (Row, Row) -> int, a: Row, b: Row, c: Row)
    requires Orders(f)
    ensures f(a, b) <= 0 && f(b, c) <= 0 ==> f(a, c) <= 0 && (f(a, c) == 0 ==> f(a, b) == 0 && f(b, c) == 0)
    ensures f(a, b) < 0 <==> f(b, a) > 0
    ensures f(b, c) < 0 <==> f(c, b) > 0
    ensures f(a, c) < 0 <==> f(c, a) > 0
    ensures f(a, b) > 0 <==> f(b, a) < 0
    ensures f(b, c) > 0 <==> f(c, b) < 0
    ensures f(a, c) > 0 <==> f(c, a) < 0
  {
    if f(a, b) <= 0 && f(b, c) <= 0 && f(a, c) == 0 {
      assert f(c, a) <= 0;
      assert f(b, a) <= 0;
      assert f(c, b) <= 0;
    }
  }

  lemma {:induction false} LeTotal<Row(!new)>(items: seq<ByItem<Row>>, a: Row, b: Row)
    requires Lawful(items)
    ensures Le(items, a, b) || Le(items, b, a)
  {
    CompareFlips(items, a, b);
    CompareFlips(items, b, a);
  }

  // ------------------------------------------------------------------ arrangements of rows

  ghost predicate Sorted<Row>(items: seq<ByItem<Row>>, s: seq<Row>) {
    forall i, j :: 0 <= i < j < |s| ==> Le(items, s[i], s[j])
  }

  ghost predicate NoneAfter<Row>(items: seq<ByItem<Row>>, kept: seq<Row>, dropped: seq<Row>) {
    forall i, j :: 0 <= i < |kept| && 0 <= j < |dropped| ==> Le(items, kept[i], dropped[j])
  }

  function Swap<Row>(s: seq<Row>, i: nat, j: nat): seq<Row>
    requires i < |s| && j < |s|
  {
    s[i := s[j]][j := s[i]]
  }

  lemma {:induction false} SwapKeeps<Row>(s: seq<Row>, i: nat, j: nat)
    requires i < |s| && j < |s|
    ensures multiset(Swap(s, i, j)) == multiset(s)
  {
    assert s == s[..i] + [s[i]] + s[i + 1..];
    assert s == s[..j] + [s[j]] + s[j + 1..];
  }

  /** Both contain the same rows, each as often. */
  ghost predicate Same<Row>(a: seq<Row>, b: seq<Row>) { multiset(a) == multiset(b) }

  lemma {:induction false} SameMembers<Row>(a: seq<Row>, b: seq<Row>, i: nat) returns (j: nat)
    requires Same(a, b) && i < |a|
    ensures j < |b| && b[j] == a[i]
  {
    assert a[i] in multiset(b);
    assert a[i] in b;
    j :| 0 <= j < |b| && b[j] == a[i];
  }

  lemma {:induction false} NoneAfterSame<Row>(items: seq<ByItem<Row>>, kept: seq<Row>, kept': seq<Row>, dropped: seq<Row>)
    requires NoneAfter(items, kept, dropped) && Same(kept', kept)
    ensures NoneAfter(items, kept', dropped)
  {
    forall i, j | 0 <= i < |kept'| && 0 <= j < |dropped|
      ensures Le(items, kept'[i], dropped[j])
    {
      var k := SameMembers(kept', kept, i);
    }
  }

  /** Some sorted arrangement of the rows. */
  lemma {:induction false} Arrange<Row(!new)>(items: seq<ByItem<Row>>, s: seq<Row>) returns (t: seq<Row>)
    requires Lawful(items)
    ensures Sorted(items, t) && Same(t, s)
    decreases |s|
  {
    if s == [] {
      t := [];
    } else {
      var last := s[|s| - 1];
      var front := Arrange(items, s[..|s| - 1]);
      assert s == s[..|s| - 1] + [last];
      var k := InsertAt(items, front, last);
      t := front[..k] + [last] + front[k..];
      assert front == front[..k] + front[k..];
    }
  }

  lemma {:induction false} InsertAt<Row(!new)>(items: seq<ByItem<Row>>, s: seq<Row>, x: Row) returns (k: nat)
    requires Lawful(items) && Sorted(items, s)
    ensures k <= |s| && Sorted(items, s[..k] + [x] + s[k..])
    decreases |s|
  {
    if s == [] || Le(items, s[|s| - 1], x) {
      k := |s|;
      var t := s[..k] + [x] + s[k..];
      forall i | 0 <= i < |s|
        ensures Le(items, s[i], x)
      {
        if i < |s| - 1 {
          CompareTransitive(items, s[i], s[|s| - 1], x);
        }
      }
    } else {
      var last := s[|s| - 1];
      var front := s[..|s| - 1];
      k := InsertAt(items, front, x);
      LeTotal(items, last, x);
      var t := front[..k] + [x] + front[k..];
      assert s[..k] + [x] + s[k..] == t + [last];
      assert forall i :: 0 <= i < |front| ==> Le(items, front[i], last);
    }
  }

  /** What the bounded heap has computed: if nothing dropped comes before anything kept, the kept rows in
      order are the beginning of a sorted arrangement of the whole input. */
  lemma {:induction false} KeptIsPrefix<Row(!new)>(items: seq<ByItem<Row>>, kept: seq<Row>, dropped: seq<Row>, input: seq<Row>)
    returns (all: seq<Row>)
    requires Lawful(items) && Sorted(items, kept) && NoneAfter(items, kept, dropped) && Same(kept + dropped, input)
    ensures Sorted(items, all) && Same(all, input) && |kept| <= |all| && all[..|kept|] == kept
  {
    var rest := Arrange(items, dropped);
    all := kept + rest;
    forall i, j | 0 <= i < j < |all|
      ensures Le(items, all[i], all[j])
    {
      if i < |kept| <= j {
        var k := SameMembers(rest, dropped, j - |kept|);
      }
    }
    assert multiset(all) == multiset(kept) + multiset(rest);
    assert multiset(kept + dropped) == multiset(kept) + multiset(dropped);
  }

  // ------------------------------------------------------------------ heaps

  function Parent(k: nat): (p: nat)
    requires k > 0
    ensures p < k && (k == 2 * p + 1 || k == 2 * p + 2)
  {
    (k - 1) / 2
  }

  /** Row `k` of the heap is not greater than its parent. */
  ghost predicate Ranked<Row>(items: seq<ByItem<Row>>, h: seq<Row>, k: nat)
    requires 0 < k < |h|
  {
    Le(items, h[k], h[Parent(k)])
  }

  /** Among the first `n` rows, no child of a node from `lo` on is greater than its parent. */
  ghost predicate HeapFrom<Row>(items: seq<ByItem<Row>>, h: seq<Row>, n: nat, lo: nat) {
    n <= |h| && forall k :: 0 < k < n && Parent(k) >= lo ==> Ranked(items, h, k)
  }

  /** The root of a heap is a greatest row. */
  lemma {:induction false} RootIsGreatest<Row(!new)>(items: seq<ByItem<Row>>, h: seq<Row>, n: nat, k: nat)
    requires Lawful(items) && HeapFrom(items, h, n, 0) && k < n
    ensures Le(items, h[k], h[0])
    decreases k
  {
    if k == 0 {
      LeTotal(items, h[0], h[0]);
    } else {
      assert Ranked(items, h, k);
      RootIsGreatest(items, h, n, Parent(k));
      CompareTransitive(items, h[k], h[Parent(k)], h[0]);
    }
  }

  /** The children of node `i`, among the first `n` rows, are not greater than `x`. */
  ghost predicate ChildrenLe<Row>(items: seq<ByItem<Row>>, h: seq<Row>, n: nat, i: nat, x: Row)
    requires n <= |h|
  {
    (2 * i + 1 < n ==> Le(items, h[2 * i + 1], x)) && (2 * i + 2 < n ==> Le(items, h[2 * i + 2], x))
  }

  /** While a row sinks from `lo`, the heap holds except below its position `i`, whose children already
      respect its parent. */
  ghost predicate Sinking<Row>(items: seq<ByItem<Row>>, h: seq<Row>, n: nat, lo: nat, i: nat) {
    && lo <= i < n <= |h|
    && (forall k :: 0 < k < n && Parent(k) >= lo && Parent(k) != i ==> Ranked(items, h, k))
    && (i > 0 && Parent(i) >= lo ==> ChildrenLe(items, h, n, i, h[Parent(i)]))
  }

  lemma {:induction false} SinkStep<Row(!new)>(items: seq<ByItem<Row>>, h: seq<Row>, n: nat, lo: nat, i: nat, j: nat)
    requires Sinking(items, h, n, lo, i) && (j == 2 * i + 1 || j == 2 * i + 2) && j < n
    requires Le(items, h[i], h[j]) && ChildrenLe(items, h, n, i, h[j])
    ensures Sinking(items, Swap(h, i, j), n, lo, j)
  {
    hide Le, Parent;
    var h' := Swap(h, i, j);
    forall k | 0 < k < n && Parent(k) >= lo && Parent(k) != j
      ensures Ranked(items, h', k)
    {
      SinkOne(items, h, n, lo, i, j, k);
    }
    assert 2 * j + 1 < n ==> Parent(2 * j + 1) == j && Ranked(items, h, 2 * j + 1);
    assert 2 * j + 2 < n ==> Parent(2 * j + 2) == j && Ranked(items, h, 2 * j + 2);
  }

  lemma {:induction false} SinkOne<Row(!new)>(items: seq<ByItem<Row>>, h: seq<Row>, n: nat, lo: nat, i: nat, j: nat, k: nat)
    requires Sinking(items, h, n, lo, i) && (j == 2 * i + 1 || j == 2 * i + 2) && j < n
    requires Le(items, h[i], h[j]) && ChildrenLe(items, h, n, i, h[j])
    requires 0 < k < n && Parent(k) >= lo && Parent(k) != j
    ensures Ranked(items, Swap(h, i, j), k)
  {
    hide Le, Parent;
    if Parent(k) != i {
      assert Ranked(items, h, k);
    }
  }

  lemma {:induction false} SinkEnds<Row(!new)>(items: seq<ByItem<Row>>, h: seq<Row>, n: nat, lo: nat, i: nat)
    requires Sinking(items, h, n, lo, i) && ChildrenLe(items, h, n, i, h[i])
    ensures HeapFrom(items, h, n, lo)
  {
    forall k | 0 < k < n && Parent(k) >= lo
      ensures Ranked(items, h, k)
    {
      if Parent(k) == i {
        assert k == 2 * i + 1 || k == 2 * i + 2;
      }
    }
  }

  /** Replacing the root leaves a heap below it. */
  lemma {:induction false} RootReplaced<Row(!new)>(items: seq<ByItem<Row>>, h: seq<Row>, n: nat, x: Row)
    requires HeapFrom(items, h, n, 0) && 0 < n
    ensures HeapFrom(items, h[0 := x], n, 1)
  {
    var h' := h[0 := x];
    forall k | 0 < k < n && Parent(k) >= 1
      ensures Ranked(items, h', k)
    {
      assert Ranked(items, h, k);
    }
  }

  // ------------------------------------------------------------------ what is kept and what is dropped

  /** The kept rows and the dropped ones are the input, and nothing dropped comes before anything kept. */
  ghost predicate Split<Row>(items: seq<ByItem<Row>>, kept: seq<Row>, dropped: seq<Row>, input: seq<Row>) {
    Same(kept + dropped, input) && NoneAfter(items, kept, dropped)
  }

  lemma {:induction false} SplitSame<Row>(items: seq<ByItem<Row>>, kept: seq<Row>, kept': seq<Row>, dropped: seq<Row>, input: seq<Row>)
    requires Split(items, kept, dropped, input) && Same(kept', kept)
    ensures Split(items, kept', dropped, input)
  {
    NoneAfterSame(items, kept, kept', dropped);
    assert multiset(kept' + dropped) == multiset(kept') + multiset(dropped);
    assert multiset(kept + dropped) == multiset(kept) + multiset(dropped);
  }

  /** A new row that is not before the greatest kept one is dropped. */
  lemma {:induction false} DropNew<Row(!new)>(items: seq<ByItem<Row>>, h: seq<Row>, dropped: seq<Row>, input: seq<Row>, x: Row)
    requires Lawful(items) && h != [] && HeapFrom(items, h, |h|, 0) && Split(items, h, dropped, input) && Le(items, h[0], x)
    ensures Split(items, h, dropped + [x], input + [x])
  {
    forall i | 0 <= i < |h|
      ensures Le(items, h[i], x)
    {
      RootIsGreatest(items, h, |h|, i);
      CompareTransitive(items, h[i], h[0], x);
    }
    assert h + (dropped + [x]) == (h + dropped) + [x];
  }

  /** A new row that comes before the greatest kept one takes its place. */
  lemma {:induction false} DropRoot<Row(!new)>(items: seq<ByItem<Row>>, h: seq<Row>, dropped: seq<Row>, input: seq<Row>, x: Row)
    requires Lawful(items) && h != [] && HeapFrom(items, h, |h|, 0) && Split(items, h, dropped, input) && Le(items, x, h[0])
    ensures Split(items, h[0 := x], dropped + [h[0]], input + [x])
  {
    var h' := h[0 := x];
    forall i, j | 0 <= i < |h'| && 0 <= j < |dropped + [h[0]]|
      ensures Le(items, h'[i], (dropped + [h[0]])[j])
    {
      RootIsGreatest(items, h, |h|, i);
      if i == 0 && j < |dropped| {
        CompareTransitive(items, x, h[0], dropped[j]);
      }
    }
    assert h == [h[0]] + h[1..] && h' == [x] + h[1..];
    assert multiset(h' + (dropped + [h[0]])) == multiset(h') + multiset(dropped) + multiset{h[0]};
    assert multiset(h + dropped) == multiset(h) + multiset(dropped);
    assert multiset(input + [x]) == multiset(input) + multiset{x};
  }

  /** Taking the root out of a heap drops a greatest row. `h` ends with the former root. */
  lemma {:induction false} PopNoneAfter<Row(!new)>(items: seq<ByItem<Row>>, h: seq<Row>, dropped: seq<Row>)
    requires h != [] && NoneAfter(items, h, dropped)
    requires forall i :: 0 <= i < |h| ==> Le(items, h[i], h[|h| - 1])
    ensures NoneAfter(items, h[..|h| - 1], dropped + [h[|h| - 1]])
  {
    hide Le;
  }

  lemma {:induction false} MoveLast<Row>(front: seq<Row>, last: Row, dropped: seq<Row>, input: seq<Row>)
    requires Same(front + [last] + dropped, input)
    ensures Same(front + (dropped + [last]), input)
  {
    assert multiset(front + [last] + dropped) == multiset(front + [last]) + multiset(dropped);
    assert multiset(front + [last]) == multiset(front) + multiset([last]);
    assert multiset(front + (dropped + [last])) == multiset(front) + multiset(dropped + [last]);
    assert multiset(dropped + [last]) == multiset(dropped) + multiset([last]);
  }

  lemma {:induction false} PopRoot<Row(!new)>(items: seq<ByItem<Row>>, h: seq<Row>, dropped: seq<Row>, input: seq<Row>)
    requires Lawful(items) && h != [] && Split(items, h, dropped, input)
    requires forall i :: 0 <= i < |h| ==> Le(items, h[i], h[|h| - 1])
    ensures Split(items, h[..|h| - 1], dropped + [h[|h| - 1]], input)
  {
    hide NoneAfter, Lawful, Le, Same;
    PopNoneAfter(items, h, dropped);
    assert h[..|h| - 1] + [h[|h| - 1]] == h;
    MoveLast(h[..|h| - 1], h[|h| - 1], dropped, input);
  }
}
