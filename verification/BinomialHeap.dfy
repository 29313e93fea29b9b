/** Priority queues as binomial heaps (src/core/lwt_pqueue.ml).  The functor argument is the
    comparison function `cmp`; elements that compare equal need not be equal. */
module BinomialHeap {

  import opened Common

  datatype Tree<T> = Node(root: T, rank: nat, children: seq<Tree<T>>)

  type Heap<T> = seq<Tree<T>>

  ghost predicate TotalOrder<T(!new)>(cmp: (T, T) -> int) {
    && (forall x, y :: cmp(x, y) <= 0 <==> cmp(y, x) >= 0)
    && (forall x, y, z :: cmp(x, y) <= 0 && cmp(y, z) <= 0 ==> cmp(x, z) <= 0)
  }

  // ------------------------------------------------------------------------------------------
  // The operations
  // ------------------------------------------------------------------------------------------

  function Link<T>(cmp: (T, T) -> int, t1: Tree<T>, t2: Tree<T>): Tree<T> {
    if cmp(t1.root, t2.root) <= 0 then Node(t1.root, t1.rank + 1, [t2] + t1.children)
    else Node(t2.root, t2.rank + 1, [t1] + t2.children)
  }

  function Ins<T>(cmp: (T, T) -> int, t: Tree<T>, ts: Heap<T>): Heap<T>
    decreases |ts|
  {
    if ts == [] then [t]
    else if t.rank < ts[0].rank then [t] + ts
    else Ins(cmp, Link(cmp, t, ts[0]), ts[1..])
  }

  function Add<T>(cmp: (T, T) -> int, x: T, ts: Heap<T>): Heap<T> {
    Ins(cmp, Node(x, 0, []), ts)
  }

  function Union<T>(cmp: (T, T) -> int, ts: Heap<T>, us: Heap<T>): Heap<T>
    decreases |ts| + |us|
  {
    if ts == [] then us
    else if us == [] then ts
    else if ts[0].rank < us[0].rank then [ts[0]] + Union(cmp, ts[1..], us)
    else if us[0].rank < ts[0].rank then [us[0]] + Union(cmp, ts, us[1..])
    else Ins(cmp, Link(cmp, ts[0], us[0]), Union(cmp, ts[1..], us[1..]))
  }

  /** None stands for Not_found. */
  function FindMin<T>(cmp: (T, T) -> int, ts: Heap<T>): Option<T> {
    if ts == [] then None
    else if |ts| == 1 then Some(ts[0].root)
    else
      var x := FindMin(cmp, ts[1..]);
      if x.Some? && cmp(ts[0].root, x.value) < 0 then Some(ts[0].root) else x
  }

  function GetMin<T>(cmp: (T, T) -> int, ts: Heap<T>): (Tree<T>, Heap<T>)
    requires ts != []
  {
    if |ts| == 1 then (ts[0], [])
    else
      var (t, rest) := GetMin(cmp, ts[1..]);
      if cmp(ts[0].root, t.root) < 0 then (ts[0], ts[1..]) else (t, [ts[0]] + rest)
  }

  /** None stands for Not_found. */
  function RemoveMin<T>(cmp: (T, T) -> int, ts: Heap<T>): Option<Heap<T>> {
    if ts == [] then None
    else
      var (t, rest) := GetMin(cmp, ts);
      Some(Union(cmp, Reverse(t.children), rest))
  }

  function TreeSize<T>(t: Tree<T>): nat
    decreases t, 1
  {
    1 + Size(t.children)
  }

  function Size<T>(ts: Heap<T>): nat
    decreases ts, 0
  {
    if ts == [] then 0 else TreeSize(ts[0]) + Size(ts[1..])
  }

  // ------------------------------------------------------------------------------------------
  // Contents and shape
  // ------------------------------------------------------------------------------------------

  ghost function TreeElements<T>(t: Tree<T>): multiset<T>
    decreases t, 1
  {
    multiset{t.root} + Elements(t.children)
  }

  ghost function Elements<T>(ts: Heap<T>): multiset<T>
    decreases ts, 0
  {
    if ts == [] then multiset{} else TreeElements(ts[0]) + Elements(ts[1..])
  }

  lemma ElementsUnfold<T>(ts: Heap<T>)
    ensures Elements(ts) == if ts == [] then multiset{} else TreeElements(ts[0]) + Elements(ts[1..])
  {
  }

  /** A tree of rank r has children of ranks r-1, ..., 0. */
  ghost predicate Binomial<T>(t: Tree<T>)
    decreases t
  {
    && |t.children| == t.rank
    && forall i :: 0 <= i < |t.children| ==> t.children[i].rank == t.rank - 1 - i && Binomial(t.children[i])
  }

  ghost predicate Ordered<T>(cmp: (T, T) -> int, t: Tree<T>)
    decreases t
  {
    forall i :: 0 <= i < |t.children| ==> cmp(t.root, t.children[i].root) <= 0 && Ordered(cmp, t.children[i])
  }

  ghost predicate Increasing<T>(ts: Heap<T>) {
    forall i, k :: 0 <= i < k < |ts| ==> ts[i].rank < ts[k].rank
  }

  ghost predicate Good<T>(cmp: (T, T) -> int, t: Tree<T>) { Binomial(t) && Ordered(cmp, t) }

  /** What a priority queue keeps. */
  ghost predicate Valid<T>(cmp: (T, T) -> int, ts: Heap<T>) {
    && Increasing(ts)
    && forall i :: 0 <= i < |ts| ==> Good(cmp, ts[i])
  }

  // ------------------------------------------------------------------------------------------
  // Every operation keeps the shape and conserves the contents
  // ------------------------------------------------------------------------------------------

  lemma LinkGood<T(!new)>(cmp: (T, T) -> int, t1: Tree<T>, t2: Tree<T>)
    requires TotalOrder(cmp) && Good(cmp, t1) && Good(cmp, t2) && t1.rank == t2.rank
    ensures Good(cmp, Link(cmp, t1, t2)) && Link(cmp, t1, t2).rank == t1.rank + 1
    ensures TreeElements(Link(cmp, t1, t2)) == TreeElements(t1) + TreeElements(t2)
  {
    var (a, b) := if cmp(t1.root, t2.root) <= 0 then (t1, t2) else (t2, t1);
    var t := Link(cmp, t1, t2);
    assert t == Node(a.root, a.rank + 1, [b] + a.children);
    assert t.children[1..] == a.children;
    forall i | 0 <= i < |t.children|
      ensures t.children[i].rank == t.rank - 1 - i && Binomial(t.children[i])
      ensures cmp(t.root, t.children[i].root) <= 0 && Ordered(cmp, t.children[i])
    {
      if i > 0 {
        assert t.children[i] == a.children[i - 1];
      }
    }
  }

  lemma {:induction false} InsValid<T(!new)>(cmp: (T, T) -> int, t: Tree<T>, ts: Heap<T>)
    requires TotalOrder(cmp) && Good(cmp, t) && Valid(cmp, ts) && (ts != [] ==> t.rank <= ts[0].rank)
    ensures Valid(cmp, Ins(cmp, t, ts))
    ensures |Ins(cmp, t, ts)| > 0 && Ins(cmp, t, ts)[0].rank >= t.rank
    ensures Elements(Ins(cmp, t, ts)) == TreeElements(t) + Elements(ts)
    decreases |ts|
  {
    if ts == [] {
      assert [t][1..] == [];
    } else if t.rank < ts[0].rank {
      assert ([t] + ts)[1..] == ts;
    } else {
      LinkGood(cmp, t, ts[0]);
      InsValid(cmp, Link(cmp, t, ts[0]), ts[1..]);
    }
  }

  ghost predicate AllFrom<T>(ts: Heap<T>, n: nat) { ts != [] ==> ts[0].rank >= n }

  lemma ConsValid<T>(cmp: (T, T) -> int, t: Tree<T>, ts: Heap<T>)
    requires Good(cmp, t) && Valid(cmp, ts) && AllFrom(ts, t.rank + 1)
    ensures Valid(cmp, [t] + ts) && Elements([t] + ts) == TreeElements(t) + Elements(ts)
  {
    assert ([t] + ts)[1..] == ts;
  }

  lemma {:induction false} UnionValid<T(!new)>(cmp: (T, T) -> int, ts: Heap<T>, us: Heap<T>, n: nat)
    requires TotalOrder(cmp) && Valid(cmp, ts) && Valid(cmp, us) && AllFrom(ts, n) && AllFrom(us, n)
    ensures Valid(cmp, Union(cmp, ts, us)) && AllFrom(Union(cmp, ts, us), n)
    ensures Elements(Union(cmp, ts, us)) == Elements(ts) + Elements(us)
    decreases |ts| + |us|
  {
    hide Good, TotalOrder, Elements, TreeElements;
    ElementsUnfold(ts);
    ElementsUnfold(us);
    if ts == [] || us == [] {
    } else if ts[0].rank < us[0].rank {
      UnionValid(cmp, ts[1..], us, ts[0].rank + 1);
      ConsValid(cmp, ts[0], Union(cmp, ts[1..], us));
    } else if us[0].rank < ts[0].rank {
      UnionValid(cmp, ts, us[1..], us[0].rank + 1);
      ConsValid(cmp, us[0], Union(cmp, ts, us[1..]));
    } else {
      UnionValid(cmp, ts[1..], us[1..], ts[0].rank + 1);
      LinkGood(cmp, ts[0], us[0]);
      InsValid(cmp, Link(cmp, ts[0], us[0]), Union(cmp, ts[1..], us[1..]));
    }
  }

  lemma AddValid<T(!new)>(cmp: (T, T) -> int, x: T, ts: Heap<T>)
    requires TotalOrder(cmp) && Valid(cmp, ts)
    ensures Valid(cmp, Add(cmp, x, ts)) && Elements(Add(cmp, x, ts)) == Elements(ts) + multiset{x}
  {
    InsValid(cmp, Node(x, 0, []), ts);
  }

  // ------------------------------------------------------------------------------------------
  // The minimum
  // ------------------------------------------------------------------------------------------

  ghost predicate IsMin<T>(cmp: (T, T) -> int, x: T, e: multiset<T>) {
    x in e && forall y :: y in e ==> cmp(x, y) <= 0
  }

  lemma {:induction false} RootIsMin<T(!new)>(cmp: (T, T) -> int, t: Tree<T>)
    requires TotalOrder(cmp) && Ordered(cmp, t)
    ensures IsMin(cmp, t.root, TreeElements(t))
    decreases t, 1
  {
    BelowChildren(cmp, t.root, t.children);
  }

  lemma {:induction false} BelowChildren<T(!new)>(cmp: (T, T) -> int, x: T, ts: Heap<T>)
    requires TotalOrder(cmp)
    requires forall i :: 0 <= i < |ts| ==> cmp(x, ts[i].root) <= 0 && Ordered(cmp, ts[i])
    ensures forall y :: y in Elements(ts) ==> cmp(x, y) <= 0
    decreases ts, 0
  {
    if ts != [] {
      RootIsMin(cmp, ts[0]);
      BelowChildren(cmp, x, ts[1..]);
    }
  }

  /** What get_min splits off is a tree with a least root, and the others are as they were. */
  ghost predicate Splits<T>(cmp: (T, T) -> int, ts: Heap<T>, t: Tree<T>, rest: Heap<T>) {
    && Good(cmp, t) && Valid(cmp, rest)
    && (forall i :: 0 <= i < |rest| ==> rest[i] in ts)
    && Elements(ts) == TreeElements(t) + Elements(rest)
    && IsMin(cmp, t.root, Elements(ts))
  }

  lemma MinOfBoth<T(!new)>(cmp: (T, T) -> int, x: T, y: T, a: multiset<T>, b: multiset<T>)
    requires TotalOrder(cmp) && IsMin(cmp, x, a) && IsMin(cmp, y, b) && cmp(x, y) <= 0
    ensures IsMin(cmp, x, a + b) && IsMin(cmp, x, b + a)
  {
    forall z | z in a + b ensures cmp(x, z) <= 0 {
      if z in b {
        assert cmp(y, z) <= 0;
      }
    }
  }

  lemma RestIncreasing<T>(cmp: (T, T) -> int, ts: Heap<T>, rest: Heap<T>)
    requires Valid(cmp, ts) && ts != [] && Valid(cmp, rest)
    requires forall i :: 0 <= i < |rest| ==> rest[i] in ts[1..]
    ensures AllFrom(rest, ts[0].rank + 1)
    ensures forall i :: 0 <= i < |[ts[0]] + rest| ==> ([ts[0]] + rest)[i] in ts
  {
    if rest != [] {
      var k :| 0 <= k < |ts[1..]| && ts[1..][k] == rest[0];
      assert ts[k + 1] == rest[0];
    }
    forall i | 0 <= i < |[ts[0]] + rest| ensures ([ts[0]] + rest)[i] in ts {
      if i > 0 {
        assert rest[i - 1] in ts[1..];
      }
    }
  }

  lemma SplitsHere<T(!new)>(cmp: (T, T) -> int, ts: Heap<T>, t: Tree<T>, rest: Heap<T>)
    requires TotalOrder(cmp) && Valid(cmp, ts) && ts != []
    requires Splits(cmp, ts[1..], t, rest) && cmp(ts[0].root, t.root) < 0
    ensures Splits(cmp, ts, ts[0], ts[1..])
  {
    hide Good, Elements, TreeElements, IsMin, TotalOrder;
    GoodRootIsMin(cmp, ts[0]);
    ElementsUnfold(ts);
    MinOfBoth(cmp, ts[0].root, t.root, TreeElements(ts[0]), Elements(ts[1..]));
    TailValid(cmp, ts);
    assert Good(cmp, ts[0]);
    hide Valid;
  }

  lemma TailValid<T(!new)>(cmp: (T, T) -> int, ts: Heap<T>)
    requires Valid(cmp, ts) && ts != []
    ensures Valid(cmp, ts[1..]) && forall i :: 0 <= i < |ts[1..]| ==> ts[1..][i] in ts
  {
    hide Good;
  }

  lemma GoodRootIsMin<T(!new)>(cmp: (T, T) -> int, t: Tree<T>)
    requires TotalOrder(cmp) && Good(cmp, t)
    ensures IsMin(cmp, t.root, TreeElements(t))
  {
    RootIsMin(cmp, t);
  }

  lemma NotBefore<T(!new)>(cmp: (T, T) -> int, x: T, y: T)
    requires TotalOrder(cmp) && cmp(x, y) >= 0
    ensures cmp(y, x) <= 0
  {
  }

  lemma SplitsLater<T(!new)>(cmp: (T, T) -> int, ts: Heap<T>, t: Tree<T>, rest: Heap<T>)
    requires TotalOrder(cmp) && Valid(cmp, ts) && ts != []
    requires Splits(cmp, ts[1..], t, rest) && cmp(ts[0].root, t.root) >= 0
    ensures Splits(cmp, ts, t, [ts[0]] + rest)
  {
    hide Good, Elements, TreeElements, IsMin, TotalOrder;
    GoodRootIsMin(cmp, ts[0]);
    ElementsUnfold(ts);
    NotBefore(cmp, ts[0].root, t.root);
    MinOfBoth(cmp, t.root, ts[0].root, Elements(ts[1..]), TreeElements(ts[0]));
    RestIncreasing(cmp, ts, rest);
    ConsValid(cmp, ts[0], rest);
  }

  lemma SplitsOne<T(!new)>(cmp: (T, T) -> int, ts: Heap<T>)
    requires TotalOrder(cmp) && Valid(cmp, ts) && |ts| == 1
    ensures Splits(cmp, ts, ts[0], [])
  {
    hide Good, Elements, TreeElements, IsMin, TotalOrder;
    GoodRootIsMin(cmp, ts[0]);
    ElementsUnfold(ts);
    assert ts[1..] == [];
    ElementsUnfold(ts[1..]);
    assert Elements(ts) == TreeElements(ts[0]);
  }

  /** get_min splits off the tree whose root find_min finds. */
  lemma {:induction false} GetMinSplits<T(!new)>(cmp: (T, T) -> int, ts: Heap<T>)
    requires TotalOrder(cmp) && Valid(cmp, ts) && ts != []
    ensures Splits(cmp, ts, GetMin(cmp, ts).0, GetMin(cmp, ts).1)
    ensures FindMin(cmp, ts) == Some(GetMin(cmp, ts).0.root)
    decreases |ts|
  {
    if |ts| == 1 {
      SplitsOne(cmp, ts);
    } else {
      assert Valid(cmp, ts[1..]);
      hide Splits, TotalOrder, Valid;
      GetMinSplits(cmp, ts[1..]);
      var (t, rest) := GetMin(cmp, ts[1..]);
      if cmp(ts[0].root, t.root) < 0 {
        SplitsHere(cmp, ts, t, rest);
      } else {
        SplitsLater(cmp, ts, t, rest);
      }
    }
  }

  lemma {:induction false} ElementsConcat<T>(ts: Heap<T>, us: Heap<T>)
    ensures Elements(ts + us) == Elements(ts) + Elements(us)
    decreases |ts|
  {
    hide Elements, TreeElements;
    ElementsUnfold(ts);
    if ts == [] {
      assert ts + us == us;
    } else {
      ElementsConcat(ts[1..], us);
      ElementsUnfold(ts + us);
      assert (ts + us)[1..] == ts[1..] + us;
    }
  }

  lemma {:induction false} ReverseElements<T>(ts: Heap<T>)
    ensures Elements(Reverse(ts)) == Elements(ts)
  {
    if ts != [] {
      ReverseElements(ts[1..]);
      ElementsConcat(Reverse(ts[1..]), [ts[0]]);
      assert [ts[0]][1..] == [];
    }
  }

  /** remove_min fails exactly on the empty queue, and otherwise drops the element that find_min
      returns, which is a minimum; find_min fails on the same queue. */
  lemma RemoveMinValid<T(!new)>(cmp: (T, T) -> int, ts: Heap<T>)
    requires TotalOrder(cmp) && Valid(cmp, ts)
    ensures RemoveMin(cmp, ts).None? <==> ts == []
    ensures FindMin(cmp, ts).None? <==> ts == []
    ensures ts != [] ==>
              && IsMin(cmp, FindMin(cmp, ts).value, Elements(ts))
              && Valid(cmp, RemoveMin(cmp, ts).value)
              && Elements(ts) == Elements(RemoveMin(cmp, ts).value) + multiset{FindMin(cmp, ts).value}
  {
    if ts != [] {
      GetMinSplits(cmp, ts);
      var (t, rest) := GetMin(cmp, ts);
      ReverseElements(t.children);
      assert Valid(cmp, Reverse(t.children));
      hide Valid, Good;
      UnionValid(cmp, Reverse(t.children), rest, 0);
    }
  }

  // ------------------------------------------------------------------------------------------
  // Size
  // ------------------------------------------------------------------------------------------

  ghost function Pow2(n: nat): (r: nat)
    ensures r >= 1
  {
    if n == 0 then 1 else 2 * Pow2(n - 1)
  }

  lemma {:induction false} SizeCounts<T>(ts: Heap<T>)
    ensures Size(ts) == |Elements(ts)|
    decreases ts, 0
  {
    if ts != [] {
      TreeSizeCounts(ts[0]);
      SizeCounts(ts[1..]);
    }
  }

  lemma {:induction false} TreeSizeCounts<T>(t: Tree<T>)
    ensures TreeSize(t) == |TreeElements(t)|
    decreases t, 1
  {
    SizeCounts(t.children);
  }

  /** A tree of rank r holds exactly 2^r elements. */
  lemma {:induction false} TreeSizeIsPower<T>(t: Tree<T>)
    requires Binomial(t)
    ensures TreeSize(t) == Pow2(t.rank)
    decreases t, 1
  {
    ChildrenSize(t.children, t.rank);
  }

  lemma {:induction false} ChildrenSize<T>(ts: Heap<T>, rank: nat)
    requires |ts| == rank && forall i :: 0 <= i < |ts| ==> ts[i].rank == rank - 1 - i && Binomial(ts[i])
    ensures 1 + Size(ts) == Pow2(rank)
    decreases ts, 0
  {
    if ts != [] {
      TreeSizeIsPower(ts[0]);
      ChildrenSize(ts[1..], rank - 1);
    }
  }

  lemma {:induction false} Pow2Monotone(m: nat, n: nat)
    requires m <= n
    ensures Pow2(m) <= Pow2(n)
    decreases n - m
  {
    if m < n {
      Pow2Monotone(m, n - 1);
    }
  }

  /** A queue of k trees holds at least 2^k - 1 elements, so it has logarithmically many trees. */
  lemma {:induction false} FewTrees<T>(cmp: (T, T) -> int, ts: Heap<T>)
    requires Valid(cmp, ts)
    ensures Size(ts) >= Pow2(|ts|) - 1
    decreases |ts|
  {
    if ts != [] {
      ManyElements(cmp, ts, 0);
    }
  }

  lemma {:induction false} ManyElements<T>(cmp: (T, T) -> int, ts: Heap<T>, low: nat)
    requires Valid(cmp, ts) && (ts != [] ==> ts[0].rank >= low)
    ensures Size(ts) >= Pow2(low + |ts|) - Pow2(low)
    decreases |ts|
  {
    if ts != [] {
      TreeSizeIsPower(ts[0]);
      Pow2Monotone(low, ts[0].rank);
      ManyElements(cmp, ts[1..], low + 1);
    }
  }

  // ------------------------------------------------------------------------------------------
  // Draining a queue sorts
  // ------------------------------------------------------------------------------------------

  /** The elements in the order in which repeated removal returns them. */
  ghost function Drain<T(!new)>(cmp: (T, T) -> int, ts: Heap<T>): seq<T>
    requires TotalOrder(cmp) && Valid(cmp, ts)
    decreases |Elements(ts)|
  {
    RemoveMinValid(cmp, ts);
    if ts == [] then [] else [FindMin(cmp, ts).value] + Drain(cmp, RemoveMin(cmp, ts).value)
  }

  ghost predicate Sorted<T>(cmp: (T, T) -> int, s: seq<T>) {
    forall i, k :: 0 <= i < k < |s| ==> cmp(s[i], s[k]) <= 0
  }

  lemma SortedCons<T>(cmp: (T, T) -> int, x: T, s: seq<T>, e: multiset<T>)
    requires Sorted(cmp, s) && IsMin(cmp, x, e) && e == multiset(s) + multiset{x}
    ensures Sorted(cmp, [x] + s) && multiset([x] + s) == e
  {
    forall k | 0 <= k < |s| ensures cmp(x, s[k]) <= 0 {
      assert s[k] in multiset(s);
    }
  }

  /** Repeated removal yields a sorted permutation of the queue. */
  lemma {:induction false} DrainSorts<T(!new)>(cmp: (T, T) -> int, ts: Heap<T>)
    requires TotalOrder(cmp) && Valid(cmp, ts)
    ensures multiset(Drain(cmp, ts)) == Elements(ts) && Sorted(cmp, Drain(cmp, ts))
    decreases |Elements(ts)|
  {
    hide Valid, TotalOrder, RemoveMin, FindMin, TreeElements, IsMin, Sorted;
    RemoveMinValid(cmp, ts);
    ElementsUnfold(ts);
    if ts == [] {
      SortedNil(cmp);
    } else {
      hide Elements;
      DrainSorts(cmp, RemoveMin(cmp, ts).value);
      SortedCons(cmp, FindMin(cmp, ts).value, Drain(cmp, RemoveMin(cmp, ts).value), Elements(ts));
    }
  }

  lemma SortedNil<T>(cmp: (T, T) -> int)
    ensures Sorted(cmp, [])
  {
  }
}
