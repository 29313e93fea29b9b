/** The operations of src/core/lwt.ml that update promise cells in place: `underlying` with its path
    compression, `make_into_proxy`, and the backwards phase of `cancel`. */
module PromiseStore {
  import opened PromiseHeap
  import opened PromiseEngine
  import opened PromiseSafety

  /** `h'` is `h` up to path compression: every cell is unchanged except for where proxies point,
      and every promise keeps its root. */
  ghost predicate Compressed(h: Heap, h': Heap) {
    && Forest(h) && Forest(h') && h'.Keys == h.Keys
    && (forall x :: x in h && !h[x].state.Proxy? ==> h'[x] == h[x])
    && (forall x :: x in h && h[x].state.Proxy? ==> h'[x].state.Proxy? && h'[x] == h[x].(state := h'[x].state))
    && (forall x :: x in h ==> Root(h', x) == Root(h, x))
  }

  lemma CompressOne(h: Heap, p: Pid)
    requires Forest(h) && p in h && h[p].state.Proxy?
    ensures Compressed(h, SetState(h, p, Proxy(Root(h, p))))
  {
    CompressRoots(h, p);
  }

  lemma CompressedSelf(h: Heap)
    requires Forest(h)
    ensures Compressed(h, h)
  {
  }

  lemma CompressedCell(h: Heap, h': Heap, x: Pid)
    requires Compressed(h, h') && x in h
    ensures Forest(h') && x in h' && Root(h', x) == Root(h, x)
    ensures h'[x].state.Proxy? == h[x].state.Proxy?
  {
  }

  lemma CompressedTransitive(h0: Heap, h1: Heap, h2: Heap)
    requires Compressed(h0, h1) && Compressed(h1, h2)
    ensures Compressed(h0, h2)
  {
  }

  lemma LinkIsLower(h: Heap, p: Pid, rank: map<Pid, nat>)
    requires Ranked(h, rank) && p in h && h[p].state.Proxy?
    ensures h[p].state.to in h && rank[h[p].state.to] < rank[p] && rank.Keys == h.Keys
    ensures Forest(h) && Root(h, p) == Root(h, h[p].state.to)
  {
  }

  lemma CompressedRank(h: Heap, p: Pid, rank: map<Pid, nat>)
    requires Ranked(h, rank) && p in h && h[p].state.Proxy?
    ensures Ranked(SetState(h, p, Proxy(Root(h, p))), rank)
  {
    RankDropsToRoot(h, p, rank);
  }

  // ------------------------------------------------------------------------------------------
  // The dependency graph
  // ------------------------------------------------------------------------------------------

  /** The promises to which a pending promise passes a cancellation on. */
  function Dependencies(how: HowToCancel): seq<Pid> {
    match how
    case PropagateToOne(q) => [q]
    case PropagateToSeveral(ps) => ps
    case _ => []
  }

  /** The recursion of `cancel` that starts at `p` nests at most `n` deep. */
  ghost predicate Ends(h: Heap, n: nat, p: Pid)
    requires Forest(h)
    decreases n, 1
  {
    && p in h
    && var r := Root(h, p);
       h[r].state.Pending? ==> AllEnd(h, n, Dependencies(h[r].how))
  }

  /** The recursive calls for `ps` nest less than `n` deep. */
  ghost predicate AllEnd(h: Heap, n: nat, ps: seq<Pid>)
    requires Forest(h)
    decreases n, 0
  {
    forall k :: 0 <= k < |ps| ==> ps[k] in h && n > 0 && Ends(h, n - 1, ps[k])
  }

  lemma EndsNext(h: Heap, n: nat, p: Pid)
    requires Forest(h) && Ends(h, n, p)
    ensures p in h
    ensures
      var r := Root(h, p);
      h[r].state.Pending? ==> AllEnd(h, n, Dependencies(h[r].how))
  {
  }

  lemma EndAt(h: Heap, n: nat, ps: seq<Pid>, k: nat)
    requires Forest(h) && AllEnd(h, n, ps) && k < |ps|
    ensures ps[k] in h && n > 0 && Ends(h, n - 1, ps[k])
  {
  }

  lemma AllInHeap(h: Heap, n: nat, ps: seq<Pid>)
    requires Forest(h) && AllEnd(h, n, ps)
    ensures forall k :: 0 <= k < |ps| ==> ps[k] in h
    ensures forall r :: !ReachesFrom(h, ps, 0, r)
  {
  }

  /** A cancellation of the pending promise `a` is passed on to a promise that `b` stands for. */
  ghost predicate PassesTo(h: Heap, a: Pid, b: Pid)
    requires Forest(h) && a in h
  {
    && h[a].state.Pending?
    && exists k :: 0 <= k < |Dependencies(h[a].how)| && Dependencies(h[a].how)[k] in h &&
                   Root(h, Dependencies(h[a].how)[k]) == b
  }

  /** A path of pending promises, each a dependency of the one before it, from `a` to `b`. */
  ghost predicate Connects(h: Heap, path: seq<Pid>, a: Pid, b: Pid)
    requires Forest(h)
    decreases |path|
  {
    && path != [] && path[0] == a && a in h && h[a].state.Pending?
    && if |path| == 1 then a == b else PassesTo(h, a, path[1]) && Connects(h, path[1..], path[1], b)
  }

  /** `r` is a pending cancelable promise that a cancellation of `p` reaches. */
  ghost predicate Reaches(h: Heap, p: Pid, r: Pid)
    requires Forest(h) && p in h
  {
    && r in h && h[r].state.Pending? && h[r].how.CancelThisPromise?
    && exists path :: Connects(h, path, Root(h, p), r)
  }

  lemma ReachesOneStep(h: Heap, p: Pid, r: Pid)
    requires Forest(h) && p in h && Reaches(h, p, r)
    ensures
      var q := Root(h, p);
      h[q].state.Pending? &&
      (q == r || exists k :: 0 <= k < |Dependencies(h[q].how)| && Dependencies(h[q].how)[k] in h &&
                             Reaches(h, Dependencies(h[q].how)[k], r))
  {
    hide Ranked;
    var q := Root(h, p);
    var path :| Connects(h, path, q, r);
    if |path| > 1 {
      var k :| 0 <= k < |Dependencies(h[q].how)| && Dependencies(h[q].how)[k] in h &&
               Root(h, Dependencies(h[q].how)[k]) == path[1];
      assert Connects(h, path[1..], Root(h, Dependencies(h[q].how)[k]), r);
      assert Reaches(h, Dependencies(h[q].how)[k], r);
    }
  }

  lemma ReachesPrepend(h: Heap, p: Pid, k: nat, r: Pid)
    requires Forest(h) && p in h && h[Root(h, p)].state.Pending?
    requires k < |Dependencies(h[Root(h, p)].how)| && Dependencies(h[Root(h, p)].how)[k] in h
    requires Reaches(h, Dependencies(h[Root(h, p)].how)[k], r)
    ensures Reaches(h, p, r)
  {
    hide Ranked;
    var q := Root(h, p);
    var path :| Connects(h, path, Root(h, Dependencies(h[q].how)[k]), r);
    assert ([q] + path)[1..] == path;
    assert PassesTo(h, q, path[0]);
    assert Connects(h, [q] + path, q, r);
  }

  /** Without a pending cancelable promise or dependencies to go to, nothing is reached. */
  lemma ReachesNothing(h: Heap, p: Pid)
    requires Forest(h) && p in h
    requires !h[Root(h, p)].state.Pending? || h[Root(h, p)].how.NotCancelable?
    ensures forall r :: !Reaches(h, p, r)
  {
    forall r ensures !Reaches(h, p, r) {
      if Reaches(h, p, r) { ReachesOneStep(h, p, r); }
    }
  }

  lemma ReachesItself(h: Heap, p: Pid)
    requires Forest(h) && p in h
    requires h[Root(h, p)].state.Pending? && h[Root(h, p)].how.CancelThisPromise?
    ensures forall r :: Reaches(h, p, r) <==> r == Root(h, p)
  {
    assert Connects(h, [Root(h, p)], Root(h, p), Root(h, p));
    forall r ensures Reaches(h, p, r) <==> r == Root(h, p) {
      if Reaches(h, p, r) { ReachesOneStep(h, p, r); }
    }
  }

  /** Promises of the list `ps` from which `r` is reached. */
  ghost predicate ReachesFrom(h: Heap, ps: seq<Pid>, n: nat, r: Pid)
    requires Forest(h) && n <= |ps| && forall i :: 0 <= i < |ps| ==> ps[i] in h
  {
    exists k :: 0 <= k < n && Reaches(h, ps[k], r)
  }

  lemma ReachesFromNext(h: Heap, ps: seq<Pid>, n: nat)
    requires Forest(h) && n < |ps| && forall i :: 0 <= i < |ps| ==> ps[i] in h
    ensures forall r :: ReachesFrom(h, ps, n + 1, r) <==> ReachesFrom(h, ps, n, r) || Reaches(h, ps[n], r)
  {
    hide Reaches, Ranked;
  }

  lemma ReachesDependencies(h: Heap, p: Pid, ps: seq<Pid>)
    requires Forest(h) && p in h && h[Root(h, p)].state.Pending? && !h[Root(h, p)].how.CancelThisPromise?
    requires ps == Dependencies(h[Root(h, p)].how) && forall i :: 0 <= i < |ps| ==> ps[i] in h
    ensures forall r :: Reaches(h, p, r) <==> ReachesFrom(h, ps, |ps|, r)
  {
    hide Connects, Ranked;
    forall r ensures Reaches(h, p, r) <==> ReachesFrom(h, ps, |ps|, r) {
      if Reaches(h, p, r) {
        ReachesOneStep(h, p, r);
      }
      if k :| 0 <= k < |ps| && Reaches(h, ps[k], r) {
        ReachesPrepend(h, p, k, r);
      }
    }
  }

  /** How far the backwards phase has come: up to path compression, `h` is `h0` with exactly the
      promises of `acc` rejected. */
  ghost predicate Marked(h0: Heap, h: Heap, acc: seq<Pid>) {
    && Forest(h0) && Forest(h) && h.Keys == h0.Keys && CancelTargets(h0, acc)
    && (forall x :: x in h0 ==> Root(h, x) == Root(h0, x))
    && (forall x :: x in h0 && !h0[x].state.Proxy? ==>
          h[x] == if x in acc then h0[x].(state := Resolved(Rejected(Canceled))) else h0[x])
    && (forall x :: x in h0 && h0[x].state.Proxy? ==> h[x].state.Proxy? && h[x] == h0[x].(state := h[x].state))
  }

  lemma MarkedForests(h0: Heap, h: Heap, acc: seq<Pid>)
    requires Marked(h0, h, acc)
    ensures Forest(h0) && Forest(h) && h.Keys == h0.Keys
  {
  }

  lemma MarkNone(h: Heap)
    requires Forest(h)
    ensures Marked(h, h, [])
  {
  }

  lemma MarkCompressed(h0: Heap, h1: Heap, h2: Heap, acc: seq<Pid>)
    requires Marked(h0, h1, acc) && Compressed(h1, h2)
    ensures Marked(h0, h2, acc)
  {
  }

  lemma MarkOneRoots(h0: Heap, h: Heap, acc: seq<Pid>, r: Pid)
    requires Marked(h0, h, acc) && r in h0 && r !in acc && h0[r].state.Pending?
    ensures
      var h' := SetState(h, r, Resolved(Rejected(Canceled)));
      Forest(h') && forall x :: x in h0 ==> Root(h', x) == Root(h0, x)
  {
    hide Ranked, CancelTargets;
    SameLinksRoots(h, SetState(h, r, Resolved(Rejected(Canceled))));
  }

  lemma MarkOne(h0: Heap, h: Heap, acc: seq<Pid>, r: Pid)
    requires Marked(h0, h, acc) && r in h0 && r !in acc
    requires h0[r].state.Pending? && h0[r].how.CancelThisPromise?
    ensures Marked(h0, SetState(h, r, Resolved(Rejected(Canceled))), [r] + acc)
  {
    hide Ranked;
    MarkOneRoots(h0, h, acc, r);
  }

  /** What a marked heap still knows of the promise that `p` stands for. */
  lemma MarkedCell(h0: Heap, h: Heap, acc: seq<Pid>, p: Pid)
    requires Marked(h0, h, acc) && p in h0
    ensures p in h && Forest(h) && Root(h, p) == Root(h0, p)
    ensures
      var r := Root(h0, p);
      && (r in acc ==> h[r].state.Resolved? && h0[r].state.Pending? && h0[r].how.CancelThisPromise?)
      && (r !in acc ==> h[r] == h0[r])
  {
  }

  /** Outside the cells, a completed backwards phase shows as rejecting exactly `acc`. */
  lemma MarkedObservations(h0: Heap, h: Heap, acc: seq<Pid>)
    requires Marked(h0, h, acc)
    ensures forall x :: x in h0 ==>
              Observed(h, x) == if Root(h0, x) in acc then Resolved(Rejected(Canceled)) else Observed(h0, x)
  {
  }

  class Store {
    var heap: Heap

    constructor ()
      ensures heap == map[]
    {
      heap := map[];
    }

    /** `underlying`: finds the root and leaves every proxy on the way pointing straight at it. */
    method Underlying(p: Pid, ghost rank: map<Pid, nat>) returns (r: Pid)
      requires p in heap && Ranked(heap, rank)
      modifies this
      ensures Forest(old(heap)) && Compressed(old(heap), heap) && Ranked(heap, rank)
      ensures r == Root(old(heap), p) && (p == r || heap[p].state == Proxy(r))
      ensures forall x :: x in old(heap) && rank[x] > rank[p] ==> heap[x] == old(heap)[x]
      decreases rank[p]
    {
      hide Compressed, Ranked;
      ghost var h0 := heap;
      CompressedSelf(h0);
      match heap[p].state {
        case Pending => r := p;
        case Resolved(_) => r := p;
        case Proxy(q) =>
          LinkIsLower(h0, p, rank);
          r := Underlying(q, rank);
          if r != q {
            ghost var h1 := heap;
            CompressedCell(h0, h1, p);
            CompressedRank(h1, p, rank);
            CompressOne(h1, p);
            heap := SetState(heap, p, Proxy(r));
            CompressedTransitive(h0, h1, heap);
          }
      }
    }

    /** The recursive part of `propagate_cancel`: whenever the recursion can end it does, and rejects and
        collects, each once, exactly the pending cancelable promises reached from `p`. */
    method CancelAndCollect(acc: seq<Pid>, p: Pid, ghost h0: Heap, ghost n: nat)
      returns (acc': seq<Pid>)
      requires Marked(h0, heap, acc) && Ends(h0, n, p)
      modifies this
      ensures Marked(h0, heap, acc')
      ensures forall r :: r in acc' <==> r in acc || Reaches(h0, p, r)
      decreases n, 1
    {
      hide Reaches, ReachesFrom, CancelTargets, Ranked, Forest, Marked, Compressed, Ends, AllEnd;
      MarkedForests(h0, heap, acc);
      EndsNext(h0, n, p);
      ghost var h1 := heap;
      MarkedCell(h0, heap, acc, p);
      var root := Underlying(p, RankOf(heap));
      MarkCompressed(h0, h1, heap, acc);
      MarkedCell(h0, heap, acc, p);
      acc' := acc;
      match heap[root].state {
        case Pending =>
          match heap[root].how {
            case NotCancelable => ReachesNothing(h0, p);
            case CancelThisPromise =>
              MarkOne(h0, heap, acc, root);
              ReachesItself(h0, p);
              heap := SetState(heap, root, Resolved(Rejected(Canceled)));
              acc' := [root] + acc;
            case PropagateToOne(q) =>
              AllInHeap(h0, n, [q]);
              acc' := CancelAll(acc, [q], h0, n, root);
              ReachesDependencies(h0, p, [q]);
            case PropagateToSeveral(ps) =>
              AllInHeap(h0, n, ps);
              acc' := CancelAll(acc, ps, h0, n, root);
              ReachesDependencies(h0, p, ps);
          }
        case _ =>
          if root in acc {
            ReachesItself(h0, p);
          } else {
            ReachesNothing(h0, p);
          }
      }
    }

    /** The fold over the dependencies `ps` of the underlying promise `root`. */
    method CancelAll(acc: seq<Pid>, ps: seq<Pid>, ghost h0: Heap, ghost n: nat, ghost root: Pid)
      returns (acc': seq<Pid>)
      requires Marked(h0, heap, acc)
      requires root in h0 && ps == Dependencies(h0[root].how)
      requires (forall i :: 0 <= i < |ps| ==> ps[i] in h0) && AllEnd(h0, n, ps)
      modifies this
      ensures Marked(h0, heap, acc')
      ensures forall r :: r in acc' <==> r in acc || ReachesFrom(h0, ps, |ps|, r)
      decreases n, 0
    {
      hide Reaches, ReachesFrom, CancelTargets, Ranked, Forest, Marked, Ends, AllEnd;
      MarkedForests(h0, heap, acc);
      AllInHeap(h0, n, ps);
      acc' := acc;
      for i := 0 to |ps|
        invariant Marked(h0, heap, acc')
        invariant forall r :: r in acc' <==> r in acc || ReachesFrom(h0, ps, i, r)
      {
        ReachesFromNext(h0, ps, i);
        EndAt(h0, n, ps, i);
        acc' := CancelAndCollect(acc', ps[i], h0, n - 1);
      }
    }

    /** The backwards phase of `cancel`, for a promise from which its recursion ends: `order` is what the
        forwards phase goes through. */
    method PropagateCancel(p: Pid, ghost n: nat) returns (order: seq<Pid>)
      requires Forest(heap) && Ends(heap, n, p)
      modifies this
      ensures CancelTargets(old(heap), order)
      ensures forall r :: r in order <==> Reaches(old(heap), p, r)
      ensures Forest(heap) && heap.Keys == old(heap).Keys
      ensures forall x :: x in heap ==>
                Root(heap, x) == Root(old(heap), x) &&
                Observed(heap, x) ==
                  if Reaches(old(heap), p, Root(old(heap), x)) then Resolved(Rejected(Canceled))
                  else Observed(old(heap), x)
    {
      hide Reaches, Ends, Ranked;
      ghost var h0 := heap;
      EndsNext(h0, n, p);
      MarkNone(h0);
      order := CancelAndCollect([], p, h0, n);
      MarkedObservations(h0, heap, order);
    }

    /** `make_into_proxy`, up to the running of the callbacks when the outer promise is resolved. */
    method MakeIntoProxy(outer: Pid, user: Pid)
      requires Forest(heap) && outer in heap && user in heap && heap[outer].state.Pending?
      modifies this
      ensures Compressed(PromiseEngine.MakeIntoProxy(INITIAL.(heap := old(heap)), outer, user).heap, heap)
    {
      hide Compressed, Ranked;
      ghost var h0 := heap;
      var q := Underlying(user, RankOf(heap));
      CompressedRoot(h0, heap, outer);
      CompressedRoot(h0, heap, q);
      if q != outer {
        if heap[q].state.Resolved? {
          CompressedSettle(h0, heap, outer, heap[q].state.result);
          heap := SetState(heap, outer, heap[q].state);
        } else {
          CompressedMerge(h0, heap, q, outer);
          heap := Merge(heap, q, outer);
        }
      }
    }
  }

  lemma CompressedRoot(h: Heap, h': Heap, p: Pid)
    requires Compressed(h, h') && p in h && !h[p].state.Proxy?
    ensures p in h' && h'[p] == h[p]
  {
  }

  lemma SettleRoots(h: Heap, o: Pid, r: Result)
    requires Forest(h) && o in h && h[o].state.Pending?
    ensures Forest(SetState(h, o, Resolved(r)))
    ensures forall x :: x in h ==> Root(SetState(h, o, Resolved(r)), x) == Root(h, x)
  {
    hide Ranked;
    SameLinksRoots(h, SetState(h, o, Resolved(r)));
  }

  lemma SettleCellsAlike(h: Heap, h': Heap, o: Pid, r: Result)
    requires Compressed(h, h') && o in h && h[o].state.Pending?
    ensures
      var h1, h1' := SetState(h, o, Resolved(r)), SetState(h', o, Resolved(r));
      && (forall x :: x in h && !h1[x].state.Proxy? ==> h1'[x] == h1[x])
      && (forall x :: x in h && h1[x].state.Proxy? ==>
            h1'[x].state.Proxy? && h1'[x] == h1[x].(state := h1'[x].state))
  {
    hide Ranked, Forest;
  }

  lemma SettleRootsAlike(h: Heap, h': Heap, o: Pid, r: Result)
    requires Compressed(h, h') && o in h && h[o].state.Pending?
    ensures o in h' && Forest(SetState(h, o, Resolved(r))) && Forest(SetState(h', o, Resolved(r)))
    ensures forall x :: x in h ==> Root(SetState(h', o, Resolved(r)), x) == Root(SetState(h, o, Resolved(r)), x)
  {
    SettleRoots(h, o, r);
    SettleRoots(h', o, r);
  }

  lemma CompressedSettle(h: Heap, h': Heap, o: Pid, r: Result)
    requires Compressed(h, h') && o in h && h[o].state.Pending?
    ensures o in h' && Compressed(SetState(h, o, Resolved(r)), SetState(h', o, Resolved(r)))
  {
    SettleRootsAlike(h, h', o, r);
    SettleCellsAlike(h, h', o, r);
    hide Ranked, Forest, SetState;
  }

  lemma MergeRootsAlike(h: Heap, h': Heap, q: Pid, o: Pid)
    requires Compressed(h, h') && q in h && o in h && q != o && h[q].state.Pending? && h[o].state.Pending?
    ensures q in h' && o in h' && Forest(Merge(h, q, o)) && Forest(Merge(h', q, o))
    ensures Merge(h', q, o).Keys == Merge(h, q, o).Keys == h.Keys
    ensures forall x :: x in h ==> Root(Merge(h', q, o), x) == Root(Merge(h, q, o), x)
  {
    hide Ranked, Forest, Root;
    MergeRoots(h, q, o);
    MergeRoots(h', q, o);
  }

  lemma MergeRootCellsAlike(h: Heap, h': Heap, q: Pid, o: Pid)
    requires Compressed(h, h') && q in h && o in h && q != o && h[q].state.Pending? && h[o].state.Pending?
    ensures
      var h1, h1' := Merge(h, q, o), Merge(h', q, o);
      forall x :: x in h && !h1[x].state.Proxy? ==> h1'[x] == h1[x]
  {
    hide Ranked, Forest, Root;
  }

  lemma MergeProxyCellsAlike(h: Heap, h': Heap, q: Pid, o: Pid)
    requires Compressed(h, h') && q in h && o in h && q != o && h[q].state.Pending? && h[o].state.Pending?
    ensures
      var h1, h1' := Merge(h, q, o), Merge(h', q, o);
      forall x :: x in h && h1[x].state.Proxy? ==> h1'[x].state.Proxy? && h1'[x] == h1[x].(state := h1'[x].state)
  {
    hide Ranked, Forest, Root;
  }

  lemma CompressedMerge(h: Heap, h': Heap, q: Pid, o: Pid)
    requires Compressed(h, h') && q in h && o in h && q != o && h[q].state.Pending? && h[o].state.Pending?
    ensures q in h' && o in h' && Compressed(Merge(h, q, o), Merge(h', q, o))
  {
    MergeRootsAlike(h, h', q, o);
    MergeRootCellsAlike(h, h', q, o);
    MergeProxyCellsAlike(h, h', q, o);
    hide Ranked, Forest, Merge;
  }
}
