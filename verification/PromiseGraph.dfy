/** The dependency graph along which `cancel` goes backwards (src/core/lwt.ml): when it stays acyclic, so that
    the backwards phase ends. */
module PromiseGraph {
  import opened Common
  import opened PromiseHeap
  import opened PromiseEngine
  import opened PromiseSafety
  import opened PromiseExtends
  import opened PromiseRuns
  import opened PromiseStore

  /** The promises that pending promises depend on exist. */
  ghost predicate Closed(h: Heap) {
    forall p, i :: p in h && h[p].state.Pending? && 0 <= i < |Dependencies(h[p].how)| ==> Dependencies(h[p].how)[i] in h
  }

  /** `dep` decreases from every pending promise to those it depends on. */
  ghost predicate Acyclic(h: Heap, dep: map<Pid, nat>)
    requires Forest(h)
  {
    && dep.Keys == h.Keys
    && forall p, i :: p in h && h[p].state.Pending? && 0 <= i < |Dependencies(h[p].how)| ==>
         Dependencies(h[p].how)[i] in h && dep[Root(h, Dependencies(h[p].how)[i])] < dep[p]
  }

  ghost predicate CanBeRanked(h: Heap) {
    Forest(h) && exists dep :: Acyclic(h, dep)
  }

  /** `b` is reached from `a` in `n` steps along the dependencies of pending promises. */
  ghost predicate StepsTo(h: Heap, n: nat, a: Pid, b: Pid)
    requires Forest(h)
  {
    a in h && if n == 0 then a == b else exists y :: PassesTo(h, a, y) && StepsTo(h, n - 1, y, b)
  }

  /** Cancelling `a` would go on to `b`, by way of at least one dependency. */
  ghost predicate DependsOn(h: Heap, a: Pid, b: Pid)
    requires Forest(h)
  {
    exists n: nat :: n > 0 && StepsTo(h, n, a, b)
  }

  ghost predicate HasNoCycle(h: Heap) {
    Forest(h) && Closed(h) && forall p :: !DependsOn(h, p, p)
  }

  // ------------------------------------------------------------------------------------------
  // Cycles, ranks, and the end of the recursion
  // ------------------------------------------------------------------------------------------

  lemma {:induction false} StepsCompose(h: Heap, n: nat, k: nat, a: Pid, b: Pid, c: Pid)
    requires Forest(h) && StepsTo(h, n, a, b) && StepsTo(h, k, b, c)
    ensures StepsTo(h, n + k, a, c)
    decreases n
  {
    hide Ranked, Forest, PassesTo;
    if n > 0 {
      var y :| PassesTo(h, a, y) && StepsTo(h, n - 1, y, b);
      StepsCompose(h, n - 1, k, y, b, c);
    }
  }

  lemma DependsTransitive(h: Heap, a: Pid, b: Pid, c: Pid)
    requires Forest(h) && DependsOn(h, a, b) && DependsOn(h, b, c)
    ensures DependsOn(h, a, c)
  {
    hide Ranked, Forest, StepsTo;
    var n: nat :| n > 0 && StepsTo(h, n, a, b);
    var k: nat :| k > 0 && StepsTo(h, k, b, c);
    StepsCompose(h, n, k, a, b, c);
  }

  lemma PassingDepends(h: Heap, a: Pid, b: Pid)
    requires Forest(h) && a in h && PassesTo(h, a, b)
    ensures DependsOn(h, a, b)
  {
    PassedInHeap(h, a, b);
    hide Ranked, Forest, PassesTo;
    assert StepsTo(h, 0, b, b);
    assert StepsTo(h, 1, a, b);
  }

  /** All that `a` depends on. */
  ghost function Below(h: Heap, a: Pid): set<Pid>
    requires Forest(h)
  {
    set b | b in h && DependsOn(h, a, b)
  }

  lemma FewerBelow(h: Heap, a: Pid, b: Pid)
    requires Forest(h) && a in h && PassesTo(h, a, b) && !DependsOn(h, b, b)
    ensures |Below(h, b)| < |Below(h, a)|
  {
    PassingDepends(h, a, b);
    PassedInHeap(h, a, b);
    hide Ranked, Forest, PassesTo, DependsOn;
    var low, high := Below(h, b), Below(h, a);
    forall c | c in low ensures c in high {
      DependsTransitive(h, a, b, c);
    }
    assert b in high && b !in low;
    assert low + {b} <= high;
    SubsetSize(low + {b}, high);
  }

  /** Ranks exist exactly if no pending promise depends on itself. */
  lemma RankedExactly(h: Heap)
    requires Forest(h)
    ensures CanBeRanked(h) <==> HasNoCycle(h)
  {
    hide Ranked, Forest, Root;
    if CanBeRanked(h) {
      var dep :| Acyclic(h, dep);
      forall p ensures !DependsOn(h, p, p) {
        if DependsOn(h, p, p) {
          DependsInHeap(h, p, p);
          DependsDown(h, dep, p, p);
        }
      }
    }
    if HasNoCycle(h) {
      var dep := map p | p in h :: |Below(h, p)|;
      forall p, i | p in h && h[p].state.Pending? && 0 <= i < |Dependencies(h[p].how)|
        ensures Dependencies(h[p].how)[i] in h && dep[Root(h, Dependencies(h[p].how)[i])] < dep[p]
      {
        RankGoesDown(h, p, i);
      }
      assert Acyclic(h, dep);
    }
  }

  lemma RankGoesDown(h: Heap, p: Pid, i: nat)
    requires HasNoCycle(h) && p in h && h[p].state.Pending? && i < |Dependencies(h[p].how)|
    ensures Forest(h) && Dependencies(h[p].how)[i] in h
    ensures |Below(h, Root(h, Dependencies(h[p].how)[i]))| < |Below(h, p)|
  {
    hide Ranked, Root, DependsOn;
    var y := Root(h, Dependencies(h[p].how)[i]);
    assert PassesTo(h, p, y);
    FewerBelow(h, p, y);
  }

  lemma DependsInHeap(h: Heap, a: Pid, b: Pid)
    requires Forest(h) && DependsOn(h, a, b)
    ensures a in h
  {
  }

  /** A cancellation of `p` comes to a promise that depends on itself. */
  ghost predicate MeetsCycle(h: Heap, p: Pid)
    requires Forest(h) && p in h
  {
    exists q :: DependsOn(h, q, q) && (q == Root(h, p) || DependsOn(h, Root(h, p), q))
  }

  lemma EndsFold(h: Heap, n: nat, p: Pid)
    requires Forest(h) && p in h && (h[Root(h, p)].state.Pending? ==> AllEnd(h, n, Dependencies(h[Root(h, p)].how)))
    ensures Ends(h, n, p)
  {
    hide Ranked, Forest, AllEnd;
  }

  lemma {:induction false} EndsMore(h: Heap, n: nat, k: nat, p: Pid)
    requires Forest(h) && Ends(h, n, p) && n <= k
    ensures Ends(h, k, p)
    decreases n
  {
    hide Ranked, Forest, Ends;
    EndsNext(h, n, p);
    var r := Root(h, p);
    if h[r].state.Pending? {
      var ps := Dependencies(h[r].how);
      forall i | 0 <= i < |ps| ensures ps[i] in h && k > 0 && Ends(h, k - 1, ps[i]) {
        EndAt(h, n, ps, i);
        EndsMore(h, n - 1, k - 1, ps[i]);
      }
      assert AllEnd(h, k, ps);
    }
    EndsFold(h, k, p);
  }

  lemma EndsAlong(h: Heap, n: nat, a: Pid, b: Pid)
    requires Forest(h) && a in h && Ends(h, n, a) && PassesTo(h, a, b)
    ensures n > 0 && Ends(h, n - 1, b)
  {
    hide Ranked, Forest;
    var k :| 0 <= k < |Dependencies(h[a].how)| && Dependencies(h[a].how)[k] in h &&
             Root(h, Dependencies(h[a].how)[k]) == b;
    EndsNext(h, n, a);
    EndAt(h, n, Dependencies(h[a].how), k);
    EndsAtRoot(h, n - 1, Dependencies(h[a].how)[k]);
  }

  lemma {:induction false} EndsSteps(h: Heap, n: nat, k: nat, a: Pid, b: Pid)
    requires Forest(h) && Ends(h, n, a) && StepsTo(h, k, a, b)
    ensures n >= k && Ends(h, n - k, b)
    decreases k
  {
    hide Ranked, Forest, PassesTo, Ends;
    if k > 0 {
      var y :| PassesTo(h, a, y) && StepsTo(h, k - 1, y, b);
      EndsAlong(h, n, a, y);
      EndsSteps(h, n - 1, k - 1, y, b);
    }
  }

  lemma {:induction false} NoEndOnCycle(h: Heap, n: nat, q: Pid)
    requires Forest(h) && DependsOn(h, q, q)
    ensures !Ends(h, n, q)
    decreases n
  {
    hide Ranked, Forest, Ends, StepsTo;
    if Ends(h, n, q) {
      var k: nat :| k > 0 && StepsTo(h, k, q, q);
      EndsSteps(h, n, k, q, q);
      NoEndOnCycle(h, n - k, q);
    }
  }

  lemma EndsAtRoot(h: Heap, n: nat, p: Pid)
    requires Forest(h) && p in h
    ensures Ends(h, n, p) <==> Ends(h, n, Root(h, p))
  {
    hide Ranked, Forest, Ends;
    if Ends(h, n, p) {
      EndsNext(h, n, p);
      EndsFold(h, n, Root(h, p));
    }
    if Ends(h, n, Root(h, p)) {
      EndsNext(h, n, Root(h, p));
      EndsFold(h, n, p);
    }
  }

  lemma {:induction false} EndsWithoutCycle(h: Heap, p: Pid)
    requires Forest(h) && Closed(h) && p in h && !MeetsCycle(h, p)
    ensures Ends(h, |Below(h, Root(h, p))|, p)
    decreases |Below(h, Root(h, p))|
  {
    hide Ranked, Forest, DependsOn, PassesTo, Ends;
    var r := Root(h, p);
    var n := |Below(h, r)|;
    if h[r].state.Pending? {
      var ps := Dependencies(h[r].how);
      forall i | 0 <= i < |ps| ensures ps[i] in h && n > 0 && Ends(h, n - 1, ps[i]) {
        NextMeetsNone(h, p, i);
        FewerBelow(h, r, Root(h, ps[i]));
        EndsWithoutCycle(h, ps[i]);
        EndsMore(h, |Below(h, Root(h, ps[i]))|, n - 1, ps[i]);
      }
      assert AllEnd(h, n, ps);
    }
    EndsFold(h, n, p);
  }

  lemma NextMeetsNone(h: Heap, p: Pid, i: nat)
    requires Forest(h) && Closed(h) && p in h && !MeetsCycle(h, p)
    requires h[Root(h, p)].state.Pending? && i < |Dependencies(h[Root(h, p)].how)|
    ensures
      var d := Dependencies(h[Root(h, p)].how)[i];
      d in h && PassesTo(h, Root(h, p), Root(h, d)) && !MeetsCycle(h, d) && !DependsOn(h, Root(h, d), Root(h, d))
  {
    hide Ranked, Forest, DependsOn;
    var r := Root(h, p);
    var d := Dependencies(h[r].how)[i];
    var y := Root(h, d);
    assert PassesTo(h, r, y);
    PassingDepends(h, r, y);
    forall q | DependsOn(h, y, q) ensures DependsOn(h, r, q) {
      DependsTransitive(h, r, y, q);
    }
  }

  /** The recursion of `cancel` ends, however deep it goes, exactly if it does not come to a pending promise that
      depends on itself. */
  lemma CancelEndsExactly(h: Heap, p: Pid)
    requires Forest(h) && Closed(h) && p in h
    ensures (exists n: nat :: Ends(h, n, p)) <==> !MeetsCycle(h, p)
  {
    hide Ranked, Forest, Ends, DependsOn;
    if !MeetsCycle(h, p) {
      EndsWithoutCycle(h, p);
    } else {
      var q :| DependsOn(h, q, q) && (q == Root(h, p) || DependsOn(h, Root(h, p), q));
      forall n: nat ensures !Ends(h, n, p) {
        NoEndAbove(h, n, p, q);
      }
    }
  }

  lemma NoEndAbove(h: Heap, n: nat, p: Pid, q: Pid)
    requires Forest(h) && p in h && DependsOn(h, q, q) && (q == Root(h, p) || DependsOn(h, Root(h, p), q))
    ensures !Ends(h, n, p)
  {
    hide Ranked, Forest, Ends, StepsTo;
    EndsAtRoot(h, n, p);
    if Ends(h, n, p) {
      if q == Root(h, p) {
        NoEndOnCycle(h, n, q);
      } else {
        var k: nat :| k > 0 && StepsTo(h, k, Root(h, p), q);
        EndsSteps(h, n, k, Root(h, p), q);
        NoEndOnCycle(h, n - k, q);
      }
    }
  }

  // ------------------------------------------------------------------------------------------
  // Merging two promises
  // ------------------------------------------------------------------------------------------

  /** The promise that stands for root `x` after root `q` has become a proxy of `o`. */
  function Moved(q: Pid, o: Pid, x: Pid): Pid {
    if x == q then o else x
  }

  lemma MergedLinks(h: Heap, q: Pid, o: Pid, x: Pid, y: Pid)
    requires Forest(h) && q in h && o in h && q != o && h[q].state.Pending? && h[o].state.Pending?
    requires x in h && x != o && PassesTo(h, x, y)
    ensures Forest(Merge(h, q, o)) && Moved(q, o, x) in Merge(h, q, o)
    ensures PassesTo(Merge(h, q, o), Moved(q, o, x), Moved(q, o, y))
  {
    hide Ranked, Forest, Root;
    MergeRoots(h, q, o);
    MergeCells(h, q, o);
    MergedHow(h, q, o, x);
    hide Merge;
    var h' := Merge(h, q, o);
    var k :| 0 <= k < |Dependencies(h[x].how)| && Dependencies(h[x].how)[k] in h &&
             Root(h, Dependencies(h[x].how)[k]) == y;
    assert Root(h', Dependencies(h[x].how)[k]) == Moved(q, o, y);
  }

  lemma MergedHow(h: Heap, q: Pid, o: Pid, x: Pid)
    requires q in h && o in h && q != o && x in h && x != o
    ensures Merge(h, q, o)[Moved(q, o, x)].how == h[x].how && Merge(h, q, o)[x].how == h[x].how
  {
  }

  lemma GoesDown(h: Heap, dep: map<Pid, nat>, a: Pid, b: Pid)
    requires Forest(h) && Acyclic(h, dep) && a in h && PassesTo(h, a, b)
    ensures b in dep && a in dep && dep[b] < dep[a]
  {
    hide Ranked, Forest, Root;
  }

  /** What depends on `o` before depends on it afterwards, and stands above it. */
  lemma {:induction false} AboveOuter(h: Heap, q: Pid, o: Pid, dep': map<Pid, nat>, n: nat, a: Pid)
    requires Forest(h) && q in h && o in h && q != o && h[q].state.Pending? && h[o].state.Pending?
    requires Forest(Merge(h, q, o)) && Acyclic(Merge(h, q, o), dep')
    requires n > 0 && StepsTo(h, n, a, o) && a != o
    ensures Moved(q, o, a) in dep' && o in dep' && dep'[Moved(q, o, a)] > dep'[o]
    decreases n
  {
    hide Ranked, Forest, Acyclic, PassesTo, Merge;
    var y :| PassesTo(h, a, y) && StepsTo(h, n - 1, y, o);
    MergedLinks(h, q, o, a, y);
    GoesDown(Merge(h, q, o), dep', Moved(q, o, a), Moved(q, o, y));
    if y != o {
      AboveOuter(h, q, o, dep', n - 1, y);
    }
  }

  lemma MergeMakesCycle(h: Heap, q: Pid, o: Pid)
    requires Forest(h) && q in h && o in h && q != o && h[q].state.Pending? && h[o].state.Pending?
    requires DependsOn(h, q, o)
    ensures !CanBeRanked(Merge(h, q, o))
  {
    hide Ranked, Acyclic, Merge, StepsTo;
    var n: nat :| n > 0 && StepsTo(h, n, q, o);
    if CanBeRanked(Merge(h, q, o)) {
      var dep' :| Acyclic(Merge(h, q, o), dep');
      AboveOuter(h, q, o, dep', n, q);
      assert false;
    }
  }

  /** The ranks after the merge: what `q` depends on keeps its rank, `o` gets that of `q`, the rest goes above. */
  ghost function MergedRank(h: Heap, dep: map<Pid, nat>, q: Pid, o: Pid): (r: map<Pid, nat>)
    requires Forest(h) && dep.Keys == h.Keys && q in h
    ensures r.Keys == h.Keys
  {
    map x | x in h ::
      if x == q || x == o then dep[q]
      else if DependsOn(h, q, x) then dep[x]
      else dep[x] + dep[q] + 1
  }

  lemma DependsNext(h: Heap, q: Pid, x: Pid, y: Pid)
    requires Forest(h) && q in h && x in h && PassesTo(h, x, y) && (x == q || DependsOn(h, q, x))
    ensures DependsOn(h, q, y)
  {
    hide Ranked, Forest, PassesTo;
    if x == q {
      PassedInHeap(h, x, y);
      assert StepsTo(h, 0, y, y);
      assert StepsTo(h, 1, q, y);
    } else {
      var n: nat :| n > 0 && StepsTo(h, n, q, x);
      OneMoreStep(h, n, q, x, y);
    }
  }

  lemma PassedInHeap(h: Heap, x: Pid, y: Pid)
    requires Forest(h) && x in h && PassesTo(h, x, y)
    ensures y in h
  {
  }

  lemma {:induction false} OneMoreStep(h: Heap, n: nat, a: Pid, x: Pid, y: Pid)
    requires Forest(h) && StepsTo(h, n, a, x) && x in h && PassesTo(h, x, y)
    ensures StepsTo(h, n + 1, a, y)
    decreases n
  {
    hide Ranked, Forest, PassesTo;
    if n == 0 {
      PassedInHeap(h, x, y);
      assert StepsTo(h, 0, y, y);
    } else {
      var z :| PassesTo(h, a, z) && StepsTo(h, n - 1, z, x);
      OneMoreStep(h, n - 1, z, x, y);
    }
  }

  /** Every dependency gets a lower rank. */
  lemma MergedGoesDown(h: Heap, dep: map<Pid, nat>, q: Pid, o: Pid, x: Pid, y: Pid)
    requires Forest(h) && Acyclic(h, dep) && q in h && o in h && q != o && x in h && x != o
    requires PassesTo(h, x, y) && !DependsOn(h, q, o)
    ensures
      var r := MergedRank(h, dep, q, o);
      Moved(q, o, x) in r && Moved(q, o, y) in r && r[Moved(q, o, y)] < r[Moved(q, o, x)] && r[Moved(q, o, y)] < r[x]
  {
    hide Ranked, Forest, StepsTo;
    GoesDown(h, dep, x, y);
    PassedInHeap(h, x, y);
    if x == q || DependsOn(h, q, x) {
      DependsNext(h, q, x, y);
      DependsDown(h, dep, q, y);
    }
    hide DependsOn, PassesTo;
  }

  lemma DependsDown(h: Heap, dep: map<Pid, nat>, a: Pid, b: Pid)
    requires Forest(h) && Acyclic(h, dep) && a in h && DependsOn(h, a, b)
    ensures a in dep && b in dep && dep[b] < dep[a]
  {
    hide Ranked, Forest, Acyclic, StepsTo;
    var n: nat :| n > 0 && StepsTo(h, n, a, b);
    StepsDown(h, dep, n, a, b);
  }

  lemma {:induction false} StepsDown(h: Heap, dep: map<Pid, nat>, n: nat, a: Pid, b: Pid)
    requires Forest(h) && Acyclic(h, dep) && n > 0 && StepsTo(h, n, a, b)
    ensures a in dep && b in dep && dep[b] < dep[a]
    decreases n
  {
    hide Ranked, Forest, Acyclic, PassesTo;
    var y :| PassesTo(h, a, y) && StepsTo(h, n - 1, y, b);
    GoesDown(h, dep, a, y);
    if n > 1 {
      StepsDown(h, dep, n - 1, y, b);
    }
  }

  lemma PassesToRoot(h: Heap, dep: map<Pid, nat>, x: Pid, d: Pid)
    requires Forest(h) && Acyclic(h, dep) && x in h && h[x].state.Pending? && d in Dependencies(h[x].how)
    ensures d in h && PassesTo(h, x, Root(h, d))
  {
    hide Ranked, Forest, Root;
    var i :| 0 <= i < |Dependencies(h[x].how)| && Dependencies(h[x].how)[i] == d;
  }

  lemma MergedDependency(h: Heap, dep: map<Pid, nat>, q: Pid, o: Pid, p: Pid, d: Pid)
    requires Forest(h) && Acyclic(h, dep) && q in h && o in h && q != o
    requires h[q].state.Pending? && h[o].state.Pending? && !DependsOn(h, q, o)
    requires p in h && Merge(h, q, o)[p].state.Pending? && d in Dependencies(Merge(h, q, o)[p].how)
    ensures Forest(Merge(h, q, o)) && d in h && d in Merge(h, q, o)
    ensures
      var r := MergedRank(h, dep, q, o);
      Root(Merge(h, q, o), d) in r && p in r && r[Root(Merge(h, q, o), d)] < r[p]
  {
    hide Ranked, Forest, DependsOn, Root, Merge, MergedRank, PassesTo, Acyclic;
    var x := if p == o then q else p;
    MergeRoots(h, q, o);
    MergeCells(h, q, o);
    MergedHow(h, q, o, x);
    PassesToRoot(h, dep, x, d);
    MergedGoesDown(h, dep, q, o, x, Root(h, d));
  }

  lemma MergeKeepsAcyclic(h: Heap, dep: map<Pid, nat>, q: Pid, o: Pid)
    requires Forest(h) && Acyclic(h, dep) && q in h && o in h && q != o
    requires h[q].state.Pending? && h[o].state.Pending? && !DependsOn(h, q, o)
    ensures Forest(Merge(h, q, o)) && Acyclic(Merge(h, q, o), MergedRank(h, dep, q, o))
  {
    var h', r := Merge(h, q, o), MergedRank(h, dep, q, o);
    hide Ranked, Forest, DependsOn, Root, Merge, MergedRank;
    MergeRoots(h, q, o);
    MergeCells(h, q, o);
    forall p, i | p in h' && h'[p].state.Pending? && 0 <= i < |Dependencies(h'[p].how)|
      ensures Dependencies(h'[p].how)[i] in h' && r[Root(h', Dependencies(h'[p].how)[i])] < r[p]
    {
      MergedDependency(h, dep, q, o, p, Dependencies(h'[p].how)[i]);
    }
  }

  /** Making the pending root `q` a proxy of the pending root `o` keeps the graph acyclic exactly if `q` does not
      depend on `o`. */
  lemma MergeAcyclicExactly(h: Heap, q: Pid, o: Pid)
    requires CanBeRanked(h) && q in h && o in h && q != o && h[q].state.Pending? && h[o].state.Pending?
    ensures CanBeRanked(Merge(h, q, o)) <==> !DependsOn(h, q, o)
  {
    hide Ranked, Acyclic, DependsOn, Merge;
    if DependsOn(h, q, o) {
      MergeMakesCycle(h, q, o);
    } else {
      var dep :| Acyclic(h, dep);
      MergeKeepsAcyclic(h, dep, q, o);
    }
  }

  // ------------------------------------------------------------------------------------------
  // Every other action leaves the graph alone or adds a promise that nothing depends on
  // ------------------------------------------------------------------------------------------

  /** No link and no way of cancelling differs; pending promises may have been resolved. */
  ghost predicate SameGraph(h: Heap, h': Heap) {
    && h'.Keys == h.Keys && SameLinks(h, h')
    && forall p :: p in h ==> h'[p].how == h[p].how && (h'[p].state.Pending? ==> h[p].state.Pending?)
  }

  lemma SameGraphTransitive(h0: Heap, h1: Heap, h2: Heap)
    requires SameGraph(h0, h1) && SameGraph(h1, h2)
    ensures SameGraph(h0, h2)
  {
  }

  /** Ranks do for any heap with the same roots and dependencies. */
  lemma SameRoots(h: Heap, h': Heap)
    requires CanBeRanked(h) && Forest(h') && h'.Keys == h.Keys
    requires forall p :: p in h ==> Root(h', p) == Root(h, p)
    requires forall p :: p in h ==> h'[p].how == h[p].how && (h'[p].state.Pending? ==> h[p].state.Pending?)
    ensures CanBeRanked(h')
  {
    var dep :| Acyclic(h, dep);
    hide Ranked, Forest, Root;
    assert Acyclic(h', dep);
  }

  lemma SameGraphKeeps(h: Heap, h': Heap)
    requires CanBeRanked(h) && SameGraph(h, h')
    ensures CanBeRanked(h')
  {
    SameLinksRoots(h, h');
    hide Ranked, Forest, Root, CanBeRanked, SameLinks;
    SameRoots(h, h');
  }

  lemma {:induction false} Above(dep: map<Pid, nat>) returns (top: nat)
    ensures forall p :: p in dep ==> dep[p] < top
    decreases |dep|
  {
    top := 0;
    if p :| p in dep {
      var rest := dep - {p};
      assert rest.Keys == dep.Keys - {p};
      top := Above(rest);
      assert forall x :: x in dep ==> x == p || (x in rest && rest[x] == dep[x]);
      top := top + dep[p] + 1;
    }
  }

  lemma NewCellRanked(h: Heap, dep: map<Pid, nat>, o: Pid, cell: Promise, top: nat)
    requires Forest(h) && Forest(h[o := cell]) && Acyclic(h, dep) && o !in h && forall p :: p in dep ==> dep[p] < top
    requires forall i :: 0 <= i < |Dependencies(cell.how)| ==> Dependencies(cell.how)[i] in h
    requires forall p :: p in h ==> Root(h[o := cell], p) == Root(h, p)
    ensures Acyclic(h[o := cell], dep[o := top])
  {
    hide Ranked, Forest, Root;
    var h', dep' := h[o := cell], dep[o := top];
    forall p, i | p in h' && h'[p].state.Pending? && 0 <= i < |Dependencies(h'[p].how)|
      ensures Dependencies(h'[p].how)[i] in h' && dep'[Root(h', Dependencies(h'[p].how)[i])] < dep'[p]
    {
      var d := Dependencies(h'[p].how)[i];
      assert d in h && Root(h', d) == Root(h, d) && Root(h, d) in h;
    }
  }

  lemma NewCellKeeps(h: Heap, o: Pid, cell: Promise)
    requires CanBeRanked(h) && o !in h && !cell.state.Proxy?
    requires forall i :: 0 <= i < |Dependencies(cell.how)| ==> Dependencies(cell.how)[i] in h
    ensures CanBeRanked(h[o := cell])
  {
    hide Ranked, Forest, Root, Acyclic;
    SameLinksRoots(h, h[o := cell]);
    var dep :| Acyclic(h, dep);
    var top := Above(dep);
    NewCellRanked(h, dep, o, cell, top);
  }

  lemma ResolveGraph(m: Machine, p: Pid, r: Result, d: Deferring)
    ensures SameGraph(m.heap, Resolve(m, p, r, d).heap)
  {
    hide SameGraph, SetState;
    Unchanged(m.heap);
    if p in m.heap && m.heap[p].state.Pending? {
      SettleGraph(m.heap, p, r);
    }
  }

  lemma SettleGraph(h: Heap, p: Pid, r: Result)
    requires p in h && h[p].state.Pending?
    ensures SameGraph(h, SetState(h, p, Resolved(r)))
  {
  }

  lemma ResolveOuterGraph(m: Machine, t: Cid, outer: Pid, r: Result)
    requires Forest(m.heap)
    ensures SameGraph(m.heap, ResolveOuter(m, t, outer, r).heap)
  {
    hide SameGraph, Ranked, Resolve;
    Unchanged(m.heap);
    if outer in m.heap {
      ResolveGraph(Discharge(m, t), Root(m.heap, outer), r, Never);
    }
  }

  lemma Unchanged(h: Heap)
    ensures SameGraph(h, h)
  {
  }

  lemma DispatchGraph(m: Machine, c: Cid, r: Result, computed: Result)
    requires Forest(m.heap) && c in m.cbs
    ensures SameGraph(m.heap, Dispatch(m, c, r, computed).heap)
  {
    hide SameGraph, Ranked, Forest, ResolveOuter;
    Unchanged(m.heap);
    var m1 := m.(live := m.live - {c}, ran := m.ran + [c]);
    var k := m.cbs[c].kind;
    if HasOuter(k) {
      ResolveOuterGraph(m1, c, k.outer, r);
      ResolveOuterGraph(m1, c, k.outer, computed);
    } else if k.JoinMember? && k.join in m.joins {
      var join := JoinUpdate(m.joins[k.join], r);
      ResolveOuterGraph(m1.(joins := m.joins[k.join := join]), k.join, join.outer, join.result);
    }
  }

  lemma ListsGraph(h: Heap, rid: Pid, p: Promise)
    requires rid in h && p.state == h[rid].state && p.how == h[rid].how
    ensures SameGraph(h, h[rid := p])
  {
  }

  lemma RunStepGraph(m: Machine, rid: Pid, r: Result, computed: Result)
    requires Forest(m.heap) && m.stack != []
    ensures SameGraph(m.heap, RunStep(m, rid, r, computed).heap)
  {
    hide SameGraph, Ranked, Dispatch;
    Unchanged(m.heap);
    if rid in m.heap {
      var p := m.heap[rid];
      if r == Rejected(Canceled) && p.cancel != [] {
        ListsGraph(m.heap, rid, p.(cancel := p.cancel[1..]));
      } else if p.regular != [] {
        var c := p.regular[0];
        var m1 := m.(heap := m.heap[rid := p.(regular := p.regular[1..])]);
        ListsGraph(m.heap, rid, p.(regular := p.regular[1..]));
        SameLinksForest(m.heap, m1.heap);
        if c in m.cbs {
          DispatchGraph(m1, c, r, computed);
          SameGraphTransitive(m.heap, m1.heap, Dispatch(m1, c, r, computed).heap);
        }
      }
    }
  }

  lemma CancelGraph(h: Heap, order: seq<Pid>)
    requires CancelTargets(h, order)
    ensures SameGraph(h, MarkCanceled(h, order))
  {
  }

  lemma EngineGraph(m: Machine, computed: Result, order: seq<Pid>)
    requires Forest(m.heap) && !UserTurn(m) && CancelTargets(m.heap, order)
    ensures SameGraph(m.heap, DoEngine(m, computed, order).heap)
  {
    hide SameGraph, Ranked, RunStep, PickStep;
    Unchanged(m.heap);
    match m.stack[|m.stack| - 1]
    case Loop(snapshot) =>
    case Run(rid, r) => RunStepGraph(m, rid, r, computed);
    case CancelRun(rids) =>
    case PickCancel(c, rest, r, t) => PickStepGraph(m, c, rest, r, t, order);
  }

  lemma PickStepGraph(m: Machine, c: Cid, rest: seq<Pid>, r: Result, t: Target, order: seq<Pid>)
    requires Forest(m.heap) && m.stack != [] && CancelTargets(m.heap, order)
    ensures SameGraph(m.heap, PickStep(m, c, rest, r, t, order).heap)
  {
    hide SameGraph, Ranked, Resolve, ResolveOuter, MarkCanceled;
    Unchanged(m.heap);
    if rest != [] {
      CancelGraph(m.heap, order);
    } else if t.Captured? {
      ResolveGraph(Discharge(Pop(m), c), t.p, r, Never);
    } else if c in m.cbs && HasOuter(m.cbs[c].kind) {
      ResolveOuterGraph(Pop(m), c, m.cbs[c].kind.outer, r);
    }
  }

  lemma OnlyListsGraph(h: Heap, h': Heap)
    requires OnlyLists(h, h')
    ensures SameGraph(h, h')
  {
  }

  /** Promise `o` is new, it depends on existing promises only, and callbacks may have been registered. */
  ghost predicate AddsPromise(h: Heap, o: Pid, cell: Promise, h': Heap) {
    && o !in h && !cell.state.Proxy? && OnlyLists(h[o := cell], h')
    && forall i :: 0 <= i < |Dependencies(cell.how)| ==> Dependencies(cell.how)[i] in h
  }

  lemma NewOuterKeeps(h: Heap, o: Pid, cell: Promise, h': Heap)
    requires CanBeRanked(h) && AddsPromise(h, o, cell, h')
    ensures CanBeRanked(h')
  {
    hide CanBeRanked, SameGraph, OnlyLists;
    NewCellKeeps(h, o, cell);
    OnlyListsGraph(h[o := cell], h');
    SameGraphKeeps(h[o := cell], h');
  }

  lemma CreateGraph(m: Machine, a: Action)
    requires Enabled(m, a) && Creates(a)
    ensures SameGraph(m.heap, Apply(m, a).heap) || exists o, cell :: AddsPromise(m.heap, o, cell, Apply(m, a).heap)
  {
    hide Ranked, SameGraph, PendingRoots;
    var h' := Apply(m, a).heap;
    match a
    case NewInitial(p, cancelable) => assert AddsPromise(m.heap, p, h'[p], h');
    case NewResolved(p, r) => assert AddsPromise(m.heap, p, h'[p], h');
    case Attach(c, src, kind) =>
      var root := Root(m.heap, src);
      var cell := Promise(Pending, if kind.Forward? then NotCancelable else PropagateToOne(root), [], []);
      assert AddsPromise(m.heap, kind.outer, cell, h');
    case AttachPlain(c, src) => OnlyListsGraph(m.heap, h');
    case OnCancel(src) => OnlyListsGraph(m.heap, h');
    case NewJoin(j, outer, ps, cs) => JoinGraph(m, j, outer, ps, cs);
    case NewChoice(c, ps, kind) => ChoiceGraph(m, c, ps, kind);
  }

  lemma JoinGraph(m: Machine, j: Cid, outer: Pid, ps: seq<Pid>, cs: seq<Cid>)
    requires Enabled(m, NewJoin(j, outer, ps, cs))
    ensures exists o, cell :: AddsPromise(m.heap, o, cell, Apply(m, NewJoin(j, outer, ps, cs)).heap)
  {
    hide Ranked, PendingRoots, AddAll, OnlyLists;
    var cell := Promise(Pending, PropagateToSeveral(ps), [], []);
    AddAllLinks(m.heap[outer := cell], PendingRoots(m.heap, ps), cs);
    assert AddsPromise(m.heap, outer, cell, Apply(m, NewJoin(j, outer, ps, cs)).heap);
  }

  lemma ChoiceGraph(m: Machine, c: Cid, ps: seq<Pid>, kind: Kind)
    requires Enabled(m, NewChoice(c, ps, kind))
    ensures exists o, cell :: AddsPromise(m.heap, o, cell, Apply(m, NewChoice(c, ps, kind)).heap)
  {
    hide Ranked, AddAll, OnlyLists;
    var cell := Promise(Pending, PropagateToSeveral(ps), [], []);
    var rs := Roots(m.heap, ps);
    AddAllLinks(m.heap[kind.outer := cell], rs, seq(|rs|, _ => c));
    assert AddsPromise(m.heap, kind.outer, cell, Apply(m, NewChoice(c, ps, kind)).heap);
  }

  lemma CreateKeeps(m: Machine, a: Action)
    requires CanBeRanked(m.heap) && Enabled(m, a) && Creates(a)
    ensures CanBeRanked(Apply(m, a).heap)
  {
    CreateGraph(m, a);
    hide CanBeRanked, SameGraph, AddsPromise, Enabled, Apply;
    var h' := Apply(m, a).heap;
    if SameGraph(m.heap, h') {
      SameGraphKeeps(m.heap, h');
    } else {
      var o, cell :| AddsPromise(m.heap, o, cell, h');
      NewOuterKeeps(m.heap, o, cell, h');
    }
  }

  lemma SameGraphClosed(h: Heap, h': Heap)
    requires Closed(h) && SameGraph(h, h')
    ensures Closed(h')
  {
  }

  lemma AddedClosed(h: Heap, o: Pid, cell: Promise, h': Heap)
    requires Closed(h) && AddsPromise(h, o, cell, h')
    ensures Closed(h')
  {
  }

  lemma MergedClosed(h: Heap, q: Pid, o: Pid)
    requires Closed(h) && q in h && o in h && q != o && h[q].state.Pending?
    ensures Closed(Merge(h, q, o))
  {
  }

  lemma ReturnClosed(m: Machine, u: Pid)
    requires Closed(m.heap) && Enabled(m, ReturnPromise(u))
    ensures Closed(Apply(m, ReturnPromise(u)).heap)
  {
    hide Closed, Ranked, SameGraph, Merge, Resolve;
    var c := m.stack[|m.stack| - 1].cb;
    if c in m.cbs && HasOuter(m.cbs[c].kind) && m.cbs[c].kind.outer in m.heap {
      var m1, o, q := Discharge(Pop(m), c), Root(m.heap, m.cbs[c].kind.outer), Root(m.heap, u);
      if q != o && m.heap[q].state.Resolved? {
        ResolveGraph(m1, o, m.heap[q].state.result, Never);
        SameGraphClosed(m.heap, Resolve(m1, o, m.heap[q].state.result, Never).heap);
      } else if q != o && m.heap[o].state.Pending? {
        MergedClosed(m.heap, q, o);
      }
    }
  }

  lemma ApplyKeepsClosed(m: Machine, a: Action)
    requires Closed(m.heap) && Enabled(m, a)
    ensures Closed(Apply(m, a).heap)
  {
    hide Closed, Ranked, SameGraph, AddsPromise;
    var h' := Apply(m, a).heap;
    if Creates(a) {
      CreateGraph(m, a);
      if o, cell :| AddsPromise(m.heap, o, cell, h') {
        AddedClosed(m.heap, o, cell, h');
      } else {
        SameGraphClosed(m.heap, h');
      }
    } else if a.ReturnPromise? {
      ReturnClosed(m, a.u);
    } else if a.Compress? {
      CompressClosed(m.heap, a.p);
    } else {
      OtherGraph(m, a);
      SameGraphClosed(m.heap, h');
    }
  }

  lemma CompressClosed(h: Heap, p: Pid)
    requires Closed(h) && Forest(h) && p in h && h[p].state.Proxy?
    ensures Closed(SetState(h, p, Proxy(Root(h, p))))
  {
    hide Ranked, Root;
  }

  /** The function given to bind returns a pending promise whose cancellation goes on to the outer promise. */
  ghost predicate LoopsBack(m: Machine, u: Pid) {
    && Forest(m.heap) && u in m.heap && m.stack != [] && m.stack[|m.stack| - 1].UserBind?
    && var c := m.stack[|m.stack| - 1].cb;
       && c in m.cbs && HasOuter(m.cbs[c].kind) && m.cbs[c].kind.outer in m.heap
       && var o, q := Root(m.heap, m.cbs[c].kind.outer), Root(m.heap, u);
          q != o && m.heap[q].state.Pending? && DependsOn(m.heap, q, o)
  }

  lemma ProxyAcyclic(m: Machine, o: Pid, u: Pid)
    requires CanBeRanked(m.heap) && u in m.heap && o in m.heap && m.heap[o].state.Pending?
    ensures
      var q := Root(m.heap, u);
      CanBeRanked(MakeIntoProxy(m, o, u).heap) <==> !(q != o && m.heap[q].state.Pending? && DependsOn(m.heap, q, o))
  {
    var q := Root(m.heap, u);
    assert Forest(m.heap);
    hide CanBeRanked, Ranked, DependsOn, SameGraph, Merge, Resolve;
    if q != o && m.heap[q].state.Resolved? {
      ResolveGraph(m, o, m.heap[q].state.result, Never);
      SameGraphKeeps(m.heap, Resolve(m, o, m.heap[q].state.result, Never).heap);
    } else if q != o {
      MergeAcyclicExactly(m.heap, q, o);
    }
  }

  /** When the function given to bind returns `u`, the graph stays acyclic exactly if `u` is not a pending promise
      that depends on the outer promise. */
  lemma ReturnAcyclicExactly(m: Machine, u: Pid)
    requires Inv(m) && Enabled(m, ReturnPromise(u)) && HasNoCycle(m.heap)
    ensures HasNoCycle(Apply(m, ReturnPromise(u)).heap) <==> !LoopsBack(m, u)
  {
    ReturnRanked(m, u);
    hide Inv, HasNoCycle, CanBeRanked, Ranked, LoopsBack, Forest, Enabled, Apply;
    var h' := Apply(m, ReturnPromise(u)).heap;
    HasNoCycleForest(m.heap);
    RankedExactly(m.heap);
    ReturnPromiseForest(m, u);
    RankedExactly(h');
  }

  lemma HasNoCycleForest(h: Heap)
    requires HasNoCycle(h) || CanBeRanked(h)
    ensures Forest(h)
  {
  }

  lemma ReturnPromiseForest(m: Machine, u: Pid)
    requires Enabled(m, ReturnPromise(u))
    ensures Forest(Apply(m, ReturnPromise(u)).heap)
  {
    hide Enabled, Apply;
    ApplyExtends(m, ReturnPromise(u));
  }

  lemma ReturnRanked(m: Machine, u: Pid)
    requires Inv(m) && Enabled(m, ReturnPromise(u))
    ensures CanBeRanked(m.heap) ==> (CanBeRanked(Apply(m, ReturnPromise(u)).heap) <==> !LoopsBack(m, u))
  {
    if !CanBeRanked(m.heap) {
      return;
    }
    ReturningFrame(m);
    hide Inv, CanBeRanked, Ranked, DependsOn, MakeIntoProxy;
    var c := m.stack[|m.stack| - 1].cb;
    ProxyAcyclic(Discharge(Pop(m), c), Root(m.heap, m.cbs[c].kind.outer), u);
  }

  lemma ApplyKeepsRanks(m: Machine, a: Action)
    requires Inv(m) && Enabled(m, a) && CanBeRanked(m.heap) && !a.ReturnPromise?
    ensures CanBeRanked(Apply(m, a).heap)
  {
    hide Inv, CanBeRanked, Ranked, SameGraph;
    if Creates(a) {
      CreateKeeps(m, a);
    } else if a.Compress? {
      CompressKeeps(m.heap, a.p);
    } else {
      OtherGraph(m, a);
      SameGraphKeeps(m.heap, Apply(m, a).heap);
    }
  }

  /** No other action makes a promise depend on itself. */
  lemma ApplyKeepsAcyclic(m: Machine, a: Action)
    requires Inv(m) && Enabled(m, a) && HasNoCycle(m.heap) && (a.ReturnPromise? ==> !LoopsBack(m, a.u))
    ensures HasNoCycle(Apply(m, a).heap)
  {
    hide Inv, HasNoCycle, CanBeRanked, LoopsBack, Forest, Enabled, Apply;
    if a.ReturnPromise? {
      ReturnAcyclicExactly(m, a.u);
    } else {
      HasNoCycleForest(m.heap);
      RankedExactly(m.heap);
      ApplyKeepsRanks(m, a);
      HasNoCycleForest(Apply(m, a).heap);
      RankedExactly(Apply(m, a).heap);
    }
  }

  lemma CompressKeeps(h: Heap, p: Pid)
    requires CanBeRanked(h) && p in h && h[p].state.Proxy?
    ensures Forest(h) && CanBeRanked(SetState(h, p, Proxy(Root(h, p))))
  {
    CompressRoots(h, p);
    hide Ranked, Forest, Root, CanBeRanked;
    SameRoots(h, SetState(h, p, Proxy(Root(h, p))));
  }

  lemma OtherGraph(m: Machine, a: Action)
    requires Enabled(m, a) && !Creates(a) && !a.ReturnPromise? && !a.Compress?
    ensures SameGraph(m.heap, Apply(m, a).heap)
  {
    hide Ranked, SameGraph, DoEngine, Resolve, ResolveOuter, MarkCanceled;
    Unchanged(m.heap);
    match a
    case Wakeup(p, r, later) => ResolveGraph(m, Root(m.heap, p), r, if later then FromDepth(1) else Never);
    case CancelPromise(order) => CancelGraph(m.heap, order);
    case ReturnValue(r) =>
      var c := m.stack[|m.stack| - 1].cb;
      if c in m.cbs && HasOuter(m.cbs[c].kind) {
        ResolveOuterGraph(Pop(m), c, m.cbs[c].kind.outer, r);
      }
    case ReturnUser =>
    case SetStorage(_) =>
    case Sweep(p, i) =>
      var l := m.heap[p].regular;
      ListsGraph(m.heap, p, m.heap[p].(regular := l[..i] + l[i + 1..]));
    case Engine(computed, order) => EngineGraph(m, computed, order);
  }

  // ------------------------------------------------------------------------------------------
  // Every run
  // ------------------------------------------------------------------------------------------

  /** A step at which no function given to bind returns a pending promise that depends on the outer promise. */
  ghost predicate OrderlyNext(m: Machine, m': Machine) {
    exists a :: Enabled(m, a) && m' == Apply(m, a) && (a.ReturnPromise? ==> !LoopsBack(m, a.u))
  }

  lemma EmptyGraph()
    ensures Forest(map[]) && HasNoCycle(map[])
  {
    assert Ranked(map[], map[]);
  }

  lemma {:induction false} RunClosed(ms: seq<Machine>, n: nat)
    requires IsRun(ms) && n < |ms|
    ensures Forest(ms[n].heap) && Closed(ms[n].heap)
  {
    hide Enabled, Apply, Closed, Forest, HasNoCycle;
    if n == 0 {
      EmptyGraph();
      HasNoCycleClosed(map[]);
    } else {
      RunClosed(ms, n - 1);
      assert Next(ms[n - 1], ms[n]);
      var a :| Enabled(ms[n - 1], a) && ms[n] == Apply(ms[n - 1], a);
      ApplyKeepsClosed(ms[n - 1], a);
      ApplyForest(ms[n - 1], a);
    }
  }

  lemma HasNoCycleClosed(h: Heap)
    requires HasNoCycle(h)
    ensures Closed(h)
  {
  }

  lemma {:induction false} GraphStaysAcyclic(ms: seq<Machine>, n: nat)
    requires IsRun(ms) && n < |ms| && forall i :: 0 <= i < n ==> OrderlyNext(ms[i], ms[i + 1])
    ensures HasNoCycle(ms[n].heap)
  {
    hide Inv, Enabled, Apply, LoopsBack, HasNoCycle;
    if n == 0 {
      EmptyGraph();
    } else {
      GraphStaysAcyclic(ms, n - 1);
      assert OrderlyNext(ms[n - 1], ms[n - 1 + 1]);
      var a :| Enabled(ms[n - 1], a) && ms[n] == Apply(ms[n - 1], a) &&
               (a.ReturnPromise? ==> !LoopsBack(ms[n - 1], a.u));
      EnabledInv(ms, n - 1, a);
      ApplyKeepsAcyclic(ms[n - 1], a);
    }
  }

  /** In every run, no promise ever depends on itself exactly if no function given to bind ever returns a pending
      promise that depends on the outer promise. */
  lemma GraphAcyclicExactly(ms: seq<Machine>)
    requires IsRun(ms)
    ensures (forall n :: 0 <= n < |ms| ==> HasNoCycle(ms[n].heap)) <==>
            (forall n :: 0 <= n < |ms| - 1 ==> OrderlyNext(ms[n], ms[n + 1]))
  {
    hide Inv, Enabled, Apply, LoopsBack, HasNoCycle, OrderlyNext;
    if forall n :: 0 <= n < |ms| - 1 ==> OrderlyNext(ms[n], ms[n + 1]) {
      forall n | 0 <= n < |ms| ensures HasNoCycle(ms[n].heap) {
        GraphStaysAcyclic(ms, n);
      }
    }
    if forall n :: 0 <= n < |ms| ==> HasNoCycle(ms[n].heap) {
      forall n | 0 <= n < |ms| - 1 ensures OrderlyNext(ms[n], ms[n + 1]) {
        RunInv(ms, n);
        assert HasNoCycle(ms[n + 1].heap);
        AcyclicIsOrderly(ms[n], ms[n + 1]);
      }
    }
  }

  lemma AcyclicIsOrderly(m: Machine, m': Machine)
    requires Inv(m.(crashed := false)) && Next(m, m') && HasNoCycle(m.heap) && HasNoCycle(m'.heap)
    ensures OrderlyNext(m, m')
  {
    hide Inv, Enabled, Apply, LoopsBack, HasNoCycle;
    var a :| Enabled(m, a) && m' == Apply(m, a);
    NotCrashed(m, a);
    if a.ReturnPromise? {
      ReturnAcyclicExactly(m, a.u);
    }
  }

  /** In every state of every run, the recursion of `cancel` on a promise ends exactly if it does not come to a
      pending promise that depends on itself; so it always ends if no promise depends on itself. */
  lemma CancelEndsInRuns(ms: seq<Machine>, n: nat, p: Pid)
    requires IsRun(ms) && n < |ms| && p in ms[n].heap
    ensures
      var h := ms[n].heap;
      && Forest(h) && ((exists k: nat :: Ends(h, k, p)) <==> !MeetsCycle(h, p))
      && (HasNoCycle(h) ==> exists k: nat :: Ends(h, k, p))
  {
    hide Enabled, Apply, Ends, DependsOn, Closed;
    RunClosed(ms, n);
    hide Forest;
    CancelEndsExactly(ms[n].heap, p);
  }

  // ------------------------------------------------------------------------------------------
  // A cycle
  // ------------------------------------------------------------------------------------------

  /** A promise that passes a cancellation on to itself. */
  lemma SelfCycle(h: Heap, p: Pid)
    requires Forest(h) && p in h && h[p].state.Pending? && h[p].how == PropagateToOne(p)
    ensures DependsOn(h, p, p) && MeetsCycle(h, p)
  {
    hide Ranked;
    assert Dependencies(h[p].how)[0] == p && Root(h, p) == p;
    assert PassesTo(h, p, p);
    PassingDepends(h, p, p);
  }

  const BIND_P := Bind(1, true, false)
  const BIND_R := Bind(2, true, false)
  const CALLBACKS := map[0 := Callback(BIND_P, 0), 1 := Callback(BIND_R, 0)]

  /** Promise 0 is waited for by promise 1, and that by promise 2. */
  lemma ChainIsBuilt() returns (ms: seq<Machine>)
    ensures IsRun(ms)
    ensures
      var m := ms[|ms| - 1];
      && m.heap == map[0 := Promise(Pending, NotCancelable, [0], []),
                       1 := Promise(Pending, PropagateToOne(0), [1], []),
                       2 := Promise(Pending, PropagateToOne(1), [], [])]
      && m.cbs == CALLBACKS && m.stack == [] && m.initial == {0} && m.depth == 0 && !m.crashed && Forest(m.heap)
  {
    hide Ranked;
    InitialForest();
    var m0 := INITIAL;
    RunSnoc([m0], m0, NewInitial(0, false));
    var m1 := Apply(m0, NewInitial(0, false));
    assert m1.heap == map[0 := Promise(Pending, NotCancelable, [], [])];
    assert Root(m1.heap, 0) == 0;
    RunSnoc([m0] + [m1], m1, Attach(0, 0, BIND_P));
    var m2 := Apply(m1, Attach(0, 0, BIND_P));
    assert m2.heap[0].regular == [0] && m2.heap.Keys == {0, 1};
    assert m2.heap == map[0 := Promise(Pending, NotCancelable, [0], []),
                          1 := Promise(Pending, PropagateToOne(0), [], [])];
    assert Root(m2.heap, 1) == 1;
    RunSnoc([m0] + [m1] + [m2], m2, Attach(1, 1, BIND_R));
    var m3 := Apply(m2, Attach(1, 1, BIND_R));
    assert m3.heap[1].regular == [1] && m3.heap.Keys == {0, 1, 2};
    ms := [m0] + [m1] + [m2] + [m3];
  }

  /** Promise 0 is resolved, and the function given to the first bind has been called. */
  lemma FunctionIsCalled() returns (ms: seq<Machine>)
    ensures IsRun(ms)
    ensures
      var m := ms[|ms| - 1];
      && m.heap == map[0 := Promise(Resolved(Fulfilled(0)), NotCancelable, [], []),
                       1 := Promise(Pending, PropagateToOne(0), [1], []),
                       2 := Promise(Pending, PropagateToOne(1), [], [])]
      && m.cbs == CALLBACKS && |m.stack| > 0 && m.stack[|m.stack| - 1] == UserBind(0) && !m.crashed && Forest(m.heap)
  {
    hide Ranked;
    var before := ChainIsBuilt();
    var m3 := before[|before| - 1];
    RunSnoc(before, m3, Wakeup(0, Fulfilled(0), false));
    var m4 := Apply(m3, Wakeup(0, Fulfilled(0), false));
    assert Root(m3.heap, 0) == 0;
    assert m4.heap == m3.heap[0 := Promise(Resolved(Fulfilled(0)), NotCancelable, [0], [])];
    RunSnoc(before + [m4], m4, Engine(Fulfilled(0), []));
    var m5 := Apply(m4, Engine(Fulfilled(0), []));
    assert m5.heap[0].regular == [];
    assert m5.heap == m4.heap[0 := Promise(Resolved(Fulfilled(0)), NotCancelable, [], [])];
    assert m5.heap.Keys == {0, 1, 2};
    ms := before + [m4] + [m5];
  }

  /** The function returns promise 2, which depends on the promise 1 that it is to stand for: after that promise 1
      passes a cancellation on to itself, and `cancel` on it does not end. */
  lemma CycleIsReached() returns (ms: seq<Machine>)
    ensures IsRun(ms)
    ensures
      var h := ms[|ms| - 1].heap;
      && Forest(h) && 1 in h && h[1].state.Pending? && h[1].how == PropagateToOne(1)
      && DependsOn(h, 1, 1) && forall n: nat :: !Ends(h, n, 1)
  {
    hide Ranked;
    var before := FunctionIsCalled();
    var m5 := before[|before| - 1];
    RunSnoc(before, m5, ReturnPromise(2));
    var m6 := Apply(m5, ReturnPromise(2));
    ms := before + [m6];
    SelfCycle(m6.heap, 1);
    hide DependsOn, Ends;
    forall n: nat ensures !Ends(m6.heap, n, 1) {
      NoEndOnCycle(m6.heap, n, 1);
    }
  }
}
