/** Promise cells and the proxy forest (src/core/lwt.ml, modules Main_internal_types and
    Basic_helpers).

    A promise is a mutable cell that is pending, resolved, or a proxy for another promise.  The
    callbacks record of a pending promise is kept in the cell; once the promise is resolved the
    record is only reachable from the resolution loop, which consumes it from there. */
module PromiseHeap {
  type Pid = nat
  type Cid = nat
  type Storage = int

  datatype Exn = Canceled | Raised(code: int)
  datatype Result = Fulfilled(value: int) | Rejected(exn: Exn)

  datatype HowToCancel =
    | NotCancelable
    | CancelThisPromise
    | PropagateToOne(p: Pid)
    | PropagateToSeveral(ps: seq<Pid>)

  datatype State = Pending | Resolved(result: Result) | Proxy(to: Pid)

  /** `regular` lists regular callbacks; a cancel callback is listed by the storage it runs in. */
  datatype Promise = Promise(state: State, how: HowToCancel, regular: seq<Cid>, cancel: seq<Storage>)

  type Heap = map<Pid, Promise>

  /** `rank` strictly decreases along every proxy link, and no link leaves the heap. */
  ghost predicate Ranked(h: Heap, rank: map<Pid, nat>) {
    && rank.Keys == h.Keys
    && forall p :: p in h && h[p].state.Proxy? ==> h[p].state.to in h && rank[h[p].state.to] < rank[p]
  }

  /** The proxy links form an acyclic forest. */
  ghost predicate Forest(h: Heap) {
    exists rank :: Ranked(h, rank)
  }

  lemma ForestByRank(h: Heap, rank: map<Pid, nat>)
    requires Ranked(h, rank)
    ensures Forest(h)
  {
  }

  ghost function RankOf(h: Heap): (rank: map<Pid, nat>)
    requires Forest(h)
    ensures Ranked(h, rank)
  {
    var rank :| Ranked(h, rank);
    rank
  }

  /** The promise at the end of the chain of proxy links from `p`. */
  ghost function Root(h: Heap, p: Pid): (r: Pid)
    requires Forest(h) && p in h
    ensures r in h && !h[r].state.Proxy?
    ensures !h[p].state.Proxy? ==> r == p
    decreases RankOf(h)[p]
  {
    match h[p].state
    case Proxy(q) => Root(h, q)
    case _ => p
  }

  /** What any holder of a reference to `p` can observe. */
  ghost function Observed(h: Heap, p: Pid): (s: State)
    requires Forest(h) && p in h
    ensures !s.Proxy?
  {
    h[Root(h, p)].state
  }

  // ------------------------------------------------------------------------------------------
  // How the three kinds of heap update act on roots
  // ------------------------------------------------------------------------------------------

  /** `h'` extends `h`, and every cell of `h` has the same outgoing link in `h'`. */
  ghost predicate SameLinks(h: Heap, h': Heap) {
    && h.Keys <= h'.Keys
    && (forall p :: p in h ==> h[p].state.Proxy? == h'[p].state.Proxy?)
    && (forall p :: p in h && h[p].state.Proxy? ==> h[p].state.to == h'[p].state.to)
    && (forall p :: p in h' && p !in h ==> !h'[p].state.Proxy?)
  }

  lemma SameLinksForest(h: Heap, h': Heap)
    requires Forest(h) && SameLinks(h, h')
    ensures Forest(h')
  {
    var rank := RankOf(h);
    var rank' := map p | p in h' :: if p in h then rank[p] else 0;
    assert Ranked(h', rank');
  }

  lemma {:induction false} SameLinksRoot(h: Heap, h': Heap, p: Pid)
    requires Forest(h) && Forest(h') && SameLinks(h, h') && p in h
    ensures Root(h', p) == Root(h, p)
    decreases RankOf(h)[p]
  {
    if h[p].state.Proxy? {
      SameLinksRoot(h, h', h[p].state.to);
    }
  }

  /** Updates that keep the links keep every root. */
  lemma SameLinksRoots(h: Heap, h': Heap)
    requires Forest(h) && SameLinks(h, h')
    ensures Forest(h')
    ensures forall p :: p in h ==> Root(h', p) == Root(h, p)
  {
    SameLinksForest(h, h');
    forall p | p in h ensures Root(h', p) == Root(h, p) {
      SameLinksRoot(h, h', p);
    }
  }

  function SetState(h: Heap, p: Pid, s: State): (h': Heap)
    requires p in h
    ensures h'.Keys == h.Keys
  {
    h[p := h[p].(state := s)]
  }

  lemma {:induction false} CompressRoot(h: Heap, p: Pid, x: Pid)
    requires Forest(h) && p in h && h[p].state.Proxy? && x in h
    requires Forest(SetState(h, p, Proxy(Root(h, p))))
    ensures Root(SetState(h, p, Proxy(Root(h, p))), x) == Root(h, x)
    decreases RankOf(h)[x]
  {
    var h' := SetState(h, p, Proxy(Root(h, p)));
    if x == p {
      assert Root(h', x) == Root(h', Root(h, p));
    } else if h[x].state.Proxy? {
      CompressRoot(h, p, h[x].state.to);
    }
  }

  lemma {:induction false} RankDropsToRoot(h: Heap, p: Pid, rank: map<Pid, nat>)
    requires Forest(h) && p in h && Ranked(h, rank)
    ensures rank[Root(h, p)] <= rank[p]
    ensures h[p].state.Proxy? ==> rank[Root(h, p)] < rank[p]
    decreases RankOf(h)[p]
  {
    if h[p].state.Proxy? {
      RankDropsToRoot(h, h[p].state.to, rank);
    }
  }

  lemma CompressForest(h: Heap, p: Pid)
    requires Forest(h) && p in h && h[p].state.Proxy?
    ensures Forest(SetState(h, p, Proxy(Root(h, p))))
  {
    var rank, root := RankOf(h), Root(h, p);
    RankDropsToRoot(h, p, rank);
    hide Root, Forest;
    var h' := SetState(h, p, Proxy(root));
    assert Ranked(h', rank);
    ForestByRank(h', rank);
  }

  /** Pointing a proxy straight at its root changes the root of no promise. */
  lemma CompressRoots(h: Heap, p: Pid)
    requires Forest(h) && p in h && h[p].state.Proxy?
    ensures Forest(SetState(h, p, Proxy(Root(h, p))))
    ensures forall x :: x in h ==> Root(SetState(h, p, Proxy(Root(h, p))), x) == Root(h, x)
  {
    CompressForest(h, p);
    hide Forest, Ranked;
    var h' := SetState(h, p, Proxy(Root(h, p)));
    forall x | x in h ensures Root(h', x) == Root(h, x) {
      CompressRoot(h, p, x);
    }
  }

  lemma {:induction false} LinkRoot(h: Heap, q: Pid, o: Pid, x: Pid)
    requires Forest(h) && q in h && o in h && x in h && q != o
    requires !h[q].state.Proxy? && !h[o].state.Proxy?
    requires Forest(SetState(h, q, Proxy(o)))
    ensures Root(SetState(h, q, Proxy(o)), x) == if Root(h, x) == q then o else Root(h, x)
    decreases RankOf(h)[x]
  {
    var h' := SetState(h, q, Proxy(o));
    if x == q {
      assert Root(h', x) == Root(h', o);
    } else if h[x].state.Proxy? {
      LinkRoot(h, q, o, h[x].state.to);
    }
  }

  lemma LinkForest(h: Heap, q: Pid, o: Pid)
    requires Forest(h) && q in h && o in h && q != o
    requires !h[q].state.Proxy? && !h[o].state.Proxy?
    ensures Forest(SetState(h, q, Proxy(o)))
  {
    var h', rank := SetState(h, q, Proxy(o)), RankOf(h);
    var rank' := map x | x in h :: if Root(h, x) == q then rank[x] + rank[o] + 1 else rank[x];
    forall p | p in h' && h'[p].state.Proxy?
      ensures h'[p].state.to in h' && rank'[h'[p].state.to] < rank'[p]
    {
      if p == q {
        assert Root(h, o) == o && Root(h, q) == q;
      } else {
        assert Root(h, p) == Root(h, h[p].state.to);
      }
    }
    assert Ranked(h', rank');
  }

  /** Linking root `q` under another root `o` keeps the forest acyclic and merges exactly the
      class of `q` into the class of `o`. */
  lemma LinkRoots(h: Heap, q: Pid, o: Pid)
    requires Forest(h) && q in h && o in h && q != o
    requires !h[q].state.Proxy? && !h[o].state.Proxy?
    ensures Forest(SetState(h, q, Proxy(o)))
    ensures forall x :: x in h ==>
              Root(SetState(h, q, Proxy(o)), x) == if Root(h, x) == q then o else Root(h, x)
  {
    LinkForest(h, q, o);
    forall x | x in h
      ensures Root(SetState(h, q, Proxy(o)), x) == if Root(h, x) == q then o else Root(h, x)
    {
      LinkRoot(h, q, o, x);
    }
  }
}
