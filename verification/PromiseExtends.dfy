/** What one action of the promise engine does to results and roots. */
module PromiseExtends {
  import opened PromiseHeap
  import opened PromiseEngine
  import opened PromiseSafety

  /** What later heaps keep: results, and which promises stand for the same one. */
  ghost predicate Extends(h: Heap, h': Heap) {
    && Forest(h) && Forest(h') && h.Keys <= h'.Keys
    && (forall p :: p in h && Observed(h, p).Resolved? ==> Observed(h', p) == Observed(h, p))
    && (forall p, q :: p in h && q in h && Root(h, p) == Root(h, q) ==> Root(h', p) == Root(h', q))
  }

  lemma ExtendsTransitive(h0: Heap, h1: Heap, h2: Heap)
    requires Extends(h0, h1) && Extends(h1, h2)
    ensures Extends(h0, h2)
  {
  }

  lemma SameLinksExtends(h: Heap, h': Heap)
    requires Forest(h) && SameLinks(h, h') && KeepsResolved(h, h')
    ensures Extends(h, h')
  {
    SameLinksRoots(h, h');
  }

  lemma MergeExtends(h: Heap, q: Pid, o: Pid)
    requires Forest(h) && q in h && o in h && q != o && h[q].state.Pending? && h[o].state.Pending?
    ensures Extends(h, Merge(h, q, o))
    ensures Root(Merge(h, q, o), q) == Root(Merge(h, q, o), o)
  {
    MergeRoots(h, q, o);
    var h' := Merge(h, q, o);
    forall p | p in h && Observed(h, p).Resolved? ensures Observed(h', p) == Observed(h, p) {
      assert Root(h, p) != q && Root(h, p) != o;
    }
  }

  lemma CompressExtends(h: Heap, p: Pid)
    requires Forest(h) && p in h && h[p].state.Proxy?
    ensures Extends(h, SetState(h, p, Proxy(Root(h, p))))
  {
    hide Forest, Ranked, Root;
    var h' := SetState(h, p, Proxy(Root(h, p)));
    CompressRoots(h, p);
    forall x | x in h ensures Observed(h', x) == Observed(h, x) {
      assert Root(h, x) != p;
    }
    hide Observed, SetState;
  }

  lemma ResolveExtends(m: Machine, p: Pid, r: Result, d: Deferring)
    requires Forest(m.heap)
    ensures Extends(m.heap, Resolve(m, p, r, d).heap)
  {
    hide Extends, Ranked, Forest;
    var h' := Resolve(m, p, r, d).heap;
    assert h' == m.heap || (p in m.heap && m.heap[p].state.Pending? && h' == SetState(m.heap, p, Resolved(r)));
    hide Resolve, RunOrDefer;
    SameLinksExtends(m.heap, h');
  }

  lemma MakeIntoProxyExtends(m: Machine, o: Pid, u: Pid)
    requires Forest(m.heap) && u in m.heap
    ensures Extends(m.heap, MakeIntoProxy(m, o, u).heap)
  {
    var q := Root(m.heap, u);
    if q == o {
      SameLinksExtends(m.heap, m.heap);
    } else if m.heap[q].state.Resolved? {
      ResolveExtends(m, o, m.heap[q].state.result, Never);
    } else if o in m.heap && m.heap[o].state.Pending? {
      MergeExtends(m.heap, q, o);
    } else {
      SameLinksExtends(m.heap, m.heap);
    }
  }

  lemma ResolveOuterExtends(m: Machine, t: Cid, outer: Pid, r: Result)
    requires Forest(m.heap)
    ensures Extends(m.heap, ResolveOuter(m, t, outer, r).heap)
  {
    if outer in m.heap {
      ResolveExtends(Discharge(m, t), Root(m.heap, outer), r, Never);
    } else {
      SameLinksExtends(m.heap, m.heap);
    }
  }

  lemma DispatchExtends(m: Machine, c: Cid, r: Result, computed: Result)
    requires Forest(m.heap) && c in m.cbs
    ensures Extends(m.heap, Dispatch(m, c, r, computed).heap)
  {
    hide Extends, Ranked, SameLinks, KeepsResolved;
    SameLinksExtends(m.heap, m.heap);
    var m1 := m.(live := m.live - {c}, ran := m.ran + [c]);
    var k := m.cbs[c].kind;
    if HasOuter(k) {
      ResolveOuterExtends(m1, c, k.outer, r);
      ResolveOuterExtends(m1, c, k.outer, computed);
    } else if k.JoinMember? && k.join in m.joins {
      var join := JoinUpdate(m.joins[k.join], r);
      ResolveOuterExtends(m1.(joins := m.joins[k.join := join]), k.join, join.outer, join.result);
    }
  }

  lemma RunStepExtends(m: Machine, rid: Pid, r: Result, computed: Result)
    requires Forest(m.heap) && m.stack != []
    ensures Extends(m.heap, RunStep(m, rid, r, computed).heap)
  {
    hide Extends, Ranked;
    SameLinksExtends(m.heap, m.heap);
    if rid in m.heap {
      var p := m.heap[rid];
      if r == Rejected(Canceled) && p.cancel != [] {
        SameLinksExtends(m.heap, m.heap[rid := p.(cancel := p.cancel[1..])]);
      } else if p.regular != [] {
        var c := p.regular[0];
        var m1 := m.(heap := m.heap[rid := p.(regular := p.regular[1..])]);
        SameLinksExtends(m.heap, m1.heap);
        if c in m.cbs && !(Removable(m.cbs[c].kind) && c !in m.live) {
          DispatchExtends(m1, c, r, computed);
          ExtendsTransitive(m.heap, m1.heap, Dispatch(m1, c, r, computed).heap);
        }
      }
    }
  }

  lemma CancelExtends(h: Heap, order: seq<Pid>)
    requires Forest(h) && CancelTargets(h, order)
    ensures Extends(h, MarkCanceled(h, order))
  {
    SameLinksExtends(h, MarkCanceled(h, order));
  }

  lemma EngineExtends(m: Machine, computed: Result, order: seq<Pid>)
    requires Forest(m.heap) && !UserTurn(m) && CancelTargets(m.heap, order)
    ensures Extends(m.heap, DoEngine(m, computed, order).heap)
  {
    hide Extends, Ranked, SameLinks, KeepsResolved, RunStep, PickStep;
    SameLinksExtends(m.heap, m.heap);
    match m.stack[|m.stack| - 1]
    case Loop(snapshot) =>
    case Run(rid, r) => RunStepExtends(m, rid, r, computed);
    case CancelRun(rids) =>
    case PickCancel(c, rest, r, t) => PickStepExtends(m, c, rest, r, t, order);
  }

  lemma PickStepExtends(m: Machine, c: Cid, rest: seq<Pid>, r: Result, t: Target, order: seq<Pid>)
    requires Forest(m.heap) && m.stack != [] && CancelTargets(m.heap, order)
    ensures Extends(m.heap, PickStep(m, c, rest, r, t, order).heap)
  {
    hide Extends, Ranked, SameLinks, KeepsResolved, Resolve, ResolveOuter, MarkCanceled;
    SameLinksExtends(m.heap, m.heap);
    if rest != [] {
      CancelExtends(m.heap, order);
    } else if t.Captured? {
      ResolveExtends(Discharge(Pop(m), c), t.p, r, Never);
    } else if c in m.cbs && HasOuter(m.cbs[c].kind) {
      ResolveOuterExtends(Pop(m), c, m.cbs[c].kind.outer, r);
    }
  }

  lemma {:induction false} AddAllLinks(h: Heap, rs: seq<Pid>, cs: seq<Cid>)
    requires |rs| == |cs| && forall i :: 0 <= i < |rs| ==> rs[i] in h
    ensures OnlyLists(h, AddAll(h, rs, cs))
  {
    if rs != [] {
      AddAllLinks(AddRegular(h, rs[0], cs[0]), rs[1..], cs[1..]);
    }
  }

  lemma NewCellExtends(h: Heap, o: Pid, cell: Promise, h': Heap)
    requires Forest(h) && o !in h && !cell.state.Proxy? && OnlyLists(h[o := cell], h')
    ensures Extends(h, h')
  {
    SameLinksExtends(h, h');
  }

  /** Actions of the user that create promises or register callbacks. */
  predicate Creates(a: Action) {
    a.NewInitial? || a.NewResolved? || a.Attach? || a.AttachPlain? || a.OnCancel? || a.NewJoin? || a.NewChoice?
  }

  lemma CreateExtends(m: Machine, a: Action)
    requires Enabled(m, a) && Creates(a)
    ensures Extends(m.heap, Apply(m, a).heap)
  {
    hide Extends, Ranked;
    var h' := Apply(m, a).heap;
    match a
    case NewInitial(p, cancelable) => SameLinksExtends(m.heap, h');
    case NewResolved(p, r) => SameLinksExtends(m.heap, h');
    case Attach(c, src, kind) => SameLinksExtends(m.heap, h');
    case AttachPlain(c, src) => SameLinksExtends(m.heap, h');
    case OnCancel(src) => SameLinksExtends(m.heap, h');
    case NewJoin(j, outer, ps, cs) =>
      var cell := Promise(Pending, PropagateToSeveral(ps), [], []);
      AddAllLinks(m.heap[outer := cell], PendingRoots(m.heap, ps), cs);
      NewCellExtends(m.heap, outer, cell, h');
    case NewChoice(c, ps, kind) =>
      var cell := Promise(Pending, PropagateToSeveral(ps), [], []);
      var rs := Roots(m.heap, ps);
      AddAllLinks(m.heap[kind.outer := cell], rs, seq(|rs|, _ => c));
      NewCellExtends(m.heap, kind.outer, cell, h');
  }

  lemma ReturnExtends(m: Machine, a: Action)
    requires Enabled(m, a) && (a.ReturnPromise? || a.ReturnValue?)
    ensures Extends(m.heap, Apply(m, a).heap)
  {
    hide Extends, Ranked;
    SameLinksExtends(m.heap, m.heap);
    var c := m.stack[|m.stack| - 1].cb;
    if c in m.cbs && HasOuter(m.cbs[c].kind) {
      var outer := m.cbs[c].kind.outer;
      if a.ReturnValue? {
        ResolveOuterExtends(Pop(m), c, outer, a.r);
      } else if outer in m.heap {
        MakeIntoProxyExtends(Discharge(Pop(m), c), Root(m.heap, outer), a.u);
      }
    }
  }

  lemma ApplyExtends(m: Machine, a: Action)
    requires Enabled(m, a)
    ensures Extends(m.heap, Apply(m, a).heap)
  {
    hide Extends, Ranked;
    if Creates(a) {
      CreateExtends(m, a);
    } else if a.ReturnPromise? || a.ReturnValue? {
      ReturnExtends(m, a);
    } else {
      SameLinksExtends(m.heap, m.heap);
      match a
      case Wakeup(p, r, later) => ResolveExtends(m, Root(m.heap, p), r, if later then FromDepth(1) else Never);
      case CancelPromise(order) => CancelExtends(m.heap, order);
      case Compress(p) => CompressExtends(m.heap, p);
      case Sweep(p, i) => SameLinksExtends(m.heap, Apply(m, a).heap);
      case Engine(computed, order) => EngineExtends(m, computed, order);
      case _ =>
    }
  }

  lemma ApplyForest(m: Machine, a: Action)
    requires Enabled(m, a)
    ensures Forest(Apply(m, a).heap)
  {
    hide Enabled, Apply;
    ApplyExtends(m, a);
  }
}
