/** What `choose`, `pick` and their relatives promise over whole runs: their callback runs as soon as one of the inputs
    is resolved, provided that nobody removes it from a list. */
module PromiseChoices {
  import opened PromiseHeap
  import opened PromiseEngine
  import opened PromiseSafety
  import opened PromiseExtends
  import opened PromiseCaptured
  import opened PromiseIdle
  import opened PromiseNPick
  import opened PromiseLaws
  import opened PromiseMeaning

  // ------------------------------------------------------------------------------------------
  // One step
  // ------------------------------------------------------------------------------------------

  /** Every list that has `c` keeps it. */
  ghost predicate KeepsIn(h: Heap, h': Heap, c: Cid) {
    forall x :: x in h && c in h[x].regular ==> x in h' && c in h'[x].regular
  }

  lemma SameRegularKeepsIn(h: Heap, h': Heap, c: Cid)
    requires SameRegular(h, h')
    ensures KeepsIn(h, h', c)
  {
  }

  lemma {:induction false} AddAllKeepsIn(h: Heap, rs: seq<Pid>, cs: seq<Cid>, c: Cid)
    requires |rs| == |cs| && forall i :: 0 <= i < |rs| ==> rs[i] in h
    ensures KeepsIn(h, AddAll(h, rs, cs), c)
  {
    if rs != [] {
      AddAllKeepsIn(AddRegular(h, rs[0], cs[0]), rs[1..], cs[1..], c);
    }
  }

  lemma CreateKeepsIn(m: Machine, a: Action, c: Cid)
    requires Enabled(m, a) && Creates(a)
    ensures KeepsIn(m.heap, Apply(m, a).heap, c)
  {
    hide Ranked, Forest, AddAll, PendingRoots;
    match a
    case NewInitial(p, cancelable) =>
    case NewResolved(p, r) =>
    case Attach(_, src, kind) =>
    case AttachPlain(_, src) =>
    case OnCancel(src) =>
    case NewJoin(j, outer, ps, cs) =>
      var h1 := m.heap[outer := Promise(Pending, PropagateToSeveral(ps), [], [])];
      AddAllKeepsIn(h1, PendingRoots(m.heap, ps), cs, c);
    case NewChoice(c0, ps, kind) =>
      var rs := Roots(m.heap, ps);
      var h1 := m.heap[kind.outer := Promise(Pending, PropagateToSeveral(ps), [], [])];
      AddAllKeepsIn(h1, rs, seq(|rs|, _ => c0), c);
  }

  /** A filled cell is taken out of a list only to run. */
  lemma RunStepKeepsIn(m: Machine, rid: Pid, r: Result, computed: Result, c: Cid)
    requires Forest(m.heap) && m.stack != [] && m.stack[|m.stack| - 1] == Run(rid, r)
    requires c in m.live && c in m.cbs && c !in RunStep(m, rid, r, computed).ran
    ensures KeepsIn(m.heap, RunStep(m, rid, r, computed).heap, c)
  {
    hide Ranked, Forest, Dispatch, KeepsIn, SameRegular;
    SameRegularSelf(m.heap);
    SameRegularKeepsIn(m.heap, m.heap, c);
    if rid in m.heap {
      CancelTakenKeepsIn(m.heap, rid, m.heap[rid].cancel, c);
      if !(r == Rejected(Canceled) && m.heap[rid].cancel != []) && m.heap[rid].regular != [] {
        var m1 := Taken(m, rid);
        var c0 := m.heap[rid].regular[0];
        SameLinksForest(m.heap, m1.heap);
        if c0 in m.cbs {
          DispatchBooks(m1, c0, r, computed);
          TakenKeepsIn(m, rid, Dispatch(m1, c0, r, computed).heap, c);
        }
      }
    }
  }

  lemma CancelTakenKeepsIn(h: Heap, rid: Pid, cancel: seq<Storage>, c: Cid)
    requires rid in h
    ensures cancel != [] ==> KeepsIn(h, h[rid := h[rid].(cancel := cancel[1..])], c)
  {
  }

  lemma TakenKeepsIn(m: Machine, rid: Pid, h': Heap, c: Cid)
    requires rid in m.heap && m.heap[rid].regular != []
    requires SameRegular(Taken(m, rid).heap, h')
    ensures m.heap[rid].regular[0] != c ==> KeepsIn(m.heap, h', c) && KeepsIn(m.heap, Taken(m, rid).heap, c)
  {
  }

  lemma EngineKeepsIn(m: Machine, a: Action, c: Cid)
    requires Enabled(m, a) && a.Engine?
    requires c in m.live && c in m.cbs && c !in Apply(m, a).ran
    ensures KeepsIn(m.heap, Apply(m, a).heap, c)
  {
    hide Ranked, Forest, RunStep, PickStep, KeepsIn, SameRegular;
    SameRegularSelf(m.heap);
    match m.stack[|m.stack| - 1]
    case Loop(_) => SameRegularKeepsIn(m.heap, m.heap, c);
    case Run(rid, r) => RunStepKeepsIn(m, rid, r, a.computed, c);
    case CancelRun(_) => SameRegularKeepsIn(m.heap, m.heap, c);
    case PickCancel(c0, rest, r, t) =>
      PickStepBooks(m, c0, rest, r, t, a.order);
      SameRegularKeepsIn(m.heap, Apply(m, a).heap, c);
  }

  /** Callback `c` is removed from a list although it is still to run. */
  predicate Sweeps(m: Machine, a: Action, c: Cid) {
    && a.Sweep? && a.p in m.heap && a.i < |m.heap[a.p].regular| && m.heap[a.p].regular[a.i] == c
  }

  lemma SweepKeepsIn(h: Heap, p: Pid, i: nat, c: Cid)
    requires p in h && i < |h[p].regular| && h[p].regular[i] != c
    ensures KeepsIn(h, h[p := h[p].(regular := h[p].regular[..i] + h[p].regular[i + 1..])], c)
  {
    var l := h[p].regular;
    assert l == l[..i] + [l[i]] + l[i + 1..];
  }

  lemma ReturnKeepsIn(m: Machine, a: Action, c: Cid)
    requires Enabled(m, a) && (a.ReturnPromise? || a.ReturnValue?) && !(a.ReturnPromise? && PendingReturn(m, a))
    ensures KeepsIn(m.heap, Apply(m, a).heap, c)
  {
    hide Ranked, Forest, Resolve, ResolveOuter, KeepsIn, SameRegular;
    SameRegularSelf(m.heap);
    SameRegularKeepsIn(m.heap, m.heap, c);
    var t := m.stack[|m.stack| - 1].cb;
    if t in m.cbs && HasOuter(m.cbs[t].kind) {
      var outer := m.cbs[t].kind.outer;
      if a.ReturnValue? {
        ResolveOuterBooks(Pop(m), t, outer, a.r);
      } else if outer in m.heap {
        ResolveBooks(Discharge(Pop(m), t), Root(m.heap, outer), Observed(m.heap, a.u).result, Never);
      }
      SameRegularKeepsIn(m.heap, Apply(m, a).heap, c);
    }
  }

  /** No list loses a callback that is still to run, but by merging and sweeping. */
  lemma ApplyKeepsIn(m: Machine, a: Action, c: Cid)
    requires Enabled(m, a) && c in m.live && c in m.cbs && c !in Apply(m, a).ran
    requires !Sweeps(m, a, c) && !(a.ReturnPromise? && PendingReturn(m, a))
    ensures KeepsIn(m.heap, Apply(m, a).heap, c)
  {
    hide Ranked, Forest, Resolve, DoEngine, KeepsIn, SameRegular, SetState;
    SameRegularSelf(m.heap);
    SameRegularKeepsIn(m.heap, m.heap, c);
    if Creates(a) {
      CreateKeepsIn(m, a, c);
    } else {
      match a
      case Engine(_, _) => EngineKeepsIn(m, a, c);
      case ReturnPromise(_) => ReturnKeepsIn(m, a, c);
      case ReturnValue(_) => ReturnKeepsIn(m, a, c);
      case Wakeup(p, r, later) =>
        ResolveBooks(m, Root(m.heap, p), r, if later then FromDepth(1) else Never);
        SameRegularKeepsIn(m.heap, Apply(m, a).heap, c);
      case CancelPromise(order) => MarkKeepsIn(m.heap, order, c);
      case Compress(p) =>
        SetStateLists(m.heap, p, Proxy(Root(m.heap, p)));
        SameRegularKeepsIn(m.heap, Apply(m, a).heap, c);
      case Sweep(p, i) => SweepKeepsIn(m.heap, p, i, c);
      case ReturnUser =>
      case SetStorage(_) =>
    }
  }

  lemma MarkKeepsIn(h: Heap, order: seq<Pid>, c: Cid)
    ensures KeepsIn(h, MarkCanceled(h, order), c)
  {
  }

  /** Callback `c` is listed at whatever stands for each of `ps`. */
  ghost predicate ListedAtAll(h: Heap, c: Cid, ps: seq<Pid>) {
    && Forest(h) && (forall k :: 0 <= k < |ps| ==> ps[k] in h)
    && forall k :: 0 <= k < |ps| ==> c in h[Root(h, ps[k])].regular
  }

  lemma ListedStays(m: Machine, a: Action, c: Cid, ps: seq<Pid>)
    requires Inv(m) && Enabled(m, a) && c in m.live && c in m.cbs && c !in Apply(m, a).ran && !Sweeps(m, a, c)
    requires ListedAtAll(m.heap, c, ps)
    ensures ListedAtAll(Apply(m, a).heap, c, ps)
  {
    hide Inv, Enabled, Apply, Ranked, Forest, KeepsIn, Sweeps;
    if a.ReturnPromise? && PendingReturn(m, a) {
      MergeListedAt(m, a.u, c, ps);
    } else {
      ApplyKeepsIn(m, a, c);
      ApplyExtends(m, a);
      var h, h' := m.heap, Apply(m, a).heap;
      forall k | 0 <= k < |ps| ensures c in h'[Root(h', ps[k])].regular {
        RootOfRoot(h, ps[k]);
        StaysRoot(m, a, Root(h, ps[k]));
        KeptIn(h, h', c, Root(h, ps[k]));
      }
    }
  }

  lemma KeptIn(h: Heap, h': Heap, c: Cid, x: Pid)
    requires KeepsIn(h, h', c) && x in h && c in h[x].regular
    ensures x in h' && c in h'[x].regular
  {
  }

  lemma StaysRoot(m: Machine, a: Action, x: Pid)
    requires Inv(m) && Enabled(m, a) && x in m.heap && !m.heap[x].state.Proxy?
    requires !(a.ReturnPromise? && PendingReturn(m, a))
    ensures Forest(Apply(m, a).heap) && x in Apply(m, a).heap && Root(Apply(m, a).heap, x) == x
  {
    hide Inv, Enabled, Apply, Ranked, Forest;
    ApplyForest(m, a);
    TurnsExactly(m, a, x);
  }

  lemma MergeListedAt(m: Machine, u: Pid, c: Cid, ps: seq<Pid>)
    requires Inv(m) && Enabled(m, ReturnPromise(u)) && Observed(m.heap, u).Pending?
    requires ListedAtAll(m.heap, c, ps)
    ensures ListedAtAll(Apply(m, ReturnPromise(u)).heap, c, ps)
  {
    hide Inv, Apply, Ranked, Forest, Root, IsMerged;
    BindReturnsPending(m, u);
    var outer := m.cbs[m.stack[|m.stack| - 1].cb].kind.outer;
    RootOfRoot(m.heap, u);
    RootOfRoot(m.heap, outer);
    MergedListedAt(m.heap, Apply(m, ReturnPromise(u)).heap, Root(m.heap, u), Root(m.heap, outer), c, ps);
  }

  lemma MergedListedAt(h: Heap, h': Heap, q: Pid, o: Pid, c: Cid, ps: seq<Pid>)
    requires IsMerged(h, h', q, o) && ListedAtAll(h, c, ps)
    ensures ListedAtAll(h', c, ps)
  {
    hide Ranked, Forest, Root, Observed;
    forall k | 0 <= k < |ps| ensures ps[k] in h' && c in h'[Root(h', ps[k])].regular {
      assert c in h[Root(h, ps[k])].regular;
    }
  }

  // ------------------------------------------------------------------------------------------
  // Every run
  // ------------------------------------------------------------------------------------------

  /** The step from state `n` removes callback `c` from a list. */
  ghost predicate SweptAt(ms: seq<Machine>, n: nat, c: Cid) {
    exists a :: IsStep(ms, n, a) && Sweeps(ms[n], a, c)
  }

  lemma StillLive(m: Machine, c: Cid)
    requires Books(m) && c in m.cbs && c !in m.ran
    ensures c in m.live
  {
    hide Listed;
  }

  lemma RanStays(m: Machine, a: Action, c: Cid)
    requires Enabled(m, a) && c in m.ran
    ensures c in Apply(m, a).ran
  {
    hide Enabled, Apply, NextIs, IsFilled;
    ApplyRan(m, a);
  }

  lemma {:induction false} TimesPositive(rs: seq<Pid>, i: nat)
    requires i < |rs|
    ensures Times(rs, rs[i]) > 0
  {
    if i > 0 {
      TimesPositive(rs[1..], i - 1);
    }
  }

  lemma ChoiceListed(m: Machine, c: Cid, ps: seq<Pid>, kind: Kind)
    requires Inv(m) && Enabled(m, NewChoice(c, ps, kind))
    ensures ListedAtAll(Apply(m, NewChoice(c, ps, kind)).heap, c, ps)
  {
    ChoiceLaw(m, c, ps, kind);
    ChoiceInputs(m, NewChoice(c, ps, kind));
    hide Inv, Ranked, Forest, Apply, IsCreated, Enabled;
    var h, h' := m.heap, Apply(m, NewChoice(c, ps, kind)).heap;
    var rs := Roots(h, ps);
    forall k | 0 <= k < |ps| ensures c in h'[Root(h', ps[k])].regular {
      TimesPositive(rs, k);
      InputStays(m, NewChoice(c, ps, kind), ps[k]);
      var given :| h'[rs[k]].regular == given + h[rs[k]].regular && |given| == Times(rs, rs[k]) &&
                   forall i :: 0 <= i < |given| ==> given[i] == c;
      assert (given + h[rs[k]].regular)[0] == c;
    }
  }

  lemma ChoiceInputs(m: Machine, a: Action)
    requires Enabled(m, a) && a.NewChoice?
    ensures Forest(m.heap) && Forest(Apply(m, a).heap)
    ensures forall k :: 0 <= k < |a.ps| ==> a.ps[k] in m.heap && a.ps[k] in Apply(m, a).heap
  {
    hide Ranked, Forest, Apply;
    ApplyExtends(m, a);
  }

  lemma InputStays(m: Machine, a: Action, p: Pid)
    requires Inv(m) && Enabled(m, a) && a.NewChoice? && Forest(m.heap) && p in m.heap
    ensures
      var h' := Apply(m, a).heap;
      Forest(h') && p in h' && Root(m.heap, p) in h' && Root(h', p) == Root(m.heap, p)
  {
    hide Inv, Enabled, Apply, Ranked, Forest;
    ApplyExtends(m, a);
    RootOfRoot(m.heap, p);
    StaysRoot(m, a, Root(m.heap, p));
  }

  /** In every run, as long as the callback has not run, and nobody has removed it, it is listed for every input. */
  lemma {:induction false} StaysListed(ms: seq<Machine>, i: nat, a: Action, n: nat)
    requires IsRun(ms) && IsStep(ms, i, a) && a.NewChoice? && i < n < |ms| && a.c !in ms[n].ran
    requires forall j :: i < j < n ==> !SweptAt(ms, j, a.c)
    ensures ListedAtAll(ms[n].heap, a.c, a.ps)
  {
    hide Inv, IsRun, IsStep, ListedAtAll, SweptAt, Books, AtSources;
    if n == i + 1 {
      var b := StepAt(ms, i);
      FirstListed(ms, i, a);
    } else {
      var b := StepAt(ms, n - 1);
      StepKeepsRan(ms, n - 1, b, a.c);
      StaysListed(ms, i, a, n - 1);
      NextListed(ms, i, a, n - 1, b);
    }
  }

  lemma FirstListed(ms: seq<Machine>, i: nat, a: Action)
    requires IsStep(ms, i, a) && a.NewChoice? && Inv(ms[i])
    ensures ListedAtAll(ms[i + 1].heap, a.c, a.ps)
  {
    hide Inv, Enabled, Apply, ListedAtAll;
    ChoiceListed(ms[i], a.c, a.ps, a.kind);
  }

  lemma StepKeepsRan(ms: seq<Machine>, n: nat, a: Action, c: Cid)
    requires IsStep(ms, n, a)
    ensures c in ms[n].ran ==> c in ms[n + 1].ran
  {
    hide Enabled, Apply;
    if c in ms[n].ran {
      RanStays(ms[n], a, c);
    }
  }

  lemma NextListed(ms: seq<Machine>, i: nat, a: Action, n: nat, b: Action)
    requires IsRun(ms) && IsStep(ms, i, a) && a.NewChoice? && i < n && IsStep(ms, n, b) && Inv(ms[n])
    requires a.c !in ms[n].ran && a.c !in ms[n + 1].ran && !SweptAt(ms, n, a.c)
    requires ListedAtAll(ms[n].heap, a.c, a.ps)
    ensures ListedAtAll(ms[n + 1].heap, a.c, a.ps)
  {
    hide Inv, IsRun, Enabled, Apply, ListedAtAll, Books, AtSources, Sweeps;
    StaysRegistered(ms, i, a, a.c, a.kind, a.ps, n);
    RunBooks(ms, n);
    StillLive(ms[n], a.c);
    ListedStays(ms[n], b, a.c, a.ps);
  }

  /** In every run in which nobody has removed it, whenever the engine is idle the callback that `choose`, `pick`,
      `nchoose` or `npick` shares between its inputs has run exactly if one of them is resolved. */
  lemma RunsForFirst(ms: seq<Machine>, i: nat, a: Action, n: nat)
    requires IsRun(ms) && IsStep(ms, i, a) && a.NewChoice? && i < n < |ms| && ms[n].stack == []
    requires forall j :: i < j < n ==> !SweptAt(ms, j, a.c)
    ensures Forest(ms[n].heap) && forall k :: 0 <= k < |a.ps| ==> a.ps[k] in ms[n].heap
    ensures a.c in ms[n].ran <==> exists k :: 0 <= k < |a.ps| && Observed(ms[n].heap, a.ps[k]).Resolved?
  {
    hide Inv, IsRun, Enabled, Apply, Books, SweptAt, Ranked, Forest, Root;
    StaysRegistered(ms, i, a, a.c, a.kind, a.ps, n);
    if a.c in ms[n].ran {
      var j, rid, r, b, k := RunsOnSource(ms, i, a, a.c, a.kind, a.ps, n);
      assert Observed(ms[n].heap, a.ps[k]).Resolved?;
    } else {
      StaysListed(ms, i, a, n);
      forall k | 0 <= k < |a.ps| ensures !Observed(ms[n].heap, a.ps[k]).Resolved? {
        IdleIsFinished(ms, n, Root(ms[n].heap, a.ps[k]));
      }
    }
  }

  /** So the promise that `choose` or `pick` made is pending exactly as long as all inputs are, and then has the result
      of one of them. */
  lemma ChoiceSettles(ms: seq<Machine>, i: nat, a: Action, n: nat)
    requires IsRun(ms) && IsStep(ms, i, a) && a.NewChoice? && (a.kind.Choose? || a.kind.Pick?)
    requires i < n < |ms| && ms[n].stack == [] && !ms[n].crashed
    requires forall j :: i < j < n ==> !SweptAt(ms, j, a.c)
    ensures Forest(ms[n].heap) && a.kind.outer in ms[n].heap
    ensures forall k :: 0 <= k < |a.ps| ==> a.ps[k] in ms[n].heap
    ensures
      if forall k :: 0 <= k < |a.ps| ==> Observed(ms[n].heap, a.ps[k]).Pending? then
        Observed(ms[n].heap, a.kind.outer).Pending?
      else
        exists k :: 0 <= k < |a.ps| && Observed(ms[n].heap, a.ps[k]).Resolved? &&
                    Observed(ms[n].heap, a.kind.outer) == Observed(ms[n].heap, a.ps[k])
  {
    hide Inv, IsRun, Enabled, Apply, SweptAt, Ranked, Forest, Root;
    RunsForFirst(ms, i, a, n);
    ChoiceResolves(ms, i, a, a.c, a.kind, a.ps, n);
  }
}
