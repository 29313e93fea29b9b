/** What callbacks mean over whole runs: with which result a callback runs, in which storage, and what its outer promise
    gets. */
module PromiseMeaning {
  import opened PromiseHeap
  import opened PromiseEngine
  import opened PromiseSafety
  import opened PromiseExtends
  import opened PromiseCaptured
  import opened PromiseRuns
  import opened PromiseLoops
  import opened PromiseIdle
  import opened PromiseLaws

  // ------------------------------------------------------------------------------------------
  // Where callbacks are listed
  // ------------------------------------------------------------------------------------------

  /** No list has gained anything. */
  ghost predicate SubLists(h: Heap, h': Heap) {
    && h'.Keys == h.Keys
    && (forall p, c :: p in h && c in h'[p].regular ==> c in h[p].regular)
    && (forall p, s :: p in h && s in h'[p].cancel ==> s in h[p].cancel)
  }

  lemma SubListsTransitive(h0: Heap, h1: Heap, h2: Heap)
    requires SubLists(h0, h1) && SubLists(h1, h2)
    ensures SubLists(h0, h2)
  {
  }

  lemma SubListsSelf(h: Heap)
    ensures SubLists(h, h)
  {
  }

  lemma ResolveSub(m: Machine, p: Pid, r: Result, d: Deferring)
    ensures SubLists(m.heap, Resolve(m, p, r, d).heap)
  {
    hide SubLists, SetState;
    SubListsSelf(m.heap);
    if p in m.heap {
      SetStateSub(m.heap, p, Resolved(r));
    }
  }

  lemma SetStateSub(h: Heap, p: Pid, s: State)
    requires p in h
    ensures SubLists(h, SetState(h, p, s))
  {
  }

  lemma ResolveOuterSub(m: Machine, t: Cid, outer: Pid, r: Result)
    requires Forest(m.heap)
    ensures SubLists(m.heap, ResolveOuter(m, t, outer, r).heap)
  {
    hide SubLists, Ranked, Resolve;
    SubListsSelf(m.heap);
    if outer in m.heap {
      ResolveSub(Discharge(m, t), Root(m.heap, outer), r, Never);
    }
  }

  lemma DispatchSub(m: Machine, c: Cid, r: Result, computed: Result)
    requires Forest(m.heap) && c in m.cbs
    ensures SubLists(m.heap, Dispatch(m, c, r, computed).heap)
  {
    hide SubLists, Ranked, Forest, Root, ResolveOuter;
    SubListsSelf(m.heap);
    var m1 := m.(live := m.live - {c}, ran := m.ran + [c]);
    var k := m.cbs[c].kind;
    if HasOuter(k) {
      ResolveOuterSub(m1, c, k.outer, r);
      ResolveOuterSub(m1, c, k.outer, computed);
    } else if k.JoinMember? && k.join in m.joins {
      var join := JoinUpdate(m.joins[k.join], r);
      ResolveOuterSub(m1.(joins := m.joins[k.join := join]), k.join, join.outer, join.result);
    }
  }

  lemma ShrunkSub(h: Heap, p: Pid, cell: Promise)
    requires p in h
    requires forall c :: c in cell.regular ==> c in h[p].regular
    requires forall s :: s in cell.cancel ==> s in h[p].cancel
    ensures SubLists(h, h[p := cell])
  {
  }

  lemma RunStepSub(m: Machine, rid: Pid, r: Result, computed: Result)
    requires Forest(m.heap) && m.stack != []
    ensures SubLists(m.heap, RunStep(m, rid, r, computed).heap)
  {
    hide SubLists, Ranked, Dispatch;
    SubListsSelf(m.heap);
    if rid in m.heap {
      var p := m.heap[rid];
      if r == Rejected(Canceled) && p.cancel != [] {
        ShrunkSub(m.heap, rid, p.(cancel := p.cancel[1..]));
      } else if p.regular != [] {
        var c := p.regular[0];
        var m1 := m.(heap := m.heap[rid := p.(regular := p.regular[1..])]);
        ShrunkSub(m.heap, rid, p.(regular := p.regular[1..]));
        SameLinksForest(m.heap, m1.heap);
        if c in m.cbs {
          DispatchSub(m1, c, r, computed);
          SubListsTransitive(m.heap, m1.heap, Dispatch(m1, c, r, computed).heap);
        }
      }
    }
  }

  lemma MarkSub(h: Heap, order: seq<Pid>)
    ensures SubLists(h, MarkCanceled(h, order))
  {
  }

  lemma PickStepSub(m: Machine, c: Cid, rest: seq<Pid>, r: Result, t: Target, order: seq<Pid>)
    requires Forest(m.heap) && m.stack != []
    ensures SubLists(m.heap, PickStep(m, c, rest, r, t, order).heap)
  {
    hide SubLists, Ranked, Resolve, ResolveOuter, MarkCanceled;
    SubListsSelf(m.heap);
    if rest != [] {
      MarkSub(m.heap, order);
    } else if t.Captured? {
      ResolveSub(Discharge(Pop(m), c), t.p, r, Never);
    } else if c in m.cbs && HasOuter(m.cbs[c].kind) {
      ResolveOuterSub(Pop(m), c, m.cbs[c].kind.outer, r);
    }
  }

  lemma EngineSub(m: Machine, computed: Result, order: seq<Pid>)
    requires Forest(m.heap) && !UserTurn(m)
    ensures SubLists(m.heap, DoEngine(m, computed, order).heap)
  {
    hide SubLists, Ranked, RunStep, PickStep;
    SubListsSelf(m.heap);
    match m.stack[|m.stack| - 1]
    case Loop(snapshot) =>
    case Run(rid, r) => RunStepSub(m, rid, r, computed);
    case CancelRun(rids) =>
    case PickCancel(c, rest, r, t) => PickStepSub(m, c, rest, r, t, order);
  }

  /** Every action but those that register callbacks and the return of a pending promise. */
  lemma OtherSub(m: Machine, a: Action)
    requires Inv(m) && Enabled(m, a) && !Creates(a) && (a.ReturnPromise? ==> Observed(m.heap, a.u).Resolved?)
    ensures SubLists(m.heap, Apply(m, a).heap)
  {
    hide Inv, SubLists, Ranked, Resolve, ResolveOuter, DoEngine, MarkCanceled, SetState;
    SubListsSelf(m.heap);
    match a
    case Wakeup(p, r, later) => ResolveSub(m, Root(m.heap, p), r, if later then FromDepth(1) else Never);
    case CancelPromise(order) => MarkSub(m.heap, order);
    case ReturnPromise(u) => ReturnSub(m, u);
    case ReturnValue(r) =>
      var c := m.stack[|m.stack| - 1].cb;
      if c in m.cbs && HasOuter(m.cbs[c].kind) {
        ResolveOuterSub(Pop(m), c, m.cbs[c].kind.outer, r);
      }
    case ReturnUser =>
    case SetStorage(_) =>
    case Compress(p) => SetStateSub(m.heap, p, Proxy(Root(m.heap, p)));
    case Sweep(p, i) =>
      var l := m.heap[p].regular;
      ShrunkSub(m.heap, p, m.heap[p].(regular := l[..i] + l[i + 1..]));
    case Engine(computed, order) => EngineSub(m, computed, order);
  }

  lemma ReturnSub(m: Machine, u: Pid)
    requires Enabled(m, ReturnPromise(u)) && Observed(m.heap, u).Resolved?
    ensures SubLists(m.heap, Apply(m, ReturnPromise(u)).heap)
  {
    hide SubLists, Ranked, Resolve;
    SubListsSelf(m.heap);
    var c := m.stack[|m.stack| - 1].cb;
    if c in m.cbs && HasOuter(m.cbs[c].kind) && m.cbs[c].kind.outer in m.heap {
      ResolveSub(Discharge(Pop(m), c), Root(m.heap, m.cbs[c].kind.outer), Observed(m.heap, u).result, Never);
    }
  }

  /** Whatever is listed at a promise was listed before at one that stands for the same promise now. */
  ghost predicate ComesFrom(h: Heap, h': Heap, c: Cid)
    requires Forest(h')
  {
    forall p' :: p' in h' && c in h'[p'].regular ==>
      exists p :: p in h && p in h' && c in h[p].regular && Root(h', p) == Root(h', p')
  }

  lemma SubComesFrom(h: Heap, h': Heap, c: Cid)
    requires Forest(h') && SubLists(h, h')
    ensures ComesFrom(h, h', c)
  {
    hide Ranked, Forest;
  }

  /** A callback that was registered before is not listed anywhere else by registering others. */
  lemma CreateComesFrom(m: Machine, a: Action, c: Cid)
    requires Enabled(m, a) && Creates(a) && c in m.cbs
    ensures
      var h' := Apply(m, a).heap;
      forall p' :: p' in h' && c in h'[p'].regular ==> p' in m.heap && c in m.heap[p'].regular
  {
    hide Ranked, AddAll, PendingRoots;
    var h' := Apply(m, a).heap;
    match a
    case NewInitial(p, cancelable) =>
    case NewResolved(p, r) =>
    case Attach(_, src, kind) =>
    case AttachPlain(_, src) =>
    case OnCancel(src) =>
    case NewJoin(j, outer, ps, cs) =>
      var h1 := m.heap[outer := Promise(Pending, PropagateToSeveral(ps), [], [])];
      GivenAll(h1, PendingRoots(m.heap, ps), cs, c);
    case NewChoice(c0, ps, kind) =>
      var rs := Roots(m.heap, ps);
      var h1 := m.heap[kind.outer := Promise(Pending, PropagateToSeveral(ps), [], [])];
      GivenAll(h1, rs, seq(|rs|, _ => c0), c);
  }

  lemma {:induction false} GivenIn(rs: seq<Pid>, cs: seq<Cid>, x: Pid, c: Cid)
    requires |rs| == |cs| && c in Given(rs, cs, x)
    ensures exists i :: 0 <= i < |rs| && rs[i] == x && cs[i] == c
  {
    if c in Given(rs[1..], cs[1..], x) {
      GivenIn(rs[1..], cs[1..], x, c);
      var i :| 0 <= i < |rs[1..]| && rs[1..][i] == x && cs[1..][i] == c;
      assert rs[i + 1] == x && cs[i + 1] == c;
    } else {
      assert rs[0] == x && cs[0] == c;
    }
  }

  lemma GivenAll(h: Heap, rs: seq<Pid>, cs: seq<Cid>, c: Cid)
    requires |rs| == |cs| && forall i :: 0 <= i < |rs| ==> rs[i] in h
    ensures
      var h' := AddAll(h, rs, cs);
      && h'.Keys == h.Keys
      && forall x :: x in h && c in h'[x].regular ==>
           c in h[x].regular || exists i :: 0 <= i < |rs| && rs[i] == x && cs[i] == c
  {
    hide Given, AddAll;
    AddAllLinks(h, rs, cs);
    forall x | x in h && c in AddAll(h, rs, cs)[x].regular
      ensures c in h[x].regular || exists i :: 0 <= i < |rs| && rs[i] == x && cs[i] == c
    {
      GivenIs(h, rs, cs, x);
      if c in Given(rs, cs, x) {
        GivenIn(rs, cs, x, c);
      }
    }
  }

  lemma ApplyComesFrom(m: Machine, a: Action, c: Cid)
    requires Inv(m) && Enabled(m, a) && c in m.cbs
    ensures Forest(Apply(m, a).heap) && ComesFrom(m.heap, Apply(m, a).heap, c)
  {
    hide Inv, Enabled, Apply, SubLists, Ranked, Forest;
    ApplyForest(m, a);
    var h' := Apply(m, a).heap;
    if Creates(a) {
      CreateComesFrom(m, a, c);
    } else if a.ReturnPromise? && PendingReturn(m, a) {
      MergeComesFrom(m, a.u, c);
    } else {
      OtherSub(m, a);
      SubComesFrom(m.heap, h', c);
    }
  }

  ghost predicate PendingReturn(m: Machine, a: Action)
    requires Enabled(m, a) && a.ReturnPromise?
  {
    Observed(m.heap, a.u).Pending?
  }

  lemma MergedComesFrom(h: Heap, q: Pid, o: Pid, c: Cid)
    requires Forest(h) && q in h && o in h && q != o && h[q].state.Pending? && h[o].state.Pending?
    ensures Forest(Merge(h, q, o)) && ComesFrom(h, Merge(h, q, o), c)
  {
    hide Ranked, Forest, Root;
    MergeRoots(h, q, o);
    var h' := Merge(h, q, o);
    forall p' | p' in h' && c in h'[p'].regular
      ensures exists p :: p in h && p in h' && c in h[p].regular && Root(h', p) == Root(h', p')
    {
      if p' == o && c !in h[o].regular {
        assert c in h[q].regular && Root(h', q) == o && Root(h', o) == o;
      } else {
        assert c in h[p'].regular;
      }
    }
  }

  lemma MergeComesFrom(m: Machine, u: Pid, c: Cid)
    requires Inv(m) && Enabled(m, ReturnPromise(u)) && Observed(m.heap, u).Pending?
    ensures Forest(Apply(m, ReturnPromise(u)).heap) && ComesFrom(m.heap, Apply(m, ReturnPromise(u)).heap, c)
  {
    hide Inv, Ranked, Forest, Merge, ComesFrom;
    FrameOwes(m);
    var o, q := Root(m.heap, m.cbs[m.stack[|m.stack| - 1].cb].kind.outer), Root(m.heap, u);
    if q == o {
      SelfComesFrom(m.heap, c);
    } else {
      MergedComesFrom(m.heap, q, o, c);
    }
  }

  lemma SelfComesFrom(h: Heap, c: Cid)
    requires Forest(h)
    ensures ComesFrom(h, h, c)
  {
    hide Ranked, Forest;
  }

  // ------------------------------------------------------------------------------------------
  // With which result a callback runs
  // ------------------------------------------------------------------------------------------

  /** Wherever the callback is listed, that stands for one of its sources. */
  ghost predicate AtSources(h: Heap, c: Cid, srcs: seq<Pid>) {
    && Forest(h) && (forall k :: 0 <= k < |srcs| ==> srcs[k] in h)
    && forall p :: p in h && c in h[p].regular ==> exists k :: 0 <= k < |srcs| && Root(h, p) == Root(h, srcs[k])
  }

  lemma SourcesExtend(h: Heap, h': Heap, c: Cid, srcs: seq<Pid>)
    requires Extends(h, h') && AtSources(h, c, srcs)
    requires ComesFrom(h, h', c)
    ensures AtSources(h', c, srcs)
  {
    hide Ranked, Forest, Root, Observed;
    forall p' | p' in h' && c in h'[p'].regular
      ensures exists k :: 0 <= k < |srcs| && Root(h', p') == Root(h', srcs[k])
    {
      var p :| p in h && p in h' && c in h[p].regular && Root(h', p) == Root(h', p');
      var k :| 0 <= k < |srcs| && Root(h, p) == Root(h, srcs[k]);
      assert Root(h', p) == Root(h', srcs[k]);
    }
  }

  lemma SourcesStay(m: Machine, a: Action, c: Cid, srcs: seq<Pid>)
    requires Inv(m) && Enabled(m, a) && c in m.cbs && AtSources(m.heap, c, srcs)
    ensures AtSources(Apply(m, a).heap, c, srcs)
  {
    hide Inv, Enabled, Apply, Ranked, Forest, Root, Extends, AtSources, ComesFrom;
    ApplyComesFrom(m, a, c);
    ApplyExtends(m, a);
    SourcesExtend(m.heap, Apply(m, a).heap, c, srcs);
  }

  /** A promise from whose list the callback is run is resolved, with the result of one of its sources. */
  lemma RunsWithSource(m: Machine, c: Cid, srcs: seq<Pid>, rid: Pid, r: Result)
    requires Inv(m) && AtSources(m.heap, c, srcs) && NextIs(m, rid, r, c) && IsFilled(m, c)
    ensures exists k :: 0 <= k < |srcs| && srcs[k] in m.heap && Observed(m.heap, srcs[k]) == Resolved(r)
  {
    NextIsLive(m, rid, r, c);
    hide Inv, Ranked, Forest;
    assert c in m.heap[rid].regular && Root(m.heap, rid) == rid;
    var k :| 0 <= k < |srcs| && Root(m.heap, rid) == Root(m.heap, srcs[k]);
    assert Observed(m.heap, srcs[k]) == Resolved(r);
  }

  // ------------------------------------------------------------------------------------------
  // When a callback has run
  // ------------------------------------------------------------------------------------------

  /** The step from state `n` is action `a`. */
  ghost predicate IsStep(ms: seq<Machine>, n: nat, a: Action) {
    n + 1 < |ms| && Enabled(ms[n], a) && ms[n + 1] == Apply(ms[n], a)
  }

  lemma StepAt(ms: seq<Machine>, n: nat) returns (a: Action)
    requires IsRun(ms) && n + 1 < |ms|
    ensures IsStep(ms, n, a) && Inv(ms[n])
  {
    hide Inv, Enabled, Apply;
    assert Next(ms[n], ms[n + 1]);
    a :| Enabled(ms[n], a) && ms[n + 1] == Apply(ms[n], a);
    EnabledInv(ms, n, a);
  }

  /** The step from `m` to `m'` runs callback `c`, of promise `rid`, on `r`. */
  ghost predicate Runs(m: Machine, m': Machine, rid: Pid, r: Result, c: Cid) {
    NextIs(m, rid, r, c) && IsFilled(m, c) && m'.ran == m.ran + [c]
  }

  ghost predicate RunsSome(m: Machine, m': Machine) {
    exists rid, r, c :: Runs(m, m', rid, r, c)
  }

  lemma RunStepRan(m: Machine, rid: Pid, r: Result, computed: Result)
    requires Forest(m.heap) && m.stack != [] && m.stack[|m.stack| - 1] == Run(rid, r)
    ensures
      var m' := RunStep(m, rid, r, computed);
      m'.ran == m.ran || (rid in m.heap && m.heap[rid].regular != [] && Runs(m, m', rid, r, m.heap[rid].regular[0]))
  {
    hide Ranked, Forest, Dispatch;
    if rid in m.heap && !(r == Rejected(Canceled) && m.heap[rid].cancel != []) && m.heap[rid].regular != [] {
      var m1 := Taken(m, rid);
      var c := m.heap[rid].regular[0];
      SameLinksForest(m.heap, m1.heap);
      if c in m.cbs {
        DispatchBooks(m1, c, r, computed);
      }
    }
  }

  /** An action runs nothing, or the callback that is next. */
  lemma ApplyRan(m: Machine, a: Action)
    requires Enabled(m, a)
    ensures Apply(m, a).ran == m.ran || (a.Engine? && RunsSome(m, Apply(m, a)))
  {
    hide Ranked, Forest, Resolve, ResolveOuter, RunStep, PickStep, AddAll, PendingRoots, Runs;
    match a
    case Engine(computed, order) =>
      match m.stack[|m.stack| - 1] {
        case Run(rid, r) => RunStepRan(m, rid, r, computed);
        case PickCancel(c, rest, r, t) => PickStepBooks(m, c, rest, r, t, order);
        case _ =>
      }
    case Wakeup(p, r, later) => ResolveBooks(m, Root(m.heap, p), r, if later then FromDepth(1) else Never);
    case ReturnPromise(u) => ReturnRan(m, a);
    case ReturnValue(r) => ReturnRan(m, a);
    case _ =>
  }

  lemma ReturnRan(m: Machine, a: Action)
    requires Enabled(m, a) && (a.ReturnPromise? || a.ReturnValue?)
    ensures Apply(m, a).ran == m.ran
  {
    hide Ranked, Forest, Resolve, ResolveOuter;
    var c := m.stack[|m.stack| - 1].cb;
    if c in m.cbs && HasOuter(m.cbs[c].kind) {
      var outer := m.cbs[c].kind.outer;
      if a.ReturnValue? {
        ResolveOuterBooks(Pop(m), c, outer, a.r);
      } else if outer in m.heap && Observed(m.heap, a.u).Resolved? {
        ResolveBooks(Discharge(Pop(m), c), Root(m.heap, outer), Observed(m.heap, a.u).result, Never);
      }
    }
  }

  /** A callback that has run has been run by some step. */
  lemma {:induction false} WhenRan(ms: seq<Machine>, i: nat, n: nat, c: Cid)
      returns (j: nat, rid: Pid, r: Result, a: Action)
    requires IsRun(ms) && i <= n < |ms| && c !in ms[i].ran && c in ms[n].ran
    ensures i <= j < n && IsStep(ms, j, a) && a.Engine? && Inv(ms[j]) && Runs(ms[j], ms[j + 1], rid, r, c)
  {
    hide IsRun, IsStep, Inv, Runs;
    var b := StepAt(ms, n - 1);
    if c in ms[n - 1].ran {
      j, rid, r, a := WhenRan(ms, i, n - 1, c);
    } else {
      StepRan(ms, n - 1, b);
      var rid0, r0, c0 :| Runs(ms[n - 1], ms[n], rid0, r0, c0);
      j, rid, r, a := n - 1, rid0, r0, b;
      RunsOne(ms[n - 1], ms[n], rid, r, c0);
    }
  }

  lemma RunsOne(m: Machine, m': Machine, rid: Pid, r: Result, c: Cid)
    requires Runs(m, m', rid, r, c)
    ensures m'.ran == m.ran + [c]
  {
  }

  lemma StepRan(ms: seq<Machine>, n: nat, a: Action)
    requires IsStep(ms, n, a)
    ensures ms[n + 1].ran == ms[n].ran || (a.Engine? && RunsSome(ms[n], ms[n + 1]))
  {
    hide Enabled, Apply, Runs;
    ApplyRan(ms[n], a);
  }

  // ------------------------------------------------------------------------------------------
  // Where it was registered
  // ------------------------------------------------------------------------------------------

  /** Action `a` registers callback `c`, of kind `kind`, to run when one of `srcs` is resolved. */
  ghost predicate Registers(m: Machine, a: Action, c: Cid, kind: Kind, srcs: seq<Pid>)
    requires Enabled(m, a)
  {
    match a
    case Attach(c0, src, kind0) => c == c0 && kind == kind0 && srcs == [src]
    case AttachPlain(c0, src) => c == c0 && kind == Plain && srcs == [src]
    case NewChoice(c0, ps, kind0) => c == c0 && kind == kind0 && srcs == ps
    case NewJoin(j, _, ps, cs) =>
      kind == JoinMember(j) && exists i :: 0 <= i < |cs| && c == cs[i] && srcs == [PendingRoots(m.heap, ps)[i]]
    case _ => false
  }

  lemma UnlistedCallback(m: Machine, c: Cid)
    requires Inv(m) && c !in m.cbs
    ensures c !in m.ran && forall p :: p in m.heap ==> c !in m.heap[p].regular
  {
    hide OwedOk, CbsOk, JoinsOk, FramesOk, QueueOk;
  }

  /** Wherever the callback is listed now, one of its sources stood for before. */
  lemma SourcesByRoots(m: Machine, a: Action, c: Cid, srcs: seq<Pid>)
    requires Enabled(m, a) && forall k :: 0 <= k < |srcs| ==> srcs[k] in m.heap
    requires
      forall x :: x in Apply(m, a).heap && c in Apply(m, a).heap[x].regular ==>
        x in m.heap && exists k :: 0 <= k < |srcs| && x == Root(m.heap, srcs[k])
    ensures AtSources(Apply(m, a).heap, c, srcs)
  {
    hide Enabled, Apply, Ranked, Forest;
    ApplyExtends(m, a);
    hide Root;
    var h, h' := m.heap, Apply(m, a).heap;
    forall x | x in h' && c in h'[x].regular
      ensures exists k :: 0 <= k < |srcs| && Root(h', x) == Root(h', srcs[k])
    {
      var k :| 0 <= k < |srcs| && x == Root(h, srcs[k]);
      RootOfRoot(h, srcs[k]);
    }
  }

  lemma AttachSources(m: Machine, c: Cid, src: Pid, kind: Kind)
    requires Inv(m) && Enabled(m, Attach(c, src, kind))
    ensures AtSources(Apply(m, Attach(c, src, kind)).heap, c, [src])
  {
    UnlistedCallback(m, c);
    hide Inv, Ranked, Forest, Root;
    assert [src][0] == src;
    SourcesByRoots(m, Attach(c, src, kind), c, [src]);
  }

  lemma PlainSources(m: Machine, c: Cid, src: Pid)
    requires Inv(m) && Enabled(m, AttachPlain(c, src))
    ensures AtSources(Apply(m, AttachPlain(c, src)).heap, c, [src])
  {
    UnlistedCallback(m, c);
    hide Inv, Ranked, Forest, Root;
    assert [src][0] == src;
    SourcesByRoots(m, AttachPlain(c, src), c, [src]);
  }

  lemma ChoiceSources(m: Machine, c: Cid, ps: seq<Pid>, kind: Kind)
    requires Inv(m) && Enabled(m, NewChoice(c, ps, kind))
    ensures AtSources(Apply(m, NewChoice(c, ps, kind)).heap, c, ps)
  {
    UnlistedCallback(m, c);
    hide Inv, Ranked, Forest, Root, AddAll;
    var rs := Roots(m.heap, ps);
    var h1 := m.heap[kind.outer := Promise(Pending, PropagateToSeveral(ps), [], [])];
    GivenAll(h1, rs, seq(|rs|, _ => c), c);
    SourcesByRoots(m, NewChoice(c, ps, kind), c, ps);
  }

  /** A callback of `join` is listed at the input that it is there for. */
  lemma JoinListed(m: Machine, j: Cid, outer: Pid, ps: seq<Pid>, cs: seq<Cid>, i: nat, x: Pid)
    requires Inv(m) && Enabled(m, NewJoin(j, outer, ps, cs)) && i < |cs|
    requires x in Apply(m, NewJoin(j, outer, ps, cs)).heap
    requires cs[i] in Apply(m, NewJoin(j, outer, ps, cs)).heap[x].regular
    ensures x == PendingRoots(m.heap, ps)[i]
  {
    UnlistedCallback(m, cs[i]);
    hide Inv, Ranked, Forest, Root, AddAll, PendingRoots;
    var rs := PendingRoots(m.heap, ps);
    var h1 := m.heap[outer := Promise(Pending, PropagateToSeveral(ps), [], [])];
    GivenAll(h1, rs, cs, cs[i]);
    var k :| 0 <= k < |rs| && rs[k] == x && cs[k] == cs[i];
  }

  lemma JoinSources(m: Machine, j: Cid, outer: Pid, ps: seq<Pid>, cs: seq<Cid>, i: nat)
    requires Inv(m) && Enabled(m, NewJoin(j, outer, ps, cs)) && i < |cs|
    ensures AtSources(Apply(m, NewJoin(j, outer, ps, cs)).heap, cs[i], [PendingRoots(m.heap, ps)[i]])
  {
    var rs, a := PendingRoots(m.heap, ps), NewJoin(j, outer, ps, cs);
    assert Root(m.heap, rs[i]) == rs[i];
    hide Inv, Ranked, Forest, Root, PendingRoots, Enabled, Apply;
    assert [rs[i]][0] == rs[i];
    forall x | x in Apply(m, a).heap && cs[i] in Apply(m, a).heap[x].regular
      ensures x in m.heap && exists k :: 0 <= k < |[rs[i]]| && x == Root(m.heap, [rs[i]][k])
    {
      JoinListed(m, j, outer, ps, cs, i, x);
    }
    SourcesByRoots(m, a, cs[i], [rs[i]]);
  }

  /** A callback that has just been registered keeps the storage of the moment, has not run, and is listed at its
      sources only. */
  lemma RegistersNew(m: Machine, a: Action, c: Cid, kind: Kind, srcs: seq<Pid>)
    requires Inv(m) && Enabled(m, a) && Registers(m, a, c, kind, srcs)
    ensures
      var m' := Apply(m, a);
      c !in m'.ran && c in m'.cbs && m'.cbs[c] == Callback(kind, m.storage) && AtSources(m'.heap, c, srcs)
  {
    UnlistedCallback(m, c);
    hide Inv, Ranked, Forest, AddAll, PendingRoots, AtSources;
    match a
    case Attach(_, src, _) => AttachSources(m, c, src, kind);
    case AttachPlain(_, src) => PlainSources(m, c, src);
    case NewChoice(_, ps, _) => ChoiceSources(m, c, ps, kind);
    case NewJoin(j, outer, ps, cs) =>
      var i :| 0 <= i < |cs| && c == cs[i] && srcs == [PendingRoots(m.heap, ps)[i]];
      JoinSources(m, j, outer, ps, cs, i);
  }

  // ------------------------------------------------------------------------------------------
  // Over whole runs
  // ------------------------------------------------------------------------------------------

  /** Callback `c` has been registered by the step from state `i`. */
  ghost predicate RegisteredAt(ms: seq<Machine>, i: nat, a: Action, c: Cid, kind: Kind, srcs: seq<Pid>) {
    IsRun(ms) && IsStep(ms, i, a) && Registers(ms[i], a, c, kind, srcs)
  }

  lemma {:induction false} StaysRegistered(ms: seq<Machine>, i: nat, a: Action, c: Cid, kind: Kind, srcs: seq<Pid>,
                                           n: nat)
    requires RegisteredAt(ms, i, a, c, kind, srcs) && i < n < |ms|
    ensures c !in ms[i + 1].ran && c in ms[n].cbs && ms[n].cbs[c] == Callback(kind, ms[i].storage)
    ensures AtSources(ms[n].heap, c, srcs)
  {
    hide Inv, Enabled, Apply, AtSources, Registers, IsRun;
    if n == i + 1 {
      EnabledInv(ms, i, a);
      RegistersNew(ms[i], a, c, kind, srcs);
    } else {
      StaysRegistered(ms, i, a, c, kind, srcs, n - 1);
      var b := StepAt(ms, n - 1);
      CallbacksStay(ms[n - 1], b);
      SourcesStay(ms[n - 1], b, c, srcs);
    }
  }

  /** In every run, a callback runs only when one of the promises it has been registered with is resolved, on the result
      of that promise. */
  lemma RunsOnSource(ms: seq<Machine>, i: nat, a: Action, c: Cid, kind: Kind, srcs: seq<Pid>, n: nat)
      returns (j: nat, rid: Pid, r: Result, b: Action, k: nat)
    requires RegisteredAt(ms, i, a, c, kind, srcs) && i < n < |ms| && c in ms[n].ran
    ensures i < j < n && IsStep(ms, j, b) && b.Engine? && Inv(ms[j]) && Runs(ms[j], ms[j + 1], rid, r, c)
    ensures k < |srcs| && Forest(ms[j].heap) && srcs[k] in ms[j].heap && Observed(ms[j].heap, srcs[k]) == Resolved(r)
    ensures Forest(ms[n].heap) && srcs[k] in ms[n].heap && Observed(ms[n].heap, srcs[k]) == Resolved(r)
    ensures c in ms[j].cbs && ms[j].cbs[c] == Callback(kind, ms[i].storage)
  {
    hide Inv, Enabled, Apply, IsRun, Ranked, Forest, Registers;
    StaysRegistered(ms, i, a, c, kind, srcs, n);
    j, rid, r, b := WhenRan(ms, i + 1, n, c);
    StaysRegistered(ms, i, a, c, kind, srcs, j);
    RunsWithSource(ms[j], c, srcs, rid, r);
    k :| 0 <= k < |srcs| && srcs[k] in ms[j].heap && Observed(ms[j].heap, srcs[k]) == Resolved(r);
    ResultIsFinal(ms, j, n, srcs[k]);
  }

  /** In every run, a callback runs in the storage of the moment at which it was registered: the function given to
      `bind`, `map` or `on_any` sees the values set then. */
  lemma RunsInSavedStorage(ms: seq<Machine>, i: nat, a: Action, c: Cid, kind: Kind, srcs: seq<Pid>, n: nat, b: Action,
                           rid: Pid, r: Result)
    requires RegisteredAt(ms, i, a, c, kind, srcs) && i < n && IsStep(ms, n, b) && Runs(ms[n], ms[n + 1], rid, r, c)
    requires b.Engine? && (CallsUser(kind, r) || kind.Plain?)
    ensures ms[n + 1].storage == ms[i].storage
    ensures ms[n + 1].stack ==
            ms[n].stack + [if kind.Bind? then UserBind(c) else if kind.Map? then UserMap(c) else User]
  {
    hide Inv, Enabled, Apply, IsRun, Ranked, Forest, Registers, SameObserved;
    StaysRegistered(ms, i, a, c, kind, srcs, n);
    EnabledInv(ms, n, b);
    if kind.Plain? {
      PlainIsCalled(ms[n], rid, r, c, b.computed, b.order);
    } else {
      UserIsCalled(ms[n], rid, r, c, b.computed, b.order);
    }
  }

  /** In every run, as long as a callback has not run, the promise that it is to resolve is pending. */
  lemma PendingUntilRun(ms: seq<Machine>, i: nat, a: Action, c: Cid, kind: Kind, srcs: seq<Pid>, n: nat)
    requires RegisteredAt(ms, i, a, c, kind, srcs) && i < n < |ms| && HasOuter(kind) && c !in ms[n].ran
    requires !ms[n].crashed
    ensures Forest(ms[n].heap) && kind.outer in ms[n].heap && Observed(ms[n].heap, kind.outer).Pending?
  {
    hide Inv, IsStep, Ranked, Forest, Registers, Listed;
    StaysRegistered(ms, i, a, c, kind, srcs, n);
    RunBooks(ms, n);
    RunInv(ms, n);
    hide IsRun;
    LiveOwes(ms[n], c);
  }

  /** In every run, a callback that hands its result on has resolved its outer promise with the result of one of the
      promises it has been registered with. */
  lemma PassesSource(ms: seq<Machine>, i: nat, a: Action, c: Cid, kind: Kind, srcs: seq<Pid>, n: nat)
      returns (k: nat, r: Result)
    requires RegisteredAt(ms, i, a, c, kind, srcs) && i < n < |ms| && c in ms[n].ran
    ensures Forest(ms[n].heap) && k < |srcs| && srcs[k] in ms[n].heap && Observed(ms[n].heap, srcs[k]) == Resolved(r)
    ensures PassesOn(kind, r) ==> kind.outer in ms[n].heap && Observed(ms[n].heap, kind.outer) == Resolved(r)
  {
    hide Inv, Enabled, Apply, IsRun, Ranked, Forest, Registers, RunsNext;
    var j, rid, b;
    j, rid, r, b, k := RunsOnSource(ms, i, a, c, kind, srcs, n);
    if PassesOn(kind, r) {
      ResultIsPassed(ms[j], rid, r, c, b.computed, b.order);
      ResultIsFinal(ms, j + 1, n, kind.outer);
    }
  }

  /** In every run, whenever the engine is idle: a callback of `bind`, `map`, `no_cancel`, `on_any` and the like has run
      exactly if the promise it has been registered with is resolved.  If so, and the callback is not for that kind of
      result, the outer promise has the same result; if not, the outer promise is pending. */
  lemma WhenIdle(ms: seq<Machine>, i: nat, a: Action, c: Cid, kind: Kind, src: Pid, n: nat)
    requires RegisteredAt(ms, i, a, c, kind, [src]) && i < n < |ms| && ms[n].stack == [] && !ms[n].crashed
    requires !Removable(kind)
    ensures Forest(ms[n].heap) && src in ms[n].heap
    ensures c in ms[n].ran <==> Observed(ms[n].heap, src).Resolved?
    ensures HasOuter(kind) ==> kind.outer in ms[n].heap
    ensures HasOuter(kind) && Observed(ms[n].heap, src).Pending? ==> Observed(ms[n].heap, kind.outer).Pending?
    ensures Observed(ms[n].heap, src).Resolved? && PassesOn(kind, Observed(ms[n].heap, src).result) ==>
              Observed(ms[n].heap, kind.outer) == Observed(ms[n].heap, src)
  {
    hide Inv, IsStep, Ranked, Forest, Root, Registers, IsRun, PassesOn;
    StaysRegistered(ms, i, a, c, kind, [src], n);
    assert [src][0] == src;
    var h := ms[n].heap;
    if c in ms[n].ran {
      var k, r := PassesSource(ms, i, a, c, kind, [src], n);
      if HasOuter(kind) {
        OuterStays(ms, i, a, c, kind, [src], n);
      }
    } else {
      if HasOuter(kind) {
        PendingUntilRun(ms, i, a, c, kind, [src], n);
      }
      IdleHasRun(ms, n, c);
      var p :| p in h && h[p].state.Pending? && c in h[p].regular;
      PendingRoot(h, p);
      var k :| 0 <= k < |[src]| && Root(h, p) == Root(h, [src][k]);
      assert Observed(h, src).Pending?;
    }
  }

  lemma PendingRoot(h: Heap, p: Pid)
    requires Forest(h) && p in h && h[p].state.Pending?
    ensures Root(h, p) == p
  {
    hide Ranked;
  }

  lemma OuterStays(ms: seq<Machine>, i: nat, a: Action, c: Cid, kind: Kind, srcs: seq<Pid>, n: nat)
    requires RegisteredAt(ms, i, a, c, kind, srcs) && i < n < |ms| && HasOuter(kind)
    ensures kind.outer in ms[n].heap
  {
    hide Inv, Ranked, Forest;
    RunExtends(ms, i + 1, n);
    hide IsRun, Extends;
    OuterIsMade(ms[i], a, c, kind, srcs);
  }

  lemma OuterIsMade(m: Machine, a: Action, c: Cid, kind: Kind, srcs: seq<Pid>)
    requires Enabled(m, a) && Registers(m, a, c, kind, srcs) && HasOuter(kind)
    ensures kind.outer in Apply(m, a).heap
  {
    hide Ranked, Forest, SameObserved;
    match a
    case Attach(_, src, _) => AttachLaw(m, c, src, kind);
    case NewChoice(_, ps, _) => ChoiceLaw(m, c, ps, kind);
    case _ =>
  }

  // ------------------------------------------------------------------------------------------
  // When a user function has returned
  // ------------------------------------------------------------------------------------------

  ghost predicate OnTop(m: Machine, f: Frame) {
    m.stack != [] && m.stack[|m.stack| - 1] == f
  }

  /** User functions that somebody waits for leave the stack only by returning. */
  lemma UserLeaves(m: Machine, a: Action, f: Frame)
    requires Inv(m) && Enabled(m, a) && (f.UserBind? || f.UserMap?)
    requires f in m.stack
    ensures f in Apply(m, a).stack || (OnTop(m, f) && if f.UserBind? then a.ReturnPromise? else a.ReturnValue?)
  {
    hide Inv, Ranked, Forest, Resolve, AddAll, PendingRoots, MarkCanceled, LoopStays;
    ApplyStack(m, a);
    var s, s' := m.stack, Apply(m, a).stack;
    var i :| 0 <= i < |s| && s[i] == f;
    if i < |s| - 1 {
      assert s'[..|s| - 1][i] == f;
    } else if a.Wakeup? {
      ResolveStack(m, Root(m.heap, a.p), a.r, if a.later then FromDepth(1) else Never);
      assert s'[..|s|][i] == f || s' == s;
    }
  }

  lemma {:induction false} WhenReturned(ms: seq<Machine>, j: nat, n: nat, f: Frame) returns (k: nat, a: Action)
    requires IsRun(ms) && j <= n < |ms| && (f.UserBind? || f.UserMap?)
    requires f in ms[j].stack && f !in ms[n].stack
    ensures j <= k < n && IsStep(ms, k, a) && Inv(ms[k]) && OnTop(ms[k], f)
    ensures if f.UserBind? then a.ReturnPromise? else a.ReturnValue?
  {
    hide IsRun, Inv, Enabled, Apply;
    if f !in ms[n - 1].stack {
      k, a := WhenReturned(ms, j, n - 1, f);
    } else {
      k := n - 1;
      a := StepAt(ms, k);
      UserLeaves(ms[k], a, f);
    }
  }

  /** In every run, whenever the engine is idle: if the promise given to `bind`, `catch`, `try_bind` or `map` is
      resolved with a result that the function is for, the function has been called, in the storage of the moment at
      which it was given, and has returned.  The outer promise is then observed as the promise that it returned, or, for
      `map`, as resolved with what it returned or raised. */
  lemma FunctionReturns(ms: seq<Machine>, i: nat, a: Action, c: Cid, kind: Kind, src: Pid, n: nat)
      returns (j: nat, k: nat, b: Action)
    requires RegisteredAt(ms, i, a, c, kind, [src]) && i < n < |ms| && ms[n].stack == [] && !ms[n].crashed
    requires Forest(ms[n].heap) && src in ms[n].heap && Observed(ms[n].heap, src).Resolved?
    requires CallsUser(kind, Observed(ms[n].heap, src).result)
    ensures i < j < k < n && OnTop(ms[j + 1], if kind.Bind? then UserBind(c) else UserMap(c))
    ensures ms[j + 1].storage == ms[i].storage
    ensures IsStep(ms, k, b) && OnTop(ms[k], if kind.Bind? then UserBind(c) else UserMap(c))
    ensures kind.outer in ms[n].heap
    ensures
      if kind.Bind? then
        b.ReturnPromise? && b.u in ms[n].heap && Observed(ms[n].heap, kind.outer) == Observed(ms[n].heap, b.u)
      else b.ReturnValue? && Observed(ms[n].heap, kind.outer) == Resolved(b.r)
  {
    hide Inv, Enabled, Apply, Ranked, Forest, Root, Registers, IsRun, ResolvesExactly, RunsNext, Runs;
    WhenIdle(ms, i, a, c, kind, src, n);
    var rid, r, e, x;
    assert [src][0] == src;
    j, rid, r, e, x := RunsOnSource(ms, i, a, c, kind, [src], n);
    RunsInSavedStorage(ms, i, a, c, kind, [src], j, e, rid, r);
    var f := if kind.Bind? then UserBind(c) else UserMap(c);
    k, b := WhenReturned(ms, j + 1, n, f);
    StaysRegistered(ms, i, a, c, kind, [src], k);
    if kind.Bind? {
      ProxyIsForever(ms, k, n, b.u);
    } else {
      ReturnedValue(ms, k, n, b, c);
    }
  }

  lemma ReturnedValue(ms: seq<Machine>, k: nat, n: nat, b: Action, c: Cid)
    requires IsRun(ms) && IsStep(ms, k, b) && b.ReturnValue? && k < n < |ms| && OnTop(ms[k], UserMap(c))
    requires Inv(ms[k])
    ensures c in ms[k].cbs && HasOuter(ms[k].cbs[c].kind) && Forest(ms[n].heap)
    ensures
      ms[k].cbs[c].kind.outer in ms[n].heap && Observed(ms[n].heap, ms[k].cbs[c].kind.outer) == Resolved(b.r)
  {
    hide Inv, Enabled, Apply, Ranked, Forest, IsRun, RunsNext;
    MapReturns(ms[k], b.r);
    ResultIsFinal(ms, k + 1, n, ms[k].cbs[c].kind.outer);
  }

  // ------------------------------------------------------------------------------------------
  // When pick has cancelled its inputs
  // ------------------------------------------------------------------------------------------

  /** The callback of `pick` is cancelling the inputs, and keeps result `r`. */
  predicate Picking(s: seq<Frame>, c: Cid, r: Result, t: Target) {
    exists i :: 0 <= i < |s| && s[i].PickCancel? && s[i].cb == c && s[i].picked == r && s[i].target == t
  }

  lemma PickLeaves(m: Machine, a: Action, c: Cid, r: Result, t: Target)
    requires Inv(m) && Enabled(m, a) && Picking(m.stack, c, r, t)
    ensures Picking(Apply(m, a).stack, c, r, t) || (OnTop(m, PickCancel(c, [], r, t)) && a.Engine?)
  {
    hide Inv, Ranked, Forest, MarkCanceled, LoopStays, Resolve, ResolveOuter;
    ApplyStack(m, a);
    var s, s' := m.stack, Apply(m, a).stack;
    var i :| 0 <= i < |s| && s[i].PickCancel? && s[i].cb == c && s[i].picked == r && s[i].target == t;
    if i < |s| - 1 {
      assert s'[..|s| - 1][i] == s[i];
    } else if a.Engine? && s[i].rest != [] {
      assert s'[|s| - 1] == s[i].(rest := s[i].rest[1..]);
    }
  }

  lemma {:induction false} WhenPicked(ms: seq<Machine>, j: nat, n: nat, c: Cid, r: Result, t: Target)
      returns (k: nat, a: Action)
    requires IsRun(ms) && j <= n < |ms| && Picking(ms[j].stack, c, r, t) && !Picking(ms[n].stack, c, r, t)
    ensures j <= k < n && IsStep(ms, k, a) && Inv(ms[k]) && OnTop(ms[k], PickCancel(c, [], r, t)) && a.Engine?
  {
    hide IsRun, Inv, Enabled, Apply, Picking;
    if !Picking(ms[n - 1].stack, c, r, t) {
      k, a := WhenPicked(ms, j, n - 1, c, r, t);
    } else {
      k := n - 1;
      a := StepAt(ms, k);
      PickLeaves(ms[k], a, c, r, t);
    }
  }

  /** In every run, whenever the engine is idle: the promise made by `choose` or `pick` is pending as long as no input
      has called back, and otherwise it has the result of one of the inputs. */
  lemma ChoiceResolves(ms: seq<Machine>, i: nat, a: Action, c: Cid, kind: Kind, ps: seq<Pid>, n: nat)
    requires RegisteredAt(ms, i, a, c, kind, ps) && i < n < |ms| && ms[n].stack == [] && !ms[n].crashed
    requires kind.Choose? || kind.Pick?
    ensures Forest(ms[n].heap) && kind.outer in ms[n].heap
    ensures c !in ms[n].ran ==> Observed(ms[n].heap, kind.outer).Pending?
    ensures c in ms[n].ran ==>
              exists k :: 0 <= k < |ps| && ps[k] in ms[n].heap && Observed(ms[n].heap, ps[k]).Resolved? &&
                          Observed(ms[n].heap, kind.outer) == Observed(ms[n].heap, ps[k])
  {
    hide Inv, IsStep, Ranked, Forest, Root, Registers, IsRun;
    if c !in ms[n].ran {
      PendingUntilRun(ms, i, a, c, kind, ps, n);
    } else if kind.Choose? {
      var k, r := PassesSource(ms, i, a, c, kind, ps, n);
    } else {
      var k, r := PickedSource(ms, i, a, c, kind, ps, n);
    }
  }

  lemma PickedSource(ms: seq<Machine>, i: nat, a: Action, c: Cid, kind: Kind, ps: seq<Pid>, n: nat)
      returns (k: nat, r: Result)
    requires RegisteredAt(ms, i, a, c, kind, ps) && i < n < |ms| && ms[n].stack == [] && c in ms[n].ran && kind.Pick?
    ensures Forest(ms[n].heap) && k < |ps| && ps[k] in ms[n].heap && Observed(ms[n].heap, ps[k]) == Resolved(r)
    ensures kind.outer in ms[n].heap && Observed(ms[n].heap, kind.outer) == Resolved(r)
  {
    hide Inv, Enabled, Apply, Ranked, Forest, Root, Registers, IsRun, Runs;
    var j, rid, e;
    j, rid, r, e, k := RunsOnSource(ms, i, a, c, kind, ps, n);
    StartsPicking(ms, j, e, rid, r, c);
    var b;
    j, b := WhenPicked(ms, j + 1, n, c, r, AtEnd);
    StaysRegistered(ms, i, a, c, kind, ps, j);
    EndsPicking(ms, j, b, c, r, n);
  }

  lemma StartsPicking(ms: seq<Machine>, j: nat, e: Action, rid: Pid, r: Result, c: Cid)
    requires IsStep(ms, j, e) && e.Engine? && Inv(ms[j]) && Runs(ms[j], ms[j + 1], rid, r, c)
    requires ms[j].cbs[c].kind.Pick?
    ensures Picking(ms[j + 1].stack, c, r, AtEnd)
  {
    hide Inv, Enabled, Apply, Ranked, Forest, SameObserved;
    PickStarts(ms[j], rid, r, c, e.computed, e.order);
    assert ms[j + 1].stack[|ms[j].stack|] == PickCancel(c, ms[j].cbs[c].kind.ps, r, AtEnd);
  }

  lemma EndsPicking(ms: seq<Machine>, k: nat, b: Action, c: Cid, r: Result, n: nat)
    requires IsRun(ms) && IsStep(ms, k, b) && b.Engine? && k < n < |ms| && OnTop(ms[k], PickCancel(c, [], r, AtEnd))
    requires Inv(ms[k])
    ensures c in ms[k].cbs && HasOuter(ms[k].cbs[c].kind) && Forest(ms[n].heap)
    ensures ms[k].cbs[c].kind.outer in ms[n].heap && Observed(ms[n].heap, ms[k].cbs[c].kind.outer) == Resolved(r)
  {
    hide Inv, Enabled, Apply, Ranked, Forest, Root, IsRun, RunsNext;
    PickEnds(ms[k], PickCancel(c, [], r, AtEnd), b.computed, b.order);
    ResultIsFinal(ms, k + 1, n, ms[k].cbs[c].kind.outer);
  }

  // ------------------------------------------------------------------------------------------
  // Cancel callbacks
  // ------------------------------------------------------------------------------------------

  /** A cancel callback that runs in storage `s` was listed before at a promise that stands for the same one now. */
  ghost predicate CancelComesFrom(h: Heap, h': Heap, p': Pid, s: Storage)
    requires Forest(h') && p' in h'
  {
    exists p :: p in h && p in h' && s in h[p].cancel && Root(h', p) == Root(h', p')
  }

  lemma CreateCancel(m: Machine, a: Action, p': Pid, s: Storage)
    requires Enabled(m, a) && Creates(a) && p' in Apply(m, a).heap && s in Apply(m, a).heap[p'].cancel
    ensures (p' in m.heap && s in m.heap[p'].cancel) || (a.OnCancel? && p' == Root(m.heap, a.src) && s == m.storage)
  {
    hide Ranked, Forest, AddAll, PendingRoots, Root;
    match a
    case NewInitial(p, cancelable) =>
    case NewResolved(p, r) =>
    case Attach(_, src, kind) =>
    case AttachPlain(_, src) =>
    case OnCancel(src) =>
    case NewJoin(j, outer, ps, cs) =>
      var h1 := m.heap[outer := Promise(Pending, PropagateToSeveral(ps), [], [])];
      AddAllLinks(h1, PendingRoots(m.heap, ps), cs);
      GivenIs(h1, PendingRoots(m.heap, ps), cs, p');
    case NewChoice(c, ps, kind) =>
      var rs := Roots(m.heap, ps);
      var h1 := m.heap[kind.outer := Promise(Pending, PropagateToSeveral(ps), [], [])];
      AddAllLinks(h1, rs, seq(|rs|, _ => c));
      GivenIs(h1, rs, seq(|rs|, _ => c), p');
  }

  lemma ApplyCancel(m: Machine, a: Action, p': Pid, s: Storage)
    requires Inv(m) && Enabled(m, a) && p' in Apply(m, a).heap && s in Apply(m, a).heap[p'].cancel
    ensures
      && Forest(Apply(m, a).heap)
      && (CancelComesFrom(m.heap, Apply(m, a).heap, p', s) ||
          (a.OnCancel? && p' == Root(m.heap, a.src) && s == m.storage))
  {
    hide Inv, Enabled, Apply, Ranked, Forest, Root;
    ApplyForest(m, a);
    if Creates(a) {
      CreateCancel(m, a, p', s);
    } else if a.ReturnPromise? && PendingReturn(m, a) {
      MergeCancel(m, a.u, p', s);
    } else {
      OtherSub(m, a);
      assert p' in m.heap && s in m.heap[p'].cancel;
    }
  }

  lemma MergeCancel(m: Machine, u: Pid, p': Pid, s: Storage)
    requires Inv(m) && Enabled(m, ReturnPromise(u)) && Observed(m.heap, u).Pending?
    requires
      p' in Apply(m, ReturnPromise(u)).heap && s in Apply(m, ReturnPromise(u)).heap[p'].cancel
    ensures
      Forest(Apply(m, ReturnPromise(u)).heap) && CancelComesFrom(m.heap, Apply(m, ReturnPromise(u)).heap, p', s)
  {
    hide Inv, Ranked, Forest, Root;
    FrameOwes(m);
    var o, q := Root(m.heap, m.cbs[m.stack[|m.stack| - 1].cb].kind.outer), Root(m.heap, u);
    if q != o {
      MergeRoots(m.heap, q, o);
      assert Root(Apply(m, ReturnPromise(u)).heap, q) == o;
      assert Root(Apply(m, ReturnPromise(u)).heap, o) == o;
      assert s in m.heap[p'].cancel || (p' == o && s in m.heap[q].cancel);
    }
  }

  /** Storage `s` was the current one when a cancel callback was given to a promise that stands for `p` in state `n`. */
  ghost predicate GivenAt(ms: seq<Machine>, n: nat, p: Pid, s: Storage, k: nat, src: Pid)
    requires n < |ms| && Forest(ms[n].heap) && p in ms[n].heap
  {
    && k < n && IsStep(ms, k, OnCancel(src)) && ms[k].storage == s
    && src in ms[n].heap && Root(ms[n].heap, src) == Root(ms[n].heap, p)
  }

  lemma {:induction false} CancelGiven(ms: seq<Machine>, n: nat, p: Pid, s: Storage) returns (k: nat, src: Pid)
    requires IsRun(ms) && n < |ms| && p in ms[n].heap && s in ms[n].heap[p].cancel
    ensures Forest(ms[n].heap) && GivenAt(ms, n, p, s, k, src)
  {
    hide Inv, Enabled, Apply, Ranked, Forest, Root, CancelComesFrom;
    if n == 0 {
      assert false;
    } else {
      var a := StepAt(ms, n - 1);
      var h, h' := ms[n - 1].heap, ms[n].heap;
      ApplyCancel(ms[n - 1], a, p, s);
      ApplyExtends(ms[n - 1], a);
      if CancelComesFrom(h, h', p, s) {
        var p0 := CancelSource(h, h', p, s);
        hide IsRun;
        k, src := CancelGiven(ms, n - 1, p0, s);
      } else {
        k, src := n - 1, a.src;
        OnCancelSource(ms[n - 1], src);
      }
    }
  }

  lemma CancelSource(h: Heap, h': Heap, p': Pid, s: Storage) returns (p: Pid)
    requires Forest(h') && p' in h' && CancelComesFrom(h, h', p', s)
    ensures p in h && p in h' && s in h[p].cancel && Root(h', p) == Root(h', p')
  {
    hide Forest, Root;
    p :| p in h && p in h' && s in h[p].cancel && Root(h', p) == Root(h', p');
  }

  lemma OnCancelSource(m: Machine, src: Pid)
    requires Enabled(m, OnCancel(src))
    ensures
      var h' := Apply(m, OnCancel(src)).heap;
      && Forest(m.heap) && Forest(h') && src in m.heap && src in h' && Root(m.heap, src) in h'
      && Root(h', Root(m.heap, src)) == Root(h', src)
  {
    hide Ranked, Forest, Enabled, Apply;
    ApplyExtends(m, OnCancel(src));
    EnabledSource(m, src);
    RootOfRoot(m.heap, src);
  }

  lemma EnabledSource(m: Machine, src: Pid)
    requires Enabled(m, OnCancel(src))
    ensures Forest(m.heap) && src in m.heap
  {
    hide Ranked, Forest;
  }

  /** In every run, a cancel callback runs in the storage of the moment at which it was given to the promise, or to one
      that stands for the same promise now. */
  lemma CancelRunsInSavedStorage(ms: seq<Machine>, n: nat, a: Action, rid: Pid) returns (k: nat, src: Pid)
    requires IsRun(ms) && IsStep(ms, n, a) && a.Engine? && OnTop(ms[n], Run(rid, Rejected(Canceled)))
    requires rid in ms[n].heap && ms[n].heap[rid].cancel != []
    ensures k < n && IsStep(ms, k, OnCancel(src)) && Forest(ms[n].heap)
    ensures src in ms[n].heap && Root(ms[n].heap, src) == Root(ms[n].heap, rid)
    ensures ms[n + 1].storage == ms[k].storage && ms[n + 1].stack == ms[n].stack + [User]
  {
    hide IsRun, Ranked, Forest, Root, Enabled, Apply, SameObserved;
    k, src := CancelGiven(ms, n, rid, ms[n].heap[rid].cancel[0]);
    CancelCallbackIsCalled(ms[n], rid, a.computed, a.order);
  }
}
