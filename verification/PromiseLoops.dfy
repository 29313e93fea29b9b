/** The resolution loop over whole runs: what it restores, what it defers and what it runs. */
module PromiseLoops {
  import opened PromiseHeap
  import opened PromiseEngine
  import opened PromiseSafety
  import opened PromiseExtends
  import opened PromiseRuns

  // ------------------------------------------------------------------------------------------
  // Stack discipline
  // ------------------------------------------------------------------------------------------

  /** From `s` to `s'` only the innermost activity has changed, and at most it has ended. */
  ghost predicate TopOnly(s: seq<Frame>, s': seq<Frame>) {
    s == [] || (|s'| >= |s| - 1 && s'[..|s| - 1] == s[..|s| - 1])
  }

  /** An entered loop stays where it is until it is left, which restores what it saved. */
  ghost predicate LoopStays(m: Machine, m': Machine) {
    m.stack != [] && m.stack[|m.stack| - 1].Loop? ==>
      var n := |m.stack| - 1;
      || (|m'.stack| > n && m'.stack[n] == m.stack[n])
      || (|m'.stack| == n && m'.storage == m.stack[n].snapshot && (m.depth == 1 ==> m'.queue == []))
  }

  lemma ResolveStack(m: Machine, p: Pid, r: Result, d: Deferring)
    ensures var s' := Resolve(m, p, r, d).stack; |s'| >= |m.stack| && s'[..|m.stack|] == m.stack
  {
  }

  lemma ResolveOuterStack(m: Machine, t: Cid, outer: Pid, r: Result)
    requires Forest(m.heap)
    ensures var s' := ResolveOuter(m, t, outer, r).stack; |s'| >= |m.stack| && s'[..|m.stack|] == m.stack
  {
    if outer in m.heap {
      ResolveStack(Discharge(m, t), Root(m.heap, outer), r, Never);
    }
  }

  lemma DispatchStack(m: Machine, c: Cid, r: Result, computed: Result)
    requires Forest(m.heap) && c in m.cbs
    ensures var s' := Dispatch(m, c, r, computed).stack; |s'| >= |m.stack| && s'[..|m.stack|] == m.stack
  {
    hide ResolveOuter, Ranked, Forest;
    var m1 := m.(live := m.live - {c}, ran := m.ran + [c]);
    var k := m.cbs[c].kind;
    if HasOuter(k) {
      ResolveOuterStack(m1, c, k.outer, r);
      ResolveOuterStack(m1, c, k.outer, computed);
    } else if k.JoinMember? && k.join in m.joins {
      var join := JoinUpdate(m.joins[k.join], r);
      ResolveOuterStack(m1.(joins := m.joins[k.join := join]), k.join, join.outer, join.result);
    }
  }

  lemma MakeIntoProxyStack(m: Machine, o: Pid, u: Pid)
    requires Forest(m.heap) && u in m.heap
    ensures var s' := MakeIntoProxy(m, o, u).stack; |s'| >= |m.stack| && s'[..|m.stack|] == m.stack
  {
    if m.heap[Root(m.heap, u)].state.Resolved? {
      ResolveStack(m, o, m.heap[Root(m.heap, u)].state.result, Never);
    }
  }

  lemma RunStepStack(m: Machine, rid: Pid, r: Result, computed: Result)
    requires Forest(m.heap) && m.stack != []
    ensures TopOnly(m.stack, RunStep(m, rid, r, computed).stack)
  {
    hide Dispatch, Ranked;
    if rid in m.heap && m.heap[rid].regular != [] {
      var p := m.heap[rid];
      var c := p.regular[0];
      var m1 := m.(heap := m.heap[rid := p.(regular := p.regular[1..])]);
      SameLinksForest(m.heap, m1.heap);
      if c in m.cbs {
        DispatchStack(m1, c, r, computed);
      }
    }
  }

  lemma LoopStepStack(m: Machine, snapshot: Storage)
    requires m.stack != [] && m.stack[|m.stack| - 1] == Loop(snapshot)
    ensures TopOnly(m.stack, LoopStep(m, snapshot).stack) && LoopStays(m, LoopStep(m, snapshot))
  {
  }

  lemma PickStepStack(m: Machine, c: Cid, rest: seq<Pid>, r: Result, t: Target, order: seq<Pid>)
    requires Forest(m.heap) && m.stack != []
    ensures TopOnly(m.stack, PickStep(m, c, rest, r, t, order).stack)
  {
    hide Ranked;
    if rest == [] && t.Captured? {
      ResolveStack(Discharge(Pop(m), c), t.p, r, Never);
    } else if rest == [] && c in m.cbs && HasOuter(m.cbs[c].kind) {
      ResolveOuterStack(Pop(m), c, m.cbs[c].kind.outer, r);
    }
  }

  lemma EngineStack(m: Machine, computed: Result, order: seq<Pid>)
    requires Forest(m.heap) && !UserTurn(m)
    ensures TopOnly(m.stack, DoEngine(m, computed, order).stack)
    ensures LoopStays(m, DoEngine(m, computed, order))
  {
    hide RunStep, LoopStep, PickStep, Ranked;
    match m.stack[|m.stack| - 1]
    case Loop(snapshot) => LoopStepStack(m, snapshot);
    case Run(rid, r) => RunStepStack(m, rid, r, computed);
    case CancelRun(rids) =>
    case PickCancel(c, rest, r, t) => PickStepStack(m, c, rest, r, t, order);
  }

  lemma ApplyStack(m: Machine, a: Action)
    requires Inv(m) && Enabled(m, a)
    ensures TopOnly(m.stack, Apply(m, a).stack) && LoopStays(m, Apply(m, a))
  {
    hide Inv, Extends, Ranked;
    if Creates(a) {
    } else {
      match a
      case Wakeup(p, r, later) => ResolveStack(m, Root(m.heap, p), r, if later then FromDepth(1) else Never);
      case ReturnPromise(u) =>
        var c := m.stack[|m.stack| - 1].cb;
        if c in m.cbs && HasOuter(m.cbs[c].kind) && m.cbs[c].kind.outer in m.heap {
          MakeIntoProxyStack(Discharge(Pop(m), c), Root(m.heap, m.cbs[c].kind.outer), u);
        }
      case ReturnValue(r) =>
        var c := m.stack[|m.stack| - 1].cb;
        if c in m.cbs && HasOuter(m.cbs[c].kind) {
          ResolveOuterStack(Pop(m), c, m.cbs[c].kind.outer, r);
        }
      case Engine(computed, order) => EngineStack(m, computed, order);
      case _ =>
    }
  }

  /** As long as more than `d` activities are open, the `d + 1` outermost ones keep their loop. */
  lemma {:induction false} LoopIsKept(ms: seq<Machine>, n: nat, k: nat, d: nat)
    requires IsRun(ms) && n <= k < |ms| && d < |ms[n].stack| && ms[n].stack[d].Loop?
    requires forall i :: n <= i <= k ==> |ms[i].stack| > d
    ensures ms[k].stack[..d + 1] == ms[n].stack[..d + 1]
  {
    hide Inv, Enabled, Apply;
    if n < k {
      LoopIsKept(ms, n, k - 1, d);
      assert Next(ms[k - 1], ms[k]);
      var a :| Enabled(ms[k - 1], a) && ms[k] == Apply(ms[k - 1], a);
      EnabledInv(ms, k - 1, a);
      ApplyStack(ms[k - 1], a);
      var s, s' := ms[k - 1].stack, ms[k].stack;
      assert s[..d + 1][d] == ms[n].stack[..d + 1][d];
      if |s| == d + 1 {
        assert s'[..d + 1] == s[..d] + [s[d]];
        assert s[..d + 1] == s[..d] + [s[d]];
      } else {
        assert s'[..d + 1] == s'[..|s| - 1][..d + 1] == s[..|s| - 1][..d + 1] == s[..d + 1];
      }
    }
  }

  /** Leaving a resolution loop restores the enclosing activities, the nesting depth and the
      sequence-associated storage as they were when it was entered, whatever ran in between; the
      outermost loop leaves an empty queue. */
  lemma LoopRestores(ms: seq<Machine>, n: nat, k: nat, d: nat)
    requires IsRun(ms) && n < k < |ms| && d < |ms[n].stack| && ms[n].stack[d].Loop?
    requires forall i :: n <= i < k ==> |ms[i].stack| > d
    requires |ms[k].stack| <= d
    ensures ms[k].stack == ms[n].stack[..d]
    ensures ms[k].storage == ms[n].stack[d].snapshot
    ensures ms[k].depth == Loops(ms[n].stack[..d])
    ensures ms[k].depth == 0 ==> ms[k].queue == [] && ms[k].drained == ms[k].pushed
  {
    hide Enabled, Apply, OwedOk, CbsOk, JoinsOk, ListsOk, FramesOk, RanOk;
    LoopIsKept(ms, n, k - 1, d);
    RunInv(ms, k);
    assert Next(ms[k - 1], ms[k]);
    var a :| Enabled(ms[k - 1], a) && ms[k] == Apply(ms[k - 1], a);
    EnabledInv(ms, k - 1, a);
    ApplyStack(ms[k - 1], a);
    var s := ms[k - 1].stack;
    assert s[..d + 1][d] == ms[n].stack[..d + 1][d];
    assert |s| == d + 1;
    assert s[..d] == s[..d + 1][..d] == ms[n].stack[..d + 1][..d] == ms[n].stack[..d];
    assert ms[k].stack == s[..d];
  }

  /** From `m` to `m'` a loop is entered at place `d` of the stack. */
  ghost predicate EntersLoop(m: Machine, m': Machine, d: nat) {
    d < |m'.stack| && m'.stack[d].Loop? && (d < |m.stack| ==> !m.stack[d].Loop?)
  }

  /** A loop is entered by saving the storage and adding one to the depth, and then runs the callbacks of a promise. */
  ghost predicate EntersWell(m: Machine, m': Machine) {
    forall d: nat :: EntersLoop(m, m', d) ==>
      |m'.stack| == d + 2 && m'.stack[d] == Loop(m.storage) && m'.stack[d + 1].Run? && m'.depth == m.depth + 1
  }

  /** `m1` is `m` with at most the innermost activity ended or replaced. */
  ghost predicate Based(m: Machine, m1: Machine) {
    && m1.storage == m.storage && m1.depth == m.depth && |m1.stack| <= |m.stack|
    && forall i :: 0 <= i < |m1.stack| && m1.stack[i].Loop? ==> m.stack[i].Loop?
  }

  lemma EntersFromBase(m: Machine, m1: Machine, m': Machine)
    requires Based(m, m1) && EntersWell(m1, m')
    ensures EntersWell(m, m')
  {
    forall d: nat | EntersLoop(m, m', d) ensures EntersLoop(m1, m', d) {
    }
  }

  lemma EntersNone(m: Machine, m': Machine)
    requires forall i :: 0 <= i < |m'.stack| && m'.stack[i].Loop? ==> i < |m.stack| && m.stack[i].Loop?
    ensures EntersWell(m, m')
  {
  }

  lemma RunOrDeferEnters(m: Machine, p: Pid, r: Result, d: Deferring)
    ensures EntersWell(m, RunOrDefer(m, p, r, d))
  {
  }

  lemma ResolveEnters(m: Machine, p: Pid, r: Result, d: Deferring)
    ensures EntersWell(m, Resolve(m, p, r, d))
  {
    hide RunOrDefer, EntersWell;
    if p in m.heap && m.heap[p].state.Pending? {
      var m1 := m.(heap := SetState(m.heap, p, Resolved(r)));
      RunOrDeferEnters(m1, p, r, d);
      EntersFromBase(m, m1, RunOrDefer(m1, p, r, d));
    } else {
      EntersNone(m, Resolve(m, p, r, d));
    }
  }

  lemma ResolveOuterEnters(m: Machine, m1: Machine, t: Cid, outer: Pid, r: Result)
    requires Forest(m1.heap) && Based(m, m1)
    ensures EntersWell(m, ResolveOuter(m1, t, outer, r))
  {
    hide Ranked, Resolve, EntersWell;
    var m' := ResolveOuter(m1, t, outer, r);
    if outer in m1.heap {
      ResolveEnters(Discharge(m1, t), Root(m1.heap, outer), r, Never);
      EntersFromBase(m, Discharge(m1, t), m');
    } else {
      EntersNone(m, m');
    }
  }

  lemma DispatchEnters(m: Machine, m0: Machine, c: Cid, r: Result, computed: Result)
    requires Forest(m0.heap) && c in m0.cbs && Based(m, m0)
    ensures EntersWell(m, Dispatch(m0, c, r, computed))
  {
    hide Ranked, Forest, ResolveOuter, EntersWell;
    var m1 := m0.(live := m0.live - {c}, ran := m0.ran + [c]);
    var k := m0.cbs[c].kind;
    var m' := Dispatch(m0, c, r, computed);
    if HasOuter(k) {
      ResolveOuterEnters(m, m1, c, k.outer, r);
      ResolveOuterEnters(m, m1, c, k.outer, computed);
    } else if k.JoinMember? && k.join in m0.joins {
      var join := JoinUpdate(m0.joins[k.join], r);
      ResolveOuterEnters(m, m1.(joins := m0.joins[k.join := join]), k.join, join.outer, join.result);
    }
    if m'.stack == m0.stack || (|m'.stack| == |m0.stack| + 1 && m'.stack[..|m0.stack|] == m0.stack &&
                                !m'.stack[|m0.stack|].Loop?) {
      PushedNone(m, m0, m');
    }
  }

  lemma PushedNone(m: Machine, m0: Machine, m': Machine)
    requires Based(m, m0)
    requires m'.stack == m0.stack || (|m'.stack| == |m0.stack| + 1 && m'.stack[..|m0.stack|] == m0.stack &&
                                      !m'.stack[|m0.stack|].Loop?)
    ensures EntersWell(m, m')
  {
    forall i | 0 <= i < |m'.stack| && m'.stack[i].Loop? ensures i < |m.stack| && m.stack[i].Loop? {
      if m'.stack != m0.stack && i < |m0.stack| {
        assert m'.stack[..|m0.stack|][i] == m0.stack[i];
      }
    }
    EntersNone(m, m');
  }

  lemma RunStepEnters(m: Machine, rid: Pid, r: Result, computed: Result)
    requires Forest(m.heap) && m.stack != []
    ensures EntersWell(m, RunStep(m, rid, r, computed))
  {
    hide Dispatch, Ranked, EntersWell;
    var m' := RunStep(m, rid, r, computed);
    if rid in m.heap && m.heap[rid].regular != [] {
      var p := m.heap[rid];
      var c := p.regular[0];
      var m1 := m.(heap := m.heap[rid := p.(regular := p.regular[1..])]);
      SameLinksForest(m.heap, m1.heap);
      if c in m.cbs {
        DispatchEnters(m, m1, c, r, computed);
      }
    }
    if m'.stack == m.stack || m'.stack == m.stack[..|m.stack| - 1] || m'.stack == m.stack + [User] {
      EntersNone(m, m');
    }
  }

  lemma PickStepEnters(m: Machine, c: Cid, rest: seq<Pid>, r: Result, t: Target, order: seq<Pid>)
    requires Forest(m.heap) && m.stack != [] && m.stack[|m.stack| - 1] == PickCancel(c, rest, r, t)
    ensures EntersWell(m, PickStep(m, c, rest, r, t, order))
  {
    hide Ranked, EntersWell, Resolve, ResolveOuter;
    var m' := PickStep(m, c, rest, r, t, order);
    if rest != [] {
      EntersNone(m, m');
    } else if t.Captured? {
      ResolveEnters(Discharge(Pop(m), c), t.p, r, Never);
      EntersFromBase(m, Discharge(Pop(m), c), m');
    } else if c in m.cbs && HasOuter(m.cbs[c].kind) {
      ResolveOuterEnters(m, Pop(m), c, m.cbs[c].kind.outer, r);
    } else {
      EntersNone(m, m');
    }
  }

  lemma CancelRunStepEnters(m: Machine, rids: seq<Pid>)
    requires m.stack != [] && m.stack[|m.stack| - 1] == CancelRun(rids)
    ensures EntersWell(m, CancelRunStep(m, rids))
  {
    hide EntersWell, RunOrDefer;
    if rids == [] {
      EntersNone(m, CancelRunStep(m, rids));
    } else {
      var m1 := Push(Pop(m), CancelRun(rids[1..]));
      RunOrDeferEnters(m1, rids[0], Rejected(Canceled), Never);
      EntersFromBase(m, m1, CancelRunStep(m, rids));
    }
  }

  lemma EngineEnters(m: Machine, computed: Result, order: seq<Pid>)
    requires Forest(m.heap) && !UserTurn(m)
    ensures EntersWell(m, DoEngine(m, computed, order))
  {
    hide RunStep, CancelRunStep, PickStep, Ranked, EntersWell;
    match m.stack[|m.stack| - 1]
    case Loop(snapshot) => EntersNone(m, LoopStep(m, snapshot));
    case Run(rid, r) => RunStepEnters(m, rid, r, computed);
    case CancelRun(rids) => CancelRunStepEnters(m, rids);
    case PickCancel(c, rest, r, t) => PickStepEnters(m, c, rest, r, t, order);
  }

  lemma ReturnEnters(m: Machine, a: Action)
    requires Enabled(m, a) && (a.ReturnPromise? || a.ReturnValue?)
    ensures EntersWell(m, Apply(m, a))
  {
    hide Ranked, EntersWell, Resolve, ResolveOuter;
    var c, m' := m.stack[|m.stack| - 1].cb, Apply(m, a);
    if c in m.cbs && HasOuter(m.cbs[c].kind) {
      var outer := m.cbs[c].kind.outer;
      if a.ReturnValue? {
        ResolveOuterEnters(m, Pop(m), c, outer, a.r);
      } else if outer in m.heap && m.heap[Root(m.heap, a.u)].state.Resolved? {
        ResolveEnters(Discharge(Pop(m), c), Root(m.heap, outer), m.heap[Root(m.heap, a.u)].state.result, Never);
        if m' == Resolve(Discharge(Pop(m), c), Root(m.heap, outer), m.heap[Root(m.heap, a.u)].state.result, Never) {
          EntersFromBase(m, Discharge(Pop(m), c), m');
        }
      }
    }
    if m'.stack == m.stack[..|m.stack| - 1] || m'.stack == m.stack {
      EntersNone(m, m');
    }
  }

  /** Every action enters loops well. */
  lemma ApplyEnters(m: Machine, a: Action)
    requires Enabled(m, a)
    ensures EntersWell(m, Apply(m, a))
  {
    hide Ranked, EntersWell, Resolve, DoEngine;
    if a.ReturnPromise? || a.ReturnValue? {
      ReturnEnters(m, a);
    } else if a.Engine? {
      EngineEnters(m, a.computed, a.order);
    } else if a.Wakeup? && !Observed(m.heap, a.p).Resolved? {
      ResolveEnters(m, Root(m.heap, a.p), a.r, if a.later then FromDepth(1) else Never);
    } else {
      EntersNone(m, Apply(m, a));
    }
  }

  lemma LoopsOfEntered(s: seq<Frame>, d: nat)
    requires |s| == d + 2 && s[d].Loop? && s[d + 1].Run?
    ensures Loops(s) == Loops(s[..d]) + 1
  {
    assert s[..d + 1][..d] == s[..d];
  }

  /** Whatever runs between entering a resolution loop and leaving it, and however often user code calls back into
      the engine, storage and depth are afterwards what they were before the action that entered it. */
  lemma LoopRoundTrip(ms: seq<Machine>, n: nat, k: nat, d: nat)
    requires IsRun(ms) && n + 1 < k < |ms| && EntersLoop(ms[n], ms[n + 1], d)
    requires forall i :: n < i < k ==> |ms[i].stack| > d
    requires |ms[k].stack| <= d
    ensures ms[k].storage == ms[n].storage && ms[k].depth == ms[n].depth
    ensures ms[k].stack == ms[n + 1].stack[..d]
  {
    hide Inv, Enabled, Apply;
    assert Next(ms[n], ms[n + 1]);
    var a :| Enabled(ms[n], a) && ms[n + 1] == Apply(ms[n], a);
    ApplyEnters(ms[n], a);
    LoopRestores(ms, n + 1, k, d);
    DepthCounts(ms, n + 1);
    LoopsOfEntered(ms[n + 1].stack, d);
  }

  lemma DepthCounts(ms: seq<Machine>, n: nat)
    requires IsRun(ms) && n < |ms|
    ensures ms[n].depth == Loops(ms[n].stack)
  {
    hide Enabled, Apply, OwedOk, CbsOk, JoinsOk, ListsOk, FramesOk, RanOk;
    RunInv(ms, n);
  }

  // ------------------------------------------------------------------------------------------
  // Callbacks and deferred records
  // ------------------------------------------------------------------------------------------

  /** In every run no callback runs twice, however many promises it was added to. */
  lemma CallbacksRunOnce(ms: seq<Machine>, n: nat, i: nat, k: nat)
    requires IsRun(ms) && n < |ms| && i < k < |ms[n].ran|
    ensures ms[n].ran[i] != ms[n].ran[k]
  {
    RunInv(ms, n);
  }

  /** In every run the deferred records are run in the order they were deferred, none is deferred
      twice, and outside the resolution loop all of them have been run. */
  lemma DeferredRunInOrder(ms: seq<Machine>, n: nat)
    requires IsRun(ms) && n < |ms|
    ensures ms[n].pushed == ms[n].drained + ms[n].queue
    ensures forall i, k :: 0 <= i < k < |ms[n].pushed| ==> ms[n].pushed[i].0 != ms[n].pushed[k].0
    ensures ms[n].depth == Loops(ms[n].stack) >= 0
    ensures ms[n].depth == 0 ==> ms[n].drained == ms[n].pushed
  {
    RunInv(ms, n);
    LoopsNonNegative(ms[n].stack);
  }
}
