/** The promises that callbacks of npick capture before they cancel their inputs. */
module PromiseCaptured {
  import opened PromiseHeap
  import opened PromiseEngine
  import opened PromiseExtends

  /** Callback and captured promise of a frame. */
  function CapturedIn(f: Frame): set<(Cid, Pid)> {
    if f.PickCancel? && f.target.Captured? then {(f.cb, f.target.p)} else {}
  }

  ghost function CapturedOf(s: seq<Frame>): set<(Cid, Pid)> {
    if s == [] then {} else CapturedOf(s[..|s| - 1]) + CapturedIn(s[|s| - 1])
  }

  /** What npick captures if its callback starts now. */
  ghost function Standing(m: Machine): set<(Cid, Pid)>
    requires Forest(m.heap)
  {
    set c | c in m.cbs && m.cbs[c].kind.NPick? && m.cbs[c].kind.outer in m.heap ::
      (c, Root(m.heap, m.cbs[c].kind.outer))
  }

  /** A captured promise and the outer promise stand for the same promise. */
  ghost predicate CapturedOk(m: Machine) {
    && Forest(m.heap)
    && forall x :: x in CapturedOf(m.stack) ==>
         && x.0 in m.cbs && m.cbs[x.0].kind.NPick? && m.cbs[x.0].kind.outer in m.heap && x.1 in m.heap
         && Root(m.heap, x.1) == Root(m.heap, m.cbs[x.0].kind.outer)
  }

  lemma InitialCaptured()
    ensures CapturedOk(INITIAL)
  {
    assert Ranked(map[], map[]);
  }

  lemma CapturedPush(s: seq<Frame>, f: Frame)
    ensures CapturedOf(s + [f]) == CapturedOf(s) + CapturedIn(f)
  {
    assert (s + [f])[..|s|] == s;
  }

  lemma CapturedTop(s: seq<Frame>)
    requires s != []
    ensures CapturedIn(s[|s| - 1]) <= CapturedOf(s) && CapturedOf(s[..|s| - 1]) <= CapturedOf(s)
  {
  }

  lemma ResolveCaptured(m: Machine, p: Pid, r: Result, d: Deferring)
    ensures CapturedOf(Resolve(m, p, r, d).stack) == CapturedOf(m.stack)
  {
    EnteredCaptured(m.stack, Loop(m.storage), Run(p, r));
    hide CapturedOf;
  }

  lemma EnteredCaptured(s: seq<Frame>, loop: Frame, run: Frame)
    requires loop.Loop? && run.Run?
    ensures CapturedOf(s + [loop, run]) == CapturedOf(s)
  {
    CapturedPush(s, loop);
    CapturedPush(s + [loop], run);
    assert s + [loop, run] == s + [loop] + [run];
  }

  lemma ResolveOuterCaptured(m: Machine, t: Cid, outer: Pid, r: Result)
    requires Forest(m.heap)
    ensures CapturedOf(ResolveOuter(m, t, outer, r).stack) == CapturedOf(m.stack)
  {
    hide CapturedOf, Ranked, Resolve;
    if outer in m.heap {
      ResolveCaptured(Discharge(m, t), Root(m.heap, outer), r, Never);
    }
  }

  lemma DispatchCaptured(m: Machine, c: Cid, r: Result, computed: Result)
    requires Forest(m.heap) && c in m.cbs
    ensures CapturedOf(Dispatch(m, c, r, computed).stack) <= CapturedOf(m.stack) + Standing(m)
  {
    hide CapturedOf, Ranked, Forest, Root, ResolveOuter;
    var m1 := m.(live := m.live - {c}, ran := m.ran + [c]);
    var k := m.cbs[c].kind;
    if k.NPick? && k.outer in m.heap {
      CapturedPush(m.stack, PickCancel(c, k.ps, computed, Captured(Root(m.heap, k.outer))));
      assert (c, Root(m.heap, k.outer)) in Standing(m);
    } else if k.JoinMember? && k.join in m.joins {
      hide Standing;
      var join := JoinUpdate(m.joins[k.join], r);
      ResolveOuterCaptured(m1.(joins := m.joins[k.join := join]), k.join, join.outer, join.result);
    } else {
      hide Standing;
      CapturedPush(m.stack, User);
      if HasOuter(k) {
        CapturedPush(m.stack, UserBind(c));
        CapturedPush(m.stack, UserMap(c));
        ResolveOuterCaptured(m1, c, k.outer, if k.NChoose? then computed else r);
        if k.Pick? {
          CapturedPush(m.stack, PickCancel(c, k.ps, r, AtEnd));
        }
      }
    }
  }

  lemma SameStanding(m: Machine, m1: Machine)
    requires Forest(m.heap) && Forest(m1.heap) && m1.cbs == m.cbs && m1.heap.Keys == m.heap.Keys
    requires forall x :: x in m.heap ==> Root(m1.heap, x) == Root(m.heap, x)
    ensures Standing(m1) == Standing(m)
  {
    hide Ranked, Forest, Root;
  }

  lemma RunStepCaptured(m: Machine, rid: Pid, r: Result, computed: Result)
    requires Forest(m.heap) && m.stack != []
    ensures CapturedOf(RunStep(m, rid, r, computed).stack) <= CapturedOf(m.stack) + Standing(m)
  {
    hide CapturedOf, Ranked, Dispatch, Standing;
    CapturedTop(m.stack);
    CapturedPush(m.stack, User);
    if rid in m.heap && m.heap[rid].regular != [] {
      var p := m.heap[rid];
      var c := p.regular[0];
      var m1 := m.(heap := m.heap[rid := p.(regular := p.regular[1..])]);
      SameLinksRoots(m.heap, m1.heap);
      if c in m.cbs {
        DispatchCaptured(m1, c, r, computed);
        SameStanding(m, m1);
      }
    }
  }

  lemma PickStepCaptured(m: Machine, c: Cid, rest: seq<Pid>, r: Result, t: Target, order: seq<Pid>)
    requires Forest(m.heap) && m.stack != [] && m.stack[|m.stack| - 1] == PickCancel(c, rest, r, t)
    ensures CapturedOf(PickStep(m, c, rest, r, t, order).stack) <= CapturedOf(m.stack)
  {
    hide CapturedOf, Ranked, Resolve, ResolveOuter;
    CapturedTop(m.stack);
    if rest != [] {
      CapturedPush(Pop(m).stack, PickCancel(c, rest[1..], r, t));
      CapturedPush(Push(Pop(m), PickCancel(c, rest[1..], r, t)).stack, CancelRun(order));
    } else if t.Captured? {
      ResolveCaptured(Discharge(Pop(m), c), t.p, r, Never);
    } else if c in m.cbs && HasOuter(m.cbs[c].kind) {
      ResolveOuterCaptured(Pop(m), c, m.cbs[c].kind.outer, r);
    }
  }

  lemma EngineCaptured(m: Machine, computed: Result, order: seq<Pid>)
    requires Forest(m.heap) && !UserTurn(m)
    ensures CapturedOf(DoEngine(m, computed, order).stack) <= CapturedOf(m.stack) + Standing(m)
  {
    hide CapturedOf, Ranked, RunStep, PickStep, Standing;
    CapturedTop(m.stack);
    match m.stack[|m.stack| - 1]
    case Loop(snapshot) =>
      if m.queue != [] {
        CapturedPush(m.stack, Run(m.queue[0].0, m.queue[0].1));
      }
    case Run(rid, r) => RunStepCaptured(m, rid, r, computed);
    case CancelRun(rids) =>
      if rids != [] {
        CapturedPush(Pop(m).stack, CancelRun(rids[1..]));
        EnteredCaptured(Push(Pop(m), CancelRun(rids[1..])).stack, Loop(m.storage), Run(rids[0], Rejected(Canceled)));
      }
    case PickCancel(c, rest, r, t) => PickStepCaptured(m, c, rest, r, t, order);
  }

  lemma ReturnCaptured(m: Machine, a: Action)
    requires Enabled(m, a) && (a.ReturnPromise? || a.ReturnValue?)
    ensures CapturedOf(Apply(m, a).stack) <= CapturedOf(m.stack)
  {
    hide CapturedOf, Ranked, Resolve, ResolveOuter;
    CapturedTop(m.stack);
    var c := m.stack[|m.stack| - 1].cb;
    if c in m.cbs && HasOuter(m.cbs[c].kind) {
      var outer := m.cbs[c].kind.outer;
      if a.ReturnValue? {
        ResolveOuterCaptured(Pop(m), c, outer, a.r);
      } else if outer in m.heap {
        var q := Root(m.heap, a.u);
        if m.heap[q].state.Resolved? {
          ResolveCaptured(Discharge(Pop(m), c), Root(m.heap, outer), m.heap[q].state.result, Never);
        }
      }
    }
  }

  lemma StackCaptured(m: Machine, a: Action)
    requires Enabled(m, a)
    ensures CapturedOf(Apply(m, a).stack) <= CapturedOf(m.stack) + Standing(m)
  {
    hide CapturedOf, Ranked, Standing, Resolve, DoEngine;
    if a.ReturnPromise? || a.ReturnValue? {
      ReturnCaptured(m, a);
    } else if a.Wakeup? {
      ResolveCaptured(m, Root(m.heap, a.p), a.r, if a.later then FromDepth(1) else Never);
    } else if a.CancelPromise? {
      CapturedPush(m.stack, CancelRun(a.order));
    } else if a.ReturnUser? {
      CapturedTop(m.stack);
    } else if a.Engine? {
      EngineCaptured(m, a.computed, a.order);
    }
  }

  /** A registered callback stays what it is. */
  lemma CallbacksStay(m: Machine, a: Action)
    requires Enabled(m, a)
    ensures forall c :: c in m.cbs ==> c in Apply(m, a).cbs && Apply(m, a).cbs[c] == m.cbs[c]
  {
    hide Ranked, Forest, PendingRoots, Roots, AddAll, DoEngine, MakeIntoProxy, Resolve, ResolveOuter;
    if a.Engine? {
      EngineCallbacks(m, a.computed, a.order);
    } else if a.ReturnPromise? || a.ReturnValue? {
      ReturnCallbacks(m, a);
    } else if a.Wakeup? {
      ResolveCallbacks(m, Root(m.heap, a.p), a.r, if a.later then FromDepth(1) else Never);
    }
  }

  lemma ResolveCallbacks(m: Machine, p: Pid, r: Result, d: Deferring)
    ensures Resolve(m, p, r, d).cbs == m.cbs
  {
  }

  lemma ResolveOuterCallbacks(m: Machine, t: Cid, outer: Pid, r: Result)
    requires Forest(m.heap)
    ensures ResolveOuter(m, t, outer, r).cbs == m.cbs
  {
    hide Ranked;
  }

  lemma ReturnCallbacks(m: Machine, a: Action)
    requires Enabled(m, a) && (a.ReturnPromise? || a.ReturnValue?)
    ensures Apply(m, a).cbs == m.cbs
  {
    hide Ranked, Resolve, ResolveOuter;
    var c := m.stack[|m.stack| - 1].cb;
    if c in m.cbs && HasOuter(m.cbs[c].kind) {
      var outer := m.cbs[c].kind.outer;
      if a.ReturnValue? {
        ResolveOuterCallbacks(Pop(m), c, outer, a.r);
      } else if outer in m.heap {
        var q := Root(m.heap, a.u);
        if m.heap[q].state.Resolved? {
          ResolveCallbacks(Discharge(Pop(m), c), Root(m.heap, outer), m.heap[q].state.result, Never);
        }
      }
    }
  }

  lemma DispatchCallbacks(m: Machine, c: Cid, r: Result, computed: Result)
    requires Forest(m.heap) && c in m.cbs
    ensures Dispatch(m, c, r, computed).cbs == m.cbs
  {
    hide Ranked, Forest, ResolveOuter;
    var m1 := m.(live := m.live - {c}, ran := m.ran + [c]);
    var k := m.cbs[c].kind;
    if HasOuter(k) {
      ResolveOuterCallbacks(m1, c, k.outer, r);
      ResolveOuterCallbacks(m1, c, k.outer, computed);
    } else if k.JoinMember? && k.join in m.joins {
      var join := JoinUpdate(m.joins[k.join], r);
      ResolveOuterCallbacks(m1.(joins := m.joins[k.join := join]), k.join, join.outer, join.result);
    }
  }

  lemma RunStepCallbacks(m: Machine, rid: Pid, r: Result, computed: Result)
    requires Forest(m.heap) && m.stack != []
    ensures RunStep(m, rid, r, computed).cbs == m.cbs
  {
    hide Ranked, Dispatch;
    if rid in m.heap && m.heap[rid].regular != [] {
      var p := m.heap[rid];
      var m1 := m.(heap := m.heap[rid := p.(regular := p.regular[1..])]);
      SameLinksForest(m.heap, m1.heap);
      if p.regular[0] in m.cbs {
        DispatchCallbacks(m1, p.regular[0], r, computed);
      }
    }
  }

  lemma PickStepCallbacks(m: Machine, c: Cid, rest: seq<Pid>, r: Result, t: Target, order: seq<Pid>)
    requires Forest(m.heap) && m.stack != []
    ensures PickStep(m, c, rest, r, t, order).cbs == m.cbs
  {
    hide Ranked, Forest, Resolve, ResolveOuter;
    if rest == [] && t.Captured? {
      ResolveCallbacks(Discharge(Pop(m), c), t.p, r, Never);
    } else if rest == [] && c in m.cbs && HasOuter(m.cbs[c].kind) {
      ResolveOuterCallbacks(Pop(m), c, m.cbs[c].kind.outer, r);
    }
  }

  lemma EngineCallbacks(m: Machine, computed: Result, order: seq<Pid>)
    requires Forest(m.heap) && !UserTurn(m)
    ensures DoEngine(m, computed, order).cbs == m.cbs
  {
    hide Ranked, Forest, RunStep, PickStep;
    match m.stack[|m.stack| - 1]
    case Loop(snapshot) =>
    case Run(rid, r) => RunStepCallbacks(m, rid, r, computed);
    case CancelRun(rids) =>
    case PickCancel(c, rest, r, t) => PickStepCallbacks(m, c, rest, r, t, order);
  }

  lemma ApplyKeepsCaptured(m: Machine, a: Action)
    requires Enabled(m, a) && CapturedOk(m)
    ensures CapturedOk(Apply(m, a))
  {
    StackCaptured(m, a);
    CallbacksStay(m, a);
    ApplyExtends(m, a);
    hide CapturedOf, Ranked, Forest, Enabled, Apply, Root;
    var m' := Apply(m, a);
    forall x | x in CapturedOf(m'.stack)
      ensures
        && x.0 in m'.cbs && m'.cbs[x.0].kind.NPick? && m'.cbs[x.0].kind.outer in m'.heap && x.1 in m'.heap
        && Root(m'.heap, x.1) == Root(m'.heap, m'.cbs[x.0].kind.outer)
    {
      if x in Standing(m) {
        RootOfRoot(m.heap, m.cbs[x.0].kind.outer);
      }
    }
  }

  lemma RootOfRoot(h: Heap, p: Pid)
    requires Forest(h) && p in h
    ensures Root(h, p) in h && Root(h, Root(h, p)) == Root(h, p)
  {
  }
}
