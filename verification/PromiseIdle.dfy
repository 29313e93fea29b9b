/** Nothing is forgotten: what has been registered with a promise that is resolved is run before the engine is idle. */
module PromiseIdle {
  import opened PromiseHeap
  import opened PromiseEngine
  import opened PromiseSafety
  import opened PromiseExtends
  import opened PromiseRuns
  import opened PromiseLoops

  /** A promise that is not pending any more still lists callbacks that are to run. */
  predicate Unfinished(p: Promise) {
    || (!p.state.Pending? && p.regular != [])
    || (p.state == Resolved(Rejected(Canceled)) && p.cancel != [])
  }

  /** The promises whose callbacks a frame is running or will run. */
  function HeldIn(f: Frame): set<Pid> {
    match f
    case Run(rid, _) => {rid}
    case CancelRun(rids) => set r | r in rids
    case _ => {}
  }

  ghost function HeldOf(s: seq<Frame>): set<Pid> {
    if s == [] then {} else HeldOf(s[..|s| - 1]) + HeldIn(s[|s| - 1])
  }

  ghost function Named(records: seq<(Pid, Result)>): set<Pid> {
    set i | 0 <= i < |records| :: records[i].0
  }

  ghost function Held(m: Machine): set<Pid> {
    HeldOf(m.stack) + Named(m.queue)
  }

  /** The callbacks of `p` are to run, and nobody will run them. */
  ghost predicate Lost(m: Machine, p: Pid) {
    p in m.heap && Unfinished(m.heap[p]) && p !in Held(m)
  }

  ghost predicate NoneLost(m: Machine, m': Machine) {
    forall p :: Lost(m', p) ==> Lost(m, p)
  }

  /** Callbacks are run inside resolution loops. */
  ghost predicate RunsInLoops(s: seq<Frame>) {
    forall i :: 0 <= i < |s| && s[i].Run? ==> exists k :: 0 <= k < i && s[k].Loop?
  }

  /** Deferred records belong to resolved promises, and not to those that a cancellation goes through. */
  ghost predicate Deferred(s: seq<Frame>, h: Heap, pushed: seq<(Pid, Result)>) {
    && (forall p :: p in Named(pushed) ==> p in h && h[p].state.Resolved?)
    && (forall i, p :: 0 <= i < |s| && s[i].CancelRun? && p in s[i].rids ==>
          p in h && h[p].state.Resolved? && p !in Named(pushed))
  }

  ghost predicate Keeps(m: Machine, m': Machine) {
    && NoneLost(m, m')
    && (RunsInLoops(m.stack) ==> RunsInLoops(m'.stack))
    && (Deferred(m.stack, m.heap, m.pushed) ==> Deferred(m'.stack, m'.heap, m'.pushed))
  }

  lemma KeepsTransitive(m0: Machine, m1: Machine, m2: Machine)
    requires Keeps(m0, m1) && Keeps(m1, m2)
    ensures Keeps(m0, m2)
  {
    hide Lost, RunsInLoops, Deferred;
  }

  // ------------------------------------------------------------------------------------------
  // The stack and the queue
  // ------------------------------------------------------------------------------------------

  lemma HeldPush(s: seq<Frame>, f: Frame)
    ensures HeldOf(s + [f]) == HeldOf(s) + HeldIn(f)
  {
    assert (s + [f])[..|s|] == s;
  }

  lemma HeldTop(s: seq<Frame>)
    requires s != []
    ensures HeldOf(s) == HeldOf(s[..|s| - 1]) + HeldIn(s[|s| - 1])
  {
  }

  lemma PushRuns(s: seq<Frame>, f: Frame)
    requires RunsInLoops(s) && (f.Run? ==> exists k :: 0 <= k < |s| && s[k].Loop?)
    ensures RunsInLoops(s + [f])
  {
    forall i | 0 <= i < |s + [f]| && (s + [f])[i].Run? ensures exists k :: 0 <= k < i && (s + [f])[k].Loop? {
      if i < |s| {
        var k :| 0 <= k < i && s[k].Loop?;
        assert (s + [f])[k].Loop?;
      } else {
        var k :| 0 <= k < |s| && s[k].Loop?;
        assert (s + [f])[k].Loop?;
      }
    }
  }

  lemma PopRuns(s: seq<Frame>)
    requires RunsInLoops(s) && s != []
    ensures RunsInLoops(s[..|s| - 1])
  {
    var t := s[..|s| - 1];
    forall i | 0 <= i < |t| && t[i].Run? ensures exists k :: 0 <= k < i && t[k].Loop? {
      assert s[i].Run?;
      var k :| 0 <= k < i && s[k].Loop?;
      assert t[k].Loop?;
    }
  }

  lemma DeferredPush(s: seq<Frame>, f: Frame, h: Heap, pushed: seq<(Pid, Result)>)
    requires Deferred(s, h, pushed)
    requires f.CancelRun? ==> forall p :: p in f.rids ==> p in h && h[p].state.Resolved? && p !in Named(pushed)
    ensures Deferred(s + [f], h, pushed)
  {
    hide Named;
  }

  lemma DeferredPop(s: seq<Frame>, h: Heap, pushed: seq<(Pid, Result)>)
    requires Deferred(s, h, pushed) && s != []
    ensures Deferred(s[..|s| - 1], h, pushed)
  {
    hide Named;
  }

  /** Nothing changes that matters here. */
  lemma SameKeeps(m: Machine, m': Machine)
    requires m'.heap == m.heap && m'.stack == m.stack && m'.queue == m.queue && m'.pushed == m.pushed
    ensures Keeps(m, m')
  {
  }

  lemma PushKeeps(m: Machine, f: Frame)
    requires !f.Run? && !f.CancelRun?
    ensures Keeps(m, Push(m, f))
  {
    hide HeldOf, RunsInLoops, Unfinished, Named, Deferred;
    HeldPush(m.stack, f);
    if RunsInLoops(m.stack) {
      PushRuns(m.stack, f);
    }
    if Deferred(m.stack, m.heap, m.pushed) {
      DeferredPush(m.stack, f, m.heap, m.pushed);
    }
  }

  /** An activity ends that has run all it held. */
  lemma PopKeeps(m: Machine)
    requires m.stack != []
    requires forall p :: p in HeldIn(m.stack[|m.stack| - 1]) && p in m.heap ==> !Unfinished(m.heap[p])
    ensures Keeps(m, Pop(m))
  {
    hide HeldOf, RunsInLoops, Unfinished, Named, Deferred;
    HeldTop(m.stack);
    if RunsInLoops(m.stack) {
      PopRuns(m.stack);
    }
    if Deferred(m.stack, m.heap, m.pushed) {
      DeferredPop(m.stack, m.heap, m.pushed);
    }
  }

  /** The heap changes, but no promise comes to have unfinished callbacks, and what was resolved stays so. */
  lemma HeapKeeps(m: Machine, h: Heap)
    requires forall p :: p in h && Unfinished(h[p]) ==> p in m.heap && Unfinished(m.heap[p])
    requires forall p :: p in m.heap && m.heap[p].state.Resolved? ==> p in h && h[p].state.Resolved?
    ensures Keeps(m, m.(heap := h))
  {
    hide HeldOf, RunsInLoops, Unfinished;
  }

  lemma NamedPush(records: seq<(Pid, Result)>, p: Pid, r: Result)
    ensures Named(records + [(p, r)]) == Named(records) + {p}
  {
    var more := records + [(p, r)];
    assert more[|records|] == (p, r);
    forall x | x in Named(records) ensures x in Named(more) {
      var i :| 0 <= i < |records| && records[i].0 == x;
      assert more[i].0 == x;
    }
  }

  lemma NamedPop(records: seq<(Pid, Result)>)
    requires records != []
    ensures Named(records) == {records[0].0} + Named(records[1..])
  {
    forall x | x in Named(records) ensures x == records[0].0 || x in Named(records[1..]) {
      var i :| 0 <= i < |records| && records[i].0 == x;
      assert i > 0 ==> records[1..][i - 1].0 == x;
    }
    forall x | x in Named(records[1..]) ensures x in Named(records) {
      var i :| 0 <= i < |records[1..]| && records[1..][i].0 == x;
      assert records[i + 1].0 == x;
    }
    assert records[0].0 in Named(records);
  }

  lemma EnterKeeps(m: Machine, p: Pid, r: Result)
    ensures
      var s := m.stack + [Loop(m.storage), Run(p, r)];
      && HeldOf(s) == HeldOf(m.stack) + {p}
      && (RunsInLoops(m.stack) ==> RunsInLoops(s))
  {
    var s1 := m.stack + [Loop(m.storage)];
    assert m.stack + [Loop(m.storage), Run(p, r)] == s1 + [Run(p, r)];
    HeldPush(m.stack, Loop(m.storage));
    HeldPush(s1, Run(p, r));
    if RunsInLoops(m.stack) {
      PushRuns(m.stack, Loop(m.storage));
      assert s1[|m.stack|].Loop?;
      PushRuns(s1, Run(p, r));
    }
  }

  lemma ResolveKeeps(m: Machine, p: Pid, r: Result, d: Deferring)
    ensures Keeps(m, Resolve(m, p, r, d))
  {
    hide HeldOf, RunsInLoops, Named;
    EnterKeeps(m, p, r);
    NamedPush(m.queue, p, r);
    NamedPush(m.pushed, p, r);
  }

  lemma ResolveOuterKeeps(m: Machine, t: Cid, outer: Pid, r: Result)
    requires Forest(m.heap)
    ensures Keeps(m, ResolveOuter(m, t, outer, r))
  {
    hide Keeps, Ranked, Resolve;
    if outer in m.heap {
      SameKeeps(m, Discharge(m, t));
      ResolveKeeps(Discharge(m, t), Root(m.heap, outer), r, Never);
      KeepsTransitive(m, Discharge(m, t), ResolveOuter(m, t, outer, r));
    } else {
      SameKeeps(m, ResolveOuter(m, t, outer, r));
    }
  }

  lemma DispatchKeeps(m: Machine, c: Cid, r: Result, computed: Result)
    requires Forest(m.heap) && c in m.cbs
    ensures Keeps(m, Dispatch(m, c, r, computed))
  {
    hide Keeps, Ranked, Forest, Root, ResolveOuter;
    var m1 := m.(live := m.live - {c}, ran := m.ran + [c]);
    var inUser := m1.(storage := m.cbs[c].storage);
    var k := m.cbs[c].kind;
    var m' := Dispatch(m, c, r, computed);
    SameKeeps(m, m1);
    SameKeeps(m, inUser);
    SameKeeps(m, m1.(crashed := true));
    if k.Plain? {
      PushKeeps(inUser, User);
      KeepsTransitive(m, inUser, m');
    } else if k.Bind? && (if r.Fulfilled? then k.onOk else k.onErr) {
      PushKeeps(inUser, UserBind(c));
      KeepsTransitive(m, inUser, m');
    } else if k.Map? && r.Fulfilled? {
      PushKeeps(inUser, UserMap(c));
      KeepsTransitive(m, inUser, m');
    } else if k.Pick? {
      PushKeeps(m1, PickCancel(c, k.ps, r, AtEnd));
      KeepsTransitive(m, m1, m');
    } else if k.NPick? {
      if k.outer in m.heap {
        PushKeeps(m1, PickCancel(c, k.ps, computed, Captured(Root(m.heap, k.outer))));
        KeepsTransitive(m, m1, m');
      }
    } else if k.JoinMember? {
      MemberKeeps(m, m1, k.join, r);
    } else {
      ResolveOuterKeeps(m1, c, k.outer, if k.NChoose? then computed else r);
      KeepsTransitive(m, m1, m');
    }
  }

  lemma MemberKeeps(m: Machine, m1: Machine, j: Cid, r: Result)
    requires Forest(m1.heap) && Keeps(m, m1)
    ensures Keeps(m, RunJoinMember(m1, j, r))
  {
    hide Keeps, Ranked, ResolveOuter;
    var m' := RunJoinMember(m1, j, r);
    if j in m1.joins {
      var join := JoinUpdate(m1.joins[j], r);
      var m2 := m1.(joins := m1.joins[j := join]);
      SameKeeps(m1, m2);
      if join.count == 0 {
        ResolveOuterKeeps(m2, j, join.outer, join.result);
        KeepsTransitive(m1, m2, m');
      }
    } else {
      SameKeeps(m1, m');
    }
    KeepsTransitive(m, m1, m');
  }

  lemma ShrinkKeeps(m: Machine, rid: Pid, p: Promise)
    requires rid in m.heap && p.state == m.heap[rid].state
    requires Unfinished(p) ==> Unfinished(m.heap[rid])
    ensures Keeps(m, m.(heap := m.heap[rid := p]))
  {
    hide Keeps;
    HeapKeeps(m, m.heap[rid := p]);
  }

  lemma RunStepKeeps(m: Machine, rid: Pid, r: Result, computed: Result)
    requires Forest(m.heap) && m.stack != [] && m.stack[|m.stack| - 1] == Run(rid, r)
    requires rid in m.heap && m.heap[rid].state == Resolved(r)
    ensures Keeps(m, RunStep(m, rid, r, computed))
  {
    hide Keeps, Ranked, Dispatch;
    var p, m' := m.heap[rid], RunStep(m, rid, r, computed);
    if r == Rejected(Canceled) && p.cancel != [] {
      var m1 := m.(heap := m.heap[rid := p.(cancel := p.cancel[1..])]);
      ShrinkKeeps(m, rid, p.(cancel := p.cancel[1..]));
      SameKeeps(m1, m1.(storage := p.cancel[0]));
      PushKeeps(m1.(storage := p.cancel[0]), User);
      KeepsTransitive(m, m1, m1.(storage := p.cancel[0]));
      KeepsTransitive(m, m1.(storage := p.cancel[0]), m');
    } else if p.regular == [] {
      PopKeeps(m);
    } else {
      var c := p.regular[0];
      var m1 := m.(heap := m.heap[rid := p.(regular := p.regular[1..])]);
      ShrinkKeeps(m, rid, p.(regular := p.regular[1..]));
      SameLinksForest(m.heap, m1.heap);
      if c in m.cbs {
        DispatchKeeps(m1, c, r, computed);
        KeepsTransitive(m, m1, Dispatch(m1, c, r, computed));
      } else {
        SameKeeps(m, m');
      }
    }
  }

  /** A deferred record comes from the queue into the loop. */
  lemma DrainKeeps(m: Machine)
    requires m.stack != [] && m.stack[|m.stack| - 1].Loop? && m.queue != []
    ensures
      var d := m.queue[0];
      Keeps(m, Push(m.(queue := m.queue[1..], drained := m.drained + [d]), Run(d.0, d.1)))
  {
    var d := m.queue[0];
    hide HeldOf, RunsInLoops, Unfinished, Named, Deferred;
    NamedPop(m.queue);
    HeldPush(m.stack, Run(d.0, d.1));
    if RunsInLoops(m.stack) {
      PushRuns(m.stack, Run(d.0, d.1));
    }
    if Deferred(m.stack, m.heap, m.pushed) {
      DeferredPush(m.stack, Run(d.0, d.1), m.heap, m.pushed);
    }
  }

  lemma LoopStepKeeps(m: Machine, snapshot: Storage)
    requires m.stack != [] && m.stack[|m.stack| - 1] == Loop(snapshot)
    ensures Keeps(m, LoopStep(m, snapshot))
  {
    hide Keeps;
    if m.depth == 1 && m.queue != [] {
      DrainKeeps(m);
    } else {
      var m1 := m.(depth := m.depth - 1, storage := snapshot);
      SameKeeps(m, m1);
      PopKeeps(m1);
      KeepsTransitive(m, m1, Pop(m1));
    }
  }

  lemma DeferredStep(s: seq<Frame>, rids: seq<Pid>, loop: Frame, run: Frame, h: Heap, pushed: seq<(Pid, Result)>)
    requires Deferred(s + [CancelRun(rids)], h, pushed) && rids != [] && loop.Loop? && run.Run?
    ensures Deferred(s + [CancelRun(rids[1..])] + [loop, run], h, pushed)
  {
    hide Named;
    var t := s + [CancelRun(rids)];
    assert t[|s|] == CancelRun(rids) && t[..|s|] == s;
    DeferredPop(t, h, pushed);
    DeferredPush(s, CancelRun(rids[1..]), h, pushed);
    DeferredPush(s + [CancelRun(rids[1..])], loop, h, pushed);
    DeferredPush(s + [CancelRun(rids[1..])] + [loop], run, h, pushed);
    hide Deferred;
    assert s + [CancelRun(rids[1..])] + [loop, run] == s + [CancelRun(rids[1..])] + [loop] + [run];
  }

  lemma CancelRunStepKeeps(m: Machine, rids: seq<Pid>)
    requires m.stack != [] && m.stack[|m.stack| - 1] == CancelRun(rids)
    ensures Keeps(m, CancelRunStep(m, rids))
  {
    if rids == [] {
      hide Keeps;
      PopKeeps(m);
    } else {
      hide HeldOf, RunsInLoops, Unfinished, Named, Deferred;
      HeldTop(m.stack);
      var s := m.stack[..|m.stack| - 1];
      var m1 := Push(Pop(m), CancelRun(rids[1..]));
      assert m.stack == s + [CancelRun(rids)];
      HeldPush(s, CancelRun(rids[1..]));
      EnterKeeps(m1, rids[0], Rejected(Canceled));
      if RunsInLoops(m.stack) {
        PopRuns(m.stack);
        PushRuns(s, CancelRun(rids[1..]));
      }
      if Deferred(m.stack, m.heap, m.pushed) {
        DeferredStep(s, rids, Loop(m.storage), Run(rids[0], Rejected(Canceled)), m.heap, m.pushed);
      }
    }
  }

  lemma CancelKeeps(m: Machine, order: seq<Pid>)
    requires CancelTargets(m.heap, order)
    ensures Keeps(m, Cancel(m, order))
  {
    hide HeldOf, RunsInLoops, Named;
    HeldPush(m.stack, CancelRun(order));
    if RunsInLoops(m.stack) {
      PushRuns(m.stack, CancelRun(order));
    }
  }

  lemma PickStepKeeps(m: Machine, c: Cid, rest: seq<Pid>, r: Result, t: Target, order: seq<Pid>)
    requires Forest(m.heap) && CancelTargets(m.heap, order)
    requires m.stack != [] && m.stack[|m.stack| - 1] == PickCancel(c, rest, r, t)
    ensures Keeps(m, PickStep(m, c, rest, r, t, order))
  {
    hide Keeps, Ranked, Resolve, ResolveOuter, Cancel, CancelTargets;
    var m' := PickStep(m, c, rest, r, t, order);
    PopKeeps(m);
    if rest != [] {
      var m1 := Push(Pop(m), PickCancel(c, rest[1..], r, t));
      PushKeeps(Pop(m), PickCancel(c, rest[1..], r, t));
      KeepsTransitive(m, Pop(m), m1);
      CancelKeeps(m1, order);
      KeepsTransitive(m, m1, m');
    } else if t.Captured? {
      SameKeeps(Pop(m), Discharge(Pop(m), c));
      KeepsTransitive(m, Pop(m), Discharge(Pop(m), c));
      ResolveKeeps(Discharge(Pop(m), c), t.p, r, Never);
      KeepsTransitive(m, Discharge(Pop(m), c), m');
    } else if c in m.cbs && HasOuter(m.cbs[c].kind) {
      ResolveOuterKeeps(Pop(m), c, m.cbs[c].kind.outer, r);
      KeepsTransitive(m, Pop(m), m');
    } else {
      SameKeeps(m, m');
    }
  }

  lemma EngineKeeps(m: Machine, computed: Result, order: seq<Pid>)
    requires Inv(m) && Forest(m.heap) && !UserTurn(m) && CancelTargets(m.heap, order)
    ensures Keeps(m, DoEngine(m, computed, order))
  {
    assert FrameOk(m.stack[|m.stack| - 1], m.heap, m.cbs, m.live, m.owed);
    hide Inv, Keeps, RunStep, LoopStep, PickStep, CancelRunStep, Ranked, CancelTargets;
    match m.stack[|m.stack| - 1]
    case Loop(snapshot) => LoopStepKeeps(m, snapshot);
    case Run(rid, r) => RunStepKeeps(m, rid, r, computed);
    case CancelRun(rids) => CancelRunStepKeeps(m, rids);
    case PickCancel(c, rest, r, t) => PickStepKeeps(m, c, rest, r, t, order);
  }

  lemma MakeIntoProxyKeeps(m: Machine, o: Pid, u: Pid)
    requires Forest(m.heap) && u in m.heap
    ensures Keeps(m, MakeIntoProxy(m, o, u))
  {
    hide Keeps, Ranked, Forest, Resolve;
    var q := Root(m.heap, u);
    if q == o {
      SameKeeps(m, m);
    } else if m.heap[q].state.Resolved? {
      ResolveKeeps(m, o, m.heap[q].state.result, Never);
    } else if o in m.heap && m.heap[o].state.Pending? {
      HeapKeeps(m, Merge(m.heap, q, o));
    } else {
      SameKeeps(m, MakeIntoProxy(m, o, u));
    }
  }

  lemma ReturnKeeps(m: Machine, a: Action)
    requires Enabled(m, a) && (a.ReturnPromise? || a.ReturnValue?)
    ensures Keeps(m, Apply(m, a))
  {
    hide Keeps, Ranked, MakeIntoProxy, ResolveOuter;
    PopKeeps(m);
    SameKeeps(m, m.(crashed := true));
    var c, m' := m.stack[|m.stack| - 1].cb, Apply(m, a);
    if c in m.cbs && HasOuter(m.cbs[c].kind) {
      var outer := m.cbs[c].kind.outer;
      if a.ReturnValue? {
        ResolveOuterKeeps(Pop(m), c, outer, a.r);
        KeepsTransitive(m, Pop(m), m');
      } else if outer in m.heap {
        var m1 := Discharge(Pop(m), c);
        SameKeeps(Pop(m), m1);
        KeepsTransitive(m, Pop(m), m1);
        MakeIntoProxyKeeps(m1, Root(m.heap, outer), a.u);
        KeepsTransitive(m, m1, m');
      }
    }
  }

  // ------------------------------------------------------------------------------------------
  // New promises and new callbacks
  // ------------------------------------------------------------------------------------------

  /** Callbacks are added to pending promises only. */
  ghost predicate AddsToPending(h: Heap, h': Heap) {
    && h'.Keys == h.Keys
    && forall p :: p in h ==> h'[p].state == h[p].state && (!h[p].state.Pending? ==> h'[p] == h[p])
  }

  lemma {:induction false} AddAllToPending(h: Heap, rs: seq<Pid>, cs: seq<Cid>)
    requires |rs| == |cs| && forall i :: 0 <= i < |rs| ==> rs[i] in h && h[rs[i]].state.Pending?
    ensures AddsToPending(h, AddAll(h, rs, cs))
  {
    if rs != [] {
      AddAllToPending(AddRegular(h, rs[0], cs[0]), rs[1..], cs[1..]);
    }
  }

  lemma NewCellAddKeeps(m: Machine, o: Pid, cell: Promise, m': Machine)
    requires o !in m.heap && !Unfinished(cell) && AddsToPending(m.heap[o := cell], m'.heap)
    requires m'.stack == m.stack && m'.queue == m.queue && m'.pushed == m.pushed
    ensures Keeps(m, m')
  {
    HeapKeeps(m, m'.heap);
    SameKeeps(m.(heap := m'.heap), m');
    hide Keeps;
    KeepsTransitive(m, m.(heap := m'.heap), m');
  }

  lemma AddKeeps(m: Machine, m': Machine)
    requires AddsToPending(m.heap, m'.heap)
    requires m'.stack == m.stack && m'.queue == m.queue && m'.pushed == m.pushed
    ensures Keeps(m, m')
  {
    HeapKeeps(m, m'.heap);
    SameKeeps(m.(heap := m'.heap), m');
    hide Keeps;
    KeepsTransitive(m, m.(heap := m'.heap), m');
  }

  lemma CreateKeepsAll(m: Machine, a: Action)
    requires Enabled(m, a) && Creates(a)
    ensures Keeps(m, Apply(m, a))
  {
    hide Keeps, Ranked, AddAll;
    var m' := Apply(m, a);
    match a
    case NewInitial(p, cancelable) => NewCellAddKeeps(m, p, m'.heap[p], m');
    case NewResolved(p, r) => NewCellAddKeeps(m, p, m'.heap[p], m');
    case Attach(c, src, kind) =>
      var how := if kind.Forward? then NotCancelable else PropagateToOne(Root(m.heap, src));
      NewCellAddKeeps(m, kind.outer, Promise(Pending, how, [], []), m');
    case AttachPlain(c, src) => AddKeeps(m, m');
    case OnCancel(src) => AddKeeps(m, m');
    case NewJoin(j, outer, ps, cs) =>
      var cell := Promise(Pending, PropagateToSeveral(ps), [], []);
      AddAllToPending(m.heap[outer := cell], PendingRoots(m.heap, ps), cs);
      NewCellAddKeeps(m, outer, cell, m');
    case NewChoice(c, ps, kind) =>
      var cell := Promise(Pending, PropagateToSeveral(ps), [], []);
      var rs := Roots(m.heap, ps);
      AddAllToPending(m.heap[kind.outer := cell], rs, seq(|rs|, _ => c));
      NewCellAddKeeps(m, kind.outer, cell, m');
  }

  /** No action leaves callbacks that are to run without anybody to run them. */
  lemma ApplyKeeps(m: Machine, a: Action)
    requires Inv(m) && Enabled(m, a)
    ensures Keeps(m, Apply(m, a))
  {
    hide Inv, Keeps, Ranked, Resolve, DoEngine, Cancel, CancelTargets;
    var m' := Apply(m, a);
    SameKeeps(m, m);
    if Creates(a) {
      CreateKeepsAll(m, a);
    } else if a.ReturnPromise? || a.ReturnValue? {
      ReturnKeeps(m, a);
    } else {
      match a
      case Wakeup(p, r, later) => ResolveKeeps(m, Root(m.heap, p), r, if later then FromDepth(1) else Never);
      case CancelPromise(order) => CancelKeeps(m, order);
      case ReturnUser => PopKeeps(m);
      case SetStorage(s) => SameKeeps(m, m');
      case Compress(p) => HeapKeeps(m, m'.heap);
      case Sweep(p, i) => HeapKeeps(m, m'.heap);
      case Engine(computed, order) => EngineKeeps(m, computed, order);
    }
  }

  // ------------------------------------------------------------------------------------------
  // Every run
  // ------------------------------------------------------------------------------------------

  lemma {:induction false} RunKeeps(ms: seq<Machine>, n: nat)
    requires IsRun(ms) && n < |ms|
    ensures forall p :: !Lost(ms[n], p)
    ensures RunsInLoops(ms[n].stack) && Deferred(ms[n].stack, ms[n].heap, ms[n].pushed)
  {
    hide Inv, Enabled, Apply, Lost, RunsInLoops, Deferred;
    if n == 0 {
      InitialKeeps();
    } else {
      RunKeeps(ms, n - 1);
      assert Next(ms[n - 1], ms[n]);
      var a :| Enabled(ms[n - 1], a) && ms[n] == Apply(ms[n - 1], a);
      EnabledInv(ms, n - 1, a);
      ApplyKeeps(ms[n - 1], a);
    }
  }

  lemma InitialKeeps()
    ensures forall p :: !Lost(INITIAL, p)
    ensures RunsInLoops(INITIAL.stack) && Deferred(INITIAL.stack, INITIAL.heap, INITIAL.pushed)
  {
  }

  lemma {:induction false} HeldBy(s: seq<Frame>, p: Pid)
    requires p in HeldOf(s)
    ensures exists i :: 0 <= i < |s| && p in HeldIn(s[i])
  {
    var t := s[..|s| - 1];
    if p in HeldOf(t) {
      HeldBy(t, p);
      var i :| 0 <= i < |t| && p in HeldIn(t[i]);
      assert s[i] == t[i];
    } else {
      assert p in HeldIn(s[|s| - 1]);
    }
  }

  /** In every run, whenever the engine is idle, no promise that is resolved, or has become a proxy, lists any callback,
      nor one that was canceled any cancel callback. */
  lemma IdleIsFinished(ms: seq<Machine>, n: nat, p: Pid)
    requires IsRun(ms) && n < |ms| && ms[n].stack == [] && p in ms[n].heap
    ensures !ms[n].heap[p].state.Pending? ==> ms[n].heap[p].regular == []
    ensures ms[n].heap[p].state == Resolved(Rejected(Canceled)) ==> ms[n].heap[p].cancel == []
  {
    hide IsRun, Inv;
    RunKeeps(ms, n);
    DeferredRunInOrder(ms, n);
    assert !Lost(ms[n], p);
  }

  lemma {:induction false} NoLoops(s: seq<Frame>)
    requires Loops(s) == 0
    ensures forall i :: 0 <= i < |s| ==> !s[i].Loop?
  {
    if s != [] {
      LoopsNonNegative(s[..|s| - 1]);
      NoLoops(s[..|s| - 1]);
    }
  }

  /** In every run, outside the resolution loop all callbacks of every record that was ever deferred have run. */
  lemma DeferredIsFinished(ms: seq<Machine>, n: nat, i: nat)
    requires IsRun(ms) && n < |ms| && ms[n].depth == 0 && i < |ms[n].pushed|
    ensures ms[n].pushed[i].0 in ms[n].heap && !Unfinished(ms[n].heap[ms[n].pushed[i].0])
  {
    hide IsRun, Inv, Loops, Unfinished;
    var m, p := ms[n], ms[n].pushed[i].0;
    RunKeeps(ms, n);
    DeferredRunInOrder(ms, n);
    NoLoops(m.stack);
    assert p in Named(m.pushed);
    NotHeld(m.stack, m.heap, m.pushed, p);
    assert m.queue == [];
    assert !Lost(m, p);
  }

  lemma NotHeld(s: seq<Frame>, h: Heap, pushed: seq<(Pid, Result)>, p: Pid)
    requires RunsInLoops(s) && Deferred(s, h, pushed) && p in Named(pushed)
    requires forall i :: 0 <= i < |s| ==> !s[i].Loop?
    ensures p !in HeldOf(s)
  {
    if p in HeldOf(s) {
      HeldBy(s, p);
    }
  }

  // ------------------------------------------------------------------------------------------
  // Every registered callback
  // ------------------------------------------------------------------------------------------

  ghost predicate Listed(h: Heap, c: Cid) {
    exists p :: p in h && c in h[p].regular
  }

  /** Every callback has run or is still to run, and those still to run, unless they sit in cells, are listed. */
  ghost predicate BooksOk(h: Heap, cbs: map<Cid, Callback>, live: set<Cid>, ran: seq<Cid>) {
    && (forall c :: c in cbs ==> c in live || c in ran)
    && (forall c :: c in live && c in cbs && !Removable(cbs[c].kind) ==> Listed(h, c))
  }

  ghost predicate Books(m: Machine) {
    BooksOk(m.heap, m.cbs, m.live, m.ran)
  }

  ghost predicate SameRegular(h: Heap, h': Heap) {
    forall p :: p in h ==> p in h' && h'[p].regular == h[p].regular
  }

  /** No callback is registered, run or moved. */
  ghost predicate SameBooks(m: Machine, m': Machine) {
    m'.cbs == m.cbs && m'.live == m.live && m'.ran == m.ran && SameRegular(m.heap, m'.heap)
  }

  /** What is listed stays listed somewhere, but for `c`. */
  ghost predicate KeepsListed(h: Heap, h': Heap, but: set<Cid>) {
    forall c :: c !in but && Listed(h, c) ==> Listed(h', c)
  }

  lemma SameRegularKeeps(h: Heap, h': Heap)
    requires SameRegular(h, h')
    ensures KeepsListed(h, h', {})
  {
    forall c | Listed(h, c) ensures Listed(h', c) {
      var p :| p in h && c in h[p].regular;
      assert c in h'[p].regular;
    }
  }

  lemma SameBooksKeeps(m: Machine, m': Machine)
    requires Books(m) && SameBooks(m, m')
    ensures Books(m')
  {
    SameRegularKeeps(m.heap, m'.heap);
    hide Listed;
  }

  lemma ResolveBooks(m: Machine, p: Pid, r: Result, d: Deferring)
    ensures SameBooks(m, Resolve(m, p, r, d))
  {
    hide SameRegular, SetState;
    SameRegularSelf(m.heap);
    if p in m.heap {
      SetStateLists(m.heap, p, Resolved(r));
    }
  }

  lemma SameRegularSelf(h: Heap)
    ensures SameRegular(h, h)
  {
  }

  lemma SetStateLists(h: Heap, p: Pid, s: State)
    requires p in h
    ensures SameRegular(h, SetState(h, p, s))
  {
  }

  lemma ResolveOuterBooks(m: Machine, t: Cid, outer: Pid, r: Result)
    requires Forest(m.heap)
    ensures SameBooks(m, ResolveOuter(m, t, outer, r))
  {
    hide Ranked, Resolve, SameRegular;
    SameRegularSelf(m.heap);
    if outer in m.heap {
      ResolveBooks(Discharge(m, t), Root(m.heap, outer), r, Never);
    }
  }

  lemma DispatchBooks(m: Machine, c: Cid, r: Result, computed: Result)
    requires Forest(m.heap) && c in m.cbs
    ensures SameBooks(m.(live := m.live - {c}, ran := m.ran + [c]), Dispatch(m, c, r, computed))
  {
    hide Ranked, Forest, Root, ResolveOuter, SameRegular;
    SameRegularSelf(m.heap);
    var m1 := m.(live := m.live - {c}, ran := m.ran + [c]);
    var k := m.cbs[c].kind;
    if HasOuter(k) {
      ResolveOuterBooks(m1, c, k.outer, r);
      ResolveOuterBooks(m1, c, k.outer, computed);
    } else if k.JoinMember? && k.join in m.joins {
      var join := JoinUpdate(m.joins[k.join], r);
      ResolveOuterBooks(m1.(joins := m.joins[k.join := join]), k.join, join.outer, join.result);
    }
  }

  /** A callback is taken out of a list. */
  lemma RemovedListed(h: Heap, p: Pid, i: nat)
    requires p in h && i < |h[p].regular|
    ensures KeepsListed(h, h[p := h[p].(regular := h[p].regular[..i] + h[p].regular[i + 1..])], {h[p].regular[i]})
  {
    var l := h[p].regular;
    var h' := h[p := h[p].(regular := l[..i] + l[i + 1..])];
    assert l == l[..i] + [l[i]] + l[i + 1..];
    forall c | c != l[i] && Listed(h, c) ensures Listed(h', c) {
      var q :| q in h && c in h[q].regular;
      assert c in h'[q].regular;
    }
  }

  /** The callback that is taken out of a list has been run, or sits in a cell. */
  lemma TakenBooks(h: Heap, h': Heap, cbs: map<Cid, Callback>, live: set<Cid>, ran: seq<Cid>, c: Cid)
    requires BooksOk(h, cbs, live, ran) && KeepsListed(h, h', {c}) && c in cbs
    ensures Removable(cbs[c].kind) ==> BooksOk(h', cbs, live, ran)
    ensures BooksOk(h', cbs, live - {c}, ran + [c])
  {
    hide Listed;
  }

  lemma RunStepBooks(m: Machine, rid: Pid, r: Result, computed: Result)
    requires Books(m) && Forest(m.heap) && m.stack != []
    ensures Books(RunStep(m, rid, r, computed))
  {
    hide Ranked, Dispatch, BooksOk;
    var m' := RunStep(m, rid, r, computed);
    if rid in m.heap && !(r == Rejected(Canceled) && m.heap[rid].cancel != []) && m.heap[rid].regular != [] {
      var p := m.heap[rid];
      var c := p.regular[0];
      var m1 := m.(heap := m.heap[rid := p.(regular := p.regular[1..])]);
      SameLinksForest(m.heap, m1.heap);
      if c in m.cbs {
        RemovedListed(m.heap, rid, 0);
        assert p.regular[..0] + p.regular[1..] == p.regular[1..];
        TakenBooks(m.heap, m1.heap, m.cbs, m.live, m.ran, c);
        if !(Removable(m.cbs[c].kind) && c !in m.live) {
          DispatchBooks(m1, c, r, computed);
          SameBooksKeeps(m1.(live := m.live - {c}, ran := m.ran + [c]), m');
        }
      }
    } else {
      hide SameRegular;
      SameRegularSelf(m.heap);
      if rid in m.heap {
        SameCellLists(m.heap, rid, m.heap[rid].(cancel := m'.heap[rid].cancel));
      }
      SameBooksKeeps(m, m');
    }
  }

  lemma SameCellLists(h: Heap, p: Pid, cell: Promise)
    requires p in h && cell.regular == h[p].regular
    ensures SameRegular(h, h[p := cell])
  {
  }

  lemma PickStepBooks(m: Machine, c: Cid, rest: seq<Pid>, r: Result, t: Target, order: seq<Pid>)
    requires Forest(m.heap) && m.stack != []
    ensures SameBooks(m, PickStep(m, c, rest, r, t, order))
  {
    hide Ranked, Forest, Resolve, ResolveOuter;
    if rest == [] && t.Captured? {
      ResolveBooks(Discharge(Pop(m), c), t.p, r, Never);
    } else if rest == [] && c in m.cbs && HasOuter(m.cbs[c].kind) {
      ResolveOuterBooks(Pop(m), c, m.cbs[c].kind.outer, r);
    }
  }

  lemma EngineBooks(m: Machine, computed: Result, order: seq<Pid>)
    requires Books(m) && Forest(m.heap) && !UserTurn(m)
    ensures Books(DoEngine(m, computed, order))
  {
    hide Books, RunStep, PickStep, Ranked, Forest, SameRegular;
    SameRegularSelf(m.heap);
    var m' := DoEngine(m, computed, order);
    match m.stack[|m.stack| - 1]
    case Loop(snapshot) => SameBooksKeeps(m, m');
    case Run(rid, r) => RunStepBooks(m, rid, r, computed);
    case CancelRun(rids) => SameBooksKeeps(m, m');
    case PickCancel(c, rest, r, t) =>
      PickStepBooks(m, c, rest, r, t, order);
      SameBooksKeeps(m, m');
  }

  lemma MergeListed(h: Heap, q: Pid, o: Pid)
    requires q in h && o in h && q != o
    ensures KeepsListed(h, Merge(h, q, o), {})
  {
    var h' := Merge(h, q, o);
    forall c | Listed(h, c) ensures Listed(h', c) {
      var p :| p in h && c in h[p].regular;
      assert c in h'[if p == q then o else p].regular;
    }
  }

  lemma ReturnBooks(m: Machine, a: Action)
    requires Books(m) && Enabled(m, a) && (a.ReturnPromise? || a.ReturnValue?)
    ensures Books(Apply(m, a))
  {
    hide Books, Ranked, Resolve, ResolveOuter, MakeIntoProxy;
    var c, m' := m.stack[|m.stack| - 1].cb, Apply(m, a);
    if c in m.cbs && HasOuter(m.cbs[c].kind) && a.ReturnValue? {
      ResolveOuterBooks(Pop(m), c, m.cbs[c].kind.outer, a.r);
      SameBooksKeeps(m, m');
    } else if c in m.cbs && HasOuter(m.cbs[c].kind) && m.cbs[c].kind.outer in m.heap {
      SameBooksKeeps(m, Discharge(Pop(m), c));
      ProxyBooks(Discharge(Pop(m), c), Root(m.heap, m.cbs[c].kind.outer), a.u);
    } else {
      SameBooksKeeps(m, m');
    }
  }

  lemma ProxyBooks(m: Machine, o: Pid, u: Pid)
    requires Books(m) && Forest(m.heap) && u in m.heap
    ensures Books(MakeIntoProxy(m, o, u))
  {
    hide Ranked, Forest, Resolve, Listed;
    var q, m' := Root(m.heap, u), MakeIntoProxy(m, o, u);
    if q != o && m.heap[q].state.Resolved? {
      ResolveBooks(m, o, m.heap[q].state.result, Never);
      SameBooksKeeps(m, m');
    } else if q != o && o in m.heap && m.heap[o].state.Pending? {
      MergeListed(m.heap, q, o);
    } else {
      SameBooksKeeps(m, m');
    }
  }

  /** Every list grows, and what is added is listed. */
  lemma {:induction false} AddAllListed(h: Heap, rs: seq<Pid>, cs: seq<Cid>)
    requires |rs| == |cs| && forall i :: 0 <= i < |rs| ==> rs[i] in h
    ensures
      var h' := AddAll(h, rs, cs);
      KeepsListed(h, h', {}) && forall i :: 0 <= i < |cs| ==> Listed(h', cs[i])
  {
    if rs != [] {
      var h1 := AddRegular(h, rs[0], cs[0]);
      AddOneListed(h, rs[0], cs[0]);
      AddAllListed(h1, rs[1..], cs[1..]);
      hide Listed, AddRegular;
      forall i | 0 <= i < |cs| ensures Listed(AddAll(h, rs, cs), cs[i]) {
        if i > 0 {
          assert cs[i] == cs[1..][i - 1];
        }
      }
    }
  }

  lemma AddOneListed(h: Heap, p: Pid, c: Cid)
    requires p in h
    ensures KeepsListed(h, AddRegular(h, p, c), {}) && Listed(AddRegular(h, p, c), c)
  {
    var h' := AddRegular(h, p, c);
    assert c in h'[p].regular;
    forall x | Listed(h, x) ensures Listed(h', x) {
      var q :| q in h && x in h[q].regular;
      assert x in h'[q].regular;
    }
  }

  lemma NewCellListed(h: Heap, o: Pid, cell: Promise)
    requires o !in h
    ensures KeepsListed(h, h[o := cell], {})
  {
    SameRegularKeeps(h, h[o := cell]);
  }

  /** Callbacks `cs` are registered and listed. */
  lemma RegisteredBooks(m: Machine, m': Machine, cs: set<Cid>)
    requires Books(m) && m.cbs.Keys !! cs && m'.cbs.Keys == m.cbs.Keys + cs && m'.live == m.live + cs && m'.ran == m.ran
    requires forall c :: c in m.cbs ==> m'.cbs[c] == m.cbs[c]
    requires KeepsListed(m.heap, m'.heap, {})
    requires forall c :: c in cs && !Removable(m'.cbs[c].kind) ==> Listed(m'.heap, c)
    ensures Books(m')
  {
    hide Listed;
  }

  lemma JoinBooks(m: Machine, j: Cid, outer: Pid, ps: seq<Pid>, cs: seq<Cid>)
    requires Books(m) && Enabled(m, NewJoin(j, outer, ps, cs))
    ensures Books(Apply(m, NewJoin(j, outer, ps, cs)))
  {
    hide Books, Ranked, PendingRoots, AddAll, Listed;
    var cell := Promise(Pending, PropagateToSeveral(ps), [], []);
    var h1 := m.heap[outer := cell];
    NewCellListed(m.heap, outer, cell);
    AddAllListed(h1, PendingRoots(m.heap, ps), cs);
    RegisteredBooks(m, Apply(m, NewJoin(j, outer, ps, cs)), set c | c in cs);
  }

  lemma ChoiceBooks(m: Machine, c: Cid, ps: seq<Pid>, kind: Kind)
    requires Books(m) && Enabled(m, NewChoice(c, ps, kind))
    ensures Books(Apply(m, NewChoice(c, ps, kind)))
  {
    hide Books, Ranked, AddAll, Listed;
    var cell := Promise(Pending, PropagateToSeveral(ps), [], []);
    var h1, rs := m.heap[kind.outer := cell], Roots(m.heap, ps);
    NewCellListed(m.heap, kind.outer, cell);
    AddAllListed(h1, rs, seq(|rs|, _ => c));
    RegisteredBooks(m, Apply(m, NewChoice(c, ps, kind)), {c});
  }

  lemma AttachBooks(m: Machine, c: Cid, src: Pid, kind: Kind)
    requires Books(m) && Enabled(m, Attach(c, src, kind))
    ensures Books(Apply(m, Attach(c, src, kind)))
  {
    hide Books, Ranked, AddRegular, Listed;
    var root := Root(m.heap, src);
    var cell := Promise(Pending, if kind.Forward? then NotCancelable else PropagateToOne(root), [], []);
    NewCellListed(m.heap, kind.outer, cell);
    AddOneListed(m.heap[kind.outer := cell], root, c);
    RegisteredBooks(m, Apply(m, Attach(c, src, kind)), {c});
  }

  lemma CreateBooks(m: Machine, a: Action)
    requires Books(m) && Enabled(m, a) && Creates(a)
    ensures Books(Apply(m, a))
  {
    hide Books, Ranked, AddAll, Listed;
    var m' := Apply(m, a);
    match a
    case NewInitial(p, cancelable) => SameBooksKeeps(m, m');
    case NewResolved(p, r) => SameBooksKeeps(m, m');
    case Attach(c, src, kind) => AttachBooks(m, c, src, kind);
    case AttachPlain(c, src) =>
      AddOneListed(m.heap, Root(m.heap, src), c);
      RegisteredBooks(m, m', {c});
    case OnCancel(src) => SameBooksKeeps(m, m');
    case NewJoin(j, outer, ps, cs) => JoinBooks(m, j, outer, ps, cs);
    case NewChoice(c, ps, kind) => ChoiceBooks(m, c, ps, kind);
  }

  lemma SweepBooks(m: Machine, p: Pid, i: nat)
    requires Books(m) && Enabled(m, Sweep(p, i))
    ensures Books(Apply(m, Sweep(p, i)))
  {
    hide Ranked, Listed, BooksOk;
    var m' := Apply(m, Sweep(p, i));
    RemovedListed(m.heap, p, i);
    TakenBooks(m.heap, m'.heap, m.cbs, m.live, m.ran, m.heap[p].regular[i]);
  }

  lemma ApplyBooks(m: Machine, a: Action)
    requires Books(m) && Enabled(m, a)
    ensures Books(Apply(m, a))
  {
    hide Books, Ranked, Resolve, DoEngine;
    var m' := Apply(m, a);
    if Creates(a) {
      CreateBooks(m, a);
    } else if a.ReturnPromise? || a.ReturnValue? {
      ReturnBooks(m, a);
    } else if a.Engine? {
      EngineBooks(m, a.computed, a.order);
    } else if a.Sweep? {
      SweepBooks(m, a.p, a.i);
    } else if a.Wakeup? {
      ResolveBooks(m, Root(m.heap, a.p), a.r, if a.later then FromDepth(1) else Never);
      SameBooksKeeps(m, m');
    } else {
      SameBooksKeeps(m, m');
    }
  }

  lemma {:induction false} RunBooks(ms: seq<Machine>, n: nat)
    requires IsRun(ms) && n < |ms|
    ensures Books(ms[n])
  {
    hide Enabled, Apply, Listed;
    if n > 0 {
      RunBooks(ms, n - 1);
      assert Next(ms[n - 1], ms[n]);
      var a :| Enabled(ms[n - 1], a) && ms[n] == Apply(ms[n - 1], a);
      hide Books;
      ApplyBooks(ms[n - 1], a);
    }
  }

  /** In every run, whenever the engine is idle, every callback ever registered, unless it sits in a cell, has run or is
      listed by a promise that is pending. */
  lemma IdleHasRun(ms: seq<Machine>, n: nat, c: Cid)
    requires IsRun(ms) && n < |ms| && ms[n].stack == [] && c in ms[n].cbs && !Removable(ms[n].cbs[c].kind)
    ensures c in ms[n].ran || exists p :: p in ms[n].heap && ms[n].heap[p].state.Pending? && c in ms[n].heap[p].regular
  {
    hide IsRun;
    RunBooks(ms, n);
    if c !in ms[n].ran {
      var p :| p in ms[n].heap && c in ms[n].heap[p].regular;
      IdleIsFinished(ms, n, p);
    }
  }
}
