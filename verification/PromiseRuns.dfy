/** Safety of the promise engine over whole runs. */
module PromiseRuns {
  import opened PromiseHeap
  import opened PromiseEngine
  import opened PromiseSafety
  import opened PromiseExtends
  import opened PromiseCaptured

  /** Every action of user code and engine keeps the invariant, except npick resolving a captured promise that is
      no longer the one it should resolve. */
  lemma ApplyKeepsInv(m: Machine, a: Action)
    requires Inv(m) && Enabled(m, a) && !(a.Engine? && Misses(m))
    ensures Inv(Apply(m, a))
  {
    hide OwedOk, QueueOk, ListsOk, FramesOk, JoinsOk, CbsOk, RanOk, Inv, CancelTargets;
    match a
    case NewInitial(p, cancelable) =>
      NewInitialKeepsInv(m, p, Promise(Pending, if cancelable then CancelThisPromise else NotCancelable, [], []));
    case NewResolved(p, r) => NewCellKeepsInv(m, p, Promise(Resolved(r), NotCancelable, [], []));
    case Attach(c, src, kind) => AttachKeepsInv(m, c, src, kind);
    case AttachPlain(c, src) => AttachPlainKeepsInv(m, c, src);
    case OnCancel(src) => OnCancelKeepsInv(m, src);
    case NewJoin(j, outer, ps, cs) => JoinKeepsInv(m, j, outer, ps, cs);
    case NewChoice(c, ps, kind) => ChoiceKeepsInv(m, c, ps, kind);
    case Wakeup(p, r, later) => WakeupKeepsInv(m, p, r, later);
    case CancelPromise(order) => CancelKeepsInv(m, order);
    case ReturnPromise(u) => ReturnPromiseKeepsInv(m, u);
    case ReturnValue(r) => ReturnValueKeepsInv(m, r);
    case ReturnUser => PopKeepsInv(m);
    case SetStorage(s) => StorageKeepsInv(m, s);
    case Compress(p) => CompressKeepsInv(m, p);
    case Sweep(p, i) => RemoveKeepsInv(m, p, i);
    case Engine(computed, order) => EngineKeepsInv(m, computed, order);
  }

  lemma InitialQueue()
    ensures QueueOk(map[], [], 0, [], [], [])
  {
  }

  lemma InitialLists()
    ensures CbsOk(map[], {}, map[], map[]) && JoinsOk(map[], {}, map[], map[])
    ensures ListsOk(map[], map[], {}) && FramesOk([], map[], map[], {}, map[]) && RanOk([], {}, map[])
  {
  }

  lemma InitialOwed()
    ensures OwedOk(map[], map[], {})
  {
    assert Ranked(map[], map[]);
  }

  lemma InitialInv()
    ensures Inv(INITIAL)
  {
    hide OwedOk, QueueOk, ListsOk, FramesOk, JoinsOk, CbsOk, RanOk;
    InitialQueue();
    InitialLists();
    InitialOwed();
  }

  /** Even a crash leaves everything else in order. */
  lemma CrashKeepsRest(m: Machine, a: Action)
    requires Inv(m) && Enabled(m, a) && a.Engine? && Misses(m) && Apply(m, a).crashed
    ensures Inv(Apply(m, a).(crashed := false))
  {
    hide OwedOk, QueueOk, ListsOk, FramesOk, JoinsOk, CbsOk, RanOk, CancelTargets, Ranked;
    var f := m.stack[|m.stack| - 1];
    PopKeepsInv(m);
    DischargeKeepsInv(Pop(m), f.cb);
    assert !m.crashed;
    hide Inv;
    var m1 := Discharge(Pop(m), f.cb);
    assert Apply(m, a).(crashed := false) == m1;
  }

  /** In every run the invariant holds in every state, up to a crash at the end. */
  lemma {:induction false} RunInv(ms: seq<Machine>, n: nat)
    requires IsRun(ms) && n < |ms|
    ensures Inv(ms[n].(crashed := false)) && CapturedOk(ms[n])
    ensures !ms[n].crashed ==> Inv(ms[n])
  {
    hide Inv, Enabled, Apply, CapturedOk, Misses;
    if n == 0 {
      InitialInv();
      InitialCaptured();
    } else {
      RunInv(ms, n - 1);
      assert Next(ms[n - 1], ms[n]);
      var a :| Enabled(ms[n - 1], a) && ms[n] == Apply(ms[n - 1], a);
      StepInv(ms[n - 1], a);
    }
  }

  /** A state in which an action can be taken has not crashed. */
  lemma EnabledInv(ms: seq<Machine>, n: nat, a: Action)
    requires IsRun(ms) && n < |ms| && Enabled(ms[n], a)
    ensures Inv(ms[n])
  {
    hide Inv, Apply, CapturedOk;
    RunInv(ms, n);
    NotCrashed(ms[n], a);
  }

  lemma StepInv(m: Machine, a: Action)
    requires Inv(m.(crashed := false)) && Enabled(m, a) && CapturedOk(m)
    ensures Inv(Apply(m, a).(crashed := false)) && CapturedOk(Apply(m, a))
    ensures !Apply(m, a).crashed ==> Inv(Apply(m, a))
  {
    NotCrashed(m, a);
    hide Inv, Enabled, Apply, CapturedOk, Misses;
    ApplyKeepsCaptured(m, a);
    if a.Engine? && Misses(m) {
      CrashesExactly(m, a);
    } else {
      ApplyKeepsInv(m, a);
      InvUncrashed(Apply(m, a));
    }
  }

  lemma NotCrashed(m: Machine, a: Action)
    requires Enabled(m, a)
    ensures !m.crashed && m.(crashed := false) == m
  {
  }

  lemma InvUncrashed(m: Machine)
    requires Inv(m)
    ensures m.(crashed := false) == m && !m.crashed
  {
  }

  /** An action crashes exactly if it is npick resolving a captured promise that has become a proxy meanwhile. */
  lemma CrashesExactly(m: Machine, a: Action)
    requires Inv(m) && Enabled(m, a) && CapturedOk(m)
    ensures Apply(m, a).crashed <==> a.Engine? && Misses(m)
    ensures Inv(Apply(m, a).(crashed := false))
  {
    if a.Engine? && Misses(m) {
      MissIsProxy(m, a);
      CrashKeepsRest(m, a);
    } else {
      hide Inv, Enabled, Apply, CapturedOk, Misses;
      ApplyKeepsInv(m, a);
      InvUncrashed(Apply(m, a));
    }
  }

  lemma MissIsProxy(m: Machine, a: Action)
    requires Inv(m) && Enabled(m, a) && CapturedOk(m) && a.Engine? && Misses(m)
    ensures Apply(m, a).crashed
  {
    hide Inv, Ranked;
    var f := m.stack[|m.stack| - 1];
    CapturedTop(m.stack);
    assert f.target.p in m.heap && Root(m.heap, f.target.p) != f.target.p;
  }

  lemma InitialForest()
    ensures Forest(INITIAL.heap) && IsRun([INITIAL])
  {
    assert Ranked(map[], map[]);
  }

  /** A run goes on with any action that can be taken. */
  lemma RunSnoc(ms: seq<Machine>, m: Machine, a: Action)
    requires IsRun(ms) && ms[|ms| - 1] == m && Enabled(m, a)
    ensures IsRun(ms + [Apply(m, a)]) && Forest(Apply(m, a).heap)
  {
    hide Enabled, Apply, Inv;
    var ms' := ms + [Apply(m, a)];
    forall i | 0 <= i < |ms'| - 1 ensures Next(ms'[i], ms'[i + 1]) {
      if i < |ms| - 1 {
        assert ms'[i] == ms[i] && ms'[i + 1] == ms[i + 1];
      }
    }
    ApplyForest(m, a);
  }

  /** In every run every internal `resolve` and `make_into_proxy` meets a pending promise, but for the last step of
      npick, which does not exactly if the promise that it captured has become a proxy meanwhile. */
  lemma NeverCrashes(ms: seq<Machine>, n: nat, a: Action)
    requires IsRun(ms) && n + 1 < |ms| && Enabled(ms[n], a) && ms[n + 1] == Apply(ms[n], a)
    ensures ms[n + 1].crashed <==> a.Engine? && Misses(ms[n])
  {
    hide Inv, CapturedOk, Misses, Apply;
    RunInv(ms, n);
    NotCrashed(ms[n], a);
    CrashesExactly(ms[n], a);
  }

  /** In a run in which npick has not been called, none does. */
  lemma {:induction false} NeverCrashesWithoutNPick(ms: seq<Machine>, n: nat)
    requires IsRun(ms) && n < |ms|
    requires forall c :: c in ms[n].cbs ==> !ms[n].cbs[c].kind.NPick?
    ensures !ms[n].crashed
  {
    hide Inv, Apply, Enabled;
    if n > 0 {
      RunInv(ms, n - 1);
      assert Next(ms[n - 1], ms[n]);
      var a :| Enabled(ms[n - 1], a) && ms[n] == Apply(ms[n - 1], a);
      NotCrashed(ms[n - 1], a);
      CallbacksStay(ms[n - 1], a);
      CrashesExactly(ms[n - 1], a);
      if Misses(ms[n - 1]) {
        CapturedTop(ms[n - 1].stack);
      }
    }
  }

  // ------------------------------------------------------------------------------------------
  // Results are final and proxies stay equivalent
  // ------------------------------------------------------------------------------------------

  lemma {:induction false} RunExtends(ms: seq<Machine>, n: nat, k: nat)
    requires IsRun(ms) && n <= k < |ms|
    ensures Extends(ms[n].heap, ms[k].heap)
  {
    hide Inv, Enabled, Apply, Extends;
    if n == k {
      RunInv(ms, n);
      InvForest(ms[n].(crashed := false));
      SameLinksExtends(ms[n].heap, ms[n].heap);
    } else {
      RunExtends(ms, n, k - 1);
      RunInv(ms, k - 1);
      assert Next(ms[k - 1], ms[k]);
      var a :| Enabled(ms[k - 1], a) && ms[k] == Apply(ms[k - 1], a);
      ApplyExtends(ms[k - 1], a);
      ExtendsTransitive(ms[n].heap, ms[k - 1].heap, ms[k].heap);
    }
  }

  /** Once a promise is seen resolved, it keeps that result in every later state. */
  lemma ResultIsFinal(ms: seq<Machine>, n: nat, k: nat, p: Pid)
    requires IsRun(ms) && n <= k < |ms|
    requires Forest(ms[n].heap) && p in ms[n].heap && Observed(ms[n].heap, p).Resolved?
    ensures Forest(ms[k].heap) && p in ms[k].heap && Observed(ms[k].heap, p) == Observed(ms[n].heap, p)
  {
    RunExtends(ms, n, k);
  }

  /** When a user function given to bind returns `u`, from then on the promise that bind returned and `u` are
      observably the same in every later state. */
  lemma ProxyIsForever(ms: seq<Machine>, n: nat, k: nat, u: Pid)
    requires IsRun(ms) && n < k < |ms|
    requires Enabled(ms[n], ReturnPromise(u)) && ms[n + 1] == Apply(ms[n], ReturnPromise(u))
    ensures
      var c := ms[n].stack[|ms[n].stack| - 1].cb;
      && c in ms[n].cbs && HasOuter(ms[n].cbs[c].kind)
      && var outer, h := ms[n].cbs[c].kind.outer, ms[k].heap;
         Forest(h) && u in h && outer in h && Observed(h, u) == Observed(h, outer)
  {
    RunInv(ms, n);
    RunExtends(ms, n + 1, k);
    ReturnUnites(ms[n], u);
  }

  lemma ReturningFrame(m: Machine)
    requires Inv(m) && m.stack != [] && m.stack[|m.stack| - 1].UserBind?
    ensures
      var c := m.stack[|m.stack| - 1].cb;
      && c in m.cbs && HasOuter(m.cbs[c].kind) && m.cbs[c].kind.outer in m.heap
      && Forest(m.heap) && m.heap[Root(m.heap, m.cbs[c].kind.outer)].state.Pending?
  {
    hide QueueOk, ListsOk, JoinsOk, CbsOk, RanOk, Ranked;
    var f := m.stack[|m.stack| - 1];
    assert FrameOk(f, m.heap, m.cbs, m.live, m.owed);
  }

  /** The promise that the user function returns and the outer promise get the same root, or are both resolved with
      the same result. */
  lemma ReturnUnites(m: Machine, u: Pid)
    requires Inv(m) && Enabled(m, ReturnPromise(u))
    ensures
      var c := m.stack[|m.stack| - 1].cb;
      && c in m.cbs && HasOuter(m.cbs[c].kind)
      && var outer, h := m.cbs[c].kind.outer, Apply(m, ReturnPromise(u)).heap;
         Forest(h) && u in h && outer in h &&
         (Root(h, u) == Root(h, outer) || (Observed(h, u).Resolved? && Observed(h, u) == Observed(h, outer)))
  {
    hide Inv, Ranked, MakeIntoProxy;
    ReturningFrame(m);
    var c := m.stack[|m.stack| - 1].cb;
    ProxyUnites(Discharge(Pop(m), c), m.cbs[c].kind.outer, u);
  }

  lemma ProxyUnites(m: Machine, outer: Pid, u: Pid)
    requires Forest(m.heap) && u in m.heap && outer in m.heap && Observed(m.heap, outer).Pending?
    ensures
      var h := MakeIntoProxy(m, Root(m.heap, outer), u).heap;
      Forest(h) && u in h && outer in h &&
      (Root(h, u) == Root(h, outer) || (Observed(h, u).Resolved? && Observed(h, u) == Observed(h, outer)))
  {
    hide Ranked;
    var o, q := Root(m.heap, outer), Root(m.heap, u);
    if q == o {
    } else if m.heap[q].state.Resolved? {
      SameLinksRoots(m.heap, SetState(m.heap, o, m.heap[q].state));
    } else {
      MergeRoots(m.heap, q, o);
    }
  }
}
