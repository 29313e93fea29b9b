/** When npick resolves a promise that has become a proxy: which runs do that, and one of them.  With a = wait,
    c = task, t = npick [a; c] and a handler of c's rejection that returns t, resolving a makes npick cancel c, whose
    handler makes t a proxy. */
module PromiseNPick {
  import opened PromiseHeap
  import opened PromiseEngine
  import opened PromiseSafety
  import opened PromiseExtends
  import opened PromiseCaptured
  import opened PromiseRuns
  import opened PromiseGraph

  // ------------------------------------------------------------------------------------------
  // How a promise becomes a proxy
  // ------------------------------------------------------------------------------------------

  /** The function given to bind returns `u`, which stands for the pending promise `p`, and the outer promise stands
      for another one. */
  ghost predicate TurnsIntoProxy(m: Machine, u: Pid, p: Pid) {
    && Forest(m.heap) && u in m.heap && m.stack != [] && m.stack[|m.stack| - 1].UserBind?
    && var c := m.stack[|m.stack| - 1].cb;
       && c in m.cbs && HasOuter(m.cbs[c].kind) && m.cbs[c].kind.outer in m.heap
       && Root(m.heap, u) == p && Root(m.heap, m.cbs[c].kind.outer) != p && m.heap[p].state.Pending?
  }

  lemma MakeIntoProxyTurns(m: Machine, o: Pid, u: Pid, p: Pid)
    requires Forest(m.heap) && u in m.heap && o in m.heap && m.heap[o].state.Pending?
    requires p in m.heap && !m.heap[p].state.Proxy?
    ensures
      var h := MakeIntoProxy(m, o, u).heap;
      && p in h && (h[p].state.Proxy? <==> Root(m.heap, u) == p && o != p && m.heap[p].state.Pending?)
  {
    hide Ranked, Forest;
    var q := Root(m.heap, u);
    if q != o && m.heap[q].state.Resolved? {
      hide Resolve;
      ResolveGraph(m, o, m.heap[q].state.result, Never);
    }
  }

  lemma SameGraphProxies(h: Heap, h': Heap, p: Pid)
    requires SameGraph(h, h') && p in h
    ensures p in h' && (h'[p].state.Proxy? <==> h[p].state.Proxy?)
  {
  }

  lemma AddsProxies(h: Heap, o: Pid, cell: Promise, h': Heap, p: Pid)
    requires AddsPromise(h, o, cell, h') && p in h
    ensures p in h' && (h'[p].state.Proxy? <==> h[p].state.Proxy?)
  {
  }

  lemma ReturnTurns(m: Machine, u: Pid, p: Pid)
    requires Inv(m) && Enabled(m, ReturnPromise(u)) && p in m.heap && !m.heap[p].state.Proxy?
    ensures
      var h := Apply(m, ReturnPromise(u)).heap;
      p in h && (h[p].state.Proxy? <==> TurnsIntoProxy(m, u, p))
  {
    ReturningFrame(m);
    hide Inv, Ranked, MakeIntoProxy;
    var c := m.stack[|m.stack| - 1].cb;
    MakeIntoProxyTurns(Discharge(Pop(m), c), Root(m.heap, m.cbs[c].kind.outer), u, p);
  }

  /** An action makes a promise a proxy exactly if a function given to bind returns one that stands for it, and the
      outer promise stands for another. */
  lemma TurnsExactly(m: Machine, a: Action, p: Pid)
    requires Inv(m) && Enabled(m, a) && p in m.heap && !m.heap[p].state.Proxy?
    ensures p in Apply(m, a).heap
    ensures Apply(m, a).heap[p].state.Proxy? <==> a.ReturnPromise? && TurnsIntoProxy(m, a.u, p)
  {
    hide Inv, Ranked, SameGraph, AddsPromise, TurnsIntoProxy;
    var h' := Apply(m, a).heap;
    if Creates(a) {
      CreateGraph(m, a);
      if o, cell :| AddsPromise(m.heap, o, cell, h') {
        AddsProxies(m.heap, o, cell, h', p);
      } else {
        SameGraphProxies(m.heap, h', p);
      }
    } else if a.ReturnPromise? {
      ReturnTurns(m, a.u, p);
    } else if !a.Compress? {
      OtherGraph(m, a);
      SameGraphProxies(m.heap, h', p);
    }
  }

  lemma MakeIntoProxyKeepsProxy(m: Machine, o: Pid, u: Pid, p: Pid)
    requires Forest(m.heap) && u in m.heap && p in m.heap && m.heap[p].state.Proxy?
    ensures p in MakeIntoProxy(m, o, u).heap && MakeIntoProxy(m, o, u).heap[p].state.Proxy?
  {
    hide Ranked, Forest;
    var q := Root(m.heap, u);
    if q != o && m.heap[q].state.Resolved? {
      hide Resolve;
      ResolveGraph(m, o, m.heap[q].state.result, Never);
    }
  }

  /** A proxy stays one. */
  lemma ProxyStays(m: Machine, a: Action, p: Pid)
    requires Enabled(m, a) && p in m.heap && m.heap[p].state.Proxy?
    ensures p in Apply(m, a).heap && Apply(m, a).heap[p].state.Proxy?
  {
    hide Ranked, SameGraph, AddsPromise, MakeIntoProxy;
    var h' := Apply(m, a).heap;
    if Creates(a) {
      CreateGraph(m, a);
      if o, cell :| AddsPromise(m.heap, o, cell, h') {
        AddsProxies(m.heap, o, cell, h', p);
      } else {
        SameGraphProxies(m.heap, h', p);
      }
    } else if a.ReturnPromise? {
      var c := m.stack[|m.stack| - 1].cb;
      if c in m.cbs && HasOuter(m.cbs[c].kind) && m.cbs[c].kind.outer in m.heap {
        MakeIntoProxyKeepsProxy(Discharge(Pop(m), c), Root(m.heap, m.cbs[c].kind.outer), a.u, p);
      }
    } else if !a.Compress? {
      OtherGraph(m, a);
      SameGraphProxies(m.heap, h', p);
    }
  }

  // ------------------------------------------------------------------------------------------
  // Every run
  // ------------------------------------------------------------------------------------------

  /** The step that follows state `k` of a run is a return that makes `p` a proxy. */
  ghost predicate TurnsAt(ms: seq<Machine>, k: nat, p: Pid)
    requires k + 1 < |ms|
  {
    exists u :: Enabled(ms[k], ReturnPromise(u)) && ms[k + 1] == Apply(ms[k], ReturnPromise(u)) &&
                TurnsIntoProxy(ms[k], u, p)
  }

  lemma StepTurns(ms: seq<Machine>, k: nat, p: Pid)
    requires IsRun(ms) && k + 1 < |ms| && p in ms[k].heap
    ensures p in ms[k + 1].heap
    ensures ms[k + 1].heap[p].state.Proxy? <==> ms[k].heap[p].state.Proxy? || TurnsAt(ms, k, p)
  {
    hide Inv, Enabled, Apply, TurnsIntoProxy;
    assert Next(ms[k], ms[k + 1]);
    var a :| Enabled(ms[k], a) && ms[k + 1] == Apply(ms[k], a);
    if ms[k].heap[p].state.Proxy? {
      ProxyStays(ms[k], a, p);
    } else {
      EnabledInv(ms, k, a);
      TurnsExactly(ms[k], a, p);
      if u :| Enabled(ms[k], ReturnPromise(u)) && ms[k + 1] == Apply(ms[k], ReturnPromise(u)) &&
              TurnsIntoProxy(ms[k], u, p) {
        TurnsExactly(ms[k], ReturnPromise(u), p);
      }
    }
  }

  /** In every run, a promise that is not a proxy has become one later exactly if a return in between made it one. */
  lemma {:induction false} BecomesProxyExactly(ms: seq<Machine>, n: nat, k: nat, p: Pid)
    requires IsRun(ms) && n <= k < |ms| && p in ms[n].heap && !ms[n].heap[p].state.Proxy?
    ensures p in ms[k].heap
    ensures ms[k].heap[p].state.Proxy? <==> exists i :: n <= i < k && TurnsAt(ms, i, p)
    decreases k
  {
    hide TurnsAt, Next;
    if n < k {
      BecomesProxyExactly(ms, n, k - 1, p);
      StepTurns(ms, k - 1, p);
    }
  }

  lemma MissesIsProxy(m: Machine)
    requires CapturedOk(m) && m.stack != []
    requires
      var f := m.stack[|m.stack| - 1];
      f.PickCancel? && f.rest == [] && f.target.Captured?
    ensures
      var p := m.stack[|m.stack| - 1].target.p;
      p in m.heap && (Misses(m) <==> m.heap[p].state.Proxy?)
  {
    hide Ranked;
    CapturedTop(m.stack);
    var f := m.stack[|m.stack| - 1];
    assert (f.cb, f.target.p) in CapturedOf(m.stack);
  }

  /** In every run, npick fails to resolve the promise that it captured exactly if since then, while it was cancelling
      its inputs, a function given to bind returned a promise that stands for the captured one, the promise that this
      bind had returned standing for another. */
  lemma MissesExactly(ms: seq<Machine>, n: nat, k: nat, p: Pid)
    requires IsRun(ms) && n <= k < |ms| && p in ms[n].heap && !ms[n].heap[p].state.Proxy?
    requires ms[k].stack != []
    requires
      var f := ms[k].stack[|ms[k].stack| - 1];
      f.PickCancel? && f.rest == [] && f.target == Captured(p)
    ensures Misses(ms[k]) <==> exists i :: n <= i < k && TurnsAt(ms, i, p)
  {
    hide Inv, TurnsAt, CapturedOk, Misses;
    RunInv(ms, k);
    MissesIsProxy(ms[k]);
    BecomesProxyExactly(ms, n, k, p);
  }

  // ------------------------------------------------------------------------------------------
  // Such a run
  // ------------------------------------------------------------------------------------------

  const PICK := NPick(2, [0, 1])
  const HANDLER := Bind(3, true, true)
  const CALLBACKS := map[0 := Callback(PICK, 0), 1 := Callback(HANDLER, 0)]
  const DONE := Fulfilled(0)
  const CANCELED := Rejected(Canceled)
  const PICKED := PropagateToSeveral([0, 1])

  /** The engine goes on without a cancellation that rejects anything. */
  const GO := Engine(DONE, [])

  lemma InputsExist() returns (ms: seq<Machine>)
    ensures IsRun(ms)
    ensures
      var m := ms[|ms| - 1];
      && m == INITIAL.(heap := m.heap, initial := {0, 1}) && Forest(m.heap)
      && m.heap == map[0 := Promise(Pending, NotCancelable, [], []), 1 := Promise(Pending, CancelThisPromise, [], [])]
  {
    hide Ranked;
    InitialForest();
    RunSnoc([INITIAL], INITIAL, NewInitial(0, false));
    var m1 := Apply(INITIAL, NewInitial(0, false));
    RunSnoc([INITIAL] + [m1], m1, NewInitial(1, true));
    ms := [INITIAL] + [m1] + [Apply(m1, NewInitial(1, true))];
  }

  lemma PickIsCalled() returns (ms: seq<Machine>)
    ensures IsRun(ms)
    ensures
      var m := ms[|ms| - 1];
      && m.heap == map[0 := Promise(Pending, NotCancelable, [0], []), 1 := Promise(Pending, CancelThisPromise, [0], []),
                       2 := Promise(Pending, PICKED, [], [])]
      && m.cbs == map[0 := Callback(PICK, 0)] && m.live == {0} && m.joins == map[] && m.stack == [] && m.depth == 0
      && m.queue == [] && m.initial == {0, 1} && m.storage == 0 && !m.crashed && Forest(m.heap)
  {
    hide Ranked;
    var before := InputsExist();
    var m := before[|before| - 1];
    assert Root(m.heap, 0) == 0 && Root(m.heap, 1) == 1;
    assert AllPending(m.heap, [0, 1]) && Roots(m.heap, [0, 1]) == [0, 1];
    RunSnoc(before, m, NewChoice(0, [0, 1], PICK));
    var m' := Apply(m, NewChoice(0, [0, 1], PICK));
    var h := m.heap[2 := Promise(Pending, PICKED, [], [])];
    assert m'.heap == AddAll(h, [0, 1], seq(|Roots(m.heap, [0, 1])|, _ => 0));
    AddToBoth(h, seq(|Roots(m.heap, [0, 1])|, _ => 0));
    assert m'.heap.Keys == {0, 1, 2};
    ms := before + [m'];
  }

  lemma AddToBoth(h: Heap, cs: seq<Cid>)
    requires 0 in h && 1 in h && cs == [0, 0] && h[0].regular == [] && h[1].regular == []
    ensures AddAll(h, [0, 1], cs) == h[0 := h[0].(regular := [0])][1 := h[1].(regular := [0])]
  {
    var h1 := AddRegular(h, 0, 0);
    assert [0, 1][1..] == [1] && [0, 0][1..] == [0];
    assert h1[0].regular == [0] && h1[1].regular == [];
    var h2 := AddRegular(h1, 1, 0);
    assert h2[1].regular == [0];
    assert AddAll(h1, [1], [0]) == AddAll(h2, [1][1..], [0][1..]) == h2;
  }

  /** The handler is registered, and the first input is resolved. */
  lemma HandlerIsAdded() returns (ms: seq<Machine>)
    ensures IsRun(ms)
    ensures
      var m := ms[|ms| - 1];
      && m.heap == map[0 := Promise(Resolved(DONE), NotCancelable, [0], []),
                       1 := Promise(Pending, CancelThisPromise, [1, 0], []),
                       2 := Promise(Pending, PICKED, [], []), 3 := Promise(Pending, PropagateToOne(1), [], [])]
      && m.cbs == CALLBACKS && m.live == {0, 1} && m.stack == [Loop(0), Run(0, DONE)] && m.depth == 1
      && m.queue == [] && m.storage == 0 && !m.crashed && Forest(m.heap)
  {
    hide Ranked;
    var before := PickIsCalled();
    var m := before[|before| - 1];
    assert Root(m.heap, 1) == 1;
    RunSnoc(before, m, Attach(1, 1, HANDLER));
    var m1 := Apply(m, Attach(1, 1, HANDLER));
    assert m1.heap[1].regular == [1, 0] && m1.heap.Keys == {0, 1, 2, 3};
    assert Root(m1.heap, 0) == 0;
    RunSnoc(before + [m1], m1, Wakeup(0, DONE, false));
    var m2 := Apply(m1, Wakeup(0, DONE, false));
    assert m2.heap[0] == Promise(Resolved(DONE), NotCancelable, [0], []) && m2.heap.Keys == {0, 1, 2, 3};
    assert m2.stack == [Loop(0), Run(0, DONE)];
    ms := before + [m1] + [m2];
  }

  /** The engine goes on without a rejection: its innermost activity does what it does. */
  lemma Goes(ms: seq<Machine>, m: Machine, m': Machine)
    requires IsRun(ms) && ms[|ms| - 1] == m && !m.crashed && Forest(m.heap) && !UserTurn(m)
    requires m' == DoEngine(m, DONE, [])
    ensures IsRun(ms + [m']) && Forest(m'.heap)
  {
    hide DoEngine, Ranked, Forest;
    assert Enabled(m, GO) && Apply(m, GO) == m';
    hide Enabled, Apply;
    RunSnoc(ms, m, GO);
  }

  lemma CancelRunEnds(ms: seq<Machine>, m: Machine, s: seq<Frame>)
    requires IsRun(ms) && ms[|ms| - 1] == m && !m.crashed && Forest(m.heap) && m.stack == s + [CancelRun([])]
    ensures IsRun(ms + [m.(stack := s)])
  {
    hide Ranked, Forest;
    assert DoEngine(m, DONE, []) == m.(stack := s);
    Goes(ms, m, m.(stack := s));
  }

  const PICKING := [Loop(0), Run(0, DONE)]

  /** npick captures promise 2. */
  lemma PromiseIsCaptured() returns (ms: seq<Machine>)
    ensures IsRun(ms)
    ensures
      var m := ms[|ms| - 1];
      && m.heap == map[0 := Promise(Resolved(DONE), NotCancelable, [], []),
                       1 := Promise(Pending, CancelThisPromise, [1, 0], []),
                       2 := Promise(Pending, PICKED, [], []), 3 := Promise(Pending, PropagateToOne(1), [], [])]
      && m.cbs == CALLBACKS && m.live == {1} && m.depth == 1 && m.queue == [] && m.storage == 0 && !m.crashed
      && Forest(m.heap) && m.stack == PICKING + [PickCancel(0, [0, 1], DONE, Captured(2))]
  {
    hide Ranked;
    var before := HandlerIsAdded();
    var m := before[|before| - 1];
    assert Root(m.heap, 2) == 2;
    var m1 := DoEngine(m, DONE, []);
    assert m1.heap[0].regular == [] && m1.heap.Keys == {0, 1, 2, 3};
    Goes(before, m, m1);
    ms := before + [m1];
  }

  /** It cancels its first input, which is resolved, to no effect. */
  lemma FirstIsCanceled() returns (ms: seq<Machine>)
    ensures IsRun(ms)
    ensures
      var m := ms[|ms| - 1];
      && m.heap == map[0 := Promise(Resolved(DONE), NotCancelable, [], []),
                       1 := Promise(Pending, CancelThisPromise, [1, 0], []),
                       2 := Promise(Pending, PICKED, [], []), 3 := Promise(Pending, PropagateToOne(1), [], [])]
      && m.cbs == CALLBACKS && m.live == {1} && m.depth == 1 && m.queue == [] && m.storage == 0 && !m.crashed
      && Forest(m.heap) && m.stack == PICKING + [PickCancel(0, [1], DONE, Captured(2))]
  {
    hide Ranked;
    var before := PromiseIsCaptured();
    var m := before[|before| - 1];
    var m1 := DoEngine(m, DONE, []);
    assert MarkCanceled(m.heap, []) == m.heap;
    assert m1.stack == PICKING + [PickCancel(0, [1], DONE, Captured(2))] + [CancelRun([])];
    Goes(before, m, m1);
    CancelRunEnds(before + [m1], m1, PICKING + [PickCancel(0, [1], DONE, Captured(2))]);
    ms := before + [m1] + [m1.(stack := PICKING + [PickCancel(0, [1], DONE, Captured(2))])];
  }

  const WAITING := PICKING + [PickCancel(0, [], DONE, Captured(2)), CancelRun([])]

  lemma SecondIsMarked() returns (ms: seq<Machine>)
    ensures IsRun(ms)
    ensures
      var m := ms[|ms| - 1];
      && m.heap == map[0 := Promise(Resolved(DONE), NotCancelable, [], []),
                       1 := Promise(Resolved(CANCELED), CancelThisPromise, [1, 0], []),
                       2 := Promise(Pending, PICKED, [], []), 3 := Promise(Pending, PropagateToOne(1), [], [])]
      && m.cbs == CALLBACKS && m.live == {1} && m.depth == 1 && m.queue == [] && m.storage == 0 && !m.crashed
      && Forest(m.heap) && m.stack == PICKING + [PickCancel(0, [], DONE, Captured(2))] + [CancelRun([1])]
  {
    hide Ranked;
    var before := FirstIsCanceled();
    var m := before[|before| - 1];
    RunSnoc(before, m, Engine(DONE, [1]));
    var one: seq<Pid> := [1];
    assert one[1..] == [];
    var m1 := Apply(m, Engine(DONE, [1]));
    assert m1.stack == PICKING + [PickCancel(0, [], DONE, Captured(2))] + [CancelRun([1])];
    ms := before + [m1];
  }

  /** It cancels its second input. */
  lemma SecondIsCanceled() returns (ms: seq<Machine>)
    ensures IsRun(ms)
    ensures
      var m := ms[|ms| - 1];
      && m.heap == map[0 := Promise(Resolved(DONE), NotCancelable, [], []),
                       1 := Promise(Resolved(CANCELED), CancelThisPromise, [1, 0], []),
                       2 := Promise(Pending, PICKED, [], []), 3 := Promise(Pending, PropagateToOne(1), [], [])]
      && m.cbs == CALLBACKS && m.live == {1} && m.depth == 2 && m.queue == [] && m.storage == 0 && !m.crashed
      && Forest(m.heap) && m.stack == WAITING + [Loop(0), Run(1, CANCELED)]
  {
    hide Ranked;
    var before := SecondIsMarked();
    var m1 := before[|before| - 1];
    var one: seq<Pid> := [1];
    assert one[1..] == [];
    var m2 := DoEngine(m1, DONE, []);
    assert m2.stack == Push(Pop(m1), CancelRun(one[1..])).stack + [Loop(0), Run(1, CANCELED)];
    Goes(before, m1, m2);
    ms := before + [m2];
  }

  /** The handler is called and returns promise 2, which becomes a proxy of promise 3. */
  lemma ProxyIsMade() returns (ms: seq<Machine>)
    ensures IsRun(ms)
    ensures
      var m := ms[|ms| - 1];
      && m.heap.Keys == {0, 1, 2, 3} && m.heap[1] == Promise(Resolved(CANCELED), CancelThisPromise, [0], [])
      && m.heap[2].state == Proxy(3) && m.heap[3].state.Pending?
      && m.cbs == CALLBACKS && m.live == {} && m.depth == 2 && m.queue == [] && !m.crashed && Forest(m.heap)
      && m.stack == WAITING + [Loop(0), Run(1, CANCELED)]
  {
    hide Ranked;
    var before := SecondIsCanceled();
    var m := before[|before| - 1];
    var m1 := DoEngine(m, DONE, []);
    assert m1.heap[1].regular == [0] && m1.heap.Keys == {0, 1, 2, 3};
    assert m1.stack == m.stack + [UserBind(1)];
    Goes(before, m, m1);
    assert Root(m1.heap, 2) == 2 && Root(m1.heap, 3) == 3;
    RunSnoc(before + [m1], m1, ReturnPromise(2));
    var m2 := Apply(m1, ReturnPromise(2));
    assert m2.stack == m.stack;
    ms := before + [m1] + [m2];
  }

  /** The callbacks of the second input have run. */
  lemma CallbackGoesOn() returns (ms: seq<Machine>)
    ensures IsRun(ms)
    ensures
      var m := ms[|ms| - 1];
      && m.heap.Keys == {0, 1, 2, 3} && m.heap[2].state == Proxy(3) && m.heap[3].state.Pending?
      && m.cbs == CALLBACKS && !m.crashed && Forest(m.heap) && m.stack == WAITING
  {
    hide Ranked;
    var before := ProxyIsMade();
    var m := before[|before| - 1];
    var m1 := DoEngine(m, DONE, []);
    assert m1.heap[1].regular == [] && m1.heap.Keys == {0, 1, 2, 3} && m1.stack == m.stack;
    Goes(before, m, m1);
    var m2 := DoEngine(m1, DONE, []);
    assert m2 == m1.(stack := WAITING + [Loop(0)]);
    Goes(before + [m1], m1, m2);
    var m3 := DoEngine(m2, DONE, []);
    assert m3.stack == WAITING;
    Goes(before + [m1] + [m2], m2, m3);
    ms := before + [m1] + [m2] + [m3];
  }

  /** Back in its callback, npick resolves promise 2 and fails. */
  lemma NPickCrashes() returns (ms: seq<Machine>)
    ensures IsRun(ms) && ms[|ms| - 1].crashed && |ms| > 1 && Misses(ms[|ms| - 2])
  {
    hide Ranked;
    var before := CallbackGoesOn();
    var m := before[|before| - 1];
    var s := PICKING + [PickCancel(0, [], DONE, Captured(2))];
    assert WAITING == s + [CancelRun([])];
    CancelRunEnds(before, m, s);
    var m1 := m.(stack := s);
    assert Root(m1.heap, 2) == Root(m1.heap, 3) == 3;
    var m2 := DoEngine(m1, DONE, []);
    Goes(before + [m1], m1, m2);
    ms := before + [m1] + [m2];
  }
}
