/** What each action of the promise engine means for whoever holds promises, listed by what it promises: which
    observations change and to what, who runs next and in which sequence-associated storage. */
module PromiseLaws {
  import opened PromiseHeap
  import opened PromiseEngine
  import opened PromiseSafety
  import opened PromiseExtends

  /** Every promise is observed as before. */
  ghost predicate SameObserved(h: Heap, h': Heap) {
    && Forest(h) && Forest(h')
    && forall p :: p in h ==> p in h' && Observed(h', p) == Observed(h, p)
  }

  /** Exactly the promises that stand for `x` are now observed as resolved with `r`. */
  ghost predicate ResolvesExactly(h: Heap, h': Heap, x: Pid, r: Result) {
    && Forest(h) && Forest(h')
    && forall p :: p in h ==> p in h' && Observed(h', p) == if Root(h, p) == x then Resolved(r) else Observed(h, p)
  }

  /** A resolution loop has been entered on top of `s`, and is about to run the callbacks of `x`. */
  ghost predicate RunsNext(m: Machine, m': Machine, s: seq<Frame>, x: Pid, r: Result) {
    m'.stack == s + [Loop(m.storage), Run(x, r)] && m'.depth == m.depth + 1 && m'.queue == m.queue
  }

  /** The callbacks of `x` have been deferred. */
  ghost predicate IsDeferred(m: Machine, m': Machine, x: Pid, r: Result) {
    m'.stack == m.stack && m'.depth == m.depth && m'.queue == m.queue + [(x, r)]
  }

  // ------------------------------------------------------------------------------------------
  // Resolving
  // ------------------------------------------------------------------------------------------

  lemma SettleObserved(h: Heap, x: Pid, r: Result)
    requires Forest(h) && x in h && h[x].state.Pending?
    ensures ResolvesExactly(h, SetState(h, x, Resolved(r)), x, r)
  {
    hide Ranked;
    SameLinksRoots(h, SetState(h, x, Resolved(r)));
  }

  lemma SameLinksObserved(h: Heap, h': Heap)
    requires Forest(h) && SameLinks(h, h') && forall p :: p in h ==> h'[p].state == h[p].state
    ensures SameObserved(h, h')
  {
    hide Ranked;
    SameLinksRoots(h, h');
  }

  lemma ResolveLaw(m: Machine, x: Pid, r: Result, d: Deferring)
    requires Forest(m.heap) && x in m.heap && m.heap[x].state.Pending?
    ensures
      var m' := Resolve(m, x, r, d);
      && ResolvesExactly(m.heap, m'.heap, x, r) && m'.storage == m.storage
      && if d.FromDepth? && m.depth >= d.depth then IsDeferred(m, m', x, r) else RunsNext(m, m', m.stack, x, r)
  {
    hide Ranked, Forest, ResolvesExactly;
    SettleObserved(m.heap, x, r);
  }

  /** `wakeup` and `wakeup_later`.  A promise that is resolved already is left alone; otherwise exactly the promises
      that stand for the same one are from now on observed with the given result, and the callbacks are deferred if
      the caller asked for it inside a resolution loop, else run at once. */
  lemma WakeupLaw(m: Machine, p: Pid, r: Result, later: bool)
    requires Enabled(m, Wakeup(p, r, later))
    ensures
      var m', x := Apply(m, Wakeup(p, r, later)), Root(m.heap, p);
      if Observed(m.heap, p).Resolved? then m' == m
      else
        && ResolvesExactly(m.heap, m'.heap, x, r) && m'.storage == m.storage
        && if later && m.depth >= 1 then IsDeferred(m, m', x, r) else RunsNext(m, m', m.stack, x, r)
  {
    hide Ranked, ResolvesExactly, Resolve;
    if !Observed(m.heap, p).Resolved? {
      ResolveLaw(m, Root(m.heap, p), r, if later then FromDepth(1) else Never);
    }
  }

  // ------------------------------------------------------------------------------------------
  // Running a callback
  // ------------------------------------------------------------------------------------------

  /** The innermost activity runs the callbacks of `rid`, all cancel callbacks that are to run have run, and the next
      regular one is `c`. */
  ghost predicate NextIs(m: Machine, rid: Pid, r: Result, c: Cid) {
    && m.stack != [] && m.stack[|m.stack| - 1] == Run(rid, r) && rid in m.heap
    && !(r == Rejected(Canceled) && m.heap[rid].cancel != [])
    && m.heap[rid].regular != [] && m.heap[rid].regular[0] == c
  }

  /** The callback is to run: its cell, if it sits in one, is filled. */
  ghost predicate IsFilled(m: Machine, c: Cid) {
    c in m.cbs && (Removable(m.cbs[c].kind) ==> c in m.live)
  }

  /** A `bind`, `catch`, `try_bind` or `map` whose function is for this kind of result. */
  predicate CallsUser(k: Kind, r: Result) {
    || (k.Bind? && ((r.Fulfilled? && k.onOk) || (r.Rejected? && k.onErr)))
    || (k.Map? && r.Fulfilled?)
  }

  /** A callback that hands the result on as it is. */
  predicate PassesOn(k: Kind, r: Result) {
    || ((k.Bind? || k.Map?) && !CallsUser(k, r))
    || k.Forward? || k.Choose?
  }

  /** `m` without the callback that is taken from the list of `rid`. */
  ghost function Taken(m: Machine, rid: Pid): Machine
    requires rid in m.heap && m.heap[rid].regular != []
  {
    m.(heap := m.heap[rid := m.heap[rid].(regular := m.heap[rid].regular[1..])])
  }

  lemma TakenObserved(m: Machine, rid: Pid)
    requires Forest(m.heap) && rid in m.heap && m.heap[rid].regular != []
    ensures SameObserved(m.heap, Taken(m, rid).heap)
    ensures forall p :: p in m.heap ==> Root(Taken(m, rid).heap, p) == Root(m.heap, p)
  {
    hide Ranked;
    SameLinksRoots(m.heap, Taken(m, rid).heap);
    SameLinksObserved(m.heap, Taken(m, rid).heap);
  }

  /** A live callback owes its outer promise, which is pending. */
  lemma LiveOwes(m: Machine, c: Cid)
    requires Inv(m) && c in m.live && c in m.cbs && HasOuter(m.cbs[c].kind)
    ensures Forest(m.heap) && m.cbs[c].kind.outer in m.heap && Observed(m.heap, m.cbs[c].kind.outer).Pending?
  {
    hide JoinsOk, ListsOk, FramesOk, QueueOk, RanOk, Ranked;
    assert c in m.owed && m.owed[c] == m.cbs[c].kind.outer;
  }

  lemma NextIsLive(m: Machine, rid: Pid, r: Result, c: Cid)
    requires Inv(m) && NextIs(m, rid, r, c) && IsFilled(m, c)
    ensures c in m.live && m.heap[rid].state == Resolved(r) && Forest(m.heap) && !UserTurn(m)
  {
    assert FrameOk(m.stack[|m.stack| - 1], m.heap, m.cbs, m.live, m.owed);
    assert m.heap[rid].regular[0] == c;
    hide OwedOk, JoinsOk, CbsOk, FramesOk, QueueOk, RanOk;
  }

  lemma DispatchTaken(m: Machine, rid: Pid, r: Result, c: Cid, computed: Result, order: seq<Pid>)
    requires Enabled(m, Engine(computed, order)) && NextIs(m, rid, r, c) && IsFilled(m, c)
    ensures Forest(Taken(m, rid).heap) && Apply(m, Engine(computed, order)) == Dispatch(Taken(m, rid), c, r, computed)
  {
    hide Ranked, Dispatch;
    SameLinksForest(m.heap, Taken(m, rid).heap);
  }

  /** Functions given to `bind`, `catch`, `try_bind` and `map` are called for the results they are for, in the storage
      that was saved, and nothing is observed to change. */
  lemma UserIsCalled(m: Machine, rid: Pid, r: Result, c: Cid, computed: Result, order: seq<Pid>)
    requires Inv(m) && Enabled(m, Engine(computed, order)) && NextIs(m, rid, r, c) && IsFilled(m, c)
    requires CallsUser(m.cbs[c].kind, r)
    ensures
      var m' := Apply(m, Engine(computed, order));
      && m'.stack == m.stack + [if m.cbs[c].kind.Bind? then UserBind(c) else UserMap(c)]
      && m'.storage == m.cbs[c].storage && SameObserved(m.heap, m'.heap)
      && m'.depth == m.depth && m'.queue == m.queue && m'.ran == m.ran + [c]
  {
    hide Inv, Enabled, Apply, SameObserved;
    DispatchIs(m, rid, r, c, computed, order);
    TakenObserved(m, rid);
  }

  lemma DispatchIs(m: Machine, rid: Pid, r: Result, c: Cid, computed: Result, order: seq<Pid>)
    requires Inv(m) && Enabled(m, Engine(computed, order)) && NextIs(m, rid, r, c) && IsFilled(m, c)
    ensures Forest(m.heap) && Forest(Taken(m, rid).heap)
    ensures Apply(m, Engine(computed, order)) == Dispatch(Taken(m, rid), c, r, computed)
  {
    hide Dispatch, Taken;
    NextIsLive(m, rid, r, c);
    DispatchTaken(m, rid, r, c, computed, order);
  }

  /** Resolving the outer promise after the callback has been taken from its list. */
  lemma PassLaw(m: Machine, m1: Machine, rid: Pid, t: Cid, outer: Pid, r: Result)
    requires Forest(m.heap) && rid in m.heap && m.heap[rid].regular != [] && m.heap[rid].state.Resolved?
    requires m1.heap == Taken(m, rid).heap && m1.stack == m.stack && m1.depth == m.depth && m1.queue == m.queue
    requires m1.storage == m.storage && outer in m.heap && Observed(m.heap, outer).Pending?
    ensures Forest(m1.heap)
    ensures
      var m', x := ResolveOuter(m1, t, outer, r), Root(m.heap, outer);
      ResolvesExactly(m.heap, m'.heap, x, r) && RunsNext(m, m', m.stack, x, r) && m'.storage == m.storage
  {
    hide Ranked, Forest, Root, Resolve, Taken;
    TakenObserved(m, rid);
    ResolveLaw(Discharge(m1, t), Root(m1.heap, outer), r, Never);
    TakenExactly(m.heap, m1.heap, ResolveOuter(m1, t, outer, r).heap, Root(m.heap, outer), r);
    hide ResolvesExactly, SameObserved;
  }

  lemma TakenExactly(h: Heap, h1: Heap, h': Heap, x: Pid, r: Result)
    requires SameObserved(h, h1) && (forall p :: p in h ==> Root(h1, p) == Root(h, p)) && ResolvesExactly(h1, h', x, r)
    ensures ResolvesExactly(h, h', x, r)
  {
    hide Ranked, Forest, Root, Observed;
  }

  /** Otherwise the result is handed on: exactly the promises that stand for the outer one are from now on observed with
      it, no user function is called, and the callbacks of the outer promise are next. */
  lemma ResultIsPassed(m: Machine, rid: Pid, r: Result, c: Cid, computed: Result, order: seq<Pid>)
    requires Inv(m) && Enabled(m, Engine(computed, order)) && NextIs(m, rid, r, c) && IsFilled(m, c)
    requires PassesOn(m.cbs[c].kind, r) || m.cbs[c].kind.NChoose?
    ensures Forest(m.heap) && m.cbs[c].kind.outer in m.heap
    ensures
      var m', x := Apply(m, Engine(computed, order)), Root(m.heap, m.cbs[c].kind.outer);
      var result := if m.cbs[c].kind.NChoose? then computed else r;
      && ResolvesExactly(m.heap, m'.heap, x, result) && RunsNext(m, m', m.stack, x, result)
      && m'.storage == m.storage && m'.ran == m.ran + [c]
  {
    hide Inv, Enabled, Apply, ResolvesExactly, RunsNext, Ranked;
    DispatchIs(m, rid, r, c, computed, order);
    NextIsLive(m, rid, r, c);
    LiveOwes(m, c);
    var m1 := Taken(m, rid);
    var result := if m.cbs[c].kind.NChoose? then computed else r;
    PassLaw(m, m1.(live := m1.live - {c}, ran := m1.ran + [c]), rid, c, m.cbs[c].kind.outer, result);
    ResolveOuterRan(m1.(live := m1.live - {c}, ran := m1.ran + [c]), c, m.cbs[c].kind.outer, result);
    hide ResolveOuter, Taken;
  }

  lemma ResolveOuterRan(m: Machine, t: Cid, outer: Pid, r: Result)
    requires Forest(m.heap)
    ensures ResolveOuter(m, t, outer, r).ran == m.ran
  {
    hide Ranked;
  }

  /** Callbacks of `on_success` and the like are called in the storage that was saved. */
  lemma PlainIsCalled(m: Machine, rid: Pid, r: Result, c: Cid, computed: Result, order: seq<Pid>)
    requires Inv(m) && Enabled(m, Engine(computed, order)) && NextIs(m, rid, r, c) && IsFilled(m, c)
    requires m.cbs[c].kind.Plain?
    ensures
      var m' := Apply(m, Engine(computed, order));
      && m'.stack == m.stack + [User] && m'.storage == m.cbs[c].storage && SameObserved(m.heap, m'.heap)
      && m'.depth == m.depth && m'.queue == m.queue && m'.ran == m.ran + [c]
  {
    hide Inv, Enabled, Apply, SameObserved;
    DispatchIs(m, rid, r, c, computed, order);
    TakenObserved(m, rid);
  }

  /** `pick` keeps the result and `npick` what it collects, to resolve the outer promise when all inputs have been
      cancelled. */
  lemma PickStarts(m: Machine, rid: Pid, r: Result, c: Cid, computed: Result, order: seq<Pid>)
    requires Inv(m) && Enabled(m, Engine(computed, order)) && NextIs(m, rid, r, c) && IsFilled(m, c)
    requires m.cbs[c].kind.Pick? || m.cbs[c].kind.NPick?
    ensures Forest(m.heap) && m.cbs[c].kind.outer in m.heap
    ensures
      var m', k := Apply(m, Engine(computed, order)), m.cbs[c].kind;
      && m'.stack == m.stack + [if k.Pick? then PickCancel(c, k.ps, r, AtEnd)
                                else PickCancel(c, k.ps, computed, Captured(Root(m.heap, k.outer)))]
      && SameObserved(m.heap, m'.heap) && m'.storage == m.storage && m'.ran == m.ran + [c]
  {
    hide Inv, Enabled, Apply, SameObserved, Ranked;
    DispatchIs(m, rid, r, c, computed, order);
    NextIsLive(m, rid, r, c);
    LiveOwes(m, c);
    TakenObserved(m, rid);
  }

  /** An emptied cell is passed over. */
  lemma EmptiedIsSkipped(m: Machine, rid: Pid, r: Result, c: Cid, computed: Result, order: seq<Pid>)
    requires Inv(m) && Enabled(m, Engine(computed, order)) && NextIs(m, rid, r, c) && c in m.cbs && !IsFilled(m, c)
    ensures
      var m' := Apply(m, Engine(computed, order));
      m'.stack == m.stack && m'.ran == m.ran && m'.storage == m.storage && SameObserved(m.heap, m'.heap)
  {
    hide Ranked, SameObserved, Dispatch;
    TakenObserved(m, rid);
  }

  /** Cancel callbacks of a canceled promise run before its regular ones, one after the other, in the storage that was
      saved. */
  lemma CancelCallbackIsCalled(m: Machine, rid: Pid, computed: Result, order: seq<Pid>)
    requires Enabled(m, Engine(computed, order)) && m.stack != [] && rid in m.heap && m.heap[rid].cancel != []
    requires m.stack[|m.stack| - 1] == Run(rid, Rejected(Canceled))
    ensures
      var m' := Apply(m, Engine(computed, order));
      && m'.stack == m.stack + [User] && m'.storage == m.heap[rid].cancel[0] && SameObserved(m.heap, m'.heap)
      && m'.heap[rid] == m.heap[rid].(cancel := m.heap[rid].cancel[1..]) && m'.ran == m.ran
  {
    hide Ranked, Dispatch;
    var h' := m.heap[rid := m.heap[rid].(cancel := m.heap[rid].cancel[1..])];
    SameLinksObserved(m.heap, h');
    hide SameObserved, Forest;
  }

  /** When no callback is left to run, the activity ends. */
  lemma RunEnds(m: Machine, rid: Pid, r: Result, computed: Result, order: seq<Pid>)
    requires Enabled(m, Engine(computed, order)) && m.stack != [] && m.stack[|m.stack| - 1] == Run(rid, r)
    requires rid in m.heap && m.heap[rid].regular == [] && !(r == Rejected(Canceled) && m.heap[rid].cancel != [])
    ensures Apply(m, Engine(computed, order)) == m.(stack := m.stack[..|m.stack| - 1])
  {
    hide Ranked, Dispatch;
  }

  /** The outermost loop runs the oldest deferred callbacks before it is left.  Leaving a loop restores the storage, and
      nothing is deferred any longer than the outermost one. */
  lemma LoopLaw(m: Machine, snapshot: Storage, computed: Result, order: seq<Pid>)
    requires Inv(m) && Enabled(m, Engine(computed, order)) && m.stack != []
    requires m.stack[|m.stack| - 1] == Loop(snapshot)
    ensures
      var m' := Apply(m, Engine(computed, order));
      && m'.heap == m.heap && m'.ran == m.ran
      && if m.queue != [] && m.depth == 1 then
           && m'.stack == m.stack + [Run(m.queue[0].0, m.queue[0].1)] && [m.queue[0]] + m'.queue == m.queue
           && m'.depth == m.depth && m'.storage == m.storage
         else
           && m'.stack == m.stack[..|m.stack| - 1] && m'.queue == m.queue
           && m'.depth == m.depth - 1 && m'.storage == snapshot && (m'.depth == 0 ==> m'.queue == [])
  {
    hide OwedOk, CbsOk, JoinsOk, ListsOk, FramesOk, RanOk, Ranked;
  }

  // ------------------------------------------------------------------------------------------
  // Join
  // ------------------------------------------------------------------------------------------

  /** The result that `join` has kept, after it has looked at one more: the first rejection stays. */
  predicate KeepsFirstRejection(before: Result, r: Result, after: Result) {
    after == if before.Rejected? then before else if r.Rejected? then r else before
  }

  /** A callback of `join` counts down and keeps the first rejection.  The last one resolves the outer promise with what
      has been kept; the others change no observation. */
  lemma JoinCounts(m: Machine, rid: Pid, r: Result, c: Cid, computed: Result, order: seq<Pid>)
    requires Inv(m) && Enabled(m, Engine(computed, order)) && NextIs(m, rid, r, c) && IsFilled(m, c)
    requires m.cbs[c].kind.JoinMember?
    ensures Forest(m.heap) && m.cbs[c].kind.join in m.joins && m.joins[m.cbs[c].kind.join].outer in m.heap
    ensures
      var m', k := Apply(m, Engine(computed, order)), m.cbs[c].kind.join;
      var j := m.joins[k];
      && j.count > 0 && m'.joins.Keys == m.joins.Keys
      && (forall i :: i in m.joins && i != k ==> m'.joins[i] == m.joins[i])
      && m'.joins[k].outer == j.outer && m'.joins[k].count == j.count - 1
      && KeepsFirstRejection(j.result, r, m'.joins[k].result) && m'.ran == m.ran + [c] && m'.storage == m.storage
      && if j.count > 1 then SameObserved(m.heap, m'.heap) && m'.stack == m.stack && m'.queue == m.queue
         else ResolvesExactly(m.heap, m'.heap, Root(m.heap, j.outer), m'.joins[k].result) &&
              RunsNext(m, m', m.stack, Root(m.heap, j.outer), m'.joins[k].result)
  {
    hide Inv, Enabled, Apply, ResolvesExactly, RunsNext, SameObserved, Ranked;
    DispatchIs(m, rid, r, c, computed, order);
    NextIsLive(m, rid, r, c);
    JoinOwes(m, c);
    TakenObserved(m, rid);
    var m1 := Taken(m, rid);
    var k := m.cbs[c].kind.join;
    var join := JoinUpdate(m.joins[k], r);
    var m2 := m1.(live := m1.live - {c}, ran := m1.ran + [c], joins := m.joins[k := join]);
    PassLaw(m, m2, rid, k, join.outer, join.result);
    ResolveOuterRan(m2, k, join.outer, join.result);
    ResolveOuterJoins(m2, k, join.outer, join.result);
    hide ResolveOuter;
  }

  lemma ResolveOuterJoins(m: Machine, t: Cid, outer: Pid, r: Result)
    requires Forest(m.heap)
    ensures ResolveOuter(m, t, outer, r).joins == m.joins
  {
    hide Ranked;
  }

  lemma JoinOwes(m: Machine, c: Cid)
    requires Inv(m) && c in m.live && c in m.cbs && m.cbs[c].kind.JoinMember?
    ensures
      var k := m.cbs[c].kind.join;
      && Forest(m.heap) && k in m.joins && m.joins[k].count > 0 && m.joins[k].outer in m.heap
      && Observed(m.heap, m.joins[k].outer).Pending?
  {
    hide ListsOk, FramesOk, QueueOk, RanOk, Ranked;
    var k := m.cbs[c].kind.join;
    assert c in Members(m.cbs, m.live, k);
    assert k in m.owed && m.owed[k] == m.joins[k].outer;
  }

  // ------------------------------------------------------------------------------------------
  // User functions return
  // ------------------------------------------------------------------------------------------

  /** The callback whose user function is running, and what it waits for. */
  lemma FrameOwes(m: Machine)
    requires Inv(m) && m.stack != [] && HasToken(m.stack[|m.stack| - 1])
    ensures
      var c := m.stack[|m.stack| - 1].cb;
      && c in m.cbs && HasOuter(m.cbs[c].kind) && m.cbs[c].kind.outer in m.heap
      && Forest(m.heap) && Observed(m.heap, m.cbs[c].kind.outer).Pending?
  {
    hide QueueOk, ListsOk, JoinsOk, CbsOk, RanOk, Ranked;
    var f := m.stack[|m.stack| - 1];
    assert FrameOk(f, m.heap, m.cbs, m.live, m.owed);
  }

  /** The function given to `map` returns a value, or raises: exactly the promises that stand for the outer one are from
      now on observed with it. */
  lemma MapReturns(m: Machine, r: Result)
    requires Inv(m) && Enabled(m, ReturnValue(r))
    ensures
      var c := m.stack[|m.stack| - 1].cb;
      && c in m.cbs && HasOuter(m.cbs[c].kind) && m.cbs[c].kind.outer in m.heap && Forest(m.heap)
      && var m', x := Apply(m, ReturnValue(r)), Root(m.heap, m.cbs[c].kind.outer);
         && ResolvesExactly(m.heap, m'.heap, x, r) && RunsNext(m, m', m.stack[..|m.stack| - 1], x, r)
         && m'.storage == m.storage
  {
    hide Inv, Ranked, Resolve, ResolvesExactly;
    FrameOwes(m);
    var c := m.stack[|m.stack| - 1].cb;
    ResolveLaw(Discharge(Pop(m), c), Root(m.heap, m.cbs[c].kind.outer), r, Never);
  }

  /** The function given to `bind` returns a promise that is resolved: the outer promise gets its result. */
  lemma BindReturnsResolved(m: Machine, u: Pid)
    requires Inv(m) && Enabled(m, ReturnPromise(u)) && Observed(m.heap, u).Resolved?
    ensures
      var c := m.stack[|m.stack| - 1].cb;
      && c in m.cbs && HasOuter(m.cbs[c].kind) && m.cbs[c].kind.outer in m.heap
      && var m', x, r := Apply(m, ReturnPromise(u)), Root(m.heap, m.cbs[c].kind.outer), Observed(m.heap, u).result;
         && ResolvesExactly(m.heap, m'.heap, x, r) && RunsNext(m, m', m.stack[..|m.stack| - 1], x, r)
         && m'.storage == m.storage
  {
    hide Inv, Ranked, Resolve, ResolvesExactly;
    FrameOwes(m);
    var c := m.stack[|m.stack| - 1].cb;
    ResolveLaw(Discharge(Pop(m), c), Root(m.heap, m.cbs[c].kind.outer), Observed(m.heap, u).result, Never);
  }

  /** What stood for `q` stands for `o` now, which has the callbacks of both, its own ones first, and is cancelled as
      `q` was; nothing is observed to change. */
  ghost predicate IsMerged(h: Heap, h': Heap, q: Pid, o: Pid) {
    && SameObserved(h, h') && q in h && o in h
    && (forall p :: p in h ==> Root(h', p) == if Root(h, p) == q then o else Root(h, p))
    && (forall p :: p in h && p != o && p != q ==> h'[p] == h[p])
    && h'[o].how == h[q].how && (q == o ==> h' == h)
    && (q != o ==> h'[o].regular == h[o].regular + h[q].regular && h'[o].cancel == h[o].cancel + h[q].cancel)
  }

  /** It returns a promise that is pending: that one and the outer one are merged. */
  lemma BindReturnsPending(m: Machine, u: Pid)
    requires Inv(m) && Enabled(m, ReturnPromise(u)) && Observed(m.heap, u).Pending?
    ensures
      var c := m.stack[|m.stack| - 1].cb;
      && c in m.cbs && HasOuter(m.cbs[c].kind) && m.cbs[c].kind.outer in m.heap
      && var m' := Apply(m, ReturnPromise(u));
         && IsMerged(m.heap, m'.heap, Root(m.heap, u), Root(m.heap, m.cbs[c].kind.outer))
         && m'.stack == m.stack[..|m.stack| - 1]
         && m'.storage == m.storage && m'.depth == m.depth && m'.queue == m.queue
  {
    hide Inv, Ranked, MakeIntoProxy, IsMerged;
    FrameOwes(m);
    var c := m.stack[|m.stack| - 1].cb;
    MakeIntoProxyLaw(Discharge(Pop(m), c), Root(m.heap, m.cbs[c].kind.outer), u);
  }

  lemma MakeIntoProxyLaw(m: Machine, o: Pid, u: Pid)
    requires Forest(m.heap) && u in m.heap && o in m.heap && m.heap[o].state.Pending? && Observed(m.heap, u).Pending?
    ensures
      var m' := MakeIntoProxy(m, o, u);
      IsMerged(m.heap, m'.heap, Root(m.heap, u), o) && m' == m.(heap := m'.heap)
  {
    hide Ranked, Forest, SameObserved;
    var q := Root(m.heap, u);
    if q != o {
      MergeRoots(m.heap, q, o);
      MergeObserved(m.heap, q, o);
    } else {
      SelfObserved(m.heap);
    }
  }

  lemma SelfObserved(h: Heap)
    requires Forest(h)
    ensures SameObserved(h, h)
  {
  }

  lemma MergeObserved(h: Heap, q: Pid, o: Pid)
    requires Forest(h) && q in h && o in h && q != o && h[q].state.Pending? && h[o].state.Pending?
    ensures SameObserved(h, Merge(h, q, o))
  {
    hide Ranked, Forest, Root;
    MergeRoots(h, q, o);
  }

  // ------------------------------------------------------------------------------------------
  // Cancelling
  // ------------------------------------------------------------------------------------------

  /** Exactly the promises that stand for one in `order` are from now on observed as canceled. */
  ghost predicate CancelsExactly(h: Heap, h': Heap, order: seq<Pid>) {
    && Forest(h) && Forest(h')
    && forall p :: p in h ==>
         p in h' && Observed(h', p) == if Root(h, p) in order then Resolved(Rejected(Canceled)) else Observed(h, p)
  }

  lemma MarkObserved(h: Heap, order: seq<Pid>)
    requires Forest(h) && CancelTargets(h, order)
    ensures CancelsExactly(h, MarkCanceled(h, order), order)
  {
    hide Ranked;
    SameLinksRoots(h, MarkCanceled(h, order));
  }

  /** `cancel`: its targets are rejected together, and then their callbacks are to run in that order. */
  lemma CancelLaw(m: Machine, order: seq<Pid>)
    requires Enabled(m, CancelPromise(order))
    ensures
      var m' := Apply(m, CancelPromise(order));
      && CancelsExactly(m.heap, m'.heap, order) && m'.stack == m.stack + [CancelRun(order)]
      && m'.storage == m.storage && m'.depth == m.depth && m'.queue == m.queue
  {
    hide Ranked, MarkCanceled, CancelTargets;
    MarkObserved(m.heap, order);
  }

  /** The callbacks of the first target run at once, before those of the others. */
  lemma CancelGoesOn(m: Machine, rids: seq<Pid>, computed: Result, order: seq<Pid>)
    requires Enabled(m, Engine(computed, order)) && m.stack != [] && m.stack[|m.stack| - 1] == CancelRun(rids)
    ensures
      var m', s := Apply(m, Engine(computed, order)), m.stack[..|m.stack| - 1];
      && m'.heap == m.heap && m'.ran == m.ran
      && if rids == [] then m'.stack == s && m'.storage == m.storage && m'.depth == m.depth && m'.queue == m.queue
         else RunsNext(m, m', s + [CancelRun(rids[1..])], rids[0], Rejected(Canceled))
  {
    hide Ranked, Forest, RunStep, LoopStep, PickStep, CancelTargets;
    if rids != [] {
      assert Pop(m).stack + [CancelRun(rids[1..])] == m.stack[..|m.stack| - 1] + [CancelRun(rids[1..])];
    }
  }

  /** `pick` and `npick` cancel one input after the other, keeping the result. */
  lemma PickGoesOn(m: Machine, f: Frame, computed: Result, order: seq<Pid>)
    requires Enabled(m, Engine(computed, order)) && m.stack != [] && m.stack[|m.stack| - 1] == f
    requires f.PickCancel? && f.rest != []
    ensures
      var m' := Apply(m, Engine(computed, order));
      && m'.stack == m.stack[..|m.stack| - 1] + [f.(rest := f.rest[1..])] + [CancelRun(order)]
      && CancelsExactly(m.heap, m'.heap, order) && m'.ran == m.ran
  {
    hide Ranked, MarkCanceled, CancelTargets;
    MarkObserved(m.heap, order);
  }

  /** In the end they resolve the outer promise with it. */
  lemma PickEnds(m: Machine, f: Frame, computed: Result, order: seq<Pid>)
    requires Inv(m) && Enabled(m, Engine(computed, order)) && m.stack != [] && m.stack[|m.stack| - 1] == f
    requires f.PickCancel? && f.rest == [] && !Misses(m)
    ensures
      && f.cb in m.cbs && HasOuter(m.cbs[f.cb].kind) && m.cbs[f.cb].kind.outer in m.heap && Forest(m.heap)
      && var m', x := Apply(m, Engine(computed, order)), Root(m.heap, m.cbs[f.cb].kind.outer);
         && ResolvesExactly(m.heap, m'.heap, x, f.picked)
         && RunsNext(m, m', m.stack[..|m.stack| - 1], x, f.picked) && m'.ran == m.ran
  {
    hide Inv, Ranked, ResolvesExactly, Resolve;
    FrameOwes(m);
    var x := Root(m.heap, m.cbs[f.cb].kind.outer);
    ResolveLaw(Discharge(Pop(m), f.cb), x, f.picked, Never);
    ResolveRan(Discharge(Pop(m), f.cb), x, f.picked);
  }

  lemma ResolveRan(m: Machine, p: Pid, r: Result)
    ensures Resolve(m, p, r, Never).ran == m.ran
  {
  }

  // ------------------------------------------------------------------------------------------
  // New promises and new callbacks
  // ------------------------------------------------------------------------------------------

  /** Nothing runs, and the storage stays. */
  ghost predicate RunsNothing(m: Machine, m': Machine) {
    && m'.stack == m.stack && m'.queue == m.queue && m'.depth == m.depth && m'.storage == m.storage && m'.ran == m.ran
  }

  /** A new promise that nobody else is affected by. */
  ghost predicate IsCreated(h: Heap, h': Heap, o: Pid, s: State, how: HowToCancel) {
    SameObserved(h, h') && o !in h && o in h' && h'[o] == Promise(s, how, [], []) && Observed(h', o) == s
  }

  /** Callback `c` is registered in front of those of `x`, with the storage of the moment, and no other list changes. */
  ghost predicate IsRegistered(m: Machine, m': Machine, x: Pid, c: Cid, kind: Kind) {
    && c !in m.cbs && c in m'.cbs && m'.cbs[c] == Callback(kind, m.storage) && c in m'.live
    && x in m.heap && x in m'.heap && m'.heap[x].regular == [c] + m.heap[x].regular
    && (forall p :: p in m.heap && p != x ==> p in m'.heap && m'.heap[p].regular == m.heap[p].regular)
    && (forall p :: p in m.heap ==> p in m'.heap && m'.heap[p].cancel == m.heap[p].cancel)
  }

  lemma NewCellObserved(h: Heap, h': Heap, o: Pid, cell: Promise)
    requires Forest(h) && o !in h && !cell.state.Proxy? && OnlyLists(h[o := cell], h')
    requires h'[o] == cell && cell.regular == [] && cell.cancel == []
    ensures IsCreated(h, h', o, cell.state, cell.how)
  {
    hide Ranked;
    SameLinksRoots(h, h');
    SameLinksObserved(h, h');
  }

  /** `wait` and `task` make a pending promise, which only the second lets cancel. */
  lemma NewInitialLaw(m: Machine, p: Pid, cancelable: bool)
    requires Enabled(m, NewInitial(p, cancelable))
    ensures
      var m' := Apply(m, NewInitial(p, cancelable));
      && IsCreated(m.heap, m'.heap, p, Pending, if cancelable then CancelThisPromise else NotCancelable)
      && RunsNothing(m, m') && m'.heap[p].regular == []
  {
    hide Ranked, IsCreated;
    NewCellObserved(m.heap, Apply(m, NewInitial(p, cancelable)).heap, p, Apply(m, NewInitial(p, cancelable)).heap[p]);
  }

  lemma NewResolvedLaw(m: Machine, p: Pid, r: Result)
    requires Enabled(m, NewResolved(p, r))
    ensures
      var m' := Apply(m, NewResolved(p, r));
      IsCreated(m.heap, m'.heap, p, Resolved(r), NotCancelable) && RunsNothing(m, m')
  {
    hide Ranked, IsCreated;
    NewCellObserved(m.heap, Apply(m, NewResolved(p, r)).heap, p, Apply(m, NewResolved(p, r)).heap[p]);
  }

  /** `bind` and the like, on a promise that is pending: the outer promise is pending, cancelling it goes on to that
      promise, unless it is made by `no_cancel`, and the callback is registered there. */
  lemma AttachLaw(m: Machine, c: Cid, src: Pid, kind: Kind)
    requires Enabled(m, Attach(c, src, kind))
    ensures
      var m', x := Apply(m, Attach(c, src, kind)), Root(m.heap, src);
      && IsCreated(m.heap, m'.heap, kind.outer, Pending, if kind.Forward? then NotCancelable else PropagateToOne(x))
      && IsRegistered(m, m', x, c, kind) && RunsNothing(m, m')
  {
    hide Ranked, IsCreated, Forest, Root;
    AttachCreates(m, c, src, kind);
  }

  lemma AttachCreates(m: Machine, c: Cid, src: Pid, kind: Kind)
    requires Enabled(m, Attach(c, src, kind))
    ensures
      var m', x := Apply(m, Attach(c, src, kind)), Root(m.heap, src);
      IsCreated(m.heap, m'.heap, kind.outer, Pending, if kind.Forward? then NotCancelable else PropagateToOne(x))
  {
    hide Ranked, IsCreated, Forest;
    var x := Root(m.heap, src);
    var cell := Promise(Pending, if kind.Forward? then NotCancelable else PropagateToOne(x), [], []);
    NewCellObserved(m.heap, Apply(m, Attach(c, src, kind)).heap, kind.outer, cell);
  }

  lemma AttachPlainLaw(m: Machine, c: Cid, src: Pid)
    requires Enabled(m, AttachPlain(c, src))
    ensures
      var m', x := Apply(m, AttachPlain(c, src)), Root(m.heap, src);
      IsRegistered(m, m', x, c, Plain) && RunsNothing(m, m') && SameObserved(m.heap, m'.heap)
  {
    hide Ranked, SameObserved;
    SameLinksObserved(m.heap, Apply(m, AttachPlain(c, src)).heap);
  }

  /** A cancel callback is put in front of those of the promise, with the storage of the moment. */
  lemma OnCancelLaw(m: Machine, src: Pid)
    requires Enabled(m, OnCancel(src))
    ensures
      var m', x := Apply(m, OnCancel(src)), Root(m.heap, src);
      && SameObserved(m.heap, m'.heap) && RunsNothing(m, m')
      && m'.heap[x] == m.heap[x].(cancel := [m.storage] + m.heap[x].cancel)
      && forall p :: p in m.heap && p != x ==> m'.heap[p] == m.heap[p]
  {
    hide Ranked, SameObserved;
    SameLinksObserved(m.heap, Apply(m, OnCancel(src)).heap);
  }

  /** How often `x` is among `rs`. */
  function Times(rs: seq<Pid>, x: Pid): nat {
    if rs == [] then 0 else Times(rs[1..], x) + if rs[0] == x then 1 else 0
  }

  /** The callbacks that `AddAll` gives to `x`, the last one first. */
  function Given(rs: seq<Pid>, cs: seq<Cid>, x: Pid): seq<Cid>
    requires |rs| == |cs|
  {
    if rs == [] then [] else Given(rs[1..], cs[1..], x) + if rs[0] == x then [cs[0]] else []
  }

  lemma {:induction false} GivenIs(h: Heap, rs: seq<Pid>, cs: seq<Cid>, x: Pid)
    requires |rs| == |cs| && forall i :: 0 <= i < |rs| ==> rs[i] in h
    requires x in h
    ensures
      var h' := AddAll(h, rs, cs);
      && x in h' && h'[x] == h[x].(regular := Given(rs, cs, x) + h[x].regular)
      && |Given(rs, cs, x)| == Times(rs, x)
  {
    if rs != [] {
      var h1 := AddRegular(h, rs[0], cs[0]);
      GivenIs(h1, rs[1..], cs[1..], x);
      var given := Given(rs[1..], cs[1..], x);
      assert given + ([cs[0]] + h[x].regular) == given + [cs[0]] + h[x].regular;
    } else {
      assert [] + h[x].regular == h[x].regular;
    }
  }

  lemma {:induction false} GivenNone(rs: seq<Pid>, cs: seq<Cid>, x: Pid)
    requires |rs| == |cs| && x !in rs
    ensures Given(rs, cs, x) == []
  {
    if rs != [] {
      GivenNone(rs[1..], cs[1..], x);
    }
  }

  lemma {:induction false} GivenSame(rs: seq<Pid>, cs: seq<Cid>, x: Pid, c: Cid)
    requires |rs| == |cs| && forall i :: 0 <= i < |cs| ==> cs[i] == c
    ensures forall i :: 0 <= i < |Given(rs, cs, x)| ==> Given(rs, cs, x)[i] == c
  {
    if rs != [] {
      GivenSame(rs[1..], cs[1..], x, c);
    }
  }

  /** `join` with a pending input: the outer promise is pending, cancelling it goes on to all inputs, each pending input
      gets a callback of its own, `join` counts those, and keeps the first rejection of the others in list order. */
  lemma JoinLaw(m: Machine, j: Cid, outer: Pid, ps: seq<Pid>, cs: seq<Cid>)
    requires Enabled(m, NewJoin(j, outer, ps, cs))
    ensures
      var m' := Apply(m, NewJoin(j, outer, ps, cs));
      && IsCreated(m.heap, m'.heap, outer, Pending, PropagateToSeveral(ps)) && RunsNothing(m, m')
      && j in m'.joins && m'.joins[j].outer == outer && m'.joins[j].count == |cs| == |PendingRoots(m.heap, ps)|
      && m'.joins[j].result == FirstRejection(m.heap, ps)
      && (forall i :: 0 <= i < |cs| ==> cs[i] in m'.cbs && m'.cbs[cs[i]] == Callback(JoinMember(j), m.storage))
      && (forall x :: x in m.heap ==>
            m'.heap[x].regular == Given(PendingRoots(m.heap, ps), cs, x) + m.heap[x].regular)
  {
    hide Ranked, IsCreated, PendingRoots, FirstRejection, AddAll;
    var rs := PendingRoots(m.heap, ps);
    var cell := Promise(Pending, PropagateToSeveral(ps), [], []);
    var h1 := m.heap[outer := cell];
    var m' := Apply(m, NewJoin(j, outer, ps, cs));
    AddAllLinks(h1, rs, cs);
    GivenIs(h1, rs, cs, outer);
    GivenNone(rs, cs, outer);
    NewCellObserved(m.heap, m'.heap, outer, cell);
    forall x | x in m.heap ensures m'.heap[x].regular == Given(rs, cs, x) + m.heap[x].regular {
      GivenIs(h1, rs, cs, x);
    }
  }

  /** The result that `join` starts from is the first rejection among the inputs that are resolved, in list order. */
  lemma {:induction false} FirstRejectionIs(h: Heap, ps: seq<Pid>, i: nat)
    requires Forest(h) && i < |ps| && forall k :: 0 <= k < |ps| ==> ps[k] in h
    requires Observed(h, ps[i]).Resolved? && Observed(h, ps[i]).result.Rejected?
    requires forall k :: 0 <= k < i ==> !(Observed(h, ps[k]).Resolved? && Observed(h, ps[k]).result.Rejected?)
    ensures FirstRejection(h, ps) == Observed(h, ps[i]).result
  {
    hide Ranked, Forest, Observed;
    if i > 0 {
      assert ps[0] in h;
      FirstRejectionIs(h, ps[1..], i - 1);
    }
  }

  /** `choose`, `pick` and the like, with all inputs pending: one callback is shared by all of them, and registered as
      often as they stand for a promise. */
  lemma ChoiceLaw(m: Machine, c: Cid, ps: seq<Pid>, kind: Kind)
    requires Enabled(m, NewChoice(c, ps, kind))
    ensures
      var m' := Apply(m, NewChoice(c, ps, kind));
      && IsCreated(m.heap, m'.heap, kind.outer, Pending, PropagateToSeveral(ps)) && RunsNothing(m, m')
      && c in m'.cbs && m'.cbs[c] == Callback(kind, m.storage) && c in m'.live
      && forall x :: x in m.heap ==>
           exists given ::
             && m'.heap[x].regular == given + m.heap[x].regular && |given| == Times(Roots(m.heap, ps), x)
             && forall i :: 0 <= i < |given| ==> given[i] == c
  {
    hide Ranked, IsCreated, AddAll;
    var rs := Roots(m.heap, ps);
    var cs := seq(|rs|, _ => c);
    var cell := Promise(Pending, PropagateToSeveral(ps), [], []);
    var h1 := m.heap[kind.outer := cell];
    var m' := Apply(m, NewChoice(c, ps, kind));
    AddAllLinks(h1, rs, cs);
    GivenIs(h1, rs, cs, kind.outer);
    GivenNone(rs, cs, kind.outer);
    NewCellObserved(m.heap, m'.heap, kind.outer, cell);
    forall x | x in m.heap
      ensures
        var given := Given(rs, cs, x);
        && m'.heap[x].regular == given + m.heap[x].regular && |given| == Times(rs, x)
        && forall i :: 0 <= i < |given| ==> given[i] == c
    {
      GivenIs(h1, rs, cs, x);
      GivenSame(rs, cs, x, c);
    }
  }

  // ------------------------------------------------------------------------------------------
  // The rest
  // ------------------------------------------------------------------------------------------

  /** `with_value` sets the storage and does nothing else; a user function that nobody waits for just ends. */
  lemma StorageLaw(m: Machine, s: Storage)
    requires Enabled(m, SetStorage(s))
    ensures Apply(m, SetStorage(s)).storage == s && Apply(m, SetStorage(s)) == m.(storage := s)
  {
  }

  lemma UserEnds(m: Machine)
    requires Enabled(m, ReturnUser)
    ensures
      var m' := Apply(m, ReturnUser);
      && m'.stack == m.stack[..|m.stack| - 1] && m'.heap == m.heap && m'.storage == m.storage
      && m'.depth == m.depth && m'.queue == m.queue && m'.ran == m.ran
  {
    hide Ranked;
  }

  /** Housekeeping is not observed. */
  lemma HousekeepingLaw(m: Machine, a: Action)
    requires Enabled(m, a) && (a.Compress? || a.Sweep?)
    ensures SameObserved(m.heap, Apply(m, a).heap) && RunsNothing(m, Apply(m, a))
  {
    hide Ranked, SameObserved;
    if a.Compress? {
      CompressObserved(m.heap, a.p);
    } else {
      SameLinksObserved(m.heap, Apply(m, a).heap);
    }
  }

  lemma CompressObserved(h: Heap, p: Pid)
    requires Forest(h) && p in h && h[p].state.Proxy?
    ensures SameObserved(h, SetState(h, p, Proxy(Root(h, p))))
  {
    hide Ranked, Forest, Root;
    CompressRoots(h, p);
    var h' := SetState(h, p, Proxy(Root(h, p)));
    forall x | x in h ensures Observed(h', x) == Observed(h, x) {
      assert Root(h, x) != p;
    }
    hide Observed, SetState;
  }
}
