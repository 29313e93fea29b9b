/** What every action of the promise engine keeps. */
module PromiseSafety {
  import opened PromiseHeap
  import opened PromiseEngine

  // ------------------------------------------------------------------------------------------
  // The invariant
  // ------------------------------------------------------------------------------------------

  /** Every owed promise stands for a pending promise that is owed to nobody else, that no resolver
      can reach, and that cancel does not reject by itself. */
  ghost predicate OwedOk(h: Heap, owed: map<Cid, Pid>, initial: set<Pid>) {
    && Forest(h)
    && initial <= h.Keys
    && (forall t :: t in owed ==> owed[t] in h)
    && (forall t :: t in owed ==> h[Root(h, owed[t])].state.Pending?)
    && (forall t :: t in owed ==> !h[Root(h, owed[t])].how.CancelThisPromise?)
    && (forall t, i :: t in owed && i in initial ==> Root(h, i) != Root(h, owed[t]))
    && (forall t, u :: t in owed && u in owed && t != u ==> Root(h, owed[t]) != Root(h, owed[u]))
  }

  /** Callbacks that have not run yet are owed what they captured. */
  ghost predicate CbsOk(cbs: map<Cid, Callback>, live: set<Cid>, joins: map<Cid, Join>, owed: map<Cid, Pid>) {
    && live <= cbs.Keys
    && joins.Keys !! cbs.Keys
    && owed.Keys <= cbs.Keys + joins.Keys
    && (forall c :: c in live && HasOuter(cbs[c].kind) ==> c in owed && owed[c] == cbs[c].kind.outer)
    && (forall c :: c in live && cbs[c].kind.JoinMember? ==> cbs[c].kind.join in joins)
  }

  ghost function Members(cbs: map<Cid, Callback>, live: set<Cid>, j: Cid): set<Cid> {
    set c | c in live && c in cbs && cbs[c].kind == JoinMember(j)
  }

  /** The counter of a join counts its callbacks that have not run yet. */
  ghost predicate JoinsOk(cbs: map<Cid, Callback>, live: set<Cid>, joins: map<Cid, Join>, owed: map<Cid, Pid>) {
    && (forall j :: j in joins ==> joins[j].count == |Members(cbs, live, j)|)
    && (forall j :: j in joins && joins[j].count > 0 ==> j in owed && owed[j] == joins[j].outer)
  }

  /** A callback that is not shared through a cell is listed at most once, and only if it has not
      run yet. */
  ghost predicate ListsOk(h: Heap, cbs: map<Cid, Callback>, live: set<Cid>) {
    && (forall p, i :: p in h && 0 <= i < |h[p].regular| ==> h[p].regular[i] in cbs)
    && (forall p, i :: p in h && 0 <= i < |h[p].regular| && !Removable(cbs[h[p].regular[i]].kind) ==>
          h[p].regular[i] in live)
    && (forall p, q, i, k ::
          p in h && q in h && 0 <= i < |h[p].regular| && 0 <= k < |h[q].regular| &&
          h[p].regular[i] == h[q].regular[k] && (p != q || i != k) ==>
          Removable(cbs[h[p].regular[i]].kind))
  }

  predicate HasToken(f: Frame) { f.UserBind? || f.UserMap? || f.PickCancel? }

  ghost predicate FrameOk(f: Frame, h: Heap, cbs: map<Cid, Callback>, live: set<Cid>, owed: map<Cid, Pid>) {
    match f
    case Run(rid, r) => rid in h && h[rid].state == Resolved(r)
    case CancelRun(rids) =>
      forall i :: 0 <= i < |rids| ==> rids[i] in h && h[rids[i]].state == Resolved(Rejected(Canceled))
    case Loop(_) => true
    case User => true
    case _ =>
      f.cb in cbs && HasOuter(cbs[f.cb].kind) && f.cb !in live && f.cb in owed && owed[f.cb] == cbs[f.cb].kind.outer
  }

  ghost predicate FramesOk(stack: seq<Frame>, h: Heap, cbs: map<Cid, Callback>, live: set<Cid>, owed: map<Cid, Pid>) {
    && (forall i :: 0 <= i < |stack| ==> FrameOk(stack[i], h, cbs, live, owed))
    && (forall i, k :: 0 <= i < k < |stack| && HasToken(stack[i]) && HasToken(stack[k]) ==>
          stack[i].cb != stack[k].cb)
  }

  ghost function Loops(stack: seq<Frame>): int {
    if stack == [] then 0
    else Loops(stack[..|stack| - 1]) + if stack[|stack| - 1].Loop? then 1 else 0
  }

  /** The nesting depth counts the entered loops, and the queue is empty outside them.  What was
      deferred has been drained or is still queued, in the order it was pushed, and is never
      deferred again. */
  ghost predicate QueueOk(h: Heap, stack: seq<Frame>, depth: int, queue: seq<(Pid, Result)>,
                          pushed: seq<(Pid, Result)>, drained: seq<(Pid, Result)>)
  {
    && depth == Loops(stack)
    && (queue != [] ==> depth >= 1)
    && pushed == drained + queue
    && (forall i :: 0 <= i < |pushed| ==> pushed[i].0 in h && h[pushed[i].0].state == Resolved(pushed[i].1))
    && (forall i, k :: 0 <= i < k < |pushed| ==> pushed[i].0 != pushed[k].0)
  }

  ghost predicate RanOk(ran: seq<Cid>, live: set<Cid>, cbs: map<Cid, Callback>) {
    && (forall i :: 0 <= i < |ran| ==> ran[i] in cbs && ran[i] !in live)
    && (forall i, k :: 0 <= i < k < |ran| ==> ran[i] != ran[k])
  }

  ghost predicate Inv(m: Machine) {
    && !m.crashed
    && OwedOk(m.heap, m.owed, m.initial)
    && CbsOk(m.cbs, m.live, m.joins, m.owed)
    && JoinsOk(m.cbs, m.live, m.joins, m.owed)
    && ListsOk(m.heap, m.cbs, m.live)
    && FramesOk(m.stack, m.heap, m.cbs, m.live, m.owed)
    && QueueOk(m.heap, m.stack, m.depth, m.queue, m.pushed, m.drained)
    && RanOk(m.ran, m.live, m.cbs)
  }

  // ------------------------------------------------------------------------------------------
  // Obligations
  // ------------------------------------------------------------------------------------------

  /** Nothing that is still to run holds the obligation `t`. */
  ghost predicate Unheld(m: Machine, t: Cid) {
    && t !in m.live
    && (t in m.joins ==> m.joins[t].count == 0)
    && (forall i :: 0 <= i < |m.stack| && HasToken(m.stack[i]) ==> m.stack[i].cb != t)
  }

  /** `p` is owed to nobody. */
  ghost predicate Free(m: Machine, p: Pid)
    requires OwedOk(m.heap, m.owed, m.initial)
  {
    forall t :: t in m.owed ==> Root(m.heap, m.owed[t]) != p
  }

  ghost predicate NoResolver(m: Machine, p: Pid)
    requires OwedOk(m.heap, m.owed, m.initial)
  {
    forall i :: i in m.initial ==> Root(m.heap, i) != p
  }

  lemma DischargeFrames(stack: seq<Frame>, h: Heap, cbs: map<Cid, Callback>, live: set<Cid>,
                        owed: map<Cid, Pid>, t: Cid)
    requires FramesOk(stack, h, cbs, live, owed)
    requires forall i :: 0 <= i < |stack| && HasToken(stack[i]) ==> stack[i].cb != t
    ensures FramesOk(stack, h, cbs, live, owed - {t})
  {
  }

  lemma DischargeOwed(h: Heap, owed: map<Cid, Pid>, initial: set<Pid>, t: Cid)
    requires OwedOk(h, owed, initial)
    ensures OwedOk(h, owed - {t}, initial)
  {
  }

  lemma DischargeCbs(cbs: map<Cid, Callback>, live: set<Cid>, joins: map<Cid, Join>, owed: map<Cid, Pid>, t: Cid)
    requires CbsOk(cbs, live, joins, owed) && t !in live
    requires JoinsOk(cbs, live, joins, owed) && (t in joins ==> joins[t].count == 0)
    ensures CbsOk(cbs, live, joins, owed - {t}) && JoinsOk(cbs, live, joins, owed - {t})
  {
  }

  /** An obligation that nothing holds can be dropped; its promise is then free to be resolved. */
  lemma DischargeKeepsInv(m: Machine, t: Cid)
    requires Inv(m) && Unheld(m, t)
    ensures Inv(Discharge(m, t))
    ensures t in m.owed ==>
              var p := Root(m.heap, m.owed[t]);
              Free(Discharge(m, t), p) && NoResolver(Discharge(m, t), p) && m.heap[p].state.Pending?
  {
    DischargeFrames(m.stack, m.heap, m.cbs, m.live, m.owed, t);
    DischargeOwed(m.heap, m.owed, m.initial, t);
    DischargeCbs(m.cbs, m.live, m.joins, m.owed, t);
  }

  lemma LoopsPush(s: seq<Frame>, f: Frame)
    ensures Loops(s + [f]) == Loops(s) + if f.Loop? then 1 else 0
  {
    assert (s + [f])[..|s|] == s;
  }

  lemma PushFrame(stack: seq<Frame>, f: Frame, h: Heap, cbs: map<Cid, Callback>, live: set<Cid>, owed: map<Cid, Pid>)
    requires FramesOk(stack, h, cbs, live, owed) && FrameOk(f, h, cbs, live, owed)
    requires HasToken(f) ==> forall i :: 0 <= i < |stack| && HasToken(stack[i]) ==> stack[i].cb != f.cb
    ensures FramesOk(stack + [f], h, cbs, live, owed)
  {
  }

  lemma RunOrDeferKeepsInv(m: Machine, p: Pid, r: Result, d: Deferring)
    requires Inv(m) && p in m.heap && m.heap[p].state == Resolved(r)
    requires d.FromDepth? ==> d.depth >= 1 && forall i :: 0 <= i < |m.pushed| ==> m.pushed[i].0 != p
    ensures Inv(RunOrDefer(m, p, r, d))
  {
    hide OwedOk, CbsOk, JoinsOk, ListsOk, FramesOk, QueueOk, RanOk;
    if d.FromDepth? && m.depth >= d.depth {
      DeferQueue(m.heap, m.stack, m.depth, m.queue, m.pushed, m.drained, p, r);
    } else {
      var s := m.stack + [Loop(m.storage)];
      EnterQueue(m.heap, m.stack, m.depth, m.queue, m.pushed, m.drained, Loop(m.storage), Run(p, r));
      assert m.stack + [Loop(m.storage), Run(p, r)] == s + [Run(p, r)];
      PushFrame(m.stack, Loop(m.storage), m.heap, m.cbs, m.live, m.owed);
      PushFrame(s, Run(p, r), m.heap, m.cbs, m.live, m.owed);
    }
  }

  lemma EnterQueue(h: Heap, stack: seq<Frame>, depth: int, queue: seq<(Pid, Result)>,
                   pushed: seq<(Pid, Result)>, drained: seq<(Pid, Result)>, loop: Frame, run: Frame)
    requires QueueOk(h, stack, depth, queue, pushed, drained) && loop.Loop? && run.Run?
    ensures QueueOk(h, stack + [loop, run], depth + 1, queue, pushed, drained)
  {
    LoopsPush(stack, loop);
    LoopsPush(stack + [loop], run);
    assert stack + [loop, run] == stack + [loop] + [run];
    hide Loops;
  }

  lemma PushKeepsInv(m: Machine, f: Frame)
    requires Inv(m) && FrameOk(f, m.heap, m.cbs, m.live, m.owed) && !f.Loop?
    requires HasToken(f) ==> forall i :: 0 <= i < |m.stack| && HasToken(m.stack[i]) ==> m.stack[i].cb != f.cb
    ensures Inv(Push(m, f))
  {
    LoopsPush(m.stack, f);
    PushFrame(m.stack, f, m.heap, m.cbs, m.live, m.owed);
    assert QueueOk(m.heap, m.stack + [f], m.depth, m.queue, m.pushed, m.drained);
  }

  lemma DeferQueue(h: Heap, stack: seq<Frame>, depth: int, queue: seq<(Pid, Result)>,
                   pushed: seq<(Pid, Result)>, drained: seq<(Pid, Result)>, p: Pid, r: Result)
    requires QueueOk(h, stack, depth, queue, pushed, drained) && depth >= 1
    requires p in h && h[p].state == Resolved(r) && forall i :: 0 <= i < |pushed| ==> pushed[i].0 != p
    ensures QueueOk(h, stack, depth, queue + [(p, r)], pushed + [(p, r)], drained)
  {
  }

  // ------------------------------------------------------------------------------------------
  // Heap updates, one part of the invariant at a time
  // ------------------------------------------------------------------------------------------

  ghost predicate KeepsResolved(h: Heap, h': Heap) {
    forall p :: p in h ==> p in h' && (h[p].state.Resolved? ==> h'[p].state == h[p].state)
  }

  /** Lists are unchanged and new cells have none. */
  ghost predicate SameLists(h: Heap, h': Heap) {
    && (forall p :: p in h ==> p in h' && h'[p].regular == h[p].regular)
    && (forall p :: p in h' && p !in h ==> h'[p].regular == [])
  }

  lemma HeapFrames(stack: seq<Frame>, h: Heap, h': Heap, cbs: map<Cid, Callback>, live: set<Cid>, owed: map<Cid, Pid>)
    requires FramesOk(stack, h, cbs, live, owed) && KeepsResolved(h, h')
    ensures FramesOk(stack, h', cbs, live, owed)
  {
    forall i | 0 <= i < |stack| ensures FrameOk(stack[i], h', cbs, live, owed) {
      assert FrameOk(stack[i], h, cbs, live, owed);
    }
  }

  lemma HeapQueue(h: Heap, h': Heap, stack: seq<Frame>, depth: int, queue: seq<(Pid, Result)>,
                  pushed: seq<(Pid, Result)>, drained: seq<(Pid, Result)>)
    requires QueueOk(h, stack, depth, queue, pushed, drained) && KeepsResolved(h, h')
    ensures QueueOk(h', stack, depth, queue, pushed, drained)
  {
  }

  lemma HeapLists(h: Heap, h': Heap, cbs: map<Cid, Callback>, live: set<Cid>)
    requires ListsOk(h, cbs, live) && SameLists(h, h')
    ensures ListsOk(h', cbs, live)
  {
  }

  /** Links are kept, and so are the states and cancellation modes of the owed promises. */
  lemma HeapOwed(h: Heap, h': Heap, owed: map<Cid, Pid>, initial: set<Pid>)
    requires OwedOk(h, owed, initial) && SameLinks(h, h')
    requires forall t :: t in owed ==>
               var r := Root(h, owed[t]); h'[r].state == h[r].state && h'[r].how == h[r].how
    ensures OwedOk(h', owed, initial)
    ensures forall p :: p in h ==> Root(h', p) == Root(h, p)
  {
    SameLinksRoots(h, h');
  }

  lemma OweNew(h: Heap, owed: map<Cid, Pid>, initial: set<Pid>, t: Cid, o: Pid)
    requires OwedOk(h, owed, initial) && o in h && h[o].state.Pending? && !h[o].how.CancelThisPromise?
    requires forall u :: u in owed ==> Root(h, owed[u]) != o
    requires forall i :: i in initial ==> Root(h, i) != o
    ensures OwedOk(h, owed[t := o], initial)
  {
    assert Root(h, o) == o;
  }

  lemma UpdateHeap(m: Machine, h': Heap)
    requires Inv(m) && KeepsResolved(m.heap, h')
    requires OwedOk(h', m.owed, m.initial) && ListsOk(h', m.cbs, m.live)
    ensures Inv(m.(heap := h'))
  {
    hide OwedOk, CbsOk, JoinsOk, ListsOk, FramesOk, QueueOk, RanOk;
    HeapFrames(m.stack, m.heap, h', m.cbs, m.live, m.owed);
    HeapQueue(m.heap, h', m.stack, m.depth, m.queue, m.pushed, m.drained);
  }

  // ------------------------------------------------------------------------------------------
  // Resolving
  // ------------------------------------------------------------------------------------------

  lemma SettleKeepsInv(m: Machine, p: Pid, r: Result)
    requires Inv(m) && p in m.heap && m.heap[p].state.Pending? && Free(m, p)
    ensures Inv(m.(heap := SetState(m.heap, p, Resolved(r))))
  {
    hide OwedOk, CbsOk, JoinsOk, ListsOk, FramesOk, QueueOk, RanOk;
    var h' := SetState(m.heap, p, Resolved(r));
    HeapOwed(m.heap, h', m.owed, m.initial);
    HeapLists(m.heap, h', m.cbs, m.live);
    UpdateHeap(m, h');
  }

  /** Resolving a pending promise that is owed to nobody keeps the invariant. */
  lemma ResolveKeepsInv(m: Machine, p: Pid, r: Result, d: Deferring)
    requires Inv(m) && p in m.heap && m.heap[p].state.Pending? && Free(m, p)
    requires d.FromDepth? ==> d.depth >= 1
    ensures Inv(Resolve(m, p, r, d))
  {
    hide OwedOk, CbsOk, JoinsOk, ListsOk, FramesOk, RanOk;
    SettleKeepsInv(m, p, r);
    RunOrDeferKeepsInv(m.(heap := SetState(m.heap, p, Resolved(r))), p, r, d);
  }

  lemma ResolveOuterKeepsInv(m: Machine, t: Cid, r: Result)
    requires Inv(m) && Unheld(m, t) && t in m.owed
    ensures Inv(ResolveOuter(m, t, m.owed[t], r))
  {
    DischargeKeepsInv(m, t);
    ResolveKeepsInv(Discharge(m, t), Root(m.heap, m.owed[t]), r, Never);
  }

  lemma WakeupKeepsInv(m: Machine, p: Pid, r: Result, later: bool)
    requires Inv(m) && p in m.initial && p in m.heap
    ensures Inv(DoWakeup(m, p, r, later))
  {
    if !Observed(m.heap, p).Resolved? {
      ResolveKeepsInv(m, Root(m.heap, p), r, if later then FromDepth(1) else Never);
    }
  }

  // ------------------------------------------------------------------------------------------
  // Proxies
  // ------------------------------------------------------------------------------------------

  lemma MergeLists(h: Heap, q: Pid, o: Pid, cbs: map<Cid, Callback>, live: set<Cid>)
    requires ListsOk(h, cbs, live) && q in h && o in h && q != o
    ensures ListsOk(Merge(h, q, o), cbs, live)
  {
    var h' := Merge(h, q, o);
    var n := |h[o].regular|;
    // Every listed position of h' comes from a position of h, and different ones from different ones.
    forall p, i | p in h' && 0 <= i < |h'[p].regular|
      ensures
        var p0 := if p == o && i >= n then q else p;
        var i0 := if p == o && i >= n then i - n else i;
        i0 < |h[p0].regular| && h'[p].regular[i] == h[p0].regular[i0]
    {
    }
  }

  lemma MergeLinks(h: Heap, q: Pid, o: Pid)
    requires q in h && o in h && q != o && !h[o].state.Proxy?
    ensures SameLinks(SetState(h, q, Proxy(o)), Merge(h, q, o))
    ensures Merge(h, q, o).Keys == h.Keys == SetState(h, q, Proxy(o)).Keys
  {
  }

  lemma MergeRoots(h: Heap, q: Pid, o: Pid)
    requires Forest(h) && q in h && o in h && q != o
    requires !h[q].state.Proxy? && !h[o].state.Proxy?
    ensures Forest(Merge(h, q, o))
    ensures forall x :: x in h ==> Root(Merge(h, q, o), x) == if Root(h, x) == q then o else Root(h, x)
  {
    var h1, h' := SetState(h, q, Proxy(o)), Merge(h, q, o);
    MergeLinks(h, q, o);
    hide Ranked, SameLinks, Merge, SetState;
    LinkRoots(h, q, o);
    SameLinksForest(h1, h');
    forall x | x in h ensures Root(h', x) == if Root(h, x) == q then o else Root(h, x) {
      SameLinksRoot(h1, h', x);
    }
  }

  lemma MergeCells(h: Heap, q: Pid, o: Pid)
    requires q in h && o in h && q != o
    ensures
      var h' := Merge(h, q, o);
      && h'.Keys == h.Keys && h'[o].state == h[o].state && h'[o].how == h[q].how
      && forall x :: x in h && x != q && x != o ==> h'[x] == h[x]
  {
  }

  lemma MergePending(h: Heap, q: Pid, o: Pid, x: Pid)
    requires Forest(h) && q in h && o in h && q != o && x in h && Root(h, x) != o
    requires h[q].state.Pending? && h[o].state.Pending?
    requires h[Root(h, x)].state.Pending? && !h[Root(h, x)].how.CancelThisPromise?
    ensures Forest(Merge(h, q, o)) && x in Merge(h, q, o)
    ensures
      var h' := Merge(h, q, o);
      h'[Root(h', x)].state.Pending? && !h'[Root(h', x)].how.CancelThisPromise?
  {
    hide Ranked, Forest, Root;
    MergeRoots(h, q, o);
    MergeCells(h, q, o);
    hide Merge;
  }

  lemma MergeOwed(h: Heap, q: Pid, o: Pid, owed: map<Cid, Pid>, initial: set<Pid>)
    requires OwedOk(h, owed, initial) && q in h && o in h && q != o
    requires h[q].state.Pending? && h[o].state.Pending?
    requires forall t :: t in owed ==> Root(h, owed[t]) != o
    requires forall i :: i in initial ==> Root(h, i) != o
    ensures OwedOk(Merge(h, q, o), owed, initial)
  {
    hide Ranked, Forest, Root;
    var h' := Merge(h, q, o);
    MergeRoots(h, q, o);
    MergeCells(h, q, o);
    hide Merge;
    forall t | t in owed
      ensures owed[t] in h' && h'[Root(h', owed[t])].state.Pending? && !h'[Root(h', owed[t])].how.CancelThisPromise?
    {
      MergePending(h, q, o, owed[t]);
    }
    MergeApart(h, h', q, o, owed, initial);
    assert initial <= h'.Keys;
    OwedParts(h', owed, initial);
  }

  lemma OwedParts(h: Heap, owed: map<Cid, Pid>, initial: set<Pid>)
    requires Forest(h) && initial <= h.Keys
    requires forall t :: t in owed ==>
               owed[t] in h && h[Root(h, owed[t])].state.Pending? && !h[Root(h, owed[t])].how.CancelThisPromise?
    requires forall t, i :: t in owed && i in initial ==> Root(h, i) != Root(h, owed[t])
    requires forall t, u :: t in owed && u in owed && t != u ==> Root(h, owed[t]) != Root(h, owed[u])
    ensures OwedOk(h, owed, initial)
  {
    hide Ranked, Forest, Root;
  }

  lemma MergeApart(h: Heap, h': Heap, q: Pid, o: Pid, owed: map<Cid, Pid>, initial: set<Pid>)
    requires OwedOk(h, owed, initial) && Forest(h') && h'.Keys == h.Keys
    requires forall x :: x in h ==> Root(h', x) == if Root(h, x) == q then o else Root(h, x)
    requires forall t :: t in owed ==> Root(h, owed[t]) != o
    requires forall i :: i in initial ==> Root(h, i) != o
    ensures forall t, i :: t in owed && i in initial ==> Root(h', i) != Root(h', owed[t])
    ensures forall t, u :: t in owed && u in owed && t != u ==> Root(h', owed[t]) != Root(h', owed[u])
  {
    hide Ranked, Forest, Root;
  }

  lemma MergeKeepsInv(m: Machine, q: Pid, o: Pid)
    requires Inv(m) && q in m.heap && o in m.heap && q != o
    requires m.heap[q].state.Pending? && m.heap[o].state.Pending?
    requires Free(m, o) && NoResolver(m, o)
    ensures Inv(m.(heap := Merge(m.heap, q, o)))
  {
    hide OwedOk, CbsOk, JoinsOk, ListsOk, FramesOk, QueueOk, RanOk;
    MergeOwed(m.heap, q, o, m.owed, m.initial);
    MergeLists(m.heap, q, o, m.cbs, m.live);
    UpdateHeap(m, Merge(m.heap, q, o));
  }

  lemma MakeIntoProxyKeepsInv(m: Machine, o: Pid, u: Pid)
    requires Inv(m) && u in m.heap && o in m.heap && m.heap[o].state.Pending?
    requires Free(m, o) && NoResolver(m, o)
    ensures Inv(MakeIntoProxy(m, o, u))
  {
    var q := Root(m.heap, u);
    if q == o {
    } else if m.heap[q].state.Resolved? {
      ResolveKeepsInv(m, o, m.heap[q].state.result, Never);
    } else {
      MergeKeepsInv(m, q, o);
    }
  }

  lemma CompressPending(h: Heap, p: Pid, x: Pid)
    requires Forest(h) && p in h && h[p].state.Proxy? && x in h
    ensures
      var h' := SetState(h, p, Proxy(Root(h, p)));
      Forest(h') && Root(h', x) == Root(h, x) && h'[Root(h', x)] == h[Root(h, x)]
  {
    hide Ranked, Forest, Root;
    CompressRoots(h, p);
    assert Root(h, x) != p;
  }

  lemma CompressOwed(h: Heap, p: Pid, owed: map<Cid, Pid>, initial: set<Pid>)
    requires OwedOk(h, owed, initial) && p in h && h[p].state.Proxy?
    ensures OwedOk(SetState(h, p, Proxy(Root(h, p))), owed, initial)
  {
    hide Forest, Ranked, Root;
    var h' := SetState(h, p, Proxy(Root(h, p)));
    CompressRoots(h, p);
    forall t | t in owed
      ensures owed[t] in h' && h'[Root(h', owed[t])].state.Pending? && !h'[Root(h', owed[t])].how.CancelThisPromise?
    {
      CompressPending(h, p, owed[t]);
    }
    SameRootsApart(h, h', owed, initial);
    assert initial <= h'.Keys;
    hide SetState;
    OwedParts(h', owed, initial);
  }

  lemma SameRootsApart(h: Heap, h': Heap, owed: map<Cid, Pid>, initial: set<Pid>)
    requires OwedOk(h, owed, initial) && Forest(h') && h'.Keys == h.Keys
    requires forall x :: x in h ==> Root(h', x) == Root(h, x)
    ensures forall t, i :: t in owed && i in initial ==> Root(h', i) != Root(h', owed[t])
    ensures forall t, u :: t in owed && u in owed && t != u ==> Root(h', owed[t]) != Root(h', owed[u])
  {
    hide Ranked, Forest, Root;
  }

  lemma CompressKeepsInv(m: Machine, p: Pid)
    requires Inv(m) && p in m.heap && m.heap[p].state.Proxy?
    ensures Inv(m.(heap := SetState(m.heap, p, Proxy(Root(m.heap, p)))))
  {
    hide CbsOk, JoinsOk, ListsOk, FramesOk, QueueOk, RanOk, Ranked;
    var h' := SetState(m.heap, p, Proxy(Root(m.heap, p)));
    CompressOwed(m.heap, p, m.owed, m.initial);
    hide OwedOk, Root;
    HeapLists(m.heap, h', m.cbs, m.live);
    UpdateHeap(m, h');
  }

  // ------------------------------------------------------------------------------------------
  // Cancelling
  // ------------------------------------------------------------------------------------------

  lemma MarkOwed(h: Heap, order: seq<Pid>, owed: map<Cid, Pid>, initial: set<Pid>)
    requires OwedOk(h, owed, initial) && CancelTargets(h, order)
    ensures OwedOk(MarkCanceled(h, order), owed, initial)
  {
    HeapOwed(h, MarkCanceled(h, order), owed, initial);
  }

  lemma CancelKeepsInv(m: Machine, order: seq<Pid>)
    requires Inv(m) && CancelTargets(m.heap, order)
    ensures Inv(Cancel(m, order))
  {
    hide OwedOk, CbsOk, JoinsOk, ListsOk, FramesOk, QueueOk, RanOk;
    var h' := MarkCanceled(m.heap, order);
    MarkOwed(m.heap, order, m.owed, m.initial);
    HeapLists(m.heap, h', m.cbs, m.live);
    UpdateHeap(m, h');
    PushKeepsInv(m.(heap := h'), CancelRun(order));
  }

  // ------------------------------------------------------------------------------------------
  // Running callbacks
  // ------------------------------------------------------------------------------------------

  lemma PopFrames(stack: seq<Frame>, h: Heap, cbs: map<Cid, Callback>, live: set<Cid>, owed: map<Cid, Pid>)
    requires FramesOk(stack, h, cbs, live, owed) && stack != []
    ensures FramesOk(stack[..|stack| - 1], h, cbs, live, owed)
    ensures FrameOk(stack[|stack| - 1], h, cbs, live, owed)
    ensures HasToken(stack[|stack| - 1]) ==>
              forall i :: 0 <= i < |stack| - 1 && HasToken(stack[i]) ==> stack[i].cb != stack[|stack| - 1].cb
  {
  }

  lemma PopKeepsInv(m: Machine)
    requires Inv(m) && m.stack != [] && !m.stack[|m.stack| - 1].Loop?
    ensures Inv(Pop(m))
    ensures var f := m.stack[|m.stack| - 1];
            HasToken(f) ==> f.cb in m.cbs && HasOuter(m.cbs[f.cb].kind) && Unheld(Pop(m), f.cb) &&
                            f.cb in m.owed && m.owed[f.cb] == m.cbs[f.cb].kind.outer
  {
    hide OwedOk, JoinsOk, ListsOk, RanOk;
    PopFrames(m.stack, m.heap, m.cbs, m.live, m.owed);
  }

  ghost predicate NotListed(h: Heap, c: Cid) {
    forall p, i :: p in h && 0 <= i < |h[p].regular| ==> h[p].regular[i] != c
  }

  function RemoveAt(h: Heap, p: Pid, i: nat): Heap
    requires p in h && i < |h[p].regular|
  {
    h[p := h[p].(regular := h[p].regular[..i] + h[p].regular[i + 1..])]
  }

  lemma RemoveLists(h: Heap, p: Pid, i: nat, cbs: map<Cid, Callback>, live: set<Cid>)
    requires ListsOk(h, cbs, live) && p in h && i < |h[p].regular|
    ensures ListsOk(RemoveAt(h, p, i), cbs, live)
    ensures !Removable(cbs[h[p].regular[i]].kind) ==> NotListed(RemoveAt(h, p, i), h[p].regular[i])
  {
    var h' := RemoveAt(h, p, i);
    RemovedAt(h, h', p, i);
    hide RemoveAt;
    forall q, k | q in h' && 0 <= k < |h'[q].regular|
      ensures
        var c := h'[q].regular[k];
        c in cbs && (!Removable(cbs[c].kind) ==> c in live && c != h[p].regular[i])
    {
      var k0 := Before(p, i, q, k);
      assert h[q].regular[k0] == h'[q].regular[k];
    }
    forall q, q', k, k' | q in h' && q' in h' && 0 <= k < |h'[q].regular| && 0 <= k' < |h'[q'].regular| &&
                          h'[q].regular[k] == h'[q'].regular[k'] && (q != q' || k != k')
      ensures Removable(cbs[h'[q].regular[k]].kind)
    {
      assert h[q].regular[Before(p, i, q, k)] == h[q'].regular[Before(p, i, q', k')];
    }
  }

  /** Where a callback was before the one at `p`, `i` was removed. */
  function Before(p: Pid, i: nat, q: Pid, k: nat): nat {
    if q == p && k >= i then k + 1 else k
  }

  lemma RemovedAt(h: Heap, h': Heap, p: Pid, i: nat)
    requires p in h && i < |h[p].regular| && h' == RemoveAt(h, p, i)
    ensures h'.Keys == h.Keys
    ensures forall q, k :: q in h' && 0 <= k < |h'[q].regular| ==>
              Before(p, i, q, k) < |h[q].regular| && h'[q].regular[k] == h[q].regular[Before(p, i, q, k)]
  {
  }

  lemma RemoveKeepsInv(m: Machine, p: Pid, i: nat)
    requires Inv(m) && p in m.heap && i < |m.heap[p].regular|
    ensures Inv(m.(heap := RemoveAt(m.heap, p, i)))
    ensures
      var c := m.heap[p].regular[i];
      c in m.cbs && (!Removable(m.cbs[c].kind) ==> c in m.live && NotListed(RemoveAt(m.heap, p, i), c))
  {
    hide CbsOk, JoinsOk, FramesOk, QueueOk, RanOk;
    RemoveLists(m.heap, p, i, m.cbs, m.live);
    hide ListsOk;
    HeapOwed(m.heap, RemoveAt(m.heap, p, i), m.owed, m.initial);
    hide OwedOk;
    UpdateHeap(m, RemoveAt(m.heap, p, i));
  }

  lemma RetireLists(h: Heap, cbs: map<Cid, Callback>, live: set<Cid>, c: Cid)
    requires ListsOk(h, cbs, live) && c in cbs && (Removable(cbs[c].kind) || NotListed(h, c))
    ensures ListsOk(h, cbs, live - {c})
  {
  }

  lemma RetireFrames(stack: seq<Frame>, h: Heap, cbs: map<Cid, Callback>, live: set<Cid>, owed: map<Cid, Pid>, c: Cid)
    requires FramesOk(stack, h, cbs, live, owed) && c in live
    ensures FramesOk(stack, h, cbs, live - {c}, owed)
    ensures forall i :: 0 <= i < |stack| && HasToken(stack[i]) ==> stack[i].cb != c
  {
    forall i | 0 <= i < |stack|
      ensures FrameOk(stack[i], h, cbs, live - {c}, owed) && (HasToken(stack[i]) ==> stack[i].cb != c)
    {
      assert FrameOk(stack[i], h, cbs, live, owed);
    }
  }

  lemma RetireCbs(cbs: map<Cid, Callback>, live: set<Cid>, joins: map<Cid, Join>, owed: map<Cid, Pid>, c: Cid)
    requires CbsOk(cbs, live, joins, owed) && JoinsOk(cbs, live, joins, owed)
    requires c in live && !cbs[c].kind.JoinMember?
    ensures CbsOk(cbs, live - {c}, joins, owed) && JoinsOk(cbs, live - {c}, joins, owed)
  {
    forall j | j in joins ensures joins[j].count == |Members(cbs, live - {c}, j)| {
      assert Members(cbs, live - {c}, j) == Members(cbs, live, j);
    }
  }

  /** A callback that starts to run is no longer live, and its obligation is held by nothing else. */
  lemma RetireKeepsInv(m: Machine, c: Cid)
    requires Inv(m) && c in m.live && !m.cbs[c].kind.JoinMember?
    requires Removable(m.cbs[c].kind) || NotListed(m.heap, c)
    ensures
      var m1 := m.(live := m.live - {c}, ran := m.ran + [c]);
      Inv(m1) && Unheld(m1, c) &&
      (HasOuter(m.cbs[c].kind) ==> c in m.owed && m.owed[c] == m.cbs[c].kind.outer)
  {
    hide OwedOk, QueueOk;
    RetireLists(m.heap, m.cbs, m.live, c);
    hide ListsOk;
    RetireFrames(m.stack, m.heap, m.cbs, m.live, m.owed, c);
    hide FramesOk;
    RetireCbs(m.cbs, m.live, m.joins, m.owed, c);
    hide JoinsOk;
  }

  lemma RetireMember(cbs: map<Cid, Callback>, live: set<Cid>, joins: map<Cid, Join>, owed: map<Cid, Pid>, c: Cid,
                     r: Result)
    requires CbsOk(cbs, live, joins, owed) && JoinsOk(cbs, live, joins, owed)
    requires c in live && cbs[c].kind.JoinMember?
    ensures
      var j := cbs[c].kind.join;
      j in joins && j in owed && owed[j] == joins[j].outer && joins[j].count > 0 &&
      var joins' := joins[j := JoinUpdate(joins[j], r)];
      CbsOk(cbs, live - {c}, joins', owed) && JoinsOk(cbs, live - {c}, joins', owed)
  {
    var j := cbs[c].kind.join;
    assert c in Members(cbs, live, j);
    forall k | k in joins
      ensures Members(cbs, live - {c}, k) == if k == j then Members(cbs, live, k) - {c} else Members(cbs, live, k)
    {
    }
  }

  lemma RunMemberKeepsInv(m: Machine, c: Cid, r: Result)
    requires Inv(m) && c in m.live && m.cbs[c].kind.JoinMember? && NotListed(m.heap, c)
    ensures Inv(RunJoinMember(m.(live := m.live - {c}, ran := m.ran + [c]), m.cbs[c].kind.join, r))
  {
    var j := m.cbs[c].kind.join;
    RetireMember(m.cbs, m.live, m.joins, m.owed, c, r);
    var m1 := m.(live := m.live - {c}, ran := m.ran + [c], joins := m.joins[j := JoinUpdate(m.joins[j], r)]);
    RetireLists(m.heap, m.cbs, m.live, c);
    RetireFrames(m.stack, m.heap, m.cbs, m.live, m.owed, c);
    assert Inv(m1) by {
      hide OwedOk, QueueOk, ListsOk, FramesOk, JoinsOk, CbsOk;
    }
    if m1.joins[j].count == 0 {
      assert Unheld(m1, j) by {
        hide OwedOk, QueueOk, ListsOk, JoinsOk, RanOk;
      }
      hide OwedOk, QueueOk, ListsOk, FramesOk, JoinsOk, CbsOk, RanOk, Inv;
      ResolveOuterKeepsInv(m1, j, m1.joins[j].result);
    }
  }

  lemma StorageKeepsInv(m: Machine, s: Storage)
    requires Inv(m)
    ensures Inv(m.(storage := s))
  {
    hide OwedOk, QueueOk, ListsOk, FramesOk, JoinsOk, CbsOk, RanOk;
  }

  /** Whatever callback is run, and whether it goes to user code or resolves a promise. */
  lemma DispatchKeepsInv(m: Machine, c: Cid, r: Result, computed: Result)
    requires Inv(m) && Forest(m.heap) && c in m.cbs && c in m.live
    requires Removable(m.cbs[c].kind) || NotListed(m.heap, c)
    ensures Inv(Dispatch(m, c, r, computed))
  {
    hide OwedOk, QueueOk, ListsOk, FramesOk, JoinsOk, CbsOk, RanOk;
    if m.cbs[c].kind.JoinMember? {
      RunMemberKeepsInv(m, c, r);
    } else {
      var m1 := m.(live := m.live - {c}, ran := m.ran + [c]);
      RetireKeepsInv(m, c);
      var k := m.cbs[c].kind;
      hide Inv;
      if k.Plain? {
        StorageKeepsInv(m1, m.cbs[c].storage);
        PushKeepsInv(m1.(storage := m.cbs[c].storage), User);
      } else if k.Bind? && (if r.Fulfilled? then k.onOk else k.onErr) {
        StorageKeepsInv(m1, m.cbs[c].storage);
        PushKeepsInv(m1.(storage := m.cbs[c].storage), UserBind(c));
      } else if k.Map? && r.Fulfilled? {
        StorageKeepsInv(m1, m.cbs[c].storage);
        PushKeepsInv(m1.(storage := m.cbs[c].storage), UserMap(c));
      } else if k.Pick? {
        PushKeepsInv(m1, PickCancel(c, k.ps, r, AtEnd));
      } else if k.NPick? {
        OuterInHeap(m1, c);
        PushKeepsInv(m1, PickCancel(c, k.ps, computed, Captured(Root(m.heap, k.outer))));
      } else {
        ResolveOuterKeepsInv(m1, c, if k.NChoose? then computed else r);
      }
    }
  }

  lemma CancelTailKeepsInv(m: Machine, rid: Pid)
    requires Inv(m) && rid in m.heap && m.heap[rid].cancel != []
    ensures
      var p := m.heap[rid];
      Inv(m.(heap := m.heap[rid := p.(cancel := p.cancel[1..])], storage := p.cancel[0]))
  {
    hide CbsOk, JoinsOk, FramesOk, QueueOk, RanOk, ListsOk;
    var p := m.heap[rid];
    var h' := m.heap[rid := p.(cancel := p.cancel[1..])];
    HeapLists(m.heap, h', m.cbs, m.live);
    HeapOwed(m.heap, h', m.owed, m.initial);
    hide OwedOk;
    UpdateHeap(m, h');
    StorageKeepsInv(m.(heap := h'), p.cancel[0]);
  }

  lemma InvForest(m: Machine)
    requires Inv(m)
    ensures Forest(m.heap)
  {
  }

  lemma RunStepKeepsInv(m: Machine, rid: Pid, r: Result, computed: Result)
    requires Inv(m) && Forest(m.heap) && m.stack != [] && m.stack[|m.stack| - 1] == Run(rid, r) && rid in m.heap
    ensures Inv(RunStep(m, rid, r, computed))
  {
    hide OwedOk, QueueOk, ListsOk, FramesOk, JoinsOk, CbsOk, RanOk, Inv;
    var p := m.heap[rid];
    if r == Rejected(Canceled) && p.cancel != [] {
      CancelTailKeepsInv(m, rid);
      PushKeepsInv(m.(heap := m.heap[rid := p.(cancel := p.cancel[1..])], storage := p.cancel[0]), User);
    } else if p.regular == [] {
      PopKeepsInv(m);
    } else {
      var c := p.regular[0];
      var m1 := m.(heap := m.heap[rid := p.(regular := p.regular[1..])]);
      assert p.regular[..0] + p.regular[0 + 1..] == p.regular[1..];
      assert RemoveAt(m.heap, rid, 0) == m1.heap;
      RemoveKeepsInv(m, rid, 0);
      if !(Removable(m.cbs[c].kind) && c !in m.live) {
        InvForest(m1);
        DispatchKeepsInv(m1, c, r, computed);
      }
    }
  }

  lemma QueueHead(h: Heap, stack: seq<Frame>, depth: int, queue: seq<(Pid, Result)>,
                  pushed: seq<(Pid, Result)>, drained: seq<(Pid, Result)>)
    requires QueueOk(h, stack, depth, queue, pushed, drained) && queue != []
    ensures QueueOk(h, stack, depth, queue[1..], pushed, drained + [queue[0]])
    ensures queue[0].0 in h && h[queue[0].0].state == Resolved(queue[0].1)
  {
    assert queue[0] == pushed[|drained|];
    assert drained + [queue[0]] + queue[1..] == pushed;
  }

  lemma LoopStepKeepsInv(m: Machine, snapshot: Storage)
    requires Inv(m) && m.stack != [] && m.stack[|m.stack| - 1] == Loop(snapshot)
    ensures Inv(LoopStep(m, snapshot))
  {
    if m.depth == 1 && m.queue != [] {
      QueueHead(m.heap, m.stack, m.depth, m.queue, m.pushed, m.drained);
      hide OwedOk, QueueOk, ListsOk, FramesOk, JoinsOk, CbsOk, RanOk;
      var d := m.queue[0];
      PushKeepsInv(m.(queue := m.queue[1..], drained := m.drained + [d]), Run(d.0, d.1));
    } else {
      PopFrames(m.stack, m.heap, m.cbs, m.live, m.owed);
      hide OwedOk, ListsOk, FramesOk, JoinsOk, CbsOk, RanOk;
      LoopsNonNegative(m.stack[..|m.stack| - 1]);
    }
  }

  lemma LoopsNonNegative(stack: seq<Frame>)
    ensures Loops(stack) >= 0
  {
  }

  lemma CancelRunStepKeepsInv(m: Machine, rids: seq<Pid>)
    requires Inv(m) && m.stack != [] && m.stack[|m.stack| - 1] == CancelRun(rids)
    ensures Inv(CancelRunStep(m, rids))
  {
    PopFrames(m.stack, m.heap, m.cbs, m.live, m.owed);
    hide OwedOk, QueueOk, ListsOk, FramesOk, JoinsOk, CbsOk, RanOk, Inv;
    PopKeepsInv(m);
    if rids != [] {
      PushKeepsInv(Pop(m), CancelRun(rids[1..]));
      RunOrDeferKeepsInv(Push(Pop(m), CancelRun(rids[1..])), rids[0], Rejected(Canceled), Never);
    }
  }

  lemma OuterInHeap(m: Machine, c: Cid)
    requires Inv(m) && c in m.owed
    ensures m.owed[c] in m.heap
  {
  }

  lemma PickStepKeepsInv(m: Machine, c: Cid, rest: seq<Pid>, r: Result, t: Target, order: seq<Pid>)
    requires Inv(m) && Forest(m.heap) && CancelTargets(m.heap, order)
    requires m.stack != [] && m.stack[|m.stack| - 1] == PickCancel(c, rest, r, t) && !Misses(m)
    ensures Inv(PickStep(m, c, rest, r, t, order))
  {
    PopFrames(m.stack, m.heap, m.cbs, m.live, m.owed);
    hide OwedOk, QueueOk, ListsOk, FramesOk, JoinsOk, CbsOk, RanOk, Inv, CancelTargets;
    PopKeepsInv(m);
    if rest != [] {
      PushKeepsInv(Pop(m), PickCancel(c, rest[1..], r, t));
      CancelKeepsInv(Push(Pop(m), PickCancel(c, rest[1..], r, t)), order);
    } else {
      OuterInHeap(Pop(m), c);
      ResolveOuterKeepsInv(Pop(m), c, r);
    }
  }

  lemma EngineKeepsInv(m: Machine, computed: Result, order: seq<Pid>)
    requires Inv(m) && Forest(m.heap) && !UserTurn(m) && CancelTargets(m.heap, order) && !Misses(m)
    ensures Inv(DoEngine(m, computed, order))
  {
    PopFrames(m.stack, m.heap, m.cbs, m.live, m.owed);
    hide OwedOk, QueueOk, ListsOk, FramesOk, JoinsOk, CbsOk, RanOk, Inv, CancelTargets;
    match m.stack[|m.stack| - 1]
    case Loop(snapshot) => LoopStepKeepsInv(m, snapshot);
    case Run(rid, r) => RunStepKeepsInv(m, rid, r, computed);
    case CancelRun(rids) => CancelRunStepKeepsInv(m, rids);
    case PickCancel(c, rest, r, t) => PickStepKeepsInv(m, c, rest, r, t, order);
  }

  lemma ReturnPromiseKeepsInv(m: Machine, u: Pid)
    requires Inv(m) && Forest(m.heap) && m.stack != [] && m.stack[|m.stack| - 1].UserBind? && u in m.heap
    ensures Inv(DoReturnPromise(m, u))
  {
    var f := m.stack[|m.stack| - 1];
    var c := f.cb;
    PopKeepsInv(m);
    var m1 := Discharge(Pop(m), c);
    DischargeKeepsInv(Pop(m), c);
    hide QueueOk, ListsOk, FramesOk, JoinsOk, CbsOk, RanOk;
    MakeIntoProxyKeepsInv(m1, Root(m.heap, m.cbs[c].kind.outer), u);
  }

  lemma ReturnValueKeepsInv(m: Machine, r: Result)
    requires Inv(m) && Forest(m.heap) && m.stack != [] && m.stack[|m.stack| - 1].UserMap?
    ensures Inv(DoReturnValue(m, r))
  {
    var f := m.stack[|m.stack| - 1];
    var c := f.cb;
    PopKeepsInv(m);
    hide QueueOk, ListsOk, FramesOk, JoinsOk, CbsOk, RanOk;
    ResolveOuterKeepsInv(Pop(m), c, r);
  }

  // ------------------------------------------------------------------------------------------
  // New promises and new callbacks
  // ------------------------------------------------------------------------------------------

  lemma NewCellOwed(h: Heap, p: Pid, cell: Promise, owed: map<Cid, Pid>, initial: set<Pid>)
    requires OwedOk(h, owed, initial) && p !in h && !cell.state.Proxy?
    ensures OwedOk(h[p := cell], owed, initial)
    ensures Root(h[p := cell], p) == p
    ensures forall x :: x in h ==> Root(h[p := cell], x) == Root(h, x)
  {
    HeapOwed(h, h[p := cell], owed, initial);
  }

  /** A new cell is owed to nobody and reached by no resolver. */
  lemma NewCellKeepsInv(m: Machine, p: Pid, cell: Promise)
    requires Inv(m) && p !in m.heap && cell.regular == [] && !cell.state.Proxy?
    ensures
      var m1 := m.(heap := m.heap[p := cell]);
      Inv(m1) && Free(m1, p) && NoResolver(m1, p) &&
      forall x :: x in m.heap ==> Root(m1.heap, x) == Root(m.heap, x)
  {
    hide CbsOk, JoinsOk, FramesOk, QueueOk, RanOk;
    HeapLists(m.heap, m.heap[p := cell], m.cbs, m.live);
    hide ListsOk;
    NewCellOwed(m.heap, p, cell, m.owed, m.initial);
    UpdateHeap(m, m.heap[p := cell]);
  }

  lemma NewInitialKeepsInv(m: Machine, p: Pid, cell: Promise)
    requires Inv(m) && p !in m.heap && cell.regular == [] && !cell.state.Proxy?
    ensures Inv(m.(heap := m.heap[p := cell], initial := m.initial + {p}))
  {
    NewCellKeepsInv(m, p, cell);
    hide CbsOk, JoinsOk, FramesOk, QueueOk, RanOk, ListsOk;
    assert OwedOk(m.heap[p := cell], m.owed, m.initial + {p});
  }

  /** More callbacks; the new ones are unknown to the old tables. */
  ghost predicate Grows(cbs: map<Cid, Callback>, live: set<Cid>, cbs': map<Cid, Callback>, live': set<Cid>) {
    && live <= cbs.Keys && live <= live' && live' <= cbs'.Keys
    && (forall c :: c in cbs ==> c in cbs' && cbs'[c] == cbs[c])
    && (forall c :: c in live' && c !in live ==> c !in cbs)
  }

  lemma GrowLists(h: Heap, cbs: map<Cid, Callback>, live: set<Cid>, cbs': map<Cid, Callback>, live': set<Cid>)
    requires ListsOk(h, cbs, live) && Grows(cbs, live, cbs', live')
    ensures ListsOk(h, cbs', live')
    ensures forall c :: c !in cbs ==> NotListed(h, c)
  {
  }

  lemma GrowFrames(stack: seq<Frame>, h: Heap, cbs: map<Cid, Callback>, live: set<Cid>, owed: map<Cid, Pid>,
                   cbs': map<Cid, Callback>, live': set<Cid>, owed': map<Cid, Pid>)
    requires FramesOk(stack, h, cbs, live, owed) && Grows(cbs, live, cbs', live')
    requires forall t :: t in owed ==> t in owed' && owed'[t] == owed[t]
    ensures FramesOk(stack, h, cbs', live', owed')
  {
    forall i | 0 <= i < |stack| ensures FrameOk(stack[i], h, cbs', live', owed') {
      assert FrameOk(stack[i], h, cbs, live, owed);
    }
  }

  lemma GrowRan(ran: seq<Cid>, live: set<Cid>, cbs: map<Cid, Callback>, live': set<Cid>, cbs': map<Cid, Callback>)
    requires RanOk(ran, live, cbs) && Grows(cbs, live, cbs', live')
    ensures RanOk(ran, live', cbs')
  {
  }

  lemma AddOneLists(h: Heap, p: Pid, c: Cid, cbs: map<Cid, Callback>, live: set<Cid>)
    requires ListsOk(h, cbs, live) && p in h && c in cbs
    requires Removable(cbs[c].kind) || (c in live && NotListed(h, c))
    ensures ListsOk(AddRegular(h, p, c), cbs, live)
  {
    var h' := AddRegular(h, p, c);
    forall q, k | q in h' && 0 <= k < |h'[q].regular|
      ensures
        var k0 := if q == p then k - 1 else k;
        if q == p && k == 0 then h'[q].regular[k] == c
        else 0 <= k0 < |h[q].regular| && h'[q].regular[k] == h[q].regular[k0]
    {
    }
  }

  /** Adding callbacks to lists changes nothing but the lists. */
  ghost predicate OnlyLists(h: Heap, h': Heap) {
    && h'.Keys == h.Keys
    && forall p :: p in h ==> h'[p].state == h[p].state && h'[p].how == h[p].how
  }

  /** A list of callbacks, each either removable or new and given once, is added one by one. */
  lemma {:induction false} AddAllLists(h: Heap, rs: seq<Pid>, cs: seq<Cid>, cbs: map<Cid, Callback>, live: set<Cid>)
    requires ListsOk(h, cbs, live) && |rs| == |cs|
    requires forall i :: 0 <= i < |rs| ==> rs[i] in h && cs[i] in cbs
    requires forall i :: 0 <= i < |cs| ==> Removable(cbs[cs[i]].kind) || (cs[i] in live && NotListed(h, cs[i]))
    requires forall i, k :: 0 <= i < k < |cs| ==> Removable(cbs[cs[i]].kind) || cs[i] != cs[k]
    ensures ListsOk(AddAll(h, rs, cs), cbs, live) && OnlyLists(h, AddAll(h, rs, cs))
  {
    if rs != [] {
      var h1 := AddRegular(h, rs[0], cs[0]);
      AddOneLists(h, rs[0], cs[0], cbs, live);
      forall i | 0 <= i < |cs[1..]|
        ensures Removable(cbs[cs[1..][i]].kind) || (cs[1..][i] in live && NotListed(h1, cs[1..][i]))
      {
        assert cs[1..][i] == cs[i + 1] && (Removable(cbs[cs[0]].kind) || cs[0] != cs[i + 1]);
      }
      AddAllLists(h1, rs[1..], cs[1..], cbs, live);
    }
  }

  /** New callbacks of kind `kind` other than join members, on a heap that differs in lists only. */
  lemma RegisterKeepsInv(m: Machine, h': Heap, c: Cid, cb: Callback)
    requires Inv(m) && FreshCb(m, c) && !cb.kind.JoinMember? && OnlyLists(m.heap, h')
    requires ListsOk(h', m.cbs[c := cb], m.live + {c})
    requires HasOuter(cb.kind) ==>
               var o := cb.kind.outer;
               o in m.heap && m.heap[o].state.Pending? && !m.heap[o].how.CancelThisPromise? &&
               Free(m, o) && NoResolver(m, o)
    ensures Inv(m.(heap := h', cbs := m.cbs[c := cb], live := m.live + {c},
                   owed := if HasOuter(cb.kind) then m.owed[c := cb.kind.outer] else m.owed))
  {
    var cbs', live' := m.cbs[c := cb], m.live + {c};
    var owed' := if HasOuter(cb.kind) then m.owed[c := cb.kind.outer] else m.owed;
    RegisterCbs(m.cbs, m.live, m.joins, m.owed, c, cb);
    GrowFrames(m.stack, m.heap, m.cbs, m.live, m.owed, cbs', live', owed');
    HeapFrames(m.stack, m.heap, h', cbs', live', owed');
    GrowRan(m.ran, m.live, m.cbs, live', cbs');
    HeapQueue(m.heap, h', m.stack, m.depth, m.queue, m.pushed, m.drained);
    RegisterOwed(m, h', c, cb);
    hide OwedOk, QueueOk, ListsOk, FramesOk, JoinsOk, CbsOk, RanOk;
  }

  lemma RegisterOwed(m: Machine, h': Heap, c: Cid, cb: Callback)
    requires Inv(m) && OnlyLists(m.heap, h')
    requires HasOuter(cb.kind) ==>
               var o := cb.kind.outer;
               o in m.heap && m.heap[o].state.Pending? && !m.heap[o].how.CancelThisPromise? &&
               Free(m, o) && NoResolver(m, o)
    ensures OwedOk(h', if HasOuter(cb.kind) then m.owed[c := cb.kind.outer] else m.owed, m.initial)
  {
    hide QueueOk, ListsOk, FramesOk, JoinsOk, CbsOk, RanOk;
    HeapOwed(m.heap, h', m.owed, m.initial);
    if HasOuter(cb.kind) {
      OweNew(h', m.owed, m.initial, c, cb.kind.outer);
    }
  }

  lemma RegisterCbs(cbs: map<Cid, Callback>, live: set<Cid>, joins: map<Cid, Join>, owed: map<Cid, Pid>,
                    c: Cid, cb: Callback)
    requires CbsOk(cbs, live, joins, owed) && JoinsOk(cbs, live, joins, owed)
    requires c !in cbs && c !in joins && !cb.kind.JoinMember?
    ensures
      var owed' := if HasOuter(cb.kind) then owed[c := cb.kind.outer] else owed;
      CbsOk(cbs[c := cb], live + {c}, joins, owed') && JoinsOk(cbs[c := cb], live + {c}, joins, owed') &&
      Grows(cbs, live, cbs[c := cb], live + {c}) && c !in owed
  {
    RegisterJoins(cbs, live, joins, owed, c, cb);
    hide JoinsOk;
  }

  lemma RegisterJoins(cbs: map<Cid, Callback>, live: set<Cid>, joins: map<Cid, Join>, owed: map<Cid, Pid>,
                      c: Cid, cb: Callback)
    requires CbsOk(cbs, live, joins, owed) && JoinsOk(cbs, live, joins, owed)
    requires c !in cbs && c !in joins && !cb.kind.JoinMember?
    ensures
      var owed' := if HasOuter(cb.kind) then owed[c := cb.kind.outer] else owed;
      JoinsOk(cbs[c := cb], live + {c}, joins, owed')
  {
    forall j | j in joins ensures Members(cbs[c := cb], live + {c}, j) == Members(cbs, live, j) {
    }
  }

  lemma AddFreshLists(m: Machine, p: Pid, c: Cid, cb: Callback)
    requires Inv(m) && FreshCb(m, c) && p in m.heap
    ensures ListsOk(AddRegular(m.heap, p, c), m.cbs[c := cb], m.live + {c})
    ensures OnlyLists(m.heap, AddRegular(m.heap, p, c))
  {
    hide OwedOk, QueueOk, FramesOk, JoinsOk, RanOk;
    var cbs', live' := m.cbs[c := cb], m.live + {c};
    GrowLists(m.heap, m.cbs, m.live, cbs', live');
    AddOneLists(m.heap, p, c, cbs', live');
  }

  lemma AttachPlainKeepsInv(m: Machine, c: Cid, src: Pid)
    requires Inv(m) && Enabled(m, AttachPlain(c, src))
    ensures Inv(Apply(m, AttachPlain(c, src)))
  {
    var cb := Callback(Plain, m.storage);
    AddFreshLists(m, Root(m.heap, src), c, cb);
    hide OwedOk, QueueOk, ListsOk, FramesOk, JoinsOk, CbsOk, RanOk, Inv;
    RegisterKeepsInv(m, AddRegular(m.heap, Root(m.heap, src), c), c, cb);
  }

  lemma AttachKeepsInv(m: Machine, c: Cid, src: Pid, kind: Kind)
    requires Inv(m) && Forest(m.heap) && FreshCb(m, c) && src in m.heap && HasOuter(kind) && kind.outer !in m.heap
    ensures Inv(DoAttach(m, c, src, kind))
  {
    var root := Root(m.heap, src);
    var how := if kind.Forward? then NotCancelable else PropagateToOne(root);
    var cell := Promise(Pending, how, [], []);
    var m1 := m.(heap := m.heap[kind.outer := cell]);
    var cb := Callback(kind, m.storage);
    NewCellKeepsInv(m, kind.outer, cell);
    AddFreshLists(m1, root, c, cb);
    hide QueueOk, ListsOk, FramesOk, JoinsOk, CbsOk, RanOk, OwedOk, Inv, Free, NoResolver;
    RegisterKeepsInv(m1, AddRegular(m1.heap, root, c), c, cb);
  }

  lemma ChoiceKeepsInv(m: Machine, c: Cid, ps: seq<Pid>, kind: Kind)
    requires Inv(m) && Forest(m.heap) && FreshCb(m, c) && Removable(kind) && kind.outer !in m.heap
    requires forall i :: 0 <= i < |ps| ==> ps[i] in m.heap
    ensures Inv(DoChoice(m, c, ps, kind))
  {
    hide QueueOk, FramesOk, JoinsOk, RanOk, OwedOk, NoResolver, Ranked;
    var rs := Roots(m.heap, ps);
    var cs := seq(|rs|, _ => c);
    var cell := Promise(Pending, PropagateToSeveral(ps), [], []);
    var m1 := m.(heap := m.heap[kind.outer := cell]);
    NewCellKeepsInv(m, kind.outer, cell);
    var cb := Callback(kind, m.storage);
    var cbs', live' := m.cbs[c := cb], m.live + {c};
    GrowLists(m1.heap, m.cbs, m.live, cbs', live');
    AddAllLists(m1.heap, rs, cs, cbs', live');
    hide QueueOk, ListsOk, FramesOk, JoinsOk, CbsOk, RanOk, OwedOk, Inv, Free, NoResolver;
    RegisterKeepsInv(m1, AddAll(m1.heap, rs, cs), c, cb);
  }

  lemma JoinGrows(cbs: map<Cid, Callback>, live: set<Cid>, joins: map<Cid, Join>, owed: map<Cid, Pid>,
                  j: Cid, cs: seq<Cid>, join: Join, storage: Storage)
    requires CbsOk(cbs, live, joins, owed) && j !in cbs
    requires forall i :: 0 <= i < |cs| ==> cs[i] !in cbs && cs[i] !in joins && cs[i] != j
    ensures
      var cbs' := cbs + (map c | c in cs :: Callback(JoinMember(j), storage));
      var live' := live + (set c | c in cs);
      CbsOk(cbs', live', joins[j := join], owed[j := join.outer]) && Grows(cbs, live, cbs', live')
  {
  }

  /** Registering the callbacks `cs` for a new join `j` gives `j` those members, and no other join any. */
  lemma JoinMembers(cbs: map<Cid, Callback>, live: set<Cid>, j: Cid, cs: seq<Cid>, storage: Storage)
    requires live <= cbs.Keys
    requires forall c :: c in live ==> cbs[c].kind != JoinMember(j)
    requires forall i :: 0 <= i < |cs| ==> cs[i] !in cbs
    ensures
      var cbs' := cbs + (map c | c in cs :: Callback(JoinMember(j), storage));
      var live' := live + (set c | c in cs);
      Members(cbs', live', j) == Elements(cs) &&
      forall k :: k != j ==> Members(cbs', live', k) == Members(cbs, live, k)
  {
  }

  lemma JoinCbs(cbs: map<Cid, Callback>, live: set<Cid>, joins: map<Cid, Join>, owed: map<Cid, Pid>,
                j: Cid, cs: seq<Cid>, join: Join, storage: Storage)
    requires JoinsOk(cbs, live, joins, owed) && live <= cbs.Keys
    requires forall c :: c in live ==> cbs[c].kind != JoinMember(j)
    requires j !in joins && join.count == |cs|
    requires forall i :: 0 <= i < |cs| ==> cs[i] !in cbs
    requires forall i, k :: 0 <= i < k < |cs| ==> cs[i] != cs[k]
    ensures
      var cbs' := cbs + (map c | c in cs :: Callback(JoinMember(j), storage));
      var live' := live + (set c | c in cs);
      JoinsOk(cbs', live', joins[j := join], owed[j := join.outer])
  {
    hide Members, Elements;
    JoinMembers(cbs, live, j, cs, storage);
    DistinctSize(cs);
    var cbs' := cbs + (map c | c in cs :: Callback(JoinMember(j), storage));
    var live' := live + (set c | c in cs);
    var joins' := joins[j := join];
    forall k | k in joins' ensures joins'[k].count == |Members(cbs', live', k)| {
    }
  }

  ghost function Elements(cs: seq<Cid>): set<Cid> { set c | c in cs }

  lemma {:induction false} DistinctSize(cs: seq<Cid>)
    requires forall i, k :: 0 <= i < k < |cs| ==> cs[i] != cs[k]
    ensures |Elements(cs)| == |cs|
  {
    if cs != [] {
      DistinctSize(cs[1..]);
      assert cs == [cs[0]] + cs[1..];
      assert Elements(cs) == {cs[0]} + Elements(cs[1..]);
      assert cs[0] !in Elements(cs[1..]);
    }
  }

  lemma JoinLists(h: Heap, rs: seq<Pid>, cs: seq<Cid>, cbs: map<Cid, Callback>, live: set<Cid>, j: Cid,
                  storage: Storage)
    requires ListsOk(h, cbs, live) && live <= cbs.Keys && |rs| == |cs|
    requires forall i :: 0 <= i < |rs| ==> rs[i] in h && cs[i] !in cbs
    requires forall i, k :: 0 <= i < k < |cs| ==> cs[i] != cs[k]
    ensures
      var cbs' := cbs + (map c | c in cs :: Callback(JoinMember(j), storage));
      var live' := live + (set c | c in cs);
      ListsOk(AddAll(h, rs, cs), cbs', live') && OnlyLists(h, AddAll(h, rs, cs))
  {
    var cbs' := cbs + (map c | c in cs :: Callback(JoinMember(j), storage));
    var live' := live + (set c | c in cs);
    GrowLists(h, cbs, live, cbs', live');
    AddAllLists(h, rs, cs, cbs', live');
  }

  lemma JoinOwed(m: Machine, h': Heap, j: Cid, o: Pid)
    requires Inv(m) && OnlyLists(m.heap, h') && o in m.heap && m.heap[o].state.Pending?
    requires !m.heap[o].how.CancelThisPromise? && Free(m, o) && NoResolver(m, o)
    ensures OwedOk(h', m.owed[j := o], m.initial)
  {
    hide QueueOk, ListsOk, FramesOk, JoinsOk, CbsOk, RanOk;
    HeapOwed(m.heap, h', m.owed, m.initial);
    OweNew(h', m.owed, m.initial, j, o);
  }

  lemma RegisterJoinKeepsInv(m: Machine, h': Heap, j: Cid, cs: seq<Cid>, join: Join)
    requires Inv(m) && FreshCb(m, j) && OnlyLists(m.heap, h') && join.count == |cs|
    requires forall i :: 0 <= i < |cs| ==> FreshCb(m, cs[i]) && cs[i] != j
    requires forall i, k :: 0 <= i < k < |cs| ==> cs[i] != cs[k]
    requires
      var cbs' := m.cbs + (map c | c in cs :: Callback(JoinMember(j), m.storage));
      ListsOk(h', cbs', m.live + (set c | c in cs))
    requires join.outer in m.heap && m.heap[join.outer].state.Pending?
    requires !m.heap[join.outer].how.CancelThisPromise? && Free(m, join.outer) && NoResolver(m, join.outer)
    ensures
      Inv(m.(heap := h', cbs := m.cbs + (map c | c in cs :: Callback(JoinMember(j), m.storage)),
             live := m.live + (set c | c in cs), joins := m.joins[j := join], owed := m.owed[j := join.outer]))
  {
    var cbs' := m.cbs + (map c | c in cs :: Callback(JoinMember(j), m.storage));
    var live' := m.live + (set c | c in cs);
    var owed' := m.owed[j := join.outer];
    JoinCbs(m.cbs, m.live, m.joins, m.owed, j, cs, join, m.storage);
    JoinGrows(m.cbs, m.live, m.joins, m.owed, j, cs, join, m.storage);
    assert j !in m.owed;
    GrowFrames(m.stack, m.heap, m.cbs, m.live, m.owed, cbs', live', owed');
    HeapFrames(m.stack, m.heap, h', cbs', live', owed');
    GrowRan(m.ran, m.live, m.cbs, live', cbs');
    HeapQueue(m.heap, h', m.stack, m.depth, m.queue, m.pushed, m.drained);
    JoinOwed(m, h', j, join.outer);
    hide OwedOk, QueueOk, ListsOk, FramesOk, JoinsOk, CbsOk, RanOk;
  }

  lemma JoinKeepsInv(m: Machine, j: Cid, outer: Pid, ps: seq<Pid>, cs: seq<Cid>)
    requires Inv(m) && Forest(m.heap) && FreshCb(m, j) && outer !in m.heap
    requires forall i :: 0 <= i < |ps| ==> ps[i] in m.heap
    requires |cs| == |PendingRoots(m.heap, ps)|
    requires forall i :: 0 <= i < |cs| ==> FreshCb(m, cs[i]) && cs[i] != j
    requires forall i, k :: 0 <= i < k < |cs| ==> cs[i] != cs[k]
    ensures Inv(DoJoin(m, j, outer, ps, cs))
  {
    var rs := PendingRoots(m.heap, ps);
    var cell := Promise(Pending, PropagateToSeveral(ps), [], []);
    var m1 := m.(heap := m.heap[outer := cell]);
    NewCellKeepsInv(m, outer, cell);
    JoinLists(m1.heap, rs, cs, m.cbs, m.live, j, m.storage);
    hide QueueOk, ListsOk, FramesOk, JoinsOk, CbsOk, RanOk, OwedOk, Inv, Free, NoResolver;
    RegisterJoinKeepsInv(m1, AddAll(m1.heap, rs, cs), j, cs, Join(outer, |cs|, FirstRejection(m.heap, ps)));
  }

  lemma OnCancelKeepsInv(m: Machine, src: Pid)
    requires Inv(m) && Enabled(m, OnCancel(src))
    ensures Inv(Apply(m, OnCancel(src)))
  {
    hide CbsOk, JoinsOk, FramesOk, QueueOk, RanOk, ListsOk, Ranked;
    var root := Root(m.heap, src);
    var h' := m.heap[root := m.heap[root].(cancel := [m.storage] + m.heap[root].cancel)];
    HeapLists(m.heap, h', m.cbs, m.live);
    HeapOwed(m.heap, h', m.owed, m.initial);
    hide OwedOk;
    UpdateHeap(m, h');
  }
}
