/** What `join` promises over whole runs: it waits for all its inputs, and its result is a unit value, or the first
    rejection that it meets. */
module PromiseJoins {
  import opened PromiseHeap
  import opened PromiseEngine
  import opened PromiseSafety
  import opened PromiseExtends
  import opened PromiseCaptured
  import opened PromiseRuns
  import opened PromiseIdle
  import opened PromiseLaws
  import opened PromiseMeaning

  // ------------------------------------------------------------------------------------------
  // Only its callbacks change a join
  // ------------------------------------------------------------------------------------------

  lemma ResolveJoins(m: Machine, p: Pid, r: Result, d: Deferring)
    ensures Resolve(m, p, r, d).joins == m.joins
  {
  }

  lemma DispatchJoins(m: Machine, c: Cid, r: Result, computed: Result, j: Cid)
    requires Forest(m.heap) && c in m.cbs && j in m.joins && m.cbs[c].kind != JoinMember(j)
    ensures
      j in Dispatch(m, c, r, computed).joins && Dispatch(m, c, r, computed).joins[j] == m.joins[j]
  {
    hide Ranked, Forest, Root, ResolveOuter;
    var m1 := m.(live := m.live - {c}, ran := m.ran + [c]);
    var k := m.cbs[c].kind;
    if HasOuter(k) {
      ResolveOuterJoins(m1, c, k.outer, r);
      ResolveOuterJoins(m1, c, k.outer, computed);
    } else if k.JoinMember? && k.join in m.joins {
      var join := JoinUpdate(m.joins[k.join], r);
      ResolveOuterJoins(m1.(joins := m.joins[k.join := join]), k.join, join.outer, join.result);
    }
  }

  /** Join `j` is unchanged, or one of its callbacks has run. */
  ghost predicate JoinSame(m: Machine, m': Machine, j: Cid) {
    && j in m.joins && j in m'.joins
    && (m'.joins[j] == m.joins[j] || RunsMember(m, m', j))
  }

  ghost predicate RunsMember(m: Machine, m': Machine, j: Cid) {
    exists rid, r, c :: Runs(m, m', rid, r, c) && c in m.cbs && m.cbs[c].kind == JoinMember(j)
  }

  lemma RunStepJoins(m: Machine, rid: Pid, r: Result, computed: Result, j: Cid)
    requires Forest(m.heap) && m.stack != [] && m.stack[|m.stack| - 1] == Run(rid, r) && j in m.joins
    ensures JoinSame(m, RunStep(m, rid, r, computed), j)
  {
    hide Ranked, Forest, Dispatch;
    if rid in m.heap && !(r == Rejected(Canceled) && m.heap[rid].cancel != []) && m.heap[rid].regular != [] {
      var m1 := Taken(m, rid);
      var c := m.heap[rid].regular[0];
      SameLinksForest(m.heap, m1.heap);
      if c in m.cbs && m.cbs[c].kind != JoinMember(j) {
        DispatchJoins(m1, c, r, computed, j);
      } else if c in m.cbs {
        DispatchBooks(m1, c, r, computed);
        DispatchKeepsJoins(m1, c, r, computed, j);
        assert Runs(m, RunStep(m, rid, r, computed), rid, r, c);
      }
    }
  }

  lemma DispatchKeepsJoins(m: Machine, c: Cid, r: Result, computed: Result, j: Cid)
    requires Forest(m.heap) && c in m.cbs && j in m.joins && m.cbs[c].kind == JoinMember(j)
    ensures j in Dispatch(m, c, r, computed).joins
  {
    hide Ranked, Forest, Root, ResolveOuter;
    var m1 := m.(live := m.live - {c}, ran := m.ran + [c]);
    var join := JoinUpdate(m.joins[j], r);
    ResolveOuterJoins(m1.(joins := m.joins[j := join]), j, join.outer, join.result);
  }

  lemma PickStepJoins(m: Machine, c: Cid, rest: seq<Pid>, r: Result, t: Target, order: seq<Pid>)
    requires Forest(m.heap) && m.stack != []
    ensures PickStep(m, c, rest, r, t, order).joins == m.joins
  {
    hide Ranked, Forest, Resolve, ResolveOuter;
    if rest == [] && t.Captured? {
      ResolveJoins(Discharge(Pop(m), c), t.p, r, Never);
    } else if rest == [] && c in m.cbs && HasOuter(m.cbs[c].kind) {
      ResolveOuterJoins(Pop(m), c, m.cbs[c].kind.outer, r);
    }
  }

  lemma ReturnJoins(m: Machine, a: Action)
    requires Enabled(m, a) && (a.ReturnPromise? || a.ReturnValue?)
    ensures Apply(m, a).joins == m.joins
  {
    hide Ranked, Forest, Resolve, ResolveOuter;
    var c := m.stack[|m.stack| - 1].cb;
    if c in m.cbs && HasOuter(m.cbs[c].kind) {
      var outer := m.cbs[c].kind.outer;
      if a.ReturnValue? {
        ResolveOuterJoins(Pop(m), c, outer, a.r);
      } else if outer in m.heap && Observed(m.heap, a.u).Resolved? {
        ResolveJoins(Discharge(Pop(m), c), Root(m.heap, outer), Observed(m.heap, a.u).result, Never);
      }
    }
  }

  lemma ApplyJoins(m: Machine, a: Action, j: Cid)
    requires Enabled(m, a) && j in m.joins
    ensures JoinSame(m, Apply(m, a), j)
  {
    hide Ranked, Forest, Resolve, ResolveOuter, RunStep, PickStep, AddAll, PendingRoots, RunsMember;
    match a
    case Engine(computed, order) =>
      match m.stack[|m.stack| - 1] {
        case Run(rid, r) => RunStepJoins(m, rid, r, computed, j);
        case PickCancel(c, rest, r, t) => PickStepJoins(m, c, rest, r, t, order);
        case _ =>
      }
    case Wakeup(p, r, later) => ResolveJoins(m, Root(m.heap, p), r, if later then FromDepth(1) else Never);
    case ReturnPromise(u) => ReturnJoins(m, a);
    case ReturnValue(r) => ReturnJoins(m, a);
    case _ =>
  }

  // ------------------------------------------------------------------------------------------
  // What holds of a join in every state
  // ------------------------------------------------------------------------------------------

  /** Input `p` is resolved, and not rejected as long as the join has met no rejection. */
  ghost predicate Looked(h: Heap, p: Pid, result: Result)
    requires Forest(h) && p in h
  {
    Observed(h, p).Resolved? && (result.Fulfilled? ==> Observed(h, p).result.Fulfilled?)
  }

  /** Some callback `cs[e]` that has not run is there for input `p`. */
  ghost predicate Awaited(m: Machine, cs: seq<Cid>, rs: seq<Pid>, p: Pid)
    requires Forest(m.heap) && p in m.heap && |cs| == |rs|
  {
    exists e :: 0 <= e < |cs| && cs[e] !in m.ran && rs[e] in m.heap && Root(m.heap, rs[e]) == Root(m.heap, p)
  }

  /** `x` stands for one of `ps`. */
  ghost predicate StandsForOne(h: Heap, x: Pid, ps: seq<Pid>)
    requires Forest(h) && x in h && forall k :: 0 <= k < |ps| ==> ps[k] in h
  {
    exists k :: 0 <= k < |ps| && Root(h, x) == Root(h, ps[k])
  }

  /** The callbacks of join `j` are `cs`, one for each of `rs`, which stand for inputs among `ps`. */
  ghost predicate MembersAre(m: Machine, j: Cid, ps: seq<Pid>, cs: seq<Cid>, rs: seq<Pid>)
    requires |cs| == |rs|
  {
    && Forest(m.heap) && (forall k :: 0 <= k < |ps| ==> ps[k] in m.heap)
    && (forall e :: 0 <= e < |cs| ==>
          && cs[e] in m.cbs && m.cbs[cs[e]].kind == JoinMember(j) && rs[e] in m.heap
          && StandsForOne(m.heap, rs[e], ps))
    && (forall e, f :: 0 <= e < f < |cs| ==> cs[e] != cs[f])
    && (forall c :: c in m.cbs && m.cbs[c].kind == JoinMember(j) ==> c in cs)
  }

  /** The join keeps a result that it has met at one of its inputs, and when it waits for none the promise that it made
      has that result. */
  ghost predicate ResultOk(h: Heap, join: Join, outer: Pid, ps: seq<Pid>)
    requires Forest(h) && forall k :: 0 <= k < |ps| ==> ps[k] in h
  {
    && join.outer == outer && outer in h
    && (join.result.Fulfilled? ==> join.result == Fulfilled(0))
    && (join.result.Rejected? ==> exists k :: 0 <= k < |ps| && Observed(h, ps[k]) == Resolved(join.result))
    && (join.count == 0 ==> Observed(h, outer) == Resolved(join.result))
  }

  /** The join waits for every input that it has not looked at. */
  ghost predicate JoinOk(m: Machine, j: Cid, outer: Pid, ps: seq<Pid>, cs: seq<Cid>, rs: seq<Pid>)
    requires |cs| == |rs|
  {
    && MembersAre(m, j, ps, cs, rs) && j in m.joins && ResultOk(m.heap, m.joins[j], outer, ps)
    && forall k :: 0 <= k < |ps| ==> Looked(m.heap, ps[k], m.joins[j].result) || Awaited(m, cs, rs, ps[k])
  }

  /** Later machines have no more callbacks of the join. */
  lemma MembersStay(m: Machine, a: Action, j: Cid, ps: seq<Pid>, cs: seq<Cid>, rs: seq<Pid>)
    requires Inv(m) && Enabled(m, a) && j in m.joins && |cs| == |rs| && MembersAre(m, j, ps, cs, rs)
    ensures MembersAre(Apply(m, a), j, ps, cs, rs)
  {
    hide Inv, Ranked, Forest, Root, Enabled, Apply, Extends, MembersAre;
    CallbacksStay(m, a);
    ApplyExtends(m, a);
    forall c | c in Apply(m, a).cbs && c !in m.cbs ensures Apply(m, a).cbs[c].kind != JoinMember(j) {
      NewMember(m, a, c, j);
    }
    MembersFollow(m, Apply(m, a), j, ps, cs, rs);
  }

  lemma MembersFollow(m: Machine, m': Machine, j: Cid, ps: seq<Pid>, cs: seq<Cid>, rs: seq<Pid>)
    requires |cs| == |rs| && MembersAre(m, j, ps, cs, rs) && Extends(m.heap, m'.heap)
    requires forall c :: c in m.cbs ==> c in m'.cbs && m'.cbs[c] == m.cbs[c]
    requires forall c :: c in m'.cbs && c !in m.cbs ==> m'.cbs[c].kind != JoinMember(j)
    ensures MembersAre(m', j, ps, cs, rs)
  {
    hide Ranked, Forest, Root, Observed, StandsForOne;
    forall e | 0 <= e < |cs| ensures rs[e] in m'.heap && StandsForOne(m'.heap, rs[e], ps) {
      StandsStays(m.heap, m'.heap, rs[e], ps);
    }
  }

  lemma StandsStays(h: Heap, h': Heap, x: Pid, ps: seq<Pid>)
    requires Extends(h, h') && x in h && (forall k :: 0 <= k < |ps| ==> ps[k] in h) && StandsForOne(h, x, ps)
    ensures Forest(h') && x in h' && (forall k :: 0 <= k < |ps| ==> ps[k] in h') && StandsForOne(h', x, ps)
  {
    hide Ranked, Forest, Root, Observed;
    var k :| 0 <= k < |ps| && Root(h, x) == Root(h, ps[k]);
    assert Root(h', x) == Root(h', ps[k]);
  }

  /** A new callback of a join belongs to a new join. */
  lemma NewMember(m: Machine, a: Action, c: Cid, j: Cid)
    requires Enabled(m, a) && c !in m.cbs && c in Apply(m, a).cbs && j in m.joins
    ensures Apply(m, a).cbs[c].kind != JoinMember(j)
  {
    hide Ranked, Forest, Resolve, ResolveOuter, DoEngine, MakeIntoProxy, AddAll, PendingRoots;
    if a.Engine? {
      EngineCallbacks(m, a.computed, a.order);
    } else if a.ReturnPromise? || a.ReturnValue? {
      ReturnCallbacks(m, a);
    } else if a.Wakeup? {
      ResolveCallbacks(m, Root(m.heap, a.p), a.r, if a.later then FromDepth(1) else Never);
    }
  }

  // ------------------------------------------------------------------------------------------
  // Every step
  // ------------------------------------------------------------------------------------------

  lemma InputsStay(m: Machine, a: Action, j: Cid, ps: seq<Pid>, cs: seq<Cid>, rs: seq<Pid>, result: Result)
    requires Inv(m) && Enabled(m, a) && |cs| == |rs| && MembersAre(m, j, ps, cs, rs)
    requires forall k :: 0 <= k < |ps| ==> Looked(m.heap, ps[k], result) || Awaited(m, cs, rs, ps[k])
    requires forall c :: c in Apply(m, a).ran && c !in m.ran ==> c !in cs
    ensures Forest(Apply(m, a).heap) && forall k :: 0 <= k < |ps| ==> ps[k] in Apply(m, a).heap
    ensures
      var m' := Apply(m, a);
      forall k :: 0 <= k < |ps| ==> Looked(m'.heap, ps[k], result) || Awaited(m', cs, rs, ps[k])
  {
    hide Inv, Ranked, Forest, Root, Enabled, Apply;
    ApplyExtends(m, a);
    var m' := Apply(m, a);
    forall k | 0 <= k < |ps| ensures Looked(m'.heap, ps[k], result) || Awaited(m', cs, rs, ps[k]) {
      if Awaited(m, cs, rs, ps[k]) {
        var e :| 0 <= e < |cs| && cs[e] !in m.ran && rs[e] in m.heap && Root(m.heap, rs[e]) == Root(m.heap, ps[k]);
        assert cs[e] !in m'.ran && Root(m'.heap, rs[e]) == Root(m'.heap, ps[k]);
      }
    }
  }

  lemma ResultStays(h: Heap, h': Heap, join: Join, outer: Pid, ps: seq<Pid>)
    requires Extends(h, h') && (forall k :: 0 <= k < |ps| ==> ps[k] in h) && ResultOk(h, join, outer, ps)
    ensures Forest(h') && (forall k :: 0 <= k < |ps| ==> ps[k] in h') && ResultOk(h', join, outer, ps)
  {
    hide Ranked, Forest, Root, Observed;
    if join.result.Rejected? {
      var k :| 0 <= k < |ps| && Observed(h, ps[k]) == Resolved(join.result);
      assert Observed(h', ps[k]) == Resolved(join.result);
    }
  }

  lemma OtherStep(m: Machine, a: Action, j: Cid, outer: Pid, ps: seq<Pid>, cs: seq<Cid>, rs: seq<Pid>)
    requires Inv(m) && Enabled(m, a) && |cs| == |rs| && JoinOk(m, j, outer, ps, cs, rs)
    requires j in Apply(m, a).joins && Apply(m, a).joins[j] == m.joins[j]
    requires forall c :: c in Apply(m, a).ran && c !in m.ran ==> c !in cs
    ensures JoinOk(Apply(m, a), j, outer, ps, cs, rs)
  {
    hide Inv, Ranked, Forest, Root, Enabled, Apply, MembersAre, Looked, Awaited, Observed;
    MembersStay(m, a, j, ps, cs, rs);
    ApplyExtends(m, a);
    InputsIn(m, j, ps, cs, rs);
    InputsStay(m, a, j, ps, cs, rs, m.joins[j].result);
    ResultStays(m.heap, Apply(m, a).heap, m.joins[j], outer, ps);
    hide Extends;
  }

  lemma InputsIn(m: Machine, j: Cid, ps: seq<Pid>, cs: seq<Cid>, rs: seq<Pid>)
    requires |cs| == |rs| && MembersAre(m, j, ps, cs, rs)
    ensures Forest(m.heap) && forall k :: 0 <= k < |ps| ==> ps[k] in m.heap
  {
    hide Ranked, Forest, Root;
  }

  /** One of the callbacks of the join runs, on the result of the input that it is there for. */
  lemma MemberStep(m: Machine, a: Action, j: Cid, outer: Pid, ps: seq<Pid>, cs: seq<Cid>, rs: seq<Pid>, e: nat,
                   rid: Pid, r: Result)
    requires Inv(m) && Enabled(m, a) && a.Engine? && |cs| == |rs| && JoinOk(m, j, outer, ps, cs, rs) && e < |cs|
    requires Runs(m, Apply(m, a), rid, r, cs[e])
    requires rs[e] in m.heap && Forest(m.heap) && Observed(m.heap, rs[e]) == Resolved(r)
    ensures JoinOk(Apply(m, a), j, outer, ps, cs, rs)
  {
    hide Inv, Ranked, Forest, Root, Enabled, Apply, Looked, Awaited, Extends, SameObserved;
    var m' := Apply(m, a);
    MembersStay(m, a, j, ps, cs, rs);
    ApplyExtends(m, a);
    JoinCounts(m, rid, r, cs[e], a.computed, a.order);
    var join, join' := m.joins[j], m'.joins[j];
    MemberInputs(m, m', j, ps, cs, rs, e, rid, r, join.result, join'.result);
    MemberResult(m, m', j, outer, ps, cs, rs, e, r);
  }

  lemma MemberInputs(m: Machine, m': Machine, j: Cid, ps: seq<Pid>, cs: seq<Cid>, rs: seq<Pid>, e: nat, rid: Pid,
                     r: Result, result: Result, result': Result)
    requires |cs| == |rs| && MembersAre(m, j, ps, cs, rs) && e < |cs| && Extends(m.heap, m'.heap)
    requires m'.ran == m.ran + [cs[e]] && Observed(m.heap, rs[e]) == Resolved(r)
    requires KeepsFirstRejection(result, r, result')
    requires forall k :: 0 <= k < |ps| ==> Looked(m.heap, ps[k], result) || Awaited(m, cs, rs, ps[k])
    ensures Forest(m'.heap) && forall k :: 0 <= k < |ps| ==> ps[k] in m'.heap
    ensures forall k :: 0 <= k < |ps| ==> Looked(m'.heap, ps[k], result') || Awaited(m', cs, rs, ps[k])
  {
    hide Ranked, Forest, Root, Observed, Looked, Awaited;
    forall k | 0 <= k < |ps| ensures Looked(m'.heap, ps[k], result') || Awaited(m', cs, rs, ps[k]) {
      MemberInput(m, m', cs, rs, e, r, result, result', ps[k]);
    }
  }

  lemma MemberInput(m: Machine, m': Machine, cs: seq<Cid>, rs: seq<Pid>, e: nat, r: Result, result: Result,
                    result': Result, p: Pid)
    requires Extends(m.heap, m'.heap) && p in m.heap && p in m'.heap
    requires |cs| == |rs| && e < |cs| && forall f, g :: 0 <= f < g < |cs| ==> cs[f] != cs[g]
    requires m'.ran == m.ran + [cs[e]] && rs[e] in m.heap && Observed(m.heap, rs[e]) == Resolved(r)
    requires KeepsFirstRejection(result, r, result') && (Looked(m.heap, p, result) || Awaited(m, cs, rs, p))
    ensures Looked(m'.heap, p, result') || Awaited(m', cs, rs, p)
  {
    hide Ranked, Forest, Root;
    if !Looked(m.heap, p, result) {
      var f :| 0 <= f < |cs| && cs[f] !in m.ran && rs[f] in m.heap && Root(m.heap, rs[f]) == Root(m.heap, p);
      if f == e {
        assert Observed(m.heap, p) == Resolved(r);
      } else {
        assert cs[f] !in m'.ran && Root(m'.heap, rs[f]) == Root(m'.heap, p);
      }
    }
  }

  lemma MemberResult(m: Machine, m': Machine, j: Cid, outer: Pid, ps: seq<Pid>, cs: seq<Cid>, rs: seq<Pid>, e: nat,
                     r: Result)
    requires |cs| == |rs| && MembersAre(m, j, ps, cs, rs) && e < |cs| && Extends(m.heap, m'.heap)
    requires Observed(m.heap, rs[e]) == Resolved(r)
    requires j in m.joins && j in m'.joins && ResultOk(m.heap, m.joins[j], outer, ps) && m.joins[j].count > 0
    requires m'.joins[j].outer == outer && m'.joins[j].count == m.joins[j].count - 1
    requires KeepsFirstRejection(m.joins[j].result, r, m'.joins[j].result)
    requires m.joins[j].count > 1 || ResolvesExactly(m.heap, m'.heap, Root(m.heap, outer), m'.joins[j].result)
    ensures Forest(m'.heap) && (forall k :: 0 <= k < |ps| ==> ps[k] in m'.heap)
    ensures ResultOk(m'.heap, m'.joins[j], outer, ps)
  {
    hide Ranked, Forest, Root;
    var result := m.joins[j].result;
    if result.Rejected? {
      var k :| 0 <= k < |ps| && Observed(m.heap, ps[k]) == Resolved(result);
      assert Observed(m'.heap, ps[k]) == Resolved(result);
    } else {
      var k :| 0 <= k < |ps| && Root(m.heap, rs[e]) == Root(m.heap, ps[k]);
      assert Observed(m'.heap, ps[k]) == Resolved(r);
    }
  }

  // ------------------------------------------------------------------------------------------
  // Every run
  // ------------------------------------------------------------------------------------------

  /** `join` has been called in state `i`, with a pending input. */
  ghost predicate JoinedAt(ms: seq<Machine>, i: nat, a: Action) {
    IsRun(ms) && IsStep(ms, i, a) && a.NewJoin?
  }

  /** The promises that the callbacks of the join are registered with. */
  ghost function AwaitedAt(ms: seq<Machine>, i: nat, a: Action): seq<Pid>
    requires JoinedAt(ms, i, a)
  {
    PendingRoots(ms[i].heap, a.ps)
  }

  lemma {:induction false} PendingCovered(h: Heap, ps: seq<Pid>)
    requires Forest(h) && forall k :: 0 <= k < |ps| ==> ps[k] in h
    ensures forall x :: x in PendingRoots(h, ps) ==> x in h && StandsForOne(h, x, ps)
    ensures forall k :: 0 <= k < |ps| && Observed(h, ps[k]).Pending? ==> Root(h, ps[k]) in PendingRoots(h, ps)
  {
    hide Ranked, Forest, Root, Observed, StandsForOne;
    if ps != [] {
      PendingCovered(h, ps[1..]);
      forall x | x in PendingRoots(h, ps) ensures x in h && StandsForOne(h, x, ps) {
        if x in PendingRoots(h, ps[1..]) {
          StandsForTail(h, x, ps);
        } else {
          StandsForHead(h, ps);
        }
      }
      forall k | 0 <= k < |ps| && Observed(h, ps[k]).Pending? ensures Root(h, ps[k]) in PendingRoots(h, ps) {
        if k > 0 {
          assert ps[k] == ps[1..][k - 1];
        }
      }
    }
  }

  lemma StandsForTail(h: Heap, x: Pid, ps: seq<Pid>)
    requires Forest(h) && x in h && (forall k :: 0 <= k < |ps| ==> ps[k] in h) && ps != []
    requires StandsForOne(h, x, ps[1..])
    ensures StandsForOne(h, x, ps)
  {
    hide Ranked, Forest, Root;
    var k :| 0 <= k < |ps[1..]| && Root(h, x) == Root(h, ps[1..][k]);
    assert Root(h, x) == Root(h, ps[k + 1]);
  }

  lemma StandsForHead(h: Heap, ps: seq<Pid>)
    requires Forest(h) && (forall k :: 0 <= k < |ps| ==> ps[k] in h) && ps != []
    ensures Root(h, ps[0]) in h && StandsForOne(h, Root(h, ps[0]), ps)
  {
    hide Ranked, Forest, Root;
    RootOfRoot(h, ps[0]);
    assert Root(h, Root(h, ps[0])) == Root(h, ps[0]);
  }

  /** The join starts from a rejection of an input, or, if it has met none, from a unit value. */
  lemma {:induction false} FirstIsMet(h: Heap, ps: seq<Pid>)
    requires Forest(h) && forall k :: 0 <= k < |ps| ==> ps[k] in h
    ensures
      var result := FirstRejection(h, ps);
      && (result.Rejected? ==> exists k :: 0 <= k < |ps| && Observed(h, ps[k]) == Resolved(result))
      && (result.Fulfilled? ==> result == Fulfilled(0))
      && forall k :: 0 <= k < |ps| && Observed(h, ps[k]).Resolved? ==> Looked(h, ps[k], result)
  {
    hide Ranked, Forest, Root, Observed;
    if ps != [] {
      FirstIsMet(h, ps[1..]);
      var result, rest := FirstRejection(h, ps), FirstRejection(h, ps[1..]);
      if Observed(h, ps[0]) == Resolved(result) {
      } else if result.Rejected? {
        var k :| 0 <= k < |ps[1..]| && Observed(h, ps[1..][k]) == Resolved(result);
        assert Observed(h, ps[k + 1]) == Resolved(result);
      }
      forall k | 0 <= k < |ps| && Observed(h, ps[k]).Resolved? ensures Looked(h, ps[k], result) {
        if k > 0 {
          assert ps[k] == ps[1..][k - 1];
          assert Looked(h, ps[k], rest);
        }
      }
    }
  }

  /** Every callback of a join belongs to one that has been made. */
  ghost predicate JoinsMade(m: Machine) {
    forall c :: c in m.cbs && m.cbs[c].kind.JoinMember? ==> m.cbs[c].kind.join in m.joins
  }

  /** A new callback of a join comes with the join. */
  lemma NewMemberMade(m: Machine, a: Action, c: Cid)
    requires Enabled(m, a) && c !in m.cbs && c in Apply(m, a).cbs && Apply(m, a).cbs[c].kind.JoinMember?
    ensures Apply(m, a).cbs[c].kind.join in Apply(m, a).joins
  {
    hide Ranked, Forest, Resolve, ResolveOuter, DoEngine, MakeIntoProxy, AddAll, PendingRoots;
    if a.Engine? {
      EngineCallbacks(m, a.computed, a.order);
    } else if a.ReturnPromise? || a.ReturnValue? {
      ReturnCallbacks(m, a);
    } else if a.Wakeup? {
      ResolveCallbacks(m, Root(m.heap, a.p), a.r, if a.later then FromDepth(1) else Never);
    }
  }

  lemma ApplyMade(m: Machine, a: Action)
    requires Enabled(m, a) && JoinsMade(m)
    ensures JoinsMade(Apply(m, a))
  {
    hide Enabled, Apply, RunsMember;
    CallbacksStay(m, a);
    var m' := Apply(m, a);
    forall c | c in m'.cbs && m'.cbs[c].kind.JoinMember? ensures m'.cbs[c].kind.join in m'.joins {
      if c in m.cbs {
        ApplyJoins(m, a, m.cbs[c].kind.join);
      } else {
        NewMemberMade(m, a, c);
      }
    }
  }

  lemma {:induction false} RunMade(ms: seq<Machine>, n: nat)
    requires IsRun(ms) && n < |ms|
    ensures JoinsMade(ms[n])
  {
    hide Inv, Enabled, Apply;
    if n > 0 {
      RunMade(ms, n - 1);
      var a := StepAt(ms, n - 1);
      hide JoinsMade;
      ApplyMade(ms[n - 1], a);
    }
  }

  lemma StartCallbacks(m: Machine, j: Cid, outer: Pid, ps: seq<Pid>, cs: seq<Cid>)
    requires JoinsMade(m) && Enabled(m, NewJoin(j, outer, ps, cs))
    ensures
      var m' := Apply(m, NewJoin(j, outer, ps, cs));
      && (forall e :: 0 <= e < |cs| ==> cs[e] in m'.cbs && m'.cbs[cs[e]].kind == JoinMember(j))
      && (forall e, f :: 0 <= e < f < |cs| ==> cs[e] != cs[f])
      && (forall c :: c in m'.cbs && m'.cbs[c].kind == JoinMember(j) ==> c in cs)
  {
    hide Ranked, Forest, AddAll, PendingRoots, Root;
  }

  lemma StartSources(m: Machine, a: Action, e: nat)
    requires Enabled(m, a) && a.NewJoin? && e < |a.cs|
    ensures |PendingRoots(m.heap, a.ps)| == |a.cs|
    ensures
      var h', x := Apply(m, a).heap, PendingRoots(m.heap, a.ps)[e];
      && Forest(h') && x in h' && (forall k :: 0 <= k < |a.ps| ==> a.ps[k] in h') && StandsForOne(h', x, a.ps)
  {
    hide Ranked, Forest, Apply, PendingRoots, Root, StandsForOne, Extends;
    PendingCovered(m.heap, a.ps);
    ApplyExtends(m, a);
    StandsStays(m.heap, Apply(m, a).heap, PendingRoots(m.heap, a.ps)[e], a.ps);
  }

  lemma StartMembers(m: Machine, a: Action)
    requires JoinsMade(m) && Enabled(m, a) && a.NewJoin?
    ensures |a.cs| == |PendingRoots(m.heap, a.ps)|
    ensures MembersAre(Apply(m, a), a.j, a.ps, a.cs, PendingRoots(m.heap, a.ps))
  {
    StartCallbacks(m, a.j, a.outer, a.ps, a.cs);
    StartInputs(m, a);
    hide Ranked, Forest, Apply, PendingRoots, Root, JoinsMade, Enabled, StandsForOne;
    var rs, h' := PendingRoots(m.heap, a.ps), Apply(m, a).heap;
    forall e | 0 <= e < |a.cs| ensures rs[e] in h' && StandsForOne(h', rs[e], a.ps) {
      StartSources(m, a, e);
    }
  }

  lemma StartInputs(m: Machine, a: Action)
    requires Enabled(m, a) && a.NewJoin?
    ensures |a.cs| == |PendingRoots(m.heap, a.ps)|
    ensures Forest(m.heap) && Forest(Apply(m, a).heap)
    ensures forall k :: 0 <= k < |a.ps| ==> a.ps[k] in m.heap && a.ps[k] in Apply(m, a).heap
  {
    hide Ranked, Forest, Apply, PendingRoots, Root;
    ApplyForest(m, a);
    ApplyExtends(m, a);
  }

  lemma AwaitedRoot(m: Machine, a: Action, x: Pid, p: Pid)
    requires Enabled(m, a) && Forest(m.heap) && p in m.heap && x == Root(m.heap, p)
    ensures
      var h' := Apply(m, a).heap;
      Forest(h') && x in h' && p in h' && Root(h', x) == Root(h', p)
  {
    hide Ranked, Forest, Enabled, Apply;
    ApplyExtends(m, a);
    RootOfRoot(m.heap, p);
  }

  lemma StartOk(m: Machine, a: Action)
    requires Inv(m) && JoinsMade(m) && Enabled(m, a) && a.NewJoin?
    ensures |a.cs| == |PendingRoots(m.heap, a.ps)|
    ensures JoinOk(Apply(m, a), a.j, a.outer, a.ps, a.cs, PendingRoots(m.heap, a.ps))
  {
    StartMembers(m, a);
    StartResult(m, a);
    StartInputs(m, a);
    hide Inv, Ranked, Forest, Root, Enabled, Apply, PendingRoots, JoinsMade, MembersAre, ResultOk, FirstRejection;
    FirstIsMet(m.heap, a.ps);
    var m', rs := Apply(m, a), PendingRoots(m.heap, a.ps);
    forall k | 0 <= k < |a.ps|
      ensures Looked(m'.heap, a.ps[k], m'.joins[a.j].result) || Awaited(m', a.cs, rs, a.ps[k])
    {
      StartInput(m, a, k);
    }
  }

  lemma StartResult(m: Machine, a: Action)
    requires Enabled(m, a) && a.NewJoin?
    ensures
      var m' := Apply(m, a);
      && Forest(m'.heap) && (forall k :: 0 <= k < |a.ps| ==> a.ps[k] in m.heap && a.ps[k] in m'.heap)
      && Forest(m.heap) && a.j in m'.joins && m'.joins[a.j].result == FirstRejection(m.heap, a.ps)
      && ResultOk(m'.heap, m'.joins[a.j], a.outer, a.ps)
  {
    StartInputs(m, a);
    JoinLaw(m, a.j, a.outer, a.ps, a.cs);
    ApplyExtends(m, a);
    hide Ranked, Forest, Root, Apply, PendingRoots, FirstRejection, Given;
    FirstIsMet(m.heap, a.ps);
  }

  lemma StartInput(m: Machine, a: Action, k: nat)
    requires Inv(m) && Enabled(m, a) && a.NewJoin? && k < |a.ps|
    requires a.ps[k] in m.heap && Forest(m.heap)
    requires Observed(m.heap, a.ps[k]).Resolved? ==> Looked(m.heap, a.ps[k], FirstRejection(m.heap, a.ps))
    ensures
      var m', rs := Apply(m, a), PendingRoots(m.heap, a.ps);
      && Forest(m'.heap) && a.ps[k] in m'.heap && |a.cs| == |rs|
      && (Looked(m'.heap, a.ps[k], FirstRejection(m.heap, a.ps)) || Awaited(m', a.cs, rs, a.ps[k]))
  {
    StartInputs(m, a);
    FreshMembers(m, a);
    hide Inv, Ranked, Forest, Root, Enabled, Apply, PendingRoots, FirstRejection;
    ApplyExtends(m, a);
    PendingCovered(m.heap, a.ps);
    var rs := PendingRoots(m.heap, a.ps);
    if Observed(m.heap, a.ps[k]).Pending? {
      var e :| 0 <= e < |rs| && rs[e] == Root(m.heap, a.ps[k]);
      AwaitedRoot(m, a, rs[e], a.ps[k]);
    }
  }

  lemma FreshMembers(m: Machine, a: Action)
    requires Inv(m) && Enabled(m, a) && a.NewJoin?
    ensures forall e :: 0 <= e < |a.cs| ==> a.cs[e] !in Apply(m, a).ran
  {
    hide OwedOk, CbsOk, JoinsOk, ListsOk, FramesOk, QueueOk, Ranked, Forest, AddAll, PendingRoots;
  }

  /** In every state of every run after `join` has been called, what `JoinOk` says holds. */
  lemma {:induction false} RunJoinOk(ms: seq<Machine>, i: nat, a: Action, n: nat)
    requires JoinedAt(ms, i, a) && i < n < |ms|
    ensures |a.cs| == |AwaitedAt(ms, i, a)|
    ensures JoinOk(ms[n], a.j, a.outer, a.ps, a.cs, AwaitedAt(ms, i, a))
  {
    hide Inv, Enabled, Apply, IsRun, JoinOk, Root, Forest, PendingRoots, Ranked;
    if n == i + 1 {
      EnabledInv(ms, i, a);
      RunMade(ms, i);
      StartOk(ms[i], a);
    } else {
      RunJoinOk(ms, i, a, n - 1);
      RunStepOk(ms, i, a, n - 1);
    }
  }

  lemma RunStepOk(ms: seq<Machine>, i: nat, a: Action, n: nat)
    requires JoinedAt(ms, i, a) && i < n && n + 1 < |ms|
    requires |a.cs| == |AwaitedAt(ms, i, a)| && JoinOk(ms[n], a.j, a.outer, a.ps, a.cs, AwaitedAt(ms, i, a))
    ensures JoinOk(ms[n + 1], a.j, a.outer, a.ps, a.cs, AwaitedAt(ms, i, a))
  {
    hide Inv, Enabled, Apply, IsRun, Root, Forest, Ranked, MembersAre, ResultOk, Looked, Awaited, AwaitedAt, Runs;
    var b := StepAt(ms, n);
    var m, m', rs := ms[n], ms[n + 1], AwaitedAt(ms, i, a);
    ApplyJoins(m, b, a.j);
    ApplyRan(m, b);
    if m'.ran == m.ran {
      NobodyRuns(m, m', a.j);
      OtherStep(m, b, a.j, a.outer, a.ps, a.cs, rs);
    } else {
      var rid, r, c :| Runs(m, m', rid, r, c);
      RunsOne(m, m', rid, r, c);
      if c in a.cs {
        var e :| 0 <= e < |a.cs| && a.cs[e] == c;
        MemberSource(ms, i, a, n, e, rid, r);
        MemberStep(m, b, a.j, a.outer, a.ps, a.cs, rs, e, rid, r);
      } else {
        OthersRun(m, m', a.j, a.ps, a.cs, rs, rid, r, c);
        OtherStep(m, b, a.j, a.outer, a.ps, a.cs, rs);
      }
    }
  }

  lemma NobodyRuns(m: Machine, m': Machine, j: Cid)
    requires JoinSame(m, m', j) && m'.ran == m.ran
    ensures m'.joins[j] == m.joins[j]
  {
    hide NextIs, IsFilled;
  }

  lemma OthersRun(m: Machine, m': Machine, j: Cid, ps: seq<Pid>, cs: seq<Cid>, rs: seq<Pid>, rid: Pid, r: Result,
                  c: Cid)
    requires |cs| == |rs| && MembersAre(m, j, ps, cs, rs) && JoinSame(m, m', j)
    requires Runs(m, m', rid, r, c) && c !in cs
    ensures m'.joins[j] == m.joins[j]
  {
    hide NextIs, IsFilled, Ranked, Forest, Root;
    if RunsMember(m, m', j) {
      var rid1, r1, c1 :| Runs(m, m', rid1, r1, c1) && c1 in m.cbs && m.cbs[c1].kind == JoinMember(j);
      OneRuns(m, m', rid, r, c, rid1, r1, c1);
      assert false;
    }
  }

  /** A callback of the join runs on the result of the input that it is there for. */
  lemma MemberSource(ms: seq<Machine>, i: nat, a: Action, n: nat, e: nat, rid: Pid, r: Result)
    requires JoinedAt(ms, i, a) && i < n && n + 1 < |ms| && Inv(ms[n])
    requires |a.cs| == |AwaitedAt(ms, i, a)| && e < |a.cs| && Runs(ms[n], ms[n + 1], rid, r, a.cs[e])
    ensures Forest(ms[n].heap) && AwaitedAt(ms, i, a)[e] in ms[n].heap
    ensures Observed(ms[n].heap, AwaitedAt(ms, i, a)[e]) == Resolved(r)
  {
    hide Inv, IsRun, Root, Forest, Ranked, PendingRoots, NextIs, IsFilled, Apply;
    var x := AwaitedAt(ms, i, a)[e];
    assert Registers(ms[i], a, a.cs[e], JoinMember(a.j), [x]);
    hide Enabled;
    StaysRegistered(ms, i, a, a.cs[e], JoinMember(a.j), [x], n);
    RunsWithSource(ms[n], a.cs[e], [x], rid, r);
    var k :| 0 <= k < |[x]| && [x][k] in ms[n].heap && Observed(ms[n].heap, [x][k]) == Resolved(r);
    assert [x][k] == x;
  }

  lemma OneRuns(m: Machine, m': Machine, rid: Pid, r: Result, c: Cid, rid1: Pid, r1: Result, c1: Cid)
    requires Runs(m, m', rid, r, c) && Runs(m, m', rid1, r1, c1)
    ensures c == c1
  {
    hide NextIs, IsFilled;
    assert m'.ran[|m.ran|] == c;
  }

  // ------------------------------------------------------------------------------------------
  // What join promises
  // ------------------------------------------------------------------------------------------

  /** The join waits exactly as long as some of its callbacks has not run. */
  lemma CountIsZero(m: Machine, j: Cid, ps: seq<Pid>, cs: seq<Cid>, rs: seq<Pid>)
    requires Inv(m) && Books(m) && |cs| == |rs| && MembersAre(m, j, ps, cs, rs) && j in m.joins
    ensures m.joins[j].count >= 0
    ensures m.joins[j].count == 0 <==> forall e :: 0 <= e < |cs| ==> cs[e] in m.ran
  {
    hide OwedOk, ListsOk, FramesOk, QueueOk, Ranked, Forest, Root, Listed;
    var live := Members(m.cbs, m.live, j);
    if forall e :: 0 <= e < |cs| ==> cs[e] in m.ran {
      forall c | c in cs ensures c !in m.live {
        var e :| 0 <= e < |cs| && cs[e] == c;
        assert cs[e] in m.ran;
      }
      assert live == {};
    } else {
      var e :| 0 <= e < |cs| && cs[e] !in m.ran;
      assert cs[e] in live;
    }
  }

  /** As long as it waits, the promise that it made is pending. */
  lemma PendingWhileWaiting(m: Machine, j: Cid)
    requires Inv(m) && j in m.joins && m.joins[j].count > 0
    ensures Forest(m.heap) && m.joins[j].outer in m.heap && Observed(m.heap, m.joins[j].outer).Pending?
  {
    hide ListsOk, FramesOk, QueueOk, RanOk, Ranked;
    assert j in m.owed && m.owed[j] == m.joins[j].outer;
  }

  /** In every run, the promise that `join` made is resolved only when all inputs are: with a unit value if they are all
      fulfilled, and otherwise with the rejection of one of them. */
  lemma JoinResolves(ms: seq<Machine>, i: nat, a: Action, n: nat)
    requires JoinedAt(ms, i, a) && i < n < |ms| && !ms[n].crashed
    ensures Forest(ms[n].heap) && a.outer in ms[n].heap && forall k :: 0 <= k < |a.ps| ==> a.ps[k] in ms[n].heap
    ensures Observed(ms[n].heap, a.outer).Resolved? ==>
              && (forall k :: 0 <= k < |a.ps| ==> Observed(ms[n].heap, a.ps[k]).Resolved?)
              && if forall k :: 0 <= k < |a.ps| ==> Observed(ms[n].heap, a.ps[k]).result.Fulfilled? then
                   Observed(ms[n].heap, a.outer) == Resolved(Fulfilled(0))
                 else
                   && Observed(ms[n].heap, a.outer).result.Rejected?
                   && exists k :: 0 <= k < |a.ps| && Observed(ms[n].heap, a.ps[k]) == Observed(ms[n].heap, a.outer)
  {
    hide Inv, IsRun, Root, Forest, Ranked, Enabled, Apply, AwaitedAt, MembersAre;
    RunJoinOk(ms, i, a, n);
    RunInv(ms, n);
    RunBooks(ms, n);
    InputsIn(ms[n], a.j, a.ps, a.cs, AwaitedAt(ms, i, a));
    CountIsZero(ms[n], a.j, a.ps, a.cs, AwaitedAt(ms, i, a));
    if ms[n].joins[a.j].count > 0 {
      PendingWhileWaiting(ms[n], a.j);
    }
    hide Books;
  }

  /** In every run, whenever the engine is idle, it is resolved exactly if all inputs are. */
  lemma JoinWaitsForAll(ms: seq<Machine>, i: nat, a: Action, n: nat)
    requires JoinedAt(ms, i, a) && i < n < |ms| && ms[n].stack == [] && !ms[n].crashed
    ensures Forest(ms[n].heap) && a.outer in ms[n].heap && forall k :: 0 <= k < |a.ps| ==> a.ps[k] in ms[n].heap
    ensures Observed(ms[n].heap, a.outer).Resolved? <==>
              forall k :: 0 <= k < |a.ps| ==> Observed(ms[n].heap, a.ps[k]).Resolved?
  {
    hide Inv, IsRun, Root, Forest, Ranked, Enabled, Apply, AwaitedAt, Looked, Awaited, Books;
    JoinResolves(ms, i, a, n);
    if forall k :: 0 <= k < |a.ps| ==> Observed(ms[n].heap, a.ps[k]).Resolved? {
      RunJoinOk(ms, i, a, n);
      RunInv(ms, n);
      RunBooks(ms, n);
      forall e | 0 <= e < |a.cs| ensures a.cs[e] in ms[n].ran {
        AwaitedHasRun(ms, i, a, n, e);
      }
      CountIsZero(ms[n], a.j, a.ps, a.cs, AwaitedAt(ms, i, a));
    }
  }

  lemma AwaitedHasRun(ms: seq<Machine>, i: nat, a: Action, n: nat, e: nat)
    requires JoinedAt(ms, i, a) && i < n < |ms| && ms[n].stack == [] && !ms[n].crashed
    requires |a.cs| == |AwaitedAt(ms, i, a)| && JoinOk(ms[n], a.j, a.outer, a.ps, a.cs, AwaitedAt(ms, i, a))
    requires forall k :: 0 <= k < |a.ps| ==> Observed(ms[n].heap, a.ps[k]).Resolved?
    requires e < |a.cs|
    ensures a.cs[e] in ms[n].ran
  {
    hide Inv, IsRun, Root, Forest, Ranked, Apply, Looked, Awaited, PendingRoots;
    var x := AwaitedAt(ms, i, a)[e];
    assert Registers(ms[i], a, a.cs[e], JoinMember(a.j), [x]);
    hide Enabled;
    WhenIdle(ms, i, a, a.cs[e], JoinMember(a.j), x, n);
    var k :| 0 <= k < |a.ps| && Root(ms[n].heap, x) == Root(ms[n].heap, a.ps[k]);
    assert Observed(ms[n].heap, a.ps[k]).Resolved?;
  }

  /** In every run, the first rejection that the join meets is the one that it keeps. */
  lemma {:induction false} FirstRejectionStays(ms: seq<Machine>, n: nat, n': nat, j: Cid)
    requires IsRun(ms) && n <= n' < |ms| && j in ms[n].joins && ms[n].joins[j].result.Rejected?
    ensures j in ms[n'].joins && ms[n'].joins[j].result == ms[n].joins[j].result
  {
    hide Inv, IsRun, Enabled, Apply, Runs;
    if n < n' {
      FirstRejectionStays(ms, n, n' - 1, j);
      var a := StepAt(ms, n' - 1);
      RejectionStays(ms[n' - 1], a, j);
    }
  }

  lemma RejectionStays(m: Machine, a: Action, j: Cid)
    requires Inv(m) && Enabled(m, a) && j in m.joins && m.joins[j].result.Rejected?
    ensures j in Apply(m, a).joins && Apply(m, a).joins[j].result == m.joins[j].result
  {
    hide Inv, Enabled, Apply, Forest, Ranked, SameObserved, ResolvesExactly, RunsNext;
    ApplyJoins(m, a, j);
    var m' := Apply(m, a);
    if m'.joins[j] != m.joins[j] {
      var rid, r, c :| Runs(m, m', rid, r, c) && c in m.cbs && m.cbs[c].kind == JoinMember(j);
      RunsByEngine(m, a, rid, r, c);
      JoinCounts(m, rid, r, c, a.computed, a.order);
    }
  }

  lemma RunsByEngine(m: Machine, a: Action, rid: Pid, r: Result, c: Cid)
    requires Enabled(m, a) && Runs(m, Apply(m, a), rid, r, c)
    ensures a.Engine?
  {
    hide NextIs, IsFilled, Enabled, Apply;
    ApplyRan(m, a);
    assert Apply(m, a).ran != m.ran;
  }
}
