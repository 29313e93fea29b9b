/** The promise engine of src/core/lwt.ml as a machine over its atomic actions.

    User code runs at top level and inside callbacks, and may perform any sequence of API calls
    before it returns, so re-entrancy is explicit: the machine keeps the stack of engine activities
    that user code interrupts.  The fields `owed`, `ran`, `pushed` and `drained` are bookkeeping; no
    action looks at them. */
module PromiseEngine {
  import opened PromiseHeap

  // ------------------------------------------------------------------------------------------
  // State
  // ------------------------------------------------------------------------------------------

  /** The closures that the engine registers as regular callbacks, with what they capture. */
  datatype Kind =
    | Bind(outer: Pid, onOk: bool, onErr: bool) // bind, catch, try_bind, finalize
    | Map(outer: Pid)
    | Forward(outer: Pid)                       // no_cancel
    | Choose(outer: Pid)
    | NChoose(outer: Pid)                       // nchoose, nchoose_split
    | Pick(outer: Pid, ps: seq<Pid>)
    | NPick(outer: Pid, ps: seq<Pid>)
    | JoinMember(join: Cid)
    | Plain                                     // on_any, on_success, on_failure, on_termination

  predicate HasOuter(k: Kind) { !k.JoinMember? && !k.Plain? }

  /** Callbacks that are shared between promises through a clearable cell. */
  predicate Removable(k: Kind) { k.Choose? || k.NChoose? || k.Pick? || k.NPick? }

  datatype Callback = Callback(kind: Kind, storage: Storage)

  datatype Join = Join(outer: Pid, count: int, result: Result)

  /** What pick and npick resolve when they have cancelled their inputs: the promise that the outer one stands for
      then, or the one that it stood for before. */
  datatype Target = AtEnd | Captured(p: Pid)

  datatype Frame =
    | Loop(snapshot: Storage)                                 // an entered resolution loop
    | Run(rid: Pid, result: Result)                           // run_callbacks on the record of `rid`
    | CancelRun(rids: seq<Pid>)                               // second phase of cancel
    | PickCancel(cb: Cid, rest: seq<Pid>, picked: Result, target: Target) // callback of pick or npick, cancelling
    | UserBind(cb: Cid)                                       // user function that returns a promise
    | UserMap(cb: Cid)                                        // user function that returns a value
    | User                                                    // user code nobody waits for

  datatype Machine = Machine(
    heap: Heap,
    cbs: map<Cid, Callback>,
    live: set<Cid>,                   // callbacks not run yet; for removable ones, a filled cell
    joins: map<Cid, Join>,
    initial: set<Pid>,                // promises created by wait and task
    stack: seq<Frame>,                // innermost activity last
    queue: seq<(Pid, Result)>,        // deferred_callbacks
    depth: int,                       // current_callback_nesting_depth
    storage: Storage,                 // current_storage
    crashed: bool,                    // a `let Pending callbacks = p.state` met another state
    owed: map<Cid, Pid>,              // promises that a callback, join or frame has yet to resolve
    ran: seq<Cid>,
    pushed: seq<(Pid, Result)>,
    drained: seq<(Pid, Result)>)

  const INITIAL := Machine(map[], map[], {}, map[], {}, [], [], 0, 0, false, map[], [], [], [])

  // ------------------------------------------------------------------------------------------
  // Engine primitives
  // ------------------------------------------------------------------------------------------

  function Push(m: Machine, f: Frame): Machine { m.(stack := m.stack + [f]) }

  function Pop(m: Machine): Machine
    requires m.stack != []
  {
    m.(stack := m.stack[..|m.stack| - 1])
  }

  datatype Deferring = Never | FromDepth(depth: int)

  function RunOrDefer(m: Machine, p: Pid, r: Result, d: Deferring): Machine {
    if d.FromDepth? && m.depth >= d.depth then
      m.(queue := m.queue + [(p, r)], pushed := m.pushed + [(p, r)])
    else
      m.(depth := m.depth + 1, stack := m.stack + [Loop(m.storage), Run(p, r)])
  }

  function Resolve(m: Machine, p: Pid, r: Result, d: Deferring): Machine {
    if p in m.heap && m.heap[p].state.Pending? then
      RunOrDefer(m.(heap := SetState(m.heap, p, Resolved(r))), p, r, d)
    else
      m.(crashed := true)
  }

  function Merge(h: Heap, q: Pid, o: Pid): Heap
    requires q in h && o in h
  {
    var h1 := h[o := h[o].(regular := h[o].regular + h[q].regular,
                           cancel := h[o].cancel + h[q].cancel,
                           how := h[q].how)];
    h1[q := h1[q].(state := Proxy(o), regular := [], cancel := [])]
  }

  ghost function MakeIntoProxy(m: Machine, o: Pid, u: Pid): Machine
    requires Forest(m.heap) && u in m.heap
  {
    var q := Root(m.heap, u);
    if q == o then m
    else match m.heap[q].state
      case Resolved(r) => Resolve(m, o, r, Never)
      case _ =>
        if o in m.heap && m.heap[o].state.Pending? then m.(heap := Merge(m.heap, q, o))
        else m.(crashed := true)
  }

  function Discharge(m: Machine, t: Cid): Machine { m.(owed := m.owed - {t}) }

  /** A callback resolves the promise that stands for the one it captured. */
  ghost function ResolveOuter(m: Machine, t: Cid, outer: Pid, r: Result): Machine
    requires Forest(m.heap)
  {
    if outer in m.heap then Resolve(Discharge(m, t), Root(m.heap, outer), r, Never)
    else m.(crashed := true)
  }

  function AddRegular(h: Heap, p: Pid, c: Cid): (h': Heap)
    requires p in h
    ensures h'.Keys == h.Keys
  {
    h[p := h[p].(regular := [c] + h[p].regular)]
  }

  function AddAll(h: Heap, rs: seq<Pid>, cs: seq<Cid>): (h': Heap)
    requires |rs| == |cs| && forall i :: 0 <= i < |rs| ==> rs[i] in h
  {
    if rs == [] then h else AddAll(AddRegular(h, rs[0], cs[0]), rs[1..], cs[1..])
  }

  /** Rejects every promise of `order` with Canceled. */
  function MarkCanceled(h: Heap, order: seq<Pid>): (h': Heap)
  {
    map p | p in h :: if p in order then h[p].(state := Resolved(Rejected(Canceled))) else h[p]
  }

  predicate CancelTargets(h: Heap, order: seq<Pid>) {
    && (forall i :: 0 <= i < |order| ==>
          order[i] in h && h[order[i]].state.Pending? && h[order[i]].how.CancelThisPromise?)
    && (forall i, j :: 0 <= i < j < |order| ==> order[i] != order[j])
  }

  function Cancel(m: Machine, order: seq<Pid>): Machine {
    Push(m.(heap := MarkCanceled(m.heap, order)), CancelRun(order))
  }

  // ------------------------------------------------------------------------------------------
  // Running callbacks
  // ------------------------------------------------------------------------------------------

  function JoinUpdate(j: Join, r: Result): Join {
    j.(count := j.count - 1, result := if r.Rejected? && j.result.Fulfilled? then r else j.result)
  }

  ghost function RunJoinMember(m: Machine, j: Cid, r: Result): Machine
    requires Forest(m.heap)
  {
    if j !in m.joins then m.(crashed := true)
    else
      var join := JoinUpdate(m.joins[j], r);
      var m1 := m.(joins := m.joins[j := join]);
      if join.count == 0 then ResolveOuter(m1, j, join.outer, join.result) else m1
  }

  /** Runs callback `c` on `r`; `computed` is the result that nchoose collects. */
  ghost function Dispatch(m: Machine, c: Cid, r: Result, computed: Result): Machine
    requires Forest(m.heap) && c in m.cbs
  {
    var m1 := m.(live := m.live - {c}, ran := m.ran + [c]);
    var inUser := m1.(storage := m.cbs[c].storage);
    match m.cbs[c].kind
    case Bind(outer, onOk, onErr) =>
      if if r.Fulfilled? then onOk else onErr then Push(inUser, UserBind(c))
      else ResolveOuter(m1, c, outer, r)
    case Map(outer) =>
      if r.Fulfilled? then Push(inUser, UserMap(c)) else ResolveOuter(m1, c, outer, r)
    case Forward(outer) => ResolveOuter(m1, c, outer, r)
    case Choose(outer) => ResolveOuter(m1, c, outer, r)
    case NChoose(outer) => ResolveOuter(m1, c, outer, computed)
    case Pick(outer, ps) => Push(m1, PickCancel(c, ps, r, AtEnd))
    case NPick(outer, ps) =>
      if outer in m.heap then Push(m1, PickCancel(c, ps, computed, Captured(Root(m.heap, outer))))
      else m1.(crashed := true)
    case JoinMember(j) => RunJoinMember(m1, j, r)
    case Plain => Push(inUser, User)
  }

  /** One iteration of run_callbacks: cancel callbacks first if the promise was canceled. */
  ghost function RunStep(m: Machine, rid: Pid, r: Result, computed: Result): Machine
    requires Forest(m.heap) && m.stack != []
  {
    if rid !in m.heap then m.(crashed := true)
    else
      var p := m.heap[rid];
      if r == Rejected(Canceled) && p.cancel != [] then
        Push(m.(heap := m.heap[rid := p.(cancel := p.cancel[1..])], storage := p.cancel[0]), User)
      else if p.regular == [] then Pop(m)
      else
        var c := p.regular[0];
        var m1 := m.(heap := m.heap[rid := p.(regular := p.regular[1..])]);
        if c !in m.cbs then m.(crashed := true)
        else if Removable(m.cbs[c].kind) && c !in m.live then m1
        else SameLinksForest(m.heap, m1.heap); Dispatch(m1, c, r, computed)
  }

  /** leave_resolution_loop: the outermost loop drains the queue before it leaves. */
  function LoopStep(m: Machine, snapshot: Storage): Machine
    requires m.stack != []
  {
    if m.depth == 1 && m.queue != [] then
      var d := m.queue[0];
      Push(m.(queue := m.queue[1..], drained := m.drained + [d]), Run(d.0, d.1))
    else Pop(m.(depth := m.depth - 1, storage := snapshot))
  }

  function CancelRunStep(m: Machine, rids: seq<Pid>): Machine
    requires m.stack != []
  {
    if rids == [] then Pop(m)
    else RunOrDefer(Push(Pop(m), CancelRun(rids[1..])), rids[0], Rejected(Canceled), Never)
  }

  ghost function PickStep(m: Machine, c: Cid, rest: seq<Pid>, r: Result, t: Target, order: seq<Pid>): Machine
    requires m.stack != [] && Forest(m.heap)
  {
    if rest != [] then Cancel(Push(Pop(m), PickCancel(c, rest[1..], r, t)), order)
    else if t.Captured? then Resolve(Discharge(Pop(m), c), t.p, r, Never)
    else if c in m.cbs && HasOuter(m.cbs[c].kind) then ResolveOuter(Pop(m), c, m.cbs[c].kind.outer, r)
    else m.(crashed := true)
  }

  // ------------------------------------------------------------------------------------------
  // Actions
  // ------------------------------------------------------------------------------------------

  datatype Action =
    | NewInitial(p: Pid, cancelable: bool)                              // wait, task
    | NewResolved(p: Pid, r: Result)                                    // return, fail
    | Attach(c: Cid, src: Pid, kind: Kind)                              // bind, map, ... on a pending promise
    | AttachPlain(c: Cid, src: Pid)                                     // on_any, ... on a pending promise
    | OnCancel(src: Pid)
    | NewJoin(j: Cid, outer: Pid, ps: seq<Pid>, cs: seq<Cid>)           // join with a pending input
    | NewChoice(c: Cid, ps: seq<Pid>, kind: Kind)                       // choose, ... with all inputs pending
    | Wakeup(p: Pid, r: Result, later: bool)
    | CancelPromise(order: seq<Pid>)
    | ReturnPromise(u: Pid)                                             // user function given to bind returns
    | ReturnValue(r: Result)                                            // user function given to map returns
    | ReturnUser
    | SetStorage(s: Storage)                                            // with_value
    | Compress(p: Pid)                                                  // path compression in underlying
    | Sweep(p: Pid, i: nat)                                             // a removable cell leaves a list
    | Engine(computed: Result, order: seq<Pid>)                         // the innermost activity goes on

  predicate UserTurn(m: Machine) {
    m.stack == [] || var f := m.stack[|m.stack| - 1]; f.UserBind? || f.UserMap? || f.User?
  }

  predicate FreshCb(m: Machine, c: Cid) {
    c !in m.cbs && c !in m.joins
  }

  ghost predicate AllPending(h: Heap, ps: seq<Pid>)
    requires Forest(h)
  {
    forall i :: 0 <= i < |ps| ==> ps[i] in h && Observed(h, ps[i]).Pending?
  }

  ghost function Roots(h: Heap, ps: seq<Pid>): (rs: seq<Pid>)
    requires Forest(h) && forall i :: 0 <= i < |ps| ==> ps[i] in h
    ensures |rs| == |ps| && forall i :: 0 <= i < |rs| ==> rs[i] == Root(h, ps[i])
  {
    seq(|ps|, i requires 0 <= i < |ps| => Root(h, ps[i]))
  }

  /** The underlying promises of the inputs of join that are still pending, in order. */
  ghost function PendingRoots(h: Heap, ps: seq<Pid>): (rs: seq<Pid>)
    requires Forest(h) && forall i :: 0 <= i < |ps| ==> ps[i] in h
    ensures forall i :: 0 <= i < |rs| ==> rs[i] in h && h[rs[i]].state.Pending?
  {
    if ps == [] then []
    else if Observed(h, ps[0]).Pending? then [Root(h, ps[0])] + PendingRoots(h, ps[1..])
    else PendingRoots(h, ps[1..])
  }

  /** The result join starts from: the first rejection among the resolved inputs, if any. */
  ghost function FirstRejection(h: Heap, ps: seq<Pid>): Result
    requires Forest(h) && forall i :: 0 <= i < |ps| ==> ps[i] in h
  {
    if ps == [] then Fulfilled(0)
    else
      var s := Observed(h, ps[0]);
      if s.Resolved? && s.result.Rejected? then s.result else FirstRejection(h, ps[1..])
  }

  /** When an action can be taken.  User actions need only references that user code can hold. */
  ghost predicate Enabled(m: Machine, a: Action)
  {
    && !m.crashed
    && Forest(m.heap)
    && match a
       case NewInitial(p, _) => UserTurn(m) && p !in m.heap
       case NewResolved(p, _) => UserTurn(m) && p !in m.heap
       case Attach(c, src, kind) =>
         && UserTurn(m) && FreshCb(m, c) && src in m.heap && Observed(m.heap, src).Pending?
         && (kind.Bind? || kind.Map? || kind.Forward?) && kind.outer !in m.heap
       case AttachPlain(c, src) =>
         UserTurn(m) && FreshCb(m, c) && src in m.heap && Observed(m.heap, src).Pending?
       case OnCancel(src) => UserTurn(m) && src in m.heap && Observed(m.heap, src).Pending?
       case NewJoin(j, outer, ps, cs) =>
         && UserTurn(m) && FreshCb(m, j) && outer !in m.heap
         && (forall i :: 0 <= i < |ps| ==> ps[i] in m.heap)
         && |cs| == |PendingRoots(m.heap, ps)| > 0
         && (forall i :: 0 <= i < |cs| ==> FreshCb(m, cs[i]) && cs[i] != j)
         && (forall i, k :: 0 <= i < k < |cs| ==> cs[i] != cs[k])
       case NewChoice(c, ps, kind) =>
         && UserTurn(m) && FreshCb(m, c) && ps != [] && AllPending(m.heap, ps)
         && Removable(kind) && kind.outer !in m.heap && (kind.Pick? || kind.NPick? ==> kind.ps == ps)
       case Wakeup(p, _, _) => UserTurn(m) && p in m.initial && p in m.heap
       case CancelPromise(order) => UserTurn(m) && CancelTargets(m.heap, order)
       case ReturnPromise(u) => m.stack != [] && m.stack[|m.stack| - 1].UserBind? && u in m.heap
       case ReturnValue(_) => m.stack != [] && m.stack[|m.stack| - 1].UserMap?
       case ReturnUser => m.stack != [] && m.stack[|m.stack| - 1].User?
       case SetStorage(_) => UserTurn(m)
       case Compress(p) => p in m.heap && m.heap[p].state.Proxy?
       case Sweep(p, i) =>
         && p in m.heap && m.heap[p].state.Pending? && i < |m.heap[p].regular|
         && m.heap[p].regular[i] in m.cbs && Removable(m.cbs[m.heap[p].regular[i]].kind)
       case Engine(_, order) => !UserTurn(m) && CancelTargets(m.heap, order)
  }

  ghost function DoAttach(m: Machine, c: Cid, src: Pid, kind: Kind): Machine
    requires Forest(m.heap) && src in m.heap && HasOuter(kind)
  {
    var root := Root(m.heap, src);
    var how := if kind.Forward? then NotCancelable else PropagateToOne(root);
    m.(heap := AddRegular(m.heap[kind.outer := Promise(Pending, how, [], [])], root, c),
       cbs := m.cbs[c := Callback(kind, m.storage)],
       live := m.live + {c},
       owed := m.owed[c := kind.outer])
  }

  ghost function DoJoin(m: Machine, j: Cid, outer: Pid, ps: seq<Pid>, cs: seq<Cid>): Machine
    requires Forest(m.heap) && forall i :: 0 <= i < |ps| ==> ps[i] in m.heap
    requires |cs| == |PendingRoots(m.heap, ps)|
  {
    var rs := PendingRoots(m.heap, ps);
    m.(heap := AddAll(m.heap[outer := Promise(Pending, PropagateToSeveral(ps), [], [])], rs, cs),
       cbs := m.cbs + (map c | c in cs :: Callback(JoinMember(j), m.storage)),
       live := m.live + (set c | c in cs),
       joins := m.joins[j := Join(outer, |cs|, FirstRejection(m.heap, ps))],
       owed := m.owed[j := outer])
  }

  ghost function DoChoice(m: Machine, c: Cid, ps: seq<Pid>, kind: Kind): Machine
    requires Forest(m.heap) && HasOuter(kind) && forall i :: 0 <= i < |ps| ==> ps[i] in m.heap
  {
    var rs := Roots(m.heap, ps);
    m.(heap := AddAll(m.heap[kind.outer := Promise(Pending, PropagateToSeveral(ps), [], [])],
                      rs, seq(|rs|, _ => c)),
       cbs := m.cbs[c := Callback(kind, m.storage)],
       live := m.live + {c},
       owed := m.owed[c := kind.outer])
  }

  /** wakeup and wakeup_later: a resolved promise is left alone, whether the call is ignored
      (Canceled) or raises Invalid_argument. */
  ghost function DoWakeup(m: Machine, p: Pid, r: Result, later: bool): Machine
    requires Forest(m.heap) && p in m.heap
  {
    if Observed(m.heap, p).Resolved? then m
    else Resolve(m, Root(m.heap, p), r, if later then FromDepth(1) else Never)
  }

  ghost function DoReturnPromise(m: Machine, u: Pid): Machine
    requires Forest(m.heap) && m.stack != [] && m.stack[|m.stack| - 1].UserBind? && u in m.heap
  {
    var c := m.stack[|m.stack| - 1].cb;
    if c in m.cbs && HasOuter(m.cbs[c].kind) && m.cbs[c].kind.outer in m.heap then
      MakeIntoProxy(Discharge(Pop(m), c), Root(m.heap, m.cbs[c].kind.outer), u)
    else m.(crashed := true)
  }

  ghost function DoReturnValue(m: Machine, r: Result): Machine
    requires Forest(m.heap) && m.stack != [] && m.stack[|m.stack| - 1].UserMap?
  {
    var c := m.stack[|m.stack| - 1].cb;
    if c in m.cbs && HasOuter(m.cbs[c].kind) then ResolveOuter(Pop(m), c, m.cbs[c].kind.outer, r)
    else m.(crashed := true)
  }

  ghost function DoEngine(m: Machine, computed: Result, order: seq<Pid>): Machine
    requires Forest(m.heap) && !UserTurn(m)
  {
    match m.stack[|m.stack| - 1]
    case Loop(snapshot) => LoopStep(m, snapshot)
    case Run(rid, r) => RunStep(m, rid, r, computed)
    case CancelRun(rids) => CancelRunStep(m, rids)
    case PickCancel(c, rest, r, t) => PickStep(m, c, rest, r, t, order)
  }

  ghost function Apply(m: Machine, a: Action): Machine
    requires Enabled(m, a)
  {
    match a
    case NewInitial(p, cancelable) =>
      m.(heap := m.heap[p := Promise(Pending, if cancelable then CancelThisPromise else NotCancelable, [], [])],
         initial := m.initial + {p})
    case NewResolved(p, r) => m.(heap := m.heap[p := Promise(Resolved(r), NotCancelable, [], [])])
    case Attach(c, src, kind) => DoAttach(m, c, src, kind)
    case AttachPlain(c, src) =>
      m.(heap := AddRegular(m.heap, Root(m.heap, src), c),
         cbs := m.cbs[c := Callback(Plain, m.storage)],
         live := m.live + {c})
    case OnCancel(src) =>
      var root := Root(m.heap, src);
      m.(heap := m.heap[root := m.heap[root].(cancel := [m.storage] + m.heap[root].cancel)])
    case NewJoin(j, outer, ps, cs) => DoJoin(m, j, outer, ps, cs)
    case NewChoice(c, ps, kind) => DoChoice(m, c, ps, kind)
    case Wakeup(p, r, later) => DoWakeup(m, p, r, later)
    case CancelPromise(order) => Cancel(m, order)
    case ReturnPromise(u) => DoReturnPromise(m, u)
    case ReturnValue(r) => DoReturnValue(m, r)
    case ReturnUser => Pop(m)
    case SetStorage(s) => m.(storage := s)
    case Compress(p) => m.(heap := SetState(m.heap, p, Proxy(Root(m.heap, p))))
    case Sweep(p, i) =>
      var l := m.heap[p].regular;
      m.(heap := m.heap[p := m.heap[p].(regular := l[..i] + l[i + 1..])])
    case Engine(computed, order) => DoEngine(m, computed, order)
  }

  /** The innermost activity is the callback of npick, it has cancelled its inputs, and the promise that it captured
      before is not the one that the outer promise stands for any more. */
  ghost predicate Misses(m: Machine) {
    && Forest(m.heap) && m.stack != []
    && var f := m.stack[|m.stack| - 1];
       && f.PickCancel? && f.rest == [] && f.target.Captured? && f.cb in m.cbs && HasOuter(m.cbs[f.cb].kind)
       && m.cbs[f.cb].kind.outer in m.heap && f.target.p != Root(m.heap, m.cbs[f.cb].kind.outer)
  }

  /** Consecutive machines of a run are related by some action. */
  ghost predicate Next(m: Machine, m': Machine) {
    exists a :: Enabled(m, a) && m' == Apply(m, a)
  }

  ghost predicate IsRun(ms: seq<Machine>) {
    && |ms| > 0
    && ms[0] == INITIAL
    && forall i :: 0 <= i < |ms| - 1 ==> Next(ms[i], ms[i + 1])
  }
}
