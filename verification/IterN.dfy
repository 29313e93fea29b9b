/** `nchoose_split` (src/core/lwt.ml) and the bounded concurrent iteration `Lwt_stream.iter_n`
    (src/core/lwt_stream.ml) that rests on it. */
module IterN {

  import opened Common

  datatype Status<+T> = Pending | Fulfilled(value: T) | Rejected(exn: nat)

  /** The result of `nchoose_split`: the values, and the promises still pending. */
  datatype Split<+T> = Split(values: seq<T>, pending: seq<nat>) | Failed(exn: nat)

  /** A result at once, or a callback attached to every member of the list. */
  datatype Answer<+T> = Now(split: Split<T>) | Later | InvalidArgument

  /** `finish`, which the callback calls. */
  function Finish<T>(st: nat -> Status<T>, fulfilled: seq<T>, pending: seq<nat>, ps: seq<nat>): Split<T>
    decreases |ps|
  {
    if ps == [] then Split(Reverse(fulfilled), Reverse(pending))
    else
      match st(ps[0])
      case Fulfilled(v) => Finish(st, [v] + fulfilled, pending, ps[1..])
      case Rejected(e) => Failed(e)
      case Pending => Finish(st, fulfilled, [ps[0]] + pending, ps[1..])
  }

  function CollectResolved<T>(st: nat -> Status<T>, results: seq<T>, pending: seq<nat>, ps: seq<nat>): Split<T>
    decreases |ps|
  {
    if ps == [] then Split(Reverse(results), pending)
    else
      match st(ps[0])
      case Fulfilled(v) => CollectResolved(st, [v] + results, pending, ps[1..])
      case Rejected(e) => Failed(e)
      case Pending => CollectResolved(st, results, [ps[0]] + pending, ps[1..])
  }

  function CheckResolved<T>(st: nat -> Status<T>, pending: seq<nat>, ps: seq<nat>): Answer<T>
    decreases |ps|
  {
    if ps == [] then Later
    else
      match st(ps[0])
      case Fulfilled(v) => Now(CollectResolved(st, [v], pending, ps[1..]))
      case Rejected(e) => Now(Failed(e))
      case Pending => CheckResolved(st, [ps[0]] + pending, ps[1..])
  }

  function NchooseSplit<T>(st: nat -> Status<T>, ps: seq<nat>): Answer<T> {
    if ps == [] then InvalidArgument else CheckResolved(st, [], ps)
  }

  // ------------------------------------------------------------------------------------------
  // Nothing is lost
  // ------------------------------------------------------------------------------------------

  /** The values of the fulfilled members, in list order. */
  ghost function Values<T>(st: nat -> Status<T>, ps: seq<nat>): seq<T> {
    if ps == [] then []
    else if st(ps[0]).Fulfilled? then [st(ps[0]).value] + Values(st, ps[1..])
    else Values(st, ps[1..])
  }

  /** The pending members, in list order. */
  ghost function Unresolved<T>(st: nat -> Status<T>, ps: seq<nat>): seq<nat> {
    if ps == [] then []
    else if st(ps[0]).Pending? then [ps[0]] + Unresolved(st, ps[1..])
    else Unresolved(st, ps[1..])
  }

  ghost predicate NoneRejected<T>(st: nat -> Status<T>, ps: seq<nat>) {
    forall i :: 0 <= i < |ps| ==> !st(ps[i]).Rejected?
  }

  ghost predicate AllPending<T>(st: nat -> Status<T>, ps: seq<nat>) {
    forall i :: 0 <= i < |ps| ==> st(ps[i]).Pending?
  }

  /** The exception of the first rejected member. */
  ghost function FirstExn<T>(st: nat -> Status<T>, ps: seq<nat>): nat
    requires !NoneRejected(st, ps)
  {
    if st(ps[0]).Rejected? then st(ps[0]).exn
    else
      assert !NoneRejected(st, ps[1..]) by { assert forall i :: 0 < i < |ps| ==> ps[i] == ps[1..][i - 1]; }
      FirstExn(st, ps[1..])
  }

  lemma TailRejected<T>(st: nat -> Status<T>, ps: seq<nat>)
    requires ps != []
    ensures NoneRejected(st, ps) <==> !st(ps[0]).Rejected? && NoneRejected(st, ps[1..])
    ensures AllPending(st, ps) <==> st(ps[0]).Pending? && AllPending(st, ps[1..])
  {
    assert forall i :: 0 < i < |ps| ==> ps[i] == ps[1..][i - 1];
  }

  lemma ReverseCons<X>(x: X, s: seq<X>)
    ensures Reverse([x] + s) == Reverse(s) + [x]
  {
    assert ([x] + s)[1..] == s;
  }

  lemma {:induction false} FinishIs<T>(st: nat -> Status<T>, fulfilled: seq<T>, pending: seq<nat>, ps: seq<nat>)
    ensures Finish(st, fulfilled, pending, ps) ==
            if NoneRejected(st, ps) then
              Split(Reverse(fulfilled) + Values(st, ps), Reverse(pending) + Unresolved(st, ps))
            else Failed(FirstExn(st, ps))
    decreases |ps|
  {
    if ps != [] {
      TailRejected(st, ps);
      match st(ps[0])
      case Fulfilled(v) =>
        FinishIs(st, [v] + fulfilled, pending, ps[1..]);
        ReverseCons(v, fulfilled);
      case Rejected(e) =>
      case Pending =>
        FinishIs(st, fulfilled, [ps[0]] + pending, ps[1..]);
        ReverseCons(ps[0], pending);
    }
  }

  lemma {:induction false} CollectIs<T>(st: nat -> Status<T>, results: seq<T>, pending: seq<nat>, ps: seq<nat>)
    ensures CollectResolved(st, results, pending, ps) ==
            if NoneRejected(st, ps) then Split(Reverse(results) + Values(st, ps), Reverse(Unresolved(st, ps)) + pending)
            else Failed(FirstExn(st, ps))
    decreases |ps|
  {
    if ps != [] {
      TailRejected(st, ps);
      match st(ps[0])
      case Fulfilled(v) =>
        CollectIs(st, [v] + results, pending, ps[1..]);
        ReverseCons(v, results);
      case Rejected(e) =>
      case Pending =>
        CollectIs(st, results, [ps[0]] + pending, ps[1..]);
        ReverseCons(ps[0], Unresolved(st, ps[1..]));
    }
  }

  lemma {:induction false} CheckIs<T>(st: nat -> Status<T>, pending: seq<nat>, ps: seq<nat>)
    ensures CheckResolved(st, pending, ps) ==
            if AllPending(st, ps) then Later
            else if NoneRejected(st, ps) then Now(Split(Values(st, ps), Reverse(Unresolved(st, ps)) + pending))
            else Now(Failed(FirstExn(st, ps)))
    decreases |ps|
  {
    if ps != [] {
      TailRejected(st, ps);
      match st(ps[0])
      case Fulfilled(v) =>
        CollectIs(st, [v], pending, ps[1..]);
        assert Reverse([v]) == [v];
      case Rejected(e) =>
      case Pending =>
        var u := Unresolved(st, ps[1..]);
        CheckIs(st, [ps[0]] + pending, ps[1..]);
        ReverseCons(ps[0], u);
        assert Reverse(u) + [ps[0]] + pending == Reverse(u) + ([ps[0]] + pending);
    }
  }

  lemma {:induction false} ReverseMembers<X>(s: seq<X>)
    ensures multiset(Reverse(s)) == multiset(s)
  {
    if s != [] {
      ReverseMembers(s[1..]);
      assert s == [s[0]] + s[1..];
    }
  }

  lemma {:induction false} SplitCounts<T>(st: nat -> Status<T>, ps: seq<nat>)
    requires NoneRejected(st, ps)
    ensures |Values(st, ps)| + |Unresolved(st, ps)| == |ps|
    ensures AllPending(st, ps) <==> Values(st, ps) == []
  {
    if ps != [] {
      TailRejected(st, ps);
      SplitCounts(st, ps[1..]);
    }
  }

  /** What `nchoose_split` answers, at once or when its callback runs.  If a member is rejected, the first such
      exception; else the values of the fulfilled members in list order, and the pending members: in reverse
      order at once, in list order later. */
  lemma SplitExact<T>(st: nat -> Status<T>, ps: seq<nat>)
    requires ps != []
    ensures NchooseSplit(st, ps) ==
            if AllPending(st, ps) then Later
            else if NoneRejected(st, ps) then Now(Split(Values(st, ps), Reverse(Unresolved(st, ps))))
            else Now(Failed(FirstExn(st, ps)))
    ensures Finish(st, [], [], ps) ==
            if NoneRejected(st, ps) then Split(Values(st, ps), Unresolved(st, ps)) else Failed(FirstExn(st, ps))
  {
    CheckIs(st, [], ps);
    FinishIs(st, [], [], ps);
    assert Reverse(Unresolved(st, ps)) + [] == Reverse(Unresolved(st, ps));
  }

  // ------------------------------------------------------------------------------------------
  // iter_n
  // ------------------------------------------------------------------------------------------

  /** Where the loop stands: waiting for `nchoose_split`, waiting for `get`, in the final `join`, or ended
      with the exception of a body. */
  datatype Phase = Choosing | Getting | Joining | Ended(exn: nat)

  /** Bodies are named by the number of the call of `f`; `status` gives the state of the promise of each. */
  datatype State = State(max: nat, running: seq<nat>, available: int, status: seq<Status<()>>, phase: Phase)

  datatype Step =
    | Resolve(status: seq<Status<()>>)   // some promises get resolved
    | Chosen(now: bool)                  // `nchoose_split` answers, at once or through its callback
    | Got(first: Status<()>)             // `get` gives an element; `first` is the state of the body's promise
    | EndOfStream

  /** `iter_n`; a bound that is not positive is an invalid argument. */
  function Start(max: nat): State
    requires max > 0
  {
    State(max, [], max, [], Getting)
  }

  ghost function StatusOf(s: State): nat -> Status<()> {
    (c: nat) => if c < |s.status| then s.status[c] else Pending
  }

  /** Resolved promises keep their state. */
  ghost predicate Follows(a: seq<Status<()>>, b: seq<Status<()>>) {
    |a| == |b| && forall c :: 0 <= c < |a| && !a[c].Pending? ==> b[c] == a[c]
  }

  ghost predicate Enabled(s: State, a: Step) {
    match a
    case Resolve(status) => Follows(s.status, status)
    case Chosen(now) => s.phase.Choosing? && s.running != [] && !AllPending(StatusOf(s), s.running)
    case Got(_) => s.phase.Getting?
    case EndOfStream => s.phase.Getting?
  }

  /** The answer of `nchoose_split` when some running body is resolved. */
  ghost function Choice(s: State, now: bool): Split<()>
    requires s.running != [] && !AllPending(StatusOf(s), s.running)
  {
    SplitExact(StatusOf(s), s.running);
    if now then NchooseSplit(StatusOf(s), s.running).split else Finish(StatusOf(s), [], [], s.running)
  }

  /** The turn of `loop` that follows. */
  function Loop(s: State): State {
    s.(phase := if s.available > 0 then Getting else Choosing)
  }

  ghost function Apply(s: State, a: Step): State
    requires Enabled(s, a)
  {
    match a
    case Resolve(status) => s.(status := status)
    case Chosen(now) =>
      (match Choice(s, now)
       case Failed(e) => s.(phase := Ended(e))
       case Split(complete, running) =>
         s.(running := running, available := s.available + |complete|, phase := Getting))
    case Got(first) =>
      Loop(s.(running := [|s.status|] + s.running, available := s.available - 1, status := s.status + [first]))
    case EndOfStream => s.(phase := Joining)
  }

  ghost predicate Inv(s: State) {
    && s.max > 0 && s.available >= 0 && |s.running| + s.available == s.max
    && (s.phase.Getting? ==> s.available > 0) && (s.phase.Choosing? ==> s.available == 0)
    && (forall c :: 0 <= c < |s.status| && s.status[c].Pending? ==> c in s.running)
  }

  lemma {:induction false} UnresolvedExact<T>(st: nat -> Status<T>, ps: seq<nat>, c: nat)
    ensures c in Unresolved(st, ps) <==> c in ps && st(c).Pending?
  {
    if ps != [] {
      UnresolvedExact(st, ps[1..], c);
      assert ps == [ps[0]] + ps[1..];
    }
  }

  lemma ChoiceKeeps(s: State, now: bool, c: nat)
    requires s.running != [] && !AllPending(StatusOf(s), s.running) && Choice(s, now).Split?
    ensures |Choice(s, now).values| + |Choice(s, now).pending| == |s.running| && Choice(s, now).values != []
    ensures c in s.running && StatusOf(s)(c).Pending? ==> c in Choice(s, now).pending
  {
    var st, u := StatusOf(s), Unresolved(StatusOf(s), s.running);
    SplitExact(st, s.running);
    SplitCounts(st, s.running);
    UnresolvedExact(st, s.running, c);
    ReverseMembers(u);
    assert c in u ==> c in multiset(u);
    assert c in multiset(Reverse(u)) ==> c in Reverse(u);
  }

  lemma StepKeepsInv(s: State, a: Step)
    requires Inv(s) && Enabled(s, a)
    ensures Inv(Apply(s, a))
  {
    if a.Chosen? && Choice(s, a.now).Split? {
      ChoiceKeeps(s, a.now, 0);
      forall c | 0 <= c < |s.status| && s.status[c].Pending? ensures c in Choice(s, a.now).pending {
        ChoiceKeeps(s, a.now, c);
      }
      hide Choice;
    }
  }

  ghost predicate IsRun(max: nat, trace: seq<State>, steps: seq<Step>) {
    && max > 0 && |trace| == |steps| + 1 && trace[0] == Start(max)
    && forall i :: 0 <= i < |steps| ==> Enabled(trace[i], steps[i]) && trace[i + 1] == Apply(trace[i], steps[i])
  }

  lemma {:induction false} RunInv(max: nat, trace: seq<State>, steps: seq<Step>, k: nat)
    requires IsRun(max, trace, steps) && k <= |steps|
    ensures Inv(trace[k]) && trace[k].max == max
  {
    if k > 0 {
      RunInv(max, trace, steps, k - 1);
      StepKeepsInv(trace[k - 1], steps[k - 1]);
    }
  }

  ghost function PendingBodies(s: State): set<nat> {
    set c: nat | c < |s.status| && s.status[c].Pending?
  }

  lemma {:induction false} MembersBound(s: seq<nat>, m: set<nat>)
    requires forall x :: x in m ==> x in s
    ensures |m| <= |s|
  {
    if s == [] {
      assert m == {};
    } else {
      var m' := m - {s[0]};
      assert s == [s[0]] + s[1..];
      MembersBound(s[1..], m');
      assert m <= m' + {s[0]};
      assert |m| <= |m' + {s[0]}| by {
        SubsetSize(m, m' + {s[0]});
      }
    }
  }

  /** In every run the running bodies and the free places are `max` in all, no more than `max` bodies are
      unresolved at any time, and `nchoose_split` is never called with an empty list. */
  lemma NeverTooMany(max: nat, trace: seq<State>, steps: seq<Step>, k: nat)
    requires IsRun(max, trace, steps) && k <= |steps|
    ensures |trace[k].running| + trace[k].available == max
    ensures |PendingBodies(trace[k])| <= max
    ensures trace[k].phase.Choosing? ==>
              trace[k].running != [] && !NchooseSplit(StatusOf(trace[k]), trace[k].running).InvalidArgument?
  {
    var s := trace[k];
    RunInv(max, trace, steps, k);
    MembersBound(s.running, PendingBodies(s));
    if s.phase.Choosing? {
      SplitExact(StatusOf(s), s.running);
    }
  }

  /** When `nchoose_split` answers without failing, at least one place is free. */
  lemma ChoiceFrees(max: nat, trace: seq<State>, steps: seq<Step>, k: nat)
    requires IsRun(max, trace, steps) && k < |steps| && steps[k].Chosen? && !trace[k + 1].phase.Ended?
    ensures trace[k + 1].available > 0 && |trace[k + 1].running| < |trace[k].running|
  {
    RunInv(max, trace, steps, k);
    RunInv(max, trace, steps, k + 1);
  }

  lemma {:induction false} FirstExnIs<T>(st: nat -> Status<T>, ps: seq<nat>)
    requires !NoneRejected(st, ps)
    ensures exists i ::
              && 0 <= i < |ps| && st(ps[i]) == Rejected(FirstExn(st, ps))
              && forall k :: 0 <= k < i ==> !st(ps[k]).Rejected?
  {
    TailRejected(st, ps);
    if st(ps[0]).Rejected? {
      assert st(ps[0]) == Rejected(FirstExn(st, ps));
    } else {
      FirstExnIs(st, ps[1..]);
      var i :| && 0 <= i < |ps[1..]| && st(ps[1..][i]) == Rejected(FirstExn(st, ps[1..]))
               && forall k :: 0 <= k < i ==> !st(ps[1..][k]).Rejected?;
      assert st(ps[i + 1]) == Rejected(FirstExn(st, ps));
      assert forall k :: 0 < k < i + 1 ==> ps[k] == ps[1..][k - 1];
    }
  }

  /** `nchoose_split` ends the loop exactly if some running body has failed, with the exception of the first that has in
      the list; the loop goes on to the next element otherwise, without the bodies that are done. */
  lemma ChosenLaw(s: State, now: bool)
    requires Inv(s) && Enabled(s, Chosen(now))
    ensures
      var s', st := Apply(s, Chosen(now)), StatusOf(s);
      && s'.status == s.status && s'.max == s.max
      && if NoneRejected(st, s.running) then
           && s'.phase.Getting?
           && forall c :: c in s'.running <==> c in s.running && st(c).Pending?
         else
           && s'.phase.Ended? && s'.running == s.running
           && exists i ::
                && 0 <= i < |s.running| && st(s.running[i]) == Rejected(s'.phase.exn)
                && forall k :: 0 <= k < i ==> !st(s.running[k]).Rejected?
  {
    var st := StatusOf(s);
    SplitExact(st, s.running);
    if NoneRejected(st, s.running) {
      var u := Unresolved(st, s.running);
      ReverseMembers(u);
      forall c ensures c in Apply(s, Chosen(now)).running <==> c in s.running && st(c).Pending? {
        UnresolvedExact(st, s.running, c);
        assert (c in u <==> c in multiset(u)) && (c in Reverse(u) <==> c in multiset(Reverse(u)));
      }
    } else {
      FirstExnIs(st, s.running);
    }
  }

  /** An element starts exactly one body, which is the first in the list; the loop asks for another element as long as a
      place is free.  At the end of the stream all bodies not known to be done are joined. */
  lemma GotLaw(s: State, first: Status<()>)
    requires Inv(s) && Enabled(s, Got(first))
    ensures
      var s' := Apply(s, Got(first));
      && s'.status == s.status + [first] && s'.running == [|s.status|] + s.running
      && s'.phase == if |s'.running| < s.max then Getting else Choosing
    ensures Apply(s, EndOfStream) == s.(phase := Joining)
  {
  }

  /** In every run, once the loop has ended no body is started any more, and what the others do is not looked at. */
  lemma {:induction false} EndIsFinal(max: nat, trace: seq<State>, steps: seq<Step>, i: nat, k: nat)
    requires IsRun(max, trace, steps) && i <= k <= |steps| && (trace[i].phase.Ended? || trace[i].phase.Joining?)
    ensures trace[k].phase == trace[i].phase && trace[k].running == trace[i].running
    ensures |trace[k].status| == |trace[i].status|
    decreases k
  {
    if i < k {
      EndIsFinal(max, trace, steps, i, k - 1);
    }
  }
}
