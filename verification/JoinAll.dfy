/** `join` and `all` (src/core/lwt.ml): the promises of a list are waited for, each through its own callback. */
module JoinAll {

  import opened Common

  datatype Outcome<+T> = Fulfilled(value: T) | Rejected(exn: nat)

  /** The outcome of a list member, `None` while it is pending. */
  type Known<T> = seq<Option<Outcome<T>>>

  /** The callback attached for member `index` of the list runs with `outcome`. */
  datatype Event<T> = Event(index: nat, outcome: Outcome<T>)

  /** What is known of the members after some callbacks. */
  ghost function After<T>(ps: Known<T>, events: seq<Event<T>>): (k: Known<T>)
    ensures |k| == |ps|
  {
    if events == [] then ps
    else
      var k, e := After(ps, events[..|events| - 1]), events[|events| - 1];
      if e.index < |k| then k[e.index := Some(e.outcome)] else k
  }

  /** Each callback is one of those attached to a pending member, and runs once. */
  ghost predicate Possible<T>(ps: Known<T>, events: seq<Event<T>>) {
    && (forall i :: 0 <= i < |events| ==> events[i].index < |ps| && ps[events[i].index].None?)
    && (forall i, k :: 0 <= i < k < |events| ==> events[i].index != events[k].index)
  }

  /** The members already resolved at the call, in list order. */
  ghost function Resolved<T>(ps: Known<T>): seq<Outcome<T>> {
    if ps == [] then []
    else
      var r, p := Resolved(ps[..|ps| - 1]), ps[|ps| - 1];
      if p.Some? then r + [p.value] else r
  }

  ghost function Outcomes<T>(events: seq<Event<T>>): (r: seq<Outcome<T>>)
    ensures |r| == |events| && forall i :: 0 <= i < |r| ==> r[i] == events[i].outcome
  {
    seq(|events|, i requires 0 <= i < |events| => events[i].outcome)
  }

  /** All outcomes in the order in which `join` looks at them. */
  ghost function Processed<T>(ps: Known<T>, events: seq<Event<T>>): seq<Outcome<T>> {
    Resolved(ps) + Outcomes(events)
  }

  ghost function Unknown<T>(ps: Known<T>): nat {
    if ps == [] then 0 else Unknown(ps[..|ps| - 1]) + if ps[|ps| - 1].None? then 1 else 0
  }

  ghost function FirstRejection<T>(rs: seq<Outcome<T>>): Option<nat> {
    if rs == [] then None
    else
      var r, o := FirstRejection(rs[..|rs| - 1]), rs[|rs| - 1];
      if r.Some? then r else if o.Rejected? then Some(o.exn) else None
  }

  lemma {:induction false} FirstRejectionIs<T>(rs: seq<Outcome<T>>)
    ensures FirstRejection(rs).None? <==> forall i :: 0 <= i < |rs| ==> rs[i].Fulfilled?
    ensures forall i :: 0 <= i < |rs| && rs[i].Rejected? && (forall k :: 0 <= k < i ==> rs[k].Fulfilled?) ==>
                        FirstRejection(rs) == Some(rs[i].exn)
  {
    if rs != [] {
      var before := rs[..|rs| - 1];
      FirstRejectionIs(before);
      assert forall i :: 0 <= i < |before| ==> rs[i] == before[i];
    }
  }

  /** Of the members already resolved at the call, the first rejected one in list order is looked at first. */
  lemma {:induction false} FirstInList<T>(ps: Known<T>, m: nat)
    requires m < |ps| && IsRejection(ps[m]) && forall k :: 0 <= k < m ==> !IsRejection(ps[k])
    ensures FirstRejection(Resolved(ps)) == Some(ps[m].value.exn)
  {
    if m < |ps| - 1 {
      FirstInList(ps[..|ps| - 1], m);
      ResolvedLast(ps);
    } else {
      NoRejectionBefore(ps[..m]);
      ResolvedLast(ps);
    }
  }

  lemma ResolvedLast<T>(ps: Known<T>)
    requires ps != []
    ensures FirstRejection(Resolved(ps)) ==
            var r, p := FirstRejection(Resolved(ps[..|ps| - 1])), ps[|ps| - 1];
            if r.Some? then r else if IsRejection(p) then Some(p.value.exn) else None
  {
    var rs := Resolved(ps[..|ps| - 1]);
    if ps[|ps| - 1].Some? {
      assert (rs + [ps[|ps| - 1].value])[..|rs|] == rs;
    }
  }

  lemma {:induction false} NoRejectionBefore<T>(ps: Known<T>)
    requires forall k :: 0 <= k < |ps| ==> !IsRejection(ps[k])
    ensures FirstRejection(Resolved(ps)).None?
  {
    if ps != [] {
      NoRejectionBefore(ps[..|ps| - 1]);
      ResolvedLast(ps);
    }
  }

  lemma {:induction false} UnknownUpdate<T>(k: Known<T>, i: nat, o: Outcome<T>)
    requires i < |k| && k[i].None?
    ensures Unknown(k) > 0 && Unknown(k[i := Some(o)]) == Unknown(k) - 1
  {
    var n := |k| - 1;
    if i < n {
      UnknownUpdate(k[..n], i, o);
      assert k[i := Some(o)][..n] == k[..n][i := Some(o)];
    } else {
      assert k[i := Some(o)][..n] == k[..n];
    }
  }

  lemma {:induction false} UnknownZero<T>(k: Known<T>)
    ensures Unknown(k) == 0 <==> forall i :: 0 <= i < |k| ==> k[i].Some?
  {
    if k != [] {
      UnknownZero(k[..|k| - 1]);
    }
  }

  lemma AfterNext<T>(ps: Known<T>, events: seq<Event<T>>, e: Event<T>)
    ensures After(ps, events + [e]) ==
            (var k := After(ps, events); if e.index < |k| then k[e.index := Some(e.outcome)] else k)
    ensures FirstRejection(Processed(ps, events + [e])) ==
            (var r := FirstRejection(Processed(ps, events));
             if r.Some? then r else if e.outcome.Rejected? then Some(e.outcome.exn) else None)
  {
    assert (events + [e])[..|events|] == events;
    var rs := Processed(ps, events + [e]);
    assert rs == Processed(ps, events) + [e.outcome];
    assert rs[..|rs| - 1] == Processed(ps, events);
    hide Processed;
  }

  lemma {:induction false} AfterAt<T>(ps: Known<T>, events: seq<Event<T>>)
    requires Possible(ps, events)
    ensures forall i :: 0 <= i < |events| ==> After(ps, events)[events[i].index] == Some(events[i].outcome)
    ensures forall m :: 0 <= m < |ps| && (forall i :: 0 <= i < |events| ==> events[i].index != m) ==>
                        After(ps, events)[m] == ps[m]
  {
    if events != [] {
      var before := events[..|events| - 1];
      AfterAt(ps, before);
      assert forall i :: 0 <= i < |before| ==> before[i] == events[i];
    }
  }

  lemma {:induction false} ResolvedExact<T>(ps: Known<T>, o: Outcome<T>)
    ensures o in Resolved(ps) <==> Some(o) in ps
  {
    if ps != [] {
      var before := ps[..|ps| - 1];
      ResolvedExact(before, o);
      assert ps == before + [ps[|ps| - 1]];
    }
  }

  lemma {:induction false} UnknownAfter<T>(ps: Known<T>, events: seq<Event<T>>)
    requires Possible(ps, events)
    ensures Unknown(After(ps, events)) == Unknown(ps) - |events|
  {
    if events != [] {
      var before, e := events[..|events| - 1], events[|events| - 1];
      UnknownAfter(ps, before);
      AfterAt(ps, before);
      UnknownUpdate(After(ps, before), e.index, e.outcome);
    }
  }

  lemma ProcessedKnown<T>(ps: Known<T>, events: seq<Event<T>>, i: nat)
    requires Possible(ps, events) && i < |Processed(ps, events)|
    ensures Some(Processed(ps, events)[i]) in After(ps, events)
  {
    AfterAt(ps, events);
    ResolvedExact(ps, Processed(ps, events)[i]);
    hide Resolved, After;
    var k, rs := After(ps, events), Processed(ps, events);
    if i < |Resolved(ps)| {
      assert rs[i] in Resolved(ps);
      assert Some(rs[i]) in ps;
      var m :| 0 <= m < |ps| && ps[m] == Some(rs[i]);
      assert k[m] == ps[m];
    } else {
      assert k[events[i - |Resolved(ps)|].index] == Some(rs[i]);
    }
  }

  lemma KnownProcessed<T>(ps: Known<T>, events: seq<Event<T>>, m: nat)
    requires Possible(ps, events) && m < |ps| && After(ps, events)[m].Some?
    ensures After(ps, events)[m].value in Processed(ps, events)
  {
    AfterAt(ps, events);
    ResolvedExact(ps, After(ps, events)[m].value);
    hide Resolved, After;
    var k, rs := After(ps, events), Processed(ps, events);
    if i :| 0 <= i < |events| && events[i].index == m {
      assert rs[|Resolved(ps)| + i] == k[m].value;
    } else {
      assert Some(k[m].value) in ps;
      assert k[m].value in Resolved(ps);
    }
  }

  /** Some outcome that `join` has looked at is a rejection exactly if some member is known to be rejected. */
  lemma RejectionKnown<T>(ps: Known<T>, events: seq<Event<T>>)
    requires Possible(ps, events)
    ensures
      var r := FirstRejection(Processed(ps, events));
      && (r.Some? ==> Some(Rejected(r.value)) in After(ps, events))
      && (r.None? ==> forall m :: 0 <= m < |ps| ==> !IsRejection(After(ps, events)[m]))
  {
    var rs := Processed(ps, events);
    if FirstRejection(rs).Some? {
      var i := FirstIndex(rs);
      ProcessedKnown(ps, events, i);
    } else {
      FirstRejectionIs(rs);
      forall m | 0 <= m < |ps| ensures !IsRejection(After(ps, events)[m]) {
        if After(ps, events)[m].Some? {
          KnownProcessed(ps, events, m);
        }
      }
    }
  }

  lemma {:induction false} FirstRejectionAppend<T>(a: seq<Outcome<T>>, b: seq<Outcome<T>>)
    ensures FirstRejection(a + b) == if FirstRejection(a).Some? then FirstRejection(a) else FirstRejection(b)
  {
    if b == [] {
      assert a + b == a;
    } else {
      var b' := b[..|b| - 1];
      FirstRejectionAppend(a, b');
      assert (a + b)[..|a + b| - 1] == a + b';
    }
  }

  ghost predicate IsRejection<T>(k: Option<Outcome<T>>) {
    k.Some? && k.value.Rejected?
  }

  /** For every list and every order of callbacks: `join` is resolved exactly when every member has its
      outcome, which is when as many callbacks have run as were attached, and it is rejected exactly if some
      member is: with the first rejection in list order among the members resolved at the call, else with the
      first one processed. */
  lemma JoinOutcome<T>(ps: Known<T>, events: seq<Event<T>>)
    requires Possible(ps, events)
    ensures |events| == Unknown(ps) <==> forall m :: 0 <= m < |ps| ==> After(ps, events)[m].Some?
    ensures FirstRejection(Processed(ps, events)) ==
            if FirstRejection(Resolved(ps)).Some? then FirstRejection(Resolved(ps))
            else FirstRejection(Outcomes(events))
    ensures FirstRejection(Processed(ps, events)).Some? <==>
            exists m :: 0 <= m < |ps| && IsRejection(After(ps, events)[m])
  {
    UnknownAfter(ps, events);
    UnknownZero(After(ps, events));
    FirstRejectionAppend(Resolved(ps), Outcomes(events));
    RejectionKnown(ps, events);
    hide FirstRejection, Resolved, After, Unknown;
    var r, k := FirstRejection(Processed(ps, events)), After(ps, events);
    if r.Some? {
      var m :| 0 <= m < |k| && k[m] == Some(Rejected(r.value));
      assert IsRejection(k[m]);
    }
  }

  /** The state behind `all`: the slots its `bind` callbacks fill, and `join`'s counter and result. */
  class Gather<T> {
    var vs: array<Option<T>>
    var left: nat
    var result: Option<nat>      // the exception of the first rejection
    var done: bool
    ghost var ps: Known<T>
    ghost var events: seq<Event<T>>

    ghost predicate Valid()
      reads this, vs
    {
      && Possible(ps, events) && vs.Length == |ps|
      && left == Unknown(After(ps, events)) && done == (left == 0)
      && result == FirstRejection(Processed(ps, events))
      && Filled(vs[..], After(ps, events))
    }

    /** Binds every member to its slot and joins the results; `ps` gives the members' states at the call. */
    constructor (ps: Known<T>)
      ensures Valid() && this.ps == ps && events == [] && fresh(vs)
    {
      var slots := new Option<T>[|ps|](_ => None);
      for i := 0 to |ps|
        invariant forall m :: 0 <= m < i ==> slots[m] == SlotOf(ps[m])
        invariant forall m :: i <= m < |ps| ==> slots[m] == None
      {
        if ps[i].Some? && ps[i].value.Fulfilled? {
          slots[i] := Some(ps[i].value.value);
        }
      }
      var n: nat, r := 0, None;
      for i := 0 to |ps|
        invariant n == Unknown(ps[..i]) && r == FirstRejection(Resolved(ps[..i])) && Filled(slots[..], ps)
      {
        Attach(ps, i);
        match ps[i]
        case None => n := n + 1;
        case Some(o) =>
          if o.Rejected? && r.None? {
            r := Some(o.exn);
          }
      }
      vs, left, result, done := slots, n, r, n == 0;
      this.ps, events := ps, [];
      new;
      assert ps[..|ps|] == ps && Processed(ps, []) == Resolved(ps) && After(ps, []) == ps;
    }

    /** The `bind` callback of member `i` and then the callback of `join` for it. */
    method Settle(i: nat, o: Outcome<T>)
      requires Valid() && i < |ps| && After(ps, events)[i].None?
      modifies this, vs
      ensures Valid() && ps == old(ps) && vs == old(vs) && events == old(events) + [Event(i, o)]
    {
      hide Possible, After, Processed, Unknown, FirstRejection, Filled;
      ghost var e, k, slots := Event(i, o), After(ps, events), vs[..];
      AfterNext(ps, events, e);
      UnknownUpdate(k, i, o);
      PossibleNext(ps, events, e);
      FilledUpdate(slots, k, i, o);
      if o.Fulfilled? {
        vs[i] := Some(o.value);
      }
      assert vs[..] == slots[i := SlotOf(Some(o))];
      if o.Rejected? && result.None? {
        result := Some(o.exn);
      }
      left := left - 1;
      if left == 0 {
        done := true;
      }
      events := events + [e];
    }

    /** The callback of `map`, for a `join` that is resolved: `None` stands for `assert false`. */
    method Collect() returns (r: Option<Outcome<seq<T>>>)
      requires Valid() && done
      ensures r.Some? && Gathered(After(ps, events), r.value)
      ensures r.value.Rejected? ==> FirstRejection(Processed(ps, events)) == Some(r.value.exn)
    {
      ghost var k := After(ps, events);
      hide After, Unknown, FirstRejection, Processed, Possible;
      UnknownZero(k);
      RejectionKnown(ps, events);
      if result.Some? {
        return Some(Rejected(result.value));
      }
      var i, acc := vs.Length, [];
      while i > 0
        invariant 0 <= i <= vs.Length && |acc| == vs.Length - i
        invariant forall m :: 0 <= m < |acc| ==> k[i + m] == Some(Fulfilled(acc[m]))
      {
        i := i - 1;
        assert !IsRejection(k[i]) && vs[..][i] == SlotOf(k[i]);
        match vs[i]
        case None => return None;
        case Some(x) => acc := [x] + acc;
      }
      assert forall m :: 0 <= m < |k| ==> k[m] == k[0 + m] == Some(Fulfilled(acc[m]));
      assert Gathered(k, Fulfilled(acc));
      r := Some(Fulfilled(acc));
    }
  }

  /** Every member has its outcome, and `r` is the list of their values in list order if all are
      fulfilled, else the rejection of one of them. */
  ghost predicate Gathered<T>(k: Known<T>, r: Outcome<seq<T>>) {
    && (forall m :: 0 <= m < |k| ==> k[m].Some?)
    && (r.Rejected? ==> Some(Rejected(r.exn)) in k)
    && (r.Fulfilled? ==> |r.value| == |k|)
    && (r.Fulfilled? ==> forall m :: 0 <= m < |k| ==> k[m] == Some(Fulfilled(r.value[m])))
  }

  function SlotOf<T>(k: Option<Outcome<T>>): Option<T> {
    if k.Some? && k.value.Fulfilled? then Some(k.value.value) else None
  }

  ghost predicate Filled<T>(vs: seq<Option<T>>, k: Known<T>) {
    |vs| == |k| && forall m :: 0 <= m < |k| ==> vs[m] == SlotOf(k[m])
  }

  lemma FilledUpdate<T>(vs: seq<Option<T>>, k: Known<T>, i: nat, o: Outcome<T>)
    requires Filled(vs, k) && i < |k| && k[i].None?
    ensures vs[i].None? && Filled(vs[i := SlotOf(Some(o))], k[i := Some(o)])
  {
  }

  lemma Attach<T>(ps: Known<T>, i: nat)
    requires i < |ps|
    ensures Unknown(ps[..i + 1]) == Unknown(ps[..i]) + if ps[i].None? then 1 else 0
    ensures FirstRejection(Resolved(ps[..i + 1])) ==
            (var r := FirstRejection(Resolved(ps[..i]));
             if r.Some? || ps[i].None? || ps[i].value.Fulfilled? then r else Some(ps[i].value.exn))
  {
    assert ps[..i + 1][..i] == ps[..i];
    if ps[i].Some? {
      var rs := Resolved(ps[..i]);
      assert (rs + [ps[i].value])[..|rs|] == rs;
    }
  }

  lemma PossibleNext<T>(ps: Known<T>, events: seq<Event<T>>, e: Event<T>)
    requires Possible(ps, events) && e.index < |ps| && After(ps, events)[e.index].None?
    ensures Possible(ps, events + [e])
  {
    AfterAt(ps, events);
  }

  lemma {:induction false} FirstIndex<T>(rs: seq<Outcome<T>>) returns (i: nat)
    requires FirstRejection(rs).Some?
    ensures i < |rs| && rs[i] == Rejected(FirstRejection(rs).value)
  {
    var before := rs[..|rs| - 1];
    if FirstRejection(before).Some? {
      i := FirstIndex(before);
    } else {
      i := |rs| - 1;
    }
  }
}
