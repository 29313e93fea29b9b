/** First-come first-served hand-off.  Every call that may have to wait draws a ticket; `Kept` is the
    order in which the calls that were not cancelled came. */
module Tickets {

  import opened Common

  function Listed<T>(o: Option<T>): seq<T> {
    if o.Some? then [o.value] else []
  }

  /** The tickets below `n`, without the cancelled ones. */
  ghost function Kept(n: nat, cancelled: set<nat>): seq<nat> {
    if n == 0 then []
    else if n - 1 in cancelled then Kept(n - 1, cancelled)
    else Kept(n - 1, cancelled) + [n - 1]
  }

  ghost predicate Lists(r: seq<nat>, n: nat, cancelled: set<nat>) {
    && (forall i :: 0 <= i < |r| ==> r[i] < n && r[i] !in cancelled)
    && (forall i, k :: 0 <= i < k < |r| ==> r[i] < r[k])
    && (forall t: nat :: t < n && t !in cancelled ==> t in r)
  }

  /** `Kept` lists in increasing order exactly the tickets that were drawn and not cancelled. */
  lemma {:induction false} KeptExact(n: nat, cancelled: set<nat>)
    ensures Lists(Kept(n, cancelled), n, cancelled)
  {
    if n > 0 {
      KeptExact(n - 1, cancelled);
      var r, r' := Kept(n - 1, cancelled), Kept(n, cancelled);
      if n - 1 in cancelled {
        assert r' == r;
      } else {
        assert r' == r + [n - 1];
        forall t: nat | t < n && t !in cancelled ensures t in r' {
          assert t < n - 1 ==> t in r;
          assert r'[|r|] == n - 1;
        }
      }
    }
  }

  lemma KeptNext(n: nat, cancelled: set<nat>)
    requires forall t :: t in cancelled ==> t < n
    ensures Kept(n + 1, cancelled) == Kept(n, cancelled) + [n]
  {
  }

  function Without(s: seq<nat>, t: nat): seq<nat> {
    if s == [] then []
    else Without(s[..|s| - 1], t) + if s[|s| - 1] == t then [] else [s[|s| - 1]]
  }

  lemma {:induction false} WithoutAppend(a: seq<nat>, b: seq<nat>, t: nat)
    ensures Without(a + b, t) == Without(a, t) + Without(b, t)
  {
    if b == [] {
      assert a + b == a;
    } else {
      var b' := b[..|b| - 1];
      WithoutAppend(a, b', t);
      assert (a + b)[..|a + b| - 1] == a + b';
    }
  }

  lemma {:induction false} WithoutAbsent(s: seq<nat>, t: nat)
    requires t !in s
    ensures Without(s, t) == s
  {
    if s != [] {
      WithoutAbsent(s[..|s| - 1], t);
      assert s[|s| - 1] in s;
    }
  }

  lemma WithoutLast(s: seq<nat>, x: nat, t: nat)
    ensures Without(s + [x], t) == if x == t then Without(s, t) else Without(s, t) + [x]
  {
    assert (s + [x])[..|s|] == s;
  }

  lemma {:induction false} KeptCancelled(n: nat, cancelled: set<nat>, t: nat)
    ensures Kept(n, cancelled + {t}) == Without(Kept(n, cancelled), t)
  {
    if n > 0 {
      KeptCancelled(n - 1, cancelled, t);
      WithoutLast(Kept(n - 1, cancelled), n - 1, t);
      hide Without;
      assert n - 1 in cancelled + {t} <==> n - 1 in cancelled || n - 1 == t;
      if n - 1 == t && t in cancelled {
        assert cancelled + {t} == cancelled;
      }
    }
  }

  /** A waiting ticket is taken out by its place in the queue. */
  lemma {:induction false} WithoutAt(s: seq<nat>, i: nat)
    requires i < |s| && forall k, m :: 0 <= k < m < |s| ==> s[k] != s[m]
    ensures Without(s, s[i]) == s[..i] + s[i + 1..]
  {
    var a, b := s[..i], s[i + 1..];
    assert s == a + [s[i]] + b;
    WithoutAppend(a + [s[i]], b, s[i]);
    WithoutLast(a, s[i], s[i]);
    WithoutAbsent(a, s[i]);
    WithoutAbsent(b, s[i]);
  }

  lemma QueueDistinct(done: seq<nat>, queue: seq<nat>, n: nat, cancelled: set<nat>)
    requires done + queue == Kept(n, cancelled)
    ensures forall k, m :: 0 <= k < m < |queue| ==> queue[k] != queue[m]
  {
    KeptExact(n, cancelled);
    hide Kept;
    forall k, m | 0 <= k < m < |queue| ensures queue[k] != queue[m] {
      assert (done + queue)[|done| + k] < (done + queue)[|done| + m];
    }
  }

  /** Cancelling a waiting ticket takes it out of the queue and out of the order of arrival alike. */
  lemma CancelWaiting(done: seq<nat>, queue: seq<nat>, n: nat, cancelled: set<nat>, t: nat)
    requires done + queue == Kept(n, cancelled) && t in queue
    ensures done + Without(queue, t) == Kept(n, cancelled + {t}) && t < n
  {
    KeptCancelled(n, cancelled, t);
    KeptExact(n, cancelled);
    hide Kept, Without;
    var k :| 0 <= k < |queue| && queue[k] == t;
    assert (done + queue)[|done| + k] == t;
    forall i | 0 <= i < |done| ensures done[i] != t {
      assert (done + queue)[i] == done[i];
    }
    WithoutAppend(done, queue, t);
    WithoutAbsent(done, t);
  }
}

/** Mailboxes (src/core/lwt_mvar.ml). */
module Mailbox {

  import opened Common
  import opened Tickets

  /** Puts and takes are named by their tickets.  The value of the put `taken[i]` goes to the take `served[i]`. */
  datatype State = State(
    held: Option<nat>,
    writers: seq<nat>,
    readers: seq<nat>,
    puts: nat,
    takes: nat,
    cancelledPuts: set<nat>,
    cancelledTakes: set<nat>,
    taken: seq<nat>,
    served: seq<nat>)

  datatype Step = Put | Take | TakeAvailable | CancelPut(put: nat) | CancelTake(take: nat)

  function Initial(full: bool): State {
    if full then State(Some(0), [], [], 1, 0, {}, {}, [], []) else State(None, [], [], 0, 0, {}, {}, [], [])
  }

  function PutStep(s: State): State {
    var t, s1 := s.puts, s.(puts := s.puts + 1);
    if s.held.Some? then s1.(writers := s.writers + [t])
    else if s.readers == [] then s1.(held := Some(t))
    else s1.(readers := s.readers[1..], taken := s.taken + [t], served := s.served + [s.readers[0]])
  }

  function NextWriter(s: State): State {
    if s.writers == [] then s.(held := None) else s.(held := Some(s.writers[0]), writers := s.writers[1..])
  }

  /** A take that finds a value. */
  function TakeHeld(s: State): State
    requires s.held.Some?
  {
    NextWriter(s).(takes := s.takes + 1, taken := s.taken + [s.held.value], served := s.served + [s.takes])
  }

  function TakeStep(s: State): State {
    if s.held.Some? then TakeHeld(s) else s.(takes := s.takes + 1, readers := s.readers + [s.takes])
  }

  function CancelPutStep(s: State, t: nat): State
    requires t in s.writers
  {
    s.(writers := Without(s.writers, t), cancelledPuts := s.cancelledPuts + {t})
  }

  function CancelTakeStep(s: State, t: nat): State
    requires t in s.readers
  {
    s.(readers := Without(s.readers, t), cancelledTakes := s.cancelledTakes + {t})
  }

  ghost predicate Enabled(s: State, a: Step) {
    (a.CancelPut? ==> a.put in s.writers) && (a.CancelTake? ==> a.take in s.readers)
  }

  ghost function Apply(s: State, a: Step): State
    requires Enabled(s, a)
  {
    match a
    case Put => PutStep(s)
    case Take => TakeStep(s)
    case TakeAvailable => if s.held.Some? then TakeHeld(s) else s
    case CancelPut(t) => CancelPutStep(s, t)
    case CancelTake(t) => CancelTakeStep(s, t)
  }

  /** Waiting readers imply an empty mailbox, waiting writers a full one; the puts whose values were taken,
      the one held and the queued ones are the puts that were not cancelled, in order; and the takes
      served and waiting are the takes that were not cancelled, in order. */
  ghost predicate Inv(s: State) {
    && (s.readers != [] ==> s.held.None?) && (s.writers != [] ==> s.held.Some?)
    && s.taken + Listed(s.held) + s.writers == Kept(s.puts, s.cancelledPuts)
    && s.served + s.readers == Kept(s.takes, s.cancelledTakes)
    && |s.taken| == |s.served|
    && (forall t :: t in s.cancelledPuts ==> t < s.puts) && (forall t :: t in s.cancelledTakes ==> t < s.takes)
  }

  lemma PutKeepsInv(s: State)
    requires Inv(s)
    ensures Inv(PutStep(s))
  {
    KeptNext(s.puts, s.cancelledPuts);
    hide Kept;
  }

  lemma TakeKeepsInv(s: State)
    requires Inv(s)
    ensures Inv(TakeStep(s))
  {
    KeptNext(s.takes, s.cancelledTakes);
    hide Kept;
    if s.held.Some? && s.writers != [] {
      assert s.taken + [s.held.value] + s.writers == s.taken + [s.held.value] + [s.writers[0]] + s.writers[1..];
    }
  }

  lemma StepKeepsInv(s: State, a: Step)
    requires Inv(s) && Enabled(s, a)
    ensures Inv(Apply(s, a))
  {
    hide Kept, Without;
    match a
    case Put => PutKeepsInv(s);
    case Take => TakeKeepsInv(s);
    case TakeAvailable => TakeKeepsInv(s);
    case CancelPut(t) =>
      CancelWaiting(s.taken + Listed(s.held), s.writers, s.puts, s.cancelledPuts, t);
    case CancelTake(t) =>
      CancelWaiting(s.served, s.readers, s.takes, s.cancelledTakes, t);
  }

  ghost predicate IsRun(full: bool, trace: seq<State>, steps: seq<Step>) {
    && |trace| == |steps| + 1 && trace[0] == Initial(full)
    && forall i :: 0 <= i < |steps| ==> Enabled(trace[i], steps[i]) && trace[i + 1] == Apply(trace[i], steps[i])
  }

  lemma {:induction false} RunInv(full: bool, trace: seq<State>, steps: seq<Step>, k: nat)
    requires IsRun(full, trace, steps) && k <= |steps|
    ensures Inv(trace[k])
  {
    if k == 0 {
      assert Kept(1, {}) == Kept(0, {}) + [0];
    } else {
      RunInv(full, trace, steps, k - 1);
      StepKeepsInv(trace[k - 1], steps[k - 1]);
    }
  }

  /** In every run the i-th take that is served and was not cancelled gets the value of the i-th put that
      was not cancelled. */
  lemma InOrder(full: bool, trace: seq<State>, steps: seq<Step>, k: nat, i: nat)
    requires IsRun(full, trace, steps) && k <= |steps| && i < |trace[k].taken|
    ensures
      var s := trace[k];
      var ps, ts := Kept(s.puts, s.cancelledPuts), Kept(s.takes, s.cancelledTakes);
      && i < |s.served| && i < |ps| && i < |ts| && s.taken[i] == ps[i] && s.served[i] == ts[i]
  {
    var s := trace[k];
    RunInv(full, trace, steps, k);
    assert (s.taken + Listed(s.held) + s.writers)[i] == s.taken[i];
    assert (s.served + s.readers)[i] == s.served[i];
  }

  datatype Pair<T> = Pair(ticket: nat, value: T)

  class Box<T> {
    var contents: Option<T>
    var writers: seq<Pair<T>>
    var readers: seq<nat>
    ghost var state: State
    ghost var calls: seq<T>      // the values of all puts

    ghost predicate Valid()
      reads this
    {
      && Inv(state) && |calls| == state.puts && readers == state.readers
      && (contents.Some? <==> state.held.Some?)
      && (contents.Some? ==> state.held.value < |calls| && contents.value == calls[state.held.value])
      && |writers| == |state.writers|
      && (forall i :: 0 <= i < |writers| ==>
            && writers[i].ticket == state.writers[i] < |calls|
            && writers[i].value == calls[state.writers[i]])
    }

    constructor (initial: Option<T>)
      ensures Valid() && calls == Listed(initial) && state == Initial(initial.Some?)
    {
      contents, writers, readers := initial, [], [];
      calls, state := Listed(initial), Initial(initial.Some?);
      new;
      assert Kept(1, {}) == Kept(0, {}) + [0];
    }

    /** `put`, with `ticket` for the promise it makes: the value goes to the first waiting reader, into the empty
        mailbox, or into the queue. */
    method PutValue(v: T, ticket: nat) returns (waits: bool, wokenReader: Option<nat>)
      requires Valid() && ticket == state.puts
      modifies this
      ensures Valid() && state == PutStep(old(state)) && calls == old(calls) + [v]
      ensures waits <==> old(contents.Some?)
      ensures wokenReader == if old(contents.None?) && old(readers) != [] then Some(old(readers)[0]) else None
    {
      PutKeepsInv(state);
      hide Inv;
      waits, wokenReader := false, None;
      if contents.None? {
        if readers == [] {
          contents := Some(v);
        } else {
          wokenReader, readers := Some(readers[0]), readers[1..];
        }
      } else {
        waits := true;
        writers := writers + [Pair(ticket, v)];
      }
      state, calls := PutStep(state), calls + [v];
    }

    /** The node of a cancelled put is removed from the queue. */
    method PutCancelled(i: nat)
      requires Valid() && i < |writers|
      modifies this
      ensures Valid() && calls == old(calls) && state == CancelPutStep(old(state), old(writers)[i].ticket)
    {
      ghost var t := state.writers[i];
      StepKeepsInv(state, CancelPut(t));
      QueueDistinct(state.taken + Listed(state.held), state.writers, state.puts, state.cancelledPuts);
      WithoutAt(state.writers, i);
      hide Inv, Without;
      writers := writers[..i] + writers[i + 1..];
      state := CancelPutStep(state, t);
    }

    /** The node of a cancelled take is removed from the queue. */
    method TakeCancelled(i: nat)
      requires Valid() && i < |readers|
      modifies this
      ensures Valid() && calls == old(calls) && state == CancelTakeStep(old(state), old(readers)[i])
    {
      StepKeepsInv(state, CancelTake(readers[i]));
      QueueDistinct(state.served, state.readers, state.takes, state.cancelledTakes);
      WithoutAt(state.readers, i);
      hide Inv, Without;
      state := CancelTakeStep(state, readers[i]);
      readers := readers[..i] + readers[i + 1..];
    }

    /** `take_available`. */
    method TakeNow() returns (v: Option<T>)
      requires Valid()
      modifies this
      ensures Valid() && calls == old(calls)
      ensures v.None? ==> old(state.held.None?) && state == old(state)
      ensures v.Some? ==> old(state.held.Some?) && state == TakeHeld(old(state))
      ensures v.Some? ==> v.value == calls[old(state).held.value]
    {
      TakeKeepsInv(state);
      hide Inv;
      v := contents;
      if contents.Some? {
        if writers != [] {
          contents, writers := Some(writers[0].value), writers[1..];
        } else {
          contents := None;
        }
        state := TakeHeld(state);
      }
    }

    /** `take`, with `ticket` for the promise it makes; the result is `None` if the caller has to wait. */
    method TakeValue(ticket: nat) returns (v: Option<T>)
      requires Valid() && ticket == state.takes
      modifies this
      ensures Valid() && calls == old(calls) && state == TakeStep(old(state))
      ensures v.Some? <==> old(state.held.Some?)
      ensures v.Some? ==> v.value == calls[old(state).held.value]
    {
      v := TakeNow();
      if v.None? {
        TakeKeepsInv(state);
        hide Inv;
        readers := readers + [ticket];
        state := TakeStep(state);
      }
    }
  }
}

/** Mutexes (src/core/lwt_mutex.ml), unlocked by their owner only. */
module Mutex {

  import opened Common
  import opened Tickets

  /** The calls of `lock` are named by their tickets.  Those `released` have unlocked again. */
  datatype State = State(
    locked: bool,
    waiters: seq<nat>,
    calls: nat,
    cancelled: set<nat>,
    granted: seq<nat>,
    released: seq<nat>)

  datatype Step = Lock | Unlock(caller: nat) | Cancel(call: nat)

  function Initial(): State {
    State(false, [], 0, {}, [], [])
  }

  function LockStep(s: State): State {
    var s1 := s.(calls := s.calls + 1);
    if s.locked then s1.(waiters := s.waiters + [s.calls]) else s1.(locked := true, granted := s.granted + [s.calls])
  }

  function UnlockStep(s: State, caller: nat): State {
    if !s.locked then s
    else
      var s1 := s.(released := s.released + [caller]);
      if s.waiters == [] then s1.(locked := false)
      else s1.(granted := s.granted + [s.waiters[0]], waiters := s.waiters[1..])
  }

  function CancelStep(s: State, t: nat): State
    requires t in s.waiters
  {
    s.(waiters := Without(s.waiters, t), cancelled := s.cancelled + {t})
  }

  /** A caller that got the lock and did not unlock. */
  ghost predicate Owns(s: State, t: nat) {
    t in s.granted && t !in s.released
  }

  /** A locked mutex is unlocked by an owner, an unlocked one by anybody. */
  ghost predicate Enabled(s: State, a: Step) {
    && (a.Unlock? && s.locked ==> Owns(s, a.caller))
    && (a.Cancel? ==> a.call in s.waiters)
  }

  ghost function Apply(s: State, a: Step): State
    requires Enabled(s, a)
  {
    match a
    case Lock => LockStep(s)
    case Unlock(t) => UnlockStep(s, t)
    case Cancel(t) => CancelStep(s, t)
  }

  ghost predicate Inv(s: State) {
    && (s.waiters != [] ==> s.locked)
    && s.granted + s.waiters == Kept(s.calls, s.cancelled)
    && |s.granted| == |s.released| + (if s.locked then 1 else 0)
    && (forall i :: 0 <= i < |s.released| ==> s.released[i] == s.granted[i])
    && forall t :: t in s.cancelled ==> t < s.calls
  }

  lemma LastOwns(s: State)
    requires Inv(s)
    ensures forall t :: Owns(s, t) <==> s.locked && t == s.granted[|s.granted| - 1]
  {
    KeptExact(s.calls, s.cancelled);
    hide Kept;
    var all := s.granted + s.waiters;
    assert forall i :: 0 <= i < |s.granted| ==> all[i] == s.granted[i];
    if s.locked {
      var last := s.granted[|s.granted| - 1];
      forall i | 0 <= i < |s.released| ensures s.released[i] != last {
        assert all[i] < all[|s.granted| - 1];
      }
      assert last in s.granted && Owns(s, last);
    }
    assert forall i :: 0 <= i < |s.released| ==> s.released[i] in s.released;
    forall t | Owns(s, t) ensures s.locked && t == s.granted[|s.granted| - 1] {
      var i :| 0 <= i < |s.granted| && s.granted[i] == t;
    }
  }

  lemma StepKeepsInv(s: State, a: Step)
    requires Inv(s) && Enabled(s, a)
    ensures Inv(Apply(s, a))
  {
    hide Kept, Without;
    match a
    case Lock =>
      KeptNext(s.calls, s.cancelled);
    case Unlock(t) =>
      LastOwns(s);
      if s.waiters != [] {
        assert s.granted + s.waiters == s.granted + [s.waiters[0]] + s.waiters[1..];
      }
    case Cancel(t) =>
      CancelWaiting(s.granted, s.waiters, s.calls, s.cancelled, t);
  }

  ghost predicate IsRun(trace: seq<State>, steps: seq<Step>) {
    && |trace| == |steps| + 1 && trace[0] == Initial()
    && forall i :: 0 <= i < |steps| ==> Enabled(trace[i], steps[i]) && trace[i + 1] == Apply(trace[i], steps[i])
  }

  lemma {:induction false} RunInv(trace: seq<State>, steps: seq<Step>, k: nat)
    requires IsRun(trace, steps) && k <= |steps|
    ensures Inv(trace[k])
  {
    if k > 0 {
      RunInv(trace, steps, k - 1);
      StepKeepsInv(trace[k - 1], steps[k - 1]);
    }
  }

  /** In every run a mutex has an owner exactly while it is locked, and never two; waiters imply that it is
      locked; and the lock was granted to the calls that were not cancelled, in the order of arrival. */
  lemma OneOwner(trace: seq<State>, steps: seq<Step>, k: nat)
    requires IsRun(trace, steps) && k <= |steps|
    ensures trace[k].locked <==> exists t :: Owns(trace[k], t)
    ensures forall t, u :: Owns(trace[k], t) && Owns(trace[k], u) ==> t == u
    ensures trace[k].waiters != [] ==> trace[k].locked
    ensures trace[k].granted + trace[k].waiters == Kept(trace[k].calls, trace[k].cancelled)
  {
    RunInv(trace, steps, k);
    LastOwns(trace[k]);
    if trace[k].locked {
      assert Owns(trace[k], trace[k].granted[|trace[k].granted| - 1]);
    }
  }

  class Lock {
    var locked: bool
    var waiters: seq<nat>
    ghost var state: State

    ghost predicate Valid()
      reads this
    {
      Inv(state) && locked == state.locked && waiters == state.waiters
    }

    constructor ()
      ensures Valid() && state == Initial()
    {
      locked, waiters, state := false, [], Initial();
    }

    /** `lock`, with `ticket` for the promise it makes; true if the caller has to wait. */
    method Acquire(ticket: nat) returns (waits: bool)
      requires Valid() && ticket == state.calls
      modifies this
      ensures Valid() && state == LockStep(old(state)) && waits == old(locked)
    {
      StepKeepsInv(state, Step.Lock);
      hide Inv;
      waits := locked;
      if locked {
        waiters := waiters + [ticket];
      } else {
        locked := true;
      }
      state := LockStep(state);
    }

    /** The node of a cancelled call of `lock` is removed from the queue. */
    method WaiterCancelled(i: nat)
      requires Valid() && i < |waiters|
      modifies this
      ensures Valid() && state == CancelStep(old(state), old(waiters)[i])
    {
      StepKeepsInv(state, Cancel(waiters[i]));
      QueueDistinct(state.granted, state.waiters, state.calls, state.cancelled);
      WithoutAt(state.waiters, i);
      hide Inv, Without;
      state := CancelStep(state, waiters[i]);
      waiters := waiters[..i] + waiters[i + 1..];
    }

    /** `unlock`; `woken` is the waiter that gets the lock. */
    method Release(ghost caller: nat) returns (woken: Option<nat>)
      requires Valid() && (locked ==> Owns(state, caller))
      modifies this
      ensures Valid() && state == UnlockStep(old(state), caller)
      ensures woken == if old(waiters) == [] then None else Some(old(waiters)[0])
      ensures woken.Some? ==> Owns(state, woken.value)
    {
      StepKeepsInv(state, Unlock(caller));
      ghost var s := state;
      woken := None;
      if locked {
        if waiters == [] {
          locked := false;
        } else {
          woken, waiters := Some(waiters[0]), waiters[1..];
        }
      }
      state := UnlockStep(state, caller);
      LastOwns(state);
    }
  }
}
