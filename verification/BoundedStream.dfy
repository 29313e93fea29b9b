/** Bounded push streams (src/core/lwt_stream.ml) with one reader.

    The state machine below has one step for each call, for the reader's continuation after its
    signal, and for cancelling a blocked push or a waiting read.  The class `Stream` at the end works on
    the linked nodes and makes these steps. */
module BoundedStream {

  import opened Common

  datatype Op = Get | Peek

  /** The reader waits for the signal, or the signal has been given and its continuation is still to run. */
  datatype Reader = Idle | Waiting(op: Op) | Ready(op: Op)

  datatype State<T> = State(
    size: int,
    count: int,
    queue: seq<T>,        // elements not read
    pending: Option<T>,   // element of the blocked push
    signal: bool,         // pushb_waiting: somebody asked for the signal
    closed: bool,
    reader: Reader,
    read: seq<T>,         // elements taken by `get` so far
    accepted: seq<T>,     // elements pushed so far, without those of cancelled and closed-out pushes
    largest: int)         // largest size so far

  datatype Outcome<T> = Item(item: T) | Ended | Waits

  datatype PushResult = Pushed | Blocked | FailClosed | FailFull

  datatype Step<T> =
    | Push(x: T)
    | Resize(n: int)
    | Close
    | Read(op: Op)
    | Continue
    | CancelPush
    | CancelRead

  function Created<T>(size: int): State<T> {
    State(size, 0, [], None, false, false, Idle, [], [], size)
  }

  function Max(a: int, b: int): int { if a < b then b else a }

  /** The signal is given if somebody asked for it. */
  function Signalled<T>(s: State<T>): State<T> {
    if !s.signal then s
    else s.(signal := false, reader := if s.reader.Waiting? then Ready(s.reader.op) else s.reader)
  }

  /** `notify_pusher`. */
  function PusherNotified<T>(s: State<T>): State<T>
    requires s.pending.Some?
  {
    s.(queue := s.queue + [s.pending.value], pending := None)
  }

  function ResizeStep<T>(s: State<T>, n: int): State<T> {
    if n < 0 then s
    else
      var s1 := s.(size := n, largest := Max(s.largest, n));
      if s1.count < n && s1.pending.Some? then PusherNotified(s1.(count := s1.count + 1)) else s1
  }

  function PushStep<T>(s: State<T>, x: T): (r: (State<T>, PushResult)) {
    if s.closed then (s, FailClosed)
    else if s.pending.Some? then (s, FailFull)
    else if s.count >= s.size then (s.(pending := Some(x), accepted := s.accepted + [x]), Blocked)
    else (Signalled(s.(queue := s.queue + [x], count := s.count + 1, accepted := s.accepted + [x])), Pushed)
  }

  /** The blocked push, if any, is given up. */
  function Dropped<T>(s: State<T>): State<T> {
    if s.pending.None? then s
    else s.(pending := None, accepted := if s.accepted == [] then [] else s.accepted[..|s.accepted| - 1])
  }

  function CloseStep<T>(s: State<T>): State<T> {
    if s.closed then s else Signalled(Dropped(s.(closed := true)))
  }

  /** `consume`. */
  function Consumed<T>(s: State<T>): State<T>
    requires s.queue != []
  {
    var s1 := s.(queue := s.queue[1..], read := s.read + [s.queue[0]]);
    if s1.pending.None? then s1.(count := s1.count - 1) else PusherNotified(s1)
  }

  /** `get_rec` and `peek_rec` on the stream's first node. */
  function ReadStep<T>(s: State<T>, op: Op): (r: (State<T>, Outcome<T>)) {
    if s.queue == [] then
      if s.closed then (s.(reader := Idle), Ended) else (s.(signal := true, reader := Waiting(op)), Waits)
    else ((if op == Get then Consumed(s) else s).(reader := Idle), Item(s.queue[0]))
  }

  ghost predicate Enabled<T>(s: State<T>, a: Step<T>) {
    match a
    case Push(_) => true
    case Resize(_) => true
    case Close => true
    case Read(_) => s.reader.Idle?
    case Continue => s.reader.Ready?
    case CancelPush => s.pending.Some?
    case CancelRead => !s.reader.Idle?
  }

  ghost function Apply<T>(s: State<T>, a: Step<T>): State<T>
    requires Enabled(s, a)
  {
    match a
    case Push(x) => PushStep(s, x).0
    case Resize(n) => ResizeStep(s, n)
    case Close => CloseStep(s)
    case Read(op) => ReadStep(s, op).0
    case Continue => ReadStep(s, s.reader.op).0
    case CancelPush => Dropped(s)
    case CancelRead => s.(reader := Idle)
  }

  // ------------------------------------------------------------------------------------------
  // What holds in every reachable state
  // ------------------------------------------------------------------------------------------

  function BlockedOf<T>(s: State<T>): seq<T> {
    if s.pending.Some? then [s.pending.value] else []
  }

  ghost predicate Inv<T>(s: State<T>) {
    && s.count == |s.queue| <= s.largest
    && 0 <= s.size <= s.largest
    && s.read + s.queue + BlockedOf(s) == s.accepted
    && (s.pending.Some? ==> s.count >= s.size && !s.closed)
    && (s.reader.Waiting? ==> s.signal && !s.closed)
  }

  lemma ReadKeepsInv<T>(s: State<T>, op: Op)
    requires Inv(s)
    ensures Inv(ReadStep(s, op).0)
  {
    if s.queue != [] && op == Get {
      assert s.read + s.queue == s.read + [s.queue[0]] + s.queue[1..];
    }
  }

  lemma StepKeepsInv<T>(s: State<T>, a: Step<T>)
    requires Inv(s) && Enabled(s, a)
    ensures Inv(Apply(s, a))
  {
    match a
    case Push(x) =>
    case Resize(n) =>
    case Close =>
    case Read(op) => ReadKeepsInv(s, op);
    case Continue => ReadKeepsInv(s, s.reader.op);
    case CancelPush =>
    case CancelRead =>
  }

  /** `trace[i]` is the state before `steps[i]`. */
  ghost predicate IsRun<T>(size: int, trace: seq<State<T>>, steps: seq<Step<T>>) {
    && size >= 0 && |trace| == |steps| + 1 && trace[0] == Created(size)
    && forall i :: 0 <= i < |steps| ==> Enabled(trace[i], steps[i]) && trace[i + 1] == Apply(trace[i], steps[i])
  }

  lemma {:induction false} RunInv<T>(size: int, trace: seq<State<T>>, steps: seq<Step<T>>, k: nat)
    requires IsRun(size, trace, steps) && k <= |steps|
    ensures Inv(trace[k])
  {
    if k > 0 {
      RunInv(size, trace, steps, k - 1);
      StepKeepsInv(trace[k - 1], steps[k - 1]);
    }
  }

  /** In every reachable state the count is the number of unread elements and within the largest size
      set so far, and the elements read, unread and blocked are the accepted pushes in order. */
  lemma CountAndOrder<T>(size: int, trace: seq<State<T>>, steps: seq<Step<T>>, k: nat)
    requires IsRun(size, trace, steps) && k <= |steps|
    ensures trace[k].count == |trace[k].queue| <= trace[k].largest
    ensures trace[k].read + trace[k].queue + BlockedOf(trace[k]) == trace[k].accepted
  {
    RunInv(size, trace, steps, k);
  }

  /** A stream once closed stays closed. */
  lemma {:induction false} ClosedIsFinal<T>(size: int, trace: seq<State<T>>, steps: seq<Step<T>>, i: nat, k: nat)
    requires IsRun(size, trace, steps) && i <= k <= |steps| && trace[i].closed
    ensures trace[k].closed
    decreases k
  {
    if i < k {
      ClosedIsFinal(size, trace, steps, i, k - 1);
    }
  }

  /** From the close on no read waits: a reader that waited has been signalled, and any read, then
      or later, has its answer at once. */
  lemma NoWaitAfterClose<T>(size: int, trace: seq<State<T>>, steps: seq<Step<T>>, i: nat, k: nat, op: Op)
    requires IsRun(size, trace, steps) && i <= k <= |steps| && trace[i].closed
    ensures !trace[k].reader.Waiting?
    ensures !ReadStep(trace[k], op).1.Waits? && ReadStep(trace[k], op).0.reader.Idle?
  {
    ClosedIsFinal(size, trace, steps, i, k);
    RunInv(size, trace, steps, k);
  }

  // ------------------------------------------------------------------------------------------
  // What callers are promised
  // ------------------------------------------------------------------------------------------

  predicate Reads<T>(a: Step<T>) { a.Read? || a.Continue? }

  /** What the reader asks for in a call, or in the continuation of one. */
  ghost function Asked<T>(s: State<T>, a: Step<T>): Op
    requires Enabled(s, a) && Reads(a)
  {
    if a.Read? then a.op else s.reader.op
  }

  /** What it is answered. */
  ghost function Answer<T>(s: State<T>, a: Step<T>): Outcome<T>
    requires Enabled(s, a) && Reads(a)
  {
    ReadStep(s, Asked(s, a)).1
  }

  ghost function PushAnswer<T>(s: State<T>, x: T): PushResult {
    PushStep(s, x).1
  }

  /** The elements that calls of `get` have been answered in the first `k` steps. */
  ghost function Got<T>(trace: seq<State<T>>, steps: seq<Step<T>>, k: nat): seq<T>
    requires k <= |steps| < |trace| && forall i :: 0 <= i < k ==> Enabled(trace[i], steps[i])
  {
    if k == 0 then []
    else
      var s, a := trace[k - 1], steps[k - 1];
      Got(trace, steps, k - 1) +
      if Reads(a) && Asked(s, a) == Get && Answer(s, a).Item? then [Answer(s, a).item] else []
  }

  /** `get` answered with an element takes exactly that one from the front; the blocked push, if any, goes to the
      end. */
  lemma GetLaw<T>(s: State<T>, a: Step<T>)
    requires Inv(s) && Enabled(s, a) && Reads(a) && Asked(s, a) == Get && Answer(s, a).Item?
    ensures
      var s' := Apply(s, a);
      && [Answer(s, a).item] + s'.queue == s.queue + BlockedOf(s) && s'.pending.None?
      && s'.read == s.read + [Answer(s, a).item] && s'.accepted == s.accepted
      && s'.size == s.size && s'.closed == s.closed && s'.reader.Idle?
  {
  }

  /** `peek` answered with an element answers the first one, and leaves all as it is. */
  lemma PeekLaw<T>(s: State<T>, a: Step<T>)
    requires Enabled(s, a) && Reads(a) && Asked(s, a) == Peek && Answer(s, a).Item?
    ensures s.queue != [] && Answer(s, a).item == s.queue[0] && Apply(s, a) == s.(reader := Idle)
  {
  }

  /** Both answer the end exactly if the stream is closed and has no element, and wait exactly if it is open and has
      none. */
  lemma EmptyLaw<T>(s: State<T>, a: Step<T>)
    requires Enabled(s, a) && Reads(a)
    ensures Answer(s, a).Ended? <==> s.queue == [] && s.closed
    ensures Answer(s, a).Waits? <==> s.queue == [] && !s.closed
    ensures Answer(s, a).Ended? ==> Apply(s, a) == s.(reader := Idle)
    ensures Answer(s, a).Waits? ==> Apply(s, a) == s.(reader := Waiting(Asked(s, a)), signal := true)
  {
  }

  /** Other calls answer no reader. */
  lemma OthersReadNothing<T>(s: State<T>, a: Step<T>)
    requires Enabled(s, a) && (!Reads(a) || Asked(s, a) == Peek || !Answer(s, a).Item?)
    ensures Apply(s, a).read == s.read
  {
  }

  /** In every run, what `get` has been answered, with what is unread and blocked, is what was accepted, in order. */
  lemma {:induction false} GotInOrder<T>(size: int, trace: seq<State<T>>, steps: seq<Step<T>>, k: nat)
    requires IsRun(size, trace, steps) && k <= |steps|
    ensures Got(trace, steps, k) == trace[k].read
    ensures Got(trace, steps, k) + trace[k].queue + BlockedOf(trace[k]) == trace[k].accepted
  {
    RunInv(size, trace, steps, k);
    if k > 0 {
      var s, a := trace[k - 1], steps[k - 1];
      GotInOrder(size, trace, steps, k - 1);
      RunInv(size, trace, steps, k - 1);
      if Reads(a) && Asked(s, a) == Get && Answer(s, a).Item? {
        GetLaw(s, a);
      } else {
        OthersReadNothing(s, a);
      }
    }
  }

  /** `push` fails exactly on a closed stream or behind a blocked push, and then changes nothing; it blocks exactly if
      there is no room, and otherwise the element is the last unread one, and a waiting reader goes on. */
  lemma PushLaw<T>(s: State<T>, x: T)
    requires Inv(s)
    ensures
      var r, s' := PushAnswer(s, x), Apply(s, Push(x));
      && (r.FailClosed? <==> s.closed)
      && (r.FailFull? <==> !s.closed && s.pending.Some?)
      && (r.Blocked? <==> !s.closed && s.pending.None? && |s.queue| >= s.size)
      && (r.FailClosed? || r.FailFull? ==> s' == s)
      && (r.Blocked? ==> s' == s.(pending := Some(x), accepted := s.accepted + [x]))
      && (r.Pushed? ==>
            && s'.queue == s.queue + [x] && s'.accepted == s.accepted + [x] && s'.read == s.read
            && s'.pending.None? && s'.size == s.size && !s'.closed
            && s'.reader == if s.reader.Waiting? then Ready(s.reader.op) else s.reader)
  {
  }

  /** `close` keeps the unread elements, drops the blocked push and lets a waiting reader go on; the second time it
      changes nothing. */
  lemma CloseLaw<T>(s: State<T>)
    requires Inv(s)
    ensures
      var s' := Apply(s, Close);
      && s'.closed && s'.queue == s.queue && s'.read == s.read && s'.pending.None? && s'.size == s.size
      && s'.accepted == s.read + s.queue && (s.closed ==> s' == s)
      && s'.reader == if s.reader.Waiting? then Ready(s.reader.op) else s.reader
  {
    if s.pending.Some? {
      assert s.accepted == s.read + s.queue + [s.pending.value];
    } else {
      assert s.read + s.queue + BlockedOf(s) == s.read + s.queue;
    }
  }

  /** `resize` sets the size, and lets the blocked push in exactly if there is room then; a negative size is refused. */
  lemma ResizeLaw<T>(s: State<T>, n: int)
    requires Inv(s)
    ensures
      var s' := Apply(s, Resize(n));
      if n < 0 then s' == s
      else
        && s'.size == n && s'.queue + BlockedOf(s') == s.queue + BlockedOf(s)
        && (s'.pending.Some? <==> s.pending.Some? && |s.queue| >= n)
        && s'.read == s.read && s'.accepted == s.accepted && s'.closed == s.closed && s'.reader == s.reader
  {
  }

  /** Cancelling takes back the blocked push, or the waiting read, and nothing else. */
  lemma CancelLaw<T>(s: State<T>)
    requires Inv(s)
    ensures s.pending.Some? ==>
              var s' := Apply(s, CancelPush);
              && s' == s.(pending := None, accepted := s'.accepted)
              && s'.accepted + [s.pending.value] == s.accepted
    ensures !s.reader.Idle? ==> Apply(s, CancelRead) == s.(reader := Idle)
  {
  }

  // ------------------------------------------------------------------------------------------
  // Readers that wait although there is an element
  // ------------------------------------------------------------------------------------------

  ghost predicate Stuck<T>(s: State<T>) {
    s.reader.Waiting? && s.queue != []
  }

  /** `notify_pusher` does not give the readers' signal.  A reader gets stuck exactly when a stream of size
      zero with a blocked push and a waiting reader is enlarged. */
  lemma StuckExactly<T>(s: State<T>, a: Step<T>)
    requires Inv(s) && !Stuck(s) && Enabled(s, a)
    ensures Stuck(Apply(s, a)) <==> a.Resize? && a.n > 0 && s.size == 0 && s.pending.Some? && s.reader.Waiting?
  {
  }

  /** A stream that never has size zero never leaves a reader waiting beside an unread element. */
  lemma {:induction false} NeverStuck<T>(size: int, trace: seq<State<T>>, steps: seq<Step<T>>, k: nat)
    requires IsRun(size, trace, steps) && k <= |steps|
    requires forall i :: 0 <= i < k ==> trace[i].size > 0
    ensures !Stuck(trace[k])
  {
    if k > 0 {
      NeverStuck(size, trace, steps, k - 1);
      RunInv(size, trace, steps, k - 1);
      StuckExactly(trace[k - 1], steps[k - 1]);
    }
  }

  /** A stuck reader stays stuck until a push finds room, the stream is closed or the read is cancelled. */
  lemma StuckStays<T>(s: State<T>, a: Step<T>)
    requires Inv(s) && Stuck(s) && Enabled(s, a)
    ensures !Stuck(Apply(s, a)) <==> a.Close? || a.CancelRead? || (a.Push? && s.pending.None? && s.count < s.size)
  {
  }

  /** The reader of an empty stream of size zero waits, a push is blocked, the size becomes one: the element
      is in the queue, yet the reader waits, and the next push is blocked too. */
  lemma StuckReader(x: int, y: int)
    ensures
      var s0 := Created<int>(0);
      var s1 := Apply(s0, Read(Get));
      var s2 := Apply(s1, Push(x));
      var s3 := Apply(s2, Resize(1));
      var s4 := Apply(s3, Push(y));
      Stuck(s3) && s3.queue == [x] && s3.pending.None? && Stuck(s4) && s4.pending == Some(y)
  {
  }

  // ------------------------------------------------------------------------------------------
  // The linked nodes
  // ------------------------------------------------------------------------------------------

  /** A cell of the queue; cells are named by their position in the order of allocation. */
  datatype Node<T> = Node(next: nat, data: Option<T>)

  /** From `first` on the nodes are linked one to the next, the last to itself; the last holds
      nothing, the one before it holds nothing if the stream is closed, all others hold an element. */
  ghost predicate Linked<T>(nodes: seq<Node<T>>, first: nat, last: nat, closed: bool) {
    && last == |nodes| - 1 && first <= (if closed then last - 1 else last)
    && nodes[last] == Node(last, None)
    && (forall i :: first <= i < last ==> nodes[i].next == i + 1)
    && (forall i :: first <= i < last ==> (nodes[i].data.Some? <==> !(closed && i == last - 1)))
  }

  ghost function Unread<T>(nodes: seq<Node<T>>, first: nat, last: nat, closed: bool): (r: seq<T>)
    requires Linked(nodes, first, last, closed)
    ensures |r| == last - first - (if closed then 1 else 0)
    ensures forall i :: 0 <= i < |r| ==> r[i] == nodes[first + i].data.value
  {
    seq(last - first - (if closed then 1 else 0), i requires 0 <= i < last - first - (if closed then 1 else 0) =>
      nodes[first + i].data.value)
  }

  class Stream<T> {
    var nodes: seq<Node<T>>
    var node: nat
    var last: nat
    var size: int
    var count: int
    var pending: Option<T>
    var signal: bool
    var closed: bool
    var reader: Reader
    ghost var read: seq<T>
    ghost var accepted: seq<T>
    ghost var largest: int

    ghost predicate Valid()
      reads this
    {
      Linked(nodes, node, last, closed) && Inv(View())
    }

    ghost function View(): State<T>
      requires Linked(nodes, node, last, closed)
      reads this
    {
      State(size, count, Unread(nodes, node, last, closed), pending, signal, closed, reader, read, accepted, largest)
    }

    /** `create_bounded`, for a size that is not negative. */
    constructor (size: nat)
      ensures Valid() && View() == Created(size)
    {
      nodes, node, last := [Node(0, None)], 0, 0;
      this.size, count, pending, signal, closed, reader := size, 0, None, false, false, Idle;
      read, accepted, largest := [], [], size;
    }

    /** `enqueue'`. */
    method Enqueue(x: T)
      requires Linked(nodes, node, last, closed) && !closed
      modifies this`nodes, this`last
      ensures Linked(nodes, node, last, closed)
      ensures Unread(nodes, node, last, closed) == old(Unread(nodes, node, last, closed)) + [x]
    {
      var newLast := |nodes|;
      nodes := nodes + [Node(newLast, None)];
      nodes := nodes[last := nodes[last].(data := Some(x))];
      nodes := nodes[last := nodes[last].(next := newLast)];
      last := newLast;
    }

    method NotifyPusher()
      requires Linked(nodes, node, last, closed) && !closed && pending.Some?
      modifies this`nodes, this`last, this`pending
      ensures Linked(nodes, node, last, closed) && View() == PusherNotified(old(View()))
    {
      Enqueue(pending.value);
      pending := None;
    }

    /** The readers' signal is given if it was asked for. */
    method Signal()
      requires Linked(nodes, node, last, closed)
      modifies this`signal, this`reader
      ensures Linked(nodes, node, last, closed) && View() == Signalled(old(View()))
    {
      if signal {
        signal := false;
        if reader.Waiting? {
          reader := Ready(reader.op);
        }
      }
    }

    /** `resize`; false stands for `Invalid_argument`. */
    method ResizeTo(n: int) returns (ok: bool)
      requires Valid()
      modifies this
      ensures Valid() && View() == ResizeStep(old(View()), n) && ok == (n >= 0)
    {
      ok := n >= 0;
      ghost var s := View();
      if ok {
        size, largest := n, Max(largest, n);
        if count < size && pending != None {
          count := count + 1;
          NotifyPusher();
        }
        StepKeepsInv(s, Resize(n));
      }
    }

    method PushElement(x: T) returns (r: PushResult)
      requires Valid()
      modifies this
      ensures Valid() && (View(), r) == PushStep(old(View()), x)
    {
      hide Inv, Linked, Unread, Signalled;
      ghost var s := View();
      StepKeepsInv(s, Push(x));
      if closed {
        r := FailClosed;
      } else if pending != None {
        r := FailFull;
      } else if count >= size {
        pending, accepted := Some(x), accepted + [x];
        r := Blocked;
      } else {
        Enqueue(x);
        count, accepted := count + 1, accepted + [x];
        Signal();
        r := Pushed;
      }
    }

    method DropPending()
      requires Linked(nodes, node, last, closed)
      modifies this`pending, this`accepted
      ensures Linked(nodes, node, last, closed) && View() == Dropped(old(View()))
    {
      if pending != None {
        pending := None;
        accepted := if accepted == [] then [] else accepted[..|accepted| - 1];
      }
    }

    /** A node without data ends the queue. */
    method MarkEnd()
      requires Linked(nodes, node, last, closed) && !closed
      modifies this`nodes, this`last, this`closed
      ensures Linked(nodes, node, last, closed) && closed
      ensures Unread(nodes, node, last, closed) == old(Unread(nodes, node, last, closed))
    {
      closed := true;
      var newLast := |nodes|;
      nodes := nodes + [Node(newLast, None)];
      nodes := nodes[last := Node(newLast, None)];
      last := newLast;
    }

    method CloseStream()
      requires Valid()
      modifies this
      ensures Valid() && View() == CloseStep(old(View()))
    {
      ghost var s := View();
      StepKeepsInv(s, Close);
      hide Inv, Linked, Unread, Dropped, Signalled;
      if !closed {
        MarkEnd();
        assert View() == s.(closed := true);
        DropPending();
        Signal();
      }
    }

    method Advance()
      requires Linked(nodes, node, last, closed) && node != last && nodes[node].data.Some?
      modifies this`node
      ensures Linked(nodes, node, last, closed)
      ensures var q := old(Unread(nodes, node, last, closed));
              q != [] && q[0] == nodes[old(node)].data.value && Unread(nodes, node, last, closed) == q[1..]
    {
      node := nodes[node].next;
    }

    /** `consume` for the reader's node. */
    method Consume()
      requires Valid() && node != last && nodes[node].data.Some?
      modifies this
      ensures Linked(nodes, node, last, closed) && View() == Consumed(old(View()))
    {
      ghost var s := View();
      read := read + [nodes[node].data.value];
      Advance();
      hide Linked, Unread, Inv;
      if pending == None {
        count := count - 1;
      } else {
        NotifyPusher();
      }
    }

    /** `get` and `peek`: first call, and continuation after the signal. */
    method ReadNode(op: Op) returns (r: Outcome<T>)
      requires Valid()
      modifies this
      ensures Valid() && (View(), r) == ReadStep(old(View()), op)
    {
      ghost var s := View();
      ReadKeepsInv(s, op);
      assert node == last <==> s.queue == [] && !closed;
      assert node != last ==> (nodes[node].data == None <==> s.queue == []);
      assert node != last && s.queue != [] ==> nodes[node].data == Some(s.queue[0]);
      hide Linked, Unread, Consumed;
      if node == last {
        signal, reader := true, Waiting(op);
        r := Waits;
      } else {
        var data := nodes[node].data;
        if op == Get && data != None {
          Consume();
        }
        reader := Idle;
        r := if data == None then Ended else Item(data.value);
      }
    }

    /** The handler of `push` for a cancelled blocked push. */
    method PushCancelled()
      requires Valid() && pending.Some?
      modifies this
      ensures Valid() && View() == Dropped(old(View()))
    {
      StepKeepsInv(View(), CancelPush);
      hide Inv, Linked, Unread, Dropped;
      DropPending();
    }
  }
}
