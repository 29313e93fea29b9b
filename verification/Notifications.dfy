/** The notification buffer of src/unix/lwt_unix_stubs.c: senders append ids under a mutex and signal
    the receiver only when the buffer was empty; the receiver consumes the signal, releases the mutex
    to allocate its result, and tries again if ids arrived meanwhile. */
module Notifications {

  import opened Common

  /** What the methods below do to the buffer and the channel.  `window` is the size the receiver has
      allocated for, while it does not hold the mutex. */
  datatype Channel = Channel(buffered: seq<int>, signals: nat, window: Option<nat>, sent: seq<int>, received: seq<int>)

  const EMPTY := Channel([], 0, None, [], [])

  function SendStep(c: Channel, id: int): Channel {
    c.(buffered := c.buffered + [id], sent := c.sent + [id],
       signals := if c.buffered == [] then c.signals + 1 else c.signals)
  }

  function BeginStep(c: Channel): Channel
    requires c.signals > 0
  {
    c.(signals := c.signals - 1, window := Some(|c.buffered|))
  }

  function EndStep(c: Channel): Channel
    requires c.window.Some?
  {
    if c.window.value != |c.buffered| then c.(window := Some(|c.buffered|))
    else c.(buffered := [], window := None, received := c.received + c.buffered)
  }

  datatype Op = Send(id: int) | Begin | End

  predicate Enabled(c: Channel, op: Op) {
    match op
    case Send(_) => true
    case Begin => c.window.None? && c.signals > 0
    case End => c.window.Some?
  }

  function Apply(c: Channel, op: Op): Channel
    requires Enabled(c, op)
  {
    match op
    case Send(id) => SendStep(c, id)
    case Begin => BeginStep(c)
    case End => EndStep(c)
  }

  /** A run of senders and the receiver, with the states it goes through. */
  ghost predicate IsRun(ops: seq<Op>, cs: seq<Channel>) {
    && |cs| == |ops| + 1 && cs[0] == EMPTY
    && forall i :: 0 <= i < |ops| ==> Enabled(cs[i], ops[i]) && cs[i + 1] == Apply(cs[i], ops[i])
  }

  /** The ids sent by a prefix of a run. */
  function SentBy(ops: seq<Op>): seq<int> {
    if ops == [] then []
    else
      var before := SentBy(ops[..|ops| - 1]);
      var op := ops[|ops| - 1];
      if op.Send? then before + [op.id] else before
  }

  /** Across every interleaving, the ids received followed by the ids buffered are the ids sent, in
      order; outside a receive the channel holds a signal exactly if the buffer is not empty, and
      during one it holds none and the buffer is not empty. */
  lemma {:induction false} Conservation(ops: seq<Op>, cs: seq<Channel>, n: nat)
    requires IsRun(ops, cs) && n < |cs|
    ensures cs[n].received + cs[n].buffered == cs[n].sent == SentBy(ops[..n])
    ensures cs[n].window.None? ==> cs[n].signals == if cs[n].buffered == [] then 0 else 1
    ensures cs[n].window.Some? ==> cs[n].signals == 0 && 0 < cs[n].window.value <= |cs[n].buffered|
  {
    if n > 0 {
      Conservation(ops, cs, n - 1);
      var c, op := cs[n - 1], ops[n - 1];
      assert ops[..n][..n - 1] == ops[..n - 1];
      match op
      case Send(id) => assert c.received + (c.buffered + [id]) == c.received + c.buffered + [id];
      case Begin =>
      case End => assert c.received + c.buffered + [] == c.received + c.buffered;
    }
  }

  class Buffer {
    var notifications: array<int>
    var index: nat                   // notification_index
    var signals: nat                 // signals sent on the channel and not read
    var window: Option<nat>          // current_index, between releasing the mutex and locking it again
    ghost var sent: seq<int>
    ghost var received: seq<int>

    ghost predicate Valid()
      reads this
    {
      0 < notifications.Length && index <= notifications.Length
    }

    ghost function View(): Channel
      requires Valid()
      reads this, notifications
    {
      Channel(notifications[..index], signals, window, sent, received)
    }

    constructor ()
      ensures Valid() && View() == EMPTY && fresh(notifications)
    {
      notifications := new int[4096];
      index, signals, window, sent, received := 0, 0, None, [], [];
    }

    /** `resize_notifications`: doubles the buffer and keeps what it holds. */
    method Resize()
      requires Valid()
      modifies this`notifications
      ensures Valid() && fresh(notifications) && notifications.Length == 2 * old(notifications.Length)
      ensures View() == old(View())
    {
      var bigger := new int[2 * notifications.Length];
      for i := 0 to notifications.Length
        modifies bigger
        invariant forall k :: 0 <= k < i ==> bigger[k] == notifications[k]
      {
        bigger[i] := notifications[i];
      }
      assert bigger[..index] == notifications[..index];
      notifications := bigger;
    }

    /** `lwt_unix_send_notification`, one critical section. */
    method SendNotification(id: int)
      requires Valid()
      modifies this, notifications
      ensures Valid() && (fresh(notifications) || notifications == old(notifications))
      ensures View() == SendStep(old(View()), id)
    {
      if index > 0 {
        if index == notifications.Length {
          Resize();
        }
        notifications[index] := id;
        index := index + 1;
      } else {
        notifications[index] := id;
        index := index + 1;
        signals := signals + 1;
      }
      sent := sent + [id];
    }

    /** The first critical section of `lwt_unix_recv_notifications`, called when the channel is
        readable. */
    method BeginReceive()
      requires Valid() && signals > 0
      modifies this
      ensures Valid() && notifications == old(notifications)
      ensures View() == BeginStep(old(View()))
    {
      signals := signals - 1;
      window := Some(index);
    }

    /** The critical section after the allocation: either ids have arrived and the receiver allocates
        again, or it reads all of them and resets the index. */
    method EndReceive() returns (result: Option<seq<int>>)
      requires Valid() && window.Some?
      modifies this
      ensures Valid() && notifications == old(notifications)
      ensures View() == EndStep(old(View()))
      ensures result.Some? <==> window.None?
      ensures result.Some? ==> received == old(received) + result.value
    {
      if window.value != index {
        window := Some(index);
        result := None;
      } else {
        var ids := new int[window.value];
        for i := 0 to index
          modifies ids
          invariant forall k :: 0 <= k < i ==> ids[k] == notifications[k]
        {
          ids[i] := notifications[i];
        }
        assert ids[..] == notifications[..index];
        received := received + ids[..];
        index, window, result := 0, None, Some(ids[..]);
      }
    }
  }
}
