/** A channel as the VM keeps it: a ring buffer and two wait queues (vm/channel.go). */
module Channels {
  import opened Language
  import opened Protocol

  class Fiber {
    var state: FiberState
    var stack: seq<Value>

    constructor (s: seq<Value>)
      ensures state == Ready && stack == s
    {
      state, stack := Ready, s;
    }
  }

  type Waiting = Sent<Fiber, Value>

  /** Position `i` of a ring that begins at `head`. */
  function Wrapped(head: nat, i: nat, capacity: nat): nat
    requires capacity > 0
  {
    (head + i) % capacity
  }

  /** The `count` values of the ring that begins at `head`. */
  ghost predicate Holds(buffer: seq<Value>, head: nat, count: nat, values: seq<Value>)
  {
    && count == |values| <= |buffer| && (|buffer| > 0 ==> head < |buffer|)
    && forall i :: 0 <= i < count ==> buffer[Wrapped(head, i, |buffer|)] == values[i]
  }

  lemma WrapDistinct(head: nat, i: nat, j: nat, n: nat)
    requires head < n && i < n && j < n && i != j
    ensures Wrapped(head, i, n) != Wrapped(head, j, n)
  {
    WrapAt(head, i, n);
    WrapAt(head, j, n);
  }

  lemma WrapAt(head: nat, i: nat, n: nat)
    requires head < n && i <= n
    ensures Wrapped(head, i, n) == if head + i < n then head + i else head + i - n
  {
    Modulo(head + i, n);
  }

  lemma Modulo(a: nat, n: nat)
    requires a < 2 * n
    ensures a % n == if a < n then a else a - n
  {
    if a >= n {
      assert a == n + (a - n);
      assert a % n == (a - n) % n;
    }
  }

  lemma WrapNext(head: nat, i: nat, n: nat)
    requires head < n && i < n
    ensures (Wrapped(head, i, n) + 1) % n == Wrapped(head, i + 1, n)
    ensures Wrapped((head + 1) % n, i, n) == Wrapped(head, i + 1, n)
  {
    WrapAt(head, i, n);
    WrapAt(head, i + 1, n);
    Modulo(Wrapped(head, i, n) + 1, n);
    Modulo(head + 1, n);
    WrapAt((head + 1) % n, i, n);
  }

  /** Writing at the tail appends. */
  lemma RingPut(buffer: seq<Value>, head: nat, count: nat, values: seq<Value>, v: Value)
    requires Holds(buffer, head, count, values) && count < |buffer|
    ensures Holds(buffer[Wrapped(head, count, |buffer|) := v], head, count + 1, values + [v])
  {
    var n := |buffer|;
    forall i | 0 <= i < count
      ensures Wrapped(head, i, n) != Wrapped(head, count, n)
    {
      WrapDistinct(head, i, count, n);
    }
  }

  /** Reading at the head takes the first. */
  lemma RingTake(buffer: seq<Value>, head: nat, count: nat, values: seq<Value>)
    requires Holds(buffer, head, count, values) && count > 0
    ensures head < |buffer| && buffer[head] == values[0] && Holds(buffer, (head + 1) % |buffer|, count - 1, values[1..])
  {
    var n := |buffer|;
    assert Wrapped(head, 0, n) == head;
    forall i | 0 <= i < count - 1
      ensures buffer[Wrapped((head + 1) % n, i, n)] == values[1..][i]
    {
      WrapNext(head, i, n);
    }
  }

  class Channel {
    const buffer: array<Value>
    const capacity: nat
    var head: nat
    var tail: nat
    var count: nat
    var sendQueue: seq<Waiting>
    var recvQueue: seq<Fiber>

    /** All calls so far. */
    ghost var history: History<Fiber, Value>

    /** Ring buffer and queues are what the history says. */
    ghost predicate Valid()
      reads this, buffer
    {
      && capacity == buffer.Length == history.capacity
      && Holds(buffer[..], head, count, Values(Buffered(history)))
      && (capacity > 0 ==> tail == Wrapped(head, count, capacity))
      && sendQueue == SendQueue(history) && recvQueue == RecvQueue(history)
    }

    /** registerChannel */
    constructor (n: nat)
      ensures Valid() && history == History(n, [], []) && fresh(buffer)
    {
      capacity := n;
      buffer := new Value[n](_ => NullV);
      head, tail, count, sendQueue, recvQueue := 0, 0, 0, [], [];
      history := History(n, [], []);
    }

    /** A ring write. */
    method Put(v: Value, ghost values: seq<Value>)
      requires capacity == buffer.Length && Holds(buffer[..], head, count, values) && count < capacity
        && tail == Wrapped(head, count, capacity)
      modifies this`tail, this`count, buffer
      ensures Holds(buffer[..], head, count, values + [v]) && tail == Wrapped(head, count, capacity)
    {
      RingPut(buffer[..], head, count, values, v);
      WrapNext(head, count, capacity);
      buffer[tail] := v;
      assert buffer[..] == old(buffer[..])[Wrapped(head, count, capacity) := v];
      tail := (tail + 1) % capacity;
      count := count + 1;
    }

    method Take(ghost values: seq<Value>) returns (v: Value)
      requires capacity == buffer.Length && Holds(buffer[..], head, count, values) && count > 0
        && tail == Wrapped(head, count, capacity)
      modifies this`head, this`count
      ensures values != [] && v == values[0] && Holds(buffer[..], head, count, values[1..])
        && tail == Wrapped(head, count, capacity)
    {
      RingTake(buffer[..], head, count, values);
      WrapNext(head, count - 1, capacity);
      v := buffer[head];
      head := (head + 1) % capacity;
      count := count - 1;
    }

    // ---------- the cases of send ----------

    /** A receiver waits: the value is its. */
    method PassToReceiver(f: Fiber, v: Value) returns (receiver: Fiber)
      requires Valid() && recvQueue != []
      modifies this`recvQueue, this`history
      ensures Valid() && history == old(history).(sends := old(history).sends + [Sent(f, v)])
      ensures receiver == RecvQueue(old(history))[0]
    {
      receiver := recvQueue[0];
      recvQueue := recvQueue[1..];
      history := history.(sends := history.sends + [Sent(f, v)]);
    }

    /** There is room: the value goes into the buffer. */
    method Store(f: Fiber, v: Value)
      requires Valid() && recvQueue == [] && capacity > 0 && count < capacity
      modifies this`tail, this`count, this`history, buffer
      ensures Valid() && history == old(history).(sends := old(history).sends + [Sent(f, v)])
      ensures |old(history).sends| < Paired(old(history)) + capacity
    {
      Put(v, Values(Buffered(history)));
      history := history.(sends := history.sends + [Sent(f, v)]);
      assert Buffered(history) == old(Buffered(history)) + [Sent(f, v)];
      assert Values(Buffered(history)) == old(Values(Buffered(history))) + [v];
    }

    method QueueSender(f: Fiber, v: Value)
      requires Valid() && recvQueue == [] && !(capacity > 0 && count < capacity)
      modifies this`sendQueue, this`history
      ensures Valid() && history == old(history).(sends := old(history).sends + [Sent(f, v)])
      ensures |old(history).sends| >= Paired(old(history)) + capacity
    {
      sendQueue := sendQueue + [Sent(f, v)];
      history := history.(sends := history.sends + [Sent(f, v)]);
      assert SendQueue(history) == old(SendQueue(history)) + [Sent(f, v)];
      assert Buffered(history) == old(Buffered(history));
    }

    // ---------- the cases of receive ----------

    /** The buffer has a value; a waiting sender's value takes its room. */
    method TakeStored(f: Fiber) returns (v: Value, sender: Option<Fiber>)
      requires Valid() && capacity > 0 && count > 0
      modifies this`head, this`tail, this`count, this`sendQueue, this`history, buffer
      ensures Valid() && history == old(history).(receives := old(history).receives + [f])
      ensures |old(history).receives| < |old(history).sends| && v == old(history).sends[|old(history).receives|].value
      ensures sender == if SendQueue(old(history)) == [] then None else Some(SendQueue(old(history))[0].fiber)
    {
      ghost var h := history;
      ghost var values := Values(Buffered(h));
      v := Take(values);
      sender := None;
      if |sendQueue| > 0 {
        var s := sendQueue[0];
        sendQueue := sendQueue[1..];
        sender := Some(s.fiber);
        Put(s.value, values[1..]);
        assert Buffered(h.(receives := h.receives + [f])) == Buffered(h)[1..] + [SendQueue(h)[0]];
        assert Values(Buffered(h.(receives := h.receives + [f]))) == values[1..] + [s.value];
      } else {
        assert Buffered(h.(receives := h.receives + [f])) == Buffered(h)[1..];
        assert Values(Buffered(h.(receives := h.receives + [f]))) == values[1..];
      }
      history := history.(receives := history.receives + [f]);
    }

    /** Nothing is buffered, but a sender waits; this happens only without a buffer. */
    method TakeFromSender(f: Fiber) returns (sender: Waiting)
      requires Valid() && !(capacity > 0 && count > 0) && sendQueue != []
      modifies this`sendQueue, this`history
      ensures Valid() && history == old(history).(receives := old(history).receives + [f])
      ensures capacity == 0 && SendQueue(old(history)) != [] && sender == SendQueue(old(history))[0]
      ensures |old(history).receives| < |old(history).sends| && sender == old(history).sends[|old(history).receives|]
    {
      QueuesExclusive(history);
      sender := sendQueue[0];
      sendQueue := sendQueue[1..];
      history := history.(receives := history.receives + [f]);
    }

    method QueueReceiver(f: Fiber)
      requires Valid() && !(capacity > 0 && count > 0) && sendQueue == []
      modifies this`recvQueue, this`history
      ensures Valid() && history == old(history).(receives := old(history).receives + [f])
      ensures |old(history).receives| >= |old(history).sends|
    {
      recvQueue := recvQueue + [f];
      history := history.(receives := history.receives + [f]);
    }
  }
}
