/** The fiber scheduler as a state machine. A channel is known by its history alone: who sent
    what, and who asked to receive, in the order of the calls. Everything the VM keeps for it
    (ring buffer, waiting senders, waiting receivers) is a function of that history. */
module Protocol {
  import opened Language

  datatype FiberState = Ready | Running | Blocked | Done

  // ---------- channels ----------

  datatype Sent<F, V> = Sent(fiber: F, value: V)

  datatype History<F, V> = History(capacity: nat, sends: seq<Sent<F, V>>, receives: seq<F>)

  function Min(a: nat, b: nat): nat { if a < b then a else b }

  /** Number of values handed over: every send that can be paired with a receive is. */
  function Paired<F, V>(h: History<F, V>): nat { Min(|h.sends|, |h.receives|) }

  /** Number of sends that have taken effect: handed over or in the buffer. */
  function Accepted<F, V>(h: History<F, V>): nat { Min(|h.sends|, Paired(h) + h.capacity) }

  function Buffered<F, V>(h: History<F, V>): seq<Sent<F, V>> { h.sends[Paired(h)..Accepted(h)] }

  function SendQueue<F, V>(h: History<F, V>): seq<Sent<F, V>> { h.sends[Accepted(h)..] }

  function RecvQueue<F, V>(h: History<F, V>): seq<F> { h.receives[Paired(h)..] }

  function Fibers<F, V>(q: seq<Sent<F, V>>): (r: seq<F>)
    ensures |r| == |q| && forall i :: 0 <= i < |q| ==> r[i] == q[i].fiber
  {
    seq(|q|, i requires 0 <= i < |q| => q[i].fiber)
  }

  function Values<F, V>(q: seq<Sent<F, V>>): (r: seq<V>)
    ensures |r| == |q| && forall i :: 0 <= i < |q| ==> r[i] == q[i].value
  {
    seq(|q|, i requires 0 <= i < |q| => q[i].value)
  }

  function Sending<F, V>(h: History<F, V>): seq<F> { Fibers(SendQueue(h)) }

  /** A waiting sender means a full buffer and nobody waiting to receive; a waiting receiver
      means an empty buffer and nobody waiting to send. Only an unbuffered channel can have
      waiting senders while its buffer is empty. */
  lemma QueuesExclusive<F, V>(h: History<F, V>)
    ensures SendQueue(h) != [] ==> |Buffered(h)| == h.capacity && RecvQueue(h) == []
    ensures RecvQueue(h) != [] ==> Buffered(h) == [] && SendQueue(h) == []
    ensures SendQueue(h) != [] && Buffered(h) == [] ==> h.capacity == 0
    ensures |Buffered(h)| <= h.capacity
  {
  }

  /** Conservation: the values sent are those handed over, then those in the buffer, then
      those of the waiting senders; the receive calls are those served, then those waiting. */
  lemma Conserved<F, V>(h: History<F, V>)
    ensures Values(h.sends) == Values(h.sends[..Paired(h)]) + Values(Buffered(h)) + Values(SendQueue(h))
    ensures h.receives == h.receives[..Paired(h)] + RecvQueue(h)
  {
    assert h.sends == h.sends[..Paired(h)] + Buffered(h) + SendQueue(h);
  }

  // ---------- the system ----------

  datatype Place = InRunQueue | Current | SendingOn(chan: int) | ReceivingOn(chan: int) | AwaitingIo | Waking | Gone

  function StateOf(p: Place): FiberState
  {
    match p
    case InRunQueue => Ready
    case Current => Running
    case Gone => Done
    case _ => Blocked
  }

  /** `wakeups` are the finished asynchronous calls not yet taken up; `spawned` are the
      scheduler's `fibers`, without the main one. `place` says where each fiber is: the VM does
      not keep it, and for a fiber whose call is under way nobody but that call knows it. */
  datatype Sys<!F(==), V> = Sys(
    runQueue: seq<F>, current: Option<F>, state: map<F, FiberState>, stack: map<F, seq<V>>,
    channels: map<int, History<F, V>>, nextChan: int, ioBlocked: int, wakeups: seq<Sent<F, V>>,
    spawned: seq<F>, main: F, place: map<F, Place>)

  /** What can happen. `Compute` is any work of the running fiber on its own stack; the steps
      of that fiber that touch the scheduler are the others. `IoDone` is the environment's. */
  datatype Event<F, V> =
    | Dispatch
    | Compute(stack: seq<V>)
    | Spawn(fiber: F, stack: seq<V>)
    | MakeChannel(capacity: nat)
    | Send(chan: int, value: V)
    | Receive(chan: int)
    | CallAsync
    | Preempt
    | Finish
    | IoDone(fiber: F, value: V)
    | Wakeup

  predicate Enabled<F(==), V>(s: Sys<F, V>, e: Event<F, V>)
  {
    match e
    case Dispatch => s.current.None? && s.runQueue != []
    case Compute(_) => s.current.Some?
    case Spawn(f, _) => s.current.Some? && f !in s.place
    case MakeChannel(_) => s.current.Some?
    case Send(ch, _) => s.current.Some? && ch in s.channels
    case Receive(ch) => s.current.Some? && ch in s.channels
    case CallAsync => s.current.Some?
    case Preempt => s.current.Some?
    case Finish => s.current.Some?
    case IoDone(f, _) => f in s.place && s.place[f].AwaitingIo?
    case Wakeup => s.current.None? && s.wakeups != []
  }

  function Put<F, V>(s: Sys<F, V>, f: F, p: Place): Sys<F, V>
  {
    s.(state := s.state[f := StateOf(p)], place := s.place[f := p])
  }

  function Enqueue<F, V>(s: Sys<F, V>, f: F): Sys<F, V>
  {
    Put(s, f, InRunQueue).(runQueue := s.runQueue + [f])
  }

  function Give<F, V>(s: Sys<F, V>, f: F, v: V): Sys<F, V>
    requires f in s.stack
  {
    s.(stack := s.stack[f := s.stack[f] + [v]])
  }

  /** The running fiber leaves the processor. */
  function Yield<F, V>(s: Sys<F, V>, p: Place): Sys<F, V>
    requires s.current.Some?
  {
    Put(s, s.current.value, p).(current := None)
  }

  function YieldReady<F, V>(s: Sys<F, V>): Sys<F, V>
    requires s.current.Some?
  {
    Enqueue(s, s.current.value).(current := None)
  }

  function Log<F, V>(s: Sys<F, V>, ch: int, h: History<F, V>): Sys<F, V> { s.(channels := s.channels[ch := h]) }

  /** A send is paired with the longest waiting receiver if there is one; otherwise the sender
      goes on if there is room, and waits if there is not. */
  function DoSend<F, V>(s: Sys<F, V>, ch: int, v: V): Sys<F, V>
    requires s.current.Some? && ch in s.channels && s.place.Keys == s.stack.Keys
    requires forall i :: 0 <= i < |s.channels[ch].receives| ==> s.channels[ch].receives[i] in s.stack
  {
    var h := s.channels[ch];
    var s1 := Log(s, ch, h.(sends := h.sends + [Sent(s.current.value, v)]));
    if RecvQueue(h) != [] then YieldReady(Enqueue(Give(s1, RecvQueue(h)[0], v), RecvQueue(h)[0]))
    else if |h.sends| < Paired(h) + h.capacity then YieldReady(s1)
    else Yield(s1, SendingOn(ch))
  }

  /** The k-th receive on a channel takes the k-th value sent on it, and waits for it if need
      be. The longest waiting sender goes on when its value finds room. */
  function DoReceive<F, V>(s: Sys<F, V>, ch: int): Sys<F, V>
    requires s.current.Some? && ch in s.channels && s.current.value in s.stack
  {
    var h := s.channels[ch];
    var s1 := Log(s, ch, h.(receives := h.receives + [s.current.value]));
    if |h.receives| < |h.sends| then
      var s2 := Give(s1, s.current.value, h.sends[|h.receives|].value);
      YieldReady(if SendQueue(h) != [] then Enqueue(s2, SendQueue(h)[0].fiber) else s2)
    else Yield(s1, ReceivingOn(ch))
  }

  /** Every queue holds fibers that have a stack. */
  predicate Known<F(==), V>(s: Sys<F, V>)
  {
    && s.place.Keys == s.stack.Keys && (s.current.Some? ==> s.current.value in s.stack)
    && (forall ch, i :: ch in s.channels && 0 <= i < |s.channels[ch].receives| ==>
      s.channels[ch].receives[i] in s.stack)
    && (forall i :: 0 <= i < |s.wakeups| ==> s.wakeups[i].fiber in s.stack)
  }

  function Apply<F(==), V>(s: Sys<F, V>, e: Event<F, V>): Sys<F, V>
    requires Known(s) && Enabled(s, e)
  {
    match e
    case Dispatch => Put(s, s.runQueue[0], Current).(current := Some(s.runQueue[0]), runQueue := s.runQueue[1..])
    case Compute(stk) => s.(stack := s.stack[s.current.value := stk])
    case Spawn(f, stk) => Enqueue(s.(stack := s.stack[f := stk], spawned := s.spawned + [f]), f)
    case MakeChannel(c) => Log(s, s.nextChan + 1, History(c, [], [])).(nextChan := s.nextChan + 1)
    case Send(ch, v) => DoSend(s, ch, v)
    case Receive(ch) => DoReceive(s, ch)
    case CallAsync => Yield(s, AwaitingIo).(ioBlocked := s.ioBlocked + 1)
    case Preempt => YieldReady(s)
    case Finish => Yield(s, Gone)
    case IoDone(f, v) => Put(s, f, Waking).(wakeups := s.wakeups + [Sent(f, v)])
    case Wakeup =>
      Enqueue(Give(s, s.wakeups[0].fiber, s.wakeups[0].value), s.wakeups[0].fiber)
        .(wakeups := s.wakeups[1..], ioBlocked := s.ioBlocked - 1)
  }
}
