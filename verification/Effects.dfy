/** What every event of the scheduler does, field by field, and what becomes of the results of
    asynchronous calls over whole runs. */
module Effects {
  import opened Language
  import opened Protocol
  import opened Whereabouts
  import opened SchedulerRuns

  // ---------- one event ----------

  /** The values an event pushes onto the stacks of waiting fibers. */
  function Pushed<F(==), V>(s: Sys<F, V>, e: Event<F, V>): seq<Sent<F, V>>
    requires Known(s) && Enabled(s, e)
  {
    match e
    case Send(ch, v) => if RecvQueue(s.channels[ch]) != [] then [Sent(RecvQueue(s.channels[ch])[0], v)] else []
    case Receive(ch) =>
      var h := s.channels[ch];
      if |h.receives| < |h.sends| then [Sent(s.current.value, h.sends[|h.receives|].value)] else []
    case Wakeup => [s.wakeups[0]]
    case _ => []
  }

  /** Every fiber's stack after an event: what is pushed for it, on what was there; the arguments of
      a new fiber; what the running fiber made of its own. */
  lemma StackEffect<F, V>(s: Sys<F, V>, e: Event<F, V>, f: F)
    requires Known(s) && Enabled(s, e)
    ensures var t := Apply(s, e).stack; var p := Pushed(s, e);
      && |p| <= 1 && (f in t <==> f in s.stack || (e.Spawn? && f == e.fiber))
      && (e.Spawn? && f == e.fiber ==> t[f] == e.stack)
      && (e.Compute? && Some(f) == s.current ==> t[f] == e.stack)
      && (f in s.stack && !(e.Compute? && Some(f) == s.current) ==>
        t[f] == s.stack[f] + if p != [] && p[0].fiber == f then [p[0].value] else [])
  {
    if e.Receive? { ReceiveStack(s, e.chan, f); }
  }

  lemma ReceiveStack<F, V>(s: Sys<F, V>, ch: int, f: F)
    requires Known(s) && s.current.Some? && ch in s.channels
    ensures var h := s.channels[ch]; var t := DoReceive(s, ch).stack;
      t == if |h.receives| < |h.sends|
        then s.stack[s.current.value := s.stack[s.current.value] + [h.sends[|h.receives|].value]] else s.stack
  {
  }

  /** The fibers an event puts into the run queue, in order: a receiver before the sender that
      woke it, a sender before the receiver that made room for it. */
  function Readied<F(==), V>(s: Sys<F, V>, e: Event<F, V>): seq<F>
    requires Known(s) && Enabled(s, e)
  {
    match e
    case Spawn(f, _) => [f]
    case Preempt => [s.current.value]
    case Send(ch, _) =>
      var h := s.channels[ch];
      if RecvQueue(h) != [] then [RecvQueue(h)[0], s.current.value]
      else if |Buffered(h)| < h.capacity then [s.current.value]
      else []
    case Receive(ch) =>
      var h := s.channels[ch];
      if Buffered(h) == [] && SendQueue(h) == [] then []
      else (if SendQueue(h) != [] then [SendQueue(h)[0].fiber] else []) + [s.current.value]
    case Wakeup => [s.wakeups[0].fiber]
    case _ => []
  }

  predicate Leaves<F, V>(e: Event<F, V>) { e.Send? || e.Receive? || e.CallAsync? || e.Preempt? || e.Finish? }

  /** The queue, the running fiber, the list of fibers and the results posted, after an event. */
  lemma QueueEffect<F, V>(s: Sys<F, V>, e: Event<F, V>)
    requires Known(s) && Enabled(s, e)
    ensures var t := Apply(s, e);
      && (if e.Dispatch? then s.runQueue == [t.current.value] + t.runQueue
        else t.runQueue == s.runQueue + Readied(s, e))
      && t.current == (if e.Dispatch? then Some(s.runQueue[0]) else if Leaves(e) then None else s.current)
      && t.spawned == s.spawned + (if e.Spawn? then [e.fiber] else []) && t.main == s.main
      && (if e.Wakeup? then s.wakeups == [s.wakeups[0]] + t.wakeups
          else t.wakeups == s.wakeups + if e.IoDone? then [Sent(e.fiber, e.value)] else [])
      && t.ioBlocked == s.ioBlocked + (if e.CallAsync? then 1 else 0) - (if e.Wakeup? then 1 else 0)
  {
    hide Known, Paired, Accepted;
    assert s.runQueue + [] == s.runQueue && s.spawned + [] == s.spawned && s.wakeups + [] == s.wakeups;
    match e
    case Send(ch, v) => SendQueued(s, ch, v);
    case Receive(ch) => ReceiveQueued(s, ch);
    case _ =>
  }

  lemma SendQueued<F, V>(s: Sys<F, V>, ch: int, v: V)
    requires Known(s) && s.current.Some? && ch in s.channels
    ensures var t := DoSend(s, ch, v); t.runQueue == s.runQueue + Readied(s, Send(ch, v))
  {
    var h := s.channels[ch];
    assert RecvQueue(h) == [] ==> (|Buffered(h)| < h.capacity <==> |h.sends| < Paired(h) + h.capacity);
  }

  lemma ReceiveQueued<F, V>(s: Sys<F, V>, ch: int)
    requires Known(s) && s.current.Some? && ch in s.channels
    ensures var t := DoReceive(s, ch); t.runQueue == s.runQueue + Readied(s, Receive(ch))
  {
    var h := s.channels[ch];
    assert Buffered(h) == [] && SendQueue(h) == [] <==> |h.receives| >= |h.sends|;
  }

  /** The state of every fiber after an event. */
  lemma StateEffect<F, V>(s: Sys<F, V>, e: Event<F, V>, f: F)
    requires Inv(s) && Enabled(s, e) && f in s.place
    ensures var t := Apply(s, e).state;
      && f in t && f in s.state
      && t[f] == (
        if f in Readied(s, e) then Ready
        else if e.Dispatch? && f == s.runQueue[0] then Running
        else if Leaves(e) && Some(f) == s.current then if e.Finish? then Done else Blocked
        else s.state[f])
  {
    hide Tidy, Paired, Accepted;
    match e
    case Send(ch, v) =>
      var h := s.channels[ch];
      assert RecvQueue(h) == [] ==> (|Buffered(h)| < h.capacity <==> |h.sends| < Paired(h) + h.capacity) by {
        SendQueued(s, ch, v);
        BufferRoom(h);
      }
    case Receive(ch) =>
      NothingThere(s.channels[ch]);
    case _ =>
  }

  lemma BufferRoom<F, V>(h: History<F, V>)
    ensures RecvQueue(h) == [] ==> (|Buffered(h)| < h.capacity <==> |h.sends| < Paired(h) + h.capacity)
  {
  }

  lemma NothingThere<F, V>(h: History<F, V>)
    ensures Buffered(h) == [] && SendQueue(h) == [] <==> |h.receives| >= |h.sends|
  {
  }

  predicate New<F, V>(h: History<F, V>, capacity: nat) { h.capacity == capacity && |h.sends| == 0 && |h.receives| == 0 }

  /** The channels after an event: a new one of the capacity asked for, or one more call logged. */
  lemma ChannelEffect<F, V>(s: Sys<F, V>, e: Event<F, V>)
    requires Known(s) && Enabled(s, e)
    ensures var t := Apply(s, e);
      && (e.MakeChannel? ==>
        t.nextChan == s.nextChan + 1 && t.nextChan in t.channels && New(t.channels[t.nextChan], e.capacity))
      && (!e.MakeChannel? ==> t.nextChan == s.nextChan && t.channels.Keys == s.channels.Keys)
      && (forall ch :: ch in s.channels && !(e.MakeChannel? && ch == t.nextChan) ==>
        && ch in t.channels && t.channels[ch].capacity == s.channels[ch].capacity
        && t.channels[ch].sends ==
          s.channels[ch].sends + (if e.Send? && e.chan == ch then [Sent(s.current.value, e.value)] else [])
        && t.channels[ch].receives ==
          s.channels[ch].receives + (if e.Receive? && e.chan == ch then [s.current.value] else []))
  {
    hide Known, Paired, Accepted, Buffered, SendQueue, RecvQueue;
    forall q: seq<Sent<F, V>> ensures q + [] == q { }
    forall q: seq<F> ensures q + [] == q { }
  }

  // ---------- results of asynchronous calls ----------

  function PostedBy<F, V>(e: Event<F, V>): seq<Sent<F, V>> { if e.IoDone? then [Sent(e.fiber, e.value)] else [] }

  function WokenBy<F(==), V>(s: Sys<F, V>, e: Event<F, V>): seq<Sent<F, V>>
    requires Known(s) && Enabled(s, e)
  {
    if e.Wakeup? then Pushed(s, e) else []
  }

  /** The results that were posted. */
  function Posted<F, V>(es: seq<Event<F, V>>): seq<Sent<F, V>>
  {
    if es == [] then [] else PostedBy(es[0]) + Posted(es[1..])
  }

  /** The results that were pushed onto stacks when wakeups were taken up. */
  function Woken<F(==), V>(s: Sys<F, V>, es: seq<Event<F, V>>): seq<Sent<F, V>>
    requires Possible(s, es)
    decreases |es|
  {
    if es == [] then [] else WokenBy(s, es[0]) + Woken(Apply(s, es[0]), es[1..])
  }

  lemma OneFlow<F, V>(s: Sys<F, V>, e: Event<F, V>)
    requires Known(s) && Enabled(s, e)
    ensures s.wakeups + PostedBy(e) == WokenBy(s, e) + Apply(s, e).wakeups
  {
    QueueEffect(s, e);
    hide Apply, Known;
    assert s.wakeups + [] == s.wakeups && [] + s.wakeups == s.wakeups;
  }

  lemma Flows<T>(q0: seq<T>, q1: seq<T>, q2: seq<T>, p: seq<T>, w: seq<T>, p': seq<T>, w': seq<T>)
    requires q0 + p == w + q1 && q1 + p' == w' + q2
    ensures q0 + (p + p') == (w + w') + q2
  {
    assert q0 + (p + p') == (q0 + p) + p' == w + (q1 + p');
    assert (w + w') + q2 == w + (w' + q2);
  }

  /** Over every run: the results pushed are exactly the results posted, each once, to its fiber and
      in order, but for those not yet taken up. */
  lemma {:induction false} ResultsArrive<F, V>(s: Sys<F, V>, es: seq<Event<F, V>>)
    requires Possible(s, es)
    ensures s.wakeups + Posted(es) == Woken(s, es) + After(s, es).wakeups
    decreases |es|
  {
    if es == [] {
      assert s.wakeups + [] == [] + s.wakeups;
    } else {
      var s1 := Apply(s, es[0]);
      OneFlow(s, es[0]);
      ResultsArrive(s1, es[1..]);
      Flows(s.wakeups, s1.wakeups, After(s, es).wakeups, PostedBy(es[0]), WokenBy(s, es[0]), Posted(es[1..]),
        Woken(s1, es[1..]));
    }
  }

  /** Where `Run` stops, every result posted has been pushed. */
  lemma AllResultsArrived<F, V>(main: F, es: seq<Event<F, V>>)
    requires Possible(Start<F, V>(main), es) && Quiescent(After(Start<F, V>(main), es))
    ensures Woken(Start<F, V>(main), es) == Posted(es)
  {
    var s := After(Start<F, V>(main), es);
    StartInv<F, V>(main);
    RunKeeps(Start<F, V>(main), es);
    QuiescentPlaces(s, s.main);
    ResultsArrive(Start<F, V>(main), es);
    assert [] + Posted(es) == Posted(es) && Woken(Start<F, V>(main), es) + [] == Woken(Start<F, V>(main), es);
  }

  /** How often a fiber started an asynchronous call. */
  function Started<F(==), V>(s: Sys<F, V>, es: seq<Event<F, V>>, f: F): nat
    requires Possible(s, es)
    decreases |es|
  {
    if es == [] then 0
    else (if es[0].CallAsync? && s.current == Some(f) then 1 else 0) + Started(Apply(s, es[0]), es[1..], f)
  }

  function For<F(==), V>(q: seq<Sent<F, V>>, f: F): nat
  {
    if q == [] then 0 else (if q[0].fiber == f then 1 else 0) + For(q[1..], f)
  }

  function Waiting<F(==), V>(s: Sys<F, V>, f: F): nat { if f in s.place && s.place[f] == AwaitingIo then 1 else 0 }

  lemma WaitingStep<F, V>(s: Sys<F, V>, e: Event<F, V>, f: F)
    requires Inv(s) && Enabled(s, e)
    ensures Waiting(s, f) + (if e.CallAsync? && s.current == Some(f) then 1 else 0)
      == Waiting(Apply(s, e), f) + (if e.IoDone? && e.fiber == f then 1 else 0)
  {
    hide Tidy, Agree, Paired, Accepted;
    if s.current.Some? { CurrentPlaced(s); }
    match e
    case Dispatch => FirstPlaced(s);
    case Wakeup => WakeupPlaced(s);
    case Send(ch, v) => SendPlaces(s, ch, v, f);
    case Receive(ch) => ReceivePlaces(s, ch, f);
    case _ =>
  }

  lemma FirstPlaced<F, V>(s: Sys<F, V>)
    requires Inv(s) && s.runQueue != []
    ensures s.runQueue[0] in s.place && s.place[s.runQueue[0]] == InRunQueue
  {
    assert Lists(AllQueues(s)(InRunQueue), s.place, InRunQueue);
    assert s.runQueue[0] in AllQueues(s)(InRunQueue);
  }

  lemma WakeupPlaced<F, V>(s: Sys<F, V>)
    requires Inv(s) && s.wakeups != []
    ensures s.wakeups[0].fiber in s.place && s.place[s.wakeups[0].fiber] == Waking
  {
    assert Lists(AllQueues(s)(Waking), s.place, Waking);
    assert Fibers(s.wakeups)[0] in AllQueues(s)(Waking);
  }

  lemma SendPlaces<F, V>(s: Sys<F, V>, ch: int, v: V, f: F)
    requires Inv(s) && s.current.Some? && ch in s.channels
    ensures Waiting(DoSend(s, ch, v), f) == Waiting(s, f)
  {
    hide Agree;
    CurrentPlaced(s);
    var h := s.channels[ch];
    assert Lists(AllQueues(s)(ReceivingOn(ch)), s.place, ReceivingOn(ch));
    if RecvQueue(h) != [] { assert RecvQueue(h)[0] in AllQueues(s)(ReceivingOn(ch)); }
  }

  lemma ReceivePlaces<F, V>(s: Sys<F, V>, ch: int, f: F)
    requires Inv(s) && s.current.Some? && ch in s.channels
    ensures Waiting(DoReceive(s, ch), f) == Waiting(s, f)
  {
    CurrentPlaced(s);
    var h := s.channels[ch];
    assert Lists(AllQueues(s)(SendingOn(ch)), s.place, SendingOn(ch));
    if SendQueue(h) != [] { assert Sending(h)[0] in AllQueues(s)(SendingOn(ch)); }
  }

  lemma ForMore<F, V>(es: seq<Event<F, V>>, f: F)
    requires es != []
    ensures For(Posted(es), f) == For(Posted(es[1..]), f) + (if es[0].IoDone? && es[0].fiber == f then 1 else 0)
  {
    var rest := Posted(es[1..]);
    if es[0].IoDone? {
      assert Posted(es)[0].fiber == es[0].fiber && Posted(es)[1..] == rest;
    } else {
      assert [] + rest == rest;
    }
  }

  /** Over every run, every fiber is posted one result for each call it started, except for one that
      is still under way. */
  lemma {:induction false} OneResultEach<F, V>(s: Sys<F, V>, es: seq<Event<F, V>>, f: F)
    requires Inv(s) && Possible(s, es)
    ensures Waiting(s, f) + Started(s, es, f) == For(Posted(es), f) + Waiting(After(s, es), f)
    decreases |es|
  {
    if es != [] {
      var s1 := Apply(s, es[0]);
      StepKeeps(s, es[0]);
      WaitingStep(s, es[0], f);
      OneResultEach(s1, es[1..], f);
      hide Apply, Inv, Enabled, Waiting;
      ForMore(es, f);
    }
  }
}
