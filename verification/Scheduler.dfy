/** The scheduler as it works: run queue, wait queues, ring buffers, fiber states and the
    count of outstanding I/O, updated in place (vm/scheduler.go, vm/vm.go). Every method is one
    step of `Protocol`. */
module Schedulers {
  import opened Language
  import opened Protocol
  import opened Whereabouts
  import opened SchedulerRuns
  import opened Channels

  ghost predicate Separate(channels: map<int, Channel>)
    reads channels.Values, set id | id in channels :: channels[id].buffer
  {
    && (forall id :: id in channels ==> channels[id].Valid())
    && (forall i, j :: i in channels && j in channels && i != j ==>
      channels[i] != channels[j] && channels[i].buffer != channels[j].buffer)
  }

  /** Channels are not touched by what fibers do. */
  twostate lemma StillSeparate(channels: map<int, Channel>)
    requires old(Separate(channels))
      && forall id :: id in channels ==> unchanged(channels[id]) && unchanged(channels[id].buffer)
    ensures Separate(channels)
  {
    forall id | id in channels ensures channels[id].Valid() { assert old(channels[id].Valid()); }
  }

  ghost function States(fs: set<Fiber>): (m: map<Fiber, FiberState>)
    reads fs
    ensures m.Keys == fs && forall f :: f in fs ==> m[f] == f.state
  {
    map f | f in fs :: f.state
  }

  ghost function Stacks(fs: set<Fiber>): (m: map<Fiber, seq<Value>>)
    reads fs
    ensures m.Keys == fs && forall f :: f in fs ==> m[f] == f.stack
  {
    map f | f in fs :: f.stack
  }

  ghost function Histories(channels: map<int, Channel>): (m: map<int, History<Fiber, Value>>)
    reads channels.Values
    ensures m.Keys == channels.Keys && forall id :: id in channels ==> m[id] == channels[id].history
  {
    map id | id in channels :: channels[id].history
  }

  class Scheduler {
    var fibers: seq<Fiber>
    var runQueue: seq<Fiber>
    var current: Fiber
    const mainFiber: Fiber
    var channels: map<int, Channel>
    var nextChanId: int
    var pendingWakeups: seq<Waiting>
    var ioBlockedCount: int

    /** The fibers whose asynchronous call is under way, each in a goroutine of its own. */
    var calls: set<Fiber>

    /** Whether `current` runs right now, and where each fiber is. */
    ghost var running: bool
    ghost var place: map<Fiber, Place>

    ghost function Model(): Sys<Fiber, Value>
      reads this, place.Keys, channels.Values
    {
      Sys(runQueue, if running then Some(current) else None, States(place.Keys), Stacks(place.Keys),
        Histories(channels), nextChanId, ioBlockedCount, pendingWakeups, fibers, mainFiber, place)
    }

    ghost predicate Valid()
      reads this, place.Keys, channels.Values, set id | id in channels :: channels[id].buffer
    {
      Separate(channels) && Inv(Model())
    }

    ghost function Objects(): set<object>
      reads this
    {
      place.Keys + channels.Values + set id | id in channels :: channels[id].buffer
    }

    /** NewScheduler, with the main fiber put into the run queue as the VM does. */
    constructor ()
      ensures Valid() && Model() == Start(mainFiber) && fresh(mainFiber) && calls == {} && !running
    {
      var main := new Fiber([]);
      mainFiber, current, fibers, runQueue := main, main, [], [main];
      channels, nextChanId, pendingWakeups, ioBlockedCount, calls := map[], 0, [], 0, {};
      running, place := false, map[main := InRunQueue];
      new;
      assert Model() == Start(mainFiber);
      StartInv<Fiber, Value>(mainFiber);
    }

    method SetState(f: Fiber, state: FiberState, ghost p: Place)
      requires f in place && state == StateOf(p)
      modifies this`place, f`state
      ensures Model() == Put(old(Model()), f, p)
    {
      f.state := state;
      place := place[f := p];
      assert place.Keys == old(place.Keys);
      assert States(place.Keys) == old(States(place.Keys))[f := state];
      assert Stacks(place.Keys) == old(Stacks(place.Keys));
      assert Histories(channels) == old(Histories(channels));
    }

    method Enqueue(f: Fiber)
      requires f in place
      modifies this`runQueue, this`place, f`state
      ensures Model() == Protocol.Enqueue(old(Model()), f)
    {
      SetState(f, Ready, InRunQueue);
      runQueue := runQueue + [f];
    }

    method PushToFiberStack(f: Fiber, v: Value)
      requires f in place
      modifies f`stack
      ensures Model() == Give(old(Model()), f, v)
    {
      f.stack := f.stack + [v];
      assert Stacks(place.Keys) == old(Stacks(place.Keys))[f := f.stack];
      assert States(place.Keys) == old(States(place.Keys));
      assert Histories(channels) == old(Histories(channels));
    }

    /** The current fiber is blocked. */
    method Block(ghost p: Place)
      requires running && current in place && StateOf(p) == Blocked
      modifies this`running, this`place, current`state
      ensures Model() == Yield(old(Model()), p)
    {
      SetState(current, Blocked, p);
      running := false;
    }

    method EnqueueCurrent()
      requires running && current in place
      modifies this`runQueue, this`running, this`place, current`state
      ensures Model() == YieldReady(old(Model()))
    {
      Enqueue(current);
      running := false;
    }

    /** next, with what `Run` does to the fiber it gets. */
    method Next() returns (f: Fiber?)
      requires Valid() && !running
      modifies this`runQueue, this`current, this`running, this`place, place.Keys
      ensures f == null <==> old(runQueue) == []
      ensures f == null ==> Model() == old(Model())
      ensures f != null ==> Valid() && running && f == current && Model() == Apply(old(Model()), Dispatch)
    {
      hide States, Stacks, Histories, Known, Tidy, Agree, Separate;
      if |runQueue| == 0 { return null; }
      f := runQueue[0];
      HeadPlaced(Model());
      StepKeeps(Model(), Dispatch);
      Start1(f);
    }

    method Start1(f: Fiber)
      requires f in place && runQueue != [] && f == runQueue[0]
      modifies this`runQueue, this`current, this`running, this`place, f`state
      ensures current == f
      ensures Model() == Put(old(Model()), f, Current).(current := Some(f), runQueue := old(runQueue)[1..])
    {
      runQueue := runQueue[1..];
      current := f;
      running := true;
      SetState(f, Running, Current);
    }

    /** After an operation on one channel alone. */
    twostate lemma Logged(id: int)
      requires unchanged(this) && id in channels && old(Separate(channels)) && channels[id].Valid()
      requires forall j :: j in channels && j != id ==> unchanged(channels[j]) && unchanged(channels[j].buffer)
      requires forall f :: f in place ==> unchanged(f)
      ensures Separate(channels) && Model() == Log(old(Model()), id, channels[id].history)
    {
      assert States(place.Keys) == old(States(place.Keys));
      assert Stacks(place.Keys) == old(Stacks(place.Keys));
      forall j | j in channels
        ensures Histories(channels)[j] == old(Histories(channels))[id := channels[id].history][j]
      { }
      assert Histories(channels) == old(Histories(channels))[id := channels[id].history];
      forall j | j in channels ensures channels[j].Valid() {
        if j != id { assert old(channels[j].Valid()); }
      }
    }

    /** The value a suspended fiber waits for, and the fiber back into the run queue. */
    method Resume(f: Fiber, v: Value)
      requires f in place
      modifies this`runQueue, this`place, f
      ensures Model() == Protocol.Enqueue(Give(old(Model()), f, v), f)
    {
      PushToFiberStack(f, v);
      Enqueue(f);
    }

    method ResumeBoth(f: Fiber, v: Value)
      requires running && current in place && f in place
      modifies this`runQueue, this`running, this`place, place.Keys
      ensures Model() == YieldReady(Protocol.Enqueue(Give(old(Model()), f, v), f))
    {
      Resume(f, v);
      EnqueueCurrent();
    }

    // ---------- one channel's part of send and receive ----------

    method PassToReceiver(id: int, val: Value) returns (receiver: Fiber)
      requires Separate(channels) && id in channels && channels[id].recvQueue != []
      modifies channels[id]
      ensures Separate(channels) && receiver == RecvQueue(old(channels[id].history))[0]
      ensures Model() == LogSend(old(Model()), id, current, val)
    {
      receiver := channels[id].PassToReceiver(current, val);
      Logged(id);
    }

    method Store(id: int, val: Value)
      requires Separate(channels) && id in channels && channels[id].recvQueue == []
      requires channels[id].capacity > 0 && channels[id].count < channels[id].capacity
      modifies channels[id], channels[id].buffer
      ensures Separate(channels) && HasRoom(old(channels[id].history))
      ensures Model() == LogSend(old(Model()), id, current, val)
    {
      channels[id].Store(current, val);
      Logged(id);
    }

    method QueueSender(id: int, val: Value)
      requires Separate(channels) && id in channels && channels[id].recvQueue == []
      requires !(channels[id].capacity > 0 && channels[id].count < channels[id].capacity)
      modifies channels[id]
      ensures Separate(channels) && !HasRoom(old(channels[id].history))
      ensures Model() == LogSend(old(Model()), id, current, val)
    {
      channels[id].QueueSender(current, val);
      Logged(id);
    }

    method TakeStored(id: int) returns (value: Value, sender: Option<Fiber>)
      requires Separate(channels) && id in channels && channels[id].capacity > 0 && channels[id].count > 0
      modifies channels[id], channels[id].buffer
      ensures Separate(channels) && Model() == LogReceive(old(Model()), id, current)
      ensures Gets(old(channels[id].history), value, sender)
    {
      value, sender := channels[id].TakeStored(current);
      Logged(id);
    }

    method TakeFromSender(id: int) returns (sender: Waiting)
      requires Separate(channels) && id in channels && channels[id].sendQueue != []
      requires !(channels[id].capacity > 0 && channels[id].count > 0)
      modifies channels[id]
      ensures Separate(channels) && channels[id].capacity == 0
      ensures Model() == LogReceive(old(Model()), id, current)
      ensures Gets(old(channels[id].history), sender.value, Some(sender.fiber))
    {
      sender := channels[id].TakeFromSender(current);
      Logged(id);
    }

    method QueueReceiver(id: int)
      requires Separate(channels) && id in channels && channels[id].sendQueue == []
      requires !(channels[id].capacity > 0 && channels[id].count > 0)
      modifies channels[id]
      ensures Separate(channels) && |old(channels[id].history).receives| >= |old(channels[id].history).sends|
      ensures Model() == LogReceive(old(Model()), id, current)
    {
      channels[id].QueueReceiver(current);
      Logged(id);
    }

    // ---------- send ----------

    method SendToReceiver(id: int, val: Value)
      requires Separate(channels) && id in channels && running && current in place
      requires channels[id].recvQueue != [] && RecvQueue(channels[id].history)[0] in place
      modifies this`runQueue, this`running, this`place, place.Keys, channels[id]
      ensures Separate(channels)
      ensures var r := RecvQueue(old(channels[id].history))[0];
        Model() == YieldReady(Protocol.Enqueue(Give(LogSend(old(Model()), id, current, val), r, val), r))
    {
      hide States, Stacks, Histories, Paired, Accepted, Channel.Valid, Separate;
      var receiver := PassToReceiver(id, val);
      ResumeBoth(receiver, val);
    }

    method SendToBuffer(id: int, val: Value)
      requires Separate(channels) && id in channels && running && current in place && channels[id].recvQueue == []
      requires channels[id].capacity > 0 && channels[id].count < channels[id].capacity
      modifies this`runQueue, this`running, this`place, place.Keys, channels[id], channels[id].buffer
      ensures Separate(channels) && HasRoom(old(channels[id].history))
      ensures Model() == YieldReady(LogSend(old(Model()), id, current, val))
    {
      hide Separate;
      Store(id, val);
      EnqueueCurrent();
    }

    method SendBlocks(id: int, val: Value)
      requires Separate(channels) && id in channels && running && current in place && channels[id].recvQueue == []
      requires !(channels[id].capacity > 0 && channels[id].count < channels[id].capacity)
      modifies this`runQueue, this`running, this`place, place.Keys, channels[id]
      ensures Separate(channels) && !HasRoom(old(channels[id].history))
      ensures Model() == Yield(LogSend(old(Model()), id, current, val), SendingOn(id))
    {
      hide Separate;
      QueueSender(id, val);
      Block(SendingOn(id));
    }

    /** send: a waiting receiver first, then the buffer, else the sender waits. */
    method Send(id: int, val: Value)
      requires Valid() && running && id in channels
      modifies this`runQueue, this`running, this`place, place.Keys, channels[id], channels[id].buffer
      ensures Valid() && Model() == Apply(old(Model()), Event.Send(id, val))
    {
      hide Inv, States, Stacks, Histories;
      StepKeeps(Model(), Event.Send(id, val));
      CurrentPlaced(Model());
      var ch := channels[id];
      if |ch.recvQueue| > 0 {
        ReceiverPlaced(Model(), id);
        SendToReceiver(id, val);
      } else if ch.capacity > 0 && ch.count < ch.capacity {
        SendToBuffer(id, val);
      } else {
        SendBlocks(id, val);
      }
    }

    // ---------- receive ----------

    /** The end of cases 1 and 2: a sender that waited goes on, and so does the current fiber,
        with its value. */
    method Served(value: Value, sender: Option<Fiber>)
      requires running && current in place && (sender.Some? ==> sender.value in place)
      modifies this`runQueue, this`running, this`place, place.Keys
      ensures Model() == ServedModel(old(Model()), value, sender)
    {
      PushToFiberStack(current, value);
      if sender.Some? { Enqueue(sender.value); }
      EnqueueCurrent();
    }

    method ReceiveStored(id: int)
      requires Separate(channels) && id in channels && running && current in place && SenderPlacedOn(id)
      requires channels[id].capacity > 0 && channels[id].count > 0
      modifies this`runQueue, this`running, this`place, place.Keys, channels[id], channels[id].buffer
      ensures Separate(channels) && ReceivedModel(old(Model()), id, current, Model())
    {
      hide States, Stacks, Histories, Paired, Accepted, SendQueue, Channel.Valid, Separate;
      var value, sender := TakeStored(id);
      Served(value, sender);
    }

    method ReceiveFromSender(id: int)
      requires Separate(channels) && id in channels && running && current in place && SenderPlacedOn(id)
      requires channels[id].sendQueue != [] && !(channels[id].capacity > 0 && channels[id].count > 0)
      modifies this`runQueue, this`running, this`place, place.Keys, channels[id]
      ensures Separate(channels) && ReceivedModel(old(Model()), id, current, Model())
    {
      hide States, Stacks, Histories, Paired, Accepted, SendQueue, Channel.Valid, Separate;
      var sender := TakeFromSender(id);
      Served(sender.value, Some(sender.fiber));
    }

    method ReceiveBlocks(id: int)
      requires Separate(channels) && id in channels && running && current in place
      requires channels[id].sendQueue == [] && !(channels[id].capacity > 0 && channels[id].count > 0)
      modifies this`runQueue, this`running, this`place, place.Keys, channels[id]
      ensures Separate(channels) && |old(channels[id].history).receives| >= |old(channels[id].history).sends|
      ensures Model() == Yield(LogReceive(old(Model()), id, current), ReceivingOn(id))
    {
      hide Separate;
      QueueReceiver(id);
      Block(ReceivingOn(id));
    }

    ghost predicate SenderPlacedOn(id: int)
      requires id in channels
      reads this, channels[id]
    {
      SendQueue(channels[id].history) != [] ==> SendQueue(channels[id].history)[0].fiber in place
    }

    /** receive: the buffer first, then a waiting sender, else the receiver waits. */
    method Receive(id: int)
      requires Valid() && running && id in channels
      modifies this`runQueue, this`running, this`place, place.Keys, channels[id], channels[id].buffer
      ensures Valid() && Model() == Apply(old(Model()), Event.Receive(id))
    {
      StepKeeps(Model(), Event.Receive(id));
      CurrentPlaced(Model());
      SendersPlaced(Model(), id);
      var ch := channels[id];
      if ch.capacity > 0 && ch.count > 0 {
        ReceiveStored(id);
      } else if |ch.sendQueue| > 0 {
        ReceiveFromSender(id);
      } else {
        ReceiveBlocks(id);
      }
    }

    // ---------- what else the running fiber can do ----------

    /** OpSpawn and Add: a new fiber with its arguments on the stack. */
    method Spawn(stack: seq<Value>) returns (f: Fiber)
      requires Valid() && running
      modifies this`fibers, this`runQueue, this`place
      ensures Valid() && fresh(f) && f !in old(Model()).place
      ensures Model() == Apply(old(Model()), Event.Spawn(f, stack))
    {
      hide Separate, Inv, States, Stacks, Histories, Known, Tidy, Agree, Paired, Accepted, Awaiting, Channel.Valid;
      ghost var s := Model();
      f := new Fiber(stack);
      StepKeeps(s, Event.Spawn(f, stack));
      fibers := fibers + [f];
      runQueue := runQueue + [f];
      place := place[f := InRunQueue];
      Arrived(f, s);
    }

    /** A fiber that did not exist before. */
    twostate lemma Arrived(new f: Fiber, s: Sys<Fiber, Value>)
      requires old(Separate(channels)) && s == old(Model()) && fresh(f) && f.state == Ready
      requires f !in old(place) && place == old(place)[f := InRunQueue] && channels == old(channels)
        && running == old(running)
      requires current == old(current) && nextChanId == old(nextChanId) && ioBlockedCount == old(ioBlockedCount)
        && pendingWakeups == old(pendingWakeups)
      requires fibers == old(fibers) + [f] && runQueue == old(runQueue) + [f]
      requires forall g :: g in old(place) ==> unchanged(g)
      requires forall id :: id in channels ==> unchanged(channels[id]) && unchanged(channels[id].buffer)
      ensures Separate(channels)
        && Model() == Protocol.Enqueue(s.(stack := s.stack[f := f.stack], spawned := s.spawned + [f]), f)
    {
      StillSeparate(channels);
      assert place.Keys == old(place.Keys) + {f};
      assert States(place.Keys) == old(States(place.Keys))[f := Ready];
      assert Stacks(place.Keys) == old(Stacks(place.Keys))[f := f.stack];
      assert Histories(channels) == old(Histories(channels));
    }

    /** OpMakeChannel */
    method MakeChannel(capacity: nat) returns (id: int)
      requires Valid() && running
      modifies this`nextChanId, this`channels
      ensures Valid() && id == old(nextChanId) + 1 && channels.Keys == old(channels.Keys) + {id}
      ensures forall j :: j in old(channels) ==> channels[j] == old(channels[j])
      ensures fresh(channels[id]) && fresh(channels[id].buffer)
        && Objects() <= old(Objects()) + {channels[id], channels[id].buffer}
      ensures Model() == Apply(old(Model()), Event.MakeChannel(capacity))
    {
      hide States, Stacks, Histories, Known, Tidy, Agree, Separate;
      ghost var s := Model();
      StepKeeps(s, Event.MakeChannel(capacity));
      assert nextChanId + 1 !in s.channels;
      id := RegisterChannel(capacity);
    }

    method RegisterChannel(capacity: nat) returns (id: int)
      requires Separate(channels) && nextChanId + 1 !in channels
      modifies this`nextChanId, this`channels
      ensures Separate(channels) && id == old(nextChanId) + 1 && channels.Keys == old(channels.Keys) + {id}
      ensures forall j :: j in old(channels) ==> channels[j] == old(channels[j])
      ensures fresh(channels[id]) && fresh(channels[id].buffer)
        && Objects() <= old(Objects()) + {channels[id], channels[id].buffer}
      ensures Model() == Log(old(Model()), id, History(capacity, [], [])).(nextChan := id)
    {
      hide Separate, Inv, Apply, States, Stacks, Histories, Known, Tidy, Agree, Paired, Accepted, Awaiting,
        Channel.Valid;
      var ch := new Channel(capacity);
      nextChanId := nextChanId + 1;
      id := nextChanId;
      channels := channels[id := ch];
      Registered(ch, id);
    }

    /** A channel that did not exist before. */
    twostate lemma Registered(new ch: Channel, id: int)
      requires old(Separate(channels)) && fresh(ch) && fresh(ch.buffer) && ch.Valid()
      requires id !in old(channels) && channels == old(channels)[id := ch] && place == old(place)
        && running == old(running)
      requires current == old(current) && ioBlockedCount == old(ioBlockedCount) && pendingWakeups == old(pendingWakeups)
      requires fibers == old(fibers) && runQueue == old(runQueue) && nextChanId == id
      requires forall g :: g in place ==> unchanged(g)
      requires forall j :: j in old(channels) ==> unchanged(old(channels)[j]) && unchanged(old(channels)[j].buffer)
      ensures Separate(channels) && Model() == Log(old(Model()), id, ch.history).(nextChan := id)
    {
      hide Channel.Valid;
      StillSeparate(old(channels));
      assert States(place.Keys) == old(States(place.Keys));
      assert Stacks(place.Keys) == old(Stacks(place.Keys));
      assert Histories(channels) == old(Histories(channels))[id := ch.history];
    }

    /** The asynchronous branch of callBuiltIn. */
    method CallAsync()
      requires Valid() && running
      modifies this`running, this`place, this`ioBlockedCount, this`calls, place.Keys
      ensures Valid() && Model() == Apply(old(Model()), Event.CallAsync) && calls == old(calls) + {current}
    {
      hide States, Stacks, Histories, Known, Tidy, Agree, Separate;
      StepKeeps(Model(), Event.CallAsync);
      CurrentPlaced(Model());
      BlockForIo();
    }

    method BlockForIo()
      requires Separate(channels) && running && current in place
      modifies this`running, this`place, this`ioBlockedCount, this`calls, current`state
      ensures Separate(channels) && calls == old(calls) + {current}
      ensures Model() == Yield(old(Model()), AwaitingIo).(ioBlocked := old(ioBlockedCount) + 1)
    {
      hide Separate;
      Block(AwaitingIo);
      ioBlockedCount := ioBlockedCount + 1;
      calls := calls + {current};
    }

    /** The time slice is used up; `Run` puts the fiber back into the run queue. */
    method Preempt()
      requires Valid() && running
      modifies this`runQueue, this`running, this`place, place.Keys
      ensures Valid() && Model() == Apply(old(Model()), Event.Preempt)
    {
      hide Separate;
      StepKeeps(Model(), Event.Preempt);
      CurrentPlaced(Model());
      EnqueueCurrent();
    }

    /** The fiber has no code left. */
    method Finish()
      requires Valid() && running
      modifies this`running, this`place, place.Keys
      ensures Valid() && Model() == Apply(old(Model()), Event.Finish)
    {
      hide Separate;
      StepKeeps(Model(), Event.Finish);
      CurrentPlaced(Model());
      EndCurrent();
    }

    method EndCurrent()
      requires Separate(channels) && running && current in place
      modifies this`running, this`place, current`state
      ensures Separate(channels) && Model() == Yield(old(Model()), Gone)
    {
      hide Separate;
      SetState(current, Done, Gone);
      running := false;
    }

    /** Any other work of the fiber is on its own stack. */
    method Compute(stack: seq<Value>)
      requires Valid() && running
      modifies place.Keys
      ensures Valid() && Model() == Apply(old(Model()), Event.Compute(stack))
    {
      hide Known, Tidy, Agree, Separate;
      StepKeeps(Model(), Event.Compute(stack));
      CurrentPlaced(Model());
      current.stack := stack;
      assert Stacks(place.Keys) == old(Stacks(place.Keys))[current := stack];
      assert States(place.Keys) == old(States(place.Keys));
      assert Histories(channels) == old(Histories(channels));
    }

    // ---------- wakeups ----------

    /** An asynchronous call is over: its goroutine posts the result. */
    method PostWakeup(f: Fiber, result: Value)
      requires Valid() && f in place && place[f].AwaitingIo?
      modifies this`pendingWakeups, this`place, this`calls
      ensures Valid() && Model() == Apply(old(Model()), Event.IoDone(f, result)) && pendingWakeups != []
        && calls == old(calls) - {f}
    {
      hide Separate;
      StepKeeps(Model(), Event.IoDone(f, result));
      assert f in Model().state && f.state == Blocked;
      Post(f, result);
    }

    method Post(f: Fiber, result: Value)
      requires Separate(channels) && f in place && f.state == Blocked
      modifies this`pendingWakeups, this`place, this`calls
      ensures Separate(channels) && calls == old(calls) - {f}
      ensures Model() == Put(old(Model()), f, Waking).(wakeups := old(pendingWakeups) + [Sent(f, result)])
    {
      hide Separate;
      pendingWakeups := pendingWakeups + [Sent(f, result)];
      calls := calls - {f};
      place := place[f := Waking];
      assert place.Keys == old(place.Keys);
      assert States(place.Keys) == old(States(place.Keys))[f := Blocked];
    }

    method TakeWakeup()
      requires Valid() && !running && pendingWakeups != []
      modifies this`pendingWakeups, this`ioBlockedCount, this`runQueue, this`place, place.Keys
      ensures Valid() && Model() == Apply(old(Model()), Event.Wakeup)
    {
      hide Separate;
      StepKeeps(Model(), Event.Wakeup);
      assert pendingWakeups[0].fiber in Model().stack;
      Woken();
    }

    method Woken()
      requires pendingWakeups != [] && pendingWakeups[0].fiber in place
      modifies this`pendingWakeups, this`ioBlockedCount, this`runQueue, this`place, place.Keys
      ensures var w := old(pendingWakeups)[0];
        Model() == Protocol.Enqueue(Give(old(Model()), w.fiber, w.value), w.fiber)
        .(wakeups := old(pendingWakeups)[1..], ioBlocked := old(ioBlockedCount) - 1)
    {
      var w := pendingWakeups[0];
      pendingWakeups := pendingWakeups[1..];
      ioBlockedCount := ioBlockedCount - 1;
      Resume(w.fiber, w.value);
    }

    // ---------- the environment ----------

    /** Some call under way is over, with some result. */
    method FinishCall() returns (ghost e: Event<Fiber, Value>)
      requires Valid() && calls == Awaiting(place) && calls != {}
      modifies this`calls, this`pendingWakeups, this`place
      ensures Valid() && calls == Awaiting(place) && place.Keys == old(place.Keys) && pendingWakeups != []
      ensures |calls| == |old(calls)| - 1 && |pendingWakeups| == |old(pendingWakeups)| + 1
      ensures Enabled(old(Model()), e) && Model() == Apply(old(Model()), e)
    {
      hide Separate, Inv;
      var f :| f in calls;
      var v: Value := *;
      e := Event.IoDone(f, v);
      AwaitingAfter(Model(), e);
      PostWakeup(f, v);
    }

    /** Any number of calls end, in any order and with any results. It happens between any two
        steps of the scheduler and of the running fiber. */
    method Interfere() returns (ghost es: seq<Event<Fiber, Value>>)
      requires Valid() && calls == Awaiting(place)
      modifies this`calls, this`pendingWakeups, this`place
      ensures Valid() && calls == Awaiting(place) && place.Keys == old(place.Keys)
      ensures |calls| <= |old(calls)| && |calls| + |pendingWakeups| == |old(calls)| + |old(pendingWakeups)|
      ensures Reached(old(Model()), es, Model())
    {
      hide States, Stacks, Histories, Reached, Separate, Inv, Apply, Enabled;
      es := [];
      ReachedNone(Model());
      var more: bool := *;
      while more && calls != {}
        invariant Valid() && calls == Awaiting(place) && place.Keys == old(place.Keys)
        invariant |calls| <= |old(calls)| && |calls| + |pendingWakeups| == |old(calls)| + |old(pendingWakeups)|
        invariant Reached(old(Model()), es, Model())
        decreases |calls|
      {
        ghost var s := Model();
        ghost var e := FinishCall();
        ReachedOne(old(Model()), es, s, e, Model());
        es := es + [e];
        more := *;
      }
    }

    /** drainWakeups: calls may end while it is at work, and it takes those up too. */
    method DrainWakeups() returns (ghost es: seq<Event<Fiber, Value>>)
      requires Valid() && !running && calls == Awaiting(place)
      modifies this`calls, this`pendingWakeups, this`ioBlockedCount, this`runQueue, this`place, place.Keys
      ensures Valid() && !running && calls == Awaiting(place) && place.Keys == old(place.Keys) && pendingWakeups == []
      ensures Reached(old(Model()), es, Model())
    {
      hide States, Stacks, Histories, Reached, Separate, Inv, Apply;
      es := Interfere();
      while |pendingWakeups| > 0
        invariant Valid() && !running && calls == Awaiting(place) && place.Keys == old(place.Keys)
        invariant Reached(old(Model()), es, Model())
        decreases |calls| + |pendingWakeups|
      {
        ghost var s := Model();
        ghost var more := TakeOne();
        ReachedTrans(old(Model()), es, s, more, Model());
        es := es + more;
      }
    }

    /** One wakeup is taken up; meanwhile other calls may end. */
    method TakeOne() returns (ghost es: seq<Event<Fiber, Value>>)
      requires Valid() && !running && calls == Awaiting(place) && pendingWakeups != []
      modifies this`calls, this`pendingWakeups, this`ioBlockedCount, this`runQueue, this`place, place.Keys
      ensures Valid() && !running && calls == Awaiting(place) && place.Keys == old(place.Keys)
      ensures |calls| + |pendingWakeups| < |old(calls)| + |old(pendingWakeups)|
      ensures Reached(old(Model()), es, Model())
    {
      hide States, Stacks, Histories, Reached, Separate, Inv;
      ghost var s := Model();
      AwaitingAfter(s, Event.Wakeup);
      ReachedNone(s);
      TakeWakeup();
      ghost var s1 := Model();
      ReachedOne(s, [], s, Event.Wakeup, s1);
      es := Interfere();
      ReachedTrans(s, [] + [Event.Wakeup], s1, es, Model());
      es := [] + [Event.Wakeup] + es;
    }

    method HasBlockedFibers() returns (b: bool)
      requires Valid()
      ensures b <==> SeesBlocked(Model())
    {
      b := false;
      for i := 0 to |fibers|
        invariant !b && forall j :: 0 <= j < i ==> fibers[j].state != Blocked
      {
        assert fibers[i] in Model().spawned;
        if fibers[i].state == Blocked { return true; }
      }
    }

    // ---------- running ----------

    /** One step of the running fiber, whatever its code says. */
    method Act() returns (left: bool, ghost e: Event<Fiber, Value>)
      requires Valid() && running && calls == Awaiting(place)
      modifies this, Objects()
      ensures Enabled(old(Model()), e) && Model() == Apply(old(Model()), e) && Valid()
      ensures calls == Awaiting(place) && fresh(Objects() - old(Objects())) && place.Keys >= old(place.Keys)
      ensures left == !running && current == old(current)
    {
      hide States, Stacks, Histories, Known, Enabled, Separate, Inv, Apply;
      ghost var s := Model();
      var stays: bool := *;
      if stays { e := Stay(); } else { e := Leave(); }
      left := !stays;
      AwaitingAfter(s, e);
      Yields(s, e);
    }

    /** A step after which the fiber goes on. */
    method Stay() returns (ghost e: Event<Fiber, Value>)
      requires Valid() && running
      modifies this`fibers, this`runQueue, this`place, this`nextChanId, this`channels, Objects()
      ensures Enabled(old(Model()), e) && Model() == Apply(old(Model()), e) && Valid()
      ensures (e.Spawn? || e.MakeChannel? || e.Compute?) && fresh(Objects() - old(Objects()))
    {
      hide States, Stacks, Histories, Known, Awaiting, Separate, Inv, Apply;
      var k: int, stack: seq<Value>, n: nat := *, *, *;
      ghost var s := Model();
      if k == 0 {
        var f := Spawn(stack);
        e := Event.Spawn(f, stack);
        AwaitingAfter(s, e);
      } else if k == 1 {
        e := Event.MakeChannel(n);
        AwaitingAfter(s, e);
        var _ := MakeChannel(n);
      } else {
        e := Event.Compute(stack);
        AwaitingAfter(s, e);
        Compute(stack);
      }
    }

    /** A step with which the fiber leaves the processor. */
    method Leave() returns (ghost e: Event<Fiber, Value>)
      requires Valid() && running
      modifies this`runQueue, this`running, this`place, this`ioBlockedCount, this`calls, Objects()
      ensures Enabled(old(Model()), e) && Model() == Apply(old(Model()), e) && Valid()
      ensures e.Preempt? || e.Finish? || e.CallAsync? || e.Send? || e.Receive?
      ensures calls == if e.CallAsync? then old(calls) + {current} else old(calls)
    {
      hide Separate, Inv, Apply;
      var k: int, id: int, v: Value := *, *, *;
      if k == 0 && id in channels { e := Event.Send(id, v); Send(id, v); }
      else if k == 1 && id in channels { e := Event.Receive(id); Receive(id); }
      else if k == 2 { e := Event.CallAsync; CallAsync(); }
      else if k == 3 { e := Event.Finish; Finish(); }
      else { e := Event.Preempt; Preempt(); }
    }

    /** A step of the running fiber, after which any number of calls of others end. */
    method Step() returns (left: bool, ghost es: seq<Event<Fiber, Value>>)
      requires Valid() && running && calls == Awaiting(place)
      modifies this, Objects()
      ensures Valid() && calls == Awaiting(place) && fresh(Objects() - old(Objects())) && place.Keys >= old(place.Keys)
      ensures left == !running && current == old(current) && Reached(old(Model()), es, Model())
    {
      hide States, Stacks, Histories, Reached, Separate, Inv, Apply;
      ghost var s := Model();
      ghost var e;
      ReachedNone(s);
      left, e := Act();
      ghost var s1 := Model();
      ReachedOne(s, [], s, e, s1);
      es := Interfere();
      ReachedTrans(s, [] + [e], s1, es, Model());
      es := [] + [e] + es;
    }

    /** runFiber: the fiber runs until it yields or its time slice is used up. */
    method Slice(steps: nat) returns (ghost es: seq<Event<Fiber, Value>>)
      requires Valid() && running && calls == Awaiting(place)
      modifies this, Objects()
      ensures Valid() && calls == Awaiting(place) && fresh(Objects() - old(Objects()))
      ensures current == old(current) && place.Keys >= old(place.Keys) && Reached(old(Model()), es, Model())
    {
      hide States, Stacks, Histories, Reached, Separate, Inv, Apply;
      es := Interfere();
      var i, left := 0, false;
      while i < steps && !left
        invariant Valid() && calls == Awaiting(place) && fresh(Objects() - old(Objects())) && left == !running
        invariant current == old(current) && place.Keys >= old(place.Keys) && Reached(old(Model()), es, Model())
      {
        ghost var s := Model();
        ghost var more;
        left, more := Step();
        ReachedTrans(old(Model()), es, s, more, Model());
        es := es + more;
        i := i + 1;
      }
    }

    /** A dispatch: the fiber runs, and is put back into the run queue if it was preempted. */
    method RunSlice() returns (ghost es: seq<Event<Fiber, Value>>)
      requires Valid() && running && calls == Awaiting(place)
      modifies this, Objects()
      ensures Valid() && !running && calls == Awaiting(place) && fresh(Objects() - old(Objects()))
      ensures Reached(old(Model()), es, Model())
    {
      hide Histories, Known, Tidy, States, Reached, Separate, Inv, Apply;
      CurrentPlaced(Model());
      es := Slice(1023);
      ghost var s := Model();
      RunningState(s, current);
      if current.state == Running {
        AwaitingAfter(s, Event.Preempt);
        Yields(s, Event.Preempt);
        Preempt();
        ReachedOne(old(Model()), es, s, Event.Preempt, Model());
        es := es + [Event.Preempt];
      }
    }

    /** Nothing is ready, but I/O is outstanding: wait until a call is over, unless one already
        is. */
    method AwaitWakeup() returns (ghost es: seq<Event<Fiber, Value>>)
      requires Valid() && !running && calls == Awaiting(place) && ioBlockedCount > 0
      modifies this, place.Keys
      ensures Valid() && !running && calls == Awaiting(place) && place.Keys == old(place.Keys)
        && channels == old(channels)
      ensures Reached(old(Model()), es, Model())
    {
      hide Reached, States, Stacks, Histories, Separate, Inv, Apply;
      ghost var s := Model();
      es := [];
      ReachedNone(s);
      if pendingWakeups == [] {
        SomeCall(s);
        ghost var e := FinishCall();
        ReachedOne(s, es, s, e, Model());
        es := es + [e];
      }
      ghost var s1 := Model();
      ghost var more := TakeOne();
      ReachedTrans(s, es, s1, more, Model());
      es := es + more;
    }

    /** Run, for at most `rounds` rounds of its loop, whatever the fibers do and whenever
        their calls are over. */
    method Run(rounds: nat) returns (verdict: Verdict, ghost es: seq<Event<Fiber, Value>>)
      requires Valid() && !running && calls == Awaiting(place)
      modifies this, Objects()
      ensures Valid() && Reached(old(Model()), es, Model())
      ensures verdict != StillRunning ==>
        Quiescent(Model()) && verdict == if SeesBlocked(Model()) then Deadlock else AllDone
    {
      hide Separate, Inv, Apply;
      es := [];
      ReachedNone(Model());
      for i := 0 to rounds
        invariant Valid() && !running && calls == Awaiting(place) && fresh(Objects() - old(Objects()))
        invariant Reached(old(Model()), es, Model())
      {
        ghost var s0 := Model();
        ghost var more;
        var done: Option<Verdict>;
        done, more := Round();
        ReachedTrans(old(Model()), es, s0, more, Model());
        es := es + more;
        if done.Some? { return done.value, es; }
      }
      verdict := StillRunning;
    }

    /** One round: take up wakeups, then run the next fiber, or wait, or stop. Calls may end
        between any two of these. */
    method Round() returns (done: Option<Verdict>, ghost es: seq<Event<Fiber, Value>>)
      requires Valid() && !running && calls == Awaiting(place)
      modifies this, Objects()
      ensures Valid() && !running && calls == Awaiting(place) && fresh(Objects() - old(Objects()))
      ensures Reached(old(Model()), es, Model())
      ensures done.Some? ==> Quiescent(Model()) && done == Some(if SeesBlocked(Model()) then Deadlock else AllDone)
    {
      hide States, Stacks, Histories, Reached, Separate, Inv, Apply;
      ghost var s := Model();
      ghost var more;
      es := Gather();
      ghost var s1 := Model();
      if |runQueue| == 0 {
        done, more := Idle();
      } else {
        done := None;
        more := RunNext();
      }
      ReachedTrans(s, es, s1, more, Model());
      es := es + more;
    }

    /** The start of a round: wakeups are taken up, and more may be posted before the scheduler
        looks at the run queue. */
    method Gather() returns (ghost es: seq<Event<Fiber, Value>>)
      requires Valid() && !running && calls == Awaiting(place)
      modifies this`calls, this`pendingWakeups, this`ioBlockedCount, this`runQueue, this`place, place.Keys
      ensures Valid() && !running && calls == Awaiting(place) && place.Keys == old(place.Keys)
      ensures Reached(old(Model()), es, Model())
    {
      hide States, Stacks, Histories, Reached, Separate, Inv, Apply;
      ghost var s := Model();
      es := DrainWakeups();
      ghost var s1 := Model();
      ghost var more := Interfere();
      ReachedTrans(s, es, s1, more, Model());
      es := es + more;
    }

    method RunNext() returns (ghost es: seq<Event<Fiber, Value>>)
      requires Valid() && !running && calls == Awaiting(place) && runQueue != []
      modifies this, Objects()
      ensures Valid() && !running && calls == Awaiting(place) && fresh(Objects() - old(Objects()))
      ensures Reached(old(Model()), es, Model())
    {
      hide Reached, States, Stacks, Histories, Separate, Inv, Apply;
      ghost var s := Model();
      var _ := Next();
      ghost var s1 := Model();
      AwaitingAfter(s, Event.Dispatch);
      ReachedNone(s);
      ReachedOne(s, [], s, Event.Dispatch, s1);
      es := RunSlice();
      ReachedTrans(s, [] + [Event.Dispatch], s1, es, Model());
      es := [] + [Event.Dispatch] + es;
    }

    /** The run queue is empty: wait for I/O, or stop with a verdict. */
    method Idle() returns (done: Option<Verdict>, ghost es: seq<Event<Fiber, Value>>)
      requires Valid() && !running && calls == Awaiting(place) && runQueue == []
      modifies this, place.Keys
      ensures Valid() && !running && calls == Awaiting(place) && place.Keys == old(place.Keys)
        && channels == old(channels)
      ensures Reached(old(Model()), es, Model())
      ensures done.Some? ==> Quiescent(Model()) && done == Some(if SeesBlocked(Model()) then Deadlock else AllDone)
    {
      hide Separate, Inv, Apply;
      if ioBlockedCount > 0 {
        done := None;
        es := AwaitWakeup();
      } else {
        IoCounted(Model());
        ReachedNone(Model());
        var blocked := HasBlockedFibers();
        done, es := Some(if blocked then Deadlock else AllDone), [];
      }
    }
  }

  lemma IoCounted<F, V>(s: Sys<F, V>)
    requires Inv(s)
    ensures s.ioBlocked >= 0 && forall f :: f in s.spawned ==> f in s.state
  {
  }

  /** A fiber runs exactly if its state is Running. */
  lemma RunningState<F, V>(s: Sys<F, V>, f: F)
    requires Inv(s) && f in s.place
    ensures s.current == Some(f) <==> f in s.state && s.state[f] == Running
    ensures f in s.state && s.state[f] != Running && (s.current.Some? ==> s.current == Some(f)) ==> s.current.None?
  {
    assert Lists(AllQueues(s)(Current), s.place, Current);
    if s.current == Some(f) { CurrentPlaced(s); }
    if s.place[f] == Current { assert f in AllQueues(s)(Current); }
  }

  lemma Yields<F, V>(s: Sys<F, V>, e: Event<F, V>)
    requires Inv(s) && Enabled(s, e) && s.current.Some?
    ensures Apply(s, e).current == if e.Preempt? || e.Finish? || e.CallAsync? || e.Send? || e.Receive? then None
      else s.current
  {
  }

  /** Outstanding I/O that is not yet over is some call under way. */
  lemma SomeCall<F, V>(s: Sys<F, V>)
    requires Inv(s) && s.ioBlocked > 0 && s.wakeups == []
    ensures Awaiting(s.place) != {}
  {
    assert Lists(AllQueues(s)(Waking), s.place, Waking);
    var f :| f in IoFibers(s.place);
    assert f in Awaiting(s.place);
  }

  /** A new VM, run for a while: if it ends without error all spawned fibers are done, and if
      it reports a deadlock some spawned fiber waits for a channel and nothing can happen. */
  method RunProgram(rounds: nat) returns (verdict: Verdict, s: Scheduler)
    ensures verdict == AllDone ==> forall f :: f in s.fibers ==> f.state == Done
    ensures verdict == Deadlock ==> exists f :: f in s.fibers && f.state == Blocked
    ensures verdict == Deadlock ==> s.runQueue == [] && s.ioBlockedCount == 0 && s.pendingWakeups == []
  {
    hide States, Stacks, Known, Separate, Apply, Inv, Possible, After;
    s := new Scheduler();
    ghost var es;
    assert Awaiting(s.place) == {};
    verdict, es := s.Run(rounds);
    if verdict != StillRunning {
      VerdictExact<Fiber, Value>(s.mainFiber, es);
      NothingHappens<Fiber, Value>(s.mainFiber, es, Event.Wakeup);
    }
  }

  datatype Verdict = AllDone | Deadlock | StillRunning

  function Awaiting<F>(place: map<F, Place>): set<F> { set f | f in place && place[f].AwaitingIo? }

  lemma AwaitingPut<F>(place: map<F, Place>, f: F, p: Place)
    requires f in place
    ensures place[f := p].Keys == place.Keys
    ensures Awaiting(place[f := p]) == if p.AwaitingIo? then Awaiting(place) + {f} else Awaiting(place) - {f}
  {
  }

  /** What a step does to the set of fibers and to those with a call under way. */
  lemma AwaitingAfter<F, V>(s: Sys<F, V>, e: Event<F, V>)
    requires Inv(s) && Enabled(s, e)
    ensures Apply(s, e).place.Keys == s.place.Keys + (if e.Spawn? then {e.fiber} else {})
    ensures Awaiting(Apply(s, e).place) ==
      if e.CallAsync? then Awaiting(s.place) + {s.current.value} else if e.IoDone? then Awaiting(s.place) - {e.fiber}
        else Awaiting(s.place)
  {
    hide Tidy, Agree, Known;
    if s.current.Some? { CurrentPlaced(s); }
    match e
    case Dispatch =>
      QueuedPlaced(s, InRunQueue);
      AwaitingPut(s.place, s.runQueue[0], Current);
    case CallAsync => AwaitingPut(s.place, s.current.value, AwaitingIo);
    case Preempt => AwaitingPut(s.place, s.current.value, InRunQueue);
    case Finish => AwaitingPut(s.place, s.current.value, Gone);
    case IoDone(f, _) => AwaitingPut(s.place, f, Waking);
    case Wakeup =>
      QueuedPlaced(s, Waking);
      AwaitingPut(s.place, s.wakeups[0].fiber, InRunQueue);
    case Send(ch, v) => AwaitingSend(s, ch, v);
    case Receive(ch) => AwaitingReceive(s, ch);
    case _ =>
  }

  lemma QueuedPlaced<F, V>(s: Sys<F, V>, p: Place)
    requires Inv(s) && Tracked(p, s.channels.Keys) && QueueAt(s, p) != []
    ensures QueueAt(s, p)[0] in s.place && s.place[QueueAt(s, p)[0]] == p
  {
    assert Lists(AllQueues(s)(p), s.place, p);
    assert QueueAt(s, p)[0] in AllQueues(s)(p);
  }

  lemma AwaitingSend<F, V>(s: Sys<F, V>, ch: int, v: V)
    requires Inv(s) && s.current.Some? && ch in s.channels
    ensures DoSend(s, ch, v).place.Keys == s.place.Keys && Awaiting(DoSend(s, ch, v).place) == Awaiting(s.place)
  {
    CurrentPlaced(s);
    var h := s.channels[ch];
    if RecvQueue(h) != [] {
      ReceiverPlaced(s, ch);
      AwaitingPut(s.place, RecvQueue(h)[0], InRunQueue);
      AwaitingPut(s.place[RecvQueue(h)[0] := InRunQueue], s.current.value, InRunQueue);
    } else {
      AwaitingPut(s.place, s.current.value, if |h.sends| < Paired(h) + h.capacity then InRunQueue else SendingOn(ch));
    }
  }

  lemma AwaitingReceive<F, V>(s: Sys<F, V>, ch: int)
    requires Inv(s) && s.current.Some? && ch in s.channels
    ensures DoReceive(s, ch).place.Keys == s.place.Keys && Awaiting(DoReceive(s, ch).place) == Awaiting(s.place)
  {
    CurrentPlaced(s);
    var h := s.channels[ch];
    if SendQueue(h) != [] {
      SenderPlaced(s, ch);
      AwaitingPut(s.place, SendQueue(h)[0].fiber, InRunQueue);
      AwaitingPut(s.place[SendQueue(h)[0].fiber := InRunQueue], s.current.value, InRunQueue);
    } else {
      AwaitingPut(s.place, s.current.value, if |h.receives| < |h.sends| then InRunQueue else ReceivingOn(ch));
    }
  }

  /** A receive that got its value. */
  ghost predicate ReceivedModel(s: Sys<Fiber, Value>, id: int, f: Fiber, s': Sys<Fiber, Value>)
    requires id in s.channels && s.current.Some? && s.current.value in s.stack
  {
    var h := s.channels[id];
    |h.receives| < |h.sends| && s' == ServedModel(LogReceive(s, id, f), h.sends[|h.receives|].value, Relieved(h))
  }

  function LogSend(s: Sys<Fiber, Value>, ch: int, f: Fiber, v: Value): Sys<Fiber, Value>
    requires ch in s.channels
  {
    Log(s, ch, s.channels[ch].(sends := s.channels[ch].sends + [Sent(f, v)]))
  }

  function LogReceive(s: Sys<Fiber, Value>, ch: int, f: Fiber): Sys<Fiber, Value>
    requires ch in s.channels
  {
    Log(s, ch, s.channels[ch].(receives := s.channels[ch].receives + [f]))
  }

  predicate HasRoom(h: History<Fiber, Value>) { |h.sends| < Paired(h) + h.capacity }

  /** The sender that can go on after the next receive. */
  function Relieved(h: History<Fiber, Value>): Option<Fiber>
  {
    if SendQueue(h) == [] then None else Some(SendQueue(h)[0].fiber)
  }

  /** What the next receive gets, and the sender it relieves. */
  ghost predicate Gets(h: History<Fiber, Value>, value: Value, sender: Option<Fiber>)
  {
    |h.receives| < |h.sends| && value == h.sends[|h.receives|].value && sender == Relieved(h)
  }

  function ServedModel(s: Sys<Fiber, Value>, value: Value, sender: Option<Fiber>): Sys<Fiber, Value>
    requires s.current.Some? && s.current.value in s.stack
  {
    var s1 := Give(s, s.current.value, value);
    YieldReady(if sender.Some? then Protocol.Enqueue(s1, sender.value) else s1)
  }

  lemma SendersPlaced(s: Sys<Fiber, Value>, ch: int)
    requires Inv(s) && ch in s.channels
    ensures SendQueue(s.channels[ch]) != [] ==> SendQueue(s.channels[ch])[0].fiber in s.place
  {
    if SendQueue(s.channels[ch]) != [] { SenderPlaced(s, ch); }
  }

  lemma HeadPlaced(s: Sys<Fiber, Value>)
    requires Inv(s) && s.runQueue != []
    ensures s.runQueue[0] in s.place
  {
    assert Lists(AllQueues(s)(InRunQueue), s.place, InRunQueue);
    assert s.runQueue[0] in AllQueues(s)(InRunQueue);
  }
}
