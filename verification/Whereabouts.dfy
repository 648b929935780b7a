/** Over every run of the scheduler, each fiber is in exactly one place and its state field
    agrees with it. */
module Whereabouts {
  import opened Language
  import opened Protocol

  predicate NoDup<F(==)>(q: seq<F>) { forall i, j :: 0 <= i < j < |q| ==> q[i] != q[j] }

  /** `q` lists, once each, exactly the fibers whose place is `p`. */
  ghost predicate Lists<F>(q: seq<F>, place: map<F, Place>, p: Place)
  {
    && NoDup(q) && (forall f :: f in q ==> f in place && place[f] == p)
    && (forall f :: f in place && place[f] == p ==> f in q)
  }

  /** The queue that holds the fibers of each place. */
  type Queues<!F> = Place -> seq<F>

  predicate Tracked(p: Place, chans: set<int>)
  {
    match p
    case SendingOn(ch) => ch in chans
    case ReceivingOn(ch) => ch in chans
    case AwaitingIo => false
    case Gone => false
    case _ => true
  }

  ghost predicate Tidy<F>(place: map<F, Place>, q: Queues<F>, chans: set<int>)
  {
    forall p :: Tracked(p, chans) ==> Lists(q(p), place, p)
  }

  /** A fiber that waits for a channel waits for one that exists. */
  predicate Exists(p: Place, chans: set<int>)
  {
    match p
    case SendingOn(ch) => ch in chans
    case ReceivingOn(ch) => ch in chans
    case _ => true
  }

  function QueueAt<F, V>(s: Sys<F, V>, p: Place): seq<F>
  {
    match p
    case InRunQueue => s.runQueue
    case Current => if s.current.Some? then [s.current.value] else []
    case Waking => Fibers(s.wakeups)
    case SendingOn(ch) => if ch in s.channels then Sending(s.channels[ch]) else []
    case ReceivingOn(ch) => if ch in s.channels then RecvQueue(s.channels[ch]) else []
    case _ => []
  }

  function AllQueues<F, V>(s: Sys<F, V>): Queues<F> { (p: Place) => QueueAt(s, p) }

  predicate WaitsForIo(p: Place) { p.AwaitingIo? || p.Waking? }

  function IoFibers<F>(place: map<F, Place>): set<F> { set f | f in place && WaitsForIo(place[f]) }

  /** The states agree with the places, and the fibers are the main one and the spawned ones. */
  ghost predicate Agree<F>(state: map<F, FiberState>, place: map<F, Place>, chans: set<int>, main: F, spawned: seq<F>)
  {
    && state.Keys == place.Keys && (forall f :: f in place ==> state[f] == StateOf(place[f]))
    && (forall f :: f in place ==> Exists(place[f], chans))
    && main in place && main !in spawned && NoDup(spawned)
    && (forall f :: f in spawned ==> f in place)
    && (forall f :: f in place ==> f == main || f in spawned)
  }

  ghost predicate Inv<F, V>(s: Sys<F, V>)
  {
    && Known(s) && Agree(s.state, s.place, s.channels.Keys, s.main, s.spawned)
    && Tidy(s.place, AllQueues(s), s.channels.Keys)
    && s.ioBlocked == |IoFibers(s.place)|
    && (forall ch :: ch in s.channels ==> ch <= s.nextChan)
  }

  // ---------- moving a fiber from one place to another ----------

  lemma ListsOther<F>(q: seq<F>, place: map<F, Place>, p: Place, f: F, to: Place)
    requires Lists(q, place, p) && to != p && (f in place ==> place[f] != p)
    ensures Lists(q, place[f := to], p)
  {
  }

  lemma ListsArrive<F>(q: seq<F>, place: map<F, Place>, p: Place, f: F)
    requires Lists(q, place, p) && (f in place ==> place[f] != p)
    ensures Lists(q + [f], place[f := p], p)
  {
  }

  lemma ListsLeave<F>(q: seq<F>, place: map<F, Place>, p: Place, to: Place)
    requires Lists(q, place, p) && q != [] && to != p
    ensures Lists(q[1..], place[q[0] := to], p)
  {
    forall f | f in place[q[0] := to] && place[q[0] := to][f] == p ensures f in q[1..] {
      var i :| 0 <= i < |q| && q[i] == f;
      assert q[1..][i - 1] == f;
    }
  }

  function Moved<F>(q: Queues<F>, f: F, from: Place, to: Place): Queues<F>
  {
    (p: Place) => if p == from then (if q(p) == [] then [] else q(p)[1..]) else if p == to then q(p) + [f] else q(p)
  }

  lemma MoveKeeps<F>(place: map<F, Place>, q: Queues<F>, f: F, from: Place, to: Place, chans: set<int>)
    requires Tidy(place, q, chans) && f in place && place[f] == from && from != to
    requires Tracked(from, chans) ==> q(from) != [] && q(from)[0] == f
    ensures Tidy(place[f := to], Moved(q, f, from, to), chans)
  {
    forall p | Tracked(p, chans) ensures Lists(Moved(q, f, from, to)(p), place[f := to], p) {
      if p == from { ListsLeave(q(p), place, p, to); }
      else if p == to { ListsArrive(q(p), place, p, f); }
      else { ListsOther(q(p), place, p, f, to); }
    }
  }

  lemma ArriveKeeps<F>(place: map<F, Place>, q: Queues<F>, f: F, to: Place, chans: set<int>, q': Queues<F>)
    requires Tidy(place, q, chans) && f !in place
    requires forall p :: Tracked(p, chans) ==> q'(p) == if p == to then q(p) + [f] else q(p)
    ensures Tidy(place[f := to], q', chans)
  {
    forall p | Tracked(p, chans) ensures Lists(q'(p), place[f := to], p) {
      if p == to { ListsArrive(q(p), place, p, f); } else { ListsOther(q(p), place, p, f, to); }
    }
  }

  lemma TidySame<F>(place: map<F, Place>, q: Queues<F>, q': Queues<F>, chans: set<int>)
    requires Tidy(place, q, chans) && forall p :: Tracked(p, chans) ==> q'(p) == q(p)
    ensures Tidy(place, q', chans)
  {
  }

  lemma IoMove<F>(place: map<F, Place>, f: F, to: Place)
    ensures var before := f in place && WaitsForIo(place[f]);
      |IoFibers(place[f := to])| == |IoFibers(place)| + (if WaitsForIo(to) then 1 else 0) - (if before then 1 else 0)
  {
    var a, b := IoFibers(place), IoFibers(place[f := to]);
    if WaitsForIo(to) { assert b == a + {f}; } else { assert b == a - {f}; }
  }

  // ---------- what a call does to the queues of a channel ----------

  lemma AfterSend<F, V>(h: History<F, V>, x: Sent<F, V>)
    ensures var h' := h.(sends := h.sends + [x]);
      && Sending(h') == (if RecvQueue(h) == [] && |h.sends| >= Paired(h) + h.capacity then Sending(h) + [x.fiber]
        else Sending(h))
      && RecvQueue(h') == (if RecvQueue(h) != [] then RecvQueue(h)[1..] else [])
  {
    var h' := h.(sends := h.sends + [x]);
    if RecvQueue(h) == [] && |h.sends| >= Paired(h) + h.capacity {
      assert SendQueue(h') == SendQueue(h) + [x];
    } else {
      assert SendQueue(h') == SendQueue(h) == [];
    }
  }

  lemma AfterReceive<F, V>(h: History<F, V>, f: F)
    ensures var h' := h.(receives := h.receives + [f]);
      && Sending(h') == (if Sending(h) != [] then Sending(h)[1..] else [])
      && RecvQueue(h') == (if |h.receives| < |h.sends| then [] else RecvQueue(h) + [f])
      && (|h.receives| < |h.sends| ==> RecvQueue(h) == [])
      && (SendQueue(h) != [] ==> |h.receives| < |h.sends|)
  {
  }

  // ---------- every step keeps the invariant ----------

  lemma NewChannelKeeps<F, V>(s: Sys<F, V>, s': Sys<F, V>, capacity: nat)
    requires Inv(s) && s' == Log(s, s.nextChan + 1, History(capacity, [], [])).(nextChan := s.nextChan + 1)
    ensures Tidy(s'.place, AllQueues(s'), s'.channels.Keys)
  {
    var q, q', id := AllQueues(s), AllQueues(s'), s.nextChan + 1;
    assert id !in s.channels;
    forall p | Tracked(p, s'.channels.Keys) ensures Lists(q'(p), s.place, p) {
      if p == SendingOn(id) || p == ReceivingOn(id) {
        assert !Exists(p, s.channels.Keys);
        assert q'(p) == [];
      } else {
        assert Tracked(p, s.channels.Keys) && q'(p) == q(p);
      }
    }
  }

  /** The running fiber moves to the end of the queue for `to`. */
  lemma YieldKeeps<F, V>(s: Sys<F, V>, place: map<F, Place>, q: Queues<F>, s': Sys<F, V>, to: Place, chans: set<int>)
    requires Tidy(place, q, chans) && s.current.Some? && q(Current) == [s.current.value] && to != Current
    requires s'.place == place[s.current.value := to]
    requires forall p :: Tracked(p, chans) ==>
      QueueAt(s', p) == if p == Current then [] else if p == to then q(p) + [s.current.value] else q(p)
    ensures Tidy(s'.place, AllQueues(s'), chans)
  {
    var f := s.current.value;
    assert Lists(q(Current), place, Current) && f in q(Current);
    MoveKeeps(place, q, f, Current, to, chans);
    TidySame(s'.place, Moved(q, f, Current, to), AllQueues(s'), chans);
  }

  /** Fiber `f`, at the head of the queue of `from`, gets ready. */
  lemma ReadyKeeps<F, V>(s: Sys<F, V>, f: F, from: Place) returns (q: Queues<F>)
    requires Inv(s) && Tracked(from, s.channels.Keys) && from != InRunQueue && QueueAt(s, from) != []
      && QueueAt(s, from)[0] == f
    ensures q == Moved(AllQueues(s), f, from, InRunQueue) && Tidy(s.place[f := InRunQueue], q, s.channels.Keys)
    ensures f in s.place && s.place[f] == from
  {
    assert Lists(AllQueues(s)(from), s.place, from) && f in AllQueues(s)(from);
    MoveKeeps(s.place, AllQueues(s), f, from, InRunQueue, s.channels.Keys);
    q := Moved(AllQueues(s), f, from, InRunQueue);
  }

  lemma SendKeeps<F, V>(s: Sys<F, V>, ch: int, v: V)
    requires Inv(s) && s.current.Some? && ch in s.channels
    ensures Tidy(DoSend(s, ch, v).place, AllQueues(DoSend(s, ch, v)), s.channels.Keys)
  {
    hide NoDup, Lists, IoFibers, Fibers, Values, SendQueue;
    var h, s', chans := s.channels[ch], DoSend(s, ch, v), s.channels.Keys;
    AfterSend(h, Sent(s.current.value, v));
    QueuesExclusive(h);
    if RecvQueue(h) != [] {
      var q := ReadyKeeps(s, RecvQueue(h)[0], ReceivingOn(ch));
      YieldKeeps(s, s.place[RecvQueue(h)[0] := InRunQueue], q, s', InRunQueue, chans);
    } else if |h.sends| < Paired(h) + h.capacity {
      YieldKeeps(s, s.place, AllQueues(s), s', InRunQueue, chans);
    } else {
      YieldKeeps(s, s.place, AllQueues(s), s', SendingOn(ch), chans);
    }
  }

  lemma ReceiveKeeps<F, V>(s: Sys<F, V>, ch: int)
    requires Inv(s) && s.current.Some? && ch in s.channels
    ensures Tidy(DoReceive(s, ch).place, AllQueues(DoReceive(s, ch)), s.channels.Keys)
  {
    hide NoDup, Lists;
    var h := s.channels[ch];
    AfterReceive(h, s.current.value);
    if SendQueue(h) != [] { RelieveKeeps(s, ch); }
    else if |h.receives| < |h.sends| {
      YieldKeeps(s, s.place, AllQueues(s), DoReceive(s, ch), InRunQueue, s.channels.Keys);
    }
    else { YieldKeeps(s, s.place, AllQueues(s), DoReceive(s, ch), ReceivingOn(ch), s.channels.Keys); }
  }

  /** A receive that lets the longest waiting sender go on. */
  lemma RelieveKeeps<F, V>(s: Sys<F, V>, ch: int)
    requires Inv(s) && s.current.Some? && ch in s.channels && SendQueue(s.channels[ch]) != []
    ensures Tidy(DoReceive(s, ch).place, AllQueues(DoReceive(s, ch)), s.channels.Keys)
  {
    var h, s' := s.channels[ch], DoReceive(s, ch);
    AfterReceive(h, s.current.value);
    var q := ReadyKeeps(s, Sending(h)[0], SendingOn(ch));
    YieldKeeps(s, s.place[Sending(h)[0] := InRunQueue], q, s', InRunQueue, s.channels.Keys);
  }

  /** The running fiber leaves without a channel being involved. */
  lemma LeaveKeeps<F, V>(s: Sys<F, V>, s': Sys<F, V>, to: Place)
    requires Inv(s) && s.current.Some? && (to == AwaitingIo || to == InRunQueue || to == Gone)
    requires s'.place == s.place[s.current.value := to] && s'.current == None && s'.wakeups == s.wakeups
      && s'.channels == s.channels
    requires s'.runQueue == if to == InRunQueue then s.runQueue + [s.current.value] else s.runQueue
    ensures Tidy(s'.place, AllQueues(s'), s.channels.Keys)
  {
    YieldKeeps(s, s.place, AllQueues(s), s', to, s.channels.Keys);
  }

  lemma WakeupKeeps<F, V>(s: Sys<F, V>)
    requires Inv(s) && Enabled(s, Wakeup)
    ensures var s' := Apply(s, Wakeup); Tidy(s'.place, AllQueues(s'), s.channels.Keys)
  {
    var f, s' := s.wakeups[0].fiber, Apply(s, Wakeup);
    var q := ReadyKeeps(s, f, Waking);
    assert Fibers(s.wakeups)[1..] == Fibers(s.wakeups[1..]);
    TidySame(s'.place, q, AllQueues(s'), s.channels.Keys);
  }

  lemma DispatchKeeps<F, V>(s: Sys<F, V>)
    requires Inv(s) && Enabled(s, Dispatch)
    ensures var s' := Apply(s, Dispatch); Tidy(s'.place, AllQueues(s'), s.channels.Keys)
  {
    var f, s', q := s.runQueue[0], Apply(s, Dispatch), AllQueues(s);
    assert Lists(q(InRunQueue), s.place, InRunQueue) && f in q(InRunQueue);
    MoveKeeps(s.place, q, f, InRunQueue, Current, s.channels.Keys);
    TidySame(s'.place, Moved(q, f, InRunQueue, Current), AllQueues(s'), s.channels.Keys);
  }

  lemma IoDoneKeeps<F, V>(s: Sys<F, V>, f: F, v: V)
    requires Inv(s) && Enabled(s, IoDone(f, v))
    ensures var s' := Apply(s, IoDone(f, v)); Tidy(s'.place, AllQueues(s'), s.channels.Keys)
  {
    var s', q := Apply(s, IoDone(f, v)), AllQueues(s);
    MoveKeeps(s.place, q, f, AwaitingIo, Waking, s.channels.Keys);
    TidySame(s'.place, Moved(q, f, AwaitingIo, Waking), AllQueues(s'), s.channels.Keys);
  }

  lemma KeepsQueues<F, V>(s: Sys<F, V>, e: Event<F, V>)
    requires Inv(s) && Enabled(s, e)
    ensures Tidy(Apply(s, e).place, AllQueues(Apply(s, e)), Apply(s, e).channels.Keys)
  {
    var s' := Apply(s, e);
    var q, q', chans := AllQueues(s), AllQueues(s'), s.channels.Keys;
    match e
    case Dispatch => DispatchKeeps(s);
    case Compute(_) => TidySame(s.place, q, q', chans);
    case Spawn(f, _) => ArriveKeeps(s.place, q, f, InRunQueue, chans, q');
    case MakeChannel(c) => NewChannelKeeps(s, s', c);
    case Send(ch, v) => SendKeeps(s, ch, v);
    case Receive(ch) => ReceiveKeeps(s, ch);
    case CallAsync => LeaveKeeps(s, s', AwaitingIo);
    case Preempt => LeaveKeeps(s, s', InRunQueue);
    case Finish => LeaveKeeps(s, s', Gone);
    case IoDone(f, v) => IoDoneKeeps(s, f, v);
    case Wakeup => WakeupKeeps(s);
  }

  lemma CurrentPlaced<F, V>(s: Sys<F, V>)
    requires Inv(s) && s.current.Some?
    ensures s.current.value in s.place && s.place[s.current.value] == Current
  {
    assert Lists(AllQueues(s)(Current), s.place, Current);
    assert s.current.value in AllQueues(s)(Current);
  }

  lemma SenderPlaced<F, V>(s: Sys<F, V>, ch: int)
    requires Inv(s) && ch in s.channels && SendQueue(s.channels[ch]) != []
    ensures var f := SendQueue(s.channels[ch])[0].fiber; f in s.place && s.place[f] == SendingOn(ch)
  {
    assert Lists(AllQueues(s)(SendingOn(ch)), s.place, SendingOn(ch));
    assert Sending(s.channels[ch])[0] == SendQueue(s.channels[ch])[0].fiber;
  }

  lemma ReceiverPlaced<F, V>(s: Sys<F, V>, ch: int)
    requires Inv(s) && ch in s.channels && RecvQueue(s.channels[ch]) != []
    ensures var f := RecvQueue(s.channels[ch])[0]; f in s.place && s.place[f] == ReceivingOn(ch)
  {
    assert Lists(AllQueues(s)(ReceivingOn(ch)), s.place, ReceivingOn(ch));
    assert RecvQueue(s.channels[ch])[0] in AllQueues(s)(ReceivingOn(ch));
  }

  lemma KeysKept<K, W>(m: map<K, W>, k: K, w: W)
    requires k in m
    ensures m[k := w].Keys == m.Keys
  {
  }

  lemma PutAgrees<F, V>(s: Sys<F, V>, f: F, p: Place, chans: set<int>)
    requires Agree(s.state, s.place, chans, s.main, s.spawned) && f in s.place && Exists(p, chans)
    ensures var s' := Put(s, f, p); Agree(s'.state, s'.place, chans, s.main, s.spawned) && s'.place.Keys == s.place.Keys
    ensures |IoFibers(Put(s, f, p).place)| ==
      |IoFibers(s.place)| + (if WaitsForIo(p) then 1 else 0) - (if WaitsForIo(s.place[f]) then 1 else 0)
  {
    KeysKept(s.place, f, p);
    KeysKept(s.state, f, StateOf(p));
    IoMove(s.place, f, p);
  }

  /** All but the queues, after a step. */
  ghost predicate Rest<F, V>(s: Sys<F, V>)
  {
    && Known(s) && Agree(s.state, s.place, s.channels.Keys, s.main, s.spawned)
    && s.ioBlocked == |IoFibers(s.place)|
    && (forall ch :: ch in s.channels ==> ch <= s.nextChan)
  }

  lemma SendRest<F, V>(s: Sys<F, V>, ch: int, v: V)
    requires Inv(s) && s.current.Some? && ch in s.channels
    ensures Rest(DoSend(s, ch, v))
  {
    hide NoDup, Lists, IoFibers, Fibers, Values, SendQueue, RecvQueue, Buffered, Sending, Paired, Accepted, Tidy, Agree;
    var h, cur, chans := s.channels[ch], s.current.value, s.channels.Keys;
    CurrentPlaced(s);
    var s1 := Log(s, ch, h.(sends := h.sends + [Sent(cur, v)]));
    assert s1.channels.Keys == chans;
    if RecvQueue(h) != [] {
      ReceiverPlaced(s, ch);
      var r := RecvQueue(h)[0];
      KeysKept(s.stack, r, s.stack[r] + [v]);
      PutAgrees(s1, r, InRunQueue, chans);
      PutAgrees(Put(s1, r, InRunQueue), cur, InRunQueue, chans);
    } else if |h.sends| < Paired(h) + h.capacity {
      PutAgrees(s1, cur, InRunQueue, chans);
    } else {
      PutAgrees(s1, cur, SendingOn(ch), chans);
    }
  }

  lemma ReceiveRest<F, V>(s: Sys<F, V>, ch: int)
    requires Inv(s) && s.current.Some? && ch in s.channels
    ensures Rest(DoReceive(s, ch))
  {
    hide NoDup, Lists, IoFibers, Fibers, Values, RecvQueue, Buffered, Sending, Paired, Accepted, Tidy, Agree;
    var h, cur, chans := s.channels[ch], s.current.value, s.channels.Keys;
    CurrentPlaced(s);
    var s1 := Log(s, ch, h.(receives := h.receives + [cur]));
    assert s1.channels.Keys == chans;
    if |h.receives| < |h.sends| {
      KeysKept(s.stack, cur, s.stack[cur] + [h.sends[|h.receives|].value]);
      if SendQueue(h) != [] {
        SenderPlaced(s, ch);
        var f := SendQueue(h)[0].fiber;
        PutAgrees(s1, f, InRunQueue, chans);
        PutAgrees(Put(s1, f, InRunQueue), cur, InRunQueue, chans);
      } else {
        PutAgrees(s1, cur, InRunQueue, chans);
      }
    } else {
      PutAgrees(s1, cur, ReceivingOn(ch), chans);
    }
  }

  lemma SpawnRest<F, V>(s: Sys<F, V>, f: F, stk: seq<V>)
    requires Inv(s) && Enabled(s, Spawn(f, stk))
    ensures Rest(Apply(s, Spawn(f, stk)))
  {
    IoMove(s.place, f, InRunQueue);
    var s' := Apply(s, Spawn(f, stk));
    assert forall g :: g in s'.place <==> g in s.place || g == f;
  }

  lemma LeaveRest<F, V>(s: Sys<F, V>, e: Event<F, V>)
    requires Inv(s) && Enabled(s, e) && (e.CallAsync? || e.Preempt? || e.Finish?)
    ensures Rest(Apply(s, e))
  {
    CurrentPlaced(s);
    PutAgrees(s, s.current.value,
      if e.CallAsync? then AwaitingIo else if e.Preempt? then InRunQueue else Gone, s.channels.Keys);
  }

  lemma WakeupRest<F, V>(s: Sys<F, V>)
    requires Inv(s) && Enabled(s, Wakeup)
    ensures Rest(Apply(s, Wakeup))
  {
    var f := s.wakeups[0].fiber;
    assert Lists(AllQueues(s)(Waking), s.place, Waking);
    assert f in AllQueues(s)(Waking) by { assert AllQueues(s)(Waking)[0] == f; }
    KeysKept(s.stack, f, s.stack[f] + [s.wakeups[0].value]);
    PutAgrees(s, f, InRunQueue, s.channels.Keys);
  }

  lemma OtherRest<F, V>(s: Sys<F, V>, e: Event<F, V>)
    requires Inv(s) && Enabled(s, e) && (e.Dispatch? || e.Compute? || e.MakeChannel? || e.IoDone?)
    ensures Rest(Apply(s, e))
  {
    match e
    case Dispatch =>
      assert Lists(AllQueues(s)(InRunQueue), s.place, InRunQueue);
      assert s.runQueue[0] in AllQueues(s)(InRunQueue);
      PutAgrees(s, s.runQueue[0], Current, s.channels.Keys);
    case Compute(stk) =>
      CurrentPlaced(s);
      KeysKept(s.stack, s.current.value, stk);
    case IoDone(f, _) => PutAgrees(s, f, Waking, s.channels.Keys);
    case _ =>
  }

  /** Every step keeps the invariant. */
  lemma StepKeeps<F, V>(s: Sys<F, V>, e: Event<F, V>)
    requires Inv(s) && Enabled(s, e)
    ensures Inv(Apply(s, e))
  {
    KeepsQueues(s, e);
    match e
    case Send(ch, v) => SendRest(s, ch, v);
    case Receive(ch) => ReceiveRest(s, ch);
    case Spawn(f, stk) => SpawnRest(s, f, stk);
    case Wakeup => WakeupRest(s);
    case _ => if e.CallAsync? || e.Preempt? || e.Finish? { LeaveRest(s, e); } else { OtherRest(s, e); }
  }
}
