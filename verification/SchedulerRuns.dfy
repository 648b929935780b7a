/** Whole runs of the scheduler: where fibers are, what `Run` reports, what channels deliver,
    and how long a ready fiber waits. */
module SchedulerRuns {
  import opened Language
  import opened Protocol
  import opened Whereabouts

  /** The events can happen one after the other. */
  predicate Possible<F(==), V>(s: Sys<F, V>, es: seq<Event<F, V>>)
    decreases |es|
  {
    Known(s) && (es == [] || (Enabled(s, es[0]) && Possible(Apply(s, es[0]), es[1..])))
  }

  function After<F(==), V>(s: Sys<F, V>, es: seq<Event<F, V>>): (r: Sys<F, V>)
    requires Possible(s, es)
    ensures Known(r)
    decreases |es|
  {
    if es == [] then s else After(Apply(s, es[0]), es[1..])
  }

  ghost predicate Reached<F, V>(a: Sys<F, V>, es: seq<Event<F, V>>, b: Sys<F, V>)
  {
    Possible(a, es) && After(a, es) == b
  }

  lemma {:induction false} ReachedTrans<F, V>(a: Sys<F, V>, es: seq<Event<F, V>>, b: Sys<F, V>,
          fs: seq<Event<F, V>>, c: Sys<F, V>)
    requires Reached(a, es, b) && Reached(b, fs, c)
    ensures Reached(a, es + fs, c)
    decreases |es|
  {
    if es == [] {
      assert [] + fs == fs;
    } else {
      ReachedTrans(Apply(a, es[0]), es[1..], b, fs, c);
      assert (es + fs)[1..] == es[1..] + fs;
    }
  }

  lemma ReachedOne<F, V>(a: Sys<F, V>, es: seq<Event<F, V>>, b: Sys<F, V>, e: Event<F, V>, c: Sys<F, V>)
    requires Reached(a, es, b) && Enabled(b, e) && c == Apply(b, e) && Inv(c)
    ensures Reached(a, es + [e], c)
  {
    assert [e][1..] == [];
    assert Possible(c, []);
    ReachedTrans(a, es, b, [e], c);
  }

  lemma ReachedNone<F, V>(a: Sys<F, V>)
    requires Inv(a)
    ensures Reached(a, [], a)
  {
  }

  /** A new VM: only the main fiber, ready to run. */
  function Start<F(==), V>(main: F): Sys<F, V>
  {
    Sys([main], None, map[main := Ready], map[main := []], map[], 0, 0, [], [], main, map[main := InRunQueue])
  }

  lemma StartInv<F, V>(main: F)
    ensures Inv(Start<F, V>(main))
  {
    var s := Start<F, V>(main);
    assert IoFibers(s.place) == {};
    forall p | Tracked(p, s.channels.Keys) ensures Lists(AllQueues(s)(p), s.place, p) { }
  }

  lemma {:induction false} RunKeeps<F, V>(s: Sys<F, V>, es: seq<Event<F, V>>)
    requires Inv(s) && Possible(s, es)
    ensures Inv(After(s, es))
    decreases |es|
  {
    if es != [] {
      StepKeeps(s, es[0]);
      RunKeeps(Apply(s, es[0]), es[1..]);
    }
  }

  /** In every reachable state every fiber is in the queue of its place, there only once, and
      in no other queue; and its state field says so. */
  lemma OnePlace<F, V>(main: F, es: seq<Event<F, V>>, f: F, p: Place, i: nat)
    requires Possible(Start<F, V>(main), es)
    requires var s := After(Start<F, V>(main), es);
      Tracked(p, s.channels.Keys) && i < |QueueAt(s, p)| && QueueAt(s, p)[i] == f
    ensures var s := After(Start<F, V>(main), es);
      && f in s.place && s.place[f] == p && f in s.state && s.state[f] == StateOf(p)
      && (forall j :: 0 <= j < |QueueAt(s, p)| && QueueAt(s, p)[j] == f ==> j == i)
      && (forall p' :: Tracked(p', s.channels.Keys) && p' != p ==> f !in QueueAt(s, p'))
  {
    var s := After(Start<F, V>(main), es);
    StartInv<F, V>(main);
    RunKeeps(Start<F, V>(main), es);
    assert Lists(AllQueues(s)(p), s.place, p) && f in AllQueues(s)(p);
    forall p' | Tracked(p', s.channels.Keys) && p' != p ensures f !in QueueAt(s, p') {
      assert Lists(AllQueues(s)(p'), s.place, p');
    }
  }

  /** In every reachable state every fiber there is, the main one and all spawned ones, is
      somewhere: in the one queue of its place, or in none because its call is under way or it
      is done. `Blocked` in no queue is exactly the former, `Done` exactly the latter. */
  lemma Somewhere<F, V>(main: F, es: seq<Event<F, V>>, f: F)
    requires Possible(Start<F, V>(main), es)
    requires var s := After(Start<F, V>(main), es); f == main || f in s.spawned
    ensures var s := After(Start<F, V>(main), es); f in s.place && f in s.state
    ensures var s := After(Start<F, V>(main), es);
      forall p :: Tracked(p, s.channels.Keys) ==> (f in QueueAt(s, p) <==> p == s.place[f])
    ensures var s := After(Start<F, V>(main), es);
      (forall p :: Tracked(p, s.channels.Keys) ==> f !in QueueAt(s, p))
        <==> s.state[f] == Done || (s.state[f] == Blocked && s.place[f] == AwaitingIo)
    ensures var s := After(Start<F, V>(main), es); s.state[f] == Done <==> s.place[f] == Gone
  {
    var s := After(Start<F, V>(main), es);
    StartInv<F, V>(main);
    RunKeeps(Start<F, V>(main), es);
    RunMain(Start<F, V>(main), es);
    forall p | Tracked(p, s.channels.Keys) ensures f in QueueAt(s, p) <==> p == s.place[f] {
      assert Lists(AllQueues(s)(p), s.place, p);
    }
    var p := s.place[f];
    assert Exists(p, s.channels.Keys) && (Tracked(p, s.channels.Keys) ==> f in QueueAt(s, p));
    assert s.state[f] == StateOf(p) && (Tracked(p, s.channels.Keys) || p == AwaitingIo || p == Gone);
  }

  lemma {:induction false} RunMain<F, V>(s: Sys<F, V>, es: seq<Event<F, V>>)
    requires Possible(s, es)
    ensures After(s, es).main == s.main
    decreases |es|
  {
    if es != [] { RunMain(Apply(s, es[0]), es[1..]); }
  }

  // ---------- the verdicts of Run ----------

  /** `Run` finds nothing to do and no I/O to wait for. */
  predicate Quiescent<F(==), V>(s: Sys<F, V>) { s.current.None? && s.runQueue == [] && s.ioBlocked == 0 }

  /** hasBlockedFibers */
  ghost predicate SeesBlocked<F, V>(s: Sys<F, V>)
    requires forall f :: f in s.spawned ==> f in s.state
  {
    exists f :: f in s.spawned && s.state[f] == Blocked
  }

  lemma HeadIn<F>(q: seq<F>)
    ensures q != [] ==> q[0] in q
  {
  }

  lemma QuiescentPlaces<F, V>(s: Sys<F, V>, f: F)
    requires Inv(s) && Quiescent(s) && f in s.place
    ensures s.place[f] == Gone || s.place[f].SendingOn? || s.place[f].ReceivingOn?
    ensures s.wakeups == []
  {
    assert Lists(AllQueues(s)(InRunQueue), s.place, InRunQueue);
    assert Lists(AllQueues(s)(Current), s.place, Current);
    assert IoFibers(s.place) == {};
    assert f !in IoFibers(s.place);
    assert Lists(AllQueues(s)(Waking), s.place, Waking);
    assert forall g :: g in Fibers(s.wakeups) ==> g in AllQueues(s)(Waking) && g in IoFibers(s.place);
    HeadIn(Fibers(s.wakeups));
  }

  /** When `Run` stops, it reports a deadlock exactly if some spawned fiber is not done. */
  lemma VerdictExact<F, V>(main: F, es: seq<Event<F, V>>)
    requires Possible(Start<F, V>(main), es) && Quiescent(After(Start<F, V>(main), es))
    ensures var s := After(Start<F, V>(main), es);
      && (forall f :: f in s.spawned ==> f in s.state)
      && (SeesBlocked(s) <==> exists f :: f in s.spawned && s.state[f] != Done)
      && (!SeesBlocked(s) ==> forall f :: f in s.spawned ==> s.state[f] == Done)
  {
    var s := After(Start<F, V>(main), es);
    StartInv<F, V>(main);
    RunKeeps(Start<F, V>(main), es);
    forall f | f in s.spawned ensures s.state[f] == Done || s.state[f] == Blocked {
      QuiescentPlaces(s, f);
    }
  }

  /** A deadlock is final: no fiber is ready, no I/O is outstanding, nothing can happen. */
  lemma NothingHappens<F, V>(main: F, es: seq<Event<F, V>>, e: Event<F, V>)
    requires Possible(Start<F, V>(main), es) && Quiescent(After(Start<F, V>(main), es))
    ensures !Enabled(After(Start<F, V>(main), es), e)
  {
    var s := After(Start<F, V>(main), es);
    StartInv<F, V>(main);
    RunKeeps(Start<F, V>(main), es);
    QuiescentPlaces(s, s.main);
    if e.IoDone? && e.fiber in s.place { QuiescentPlaces(s, e.fiber); }
  }

  /** Whoever is blocked in a deadlock waits in the queue of a channel. */
  lemma BlockedOnChannel<F, V>(main: F, es: seq<Event<F, V>>, f: F) returns (ch: int)
    requires Possible(Start<F, V>(main), es) && Quiescent(After(Start<F, V>(main), es))
    requires var s := After(Start<F, V>(main), es); f in s.state && s.state[f] == Blocked
    ensures var s := After(Start<F, V>(main), es);
      ch in s.channels && (f in Sending(s.channels[ch]) || f in RecvQueue(s.channels[ch]))
  {
    var s := After(Start<F, V>(main), es);
    StartInv<F, V>(main);
    RunKeeps(Start<F, V>(main), es);
    QuiescentPlaces(s, f);
    ch := s.place[f].chan;
    assert Exists(s.place[f], s.channels.Keys);
    assert Lists(AllQueues(s)(s.place[f]), s.place, s.place[f]);
  }

  /** The main fiber is not among those `Run` looks at: blocked alone, it goes unnoticed. */
  lemma MainGoesUnnoticed<F, V>(main: F)
    ensures var es := [Dispatch, MakeChannel(0), Receive(1)];
      && Possible(Start<F, V>(main), es) && Quiescent(After(Start<F, V>(main), es))
      && !SeesBlocked(After(Start<F, V>(main), es)) && After(Start<F, V>(main), es).state[main] == Blocked
  {
    var s0 := Start<F, V>(main);
    var s1 := Apply(s0, Dispatch);
    var s2 := Apply(s1, MakeChannel(0));
    var s3 := Apply(s2, Receive(1));
    StartInv<F, V>(main);
    StepKeeps(s0, Dispatch);
    StepKeeps(s1, MakeChannel(0));
    StepKeeps(s2, Receive(1));
    var es: seq<Event<F, V>> := [Dispatch, MakeChannel(0), Receive(1)];
    assert es[1..] == [MakeChannel(0), Receive(1)] && es[1..][1..] == [Receive(1)] && es[1..][1..][1..] == [];
    assert After(s2, es[1..][1..]) == s3;
    assert After(s1, es[1..]) == s3;
  }

  /** When `Run` stops without an error, every fiber is done if and only if the main one is. */
  lemma QuietExact<F, V>(main: F, es: seq<Event<F, V>>)
    requires Possible(Start<F, V>(main), es) && Quiescent(After(Start<F, V>(main), es))
    ensures var s := After(Start<F, V>(main), es); main in s.state && forall f :: f in s.spawned ==> f in s.state
    ensures var s := After(Start<F, V>(main), es);
      !SeesBlocked(s) ==> ((forall f :: f in s.state ==> s.state[f] == Done) <==> s.state[main] == Done)
  {
    StartInv<F, V>(main);
    RunKeeps(Start<F, V>(main), es);
    RunMain(Start<F, V>(main), es);
    VerdictExact<F, V>(main, es);
  }

  // ---------- what channels deliver ----------

  datatype Delivery<F, V> = Delivery(chan: int, fiber: F, value: V)

  /** What a step pushes onto the stack of which fiber on behalf of a channel. */
  function Delivered<F(==), V>(s: Sys<F, V>, e: Event<F, V>): seq<Delivery<F, V>>
    requires Known(s) && Enabled(s, e)
  {
    match e
    case Send(ch, v) =>
      var h := s.channels[ch];
      if RecvQueue(h) != [] then [Delivery(ch, RecvQueue(h)[0], v)] else []
    case Receive(ch) =>
      var h := s.channels[ch];
      if |h.receives| < |h.sends| then [Delivery(ch, s.current.value, h.sends[|h.receives|].value)] else []
    case _ => []
  }

  /** The stacks change by exactly what is delivered. */
  lemma DeliveredOnStack<F, V>(s: Sys<F, V>, e: Event<F, V>)
    requires Known(s) && Enabled(s, e) && (e.Send? || e.Receive?)
    ensures var d := Delivered(s, e);
      && |d| <= 1
      && Apply(s, e).stack == if d == [] then s.stack else s.stack[d[0].fiber := s.stack[d[0].fiber] + [d[0].value]]
  {
  }

  function OnChannel<F, V>(d: seq<Delivery<F, V>>, ch: int): seq<Delivery<F, V>>
  {
    if d == [] then [] else (if d[0].chan == ch then [d[0]] else []) + OnChannel(d[1..], ch)
  }

  function AllDelivered<F(==), V>(s: Sys<F, V>, es: seq<Event<F, V>>, ch: int): seq<Delivery<F, V>>
    requires Possible(s, es)
    decreases |es|
  {
    if es == [] then [] else OnChannel(Delivered(s, es[0]), ch) + AllDelivered(Apply(s, es[0]), es[1..], ch)
  }

  /** The k-th receive paired with the k-th send. */
  function Pairs<F, V>(h: History<F, V>, ch: int, from: nat): seq<Delivery<F, V>>
    requires from <= Paired(h)
  {
    seq(Paired(h) - from,
      i requires 0 <= i < Paired(h) - from => Delivery(ch, h.receives[from + i], h.sends[from + i].value))
  }

  function HistoryOf<F, V>(s: Sys<F, V>, ch: int): History<F, V>
  {
    if ch in s.channels then s.channels[ch] else History(0, [], [])
  }

  /** Histories only grow. */
  ghost predicate Extends<F, V>(h: History<F, V>, h': History<F, V>)
  {
    h.sends <= h'.sends && h.receives <= h'.receives && Paired(h) <= Paired(h')
  }

  lemma PairsJoin<F, V>(h0: History<F, V>, h1: History<F, V>, h2: History<F, V>, ch: int)
    requires Extends(h0, h1) && Extends(h1, h2)
    ensures Extends(h0, h2) && Pairs(h1, ch, Paired(h0)) + Pairs(h2, ch, Paired(h1)) == Pairs(h2, ch, Paired(h0))
  {
  }

  /** One step: the history only grows, and what is delivered are the new pairs. */
  lemma StepDelivers<F, V>(s: Sys<F, V>, e: Event<F, V>, ch: int)
    requires Inv(s) && Enabled(s, e)
    ensures var h, h' := HistoryOf(s, ch), HistoryOf(Apply(s, e), ch);
      && Extends(h, h')
      && OnChannel(Delivered(s, e), ch) == Pairs(h', ch, Paired(h))
  {
    if e == Receive(ch) { ReceiveDelivers(s, ch); }
    else if e.Send? && e.chan == ch { SendDelivers(s, ch, e.value); }
    else { OtherDelivers(s, e, ch); }
  }

  lemma OtherDelivers<F, V>(s: Sys<F, V>, e: Event<F, V>, ch: int)
    requires Inv(s) && Enabled(s, e) && ((e.Send? || e.Receive?) ==> e.chan != ch)
    ensures var h, h' := HistoryOf(s, ch), HistoryOf(Apply(s, e), ch);
      h.sends == h'.sends && h.receives == h'.receives && OnChannel(Delivered(s, e), ch) == []
  {
    hide NoDup, Lists, IoFibers, Fibers, Values, SendQueue, RecvQueue, Buffered, Sending, Paired, Accepted, Tidy,
      Agree, Known;
    var d := Delivered(s, e);
    if d != [] { assert d[1..] == [] && d[0].chan != ch; }
    var s' := Apply(s, e);
    if e.MakeChannel? { assert s'.channels == s.channels[s.nextChan + 1 := History(e.capacity, [], [])]; }
    else if e.Send? || e.Receive? { assert s'.channels == s.channels[e.chan := s'.channels[e.chan]]; }
    else { assert s'.channels == s.channels; }
  }

  lemma SendDelivers<F, V>(s: Sys<F, V>, ch: int, v: V)
    requires Known(s) && s.current.Some? && ch in s.channels
    ensures var h, h' := s.channels[ch], DoSend(s, ch, v).channels[ch];
      h' == h.(sends := h.sends + [Sent(s.current.value, v)])
        && OnChannel(Delivered(s, Send(ch, v)), ch) == Pairs(h', ch, Paired(h))
  {
    var h, h' := s.channels[ch], DoSend(s, ch, v).channels[ch];
    assert h' == h.(sends := h.sends + [Sent(s.current.value, v)]);
    var d := Delivered(s, Send(ch, v));
    if d != [] { assert d[1..] == []; }
  }

  lemma ReceiveDelivers<F, V>(s: Sys<F, V>, ch: int)
    requires Known(s) && s.current.Some? && ch in s.channels
    ensures var h, h' := s.channels[ch], DoReceive(s, ch).channels[ch];
      h' == h.(receives := h.receives + [s.current.value])
        && OnChannel(Delivered(s, Receive(ch)), ch) == Pairs(h', ch, Paired(h))
  {
    var h, h' := s.channels[ch], DoReceive(s, ch).channels[ch];
    assert h' == h.(receives := h.receives + [s.current.value]);
    var d := Delivered(s, Receive(ch));
    if d != [] { assert d[1..] == []; }
  }

  /** Over every run, whatever the interleaving: what a channel delivers is exactly the k-th
      value sent to the k-th fiber that asked to receive, once each and in that order, for
      every k for which both have happened. */
  lemma {:induction false} RunDelivers<F, V>(s: Sys<F, V>, es: seq<Event<F, V>>, ch: int)
    requires Inv(s) && Possible(s, es)
    ensures var h, h' := HistoryOf(s, ch), HistoryOf(After(s, es), ch);
      && Extends(h, h')
      && AllDelivered(s, es, ch) == Pairs(h', ch, Paired(h))
    decreases |es|
  {
    if es != [] {
      StepKeeps(s, es[0]);
      StepDelivers(s, es[0], ch);
      var s1 := Apply(s, es[0]);
      RunDelivers(s1, es[1..], ch);
      PairsJoin(HistoryOf(s, ch), HistoryOf(s1, ch), HistoryOf(After(s1, es[1..]), ch), ch);
    }
  }

  // ---------- bounded waiting ----------

  function Dispatches<F, V>(es: seq<Event<F, V>>): nat
  {
    if es == [] then 0 else (if es[0].Dispatch? then 1 else 0) + Dispatches(es[1..])
  }

  /** A step takes at most the head off the run queue and adds only at the end. */
  lemma StepQueue<F, V>(s: Sys<F, V>, e: Event<F, V>)
    requires Known(s) && Enabled(s, e)
    ensures (if e.Dispatch? then s.runQueue[1..] else s.runQueue) <= Apply(s, e).runQueue
  {
  }

  /** The fiber at index `k` of the run queue moves up by one with every dispatch, whatever
      else happens, and the (k+1)-th dispatch is its own. */
  lemma {:induction false} BoundedWaiting<F, V>(s: Sys<F, V>, es: seq<Event<F, V>>, k: nat)
    requires Possible(s, es) && k < |s.runQueue|
    ensures Dispatches(es) <= k ==>
      var q := After(s, es).runQueue; k - Dispatches(es) < |q| && q[k - Dispatches(es)] == s.runQueue[k]
    ensures es != [] && es[|es| - 1].Dispatch? && Dispatches(es) == k + 1 ==>
      After(s, es).current == Some(s.runQueue[k])
    decreases |es|
  {
    if es != [] {
      var s1, rest := Apply(s, es[0]), es[1..];
      StepQueue(s, es[0]);
      if es[0].Dispatch? && k == 0 {
        if rest != [] && rest[|rest| - 1].Dispatch? { LastDispatch(rest); }
      } else {
        BoundedWaiting(s1, rest, if es[0].Dispatch? then k - 1 else k);
      }
    }
  }

  lemma {:induction false} LastDispatch<F, V>(es: seq<Event<F, V>>)
    requires es != [] && es[|es| - 1].Dispatch?
    ensures Dispatches(es) >= 1
  {
    if |es| > 1 { LastDispatch(es[1..]); }
  }
}
