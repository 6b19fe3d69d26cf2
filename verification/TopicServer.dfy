/** The event service of lab3, updated in place by the publishing calls, the dispatching thread
    and the subscribing calls; each method is one atomic step unless it says otherwise. */
module TopicServers {
  import opened Heaps
  import opened TopicDispatch

  class EventServiceImpl {
    const cfg: Config
    const PQ: Heap<Message>
    var nonEmptyPQ: bool
    var holder: Holder
    var dispatcher: DispatchPc
    var publications: seq<Publication>
    var subscribers: seq<Subscriber>
    ghost var pushes: seq<Entry<Message>>
    ghost var clock: seq<int>
    ghost var pops: seq<Pop>
    ghost var history: seq<Choice>
    var dispatched: nat  // only dates the subscriptions

    ghost predicate Structure()
      reads this, PQ, PQ.Repr
    {
      PQ.Valid() && this !in PQ.Repr
    }

    ghost function View(): State
      reads this, PQ, PQ.Repr
      requires Structure()
    {
      State(holder, PQ.Contents(), nonEmptyPQ, dispatcher, publications, subscribers, pushes, clock, pops)
    }

    ghost predicate Valid()
      reads this, PQ, PQ.Repr
    {
      Structure() && dispatched == |pops| && Reachable(cfg, history, View())
    }

    constructor (cfg: Config)
      ensures Valid() && fresh(this.PQ) && fresh(this.PQ.Repr) && this.cfg == cfg && View() == Init()
    {
      this.cfg := cfg;
      PQ := new Heap();
      nonEmptyPQ, holder, dispatcher := false, Nobody, ToLock;
      publications, subscribers, dispatched := [], [], 0;
      pushes, clock, pops, history := [], [], [], [];
    }

    lemma Extend(past: seq<Choice>, before: State, c: Choice)
      requires Reachable(cfg, past, before) && Enabled(cfg, before, c)
      ensures Reachable(cfg, past + [c], Apply(cfg, before, c))
    {}

    /** Publication i goes on to pc. */
    function Moved(i: nat, pc: PushPc): seq<Publication>
      reads this
      requires i < |publications|
    {
      publications[i := publications[i].(pc := pc)]
    }

    /** Publish has read a message. */
    method Publish(m: Message)
      requires Valid() && (cfg.strategy.FIFO? || HasPeriod(cfg, m.topic))
      modifies this
      ensures Valid() && View() == Apply(cfg, old(View()), Choice.Publish(m))
    {
      Extend(history, View(), Choice.Publish(m));
      publications := publications + [Publication(m, Locking)];
      history := history + [Choice.Publish(m)];
    }

    /** The value of a message depends on the strategy, the topic, the timestamp and the clock. */
    method ComputeVal(m: Message, now: int) returns (val: int)
      requires cfg.strategy.FIFO? || HasPeriod(cfg, m.topic)
      ensures val == GetVal(cfg, m, now)
    {
      if cfg.strategy == EDF {
        val := cfg.periods[m.topic[0] as int - '0' as int] + m.stamp;
      } else if cfg.strategy == RM {
        val := cfg.periods[m.topic[0] as int - '0' as int];
      } else {
        val := now - cfg.baseTime;
      }
    }

    /** getVal and PQ.push in the critical section of Publish. */
    method Insert(i: nat, now: int)
      requires Valid() && i < |publications| && publications[i].pc.Inserting? && Enabled(cfg, View(), Push(i, now))
      modifies this, PQ.Repr
      ensures Valid() && fresh(PQ.Repr - old(PQ.Repr)) && View() == Apply(cfg, old(View()), Push(i, now))
    {
      Extend(history, View(), Push(i, now));
      var td := publications[i].message;
      var val := ComputeVal(td, now);
      PQ.Push(Entry(val, td));
      pushes, clock := pushes + [Entry(val, td)], clock + [now];
      publications := Moved(i, Raising);
      history := history + [Push(i, now)];
    }

    /** The other steps of Publish: lock, raise the flag, broadcast, unlock. */
    method PushStep(i: nat, now: int)
      requires Valid() && Enabled(cfg, View(), Push(i, now)) && !publications[i].pc.Inserting?
      modifies this
      ensures Valid() && View() == Apply(cfg, old(View()), Push(i, now))
    {
      Extend(history, View(), Push(i, now));
      match publications[i].pc {
        case Locking => holder, publications := Publisher(i), Moved(i, Inserting);
        case Raising => nonEmptyPQ, publications := true, Moved(i, Broadcasting);
        case Broadcasting =>
          if dispatcher.Asleep? { dispatcher := Woken; }
          publications := Moved(i, Unlocking);
        case Unlocking => holder, publications := Nobody, Moved(i, Returned);
      }
      history := history + [Push(i, now)];
    }

    /** PQ.top and PQ.pop: the queue is never empty here. */
    method Pop() returns (ghost c: Choice)
      requires Valid() && dispatcher.Taking?
      modifies this, PQ.Repr
      ensures Valid() && fresh(PQ.Repr - old(PQ.Repr))
      ensures c.Take? && Enabled(cfg, old(View()), c) && View() == Apply(cfg, old(View()), c)
    {
      ghost var before, past := View(), history;
      FlagIsExact(cfg, history, before);
      var e := PQ.Pop();
      c := Take(e);
      dispatcher, dispatched := Clearing(e.item), dispatched + 1;
      pops := pops + [TopicDispatch.Pop(e, PQ.Contents())];
      history := history + [c];
      assert View() == Apply(cfg, before, c);
      Extend(past, before, c);
    }

    /** The steps of the dispatching thread but for the pop and the scan. */
    method DispatchStep()
      requires Valid() && Enabled(cfg, View(), Dispatch) && !dispatcher.Scanning?
      modifies this
      ensures Valid() && View() == Apply(cfg, old(View()), Dispatch)
    {
      Extend(history, View(), Dispatch);
      match dispatcher {
        case ToLock | Woken => holder, dispatcher := Dispatcher, Testing;
        case Testing =>
          if !nonEmptyPQ { holder, dispatcher := Nobody, Asleep; } else { dispatcher := Taking; }
        case Clearing(m) =>
          var empty := PQ.Empty();
          if empty { nonEmptyPQ := false; }
          dispatcher := Taken(m);
        case Taken(m) => holder, dispatcher := Nobody, Scanning(m, 0);
      }
      history := history + [Dispatch];
    }

    /** One round of the loop in writeToSubscribers. */
    method ScanStep()
      requires Valid() && dispatcher.Scanning?
      modifies this
      ensures Valid() && View() == Apply(cfg, old(View()), Dispatch)
    {
      Extend(history, View(), Dispatch);
      var m, i := dispatcher.message, dispatcher.next;
      if i >= |subscribers| {
        dispatcher := ToLock;
      } else {
        assert subscribers == subscribers[i := subscribers[i]];
        if subscribers[i].topic == m.topic {
          subscribers := subscribers[i := subscribers[i].(received := subscribers[i].received + [m])];
        }
        dispatcher := Scanning(m, i + 1);
      }
      history := history + [Dispatch];
    }

    /** The whole loop, when nobody subscribes meanwhile: every subscriber of the topic gets the
        message once, nobody else gets anything. */
    method WriteToSubscribers()
      requires Valid() && dispatcher.Scanning? && dispatcher.next == 0
      modifies this
      ensures Valid() && dispatcher.ToLock? && |subscribers| == |old(subscribers)|
      ensures forall k :: 0 <= k < |subscribers| ==>
                subscribers[k] == Written(old(subscribers[k]), old(dispatcher).message)
      ensures View() == old(View()).(dispatcher := ToLock, subscribers := subscribers)
    {
      ghost var was := View();
      ghost var m := dispatcher.message;
      while dispatcher.Scanning?
        invariant Valid() && |subscribers| == |was.subscribers|
        invariant dispatcher.ToLock? || (dispatcher.Scanning? && dispatcher.message == m
                                         && dispatcher.next <= |subscribers|)
        invariant forall k :: 0 <= k < |subscribers| ==>
                    subscribers[k] == if dispatcher.Scanning? && dispatcher.next <= k then was.subscribers[k]
                                      else Written(was.subscribers[k], m)
        invariant View() == was.(dispatcher := dispatcher, subscribers := subscribers)
        decreases if dispatcher.Scanning? then |subscribers| + 1 - dispatcher.next else 0
      {
        ScanStep();
      }
    }

    /** addSubscriber: refused exactly when the table is full. */
    method AddSubscriber(topic: string) returns (success: bool)
      requires Valid()
      modifies this
      ensures Valid() && View() == Apply(cfg, old(View()), Subscribe(topic))
      ensures success <==> |old(subscribers)| < 3
      ensures |subscribers| <= 3
    {
      Extend(history, View(), Subscribe(topic));
      success := |subscribers| < MAX_SUBSCRIBERS;
      if success {
        var settled: nat := if InHand(dispatcher) && dispatched > 0 then dispatched - 1 else dispatched;
        subscribers := subscribers + [Subscriber(topic, [], settled)];
      }
      history := history + [Subscribe(topic)];
      RunInv(cfg, history, View());
    }
  }

  /** What the service guarantees between any two steps of its threads: the flag is exact, messages
      are in the queue or dispatched, with the least value first, every subscriber has exactly
      its messages, and under FIFO with an advancing clock the order is that of the pushes. */
  lemma Guarantees(e: EventServiceImpl)
    requires e.Valid()
    ensures e.holder.Nobody? ==> (e.nonEmptyPQ <==> e.PQ.Contents() != multiset{})
    ensures e.holder.Nobody? && e.PQ.Contents() != multiset{} ==> !e.dispatcher.Asleep?
    ensures multiset(e.pushes) == e.PQ.Contents() + multiset(Entries(e.pops))
    ensures forall x :: multiset(Messages(e.pushes))[x] == TimesInserted(e.publications, x)
    ensures |e.subscribers| <= 3
    ensures forall k: nat :: k < |e.subscribers| ==> StreamOk(e.View(), k)
    ensures e.cfg.strategy.FIFO? && Increasing(e.clock) ==>
              |e.pops| <= |e.pushes| && Entries(e.pops) == e.pushes[..|e.pops|]
  {
    var s := e.View();
    RunInv(e.cfg, e.history, s);
    forall x ensures multiset(Messages(e.pushes))[x] == TimesInserted(e.publications, x) {
      PublishedOnce(e.cfg, e.history, s, x);
    }
    if e.cfg.strategy.FIFO? && Increasing(e.clock) { FifoInPushOrder(e.cfg, e.history, s); }
  }
}
