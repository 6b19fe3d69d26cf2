/** The shared object of hw7 with its two queues, the flag and the two mutexes, updated in
    place by the worker and one proxy thread; each method is one atomic step. */
module FifoServers {
  import opened Heaps
  import opened Events
  import opened FifoDispatch

  class OurSingletonWorker {
    const EDFQ: Heap<Event>
    var FIFOQ: seq<Event>
    var FIFOQ_nonempty: bool
    var holderE: Holder
    var holderF: Holder
    var worker: WorkerPc
    var proxies: seq<Proxy>  // of one thread
    var began: seq<Event>
    ghost var pops: seq<Pop>
    var delivered: seq<Event>
    ghost var history: seq<Choice>

    ghost predicate Structure()
      reads this, EDFQ, EDFQ.Repr
    {
      EDFQ.Valid() && this !in EDFQ.Repr && |proxies| == 1
    }

    ghost function View(): State
      reads this, EDFQ, EDFQ.Repr
      requires Structure()
    {
      State(holderE, EDFQ.Contents(), holderF, FIFOQ, FIFOQ_nonempty, worker, proxies, began, pops, delivered)
    }

    ghost predicate Valid()
      reads this, EDFQ, EDFQ.Repr
    {
      Structure() && Reachable(1, history, View())
    }

    constructor ()
      ensures Valid() && fresh(this.EDFQ) && fresh(this.EDFQ.Repr) && View() == Init(1)
    {
      EDFQ := new Heap();
      FIFOQ, FIFOQ_nonempty := [], false;
      holderE, holderF, worker := Nobody, Nobody, ToLock;
      proxies, began := [Proxy(Resting, 0)], [];
      pops, delivered, history := [], [], [];
      new;
      assert proxies == Init(1).proxies;
    }

    /** The proxy thread goes on to pc. */
    function At(pc: ProxyPc): seq<Proxy>
      reads this
      requires |proxies| == 1
    {
      proxies[0 := proxies[0].(pc := pc)]
    }

    lemma Extend(past: seq<Choice>, before: State, c: Choice)
      requires Reachable(1, past, before) && Enabled(before, c)
      ensures Reachable(1, past + [c], Apply(before, c))
    {}

    /** push is called; the proxy computes the deadline of the event. */
    method Begin(source: nat, created: int)
      requires Valid() && proxies[0].pc.Resting? && source < SOURCES
      modifies this
      ensures Valid() && View() == Apply(old(View()), Choice.Begin(0, source, created))
    {
      ghost var before, past := View(), history;
      var event := Event(|began|, source, created);
      proxies := proxies[0 := Proxy(Begun(event), |delivered| + |FIFOQ|)];
      began := began + [event];
      history := history + [Choice.Begin(0, source, created)];
      assert View() == Apply(before, Choice.Begin(0, source, created));
      Extend(past, before, Choice.Begin(0, source, created));
    }

    /** EDFQ.push in the critical section of push. */
    method Insert()
      requires Valid() && proxies[0].pc.Inserting?
      modifies this, EDFQ.Repr
      ensures Valid() && fresh(EDFQ.Repr - old(EDFQ.Repr)) && View() == Apply(old(View()), Run(0))
    {
      Extend(history, View(), Run(0));
      EDFQ.Push(Queued(proxies[0].pc.event));
      proxies := At(Signalling);
      history := history + [Run(0)];
    }

    /** The other steps of the insertion: lock, signal, unlock. */
    method InsertStep()
      requires Valid() && Enabled(View(), Run(0)) && Inserts(proxies[0].pc) && !proxies[0].pc.Inserting?
      modifies this
      ensures Valid() && View() == Apply(old(View()), Run(0))
    {
      Extend(history, View(), Run(0));
      match proxies[0].pc {
        case Begun(e) => holderE, proxies := ByProxy(0), At(Inserting(e));
        case Signalling =>
          if worker.Asleep? { worker := Woken; }
          proxies := At(Unlocking);
        case Unlocking => holderE, proxies := Nobody, At(Asking);
      }
      history := history + [Run(0)];
    }

    /** nonEmptyFIFOQ: read the flag under the mutex of the queue. */
    method NonEmptyStep()
      requires Valid() && Enabled(View(), Run(0))
      requires proxies[0].pc.Asking? || proxies[0].pc.Reading? || proxies[0].pc.Answered?
      modifies this
      ensures Valid() && View() == Apply(old(View()), Run(0))
    {
      Extend(history, View(), Run(0));
      match proxies[0].pc {
        case Asking => holderF, proxies := ByProxy(0), At(Reading);
        case Reading => proxies := At(Answered(FIFOQ_nonempty));
        case Answered(b) => holderF, proxies := Nobody, At(if b then Popping else Resting);
      }
      history := history + [Run(0)];
    }

    /** FIFOQ.front and FIFOQ.pop: the front is always there, although it was looked for in an
        earlier critical section. */
    method TakeFront()
      requires Valid() && proxies[0].pc.Fronting?
      modifies this
      ensures Valid() && Enabled(old(View()), Run(0)) && View() == Apply(old(View()), Run(0))
    {
      ghost var before, past := View(), history;
      FlagIsExact(history, before);
      proxies := At(Flagging(FIFOQ[0]));
      FIFOQ := FIFOQ[1..];
      history := history + [Run(0)];
      assert View() == Apply(before, Run(0));
      Extend(past, before, Run(0));
    }

    /** The rest of the drain loop: lock, maintain the flag, unlock, deliver. */
    method DrainStep()
      requires Valid() && Enabled(View(), Run(0))
      requires var pc := proxies[0].pc; pc.Popping? || pc.Flagging? || pc.Leaving? || pc.Delivering?
      modifies this
      ensures Valid() && View() == Apply(old(View()), Run(0))
    {
      Extend(history, View(), Run(0));
      match proxies[0].pc {
        case Popping => holderF, proxies := ByProxy(0), At(Fronting);
        case Flagging(e) =>
          if FIFOQ == [] { FIFOQ_nonempty := false; }
          proxies := At(Leaving(e));
        case Leaving(e) => holderF, proxies := Nobody, At(Delivering(e));
        case Delivering(e) => proxies, delivered := At(Asking), delivered + [e];
      }
      history := history + [Run(0)];
    }

    /** EDFQ.top and EDFQ.pop by the worker. */
    method Pop() returns (ghost c: Choice)
      requires Valid() && worker.Taking?
      modifies this, EDFQ.Repr
      ensures Valid() && fresh(EDFQ.Repr - old(EDFQ.Repr))
      ensures c.Take? && Enabled(old(View()), c) && View() == Apply(old(View()), c)
    {
      ghost var before, past := View(), history;
      FlagIsExact(history, before);
      var e := EDFQ.Pop();
      c := Take(e);
      worker := Taken(e.item);
      pops := pops + [FifoDispatch.Pop(e.item, EDFQ.Contents())];
      history := history + [c];
      assert View() == Apply(before, c);
      Extend(past, before, c);
    }

    /** The steps of the worker that are not pops. */
    method WorkerStep()
      requires Valid() && Enabled(View(), Work)
      modifies this
      ensures Valid() && View() == Apply(old(View()), Work)
    {
      Extend(history, View(), Work);
      match worker {
        case ToLock | Woken => holderE, worker := Worker, Testing;
        case Testing =>
          var empty := EDFQ.Empty();
          if empty { holderE, worker := Nobody, Asleep; } else { worker := Taking; }
        case Taken(e) => holderE, worker := Nobody, Working(e);
        case Working(e) => holderF, worker := Worker, Storing(e);
        case Storing(e) => FIFOQ, worker := FIFOQ + [e], Raising;
        case Raising => FIFOQ_nonempty, worker := true, Releasing;
        case Releasing => holderF, worker := Nobody, ToLock;
      }
      history := history + [Work];
    }
  }

  /** What the shared object guarantees between any two steps of its threads: the flag is exact,
      no queue is popped empty, and what was popped from the EDF queue is, in this order,
      delivered, with the proxy, in the FIFO queue, with the worker, the earlier deadline first. */
  lemma Guarantees(w: OurSingletonWorker)
    requires w.Valid()
    ensures w.holderF.Nobody? ==> (w.FIFOQ_nonempty <==> w.FIFOQ != [])
    ensures w.proxies[0].pc.Popping? || w.proxies[0].pc.Fronting? ==> w.FIFOQ != []
    ensures Popped(w.pops) == w.delivered + InProxy(w.proxies[0].pc) + w.FIFOQ + InWorker(w.worker)
    ensures forall x ::
              Times(Arrivals(w.history), x)
              == InCall(w.proxies[0].pc, x) + w.EDFQ.Contents()[Queued(x)] + Times(Popped(w.pops), x)
    ensures forall i: nat, k: nat :: i < k < |w.delivered| ==>
              i < |w.pops| && (Queued(w.delivered[k]) in w.pops[i].left ==>
                               Deadline(w.delivered[i]) <= Deadline(w.delivered[k]))
  {
    var s := w.View();
    FlagIsExact(w.history, s);
    PoppedIsEverywhere(w.history, s);
    CallsAreArrivals(1, w.history, s);
    forall x
      ensures Times(Arrivals(w.history), x)
              == InCall(w.proxies[0].pc, x) + w.EDFQ.Contents()[Queued(x)] + Times(Popped(w.pops), x)
    {
      RunBalance(w.history, s, x);
    }
    forall i: nat, k: nat | i < k < |w.delivered|
      ensures i < |w.pops| && (Queued(w.delivered[k]) in w.pops[i].left ==>
                               Deadline(w.delivered[i]) <= Deadline(w.delivered[k]))
    {
      DeliveredByDeadline(w.history, s, i, k);
    }
  }
}
