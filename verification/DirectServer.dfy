/** The shared object of hw8, updated in place by its threads: the EDF queue is the binary
    heap, and each method is one atomic step of one thread. */
module DirectServers {
  import opened Heaps
  import opened Events
  import opened DirectDispatch

  class OurSingletonWorker {
    const EDFQ: Heap<Event>
    var holder: Holder
    var worker: WorkerPc
    var calls: seq<Call>
    ghost var pushed: multiset<Event>
    ghost var pops: seq<Pop>
    var delivered: seq<Event>
    ghost var history: seq<Choice>

    ghost predicate Structure()
      reads this, EDFQ, EDFQ.Repr
    {
      EDFQ.Valid() && this !in EDFQ.Repr
    }

    ghost function View(): State
      reads this, EDFQ, EDFQ.Repr
      requires Structure()
    {
      State(holder, EDFQ.Contents(), worker, calls, pushed, pops, delivered)
    }

    ghost predicate Valid()
      reads this, EDFQ, EDFQ.Repr
    {
      Structure() && Reachable(history, View())
    }

    constructor ()
      ensures Valid() && fresh(this.EDFQ) && fresh(this.EDFQ.Repr) && View() == Init()
    {
      EDFQ := new Heap();
      holder, worker, calls := Nobody, ToLock, [];
      pushed, pops, delivered, history := multiset{}, [], [], [];
    }

    lemma Extend(past: seq<Choice>, before: State, c: Choice)
      requires Reachable(past, before) && Enabled(before, c)
      ensures Reachable(past + [c], Apply(before, c))
    {}

    /** A supplier calls push; the proxy computes the deadline of the event. */
    method Arrive(source: nat, created: int)
      requires Valid() && source < SOURCES
      modifies this
      ensures Valid() && View() == Apply(old(View()), Choice.Arrive(source, created))
    {
      Extend(history, View(), Choice.Arrive(source, created));
      calls := calls + [Call(Event(|calls|, source, created), Locking)];
      history := history + [Choice.Arrive(source, created)];
    }

    /** EDFQ.push, in the critical section of a push call. */
    method Insert(i: nat)
      requires Valid() && Enabled(View(), Push(i)) && calls[i].pc.Inserting?
      modifies this, EDFQ.Repr
      ensures Valid() && fresh(EDFQ.Repr - old(EDFQ.Repr)) && View() == Apply(old(View()), Push(i))
    {
      Extend(history, View(), Push(i));
      var event := calls[i].event;
      EDFQ.Push(Queued(event));
      pushed := pushed + multiset{event};
      calls := calls[i := calls[i].(pc := Signalling)];
      history := history + [Push(i)];
    }

    /** The other steps of a push call: lock, signal, unlock. */
    method PushStep(i: nat)
      requires Valid() && Enabled(View(), Push(i)) && !calls[i].pc.Inserting?
      modifies this
      ensures Valid() && View() == Apply(old(View()), Push(i))
    {
      Extend(history, View(), Push(i));
      match calls[i].pc {
        case Locking =>
          holder := Pusher(i);
          calls := calls[i := calls[i].(pc := Inserting)];
        case Signalling =>
          if worker.Asleep? { worker := Woken; }
          calls := calls[i := calls[i].(pc := Unlocking)];
        case Unlocking =>
          holder := Nobody;
          calls := calls[i := calls[i].(pc := Returned)];
      }
      history := history + [Push(i)];
    }

    /** EDFQ.top and EDFQ.pop by the worker, which never finds the queue empty here. */
    method Pop() returns (ghost c: Choice)
      requires Valid() && worker.Taking?
      modifies this, EDFQ.Repr
      ensures Valid() && fresh(EDFQ.Repr - old(EDFQ.Repr))
      ensures c.Take? && Enabled(old(View()), c) && View() == Apply(old(View()), c)
    {
      ghost var before, past := View(), history;
      NeverPopsEmpty(history, before);
      var e := EDFQ.Pop();
      c := Take(e);
      worker := Taken(e.item);
      pops := pops + [DirectDispatch.Pop(e.item, EDFQ.Contents())];
      history := history + [c];
      assert View() == Apply(before, c);
      Extend(past, before, c);
    }

    /** The next step of the worker thread that is not a pop. */
    method WorkerStep()
      requires Valid() && Enabled(View(), Work)
      modifies this
      ensures Valid() && View() == Apply(old(View()), Work)
    {
      Extend(history, View(), Work);
      match worker {
        case ToLock | Woken => holder, worker := Worker, Testing;
        case Testing =>
          var empty := EDFQ.Empty();
          if empty { holder, worker := Nobody, Asleep; } else { worker := Taking; }
        case Taken(e) => holder, worker := Nobody, Working(e);
        case Working(e) => delivered, worker := delivered + [e], ToLock;
      }
      history := history + [Work];
    }
  }

  /** What the shared object guarantees between any two steps of its threads: nothing is lost or
      duplicated, the worker does not sleep on work, and once nothing is left to do exactly the
      events of the calls have been delivered. */
  lemma Guarantees(w: OurSingletonWorker)
    requires w.Valid()
    ensures forall x :: w.pushed[x] == w.EDFQ.Contents()[Queued(x)] + InHand(w.worker)[x] + multiset(w.delivered)[x]
    ensures w.holder.Nobody? && w.worker.Asleep? ==> w.EDFQ.Contents() == multiset{}
    ensures w.worker.Taking? ==> w.EDFQ.Contents() != multiset{}
    ensures Quiescent(w.View()) ==> multiset(w.delivered) == multiset(Arrivals(w.history))
  {
    var s := w.View();
    forall x ensures w.pushed[x] == w.EDFQ.Contents()[Queued(x)] + InHand(w.worker)[x] + multiset(w.delivered)[x] {
      NothingLost(w.history, s, x);
    }
    if w.holder.Nobody? && w.worker.Asleep? { NoSleepOnWork(w.history, s); }
    if w.worker.Taking? { NeverPopsEmpty(w.history, s); }
    if Quiescent(s) { EachCallDeliveredOnce(w.history, s); }
  }

  /** And the consumers see the events in the order in which they were popped, of those queued
      together the earlier deadline first. */
  lemma GuaranteesOrder(w: OurSingletonWorker)
    requires w.Valid()
    ensures Popped(w.pops) == w.delivered + Pending(w.worker)
    ensures forall i: nat, k: nat :: i < k < |w.delivered| ==>
              i < |w.pops| && (Queued(w.delivered[k]) in w.pops[i].left ==>
                                 Deadline(w.delivered[i]) <= Deadline(w.delivered[k]))
  {
    var s := w.View();
    PoppedIsDelivered(w.history, s);
    forall i: nat, k: nat | i < k < |w.delivered|
      ensures i < |w.pops| && (Queued(w.delivered[k]) in w.pops[i].left ==>
                                 Deadline(w.delivered[i]) <= Deadline(w.delivered[k]))
    {
      DeliveredByDeadline(w.history, s, i, k);
    }
  }
}
