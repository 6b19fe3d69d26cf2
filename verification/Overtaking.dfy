/** How often an event can be overtaken in the EDF queue of hw8: deadlines count from the
    creation of an event, so whoever overtakes it was created at most a bounded time later. */
module Overtaking {
  import opened Heaps
  import opened Events
  import opened DirectDispatch

  /** e is the event of a push call that has put it into the queue. */
  predicate Known(s: State, e: Event) {
    e.id < |s.calls| && s.calls[e.id].event == e && Inserted(s.calls[e.id].pc)
  }

  ghost predicate CallsNumbered(s: State) {
    forall i: nat :: i < |s.calls| ==> s.calls[i].event.id == i && s.calls[i].event.source < SOURCES
  }

  ghost predicate QueueKnown(s: State) {
    forall e :: e in s.queue ==> e == Queued(e.item) && s.queue[e] == 1 && Known(s, e.item)
  }

  /** Every pop took an entry of least deadline, and no event was popped twice. */
  ghost predicate PopsKnown(s: State) {
    forall i: nat :: i < |s.pops| ==>
      && Known(s, s.pops[i].event)
      && Queued(s.pops[i].event) !in s.queue
      && (forall x :: x in s.pops[i].left ==>
            x == Queued(x.item) && Known(s, x.item) && Deadline(s.pops[i].event) <= x.key)
  }

  ghost predicate PopsDistinct(s: State) {
    forall i: nat, k: nat :: i < k < |s.pops| ==> s.pops[i].event != s.pops[k].event
  }

  ghost predicate Ordered(s: State) {
    CallsNumbered(s) && QueueKnown(s) && PopsKnown(s) && PopsDistinct(s)
  }

  lemma TakeKeepsQueueKnown(s: State, e: Entry<Event>)
    requires Ordered(s) && Enabled(s, Take(e))
    ensures QueueKnown(Apply(s, Take(e))) && e !in Apply(s, Take(e)).queue
  {}

  lemma TakeKeepsPopsKnown(s: State, e: Entry<Event>)
    requires Ordered(s) && Enabled(s, Take(e))
    ensures PopsKnown(Apply(s, Take(e)))
  {
    var t := Apply(s, Take(e));
    TakeKeepsQueueKnown(s, e);
    assert e in s.queue && e == Queued(e.item);
    forall i: nat | i < |t.pops|
      ensures Known(t, t.pops[i].event) && Queued(t.pops[i].event) !in t.queue
      ensures forall x :: x in t.pops[i].left ==>
                x == Queued(x.item) && Known(t, x.item) && Deadline(t.pops[i].event) <= x.key
    {
      if i < |s.pops| {
        assert t.pops[i] == s.pops[i] && Known(s, s.pops[i].event);
      } else {
        assert forall x :: x in t.pops[i].left ==> x in s.queue;
      }
    }
  }

  lemma TakeKeepsOrdered(s: State, e: Entry<Event>)
    requires Ordered(s) && Enabled(s, Take(e))
    ensures Ordered(Apply(s, Take(e)))
  {
    TakeKeepsQueueKnown(s, e);
    TakeKeepsPopsKnown(s, e);
    assert e in s.queue && e == Queued(e.item);
    forall i: nat | i < |s.pops| ensures s.pops[i].event != e.item {
      assert Queued(s.pops[i].event) !in s.queue;
    }
  }

  lemma PushKeepsKnown(s: State, i: nat, e: Event)
    requires Enabled(s, Push(i)) && Known(s, e)
    ensures Known(Apply(s, Push(i)), e)
  {
    var pc := PushMoves(s, i);
  }

  lemma PushKeepsQueueKnown(s: State, i: nat)
    requires Ordered(s) && Enabled(s, Push(i))
    ensures QueueKnown(Apply(s, Push(i)))
  {
    var t := Apply(s, Push(i));
    var mine := s.calls[i].event;
    forall x | x in t.queue ensures x == Queued(x.item) && t.queue[x] == 1 && Known(t, x.item) {
      if x in s.queue {
        PushKeepsKnown(s, i, x.item);
        assert s.calls[i].pc.Inserting? ==> x != Queued(mine);
      } else {
        assert s.calls[i].pc.Inserting? && x == Queued(mine);
      }
    }
  }

  lemma PushKeepsPopsKnown(s: State, i: nat)
    requires Ordered(s) && Enabled(s, Push(i))
    ensures PopsKnown(Apply(s, Push(i)))
  {
    var t := Apply(s, Push(i));
    forall k: nat | k < |t.pops|
      ensures Known(t, t.pops[k].event) && Queued(t.pops[k].event) !in t.queue
      ensures forall x :: x in t.pops[k].left ==>
                x == Queued(x.item) && Known(t, x.item) && Deadline(t.pops[k].event) <= x.key
    {
      assert Known(s, s.pops[k].event);
      PushKeepsKnown(s, i, s.pops[k].event);
      forall x | x in t.pops[k].left ensures Known(t, x.item) { PushKeepsKnown(s, i, x.item); }
    }
  }

  lemma PushKeepsOrdered(s: State, i: nat)
    requires Ordered(s) && Enabled(s, Push(i))
    ensures Ordered(Apply(s, Push(i)))
  {
    PushKeepsQueueKnown(s, i);
    PushKeepsPopsKnown(s, i);
  }

  lemma ArriveKeepsOrdered(s: State, source: nat, created: int)
    requires Ordered(s) && Enabled(s, Arrive(source, created))
    ensures Ordered(Apply(s, Arrive(source, created)))
  {}

  lemma StepKeepsOrdered(s: State, c: Choice)
    requires Ordered(s) && Enabled(s, c)
    ensures Ordered(Apply(s, c))
  {
    match c
    case Arrive(source, created) => ArriveKeepsOrdered(s, source, created);
    case Push(i) => PushKeepsOrdered(s, i);
    case Take(e) => TakeKeepsOrdered(s, e);
    case _ =>
      var t := Apply(s, c);
      assert t.calls == s.calls && t.queue == s.queue && t.pops == s.pops;
      forall e: Event ensures Known(t, e) <==> Known(s, e) {}
  }

  lemma {:induction false} RunOrdered(choices: seq<Choice>, s: State)
    requires Reachable(choices, s)
    ensures Ordered(s)
    decreases |choices|
  {
    if choices != [] {
      var last := |choices| - 1;
      var before := RunFrom(Init(), choices[..last]).value;
      RunOrdered(choices[..last], before);
      StepKeepsOrdered(before, choices[last]);
    }
  }

  // ---------- Who overtakes whom ----------

  /** e was in the queue, and stayed there, when pop i took another event. */
  predicate Waits(s: State, i: nat, e: Event) {
    i < |s.pops| && Queued(e) in s.pops[i].left
  }

  /** An event popped while e waits was created no later than e plus the difference of their
      intervals, hence at most 150 ms after e, and not after e if it has the same source. */
  lemma OvertakerIsEarly(choices: seq<Choice>, s: State, i: nat, e: Event)
    requires Reachable(choices, s) && Waits(s, i, e)
    ensures s.pops[i].event.created <= e.created + Interval(e) - Interval(s.pops[i].event)
    ensures s.pops[i].event.created <= e.created + 150000
    ensures s.pops[i].event.source == e.source ==> s.pops[i].event.created <= e.created
  {
    RunOrdered(choices, s);
    assert Known(s, e) && Known(s, s.pops[i].event);
  }

  /** The creations of each source are at least its period apart. */
  ghost predicate Periodic(s: State) {
    forall i: nat, k: nat :: i < |s.calls| && k < |s.calls| && i != k ==>
      var a, b := s.calls[i].event, s.calls[k].event;
      a.source == b.source < SOURCES && a.created <= b.created ==> a.created + PERIODS[a.source] * 1000 <= b.created
  }

  /** The pops of later-created events of one source while e was waiting. */
  function Overtakers(s: State, e: Event, source: nat): set<nat> {
    set i: nat | i < |s.pops| && Waits(s, i, e) && s.pops[i].event.source == source
      && e.created < s.pops[i].event.created
  }

  /** How many creations of the source fit into the time in which it could still overtake. */
  function MostOvertakers(e: Event, source: nat): nat
    requires source < SOURCES
  {
    var period := PERIODS[source] * 1000;
    var slack := Interval(e) - INTERVALS[source] * 1000;
    if slack <= 0 then 0 else (slack + period - 1) / period
  }

  /** Times at least a period apart lie in different periods counted from any origin. */
  lemma DifferentSlots(a: int, b: int, origin: int, period: int)
    requires period > 0 && origin <= a && a + period <= b
    ensures (a - origin) / period < (b - origin) / period
  {}

  /** Which period after the creation of e the event of pop i was created in. */
  function Slot(s: State, e: Event, source: nat, i: nat): int
    requires source < SOURCES
  {
    if i < |s.pops| then (s.pops[i].event.created - (e.created + 1)) / (PERIODS[source] * 1000) else 0
  }

  lemma SlotBelow(offset: int, slack: int, period: int)
    requires 0 <= offset < slack && period > 0
    ensures 0 <= offset / period < (slack + period - 1) / period
  {}

  lemma SlotInRange(choices: seq<Choice>, s: State, e: Event, source: nat, i: nat)
    requires Reachable(choices, s) && source < SOURCES && i in Overtakers(s, e, source)
    ensures 0 <= Slot(s, e, source, i) < MostOvertakers(e, source)
  {
    OvertakerIsEarly(choices, s, i, e);
    SlotBelow(s.pops[i].event.created - (e.created + 1), Interval(e) - INTERVALS[source] * 1000,
              PERIODS[source] * 1000);
  }

  /** Pops in different slots below n are at most n many. */
  lemma {:induction false} OnePerSlot(s: State, e: Event, source: nat, pops: set<nat>, n: nat)
    requires source < SOURCES
    requires forall i :: i in pops ==> 0 <= Slot(s, e, source, i) < n
    requires forall i, k :: i in pops && k in pops && i != k ==> Slot(s, e, source, i) != Slot(s, e, source, k)
    ensures |pops| <= n
  {
    if k: nat :| k in pops && Slot(s, e, source, k) == n - 1 {
      OnePerSlot(s, e, source, pops - {k}, n - 1);
      assert pops == (pops - {k}) + {k};
    } else if n > 0 {
      OnePerSlot(s, e, source, pops, n - 1);
    } else {
      assert forall i :: i !in pops;
      assert pops == {};
    }
  }

  lemma PopsApart(s: State, i: nat, k: nat)
    requires Ordered(s) && Periodic(s) && i < |s.pops| && k < |s.pops| && i != k
    requires s.pops[i].event.source == s.pops[k].event.source < SOURCES
    requires s.pops[i].event.created <= s.pops[k].event.created
    ensures s.pops[i].event.created + PERIODS[s.pops[i].event.source] * 1000 <= s.pops[k].event.created
  {}

  lemma EarlierSlot(s: State, e: Event, source: nat, i: nat, k: nat)
    requires Ordered(s) && Periodic(s) && source < SOURCES && i != k
    requires i in Overtakers(s, e, source) && k in Overtakers(s, e, source)
    requires s.pops[i].event.created <= s.pops[k].event.created
    ensures Slot(s, e, source, i) < Slot(s, e, source, k)
  {
    PopsApart(s, i, k);
    DifferentSlots(s.pops[i].event.created, s.pops[k].event.created, e.created + 1, PERIODS[source] * 1000);
  }

  lemma SlotsDiffer(s: State, e: Event, source: nat, i: nat, k: nat)
    requires Ordered(s) && Periodic(s) && source < SOURCES && i != k
    requires i in Overtakers(s, e, source) && k in Overtakers(s, e, source)
    ensures Slot(s, e, source, i) != Slot(s, e, source, k)
  {
    if s.pops[i].event.created <= s.pops[k].event.created {
      EarlierSlot(s, e, source, i, k);
    } else {
      EarlierSlot(s, e, source, k, i);
    }
  }

  lemma OvertakersFit(s: State, e: Event, source: nat, n: nat)
    requires Ordered(s) && Periodic(s) && source < SOURCES
    requires forall i :: i in Overtakers(s, e, source) ==> 0 <= Slot(s, e, source, i) < n
    ensures |Overtakers(s, e, source)| <= n
  {
    var all := Overtakers(s, e, source);
    forall i, k | i in all && k in all && i != k ensures Slot(s, e, source, i) != Slot(s, e, source, k) {
      SlotsDiffer(s, e, source, i, k);
    }
    OnePerSlot(s, e, source, all, n);
  }

  /** An event is overtaken by later-created events of a source at most that often. */
  lemma OvertakenAtMost(choices: seq<Choice>, s: State, e: Event, source: nat)
    requires Reachable(choices, s) && Periodic(s) && source < SOURCES
    ensures |Overtakers(s, e, source)| <= MostOvertakers(e, source)
  {
    forall i | i in Overtakers(s, e, source) ensures 0 <= Slot(s, e, source, i) < MostOvertakers(e, source) {
      SlotInRange(choices, s, e, source, i);
    }
    RunOrdered(choices, s);
    OvertakersFit(s, e, source, MostOvertakers(e, source));
  }

  /** All later-created events that overtake e. */
  function AllOvertakers(s: State, e: Event): set<nat> {
    set i: nat | i < |s.pops| && Waits(s, i, e) && e.created < s.pops[i].event.created
  }

  /** The bounds of the five sources together, with the program's intervals and periods. */
  lemma MostBySource(e: Event)
    requires e.source < SOURCES
    ensures MostOvertakers(e, 0) + MostOvertakers(e, 1) + MostOvertakers(e, 2) + MostOvertakers(e, 3)
            + MostOvertakers(e, 4)
         == [2, 0, 5, 3, 1][e.source]
  {}

  lemma UnionOfFive(a: set<nat>, b: set<nat>, c: set<nat>, d: set<nat>, e: set<nat>)
    ensures |a + b + c + d + e| <= |a| + |b| + |c| + |d| + |e|
  {}

  lemma KnownSource(choices: seq<Choice>, s: State, i: nat)
    requires Reachable(choices, s) && i < |s.pops|
    ensures s.pops[i].event.source in {0, 1, 2, 3, 4}
  {
    RunOrdered(choices, s);
    assert Known(s, s.pops[i].event);
  }

  lemma SomeSource(choices: seq<Choice>, s: State, e: Event)
    requires Reachable(choices, s)
    ensures AllOvertakers(s, e) ==
      Overtakers(s, e, 0) + Overtakers(s, e, 1) + Overtakers(s, e, 2) + Overtakers(s, e, 3) + Overtakers(s, e, 4)
  {
    forall i | i in AllOvertakers(s, e) ensures s.pops[i].event.source in {0, 1, 2, 3, 4} {
      KnownSource(choices, s, i);
    }
  }

  /** No starvation, with the intervals and periods of the program: an event is overtaken by
      at most 2, 0, 5, 3 or 1 later-created events, by its source. */
  lemma BoundedOvertaking(choices: seq<Choice>, s: State, e: Event)
    requires Reachable(choices, s) && e.source < SOURCES
    requires forall i: nat, k: nat :: i < |s.calls| && k < |s.calls| && i != k ==>
               var a, b := s.calls[i].event, s.calls[k].event;
               a.source == b.source < SOURCES && a.created <= b.created ==>
                 a.created + [100_000, 100_000, 100_000, 200_000, 200_000][a.source] <= b.created
    ensures |AllOvertakers(s, e)| <= [2, 0, 5, 3, 1][e.source]
  {
    assert Periodic(s);
    SomeSource(choices, s, e);
    UnionOfFive(Overtakers(s, e, 0), Overtakers(s, e, 1), Overtakers(s, e, 2), Overtakers(s, e, 3),
                Overtakers(s, e, 4));
    OvertakenAtMost(choices, s, e, 0);
    OvertakenAtMost(choices, s, e, 1);
    OvertakenAtMost(choices, s, e, 2);
    OvertakenAtMost(choices, s, e, 3);
    OvertakenAtMost(choices, s, e, 4);
    MostBySource(e);
  }
}
