/** hw8: any number of concurrent push calls feed one EDF queue, and one worker thread takes
    events out and delivers them itself.  Steps are single operations on the mutex, the
    condition variable or the queue. */
module DirectDispatch {
  import opened Options
  import opened Heaps
  import opened Events

  /** Where a push call is: `Locking` is about to lock, `Inserting` holds the mutex, and so on. */
  datatype PushPc = Locking | Inserting | Signalling | Unlocking | Returned

  datatype Call = Call(event: Event, pc: PushPc)

  datatype WorkerPc =
    | ToLock | Testing | Asleep | Woken | Taking | Taken(event: Event) | Working(event: Event)

  datatype Holder = Nobody | Worker | Pusher(call: nat)

  /** `left` is what the queue still held after the pop. */
  datatype Pop = Pop(event: Event, left: multiset<Entry<Event>>)

  /** `pushed`, `pops` and `delivered` only record the run. */
  datatype State = State(holder: Holder, queue: multiset<Entry<Event>>, worker: WorkerPc, calls: seq<Call>,
                         pushed: multiset<Event>, pops: seq<Pop>, delivered: seq<Event>)

  datatype Choice =
    | Arrive(source: nat, created: int)  // a new push call, its deadline computed
    | Push(call: nat)                    // the next step of a push call
    | Work                               // the next step of the worker, if it is not a pop
    | Take(entry: Entry<Event>)          // the worker pops an entry
    | Spurious                           // pthread_cond_wait returns without a signal

  function Init(): State {
    State(Nobody, multiset{}, ToLock, [], multiset{}, [], [])
  }

  ghost predicate Enabled(s: State, c: Choice) {
    match c
    case Arrive(source, _) => source < SOURCES
    case Push(i) => i < |s.calls| && !s.calls[i].pc.Returned? && (s.calls[i].pc.Locking? ==> s.holder.Nobody?)
    case Work =>
      (match s.worker
       case ToLock | Woken => s.holder.Nobody?
       case Testing | Taken(_) | Working(_) => true
       case Asleep | Taking => false)
    case Take(e) => s.worker.Taking? && Least(s.queue, e)
    case Spurious => s.worker.Asleep?
  }

  function At(s: State, i: nat, pc: PushPc): seq<Call>
    requires i < |s.calls|
  {
    s.calls[i := s.calls[i].(pc := pc)]
  }

  function ApplyPush(s: State, i: nat): State
    requires i < |s.calls|
  {
    var call := s.calls[i];
    match call.pc
    case Locking => s.(holder := Pusher(i), calls := At(s, i, Inserting))
    case Inserting =>
      s.(queue := s.queue + multiset{Queued(call.event)}, pushed := s.pushed + multiset{call.event},
         calls := At(s, i, Signalling))
    case Signalling =>
      s.(worker := if s.worker.Asleep? then Woken else s.worker, calls := At(s, i, Unlocking))
    case Unlocking => s.(holder := Nobody, calls := At(s, i, Returned))
    case Returned => s
  }

  function Apply(s: State, c: Choice): State
    requires c.Push? ==> c.call < |s.calls|
  {
    match c
    case Arrive(source, created) =>
      s.(calls := s.calls + [Call(Event(|s.calls|, source, created), Locking)])
    case Push(i) => ApplyPush(s, i)
    case Work =>
      (match s.worker
       case ToLock | Woken => s.(holder := Worker, worker := Testing)
       case Testing =>
         if s.queue == multiset{} then s.(holder := Nobody, worker := Asleep) else s.(worker := Taking)
       case Taken(e) => s.(holder := Nobody, worker := Working(e))
       case Working(e) => s.(delivered := s.delivered + [e], worker := ToLock)
       case Asleep | Taking => s)
    case Take(e) =>
      var rest := s.queue - multiset{e};
      s.(queue := rest, worker := Taken(e.item), pops := s.pops + [Pop(e.item, rest)])
    case Spurious => s.(worker := Woken)
  }

  /** The state after the given choices from s, or None if one of them was not enabled. */
  ghost function RunFrom(s: State, choices: seq<Choice>): (r: Option<State>) {
    if choices == [] then Some(s)
    else
      var last := |choices| - 1;
      var before := RunFrom(s, choices[..last]);
      if before.Some? && Enabled(before.value, choices[last]) then Some(Apply(before.value, choices[last])) else None
  }

  ghost predicate Reachable(choices: seq<Choice>, s: State) {
    RunFrom(Init(), choices) == Some(s)
  }

  // ---------- Invariant ----------

  predicate InSection(pc: PushPc) {
    pc.Inserting? || pc.Signalling? || pc.Unlocking?
  }

  predicate WorkerHolds(w: WorkerPc) {
    w.Testing? || w.Taking? || w.Taken?
  }

  function InHand(w: WorkerPc): multiset<Event> {
    match w
    case Taken(e) => multiset{e}
    case Working(e) => multiset{e}
    case _ => multiset{}
  }

  /** The events of a queue; all its entries carry their own deadline. */
  ghost predicate Keyed(q: multiset<Entry<Event>>) {
    forall e :: e in q ==> e == Queued(e.item)
  }

  ghost predicate Exclusive(s: State) {
    && (s.holder.Worker? <==> WorkerHolds(s.worker))
    && (forall i: nat :: i < |s.calls| ==> (InSection(s.calls[i].pc) <==> s.holder == Pusher(i)))
    && (s.holder.Pusher? ==> s.holder.call < |s.calls|)
    && (s.worker.Taking? ==> s.queue != multiset{})
  }

  /** A sleeping worker is signalled before the mutex is released. */
  predicate NoLostWakeup(s: State) {
    s.worker.Asleep? && s.queue != multiset{} ==>
      s.holder.Pusher? && s.holder.call < |s.calls| && s.calls[s.holder.call].pc.Signalling?
  }

  ghost predicate Balance(s: State, x: Event) {
    s.pushed[x] == s.queue[Queued(x)] + InHand(s.worker)[x] + multiset(s.delivered)[x]
  }

  ghost predicate Conserved(s: State) {
    && Keyed(s.queue)
    && (forall x: Event :: Balance(s, x))
  }

  ghost predicate Inv(s: State) {
    Exclusive(s) && NoLostWakeup(s) && Conserved(s)
  }

  lemma StepKeepsExclusive(s: State, c: Choice)
    requires Exclusive(s) && Enabled(s, c)
    ensures Exclusive(Apply(s, c))
  {
    match c
    case Take(e) => assert e in s.queue;
    case Push(i) => assert InSection(s.calls[i].pc) <==> s.holder == Pusher(i);
    case _ =>
  }

  lemma StepKeepsWakeup(s: State, c: Choice)
    requires Exclusive(s) && NoLostWakeup(s) && Enabled(s, c)
    ensures NoLostWakeup(Apply(s, c))
  {}

  lemma TakeKeepsBalance(s: State, e: Entry<Event>, x: Event)
    requires e == Queued(e.item) && Balance(s, x) && Enabled(s, Take(e))
    ensures Balance(Apply(s, Take(e)), x)
  {}

  lemma AddOne<T>(m: multiset<T>, e: T, x: T)
    ensures (m + multiset{e})[x] == m[x] + if e == x then 1 else 0
  {}

  lemma InsertKeepsBalance(s: State, i: nat, x: Event)
    requires Balance(s, x) && Enabled(s, Push(i)) && s.calls[i].pc.Inserting?
    ensures Balance(ApplyPush(s, i), x)
  {
    var e := s.calls[i].event;
    AddOne(s.queue, Queued(e), Queued(x));
    AddOne(s.pushed, e, x);
    assert Queued(e) == Queued(x) <==> e == x;
  }

  lemma OthersMoveNothing(s: State, i: nat)
    requires Enabled(s, Push(i)) && !s.calls[i].pc.Inserting?
    ensures var t := ApplyPush(s, i);
            t.queue == s.queue && t.pushed == s.pushed && t.delivered == s.delivered
              && InHand(t.worker) == InHand(s.worker)
  {}

  lemma PushKeepsBalance(s: State, i: nat, x: Event)
    requires Balance(s, x) && Enabled(s, Push(i))
    ensures Balance(ApplyPush(s, i), x)
  {
    if s.calls[i].pc.Inserting? {
      InsertKeepsBalance(s, i, x);
    } else {
      OthersMoveNothing(s, i);
    }
  }

  lemma WorkKeepsBalance(s: State, x: Event)
    requires Balance(s, x) && Enabled(s, Work)
    ensures Balance(Apply(s, Work), x)
  {}

  lemma StepKeepsBalance(s: State, c: Choice, x: Event)
    requires Keyed(s.queue) && Balance(s, x) && Enabled(s, c)
    ensures Balance(Apply(s, c), x)
  {
    match c
    case Take(e) => TakeKeepsBalance(s, e, x);
    case Push(i) => PushKeepsBalance(s, i, x);
    case Work => WorkKeepsBalance(s, x);
    case _ =>
  }

  lemma StepKeepsKeyed(s: State, c: Choice)
    requires Keyed(s.queue) && Enabled(s, c)
    ensures Keyed(Apply(s, c).queue)
  {}

  lemma StepKeepsConserved(s: State, c: Choice)
    requires Conserved(s) && Enabled(s, c)
    ensures Conserved(Apply(s, c))
  {
    StepKeepsKeyed(s, c);
    forall x: Event ensures Balance(Apply(s, c), x) {
      StepKeepsBalance(s, c, x);
    }
  }

  lemma StepKeepsInv(s: State, c: Choice)
    requires Inv(s) && Enabled(s, c)
    ensures Inv(Apply(s, c))
  {
    StepKeepsExclusive(s, c);
    StepKeepsWakeup(s, c);
    StepKeepsConserved(s, c);
  }

  lemma {:induction false} RunKeepsInv(s: State, choices: seq<Choice>, t: State)
    requires Inv(s) && RunFrom(s, choices) == Some(t)
    ensures Inv(t)
    decreases |choices|
  {
    if choices != [] {
      var last := |choices| - 1;
      var before := RunFrom(s, choices[..last]).value;
      RunKeepsInv(s, choices[..last], before);
      StepKeepsInv(before, choices[last]);
    }
  }

  // ---------- After the last push call ----------

  /** Steps of the threads that are there; spurious wakeups are the system's, not theirs. */
  predicate Own(c: Choice) {
    !c.Arrive? && !c.Spurious?
  }

  function PushRank(pc: PushPc): nat {
    match pc
    case Locking => 13
    case Inserting => 12
    case Signalling => 5
    case Unlocking => 1
    case Returned => 0
  }

  function WorkerRank(w: WorkerPc): nat {
    match w
    case Asleep => 0
    case Taking => 1
    case Testing => 2
    case ToLock | Woken => 3
    case Working(_) => 4
    case Taken(_) => 5
  }

  function CallsRank(calls: seq<Call>): nat {
    if calls == [] then 0 else CallsRank(calls[..|calls| - 1]) + PushRank(calls[|calls| - 1].pc)
  }

  /** An upper bound on the number of steps the threads can still make. */
  function Measure(s: State): nat {
    CallsRank(s.calls) + 6 * |s.queue| + WorkerRank(s.worker)
  }

  lemma {:induction false} RankOfUpdate(calls: seq<Call>, i: nat, call: Call)
    requires i < |calls|
    ensures CallsRank(calls[i := call]) == CallsRank(calls) - PushRank(calls[i].pc) + PushRank(call.pc)
  {
    var last := |calls| - 1;
    if i == last {
      assert calls[i := call][..last] == calls[..last];
    } else {
      RankOfUpdate(calls[..last], i, call);
      assert calls[i := call][..last] == calls[..last][i := call];
    }
  }

  lemma PushDecreases(s: State, i: nat)
    requires Enabled(s, Push(i))
    ensures Measure(Apply(s, Push(i))) < Measure(s)
  {
    var t := Apply(s, Push(i));
    RankOfUpdate(s.calls, i, t.calls[i]);
    assert t.calls == s.calls[i := t.calls[i]];
    assert s.calls[i].pc.Inserting? ==> |t.queue| == |s.queue| + 1;
  }

  lemma StepDecreases(s: State, c: Choice)
    requires Exclusive(s) && Enabled(s, c) && Own(c)
    ensures Measure(Apply(s, c)) < Measure(s)
  {
    match c
    case Push(i) => PushDecreases(s, i);
    case Take(e) => assert |s.queue - multiset{e}| == |s.queue| - 1;
    case _ =>
  }

  /** Everybody has nothing left to do. */
  ghost predicate Quiescent(s: State) {
    && (forall i :: 0 <= i < |s.calls| ==> s.calls[i].pc.Returned?)
    && s.worker.Asleep?
    && s.queue == multiset{}
  }

  /** As long as something is left to do, some thread can make a step. */
  lemma SomebodyCanStep(s: State) returns (c: Choice)
    requires Inv(s) && !Quiescent(s)
    ensures Own(c) && Enabled(s, c)
  {
    if s.holder.Pusher? {
      c := Push(s.holder.call);
      assert InSection(s.calls[s.holder.call].pc);
    } else if i: nat :| i < |s.calls| && !s.calls[i].pc.Returned? && s.holder.Nobody? {
      c := Push(i);
      assert !InSection(s.calls[i].pc);
    } else if s.worker.Taking? {
      var e := HasLeast(s.queue);
      c := Take(e);
    } else {
      c := Work;
      assert s.holder.Nobody? ==> forall i: nat :: i < |s.calls| ==> s.calls[i].pc.Returned?;
    }
  }

  lemma {:induction false} RunDecreases(s: State, choices: seq<Choice>, t: State)
    requires Inv(s) && RunFrom(s, choices) == Some(t)
    requires forall k :: 0 <= k < |choices| ==> Own(choices[k])
    ensures Inv(t) && |choices| + Measure(t) <= Measure(s)
    decreases |choices|
  {
    if choices != [] {
      var last := |choices| - 1;
      var before := RunFrom(s, choices[..last]).value;
      RunDecreases(s, choices[..last], before);
      StepKeepsInv(before, choices[last]);
      StepDecreases(before, choices[last]);
    }
  }

  /** Everything that was pushed has been delivered once nothing is left to do. */
  lemma QuiescentDelivered(s: State)
    requires Inv(s) && Quiescent(s)
    ensures multiset(s.delivered) == s.pushed
  {
    forall x: Event ensures multiset(s.delivered)[x] == s.pushed[x] {
      assert Balance(s, x);
    }
  }

  /** From any reachable state, every run without new push calls and spurious wakeups has at most
      `Measure` steps, and where it cannot go on the worker sleeps, the queue is empty, all calls
      have returned, and exactly the pushed events have been delivered. */
  lemma EveryRunDrains(past: seq<Choice>, s: State, choices: seq<Choice>, t: State)
    requires Reachable(past, s) && RunFrom(s, choices) == Some(t)
    requires forall k :: 0 <= k < |choices| ==> Own(choices[k])
    ensures |choices| <= Measure(s)
    ensures (forall c: Choice :: Own(c) ==> !Enabled(t, c)) ==> Quiescent(t) && multiset(t.delivered) == t.pushed
  {
    RunKeepsInv(Init(), past, s);
    RunDecreases(s, choices, t);
    if Quiescent(t) {
      QuiescentDelivered(t);
    } else {
      var c := SomebodyCanStep(t);
    }
  }

  /** In no reachable state is the mutex free while the worker sleeps on a nonempty queue. */
  lemma NoSleepOnWork(past: seq<Choice>, s: State)
    requires Reachable(past, s) && s.holder.Nobody? && s.worker.Asleep?
    ensures s.queue == multiset{}
  {
    RunKeepsInv(Init(), past, s);
  }

  /** Nothing is lost or duplicated on the way. */
  lemma NothingLost(past: seq<Choice>, s: State, x: Event)
    requires Reachable(past, s)
    ensures s.pushed[x] == s.queue[Queued(x)] + InHand(s.worker)[x] + multiset(s.delivered)[x]
  {
    RunKeepsInv(Init(), past, s);
    assert Balance(s, x);
  }

  /** A spurious wakeup can come whenever the worker sleeps, and if there is nothing to do it has no
      effect: the worker tests again and goes back to sleep. */
  lemma SpuriousIsHarmless(past: seq<Choice>, s: State)
    requires Reachable(past, s) && s.worker.Asleep? && s.holder.Nobody?
    ensures Enabled(s, Spurious)
    ensures var woken := Apply(s, Spurious);
            && Enabled(woken, Work) && Enabled(Apply(woken, Work), Work)
            && Apply(Apply(woken, Work), Work) == s
  {
    NoSleepOnWork(past, s);
  }

  /** The worker never takes the top of an empty queue. */
  lemma NeverPopsEmpty(past: seq<Choice>, s: State)
    requires Reachable(past, s) && s.worker.Taking?
    ensures s.queue != multiset{}
  {
    RunKeepsInv(Init(), past, s);
  }

  // ---------- From the calls to the deliveries ----------

  predicate Inserted(pc: PushPc) {
    pc.Signalling? || pc.Unlocking? || pc.Returned?
  }

  lemma PushMoves(s: State, i: nat) returns (pc: PushPc)
    requires Enabled(s, Push(i))
    ensures Apply(s, Push(i)).calls == s.calls[i := s.calls[i].(pc := pc)]
    ensures Inserted(s.calls[i].pc) ==> Inserted(pc)
  {
    pc := Apply(s, Push(i)).calls[i].pc;
  }

  predicate PushedByCall(s: State, i: nat)
    requires i < |s.calls|
  {
    var x := s.calls[i].event;
    x.id == i && s.pushed[x] == if Inserted(s.calls[i].pc) then 1 else 0
  }

  /** Each call has pushed its own event once, or not yet, and nobody else has pushed anything. */
  ghost predicate PushedByCalls(s: State) {
    && (forall i: nat :: i < |s.calls| ==> PushedByCall(s, i))
    && (forall x :: x in s.pushed ==> x.id < |s.calls| && s.calls[x.id].event == x)
  }

  lemma InsertKeepsPushed(s: State, t: State, i: nat)
    requires PushedByCalls(s) && i < |s.calls| == |t.calls| && !Inserted(s.calls[i].pc)
    requires t.pushed == s.pushed + multiset{s.calls[i].event}
    requires forall k :: 0 <= k < |s.calls| ==>
               t.calls[k].event == s.calls[k].event && (Inserted(t.calls[k].pc) <==> Inserted(s.calls[k].pc) || k == i)
    ensures PushedByCalls(t)
  {
    assert PushedByCall(s, i);
    forall k: nat | k < |t.calls| ensures PushedByCall(t, k) {
      assert PushedByCall(s, k);
    }
  }

  /** No call has pushed anything between s and t, but calls may have come. */
  predicate NothingPushed(s: State, t: State) {
    && t.pushed == s.pushed && |s.calls| <= |t.calls|
    && (forall k :: 0 <= k < |s.calls| ==>
          t.calls[k].event == s.calls[k].event && (Inserted(t.calls[k].pc) <==> Inserted(s.calls[k].pc)))
    && (forall k :: |s.calls| <= k < |t.calls| ==> t.calls[k].event.id == k && !Inserted(t.calls[k].pc))
  }

  lemma OthersPushNothing(s: State, c: Choice)
    requires Enabled(s, c) && !(c.Push? && s.calls[c.call].pc.Inserting?)
    ensures NothingPushed(s, Apply(s, c))
  {}

  lemma OthersKeepPushed(s: State, t: State)
    requires PushedByCalls(s) && NothingPushed(s, t)
    ensures PushedByCalls(t)
  {
    forall k: nat | k < |t.calls| ensures PushedByCall(t, k) {
      if k < |s.calls| { assert PushedByCall(s, k); }
    }
  }

  lemma StepKeepsPushed(s: State, c: Choice)
    requires PushedByCalls(s) && Enabled(s, c)
    ensures PushedByCalls(Apply(s, c))
  {
    if c.Push? && s.calls[c.call].pc.Inserting? {
      InsertKeepsPushed(s, Apply(s, c), c.call);
    } else {
      OthersPushNothing(s, c);
      OthersKeepPushed(s, Apply(s, c));
    }
  }

  lemma {:induction false} RunKeepsPushed(choices: seq<Choice>, s: State)
    requires Reachable(choices, s)
    ensures PushedByCalls(s)
    decreases |choices|
  {
    if choices != [] {
      var last := |choices| - 1;
      var before := RunFrom(Init(), choices[..last]).value;
      RunKeepsPushed(choices[..last], before);
      StepKeepsPushed(before, choices[last]);
    }
  }

  // ---------- From the arguments of the calls to the deliveries ----------

  /** The events of the push calls of a run, read off the choices: numbered from 0, each with the
      source and the creation time that the caller gives. */
  function Arrivals(choices: seq<Choice>): seq<Event> {
    if choices == [] then []
    else
      var before, c := Arrivals(choices[..|choices| - 1]), choices[|choices| - 1];
      if c.Arrive? then before + [Event(|before|, c.source, c.created)] else before
  }

  lemma {:induction false} ArrivalsNumbered(choices: seq<Choice>)
    ensures forall i: nat :: i < |Arrivals(choices)| ==> Arrivals(choices)[i].id == i
    decreases |choices|
  {
    if choices != [] { ArrivalsNumbered(choices[..|choices| - 1]); }
  }

  lemma StepKeepsEvents(s: State, c: Choice)
    requires Enabled(s, c) && !c.Arrive?
    ensures |Apply(s, c).calls| == |s.calls|
    ensures forall i :: 0 <= i < |s.calls| ==> Apply(s, c).calls[i].event == s.calls[i].event
  {}

  /** Every call carries what its caller gave, and there are no other calls. */
  lemma {:induction false} CallsAreArrivals(choices: seq<Choice>, s: State)
    requires Reachable(choices, s)
    ensures |s.calls| == |Arrivals(choices)|
    ensures forall i :: 0 <= i < |s.calls| ==> s.calls[i].event == Arrivals(choices)[i]
    decreases |choices|
  {
    if choices != [] {
      var last := |choices| - 1;
      var before := RunFrom(Init(), choices[..last]).value;
      CallsAreArrivals(choices[..last], before);
      if !choices[last].Arrive? { StepKeepsEvents(before, choices[last]); }
    }
  }

  lemma DistinctOnce(events: seq<Event>, i: nat)
    requires i < |events| && forall k: nat :: k < |events| ==> events[k].id == k
    ensures multiset(events)[events[i]] == 1
  {
    var x := events[i];
    assert events == events[..i] + [x] + events[i + 1..];
    assert x !in events[..i] && x !in events[i + 1..];
  }

  /** Where nothing is left to do, the events delivered are those of the push calls, each with the
      source and the creation time of its call, each exactly once, and nothing else. */
  lemma EachCallDeliveredOnce(choices: seq<Choice>, s: State)
    requires Reachable(choices, s) && Quiescent(s)
    ensures multiset(s.delivered) == multiset(Arrivals(choices))
    ensures forall i: nat :: i < |Arrivals(choices)| ==> multiset(s.delivered)[Arrivals(choices)[i]] == 1
  {
    RunKeepsInv(Init(), choices, s);
    RunKeepsPushed(choices, s);
    QuiescentDelivered(s);
    CallsAreArrivals(choices, s);
    ArrivalsNumbered(choices);
    var events := Arrivals(choices);
    forall i: nat | i < |events| ensures s.pushed[events[i]] == 1 && multiset(events)[events[i]] == 1 {
      assert PushedByCall(s, i);
      DistinctOnce(events, i);
    }
    forall x: Event ensures s.pushed[x] == multiset(events)[x] {
      if x in s.pushed { assert events[x.id] == x; }
      if x in events { assert exists i: nat :: i < |events| && events[i] == x; }
    }
  }

  // ---------- The order of delivery ----------

  function Popped(pops: seq<Pop>): (events: seq<Event>)
    ensures |events| == |pops| && forall k :: 0 <= k < |pops| ==> events[k] == pops[k].event
  {
    if pops == [] then [] else Popped(pops[..|pops| - 1]) + [pops[|pops| - 1].event]
  }

  /** The event the worker has taken out and not yet delivered. */
  function Pending(w: WorkerPc): seq<Event> {
    match w
    case Taken(e) => [e]
    case Working(e) => [e]
    case _ => []
  }

  ghost predicate LeastPopped(s: State) {
    forall i, x :: 0 <= i < |s.pops| && x in s.pops[i].left ==> Deadline(s.pops[i].event) <= x.key
  }

  ghost predicate InOrder(s: State) {
    Keyed(s.queue) && LeastPopped(s) && Popped(s.pops) == s.delivered + Pending(s.worker)
  }

  lemma TakeKeepsLeast(s: State, e: Entry<Event>)
    requires Keyed(s.queue) && LeastPopped(s) && Enabled(s, Take(e))
    ensures LeastPopped(Apply(s, Take(e)))
  {
    var t := Apply(s, Take(e));
    assert e in s.queue && e == Queued(e.item);
    forall i, x | 0 <= i < |t.pops| && x in t.pops[i].left ensures Deadline(t.pops[i].event) <= x.key {
      if i < |s.pops| {
        assert t.pops[i] == s.pops[i];
      } else {
        assert x in s.queue;
      }
    }
  }

  lemma TakeMovesOn(s: State, e: Entry<Event>)
    requires Popped(s.pops) == s.delivered + Pending(s.worker) && Enabled(s, Take(e))
    ensures var t := Apply(s, Take(e)); Popped(t.pops) == t.delivered + Pending(t.worker)
  {
    assert Apply(s, Take(e)).pops[..|s.pops|] == s.pops;
  }

  lemma PushLeavesOrder(s: State, i: nat)
    requires Enabled(s, Push(i))
    ensures var t := ApplyPush(s, i);
            t.pops == s.pops && t.delivered == s.delivered && Pending(t.worker) == Pending(s.worker)
  {}

  lemma StepKeepsOrder(s: State, c: Choice)
    requires InOrder(s) && Enabled(s, c)
    ensures InOrder(Apply(s, c))
  {
    StepKeepsKeyed(s, c);
    match c
    case Take(e) =>
      TakeKeepsLeast(s, e);
      TakeMovesOn(s, e);
    case Push(i) => PushLeavesOrder(s, i);
    case _ =>
  }

  lemma {:induction false} RunKeepsOrder(choices: seq<Choice>, s: State)
    requires Reachable(choices, s)
    ensures InOrder(s)
    decreases |choices|
  {
    if choices != [] {
      var last := |choices| - 1;
      var before := RunFrom(Init(), choices[..last]).value;
      RunKeepsOrder(choices[..last], before);
      StepKeepsOrder(before, choices[last]);
    }
  }

  /** What was popped is, in that order, what was delivered and what the worker has in hand. */
  lemma PoppedIsDelivered(choices: seq<Choice>, s: State)
    requires Reachable(choices, s)
    ensures Popped(s.pops) == s.delivered + Pending(s.worker)
  {
    RunKeepsOrder(choices, s);
  }

  /** Events are delivered in the order in which they were popped, and an event that was already
      queued when an earlier delivered one was popped has no earlier deadline. */
  lemma DeliveredByDeadline(choices: seq<Choice>, s: State, i: nat, k: nat)
    requires Reachable(choices, s) && i < k < |s.delivered|
    ensures i < |s.pops| && s.delivered[i] == s.pops[i].event
    ensures Queued(s.delivered[k]) in s.pops[i].left ==> Deadline(s.delivered[i]) <= Deadline(s.delivered[k])
  {
    RunKeepsOrder(choices, s);
    assert Popped(s.pops)[i] == s.delivered[i];
  }
}
