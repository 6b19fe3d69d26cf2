/** hw7: the worker moves events from the EDF queue to a FIFO queue with a flag, and the proxy
    thread drains that queue at the end of each push call.  Steps are single operations. */
module FifoDispatch {
  import opened Options
  import opened Heaps
  import opened Events

  /** Where a proxy thread is; `Begun` to `Unlocking` is the insertion, then the drain loop. */
  datatype ProxyPc =
    | Resting
    | Begun(event: Event) | Inserting(event: Event) | Signalling | Unlocking
    | Asking | Reading | Answered(nonempty: bool)
    | Popping | Fronting | Flagging(event: Event) | Leaving(event: Event) | Delivering(event: Event)

  /** `mark`: how many events had left the worker when the current push call began. */
  datatype Proxy = Proxy(pc: ProxyPc, mark: nat)

  datatype WorkerPc =
    | ToLock | Testing | Asleep | Woken | Taking | Taken(event: Event) | Working(event: Event)
    | Storing(event: Event) | Raising | Releasing

  datatype Holder = Nobody | Worker | ByProxy(i: nat)

  datatype Pop = Pop(event: Event, left: multiset<Entry<Event>>)

  /** `began` (the events of all push calls), `pops` and `delivered` only record the run. */
  datatype State = State(holderE: Holder, edfq: multiset<Entry<Event>>, holderF: Holder, fifoq: seq<Event>, flag: bool,
                         worker: WorkerPc, proxies: seq<Proxy>, began: seq<Event>, pops: seq<Pop>,
                         delivered: seq<Event>)

  datatype Choice =
    | Begin(proxy: nat, source: nat, created: int)
    | Run(proxy: nat)
    | Work
    | Take(entry: Entry<Event>)
    | Spurious

  function Init(proxies: nat): State {
    State(Nobody, multiset{}, Nobody, [], false, ToLock, seq(proxies, _ => Proxy(Resting, 0)), [], [], [])
  }

  /** A step that waits for a mutex needs it free; `Fronting` needs something to take. */
  predicate CanRun(s: State, pc: ProxyPc) {
    match pc
    case Resting => false
    case Begun(_) => s.holderE.Nobody?
    case Asking | Popping => s.holderF.Nobody?
    case Fronting => s.fifoq != []
    case _ => true
  }

  ghost predicate Enabled(s: State, c: Choice) {
    match c
    case Begin(i, source, _) => i < |s.proxies| && s.proxies[i].pc.Resting? && source < SOURCES
    case Run(i) => i < |s.proxies| && CanRun(s, s.proxies[i].pc)
    case Work =>
      (match s.worker
       case ToLock | Woken => s.holderE.Nobody?
       case Working(_) => s.holderF.Nobody?
       case Asleep | Taking => false
       case _ => true)
    case Take(e) => s.worker.Taking? && Least(s.edfq, e)
    case Spurious => s.worker.Asleep?
  }

  function Goto(s: State, i: nat, pc: ProxyPc): State
    requires i < |s.proxies|
  {
    s.(proxies := s.proxies[i := s.proxies[i].(pc := pc)])
  }

  function ApplyRun(s: State, i: nat): State
    requires i < |s.proxies| && CanRun(s, s.proxies[i].pc)
  {
    match s.proxies[i].pc
    case Resting => s
    case Begun(e) => Goto(s, i, Inserting(e)).(holderE := ByProxy(i))
    case Inserting(e) => Goto(s, i, Signalling).(edfq := s.edfq + multiset{Queued(e)})
    case Signalling => Goto(s, i, Unlocking).(worker := if s.worker.Asleep? then Woken else s.worker)
    case Unlocking => Goto(s, i, Asking).(holderE := Nobody)
    case Asking => Goto(s, i, Reading).(holderF := ByProxy(i))
    case Reading => Goto(s, i, Answered(s.flag))
    case Answered(b) => Goto(s, i, if b then Popping else Resting).(holderF := Nobody)
    case Popping => Goto(s, i, Fronting).(holderF := ByProxy(i))
    case Fronting => Goto(s, i, Flagging(s.fifoq[0])).(fifoq := s.fifoq[1..])
    case Flagging(e) => Goto(s, i, Leaving(e)).(flag := s.flag && s.fifoq != [])
    case Leaving(e) => Goto(s, i, Delivering(e)).(holderF := Nobody)
    case Delivering(e) => Goto(s, i, Asking).(delivered := s.delivered + [e])
  }

  function ApplyWork(s: State): State {
    match s.worker
    case ToLock | Woken => s.(holderE := Worker, worker := Testing)
    case Testing => if s.edfq == multiset{} then s.(holderE := Nobody, worker := Asleep) else s.(worker := Taking)
    case Taken(e) => s.(holderE := Nobody, worker := Working(e))
    case Working(e) => s.(holderF := Worker, worker := Storing(e))
    case Storing(e) => s.(fifoq := s.fifoq + [e], worker := Raising)
    case Raising => s.(flag := true, worker := Releasing)
    case Releasing => s.(holderF := Nobody, worker := ToLock)
    case Asleep | Taking => s
  }

  function Apply(s: State, c: Choice): State
    requires c.Begin? ==> c.proxy < |s.proxies|
    requires c.Run? ==> c.proxy < |s.proxies| && CanRun(s, s.proxies[c.proxy].pc)
  {
    match c
    case Begin(i, source, created) =>
      var e := Event(|s.began|, source, created);
      s.(proxies := s.proxies[i := Proxy(Begun(e), |s.delivered| + |s.fifoq|)], began := s.began + [e])
    case Run(i) => ApplyRun(s, i)
    case Work => ApplyWork(s)
    case Take(e) =>
      var rest := s.edfq - multiset{e};
      s.(edfq := rest, worker := Taken(e.item), pops := s.pops + [Pop(e.item, rest)])
    case Spurious => s.(worker := Woken)
  }

  ghost function RunFrom(s: State, choices: seq<Choice>): (r: Option<State>) {
    if choices == [] then Some(s)
    else
      var last := |choices| - 1;
      var before := RunFrom(s, choices[..last]);
      if before.Some? && Enabled(before.value, choices[last]) then Some(Apply(before.value, choices[last])) else None
  }

  ghost predicate Reachable(proxies: nat, choices: seq<Choice>, s: State) {
    RunFrom(Init(proxies), choices) == Some(s)
  }

  // ---------- One proxy thread ----------

  predicate HoldsE(pc: ProxyPc) {
    pc.Inserting? || pc.Signalling? || pc.Unlocking?
  }

  predicate HoldsF(pc: ProxyPc) {
    pc.Reading? || pc.Answered? || pc.Fronting? || pc.Flagging? || pc.Leaving?
  }

  predicate WorkerHoldsE(w: WorkerPc) {
    w.Testing? || w.Taking? || w.Taken?
  }

  predicate WorkerHoldsF(w: WorkerPc) {
    w.Storing? || w.Raising? || w.Releasing?
  }

  /** The event the proxy has taken out of the FIFO queue and not yet delivered. */
  function InProxy(pc: ProxyPc): seq<Event> {
    if pc.Flagging? || pc.Leaving? || pc.Delivering? then [pc.event] else []
  }

  /** The event the worker has taken out of the EDF queue and not yet stored. */
  function InWorker(w: WorkerPc): seq<Event> {
    if w.Taken? || w.Working? || w.Storing? then [w.event] else []
  }

  function Popped(pops: seq<Pop>): (events: seq<Event>)
    ensures |events| == |pops| && forall k :: 0 <= k < |pops| ==> events[k] == pops[k].event
  {
    if pops == [] then [] else Popped(pops[..|pops| - 1]) + [pops[|pops| - 1].event]
  }

  predicate Exclusive(s: State)
    requires |s.proxies| == 1
  {
    var pc := s.proxies[0].pc;
    && (s.holderE == ByProxy(0) <==> HoldsE(pc))
    && (s.holderE == Worker <==> WorkerHoldsE(s.worker))
    && (s.holderF == ByProxy(0) <==> HoldsF(pc))
    && (s.holderF == Worker <==> WorkerHoldsF(s.worker))
    && (s.holderE.ByProxy? ==> s.holderE.i == 0)
    && (s.holderF.ByProxy? ==> s.holderF.i == 0)
    && (s.worker.Taking? ==> s.edfq != multiset{})
  }

  /** The flag lags behind the queue only inside the critical sections that change the queue. */
  predicate FlagTells(s: State)
    requires |s.proxies| == 1
  {
    var pc := s.proxies[0].pc;
    && (pc.Flagging? ==> s.flag)
    && (s.worker.Raising? ==> s.fifoq != [])
    && (!pc.Flagging? && !s.worker.Raising? ==> (s.flag <==> s.fifoq != []))
  }

  /** After a positive answer the queue stays nonempty until the proxy takes from it;
      a negative answer is given with everything older delivered. */
  predicate AnswerHolds(s: State)
    requires |s.proxies| == 1
  {
    var p := s.proxies[0];
    && (p.pc.Answered? ==> (p.pc.nonempty <==> s.fifoq != []))
    && (p.pc.Popping? || p.pc.Fronting? ==> s.fifoq != [])
    && (!p.pc.Resting? ==> p.mark <= |s.delivered| + |InProxy(p.pc)| + |s.fifoq|)
    && (p.pc.Resting? ==> p.mark <= |s.delivered|)
  }

  /** Everything that has left the worker, in the order in which it left. */
  function Out(s: State): seq<Event>
    requires |s.proxies| == 1
  {
    s.delivered + InProxy(s.proxies[0].pc) + s.fifoq
  }

  predicate InOrder(s: State)
    requires |s.proxies| == 1
  {
    Popped(s.pops) == Out(s) + InWorker(s.worker)
  }

  ghost predicate LeastPopped(s: State) {
    forall i, x :: 0 <= i < |s.pops| && x in s.pops[i].left ==> Deadline(s.pops[i].event) <= x.key
  }

  ghost predicate Keyed(s: State) {
    forall x :: x in s.edfq ==> x == Queued(x.item)
  }

  /** The worker sleeps on a nonempty queue only until the signal that is about to come. */
  predicate NoLostWakeup(s: State)
    requires |s.proxies| == 1
  {
    s.worker.Asleep? && s.edfq != multiset{} ==> s.proxies[0].pc.Signalling?
  }

  /** What holds of the flags, the mutexes and the one proxy. */
  predicate Local(s: State) {
    |s.proxies| == 1 && Exclusive(s) && NoLostWakeup(s) && FlagTells(s) && AnswerHolds(s)
  }

  ghost predicate Inv(s: State) {
    Local(s) && InOrder(s) && LeastPopped(s) && Keyed(s)
  }

  /** The proxy is inserting its event, not yet draining. */
  predicate Inserts(pc: ProxyPc) {
    pc.Begun? || pc.Inserting? || pc.Signalling? || pc.Unlocking?
  }

  /** The proxy is looking at the flag. */
  predicate Asks(pc: ProxyPc) {
    pc.Asking? || pc.Reading? || pc.Answered?
  }

  /** The proxy takes an event out and delivers it. */
  predicate Drains(pc: ProxyPc) {
    pc.Popping? || pc.Fronting? || pc.Flagging? || pc.Leaving? || pc.Delivering?
  }

  lemma WorkKeepsExclusive(s: State)
    requires |s.proxies| == 1 && Exclusive(s) && Enabled(s, Work)
    ensures Exclusive(Apply(s, Work))
  {}

  lemma TakeKeepsExclusive(s: State, e: Entry<Event>)
    requires |s.proxies| == 1 && Exclusive(s) && Enabled(s, Take(e))
    ensures Exclusive(Apply(s, Take(e)))
  {}

  lemma WorkKeepsFlag(s: State)
    requires |s.proxies| == 1 && Exclusive(s) && FlagTells(s) && AnswerHolds(s) && Enabled(s, Work)
    ensures FlagTells(Apply(s, Work)) && AnswerHolds(Apply(s, Work))
  {}

  /** The proxy has been told that the queue is empty, and has not asked again. */
  predicate DoneDraining(pc: ProxyPc) {
    pc.Resting? || Inserts(pc) || (pc.Answered? && !pc.nonempty)
  }

  /** Is x the event of a push call that has not inserted it yet? */
  function InCall(pc: ProxyPc, x: Event): nat {
    if (pc.Begun? || pc.Inserting?) && pc.event == x then 1 else 0
  }

  /** The proxy's steps leave what was popped where it was or move it on in order. */
  predicate Keeps(s: State, t: State)
    requires |s.proxies| == |t.proxies| == 1
  {
    t.began == s.began && t.pops == s.pops && Out(t) == Out(s) && InWorker(t.worker) == InWorker(s.worker)
  }

  lemma InsertKeeps(s: State)
    requires Local(s) && Enabled(s, Run(0)) && Inserts(s.proxies[0].pc)
    ensures var t, pc := ApplyRun(s, 0), s.proxies[0].pc;
            && Local(t) && Keeps(s, t) && t.fifoq == s.fifoq
            && t.edfq == (if pc.Inserting? then s.edfq + multiset{Queued(pc.event)} else s.edfq)
            && forall x :: InCall(t.proxies[0].pc, x) == if pc.Inserting? then 0 else InCall(pc, x)
  {}

  lemma AskKeeps(s: State)
    requires Local(s) && Enabled(s, Run(0)) && Asks(s.proxies[0].pc)
    ensures var t, pc := ApplyRun(s, 0), s.proxies[0].pc;
            && Local(t) && Keeps(s, t) && t.edfq == s.edfq && t.fifoq == s.fifoq && !Inserts(t.proxies[0].pc)
            && (DoneDraining(t.proxies[0].pc) ==> if pc.Reading? then t.fifoq == [] else DoneDraining(pc))
  {}

  lemma DrainKeeps(s: State)
    requires Local(s) && Enabled(s, Run(0)) && Drains(s.proxies[0].pc)
    ensures var t := ApplyRun(s, 0);
            && Local(t) && Keeps(s, t) && t.edfq == s.edfq && !DoneDraining(t.proxies[0].pc)
  {}

  lemma WorkKeepsOut(s: State)
    requires |s.proxies| == 1 && Enabled(s, Work)
    ensures Out(Apply(s, Work)) + InWorker(Apply(s, Work).worker) == Out(s) + InWorker(s.worker)
  {}

  lemma RunKeeps(s: State)
    requires Inv(s) && Enabled(s, Run(0))
    ensures Inv(Apply(s, Run(0))) && Keeps(s, Apply(s, Run(0)))
  {
    if Inserts(s.proxies[0].pc) {
      InsertKeeps(s);
    } else if Asks(s.proxies[0].pc) {
      AskKeeps(s);
    } else {
      DrainKeeps(s);
    }
  }

  lemma WorkLeaves(s: State)
    requires Enabled(s, Work)
    ensures var t := ApplyWork(s);
            t.pops == s.pops && t.edfq == s.edfq && t.proxies == s.proxies && t.began == s.began
              && t.delivered == s.delivered
    ensures ApplyWork(s).worker.Asleep? ==> s.edfq == multiset{}
  {}

  lemma WorkKeeps(s: State)
    requires Inv(s) && Enabled(s, Work)
    ensures Inv(Apply(s, Work))
  {
    WorkLeaves(s);
    WorkKeepsExclusive(s);
    WorkKeepsFlag(s);
    WorkKeepsOut(s);
  }

  lemma TakeKeepsLeast(s: State, e: Entry<Event>)
    requires LeastPopped(s) && Keyed(s) && Enabled(s, Take(e))
    ensures LeastPopped(Apply(s, Take(e))) && Keyed(Apply(s, Take(e)))
  {
    var t := Apply(s, Take(e));
    assert e in s.edfq && e == Queued(e.item);
    forall x | x in t.edfq ensures x in s.edfq {}
    forall i, x | 0 <= i < |t.pops| && x in t.pops[i].left ensures Deadline(t.pops[i].event) <= x.key {
      if i < |s.pops| { assert t.pops[i] == s.pops[i]; }
    }
  }

  lemma TakeKeepsOrder(s: State, e: Entry<Event>)
    requires |s.proxies| == 1 && InOrder(s) && Enabled(s, Take(e))
    ensures InOrder(Apply(s, Take(e)))
  {}

  lemma TakeKeeps(s: State, e: Entry<Event>)
    requires Inv(s) && Enabled(s, Take(e))
    ensures Inv(Apply(s, Take(e)))
  {
    TakeKeepsExclusive(s, e);
    TakeKeepsLeast(s, e);
    TakeKeepsOrder(s, e);
  }

  lemma StepKeeps(s: State, c: Choice)
    requires Inv(s) && Enabled(s, c)
    ensures Inv(Apply(s, c))
  {
    match c
    case Begin(i, source, created) =>
    case Run(i) => RunKeeps(s);
    case Work => WorkKeeps(s);
    case Take(e) => TakeKeeps(s, e);
    case Spurious =>
  }

  lemma {:induction false} RunInv(choices: seq<Choice>, s: State)
    requires Reachable(1, choices, s)
    ensures Inv(s)
    decreases |choices|
  {
    if choices != [] {
      var last := |choices| - 1;
      var before := RunFrom(Init(1), choices[..last]).value;
      RunInv(choices[..last], before);
      StepKeeps(before, choices[last]);
    }
  }

  // ---------- What follows for whole runs ----------

  /** Whatever has been taken from the EDF queue is, in that order: delivered, in the proxy's
      hand, in the FIFO queue, with the worker. */
  lemma PoppedIsEverywhere(choices: seq<Choice>, s: State)
    requires Reachable(1, choices, s)
    ensures |s.proxies| == 1
    ensures Popped(s.pops) == s.delivered + InProxy(s.proxies[0].pc) + s.fifoq + InWorker(s.worker)
  {
    RunInv(choices, s);
  }

  /** The check-then-pop on the FIFO queue never finds it empty, and the flag is exact whenever
      the mutex of the queue is free. */
  lemma FlagIsExact(choices: seq<Choice>, s: State)
    requires Reachable(1, choices, s)
    ensures |s.proxies| == 1
    ensures s.proxies[0].pc.Popping? || s.proxies[0].pc.Fronting? ==> s.fifoq != []
    ensures s.holderF.Nobody? ==> (s.flag <==> s.fifoq != [])
    ensures s.worker.Taking? ==> s.edfq != multiset{}
  {
    RunInv(choices, s);
  }

  /** A spurious wakeup can come whenever the worker sleeps, and if there is nothing to do it has no
      effect: the worker tests again and goes back to sleep. */
  lemma SpuriousIsHarmless(choices: seq<Choice>, s: State)
    requires Reachable(1, choices, s) && s.worker.Asleep? && s.holderE.Nobody?
    ensures Enabled(s, Spurious)
    ensures var woken := Apply(s, Spurious);
            && Enabled(woken, Work) && Enabled(Apply(woken, Work), Work)
            && Apply(Apply(woken, Work), Work) == s
  {
    RunInv(choices, s);
  }

  predicate NoBegin(choices: seq<Choice>) {
    forall k :: 0 <= k < |choices| ==> !choices[k].Begin?
  }

  lemma StepInCall(s: State, c: Choice)
    requires |s.proxies| == 1 && Enabled(s, c) && !c.Begin?
    ensures |Apply(s, c).proxies| == 1 && Apply(s, c).proxies[0].mark == s.proxies[0].mark
    ensures Popped(s.pops) <= Popped(Apply(s, c).pops)
  {
    if c.Take? { assert Apply(s, c).pops[..|s.pops|] == s.pops; }
  }

  lemma {:induction false} StaysInCall(s: State, choices: seq<Choice>, t: State)
    requires Inv(s) && RunFrom(s, choices) == Some(t) && NoBegin(choices)
    ensures Inv(t) && t.proxies[0].mark == s.proxies[0].mark && Popped(s.pops) <= Popped(t.pops)
    decreases |choices|
  {
    if choices != [] {
      var last := |choices| - 1;
      var before := RunFrom(s, choices[..last]).value;
      StaysInCall(s, choices[..last], before);
      StepKeeps(before, choices[last]);
      StepInCall(before, choices[last]);
    }
  }

  /** Between calls, what was popped starts with what was delivered and what is in the queue. */
  lemma RestingPrefix(s: State)
    requires Inv(s) && s.proxies[0].pc.Resting?
    ensures s.delivered + s.fifoq <= Popped(s.pops) && s.delivered <= Popped(s.pops)
    ensures s.proxies[0].mark <= |s.delivered|
  {}

  lemma PrefixByLength(a: seq<Event>, b: seq<Event>, c: seq<Event>)
    requires a <= c && b <= c && |a| <= |b|
    ensures a <= b
  {}

  /** When a push call returns, every event that was in the FIFO queue when it began has been
      delivered, right after what had been delivered before. */
  lemma CallDrains(past: seq<Choice>, s: State, source: nat, created: int, choices: seq<Choice>, t: State)
    requires Reachable(1, past, s) && Enabled(s, Begin(0, source, created))
    requires RunFrom(Apply(s, Begin(0, source, created)), choices) == Some(t) && NoBegin(choices)
    requires |t.proxies| == 1 && t.proxies[0].pc.Resting?
    ensures s.delivered + s.fifoq <= t.delivered
  {
    RunInv(past, s);
    RestingPrefix(s);
    var begun := Apply(s, Begin(0, source, created));
    StepKeeps(s, Begin(0, source, created));
    StaysInCall(begun, choices, t);
    RestingPrefix(t);
    assert Popped(begun.pops) == Popped(s.pops);
    PrefixByLength(s.delivered + s.fifoq, t.delivered, Popped(t.pops));
  }

  /** Events are delivered in the order in which they were popped, and an event that was
      already queued when an earlier delivered one was popped has no earlier deadline. */
  lemma DeliveredByDeadline(choices: seq<Choice>, s: State, i: nat, k: nat)
    requires Reachable(1, choices, s) && i < k < |s.delivered|
    ensures i < |s.pops| && s.delivered[i] == s.pops[i].event
    ensures Queued(s.delivered[k]) in s.pops[i].left ==> Deadline(s.delivered[i]) <= Deadline(s.delivered[k])
  {
    RunInv(choices, s);
    assert Popped(s.pops)[i] == s.delivered[i];
  }

  // ---------- From the calls to the EDF queue ----------

  function Times(events: seq<Event>, x: Event): nat {
    if events == [] then 0 else Times(events[..|events| - 1], x) + if events[|events| - 1] == x then 1 else 0
  }

  /** Each event of a call is still in the call, in the EDF queue, or popped. */
  predicate Balance(s: State, x: Event)
    requires |s.proxies| == 1
  {
    Times(s.began, x) == InCall(s.proxies[0].pc, x) + s.edfq[Queued(x)] + Times(Popped(s.pops), x)
  }

  lemma OneMore(events: seq<Event>, e: Event, x: Event)
    ensures Times(events + [e], x) == Times(events, x) + if e == x then 1 else 0
  {
    assert (events + [e])[..|events|] == events;
  }

  lemma OneMoreQueued(q: multiset<Entry<Event>>, e: Event, x: Event)
    ensures (q + multiset{Queued(e)})[Queued(x)] == q[Queued(x)] + if e == x then 1 else 0
  {}

  lemma TakeMoves(s: State, e: Entry<Event>, x: Event)
    requires Keyed(s) && Enabled(s, Take(e))
    ensures var t := Apply(s, Take(e));
            && t.began == s.began && t.proxies == s.proxies
            && Times(Popped(t.pops), x) == Times(Popped(s.pops), x) + (if e.item == x then 1 else 0)
            && s.edfq[Queued(x)] == t.edfq[Queued(x)] + if e.item == x then 1 else 0
  {
    var t := Apply(s, Take(e));
    assert t.pops[..|s.pops|] == s.pops;
    OneMore(Popped(s.pops), e.item, x);
    assert s.edfq == t.edfq + multiset{Queued(e.item)};
    OneMoreQueued(t.edfq, e.item, x);
  }

  lemma RunKeepsBalance(s: State, x: Event)
    requires Local(s) && Balance(s, x) && Enabled(s, Run(0))
    ensures |ApplyRun(s, 0).proxies| == 1 && Balance(ApplyRun(s, 0), x)
  {
    var pc := s.proxies[0].pc;
    if Inserts(pc) {
      InsertKeeps(s);
      if pc.Inserting? { OneMoreQueued(s.edfq, pc.event, x); }
    } else if Asks(pc) {
      AskKeeps(s);
    } else {
      DrainKeeps(s);
    }
  }

  lemma BeginKeepsBalance(s: State, source: nat, created: int, x: Event)
    requires |s.proxies| == 1 && Balance(s, x) && Enabled(s, Begin(0, source, created))
    ensures Balance(Apply(s, Begin(0, source, created)), x)
  {
    OneMore(s.began, Event(|s.began|, source, created), x);
  }

  lemma StepKeepsBalance(s: State, c: Choice, x: Event)
    requires Local(s) && Keyed(s) && Balance(s, x) && Enabled(s, c)
    ensures |Apply(s, c).proxies| == 1 && Balance(Apply(s, c), x)
  {
    match c
    case Begin(i, source, created) => BeginKeepsBalance(s, source, created, x);
    case Run(i) => RunKeepsBalance(s, x);
    case Take(e) => TakeMoves(s, e, x);
    case Work => WorkLeaves(s);
    case Spurious =>
  }

  lemma {:induction false} RunBalance(choices: seq<Choice>, s: State, x: Event)
    requires Reachable(1, choices, s)
    ensures |s.proxies| == 1 && Balance(s, x)
    decreases |choices|
  {
    if choices != [] {
      var last := |choices| - 1;
      var before := RunFrom(Init(1), choices[..last]).value;
      RunInv(choices[..last], before);
      RunBalance(choices[..last], before, x);
      StepKeepsBalance(before, choices[last], x);
    }
  }

  /** The events of the push calls of a run, read off the choices: numbered from 0, each with the
      source and the creation time that the caller gives. */
  function Arrivals(choices: seq<Choice>): seq<Event> {
    if choices == [] then []
    else
      var before, c := Arrivals(choices[..|choices| - 1]), choices[|choices| - 1];
      if c.Begin? then before + [Event(|before|, c.source, c.created)] else before
  }

  lemma StepKeepsBegan(s: State, c: Choice)
    requires Enabled(s, c) && !c.Begin?
    ensures Apply(s, c).began == s.began
  {}

  /** Every call carries what its caller gave, with any number of proxy threads. */
  lemma {:induction false} CallsAreArrivals(proxies: nat, choices: seq<Choice>, s: State)
    requires Reachable(proxies, choices, s)
    ensures s.began == Arrivals(choices)
    decreases |choices|
  {
    if choices != [] {
      var last := |choices| - 1;
      var before := RunFrom(Init(proxies), choices[..last]).value;
      CallsAreArrivals(proxies, choices[..last], before);
      if !choices[last].Begin? { StepKeepsBegan(before, choices[last]); }
    }
  }

  /** Nobody can step: only a new call or a spurious wakeup can happen. */
  ghost predicate Quiescent(s: State) {
    && (forall i: nat :: !Enabled(s, Run(i)))
    && !Enabled(s, Work)
    && forall e :: !Enabled(s, Take(e))
  }

  lemma SomethingToTake(s: State)
    requires s.worker.Taking? && s.edfq != multiset{}
    ensures exists e :: Enabled(s, Take(e))
  {
    var e := HasLeast(s.edfq);
    assert Enabled(s, Take(e));
  }

  lemma AtRest(s: State)
    requires Inv(s) && Quiescent(s)
    ensures s.worker.Asleep? && s.edfq == multiset{} && s.proxies[0].pc.Resting?
    ensures Popped(s.pops) == s.delivered + s.fifoq
  {
    assert !Enabled(s, Run(0));
    if s.worker.Taking? { SomethingToTake(s); }
    assert Out(s) == s.delivered + s.fifoq;
  }

  /** Where a run comes to rest, the EDF queue is empty and the worker asleep, no call is under
      way, and the events of all calls are delivered or left in the FIFO queue, in the order in
      which they were popped. */
  lemma RestLeavesFifo(choices: seq<Choice>, s: State)
    requires Reachable(1, choices, s) && Quiescent(s)
    ensures s.worker.Asleep? && s.edfq == multiset{} && |s.proxies| == 1 && s.proxies[0].pc.Resting?
    ensures Popped(s.pops) == s.delivered + s.fifoq
    ensures forall x :: Times(Arrivals(choices), x) == Times(s.delivered + s.fifoq, x)
  {
    RunInv(choices, s);
    AtRest(s);
    CallsAreArrivals(1, choices, s);
    forall x ensures Times(Arrivals(choices), x) == Times(s.delivered + s.fifoq, x) {
      RunBalance(choices, s, x);
    }
  }

  // ---------- What is left behind ----------

  function LateAfter(s: State, c: Choice, late: nat): nat {
    if c.Run? && c.proxy < |s.proxies| && s.proxies[c.proxy].pc.Reading? then 0
    else if c.Work? && s.worker.Storing? then late + 1
    else late
  }

  /** How many events the worker has stored since the proxy last read the flag. */
  ghost function LateStores(choices: seq<Choice>): nat {
    if choices == [] then 0
    else
      var last := |choices| - 1;
      var before := RunFrom(Init(1), choices[..last]);
      if before.Some? then LateAfter(before.value, choices[last], LateStores(choices[..last])) else 0
  }

  /** Then the queue holds what was stored since. */
  predicate OnlyLate(s: State, late: nat)
    requires |s.proxies| == 1
  {
    DoneDraining(s.proxies[0].pc) ==> |s.fifoq| == late
  }

  lemma RunKeepsLate(s: State, late: nat)
    requires Local(s) && OnlyLate(s, late) && Enabled(s, Run(0))
    ensures |ApplyRun(s, 0).proxies| == 1 && OnlyLate(ApplyRun(s, 0), LateAfter(s, Run(0), late))
  {
    var pc := s.proxies[0].pc;
    if Inserts(pc) { InsertKeeps(s); } else if Asks(pc) { AskKeeps(s); } else { DrainKeeps(s); }
  }

  lemma WorkKeepsLate(s: State, late: nat)
    requires Local(s) && OnlyLate(s, late) && Enabled(s, Work)
    ensures |ApplyWork(s).proxies| == 1 && OnlyLate(ApplyWork(s), LateAfter(s, Work, late))
  {}

  lemma StepKeepsLate(s: State, c: Choice, late: nat)
    requires Inv(s) && OnlyLate(s, late) && Enabled(s, c)
    ensures |Apply(s, c).proxies| == 1 && OnlyLate(Apply(s, c), LateAfter(s, c, late))
  {
    match c
    case Run(i) => RunKeepsLate(s, late);
    case Work => WorkKeepsLate(s, late);
    case _ =>
  }

  lemma {:induction false} RunLate(choices: seq<Choice>, s: State)
    requires Reachable(1, choices, s)
    ensures Inv(s) && OnlyLate(s, LateStores(choices))
    decreases |choices|
  {
    RunInv(choices, s);
    if choices != [] {
      var last := |choices| - 1;
      var before := RunFrom(Init(1), choices[..last]).value;
      RunLate(choices[..last], before);
      StepKeepsLate(before, choices[last], LateStores(choices[..last]));
    }
  }

  lemma {:induction false} TimesOfSum(a: seq<Event>, b: seq<Event>, x: Event)
    ensures Times(a + b, x) == Times(a, x) + Times(b, x)
    decreases |b|
  {
    if b == [] {
      assert a + b == a;
    } else {
      assert (a + b)[..|a + b| - 1] == a + b[..|b| - 1];
      TimesOfSum(a, b[..|b| - 1], x);
    }
  }

  /** Where a run comes to rest, exactly the events stored after the last reading of the flag are
      left behind; so every event of a call is delivered if and only if nothing was stored since. */
  lemma LeftBehindExactly(choices: seq<Choice>, s: State)
    requires Reachable(1, choices, s) && Quiescent(s)
    ensures LateStores(choices) <= |s.pops|
    ensures s.delivered == Popped(s.pops)[..|s.pops| - LateStores(choices)]
    ensures s.fifoq == Popped(s.pops)[|s.pops| - LateStores(choices)..]
    ensures (forall x :: Times(Arrivals(choices), x) == Times(s.delivered, x)) <==> LateStores(choices) == 0
  {
    RunLate(choices, s);
    RestLeavesFifo(choices, s);
    if s.fifoq == [] {
      assert s.delivered + s.fifoq == s.delivered;
    } else {
      var x := s.fifoq[|s.fifoq| - 1];
      TimesOfSum(s.delivered, s.fifoq, x);
      assert Times(s.fifoq, x) > 0;
    }
  }

  // ---------- Every run comes to rest ----------

  /** Steps of the threads themselves: no new call, no spurious wakeup. */
  predicate Own(c: Choice) {
    c.Run? || c.Work? || c.Take?
  }

  function ProxyRank(pc: ProxyPc): nat {
    match pc
    case Fronting => 0
    case Popping | Resting => 1
    case Answered(_) => 2
    case Reading => 3
    case Asking => 4
    case Delivering(_) => 5
    case Leaving(_) => 6
    case Flagging(_) => 7
    case Unlocking => 5
    case Signalling => 9
    case Inserting(_) => 26
    case Begun(_) => 27
  }

  function WorkerRank(w: WorkerPc): nat {
    match w
    case Asleep => 0
    case Taking => 1
    case Testing => 2
    case ToLock | Woken => 3
    case Releasing => 4
    case Raising => 5
    case Storing(_) => 14
    case Working(_) => 15
    case Taken(_) => 16
  }

  function ProxiesRank(proxies: seq<Proxy>): nat {
    if proxies == [] then 0 else ProxiesRank(proxies[..|proxies| - 1]) + ProxyRank(proxies[|proxies| - 1].pc)
  }

  /** An upper bound on the number of steps the threads can still make. */
  function Measure(s: State): nat {
    ProxiesRank(s.proxies) + 16 * |s.edfq| + 8 * |s.fifoq| + WorkerRank(s.worker)
  }

  lemma {:induction false} RankOfUpdate(proxies: seq<Proxy>, i: nat, p: Proxy)
    requires i < |proxies|
    ensures ProxiesRank(proxies[i := p]) == ProxiesRank(proxies) - ProxyRank(proxies[i].pc) + ProxyRank(p.pc)
  {
    var last := |proxies| - 1;
    if i == last {
      assert proxies[i := p][..last] == proxies[..last];
    } else {
      RankOfUpdate(proxies[..last], i, p);
      assert proxies[i := p][..last] == proxies[..last][i := p];
    }
  }

  /** What a proxy step gives up in rank pays for what it adds to the queues and the worker. */
  predicate Pays(s: State, i: nat, t: State) {
    && i < |s.proxies| == |t.proxies| && t.proxies == s.proxies[i := t.proxies[i]]
    && ProxyRank(t.proxies[i].pc) + 16 * |t.edfq| + 8 * |t.fifoq| + WorkerRank(t.worker)
       < ProxyRank(s.proxies[i].pc) + 16 * |s.edfq| + 8 * |s.fifoq| + WorkerRank(s.worker)
  }

  lemma InsertPays(s: State, i: nat)
    requires Enabled(s, Run(i)) && Inserts(s.proxies[i].pc)
    ensures Pays(s, i, ApplyRun(s, i))
  {}

  lemma AskPays(s: State, i: nat)
    requires Enabled(s, Run(i)) && Asks(s.proxies[i].pc)
    ensures Pays(s, i, ApplyRun(s, i))
  {}

  lemma DrainPays(s: State, i: nat)
    requires Enabled(s, Run(i)) && Drains(s.proxies[i].pc)
    ensures Pays(s, i, ApplyRun(s, i))
  {}

  lemma StepDecreases(s: State, c: Choice)
    requires Enabled(s, c) && Own(c)
    ensures Measure(Apply(s, c)) < Measure(s)
  {
    match c
    case Run(i) =>
      if Inserts(s.proxies[i].pc) {
        InsertPays(s, i);
      } else if Asks(s.proxies[i].pc) {
        AskPays(s, i);
      } else {
        DrainPays(s, i);
      }
      RankOfUpdate(s.proxies, i, Apply(s, c).proxies[i]);
    case Take(e) => assert |s.edfq - multiset{e}| == |s.edfq| - 1;
    case Work =>
  }

  lemma {:induction false} RunDecreases(s: State, choices: seq<Choice>, t: State)
    requires RunFrom(s, choices) == Some(t)
    requires forall k :: 0 <= k < |choices| ==> Own(choices[k])
    ensures |choices| + Measure(t) <= Measure(s)
    decreases |choices|
  {
    if choices != [] {
      var last := |choices| - 1;
      var before := RunFrom(s, choices[..last]).value;
      RunDecreases(s, choices[..last], before);
      StepDecreases(before, choices[last]);
    }
  }

  lemma {:induction false} RunAppend(s: State, a: seq<Choice>, b: seq<Choice>)
    requires RunFrom(s, a).Some?
    ensures RunFrom(s, a + b) == RunFrom(RunFrom(s, a).value, b)
    decreases |b|
  {
    if b == [] {
      assert a + b == a;
    } else {
      assert (a + b)[..|a + b| - 1] == a + b[..|b| - 1];
      RunAppend(s, a, b[..|b| - 1]);
    }
  }

  /** From any reachable state, a run without new calls and spurious wakeups has at most `Measure`
      steps, and where it cannot go on every push call has returned. */
  lemma EveryRunRests(past: seq<Choice>, s: State, choices: seq<Choice>, t: State)
    requires Reachable(1, past, s) && RunFrom(s, choices) == Some(t)
    requires forall k :: 0 <= k < |choices| ==> Own(choices[k])
    ensures |choices| <= Measure(s)
    ensures Quiescent(t) ==> |t.proxies| == 1 && t.proxies[0].pc.Resting? && t.worker.Asleep? && t.edfq == multiset{}
  {
    RunDecreases(s, choices, t);
    RunAppend(Init(1), past, choices);
    if Quiescent(t) { RestLeavesFifo(past + choices, t); }
  }
}
