/** Two runs of hw7.  With two or more proxy threads the FIFO queue can be emptied between the check
    and the pop of one of them, which are separate critical sections.  And with one proxy thread
    the last event stays in the FIFO queue until somebody calls push again. */
module FifoRuns {
  import opened Events
  import opened FifoDispatch

  ghost predicate Closed(proxies: nat, reach: State -> bool) {
    && reach(Init(proxies))
    && forall s: State, c: Choice :: reach(s) && Enabled(s, c) ==> reach(Apply(s, c))
  }

  ghost predicate Step(s: State, c: Choice, t: State) {
    Enabled(s, c) && t == Apply(s, c)
  }

  lemma Go(proxies: nat, reach: State -> bool, s: State, c: Choice, t: State)
    requires Closed(proxies, reach) && reach(s) && Step(s, c, t)
    ensures reach(t)
  {}

  /** What lies in every closed set is reached by some run. */
  lemma InAllClosed(proxies: nat, t: State)
    requires forall reach: State -> bool :: Closed(proxies, reach) ==> reach(t)
    ensures exists choices :: Reachable(proxies, choices, t)
  {
    var reach := (s: State) => exists choices :: Reachable(proxies, choices, s);
    assert reach(Init(proxies)) by { assert Reachable(proxies, [], Init(proxies)); }
    forall s: State, c: Choice | reach(s) && Enabled(s, c) ensures reach(Apply(s, c)) {
      var choices :| Reachable(proxies, choices, s);
      assert (choices + [c])[..|choices|] == choices;
      assert Reachable(proxies, choices + [c], Apply(s, c));
    }
    assert Closed(proxies, reach);
  }

  // ---------- Two proxy threads ----------

  const FIRST := Event(0, 0, 0)
  const SECOND := Event(1, 0, 0)

  /** The first call inserts its event. */
  function Inserting1(holder: Holder, queued: bool, pc: ProxyPc): State {
    State(holder, if queued then multiset{Queued(FIRST)} else multiset{}, Nobody, [], false, ToLock,
          [Proxy(pc, 0), Proxy(Resting, 0)], [FIRST], [], [])
  }

  lemma FirstInserts(reach: State -> bool)
    requires Closed(2, reach)
    ensures reach(Inserting1(Nobody, true, Asking))
  {
    assert Init(2).proxies == [Proxy(Resting, 0), Proxy(Resting, 0)];
    Go(2, reach, Init(2), Begin(0, 0, 0), Inserting1(Nobody, false, Begun(FIRST)));
    Go(2, reach, Inserting1(Nobody, false, Begun(FIRST)), Run(0), Inserting1(ByProxy(0), false, Inserting(FIRST)));
    Go(2, reach, Inserting1(ByProxy(0), false, Inserting(FIRST)), Run(0), Inserting1(ByProxy(0), true, Signalling));
    Go(2, reach, Inserting1(ByProxy(0), true, Signalling), Run(0), Inserting1(ByProxy(0), true, Unlocking));
    Go(2, reach, Inserting1(ByProxy(0), true, Unlocking), Run(0), Inserting1(Nobody, true, Asking));
  }

  /** The worker takes the event ... */
  function Serving(holder: Holder, queued: bool, w: WorkerPc): State {
    State(holder, if queued then multiset{Queued(FIRST)} else multiset{}, Nobody, [], false, w,
          [Proxy(Asking, 0), Proxy(Resting, 0)], [FIRST], if queued then [] else [Pop(FIRST, multiset{})], [])
  }

  lemma WorkerTakes(reach: State -> bool)
    requires Closed(2, reach)
    ensures reach(Serving(Nobody, false, Working(FIRST)))
  {
    FirstInserts(reach);
    Go(2, reach, Serving(Nobody, true, ToLock), Work, Serving(Worker, true, Testing));
    Go(2, reach, Serving(Worker, true, Testing), Work, Serving(Worker, true, Taking));
    Go(2, reach, Serving(Worker, true, Taking), Take(Queued(FIRST)), Serving(Worker, false, Taken(FIRST)));
    Go(2, reach, Serving(Worker, false, Taken(FIRST)), Work, Serving(Nobody, false, Working(FIRST)));
  }

  /** ... and stores it in the FIFO queue. */
  function Stored(holder: Holder, fifoq: seq<Event>, flag: bool, w: WorkerPc, pc: ProxyPc): State {
    State(Nobody, multiset{}, holder, fifoq, flag, w, [Proxy(pc, 0), Proxy(Resting, 0)], [FIRST],
          [Pop(FIRST, multiset{})], [])
  }

  lemma WorkerStores(reach: State -> bool)
    requires Closed(2, reach)
    ensures reach(Stored(Nobody, [FIRST], true, ToLock, Asking))
  {
    WorkerTakes(reach);
    Go(2, reach, Serving(Nobody, false, Working(FIRST)), Work, Stored(Worker, [], false, Storing(FIRST), Asking));
    Go(2, reach, Stored(Worker, [], false, Storing(FIRST), Asking), Work,
       Stored(Worker, [FIRST], false, Raising, Asking));
    Go(2, reach, Stored(Worker, [FIRST], false, Raising, Asking), Work,
       Stored(Worker, [FIRST], true, Releasing, Asking));
    Go(2, reach, Stored(Worker, [FIRST], true, Releasing, Asking), Work, Stored(Nobody, [FIRST], true, ToLock, Asking));
  }

  /** The second call inserts its event while the first is about to pop. */
  function Both(holderE: Holder, queued: bool, holderF: Holder, pc: ProxyPc): State {
    State(holderE, if queued then multiset{Queued(SECOND)} else multiset{}, holderF, [FIRST], true, ToLock,
          [Proxy(Popping, 0), Proxy(pc, 1)], [FIRST, SECOND], [Pop(FIRST, multiset{})], [])
  }

  lemma BothInsert(reach: State -> bool)
    requires Closed(2, reach) && reach(Both(Nobody, false, Nobody, Begun(SECOND)))
    ensures reach(Both(Nobody, true, Nobody, Asking))
  {
    Go(2, reach, Both(Nobody, false, Nobody, Begun(SECOND)), Run(1),
       Both(ByProxy(1), false, Nobody, Inserting(SECOND)));
    Go(2, reach, Both(ByProxy(1), false, Nobody, Inserting(SECOND)), Run(1),
       Both(ByProxy(1), true, Nobody, Signalling));
    Go(2, reach, Both(ByProxy(1), true, Nobody, Signalling), Run(1), Both(ByProxy(1), true, Nobody, Unlocking));
    Go(2, reach, Both(ByProxy(1), true, Nobody, Unlocking), Run(1), Both(Nobody, true, Nobody, Asking));
  }

  lemma SecondInserts(reach: State -> bool)
    requires Closed(2, reach)
    ensures reach(Both(Nobody, true, Nobody, Asking))
  {
    WorkerStores(reach);
    Go(2, reach, Stored(Nobody, [FIRST], true, ToLock, Asking), Run(0),
       Stored(ByProxy(0), [FIRST], true, ToLock, Reading));
    Go(2, reach, Stored(ByProxy(0), [FIRST], true, ToLock, Reading), Run(0),
       Stored(ByProxy(0), [FIRST], true, ToLock, Answered(true)));
    Go(2, reach, Stored(ByProxy(0), [FIRST], true, ToLock, Answered(true)), Run(0),
       Stored(Nobody, [FIRST], true, ToLock, Popping));
    Go(2, reach, Stored(Nobody, [FIRST], true, ToLock, Popping), Begin(1, 0, 0),
       Both(Nobody, false, Nobody, Begun(SECOND)));
    BothInsert(reach);
  }

  lemma BothPopping(reach: State -> bool)
    requires Closed(2, reach)
    ensures reach(Both(Nobody, true, Nobody, Popping))
  {
    SecondInserts(reach);
    Go(2, reach, Both(Nobody, true, Nobody, Asking), Run(1), Both(Nobody, true, ByProxy(1), Reading));
    Go(2, reach, Both(Nobody, true, ByProxy(1), Reading), Run(1), Both(Nobody, true, ByProxy(1), Answered(true)));
    Go(2, reach, Both(Nobody, true, ByProxy(1), Answered(true)), Run(1), Both(Nobody, true, Nobody, Popping));
  }

  /** The first proxy pops the only event, and the second goes on to pop as well. */
  function Emptied(holder: Holder, fifoq: seq<Event>, flag: bool, pc0: ProxyPc, pc1: ProxyPc): State {
    State(Nobody, multiset{Queued(SECOND)}, holder, fifoq, flag, ToLock, [Proxy(pc0, 0), Proxy(pc1, 1)],
          [FIRST, SECOND], [Pop(FIRST, multiset{})], [])
  }

  lemma SecondFindsNothing(reach: State -> bool)
    requires Closed(2, reach)
    ensures reach(Emptied(ByProxy(1), [], false, Delivering(FIRST), Fronting))
  {
    BothPopping(reach);
    Go(2, reach, Emptied(Nobody, [FIRST], true, Popping, Popping), Run(0),
       Emptied(ByProxy(0), [FIRST], true, Fronting, Popping));
    Go(2, reach, Emptied(ByProxy(0), [FIRST], true, Fronting, Popping), Run(0),
       Emptied(ByProxy(0), [], true, Flagging(FIRST), Popping));
    Go(2, reach, Emptied(ByProxy(0), [], true, Flagging(FIRST), Popping), Run(0),
       Emptied(ByProxy(0), [], false, Leaving(FIRST), Popping));
    Go(2, reach, Emptied(ByProxy(0), [], false, Leaving(FIRST), Popping), Run(0),
       Emptied(Nobody, [], false, Delivering(FIRST), Popping));
    Go(2, reach, Emptied(Nobody, [], false, Delivering(FIRST), Popping), Run(1),
       Emptied(ByProxy(1), [], false, Delivering(FIRST), Fronting));
  }

  /** Some proxy is about to take the front of the FIFO queue, and there is none. */
  predicate PopsEmpty(s: State) {
    s.fifoq == [] && exists i :: 0 <= i < |s.proxies| && s.proxies[i].pc.Fronting?
  }

  ghost predicate CanPopEmpty(proxies: nat) {
    exists choices, s :: Reachable(proxies, choices, s) && PopsEmpty(s)
  }

  lemma ThisPopsEmpty(proxies: nat, choices: seq<Choice>, s: State)
    requires Reachable(proxies, choices, s) && PopsEmpty(s)
    ensures CanPopEmpty(proxies)
  {}

  /** With two proxy threads some run takes the front of an empty FIFO queue. */
  lemma EmptyPopWithTwo()
    ensures CanPopEmpty(2)
  {
    var bad := Emptied(ByProxy(1), [], false, Delivering(FIRST), Fronting);
    forall reach: State -> bool | Closed(2, reach) ensures reach(bad) {
      SecondFindsNothing(reach);
    }
    InAllClosed(2, bad);
    var choices :| Reachable(2, choices, bad);
    assert bad.proxies[1].pc.Fronting?;
    ThisPopsEmpty(2, choices, bad);
  }

  // ---------- Any number of proxy threads ----------

  function AtRest(more: nat): seq<Proxy> {
    seq(more, _ => Proxy(Resting, 0))
  }

  /** The same state with more proxies that never call push. */
  function Widen(s: State, more: nat): State {
    s.(proxies := s.proxies + AtRest(more))
  }

  lemma WidenedRun(s: State, i: nat, more: nat)
    requires Enabled(s, Run(i))
    ensures Enabled(Widen(s, more), Run(i)) && ApplyRun(Widen(s, more), i) == Widen(ApplyRun(s, i), more)
  {
    var t, pc := Widen(s, more), s.proxies[i].pc;
    assert t.proxies[i] == s.proxies[i];
    var p := ApplyRun(s, i).proxies[i];
    assert ApplyRun(s, i).proxies == s.proxies[i := p];
    assert t.proxies[i := p] == s.proxies[i := p] + AtRest(more);
  }

  lemma WidenedStep(s: State, c: Choice, more: nat)
    requires Enabled(s, c)
    ensures Enabled(Widen(s, more), c) && Apply(Widen(s, more), c) == Widen(Apply(s, c), more)
  {
    match c
    case Run(i) => WidenedRun(s, i, more);
    case Begin(i, source, created) =>
      var p := Apply(s, c).proxies[i];
      assert (s.proxies + AtRest(more))[i := p] == s.proxies[i := p] + AtRest(more);
    case _ =>
  }

  /** Whatever some proxies can do, they can do while others rest. */
  lemma {:induction false} WidenedReach(proxies: nat, choices: seq<Choice>, s: State, more: nat)
    requires Reachable(proxies, choices, s)
    ensures Reachable(proxies + more, choices, Widen(s, more))
    decreases |choices|
  {
    if choices == [] {
      assert Widen(Init(proxies), more).proxies == Init(proxies + more).proxies;
    } else {
      var last := |choices| - 1;
      var before := RunFrom(Init(proxies), choices[..last]).value;
      WidenedReach(proxies, choices[..last], before, more);
      WidenedStep(before, choices[last], more);
    }
  }

  lemma StepSameProxies(s: State, c: Choice)
    requires Enabled(s, c)
    ensures |Apply(s, c).proxies| == |s.proxies|
  {}

  lemma {:induction false} SameProxies(proxies: nat, choices: seq<Choice>, s: State)
    requires Reachable(proxies, choices, s)
    ensures |s.proxies| == proxies
    decreases |choices|
  {
    if choices != [] {
      var last := |choices| - 1;
      var before := RunFrom(Init(proxies), choices[..last]).value;
      SameProxies(proxies, choices[..last], before);
      StepSameProxies(before, choices[last]);
    }
  }

  lemma WidenedPop(s: State, more: nat)
    requires PopsEmpty(s)
    ensures PopsEmpty(Widen(s, more))
  {
    var i :| 0 <= i < |s.proxies| && s.proxies[i].pc.Fronting?;
    assert Widen(s, more).proxies[i].pc.Fronting?;
  }

  lemma NoEmptyPopWithFewer(proxies: nat, choices: seq<Choice>, s: State)
    requires proxies < 2 && Reachable(proxies, choices, s)
    ensures !PopsEmpty(s)
  {
    SameProxies(proxies, choices, s);
    if proxies == 1 { FlagIsExact(choices, s); }
  }

  lemma WidenedCanPop(choices: seq<Choice>, s: State, more: nat)
    requires Reachable(2, choices, s) && PopsEmpty(s)
    ensures CanPopEmpty(2 + more)
  {
    WidenedReach(2, choices, s, more);
    WidenedPop(s, more);
    ThisPopsEmpty(2 + more, choices, Widen(s, more));
  }

  lemma EmptyPopWithMore(proxies: nat)
    requires proxies >= 2
    ensures CanPopEmpty(proxies)
  {
    EmptyPopWithTwo();
    var choices, s :| Reachable(2, choices, s) && PopsEmpty(s);
    WidenedCanPop(choices, s, proxies - 2);
  }

  /** The drain loop can pop an empty FIFO queue if and only if there are two or more proxy
      threads. */
  lemma EmptyPopExactly(proxies: nat)
    ensures CanPopEmpty(proxies) <==> proxies >= 2
  {
    if proxies >= 2 {
      EmptyPopWithMore(proxies);
    } else {
      forall choices, s | Reachable(proxies, choices, s) ensures !PopsEmpty(s) {
        NoEmptyPopWithFewer(proxies, choices, s);
      }
    }
  }

  // ---------- One proxy thread ----------

  function Calling(holder: Holder, queued: bool, pc: ProxyPc): State {
    State(holder, if queued then multiset{Queued(FIRST)} else multiset{}, Nobody, [], false, ToLock, [Proxy(pc, 0)],
          [FIRST], [], [])
  }

  /** The flag is down, so the call returns at once. */
  function Returning(holder: Holder, pc: ProxyPc): State {
    State(Nobody, multiset{Queued(FIRST)}, holder, [], false, ToLock, [Proxy(pc, 0)], [FIRST], [], [])
  }

  lemma CallInserts(reach: State -> bool)
    requires Closed(1, reach)
    ensures reach(Returning(Nobody, Asking))
  {
    assert Init(1).proxies == [Proxy(Resting, 0)];
    Go(1, reach, Init(1), Begin(0, 0, 0), Calling(Nobody, false, Begun(FIRST)));
    Go(1, reach, Calling(Nobody, false, Begun(FIRST)), Run(0), Calling(ByProxy(0), false, Inserting(FIRST)));
    Go(1, reach, Calling(ByProxy(0), false, Inserting(FIRST)), Run(0), Calling(ByProxy(0), true, Signalling));
    Go(1, reach, Calling(ByProxy(0), true, Signalling), Run(0), Calling(ByProxy(0), true, Unlocking));
    Go(1, reach, Calling(ByProxy(0), true, Unlocking), Run(0), Returning(Nobody, Asking));
  }

  lemma CallReturns(reach: State -> bool)
    requires Closed(1, reach)
    ensures reach(Returning(Nobody, Resting))
  {
    CallInserts(reach);
    Go(1, reach, Returning(Nobody, Asking), Run(0), Returning(ByProxy(0), Reading));
    Go(1, reach, Returning(ByProxy(0), Reading), Run(0), Returning(ByProxy(0), Answered(false)));
    Go(1, reach, Returning(ByProxy(0), Answered(false)), Run(0), Returning(Nobody, Resting));
  }

  /** Only then does the worker get to the event. */
  function Alone(holder: Holder, queued: bool, w: WorkerPc): State {
    State(holder, if queued then multiset{Queued(FIRST)} else multiset{}, Nobody, [], false, w, [Proxy(Resting, 0)],
          [FIRST], if queued then [] else [Pop(FIRST, multiset{})], [])
  }

  function Late(holderE: Holder, holderF: Holder, fifoq: seq<Event>, flag: bool, w: WorkerPc): State {
    State(holderE, multiset{}, holderF, fifoq, flag, w, [Proxy(Resting, 0)], [FIRST], [Pop(FIRST, multiset{})], [])
  }

  lemma WorkerIsLate(reach: State -> bool)
    requires Closed(1, reach)
    ensures reach(Late(Nobody, Nobody, [FIRST], true, ToLock))
  {
    CallReturns(reach);
    Go(1, reach, Alone(Nobody, true, ToLock), Work, Alone(Worker, true, Testing));
    Go(1, reach, Alone(Worker, true, Testing), Work, Alone(Worker, true, Taking));
    Go(1, reach, Alone(Worker, true, Taking), Take(Queued(FIRST)), Alone(Worker, false, Taken(FIRST)));
    Go(1, reach, Alone(Worker, false, Taken(FIRST)), Work, Alone(Nobody, false, Working(FIRST)));
    Go(1, reach, Alone(Nobody, false, Working(FIRST)), Work, Late(Nobody, Worker, [], false, Storing(FIRST)));
    Go(1, reach, Late(Nobody, Worker, [], false, Storing(FIRST)), Work, Late(Nobody, Worker, [FIRST], false, Raising));
    Go(1, reach, Late(Nobody, Worker, [FIRST], false, Raising), Work, Late(Nobody, Worker, [FIRST], true, Releasing));
    Go(1, reach, Late(Nobody, Worker, [FIRST], true, Releasing), Work, Late(Nobody, Nobody, [FIRST], true, ToLock));
  }

  /** Some run comes to rest with an event worked on and not delivered: nobody looks into the
      FIFO queue before the next push. */
  lemma LastEventStaysBehind()
    ensures exists choices, s :: Reachable(1, choices, s) && Quiescent(s) && s.fifoq == [FIRST] && s.delivered == []
  {
    var rest := Late(Nobody, Nobody, [FIRST], true, Asleep);
    forall reach: State -> bool | Closed(1, reach) ensures reach(rest) {
      WorkerIsLate(reach);
      Go(1, reach, Late(Nobody, Nobody, [FIRST], true, ToLock), Work, Late(Worker, Nobody, [FIRST], true, Testing));
      Go(1, reach, Late(Worker, Nobody, [FIRST], true, Testing), Work, rest);
    }
    InAllClosed(1, rest);
    assert Quiescent(rest);
  }
}
