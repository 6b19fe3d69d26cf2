/** Concrete runs, from tau2's release at time 0, tau1's at 30 and tau3's at 40, in which tau1
    records 120 without a protocol, 50 with inheritance and 30 with the ceiling. */
module Exactness {
  import opened Options
  import opened Scheduling
  import opened TaskSets

  /** A set of states that no enabled choice leaves. */
  ghost predicate Closed(sys: System, reach: State -> bool) {
    && reach(Init(sys))
    && forall s: State, c: Choice :: reach(s) && Enabled(sys, s, c) ==> reach(Apply(sys, s, c))
  }

  predicate Step(sys: System, s: State, c: Choice, t: State) {
    Enabled(sys, s, c) && t == Apply(sys, s, c)
  }

  lemma Go(sys: System, reach: State -> bool, s: State, c: Choice, t: State)
    requires Closed(sys, reach) && reach(s) && Step(sys, s, c, t)
    ensures reach(t)
  {}

  ghost function ReachableSet(sys: System): State -> bool {
    (s: State) => exists choices :: Reachable(sys, choices, s)
  }

  lemma ReachableIsClosed(sys: System)
    ensures Closed(sys, ReachableSet(sys))
  {
    var reach := ReachableSet(sys);
    assert reach(Init(sys)) by { assert Reachable(sys, [], Init(sys)); }
    forall s: State, c: Choice | reach(s) && Enabled(sys, s, c) ensures reach(Apply(sys, s, c)) {
      var choices :| Reachable(sys, choices, s);
      assert (choices + [c])[..|choices|] == choices;
      assert Reachable(sys, choices + [c], Apply(sys, s, c));
    }
  }

  /** What lies in every closed set is reached by some run. */
  lemma InAllClosed(sys: System, t: State)
    requires forall reach: State -> bool :: Closed(sys, reach) ==> reach(t)
    ensures exists choices :: Reachable(sys, choices, t)
  {
    ReachableIsClosed(sys);
    assert ReachableSet(sys)(t);
  }

  function Charged(ledger: seq<nat>, t: nat, n: nat): seq<nat> {
    if t < |ledger| then ledger[t := ledger[t] + n] else ledger
  }

  /** Job i performs a whole workload at its maximum. */
  function Worked(sys: System, s: State, i: nat): State
    requires i < |s.jobs| && Live(sys, s.jobs[i]) && Current(sys, s.jobs[i]).Work?
  {
    var max := Current(sys, s.jobs[i]).max;
    s.(now := s.now + max, jobs := s.jobs[i := Advance(s.jobs[i])], ledger := Charged(s.ledger, s.jobs[i].task, max))
  }

  /** Job i has worked for n ticks of its current workload. */
  function Working(sys: System, s: State, i: nat, n: nat): State
    requires i < |s.jobs|
  {
    s.(now := s.now + n, jobs := s.jobs[i := s.jobs[i].(used := n)], ledger := Charged(s.ledger, s.jobs[i].task, n))
  }

  lemma SameWaiting(sys: System, a: seq<Job>, b: seq<Job>)
    requires |a| == |b|
    requires forall k :: 0 <= k < |a| ==> a[k].task == b[k].task && a[k].waiting == b[k].waiting
    ensures MaxWaiting(sys, a) == MaxWaiting(sys, b)
  {}

  lemma SamePriority(sys: System, s: State, i: nat, n: nat, k: nat)
    requires i < |s.jobs| && k < |s.jobs|
    ensures Effective(sys, Working(sys, s, i, n), k) == Effective(sys, s, k)
  {
    SameWaiting(sys, s.jobs, Working(sys, s, i, n).jobs);
  }

  lemma StillPicked(sys: System, s: State, i: nat, n: nat)
    requires Picked(sys, s, i)
    ensures Picked(sys, Working(sys, s, i, n), i)
  {
    var t := Working(sys, s, i, n);
    forall k | 0 <= k < |t.jobs| && k != i && Ready(sys, t.jobs[k]) ensures Before(sys, t, i, k) {
      assert Before(sys, s, i, k);
      SamePriority(sys, s, i, n, i);
      SamePriority(sys, s, i, n, k);
    }
  }

  lemma TickOnce(sys: System, s: State, i: nat, n: nat)
    requires Picked(sys, s, i) && Current(sys, s.jobs[i]).Work? && n < Current(sys, s.jobs[i]).max
    ensures Step(sys, Working(sys, s, i, n), Tick(i), Working(sys, s, i, n + 1))
  {
    var t := Working(sys, s, i, n);
    StillPicked(sys, s, i, n);
    assert Prog(sys, t.jobs[i]) == Prog(sys, s.jobs[i]);
    assert t.jobs[i := t.jobs[i].(used := n + 1)] == s.jobs[i := s.jobs[i].(used := n + 1)];
  }

  lemma WorkDone(sys: System, s: State, i: nat)
    requires Picked(sys, s, i) && Current(sys, s.jobs[i]).Work?
    ensures Step(sys, Working(sys, s, i, Current(sys, s.jobs[i]).max), Next(i), Worked(sys, s, i))
  {
    var max := Current(sys, s.jobs[i]).max;
    var t := Working(sys, s, i, max);
    StillPicked(sys, s, i, max);
    assert Prog(sys, t.jobs[i]) == Prog(sys, s.jobs[i]);
    assert t.jobs[i := Advance(t.jobs[i])] == s.jobs[i := Advance(s.jobs[i])];
  }

  lemma OneMoreTick(sys: System, reach: State -> bool, s: State, i: nat, n: nat)
    requires Closed(sys, reach) && Picked(sys, s, i) && reach(Working(sys, s, i, n))
    requires Current(sys, s.jobs[i]).Work? && n < Current(sys, s.jobs[i]).max
    ensures reach(Working(sys, s, i, n + 1))
  {
    TickOnce(sys, s, i, n);
    Go(sys, reach, Working(sys, s, i, n), Tick(i), Working(sys, s, i, n + 1));
  }

  lemma NothingWorked(sys: System, s: State, i: nat)
    requires Picked(sys, s, i) && s.jobs[i].used == 0
    ensures Working(sys, s, i, 0) == s
  {
    assert s.jobs[i := s.jobs[i].(used := 0)] == s.jobs;
  }

  lemma {:induction false} WorkFor(sys: System, reach: State -> bool, s: State, i: nat, n: nat)
    requires Closed(sys, reach) && reach(s) && Picked(sys, s, i) && s.jobs[i].used == 0
    requires Current(sys, s.jobs[i]).Work? && n <= Current(sys, s.jobs[i]).max
    ensures reach(Working(sys, s, i, n))
  {
    if n == 0 {
      NothingWorked(sys, s, i);
    } else {
      WorkFor(sys, reach, s, i, n - 1);
      OneMoreTick(sys, reach, s, i, n - 1);
    }
  }

  lemma Work(sys: System, reach: State -> bool, s: State, i: nat, t: State)
    requires Closed(sys, reach) && reach(s) && Picked(sys, s, i) && s.jobs[i].used == 0
    requires Current(sys, s.jobs[i]).Work? && t == Worked(sys, s, i)
    ensures reach(t)
  {
    var max := Current(sys, s.jobs[i]).max;
    WorkFor(sys, reach, s, i, max);
    WorkDone(sys, s, i);
    Go(sys, reach, Working(sys, s, i, max), Next(i), t);
  }

  function Sys(protocol: Protocol): System {
    Hw3(protocol, Timer(PERIOD1), Timer(PERIOD2), Timer(PERIOD3))
  }

  /** tau2 alone, about to execute instruction pc at time now. */
  function Alone(now: nat, pc: nat): State {
    State(now, [Job(1, pc, 0, false, 0, 0)], None, 1, 0, [], 0, [0, now, 0])
  }

  function Locked(): State {
    State(30, [Job(1, 4, 0, false, 0, 0)], Some(0), 1, 0, [], 30, [0, 0, 0])
  }

  lemma Tau2Locks(protocol: Protocol, reach: State -> bool)
    requires Closed(Sys(protocol), reach)
    ensures reach(Locked())
  {
    var sys := Sys(protocol);
    assert NoTicks(sys) == [0, 0, 0];
    Go(sys, reach, Init(sys), Release(1), Alone(0, 0));
    Work(sys, reach, Alone(0, 0), 0, Alone(10, 1));
    Work(sys, reach, Alone(10, 1), 0, Alone(20, 2));
    Work(sys, reach, Alone(20, 2), 0, Alone(30, 3));
    Go(sys, reach, Alone(30, 3), Next(0), Locked());
  }

  /** tau2 in its critical section, and tau1 at instruction pc. */
  function Pair(now: nat, pc: nat, waiting: bool, startTime: nat, used: nat): State {
    State(now, [Job(1, 4, 0, false, 0, 0), Job(0, pc, 0, waiting, 1, 30)], Some(0), 2, startTime, [], 30, [used, 0, 0])
  }

  /** All three: tau2 at instruction pc2, tau1 waiting, tau3 at instruction pc3. */
  function Blocked(now: nat, pc2: nat, pc3: nat): State
    requires 4 <= pc2
  {
    State(now, [Job(1, pc2, 0, false, 0, 0), Job(0, 2, 0, true, 1, 30), Job(2, pc3, 0, false, 2, 40)],
          Some(0), 3, 30, [], 30, [10, 10 * (pc2 - 4), 10 * pc3])
  }

  lemma Tau1Waits(protocol: Protocol, reach: State -> bool)
    requires !protocol.Protect? && Closed(Sys(protocol), reach)
    ensures reach(Blocked(40, 4, 0))
  {
    var sys := Sys(protocol);
    Tau2Locks(protocol, reach);
    Go(sys, reach, Locked(), Release(0), Pair(30, 0, false, 0, 0));
    Go(sys, reach, Pair(30, 0, false, 0, 0), Next(1), Pair(30, 1, false, 30, 0));
    Work(sys, reach, Pair(30, 1, false, 30, 0), 1, Pair(40, 2, false, 30, 10));
    Go(sys, reach, Pair(40, 2, false, 30, 10), Next(1), Pair(40, 2, true, 30, 10));
    Go(sys, reach, Pair(40, 2, true, 30, 10), Release(2), Blocked(40, 4, 0));
  }

  /** Without a protocol tau3 runs to its end before tau2 can go on. */
  lemma {:induction false} Tau3Runs(pc: nat, reach: State -> bool)
    requires pc <= 7 && Closed(Sys(Plain), reach)
    ensures reach(Blocked(40 + 10 * pc, 4, pc))
  {
    if pc == 0 {
      Tau1Waits(Plain, reach);
    } else {
      Tau3Runs(pc - 1, reach);
      Work(Sys(Plain), reach, Blocked(40 + 10 * (pc - 1), 4, pc - 1), 2, Blocked(40 + 10 * pc, 4, pc));
    }
  }

  /** tau1 has the mutex or has released it; tau2 and tau3 must let it run to its end. */
  function Resumed(since: nat, now: nat, pc: nat, pc3: nat, used: nat, owns: bool): State {
    State(now, [Job(1, 7, 0, false, 0, 0), Job(0, pc, 0, false, 3, 30), Job(2, pc3, 0, false, 2, 40)],
          if owns then Some(1) else None, 4, 30, [], since, [used, 0, 0])
  }

  function Finished(now: nat, pc3: nat): State {
    Resumed(now, now + 20, 7, pc3, 20, false).(results := [now - 10])
  }

  /** Inheritance lets the owner run at once; without it the owner has to wait for tau3. */
  lemma OwnerPicked(protocol: Protocol, now: nat, pc2: nat, pc3: nat)
    requires protocol == Inherit || (protocol == Plain && pc3 == 7)
    requires 4 <= pc2 <= 6 && pc3 <= 7
    ensures Picked(Sys(protocol), Blocked(now, pc2, pc3), 0)
  {
    var sys, s := Sys(protocol), Blocked(now, pc2, pc3);
    assert s.jobs[1].waiting && Base(sys, s.jobs[1]) == 98;
    assert MaxWaiting(sys, s.jobs) >= 98;
  }

  lemma Tau2Works(protocol: Protocol, now: nat, pc2: nat, pc3: nat, reach: State -> bool)
    requires protocol == Inherit || (protocol == Plain && pc3 == 7)
    requires 4 <= pc2 <= 5 && pc3 <= 7
    requires Closed(Sys(protocol), reach) && reach(Blocked(now, pc2, pc3))
    ensures reach(Blocked(now + 10, pc2 + 1, pc3))
  {
    OwnerPicked(protocol, now, pc2, pc3);
    Work(Sys(protocol), reach, Blocked(now, pc2, pc3), 0, Blocked(now + 10, pc2 + 1, pc3));
  }

  lemma Tau2HandsOver(protocol: Protocol, now: nat, pc3: nat, reach: State -> bool)
    requires protocol == Inherit || (protocol == Plain && pc3 == 7)
    requires pc3 <= 7 && 40 <= now
    requires Closed(Sys(protocol), reach) && reach(Blocked(now, 6, pc3))
    ensures reach(Resumed(now, now, 3, pc3, 0, true))
  {
    OwnerPicked(protocol, now, 6, pc3);
    assert NoTicks(Sys(protocol)) == [0, 0, 0];
    assert TopWaiter(Sys(protocol), Blocked(now, 6, pc3), 1);
    Go(Sys(protocol), reach, Blocked(now, 6, pc3), HandOver(0, 1), Resumed(now, now, 3, pc3, 0, true));
  }

  lemma Tau2Finishes(protocol: Protocol, now: nat, pc3: nat, reach: State -> bool)
    requires protocol == Inherit || (protocol == Plain && pc3 == 7)
    requires pc3 <= 7 && 40 <= now
    requires Closed(Sys(protocol), reach) && reach(Blocked(now, 4, pc3))
    ensures reach(Resumed(now + 20, now + 20, 3, pc3, 0, true))
  {
    Tau2Works(protocol, now, 4, pc3, reach);
    Tau2Works(protocol, now + 10, 5, pc3, reach);
    Tau2HandsOver(protocol, now + 20, pc3, reach);
  }

  lemma Tau1Picked(protocol: Protocol, since: nat, now: nat, pc: nat, pc3: nat, used: nat, owns: bool)
    requires !protocol.Protect? && pc < 7 && pc3 <= 7
    ensures Picked(Sys(protocol), Resumed(since, now, pc, pc3, used, owns), 1)
  {}

  lemma Tau1Works(protocol: Protocol, s: nat, now: nat, pc: nat, pc3: nat, used: nat, owns: bool, reach: State -> bool)
    requires !protocol.Protect? && pc in {3, 5} && pc3 <= 7
    requires Closed(Sys(protocol), reach) && reach(Resumed(s, now, pc, pc3, used, owns))
    ensures reach(Resumed(s, now + 10, pc + 1, pc3, used + 10, owns))
  {
    Tau1Picked(protocol, s, now, pc, pc3, used, owns);
    Work(Sys(protocol), reach, Resumed(s, now, pc, pc3, used, owns), 1,
         Resumed(s, now + 10, pc + 1, pc3, used + 10, owns));
  }

  lemma Tau1Ends(protocol: Protocol, s: nat, pc3: nat, reach: State -> bool)
    requires !protocol.Protect? && pc3 <= 7 && 30 <= s
    requires Closed(Sys(protocol), reach) && reach(Resumed(s, s, 3, pc3, 0, true))
    ensures reach(Finished(s, pc3))
  {
    var sys := Sys(protocol);
    Tau1Works(protocol, s, s, 3, pc3, 0, true, reach);
    Tau1Picked(protocol, s, s + 10, 4, pc3, 10, true);
    Go(sys, reach, Resumed(s, s + 10, 4, pc3, 10, true), Next(1), Resumed(s, s + 10, 5, pc3, 10, false));
    Tau1Works(protocol, s, s + 10, 5, pc3, 10, false, reach);
    Tau1Picked(protocol, s, s + 20, 6, pc3, 20, false);
    Go(sys, reach, Resumed(s, s + 20, 6, pc3, 20, false), Next(1), Finished(s, pc3));
  }

  /** Priority inversion: without a protocol 120 is recorded ... */
  lemma PlainRun()
    ensures exists choices :: Reachable(Sys(Plain), choices, Finished(130, 7))
  {
    forall reach: State -> bool | Closed(Sys(Plain), reach) ensures reach(Finished(130, 7)) {
      Tau3Runs(7, reach);
      Tau2Finishes(Plain, 110, 7, reach);
      Tau1Ends(Plain, 130, 7, reach);
    }
    InAllClosed(Sys(Plain), Finished(130, 7));
  }

  /** ... and with inheritance the same releases give 50, with tau3 still to run. */
  lemma InheritRun()
    ensures exists choices :: Reachable(Sys(Inherit), choices, Finished(60, 0))
  {
    forall reach: State -> bool | Closed(Sys(Inherit), reach) ensures reach(Finished(60, 0)) {
      Tau1Waits(Inherit, reach);
      Tau2Finishes(Inherit, 40, 0, reach);
      Tau1Ends(Inherit, 60, 0, reach);
    }
    InAllClosed(Sys(Inherit), Finished(60, 0));
  }
  /** With the ceiling: tau2 and tau1 at these instructions, tau3 waiting for the processor. */
  function Capped(now: nat, pc2: nat, pc1: nat, owner: Option<nat>, startTime: nat, since: nat, ledger: seq<nat>)
    : State
  {
    State(now, [Job(1, pc2, 0, false, 0, 0), Job(0, pc1, 0, false, 1, 30), Job(2, 0, 0, false, 2, 40)],
          owner, 3, startTime, [], since, ledger)
  }

  /** tau2 keeps the processor although tau1 has come. */
  lemma Tau2AtCeiling(reach: State -> bool)
    requires Closed(Sys(Protect(99)), reach)
    ensures reach(Capped(40, 5, 0, Some(0), 0, 30, [0, 10, 0]))
  {
    var sys := Sys(Protect(99));
    var half := State(40, [Job(1, 5, 0, false, 0, 0), Job(0, 0, 0, false, 1, 30)], Some(0), 2, 0, [], 30, [0, 10, 0]);
    Tau2Locks(Protect(99), reach);
    Go(sys, reach, Locked(), Release(0), Pair(30, 0, false, 0, 0));
    Work(sys, reach, Pair(30, 0, false, 0, 0), 0, half);
    Go(sys, reach, half, Release(2), Capped(40, 5, 0, Some(0), 0, 30, [0, 10, 0]));
  }

  lemma Tau2Leaves(reach: State -> bool)
    requires Closed(Sys(Protect(99)), reach)
    ensures reach(Capped(50, 7, 0, None, 0, 30, [0, 20, 0]))
  {
    var sys := Sys(Protect(99));
    Tau2AtCeiling(reach);
    Work(sys, reach, Capped(40, 5, 0, Some(0), 0, 30, [0, 10, 0]), 0, Capped(50, 6, 0, Some(0), 0, 30, [0, 20, 0]));
    Go(sys, reach, Capped(50, 6, 0, Some(0), 0, 30, [0, 20, 0]), Next(0), Capped(50, 7, 0, None, 0, 30, [0, 20, 0]));
  }

  lemma Tau1Enters(reach: State -> bool)
    requires Closed(Sys(Protect(99)), reach)
    ensures reach(Capped(60, 7, 3, Some(1), 50, 60, [0, 0, 0]))
  {
    var sys := Sys(Protect(99));
    Tau2Leaves(reach);
    Go(sys, reach, Capped(50, 7, 0, None, 0, 30, [0, 20, 0]), Next(1), Capped(50, 7, 1, None, 50, 30, [0, 20, 0]));
    Work(sys, reach, Capped(50, 7, 1, None, 50, 30, [0, 20, 0]), 1, Capped(60, 7, 2, None, 50, 30, [10, 20, 0]));
    assert NoTicks(sys) == [0, 0, 0];
    Go(sys, reach, Capped(60, 7, 2, None, 50, 30, [10, 20, 0]), Next(1), Capped(60, 7, 3, Some(1), 50, 60, [0, 0, 0]));
  }

  lemma Tau1Exits(reach: State -> bool)
    requires Closed(Sys(Protect(99)), reach)
    ensures reach(Capped(70, 7, 5, None, 50, 60, [10, 0, 0]))
  {
    var sys, inside := Sys(Protect(99)), Capped(70, 7, 4, Some(1), 50, 60, [10, 0, 0]);
    Tau1Enters(reach);
    Work(sys, reach, Capped(60, 7, 3, Some(1), 50, 60, [0, 0, 0]), 1, inside);
    Go(sys, reach, inside, Next(1), Capped(70, 7, 5, None, 50, 60, [10, 0, 0]));
  }

  function CappedEnd(): State {
    Capped(80, 7, 7, None, 50, 60, [20, 0, 0]).(results := [30])
  }

  lemma CappedTau1Ends(reach: State -> bool)
    requires Closed(Sys(Protect(99)), reach)
    ensures reach(CappedEnd())
  {
    var sys, last := Sys(Protect(99)), Capped(80, 7, 6, None, 50, 60, [20, 0, 0]);
    Tau1Exits(reach);
    Work(sys, reach, Capped(70, 7, 5, None, 50, 60, [10, 0, 0]), 1, last);
    Go(sys, reach, last, Next(1), CappedEnd());
  }

  /** With the ceiling the same releases give 30: the delay is over before tau1 reads the clock. */
  lemma ProtectRun()
    ensures exists choices :: Reachable(Sys(Protect(99)), choices, CappedEnd())
  {
    forall reach: State -> bool | Closed(Sys(Protect(99)), reach) ensures reach(CappedEnd()) {
      CappedTau1Ends(reach);
    }
    InAllClosed(Sys(Protect(99)), CappedEnd());
  }
}
