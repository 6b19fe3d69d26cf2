/** The task sets of the experiments, and the response bounds they get from the protocols. */
module TaskSets {
  import opened Scheduling
  import opened Programs
  import opened Inheritance
  import Ceiling

  // ---------- hw3: three periodic tasks, one tick is one millisecond ----------

  const TAU1: seq<Instr> := [Begin, Work(10), Lock, Work(10), Unlock, Work(10), End]
  const TAU2: seq<Instr> := [Work(10), Work(10), Work(10), Lock, Work(10), Work(10), Unlock,
                             Work(10), Work(10), Work(10), Work(10), Work(10)]
  const TAU3: seq<Instr> := [Work(10), Work(10), Work(10), Work(10), Work(10), Work(10), Work(10)]

  /** The periods of the program; the bounds below hold for more general arrivals. */
  const PERIOD1: nat := 139
  const PERIOD2: nat := 257
  const PERIOD3: nat := 211

  function Hw3(protocol: Protocol, tau1: Arrival, tau2: Arrival, tau3: Arrival): System {
    System(protocol, [Task(98, tau1, TAU1), Task(96, tau2, TAU2), Task(97, tau3, TAU3)])
  }

  lemma Tau1Costs(delay: nat)
    ensures Cost(TAU1, 7, delay) == Cost(TAU1, 6, delay) == 0
    ensures Cost(TAU1, 5, delay) == Cost(TAU1, 4, delay) == 10
    ensures Cost(TAU1, 3, delay) == 20
    ensures Cost(TAU1, 2, delay) == 20 + delay
    ensures Cost(TAU1, 1, delay) == Cost(TAU1, 0, delay) == 30 + delay
  {
    assert Cost(TAU1, 6, delay) == 0;
    assert Cost(TAU1, 5, delay) == 10;
    assert Cost(TAU1, 4, delay) == 10;
    assert Cost(TAU1, 3, delay) == 20;
    assert Cost(TAU1, 2, delay) == 20 + delay;
    assert Cost(TAU1, 1, delay) == 30 + delay;
  }

  /** The worst-case execution times the programs are given: 30, 100 and 70 milliseconds. */
  lemma Hw3Costs()
    ensures Cost(TAU1, 0, 0) == 30 && Cost(TAU2, 0, 0) == 100 && Cost(TAU3, 0, 0) == 70
  {
    Tau1Costs(0);
    assert Cost(TAU2, 8, 0) == 40;
    assert Cost(TAU2, 6, 0) == 50;
    assert Cost(TAU2, 4, 0) == 70;
    assert Cost(TAU2, 2, 0) == 80;
    assert Cost(TAU3, 4, 0) == 30;
    assert Cost(TAU3, 2, 0) == 50;
  }

  lemma Tau1Held()
    ensures forall pc :: 0 <= pc <= 7 ==> (Held(TAU1, pc) <==> 3 <= pc <= 4)
  {
    assert !Held(TAU1, 0) && !Held(TAU1, 1) && !Held(TAU1, 2);
    assert Held(TAU1, 3) && Held(TAU1, 4);
    assert !Held(TAU1, 5) && !Held(TAU1, 6) && !Held(TAU1, 7);
  }

  lemma Tau2Held()
    ensures forall pc :: 0 <= pc <= 12 ==> (Held(TAU2, pc) <==> 4 <= pc <= 6)
    ensures Section(TAU2, 4) == 20 && Section(TAU2, 5) == 10 && Section(TAU2, 6) == 0
  {
    assert !Held(TAU2, 0) && !Held(TAU2, 1) && !Held(TAU2, 2) && !Held(TAU2, 3);
    assert Held(TAU2, 4) && Held(TAU2, 5) && Held(TAU2, 6);
    assert !Held(TAU2, 7) && !Held(TAU2, 8) && !Held(TAU2, 9) && !Held(TAU2, 10);
    assert !Held(TAU2, 11) && !Held(TAU2, 12);
    assert Section(TAU2, 6) == 0;
    assert Section(TAU2, 5) == 10;
  }

  lemma Tau3Held()
    ensures forall pc :: 0 <= pc <= 7 ==> !Held(TAU3, pc)
  {
    assert !Held(TAU3, 1) && !Held(TAU3, 2) && !Held(TAU3, 3) && !Held(TAU3, 4);
    assert !Held(TAU3, 5) && !Held(TAU3, 6) && !Held(TAU3, 7);
  }

  lemma Hw3Programs()
    ensures Balanced(TAU1) && StartsOnce(TAU1)
    ensures Balanced(TAU2) && SectionsWithin(TAU2, 20)
    ensures Balanced(TAU3) && SectionsWithin(TAU3, 20)
  {
    assert Balanced(TAU1) by { Tau1Held(); }
    assert Balanced(TAU2) && SectionsWithin(TAU2, 20) by { Tau2Held(); }
    assert Balanced(TAU3) && SectionsWithin(TAU3, 20) by { Tau3Held(); }
  }

  lemma Hw3Setting(protocol: Protocol, tau1: Arrival, tau2: Arrival, tau3: Arrival)
    ensures Setting(Hw3(protocol, tau1, tau2, tau3), 20)
    ensures Bound(Hw3(protocol, tau1, tau2, tau3), 20) == 50
    ensures Bound(Hw3(protocol, tau1, tau2, tau3), 0) == 30
  {
    var sys := Hw3(protocol, tau1, tau2, tau3);
    assert sys.tasks[0].program == TAU1 && sys.tasks[1].program == TAU2 && sys.tasks[2].program == TAU3;
    assert WellFormed(sys) && OthersWithin(sys, 20) && StartsOnce(TAU1) by { Hw3Programs(); }
    assert Bound(sys, 20) == 50 by { Tau1Costs(20); }
    assert Bound(sys, 0) == 30 by { Tau1Costs(0); }
  }

  /** "pip": 30 of its own and 20 of tau2's critical section, whatever arrives of tau2 and tau3. */
  lemma Hw3Inherit(separation: nat, tau2: Arrival, tau3: Arrival, choices: seq<Choice>, s: State)
    requires separation > 50
    requires Reachable(Hw3(Inherit, Timer(separation), tau2, tau3), choices, s)
    ensures forall k :: 0 <= k < |s.results| ==> s.results[k] <= 50
    ensures AllWithin(Hw3(Inherit, Timer(separation), tau2, tau3), s, 50)
  {
    Hw3Setting(Inherit, Timer(separation), tau2, tau3);
    Inheritance.ResponseBound(Hw3(Inherit, Timer(separation), tau2, tau3), 20, choices, s);
  }

  /** "pcp": no waiter ever, 30 from `startTime` to the end, 50 from release to end. */
  lemma Hw3Protect(separation: nat, tau2: Arrival, tau3: Arrival, choices: seq<Choice>, s: State)
    requires separation > 50
    requires Reachable(Hw3(Protect(99), Timer(separation), tau2, tau3), choices, s)
    ensures NobodyWaits(s)
    ensures forall k :: 0 <= k < |s.results| ==> s.results[k] <= 30
    ensures AllWithin(Hw3(Protect(99), Timer(separation), tau2, tau3), s, 50)
  {
    var sys := Hw3(Protect(99), Timer(separation), tau2, tau3);
    Hw3Setting(Protect(99), Timer(separation), tau2, tau3);
    Ceiling.NeverAWaiter(sys, choices, s);
    Ceiling.ResponseBound(sys, 20, choices, s);
  }

  // ---------- lab 2: looping threads, one tick is half a millisecond ----------

  const LAB_TAU1: seq<Instr> := [Begin, Lock, Work(1), Unlock, Work(2), End]

  /** n calls of `workload_1ms`. */
  function Millis(n: nat): (p: seq<Instr>)
    ensures |p| == n && forall k :: 0 <= k < n ==> p[k] == Work(2)
  {
    seq(n, _ => Work(2))
  }

  const LAB_TAU3: seq<Instr> := [Lock, Work(2), Work(2), Work(2), Unlock] + Millis(10)

  /** Threads of the middle priority that never touch the mutex, each with its own load. */
  function Middle(loads: seq<nat>): (tasks: seq<Task>)
    ensures |tasks| == |loads|
    ensures forall k :: 0 <= k < |loads| ==> tasks[k] == Task(98, Loop, Millis(loads[k]))
  {
    seq(|loads|, k requires 0 <= k < |loads| => Task(98, Loop, Millis(loads[k])))
  }

  /** Any number of middle threads with any loads; the program has tau2 with 50 and seven with 7. */
  function Lab2(protocol: Protocol, loads: seq<nat>): System {
    System(protocol, [Task(99, Loop, LAB_TAU1), Task(97, Loop, LAB_TAU3)] + Middle(loads))
  }

  lemma {:induction false} NeverHeld(prog: seq<Instr>, start: nat, pc: nat)
    requires start <= pc <= |prog| && !Held(prog, start)
    requires forall k :: start <= k < |prog| ==> prog[k].Work?
    ensures !Held(prog, pc)
  {
    if start < pc { NeverHeld(prog, start, pc - 1); }
  }

  lemma LabTau1Facts(delay: nat)
    ensures Balanced(LAB_TAU1) && StartsOnce(LAB_TAU1)
    ensures Cost(LAB_TAU1, 0, delay) == 3 + delay
  {
    assert !Held(LAB_TAU1, 0) && !Held(LAB_TAU1, 1) && Held(LAB_TAU1, 2) && Held(LAB_TAU1, 3);
    assert !Held(LAB_TAU1, 4) && !Held(LAB_TAU1, 5) && !Held(LAB_TAU1, 6);
    assert Cost(LAB_TAU1, 5, delay) == 0;
    assert Cost(LAB_TAU1, 4, delay) == 2;
    assert Cost(LAB_TAU1, 3, delay) == 2;
    assert Cost(LAB_TAU1, 2, delay) == 3;
    assert Cost(LAB_TAU1, 1, delay) == 3 + delay;
  }

  lemma LabTau3Facts()
    ensures Balanced(LAB_TAU3) && SectionsWithin(LAB_TAU3, 6)
  {
    var p := LAB_TAU3;
    assert p[0] == Lock && p[1] == p[2] == p[3] == Work(2) && p[4] == Unlock;
    assert !Held(p, 0) && Held(p, 1) && Held(p, 2) && Held(p, 3) && Held(p, 4) && !Held(p, 5);
    forall pc | 5 <= pc <= |p| ensures !Held(p, pc) {
      NeverHeld(p, 5, pc);
    }
    assert Section(p, 4) == 0;
    assert Section(p, 3) == 2;
    assert Section(p, 2) == 4;
    assert Section(p, 1) == 6;
  }

  lemma {:induction false} MillisCost(n: nat, prog: seq<Instr>, pc: nat)
    requires pc + n == |prog| && forall k :: pc <= k < |prog| ==> prog[k] == Work(2)
    ensures Cost(prog, pc, 0) == 2 * n
  {
    if n > 0 { MillisCost(n - 1, prog, pc + 1); }
  }

  /** 1.5 milliseconds of tau1 and 13 of tau3, in half-milliseconds. */
  lemma Lab2Costs()
    ensures Cost(LAB_TAU1, 0, 0) == 3 && Cost(LAB_TAU3, 0, 0) == 26
  {
    LabTau1Facts(0);
    var p := LAB_TAU3;
    assert p[0] == Lock && p[1] == p[2] == p[3] == Work(2) && p[4] == Unlock;
    MillisCost(10, p, 5);
    assert Cost(p, 4, 0) == 20;
    assert Cost(p, 3, 0) == 22;
    assert Cost(p, 1, 0) == 26;
  }

  lemma MillisFacts(n: nat)
    ensures Balanced(Millis(n)) && SectionsWithin(Millis(n), 6)
  {
    forall pc | 0 <= pc <= n ensures !Held(Millis(n), pc) {
      NeverHeld(Millis(n), 0, pc);
    }
  }

  lemma Lab2Others(protocol: Protocol, loads: seq<nat>, t: nat)
    requires 0 < t < |Lab2(protocol, loads).tasks|
    ensures var task := Lab2(protocol, loads).tasks[t];
            && task.priority < 99 && Balanced(task.program) && SectionsWithin(task.program, 6)
            && forall pc :: 0 <= pc < |task.program| ==> !task.program[pc].Begin? && !task.program[pc].End?
  {
    if t == 1 {
      LabTau3Facts();
    } else {
      assert Lab2(protocol, loads).tasks[t] == Middle(loads)[t - 2];
      MillisFacts(loads[t - 2]);
    }
  }

  lemma Lab2Setting(protocol: Protocol, loads: seq<nat>)
    ensures Setting(Lab2(protocol, loads), 6)
    ensures Bound(Lab2(protocol, loads), 6) == 9 && Bound(Lab2(protocol, loads), 0) == 3
  {
    var sys := Lab2(protocol, loads);
    LabTau1Facts(6);
    LabTau1Facts(0);
    forall t | 0 < t < |sys.tasks|
      ensures sys.tasks[t].priority < 99 && Balanced(sys.tasks[t].program) && SectionsWithin(sys.tasks[t].program, 6)
      ensures forall pc :: 0 <= pc < |sys.tasks[t].program| ==>
                !sys.tasks[t].program[pc].Begin? && !sys.tasks[t].program[pc].End?
    {
      Lab2Others(protocol, loads, t);
    }
    assert sys.tasks[0] == Task(99, Loop, LAB_TAU1);
  }

  /** Inheritance: 4.5 ms for tau1, for any number of middle threads and any middle load. */
  lemma Lab2Inherit(loads: seq<nat>, choices: seq<Choice>, s: State)
    requires Reachable(Lab2(Inherit, loads), choices, s)
    ensures forall k :: 0 <= k < |s.results| ==> s.results[k] <= 9
    ensures AllWithin(Lab2(Inherit, loads), s, 9)
  {
    Lab2Setting(Inherit, loads);
    Inheritance.ResponseBound(Lab2(Inherit, loads), 6, choices, s);
  }

  /** Ceiling: the same task set never waits for the mutex, and tau1 needs its own 1.5 ms only. */
  lemma Lab2Protect(loads: seq<nat>, choices: seq<Choice>, s: State)
    requires Reachable(Lab2(Protect(99), loads), choices, s)
    ensures NobodyWaits(s)
    ensures forall k :: 0 <= k < |s.results| ==> s.results[k] <= 3
    ensures AllWithin(Lab2(Protect(99), loads), s, 9)
  {
    Lab2Setting(Protect(99), loads);
    var sys := Lab2(Protect(99), loads);
    forall t | 2 <= t < |sys.tasks| ensures sys.tasks[t].priority == 98 {
      assert sys.tasks[t] == Middle(loads)[t - 2];
    }
    Ceiling.NeverAWaiter(sys, choices, s);
    Ceiling.ResponseBound(sys, 6, choices, s);
  }
}
