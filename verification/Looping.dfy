/** The looping threads of lab 2 really start over, and their bounds are met in every iteration:
    whatever the middle load, tau1 can be caught by a whole critical section of tau3 again and again.
    Without a protocol no bound holds at all. */
module LoopingRuns {
  import opened Options
  import opened Scheduling
  import opened TaskSets
  import opened Exactness
  import opened PeriodicRuns

  lemma LabPrograms(protocol: Protocol, loads: seq<nat>)
    ensures var tasks := Lab2(protocol, loads).tasks;
            tasks[0] == Task(99, Loop, LAB_TAU1) && tasks[1] == Task(97, Loop, LAB_TAU3)
    ensures |LAB_TAU3| == 15 && LAB_TAU3[0] == Lock && LAB_TAU3[4] == Unlock
    ensures forall pc :: 1 <= pc < 15 && pc != 4 ==> LAB_TAU3[pc] == Work(2)
  {}

  /** An iteration of tau3 at instruction pc3 and one of tau1 at pc1, `elapsed` after the state u, in
      which all earlier iterations are over. */
  ghost predicate Scene(u: State, s: State, elapsed: nat, pc3: nat, pc1: nat, waiting: bool, owner: Option<nat>) {
    && |s.jobs| == |u.jobs| + 2 && s.jobs[..|u.jobs|] == u.jobs
    && var tau3, tau1 := s.jobs[|u.jobs|], s.jobs[|u.jobs| + 1];
       && tau3.task == 1 && tau3.pc == pc3 && tau3.used == 0 && !tau3.waiting
       && tau1.task == 0 && tau1.pc == pc1 && tau1.used == 0 && tau1.waiting == waiting
       && s.owner == owner && s.now == u.now + elapsed && (pc1 > 0 ==> s.startTime == u.now)
       && s.results == u.results + if pc1 == 6 then [elapsed] else []
  }

  /** While tau1 waits or is over, tau3 has the processor. */
  lemma Tau3Picked(loads: seq<nat>, u: State, s: State, elapsed: nat, pc3: nat, pc1: nat, w: bool, owner: Option<nat>)
    requires Resting(Lab2(Inherit, loads), u) && Scene(u, s, elapsed, pc3, pc1, w, owner)
    requires pc3 < 15 && (w || pc1 == 6)
    ensures Picked(Lab2(Inherit, loads), s, |u.jobs|)
    ensures Current(Lab2(Inherit, loads), s.jobs[|u.jobs|]) == LAB_TAU3[pc3]
  {
    LabPrograms(Inherit, loads);
    forall k | 0 <= k < |u.jobs| ensures !Ready(Lab2(Inherit, loads), s.jobs[k]) {
      assert s.jobs[k] == s.jobs[..|u.jobs|][k] == u.jobs[k];
    }
  }

  /** Otherwise tau1 has it. */
  lemma Tau1Picked(loads: seq<nat>, u: State, s: State, elapsed: nat, pc3: nat, pc1: nat, owner: Option<nat>)
    requires Resting(Lab2(Inherit, loads), u) && Scene(u, s, elapsed, pc3, pc1, false, owner) && pc1 < 6
    ensures Picked(Lab2(Inherit, loads), s, |u.jobs| + 1) && NobodyWaits(s)
    ensures Current(Lab2(Inherit, loads), s.jobs[|u.jobs| + 1]) == LAB_TAU1[pc1]
  {
    var sys, i := Lab2(Inherit, loads), |u.jobs| + 1;
    LabPrograms(Inherit, loads);
    forall k | 0 <= k < |u.jobs| ensures !Ready(sys, s.jobs[k]) && !s.jobs[k].waiting {
      assert s.jobs[k] == s.jobs[..|u.jobs|][k] == u.jobs[k];
    }
    assert MaxWaiting(sys, s.jobs) == 0;
    assert Effective(sys, s, i) == 99 && Effective(sys, s, i - 1) == 97;
  }

  /** tau3 starts over and takes the mutex, and tau1 starts over. */
  lemma BothRelease(loads: seq<nat>, reach: State -> bool, u: State) returns (s: State)
    requires Closed(Lab2(Inherit, loads), reach) && reach(u) && Resting(Lab2(Inherit, loads), u)
    ensures reach(s) && Scene(u, s, 0, 1, 0, false, Some(|u.jobs|))
  {
    var sys, i := Lab2(Inherit, loads), |u.jobs|;
    LabPrograms(Inherit, loads);
    var a := Apply(sys, u, Release(1));
    Go(sys, reach, u, Release(1), a);
    var b := Apply(sys, a, Next(i));
    Go(sys, reach, a, Next(i), b);
    s := Apply(sys, b, Release(0));
    Go(sys, reach, b, Release(0), s);
  }

  /** tau1 reads the clock and has to wait for tau3. */
  lemma Tau1Blocks(loads: seq<nat>, reach: State -> bool, u: State, s: State) returns (t: State)
    requires Closed(Lab2(Inherit, loads), reach) && reach(s) && Resting(Lab2(Inherit, loads), u)
    requires Scene(u, s, 0, 1, 0, false, Some(|u.jobs|))
    ensures reach(t) && Scene(u, t, 0, 1, 1, true, Some(|u.jobs|))
  {
    var sys, i := Lab2(Inherit, loads), |u.jobs| + 1;
    Tau1Picked(loads, u, s, 0, 1, 0, Some(|u.jobs|));
    var a := Apply(sys, s, Next(i));
    Go(sys, reach, s, Next(i), a);
    Tau1Picked(loads, u, a, 0, 1, 1, Some(|u.jobs|));
    t := Apply(sys, a, Next(i));
    Go(sys, reach, a, Next(i), t);
  }

  /** One of the workloads of tau3 in its critical section, at its maximum. */
  lemma Tau3Works(loads: seq<nat>, reach: State -> bool, u: State, s: State, pc3: nat) returns (t: State)
    requires Closed(Lab2(Inherit, loads), reach) && reach(s) && Resting(Lab2(Inherit, loads), u)
    requires 1 <= pc3 < 4 && Scene(u, s, 2 * (pc3 - 1), pc3, 1, true, Some(|u.jobs|))
    ensures reach(t) && Scene(u, t, 2 * pc3, pc3 + 1, 1, true, Some(|u.jobs|))
  {
    LabPrograms(Inherit, loads);
    Tau3Picked(loads, u, s, 2 * (pc3 - 1), pc3, 1, true, Some(|u.jobs|));
    t := Worked(Lab2(Inherit, loads), s, |u.jobs|);
    Exactness.Work(Lab2(Inherit, loads), reach, s, |u.jobs|, t);
  }

  lemma Tau3HandsOver(loads: seq<nat>, reach: State -> bool, u: State, s: State) returns (t: State)
    requires Closed(Lab2(Inherit, loads), reach) && reach(s) && Resting(Lab2(Inherit, loads), u)
    requires Scene(u, s, 6, 4, 1, true, Some(|u.jobs|))
    ensures reach(t) && Scene(u, t, 6, 5, 2, false, Some(|u.jobs| + 1))
  {
    var sys, i := Lab2(Inherit, loads), |u.jobs|;
    LabPrograms(Inherit, loads);
    Tau3Picked(loads, u, s, 6, 4, 1, true, Some(i));
    forall k | 0 <= k < i ensures !s.jobs[k].waiting {
      assert s.jobs[k] == s.jobs[..i][k] == u.jobs[k];
    }
    assert TopWaiter(sys, s, i + 1);
    t := Apply(sys, s, HandOver(i, i + 1));
    Go(sys, reach, s, HandOver(i, i + 1), t);
  }

  /** tau1 works in its critical section, leaves it, and works again. */
  lemma Tau1Leaves(loads: seq<nat>, reach: State -> bool, u: State, s: State) returns (t: State)
    requires Closed(Lab2(Inherit, loads), reach) && reach(s) && Resting(Lab2(Inherit, loads), u)
    requires Scene(u, s, 6, 5, 2, false, Some(|u.jobs| + 1))
    ensures reach(t) && Scene(u, t, 7, 5, 4, false, None)
  {
    var sys, i := Lab2(Inherit, loads), |u.jobs| + 1;
    Tau1Picked(loads, u, s, 6, 5, 2, Some(i));
    var a := Worked(sys, s, i);
    Exactness.Work(sys, reach, s, i, a);
    Tau1Picked(loads, u, a, 7, 5, 3, Some(i));
    t := Apply(sys, a, Next(i));
    Go(sys, reach, a, Next(i), t);
  }

  lemma Tau1Records(loads: seq<nat>, reach: State -> bool, u: State, s: State) returns (t: State)
    requires Closed(Lab2(Inherit, loads), reach) && reach(s) && Resting(Lab2(Inherit, loads), u)
    requires Scene(u, s, 7, 5, 4, false, None)
    ensures reach(t) && Scene(u, t, 9, 5, 6, false, None)
  {
    var sys, i := Lab2(Inherit, loads), |u.jobs| + 1;
    Tau1Picked(loads, u, s, 7, 5, 4, None);
    var a := Worked(sys, s, i);
    Exactness.Work(sys, reach, s, i, a);
    Tau1Picked(loads, u, a, 9, 5, 5, None);
    t := Apply(sys, a, Next(i));
    Go(sys, reach, a, Next(i), t);
  }

  /** The rest of tau3, in no time. */
  lemma {:induction false} Tau3Finishes(loads: seq<nat>, reach: State -> bool, u: State, s: State, pc3: nat)
    returns (t: State)
    requires Closed(Lab2(Inherit, loads), reach) && reach(s) && Resting(Lab2(Inherit, loads), u)
    requires 5 <= pc3 <= 15 && Scene(u, s, 9, pc3, 6, false, None)
    ensures reach(t) && Scene(u, t, 9, 15, 6, false, None)
    decreases 15 - pc3
  {
    if pc3 == 15 {
      t := s;
    } else {
      var sys, i := Lab2(Inherit, loads), |u.jobs|;
      LabPrograms(Inherit, loads);
      Tau3Picked(loads, u, s, 9, pc3, 6, false, None);
      var a := Apply(sys, s, Next(i));
      Go(sys, reach, s, Next(i), a);
      t := Tau3Finishes(loads, reach, u, a, pc3 + 1);
    }
  }

  lemma SceneRests(loads: seq<nat>, u: State, s: State)
    requires Resting(Lab2(Inherit, loads), u) && Scene(u, s, 9, 15, 6, false, None)
    ensures Resting(Lab2(Inherit, loads), s) && s.results == u.results + [9]
  {
    LabPrograms(Inherit, loads);
    forall k | 0 <= k < |s.jobs| ensures !Live(Lab2(Inherit, loads), s.jobs[k]) && !s.jobs[k].waiting {
      if k < |u.jobs| { assert s.jobs[k] == s.jobs[..|u.jobs|][k] == u.jobs[k]; }
    }
  }

  /** One more iteration of both, in which tau1 records nine half-milliseconds. */
  lemma OneRound(loads: seq<nat>, reach: State -> bool, u: State) returns (t: State)
    requires Closed(Lab2(Inherit, loads), reach) && reach(u) && Resting(Lab2(Inherit, loads), u)
    ensures reach(t) && Resting(Lab2(Inherit, loads), t) && t.results == u.results + [9]
  {
    t := BothRelease(loads, reach, u);
    t := Tau1Blocks(loads, reach, u, t);
    t := Tau3Works(loads, reach, u, t, 1);
    t := Tau3Works(loads, reach, u, t, 2);
    t := Tau3Works(loads, reach, u, t, 3);
    t := Tau3HandsOver(loads, reach, u, t);
    t := Tau1Leaves(loads, reach, u, t);
    t := Tau1Records(loads, reach, u, t);
    t := Tau3Finishes(loads, reach, u, t, 5);
    SceneRests(loads, u, t);
  }

  lemma {:induction false} Rounds(loads: seq<nat>, reach: State -> bool, n: nat) returns (t: State)
    requires Closed(Lab2(Inherit, loads), reach)
    ensures reach(t) && Resting(Lab2(Inherit, loads), t) && t.results == seq(n, _ => 9)
  {
    if n == 0 {
      t := Init(Lab2(Inherit, loads));
    } else {
      var before := Rounds(loads, reach, n - 1);
      t := OneRound(loads, reach, before);
    }
  }

  /** With inheritance tau1 can record the bound in any number of iterations in a row. */
  lemma InheritAgainAndAgain(loads: seq<nat>, n: nat)
    ensures exists choices, s :: Reachable(Lab2(Inherit, loads), choices, s) && s.results == seq(n, _ => 9)
  {
    var sys := Lab2(Inherit, loads);
    var reach := ReachableSet(sys);
    ReachableIsClosed(sys);
    var t := Rounds(loads, reach, n);
    var choices :| Reachable(sys, choices, t);
  }

  // ---------- The ceiling ----------

  /** An iteration of tau1 alone. */
  ghost predicate Solo(u: State, s: State, elapsed: nat, pc: nat) {
    && |s.jobs| == |u.jobs| + 1 && s.jobs[..|u.jobs|] == u.jobs
    && var tau1 := s.jobs[|u.jobs|];
       && tau1.task == 0 && tau1.pc == pc && tau1.used == 0 && !tau1.waiting
       && s.owner == (if 2 <= pc <= 3 then Some(|u.jobs|) else None)
       && s.now == u.now + elapsed && (pc > 0 ==> s.startTime == u.now)
       && s.results == u.results + if pc == 6 then [elapsed] else []
  }

  lemma SoloPicked(loads: seq<nat>, u: State, s: State, elapsed: nat, pc: nat)
    requires Resting(Lab2(Protect(99), loads), u) && Solo(u, s, elapsed, pc) && pc < 6
    ensures Picked(Lab2(Protect(99), loads), s, |u.jobs|) && NobodyWaits(s)
    ensures Current(Lab2(Protect(99), loads), s.jobs[|u.jobs|]) == LAB_TAU1[pc]
  {
    forall k | 0 <= k < |u.jobs| ensures !Ready(Lab2(Protect(99), loads), s.jobs[k]) && !s.jobs[k].waiting {
      assert s.jobs[k] == s.jobs[..|u.jobs|][k] == u.jobs[k];
    }
  }

  /** The next instruction, a workload at its maximum. */
  lemma SoloStep(loads: seq<nat>, reach: State -> bool, u: State, s: State, elapsed: nat, pc: nat) returns (t: State)
    requires Closed(Lab2(Protect(99), loads), reach) && reach(s) && Resting(Lab2(Protect(99), loads), u)
    requires Solo(u, s, elapsed, pc) && pc < 6 && (pc == 0 ==> elapsed == 0)
    ensures reach(t) && Solo(u, t, elapsed + (if pc == 2 then 1 else if pc == 4 then 2 else 0), pc + 1)
  {
    var sys, i := Lab2(Protect(99), loads), |u.jobs|;
    SoloPicked(loads, u, s, elapsed, pc);
    if pc == 2 || pc == 4 {
      t := Worked(sys, s, i);
      Exactness.Work(sys, reach, s, i, t);
    } else {
      t := Apply(sys, s, Next(i));
      Go(sys, reach, s, Next(i), t);
    }
  }

  lemma SoloRests(loads: seq<nat>, u: State, s: State)
    requires Resting(Lab2(Protect(99), loads), u) && Solo(u, s, 3, 6)
    ensures Resting(Lab2(Protect(99), loads), s) && s.results == u.results + [3]
  {
    forall k | 0 <= k < |s.jobs| ensures !Live(Lab2(Protect(99), loads), s.jobs[k]) && !s.jobs[k].waiting {
      if k < |u.jobs| { assert s.jobs[k] == s.jobs[..|u.jobs|][k] == u.jobs[k]; }
    }
  }

  lemma SoloRound(loads: seq<nat>, reach: State -> bool, u: State) returns (t: State)
    requires Closed(Lab2(Protect(99), loads), reach) && reach(u) && Resting(Lab2(Protect(99), loads), u)
    ensures reach(t) && Resting(Lab2(Protect(99), loads), t) && t.results == u.results + [3]
  {
    t := Apply(Lab2(Protect(99), loads), u, Release(0));
    Go(Lab2(Protect(99), loads), reach, u, Release(0), t);
    t := SoloStep(loads, reach, u, t, 0, 0);
    t := SoloStep(loads, reach, u, t, 0, 1);
    t := SoloStep(loads, reach, u, t, 0, 2);
    t := SoloStep(loads, reach, u, t, 1, 3);
    t := SoloStep(loads, reach, u, t, 1, 4);
    t := SoloStep(loads, reach, u, t, 3, 5);
    SoloRests(loads, u, t);
  }

  lemma {:induction false} SoloRounds(loads: seq<nat>, reach: State -> bool, n: nat) returns (t: State)
    requires Closed(Lab2(Protect(99), loads), reach)
    ensures reach(t) && Resting(Lab2(Protect(99), loads), t) && t.results == seq(n, _ => 3)
  {
    if n == 0 {
      t := Init(Lab2(Protect(99), loads));
    } else {
      var before := SoloRounds(loads, reach, n - 1);
      t := SoloRound(loads, reach, before);
    }
  }

  /** And so it can with the ceiling, whose bound is its own workload. */
  lemma ProtectAgainAndAgain(loads: seq<nat>, n: nat)
    ensures exists choices, s :: Reachable(Lab2(Protect(99), loads), choices, s) && s.results == seq(n, _ => 3)
  {
    var sys := Lab2(Protect(99), loads);
    var reach := ReachableSet(sys);
    ReachableIsClosed(sys);
    var t := SoloRounds(loads, reach, n);
    var choices :| Reachable(sys, choices, t);
  }
  // ---------- Without a protocol ----------

  /** tau3 at instruction pc3 and tau1 at pc1, since time 0; iterations of middle threads have come and
      are over. */
  ghost predicate Pair(s: State, pc3: nat, pc1: nat, waiting: bool, owner: Option<nat>) {
    && 2 <= |s.jobs|
    && var tau3, tau1 := s.jobs[0], s.jobs[1];
       && tau3.task == 1 && tau3.pc == pc3 && tau3.used == 0 && !tau3.waiting
       && tau1.task == 0 && tau1.pc == pc1 && tau1.used == 0 && tau1.waiting == waiting
       && s.owner == owner && s.startTime == 0
       && (forall k :: 2 <= k < |s.jobs| ==> s.jobs[k].task >= 2)
  }

  predicate MiddleDone(sys: System, jobs: seq<Job>) {
    forall k :: 2 <= k < |jobs| ==> !Live(sys, jobs[k]) && !jobs[k].waiting
  }

  lemma MiddleProgram(loads: seq<nat>, m: nat)
    requires m < |loads|
    ensures Lab2(Plain, loads).tasks[2 + m] == Task(98, Loop, Millis(loads[m]))
  {}

  /** The start: tau3 has the mutex, and tau1 waits for it. */
  lemma PlainBlocks(loads: seq<nat>, reach: State -> bool) returns (s: State)
    requires Closed(Lab2(Plain, loads), reach)
    ensures reach(s) && Pair(s, 1, 1, true, Some(0)) && |s.jobs| == 2 && s.results == []
  {
    var sys := Lab2(Plain, loads);
    LabPrograms(Plain, loads);
    var a := Apply(sys, Init(sys), Release(1));
    Go(sys, reach, Init(sys), Release(1), a);
    var b := Apply(sys, a, Next(0));
    Go(sys, reach, a, Next(0), b);
    var c := Apply(sys, b, Release(0));
    Go(sys, reach, b, Release(0), c);
    var d := Apply(sys, c, Next(1));
    Go(sys, reach, c, Next(1), d);
    s := Apply(sys, d, Next(1));
    Go(sys, reach, d, Next(1), s);
  }

  /** The last job is an iteration of a middle thread, and it has the processor although tau3 has the
      mutex that tau1 waits for. */
  lemma MiddlePicked(loads: seq<nat>, s: State, m: nat)
    requires Pair(s, 1, 1, true, Some(0)) && 2 < |s.jobs| && m < |loads|
    requires MiddleDone(Lab2(Plain, loads), s.jobs[..|s.jobs| - 1])
    requires var j := s.jobs[|s.jobs| - 1]; j.task == 2 + m && j.pc < loads[m] && j.used == 0 && !j.waiting
    ensures Picked(Lab2(Plain, loads), s, |s.jobs| - 1)
    ensures Current(Lab2(Plain, loads), s.jobs[|s.jobs| - 1]) == Instr.Work(2)
  {
    LabPrograms(Plain, loads);
    MiddleProgram(loads, m);
    forall k | 2 <= k < |s.jobs| - 1 ensures !Live(Lab2(Plain, loads), s.jobs[k]) {
      assert s.jobs[k] == s.jobs[..|s.jobs| - 1][k];
    }
  }

  lemma MiddleWorks(loads: seq<nat>, reach: State -> bool, s: State, m: nat) returns (t: State)
    requires Closed(Lab2(Plain, loads), reach) && reach(s) && m < |loads|
    requires Pair(s, 1, 1, true, Some(0)) && 2 < |s.jobs|
    requires MiddleDone(Lab2(Plain, loads), s.jobs[..|s.jobs| - 1])
    requires var j := s.jobs[|s.jobs| - 1]; j.task == 2 + m && j.pc < loads[m] && j.used == 0 && !j.waiting
    ensures reach(t) && Pair(t, 1, 1, true, Some(0)) && |t.jobs| == |s.jobs|
    ensures MiddleDone(Lab2(Plain, loads), t.jobs[..|t.jobs| - 1])
    ensures t.jobs[|t.jobs| - 1] == Advance(s.jobs[|s.jobs| - 1]) && t.now == s.now + 2 && t.results == s.results
  {
    var sys, last := Lab2(Plain, loads), |s.jobs| - 1;
    MiddlePicked(loads, s, m);
    t := Worked(sys, s, last);
    Exactness.Work(sys, reach, s, last, t);
    assert t.jobs[..last] == s.jobs[..last];
  }

  lemma MiddleIsOver(loads: seq<nat>, s: State, m: nat)
    requires 2 < |s.jobs| && m < |loads| && MiddleDone(Lab2(Plain, loads), s.jobs[..|s.jobs| - 1])
    requires var j := s.jobs[|s.jobs| - 1]; j.task == 2 + m && j.pc == loads[m] && !j.waiting
    ensures MiddleDone(Lab2(Plain, loads), s.jobs)
  {
    MiddleProgram(loads, m);
    forall k | 2 <= k < |s.jobs| - 1 ensures !Live(Lab2(Plain, loads), s.jobs[k]) && !s.jobs[k].waiting {
      assert s.jobs[k] == s.jobs[..|s.jobs| - 1][k];
    }
  }

  /** It runs to its end. */
  lemma {:induction false} MiddleRuns(loads: seq<nat>, reach: State -> bool, s: State, m: nat) returns (t: State)
    requires Closed(Lab2(Plain, loads), reach) && reach(s) && m < |loads|
    requires Pair(s, 1, 1, true, Some(0)) && 2 < |s.jobs|
    requires MiddleDone(Lab2(Plain, loads), s.jobs[..|s.jobs| - 1])
    requires var j := s.jobs[|s.jobs| - 1]; j.task == 2 + m && j.pc <= loads[m] && j.used == 0 && !j.waiting
    ensures reach(t) && Pair(t, 1, 1, true, Some(0)) && MiddleDone(Lab2(Plain, loads), t.jobs)
    ensures t.now == s.now + 2 * (loads[m] - s.jobs[|s.jobs| - 1].pc) && t.results == s.results
    decreases loads[m] - s.jobs[|s.jobs| - 1].pc
  {
    if s.jobs[|s.jobs| - 1].pc == loads[m] {
      t := s;
      MiddleIsOver(loads, s, m);
    } else {
      var a := MiddleWorks(loads, reach, s, m);
      t := MiddleRuns(loads, reach, a, m);
    }
  }

  lemma MiddleRound(loads: seq<nat>, reach: State -> bool, s: State, m: nat) returns (t: State)
    requires Closed(Lab2(Plain, loads), reach) && reach(s) && m < |loads|
    requires Pair(s, 1, 1, true, Some(0)) && MiddleDone(Lab2(Plain, loads), s.jobs)
    ensures reach(t) && Pair(t, 1, 1, true, Some(0)) && MiddleDone(Lab2(Plain, loads), t.jobs)
    ensures t.now == s.now + 2 * loads[m] && t.results == s.results
  {
    var sys := Lab2(Plain, loads);
    MiddleProgram(loads, m);
    var a := Apply(sys, s, Release(2 + m));
    Go(sys, reach, s, Release(2 + m), a);
    assert a.jobs[..|s.jobs|] == s.jobs;
    t := MiddleRuns(loads, reach, a, m);
  }

  /** The middle thread starts over again and again while tau1 waits. */
  lemma {:induction false} MiddleRounds(loads: seq<nat>, reach: State -> bool, m: nat, n: nat) returns (s: State)
    requires Closed(Lab2(Plain, loads), reach) && m < |loads| && loads[m] > 0
    ensures reach(s) && Pair(s, 1, 1, true, Some(0)) && MiddleDone(Lab2(Plain, loads), s.jobs)
    ensures s.now >= n && s.results == []
  {
    if n == 0 {
      s := PlainBlocks(loads, reach);
    } else {
      var before := MiddleRounds(loads, reach, m, n - 1);
      s := MiddleRound(loads, reach, before, m);
    }
  }

  lemma LateTau3Works(loads: seq<nat>, reach: State -> bool, s: State, pc3: nat) returns (t: State)
    requires Closed(Lab2(Plain, loads), reach) && reach(s) && 1 <= pc3 < 4
    requires Pair(s, pc3, 1, true, Some(0)) && MiddleDone(Lab2(Plain, loads), s.jobs)
    ensures reach(t) && Pair(t, pc3 + 1, 1, true, Some(0))
    ensures MiddleDone(Lab2(Plain, loads), t.jobs) && t.now >= s.now && t.results == s.results
  {
    LabPrograms(Plain, loads);
    t := Worked(Lab2(Plain, loads), s, 0);
    Exactness.Work(Lab2(Plain, loads), reach, s, 0, t);
  }

  lemma LateHandOver(loads: seq<nat>, reach: State -> bool, s: State) returns (t: State)
    requires Closed(Lab2(Plain, loads), reach) && reach(s)
    requires Pair(s, 4, 1, true, Some(0)) && MiddleDone(Lab2(Plain, loads), s.jobs)
    ensures reach(t) && Pair(t, 5, 2, false, Some(1))
    ensures MiddleDone(Lab2(Plain, loads), t.jobs) && t.now >= s.now && t.results == s.results
  {
    LabPrograms(Plain, loads);
    assert TopWaiter(Lab2(Plain, loads), s, 1);
    t := Apply(Lab2(Plain, loads), s, HandOver(0, 1));
    Go(Lab2(Plain, loads), reach, s, HandOver(0, 1), t);
  }

  lemma LateTau1Picked(loads: seq<nat>, s: State, pc1: nat, owner: Option<nat>)
    requires Pair(s, 5, pc1, false, owner) && 2 <= pc1 < 6 && MiddleDone(Lab2(Plain, loads), s.jobs)
    ensures Picked(Lab2(Plain, loads), s, 1) && NobodyWaits(s)
    ensures Current(Lab2(Plain, loads), s.jobs[1]) == LAB_TAU1[pc1]
  {
    LabPrograms(Plain, loads);
  }

  lemma LateTau1Works(loads: seq<nat>, reach: State -> bool, s: State, pc1: nat, owner: Option<nat>)
    returns (t: State)
    requires Closed(Lab2(Plain, loads), reach) && reach(s) && pc1 in {2, 4}
    requires Pair(s, 5, pc1, false, owner) && MiddleDone(Lab2(Plain, loads), s.jobs)
    ensures reach(t) && Pair(t, 5, pc1 + 1, false, owner)
    ensures MiddleDone(Lab2(Plain, loads), t.jobs) && t.now >= s.now && t.results == s.results
  {
    LateTau1Picked(loads, s, pc1, owner);
    t := Worked(Lab2(Plain, loads), s, 1);
    Exactness.Work(Lab2(Plain, loads), reach, s, 1, t);
  }

  lemma LateTau1Unlocks(loads: seq<nat>, reach: State -> bool, s: State) returns (t: State)
    requires Closed(Lab2(Plain, loads), reach) && reach(s)
    requires Pair(s, 5, 3, false, Some(1)) && MiddleDone(Lab2(Plain, loads), s.jobs)
    ensures reach(t) && Pair(t, 5, 4, false, None)
    ensures MiddleDone(Lab2(Plain, loads), t.jobs) && t.now >= s.now && t.results == s.results
  {
    LateTau1Picked(loads, s, 3, Some(1));
    t := Apply(Lab2(Plain, loads), s, Next(1));
    Go(Lab2(Plain, loads), reach, s, Next(1), t);
  }

  lemma LateTau1Records(loads: seq<nat>, reach: State -> bool, s: State) returns (t: State)
    requires Closed(Lab2(Plain, loads), reach) && reach(s)
    requires Pair(s, 5, 5, false, None) && MiddleDone(Lab2(Plain, loads), s.jobs)
    ensures reach(t) && t.results == s.results + [s.now]
  {
    LateTau1Picked(loads, s, 5, None);
    t := Apply(Lab2(Plain, loads), s, Next(1));
    Go(Lab2(Plain, loads), reach, s, Next(1), t);
  }

  lemma LateEnd(loads: seq<nat>, reach: State -> bool, s: State) returns (t: State)
    requires Closed(Lab2(Plain, loads), reach) && reach(s) && s.results == []
    requires Pair(s, 1, 1, true, Some(0)) && MiddleDone(Lab2(Plain, loads), s.jobs)
    ensures reach(t) && |t.results| == 1 && t.results[0] >= s.now
  {
    t := LateTau3Works(loads, reach, s, 1);
    t := LateTau3Works(loads, reach, t, 2);
    t := LateTau3Works(loads, reach, t, 3);
    t := LateHandOver(loads, reach, t);
    t := LateTau1Works(loads, reach, t, 2, Some(1));
    t := LateTau1Unlocks(loads, reach, t);
    t := LateTau1Works(loads, reach, t, 4, None);
    t := LateTau1Records(loads, reach, t);
  }

  /** Without a protocol there is no bound: if any middle thread has work to do, tau1 can record a
      response of any length. */
  lemma PlainHasNoBound(loads: seq<nat>, n: nat)
    requires exists m :: 0 <= m < |loads| && loads[m] > 0
    ensures exists choices, s :: Reachable(Lab2(Plain, loads), choices, s) && |s.results| == 1 && s.results[0] >= n
  {
    var sys := Lab2(Plain, loads);
    var m: nat :| m < |loads| && loads[m] > 0;
    ReachableIsClosed(sys);
    var s := MiddleRounds(loads, ReachableSet(sys), m, n);
    var t := LateEnd(loads, ReachableSet(sys), s);
    var choices :| Reachable(sys, choices, t);
  }
}
