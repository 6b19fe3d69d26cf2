/** The bounds 120, 50 and 30 are met by strictly periodic timers that are started together: when the
    three timers come in the worst order, after any number of earlier jobs, the run of
    `Exactness` happens on top of what was before. */
module PeriodicRuns {
  import opened Options
  import opened Scheduling
  import opened Programs
  import opened TaskSets
  import opened Exactness

  // ---------- Strictly periodic timers ----------

  function PeriodOf(t: nat): nat {
    if t == 0 then PERIOD1 else if t == 1 then PERIOD2 else PERIOD3
  }

  predicate Fired(jobs: seq<Job>, t: nat, at: nat) {
    exists k :: 0 <= k < |jobs| && jobs[k].task == t && jobs[k].released == at
  }

  /** Up to this time every timer has fired at all multiples of its period, and never else. */
  ghost predicate PeriodicUpTo(jobs: seq<Job>, time: int) {
    && (forall k :: 0 <= k < |jobs| ==>
          jobs[k].task <= 2 && 0 < jobs[k].released <= time && jobs[k].released % PeriodOf(jobs[k].task) == 0)
    && (forall t: nat, at: nat :: t <= 2 && 0 < at <= time && at % PeriodOf(t) == 0 ==> Fired(jobs, t, at))
  }

  lemma Apart139(i: nat, j: nat)
    ensures 139 * i < 139 * j ==> 139 * i + 139 <= 139 * j
  {}

  lemma Apart257(i: nat, j: nat)
    ensures 257 * i < 257 * j ==> 257 * i + 257 <= 257 * j
  {}

  lemma Apart211(i: nat, j: nat)
    ensures 211 * i < 211 * j ==> 211 * i + 211 <= 211 * j
  {}

  /** Multiples of a period are at least a period apart. */
  lemma Apart(t: nat, a: nat, b: nat)
    requires t <= 2 && a < b && a % PeriodOf(t) == 0 && b % PeriodOf(t) == 0
    ensures a + PeriodOf(t) <= b
  {
    if t == 0 {
      Apart139(a / 139, b / 139);
    } else if t == 1 {
      Apart257(a / 257, b / 257);
    } else {
      Apart211(a / 211, b / 211);
    }
  }

  // ---------- Jobs that take no time ----------

  predicate Done(sys: System, jobs: seq<Job>) {
    forall k :: 0 <= k < |jobs| ==> !Live(sys, jobs[k]) && !jobs[k].waiting
  }

  /** The jobs of b are those of a, by task and release, and maybe more. */
  predicate Continues(a: seq<Job>, b: seq<Job>) {
    |a| <= |b| && forall k :: 0 <= k < |a| ==> b[k].task == a[k].task && b[k].released == a[k].released
  }

  /** All jobs but the last are done, and that one is where it is with the mutex as it must be. */
  ghost predicate LastAlone(sys: System, s: State) {
    && s.jobs != []
    && var last := |s.jobs| - 1;
       && Done(sys, s.jobs[..last])
       && !s.jobs[last].waiting && s.jobs[last].pc <= |Prog(sys, s.jobs[last])|
       && Balanced(Prog(sys, s.jobs[last]))
       && s.owner == if Held(Prog(sys, s.jobs[last]), s.jobs[last].pc) then Some(last) else None
  }

  lemma LastIsPicked(sys: System, s: State)
    requires LastAlone(sys, s) && Live(sys, s.jobs[|s.jobs| - 1])
    ensures Picked(sys, s, |s.jobs| - 1) && NobodyWaits(s)
  {
    var last := |s.jobs| - 1;
    assert forall k :: 0 <= k < last ==> s.jobs[..last][k] == s.jobs[k];
  }

  /** t is a state at the same time, with the last job one instruction further. */
  ghost predicate OneFurther(sys: System, s: State, t: State)
    requires s.jobs != []
  {
    var last := |s.jobs| - 1;
    && LastAlone(sys, t) && t.now == s.now && |t.jobs| == |s.jobs|
    && Continues(s.jobs, t.jobs) && t.jobs[last].pc == s.jobs[last].pc + 1
  }

  lemma LastSteps(sys: System, s: State)
    requires LastAlone(sys, s) && Live(sys, s.jobs[|s.jobs| - 1])
    ensures Enabled(sys, s, Next(|s.jobs| - 1)) && OneFurther(sys, s, Apply(sys, s, Next(|s.jobs| - 1)))
  {
    var last := |s.jobs| - 1;
    LastIsPicked(sys, s);
    assert s.jobs[last := Advance(s.jobs[last])][..last] == s.jobs[..last];
  }

  lemma Extend(sys: System, past: seq<Choice>, s: State, c: Choice) returns (choices: seq<Choice>)
    requires Reachable(sys, past, s) && Enabled(sys, s, c)
    ensures Reachable(sys, choices, Apply(sys, s, c))
  {
    choices := past + [c];
    assert choices[..|past|] == past;
  }

  lemma LastStepRun(sys: System, past: seq<Choice>, s: State) returns (choices: seq<Choice>, t: State)
    requires Reachable(sys, past, s) && LastAlone(sys, s) && Live(sys, s.jobs[|s.jobs| - 1])
    ensures Reachable(sys, choices, t) && OneFurther(sys, s, t)
  {
    LastSteps(sys, s);
    choices := Extend(sys, past, s, Next(|s.jobs| - 1));
    t := Apply(sys, s, Next(|s.jobs| - 1));
  }

  lemma LastIsDone(sys: System, s: State)
    requires LastAlone(sys, s) && !Live(sys, s.jobs[|s.jobs| - 1])
    ensures s.owner.None? && Done(sys, s.jobs)
  {
    var last := |s.jobs| - 1;
    assert forall k :: 0 <= k < last ==> s.jobs[..last][k] == s.jobs[k];
  }

  /** The last job may run to its end in no time. */
  lemma {:induction false} LastEnds(sys: System, past: seq<Choice>, s: State) returns (choices: seq<Choice>, t: State)
    requires Reachable(sys, past, s) && LastAlone(sys, s)
    ensures Reachable(sys, choices, t) && t.now == s.now && t.owner.None? && Done(sys, t.jobs)
    ensures |t.jobs| == |s.jobs| && Continues(s.jobs, t.jobs)
    decreases |Prog(sys, s.jobs[|s.jobs| - 1])| - s.jobs[|s.jobs| - 1].pc
  {
    if Live(sys, s.jobs[|s.jobs| - 1]) {
      var u;
      choices, u := LastStepRun(sys, past, s);
      choices, t := LastEnds(sys, choices, u);
    } else {
      choices, t := past, s;
      LastIsDone(sys, s);
    }
  }

  // ---------- Any number of periods in which no job takes time ----------

  predicate Resting(sys: System, s: State) {
    s.owner.None? && Done(sys, s.jobs)
  }

  lemma StillFired(a: seq<Job>, b: seq<Job>, t: nat, at: nat)
    requires Continues(a, b) && Fired(a, t, at)
    ensures Fired(b, t, at)
  {
    var k :| 0 <= k < |a| && a[k].task == t && a[k].released == at;
    assert b[k].task == t && b[k].released == at;
  }

  /** At time `now` the timers below t have fired if they are due, the others not yet. */
  ghost predicate FiredBelow(jobs: seq<Job>, now: nat, t: nat) {
    && (forall k :: 0 <= k < |jobs| ==>
          && jobs[k].task <= 2 && 0 < jobs[k].released <= now && jobs[k].released % PeriodOf(jobs[k].task) == 0
          && (jobs[k].released == now ==> jobs[k].task < t))
    && (forall u: nat, at: nat ::
          u <= 2 && 0 < at <= now && at % PeriodOf(u) == 0 && (at < now || u < t) ==> Fired(jobs, u, at))
  }

  lemma NotDue(jobs: seq<Job>, now: nat, t: nat)
    requires t <= 2 && FiredBelow(jobs, now, t) && now % PeriodOf(t) != 0
    ensures FiredBelow(jobs, now, t + 1)
  {}

  lemma NowFired(a: seq<Job>, b: seq<Job>, now: nat, t: nat)
    requires t <= 2 && FiredBelow(a, now, t) && now > 0 && now % PeriodOf(t) == 0
    requires Continues(a, b) && |b| == |a| + 1 && b[|a|].task == t && b[|a|].released == now
    ensures FiredBelow(b, now, t + 1)
  {
    forall u: nat, at: nat | u <= 2 && 0 < at <= now && at % PeriodOf(u) == 0 && (at < now || u < t + 1)
      ensures Fired(b, u, at)
    {
      if at < now || u < t { StillFired(a, b, u, at); }
    }
  }

  lemma DueTimer(protocol: Protocol, s: State, t: nat)
    requires t <= 2 && FiredBelow(s.jobs, s.now, t) && s.now % PeriodOf(t) == 0
    ensures Enabled(Sys(protocol), s, Release(t))
  {
    forall k | 0 <= k < |s.jobs| && s.jobs[k].task == t ensures s.jobs[k].released + PeriodOf(t) <= s.now {
      Apart(t, s.jobs[k].released, s.now);
    }
  }

  lemma ReleasedAlone(protocol: Protocol, s: State, t: nat)
    requires t <= 2 && Resting(Sys(protocol), s) && Enabled(Sys(protocol), s, Release(t))
    ensures LastAlone(Sys(protocol), Apply(Sys(protocol), s, Release(t)))
  {
    var u := Apply(Sys(protocol), s, Release(t));
    assert u.jobs[..|s.jobs|] == s.jobs;
    Hw3Programs();
  }

  lemma FireIfDue(protocol: Protocol, past: seq<Choice>, s: State, t: nat) returns (choices: seq<Choice>, u: State)
    requires t <= 2 && s.now > 0 && Reachable(Sys(protocol), past, s)
    requires Resting(Sys(protocol), s) && FiredBelow(s.jobs, s.now, t)
    ensures Reachable(Sys(protocol), choices, u) && u.now == s.now
    ensures Resting(Sys(protocol), u) && FiredBelow(u.jobs, u.now, t + 1)
  {
    var sys := Sys(protocol);
    if s.now % PeriodOf(t) == 0 {
      DueTimer(protocol, s, t);
      ReleasedAlone(protocol, s, t);
      choices := Extend(sys, past, s, Release(t));
      choices, u := LastEnds(sys, choices, Apply(sys, s, Release(t)));
      NowFired(s.jobs, u.jobs, s.now, t);
    } else {
      choices, u := past, s;
      NotDue(s.jobs, s.now, t);
    }
  }

  lemma NextTime(protocol: Protocol, past: seq<Choice>, s: State) returns (choices: seq<Choice>, t: State)
    requires Reachable(Sys(protocol), past, s) && Resting(Sys(protocol), s) && PeriodicUpTo(s.jobs, s.now)
    ensures Reachable(Sys(protocol), choices, t) && t.now == s.now + 1
    ensures t.jobs == s.jobs && Resting(Sys(protocol), t) && FiredBelow(t.jobs, t.now, 0)
  {
    choices := Extend(Sys(protocol), past, s, Idle);
    t := Apply(Sys(protocol), s, Idle);
  }

  /** At any time, all jobs so far may be done, with strictly periodic timers. */
  lemma {:induction false} QuietRun(protocol: Protocol, now: nat) returns (choices: seq<Choice>, s: State)
    ensures Reachable(Sys(protocol), choices, s) && s.now == now
    ensures Resting(Sys(protocol), s) && PeriodicUpTo(s.jobs, now)
  {
    if now == 0 {
      choices, s := [], Init(Sys(protocol));
    } else {
      choices, s := QuietRun(protocol, now - 1);
      choices, s := NextTime(protocol, choices, s);
      choices, s := FireIfDue(protocol, choices, s, 0);
      choices, s := FireIfDue(protocol, choices, s, 1);
      choices, s := FireIfDue(protocol, choices, s, 2);
    }
  }

  // ---------- A run on top of finished jobs ----------

  function Later(j: Job, ranks: nat, time: nat): Job {
    j.(rank := j.rank + ranks, released := j.released + time)
  }

  /** The jobs done, and then these jobs, with their ranks and releases shifted. */
  predicate Stacked(done: seq<Job>, jobs: seq<Job>, ranks: nat, time: nat, all: seq<Job>) {
    && |all| == |done| + |jobs|
    && (forall k :: 0 <= k < |done| ==> all[k] == done[k])
    && (forall k :: |done| <= k < |all| ==> all[k] == Later(jobs[k - |done|], ranks, time))
  }

  /** tau1 has read the clock. */
  predicate Started(s: State) {
    exists k :: 0 <= k < |s.jobs| && s.jobs[k].task == 0 && s.jobs[k].pc > 0
  }

  /** t is s on top of the state u, in which all jobs are done. */
  ghost predicate OnTop(s: State, u: State, t: State) {
    && t.now == u.now + s.now
    && Stacked(u.jobs, s.jobs, u.nextRank, u.now, t.jobs)
    && t.owner == (if s.owner.Some? then Some(|u.jobs| + s.owner.value) else None)
    && t.nextRank == u.nextRank + s.nextRank
    && t.results == u.results + s.results
    && (Started(s) ==> t.startTime == u.now + s.startTime)
  }

  function OnTopChoice(u: State, c: Choice): Choice {
    match c
    case Release(t) => Release(t)
    case Tick(i) => Tick(|u.jobs| + i)
    case Next(i) => Next(|u.jobs| + i)
    case HandOver(i, w) => HandOver(|u.jobs| + i, |u.jobs| + w)
    case Idle => Idle
  }

  lemma NoneOfThemWaits(sys: System, done: seq<Job>, jobs: seq<Job>, ranks: nat, time: nat, all: seq<Job>)
    requires Done(sys, done) && Stacked(done, jobs, ranks, time, all)
    ensures MaxWaiting(sys, all) == MaxWaiting(sys, jobs)
  {
    if MaxWaiting(sys, all) != 0 {
      var k :| 0 <= k < |all| && all[k].waiting && Base(sys, all[k]) == MaxWaiting(sys, all);
      assert all[k] == Later(jobs[k - |done|], ranks, time);
    }
    if MaxWaiting(sys, jobs) != 0 {
      var k :| 0 <= k < |jobs| && jobs[k].waiting && Base(sys, jobs[k]) == MaxWaiting(sys, jobs);
      assert all[|done| + k] == Later(jobs[k], ranks, time);
    }
  }

  lemma SameEffective(sys: System, s: State, u: State, t: State, i: nat)
    requires Done(sys, u.jobs) && OnTop(s, u, t) && i < |s.jobs|
    ensures Effective(sys, t, |u.jobs| + i) == Effective(sys, s, i)
  {
    NoneOfThemWaits(sys, u.jobs, s.jobs, u.nextRank, u.now, t.jobs);
  }

  lemma BeforeOnTop(sys: System, s: State, u: State, t: State, i: nat, k: nat)
    requires Done(sys, u.jobs) && OnTop(s, u, t) && i < |s.jobs| && k < |s.jobs| && Before(sys, s, i, k)
    ensures Before(sys, t, |u.jobs| + i, |u.jobs| + k)
  {
    SameEffective(sys, s, u, t, i);
    SameEffective(sys, s, u, t, k);
  }

  lemma ReadyOnTop(sys: System, s: State, u: State, t: State, k: nat)
    requires Done(sys, u.jobs) && OnTop(s, u, t) && k < |t.jobs| && Ready(sys, t.jobs[k])
    ensures |u.jobs| <= k && Ready(sys, s.jobs[k - |u.jobs|])
  {}

  lemma SameJob(sys: System, s: State, u: State, t: State, i: nat)
    requires OnTop(s, u, t) && i < |s.jobs| && Ready(sys, s.jobs[i])
    ensures Ready(sys, t.jobs[|u.jobs| + i]) && Current(sys, t.jobs[|u.jobs| + i]) == Current(sys, s.jobs[i])
  {}

  lemma FirstOnTop(sys: System, s: State, u: State, t: State, i: nat, k: nat)
    requires Done(sys, u.jobs) && OnTop(s, u, t) && Picked(sys, s, i)
    requires k < |t.jobs| && k != |u.jobs| + i && Ready(sys, t.jobs[k])
    ensures Before(sys, t, |u.jobs| + i, k)
  {
    ReadyOnTop(sys, s, u, t, k);
    BeforeOnTop(sys, s, u, t, i, k - |u.jobs|);
  }

  lemma PickedOnTop(sys: System, s: State, u: State, t: State, i: nat)
    requires Done(sys, u.jobs) && OnTop(s, u, t) && Picked(sys, s, i)
    ensures Picked(sys, t, |u.jobs| + i) && Current(sys, t.jobs[|u.jobs| + i]) == Current(sys, s.jobs[i])
  {
    SameJob(sys, s, u, t, i);
    forall k | 0 <= k < |t.jobs| && k != |u.jobs| + i && Ready(sys, t.jobs[k]) ensures Before(sys, t, |u.jobs| + i, k) {
      FirstOnTop(sys, s, u, t, i, k);
    }
  }

  lemma NobodyWaitsOnTop(sys: System, s: State, u: State, t: State)
    requires Done(sys, u.jobs) && OnTop(s, u, t) && NobodyWaits(s)
    ensures NobodyWaits(t)
  {}

  lemma TopWaiterOnTop(sys: System, s: State, u: State, t: State, w: nat)
    requires Done(sys, u.jobs) && OnTop(s, u, t) && TopWaiter(sys, s, w)
    ensures TopWaiter(sys, t, |u.jobs| + w)
  {}

  /** The timer of this task may fire at this time in spite of the old jobs. */
  predicate Allowed(u: State, task: nat, released: nat) {
    forall k :: 0 <= k < |u.jobs| && u.jobs[k].task == task ==> u.jobs[k].released + PeriodOf(task) <= u.now + released
  }

  lemma Restacked(done: seq<Job>, jobs: seq<Job>, ranks: nat, time: nat, all: seq<Job>, i: nat, j: Job)
    requires Stacked(done, jobs, ranks, time, all) && i < |jobs|
    ensures Stacked(done, jobs[i := j], ranks, time, all[|done| + i := Later(j, ranks, time)])
  {}

  lemma StillStarted(s: State, t: State, i: nat)
    requires |t.jobs| == |s.jobs| && i < |s.jobs| && Started(t)
    requires forall k :: 0 <= k < |s.jobs| && k != i ==>
               t.jobs[k].task == s.jobs[k].task && t.jobs[k].pc == s.jobs[k].pc
    requires s.jobs[i].task != 0 || s.jobs[i].pc > 0 || t.jobs[i].pc == 0
    requires t.jobs[i].task == s.jobs[i].task
    ensures Started(s)
  {
    var k :| 0 <= k < |t.jobs| && t.jobs[k].task == 0 && t.jobs[k].pc > 0;
    assert s.jobs[k].task == 0 && s.jobs[k].pc > 0;
  }

  lemma ReleaseOnTop(protocol: Protocol, s: State, u: State, t: State, task: nat)
    requires OnTop(s, u, t) && Enabled(Sys(protocol), s, Release(task)) && Allowed(u, task, s.now)
    ensures Enabled(Sys(protocol), t, Release(task))
    ensures OnTop(Apply(Sys(protocol), s, Release(task)), u, Apply(Sys(protocol), t, Release(task)))
  {
    var after := Apply(Sys(protocol), s, Release(task));
    if Started(after) {
      var k :| 0 <= k < |after.jobs| && after.jobs[k].task == 0 && after.jobs[k].pc > 0;
      assert after.jobs[k] == s.jobs[k];
    }
    assert Sys(protocol).tasks[task].arrival == Timer(PeriodOf(task));
  }

  lemma TickedOnTop(sys: System, s: State, u: State, t: State, i: nat)
    requires OnTop(s, u, t) && Enabled(sys, s, Tick(i)) && Enabled(sys, t, Tick(|u.jobs| + i))
    ensures OnTop(Apply(sys, s, Tick(i)), u, Apply(sys, t, Tick(|u.jobs| + i)))
  {
    Restacked(u.jobs, s.jobs, u.nextRank, u.now, t.jobs, i, s.jobs[i].(used := s.jobs[i].used + 1));
    if Started(Apply(sys, s, Tick(i))) { StillStarted(s, Apply(sys, s, Tick(i)), i); }
  }

  lemma TickOnTop(sys: System, s: State, u: State, t: State, i: nat)
    requires Done(sys, u.jobs) && OnTop(s, u, t) && Enabled(sys, s, Tick(i))
    ensures Enabled(sys, t, Tick(|u.jobs| + i))
    ensures OnTop(Apply(sys, s, Tick(i)), u, Apply(sys, t, Tick(|u.jobs| + i)))
  {
    PickedOnTop(sys, s, u, t, i);
    TickedOnTop(sys, s, u, t, i);
  }

  lemma AdvancedOnTop(s: State, u: State, t: State, i: nat)
    requires OnTop(s, u, t) && i < |s.jobs|
    ensures Stacked(u.jobs, s.jobs[i := Advance(s.jobs[i])], u.nextRank, u.now,
                    t.jobs[|u.jobs| + i := Advance(t.jobs[|u.jobs| + i])])
  {
    Restacked(u.jobs, s.jobs, u.nextRank, u.now, t.jobs, i, Advance(s.jobs[i]));
  }

  /** Only tau1 reads the clock: when it starts, and when it is at its end. */
  lemma Instructions(protocol: Protocol, j: Job)
    requires j.task <= 2 && Live(Sys(protocol), j)
    ensures Current(Sys(protocol), j).End? ==> j.task == 0 && j.pc > 0
    ensures j.task == 0 && j.pc == 0 ==> Current(Sys(protocol), j).Begin?
  {}

  lemma MayGoOn(sys: System, s: State, u: State, t: State, i: nat)
    requires Done(sys, u.jobs) && OnTop(s, u, t) && Enabled(sys, s, Next(i))
    ensures Enabled(sys, t, Next(|u.jobs| + i))
  {
    PickedOnTop(sys, s, u, t, i);
    if NobodyWaits(s) { NobodyWaitsOnTop(sys, s, u, t); }
  }

  lemma LockOnTop(sys: System, s: State, u: State, t: State, i: nat)
    requires OnTop(s, u, t) && i < |s.jobs| && Live(sys, s.jobs[i]) && Current(sys, s.jobs[i]).Lock?
    requires s.jobs[i].task != 0 || s.jobs[i].pc > 0
    ensures Live(sys, t.jobs[|u.jobs| + i]) && OnTop(ApplyNext(sys, s, i), u, ApplyNext(sys, t, |u.jobs| + i))
  {
    AdvancedOnTop(s, u, t, i);
    Restacked(u.jobs, s.jobs, u.nextRank, u.now, t.jobs, i, s.jobs[i].(waiting := true));
    if Started(ApplyNext(sys, s, i)) { StillStarted(s, ApplyNext(sys, s, i), i); }
  }

  lemma InstructionOnTop(sys: System, s: State, u: State, t: State, i: nat)
    requires OnTop(s, u, t) && i < |s.jobs| && Live(sys, s.jobs[i]) && !Current(sys, s.jobs[i]).Lock?
    requires s.jobs[i].task == 0 && s.jobs[i].pc == 0 ==> Current(sys, s.jobs[i]).Begin?
    requires Current(sys, s.jobs[i]).End? ==> Started(s)
    ensures Live(sys, t.jobs[|u.jobs| + i]) && OnTop(ApplyNext(sys, s, i), u, ApplyNext(sys, t, |u.jobs| + i))
  {
    AdvancedOnTop(s, u, t, i);
    if Started(ApplyNext(sys, s, i)) && !Current(sys, s.jobs[i]).Begin? { StillStarted(s, ApplyNext(sys, s, i), i); }
  }

  lemma NextOnTop(protocol: Protocol, s: State, u: State, t: State, i: nat)
    requires Done(Sys(protocol), u.jobs) && OnTop(s, u, t) && Enabled(Sys(protocol), s, Next(i)) && s.jobs[i].task <= 2
    ensures Enabled(Sys(protocol), t, Next(|u.jobs| + i))
    ensures OnTop(ApplyNext(Sys(protocol), s, i), u, ApplyNext(Sys(protocol), t, |u.jobs| + i))
  {
    MayGoOn(Sys(protocol), s, u, t, i);
    Instructions(protocol, s.jobs[i]);
    if Current(Sys(protocol), s.jobs[i]).Lock? {
      LockOnTop(Sys(protocol), s, u, t, i);
    } else {
      InstructionOnTop(Sys(protocol), s, u, t, i);
    }
  }

  /** The first job goes on, and the second is woken with a new rank. */
  function HandedOver(s: State, i: nat, w: nat): seq<Job>
    requires i < |s.jobs| && w < |s.jobs|
  {
    s.jobs[i := Advance(s.jobs[i])][w := s.jobs[w].(waiting := false, pc := s.jobs[w].pc + 1, rank := s.nextRank)]
  }

  lemma HandedOverOnTop(s: State, u: State, t: State, i: nat, w: nat)
    requires OnTop(s, u, t) && i < |s.jobs| && w < |s.jobs| && i != w
    ensures Stacked(u.jobs, HandedOver(s, i, w), u.nextRank, u.now, HandedOver(t, |u.jobs| + i, |u.jobs| + w))
  {
    AdvancedOnTop(s, u, t, i);
    Restacked(u.jobs, s.jobs[i := Advance(s.jobs[i])], u.nextRank, u.now,
              t.jobs[|u.jobs| + i := Advance(t.jobs[|u.jobs| + i])],
              w, s.jobs[w].(waiting := false, pc := s.jobs[w].pc + 1, rank := s.nextRank));
  }

  lemma MayHandOver(sys: System, s: State, u: State, t: State, i: nat, w: nat)
    requires Done(sys, u.jobs) && OnTop(s, u, t) && Enabled(sys, s, HandOver(i, w))
    ensures Enabled(sys, t, HandOver(|u.jobs| + i, |u.jobs| + w))
  {
    PickedOnTop(sys, s, u, t, i);
    TopWaiterOnTop(sys, s, u, t, w);
  }

  lemma HandOverOnTop(sys: System, s: State, u: State, t: State, i: nat, w: nat)
    requires OnTop(s, u, t) && Enabled(sys, s, HandOver(i, w)) && Enabled(sys, t, HandOver(|u.jobs| + i, |u.jobs| + w))
    requires Started(Apply(sys, s, HandOver(i, w))) ==> Started(s)
    ensures OnTop(Apply(sys, s, HandOver(i, w)), u, Apply(sys, t, HandOver(|u.jobs| + i, |u.jobs| + w)))
  {
    HandedOverOnTop(s, u, t, i, w);
    assert Apply(sys, s, HandOver(i, w)).jobs == HandedOver(s, i, w);
    assert Apply(sys, t, HandOver(|u.jobs| + i, |u.jobs| + w)).jobs == HandedOver(t, |u.jobs| + i, |u.jobs| + w);
  }

  lemma HandOverStarted(protocol: Protocol, s: State, i: nat, w: nat)
    requires Sane(Sys(protocol), s) && Enabled(Sys(protocol), s, HandOver(i, w))
    requires Started(Apply(Sys(protocol), s, HandOver(i, w)))
    ensures Started(s)
  {
    var t := Apply(Sys(protocol), s, HandOver(i, w));
    var k :| 0 <= k < |t.jobs| && t.jobs[k].task == 0 && t.jobs[k].pc > 0;
    assert JobSane(Sys(protocol), s, k);
    assert k == i || k == w || t.jobs[k] == s.jobs[k];
    if Live(Sys(protocol), s.jobs[k]) { Instructions(protocol, s.jobs[k]); }
    assert s.jobs[k].task == 0 && s.jobs[k].pc > 0;
  }

  lemma IdleOnTop(sys: System, s: State, u: State, t: State)
    requires Done(sys, u.jobs) && OnTop(s, u, t) && Enabled(sys, s, Idle)
    ensures Enabled(sys, t, Idle) && OnTop(Apply(sys, s, Idle), u, Apply(sys, t, Idle))
  {
    forall k | 0 <= k < |t.jobs| ensures !Ready(sys, t.jobs[k]) {
      if Ready(sys, t.jobs[k]) { ReadyOnTop(sys, s, u, t, k); }
    }
  }

  lemma HandOverStepOnTop(protocol: Protocol, s: State, u: State, t: State, i: nat, w: nat)
    requires Sane(Sys(protocol), s) && Done(Sys(protocol), u.jobs) && OnTop(s, u, t)
    requires Enabled(Sys(protocol), s, HandOver(i, w))
    ensures Enabled(Sys(protocol), t, HandOver(|u.jobs| + i, |u.jobs| + w))
    ensures OnTop(Apply(Sys(protocol), s, HandOver(i, w)), u,
                  Apply(Sys(protocol), t, HandOver(|u.jobs| + i, |u.jobs| + w)))
  {
    MayHandOver(Sys(protocol), s, u, t, i, w);
    if Started(Apply(Sys(protocol), s, HandOver(i, w))) { HandOverStarted(protocol, s, i, w); }
    HandOverOnTop(Sys(protocol), s, u, t, i, w);
  }

  lemma NextStepOnTop(protocol: Protocol, s: State, u: State, t: State, i: nat)
    requires Sane(Sys(protocol), s) && Done(Sys(protocol), u.jobs) && OnTop(s, u, t)
             && Enabled(Sys(protocol), s, Next(i))
    ensures Enabled(Sys(protocol), t, Next(|u.jobs| + i))
    ensures OnTop(Apply(Sys(protocol), s, Next(i)), u, Apply(Sys(protocol), t, Next(|u.jobs| + i)))
  {
    assert JobSane(Sys(protocol), s, i);
    NextOnTop(protocol, s, u, t, i);
  }

  lemma StepOnTop(protocol: Protocol, s: State, u: State, t: State, c: Choice)
    requires Sane(Sys(protocol), s) && Done(Sys(protocol), u.jobs) && OnTop(s, u, t) && Enabled(Sys(protocol), s, c)
    requires c.Release? ==> Allowed(u, c.task, s.now)
    ensures Enabled(Sys(protocol), t, OnTopChoice(u, c))
    ensures OnTop(Apply(Sys(protocol), s, c), u, Apply(Sys(protocol), t, OnTopChoice(u, c)))
  {
    match c
    case Release(task) => ReleaseOnTop(protocol, s, u, t, task);
    case Tick(i) => TickOnTop(Sys(protocol), s, u, t, i);
    case Next(i) => NextStepOnTop(protocol, s, u, t, i);
    case HandOver(i, w) => HandOverStepOnTop(protocol, s, u, t, i, w);
    case Idle => IdleOnTop(Sys(protocol), s, u, t);
  }

  /** Releases stay in the list of jobs. */
  lemma JobsContinue(sys: System, s: State, c: Choice)
    requires Enabled(sys, s, c)
    ensures Continues(s.jobs, Apply(sys, s, c).jobs)
    ensures c.Release? ==>
              Apply(sys, s, c).jobs[|s.jobs|].task == c.task
              && Apply(sys, s, c).jobs[|s.jobs|].released == s.now
                           && |Apply(sys, s, c).jobs| == |s.jobs| + 1
  {}

  predicate AllAllowed(u: State, jobs: seq<Job>) {
    forall k :: 0 <= k < |jobs| ==> Allowed(u, jobs[k].task, jobs[k].released)
  }

  lemma BeforeAllowed(u: State, a: seq<Job>, b: seq<Job>)
    requires Continues(a, b) && AllAllowed(u, b)
    ensures AllAllowed(u, a)
  {
    forall k | 0 <= k < |a| ensures Allowed(u, a[k].task, a[k].released) {
      assert Allowed(u, b[k].task, b[k].released);
    }
  }

  /** What happens from the start can also happen later, on top of jobs that are done, if the
      timers allow it. */
  lemma {:induction false} RunOnTop(protocol: Protocol, past: seq<Choice>, u: State, choices: seq<Choice>, s: State)
    returns (all: seq<Choice>, t: State)
    requires Reachable(Sys(protocol), past, u) && Resting(Sys(protocol), u)
    requires Reachable(Sys(protocol), choices, s) && AllAllowed(u, s.jobs)
    ensures Reachable(Sys(protocol), all, t) && OnTop(s, u, t)
    decreases |choices|
  {
    var sys := Sys(protocol);
    if choices == [] {
      all, t := past, u;
    } else {
      var last := |choices| - 1;
      var before, c := Run(sys, choices[..last]).value, choices[last];
      JobsContinue(sys, before, c);
      BeforeAllowed(u, before.jobs, s.jobs);
      all, t := RunOnTop(protocol, past, u, choices[..last], before);
      Hw3Programs();
      Inheritance.SaneRun(sys, choices[..last], before);
      StepOnTop(protocol, before, u, t, c);
      all := Extend(sys, all, t, OnTopChoice(u, c));
      t := Apply(sys, t, OnTopChoice(u, c));
    }
  }

  // ---------- The worst order of releases ----------

  /** A time at which tau2 is due, 30 ticks before tau1 and 40 before tau3. */
  const WORST: nat := 3373639

  lemma WorstTime()
    ensures WORST % PERIOD2 == 0 && (WORST + 30) % PERIOD1 == 0 && (WORST + 40) % PERIOD3 == 0
  {}

  /** The three releases of the runs in `Exactness`. */
  predicate WorstJobs(jobs: seq<Job>) {
    && |jobs| == 3
    && jobs[0].task == 1 && jobs[0].released == 0
    && jobs[1].task == 0 && jobs[1].released == 30
    && jobs[2].task == 2 && jobs[2].released == 40
  }

  lemma WorstAllowed(u: State, jobs: seq<Job>)
    requires u.now == WORST && FiredBelow(u.jobs, WORST, 0) && WorstJobs(jobs)
    ensures AllAllowed(u, jobs)
  {
    WorstTime();
    forall k, i | 0 <= k < 3 && 0 <= i < |u.jobs| && u.jobs[i].task == jobs[k].task
      ensures u.jobs[i].released + PeriodOf(jobs[k].task) <= WORST + jobs[k].released
    {
      Apart(jobs[k].task, u.jobs[i].released, WORST + jobs[k].released);
    }
  }

  lemma OnceInTheWindow(t: nat, at: nat)
    requires t <= 2 && WORST <= at <= WORST + 150 && at % PeriodOf(t) == 0
    ensures at == WORST + if t == 1 then 0 else if t == 0 then 30 else 40
  {
    WorstTime();
    var due := WORST + if t == 1 then 0 else if t == 0 then 30 else 40;
    if at < due { Apart(t, at, due); }
    if due < at { Apart(t, due, at); }
  }

  lemma WorstStaysPeriodic(s: State, u: State, t: State)
    requires u.now == WORST && FiredBelow(u.jobs, WORST, 0) && OnTop(s, u, t) && WorstJobs(s.jobs) && 40 <= s.now <= 150
    ensures PeriodicUpTo(t.jobs, t.now)
  {
    WorstTime();
    var n := |u.jobs|;
    assert t.jobs[n] == Later(s.jobs[0], u.nextRank, WORST);
    assert t.jobs[n + 1] == Later(s.jobs[1], u.nextRank, WORST);
    assert t.jobs[n + 2] == Later(s.jobs[2], u.nextRank, WORST);
    forall task: nat, at: nat | task <= 2 && 0 < at <= t.now && at % PeriodOf(task) == 0
      ensures Fired(t.jobs, task, at)
    {
      if at < WORST {
        assert Fired(u.jobs, task, at);
        StillFired(u.jobs, t.jobs, task, at);
      } else {
        OnceInTheWindow(task, at);
      }
    }
  }

  /** Timers that are started together and strictly periodic give this response in some run. */
  ghost predicate Attained(protocol: Protocol, response: int) {
    exists choices, s :: Reachable(Sys(protocol), choices, s) && PeriodicUpTo(s.jobs, s.now) && response in s.results
  }

  lemma AttainedOnTop(protocol: Protocol, choices: seq<Choice>, s: State, response: int)
    requires Reachable(Sys(protocol), choices, s) && WorstJobs(s.jobs) && 40 <= s.now <= 150 && response in s.results
    ensures Attained(protocol, response)
  {
    var past, u := QuietRun(protocol, WORST - 1);
    past, u := NextTime(protocol, past, u);
    WorstAllowed(u, s.jobs);
    var all, t := RunOnTop(protocol, past, u, choices, s);
    WorstStaysPeriodic(s, u, t);
  }

  /** Without a protocol 120 is recorded by the program's own timers, so the bound is tight ... */
  lemma PlainAttained()
    ensures Attained(Plain, 120)
  {
    PlainRun();
    var choices :| Reachable(Sys(Plain), choices, Finished(130, 7));
    AttainedOnTop(Plain, choices, Finished(130, 7), 120);
  }

  /** ... and so is 50 with inheritance. */
  lemma InheritAttained()
    ensures Attained(Inherit, 50)
  {
    InheritRun();
    var choices :| Reachable(Sys(Inherit), choices, Finished(60, 0));
    AttainedOnTop(Inherit, choices, Finished(60, 0), 50);
  }
  /** With the ceiling 30 is recorded, although 50 have passed since the release. */
  lemma ProtectAttained()
    ensures Attained(Protect(99), 30)
  {
    ProtectRun();
    var choices :| Reachable(Sys(Protect(99)), choices, CappedEnd());
    AttainedOnTop(Protect(99), choices, CappedEnd(), 30);
  }
}
