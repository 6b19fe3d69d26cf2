/** PTHREAD_PRIO_INHERIT: the most urgent task is delayed at most once per lock, and then
    only by what is left of one critical section. */
module Inheritance {
  import opened Options
  import opened Scheduling
  import opened Programs

  ghost predicate StartsOnce(prog: seq<Instr>) {
    && |prog| > 0
    && prog[0].Begin?
    && forall pc :: 0 < pc < |prog| ==> !prog[pc].Begin?
  }

  /** Task 0 has the highest priority and is the only one that reads the clock. */
  ghost predicate UrgentFirst(sys: System) {
    && |sys.tasks| > 0
    && (forall t :: 0 < t < |sys.tasks| ==> sys.tasks[t].priority < sys.tasks[0].priority)
    && (forall t, pc :: 0 < t < |sys.tasks| && 0 <= pc < |sys.tasks[t].program| ==>
          !sys.tasks[t].program[pc].Begin? && !sys.tasks[t].program[pc].End?)
    && StartsOnce(sys.tasks[0].program)
  }

  /** The other tasks' critical sections take at most `longest` ticks. */
  ghost predicate OthersWithin(sys: System, longest: nat) {
    forall t :: 0 < t < |sys.tasks| ==> SectionsWithin(sys.tasks[t].program, longest)
  }

  /** A timer never releases the urgent task again within `bound` ticks. */
  predicate SpacedBeyond(sys: System, bound: nat)
    requires |sys.tasks| > 0
  {
    match sys.tasks[0].arrival
    case Timer(separation) => bound < separation
    case Loop => true
  }

  ghost predicate Setting(sys: System, longest: nat) {
    && WellFormed(sys)
    && UrgentFirst(sys)
    && OthersWithin(sys, longest)
  }

  /** At most the newest job of the urgent task is unfinished. */
  predicate OneUrgent(sys: System, s: State) {
    forall i, k :: 0 <= i < k < |s.jobs| && s.jobs[i].task == s.jobs[k].task == 0 ==> !Live(sys, s.jobs[i])
  }

  /** Steps that neither release nor revive a job leave one urgent job. */
  lemma StillOneUrgent(sys: System, s: State, t: State)
    requires OneUrgent(sys, s) && |t.jobs| == |s.jobs|
    requires forall k :: 0 <= k < |s.jobs| ==> t.jobs[k].task == s.jobs[k].task && s.jobs[k].pc <= t.jobs[k].pc
    ensures OneUrgent(sys, t)
  {}

  predicate IsUrgent(sys: System, s: State, u: nat) {
    u < |s.jobs| && s.jobs[u].task == 0 && Live(sys, s.jobs[u])
  }

  /** Urgent jobs do not overlap, and an unfinished one was released at most `bound` ago. */
  ghost predicate AllWithin(sys: System, s: State, bound: nat) {
    OneUrgent(sys, s) && forall u: nat :: IsUrgent(sys, s, u) ==> s.now - s.jobs[u].released <= bound
  }

  function Bound(sys: System, longest: nat): nat
    requires |sys.tasks| > 0
  {
    Cost(sys.tasks[0].program, 0, longest)
  }

  /** The unfinished urgent job will meet the bound even if all remaining work takes its maximum. */
  predicate OnTime(sys: System, longest: nat, s: State, u: nat)
    requires |sys.tasks| > 0 && IsUrgent(sys, s, u)
  {
    var j := s.jobs[u];
    && (if j.pc == 0 then j.released == s.now else s.startTime == j.released)
    && (if j.waiting
        then && s.owner.Some? && s.owner.value < |s.jobs| && s.owner.value != u
             && s.now - j.released + Left(sys, j, longest) - longest + SectionLeft(sys, s.jobs[s.owner.value])
                <= Bound(sys, longest)
        else s.now - j.released + Left(sys, j, longest) <= Bound(sys, longest))
  }

  ghost predicate Inv(sys: System, longest: nat, s: State)
    requires |sys.tasks| > 0
  {
    && Sane(sys, s)
    && OneUrgent(sys, s)
    && (forall u: nat :: IsUrgent(sys, s, u) ==> OnTime(sys, longest, s, u))
    && (forall k :: 0 <= k < |s.results| ==> s.results[k] <= Bound(sys, longest))
  }

  lemma UrgentIsUnique(sys: System, s: State, u: nat, k: nat)
    requires |sys.tasks| > 0 && OneUrgent(sys, s) && IsUrgent(sys, s, u) && IsUrgent(sys, s, k)
    ensures u == k
  {}

  /** A ready urgent job has the processor. */
  lemma UrgentRuns(sys: System, s: State, u: nat, i: nat)
    requires sys.protocol.Inherit? && UrgentFirst(sys) && Sane(sys, s) && OneUrgent(sys, s)
    requires IsUrgent(sys, s, u) && !s.jobs[u].waiting && Picked(sys, s, i)
    ensures i == u
  {
    if i != u {
      assert Before(sys, s, i, u);
      assert JobSane(sys, s, i) && JobSane(sys, s, u);
      assert s.jobs[i].task != 0 by { if s.jobs[i].task == 0 { UrgentIsUnique(sys, s, u, i); } }
      forall k | 0 <= k < |s.jobs| && s.jobs[k].waiting ensures s.jobs[k].task != 0 {
        assert JobSane(sys, s, k);
      }
      assert false;
    }
  }

  /** While the urgent job waits, the owner has the processor. */
  lemma OwnerRuns(sys: System, s: State, u: nat, i: nat)
    requires sys.protocol.Inherit? && WellFormed(sys) && UrgentFirst(sys) && Sane(sys, s) && OneUrgent(sys, s)
    requires IsUrgent(sys, s, u) && s.jobs[u].waiting && Picked(sys, s, i)
    ensures s.owner == Some(i) && i != u && s.jobs[i].task != 0
  {
    assert JobSane(sys, s, u);
    var h := s.owner.value;
    OwnerIsReady(sys, s);
    assert JobSane(sys, s, i) && JobSane(sys, s, h);
    assert s.jobs[i].task != 0 by { if s.jobs[i].task == 0 { UrgentIsUnique(sys, s, u, i); } }
    assert Effective(sys, s, h) >= Base(sys, s.jobs[u]);
  }

  lemma UrgentWithin(sys: System, longest: nat, s: State, u: nat)
    requires |sys.tasks| > 0 && Inv(sys, longest, s) && IsUrgent(sys, s, u)
    ensures s.now - s.jobs[u].released <= Bound(sys, longest)
  {
    assert OnTime(sys, longest, s, u) && JobSane(sys, s, u);
    if s.jobs[u].waiting { assert JobSane(sys, s, s.owner.value); }
  }

  lemma ReleaseKeeps(sys: System, longest: nat, s: State, r: nat)
    requires sys.protocol.Inherit? && Setting(sys, longest) && SpacedBeyond(sys, Bound(sys, longest))
    requires Inv(sys, longest, s) && Enabled(sys, s, Release(r))
    ensures Inv(sys, longest, Apply(sys, s, Release(r)))
  {
    var t := Apply(sys, s, Release(r));
    ReleaseSane(sys, s, r);
    if r == 0 {
      forall i | 0 <= i < |s.jobs| && s.jobs[i].task == 0 ensures !Live(sys, s.jobs[i]) {
        if IsUrgent(sys, s, i) { UrgentWithin(sys, longest, s, i); }
      }
    }
    forall u: nat | IsUrgent(sys, t, u) ensures OnTime(sys, longest, t, u) {
      if u < |s.jobs| { assert IsUrgent(sys, s, u); }
    }
  }

  lemma TickKeeps(sys: System, longest: nat, s: State, i: nat)
    requires sys.protocol.Inherit? && Setting(sys, longest)
    requires Inv(sys, longest, s) && Enabled(sys, s, Tick(i))
    ensures Inv(sys, longest, Apply(sys, s, Tick(i)))
  {
    var t := Apply(sys, s, Tick(i));
    TickSane(sys, s, i);
    StillOneUrgent(sys, s, t);
    forall u: nat | IsUrgent(sys, t, u) ensures OnTime(sys, longest, t, u) {
      assert IsUrgent(sys, s, u) && JobSane(sys, s, u) && OnTime(sys, longest, s, u);
      if s.jobs[u].waiting { OwnerRuns(sys, s, u, i); } else { UrgentRuns(sys, s, u, i); }
    }
  }

  lemma OwnerNextOnTime(sys: System, longest: nat, s: State, i: nat, u: nat)
    requires sys.protocol.Inherit? && Setting(sys, longest)
    requires Inv(sys, longest, s) && Enabled(sys, s, Next(i))
    requires IsUrgent(sys, s, u) && s.jobs[u].waiting
    ensures IsUrgent(sys, Apply(sys, s, Next(i)), u) && OnTime(sys, longest, Apply(sys, s, Next(i)), u)
  {
    OwnerRuns(sys, s, u, i);
    assert OnTime(sys, longest, s, u);
    assert JobSane(sys, s, i);
    assert Holds(sys, s.jobs[i]) && Balanced(Prog(sys, s.jobs[i]));
    assert Current(sys, s.jobs[i]).Work?;
  }

  lemma OwnerIsNotUrgent(sys: System, s: State, u: nat)
    requires WellFormed(sys) && UrgentFirst(sys) && Sane(sys, s) && OneUrgent(sys, s)
    requires IsUrgent(sys, s, u) && s.owner.Some? && s.owner.value != u
    ensures 0 < s.jobs[s.owner.value].task < |sys.tasks|
  {
    OwnerIsReady(sys, s);
    assert JobSane(sys, s, s.owner.value);
  }

  lemma UrgentNextOnTime(sys: System, longest: nat, s: State, u: nat)
    requires sys.protocol.Inherit? && Setting(sys, longest)
    requires Inv(sys, longest, s) && Enabled(sys, s, Next(u)) && IsUrgent(sys, s, u)
    requires IsUrgent(sys, Apply(sys, s, Next(u)), u)
    ensures OnTime(sys, longest, Apply(sys, s, Next(u)), u)
  {
    var t := Apply(sys, s, Next(u));
    assert OnTime(sys, longest, s, u);
    assert JobSane(sys, s, u);
    if t.jobs[u].waiting {
      assert !Holds(sys, s.jobs[u]) by { assert Balanced(Prog(sys, s.jobs[u])); }
      OwnerIsNotUrgent(sys, s, u);
      assert JobSane(sys, s, s.owner.value);
      assert SectionsWithin(Prog(sys, s.jobs[s.owner.value]), longest);
    }
  }

  lemma NextOnTime(sys: System, longest: nat, s: State, i: nat, u: nat)
    requires sys.protocol.Inherit? && Setting(sys, longest)
    requires Inv(sys, longest, s) && Enabled(sys, s, Next(i))
    requires IsUrgent(sys, Apply(sys, s, Next(i)), u)
    ensures OnTime(sys, longest, Apply(sys, s, Next(i)), u)
  {
    assert IsUrgent(sys, s, u);
    if s.jobs[u].waiting {
      OwnerNextOnTime(sys, longest, s, i, u);
    } else {
      UrgentRuns(sys, s, u, i);
      UrgentNextOnTime(sys, longest, s, u);
    }
  }

  lemma RecordedInBound(sys: System, longest: nat, s: State, i: nat)
    requires Setting(sys, longest)
    requires Inv(sys, longest, s) && Enabled(sys, s, Next(i)) && Current(sys, s.jobs[i]).End?
    ensures s.now - s.startTime <= Bound(sys, longest)
  {
    assert JobSane(sys, s, i);
    assert s.jobs[i].task == 0;
    assert IsUrgent(sys, s, i) && OnTime(sys, longest, s, i);
  }

  lemma NextKeeps(sys: System, longest: nat, s: State, i: nat)
    requires sys.protocol.Inherit? && Setting(sys, longest)
    requires Inv(sys, longest, s) && Enabled(sys, s, Next(i))
    ensures Inv(sys, longest, Apply(sys, s, Next(i)))
  {
    var t := Apply(sys, s, Next(i));
    NextSane(sys, s, i);
    StillOneUrgent(sys, s, t);
    forall u: nat | IsUrgent(sys, t, u) ensures OnTime(sys, longest, t, u) {
      NextOnTime(sys, longest, s, i, u);
    }
    if Current(sys, s.jobs[i]).End? { RecordedInBound(sys, longest, s, i); }
  }

  lemma HandOverOnTime(sys: System, longest: nat, s: State, i: nat, w: nat, u: nat)
    requires sys.protocol.Inherit? && Setting(sys, longest)
    requires Inv(sys, longest, s) && Enabled(sys, s, HandOver(i, w))
    requires IsUrgent(sys, Apply(sys, s, HandOver(i, w)), u)
    ensures OnTime(sys, longest, Apply(sys, s, HandOver(i, w)), u)
  {
    assert IsUrgent(sys, s, u) && OnTime(sys, longest, s, u);
    assert JobSane(sys, s, i) && JobSane(sys, s, w);
    if s.jobs[u].waiting {
      OwnerRuns(sys, s, u, i);
      assert w == u;
    } else {
      UrgentRuns(sys, s, u, i);
    }
  }

  lemma HandOverKeeps(sys: System, longest: nat, s: State, i: nat, w: nat)
    requires sys.protocol.Inherit? && Setting(sys, longest)
    requires Inv(sys, longest, s) && Enabled(sys, s, HandOver(i, w))
    ensures Inv(sys, longest, Apply(sys, s, HandOver(i, w)))
  {
    var t := Apply(sys, s, HandOver(i, w));
    HandOverSane(sys, s, i, w);
    StillOneUrgent(sys, s, t);
    forall u: nat | IsUrgent(sys, t, u) ensures OnTime(sys, longest, t, u) {
      HandOverOnTime(sys, longest, s, i, w, u);
    }
  }

  lemma IdleKeeps(sys: System, longest: nat, s: State)
    requires sys.protocol.Inherit? && Setting(sys, longest)
    requires Inv(sys, longest, s) && Enabled(sys, s, Idle)
    ensures Inv(sys, longest, Apply(sys, s, Idle))
  {
    StepSane(sys, s, Idle);
    forall u: nat ensures !IsUrgent(sys, Apply(sys, s, Idle), u) {
      if IsUrgent(sys, s, u) {
        assert JobSane(sys, s, u);
        if s.jobs[u].waiting { OwnerIsReady(sys, s); }
      }
    }
  }

  lemma {:induction false} RunKeeps(sys: System, longest: nat, choices: seq<Choice>, s: State)
    requires sys.protocol.Inherit? && Setting(sys, longest) && SpacedBeyond(sys, Bound(sys, longest))
    requires Reachable(sys, choices, s)
    ensures Inv(sys, longest, s)
    decreases |choices|
  {
    if choices == [] {
      InitSane(sys);
    } else {
      var last := |choices| - 1;
      var before := Run(sys, choices[..last]).value;
      RunKeeps(sys, longest, choices[..last], before);
      match choices[last]
      case Release(r) => ReleaseKeeps(sys, longest, before, r);
      case Tick(i) => TickKeeps(sys, longest, before, i);
      case Next(i) => NextKeeps(sys, longest, before, i);
      case HandOver(i, w) => HandOverKeeps(sys, longest, before, i, w);
      case Idle => IdleKeeps(sys, longest, before);
    }
  }

  /** Every response time the program records, and the age of every unfinished urgent job, is at
      most its own work plus one critical section of another task per lock, whatever the other
      tasks and their load. */
  lemma ResponseBound(sys: System, longest: nat, choices: seq<Choice>, s: State)
    requires sys.protocol.Inherit? && Setting(sys, longest) && SpacedBeyond(sys, Bound(sys, longest))
    requires Reachable(sys, choices, s)
    ensures forall k :: 0 <= k < |s.results| ==> s.results[k] <= Bound(sys, longest)
    ensures AllWithin(sys, s, Bound(sys, longest))
  {
    RunKeeps(sys, longest, choices, s);
    forall u: nat | IsUrgent(sys, s, u) ensures s.now - s.jobs[u].released <= Bound(sys, longest) {
      UrgentWithin(sys, longest, s, u);
    }
  }

  /** Whoever has the processor while the urgent job waits is the owner of the mutex. */
  lemma OnlyOwnerDelays(sys: System, longest: nat, choices: seq<Choice>, s: State, u: nat, i: nat)
    requires sys.protocol.Inherit? && Setting(sys, longest) && SpacedBeyond(sys, Bound(sys, longest))
    requires Reachable(sys, choices, s)
    requires IsUrgent(sys, s, u) && s.jobs[u].waiting && Picked(sys, s, i)
    ensures s.owner == Some(i) && i != u
  {
    RunKeeps(sys, longest, choices, s);
    OwnerRuns(sys, s, u, i);
  }

  lemma {:induction false} SaneRun(sys: System, choices: seq<Choice>, s: State)
    requires WellFormed(sys) && Reachable(sys, choices, s)
    ensures Sane(sys, s)
    decreases |choices|
  {
    if choices == [] {
      InitSane(sys);
    } else {
      var last := |choices| - 1;
      var before := Run(sys, choices[..last]).value;
      SaneRun(sys, choices[..last], before);
      StepSane(sys, before, choices[last]);
    }
  }

  /** A job above its base priority is inside its critical section, and a job of just that
      priority waits at its lock; so with the mutex free everybody is back at base. */
  lemma BoostedByWaiter(sys: System, choices: seq<Choice>, s: State, i: nat)
    requires sys.protocol.Inherit? && WellFormed(sys) && Reachable(sys, choices, s)
    requires i < |s.jobs| && Effective(sys, s, i) != Base(sys, s.jobs[i])
    ensures s.owner == Some(i) && Live(sys, s.jobs[i]) && Holds(sys, s.jobs[i])
    ensures exists w :: 0 <= w < |s.jobs| && s.jobs[w].waiting && Base(sys, s.jobs[w]) == Effective(sys, s, i)
                        && Live(sys, s.jobs[w]) && Current(sys, s.jobs[w]).Lock?
  {
    SaneRun(sys, choices, s);
    OwnerIsReady(sys, s);
    assert JobSane(sys, s, i);
    var w :| 0 <= w < |s.jobs| && s.jobs[w].waiting && Base(sys, s.jobs[w]) == MaxWaiting(sys, s.jobs);
    assert JobSane(sys, s, w);
  }
}
