/** PTHREAD_PRIO_PROTECT: nobody ever waits for the mutex, and the most urgent task runs
    from its first instruction to its last without losing the processor. */
module Ceiling {
  import opened Options
  import opened Scheduling
  import opened Programs
  import opened Inheritance

  /** No task's priority exceeds the ceiling of the mutex. */
  predicate Covers(sys: System) {
    && sys.protocol.Protect?
    && forall t :: 0 <= t < |sys.tasks| ==> sys.tasks[t].priority <= sys.protocol.ceiling
  }

  /** Job h precedes every other unfinished job once it runs at the ceiling. */
  predicate Outranks(sys: System, s: State, h: nat)
    requires sys.protocol.Protect? && h < |s.jobs|
  {
    forall k :: 0 <= k < |s.jobs| && k != h && Live(sys, s.jobs[k]) ==>
      Base(sys, s.jobs[k]) < sys.protocol.ceiling || s.jobs[h].rank < s.jobs[k].rank
  }

  /** While the mutex is held, its owner keeps the processor. */
  ghost predicate Undisturbed(sys: System, s: State)
    requires sys.protocol.Protect?
  {
    && Sane(sys, s)
    && NobodyWaits(s)
    && (s.owner.Some? ==> Outranks(sys, s, s.owner.value))
  }

  lemma OwnerHasProcessor(sys: System, s: State, i: nat)
    requires Covers(sys) && WellFormed(sys) && Undisturbed(sys, s)
    requires s.owner.Some? && Picked(sys, s, i)
    ensures s.owner == Some(i)
  {
    OwnerIsReady(sys, s);
    var h := s.owner.value;
    assert JobSane(sys, s, h) && JobSane(sys, s, i);
    assert Effective(sys, s, h) == sys.protocol.ceiling;
  }

  lemma NextUndisturbed(sys: System, s: State, i: nat)
    requires Covers(sys) && WellFormed(sys) && Undisturbed(sys, s) && Enabled(sys, s, Next(i))
    ensures Undisturbed(sys, Apply(sys, s, Next(i)))
  {
    NextSane(sys, s, i);
    var t := Apply(sys, s, Next(i));
    assert JobSane(sys, s, i);
    if s.owner.Some? { OwnerHasProcessor(sys, s, i); }
    assert !t.jobs[i].waiting by {
      if Current(sys, s.jobs[i]).Lock? { assert Balanced(Prog(sys, s.jobs[i])); }
    }
    if t.owner.Some? {
      assert t.owner == Some(i);
      forall k | 0 <= k < |t.jobs| && k != i && Live(sys, t.jobs[k])
        ensures Base(sys, t.jobs[k]) < sys.protocol.ceiling || t.jobs[i].rank < t.jobs[k].rank
      {
        assert Ready(sys, s.jobs[k]) && JobSane(sys, s, k);
        if s.owner.None? { assert Before(sys, s, i, k); }
      }
    }
  }

  lemma StepUndisturbed(sys: System, s: State, c: Choice)
    requires Covers(sys) && WellFormed(sys) && Undisturbed(sys, s) && Enabled(sys, s, c)
    ensures Undisturbed(sys, Apply(sys, s, c))
  {
    StepSane(sys, s, c);
    match c
    case Release(r) =>
      if s.owner.Some? { assert JobSane(sys, s, s.owner.value); }
    case Tick(i) =>
    case Next(i) => NextUndisturbed(sys, s, i);
    case HandOver(i, w) =>
    case Idle =>
  }

  lemma {:induction false} RunUndisturbed(sys: System, choices: seq<Choice>, s: State)
    requires Covers(sys) && WellFormed(sys) && Reachable(sys, choices, s)
    ensures Undisturbed(sys, s)
    decreases |choices|
  {
    if choices == [] {
      InitSane(sys);
    } else {
      var last := |choices| - 1;
      var before := Run(sys, choices[..last]).value;
      RunUndisturbed(sys, choices[..last], before);
      StepUndisturbed(sys, before, choices[last]);
    }
  }

  /** In no reachable state does any job wait for the mutex, whatever the tasks and their load. */
  lemma NeverAWaiter(sys: System, choices: seq<Choice>, s: State)
    requires Covers(sys) && WellFormed(sys) && Reachable(sys, choices, s)
    ensures NobodyWaits(s)
  {
    RunUndisturbed(sys, choices, s);
  }

  // ---------- Response of the most urgent task ----------

  /** Time the urgent job may still have to let another task's critical section finish. */
  function Blocking(sys: System, s: State, u: nat): int {
    if s.owner.Some? && s.owner.value < |s.jobs| && s.owner.value != u
    then SectionLeft(sys, s.jobs[s.owner.value])
    else 0
  }

  predicate OnSchedule(sys: System, longest: nat, s: State, u: nat)
    requires |sys.tasks| > 0 && IsUrgent(sys, s, u)
  {
    var j := s.jobs[u];
    if j.pc == 0
    then s.now - j.released + Blocking(sys, s, u) <= longest
    else
      && s.owner in {None, Some(u)}
      && s.startTime <= s.now
      && s.startTime - j.released <= longest
      && s.now - s.startTime + Left(sys, j, 0) <= Bound(sys, 0)
  }

  ghost predicate Timely(sys: System, longest: nat, s: State)
    requires sys.protocol.Protect? && |sys.tasks| > 0
  {
    && Undisturbed(sys, s)
    && OneUrgent(sys, s)
    && (forall u: nat :: IsUrgent(sys, s, u) ==> OnSchedule(sys, longest, s, u))
    && (forall k :: 0 <= k < |s.results| ==> s.results[k] <= Bound(sys, 0))
  }

  /** With the mutex free or held by the urgent job, nobody else gets the processor. */
  lemma UrgentHasProcessor(sys: System, s: State, u: nat, i: nat)
    requires Covers(sys) && WellFormed(sys) && UrgentFirst(sys) && Undisturbed(sys, s) && OneUrgent(sys, s)
    requires IsUrgent(sys, s, u) && Picked(sys, s, i) && s.owner in {None, Some(u)}
    ensures i == u
  {}

  lemma LeftIsLeft(sys: System, s: State, k: nat, delay: nat)
    requires Sane(sys, s) && k < |s.jobs|
    ensures Left(sys, s.jobs[k], delay) >= 0
    ensures Holds(sys, s.jobs[k]) && WellFormed(sys) ==> SectionLeft(sys, s.jobs[k]) >= 0
  {
    assert JobSane(sys, s, k);
    if Holds(sys, s.jobs[k]) && WellFormed(sys) {
      assert Balanced(Prog(sys, s.jobs[k]));
    }
  }

  lemma UrgentSince(sys: System, longest: nat, s: State, u: nat)
    requires Covers(sys) && Setting(sys, longest) && Timely(sys, longest, s) && IsUrgent(sys, s, u)
    ensures s.now - s.jobs[u].released <= longest + Bound(sys, 0)
  {
    assert OnSchedule(sys, longest, s, u);
    LeftIsLeft(sys, s, u, 0);
    if s.owner.Some? { assert JobSane(sys, s, s.owner.value); LeftIsLeft(sys, s, s.owner.value, 0); }
  }

  lemma BlockingIsBounded(sys: System, longest: nat, s: State, u: nat)
    requires Setting(sys, longest) && Sane(sys, s) && OneUrgent(sys, s)
    requires forall k :: 0 <= k < |s.jobs| && s.jobs[k].task == 0 && Live(sys, s.jobs[k]) ==> k == u
    ensures Blocking(sys, s, u) <= longest
  {
    if s.owner.Some? && s.owner.value != u {
      var h := s.owner.value;
      OwnerIsReady(sys, s);
      assert JobSane(sys, s, h);
      assert SectionsWithin(Prog(sys, s.jobs[h]), longest);
    }
  }

  lemma ReleaseTimely(sys: System, longest: nat, s: State, r: nat)
    requires Covers(sys) && Setting(sys, longest) && SpacedBeyond(sys, longest + Bound(sys, 0))
    requires Timely(sys, longest, s) && Enabled(sys, s, Release(r))
    ensures Timely(sys, longest, Apply(sys, s, Release(r)))
  {
    var t := Apply(sys, s, Release(r));
    StepUndisturbed(sys, s, Release(r));
    if r == 0 {
      forall i | 0 <= i < |s.jobs| && s.jobs[i].task == 0 ensures !Live(sys, s.jobs[i]) {
        if IsUrgent(sys, s, i) { UrgentSince(sys, longest, s, i); }
      }
      BlockingIsBounded(sys, longest, t, |s.jobs|);
    }
    forall u: nat | IsUrgent(sys, t, u) ensures OnSchedule(sys, longest, t, u) {
      if u < |s.jobs| { assert IsUrgent(sys, s, u) && OnSchedule(sys, longest, s, u); }
    }
  }

  lemma TickTimely(sys: System, longest: nat, s: State, i: nat)
    requires Covers(sys) && Setting(sys, longest)
    requires Timely(sys, longest, s) && Enabled(sys, s, Tick(i))
    ensures Timely(sys, longest, Apply(sys, s, Tick(i)))
  {
    var t := Apply(sys, s, Tick(i));
    StepUndisturbed(sys, s, Tick(i));
    StillOneUrgent(sys, s, t);
    forall u: nat | IsUrgent(sys, t, u) ensures OnSchedule(sys, longest, t, u) {
      assert IsUrgent(sys, s, u) && OnSchedule(sys, longest, s, u);
      if s.owner in {None, Some(u)} { UrgentHasProcessor(sys, s, u, i); }
      else { OwnerHasProcessor(sys, s, i); }
    }
  }

  lemma NextOnSchedule(sys: System, longest: nat, s: State, i: nat, u: nat)
    requires Covers(sys) && Setting(sys, longest)
    requires Timely(sys, longest, s) && Enabled(sys, s, Next(i))
    requires IsUrgent(sys, Apply(sys, s, Next(i)), u)
    ensures OnSchedule(sys, longest, Apply(sys, s, Next(i)), u)
  {
    assert IsUrgent(sys, s, u) && OnSchedule(sys, longest, s, u);
    assert JobSane(sys, s, i);
    if s.owner in {None, Some(u)} {
      UrgentHasProcessor(sys, s, u, i);
    } else {
      OwnerHasProcessor(sys, s, i);
      assert Balanced(Prog(sys, s.jobs[i]));
    }
  }

  lemma RecordOnSchedule(sys: System, longest: nat, s: State, i: nat)
    requires Covers(sys) && Setting(sys, longest)
    requires Timely(sys, longest, s) && Enabled(sys, s, Next(i)) && Current(sys, s.jobs[i]).End?
    ensures s.now - s.startTime <= Bound(sys, 0)
  {
    assert JobSane(sys, s, i);
    assert s.jobs[i].task == 0;
    assert IsUrgent(sys, s, i) && OnSchedule(sys, longest, s, i);
  }

  lemma NextTimely(sys: System, longest: nat, s: State, i: nat)
    requires Covers(sys) && Setting(sys, longest)
    requires Timely(sys, longest, s) && Enabled(sys, s, Next(i))
    ensures Timely(sys, longest, Apply(sys, s, Next(i)))
  {
    var t := Apply(sys, s, Next(i));
    StepUndisturbed(sys, s, Next(i));
    StillOneUrgent(sys, s, t);
    forall u: nat | IsUrgent(sys, t, u) ensures OnSchedule(sys, longest, t, u) {
      NextOnSchedule(sys, longest, s, i, u);
    }
    if Current(sys, s.jobs[i]).End? { RecordOnSchedule(sys, longest, s, i); }
  }

  lemma IdleTimely(sys: System, longest: nat, s: State)
    requires Covers(sys) && Setting(sys, longest)
    requires Timely(sys, longest, s) && Enabled(sys, s, Idle)
    ensures Timely(sys, longest, Apply(sys, s, Idle))
  {
    StepUndisturbed(sys, s, Idle);
    forall u: nat ensures !IsUrgent(sys, Apply(sys, s, Idle), u) {
      if u < |s.jobs| { assert !Ready(sys, s.jobs[u]) && !s.jobs[u].waiting; }
    }
  }

  lemma {:induction false} RunTimely(sys: System, longest: nat, choices: seq<Choice>, s: State)
    requires Covers(sys) && Setting(sys, longest) && SpacedBeyond(sys, longest + Bound(sys, 0))
    requires Reachable(sys, choices, s)
    ensures Timely(sys, longest, s)
    decreases |choices|
  {
    if choices == [] {
      InitSane(sys);
    } else {
      var last := |choices| - 1;
      var before := Run(sys, choices[..last]).value;
      RunTimely(sys, longest, choices[..last], before);
      match choices[last]
      case Release(r) => ReleaseTimely(sys, longest, before, r);
      case Tick(i) => TickTimely(sys, longest, before, i);
      case Next(i) => NextTimely(sys, longest, before, i);
      case HandOver(i, w) =>
      case Idle => IdleTimely(sys, longest, before);
    }
  }

  /** Recorded responses contain no delay at all; from its release an urgent job needs at
      most one foreign critical section more; and once it has read the clock nobody else
      gets the processor before it ends. */
  lemma ResponseBound(sys: System, longest: nat, choices: seq<Choice>, s: State)
    requires Covers(sys) && Setting(sys, longest) && SpacedBeyond(sys, longest + Bound(sys, 0))
    requires Reachable(sys, choices, s)
    ensures forall k :: 0 <= k < |s.results| ==> s.results[k] <= Bound(sys, 0)
    ensures AllWithin(sys, s, longest + Bound(sys, 0))
    ensures forall u: nat, i: nat :: IsUrgent(sys, s, u) && s.jobs[u].pc > 0 && Picked(sys, s, i) ==> i == u
  {
    RunTimely(sys, longest, choices, s);
    forall u: nat | IsUrgent(sys, s, u) ensures s.now - s.jobs[u].released <= longest + Bound(sys, 0) {
      UrgentSince(sys, longest, s, u);
    }
    forall u: nat, i: nat | IsUrgent(sys, s, u) && s.jobs[u].pc > 0 && Picked(sys, s, i) ensures i == u {
      assert OnSchedule(sys, longest, s, u);
      UrgentHasProcessor(sys, s, u, i);
    }
  }
}
