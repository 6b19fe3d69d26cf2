/** The processor as the mutable object it is: shared globals, threads and one mutex, updated
    in place.  Every method is one step of `Scheduling`, so whatever holds of all runs
    holds of the object after any sequence of calls. */
module Processors {
  import opened Options
  import opened Scheduling
  import opened Programs
  import TaskSets
  import PlainMutex

  predicate DistinctRanks(jobs: seq<Job>) {
    forall i, k :: 0 <= i < k < |jobs| ==> jobs[i].rank != jobs[k].rank
  }

  class Processor {
    const sys: System
    var now: nat
    var jobs: seq<Job>
    var owner: Option<nat>
    var nextRank: nat
    var startTime: nat
    var results: seq<int>
    ghost var lockedAt: nat
    ghost var ledger: seq<nat>
    ghost var history: seq<Choice>

    ghost function View(): State
      reads this
    {
      State(now, jobs, owner, nextRank, startTime, results, lockedAt, ledger)
    }

    ghost predicate Valid()
      reads this
    {
      && WellFormed(sys)
      && Reachable(sys, history, View())
      && Sane(sys, View())
      && DistinctRanks(jobs)
    }

    constructor (sys: System)
      requires WellFormed(sys)
      ensures Valid() && this.sys == sys && View() == Init(sys) && history == []
    {
      this.sys := sys;
      now, jobs, owner, nextRank, startTime, results := 0, [], None, 0, 0, [];
      lockedAt, ledger, history := 0, NoTicks(sys), [];
      new;
      InitSane(sys);
    }

    /** The priority that waiting threads lend to the owner of an inheritance mutex. */
    method InheritedPriority() returns (m: nat)
      ensures m == MaxWaiting(sys, jobs)
    {
      m := 0;
      for k := 0 to |jobs|
        invariant m == MaxWaiting(sys, jobs[..k])
      {
        assert jobs[..k + 1][..k] == jobs[..k];
        if jobs[k].waiting && m < Base(sys, jobs[k]) { m := Base(sys, jobs[k]); }
      }
      assert jobs[..|jobs|] == jobs;
    }

    method EffectivePriority(i: nat) returns (p: nat)
      requires i < |jobs|
      ensures p == Effective(sys, View(), i)
    {
      p := Base(sys, jobs[i]);
      if owner == Some(i) {
        match sys.protocol {
          case Plain =>
          case Inherit =>
            var m := InheritedPriority();
            p := Max(p, m);
          case Protect(ceiling) => p := Max(p, ceiling);
        }
      }
    }

    /** The thread at the head of the highest nonempty priority list. */
    method Pick() returns (best: Option<nat>)
      requires DistinctRanks(jobs)
      ensures best.None? ==> forall k :: 0 <= k < |jobs| ==> !Ready(sys, jobs[k])
      ensures best.Some? ==> Picked(sys, View(), best.value)
    {
      best := None;
      var top := 0;
      for k := 0 to |jobs|
        invariant best.None? ==> forall l :: 0 <= l < k ==> !Ready(sys, jobs[l])
        invariant best.Some? ==>
                    best.value < k && Ready(sys, jobs[best.value]) && top == Effective(sys, View(), best.value)
        invariant best.Some? ==>
          forall l :: 0 <= l < k && l != best.value && Ready(sys, jobs[l]) ==> Before(sys, View(), best.value, l)
      {
        if Ready(sys, jobs[k]) {
          var p := EffectivePriority(k);
          assert forall l :: 0 <= l < k ==> jobs[l].rank != jobs[k].rank;
          if best.None? || top < p || (top == p && jobs[k].rank < jobs[best.value].rank) {
            best, top := Some(k), p;
          }
        }
      }
    }

    /** The waiting thread that acquires the mutex next, if any. */
    method NextOwner() returns (best: Option<nat>)
      requires DistinctRanks(jobs)
      ensures best.None? ==> NobodyWaits(View())
      ensures best.Some? ==> TopWaiter(sys, View(), best.value)
    {
      best := None;
      for k := 0 to |jobs|
        invariant best.None? ==> forall l :: 0 <= l < k ==> !jobs[l].waiting
        invariant best.Some? ==> best.value < k && jobs[best.value].waiting
        invariant best.Some? ==> forall l :: 0 <= l < k && l != best.value && jobs[l].waiting ==>
          || Base(sys, jobs[l]) < Base(sys, jobs[best.value])
          || (Base(sys, jobs[l]) == Base(sys, jobs[best.value]) && jobs[best.value].rank < jobs[l].rank)
      {
        if jobs[k].waiting {
          if best.None? || Base(sys, jobs[best.value]) < Base(sys, jobs[k])
             || (Base(sys, jobs[best.value]) == Base(sys, jobs[k]) && jobs[k].rank < jobs[best.value].rank) {
            best := Some(k);
          }
        }
      }
    }

    /** Extending the history by an enabled choice gives the next state. */
    lemma Record(c: Choice)
      requires Valid() && Enabled(sys, View(), c)
      ensures Reachable(sys, history + [c], Apply(sys, View(), c))
    {}

    /** A timer expires: a new thread starts its task. */
    method Release(t: nat)
      requires Valid() && Enabled(sys, View(), Choice.Release(t))
      modifies this
      ensures Valid() && View() == Apply(sys, old(View()), Choice.Release(t))
      ensures history == old(history) + [Choice.Release(t)]
    {
      StepSane(sys, View(), Choice.Release(t));
      forall k | 0 <= k < |jobs| ensures jobs[k].rank < nextRank { assert JobSane(sys, View(), k); }
      Record(Choice.Release(t));
      jobs := jobs + [Job(t, 0, 0, false, nextRank, now)];
      nextRank := nextRank + 1;
      history := history + [Choice.Release(t)];
    }

    /** pthread_mutex_lock by the running thread: the mutex, or a place among the waiters. */
    method MutexLock(i: nat)
      requires Sane(sys, View()) && DistinctRanks(jobs) && Enabled(sys, View(), Next(i)) && Current(sys, jobs[i]).Lock?
      modifies this
      ensures View() == Apply(sys, old(View()), Next(i)) && history == old(history)
    {
      if owner.None? {
        owner := Some(i);
        jobs := jobs[i := Advance(jobs[i])];
        lockedAt, ledger := now, NoTicks(sys);
      } else {
        jobs := jobs[i := jobs[i].(waiting := true)];
      }
    }

    /** pthread_mutex_unlock by the running thread: the scheduling policy chooses the next owner. */
    method MutexUnlock(i: nat) returns (c: Choice)
      requires Sane(sys, View()) && DistinctRanks(jobs) && Picked(sys, View(), i) && Current(sys, jobs[i]).Unlock?
      modifies this
      ensures c == Next(i) || (c.HandOver? && c.job == i)
      ensures Enabled(sys, old(View()), c) && View() == Apply(sys, old(View()), c) && history == old(history)
    {
      var w := NextOwner();
      if w.None? {
        c := Next(i);
        jobs := jobs[i := Advance(jobs[i])];
        owner := None;
      } else {
        assert JobSane(sys, View(), i);
        c := HandOver(i, w.value);
        var woken := jobs[w.value].(waiting := false, pc := jobs[w.value].pc + 1, rank := nextRank);
        jobs := jobs[i := Advance(jobs[i])][w.value := woken];
        owner, nextRank := w, nextRank + 1;
        lockedAt, ledger := now, NoTicks(sys);
      }
    }

    /** The running thread performs one instruction, or one tick of a workload that goes on. */
    method Execute(i: nat, more: bool) returns (c: Choice)
      requires Sane(sys, View()) && DistinctRanks(jobs) && Picked(sys, View(), i)
      modifies this
      ensures Enabled(sys, old(View()), c) && View() == Apply(sys, old(View()), c)
      ensures !c.Release? && history == old(history)
    {
      var j := jobs[i];
      c := Next(i);
      match Current(sys, j) {
        case Begin =>
          startTime := now;
          jobs := jobs[i := Advance(j)];
        case Work(max) =>
          if more && j.used < max {
            c := Tick(i);
            now := now + 1;
            jobs := jobs[i := j.(used := j.used + 1)];
            ledger := Charge(ledger, j.task);
          } else {
            jobs := jobs[i := Advance(j)];
          }
        case Lock => MutexLock(i);
        case Unlock => c := MutexUnlock(i);
        case End =>
          results := results + [now - startTime];
          jobs := jobs[i := Advance(j)];
      }
    }

    /** Only a woken thread gets a new rank, and nobody has it yet. */
    lemma StepKeepsRanks(before: State, c: Choice)
      requires Sane(sys, before) && DistinctRanks(before.jobs) && Enabled(sys, before, c) && !c.Release?
      ensures DistinctRanks(Apply(sys, before, c).jobs)
    {
      forall k | 0 <= k < |before.jobs| ensures before.jobs[k].rank < before.nextRank {
        assert JobSane(sys, before, k);
      }
    }

    /** The dispatcher gives the processor to the thread it picks; without one, time passes. */
    method Dispatch(more: bool) returns (c: Choice)
      requires Valid()
      modifies this
      ensures Valid() && !c.Release?
      ensures Enabled(sys, old(View()), c) && View() == Apply(sys, old(View()), c)
      ensures history == old(history) + [c]
    {
      ghost var before := View();
      var picked := Pick();
      if picked.None? {
        c := Idle;
        now := now + 1;
      } else {
        c := Execute(picked.value, more);
      }
      StepKeepsRanks(before, c);
      StepSane(sys, before, c);
      assert (history + [c])[..|history|] == history;
      history := history + [c];
    }
  }

  /** What hw3 writes to its output file, for each of its three configurations and any number
      of calls on the processor. */
  lemma RecordedResponses(p: Processor)
    requires p.Valid()
    ensures p.sys == TaskSets.Hw3(Plain, Timer(139), Timer(257), Timer(211)) ==>
              forall k :: 0 <= k < |p.results| ==> p.results[k] <= 120
    ensures p.sys == TaskSets.Hw3(Inherit, Timer(139), Timer(257), Timer(211)) ==>
              forall k :: 0 <= k < |p.results| ==> p.results[k] <= 50
    ensures p.sys == TaskSets.Hw3(Protect(99), Timer(139), Timer(257), Timer(211)) ==>
              forall k :: 0 <= k < |p.results| ==> p.results[k] <= 30
  {
    if p.sys == TaskSets.Hw3(Plain, Timer(139), Timer(257), Timer(211)) {
      PlainMutex.Hw3Plain(139, Timer(257), 211, p.history, p.View());
    } else if p.sys == TaskSets.Hw3(Inherit, Timer(139), Timer(257), Timer(211)) {
      TaskSets.Hw3Inherit(139, Timer(257), Timer(211), p.history, p.View());
    } else if p.sys == TaskSets.Hw3(Protect(99), Timer(139), Timer(257), Timer(211)) {
      TaskSets.Hw3Protect(139, Timer(257), Timer(211), p.history, p.View());
    }
  }
}
