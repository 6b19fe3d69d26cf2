/** Turns among threads of one priority, as SCHED_FIFO gives them: who came first runs first, and who
    waited first gets the mutex first. */
module Turns {
  import opened Options
  import opened Scheduling
  import opened Programs
  import opened Inheritance

  // ---------- The processor ----------

  predicate LockFree(prog: seq<Instr>) {
    forall pc :: 0 <= pc < |prog| ==> !prog[pc].Lock? && !prog[pc].Unlock?
  }

  lemma {:induction false} NeverHolds(prog: seq<Instr>, pc: nat)
    requires LockFree(prog) && pc <= |prog|
    ensures !Held(prog, pc)
  {
    if pc > 0 { NeverHolds(prog, pc - 1); }
  }

  /** A job that has done something. */
  predicate Begun(j: Job) {
    j.pc > 0 || j.used > 0
  }

  /** Of two lock-free jobs of one priority the earlier has the smaller rank, and the later has done
      nothing before the earlier is over. */
  predicate InTurn(sys: System, s: State, i: nat, k: nat)
    requires i < |s.jobs| && k < |s.jobs|
  {
    var a, b := s.jobs[i], s.jobs[k];
    i < k && LockFree(Prog(sys, a)) && LockFree(Prog(sys, b)) && Base(sys, a) == Base(sys, b) ==>
      a.rank < b.rank && (Begun(b) ==> !Live(sys, a))
  }

  ghost predicate AllInTurn(sys: System, s: State) {
    forall i: nat, k: nat :: i < |s.jobs| && k < |s.jobs| ==> InTurn(sys, s, i, k)
  }

  /** A lock-free job is ready until its end and runs at its base priority. */
  lemma LockFreeIsReady(sys: System, s: State, i: nat)
    requires Sane(sys, s) && i < |s.jobs| && LockFree(Prog(sys, s.jobs[i]))
    ensures Effective(sys, s, i) == Base(sys, s.jobs[i])
    ensures !s.jobs[i].waiting
  {
    assert JobSane(sys, s, i);
    if s.jobs[i].pc <= |Prog(sys, s.jobs[i])| { NeverHolds(Prog(sys, s.jobs[i]), s.jobs[i].pc); }
  }

  /** Whoever is picked, the earlier lock-free jobs of its priority are over. */
  lemma EarlierAreOver(sys: System, s: State, i: nat, k: nat)
    requires Sane(sys, s) && AllInTurn(sys, s) && i < k < |s.jobs| && Picked(sys, s, k)
    requires LockFree(Prog(sys, s.jobs[i])) && LockFree(Prog(sys, s.jobs[k]))
    requires Base(sys, s.jobs[i]) == Base(sys, s.jobs[k])
    ensures !Live(sys, s.jobs[i])
  {
    assert InTurn(sys, s, i, k);
    LockFreeIsReady(sys, s, i);
    LockFreeIsReady(sys, s, k);
  }

  /** Job m moves on, all others stay. */
  predicate OneMoves(s: State, t: State, m: nat) {
    && m < |s.jobs| == |t.jobs|
    && (forall k :: 0 <= k < |s.jobs| && k != m ==> t.jobs[k] == s.jobs[k])
    && t.jobs[m].task == s.jobs[m].task && t.jobs[m].rank == s.jobs[m].rank && s.jobs[m].pc <= t.jobs[m].pc
  }

  lemma MoveKeepsTurns(sys: System, s: State, t: State, m: nat)
    requires Sane(sys, s) && AllInTurn(sys, s) && Picked(sys, s, m) && OneMoves(s, t, m)
    ensures AllInTurn(sys, t)
  {
    forall i: nat, k: nat | i < |t.jobs| && k < |t.jobs| ensures InTurn(sys, t, i, k) {
      assert InTurn(sys, s, i, k);
      if k == m && i < k && LockFree(Prog(sys, s.jobs[i])) && LockFree(Prog(sys, s.jobs[k]))
         && Base(sys, s.jobs[i]) == Base(sys, s.jobs[k]) {
        EarlierAreOver(sys, s, i, k);
      }
    }
  }

  lemma HandOverKeepsTurns(sys: System, s: State, i: nat, w: nat)
    requires Sane(sys, s) && AllInTurn(sys, s) && Enabled(sys, s, HandOver(i, w))
    ensures AllInTurn(sys, Apply(sys, s, HandOver(i, w)))
  {
    var t := Apply(sys, s, HandOver(i, w));
    assert JobSane(sys, s, w);
    forall a: nat, b: nat | a < |t.jobs| && b < |t.jobs| ensures InTurn(sys, t, a, b) {
      assert InTurn(sys, s, a, b);
    }
  }

  lemma ReleaseKeepsTurns(sys: System, s: State, task: nat)
    requires Sane(sys, s) && AllInTurn(sys, s) && Enabled(sys, s, Release(task))
    ensures AllInTurn(sys, Apply(sys, s, Release(task)))
  {
    var t := Apply(sys, s, Release(task));
    forall i: nat, k: nat | i < |t.jobs| && k < |t.jobs| ensures InTurn(sys, t, i, k) {
      if k < |s.jobs| && i < |s.jobs| {
        assert InTurn(sys, s, i, k);
      } else if i < |s.jobs| {
        assert JobSane(sys, s, i);
      }
    }
  }

  lemma StepKeepsTurns(sys: System, s: State, c: Choice)
    requires Sane(sys, s) && AllInTurn(sys, s) && Enabled(sys, s, c)
    ensures AllInTurn(sys, Apply(sys, s, c))
  {
    match c
    case Release(task) => ReleaseKeepsTurns(sys, s, task);
    case Tick(i) => MoveKeepsTurns(sys, s, Apply(sys, s, c), i);
    case Next(i) => MoveKeepsTurns(sys, s, Apply(sys, s, c), i);
    case HandOver(i, w) => HandOverKeepsTurns(sys, s, i, w);
    case Idle =>
      forall i: nat, k: nat | i < |s.jobs| && k < |s.jobs| ensures InTurn(sys, Apply(sys, s, c), i, k) {
        assert InTurn(sys, s, i, k);
      }
  }

  lemma {:induction false} RunInTurn(sys: System, choices: seq<Choice>, s: State)
    requires WellFormed(sys) && Reachable(sys, choices, s)
    ensures AllInTurn(sys, s)
    decreases |choices|
  {
    if choices != [] {
      var last := |choices| - 1;
      var before := Run(sys, choices[..last]).value;
      RunInTurn(sys, choices[..last], before);
      SaneRun(sys, choices[..last], before);
      StepKeepsTurns(sys, before, choices[last]);
    }
  }

  /** First come, first served: of two jobs of one priority that use no mutex, the one released later
      does nothing before the earlier one is over. */
  lemma FirstComeFirstServed(sys: System, choices: seq<Choice>, s: State, i: nat, k: nat)
    requires WellFormed(sys) && Reachable(sys, choices, s) && i < k < |s.jobs|
    requires Base(sys, s.jobs[i]) == Base(sys, s.jobs[k])
    requires LockFree(Prog(sys, s.jobs[i])) && LockFree(Prog(sys, s.jobs[k]))
    ensures s.jobs[k].pc > 0 || s.jobs[k].used > 0 ==> s.jobs[i].pc >= |Prog(sys, s.jobs[i])|
  {
    RunInTurn(sys, choices, s);
    assert InTurn(sys, s, i, k);
  }

  // ---------- The mutex ----------

  /** A waiting job is ahead of every ready job of its priority. */
  predicate Ahead(sys: System, s: State, a: nat, b: nat)
    requires a < |s.jobs| && b < |s.jobs|
  {
    s.jobs[a].waiting && Ready(sys, s.jobs[b]) && Base(sys, s.jobs[a]) == Base(sys, s.jobs[b]) ==>
      s.jobs[a].rank < s.jobs[b].rank
  }

  ghost predicate WaitersAhead(sys: System, s: State) {
    forall a: nat, b: nat :: a < |s.jobs| && b < |s.jobs| ==> Ahead(sys, s, a, b)
  }

  /** The job that begins to wait was ahead of all ready jobs of its priority, being picked. */
  lemma BlockKeepsAhead(sys: System, s: State, i: nat)
    requires Sane(sys, s) && WaitersAhead(sys, s) && Enabled(sys, s, Next(i)) && Current(sys, s.jobs[i]).Lock?
    requires WellFormed(sys) && s.owner.Some?
    ensures WaitersAhead(sys, Apply(sys, s, Next(i)))
  {
    var t := Apply(sys, s, Next(i));
    assert JobSane(sys, s, i) && Balanced(Prog(sys, s.jobs[i]));
    assert s.owner != Some(i);
    forall a: nat, b: nat | a < |t.jobs| && b < |t.jobs| ensures Ahead(sys, t, a, b) {
      assert Ahead(sys, s, a, b);
      if a == i && b != i && Ready(sys, s.jobs[b]) { assert Before(sys, s, i, b); }
    }
  }

  lemma OtherNextKeepsAhead(sys: System, s: State, i: nat)
    requires WaitersAhead(sys, s) && Enabled(sys, s, Next(i))
    requires !Current(sys, s.jobs[i]).Lock? || s.owner.None?
    ensures WaitersAhead(sys, Apply(sys, s, Next(i)))
  {
    var t := Apply(sys, s, Next(i));
    forall a: nat, b: nat | a < |t.jobs| && b < |t.jobs| ensures Ahead(sys, t, a, b) {
      assert Ahead(sys, s, a, b);
    }
  }

  lemma HandOverKeepsAhead(sys: System, s: State, i: nat, w: nat)
    requires Sane(sys, s) && WaitersAhead(sys, s) && Enabled(sys, s, HandOver(i, w))
    ensures WaitersAhead(sys, Apply(sys, s, HandOver(i, w)))
  {
    var t := Apply(sys, s, HandOver(i, w));
    forall a: nat, b: nat | a < |t.jobs| && b < |t.jobs| ensures Ahead(sys, t, a, b) {
      assert Ahead(sys, s, a, b) && JobSane(sys, s, a);
    }
  }

  lemma ReleaseKeepsAhead(sys: System, s: State, task: nat)
    requires Sane(sys, s) && WaitersAhead(sys, s) && Enabled(sys, s, Release(task))
    ensures WaitersAhead(sys, Apply(sys, s, Release(task)))
  {
    var t := Apply(sys, s, Release(task));
    forall a: nat, b: nat | a < |t.jobs| && b < |t.jobs| ensures Ahead(sys, t, a, b) {
      if a < |s.jobs| {
        assert JobSane(sys, s, a);
        if b < |s.jobs| { assert Ahead(sys, s, a, b); }
      }
    }
  }

  lemma TimeKeepsAhead(sys: System, s: State, c: Choice)
    requires WaitersAhead(sys, s) && Enabled(sys, s, c) && (c.Tick? || c.Idle?)
    ensures WaitersAhead(sys, Apply(sys, s, c))
  {
    var t := Apply(sys, s, c);
    forall a: nat, b: nat | a < |t.jobs| && b < |t.jobs| ensures Ahead(sys, t, a, b) {
      assert Ahead(sys, s, a, b);
    }
  }

  lemma StepKeepsAhead(sys: System, s: State, c: Choice)
    requires WellFormed(sys) && Sane(sys, s) && WaitersAhead(sys, s) && Enabled(sys, s, c)
    ensures WaitersAhead(sys, Apply(sys, s, c))
  {
    match c
    case Release(task) => ReleaseKeepsAhead(sys, s, task);
    case HandOver(i, w) => HandOverKeepsAhead(sys, s, i, w);
    case Next(i) =>
      if Current(sys, s.jobs[i]).Lock? && s.owner.Some? {
        BlockKeepsAhead(sys, s, i);
      } else {
        OtherNextKeepsAhead(sys, s, i);
      }
    case _ => TimeKeepsAhead(sys, s, c);
  }

  lemma {:induction false} RunAhead(sys: System, choices: seq<Choice>, s: State)
    requires WellFormed(sys) && Reachable(sys, choices, s)
    ensures WaitersAhead(sys, s)
    decreases |choices|
  {
    if choices != [] {
      var last := |choices| - 1;
      var before := Run(sys, choices[..last]).value;
      RunAhead(sys, choices[..last], before);
      SaneRun(sys, choices[..last], before);
      StepKeepsAhead(sys, before, choices[last]);
    }
  }

  /** From s to t job a has not moved on, and job b has the rank it had or a later one. */
  predicate StillThere(s: State, t: State, a: nat, b: nat) {
    && a < |s.jobs| <= |t.jobs| && b < |t.jobs| && s.nextRank <= t.nextRank
    && t.jobs[a].task == s.jobs[a].task && s.jobs[a].pc <= t.jobs[a].pc
    && (s.jobs[a].waiting && t.jobs[a].pc == s.jobs[a].pc ==> t.jobs[a].waiting && t.jobs[a].rank == s.jobs[a].rank)
    && (if b < |s.jobs| then t.jobs[b].task == s.jobs[b].task && s.jobs[b].pc <= t.jobs[b].pc
                             && s.jobs[b].rank <= t.jobs[b].rank
        else s.nextRank <= t.jobs[b].rank)
  }

  lemma StepStays(sys: System, s: State, u: State, c: Choice, a: nat, b: nat)
    requires Sane(sys, u) && Enabled(sys, u, c) && b < |Apply(sys, u, c).jobs|
    requires a < |s.jobs| <= |u.jobs| && s.nextRank <= u.nextRank
    requires b < |u.jobs| ==> StillThere(s, u, a, b)
    requires StillThere(s, u, a, a)
    ensures StillThere(s, Apply(sys, u, c), a, b)
  {
    assert JobSane(sys, u, a);
    if b < |u.jobs| { assert JobSane(sys, u, b); }
  }

  lemma StepGrows(sys: System, s: State, c: Choice)
    requires Enabled(sys, s, c)
    ensures |s.jobs| <= |Apply(sys, s, c).jobs| && s.nextRank <= Apply(sys, s, c).nextRank
  {}

  lemma {:induction false} JobsStay(sys: System, choices: seq<Choice>, n: nat, s: State, t: State)
    requires n <= |choices| && Reachable(sys, choices[..n], s) && Reachable(sys, choices, t)
    ensures |s.jobs| <= |t.jobs| && s.nextRank <= t.nextRank
    decreases |choices|
  {
    if n == |choices| {
      assert choices[..n] == choices;
    } else {
      var last := |choices| - 1;
      assert choices[..last][..n] == choices[..n];
      JobsStay(sys, choices[..last], n, s, Run(sys, choices[..last]).value);
      StepGrows(sys, Run(sys, choices[..last]).value, choices[last]);
    }
  }

  lemma {:induction false} RunStays(sys: System, choices: seq<Choice>, n: nat, s: State, t: State, a: nat, b: nat)
    requires WellFormed(sys) && n <= |choices| && Reachable(sys, choices[..n], s) && Reachable(sys, choices, t)
    requires a < |s.jobs| && b < |t.jobs|
    ensures StillThere(s, t, a, b)
    decreases |choices|
  {
    if n == |choices| {
      assert choices[..n] == choices;
    } else {
      var last := |choices| - 1;
      var before := Run(sys, choices[..last]).value;
      assert choices[..last][..n] == choices[..n];
      JobsStay(sys, choices[..last], n, s, before);
      SaneRun(sys, choices[..last], before);
      RunStays(sys, choices[..last], n, s, before, a, a);
      if b < |before.jobs| { RunStays(sys, choices[..last], n, s, before, a, b); }
      StepStays(sys, s, before, choices[last], a, b);
    }
  }

  lemma BehindStaysBehind(sys: System, s: State, t: State, a: nat, b: nat)
    requires Sane(sys, s) && Sane(sys, t) && WaitersAhead(sys, s) && StillThere(s, t, a, b)
    requires s.jobs[a].waiting && t.jobs[a].pc == s.jobs[a].pc && TopWaiter(sys, t, b)
    requires Base(sys, t.jobs[b]) == Base(sys, t.jobs[a])
    ensures b < |s.jobs| && s.jobs[b].waiting
  {
    assert JobSane(sys, s, a) && JobSane(sys, t, b);
    if b < |s.jobs| { assert Ahead(sys, s, a, b); }
  }

  /** The mutex goes to a job that waited first: if a job of the same priority has been waiting since
      the state s, then so has the one that gets the mutex, or longer. */
  lemma LongestWaitFirst(sys: System, choices: seq<Choice>, n: nat, s: State, t: State, a: nat, b: nat)
    requires WellFormed(sys) && n <= |choices| && Reachable(sys, choices[..n], s) && Reachable(sys, choices, t)
    requires a < |s.jobs| && s.jobs[a].waiting && a < |t.jobs| && t.jobs[a].pc == s.jobs[a].pc
    requires TopWaiter(sys, t, b) && Base(sys, t.jobs[b]) == Base(sys, t.jobs[a])
    ensures b < |s.jobs| && s.jobs[b].waiting
  {
    RunStays(sys, choices, n, s, t, a, b);
    RunAhead(sys, choices[..n], s);
    SaneRun(sys, choices[..n], s);
    SaneRun(sys, choices, t);
    BehindStaysBehind(sys, s, t, a, b);
  }
}
