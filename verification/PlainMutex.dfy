/** A mutex without any protocol: tau1 can be delayed by tau3 as well, but only by one job
    of it, because one critical section of tau2 never spans two releases of tau3. */
module PlainMutex {
  import opened Options
  import opened Scheduling
  import opened Programs
  import opened Inheritance
  import opened TaskSets

  ghost predicate Plain3(sys: System) {
    && |sys.tasks| == 3
    && sys == Hw3(Plain, sys.tasks[0].arrival, sys.tasks[1].arrival, sys.tasks[2].arrival)
    && sys.tasks[0].arrival.Timer? && sys.tasks[0].arrival.separation > 120
    && sys.tasks[2].arrival.Timer? && sys.tasks[2].arrival.separation > 100
  }

  /** Costs of the three programs at each instruction, in closed form. */
  function Left1(j: Job): int { [30, 30, 20, 20, 10, 10, 0, 0][if j.pc < 7 then j.pc else 7] - j.used }

  function Left3(j: Job): int { 70 - 10 * j.pc - j.used }

  function Left2(j: Job): int { (if j.pc == 4 then 20 else if j.pc == 5 then 10 else 0) - j.used }

  predicate OwnedByTau2(s: State) {
    s.owner.Some? && s.owner.value < |s.jobs| && s.jobs[s.owner.value].task == 1
  }

  /** One job during a critical section of tau2: who may be unfinished, and what it used of the ledger. */
  predicate InSection(sys: System, s: State, k: nat)
    requires k < |s.jobs| && |s.ledger| == 3 && OwnedByTau2(s)
  {
    var j := s.jobs[k];
    match j.task
    case 0 => Live(sys, j) ==>
      s.lockedAt <= j.released && j.pc <= 2 && s.ledger[0] + Left1(j) <= 30
    case 1 => Live(sys, j) && k != s.owner.value ==> s.jobs[s.owner.value].rank < j.rank
    case _ =>
      && (Live(sys, j) ==> s.lockedAt <= j.released)
      && (s.lockedAt <= j.released ==> s.ledger[2] + Left3(j) <= 70)
  }

  predicate NoTau1(sys: System, s: State) {
    forall k :: 0 <= k < |s.jobs| && s.jobs[k].task == 0 ==> !Live(sys, s.jobs[k])
  }

  predicate NoTau3Since(s: State, since: nat) {
    forall k :: 0 <= k < |s.jobs| && s.jobs[k].task == 2 ==> s.jobs[k].released < since
  }

  /** Every tick since tau2 locked is in the ledger, and the ledger is bounded. */
  predicate Accounted(sys: System, s: State)
    requires |s.ledger| == 3 && OwnedByTau2(s)
  {
    && s.now == s.lockedAt + s.ledger[0] + s.ledger[1] + s.ledger[2]
    && s.ledger[1] + Left2(s.jobs[s.owner.value]) <= 20
    && s.ledger[0] <= 10 && s.ledger[2] <= 70
    && (forall k :: 0 <= k < |s.jobs| ==> InSection(sys, s, k))
    && (NoTau1(sys, s) ==> s.ledger[0] == 0)
    && (NoTau3Since(s, s.lockedAt) ==> s.ledger[2] == 0)
  }

  predicate OnTime1(sys: System, s: State, u: nat)
    requires u < |s.jobs|
  {
    var j := s.jobs[u];
    && (if j.pc == 0 then j.released == s.now else s.startTime == j.released)
    && (j.pc <= 2 && !j.waiting ==> s.now - j.released + Left1(j) <= 30)
    && (j.pc > 2 ==> s.now - j.released + Left1(j) <= 120)
    && (j.waiting ==> OwnedByTau2(s))
  }

  ghost predicate Inv3(sys: System, s: State)
    requires Plain3(sys)
  {
    && Sane(sys, s)
    && OneUrgent(sys, s)
    && (forall k :: 0 <= k < |s.jobs| && s.jobs[k].waiting ==> s.jobs[k].task == 0)
    && (OwnedByTau2(s) ==> Accounted(sys, s))
    && (forall u: nat :: IsUrgent(sys, s, u) ==> OnTime1(sys, s, u))
    && (forall k :: 0 <= k < |s.results| ==> s.results[k] <= 120)
  }

  // ---------- The programs, instruction by instruction ----------

  lemma WellFormed3(sys: System)
    requires Plain3(sys)
    ensures WellFormed(sys)
  {
    Hw3Programs();
  }

  /** Where a job of each task may be, and what it does there. */
  lemma JobShape(sys: System, s: State, k: nat)
    requires Plain3(sys) && Sane(sys, s) && k < |s.jobs|
    ensures s.jobs[k].task <= 2
    ensures var j := s.jobs[k];
      match j.task
      case 0 => (Live(sys, j) <==> j.pc < 7) && (s.owner == Some(k) <==> 3 <= j.pc <= 4)
      case 1 => (Live(sys, j) <==> j.pc < 12) && (s.owner == Some(k) <==> 4 <= j.pc <= 6)
      case _ => j.pc <= 7 && (Live(sys, j) <==> j.pc < 7) && s.owner != Some(k)
    ensures s.jobs[k].used <= 10 && (s.jobs[k].used > 0 ==> Live(sys, s.jobs[k]) && Current(sys, s.jobs[k]).Work?)
    ensures s.jobs[k].waiting ==> Live(sys, s.jobs[k]) && Current(sys, s.jobs[k]).Lock? && s.owner.Some?
    ensures s.jobs[k].released <= s.now && s.jobs[k].rank < s.nextRank
  {
    assert JobSane(sys, s, k);
    match s.jobs[k].task
    case 0 => Tau1Held();
    case 1 => Tau2Held();
    case _ => Tau3Held();
  }

  /** A job that is ready keeps everybody of lower priority from the processor. */
  lemma Higher(sys: System, s: State, i: nat, k: nat)
    requires Plain3(sys) && Sane(sys, s) && Picked(sys, s, i) && k < |s.jobs| && Ready(sys, s.jobs[k])
    ensures Base(sys, s.jobs[k]) <= Base(sys, s.jobs[i])
    ensures Base(sys, s.jobs[k]) == Base(sys, s.jobs[i]) && k != i ==> s.jobs[i].rank < s.jobs[k].rank
  {}

  lemma Tau1First(sys: System, s: State, u: nat, i: nat)
    requires Plain3(sys) && Inv3(sys, s) && IsUrgent(sys, s, u) && !s.jobs[u].waiting && Picked(sys, s, i)
    ensures i == u
  {}

  /** The owner of task tau2 goes before all other jobs of tau2. */
  lemma OwnerFirst(sys: System, s: State, i: nat)
    requires Plain3(sys) && Inv3(sys, s) && OwnedByTau2(s) && Picked(sys, s, i) && s.jobs[i].task == 1
    ensures s.owner == Some(i)
  {
    var h := s.owner.value;
    JobShape(sys, s, h);
    JobShape(sys, s, i);
    assert InSection(sys, s, i);
    Higher(sys, s, i, h);
  }

  /** A critical section of tau2 lasts at most 20 + 10 + 70 ticks. */
  lemma SectionWithin(sys: System, s: State)
    requires Plain3(sys) && Sane(sys, s) && OwnedByTau2(s) && Accounted(sys, s)
    ensures s.now - s.lockedAt <= 100
  {
    JobShape(sys, s, s.owner.value);
    assert JobSane(sys, s, s.owner.value);
  }

  /** Two jobs of tau3 are not both released during one critical section of tau2. */
  lemma OneTau3Within(sys: System, s: State, i: nat, k: nat)
    requires Plain3(sys) && Sane(sys, s) && OwnedByTau2(s) && Accounted(sys, s)
    requires i < |s.jobs| && k < |s.jobs| && s.jobs[i].task == s.jobs[k].task == 2
    requires s.lockedAt <= s.jobs[i].released && s.lockedAt <= s.jobs[k].released
    ensures i == k
  {
    SectionWithin(sys, s);
    JobShape(sys, s, i);
    JobShape(sys, s, k);
    assert Spaced(sys, s);
  }

  lemma Tau1Within(sys: System, s: State, u: nat)
    requires Plain3(sys) && Inv3(sys, s) && IsUrgent(sys, s, u)
    ensures s.now - s.jobs[u].released <= 120
  {
    assert OnTime1(sys, s, u);
    JobShape(sys, s, u);
    assert JobSane(sys, s, u);
    if s.jobs[u].waiting {
      assert InSection(sys, s, u);
      SectionWithin(sys, s);
    }
  }

  // ---------- Every step keeps the account ----------

  /** If nobody is there after a step that released nobody, nobody was there before. */
  lemma NobodyBefore(sys: System, s: State, t: State)
    requires |s.jobs| == |t.jobs|
    requires forall k :: 0 <= k < |s.jobs| ==>
      && t.jobs[k].task == s.jobs[k].task && t.jobs[k].released == s.jobs[k].released
      && (s.jobs[k].task == 0 && Live(sys, s.jobs[k]) ==> Live(sys, t.jobs[k]))
    ensures NoTau1(sys, t) ==> NoTau1(sys, s)
    ensures NoTau3Since(t, s.lockedAt) ==> NoTau3Since(s, s.lockedAt)
  {}

  lemma TickInSection(sys: System, s: State, i: nat, k: nat)
    requires Plain3(sys) && Inv3(sys, s) && Enabled(sys, s, Tick(i)) && OwnedByTau2(s) && k < |s.jobs|
    ensures InSection(sys, Apply(sys, s, Tick(i)), k)
  {
    assert InSection(sys, s, i) && InSection(sys, s, k);
    JobShape(sys, s, i);
    JobShape(sys, s, k);
    if k != i && s.jobs[k].task == 2 && s.jobs[i].task == 2 && s.lockedAt <= s.jobs[k].released {
      OneTau3Within(sys, s, i, k);
    }
    if s.jobs[i].task == s.jobs[k].task == 0 && Live(sys, s.jobs[k]) { UrgentIsUnique(sys, s, i, k); }
  }

  lemma TickAccounted(sys: System, s: State, i: nat)
    requires Plain3(sys) && Inv3(sys, s) && Enabled(sys, s, Tick(i)) && OwnedByTau2(s)
    ensures Accounted(sys, Apply(sys, s, Tick(i)))
  {
    var t := Apply(sys, s, Tick(i));
    var h := s.owner.value;
    JobShape(sys, s, i);
    JobShape(sys, s, h);
    assert JobSane(sys, s, h) && InSection(sys, s, i);
    if s.jobs[i].task == 1 { OwnerFirst(sys, s, i); }
    forall k | 0 <= k < |t.jobs| ensures InSection(sys, t, k) {
      TickInSection(sys, s, i, k);
    }
    assert Live(sys, t.jobs[i]) && t.jobs[i].released == s.jobs[i].released;
    NobodyBefore(sys, s, t);
  }

  lemma TickOnTime(sys: System, s: State, i: nat, u: nat)
    requires Plain3(sys) && Inv3(sys, s) && Enabled(sys, s, Tick(i)) && IsUrgent(sys, Apply(sys, s, Tick(i)), u)
    ensures OnTime1(sys, Apply(sys, s, Tick(i)), u)
  {
    assert IsUrgent(sys, s, u) && OnTime1(sys, s, u);
    JobShape(sys, s, u);
    if !s.jobs[u].waiting { Tau1First(sys, s, u, i); }
  }

  lemma TickKeeps(sys: System, s: State, i: nat)
    requires Plain3(sys) && Inv3(sys, s) && Enabled(sys, s, Tick(i))
    ensures Inv3(sys, Apply(sys, s, Tick(i)))
  {
    var t := Apply(sys, s, Tick(i));
    WellFormed3(sys);
    TickSane(sys, s, i);
    StillOneUrgent(sys, s, t);
    if OwnedByTau2(s) { TickAccounted(sys, s, i); }
    forall u: nat | IsUrgent(sys, t, u) ensures OnTime1(sys, t, u) {
      TickOnTime(sys, s, i, u);
    }
  }

  /** Finishing an instruction during the section of another job. */
  lemma NextInSection(sys: System, s: State, i: nat, k: nat)
    requires Plain3(sys) && Inv3(sys, s) && Enabled(sys, s, Next(i)) && OwnedByTau2(s) && k < |s.jobs|
    requires OwnedByTau2(Apply(sys, s, Next(i))) && Apply(sys, s, Next(i)).owner == s.owner
    ensures InSection(sys, Apply(sys, s, Next(i)), k)
  {
    assert InSection(sys, s, k);
    JobShape(sys, s, k);
    if k == i {
      assert JobSane(sys, s, i);
    } else {
      assert Apply(sys, s, Next(i)).jobs[k] == s.jobs[k];
    }
  }

  lemma NextLedger(sys: System, s: State, i: nat)
    requires Plain3(sys) && Inv3(sys, s) && Enabled(sys, s, Next(i)) && OwnedByTau2(s)
    requires Apply(sys, s, Next(i)).owner == s.owner
    ensures var t, h := Apply(sys, s, Next(i)), s.owner.value;
            && OwnedByTau2(t) && t.now == s.now && t.ledger == s.ledger && t.lockedAt == s.lockedAt
            && |t.jobs| == |s.jobs| && Left2(t.jobs[h]) <= Left2(s.jobs[h])
  {
    JobShape(sys, s, i);
    JobShape(sys, s, s.owner.value);
    if s.jobs[i].task == 1 { OwnerFirst(sys, s, i); }
  }

  lemma NextLive(sys: System, s: State, i: nat, k: nat)
    requires Plain3(sys) && Inv3(sys, s) && Enabled(sys, s, Next(i)) && OwnedByTau2(s) && k < |s.jobs|
    requires Apply(sys, s, Next(i)).owner == s.owner
    ensures var t := Apply(sys, s, Next(i));
            && |t.jobs| == |s.jobs| && t.jobs[k].task == s.jobs[k].task && t.jobs[k].released == s.jobs[k].released
            && (s.jobs[k].task == 0 && Live(sys, s.jobs[k]) ==> Live(sys, t.jobs[k]))
  {
    JobShape(sys, s, k);
    assert InSection(sys, s, k);
  }

  lemma NextAccounted(sys: System, s: State, i: nat)
    requires Plain3(sys) && Inv3(sys, s) && Enabled(sys, s, Next(i)) && OwnedByTau2(s)
    requires Apply(sys, s, Next(i)).owner == s.owner
    ensures Accounted(sys, Apply(sys, s, Next(i)))
  {
    var t := Apply(sys, s, Next(i));
    NextLedger(sys, s, i);
    forall k | 0 <= k < |t.jobs| ensures InSection(sys, t, k) {
      NextInSection(sys, s, i, k);
    }
    forall k | 0 <= k < |s.jobs|
      ensures t.jobs[k].task == s.jobs[k].task && t.jobs[k].released == s.jobs[k].released
      ensures s.jobs[k].task == 0 && Live(sys, s.jobs[k]) ==> Live(sys, t.jobs[k])
    {
      NextLive(sys, s, i, k);
    }
    NobodyBefore(sys, s, t);
  }

  /** When tau2 locks, nobody of higher priority is unfinished, so the account starts empty. */
  lemma LockAccounted(sys: System, s: State, i: nat)
    requires Plain3(sys) && Inv3(sys, s) && Enabled(sys, s, Next(i)) && s.owner.None?
    requires s.jobs[i].task == 1 && Current(sys, s.jobs[i]).Lock?
    ensures Accounted(sys, Apply(sys, s, Next(i)))
  {
    var t := Apply(sys, s, Next(i));
    assert s.jobs[i].pc == 3;
    forall k | 0 <= k < |t.jobs| ensures InSection(sys, t, k) {
      JobShape(sys, s, k);
      if Live(sys, s.jobs[k]) { Higher(sys, s, i, k); }
    }
  }

  lemma HandOverFacts(sys: System, s: State, i: nat, w: nat)
    requires Plain3(sys) && Inv3(sys, s) && Enabled(sys, s, HandOver(i, w))
    ensures s.owner == Some(i) && s.jobs[i].task == 1
    ensures IsUrgent(sys, s, w) && s.jobs[w].pc == 2
  {
    JobShape(sys, s, i);
    JobShape(sys, s, w);
    if s.jobs[i].task == 0 { UrgentIsUnique(sys, s, i, w); }
  }

  /** While tau1 waits, no step without a hand-over frees the mutex. */
  lemma OwnerKeeps(sys: System, s: State, i: nat)
    requires Plain3(sys) && Inv3(sys, s) && Enabled(sys, s, Next(i)) && OwnedByTau2(s) && !NobodyWaits(s)
    ensures OwnedByTau2(Apply(sys, s, Next(i))) && i < |s.jobs|
    ensures s.jobs[i].task != 0
  {
    JobShape(sys, s, i);
    var u :| 0 <= u < |s.jobs| && s.jobs[u].waiting;
    JobShape(sys, s, u);
    if s.jobs[i].task == 0 { UrgentIsUnique(sys, s, i, u); }
  }

  lemma Tau1NextOnTime(sys: System, s: State, u: nat)
    requires Plain3(sys) && Inv3(sys, s) && Enabled(sys, s, Next(u)) && IsUrgent(sys, s, u)
    requires OnTime1(sys, s, u)
    ensures OnTime1(sys, Apply(sys, s, Next(u)), u)
  {
    JobShape(sys, s, u);
    assert JobSane(sys, s, u);
    if s.owner.Some? && s.owner != Some(u) {
      JobShape(sys, s, s.owner.value);
      assert JobSane(sys, s, s.owner.value);
    }
  }

  lemma NextOnTime(sys: System, s: State, i: nat, u: nat)
    requires Plain3(sys) && Inv3(sys, s) && Enabled(sys, s, Next(i)) && IsUrgent(sys, Apply(sys, s, Next(i)), u)
    ensures OnTime1(sys, Apply(sys, s, Next(i)), u)
  {
    assert IsUrgent(sys, s, u) && OnTime1(sys, s, u);
    JobShape(sys, s, u);
    if s.jobs[u].waiting {
      JobShape(sys, s, i);
      OwnerKeeps(sys, s, i);
    } else {
      Tau1First(sys, s, u, i);
      Tau1NextOnTime(sys, s, u);
    }
  }

  lemma NextKeepsAccount(sys: System, s: State, i: nat)
    requires Plain3(sys) && Inv3(sys, s) && Enabled(sys, s, Next(i)) && OwnedByTau2(Apply(sys, s, Next(i)))
    ensures Accounted(sys, Apply(sys, s, Next(i)))
  {
    JobShape(sys, s, i);
    if OwnedByTau2(s) && Apply(sys, s, Next(i)).owner == s.owner {
      NextAccounted(sys, s, i);
    } else {
      LockAccounted(sys, s, i);
    }
  }

  /** Only a job of tau1 ever waits: it is the only one that can find the mutex taken. */
  lemma NextWaiters(sys: System, s: State, i: nat, k: nat)
    requires Plain3(sys) && Inv3(sys, s) && Enabled(sys, s, Next(i))
    requires k < |s.jobs| && Apply(sys, s, Next(i)).jobs[k].waiting
    ensures s.jobs[k].task == 0
  {
    if !s.jobs[k].waiting {
      JobShape(sys, s, i);
      var h := s.owner.value;
      JobShape(sys, s, h);
      if s.jobs[i].task == 1 {
        if s.jobs[h].task == 0 { Tau1First(sys, s, h, i); } else { OwnerFirst(sys, s, i); }
      }
    }
  }

  lemma RecordOnTime(sys: System, s: State, i: nat)
    requires Plain3(sys) && Inv3(sys, s) && Enabled(sys, s, Next(i)) && Current(sys, s.jobs[i]).End?
    ensures s.now - s.startTime <= 120
  {
    JobShape(sys, s, i);
    assert IsUrgent(sys, s, i) && OnTime1(sys, s, i);
  }

  lemma NextKeepsTau1(sys: System, s: State, i: nat)
    requires Plain3(sys) && Inv3(sys, s) && Enabled(sys, s, Next(i))
    ensures var t := Apply(sys, s, Next(i));
            && (forall k :: 0 <= k < |t.jobs| && t.jobs[k].waiting ==> t.jobs[k].task == 0)
            && (forall u: nat :: IsUrgent(sys, t, u) ==> OnTime1(sys, t, u))
  {
    var t := Apply(sys, s, Next(i));
    forall k | 0 <= k < |t.jobs| && t.jobs[k].waiting ensures t.jobs[k].task == 0 {
      NextWaiters(sys, s, i, k);
    }
    forall u: nat | IsUrgent(sys, t, u) ensures OnTime1(sys, t, u) {
      NextOnTime(sys, s, i, u);
    }
  }

  lemma NextOneUrgent(sys: System, s: State, i: nat)
    requires OneUrgent(sys, s) && Enabled(sys, s, Next(i))
    ensures OneUrgent(sys, Apply(sys, s, Next(i)))
  {
    StillOneUrgent(sys, s, Apply(sys, s, Next(i)));
  }

  lemma NextResults(sys: System, s: State, i: nat)
    requires Plain3(sys) && Inv3(sys, s) && Enabled(sys, s, Next(i))
    ensures forall k :: 0 <= k < |Apply(sys, s, Next(i)).results| ==> Apply(sys, s, Next(i)).results[k] <= 120
  {
    if Current(sys, s.jobs[i]).End? { RecordOnTime(sys, s, i); }
  }

  lemma NextKeeps(sys: System, s: State, i: nat)
    requires Plain3(sys) && Inv3(sys, s) && Enabled(sys, s, Next(i))
    ensures Inv3(sys, Apply(sys, s, Next(i)))
  {
    WellFormed3(sys);
    NextSane(sys, s, i);
    NextOneUrgent(sys, s, i);
    if OwnedByTau2(Apply(sys, s, Next(i))) { NextKeepsAccount(sys, s, i); }
    NextKeepsTau1(sys, s, i);
    NextResults(sys, s, i);
  }

  lemma HandOverOnTime(sys: System, s: State, i: nat, w: nat, u: nat)
    requires Plain3(sys) && Inv3(sys, s) && Enabled(sys, s, HandOver(i, w))
    requires IsUrgent(sys, Apply(sys, s, HandOver(i, w)), u)
    ensures OnTime1(sys, Apply(sys, s, HandOver(i, w)), u)
  {
    HandOverFacts(sys, s, i, w);
    assert OnTime1(sys, s, w) && InSection(sys, s, w);
    SectionWithin(sys, s);
    UrgentIsUnique(sys, s, u, w);
  }

  lemma HandOverKeeps(sys: System, s: State, i: nat, w: nat)
    requires Plain3(sys) && Inv3(sys, s) && Enabled(sys, s, HandOver(i, w))
    ensures Inv3(sys, Apply(sys, s, HandOver(i, w)))
  {
    var t := Apply(sys, s, HandOver(i, w));
    WellFormed3(sys);
    HandOverSane(sys, s, i, w);
    StillOneUrgent(sys, s, t);
    HandOverFacts(sys, s, i, w);
    forall u: nat | IsUrgent(sys, t, u) ensures OnTime1(sys, t, u) {
      HandOverOnTime(sys, s, i, w, u);
    }
  }

  lemma ReleaseAccounted(sys: System, s: State, r: nat)
    requires Plain3(sys) && Inv3(sys, s) && Enabled(sys, s, Release(r)) && OwnedByTau2(s)
    requires r == 0 ==> NoTau1(sys, s)
    ensures Accounted(sys, Apply(sys, s, Release(r)))
  {
    var t := Apply(sys, s, Release(r));
    SectionWithin(sys, s);
    JobShape(sys, s, s.owner.value);
    forall k | 0 <= k < |t.jobs| ensures InSection(sys, t, k) {
      if k < |s.jobs| { assert InSection(sys, s, k); }
    }
    assert t.jobs[|s.jobs|].task == r;
    if NoTau1(sys, t) {
      forall k | 0 <= k < |s.jobs| && s.jobs[k].task == 0
        ensures !Live(sys, s.jobs[k])
      {
        assert t.jobs[k] == s.jobs[k];
      }
    }
    if NoTau3Since(t, t.lockedAt) {
      forall k | 0 <= k < |s.jobs| && s.jobs[k].task == 2
        ensures s.jobs[k].released < s.lockedAt
      {
        assert t.jobs[k] == s.jobs[k];
      }
    }
  }

  lemma ReleaseKeeps(sys: System, s: State, r: nat)
    requires Plain3(sys) && Inv3(sys, s) && Enabled(sys, s, Release(r))
    ensures Inv3(sys, Apply(sys, s, Release(r)))
  {
    var t := Apply(sys, s, Release(r));
    WellFormed3(sys);
    ReleaseSane(sys, s, r);
    if r == 0 {
      forall k | 0 <= k < |s.jobs| && s.jobs[k].task == 0 ensures !Live(sys, s.jobs[k]) {
        if IsUrgent(sys, s, k) { Tau1Within(sys, s, k); }
      }
    }
    if OwnedByTau2(s) { ReleaseAccounted(sys, s, r); }
    if s.owner.Some? { assert t.jobs[s.owner.value] == s.jobs[s.owner.value]; }
    forall u: nat | IsUrgent(sys, t, u) ensures OnTime1(sys, t, u) {
      if u < |s.jobs| { assert IsUrgent(sys, s, u) && OnTime1(sys, s, u); }
    }
  }

  lemma IdleKeeps(sys: System, s: State)
    requires Plain3(sys) && Inv3(sys, s) && Enabled(sys, s, Idle)
    ensures Inv3(sys, Apply(sys, s, Idle))
  {
    WellFormed3(sys);
    StepSane(sys, s, Idle);
    if s.owner.Some? { OwnerIsReady(sys, s); }
    forall u: nat ensures !IsUrgent(sys, Apply(sys, s, Idle), u) {
      if u < |s.jobs| { assert JobSane(sys, s, u) && !Ready(sys, s.jobs[u]); }
    }
  }

  lemma {:induction false} RunKeeps(sys: System, choices: seq<Choice>, s: State)
    requires Plain3(sys) && Reachable(sys, choices, s)
    ensures Inv3(sys, s)
    decreases |choices|
  {
    if choices == [] {
      InitSane(sys);
    } else {
      var last := |choices| - 1;
      var before := Run(sys, choices[..last]).value;
      RunKeeps(sys, choices[..last], before);
      match choices[last]
      case Release(r) => ReleaseKeeps(sys, before, r);
      case Tick(i) => TickKeeps(sys, before, i);
      case Next(i) => NextKeeps(sys, before, i);
      case HandOver(i, w) => HandOverKeeps(sys, before, i, w);
      case Idle => IdleKeeps(sys, before);
    }
  }

  // ---------- What every run keeps ----------

  /** Every critical section of tau2 has lasted at most 20 + 10 + 70 ticks. */
  lemma SectionIsShort(sys: System, choices: seq<Choice>, s: State)
    requires Plain3(sys) && Reachable(sys, choices, s) && OwnedByTau2(s)
    ensures s.now - s.lockedAt <= 100
  {
    RunKeeps(sys, choices, s);
    SectionWithin(sys, s);
  }

  /** Two jobs of tau3 are not both released during one critical section of tau2. */
  lemma OneTau3(sys: System, choices: seq<Choice>, s: State, i: nat, k: nat)
    requires Plain3(sys) && Reachable(sys, choices, s) && OwnedByTau2(s)
    requires i < |s.jobs| && k < |s.jobs| && s.jobs[i].task == s.jobs[k].task == 2
    requires s.lockedAt <= s.jobs[i].released && s.lockedAt <= s.jobs[k].released
    ensures i == k
  {
    RunKeeps(sys, choices, s);
    OneTau3Within(sys, s, i, k);
  }

  /** "none": 30 of its own, 20 of tau2's critical section and 70 of one job of tau3,
      as soon as tau1 comes at most every 121 ticks and tau3 at most every 101. */
  lemma Hw3Plain(separation1: nat, tau2: Arrival, separation3: nat, choices: seq<Choice>, s: State)
    requires separation1 > 120 && separation3 > 100
    requires Reachable(Hw3(Plain, Timer(separation1), tau2, Timer(separation3)), choices, s)
    ensures forall k :: 0 <= k < |s.results| ==> s.results[k] <= 120
    ensures AllWithin(Hw3(Plain, Timer(separation1), tau2, Timer(separation3)), s, 120)
  {
    var sys := Hw3(Plain, Timer(separation1), tau2, Timer(separation3));
    RunKeeps(sys, choices, s);
    forall u: nat | IsUrgent(sys, s, u) ensures s.now - s.jobs[u].released <= 120 {
      Tau1Within(sys, s, u);
    }
  }

  /** With the periods of the program. */
  lemma Hw3PlainPeriodic(choices: seq<Choice>, s: State)
    requires Reachable(Hw3(Plain, Timer(139), Timer(257), Timer(211)), choices, s)
    ensures forall k :: 0 <= k < |s.results| ==> s.results[k] <= 120
    ensures AllWithin(Hw3(Plain, Timer(139), Timer(257), Timer(211)), s, 120)
  {
    Hw3Plain(139, Timer(257), 211, choices, s);
  }
}
