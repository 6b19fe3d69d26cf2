/** What a program can still cost, and the facts about a state that no protocol can break. */
module Programs {
  import opened Options
  import opened Scheduling

  // ---------- Straight-line programs ----------

  /** Does a job that is about to execute instruction `pc` hold the mutex? */
  predicate Held(prog: seq<Instr>, pc: nat)
    requires pc <= |prog|
  {
    pc != 0 && (prog[pc - 1].Lock? || (!prog[pc - 1].Unlock? && Held(prog, pc - 1)))
  }

  /** Locks and unlocks alternate, and the program ends without the mutex. */
  ghost predicate Balanced(prog: seq<Instr>) {
    && (forall pc :: 0 <= pc < |prog| && prog[pc].Lock? ==> !Held(prog, pc))
    && (forall pc :: 0 <= pc < |prog| && prog[pc].Unlock? ==> Held(prog, pc))
    && !Held(prog, |prog|)
  }

  function Own(ins: Instr, delay: nat): nat {
    match ins
    case Work(max) => max
    case Lock => delay
    case _ => 0
  }

  /** Ticks from instruction `pc` to the end if every workload takes its maximum and
      every lock operation is delayed by `delay`. */
  function Cost(prog: seq<Instr>, pc: nat, delay: nat): nat
    decreases |prog| - pc
  {
    if pc >= |prog| then 0
    else Own(prog[pc], delay) + Cost(prog, pc + 1, delay)
  }

  /** Ticks from instruction `pc` to the next unlock. */
  function Section(prog: seq<Instr>, pc: nat): nat
    decreases |prog| - pc
  {
    if pc >= |prog| || prog[pc].Unlock? then 0
    else Own(prog[pc], 0) + Section(prog, pc + 1)
  }

  /** No critical section of the program takes more than `longest` ticks of its own. */
  ghost predicate SectionsWithin(prog: seq<Instr>, longest: nat) {
    forall pc :: 0 <= pc <= |prog| && Held(prog, pc) ==> Section(prog, pc) <= longest
  }

  function Left(sys: System, j: Job, delay: nat): int {
    Cost(Prog(sys, j), j.pc, delay) - j.used
  }

  function SectionLeft(sys: System, j: Job): int {
    Section(Prog(sys, j), j.pc) - j.used
  }

  // ---------- Facts of every run ----------

  predicate Holds(sys: System, j: Job) {
    j.pc <= |Prog(sys, j)| && Held(Prog(sys, j), j.pc)
  }

  predicate GoodJob(sys: System, s: State, j: Job) {
    && j.task < |sys.tasks|
    && j.pc <= |Prog(sys, j)|
    && j.released <= s.now
    && j.rank < s.nextRank
    && j.used <= (if Live(sys, j) && Current(sys, j).Work? then Current(sys, j).max else 0)
    && (j.waiting ==> Live(sys, j) && Current(sys, j).Lock? && s.owner.Some?)
  }

  /** Releases of one timer keep their distance; a looping thread has one live iteration. */
  predicate Spaced(sys: System, s: State) {
    forall i, k :: 0 <= i < k < |s.jobs| && s.jobs[i].task == s.jobs[k].task < |sys.tasks| ==>
      match sys.tasks[s.jobs[k].task].arrival
      case Timer(separation) => s.jobs[i].released + separation <= s.jobs[k].released
      case Loop => !Live(sys, s.jobs[i])
  }

  /** What `Sane` says about one job. */
  predicate JobSane(sys: System, s: State, k: nat)
    requires k < |s.jobs|
  {
    GoodJob(sys, s, s.jobs[k]) && (Holds(sys, s.jobs[k]) <==> s.owner == Some(k))
  }

  predicate Sane(sys: System, s: State) {
    && (forall k :: 0 <= k < |s.jobs| ==> JobSane(sys, s, k))
    && (s.owner.Some? ==> s.owner.value < |s.jobs|)
    && s.lockedAt <= s.now
    && |s.ledger| == |sys.tasks|
    && Spaced(sys, s)
  }

  ghost predicate WellFormed(sys: System) {
    forall t :: 0 <= t < |sys.tasks| ==> Balanced(sys.tasks[t].program)
  }

  lemma InitSane(sys: System)
    ensures Sane(sys, Init(sys))
  {}

  /** The owner never waits, and it still has instructions left, so it is ready to run. */
  lemma OwnerIsReady(sys: System, s: State)
    requires WellFormed(sys) && Sane(sys, s) && s.owner.Some?
    ensures Ready(sys, s.jobs[s.owner.value])
  {
    var h := s.jobs[s.owner.value];
    assert JobSane(sys, s, s.owner.value);
    assert Holds(sys, h) && Balanced(Prog(sys, h));
  }

  /** Steps that neither release nor revive a job keep the releases apart. */
  lemma StillSpaced(sys: System, s: State, t: State)
    requires Spaced(sys, s) && |t.jobs| == |s.jobs|
    requires forall k :: 0 <= k < |s.jobs| ==>
               && t.jobs[k].task == s.jobs[k].task && t.jobs[k].released == s.jobs[k].released
               && s.jobs[k].pc <= t.jobs[k].pc
    ensures Spaced(sys, t)
  {}

  lemma TickSane(sys: System, s: State, i: nat)
    requires WellFormed(sys) && Sane(sys, s) && Enabled(sys, s, Tick(i))
    ensures Sane(sys, Apply(sys, s, Tick(i)))
  {
    var t := Apply(sys, s, Tick(i));
    StillSpaced(sys, s, t);
    forall k | 0 <= k < |t.jobs| ensures JobSane(sys, t, k) {
      assert JobSane(sys, s, k);
    }
  }

  lemma NextJobSane(sys: System, s: State, i: nat, k: nat)
    requires WellFormed(sys) && Sane(sys, s) && Enabled(sys, s, Next(i)) && k < |s.jobs|
    ensures JobSane(sys, Apply(sys, s, Next(i)), k)
  {
    assert JobSane(sys, s, i) && JobSane(sys, s, k);
    if k == i {
      assert Balanced(Prog(sys, s.jobs[i]));
    } else {
      assert Apply(sys, s, Next(i)).jobs[k] == s.jobs[k];
    }
  }

  lemma NextSane(sys: System, s: State, i: nat)
    requires WellFormed(sys) && Sane(sys, s) && Enabled(sys, s, Next(i))
    ensures Sane(sys, Apply(sys, s, Next(i)))
  {
    var t := Apply(sys, s, Next(i));
    StillSpaced(sys, s, t);
    forall k | 0 <= k < |t.jobs| ensures JobSane(sys, t, k) {
      NextJobSane(sys, s, i, k);
    }
  }

  lemma HandOverJobSane(sys: System, s: State, i: nat, w: nat, k: nat)
    requires WellFormed(sys) && Sane(sys, s) && Enabled(sys, s, HandOver(i, w)) && k < |s.jobs|
    ensures JobSane(sys, Apply(sys, s, HandOver(i, w)), k)
  {
    assert JobSane(sys, s, i) && JobSane(sys, s, w) && JobSane(sys, s, k);
    assert Balanced(Prog(sys, s.jobs[if k == w then w else i]));
  }

  lemma HandOverSane(sys: System, s: State, i: nat, w: nat)
    requires WellFormed(sys) && Sane(sys, s) && Enabled(sys, s, HandOver(i, w))
    ensures Sane(sys, Apply(sys, s, HandOver(i, w)))
  {
    var t := Apply(sys, s, HandOver(i, w));
    StillSpaced(sys, s, t);
    forall k | 0 <= k < |t.jobs| ensures JobSane(sys, t, k) {
      HandOverJobSane(sys, s, i, w, k);
    }
  }

  lemma ReleaseSane(sys: System, s: State, r: nat)
    requires WellFormed(sys) && Sane(sys, s) && Enabled(sys, s, Release(r))
    ensures Sane(sys, Apply(sys, s, Release(r)))
  {
    var t := Apply(sys, s, Release(r));
    forall k | 0 <= k < |s.jobs| ensures JobSane(sys, t, k) {
      assert JobSane(sys, s, k);
    }
  }

  lemma StepSane(sys: System, s: State, c: Choice)
    requires WellFormed(sys) && Sane(sys, s) && Enabled(sys, s, c)
    ensures Sane(sys, Apply(sys, s, c))
  {
    match c
    case Release(r) => ReleaseSane(sys, s, r);
    case Tick(i) => TickSane(sys, s, i);
    case Next(i) => NextSane(sys, s, i);
    case HandOver(i, w) => HandOverSane(sys, s, i, w);
    case Idle =>
      forall k | 0 <= k < |s.jobs| ensures JobSane(sys, Apply(sys, s, c), k) {
        assert JobSane(sys, s, k);
      }
  }
}
