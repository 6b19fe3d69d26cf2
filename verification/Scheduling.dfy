/** One processor under SCHED_FIFO, one mutex, and jobs that each run a straight-line
    program: the setting of the priority-inversion experiments.  A run is a list of
    choices; everything the environment decides (when a timer fires, how long a
    workload takes) is in the choices, and everything else is computed by `Apply`. */
module Scheduling {
  import opened Options

  /** `Begin` and `End` read the clock; `Work(max)` takes any number of ticks up to `max`. */
  datatype Instr = Begin | Work(max: nat) | Lock | Unlock | End

  /** A `Timer` starts a fresh thread per expiry, at least `separation` ticks apart;
      a `Loop` is one thread that starts over after its previous iteration. */
  datatype Arrival = Timer(separation: nat) | Loop

  datatype Task = Task(priority: nat, arrival: Arrival, program: seq<Instr>)

  datatype Protocol = Plain | Inherit | Protect(ceiling: nat)

  datatype System = System(protocol: Protocol, tasks: seq<Task>)

  /** `rank` orders the threads of one priority level: smaller means nearer the head. */
  datatype Job = Job(task: nat, pc: nat, used: nat, waiting: bool, rank: nat, released: nat)

  /** `startTime` and `results` are the program's globals.  `lockedAt` and `ledger` only
      record: when the mutex was last acquired, and how many ticks each task has used since. */
  datatype State = State(now: nat, jobs: seq<Job>, owner: Option<nat>, nextRank: nat,
                         startTime: nat, results: seq<int>, lockedAt: nat, ledger: seq<nat>)

  datatype Choice =
    | Release(task: nat)
    | Tick(job: nat)               // the job works for one tick
    | Next(job: nat)               // the job finishes its instruction, in no time
    | HandOver(job: nat, to: nat)  // the job unlocks and a waiting job acquires the mutex
    | Idle                         // one tick with nothing to run

  function NoTicks(sys: System): seq<nat> {
    seq(|sys.tasks|, _ => 0)
  }

  function Init(sys: System): State {
    State(0, [], None, 0, 0, [], 0, NoTicks(sys))
  }

  // ---------- Jobs ----------

  function Prog(sys: System, j: Job): seq<Instr> {
    if j.task < |sys.tasks| then sys.tasks[j.task].program else []
  }

  function Base(sys: System, j: Job): nat {
    if j.task < |sys.tasks| then sys.tasks[j.task].priority else 0
  }

  predicate Live(sys: System, j: Job) {
    j.pc < |Prog(sys, j)|
  }

  predicate Ready(sys: System, j: Job) {
    Live(sys, j) && !j.waiting
  }

  function Current(sys: System, j: Job): Instr
    requires Live(sys, j)
  {
    Prog(sys, j)[j.pc]
  }

  // ---------- Priorities ----------

  /** The highest base priority among the jobs that wait for the mutex (0 if none does). */
  function MaxWaiting(sys: System, jobs: seq<Job>): (m: nat)
    ensures forall k :: 0 <= k < |jobs| && jobs[k].waiting ==> Base(sys, jobs[k]) <= m
    ensures m == 0 || exists k :: 0 <= k < |jobs| && jobs[k].waiting && Base(sys, jobs[k]) == m
  {
    if jobs == [] then 0
    else
      var last := |jobs| - 1;
      var m := MaxWaiting(sys, jobs[..last]);
      assert forall k :: 0 <= k < last ==> jobs[..last][k] == jobs[k];
      if jobs[last].waiting && m < Base(sys, jobs[last]) then Base(sys, jobs[last]) else m
  }

  function Max(a: nat, b: nat): nat {
    if a < b then b else a
  }

  function Effective(sys: System, s: State, i: nat): nat
    requires i < |s.jobs|
  {
    var base := Base(sys, s.jobs[i]);
    if s.owner != Some(i) then base
    else match sys.protocol
      case Plain => base
      case Inherit => Max(base, MaxWaiting(sys, s.jobs))
      case Protect(ceiling) => Max(base, ceiling)
  }

  predicate Before(sys: System, s: State, i: nat, k: nat)
    requires i < |s.jobs| && k < |s.jobs|
  {
    || Effective(sys, s, k) < Effective(sys, s, i)
    || (Effective(sys, s, k) == Effective(sys, s, i) && s.jobs[i].rank < s.jobs[k].rank)
  }

  /** Job i has the processor: it heads the list of the highest nonempty priority. */
  predicate Picked(sys: System, s: State, i: nat) {
    && i < |s.jobs|
    && Ready(sys, s.jobs[i])
    && forall k :: 0 <= k < |s.jobs| && k != i && Ready(sys, s.jobs[k]) ==> Before(sys, s, i, k)
  }

  predicate NobodyWaits(s: State) {
    forall k :: 0 <= k < |s.jobs| ==> !s.jobs[k].waiting
  }

  /** The waiter that the scheduling policy lets acquire the mutex. */
  predicate TopWaiter(sys: System, s: State, w: nat) {
    && w < |s.jobs|
    && s.jobs[w].waiting
    && forall k :: 0 <= k < |s.jobs| && k != w && s.jobs[k].waiting ==>
         || Base(sys, s.jobs[k]) < Base(sys, s.jobs[w])
         || (Base(sys, s.jobs[k]) == Base(sys, s.jobs[w]) && s.jobs[w].rank < s.jobs[k].rank)
  }

  // ---------- Steps ----------

  predicate MayRelease(sys: System, s: State, t: nat)
    requires t < |sys.tasks|
  {
    forall k :: 0 <= k < |s.jobs| && s.jobs[k].task == t ==>
      match sys.tasks[t].arrival
      case Timer(separation) => s.jobs[k].released + separation <= s.now
      case Loop => !Live(sys, s.jobs[k])
  }

  predicate Enabled(sys: System, s: State, c: Choice) {
    match c
    case Release(t) => t < |sys.tasks| && MayRelease(sys, s, t)
    case Tick(i) =>
      Picked(sys, s, i) && Current(sys, s.jobs[i]).Work? && s.jobs[i].used < Current(sys, s.jobs[i]).max
    case Next(i) => Picked(sys, s, i) && (Current(sys, s.jobs[i]).Unlock? ==> NobodyWaits(s))
    case HandOver(i, w) => Picked(sys, s, i) && Current(sys, s.jobs[i]).Unlock? && w != i && TopWaiter(sys, s, w)
    case Idle => forall k :: 0 <= k < |s.jobs| ==> !Ready(sys, s.jobs[k])
  }

  function Charge(ledger: seq<nat>, t: nat): seq<nat> {
    if t < |ledger| then ledger[t := ledger[t] + 1] else ledger
  }

  function Advance(j: Job): Job {
    j.(pc := j.pc + 1, used := 0)
  }

  function ApplyNext(sys: System, s: State, i: nat): State
    requires i < |s.jobs| && Live(sys, s.jobs[i])
  {
    var next := s.(jobs := s.jobs[i := Advance(s.jobs[i])]);
    match Current(sys, s.jobs[i])
    case Begin => next.(startTime := s.now)
    case Work(_) => next
    case Lock =>
      if s.owner.None? then next.(owner := Some(i), lockedAt := s.now, ledger := NoTicks(sys))
      else s.(jobs := s.jobs[i := s.jobs[i].(waiting := true)])
    case Unlock => next.(owner := None)
    case End => next.(results := s.results + [s.now - s.startTime])
  }

  function Apply(sys: System, s: State, c: Choice): State
    requires Enabled(sys, s, c)
  {
    match c
    case Release(t) =>
      s.(jobs := s.jobs + [Job(t, 0, 0, false, s.nextRank, s.now)], nextRank := s.nextRank + 1)
    case Tick(i) =>
      s.(now := s.now + 1,
         jobs := s.jobs[i := s.jobs[i].(used := s.jobs[i].used + 1)],
         ledger := Charge(s.ledger, s.jobs[i].task))
    case Next(i) => ApplyNext(sys, s, i)
    case HandOver(i, w) =>
      var woken := s.jobs[w].(waiting := false, pc := s.jobs[w].pc + 1, rank := s.nextRank);
      s.(jobs := s.jobs[i := Advance(s.jobs[i])][w := woken],
         owner := Some(w), nextRank := s.nextRank + 1, lockedAt := s.now, ledger := NoTicks(sys))
    case Idle => s.(now := s.now + 1)
  }

  // ---------- Runs ----------

  /** The state after the given choices, or None if one of them was not enabled. */
  function Run(sys: System, choices: seq<Choice>): Option<State> {
    if choices == [] then Some(Init(sys))
    else
      var last := |choices| - 1;
      var before := Run(sys, choices[..last]);
      if before.Some? && Enabled(sys, before.value, choices[last])
      then Some(Apply(sys, before.value, choices[last]))
      else None
  }

  predicate Reachable(sys: System, choices: seq<Choice>, s: State) {
    Run(sys, choices) == Some(s)
  }
}
