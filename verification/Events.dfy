/** Events, the deadlines the proxy computes for them, and the comparison the queue uses. */
module Events {
  import opened Heaps

  /** A pushed event: the number of the push call, its source, and its creation time. */
  datatype Event = Event(id: nat, source: nat, created: int)

  const SOURCES: nat := 5

  /** Relative deadlines by source, in milliseconds. */
  const INTERVALS: seq<int> := [100, 50, 200, 150, 70]

  /** Creation periods by source, in milliseconds. */
  const PERIODS: seq<int> := [100, 100, 100, 200, 200]

  // ---------- Deadlines at the resolution of the clock (nanoseconds) ----------

  /** duration_cast from nanoseconds to microseconds truncates toward zero. */
  function ToMicros(nanos: int): int {
    if nanos >= 0 then nanos / 1000 else -((-nanos) / 1000)
  }

  /** The deadline computed on arrival: now, plus what is left of the interval. */
  function DeadlineNanos(source: nat, created: int, now: int): int
    requires source < SOURCES
  {
    var dtn := INTERVALS[source] * 1000 - ToMicros(now - created);
    now + dtn * 1000
  }

  /** The comparator of the queue: does l come after r? */
  predicate After(l: int, r: int) {
    ToMicros(l - r) > 0
  }

  /** The deadline is creation plus interval up to the sub-microsecond part of the age, and
      exactly that if and only if the age is a whole number of microseconds. */
  lemma DeadlineFromCreation(source: nat, created: int, now: int)
    requires source < SOURCES
    ensures var interval := [100_000_000, 50_000_000, 200_000_000, 150_000_000, 70_000_000][source];
            var error := DeadlineNanos(source, created, now) - (created + interval);
            && error == (if created <= now then (now - created) % 1000 else -((created - now) % 1000))
            && -1000 < error < 1000 && (error == 0 <==> (now - created) % 1000 == 0)
  {}

  // ---------- When the comparator orders deadlines ----------

  predicate Tied(a: int, b: int) {
    !After(a, b) && !After(b, a)
  }

  /** What a priority queue asks of its comparator, on these times. */
  ghost predicate StrictWeakOrder(times: set<int>) {
    && (forall a :: a in times ==> !After(a, a))
    && (forall a, b, c :: a in times && b in times && c in times && After(a, b) && After(b, c) ==> After(a, c))
    && (forall a, b, c :: a in times && b in times && c in times && Tied(a, b) && Tied(b, c) ==> Tied(a, c))
  }

  /** l comes after r exactly when it is at least a whole microsecond later. */
  lemma AfterMeaning(l: int, r: int)
    ensures After(l, r) <==> l - r >= 1000
  {}

  /** Among times on one microsecond grid the comparator is the order of the times ... */
  lemma OrderOnGrid(l: int, r: int)
    requires l % 1000 == r % 1000
    ensures After(l, r) <==> l > r
  {}

  lemma GridIsOrdered(times: set<int>, residue: int)
    requires forall t :: t in times ==> t % 1000 == residue
    ensures StrictWeakOrder(times)
  {
    forall a, b | a in times && b in times ensures After(a, b) <==> a > b {
      OrderOnGrid(a, b);
    }
  }

  /** ... but in between "neither comes after the other" is not transitive. */
  lemma BetweenGridsIsNot(a: int, offset: int)
    requires 0 < offset < 1000
    ensures !StrictWeakOrder({a, a + offset, a + 1000})
  {
    assert Tied(a, a + offset) && Tied(a + offset, a + 1000) && !Tied(a, a + 1000);
  }

  /** Reading n of a clock that ticks every `tick` nanoseconds. */
  function Reading(n: int, tick: nat, phase: int): int {
    phase + n * tick
  }

  /** A deadline that a proxy with this clock can compute; the creation time comes from the clock
      of the supplier. */
  ghost predicate Computed(deadline: int, tick: nat, phase: int) {
    exists source: nat, created: int, n: int :: source < SOURCES
      && deadline == DeadlineNanos(source, created, Reading(n, tick, phase))
  }

  ghost predicate AllComputed(times: set<int>, tick: nat, phase: int) {
    forall t :: t in times ==> Computed(t, tick, phase)
  }

  /** Any whole number of microseconds up to 100 ms from now is the deadline of some event that
      was created by now. */
  lemma ComputedFromNow(n: int, k: int, tick: nat, phase: int)
    requires k <= 100000
    ensures Computed(Reading(n, tick, phase) + 1000 * k, tick, phase)
  {
    var now := Reading(n, tick, phase);
    assert DeadlineNanos(0, now - 1000 * (100000 - k), now) == now + 1000 * k;
  }

  lemma WholeMicros(n: int, micros: nat)
    ensures n * (1000 * micros) == 1000 * (n * micros)
  {}

  lemma OnGrid(phase: int, k: int)
    ensures (phase + 1000 * k) % 1000 == phase % 1000
  {}

  lemma SameResidue(deadline: int, tick: nat, phase: int)
    requires tick % 1000 == 0 && Computed(deadline, tick, phase)
    ensures deadline % 1000 == phase % 1000
  {
    var source: nat, created: int, n: int :|
      source < SOURCES && deadline == DeadlineNanos(source, created, Reading(n, tick, phase));
    WholeMicros(n, tick / 1000);
    var dtn := INTERVALS[source] * 1000 - ToMicros(Reading(n, tick, phase) - created);
    OnGrid(phase, n * (tick / 1000) + dtn);
    assert deadline == phase + 1000 * (n * (tick / 1000) + dtn);
  }

  /** Off the grid of the first reading, on the grid of the second. */
  lemma ComputedNextTick(tick: nat, phase: int)
    ensures Computed(phase + tick % 1000, tick, phase)
  {
    ComputedFromNow(1, -(tick / 1000), tick, phase);
    assert Reading(1, tick, phase) + 1000 * -(tick / 1000) == phase + tick % 1000;
  }

  lemma OffGridDeadlines(tick: nat, phase: int)
    requires tick % 1000 != 0
    ensures exists times: set<int> :: AllComputed(times, tick, phase) && !StrictWeakOrder(times)
  {
    ComputedFromNow(0, 0, tick, phase);
    ComputedFromNow(0, 1, tick, phase);
    ComputedNextTick(tick, phase);
    BetweenGridsIsNot(phase, tick % 1000);
    assert Reading(0, tick, phase) == phase;
    assert AllComputed({phase, phase + tick % 1000, phase + 1000}, tick, phase);
  }

  /** The comparator is a strict weak order on all deadlines that can be computed if and only if
      the clock of the proxy ticks in whole microseconds. */
  lemma OrderedByTick(tick: nat, phase: int)
    ensures (forall times: set<int> :: AllComputed(times, tick, phase) ==> StrictWeakOrder(times)) <==> tick % 1000 == 0
  {
    if tick % 1000 == 0 {
      forall times: set<int> | AllComputed(times, tick, phase) ensures StrictWeakOrder(times) {
        forall t | t in times ensures t % 1000 == phase % 1000 {
          SameResidue(t, tick, phase);
        }
        GridIsOrdered(times, phase % 1000);
      }
    } else {
      OffGridDeadlines(tick, phase);
    }
  }

  // ---------- Whole microseconds ----------

  function Interval(e: Event): int {
    if e.source < SOURCES then INTERVALS[e.source] * 1000 else 0
  }

  function Deadline(e: Event): int {
    e.created + Interval(e)
  }

  /** What the proxy puts into the EDF queue. */
  function Queued(e: Event): Entry<Event> {
    Entry(Deadline(e), e)
  }

  lemma KeyIsDeadline(e: Event, now: int)
    requires e.source < SOURCES
    ensures Queued(e).key == e.created + [100_000, 50_000, 200_000, 150_000, 70_000][e.source]
    ensures DeadlineNanos(e.source, 1000 * e.created, 1000 * now) == 1000 * Queued(e).key
  {
    DeadlineFromCreation(e.source, 1000 * e.created, 1000 * now);
  }

  /** For readings in whole microseconds the deadline computed is the key used here, and the
      comparator is the order of the keys. */
  lemma KeysAreDeadlines(a: Event, now: int, b: Event, later: int)
    requires a.source < SOURCES && b.source < SOURCES
    ensures Queued(a).item == a && Queued(a).key == a.created + [100_000, 50_000, 200_000, 150_000, 70_000][a.source]
    ensures DeadlineNanos(a.source, 1000 * a.created, 1000 * now) == 1000 * Queued(a).key
    ensures After(DeadlineNanos(a.source, 1000 * a.created, 1000 * now),
                  DeadlineNanos(b.source, 1000 * b.created, 1000 * later))
            <==> Queued(a).key > Queued(b).key
  {
    KeyIsDeadline(a, now);
    KeyIsDeadline(b, later);
    AfterMeaning(1000 * Queued(a).key, 1000 * Queued(b).key);
  }
}
