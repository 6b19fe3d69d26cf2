/** lab3: publishers push messages into one priority queue under a flag; the dispatching
    thread takes the message of least value and writes it to the subscribers of its topic.
    The value decides the policy: EDF, RM or FIFO. */
module TopicDispatch {
  import opened Options
  import opened Heaps

  const MAX_SUBSCRIBERS: nat := 3

  datatype Strategy = EDF | RM | FIFO

  /** `periods` in microseconds, one for each of the topics that start with '0', '1', '2'. */
  datatype Config = Config(strategy: Strategy, periods: seq<int>, baseTime: int)

  /** A published message; `stamp` is its timestamp in microseconds. */
  datatype Message = Message(topic: string, data: string, stamp: int)

  /** The topics that index the table of periods. */
  predicate HasPeriod(cfg: Config, topic: string) {
    |topic| > 0 && '0' <= topic[0] && topic[0] as int - '0' as int < |cfg.periods|
  }

  function Period(cfg: Config, topic: string): int
    requires HasPeriod(cfg, topic)
  {
    cfg.periods[topic[0] as int - '0' as int]
  }

  /** The queue value of a message pushed at time `now`. */
  function GetVal(cfg: Config, m: Message, now: int): int
    requires cfg.strategy.FIFO? || HasPeriod(cfg, m.topic)
  {
    match cfg.strategy
    case EDF => Period(cfg, m.topic) + m.stamp
    case RM => Period(cfg, m.topic)
    case FIFO => now - cfg.baseTime
  }

  datatype PushPc = Locking | Inserting | Raising | Broadcasting | Unlocking | Returned

  datatype Publication = Publication(message: Message, pc: PushPc)

  datatype DispatchPc =
    | ToLock | Testing | Asleep | Woken | Taking
    | Clearing(message: Message) | Taken(message: Message) | Scanning(message: Message, next: nat)

  /** `since`: the number of dispatches that no longer concern this subscriber. */
  datatype Subscriber = Subscriber(topic: string, received: seq<Message>, since: nat)

  datatype Holder = Nobody | Dispatcher | Publisher(i: nat)

  datatype Pop = Pop(entry: Entry<Message>, left: multiset<Entry<Message>>)

  /** `pushes`, the `clock` readings at the pushes, and `pops` only record the run. */
  datatype State = State(holder: Holder, pq: multiset<Entry<Message>>, nonEmptyPQ: bool, dispatcher: DispatchPc,
                         publications: seq<Publication>, subscribers: seq<Subscriber>,
                         pushes: seq<Entry<Message>>, clock: seq<int>, pops: seq<Pop>)

  datatype Choice =
    | Publish(message: Message)
    | Push(i: nat, now: int)
    | Dispatch
    | Take(entry: Entry<Message>)
    | Spurious
    | Subscribe(topic: string)

  function Init(): State {
    State(Nobody, multiset{}, false, ToLock, [], [], [], [], [])
  }

  ghost predicate Enabled(cfg: Config, s: State, c: Choice) {
    match c
    case Publish(m) => cfg.strategy.FIFO? || HasPeriod(cfg, m.topic)
    case Push(i, _) =>
      && i < |s.publications|
      && !s.publications[i].pc.Returned?
      && (s.publications[i].pc.Locking? ==> s.holder.Nobody?)
      && (cfg.strategy.FIFO? || HasPeriod(cfg, s.publications[i].message.topic))
    case Dispatch =>
      (match s.dispatcher
       case ToLock | Woken => s.holder.Nobody?
       case Asleep | Taking => false
       case _ => true)
    case Take(e) => s.dispatcher.Taking? && Least(s.pq, e)
    case Spurious => s.dispatcher.Asleep?
    case Subscribe(_) => true
  }

  function At(s: State, i: nat, pc: PushPc): seq<Publication>
    requires i < |s.publications|
  {
    s.publications[i := s.publications[i].(pc := pc)]
  }

  function ApplyPush(cfg: Config, s: State, i: nat, now: int): State
    requires i < |s.publications| && (cfg.strategy.FIFO? || HasPeriod(cfg, s.publications[i].message.topic))
  {
    match s.publications[i].pc
    case Locking => s.(holder := Publisher(i), publications := At(s, i, Inserting))
    case Inserting =>
      var e := Entry(GetVal(cfg, s.publications[i].message, now), s.publications[i].message);
      s.(pq := s.pq + multiset{e}, pushes := s.pushes + [e], clock := s.clock + [now],
         publications := At(s, i, Raising))
    case Raising => s.(nonEmptyPQ := true, publications := At(s, i, Broadcasting))
    case Broadcasting =>
      s.(dispatcher := if s.dispatcher.Asleep? then Woken else s.dispatcher, publications := At(s, i, Unlocking))
    case Unlocking => s.(holder := Nobody, publications := At(s, i, Returned))
    case Returned => s
  }

  function Written(sub: Subscriber, m: Message): Subscriber {
    if sub.topic == m.topic then sub.(received := sub.received + [m]) else sub
  }

  function ApplyDispatch(s: State): State {
    match s.dispatcher
    case ToLock | Woken => s.(holder := Dispatcher, dispatcher := Testing)
    case Testing => if !s.nonEmptyPQ then s.(holder := Nobody, dispatcher := Asleep) else s.(dispatcher := Taking)
    case Clearing(m) => s.(nonEmptyPQ := s.nonEmptyPQ && s.pq != multiset{}, dispatcher := Taken(m))
    case Taken(m) => s.(holder := Nobody, dispatcher := Scanning(m, 0))
    case Scanning(m, next) =>
      if next >= |s.subscribers| then s.(dispatcher := ToLock)
      else s.(subscribers := s.subscribers[next := Written(s.subscribers[next], m)],
              dispatcher := Scanning(m, next + 1))
    case Asleep | Taking => s
  }

  predicate InHand(d: DispatchPc) {
    d.Clearing? || d.Taken? || d.Scanning?
  }

  /** The number of messages whose scan of the table is over. */
  function Settled(s: State): nat {
    if InHand(s.dispatcher) && |s.pops| > 0 then |s.pops| - 1 else |s.pops|
  }

  /** A subscriber that comes while a message is still to be scanned gets that message too. */
  function ApplySubscribe(s: State, topic: string): State {
    if |s.subscribers| < MAX_SUBSCRIBERS
    then s.(subscribers := s.subscribers + [Subscriber(topic, [], Settled(s))])
    else s
  }

  function Apply(cfg: Config, s: State, c: Choice): State
    requires c.Push? ==>
               c.i < |s.publications| && (cfg.strategy.FIFO? || HasPeriod(cfg, s.publications[c.i].message.topic))
  {
    match c
    case Publish(m) => s.(publications := s.publications + [Publication(m, Locking)])
    case Push(i, now) => ApplyPush(cfg, s, i, now)
    case Dispatch => ApplyDispatch(s)
    case Take(e) =>
      var rest := s.pq - multiset{e};
      s.(pq := rest, dispatcher := Clearing(e.item), pops := s.pops + [Pop(e, rest)])
    case Spurious => s.(dispatcher := Woken)
    case Subscribe(topic) => ApplySubscribe(s, topic)
  }

  /** The state after the given choices from s, or None if one of them was not enabled. */
  ghost function RunFrom(cfg: Config, s: State, choices: seq<Choice>): (r: Option<State>) {
    if choices == [] then Some(s)
    else
      var last := |choices| - 1;
      var before := RunFrom(cfg, s, choices[..last]);
      if before.Some? && Enabled(cfg, before.value, choices[last])
      then Some(Apply(cfg, before.value, choices[last])) else None
  }

  ghost predicate Reachable(cfg: Config, choices: seq<Choice>, s: State) {
    RunFrom(cfg, Init(), choices) == Some(s)
  }

  // ---------- Mutual exclusion and the flag ----------

  predicate InSection(pc: PushPc) {
    !pc.Locking? && !pc.Returned?
  }

  predicate DispatcherHolds(d: DispatchPc) {
    d.Testing? || d.Taking? || d.Clearing? || d.Taken?
  }

  ghost predicate Exclusive(s: State) {
    && (s.holder.Dispatcher? <==> DispatcherHolds(s.dispatcher))
    && (forall i: nat :: i < |s.publications| ==> (InSection(s.publications[i].pc) <==> s.holder == Publisher(i)))
    && (s.holder.Publisher? ==> s.holder.i < |s.publications|)
  }

  predicate IsRaising(s: State) {
    s.holder.Publisher? && s.holder.i < |s.publications| && s.publications[s.holder.i].pc.Raising?
  }

  /** The flag lags behind the queue only between a push or pop and the assignment after it. */
  ghost predicate FlagTells(s: State) {
    && (IsRaising(s) ==> s.pq != multiset{})
    && (s.dispatcher.Clearing? || s.dispatcher.Taking? ==> s.nonEmptyPQ)
    && (!IsRaising(s) && !s.dispatcher.Clearing? ==> (s.nonEmptyPQ <==> s.pq != multiset{}))
  }

  predicate IsBroadcasting(s: State) {
    s.holder.Publisher? && s.holder.i < |s.publications| && s.publications[s.holder.i].pc.Broadcasting?
  }

  /** The dispatcher sleeps under a raised flag only until the broadcast that is about to come. */
  predicate NoLostWakeup(s: State) {
    s.dispatcher.Asleep? && s.nonEmptyPQ ==> IsBroadcasting(s)
  }

  lemma PushKeepsWakeup(cfg: Config, s: State, i: nat, now: int)
    requires Exclusive(s) && NoLostWakeup(s) && Enabled(cfg, s, Push(i, now))
    ensures NoLostWakeup(Apply(cfg, s, Push(i, now)))
  {
    assert InSection(s.publications[i].pc) <==> s.holder == Publisher(i);
  }

  lemma StepKeepsWakeup(cfg: Config, s: State, c: Choice)
    requires Exclusive(s) && NoLostWakeup(s) && Enabled(cfg, s, c)
    ensures NoLostWakeup(Apply(cfg, s, c))
  {
    if c.Push? { PushKeepsWakeup(cfg, s, c.i, c.now); }
  }

  lemma PushKeepsFlag(cfg: Config, s: State, i: nat, now: int)
    requires Exclusive(s) && FlagTells(s) && Enabled(cfg, s, Push(i, now))
    ensures FlagTells(Apply(cfg, s, Push(i, now)))
  {
    assert InSection(s.publications[i].pc) <==> s.holder == Publisher(i);
    var t := Apply(cfg, s, Push(i, now));
    if s.publications[i].pc.Inserting? { assert t.pushes[|s.pushes|] in t.pq; }
  }

  lemma PushKeepsExclusive(cfg: Config, s: State, i: nat, now: int)
    requires Exclusive(s) && Enabled(cfg, s, Push(i, now))
    ensures Exclusive(Apply(cfg, s, Push(i, now)))
  {
    assert InSection(s.publications[i].pc) <==> s.holder == Publisher(i);
  }

  lemma StepKeepsFlag(cfg: Config, s: State, c: Choice)
    requires Exclusive(s) && FlagTells(s) && Enabled(cfg, s, c)
    ensures Exclusive(Apply(cfg, s, c)) && FlagTells(Apply(cfg, s, c))
  {
    match c
    case Push(i, now) =>
      PushKeepsExclusive(cfg, s, i, now);
      PushKeepsFlag(cfg, s, i, now);
    case _ =>
  }

  // ---------- The queue: conservation and least values ----------

  function Entries(pops: seq<Pop>): seq<Entry<Message>> {
    seq(|pops|, k requires 0 <= k < |pops| => pops[k].entry)
  }

  /** Nothing is lost or duplicated between the queue and the dispatcher. */
  ghost predicate Conserved(s: State) {
    multiset(s.pushes) == s.pq + multiset(Entries(s.pops))
  }

  ghost predicate LeastFirst(s: State) {
    forall i, x :: 0 <= i < |s.pops| && x in s.pops[i].left ==> s.pops[i].entry.key <= x.key && x in s.pushes
  }

  predicate Inserts(s: State, c: Choice) {
    c.Push? && c.i < |s.publications| && s.publications[c.i].pc.Inserting?
  }

  lemma OthersLeaveQueue(cfg: Config, s: State, c: Choice)
    requires Enabled(cfg, s, c) && !Inserts(s, c) && !c.Take?
    ensures var t := Apply(cfg, s, c);
            t.pq == s.pq && t.pushes == s.pushes && t.clock == s.clock && t.pops == s.pops
  {}

  lemma TakeKeepsQueue(cfg: Config, s: State, e: Entry<Message>)
    requires Conserved(s) && LeastFirst(s) && Enabled(cfg, s, Take(e))
    ensures Conserved(Apply(cfg, s, Take(e))) && LeastFirst(Apply(cfg, s, Take(e)))
  {
    var t := Apply(cfg, s, Take(e));
    assert Entries(t.pops) == Entries(s.pops) + [e];
    forall i, x | 0 <= i < |t.pops| && x in t.pops[i].left
      ensures t.pops[i].entry.key <= x.key && x in t.pushes
    {
      if i < |s.pops| {
        assert t.pops[i] == s.pops[i];
      } else {
        assert x in s.pq;
        assert x in multiset(s.pushes);
      }
    }
  }

  lemma InsertKeepsQueue(cfg: Config, s: State, i: nat, now: int)
    requires Conserved(s) && LeastFirst(s) && Enabled(cfg, s, Push(i, now)) && s.publications[i].pc.Inserting?
    ensures Conserved(Apply(cfg, s, Push(i, now))) && LeastFirst(Apply(cfg, s, Push(i, now)))
  {}

  lemma StepKeepsQueue(cfg: Config, s: State, c: Choice)
    requires Conserved(s) && LeastFirst(s) && Enabled(cfg, s, c)
    ensures Conserved(Apply(cfg, s, c)) && LeastFirst(Apply(cfg, s, c))
  {
    if Inserts(s, c) {
      InsertKeepsQueue(cfg, s, c.i, c.now);
    } else if c.Take? {
      TakeKeepsQueue(cfg, s, c.entry);
    } else {
      OthersLeaveQueue(cfg, s, c);
    }
  }

  // ---------- The subscribers ----------

  function Filter(pops: seq<Pop>, topic: string): seq<Message> {
    if pops == [] then []
    else
      var rest := Filter(pops[..|pops| - 1], topic);
      var m := pops[|pops| - 1].entry.item;
      if m.topic == topic then rest + [m] else rest
  }

  /** How many dispatches have reached subscriber k. */
  function Scanned(s: State, k: nat): nat {
    if InHand(s.dispatcher) && |s.pops| > 0 && !(s.dispatcher.Scanning? && k < s.dispatcher.next)
    then |s.pops| - 1 else |s.pops|
  }

  ghost predicate StreamOk(s: State, k: nat)
    requires k < |s.subscribers|
  {
    var sub := s.subscribers[k];
    sub.since <= Scanned(s, k) && sub.received == Filter(s.pops[sub.since..Scanned(s, k)], sub.topic)
  }

  ghost predicate Streams(s: State) {
    && |s.subscribers| <= MAX_SUBSCRIBERS
    && (InHand(s.dispatcher) ==> |s.pops| > 0 && s.pops[|s.pops| - 1].entry.item == s.dispatcher.message)
    && (forall k: nat :: k < |s.subscribers| ==> StreamOk(s, k))
    && (s.dispatcher.Scanning? ==> s.dispatcher.next <= |s.subscribers|)
  }

  lemma TakeKeepsStreams(cfg: Config, s: State, e: Entry<Message>)
    requires Streams(s) && Enabled(cfg, s, Take(e))
    ensures Streams(Apply(cfg, s, Take(e)))
  {
    var t := Apply(cfg, s, Take(e));
    forall k: nat | k < |t.subscribers| ensures StreamOk(t, k) {
      assert StreamOk(s, k);
      assert t.pops[s.subscribers[k].since..|s.pops|] == s.pops[s.subscribers[k].since..|s.pops|];
    }
  }

  lemma FilterLast(pops: seq<Pop>, since: nat, topic: string)
    requires since < |pops|
    ensures var m := pops[|pops| - 1].entry.item;
            Filter(pops[since..|pops|], topic)
            == Filter(pops[since..|pops| - 1], topic) + if m.topic == topic then [m] else []
  {
    var now := pops[since..|pops|];
    assert now[..|now| - 1] == pops[since..|pops| - 1];
  }

  lemma ScanKeepsStream(s: State, k: nat)
    requires Streams(s) && s.dispatcher.Scanning? && k < |s.subscribers|
    ensures |ApplyDispatch(s).subscribers| == |s.subscribers| && StreamOk(ApplyDispatch(s), k)
  {
    assert StreamOk(s, k);
    if k == s.dispatcher.next { FilterLast(s.pops, s.subscribers[k].since, s.subscribers[k].topic); }
  }

  lemma ScanKeepsStreams(s: State)
    requires Streams(s) && s.dispatcher.Scanning?
    ensures Streams(ApplyDispatch(s))
  {
    forall k: nat | k < |s.subscribers|
      ensures |ApplyDispatch(s).subscribers| == |s.subscribers| && StreamOk(ApplyDispatch(s), k)
    {
      ScanKeepsStream(s, k);
    }
  }

  lemma DispatchKeepsStreams(s: State)
    requires Streams(s)
    ensures Streams(ApplyDispatch(s))
  {
    if s.dispatcher.Scanning? {
      ScanKeepsStreams(s);
    } else {
      var t := ApplyDispatch(s);
      forall k: nat | k < |t.subscribers| ensures StreamOk(t, k) {
        assert StreamOk(s, k);
      }
    }
  }

  lemma SubscribeKeepsStreams(s: State, topic: string)
    requires Streams(s)
    ensures Streams(ApplySubscribe(s, topic))
  {
    var t := ApplySubscribe(s, topic);
    forall k: nat | k < |t.subscribers| ensures StreamOk(t, k) {
      if k < |s.subscribers| {
        assert StreamOk(s, k);
      }
    }
  }

  lemma PushKeepsStreams(cfg: Config, s: State, i: nat, now: int)
    requires Streams(s) && Enabled(cfg, s, Push(i, now))
    ensures Streams(Apply(cfg, s, Push(i, now)))
  {
    var t := Apply(cfg, s, Push(i, now));
    assert t.pops == s.pops && t.subscribers == s.subscribers;
    assert InHand(t.dispatcher) == InHand(s.dispatcher);
    assert InHand(s.dispatcher) ==> t.dispatcher == s.dispatcher;
    forall k: nat | k < |t.subscribers| ensures StreamOk(t, k) {
      assert StreamOk(s, k);
    }
  }

  lemma StepKeepsStreams(cfg: Config, s: State, c: Choice)
    requires Streams(s) && Enabled(cfg, s, c)
    ensures Streams(Apply(cfg, s, c))
  {
    match c
    case Take(e) => TakeKeepsStreams(cfg, s, e);
    case Dispatch => DispatchKeepsStreams(s);
    case Subscribe(topic) => SubscribeKeepsStreams(s, topic);
    case Push(i, now) => PushKeepsStreams(cfg, s, i, now);
    case _ =>
      var t := Apply(cfg, s, c);
      forall k: nat | k < |t.subscribers| ensures StreamOk(t, k) { assert StreamOk(s, k); }
  }

  // ---------- Values by policy ----------

  predicate IsValued(cfg: Config, e: Entry<Message>, now: int) {
    && (cfg.strategy.FIFO? || HasPeriod(cfg, e.item.topic))
    && e.key == GetVal(cfg, e.item, now)
  }

  /** An entry carries the value of its message at the time of its push. */
  ghost predicate Valued(cfg: Config, s: State) {
    && |s.clock| == |s.pushes|
    && forall k: nat :: k < |s.pushes| ==> IsValued(cfg, s.pushes[k], s.clock[k])
  }

  lemma StepKeepsValued(cfg: Config, s: State, c: Choice)
    requires Valued(cfg, s) && Enabled(cfg, s, c)
    ensures Valued(cfg, Apply(cfg, s, c))
  {
    if !Inserts(s, c) && !c.Take? { OthersLeaveQueue(cfg, s, c); }
  }

  ghost predicate Inv(cfg: Config, s: State) {
    && Exclusive(s) && FlagTells(s) && NoLostWakeup(s)
    && Conserved(s) && LeastFirst(s) && Streams(s) && Valued(cfg, s)
  }

  lemma StepKeepsInv(cfg: Config, s: State, c: Choice)
    requires Inv(cfg, s) && Enabled(cfg, s, c)
    ensures Inv(cfg, Apply(cfg, s, c))
  {
    StepKeepsFlag(cfg, s, c);
    StepKeepsWakeup(cfg, s, c);
    StepKeepsQueue(cfg, s, c);
    StepKeepsStreams(cfg, s, c);
    StepKeepsValued(cfg, s, c);
  }

  lemma {:induction false} RunInv(cfg: Config, choices: seq<Choice>, s: State)
    requires Reachable(cfg, choices, s)
    ensures Inv(cfg, s)
    decreases |choices|
  {
    if choices != [] {
      var last := |choices| - 1;
      var before := RunFrom(cfg, Init(), choices[..last]).value;
      RunInv(cfg, choices[..last], before);
      StepKeepsInv(cfg, before, choices[last]);
    }
  }

  // ---------- What every run keeps ----------

  /** Whenever the mutex is free the flag is true exactly when the queue holds something, and
      the dispatcher never takes the top of an empty queue. */
  lemma FlagIsExact(cfg: Config, choices: seq<Choice>, s: State)
    requires Reachable(cfg, choices, s)
    ensures s.holder.Nobody? ==> (s.nonEmptyPQ <==> s.pq != multiset{})
    ensures s.dispatcher.Taking? ==> s.pq != multiset{}
  {
    RunInv(cfg, choices, s);
  }

  /** No state has the mutex free, a message queued and the dispatcher asleep. */
  lemma NoSleepOnWork(cfg: Config, choices: seq<Choice>, s: State)
    requires Reachable(cfg, choices, s)
    ensures s.holder.Nobody? && s.pq != multiset{} ==> !s.dispatcher.Asleep?
  {
    RunInv(cfg, choices, s);
  }

  /** A spurious wakeup can come whenever the dispatcher sleeps, and if there is nothing to do it has
      no effect: the dispatcher tests again and goes back to sleep. */
  lemma SpuriousIsHarmless(cfg: Config, choices: seq<Choice>, s: State)
    requires Reachable(cfg, choices, s) && s.dispatcher.Asleep? && s.holder.Nobody?
    ensures Enabled(cfg, s, Spurious)
    ensures var woken := Apply(cfg, s, Spurious);
            && Enabled(cfg, woken, Dispatch) && Enabled(cfg, Apply(cfg, woken, Dispatch), Dispatch)
            && Apply(cfg, Apply(cfg, woken, Dispatch), Dispatch) == s
  {
    RunInv(cfg, choices, s);
  }

  /** Every message pushed is in the queue or was popped, exactly once, and a pop takes an
      entry of least value. */
  lemma NothingLost(cfg: Config, choices: seq<Choice>, s: State)
    requires Reachable(cfg, choices, s)
    ensures multiset(s.pushes) == s.pq + multiset(Entries(s.pops))
    ensures forall i, x :: 0 <= i < |s.pops| && x in s.pops[i].left ==> s.pops[i].entry.key <= x.key
  {
    RunInv(cfg, choices, s);
  }

  /** A subscriber receives the messages of its topic among those scanned since it came, each
      once and in the order of dispatch; with nothing in the dispatcher's hand, all of them. */
  lemma SubscriberStream(cfg: Config, choices: seq<Choice>, s: State, k: nat)
    requires Reachable(cfg, choices, s) && k < |s.subscribers|
    ensures var sub := s.subscribers[k];
            && |s.subscribers| <= 3
            && sub.since <= Scanned(s, k)
            && sub.received == Filter(s.pops[sub.since..Scanned(s, k)], sub.topic)
            && (!InHand(s.dispatcher) ==> Scanned(s, k) == |s.pops|)
  {
    RunInv(cfg, choices, s);
    assert StreamOk(s, k);
  }

  /** A registration keeps its place, its topic and its starting point, and what was received
      stays received. */
  ghost predicate Registered(s: State, t: State) {
    && |s.subscribers| <= |t.subscribers|
    && forall k :: 0 <= k < |s.subscribers| ==>
         && t.subscribers[k].topic == s.subscribers[k].topic
         && t.subscribers[k].since == s.subscribers[k].since
         && s.subscribers[k].received <= t.subscribers[k].received
  }

  lemma StepRegisters(cfg: Config, s: State, c: Choice)
    requires Enabled(cfg, s, c)
    ensures Registered(s, Apply(cfg, s, c))
  {}

  lemma {:induction false} RegistrationsStay(cfg: Config, choices: seq<Choice>, n: nat, s: State, t: State)
    requires n <= |choices| && Reachable(cfg, choices[..n], s) && Reachable(cfg, choices, t)
    ensures Registered(s, t)
    decreases |choices|
  {
    var last := |choices| - 1;
    if n == |choices| {
      assert choices[..n] == choices;
    } else {
      var before := RunFrom(cfg, Init(), choices[..last]).value;
      assert choices[..last][..n] == choices[..n];
      RegistrationsStay(cfg, choices[..last], n, s, before);
      StepRegisters(cfg, before, choices[last]);
    }
  }

  // ---------- From the publications to the queue ----------

  predicate Inserted(pc: PushPc) {
    !pc.Locking? && !pc.Inserting?
  }

  function Counts(p: Publication, x: Message): nat {
    if Inserted(p.pc) && p.message == x then 1 else 0
  }

  /** How many publications of message x have inserted it. */
  function TimesInserted(publications: seq<Publication>, x: Message): nat {
    if publications == [] then 0
    else TimesInserted(publications[..|publications| - 1], x) + Counts(publications[|publications| - 1], x)
  }

  function Messages(pushes: seq<Entry<Message>>): seq<Message> {
    seq(|pushes|, k requires 0 <= k < |pushes| => pushes[k].item)
  }

  lemma {:induction false} InsertedMoves(publications: seq<Publication>, i: nat, p: Publication, x: Message)
    requires i < |publications|
    ensures TimesInserted(publications[i := p], x)
            == TimesInserted(publications, x) - Counts(publications[i], x) + Counts(p, x)
  {
    var last := |publications| - 1;
    var t := publications[i := p];
    if i == last {
      assert t[..last] == publications[..last];
    } else {
      InsertedMoves(publications[..last], i, p, x);
      assert t[..last] == publications[..last][i := p];
    }
  }

  ghost predicate PushedByPublications(s: State, x: Message) {
    multiset(Messages(s.pushes))[x] == TimesInserted(s.publications, x)
  }

  lemma PushMoves(cfg: Config, s: State, i: nat, now: int) returns (pc: PushPc)
    requires Enabled(cfg, s, Push(i, now))
    ensures Apply(cfg, s, Push(i, now)).publications == s.publications[i := s.publications[i].(pc := pc)]
    ensures Inserted(pc) <==> Inserted(s.publications[i].pc) || s.publications[i].pc.Inserting?
  {
    pc := Apply(cfg, s, Push(i, now)).publications[i].pc;
  }

  lemma InsertAppends(cfg: Config, s: State, i: nat, now: int, x: Message)
    requires Enabled(cfg, s, Push(i, now)) && s.publications[i].pc.Inserting?
    ensures multiset(Messages(Apply(cfg, s, Push(i, now)).pushes))[x]
            == multiset(Messages(s.pushes))[x] + if s.publications[i].message == x then 1 else 0
  {
    var m := s.publications[i].message;
    assert Messages(Apply(cfg, s, Push(i, now)).pushes) == Messages(s.pushes) + [m];
  }

  lemma PushKeepsPushed(cfg: Config, s: State, i: nat, now: int, x: Message)
    requires PushedByPublications(s, x) && Enabled(cfg, s, Push(i, now))
    ensures PushedByPublications(Apply(cfg, s, Push(i, now)), x)
  {
    var pc := PushMoves(cfg, s, i, now);
    InsertedMoves(s.publications, i, s.publications[i].(pc := pc), x);
    if s.publications[i].pc.Inserting? {
      InsertAppends(cfg, s, i, now, x);
    } else {
      OthersLeaveQueue(cfg, s, Push(i, now));
    }
  }

  lemma StepKeepsPushed(cfg: Config, s: State, c: Choice, x: Message)
    requires PushedByPublications(s, x) && Enabled(cfg, s, c)
    ensures PushedByPublications(Apply(cfg, s, c), x)
  {
    match c
    case Push(i, now) => PushKeepsPushed(cfg, s, i, now, x);
    case Publish(m) => assert Apply(cfg, s, c).publications[..|s.publications|] == s.publications;
    case _ =>
  }

  /** Each publication past its insertion has put its message into the queue once, and nothing
      else has been put there. */
  lemma {:induction false} PublishedOnce(cfg: Config, choices: seq<Choice>, s: State, x: Message)
    requires Reachable(cfg, choices, s)
    ensures multiset(Messages(s.pushes))[x] == TimesInserted(s.publications, x)
    decreases |choices|
  {
    if choices != [] {
      var last := |choices| - 1;
      var before := RunFrom(cfg, Init(), choices[..last]).value;
      PublishedOnce(cfg, choices[..last], before, x);
      StepKeepsPushed(cfg, before, choices[last], x);
    }
  }

  // ---------- From the arguments of the calls to the records ----------

  /** The messages read by the publications of a run, read off the choices. */
  function Published(choices: seq<Choice>): seq<Message> {
    if choices == [] then []
    else
      var before, c := Published(choices[..|choices| - 1]), choices[|choices| - 1];
      if c.Publish? then before + [c.message] else before
  }

  /** The topics of the subscribing calls of a run, read off the choices. */
  function Subscribed(choices: seq<Choice>): seq<string> {
    if choices == [] then []
    else
      var before, c := Subscribed(choices[..|choices| - 1]), choices[|choices| - 1];
      if c.Subscribe? then before + [c.topic] else before
  }

  /** The publications and the table of subscribers hold what was given: of the subscriptions, the
      first three. */
  ghost predicate Recorded(s: State, messages: seq<Message>, topics: seq<string>) {
    && |s.publications| == |messages|
    && (forall i :: 0 <= i < |messages| ==> s.publications[i].message == messages[i])
    && |s.subscribers| == (if |topics| < 3 then |topics| else 3)
    && (forall k :: 0 <= k < |s.subscribers| ==> s.subscribers[k].topic == topics[k])
  }

  lemma OthersRecordNothing(cfg: Config, s: State, c: Choice)
    requires Enabled(cfg, s, c) && !c.Publish? && !c.Subscribe?
    ensures var t := Apply(cfg, s, c);
            && |t.publications| == |s.publications| && |t.subscribers| == |s.subscribers|
            && (forall i :: 0 <= i < |s.publications| ==> t.publications[i].message == s.publications[i].message)
            && (forall k :: 0 <= k < |s.subscribers| ==> t.subscribers[k].topic == s.subscribers[k].topic)
  {}

  lemma StepKeepsRecorded(cfg: Config, s: State, c: Choice, messages: seq<Message>, topics: seq<string>)
    requires Enabled(cfg, s, c) && Recorded(s, messages, topics)
    ensures Recorded(Apply(cfg, s, c),
                     if c.Publish? then messages + [c.message] else messages,
                     if c.Subscribe? then topics + [c.topic] else topics)
  {
    if !c.Publish? && !c.Subscribe? { OthersRecordNothing(cfg, s, c); }
  }

  lemma {:induction false} RunRecorded(cfg: Config, choices: seq<Choice>, s: State)
    requires Reachable(cfg, choices, s)
    ensures Recorded(s, Published(choices), Subscribed(choices))
    decreases |choices|
  {
    if choices != [] {
      var last := |choices| - 1;
      var before := RunFrom(cfg, Init(), choices[..last]).value;
      RunRecorded(cfg, choices[..last], before);
      StepKeepsRecorded(cfg, before, choices[last], Published(choices[..last]), Subscribed(choices[..last]));
    }
  }

  lemma {:induction false} AllInserted(publications: seq<Publication>, messages: seq<Message>, x: Message)
    requires |publications| == |messages|
    requires forall i :: 0 <= i < |messages| ==> publications[i].message == messages[i] && Inserted(publications[i].pc)
    ensures TimesInserted(publications, x) == multiset(messages)[x]
  {
    if messages != [] {
      var last := |messages| - 1;
      AllInserted(publications[..last], messages[..last], x);
      assert messages == messages[..last] + [messages[last]];
    }
  }

  /** Once all publishing calls have returned, the messages put into the queue are those given to
      the calls, each as often as given. */
  lemma PublishedIsPushed(cfg: Config, choices: seq<Choice>, s: State)
    requires Reachable(cfg, choices, s)
    requires forall i :: 0 <= i < |s.publications| ==> s.publications[i].pc.Returned?
    ensures multiset(Messages(s.pushes)) == multiset(Published(choices))
  {
    RunRecorded(cfg, choices, s);
    forall x ensures multiset(Messages(s.pushes))[x] == multiset(Published(choices))[x] {
      PublishedOnce(cfg, choices, s, x);
      AllInserted(s.publications, Published(choices), x);
    }
  }

  // ---------- The three policies ----------

  predicate Increasing(clock: seq<int>) {
    forall i, k :: 0 <= i < k < |clock| ==> clock[i] < clock[k]
  }

  ghost predicate InOrder(s: State) {
    && |s.pops| <= |s.pushes|
    && Entries(s.pops) == s.pushes[..|s.pops|]
    && s.pq == multiset(s.pushes[|s.pops|..])
  }

  lemma ClockGrows(cfg: Config, s: State, c: Choice)
    requires Enabled(cfg, s, c)
    ensures s.clock <= Apply(cfg, s, c).clock
  {}

  lemma TakesFirst(pushes: seq<Entry<Message>>, n: nat)
    requires n < |pushes|
    ensures pushes[..n + 1] == pushes[..n] + [pushes[n]]
    ensures multiset(pushes[n + 1..]) == multiset(pushes[n..]) - multiset{pushes[n]}
  {
    assert pushes[n..] == [pushes[n]] + pushes[n + 1..];
  }

  lemma OldestInOrder(pushes: seq<Entry<Message>>, pops: seq<Pop>, pq: multiset<Entry<Message>>, e: Entry<Message>)
    requires |pops| < |pushes| && pushes[|pops|] == e
    requires Entries(pops) == pushes[..|pops|] && pq == multiset(pushes[|pops|..])
    ensures var now := pops + [Pop(e, pq - multiset{e})];
            Entries(now) == pushes[..|now|] && pq - multiset{e} == multiset(pushes[|now|..])
  {
    TakesFirst(pushes, |pops|);
    assert Entries(pops + [Pop(e, pq - multiset{e})]) == Entries(pops) + [e];
  }

  lemma OldestIsLeast(cfg: Config, pushes: seq<Entry<Message>>, clock: seq<int>, n: nat, e: Entry<Message>)
    requires cfg.strategy.FIFO? && |clock| == |pushes| && Increasing(clock) && n <= |pushes|
    requires forall k: nat :: k < |pushes| ==> IsValued(cfg, pushes[k], clock[k])
    requires Least(multiset(pushes[n..]), e)
    ensures n < |pushes| && pushes[n] == e
  {}

  lemma TakeInOrder(cfg: Config, s: State, e: Entry<Message>)
    requires cfg.strategy.FIFO? && Enabled(cfg, s, Take(e)) && Valued(cfg, s) && InOrder(s) && Increasing(s.clock)
    ensures InOrder(Apply(cfg, s, Take(e)))
  {
    OldestIsLeast(cfg, s.pushes, s.clock, |s.pops|, e);
    OldestInOrder(s.pushes, s.pops, s.pq, e);
  }

  lemma StepInOrder(cfg: Config, s: State, c: Choice)
    requires cfg.strategy.FIFO? && Enabled(cfg, s, c) && Valued(cfg, s) && InOrder(s) && Increasing(s.clock)
    ensures InOrder(Apply(cfg, s, c))
  {
    var t := Apply(cfg, s, c);
    if Inserts(s, c) {
      var e := t.pushes[|s.pushes|];
      assert t.pushes == s.pushes + [e] && t.pops == s.pops;
      assert t.pushes[|s.pops|..] == s.pushes[|s.pops|..] + [e];
      assert t.pushes[..|s.pops|] == s.pushes[..|s.pops|];
    } else if c.Take? {
      TakeInOrder(cfg, s, c.entry);
    } else {
      OthersLeaveQueue(cfg, s, c);
    }
  }

  lemma {:induction false} RunInOrder(cfg: Config, choices: seq<Choice>, s: State)
    requires Reachable(cfg, choices, s) && cfg.strategy.FIFO? && Increasing(s.clock)
    ensures InOrder(s)
    decreases |choices|
  {
    if choices != [] {
      var last := |choices| - 1;
      var before := RunFrom(cfg, Init(), choices[..last]).value;
      ClockGrows(cfg, before, choices[last]);
      RunInOrder(cfg, choices[..last], before);
      RunInv(cfg, choices[..last], before);
      StepInOrder(cfg, before, choices[last]);
    }
  }

  /** FIFO: with a clock that advances between pushes, messages leave in the order in which
      they were pushed, whatever the base time. */
  lemma FifoInPushOrder(cfg: Config, choices: seq<Choice>, s: State)
    requires Reachable(cfg, choices, s) && cfg.strategy.FIFO? && Increasing(s.clock)
    ensures |s.pops| <= |s.pushes| && Entries(s.pops) == s.pushes[..|s.pops|]
  {
    RunInOrder(cfg, choices, s);
  }

  lemma {:induction false} PoppedWasPushed(s: State, i: nat)
    requires Conserved(s) && i < |s.pops|
    ensures s.pops[i].entry in s.pushes
  {
    assert Entries(s.pops)[i] in multiset(Entries(s.pops));
    assert s.pops[i].entry in multiset(s.pushes);
  }

  lemma PopsCompared(cfg: Config, choices: seq<Choice>, s: State, i: nat, x: Entry<Message>)
    returns (now: int, later: int)
    requires Reachable(cfg, choices, s) && i < |s.pops| && x in s.pops[i].left
    ensures IsValued(cfg, s.pops[i].entry, now) && IsValued(cfg, x, later) && s.pops[i].entry.key <= x.key
  {
    RunInv(cfg, choices, s);
    PoppedWasPushed(s, i);
    assert x in s.pushes;
    var j: nat :| j < |s.pushes| && s.pushes[j] == s.pops[i].entry;
    var k: nat :| k < |s.pushes| && s.pushes[k] == x;
    now, later := s.clock[j], s.clock[k];
  }

  /** The topic starts with this digit. */
  predicate StartsWith(topic: string, digit: nat) {
    |topic| > 0 && topic[0] as int == '0' as int + digit
  }

  /** The digit at the front of a topic selects the period, and topics of every digit that has a
      period can be published. */
  lemma DigitSelectsPeriod(cfg: Config, s: State, m: Message, digit: nat, now: int)
    requires StartsWith(m.topic, digit)
    ensures Enabled(cfg, s, Publish(m)) <==> cfg.strategy.FIFO? || digit < |cfg.periods|
    ensures digit < |cfg.periods| && cfg.strategy.RM? ==> GetVal(cfg, m, now) == cfg.periods[digit]
    ensures digit < |cfg.periods| && cfg.strategy.EDF? ==> GetVal(cfg, m, now) == cfg.periods[digit] + m.stamp
    ensures cfg.strategy.FIFO? ==> GetVal(cfg, m, now) == now - cfg.baseTime
  {}

  /** RM: no message is dispatched while one of a shorter period waits in the queue. */
  lemma ShortestPeriodFirst(cfg: Config, choices: seq<Choice>, s: State, i: nat, x: Entry<Message>, a: nat, b: nat)
    requires Reachable(cfg, choices, s) && cfg.strategy.RM? && i < |s.pops| && x in s.pops[i].left
    requires StartsWith(s.pops[i].entry.item.topic, a) && StartsWith(x.item.topic, b)
    ensures a < |cfg.periods| && b < |cfg.periods| && cfg.periods[a] <= cfg.periods[b]
  {
    var now, later := PopsCompared(cfg, choices, s, i, x);
    DigitSelectsPeriod(cfg, s, s.pops[i].entry.item, a, now);
    DigitSelectsPeriod(cfg, s, x.item, b, later);
  }

  /** EDF: the message dispatched has the least timestamp plus period of those queued, so of two
      messages of one topic the earlier leaves first. */
  lemma EarliestDeadlineFirst(cfg: Config, choices: seq<Choice>, s: State, i: nat, x: Entry<Message>, a: nat, b: nat)
    requires Reachable(cfg, choices, s) && cfg.strategy.EDF? && i < |s.pops| && x in s.pops[i].left
    requires StartsWith(s.pops[i].entry.item.topic, a) && StartsWith(x.item.topic, b)
    ensures a < |cfg.periods| && b < |cfg.periods|
    ensures s.pops[i].entry.item.stamp + cfg.periods[a] <= x.item.stamp + cfg.periods[b]
    ensures a == b ==> s.pops[i].entry.item.stamp <= x.item.stamp
  {
    var now, later := PopsCompared(cfg, choices, s, i, x);
    DigitSelectsPeriod(cfg, s, s.pops[i].entry.item, a, now);
    DigitSelectsPeriod(cfg, s, x.item, b, later);
  }

  /** Under EDF and RM every message that was queued starts with the digit of a period. */
  lemma QueuedHasDigit(cfg: Config, choices: seq<Choice>, s: State, k: nat) returns (digit: nat)
    requires Reachable(cfg, choices, s) && !cfg.strategy.FIFO? && k < |s.pushes|
    ensures StartsWith(s.pushes[k].item.topic, digit) && digit < |cfg.periods|
  {
    RunInv(cfg, choices, s);
    assert IsValued(cfg, s.pushes[k], s.clock[k]);
    digit := s.pushes[k].item.topic[0] as int - '0' as int;
  }

  // ---------- Every run drains the queue ----------

  /** Steps of the threads themselves: nobody publishes or subscribes, no spurious wakeup. */
  predicate Own(c: Choice) {
    c.Push? || c.Dispatch? || c.Take?
  }

  /** The steps a message costs once it is queued: pop, flag, unlock and a scan of the table. */
  function Weight(s: State): nat {
    6 + |s.subscribers|
  }

  function PushRank(pc: PushPc, weight: nat): nat {
    match pc
    case Locking => weight + 8
    case Inserting => weight + 7
    case Raising => 6
    case Broadcasting => 5
    case Unlocking => 1
    case Returned => 0
  }

  function DispatchRank(d: DispatchPc, subscribers: nat): nat {
    match d
    case Asleep => 0
    case Taking => 1
    case Testing => 2
    case ToLock | Woken => 3
    case Scanning(_, next) => 4 + if next <= subscribers then subscribers - next else 0
    case Taken(_) => 5 + subscribers
    case Clearing(_) => 6 + subscribers
  }

  function PublicationsRank(publications: seq<Publication>, weight: nat): nat {
    if publications == [] then 0
    else PublicationsRank(publications[..|publications| - 1], weight)
         + PushRank(publications[|publications| - 1].pc, weight)
  }

  /** An upper bound on the number of steps the threads can still make. */
  function Measure(s: State): nat {
    PublicationsRank(s.publications, Weight(s)) + Weight(s) * |s.pq| + DispatchRank(s.dispatcher, |s.subscribers|)
  }

  lemma {:induction false} RankOfUpdate(publications: seq<Publication>, i: nat, pc: PushPc, weight: nat)
    requires i < |publications|
    ensures PublicationsRank(publications[i := publications[i].(pc := pc)], weight)
            == PublicationsRank(publications, weight) - PushRank(publications[i].pc, weight) + PushRank(pc, weight)
  {
    var last := |publications| - 1;
    var t := publications[i := publications[i].(pc := pc)];
    if i == last {
      assert t[..last] == publications[..last];
    } else {
      RankOfUpdate(publications[..last], i, pc, weight);
      assert t[..last] == publications[..last][i := publications[i].(pc := pc)];
    }
  }

  lemma PushPays(cfg: Config, s: State, i: nat, now: int)
    requires Enabled(cfg, s, Push(i, now))
    ensures var t, w := Apply(cfg, s, Push(i, now)), Weight(s);
            && |t.publications| == |s.publications| && t.subscribers == s.subscribers
            && |t.pq| == |s.pq| + (if s.publications[i].pc.Inserting? then 1 else 0)
            && PushRank(t.publications[i].pc, w) + DispatchRank(t.dispatcher, |s.subscribers|)
               + (if s.publications[i].pc.Inserting? then w else 0)
               < PushRank(s.publications[i].pc, w) + DispatchRank(s.dispatcher, |s.subscribers|)
  {}

  lemma OneMoreMessage(weight: nat, n: nat)
    ensures weight * (n + 1) == weight * n + weight
  {}

  lemma PushDecreases(cfg: Config, s: State, i: nat, now: int)
    requires Enabled(cfg, s, Push(i, now))
    ensures Measure(Apply(cfg, s, Push(i, now))) < Measure(s)
  {
    var pc := PushMoves(cfg, s, i, now);
    PushPays(cfg, s, i, now);
    RankOfUpdate(s.publications, i, pc, Weight(s));
    OneMoreMessage(Weight(s), |s.pq|);
  }

  lemma TakeDecreases(cfg: Config, s: State, e: Entry<Message>)
    requires Enabled(cfg, s, Take(e))
    ensures Measure(Apply(cfg, s, Take(e))) < Measure(s)
  {
    assert |s.pq - multiset{e}| == |s.pq| - 1;
    OneMoreMessage(Weight(s), |s.pq| - 1);
  }

  lemma DispatchPays(s: State)
    requires !s.dispatcher.Asleep? && !s.dispatcher.Taking?
    ensures var t, n := ApplyDispatch(s), |s.subscribers|;
            && |t.subscribers| == n && t.pq == s.pq && t.publications == s.publications
            && DispatchRank(t.dispatcher, n) < DispatchRank(s.dispatcher, n)
  {}

  lemma StepDecreases(cfg: Config, s: State, c: Choice)
    requires Enabled(cfg, s, c) && Own(c)
    ensures Measure(Apply(cfg, s, c)) < Measure(s)
  {
    match c
    case Push(i, now) => PushDecreases(cfg, s, i, now);
    case Dispatch => DispatchPays(s);
    case Take(e) => TakeDecreases(cfg, s, e);
  }

  /** The messages under way have a period if the strategy needs one. */
  ghost predicate Publishable(cfg: Config, s: State) {
    cfg.strategy.FIFO? || forall i :: 0 <= i < |s.publications| ==> HasPeriod(cfg, s.publications[i].message.topic)
  }

  lemma StepKeepsPublishable(cfg: Config, s: State, c: Choice)
    requires Publishable(cfg, s) && Enabled(cfg, s, c)
    ensures Publishable(cfg, Apply(cfg, s, c))
  {}

  /** Everybody has nothing left to do. */
  ghost predicate Quiescent(s: State) {
    && (forall i :: 0 <= i < |s.publications| ==> s.publications[i].pc.Returned?)
    && s.dispatcher.Asleep?
    && s.pq == multiset{}
  }

  /** As long as something is left to do, some thread can make a step. */
  lemma SomebodyCanStep(cfg: Config, s: State) returns (c: Choice)
    requires Inv(cfg, s) && Publishable(cfg, s) && !Quiescent(s)
    ensures Own(c) && Enabled(cfg, s, c)
  {
    if s.holder.Publisher? {
      c := Push(s.holder.i, 0);
      assert InSection(s.publications[s.holder.i].pc);
    } else if i: nat :| i < |s.publications| && !s.publications[i].pc.Returned? && s.holder.Nobody? {
      c := Push(i, 0);
      assert !InSection(s.publications[i].pc);
    } else if s.dispatcher.Taking? {
      var e := HasLeast(s.pq);
      c := Take(e);
    } else {
      c := Dispatch;
      assert s.holder.Nobody? ==> forall i: nat :: i < |s.publications| ==> s.publications[i].pc.Returned?;
    }
  }

  lemma {:induction false} RunDecreases(cfg: Config, s: State, choices: seq<Choice>, t: State)
    requires Inv(cfg, s) && Publishable(cfg, s) && RunFrom(cfg, s, choices) == Some(t)
    requires forall k :: 0 <= k < |choices| ==> Own(choices[k])
    ensures Inv(cfg, t) && Publishable(cfg, t) && |choices| + Measure(t) <= Measure(s)
    decreases |choices|
  {
    if choices != [] {
      var last := |choices| - 1;
      var before := RunFrom(cfg, s, choices[..last]).value;
      RunDecreases(cfg, s, choices[..last], before);
      StepKeepsInv(cfg, before, choices[last]);
      StepKeepsPublishable(cfg, before, choices[last]);
      StepDecreases(cfg, before, choices[last]);
    }
  }

  lemma {:induction false} RunPublishable(cfg: Config, choices: seq<Choice>, s: State)
    requires Reachable(cfg, choices, s)
    ensures Publishable(cfg, s)
    decreases |choices|
  {
    if choices != [] {
      var last := |choices| - 1;
      RunPublishable(cfg, choices[..last], RunFrom(cfg, Init(), choices[..last]).value);
      StepKeepsPublishable(cfg, RunFrom(cfg, Init(), choices[..last]).value, choices[last]);
    }
  }

  /** From any reachable state, every run in which nobody publishes or subscribes has at most
      `Measure` steps, and where it cannot go on all calls have returned, the queue is empty, and
      every subscriber has received all messages of its topic dispatched since it came. */
  lemma EveryRunDrains(cfg: Config, past: seq<Choice>, s: State, choices: seq<Choice>, t: State)
    requires Reachable(cfg, past, s) && RunFrom(cfg, s, choices) == Some(t)
    requires forall k :: 0 <= k < |choices| ==> Own(choices[k])
    ensures |choices| <= Measure(s)
    ensures (forall c: Choice :: Own(c) ==> !Enabled(cfg, t, c)) ==>
              && Quiescent(t) && multiset(Entries(t.pops)) == multiset(t.pushes)
              && forall k :: 0 <= k < |t.subscribers| ==>
                   && t.subscribers[k].since <= |t.pops|
                   && t.subscribers[k].received == Filter(t.pops[t.subscribers[k].since..], t.subscribers[k].topic)
  {
    RunInv(cfg, past, s);
    RunPublishable(cfg, past, s);
    RunDecreases(cfg, s, choices, t);
    if !Quiescent(t) {
      var c := SomebodyCanStep(cfg, t);
    } else {
      forall k: nat | k < |t.subscribers|
        ensures t.subscribers[k].since <= |t.pops|
        ensures t.subscribers[k].received == Filter(t.pops[t.subscribers[k].since..], t.subscribers[k].topic)
      {
        assert StreamOk(t, k);
        assert t.pops[t.subscribers[k].since..|t.pops|] == t.pops[t.subscribers[k].since..];
      }
    }
  }
}
