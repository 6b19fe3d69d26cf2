/** lab2: a server with three priority levels, each with its own mutex, one slot that later
    messages overwrite, and a thread that writes the slot to the subscriber. */
module LevelServer {
  import opened Options

  const LEVELS: nat := 3

  datatype Item = Item(topic: string, data: string)

  /** What became of a message that reached the slot. */
  datatype Fate = Pending | Written | Discarded | Overwritten

  datatype PushPc = Locking | Storing | Raising | Broadcasting | Unlocking | Returned

  /** `at` is the place of the message among those stored, once it is stored. */
  datatype Publication = Publication(item: Item, pc: PushPc, at: nat)

  datatype WorkerPc = ToLock | Testing | Asleep | Woken | Deciding | Writing | Clearing | Leaving

  datatype Holder = Nobody | Worker | Publisher(i: nat)

  /** One level.  `stored`, `fates` and `written` (places in `stored`) only record the run. */
  datatype Level = Level(holder: Holder, slot: Item, hasData: bool, writer: bool, worker: WorkerPc,
                         publications: seq<Publication>, delivered: seq<Item>,
                         stored: seq<Item>, fates: seq<Fate>, written: seq<nat>)

  /** What can happen to one level. */
  datatype Step =
    | Publish(item: Item)
    | Push(i: nat)
    | Work
    | Spurious
    | Subscribe

  const QUIET := Level(Nobody, Item("", ""), false, false, ToLock, [], [], [], [], [])

  predicate LevelEnabled(l: Level, c: Step) {
    match c
    case Publish(_) => true
    case Push(i) =>
      && i < |l.publications|
      && !l.publications[i].pc.Returned?
      && (l.publications[i].pc.Locking? ==> l.holder.Nobody?)
    case Work => !l.worker.Asleep? && (l.worker.ToLock? || l.worker.Woken? ==> l.holder.Nobody?)
    case Spurious => l.worker.Asleep?
    case Subscribe => true
  }

  function Moved(l: Level, i: nat, pc: PushPc): seq<Publication>
    requires i < |l.publications|
  {
    l.publications[i := l.publications[i].(pc := pc)]
  }

  function Last(fates: seq<Fate>): Fate {
    if fates == [] then Pending else fates[|fates| - 1]
  }

  predicate LastIsPending(l: Level) {
    l.fates != [] && l.fates[|l.fates| - 1].Pending?
  }

  /** The fate of the message stored last. */
  function Decide(fates: seq<Fate>, fate: Fate): seq<Fate> {
    if fates == [] then [] else fates[|fates| - 1 := fate]
  }

  function ApplyPush(l: Level, i: nat): Level
    requires i < |l.publications|
  {
    var p := l.publications[i];
    match p.pc
    case Locking => l.(holder := Publisher(i), publications := Moved(l, i, Storing))
    case Storing =>
      l.(slot := p.item,
         stored := l.stored + [p.item],
         fates := Decide(l.fates, if LastIsPending(l) then Overwritten else Last(l.fates)) + [Pending],
         publications := l.publications[i := Publication(p.item, Raising, |l.stored|)])
    case Raising => l.(hasData := true, publications := Moved(l, i, Broadcasting))
    case Broadcasting =>
      l.(worker := if l.worker.Asleep? then Woken else l.worker, publications := Moved(l, i, Unlocking))
    case Unlocking => l.(holder := Nobody, publications := Moved(l, i, Returned))
    case Returned => l
  }

  function ApplyWork(l: Level): Level {
    match l.worker
    case ToLock | Woken => l.(holder := Worker, worker := Testing)
    case Testing => if !l.hasData then l.(holder := Nobody, worker := Asleep) else l.(worker := Deciding)
    case Deciding =>
      if l.writer then l.(worker := Writing) else l.(fates := Decide(l.fates, Discarded), worker := Clearing)
    case Writing =>
      l.(delivered := l.delivered + [l.slot],
         fates := Decide(l.fates, Written),
         written := l.written + if |l.stored| > 0 then [|l.stored| - 1] else [],
         worker := Clearing)
    case Clearing => l.(hasData := false, worker := Leaving)
    case Leaving => l.(holder := Nobody, worker := ToLock)
    case Asleep => l
  }

  function ApplyLevel(l: Level, c: Step): Level
    requires c.Push? ==> c.i < |l.publications|
  {
    match c
    case Publish(item) => l.(publications := l.publications + [Publication(item, Locking, 0)])
    case Push(i) => ApplyPush(l, i)
    case Work => ApplyWork(l)
    case Spurious => l.(worker := Woken)
    case Subscribe => l.(writer := true)
  }

  // ---------- The server ----------

  datatype Choice = On(level: nat, step: Step)

  function LevelOf(topic: string): Option<nat> {
    if topic == "High" then Some(0) else if topic == "Middle" then Some(1) else if topic == "Low" then Some(2) else None
  }

  /** A message with an unidentified topic reaches no level. */
  predicate Enabled(s: seq<Level>, c: Choice) {
    && c.level < |s|
    && LevelEnabled(s[c.level], c.step)
    && (c.step.Publish? ==> LevelOf(c.step.item.topic) == Some(c.level))
  }

  function Init(): seq<Level> {
    [QUIET, QUIET, QUIET]
  }

  function Run(choices: seq<Choice>): (r: Option<seq<Level>>) {
    if choices == [] then Some(Init())
    else
      var last := |choices| - 1;
      var before := Run(choices[..last]);
      if before.Some? && Enabled(before.value, choices[last]) then
        var c := choices[last];
        Some(before.value[c.level := ApplyLevel(before.value[c.level], c.step)])
      else None
  }

  predicate Reachable(choices: seq<Choice>, s: seq<Level>) {
    Run(choices) == Some(s)
  }

  // ---------- Mutual exclusion ----------

  predicate InSection(pc: PushPc) {
    !pc.Locking? && !pc.Returned?
  }

  predicate WorkerHolds(w: WorkerPc) {
    w.Testing? || w.Deciding? || w.Writing? || w.Clearing? || w.Leaving?
  }

  ghost predicate Exclusive(l: Level) {
    && (l.holder.Worker? <==> WorkerHolds(l.worker))
    && (forall i: nat :: i < |l.publications| ==> (InSection(l.publications[i].pc) <==> l.holder == Publisher(i)))
    && (l.holder.Publisher? ==> l.holder.i < |l.publications|)
  }

  lemma StepKeepsExclusive(l: Level, c: Step)
    requires Exclusive(l) && LevelEnabled(l, c)
    ensures Exclusive(ApplyLevel(l, c))
  {
    if c.Push? { assert InSection(l.publications[c.i].pc) <==> l.holder == Publisher(c.i); }
  }

  // ---------- The slot ----------

  /** The publisher in the critical section is at this point. */
  predicate PublisherAt(l: Level, pc: PushPc) {
    l.holder.Publisher? && l.holder.i < |l.publications| && l.publications[l.holder.i].pc == pc
  }

  /** The slot holds the message stored last, and only that one can be pending: it is exactly
      while the flag is up, but for the moments next to the changes of the flag. */
  ghost predicate SlotTells(l: Level) {
    && |l.fates| == |l.stored|
    && (forall i :: 0 <= i < |l.fates| - 1 ==> !l.fates[i].Pending?)
    && (l.stored != [] ==> l.slot == l.stored[|l.stored| - 1])
    && (l.stored != [] ==> !Last(l.fates).Overwritten?)
    && (PublisherAt(l, Raising) ==> l.publications[l.holder.i].at == |l.stored| - 1)
    && (l.hasData ==> l.stored != [])
    && (LastIsPending(l) <==> (l.hasData && !l.worker.Clearing?) || PublisherAt(l, Raising))
    && (l.worker.Deciding? || l.worker.Writing? || l.worker.Clearing? ==> l.hasData)
    && (l.worker.Asleep? && l.hasData ==> PublisherAt(l, Broadcasting))
  }

  lemma PushKeepsSlot(l: Level, i: nat)
    requires Exclusive(l) && SlotTells(l) && LevelEnabled(l, Push(i))
    ensures SlotTells(ApplyPush(l, i))
  {
    assert InSection(l.publications[i].pc) <==> l.holder == Publisher(i);
  }

  lemma StepKeepsSlot(l: Level, c: Step)
    requires Exclusive(l) && SlotTells(l) && LevelEnabled(l, c)
    ensures SlotTells(ApplyLevel(l, c))
  {
    if c.Push? { PushKeepsSlot(l, c.i); }
  }

  // ---------- What was written ----------

  predicate Increasing(s: seq<nat>) {
    forall i, k :: 0 <= i < k < |s| ==> s[i] < s[k]
  }

  /** The messages delivered are those stored at the places written, in that order. */
  ghost predicate WrittenOk(l: Level) {
    && |l.written| == |l.delivered| && |l.fates| == |l.stored|
    && Increasing(l.written)
    && (forall k :: 0 <= k < |l.written| ==> l.written[k] < |l.stored| && l.delivered[k] == l.stored[l.written[k]])
    && (forall i :: 0 <= i < |l.fates| ==> (l.fates[i].Written? <==> i in l.written))
  }

  /** The record of one more message stored, and the fate of the one before. */
  lemma StoreKeepsWritten(l: Level, t: Level, item: Item, fate: Fate)
    requires WrittenOk(l) && t.written == l.written && t.delivered == l.delivered
    requires t.stored == l.stored + [item] && t.fates == Decide(l.fates, fate) + [Pending]
    requires l.fates != [] ==> (fate.Written? <==> Last(l.fates).Written?)
    ensures WrittenOk(t)
  {}

  lemma PushKeepsWritten(l: Level, i: nat)
    requires WrittenOk(l) && LevelEnabled(l, Push(i))
    ensures WrittenOk(ApplyPush(l, i))
  {
    if l.publications[i].pc.Storing? {
      StoreKeepsWritten(l, ApplyPush(l, i), l.publications[i].item,
                        if LastIsPending(l) then Overwritten else Last(l.fates));
    }
  }

  lemma WriteKeepsWritten(l: Level)
    requires SlotTells(l) && WrittenOk(l) && l.worker.Writing?
    ensures WrittenOk(ApplyWork(l))
  {
    var t, last := ApplyWork(l), |l.stored| - 1;
    assert l.fates[last].Pending? && last !in l.written;
    assert t.written == l.written + [last];
    forall k | 0 <= k < |l.written| ensures l.written[k] < last { assert l.written[k] in l.written; }
    forall i | 0 <= i < |t.fates| ensures t.fates[i].Written? <==> i in t.written {
      assert i != last ==> (l.fates[i].Written? <==> i in l.written);
    }
  }

  lemma DiscardKeepsWritten(l: Level)
    requires SlotTells(l) && WrittenOk(l) && l.worker.Deciding? && !l.writer
    ensures WrittenOk(ApplyWork(l))
  {}

  lemma OtherWorkKeepsRecord(l: Level)
    requires !l.worker.Writing? && !(l.worker.Deciding? && !l.writer)
    ensures var t := ApplyWork(l);
            t.stored == l.stored && t.fates == l.fates && t.written == l.written && t.delivered == l.delivered
  {}

  lemma WorkKeepsWritten(l: Level)
    requires SlotTells(l) && WrittenOk(l)
    ensures WrittenOk(ApplyWork(l))
  {
    if l.worker.Writing? {
      WriteKeepsWritten(l);
    } else if l.worker.Deciding? && !l.writer {
      DiscardKeepsWritten(l);
    } else {
      OtherWorkKeepsRecord(l);
    }
  }

  // ---------- What became of each publication ----------

  predicate IsStored(pc: PushPc) {
    !pc.Locking? && !pc.Storing?
  }

  predicate PlaceOk(l: Level, i: nat)
    requires i < |l.publications|
  {
    var p := l.publications[i];
    IsStored(p.pc) ==> p.at < |l.stored| && l.stored[p.at] == p.item
  }

  /** Each message that got past its store has a place of its own. */
  ghost predicate PlacesOk(l: Level) {
    && (forall i: nat :: i < |l.publications| ==> PlaceOk(l, i))
    && (forall i: nat, k: nat ::
          i < k < |l.publications| && IsStored(l.publications[i].pc) && IsStored(l.publications[k].pc) ==>
            l.publications[i].at != l.publications[k].at)
  }

  lemma StoreKeepsPlaces(l: Level, i: nat)
    requires PlacesOk(l) && i < |l.publications| && l.publications[i].pc.Storing?
    ensures PlacesOk(ApplyPush(l, i))
  {
    var t := ApplyPush(l, i);
    forall j: nat | j < |t.publications| ensures PlaceOk(t, j) { assert PlaceOk(l, j); }
    forall j: nat, k: nat | j < k < |t.publications| && IsStored(t.publications[j].pc) && IsStored(t.publications[k].pc)
      ensures t.publications[j].at != t.publications[k].at
    {
      assert PlaceOk(l, j) && PlaceOk(l, k);
    }
  }

  /** Any other step leaves places alone. */
  lemma SamePlaces(l: Level, t: Level)
    requires PlacesOk(l) && t.stored == l.stored && |l.publications| <= |t.publications|
    requires forall j :: 0 <= j < |t.publications| && IsStored(t.publications[j].pc) ==>
               j < |l.publications| && IsStored(l.publications[j].pc)
               && t.publications[j].at == l.publications[j].at && t.publications[j].item == l.publications[j].item
    ensures PlacesOk(t)
  {
    forall j: nat | j < |t.publications| ensures PlaceOk(t, j) {
      if IsStored(t.publications[j].pc) { assert PlaceOk(l, j); }
    }
  }

  lemma StepKeepsPlaces(l: Level, c: Step)
    requires PlacesOk(l) && LevelEnabled(l, c)
    ensures PlacesOk(ApplyLevel(l, c))
  {
    if c.Push? && l.publications[c.i].pc.Storing? {
      StoreKeepsPlaces(l, c.i);
    } else {
      SamePlaces(l, ApplyLevel(l, c));
    }
  }

  ghost predicate OfTopic(l: Level, level: nat) {
    && (forall i :: 0 <= i < |l.publications| ==> LevelOf(l.publications[i].item.topic) == Some(level))
    && (forall i :: 0 <= i < |l.stored| ==> LevelOf(l.stored[i].topic) == Some(level))
  }

  ghost predicate LevelInv(l: Level, level: nat) {
    Exclusive(l) && SlotTells(l) && WrittenOk(l) && PlacesOk(l) && OfTopic(l, level)
  }

  lemma StepKeepsTopic(l: Level, c: Step, level: nat)
    requires OfTopic(l, level) && LevelEnabled(l, c) && (c.Publish? ==> LevelOf(c.item.topic) == Some(level))
    ensures OfTopic(ApplyLevel(l, c), level)
  {}

  lemma StepKeepsWritten(l: Level, c: Step)
    requires SlotTells(l) && WrittenOk(l) && LevelEnabled(l, c)
    ensures WrittenOk(ApplyLevel(l, c))
  {
    if c.Push? { PushKeepsWritten(l, c.i); }
    if c.Work? { WorkKeepsWritten(l); }
  }

  lemma StepKeepsLevel(l: Level, c: Step, level: nat)
    requires LevelInv(l, level) && LevelEnabled(l, c) && (c.Publish? ==> LevelOf(c.item.topic) == Some(level))
    ensures LevelInv(ApplyLevel(l, c), level)
  {
    StepKeepsExclusive(l, c);
    StepKeepsSlot(l, c);
    StepKeepsWritten(l, c);
    StepKeepsPlaces(l, c);
    StepKeepsTopic(l, c, level);
  }

  lemma {:induction false} RunInv(choices: seq<Choice>, s: seq<Level>)
    requires Reachable(choices, s)
    ensures |s| == LEVELS && forall k :: 0 <= k < LEVELS ==> LevelInv(s[k], k)
    decreases |choices|
  {
    if choices != [] {
      var last := |choices| - 1;
      var before := Run(choices[..last]).value;
      RunInv(choices[..last], before);
      var c := choices[last];
      StepKeepsLevel(before[c.level], c.step, c.level);
    }
  }

  // ---------- Subscribers ----------

  /** Nothing is written before a subscriber has come. */
  predicate WriterFirst(l: Level) {
    (l.worker.Writing? || l.written != []) ==> l.writer
  }

  lemma StepKeepsWriter(l: Level, c: Step)
    requires WriterFirst(l) && LevelEnabled(l, c)
    ensures WriterFirst(ApplyLevel(l, c)) && (l.writer ==> ApplyLevel(l, c).writer)
  {}

  predicate IsDiscarded(l: Level, i: nat) {
    i < |l.fates| && l.fates[i].Discarded?
  }

  /** The only step that discards a message: the thread decides on it and finds no subscriber. */
  predicate Discards(l: Level, c: Step, i: nat) {
    c.Work? && l.worker.Deciding? && !l.writer && i == |l.stored| - 1
  }

  lemma StepDiscards(l: Level, c: Step, i: nat)
    requires |l.fates| == |l.stored| && LevelEnabled(l, c)
    requires IsDiscarded(ApplyLevel(l, c), i) && !IsDiscarded(l, i)
    ensures Discards(l, c, i)
  {}

  predicate DiscardedAt(choices: seq<Choice>, n: nat, k: nat, i: nat) {
    && n < |choices| && choices[n].level == k
    && var before := Run(choices[..n]);
       before.Some? && k < |before.value| && Discards(before.value[k], choices[n].step, i)
  }

  /** A discarded message was discarded at some step for lack of a subscriber. */
  lemma {:induction false} DiscardedForLack(choices: seq<Choice>, s: seq<Level>, k: nat, i: nat) returns (n: nat)
    requires Reachable(choices, s) && k < |s| && IsDiscarded(s[k], i)
    ensures DiscardedAt(choices, n, k, i)
    decreases |choices|
  {
    assert choices == [] ==> s == Init();
    var last := |choices| - 1;
    var before := Run(choices[..last]).value;
    RunInv(choices[..last], before);
    if IsDiscarded(before[k], i) {
      n := DiscardedForLack(choices[..last], before, k, i);
      assert choices[..last][..n] == choices[..n];
    } else {
      StepDiscards(before[k], choices[last].step, i);
      n := last;
    }
  }

  lemma {:induction false} RunWriter(choices: seq<Choice>, s: seq<Level>, k: nat)
    requires Reachable(choices, s) && k < |s|
    ensures WriterFirst(s[k])
    decreases |choices|
  {
    if choices != [] {
      var last := |choices| - 1;
      var before := Run(choices[..last]).value;
      RunWriter(choices[..last], before, k);
      if choices[last].level == k { StepKeepsWriter(before[k], choices[last].step); }
    }
  }

  /** Once a level has a subscriber, no message is discarded that was not discarded before. */
  lemma {:induction false} NoDiscardOnceSubscribed(choices: seq<Choice>, n: nat, s: seq<Level>, t: seq<Level>,
                                                   k: nat, i: nat)
    requires n <= |choices| && Reachable(choices[..n], s) && Reachable(choices, t) && k < |s|
    requires s[k].writer && !IsDiscarded(s[k], i)
    ensures k < |t| && t[k].writer && !IsDiscarded(t[k], i)
    decreases |choices|
  {
    if n == |choices| {
      assert choices[..n] == choices;
    } else {
      var last := |choices| - 1;
      var before := Run(choices[..last]).value;
      assert choices[..last][..n] == choices[..n];
      NoDiscardOnceSubscribed(choices[..last], n, s, before, k, i);
      RunInv(choices[..last], before);
      RunWriter(choices[..last], before, k);
      if choices[last].level == k {
        StepKeepsWriter(before[k], choices[last].step);
        if IsDiscarded(t[k], i) { StepDiscards(before[k], choices[last].step, i); }
      }
    }
  }

  // ---------- From the arguments of the calls to the records ----------

  /** The messages that were published to this level, read off the choices. */
  function Published(choices: seq<Choice>, k: nat): seq<Item> {
    if choices == [] then []
    else
      var before, c := Published(choices[..|choices| - 1], k), choices[|choices| - 1];
      if c.level == k && c.step.Publish? then before + [c.step.item] else before
  }

  predicate Subscribed(choices: seq<Choice>, k: nat) {
    exists n :: 0 <= n < |choices| && choices[n] == On(k, Subscribe)
  }

  lemma StepKeepsItems(l: Level, c: Step)
    requires LevelEnabled(l, c) && !c.Publish?
    ensures |ApplyLevel(l, c).publications| == |l.publications|
    ensures forall i :: 0 <= i < |l.publications| ==> ApplyLevel(l, c).publications[i].item == l.publications[i].item
    ensures ApplyLevel(l, c).writer <==> l.writer || c.Subscribe?
  {}

  lemma SubscribedLast(choices: seq<Choice>, k: nat)
    requires choices != []
    ensures Subscribed(choices, k) <==>
              Subscribed(choices[..|choices| - 1], k) || choices[|choices| - 1] == On(k, Subscribe)
  {
    var last := |choices| - 1;
    if Subscribed(choices, k) {
      var n :| 0 <= n < |choices| && choices[n] == On(k, Subscribe);
      assert n < last ==> choices[..last][n] == choices[n];
    }
  }

  /** Each level has the messages published to it, in that order, and it has a subscriber if and
      only if one has subscribed. */
  lemma {:induction false} CallsAreRecorded(choices: seq<Choice>, s: seq<Level>, k: nat)
    requires Reachable(choices, s) && k < LEVELS
    ensures |s| == LEVELS && |s[k].publications| == |Published(choices, k)|
    ensures forall i :: 0 <= i < |s[k].publications| ==> s[k].publications[i].item == Published(choices, k)[i]
    ensures s[k].writer <==> Subscribed(choices, k)
    decreases |choices|
  {
    if choices != [] {
      var last := |choices| - 1;
      var before, c := Run(choices[..last]).value, choices[last];
      CallsAreRecorded(choices[..last], before, k);
      SubscribedLast(choices, k);
      if c.level == k && !c.step.Publish? { StepKeepsItems(before[k], c.step); }
    }
  }

  lemma TopicOfLevel(topic: string, k: nat)
    requires k < 3
    ensures LevelOf(topic) == Some(k) <==> topic == ["High", "Middle", "Low"][k]
  {
    assert |"High"| == 4 && |"Middle"| == 6 && |"Low"| == 3;
  }

  /** A message goes to the level of its topic, at any time, and to no other. */
  lemma TopicsByLevel(choices: seq<Choice>, s: seq<Level>, item: Item, k: nat)
    requires Reachable(choices, s)
    ensures Enabled(s, On(k, Publish(item))) <==> k < 3 && item.topic == ["High", "Middle", "Low"][k]
  {
    RunInv(choices, s);
    if k < 3 { TopicOfLevel(item.topic, k); }
  }

  // ---------- Every run comes to rest ----------

  /** Steps of the threads themselves: nobody publishes or subscribes, no spurious wakeup. */
  predicate Own(c: Choice) {
    c.step.Push? || c.step.Work?
  }

  function PushRank(pc: PushPc): nat {
    match pc
    case Locking => 19
    case Storing => 18
    case Raising => 17
    case Broadcasting => 6
    case Unlocking => 1
    case Returned => 0
  }

  function WorkerRank(w: WorkerPc): nat {
    match w
    case Asleep | Clearing => 0
    case Writing => 1
    case Deciding => 2
    case Testing => 3
    case ToLock | Woken => 4
    case Leaving => 5
  }

  function PublicationsRank(publications: seq<Publication>): nat {
    if publications == [] then 0
    else PublicationsRank(publications[..|publications| - 1]) + PushRank(publications[|publications| - 1].pc)
  }

  /** A raised flag stands for one more round of the thread. */
  function LevelMeasure(l: Level): nat {
    PublicationsRank(l.publications) + WorkerRank(l.worker) + if l.hasData then 10 else 0
  }

  /** An upper bound on the number of steps the threads can still make. */
  function Measure(s: seq<Level>): nat {
    if s == [] then 0 else Measure(s[..|s| - 1]) + LevelMeasure(s[|s| - 1])
  }

  lemma {:induction false} RankOfUpdate(publications: seq<Publication>, i: nat, p: Publication)
    requires i < |publications|
    ensures PublicationsRank(publications[i := p])
            == PublicationsRank(publications) - PushRank(publications[i].pc) + PushRank(p.pc)
  {
    var last := |publications| - 1;
    if i == last {
      assert publications[i := p][..last] == publications[..last];
    } else {
      RankOfUpdate(publications[..last], i, p);
      assert publications[i := p][..last] == publications[..last][i := p];
    }
  }

  lemma {:induction false} MeasureOfUpdate(s: seq<Level>, k: nat, l: Level)
    requires k < |s|
    ensures Measure(s[k := l]) == Measure(s) - LevelMeasure(s[k]) + LevelMeasure(l)
  {
    var last := |s| - 1;
    if k == last {
      assert s[k := l][..last] == s[..last];
    } else {
      MeasureOfUpdate(s[..last], k, l);
      assert s[k := l][..last] == s[..last][k := l];
    }
  }

  lemma PushDecreases(l: Level, i: nat)
    requires LevelEnabled(l, Push(i))
    ensures LevelMeasure(ApplyPush(l, i)) < LevelMeasure(l)
  {
    RankOfUpdate(l.publications, i, ApplyPush(l, i).publications[i]);
  }

  lemma WorkDecreases(l: Level)
    requires SlotTells(l) && LevelEnabled(l, Work)
    ensures LevelMeasure(ApplyWork(l)) < LevelMeasure(l)
  {}

  lemma LevelDecreases(l: Level, c: Step)
    requires SlotTells(l) && LevelEnabled(l, c) && (c.Push? || c.Work?)
    ensures LevelMeasure(ApplyLevel(l, c)) < LevelMeasure(l)
  {
    if c.Push? { PushDecreases(l, c.i); } else { WorkDecreases(l); }
  }

  /** The threads of a level have nothing left to do. */
  predicate LevelRests(l: Level) {
    && (forall i :: 0 <= i < |l.publications| ==> l.publications[i].pc.Returned?)
    && l.worker.Asleep? && !l.hasData
  }

  /** As long as something is left to do on a level, one of its threads can make a step. */
  lemma SomebodyCanStep(l: Level) returns (c: Step)
    requires Exclusive(l) && SlotTells(l) && !LevelRests(l)
    ensures (c.Push? || c.Work?) && LevelEnabled(l, c)
  {
    if l.holder.Publisher? {
      c := Push(l.holder.i);
      assert InSection(l.publications[l.holder.i].pc);
    } else if i: nat :| i < |l.publications| && !l.publications[i].pc.Returned? && l.holder.Nobody? {
      c := Push(i);
      assert !InSection(l.publications[i].pc);
    } else {
      c := Work;
      assert l.holder.Nobody? ==> forall i: nat :: i < |l.publications| ==> l.publications[i].pc.Returned?;
    }
  }

  lemma {:induction false} RunDecreases(choices: seq<Choice>, n: nat, s: seq<Level>, t: seq<Level>)
    requires n <= |choices| && Reachable(choices[..n], s) && Reachable(choices, t)
    requires forall i :: n <= i < |choices| ==> Own(choices[i])
    ensures |choices| - n + Measure(t) <= Measure(s)
    decreases |choices|
  {
    if n == |choices| {
      assert choices[..n] == choices;
    } else {
      var last := |choices| - 1;
      var before, c := Run(choices[..last]).value, choices[last];
      assert choices[..last][..n] == choices[..n];
      RunDecreases(choices[..last], n, s, before);
      RunInv(choices[..last], before);
      LevelDecreases(before[c.level], c.step);
      MeasureOfUpdate(before, c.level, ApplyLevel(before[c.level], c.step));
    }
  }

  lemma LevelCanGoOn(t: seq<Level>, k: nat) returns (c: Choice)
    requires k < |t| && LevelInv(t[k], k) && !LevelRests(t[k])
    ensures Own(c) && Enabled(t, c)
  {
    var step := SomebodyCanStep(t[k]);
    c := On(k, step);
  }

  lemma StuckLevelRests(t: seq<Level>, k: nat)
    requires k < |t| && LevelInv(t[k], k) && k < LEVELS
    requires forall c: Choice :: Own(c) ==> !Enabled(t, c)
    ensures LevelRests(t[k]) && |t[k].fates| == |t[k].stored|
    ensures forall i :: 0 <= i < |t[k].fates| ==> !t[k].fates[i].Pending?
    ensures t[k].fates != [] ==> !t[k].fates[|t[k].fates| - 1].Overwritten?
  {
    if !LevelRests(t[k]) { var c := LevelCanGoOn(t, k); }
  }

  /** Once nobody publishes or subscribes any more, a run has at most `Measure` steps left, and where
      it cannot go on, every thread sleeps, every flag is down, and on each level every message
      stored was written, discarded or overwritten, the last one not overwritten. */
  lemma EveryRunRests(choices: seq<Choice>, n: nat, s: seq<Level>, t: seq<Level>)
    requires n <= |choices| && Reachable(choices[..n], s) && Reachable(choices, t)
    requires forall i :: n <= i < |choices| ==> Own(choices[i])
    ensures |choices| - n <= Measure(s)
    ensures (forall c: Choice :: Own(c) ==> !Enabled(t, c)) ==>
              forall k :: 0 <= k < |t| ==>
                && LevelRests(t[k]) && |t[k].fates| == |t[k].stored|
                && (forall i :: 0 <= i < |t[k].fates| ==> !t[k].fates[i].Pending?)
                && (t[k].fates != [] ==> !t[k].fates[|t[k].fates| - 1].Overwritten?)
  {
    RunDecreases(choices, n, s, t);
    RunInv(choices, t);
    if forall c: Choice :: Own(c) ==> !Enabled(t, c) {
      forall k: nat | k < |t|
        ensures LevelRests(t[k]) && |t[k].fates| == |t[k].stored|
        ensures forall i :: 0 <= i < |t[k].fates| ==> !t[k].fates[i].Pending?
        ensures t[k].fates != [] ==> !t[k].fates[|t[k].fates| - 1].Overwritten?
      {
        StuckLevelRests(t, k);
      }
    }
  }

  // ---------- What every run keeps ----------

  /** On every level, what was written is what was stored at increasing places: a subsequence in
      the same order without duplicates, and all of the topic of the level. */
  lemma WrittenInOrder(choices: seq<Choice>, s: seq<Level>, k: nat)
    requires Reachable(choices, s) && k < LEVELS
    ensures |s| == LEVELS
    ensures var l := s[k];
            && |l.delivered| == |l.written| && Increasing(l.written)
            && forall n :: 0 <= n < |l.delivered| ==>
                 && l.written[n] < |l.stored|
                 && l.delivered[n] == l.stored[l.written[n]]
                 && l.delivered[n].topic == ["High", "Middle", "Low"][k]
  {
    RunInv(choices, s);
    forall n | 0 <= n < |s[k].delivered| ensures s[k].delivered[n].topic == ["High", "Middle", "Low"][k] {
      TopicOfLevel(s[k].delivered[n].topic, k);
    }
  }

  /** Every message whose Publish went on has a place of its own among those stored, and there
      it was written to a subscriber, or discarded at a step at which there was none, or
      overwritten by a later one, or it is still in the slot with the flag up. */
  lemma EveryMessageAccounted(choices: seq<Choice>, s: seq<Level>, k: nat, i: nat)
    requires Reachable(choices, s) && k < LEVELS
    ensures |s| == LEVELS
    ensures var l := s[k];
            i < |l.publications| && l.publications[i].pc.Returned? ==>
              var p := l.publications[i];
              && p.at < |l.stored| == |l.fates| && l.stored[p.at] == p.item
              && (forall j :: 0 <= j < |l.publications| && j != i && l.publications[j].pc.Returned? ==>
                    l.publications[j].at != p.at)
              && (match l.fates[p.at]
                  case Written => p.at in l.written && l.writer
                  case Discarded => exists n :: DiscardedAt(choices, n, k, p.at)
                  case Overwritten => p.at < |l.stored| - 1
                  case Pending => p.at == |l.stored| - 1 && l.slot == p.item && l.hasData)
              && (p.at in l.written ==> l.fates[p.at].Written?)
  {
    RunInv(choices, s);
    RunWriter(choices, s, k);
    var l := s[k];
    if i < |l.publications| && l.publications[i].pc.Returned? {
      assert PlaceOk(l, i);
      if IsDiscarded(l, l.publications[i].at) {
        var n := DiscardedForLack(choices, s, k, l.publications[i].at);
      }
    }
  }

  /** Whenever the mutex of a level is free and its flag is up, the thread of the level is awake
      or will be signalled before the mutex is free again. */
  lemma NoSleepOnData(choices: seq<Choice>, s: seq<Level>, k: nat)
    requires Reachable(choices, s) && k < LEVELS
    ensures |s| == LEVELS
    ensures s[k].holder.Nobody? && s[k].hasData ==> !s[k].worker.Asleep?
  {
    RunInv(choices, s);
  }

  /** A spurious wakeup can come whenever the thread of a level sleeps, and if there is nothing to do
      it has no effect: the thread tests again and goes back to sleep. */
  lemma SpuriousIsHarmless(choices: seq<Choice>, s: seq<Level>, k: nat)
    requires Reachable(choices, s) && k < |s| && s[k].worker.Asleep? && s[k].holder.Nobody?
    ensures LevelEnabled(s[k], Spurious)
    ensures var woken := ApplyLevel(s[k], Spurious);
            && LevelEnabled(woken, Work) && LevelEnabled(ApplyLevel(woken, Work), Work)
            && ApplyLevel(ApplyLevel(woken, Work), Work) == s[k]
  {
    RunInv(choices, s);
  }

  // ---------- Independence ----------

  function Only(choices: seq<Choice>, k: nat): seq<Choice> {
    if choices == [] then []
    else
      var rest, c := Only(choices[..|choices| - 1], k), choices[|choices| - 1];
      if c.level == k then rest + [c] else rest
  }

  /** Levels never affect each other: what a level does in a run it also does when the steps of
      the other levels are left out. */
  lemma {:induction false} LevelsAreIndependent(choices: seq<Choice>, s: seq<Level>, k: nat)
    requires Reachable(choices, s) && k < LEVELS
    ensures |s| == LEVELS
    ensures Run(Only(choices, k)).Some? && |Run(Only(choices, k)).value| == LEVELS
    ensures Run(Only(choices, k)).value[k] == s[k]
    decreases |choices|
  {
    if choices != [] {
      var last := |choices| - 1;
      var before := Run(choices[..last]).value;
      LevelsAreIndependent(choices[..last], before, k);
      var own := Only(choices[..last], k);
      assert (own + [choices[last]])[..|own|] == own;
    }
  }
}
