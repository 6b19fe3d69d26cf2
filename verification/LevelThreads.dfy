/** One level of the lab2 server, updated in place by its publishers and its thread; each method
    is one atomic step unless it says otherwise. */
module LevelThreads {
  import opened Options
  import opened LevelServer

  /** What one level does on its own. */
  function RunLevel(index: nat, steps: seq<Step>): Option<Level> {
    if steps == [] then Some(QUIET)
    else
      var last := |steps| - 1;
      var before, c := RunLevel(index, steps[..last]), steps[last];
      if before.Some? && LevelEnabled(before.value, c) && (c.Publish? ==> LevelOf(c.item.topic) == Some(index))
      then Some(ApplyLevel(before.value, c)) else None
  }

  lemma {:induction false} RunLevelInv(index: nat, steps: seq<Step>)
    requires RunLevel(index, steps).Some?
    ensures LevelInv(RunLevel(index, steps).value, index)
    decreases |steps|
  {
    if steps != [] {
      var last := |steps| - 1;
      RunLevelInv(index, steps[..last]);
      StepKeepsLevel(RunLevel(index, steps[..last]).value, steps[last], index);
    }
  }

  lemma Extend(index: nat, past: seq<Step>, before: Level, c: Step)
    requires RunLevel(index, past) == Some(before) && LevelEnabled(before, c)
    requires c.Publish? ==> LevelOf(c.item.topic) == Some(index)
    ensures RunLevel(index, past + [c]) == Some(ApplyLevel(before, c))
  {}

  class PriorityLevel {
    const index: nat
    var holder: Holder
    var slot: Item
    var hasData: bool
    var writer: bool
    var worker: WorkerPc
    var publications: seq<Publication>
    var delivered: seq<Item>
    var count: nat  // of the messages stored
    ghost var stored: seq<Item>
    ghost var fates: seq<Fate>
    ghost var written: seq<nat>
    ghost var history: seq<Step>

    ghost function View(): Level
      reads this
    {
      Level(holder, slot, hasData, writer, worker, publications, delivered, stored, fates, written)
    }

    ghost predicate Valid()
      reads this
    {
      count == |stored| && RunLevel(index, history) == Some(View())
    }

    constructor (index: nat)
      ensures Valid() && this.index == index && View() == QUIET
    {
      this.index := index;
      holder, slot, hasData, writer, worker := Nobody, Item("", ""), false, false, ToLock;
      publications, delivered, count := [], [], 0;
      stored, fates, written, history := [], [], [], [];
    }

    /** Publish has read a message of this level. */
    method Publish(td: Item)
      requires Valid() && LevelOf(td.topic) == Some(index)
      modifies this
      ensures Valid() && View() == ApplyLevel(old(View()), Step.Publish(td))
    {
      Extend(index, history, View(), Step.Publish(td));
      publications := publications + [Publication(td, Locking, 0)];
      history := history + [Step.Publish(td)];
    }

    function MovedTo(i: nat, pc: PushPc): seq<Publication>
      reads this
      requires i < |publications|
    {
      publications[i := publications[i].(pc := pc)]
    }

    /** Publish stores its message over whatever is in the slot. */
    method Store(i: nat)
      requires Valid() && i < |publications| && publications[i].pc.Storing?
      modifies this
      ensures Valid() && View() == ApplyLevel(old(View()), Push(i))
    {
      ghost var before, past := View(), history;
      fates := Decide(fates, if LastIsPending(View()) then Overwritten else Last(fates)) + [Pending];
      stored := stored + [publications[i].item];
      slot := publications[i].item;
      publications := publications[i := Publication(slot, Raising, count)];
      count := count + 1;
      history := history + [Push(i)];
      assert View() == ApplyLevel(before, Push(i));
      Extend(index, past, before, Push(i));
    }

    /** The other steps of Publish: lock, raise the flag, broadcast, unlock. */
    method PushStep(i: nat)
      requires Valid() && LevelEnabled(View(), Push(i)) && !publications[i].pc.Storing?
      modifies this
      ensures Valid() && View() == ApplyLevel(old(View()), Push(i))
    {
      Extend(index, history, View(), Push(i));
      match publications[i].pc {
        case Locking => holder, publications := Publisher(i), MovedTo(i, Storing);
        case Raising => hasData, publications := true, MovedTo(i, Broadcasting);
        case Broadcasting =>
          if worker.Asleep? { worker := Woken; }
          publications := MovedTo(i, Unlocking);
        case Unlocking => holder, publications := Nobody, MovedTo(i, Returned);
      }
      history := history + [Push(i)];
    }

    /** One step of the thread of the level. */
    method WorkerStep()
      requires Valid() && LevelEnabled(View(), Work)
      modifies this
      ensures Valid() && View() == ApplyLevel(old(View()), Work)
    {
      Extend(index, history, View(), Work);
      match worker {
        case ToLock | Woken => holder, worker := Worker, Testing;
        case Testing => if hasData { worker := Deciding; } else { holder, worker := Nobody, Asleep; }
        case Deciding =>
          if writer { worker := Writing; } else { fates, worker := Decide(fates, Discarded), Clearing; }
        case Writing =>
          delivered := delivered + [slot];
          fates, worker := Decide(fates, Written), Clearing;
          written := written + if |stored| > 0 then [|stored| - 1] else [];
        case Clearing => hasData, worker := false, Leaving;
        case Leaving => holder, worker := Nobody, ToLock;
      }
      history := history + [Work];
    }

    method Subscribe()
      requires Valid()
      modifies this
      ensures Valid() && View() == ApplyLevel(old(View()), Step.Subscribe)
    {
      Extend(index, history, View(), Step.Subscribe);
      writer := true;
      history := history + [Step.Subscribe];
    }

    /** A whole round of the thread that nobody interrupts: a message in the slot is written or
        discarded, and the flag is down. */
    method Round()
      requires Valid() && holder.Nobody? && (worker.ToLock? || worker.Woken?) && hasData
      modifies this
      ensures Valid() && holder.Nobody? && worker.ToLock? && !hasData
      ensures slot == old(slot) && stored == old(stored) && writer == old(writer) && publications == old(publications)
      ensures delivered == old(delivered) + if writer then [slot] else []
      ensures fates == Decide(old(fates), if writer then Written else Discarded)
    {
      WorkerStep();
      WorkerStep();
      WorkerStep();
      if worker.Writing? { WorkerStep(); }
      WorkerStep();
      WorkerStep();
    }
  }

  /** What a level guarantees between any two steps: delivered is a subsequence, in order and
      without duplicates, of what was stored, all of the topic of the level; everything stored
      but the last is decided; and with the mutex free and the flag up the thread is awake. */
  lemma Guarantees(l: PriorityLevel)
    requires l.Valid()
    ensures |l.written| == |l.delivered| && Increasing(l.written)
    ensures forall n :: 0 <= n < |l.delivered| ==>
              && l.written[n] < |l.stored| && l.delivered[n] == l.stored[l.written[n]]
              && l.index < 3 && l.delivered[n].topic == ["High", "Middle", "Low"][l.index]
    ensures |l.fates| == |l.stored| && forall i :: 0 <= i < |l.fates| - 1 ==> !l.fates[i].Pending?
    ensures l.holder.Nobody? ==> (l.hasData <==> l.fates != [] && l.fates[|l.fates| - 1].Pending?)
    ensures l.holder.Nobody? && l.hasData ==> !l.worker.Asleep?
  {
    RunLevelInv(l.index, l.history);
    forall n | 0 <= n < |l.delivered|
      ensures l.index < 3 && l.delivered[n].topic == ["High", "Middle", "Low"][l.index]
    {
      assert LevelOf(l.delivered[n].topic) == Some(l.index);
      TopicOfLevel(l.delivered[n].topic, l.index);
    }
  }
}
