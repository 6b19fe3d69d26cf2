# Proofs about the real-time systems course code

This project models the concurrent and algorithmic core of a repository of real-time
programming exercises and proves what the exercises rely on, for every input and every run.

* **Scheduling** (`Scheduling`, `Programs`, `Inheritance`, `Ceiling`, `TaskSets`, `PlainMutex`,
  `Exactness`, `Periodic`, `Looping`, `Turns`, `Processor`). One processor under SCHED_FIFO (section
  2.8.4 of POSIX.1-2017 System Interfaces), one mutex with or without PTHREAD_PRIO_INHERIT or PTHREAD_PRIO_PROTECT
  (`pthread_mutexattr_getprotocol`, same standard), and threads that run straight-line
  programs. A run is a list of choices: timers fire when the environment wants (a minimum
  separation apart), a workload takes any number of ticks up to its maximum, and everything else
  is computed. Unlocking a mutex with waiters hands it to the first of the highest priority, as the
  page of `pthread_mutex_lock` has the scheduling policy decide. The response bounds come from
  invariants over all runs; for the plain mutex a ledger says who used each tick since the mutex
  was locked. Runs with strictly periodic timers show that the bounds 120, 50 and 30 are
  attained, and runs of looping threads that the bounds of lab2 are met in every iteration.
* **Event dispatching** (`Events`, `Heap`, `DirectDispatch`, `Overtaking`, `DirectServer`,
  `FifoDispatch`, `FifoRuns`, `FifoServer`, `TopicDispatch`, `TopicServer`). The EDF services
  of hw8 and hw7 and the broker of lab3 as step machines at the granularity of single operations
  on mutexes, condition variables, queues and flags, with spurious wakeups. The priority queue is a
  binary heap in an array. Classes carry the same steps on fields, flags and the heap.
* **The wire codec** (`Wire`, `Text`, `Messages`, `WireFormat`, `LastOneWins`, `TopicMessages`).
  TopicData, its nested Timestamp, and TopicRequest, down to base-128 varints, with unknown fields of all kinds including
  nested groups, following the Protocol Buffers Encoding specification ("Base 128 Varints", "Message
  Structure", "Length-Delimited Records", "Last One Wins"). UTF-8 is that of RFC 3629. The
  classes parse, merge, measure and write in place.
* **The operation table** (`OpTable`). The perfect hash of the hw5 Time interface against plain
  search.
* **The three-level server** (`LevelServer`, `LevelThreads`). The lab2 server whose slots are
  overwritten by later messages.

Some properties do not hold of the code, or only under a condition, and then the condition is proved
exact:

* Without a locking protocol a response of 120 really occurs with the program's own periodic timers
  (`PeriodicRuns.PlainAttained`), and in lab2 no bound holds, as soon as one middle thread has work to
  do (`LoopingRuns.PlainHasNoBound`).
* The comparator of the EDF queue is a strict weak order on the deadlines a proxy can compute if and
  only if the clock ticks in whole microseconds (`Events.OrderedByTick`).
* The drain loop of hw7 can pop an empty queue if and only if there are two or more proxy threads
  (`FifoRuns.EmptyPopExactly`).
* With one proxy thread of hw7 the events left undelivered at rest are exactly those the worker stored
  after the last read of the flag (`FifoDispatch.LeftBehindExactly`); with a single
  push call this can be the only event (`FifoRuns.LastEventStaysBehind`). That is what hw8 repairs
  (`DirectDispatch.EveryRunDrains`).
* An accepted message is written back to bytes that read the same if and only if its timestamp is
  below 2 GiB (`Messages.CanonicalData`), which some accepted input misses
  (`Messages.NotAlwaysCanonical`).
* Parsing behind other input equals merging if and only if the bytes do not name a field only to clear
  it (`LastOneWins.ParsingMergesUnlessCleared`).

Times are in ticks: a millisecond in hw3, half a millisecond in lab2; event times are in
microseconds, in nanoseconds where the comparator is the subject.

## Model

| member | source | states |
|---|---|---|
| Programs.StepSane | hw3_solution/priority_inversion.cpp:76-147 | every step of every system keeps the mutex consistent: its owner is the one unfinished job inside a critical section, a waiting job is at its lock, only an owned mutex has waiters, releases stay a separation apart |
| Inheritance.ResponseBound | hw3_solution/priority_inversion.cpp:189-200 | with inheritance, in every run of any task set, each recorded response of the most urgent task is at most its own work plus one foreign critical section per lock, whatever the other tasks and their backlog; an unfinished urgent job is never older than that, and urgent jobs never overlap |
| Inheritance.OnlyOwnerDelays | hw3_solution/priority_inversion.cpp:116-147 | while the urgent job waits, only the owner of the mutex gets the processor; a middle task never does |
| Inheritance.BoostedByWaiter | hw3_solution/priority_inversion.cpp:189-200 | a job runs above its base priority only inside its own critical section, and then at the base priority of an unfinished job that waits at its lock |
| Ceiling.NeverAWaiter | hw3_solution/priority_inversion.cpp:201-214 | with a ceiling above all priorities, no reachable state of any task set has a waiter |
| Ceiling.ResponseBound | hw3_solution/priority_inversion.cpp:201-214 | with the ceiling, the recorded response contains no delay, release to end at most one foreign critical section more, urgent jobs never overlap, and after reading the clock the urgent job keeps the processor to its end |
| TaskSets.Hw3Setting | hw3_solution/priority_inversion.cpp:76-147 | the hw3 programs are balanced, tau1 is the most urgent, the others' critical sections last at most 20, and tau1 costs 30 plus one delay |
| TaskSets.Hw3Costs | hw3_solution/priority_inversion.cpp:76-147 | the three programs take at most 30, 100 and 70 milliseconds of their own |
| TaskSets.Hw3Inherit | hw3_solution/priority_inversion.cpp:76-112 | "pip": every response tau1 records, and the age of every unfinished job of tau1, is at most 50, and its jobs never overlap, for any arrivals of tau2 and tau3 |
| TaskSets.Hw3Protect | hw3_solution/priority_inversion.cpp:76-137 | "pcp": no waiter ever, every recorded response at most 30, at most 50 since release at any time before the end, no overlap |
| PlainMutex.SectionIsShort | hw3_solution/priority_inversion.cpp:125-132 | in every reachable state in which tau2 has the mutex, it has had it for at most 100: 20 of its own, 10 of tau1, 70 of tau3 |
| PlainMutex.OneTau3 | hw3_solution/priority_inversion.cpp:139-147 | in every run, no two jobs of tau3 are released during one critical section of tau2 |
| PlainMutex.Hw3Plain | hw3_solution/priority_inversion.cpp:186-189 | "none": every response tau1 records, and the age of every unfinished job of tau1, is at most 120, and its jobs never overlap, if tau1 is released more than 120 and tau3 more than 100 apart, for any arrivals of tau2 |
| PlainMutex.Hw3PlainPeriodic | hw3_solution/priority_inversion.cpp:231-233 | the same with the periods of the program |
| PeriodicRuns.PlainAttained | hw3_solution/priority_inversion.cpp:231-233 | the bound is tight: with the plain mutex and timers that are started together and fire at all multiples of the periods of the program, some run records exactly 120 |
| PeriodicRuns.InheritAttained | hw3_solution/priority_inversion.cpp:189-200 | the bound is tight: with inheritance and the same strictly periodic timers, some run records exactly 50 |
| PeriodicRuns.ProtectAttained | hw3_solution/priority_inversion.cpp:201-214 | with the ceiling and the same timers, some run records exactly 30 |
| PeriodicRuns.RunOnTop | hw3_solution/priority_inversion.cpp:149-175 | any run can be repeated, step by step and with the same responses added, on top of a state in which all earlier jobs are finished, if the timers allow its releases |
| TaskSets.Lab2Setting | prev/spring2020/lab2/exampleAnswers/cs3PIP.cpp:85-216 | the lab2 programs fit the general setting for any number of middle threads and any loads, with the bounds 9 and 3 half-milliseconds |
| TaskSets.Lab2Inherit | prev/spring2020/lab2/exampleAnswers/cs3PIP.cpp:236-246 | inheritance: every response tau1 records, and the age of every unfinished job of tau1, is at most 4.5 ms, for any number of middle threads and any middle load |
| TaskSets.Lab2Protect | prev/spring2020/lab2/exampleAnswers/cs3PCP.cpp:236-246 | ceiling: no waiter ever, every response tau1 records is at most 1.5 ms, and no unfinished job of tau1 is older than 4.5 ms |
| TaskSets.Lab2Costs | prev/spring2020/lab2/exampleAnswers/cs3PIP.cpp:85-190 | an iteration of tau1 takes 1.5 ms of its own and one of tau3 13 ms |
| LoopingRuns.InheritAgainAndAgain | prev/spring2020/lab2/exampleAnswers/cs3PIP.cpp:93-190 | the loops start over and the bound is tight: for any middle load and any n some run with inheritance records 4.5 ms in n iterations of tau1 in a row |
| LoopingRuns.ProtectAgainAndAgain | prev/spring2020/lab2/exampleAnswers/cs3PCP.cpp:93-120 | and some run with the ceiling records 1.5 ms n times in a row |
| LoopingRuns.PlainHasNoBound | prev/spring2020/lab2/exampleAnswers/cs3.cpp:85-216 | without a protocol, if any middle thread has work to do, there is a run for every n in which tau1 records at least n, since the middle thread starts over while tau3 has the mutex |
| Turns.FirstComeFirstServed | hw3_solution/priority_inversion.cpp:222-229 | of two jobs of one priority that use no mutex, the one released later does nothing before the earlier one is over, in every run of any task set |
| Turns.LongestWaitFirst | hw3_solution/priority_inversion.cpp:131 | the job that gets the mutex has waited at least as long as every other waiting job of its priority |
| Processors.Processor.InheritedPriority | hw3_solution/priority_inversion.cpp:189-200 | the loop finds the highest base priority among the waiters |
| Processors.Processor.EffectivePriority | hw3_solution/priority_inversion.cpp:186-214 | the priority a thread runs at under each protocol |
| Processors.Processor.Pick | hw3_solution/priority_inversion.cpp:222-229 | the loop finds the ready thread that precedes all others by priority and rank, and none only if none is ready |
| Processors.Processor.NextOwner | hw3_solution/priority_inversion.cpp:131 | the loop finds the waiter of the highest priority, longest waiting among equals, and none only if nobody waits |
| Processors.Processor.MutexLock | hw3_solution/priority_inversion.cpp:85 | locking takes a free mutex, else joins the waiters, and changes nothing else |
| Processors.Processor.MutexUnlock | hw3_solution/priority_inversion.cpp:87 | unlocking frees the mutex or hands it to the first waiter |
| Processors.Processor.Dispatch | hw3_solution/priority_inversion.cpp:222-229 | the processor goes to the thread picked, else time passes; the object stays in a reachable state |
| Processors.RecordedResponses | hw3_solution/priority_inversion.cpp:177-233 | after any calls on the processor object result[] holds at most 120, 50 or 30 for none, pip or pcp |
| Heaps.SwapUp | prev/spring2020/lab3/example_answer/es_server.cc:293-295 | swapping an entry with its parent moves the one violation of heap order up |
| Heaps.SwapDown | prev/spring2020/lab3/example_answer/es_server.cc:293-295 | swapping an entry with its smaller child moves the one violation of heap order down |
| Heaps.RootIsLeast | prev/spring2020/lab3/example_answer/es_server.cc:184 | the first entry of a heap has a least key |
| Heaps.Heap.Push | prev/spring2020/lab3/example_answer/es_server.cc:170 | push adds exactly one occurrence of the entry |
| Heaps.Heap.Top | prev/spring2020/lab3/example_answer/es_server.cc:184 | top is an entry of least key among all held |
| Heaps.Heap.Pop | prev/spring2020/lab3/example_answer/es_server.cc:185 | pop removes exactly one occurrence of an entry of least key |
| Heaps.Heap.Drain | prev/spring2020/lab3/example_answer/es_server.cc:279-296 | popping everything gives the contents, each as often as it was there, in key order |
| Events.DeadlineFromCreation | hw8_solution/EC_Default_ProxyConsumer.cpp:184-189 | the deadline is creation plus 100, 50, 200, 150 or 70 ms by source, whatever the arrival time, plus the part of the age below a microsecond with its sign; exactly so if and only if the age is in whole microseconds |
| Events.AfterMeaning | hw8_solution/EC_Default_ProxyConsumer.h:46-52 | the comparator holds exactly from one whole microsecond of difference on |
| Events.BetweenGridsIsNot | hw7_solution/service/EC_Default_ProxyConsumer.h:42-53 | three times, the middle one off the microsecond grid of the others, between which "neither is later" is not transitive, for every offset |
| Events.OrderedByTick | hw8_solution/EC_Default_ProxyConsumer.h:42-53 | the comparator is a strict weak order (irreflexive, transitive, ties transitive) on every set of deadlines a proxy can compute from readings of a clock, for any events, if and only if the clock ticks in whole microseconds |
| Events.KeysAreDeadlines | hw8_solution/EC_Default_ProxyConsumer.cpp:184-189 | with readings in whole microseconds the key used by heap and machines is creation plus 100, 50, 200, 150 or 70 ms by source, it is the deadline computed, and the comparator is the order of the keys |
| DirectDispatch.StepKeepsInv | hw8_solution/EC_Default_ProxyConsumer.cpp:18-55 | every step keeps mutual exclusion, conservation of events and the absence of a lost wakeup |
| DirectDispatch.StepDecreases | hw8_solution/EC_Default_ProxyConsumer.cpp:25-53 | without new calls and spurious wakeups every step decreases a measure over queue and thread positions |
| DirectDispatch.SomebodyCanStep | hw8_solution/EC_Default_ProxyConsumer.cpp:194-197 | no deadlock: unless everything is delivered and the worker asleep, some step is possible |
| DirectDispatch.EveryRunDrains | hw8_solution/EC_Default_ProxyConsumer.cpp:25-53 | once calls stop, every run is finite in length by the measure, and where it ends the worker sleeps, the queue is empty and delivered equals pushed as multisets |
| DirectDispatch.EachCallDeliveredOnce | hw8_solution/EC_Default_ProxyConsumer.cpp:191-197 | where a run ends, the events delivered are exactly those of the push calls, each with the source and creation time the caller gave, each exactly once |
| DirectDispatch.CallsAreArrivals | hw8_solution/EC_Default_ProxyConsumer.cpp:157-189 | in every run the calls carry, in order, the numbers 0, 1, 2, ... and the sources and creation times that the callers gave |
| DirectDispatch.PoppedIsDelivered | hw8_solution/EC_Default_ProxyConsumer.cpp:33-52 | what was popped is, in that order, what was delivered and then what the worker has in hand |
| DirectDispatch.DeliveredByDeadline | hw8_solution/EC_Default_ProxyConsumer.cpp:33-52 | if a is delivered before b and b was queued when a was popped, a's deadline is no later than b's |
| DirectDispatch.SpuriousIsHarmless | hw8_solution/EC_Default_ProxyConsumer.cpp:29-32 | a sleeping worker can be woken without a signal at any time, and if there is nothing to do it goes back to sleep with nothing changed |
| DirectDispatch.NoSleepOnWork | hw8_solution/EC_Default_ProxyConsumer.cpp:28-35 | no reachable state has the mutex free, the queue nonempty and the worker asleep |
| DirectDispatch.NothingLost | hw8_solution/EC_Default_ProxyConsumer.cpp:33-52 | each event is pushed as often as it is queued, in the worker's hand or delivered |
| DirectDispatch.NeverPopsEmpty | hw8_solution/EC_Default_ProxyConsumer.cpp:29-34 | the worker never takes the top of an empty queue |
| Overtaking.OvertakerIsEarly | hw8_solution/EC_Default_ProxyConsumer.cpp:157-189 | an event popped while e waits was created at most the difference of their intervals after e, so at most 150 ms after, and not after e if from its source |
| Overtaking.OvertakenAtMost | hw8_solution/EC_Default_ProxyConsumer.cpp:184-197 | if creations of a source are its period apart, at most ceiling of (interval difference / period) of its later events overtake e |
| Overtaking.BoundedOvertaking | hw7_solution/application/Supplier.cpp:136-137 | with the intervals of the program and creations 100, 100, 100, 200 and 200 ms apart an event is overtaken by at most 2, 0, 5, 3 or 1 later-created events, by its source |
| DirectServers.OurSingletonWorker.Insert | hw8_solution/EC_Default_ProxyConsumer.cpp:195 | the push into the heap is the insertion step of the machine |
| DirectServers.OurSingletonWorker.Pop | hw8_solution/EC_Default_ProxyConsumer.cpp:33-34 | top and pop of the heap are an enabled step of the machine: the heap is never empty there and the entry has the earliest deadline |
| DirectServers.Guarantees | hw8_solution/EC_Default_ProxyConsumer.cpp:18-55 | after any calls on the object each event is pushed as often as it is in the heap, in the worker's hand or delivered, with the mutex free the worker does not sleep on a nonempty heap, and with nothing left to do exactly the events of the calls made have been delivered |
| DirectServers.GuaranteesOrder | hw8_solution/EC_Default_ProxyConsumer.cpp:33-52 | after any calls on the object delivered is in the order popped, and of events queued together the earlier deadline is delivered first |
| FifoDispatch.PoppedIsEverywhere | hw7_solution/service/EC_Default_ProxyConsumer.cpp:25-55 | delivered, then the proxy's event, then FIFOQ, then the worker's item concatenate to exactly what was popped from EDFQ |
| FifoDispatch.DeliveredByDeadline | hw7_solution/service/EC_Default_ProxyConsumer.h:42-53 | if a is delivered before b and b was queued when a was popped, a's deadline is no later than b's |
| FifoDispatch.FlagIsExact | hw7_solution/service/EC_Default_ProxyConsumer.cpp:50-53 | with one proxy thread the flag is true exactly if FIFOQ is nonempty whenever its mutex is free, and neither queue is popped when empty |
| FifoDispatch.SpuriousIsHarmless | hw7_solution/service/EC_Default_ProxyConsumer.cpp:28-32 | a sleeping worker can be woken without a signal at any time, and if there is nothing to do it goes back to sleep with nothing changed |
| FifoDispatch.CallDrains | hw7_solution/service/EC_Default_ProxyConsumer.cpp:212-227 | when a push call returns, every event that was delivered or in FIFOQ when it began has been delivered |
| FifoDispatch.RunBalance | hw7_solution/service/EC_Default_ProxyConsumer.cpp:203-209 | each event of a push call is, as often as called, still in the call, in EDFQ, or popped |
| FifoDispatch.CallsAreArrivals | hw7_solution/service/EC_Default_ProxyConsumer.cpp:169-203 | in every run with any number of proxy threads the calls carry, in order, the sources and creation times that the callers gave |
| FifoDispatch.RestLeavesFifo | hw7_solution/service/EC_Default_ProxyConsumer.cpp:18-57 | where nobody can go on, EDFQ is empty, the worker asleep, no call under way, and the events of all calls are delivered or still in FIFOQ, in the order popped |
| FifoDispatch.LeftBehindExactly | hw7_solution/service/EC_Default_ProxyConsumer.cpp:18-57 | at rest what was delivered is what was popped except the last so many, as many as the worker stored after the last read of the flag; FIFOQ holds exactly these; every called event has been delivered if and only if there are none |
| FifoDispatch.StepDecreases | hw7_solution/service/EC_Default_ProxyConsumer.cpp:169-227 | with any number of proxy threads every step other than a new call or a spurious wakeup decreases a measure of queues and thread positions |
| FifoDispatch.EveryRunRests | hw7_solution/service/EC_Default_ProxyConsumer.cpp:169-227 | once calls stop, no run is longer than the measure, and at rest the call has returned, the worker sleeps and EDFQ is empty |
| FifoRuns.LastEventStaysBehind | hw7_solution/README.txt:52-57 | a run with one push call comes to rest with its event worked on, in FIFOQ, and never delivered |
| FifoRuns.EmptyPopExactly | hw7_solution/service/EC_Default_ProxyConsumer.cpp:213-217 | a run with n proxy threads can reach the pop of an empty FIFOQ if and only if n is at least two |
| FifoServers.OurSingletonWorker.Insert | hw7_solution/service/EC_Default_ProxyConsumer.cpp:207 | the push into the heap is the insertion step of the machine |
| FifoServers.OurSingletonWorker.TakeFront | hw7_solution/service/EC_Default_ProxyConsumer.cpp:216-217 | front and pop always find an element, although it was asked for in an earlier critical section |
| FifoServers.OurSingletonWorker.Pop | hw7_solution/service/EC_Default_ProxyConsumer.cpp:33-34 | top and pop of the heap are an enabled step of the machine |
| FifoServers.Guarantees | hw7_solution/service/EC_Default_ProxyConsumer.cpp:18-57 | after any calls on the object the flag is exact, FIFOQ is nonempty wherever the loop takes its front, every called event is in the call, the heap or popped, what was popped is delivered, in the proxy, in FIFOQ or with the worker in that order, and deliveries respect deadlines among events queued together |
| TopicDispatch.FlagIsExact | prev/spring2020/lab3/example_answer/es_server.cc:150-202 | with any number of publishers nonEmptyPQ is true exactly if PQ is nonempty whenever the mutex is free, and top is never taken from an empty queue |
| TopicDispatch.NoSleepOnWork | prev/spring2020/lab3/example_answer/es_server.cc:172-188 | no reachable state has the mutex free, a message queued and the dispatching thread asleep |
| TopicDispatch.SpuriousIsHarmless | prev/spring2020/lab3/example_answer/es_server.cc:182-184 | the dispatching thread can be woken without a broadcast at any time, and if there is nothing to do it goes back to sleep with nothing changed |
| TopicDispatch.PublishedOnce | prev/spring2020/lab3/example_answer/es_server.cc:155-170 | each message has been put into the queue as often as publications of it are past their insertion |
| TopicDispatch.RunRecorded | prev/spring2020/lab3/example_answer/es_server.cc:150-218 | in every run the publications carry, in order, the messages that were read, and the table holds the topics of the first three subscriptions |
| TopicDispatch.PublishedIsPushed | prev/spring2020/lab3/example_answer/es_server.cc:155-173 | once all publishing calls have returned, the messages put into the queue are those read, each as often as read |
| TopicDispatch.NothingLost | prev/spring2020/lab3/example_answer/es_server.cc:167-185 | messages pushed are those queued plus those popped, as multisets, and each pop has the least value of those queued |
| TopicDispatch.EveryRunDrains | prev/spring2020/lab3/example_answer/es_server.cc:150-202 | once nobody publishes or subscribes any more, no run is longer than a measure, and where it ends all publications have returned, the dispatching thread sleeps, every message pushed was popped, and each subscriber has the messages of its topic popped since it came |
| TopicDispatch.SubscriberStream | prev/spring2020/lab3/example_answer/es_server.cc:220-231 | what a subscriber received is exactly the messages of its topic scanned since it came, each once and in order of dispatch; never more than three subscribers |
| TopicDispatch.RegistrationsStay | prev/spring2020/lab3/example_answer/es_server.cc:204-218 | between any two states of a run a registration keeps its place and topic, and nothing received is taken back |
| TopicDispatch.FifoInPushOrder | prev/spring2020/lab3/example_answer/es_server.cc:259-262 | FIFO: with a clock that advances between pushes, messages leave in the order pushed, for any base time |
| TopicDispatch.DigitSelectsPeriod | prev/spring2020/lab3/example_answer/es_server.cc:233-262 | a topic that starts with a digit that has a period can always be published; its value is that period under RM, that period plus the timestamp under EDF, and the time since the base under FIFO |
| TopicDispatch.ShortestPeriodFirst | prev/spring2020/lab3/example_answer/es_server.cc:252-253 | RM: if a message whose topic starts with digit i leaves while one with digit j is queued, entry i of the table of periods is at most entry j |
| TopicDispatch.EarliestDeadlineFirst | prev/spring2020/lab3/example_answer/es_server.cc:236-244 | EDF: if a message whose topic starts with digit i leaves while one with digit j is queued, its timestamp plus entry i of the table is at most the other timestamp plus entry j; so messages of one digit leave by timestamp |
| TopicServers.EventServiceImpl.Insert | prev/spring2020/lab3/example_answer/es_server.cc:168-170 | getVal and the push into the heap are the insertion step of the machine |
| TopicServers.EventServiceImpl.Pop | prev/spring2020/lab3/example_answer/es_server.cc:184-185 | top and pop of the heap are an enabled step of the machine |
| TopicServers.EventServiceImpl.WriteToSubscribers | prev/spring2020/lab3/example_answer/es_server.cc:220-231 | the whole scan writes the message once to every subscriber of its topic and to nobody else |
| TopicServers.EventServiceImpl.AddSubscriber | prev/spring2020/lab3/example_answer/es_server.cc:204-218 | a subscriber is refused exactly if the table is full, and the index never exceeds the maximum |
| TopicServers.Guarantees | prev/spring2020/lab3/example_answer/es_server.cc:150-231 | after any calls on the object the flag is exact, no message waits while the thread sleeps, messages pushed are those in the heap plus those popped, each published once, every subscriber has exactly its stream, and under FIFO with an advancing clock messages left in the order pushed |
| Wire.VarintMeaning | prev/spring2020/lab3/example_answer/es.pb.cc:495-496 | what is written is one varint, seven bits a byte, least significant first, of exactly this value, with no superfluous byte |
| Wire.ReadVarintMeaning | prev/spring2020/lab3/example_answer/es.pb.cc:203-206 | reading takes the one varint at the front and gives the value of its bits |
| Wire.VarintRoundTrip | prev/spring2020/lab3/example_answer/es.pb.cc:203-206 | a varint reads back whatever follows it, and is refused exactly if it is longer than allowed |
| Wire.FieldsRoundTrip | prev/spring2020/lab3/example_answer/es.pb.cc:518-520 | any list of well-formed records, with groups nested to any allowed depth, reads back as it was written, whatever follows |
| Wire.FieldsPrefix | prev/spring2020/lab3/example_answer/es.pb.cc:431-481 | complete input reads the same with more input behind it; the end of a group leaves what follows alone |
| Wire.ReadFieldsGood | prev/spring2020/lab3/example_answer/es.pb.cc:463-472 | every record the reader keeps can be written and read again |
| Wire.FieldsShrink | prev/spring2020/lab3/example_answer/es.pb.cc:518-520 | writing records again takes no more bytes than were read for them |
| Texts.Utf8Exactly | prev/spring2020/lab3/example_answer/es.pb.cc:443 | the texts that pass the check are exactly the encodings of sequences of Unicode scalar values |
| Messages.ParsedTimeMerges | prev/spring2020/lab3/example_answer/es.pb.cc:456-462 | parsing a written timestamp into another merges it, with negative numbers and unknown fields |
| Messages.ParsedDataMerges | prev/spring2020/lab3/example_answer/es.pb.cc:578-596 | parsing serialize(b) into a gives MergeFrom of b into a if texts are UTF-8 and parts below 2 GiB, and fails otherwise |
| Messages.DataRoundTrip | prev/spring2020/lab3/example_answer/es.pb.cc:483-523 | parse(serialize(m)) is m exactly if the texts are UTF-8 and the parts below 2 GiB, else it fails; the serializer itself refuses nothing |
| Messages.ParseDataInParts | prev/spring2020/lab3/example_answer/es.pb.cc:431-481 | parsing s followed by t is parsing t into what s gave |
| Messages.ConcatenationMergesData | prev/spring2020/lab3/example_answer/es.pb.cc:578-596 | parsing serialize(a) followed by serialize(b) gives MergeFrom of b into a, nested timestamps and unknown-field order included |
| Messages.CanonicalData | prev/spring2020/lab3/example_answer/es.pb.cc:431-523 | whatever was accepted, writing and reading again gives the same message if and only if the timestamp is below 2 GiB, which holds of every input not within 11 bytes of 2 GiB |
| Messages.RewrittenTime | prev/spring2020/lab3/example_answer/es.pb.cc:431-523 | the timestamp of an accepted message is written in at most 11 bytes more than the whole input had |
| Messages.NotAlwaysCanonical | prev/spring2020/lab3/example_answer/es.pb.cc:431-523 | some accepted input is written back to bytes that do not read as the same message |
| Messages.ParsedRequestMerges | prev/spring2020/lab3/example_answer/es.pb.cc:300-311 | parsing a written request into another merges it, or fails exactly if its topic is not UTF-8 or too long |
| Messages.RequestRoundTrip | prev/spring2020/lab3/example_answer/es.pb.cc:237-259 | the round trip of TopicRequest, exactly as far as it goes |
| Messages.ConcatenationMergesRequests | prev/spring2020/lab3/example_answer/es.pb.cc:300-311 | concatenating two written requests merges them |
| Messages.CanonicalRequest | prev/spring2020/lab3/example_answer/es.pb.cc:201-259 | every accepted request is written back to bytes that read the same |
| WireFormats.DataOnTheWire | prev/spring2020/lab3/example_answer/es.pb.cc:483-523 | the bytes of a message: topic under tag 10, data under 18, timestamp under 26, each with its length and only if it is there, then the unknown fields |
| WireFormats.TimeOnTheWire | prev/spring2020/lab3/example_answer/es.pb.cc:506-512 | the bytes of a timestamp: seconds under tag 8 and nanoseconds under 16 as varints of 64 bits in two's complement, each only if not zero |
| WireFormats.RequestOnTheWire | prev/spring2020/lab3/example_answer/es.pb.cc:237-259 | the bytes of a request: topic under tag 18, then the unknown fields |
| WireFormats.KindsOnTheWire | prev/spring2020/lab3/example_answer/es.pb.cc:463-472 | the tags 8n, 8n+1, 8n+2, 8n+3 with 8n+4, and 8n+5 of the kinds of unknown fields |
| WireFormats.TwosComplement | prev/spring2020/lab3/example_answer/es.pb.cc:456-462 | a parsed number stands for the seconds with 64 bits and for the nanoseconds with its low 32, in two's complement |
| WireFormats.DataBelowTwoGiB | prev/spring2020/lab3/example_answer/es.pb.cc:431-523 | every good message with UTF-8 texts that takes less than 2,147,483,648 bytes reads back as itself |
| WireFormats.DataFromTwoGiB | prev/spring2020/lab3/example_answer/es.pb.cc:431-481 | a message with a text or a timestamp of 2,147,483,648 bytes or more is refused |
| WireFormats.RequestBelowTwoGiB | prev/spring2020/lab3/example_answer/es.pb.cc:201-259 | every good request with a UTF-8 topic that takes less than 2,147,483,648 bytes reads back as itself |
| WireFormats.RequestFromTwoGiB | prev/spring2020/lab3/example_answer/es.pb.cc:201-235 | a request with a topic of 2,147,483,648 bytes or more is refused |
| WireFormats.HundredDeep | prev/spring2020/lab3/example_answer/es.pb.cc:463-472 | a message with n groups inside each other is accepted if and only if n is at most 100 |
| WireFormats.SentIsReceived | prev/spring2020/lab3/example_answer/es_pub.cc:136-160 | the 23 bytes of the message with topic "0", data "test" and a timestamp with half a second are read as that message |
| LastOneWins.FoldIsMeaning | prev/spring2020/lab3/example_answer/es.pb.cc:431-481 | parsing succeeds exactly if each record is readable, and then the last text wins, all nested timestamps are merged and the rest is kept in order |
| LastOneWins.ParsingMergesUnlessCleared | prev/spring2020/lab3/example_answer/es.pb.cc:578-596 | for any accepted bytes, parsing into a equals merging into a if and only if the bytes do not set a field that a has explicitly to its default |
| LastOneWins.EmptyTopicClears | prev/spring2020/lab3/example_answer/es.pb.cc:585-588 | the bytes 10, 0 clear a topic, which merging never does |
| TopicMessages.WriteVarint | prev/spring2020/lab3/example_answer/es.pb.cc:495-496 | the loop writes the varint in place and leaves the rest of the buffer alone |
| TopicMessages.WriteLen | prev/spring2020/lab3/example_answer/es.pb.cc:495-496 | tag, length and payload are written in place and nothing else changes |
| TopicMessages.TopicData.Clear | prev/spring2020/lab3/example_answer/es.pb.cc:416-429 | clearing gives the empty message |
| TopicMessages.TopicData.MergeFrom | prev/spring2020/lab3/example_answer/es.pb.cc:578-596 | merging in place gives the merge that concatenation is proved equal to |
| TopicMessages.TopicData.InternalParse | prev/spring2020/lab3/example_answer/es.pb.cc:431-481 | the loop succeeds exactly if the input is a list of records up to its end or a stopping tag and every record is accepted, and leaves the message with all of them applied |
| TopicMessages.TopicData.ParseFromString | prev/spring2020/lab3/example_answer/es.pb.cc:464-470 | accepted exactly if the whole input parses and does not stop at a tag of its own |
| TopicMessages.TopicData.ByteSizeLong | prev/spring2020/lab3/example_answer/es.pb.cc:525-561 | the size computed is the number of bytes written |
| TopicMessages.TopicData.InternalSerialize | prev/spring2020/lab3/example_answer/es.pb.cc:483-523 | the message is written from the given place on, and the rest of the buffer stays |
| TopicMessages.TopicRequest.Clear | prev/spring2020/lab3/example_answer/es.pb.cc:191-199 | clearing gives the empty request |
| TopicMessages.TopicRequest.MergeFrom | prev/spring2020/lab3/example_answer/es.pb.cc:300-311 | merging in place |
| TopicMessages.TopicRequest.InternalParse | prev/spring2020/lab3/example_answer/es.pb.cc:201-235 | the parse loop of the request, as for TopicData |
| TopicMessages.TopicRequest.ParseFromString | prev/spring2020/lab3/example_answer/es.pb.cc:218-224 | accepted exactly if the whole input parses |
| TopicMessages.TopicRequest.ByteSizeLong | prev/spring2020/lab3/example_answer/es.pb.cc:261-283 | the size computed is the number of bytes written |
| TopicMessages.TopicRequest.InternalSerialize | prev/spring2020/lab3/example_answer/es.pb.cc:237-259 | the request is written in place and the rest of the buffer stays |
| OpTables.OnlyItsLength | hw5_solution/csc9006hw5/TimeS.cpp:87 | a string that hashes to the slot of a name and agrees with it as far as both go is that name: no prefix, no longer string |
| OpTables.FoundIsInUse | hw5_solution/csc9006hw5/TimeS.cpp:105-127 | no string, not even one with an embedded terminator, is found in an empty slot |
| OpTables.EveryNameIsFound | hw5_solution/csc9006hw5/TimeS.cpp:105-132 | each of the eight names is found at its own entry |
| OpTables.LookupIsSearch | hw5_solution/csc9006hw5/TimeS.cpp:90-136 | for every ASCII string lookup gives what linear search over the eight names gives; table indices are in range |
| OpTables.LookupFindsSkeleton | hw5_solution/csc9006hw5/TimeS.cpp:105-136 | for every ASCII string lookup answers each of the eight names with its own skeleton, spelled out, and every other string with none |
| LevelServer.WrittenInOrder | prev/spring2020/lab2/exampleAnswers/sec4-7/es_server.cc:99-164 | on each level, in every interleaving, what is written is a duplicate-free subsequence, in order, of what was stored, all of the level's topic |
| LevelServer.EveryMessageAccounted | prev/spring2020/lab2/exampleAnswers/sec4-7/es_server.cc:202-230 | each published message has a place of its own and one fate: written, which needs a subscriber; discarded, at a step that found no subscriber; overwritten by a later one; or still in the slot with the flag up |
| LevelServer.DiscardedForLack | prev/spring2020/lab2/exampleAnswers/sec4-7/es_server.cc:107-116 | for every discarded message there is a step of the run at which the thread of the level took it and found no subscriber |
| LevelServer.NoDiscardOnceSubscribed | prev/spring2020/lab2/exampleAnswers/sec4-7/es_server.cc:107-116 | from the first state with a subscriber on, no further message is ever discarded |
| LevelServer.NoSleepOnData | prev/spring2020/lab2/exampleAnswers/sec4-7/es_server.cc:103-106 | with the mutex free and the flag up the thread of the level is not asleep |
| LevelServer.SpuriousIsHarmless | prev/spring2020/lab2/exampleAnswers/sec4-7/es_server.cc:103-106 | the thread of a level can be woken without a broadcast at any time, and if there is nothing to do it goes back to sleep with nothing changed |
| LevelServer.TopicsByLevel | prev/spring2020/lab2/exampleAnswers/sec4-7/es_server.cc:206-226 | at any time a message goes to the level of its topic, "High", "Middle" or "Low", and to no other |
| LevelServer.CallsAreRecorded | prev/spring2020/lab2/exampleAnswers/sec4-7/es_server.cc:202-230 | in every run each level has, in order, the messages published to it, and has a subscriber if and only if one has subscribed |
| LevelServer.EveryRunRests | prev/spring2020/lab2/exampleAnswers/sec4-7/es_server.cc:99-118 | once nobody publishes or subscribes any more, no run is longer than a measure, and where it ends every thread sleeps with its flag down and every message stored was written, discarded or overwritten, the last one not overwritten |
| LevelServer.LevelsAreIndependent | prev/spring2020/lab2/exampleAnswers/sec4-7/es_server.cc:99-164 | what a level does in a run it also does when the steps of the other levels are left out |
| LevelThreads.PriorityLevel.Round | prev/spring2020/lab2/exampleAnswers/sec4-7/es_server.cc:102-117 | an uninterrupted round writes the slot once if there is a subscriber, else discards it, and lowers the flag |
| LevelThreads.Guarantees | prev/spring2020/lab2/exampleAnswers/sec4-7/es_server.cc:99-164 | after any calls on the object deliveries are stored messages in the order stored and all of the level, every stored message but the last has its fate, the flag is up exactly if the last one has not, and then the thread is awake |

## Left out

- Timers, signals, CPU pinning, scheduling calls, file output and the exit after the requested number of releases: only their effect is kept (one processor, priorities, minimum separations); writing past the end of `result` in hw3 is not modelled.
- The `sqrt` loops: each workload takes any number of ticks up to its bound.
- Time spent outside the workloads (locking, switching, reading the clock) is zero.
- Start-up windows in which a thread runs before its mutex and flags are initialised: the machines start from the constructed state.
- The pauses between iterations in lab2: a looping thread may start over at any time after its last iteration, so `LoopingRuns.PlainHasNoBound` speaks of middle threads that start over at once.
- Events of sources outside 0 to 4: the program exits.
- Clocks that do not tick in whole microseconds, in the EDF queues: `Events.OrderedByTick` says that the comparator is no order then; the dispatch machines count whole microseconds, where `Events.KeysAreDeadlines` connects the two.
- Several proxy threads in hw7: but for termination the results are for one; `FifoRuns.EmptyPopExactly` shows why.
- Which of several entries of equal key a priority queue gives first: any, in the machines and the heap alike. The sift-down that `std::priority_queue` really uses moves a hole to a leaf first; the heap here swaps on the way down.
- Subscribe in the three-level server sets three pointers; the model lets the three levels get their writer at different times.
- Concurrent Subscribe calls on the unguarded index of lab3: registrations are single steps.
- Topics that do not start with the digit of a period, under EDF and RM in lab3: the program reads outside its table.
- The shadowing local `baseTime` in the constructor of lab3: results hold for any base time.
- 64-bit overflow of times and queue values: numbers are unbounded.
- Remote calls, sockets, CORBA and gRPC: delivery appends to a list.
- Arena, reflection, descriptors, swapping, the cached size and the release and ownership of the timestamp pointer in the generated messages; a timestamp is a value inside its message. Timestamp itself and the record reader are not part of the repository and follow the encoding specification, with a nesting limit of 100.
- The message after a failed parse: it may hold any part of the input.
- The 2 GiB limit applies to each length in the wire format, not to the whole input, which the record reader may take from a stream.
- Characters outside ASCII in operation names: the table is indexed with a signed character.
- Elevator control (hw1, hw2) and the loops of lab1: one thread each around sleeping and measured time, so what they do is timing only.
- Initialisation and the count of running threads in the hw5 client: a flag and a counter under one mutex, shared with nothing modelled here.
- The lecture program `cvsimple` and the starting points of lab2: teaching material for the condition variables and servers that are modelled in their finished form.
