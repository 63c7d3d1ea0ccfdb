# Packet-queueing simulator, modelled in Dafny

The simulator runs a discrete-event simulation of packets going through one shared queue in front of
a pool of processors. A packet enters at a random time with a random priority (LOW, MEDIUM, HIGH) and
a random service time. The queue can be one of three kinds:

- a bounded FIFO queue;
- a non-preemptive priority queue (NPPS), where the highest class leaves first and each class leaves
  in admission order;
- a weighted round-robin (WRR) composite of FIFO children, one per priority. A cursor walks the
  children downwards; each child may yield up to its weight of consecutive packets.

Every queue tells its registered observers about each accepted packet (ADD) and each removal (POP).
Two kinds of observer exist:

- a history observer records the packets added;
- a length observer keeps, for each queue length, the time the queue spent at that length.

The scheduler creates all arrivals up front as SPAWN events. It then repeats a loop until the horizon
is reached or no event is left. Each turn draws the earliest event, applies it and hands queued
packets to idle processors. Applying an event means one of two things:

- an arrival is offered to the queue, and the packet is marked dropped when the queue refuses it;
- a completion frees the packet's processor and credits the processor's busy account.

The model keeps the source's own shape:

- Packets, queues, observers, processors, the event store and the scheduler are classes. Their methods
  update fields in place and carry `modifies` frames.
- The observer fan-out (`update_observers`) is one loop shared by all queues.
- The queue kinds are the variants of one datatype, `Discipline`, which stands for the abstract queue
  interface.
- Each queue also keeps a ghost log of the notices it broadcast. The FIFO queue also keeps the
  sequences of packets admitted and served.
- The scheduler's correctness argument is a ghost ledger, `Books`. It records each packet's stage
  (waiting, dropped, or serving on processor i since time t), the queued packets, and the job each
  processor serves. Every step of the event loop is proved to keep the objects in agreement with the
  ledger and the pending events (`Scheduler.Valid`).

The main results:

- **NPPS insertion.** The append-and-bubble loop computes `Insert`, which is sorted, a permutation,
  and FIFO within each class. Pop takes the oldest packet of the highest class present.
- **WRR pop.** It takes the head of the first non-empty child met scanning down from the cursor
  (`Chosen`). The cursor then keeps each child within its weight.
- **Observer delivery.** Each observer hears every notice once per registration, in order. A WRR
  notice reaches the child's observers first (with the child's length), then the composite's
  observers (with the composite's length).
- **Length observer.** Its buckets add up to the time of the last update, and the time-weighted
  length is the sum of length × time.
- **The run.** The packets created are exactly the arrivals before the horizon, in order. The loop
  terminates: each turn decreases a measure over pending arrivals, queued packets and pending events.
  The clock never goes back and no pending event is ever earlier than it, so events are applied in
  time order.
  It stops only once no event is left (for a positive horizon). At that point every packet is
  exactly one of dropped, started, or still queued, and no packet is ever both dropped and started.

## Model

| member | source | states |
|---|---|---|
| Packets.Packet.constructor | packet.py:10-17 | a new packet carries the given horizon, enter time, service time and priority, and has no processor, no start time and is not dropped |
| Packets.OrElse | packet.py:26 | Python's `or` on an optional time: a recorded non-zero time is kept, while `None` and a time of 0 (both falsy) give the fallback |
| Packets.Packet.EndTime | packet.py:19-22 | asked only of a started packet; with a non-negative service time the end is never before the start |
| Packets.Packet.WaitingTime | packet.py:24-26 | a packet started at a non-zero time waited start − arrival; one started at time 0 is charged up to the horizon instead |
| Packets.Packet.HasStarted | packet.py:31-33 | a packet with no start time has not started, and its waiting time runs from arrival to the horizon |
| Packets.CompletionSplits | packet.py:19-26 | for a packet started at a non-zero time, the end time is arrival + waiting time + service time, and the waiting time is start − arrival |
| Packets.ZeroStartCountsAsUnstarted | packet.py:24-33 | a packet started at time 0 has started, yet its waiting time runs to the horizon, because `or` treats a zero start as missing |
| Packets.UnstartedWaitIsPositive | packet.py:24-26 | a packet never started that arrived before the horizon has a positive waiting time |
| Observers.HistoryObserver.constructor | queue_observer.py:20-21 | a new history observer has heard nothing and holds no packet |
| Observers.HistoryObserver.Update | queue_observer.py:23-26 | the history grows by the notice's packet on ADD and is unchanged on POP; the history always equals the packets of the ADD notices heard |
| Observers.Credit | queue_observer.py:42-46 | crediting adds the key if missing (starting from 0), grows that key's time by the delta, and leaves every other key as it was |
| Observers.CreditTotal | queue_observer.py:42-46 | a credit grows the total time over all lengths by exactly the delta |
| Observers.CreditWeighted | queue_observer.py:42-46 | a credit grows the length-weighted sum by length × delta |
| Observers.LengthObserver.constructor | queue_observer.py:38-40 | a new length observer has an empty map and last update time 0 |
| Observers.LengthObserver.SafeAdd | queue_observer.py:42-46 | the map becomes `Credit` of the old map, whether or not the length was present |
| Observers.LengthObserver.HandleAdd | queue_observer.py:48-49 | after an ADD, the elapsed time is credited to the length before the addition (new length − 1) |
| Observers.LengthObserver.HandlePop | queue_observer.py:51-52 | after a POP, the elapsed time is credited to new length + 1 |
| Observers.LengthObserver.Update | queue_observer.py:54-63 | the elapsed time since the last update goes to the right bucket for ADD or POP, the last update time becomes the notice's time, and the map stays the fold of all notices heard |
| Observers.LengthObserver.GetTimeWeightedLength | queue_observer.py:65-69 | the loop returns the sum over the map of length × time |
| Observers.BucketsTelescope | queue_observer.py:54-63 | the times in the buckets add up to the time of the last notice |
| Observers.BucketsNonNegative | queue_observer.py:54-63 | with non-negative times that never decrease, no bucket holds a negative time |
| Observers.WeightedLengthNonNegative | queue_observer.py:65-69 | over non-negative lengths and times, the time-weighted length is not negative |
| Observers.LengthObserverTotal | queue_observer.py:54-63 | for a length observer, the bucket times add up to its last update time |
| Observers.Observer.Update | queue_observer.py:14-16 | either kind of observer appends the notice to what it has heard and stays consistent |
| QueueBase.NotifyOne | customqueue.py:62-63 | one observer call: exactly the observers sharing that object hear the notice once more |
| QueueBase.Notify | customqueue.py:61-63 | every listed observer hears the notice once per time its object is registered, appended to its own log; a duplicated registration hears it twice. The order in which different observers are called is the loop's and is not part of the contract |
| QueueBase.Broadcast | customqueue.py:61-63 | seen from any list of observers, each one's log grows by the notice once per registration in the broadcasting list; others are unchanged |
| QueueBase.Logged | customqueue.py:61-63 | a delivery to one list, with every other observer untouched, is a step for any list of observers |
| QueueBase.StepsInTurn | customqueue.py:128-132 | two broadcasts in turn (the child's, then the composite's) give each observer both notices in that order, once per registration in each list |
| QueueBase.SilentStep | customqueue.py:95-97 | a refused or empty operation notifies nobody: no observer's log changes |
| FifoQueues.FifoQueue.constructor | customqueue.py:90-93 | a new FIFO queue is empty, has no observers and keeps the given limit |
| FifoQueues.FifoQueue.Length | customqueue.py:84-85 | the length is the number of packets admitted minus the number served, and never exceeds a non-negative limit |
| FifoQueues.FifoQueue.Empty | customqueue.py:107-108 | empty exactly when the length is 0, that is, exactly when every admitted packet has been served |
| FifoQueues.FifoQueue.RegisterObserver | customqueue.py:58-59 | the observer list is replaced by the given one |
| FifoQueues.FifoQueue.AddPacket | customqueue.py:95-99 | admits iff the length is below the limit, appending the packet at the tail; an admitted packet's ADD notice carries the new length and reaches every observer; a refused one changes nothing and notifies nobody |
| FifoQueues.FifoQueue.Enqueue | customqueue.py:98-99 | the append and its ADD broadcast, keeping admitted = served + queued |
| FifoQueues.FifoQueue.Pop | customqueue.py:101-105 | empty: None and no notice; otherwise returns the head and removes it, after a POP notice carrying the length before removal |
| FifoQueues.FifoQueue.Dequeue | customqueue.py:104-105 | the POP broadcast, then the removal of the head |
| FifoQueues.ServedInAdmissionOrder | customqueue.py:95-105 | packets leave in exactly the order they were admitted, and the queue holds the admitted packets not yet served, in order |
| NppsQueues.InsertPosSpec | customqueue.py:179-182 | the bubble stops right behind the last packet whose priority is at least the new packet's; everything behind is of lower priority |
| NppsQueues.InsertPosUnique | customqueue.py:179-182 | that stopping place is the only position with this property |
| NppsQueues.InsertIndex | customqueue.py:178-182 | the new packet lands at the stopping position; the packets before it stay, and the packets after it shift back by one |
| NppsQueues.InsertSorted | customqueue.py:175-183 | inserting into a queue sorted by decreasing priority keeps it sorted |
| NppsQueues.InsertContents | customqueue.py:175-183 | insertion adds exactly the new packet (multiset) |
| NppsQueues.InsertPerClass | customqueue.py:175-183 | within each priority class, the new packet joins at the tail and no other order changes |
| NppsQueues.HeadIsFirstOfHighest | customqueue.py:185-189 | in a sorted queue the head has the highest priority present and is the oldest of its class |
| NppsQueues.HeadLeavesOwnClass | customqueue.py:185-189 | removing the head removes only the first packet of its own class |
| NppsQueues.PerClassFifoAdd | customqueue.py:175-183 | an admission keeps each class's admitted packets equal to served then queued |
| NppsQueues.PerClassFifoPop | customqueue.py:185-189 | a removal keeps each class's admitted packets equal to served then queued |
| NppsQueues.AppendAndBubble | customqueue.py:178-182 | the append-then-swap loop computes exactly `Insert` |
| NppsQueues.NppsQueue.constructor | customqueue.py:170-173 | a new NPPS queue is empty, has no observers and keeps the given limit |
| NppsQueues.NppsQueue.Length | customqueue.py:164-165 | the length never exceeds a non-negative limit |
| NppsQueues.NppsQueue.Empty | customqueue.py:191-192 | empty exactly when the length is 0 |
| NppsQueues.NppsQueue.RegisterObserver | customqueue.py:58-59 | the observer list is replaced by the given one |
| NppsQueues.NppsQueue.AddPacket | customqueue.py:175-183 | refuses iff the length equals the limit (so a negative limit never refuses); otherwise the queue becomes `Insert`, and the ADD notice with the new length reaches every observer once per registration |
| NppsQueues.NppsQueue.Admit | customqueue.py:178-183 | the sorted queue is installed and its ADD notice delivered, keeping sortedness and per-class order |
| NppsQueues.NppsQueue.Pop | customqueue.py:185-189 | empty: None and no notice; otherwise a POP notice with the length before removal reaches every observer, and the head is removed and returned |
| WrrQueues.DownValue | customqueue.py:150-152 | Python's `(i - 1) % n` is the previous index, wrapping from 0 to n − 1 |
| WrrQueues.ScanSpec | customqueue.py:140-148 | scanning down from the cursor stops at the first non-empty child met, or after the allowed number of moves |
| WrrQueues.ChosenIsFirstNonEmpty | customqueue.py:137-148 | when some child holds a packet, the pop takes from the first non-empty child met scanning down from the cursor, within one turn |
| WrrQueues.CursorKeepsQuota | customqueue.py:143-145 | after a pop the cursor is on a child, the count stays below that child's positive weight, and the pop that fills the quota moves the cursor on and clears the count |
| WrrQueues.TotalLengthZero | customqueue.py:154-155 | the composite holds nothing iff every child is empty |
| WrrQueues.TotalLengthUpdate | customqueue.py:115-116 | changing one child changes the composite's length by that child's change |
| WrrQueues.TotalLengthBound | customqueue.py:115-116 | no child holds more packets than all the children together |
| WrrQueues.WrrQueue.constructor | customqueue.py:121-126 | the cursor starts on the last child with a zero count; no observers |
| WrrQueues.WrrQueue.Length | customqueue.py:115-116 | the composite's length, the sum of the children's lengths, is the number of packets held over all children |
| WrrQueues.WrrQueue.Empty | customqueue.py:154-155 | every child empty holds exactly when the composite's length is 0 |
| WrrQueues.WrrQueue.RegisterObserver | customqueue.py:58-59 | the composite's observer list is replaced by the given one |
| WrrQueues.WrrQueue.PacketQueue | customqueue.py:134-135 | a packet's child is one of the children, the one indexed by its priority |
| WrrQueues.WrrQueue.NextQueue | customqueue.py:150-152 | the cursor moves one child down, wrapping around, and the count is cleared |
| WrrQueues.WrrQueue.AddPacket | customqueue.py:128-132 | admits iff the packet's child is below its limit; the packet is appended to that child only. The child's observers hear ADD with the child's new length, then the composite's observers hear ADD with the composite's new length. Only that child's log grows; a refusal notifies nobody |
| WrrQueues.WrrQueue.Route | customqueue.py:129-130 | the child of the packet's priority admits or refuses it; no other child changes |
| WrrQueues.WrrQueue.Announce | customqueue.py:131 | the composite's notice reaches its observers, one step for any surrounding list |
| WrrQueues.WrrQueue.Pop | customqueue.py:137-147 | empty: None, with cursor, counter and log unchanged; its frame then holds no child and no observer object, so nobody, on any child or on the composite, is notified. Otherwise its frame is `ChildFrame` of the chosen child, so the other children, and the observers registered only with them, are untouched. It it returns the head of the chosen child, removes only that head, and updates the cursor as `CursorAfterPop`. The child's observers hear POP with the child's length before removal, then the composite's observers hear POP with the composite's new length |
| WrrQueues.WrrQueue.Serve | customqueue.py:140-147 | the pop of a non-empty composite: the scan, then the pop proper, with the same results, changing nothing outside the chosen child and the observers it and the composite notify |
| WrrQueues.WrrQueue.Seek | customqueue.py:140-148 | the scan leaves the cursor on the chosen child, resetting the count on each move; contents and logs are untouched |
| WrrQueues.WrrQueue.Rewind | customqueue.py:140-148 | the scanning loop stops on `Chosen` of the cursor it started from |
| WrrQueues.WrrQueue.Take | customqueue.py:141-147 | the pop proper, from child `k`: the head is removed, counted, and both notices are delivered in turn |
| WrrQueues.WrrQueue.Pick | customqueue.py:141-143 | the chosen child pops its head, and its observers hear POP with the child's length |
| WrrQueues.WrrQueue.Extract | customqueue.py:142 | the child's pop, seen from the child's and the composite's observers |
| WrrQueues.WrrQueue.Count | customqueue.py:143-145 | the pop is counted, and the cursor moves on once the weight is reached |
| WrrQueues.WrrQueue.Tally | customqueue.py:143-145 | the count and cursor update equal `CursorAfterPop` |
| Disciplines.Discipline.Length | customqueue.py:37-39 | on every queue kind, the length is the number of packets held |
| Disciplines.Discipline.Empty | customqueue.py:31-35 | on every queue kind, empty exactly when no packet is held |
| Disciplines.Discipline.AddPacket | customqueue.py:14-21 | on any queue kind, the packet is added exactly when the result is true, and the length grows by one exactly then |
| Disciplines.Discipline.Pop | customqueue.py:23-29 | on any queue kind, None exactly when the queue was empty; otherwise exactly the returned packet leaves and the length drops by one |
| Events.EventSet.constructor | scheduler.py:25-26 | a new event store is empty |
| Events.EventSet.AddEvent | scheduler.py:28-29 | the event joins the store |
| Events.SomeEarliest | scheduler.py:31-35 | every non-empty collection of events has one of least time |
| Events.EventSet.Empty | scheduler.py:37-38 | empty exactly when no event is stored; otherwise an event of least time is there for `pop` and `top` |
| Events.EventSet.MinIndex | scheduler.py:31-35 | finds an event of least time |
| Events.EventSet.Top | scheduler.py:34-35 | returns an event of least time, removing nothing |
| Events.EventSet.Pop | scheduler.py:31-32 | returns an event of least time, and the store loses exactly that event |
| Scheduling.BusyTimeNonNegative | scheduler.py:51-54 | spans that never end before they start add up to a non-negative busy time |
| Scheduling.Processor.constructor | scheduler.py:42-45 | a new processor is idle with an empty account |
| Scheduling.Processor.SetIsBusy | scheduler.py:47-49 | the processor becomes busy from the given time; the account is unchanged |
| Scheduling.Processor.ResetIsBusy | scheduler.py:51-54 | the account grows by release − start (never shrinking when release ≥ start), the span is recorded, and the processor becomes idle with no start time |
| Scheduling.MakeProcessors | scheduler.py:70 | n distinct fresh idle processors |
| Scheduling.Arrivals | scheduler.py:83-96 | every arrival is before the horizon |
| Scheduling.ArrivalsAscend | scheduler.py:83-96 | with positive gaps, arrivals come strictly after the start and in strictly increasing time |
| Scheduling.ArrivalsNotBefore | scheduler.py:84-88 | with gaps that are never negative, no arrival is earlier than the time creation starts from |
| Scheduling.ArrivalsDrawn | scheduler.py:89-94 | each arrival carries one of the draws |
| Scheduling.ArrivalsStep | scheduler.py:85-96 | one loop step: the next draw yields an arrival exactly when its time stays below the horizon |
| Scheduling.Opening | scheduler.py:68-75 | a fresh scheduler's ledger has n processors, all idle |
| Scheduling.CreateKeeps | scheduler.py:89-96 | creating a packet with its SPAWN event keeps the ledger consistent with the pending events |
| Scheduling.CreateAllKeeps | scheduler.py:83-96 | creating distinct new packets, all before the horizon, keeps the ledger consistent |
| Scheduling.ArriveKeeps | scheduler.py:108-111 | applying an arrival, admitted or dropped, keeps the ledger consistent |
| Scheduling.CompleteKeeps | scheduler.py:112-113 | a completion event is for the job its processor serves, at start + service; idling that processor keeps the ledger consistent |
| Scheduling.DiscardKeeps | scheduler.py:116-118 | discarding an event past the horizon (always a completion) keeps the ledger consistent |
| Scheduling.StartKeeps | scheduler.py:126-131 | dispatching a queued packet to an idle processor with its DONE event keeps the ledger consistent |
| Scheduling.AfterEarliest | scheduler.py:115-116 | once an earliest event is popped, every event left is at or after its time |
| Scheduling.SpawnsNotBefore | scheduler.py:95 | SPAWN events for packets arriving at or after a time keep every pending event at or after that time |
| Scheduling.DonesNotBefore | scheduler.py:129-131 | DONE events at start + a non-negative service time keep every pending event at or after the start |
| Scheduling.FilledCount | scheduler.py:123-133 | when the scan ends, the k-th idle processor got the k-th packet, and min(queue length, idle count) packets were handed out |
| Scheduling.Settled | scheduler.py:98-105 | with no event pending, a packet waits exactly when it is queued |
| Scheduling.Shrinks | scheduler.py:98-105 | each loop turn strictly decreases 3·(pending arrivals) + 2·(queued) + (pending events) |
| Scheduling.Scheduler.constructor | scheduler.py:58-75 | the scheduler holds the given queue and horizon, distinct idle fresh processors, no packets and no events |
| Scheduling.Scheduler.Opened | scheduler.py:58-75 | a freshly built scheduler agrees with the opening ledger, has no event before time 0, and holds no packet the queue cannot take |
| Scheduling.Scheduler.CreatePackets | scheduler.py:83-96 | the loop appends one fresh packet per arrival before the horizon, in order, each carrying its drawn data, undispatched and not dropped, with one SPAWN event at its enter time |
| Scheduling.Scheduler.MakePackets | scheduler.py:83-96 | the packets created are new to the ledger, before the horizon, and waiting; each carries the priority, service time and enter time of its arrival, and one SPAWN event per packet joins the store |
| Scheduling.Scheduler.Entered | scheduler.py:83-96 | after creation the scheduler agrees with the ledger extended by the new waiting packets |
| Scheduling.Scheduler.Populate | scheduler.py:99 | packet creation keeps the scheduler valid and every packet routable with a non-negative service time; with draws that are never negative, no event is added before time 0 |
| Scheduling.Scheduler.ServableCreated | scheduler.py:89-94 | packets built from routable draws with non-negative service times are routable and have non-negative service times |
| Scheduling.Scheduler.Run | scheduler.py:98-105 | creation, then the loop; the packets are exactly the arrivals before the horizon; the clock starts at 0 and never goes back, so events are applied in time order, and no event is left before time 0 for a later run; the run ends with no event left (positive horizon), each packet then dropped, started or still queued, and only one of these |
| Scheduling.Scheduler.Drain | scheduler.py:100-105 | the loop keeps the scheduler valid and leaves no event before time 0; it exits only when no event is left (positive horizon), and every packet then has its outcome |
| Scheduling.Scheduler.Loop | scheduler.py:100-105 | the `while` terminates on the measure `Remaining`; the clock starts at 0 and never goes back, no pending event is ever earlier than the clock, and the loop exits only when no event is left (positive horizon) |
| Scheduling.Scheduler.Turn | scheduler.py:101-105 | one turn keeps the scheduler valid and strictly decreases `Remaining`; the clock never goes back and, when it moves, stays below the horizon; no pending event is earlier than the new clock, so events are applied in time order |
| Scheduling.Scheduler.DrawEvents | scheduler.py:115-121 | pops an event of least time. It yields that event iff its time is before the horizon; a discarded event is always a completion. No second event joins the batch |
| Scheduling.Scheduler.ApplyEvent | scheduler.py:107-113 | an arrival is admitted by the queue or marked dropped, and the ledger moves by `Arrive`; a completion idles exactly the packet's processor, and the ledger moves by `Complete` |
| Scheduling.Scheduler.Arrival | scheduler.py:108-111 | an admitted packet is queued and untouched; a refused one is marked dropped and the queue is unchanged |
| Scheduling.Scheduler.Admit | scheduler.py:108-111 | the packet is dropped exactly when the queue refused it; the scheduler stays valid |
| Scheduling.Scheduler.Release | scheduler.py:112-113 | the completing packet's processor index names a processor; that one goes from busy to idle, its account grows by the service time, and the others are unchanged |
| Scheduling.Scheduler.FillProcessors | scheduler.py:123-133 | the k-th idle processor, in index order, gets the k-th packet popped, stamped with its index and start time, with a DONE event at start + service. Min(queue length, idle count) packets are handed out; afterwards the queue is empty or every processor is busy |
| Scheduling.Scheduler.StartedServable | scheduler.py:127-131 | every packet handed to a processor has a non-negative service time |
| Scheduling.Scheduler.Scan | scheduler.py:124-133 | the loop over processors stops after the last processor or when the queue empties |
| Scheduling.Scheduler.Visit | scheduler.py:126-133 | an idle processor gets a packet, and a busy one is passed over |
| Scheduling.Scheduler.Dispatch | scheduler.py:126-131 | a queued waiting packet leaves the queue, starts on processor i now, and its DONE event is added |
| Scheduling.Scheduler.Handover | scheduler.py:127-131 | pop, stamp, busy, event, with every other packet untouched |
| Scheduling.Scheduler.TakeHead | scheduler.py:127 | the queue yields one of its packets and loses exactly it; nothing else changes |
| Scheduling.Scheduler.Stamp | scheduler.py:128-131 | the packet records processor and start, the processor turns busy from now, and a DONE event at start + service is added |
| Scheduling.Scheduler.Outcomes | scheduler.py:98-105 | with no event pending, each packet is dropped, started or still queued, and only one of these |
| Scheduling.Scheduler.NeverDroppedAndStarted | scheduler.py:107-133 | throughout the run, no packet is both dropped and started |

## Left out

- Floating-point arithmetic: times, rates and accounts are `real`, so rounding is not modelled.
- Events.EventSet.Pop: the heap layout of `heapq` is replaced by a sequence scanned for a least time. Among events of equal time, which one comes out is unspecified (also `Events.EventSet.Top`).
- Scheduling.Scheduler.CreatePackets: the random draws (`expovariate`, `random.choices` with `priority_probs`) become a `seq<Draw>`. Creation, and `Scheduling.Arrivals`, also stop when the draws run out; the source draws until the clock passes the horizon (scheduler.py:85). The rates and `priority_probs` are therefore not fields of the model.
- Packets.Packet.EndTime: the `assert has_started` becomes `requires HasStarted()`; the assertion failure is not modelled.
- Scheduling.Processor.ResetIsBusy: requires a recorded start time. The source would raise a `TypeError` on `None` there; the scheduler only releases busy processors.
- WrrQueues.WrrQueue.constructor: requires at least as many weights as children, and distinct children. The source indexes `weights` by child, and a child listed twice would share its state.
- Scheduling.Scheduler.DrawEvents: the inner `while` of `_draw_events` compares the next event's time with the drawn event object itself, which Python never finds equal. It is modelled as a branch proved dead, so each turn applies exactly one event.
- Scheduling.Scheduler.constructor: requires a valid, empty queue. The source accepts any queue, but a queue already holding packets is not modelled: the ledger that proves the run correct has no record of such packets.
- Scheduling.Scheduler.Run: the queue must be able to route every drawn priority (a WRR needs a child per drawn priority); otherwise the source raises `IndexError`, which is not modelled.
- Scheduling.Scheduler.Run: also requires that no draw is negative (`expovariate` never returns a negative value) and that no event is pending before time 0, as holds for a fresh scheduler (`Opened`) and after a run. Negative intervals or service times, which could move the clock back, are not modelled.
- Observers.BucketsNonNegative: its premise, notices whose times never decrease, is not proved for the notices the observers receive during a run. The ledger `Scheduler.Valid` does not cover the observers, so the run's time order is stated for the clock and the pending events only.
- `Packet.__str__`, the queues' `__str__` and `get_all_subqueues` are not modelled: they only format or expose objects.
- `QueueHistoryObserver.get_all_historical_packets` is the history field itself. `get_average_waiting_time` is not modelled: it divides floats, and fails on an empty history.
- stats.py is not part of this model. It aggregates results after the run.
