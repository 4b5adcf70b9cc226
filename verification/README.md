# kube-queue in Dafny

kube-queue admits batch jobs, called QueueUnits, against a resource quota per namespace. This
project models the part of it that decides: the keyed heap, the quota ledger and its filter,
the two-heap scheduling queue with exponential backoff, one scheduling pass, and the admission
protocol in which the scheduler loop, the dequeue goroutines, the backoff flusher and two event
handlers interleave. `dafny verify dfyconfig.toml` checks everything.

## How the project is laid out

| file | contents |
|---|---|
| `Orders.dfy`, `Units.dfy`, `Priority.dfy` | strict weak orders; QueueUnit, Queue and QueueUnitInfo; the two comparators |
| `HeapOrder.dfy`, `KeyedHeap.dfy` | what one sift step does to heap order; the class `Heap` |
| `Backoff.dfy` | the doubling loop over int64 nanoseconds |
| `QueueSpec.dfy`, `SchedulingQueue.dfy` | the two maps a scheduling queue stands for; the class `SchedulingQueue` |
| `MultiSchedulingQueue.dfy` | `SortedQueue` |
| `QuotaLedger.dfy` | the class `ResourceQuota`, exactness of its totals, admission |
| `Scheduler.dfy` | the class `Scheduler`: one pass without interleaving |
| `Admission.dfy` | the protocol: configuration, state, steps, runs |
| `AdmissionPlaces.dfy`, `AdmissionTokens.dfy` | where a unit can be, what each step moves, one add event per unit |
| `AdmissionVisits.dfy`, `AdmissionPasses.dfy`, `AdmissionRefinement.dfy` | the sequential visit and pass as runs of the protocol, and the loop's own runs as sequential visits |
| `AdmissionLedger.dfy`, `AdmissionQuota.dfy` | which keys are recorded, the totals, and what Filter's checks are still worth when Reserve runs |
| `AdmissionHistory.dfy`, `AdmissionProgress.dfy` | changes in place, the age of an info, no unit lost |
| `AdmissionTheorems.dfy` | the results over every run |
| `AdmissionBackoff.dfy`, `AdmissionErrors.dfy` | backoff is honoured in every run; what ErrorFunc leaves of an info |
| `AdmissionNews.dfy`, `AdmissionRecords.dfy` | what the handlers hear and the heaps make of it; what the steps leave on record |
| `AdmissionRestart.dfy`, `AdmissionSources.dfy`, `AdmissionOvershoot.dfy` | quota safety across a restart, and exactly when it holds |
| `AdmissionEnabled.dfy` | nothing gets stuck |
| `AdmissionLosses.dfy`, `AdmissionStray.dfy`, `AdmissionCapture.dfy`, `AdmissionDequeue.dfy` | how the scheduler loses a unit, how a unit gets into another namespace's queue and into which a goroutine returns it, and which units can be dequeued |

The heap, the queue, the ledger and the scheduler are classes whose methods are specified by
functions on maps (`QueueSpec`, `AfterReserve`, `AfterUnreserve`, `Visit`); the lemmas are about
those functions. In the classes a heap stores its objects as values. In the protocol the unit
infos are objects in a store and the heaps, the scheduler and the goroutines hold references, so
that a change through one reference is seen through all; that heaps are not disturbed by such
changes is a theorem (`MutationKeepsHeapOrder`).

## What the model takes for granted

- Quantities and quotas are integers, and non-negative in the protocol. Negative ones break the
  ledger: `UnreserveExactIff` says exactly when, `NegativeQuantityBreaksExactness` is an example.
- In the protocol a unit's namespace is its consumer's namespace. Reserve charges the first and
  Filter checks the second; `AdmissionSafeIff` says exactly when that matters.
- A unit's resources do not change (doc/queueunit.md, line 87), names are not reused, only the
  scheduler sets the Dequeued phase, and a Dequeued unit stays Dequeued until it is deleted
  (doc/queueunit.md, line 89). A namespace contains no '/' (`KeyInjective`).
- A failed API call has no effect, and a successful Dequeue reads and writes the unit in one
  step. Each event handler gets every event, in order; the two handlers are independent. An
  update that crosses a phase filter arrives as an add or a delete, as client-go's
  FilteringResourceEventHandler delivers it.
- Each locked method is one step. Filter's reads of the ledger are separate steps. Length and
  Pop at pkg/scheduler/scheduler.go, lines 64-65, are one step.
- A goroutine whose Dequeue failed reads the loop variable `q`, which all iterations of its pass
  share under Go 1.14. It returns its unit to a queue that variable has held since the goroutine
  was started: the one being visited then, or one the same pass has got to since.
- A flush happens at one moment of the protocol's clock, that of its last reading; it then moves
  exactly the entries that are done (`FlushMovesExactly`).
- The set of queues and the hard limits do not change during a run.
- doc/queueunit.md describes phases Enqueued, ScheduleSucced and ScheduleFailed that the code never
  sets. The model follows the code: every phase other than Dequeued counts as queued.
- The sift loops are those of Go's container/heap, and the sort is an insertion sort standing
  for sort.Slice, of which only order and permutation are claimed. NewQueueUnitInfo's two clock
  readings are one. Adding a duration to a time does not overflow.

## What was found

- Quota safety holds over every run that starts with nothing dequeued. After a restart it can fail:
  nothing makes the first pass wait for the units that are Dequeued already. `QuotaSafeIff` says for
  which configurations no run exceeds a limit: exactly those in which every set of new units that
  fits into the quota also fits beside all the units from before the start. `QuotaSafety` bounds the
  excess by what is recorded of those, `QuotaRecovers` says that it ends with them, and
  `RestartSafety` that passes which wait for them are safe.
- An enqueued unit whose namespace has a queue is lost when ErrorFunc's lookup fails, whatever the
  reason, and in no other way (`NoUnitLostIff`); every such unit can be lost (`AnyUnitCanBeLost`).
- A goroutine can return its unit to another namespace's queue, where the unit's own events do not
  find it. `StrayIff` says which unit can get into which queue: exactly one that can be admitted on
  its own, into any queue of no higher priority than its own, and it can stay there after it is
  deleted. `StrayBeginsIff` and `DeleteMissesIff` say at which steps.
- Failing and backing off keeps a unit's seniority (`RetryKeepsSeniority`); an update event sends
  it behind every earlier unit of equal priority (`UpdateLosesSeniority`).
- A unit that has failed is not active before its backoff is over (`BackoffIsHonoured`), and each return
  to a backoff heap counts exactly one failure more (`ReturnIsOneFailure`). An update event forgets the
  failures: it starts again with the initial duration (`UpdateThenFlush`).
- The backoff loop overflows for some durations of 2^62 ns and more, whole seconds among them;
  `ClosedFormIff` gives the exact set.
- Add does not look at the backoff heap and Delete looks in one heap only; `StepDisjointIff` and
  `DeleteGoneIff` say exactly when that shows.

## Model

| member | source | states |
|---|---|---|
| `Units.KeyInjective` | pkg/framework/plugins/resourcequota/resource_quota.go:59-61 | Without '/' in namespaces, two units have the same key exactly when namespace and name agree |
| `Units.KeyCollision` | pkg/framework/plugins/resourcequota/resource_quota.go:59-61 | With '/' in a namespace two different units can share a key |
| `Priority.OrdersAreStrictWeak` | pkg/framework/plugins/priority/priority.go:38-60 | Both comparators, with missing priorities counted as 0, are strict weak orders |
| `Priority.LargerGoesFirst` | pkg/framework/plugins/priority/priority.go:38-60 | QueueLess puts the larger priority first and the earlier of two equals; MultiQueueLess holds exactly for the larger priority |
| `Priority.MissingIsZero` | pkg/framework/plugins/priority/priority.go:38-60 | Of two present priorities the larger integer goes first, and putting 0 for a missing one changes neither comparator |
| `Backoff.Doubled` | pkg/queue/schedulingqueue/priority_scheduling_queue.go:245 | The int64 product is the true double exactly in the half range, and an int64 always |
| `Backoff.CalculateBackoffDuration` | pkg/queue/schedulingqueue/priority_scheduling_queue.go:242-251 | The loop, early return and wrap-around included, computes BackoffDuration |
| `Backoff.RoundsClosedForm` | pkg/queue/schedulingqueue/priority_scheduling_queue.go:242-251 | Without overflow, k doublings give min(max, d * 2^k), and d itself for k = 0 |
| `Backoff.OverflowWitness` | pkg/queue/schedulingqueue/priority_scheduling_queue.go:242-251 | Whenever the durations admit overflow, some number of attempts yields a negative duration |
| `Backoff.ClosedFormIff` | pkg/queue/schedulingqueue/priority_scheduling_queue.go:242-251 | initial, then min(max, initial * 2^(attempts-1)), for every attempt count, if and only if no doubling that is reached overflows |
| `Backoff.SmallDurationsNeverOverflow` | pkg/queue/schedulingqueue/priority_scheduling_queue.go:242-251 | Durations below 2^62 ns satisfy that condition |
| `Backoff.OverflowExample` | pkg/queue/schedulingqueue/priority_scheduling_queue.go:70-71 | 4611686019 s initial and 9223372036 s max, durations the constructor can produce, give a negative duration on the second attempt |
| `Backoff.RoundsBounded` | pkg/queue/schedulingqueue/priority_scheduling_queue.go:242-251 | Overflow or not, no duration exceeds the larger of initial and max |
| `Backoff.BackoffMonotoneIff` | pkg/queue/schedulingqueue/priority_scheduling_queue.go:242-251 | The duration never falls as attempts grow if and only if initial is at most max and no doubling that is reached overflows |
| `Backoff.BackoffLessIsStrictWeak` | pkg/queue/schedulingqueue/priority_scheduling_queue.go:253-259 | Comparing backoff completion times is a strict weak order |
| `Backoff.StillBackingOff` | pkg/queue/schedulingqueue/priority_scheduling_queue.go:234-238 | An entry not done at t was stamped later than t minus the larger duration |
| `HeapOrder.ReplaceMakesHole` | pkg/queue/heap/heap.go:139-141 | Replacing any object of an ordered layout by one of any rank leaves one hole that Fix can close |
| `HeapOrder.SiftUpStep` | pkg/queue/heap/heap.go:143 | A sift-up swap moves the only broken edge to the parent |
| `HeapOrder.SiftDownStep` | pkg/queue/heap/heap.go:141 | A sift-down swap with the picked child moves the only broken node to that child |
| `HeapOrder.SiftDownDone` | pkg/queue/heap/heap.go:141 | A sift-down that moved leaves heap order; one that did not leaves a sift-up's start |
| `HeapOrder.RootIsLeast` | pkg/queue/heap/heap.go:117-122 | In heap order no object is less than the root |
| `KeyedHeap.IndexedSize` | pkg/queue/heap/heap.go:222-224 | The slice is as long as the map is large |
| `KeyedHeap.SwapKeepsIndex` | pkg/queue/heap/heap.go:87-93 | Swap keeps "queue[i] = k iff items[k].index = i" and the stored map, and exchanges two objects |
| `KeyedHeap.PushKeepsIndex` | pkg/queue/heap/heap.go:96-101 | Push keeps the bijection and adds one key to the map |
| `KeyedHeap.PopKeepsIndex` | pkg/queue/heap/heap.go:104-114 | Pop keeps the bijection and removes the last slot's key from the map |
| `KeyedHeap.LeastAtRoot` | pkg/queue/heap/heap.go:117-122 | Slot 0 holds an object no stored object is less than, unless the map is empty |
| `KeyedHeap.Heap.constructor` | pkg/queue/heap/heap.go:232-241 | A new heap is empty and valid |
| `KeyedHeap.Heap.Swap` | pkg/queue/heap/heap.go:87-93 | Exchanges two slots, keeps the bijection and the map |
| `KeyedHeap.Heap.PushLast` | pkg/queue/heap/heap.go:96-101 | Appends one object under a new key |
| `KeyedHeap.Heap.PopLast` | pkg/queue/heap/heap.go:104-114 | Removes and returns the last slot's object |
| `KeyedHeap.Heap.Up` | pkg/queue/heap/heap.go:143 | From one broken edge to heap order, same map |
| `KeyedHeap.Heap.Down` | pkg/queue/heap/heap.go:141 | From one hole to heap order if anything moved, else to a sift-up's start; same map |
| `KeyedHeap.Heap.Sift` | pkg/queue/heap/heap.go:174 | Down, then Up if nothing moved, closes any one hole among the first n slots and leaves slot n alone |
| `KeyedHeap.Heap.Fix` | pkg/queue/heap/heap.go:141 | Restores order after an object is replaced by any other, same map |
| `KeyedHeap.Heap.Remove` | pkg/queue/heap/heap.go:174 | Removes the object at any index, keeps order and bijection |
| `KeyedHeap.Heap.Add` | pkg/queue/heap/heap.go:134-146 | Acts as map update on new and present keys, keeps order and bijection; key errors change nothing |
| `KeyedHeap.Heap.AddIfNotPresent` | pkg/queue/heap/heap.go:150-159 | Acts as map update on new keys only |
| `KeyedHeap.Heap.Update` | pkg/queue/heap/heap.go:163-165 | Acts as map update |
| `KeyedHeap.Heap.Delete` | pkg/queue/heap/heap.go:168-178 | Acts as map removal, reports an absent key, keeps order and bijection |
| `KeyedHeap.Heap.Peek` | pkg/queue/heap/heap.go:181-183 | A stored object no stored object is less than, nothing exactly when the map is empty |
| `KeyedHeap.Heap.Pop` | pkg/queue/heap/heap.go:186-192 | Removes and returns a stored object no stored object is less than |
| `KeyedHeap.Heap.Get` | pkg/queue/heap/heap.go:195-201 | Map lookup under the object's key, or its key error |
| `KeyedHeap.Heap.GetByKey` | pkg/queue/heap/heap.go:204-210 | Map lookup |
| `KeyedHeap.Heap.List` | pkg/queue/heap/heap.go:213-219 | Every stored object exactly once |
| `KeyedHeap.Heap.Len` | pkg/queue/heap/heap.go:222-224 | The size of the map |
| `KeyedHeap.Drain` | pkg/queue/heap/heap_test.go:46-66 | Popping a valid heap empty yields each stored object exactly once, no later one less than an earlier one |
| `QueueSpec.StepDisjointIff` | pkg/queue/schedulingqueue/priority_scheduling_queue.go:99-174 | From disjoint heaps an operation keeps them disjoint unless it is an Add of a key that is backing off, and then it does not |
| `QueueSpec.DisjointForever` | pkg/queue/schedulingqueue/priority_scheduling_queue.go:99-231 | Active and backoff heaps stay key-disjoint under every sequence of operations without such an Add |
| `QueueSpec.DeleteGoneIff` | pkg/queue/schedulingqueue/priority_scheduling_queue.go:127-145 | Delete leaves the key in neither heap if and only if it was not in both, and touches no other key |
| `QueueSpec.FindAfter` | pkg/queue/schedulingqueue/priority_scheduling_queue.go:99-165 | What Add, AddUnschedulableIfNotPresent, Update and Delete leave to be found under every key |
| `QueueSpec.ActiveHeapFirst` | pkg/queue/schedulingqueue/priority_scheduling_queue.go:99-165 | Which heap each of them touches: Update and Delete the active one where the key is active |
| `QueueSpec.FlushPreservesContents` | pkg/queue/schedulingqueue/priority_scheduling_queue.go:206-231 | From disjoint heaps a flush preserves their combined contents and their disjointness |
| `QueueSpec.FlushConservesIff` | pkg/queue/schedulingqueue/priority_scheduling_queue.go:206-231 | In general a flush loses no entry if and only if no moved key was active |
| `SchedulingQueues.SchedulingQueue.constructor` | pkg/queue/schedulingqueue/priority_scheduling_queue.go:55-78 | Two empty, separate heaps with the two comparators |
| `SchedulingQueues.SchedulingQueue.Length` | pkg/queue/schedulingqueue/priority_scheduling_queue.go:196-198 | The number of active entries |
| `SchedulingQueues.SchedulingQueue.Add` | pkg/queue/schedulingqueue/priority_scheduling_queue.go:99-109 | The unit is active under a new info; the backoff heap is untouched |
| `SchedulingQueues.SchedulingQueue.AddUnschedulableIfNotPresent` | pkg/queue/schedulingqueue/priority_scheduling_queue.go:111-125 | Backs the info off unless its key is in either heap |
| `SchedulingQueues.SchedulingQueue.Delete` | pkg/queue/schedulingqueue/priority_scheduling_queue.go:127-145 | Removes the key from the active heap, else from the backoff heap |
| `SchedulingQueues.SchedulingQueue.Update` | pkg/queue/schedulingqueue/priority_scheduling_queue.go:147-165 | Replaces the info where the key is stored, active heap first, by a new one, whose fields `HandlerActsAsQueue` and `UpdateThenFlush` name |
| `SchedulingQueues.SchedulingQueue.Pop` | pkg/queue/schedulingqueue/priority_scheduling_queue.go:167-174 | Takes out an active info; no active info has a larger priority, a missing one being 0, or an equal one and an earlier first attempt |
| `SchedulingQueues.SchedulingQueue.PromoteTop` | pkg/queue/schedulingqueue/priority_scheduling_queue.go:220-229 | One flush round moves the backoff heap's top, and only it, to the active heap |
| `SchedulingQueues.SchedulingQueue.FlushBackoffQCompleted` | pkg/queue/schedulingqueue/priority_scheduling_queue.go:206-231 | Terminates; moves every entry done at the first clock reading and none not done at the last; the rest are not done at the last |
| `SchedulingQueues.SchedulingQueue.FlushOne` | pkg/queue/schedulingqueue/priority_scheduling_queue.go:209-230 | One turn of the loop either completes the flush or moves one more done entry and shrinks the backoff heap |
| `SchedulingQueues.FlushMovesExactly` | pkg/queue/schedulingqueue/priority_scheduling_queue.go:206-231 | However often it reads the clock, a finished flush has moved exactly the entries done at its last reading |
| `SchedulingQueues.FlushMovesOne` | pkg/queue/schedulingqueue/priority_scheduling_queue.go:215-229 | One more entry done at the next reading extends a flush by exactly that entry |
| `SchedulingQueues.FlushStops` | pkg/queue/schedulingqueue/priority_scheduling_queue.go:215-219 | If the least completion time is after a reading, so are all the others, and the flush is complete |
| `SchedulingQueues.BoundedBackoff` | pkg/queue/schedulingqueue/priority_scheduling_queue.go:206-251 | After a flush every entry left was stamped later than the last reading minus the larger of initial and max |
| `SchedulingQueues.UpdatedEntry` | pkg/queue/schedulingqueue/priority_scheduling_queue.go:147-165 | An updated unit that was backing off carries the unit given and is done the initial duration after the update |
| `SchedulingQueues.UpdateThenFlush` | pkg/queue/schedulingqueue/priority_scheduling_queue.go:147-231 | So the next flush makes it active if and only if its last clock reading is that late, and else leaves it backing off |
| `MultiSchedulingQueues.MultiSchedulingQueue.Collect` | pkg/queue/multischedulingqueue/multi_scheduling_queue.go:116-123 | Every queue of the map exactly once, in any order |
| `MultiSchedulingQueues.MultiSchedulingQueue.SortedQueue` | pkg/queue/multischedulingqueue/multi_scheduling_queue.go:112-130 | Every queue of the map exactly once, none later in the order having a larger priority than one before, a missing one being 0 |
| `MultiSchedulingQueues.SamePermutation` | pkg/queue/multischedulingqueue/multi_scheduling_queue.go:125-127 | A permutation of distinct queues has the same members, each once |
| `QuotaLedger.ResourceQuota.constructor` | pkg/framework/plugins/resourcequota/resource_quota.go:200-206 | Nothing is reserved or recorded |
| `QuotaLedger.ResourceQuota.Reserve` | pkg/framework/plugins/resourcequota/resource_quota.go:64-91 | For every iteration order: the pointwise sum is added and the key recorded, or the key was recorded and nothing changes |
| `QuotaLedger.ResourceQuota.Unreserve` | pkg/framework/plugins/resourcequota/resource_quota.go:94-125 | For every iteration order: the clamped pointwise difference, entries at zero or below dropped, and the early returns |
| `QuotaLedger.ResourceQuota.GetReservedByResourceName` | pkg/framework/plugins/resourcequota/resource_quota.go:129-144 | The total, 0 where there is no entry |
| `QuotaLedger.ResourceQuota.Filter` | pkg/framework/plugins/resourcequota/resource_quota.go:165-197 | For every iteration order: refuses without a hard limit, and else succeeds if and only if reserved plus requested is within the limit for every requested resource that has one |
| `QuotaLedger.ReserveExact` | pkg/framework/plugins/resourcequota/resource_quota.go:64-91 | Reserve keeps every total equal to the sum over the recorded units |
| `QuotaLedger.UnreserveExactIff` | pkg/framework/plugins/resourcequota/resource_quota.go:94-125 | With quantities of any sign, Unreserve keeps the totals exact if and only if no clamped or skipped entry loses anything |
| `QuotaLedger.UnreserveExact` | pkg/framework/plugins/resourcequota/resource_quota.go:94-125 | With non-negative quantities Unreserve keeps them exact |
| `QuotaLedger.NegativeQuantityBreaksExactness` | pkg/framework/plugins/resourcequota/resource_quota.go:115-119 | With a negative quantity the clamp makes a total wrong |
| `QuotaLedger.ExactForever` | pkg/framework/plugins/resourcequota/resource_quota.go:64-144 | After any sequence of Reserve and matching Unreserve calls each total is the sum over the recorded units, and each recorded unit's namespace has an entry |
| `QuotaLedger.AdmissionSafeIff` | pkg/framework/plugins/resourcequota/resource_quota.go:64-197 | From every ledger that matched calls can leave, Filter then Reserve stays within quota if and only if the two namespaces agree, or the unit never fits, or it charges nothing |
| `QuotaLedger.AdmissionUnsafe` | pkg/framework/plugins/resourcequota/resource_quota.go:64-197 | Whenever that condition fails, one other unit reserved first makes it go wrong |
| `QuotaLedger.SplitNamespacesBreakQuota` | pkg/framework/plugins/resourcequota/resource_quota.go:73-167 | With different namespaces a unit that passes Filter can exceed the quota Reserve charges, from a ledger that one Reserve leaves |
| `Schedulers.Scheduler.constructor` | pkg/scheduler/scheduler.go:39-46 | No goroutine has been started |
| `Schedulers.Scheduler.ErrorFunc` | pkg/scheduler/scheduler.go:118-131 | The info returns to the given queue's backoff heap, one attempt more and stamped now, unless the lookup fails or the key is queued |
| `Schedulers.Scheduler.Admit` | pkg/scheduler/scheduler.go:70-92 | Reserves and starts a goroutine exactly when Filter passes and the key is not recorded |
| `Schedulers.Scheduler.VisitQueue` | pkg/scheduler/scheduler.go:64-97 | One visit is exactly one of skipped, admitted, backed off, let go |
| `Schedulers.Scheduler.PassOver` | pkg/scheduler/scheduler.go:63-98 | Every queue is visited once, each with the ledger the earlier visits left and a lookup and clock reading of its own |
| `Schedulers.Scheduler.Plan` | pkg/scheduler/scheduler.go:62 | The order of a pass names every queue once, in non-increasing priority |
| `Schedulers.Scheduler.Schedule` | pkg/scheduler/scheduler.go:59-99 | A whole pass in that order; the goroutines started are those of the admitted units, in order |
| `Schedulers.VisitAccountsForUnit` | pkg/scheduler/scheduler.go:64-97 | A non-empty queue loses exactly one active unit, which is admitted and recorded, or backs off with one more attempt and its old seniority, or is gone |
| `Schedulers.VisitKeepsQuota` | pkg/scheduler/scheduler.go:70-92 | A visit keeps the ledger within quota |
| `Schedulers.PassKeepsQuota` | pkg/scheduler/scheduler.go:59-99 | So does a whole pass, after each of its visits |
| `Schedulers.RetriedFields` | pkg/scheduler/scheduler.go:118-127 | After n failures an info has n more attempts, the last failure's time and unit, and its first timestamp |
| `Schedulers.NthFailureBackoff` | pkg/queue/schedulingqueue/priority_scheduling_queue.go:234-251 | The n-th failure in a row of a new unit backs it off for initial doubled n - 1 times, capped |
| `AdmissionPlaces.SoundKeepsSingle` | pkg/scheduler/scheduler.go:63-98 | A step that brings in only absent units and moves only present ones keeps every key in at most one place |
| `AdmissionPlaces.DeliverEffect` | pkg/controller/eventhandler.go:121-180 | What a queued-side event does to every place: one arrival, one departure, or nothing |
| `AdmissionPlaces.FlushEffect` | pkg/queue/schedulingqueue/priority_scheduling_queue.go:206-231 | A flush moves exactly its entries from backoff to active |
| `AdmissionPlaces.LoopEffect` | pkg/scheduler/scheduler.go:59-99 | What each step of the loop moves, and that it moves nothing else |
| `AdmissionPlaces.FlightEffect` | pkg/scheduler/scheduler.go:81-92 | What each step of a goroutine moves, and that it moves nothing else |
| `AdmissionTokens.UserKeepsPlaced` | pkg/controller/eventhandler.go:30-69 | Creating, changing and deleting units keeps: references resolve, one place per key, one add event per key, units in a place never Dequeued |
| `AdmissionTokens.ControllerKeepsPlaced` | pkg/controller/eventhandler.go:121-180 | The handlers and the flush keep the same |
| `AdmissionTokens.LoopKeepsPlaced` | pkg/scheduler/scheduler.go:59-99 | The scheduler loop keeps the same |
| `AdmissionTokens.FlightKeepsPlaced` | pkg/scheduler/scheduler.go:81-92 | The goroutines keep the same |
| `AdmissionVisits.VisitRealised` | pkg/scheduler/scheduler.go:64-97 | Every outcome of a sequential visit is reached by steps of the protocol's loop, which change nothing else |
| `AdmissionPasses.PassRealised` | pkg/scheduler/scheduler.go:59-99 | So is every sequential pass, from StartPass to EndPass, with whatever users do and however the clock moves between its visits |
| `AdmissionPasses.InOrderIsSorted` | pkg/scheduler/scheduler.go:62-63 | The order of a sequential pass is one in which the protocol can start a pass |
| `AdmissionRefinement.LoopIsVisit` | pkg/scheduler/scheduler.go:64-97 | However the loop gets on its own from one visit to the next, it has visited the queue as the sequential scheduler does and changed nothing else |
| `AdmissionLedger.AdoptKeepsAccounted` | pkg/controller/eventhandler.go:137-141 | The add event of a unit Dequeued before the start reserves it, once |
| `AdmissionLedger.EchoChangesNothing` | pkg/controller/eventhandler.go:137-141 | Any other add event changes nothing but the queue of events |
| `AdmissionLedger.ReleaseKeepsAccounted` | pkg/controller/eventhandler.go:159-163 | A delete event finds its unit recorded and releases exactly it |
| `AdmissionLedger.ReserveNeverRefused` | pkg/framework/plugins/resourcequota/resource_quota.go:69-71 | The unit in the scheduler's hand is never recorded already |
| `AdmissionLedger.ReserveKeepsAccounted` | pkg/scheduler/scheduler.go:74-81 | Reserve records the unit for its flight and adds exactly its resources |
| `AdmissionLedger.DequeueKeepsAccounted` | pkg/scheduler/scheduler.go:101-116 | A successful Dequeue hands the record over to the Dequeued unit |
| `AdmissionLedger.UnreserveKeepsAccounted` | pkg/scheduler/scheduler.go:82-88 | A failed Dequeue releases exactly what its pass reserved |
| `AdmissionQuota.OthersKeepBudgeted` | pkg/framework/plugins/resourcequota/resource_quota.go:94-125 | A step of others that only gives quota back leaves every check Filter has made valid |
| `AdmissionQuota.CheckKeepsBudgeted` | pkg/framework/plugins/resourcequota/resource_quota.go:183-194 | One separately locked read extends what is checked |
| `AdmissionQuota.ReserveKeepsBudgeted` | pkg/scheduler/scheduler.go:72-81 | After all resources are checked, reserving them stays within the limits, whatever happened between |
| `AdmissionHistory.ChangedObjectsAreInNoHeap` | pkg/scheduler/scheduler.go:118-127 | An object whose fields a step changes is in no heap before or after it |
| `AdmissionHistory.LayoutStaysOrdered` | pkg/queue/heap/heap.go:67-80 | Any layout of any heap keeps its objects, and so its order under any comparator |
| `AdmissionHistory.PoppedIsSenior` | pkg/framework/plugins/priority/priority.go:49-60 | No unit left has a larger priority than the popped one, a missing one being 0, and among equals not updated it was first added earliest |
| `AdmissionHistory.UpdateSendsToBack` | pkg/queue/schedulingqueue/priority_scheduling_queue.go:147-157 | An updated unit goes before no active unit of equal priority, and behind each whose info is older |
| `AdmissionProgress.LoopKeepsServed` | pkg/scheduler/scheduler.go:59-99 | The loop keeps every enqueued unit that was not let go in some place or about to be added |
| `AdmissionProgress.FlightKeepsServed` | pkg/scheduler/scheduler.go:81-92 | So do the goroutines |
| `AdmissionProgress.ControllerKeepsServed` | pkg/controller/eventhandler.go:121-180 | So do the handlers and the flush |
| `AdmissionProgress.LoopKeepsGone` | pkg/scheduler/scheduler.go:118-125 | A unit that was let go is in no place and has no add event left |
| `AdmissionTheorems.NextKeepsInv` | pkg/scheduler/scheduler.go:59-131 | Every step of every participant keeps the whole invariant |
| `AdmissionTheorems.RunKeepsInv` | pkg/scheduler/scheduler.go:59-131 | The invariant holds in every state of every run |
| `AdmissionTheorems.QuotaSafety` | pkg/framework/plugins/resourcequota/resource_quota.go:64-197 | In every state of every run no limited total exceeds its limit by more than the units from before the start that are recorded, and with none of those by nothing |
| `AdmissionTheorems.NoLeakNoDouble` | pkg/scheduler/scheduler.go:74-92 | A key is recorded if and only if a goroutine holds it, or it is Dequeued, or its deletion is unhandled; never for two reasons at once; the totals are exactly those of the recorded keys |
| `AdmissionTheorems.QuiescentLedger` | pkg/controller/eventhandler.go:51-69 | With nothing in flight and no event left, exactly the Dequeued units are recorded |
| `AdmissionTheorems.AddEventIsAnEcho` | pkg/controller/eventhandler.go:137-141 | The add event of a unit this scheduler dequeued finds it recorded and changes nothing |
| `AdmissionTheorems.ReserveAlwaysSucceeds` | pkg/scheduler/scheduler.go:74-80 | The loop's Reserve never fails |
| `AdmissionTheorems.SingleLocation` | pkg/scheduler/scheduler.go:65-97 | In every state of every run each key, and each info object, is in at most one heap, hand or flight |
| `AdmissionTheorems.NoUnitLostIff` | pkg/scheduler/scheduler.go:118-131 | An enqueued unit with a queue is somewhere or about to be added if and only if no lookup of it has failed |
| `AdmissionTheorems.MutationKeepsHeapOrder` | pkg/scheduler/scheduler.go:118-127 | In every run ErrorFunc's changes leave every heap layout's objects and order as they were |
| `AdmissionTheorems.RetryKeepsSeniority` | pkg/framework/plugins/priority/priority.go:49-60 | In every run no unit left in the heap has a larger priority than the popped one, and among equals the popped one was first added no later, unless the one left was updated |
| `AdmissionTheorems.UpdateLosesSeniority` | pkg/queue/schedulingqueue/priority_scheduling_queue.go:147-157 | In every run an updated unit goes before no other active unit of equal priority |
| `AdmissionBackoff.BackoffIsHonoured` | pkg/queue/schedulingqueue/priority_scheduling_queue.go:206-251 | In every state of every run a unit that has failed since it got its info is active only after its backoff is over |
| `AdmissionBackoff.FlushTakesDone` | pkg/queue/schedulingqueue/priority_scheduling_queue.go:215-229 | A flush makes an entry active if and only if its backoff is over, and changes no info |
| `AdmissionBackoff.FlushLeavesUndone` | pkg/queue/schedulingqueue/priority_scheduling_queue.go:215-219 | After a flush every entry left in the backoff heap has its completion still to come |
| `AdmissionBackoff.SequentialFlushIsStep` | pkg/queue/schedulingqueue/priority_scheduling_queue.go:206-231 | A finished flush of the sequential queue is a Tick to its last clock reading followed by a flush of the protocol |
| `AdmissionBackoff.UpdateStartsAfresh` | pkg/queue/schedulingqueue/priority_scheduling_queue.go:159-163 | An update event for a unit that is backing off gives it the unit of the event, and a backoff of the initial duration from then |
| `AdmissionBackoff.UpdateThenFlush` | pkg/queue/schedulingqueue/priority_scheduling_queue.go:159-231 | In every run a flush makes that entry active if and only if the initial duration has passed since the event |
| `AdmissionErrors.AttemptsAreFailures` | pkg/scheduler/scheduler.go:118-120 | In every run an info has as many attempts as ErrorFunc has begun for it, in the loop or a goroutine, and the timestamp of the last time |
| `AdmissionErrors.ReturnIsOneFailure` | pkg/scheduler/scheduler.go:118-131 | In every run a unit that comes back into a backoff heap is the object that was popped, with one attempt more than then, stamped since, and with the unit of a lookup since |
| `AdmissionNews.MutationIsReported` | pkg/controller/eventhandler.go:30-69 | A change of a unit that stays on its side is reported, whole, as an update to that side only |
| `AdmissionNews.ComingAndGoingIsReported` | pkg/controller/eventhandler.go:30-69 | A new unit is reported to the queued side, a deleted one to the side it was on |
| `AdmissionNews.UsersMay` | pkg/controller/eventhandler.go:30-69 | Users can create every unit that is new, change every unit that stays on its side, delete every unit there is, and let any time pass |
| `AdmissionNews.HeapsHoldCurrentUnits` | pkg/controller/eventhandler.go:121-180 | In every state of every run a unit in its own queue that has not failed, with no event left to handle, is there as the API server has it |
| `AdmissionRecords.SchedulerSetsOnlyPhase` | pkg/scheduler/scheduler.go:101-116 | In every run nothing but users and a successful Dequeue changes a unit at the API server, and Dequeue changes its phase only |
| `AdmissionRecords.HandlerActsAsQueue` | pkg/controller/eventhandler.go:121-180 | A handled event does to the infos of its own queue what Add, Update or Delete does, with an info stamped now and no attempts, and nothing to other queues |
| `AdmissionRecords.HistoryIsTrue` | pkg/controller/eventhandler.go:121-180 | A unit counts as added, updated, let go or taken over exactly when an earlier step of the run did that |
| `AdmissionEnabled.LoopIsNeverStuck` | pkg/scheduler/scheduler.go:52-99 | In every state of every run the loop has a next step |
| `AdmissionEnabled.GoroutineMay` | pkg/scheduler/scheduler.go:81-131 | In every state of every run a goroutine can go on; its Dequeue and its lookup can fail at any time, and succeed if and only if its unit exists |
| `AdmissionEnabled.HandlersMay` | pkg/controller/eventhandler.go:121-180 | A handler can handle whatever event comes next, and every queue can be flushed at any time |
| `AdmissionRestart.MoreClaimsMore` | pkg/framework/plugins/resourcequota/resource_quota.go:64-91 | More recorded units never total less |
| `AdmissionRestart.RestartSafety` | pkg/controller/controller.go:91-98 | If the units Dequeued before the start fit, and passes wait until all are taken over, no limit is ever exceeded |
| `AdmissionRestart.QuotaRecovers` | pkg/controller/eventhandler.go:159-163 | Once every unit from before the start is reported and released, no limit is exceeded ever after |
| `AdmissionSources.ReachableIsSourced` | pkg/controller/eventhandler.go:121-141 | A recorded unit is from before the start, or new with a queue and a quota for its namespace |
| `AdmissionSources.NoHardNoRecord` | pkg/framework/plugins/resourcequota/resource_quota.go:178-180 | In every state of every run a recorded new unit belongs to a namespace whose quota sets hard limits |
| `AdmissionSources.TotalSplits` | pkg/framework/plugins/resourcequota/resource_quota.go:64-91 | Totals add up over disjoint sets of units |
| `AdmissionSources.RoomKeepsQuota` | pkg/framework/plugins/resourcequota/resource_quota.go:64-197 | If every set of new units that fits also fits beside those from before the start, no reachable state exceeds a limit |
| `AdmissionOvershoot.OrderExists` | pkg/queue/multischedulingqueue/multi_scheduling_queue.go:112-130 | Every set of queues has an order by non-increasing priority, and one in which a given queue leads its priority |
| `AdmissionOvershoot.AdmitAll` | pkg/scheduler/scheduler.go:59-99 | Any set of new units that fits together is admitted in some run before anything is reported |
| `AdmissionOvershoot.ReportAll` | pkg/controller/eventhandler.go:137-141 | And then all the units from before the start are recorded beside it |
| `AdmissionOvershoot.NoRoomBreaksQuota` | pkg/controller/controller.go:91-98 | If the two do not fit together, that run exceeds a limit |
| `AdmissionOvershoot.QuotaSafeIff` | pkg/framework/plugins/resourcequota/resource_quota.go:64-197 | No state of any run exceeds a limit if and only if every set of new units that fits also fits beside all the units from before the start |
| `AdmissionOvershoot.RestartOvershoot` | pkg/controller/controller.go:91-98 | A run that exceeds the limit, though what was dequeued before the start fits |
| `AdmissionLosses.AnyUnitCanBeLost` | pkg/scheduler/scheduler.go:118-125 | In every configuration every new unit with a queue can end up enqueued, in no place and with no add event left |
| `AdmissionStray.StrayBeginsIff` | pkg/scheduler/scheduler.go:81-88 | A unit leaves its own namespace's queue for another exactly when its goroutine returns it there |
| `AdmissionStray.StrayHasACause` | pkg/scheduler/scheduler.go:81-88 | In every run a unit held for another namespace's queue was returned there by its goroutine earlier |
| `AdmissionCapture.ReturnsWhereLoopHasBeen` | pkg/scheduler/scheduler.go:63-88 | In every run a goroutine that has looked its unit up can return it to exactly the queues the loop has come to in that pass from the pop of the unit on |
| `AdmissionStray.DeleteMissesIff` | pkg/controller/eventhandler.go:143-157 | A handled delete event leaves its unit in some place exactly when it was in hand, in flight or in another queue |
| `AdmissionStray.ReachableIsTracked` | pkg/scheduler/scheduler.go:63-88 | In every state of every run a unit outside its own queue could be admitted on its own, and the queue it is in, or may still be returned to, is of no higher priority than its own |
| `AdmissionStray.StraysTo` | pkg/scheduler/scheduler.go:81-88 | Every such unit gets into every such queue in some run, and stays there after its deletion is handled |
| `AdmissionDequeue.DequeuedIff` | pkg/scheduler/scheduler.go:59-116 | A new unit is Dequeued in some run if and only if its namespace has a queue and a quota with hard limits, and it fits into them alone |
| `AdmissionStray.StrayIff` | pkg/scheduler/scheduler.go:63-88 | A unit gets into another namespace's queue in some run if and only if it can be admitted on its own and that queue is of no higher priority than its own |

## Left out

- Start-up and deployment: cmd, hack, charts, examples, informer and client construction.
- Kubernetes client calls beyond "succeeds" or "fails without effect"; logging, status messages and error texts.
- resource.Quantity: suffixes, decimals and rounding; quantities are integers.
- Queue objects being added, updated or deleted: Update installs an empty queue, so no claim about units survives it.
- Run, Close, the stop channel and the run flag of the queues.
- The FIFO policy: no registered plugin supplies its comparator, so the queue sort is Priority's.
- TopUnit: it reads the first element of an unordered list and is not part of the queue interface.
- The plugin registry and the loop over several filter or reserve plugins; there is one, ResourceQuota.
- Mutexes as such; each locked method is a step.
- SelectResourceQuota: its result, a quota with or without hard limits or none, is an input of Filter.
- Tombstones in delete events, which the handlers' type assertions would panic on.
- Pop of an empty heap, on which container/heap panics; the callers in the source check first.
- AdmissionPasses.PassRealised: the users and the clock move between two visits; the protocol also lets them move within one, between ErrorFunc's clock reading and its lookup.
- Liveness: nothing is claimed about when a unit is eventually popped, only that nothing gets stuck (`LoopIsNeverStuck`, `GoroutineMay`, `HandlersMay`).
