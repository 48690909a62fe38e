# Verified model of the okastro migration backend

This project models the parts of the backend that carry real logic and proves what they promise over every
input, every interleaving or every reply of the outside world:

- `ParallelAssessment`: the semaphore-bounded parallel VM assessment with its timeout, its single retry and its
  progress record.
- `AuditQueue`: the batching audit queue with producers, flush worker, sentinel, drain and cancellation.
- `ConnectionPool`: the vCenter connection pool, with connecting outside the lock.
- `TtlCache`, `CacheBackends`, `CacheAside`, `MetricsExport`: the TTL cache, the memory and Redis backends, the
  cache-aside volume listing, and the export of the cache counters.
- `Provisioning`: the VM lifecycle engine against a Nova that may answer anything at every call.
- `Compatibility`, `MappingEngine`, `MigrationPlan`, `PlanPipeline`: score, flavor choice, network and disk
  mapping, and the migration plan, from inventory to plan.
- `Prelude`, `Inventory`: shared datatypes and sequence facts.

## How the model is built

Concurrent code is a transition system. `Step(state, event)` gives the next state, or `None` when the event cannot
happen there; `Run` folds it over a sequence of events. A thread or task schedule is a sequence of events, and what
the outside world does (a commit fails, an evaluation raises, Redis does not answer) is part of the event, so a
statement about every accepted sequence is a statement about every interleaving. Beside it stands a class with the
fields the source updates; each of its methods is one stretch of code without an await, or one section under a
lock, and is proved equal to one step; `Replay` runs the object under any schedule and concludes the theorems of it.

Assumptions:

- An await is a step boundary and code between two awaits is atomic; a section under the pool's lock is atomic; get,
  set and invalidate of a cache are atomic.
- A database commit persists the whole batch or nothing, and what it reports is true.
- Tasks are cancelled only where the application lifespan cancels them. A queue get that times out has taken
  nothing from the queue.
- Clocks do not run backwards. A sleep of three seconds lasts three seconds. A Nova call ends within its timeout.
- Floating point numbers are reals; scores are integer hundredths. `sqrt` is any function with the defining property
  of the root, `lower` is any function on strings.
- Redis is an expiring map: SETEX refuses a lifetime that is not positive, and an entry is gone once its lifetime has
  passed.
- `get_vm` returns the VM with the id it was asked for (app/services/vmware/inventory_service.py:58-63).

Where code and documentation differ, the code is modelled:

- The mapping engine's docstring announces VLAN and CIDR matching of networks and rounding up of disk sizes; the
  code matches by name only and copies sizes.
- `drain_audit_queue` is documented to flush all pending entries; entries already in the flush worker's batch are
  not reached. `ShutdownLosesOnlyTheBatch` says what can be lost, `LossDecidedAtDrain` and `DrainKeepsEverythingIff`
  say exactly when, from the state at the drain, and `ShutdownCanLoseAnEntry` shows that it happens.
- `assess_parallel` with `max_concurrency` 0 never returns unless there is nothing to assess (`CanReturnIff`).
- A cached list can be stale after an invalidate (`InvalidateCanBeOvertaken`); `StaleIffFillRaced` and
  `AnswerStaleIffRaced` say exactly which finished changes it misses.
- The two cache backends agree exactly on the resources with a configured lifetime (`BackendsAgreeIff`).
- `create_vm` with a server object without an id raises inside its own handler: no cleanup and no audit entry
  (`CreateWithoutId`).
- `delete_vm` counts one request both as success and as failure when the gauge refresh after an accepted delete
  raises (`DeleteCountedTwice`).

## Model

| member | source | states |
|---|---|---|
| ParallelAssessment.Safety | app/services/vmware/parallel_assessment.py:91-168 | In every interleaving free permits plus active evaluations equal the concurrency limit, the finished results are exactly those of the positions that are done, the timeout count equals the finished results with status timeout, and completed + failed + in_progress = total. |
| ParallelAssessment.StepKeepsInv | app/services/vmware/parallel_assessment.py:93-168 | Every event, on every exit path (success, timeout, exception, retry), keeps that invariant. |
| ParallelAssessment.PhaseTellsHistory | app/services/vmware/parallel_assessment.py:93-142 | Where a position stands tells exactly how often it entered the semaphore and how its evaluations ended; a done position carries the result its own endings stand for. |
| ParallelAssessment.AtMostOneRetry | app/services/vmware/parallel_assessment.py:93-142 | A position is evaluated at most twice, the second time only after an exception that is not a timeout. |
| ParallelAssessment.DoneAsDeserved | app/services/vmware/parallel_assessment.py:93-142 | Told from the events alone: a position whose last evaluation timed out has a result with its own id, status timeout and no report; two exceptions give failed with the first error; a returned result is passed on. |
| ParallelAssessment.TimeoutsCounted | app/services/vmware/parallel_assessment.py:103-134 | At every moment the timeout counter is the number of positions whose last evaluation timed out. |
| ParallelAssessment.UnfinishedCanStep | app/services/vmware/parallel_assessment.py:91-178 | With at least one permit, no unfinished state is stuck: an enabled event is exhibited. |
| ParallelAssessment.DeadlockFreeIff | app/services/vmware/parallel_assessment.py:91-178 | No reachable unfinished state is stuck if and only if there is a permit or nothing to assess. |
| ParallelAssessment.RunsAreBounded | app/services/vmware/parallel_assessment.py:144-178 | Every run has at most four events per position and one return. |
| ParallelAssessment.Completion | app/services/vmware/parallel_assessment.py:91-178 | With a permit, or with nothing to assess, every accepted run has a continuation in which the call returns. |
| ParallelAssessment.CanReturnIff | app/services/vmware/parallel_assessment.py:91-178 | Every accepted run can be continued until the call returns if and only if there is a permit or nothing to assess. |
| ParallelAssessment.ReturnedState | app/services/vmware/parallel_assessment.py:144-178 | At return all permits are back, every position has given exactly one result and it is the one its endings deserve, nothing is in progress, the status is completed iff every result is completed, and timeouts equal both the results with status timeout and the positions whose last evaluation timed out. |
| ParallelAssessment.ReportsSequential | app/api/v1/endpoints/vmware/assessment.py:65-81 | Mapping the evaluator over the ids and keeping the completed reports is the sequential loop that skips unknown ids. |
| ParallelAssessment.ScheduleIndependent | app/services/vmware/parallel_assessment.py:144-205 | With an evaluator that neither raises nor times out, every schedule returns the same multiset of results as the sequential map, and its completed reports are those of the sequential assess loop. |
| ParallelAssessment.ScheduleCounts | app/services/vmware/parallel_assessment.py:144-205 | With an evaluator that neither raises nor times out, completed is the number of ids that the inventory knows, all others failed, and no timeout is counted, under every schedule. |
| ParallelAssessment.Assessment.constructor | app/services/vmware/parallel_assessment.py:69-91 | The initial progress record, an empty result list and a full semaphore. |
| ParallelAssessment.Assessment.EnterSemaphore | app/services/vmware/parallel_assessment.py:94 | The task takes a permit and starts its first evaluation; nothing else changes. |
| ParallelAssessment.Assessment.Leave | app/services/vmware/parallel_assessment.py:97-142 | Leaving the semaphore with a result returns the permit, publishes the result and counts a timeout. |
| ParallelAssessment.Assessment.EndEvaluation | app/services/vmware/parallel_assessment.py:96-142 | The end of an evaluation takes exactly the transition of the protocol: return, time out, retry once, or fail with the first error. |
| ParallelAssessment.Assessment.Consume | app/services/vmware/parallel_assessment.py:150-161 | One turn of the as_completed loop takes the next finished result and updates the progress record as the protocol says. |
| ParallelAssessment.Assessment.Complete | app/services/vmware/parallel_assessment.py:163-178 | The final status and the end of the call. |
| ParallelAssessment.Replay | app/services/vmware/parallel_assessment.py:91-178 | The object reaches, under any schedule, the state of the transition system. |
| ParallelAssessment.AssessParallel | app/services/vmware/parallel_assessment.py:62-178 | What the caller gets under any schedule that lets the call return: one right result per position, and progress, status and timeouts that match. |
| AuditQueue.Conservation | app/services/core/audit_service.py:43-151 | For every interleaving and every pattern of commit failures, the accepted entries are, each once, those in queue, worker batch, drain buffer and database; the batch never exceeds the batch size. |
| AuditQueue.AcceptanceOrder | app/services/core/audit_service.py:111-136 | Without a drain, persisted ++ batch ++ queue is the acceptance order. |
| AuditQueue.SlotsFollowPuts | app/services/core/audit_service.py:111-141 | The same with sentinels: a worker that has not crashed stands exactly at its place in the order of all puts. |
| AuditQueue.SentinelFlushesEverythingBefore | app/services/core/audit_service.py:119-141 | A worker that ended at the sentinel has persisted exactly the entries put before it. |
| AuditQueue.TimerWritesBatch | app/services/core/audit_service.py:128-131 | For every reachable state with an idle worker that holds something: the timer and a commit append exactly that batch to the database and empty it. |
| AuditQueue.FullBatchIsFlushed | app/services/core/audit_service.py:121-127 | An entry that fills the batch is written together with it at once, without the timer. |
| AuditQueue.EverythingGetsWritten | app/services/core/audit_service.py:111-141 | Progress: every accepted run without a drain, whose worker is at work, has a continuation of only gets, timer and successful commits after which the database holds exactly the entries accepted ahead of the first sentinel, in order. |
| AuditQueue.NoSentinelYet | app/services/core/audit_service.py:43-63 | Before the shutdown signal those are all accepted entries. |
| AuditQueue.DrainedQueueStaysEmpty | app/services/core/audit_service.py:138-151 | In a clean shutdown the queue stays empty after the drain and neither worker nor drain fails. |
| AuditQueue.ShutdownLosesOnlyTheBatch | app/main.py:118-136 | After the shutdown, without new producers and with successful commits, the accepted entries are the persisted ones plus the worker's own batch, which is at most one batch size. |
| AuditQueue.LossDecidedAtDrain | app/services/core/audit_service.py:119-151 | In such a shutdown nothing is lost if and only if the worker held nothing when the drain emptied the queue, or one of the worker's commits ends after that. |
| AuditQueue.DrainKeepsEverythingIff | app/main.py:124-132 | Readable before the drain starts: every clean completion of the shutdown keeps every accepted entry if and only if the worker's batch is empty at that moment. |
| AuditQueue.ShutdownCanLoseAnEntry | app/main.py:124-132 | A concrete clean shutdown in which an accepted entry is never written. |
| AuditQueue.AuditService.constructor | app/services/core/audit_service.py:17-19 | An empty queue, an idle worker and nothing persisted. |
| AuditQueue.AuditService.EnqueueAuditEntry | app/services/core/audit_service.py:43-63 | The entry joins the end of the queue; without an action nothing changes. |
| AuditQueue.AuditService.TakeNext | app/services/core/audit_service.py:119-127 | The worker takes the head: it joins the batch, a full batch starts a flush, the sentinel starts the final flush or ends the worker. |
| AuditQueue.AuditService.GetTimesOut | app/services/core/audit_service.py:128-131 | The timer starts the flush of exactly the batch, if there is one. |
| AuditQueue.AuditService.FlushBatchEnds | app/services/core/audit_service.py:101-136 | How the worker goes on after a commit: persisted and cleared, retried once when a full flush timed out, or crashed with its batch. |
| AuditQueue.AuditService.EnqueueShutdownSignal | app/services/core/audit_service.py:138-140 | The sentinel joins the end of the queue. |
| AuditQueue.AuditService.DrainAuditQueue | app/services/core/audit_service.py:143-151 | The loop empties the queue into the drain buffer, in order and without sentinels. |
| AuditQueue.AuditService.DrainFlushEnds | app/services/core/audit_service.py:150-151 | The drain's commit persists the buffer or raises. |
| AuditQueue.AuditService.CancelWorker | app/main.py:127-132 | The cancelled worker stops with the batch it holds. |
| AuditQueue.AuditService.Handle | app/services/core/audit_service.py:43-151 | Each event of a schedule is served by its own stretch of code and is that step. |
| AuditQueue.Replay | app/services/core/audit_service.py:43-151 | The service object under any schedule: each accepted entry is in exactly one place, batches are bounded, and after a clean shutdown only the worker's batch can be missing from the database. |
| ConnectionPool.Run | app/clients/vmware/pool.py:74-207 | In every thread interleaving the pool is within max_pool_size, has no duplicate, holds no connection that was disconnected or is being ejected; acquires that succeeded equal created + reused, and use counts equal how often each connection was handed out. |
| ConnectionPool.StepKeepsInv | app/clients/vmware/pool.py:74-207 | Every locked section, and every connect that ends outside the lock, keeps that invariant. |
| ConnectionPool.ReuseIsFreshAndLeastUsed | app/clients/vmware/pool.py:78-145 | A reused connection is pooled, not disconnected, within session_ttl and least used among the unexpired; a new one is created only when every pooled one has expired. |
| ConnectionPool.PurgeIsByAge | app/clients/vmware/pool.py:133-140 | In plain ages: exactly the connections no older than session_ttl stay, and exactly the older ones are disconnected. |
| ConnectionPool.HealthByAnswer | app/clients/vmware/pool.py:202-207 | Exactly the pooled connections that answer stay, and exactly the others are disconnected. |
| ConnectionPool.FindByAge | app/clients/vmware/pool.py:78-145 | The search keeps and disconnects by age, and the connection it returns has one more use, as of now; nothing else about connections changes. |
| ConnectionPool.PoolBoundedByConcurrency | app/clients/vmware/pool.py:74-182 | Pool plus connects under way never exceed the number of simultaneous connects; a sequential run holds at most one connection. |
| ConnectionPool.LeastUsedAt | app/clients/vmware/pool.py:143-144 | The index of the first connection of least use count: no earlier one is used as little, no later one less. |
| ConnectionPool.LeastUsed | app/clients/vmware/pool.py:143-144 | The connection picked is pooled and has the least use count. |
| ConnectionPool.RemoveIsKeep | app/clients/vmware/pool.py:193-206 | On a pool without duplicates list.remove drops exactly the one connection and keeps the order. |
| ConnectionPool.VMwareConnectionPool.constructor | app/clients/vmware/pool.py:55-68 | An empty pool with zero counters. |
| ConnectionPool.VMwareConnectionPool.PurgeExpired | app/clients/vmware/pool.py:133-140 | The loop keeps exactly the unexpired connections, in order, and disconnects exactly the others. |
| ConnectionPool.VMwareConnectionPool.PickLeastUsed | app/clients/vmware/pool.py:143-144 | The scan finds the first connection of least use count: every earlier one was used more. |
| ConnectionPool.VMwareConnectionPool.FindHealthy | app/clients/vmware/pool.py:132-145 | Purge, then the least used survivor, or nothing when none survives. |
| ConnectionPool.VMwareConnectionPool.AcquirePooled | app/clients/vmware/pool.py:78-87 | The first locked section of acquire is the find step and keeps the invariant: a reused connection with its count, or a connect that starts. |
| ConnectionPool.VMwareConnectionPool.AddCreated | app/clients/vmware/pool.py:170-182 | The new connection is pooled iff there is room, and returned and counted in any case; the invariant holds. |
| ConnectionPool.VMwareConnectionPool.RemoveDead | app/clients/vmware/pool.py:202-207 | The health check removes, disconnects and counts exactly the dead pooled connections. |
| ConnectionPool.VMwareConnectionPool.CheckHealth | app/clients/vmware/pool.py:202-207 | The locked section of the health check is its step and keeps the invariant. |
| ConnectionPool.VMwareConnectionPool.CheckHealthIfDue | app/clients/vmware/pool.py:197-207 | The health check when it is due, and nothing otherwise. |
| ConnectionPool.VMwareConnectionPool.EjectFromPool | app/clients/vmware/pool.py:191-195 | An ejected connection leaves the pool before it is disconnected; the invariant holds. |
| ConnectionPool.VMwareConnectionPool.DisconnectEjected | app/clients/vmware/pool.py:195 | An ejected connection is disconnected after the lock is free; the invariant holds. |
| ConnectionPool.VMwareConnectionPool.DisconnectEverything | app/clients/vmware/pool.py:99-106 | Every pooled connection is disconnected and the pool is empty. |
| ConnectionPool.VMwareConnectionPool.Handle | app/clients/vmware/pool.py:74-207 | Each event of a thread schedule is served by its own section, is that step and keeps the invariant. |
| ConnectionPool.VMwareConnectionPool.FindOrCreate | app/clients/vmware/pool.py:78-87 | Search, then a connect when nothing is left: the connection handed out is the last one recorded, or none if connecting failed. |
| ConnectionPool.VMwareConnectionPool.Acquire | app/clients/vmware/pool.py:74-87 | acquire by one thread keeps the invariant. In plain ages: connections that answer and are no older than session_ttl all stay pooled and connected, and if there is one, a least used one of them is returned and none is created; all others leave the pool and are disconnected. Else a new one is returned, pooled when there is room; or nothing, exactly when connecting fails. |
| ConnectionPool.Replay | app/clients/vmware/pool.py:74-207 | The pool object under any interleaving of its threads reaches the state of the transition system with its invariant. |
| ConnectionPool.AcquireInTurn | app/clients/vmware/pool.py:74-182 | A sequential run never pools more than one connection, and the acquires that succeeded are exactly the reuses and creations, in order. |
| TtlCache.GetIsLive | app/common/utils/cache.py:58-118 | On every history with a monotone clock, get answers v iff the latest write to the key was a set of v whose lifetime has not elapsed, with no later delete, clear or invalidate. |
| TtlCache.EvictionsLeaveHistory | app/common/utils/cache.py:130-135 | Evictions do not matter to what the history says is alive. |
| TtlCache.EvictionsAreInvisible | app/common/utils/cache.py:91-135 | Evictions anywhere in a history change no answer and no counter. |
| TtlCache.ApplyCounts | app/common/utils/cache.py:91-118 | Each operation moves exactly the counter it owns: an answered get the hits, another get the misses, an invalidate the invalidations. |
| TtlCache.CountersMatchAnswers | app/common/utils/cache.py:26-101 | Hits plus misses equal the gets, and hits equal the gets that were answered. |
| TtlCache.TTLCache.constructor | app/common/utils/cache.py:84-87 | An empty store with the given lifetime. |
| TtlCache.TTLCache.Fetch | app/common/utils/cache.py:91-101 | The answer, the counter and the removal of an expired entry, as the reference step has them. |
| TtlCache.TTLCache.Put | app/common/utils/cache.py:103-104 | The entry is stored with the default lifetime from now. |
| TtlCache.TTLCache.PutTtl | app/common/utils/cache.py:106-107 | The entry is stored with its own lifetime from now. |
| TtlCache.TTLCache.Remove | app/common/utils/cache.py:109-110 | Exactly the one key is gone. |
| TtlCache.TTLCache.Wipe | app/common/utils/cache.py:112-113 | The store is empty and no counter moves. |
| TtlCache.TTLCache.Invalidate | app/common/utils/cache.py:115-118 | The store is empty and one invalidation is counted. |
| TtlCache.TTLCache.Evict | app/common/utils/cache.py:130-135 | Exactly the expired entries are removed, and their number is returned. |
| TtlCache.TTLCache.Handle | app/common/utils/cache.py:91-135 | Each call is served by its method, with the answer and the new state of the reference step. |
| TtlCache.Replay | app/common/utils/cache.py:84-135 | The cache object under any sequence of calls: with a monotone clock its answers are those of a cache that is never evicted, and its counters are those of the answers. |
| CacheBackends.RedisAnswersLatestWrite | app/common/utils/redis_cache.py:70-110 | Whatever calls fail, Redis answers by the latest write it took for that resource. |
| CacheBackends.KeyInjective | app/common/utils/redis_cache.py:147-148 | Different resources of a project have different keys. |
| CacheBackends.SameAnswer | app/common/utils/redis_cache.py:70-110 | For a configured resource, as long as Redis answers, both backends give the same answer after every history. |
| CacheBackends.SameCounters | app/common/utils/redis_cache.py:70-110 | ... and the same hit, miss and invalidation counters. |
| CacheBackends.BackendsAgreeIff | app/common/utils/openstack_cache.py:85-99 | Over all histories that Redis answers, the backends agree on a resource if and only if it has a configured lifetime. |
| CacheBackends.RepliesAgree | app/common/utils/openstack_cache.py:176-189 | Request by request Redis replies by the latest write it took, and memory alike while Redis answers and the resource is configured. |
| CacheBackends.MemoryCacheBackend.constructor | app/common/utils/openstack_cache.py:77-83 | One empty cache per configured resource, none shared. |
| CacheBackends.MemoryCacheBackend.BuildStores | app/common/utils/openstack_cache.py:81-83 | The loop builds a fresh cache of the right lifetime for exactly the configured resources. |
| CacheBackends.MemoryCacheBackend.GetResource | app/common/utils/openstack_cache.py:85-89 | Only the store of that resource is asked; an unknown resource is a miss that counts nothing. |
| CacheBackends.MemoryCacheBackend.SetResource | app/common/utils/openstack_cache.py:91-94 | Only the store of that resource changes; an unknown resource is ignored. |
| CacheBackends.MemoryCacheBackend.InvalidateResource | app/common/utils/openstack_cache.py:96-99 | Only the store of that resource is cleared and counted. |
| CacheBackends.MemoryCacheBackend.Serve | app/common/utils/openstack_cache.py:176-189 | get, set and invalidate dispatched to this backend. |
| CacheBackends.RedisCache.constructor | app/common/utils/redis_cache.py:60-64 | Empty counters over an empty database. |
| CacheBackends.RedisCache.GetResource | app/common/utils/redis_cache.py:70-88 | A failed call is a miss and an error; otherwise the live entry, counted as hit or miss. |
| CacheBackends.RedisCache.SetResource | app/common/utils/redis_cache.py:90-99 | The entry is stored with the lifetime of its resource, 30 seconds by default; a failure is only counted. |
| CacheBackends.RedisCache.InvalidateResource | app/common/utils/redis_cache.py:101-110 | The key is deleted if the call succeeds; the invalidation is counted in any case. |
| CacheBackends.RedisCache.Serve | app/common/utils/openstack_cache.py:176-189 | get, set and invalidate dispatched to this backend. |
| CacheBackends.CompareBackends | app/common/utils/openstack_cache.py:176-189 | Both backend objects under the same requests: their replies agree in that sense, and as long as Redis answers so do the counters of every configured resource. |
| CacheAside.ListsAreBoundedStale | app/services/openstack/volume_service.py:14-29 | In every interleaving of listers, changes and invalidations, each returned list was the backend's listing at an instant no older than the lifetime plus the fetch-to-store time of the request that filled the cache. |
| CacheAside.ChangesAfterFillArePending | app/services/openstack/volume_service.py:43-66 | If all changes go through the service, every version later than a cached list was made by a request that has not reached its invalidate yet. |
| CacheAside.StaleIffFillRaced | app/services/openstack/volume_service.py:14-66 | In every reachable state, with any requests under way and any outside changes: a cached list misses a finished change if and only if that change fell between the fetch and the store that filled the cache. |
| CacheAside.AnswerStaleIffRaced | app/services/openstack/volume_service.py:14-66 | The same for every list returned: it misses a change finished before if and only if that change fell between the fetch and the store of the request that filled the cache. |
| CacheAside.InvalidateCanBeOvertaken | app/services/openstack/volume_service.py:14-66 | A concrete interleaving in which a list after a finished change returns the listing from before it. |
| CacheAside.CacheIsTransparent | app/services/openstack/volume_service.py:14-69 | One request at a time, the cached service answers exactly as one without a cache, for every sequence of requests and every clock. |
| CacheAside.TransparentIffCoherent | app/services/openstack/volume_service.py:14-69 | Over all runs the cache cannot be noticed if and only if what it holds at the start, if anything, is the backend's listing. |
| CacheAside.VolumeService.constructor | app/services/openstack/volume_service.py:9-12 | A service over the shared cache, whatever that holds. |
| CacheAside.VolumeService.ListVolumes | app/services/openstack/volume_service.py:14-29 | The cached list as long as it lives, else what the backend lists, which is then stored; over a coherent cache always what the backend lists. |
| CacheAside.VolumeService.CreateVolume | app/services/openstack/volume_service.py:55-69 | The backend has changed, the cached list is gone and one invalidation is counted. |
| CacheAside.VolumeService.DeleteVolume | app/services/openstack/volume_service.py:43-53 | Likewise for a delete; one that found nothing fails and leaves backend and cache alone. |
| CacheAside.VolumeService.ServeAll | app/services/openstack/volume_service.py:14-69 | Any run of requests on the object: the lists of the cached service, and those of a service without a cache if the cache was coherent at the start. |
| MetricsExport.UseCounts | app/common/utils/cache.py:26-101 | No cache use lowers a counter, and a get of a resource is one hit or one miss of its store. |
| MetricsExport.ExportFollowsSource | app/main.py:64-103 | For every interleaving of cache use and export ticks, hits + misses equal the gets of each store, and the exported counters equal the source counters as of the last tick. |
| MetricsExport.ExportInFigures | app/main.py:76-103 | Figure by figure the exported hits, misses and invalidations are those of the store at the last tick. |
| MetricsExport.TickSynchronises | app/main.py:76-103 | Right after a tick the exported counters equal the source counters. |
| MetricsExport.Exporter.constructor | app/main.py:65-68 | Every resource starts at zero. |
| MetricsExport.Exporter.SyncOne | app/main.py:78-103 | Each counter of the resource grows by its positive difference, and the last seen values are replaced. |
| MetricsExport.Exporter.Sync | app/main.py:76-103 | One wake-up does that for every resource, from the values before the wake-up. |
| MetricsExport.Replay | app/main.py:64-103 | The exporter object under any interleaving of use and ticks: exported counters equal the source counters as of the last tick, and gets equal hits plus misses. |
| Provisioning.Engine.constructor | app/services/openstack/vm_provisioning_engine.py:58-59 | An engine that has made no call and left no record. |
| Provisioning.TransitionTable | app/services/openstack/vm_provisioning_engine.py:39-44 | Which statuses allow which operation, one by one. |
| Provisioning.CountActiveIsNumber | app/services/openstack/vm_provisioning_engine.py:228-232 | The active count is the number of servers with status ACTIVE. |
| Provisioning.AuditNames | app/services/openstack/vm_provisioning_engine.py:172-202 | The action names of the audit entries. |
| Provisioning.Engine.NovaCall | app/services/openstack/vm_provisioning_engine.py:309-321 | One call is made and ends within its timeout with what Nova answered, or as a timeout. |
| Provisioning.Engine.GetVm | app/services/openstack/vm_provisioning_engine.py:214-222 | One read of the server; nothing there is a not-found error. |
| Provisioning.Engine.WaitFor | app/services/openstack/vm_provisioning_engine.py:323-367 | The wait loops only read this server, at least once and at most ceil(timeout/3) times, three seconds apart, and end before timeout + 120 s + 3 s. Every earlier poll saw neither the goal (ACTIVE; SHUTOFF or STOPPED; gone) nor ERROR, UNKNOWN or an error; the last one decides; only a run out of time ends on an undecided poll. A delete waits exactly while the server is found. |
| Provisioning.Engine.GetActiveCount | app/services/openstack/vm_provisioning_engine.py:228-232 | The gauge is set to the number of ACTIVE servers, or left alone when the listing fails. |
| Provisioning.Engine.CreateAndWait | app/services/openstack/vm_provisioning_engine.py:92-101 | Create and wait: success iff Nova gave an id within 300 s and the last poll saw ACTIVE; giving up takes at least 300 s. |
| Provisioning.Engine.CreateVm | app/services/openstack/vm_provisioning_engine.py:65-135 | If Nova's create gave an id, the caller gets the server as just observed ACTIVE, or exactly one cleanup delete of that id is attempted and the call raises; one audit entry either way. Without a server no delete; with a server without an id neither delete nor audit entry. |
| Provisioning.Engine.Settle | app/services/openstack/vm_provisioning_engine.py:256-263 | The wait after the mutating call: success needs a last poll that saw ACTIVE for start and reboot, SHUTOFF or STOPPED for stop, and no earlier poll saw anything decisive; giving up takes at least 120 s; then the gauge after a stop or a start. |
| Provisioning.Engine.GuardedCall | app/services/openstack/vm_provisioning_engine.py:244-254 | The mutating call is made iff the status just read is in the transition table. |
| Provisioning.Engine.LifecycleOperation | app/services/openstack/vm_provisioning_engine.py:238-307 | The exact calls of a request, exactly when it succeeds in terms of the statuses the polls saw, and one audit entry and one counter increment that match the outcome. |
| Provisioning.Engine.SettleDelete | app/services/openstack/vm_provisioning_engine.py:161-170 | The wait, at least 60 s while the server is found, is ignored, the success is counted, and the gauge refresh decides the outcome. |
| Provisioning.Engine.DeleteVm | app/services/openstack/vm_provisioning_engine.py:150-208 | The same for delete with one matching audit entry; a request counts as success and failure exactly when Nova accepted the delete and the gauge refresh raised. |
| Provisioning.LifecycleIsGuarded | app/services/openstack/vm_provisioning_engine.py:238-263 | A start, stop or reboot request reads once, mutates at most once, right after that read and iff the status read allows it, and otherwise only reads. |
| Provisioning.DeleteIsGuarded | app/services/openstack/vm_provisioning_engine.py:153-170 | The same for a delete request. |
| Provisioning.RequestMutatesOnce | app/services/openstack/vm_provisioning_engine.py:238-263 | A guarded request adds at most one mutating call. |
| Provisioning.GuardedExtends | app/services/openstack/vm_provisioning_engine.py:382-389 | Runs whose mutating calls all follow a permitting read stay so under every further request. |
| Provisioning.Serve | app/services/openstack/vm_provisioning_engine.py:141-208 | One request of any kind: guarded calls, one matching audit entry, and for start, stop and reboot one matching increment. |
| Provisioning.ServeAll | app/services/openstack/vm_provisioning_engine.py:141-307 | Over any run of requests against any Nova: one audit entry per request, in order and matching; matching start, stop and reboot counters; no more mutating calls than requests, each right after a read that allows it. |
| Provisioning.CreateWithoutId | app/services/openstack/vm_provisioning_engine.py:116-135 | A concrete Nova for which a create leaves neither a cleanup call nor an audit entry. |
| Provisioning.DeleteCountedTwice | app/services/openstack/vm_provisioning_engine.py:157-208 | A concrete Nova for which one delete is counted as success and as failure. |
| Compatibility.ClampOnce | app/services/vmware/compatibility.py:65-69 | Clamping after every issue equals one final clamp, on every list of issues. |
| Compatibility.PerKindCount | app/services/vmware/compatibility.py:268-351 | A kind of device counts once however often and wherever it occurs. |
| Compatibility.ControllerCounts | app/services/vmware/compatibility.py:268-305 | Controllers cost at most one high issue, iff one of them is IDE. |
| Compatibility.NicCounts | app/services/vmware/compatibility.py:307-351 | NIC types never cost anything. |
| Compatibility.OsCounts | app/services/vmware/compatibility.py:112-160 | Suspended and unsupported OS are one critical issue each, an undetected OS one high issue. |
| Compatibility.HardwareCounts | app/services/vmware/compatibility.py:161-225 | No vCPU and no memory are one critical issue each, no disks one high issue, no NIC nothing. |
| Compatibility.BootCounts | app/services/vmware/compatibility.py:226-267 | Secure boot is one high issue; firmware and tools cost nothing. |
| Compatibility.IssueCounts | app/services/vmware/compatibility.py:51-63 | Incompatible issues of each severity, as a count of properties of the VM. |
| Compatibility.ScoreFormula | app/services/vmware/compatibility.py:51-93 | score = max(0, 1 - 0.3c - 0.2h), and compatible iff c = 0 and h <= 2. |
| Compatibility.ContainsMeans | app/services/vmware/compatibility.py:125-157 | The substring test holds exactly when the text stands at some position. |
| Compatibility.VerdictMeans | app/services/vmware/compatibility.py:51-93 | Score and verdict in terms of the VM alone: power state, listed unsupported systems, vCPUs, memory, disks, secure boot and an IDE controller. |
| Compatibility.GuestWarning | app/services/vmware/compatibility.py:125-157 | The warning for a guest system that is neither listed as unsupported nor as supported. |
| Compatibility.SizeWarnings | app/services/vmware/compatibility.py:158-193 | The warnings for more than 128 vCPUs and more than 524288 MB. |
| Compatibility.DiskAndNetworkWarnings | app/services/vmware/compatibility.py:194-225 | The warnings for more than 2000 GB and for no NIC. |
| Compatibility.BootWarnings | app/services/vmware/compatibility.py:226-267 | The warnings for EFI and for tools that are not installed or not running. |
| Compatibility.ControllerWarning | app/services/vmware/compatibility.py:268-305 | The warnings for lsilogic and nvme controllers. |
| Compatibility.NicWarnings | app/services/vmware/compatibility.py:307-351 | The warnings for e1000 and for vmxnet2, sriov and unknown NIC types. |
| Compatibility.IssuesInOrder | app/services/vmware/compatibility.py:51-63 | Issues come in the order of the checks. |
| Compatibility.OnlyControllerKindsMatter | app/services/vmware/compatibility.py:268-351 | Permuting or duplicating controllers, and any change of NICs, changes neither score nor verdict. |
| Compatibility.ReportOnce | app/services/vmware/compatibility.py:268-351 | One turn of a device loop reports a kind when it is seen for the first time. |
| Compatibility.CheckDiskControllers | app/services/vmware/compatibility.py:268-305 | The loop with its seen set appends one issue list per distinct kind, in order of first occurrence. |
| Compatibility.CheckNicTypes | app/services/vmware/compatibility.py:307-351 | The same for the NIC types that are set. |
| Compatibility.ScoreIssues | app/services/vmware/compatibility.py:65-73 | The loop's score, and whether an incompatible critical issue occurs. |
| Compatibility.Evaluate | app/services/vmware/compatibility.py:51-93 | The assessment, with score and verdict by the closed form. |
| MappingEngine.ScanCatalog | app/services/vmware/mapping_engine.py:106-132 | The scan finds the first complete flavor that minimises the key, or nothing iff no flavor is complete. |
| MappingEngine.SameOrder | app/services/vmware/mapping_engine.py:113-132 | Penalised distances and squared distances with factor 2.25 order flavors alike. |
| MappingEngine.SqrtFreeChoice | app/services/vmware/mapping_engine.py:109-132 | On every catalog the root-free comparison makes the same choice. |
| MappingEngine.FlavorMeans | app/services/vmware/mapping_engine.py:27-164 | Whatever may be returned as a match is the first complete flavor that minimises, in integers, (2a²R²D² + 2b²C²D² + e²C²R²) times 9/4 when under-provisioned, with offsets a, b, e and C, R, D the largest values of the catalog or 1; its fields, fit flags and score are those this flavor calls for. |
| MappingEngine.EffortOrder | app/services/vmware/mapping_engine.py:113-132 | Penalised distances order complete flavors as those integers do. |
| MappingEngine.ScaleMeans | app/services/vmware/mapping_engine.py:100-104 | Each divisor is the largest value of its field over the flavors that have it, or 1 when that is 0. |
| MappingEngine.NoFlavorMeans | app/services/vmware/mapping_engine.py:86-140 | An error exactly when some field is missing in the whole of a non-empty catalog; otherwise a match exactly when some flavor has all fields. |
| MappingEngine.ScaleOf | app/services/vmware/mapping_engine.py:100-104 | The divisors of the distance are never zero, so no division fails. |
| MappingEngine.ScaleCovers | app/services/vmware/mapping_engine.py:100-104 | No value of a complete flavor exceeds its divisor. |
| MappingEngine.ClampInactiveWhenSomethingFits | app/services/vmware/mapping_engine.py:100-142 | For non-negative targets, if some flavor fits the best distance is at most 1, so the clamp of the score does nothing. |
| MappingEngine.ChosenFitNotDominated | app/services/vmware/mapping_engine.py:109-132 | A chosen fitting flavor is not dominated by a componentwise smaller fitting one. |
| MappingEngine.UnderOnlyWhenMuchCloser | app/services/vmware/mapping_engine.py:117-132 | If the choice is under-provisioned, every fitting flavor is at least 1.5 times as far. |
| MappingEngine.PerfectScoreIffExact | app/services/vmware/mapping_engine.py:113-142 | The unrounded score is 1 iff the catalog has an exact match. |
| MappingEngine.NetworkMatchRule | app/services/vmware/mapping_engine.py:173-192 | A port group gets the first network of exactly its name, else the first equal up to case, else nothing. |
| MappingEngine.NetworksByRule | app/services/vmware/mapping_engine.py:166-204 | NIC by NIC: the first network of exactly its name, else the first with a name equal in lower case, else none. |
| MappingEngine.DisksByRule | app/services/vmware/mapping_engine.py:206-224 | Disk by disk: its own label and size, type by provisioning, the first one bootable. |
| Inventory.TotalDiskIsSum | app/services/vmware/mapping_engine.py:92-94 | The disk total is a sum: each disk adds its own capacity, wherever it stands. |
| MappingEngine.FindFirst | app/services/vmware/mapping_engine.py:179-192 | The loop with break finds the first match. |
| MappingEngine.MapNetwork | app/services/vmware/mapping_engine.py:174-192 | One NIC through both passes. |
| MappingEngine.MapNetworks | app/services/vmware/mapping_engine.py:166-204 | One mapping per NIC, in order. |
| MappingEngine.MapDisks | app/services/vmware/mapping_engine.py:206-224 | One mapping per disk, in order, the first one bootable, the volume type by provisioning. |
| MappingEngine.Engine.constructor | app/services/vmware/mapping_engine.py:31-34 | Both memos empty. |
| MappingEngine.Engine.GetFlavors | app/services/vmware/mapping_engine.py:49-67 | The first catalog that could be read is kept and OpenStack is not asked again; a failure is raised and not kept. |
| MappingEngine.Engine.GetNetworks | app/services/vmware/mapping_engine.py:69-84 | The first network list that could be read is kept and OpenStack is not asked again; a failure is raised and not kept. |
| MappingEngine.Engine.MatchFlavor | app/services/vmware/mapping_engine.py:86-164 | Nothing without hardware, catalog or complete flavor, the ValueError of max when a field is missing throughout, else the chosen flavor with its score and fit; the memo is filled only when it is needed. |
| MappingEngine.Engine.MapVm | app/services/vmware/mapping_engine.py:36-47 | Fails exactly when the catalog or a needed network list cannot be read or the catalog lacks a field; otherwise flavor, networks and disks are right for the catalog and list kept. |
| MigrationPlan.AddNetworkSteps | app/services/vmware/plan_service.py:102-124 | One numbered step per network. |
| MigrationPlan.AddDiskSteps | app/services/vmware/plan_service.py:126-136 | One numbered step per disk. |
| MigrationPlan.AddMappedSteps | app/services/vmware/plan_service.py:90-136 | The steps of flavor, networks and disks, numbered from one. |
| MigrationPlan.BuildSteps | app/services/vmware/plan_service.py:83-167 | The work of a VM in order, numbered 1..n without a gap. |
| MigrationPlan.StepsInOrder | app/services/vmware/plan_service.py:83-167 | The steps of a mapped VM position by position: flavor, networks (1 minute, or 3 when unmatched), disks (2 for the boot disk, else 1), then export 15, server 5, cleanup 1. |
| MigrationPlan.StepsWithoutMapping | app/services/vmware/plan_service.py:138-167 | Without a mapping only the last three. |
| MigrationPlan.CostFormula | app/services/vmware/plan_service.py:83-167 | A mapped VM costs 21 + [flavor] + matched networks + 3 * unmatched + disks + [any disk] minutes. |
| MigrationPlan.DowntimeMeans | app/services/vmware/plan_service.py:169-185 | 0 iff powered off, 5 iff suspended, else 10, 15 or 30 exactly by 100 and 500 GB of disks in total. |
| MigrationPlan.PlannedDowntime | app/services/vmware/plan_service.py:169-185 | A compatible VM is not suspended and has hardware, so its downtime is 0, 10, 15 or 30. |
| MigrationPlan.NameTotal | app/services/vmware/plan_service.py:71 | The string order of the sort key is total and antisymmetric. |
| MigrationPlan.NameLeqMeans | app/services/vmware/plan_service.py:71 | Names compare as Python strings do: a prefix first, else by the first difference. |
| MigrationPlan.LeqTransitive | app/services/vmware/plan_service.py:71 | The order by priority and name is transitive. |
| MigrationPlan.InsertStable | app/services/vmware/plan_service.py:71 | Inserting behind equals keeps the order among equals. |
| MigrationPlan.StableSortCorrect | app/services/vmware/plan_service.py:71 | The sort keeps the contents, orders by priority and name, and keeps the order among equals. |
| MigrationPlan.PlanCompatible | app/services/vmware/plan_service.py:32-69 | The loop plans exactly the compatible VMs, in input order, and raises iff one of them has a priority outside 1 to 10. |
| MigrationPlan.PlanForMeans | app/services/vmware/plan_service.py:36-69 | What the plan of a VM says: its id, name, priority (5 unless overridden) and flavor, its target networks are exactly the ids of the matched networks, its steps are numbered 1..n, and its minutes are those of the work its mapping calls for. |
| MigrationPlan.NetworkIdsMembers | app/services/vmware/plan_service.py:42-46 | An id is a target network if and only if some network mapping has it and it is not empty. |
| MigrationPlan.VolumeTypesOfDisks | app/services/vmware/plan_service.py:47-51 | Mapped disks lose no volume type: one target per disk, in order, by provisioning. |
| MigrationPlan.GeneratePlan | app/services/vmware/plan_service.py:24-81 | Fails iff a compatible VM has a priority outside 1 to 10; otherwise the plan is the stable sort of exactly the compatible VMs, with their number and total. |
| MigrationPlan.TotalPermutes | app/services/vmware/plan_service.py:73 | The total does not depend on the order. |
| MigrationPlan.PlanIgnoresInputOrder | app/services/vmware/plan_service.py:32-73 | Which VMs are planned and the total do not depend on the order of the input. |
| PlanPipeline.PreparedLine | app/services/vmware/plan_service.py:32-69 | What the plan says of a VM is determined by its hardware, the catalog and the network list. |
| PlanPipeline.PlannedLines | app/api/v1/endpoints/vmware/assessment.py:168-177 | Through assessment, mapping and plan, the planned VMs are exactly those with c = 0 and h <= 2, each at its cost formula. |
| PlanPipeline.AllWellPlanned | app/api/v1/endpoints/vmware/assessment.py:168-177 | Every planned downtime is 0, 10, 15 or 30, and the steps of every planned VM are numbered 1..n. |
| PlanPipeline.PrepareOne | app/api/v1/endpoints/vmware/assessment.py:173-175 | One VM assessed and mapped: fails iff it cannot be mapped, and keeps what the memos will hold. |
| PlanPipeline.Prepare | app/api/v1/endpoints/vmware/assessment.py:168-175 | The loop over the ids skips unknown VMs, fails iff a known one cannot be mapped, and maps all others against one catalog and one network list. |
| PlanPipeline.PlanPrepared | app/services/vmware/plan_service.py:24-81 | The plan of what was prepared: fails iff a plannable VM has a priority outside 1 to 10, else the right plan. |
| PlanPipeline.CreateMigrationPlan | app/api/v1/endpoints/vmware/assessment.py:167-177 | The endpoint fails exactly when a known VM cannot be mapped or a plannable one has a bad priority; otherwise the plan is the stable sort by priority and name of exactly the plannable VMs at the costs and downtimes their inventory determines, with their number and total. |
| PlanPipeline.PlanIgnoresIdOrder | app/api/v1/endpoints/vmware/assessment.py:167-177 | For permuted ids the request fails alike, and the lines it calls for, their number and their total are the same. |
| PlanPipeline.PlanInBothOrders | app/api/v1/endpoints/vmware/assessment.py:167-177 | The endpoint itself, asked with permuted ids: same outcome, same lines up to order, same number and total. |

## Left out

- FastAPI endpoints, Pydantic schemas, database models and migrations, middleware: no logic beyond calling what is
  modelled; of the schemas only the priority range of a planned VM is modelled.
- OpenStack, pyVmomi, Redis and database clients: they appear as replies that can be anything.
- JSON encoding in the Redis cache: values are opaque. Its latency window is left out.
- `_sync_redis_metrics` and the hit ratio gauge: no invariant of their own.
- The metric flush worker: the audit worker with another batch size; the audit model holds for every batch size.
- The archived migration manager and `app/worker.py`: they would add no stable invariant.
- Direct audit writes and audit queries, `get_volume`, `list_vms` on its own, pool statistics: single calls.
- Messages, summaries, UUIDs, timestamps, durations, log lines, network match confidence (a constant per match type).
- The retry counter and the queue-depth gauge of the parallel assessment, `conn_failed` and creation latencies of the
  pool: shared across tasks or updated without the lock.
- A negative `max_concurrency`, which `asyncio.Semaphore` refuses.
- The interval of the pool's health check: the model lets a check happen at any time.
- Clocks that run backwards, and tasks cancelled from outside the lifespan.
- Pool connections are numbers, not objects: aliasing of a connection that is handed out twice is visible only
  through its use count.
- Floating-point rounding, the rounding of the flavor score to four digits and of the compatibility score to two.
- `list.sort` is modelled by an insertion sort on sequences with the same stable result.
- The closing of a database session after its commit is part of the commit.
- Concurrent lifecycle requests: other requests only change what Nova answers, which is arbitrary already; the calls
  of one request are stated against every sequence of replies, and runs are sequences of requests.
