# Verification model of the ShieldScan engine

A Dafny model of the parts of the engine whose correctness depends on the order of small steps: the reliable job
queue and its reclaimer, the worker loop, the completion events, the warm container pool, and the soft-404 pass over
Nikto findings. `dafny verify dfyconfig.toml` checks everything.

## How it is built

**The queue** (`Protocol.dfy`) is one state machine. Its state holds the four queues, the per-worker processing
lists, the payloads in sweepers' hands, the claim keys, publish markers and reclaim counters, the completions log,
the running workers with a program counter per delivery, and the sweeps. Every action is one Redis command or one
local decision. Each command may be answered, fail without effect (`Error`) or take effect and be reported as failed
(`Lost`); workers and sweeps may stop between any two steps, and any number of both interleave freely. A *run* is any
sequence of enabled actions. `history` records what has happened to each payload; no guard reads it, and `Ledger.dfy`
proves that it is what the trace says.

**The code** of consumer, processor, worker loop, reclaimer and pool is modelled as classes with loops (`JobConsumer`,
`Processor`, `Reclaimer`, `WorkerLoop`, `PoolCode`). They act on a shared object (`Server.RedisServer`, `PoolCode.Pool`,
`WorkerLoop.Worker`) that records a trace. Methods named `Others…` stand for the steps of everybody else: their
contracts allow any steps not made by the caller, and callers are verified against those contracts alone. So every
execution of the code, with any interference, is a run of the machine, and what is proved of runs holds of the code.
The parameter `calm` states in addition what an operation does when nobody interferes and every command is answered.

**Assumptions.** Three things the code relies on but does not enforce are predicates on steps (`Protocol.dfy`):

- `FreshKey`: no second payload with key `k` is dispatched;
- `DeadWhenScanned`: a processing list that a scan selects belongs to a worker that has stopped for good;
- `MarkerWritten`: the publish marker of key `k` reaches Redis when it is written (the code only logs a failure).

`MeetingRun(acts, want, k)` is a run that meets the wanted ones, the first and the third only as far as key `k` goes:
other jobs may be dispatched twice and lose their markers. `Runs` alone carries the accounts, the retry bound, the
publish order and termination. What is said of one worker's processing lists takes `SparedRun(acts, w)`: no scan
selects a list of that worker while it runs, as when it is in every sweep's snapshot; others may be swept.
Conservation and "queued means unclaimed" take the first two assumptions, single execution all three. `Necessity.dfy`
shows that none can be dropped: for each of the three, and every job the publisher would report on, there is a run
that meets the other two for every key and in which two executions publish for that job, and without the second a job
can disappear although no command failed.

`Heartbeat.dfy` relates the second assumption to the timings. A sweep spares a worker whose heartbeat key exists
during its whole heartbeat scan, and takes every list it finds of a worker whose key is missing during the whole scan.
With up to `m` failed writes in a row, the key of a registered worker is sure to exist until the end of its drain if
and only if start-up delay, `m + 1` intervals and drain time fit into the time to live (`NeverLapses`, `DrainLapses`).
So the assumption does not follow from the code for a worker that registers after the heartbeat scan
(`SweepTakesLate`), nor, with the default drain grace of 60 s, for one that is still draining (`DefaultGraceExposes`).
The run is taken to be shorter than the 24-hour life of claims, markers and counters.

## Where the code and its comments differ

- `internal/redis/reclaim.go:210-218` names one window in which a payload is lost, a crash between RPOP and requeue,
  and a failed push. There are two more: an RPOP that executes but whose reply is lost, and a failure report that
  cannot be published. `NothingVanishes.LossSteps` proves that a job gets lost by these four steps and no others.
- `internal/redis/reclaim.go:104-112` counts what a sweep did as requeued, failed or dropped. A job whose payload
  decodes but lacks an id, a scan or an engine falls through: the publisher's validation
  (`internal/redis/pubsub.go:152-155`) refuses every event about it, the worker's as well as the sweep's, so nobody is
  ever told and no counter moves (`PublishOrder.UnnamedStaysSilent`, `Reclaimer.EveryEntryCounted`).
- `internal/redis/idem.go:77-81` says that releasing a claim reopens no window for a duplicate. It does when a copy of
  a job is stranded by a worker that died before claiming it while the first copy is still running:
  `Necessity.UniquenessNeeded`.
- The table at `internal/worker/processor.go:196-208` has no row for a clean run whose job, but not whose worker, was
  canceled. The tool branch reports it completed (`Events.Discriminate`); the recon branch tests for the cancel before
  it looks at the result and reports it canceled (`Events.DiscriminateRecon`).
- `internal/worker/heartbeat.go:31-37` speaks of a threefold margin. The exact rule is `Heartbeat.NeverLapses` with its
  converse: `m` failed writes in a row are survived if and only if the delay before the ticker starts plus `m + 1`
  intervals fits into the time to live. With 60 s and 20 s that is two failures if the ticker starts at the very instant
  of registration (the third write then falls on the instant of expiry), one if it starts within 20 s, none if it
  starts within 40 s.
- `internal/worker/heartbeat.go:52-56` treats shutdown and crash alike. After a cancellation the key lives on for the
  time to live less one interval, less the start-up delay too if not even the first tick had fired
  (`Heartbeat.ProtectedAfterCancel`): at most 40 s in the worst case, while `internal/config/config.go:105` lets a
  worker drain for 60 s.
- `internal/tools/nikto/verify.go:499-505` says the control drops any query. A bare question mark stays: a reported url
  that ends in one gets a control that ends in one (`ControlPath.BareQuerySeparates`).

## Model

| member | source | states |
|---|---|---|
| `Events.ValidateSeq` | `internal/events/events.go:87-98` | a sequence position is accepted exactly when 1 <= index <= total |
| `Events.Validate` | `internal/events/events.go:198-224` | an event is accepted exactly when it names job, scan and engine, is well placed in its sequence, is within the findings cap, and is partial or a terminal `job_completed` |
| `Events.VerdictNames` | `internal/events/events.go:198-224` | a refusal names a defect the event has, and what is checked earlier is in order |
| `Events.EventCount` | `internal/events/events.go:339-346` | the number of events is max(1, ceil(n/1000)): enough room, and no event to spare |
| `Events.SplitForCompletion` | `internal/events/events.go:338-368` | the loop produces exactly the sequence of parts defined index by index, without the loop |
| `Events.PrefixCarries` | `internal/events/events.go:348-366` | the first k events carry exactly the first k thousand findings, in order |
| `Events.SplitPartitions` | `internal/events/events.go:338-368` | concatenating the events' findings gives back the input; no event exceeds the cap and all but the last are full |
| `Events.SplitTerminal` | `internal/events/events.go:354-365` | exactly the last event is terminal and keeps all of the base but findings and position; the others differ from the base in type, status, zeroed totals, findings and position, and in nothing else |
| `Events.SplitValid` | `internal/events/events.go:196-224` | all events of a split validate if and only if the base is a completion event naming job, scan and engine |
| `Events.PlanSendable` | `internal/redis/pubsub.go:149-155` | whatever the outcome, each event of a job's plan passes the publisher's validation exactly when the job names its id, scan and engine: all can be sent or none |
| `Events.Discriminate` | `internal/worker/processor.go:284-303` | a clean run is completed with its findings whatever the contexts say; a failed run is canceled only when the job but not the worker was canceled, and otherwise failed with its message, marked as a timeout when the job's deadline passed |
| `Events.DiscriminateRecon` | `internal/worker/processor.go:380-429` | recon is canceled before its result is looked at, completed only on a clean uncanceled run, and otherwise failed with its message |
| `Events.PlanOfIsPlan` | `internal/worker/processor.go:305-323` | whatever the outcome, the events to publish end with their only terminal one and all carry the job's key |
| `Events.PlanCarriesAll` | `internal/worker/processor.go:306-323` | the plan of a clean run carries all its findings, stamped with scan and organization |
| `Events.PlanFields` | `internal/worker/processor.go:305-323` | every event of a plan names the job in all its fields; all but the last are numbered, full partial events; the last says completed, failed or canceled, with count, message and duration |
| `Protocol.RemoveFirst` | `internal/redis/queue.go:246-246` | LREM with count 1 takes out exactly one equal entry, or nothing when there is none, as multisets |
| `Protocol.RemovesFirst` | `internal/redis/queue.go:246-246` | the entry taken is the first one from the head, and the others keep their order |
| `Conservation.BalancedStep` | `internal/redis/reclaim.go:220-262` | every step, of any agent and with any reply, keeps: dispatched = stored + settled or lost, as multisets |
| `Conservation.AlwaysBalanced` | `internal/redis/reclaim.go:208-214` | so does every run, with duplicates, crashes and lost replies and without any assumption |
| `BoundedRetry.RetryStep` | `internal/redis/reclaim.go:279-320` | every step keeps: concurrent sweeps hold distinct counter values, and each release and requeue used up its own value within budget |
| `BoundedRetry.BoundedRetries` | `internal/redis/reclaim.go:53-61` | in every run, without any assumption, a key is released and requeued at most MaxReclaims times and claimed at most 1 + MaxReclaims times |
| `Ledger.RunsAtMostTwice` | `internal/redis/reclaim.go:53-61` | counted over the trace, in every run and without any assumption, a job starts to run at most twice and is given back at most once |
| `Ledger.Conserved` | `internal/redis/reclaim.go:208-214` | counted over the trace, what was dispatched is what is stored plus what some step took out for good, as multisets |
| `Ledger.HistoryIsTrace` | `internal/redis/reclaim.go:208-214` | what the history variables record is what has happened: dispatches, ends and their causes, claims taken, releases, requeues |
| `Ledger.ErrorChangesNothing` | `internal/redis/queue.go:198-222` | a command that fails without effect leaves queues, lists, keys and channel as they were |
| `Ledger.LostIsExecuted` | `internal/redis/queue.go:198-222` | a command whose reply is lost changes them exactly like one that is answered |
| `PublishOrder.PublishedPrefix` | `internal/worker/processor.go:325-339` | an execution's published events are always a prefix of its plan, and include a terminal one exactly when the plan is complete |
| `PublishOrder.LoggedIsSendable` | `internal/redis/pubsub.go:149-155` | in every run, every event on the channel has passed validation |
| `PublishOrder.UnnamedStaysSilent` | `internal/redis/pubsub.go:149-155` | no execution of a job without id, scan or engine ever publishes anything |
| `PublishOrder.SuccessIsComplete` | `internal/worker/processor.go:323-339` | once the terminal success event is out all findings are, in order; before that a prefix of them |
| `PublishOrder.SettledOnlyIfTold` | `internal/worker/worker.go:156-165` | a payload is acknowledged or reported failed only if a terminal event for its key is out, and dropped as duplicate only if its key was claimed |
| `PublishOrder.AckAfterOwnTerminal` | `internal/worker/worker.go:173-195` | when the acknowledgement is about to be sent, the execution's own whole plan is out, or it published nothing and its key had been claimed, or the payload does not decode |
| `ProcessingLists.ListsAreUnacknowledged` | `internal/redis/queue.go:227-239` | the processing list of a running worker that no scan selects holds, as a multiset, exactly the payloads it took and has not acknowledged, byte-identical ones included, whatever happens to other workers |
| `ProcessingLists.SnapshotListsAreUnacknowledged` | `internal/redis/reclaim.go:187-200` | the same for a running worker that is in every sweep's snapshot |
| `ProcessingLists.SnapshotSpares` | `internal/redis/reclaim.go:187-200` | no scan selects a list of a worker that is in every snapshot |
| `ProcessingLists.AckRemovesOne` | `internal/redis/queue.go:241-258` | an executed acknowledgement of such a worker removes exactly one matching entry and touches no other list: "removed nothing" cannot occur |
| `SingleExecution.KeyInvStep` | `internal/redis/reclaim.go:336-347` | the invariant of one key (queued means unclaimed, release before push; with markers written also marker before publish and one author) is kept by every step that meets the assumptions for that key |
| `SingleExecution.FindingsFromOneExecution` | `internal/worker/processor.go:583-593` | all events workers ever publish for a key come from one execution, if the key is dispatched once and its markers are written, whatever happens to other jobs |
| `SingleExecution.NeverRequeuedAfterPublish` | `internal/redis/reclaim.go:297-309` | after a worker has published anything for a key, at every later point no payload of it is queued, about to be pushed, or waiting to run |
| `SingleExecution.MarkersNotNeeded` | `internal/worker/processor.go:591-604` | a run that meets all three assumptions meets the two below |
| `SingleExecution.QueuedIsUnclaimed` | `internal/redis/reclaim.go:336-347` | a job in a queue, requeued or not, has an unclaimed key, even if marker writes fail |
| `SingleExecution.ClaimNeverDuplicate` | `internal/worker/processor.go:220-234` | so no checked-out job is ever dropped as a duplicate, even if marker writes fail |
| `Necessity.AssumptionsAreMet` | `internal/worker/processor.go:583-606` | for every job with key, id, scan and engine there is a run that meets all three assumptions and in which it is published for |
| `Necessity.MarkerNeeded` | `internal/worker/processor.go:591-604` | for every such job there is a run whose only fault is a lost marker write and in which two executions publish |
| `Necessity.LivenessNeeded` | `cmd/worker/reclaim_wiring.go:66-79` | likewise when a running worker's list is swept |
| `Necessity.UniquenessNeeded` | `internal/redis/idem.go:77-81` | likewise when a job is dispatched twice under one key |
| `Necessity.LivenessNeededForConservation` | `cmd/worker/reclaim_wiring.go:66-79` | for every job there is a run in which a running worker's list is swept before it claims, no command fails, and the job ends up nowhere with nobody told |
| `NothingVanishes.NothingVanishes` | `internal/redis/queue.go:37-47` | a decodable job dispatched once under its key is in exactly one queue, list or hand; or in none, and then its end has been published or one of the four steps below is in the run; failed marker writes lose nothing |
| `NothingVanishes.LossSteps` | `internal/redis/reclaim.go:349-355` | a job goes from not lost to lost (dispatched, stored nowhere, nobody told) by exactly four steps on it: a lost RPOP reply, a failed push, a failed report, a sweep dying with it in hand; worker crashes and lost LMOVE replies are not among them |
| `Termination.ProgressSmaller` | `internal/redis/reclaim.go:57-60` | every step that is not a dispatch, a start or an idle sweep's makes a four-part lexicographic measure smaller |
| `Termination.NoInfiniteProgress` | `internal/redis/reclaim.go:226-262` | no run makes progress steps forever without a dispatch, a start or an idle step of a sweep in between |
| `Termination.ComesToRest` | `internal/redis/reclaim.go:57-60` | in every infinite run without further dispatches there is a point after which workers only start and crash and sweeps take nothing: nothing is claimed, run or requeued forever, even if every execution kills its worker |
| `Server.RedisServer.Publish` | `internal/redis/pubsub.go:149-163` | an event that fails validation is refused before it is sent; a calm server takes any other |
| `Server.DeliveryKept` | `internal/redis/queue.go:37-51` | what others do leaves a delivery in work alone, unless its worker crashes |
| `Server.HandKept` | `internal/redis/reclaim.go:210-214` | what others do leaves the payload in a sweep's hand alone |
| `Server.DeadListShrinks` | `internal/redis/reclaim.go:208-214` | a stopped worker's list only gets shorter, whoever runs |
| `JobConsumer.DrainOrder` | `internal/redis/queue.go:55-63` | the drain order is critical, high, normal, low: when the queues before a position are empty, so is every more urgent one |
| `JobConsumer.Consumer.Sweep` | `internal/redis/queue.go:193-225` | under any interference the consumer's own steps are at most one LMOVE, every more urgent queue having been seen empty before it, and after it nothing for a job and one clearing LREM for a payload that does not decode; undisturbed it takes the oldest entry of a queue above which all others are empty, puts a job at the head of its own list, and changes no other list; it finds nothing exactly when all queues are empty |
| `JobConsumer.Consumer.Take` | `internal/redis/queue.go:198-222` | one LMOVE, its three results and the consumer's own steps in each |
| `JobConsumer.Consumer.Discard` | `internal/redis/queue.go:212-220` | the clearing LREM, with a worker that may die first |
| `Reclaimer.Reclaim.BumpReclaimCount` | `internal/redis/reclaim.go:420-432` | answered, the job goes on with the counter's new value; on any error it goes to the failing branch, never to the retrying one |
| `Reclaimer.Reclaim.HasPublished` | `internal/redis/reclaim.go:289-320` | the job goes on to the release exactly when the answer came, no marker was there and the count is within budget; otherwise it is failed |
| `Reclaimer.Reclaim.ReleaseClaim` | `internal/redis/reclaim.go:340-347` | the push is reached exactly when the release was answered and the key is not empty, and then the key is unclaimed |
| `Reclaimer.Reclaim.PushBack` | `internal/redis/reclaim.go:349-358` | the sweep lets go of the payload whatever the answer; it counts as requeued exactly when answered, and is in its queue unless the push failed |
| `Reclaimer.Reclaim.Fail` | `internal/redis/reclaim.go:366-416` | the failing branch publishes one terminal failed event about the job, in all its fields, or counts nothing; undisturbed it is published exactly when the job names id, scan and engine |
| `Reclaimer.Reclaim.Requeue` | `internal/redis/reclaim.go:329-359` | undisturbed, a job with a key is appended to its own queue and nothing else changes; one without is failed |
| `Reclaimer.Reclaim.ReclaimOne` | `internal/redis/reclaim.go:265-321` | undisturbed, the job is put back exactly when its count is within budget and nothing was published, otherwise reported failed if it names id, scan and engine |
| `Reclaimer.Reclaim.PopList` | `internal/redis/reclaim.go:227-258` | takes the oldest entry; duplicates and undecodable payloads are discarded at once, others enter the handled set |
| `Reclaimer.Reclaim.DrainOne` | `internal/redis/reclaim.go:226-261` | each round shortens the list and, undisturbed, gives back, reports, drops and counts exactly what the oldest entry calls for |
| `Reclaimer.Reclaim.DrainList` | `internal/redis/reclaim.go:220-262` | ends under any interference; undisturbed it empties the list, queues exactly the retriable jobs oldest first, reports exactly the other keys that can be reported, counts each kind, and changes no other list |
| `Reclaimer.EveryEntryCounted` | `internal/redis/reclaim.go:104-112` | the entries of a list are exactly those retried, reported, dropped, and lost in silence; none is lost in silence when every job names id, scan and engine |
| `Reclaimer.Reclaim.OrphanLists` | `internal/redis/reclaim.go:179-206` | selects only lists of stopped workers outside the snapshot, and undisturbed all non-empty ones the batches name; a batch that cannot be read ends it with an error, and it never takes anything |
| `Reclaimer.Reclaim.DrainAll` | `internal/redis/reclaim.go:157-170` | undisturbed, the queues grow by what the lists give back in order under one handled set, the keys that can be reported are reported in order, the counters match, and all drained lists are empty |
| `Reclaimer.Reclaim.Run` | `internal/redis/reclaim.go:143-173` | an unknown live set makes it do nothing, and a failed scan ends it before it takes anything; otherwise the same for the lists it selected; if the scan names all orphaned lists none is left, and lists of workers in the snapshot are untouched |
| `Reclaimer.RoundKeeps` | `internal/redis/reclaim.go:226-261` | what is queued plus what is still to be given back, and what is reported plus what is still to be, stay fixed from round to round |
| `Reclaimer.SweptGrows` | `internal/redis/reclaim.go:157-170` | draining one more list extends the sweep's account by that list, with the keys handled so far |
| `Delivery.RetriedExactly` | `internal/redis/reclaim.go:157-162` | a drain gives back exactly the retriable keys of the list, each once |
| `Delivery.RetriedIsOldest` | `internal/redis/reclaim.go:157-162` | of several copies of a key the oldest is the one given back |
| `Delivery.RefusedExactly` | `internal/redis/reclaim.go:265-321` | a drain reports failed exactly the jobs that are the oldest copy of a key not handled before, may not be retried, and name id, scan and engine |
| `Delivery.RetriedInOrder` | `internal/redis/reclaim.go:208-208` | and in the list's own order |
| `Delivery.RequeuedFirst` | `internal/redis/reclaim.go:325-328` | after a drain all that was given back is delivered before all that was waiting, in reverse checkout order |
| `Delivery.SweepServedFirst` | `internal/redis/reclaim.go:325-328` | the same for all a whole sweep gives back to a queue |
| `Delivery.DispatchedLast` | `internal/redis/queue.go:198-200` | a dispatched job is delivered after all that are waiting |
| `Delivery.ServedAsScheduled` | `internal/redis/queue.go:193-225` | in every run, what has been taken from a queue followed by what waits there is the schedule: dispatched jobs in order, each one a sweep gives back inserted as the next |
| `Delivery.DrainedInCheckoutOrder` | `internal/redis/reclaim.go:208-208` | in every run, what sweeps have popped from a processing list followed by what is left there, oldest first, is what was checked out into it, in order, less what was acknowledged |
| `Processor.JobProcessor.Claim` | `internal/worker/processor.go:220-234` | under any interference, whether the delivery runs, is dropped as a duplicate or is left for the reclaimer follows from the answer of its own SETNX and from whether the key was taken at that instant |
| `Processor.JobProcessor.MarkPublished` | `internal/redis/reclaim.go:79-90` | the key is marked unless the write failed; failed or not, the job goes on to publish |
| `Processor.JobProcessor.PublishCompletion` | `internal/worker/processor.go:594-606` | under any interference the delivery's own steps are the marker and then the publish, unless its worker dies in between; the reply to the publish decides whether it goes on, and a failed marker does not stop it |
| `Processor.JobProcessor.PublishAll` | `internal/worker/processor.go:334-339` | stops at the first event not known to be out; finishing means the whole plan is in the log; undisturbed exactly the events before the first one that validation refuses are out |
| `Processor.PlanAnnounces` | `internal/worker/processor.go:196-350` | the table of outcomes: a clean tool run announces all its findings, in order, stamped with scan and organization, and their number in the terminal event; every other run is one event saying completed, failed with the reason, or canceled |
| `Processor.JobProcessor.RunAndPublish` | `internal/worker/processor.go:284-350` | once the claim is held, what the delivery has published is, under any interference, a prefix of what its run has to announce, and all of it when it ends settled |
| `Processor.JobProcessor.Process` | `internal/worker/processor.go:219-350` | under any interference, a delivery that ends settled has published exactly what its run has to announce, and one dropped as a duplicate nothing; undisturbed, a claimed job's announcement is out if it names id, scan and engine, otherwise nothing is and the delivery is not terminal; nothing is published for a duplicate or an empty key, the latter is not terminal; the key is claimed and marked |
| `Processor.JobProcessor.Finish` | `internal/worker/worker.go:173-195` | no acknowledgement for a job nobody was told about; otherwise, under any interference, exactly one LREM unless the worker dies first |
| `WorkerLoop.InvStep` | `internal/worker/worker.go:103-154` | every step of loop, goroutines and canceler keeps the slot, wait-group and per-delivery accounts |
| `WorkerLoop.StateRecords` | `internal/worker/worker.go:118-152` | the deliveries counted, processed and finished are those in the trace: what Pop returned, what the processor came back from, what was finished |
| `WorkerLoop.AtMostConcurrency` | `internal/worker/worker.go:94-96` | in every interleaving at most `concurrency` deliveries are being executed |
| `WorkerLoop.NoSlotLeaks` | `internal/worker/worker.go:111-140` | each taken slot belongs to a goroutine that has yet to free it or to the loop's current attempt |
| `WorkerLoop.AtMostOnce` | `internal/worker/worker.go:136-152` | counted over the trace, a delivery is processed, finished and acknowledged at most once, finished only after being processed, and acknowledged exactly when finished with a terminal outcome; there are no deliveries but those that Pop returned |
| `WorkerLoop.ReturnsAfterAll` | `internal/worker/worker.go:98-108` | when Run has returned, no goroutine is left, all slots are free, and as many deliveries as Pop returned have been processed and finished, each exactly once |
| `WorkerLoop.BlockedOnlyByWork` | `internal/worker/worker.go:111-116` | a loop held up at the semaphore is held up by a goroutine that can move |
| `WorkerLoop.Worker.Run` | `internal/worker/worker.go:103-154` | the loop's code, with its drain, ends in such a state: total processed, total finished and deliveries returned by Pop agree, one by one |
| `WorkerLoop.Worker.Round` | `internal/worker/worker.go:110-152` | whatever the goroutines do, a round's own steps are a cancellation seen at the semaphore; a slot, a delivery, and a goroutine counted and started for it; or a slot, no delivery, and the slot given back; the loop is left in the first case, and in the third when Pop came back canceled |
| `WorkerLoop.Worker.Drain` | `internal/worker/worker.go:107-108` | the deferred wait ends, because goroutines only use up work |
| `WorkerLoop.Worker.RunJob` | `internal/worker/worker.go:138-152` | a goroutine processes and finishes its delivery once, acknowledges it exactly on a terminal outcome, and is gone |
| `WarmPool.InvStep` | `internal/tools/docker/warmpool.go:28-40` | every disciplined step keeps the pool's accounts |
| `WarmPool.PoolAccounting` | `internal/tools/docker/warmpool.go:36-40` | 0 <= size <= maxSize; while open, size is what is warm plus what callers have out or are creating, probing, replacing or cleaning |
| `WarmPool.Policy` | `internal/tools/docker/warmpool.go:197-242` | in every run warm containers are passed over only when there is none, a slot is reserved exactly when the pool is open and below its maximum, and a caller waits exactly when it is open and at its maximum |
| `WarmPool.NoSharing` | `internal/tools/docker/warmpool.go:197-242` | no container has two holders, is held and warm at once, or is held after being stopped |
| `WarmPool.WarmIsClean` | `internal/tools/docker/warmpool.go:279-280` | whatever is warm has been cleaned, with success, after it was last handed out, judged by the trace |
| `WarmPool.UsedIsHealthy` | `internal/tools/docker/warmpool.go:249-268` | nobody uses, cleans or puts back a container whose health check has not succeeded since it was taken out of the channel |
| `WarmPool.NeverOverflows` | `internal/tools/docker/warmpool.go:314-322` | the "channel full" branch is unreachable if each checkout is returned at most once |
| `WarmPool.ClosedChannelOnlyDrains` | `internal/tools/docker/warmpool.go:345-361` | once the pool is closed nothing enters the channel again, and after the drain it is empty |
| `WarmPool.ShutdownLeaksNothing` | `internal/tools/docker/warmpool.go:325-338` | after shutdown, drain and the return of all checkouts, every container ever produced has been stopped exactly once |
| `PoolDiscipline.DoubleReturnBreaks` | `internal/tools/docker/warmpool.go:311-322` | one double return on a pool of one leaves a container both warm and about to be stopped, with size zero |
| `PoolCode.WindsDownRun` | `internal/tools/docker/warmpool.go:348-361` | on a closed pool, channel and drain list only get shorter, whoever runs |
| `PoolCode.Pool.Lock` | `internal/tools/docker/warmpool.go:340-361` | whoever waits for the mutex waits for the shutdown's drain to end |
| `PoolCode.Pool.Checkout` | `internal/tools/docker/warmpool.go:197-242` | the caller's own steps are one of the ways through the code, under any interference; on success it holds exactly one container, found healthy since it was taken out of the channel or made by this call, otherwise none; a closed pool refuses at once |
| `PoolCode.Pool.HealthCheckOrReplace` | `internal/tools/docker/warmpool.go:249-268` | the received container is handed out exactly when its health check succeeds; otherwise it is stopped, and what is handed out was made since; a failed replacement gives the slot back |
| `PoolCode.Pool.Return` | `internal/tools/docker/warmpool.go:281-323` | the caller's own steps are one of the four ways through the code; the container is at the end of the channel if it was cleaned in an open pool, and stopped otherwise; the caller no longer holds it |
| `PoolCode.Pool.ShutDown` | `internal/tools/docker/warmpool.go:339-374` | when it returns, under any interference, the pool is closed and the channel empty; the call that closes it is the only one that says so and has everything drained stopped; any other takes no step |
| `PoolCode.Pool.RunTool` | `internal/tools/docker/dockerrunner.go:113-135` | the runner's own steps are a failed checkout, or a successful one and exactly one return |
| `ProcessingKeys.LastIndex` | `internal/redis/queue.go:94-94` | the last occurrence, or -1 exactly when there is none |
| `ProcessingKeys.KeyRoundTrip` | `internal/redis/queue.go:79-99` | worker id and priority are recovered from the name if and only if both are non-empty and the priority has no colon |
| `ProcessingKeys.SplitRebuilds` | `internal/redis/queue.go:89-99` | every accepted name is rebuilt exactly from its parts |
| `ProcessingKeys.KeysDiffer` | `internal/redis/queue.go:79-88` | no two lists share a name |
| `ProcessingKeys.OrphanProcessingKeys` | `internal/redis/reclaim.go:179-206` | the scan collects exactly the well-formed names of workers other than this one and outside the live set |
| `Heartbeat.Beat.Run` | `internal/worker/heartbeat.go:141-161` | after any pattern of failed writes the key expires one time to live after the last successful one |
| `Heartbeat.FiredMeans` | `internal/worker/heartbeat.go:141-161` | the ticks that count as fired by some time are exactly those that were due by then and before the cancellation |
| `Heartbeat.NeverLapses` | `internal/worker/heartbeat.go:27-37` | up to `m` failures in a row never let the key of a running or draining worker lapse if start-up delay, `m + 1` intervals and drain time fit into the time to live |
| `Heartbeat.DrainLapses` | `internal/worker/heartbeat.go:141-161` | otherwise there is a schedule with at most `m` failures in a row and a cancellation after which it lapses in time for a sweep |
| `Heartbeat.DefaultGraceExposes` | `internal/config/config.go:105-112` | with the default grace it can lapse during the drain even if no write fails |
| `Heartbeat.TooManyFailuresLapse` | `internal/worker/heartbeat.go:27-37` | for running workers: beyond the bound there is a schedule with at most `m` failures in a row that lapses before the cancellation |
| `Heartbeat.OneMissIsSurvived` | `internal/worker/heartbeat.go:34-37` | with the shipped timings and a start within one interval any isolated failure is survived |
| `Heartbeat.TwoMissesLapse` | `internal/worker/heartbeat.go:27-37` | two failures in a row are not, once the ticker starts any later than registration |
| `Heartbeat.ProtectedAfterCancel` | `internal/worker/heartbeat.go:52-56` | with no failed write the key outlives a cancellation by time to live less interval, less the start-up delay when no tick had fired |
| `Heartbeat.LiveWorkerIds` | `cmd/worker/reap_wiring.go:73-91` | collects exactly the non-empty ids behind the scanned heartbeat keys |
| `Heartbeat.SweepSelects` | `cmd/worker/reclaim_wiring.go:62-79` | a sweep spares the lists of a worker whose key exists during its whole heartbeat scan, and takes every list it finds of one whose key is missing during the whole scan |
| `Heartbeat.SweepSparesLive` | `cmd/worker/reclaim_wiring.go:62-79` | so it spares a worker between registration and the end of a drain that fits into the time to live |
| `Heartbeat.SweepTakesLate` | `cmd/worker/reclaim_wiring.go:66-79` | and takes the lists of one that registers after the heartbeat scan |
| `ControlPath.NameKeepsBucket` | `internal/tools/nikto/verify.go:512-532` | the dressed-up nonce falls into the bucket it was dressed up for |
| `ControlPath.DirectoryControl` | `internal/tools/nikto/verify.go:512-515` | the control of a directory is a directory beside it |
| `ControlPath.DotfileControl` | `internal/tools/nikto/verify.go:516-519` | that of a dotfile, whatever follows its name, is a dotfile beside it |
| `ControlPath.PlainControl` | `internal/tools/nikto/verify.go:520-526` | that of a name without a dot is the bare nonce; a query or an escape after the name does not matter |
| `ControlPath.ExtensionControl` | `internal/tools/nikto/verify.go:520-532` | a name with an extension has a control with the same extension if it is 1 to 16 letters and digits, and none otherwise |
| `ControlPath.RootControl` | `internal/tools/nikto/verify.go:480-491` | the root and a path without a parent have no control |
| `ControlPath.Shapes` | `internal/tools/nikto/verify.go:512-532` | every last segment is of one of these shapes |
| `ControlPath.ControlIsSibling` | `internal/tools/nikto/verify.go:475-509` | the control has the reported path's parent directory and routing bucket |
| `ControlPath.ControlIsElsewhere` | `internal/tools/nikto/verify.go:494-508` | it contains the nonce, so a path without the nonce is never its own control |
| `ControlPath.SharedControl` | `internal/tools/nikto/verify.go:382-385` | two paths share a control if and only if parent and bucket agree |
| `ControlPath.SharedControlUrl` | `internal/tools/nikto/verify.go:475-509` | two urls share a control if and only if scheme, host, parent and bucket agree and both or neither end in a bare question mark |
| `ControlPath.BareQuerySeparates` | `internal/tools/nikto/verify.go:502-508` | a url and the same url with a bare question mark have different controls |
| `ControlPath.ControlOfControl` | `internal/tools/nikto/verify.go:450-464` | the control of a control is itself |
| `SoftNotFound.Verifier.Fetch` | `internal/tools/nikto/verify.go:390-400` | a url in the cache is answered from it and not requested; any other is requested once and the network's answer kept |
| `SoftNotFound.CacheMeaning` | `internal/tools/nikto/verify.go:380-389` | no url is ever requested twice, and the cache holds the network's answers to exactly the requested urls |
| `SoftNotFound.Verifier.Decide` | `internal/tools/nikto/verify.go:346-378` | an expired budget asks nothing and keeps; otherwise the reason given is true of the network's answers, and the finding is dropped exactly when target and control were both answered, both are usable, and status and digest agree; the requests are exactly those the decision takes |
| `SoftNotFound.Verifier.Run` | `internal/tools/nikto/verify.go:241-306` | for any network and any moment of expiry the result is, in order, the input without the refuted ones among the findings before the first existence finding reached too late; a url is requested only if it is the target of a judged finding that has a control, or the control of one whose target was answered; without a nonce nothing is |
| `SoftNotFound.FilterStable` | `internal/tools/nikto/verify.go:380-389` | answers fetched later do not change what was decided |
| `SoftNotFound.FilterMeaning` | `internal/tools/nikto/verify.go:339-345` | the filter keeps order and keeps every copy of every finding except those existence findings whose target and control answers are usable and equal in status and digest |
| `SoftNotFound.SameSpotSameControl` | `internal/tools/nikto/verify.go:382-385` | targets at one spot resolve to one control, which is then asked for once |
| `SoftNotFound.WiredControl` | `internal/tools/nikto/verify.go:475-509` | a url has a control exactly when it parses, names a host and its path has one; the control keeps scheme, host and a bare question mark |

## Left out

- Redis, Docker and HTTP transports, JSON and XML codecs, logging, wall clocks: only the atomic effect of each command
  and its possible failure is kept. Whether a payload decodes is a property of the payload.
- Expiry of claims, markers and counters after 24 hours.
- The waiting between sweeps in `JobConsumer.Pop`, the timeouts on acknowledgement and publishing, and the ticker of the
  reclaim loop: a run may contain any number of sweeps at any times, and a timeout is a failed or lost command.
- Progress events and the cancel watcher: best effort, and read by nothing that is modelled; a cancel is an input.
- Whether a blocked checkout is eventually served: a failed cleanup or replacement lowers the size without waking
  waiters.
- Whether a clean run that ends during shutdown is reported: its publish uses the canceled context and may fail.
- At most one terminal event per job does not hold and is not claimed: a crash between the last publish and the
  acknowledgement leads to a later `failed` event.
- Recon's `attack_surface` events, published outside the marker protocol.
- Failing container stops: `Stop` is taken to succeed.
- Goroutine panics in the worker loop: they end the process, which is a worker crash in the queue model.
- WorkerLoop.Worker.Run: takes the number of rounds after which the context is canceled at the latest, because the
  loop has no bound of its own; the lemmas about all runs have no such bound.
- Reclaimer.Reclaim.OrphanLists: the scan is given as batches of list names, of which those count that are not empty
  when their batch is read, and it takes the liveness assumption; its filter on names is
  `ProcessingKeys.OrphanProcessingKeys`.
- Reclaimer.Reclaim.Run: a sweep gets its own worker id inside `live`, as the wiring passes it.
- SoftNotFound.Verifier.Run: expiry is read when a finding is reached; a budget that runs out during a probe shows as
  failed probes. Request headers, body limits and hashing are not modelled, and how urls are parsed, decoded and written
  is an arbitrary pair of functions.
- The wording of the failure messages of sweeps, which are any text, and the escapes in the name of an engine that is
  not registered.
- Tool parsers, severity tables, argument builders, CVSS mapping, polling backoff, orphan container reaping, staging,
  configuration, registries and start-up.
