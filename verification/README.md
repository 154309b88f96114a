# ComputeHive: a verified model of its job protocol, codecs and output pipeline

ComputeHive runs container jobs on volunteer workers. A coordinator keeps every job in Redis, workers claim jobs and
submit results over gRPC, a monitor evicts workers whose liveness key has expired, and a desktop client polls for the
outcome. This project models that system in Dafny and proves what it is for: no job is lost, none is finished twice,
only the worker that holds a job can change it, and the outcome a client reads is the one the container had.

## How the model is built

**The coordinator, twice.** `Store` is the Redis client: a class whose fields are the keys, with one method per
operation, each proved to take the snapshot `Db` to the value of a function on snapshots. `Handlers` is the gRPC server
over it and `Scheduler` the worker monitor and `PickWorker`; their methods are proved equal to functions on snapshots in
the same way. Two state machines then use those functions.

- `Protocol` makes each RPC and each whole monitor sweep one step (with TTL expiry as a step that can happen at any
  time). `Guarantees` proves refinement of a small abstract queue, exactly-once finalisation, fencing, absence of
  orphans, exactness of a sweep and a bound on work, over every run; `Liveness` what registrations and heartbeats
  achieve. `Scenario` exhibits one run through a claim, an
  eviction, a second claim and a final result, so that none of these theorems speaks about situations that cannot occur.
- `Interleaved` makes each single command, Lua script or MULTI/EXEC block one step. RPCs and the monitor are
  processes with a program counter and stale local copies; a command may fail before or after taking effect, may be
  sent again by the client library after taking effect, and a process may be abandoned anywhere. Loss-freedom and the
  queue ledger are proved here. Fencing, exactly-once and no-orphans do not hold for all runs at this grain: `Races`
  has a run for each failure, `CommandGrain` proves for every run exactly when they hold, and `Orphans` what becomes
  of a job they leave behind. The `...Alone` lemmas and `SweepAlone` connect the two machines: an RPC or a monitor
  sweep that is not interfered with has exactly the effect of its single step.

**The rest.** `RoundRobin` is the fairness of `PickWorker`. `Decimal`, `Resp` and `RespFraming` are the RESP2 codec
(Redis serialization protocol, sections "Bulk strings", "Arrays" and "Sending commands to a Redis server").
`CanonicalQuery` is the canonical query string of AWS Signature Version 4 ("Create a canonical request"; RFC 3986
sections 2.1 and 2.3). `Collect`, `ObjectNames` and `Upload` are output collection and content-addressed upload. `Executor`,
`Publisher` and `Agent` are the worker's path from a container exit to the stored result. `Domain` holds the shared
records, `Sorting` ordering and permutation lemmas, `Monitor` the declarative meaning of a sweep.

## What the proofs found

- The branch of `SubmitResult` that accepts a repeated final result (`coordinator/internal/grpc/handlers.go:184-187`) is
  unreachable when handlers do not interleave: finalising clears both places that name the worker, so a repeat is
  answered FailedPrecondition (`Guarantees.RepeatIsRefused`).
- The retry after NotFound in `PublishJobResult` (`worker/internal/store/redis.go:149-170`) serves no purpose: on
  every run the coordinator never answers NotFound for a job it has handed out
  (`Guarantees.HandedOutIsNeverNotFound`), and where it does answer so, for a job nobody submitted, the immediate
  retry is refused too (`Publisher.RetryIsRefused`).
- `collectFiles` adds sizes in an int64. It never rejects a directory within the limits, and one that it accepts is
  within them if and only if the sum of the sizes fits in an int64 (`Collect.AcceptedIffWithin`).
- The manifest of a job is overwritten only by a job whose id is sanitized to the same component
  (`ObjectNames.ManifestsDiffer`, `Upload.BucketHistory`). Ids that are components already, as UUIDs are, never collide
  (`ObjectNames.SanitizeIff`).
- `readReply` stays in step with the server exactly when no error reply is nested in an array, or the only such error
  ends the last item: an earlier one makes it return before the array is consumed (`RespFraming.InSyncIff`). After
  `*2 -e :1` the next call returns the left-over integer 1 as the answer to the next command (`RespFraming.DesyncExample`).
- Between single Redis commands, a job can be orphaned (`Races.OrphanIsReachable`); a finished job can change its status
  (`Races.FinalStatusCanFlip`), or keep it while a late partial result replaces the final one, which the client is then
  shown as completed and RUNNING (`Races.FinalResultCanBeOverwritten`); an evicted worker can come back through a heartbeat
  in flight (`Races.EvictedCanReturn`), and can finish a job that was already put back in the queue
  (`Races.EvictedCanFinish`).
- When that happens is known exactly: `CommandGrain.OrphanStepIff` for orphans, `CommandGrain.FinishedDisturbedIff`
  for a change to a finished job's status, record and result, `CommandGrain.FinalisedAgainIff` for a second
  finalisation with whatever contents, `CommandGrain.FencedIff` for a submission that does not come from the current
  holder, `CommandGrain.EvictedActsIff` for an evicted worker. An orphan stays one until its worker itself submits
  something (`Orphans.OrphanStays`, `Races.OrphanForGood`). Once no process in flight means to write about a finished
  job it never changes again (`CommandGrain.SettledForever`), and an evicted worker with nothing in flight is gone
  for good (`CommandGrain.GoneForGood`).
- The branch of `RequestJob` for a claimed id without a job record is dead (`Interleaved.ClaimedJobHasRecord`).

## Model

| member | source | states |
|---|---|---|
| Store.Redis.ClaimNextQueuedJobForWorker | coordinator/internal/store/redis.go:119-156 | the oldest queued id is popped, marked running and bound to the worker in one step; an empty queue changes nothing |
| Store.Redis.SaveWorker | coordinator/internal/store/redis.go:158-172 | the record is stored and the id joins the worker set, nothing else changes |
| Store.Redis.RemoveWorker | coordinator/internal/store/redis.go:190-199 | set member, record and liveness key disappear together |
| Store.Redis.EnqueueJob | coordinator/internal/store/redis.go:225-240 | record, status and queue entry appear together, the id at the tail |
| Store.Redis.RequeueJobID | coordinator/internal/store/redis.go:254-263 | status queued, assignment dropped, id appended, record untouched |
| Store.Redis.SaveJob | coordinator/internal/store/redis.go:265-276 | only the job record changes |
| Store.Redis.SaveResult | coordinator/internal/store/redis.go:387-398 | only the result record changes |
| Store.Redis.FinalizeJobWithResult | coordinator/internal/store/redis.go:400-431 | refuses a non-terminal status without effect; otherwise result, status, assignment and record change together |
| Store.Redis.RequeueRunningJob | coordinator/internal/store/redis.go:450-483 | requeues exactly a known job whose status is running |
| Store.Redis.ListJobWorkerAssignments | coordinator/internal/store/redis.go:303-334 | for any SCAN paging, repeats allowed, the result is exactly the set of non-empty assignments |
| Store.Redis.JobsForWorker | coordinator/internal/store/redis.go:336-349 | each job assigned to the worker once, for any map order |
| Handlers.Server.RegisterWorker | coordinator/internal/grpc/handlers.go:16-41 | equals the snapshot function Register, whose effect Liveness.RegisterExact states |
| Handlers.Server.Heartbeat | coordinator/internal/grpc/handlers.go:43-71 | equals HeartbeatOutcome, reply and state, on every branch; Liveness.HeartbeatExact states what that achieves |
| Handlers.Server.RequestJob | coordinator/internal/grpc/handlers.go:73-136 | equals RequestOutcome, reply and state, on every branch |
| Handlers.Server.SubmitResult | coordinator/internal/grpc/handlers.go:138-245 | equals SubmitOutcome, reply and state, on every branch |
| Handlers.Server.SubmitJob | coordinator/internal/grpc/handlers.go:247-282 | equals SubmitJobOutcome: a malformed request changes nothing |
| Handlers.Server.GetJobStatus | coordinator/internal/grpc/handlers.go:284-315 | equals JobStatusQuery and changes nothing |
| Handlers.Server.GetJobResult | coordinator/internal/grpc/handlers.go:317-371 | equals JobResultQuery and changes nothing |
| Handlers.StatusNameRoundTrip | coordinator/internal/grpc/handlers.go:337-345 | the status name stored with a result reads back as the same status |
| Scheduler.Scheduler.CheckWorkers | coordinator/internal/scheduler/scheduler.go:128-167 | for any member order, SCAN paging and map order, the nested loop has exactly the declarative effect of a sweep: each job running on a dead worker is appended once, nothing else moves, exactly the dead workers go |
| Scheduler.Scheduler.PickWorker | coordinator/internal/scheduler/scheduler.go:28-82 | draws from the sorted eligible list at the cursor and advances the cursor modulo its length; with nobody eligible neither answers nor moves the cursor |
| Monitor.SweptRequeue | coordinator/internal/scheduler/scheduler.go:152-158 | requeueing one more job extends the sweep by that job exactly if it is running |
| Protocol.RunKeeps | coordinator/internal/grpc/handlers.go:16-282 | on every run the five representations of each job agree, the worker registry agrees with itself and with the holders, and claims, finalisations and queue balance |
| Protocol.KeepsJobs | coordinator/internal/grpc/handlers.go:73-282 | every RPC, sweep and expiry keeps queue, status, assignment, record and result of every job in agreement |
| Protocol.KeepsWorkers | coordinator/internal/store/redis.go:158-199 | every step keeps worker set, records and liveness keys consistent and every holder registered |
| Protocol.SubmitCases | coordinator/internal/grpc/handlers.go:149-191 | a submission that is not refused comes from the holder of a running job |
| Guarantees.Refinement | coordinator/internal/grpc/handlers.go:73-282 | every event is one step of the abstract queue (new, take the head, finish, put back) or leaves it alone |
| Guarantees.RunRefines | coordinator/internal/grpc/handlers.go:73-282 | every run of the coordinator is, step by step, a run of the abstract queue |
| Guarantees.StatusQueryExact | coordinator/internal/grpc/handlers.go:284-315 | GetJobStatus reports exactly the abstract state and its holder |
| Guarantees.ResultQueryExact | coordinator/internal/grpc/handlers.go:317-371 | GetJobResult reports the abstract state, the final result unchanged when done, and at most a RUNNING partial result before |
| Guarantees.CompletedIffDone | client/src-tauri/src/lib.rs:660-708 | the client's completed flag is true if and only if the job is done, partial results and requeues notwithstanding |
| Guarantees.DoneForever | coordinator/internal/grpc/handlers.go:157-191 | no later run changes the status, record or result of a finished job, or queues or assigns it |
| Guarantees.ExactlyOnce | coordinator/internal/store/redis.go:400-431 | on every run a job was finalised once if it is done and never otherwise |
| Guarantees.RepeatIsRefused | coordinator/internal/grpc/handlers.go:157-191 | a final result for a finished job is refused with FailedPrecondition; the accepting branch is unreachable |
| Guarantees.Fencing | coordinator/internal/grpc/handlers.go:157-191 | a submission that changes anything comes from the worker that made the job's most recent claim |
| Guarantees.EvictedIsFenced | coordinator/internal/grpc/handlers.go:49-85 | after its eviction, on any run, a worker id is answered exactly NotFound when it polls or sends a heartbeat, and never claims, revives or changes a job |
| Guarantees.NoOrphans | coordinator/internal/scheduler/scheduler.go:135-163 | the holder of a running job is registered, and if it is dead the next sweep puts the job back |
| Guarantees.SweepExact | coordinator/internal/scheduler/scheduler.go:128-167 | a sweep appends exactly the jobs held by dead workers, once each, after the untouched queue, and leaves exactly the live workers |
| Guarantees.WorkIsBounded | coordinator/internal/grpc/handlers.go:73-136 | claims + finalisations + 2 x queued + running = 2 x submissions + requeues, on every run |
| Guarantees.WorkRunsOut | coordinator/internal/grpc/handlers.go:234-240 | without new jobs and requeues every claim and finalisation uses up potential |
| Guarantees.SpecReachesWorker | coordinator/internal/grpc/handlers.go:115-135 | whoever is handed a job, after any number of requeues, gets what the client submitted |
| Guarantees.ResultReachesClient | coordinator/internal/grpc/handlers.go:193-240 | an accepted final result is what every later GetJobResult returns, field by field |
| Guarantees.HandedOutIsNeverNotFound | coordinator/internal/grpc/handlers.go:149-175 | on every run, a submission about a job that RequestJob handed out is never answered NotFound |
| Guarantees.PartialReachesClient | coordinator/internal/grpc/handlers.go:193-223 | an accepted partial result is what GetJobResult returns, field by field, until the next submission about the job, through evictions and further claims |
| Guarantees.RequestAnswers | coordinator/internal/grpc/handlers.go:73-136 | an unknown worker is told NotFound, one whose liveness key has run out is given nothing, and a live one gets exactly the head of the queue; nothing else changes |
| Guarantees.SubmitAnswers | coordinator/internal/grpc/handlers.go:138-245 | the state of the job alone decides between NotFound, FailedPrecondition, PermissionDenied, InvalidArgument and acceptance, and what acceptance changes |
| Guarantees.SubmitJobAnswers | coordinator/internal/grpc/handlers.go:247-282 | refused without effect if image, command or resources are missing; otherwise the job is last in the queue and no other job is touched |
| Liveness.RegisterExact | coordinator/internal/grpc/handlers.go:16-41 | the worker becomes a live member with its new record, every other worker and every job is as before |
| Liveness.HeartbeatExact | coordinator/internal/grpc/handlers.go:43-71 | a registered worker is alive afterwards, its record has the new resources and time and keeps id, version and registration time, every other worker and every job is as before; anyone else is refused without effect |
| Liveness.AliveIff | coordinator/internal/store/redis.go:218-223 | on every run a worker is alive at the end if and only if it was alive at the start or reported successfully, and its key has not run out since |
| Liveness.ReportProtects | coordinator/internal/scheduler/scheduler.go:135-163 | after a registration or heartbeat, as long as the key does not run out, the worker stays registered and alive at every point of every run, is in no sweep's dead set, and no sweep takes a job from it |
| Liveness.LiveWorkerKeepsJob | coordinator/internal/scheduler/scheduler.go:135-163 | a job held by such a worker stays with it on every run until it submits a result for it |
| Scenario.FinishedAfterEviction | coordinator/internal/grpc/handlers.go:73-245 | a run exists on which a job is requeued by an eviction, claimed by another worker and finished |
| Interleaved.RunKeeps | coordinator/internal/store/redis.go:119-483 | the command-level invariant survives every interleaving, failure and abandonment |
| Interleaved.NoJobLost | coordinator/internal/store/redis.go:119-483 | a submitted job is always queued, assigned, or finished with a stored result, its status says which, and its record keeps the submitted data |
| Interleaved.ClaimedJobHasRecord | coordinator/internal/grpc/handlers.go:103-110 | a claimed id always has a job record |
| Interleaved.ClaimsAreFifo | coordinator/internal/store/redis.go:127-134 | ids popped so far followed by the queue are the ids pushed so far, so claims follow push order |
| Interleaved.ClaimCount | coordinator/internal/store/redis.go:225-263 | claims of a job plus its queue entries equal one submission plus its requeues |
| Interleaved.RequeueAtomicIff | coordinator/internal/store/redis.go:450-483 | the check-then-act requeue equals an atomic one if and only if the job is still running when it writes |
| Interleaved.FinaliseAtomicWhen | coordinator/internal/grpc/handlers.go:149-240 | a delayed finalisation whose guard still holds writes what the uninterrupted handler writes; otherwise that handler writes nothing |
| Interleaved.RegisterAlone | coordinator/internal/grpc/handlers.go:16-41 | run without interference, the commands of RegisterWorker have the handler's effect |
| Interleaved.HeartbeatAlone | coordinator/internal/grpc/handlers.go:43-71 | the same for Heartbeat |
| Interleaved.RequestAlone | coordinator/internal/grpc/handlers.go:73-136 | the same for RequestJob |
| Interleaved.SubmitAlone | coordinator/internal/grpc/handlers.go:138-245 | the same for SubmitResult |
| Interleaved.SubmitJobAlone | coordinator/internal/grpc/handlers.go:247-282 | the same for SubmitJob |
| SweepAlone.MonitorAlone | coordinator/internal/scheduler/scheduler.go:128-167 | whatever order, paging and repetition SMEMBERS, SCAN and the map choose, the monitor's commands run without interference add up to exactly one sweep |
| SweepAlone.MonitorFinishes | coordinator/internal/scheduler/scheduler.go:128-167 | from every database such a run reaches its end |
| CommandGrain.OrphanStepIff | coordinator/internal/store/redis.go:119-199 | a step creates an unregistered holder if and only if it claims for an unregistered worker or evicts a worker that holds a job |
| CommandGrain.FinishedDisturbedIff | coordinator/internal/store/redis.go:119-483 | on every run a step changes a finished job's status, record, result, assignment or queueing if and only if it is a stale claim, undo, requeue or repeated submission of that job, or overwrites its record or result with something else |
| CommandGrain.SettledForever | coordinator/internal/grpc/handlers.go:149-240 | a finished, released job about which no process in flight means to write keeps status, record and result on every further run |
| CommandGrain.HolderIs | coordinator/internal/store/redis.go:119-483 | on every run the assignment of a job is what the last claim, undo, requeue or finalisation made it |
| CommandGrain.FencedIff | coordinator/internal/grpc/handlers.go:157-240 | on every run, a submission about to write had its check met by its own assignment, and then it comes from the current holder if and only if nothing wrote the assignment since or a claim by the same worker did so last; or by no assignment and an old copy of the record naming it, and then if and only if such a claim came last |
| CommandGrain.FinalisedAgainIff | coordinator/internal/grpc/handlers.go:172-240 | on every run, a final submission about to write read the status as running, and meets a job that is finished already if and only if a finalisation was the last command to write that status since |
| CommandGrain.StatusIs | coordinator/internal/store/redis.go:119-483 | on every run the status of a submitted job is what the last claim, undo, requeue, repeated submission or finalisation made it |
| CommandGrain.EvictedActsIff | coordinator/internal/grpc/handlers.go:28-98 | a step brings an evicted worker back or hands it a job if and only if it completes a registration, heartbeat or claim of that worker |
| CommandGrain.GoneForGood | coordinator/internal/scheduler/scheduler.go:145-163 | an evicted worker with no registration, heartbeat or claim in flight is never registered again or given a job, on any run |
| Orphans.OrphanStays | coordinator/internal/scheduler/scheduler.go:128-163 | a job running on such a worker, with nothing about it in flight, is never requeued, reassigned or finished on any run until that worker itself submits something about it |
| Races.OrphanIsReachable | coordinator/internal/grpc/handlers.go:87-98 | witness: eviction between the liveness check and the claim leaves a running job with an unregistered holder |
| Races.OrphanForGood | coordinator/internal/grpc/handlers.go:87-98 | witness: that orphan, with its worker silent and nothing in flight |
| Races.FinalStatusCanFlip | coordinator/internal/grpc/handlers.go:149-240 | witness: two overlapping final submissions turn completed into failed |
| Races.FinalResultCanBeOverwritten | coordinator/internal/grpc/handlers.go:220-240 | witness: a partial result saved late replaces the final one while the status stays completed |
| Races.EvictedCanReturn | coordinator/internal/grpc/handlers.go:49-65 | witness: the rest of a heartbeat re-adds an evicted worker |
| Races.EvictedCanFinish | coordinator/internal/grpc/handlers.go:157-240 | witness: a submission checked before an eviction finishes the job after it was put back, and the job stays queued |
| RoundRobin.WindowIsPermutation | coordinator/internal/scheduler/scheduler.go:28-82 | from any cursor, n consecutive picks over n eligible workers are a permutation of them |
| RoundRobin.Fairness | coordinator/internal/scheduler/scheduler.go:28-82 | over any number of picks two eligible workers differ by at most one |
| RoundRobin.PickRepeatedly | coordinator/internal/scheduler/scheduler.go:28-82 | calling PickWorker k times on an unchanged database, for any member orders, draws exactly the sequence the fairness results are about |
| RoundRobin.EligibleExactly | coordinator/internal/scheduler/scheduler.go:36-72 | the list drawn from holds each live worker that meets the CPU, GPU and memory request, or whose resources are unknown, once, and nobody else, in ascending order of ids |
| RoundRobin.MemberOrderIrrelevant | coordinator/internal/scheduler/scheduler.go:28-40 | the answer does not depend on the order in which SMEMBERS replied |
| Decimal.AtoiItoa | worker/internal/store/resp.go:28-40 | parsing a printed length gives the length back |
| Decimal.ItoaIsDecimal | worker/internal/store/resp.go:28-40 | printed lengths are decimal and without leading zeros |
| Resp.Reader.NextReply | worker/internal/store/resp.go:42-111 | the stream reader computes ReadReply of the unread bytes and leaves exactly the rest; the recursion terminates on every input |
| Resp.Reader.NextLine | worker/internal/store/resp.go:113-120 | a line ends at the first line feed and loses one trailing carriage return |
| RespFraming.Writer.WriteCommand | worker/internal/store/resp.go:28-40 | appends the array-of-bulk-strings encoding of the command |
| RespFraming.ReaderIsExact | worker/internal/store/resp.go:42-111 | every well-formed reply, nested arrays, nulls and errors included, is read as what it means, whatever follows it |
| RespFraming.CommandRoundTrip | worker/internal/store/resp.go:28-111 | a written command with arbitrary bytes, CR and LF included, reads back as its arguments and consumes exactly its bytes |
| RespFraming.PipelineRoundTrip | worker/internal/store/resp.go:28-111 | so does any sequence of commands |
| RespFraming.ReadReplyLocal | worker/internal/store/resp.go:42-111 | bytes that arrive later change neither a complete reply nor what is left after it |
| RespFraming.PrefixFreeIff | worker/internal/store/resp.go:42-111 | every strict prefix of a well-formed reply is reported as an unexpected end of the stream, if and only if no error cuts an array of it short |
| RespFraming.PrefixFree | worker/internal/store/resp.go:42-111 | every strict prefix of a command is reported as an unexpected end of the stream |
| RespFraming.ReplyCut | worker/internal/store/resp.go:42-111 | whatever begins like something readable fails, if at all, only for want of bytes |
| RespFraming.ReplyUsed | worker/internal/store/resp.go:42-111 | whatever was read from any bytes is read again, with nothing left, from exactly the bytes it used |
| RespFraming.DesyncExample | worker/internal/store/resp.go:52-57 | a concrete reply after which the next answer is a left-over item |
| RespFraming.InSyncIff | worker/internal/store/resp.go:52-53 | the reader stops at the end of a reply if and only if no error reply cuts an array short |
| CanonicalQuery.UriEncodeQueryComponent | client/src-tauri/src/lib.rs:2127-2140 | the byte loop percent-encodes everything but unreserved characters |
| CanonicalQuery.DecodeEncode | client/src-tauri/src/lib.rs:2127-2140 | percent-decoding inverts the encoding on every byte string |
| CanonicalQuery.KeptIff | client/src-tauri/src/lib.rs:2127-2140 | a text is left as it is exactly if it consists of letters, digits and the marks - _ . ~ |
| CanonicalQuery.CanonicalQueryString | client/src-tauri/src/lib.rs:2142-2159 | computes the string whose assignments CanonicalInOrder orders and ParseCanonical reads back |
| CanonicalQuery.CanonicalInOrder | client/src-tauri/src/lib.rs:2152-2158 | between the ampersands stands one assignment for each pair, ordered by encoded key and then by encoded value: a proper prefix first, otherwise the smaller byte at the first difference |
| CanonicalQuery.ParseCanonical | client/src-tauri/src/lib.rs:2142-2159 | splitting and decoding recovers the same multiset of pairs |
| CanonicalQuery.CanonicalForgetsOrder | client/src-tauri/src/lib.rs:2142-2159 | any permutation of the pairs gives the same string |
| CanonicalQuery.CanonicalIff | client/src-tauri/src/lib.rs:2142-2159 | two lists of pairs have the same canonical string if and only if they are permutations of each other |
| Collect.InspectFile | worker/internal/output/manager.go:262-305 | however reads split the file, hash, size and sniffed header are those of the whole content; a read error fails |
| Collect.CollectFiles | worker/internal/output/manager.go:193-260 | with its early exits it succeeds if and only if the regular files as a whole pass its tests, with the int64 total wrapping around, and then returns the sorted listing and that total |
| Collect.AcceptedIffWithin | worker/internal/output/manager.go:213-241 | a directory within the limits always passes those tests, and one that passes is within the limits if and only if the sum of its sizes fits in an int64 |
| Collect.AcceptedIsInside | worker/internal/output/manager.go:226-238 | every accepted file lies inside the output directory and was read to its end |
| Collect.LimitsForgetOrder | worker/internal/output/manager.go:193-260 | success and total do not depend on the walk order |
| Collect.ListingForgetsOrder | worker/internal/output/manager.go:252-259 | the path-sorted listing is the same for every walk of the same tree |
| Upload.Manager.EnsureBlob | worker/internal/output/manager.go:307-328 | one HEAD, a PUT only if absent; on success the key holds bytes with its hash, and a file that changed or vanished since its inspection is refused |
| Upload.Manager.UploadFiles | worker/internal/output/manager.go:129-160 | one artifact per file in order, one HEAD per distinct hash, one PUT per blob missing before |
| Upload.Manager.CollectAndUpload | worker/internal/output/manager.go:112-183 | every outcome of a job: nothing to upload, limits broken, uploads disabled, or blobs and manifest delivered, with the manifest's addresses and total size returned; the bucket stays content-addressed on every path |
| Upload.ListingIsListed | worker/internal/output/manager.go:129-153 | the artifacts of an upload are one for each regular file met, with its path, size, content hash and type and the names of its blob, no others, in path order |
| Upload.BucketHistory | worker/internal/output/manager.go:129-183 | over any sequence of jobs, failed ones included, the bucket stays content-addressed, no blob changes, and each successful job's manifest keeps its content to the end unless a later job's id is sanitized to the same component |
| ObjectNames.ManifestsDiffer | worker/internal/output/manager.go:448-462 | two jobs share a manifest object, or one of its addresses, if and only if their ids are sanitized alike |
| ObjectNames.SanitizePathComponent | worker/internal/output/manager.go:464-493 | the loop computes Sanitize: trimmed, unsafe characters replaced, dashes dropped at the ends, "job" for nothing |
| ObjectNames.SanitizeIff | worker/internal/output/manager.go:464-493 | every id becomes a non-empty component of safe characters, and exactly the components, such as UUIDs, are left as they are, so different ones stay different |
| Upload.OneHeadPerHash | worker/internal/output/manager.go:129-151 | files that share a hash cost one HEAD together, and one PUT if the bucket lacks the blob |
| Executor.RunContainer | worker/internal/executor/docker.go:34-115 | completed with exit code 0 if and only if everything up to a clean exit succeeded; otherwise failed with the exit error's code or -1; the streams are the container's, or those of the failed load |
| Publisher.WorkerStore.PublishJobResult | worker/internal/store/redis.go:127-176 | succeeds exactly when the first submission arrives, is accepted and is answered, and then that acceptance is its last effect; what it does to the coordinator is a run of its own registrations and submissions, given new ids |
| Publisher.ReportReachesClient | worker/internal/store/redis.go:133-148 | once accepted, every later GetJobResult shows each stream whole or its first 4096 bytes, and the exit code, status, addresses, size, artifacts and finishing time of the worker's result |
| Publisher.RetryIsRefused | worker/internal/store/redis.go:149-170 | a result answered NotFound is not accepted from a freshly registered worker in the same state either |
| Agent.Agent.HandleJob | worker/internal/worker/agent.go:171-291 | which jobs get a result published, with which status, exit code, streams and time; its outputs are exactly the files met and the manifest stored, or none; its artifacts are in the bucket; the agent is idle after every exit; the counters still count the accepted results |
| Agent.Agent.CollectOutputs | worker/internal/worker/agent.go:249-271 | the upload goes through only if the outputs are acceptable, and always if they are, the link is reliable and the files are unchanged; it returns one artifact for each regular file, each naming a stored object with the stated hash, and the manifest it stored |
| Agent.Agent.PublishInvalidJob | worker/internal/worker/agent.go:330-356 | an invalid job with an id is published as failed, one without an id changes nothing |
| Agent.Agent.RunTask | worker/internal/worker/agent.go:233-273 | completed exactly for a clean run whose outputs were uploaded, in agreement with the exit code; the container's streams and time survive; the outputs are the files met and the manifest stored, or none |
| Agent.Agent.PublishFailedJob | worker/internal/worker/agent.go:306-356 | a failed result with exit code -1, counted only if accepted |
| Agent.Agent.RecordResult | worker/internal/worker/agent.go:373-381 | a failed status counts as failed, any other as done |
| Agent.HandledJobExtendsHonestRun | worker/internal/worker/agent.go:171-291 | what handling one job does to the coordinator extends any honest run to an honest run, so the outcome result composes over any number of agents and jobs |
| Agent.OutcomeAgreement | coordinator/internal/grpc/handlers.go:193-240 | on every run of honest workers, a job the client sees as completed has succeeded if and only if the exit code beside it is 0 |
| Agent.AcceptedMeansDone | coordinator/internal/grpc/handlers.go:226-240 | an accepted publication came from the holder and finished the job with the reported outcome |
| Agent.ArtifactsReachClient | worker/internal/output/manager.go:307-328 | once a final result whose artifacts are in the bucket is accepted, every later answer to the client lists them, and each names a stored object of the stated hash, whatever other jobs do afterwards |
| Agent.OutcomeReachesClient | worker/internal/worker/agent.go:233-277 | from HandleJob to the client: once accepted, every later answer shows the container's streams (up to 4096 bytes each), success exactly if deserved, exit code and time, one artifact for each file it left, still stored under its hash, and the manifest, still where the answer says unless a later job's id is sanitized alike |

## Left out

- gRPC, protobuf, TLS, JSON and the Redis wire connection of the coordinator: payloads are datatypes, Redis is a snapshot of maps, sets and a queue.
- Internal errors of the handlers are modelled at the grain of single commands only; the handler methods are failure-free.
- Wall-clock time: expiry is a step that can happen at any moment, timestamps are opaque numbers, `finished_at` 0 stands for "not set".
- SHA-256 and request signing: the hash is an uninterpreted function, and only the canonical query text is modelled.
- ObjectNames.SanitizePathComponent: ids are sequences of code points, as the loop ranges over runes; white space is ASCII.
- Status numbers outside the enum `compute.v1.Status`, and white space around identifiers and digests.
- `AssignJob`, `PopQueuedJobID`, `SetJobStatus`, `SetJobWorker`, `DeleteJobWorker`: no RPC reaches them.
- `PullJob` and the heartbeat loop of the worker, and concurrent use of the worker's cached coordinator id by that loop.
- Exactly-once, fencing and no-orphans are not claimed for all runs at the command grain, where they are false; `CommandGrain` says exactly when they hold.
- Interleaved.ClaimCount: an EnqueueJob, requeue or claim that the Redis client library sends again after its reply was lost counts as a further push or claim, so the count is one per submission plus one per requeue or repeated push.
- Job normalisation, container and archive names, configuration, the user interface and the clean-up script: single-function facts.
- Docker, the file system and artifact fetching are outcomes chosen by the environment; error texts are abbreviated and durations dropped.
- Collect.CollectFiles: assumes that directory entries can be examined.
- Publisher.WorkerStore.PublishJobResult: the calls of one publication follow each other without other RPCs in between; what other RPCs may do there is covered for the coordinator by the results over all runs.
- Upload.Manager.CollectAndUpload: assumes that hex digests contain no white space and that the object store refuses a body whose hash differs from the signed payload hash.
- Agent.Agent.HandleJob: the agreement of status and exit code assumes that an exit error's code is not zero as an int32.
- RespFraming.CommandRoundTrip: assumes arguments that the reader can allocate; a declared length below -1 or above the allocator's limit on 64-bit Linux is the outcome Panic, and running out of memory below that limit is not modelled.
