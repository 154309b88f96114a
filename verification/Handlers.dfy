/** coordinator/internal/grpc/handlers.go: the RPC handlers.
    Each handler is a method over the Redis client, proved equal to a function on snapshots. */
module Handlers {
  import opened Domain
  import opened Store

  // ----- workers -----

  function NewWorker(id: Id, resources: Option<ResourceSpec>, version: string, now: int): WorkerRecord {
    WorkerRecord(id, resources, version, now, now)
  }

  function Register(db: Db, w: WorkerRecord): Db {
    MarkedAlive(WorkerSaved(db, w), w.id)
  }

  function HeartbeatOutcome(db: Db, worker: Id, resources: Option<ResourceSpec>, now: int): (Db, Reply<()>) {
    if worker == "" then (db, Fail(InvalidArgument))
    else if worker !in db.records then (db, Fail(NotFound))
    else
      var record := db.records[worker].(resources := resources, lastHeartbeat := now);
      (WorkerSaved(MarkedAlive(db, worker), record), Ok(()))
  }

  // ----- claiming -----

  /** `Ok(None)` is `HasJob: false`. */
  function RequestOutcome(db: Db, worker: Id): (Db, Reply<Option<JobRecord>>) {
    if worker == "" then (db, Fail(InvalidArgument))
    else if worker !in db.records then (db, Fail(NotFound))
    else if worker !in db.alive then (db, Ok(None))
    else
      var j := NextQueued(db);
      var claimed := Claimed(db, worker);
      if j == "" then (claimed, Ok(None))
      else if j !in claimed.jobs then (RequeuedId(claimed, j), Ok(None))
      else
        var job := claimed.jobs[j].(status := Running, assignee := worker);
        (JobSaved(claimed, job), Ok(Some(job)))
  }

  // ----- results -----

  function AssignedWorker(job: JobRecord, held: Id): Id {
    if held != "" then held else job.assignee
  }

  function ToRecord(worker: Id, r: PbResult, now: int): ResultRecord {
    var partial := r.status == StatusRunning;
    ResultRecord(r.jobId, worker, r.status.Name(), partial, r.exitCode, r.body,
                 if !partial && r.finishedAt == 0 then now else r.finishedAt)
  }

  function TerminalFor(status: PbStatus): JobStatus {
    if status == StatusFailed then Failed else Completed
  }

  /** What SubmitResult decides to do from what it read: the job record, `job_worker` and `job_status`. */
  datatype Verdict =
    | Refuse(code: Code)
    | AlreadyDone
    | StorePartial(record: ResultRecord)
    | Commit(record: ResultRecord, terminal: JobStatus)

  function JudgeAssignment(worker: Id, job: JobRecord, held: Id): Option<Code> {
    if AssignedWorker(job, held) == "" then Some(FailedPrecondition)
    else if AssignedWorker(job, held) != worker then Some(PermissionDenied)
    else None
  }

  function JudgeStatus(worker: Id, r: PbResult, current: Option<JobStatus>, now: int): Verdict {
    if current.None? then Refuse(NotFound)
    else if r.status != StatusRunning && r.status != StatusSucceeded && r.status != StatusFailed then
      Refuse(InvalidArgument)
    else if r.status == StatusRunning then StorePartial(ToRecord(worker, r, now))
    else if current.value.Terminal() then AlreadyDone
    else if current.value != Running then Refuse(FailedPrecondition)
    else Commit(ToRecord(worker, r, now), TerminalFor(r.status))
  }

  function SubmitVerdict(db: Db, req: SubmitResultRequest, now: int): Verdict {
    if req.workerId == "" || req.result.None? || req.result.value.jobId == "" then Refuse(InvalidArgument)
    else
      var j := req.result.value.jobId;
      if j !in db.jobs then Refuse(NotFound)
      else
        var denied := JudgeAssignment(req.workerId, db.jobs[j], GetString(db.holder, j));
        if denied.Some? then Refuse(denied.value)
        else JudgeStatus(req.workerId, req.result.value, Get(db.status, j), now)
  }

  function Enact(db: Db, job: JobRecord, v: Verdict): Db {
    match v
    case Refuse(_) => db
    case AlreadyDone => db
    case StorePartial(r) => ResultSaved(db, r)
    case Commit(r, terminal) => Finalized(db, job, r, terminal)
  }

  function SubmitOutcome(db: Db, req: SubmitResultRequest, now: int): (Db, Reply<()>) {
    var v := SubmitVerdict(db, req, now);
    if v.Refuse? then (db, Fail(v.code))
    else (Enact(db, db.jobs[req.result.value.jobId], v), Ok(()))
  }

  // ----- jobs -----

  predicate Acceptable(spec: JobSpec) {
    spec.image != "" && spec.command != [] && spec.resources.Some?
  }

  function NewJob(id: Id, spec: JobSpec, now: int): JobRecord {
    JobRecord(id, spec, Queued, now, "")
  }

  function SubmitJobOutcome(db: Db, id: Id, spec: JobSpec, now: int): (Db, Reply<Id>) {
    if Acceptable(spec) then (Enqueued(db, NewJob(id, spec, now)), Ok(id)) else (db, Fail(InvalidArgument))
  }

  // ----- queries -----

  function RedisStatusToPB(status: Option<JobStatus>): PbStatus {
    match status
    case None => StatusUnspecified
    case Some(Queued) => StatusQueued
    case Some(Running) => StatusRunning
    case Some(Completed) => StatusSucceeded
    case Some(Failed) => StatusFailed
  }

  /** The generated map `Status_value`. */
  function StatusValue(name: string): Option<PbStatus> {
    if name == "STATUS_UNSPECIFIED" then Some(StatusUnspecified)
    else if name == "STATUS_QUEUED" then Some(StatusQueued)
    else if name == "STATUS_ASSIGNED" then Some(StatusAssigned)
    else if name == "STATUS_RUNNING" then Some(StatusRunning)
    else if name == "STATUS_SUCCEEDED" then Some(StatusSucceeded)
    else if name == "STATUS_FAILED" then Some(StatusFailed)
    else if name == "STATUS_CANCELED" then Some(StatusCanceled)
    else None
  }

  lemma StatusNameRoundTrip(s: PbStatus)
    ensures StatusValue(s.Name()) == Some(s)
  {
    assert |s.Name()| in {18, 13, 15, 14, 16};
    assert "STATUS_RUNNING"[7] == 'R' && "STATUS_QUEUED"[7] == 'Q' && "STATUS_FAILED"[7] == 'F';
    assert "STATUS_ASSIGNED"[7] == 'A' && "STATUS_CANCELED"[7] == 'C' && "STATUS_SUCCEEDED"[7] == 'S';
  }

  datatype JobStatusAnswer = JobStatusAnswer(status: PbStatus, worker: Id)

  function JobStatusQuery(db: Db, j: Id): Reply<JobStatusAnswer> {
    if j == "" then Fail(InvalidArgument)
    else if j !in db.status && j !in db.jobs then Fail(NotFound)
    else
      var held := GetString(db.holder, j);
      Ok(JobStatusAnswer(RedisStatusToPB(Get(db.status, j)),
                         if held != "" then held else if j in db.jobs then db.jobs[j].assignee else ""))
  }

  datatype JobResultAnswer = JobResultAnswer(status: PbStatus, available: bool, result: Option<PbResult>)

  function ShownResult(status: Option<JobStatus>, r: ResultRecord): PbResult {
    var shown := match StatusValue(r.resultStatus)
      case Some(s) => s
      case None => RedisStatusToPB(status);
    PbResult(r.jobId, shown, r.exitCode, r.body, r.finishedAt)
  }

  function JobResultQuery(db: Db, j: Id): Reply<JobResultAnswer> {
    if j == "" then Fail(InvalidArgument)
    else if j !in db.status && j !in db.jobs && j !in db.results then Fail(NotFound)
    else if j !in db.results then Ok(JobResultAnswer(RedisStatusToPB(Get(db.status, j)), false, None))
    else
      Ok(JobResultAnswer(RedisStatusToPB(Get(db.status, j)), true,
                         Some(ShownResult(Get(db.status, j), db.results[j]))))
  }

  // ----- the desktop client's reading of the answer (client/src-tauri/src/lib.rs) -----

  predicate JobStatusTerminal(status: int) { status == 4 || status == 5 }

  predicate ResultStatusTerminal(status: int) { status == 4 || status == 5 || status == 6 }

  /** The `completed` flag of get_run_request_result. */
  predicate ClientCompleted(a: JobResultAnswer) {
    var completed := JobStatusTerminal(a.status.Number());
    if a.result.Some? then completed || ResultStatusTerminal(a.result.value.status.Number()) else completed
  }

  /** The gRPC server. `now` is the clock reading and `uuid` the generated UUID. */
  class Server {
    const redis: Redis

    constructor (redis: Redis)
      ensures this.redis == redis
    {
      this.redis := redis;
    }

    method RegisterWorker(resources: Option<ResourceSpec>, version: string, uuid: Id, now: int) returns (worker: Id)
      modifies redis
      ensures worker == uuid
      ensures redis.View() == Register(old(redis.View()), NewWorker(uuid, resources, version, now))
    {
      var record := WorkerRecord(uuid, resources, version, now, now);
      redis.SaveWorker(record);
      redis.SetWorkerAlive(uuid);
      return uuid;
    }

    method Heartbeat(worker: Id, resources: Option<ResourceSpec>, now: int) returns (reply: Reply<()>)
      modifies redis
      ensures (redis.View(), reply) == HeartbeatOutcome(old(redis.View()), worker, resources, now)
    {
      if worker == "" {
        return Fail(InvalidArgument);
      }
      if worker !in redis.records {
        return Fail(NotFound);
      }
      var record := redis.records[worker];
      redis.SetWorkerAlive(worker);
      record := record.(resources := resources);
      record := record.(lastHeartbeat := now);
      redis.SaveWorker(record);
      return Ok(());
    }

    method RequestJob(worker: Id) returns (reply: Reply<Option<JobRecord>>)
      modifies redis
      ensures (redis.View(), reply) == RequestOutcome(old(redis.View()), worker)
    {
      if worker == "" {
        return Fail(InvalidArgument);
      }
      if worker !in redis.records {
        return Fail(NotFound);
      }
      if worker !in redis.alive {
        return Ok(None);
      }
      var j := redis.ClaimNextQueuedJobForWorker(worker);
      if j == "" {
        return Ok(None);
      }
      if j !in redis.View().jobs {
        redis.RequeueJobID(j);
        return Ok(None);
      }
      var job := redis.View().jobs[j];
      job := job.(status := Running);
      job := job.(assignee := worker);
      redis.SaveJob(job);
      return Ok(Some(job));
    }

    method SubmitResult(req: SubmitResultRequest, now: int) returns (reply: Reply<()>)
      modifies redis
      ensures (redis.View(), reply) == SubmitOutcome(old(redis.View()), req, now)
    {
      if req.workerId == "" {
        return Fail(InvalidArgument);
      }
      if req.result.None? || req.result.value.jobId == "" {
        return Fail(InvalidArgument);
      }
      var incoming := req.result.value;
      var j := incoming.jobId;
      if j !in redis.jobs {
        return Fail(NotFound);
      }
      var job := redis.jobs[j];
      var assignedWorker := GetString(redis.holder, j);
      if assignedWorker == "" {
        assignedWorker := job.assignee;
      }
      if assignedWorker == "" {
        return Fail(FailedPrecondition);
      }
      if assignedWorker != req.workerId {
        return Fail(PermissionDenied);
      }
      if j !in redis.status {
        return Fail(NotFound);
      }
      var current := redis.status[j];
      if incoming.status != StatusRunning && incoming.status != StatusSucceeded && incoming.status != StatusFailed {
        return Fail(InvalidArgument);
      }
      if incoming.status != StatusRunning {
        if current == Completed || current == Failed {
          return Ok(());
        }
        if current != Running {
          return Fail(FailedPrecondition);
        }
      }
      var result := ResultRecord(j, req.workerId, incoming.status.Name(), incoming.status == StatusRunning,
                                 incoming.exitCode, incoming.body, incoming.finishedAt);
      if !result.partial && result.finishedAt == 0 {
        result := result.(finishedAt := now);
      }
      if result.partial {
        redis.SaveResult(result);
        return Ok(());
      }
      var terminal := Completed;
      if incoming.status == StatusFailed {
        terminal := Failed;
      }
      var ok := redis.FinalizeJobWithResult(job, result, terminal);
      return Ok(());
    }

    method SubmitJob(spec: JobSpec, uuid: Id, now: int) returns (reply: Reply<Id>)
      modifies redis
      ensures (redis.View(), reply) == SubmitJobOutcome(old(redis.View()), uuid, spec, now)
    {
      if spec.image == "" {
        return Fail(InvalidArgument);
      }
      if |spec.command| == 0 {
        return Fail(InvalidArgument);
      }
      if spec.resources.None? {
        return Fail(InvalidArgument);
      }
      var job := JobRecord(uuid, spec, Queued, now, "");
      redis.EnqueueJob(job);
      return Ok(uuid);
    }

    method GetJobStatus(j: Id) returns (reply: Reply<JobStatusAnswer>)
      ensures reply == JobStatusQuery(redis.View(), j)
    {
      if j == "" {
        return Fail(InvalidArgument);
      }
      var status := Get(redis.status, j);
      var job := Get(redis.jobs, j);
      if status.None? && job.None? {
        return Fail(NotFound);
      }
      var worker := "";
      var mapped := GetString(redis.holder, j);
      if mapped != "" {
        worker := mapped;
      } else if job.Some? {
        worker := job.value.assignee;
      }
      return Ok(JobStatusAnswer(RedisStatusToPB(status), worker));
    }

    method GetJobResult(j: Id) returns (reply: Reply<JobResultAnswer>)
      ensures reply == JobResultQuery(redis.View(), j)
    {
      if j == "" {
        return Fail(InvalidArgument);
      }
      var status := Get(redis.status, j);
      var job := Get(redis.jobs, j);
      var record := Get(redis.results, j);
      if status.None? && job.None? && record.None? {
        return Fail(NotFound);
      }
      if record.None? {
        return Ok(JobResultAnswer(RedisStatusToPB(status), false, None));
      }
      var shown := RedisStatusToPB(status);
      if record.value.resultStatus != "" {
        var known := StatusValue(record.value.resultStatus);
        if known.Some? {
          shown := known.value;
        }
      }
      return Ok(JobResultAnswer(RedisStatusToPB(status), true,
        Some(PbResult(record.value.jobId, shown, record.value.exitCode, record.value.body, record.value.finishedAt))));
    }
  }
}
