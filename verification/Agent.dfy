/** worker/internal/worker/agent.go: the agent that takes one job from validation to a published result. */
module Agent {
  import opened Domain
  import opened Store
  import opened Handlers
  import opened Collect
  import opened Executor
  import opened Publisher
  import opened ObjectNames
  import opened Upload
  import opened Guarantees
  import Protocol

  /** Job.Validate. */
  predicate ValidTask(t: Task) {
    && t.id != "" && (t.artifactUrl == "" <==> t.artifactSha == "") && t.imageRef != ""
    && t.cpuCores >= 0.0 && t.memoryMb >= 0 && t.timeout >= 0
  }

  function NormalizeCpuUsed(value: real): int {
    if value <= 0.0 then 0 else if value.Floor == 0 then 1 else value.Floor
  }

  function CombineErrors(first: string, second: string): string {
    if first == "" then second else if second == "" then first else first + "; " + second
  }

  /** What everything around the agent does during one job. A failed fetch is None; `entries` is what walking the output
      directory meets, and `disk` what its files hold when they are opened again for the upload. */
  datatype World = World(
    assignOk: bool, preparingOk: bool, archive: Option<string>, runningOk: bool, runningAssignOk: bool,
    docker: Docker, entries: seq<Entry>, disk: map<string, Bytes>, link: Link, finalOk: bool,
    manifestAt: int, now: int)

  ghost predicate Walkable(w: World) {
    forall i :: 0 <= i < |w.entries| && w.entries[i].kind == Regular ==> IsReading(w.entries[i].chunks)
  }

  function OutputDir(d: Docker): string {
    match d.tempDir
    case Some(dir) => TrimSpace(dir)
    case None => ""
  }

  /** Every artifact names a blob that the bucket holds, with bytes of the stated hash. */
  ghost predicate ArtifactsStored(env: Env, objects: map<string, Bytes>, artifacts: seq<OutputArtifact>) {
    forall a :: a in artifacts ==> ArtifactStored(env, objects, a)
  }

  predicate ArtifactStored(env: Env, objects: map<string, Bytes>, a: OutputArtifact) {
    IsBlobKey(a.objectKey) && a.objectKey in objects && env.sha(objects[a.objectKey]) == a.sha
  }

  lemma DeliveredArtifacts(env: Env, cfg: Config, objects: map<string, Bytes>, files: seq<CollectedFile>)
    requires forall i :: 0 <= i < |files| ==> Stored(env, objects, files[i].sha)
    ensures ArtifactsStored(env, objects, Artifacts(cfg, files))
  {
    forall i | 0 <= i < |files| ensures ArtifactStored(env, objects, ArtifactOf(cfg, files[i])) {
      BlobKeyIsBlob(files[i].sha);
    }
  }

  predicate Fetched(t: Task, w: World) {
    (t.artifactUrl != "" || t.artifactSha != "") ==> w.archive.Some?
  }

  function ArchivePath(t: Task, w: World): string {
    if (t.artifactUrl != "" || t.artifactSha != "") && w.archive.Some? then w.archive.value else ""
  }

  /** Does the agent get as far as publishing a result? */
  predicate Publishes(t: Task, w: World) {
    if !ValidTask(t) then t.id != ""
    else w.assignOk && w.preparingOk && (Fetched(t, w) ==> w.runningOk && w.runningAssignOk)
  }

  /** Does the job deserve to be called completed? `uploaded` says that no upload of outputs failed. */
  predicate Succeeds(t: Task, w: World, uploaded: bool) {
    ValidTask(t) && Fetched(t, w) && RanCleanly(w.docker, ArchivePath(t, w)) && uploaded
  }

  /** A final status that agrees with the exit code. */
  predicate Agrees(r: PbResult) {
    (r.status == StatusSucceeded || r.status == StatusFailed) && (r.status == StatusSucceeded <==> r.exitCode == 0)
  }

  /** The result to publish for a job. */
  predicate RightResult(t: Task, w: World, uploaded: bool, r: TaskResult) {
    && r.jobId == t.id && r.status == (if Succeeds(t, w, uploaded) then TaskCompleted else TaskFailed)
    && (HonestExit(w.docker.end) ==> Agrees(ToPbResult(r)))
  }

  /** The result of a job that was not run. */
  predicate NotRun(t: Task, w: World, r: TaskResult) {
    && r.jobId == t.id && r.status == TaskFailed && r.exitCode == -1 && r.stdout == "" && r.stderr == ""
    && r.outputUri == "" && r.outputApiUrl == "" && r.outputPublicUrl == "" && r.outputSizeBytes == 0
    && r.artifacts == [] && r.finishedAt == w.now
  }

  /** Does the container's run count for this job? */
  predicate Runs(t: Task, w: World) {
    ValidTask(t) && Fetched(t, w)
  }

  /** The exit code that Docker reports, or -1 for want of one. */
  function DockerCode(d: Docker, archive: string): int {
    if RanCleanly(d, archive) then 0 else if Started(d, archive) && d.end.ExitError? then d.end.code else -1
  }

  /** What the container's run leaves in the result before the outputs are collected. */
  predicate Ended(t: Task, w: World, archive: string, r: TaskResult) {
    && r.jobId == t.id && r.status == (if RanCleanly(w.docker, archive) then TaskCompleted else TaskFailed)
    && RightRun(w, archive, true, r) && r.outputDir == (match w.docker.tempDir case Some(dir) => dir case None => "")
    && r.outputUri == "" && r.outputApiUrl == "" && r.outputPublicUrl == "" && r.outputSizeBytes == 0
    && r.artifacts == []
  }

  /** The outcome of the container as the result states it; a zero exit code does not outlast a failed upload. */
  predicate RightRun(w: World, archive: string, uploaded: bool, r: TaskResult) {
    && (Started(w.docker, archive) ==> r.stdout == w.docker.stdout && r.stderr == w.docker.stderr)
    && r.finishedAt == w.docker.now
    && r.exitCode == (if !uploaded && DockerCode(w.docker, archive) == 0 then -1 else DockerCode(w.docker, archive))
  }

  lemma RunIsRight(t: Task, w: World, uploaded: bool, r: TaskResult)
    requires Runs(t, w) && r.jobId == t.id && RightRun(w, ArchivePath(t, w), uploaded, r)
    requires r.status == if RanCleanly(w.docker, ArchivePath(t, w)) && uploaded then TaskCompleted else TaskFailed
    ensures RightResult(t, w, uploaded, r)
  {
  }

  lemma NoEffect(env: Env, objects: map<string, Bytes>, manifest: string)
    ensures JobEffect(env, objects, objects, manifest)
  {
  }

  function Count(rs: seq<PbResult>, status: PbStatus): nat {
    if rs == [] then 0 else Count(rs[..|rs| - 1], status) + if rs[|rs| - 1].status == status then 1 else 0
  }

  predicate Tally(accepted: seq<PbResult>, done: int, failed: int) {
    && done == Count(accepted, StatusSucceeded) && failed == Count(accepted, StatusFailed)
    && done + failed == |accepted|
  }

  /** What handling a job leaves behind outside the agent. */
  datatype Ledger = Ledger(log: seq<Protocol.Event>, accepted: seq<PbResult>, blobs: map<string, Bytes>)

  /** What publishing `r` does: steps of the coordinator, the last of which accepts `r` if it is now among the accepted
      results; `ok` means that the final status went through as well. */
  ghost predicate Published(
    w: World, s: Protocol.Sys, a: Ledger, t: Protocol.Sys, b: Ledger, ok: bool, r: TaskResult)
  {
    && Progress(s, a.log, t, b.log, ToPbResult(r), NewIds(w.link, s))
    && if b.accepted == a.accepted then !ok
       else
         && b.accepted == a.accepted + [ToPbResult(r)] && (ok <==> w.finalOk)
         && EndsAccepted(s, a.log, b.log, ToPbResult(r), w.link.now)
  }

  datatype WorkerStatus = Available | Busy

  class Agent {
    const store: WorkerStore
    const workerId: Id
    const outputs: Manager?  // null if outputs are not collected
    const env: Env
    const marshal: Marshal
    var status: WorkerStatus
    var currentJobId: Id
    var currentCpu: int
    var currentMem: int
    var jobsDone: int
    var jobsFailed: int

    constructor (store: WorkerStore, workerId: Id, outputs: Manager?, env: Env, marshal: Marshal)
      requires store.accepted == []
      ensures this.store == store && this.outputs == outputs && this.env == env && this.marshal == marshal
      ensures Idle() && Counted()
    {
      this.store, this.workerId, this.outputs, this.env, this.marshal := store, workerId, outputs, env, marshal;
      status, currentJobId, currentCpu, currentMem, jobsDone, jobsFailed := Available, "", 0, 0, 0, 0;
    }

    predicate Idle()
      reads this
    {
      status == Available && currentJobId == "" && currentCpu == 0 && currentMem == 0
    }

    /** The two counters count the results that the store accepted, by their status. */
    ghost predicate Counted()
      reads this, store
    {
      Tally(store.accepted, jobsDone, jobsFailed)
    }

    method SetState(status: WorkerStatus, currentJobId: Id, cpuUsed: int, memoryUsed: int)
      modifies this`status, this`currentJobId, this`currentCpu, this`currentMem
      ensures this.status == status && this.currentJobId == currentJobId
      ensures currentCpu == if cpuUsed > 0 then cpuUsed else 0
      ensures currentMem == if memoryUsed > 0 then memoryUsed else 0
    {
      this.status, this.currentJobId := status, currentJobId;
      currentCpu := if cpuUsed > 0 then cpuUsed else 0;
      currentMem := if memoryUsed > 0 then memoryUsed else 0;
    }

    method RecordResult(status: TaskStatus)
      modifies this`jobsDone, this`jobsFailed
      ensures jobsFailed == old(jobsFailed) + if status == TaskFailed then 1 else 0
      ensures jobsDone == old(jobsDone) + if status == TaskFailed then 0 else 1
    {
      if status == TaskFailed {
        jobsFailed := jobsFailed + 1;
        return;
      }
      jobsDone := jobsDone + 1;
    }

    /** Publishing and then counting, as all three paths do. */
    method Publish(result: TaskResult, link: Link, ghost s: Protocol.Sys) returns (ok: bool, ghost t: Protocol.Sys)
      requires s.db == store.server.redis.View()
      requires result.status == TaskCompleted || result.status == TaskFailed
      requires link.nextUuid != store.coordinatorWorkerId && link.nextUuid != link.uuid
      modifies this`jobsDone, this`jobsFailed, store, store.server.redis
      ensures store.accepted == if ok then old(store.accepted) + [ToPbResult(result)] else old(store.accepted)
      ensures ok ==> EndsAccepted(s, old(store.events), store.events, ToPbResult(result), link.now)
      ensures old(Counted()) ==> Counted()
      ensures t.db == store.server.redis.View()
      ensures Progress(s, old(store.events), t, store.events, ToPbResult(result), NewIds(link, s))
    {
      ghost var worker, before;
      ok, t, worker, before := store.PublishJobResult(result, link, s);
      if !ok {
        return;
      }
      assert store.accepted[..|store.accepted| - 1] == old(store.accepted);
      RecordResult(result.status);
    }

    /** Publishing the result and then the final status. */
    method PublishFinal(result: TaskResult, w: World, ghost s: Protocol.Sys) returns (ok: bool, ghost t: Protocol.Sys)
      requires s.db == store.server.redis.View()
      requires result.status == TaskCompleted || result.status == TaskFailed
      requires w.link.nextUuid != store.coordinatorWorkerId && w.link.nextUuid != w.link.uuid
      modifies this`jobsDone, this`jobsFailed, store, store.server.redis
      ensures t.db == store.server.redis.View() && Blobs() == old(Blobs())
      ensures Published(w, s, old(Left()), t, Left(), ok, result)
      ensures old(Counted()) ==> Counted()
    {
      ok, t := Publish(result, w.link, s);
      ok := ok && w.finalOk;
    }

    /** publishFailedJob, and what publishInvalidJob does for a job that has an id. */
    method PublishFailedJob(task: Task, error: string, w: World, ghost s: Protocol.Sys)
      returns (ok: bool, ghost sent: TaskResult, ghost t: Protocol.Sys)
      requires s.db == store.server.redis.View() && !Runs(task, w) && ContentAddressed(env, Blobs())
      requires w.link.nextUuid != store.coordinatorWorkerId && w.link.nextUuid != w.link.uuid
      modifies this`jobsDone, this`jobsFailed, store, store.server.redis
      ensures t.db == store.server.redis.View() && Blobs() == old(Blobs()) && NotRun(task, w, sent)
      ensures RightReport(task, w, true, old(Blobs()), Blobs(), sent)
      ensures Published(w, s, old(Left()), t, Left(), ok, sent)
      ensures old(Counted()) ==> Counted()
    {
      var result := TaskResult(task.id, workerId, TaskFailed, -1, "", "", error, "", "", "", "", 0, [], w.now);
      sent := result;
      ReportNotRun(task, w, Blobs(), result);
      ok, t := PublishFinal(result, w, s);
    }

    function OutputFrame(): set<Bucket> {
      if outputs == null then {} else {outputs.bucket}
    }

    /** The objects in the bucket, if there is one. */
    function Blobs(): map<string, Bytes>
      reads OutputFrame()
    {
      if outputs == null then map[] else outputs.bucket.objects
    }

    function Manifest(task: Task): string {
      ManifestKey(task.id)
    }

    /** Whether the uploads of a job can, and must, all have gone through. */
    ghost predicate Fate(w: World, uploaded: bool) {
      if outputs == null || OutputDir(w.docker) == "" then uploaded
      else
        var cfg, files := outputs.cfg, Listing(env, w.entries);
        var acceptable := Accepted(w.entries, cfg.maxFiles, cfg.maxBytes) && (files == [] || cfg.enabled);
        && (uploaded ==> acceptable)
        && (acceptable && outputs.bucket.Reliable() && (forall f :: f in files ==> Intact(env, w.disk, f)) ==> uploaded)
    }

    /** What a job's result says about its outputs: nothing if there are none, they are not collected or the upload
        failed; otherwise the files that the walk met and the manifest that was stored. */
    ghost predicate RightOutputs(
      task: Task, w: World, uploaded: bool, objects: map<string, Bytes>,
      uri: string, apiUrl: string, publicUrl: string, size: int, artifacts: seq<OutputArtifact>)
    {
      if outputs == null || OutputDir(w.docker) == "" || !uploaded || Regulars(w.entries) == [] then
        uri == "" && apiUrl == "" && publicUrl == "" && size == 0 && artifacts == []
      else
        && Lists(env, outputs.cfg, w.entries, artifacts) && size == Wrap64(TotalSize(Regulars(w.entries)))
        && PointsToManifest(outputs.cfg, marshal, w.manifestAt, task.id, objects, uri, apiUrl, publicUrl, size,
                            artifacts)
    }

    /** What the result of a job states, beside its status. */
    ghost predicate RightContents(task: Task, w: World, uploaded: bool, objects: map<string, Bytes>, r: TaskResult) {
      if !Runs(task, w) then NotRun(task, w, r)
      else
        && RightRun(w, ArchivePath(task, w), uploaded, r)
        && RightOutputs(task, w, uploaded, objects, r.outputUri, r.outputApiUrl, r.outputPublicUrl, r.outputSizeBytes,
                        r.artifacts)
    }

    /** The result to publish for a job, and what making it did to the bucket. */
    ghost predicate RightReport(
      task: Task, w: World, uploaded: bool, before: map<string, Bytes>, after: map<string, Bytes>, r: TaskResult)
    {
      && ContentAddressed(env, after) && JobEffect(env, before, after, Manifest(task))
      && RightResult(task, w, uploaded, r) && ArtifactsStored(env, after, r.artifacts)
      && RightContents(task, w, uploaded, after, r) && (Runs(task, w) ==> Fate(w, uploaded))
    }

    lemma ReportNotRun(task: Task, w: World, objects: map<string, Bytes>, r: TaskResult)
      requires !Runs(task, w) && NotRun(task, w, r) && ContentAddressed(env, objects)
      ensures RightReport(task, w, true, objects, objects, r)
    {
    }

    /** The upload of the output directory. */
    method CollectOutputs(task: Task, w: World) returns (up: Option<UploadResult>)
      requires outputs != null && OutputDir(w.docker) != "" && Walkable(w)
      requires HexDigests(env) && ContentAddressed(env, Blobs())
      modifies outputs.bucket
      ensures ContentAddressed(env, Blobs()) && JobEffect(env, old(Blobs()), Blobs(), Manifest(task))
      ensures Fate(w, up.Some?) && (up.Some? ==> ArtifactsStored(env, Blobs(), up.value.artifacts))
      ensures up.Some? ==>
        RightOutputs(task, w, true, Blobs(), up.value.manifestUri, up.value.manifestApiUrl, up.value.manifestPublicUrl,
                     up.value.totalSizeBytes, up.value.artifacts)
    {
      var dir := OutputDir(w.docker);
      TrimTwice(IsSpace, w.docker.tempDir.value);
      ghost var heads, puts;
      up, heads, puts := outputs.CollectAndUpload(env, marshal, task.id, dir, w.entries, w.disk, w.manifestAt);
      if up.Some? && Listing(env, w.entries) != [] {
        DeliveredArtifacts(env, outputs.cfg, outputs.bucket.objects, Listing(env, w.entries));
        ListingIsListed(env, outputs.cfg, w.entries);
      }
    }

    /** The outputs of a run that has ended, added to its result. */
    method AddOutputs(task: Task, archive: string, w: World, run: TaskResult)
      returns (result: TaskResult, ghost uploaded: bool)
      requires Walkable(w) && HexDigests(env) && ContentAddressed(env, Blobs())
      requires Ended(task, w, archive, run)
      modifies OutputFrame()
      ensures ContentAddressed(env, Blobs()) && JobEffect(env, old(Blobs()), Blobs(), Manifest(task))
      ensures Fate(w, uploaded) && ArtifactsStored(env, Blobs(), result.artifacts)
      ensures result.jobId == task.id && RightRun(w, archive, uploaded, result)
      ensures result.status == if RanCleanly(w.docker, archive) && uploaded then TaskCompleted else TaskFailed
      ensures RightOutputs(task, w, uploaded, Blobs(), result.outputUri, result.outputApiUrl, result.outputPublicUrl,
                           result.outputSizeBytes, result.artifacts)
    {
      result, uploaded := run, true;
      if outputs != null && TrimSpace(result.outputDir) != "" {
        var up := CollectOutputs(task, w);
        uploaded := up.Some?;
        if up.None? {
          result := result.(error := CombineErrors(result.error, "collect job outputs failed"));
          result := result.(status := TaskFailed);
          if result.exitCode == 0 {
            result := result.(exitCode := -1);
          }
        } else {
          result := result.(outputUri := up.value.manifestUri, outputApiUrl := up.value.manifestApiUrl,
                            outputPublicUrl := up.value.manifestPublicUrl, outputSizeBytes := up.value.totalSizeBytes,
                            artifacts := up.value.artifacts);
        }
      } else {
        NoEffect(env, Blobs(), Manifest(task));
      }
    }

    /** The executor's result, completed by the agent: blank fields, then the upload of the output directory. */
    method RunTask(task: Task, archive: string, w: World) returns (result: TaskResult, ghost uploaded: bool)
      requires Runs(task, w) && archive == ArchivePath(task, w)
      requires Walkable(w) && HexDigests(env) && ContentAddressed(env, Blobs())
      modifies OutputFrame()
      ensures RightReport(task, w, uploaded, old(Blobs()), Blobs(), result)
    {
      result := RunContainer(task, archive, workerId, w.docker);
      if result.status == NoStatus {
        result := result.(status := TaskFailed);
      }
      if result.jobId == "" {
        result := result.(jobId := task.id);
      }
      if result.workerId == "" {
        result := result.(workerId := workerId);
      }
      result, uploaded := AddOutputs(task, archive, w, result);
      RunIsRight(task, w, uploaded, result);
    }

    ghost function Left(): Ledger
      reads store, OutputFrame()
    {
      Ledger(store.events, store.accepted, Blobs())
    }

    /** What handling a job amounts to, between the coordinator states `s` and `t` and the ledgers `a` and `b`. */
    ghost predicate Handled(
      task: Task, w: World, s: Protocol.Sys, a: Ledger, t: Protocol.Sys, b: Ledger, ok: bool, sent: Option<TaskResult>,
      uploaded: bool)
    {
      && (sent.Some? <==> Publishes(task, w))
      && match sent
         case None => b == a && t == s && !ok
         case Some(r) => RightReport(task, w, uploaded, a.blobs, b.blobs, r) && Published(w, s, a, t, b, ok, r)
    }

    /** handleJob. `sent` is the result handed to the store, if the job got that far; `ok` means no error. */
    method HandleJob(task: Task, w: World, ghost s: Protocol.Sys)
      returns (ok: bool, ghost sent: Option<TaskResult>, ghost t: Protocol.Sys, ghost uploaded: bool)
      requires s.db == store.server.redis.View()
      requires w.link.nextUuid != store.coordinatorWorkerId && w.link.nextUuid != w.link.uuid
      requires Walkable(w) && HexDigests(env) && ContentAddressed(env, Blobs())
      modifies this, store, store.server.redis, OutputFrame()
      ensures t.db == store.server.redis.View() && Handled(task, w, s, old(Left()), t, Left(), ok, sent, uploaded)
      ensures old(Counted()) ==> Counted()
      ensures ValidTask(task) || old(Idle()) ==> Idle()
    {
      if !ValidTask(task) {
        ok, sent, t, uploaded := PublishInvalidJob(task, w, s);
      } else {
        ok, sent, t, uploaded := HandleValidJob(task, w, s);
      }
    }

    /** What handleJob does after validation; the deferred reset is the last statement. */
    method HandleValidJob(task: Task, w: World, ghost s: Protocol.Sys)
      returns (ok: bool, ghost sent: Option<TaskResult>, ghost t: Protocol.Sys, ghost uploaded: bool)
      requires s.db == store.server.redis.View() && ValidTask(task)
      requires w.link.nextUuid != store.coordinatorWorkerId && w.link.nextUuid != w.link.uuid
      requires Walkable(w) && HexDigests(env) && ContentAddressed(env, Blobs())
      modifies this, store, store.server.redis, OutputFrame()
      ensures t.db == store.server.redis.View() && Handled(task, w, s, old(Left()), t, Left(), ok, sent, uploaded)
      ensures old(Counted()) ==> Counted()
      ensures Idle()
    {
      SetState(Busy, task.id, NormalizeCpuUsed(task.cpuCores), task.memoryMb);
      ok, sent, t, uploaded := ProcessJob(task, w, s);
      SetState(Available, "", 0, 0);
    }

    /** publishInvalidJob: a job without an id is only reported as an error. */
    method PublishInvalidJob(task: Task, w: World, ghost s: Protocol.Sys)
      returns (ok: bool, ghost sent: Option<TaskResult>, ghost t: Protocol.Sys, ghost uploaded: bool)
      requires s.db == store.server.redis.View() && !ValidTask(task) && ContentAddressed(env, Blobs())
      requires w.link.nextUuid != store.coordinatorWorkerId && w.link.nextUuid != w.link.uuid
      modifies this`jobsDone, this`jobsFailed, store, store.server.redis
      ensures t.db == store.server.redis.View() && Handled(task, w, s, old(Left()), t, Left(), ok, sent, uploaded)
      ensures old(Counted()) ==> Counted()
    {
      uploaded := true;
      if task.id == "" {
        return false, None, s, true;
      }
      ghost var failed;
      ok, failed, t := PublishFailedJob(task, "invalid job payload", w, s);
      sent := Some(failed);
    }

    /** The part of handleJob during which the agent is busy. */
    method ProcessJob(task: Task, w: World, ghost s: Protocol.Sys)
      returns (ok: bool, ghost sent: Option<TaskResult>, ghost t: Protocol.Sys, ghost uploaded: bool)
      requires s.db == store.server.redis.View()
      requires ValidTask(task)
      requires w.link.nextUuid != store.coordinatorWorkerId && w.link.nextUuid != w.link.uuid
      requires Walkable(w) && HexDigests(env) && ContentAddressed(env, Blobs())
      modifies this`jobsDone, this`jobsFailed, store, store.server.redis, OutputFrame()
      ensures t.db == store.server.redis.View() && Handled(task, w, s, old(Left()), t, Left(), ok, sent, uploaded)
      ensures old(Counted()) ==> Counted()
    {
      ok, sent, t, uploaded := false, None, s, true;
      if !w.assignOk || !w.preparingOk {
        return;
      }
      var archive := "";
      if task.artifactUrl != "" || task.artifactSha != "" {
        if w.archive.None? {
          ghost var failed;
          ok, failed, t := PublishFailedJob(task, "fetch failed", w, s);
          return ok, Some(failed), t, true;
        }
        archive := w.archive.value;
      }
      if !w.runningOk || !w.runningAssignOk {
        return;
      }
      ghost var result;
      ok, result, t, uploaded := RunAndPublish(task, archive, w, s);
      sent := Some(result);
    }

    /** The last part of it, once the job is announced as running. */
    method RunAndPublish(task: Task, archive: string, w: World, ghost s: Protocol.Sys)
      returns (ok: bool, ghost sent: TaskResult, ghost t: Protocol.Sys, ghost uploaded: bool)
      requires Runs(task, w) && archive == ArchivePath(task, w)
      requires s.db == store.server.redis.View()
      requires w.link.nextUuid != store.coordinatorWorkerId && w.link.nextUuid != w.link.uuid
      requires Walkable(w) && HexDigests(env) && ContentAddressed(env, Blobs())
      modifies this`jobsDone, this`jobsFailed, store, store.server.redis, OutputFrame()
      ensures t.db == store.server.redis.View()
      ensures RightReport(task, w, uploaded, old(Blobs()), Blobs(), sent)
      ensures Published(w, s, old(Left()), t, Left(), ok, sent)
      ensures old(Counted()) ==> Counted()
    {
      var result;
      result, uploaded := RunTask(task, archive, w);
      sent := result;
      ok, t := PublishFinal(result, w, s);
    }
  }

  // ----- end to end: the outcome that the coordinator stores and the client reads -----

  /** A SubmitResult event as workers produce it: a partial result, or a final one that agrees with its exit code. */
  predicate HonestEvent(ev: Protocol.Event) {
    ev.SubmitResult? && ev.req.result.Some? ==>
      ev.req.result.value.status == StatusRunning || Agrees(ev.req.result.value)
  }

  /** The states of finished jobs agree with their stored exit codes. */
  ghost predicate OutcomesAgree(db: Db) {
    forall j :: IsDone(db, j) ==> DoneAgrees(Protocol.StateOf(db, j).value)
  }

  predicate DoneAgrees(st: Protocol.JobState) {
    st.Done? ==> (st.status == Completed <==> st.result.exitCode == 0)
  }

  /** In the abstract queue only Finish makes a job done. */
  lemma SpecDone(a: Spec, act: Action, b: Spec, j: Id)
    requires SpecNext(a, act, b) && j in b.jobs && b.jobs[j].Done?
    ensures (j in a.jobs && a.jobs[j] == b.jobs[j]) || act == Finish(j, b.jobs[j].status, b.jobs[j].result)
  {
  }

  lemma AbsAt(db: Db, j: Id)
    requires Protocol.JobsAgree(db)
    ensures j in Abs(db).jobs <==> Protocol.StateOf(db, j).Some?
    ensures j in Abs(db).jobs ==> Protocol.StateOf(db, j) == Some(Abs(db).jobs[j])
  {
    assert Protocol.JobInv(db, j);
  }

  /** A finished job was finished before, or is being finished by this very event. */
  lemma DoneComesFromFinish(s: Protocol.Sys, ev: Protocol.Event, j: Id)
    requires Protocol.Inv(s) && Protocol.Enabled(s, ev) && IsDone(Protocol.Apply(s, ev).db, j)
    ensures var st := Protocol.StateOf(Protocol.Apply(s, ev).db, j);
      Protocol.StateOf(s.db, j) == st || ActionOf(s, ev) == Finish(j, st.value.status, st.value.result)
  {
    var t := Protocol.Apply(s, ev);
    Refinement(s, ev);
    Protocol.Keeps(s, ev);
    AbsAt(s.db, j);
    AbsAt(t.db, j);
    SpecDone(Abs(s.db), ActionOf(s, ev), Abs(t.db), j);
  }

  lemma StepKeepsOutcomes(s: Protocol.Sys, ev: Protocol.Event)
    requires Protocol.Inv(s) && Protocol.Enabled(s, ev) && OutcomesAgree(s.db) && HonestEvent(ev)
    ensures OutcomesAgree(Protocol.Apply(s, ev).db)
  {
    var t := Protocol.Apply(s, ev).db;
    forall j | IsDone(t, j) ensures DoneAgrees(Protocol.StateOf(t, j).value) {
      DoneComesFromFinish(s, ev, j);
      if Protocol.StateOf(s.db, j) == Protocol.StateOf(t, j) { assert IsDone(s.db, j); }
    }
  }

  lemma {:induction false} RunKeepsOutcomes(s: Protocol.Sys, evs: seq<Protocol.Event>)
    requires Protocol.Inv(s) && Protocol.IsRun(s, evs) && OutcomesAgree(s.db)
    requires forall i :: 0 <= i < |evs| ==> HonestEvent(evs[i])
    ensures OutcomesAgree(Protocol.Exec(s, evs).db)
    decreases |evs|
  {
    if evs != [] {
      StepKeepsOutcomes(s, evs[0]);
      Protocol.Keeps(s, evs[0]);
      RunKeepsOutcomes(Protocol.Apply(s, evs[0]), evs[1..]);
    }
  }

  /** If the client sees job `j` as completed, it sees a final status that agrees with the exit code beside it. */
  predicate OutcomeShown(db: Db, j: Id) {
    var shown := JobResultQuery(db, j);
    shown.Ok? && ClientCompleted(shown.value) ==>
      && shown.value.result.Some? && shown.value.result.value.status == shown.value.status
      && (shown.value.status == StatusSucceeded || shown.value.status == StatusFailed)
      && (shown.value.status == StatusSucceeded <==> shown.value.result.value.exitCode == 0)
  }

  lemma ShownOutcome(db: Db, j: Id)
    requires Protocol.JobsAgree(db) && OutcomesAgree(db)
    ensures OutcomeShown(db, j)
  {
    if j != "" {
      assert Protocol.JobInv(db, j);
      ResultQueryExact(db, j);
      if j in db.jobs { CompletedIffDone(db, j); }
    }
  }

  /** On every run of honest workers, whatever else happens, a job that the client sees as completed has succeeded if
      and only if the exit code shown beside it is 0. */
  lemma OutcomeAgreement(evs: seq<Protocol.Event>, j: Id)
    requires Protocol.IsRun(Protocol.Init, evs) && forall i :: 0 <= i < |evs| ==> HonestEvent(evs[i])
    ensures OutcomeShown(Protocol.Exec(Protocol.Init, evs).db, j)
  {
    Protocol.InitInv();
    Protocol.RunKeeps(Protocol.Init, evs);
    RunKeepsOutcomes(Protocol.Init, evs);
    ShownOutcome(Protocol.Exec(Protocol.Init, evs).db, j);
  }

  /** A run in which all workers so far were honest, followed by what handling one job makes a worker do, is such a run
      again: with HandleJob's Progress this composes OutcomeAgreement over any number of agents and jobs. */
  lemma HandledJobExtendsHonestRun(
    past: seq<Protocol.Event>, log: seq<Protocol.Event>, t: Protocol.Sys, log': seq<Protocol.Event>, r: PbResult, j: Id)
    requires Protocol.IsRun(Protocol.Init, past) && forall i :: 0 <= i < |past| ==> HonestEvent(past[i])
    requires Progress(Protocol.Exec(Protocol.Init, past), log, t, log', r, true) && Agrees(r)
    ensures var evs := past + log'[|log|..];
      && Protocol.IsRun(Protocol.Init, evs) && Protocol.Exec(Protocol.Init, evs) == t
      && (forall i :: 0 <= i < |evs| ==> HonestEvent(evs[i]))
    ensures OutcomeShown(t.db, j)
  {
    Protocol.RunConcat(Protocol.Init, past, log'[|log|..]);
    OutcomeAgreement(past + log'[|log|..], j);
  }

  /** A publication that succeeded really finished the job at the coordinator, with the outcome the worker reported. */
  lemma AcceptedMeansDone(before: Db, worker: Id, r: PbResult, now: int)
    requires Protocol.JobsAgree(before) && Agrees(r)
    requires SubmitOutcome(before, SubmitResultRequest(worker, Some(r)), now).1.Ok?
    ensures var t := SubmitOutcome(before, SubmitResultRequest(worker, Some(r)), now).0;
      && Protocol.StateOf(before, r.jobId) == Some(Protocol.Held(worker))
      && Protocol.StateOf(t, r.jobId) == Some(Protocol.Done(
           if r.exitCode == 0 then Completed else Failed, ToRecord(worker, r, now)))
  {
    Protocol.SubmitCases(before, SubmitResultRequest(worker, Some(r)), now);
    CommitIsShown(before, SubmitResultRequest(worker, Some(r)), now);
  }

  lemma BlobsOutlive(env: Env, buckets: seq<map<string, Bytes>>, deeds: seq<Deed>, artifacts: seq<OutputArtifact>)
    requires IsHistory(env, buckets, deeds) && ContentAddressed(env, buckets[0])
    requires ArtifactsStored(env, buckets[0], artifacts)
    ensures ArtifactsStored(env, buckets[|deeds|], artifacts)
  {
    BucketHistory(env, buckets, deeds);
    forall a | a in artifacts ensures ArtifactStored(env, buckets[|deeds|], a) {
      assert ArtifactStored(env, buckets[0], a);
    }
  }

  /** Once a final result whose artifacts are in the bucket has been accepted, from whichever worker, every answer to
      the client lists those artifacts, and each names a stored object whose bytes have the hash it states, whatever
      the coordinator does and other jobs upload afterwards. */
  lemma ArtifactsReachClient(
    s: Protocol.Sys, req: SubmitResultRequest, now: int, evs: seq<Protocol.Event>,
    env: Env, buckets: seq<map<string, Bytes>>, deeds: seq<Deed>)
    requires Protocol.Inv(s) && SubmitVerdict(s.db, req, now).Commit?
    requires Protocol.IsRun(Protocol.Apply(s, Protocol.SubmitResult(req, now)), evs)
    requires IsHistory(env, buckets, deeds) && ContentAddressed(env, buckets[0])
    requires ArtifactsStored(env, buckets[0], req.result.value.body.artifacts)
    ensures var db := Protocol.Exec(Protocol.Apply(s, Protocol.SubmitResult(req, now)), evs).db;
      var shown := JobResultQuery(db, req.result.value.jobId);
      && shown.Ok? && shown.value.result.Some?
      && shown.value.result.value.body.artifacts == req.result.value.body.artifacts
      && ArtifactsStored(env, buckets[|deeds|], shown.value.result.value.body.artifacts)
  {
    ResultReachesClient(s, req, now, evs);
    BlobsOutlive(env, buckets, deeds, req.result.value.body.artifacts);
  }

  // ----- the whole way from the container to the client -----

  /** A job deserves to be called completed exactly if it was valid, its archive, if any, was fetched, loaded and held
      the image, the container ran to a clean exit, and no upload failed. */
  lemma SuccessIsDeserved(t: Task, w: World, uploaded: bool)
    ensures Succeeds(t, w, uploaded) <==>
      && t.id != "" && t.imageRef != "" && (t.artifactUrl == "" <==> t.artifactSha == "")
      && t.cpuCores >= 0.0 && t.memoryMb >= 0 && t.timeout >= 0
      && (t.artifactUrl != "" ==> w.archive.Some? && (w.archive.value != "" ==> w.docker.loadOk && w.docker.inspectOk))
      && w.docker.tempDir.Some? && w.docker.argsOk && w.docker.end == CleanExit && uploaded
  {
  }

  /** What the client must be shown of a job that was run, with these objects in the bucket. */
  ghost predicate ShowsRun(
    agent: Agent, task: Task, w: World, uploaded: bool, objects: map<string, Bytes>, p: PbResult)
  {
    && p.jobId == task.id && p.status == (if Succeeds(task, w, uploaded) then StatusSucceeded else StatusFailed)
    && (Started(w.docker, ArchivePath(task, w)) ==>
          Excerpt(p.body.stdout, w.docker.stdout) && Excerpt(p.body.stderr, w.docker.stderr))
    && (RanCleanly(w.docker, ArchivePath(task, w)) ==> p.exitCode == if uploaded then 0 else -1)
    && (w.docker.now != 0 ==> p.finishedAt == w.docker.now)
    && agent.RightOutputs(task, w, uploaded, objects, p.body.outputUri, p.body.outputApiUrl, p.body.outputPublicUrl,
                          p.body.outputSizeBytes, p.body.artifacts)
    && ArtifactsStored(agent.env, objects, p.body.artifacts)
  }

  lemma ManifestOutlives(
    agent: Agent, task: Task, w: World, uploaded: bool, r: TaskResult, buckets: seq<map<string, Bytes>>,
    deeds: seq<Deed>)
    requires IsHistory(agent.env, buckets, deeds) && NoneFor(deeds, Sanitize(task.id))
    requires agent.RightOutputs(task, w, uploaded, buckets[0], r.outputUri, r.outputApiUrl, r.outputPublicUrl,
                                r.outputSizeBytes, r.artifacts)
    ensures agent.RightOutputs(task, w, uploaded, buckets[|deeds|], r.outputUri, r.outputApiUrl, r.outputPublicUrl,
                               r.outputSizeBytes, r.artifacts)
  {
    forall i | 0 <= i < |deeds| ensures ManifestKey(deeds[i].job) != ManifestKey(task.id) {
      ManifestsDiffer("", "", deeds[i].job, task.id);
    }
    if ManifestKey(task.id) in buckets[0] { ObjectKept(agent.env, buckets, deeds, ManifestKey(task.id)); }
  }

  lemma ConveysRun(
    agent: Agent, task: Task, w: World, uploaded: bool, objects: map<string, Bytes>, r: TaskResult, p: PbResult,
    now: int)
    requires Runs(task, w) && RightResult(task, w, uploaded, r) && Conveys(p, r, now)
    requires RightRun(w, ArchivePath(task, w), uploaded, r) && ArtifactsStored(agent.env, objects, r.artifacts)
    requires agent.RightOutputs(task, w, uploaded, objects, r.outputUri, r.outputApiUrl, r.outputPublicUrl,
                                r.outputSizeBytes, r.artifacts)
    ensures ShowsRun(agent, task, w, uploaded, objects, p)
  {
  }

  /** From the container to the client: once the result of a job that was run has been accepted, whatever the
      coordinator, other workers and the monitor do afterwards, every answer to the client shows the container's output
      streams, its outcome, and the files it left, each still stored under its hash; and the manifest is still where the
      answer says, unless the id of a later upload's job is sanitized to the same component. */
  lemma OutcomeReachesClient(
    agent: Agent, task: Task, w: World, s: Protocol.Sys, a: Ledger, t: Protocol.Sys, b: Ledger, ok: bool, r: TaskResult,
    uploaded: bool, evs: seq<Protocol.Event>, buckets: seq<map<string, Bytes>>, deeds: seq<Deed>)
    requires Protocol.Inv(s) && NewIds(w.link, s) && Runs(task, w)
    requires agent.Handled(task, w, s, a, t, b, ok, Some(r), uploaded) && b.accepted != a.accepted
    requires Protocol.IsRun(t, evs)
    requires IsHistory(agent.env, buckets, deeds) && buckets[0] == b.blobs && NoneFor(deeds, Sanitize(task.id))
    ensures var shown := JobResultQuery(Protocol.Exec(t, evs).db, task.id);
      && shown.Ok? && ClientCompleted(shown.value) && shown.value.result.Some?
      && shown.value.status == shown.value.result.value.status
      && ShowsRun(agent, task, w, uploaded, buckets[|deeds|], shown.value.result.value)
  {
    ReportReachesClient(s, a.log, t, b.log, r, w.link.now, evs);
    BlobsOutlive(agent.env, buckets, deeds, r.artifacts);
    ManifestOutlives(agent, task, w, uploaded, r, buckets, deeds);
    var shown := JobResultQuery(Protocol.Exec(t, evs).db, r.jobId);
    ConveysRun(agent, task, w, uploaded, buckets[|deeds|], r, shown.value.result.value, w.link.now);
  }
}
