/** worker/internal/executor/docker.go: how one container run turns into a job result. */
module Executor {
  import opened Domain

  /** The status strings of a job on the worker; NoStatus is a blank string. */
  datatype TaskStatus = NoStatus | TaskPending | TaskAssigned | TaskRunning | TaskCompleted | TaskFailed

  /** The job as the worker pulled it; its strings carry no surrounding white space. */
  datatype Task = Task(
    id: Id, imageRef: string, artifactUrl: string, artifactSha: string, cpuCores: real, memoryMb: int, timeout: int)

  datatype TaskResult = TaskResult(
    jobId: Id, workerId: Id, status: TaskStatus, exitCode: int, stdout: string, stderr: string, error: string,
    outputDir: string, outputUri: string, outputApiUrl: string, outputPublicUrl: string, outputSizeBytes: int,
    artifacts: seq<OutputArtifact>, finishedAt: int)

  /** How `docker run` ends. */
  datatype RunEnd = CleanExit | ExitError(code: int) | OtherError

  /** What the file system and Docker answer during one run. */
  datatype Docker = Docker(
    tempDir: Option<string>, loadOk: bool, loadOut: string, loadErr: string, inspectOk: bool, argsOk: bool,
    end: RunEnd, stdout: string, stderr: string, now: int)

  /** Conversion of a Go int to int32. */
  function ToInt32(n: int): (r: int)
    ensures -0x8000_0000 <= r < 0x8000_0000 && (n - r) % 0x1_0000_0000 == 0
  {
    var m := n % 0x1_0000_0000;
    if m >= 0x8000_0000 then m - 0x1_0000_0000 else m
  }

  /** An exit error whose code still differs from zero as an int32 (-1 stands for a signal). */
  predicate HonestExit(end: RunEnd) {
    end.ExitError? ==> ToInt32(end.code) != 0
  }

  /** Did Docker get as far as running the container? */
  predicate Started(d: Docker, archive: string) {
    d.tempDir.Some? && (archive != "" ==> d.loadOk && d.inspectOk) && d.argsOk
  }

  predicate RanCleanly(d: Docker, archive: string) {
    Started(d, archive) && d.end == CleanExit
  }

  method RunContainer(task: Task, archive: string, workerId: Id, d: Docker) returns (result: TaskResult)
    ensures result.jobId == task.id && result.workerId == workerId
    ensures result.status == if RanCleanly(d, archive) then TaskCompleted else TaskFailed
    ensures result.exitCode ==
      if RanCleanly(d, archive) then 0 else if Started(d, archive) && d.end.ExitError? then d.end.code else -1
    ensures result.error == "" <==> RanCleanly(d, archive)
    ensures result.outputDir == match d.tempDir case Some(dir) => dir case None => ""
    ensures result.outputUri == "" && result.outputApiUrl == "" && result.outputPublicUrl == ""
    ensures result.outputSizeBytes == 0 && result.artifacts == [] && result.finishedAt == d.now
    ensures Started(d, archive) ==> result.stdout == d.stdout && result.stderr == d.stderr
    ensures !Started(d, archive) ==>
      var loaded := d.tempDir.Some? && archive != "";
      && result.stdout == (if loaded && !(d.loadOk && d.inspectOk) then d.loadOut else "")
      && result.stderr == (if loaded && !d.loadOk then d.loadErr else "")
  {
    result := TaskResult(task.id, workerId, TaskFailed, -1, "", "", "", "", "", "", "", 0, [], 0);
    if d.tempDir.None? {
      result := result.(error := "create output directory", finishedAt := d.now);
      return;
    }
    result := result.(outputDir := d.tempDir.value);
    if archive != "" {
      if !d.loadOk {
        result := result.(error := "docker load failed", stdout := d.loadOut, stderr := d.loadErr, finishedAt := d.now);
        return;
      }
      if !d.inspectOk {
        result := result.(error := "archive lacks the image", stdout := d.loadOut, finishedAt := d.now);
        return;
      }
    }
    if !d.argsOk {
      result := result.(error := "invalid run arguments", finishedAt := d.now);
      return;
    }
    result := result.(stdout := d.stdout, stderr := d.stderr, finishedAt := d.now);
    if d.end != CleanExit {
      result := result.(error := "docker run failed");
      if d.end.ExitError? {
        result := result.(exitCode := d.end.code);
      }
      return;
    }
    result := result.(status := TaskCompleted);
    result := result.(exitCode := 0);
  }
}
