/** The records that the coordinator, the workers and the client exchange.
    Fields that no code branches on (resources, excerpts, artifact lists) are carried as values. */
module Domain {

  datatype Option<+T> = None | Some(value: T)

  type Id = string

  /** gRPC status codes that the handlers return. */
  datatype Code = InvalidArgument | NotFound | FailedPrecondition | PermissionDenied

  datatype Reply<+T> = Ok(value: T) | Fail(code: Code)

  /** The strings stored under `job_status:<id>` and in the job record; an absent key is a missing map entry. */
  datatype JobStatus = Queued | Running | Completed | Failed
  {
    predicate Terminal() { Completed? || Failed? }
  }

  /** `compute.v1.Status`. */
  datatype PbStatus =
    | StatusUnspecified | StatusQueued | StatusAssigned | StatusRunning
    | StatusSucceeded | StatusFailed | StatusCanceled
  {
    /** The wire number of the enum constant. */
    function Number(): nat {
      match this
      case StatusUnspecified => 0
      case StatusQueued => 1
      case StatusAssigned => 2
      case StatusRunning => 3
      case StatusSucceeded => 4
      case StatusFailed => 5
      case StatusCanceled => 6
    }

    /** The generated `String()` method. */
    function Name(): string {
      match this
      case StatusUnspecified => "STATUS_UNSPECIFIED"
      case StatusQueued => "STATUS_QUEUED"
      case StatusAssigned => "STATUS_ASSIGNED"
      case StatusRunning => "STATUS_RUNNING"
      case StatusSucceeded => "STATUS_SUCCEEDED"
      case StatusFailed => "STATUS_FAILED"
      case StatusCanceled => "STATUS_CANCELED"
    }
  }

  datatype ResourceSpec = ResourceSpec(cpuCores: int, memoryMb: int, gpuCount: int)

  datatype WorkerRecord = WorkerRecord(
    id: Id, resources: Option<ResourceSpec>, version: string, registeredAt: int, lastHeartbeat: int)

  /** What the client asked to run. */
  datatype JobSpec = JobSpec(
    image: string, command: seq<string>, resources: Option<ResourceSpec>, environment: map<string, string>,
    maxRuntimeSeconds: int, artifactUrl: string, artifactSha: string)

  datatype JobRecord = JobRecord(id: Id, spec: JobSpec, status: JobStatus, createdAt: int, assignee: Id)

  datatype OutputArtifact = OutputArtifact(
    relativePath: string, objectKey: string, uri: string, apiUrl: string, publicUrl: string,
    sha: string, sizeBytes: int, contentType: string)

  /** The parts of a result that are copied but never inspected. */
  datatype ResultBody = ResultBody(
    stdout: string, stderr: string, outputUri: string, outputApiUrl: string, outputPublicUrl: string,
    outputSizeBytes: int, artifacts: seq<OutputArtifact>)

  datatype PbResult = PbResult(jobId: Id, status: PbStatus, exitCode: int, body: ResultBody, finishedAt: int)

  datatype ResultRecord = ResultRecord(
    jobId: Id, workerId: Id, resultStatus: string, partial: bool, exitCode: int, body: ResultBody, finishedAt: int)

  datatype SubmitResultRequest = SubmitResultRequest(workerId: Id, result: Option<PbResult>)
}
