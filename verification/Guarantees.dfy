/** What the coordinator guarantees over every run of the state machine in Protocol. */
module Guarantees {
  import opened Domain
  import opened Store
  import opened Handlers
  import opened Monitor
  import opened Protocol

  // ----- refinement of a five-line job queue -----

  /** The abstract queue: which job is next, and the state of every job. */
  datatype Spec = Spec(order: seq<Id>, jobs: map<Id, JobState>)

  datatype Action =
    | Stutter
    | New(job: Id)
    | Take(job: Id, worker: Id)
    | Finish(job: Id, status: JobStatus, result: ResultRecord)
    | PutBack(moved: seq<Id>)

  ghost predicate SpecNext(a: Spec, act: Action, b: Spec) {
    match act
    case Stutter => b == a
    case New(j) => j !in a.jobs && b == Spec(a.order + [j], a.jobs[j := Waiting])
    case Take(j, w) =>
      && a.order != [] && a.order[0] == j && Get(a.jobs, j) == Some(Waiting)
      && b == Spec(a.order[1..], a.jobs[j := Held(w)])
    case Finish(j, status, r) =>
      && Get(a.jobs, j) == Some(Held(r.workerId)) && status.Terminal()
      && b == Spec(a.order, a.jobs[j := Done(status, r)])
    case PutBack(moved) =>
      && NoDup(moved) && (forall j :: j in moved ==> j in a.jobs && a.jobs[j].Held?)
      && b == Spec(a.order + moved, map j | j in a.jobs :: if j in moved then Waiting else a.jobs[j])
  }

  function Abs(db: Db): Spec {
    Spec(db.queue, map j | j in db.jobs && StateOf(db, j).Some? :: StateOf(db, j).value)
  }

  /** The abstract action of an event, read off the handler's reply. */
  function ActionOf(s: Sys, ev: Event): Action {
    match ev
    case RequestJob(w) =>
      var reply := RequestOutcome(s.db, w).1;
      if reply.Ok? && reply.value.Some? then Take(reply.value.value.id, w) else Stutter
    case SubmitResult(req, now) =>
      var v := SubmitVerdict(s.db, req, now);
      if v.Commit? then Finish(req.result.value.jobId, v.terminal, v.record) else Stutter
    case SubmitJob(uuid, spec, _) => if Acceptable(spec) then New(uuid) else Stutter
    case Sweep(moved) => PutBack(moved)
    case _ => Stutter
  }

  lemma StateKept(a: Db, b: Db, j: Id)
    requires JobsAgree(a) && SameJob(a, b, j)
    ensures j in a.jobs ==> StateOf(a, j).Some? && StateOf(b, j) == StateOf(a, j)
  {
    if j in a.jobs {
      assert JobInv(a, j);
      SameJobAgrees(a, b, j);
    }
  }

  lemma AbsPointwise(a: Db, b: Db, j: Id, st: JobState)
    requires b.jobs.Keys == a.jobs.Keys + {j} && StateOf(b, j) == Some(st)
    requires forall i :: i in a.jobs && i != j ==> StateOf(a, i).Some? && StateOf(b, i) == StateOf(a, i)
    ensures Abs(b).jobs == Abs(a).jobs[j := st]
  {
  }

  /** If one job changes state and the others keep theirs, the abstraction is updated at that job. */
  lemma AbsUpdate(a: Db, b: Db, j: Id)
    requires JobsAgree(a) && JobsAgree(b) && OnlyJobChanges(a, b, j)
    ensures StateOf(b, j).Some? && Abs(b).jobs == Abs(a).jobs[j := StateOf(b, j).value]
  {
    assert JobInv(b, j);
    forall i | i in a.jobs && i != j ensures StateOf(a, i).Some? && StateOf(b, i) == StateOf(a, i) {
      assert SameJob(a, b, i);
      StateKept(a, b, i);
    }
    AbsPointwise(a, b, j, StateOf(b, j).value);
  }

  lemma RefineTake(db: Db, w: Id)
    requires JobsAgree(db) && w != "" && db.queue != []
    ensures db.queue[0] in db.jobs && SpecNext(Abs(db), Take(db.queue[0], w), Abs(HeadClaimed(db, w)))
  {
    ClaimAgrees(db, w);
    AbsUpdate(db, HeadClaimed(db, w), db.queue[0]);
  }

  lemma RefineFinish(db: Db, j: Id, r: ResultRecord, terminal: JobStatus)
    requires JobsAgree(db) && j in db.jobs && StateOf(db, j) == Some(Held(r.workerId))
    requires terminal.Terminal() && FinalRecord(j, terminal, r)
    ensures SpecNext(Abs(db), Finish(j, terminal, r), Abs(Finalized(db, db.jobs[j], r, terminal)))
  {
    CommitAgrees(db, j, r, terminal);
    AbsUpdate(db, Finalized(db, db.jobs[j], r, terminal), j);
  }

  lemma RefinePartial(db: Db, j: Id, r: ResultRecord)
    requires JobsAgree(db) && j in db.jobs && Get(db.status, j) == Some(Running)
    requires r.jobId == j && r.partial && r.resultStatus == StatusRunning.Name()
    ensures Abs(ResultSaved(db, r)) == Abs(db)
  {
    assert JobInv(db, j);
    PartialAgrees(db, j, r);
    AbsUpdate(db, ResultSaved(db, r), j);
  }

  lemma RefineNew(db: Db, job: JobRecord)
    requires JobsAgree(db) && job.id != "" && job.id !in db.jobs && job.status == Queued && job.assignee == ""
    ensures SpecNext(Abs(db), New(job.id), Abs(Enqueued(db, job)))
  {
    EnqueueAgrees(db, job);
    AbsUpdate(db, Enqueued(db, job), job.id);
  }

  lemma SweptState(db: Db, moved: seq<Id>, j: Id)
    requires JobsAgree(db) && WorkersAgree(db) && SweepOf(db, moved) && j in db.jobs
    ensures StateOf(db, j).Some?
    ensures StateOf(Swept(db, DeadWorkers(db), moved), j) == if j in moved then Some(Waiting) else StateOf(db, j)
    ensures j in moved ==> StateOf(db, j).value.Held?
  {
    SweptJobAgrees(db, DeadWorkers(db), moved, j);
    StrandedAreHeldByDead(db, j);
    if j !in moved { StateKept(db, Swept(db, DeadWorkers(db), moved), j); }
  }

  lemma SweptPointwise(a: Db, b: Db, moved: seq<Id>)
    requires b.jobs.Keys == a.jobs.Keys && b.queue == a.queue + moved && NoDup(moved)
    requires forall j :: j in moved ==> j in a.jobs
    requires forall j :: j in a.jobs ==>
      && StateOf(a, j).Some? && (j in moved ==> StateOf(a, j).value.Held?)
      && StateOf(b, j) == if j in moved then Some(Waiting) else StateOf(a, j)
    ensures SpecNext(Abs(a), PutBack(moved), Abs(b))
  {
    assert Abs(b).jobs == map j | j in Abs(a).jobs :: if j in moved then Waiting else Abs(a).jobs[j];
  }

  lemma RefineSweep(db: Db, moved: seq<Id>)
    requires JobsAgree(db) && WorkersAgree(db) && SweepOf(db, moved)
    ensures SpecNext(Abs(db), PutBack(moved), Abs(Swept(db, DeadWorkers(db), moved)))
  {
    var t := Swept(db, DeadWorkers(db), moved);
    forall j | j in db.jobs
      ensures StateOf(db, j).Some? && (j in moved ==> StateOf(db, j).value.Held?)
      ensures StateOf(t, j) == if j in moved then Some(Waiting) else StateOf(db, j)
    {
      SweptState(db, moved, j);
    }
    SweptPointwise(db, t, moved);
  }

  lemma RefineSubmit(db: Db, req: SubmitResultRequest, now: int)
    requires JobsAgree(db)
    ensures var v := SubmitVerdict(db, req, now);
      SpecNext(Abs(db), if v.Commit? then Finish(req.result.value.jobId, v.terminal, v.record) else Stutter,
               Abs(SubmitOutcome(db, req, now).0))
  {
    SubmitCases(db, req, now);
    var v := SubmitVerdict(db, req, now);
    if v.Commit? {
      RefineFinish(db, req.result.value.jobId, v.record, v.terminal);
    } else if v.StorePartial? {
      RefinePartial(db, req.result.value.jobId, v.record);
    }
  }

  lemma RefineRequest(s: Sys, w: Id)
    requires JobsAgree(s.db) && WorkersAgree(s.db)
    ensures SpecNext(Abs(s.db), ActionOf(s, RequestJob(w)), Abs(RequestOutcome(s.db, w).0))
  {
    RequestCases(s.db, w);
    if w in s.db.records && w in s.db.alive && s.db.queue != [] {
      RefineTake(s.db, w);
      ClaimAgrees(s.db, w);
    }
  }

  lemma RefineRegistry(a: Db, b: Db)
    requires SameJobs(a, b)
    ensures Abs(a) == Abs(b)
  {
    forall j ensures StateOf(a, j) == StateOf(b, j) {}
  }

  lemma RefineJobEvent(s: Sys, ev: Event)
    requires JobsAgree(s.db) && WorkersAgree(s.db) && s.db.jobs.Keys <= s.issued && Enabled(s, ev)
    requires ev.SubmitJob? || ev.Sweep? || ev.RegisterWorker? || ev.Heartbeat? || ev.Expire?
    ensures SpecNext(Abs(s.db), ActionOf(s, ev), Abs(Apply(s, ev).db))
  {
    match ev
    case SubmitJob(uuid, spec, now) => if Acceptable(spec) { RefineNew(s.db, NewJob(uuid, spec, now)); }
    case Sweep(moved) => RefineSweep(s.db, moved);
    case _ => RefineRegistry(s.db, Apply(s, ev).db);
  }

  /** Every event is an abstract step, or leaves the abstract state alone. */
  lemma Refinement(s: Sys, ev: Event)
    requires Inv(s) && Enabled(s, ev)
    ensures SpecNext(Abs(s.db), ActionOf(s, ev), Abs(Apply(s, ev).db))
  {
    match ev
    case RequestJob(w) => RefineRequest(s, w);
    case SubmitResult(req, now) => RefineSubmit(s.db, req, now);
    case _ => RefineJobEvent(s, ev);
  }

  function AbsTrace(s: Sys, evs: seq<Event>): (r: seq<Spec>)
    ensures |r| == |evs| + 1
    decreases |evs|
  {
    [Abs(s.db)] + if evs == [] then [] else AbsTrace(Apply(s, evs[0]), evs[1..])
  }

  function Actions(s: Sys, evs: seq<Event>): (r: seq<Action>)
    ensures |r| == |evs|
    decreases |evs|
  {
    if evs == [] then [] else [ActionOf(s, evs[0])] + Actions(Apply(s, evs[0]), evs[1..])
  }

  /** Every run of the coordinator is a run of the abstract queue. */
  lemma {:induction false} RunRefines(s: Sys, evs: seq<Event>)
    requires Inv(s) && IsRun(s, evs)
    ensures forall k :: 0 <= k < |evs| ==>
      SpecNext(AbsTrace(s, evs)[k], Actions(s, evs)[k], AbsTrace(s, evs)[k + 1])
    decreases |evs|
  {
    if evs != [] {
      var t, rest := Apply(s, evs[0]), evs[1..];
      Refinement(s, evs[0]);
      Keeps(s, evs[0]);
      RunRefines(t, rest);
      assert AbsTrace(t, rest)[0] == Abs(t.db);
      forall k | 0 <= k < |evs|
        ensures SpecNext(AbsTrace(s, evs)[k], Actions(s, evs)[k], AbsTrace(s, evs)[k + 1])
      {
        if k > 0 {
          assert SpecNext(AbsTrace(t, rest)[k - 1], Actions(t, rest)[k - 1], AbsTrace(t, rest)[k]);
        }
      }
    }
  }

  // ----- what clients are told -----

  function PbOf(st: JobState): PbStatus {
    match st
    case Waiting => StatusQueued
    case Held(_) => StatusRunning
    case Done(status, _) => if status == Completed then StatusSucceeded else StatusFailed
  }

  /** GetJobStatus reports exactly the abstract state. */
  lemma StatusQueryExact(db: Db, j: Id)
    requires JobsAgree(db) && j != ""
    ensures match StateOf(db, j)
      case None => JobStatusQuery(db, j) == Fail(NotFound)
      case Some(st) => JobStatusQuery(db, j) == Ok(JobStatusAnswer(PbOf(st), if st.Held? then st.worker else ""))
  {
    assert JobInv(db, j);
  }

  /** GetJobResult reports the abstract state; the final result is returned unchanged exactly when the job is done. */
  lemma ResultQueryExact(db: Db, j: Id)
    requires JobsAgree(db) && j != ""
    ensures match StateOf(db, j)
      case None => JobResultQuery(db, j) == Fail(NotFound)
      case Some(Done(status, r)) =>
        JobResultQuery(db, j) == Ok(JobResultAnswer(PbOf(Done(status, r)), true,
          Some(PbResult(j, PbOf(Done(status, r)), r.exitCode, r.body, r.finishedAt))))
      case Some(st) =>
        var a := JobResultQuery(db, j);
        a.Ok? && a.value.status == PbOf(st) && (a.value.available <==> j in db.results) &&
        (a.value.available <==> a.value.result.Some?) &&
        (a.value.available ==> a.value.result.value.status == StatusRunning)
  {
    assert JobInv(db, j);
    StatusNameRoundTrip(StatusRunning);
    StatusNameRoundTrip(StatusSucceeded);
    StatusNameRoundTrip(StatusFailed);
  }

  /** The client's `completed` flag is true exactly for finished jobs, whatever partial results came before. */
  lemma CompletedIffDone(db: Db, j: Id)
    requires JobsAgree(db) && j in db.jobs
    ensures JobResultQuery(db, j).Ok? && StateOf(db, j).Some?
    ensures ClientCompleted(JobResultQuery(db, j).value) <==> StateOf(db, j).value.Done?
  {
    assert JobInv(db, j);
    ResultQueryExact(db, j);
  }

  // ----- exactly-once finalisation -----

  ghost predicate IsDone(db: Db, j: Id) {
    StateOf(db, j).Some? && StateOf(db, j).value.Done?
  }

  lemma DoneSurvivesSubmit(db: Db, req: SubmitResultRequest, now: int, j: Id)
    requires JobsAgree(db) && IsDone(db, j)
    ensures SameJob(db, SubmitOutcome(db, req, now).0, j)
  {
    SubmitCases(db, req, now);
    var v := SubmitVerdict(db, req, now);
    if v.Commit? {
      CommitAgrees(db, req.result.value.jobId, v.record, v.terminal);
    } else if v.StorePartial? {
      PartialAgrees(db, req.result.value.jobId, v.record);
    }
  }

  lemma DoneSurvivesRequest(db: Db, w: Id, j: Id)
    requires JobsAgree(db) && WorkersAgree(db) && IsDone(db, j)
    ensures SameJob(db, RequestOutcome(db, w).0, j)
  {
    RequestCases(db, w);
    if w in db.records && w in db.alive && db.queue != [] { ClaimAgrees(db, w); }
  }

  lemma DoneSurvivesNew(db: Db, uuid: Id, spec: JobSpec, now: int, j: Id)
    requires JobsAgree(db) && IsDone(db, j) && uuid !in db.jobs && uuid != ""
    ensures SameJob(db, SubmitJobOutcome(db, uuid, spec, now).0, j)
  {
    assert JobInv(db, j);
  }

  lemma DoneSurvivesSweep(db: Db, moved: seq<Id>, j: Id)
    requires JobsAgree(db) && WorkersAgree(db) && IsDone(db, j) && SweepOf(db, moved)
    ensures SameJob(db, Swept(db, DeadWorkers(db), moved), j)
  {
    StrandedAreHeldByDead(db, j);
    SweepAgrees(db, DeadWorkers(db), moved);
  }

  lemma DoneStepUntouched(s: Sys, ev: Event, j: Id)
    requires Inv(s) && Enabled(s, ev) && IsDone(s.db, j)
    ensures SameJob(s.db, Apply(s, ev).db, j)
  {
    match ev
    case RequestJob(w) => DoneSurvivesRequest(s.db, w, j);
    case SubmitResult(req, now) => DoneSurvivesSubmit(s.db, req, now, j);
    case SubmitJob(uuid, spec, now) => DoneSurvivesNew(s.db, uuid, spec, now, j);
    case Sweep(moved) => DoneSurvivesSweep(s.db, moved, j);
    case _ =>
  }

  /** Once a job is done, no later event changes its status, record or result, or queues or assigns it again. */
  lemma {:induction false} DoneForever(s: Sys, evs: seq<Event>, j: Id)
    requires Inv(s) && IsRun(s, evs) && IsDone(s.db, j)
    ensures SameJob(s.db, Exec(s, evs).db, j) && StateOf(Exec(s, evs).db, j) == StateOf(s.db, j)
    decreases |evs|
  {
    if evs != [] {
      var t := Apply(s, evs[0]);
      DoneStepUntouched(s, evs[0], j);
      Keeps(s, evs[0]);
      assert JobInv(s.db, j);
      SameJobAgrees(s.db, t.db, j);
      DoneForever(t, evs[1..], j);
    }
  }

  /** On every run each job is finalised at most once, and exactly once if and only if it is done. */
  lemma ExactlyOnce(evs: seq<Event>, j: Id)
    requires IsRun(Init, evs)
    ensures multiset(Exec(Init, evs).finals)[j] == if IsDone(Exec(Init, evs).db, j) then 1 else 0
  {
    InitInv();
    RunKeeps(Init, evs);
    var s := Exec(Init, evs);
    assert JobInv(s.db, j);
  }

  /** The handler's branch that accepts a repeated final result is never reached: a repeat, by whichever worker, is
      refused with FailedPrecondition because finalising clears both places that name the worker. */
  lemma RepeatIsRefused(s: Sys, req: SubmitResultRequest, now: int)
    requires Inv(s)
    ensures !SubmitVerdict(s.db, req, now).AlreadyDone?
    ensures req.workerId != "" && req.result.Some? && IsDone(s.db, req.result.value.jobId) ==>
            SubmitOutcome(s.db, req, now) == (s.db, Fail(FailedPrecondition))
  {
    SubmitCases(s.db, req, now);
    if req.result.Some? && IsDone(s.db, req.result.value.jobId) { assert JobInv(s.db, req.result.value.jobId); }
  }

  // ----- fencing -----

  lemma OnlyTheHolderMatters(db: Db, req: SubmitResultRequest, now: int)
    requires JobsAgree(db) && WorkersAgree(db)
    ensures SubmitOutcome(db, req, now).0 != db ==>
      && req.result.Some? && StateOf(db, req.result.value.jobId) == Some(Held(req.workerId))
      && Get(db.holder, req.result.value.jobId) == Some(req.workerId) && req.workerId in db.workers
  {
    SubmitCases(db, req, now);
    if !SubmitVerdict(db, req, now).Refuse? { assert JobInv(db, req.result.value.jobId); }
  }

  /** A SubmitResult that changes anything comes from the worker that made the job's most recent claim. */
  lemma Fencing(s: Sys, req: SubmitResultRequest, now: int)
    requires Inv(s) && SubmitOutcome(s.db, req, now).0 != s.db
    ensures req.result.Some? && LastClaim(s.claims, req.result.value.jobId) == Some(req.workerId)
    ensures StateOf(s.db, req.result.value.jobId) == Some(Held(req.workerId))
  {
    OnlyTheHolderMatters(s.db, req, now);
  }

  lemma {:induction false} EvictedStays(s: Sys, evs: seq<Event>, w: Id)
    requires w in s.evicted
    ensures w in Exec(s, evs).evicted
    decreases |evs|
  {
    if evs != [] {
      EvictedStays(Apply(s, evs[0]), evs[1..], w);
    }
  }

  /** After a sweep evicted a worker, on any run, its polls and heartbeats are answered NotFound, which is what makes a
      worker register again, and nothing that carries its id changes anything. */
  lemma EvictedIsFenced(s: Sys, evs: seq<Event>, w: Id)
    requires Inv(s) && IsRun(s, evs) && w in s.evicted
    ensures var t := Exec(s, evs).db;
      && w !in t.workers
      && RequestOutcome(t, w) == (t, Fail(NotFound))
      && (forall resources, now :: HeartbeatOutcome(t, w, resources, now) == (t, Fail(NotFound)))
      && (forall req: SubmitResultRequest, now :: req.workerId == w ==> SubmitOutcome(t, req, now).0 == t)
  {
    RunKeeps(s, evs);
    EvictedStays(s, evs, w);
    var u := Exec(s, evs);
    forall req: SubmitResultRequest, now | req.workerId == w ensures SubmitOutcome(u.db, req, now).0 == u.db {
      OnlyTheHolderMatters(u.db, req, now);
    }
  }

  // ----- every answer to a worker -----

  /** RequestJob answers by the state of the registry and the queue alone: an unknown worker is told NotFound, one whose
      liveness key has run out gets nothing, and a live one gets the head of the queue, if there is one. */
  lemma RequestAnswers(db: Db, w: Id)
    requires JobsAgree(db) && WorkersAgree(db)
    ensures var (t, reply) := RequestOutcome(db, w);
      && (w == "" ==> reply == Fail(InvalidArgument))
      && (w != "" && w !in db.workers ==> reply == Fail(NotFound))
      && (w in db.workers && (w !in db.alive || db.queue == []) ==> reply == Ok(None))
      && (reply.Ok? && reply.value.Some? <==> w in db.workers && w in db.alive && db.queue != [])
      && (!(reply.Ok? && reply.value.Some?) ==> t == db)
      && (reply.Ok? && reply.value.Some? ==>
            && reply.value.value.id == db.queue[0] && t.queue == db.queue[1..]
            && StateOf(db, db.queue[0]) == Some(Waiting) && StateOf(t, db.queue[0]) == Some(Held(w))
            && (forall j :: j != db.queue[0] ==> SameJob(db, t, j))
            && t.workers == db.workers && t.records == db.records && t.alive == db.alive)
  {
    RequestCases(db, w);
    if w in db.records && w in db.alive && db.queue != [] { ClaimAgrees(db, w); }
  }

  /** The state of the job decides the answer to a well-formed submission about it, and only the holder's partial and
      final results have an effect: the stored result for the one, the end of the job for the other. */
  lemma SubmitAnswers(db: Db, w: Id, r: PbResult, now: int)
    requires JobsAgree(db) && w != "" && r.jobId != ""
    ensures var (t, reply) := SubmitOutcome(db, SubmitResultRequest(w, Some(r)), now);
      match StateOf(db, r.jobId)
      case None => reply == Fail(NotFound) && t == db
      case Some(Waiting) => reply == Fail(FailedPrecondition) && t == db
      case Some(Done(_, _)) => reply == Fail(FailedPrecondition) && t == db
      case Some(Held(v)) =>
        if v != w then reply == Fail(PermissionDenied) && t == db
        else if r.status !in {StatusRunning, StatusSucceeded, StatusFailed} then
          reply == Fail(InvalidArgument) && t == db
        else
          && reply == Ok(()) && (forall j :: j != r.jobId ==> SameJob(db, t, j))
          && t.queue == db.queue && t.workers == db.workers && t.records == db.records && t.alive == db.alive
          && StateOf(t, r.jobId).Some?
          && (r.status == StatusRunning <==> StateOf(t, r.jobId) == Some(Held(w)))
          && (r.status != StatusRunning <==> StateOf(t, r.jobId).value.Done?)
  {
    var req := SubmitResultRequest(w, Some(r));
    assert JobInv(db, r.jobId);
    SubmitCases(db, req, now);
    var v := SubmitVerdict(db, req, now);
    if v.Commit? {
      CommitAgrees(db, r.jobId, v.record, v.terminal);
    } else if v.StorePartial? {
      PartialAgrees(db, r.jobId, v.record);
    }
  }

  /** A request without a worker, a result or a job is refused. */
  lemma MalformedIsRefused(db: Db, req: SubmitResultRequest, now: int)
    requires req.workerId == "" || req.result.None? || req.result.value.jobId == ""
    ensures SubmitOutcome(db, req, now) == (db, Fail(InvalidArgument))
  {
  }

  /** SubmitJob takes exactly the requests with an image, a command and resources, and queues the job last. */
  lemma SubmitJobAnswers(db: Db, uuid: Id, spec: JobSpec, now: int)
    requires JobsAgree(db) && uuid != "" && uuid !in db.jobs
    ensures var (t, reply) := SubmitJobOutcome(db, uuid, spec, now);
      if spec.image == "" || |spec.command| == 0 || spec.resources.None? then
        reply == Fail(InvalidArgument) && t == db
      else
        && reply == Ok(uuid) && t.queue == db.queue + [uuid] && StateOf(db, uuid).None?
        && StateOf(t, uuid) == Some(Waiting) && t.jobs[uuid] == JobRecord(uuid, spec, Queued, now, "")
        && (forall j :: j != uuid ==> SameJob(db, t, j))
        && t.workers == db.workers && t.records == db.records && t.alive == db.alive
  {
    assert JobInv(db, uuid);
    if Acceptable(spec) { EnqueueAgrees(db, NewJob(uuid, spec, now)); }
  }

  // ----- no orphans, and what a sweep does -----

  /** A running job's holder is registered, so if it is unreachable the next sweep sees it and puts the job back. */
  lemma NoOrphans(s: Sys, j: Id, moved: seq<Id>)
    requires Inv(s) && StateOf(s.db, j).Some? && StateOf(s.db, j).value.Held?
    requires SweepOf(s.db, moved)
    ensures var w := StateOf(s.db, j).value.worker;
      && w in s.db.workers && w in s.db.records
      && (w !in s.db.alive ==> j in moved && StateOf(Apply(s, Sweep(moved)).db, j) == Some(Waiting))
  {
    assert JobInv(s.db, j);
    StrandedAreHeldByDead(s.db, j);
  }

  /** A sweep appends each job of each dead worker once, in front of nothing that was queued, keeps the jobs of live
      workers and all other jobs as they were, and leaves exactly the live workers registered. */
  lemma SweepExact(s: Sys, moved: seq<Id>)
    requires Inv(s) && SweepOf(s.db, moved)
    ensures var t := Apply(s, Sweep(moved)).db;
      && t.queue == s.db.queue + moved && NoDup(t.queue)
      && (forall j :: j in moved <==>
            StateOf(s.db, j).Some? && StateOf(s.db, j).value.Held? && StateOf(s.db, j).value.worker !in s.db.alive)
      && (forall j :: j !in moved ==> SameJob(s.db, t, j))
      && (forall j :: j in moved ==> StateOf(t, j) == Some(Waiting))
      && t.workers == s.db.alive && t.alive == s.db.alive
  {
    SweepAgrees(s.db, DeadWorkers(s.db), moved);
    MovedAreStranded(s.db, moved);
    assert JobsAgree(Apply(s, Sweep(moved)).db);
    LiveWorkersStay(s.db, moved);
  }

  lemma LiveWorkersStay(db: Db, moved: seq<Id>)
    requires WorkersAgree(db)
    ensures var t := Swept(db, DeadWorkers(db), moved); t.workers == db.alive && t.alive == db.alive
  {
  }

  lemma MovedAreStranded(db: Db, moved: seq<Id>)
    requires JobsAgree(db) && WorkersAgree(db) && SweepOf(db, moved)
    ensures forall j :: j in moved <==>
      StateOf(db, j).Some? && StateOf(db, j).value.Held? && StateOf(db, j).value.worker !in db.alive
  {
    forall j
      ensures j in moved <==>
        StateOf(db, j).Some? && StateOf(db, j).value.Held? && StateOf(db, j).value.worker !in db.alive
    {
      StrandedAreHeldByDead(db, j);
    }
  }

  // ----- progress -----

  /** On every run, S accepted submissions and R requeues pay for at most 2S + R claims and finalisations together. */
  lemma WorkIsBounded(evs: seq<Event>)
    requires IsRun(Init, evs)
    ensures var s := Exec(Init, evs); |s.claims| + |s.finals| + Potential(s.db) == 2 * s.submits + s.requeues
  {
    InitInv();
    RunKeeps(Init, evs);
  }

  predicate AddsWork(ev: Event) {
    (ev.SubmitJob? && Acceptable(ev.spec)) || (ev.Sweep? && ev.moved != [])
  }

  lemma {:induction false} NoNewWork(s: Sys, evs: seq<Event>)
    requires forall i :: 0 <= i < |evs| ==> !AddsWork(evs[i])
    ensures Exec(s, evs).submits == s.submits && Exec(s, evs).requeues == s.requeues
    decreases |evs|
  {
    if evs != [] {
      assert !AddsWork(evs[0]);
      NoNewWork(Apply(s, evs[0]), evs[1..]);
    }
  }

  /** From any reachable state, without new jobs or requeues, every further claim or finalisation uses up potential. */
  lemma WorkRunsOut(s: Sys, evs: seq<Event>)
    requires Inv(s) && IsRun(s, evs)
    requires forall i :: 0 <= i < |evs| ==> !AddsWork(evs[i])
    ensures var t := Exec(s, evs);
      |t.claims| + |t.finals| + Potential(t.db) == |s.claims| + |s.finals| + Potential(s.db)
  {
    RunKeeps(s, evs);
    NoNewWork(s, evs);
  }

  // ----- end to end: what is submitted is what is delivered -----

  /** What no step may change in a job record. */
  function Data(job: JobRecord): JobRecord {
    job.(status := Queued, assignee := "")
  }

  lemma ClaimKeepsData(db: Db, w: Id, j: Id)
    requires JobsAgree(db) && WorkersAgree(db) && j in db.jobs
    ensures var jobs := RequestOutcome(db, w).0.jobs; j in jobs && Data(jobs[j]) == Data(db.jobs[j])
  {
    RequestCases(db, w);
    if w in db.records && w in db.alive && db.queue != [] { ClaimAgrees(db, w); }
  }

  lemma SubmitKeepsData(db: Db, req: SubmitResultRequest, now: int, j: Id)
    requires JobsAgree(db) && j in db.jobs
    ensures var jobs := SubmitOutcome(db, req, now).0.jobs; j in jobs && Data(jobs[j]) == Data(db.jobs[j])
  {
    SubmitCases(db, req, now);
    var v := SubmitVerdict(db, req, now);
    if v.Commit? { CommitAgrees(db, req.result.value.jobId, v.record, v.terminal); }
  }

  lemma StepKeepsData(s: Sys, ev: Event, j: Id)
    requires Inv(s) && Enabled(s, ev) && j in s.db.jobs
    ensures var jobs := Apply(s, ev).db.jobs; j in jobs && Data(jobs[j]) == Data(s.db.jobs[j])
  {
    match ev
    case RequestJob(w) => ClaimKeepsData(s.db, w, j);
    case SubmitResult(req, now) => SubmitKeepsData(s.db, req, now, j);
    case _ =>
  }

  lemma {:induction false} RunKeepsData(s: Sys, evs: seq<Event>, j: Id)
    requires Inv(s) && IsRun(s, evs) && j in s.db.jobs
    ensures var jobs := Exec(s, evs).db.jobs; j in jobs && Data(jobs[j]) == Data(s.db.jobs[j])
    decreases |evs|
  {
    if evs != [] {
      StepKeepsData(s, evs[0], j);
      Keeps(s, evs[0]);
      RunKeepsData(Apply(s, evs[0]), evs[1..], j);
    }
  }

  /** Whichever worker is handed a job, however often it was requeued, gets what the client submitted. */
  lemma SpecReachesWorker(s: Sys, uuid: Id, spec: JobSpec, now: int, evs: seq<Event>, w: Id)
    requires Inv(s) && Enabled(s, SubmitJob(uuid, spec, now)) && Acceptable(spec)
    requires IsRun(Apply(s, SubmitJob(uuid, spec, now)), evs)
    ensures var reply := RequestOutcome(Exec(Apply(s, SubmitJob(uuid, spec, now)), evs).db, w).1;
      reply.Ok? && reply.value.Some? && reply.value.value.id == uuid ==>
        reply.value.value == JobRecord(uuid, spec, Running, now, w)
  {
    var t := Apply(s, SubmitJob(uuid, spec, now));
    Keeps(s, SubmitJob(uuid, spec, now));
    RunKeepsData(t, evs, uuid);
    RunKeeps(t, evs);
    var db := Exec(t, evs).db;
    RequestCases(db, w);
    if w in db.records && w in db.alive && db.queue != [] { ClaimAgrees(db, w); }
  }

  /** The coordinator never answers NotFound to a result, partial or final and from whomever, for a job that it has
      handed out: the retry that workers keep for that answer is never taken, whatever happens in between. */
  lemma HandedOutIsNeverNotFound(s: Sys, w: Id, evs: seq<Event>, req: SubmitResultRequest, now: int)
    requires Inv(s) && IsRun(Apply(s, RequestJob(w)), evs)
    requires RequestOutcome(s.db, w).1.Ok? && RequestOutcome(s.db, w).1.value.Some?
    requires req.result.Some? && req.result.value.jobId == RequestOutcome(s.db, w).1.value.value.id
    ensures SubmitOutcome(Exec(Apply(s, RequestJob(w)), evs).db, req, now).1 != Fail(NotFound)
  {
    var t, j := Apply(s, RequestJob(w)), req.result.value.jobId;
    HandedOutIsKnown(s.db, w);
    Keeps(s, RequestJob(w));
    RunKeepsData(t, evs, j);
    RunKeeps(t, evs);
    KnownIsFound(Exec(t, evs).db, req, now);
  }

  lemma HandedOutIsKnown(db: Db, w: Id)
    requires JobsAgree(db) && WorkersAgree(db)
    requires RequestOutcome(db, w).1.Ok? && RequestOutcome(db, w).1.value.Some?
    ensures RequestOutcome(db, w).1.value.value.id in RequestOutcome(db, w).0.jobs
  {
    RequestCases(db, w);
    if db.queue != [] { ClaimAgrees(db, w); }
  }

  lemma KnownIsFound(db: Db, req: SubmitResultRequest, now: int)
    requires JobsAgree(db) && req.result.Some? && req.result.value.jobId in db.jobs
    ensures SubmitOutcome(db, req, now).1 != Fail(NotFound)
  {
    assert JobInv(db, req.result.value.jobId);
  }

  lemma CommitIsShown(db: Db, req: SubmitResultRequest, now: int)
    requires JobsAgree(db) && SubmitVerdict(db, req, now).Commit?
    ensures var t, r := SubmitOutcome(db, req, now).0, req.result.value;
      StateOf(t, r.jobId) == Some(Done(TerminalFor(r.status), ToRecord(req.workerId, r, now)))
    ensures req.result.value.status == StatusSucceeded || req.result.value.status == StatusFailed
  {
    SubmitCases(db, req, now);
    var v := SubmitVerdict(db, req, now);
    CommitAgrees(db, req.result.value.jobId, v.record, v.terminal);
  }

  /** The result with the time that the handler fills in. */
  function Dated(r: PbResult, now: int): PbResult {
    if r.finishedAt == 0 then r.(finishedAt := now) else r
  }

  lemma ShownWhenDone(db: Db, w: Id, r: PbResult, now: int)
    requires JobsAgree(db) && (r.status == StatusSucceeded || r.status == StatusFailed)
    requires StateOf(db, r.jobId) == Some(Done(TerminalFor(r.status), ToRecord(w, r, now)))
    ensures var shown := JobResultQuery(db, r.jobId);
      && shown == Ok(JobResultAnswer(r.status, true, Some(Dated(r, now))))
      && ClientCompleted(shown.value)
  {
    assert JobInv(db, r.jobId);
    ResultQueryExact(db, r.jobId);
  }

  /** A submission about another job. */
  predicate NotAbout(ev: Event, j: Id) {
    ev.SubmitResult? && ev.req.result.Some? ==> ev.req.result.value.jobId != j
  }

  lemma ResultKept(s: Sys, ev: Event, j: Id)
    requires Inv(s) && Enabled(s, ev) && NotAbout(ev, j) && j in s.db.jobs
    ensures Get(Apply(s, ev).db.results, j) == Get(s.db.results, j)
  {
    match ev
    case RequestJob(w) => RequestCases(s.db, w);
    case SubmitResult(req, now) =>
      SubmitCases(s.db, req, now);
      if !SubmitVerdict(s.db, req, now).Refuse? { assert JobInv(s.db, req.result.value.jobId); }
    case _ =>
  }

  lemma {:induction false} ResultKeptOverRun(s: Sys, evs: seq<Event>, j: Id)
    requires Inv(s) && IsRun(s, evs) && j in s.db.jobs && forall k :: 0 <= k < |evs| ==> NotAbout(evs[k], j)
    ensures Get(Exec(s, evs).db.results, j) == Get(s.db.results, j)
    decreases |evs|
  {
    if evs != [] {
      ResultKept(s, evs[0], j);
      StepKeepsData(s, evs[0], j);
      Keeps(s, evs[0]);
      ResultKeptOverRun(Apply(s, evs[0]), evs[1..], j);
    }
  }

  /** A partial result that the coordinator accepted is what GetJobResult returns, field by field and marked RUNNING,
      until the next submission about the job, through evictions, requeues and further claims. */
  lemma PartialReachesClient(s: Sys, req: SubmitResultRequest, now: int, evs: seq<Event>)
    requires Inv(s) && SubmitOutcome(s.db, req, now).1.Ok? && req.result.value.status == StatusRunning
    requires IsRun(Apply(s, SubmitResult(req, now)), evs)
    requires forall k :: 0 <= k < |evs| ==> NotAbout(evs[k], req.result.value.jobId)
    ensures var shown := JobResultQuery(Exec(Apply(s, SubmitResult(req, now)), evs).db, req.result.value.jobId);
      shown.Ok? && shown.value.available && shown.value.result == req.result
  {
    var t := Apply(s, SubmitResult(req, now));
    SubmitCases(s.db, req, now);
    Keeps(s, SubmitResult(req, now));
    ResultKeptOverRun(t, evs, req.result.value.jobId);
    StatusNameRoundTrip(StatusRunning);
  }

  /** A final result that the coordinator accepted is what every later GetJobResult returns, field by field. */
  lemma ResultReachesClient(s: Sys, req: SubmitResultRequest, now: int, evs: seq<Event>)
    requires Inv(s) && SubmitVerdict(s.db, req, now).Commit?
    requires IsRun(Apply(s, SubmitResult(req, now)), evs)
    ensures var db := Exec(Apply(s, SubmitResult(req, now)), evs).db;
      var r := req.result.value;
      var shown := JobResultQuery(db, r.jobId);
      && shown == Ok(JobResultAnswer(r.status, true, Some(Dated(r, now))))
      && ClientCompleted(shown.value)
  {
    var t := Apply(s, SubmitResult(req, now));
    CommitIsShown(s.db, req, now);
    Keeps(s, SubmitResult(req, now));
    DoneForever(t, evs, req.result.value.jobId);
    RunKeeps(t, evs);
    ShownWhenDone(Exec(t, evs).db, req.workerId, req.result.value, now);
  }
}
