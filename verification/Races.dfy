/** What can happen between single Redis commands: concrete runs in which a job is orphaned, a finished job changes its
    status or its result, an evicted worker returns, and an evicted worker finishes a job. */
module Races {
  import opened Domain
  import opened Store
  import opened Handlers
  import opened Interleaved
  import opened CommandGrain
  import opened Orphans

  ghost predicate Reachable(s: Sys) {
    exists ms :: IsRun(Init, ms) && Exec(Init, ms) == s
  }

  lemma Step(s: Sys, m: Move) returns (t: Sys)
    requires Reachable(s) && Enabled(s, m)
    ensures t == Apply(s, m) && Reachable(t)
  {
    var ms :| IsRun(Init, ms) && Exec(Init, ms) == s;
    ExecSnoc(Init, ms, m);
    t := Apply(s, m);
  }

  const Worker := WorkerRecord("w", None, "", 0, 0)
  const Spec := JobSpec("image", ["run"], Some(ResourceSpec(1, 1, 0)), map[], 0, "", "")
  const Job := NewJob("j", Spec, 0)
  const QueuedDb := Enqueued(Register(EmptyDb, Worker), Job)
  const RunningJob := Job.(status := Running, assignee := "w")
  const Body := ResultBody("", "", "", "", "", 0, [])
  const NoChoice := Choice([], true)

  lemma Start(s: Sys, pid: nat, p: Proc) returns (t: Sys)
    requires Reachable(s) && pid !in s.procs && Initial(p)
    ensures Reachable(t) && t.db == s.db && t.procs == s.procs[pid := p]
  {
    t := Step(s, Spawn(pid, p));
  }

  lemma Advance(s: Sys, pid: nat, c: Choice) returns (t: Sys)
    requires Reachable(s) && pid in s.procs && Possible(s.db, s.procs[pid], c)
    ensures Reachable(t) && t.db == Written(s.db, s.procs[pid], c)
    ensures t.procs == s.procs[pid := Next(s.db, s.procs[pid], c)]
  {
    t := Step(s, Run(pid, c));
  }

  /** One command leads from `s` to `t`. */
  ghost predicate NextCommand(s: Sys, t: Sys) {
    exists pid, c :: Enabled(s, Run(pid, c)) && t == Apply(s, Run(pid, c))
  }

  lemma Registered() returns (s: Sys)
    ensures Reachable(s) && s.db == Register(EmptyDb, Worker) && s.procs == map[0 := Finished]
  {
    assert IsRun(Init, []) && Exec(Init, []) == Init;
    s := Start(Init, 0, RegSave(Worker));
    s := Advance(s, 0, NoChoice);
    s := Advance(s, 0, NoChoice);
  }

  lemma Submitted() returns (s: Sys)
    ensures Reachable(s) && s.db == QueuedDb && s.procs == map[0 := Finished, 1 := Finished]
  {
    s := Registered();
    s := Start(s, 1, NewEnqueue(Spec, 0));
    s := Advance(s, 1, Choice(["j"], true));
  }

  lemma ClaimInFlight() returns (s: Sys)
    ensures Reachable(s) && s.db == QueuedDb && s.procs == map[0 := Finished, 1 := Finished, 2 := ReqClaim("w")]
  {
    s := Submitted();
    s := Start(s, 2, ReqGetWorker("w"));
    s := Advance(s, 2, NoChoice);
    s := Advance(s, 2, NoChoice);
  }

  /** A worker is registered, a job is queued, process 2 is about to claim it for the worker, and process 6 is a
      heartbeat of the worker that has read its record. */
  lemma AboutToClaim() returns (s: Sys)
    ensures Reachable(s) && s.db == QueuedDb
    ensures s.procs == map[0 := Finished, 1 := Finished, 2 := ReqClaim("w"), 6 := BeatAlive("w", Worker)]
  {
    s := ClaimInFlight();
    s := Start(s, 6, BeatGet("w", None, 0));
    s := Advance(s, 6, NoChoice);
  }

  lemma Lapse(s: Sys) returns (t: Sys)
    requires Reachable(s) && s.db.alive == {"w"}
    ensures Reachable(t) && t.db == Expired(s.db, "w") && t.db.alive == {} && t.procs == s.procs
  {
    t := Step(s, Expire("w"));
  }

  lemma ListWorkers(s: Sys) returns (t: Sys)
    requires Reachable(s) && s.db.workers == {"w"} && 3 !in s.procs
    ensures Reachable(t) && t.db == s.db && t.procs == s.procs[3 := MonAlive(["w"])]
  {
    t := Start(s, 3, MonList);
    assert Enumerates(["w"], s.db.workers);
    t := Advance(t, 3, Choice(["w"], true));
  }

  /** The monitor lists the workers and finds "w" dead. */
  lemma FindDead(s: Sys) returns (t: Sys)
    requires Reachable(s) && s.db.workers == {"w"} && s.db.alive == {} && 3 !in s.procs
    ensures Reachable(t) && t.db == s.db && t.procs == s.procs[3 := MonScan(["w"], map[])]
  {
    t := ListWorkers(s);
    t := Advance(t, 3, NoChoice);
  }

  lemma Remove(s: Sys) returns (t: Sys)
    requires Reachable(s) && 3 in s.procs && s.procs[3] == MonRemove(["w"])
    ensures Reachable(t) && t.db == WorkerRemoved(s.db, "w") && t.procs == s.procs[3 := Finished]
  {
    t := Advance(s, 3, NoChoice);
  }

  lemma Scan(s: Sys, page: seq<Id>) returns (t: Sys)
    requires Reachable(s) && 3 in s.procs && s.procs[3] == MonScan(["w"], map[])
    requires forall j :: j in page ==> j in s.db.holder
    ensures Reachable(t) && t.db == s.db && t.procs == s.procs[3 := MonMget(["w"], map[], page, true)]
  {
    t := Advance(s, 3, Choice(page, true));
  }

  lemma PickJobs(s: Sys, page: seq<Id>, mine: seq<Id>) returns (t: Sys)
    requires Reachable(s) && 3 in s.procs && s.procs[3] == MonMget(["w"], map[], page, true)
    requires Enumerates(mine, MineIn(Merge(map[], page, s.db.holder), "w"))
    ensures Reachable(t) && t.db == s.db && t.procs == s.procs[3 := NextJob(["w"], mine)]
  {
    t := Advance(s, 3, Choice(mine, true));
  }

  lemma Mine(holder: map<Id, Id>)
    ensures holder == map[] ==> Enumerates([], MineIn(Merge(map[], [], holder), "w"))
    ensures holder == map["j" := "w"] ==> Enumerates(["j"], MineIn(Merge(map[], ["j"], holder), "w"))
  {
    if holder == map["j" := "w"] { assert MineIn(Merge(map[], ["j"], holder), "w") == {"j"}; }
  }

  lemma NothingFound(s: Sys) returns (t: Sys)
    requires Reachable(s) && s.db.holder == map[] && 3 in s.procs && s.procs[3] == MonScan(["w"], map[])
    ensures Reachable(t) && t.db == s.db && t.procs == s.procs[3 := MonRemove(["w"])]
  {
    t := Scan(s, []);
    Mine(t.db.holder);
    t := PickJobs(t, [], []);
  }

  /** The monitor finds no job of "w" and evicts it. */
  lemma EvictIdle(s: Sys) returns (t: Sys)
    requires Reachable(s) && s.db.holder == map[] && 3 in s.procs && s.procs[3] == MonScan(["w"], map[])
    ensures Reachable(t) && t.db == WorkerRemoved(s.db, "w") && t.procs == s.procs[3 := Finished]
  {
    t := NothingFound(s);
    t := Remove(t);
  }

  const EvictedDb := WorkerRemoved(Expired(QueuedDb, "w"), "w")

  lemma QueuedFacts()
    ensures QueuedDb.workers == {"w"} && QueuedDb.alive == {"w"} && QueuedDb.holder == map[]
    ensures EvictedDb.workers == {} && EvictedDb.alive == {} && EvictedDb.records == map[] && EvictedDb.holder == map[]
    ensures EvictedDb.queue == ["j"] && EvictedDb.jobs == map["j" := Job]
  {
  }

  lemma DeadFound() returns (s: Sys)
    ensures Reachable(s) && s.db == Expired(QueuedDb, "w")
    ensures s.procs ==
      map[0 := Finished, 1 := Finished, 2 := ReqClaim("w"), 3 := MonScan(["w"], map[]), 6 := BeatAlive("w", Worker)]
  {
    QueuedFacts();
    s := AboutToClaim();
    s := Lapse(s);
    s := FindDead(s);
  }

  lemma Evicted() returns (s: Sys)
    ensures Reachable(s) && s.db == EvictedDb
    ensures s.procs ==
      map[0 := Finished, 1 := Finished, 2 := ReqClaim("w"), 3 := Finished, 6 := BeatAlive("w", Worker)]
  {
    QueuedFacts();
    s := DeadFound();
    s := EvictIdle(s);
  }

  /** The worker's key expires and the monitor evicts it before the claim goes through: the job then runs on a worker
      that is not registered. */
  lemma OrphanIsReachable() returns (s: Sys)
    ensures Reachable(s) && s.db == Claimed(EvictedDb, "w")
    ensures s.procs ==
      map[0 := Finished, 1 := Finished, 2 := ReqGetJob("w", "j"), 3 := Finished, 6 := BeatAlive("w", Worker)]
    ensures Get(s.db.status, "j") == Some(Running) && Get(s.db.holder, "j") == Some("w")
    ensures s.db.workers == {} && s.db.queue == []
  {
    QueuedFacts();
    s := Evicted();
    s := Advance(s, 2, NoChoice);
  }

  lemma OrphanRead() returns (s: Sys)
    ensures Reachable(s) && s.db == Claimed(EvictedDb, "w")
    ensures s.procs ==
      map[0 := Finished, 1 := Finished, 2 := ReqSave("j", RunningJob), 3 := Finished, 6 := BeatAlive("w", Worker)]
  {
    QueuedFacts();
    s := OrphanIsReachable();
    s := Advance(s, 2, NoChoice);
  }

  lemma OrphanSaved() returns (s: Sys)
    ensures Reachable(s) && s.db == JobSaved(Claimed(EvictedDb, "w"), RunningJob)
    ensures s.procs == map[0 := Finished, 1 := Finished, 2 := Finished, 3 := Finished, 6 := BeatAlive("w", Worker)]
  {
    s := OrphanRead();
    s := Advance(s, 2, NoChoice);
  }

  lemma OrphanFacts(db: Db)
    requires db == JobSaved(Claimed(EvictedDb, "w"), RunningJob)
    ensures RunsOn(db, "j", "w") && !Known(db, "w") && RecordsKeyed(db)
  {
    QueuedFacts();
  }

  lemma FinishedOnly(s: Sys)
    requires RunsOn(s.db, "j", "w") && !Known(s.db, "w") && RecordsKeyed(s.db)
    requires forall pid :: pid in s.procs ==> s.procs[pid] == Finished
    ensures Orphaned(s, "j", "w")
  {
  }

  /** If its worker is heard of no more, the orphan of OrphanIsReachable is one for good. */
  lemma OrphanForGood() returns (s: Sys)
    ensures Reachable(s) && Orphaned(s, "j", "w")
  {
    s := OrphanSaved();
    OrphanFacts(s.db);
    s := Step(s, Abandon(6));
    FinishedOnly(s);
  }

  /** The rest of a heartbeat that was in flight brings an evicted worker back. */
  lemma EvictedCanReturn() returns (s: Sys, t: Sys)
    ensures Reachable(s) && !Known(s.db, "w")
    ensures Reachable(t) && t.db.workers == {"w"} && "w" in t.db.records && t.db.alive == {"w"}
  {
    QueuedFacts();
    s := Evicted();
    t := Advance(s, 6, NoChoice);
    assert t.procs[6] == BeatSave(Worker);
    t := Advance(t, 6, NoChoice);
  }

  /** The worker holds the job at the moment. */
  predicate Holds(db: Db) {
    "j" in db.jobs && Get(db.status, "j") == Some(Running) && Get(db.holder, "j") == Some("w")
  }

  const HeldDb := JobSaved(Claimed(QueuedDb, "w"), RunningJob)

  lemma HeldFacts()
    ensures Holds(HeldDb) && HeldDb.queue == [] && HeldDb.holder == map["j" := "w"] && HeldDb.results == map[]
    ensures HeldDb.jobs == map["j" := RunningJob] && HeldDb.workers == {"w"} && HeldDb.alive == {"w"}
  {
  }

  lemma Claiming() returns (s: Sys)
    ensures Reachable(s) && s.db == Claimed(QueuedDb, "w")
    ensures 2 in s.procs && s.procs[2] == ReqGetJob("w", "j") && 3 !in s.procs && 4 !in s.procs && 5 !in s.procs
  {
    s := AboutToClaim();
    s := Advance(s, 2, NoChoice);
  }

  /** The worker holds the job and no submission or monitor is under way. */
  lemma HeldByWorker() returns (s: Sys)
    ensures Reachable(s) && s.db == HeldDb && 3 !in s.procs && 4 !in s.procs && 5 !in s.procs
  {
    s := Claiming();
    assert s.db.jobs == map["j" := Job];
    s := Advance(s, 2, NoChoice);
    assert s.procs[2] == ReqSave("j", RunningJob);
    s := Advance(s, 2, NoChoice);
  }

  lemma CheckedJob(s0: Sys, pid: nat, result: PbResult) returns (s: Sys)
    requires Reachable(s0) && pid !in s0.procs && result.jobId == "j" && Holds(s0.db)
    ensures Reachable(s) && s.db == s0.db
    ensures s.procs == s0.procs[pid := SubGetHolder("w", result, 0, s0.db.jobs["j"])]
  {
    s := Start(s0, pid, SubGetJob("w", result, 0));
    s := Advance(s, pid, NoChoice);
  }

  lemma CheckedHolder(s0: Sys, pid: nat, result: PbResult) returns (s: Sys)
    requires Reachable(s0) && pid !in s0.procs && result.jobId == "j" && Holds(s0.db)
    ensures Reachable(s) && s.db == s0.db
    ensures s.procs == s0.procs[pid := SubGetStatus("w", result, 0, s0.db.jobs["j"])]
  {
    s := CheckedJob(s0, pid, result);
    s := Advance(s, pid, NoChoice);
  }

  lemma StatusAllows(db: Db, result: PbResult)
    requires result.jobId == "j" && Holds(db)
    ensures var p := SubGetStatus("w", result, 0, db.jobs["j"]);
      && Written(db, p, NoChoice) == db
      && (result.status == StatusRunning ==> Next(db, p, NoChoice) == SubPartial(ToRecord("w", result, 0)))
      && (result.status == StatusSucceeded || result.status == StatusFailed ==>
            Next(db, p, NoChoice) == SubFinal("w", result, 0, db.jobs["j"]))
  {
  }

  /** One submission has passed every check and is about to finalise. */
  lemma AboutToFinalise(s0: Sys, pid: nat, result: PbResult) returns (s: Sys)
    requires Reachable(s0) && pid !in s0.procs && result.jobId == "j" && Holds(s0.db)
    requires result.status == StatusSucceeded || result.status == StatusFailed
    ensures Reachable(s) && s.db == s0.db
    ensures s.procs == s0.procs[pid := SubFinal("w", result, 0, s0.db.jobs["j"])]
  {
    s := CheckedHolder(s0, pid, result);
    StatusAllows(s0.db, result);
    s := Advance(s, pid, NoChoice);
  }

  /** One partial result has passed every check and is about to be saved. */
  lemma AboutToSave(s0: Sys, pid: nat, result: PbResult) returns (s: Sys)
    requires Reachable(s0) && pid !in s0.procs && result.jobId == "j" && Holds(s0.db) && result.status == StatusRunning
    ensures Reachable(s) && s.db == s0.db
    ensures s.procs == s0.procs[pid := SubPartial(ToRecord("w", result, 0))]
  {
    s := CheckedHolder(s0, pid, result);
    StatusAllows(s0.db, result);
    s := Advance(s, pid, NoChoice);
  }

  /** A submission that is about to finalise does so. */
  lemma Finalise(s: Sys, pid: nat, result: PbResult, job: JobRecord) returns (t: Sys)
    requires Reachable(s) && pid in s.procs && s.procs[pid] == SubFinal("w", result, 0, job)
    ensures Reachable(t) && NextCommand(s, t) && t.procs == s.procs[pid := Finished]
    ensures t.db == Finalized(s.db, job, ToRecord("w", result, 0), TerminalFor(result.status))
  {
    t := Step(s, Run(pid, NoChoice));
    assert Enabled(s, Run(pid, NoChoice));
  }

  const FailedResult := PbResult("j", StatusFailed, 1, Body, 1)

  lemma BothChecked() returns (s: Sys)
    ensures Reachable(s) && s.db == HeldDb
    ensures 4 in s.procs && s.procs[4] == SubFinal("w", FinalResult, 0, RunningJob)
    ensures 5 in s.procs && s.procs[5] == SubFinal("w", FailedResult, 0, RunningJob)
  {
    HeldFacts();
    s := HeldByWorker();
    s := AboutToFinalise(s, 4, FinalResult);
    s := AboutToFinalise(s, 5, FailedResult);
  }

  /** Two overlapping final submissions of the same worker both pass the checks: a completed job turns into a failed
      one. */
  lemma FinalStatusCanFlip() returns (s: Sys, t: Sys)
    ensures Reachable(s) && Reachable(t) && NextCommand(s, t)
    ensures Get(s.db.status, "j") == Some(Completed) && Get(t.db.status, "j") == Some(Failed)
  {
    s := BothChecked();
    s := Finalise(s, 4, FinalResult, RunningJob);
    t := Finalise(s, 5, FailedResult, RunningJob);
  }

  const FinalResult := PbResult("j", StatusSucceeded, 0, Body, 1)
  const PartialResult := PbResult("j", StatusRunning, 7, Body, 1)

  lemma PartialOvertaken() returns (s: Sys)
    ensures Reachable(s) && s.db == Finalized(HeldDb, RunningJob, ToRecord("w", FinalResult, 0), Completed)
    ensures 5 in s.procs && s.procs[5] == SubPartial(ToRecord("w", PartialResult, 0))
  {
    HeldFacts();
    s := HeldByWorker();
    s := AboutToFinalise(s, 4, FinalResult);
    s := AboutToSave(s, 5, PartialResult);
    s := Advance(s, 4, NoChoice);
  }

  lemma ShownPartial(db: Db)
    requires Get(db.status, "j") == Some(Completed) && Get(db.results, "j") == Some(ToRecord("w", PartialResult, 0))
    ensures var shown := JobResultQuery(db, "j");
      shown.Ok? && ClientCompleted(shown.value) && shown.value.result == Some(PartialResult)
  {
    StatusNameRoundTrip(StatusRunning);
  }

  lemma Save(s: Sys, pid: nat, saved: ResultRecord) returns (t: Sys)
    requires Reachable(s) && pid in s.procs && s.procs[pid] == SubPartial(saved)
    ensures Reachable(t) && NextCommand(s, t) && t.db == ResultSaved(s.db, saved)
  {
    t := Step(s, Run(pid, NoChoice));
    assert Enabled(s, Run(pid, NoChoice));
  }

  /** A partial result that is saved after the final one replaces it: the job stays completed for the client, which from
      then on is shown the RUNNING result. */
  lemma FinalResultCanBeOverwritten() returns (s: Sys, t: Sys)
    ensures Reachable(s) && Reachable(t) && NextCommand(s, t)
    ensures Get(s.db.status, "j") == Some(Completed) && Get(t.db.status, "j") == Some(Completed)
    ensures Get(s.db.results, "j") == Some(ToRecord("w", FinalResult, 0))
    ensures Get(t.db.results, "j") == Some(ToRecord("w", PartialResult, 0))
    ensures var shown := JobResultQuery(t.db, "j");
      shown.Ok? && ClientCompleted(shown.value) && shown.value.result == Some(PartialResult)
  {
    s := PartialOvertaken();
    t := Save(s, 5, ToRecord("w", PartialResult, 0));
    ShownPartial(t.db);
  }

  // ----- a submission that overtakes an eviction -----

  const LapsedDb := Expired(HeldDb, "w")

  /** A final submission has passed its checks, the worker's key has expired and the monitor looks for its jobs. */
  lemma SubmissionStuck() returns (s: Sys)
    ensures Reachable(s) && s.db == LapsedDb && 3 in s.procs && s.procs[3] == MonScan(["w"], map[])
    ensures 4 in s.procs && s.procs[4] == SubFinal("w", FinalResult, 0, RunningJob)
  {
    HeldFacts();
    s := HeldByWorker();
    s := AboutToFinalise(s, 4, FinalResult);
    s := Lapse(s);
    s := FindDead(s);
  }

  lemma JobScanned() returns (s: Sys)
    ensures Reachable(s) && s.db == LapsedDb && 3 in s.procs && s.procs[3] == MonMget(["w"], map[], ["j"], true)
    ensures 4 in s.procs && s.procs[4] == SubFinal("w", FinalResult, 0, RunningJob)
  {
    HeldFacts();
    s := SubmissionStuck();
    s := Scan(s, ["j"]);
  }

  lemma JobFound() returns (s: Sys)
    ensures Reachable(s) && s.db == LapsedDb && 3 in s.procs && s.procs[3] == MonGetJob(["w"], ["j"])
    ensures 4 in s.procs && s.procs[4] == SubFinal("w", FinalResult, 0, RunningJob)
  {
    HeldFacts();
    s := JobScanned();
    Mine(s.db.holder);
    s := PickJobs(s, ["j"], ["j"]);
  }

  lemma JobRead() returns (s: Sys)
    ensures Reachable(s) && s.db == LapsedDb && 3 in s.procs && s.procs[3] == MonGetStatus(["w"], ["j"], RunningJob)
    ensures 4 in s.procs && s.procs[4] == SubFinal("w", FinalResult, 0, RunningJob)
  {
    HeldFacts();
    s := JobFound();
    s := Advance(s, 3, NoChoice);
  }

  lemma AboutToRequeue() returns (s: Sys)
    ensures Reachable(s) && s.db == LapsedDb && 3 in s.procs && s.procs[3] == MonRequeue(["w"], ["j"], RunningJob)
    ensures 4 in s.procs && s.procs[4] == SubFinal("w", FinalResult, 0, RunningJob)
  {
    HeldFacts();
    s := JobRead();
    s := Advance(s, 3, NoChoice);
  }

  const OvertakenDb := WorkerRemoved(RequeueWritten(LapsedDb, "j", RunningJob), "w")

  lemma OvertakenFacts()
    ensures var db := OvertakenDb;
      !Known(db, "w") && Get(db.status, "j") == Some(Queued) && "j" !in db.holder && db.queue == ["j"]
    ensures var db := Finalized(OvertakenDb, RunningJob, ToRecord("w", FinalResult, 0), Completed);
      && Get(db.status, "j") == Some(Completed) && Get(db.results, "j") == Some(ToRecord("w", FinalResult, 0))
      && db.queue == ["j"]
  {
    HeldFacts();
  }

  lemma Overtaken() returns (s: Sys)
    ensures Reachable(s) && s.db == OvertakenDb
    ensures 4 in s.procs && s.procs[4] == SubFinal("w", FinalResult, 0, RunningJob)
  {
    s := AboutToRequeue();
    s := Advance(s, 3, NoChoice);
    s := Remove(s);
  }

  /** The monitor requeues the job and evicts its worker; then the worker's submission, checked before that, finishes
      the job, which stays in the queue. */
  lemma EvictedCanFinish() returns (s: Sys, t: Sys)
    ensures Reachable(s) && Reachable(t) && NextCommand(s, t)
    ensures !Known(s.db, "w") && Get(s.db.status, "j") == Some(Queued) && "j" !in s.db.holder && s.db.queue == ["j"]
    ensures Get(t.db.status, "j") == Some(Completed) && Get(t.db.results, "j") == Some(ToRecord("w", FinalResult, 0))
    ensures t.db.queue == ["j"]
  {
    s := Overtaken();
    OvertakenFacts();
    t := Finalise(s, 4, FinalResult, RunningJob);
  }
}
