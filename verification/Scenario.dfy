/** One run of the coordinator through a claim, an eviction, a second claim and a final result: the situations that the
    theorems of Guarantees speak about do occur. */
module Scenario {
  import opened Domain
  import opened Store
  import opened Handlers
  import opened Monitor
  import opened Protocol
  import opened Guarantees

  ghost predicate Reachable(s: Sys) {
    exists evs :: IsRun(Init, evs) && Exec(Init, evs) == s
  }

  lemma Step(s: Sys, ev: Event) returns (t: Sys)
    requires Reachable(s) && Enabled(s, ev)
    ensures t == Apply(s, ev) && Reachable(t)
  {
    var evs :| IsRun(Init, evs) && Exec(Init, evs) == s;
    RunConcat(Init, evs, [ev]);
    RunOne(s, ev);
    t := Apply(s, ev);
  }

  const Spec := JobSpec("image", ["run"], Some(ResourceSpec(1, 1, 0)), map[], 0, "", "")
  const Job := NewJob("j", Spec, 0)
  const Body := ResultBody("", "", "", "", "", 0, [])
  const Success := PbResult("j", StatusSucceeded, 0, Body, 1)

  /** What matters of a state in which one worker is registered and alive. */
  predicate Served(s: Sys, worker: Id, issued: set<Id>) {
    && s.db.workers == {worker} && worker in s.db.records && s.db.alive == {worker}
    && s.issued == issued && s.db.jobs == map["j" := Job]
  }

  lemma Queued() returns (s: Sys)
    ensures Reachable(s) && Served(s, "w", {"w", "j"})
    ensures s.db.queue == ["j"] && s.db.status == map["j" := JobStatus.Queued]
    ensures s.db.holder == map[] && s.evicted == {}
  {
    assert IsRun(Init, []) && Exec(Init, []) == Init;
    s := Step(Init, RegisterWorker("w", None, "", 0));
    s := Step(s, SubmitJob("j", Spec, 0));
  }

  lemma Taken() returns (s: Sys)
    ensures Reachable(s) && s.db.queue == [] && s.db.status == map["j" := Running] && s.db.holder == map["j" := "w"]
    ensures s.db.jobs == map["j" := Job.(status := Running, assignee := "w")]
    ensures s.db.workers == {"w"} && s.db.alive == {"w"} && s.issued == {"w", "j"} && s.evicted == {}
  {
    s := Queued();
    s := Step(s, RequestJob("w"));
  }

  lemma Unreachable() returns (s: Sys)
    ensures Reachable(s) && s.db.queue == [] && s.db.status == map["j" := Running] && s.db.holder == map["j" := "w"]
    ensures s.db.jobs == map["j" := Job.(status := Running, assignee := "w")]
    ensures s.db.workers == {"w"} && s.db.alive == {} && s.issued == {"w", "j"} && s.evicted == {}
  {
    s := Taken();
    s := Step(s, Expire("w"));
  }

  lemma StrandedThere(db: Db)
    requires db.workers == {"w"} && db.alive == {} && db.holder == map["j" := "w"]
    requires db.status == map["j" := Running] && "j" in db.jobs
    ensures DeadWorkers(db) == {"w"} && SweepOf(db, ["j"])
  {
    assert StrandedOn(db, {"w"}) == {"j"};
  }

  /** The sweep evicts the dead worker. */
  lemma PutBackAgain() returns (s: Sys)
    ensures Reachable(s) && s.db.queue == ["j"] && "j" in s.db.jobs && s.db.jobs["j"] == Job
    ensures s.issued == {"w", "j"} && s.evicted == {"w"}
  {
    s := Unreachable();
    StrandedThere(s.db);
    s := Step(s, Sweep(["j"]));
  }

  lemma OtherWorker() returns (s: Sys)
    ensures Reachable(s) && s.db.queue == ["j"] && "j" in s.db.jobs && s.db.jobs["j"] == Job
    ensures "v" in s.db.records && "v" in s.db.alive && s.evicted == {"w"}
  {
    s := PutBackAgain();
    s := Step(s, RegisterWorker("v", None, "", 0));
  }

  lemma TakenAgain() returns (s: Sys)
    ensures Reachable(s) && Get(s.db.status, "j") == Some(Running) && Get(s.db.holder, "j") == Some("v")
    ensures "j" in s.db.jobs && s.evicted == {"w"}
  {
    s := OtherWorker();
    s := Step(s, RequestJob("v"));
  }

  lemma Accepted(db: Db, req: SubmitResultRequest)
    requires req == SubmitResultRequest("v", Some(Success))
    requires Get(db.status, "j") == Some(Running) && Get(db.holder, "j") == Some("v") && "j" in db.jobs
    ensures SubmitVerdict(db, req, 0).Commit?
  {
  }

  /** The hypotheses of DoneForever, EvictedIsFenced, Fencing and ResultReachesClient are met on one and the same
      run. */
  lemma FinishedAfterEviction() returns (s: Sys, req: SubmitResultRequest, t: Sys)
    ensures Reachable(s) && Inv(s) && "w" in s.evicted && SubmitVerdict(s.db, req, 0).Commit?
    ensures t == Apply(s, SubmitResult(req, 0)) && Reachable(t) && Inv(t) && IsDone(t.db, "j") && "w" in t.evicted
  {
    s := TakenAgain();
    req := SubmitResultRequest("v", Some(Success));
    Accepted(s.db, req);
    ReachableInv(s);
    CommitIsShown(s.db, req, 0);
    t := Step(s, SubmitResult(req, 0));
    ReachableInv(t);
  }

  lemma ReachableInv(s: Sys)
    requires Reachable(s)
    ensures Inv(s)
  {
    var evs :| IsRun(Init, evs) && Exec(Init, evs) == s;
    InitInv();
    RunKeeps(Init, evs);
  }
}
