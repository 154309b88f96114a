/** What becomes of a job that is left running on an evicted worker, at the grain of single Redis commands. */
module Orphans {
  import opened Domain
  import opened Store
  import opened Handlers
  import opened Interleaved
  import opened CommandGrain

  /** A process that will leave job `j`, running on the evicted worker, alone. */
  predicate Leaves(p: Proc, j: Id, worker: Id) {
    match p
    case ReqGetJob(_, i) => i != j
    case ReqSave(i, _) => i != j
    case ReqUndo(i) => i != j
    case SubGetJob(w, result, _) => !(w == worker && result.jobId == j)
    case SubGetHolder(w, result, _, _) => !(w == worker && result.jobId == j)
    case SubGetStatus(_, result, _, job) => result.jobId != j && job.id != j
    case SubFinal(_, _, _, job) => job.id != j
    case NewAgain(job) => job.id != j
    case MonAlive(todo) => worker !in todo
    case MonScan(todo, found) => todo != [] && worker !in todo && (j in found ==> found[j] == worker)
    case MonMget(todo, found, _, _) => todo != [] && worker !in todo && (j in found ==> found[j] == worker)
    case MonGetJob(todo, jobs) => worker !in todo && j !in jobs
    case MonGetStatus(todo, jobs, _) => worker !in todo && j !in jobs
    case MonRequeue(todo, jobs, _) => worker !in todo && j !in jobs
    case MonRemove(todo) => worker !in todo
    case _ => true
  }

  predicate RunsOn(db: Db, j: Id, worker: Id) {
    && j in db.jobs && j !in db.queue && worker != ""
    && Get(db.status, j) == Some(Running) && Get(db.holder, j) == Some(worker)
  }

  /** The job runs on a worker that is gone, and nothing in flight is about to do something about it. */
  ghost predicate Orphaned(s: Sys, j: Id, worker: Id) {
    && Gone(s, worker) && RunsOn(s.db, j, worker)
    && forall pid :: pid in s.procs ==> Leaves(s.procs[pid], j, worker)
  }

  /** Nobody takes the worker's id, and the worker does not submit anything about the job. */
  predicate KeepsSilent(m: Move, j: Id, worker: Id) {
    NotReissued(m, worker) && (m.Spawn? && m.p.SubGetJob? ==> !(m.p.worker == worker && m.p.result.jobId == j))
  }

  lemma LeavesJobRunning(db: Db, p: Proc, c: Choice, j: Id, worker: Id)
    requires RunsOn(db, j, worker) && Leaves(p, j, worker) && Possible(db, p, c)
    ensures RunsOn(Written(db, p, c), j, worker)
  {
    if WritesJobs(p) {
      JobWriteLeavesRunning(db, p, c, j, worker);
    } else {
      OthersWriteNoJobs(db, p, c);
    }
  }

  lemma JobWriteLeavesRunning(db: Db, p: Proc, c: Choice, j: Id, worker: Id)
    requires RunsOn(db, j, worker) && Leaves(p, j, worker) && Possible(db, p, c) && WritesJobs(p)
    ensures RunsOn(Written(db, p, c), j, worker)
  {
    if p.ReqClaim? && db.queue != [] { assert db.queue == [db.queue[0]] + db.queue[1..]; }
  }

  lemma RpcLeaves(all: map<Id, JobRecord>, db: Db, p: Proc, c: Choice, j: Id, worker: Id)
    requires RunsOn(db, j, worker) && Leaves(p, j, worker) && CopiesOk(all, p)
    requires OfRequest(p) || OfSubmission(p)
    ensures Leaves(Next(db, p, c), j, worker)
  {
    if db.queue != [] { assert db.queue[0] in db.queue; }
  }

  lemma Tails(todo: seq<Id>, x: Id)
    requires x !in todo
    ensures todo != [] ==> x !in todo[1..]
  {
  }

  lemma MonitorLeaves(db: Db, p: Proc, c: Choice, j: Id, worker: Id)
    requires RunsOn(db, j, worker) && Leaves(p, j, worker) && Possible(db, p, c) && worker !in db.workers
    requires !OfRequest(p) && !OfSubmission(p)
    ensures Leaves(Next(db, p, c), j, worker)
  {
    match p
    case MonAlive(todo) => Tails(todo, worker);
    case MonMget(_, _, _, _) => MgetLeaves(db, p, c, j, worker);
    case MonGetJob(_, jobs) => Tails(jobs, j);
    case MonGetStatus(_, jobs, _) => Tails(jobs, j);
    case MonRequeue(_, jobs, _) => Tails(jobs, j);
    case MonRemove(todo) => Tails(todo, worker);
    case _ =>
  }

  lemma MgetLeaves(db: Db, p: Proc, c: Choice, j: Id, worker: Id)
    requires RunsOn(db, j, worker) && Leaves(p, j, worker) && Possible(db, p, c) && p.MonMget?
    ensures Leaves(Next(db, p, c), j, worker)
  {
    assert p.todo[0] in p.todo;
  }

  lemma ErrorLeaves(p: Proc, j: Id, worker: Id)
    requires Leaves(p, j, worker)
    ensures Leaves(OnError(p), j, worker)
  {
    match p
    case MonAlive(todo) => Tails(todo, worker);
    case MonScan(todo, _) => Tails(todo, worker);
    case MonMget(todo, _, _, _) => Tails(todo, worker);
    case MonGetJob(_, jobs) => Tails(jobs, j);
    case MonGetStatus(_, jobs, _) => Tails(jobs, j);
    case MonRequeue(_, jobs, _) => Tails(jobs, j);
    case MonRemove(todo) => Tails(todo, worker);
    case _ =>
  }

  lemma AgainLeaves(db: Db, p: Proc, c: Choice, j: Id, worker: Id)
    requires j in db.jobs && Leaves(p, j, worker) && Possible(db, p, c)
    ensures Leaves(Again(p, c), j, worker)
  {
  }

  lemma OrphanCommand(s: Sys, pid: nat, c: Choice, j: Id, worker: Id)
    requires Orphaned(s, j, worker) && pid in s.procs && CopiesOk(s.submitted, s.procs[pid])
    requires Possible(s.db, s.procs[pid], c)
    ensures var p := s.procs[pid];
      && RunsOn(Written(s.db, p, c), j, worker)
      && Leaves(Next(s.db, p, c), j, worker) && Leaves(OnError(p), j, worker) && Leaves(Again(p, c), j, worker)
  {
    var p := s.procs[pid];
    LeavesJobRunning(s.db, p, c, j, worker);
    ErrorLeaves(p, j, worker);
    AgainLeaves(s.db, p, c, j, worker);
    if OfRequest(p) || OfSubmission(p) {
      RpcLeaves(s.submitted, s.db, p, c, j, worker);
    } else {
      MonitorLeaves(s.db, p, c, j, worker);
    }
  }

  lemma OrphanStep(s: Sys, m: Move, j: Id, worker: Id)
    requires forall pid :: pid in s.procs ==> CopiesOk(s.submitted, s.procs[pid])
    requires Enabled(s, m) && Orphaned(s, j, worker) && KeepsSilent(m, j, worker)
    ensures RunsOn(Apply(s, m).db, j, worker)
    ensures forall pid :: pid in Apply(s, m).procs ==> Leaves(Apply(s, m).procs[pid], j, worker)
  {
    if Issuer(m).Some? {
      Issued(s, m);
      OrphanCommand(s, Issuer(m).value.0, Issuer(m).value.1, j, worker);
    } else {
      NotIssued(s, m);
    }
  }

  /** An orphan stays one: until the evicted worker itself submits something about the job, no run, however many sweeps
      and other workers' requests it contains, requeues, reassigns or finishes it. */
  lemma {:induction false} OrphanStays(s: Sys, ms: seq<Move>, j: Id, worker: Id)
    requires Inv(s) && IsRun(s, ms) && Orphaned(s, j, worker)
    requires forall i :: 0 <= i < |ms| ==> KeepsSilent(ms[i], j, worker)
    ensures Orphaned(Exec(s, ms), j, worker)
    decreases |ms|
  {
    if ms != [] {
      assert KeepsSilent(ms[0], j, worker);
      OrphanStep(s, ms[0], j, worker);
      GoneStep(s, ms[0], worker);
      Keeps(s, ms[0]);
      OrphanStays(Apply(s, ms[0]), ms[1..], j, worker);
    }
  }
}
