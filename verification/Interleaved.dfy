/** The coordinator at the grain of single Redis commands: RPCs and the monitor are processes with a program counter
    and local copies of what they read; any command may fail, or be sent again after it took effect, and any process may
    be abandoned, at any point. */
module Interleaved {
  import opened Domain
  import opened Store
  import opened Handlers

  /** A process is named after the Redis command it is about to issue. */
  datatype Proc =
    // RegisterWorker
    | RegSave(record: WorkerRecord)
    | RegAlive(worker: Id)
    // Heartbeat
    | BeatGet(worker: Id, resources: Option<ResourceSpec>, now: int)
    | BeatAlive(worker: Id, record: WorkerRecord)
    | BeatSave(record: WorkerRecord)
    // RequestJob
    | ReqGetWorker(worker: Id)
    | ReqIsAlive(worker: Id)
    | ReqClaim(worker: Id)
    | ReqGetJob(worker: Id, j: Id)
    | ReqSave(j: Id, job: JobRecord)
    | ReqUndo(j: Id)
    // SubmitResult
    | SubGetJob(worker: Id, result: PbResult, now: int)
    | SubGetHolder(worker: Id, result: PbResult, now: int, job: JobRecord)
    | SubGetStatus(worker: Id, result: PbResult, now: int, job: JobRecord)
    | SubPartial(saved: ResultRecord)
    | SubFinal(worker: Id, result: PbResult, now: int, job: JobRecord)
    // SubmitJob
    | NewEnqueue(spec: JobSpec, now: int)
    | NewAgain(job: JobRecord)  // the same EnqueueJob sent again
    // checkWorkers; `todo` starts with the worker under inspection
    | MonList
    | MonAlive(todo: seq<Id>)
    | MonScan(todo: seq<Id>, found: map<Id, Id>)
    | MonMget(todo: seq<Id>, found: map<Id, Id>, page: seq<Id>, last: bool)
    | MonGetJob(todo: seq<Id>, jobs: seq<Id>)
    | MonGetStatus(todo: seq<Id>, jobs: seq<Id>, job: JobRecord)
    | MonRequeue(todo: seq<Id>, jobs: seq<Id>, job: JobRecord)
    | MonRemove(todo: seq<Id>)
    | Finished

  /** What the environment decides in a step: a new UUID, an iteration order or a SCAN page, and whether SCAN is
      done. */
  datatype Choice = Choice(ids: seq<Id>, last: bool)

  function NextWorker(todo: seq<Id>): Proc {
    if |todo| <= 1 then Finished else MonAlive(todo[1..])
  }

  function NextJob(todo: seq<Id>, jobs: seq<Id>): Proc {
    if jobs == [] then MonRemove(todo) else MonGetJob(todo, jobs)
  }

  function MineIn(found: map<Id, Id>, worker: Id): set<Id> {
    set j | j in found && found[j] == worker
  }

  function Merge(found: map<Id, Id>, page: seq<Id>, holder: map<Id, Id>): map<Id, Id> {
    found + map j | j in page && j in holder && holder[j] != "" :: holder[j]
  }

  ghost predicate Possible(db: Db, p: Proc, c: Choice) {
    match p
    case NewEnqueue(_, _) => c.ids != [] && c.ids[0] != "" && c.ids[0] !in db.jobs
    case MonList => Enumerates(c.ids, db.workers)
    case MonScan(_, _) => forall j :: j in c.ids ==> j in db.holder
    case MonMget(todo, found, page, true) =>
      todo != [] ==> Enumerates(c.ids, MineIn(Merge(found, page, db.holder), todo[0]))
    case _ => true
  }

  /** What the command writes. */
  function Written(db: Db, p: Proc, c: Choice): Db {
    match p
    case RegSave(record) => WorkerSaved(db, record)
    case RegAlive(worker) => MarkedAlive(db, worker)
    case BeatAlive(worker, _) => MarkedAlive(db, worker)
    case BeatSave(record) => WorkerSaved(db, record)
    case ReqClaim(worker) => Claimed(db, worker)
    case ReqSave(_, job) => JobSaved(db, job)
    case ReqUndo(j) => RequeuedId(db, j)
    case SubPartial(saved) => ResultSaved(db, saved)
    case SubFinal(worker, result, now, job) =>
      Finalized(db, job, ToRecord(worker, result, now), TerminalFor(result.status))
    case NewEnqueue(spec, now) => if c.ids == [] then db else Enqueued(db, NewJob(c.ids[0], spec, now))
    case NewAgain(job) => Enqueued(db, job)
    case MonRequeue(_, jobs, job) => if jobs == [] then db else RequeueWritten(db, jobs[0], job)
    case MonRemove(todo) => if todo == [] then db else WorkerRemoved(db, todo[0])
    case _ => db
  }

  /** Where the process goes when the command succeeds, given what it reads. */
  function Next(db: Db, p: Proc, c: Choice): Proc {
    match p
    case RegSave(record) => RegAlive(record.id)
    case BeatGet(worker, resources, now) =>
      if worker in db.records
      then BeatAlive(worker, db.records[worker].(resources := resources, lastHeartbeat := now)) else Finished
    case BeatAlive(_, record) => BeatSave(record)
    case ReqGetWorker(worker) => if worker in db.records then ReqIsAlive(worker) else Finished
    case ReqIsAlive(worker) => if worker in db.alive then ReqClaim(worker) else Finished
    case ReqClaim(worker) => if NextQueued(db) == "" then Finished else ReqGetJob(worker, NextQueued(db))
    case ReqGetJob(worker, j) =>
      if j in db.jobs then ReqSave(j, db.jobs[j].(status := Running, assignee := worker)) else ReqUndo(j)
    case SubGetJob(worker, result, now) =>
      if result.jobId in db.jobs then SubGetHolder(worker, result, now, db.jobs[result.jobId]) else Finished
    case SubGetHolder(worker, result, now, job) =>
      if JudgeAssignment(worker, job, GetString(db.holder, result.jobId)).Some? then Finished
      else SubGetStatus(worker, result, now, job)
    case SubGetStatus(worker, result, now, job) =>
      (match JudgeStatus(worker, result, Get(db.status, result.jobId), now)
       case StorePartial(r) => SubPartial(r)
       case Commit(_, _) => SubFinal(worker, result, now, job)
       case _ => Finished)
    case MonList => if c.ids == [] then Finished else MonAlive(c.ids)
    case MonAlive(todo) => if todo == [] || todo[0] in db.alive then NextWorker(todo) else MonScan(todo, map[])
    case MonScan(todo, found) => MonMget(todo, found, c.ids, c.last)
    case MonMget(todo, found, page, last) =>
      if last then NextJob(todo, c.ids) else MonScan(todo, Merge(found, page, db.holder))
    case MonGetJob(todo, jobs) =>
      if jobs == [] then MonRemove(todo)
      else if jobs[0] in db.jobs then MonGetStatus(todo, jobs, db.jobs[jobs[0]]) else NextJob(todo, jobs[1..])
    case MonGetStatus(todo, jobs, job) =>
      if jobs == [] then MonRemove(todo)
      else if Get(db.status, jobs[0]) == Some(Running) then MonRequeue(todo, jobs, job) else NextJob(todo, jobs[1..])
    case MonRequeue(todo, jobs, _) => if jobs == [] then MonRemove(todo) else NextJob(todo, jobs[1..])
    case MonRemove(todo) => NextWorker(todo)
    case _ => Finished
  }

  /** Where the process goes when the command reports an error. */
  function OnError(p: Proc): Proc {
    match p
    case ReqSave(j, _) => ReqUndo(j)
    case MonAlive(todo) => NextWorker(todo)
    case MonScan(todo, _) => NextWorker(todo)
    case MonMget(todo, _, _, _) => NextWorker(todo)
    case MonGetJob(todo, jobs) => if jobs == [] then MonRemove(todo) else NextJob(todo, jobs[1..])
    case MonGetStatus(todo, jobs, _) => if jobs == [] then MonRemove(todo) else NextJob(todo, jobs[1..])
    case MonRequeue(todo, jobs, _) => if jobs == [] then MonRemove(todo) else NextJob(todo, jobs[1..])
    case MonRemove(todo) => NextWorker(todo)
    case _ => Finished
  }

  /** Where the process is when the client library is about to send the same command again. */
  function Again(p: Proc, c: Choice): Proc {
    if p.NewEnqueue? then (if c.ids == [] then Finished else NewAgain(NewJob(c.ids[0], p.spec, p.now))) else p
  }

  /** The ids a command appends to `job_queue`. */
  function Pushes(p: Proc, c: Choice): seq<Id> {
    match p
    case NewEnqueue(_, _) => if c.ids == [] then [] else [c.ids[0]]
    case NewAgain(job) => [job.id]
    case ReqUndo(j) => [j]
    case MonRequeue(_, jobs, _) => if jobs == [] then [] else [jobs[0]]
    case _ => []
  }

  /** The ids a command takes from the front of `job_queue`. */
  function Pops(db: Db, p: Proc): seq<Id> {
    if p.ReqClaim? && db.queue != [] then [db.queue[0]] else []
  }

  /** The job record a command submits. */
  function Submits(p: Proc, c: Choice): map<Id, JobRecord> {
    if p.NewEnqueue? && c.ids != [] then map[c.ids[0] := NewJob(c.ids[0], p.spec, p.now)] else map[]
  }

  predicate Initial(p: Proc) {
    match p
    case RegSave(_) => true
    case BeatGet(worker, _, _) => worker != ""
    case ReqGetWorker(worker) => worker != ""
    case SubGetJob(worker, result, _) => worker != "" && result.jobId != ""
    case NewEnqueue(spec, _) => Acceptable(spec)
    case MonList => true
    case _ => false
  }

  datatype Sys = Sys(
    db: Db,
    procs: map<nat, Proc>,
    submitted: map<Id, JobRecord>,  // the records that SubmitJob put into Redis
    pushed: seq<Id>,                // every RPUSH so far
    popped: seq<Id>,                // every LPOP so far
    requeued: multiset<Id>)         // RPUSHes other than the first one of a job: requeues and repeated EnqueueJobs

  const Init := Sys(EmptyDb, map[], map[], [], [], multiset{})

  datatype Move =
    | Spawn(pid: nat, p: Proc)
    | Run(pid: nat, c: Choice)
    | Fail(pid: nat, applied: bool, c: Choice)  // the reply is an error; the write may still have happened
    | Resend(pid: nat, c: Choice)               // the write happens, its reply is lost, the client library tries again
    | Abandon(pid: nat)
    | Expire(worker: Id)

  ghost predicate Enabled(s: Sys, m: Move) {
    match m
    case Spawn(pid, p) => pid !in s.procs && Initial(p)
    case Run(pid, c) => pid in s.procs && Possible(s.db, s.procs[pid], c)
    case Fail(pid, _, c) => pid in s.procs && Possible(s.db, s.procs[pid], c)
    case Resend(pid, c) => pid in s.procs && Possible(s.db, s.procs[pid], c)
    case Abandon(pid) => pid in s.procs
    case Expire(_) => true
  }

  /** The command of process `p` takes effect. */
  function Effect(s: Sys, p: Proc, c: Choice): Sys {
    s.(db := Written(s.db, p, c), pushed := s.pushed + Pushes(p, c), popped := s.popped + Pops(s.db, p),
       submitted := s.submitted + Submits(p, c),
       requeued := if p.NewEnqueue? then s.requeued else s.requeued + multiset(Pushes(p, c)))
  }

  function Apply(s: Sys, m: Move): Sys {
    match m
    case Spawn(pid, p) => s.(procs := s.procs[pid := p])
    case Run(pid, c) =>
      if pid !in s.procs then s
      else Effect(s, s.procs[pid], c).(procs := s.procs[pid := Next(s.db, s.procs[pid], c)])
    case Fail(pid, applied, c) =>
      if pid !in s.procs then s
      else (if applied then Effect(s, s.procs[pid], c) else s).(procs := s.procs[pid := OnError(s.procs[pid])])
    case Resend(pid, c) =>
      if pid !in s.procs then s
      else Effect(s, s.procs[pid], c).(procs := s.procs[pid := Again(s.procs[pid], c)])
    case Abandon(pid) => s.(procs := s.procs - {pid})
    case Expire(worker) => s.(db := Expired(s.db, worker))
  }

  ghost predicate IsRun(s: Sys, ms: seq<Move>)
    decreases |ms|
  {
    ms == [] || (Enabled(s, ms[0]) && IsRun(Apply(s, ms[0]), ms[1..]))
  }

  function Exec(s: Sys, ms: seq<Move>): Sys
    decreases |ms|
  {
    if ms == [] then s else Exec(Apply(s, ms[0]), ms[1..])
  }

  // ----- the invariant -----

  /** The status key always tells where to find the job. */
  predicate Located(db: Db, j: Id) {
    j in db.status && match db.status[j]
      case Queued => j in db.queue
      case Running => j in db.holder
      case _ => j in db.results
  }

  /** Two records of the same job: they may differ in status and assignee only. */
  predicate SameData(a: JobRecord, b: JobRecord) {
    a.(status := Queued, assignee := "") == b.(status := Queued, assignee := "")
  }

  predicate CopyOf(all: map<Id, JobRecord>, j: Id, job: JobRecord) {
    j in all && job.id == j && SameData(job, all[j])
  }

  /** The local copies of a process are copies of submitted jobs, under their own key. */
  predicate CopiesOk(all: map<Id, JobRecord>, p: Proc) {
    match p
    case ReqGetJob(_, j) => j in all
    case ReqSave(j, job) => CopyOf(all, j, job)
    case ReqUndo(j) => j in all
    case SubGetJob(worker, _, _) => worker != ""
    case SubGetHolder(worker, result, _, job) => worker != "" && CopyOf(all, result.jobId, job)
    case SubGetStatus(worker, result, _, job) => worker != "" && CopyOf(all, result.jobId, job)
    case SubFinal(worker, result, _, job) =>
      && worker != "" && CopyOf(all, result.jobId, job)
      && (result.status == StatusSucceeded || result.status == StatusFailed)
    case NewAgain(job) => CopyOf(all, job.id, job)
    case MonGetStatus(_, jobs, job) => jobs != [] && CopyOf(all, jobs[0], job)
    case MonRequeue(_, jobs, job) => jobs != [] && CopyOf(all, jobs[0], job)
    case _ => true
  }

  /** A submitted job has its record and a location; nothing else is in Redis. */
  predicate JobOk(db: Db, all: map<Id, JobRecord>, j: Id) {
    && (j in db.jobs <==> j in all) && (j in db.status <==> j in all) && (j in db.queue ==> j in all)
    && (j in all ==> j != "" && CopyOf(all, j, db.jobs[j]) && Located(db, j))
  }

  ghost predicate JobsOk(db: Db, all: map<Id, JobRecord>) {
    forall j {:trigger JobOk(db, all, j)} :: JobOk(db, all, j)
  }

  ghost predicate CountsOk(pushed: multiset<Id>, ids: set<Id>, requeued: multiset<Id>) {
    forall j :: pushed[j] == (if j in ids then 1 else 0) + requeued[j]
  }

  ghost predicate LedgerOk(s: Sys) {
    s.popped + s.db.queue == s.pushed && CountsOk(multiset(s.pushed), s.submitted.Keys, s.requeued)
  }

  ghost predicate Inv(s: Sys) {
    && JobsOk(s.db, s.submitted) && LedgerOk(s)
    && forall pid :: pid in s.procs ==> CopiesOk(s.submitted, s.procs[pid])
  }

  lemma ClaimKeepsJobs(db: Db, all: map<Id, JobRecord>, worker: Id)
    requires JobsOk(db, all)
    ensures JobsOk(Claimed(db, worker), all)
  {
    if db.queue != [] {
      assert db.queue == [db.queue[0]] + db.queue[1..];
      forall j ensures JobOk(Claimed(db, worker), all, j) { assert JobOk(db, all, j); }
    }
  }

  lemma RequeueKeepsJobs(db: Db, all: map<Id, JobRecord>, i: Id)
    requires JobsOk(db, all) && i in all
    ensures JobsOk(RequeuedId(db, i), all)
  {
    forall j ensures JobOk(RequeuedId(db, i), all, j) { assert JobOk(db, all, j); }
  }

  lemma SaveKeepsJobs(db: Db, all: map<Id, JobRecord>, job: JobRecord)
    requires JobsOk(db, all) && CopyOf(all, job.id, job)
    ensures JobsOk(JobSaved(db, job), all)
  {
    forall j ensures JobOk(JobSaved(db, job), all, j) { assert JobOk(db, all, j); }
  }

  lemma FinalKeepsJobs(db: Db, all: map<Id, JobRecord>, job: JobRecord, r: ResultRecord, terminal: JobStatus)
    requires JobsOk(db, all) && CopyOf(all, job.id, job) && terminal.Terminal()
    ensures JobsOk(Finalized(db, job, r, terminal), all)
  {
    forall j ensures JobOk(Finalized(db, job, r, terminal), all, j) { assert JobOk(db, all, j); }
  }

  lemma EnqueueKeepsJobs(db: Db, all: map<Id, JobRecord>, job: JobRecord)
    requires JobsOk(db, all) && job.id != "" && job.id !in all
    ensures JobsOk(Enqueued(db, job), all + map[job.id := job])
  {
    forall j ensures JobOk(Enqueued(db, job), all + map[job.id := job], j) { assert JobOk(db, all, j); }
  }

  lemma EnqueueAgainKeepsJobs(db: Db, all: map<Id, JobRecord>, job: JobRecord)
    requires JobsOk(db, all) && CopyOf(all, job.id, job)
    ensures JobsOk(Enqueued(db, job), all)
  {
    forall j ensures JobOk(Enqueued(db, job), all, j) { assert JobOk(db, all, j); }
  }

  lemma MonitorKeepsJobs(db: Db, all: map<Id, JobRecord>, j: Id, job: JobRecord)
    requires JobsOk(db, all) && CopyOf(all, j, job)
    ensures JobsOk(RequeueWritten(db, j, job), all)
  {
    RequeueKeepsJobs(db, all, j);
    SaveKeepsJobs(RequeuedId(db, j), all, job.(status := Queued, assignee := ""));
  }

  lemma OthersKeepJobs(db: Db, t: Db, all: map<Id, JobRecord>)
    requires JobsOk(db, all)
    requires t.queue == db.queue && t.status == db.status && t.holder == db.holder && t.jobs == db.jobs
    requires forall j :: j in db.results ==> j in t.results
    ensures JobsOk(t, all)
  {
    forall j ensures JobOk(t, all, j) { assert JobOk(db, all, j); }
  }

  lemma KeysAgree(db: Db, all: map<Id, JobRecord>)
    requires JobsOk(db, all)
    ensures db.jobs.Keys == all.Keys
  {
    forall j ensures j in db.jobs <==> j in all { assert JobOk(db, all, j); }
  }

  /** The commands that touch the queue, a status, an assignment or a job record. */
  predicate WritesJobs(p: Proc) {
    p.ReqClaim? || p.ReqUndo? || p.ReqSave? || p.SubFinal? || p.NewEnqueue? || p.NewAgain? || p.MonRequeue?
  }

  lemma OthersWriteNoJobs(db: Db, p: Proc, c: Choice)
    requires !WritesJobs(p)
    ensures var t := Written(db, p, c);
      && t.queue == db.queue && t.status == db.status && t.holder == db.holder && t.jobs == db.jobs
      && (forall j :: j in db.results ==> j in t.results)
    ensures Submits(p, c) == map[]
  {
  }

  lemma WritesKeepJobs(db: Db, all: map<Id, JobRecord>, p: Proc, c: Choice)
    requires JobsOk(db, all) && CopiesOk(all, p) && WritesJobs(p) && !p.NewEnqueue?
    ensures JobsOk(Written(db, p, c), all)
  {
    match p
    case ReqClaim(worker) => ClaimKeepsJobs(db, all, worker);
    case ReqUndo(j) => RequeueKeepsJobs(db, all, j);
    case ReqSave(_, job) => SaveKeepsJobs(db, all, job);
    case SubFinal(worker, result, now, job) =>
      FinalKeepsJobs(db, all, job, ToRecord(worker, result, now), TerminalFor(result.status));
    case NewAgain(job) => EnqueueAgainKeepsJobs(db, all, job);
    case MonRequeue(_, jobs, job) => MonitorKeepsJobs(db, all, jobs[0], job);
  }

  lemma CommitKeepsJobs(db: Db, all: map<Id, JobRecord>, p: Proc, c: Choice)
    requires JobsOk(db, all) && CopiesOk(all, p) && Possible(db, p, c)
    ensures JobsOk(Written(db, p, c), all + Submits(p, c))
  {
    if p.NewEnqueue? {
      assert JobOk(db, all, c.ids[0]);
      EnqueueKeepsJobs(db, all, NewJob(c.ids[0], p.spec, p.now));
    } else {
      assert all + Submits(p, c) == all;
      if WritesJobs(p) {
        WritesKeepJobs(db, all, p, c);
      } else {
        OthersWriteNoJobs(db, p, c);
        OthersKeepJobs(db, Written(db, p, c), all);
      }
    }
  }

  lemma HeadIsKnown(db: Db, all: map<Id, JobRecord>)
    requires JobsOk(db, all)
    ensures NextQueued(db) != "" ==> NextQueued(db) in all
  {
    if db.queue != [] {
      assert db.queue[0] in db.queue;
      assert JobOk(db, all, db.queue[0]);
    }
  }

  ghost predicate ReadsCopies(db: Db, all: map<Id, JobRecord>) {
    && (NextQueued(db) != "" ==> NextQueued(db) in all)
    && forall j :: j in db.jobs ==> CopyOf(all, j, db.jobs[j])
  }

  predicate OfRequest(p: Proc) {
    p.ReqGetWorker? || p.ReqIsAlive? || p.ReqClaim? || p.ReqGetJob? || p.ReqSave? || p.ReqUndo?
  }

  predicate OfSubmission(p: Proc) {
    p.SubGetJob? || p.SubGetHolder? || p.SubGetStatus? || p.SubPartial? || p.SubFinal?
  }

  lemma NextRequestKeepsCopies(db: Db, all: map<Id, JobRecord>, p: Proc, c: Choice)
    requires ReadsCopies(db, all) && CopiesOk(all, p) && OfRequest(p) && (p.ReqGetJob? ==> p.j in db.jobs)
    ensures CopiesOk(all, Next(db, p, c))
  {
  }

  lemma NextSubmissionKeepsCopies(db: Db, all: map<Id, JobRecord>, p: Proc, c: Choice)
    requires ReadsCopies(db, all) && CopiesOk(all, p) && OfSubmission(p)
    ensures CopiesOk(all, Next(db, p, c))
  {
  }

  lemma NextRestKeepsCopies(db: Db, all: map<Id, JobRecord>, p: Proc, c: Choice)
    requires ReadsCopies(db, all) && CopiesOk(all, p) && !OfRequest(p) && !OfSubmission(p)
    ensures CopiesOk(all, Next(db, p, c))
  {
  }

  lemma NextKeepsCopies(db: Db, all: map<Id, JobRecord>, p: Proc, c: Choice)
    requires ReadsCopies(db, all) && CopiesOk(all, p) && (p.ReqGetJob? ==> p.j in db.jobs)
    ensures CopiesOk(all, Next(db, p, c))
  {
    if OfRequest(p) {
      NextRequestKeepsCopies(db, all, p, c);
    } else if OfSubmission(p) {
      NextSubmissionKeepsCopies(db, all, p, c);
    } else {
      NextRestKeepsCopies(db, all, p, c);
    }
  }

  lemma ReadsAreCopies(db: Db, all: map<Id, JobRecord>, p: Proc, c: Choice)
    requires JobsOk(db, all) && CopiesOk(all, p)
    ensures CopiesOk(all, Next(db, p, c))
  {
    HeadIsKnown(db, all);
    KeysAgree(db, all);
    forall j | j in db.jobs ensures CopyOf(all, j, db.jobs[j]) { assert JobOk(db, all, j); }
    NextKeepsCopies(db, all, p, c);
  }

  lemma ErrorKeepsCopies(all: map<Id, JobRecord>, p: Proc)
    requires CopiesOk(all, p)
    ensures CopiesOk(all, OnError(p))
  {
  }

  lemma CopiesMonotone(all: map<Id, JobRecord>, more: map<Id, JobRecord>, p: Proc)
    requires CopiesOk(all, p) && (forall j :: j in all ==> j in more && more[j] == all[j])
    ensures CopiesOk(more, p)
  {
  }

  lemma QueueMoves(db: Db, p: Proc, c: Choice)
    ensures Pops(db, p) + Written(db, p, c).queue == db.queue + Pushes(p, c)
  {
    if p.ReqClaim? && db.queue != [] { assert db.queue == [db.queue[0]] + db.queue[1..]; }
  }

  lemma LedgerOrder(popped: seq<Id>, queue: seq<Id>, pushed: seq<Id>, pops: seq<Id>, queue': seq<Id>, pushes: seq<Id>)
    requires popped + queue == pushed && pops + queue' == queue + pushes
    ensures (popped + pops) + queue' == pushed + pushes
  {
    assert (popped + pops) + queue' == popped + (pops + queue');
    assert popped + (queue + pushes) == (popped + queue) + pushes;
  }

  lemma CountsOfPush(pushed: multiset<Id>, ids: set<Id>, requeued: multiset<Id>, j: Id)
    requires CountsOk(pushed, ids, requeued)
    ensures j !in ids ==> CountsOk(pushed + multiset{j}, ids + {j}, requeued)
    ensures CountsOk(pushed + multiset{j}, ids, requeued + multiset{j})
  {
  }

  lemma PushCases(p: Proc, c: Choice)
    ensures |Pushes(p, c)| <= 1
    ensures p.NewEnqueue? && Pushes(p, c) != [] ==> Submits(p, c).Keys == {Pushes(p, c)[0]}
    ensures !(p.NewEnqueue? && Pushes(p, c) != []) ==> Submits(p, c) == map[]
  {
  }

  lemma EffectKeepsCounts(s: Sys, p: Proc, c: Choice)
    requires CountsOk(multiset(s.pushed), s.submitted.Keys, s.requeued)
    requires p.NewEnqueue? && c.ids != [] ==> c.ids[0] !in s.submitted
    ensures var t := Effect(s, p, c); CountsOk(multiset(t.pushed), t.submitted.Keys, t.requeued)
  {
    var t, pushes := Effect(s, p, c), Pushes(p, c);
    PushCases(p, c);
    assert t.submitted.Keys == s.submitted.Keys + Submits(p, c).Keys;
    if pushes == [] {
      assert t.pushed == s.pushed;
    } else {
      assert pushes == [pushes[0]];
      assert multiset(t.pushed) == multiset(s.pushed) + multiset{pushes[0]};
      CountsOfPush(multiset(s.pushed), s.submitted.Keys, s.requeued, pushes[0]);
    }
  }

  lemma EffectKeepsLedger(s: Sys, p: Proc, c: Choice)
    requires LedgerOk(s) && s.db.jobs.Keys == s.submitted.Keys && Possible(s.db, p, c)
    ensures LedgerOk(Effect(s, p, c))
  {
    QueueMoves(s.db, p, c);
    LedgerOrder(s.popped, s.db.queue, s.pushed, Pops(s.db, p), Effect(s, p, c).db.queue, Pushes(p, c));
    EffectKeepsCounts(s, p, c);
  }

  lemma EffectKeeps(s: Sys, p: Proc, c: Choice)
    requires Inv(s) && CopiesOk(s.submitted, p) && Possible(s.db, p, c)
    ensures Inv(Effect(s, p, c))
    ensures forall j :: j in s.submitted ==>
      j in Effect(s, p, c).submitted && Effect(s, p, c).submitted[j] == s.submitted[j]
  {
    CommitKeepsJobs(s.db, s.submitted, p, c);
    KeysAgree(s.db, s.submitted);
    EffectKeepsLedger(s, p, c);
    var t := Effect(s, p, c);
    forall pid | pid in s.procs ensures CopiesOk(t.submitted, s.procs[pid]) {
      CopiesMonotone(s.submitted, t.submitted, s.procs[pid]);
    }
  }

  lemma KeepsMoveOn(s: Sys, pid: nat, q: Proc)
    requires Inv(s) && CopiesOk(s.submitted, q)
    ensures Inv(s.(procs := s.procs[pid := q]))
  {
  }

  lemma RunStepKeeps(s: Sys, pid: nat, c: Choice)
    requires Inv(s) && pid in s.procs && Possible(s.db, s.procs[pid], c)
    ensures Inv(Apply(s, Run(pid, c)))
  {
    var p := s.procs[pid];
    ReadsAreCopies(s.db, s.submitted, p, c);
    EffectKeeps(s, p, c);
    CopiesMonotone(s.submitted, Effect(s, p, c).submitted, Next(s.db, p, c));
    KeepsMoveOn(Effect(s, p, c), pid, Next(s.db, p, c));
  }

  lemma FailStepKeeps(s: Sys, pid: nat, applied: bool, c: Choice)
    requires Inv(s) && pid in s.procs && Possible(s.db, s.procs[pid], c)
    ensures Inv(Apply(s, Move.Fail(pid, applied, c)))
  {
    var p := s.procs[pid];
    ErrorKeepsCopies(s.submitted, p);
    EffectKeeps(s, p, c);
    CopiesMonotone(s.submitted, Effect(s, p, c).submitted, OnError(p));
    KeepsMoveOn(if applied then Effect(s, p, c) else s, pid, OnError(p));
  }

  lemma AgainKeepsCopies(all: map<Id, JobRecord>, p: Proc, c: Choice)
    requires CopiesOk(all, p)
    ensures CopiesOk(all + Submits(p, c), Again(p, c))
  {
    if !p.NewEnqueue? { assert all + Submits(p, c) == all; }
  }

  lemma ResendStepKeeps(s: Sys, pid: nat, c: Choice)
    requires Inv(s) && pid in s.procs && Possible(s.db, s.procs[pid], c)
    ensures Inv(Apply(s, Resend(pid, c)))
  {
    var p := s.procs[pid];
    EffectKeeps(s, p, c);
    AgainKeepsCopies(s.submitted, p, c);
    KeepsMoveOn(Effect(s, p, c), pid, Again(p, c));
  }

  lemma Keeps(s: Sys, m: Move)
    requires Inv(s) && Enabled(s, m)
    ensures Inv(Apply(s, m))
  {
    match m
    case Spawn(_, _) =>
    case Run(pid, c) => RunStepKeeps(s, pid, c);
    case Fail(pid, applied, c) => FailStepKeeps(s, pid, applied, c);
    case Resend(pid, c) => ResendStepKeeps(s, pid, c);
    case Abandon(_) =>
    case Expire(w) => OthersKeepJobs(s.db, Expired(s.db, w), s.submitted);
  }

  lemma {:induction false} RunKeeps(s: Sys, ms: seq<Move>)
    requires Inv(s) && IsRun(s, ms)
    ensures Inv(Exec(s, ms))
    decreases |ms|
  {
    if ms != [] {
      Keeps(s, ms[0]);
      RunKeeps(Apply(s, ms[0]), ms[1..]);
    }
  }

  // ----- main results at this grain -----

  /** No job is ever lost or altered: whatever is interleaved, fails or is abandoned, a submitted job is in the queue,
      assigned, or finished with a stored result; its status key says which; and its record still holds what the client
      submitted. */
  lemma NoJobLost(ms: seq<Move>, j: Id)
    requires IsRun(Init, ms) && j in Exec(Init, ms).submitted
    ensures var s := Exec(Init, ms);
      && j in s.db.jobs && s.db.jobs[j].id == j && SameData(s.db.jobs[j], s.submitted[j])
      && Located(s.db, j)
      && (j in s.db.queue || j in s.db.holder || (s.db.status[j].Terminal() && j in s.db.results))
  {
    RunKeeps(Init, ms);
    assert JobOk(Exec(Init, ms).db, Exec(Init, ms).submitted, j);
  }

  /** The defensive branch of RequestJob for a claimed id without a record is dead: a claimed id always has one. */
  lemma ClaimedJobHasRecord(ms: seq<Move>, pid: nat)
    requires IsRun(Init, ms)
    requires var s := Exec(Init, ms); pid in s.procs && s.procs[pid].ReqGetJob?
    ensures var s := Exec(Init, ms); s.procs[pid].j in s.db.jobs
  {
    RunKeeps(Init, ms);
    var s := Exec(Init, ms);
    assert CopiesOk(s.submitted, s.procs[pid]);
    KeysAgree(s.db, s.submitted);
  }

  /** Claims take ids in exactly the order in which they were pushed. */
  lemma ClaimsAreFifo(ms: seq<Move>)
    requires IsRun(Init, ms)
    ensures var s := Exec(Init, ms);
      && s.popped + s.db.queue == s.pushed
      && (forall k :: 0 <= k < |s.popped| ==> s.popped[k] == s.pushed[k])
  {
    RunKeeps(Init, ms);
    var s := Exec(Init, ms);
    assert forall k :: 0 <= k < |s.popped| ==> (s.popped + s.db.queue)[k] == s.popped[k];
  }

  /** Each job was claimed once for its submission and once per requeue (or repeated submission command), less the
      entries still waiting. */
  lemma ClaimCount(ms: seq<Move>, j: Id)
    requires IsRun(Init, ms)
    ensures var s := Exec(Init, ms);
      multiset(s.popped)[j] + multiset(s.db.queue)[j] == (if j in s.submitted then 1 else 0) + s.requeued[j]
  {
    RunKeeps(Init, ms);
    var s := Exec(Init, ms);
    assert multiset(s.popped + s.db.queue) == multiset(s.popped) + multiset(s.db.queue);
  }

  /** RequeueRunningJob reads and then writes: the write is what one atomic requeue would do at that moment if and only
      if the job is still running then. The stale record it writes back does no harm. */
  lemma RequeueAtomicIff(ms: seq<Move>, pid: nat, c: Choice)
    requires IsRun(Init, ms)
    requires var s := Exec(Init, ms); pid in s.procs && s.procs[pid].MonRequeue?
    ensures var s := Exec(Init, ms);
      var p := s.procs[pid];
      p.jobs != [] &&
      (Written(s.db, p, c) == RequeuedRunning(s.db, p.jobs[0]) <==> Get(s.db.status, p.jobs[0]) == Some(Running))
  {
    RunKeeps(Init, ms);
    StaleRecordIsHarmless(Exec(Init, ms).db, Exec(Init, ms).submitted, Exec(Init, ms).procs[pid], c);
  }

  lemma StaleRecordIsHarmless(db: Db, all: map<Id, JobRecord>, p: Proc, c: Choice)
    requires JobsOk(db, all) && CopiesOk(all, p) && p.MonRequeue?
    ensures p.jobs != [] && (Written(db, p, c) == RequeuedRunning(db, p.jobs[0]) <==>
                             Get(db.status, p.jobs[0]) == Some(Running))
  {
    var j := p.jobs[0];
    assert JobOk(db, all, j);
    assert RequeueWritten(db, j, p.job) == RequeueWritten(db, j, db.jobs[j]);
    assert |RequeueWritten(db, j, p.job).queue| == |db.queue| + 1;
  }

  /** SubmitResult reads three keys and then writes: if its guard would still pass when it writes, the write is the one
      that the uninterrupted handler would make; if not, the uninterrupted handler would write nothing. */
  lemma FinaliseAtomicWhen(ms: seq<Move>, pid: nat, c: Choice)
    requires IsRun(Init, ms)
    requires var s := Exec(Init, ms); pid in s.procs && s.procs[pid].SubFinal?
    ensures var s := Exec(Init, ms);
      var p := s.procs[pid];
      var req := SubmitResultRequest(p.worker, Some(p.result));
      SubmitOutcome(s.db, req, p.now).0 == if SubmitVerdict(s.db, req, p.now).Commit? then Written(s.db, p, c) else s.db
  {
    RunKeeps(Init, ms);
    var s := Exec(Init, ms);
    FinaliseFresh(s.db, s.submitted, s.procs[pid], c);
  }

  lemma FinaliseFresh(db: Db, all: map<Id, JobRecord>, p: Proc, c: Choice)
    requires JobsOk(db, all) && p.SubFinal? && CopiesOk(all, p)
    ensures var req := SubmitResultRequest(p.worker, Some(p.result));
      SubmitOutcome(db, req, p.now).0 == if SubmitVerdict(db, req, p.now).Commit? then Written(db, p, c) else db
  {
    assert JobOk(db, all, p.result.jobId);
  }

  // ----- a process that is left alone does what its handler does -----

  /** `n` steps of one process without interference; RPC processes use the choice only for a UUID. */
  function Alone(db: Db, p: Proc, c: Choice, n: nat): (Db, Proc)
    decreases n
  {
    if n == 0 then (db, p) else Alone(Written(db, p, c), Next(db, p, c), c, n - 1)
  }

  lemma RegisterAlone(db: Db, w: WorkerRecord, c: Choice)
    ensures Alone(db, RegSave(w), c, 2) == (Register(db, w), Finished)
  {
    assert Alone(db, RegSave(w), c, 2) == Alone(WorkerSaved(db, w), RegAlive(w.id), c, 1);
  }

  lemma HeartbeatAlone(db: Db, worker: Id, resources: Option<ResourceSpec>, now: int, c: Choice)
    requires worker != ""
    ensures Alone(db, BeatGet(worker, resources, now), c, 3) ==
            (HeartbeatOutcome(db, worker, resources, now).0, Finished)
  {
    var p := BeatGet(worker, resources, now);
    assert Alone(db, p, c, 3) == Alone(db, Next(db, p, c), c, 2);
    if worker in db.records {
      var q := Next(db, p, c);
      assert Alone(db, q, c, 2) == Alone(MarkedAlive(db, worker), BeatSave(q.record), c, 1);
    }
  }

  lemma ClaimAlone(db: Db, worker: Id, c: Choice)
    requires worker != "" && worker in db.records && worker in db.alive
    ensures Alone(db, ReqClaim(worker), c, 3) == (RequestOutcome(db, worker).0, Finished)
  {
    var claimed, j := Claimed(db, worker), NextQueued(db);
    if j == "" {
      FinishedStays(claimed, c, 2);
    } else {
      var q := Next(claimed, ReqGetJob(worker, j), c);
      assert Alone(db, ReqClaim(worker), c, 3) == Alone(claimed, ReqGetJob(worker, j), c, 2);
      assert Alone(claimed, ReqGetJob(worker, j), c, 2) == Alone(claimed, q, c, 1);
      FinishedStays(Written(claimed, q, c), c, 0);
    }
  }

  lemma RequestAlone(db: Db, worker: Id, c: Choice)
    requires worker != ""
    ensures Alone(db, ReqGetWorker(worker), c, 5) == (RequestOutcome(db, worker).0, Finished)
  {
    var p := Next(db, ReqGetWorker(worker), c);
    assert Alone(db, ReqGetWorker(worker), c, 5) == Alone(db, p, c, 4);
    FinishedStays(db, c, 4);
    FinishedStays(db, c, 3);
    if worker in db.records {
      assert Alone(db, p, c, 4) == Alone(db, Next(db, p, c), c, 3);
      if worker in db.alive { ClaimAlone(db, worker, c); }
    }
  }

  lemma FinishedStays(db: Db, c: Choice, n: nat)
    ensures Alone(db, Finished, c, n) == (db, Finished)
  {
  }

  /** The last read and the write of SubmitResult. */
  lemma JudgeAlone(db: Db, worker: Id, result: PbResult, now: int, job: JobRecord, c: Choice)
    ensures Alone(db, SubGetStatus(worker, result, now, job), c, 2) ==
            (Enact(db, job, JudgeStatus(worker, result, Get(db.status, result.jobId), now)), Finished)
  {
    var p := SubGetStatus(worker, result, now, job);
    var q := Next(db, p, c);
    assert Alone(db, p, c, 2) == Alone(db, q, c, 1);
    assert Alone(db, q, c, 1) == Alone(Written(db, q, c), Finished, c, 0);
  }

  lemma CheckAlone(db: Db, worker: Id, result: PbResult, now: int, job: JobRecord, c: Choice)
    ensures Alone(db, SubGetHolder(worker, result, now, job), c, 3) ==
            if JudgeAssignment(worker, job, GetString(db.holder, result.jobId)).Some? then (db, Finished)
            else Alone(db, SubGetStatus(worker, result, now, job), c, 2)
  {
    var p := SubGetHolder(worker, result, now, job);
    assert Alone(db, p, c, 3) == Alone(db, Next(db, p, c), c, 2);
    FinishedStays(db, c, 2);
  }

  lemma SubmitAlone(db: Db, worker: Id, result: PbResult, now: int, c: Choice)
    requires worker != "" && result.jobId != ""
    ensures Alone(db, SubGetJob(worker, result, now), c, 4) ==
            (SubmitOutcome(db, SubmitResultRequest(worker, Some(result)), now).0, Finished)
  {
    var p := SubGetJob(worker, result, now);
    assert Alone(db, p, c, 4) == Alone(db, Next(db, p, c), c, 3);
    if result.jobId in db.jobs {
      CheckAlone(db, worker, result, now, db.jobs[result.jobId], c);
      JudgeAlone(db, worker, result, now, db.jobs[result.jobId], c);
    } else {
      FinishedStays(db, c, 3);
    }
  }

  lemma SubmitJobAlone(db: Db, spec: JobSpec, now: int, c: Choice)
    requires Acceptable(spec) && c.ids != []
    ensures Alone(db, NewEnqueue(spec, now), c, 1) == (SubmitJobOutcome(db, c.ids[0], spec, now).0, Finished)
  {
  }
}
