/** The coordinator as a state machine in which each RPC, each monitor sweep and each time-out is one step.
    Steps apply the very functions that the handlers and the sweep are proved equal to. */
module Protocol {
  import opened Domain
  import opened Store
  import opened Handlers
  import opened Monitor

  datatype Event =
    | RegisterWorker(uuid: Id, resources: Option<ResourceSpec>, version: string, now: int)
    | Heartbeat(worker: Id, resources: Option<ResourceSpec>, now: int)
    | RequestJob(worker: Id)
    | SubmitResult(req: SubmitResultRequest, now: int)
    | SubmitJob(uuid: Id, spec: JobSpec, now: int)
    | Sweep(moved: seq<Id>)
    | Expire(worker: Id)

  datatype Claim = Claim(job: Id, worker: Id)

  /** The Redis snapshot together with what has happened so far. */
  datatype Sys = Sys(
    db: Db,
    issued: set<Id>,      // every UUID handed out
    evicted: set<Id>,     // workers removed by a sweep
    claims: seq<Claim>,   // successful claims, oldest first
    finals: seq<Id>,      // jobs in the order FinalizeJobWithResult ran for them
    submits: nat,         // accepted SubmitJob calls
    requeues: nat)        // jobs put back by sweeps

  const Init := Sys(EmptyDb, {}, {}, [], [], 0, 0)

  /** UUIDs are new; a sweep moves the stranded jobs in some order; everything else can happen at any time. */
  ghost predicate Enabled(s: Sys, ev: Event) {
    match ev
    case RegisterWorker(uuid, _, _, _) => uuid != "" && uuid !in s.issued
    case SubmitJob(uuid, _, _) => uuid != "" && uuid !in s.issued
    case Sweep(moved) => SweepOf(s.db, moved)
    case _ => true
  }

  function Apply(s: Sys, ev: Event): Sys {
    match ev
    case RegisterWorker(uuid, resources, version, now) =>
      s.(db := Register(s.db, NewWorker(uuid, resources, version, now)), issued := s.issued + {uuid})
    case Heartbeat(worker, resources, now) => s.(db := HeartbeatOutcome(s.db, worker, resources, now).0)
    case RequestJob(worker) =>
      var (db, reply) := RequestOutcome(s.db, worker);
      if reply.Ok? && reply.value.Some? then s.(db := db, claims := s.claims + [Claim(reply.value.value.id, worker)])
      else s.(db := db)
    case SubmitResult(req, now) =>
      var db := SubmitOutcome(s.db, req, now).0;
      if SubmitVerdict(s.db, req, now).Commit? then s.(db := db, finals := s.finals + [req.result.value.jobId])
      else s.(db := db)
    case SubmitJob(uuid, spec, now) =>
      var (db, reply) := SubmitJobOutcome(s.db, uuid, spec, now);
      s.(db := db, issued := s.issued + {uuid}, submits := s.submits + if reply.Ok? then 1 else 0)
    case Sweep(moved) =>
      s.(db := Swept(s.db, DeadWorkers(s.db), moved), evicted := s.evicted + DeadWorkers(s.db),
         requeues := s.requeues + |moved|)
    case Expire(worker) => s.(db := Expired(s.db, worker))
  }

  /** `evs` can happen from `s` in this order. */
  ghost predicate IsRun(s: Sys, evs: seq<Event>)
    decreases |evs|
  {
    evs == [] || (Enabled(s, evs[0]) && IsRun(Apply(s, evs[0]), evs[1..]))
  }

  function Exec(s: Sys, evs: seq<Event>): Sys
    decreases |evs|
  {
    if evs == [] then s else Exec(Apply(s, evs[0]), evs[1..])
  }

  lemma {:induction false} RunConcat(s: Sys, a: seq<Event>, b: seq<Event>)
    ensures Exec(s, a + b) == Exec(Exec(s, a), b)
    ensures IsRun(s, a + b) <==> IsRun(s, a) && IsRun(Exec(s, a), b)
    decreases |a|
  {
    if a == [] {
      assert a + b == b;
    } else {
      assert (a + b)[1..] == a[1..] + b;
      RunConcat(Apply(s, a[0]), a[1..], b);
    }
  }

  lemma RunOne(s: Sys, ev: Event)
    ensures Exec(s, [ev]) == Apply(s, ev) && (IsRun(s, [ev]) <==> Enabled(s, ev))
  {
    assert [ev][1..] == [];
    assert Exec(Apply(s, ev), []) == Apply(s, ev);
  }

  // ----- the abstract job state -----

  datatype JobState = Waiting | Held(worker: Id) | Done(status: JobStatus, result: ResultRecord)

  /** What `job_status`, read together with `job_worker` and `result`, says about a job. */
  function StateOf(db: Db, j: Id): Option<JobState> {
    if j !in db.status then None
    else match db.status[j]
      case Queued => Some(Waiting)
      case Running => Some(Held(GetString(db.holder, j)))
      case _ => if j in db.results then Some(Done(db.status[j], db.results[j])) else None
  }

  predicate OnlyPartial(db: Db, j: Id) {
    j in db.results ==>
      db.results[j].partial && db.results[j].resultStatus == StatusRunning.Name() && db.results[j].jobId == j
  }

  predicate FinalRecord(j: Id, status: JobStatus, r: ResultRecord) {
    && r.jobId == j && !r.partial
    && r.resultStatus == (if status == Completed then StatusSucceeded else StatusFailed).Name()
  }

  /** All five representations of job `j` say that it is in state `st`. */
  predicate Encodes(db: Db, j: Id, st: JobState) {
    && j in db.jobs && db.jobs[j].id == j && j in db.status && db.jobs[j].status == db.status[j]
    && match st
       case Waiting =>
         && j in db.queue && db.status[j] == Queued && j !in db.holder
         && db.jobs[j].assignee == "" && OnlyPartial(db, j)
       case Held(w) =>
         && j !in db.queue && db.status[j] == Running && j in db.holder && db.holder[j] == w && w != ""
         && db.jobs[j].assignee == w && OnlyPartial(db, j)
       case Done(status, r) =>
         && j !in db.queue && db.status[j] == status && status.Terminal() && j !in db.holder
         && db.jobs[j].assignee == "" && j in db.results && db.results[j] == r && FinalRecord(j, status, r)
  }

  predicate JobAgrees(db: Db, j: Id) {
    StateOf(db, j).Some? && Encodes(db, j, StateOf(db, j).value)
  }

  /** Whatever any key says about `j` belongs to a job record, and all keys agree about it. */
  predicate JobInv(db: Db, j: Id) {
    if j in db.jobs then j != "" && JobAgrees(db, j)
    else j !in db.queue && j !in db.status && j !in db.holder && j !in db.results
  }

  ghost predicate JobsAgree(db: Db) {
    NoDup(db.queue) && forall j {:trigger JobInv(db, j)} :: JobInv(db, j)
  }

  /** The worker set, the worker records and the liveness keys agree, and every holder is registered. */
  ghost predicate WorkersAgree(db: Db) {
    && db.workers == db.records.Keys && "" !in db.workers
    && (forall w :: w in db.records ==> db.records[w].id == w)
    && db.alive <= db.workers
    && (forall j :: j in db.holder ==> db.holder[j] in db.workers)
  }

  function LastClaim(claims: seq<Claim>, j: Id): Option<Id> {
    if claims == [] then None
    else if claims[|claims| - 1].job == j then Some(claims[|claims| - 1].worker)
    else LastClaim(claims[..|claims| - 1], j)
  }

  function Potential(db: Db): nat {
    2 * |db.queue| + |db.holder|
  }

  ghost predicate HistoryAgrees(s: Sys) {
    && "" !in s.issued && s.db.jobs.Keys <= s.issued && s.db.workers <= s.issued && s.evicted <= s.issued
    && s.evicted !! s.db.workers
    && (forall j :: j in s.db.holder ==> LastClaim(s.claims, j) == Some(s.db.holder[j]))
    && (forall j :: multiset(s.finals)[j] == if j in s.db.status && s.db.status[j].Terminal() then 1 else 0)
    && |s.claims| + |s.finals| + Potential(s.db) == 2 * s.submits + s.requeues
  }

  ghost predicate Inv(s: Sys) {
    JobsAgree(s.db) && WorkersAgree(s.db) && HistoryAgrees(s)
  }

  lemma InitInv()
    ensures Inv(Init)
  {
  }

  // ----- every step keeps the invariant: the job representations -----

  ghost predicate SameJob(a: Db, b: Db, j: Id) {
    && (j in a.queue <==> j in b.queue) && (j in a.jobs <==> j in b.jobs)
    && Get(a.status, j) == Get(b.status, j) && Get(a.holder, j) == Get(b.holder, j)
    && Get(a.jobs, j) == Get(b.jobs, j) && Get(a.results, j) == Get(b.results, j)
  }

  lemma SameJobAgrees(a: Db, b: Db, j: Id)
    requires SameJob(a, b, j) && JobAgrees(a, j)
    ensures JobAgrees(b, j) && StateOf(b, j) == StateOf(a, j)
  {
  }

  lemma SameJobInv(a: Db, b: Db, j: Id)
    requires SameJob(a, b, j) && JobInv(a, j)
    ensures JobInv(b, j)
  {
    if j in a.jobs { SameJobAgrees(a, b, j); }
  }

  /** The frame rule: an operation on one job leaves the agreement of the others alone. */
  lemma AgreeFrame(a: Db, b: Db, j: Id)
    requires JobsAgree(a)
    requires NoDup(b.queue) && b.jobs.Keys == a.jobs.Keys + {j} && j != ""
    requires forall i :: i != j ==> SameJob(a, b, i)
    requires JobAgrees(b, j)
    ensures JobsAgree(b)
  {
    forall i ensures JobInv(b, i) {
      if i != j {
        assert JobInv(a, i) && SameJob(a, b, i);
        SameJobInv(a, b, i);
      }
    }
  }

  function HeadClaimed(db: Db, worker: Id): Db
    requires db.queue != [] && db.queue[0] in db.jobs
  {
    JobSaved(Claimed(db, worker), db.jobs[db.queue[0]].(status := Running, assignee := worker))
  }

  lemma ClaimedJobAgrees(db: Db, worker: Id)
    requires JobsAgree(db) && worker != "" && db.queue != []
    ensures db.queue[0] in db.jobs && JobAgrees(HeadClaimed(db, worker), db.queue[0])
  {
    var j := db.queue[0];
    assert j in db.queue && JobInv(db, j);
    assert j !in db.queue[1..];
  }

  /** `b` differs from `a` at most in job `j`. */
  ghost predicate OnlyJobChanges(a: Db, b: Db, j: Id) {
    b.jobs.Keys == a.jobs.Keys + {j} && forall i :: i != j ==> SameJob(a, b, i)
  }

  lemma ClaimAgrees(db: Db, worker: Id)
    requires JobsAgree(db) && worker != "" && db.queue != []
    ensures var j := db.queue[0];
      && j in db.jobs && db.jobs[j].id == j && StateOf(db, j) == Some(Waiting)
      && JobsAgree(HeadClaimed(db, worker)) && OnlyJobChanges(db, HeadClaimed(db, worker), j)
      && StateOf(HeadClaimed(db, worker), j) == Some(Held(worker))
  {
    ClaimedJobAgrees(db, worker);
    var j, t := db.queue[0], HeadClaimed(db, worker);
    assert j in db.queue && JobInv(db, j);
    forall i | i != j ensures SameJob(db, t, i) {
      assert db.queue == [j] + db.queue[1..];
    }
    AgreeFrame(db, t, j);
  }

  lemma CommitAgrees(db: Db, j: Id, r: ResultRecord, terminal: JobStatus)
    requires JobsAgree(db) && j in db.jobs && Get(db.status, j) == Some(Running)
    requires terminal.Terminal() && FinalRecord(j, terminal, r)
    ensures db.jobs[j].id == j
    ensures var t := Finalized(db, db.jobs[j], r, terminal);
      JobsAgree(t) && OnlyJobChanges(db, t, j) && StateOf(t, j) == Some(Done(terminal, r))
  {
    assert JobInv(db, j);
    AgreeFrame(db, Finalized(db, db.jobs[j], r, terminal), j);
  }

  lemma PartialAgrees(db: Db, j: Id, r: ResultRecord)
    requires JobsAgree(db) && j in db.jobs && Get(db.status, j) == Some(Running)
    requires r.jobId == j && r.partial && r.resultStatus == StatusRunning.Name()
    ensures JobsAgree(ResultSaved(db, r)) && OnlyJobChanges(db, ResultSaved(db, r), j)
    ensures StateOf(ResultSaved(db, r), j) == StateOf(db, j)
  {
    assert JobInv(db, j);
    AgreeFrame(db, ResultSaved(db, r), j);
  }

  lemma EnqueueAgrees(db: Db, job: JobRecord)
    requires JobsAgree(db) && job.id != "" && job.id !in db.jobs && job.status == Queued && job.assignee == ""
    ensures JobsAgree(Enqueued(db, job)) && OnlyJobChanges(db, Enqueued(db, job), job.id)
    ensures StateOf(Enqueued(db, job), job.id) == Some(Waiting)
  {
    assert JobInv(db, job.id);
    AgreeFrame(db, Enqueued(db, job), job.id);
  }

  /** Under the invariant the stranded jobs are exactly those in state Held by an unreachable worker. */
  lemma StrandedAreHeldByDead(db: Db, j: Id)
    requires JobsAgree(db) && WorkersAgree(db)
    ensures j in StrandedOn(db, DeadWorkers(db)) <==>
            (StateOf(db, j).Some? && StateOf(db, j).value.Held? && StateOf(db, j).value.worker !in db.alive)
  {
    assert JobInv(db, j);
  }

  lemma NoDupConcat(a: seq<Id>, b: seq<Id>)
    requires NoDup(a) && NoDup(b) && forall x :: x in b ==> x !in a
    ensures NoDup(a + b)
  {
    forall i, j | 0 <= i < j < |a + b| ensures (a + b)[i] != (a + b)[j] {
      if i < |a| <= j { assert (a + b)[j] in b; }
    }
  }

  lemma SweptJobAgrees(db: Db, dead: set<Id>, moved: seq<Id>, j: Id)
    requires JobsAgree(db) && Enumerates(moved, StrandedOn(db, dead))
    ensures var t := Swept(db, dead, moved);
      && JobInv(t, j) && (j in moved ==> j in db.jobs && j !in db.queue)
      && if j in moved then StateOf(t, j) == Some(Waiting) else SameJob(db, t, j)
  {
    var t := Swept(db, dead, moved);
    assert JobInv(db, j);
    if j !in moved && j in db.jobs { SameJobAgrees(db, t, j); }
  }

  lemma SweepAgrees(db: Db, dead: set<Id>, moved: seq<Id>)
    requires JobsAgree(db) && Enumerates(moved, StrandedOn(db, dead))
    ensures var t := Swept(db, dead, moved);
      && JobsAgree(t) && t.jobs.Keys == db.jobs.Keys
      && (forall j :: j in moved ==> StateOf(t, j) == Some(Waiting))
      && (forall j :: j !in moved ==> SameJob(db, t, j))
  {
    var t := Swept(db, dead, moved);
    forall j
      ensures JobInv(t, j) && (j in moved ==> j !in db.queue)
      ensures if j in moved then StateOf(t, j) == Some(Waiting) else SameJob(db, t, j)
    {
      SweptJobAgrees(db, dead, moved, j);
    }
    NoDupConcat(db.queue, moved);
  }

  function NoJob(db: Db, worker: Id): Reply<Option<JobRecord>> {
    if worker == "" then Fail(InvalidArgument) else if worker !in db.workers then Fail(NotFound) else Ok(None)
  }

  lemma RequestCases(db: Db, worker: Id)
    requires JobsAgree(db) && WorkersAgree(db)
    ensures if worker in db.records && worker in db.alive && db.queue != [] then
              db.queue[0] in db.jobs && RequestOutcome(db, worker) ==
                (HeadClaimed(db, worker), Ok(Some(db.jobs[db.queue[0]].(status := Running, assignee := worker))))
            else RequestOutcome(db, worker) == (db, NoJob(db, worker))
  {
    if worker in db.records && worker in db.alive && db.queue != [] {
      assert db.queue[0] in db.queue;
      assert JobInv(db, db.queue[0]);
    }
  }

  /** Under the invariant a verdict other than Refuse means that the sender holds the job, which is running. */
  lemma SubmitCases(db: Db, req: SubmitResultRequest, now: int)
    requires JobsAgree(db)
    ensures var v := SubmitVerdict(db, req, now);
      && (v.StorePartial? || v.Commit? || v.Refuse?)
      && (!v.Refuse? ==>
            var j := req.result.value.jobId;
            && j in db.jobs && StateOf(db, j) == Some(Held(req.workerId)) && v.record.jobId == j
            && v.record.workerId == req.workerId)
      && (v.StorePartial? ==> v.record.partial && v.record.resultStatus == StatusRunning.Name())
      && (v.Commit? ==> v.terminal.Terminal() && FinalRecord(req.result.value.jobId, v.terminal, v.record))
  {
    if !SubmitVerdict(db, req, now).Refuse? {
      assert JobInv(db, req.result.value.jobId);
    }
  }

  /** The registry events leave every key of every job alone. */
  predicate SameJobs(a: Db, b: Db) {
    a.queue == b.queue && a.status == b.status && a.holder == b.holder && a.jobs == b.jobs && a.results == b.results
  }

  lemma RegistryAgrees(a: Db, b: Db)
    requires JobsAgree(a) && SameJobs(a, b)
    ensures JobsAgree(b)
  {
    forall j ensures JobInv(b, j) { assert JobInv(a, j); }
  }

  lemma RequestKeepsJobs(db: Db, worker: Id)
    requires JobsAgree(db) && WorkersAgree(db)
    ensures JobsAgree(RequestOutcome(db, worker).0)
  {
    RequestCases(db, worker);
    if worker in db.records && worker in db.alive && db.queue != [] { ClaimAgrees(db, worker); }
  }

  lemma SubmitKeepsJobs(db: Db, req: SubmitResultRequest, now: int)
    requires JobsAgree(db)
    ensures JobsAgree(SubmitOutcome(db, req, now).0)
  {
    SubmitCases(db, req, now);
    var v := SubmitVerdict(db, req, now);
    if v.Commit? {
      CommitAgrees(db, req.result.value.jobId, v.record, v.terminal);
    } else if v.StorePartial? {
      PartialAgrees(db, req.result.value.jobId, v.record);
    }
  }

  lemma NewKeepsJobs(db: Db, uuid: Id, spec: JobSpec, now: int)
    requires JobsAgree(db) && uuid != "" && uuid !in db.jobs
    ensures JobsAgree(SubmitJobOutcome(db, uuid, spec, now).0)
  {
    if Acceptable(spec) { EnqueueAgrees(db, NewJob(uuid, spec, now)); }
  }

  lemma KeepsJobs(s: Sys, ev: Event)
    requires JobsAgree(s.db) && WorkersAgree(s.db) && s.db.jobs.Keys <= s.issued && Enabled(s, ev)
    ensures JobsAgree(Apply(s, ev).db)
  {
    match ev
    case RequestJob(worker) => RequestKeepsJobs(s.db, worker);
    case SubmitResult(req, now) => SubmitKeepsJobs(s.db, req, now);
    case SubmitJob(uuid, spec, now) => NewKeepsJobs(s.db, uuid, spec, now);
    case Sweep(moved) => SweepAgrees(s.db, DeadWorkers(s.db), moved);
    case _ => RegistryAgrees(s.db, Apply(s, ev).db);
  }

  // ----- the worker registry -----

  lemma SweepKeepsWorkers(db: Db, moved: seq<Id>)
    requires JobsAgree(db) && WorkersAgree(db) && SweepOf(db, moved)
    ensures WorkersAgree(Swept(db, DeadWorkers(db), moved))
  {
    forall j | j in db.holder && j !in moved ensures db.holder[j] !in DeadWorkers(db) {
      StrandedAreHeldByDead(db, j);
      assert JobInv(db, j);
    }
  }

  lemma ClaimKeepsWorkers(db: Db, worker: Id)
    requires JobsAgree(db) && WorkersAgree(db)
    ensures WorkersAgree(RequestOutcome(db, worker).0)
  {
    RequestCases(db, worker);
  }

  lemma SubmitKeepsWorkers(db: Db, req: SubmitResultRequest, now: int)
    requires JobsAgree(db) && WorkersAgree(db)
    ensures WorkersAgree(SubmitOutcome(db, req, now).0)
  {
    SubmitCases(db, req, now);
  }

  lemma KeepsWorkers(s: Sys, ev: Event)
    requires JobsAgree(s.db) && WorkersAgree(s.db) && Enabled(s, ev)
    ensures WorkersAgree(Apply(s, ev).db)
  {
    match ev
    case RequestJob(worker) => ClaimKeepsWorkers(s.db, worker);
    case SubmitResult(req, now) => SubmitKeepsWorkers(s.db, req, now);
    case Sweep(moved) => SweepKeepsWorkers(s.db, moved);
    case _ =>
  }

  // ----- the history -----

  lemma {:induction false} RemovedSize(m: map<Id, Id>, moved: seq<Id>)
    requires NoDup(moved) && forall j :: j in moved ==> j in m
    ensures |map j | j in m && j !in moved :: m[j]| == |m| - |moved|
  {
    var rest := map j | j in m && j !in moved :: m[j];
    if moved == [] {
      assert rest == m;
    } else {
      RemovedSize(m, moved[1..]);
      var bigger := map j | j in m && j !in moved[1..] :: m[j];
      assert moved == [moved[0]] + moved[1..];
      assert rest == bigger - {moved[0]};
    }
  }

  lemma RemoveSize(m: map<Id, Id>, j: Id)
    requires j in m
    ensures |m - {j}| == |m| - 1
  {
    assert m == (m - {j})[j := m[j]];
  }

  lemma HistoryOfClaim(s: Sys, worker: Id)
    requires Inv(s) && worker in s.db.records && worker in s.db.alive && s.db.queue != []
    ensures HistoryAgrees(Apply(s, RequestJob(worker)))
  {
    RequestCases(s.db, worker);
    var t := Apply(s, RequestJob(worker));
    var j := s.db.queue[0];
    assert j in s.db.queue && JobInv(s.db, j);
    assert t.claims[..|t.claims| - 1] == s.claims;
    assert |t.db.holder| == |s.db.holder| + 1;
  }

  lemma HistoryOfCommit(s: Sys, j: Id, r: ResultRecord, terminal: JobStatus)
    requires Inv(s) && j in s.db.jobs && Get(s.db.status, j) == Some(Running) && terminal.Terminal()
    ensures HistoryAgrees(s.(db := Finalized(s.db, s.db.jobs[j], r, terminal), finals := s.finals + [j]))
  {
    assert JobInv(s.db, j);
    RemoveSize(s.db.holder, j);
  }

  lemma HistoryOfSubmit(s: Sys, req: SubmitResultRequest, now: int)
    requires Inv(s)
    ensures HistoryAgrees(Apply(s, SubmitResult(req, now)))
  {
    SubmitCases(s.db, req, now);
    var v := SubmitVerdict(s.db, req, now);
    if v.Commit? { HistoryOfCommit(s, req.result.value.jobId, v.record, v.terminal); }
  }

  lemma HistoryOfSubmitJob(s: Sys, uuid: Id, spec: JobSpec, now: int)
    requires HistoryAgrees(s) && JobInv(s.db, uuid) && uuid !in s.issued && uuid != ""
    ensures HistoryAgrees(Apply(s, SubmitJob(uuid, spec, now)))
  {
    var t := Apply(s, SubmitJob(uuid, spec, now));
    if Acceptable(spec) {
      assert uuid !in s.db.jobs && uuid !in s.db.status;
      assert t.db.jobs.Keys == s.db.jobs.Keys + {uuid};
      assert |t.db.queue| == |s.db.queue| + 1;
    }
  }

  lemma HistoryOfSweep(s: Sys, moved: seq<Id>)
    requires Inv(s) && SweepOf(s.db, moved)
    ensures HistoryAgrees(Apply(s, Sweep(moved)))
  {
    forall j | j in moved ensures j in s.db.holder && j in s.db.status && s.db.status[j] == Running {}
    RemovedSize(s.db.holder, moved);
  }

  lemma HistoryOfRequest(s: Sys, worker: Id)
    requires Inv(s)
    ensures HistoryAgrees(Apply(s, RequestJob(worker)))
  {
    if worker in s.db.records && worker in s.db.alive && s.db.queue != [] {
      HistoryOfClaim(s, worker);
    } else {
      RequestCases(s.db, worker);
    }
  }

  lemma HistoryOfRegistry(s: Sys, ev: Event)
    requires HistoryAgrees(s) && WorkersAgree(s.db) && Enabled(s, ev)
    requires ev.RegisterWorker? || ev.Heartbeat? || ev.Expire?
    ensures HistoryAgrees(Apply(s, ev))
  {
    RegistryChanges(s, ev);
    SameHistory(s, Apply(s, ev));
  }

  /** The history goes on to agree when only the registry changes, and only by ids never evicted. */
  lemma SameHistory(s: Sys, t: Sys)
    requires HistoryAgrees(s) && SameJobs(s.db, t.db)
    requires t.claims == s.claims && t.finals == s.finals && t.submits == s.submits && t.requeues == s.requeues
    requires s.issued <= t.issued && "" !in t.issued && t.evicted == s.evicted && t.db.workers <= t.issued
    requires forall w :: w in t.db.workers ==> w in s.db.workers || w !in s.issued
    ensures HistoryAgrees(t)
  {
  }

  lemma RegistryChanges(s: Sys, ev: Event)
    requires WorkersAgree(s.db) && s.db.workers <= s.issued && "" !in s.issued && Enabled(s, ev)
    requires ev.RegisterWorker? || ev.Heartbeat? || ev.Expire?
    ensures var t := Apply(s, ev);
      && SameJobs(s.db, t.db) && t.claims == s.claims && t.finals == s.finals
      && t.submits == s.submits && t.requeues == s.requeues
      && s.issued <= t.issued && "" !in t.issued && t.evicted == s.evicted && t.db.workers <= t.issued
      && forall w :: w in t.db.workers ==> w in s.db.workers || w !in s.issued
  {
  }

  lemma KeepsHistory(s: Sys, ev: Event)
    requires Inv(s) && Enabled(s, ev)
    ensures HistoryAgrees(Apply(s, ev))
  {
    match ev
    case RequestJob(worker) => HistoryOfRequest(s, worker);
    case SubmitResult(req, now) => HistoryOfSubmit(s, req, now);
    case Sweep(moved) => HistoryOfSweep(s, moved);
    case SubmitJob(uuid, spec, now) =>
      assert JobInv(s.db, uuid);
      HistoryOfSubmitJob(s, uuid, spec, now);
    case _ => HistoryOfRegistry(s, ev);
  }

  lemma Keeps(s: Sys, ev: Event)
    requires Inv(s) && Enabled(s, ev)
    ensures Inv(Apply(s, ev))
  {
    KeepsJobs(s, ev);
    KeepsWorkers(s, ev);
    KeepsHistory(s, ev);
  }

  /** The invariant holds after every run. */
  lemma {:induction false} RunKeeps(s: Sys, evs: seq<Event>)
    requires Inv(s) && IsRun(s, evs)
    ensures Inv(Exec(s, evs))
    decreases |evs|
  {
    if evs != [] {
      Keeps(s, evs[0]);
      RunKeeps(Apply(s, evs[0]), evs[1..]);
    }
  }
}
