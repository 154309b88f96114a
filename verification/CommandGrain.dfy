/** Orphans, exactly-once and fencing at the grain of single Redis commands. None of the three holds there for all runs
    (module Races has a run for each failure); this module says, for every run, exactly when they do. */
module CommandGrain {
  import opened Domain
  import opened Store
  import opened Handlers
  import opened Interleaved
  import Protocol

  // ----- runs, seen from their end -----

  lemma {:induction false} ExecConcat(s: Sys, a: seq<Move>, b: seq<Move>)
    ensures Exec(s, a + b) == Exec(Exec(s, a), b)
    ensures IsRun(s, a + b) <==> IsRun(s, a) && IsRun(Exec(s, a), b)
    decreases |a|
  {
    if a == [] {
      assert a + b == b;
    } else {
      assert (a + b)[1..] == a[1..] + b;
      ExecConcat(Apply(s, a[0]), a[1..], b);
    }
  }

  lemma ExecSnoc(s: Sys, ms: seq<Move>, m: Move)
    ensures Exec(s, ms + [m]) == Apply(Exec(s, ms), m)
    ensures IsRun(s, ms + [m]) <==> IsRun(s, ms) && Enabled(Exec(s, ms), m)
  {
    ExecConcat(s, ms, [m]);
    assert [m][1..] == [];
    assert Exec(Apply(Exec(s, ms), m), []) == Apply(Exec(s, ms), m);
  }

  function Last(ms: seq<Move>): Move
    requires ms != []
  {
    ms[|ms| - 1]
  }

  function Before(ms: seq<Move>): (r: seq<Move>)
    requires ms != []
    ensures |r| == |ms| - 1
  {
    ms[..|ms| - 1]
  }

  lemma LastStep(s: Sys, ms: seq<Move>)
    requires ms != []
    ensures Exec(s, ms) == Apply(Exec(s, Before(ms)), Last(ms))
    ensures IsRun(s, ms) <==> IsRun(s, Before(ms)) && Enabled(Exec(s, Before(ms)), Last(ms))
  {
    assert ms == Before(ms) + [Last(ms)];
    ExecSnoc(s, Before(ms), Last(ms));
  }

  function ProcAt(procs: map<nat, Proc>, pid: nat): Option<Proc> {
    if pid in procs then Some(procs[pid]) else None
  }

  /** The command that takes effect in a move, if any. */
  function Effective(s: Sys, m: Move): Option<Proc> {
    match m
    case Run(pid, _) => ProcAt(s.procs, pid)
    case Fail(pid, applied, _) => if applied then ProcAt(s.procs, pid) else None
    case Resend(pid, _) => ProcAt(s.procs, pid)
    case _ => None
  }

  /** The process of a move in which a command is issued. */
  function Issuer(m: Move): Option<(nat, Choice)> {
    match m
    case Run(pid, c) => Some((pid, c))
    case Fail(pid, _, c) => Some((pid, c))
    case Resend(pid, c) => Some((pid, c))
    case _ => None
  }

  /** Such a move changes the database at most as the command does, and moves only that process on. */
  lemma Issued(s: Sys, m: Move)
    requires Enabled(s, m) && Issuer(m).Some?
    ensures var (pid, c) := Issuer(m).value;
      var t := Apply(s, m);
      && pid in s.procs && Possible(s.db, s.procs[pid], c) && t.procs.Keys == s.procs.Keys
      && (t.db == s.db || t.db == Written(s.db, s.procs[pid], c))
      && t.procs[pid] in {Next(s.db, s.procs[pid], c), OnError(s.procs[pid]), Again(s.procs[pid], c)}
      && (forall i :: i in s.procs && i != pid ==> t.procs[i] == s.procs[i])
  {
  }

  /** The other moves start or abandon a process, or let a key expire. */
  lemma NotIssued(s: Sys, m: Move)
    requires Enabled(s, m) && Issuer(m).None?
    ensures var t := Apply(s, m);
      && (t.db == s.db || exists w :: t.db == Expired(s.db, w))
      && (forall i :: i in t.procs ==> (i in s.procs && t.procs[i] == s.procs[i]) || (m.Spawn? && t.procs[i] == m.p))
      && (m.Spawn? ==> Initial(m.p))
  {
    if m.Expire? { assert Apply(s, m).db == Expired(s.db, m.worker); }
  }

  // ----- orphans -----

  ghost predicate HoldersRegistered(db: Db) {
    forall j :: j in db.holder ==> db.holder[j] in db.workers
  }

  /** A claim for a worker that is no longer registered, or the eviction of a worker that still holds a job. */
  ghost predicate MakesOrphan(db: Db, p: Proc) {
    || (p.ReqClaim? && db.queue != [] && p.worker !in db.workers)
    || (p.MonRemove? && p.todo != [] && exists j :: j in db.holder && db.holder[j] == p.todo[0])
  }

  lemma WriteOrphansIff(db: Db, p: Proc, c: Choice)
    requires HoldersRegistered(db)
    ensures HoldersRegistered(Written(db, p, c)) <==> !MakesOrphan(db, p)
  {
    var t := Written(db, p, c);
    if p.ReqClaim? && db.queue != [] {
      assert t.holder[db.queue[0]] == p.worker;
    } else if p.MonRemove? && p.todo != [] {
      forall j | j in db.holder && db.holder[j] == p.todo[0] ensures t.holder[j] !in t.workers {}
    }
  }

  /** While every holder is registered, a move leaves an unregistered holder if and only if its command is one of the
      two above: the only ways into an orphan. */
  lemma OrphanStepIff(s: Sys, m: Move)
    requires HoldersRegistered(s.db) && Enabled(s, m)
    ensures HoldersRegistered(Apply(s, m).db) <==>
            !(Effective(s, m).Some? && MakesOrphan(s.db, Effective(s, m).value))
  {
    match m
    case Run(pid, c) => WriteOrphansIff(s.db, s.procs[pid], c);
    case Fail(pid, _, c) => WriteOrphansIff(s.db, s.procs[pid], c);
    case Resend(pid, c) => WriteOrphansIff(s.db, s.procs[pid], c);
    case _ =>
  }

  // ----- exactly once -----

  ghost predicate IsFinished(db: Db, j: Id) {
    j in db.status && db.status[j].Terminal()
  }

  /** A command about finished job `j` that was decided on before `j` finished, or a stale queue entry: it requeues or
      claims the job, or overwrites its result or its record with something else. */
  predicate Disturbs(db: Db, p: Proc, j: Id) {
    || (p.ReqClaim? && db.queue != [] && db.queue[0] == j)
    || (p.ReqSave? && p.job.id == j && Get(db.jobs, j) != Some(p.job))
    || (p.ReqUndo? && p.j == j)
    || (p.NewAgain? && p.job.id == j)
    || (p.MonRequeue? && p.jobs != [] && p.jobs[0] == j)
    || (p.SubPartial? && p.saved.jobId == j && Get(db.results, j) != Some(p.saved))
    || (p.SubFinal? && p.job.id == j &&
        (|| Get(db.status, j) != Some(TerminalFor(p.result.status)) || j in db.holder
         || Get(db.results, j) != Some(ToRecord(p.worker, p.result, p.now))
         || Get(db.jobs, j) != Some(p.job.(status := TerminalFor(p.result.status), assignee := ""))))
  }

  lemma ClaimDisturbsIff(db: Db, worker: Id, j: Id)
    requires IsFinished(db, j)
    ensures !Protocol.SameJob(db, Claimed(db, worker), j) <==> db.queue != [] && db.queue[0] == j
  {
    if db.queue != [] { assert db.queue == [db.queue[0]] + db.queue[1..]; }
  }

  /** Whatever is put back into the queue has status queued, so it is no longer finished. */
  lemma PushDisturbsIff(db: Db, t: Db, i: Id, j: Id)
    requires IsFinished(db, j) && Get(t.status, i) == Some(Queued)
    requires i != j ==> Get(t.status, j) == Get(db.status, j) && Get(t.holder, j) == Get(db.holder, j)
    requires i != j ==> Get(t.jobs, j) == Get(db.jobs, j) && t.results == db.results && t.queue == db.queue + [i]
    ensures !Protocol.SameJob(db, t, j) <==> i == j
  {
    if i != j { assert j in t.queue <==> j in db.queue; }
  }

  lemma FinalDisturbsIff(db: Db, job: JobRecord, r: ResultRecord, terminal: JobStatus, j: Id)
    requires IsFinished(db, j) && j in db.jobs
    ensures !Protocol.SameJob(db, Finalized(db, job, r, terminal), j) <==>
      job.id == j && (|| Get(db.status, j) != Some(terminal) || j in db.holder || Get(db.results, j) != Some(r)
                      || Get(db.jobs, j) != Some(job.(status := terminal, assignee := "")))
  {
  }

  lemma SaveDisturbsIff(db: Db, job: JobRecord, j: Id)
    requires j in db.jobs
    ensures !Protocol.SameJob(db, JobSaved(db, job), j) <==> job.id == j && Get(db.jobs, j) != Some(job)
  {
  }

  lemma PartialDisturbsIff(db: Db, saved: ResultRecord, j: Id)
    ensures !Protocol.SameJob(db, ResultSaved(db, saved), j) <==> saved.jobId == j && Get(db.results, j) != Some(saved)
  {
  }

  lemma EnqueueDisturbsIff(db: Db, p: Proc, c: Choice, j: Id)
    requires IsFinished(db, j) && j in db.jobs && Possible(db, p, c) && (p.NewEnqueue? || p.NewAgain?)
    ensures !Protocol.SameJob(db, Written(db, p, c), j) <==> Disturbs(db, p, j)
  {
    var job := if p.NewAgain? then p.job else NewJob(c.ids[0], p.spec, p.now);
    PushDisturbsIff(db, Enqueued(db, job), job.id, j);
  }

  lemma ClaimCommandDisturbsIff(db: Db, p: Proc, c: Choice, j: Id)
    requires IsFinished(db, j) && p.ReqClaim?
    ensures !Protocol.SameJob(db, Written(db, p, c), j) <==> Disturbs(db, p, j)
  {
    ClaimDisturbsIff(db, p.worker, j);
  }

  lemma RequeueCommandDisturbsIff(db: Db, p: Proc, c: Choice, j: Id)
    requires IsFinished(db, j) && (p.ReqUndo? || p.MonRequeue?)
    ensures !Protocol.SameJob(db, Written(db, p, c), j) <==> Disturbs(db, p, j)
  {
    if p.ReqUndo? {
      PushDisturbsIff(db, RequeuedId(db, p.j), p.j, j);
    } else if p.jobs != [] {
      PushDisturbsIff(db, RequeueWritten(db, p.jobs[0], p.job), p.jobs[0], j);
    }
  }

  lemma SaveCommandDisturbsIff(db: Db, p: Proc, c: Choice, j: Id)
    requires j in db.jobs && (p.ReqSave? || p.SubPartial?)
    ensures !Protocol.SameJob(db, Written(db, p, c), j) <==> Disturbs(db, p, j)
  {
    match p
    case ReqSave(_, job) => SaveDisturbsIff(db, job, j);
    case SubPartial(saved) => PartialDisturbsIff(db, saved, j);
  }

  lemma FinalCommandDisturbsIff(db: Db, p: Proc, c: Choice, j: Id)
    requires IsFinished(db, j) && j in db.jobs && p.SubFinal?
    ensures !Protocol.SameJob(db, Written(db, p, c), j) <==> Disturbs(db, p, j)
  {
    FinalDisturbsIff(db, p.job, ToRecord(p.worker, p.result, p.now), TerminalFor(p.result.status), j);
  }

  lemma RestDisturbsNothing(db: Db, p: Proc, c: Choice, j: Id)
    requires !WritesJobs(p) && !p.SubPartial?
    ensures Protocol.SameJob(db, Written(db, p, c), j) && !Disturbs(db, p, j)
  {
    OthersWriteNoJobs(db, p, c);
  }

  lemma WriteDisturbsIff(db: Db, p: Proc, c: Choice, j: Id)
    requires IsFinished(db, j) && j in db.jobs && Possible(db, p, c)
    ensures !Protocol.SameJob(db, Written(db, p, c), j) <==> Disturbs(db, p, j)
  {
    if p.ReqClaim? {
      ClaimCommandDisturbsIff(db, p, c, j);
    } else if p.ReqUndo? || p.MonRequeue? {
      RequeueCommandDisturbsIff(db, p, c, j);
    } else if p.NewEnqueue? || p.NewAgain? {
      EnqueueDisturbsIff(db, p, c, j);
    } else if p.SubFinal? {
      FinalCommandDisturbsIff(db, p, c, j);
    } else if p.ReqSave? || p.SubPartial? {
      SaveCommandDisturbsIff(db, p, c, j);
    } else {
      RestDisturbsNothing(db, p, c, j);
    }
  }

  lemma StepDisturbsIff(s: Sys, m: Move, j: Id)
    requires Enabled(s, m) && IsFinished(s.db, j) && j in s.db.jobs
    ensures !Protocol.SameJob(s.db, Apply(s, m).db, j) <==>
            Effective(s, m).Some? && Disturbs(s.db, Effective(s, m).value, j)
  {
    match m
    case Run(pid, c) => WriteDisturbsIff(s.db, s.procs[pid], c, j);
    case Fail(pid, _, c) => WriteDisturbsIff(s.db, s.procs[pid], c, j);
    case Resend(pid, c) => WriteDisturbsIff(s.db, s.procs[pid], c, j);
    case _ =>
  }

  /** On every run, a move changes the status, record, result, assignment or queueing of a finished job if and only
      if its command is one of the seven above. */
  lemma FinishedDisturbedIff(ms: seq<Move>, m: Move, j: Id)
    requires IsRun(Init, ms) && Enabled(Exec(Init, ms), m) && IsFinished(Exec(Init, ms).db, j)
    ensures var s := Exec(Init, ms);
      !Protocol.SameJob(s.db, Apply(s, m).db, j) <==>
      Effective(s, m).Some? && Disturbs(s.db, Effective(s, m).value, j)
  {
    RunKeeps(Init, ms);
    assert JobOk(Exec(Init, ms).db, Exec(Init, ms).submitted, j);
    StepDisturbsIff(Exec(Init, ms), m, j);
  }

  /** A process that will never write about `j` once `j` is finished and out of the queue: it has no command about `j`
      already decided on, and no copy of `j`'s record that would let its sender pass for the holder. */
  predicate HarmlessTo(p: Proc, j: Id) {
    match p
    case ReqGetJob(_, i) => i != j
    case ReqSave(i, _) => i != j
    case ReqUndo(i) => i != j
    case SubGetHolder(worker, result, _, job) => result.jobId == j ==> job.assignee != worker
    case SubGetStatus(_, result, _, _) => result.jobId != j
    case SubPartial(saved) => saved.jobId != j
    case SubFinal(_, result, _, _) => result.jobId != j
    case NewAgain(job) => job.id != j
    case MonRequeue(_, jobs, _) => jobs == [] || jobs[0] != j
    case _ => true
  }

  predicate Released(db: Db, j: Id) {
    j in db.status && db.status[j].Terminal() && j !in db.queue && j !in db.holder && j in db.jobs
    && db.jobs[j].assignee == ""
  }

  ghost predicate Settled(s: Sys, j: Id) {
    Released(s.db, j) && forall pid :: pid in s.procs ==> HarmlessTo(s.procs[pid], j)
  }

  lemma HarmlessDisturbsNothing(all: map<Id, JobRecord>, db: Db, p: Proc, j: Id)
    requires Released(db, j) && HarmlessTo(p, j) && CopiesOk(all, p)
    ensures !Disturbs(db, p, j)
  {
    if db.queue != [] { assert db.queue[0] in db.queue; }
  }

  lemma NextIsHarmless(all: map<Id, JobRecord>, db: Db, p: Proc, c: Choice, j: Id)
    requires Released(db, j) && HarmlessTo(p, j) && CopiesOk(all, p)
    ensures HarmlessTo(Next(db, p, c), j)
  {
    if db.queue != [] { assert db.queue[0] in db.queue; }
  }

  lemma RetryIsHarmless(all: map<Id, JobRecord>, db: Db, p: Proc, c: Choice, j: Id)
    requires Released(db, j) && HarmlessTo(p, j) && CopiesOk(all, p) && Possible(db, p, c)
    ensures HarmlessTo(OnError(p), j) && HarmlessTo(Again(p, c), j)
  {
  }

  lemma ReleasedStays(a: Db, b: Db, j: Id)
    requires Released(a, j) && Protocol.SameJob(a, b, j)
    ensures Released(b, j)
  {
  }

  lemma HarmlessWrite(s: Sys, p: Proc, c: Choice, j: Id)
    requires Released(s.db, j) && HarmlessTo(p, j) && CopiesOk(s.submitted, p) && Possible(s.db, p, c)
    ensures Protocol.SameJob(s.db, Written(s.db, p, c), j) && Released(Written(s.db, p, c), j)
  {
    HarmlessDisturbsNothing(s.submitted, s.db, p, j);
    WriteDisturbsIff(s.db, p, c, j);
    ReleasedStays(s.db, Written(s.db, p, c), j);
  }

  /** One command of process `pid`, and wherever the process goes from there. */
  lemma SettledCommand(s: Sys, pid: nat, c: Choice, j: Id)
    requires Settled(s, j) && pid in s.procs && CopiesOk(s.submitted, s.procs[pid]) && Possible(s.db, s.procs[pid], c)
    ensures var p := s.procs[pid];
      && Protocol.SameJob(s.db, Written(s.db, p, c), j) && Released(Written(s.db, p, c), j)
      && HarmlessTo(Next(s.db, p, c), j) && HarmlessTo(OnError(p), j) && HarmlessTo(Again(p, c), j)
  {
    HarmlessWrite(s, s.procs[pid], c, j);
    NextIsHarmless(s.submitted, s.db, s.procs[pid], c, j);
    RetryIsHarmless(s.submitted, s.db, s.procs[pid], c, j);
  }

  lemma SettledStep(s: Sys, m: Move, j: Id)
    requires (forall pid :: pid in s.procs ==> CopiesOk(s.submitted, s.procs[pid])) && Enabled(s, m) && Settled(s, j)
    ensures Settled(Apply(s, m), j) && Protocol.SameJob(s.db, Apply(s, m).db, j)
  {
    if Issuer(m).Some? {
      Issued(s, m);
      SettledCommand(s, Issuer(m).value.0, Issuer(m).value.1, j);
    } else {
      NotIssued(s, m);
    }
  }

  /** Exactly-once at this grain: once a job is finished, released, and no process in flight still means to write
      about it, nothing that any later run does, new submissions included, changes its status, record or result. */
  lemma {:induction false} SettledForever(s: Sys, ms: seq<Move>, j: Id)
    requires Inv(s) && IsRun(s, ms) && Settled(s, j)
    ensures Settled(Exec(s, ms), j) && Protocol.SameJob(s.db, Exec(s, ms).db, j)
    decreases |ms|
  {
    if ms != [] {
      SettledStep(s, ms[0], j);
      Keeps(s, ms[0]);
      SettledForever(Apply(s, ms[0]), ms[1..], j);
    }
  }

  // ----- fencing -----

  /** What a submission reads before it writes: `job_worker:<j>`, then `job_status:<j>`. */
  datatype Key = HolderKey | StatusKey

  /** The commands that write that key of a job which has been submitted. */
  predicate Writes(key: Key, db: Db, p: Proc, j: Id) {
    || (p.ReqClaim? && db.queue != [] && db.queue[0] == j)
    || (p.ReqUndo? && p.j == j)
    || (p.MonRequeue? && p.jobs != [] && p.jobs[0] == j)
    || (p.SubFinal? && p.job.id == j)
    || (p.NewAgain? && p.job.id == j && key == StatusKey)
  }

  /** The last command of a run to write that key. */
  function LastWrite(key: Key, s: Sys, ms: seq<Move>, j: Id): Option<Proc>
    decreases |ms|
  {
    if ms == [] then None
    else
      var t := Exec(s, Before(ms));
      var p := Effective(t, Last(ms));
      if p.Some? && Writes(key, t.db, p.value, j) then p else LastWrite(key, s, Before(ms), j)
  }

  function WriteOf(key: Key, db: Db, p: Option<Proc>, j: Id): Option<Proc> {
    if p.Some? && Writes(key, db, p.value, j) then p else None
  }

  function HolderAfter(held: Option<Id>, write: Option<Proc>): Option<Id> {
    match write
    case None => held
    case Some(ReqClaim(worker)) => Some(worker)
    case Some(_) => None
  }

  function StatusAfter(status: Option<JobStatus>, write: Option<Proc>): Option<JobStatus> {
    match write
    case None => status
    case Some(ReqClaim(_)) => Some(Running)
    case Some(SubFinal(_, result, _, _)) => Some(TerminalFor(result.status))
    case Some(_) => Some(Queued)
  }

  lemma WriteSetsHolder(db: Db, p: Proc, c: Choice, j: Id)
    ensures Get(Written(db, p, c).holder, j) == HolderAfter(Get(db.holder, j), WriteOf(HolderKey, db, Some(p), j))
  {
  }

  lemma WriteSetsStatus(db: Db, p: Proc, c: Choice, j: Id)
    requires j in db.jobs && Possible(db, p, c)
    ensures Get(Written(db, p, c).status, j) == StatusAfter(Get(db.status, j), WriteOf(StatusKey, db, Some(p), j))
    ensures j in Written(db, p, c).jobs
  {
  }

  lemma StepSetsHolder(s: Sys, m: Move, j: Id)
    requires Enabled(s, m)
    ensures Get(Apply(s, m).db.holder, j) ==
            HolderAfter(Get(s.db.holder, j), WriteOf(HolderKey, s.db, Effective(s, m), j))
  {
    match m
    case Run(pid, c) => WriteSetsHolder(s.db, s.procs[pid], c, j);
    case Fail(pid, _, c) => WriteSetsHolder(s.db, s.procs[pid], c, j);
    case Resend(pid, c) => WriteSetsHolder(s.db, s.procs[pid], c, j);
    case _ =>
  }

  lemma StepSetsStatus(s: Sys, m: Move, j: Id)
    requires Enabled(s, m) && j in s.db.jobs
    ensures Get(Apply(s, m).db.status, j) ==
            StatusAfter(Get(s.db.status, j), WriteOf(StatusKey, s.db, Effective(s, m), j))
    ensures j in Apply(s, m).db.jobs
  {
    match m
    case Run(pid, c) => WriteSetsStatus(s.db, s.procs[pid], c, j);
    case Fail(pid, _, c) => WriteSetsStatus(s.db, s.procs[pid], c, j);
    case Resend(pid, c) => WriteSetsStatus(s.db, s.procs[pid], c, j);
    case _ =>
  }

  /** Over any run, the holder is what the last claim, undo, requeue or finalisation of the job made it. */
  lemma {:induction false} HolderIs(s: Sys, ms: seq<Move>, j: Id)
    requires IsRun(s, ms)
    ensures Get(Exec(s, ms).db.holder, j) == HolderAfter(Get(s.db.holder, j), LastWrite(HolderKey, s, ms, j))
    decreases |ms|
  {
    if ms != [] {
      LastStep(s, ms);
      HolderIs(s, Before(ms), j);
      StepSetsHolder(Exec(s, Before(ms)), Last(ms), j);
    }
  }

  /** Likewise the status, of a job that has been submitted, with repeated submissions among the writers. */
  lemma {:induction false} StatusIs(s: Sys, ms: seq<Move>, j: Id)
    requires IsRun(s, ms) && j in s.db.jobs
    ensures Get(Exec(s, ms).db.status, j) == StatusAfter(Get(s.db.status, j), LastWrite(StatusKey, s, ms, j))
    ensures j in Exec(s, ms).db.jobs
    decreases |ms|
  {
    if ms != [] {
      LastStep(s, ms);
      StatusIs(s, Before(ms), j);
      StepSetsStatus(Exec(s, Before(ms)), Last(ms), j);
    }
  }

  /** A submission that has passed the check of the assignment. */
  predicate Checked(p: Proc) {
    p.SubGetStatus? || p.SubPartial? || p.SubFinal?
  }

  predicate ReadsKey(key: Key, p: Proc) {
    match key
    case HolderKey => p.SubGetHolder?
    case StatusKey => p.SubGetStatus?
  }

  /** `p` continues the submission that stood at `p0` when it read that key. */
  predicate Continues(key: Key, p0: Proc, p: Proc) {
    ReadsKey(key, p0) && match p
      case SubGetStatus(worker, result, now, job) => key == HolderKey && p0 == SubGetHolder(worker, result, now, job)
      case SubFinal(worker, result, now, job) =>
        p0 == SubGetHolder(worker, result, now, job) || p0 == SubGetStatus(worker, result, now, job)
      case SubPartial(saved) => saved == ToRecord(p0.worker, p0.result, p0.now)
      case _ => false
  }

  /** What the read must have found for the submission to go on. */
  predicate PassedOn(key: Key, db: Db, p0: Proc, p: Proc) {
    match key
    case HolderKey =>
      p0.SubGetHolder? && JudgeAssignment(p0.worker, p0.job, GetString(db.holder, p0.result.jobId)).None?
    case StatusKey => p.SubFinal? ==> Get(db.status, p.result.jobId) == Some(Running)
  }

  /** The move of a run in which process `pid` last read that key. */
  function LastRead(key: Key, ms: seq<Move>, pid: nat): (r: Option<nat>)
    ensures r.Some? ==> r.value < |ms|
    decreases |ms|
  {
    if ms == [] then None
    else
      var p := ProcAt(Exec(Init, Before(ms)).procs, pid);
      if Last(ms).Run? && Last(ms).pid == pid && p.Some? && ReadsKey(key, p.value) then Some(|ms| - 1)
      else LastRead(key, Before(ms), pid)
  }

  /** What stood there, when it read. */
  function Reader(ms: seq<Move>, k: nat, pid: nat): Option<Proc>
    requires k <= |ms|
  {
    ProcAt(Exec(Init, ms[..k]).procs, pid)
  }

  /** Past the read of that key. */
  predicate Past(key: Key, p: Proc) {
    Checked(p) && (key == StatusKey ==> !p.SubGetStatus?)
  }

  lemma NextPast(key: Key, db: Db, p: Proc, c: Choice)
    requires Past(key, Next(db, p, c))
    ensures ReadsKey(key, p) || (key == HolderKey && p.SubGetStatus?)
    ensures ReadsKey(key, p) ==> Continues(key, p, Next(db, p, c)) && PassedOn(key, db, p, Next(db, p, c))
    ensures !ReadsKey(key, p) ==>
      forall p0 :: Continues(key, p0, p) ==> Continues(key, p0, Next(db, p, c))
  {
  }

  lemma NothingElseChecks(p: Proc, c: Choice)
    ensures Initial(p) ==> !Checked(p)
    ensures !Checked(OnError(p))
    ensures Checked(Again(p, c)) ==> Again(p, c) == p
  {
  }

  lemma OnlyRunsCheck(s: Sys, m: Move, pid: nat)
    requires Enabled(s, m) && pid in Apply(s, m).procs && Checked(Apply(s, m).procs[pid])
    ensures pid in s.procs
    ensures !(m.Run? && m.pid == pid) ==> Apply(s, m).procs[pid] == s.procs[pid]
    ensures m.Run? && m.pid == pid ==> Apply(s, m).procs[pid] == Next(s.db, s.procs[pid], m.c)
  {
    match m
    case Spawn(_, p) => NothingElseChecks(p, Choice([], true));
    case Run(_, _) =>
    case Fail(i, _, c) => NothingElseChecks(s.procs[i], c);
    case Resend(i, c) => NothingElseChecks(s.procs[i], c);
    case Abandon(_) =>
    case Expire(_) =>
  }

  /** Every submission past the read of a key has read it in some move `k` of the run, and what it found let it go
      on. */
  lemma {:induction false} ReadEarlier(key: Key, ms: seq<Move>, pid: nat)
    requires IsRun(Init, ms) && pid in Exec(Init, ms).procs && Past(key, Exec(Init, ms).procs[pid])
    ensures LastRead(key, ms, pid).Some?
    ensures var k := LastRead(key, ms, pid).value;
      var p0, p := Reader(ms, k, pid), Exec(Init, ms).procs[pid];
      p0.Some? && Continues(key, p0.value, p) && PassedOn(key, Exec(Init, ms[..k]).db, p0.value, p)
    decreases |ms|
  {
    if ms != [] {
      LastStep(Init, ms);
      var init, m := Before(ms), Last(ms);
      var s := Exec(Init, init);
      OnlyRunsCheck(s, m, pid);
      if m.Run? && m.pid == pid {
        NextPast(key, s.db, s.procs[pid], m.c);
        if ReadsKey(key, s.procs[pid]) {
          assert ms[..|ms| - 1] == init;
        } else {
          ReadEarlier(key, init, pid);
          PrefixOfPrefix(ms, LastRead(key, init, pid).value);
        }
      } else {
        ReadEarlier(key, init, pid);
        PrefixOfPrefix(ms, LastRead(key, init, pid).value);
      }
    }
  }

  lemma PrefixOfPrefix(ms: seq<Move>, k: nat)
    requires ms != [] && k < |ms|
    ensures Before(ms)[..k] == ms[..k]
  {
  }

  lemma RunFrom(ms: seq<Move>, k: nat)
    requires k <= |ms| && IsRun(Init, ms)
    ensures IsRun(Init, ms[..k]) && IsRun(Exec(Init, ms[..k]), ms[k..])
    ensures Exec(Exec(Init, ms[..k]), ms[k..]) == Exec(Init, ms)
  {
    assert ms == ms[..k] + ms[k..];
    ExecConcat(Init, ms[..k], ms[k..]);
  }

  /** Who is about to write, and about which job. */
  function Sender(p: Proc): Option<(Id, Id)> {
    match p
    case SubPartial(saved) => Some((saved.workerId, saved.jobId))
    case SubFinal(worker, result, _, _) => Some((worker, result.jobId))
    case _ => None
  }

  predicate ClaimBy(write: Option<Proc>, worker: Id) {
    write.Some? && write.value.ReqClaim? && write.value.worker == worker
  }

  /** Fencing at this grain, on every run, for a submission about to write. Its check met either an assignment of the
      job, which then named the sender, or none, and then an old copy of the job record named it. In the first case
      the sender is the current holder if and only if nothing has written the assignment since, or a claim by the
      same worker was the last to do so; in the second case, if and only if such a claim was. */
  lemma FencedIff(ms: seq<Move>, pid: nat)
    requires IsRun(Init, ms) && pid in Exec(Init, ms).procs && Sender(Exec(Init, ms).procs[pid]).Some?
    ensures LastRead(HolderKey, ms, pid).Some?
    ensures var (worker, j) := Sender(Exec(Init, ms).procs[pid]).value;
      var k := LastRead(HolderKey, ms, pid).value;
      var read, p0 := Exec(Init, ms[..k]), Reader(ms, k, pid);
      var write := LastWrite(HolderKey, read, ms[k..], j);
      && p0.Some? && p0.value.SubGetHolder? && p0.value.worker == worker && p0.value.result.jobId == j
      && if GetString(read.db.holder, j) != "" then
           && Get(read.db.holder, j) == Some(worker)
           && (Get(Exec(Init, ms).db.holder, j) == Some(worker) <==> write.None? || ClaimBy(write, worker))
         else
           && p0.value.job.assignee == worker
           && (Get(Exec(Init, ms).db.holder, j) == Some(worker) <==> ClaimBy(write, worker))
  {
    ReadEarlier(HolderKey, ms, pid);
    var k := LastRead(HolderKey, ms, pid).value;
    RunFrom(ms, k);
    HolderIs(Exec(Init, ms[..k]), ms[k..], Sender(Exec(Init, ms).procs[pid]).value.1);
  }

  lemma HasRecord(ms: seq<Move>, j: Id)
    requires IsRun(Init, ms)
    ensures j in Exec(Init, ms).db.status ==> j in Exec(Init, ms).db.jobs
  {
    RunKeeps(Init, ms);
    assert JobOk(Exec(Init, ms).db, Exec(Init, ms).submitted, j);
  }

  /** When a job is finalised a second time: on every run, a final submission about to write meets a job that is
      finished already, with whatever contents, if and only if, since it read the job's status as running, a
      finalisation was the last command to write that status. */
  lemma FinalisedAgainIff(ms: seq<Move>, pid: nat)
    requires IsRun(Init, ms) && pid in Exec(Init, ms).procs && Exec(Init, ms).procs[pid].SubFinal?
    ensures LastRead(StatusKey, ms, pid).Some?
    ensures var j := Exec(Init, ms).procs[pid].result.jobId;
      var k := LastRead(StatusKey, ms, pid).value;
      var read := Exec(Init, ms[..k]);
      var write := LastWrite(StatusKey, read, ms[k..], j);
      && Get(read.db.status, j) == Some(Running)
      && (IsFinished(Exec(Init, ms).db, j) <==> write.Some? && write.value.SubFinal?)
  {
    ReadEarlier(StatusKey, ms, pid);
    var k := LastRead(StatusKey, ms, pid).value;
    RunFrom(ms, k);
    var read, j := Exec(Init, ms[..k]), Exec(Init, ms).procs[pid].result.jobId;
    HasRecord(ms[..k], j);
    StatusIs(read, ms[k..], j);
  }

  // ----- evicted workers -----

  predicate Known(db: Db, worker: Id) {
    worker in db.workers || worker in db.records || worker in db.alive
  }

  ghost predicate GivenJob(a: Db, b: Db, worker: Id) {
    exists j :: j in b.holder && b.holder[j] == worker && Get(a.holder, j) != Some(worker)
  }

  /** The commands by which a worker that is gone from the registry comes back or is handed a job. */
  predicate Revives(db: Db, p: Proc, worker: Id) {
    || (p.RegSave? && p.record.id == worker)
    || (p.RegAlive? && p.worker == worker)
    || (p.BeatAlive? && p.worker == worker)
    || (p.BeatSave? && p.record.id == worker)
    || (p.ReqClaim? && p.worker == worker && db.queue != [] && Get(db.holder, db.queue[0]) != Some(worker))
  }

  lemma WriteRevivesIff(db: Db, p: Proc, c: Choice, worker: Id)
    requires !Known(db, worker)
    ensures Known(Written(db, p, c), worker) || GivenJob(db, Written(db, p, c), worker) <==> Revives(db, p, worker)
  {
    if p.ReqClaim? && db.queue != [] { assert Written(db, p, c).holder[db.queue[0]] == p.worker; }
  }

  /** A move brings an evicted worker back, or gives it a job, if and only if its command is one of the five above. */
  lemma EvictedActsIff(s: Sys, m: Move, worker: Id)
    requires Enabled(s, m) && !Known(s.db, worker)
    ensures var t := Apply(s, m);
      Known(t.db, worker) || GivenJob(s.db, t.db, worker) <==>
      Effective(s, m).Some? && Revives(s.db, Effective(s, m).value, worker)
  {
    match m
    case Run(pid, c) => WriteRevivesIff(s.db, s.procs[pid], c, worker);
    case Fail(pid, _, c) => WriteRevivesIff(s.db, s.procs[pid], c, worker);
    case Resend(pid, c) => WriteRevivesIff(s.db, s.procs[pid], c, worker);
    case _ =>
  }

  /** A process of the worker that is past the check of its record. */
  predicate InFlight(p: Proc, worker: Id) {
    match p
    case RegSave(record) => record.id == worker
    case RegAlive(w) => w == worker
    case BeatAlive(w, record) => w == worker || record.id == worker
    case BeatSave(record) => record.id == worker
    case ReqIsAlive(w) => w == worker
    case ReqClaim(w) => w == worker
    case _ => false
  }

  ghost predicate RecordsKeyed(db: Db) {
    forall w :: w in db.records ==> db.records[w].id == w
  }

  ghost predicate Gone(s: Sys, worker: Id) {
    RecordsKeyed(s.db) && !Known(s.db, worker) && forall pid :: pid in s.procs ==> !InFlight(s.procs[pid], worker)
  }

  lemma WriteKeepsKeys(db: Db, p: Proc, c: Choice)
    requires RecordsKeyed(db)
    ensures RecordsKeyed(Written(db, p, c))
  {
  }

  lemma NextNotInFlight(db: Db, p: Proc, c: Choice, worker: Id)
    requires RecordsKeyed(db) && !Known(db, worker) && !InFlight(p, worker)
    ensures !InFlight(Next(db, p, c), worker) && !InFlight(OnError(p), worker) && !InFlight(Again(p, c), worker)
    ensures !Revives(db, p, worker)
  {
  }

  lemma GoneCommand(db: Db, p: Proc, c: Choice, worker: Id)
    requires RecordsKeyed(db) && !Known(db, worker) && !InFlight(p, worker)
    ensures var t := Written(db, p, c); RecordsKeyed(t) && !Known(t, worker) && !GivenJob(db, t, worker)
    ensures !InFlight(Next(db, p, c), worker) && !InFlight(OnError(p), worker) && !InFlight(Again(p, c), worker)
  {
    WriteKeepsKeys(db, p, c);
    NextNotInFlight(db, p, c, worker);
    WriteRevivesIff(db, p, c, worker);
  }

  /** Worker ids are UUIDs: nobody registers under the given one. */
  predicate NotReissued(m: Move, worker: Id) {
    m.Spawn? && m.p.RegSave? ==> m.p.record.id != worker
  }

  lemma GoneStep(s: Sys, m: Move, worker: Id)
    requires Enabled(s, m) && Gone(s, worker) && NotReissued(m, worker)
    ensures Gone(Apply(s, m), worker) && !GivenJob(s.db, Apply(s, m).db, worker)
  {
    match m
    case Run(pid, c) => GoneCommand(s.db, s.procs[pid], c, worker);
    case Fail(pid, _, c) => GoneCommand(s.db, s.procs[pid], c, worker);
    case Resend(pid, c) => GoneCommand(s.db, s.procs[pid], c, worker);
    case _ =>
  }

  lemma NotGivenTransitive(a: Db, b: Db, c: Db, worker: Id)
    requires !GivenJob(a, b, worker) && !GivenJob(b, c, worker)
    ensures !GivenJob(a, c, worker)
  {
    forall j | j in c.holder && c.holder[j] == worker ensures Get(a.holder, j) == Some(worker) {
      assert j in b.holder && b.holder[j] == worker;
    }
  }

  /** An evicted worker with no registration, heartbeat or claim in flight stays out of the registry and is never
      given a job again, on any run. */
  lemma {:induction false} GoneForGood(s: Sys, ms: seq<Move>, worker: Id)
    requires IsRun(s, ms) && Gone(s, worker)
    requires forall i :: 0 <= i < |ms| ==> NotReissued(ms[i], worker)
    ensures Gone(Exec(s, ms), worker) && !GivenJob(s.db, Exec(s, ms).db, worker)
    decreases |ms|
  {
    if ms != [] {
      assert NotReissued(ms[0], worker);
      GoneStep(s, ms[0], worker);
      GoneForGood(Apply(s, ms[0]), ms[1..], worker);
      NotGivenTransitive(s.db, Apply(s, ms[0]).db, Exec(s, ms).db, worker);
    }
  }
}
