/** What registrations and heartbeats are for: a worker that reports in time keeps its place and its jobs. */
module Liveness {
  import opened Domain
  import opened Store
  import opened Handlers
  import opened Monitor
  import opened Protocol
  import opened Guarantees

  /** What the registry knows about one worker. */
  datatype Entry = Entry(member: bool, record: Option<WorkerRecord>, alive: bool)

  function EntryOf(db: Db, w: Id): Entry {
    Entry(w in db.workers, Get(db.records, w), w in db.alive)
  }

  /** A successful registration or heartbeat of `w`. */
  predicate Refreshes(s: Sys, ev: Event, w: Id) {
    (ev.RegisterWorker? && ev.uuid == w) || (ev.Heartbeat? && ev.worker == w && w in s.db.workers)
  }

  /** RegisterWorker makes the worker a live member with a new record, and touches nothing else. */
  lemma RegisterExact(s: Sys, uuid: Id, resources: Option<ResourceSpec>, version: string, now: int)
    requires Inv(s) && Enabled(s, RegisterWorker(uuid, resources, version, now))
    ensures var t := Apply(s, RegisterWorker(uuid, resources, version, now)).db;
      && EntryOf(s.db, uuid) == Entry(false, None, false)
      && EntryOf(t, uuid) == Entry(true, Some(WorkerRecord(uuid, resources, version, now, now)), true)
      && (forall v :: v != uuid ==> EntryOf(t, v) == EntryOf(s.db, v))
      && SameJobs(s.db, t)
  {
  }

  /** A heartbeat of a registered worker leaves it alive, with the new resources and time and everything else in its
      record as before, and touches nothing else; from anyone else it is refused without effect. */
  lemma HeartbeatExact(s: Sys, w: Id, resources: Option<ResourceSpec>, now: int)
    requires Inv(s)
    ensures var (t, reply) := HeartbeatOutcome(s.db, w, resources, now);
      && t == Apply(s, Heartbeat(w, resources, now)).db
      && (w in s.db.workers ==>
            && reply == Ok(()) && w in s.db.records
            && EntryOf(t, w) == Entry(true, Some(WorkerRecord(
                 w, resources, s.db.records[w].version, s.db.records[w].registeredAt, now)), true)
            && (forall v :: v != w ==> EntryOf(t, v) == EntryOf(s.db, v))
            && SameJobs(s.db, t))
      && (w !in s.db.workers ==> t == s.db && reply == Fail(if w == "" then InvalidArgument else NotFound))
  {
  }

  /** Nothing but a sweep or the worker's own registration, heartbeat or expiry changes what is known about it. */
  lemma OthersLeaveAlone(s: Sys, ev: Event, w: Id)
    requires Inv(s) && Enabled(s, ev) && !Refreshes(s, ev, w) && ev != Expire(w)
    ensures EntryOf(Apply(s, ev).db, w) ==
      if ev.Sweep? && w !in s.db.alive then Entry(false, None, false) else EntryOf(s.db, w)
  {
    match ev
    case RequestJob(v) => RequestCases(s.db, v);
    case SubmitResult(req, now) => SubmitCases(s.db, req, now);
    case Sweep(moved) => SweptEntry(s.db, moved, w);
    case _ =>
  }

  lemma SweptEntry(db: Db, moved: seq<Id>, w: Id)
    requires WorkersAgree(db)
    ensures EntryOf(Swept(db, DeadWorkers(db), moved), w) ==
      if w in db.alive then EntryOf(db, w) else Entry(false, None, false)
  {
  }

  /** One step: alive afterwards is who just reported, or was alive and has not expired. */
  lemma AliveStepIff(s: Sys, ev: Event, w: Id)
    requires Inv(s) && Enabled(s, ev)
    ensures w in Apply(s, ev).db.alive <==> Refreshes(s, ev, w) || (w in s.db.alive && ev != Expire(w))
  {
    if ev == Expire(w) {
    } else if !Refreshes(s, ev, w) {
      OthersLeaveAlone(s, ev, w);
      assert EntryOf(Apply(s, ev).db, w).alive <==> EntryOf(s.db, w).alive;
    }
  }

  /** Position `k` of the run is a successful report of `w`, and the key does not run out after it. */
  ghost predicate ReportsLast(s: Sys, evs: seq<Event>, k: nat, w: Id) {
    k < |evs| && Refreshes(Exec(s, evs[..k]), evs[k], w) && Expire(w) !in evs[k + 1..]
  }

  lemma ReportsLater(s: Sys, evs: seq<Event>, w: Id, k: nat)
    requires evs != []
    ensures ReportsLast(s, evs, k + 1, w) <==> ReportsLast(Apply(s, evs[0]), evs[1..], k, w)
  {
    if k + 1 < |evs| {
      assert evs[..k + 1][0] == evs[0] && evs[..k + 1][1..] == evs[1..][..k];
      assert evs[k + 2..] == evs[1..][k + 1..];
    }
  }

  lemma ReportsFirst(s: Sys, evs: seq<Event>, w: Id)
    requires evs != []
    ensures ReportsLast(s, evs, 0, w) <==> Refreshes(s, evs[0], w) && Expire(w) !in evs[1..]
  {
    assert evs[..0] == [];
  }

  /** On every run a worker is alive at the end if and only if it was alive to begin with and its key never ran out, or
      it reported successfully and its key has not run out since. */
  lemma {:induction false} AliveIff(s: Sys, evs: seq<Event>, w: Id)
    requires Inv(s) && IsRun(s, evs)
    ensures w in Exec(s, evs).db.alive <==>
      (w in s.db.alive && Expire(w) !in evs) || exists k: nat :: ReportsLast(s, evs, k, w)
    decreases |evs|
  {
    if evs != [] {
      var t, rest := Apply(s, evs[0]), evs[1..];
      assert evs == [evs[0]] + rest;
      AliveStepIff(s, evs[0], w);
      Keeps(s, evs[0]);
      AliveIff(t, rest, w);
      ReportsFirst(s, evs, w);
      if k: nat :| ReportsLast(t, rest, k, w) { ReportsLater(s, evs, w, k); }
      if k: nat :| ReportsLast(s, evs, k, w) {
        if k > 0 { ReportsLater(s, evs, w, k - 1); }
      }
    }
  }

  // ----- a live worker keeps its jobs -----

  /** `w` submits a result for `j`. */
  predicate Answers(ev: Event, w: Id, j: Id) {
    ev.SubmitResult? && ev.req.workerId == w && ev.req.result.Some? && ev.req.result.value.jobId == j
  }

  lemma LiveHolderStep(s: Sys, ev: Event, w: Id, j: Id)
    requires Inv(s) && Enabled(s, ev) && w in s.db.alive && ev != Expire(w) && !Answers(ev, w, j)
    requires StateOf(s.db, j) == Some(Held(w))
    ensures StateOf(Apply(s, ev).db, j) == Some(Held(w))
    ensures ev.Sweep? ==> j !in ev.moved
  {
    assert JobInv(s.db, j);
    match ev
    case RequestJob(v) => HeldThroughRequest(s.db, v, w, j);
    case SubmitResult(req, now) => HeldThroughSubmit(s.db, req, now, w, j);
    case SubmitJob(uuid, spec, now) =>
    case Sweep(moved) =>
      StrandedAreHeldByDead(s.db, j);
      SweptState(s.db, moved, j);
    case _ =>
  }

  lemma HeldThroughRequest(db: Db, v: Id, w: Id, j: Id)
    requires JobsAgree(db) && WorkersAgree(db) && StateOf(db, j) == Some(Held(w)) && j in db.jobs
    ensures StateOf(RequestOutcome(db, v).0, j) == Some(Held(w))
  {
    RequestCases(db, v);
    if v in db.records && v in db.alive && db.queue != [] {
      ClaimAgrees(db, v);
      StateKept(db, HeadClaimed(db, v), j);
    }
  }

  lemma HeldThroughSubmit(db: Db, req: SubmitResultRequest, now: int, w: Id, j: Id)
    requires JobsAgree(db) && StateOf(db, j) == Some(Held(w)) && j in db.jobs
    requires !Answers(SubmitResult(req, now), w, j)
    ensures StateOf(SubmitOutcome(db, req, now).0, j) == Some(Held(w))
  {
    SubmitCases(db, req, now);
    var v := SubmitVerdict(db, req, now);
    if v.Commit? {
      CommitAgrees(db, req.result.value.jobId, v.record, v.terminal);
      StateKept(db, SubmitOutcome(db, req, now).0, j);
    } else if v.StorePartial? {
      PartialAgrees(db, req.result.value.jobId, v.record);
      StateKept(db, SubmitOutcome(db, req, now).0, j);
    }
  }

  /** As long as the key of a live worker does not run out, the worker stays registered, no sweep counts it as dead, and
      a job that it holds stays with it until it submits a result for it. */
  lemma {:induction false} LiveWorkerKeepsJob(s: Sys, evs: seq<Event>, w: Id, j: Id)
    requires Inv(s) && IsRun(s, evs) && w in s.db.alive && Expire(w) !in evs
    requires StateOf(s.db, j) == Some(Held(w)) && forall k :: 0 <= k < |evs| ==> !Answers(evs[k], w, j)
    ensures StateOf(Exec(s, evs).db, j) == Some(Held(w))
    ensures forall k :: 0 <= k < |evs| && evs[k].Sweep? ==> j !in evs[k].moved
    decreases |evs|
  {
    if evs != [] {
      assert evs == [evs[0]] + evs[1..];
      LiveHolderStep(s, evs[0], w, j);
      AliveStepIff(s, evs[0], w);
      Keeps(s, evs[0]);
      LiveWorkerKeepsJob(Apply(s, evs[0]), evs[1..], w, j);
    }
  }

  lemma {:induction false} PrefixIsRun(s: Sys, evs: seq<Event>, k: nat)
    requires IsRun(s, evs) && k <= |evs|
    ensures IsRun(s, evs[..k]) && IsRun(Exec(s, evs[..k]), evs[k..])
    ensures Exec(Exec(s, evs[..k]), evs[k..]) == Exec(s, evs)
  {
    assert evs == evs[..k] + evs[k..];
    RunConcat(s, evs[..k], evs[k..]);
  }

  /** A worker that reported successfully and whose key has not run out since: at every later point it is alive and
      registered, no sweep counts it as dead, and no sweep takes a job from it. */
  lemma ReportProtects(s: Sys, ev: Event, evs: seq<Event>, w: Id, k: nat)
    requires Inv(s) && Enabled(s, ev) && Refreshes(s, ev, w)
    requires IsRun(Apply(s, ev), evs) && Expire(w) !in evs && k <= |evs|
    ensures var t := Exec(Apply(s, ev), evs[..k]);
      && w in t.db.alive && w in t.db.workers && w in t.db.records && w !in DeadWorkers(t.db) && w !in t.evicted
      && (k < |evs| && evs[k].Sweep? ==> forall j :: j in evs[k].moved ==> StateOf(t.db, j) != Some(Held(w)))
  {
    var first := Apply(s, ev);
    AliveStepIff(s, ev, w);
    Keeps(s, ev);
    PrefixIsRun(first, evs, k);
    AliveIff(first, evs[..k], w);
    RunKeeps(first, evs[..k]);
    if k < |evs| && evs[k].Sweep? {
      assert evs[k..][0] == evs[k];
      NothingTaken(Exec(first, evs[..k]), evs[k].moved, w);
    }
  }

  lemma NothingTaken(t: Sys, moved: seq<Id>, w: Id)
    requires Inv(t) && SweepOf(t.db, moved) && w in t.db.alive
    ensures forall j :: j in moved ==> StateOf(t.db, j) != Some(Held(w))
  {
    forall j | j in moved ensures StateOf(t.db, j) != Some(Held(w)) { StrandedAreHeldByDead(t.db, j); }
  }
}
