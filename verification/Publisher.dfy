/** worker/internal/store/redis.go: publishing a result to the coordinator over an unreliable link. */
module Publisher {
  import opened Domain
  import opened Store
  import opened Handlers
  import opened Executor
  import opened Guarantees
  import Protocol

  function StatusToPB(status: TaskStatus): PbStatus {
    match status
    case TaskRunning => StatusRunning
    case TaskCompleted => StatusSucceeded
    case TaskFailed => StatusFailed
    case _ => StatusUnspecified
  }

  function TrimTo(s: string, n: nat): string {
    if n == 0 || |s| <= n then s else s[..n]
  }

  function ToPbResult(r: TaskResult): PbResult {
    PbResult(r.jobId, StatusToPB(r.status), ToInt32(r.exitCode),
             ResultBody(TrimTo(r.stdout, 4096), TrimTo(r.stderr, 4096), r.outputUri, r.outputApiUrl, r.outputPublicUrl,
                        r.outputSizeBytes, r.artifacts), r.finishedAt)
  }

  /** The fate of one call: answered; executed, but the answer was lost; or never executed. */
  datatype Call = Answered | AnswerLost | NeverSent

  /** The network's part in one PublishJobResult: dialling, the first registration, the submission, and the
      re-registration and second submission that follow a NotFound. */
  datatype Link = Link(
    dialOk: bool, register: Call, submit: Call, reRegister: Call, resubmit: Call, uuid: Id, nextUuid: Id, now: int)

  // ----- the coordinator steps that publishing causes -----

  /** An event that publishing `r` may cause. */
  predicate Own(ev: Protocol.Event, r: PbResult) {
    ev.RegisterWorker? || (ev.SubmitResult? && ev.req.result == Some(r))
  }

  /** The log grew from `log` to `log'`, and the new events, all caused by publishing `r`, took the coordinator from
      `s` to `t`; if the ids it handed out were new, they are a run of it. */
  ghost predicate Progress(
    s: Protocol.Sys, log: seq<Protocol.Event>, t: Protocol.Sys, log': seq<Protocol.Event>, r: PbResult, newIds: bool)
  {
    && log <= log' && t == Protocol.Exec(s, log'[|log|..])
    && (newIds ==> Protocol.IsRun(s, log'[|log|..]))
    && forall i :: |log| <= i < |log'| ==> Own(log'[i], r)
  }

  lemma NoProgress(s: Protocol.Sys, log: seq<Protocol.Event>, r: PbResult, newIds: bool)
    ensures Progress(s, log, s, log, r, newIds)
  {
    assert log[|log|..] == [];
  }

  lemma OneEvent(s: Protocol.Sys, log: seq<Protocol.Event>, ev: Protocol.Event, r: PbResult, newIds: bool)
    requires Own(ev, r) && (newIds ==> Protocol.Enabled(s, ev))
    ensures Progress(s, log, Protocol.Apply(s, ev), log + [ev], r, newIds)
  {
    assert (log + [ev])[|log|..] == [ev];
    Protocol.RunOne(s, ev);
  }

  lemma ProgressTransitive(
    a: Protocol.Sys, la: seq<Protocol.Event>, b: Protocol.Sys, lb: seq<Protocol.Event>,
    c: Protocol.Sys, lc: seq<Protocol.Event>, r: PbResult, newIds: bool)
    requires Progress(a, la, b, lb, r, newIds) && Progress(b, lb, c, lc, r, newIds)
    ensures Progress(a, la, c, lc, r, newIds)
  {
    Protocol.RunConcat(a, lb[|la|..], lc[|lb|..]);
    assert lc[|la|..] == lb[|la|..] + lc[|lb|..];
  }

  /** The last thing that publishing `r` did was to have it accepted by the coordinator. */
  ghost predicate EndsAccepted(
    s: Protocol.Sys, log: seq<Protocol.Event>, log': seq<Protocol.Event>, r: PbResult, now: int)
  {
    && |log| < |log'|
    && var before, last := Protocol.Exec(s, log'[|log|..|log'| - 1]), log'[|log'| - 1];
      && last.SubmitResult? && last.req.result == Some(r) && last.now == now
      && SubmitOutcome(before.db, last.req, now).1.Ok?
  }

  lemma AcceptedAtTheEnd(
    s: Protocol.Sys, log: seq<Protocol.Event>, before: Protocol.Sys, log': seq<Protocol.Event>,
    req: SubmitResultRequest, r: PbResult, now: int, newIds: bool)
    requires Progress(s, log, before, log', r, newIds)
    requires req.result == Some(r) && SubmitOutcome(before.db, req, now).1.Ok?
    ensures EndsAccepted(s, log, log' + [Protocol.SubmitResult(req, now)], r, now)
  {
    var all := log' + [Protocol.SubmitResult(req, now)];
    assert all[|log|..|all| - 1] == log'[|log|..];
  }

  // ----- from the worker's result to the client's answer -----

  /** The whole text, or its first 4096 bytes if it is longer. */
  predicate Excerpt(shown: string, whole: string) {
    shown <= whole && |shown| == if |whole| <= 4096 then |whole| else 4096
  }

  /** `p` says what the worker's result `r` says; a missing finishing time is filled in. */
  predicate Conveys(p: PbResult, r: TaskResult, now: int) {
    && p.jobId == r.jobId && p.exitCode == ToInt32(r.exitCode)
    && (p.status == StatusSucceeded <==> r.status == TaskCompleted)
    && (p.status == StatusFailed <==> r.status == TaskFailed)
    && Excerpt(p.body.stdout, r.stdout) && Excerpt(p.body.stderr, r.stderr)
    && p.body.outputUri == r.outputUri && p.body.outputApiUrl == r.outputApiUrl
    && p.body.outputPublicUrl == r.outputPublicUrl && p.body.outputSizeBytes == r.outputSizeBytes
    && p.body.artifacts == r.artifacts
    && p.finishedAt == if r.finishedAt == 0 then now else r.finishedAt
  }

  lemma AcceptedIsCommitted(db: Db, req: SubmitResultRequest, now: int)
    requires Protocol.JobsAgree(db) && SubmitOutcome(db, req, now).1.Ok?
    requires req.result.Some? && (req.result.value.status == StatusSucceeded || req.result.value.status == StatusFailed)
    ensures SubmitVerdict(db, req, now).Commit?
  {
    Protocol.SubmitCases(db, req, now);
  }

  lemma LastStep(s: Protocol.Sys, added: seq<Protocol.Event>)
    requires added != [] && Protocol.IsRun(s, added)
    ensures var first, last := added[..|added| - 1], added[|added| - 1];
      Protocol.IsRun(s, first) && Protocol.Exec(s, added) == Protocol.Apply(Protocol.Exec(s, first), last)
  {
    var first, last := added[..|added| - 1], added[|added| - 1];
    assert added == first + [last];
    Protocol.RunConcat(s, first, [last]);
    Protocol.RunOne(Protocol.Exec(s, first), last);
  }

  lemma AcceptedState(
    s: Protocol.Sys, log: seq<Protocol.Event>, t: Protocol.Sys, log': seq<Protocol.Event>, r: PbResult, now: int)
    returns (before: Protocol.Sys, req: SubmitResultRequest)
    requires Protocol.Inv(s) && Progress(s, log, t, log', r, true) && EndsAccepted(s, log, log', r, now)
    ensures Protocol.Inv(before) && t == Protocol.Apply(before, Protocol.SubmitResult(req, now))
    ensures req.result == Some(r) && SubmitOutcome(before.db, req, now).1.Ok?
  {
    var added, last := log'[|log|..], log'[|log'| - 1];
    var first := added[..|added| - 1];
    assert first == log'[|log|..|log'| - 1] && added[|added| - 1] == last;
    LastStep(s, added);
    Protocol.RunKeeps(s, first);
    before, req := Protocol.Exec(s, first), last.req;
    assert last == Protocol.SubmitResult(req, now);
  }

  lemma Conversion(r: TaskResult, now: int)
    requires r.status == TaskCompleted || r.status == TaskFailed
    ensures Conveys(Dated(ToPbResult(r), now), r, now)
  {
  }

  /** A worker's final result whose publication was accepted is what every later GetJobResult conveys to the client,
      whatever the coordinator, other workers and the monitor do afterwards. */
  lemma ReportReachesClient(
    s: Protocol.Sys, log: seq<Protocol.Event>, t: Protocol.Sys, log': seq<Protocol.Event>, r: TaskResult, now: int,
    evs: seq<Protocol.Event>)
    requires Protocol.Inv(s) && Progress(s, log, t, log', ToPbResult(r), true)
    requires EndsAccepted(s, log, log', ToPbResult(r), now)
    requires r.status == TaskCompleted || r.status == TaskFailed
    requires Protocol.IsRun(t, evs)
    ensures var shown := JobResultQuery(Protocol.Exec(t, evs).db, r.jobId);
      && shown.Ok? && shown.value.available && ClientCompleted(shown.value) && shown.value.result.Some?
      && shown.value.status == shown.value.result.value.status && Conveys(shown.value.result.value, r, now)
  {
    var before, req := AcceptedState(s, log, t, log', ToPbResult(r), now);
    AcceptedIsCommitted(before.db, req, now);
    ResultReachesClient(before, req, now, evs);
    Conversion(r, now);
  }

  /** The UUIDs that the coordinator would hand out are new. */
  predicate NewIds(link: Link, s: Protocol.Sys) {
    && link.uuid != "" && link.uuid !in s.issued && link.nextUuid != "" && link.nextUuid !in s.issued
    && link.uuid != link.nextUuid
  }

  /** Re-registering cannot rescue a result: the coordinator answers NotFound only when it does not know the job (or its
      status), and then it does not accept the result from a new worker either. */
  lemma RetryIsRefused(
    db: Db, req: SubmitResultRequest, uuid: Id, resources: Option<ResourceSpec>, version: string, now: int)
    requires SubmitOutcome(db, req, now).1 == Fail(NotFound) && uuid != req.workerId
    ensures !SubmitOutcome(Register(db, NewWorker(uuid, resources, version, now)), req.(workerId := uuid), now).1.Ok?
  {
    var db' := Register(db, NewWorker(uuid, resources, version, now));
    assert db'.jobs == db.jobs && db'.holder == db.holder && db'.status == db.status;
  }

  /** The worker's connection to the coordinator. */
  class WorkerStore {
    const server: Server
    const version: string
    var connected: bool
    var coordinatorWorkerId: Id
    ghost var events: seq<Protocol.Event>  // what this worker made the coordinator do
    ghost var accepted: seq<PbResult>      // the results whose publication succeeded

    constructor (server: Server, version: string)
      ensures this.server == server && !connected && coordinatorWorkerId == "" && events == [] && accepted == []
    {
      this.server, this.version, connected, coordinatorWorkerId := server, version, false, "";
      events, accepted := [], [];
    }

    /** A RegisterWorker call; on success the new id is cached. `s` is the coordinator when it arrives. */
    method ReRegister(call: Call, uuid: Id, now: int, ghost r: PbResult, ghost s: Protocol.Sys, ghost newIds: bool)
      returns (ok: bool, ghost t: Protocol.Sys)
      requires s.db == server.redis.View() && (newIds ==> uuid != "" && uuid !in s.issued)
      modifies this`coordinatorWorkerId, this`events, server.redis
      ensures ok == (call == Answered && uuid != "")
      ensures coordinatorWorkerId == if ok then uuid else old(coordinatorWorkerId)
      ensures t.db == server.redis.View() && t.issued <= s.issued + {uuid}
      ensures t.db == if call == NeverSent then s.db else Register(s.db, NewWorker(uuid, None, version, now))
      ensures Progress(s, old(events), t, events, r, newIds)
    {
      if call == NeverSent {
        NoProgress(s, events, r, newIds);
        return false, s;
      }
      ghost var ev := Protocol.RegisterWorker(uuid, None, version, now);
      OneEvent(s, events, ev, r, newIds);
      var id := server.RegisterWorker(None, version, uuid, now);
      events, t := events + [ev], Protocol.Apply(s, ev);
      if call == AnswerLost || id == "" {
        return false, t;
      }
      coordinatorWorkerId := id;
      return true, t;
    }

    /** One SubmitResult call; None means that no answer arrived. */
    method Submit(call: Call, r: PbResult, now: int, ghost s: Protocol.Sys, ghost newIds: bool)
      returns (reply: Option<Reply<()>>, ghost t: Protocol.Sys)
      requires s.db == server.redis.View()
      modifies this`events, server.redis
      ensures var outcome := SubmitOutcome(s.db, SubmitResultRequest(coordinatorWorkerId, Some(r)), now);
        && reply == (if call == Answered then Some(outcome.1) else None)
        && t.db == if call == NeverSent then s.db else outcome.0
      ensures reply.Some? ==>
        events == old(events) + [Protocol.SubmitResult(SubmitResultRequest(coordinatorWorkerId, Some(r)), now)]
      ensures t.db == server.redis.View() && t.issued == s.issued
      ensures Progress(s, old(events), t, events, r, newIds)
    {
      if call == NeverSent {
        NoProgress(s, events, r, newIds);
        return None, s;
      }
      var req := SubmitResultRequest(coordinatorWorkerId, Some(r));
      ghost var ev := Protocol.SubmitResult(req, now);
      OneEvent(s, events, ev, r, newIds);
      var answer := server.SubmitResult(req, now);
      events, t := events + [ev], Protocol.Apply(s, ev);
      if call == AnswerLost {
        return None, t;
      }
      return Some(answer), t;
    }

    /** The lazily dialled connection and lazily obtained worker id. */
    method Coordinator(link: Link, ghost r: PbResult, ghost s: Protocol.Sys) returns (ok: bool, ghost t: Protocol.Sys)
      requires s.db == server.redis.View()
      modifies this`connected, this`coordinatorWorkerId, this`events, server.redis
      ensures ok == ((old(connected) || link.dialOk) &&
                     (old(coordinatorWorkerId) != "" || (link.register == Answered && link.uuid != "")))
      ensures ok ==> (
        coordinatorWorkerId == if old(coordinatorWorkerId) != "" then old(coordinatorWorkerId) else link.uuid)
      ensures t.db == server.redis.View() && t.issued <= s.issued + {link.uuid}
      ensures Progress(s, old(events), t, events, r, NewIds(link, s))
    {
      t := s;
      NoProgress(s, events, r, NewIds(link, s));
      if !connected {
        if !link.dialOk {
          return false, s;
        }
        connected := true;
      }
      ok := true;
      if coordinatorWorkerId == "" {
        ok, t := ReRegister(link.register, link.uuid, link.now, r, s, NewIds(link, s));
      }
    }

    /** The second attempt after a NotFound: it never succeeds. */
    method Retry(link: Link, r: PbResult, ghost s: Protocol.Sys, ghost newIds: bool)
      returns (reply: Option<Reply<()>>, ghost t: Protocol.Sys)
      requires s.db == server.redis.View() && (newIds ==> link.nextUuid != "" && link.nextUuid !in s.issued)
      requires link.nextUuid != coordinatorWorkerId
      requires SubmitOutcome(s.db, SubmitResultRequest(coordinatorWorkerId, Some(r)), link.now).1 == Fail(NotFound)
      modifies this`coordinatorWorkerId, this`events, server.redis
      ensures !(reply.Some? && reply.value.Ok?)
      ensures t.db == server.redis.View()
      ensures Progress(s, old(events), t, events, r, newIds)
    {
      ghost var log := events;
      RetryIsRefused(s.db, SubmitResultRequest(coordinatorWorkerId, Some(r)), link.nextUuid, None, version, link.now);
      var ok;
      ghost var middle;
      ok, middle := ReRegister(link.reRegister, link.nextUuid, link.now, r, s, newIds);
      if !ok {
        return None, middle;
      }
      ghost var log' := events;
      reply, t := Submit(link.resubmit, r, link.now, middle, newIds);
      ProgressTransitive(s, log, middle, log', t, events, r, newIds);
    }

    /** PublishJobResult succeeds exactly when the first submission reaches the coordinator, is accepted and is
        answered. `s` and `t` are the coordinator before and after; `worker` is the id the submission carries and
        `before` the coordinator it meets. */
    method PublishJobResult(result: TaskResult, link: Link, ghost s: Protocol.Sys)
      returns (ok: bool, ghost t: Protocol.Sys, ghost worker: Id, ghost before: Protocol.Sys)
      requires s.db == server.redis.View()
      requires link.nextUuid != coordinatorWorkerId && link.nextUuid != link.uuid
      modifies this, server.redis
      ensures worker == if old(coordinatorWorkerId) != "" then old(coordinatorWorkerId) else link.uuid
      ensures ok <==>
        && (old(connected) || link.dialOk)
        && (old(coordinatorWorkerId) != "" || (link.register == Answered && link.uuid != ""))
        && link.submit == Answered
        && SubmitOutcome(before.db, SubmitResultRequest(worker, Some(ToPbResult(result))), link.now).1.Ok?
      ensures t.db == server.redis.View()
      ensures ok ==> (
        t.db == SubmitOutcome(before.db, SubmitResultRequest(worker, Some(ToPbResult(result))), link.now).0)
      ensures accepted == if ok then old(accepted) + [ToPbResult(result)] else old(accepted)
      ensures Progress(s, old(events), t, events, ToPbResult(result), NewIds(link, s))
      ensures ok ==> EndsAccepted(s, old(events), events, ToPbResult(result), link.now)
    {
      var r := ToPbResult(result);
      ghost var log, newIds := events, NewIds(link, s);
      worker := if coordinatorWorkerId != "" then coordinatorWorkerId else link.uuid;
      ok, before := Coordinator(link, r, s);
      t := before;
      if !ok {
        return;
      }
      ghost var log' := events;
      var reply;
      reply, t := Submit(link.submit, r, link.now, before, newIds);
      ProgressTransitive(s, log, before, log', t, events, r, newIds);
      if reply == Some(Fail(NotFound)) {
        ghost var middle, log'' := t, events;
        reply, t := Retry(link, r, middle, newIds);
        ProgressTransitive(s, log, middle, log'', t, events, r, newIds);
      }
      ok := reply.Some? && reply.value.Ok?;
      if ok {
        AcceptedAtTheEnd(s, log, before, log', SubmitResultRequest(worker, Some(r)), r, link.now, newIds);
        accepted := accepted + [r];
      }
    }
  }
}
