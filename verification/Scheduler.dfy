/** coordinator/internal/scheduler/scheduler.go: the worker monitor and round-robin selection. */
module Scheduler {
  import opened Domain
  import opened Store
  import opened Sorting
  import opened Monitor

  /** The order in which one run of checkWorkers sees things: SMEMBERS, and per dead worker the SCAN pages and the
      iteration order of the assignment map. */
  datatype SweepOrder = SweepOrder(
    members: seq<Id>, pages: (Id, set<Id>) -> seq<seq<Id>>, range: (Id, set<Id>) -> seq<Id>)

  ghost predicate FairOrder(o: SweepOrder, workers: set<Id>) {
    && Enumerates(o.members, workers)
    && (forall w, keys :: IsScan(o.pages(w, keys), keys))
    && (forall w, keys :: Enumerates(o.range(w, keys), keys))
  }

  // ----- PickWorker -----

  predicate Fits(db: Db, worker: Id, required: Option<ResourceSpec>) {
    if required.None? || worker !in db.records || db.records[worker].resources.None? then true
    else
      var req, res := required.value, db.records[worker].resources.value;
      res.cpuCores >= req.cpuCores && res.gpuCount >= req.gpuCount && res.memoryMb >= req.memoryMb
  }

  predicate Eligible(db: Db, worker: Id, required: Option<ResourceSpec>) {
    worker in db.alive && Fits(db, worker, required)
  }

  function EligibleOf(db: Db, workers: seq<Id>, required: Option<ResourceSpec>): (r: seq<Id>)
    ensures forall w :: w in r <==> w in workers && Eligible(db, w, required)
    ensures NoDup(workers) ==> NoDup(r)
  {
    if workers == [] then []
    else
      var init := EligibleOf(db, workers[..|workers| - 1], required);
      if Eligible(db, workers[|workers| - 1], required) then init + [workers[|workers| - 1]] else init
  }

  lemma EligibleSnoc(db: Db, workers: seq<Id>, i: nat, required: Option<ResourceSpec>)
    requires i < |workers|
    ensures EligibleOf(db, workers[..i + 1], required) ==
            EligibleOf(db, workers[..i], required) + if Eligible(db, workers[i], required) then [workers[i]] else []
  {
    assert workers[..i + 1][..i] == workers[..i];
  }

  /** The remainder, by repeated subtraction. */
  function Rem(a: nat, n: nat): (r: nat)
    requires n > 0
    ensures r < n
    decreases a
  {
    if a < n then a else Rem(a - n, n)
  }

  lemma TimesAtLeast(n: nat, k: int)
    requires n > 0
    ensures k >= 1 ==> n * k >= n
    ensures k <= -1 ==> n * k + n <= 0
  {
  }

  lemma ModIs(a: nat, n: nat, q: int, r: nat)
    requires n > 0 && a == n * q + r && r < n
    ensures a % n == r
  {
    var k := q - a / n;
    assert a == n * (a / n) + a % n;
    assert n * k == n * q - n * (a / n);
    TimesAtLeast(n, k);
  }

  lemma {:induction false} RemIsMod(a: nat, n: nat)
    requires n > 0
    ensures Rem(a, n) == a % n
    decreases a
  {
    if a >= n {
      RemIsMod(a - n, n);
      var q := (a - n) / n;
      assert n * (q + 1) == n * q + n;
      ModIs(a, n, q + 1, (a - n) % n);
    } else {
      ModIs(a, n, 0, a);
    }
  }

  /** One draw from a fixed list of eligible workers: the picked index and the next cursor. */
  function Draw(next: nat, n: nat): (r: (nat, nat))
    requires n > 0
    ensures r.0 < n && r.1 < n
  {
    (Rem(next, n), Rem(Rem(next, n) + 1, n))
  }

  class Scheduler {
    const redis: Redis
    var nextWorker: nat

    constructor (redis: Redis)
      ensures this.redis == redis && nextWorker == 0
    {
      this.redis := redis;
      nextWorker := 0;
    }

    /** `members` is the reply of SMEMBERS; `required` is None when the job or its resources are nil. */
    method PickWorker(members: seq<Id>, required: Option<ResourceSpec>) returns (picked: Option<Id>)
      requires Enumerates(members, redis.workers)
      modifies this`nextWorker
      ensures var eligible := EligibleOf(redis.View(), Sort(LexLe, members), required);
        if eligible == [] then picked == None && nextWorker == old(nextWorker)
        else
          var d := Draw(old(nextWorker), |eligible|);
          picked == Some(eligible[d.0]) && nextWorker == d.1
    {
      if |members| == 0 {
        return None;
      }
      var workers := Sort(LexLe, members);
      var eligible := FilterEligible(workers, required);
      if |eligible| == 0 {
        return None;
      }
      RemIsMod(nextWorker, |eligible|);
      var idx := nextWorker % |eligible|;
      RemIsMod(idx + 1, |eligible|);
      picked := Some(eligible[idx]);
      nextWorker := (idx + 1) % |eligible|;
    }

    /** The filtering loop of PickWorker. */
    method FilterEligible(workers: seq<Id>, required: Option<ResourceSpec>) returns (eligible: seq<Id>)
      ensures eligible == EligibleOf(redis.View(), workers, required)
    {
      eligible := [];
      for i := 0 to |workers|
        invariant eligible == EligibleOf(redis.View(), workers[..i], required)
      {
        var worker := workers[i];
        EligibleSnoc(redis.View(), workers, i, required);
        if worker !in redis.alive {
          continue;
        }
        if required.None? {
          eligible := eligible + [worker];
          continue;
        }
        if worker !in redis.records || redis.records[worker].resources.None? {
          eligible := eligible + [worker];
          continue;
        }
        var req := required.value;
        var res := redis.records[worker].resources.value;
        if res.cpuCores >= req.cpuCores && res.gpuCount >= req.gpuCount && res.memoryMb >= req.memoryMb {
          eligible := eligible + [worker];
        }
      }
      assert workers[..|workers|] == workers;
    }

    /** One tick of the worker monitor. */
    method CheckWorkers(o: SweepOrder) returns (ghost moved: seq<Id>)
      requires FairOrder(o, redis.workers)
      modifies redis
      ensures SweepOf(old(redis.View()), moved)
      ensures redis.View() == Swept(old(redis.View()), DeadWorkers(old(redis.View())), moved)
    {
      ghost var before := redis.View();
      ghost var dead: set<Id> := {};
      moved := [];
      SweptNothing(before);
      var workers := o.members;
      for i := 0 to |workers|
        invariant dead == set w | w in workers[..i] && w !in before.alive
        invariant Enumerates(moved, StrandedOn(before, dead))
        invariant redis.View() == Swept(before, dead, moved)
      {
        var worker := workers[i];
        assert workers[..i + 1] == workers[..i] + [worker];
        assert worker !in workers[..i];
        if worker in redis.alive {
          continue;
        }
        assert worker !in before.alive;
        var held := set j | j in redis.holder && redis.holder[j] != "";
        var jobs := redis.JobsForWorker(worker, o.pages(worker, redis.holder.Keys), o.range(worker, held));
        moved := RequeueAll(worker, jobs, before, dead, moved);
        redis.RemoveWorker(worker);
        SweptRemove(before, dead, moved, worker);
        dead := dead + {worker};
      }
      assert workers[..|workers|] == workers;
      assert dead == DeadWorkers(before);
    }

    /** The inner loop of checkWorkers. */
    method RequeueAll(worker: Id, jobs: seq<Id>, ghost before: Db, ghost dead: set<Id>, ghost already: seq<Id>)
      returns (ghost moved: seq<Id>)
      requires redis.View() == Swept(before, dead, already)
      requires Enumerates(already, StrandedOn(before, dead)) && worker !in dead
      requires Enumerates(jobs, set j | j in redis.holder && redis.holder[j] != "" && redis.holder[j] == worker)
      modifies redis
      ensures Enumerates(moved, StrandedOn(before, dead + {worker}))
      ensures redis.View() == Swept(before, dead, moved)
    {
      moved := already;
      for k := 0 to |jobs|
        invariant redis.View() == Swept(before, dead, moved)
        invariant NoDup(moved)
        invariant forall j :: j in moved <==> j in already || (j in jobs[..k] && Requeueable(before, j))
      {
        assert jobs[..k + 1] == jobs[..k] + [jobs[k]];
        assert jobs[k] in jobs && jobs[k] !in jobs[..k];
        assert jobs[k] !in already;
        SweptRequeue(before, dead, moved, jobs[k]);
        redis.RequeueRunningJob(jobs[k]);
        if Requeueable(before, jobs[k]) {
          moved := moved + [jobs[k]];
        }
      }
      assert jobs[..|jobs|] == jobs;
    }
  }
}
