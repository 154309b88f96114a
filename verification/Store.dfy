/** coordinator/internal/store/redis.go: the Redis keys and the atomic operations on them. */
module Store {
  import opened Domain

  /** A snapshot of every key the coordinator uses. */
  datatype Db = Db(
    queue: seq<Id>,                  // job_queue
    status: map<Id, JobStatus>,      // job_status:<id>
    holder: map<Id, Id>,             // job_worker:<id>
    jobs: map<Id, JobRecord>,        // job:<id>
    results: map<Id, ResultRecord>,  // result:<id>
    workers: set<Id>,                // workers
    records: map<Id, WorkerRecord>,  // worker:<id>
    alive: set<Id>)                  // worker_alive:<id>

  const EmptyDb := Db([], map[], map[], map[], map[], {}, map[], {})

  function Get<T>(m: map<Id, T>, k: Id): Option<T> {
    if k in m then Some(m[k]) else None
  }

  /** A string GET whose missing key reads as "". */
  function GetString(m: map<Id, Id>, k: Id): Id {
    if k in m then m[k] else ""
  }

  // ----- the effect of each MULTI/EXEC block, Lua script or single command -----

  function NextQueued(db: Db): Id {
    if db.queue == [] then "" else db.queue[0]
  }

  function Claimed(db: Db, worker: Id): Db {
    if db.queue == [] then db
    else
      var j := db.queue[0];
      db.(queue := db.queue[1..], status := db.status[j := Running], holder := db.holder[j := worker])
  }

  function WorkerSaved(db: Db, w: WorkerRecord): Db {
    db.(workers := db.workers + {w.id}, records := db.records[w.id := w])
  }

  function MarkedAlive(db: Db, worker: Id): Db {
    db.(alive := db.alive + {worker})
  }

  function WorkerRemoved(db: Db, worker: Id): Db {
    db.(workers := db.workers - {worker}, records := db.records - {worker}, alive := db.alive - {worker})
  }

  function Enqueued(db: Db, job: JobRecord): Db {
    db.(jobs := db.jobs[job.id := job], status := db.status[job.id := Queued], queue := db.queue + [job.id])
  }

  function RequeuedId(db: Db, j: Id): Db {
    db.(status := db.status[j := Queued], holder := db.holder - {j}, queue := db.queue + [j])
  }

  function JobSaved(db: Db, job: JobRecord): Db {
    db.(jobs := db.jobs[job.id := job])
  }

  function ResultSaved(db: Db, r: ResultRecord): Db {
    db.(results := db.results[r.jobId := r])
  }

  function Finalized(db: Db, job: JobRecord, r: ResultRecord, terminal: JobStatus): Db {
    db.(results := db.results[job.id := r],
        status := db.status[job.id := terminal],
        holder := db.holder - {job.id},
        jobs := db.jobs[job.id := job.(status := terminal, assignee := "")])
  }

  /** The write half of RequeueRunningJob, applied to the job record read earlier. */
  function RequeueWritten(db: Db, j: Id, job: JobRecord): Db {
    db.(jobs := db.jobs[j := job.(status := Queued, assignee := "")],
        status := db.status[j := Queued], holder := db.holder - {j}, queue := db.queue + [j])
  }

  function RequeuedRunning(db: Db, j: Id): Db {
    if j in db.jobs && Get(db.status, j) == Some(Running) then RequeueWritten(db, j, db.jobs[j]) else db
  }

  /** The time-to-live of a liveness key runs out. */
  function Expired(db: Db, worker: Id): Db {
    db.(alive := db.alive - {worker})
  }

  /** A SCAN of all keys: every key present throughout is returned at least once, possibly repeated, in any paging. */
  ghost predicate IsScan(pages: seq<seq<Id>>, keys: set<Id>) {
    && (forall p :: 0 <= p < |pages| ==> forall i :: 0 <= i < |pages[p]| ==> pages[p][i] in keys)
    && (forall k :: k in keys ==> exists p :: 0 <= p < |pages| && k in pages[p])
  }

  ghost predicate NoDup<T>(s: seq<T>) {
    forall i, j :: 0 <= i < j < |s| ==> s[i] != s[j]
  }

  /** `s` lists every element of `xs` exactly once. */
  ghost predicate Enumerates<T>(s: seq<T>, xs: set<T>) {
    NoDup(s) && (forall x :: x in s ==> x in xs) && (forall x :: x in xs ==> x in s)
  }

  /** The Redis client. Its fields are the keys; the methods are the operations of redis.go. */
  class Redis {
    var queue: seq<Id>
    var status: map<Id, JobStatus>
    var holder: map<Id, Id>
    var jobs: map<Id, JobRecord>
    var results: map<Id, ResultRecord>
    var workers: set<Id>
    var records: map<Id, WorkerRecord>
    var alive: set<Id>

    function View(): Db
      reads this
    {
      Db(queue, status, holder, jobs, results, workers, records, alive)
    }

    constructor ()
      ensures View() == EmptyDb
    {
      queue, status, holder, jobs, results := [], map[], map[], map[], map[];
      workers, records, alive := {}, map[], {};
    }

    method ClaimNextQueuedJobForWorker(worker: Id) returns (j: Id)
      modifies this
      ensures View() == Claimed(old(View()), worker) && j == NextQueued(old(View()))
    {
      if queue == [] {
        return "";
      }
      j := queue[0];
      queue := queue[1..];
      status := status[j := Running];
      holder := holder[j := worker];
    }

    method SaveWorker(w: WorkerRecord)
      modifies this
      ensures View() == WorkerSaved(old(View()), w)
    {
      workers := workers + {w.id};
      records := records[w.id := w];
    }

    method SetWorkerAlive(worker: Id)
      modifies this
      ensures View() == MarkedAlive(old(View()), worker)
    {
      alive := alive + {worker};
    }

    method RemoveWorker(worker: Id)
      modifies this
      ensures View() == WorkerRemoved(old(View()), worker)
    {
      workers := workers - {worker};
      records := records - {worker};
      alive := alive - {worker};
    }

    method EnqueueJob(job: JobRecord)
      modifies this
      ensures View() == Enqueued(old(View()), job)
    {
      jobs := jobs[job.id := job];
      status := status[job.id := Queued];
      queue := queue + [job.id];
    }

    method RequeueJobID(j: Id)
      modifies this
      ensures View() == RequeuedId(old(View()), j)
    {
      status := status[j := Queued];
      holder := holder - {j};
      queue := queue + [j];
    }

    method SaveJob(job: JobRecord)
      modifies this
      ensures View() == JobSaved(old(View()), job)
    {
      jobs := jobs[job.id := job];
    }

    method SaveResult(r: ResultRecord)
      modifies this
      ensures View() == ResultSaved(old(View()), r)
    {
      results := results[r.jobId := r];
    }

    method FinalizeJobWithResult(job: JobRecord, r: ResultRecord, terminal: JobStatus) returns (ok: bool)
      modifies this
      ensures ok == terminal.Terminal()
      ensures View() == if ok then Finalized(old(View()), job, r, terminal) else old(View())
    {
      if terminal != Completed && terminal != Failed {
        return false;
      }
      var patched := job;
      patched := patched.(status := terminal);
      patched := patched.(assignee := "");
      results := results[job.id := r];
      status := status[job.id := terminal];
      holder := holder - {job.id};
      jobs := jobs[job.id := patched];
      return true;
    }

    method RequeueRunningJob(j: Id)
      modifies this
      ensures View() == RequeuedRunning(old(View()), j)
    {
      if j !in jobs {
        return;
      }
      var job := jobs[j];
      if j !in status || status[j] != Running {
        return;
      }
      job := job.(status := Queued);
      job := job.(assignee := "");
      jobs := jobs[j := job];
      status := status[j := Queued];
      holder := holder - {j};
      queue := queue + [j];
    }

    /** `pages` is what the SCAN cursor yields. MGET reads the value of each key of a page. */
    method ListJobWorkerAssignments(pages: seq<seq<Id>>) returns (assignments: map<Id, Id>)
      requires IsScan(pages, holder.Keys)
      ensures assignments == map j | j in holder && holder[j] != "" :: holder[j]
    {
      assignments := map[];
      for p := 0 to |pages|
        invariant forall j :: j in assignments ==> j in holder && holder[j] != "" && assignments[j] == holder[j]
        invariant forall q :: 0 <= q < p ==> forall j :: j in pages[q] && holder[j] != "" ==> j in assignments
      {
        var keys := pages[p];
        for i := 0 to |keys|
          invariant forall j :: j in assignments ==> j in holder && holder[j] != "" && assignments[j] == holder[j]
          invariant forall q :: 0 <= q < p ==> forall j :: j in pages[q] && holder[j] != "" ==> j in assignments
          invariant forall k :: 0 <= k < i && holder[keys[k]] != "" ==> keys[k] in assignments
        {
          var worker := holder[keys[i]];
          if worker == "" {
            continue;
          }
          assignments := assignments[keys[i] := worker];
        }
      }
    }

    /** `order` is the order in which the Go map is ranged over. */
    method JobsForWorker(worker: Id, pages: seq<seq<Id>>, order: seq<Id>) returns (mine: seq<Id>)
      requires IsScan(pages, holder.Keys)
      requires Enumerates(order, set j | j in holder && holder[j] != "")
      ensures Enumerates(mine, set j | j in holder && holder[j] != "" && holder[j] == worker)
    {
      var assignments := ListJobWorkerAssignments(pages);
      mine := [];
      for i := 0 to |order|
        invariant NoDup(mine)
        invariant forall j :: j in mine <==> j in order[..i] && j in holder && holder[j] == worker
      {
        assert order[..i + 1] == order[..i] + [order[i]];
        assert order[i] in order;
        assert order[i] !in order[..i];
        if assignments[order[i]] == worker {
          mine := mine + [order[i]];
        }
      }
      assert order[..|order|] == order;
    }
  }
}
