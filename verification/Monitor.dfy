/** The sweep of coordinator/internal/scheduler/scheduler.go (checkWorkers), stated declaratively. */
module Monitor {
  import opened Domain
  import opened Store

  /** RequeueRunningJob would requeue `j`. */
  predicate Requeueable(db: Db, j: Id) {
    j in db.jobs && Get(db.status, j) == Some(Running)
  }

  /** The jobs a sweep must requeue when it finds the workers `dead` without a liveness key. */
  function StrandedOn(db: Db, dead: set<Id>): set<Id> {
    set j | j in db.holder && db.holder[j] != "" && db.holder[j] in dead && Requeueable(db, j)
  }

  function DeadWorkers(db: Db): set<Id> {
    db.workers - db.alive
  }

  /** The snapshot after evicting `dead` and moving `moved`, in that order, back to the queue. */
  function Swept(db: Db, dead: set<Id>, moved: seq<Id>): Db {
    Db(db.queue + moved,
       map j | j in db.status :: if j in moved then Queued else db.status[j],
       map j | j in db.holder && j !in moved :: db.holder[j],
       map j | j in db.jobs :: if j in moved then db.jobs[j].(status := Queued, assignee := "") else db.jobs[j],
       db.results,
       db.workers - dead,
       db.records - dead,
       db.alive - dead)
  }

  /** What one complete sweep may do: some order of the stranded jobs is appended to the queue. */
  ghost predicate SweepOf(db: Db, moved: seq<Id>) {
    Enumerates(moved, StrandedOn(db, DeadWorkers(db)))
  }

  lemma SweptNothing(db: Db)
    ensures Swept(db, {}, []) == db
  {
    var s := Swept(db, {}, []);
    assert s.queue == db.queue && s.status == db.status && s.holder == db.holder;
    assert s.jobs == db.jobs && s.workers == db.workers && s.records == db.records && s.alive == db.alive;
  }

  lemma SweptRequeue(db: Db, dead: set<Id>, moved: seq<Id>, j: Id)
    requires j !in moved
    ensures RequeuedRunning(Swept(db, dead, moved), j) ==
            if Requeueable(db, j) then Swept(db, dead, moved + [j]) else Swept(db, dead, moved)
  {
    var s, t := RequeuedRunning(Swept(db, dead, moved), j), Swept(db, dead, moved + [j]);
    assert forall i :: i in moved + [j] <==> i in moved || i == j;
    if Requeueable(db, j) {
      assert s.queue == t.queue;
      assert s.status == t.status && s.holder == t.holder && s.jobs == t.jobs;
    }
  }

  lemma SweptRemove(db: Db, dead: set<Id>, moved: seq<Id>, worker: Id)
    ensures WorkerRemoved(Swept(db, dead, moved), worker) == Swept(db, dead + {worker}, moved)
  {
    var s, t := WorkerRemoved(Swept(db, dead, moved), worker), Swept(db, dead + {worker}, moved);
    assert s.workers == t.workers && s.alive == t.alive && s.records == t.records;
  }
}
