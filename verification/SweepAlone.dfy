/** The monitor at the grain of single Redis commands: left alone, its commands add up to one sweep. */
module SweepAlone {
  import opened Domain
  import opened Store
  import opened Interleaved
  import opened Monitor

  /** One process running without interference, the environment making the choices `cs`. */
  function AloneWith(db: Db, p: Proc, cs: seq<Choice>): (Db, Proc)
    decreases |cs|
  {
    if cs == [] then (db, p) else AloneWith(Written(db, p, cs[0]), Next(db, p, cs[0]), cs[1..])
  }

  /** The last page of a SCAN is not reached before every key present has been returned. */
  ghost predicate FullScan(db: Db, p: Proc, c: Choice) {
    Possible(db, p, c) && (p.MonMget? && p.last ==> Complete(p.found, p.page, db.holder))
  }

  ghost predicate Complete(found: map<Id, Id>, page: seq<Id>, holder: map<Id, Id>) {
    forall j :: j in holder && holder[j] != "" ==> j in Merge(found, page, holder)
  }

  ghost predicate Plausible(db: Db, p: Proc, cs: seq<Choice>)
    decreases |cs|
  {
    cs == [] || (FullScan(db, p, cs[0]) && Plausible(Written(db, p, cs[0]), Next(db, p, cs[0]), cs[1..]))
  }

  /** `dead` have been evicted, `moved` put back, and the workers `todo` are still to be inspected. */
  ghost predicate Midway(start: Db, db: Db, dead: set<Id>, moved: seq<Id>, todo: seq<Id>) {
    && db == Swept(start, dead, moved) && NoDup(todo) && (forall w :: w in todo ==> w !in dead)
    && DeadWorkers(start) == dead + (set w | w in todo && w !in start.alive)
  }

  /** Of the jobs of the dead worker `todo[0]`, those in `jobs` are still to be looked at. */
  ghost predicate Requeueing(start: Db, dead: set<Id>, moved: seq<Id>, worker: Id, jobs: seq<Id>) {
    && NoDup(moved) && NoDup(jobs) && (forall j :: j in jobs ==> j !in moved)
    && (forall j :: j in StrandedOn(start, dead + {worker}) <==> j in moved || (j in jobs && Requeueable(start, j)))
  }

  ghost predicate Found(found: map<Id, Id>, holder: map<Id, Id>) {
    forall j :: j in found ==> j in holder && holder[j] == found[j] && found[j] != ""
  }

  /** Where a sweep that began in `start` is when its process is at `p`. */
  ghost predicate At(start: Db, db: Db, p: Proc, dead: set<Id>, moved: seq<Id>) {
    match p
    case MonAlive(todo) =>
      todo != [] && Midway(start, db, dead, moved, todo) && Enumerates(moved, StrandedOn(start, dead))
    case MonScan(todo, found) =>
      && todo != [] && Midway(start, db, dead, moved, todo) && Enumerates(moved, StrandedOn(start, dead))
      && todo[0] !in start.alive && Found(found, db.holder)
    case MonMget(todo, found, page, _) =>
      && todo != [] && Midway(start, db, dead, moved, todo) && Enumerates(moved, StrandedOn(start, dead))
      && todo[0] !in start.alive && Found(found, db.holder)
    case MonGetJob(todo, jobs) =>
      && todo != [] && Midway(start, db, dead, moved, todo) && Requeueing(start, dead, moved, todo[0], jobs)
      && jobs != [] && todo[0] !in start.alive
    case MonGetStatus(todo, jobs, job) =>
      && todo != [] && Midway(start, db, dead, moved, todo) && Requeueing(start, dead, moved, todo[0], jobs)
      && jobs != [] && todo[0] !in start.alive && Get(db.jobs, jobs[0]) == Some(job)
    case MonRequeue(todo, jobs, job) =>
      && todo != [] && Midway(start, db, dead, moved, todo) && Requeueing(start, dead, moved, todo[0], jobs)
      && jobs != [] && todo[0] !in start.alive && Get(db.jobs, jobs[0]) == Some(job)
      && Get(db.status, jobs[0]) == Some(Running)
    case MonRemove(todo) =>
      && todo != [] && Midway(start, db, dead, moved, todo) && Requeueing(start, dead, moved, todo[0], [])
      && todo[0] !in start.alive
    case Finished => db == Swept(start, DeadWorkers(start), moved) && SweepOf(start, moved)
    case _ => false
  }

  lemma ListStep(start: Db, c: Choice)
    requires Possible(start, MonList, c)
    ensures At(start, start, Next(start, MonList, c), {}, [])
  {
    SweptNothing(start);
    if c.ids == [] { assert forall w :: w in start.workers ==> w in c.ids; }
  }

  lemma Rest(todo: seq<Id>)
    requires todo != []
    ensures forall w :: w in todo <==> w == todo[0] || w in todo[1..]
    ensures NoDup(todo) ==> todo[0] !in todo[1..] && NoDup(todo[1..])
  {
    assert todo == [todo[0]] + todo[1..];
  }

  /** Going on to the next worker, when the first of `todo` is alive or has just been evicted. */
  lemma NextWorkerStep(start: Db, db: Db, todo: seq<Id>, dead: set<Id>, moved: seq<Id>)
    requires todo != [] && db == Swept(start, dead, moved) && NoDup(todo)
    requires (forall w :: w in todo[1..] ==> w !in dead)
    requires DeadWorkers(start) == dead + (set w | w in todo[1..] && w !in start.alive)
    requires Enumerates(moved, StrandedOn(start, dead))
    ensures At(start, db, NextWorker(todo), dead, moved)
  {
    Rest(todo);
    if |todo| == 1 { assert DeadWorkers(start) == dead; }
  }

  lemma AliveStep(start: Db, db: Db, p: Proc, c: Choice, dead: set<Id>, moved: seq<Id>)
    requires At(start, db, p, dead, moved) && p.MonAlive?
    ensures At(start, db, Next(db, p, c), dead, moved)
  {
    Rest(p.todo);
    if p.todo[0] in db.alive {
      assert (set w | w in p.todo && w !in start.alive) == (set w | w in p.todo[1..] && w !in start.alive);
      NextWorkerStep(start, db, p.todo, dead, moved);
    }
  }

  lemma JobsAreStranded(start: Db, db: Db, dead: set<Id>, moved: seq<Id>, worker: Id, jobs: seq<Id>)
    requires db == Swept(start, dead, moved) && Enumerates(moved, StrandedOn(start, dead)) && worker !in dead
    requires Enumerates(jobs, set j | j in db.holder && db.holder[j] != "" && db.holder[j] == worker)
    ensures Requeueing(start, dead, moved, worker, jobs)
  {
    forall j
      ensures j in jobs <==> j in start.holder && j !in moved && start.holder[j] != "" && start.holder[j] == worker
    {
      assert j in jobs <==> j in db.holder && db.holder[j] != "" && db.holder[j] == worker;
    }
  }

  lemma MgetStep(start: Db, db: Db, p: Proc, c: Choice, dead: set<Id>, moved: seq<Id>)
    requires At(start, db, p, dead, moved) && p.MonMget? && FullScan(db, p, c)
    ensures At(start, db, Next(db, p, c), dead, moved)
  {
    if p.last {
      var all := Merge(p.found, p.page, db.holder);
      assert p.todo[0] in p.todo;
      assert MineIn(all, p.todo[0]) ==
             set j | j in db.holder && db.holder[j] != "" && db.holder[j] == p.todo[0];
      JobsAreStranded(start, db, dead, moved, p.todo[0], c.ids);
    }
  }

  /** Going on to the next job, when the first of `jobs` is not requeueable. */
  lemma NextJobStep(start: Db, db: Db, todo: seq<Id>, jobs: seq<Id>, dead: set<Id>, moved: seq<Id>)
    requires todo != [] && jobs != [] && Midway(start, db, dead, moved, todo) && todo[0] !in start.alive
    requires Requeueing(start, dead, moved, todo[0], jobs) && !Requeueable(start, jobs[0])
    ensures At(start, db, NextJob(todo, jobs[1..]), dead, moved)
  {
    Rest(jobs);
  }

  lemma Untouched(start: Db, db: Db, dead: set<Id>, moved: seq<Id>, j: Id)
    requires db == Swept(start, dead, moved) && j !in moved
    ensures Get(db.status, j) == Get(start.status, j) && Get(db.jobs, j) == Get(start.jobs, j)
  {
  }

  lemma ReadJobStep(start: Db, db: Db, p: Proc, c: Choice, dead: set<Id>, moved: seq<Id>)
    requires At(start, db, p, dead, moved) && (p.MonGetJob? || p.MonGetStatus?)
    ensures At(start, db, Next(db, p, c), dead, moved)
  {
    var j := p.jobs[0];
    assert j in p.jobs;
    Untouched(start, db, dead, moved, j);
    if !Requeueable(start, j) { NextJobStep(start, db, p.todo, p.jobs, dead, moved); }
  }

  lemma MovedOne(start: Db, dead: set<Id>, moved: seq<Id>, worker: Id, jobs: seq<Id>)
    requires jobs != [] && Requeueing(start, dead, moved, worker, jobs) && Requeueable(start, jobs[0])
    ensures Requeueing(start, dead, moved + [jobs[0]], worker, jobs[1..])
  {
    Rest(jobs);
    assert forall j :: j in moved + [jobs[0]] <==> j in moved || j == jobs[0];
  }

  lemma RequeueStep(start: Db, db: Db, p: Proc, c: Choice, dead: set<Id>, moved: seq<Id>)
    requires At(start, db, p, dead, moved) && p.MonRequeue?
    ensures At(start, Written(db, p, c), Next(db, p, c), dead, moved + [p.jobs[0]])
  {
    var j := p.jobs[0];
    assert j in p.jobs;
    Untouched(start, db, dead, moved, j);
    SweptRequeue(start, dead, moved, j);
    assert Written(db, p, c) == RequeuedRunning(db, j);
    MovedOne(start, dead, moved, p.todo[0], p.jobs);
  }

  lemma RemoveStep(start: Db, db: Db, p: Proc, c: Choice, dead: set<Id>, moved: seq<Id>)
    requires At(start, db, p, dead, moved) && p.MonRemove?
    ensures At(start, Written(db, p, c), Next(db, p, c), dead + {p.todo[0]}, moved)
  {
    var w := p.todo[0];
    Rest(p.todo);
    SweptRemove(start, dead, moved, w);
    assert DeadWorkers(start) == dead + {w} + (set v | v in p.todo[1..] && v !in start.alive);
    NextWorkerStep(start, Written(db, p, c), p.todo, dead + {w}, moved);
  }

  lemma MonitorStep(start: Db, db: Db, p: Proc, c: Choice, dead: set<Id>, moved: seq<Id>)
    returns (dead': set<Id>, moved': seq<Id>)
    requires At(start, db, p, dead, moved) && FullScan(db, p, c)
    ensures At(start, Written(db, p, c), Next(db, p, c), dead', moved')
  {
    dead', moved' := dead, moved;
    match p
    case MonAlive(_) => AliveStep(start, db, p, c, dead, moved);
    case MonScan(_, _) =>
    case MonMget(_, _, _, _) => MgetStep(start, db, p, c, dead, moved);
    case MonGetJob(_, _) => ReadJobStep(start, db, p, c, dead, moved);
    case MonGetStatus(_, _, _) => ReadJobStep(start, db, p, c, dead, moved);
    case MonRequeue(_, jobs, _) =>
      RequeueStep(start, db, p, c, dead, moved);
      moved' := moved + [jobs[0]];
    case MonRemove(todo) =>
      RemoveStep(start, db, p, c, dead, moved);
      dead' := dead + {todo[0]};
    case Finished =>
  }

  lemma {:induction false} MonitorRuns(start: Db, db: Db, p: Proc, cs: seq<Choice>, dead: set<Id>, moved: seq<Id>)
    returns (dead': set<Id>, moved': seq<Id>)
    requires At(start, db, p, dead, moved) && Plausible(db, p, cs)
    ensures At(start, AloneWith(db, p, cs).0, AloneWith(db, p, cs).1, dead', moved')
    decreases |cs|
  {
    dead', moved' := dead, moved;
    if cs != [] {
      dead', moved' := MonitorStep(start, db, p, cs[0], dead, moved);
      dead', moved' := MonitorRuns(start, Written(db, p, cs[0]), Next(db, p, cs[0]), cs[1..], dead', moved');
    }
  }

  /** Whatever order, paging and repetition the environment chooses: when the monitor's commands have run to the end
      without interference, they have made exactly one sweep. */
  lemma MonitorAlone(db: Db, cs: seq<Choice>) returns (moved: seq<Id>)
    requires Plausible(db, MonList, cs) && AloneWith(db, MonList, cs).1 == Finished
    ensures SweepOf(db, moved) && AloneWith(db, MonList, cs).0 == Swept(db, DeadWorkers(db), moved)
  {
    ListStep(db, cs[0]);
    var dead;
    dead, moved := MonitorRuns(db, db, Next(db, MonList, cs[0]), cs[1..], {}, []);
  }

  // ----- and they do run to the end -----

  lemma {:induction false} Listing(xs: set<Id>) returns (s: seq<Id>)
    ensures Enumerates(s, xs)
    decreases |xs|
  {
    if xs == {} {
      s := [];
    } else {
      var x :| x in xs;
      s := Listing(xs - {x});
      s := s + [x];
    }
  }

  function Stage(p: Proc): nat {
    match p
    case MonAlive(_) => 4
    case MonScan(_, _) => 3
    case MonMget(_, _, _, _) => 2
    case MonRemove(_) => 0
    case _ => 1
  }

  function JobsLeft(p: Proc): nat {
    match p
    case MonGetJob(_, jobs) => 3 * |jobs|
    case MonGetStatus(_, jobs, _) => 3 * |jobs| - if jobs == [] then 0 else 1
    case MonRequeue(_, jobs, _) => 3 * |jobs| - if jobs == [] then 0 else 2
    case _ => 0
  }

  function Todo(p: Proc): seq<Id> {
    match p
    case MonAlive(todo) => todo
    case MonScan(todo, _) => todo
    case MonMget(todo, _, _, _) => todo
    case MonGetJob(todo, _) => todo
    case MonGetStatus(todo, _, _) => todo
    case MonRequeue(todo, _, _) => todo
    case MonRemove(todo) => todo
    case _ => []
  }

  /** A process of the monitor in the middle of a sweep, just after a one-page SCAN if it is at MGET. */
  ghost predicate Sweeping(db: Db, p: Proc) {
    && Todo(p) != [] && (p.MonMget? ==> p.last && Complete(p.found, p.page, db.holder))
    && (p.MonGetJob? ==> p.jobs != []) && (p.MonGetStatus? ==> p.jobs != []) && (p.MonRequeue? ==> p.jobs != [])
  }

  lemma GoodChoice(db: Db, p: Proc) returns (c: Choice)
    requires Sweeping(db, p)
    ensures FullScan(db, p, c)
    ensures p.MonScan? ==> c.last && Enumerates(c.ids, db.holder.Keys)
  {
    var ids := [];
    if p.MonScan? {
      ids := Listing(db.holder.Keys);
    } else if p.MonMget? {
      ids := Listing(MineIn(Merge(p.found, p.page, db.holder), p.todo[0]));
    }
    c := Choice(ids, true);
  }

  lemma Descends(db: Db, p: Proc, c: Choice)
    requires Sweeping(db, p) && FullScan(db, p, c)
    requires p.MonScan? ==> c.last && Enumerates(c.ids, db.holder.Keys)
    ensures var q := Next(db, p, c);
      && (q == Finished || Sweeping(Written(db, p, c), q))
      && (q == Finished || |Todo(q)| < |Todo(p)| ||
          (|Todo(q)| == |Todo(p)| && (Stage(q) < Stage(p) || (Stage(q) == Stage(p) && JobsLeft(q) < JobsLeft(p)))))
  {
  }

  lemma {:induction false} SweepEnds(db: Db, p: Proc) returns (cs: seq<Choice>)
    requires Sweeping(db, p)
    ensures Plausible(db, p, cs) && AloneWith(db, p, cs).1 == Finished
    decreases |Todo(p)|, Stage(p), JobsLeft(p)
  {
    var c := GoodChoice(db, p);
    Descends(db, p, c);
    var rest: seq<Choice> := [];
    if Next(db, p, c) != Finished {
      rest := SweepEnds(Written(db, p, c), Next(db, p, c));
    }
    cs := [c] + rest;
    assert cs[1..] == rest;
  }

  /** From every database the monitor can run to the end. */
  lemma MonitorFinishes(db: Db) returns (cs: seq<Choice>)
    ensures Plausible(db, MonList, cs) && AloneWith(db, MonList, cs).1 == Finished
  {
    var ids := Listing(db.workers);
    var c := Choice(ids, true);
    var rest: seq<Choice> := [];
    if ids != [] {
      rest := SweepEnds(db, MonAlive(ids));
    }
    cs := [c] + rest;
    assert cs[1..] == rest;
  }
}
