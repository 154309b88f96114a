/** Fairness of PickWorker (coordinator/internal/scheduler/scheduler.go) while the eligible workers stay the same. */
module RoundRobin {
  import opened Domain
  import opened Store
  import opened Sorting
  import opened Scheduler

  /** The workers chosen by `k` consecutive picks from the same eligible list, cursor starting at `next`. */
  function Picks(eligible: seq<Id>, next: nat, k: nat): (r: seq<Id>)
    requires eligible != []
    ensures |r| == k
    ensures forall w :: w in r ==> w in eligible
    decreases k
  {
    if k == 0 then []
    else
      var d := Draw(next, |eligible|);
      [eligible[d.0]] + Picks(eligible, d.1, k - 1)
  }

  function Cursor(n: nat, next: nat, k: nat): (r: nat)
    requires n > 0
    ensures k > 0 ==> r < n
    decreases k
  {
    if k == 0 then next else Cursor(n, Draw(next, n).1, k - 1)
  }

  lemma {:induction false} PicksSplit(eligible: seq<Id>, next: nat, a: nat, b: nat)
    requires eligible != []
    ensures Picks(eligible, next, a + b) == Picks(eligible, next, a) + Picks(eligible, Cursor(|eligible|, next, a), b)
    decreases a
  {
    if a > 0 {
      PicksSplit(eligible, Draw(next, |eligible|).1, a - 1, b);
    }
  }

  lemma SmallRem(i: nat, n: nat)
    requires i <= n && n > 0
    ensures Rem(i, n) == if i == n then 0 else i
  {
  }

  function After(i: nat, n: nat): nat {
    if i + 1 == n then 0 else i + 1
  }

  lemma PickNext(eligible: seq<Id>, i: nat, k: nat)
    requires i < |eligible| && k > 0
    ensures Picks(eligible, i, k) == [eligible[i]] + Picks(eligible, After(i, |eligible|), k - 1)
    ensures Cursor(|eligible|, i, k) == Cursor(|eligible|, After(i, |eligible|), k - 1)
  {
    SmallRem(i, |eligible|);
    SmallRem(i + 1, |eligible|);
  }

  lemma {:induction false} StraightRun(eligible: seq<Id>, i: nat, m: nat)
    requires i < |eligible| && i + m <= |eligible|
    ensures Picks(eligible, i, m) == eligible[i..i + m]
    ensures Cursor(|eligible|, i, m) == if i + m == |eligible| && m > 0 then 0 else i + m
    decreases m
  {
    if m > 0 {
      PickNext(eligible, i, m);
      if m > 1 { StraightRun(eligible, i + 1, m - 1); }
    }
  }

  lemma OnlyTheRemainderMatters(eligible: seq<Id>, next: nat, k: nat)
    requires eligible != []
    ensures Picks(eligible, next, k) == Picks(eligible, Rem(next, |eligible|), k)
    ensures k > 0 ==> Cursor(|eligible|, next, k) == Cursor(|eligible|, Rem(next, |eligible|), k)
  {
    SmallRem(Rem(next, |eligible|), |eligible|);
  }

  lemma {:induction false} FirstPart(eligible: seq<Id>, i: nat, a: nat)
    requires i < |eligible| && a == |eligible| - i
    ensures Picks(eligible, i, a) == eligible[i..] && Cursor(|eligible|, i, a) == 0
  {
    StraightRun(eligible, i, a);
    assert eligible[i..i + a] == eligible[i..];
  }

  lemma {:induction false} SecondPart(eligible: seq<Id>, i: nat)
    requires i < |eligible|
    ensures Picks(eligible, 0, i) == eligible[..i] && Cursor(|eligible|, 0, i) == i
  {
    StraightRun(eligible, 0, i);
    assert eligible[0..0 + i] == eligible[..i];
  }

  lemma {:induction false} WindowFrom(eligible: seq<Id>, i: nat, a: nat)
    requires i < |eligible| && a == |eligible| - i
    ensures Picks(eligible, i, a + i) == eligible[i..] + eligible[..i] && Cursor(|eligible|, i, a + i) == i
  {
    PicksSplit(eligible, i, a, i);
    CursorSplit(|eligible|, i, a, i);
    FirstPart(eligible, i, a);
    SecondPart(eligible, i);
  }

  lemma {:induction false} WholeWindow(eligible: seq<Id>, i: nat)
    requires i < |eligible|
    ensures Picks(eligible, i, |eligible|) == eligible[i..] + eligible[..i] && Cursor(|eligible|, i, |eligible|) == i
  {
    var a := |eligible| - i;
    WindowFrom(eligible, i, a);
    assert a + i == |eligible|;
  }

  /** One full window is a rotation of the eligible list, and brings the cursor back. */
  lemma {:induction false} WindowIsRotation(eligible: seq<Id>, next: nat)
    requires eligible != []
    ensures var i := Rem(next, |eligible|);
      Picks(eligible, next, |eligible|) == eligible[i..] + eligible[..i] &&
      Cursor(|eligible|, next, |eligible|) == i
  {
    OnlyTheRemainderMatters(eligible, next, |eligible|);
    WholeWindow(eligible, Rem(next, |eligible|));
  }

  lemma {:induction false} CursorSplit(n: nat, next: nat, a: nat, b: nat)
    requires n > 0
    ensures Cursor(n, next, a + b) == Cursor(n, Cursor(n, next, a), b)
    decreases a
  {
    if a > 0 {
      CursorSplit(n, Draw(next, n).1, a - 1, b);
    }
  }

  /** From any cursor, n consecutive picks over n eligible workers serve each of them exactly as often as it is
      listed. */
  lemma WindowIsPermutation(eligible: seq<Id>, next: nat)
    requires eligible != []
    ensures multiset(Picks(eligible, next, |eligible|)) == multiset(eligible)
  {
    WindowIsRotation(eligible, next);
    var i := Rem(next, |eligible|);
    assert eligible == eligible[..i] + eligible[i..];
  }

  function Count(s: seq<Id>, w: Id): nat {
    multiset(s)[w]
  }

  lemma {:induction false} NoDupCount(s: seq<Id>, w: Id)
    requires NoDup(s)
    ensures Count(s, w) == if w in s then 1 else 0
  {
    if s != [] {
      assert s == [s[0]] + s[1..];
      NoDupCount(s[1..], w);
    }
  }

  lemma CountConcat(a: seq<Id>, b: seq<Id>, w: Id)
    ensures Count(a + b, w) == Count(a, w) + Count(b, w)
  {
  }

  /** The number of full rounds in `k` picks. */
  function Rounds(k: nat, n: nat): nat
    requires n > 0
  {
    if k < n then 0 else 1 + Rounds(k - n, n)
  }

  lemma WindowCount(eligible: seq<Id>, next: nat, w: Id)
    requires NoDup(eligible) && w in eligible
    ensures Count(Picks(eligible, next, |eligible|), w) == 1
  {
    WindowIsPermutation(eligible, next);
    NoDupCount(eligible, w);
  }

  lemma LastRound(eligible: seq<Id>, next: nat, k: nat, rest: nat, w: Id)
    requires NoDup(eligible) && w in eligible && k + rest == |eligible|
    ensures Count(Picks(eligible, next, k), w) <= 1
  {
    WindowCount(eligible, next, w);
    PicksSplit(eligible, next, k, rest);
    CountConcat(Picks(eligible, next, k), Picks(eligible, Cursor(|eligible|, next, k), rest), w);
  }

  lemma RoundSplit(eligible: seq<Id>, next: nat, k: nat)
    requires eligible != [] && k >= |eligible|
    ensures var n := |eligible|;
      Picks(eligible, next, k) == Picks(eligible, next, n) + Picks(eligible, Cursor(n, next, n), k - n)
  {
    PicksSplit(eligible, next, |eligible|, k - |eligible|);
  }

  lemma FullRound(eligible: seq<Id>, next: nat, k: nat, w: Id)
    requires NoDup(eligible) && w in eligible && k >= |eligible|
    ensures var n := |eligible|;
      Count(Picks(eligible, next, k), w) == 1 + Count(Picks(eligible, Cursor(n, next, n), k - n), w)
  {
    var n := |eligible|;
    WindowCount(eligible, next, w);
    RoundSplit(eligible, next, k);
    CountConcat(Picks(eligible, next, n), Picks(eligible, Cursor(n, next, n), k - n), w);
  }

  lemma {:induction false} CountBounds(eligible: seq<Id>, next: nat, k: nat, w: Id)
    requires NoDup(eligible) && w in eligible
    ensures Rounds(k, |eligible|) <= Count(Picks(eligible, next, k), w) <= Rounds(k, |eligible|) + 1
    decreases k
  {
    var n := |eligible|;
    if k < n {
      LastRound(eligible, next, k, n - k, w);
    } else {
      FullRound(eligible, next, k, w);
      CountBounds(eligible, Cursor(n, next, n), k - n, w);
    }
  }

  /** Over any number of picks, from any cursor, two eligible workers are never more than one job apart. */
  lemma Fairness(eligible: seq<Id>, next: nat, k: nat, v: Id, w: Id)
    requires NoDup(eligible) && v in eligible && w in eligible
    ensures -1 <= Count(Picks(eligible, next, k), v) - Count(Picks(eligible, next, k), w) <= 1
  {
    CountBounds(eligible, next, k, v);
    CountBounds(eligible, next, k, w);
  }

  lemma {:induction false} EnumerationsPermute(a: seq<Id>, b: seq<Id>, xs: set<Id>)
    requires Enumerates(a, xs) && Enumerates(b, xs)
    ensures multiset(a) == multiset(b)
  {
    forall w ensures multiset(a)[w] == multiset(b)[w] {
      NoDupCount(a, w);
      NoDupCount(b, w);
    }
  }

  /** The eligible list, and so the pick, does not depend on the order in which SMEMBERS answered. */
  lemma MemberOrderIrrelevant(db: Db, a: seq<Id>, b: seq<Id>, required: Option<ResourceSpec>)
    requires Enumerates(a, db.workers) && Enumerates(b, db.workers)
    ensures EligibleOf(db, Sort(LexLe, a), required) == EligibleOf(db, Sort(LexLe, b), required)
  {
    EnumerationsPermute(a, b, db.workers);
    LexIsTotalPreorder();
    forall x, y | x in a && y in a && LexLe(x, y) && LexLe(y, x) ensures x == y { LexAntisymmetric(x, y); }
    SortForgetsOrder(LexLe, a, b);
  }

  /** The list PickWorker draws from holds each live worker that is not known to lack a requested resource once, and
      nobody else, in the order of their ids. */
  lemma EligibleExactly(db: Db, members: seq<Id>, required: Option<ResourceSpec>)
    requires Enumerates(members, db.workers)
    ensures Enumerates(EligibleOf(db, Sort(LexLe, members), required),
                       set w | w in db.workers && w in db.alive && Fits(db, w, required))
    ensures forall w :: Fits(db, w, required) <==>
      (required.Some? && w in db.records && db.records[w].resources.Some? ==>
         var have, need := db.records[w].resources.value, required.value;
         need.cpuCores <= have.cpuCores && need.gpuCount <= have.gpuCount && need.memoryMb <= have.memoryMb)
    ensures var eligible := EligibleOf(db, Sort(LexLe, members), required);
      forall i, j :: 0 <= i < j < |eligible| ==> Below(eligible[i], eligible[j])
  {
    var sorted := Sort(LexLe, members);
    forall w ensures Count(sorted, w) <= 1 && (w in sorted <==> w in members) {
      NoDupCount(members, w);
      assert w in multiset(sorted) <==> w in multiset(members);
    }
    SingleCountsNoDup(sorted);
    LexIsTotalPreorder();
    SortOrders(LexLe, members);
    EligibleInOrder(db, sorted, required);
    var eligible := EligibleOf(db, sorted, required);
    forall i, j | 0 <= i < j < |eligible| ensures Below(eligible[i], eligible[j]) {
      LexLeIff(eligible[i], eligible[j]);
    }
  }

  lemma {:induction false} EligibleInOrder(db: Db, sorted: seq<Id>, required: Option<ResourceSpec>)
    requires Ordered(LexLe, sorted)
    ensures Ordered(LexLe, EligibleOf(db, sorted, required))
  {
    if sorted != [] {
      var n := |sorted| - 1;
      EligibleInOrder(db, sorted[..n], required);
      forall w | w in EligibleOf(db, sorted[..n], required) ensures LexLe(w, sorted[n]) {
        var k :| 0 <= k < n && sorted[k] == w;
      }
    }
  }

  lemma {:induction false} SingleCountsNoDup(s: seq<Id>)
    requires forall w :: Count(s, w) <= 1
    ensures NoDup(s)
  {
    if s != [] {
      assert s == [s[0]] + s[1..];
      forall w ensures Count(s, w) == Count([s[0]], w) + Count(s[1..], w) { CountConcat([s[0]], s[1..], w); }
      assert s[0] !in s[1..] by { assert Count([s[0]], s[0]) == 1 && Count(s, s[0]) <= 1; }
      SingleCountsNoDup(s[1..]);
    }
  }

  lemma OneMorePick(eligible: seq<Id>, next: nat, k: nat)
    requires eligible != []
    ensures var c := Cursor(|eligible|, next, k);
      && Picks(eligible, next, k + 1) == Picks(eligible, next, k) + [eligible[Draw(c, |eligible|).0]]
      && Cursor(|eligible|, next, k + 1) == Draw(c, |eligible|).1
  {
    var n := |eligible|;
    var c := Cursor(n, next, k);
    PicksSplit(eligible, next, k, 1);
    CursorSplit(n, next, k, 1);
    assert Picks(eligible, c, 1) == [eligible[Draw(c, n).0]] + Picks(eligible, Draw(c, n).1, 0);
    assert Cursor(n, c, 1) == Cursor(n, Draw(c, n).1, 0);
  }

  /** The list PickWorker draws from, after SMEMBERS answered `reply`. */
  ghost predicate DrawsFrom(db: Db, reply: seq<Id>, required: Option<ResourceSpec>, eligible: seq<Id>) {
    eligible == EligibleOf(db, Sort(LexLe, reply), required)
  }

  method PickOnce(scheduler: Scheduler, reply: seq<Id>, required: Option<ResourceSpec>, ghost eligible: seq<Id>)
    returns (picked: Id)
    requires Enumerates(reply, scheduler.redis.workers) && eligible != []
    requires DrawsFrom(scheduler.redis.View(), reply, required, eligible)
    modifies scheduler`nextWorker
    ensures var d := Draw(old(scheduler.nextWorker), |eligible|);
      picked == eligible[d.0] && scheduler.nextWorker == d.1
  {
    var answer := scheduler.PickWorker(reply, required);
    picked := answer.value;
  }

  /** Calling PickWorker again and again on an unchanged database, whatever the order of each SMEMBERS reply, draws
      exactly the sequence that the theorems above are about. */
  method PickRepeatedly(
    scheduler: Scheduler, replies: seq<seq<Id>>, required: Option<ResourceSpec>, ghost eligible: seq<Id>,
    ghost members: seq<Id>)
    returns (picks: seq<Id>)
    requires forall i :: 0 <= i < |replies| ==> Enumerates(replies[i], scheduler.redis.workers)
    requires Enumerates(members, scheduler.redis.workers) && eligible != []
    requires DrawsFrom(scheduler.redis.View(), members, required, eligible)
    modifies scheduler`nextWorker
    ensures picks == Picks(eligible, old(scheduler.nextWorker), |replies|)
  {
    ghost var start, db := scheduler.nextWorker, scheduler.redis.View();
    forall i | 0 <= i < |replies| ensures DrawsFrom(db, replies[i], required, eligible) {
      MemberOrderIrrelevant(db, replies[i], members, required);
    }
    picks := [];
    for i := 0 to |replies|
      invariant picks == Picks(eligible, start, i) && scheduler.nextWorker == Cursor(|eligible|, start, i)
    {
      OneMorePick(eligible, start, i);
      var picked := PickOnce(scheduler, replies[i], required, eligible);
      picks := picks + [picked];
    }
  }
}
