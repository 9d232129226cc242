/** The request allocator of a queue: the counts of allocated requests and the full, congested and
    starved flags derived from them, across allocation, failed allocation, freeing and resizing. */
module Allocator {

  const MIN_RQ := 4

  /** The flags of one direction, BLK_RW_SYNC or BLK_RW_ASYNC. */
  datatype Side = Side(count: int, full: bool, congested: bool, starved: bool)

  /** struct request_list and the queue fields around it. */
  datatype State = State(nr: nat, on: int, off: int, sync: Side, async: Side)

  datatype MayQueue = May | Must | No

  function Get(s: State, d: bool): Side { if d then s.sync else s.async }

  function Set(s: State, d: bool, x: Side): State { if d then s.(sync := x) else s.(async := x) }

  // ---- operations ----

  /** blk_queue_congestion_threshold */
  function OnAt(nr: nat): int {
    var n := nr - nr / 8 + 1;
    if n > nr then nr else n
  }

  function OffAt(nr: nat): int {
    var n := nr - nr / 8 - nr / 16 - 1;
    if n < 1 then 1 else n
  }

  /** The most a direction may hold: half as many again as nr_requests. */
  function Cap(nr: nat): nat { 3 * nr / 2 }

  /** The first half of get_request, under the queue lock: whether a request is taken, and the new
      state.  may is what the I/O scheduler says, batcher whether the caller is a batcher. */
  function Take(s: State, d: bool, may: MayQueue, batcher: bool): (State, bool) {
    var x := Get(s, d);
    if may.No? then (Set(s, d, x.(starved := x.starved || x.count == 0)), false)
    else if x.count + 1 >= s.on && x.count + 1 >= s.nr && x.full && !may.Must? && !batcher then (s, false)
    else
      var y := if x.count + 1 >= s.on then x.(full := x.full || x.count + 1 >= s.nr, congested := true) else x;
      if y.count >= Cap(s.nr) then (Set(s, d, y), false)
      else (Set(s, d, y.(count := y.count + 1, starved := false)), true)
  }

  /** __freed_request */
  function Update(s: State, d: bool): State {
    var x := Get(s, d);
    Set(s, d, x.(congested := x.congested && x.count >= s.off, full := x.full && x.count + 1 > s.nr))
  }

  /** freed_request */
  function Freed(s: State, d: bool): State {
    var s1 := Update(Set(s, d, Get(s, d).(count := Get(s, d).count - 1)), d);
    if Get(s1, !d).starved then Update(s1, !d) else s1
  }

  /** The second half of get_request when no memory was left. */
  function Failed(s: State, d: bool): State {
    var s1 := Freed(s, d);
    var x := Get(s1, d);
    Set(s1, d, x.(starved := x.starved || x.count == 0))
  }

  /** What nr_requests becomes when n is stored: never less than BLKDEV_MIN_RQ. */
  function Limit(n: nat): nat { if n < MIN_RQ then MIN_RQ else n }

  /** queue_requests_store */
  function Resized(s: State, n: nat): State {
    var nr := Limit(n);
    var on, off := OnAt(nr), OffAt(nr);
    State(nr, on, off, Judged(s.sync, nr, on, off), Judged(s.async, nr, on, off))
  }

  function Judged(x: Side, nr: nat, on: int, off: int): Side {
    x.(congested := if x.count >= on then true else if x.count < off then false else x.congested, full := x.count >= nr)
  }

  function Init(n: nat): State {
    var nr := Limit(n);
    State(nr, OnAt(nr), OffAt(nr), Side(0, false, false, false), Side(0, false, false, false))
  }

  // ---- the flags are functions of the counts ----

  /** The thresholds leave room for hysteresis and lie below the limit. */
  lemma Thresholds(nr: nat)
    requires nr >= MIN_RQ
    ensures 1 <= OffAt(nr) < OnAt(nr) <= nr < Cap(nr)
  {
  }

  predicate SideOk(s: State, x: Side) {
    && x.count >= 0
    && (x.full <==> x.count >= s.nr)
    && (x.count >= s.on ==> x.congested)
    && (x.congested ==> x.count >= s.off)
    && (x.starved ==> x.count == 0)
  }

  predicate Inv(s: State) {
    && s.nr >= MIN_RQ && s.on == OnAt(s.nr) && s.off == OffAt(s.nr)
    && SideOk(s, s.sync) && SideOk(s, s.async)
  }

  datatype Event = Allocate(d: bool, may: MayQueue, batcher: bool) | Fail(d: bool) | Free(d: bool) | Resize(n: nat)

  /** Only a request that was taken can fail or be freed. */
  predicate Possible(s: State, e: Event) {
    match e
    case Fail(d) => Get(s, d).count > 0
    case Free(d) => Get(s, d).count > 0
    case _ => true
  }

  function Step(s: State, e: Event): State {
    match e
    case Allocate(d, may, batcher) => Take(s, d, may, batcher).0
    case Fail(d) => Failed(s, d)
    case Free(d) => Freed(s, d)
    case Resize(n) => Resized(s, n)
  }

  lemma TakeKeeps(s: State, d: bool, may: MayQueue, batcher: bool)
    requires Inv(s)
    ensures Inv(Take(s, d, may, batcher).0)
    ensures Take(s, d, may, batcher).1 ==> Get(Take(s, d, may, batcher).0, d).count == Get(s, d).count + 1 <= Cap(s.nr)
    ensures !Take(s, d, may, batcher).1 ==> Get(Take(s, d, may, batcher).0, d).count == Get(s, d).count
  {
    hide OnAt, OffAt;
    Thresholds(s.nr);
  }

  /** Below the limit a request is always given out; above it only to a batcher or when the scheduler
      insists, and never over the cap. */
  lemma TakenIff(s: State, d: bool, may: MayQueue, batcher: bool)
    requires Inv(s)
    ensures Take(s, d, may, batcher).1
            <==> !may.No? && (Get(s, d).count < s.nr || ((may.Must? || batcher) && Get(s, d).count < Cap(s.nr)))
  {
    hide OnAt, OffAt;
    Thresholds(s.nr);
  }

  lemma FreedKeeps(s: State, d: bool)
    requires Inv(s) && Get(s, d).count > 0
    ensures Inv(Freed(s, d)) && Get(Freed(s, d), d).count == Get(s, d).count - 1
  {
    Thresholds(s.nr);
  }

  lemma StepKeepsInv(s: State, e: Event)
    requires Inv(s) && Possible(s, e)
    ensures Inv(Step(s, e))
  {
    hide OnAt, OffAt, Take, Freed;
    match e
    case Allocate(d, may, batcher) => TakeKeeps(s, d, may, batcher);
    case Fail(d) => FreedKeeps(s, d);
    case Free(d) => FreedKeeps(s, d);
    case Resize(n) => Thresholds(Resized(s, n).nr);
  }

  predicate Run(s: State, es: seq<Event>)
    decreases |es|
  {
    es == [] || (Possible(s, es[0]) && Run(Step(s, es[0]), es[1..]))
  }

  function After(s: State, es: seq<Event>): State
    decreases |es|
  {
    if es == [] then s else After(Step(s, es[0]), es[1..])
  }

  lemma {:induction false} RunKeepsInv(s: State, es: seq<Event>)
    requires Inv(s) && Run(s, es)
    ensures Inv(After(s, es))
    decreases |es|
  {
    if es != [] {
      StepKeepsInv(s, es[0]);
      RunKeepsInv(Step(s, es[0]), es[1..]);
    }
  }

  /** In every reachable state full says exactly that the limit is reached, and congested follows the
      count with the hysteresis of the two thresholds. */
  lemma FlagsFollowCounts(n: nat, es: seq<Event>, d: bool)
    requires Run(Init(n), es)
    ensures var s := After(Init(n), es);
            var x := Get(s, d);
            && (x.full <==> x.count >= s.nr)
            && (x.count >= OnAt(s.nr) ==> x.congested) && (x.congested ==> x.count >= OffAt(s.nr))
            && (x.starved ==> x.count == 0)
  {
    Thresholds(Init(n).nr);
    RunKeepsInv(Init(n), es);
  }

  // ---- how many requests there can be ----

  function Max(a: int, b: int): int { if a > b then a else b }

  ghost predicate NoResize(es: seq<Event>) { forall i :: 0 <= i < |es| ==> !es[i].Resize? }

  lemma OneStepCapped(s: State, e: Event, d: bool)
    requires Inv(s) && Possible(s, e) && !e.Resize?
    ensures Step(s, e).nr == s.nr && Get(Step(s, e), d).count <= Max(Cap(s.nr), Get(s, d).count)
  {
  }

  /** While nr_requests is not changed a direction does not get over the cap, or over what it held at
      the start if that was more. */
  lemma {:induction false} CappedWithoutResize(s: State, es: seq<Event>, d: bool)
    requires Inv(s) && Run(s, es) && NoResize(es)
    ensures After(s, es).nr == s.nr && Get(After(s, es), d).count <= Max(Cap(s.nr), Get(s, d).count)
    decreases |es|
  {
    if es != [] {
      StepKeepsInv(s, es[0]);
      OneStepCapped(s, es[0], d);
      CappedWithoutResize(Step(s, es[0]), es[1..], d);
    }
  }

  /** In every run: after its last resize a count stays within the larger of the cap and its value at
      that resize. */
  lemma CappedSinceResize(n: nat, before: seq<Event>, m: nat, es: seq<Event>, d: bool)
    requires Run(Init(n), before) && Run(Resized(After(Init(n), before), m), es) && NoResize(es)
    ensures var s := After(Init(n), before);
            Get(After(Resized(s, m), es), d).count <= Max(Cap(Limit(m)), Get(s, d).count)
  {
    hide OnAt, OffAt;
    Thresholds(Init(n).nr);
    RunKeepsInv(Init(n), before);
    var s := After(Init(n), before);
    StepKeepsInv(s, Resize(m));
    CappedWithoutResize(Resized(s, m), es, d);
  }

  /** The largest nr_requests of a run that starts with `most`. */
  function Peak(most: nat, es: seq<Event>): nat
    decreases |es|
  {
    if es == [] then most
    else Peak(if es[0].Resize? then Max(most, Limit(es[0].n)) else most, es[1..])
  }

  lemma {:induction false} RunBelowPeak(s: State, es: seq<Event>, most: nat, d: bool)
    requires Inv(s) && Run(s, es) && s.nr <= most && Get(s, d).count <= Cap(most)
    ensures Get(After(s, es), d).count <= Cap(Peak(most, es))
    decreases |es|
  {
    if es != [] {
      StepKeepsInv(s, es[0]);
      if !es[0].Resize? {
        OneStepCapped(s, es[0], d);
      }
      RunBelowPeak(Step(s, es[0]), es[1..], if es[0].Resize? then Max(most, Limit(es[0].n)) else most, d);
    }
  }

  /** In every run, resized or not, a direction stays within the cap of the largest nr_requests. */
  lemma EveryRunBelowPeak(n: nat, es: seq<Event>, d: bool)
    requires Run(Init(n), es)
    ensures Get(After(Init(n), es), d).count <= Cap(Peak(Limit(n), es))
  {
    Thresholds(Init(n).nr);
    RunBelowPeak(Init(n), es, Limit(n), d);
  }

  /** Storing n leaves both directions within the new cap exactly when they already are. */
  lemma ResizeCappedIff(s: State, n: nat)
    requires Inv(s)
    ensures (forall d :: Get(Resized(s, n), d).count <= Cap(Resized(s, n).nr))
            <==> s.sync.count <= Cap(Limit(n)) && s.async.count <= Cap(Limit(n))
  {
    hide OnAt, OffAt;
    assert Get(Resized(s, n), true).count == s.sync.count && Get(Resized(s, n), false).count == s.async.count;
  }

  function Allocations(k: nat, d: bool): seq<Event> {
    if k == 0 then [] else [Allocate(d, Must, false)] + Allocations(k - 1, d)
  }

  /** The cap can be reached: that many allocations in a row succeed when the scheduler insists. */
  lemma {:induction false} Fill(s: State, d: bool, k: nat)
    requires Inv(s) && Get(s, d).count + k <= Cap(s.nr)
    ensures Run(s, Allocations(k, d)) && NoResize(Allocations(k, d))
    ensures Get(After(s, Allocations(k, d)), d).count == Get(s, d).count + k
    decreases k
  {
    hide Inv, Take, OnAt, OffAt;
    if k > 0 {
      TakenIff(s, d, Must, false);
      TakeKeeps(s, d, Must, false);
      var s', es := Take(s, d, Must, false).0, Allocations(k, d);
      assert es[0] == Allocate(d, Must, false) && es[1..] == Allocations(k - 1, d);
      TakeKeepsLimit(s, d, Must, false);
      Fill(s', d, k - 1);
    }
  }

  lemma TakeKeepsLimit(s: State, d: bool, may: MayQueue, batcher: bool)
    ensures Take(s, d, may, batcher).0.nr == s.nr
  {
  }

  /** A queue of n requests can be caught above its cap by storing m. */
  ghost predicate Overfull(n: nat, m: nat, d: bool, es: seq<Event>) {
    && Run(Init(n), es) && NoResize(es)
    && var s := Resized(After(Init(n), es), m); Get(s, d).count > Cap(s.nr)
  }

  /** That can happen exactly when the cap shrinks. */
  lemma ResizeBreaksTheCapIff(n: nat, m: nat, d: bool)
    ensures (exists es :: Overfull(n, m, d, es)) <==> Cap(Limit(m)) < Cap(Limit(n))
  {
    hide OnAt, OffAt;
    Thresholds(Init(n).nr);
    if es :| Overfull(n, m, d, es) {
      CappedWithoutResize(Init(n), es, d);
    }
    if Cap(Limit(m)) < Cap(Limit(n)) {
      Fill(Init(n), d, Cap(Limit(n)));
      assert Overfull(n, m, d, Allocations(Cap(Limit(n)), d));
    }
  }

  /** For instance: a queue of 8 with seven requests allocated, set to 4. */
  lemma ResizeBreaksTheCap()
    ensures Overfull(8, 4, true, Allocations(7, true))
  {
    hide OnAt, OffAt;
    Thresholds(8);
    Fill(Init(8), true, 7);
  }

  // ---- the request list of a queue ----

  class RequestList {
    var nr: nat
    var on: int
    var off: int
    var sync: Side
    var async: Side

    function View(): State
      reads this
    {
      State(nr, on, off, sync, async)
    }

    predicate Valid()
      reads this
    {
      Inv(View())
    }

    constructor (n: nat)
      ensures View() == Init(n) && Valid()
    {
      nr := Limit(n);
      sync, async := Side(0, false, false, false), Side(0, false, false, false);
      new;
      Threshold();
      Thresholds(nr);
    }

    function SideOf(d: bool): Side
      reads this
    {
      if d then sync else async
    }

    method Put(d: bool, x: Side)
      modifies this
      ensures View() == Set(old(View()), d, x)
    {
      if d {
        sync := x;
      } else {
        async := x;
      }
    }

    /** blk_queue_congestion_threshold */
    method Threshold()
      modifies this
      ensures View() == old(View()).(on := OnAt(nr), off := OffAt(nr))
    {
      var n: int := nr - nr / 8 + 1;
      if n > nr {
        n := nr;
      }
      on := n;
      n := nr - nr / 8 - nr / 16 - 1;
      if n < 1 {
        n := 1;
      }
      off := n;
    }

    /** get_request up to the point where it drops the lock. */
    method GetRequest(d: bool, may: MayQueue, batcher: bool) returns (taken: bool)
      requires Valid()
      modifies this
      ensures (View(), taken) == Take(old(View()), d, may, batcher) && Valid()
    {
      hide Inv;
      TakeKeeps(View(), d, may, batcher);
      var x := SideOf(d);
      if may == No {
        if x.count == 0 {
          Put(d, x.(starved := true));
        }
        return false;
      }
      if x.count + 1 >= on {
        if x.count + 1 >= nr {
          if !x.full {
            x := x.(full := true);
          } else if may != Must && !batcher {
            return false;
          }
        }
        x := x.(congested := true);
      }
      if x.count >= 3 * nr / 2 {
        Put(d, x);
        return false;
      }
      Put(d, x.(count := x.count + 1, starved := false));
      return true;
    }

    /** __freed_request */
    method Refresh(d: bool)
      modifies this
      ensures View() == Update(old(View()), d)
    {
      var x := SideOf(d);
      if x.count < off {
        x := x.(congested := false);
      }
      if x.count + 1 <= nr {
        x := x.(full := false);
      }
      Put(d, x);
    }

    /** freed_request */
    method FreedRequest(d: bool)
      requires Valid() && SideOf(d).count > 0
      modifies this
      ensures View() == Freed(old(View()), d) && Valid()
    {
      FreedKeeps(View(), d);
      var x := SideOf(d);
      Put(d, x.(count := x.count - 1));
      Refresh(d);
      if SideOf(!d).starved {
        Refresh(!d);
      }
    }

    /** The way out of get_request when the allocation failed. */
    method AllocationFailed(d: bool)
      requires Valid() && SideOf(d).count > 0
      modifies this
      ensures View() == Failed(old(View()), d) && Valid()
    {
      FreedRequest(d);
      if SideOf(d).count == 0 {
        Put(d, SideOf(d).(starved := true));
      }
    }

    /** One direction in queue_requests_store. */
    method Rejudge(d: bool)
      modifies this
      ensures View() == Set(old(View()), d, Judged(Get(old(View()), d), nr, on, off))
    {
      var x := SideOf(d);
      if x.count >= on {
        x := x.(congested := true);
      } else if x.count < off {
        x := x.(congested := false);
      }
      if x.count >= nr {
        x := x.(full := true);
      } else if x.count + 1 <= nr {
        x := x.(full := false);
      }
      Put(d, x);
    }

    /** queue_requests_store */
    method StoreRequests(n: nat)
      requires Valid()
      modifies this
      ensures View() == Resized(old(View()), n) && Valid()
    {
      nr := Limit(n);
      Threshold();
      Thresholds(nr);
      Rejudge(true);
      Rejudge(false);
    }
  }
}
