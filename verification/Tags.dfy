/** Command tags with a private map of fixed depth: giving out and taking back tags, and putting every
    tagged request back on the queue when the tags are invalidated. */
module Tags {
  import opened Options
  import opened IdSeq

  /** tag is set while the request is tagged; stamp says when it was given its tag. */
  datatype Rq = Rq(sync: bool, tag: Option<nat>, stamp: nat)

  type Rqs = map<Id, Rq>

  /** bits and index are tag_map and tag_index, busy is tag_busy_list and queue the request queue, both
      from the head.  clock counts the tags given out; it and the stamps only record the order. */
  datatype State = State(rqs: Rqs, bits: seq<bool>, index: seq<Option<Id>>, busy: seq<Id>, queue: seq<Id>, clock: nat)

  // ---- operations ----

  /** find_next_zero_bit: the first clear bit at or after i, or the number of bits. */
  function NextZero(bits: seq<bool>, i: nat): (t: nat)
    ensures i <= |bits| ==> i <= t <= |bits|
    ensures i <= |bits| && t < |bits| ==> !bits[t]
    ensures forall j :: i <= j < t && j < |bits| ==> bits[j]
    decreases |bits| - i
  {
    if i >= |bits| then |bits| else if !bits[i] then i else NextZero(bits, i + 1)
  }

  /** The tag blk_queue_start_tag finds; asynchronous requests keep off the lowest quarter. */
  function FreeTag(s: State, sync: bool): nat { NextZero(s.bits, if sync then 0 else |s.bits| / 4) }

  /** blk_queue_start_tag: the new state, and whether a tag was free. */
  function Started(s: State, r: Id): (State, bool) {
    if r !in s.rqs then (s, false)
    else
      var t := FreeTag(s, s.rqs[r].sync);
      if t >= |s.bits| || t >= |s.index| then (s, false)
      else
        (s.(rqs := s.rqs[r := s.rqs[r].(tag := Some(t), stamp := s.clock)], bits := s.bits[t := true],
            index := s.index[t := Some(r)], queue := Minus(s.queue, r), busy := [r] + s.busy, clock := s.clock + 1), true)
  }

  /** blk_queue_end_tag */
  function Ended(s: State, r: Id): State {
    if r in s.rqs && s.rqs[r].tag.Some? && s.rqs[r].tag.value < |s.bits| && s.rqs[r].tag.value < |s.index| then
      var t := s.rqs[r].tag.value;
      s.(rqs := s.rqs[r := s.rqs[r].(tag := None)], bits := s.bits[t := false], index := s.index[t := None],
         busy := Minus(s.busy, r))
    else s
  }

  /** blk_requeue_request.  The request goes to the place the barrier sequence that is running decides;
      when none is, that is the front. */
  function Requeued(s: State, r: Id, place: nat): State {
    var s1 := Ended(s, r);
    if place <= |s1.queue| then s1.(queue := s1.queue[..place] + [r] + s1.queue[place..]) else s1
  }

  /** blk_queue_invalidate_tags with no barrier sequence running: every request on the busy list, from
      its head. */
  function Invalidated(s: State): State
    decreases |s.busy|
  {
    if s.busy == [] then s
    else
      var s1 := Requeued(s, s.busy[0], 0);
      if |s1.busy| < |s.busy| then Invalidated(s1) else s1
  }

  // ---- the invariant ----

  /** A map bit is set iff the entry beside it is a request, and that request carries the tag. */
  ghost predicate MapOk(s: State) {
    && |s.bits| == |s.index|
    && (forall t :: 0 <= t < |s.bits| ==> (s.bits[t] <==> s.index[t].Some?))
    && (forall t :: 0 <= t < |s.index| && s.index[t].Some? ==> Carries(s, s.index[t].value, t))
    && (forall r :: r in s.rqs && s.rqs[r].tag.Some? ==> s.rqs[r].tag.value < |s.index| && s.index[s.rqs[r].tag.value] == Some(r))
  }

  predicate Carries(s: State, r: Id, t: nat) { r in s.rqs && s.rqs[r].tag == Some(t) }

  /** Asynchronous requests leave the lowest quarter alone. */
  ghost predicate QuarterOk(s: State) {
    forall r :: r in s.rqs && s.rqs[r].tag.Some? && !s.rqs[r].sync ==> s.rqs[r].tag.value >= |s.bits| / 4
  }

  function StampOf(s: State, r: Id): int { if r in s.rqs then s.rqs[r].stamp else -1 }

  /** The busy list holds the tagged requests, the last one started first; the queue holds others. */
  ghost predicate ListsOk(s: State) {
    && Distinct(s.busy) && Distinct(s.queue)
    && (forall r :: r in Ids(s.busy) <==> r in s.rqs && s.rqs[r].tag.Some?)
    && (forall r :: r in Ids(s.queue) ==> r in s.rqs && s.rqs[r].tag.None?)
    && (forall i, j :: 0 <= i < j < |s.busy| ==> StampOf(s, s.busy[i]) > StampOf(s, s.busy[j]))
    && (forall i :: 0 <= i < |s.busy| ==> StampOf(s, s.busy[i]) < s.clock)
  }

  ghost predicate Inv(s: State) { MapOk(s) && QuarterOk(s) && ListsOk(s) }

  // ---- every operation keeps it ----

  /** A tag is refused only when every tag the request may have is taken. */
  lemma RefusedIff(s: State, r: Id)
    requires MapOk(s) && r in s.rqs
    ensures Started(s, r).1 <==> exists t :: (if s.rqs[r].sync then 0 else |s.bits| / 4) <= t < |s.bits| && !s.bits[t]
  {
    var t := FreeTag(s, s.rqs[r].sync);
    assert t < |s.bits| ==> !s.bits[t];
  }

  lemma StartedMap(s: State, r: Id)
    requires MapOk(s) && QuarterOk(s) && r in s.rqs && s.rqs[r].tag.None?
    ensures MapOk(Started(s, r).0) && QuarterOk(Started(s, r).0)
  {
    var s', t := Started(s, r).0, FreeTag(s, s.rqs[r].sync);
    if t < |s.bits| {
      assert s.index[t].None?;
      forall j | 0 <= j < |s'.index| && s'.index[j].Some?
        ensures Carries(s', s'.index[j].value, j)
      {
        assert j != t ==> Carries(s, s.index[j].value, j);
      }
    }
  }

  lemma StartedLists(s: State, r: Id)
    requires ListsOk(s) && r in Ids(s.queue)
    ensures ListsOk(Started(s, r).0)
  {
    var s' := Started(s, r).0;
    if s' != s {
      IdsMember(s.queue, r);
      MinusFacts(s.queue, r);
      MinusDistinct(s.queue, r);
      assert r !in Ids(s.busy);
      IdsMember(s.busy, r);
      ConsIds(r, s.busy);
      ConsDistinct(r, s.busy);
      assert forall i :: 0 <= i < |s.busy| ==> s.busy[i] in Ids(s.busy);
      StampsAfter(s, s', r);
    }
  }

  lemma StampsAfter(s: State, s': State, r: Id)
    requires ListsOk(s) && r !in Ids(s.busy) && s'.busy == [r] + s.busy && s'.clock == s.clock + 1
    requires r in s'.rqs && s'.rqs[r].stamp == s.clock && forall x :: x in Ids(s.busy) ==> StampOf(s', x) == StampOf(s, x)
    ensures forall i, j :: 0 <= i < j < |s'.busy| ==> StampOf(s', s'.busy[i]) > StampOf(s', s'.busy[j])
    ensures forall i :: 0 <= i < |s'.busy| ==> StampOf(s', s'.busy[i]) < s'.clock
  {
    hide StampOf;
    assert StampOf(s', r) == s.clock by { StampIs(s', r); }
    forall i | 0 <= i < |s.busy|
      ensures s'.busy[i + 1] == s.busy[i] && StampOf(s', s.busy[i]) == StampOf(s, s.busy[i]) < s.clock
    {
      assert s.busy[i] in Ids(s.busy);
    }
    forall i, j | 0 <= i < j < |s'.busy|
      ensures StampOf(s', s'.busy[i]) > StampOf(s', s'.busy[j])
    {
      assert s'.busy[j] == s.busy[j - 1];
      if i > 0 {
        assert s'.busy[i] == s.busy[i - 1];
      }
    }
    forall i | 0 <= i < |s'.busy|
      ensures StampOf(s', s'.busy[i]) < s'.clock
    {
      if i > 0 {
        assert s'.busy[i] == s.busy[i - 1];
      }
    }
  }

  lemma StampIs(s: State, r: Id)
    requires r in s.rqs
    ensures StampOf(s, r) == s.rqs[r].stamp
  {
  }

  lemma ConsIds(x: Id, q: seq<Id>)
    ensures Ids([x] + q) == {x} + Ids(q)
  {
  }

  lemma ConsDistinct(x: Id, q: seq<Id>)
    requires Distinct(q) && x !in q
    ensures Distinct([x] + q)
  {
  }

  lemma EndedMap(s: State, r: Id)
    requires MapOk(s) && QuarterOk(s) && r in s.rqs && s.rqs[r].tag.Some?
    ensures MapOk(Ended(s, r)) && QuarterOk(Ended(s, r))
  {
    var s', t := Ended(s, r), s.rqs[r].tag.value;
    forall j | 0 <= j < |s'.index| && s'.index[j].Some?
      ensures Carries(s', s'.index[j].value, j)
    {
      assert j != t && Carries(s, s.index[j].value, j);
    }
  }

  lemma EndedLists(s: State, r: Id)
    requires MapOk(s) && ListsOk(s) && r in s.rqs && s.rqs[r].tag.Some?
    ensures ListsOk(Ended(s, r)) && |Ended(s, r).busy| == |s.busy| - 1
  {
    var s' := Ended(s, r);
    assert r in Ids(s.busy);
    IdsMember(s.busy, r);
    MinusFacts(s.busy, r);
    MinusDistinct(s.busy, r);
    StampsLess(s, s', r);
  }

  lemma StampsLess(s: State, s': State, r: Id)
    requires ListsOk(s) && r in s.busy && s'.busy == Minus(s.busy, r) && s'.clock == s.clock
    requires forall x :: StampOf(s', x) == StampOf(s, x)
    ensures forall i, j :: 0 <= i < j < |s'.busy| ==> StampOf(s', s'.busy[i]) > StampOf(s', s'.busy[j])
    ensures forall i :: 0 <= i < |s'.busy| ==> StampOf(s', s'.busy[i]) < s'.clock
  {
    hide StampOf;
    MinusFacts(s.busy, r);
    var k, p := IndexOf(s.busy, r), s'.busy;
    forall i, j | 0 <= i < j < |p|
      ensures StampOf(s', p[i]) > StampOf(s', p[j])
    {
      var i', j' := if i < k then i else i + 1, if j < k then j else j + 1;
      assert p[i] == s.busy[i'] && p[j] == s.busy[j'];
    }
    forall i | 0 <= i < |p|
      ensures StampOf(s', p[i]) < s'.clock
    {
      assert p[i] == s.busy[if i < k then i else i + 1];
    }
  }

  lemma RequeuedKeeps(s: State, r: Id, place: nat)
    requires Inv(s) && r in s.rqs && s.rqs[r].tag.Some? && place <= |s.queue|
    ensures Inv(Requeued(s, r, place)) && |Requeued(s, r, place).busy| == |s.busy| - 1
  {
    hide ListsOk, MapOk, QuarterOk, Ended;
    EndedMap(s, r);
    EndedLists(s, r);
    EndedIs(s, r);
    NotQueued(s, r);
    PlacedKeeps(Ended(s, r), r, place);
  }

  lemma NotQueued(s: State, r: Id)
    requires ListsOk(s) && r in s.rqs && s.rqs[r].tag.Some?
    ensures r !in Ids(s.queue) && r in Ids(s.busy)
  {
  }

  lemma EndedIs(s: State, r: Id)
    requires MapOk(s) && r in s.rqs && s.rqs[r].tag.Some?
    ensures var s' := Ended(s, r);
            s' == s.(rqs := s.rqs[r := s.rqs[r].(tag := None)], bits := s'.bits, index := s'.index, busy := Minus(s.busy, r))
  {
  }

  lemma PlacedKeeps(s: State, r: Id, place: nat)
    requires Inv(s) && r in s.rqs && s.rqs[r].tag.None? && r !in Ids(s.queue) && place <= |s.queue|
    ensures Inv(s.(queue := s.queue[..place] + [r] + s.queue[place..]))
  {
    var s' := s.(queue := s.queue[..place] + [r] + s.queue[place..]);
    IdsMember(s.queue, r);
    InsertedIds(s.queue, place, r);
    InsertDistinct(s.queue, place, r);
    assert MapOk(s') by {
      assert forall t :: 0 <= t < |s.index| && s.index[t].Some? ==> Carries(s, s.index[t].value, t);
    }
    assert forall x :: StampOf(s', x) == StampOf(s, x);
  }

  // ---- invalidating ----

  /** The head of the busy list is requeued. */
  lemma HeadRequeued(s: State)
    requires Inv(s) && s.busy != []
    ensures var s' := Requeued(s, s.busy[0], 0); Inv(s') && s'.busy == s.busy[1..] && s'.queue == [s.busy[0]] + s.queue
    ensures var s' := Requeued(s, s.busy[0], 0); s'.rqs.Keys == s.rqs.Keys && |s'.bits| == |s.bits| && forall x :: StampOf(s', x) == StampOf(s, x)
  {
    hide MapOk, QuarterOk;
    var r := s.busy[0];
    assert r in Ids(s.busy);
    RequeuedKeeps(s, r, 0);
    EndedIs(s, r);
    FirstIndex(s.busy, r, 0);
    SameBits(s, r);
  }

  lemma SameBits(s: State, r: Id)
    ensures |Ended(s, r).bits| == |s.bits|
  {
  }

  /** q is the queue of s with its tagged requests put back in front: the one on the head of the busy
      list, which was started last, right before the old queue, and those further down before it. */
  ghost predicate PutBack(s: State, q: seq<Id>) {
    && |q| == |s.busy| + |s.queue|
    && (forall k :: 0 <= k < |s.busy| ==> q[|s.busy| - 1 - k] == s.busy[k])
    && (forall k :: 0 <= k < |s.queue| ==> q[|s.busy| + k] == s.queue[k])
  }

  /** Every tag is free, and every tagged request is back in front of the old queue. */
  lemma {:induction false} InvalidatedIs(s: State)
    requires Inv(s)
    ensures Inv(Invalidated(s)) && Invalidated(s).busy == [] && PutBack(s, Invalidated(s).queue)
    decreases |s.busy|
  {
    hide MapOk, QuarterOk, ListsOk, Requeued;
    if s.busy != [] {
      HeadRequeued(s);
      var s1 := Requeued(s, s.busy[0], 0);
      InvalidatedIs(s1);
      PutBackOne(s, s1, Invalidated(s1).queue);
    }
  }

  lemma PutBackOne(s: State, s1: State, q: seq<Id>)
    requires s.busy != [] && s1.busy == s.busy[1..] && s1.queue == [s.busy[0]] + s.queue && PutBack(s1, q)
    ensures PutBack(s, q)
  {
    forall k | 0 <= k < |s.busy|
      ensures q[|s.busy| - 1 - k] == s.busy[k]
    {
      if k == 0 {
        assert q[|s1.busy| + 0] == s1.queue[0];
      } else {
        assert q[|s1.busy| - 1 - (k - 1)] == s1.busy[k - 1];
      }
    }
    forall k | 0 <= k < |s.queue|
      ensures q[|s.busy| + k] == s.queue[k]
    {
      assert q[|s1.busy| + (k + 1)] == s1.queue[k + 1];
    }
  }

  lemma TaggedIsBusy(s: State, t: nat)
    requires Inv(s) && t < |s.index| && s.index[t].Some?
    ensures s.busy != []
  {
    assert Carries(s, s.index[t].value, t);
    assert s.index[t].value in Ids(s.busy);
  }

  lemma AllFree(s: State)
    requires Inv(s) && s.busy == []
    ensures (forall t :: 0 <= t < |s.bits| ==> !s.bits[t] && s.index[t].None?) && forall r :: r in s.rqs ==> s.rqs[r].tag.None?
  {
    forall t | 0 <= t < |s.bits|
      ensures !s.bits[t] && s.index[t].None?
    {
      if s.index[t].Some? {
        TaggedIsBusy(s, t);
      }
    }
    forall r | r in s.rqs
      ensures s.rqs[r].tag.None?
    {
      assert r !in Ids(s.busy);
    }
  }

  /** They are put back in the order in which their tags were given out. */
  lemma InStartOrder(s: State, i: nat, j: nat)
    requires Inv(s) && i < j < |s.busy|
    ensures |Invalidated(s).queue| >= |s.busy|
    ensures StampOf(s, Invalidated(s).queue[i]) < StampOf(s, Invalidated(s).queue[j])
  {
    hide Invalidated;
    InvalidatedIs(s);
    var q, n := Invalidated(s).queue, |s.busy| - 1;
    assert q[n - (n - i)] == s.busy[n - i] && q[n - (n - j)] == s.busy[n - j];
  }

  // ---- every run ----

  datatype Event = Submit(r: Id, sync: bool) | Start(r: Id) | Finish(r: Id) | Requeue(r: Id, place: nat) | Invalidate

  predicate Possible(s: State, e: Event) {
    match e
    case Submit(r, _) => r !in s.rqs
    case Start(r) => r in s.queue
    case Finish(r) => r in s.rqs && s.rqs[r].tag.Some?
    case Requeue(r, place) => r in s.rqs && s.rqs[r].tag.Some? && place <= |s.queue|
    case Invalidate => true
  }

  function Step(s: State, e: Event): State {
    match e
    case Submit(r, sync) => s.(rqs := s.rqs[r := Rq(sync, None, 0)], queue := s.queue + [r])
    case Start(r) => Started(s, r).0
    case Finish(r) => var s1 := Ended(s, r); s1.(rqs := s1.rqs - {r})
    case Requeue(r, place) => Requeued(s, r, place)
    case Invalidate => Invalidated(s)
  }

  lemma SubmitKeeps(s: State, r: Id, sync: bool)
    requires Inv(s) && r !in s.rqs
    ensures Inv(Step(s, Submit(r, sync)))
  {
    var s' := Step(s, Submit(r, sync));
    assert forall t :: 0 <= t < |s.index| && s.index[t].Some? ==> Carries(s, s.index[t].value, t) && Carries(s', s.index[t].value, t);
    assert r !in Ids(s.queue) && r !in Ids(s.busy);
    IdsMember(s.queue, r);
    assert s.queue + [r] == s.queue[..|s.queue|] + [r] + s.queue[|s.queue|..];
    InsertDistinct(s.queue, |s.queue|, r);
    InsertedIds(s.queue, |s.queue|, r);
    assert forall i :: 0 <= i < |s.busy| ==> s.busy[i] in Ids(s.busy) && StampOf(s', s.busy[i]) == StampOf(s, s.busy[i]);
  }

  lemma ForgetKeeps(s: State, r: Id)
    requires Inv(s) && r in s.rqs && s.rqs[r].tag.None? && r !in Ids(s.queue)
    ensures Inv(s.(rqs := s.rqs - {r}))
  {
    var s' := s.(rqs := s.rqs - {r});
    assert r !in Ids(s.busy);
    assert forall t :: 0 <= t < |s.index| && s.index[t].Some? ==> Carries(s, s.index[t].value, t) && Carries(s', s.index[t].value, t);
    assert forall i :: 0 <= i < |s.busy| ==> s.busy[i] in Ids(s.busy) && StampOf(s', s.busy[i]) == StampOf(s, s.busy[i]);
  }

  lemma FinishKeeps(s: State, r: Id)
    requires Inv(s) && r in s.rqs && s.rqs[r].tag.Some?
    ensures Inv(Step(s, Finish(r)))
  {
    hide MapOk, QuarterOk, ListsOk;
    EndedMap(s, r);
    EndedLists(s, r);
    EndedIs(s, r);
    NotQueued(s, r);
    ForgetKeeps(Ended(s, r), r);
  }

  lemma StartKeeps(s: State, r: Id)
    requires Inv(s) && r in Ids(s.queue)
    ensures Inv(Started(s, r).0)
  {
    Waits(s, r);
    hide MapOk, QuarterOk, ListsOk, Started;
    StartedMap(s, r);
    StartedLists(s, r);
  }

  lemma Waits(s: State, r: Id)
    requires ListsOk(s) && r in Ids(s.queue)
    ensures r in s.rqs && s.rqs[r].tag.None?
  {
  }

  lemma StepKeepsInv(s: State, e: Event)
    requires Inv(s) && Possible(s, e)
    ensures Inv(Step(s, e))
  {
    hide Inv, Started, Requeued, Invalidated;
    match e
    case Submit(r, sync) => SubmitKeeps(s, r, sync);
    case Start(r) => IdsMember(s.queue, r); StartKeeps(s, r);
    case Finish(r) => FinishKeeps(s, r);
    case Requeue(r, place) => RequeuedKeeps(s, r, place);
    case Invalidate => InvalidatedIs(s);
  }

  predicate Run(s: State, es: seq<Event>)
    decreases |es|
  {
    es == [] || (Possible(s, es[0]) && Run(Step(s, es[0]), es[1..]))
  }

  function After(s: State, es: seq<Event>): State
    decreases |es|
  {
    if es == [] then s else After(Step(s, es[0]), es[1..])
  }

  function Empty(depth: nat): State { State(map[], seq(depth, i => false), seq(depth, i => None), [], [], 0) }

  lemma {:induction false} RunKeepsInv(s: State, es: seq<Event>)
    requires Inv(s) && Run(s, es)
    ensures Inv(After(s, es))
    decreases |es|
  {
    hide Inv, Step, Possible;
    if es != [] {
      StepKeepsInv(s, es[0]);
      RunKeepsInv(Step(s, es[0]), es[1..]);
    }
  }

  /** In every reachable state the map, the index and the requests agree, tags in flight differ, and no
      asynchronous request has a tag in the lowest quarter. */
  lemma EveryRunIsSound(depth: nat, es: seq<Event>)
    requires Run(Empty(depth), es)
    ensures var s := After(Empty(depth), es);
            && |s.bits| == |s.index|
            && (forall t :: 0 <= t < |s.bits| ==>
                (s.bits[t] <==> exists r :: r in s.rqs && s.rqs[r].tag == Some(t) && s.index[t] == Some(r)))
            && (forall r, q :: r in s.rqs && q in s.rqs && r != q && s.rqs[r].tag.Some? ==> s.rqs[r].tag != s.rqs[q].tag)
            && (forall r :: r in s.rqs && s.rqs[r].tag.Some? && !s.rqs[r].sync ==> s.rqs[r].tag.value >= |s.bits| / 4)
  {
    hide Run, After;
    RunKeepsInv(Empty(depth), es);
    var s := After(Empty(depth), es);
    forall t | 0 <= t < |s.bits|
      ensures s.bits[t] <==> exists r :: r in s.rqs && s.rqs[r].tag == Some(t) && s.index[t] == Some(r)
    {
      if s.bits[t] {
        assert Carries(s, s.index[t].value, t);
      }
    }
  }

  // ---- the queue object ----

  class TagQueue {
    var rqs: Rqs
    const bits: array<bool>
    const index: array<Option<Id>>
    var busy: seq<Id>
    var queue: seq<Id>
    var clock: nat

    ghost function View(): State
      reads this, bits, index
    {
      State(rqs, bits[..], index[..], busy, queue, clock)
    }

    ghost predicate Valid()
      reads this, bits, index
    {
      bits.Length == index.Length && Inv(View())
    }

    constructor (depth: nat)
      ensures Valid() && View() == Empty(depth) && fresh(bits) && fresh(index)
    {
      bits := new bool[depth](i => false);
      index := new Option<Id>[depth](i => None);
      rqs, busy, queue, clock := map[], [], [], 0;
      new;
      assert bits[..] == Empty(depth).bits && index[..] == Empty(depth).index;
    }

    /** find_next_zero_bit */
    method FindNextZero(from: nat) returns (t: nat)
      requires from <= bits.Length
      ensures t == NextZero(bits[..], from)
    {
      t := from;
      while t < bits.Length && bits[t]
        invariant from <= t <= bits.Length && NextZero(bits[..], from) == NextZero(bits[..], t)
      {
        t := t + 1;
      }
    }

    /** blk_queue_start_tag; true means that no tag was free. */
    method StartTag(r: Id) returns (refused: bool)
      requires Valid() && r in queue
      modifies this, bits, index
      ensures (View(), !refused) == Started(old(View()), r) && Valid()
    {
      IdsMember(queue, r);
      ghost var s := View();
      Waits(s, r);
      StartKeeps(s, r);
      var depth := bits.Length;
      var t := FindNextZero(if rqs[r].sync then 0 else depth / 4);
      if t >= depth {
        return true;
      }
      hide Inv, NextZero;
      bits[t] := true;
      rqs := rqs[r := rqs[r].(tag := Some(t), stamp := clock)];
      index[t] := Some(r);
      queue := Minus(queue, r);
      busy := [r] + busy;
      clock := clock + 1;
      return false;
    }

    /** blk_queue_end_tag */
    method EndTag(r: Id)
      requires Valid() && r in rqs && rqs[r].tag.Some?
      modifies this, bits, index
      ensures View() == Ended(old(View()), r) && Valid()
    {
      ghost var s := View();
      EndedMap(s, r);
      EndedLists(s, r);
      var t := rqs[r].tag.value;
      assert t < index.Length;
      hide Inv, MapOk, QuarterOk, ListsOk;
      busy := Minus(busy, r);
      rqs := rqs[r := rqs[r].(tag := None)];
      index[t] := None;
      bits[t] := false;
    }

    /** blk_requeue_request, with the place elv_requeue_request finds. */
    method RequeueRequest(r: Id, place: nat)
      requires Valid() && r in rqs && rqs[r].tag.Some? && place <= |queue|
      modifies this, bits, index
      ensures View() == Requeued(old(View()), r, place) && Valid()
    {
      hide Inv;
      RequeuedKeeps(View(), r, place);
      EndTag(r);
      queue := queue[..place] + [r] + queue[place..];
    }

    /** blk_queue_invalidate_tags: every tag is free afterwards, and the tagged requests are back at the
        front of the queue in the order they were started. */
    method InvalidateTags()
      requires Valid()
      modifies this, bits, index
      ensures Valid() && busy == [] && PutBack(old(View()), queue)
      ensures forall t :: 0 <= t < bits.Length ==> !bits[t] && index[t].None?
      ensures forall r :: r in rqs ==> rqs[r].tag.None?
    {
      hide Inv, Requeued;
      ghost var s := View();
      InvalidatedIs(s);
      while busy != []
        invariant Valid() && Invalidated(View()) == Invalidated(s)
        decreases |busy|
      {
        HeadTagged(View());
        HeadRequeued(View());
        RequeueRequest(busy[0], 0);
      }
      AllFree(View());
    }
  }

  lemma HeadTagged(s: State)
    requires Inv(s) && s.busy != []
    ensures s.busy[0] in s.rqs && s.rqs[s.busy[0]].tag.Some?
  {
    assert s.busy[0] in Ids(s.busy);
  }
}
