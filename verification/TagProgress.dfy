/** Barrier sequences on queues ordered by tags.  They go on as soon as nothing is in flight, with one
    exception: the drain of an empty barrier whose last request in flight was a stray one and went back
    to the queue.  The stray request waits for the end of the drain, and only the completion of another
    request would find that the drain is over. */
module TagProgress {

  import opened Options
  import opened Barrier
  import BarrierProgress
  import opened TagDrain
  import opened TagHistory

  // ---- how the queue is ordered ----

  /** No stage of the running sequence is behind a queued barrier. */
  ghost predicate StagesFirst(s: State) {
    forall i, k {:trigger FsBarrier(s.queue[k]), s.queue[i].kind} ::
      0 <= k < i < |s.queue| && FsBarrier(s.queue[k]) ==> !IsStage(s.queue[i].kind)
  }

  predicate Behind(q: seq<Req>, i: nat) { exists k :: 0 <= k < i && k < |q| && FsBarrier(q[k]) }

  /** Not handed out yet: behind a queued barrier, or newer than the barrier whose drain is running. */
  predicate Unissued(s: State, i: nat)
    requires i < |s.queue|
  {
    s.queue[i].kind.Fs? && (Behind(s.queue, i) || (OnlyDrain(s) && s.orig.value.id < s.queue[i].id))
  }

  /** Such requests are where they arrived, and have the colour of their place. */
  ghost predicate InPlace(s: State, c: seq<bool>) {
    |c| == |s.queue| + 1 && forall i :: 0 <= i < |s.queue| && Unissued(s, i) ==> s.queue[i].color == c[i] && s.queue[i] !in s.started
  }

  /** What is in flight during a drain is older than its barrier. */
  ghost predicate FlightOlder(s: State) { OnlyDrain(s) ==> forall r :: r in s.flight && r.kind.Fs? ==> r.id < s.orig.value.id }

  ghost predicate Order(s: State) {
    && Separated(s) && StagesFirst(s) && BarrierProgress.SpecialsAreSoft(s)
    && InPlace(s, Colors(s.queue, s.color)) && FlightOlder(s)
  }

  // ---- inserting ----

  lemma BehindInserted(q: seq<Req>, i: nat, r: Req, q': seq<Req>, j: nat)
    requires Inserted(q, i, r, q') && !FsBarrier(r) && j < |q'|
    ensures j <= i ==> (Behind(q', j) <==> Behind(q, j))
    ensures j > i ==> (Behind(q', j) <==> Behind(q, j - 1))
  {
    if k :| 0 <= k < j && FsBarrier(q'[k]) {
      assert q'[k] == q[if k < i then k else k - 1];
    }
    if j <= i {
      if k :| 0 <= k < j && FsBarrier(q[k]) {
        assert q'[k] == q[k];
      }
    } else if k :| 0 <= k < j - 1 && FsBarrier(q[k]) {
      assert q'[if k < i then k else k + 1] == q[k];
    }
  }

  lemma InsertInPlace(s: State, i: nat, r: Req, s': State)
    requires InPlace(s, Colors(s.queue, s.color)) && i <= |s.queue| && s'.queue == InsertAt(s.queue, i, r) && !FsBarrier(r)
    requires s'.color == s.color && s'.orig == s.orig && s'.ordered == s.ordered && s'.started <= s.started && r !in s'.started
    requires r.kind.Fs? && (Behind(s.queue, i) || (OnlyDrain(s) && s.orig.value.id < r.id)) ==> r.color == Colors(s.queue, s.color)[i]
    ensures InPlace(s', Colors(s'.queue, s'.color))
  {
    hide Colors, InsertAt, Behind;
    InsertColors(s.queue, i, r, s.color);
    InsertAtInserts(s.queue, i, r);
    var c, c' := Colors(s.queue, s.color), Colors(s'.queue, s'.color);
    forall j | 0 <= j < |s'.queue| && Unissued(s', j)
      ensures s'.queue[j].color == c'[j] && s'.queue[j] !in s'.started
    {
      BehindInserted(s.queue, i, r, s'.queue, j);
      if j < i {
        assert Unissued(s, j);
      } else if j > i {
        assert Unissued(s, j - 1);
      }
    }
  }

  lemma InsertStages(s: State, i: nat, r: Req, s': State)
    requires StagesFirst(s) && Inserted(s.queue, i, r, s'.queue)
    requires IsStage(r.kind) ==> forall k :: 0 <= k < i ==> !FsBarrier(s.queue[k])
    requires FsBarrier(r) ==> i == |s.queue|
    ensures StagesFirst(s')
  {
  }

  lemma InsertOrder(s: State, i: nat, r: Req, s': State)
    requires Order(s) && i <= |s.queue| && s'.queue == InsertAt(s.queue, i, r) && !FsBarrier(r) && FitsBarriers(s, i, r)
    requires s'.color == s.color && s'.orig == s.orig && s'.ordered == s.ordered && s'.started <= s.started && r !in s'.started
    requires s'.held <= s.held && s'.flight <= s.flight && s.soft <= s'.soft && (r.kind.Special? ==> r in s'.soft)
    requires r.kind.Fs? && (Behind(s.queue, i) || (OnlyDrain(s) && s.orig.value.id < r.id)) ==> r.color == Colors(s.queue, s.color)[i]
    requires IsStage(r.kind) ==> forall k :: 0 <= k < i ==> !FsBarrier(s.queue[k])
    ensures Order(s')
  {
    InsertAtInserts(s.queue, i, r);
    hide Separated, StagesFirst, InPlace, Colors, InsertAt, Behind, FitsBarriers, BarrierProgress.SpecialsAreSoft;
    InsertSeparated(s, i, r, s');
    InsertStages(s, i, r, s');
    BarrierProgress.SoftAfterInsert(s, i, r, s');
    InsertInPlace(s, i, r, s');
  }

  // ---- every step keeps the order ----

  lemma AddOrder(s: State, r: Req, w: Where)
    requires Inv(s) && Order(s) && PlaceOk(s, r, w)
    ensures Order(Add(s, r, w))
  {
    hide Inv, Separated, StagesFirst, InPlace, Colors, LogOk, IdsBelow, FlightOlder, Add, BarrierProgress.SpecialsAreSoft;
    LogFacts(s);
    LiveIdsBelow(s);
    AddSeparated(s, r, w, Add(s, r, w));
    match w
    case Front => AddFrontOrder(s, r, Add(s, r, w));
    case Back => AddBackOrder(s, r, Add(s, r, w));
    case Sort =>
      BarrierProgress.NewIsNotQueued(s, r);
      AddSortOrder(s, r, Add(s, r, w));
  }

  lemma AddSortOrder(s: State, r: Req, s': State)
    requires Order(s) && Separated(s') && !r.hard && (forall i :: 0 <= i < |s.queue| ==> s.queue[i] != r) && s' == Add(s, r, Sort)
    ensures Order(s')
  {
    hide Separated, Colors, Behind;
    assert s'.color == s.color && s'.queue == s.queue && s'.started <= s.started;
    forall i | 0 <= i < |s.queue| && s.queue[i].kind.Special?
      ensures s.queue[i] in s'.soft
    {
      assert s.queue[i] in s.soft;
    }
    forall i | 0 <= i < |s'.queue| && Unissued(s', i)
      ensures s'.queue[i].color == Colors(s'.queue, s'.color)[i] && s'.queue[i] !in s'.started
    {
      assert Unissued(s, i);
    }
  }

  lemma AddFrontOrder(s: State, r: Req, s': State)
    requires Order(s) && Separated(s') && r.kind.Special? && !r.hard && s' == Add(s, r, Front)
    ensures Order(s')
  {
    hide Separated, Colors, InsertAt, Behind;
    FrontIsInsert(s.queue, r);
    InsertAtInserts(s.queue, 0, r);
    InsertStages(s, 0, r, s');
    BarrierProgress.SoftAfterInsert(s, 0, r, s');
    InsertInPlace(s, 0, r, s');
  }

  lemma AddBackOrder(s: State, r: Req, s': State)
    requires Order(s) && Separated(s') && !IsStage(r.kind) && (r.hard ==> r.kind.Fs?) && r.color == s.color && s' == Add(s, r, Back)
    ensures Order(s')
  {
    hide Separated, Colors, InsertAt, Behind;
    AppendIsInsert(s.queue, r);
    InsertAtInserts(s.queue, |s.queue|, r);
    InsertStages(s, |s.queue|, r, s');
    BarrierProgress.SoftAfterInsert(s, |s.queue|, r, s');
    AppendInPlace(s, r, s');
  }

  lemma AppendInPlace(s: State, r: Req, s': State)
    requires InPlace(s, Colors(s.queue, s.color)) && (r.hard ==> r.kind.Fs?) && r.color == s.color && s' == Add(s, r, Back)
    ensures InPlace(s', Colors(s'.queue, s'.color))
  {
    hide Colors, Behind;
    AppendColors(s.queue, r, s.color);
    var c, c' := Colors(s.queue, s.color), Colors(s'.queue, s'.color);
    assert c[|s.queue|] == s.color;
    forall j | 0 <= j < |s'.queue| && Unissued(s', j)
      ensures s'.queue[j].color == c'[j] && s'.queue[j] !in s'.started
    {
      if j < |s.queue| {
        BehindAppended(s.queue, r, j);
        assert Unissued(s, j);
      }
    }
  }

  lemma BehindAppended(q: seq<Req>, r: Req, j: nat)
    requires j < |q|
    ensures Behind(q + [r], j) <==> Behind(q, j)
  {
    if k :| 0 <= k < j && FsBarrier(q[k]) {
      assert (q + [r])[k] == q[k];
    }
    if k :| 0 <= k < j && FsBarrier((q + [r])[k]) {
      assert (q + [r])[k] == q[k];
    }
  }

  lemma DispatchOrder(s: State, r: Req, tail: bool, boundary: nat)
    requires Inv(s) && TagInv(s) && Order(s) && r in s.held
    ensures Order(Dispatch(s, r, tail, boundary))
  {
    hide Inv, TagInv, Colored, BarriersInOrder, Places, Separated, StagesFirst, InPlace, Colors, InsertAt, FitsBarriers, Behind;
    var i := if tail then |s.queue| else SortPos(s, s.queue, r, boundary);
    assert forall j :: i <= j < |s.queue| ==> !s.queue[j].hard;
    Facts(s);
    BarrierProgress.HeldIsFs(s, r);
    HeldIsNotStarted(s, r);
    HeldColor(s, r);
    TailColor(s.queue, i, s.color);
    DispatchFitsBarriers(s, i, r);
    InsertOrder(s, i, r, Dispatch(s, r, tail, boundary));
  }

  lemma HeldColor(s: State, r: Req)
    requires Colored(s) && r in s.held
    ensures r.color == s.color
  {
    hide Colors, LiveSet;
  }

  lemma DispatchFitsBarriers(s: State, i: nat, r: Req)
    requires Separated(s) && r in s.held && !r.hard && i <= |s.queue| && forall j :: i <= j < |s.queue| ==> !s.queue[j].hard
    ensures FitsBarriers(s, i, r)
  {
  }

  lemma DequeueOrder(s: State, i: nat)
    requires Inv(s) && Order(s) && i < |s.queue| && s.queue[i] in s.started
    ensures Order(Dequeue(s, i))
  {
    hide Inv, Separated, StagesFirst, InPlace, Colors, Places, Colored, BarriersInOrder, RemoveAt, BarrierProgress.SpecialsAreSoft;
    var s' := Dequeue(s, i);
    Facts(s);
    StartedIsPlain(s, i);
    StartedIsOlder(s, i);
    QueueRemoved(s, i);
    DequeueSeparated(s, i, s');
    DequeueInPlace(s, i, s');
    DequeueStages(s, i, s');
  }

  lemma StartedIsPlain(s: State, i: nat)
    requires Places(s) && i < |s.queue| && s.queue[i] in s.started
    ensures !FsBarrier(s.queue[i])
  {
    hide FsIn;
  }

  lemma QueueRemoved(s: State, i: nat)
    requires Places(s) && i < |s.queue|
    ensures Removed(s.queue, i, RemoveAt(s.queue, i))
  {
    hide FsIn;
    RemoveFacts(s.queue, i);
  }

  lemma DequeueStages(s: State, i: nat, s': State)
    requires StagesFirst(s) && BarrierProgress.SpecialsAreSoft(s) && Removed(s.queue, i, s'.queue) && s'.soft == s.soft
    ensures StagesFirst(s') && BarrierProgress.SpecialsAreSoft(s')
  {
  }

  /** A request of the drain's own kind is not the barrier. */
  lemma NotTheBarrier(s: State, r: Req)
    requires Inv(s) && s.orig.Some? && r in LiveSet(s) && r.kind.Fs?
    ensures r.id != s.orig.value.id
  {
    LogFacts(s);
    BarrierIsNotLive(s);
    hide Inv;
    assert Added(r) in s.log && Added(s.orig.value) in s.log;
  }

  lemma BarrierIsNotLive(s: State)
    requires Inv(s) && s.orig.Some?
    ensures s.orig.value !in LiveSet(s)
  {
    hide Places, GoodLog, BarriersInOrder, Colored, LogOk, IssuedOk, StageOk, Separated, AroundSequence;
  }

  lemma StartedIsOlder(s: State, i: nat)
    requires Inv(s) && InPlace(s, Colors(s.queue, s.color)) && i < |s.queue| && s.queue[i] in s.started
    ensures OnlyDrain(s) && s.queue[i].kind.Fs? ==> s.queue[i].id < s.orig.value.id
  {
    hide Inv, Colors, Behind;
    if OnlyDrain(s) && s.queue[i].kind.Fs? {
      assert !Unissued(s, i);
      assert s.queue[i] in LiveSet(s);
      NotTheBarrier(s, s.queue[i]);
    }
  }

  lemma BehindRemoved(q: seq<Req>, i: nat, q': seq<Req>, j: nat)
    requires Removed(q, i, q') && !FsBarrier(q[i]) && j < |q'| && Behind(q', j)
    ensures Behind(q, if j < i then j else j + 1)
  {
    var k :| 0 <= k < j && FsBarrier(q'[k]);
    assert q'[k] == q[if k < i then k else k + 1];
  }

  lemma DequeueInPlace(s: State, i: nat, s': State)
    requires InPlace(s, Colors(s.queue, s.color)) && i < |s.queue| && !FsBarrier(s.queue[i]) && s' == Dequeue(s, i)
    requires Removed(s.queue, i, s'.queue)
    ensures InPlace(s', Colors(s'.queue, s'.color))
  {
    hide Colors, RemoveAt, Behind;
    RemoveColors(s.queue, i, s.color);
    var c, c' := Colors(s.queue, s.color), Colors(s'.queue, s'.color);
    forall j | 0 <= j < |s'.queue| && Unissued(s', j)
      ensures s'.queue[j].color == c'[j] && s'.queue[j] !in s'.started
    {
      if Behind(s'.queue, j) {
        BehindRemoved(s.queue, i, s'.queue, j);
      }
      assert Unissued(s, if j < i then j else j + 1);
    }
  }

  lemma RequeueOrder(s: State, r: Req)
    requires Inv(s) && Order(s) && r in s.flight
    ensures Order(Requeue(s, r))
  {
    var i := if !Active(s) then 0 else RequeuePos(s.orig.value, s.queue, ReqSeq(s.orig.value, r));
    Facts(s);
    if Active(s) {
      forall k | 0 <= k < |s.queue| && FsBarrier(s.queue[k])
        ensures i <= k
      {
        RequeueBeforeBarriers(s, r, k);
      }
    }
    hide Inv, Colored, BarriersInOrder, LiveSet, FsIn, RequeuePos, Colors, InsertAt;
    RequeueFits(s, i, r);
    assert !Behind(s.queue, i);
    hide Separated, StagesFirst, InPlace, FitsBarriers, Places, BarrierProgress.SpecialsAreSoft;
    FlightBefore(s, r);
    InsertOrder(s, i, r, Requeue(s, r));
  }

  lemma FlightBefore(s: State, r: Req)
    requires Inv(s) && FlightOlder(s) && r in s.flight
    ensures !FsBarrier(r) && (OnlyDrain(s) && r.kind.Fs? ==> r.id < s.orig.value.id)
  {
    Facts(s);
    hide Inv, Colored, BarriersInOrder;
  }

  lemma RequeueFits(s: State, i: nat, r: Req)
    requires Separated(s) && r in s.flight && !FsBarrier(r) && forall k :: 0 <= k < |s.queue| && FsBarrier(s.queue[k]) ==> i <= k
    ensures FitsBarriers(s, i, r)
  {
  }

  /** The queue head is not newer than the barrier whose drain recognises it. */
  lemma HeadIsOlder(s: State)
    requires Inv(s) && InPlace(s, Colors(s.queue, s.color)) && OnlyDrain(s) && s.queue != [] && s.queue[0].kind.Fs?
    requires s.queue[0].color == s.orig.value.color
    ensures !FsBarrier(s.queue[0]) && s.queue[0].id < s.orig.value.id
  {
    Facts(s);
    hide Inv, Places, Colors, Behind;
    HeadColorMeansOlder(s);
    hide BarriersInOrder;
    BarrierColor(s);
    hide Colored;
    assert !Unissued(s, 0);
    assert s.queue[0] in LiveSet(s);
    NotTheBarrier(s, s.queue[0]);
  }

  lemma BarrierColor(s: State)
    requires Colored(s) && s.orig.Some?
    ensures s.orig.value.color == !Colors(s.queue, s.color)[0]
  {
    hide Colors, LiveSet;
  }

  lemma SameOrder(s: State, s': State)
    requires Order(s) && s'.queue == s.queue && s'.held == s.held && s'.flight <= s.flight && s'.started == s.started && s'.soft == s.soft
    requires s'.color == s.color && (s'.orig.None? || (s'.orig == s.orig && s'.ordered == s.ordered))
    ensures Order(s')
  {
    hide Colors, Behind;
    SameSeparated(s, s');
    hide Separated;
    forall i | 0 <= i < |s'.queue| && Unissued(s', i)
      ensures s'.queue[i].color == Colors(s'.queue, s'.color)[i] && s'.queue[i] !in s'.started
    {
      assert Unissued(s, i);
    }
  }

  lemma SameSeparated(s: State, s': State)
    requires Separated(s) && s'.queue == s.queue && s'.held == s.held && s'.flight <= s.flight && s'.started == s.started
    ensures Separated(s')
  {
  }

  lemma FinishOrder(s: State, r: Req, error: int)
    requires Order(s)
    ensures Order(Finish(s, r, error))
  {
    hide Order, Finish;
    FinishIs(s, r, error);
    FinishStarted(s, r, error);
    FinishFrame(s, r, error);
    SameOrder(s, Finish(s, r, error));
  }

  /** Marking the head of the queue. */
  lemma IssueOrder(s: State)
    requires Order(s) && Places(s) && s.queue != [] && (OnlyDrain(s) && s.queue[0].kind.Fs? ==> s.queue[0].id < s.orig.value.id)
    ensures Order(Issue(s))
  {
    hide Colors, FsIn;
    IssueSeparated(s, Issue(s));
    hide Separated, Behind;
    var s' := Issue(s);
    NotBehindFirst(s.queue);
    forall i | 0 <= i < |s'.queue| && Unissued(s', i)
      ensures s'.queue[i].color == Colors(s'.queue, s'.color)[i] && s'.queue[i] !in s'.started
    {
      assert Unissued(s, i);
      assert i > 0;
    }
  }

  lemma NotBehindFirst(q: seq<Req>)
    ensures !Behind(q, 0)
  {
  }

  lemma FetchOrder(s: State)
    requires Inv(s) && Order(s) && s.mode.tag
    ensures Order(Fetch(s))
  {
    hide Inv, Order, StartOrdered, Places, Colored, BarriersInOrder;
    Facts(s);
    if s.queue != [] && !Active(s) && FsType(s.queue[0]) && s.queue[0].hard {
      BarrierHead(s);
      StartOrder(s);
    } else if Fetch(s) != s {
      assert Fetch(s) == Issue(s);
      if OnlyDrain(s) && s.queue[0].kind.Fs? {
        FetchedIsOlder(s);
      }
      IssueOrder(s);
    }
  }

  lemma FetchedIsOlder(s: State)
    requires Inv(s) && Order(s) && s.mode.tag && OnlyDrain(s) && s.queue != [] && s.queue[0].kind.Fs? && Fetch(s) == Issue(s)
    ensures s.queue[0].id < s.orig.value.id
  {
    TagDrains(s);
    hide Inv, Colors, Separated, StagesFirst, Behind, InPlace;
    FetchedColor(s);
    HeadIsOlder(s);
  }

  /** A drain on a tag queue: nothing but the drain is left to do. */
  lemma TagDrains(s: State)
    requires Inv(s) && s.mode.tag && OnlyDrain(s)
    ensures Active(s) && s.ordseq == OrdSeq(true, false, true, true, true) && forall r :: r in LiveSet(s) ==> !IsStage(r.kind)
  {
    TagIsNotDrain(s);
    OnlyDrains(s);
    Facts(s);
  }

  lemma TagIsNotDrain(s: State)
    requires Inv(s) && s.mode.tag
    ensures !s.mode.drain
  {
    hide Places, GoodLog, BarriersInOrder, Colored, LogOk, IssuedOk, SequenceOk, Separated, AroundSequence;
  }

  lemma FetchedColor(s: State)
    requires Active(s) && OnlyDrain(s) && s.ordseq.Cur() == SEQ_DRAIN && s.queue != [] && s.queue[0].kind.Fs? && Fetch(s) == Issue(s)
    ensures s.queue[0].color == s.orig.value.color
  {
    assert Issue(s).log != s.log;
  }

  // ---- the start of a sequence ----

  lemma StartOrder(s: State)
    requires Inv(s) && Order(s) && s.orig.None? && s.queue != [] && FsBarrier(s.queue[0])
    ensures Order(StartOrdered(s))
  {
    hide Inv, StartOrdered, Stacked, StageList, StageSet, Colors, Behind;
    var b, s' := s.queue[0], StartOrdered(s);
    var st := StageList(Stacked(s).ordered, b);
    StartedIs(s);
    StartStarted(s);
    StageListFacts(Stacked(s).ordered, b);
    NoStageQueued(s);
    StackShape(s.queue, st);
    StartSeparated(s, st, s');
    StartShape(s, st, s');
    StartInPlace(s, st, s');
  }

  lemma StackShape(q: seq<Req>, st: seq<Req>)
    requires q != []
    ensures StackedOn(q, st, st + q[1..])
  {
  }

  lemma NoStageQueued(s: State)
    requires Inv(s) && s.orig.None?
    ensures forall i :: 0 <= i < |s.queue| ==> !IsStage(s.queue[i].kind)
  {
    hide Places, GoodLog, BarriersInOrder, Colored, LogOk, IssuedOk, Separated, AroundSequence;
    assert forall i :: 0 <= i < |s.queue| ==> s.queue[i] in LiveSet(s);
  }

  /** Starting a sequence marks nothing but a stage. */
  lemma StartStarted(s: State)
    requires s.queue != []
    ensures var s' := StartOrdered(s);
            && (forall r :: r in s'.started && r.kind.Fs? ==> r in s.started) && s'.color == s.color
  {
    hide CompleteSeq, StageSet, StageList;
    var s1 := Stacked(s);
    var st := StageList(s1.ordered, s.queue[0]);
    StageListFacts(s1.ordered, s.queue[0]);
    CompleteSeqIs(s1, Skipped(s1.ordered, Draining(s1)), 0);
    if st != [] {
      assert st[0] in Elems(st) && s1.queue[0] == st[0];
    }
  }

  lemma StartSeparated(s: State, st: seq<Req>, s': State)
    requires Separated(s) && StackedOn(s.queue, st, s'.queue) && StagesOf(st, s.queue[0])
    requires s'.held == s.held && s'.flight == s.flight && (forall r :: r in s'.started && r.kind.Fs? ==> r in s.started)
    ensures Separated(s')
  {
  }

  lemma StartShape(s: State, st: seq<Req>, s': State)
    requires StackedOn(s.queue, st, s'.queue) && StagesOf(st, s.queue[0]) && (forall i :: 0 <= i < |s.queue| ==> !IsStage(s.queue[i].kind))
    requires BarrierProgress.SpecialsAreSoft(s) && s.soft <= s'.soft
    ensures StagesFirst(s') && BarrierProgress.SpecialsAreSoft(s')
  {
  }

  /** What was behind the barrier is in place; what is in flight is older than it. */
  lemma StartInPlace(s: State, st: seq<Req>, s': State)
    requires InPlace(s, Colors(s.queue, s.color)) && Separated(s) && s.queue != [] && FsBarrier(s.queue[0])
    requires StagesOf(st, s.queue[0]) && s'.queue == st + s.queue[1..] && s'.color == s.color && s'.flight == s.flight
    requires (forall r :: r in s'.started && r.kind.Fs? ==> r in s.started) && (s'.orig.Some? ==> s'.orig.value == s.queue[0])
    ensures InPlace(s', Colors(s'.queue, s'.color)) && FlightOlder(s')
  {
    StartFlight(s, s');
    hide Colors, Behind, Separated, FlightOlder, OnlyDrain;
    StackColors(s.queue, st, s.color);
    var c, c' := Colors(s.queue, s.color), Colors(s'.queue, s'.color);
    assert forall j :: 0 <= j < |st| ==> s'.queue[j] == st[j] && IsStage(st[j].kind);
    forall j | 0 <= j < |s'.queue| && Unissued(s', j)
      ensures s'.queue[j].color == c'[j] && s'.queue[j] !in s'.started
    {
      assert j >= |st|;
      assert s'.queue[j] == s.queue[j - |st| + 1];
      BehindFirst(s.queue, j - |st| + 1);
      assert Unissued(s, j - |st| + 1);
    }
  }

  lemma StartFlight(s: State, s': State)
    requires Separated(s) && s.queue != [] && FsBarrier(s.queue[0]) && s'.flight == s.flight
    requires s'.orig.Some? ==> s'.orig.value == s.queue[0]
    ensures FlightOlder(s')
  {
  }

  lemma BehindFirst(q: seq<Req>, i: nat)
    requires 0 < i < |q| && FsBarrier(q[0])
    ensures Behind(q, i)
  {
  }

  // ---- when a sequence is stuck ----

  /** Part of the drain of b: handed out while it lasts. */
  predicate DrainPart(b: Req, r: Req) { r.kind.Special? || Known(b, r) }

  predicate HeadIsPart(s: State) { s.orig.Some? && s.queue != [] && DrainPart(s.orig.value, s.queue[0]) }

  /** A drain with nothing in flight, whose completion would end it, and nothing of it to hand out. */
  predicate Stuck(s: State) { OnlyDrain(s) && s.flight == {} && !HeadIsPart(s) }

  /** The colour test at the queue head is exact. */
  lemma HeadTestIsExact(s: State)
    requires Inv(s) && Order(s) && s.mode.tag && OnlyDrain(s) && s.queue != []
    ensures ReqSeq(s.orig.value, s.queue[0]) <= SEQ_DRAIN <==> DrainPart(s.orig.value, s.queue[0])
  {
    hide Inv, Separated, StagesFirst, InPlace, Colors;
    TagDrains(s);
    var h := s.queue[0];
    assert h in LiveSet(s);
    if h.kind.Fs? && h.color == s.orig.value.color {
      HeadIsOlder(s);
    }
  }

  /** A stage of a tagged sequence is in the queue when nothing is in flight, in front of every barrier. */
  lemma TaggedHead(s: State)
    requires Inv(s) && Order(s) && s.mode.tag && s.orig.Some? && s.ordered.tag && s.flight == {}
    ensures s.queue != [] && !FsBarrier(s.queue[0])
  {
    TaggedIsDrained(s);
    var k := BarrierProgress.CurrentStage(s);
    Facts(s);
    hide Inv, Separated, InPlace, Colors, Colored, BarriersInOrder;
    var r := StageReq(k, s.orig.value);
    assert r in s.queue;
    var i :| 0 <= i < |s.queue| && s.queue[i] == r;
    assert IsStage(s.queue[i].kind);
  }

  lemma TaggedIsDrained(s: State)
    requires Inv(s) && s.mode.tag && s.orig.Some? && s.ordered.tag
    ensures s.ordseq.drain
  {
    hide Places, GoodLog, BarriersInOrder, Colored, LogOk, IssuedOk, StageOk, Separated, AroundSequence;
  }

  /** With nothing in flight the queue head is handed out unless the sequence is stuck. */
  lemma HandedOutIff(s: State)
    requires Inv(s) && Order(s) && s.mode.tag && s.orig.Some? && s.flight == {}
    ensures s.queue != [] && Fetch(s) == Issue(s) <==> !Stuck(s)
  {
    hide Inv, Order, Places, Colored, BarriersInOrder;
    Facts(s);
    if s.ordered.tag {
      TaggedHead(s);
    } else if s.queue != [] {
      HeadTestIsExact(s);
      TagDrains(s);
      IssueIsNews(s);
    }
  }

  lemma IssueIsNews(s: State)
    requires s.queue != []
    ensures Issue(s) != s
  {
    assert |Issue(s).log| == |s.log| + 1;
  }

  // ---- only strays get it stuck ----

  /** A drain is moving, or the queue holds a stray request. */
  ghost predicate Moves(s: State) { OnlyDrain(s) ==> s.flight != {} || HeadIsPart(s) || HasStray(s, s.orig.value) }

  lemma InsertMoves(s: State, i: nat, r: Req, s': State)
    requires Moves(s) && i <= |s.queue| && s'.queue == InsertAt(s.queue, i, r) && s'.flight == s.flight
    requires s'.orig == s.orig && s'.ordered == s.ordered
    requires OnlyDrain(s) && HeadIsPart(s) ==> i > 0 || DrainPart(s.orig.value, r)
    ensures Moves(s')
  {
    hide InsertAt, Stray, DrainPart, HasStray;
    InsertAtInserts(s.queue, i, r);
    if OnlyDrain(s) {
      InsertedStray(s, i, r, s', s.orig.value);
    }
  }

  lemma PartIsSoft(s: State)
    requires TagInv(s) && BarrierProgress.SpecialsAreSoft(s) && OnlyDrain(s) && HeadIsPart(s)
    ensures s.queue[0] in s.soft
  {
    hide NewerBehind;
  }

  lemma AddMoves(s: State, r: Req, w: Where)
    requires Moves(s) && (w.Front? ==> r.kind.Special?)
    ensures Moves(Add(s, r, w))
  {
    hide InsertAt, Stray, HasStray;
    var s' := Add(s, r, w);
    match w
    case Front => FrontIsInsert(s.queue, r); InsertMoves(s, 0, r, s');
    case Back => AppendIsInsert(s.queue, r); InsertMoves(s, |s.queue|, r, s');
    case Sort => assert s'.queue == s.queue; SameMoves(s, s');
  }

  lemma SameMoves(s: State, s': State)
    requires Moves(s) && s'.queue == s.queue && s'.flight == s.flight && s'.orig == s.orig && s'.ordered == s.ordered
    ensures Moves(s')
  {
    hide Stray, DrainPart;
  }

  lemma DispatchMoves(s: State, r: Req, tail: bool, boundary: nat)
    requires TagInv(s) && Order(s) && Moves(s)
    ensures Moves(Dispatch(s, r, tail, boundary))
  {
    hide InsertAt, Stray, HasStray, TagInv, Moves, Separated, StagesFirst, InPlace, Colors, HeadIsPart;
    var i := if tail then |s.queue| else SortPos(s, s.queue, r, boundary);
    assert forall j :: i <= j < |s.queue| ==> s.queue[j] !in s.soft;
    if OnlyDrain(s) && HeadIsPart(s) {
      PartIsSoft(s);
      PartIsThere(s);
    }
    InsertMoves(s, i, r, Dispatch(s, r, tail, boundary));
  }

  lemma PartIsThere(s: State)
    requires HeadIsPart(s)
    ensures s.queue != []
  {
  }

  lemma DequeueMoves(s: State, i: nat)
    requires i < |s.queue|
    ensures Moves(Dequeue(s, i))
  {
    assert s.queue[i] in Dequeue(s, i).flight;
  }

  lemma RequeueMoves(s: State, r: Req)
    requires Inv(s) && Order(s) && Moves(s) && s.mode.tag && r in s.flight
    ensures Moves(Requeue(s, r))
  {
    hide Inv, Order, InsertAt, RequeuePos, HasStray;
    if OnlyDrain(s) {
      TagDrains(s);
      OrderFlight(s);
      FlightBefore(s, r);
      assert r in LiveSet(s);
      var b := s.orig.value;
      var i := RequeuePos(b, s.queue, ReqSeq(b, r));
      InsertAtInserts(s.queue, i, r);
      if Stray(b, r) {
        InsertedStray(s, i, r, Requeue(s, r), b);
      } else {
        FirstPlace(b, s.queue, ReqSeq(b, r));
      }
    }
  }

  lemma OrderFlight(s: State)
    requires Order(s)
    ensures FlightOlder(s)
  {
  }

  lemma FirstPlace(b: Req, q: seq<Req>, n: int)
    requires n <= SEQ_DRAIN
    ensures RequeuePos(b, q, n) == 0
  {
  }

  lemma StartMoves(s: State)
    requires Inv(s) && s.mode.tag && s.orig.None? && s.queue != [] && FsBarrier(s.queue[0])
    ensures Moves(StartOrdered(s))
  {
    hide Inv, StartOrdered, Stacked, StageList, StageSet;
    StartedIs(s);
    StartKeepsMode(s);
    StartedHead(s);
    BarrierProgress.HeadWeightless(s);
    if OnlyDrain(StartOrdered(s)) {
      TagDrains(StartOrdered(s));
    }
    if s.flight == {} {
      BarrierProgress.NoneInFlight(s);
    }
  }

  lemma StartKeepsMode(s: State)
    requires s.queue != []
    ensures StartOrdered(s).mode == s.mode
  {
  }

  lemma FetchMoves(s: State)
    requires Inv(s) && Moves(s) && s.mode.tag
    ensures Moves(Fetch(s))
  {
    hide Inv, StartOrdered, Places, Colored, BarriersInOrder, Moves;
    Facts(s);
    if s.queue != [] && !Active(s) && FsType(s.queue[0]) && s.queue[0].hard {
      BarrierHead(s);
      StartMoves(s);
    } else {
      SameMoves(s, Fetch(s));
    }
  }

  /** The last completion ends the drain unless the queue head is part of it. */
  lemma FinishMoves(s: State, r: Req, error: int)
    requires Inv(s) && Order(s) && Moves(s) && s.mode.tag && r in s.flight
    ensures Moves(Finish(s, r, error)) && !Stuck(Finish(s, r, error))
  {
    hide Inv, Order, Finish, Released, HasStray, DrainPart;
    var s1, s' := Released(s, r, error), Finish(s, r, error);
    FinishIs(s, r, error);
    if OnlyDrain(s') && s'.flight == {} {
      DrainStays(s, s');
      TagDrains(s);
      assert r in LiveSet(s);
      FinishFsForm(s, r, error);
      BarrierProgress.ReleasedFrame(s, r, error);
      BarrierProgress.LastCompletion(s, r, error);
      if s.queue != [] {
        HeadTestIsExact(s);
      }
    }
  }

  // ---- every run ----

  ghost predicate Progressing(s: State) { Inv(s) && TagInv(s) && Order(s) && Moves(s) && s.mode.tag }

  lemma StepProgresses(s: State, step: Step)
    requires Progressing(s) && Enabled(s, step)
    ensures Progressing(Next(s, step))
  {
    hide Inv, TagInv, Order, Moves, Next, Enabled;
    StepKeepsInv(s, step);
    StepKeepsTag(s, step);
    StepKeepsMode(s, step);
    StepKeepsOrder(s, step);
    StepKeepsMoves(s, step);
  }

  lemma StepKeepsOrder(s: State, step: Step)
    requires Inv(s) && TagInv(s) && Order(s) && s.mode.tag && Enabled(s, step)
    ensures Order(Next(s, step))
  {
    hide Inv, TagInv, Order, Fetch, Dispatch, Dequeue, Finish, Requeue, Add;
    match step
    case AddStep(kind, soft, hard, empty, write, sector, elvpriv, w) =>
      AddOrder(s, Req(kind, s.nextId, hard, empty, s.color, write, sector), EffectiveWhere(soft, hard, elvpriv, w));
    case DispatchStep(r, tail, boundary) => DispatchOrder(s, r, tail, boundary);
    case FetchStep => FetchOrder(s);
    case DequeueStep(i) => DequeueOrder(s, i);
    case FinishStep(r, error) => FinishOrder(s, r, error);
    case RequeueStep(r) => RequeueOrder(s, r);
  }

  lemma StepKeepsMoves(s: State, step: Step)
    requires Inv(s) && TagInv(s) && Order(s) && Moves(s) && s.mode.tag && Enabled(s, step)
    ensures Moves(Next(s, step))
  {
    hide Inv, TagInv, Order, Moves, Fetch, Dispatch, Dequeue, Finish, Requeue, Add;
    match step
    case AddStep(kind, soft, hard, empty, write, sector, elvpriv, w) =>
      AddMoves(s, Req(kind, s.nextId, hard, empty, s.color, write, sector), EffectiveWhere(soft, hard, elvpriv, w));
    case DispatchStep(r, tail, boundary) => DispatchMoves(s, r, tail, boundary);
    case FetchStep => FetchMoves(s);
    case DequeueStep(i) => DequeueMoves(s, i);
    case FinishStep(r, error) => FinishMoves(s, r, error);
    case RequeueStep(r) => RequeueMoves(s, r);
  }

  lemma {:induction false} RunProgresses(s: State, steps: seq<Step>)
    requires Progressing(s) && Possible(s, steps)
    ensures Progressing(Run(s, steps)) && Run(s, steps).mode == s.mode
    decreases |steps|
  {
    hide Progressing, Next, Enabled;
    if steps != [] {
      StepProgresses(s, steps[0]);
      StepKeepsMode(s, steps[0]);
      RunProgresses(Next(s, steps[0]), steps[1..]);
    }
  }

  lemma Reached(mode: Ordered, steps: seq<Step>)
    requires Supported(mode) && mode.tag && Possible(Init(mode), steps)
    ensures Progressing(Run(Init(mode), steps)) && Run(Init(mode), steps).mode == mode
  {
    hide Inv, Run, Possible;
    InitInv(mode);
    RunProgresses(Init(mode), steps);
  }

  // ---- the theorems ----

  /** In every run on a tag queue with a sequence running and nothing in flight: a fetch hands out the
      queue head if and only if the sequence is not stuck. */
  lemma HandsOutUnlessStuck(mode: Ordered, steps: seq<Step>)
    requires Supported(mode) && mode.tag && Possible(Init(mode), steps)
    requires Run(Init(mode), steps).orig.Some? && Run(Init(mode), steps).flight == {}
    ensures var s := Run(Init(mode), steps); (s.queue != [] && Fetch(s) == Issue(s)) <==> !Stuck(s)
  {
    hide Inv, TagInv, Order, Moves, Run, Possible, Init, Fetch;
    Reached(mode, steps);
    HandedOutIff(Run(Init(mode), steps));
  }

  /** It gets stuck only after a stray request was requeued during the sequence. */
  lemma StuckByRequeue(steps: seq<Step>)
    requires Possible(Init(ORDERED_TAG), steps) && Stuck(Run(Init(ORDERED_TAG), steps))
    ensures StrayRequeued(Init(ORDERED_TAG), steps, Run(Init(ORDERED_TAG), steps).orig.value)
  {
    hide Inv, TagInv, Order, HasStray, Run, Possible, StrayRequeued, HistoryInv;
    var s0, s := Init(ORDERED_TAG), Run(Init(ORDERED_TAG), steps);
    Reached(ORDERED_TAG, steps);
    InitHistory();
    DrainIsEmpty(s);
    StraysWereRequeued(s0, steps, s.orig.value);
  }

  lemma DrainIsEmpty(s: State)
    requires Inv(s) && s.mode.tag && OnlyDrain(s)
    ensures s.orig.value.empty
  {
    TagIsNotDrain(s);
    OnlyDrains(s);
  }

  /** A driver that completes what it gets ends a barrier that is not stuck. */
  lemma {:induction false} CanEnd(s: State) returns (steps: seq<Step>)
    requires Progressing(s) && s.orig.Some? && !Stuck(s)
    ensures Possible(s, steps) && BarrierProgress.WithoutArrivals(steps) && EndedIn(Run(s, steps).log, s.orig.value)
    decreases BarrierProgress.Size(s), s.flight == {}
  {
    hide Inv, TagInv, Order, Moves, Stuck, EndedIn, Fetch, Finish, Dequeue, Issue, BarrierProgress.Size;
    if s.flight != {} {
      var r :| r in s.flight;
      BarrierProgress.FinishShrinks(s, r, 0);
      StepProgresses(s, FinishStep(r, 0));
      FinishMoves(s, r, 0);
      var s' := Finish(s, r, 0);
      var rest := [];
      if s'.orig.Some? {
        rest := CanEnd(s');
      }
      steps := [FinishStep(r, 0)] + rest;
      assert steps[1..] == rest;
    } else {
      HandedOutIff(s);
      RunningIsActive(s);
      BarrierProgress.TakeHead(s);
      BarrierProgress.FetchIs(s);
      var s1 := Fetch(s);
      var s2 := Dequeue(s1, 0);
      StepProgresses(s, FetchStep);
      StepProgresses(s1, DequeueStep(0));
      InFlightIsNotStuck(s2);
      var rest := CanEnd(s2);
      steps := [FetchStep, DequeueStep(0)] + rest;
      assert steps[1..] == [DequeueStep(0)] + rest && steps[1..][1..] == rest;
      assert Possible(s1, steps[1..]);
    }
  }

  lemma RunningIsActive(s: State)
    requires Inv(s) && s.orig.Some?
    ensures Active(s)
  {
    Facts(s);
  }

  lemma InFlightIsNotStuck(s: State)
    requires s.flight != {}
    ensures !Stuck(s)
  {
  }
}
