/** Stuck barriers on queues ordered by tags: without a new arrival they never end, and one request that
    goes past the scheduler to the queue front is enough to end them. */
module TagStall {

  import opened Options
  import opened Barrier
  import opened BarrierProgress
  import opened TagDrain
  import opened TagHistory
  import opened TagProgress

  // ---- special requests that have been handed out ----

  predicate Handed(s: State, r: Req) { r.kind.Special? && r in s.started }

  predicate Passable(s: State, r: Req) { !FsBarrier(r) && (OnlyDrain(s) ==> ReqSeq(s.orig.value, r) <= SEQ_DRAIN) }

  /** In front of a special request that was handed out and is still queued there is nothing that the
      queue would have to wait for. */
  ghost predicate ClearAhead(s: State) {
    forall i, j {:trigger s.queue[i], s.queue[j]} ::
      0 <= i < j < |s.queue| && Handed(s, s.queue[j]) ==> Passable(s, s.queue[i])
  }

  lemma InsertClear(s: State, i: nat, r: Req, s': State)
    requires ClearAhead(s) && Inserted(s.queue, i, r, s'.queue) && s'.started <= s.started && r !in s'.started
    requires s'.orig == s.orig && s'.ordered == s.ordered
    requires Passable(s, r) || forall j :: i <= j < |s.queue| ==> !Handed(s, s.queue[j])
    ensures ClearAhead(s')
  {
    hide ReqSeq;
    forall x, y | 0 <= x < y < |s'.queue| && Handed(s', s'.queue[y])
      ensures Passable(s', s'.queue[x])
    {
      assert y != i;
      var y' := if y < i then y else y - 1;
      assert s'.queue[y] == s.queue[y'] && Handed(s, s.queue[y']);
      if x != i {
        var x' := if x < i then x else x - 1;
        assert s'.queue[x] == s.queue[x'] && Passable(s, s.queue[x']);
      }
    }
  }

  lemma AddClear(s: State, r: Req, w: Where)
    requires ClearAhead(s) && (w.Front? ==> r.kind.Special?)
    ensures ClearAhead(Add(s, r, w))
  {
    hide InsertAt, ClearAhead;
    var s' := Add(s, r, w);
    match w
    case Front =>
      FrontIsInsert(s.queue, r);
      InsertAtInserts(s.queue, 0, r);
      InsertClear(s, 0, r, s');
    case Back =>
      AppendIsInsert(s.queue, r);
      InsertAtInserts(s.queue, |s.queue|, r);
      InsertClear(s, |s.queue|, r, s');
    case Sort => FewerClear(s, s');
  }

  /** Fewer marks and the same queue. */
  lemma FewerClear(s: State, s': State)
    requires ClearAhead(s) && s'.queue == s.queue && s'.started <= s.started
    requires s'.orig.None? || (s'.orig == s.orig && s'.ordered == s.ordered)
    ensures ClearAhead(s')
  {
    hide ReqSeq;
    forall x, y | 0 <= x < y < |s'.queue| && Handed(s', s'.queue[y])
      ensures Passable(s', s'.queue[x])
    {
      assert Handed(s, s.queue[y]) && Passable(s, s.queue[x]);
    }
  }

  /** A sorted insertion does not pass what has been handed out. */
  lemma DispatchClear(s: State, r: Req, tail: bool, boundary: nat)
    requires Inv(s) && ClearAhead(s) && r in s.held
    ensures ClearAhead(Dispatch(s, r, tail, boundary))
  {
    hide Inv, InsertAt, ClearAhead;
    HeldIsNotStarted(s, r);
    var i := if tail then |s.queue| else SortPos(s, s.queue, r, boundary);
    assert forall j :: i <= j < |s.queue| ==> s.queue[j] !in s.started;
    InsertAtInserts(s.queue, i, r);
    InsertClear(s, i, r, Dispatch(s, r, tail, boundary));
  }

  lemma DequeueClear(s: State, i: nat)
    requires ClearAhead(s) && i < |s.queue|
    ensures ClearAhead(Dequeue(s, i))
  {
    hide ReqSeq;
    var s' := Dequeue(s, i);
    forall x, y | 0 <= x < y < |s'.queue| && Handed(s', s'.queue[y])
      ensures Passable(s', s'.queue[x])
    {
      var x', y' := if x < i then x else x + 1, if y < i then y else y + 1;
      assert s'.queue[x] == s.queue[x'] && s'.queue[y] == s.queue[y'];
      assert Handed(s, s.queue[y']) && Passable(s, s.queue[x']);
    }
  }

  /** What goes back in front of a handed out special request belongs to the drain. */
  lemma RequeueClear(s: State, r: Req)
    requires Inv(s) && ClearAhead(s) && r in s.flight
    ensures ClearAhead(Requeue(s, r))
  {
    hide Inv, InsertAt, ClearAhead, RequeuePos, ReqSeq;
    var i := if !Active(s) then 0 else RequeuePos(s.orig.value, s.queue, ReqSeq(s.orig.value, r));
    FlightIsPlain(s, r);
    RunningIsActiveOrIdle(s);
    InsertAtInserts(s.queue, i, r);
    if j :| i <= j < |s.queue| && Handed(s, s.queue[j]) {
      if OnlyDrain(s) {
        StopsAtHanded(s, r, i, j);
      }
    }
    InsertClear(s, i, r, Requeue(s, r));
  }

  lemma FlightIsPlain(s: State, r: Req)
    requires Inv(s) && r in s.flight
    ensures !FsBarrier(r)
  {
    Facts(s);
    hide Inv, Colored, BarriersInOrder;
  }

  lemma RunningIsActiveOrIdle(s: State)
    requires Inv(s)
    ensures s.orig.Some? <==> Active(s)
  {
    Facts(s);
    hide Inv, Colored, BarriersInOrder, Places;
  }

  lemma StopsAtHanded(s: State, r: Req, i: nat, j: nat)
    requires ClearAhead(s) && OnlyDrain(s) && i <= j < |s.queue| && Handed(s, s.queue[j])
    requires i == RequeuePos(s.orig.value, s.queue, ReqSeq(s.orig.value, r))
    ensures ReqSeq(s.orig.value, r) <= SEQ_DRAIN
  {
    assert i < j ==> Passable(s, s.queue[i]);
  }

  lemma IssueClear(s: State)
    requires ClearAhead(s) && Places(s) && s.queue != []
    ensures ClearAhead(Issue(s))
  {
    hide ReqSeq, FsIn;
    var s' := Issue(s);
    forall x, y | 0 <= x < y < |s'.queue| && Handed(s', s'.queue[y])
      ensures Passable(s', s'.queue[x])
    {
      assert s.queue[0] != s.queue[y];
      assert Handed(s, s.queue[y]) && Passable(s, s.queue[x]);
    }
  }

  /** Behind the barrier that starts a sequence nothing has been handed out. */
  lemma StartClear(s: State)
    requires ClearAhead(s) && s.queue != [] && FsBarrier(s.queue[0])
    ensures ClearAhead(StartOrdered(s))
  {
    hide StartOrdered, Stacked, StageList, StageSet, ReqSeq;
    var b, s' := s.queue[0], StartOrdered(s);
    var st := StageList(Stacked(s).ordered, b);
    StartedIs(s);
    StartMarks(s);
    StageListFacts(Stacked(s).ordered, b);
    forall y | 0 <= y < |s'.queue|
      ensures !Handed(s', s'.queue[y])
    {
      if y < |st| {
        assert s'.queue[y] == st[y];
      } else {
        var k := y - |st| + 1;
        assert s'.queue[y] == s.queue[k];
        assert Handed(s, s.queue[k]) ==> Passable(s, s.queue[0]);
      }
    }
  }

  lemma StartMarks(s: State)
    requires s.queue != []
    ensures forall r :: r in StartOrdered(s).started && r.kind.Special? ==> r in s.started
  {
    hide CompleteSeq, StageSet, StageList;
    var s1 := Stacked(s);
    var st := StageList(s1.ordered, s.queue[0]);
    StageListFacts(s1.ordered, s.queue[0]);
    CompleteSeqIs(s1, Skipped(s1.ordered, Draining(s1)), 0);
    if st != [] {
      assert st[0] in Elems(st) && s1.queue[0] == st[0];
    }
  }

  lemma FetchClear(s: State)
    requires Inv(s) && ClearAhead(s) && s.mode.tag
    ensures ClearAhead(Fetch(s))
  {
    hide Inv, ClearAhead, StartOrdered, Places, Colored, BarriersInOrder;
    Facts(s);
    if s.queue != [] && !Active(s) && FsType(s.queue[0]) && s.queue[0].hard {
      BarrierHead(s);
      StartClear(s);
    } else if Fetch(s) != s {
      assert Fetch(s) == Issue(s);
      IssueClear(s);
    }
  }

  lemma FinishClear(s: State, r: Req, error: int)
    requires ClearAhead(s)
    ensures ClearAhead(Finish(s, r, error))
  {
    hide ClearAhead, Finish;
    FinishIs(s, r, error);
    FinishStarted(s, r, error);
    FewerClear(s, Finish(s, r, error));
  }

  lemma StepKeepsClear(s: State, step: Step)
    requires Inv(s) && ClearAhead(s) && s.mode.tag && Enabled(s, step)
    ensures ClearAhead(Next(s, step))
  {
    hide Inv, ClearAhead, Fetch, Dispatch, Dequeue, Finish, Requeue, Add;
    match step
    case AddStep(kind, soft, hard, empty, write, sector, elvpriv, w) =>
      AddClear(s, Req(kind, s.nextId, hard, empty, s.color, write, sector), EffectiveWhere(soft, hard, elvpriv, w));
    case DispatchStep(r, tail, boundary) => DispatchClear(s, r, tail, boundary);
    case FetchStep => FetchClear(s);
    case DequeueStep(i) => DequeueClear(s, i);
    case FinishStep(r, error) => FinishClear(s, r, error);
    case RequeueStep(r) => RequeueClear(s, r);
  }

  // ---- every run ----

  ghost predicate Watched(s: State) { Progressing(s) && ClearAhead(s) && StraysWait(s) }

  /** Only a queue ordered by tags alone has drains. */
  lemma DrainsOnPlainTags(s: State)
    requires Inv(s) && s.mode.tag && s.mode != ORDERED_TAG
    ensures !OnlyDrain(s)
  {
    TagIsNotDrain(s);
    if OnlyDrain(s) {
      OnlyDrains(s);
    }
  }

  lemma StepKeepsWaiting(s: State, step: Step)
    requires Progressing(s) && StraysWait(s) && Enabled(s, step)
    ensures StraysWait(Next(s, step))
  {
    hide Inv, TagInv, Order, Moves, StraysWait, Next, Enabled;
    StepKeepsMode(s, step);
    if s.mode == ORDERED_TAG {
      StepKeepsHistory(s, step);
    } else {
      StepKeepsInv(s, step);
      DrainsOnPlainTags(Next(s, step));
      NotDrainWaits(Next(s, step));
    }
  }

  lemma StepKeepsWatched(s: State, step: Step)
    requires Watched(s) && Enabled(s, step)
    ensures Watched(Next(s, step))
  {
    StepProgresses(s, step);
    StepKeepsWaiting(s, step);
    hide Inv, TagInv, Order, Moves, StraysWait, ClearAhead, Next, Enabled;
    StepKeepsClear(s, step);
  }

  lemma {:induction false} RunKeepsWatched(s: State, steps: seq<Step>)
    requires Watched(s) && Possible(s, steps)
    ensures Watched(Run(s, steps))
    decreases |steps|
  {
    hide Watched, Next, Enabled;
    if steps != [] {
      StepKeepsWatched(s, steps[0]);
      RunKeepsWatched(Next(s, steps[0]), steps[1..]);
    }
  }

  lemma Reached(mode: Ordered, steps: seq<Step>)
    requires Supported(mode) && mode.tag && Possible(Init(mode), steps)
    ensures Watched(Run(Init(mode), steps))
  {
    hide Inv, Run, Possible;
    InitInv(mode);
    RunKeepsWatched(Init(mode), steps);
  }

  // ---- a stuck barrier stays stuck ----

  /** The head of a stuck queue waits for the end of the drain. */
  lemma StuckHead(s: State)
    requires Inv(s) && Order(s) && s.mode.tag && Stuck(s) && s.queue != []
    ensures ReqSeq(s.orig.value, s.queue[0]) > SEQ_DRAIN
  {
    hide Inv, Order;
    HeadTestIsExact(s);
  }

  /** Something in the queue has been handed out during a drain: then the head is part of the drain. */
  lemma HandedMeansDue(s: State, i: nat)
    requires Watched(s) && OnlyDrain(s) && i < |s.queue| && s.queue[i] in s.started
    ensures ReqSeq(s.orig.value, s.queue[0]) <= SEQ_DRAIN
  {
    hide Inv, Order, Moves, NewerBehind, ClearAhead, DrainFirst;
    if s.queue[i].kind.Special? {
      HandedHead(s, i);
    } else {
      HandedIsKnown(s, i);
      KnownHead(s, i);
    }
  }

  lemma HandedHead(s: State, i: nat)
    requires ClearAhead(s) && OnlyDrain(s) && i < |s.queue| && Handed(s, s.queue[i])
    ensures ReqSeq(s.orig.value, s.queue[0]) <= SEQ_DRAIN
  {
    assert i > 0 ==> Passable(s, s.queue[0]);
  }

  lemma KnownHead(s: State, i: nat)
    requires DrainFirst(s) && OnlyDrain(s) && i < |s.queue| && Known(s.orig.value, s.queue[i])
    ensures ReqSeq(s.orig.value, s.queue[0]) <= SEQ_DRAIN
  {
    assert i > 0 ==> ReqSeq(s.orig.value, s.queue[0]) <= SEQ_DRAIN;
  }

  lemma HandedIsKnown(s: State, i: nat)
    requires Watched(s) && OnlyDrain(s) && i < |s.queue| && s.queue[i] in s.started && !s.queue[i].kind.Special?
    ensures Known(s.orig.value, s.queue[i])
  {
    hide Inv, Order, Moves, TagInv, ClearAhead;
    TagDrains(s);
    PlainQueue(s, i);
    OrderPlaces(s);
    assert s.queue[i] in LiveSet(s);
    StartedIsOlder(s, i);
  }

  /** Nothing in a stuck queue has been handed out. */
  lemma NothingHandedOut(s: State, i: nat)
    requires Watched(s) && Stuck(s) && i < |s.queue|
    ensures s.queue[i] !in s.started
  {
    hide Inv, Order, Moves, TagInv, ClearAhead, StraysWait;
    StuckHead(s);
    if s.queue[i] in s.started {
      HandedMeansDue(s, i);
    }
  }

  lemma PlainQueue(s: State, i: nat)
    requires Inv(s) && i < |s.queue|
    ensures s.queue[i] in s.started ==> !FsBarrier(s.queue[i])
  {
    Facts(s);
    hide Inv, Colored, BarriersInOrder;
  }

  lemma OrderPlaces(s: State)
    requires Order(s)
    ensures InPlace(s, Colors(s.queue, s.color))
  {
  }

  lemma StuckFetch(s: State)
    requires Watched(s) && Stuck(s)
    ensures Fetch(s) == s
  {
    hide Inv, Order, Moves, TagInv, ClearAhead, StraysWait, ReqSeq;
    TagDrains(s);
    if s.queue != [] {
      StuckHead(s);
      HeadIsNotSpecial(s);
    }
  }

  lemma HeadIsNotSpecial(s: State)
    requires Stuck(s) && s.queue != []
    ensures !s.queue[0].kind.Special?
  {
  }

  /** What the scheduler gives up is newer than the barrier. */
  lemma StuckDispatch(s: State, r: Req, tail: bool, boundary: nat)
    requires Inv(s) && TagInv(s) && Stuck(s) && r in s.held
    ensures Stuck(Dispatch(s, r, tail, boundary))
  {
    hide Inv, InsertAt, SortPos, NewerBehind;
    HeldIsFs(s, r);
    var i := if tail then |s.queue| else SortPos(s, s.queue, r, boundary);
    InsertAtInserts(s.queue, i, r);
  }

  lemma StuckStays(s: State, step: Step)
    requires Watched(s) && Stuck(s) && Enabled(s, step) && !step.AddStep?
    ensures Stuck(Next(s, step)) && Next(s, step).orig == s.orig
  {
    hide Inv, Order, Moves, TagInv, ClearAhead, StraysWait, Stuck, Fetch;
    StuckFlight(s);
    if step.FetchStep? {
      StuckFetch(s);
    } else if step.DispatchStep? {
      StuckDispatch(s, step.r, step.tail, step.boundary);
    } else if step.DequeueStep? {
      NothingHandedOut(s, step.i);
    }
  }

  lemma StuckFlight(s: State)
    requires Stuck(s)
    ensures s.flight == {} && s.orig.Some?
  {
  }

  /** Without an arrival a stuck barrier never ends. */
  lemma {:induction false} StuckForGood(s: State, more: seq<Step>)
    requires Watched(s) && Stuck(s) && Possible(s, more) && WithoutArrivals(more)
    ensures s.orig.Some? && Stuck(Run(s, more)) && !EndedIn(Run(s, more).log, s.orig.value)
    decreases |more|
  {
    hide Inv, Order, Moves, TagInv, ClearAhead, StraysWait, Stuck, EndedIn, Next, Enabled;
    StuckFlight(s);
    if more == [] {
      RunningNotEnded(s, s.orig.value);
    } else {
      StuckStays(s, more[0]);
      StepKeepsWatched(s, more[0]);
      StuckForGood(Next(s, more[0]), more[1..]);
    }
  }

  // ---- the theorems ----

  ghost predicate CanEndBy(s: State, more: seq<Step>) {
    s.orig.Some? && Possible(s, more) && EndedIn(Run(s, more).log, s.orig.value)
  }

  /** In every run on a tag queue: a running barrier can be ended without new arrivals if and only if it is
      not stuck. */
  lemma EndsWithoutArrivalsIff(mode: Ordered, steps: seq<Step>)
    requires Supported(mode) && mode.tag && Possible(Init(mode), steps) && Run(Init(mode), steps).orig.Some?
    ensures var s := Run(Init(mode), steps);
            (exists more :: WithoutArrivals(more) && CanEndBy(s, more)) <==> !Stuck(s)
  {
    hide Progressing, ClearAhead, StraysWait, Run, Possible, Init, Supported, Stuck, WithoutArrivals, EndedIn;
    Reached(mode, steps);
    var s := Run(Init(mode), steps);
    if Stuck(s) {
      forall more | WithoutArrivals(more)
        ensures !CanEndBy(s, more)
      {
        if Possible(s, more) {
          StuckForGood(s, more);
        }
      }
    } else {
      var more := TagProgress.CanEnd(s);
      assert CanEndBy(s, more);
    }
  }

  /** A special request inserted at the front, handed out, taken and completed. */
  function PassSpecial(s: State, error: int): seq<Step> {
    [AddStep(Special, false, false, false, false, 0, false, Front), FetchStep] +
    [DequeueStep(0), FinishStep(Req(Special, s.nextId, false, false, s.color, false, 0), error)]
  }

  /** t is s with x in front, handed out. */
  ghost predicate Joined(s: State, x: Req, t: State) {
    && Watched(t) && t.queue == [x] + s.queue && x in t.started && t.flight == s.flight
    && t.orig == s.orig && t.ordered == s.ordered
  }

  lemma SpecialIn(s: State)
    requires Watched(s) && Stuck(s)
    ensures var x := Req(Special, s.nextId, false, false, s.color, false, 0);
            var steps := [AddStep(Special, false, false, false, false, 0, false, Front), FetchStep];
            Possible(s, steps) && Joined(s, x, Run(s, steps))
  {
    hide Progressing, ClearAhead, StraysWait, Run, Possible;
    var step := AddStep(Special, false, false, false, false, 0, false, Front);
    var s1 := Next(s, step);
    StepKeepsWatched(s, step);
    StepKeepsWatched(s1, FetchStep);
    WatchedIsActive(s);
    assert Fetch(s1) == Issue(s1);
    TagDrain.RunOfTwo(s, step, FetchStep);
  }

  lemma WatchedIsActive(s: State)
    requires Watched(s) && s.orig.Some?
    ensures Active(s)
  {
    RunningIsActive(s);
  }

  lemma SpecialOut(s: State, x: Req, q: seq<Req>, error: int)
    requires Watched(s) && OnlyDrain(s) && s.queue == [x] + q && x in s.started && s.flight == {}
    requires q == [] || !DrainPart(s.orig.value, q[0])
    ensures var steps := [DequeueStep(0), FinishStep(x, error)];
            Possible(s, steps) && EndedIn(Run(s, steps).log, s.orig.value)
  {
    hide Progressing, ClearAhead, StraysWait, Run, Possible, Finish, EndedIn, DrainPart;
    var s1 := Next(s, DequeueStep(0));
    StepKeepsWatched(s, DequeueStep(0));
    assert s1.queue == q && s1.flight == {x};
    FinishIs(s1, x, error);
    CompletionIsNotStuck(s1, x, error);
    var s2 := Finish(s1, x, error);
    assert s2.orig != s.orig;
    FinishEndsIn(s1, x, error);
    TagDrain.RunOfTwo(s, DequeueStep(0), FinishStep(x, error));
  }

  lemma CompletionIsNotStuck(s: State, r: Req, error: int)
    requires Watched(s) && r in s.flight
    ensures !Stuck(Finish(s, r, error))
  {
    hide Inv, TagInv, Order, Moves, ClearAhead, StraysWait, Finish, Stuck;
    FinishMoves(s, r, error);
  }

  /** In every run on a tag queue: one special request at the front ends a stuck barrier, because its
      completion looks at the drain again. */
  lemma SpecialEndsStuck(mode: Ordered, steps: seq<Step>, error: int)
    requires Supported(mode) && mode.tag && Possible(Init(mode), steps) && Stuck(Run(Init(mode), steps))
    ensures var s := Run(Init(mode), steps); CanEndBy(s, PassSpecial(s, error))
  {
    hide Progressing, ClearAhead, StraysWait, Run, Possible, Init, Supported, EndedIn, Next, Enabled;
    Reached(mode, steps);
    var s := Run(Init(mode), steps);
    var x := Req(Special, s.nextId, false, false, s.color, false, 0);
    var front := [AddStep(Special, false, false, false, false, 0, false, Front), FetchStep];
    SpecialIn(s);
    SpecialOut(Run(s, front), x, s.queue, error);
    TagDrain.RunOfBoth(s, front, [DequeueStep(0), FinishStep(x, error)]);
  }

  /** So in every run on a tag queue a running barrier can still be ended, by at most one arrival. */
  lemma EveryTagBarrierCanEnd(mode: Ordered, steps: seq<Step>)
    requires Supported(mode) && mode.tag && Possible(Init(mode), steps) && Run(Init(mode), steps).orig.Some?
    ensures exists more :: CanEndBy(Run(Init(mode), steps), more)
  {
    hide Run, Possible, Init, Supported, Stuck, CanEndBy, WithoutArrivals;
    if Stuck(Run(Init(mode), steps)) {
      SpecialEndsStuck(mode, steps, 0);
    } else {
      EndsWithoutArrivalsIff(mode, steps);
    }
  }

  // ---- a run that gets stuck ----

  const SECOND := Req(Fs, 2, true, true, true, false, 0)

  /** The empty barrier comes while only the old request is in flight, which then goes back. */
  const STALLS := [AddBack(true, true), FetchStep] + [RequeueStep(OLD)]

  const S2_DRAINING := S2.(soft := S2.soft + {SECOND}, color := false, ordseq := OrdSeq(true, false, true, true, true),
                           ordered := Masked(ORDERED_TAG, true), orig := Some(SECOND), nextId := 3, log := LOG2 + [Added(SECOND)])

  lemma SecondStarts()
    ensures Possible(S2, [AddBack(true, true), FetchStep]) && Run(S2, [AddBack(true, true), FetchStep]) == S2_DRAINING
  {
    hide Run, Possible;
    var a := Next(S2, AddBack(true, true));
    assert a.queue == [SECOND] && StageList(Masked(ORDERED_TAG, true), SECOND) == [] && Elems([]) == {};
    assert Next(a, FetchStep) == S2_DRAINING;
    TagDrain.RunOfTwo(S2, AddBack(true, true), FetchStep);
  }

  lemma OldGoesBack()
    ensures Possible(S2_DRAINING, [RequeueStep(OLD)]) && Stuck(Run(S2_DRAINING, [RequeueStep(OLD)]))
  {
    hide Run, Possible;
    var c := Next(S2_DRAINING, RequeueStep(OLD));
    assert c.queue == [OLD] && c.flight == {};
    TagDrain.RunOfOne(S2_DRAINING, RequeueStep(OLD));
  }

  /** A run after which no continuation without an arrival ends the barrier. */
  lemma TagQueueStalls()
    ensures var steps := HAND_OUT_OLD + TAGGED_ENDS + STALLS;
            && Possible(Init(ORDERED_TAG), steps) && Stuck(Run(Init(ORDERED_TAG), steps))
            && (forall more :: WithoutArrivals(more) ==> !CanEndBy(Run(Init(ORDERED_TAG), steps), more))
  {
    hide Run, Possible, Init, Next, Enabled, Stuck, WithoutArrivals, CanEndBy;
    First();
    Second();
    TagDrain.RunOfBoth(Init(ORDERED_TAG), HAND_OUT_OLD, TAGGED_ENDS);
    SecondStarts();
    OldGoesBack();
    TagDrain.RunOfBoth(S2, [AddBack(true, true), FetchStep], [RequeueStep(OLD)]);
    TagDrain.RunOfBoth(Init(ORDERED_TAG), HAND_OUT_OLD + TAGGED_ENDS, STALLS);
    StuckFlight(Run(Init(ORDERED_TAG), HAND_OUT_OLD + TAGGED_ENDS + STALLS));
    EndsWithoutArrivalsIff(ORDERED_TAG, HAND_OUT_OLD + TAGGED_ENDS + STALLS);
  }

}
