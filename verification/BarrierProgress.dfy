/** Barrier sequences on draining queues never get stuck: whatever state a run has reached, the running
    sequence goes on as soon as nothing is in flight, and completing what is handed out ends it. */
module BarrierProgress {

  import opened Options
  import opened Barrier

  /** The queue head belongs to the drain. */
  predicate HeadDrains(s: State) {
    s.orig.Some? && s.queue != [] && ReqSeq(s.orig.value, s.queue[0]) <= SEQ_DRAIN
  }

  ghost predicate SpecialsAreSoft(s: State) {
    forall i :: 0 <= i < |s.queue| && s.queue[i].kind.Special? ==> s.queue[i] in s.soft
  }

  /** While the drain lasts, something is in flight whose completion will look at it again, or the queue
      head is part of it. */
  ghost predicate Moving(s: State) {
    && SpecialsAreSoft(s)
    && (s.orig.Some? && !s.ordseq.drain ==> s.flight != {} || HeadDrains(s))
  }

  // ---- every step keeps it ----

  lemma SoftAfterInsert(s: State, i: nat, r: Req, s': State)
    requires SpecialsAreSoft(s) && i <= |s.queue| && s'.queue == InsertAt(s.queue, i, r) && s.soft <= s'.soft
    requires r.kind.Special? ==> r in s'.soft
    ensures SpecialsAreSoft(s')
  {
    hide InsertAt;
    InsertAtInserts(s.queue, i, r);
  }

  lemma AddKeepsMoving(s: State, r: Req, w: Where)
    requires Inv(s) && Moving(s) && s.mode.drain && r.id == s.nextId && (r.kind.Special? ==> !w.Sort?) && (w.Front? ==> r.kind.Special?)
    ensures Moving(Add(s, r, w))
  {
    hide Inv;
    var s' := Add(s, r, w);
    match w
    case Front => assert s'.queue == InsertAt(s.queue, 0, r); SoftAfterInsert(s, 0, r, s');
    case Back => assert s'.queue == InsertAt(s.queue, |s.queue|, r); SoftAfterInsert(s, |s.queue|, r, s');
    case Sort =>
      NewIsNotQueued(s, r);
      assert forall i :: 0 <= i < |s.queue| && s.queue[i] in s.soft ==> s.queue[i] in s'.soft;
  }

  /** An arriving request is nowhere in the queue. */
  lemma NewIsNotQueued(s: State, r: Req)
    requires Inv(s) && r.id == s.nextId
    ensures forall i :: 0 <= i < |s.queue| ==> s.queue[i] != r
  {
    LiveIdsBelow(s);
    assert forall i :: 0 <= i < |s.queue| ==> s.queue[i] in LiveSet(s);
  }

  /** What belongs to the drain is not passed by a request the scheduler sorts in. */
  lemma HeadIsSoft(s: State)
    requires Inv(s) && SpecialsAreSoft(s) && s.mode.drain && HeadDrains(s)
    ensures s.queue[0] in s.soft
  {
    var h := s.queue[0];
    if h.kind.Fs? {
      HeadColorMeansOlder(s);
    }
  }

  lemma HeldIsFs(s: State, r: Req)
    requires Inv(s) && r in s.held
    ensures r.kind.Fs? && !r.hard
  {
    hide GoodLog, BarriersInOrder, Separated, AroundSequence, Colored, LogOk, IssuedOk, SequenceOk;
  }

  lemma DispatchKeepsMoving(s: State, r: Req, tail: bool, boundary: nat)
    requires Inv(s) && Moving(s) && s.mode.drain && r in s.held
    ensures Moving(Dispatch(s, r, tail, boundary))
  {
    var s' := Dispatch(s, r, tail, boundary);
    var i := if tail then |s.queue| else SortPos(s, s.queue, r, boundary);
    hide Inv, InsertAt;
    HeldIsFs(s, r);
    InsertAtInserts(s.queue, i, r);
    if HeadDrains(s) {
      HeadIsSoft(s);
      assert i > 0;
    }
    SoftAfterInsert(s, i, r, s');
  }

  lemma DequeueKeepsMoving(s: State, i: nat)
    requires Moving(s) && i < |s.queue|
    ensures Moving(Dequeue(s, i))
  {
    var s' := Dequeue(s, i);
    assert forall j :: 0 <= j < |s'.queue| ==> s'.queue[j] == s.queue[if j < i then j else j + 1];
    assert s.queue[i] in s'.flight;
  }

  lemma FlightIsOlder(s: State, r: Req)
    requires Places(s) && IssuedOk(s) && AroundSequence(s) && Colored(s)
    requires s.mode.drain && r in s.flight && s.orig.Some? && !s.ordseq.drain
    ensures !IsStage(r.kind) && (r.kind.Fs? ==> Older(s, r) && r.color == s.orig.value.color)
  {
    hide Colors;
    assert r in LiveSet(s);
  }

  /** What is in flight during the drain is part of it. */
  lemma FlightDrains(s: State, r: Req)
    requires Inv(s) && s.mode.drain && r in s.flight && s.orig.Some? && !s.ordseq.drain
    ensures !IsStage(r.kind) && Active(s) && ReqSeq(s.orig.value, r) == SEQ_DRAIN && s.ordseq.Cur() == SEQ_DRAIN
    ensures RequeuePos(s.orig.value, s.queue, ReqSeq(s.orig.value, r)) == 0
  {
    hide Places, IssuedOk, AroundSequence, Colored, LogOk, GoodLog, BarriersInOrder, Separated, StageOk;
    FlightIsOlder(s, r);
  }

  /** A request in flight during the drain goes back to the front. */
  lemma RequeueKeepsMoving(s: State, r: Req)
    requires Inv(s) && Moving(s) && s.mode.drain && r in s.flight
    ensures Moving(Requeue(s, r))
  {
    hide Inv, InsertAt;
    var s' := Requeue(s, r);
    if s.orig.Some? && !s.ordseq.drain {
      FlightDrains(s, r);
      InsertAtInserts(s.queue, 0, r);
    }
    hide RequeuePos;
    SoftAfterInsert(s, if !Active(s) then 0 else RequeuePos(s.orig.value, s.queue, ReqSeq(s.orig.value, r)), r, s');
  }

  lemma FetchKeepsMoving(s: State)
    requires Inv(s) && Moving(s) && s.mode.drain
    ensures Moving(Fetch(s))
  {
    hide Inv, StartOrdered;
    if s.queue != [] && !Active(s) && FsType(s.queue[0]) && s.queue[0].hard {
      IdleOrig(s);
      BarrierHead(s);
      StartKeepsMoving(s);
    }
  }

  lemma IdleOrig(s: State)
    requires Inv(s) && !Active(s)
    ensures s.orig.None? && s.ordseq == IDLE
  {
    hide GoodLog, BarriersInOrder, Separated, AroundSequence, Colored, LogOk, IssuedOk, Places, StageOk;
  }

  lemma NoneInFlight(s: State)
    requires Inv(s) && s.flight == {}
    ensures s.inFlight == 0
  {
    hide GoodLog, BarriersInOrder, Separated, AroundSequence, Colored, LogOk, IssuedOk, SequenceOk;
    assert FsIn(s.flight) == {};
  }

  lemma HeadWeightless(s: State)
    requires Inv(s) && s.queue != [] && FsBarrier(s.queue[0])
    ensures Weight(s, s.queue[0]) == 0
  {
    hide GoodLog, BarriersInOrder, Separated, AroundSequence, Colored, LogOk, IssuedOk, SequenceOk;
  }

  lemma StartKeepsMoving(s: State)
    requires Inv(s) && SpecialsAreSoft(s) && s.mode.drain && s.orig.None? && s.queue != [] && FsBarrier(s.queue[0])
    ensures Moving(StartOrdered(s))
  {
    hide Inv, StartOrdered, Stacked, StageList, StageSet;
    var b, s' := s.queue[0], StartOrdered(s);
    var st := StageList(Stacked(s).ordered, b);
    StageListFacts(Stacked(s).ordered, b);
    StartedIs(s);
    HeadWeightless(s);
    if s.flight == {} {
      NoneInFlight(s);
    }
    forall i | 0 <= i < |s'.queue| && s'.queue[i].kind.Special?
      ensures s'.queue[i] in s'.soft
    {
      if i < |st| {
        assert st[i] in Elems(st);
      } else {
        assert s'.queue[i] == s.queue[i - |st| + 1];
      }
    }
  }

  lemma LastCompletion(s: State, r: Req, error: int)
    requires Inv(s) && r in s.flight && Released(s, r, error).flight == {}
    ensures Released(s, r, error).inFlight == 0
  {
    hide GoodLog, BarriersInOrder, Separated, AroundSequence, Colored, LogOk, IssuedOk, SequenceOk;
    FsInRemove(s.flight, r);
    assert FsIn(s.flight - {r}) == {};
  }

  /** The last completion ends the drain unless the queue head is part of it. */
  lemma FinishKeepsMoving(s: State, r: Req, error: int)
    requires Inv(s) && Moving(s) && s.mode.drain && r in s.flight
    ensures Moving(Finish(s, r, error))
  {
    hide Inv, Finish, Released;
    var s1, s' := Released(s, r, error), Finish(s, r, error);
    FinishIs(s, r, error);
    if s.orig.Some? && !s.ordseq.drain && s'.flight == {} {
      FlightDrains(s, r);
      FinishFsForm(s, r, error);
      ReleasedFrame(s, r, error);
      LastCompletion(s, r, error);
    }
  }

  lemma ReleasedFrame(s: State, r: Req, error: int)
    ensures var s1 := Released(s, r, error);
            s1.queue == s.queue && s1.flight == s.flight - {r} && s1.orig == s.orig && s1.ordseq == s.ordseq
  {
  }

  lemma StepKeepsMoving(s: State, step: Step)
    requires Inv(s) && Moving(s) && s.mode.drain && Enabled(s, step)
    ensures Moving(Next(s, step))
  {
    hide Inv, Moving, Fetch, Dispatch, Dequeue, Finish, Requeue, Add;
    match step
    case AddStep(kind, soft, hard, empty, write, sector, elvpriv, w) =>
      AddKeepsMoving(s, Req(kind, s.nextId, hard, empty, s.color, write, sector), EffectiveWhere(soft, hard, elvpriv, w));
    case DispatchStep(r, tail, boundary) => DispatchKeepsMoving(s, r, tail, boundary);
    case FetchStep => FetchKeepsMoving(s);
    case DequeueStep(i) => DequeueKeepsMoving(s, i);
    case FinishStep(r, error) => FinishKeepsMoving(s, r, error);
    case RequeueStep(r) => RequeueKeepsMoving(s, r);
  }

  lemma {:induction false} RunKeepsMoving(s: State, steps: seq<Step>)
    requires Inv(s) && Moving(s) && s.mode.drain && Possible(s, steps)
    ensures Inv(Run(s, steps)) && Moving(Run(s, steps)) && Run(s, steps).mode == s.mode
    decreases |steps|
  {
    hide Inv, Moving, Next, Enabled;
    if steps != [] {
      StepKeepsInv(s, steps[0]);
      StepKeepsMode(s, steps[0]);
      StepKeepsMoving(s, steps[0]);
      RunKeepsMoving(Next(s, steps[0]), steps[1..]);
    }
  }

  lemma Reached(mode: Ordered, steps: seq<Step>)
    requires Supported(mode) && mode.drain && Possible(Init(mode), steps)
    ensures var s := Run(Init(mode), steps); Inv(s) && Moving(s) && s.mode.drain
  {
    hide Inv, Run, Possible;
    InitInv(mode);
    RunKeepsMoving(Init(mode), steps);
  }

  // ---- nothing is stuck ----

  /** The stage the sequence has come to is live. */
  lemma CurrentStage(s: State) returns (k: Kind)
    requires Inv(s) && s.orig.Some? && s.ordseq.drain
    ensures IsStage(k) && StageSeq(k) == s.ordseq.Cur() && StageReq(k, s.orig.value) in LiveSet(s)
  {
    k := if !s.ordseq.preflush then PreFlush else if !s.ordseq.bar then Bar else PostFlush;
    assert StageOk(s.mode, LiveSet(s), s.orig.value, s.ordseq, s.log, k);
  }

  /** With nothing in flight the head of the queue is handed out. */
  lemma HeadIsDue(s: State)
    requires Inv(s) && Moving(s) && s.mode.drain && s.orig.Some? && s.flight == {}
    ensures s.queue != [] && Active(s) && Fetch(s) == Issue(s)
  {
    assert !s.ordered.tag;
    if s.ordseq.drain {
      var k := CurrentStage(s);
      StageIsFirst(s, k);
    }
  }

  lemma StageIsFirst(s: State, k: Kind)
    requires Inv(s) && s.mode.drain && s.orig.Some? && s.flight == {} && s.ordseq.drain
    requires IsStage(k) && StageReq(k, s.orig.value) in LiveSet(s)
    ensures s.queue != [] && (s.queue[0].kind.Special? || ReqSeq(s.orig.value, s.queue[0]) <= StageSeq(k))
  {
    var b, r := s.orig.value, StageReq(k, s.orig.value);
    assert r in s.queue;
    var j :| 0 <= j < |s.queue| && s.queue[j] == r;
    var h := s.queue[0];
    assert h in LiveSet(s);
    assert j > 0 && !h.kind.Special? ==> Rank(b, h) <= Rank(b, r);
  }

  /** In every run on a draining queue: when a sequence is running and nothing is in flight, a fetch
      hands out the queue head, whatever the scheduler still holds. */
  lemma NeverStuck(mode: Ordered, steps: seq<Step>)
    requires Supported(mode) && mode.drain && Possible(Init(mode), steps)
    requires Run(Init(mode), steps).orig.Some? && Run(Init(mode), steps).flight == {}
    ensures var s := Run(Init(mode), steps);
            s.queue != [] && Fetch(s) == Issue(s) && Issued(s.queue[0]) in Fetch(s).log
  {
    hide Inv, Moving, Init, Run, Possible, Supported, Fetch;
    Reached(mode, steps);
    HeadIsDue(Run(Init(mode), steps));
  }

  // ---- a driver that completes what it gets ends the barrier ----

  /** Nothing new arrives: the driver fetches, takes, completes and requeues, and the scheduler gives up
      what it holds. */
  predicate WithoutArrivals(steps: seq<Step>) { forall i :: 0 <= i < |steps| ==> !steps[i].AddStep? }

  function Size(s: State): nat { |s.queue| + |s.flight| }

  lemma FinishShrinks(s: State, r: Req, error: int)
    requires r in s.flight
    ensures Size(Finish(s, r, error)) == Size(s) - 1
    ensures s.orig.Some? ==> var s' := Finish(s, r, error);
            s'.orig == s.orig || (s'.orig.None? && EndedIn(s'.log, s.orig.value))
  {
    hide Finish;
    var s' := Finish(s, r, error);
    FinishIs(s, r, error);
    FinishLog(s, r, error);
    if s'.orig != s.orig {
      assert s'.log[|s'.log| - 1] == Ended(s.orig.value, s'.orderr);
    }
  }

  lemma TakeHead(s: State)
    requires Inv(s) && Active(s) && s.queue != [] && Fetch(s) == Issue(s) && s.flight == {}
    ensures var s1 := Dequeue(Issue(s), 0);
            s1.flight == {s.queue[0]} && Size(s1) == Size(s) && s1.orig == s.orig && s.queue[0] in Issue(s).started
  {
    hide Inv, Fetch;
    var s1 := Dequeue(Issue(s), 0);
    assert |s1.queue| == |s.queue| - 1 && s1.flight == {s.queue[0]};
  }

  /** From any such state there is a run that ends the barrier: complete what is in flight, and when
      nothing is, fetch and take the queue head. */
  lemma {:induction false} CanEnd(s: State) returns (steps: seq<Step>)
    requires Inv(s) && Moving(s) && s.mode.drain && s.orig.Some?
    ensures Possible(s, steps) && WithoutArrivals(steps) && EndedIn(Run(s, steps).log, s.orig.value)
    decreases Size(s), s.flight == {}
  {
    hide Inv, Moving, EndedIn, Fetch, Finish, Dequeue, Issue, Size;
    if s.flight != {} {
      var r :| r in s.flight;
      FinishShrinks(s, r, 0);
      StepKeepsInv(s, FinishStep(r, 0));
      StepKeepsMode(s, FinishStep(r, 0));
      StepKeepsMoving(s, FinishStep(r, 0));
      var s' := Finish(s, r, 0);
      var rest := [];
      if s'.orig.Some? {
        rest := CanEnd(s');
      }
      steps := [FinishStep(r, 0)] + rest;
      assert steps[1..] == rest;
    } else {
      HeadIsDue(s);
      TakeHead(s);
      FetchIs(s);
      var s1 := Fetch(s);
      var s2 := Dequeue(s1, 0);
      StepKeepsInv(s, FetchStep);
      StepKeepsMode(s, FetchStep);
      StepKeepsMoving(s, FetchStep);
      StepKeepsInv(s1, DequeueStep(0));
      StepKeepsMode(s1, DequeueStep(0));
      StepKeepsMoving(s1, DequeueStep(0));
      var rest := CanEnd(s2);
      steps := [FetchStep, DequeueStep(0)] + rest;
      assert steps[1..] == [DequeueStep(0)] + rest && steps[1..][1..] == rest;
      assert Possible(s1, steps[1..]);
    }
  }

  lemma FetchIs(s: State)
    requires s.queue != [] && Fetch(s) == Issue(s)
    ensures Fetch(s).queue == s.queue
  {
  }

  /** In every run on a draining queue a running barrier can still be ended, without any new arrival. */
  lemma EveryBarrierCanEnd(mode: Ordered, steps: seq<Step>)
    requires Supported(mode) && mode.drain && Possible(Init(mode), steps) && Run(Init(mode), steps).orig.Some?
    ensures var s := Run(Init(mode), steps);
            exists more :: Possible(s, more) && WithoutArrivals(more) && EndedIn(Run(s, more).log, s.orig.value)
  {
    hide Inv, Moving, Init, Run, Possible, Supported, WithoutArrivals;
    Reached(mode, steps);
    var more := CanEnd(Run(Init(mode), steps));
  }
}
