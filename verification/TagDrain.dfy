/** Empty barriers on a tag queue.  A queue ordered by tags alone has no request to carry the tag of an
    empty barrier, so its sequence is a drain.  The drain tells older requests from newer ones by their
    colour, but on a tag queue a request from before an earlier barrier can still be in flight, with the
    other colour.  When such a request is requeued it is taken for a newer one. */
module TagDrain {

  import opened Options
  import opened Barrier

  /** Older than the barrier but, having the other colour, not recognised as such. */
  predicate Stray(b: Req, r: Req) { r.kind.Fs? && !r.hard && r.id < b.id && r.color != b.color }

  /** A stray request waits in the queue. */
  predicate HasStray(s: State, b: Req) { exists i :: 0 <= i < |s.queue| && Stray(b, s.queue[i]) }

  /** A queued barrier has only newer requests behind it and in the scheduler. */
  ghost predicate NewerBehind(s: State) {
    && (forall i, k {:trigger FsBarrier(s.queue[k]), s.queue[i].kind} ::
          0 <= k < i < |s.queue| && FsBarrier(s.queue[k]) && s.queue[i].kind.Fs? ==> s.queue[k].id < s.queue[i].id)
    && (forall k, r {:trigger FsBarrier(s.queue[k]), r in s.held} ::
          0 <= k < |s.queue| && FsBarrier(s.queue[k]) && r in s.held ==> s.queue[k].id < r.id)
  }

  /** The running sequence is the drain of an empty barrier. */
  predicate OnlyDrain(s: State) { s.orig.Some? && !s.ordered.tag }

  /** An older request that the drain recognises. */
  predicate Known(b: Req, r: Req) { r.kind.Fs? && r.id < b.id && r.color == b.color }

  /** During such a drain no older request is in the scheduler, and those in the queue that the drain
      recognises come before everything that waits for its end. */
  ghost predicate DrainFirst(s: State) {
    OnlyDrain(s) ==>
      && (forall r :: r in s.held ==> s.orig.value.id < r.id)
      && (forall i :: 0 <= i < |s.queue| && Known(s.orig.value, s.queue[i]) ==> s.queue[i] in s.soft)
      && (forall i, j {:trigger ReqSeq(s.orig.value, s.queue[i]), Known(s.orig.value, s.queue[j])} ::
            0 <= i < j < |s.queue| && Known(s.orig.value, s.queue[j]) ==> ReqSeq(s.orig.value, s.queue[i]) <= SEQ_DRAIN)
  }

  ghost predicate TagInv(s: State) { NewerBehind(s) && DrainFirst(s) }

  // ---- what a queue ordered by tags always has ----

  lemma Facts(s: State)
    requires Inv(s)
    ensures Places(s) && BarriersInOrder(s) && Colored(s)
    ensures s.orig.Some? <==> Active(s)
    ensures s.orig.None? ==> s.ordseq == IDLE
    ensures s.orig.Some? ==> FsBarrier(s.orig.value) && s.ordered == Masked(s.mode, s.orig.value.empty)
  {
    hide Places, GoodLog, BarriersInOrder, Colored, LogOk, IssuedOk, StageOk, Separated, AroundSequence;
  }

  lemma IdsFit(s: State)
    requires Inv(s)
    ensures forall i :: 0 <= i < |s.queue| ==> s.queue[i].id < s.nextId
    ensures forall r :: r in s.held || r in s.flight || s.orig == Some(r) ==> r.id < s.nextId
  {
    hide Places, GoodLog, BarriersInOrder, Colored, IssuedOk, SequenceOk, Separated, AroundSequence;
    assert forall i :: 0 <= i < |s.queue| ==> s.queue[i] in LiveSet(s);
    if s.orig.Some? {
      assert Added(s.orig.value) in s.log;
    }
  }

  /** The first queued barrier has the colour the running one does not have, so a requeued request goes
      in front of every barrier. */
  lemma RequeueBeforeBarriers(s: State, r: Req, k: nat)
    requires Colored(s) && s.orig.Some? && k < |s.queue| && FsBarrier(s.queue[k])
    ensures RequeuePos(s.orig.value, s.queue, ReqSeq(s.orig.value, r)) <= k
  {
    if j :| 0 <= j < k && FsBarrier(s.queue[j]) {
      RequeueBeforeBarriers(s, r, j);
    } else {
      HeadColor(s.queue, k, s.color);
    }
  }

  // ---- every step keeps it ----

  lemma InsertNewer(s: State, i: nat, r: Req, s': State)
    requires NewerBehind(s) && Inserted(s.queue, i, r, s'.queue) && s'.held <= s.held
    requires r.kind.Fs? ==> forall k :: 0 <= k < i && FsBarrier(s.queue[k]) ==> s.queue[k].id < r.id
    requires FsBarrier(r) ==> i == |s.queue| && s.held == {}
    ensures NewerBehind(s')
  {
  }

  lemma InsertDrain(s: State, i: nat, r: Req, s': State)
    requires DrainFirst(s) && Inserted(s.queue, i, r, s'.queue) && s'.held <= s.held && s.soft <= s'.soft
    requires s'.orig == s.orig && s'.ordered == s.ordered
    requires OnlyDrain(s) && Known(s.orig.value, r) ==> i == 0 && r in s'.soft
    requires OnlyDrain(s) && !Known(s.orig.value, r) && ReqSeq(s.orig.value, r) > SEQ_DRAIN ==>
               forall j :: i <= j < |s.queue| ==> !Known(s.orig.value, s.queue[j])
    ensures DrainFirst(s')
  {
  }

  lemma AddKeepsTag(s: State, r: Req, w: Where)
    requires Inv(s) && TagInv(s) && r.id == s.nextId && (w.Front? ==> r.kind.Special?) && (FsBarrier(r) ==> w.Back?)
    requires !IsStage(r.kind) && (w.Back? ==> s.held == {})
    ensures TagInv(Add(s, r, w))
  {
    hide Inv, InsertAt, NewerBehind, DrainFirst;
    IdsFit(s);
    var s' := Add(s, r, w);
    match w
    case Front =>
      FrontIsInsert(s.queue, r);
      InsertAtInserts(s.queue, 0, r);
      InsertNewer(s, 0, r, s');
      InsertDrain(s, 0, r, s');
    case Back =>
      AppendIsInsert(s.queue, r);
      InsertAtInserts(s.queue, |s.queue|, r);
      InsertNewer(s, |s.queue|, r, s');
      InsertDrain(s, |s.queue|, r, s');
    case Sort => SortKeepsTag(s, r, s');
  }

  lemma AppendIsInsert(q: seq<Req>, r: Req)
    ensures q + [r] == InsertAt(q, |q|, r)
  {
  }

  lemma SortKeepsTag(s: State, r: Req, s': State)
    requires TagInv(s) && (forall i :: 0 <= i < |s.queue| ==> s.queue[i].id < r.id) && (s.orig.Some? ==> s.orig.value.id < r.id)
    requires s'.queue == s.queue && s'.held == s.held + {r} && s'.soft == s.soft - {r}
    requires s'.orig == s.orig && s'.ordered == s.ordered
    ensures TagInv(s')
  {
  }

  lemma DispatchKeepsTag(s: State, r: Req, tail: bool, boundary: nat)
    requires Inv(s) && TagInv(s) && r in s.held
    ensures TagInv(Dispatch(s, r, tail, boundary))
  {
    hide Inv, InsertAt;
    Facts(s);
    var s' := Dispatch(s, r, tail, boundary);
    var i := if tail then |s.queue| else SortPos(s, s.queue, r, boundary);
    InsertAtInserts(s.queue, i, r);
    hide Colored, BarriersInOrder;
    assert forall j :: i <= j < |s.queue| ==> s.queue[j] !in s.soft && !s.queue[j].hard;
    InsertNewer(s, i, r, s');
    InsertDrain(s, i, r, s');
  }

  lemma DequeueKeepsTag(s: State, i: nat)
    requires TagInv(s) && i < |s.queue|
    ensures TagInv(Dequeue(s, i))
  {
    var s' := Dequeue(s, i);
    var q := s'.queue;
    assert forall j {:trigger q[j]} :: 0 <= j < |q| ==> q[j] == if j < i then s.queue[j] else s.queue[j + 1];
  }

  lemma RequeueKeepsTag(s: State, r: Req)
    requires Inv(s) && TagInv(s) && r in s.flight
    ensures TagInv(Requeue(s, r))
  {
    hide Inv, InsertAt;
    Facts(s);
    var s' := Requeue(s, r);
    var i := if !Active(s) then 0 else RequeuePos(s.orig.value, s.queue, ReqSeq(s.orig.value, r));
    InsertAtInserts(s.queue, i, r);
    if Active(s) {
      forall k | 0 <= k < |s.queue| && FsBarrier(s.queue[k])
        ensures i <= k
      {
        RequeueBeforeBarriers(s, r, k);
      }
    }
    hide Colored, BarriersInOrder, NewerBehind;
    assert !FsBarrier(r);
    InsertNewer(s, i, r, s');
    RequeueDrains(s, r, i, s');
  }

  lemma RequeueDrains(s: State, r: Req, i: nat, s': State)
    requires DrainFirst(s) && Inserted(s.queue, i, r, s'.queue) && s'.held == s.held && s'.soft == s.soft + {r}
    requires s'.orig == s.orig && s'.ordered == s.ordered
    requires s.orig.Some? ==> i == RequeuePos(s.orig.value, s.queue, ReqSeq(s.orig.value, r))
    ensures DrainFirst(s')
  {
    if OnlyDrain(s) {
      var b := s.orig.value;
      if Known(s.orig.value, r) {
        assert s.queue != [] ==> ReqSeq(b, s.queue[0]) >= SEQ_DRAIN;
      } else if ReqSeq(b, r) > SEQ_DRAIN {
        assert i < |s.queue| ==> ReqSeq(b, s.queue[i]) > SEQ_DRAIN;
      }
    }
    InsertDrain(s, i, r, s');
  }

  lemma StartKeepsTag(s: State)
    requires Inv(s) && TagInv(s) && s.orig.None? && s.queue != [] && FsBarrier(s.queue[0])
    ensures TagInv(StartOrdered(s))
  {
    hide Inv, StartOrdered, Stacked, StageList, StageSet;
    var b, s' := s.queue[0], StartOrdered(s);
    var st := StageList(Stacked(s).ordered, b);
    StageListFacts(Stacked(s).ordered, b);
    StartedIs(s);
    var q := s'.queue;
    assert forall j {:trigger q[j]} :: |st| <= j < |q| ==> q[j] == s.queue[j - |st| + 1];
    forall j | 0 <= j < |st|
      ensures IsStage(q[j].kind)
    {
      assert st[j] in Elems(st);
    }
    assert forall j :: 0 < j < |s.queue| && s.queue[j].kind.Fs? ==> b.id < s.queue[j].id;
    forall j | 0 <= j < |q| && q[j].kind.Fs?
      ensures b.id < q[j].id
    {
      assert j >= |st|;
    }
    StackedNewer(s, st, s');
  }

  lemma StackedNewer(s: State, st: seq<Req>, s': State)
    requires NewerBehind(s) && s.queue != [] && s'.queue == st + s.queue[1..] && s'.held == s.held
    requires forall j :: 0 <= j < |st| ==> IsStage(s'.queue[j].kind)
    ensures NewerBehind(s')
  {
    var q := s'.queue;
    assert forall j {:trigger q[j]} :: |st| <= j < |q| ==> q[j] == s.queue[j - |st| + 1];
  }

  lemma FetchKeepsTag(s: State)
    requires Inv(s) && TagInv(s) && s.mode.tag
    ensures TagInv(Fetch(s))
  {
    hide Inv, TagInv, Fetch, StartOrdered, Places, BarriersInOrder, Colored;
    Facts(s);
    FetchIs(s);
    if s.queue != [] && !Active(s) && FsType(s.queue[0]) && s.queue[0].hard {
      BarrierHead(s);
      StartKeepsTag(s);
    } else {
      SameTag(s, Fetch(s));
    }
  }

  /** A fetch starts a sequence or at most marks the head. */
  lemma FetchIs(s: State)
    requires s.mode.tag
    ensures var s' := Fetch(s);
            if s.queue != [] && !Active(s) && FsType(s.queue[0]) && s.queue[0].hard then s' == StartOrdered(s)
            else
              && s'.queue == s.queue && s'.held == s.held && s'.soft == s.soft && s'.orig == s.orig && s'.ordered == s.ordered
              && (s'.log == s.log || (s.queue != [] && s'.log == s.log + [Issued(s.queue[0])]))
  {
    hide StartOrdered;
  }

  lemma SameTag(s: State, s': State)
    requires TagInv(s) && s'.queue == s.queue && s'.held == s.held && s'.soft == s.soft
    requires s'.orig == s.orig && s'.ordered == s.ordered
    ensures TagInv(s')
  {
  }

  lemma FinishKeepsTag(s: State, r: Req, error: int)
    requires TagInv(s)
    ensures TagInv(Finish(s, r, error))
  {
    hide Finish;
    FinishIs(s, r, error);
  }

  lemma StepKeepsTag(s: State, step: Step)
    requires Inv(s) && TagInv(s) && s.mode.tag && Enabled(s, step)
    ensures TagInv(Next(s, step))
  {
    hide Inv, TagInv, Fetch, Dispatch, Dequeue, Finish, Requeue, Add;
    match step
    case AddStep(kind, soft, hard, empty, write, sector, elvpriv, w) =>
      AddKeepsTag(s, Req(kind, s.nextId, hard, empty, s.color, write, sector), EffectiveWhere(soft, hard, elvpriv, w));
    case DispatchStep(r, tail, boundary) => DispatchKeepsTag(s, r, tail, boundary);
    case FetchStep => FetchKeepsTag(s);
    case DequeueStep(i) => DequeueKeepsTag(s, i);
    case FinishStep(r, error) => FinishKeepsTag(s, r, error);
    case RequeueStep(r) => RequeueKeepsTag(s, r);
  }

  lemma {:induction false} RunKeepsTag(s: State, steps: seq<Step>)
    requires Inv(s) && TagInv(s) && s.mode.tag && Possible(s, steps)
    ensures Inv(Run(s, steps)) && TagInv(Run(s, steps)) && Run(s, steps).mode == s.mode
    decreases |steps|
  {
    hide Inv, TagInv, Next, Enabled;
    if steps != [] {
      StepKeepsInv(s, steps[0]);
      StepKeepsMode(s, steps[0]);
      StepKeepsTag(s, steps[0]);
      RunKeepsTag(Next(s, steps[0]), steps[1..]);
    }
  }

  // ---- when an empty barrier ends ----

  predicate OldFs(b: Req, r: Req) { r.kind.Fs? && !r.hard && r.id < b.id }

  /** All older requests are done iff none is live. */
  lemma DoneIffNotLive(live: set<Req>, orig: Option<Req>, nextId: nat, log: seq<Event>, b: Req)
    requires LogOk(live, orig, nextId, log) && (orig.Some? ==> FsBarrier(orig.value))
    ensures OlderFsDone(log, b.id) <==> forall r :: r in live ==> !OldFs(b, r)
  {
    if OlderFsDone(log, b.id) {
      forall r | r in live
        ensures !OldFs(b, r)
      {
        assert r.kind.Fs? ==> Added(r) in log;
      }
    }
  }

  lemma LogFacts(s: State)
    requires Inv(s)
    ensures LogOk(LiveSet(s), s.orig, s.nextId, s.log)
  {
    hide Places, GoodLog, BarriersInOrder, Colored, IssuedOk, SequenceOk, Separated, AroundSequence, LogOk;
  }

  /** Nothing of the file system is in flight. */
  lemma NoFsInFlight(s: State)
    requires Places(s) && s.inFlight == 0
    ensures forall r :: r in s.flight ==> !r.kind.Fs?
  {
    assert FsIn(s.flight) == {};
    forall r | r in s.flight
      ensures !r.kind.Fs?
    {
      assert r !in FsIn(s.flight);
    }
  }

  /** When the drain is over, an older request in the queue is a stray one. */
  lemma QueuedIsStray(s: State, i: nat)
    requires DrainFirst(s) && OnlyDrain(s) && Active(s) && DrainOver(s) && i < |s.queue| && OldFs(s.orig.value, s.queue[i])
    ensures Stray(s.orig.value, s.queue[i])
  {
    var b := s.orig.value;
    assert ReqSeq(b, s.queue[0]) > SEQ_DRAIN;
    assert !Known(b, s.queue[i]);
  }

  lemma LiveIffStray(s: State)
    requires Places(s) && DrainFirst(s) && OnlyDrain(s) && Active(s) && DrainOver(s)
    ensures (forall r :: r in LiveSet(s) ==> !OldFs(s.orig.value, r)) <==> !HasStray(s, s.orig.value)
  {
    var b := s.orig.value;
    hide DrainOver;
    NoFsInFlightOver(s);
    forall r | r in LiveSet(s) && OldFs(b, r)
      ensures HasStray(s, b)
    {
      var i :| 0 <= i < |s.queue| && s.queue[i] == r;
      QueuedIsStray(s, i);
    }
    if HasStray(s, b) {
      var i :| 0 <= i < |s.queue| && Stray(b, s.queue[i]);
      assert s.queue[i] in LiveSet(s) && OldFs(b, s.queue[i]);
    }
  }

  lemma NoFsInFlightOver(s: State)
    requires Places(s) && Active(s) && DrainOver(s)
    ensures forall r :: r in s.flight ==> !r.kind.Fs?
  {
    NoFsInFlight(s);
  }

  lemma ReleasedIs(s: State, r: Req, error: int)
    requires Inv(s) && r in s.flight
    ensures var s1 := Released(s, r, error);
            && Places(s1) && s1.queue == s.queue && s1.held == s.held && s1.flight == s.flight - {r} && s1.soft == s.soft
            && s1.orig == s.orig && s1.ordered == s.ordered && s1.ordseq == s.ordseq
  {
    Facts(s);
    hide Inv, Colored, BarriersInOrder, Places;
    FinishPlaces(s, r, Released(s, r, error));
  }

  lemma FinishEndsOver(s: State, r: Req, error: int)
    requires !IsStage(r.kind) && s.orig.Some? && Finish(s, r, error).orig.None?
    ensures var s1 := Released(s, r, error); Active(s1) && DrainOver(s1)
  {
    FinishFsForm(s, r, error);
  }

  lemma FinishEnds(s: State, r: Req, error: int)
    requires Inv(s) && TagInv(s) && s.mode == ORDERED_TAG && r in s.flight && s.orig.Some? && s.orig.value.empty
    requires Finish(s, r, error).orig.None?
    ensures OlderFsDone(Finish(s, r, error).log, s.orig.value.id) <==> !HasStray(s, s.orig.value)
  {
    hide Inv, Places, Colored, BarriersInOrder, Finish, Released, DrainOver, TagInv, DrainFirst, LogOk, OlderFsDone, OldFs, Stray;
    var b, s1, s' := s.orig.value, Released(s, r, error), Finish(s, r, error);
    Facts(s);
    OnlyDrains(s);
    assert r in LiveSet(s);
    FinishEndsOver(s, r, error);
    ReleasedIs(s, r, error);
    DrainIsKept(s, s1);
    FinishIs(s, r, error);
    FinishKeeps(s, r, error);
    LogFacts(s');
    assert LiveSet(s') == LiveSet(s1);
    DoneIffNotLive(LiveSet(s'), s'.orig, s'.nextId, s'.log, b);
    LiveIffStray(s1);
    assert HasStray(s1, b) <==> HasStray(s, b);
  }

  lemma DrainIsKept(s: State, s': State)
    requires TagInv(s) && s'.queue == s.queue && s'.held == s.held && s'.soft == s.soft && s'.orig == s.orig && s'.ordered == s.ordered
    ensures DrainFirst(s')
  {
  }

  lemma NoneOlderBehind(s: State, s': State)
    requires NewerBehind(s) && s.queue != [] && FsBarrier(s.queue[0]) && (forall r :: r in s.flight ==> !r.kind.Fs?)
    requires s'.queue == s.queue[1..] && s'.held == s.held && s'.flight == s.flight
    ensures !HasStray(s, s.queue[0])
    ensures forall r :: r in LiveSet(s') ==> !OldFs(s.queue[0], r)
  {
    forall r | r in LiveSet(s')
      ensures !OldFs(s.queue[0], r)
    {
      if r in s'.queue {
        var j :| 0 <= j < |s'.queue| && s'.queue[j] == r;
        assert r == s.queue[j + 1];
      }
    }
  }

  lemma StartEnds(s: State)
    requires Inv(s) && TagInv(s) && s.mode == ORDERED_TAG && s.orig.None? && s.queue != [] && FsBarrier(s.queue[0]) && s.queue[0].empty
    requires StartOrdered(s).orig.None?
    ensures OlderFsDone(StartOrdered(s).log, s.queue[0].id) && !HasStray(s, s.queue[0])
  {
    hide Inv, Colored, BarriersInOrder, NewerBehind, LogOk, OlderFsDone, OldFs, Stray, StartOrdered, HasStray;
    var b, s' := s.queue[0], StartOrdered(s);
    Facts(s);
    StartEndsIdle(s);
    NoFsInFlight(s);
    NoneOlderBehind(s, s');
    StartedHead(s);
    LogFacts(s');
    DoneIffNotLive(LiveSet(s'), s'.orig, s'.nextId, s'.log, b);
  }

  /** It ends at once only if nothing was in flight. */
  lemma StartEndsIdle(s: State)
    requires s.ordseq == IDLE && s.queue != [] && s.queue[0].empty && s.mode == ORDERED_TAG && s.queue[0] !in s.started
    requires StartOrdered(s).orig.None? && s.inFlight >= 0
    ensures s.inFlight == 0
    ensures var s' := StartOrdered(s); s'.queue == s.queue[1..] && s'.held == s.held && s'.flight == s.flight
  {
  }

  lemma StartLog(s: State)
    requires s.queue != [] && s.ordseq == IDLE
    ensures var s' := StartOrdered(s);
            || s'.log == s.log || (s'.queue != [] && s'.log == s.log + [Issued(s'.queue[0])])
            || (s'.orig.None? && s'.log == s.log + [Ended(s.queue[0], s'.orderr)])
  {
    hide StageSet, StageList;
  }

  lemma OthersEndNothing(s: State, step: Step, ev: Event)
    requires Enabled(s, step) && !step.FetchStep? && !step.FinishStep? && ev.Ended? && ev in Next(s, step).log
    ensures ev in s.log
  {
  }

  lemma FetchEnds(s: State, b: Req, error: int)
    requires Inv(s) && TagInv(s) && s.mode == ORDERED_TAG && b.empty && Ended(b, error) in Fetch(s).log && Ended(b, error) !in s.log
    ensures OlderFsDone(Fetch(s).log, b.id) && !HasStray(s, b)
  {
    hide Inv, TagInv, Places, Colored, BarriersInOrder, Fetch, StartOrdered, OlderFsDone, HasStray;
    Facts(s);
    FetchIs(s);
    assert s.queue != [] && !Active(s) && FsType(s.queue[0]) && s.queue[0].hard;
    BarrierHead(s);
    StartLog(s);
    StartEnds(s);
  }

  /** In every run on a queue ordered by tags alone: when an empty barrier ends, every older fs request
      has completed if and only if no stray one waits in the queue. */
  lemma EmptyBarrierEndsIff(steps: seq<Step>, step: Step, b: Req, error: int)
    requires Possible(Init(ORDERED_TAG), steps) && Enabled(Run(Init(ORDERED_TAG), steps), step) && b.empty
    requires var s := Run(Init(ORDERED_TAG), steps); Ended(b, error) in Next(s, step).log && !EndedIn(s.log, b)
    ensures var s := Run(Init(ORDERED_TAG), steps); OlderFsDone(Next(s, step).log, b.id) <==> !HasStray(s, b)
  {
    hide Inv, TagInv, Run, Possible, Init, Next, OlderFsDone, HasStray;
    Reached(steps);
    StepEndsIff(Run(Init(ORDERED_TAG), steps), step, b, error);
  }

  lemma StepEndsIff(s: State, step: Step, b: Req, error: int)
    requires Inv(s) && TagInv(s) && s.mode == ORDERED_TAG && Enabled(s, step) && b.empty
    requires Ended(b, error) in Next(s, step).log && !EndedIn(s.log, b)
    ensures OlderFsDone(Next(s, step).log, b.id) <==> !HasStray(s, b)
  {
    hide Inv, TagInv, Fetch, Finish, OlderFsDone, HasStray, Add, Dispatch, Dequeue, Requeue;
    assert Ended(b, error) !in s.log;
    if step.FetchStep? {
      FetchEnds(s, b, error);
    } else {
      assert step.FinishStep? by {
        if !step.FinishStep? {
          OthersEndNothing(s, step, Ended(b, error));
        }
      }
      FinishLog(s, step.r, step.error);
      FinishEnds(s, step.r, step.error);
    }
  }

  lemma Reached(steps: seq<Step>)
    requires Possible(Init(ORDERED_TAG), steps)
    ensures var s := Run(Init(ORDERED_TAG), steps); Inv(s) && TagInv(s) && s.mode == ORDERED_TAG
  {
    hide Inv, Run, Possible;
    InitInv(ORDERED_TAG);
    RunKeepsTag(Init(ORDERED_TAG), steps);
  }

  // ---- a run in which it ends too early ----

  const OLD := Req(Fs, 0, false, false, false, false, 0)
  const TAGGED := Req(Fs, 1, true, false, false, false, 0)
  const YOUNG := Req(Fs, 2, false, false, true, false, 0)
  const EMPTY := Req(Fs, 3, true, true, true, false, 0)
  const PROXY := Req(Bar, 1, true, false, false, false, 0)

  function AddBack(hard: bool, empty: bool): Step { AddStep(Fs, true, hard, empty, false, 0, true, Back) }

  /** A request is handed out, then a tagged barrier, which ends first. */
  const HAND_OUT_OLD := [AddBack(false, false), FetchStep] + [DequeueStep(0)]
  const TAGGED_ENDS := [AddBack(true, false), FetchStep] + [DequeueStep(0), FinishStep(PROXY, 0)]

  /** Then another request and an empty barrier; the first request comes back and the second completes. */
  const HAND_OUT_YOUNG := [AddBack(false, false), FetchStep] + [DequeueStep(0)]
  const EMPTY_ENDS := [AddBack(true, true), FetchStep] + [RequeueStep(OLD), FinishStep(YOUNG, 0)]

  const LOG1 := [Added(OLD), Issued(OLD)]
  const LOG2 := LOG1 + [Added(TAGGED), Issued(PROXY), Done(PROXY, 0), Ended(TAGGED, 0)]
  const LOG3 := LOG2 + [Added(YOUNG), Issued(YOUNG)]
  const LOG4 := LOG3 + [Added(EMPTY), Done(YOUNG, 0), Ended(EMPTY, 0)]

  lemma {:induction false} RunOfBoth(s: State, a: seq<Step>, b: seq<Step>)
    requires Possible(s, a) && Possible(Run(s, a), b)
    ensures Possible(s, a + b) && Run(s, a + b) == Run(Run(s, a), b)
    decreases |a|
  {
    hide Enabled, Next;
    if a == [] {
      assert a + b == b;
    } else {
      assert (a + b)[1..] == a[1..] + b;
      RunOfBoth(Next(s, a[0]), a[1..], b);
    }
  }

  lemma RunOfOne(s: State, a: Step)
    requires Enabled(s, a)
    ensures Possible(s, [a]) && Run(s, [a]) == Next(s, a)
  {
    hide Enabled, Next;
    assert [a][1..] == [];
  }

  lemma RunOfTwo(s: State, a: Step, b: Step)
    requires Enabled(s, a) && Enabled(Next(s, a), b)
    ensures Possible(s, [a, b]) && Run(s, [a, b]) == Next(Next(s, a), b)
  {
    hide Enabled, Next, Run, Possible;
    RunOfOne(s, a);
    RunOfOne(Next(s, a), b);
    RunOfBoth(s, [a], [b]);
    assert [a] + [b] == [a, b];
  }

  const S1 := State(ORDERED_TAG, [], {}, {OLD}, {OLD}, {OLD}, 1, false, IDLE, ORDERED_NONE, 0, None, 1, LOG1)
  const S2 := State(ORDERED_TAG, [], {}, {OLD}, {OLD, PROXY}, {OLD, TAGGED, PROXY}, 1, true, IDLE, ORDERED_TAG, 0, None, 2, LOG2)
  const S3 := S2.(flight := {OLD, YOUNG}, started := {OLD, PROXY, YOUNG}, soft := {OLD, TAGGED, PROXY, YOUNG}, inFlight := 2,
                  nextId := 3, log := LOG3)

  /** A plain request added at the tail of an empty, idle queue and handed out. */
  lemma HandOut(s: State, r: Req)
    requires s.queue == [] && s.held == {} && s.orig.None? && r == Req(Fs, s.nextId, false, false, s.color, false, 0)
    ensures var s' := s.(flight := s.flight + {r}, started := s.started - {r} + {r}, soft := s.soft + {r},
                         inFlight := s.inFlight + 1, nextId := s.nextId + 1, log := s.log + [Added(r)] + [Issued(r)]);
            var steps := [AddBack(false, false), FetchStep] + [DequeueStep(0)];
            Possible(s, steps) && Run(s, steps) == s'
  {
    hide Run, Possible, StartOrdered, Requeue, Finish, Dispatch;
    var a := Next(s, AddBack(false, false));
    assert a.queue == [r];
    var b := Next(a, FetchStep);
    assert b == a.(started := s.started - {r} + {r}, log := s.log + [Added(r)] + [Issued(r)]);
    RunOfTwo(s, AddBack(false, false), FetchStep);
    TakeOnly(b, r);
    RunOfOne(b, DequeueStep(0));
    RunOfBoth(s, [AddBack(false, false), FetchStep], [DequeueStep(0)]);
  }

  lemma TakeOnly(s: State, r: Req)
    requires s.queue == [r] && r in s.started && r.kind.Fs?
    ensures Enabled(s, DequeueStep(0)) && Next(s, DequeueStep(0)) == s.(queue := [], flight := s.flight + {r}, inFlight := s.inFlight + 1)
  {
    assert RemoveAt([r], 0) == [];
  }

  lemma First()
    ensures Possible(Init(ORDERED_TAG), HAND_OUT_OLD) && Run(Init(ORDERED_TAG), HAND_OUT_OLD) == S1
  {
    hide Run, Possible, Next, Enabled;
    HandOut(Init(ORDERED_TAG), OLD);
  }

  const S1_STARTED := S1.(queue := [PROXY], started := {OLD, PROXY}, soft := {OLD, TAGGED, PROXY}, color := true,
                          ordseq := OrdSeq(true, true, true, false, true), ordered := ORDERED_TAG, orig := Some(TAGGED), nextId := 2,
                          log := LOG1 + [Added(TAGGED), Issued(PROXY)])

  lemma TaggedStarts()
    ensures Possible(S1, [AddBack(true, false), FetchStep]) && Run(S1, [AddBack(true, false), FetchStep]) == S1_STARTED
  {
    hide Run, Possible;
    var a := Next(S1, AddBack(true, false));
    assert a.queue == [TAGGED] && StageList(ORDERED_TAG, TAGGED) == [PROXY] && Elems([PROXY]) == {PROXY};
    assert Next(a, FetchStep) == S1_STARTED;
    RunOfTwo(S1, AddBack(true, false), FetchStep);
  }

  lemma TaggedEnds()
    ensures Possible(S1_STARTED, [DequeueStep(0), FinishStep(PROXY, 0)])
    ensures Run(S1_STARTED, [DequeueStep(0), FinishStep(PROXY, 0)]) == S2
  {
    hide Run, Possible;
    var c := Next(S1_STARTED, DequeueStep(0));
    assert c.flight == {OLD, PROXY} && c.queue == [];
    assert Next(c, FinishStep(PROXY, 0)) == S2;
    RunOfTwo(S1_STARTED, DequeueStep(0), FinishStep(PROXY, 0));
  }

  lemma Second()
    ensures Possible(S1, TAGGED_ENDS) && Run(S1, TAGGED_ENDS) == S2
  {
    hide Run, Possible, Next, Enabled;
    TaggedStarts();
    TaggedEnds();
    RunOfBoth(S1, [AddBack(true, false), FetchStep], [DequeueStep(0), FinishStep(PROXY, 0)]);
  }

  lemma Third()
    ensures Possible(S2, HAND_OUT_YOUNG) && Run(S2, HAND_OUT_YOUNG) == S3
  {
    hide Run, Possible, Next, Enabled;
    HandOut(S2, YOUNG);
  }

  const S3_DRAINING := S3.(soft := S3.soft + {EMPTY}, color := false, ordseq := OrdSeq(true, false, true, true, true),
                           ordered := Masked(ORDERED_TAG, true), orig := Some(EMPTY), nextId := 4, log := LOG3 + [Added(EMPTY)])

  lemma EmptyStarts()
    ensures Possible(S3, [AddBack(true, true), FetchStep]) && Run(S3, [AddBack(true, true), FetchStep]) == S3_DRAINING
  {
    hide Run, Possible;
    var a := Next(S3, AddBack(true, true));
    assert a.queue == [EMPTY] && StageList(Masked(ORDERED_TAG, true), EMPTY) == [] && Elems([]) == {};
    assert Next(a, FetchStep) == S3_DRAINING;
    RunOfTwo(S3, AddBack(true, true), FetchStep);
  }

  lemma EmptyEnds()
    ensures Possible(S3_DRAINING, [RequeueStep(OLD), FinishStep(YOUNG, 0)])
    ensures Run(S3_DRAINING, [RequeueStep(OLD), FinishStep(YOUNG, 0)]).log == LOG4
  {
    hide Run, Possible;
    var c := Next(S3_DRAINING, RequeueStep(OLD));
    assert c.queue == [OLD] && c.inFlight == 1;
    assert Next(c, FinishStep(YOUNG, 0)).log == LOG4;
    RunOfTwo(S3_DRAINING, RequeueStep(OLD), FinishStep(YOUNG, 0));
  }

  lemma Fourth()
    ensures Possible(S3, EMPTY_ENDS) && Run(S3, EMPTY_ENDS).log == LOG4
  {
    hide Run, Possible, Next, Enabled;
    EmptyStarts();
    EmptyEnds();
    RunOfBoth(S3, [AddBack(true, true), FetchStep], [RequeueStep(OLD), FinishStep(YOUNG, 0)]);
  }

  /** The barrier has ended and the request before it has not. */
  lemma EmptyBarrierEndsEarly()
    ensures var steps := HAND_OUT_OLD + TAGGED_ENDS + HAND_OUT_YOUNG + EMPTY_ENDS;
            && Possible(Init(ORDERED_TAG), steps)
            && var log := Run(Init(ORDERED_TAG), steps).log;
               EndedIn(log, EMPTY) && Added(OLD) in log && OLD.id < EMPTY.id && !DoneIn(log, OLD)
  {
    hide Run, Possible, Init, Next, Enabled, DoneIn, EndedIn;
    First();
    Second();
    Third();
    Fourth();
    RunOfBoth(Init(ORDERED_TAG), HAND_OUT_OLD, TAGGED_ENDS);
    RunOfBoth(Init(ORDERED_TAG), HAND_OUT_OLD + TAGGED_ENDS, HAND_OUT_YOUNG);
    RunOfBoth(Init(ORDERED_TAG), HAND_OUT_OLD + TAGGED_ENDS + HAND_OUT_YOUNG, EMPTY_ENDS);
    EndedEarly();
  }

  lemma EndedEarly()
    ensures EndedIn(LOG4, EMPTY) && Added(OLD) in LOG4 && !DoneIn(LOG4, OLD)
  {
    assert LOG4[0] == Added(OLD) && LOG4[10] == Ended(EMPTY, 0);
  }
}
