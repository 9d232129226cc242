/** How a stray request comes about: the condition under which an empty barrier on a tag queue ends too
    early, as something that happened in the run before. */
module TagHistory {

  import opened Options
  import opened Barrier
  import opened TagDrain

  /** Somewhere in the run, while the sequence of b was running, a request older than b that has the
      other colour was requeued. */
  predicate StrayRequeued(s: State, steps: seq<Step>, b: Req)
    requires Possible(s, steps)
    decreases |steps|
  {
    steps != [] &&
    ((s.orig == Some(b) && steps[0].RequeueStep? && Stray(b, steps[0].r)) || StrayRequeued(Next(s, steps[0]), steps[1..], b))
  }

  // ---- stray requests wait ----

  /** A stray request in the queue is not handed out before the drain is over. */
  ghost predicate StraysWait(s: State) {
    OnlyDrain(s) ==> forall i :: 0 <= i < |s.queue| && Stray(s.orig.value, s.queue[i]) ==> s.queue[i] !in s.started
  }

  ghost predicate HistoryInv(s: State) { Inv(s) && TagInv(s) && StraysWait(s) && s.mode == ORDERED_TAG }

  /** What a step does to the queue while a drain goes on: r is inserted, or an entry leaves, or nothing. */
  lemma InsertedStray(s: State, i: nat, r: Req, s': State, b: Req)
    requires Inserted(s.queue, i, r, s'.queue)
    ensures HasStray(s', b) <==> HasStray(s, b) || Stray(b, r)
  {
    hide Stray;
    if HasStray(s, b) {
      var j :| 0 <= j < |s.queue| && Stray(b, s.queue[j]);
      assert s'.queue[if j < i then j else j + 1] == s.queue[j];
    }
    if Stray(b, r) {
      assert s'.queue[i] == r;
    }
    if HasStray(s', b) {
      var j :| 0 <= j < |s'.queue| && Stray(b, s'.queue[j]);
      assert j == i || s'.queue[j] == s.queue[if j < i then j else j - 1];
    }
  }

  lemma InsertedWaits(s: State, i: nat, r: Req, s': State)
    requires StraysWait(s) && Inserted(s.queue, i, r, s'.queue) && s'.started <= s.started && r !in s'.started
    requires s'.orig == s.orig && s'.ordered == s.ordered
    ensures StraysWait(s')
  {
    hide Stray;
  }

  lemma NewIsNotStray(s: State, r: Req)
    requires Inv(s) && OnlyDrain(s) && r.id == s.nextId
    ensures !Stray(s.orig.value, r)
  {
    hide Inv;
    IdsFit(s);
  }

  lemma AddStray(s: State, r: Req, w: Where)
    requires Inv(s) && StraysWait(s) && OnlyDrain(s) && r.id == s.nextId
    ensures StraysWait(Add(s, r, w)) && (HasStray(Add(s, r, w), s.orig.value) <==> HasStray(s, s.orig.value))
  {
    hide Inv, Stray, InsertAt;
    NewIsNotStray(s, r);
    var s', b := Add(s, r, w), s.orig.value;
    match w
    case Front =>
      FrontIsInsert(s.queue, r);
      InsertAtInserts(s.queue, 0, r);
      InsertedStray(s, 0, r, s', b);
      InsertedWaits(s, 0, r, s');
    case Back =>
      AppendIsInsert(s.queue, r);
      InsertAtInserts(s.queue, |s.queue|, r);
      InsertedStray(s, |s.queue|, r, s', b);
      InsertedWaits(s, |s.queue|, r, s');
    case Sort =>
  }

  lemma HeldIsNotStray(s: State, r: Req)
    requires TagInv(s) && OnlyDrain(s) && r in s.held
    ensures !Stray(s.orig.value, r)
  {
    hide NewerBehind;
  }

  lemma HeldIsNotStarted(s: State, r: Req)
    requires Inv(s) && r in s.held
    ensures r !in s.started
  {
    Facts(s);
    hide Inv, Colored, BarriersInOrder;
  }

  lemma DispatchStray(s: State, r: Req, tail: bool, boundary: nat)
    requires Inv(s) && TagInv(s) && StraysWait(s) && OnlyDrain(s) && r in s.held
    ensures var s' := Dispatch(s, r, tail, boundary);
            StraysWait(s') && (HasStray(s', s.orig.value) <==> HasStray(s, s.orig.value))
  {
    hide Inv, TagInv, Stray, InsertAt, SortPos, StraysWait, HasStray;
    HeldIsNotStray(s, r);
    HeldIsNotStarted(s, r);
    var s' := Dispatch(s, r, tail, boundary);
    var i := if tail then |s.queue| else SortPos(s, s.queue, r, boundary);
    InsertAtInserts(s.queue, i, r);
    InsertedStray(s, i, r, s', s.orig.value);
    InsertedWaits(s, i, r, s');
  }

  lemma DequeueStray(s: State, i: nat)
    requires StraysWait(s) && OnlyDrain(s) && i < |s.queue| && s.queue[i] in s.started
    ensures var s' := Dequeue(s, i); StraysWait(s') && (HasStray(s', s.orig.value) <==> HasStray(s, s.orig.value))
  {
    hide Stray;
    var s', b := Dequeue(s, i), s.orig.value;
    assert forall j :: 0 <= j < |s'.queue| ==> s'.queue[j] == s.queue[if j < i then j else j + 1];
    if HasStray(s, b) {
      var j :| 0 <= j < |s.queue| && Stray(b, s.queue[j]);
      assert j != i;
      assert s'.queue[if j < i then j else j - 1] == s.queue[j];
    }
  }

  lemma RequeueStray(s: State, r: Req)
    requires StraysWait(s) && OnlyDrain(s)
    ensures var s', b := Requeue(s, r), s.orig.value;
            StraysWait(s') && (HasStray(s', b) <==> HasStray(s, b) || Stray(b, r))
  {
    hide Stray, InsertAt, RequeuePos, StraysWait, HasStray;
    var s' := Requeue(s, r);
    var i := if !Active(s) then 0 else RequeuePos(s.orig.value, s.queue, ReqSeq(s.orig.value, r));
    InsertAtInserts(s.queue, i, r);
    InsertedStray(s, i, r, s', s.orig.value);
    InsertedWaits(s, i, r, s');
  }

  /** A fetch during the drain does not hand out a stray request. */
  lemma FetchStray(s: State)
    requires Inv(s) && StraysWait(s) && OnlyDrain(s) && s.mode == ORDERED_TAG
    ensures var s' := Fetch(s);
            s'.queue == s.queue && s'.orig == s.orig && s'.ordered == s.ordered && StraysWait(s')
  {
    Facts(s);
    OnlyDrains(s);
    hide Inv, Colored, BarriersInOrder, Places, StartOrdered;
    if s.queue != [] && Fetch(s) != s {
      assert Fetch(s) == Issue(s);
      assert !Stray(s.orig.value, s.queue[0]);
    }
  }

  // ---- where sequences begin and end ----

  /** The running barrier stays, ends, or begins with a fetch. */
  lemma OrigStep(s: State, step: Step)
    requires Inv(s) && s.mode.tag && Enabled(s, step)
    ensures var s' := Next(s, step);
            || (s'.orig == s.orig && s'.ordered == s.ordered)
            || (s.orig.Some? && s'.orig.None? && EndedIn(s'.log, s.orig.value))
            || (s.orig.None? && step.FetchStep? && s.queue != [] && s' == StartOrdered(s) && FsBarrier(s.queue[0]))
  {
    hide Inv, Fetch, Finish, StartOrdered, EndedIn;
    Facts(s);
    hide Places, Colored, BarriersInOrder;
    if step.FetchStep? {
      FetchIs(s);
      if s.queue != [] && !Active(s) && FsType(s.queue[0]) && s.queue[0].hard {
        BarrierHead(s);
      }
    } else if step.FinishStep? {
      FinishIs(s, step.r, step.error);
      if Finish(s, step.r, step.error).orig != s.orig {
        FinishEndsIn(s, step.r, step.error);
      }
    }
  }

  lemma FinishEndsIn(s: State, r: Req, error: int)
    requires Finish(s, r, error).orig != s.orig
    ensures s.orig.Some? && EndedIn(Finish(s, r, error).log, s.orig.value)
  {
    hide Finish;
    FinishLog(s, r, error);
    var log := Finish(s, r, error).log;
    assert log[|log| - 1] == Ended(s.orig.value, Finish(s, r, error).orderr);
  }

  /** While the drain goes on strays enter the queue only by a requeue, and none leaves. */
  lemma StrayStep(s: State, step: Step)
    requires HistoryInv(s) && OnlyDrain(s) && Enabled(s, step) && Next(s, step).orig == s.orig
    ensures var s', b := Next(s, step), s.orig.value;
            && StraysWait(s') && (HasStray(s', b) <==> HasStray(s, b) || (step.RequeueStep? && Stray(b, step.r)))
  {
    hide Inv, TagInv, StraysWait, HasStray, Stray, Fetch, Dispatch, Dequeue, Finish, Requeue, Add;
    match step
    case AddStep(kind, soft, hard, empty, write, sector, elvpriv, w) =>
      AddStray(s, Req(kind, s.nextId, hard, empty, s.color, write, sector), EffectiveWhere(soft, hard, elvpriv, w));
    case DispatchStep(r, tail, boundary) => DispatchStray(s, r, tail, boundary);
    case FetchStep => FetchStray(s); SameStray(s, Fetch(s), s.orig.value);
    case DequeueStep(i) => DequeueStray(s, i);
    case FinishStep(r, error) =>
      FinishIs(s, r, error);
      FinishStarted(s, r, error);
      SameStray(s, Finish(s, r, error), s.orig.value);
      SameWaits(s, Finish(s, r, error));
    case RequeueStep(r) => RequeueStray(s, r);
  }

  lemma SameStray(s: State, s': State, b: Req)
    requires s'.queue == s.queue
    ensures HasStray(s', b) <==> HasStray(s, b)
  {
    hide Stray;
  }

  lemma SameWaits(s: State, s': State)
    requires StraysWait(s) && s'.queue == s.queue && s'.started == s.started && s'.orig == s.orig && s'.ordered == s.ordered
    ensures StraysWait(s')
  {
    hide Stray;
  }

  lemma FinishStarted(s: State, r: Req, error: int)
    ensures Finish(s, r, error).started == s.started
  {
  }

  /** When a sequence begins nothing older than its barrier is in the queue. */
  lemma StartStray(s: State)
    requires TagInv(s) && s.queue != [] && FsBarrier(s.queue[0])
    ensures !HasStray(StartOrdered(s), s.queue[0])
  {
    hide StartOrdered, Stacked, StageList, StageSet, DrainFirst;
    var b, s' := s.queue[0], StartOrdered(s);
    var st := StageList(Stacked(s).ordered, b);
    StartedIs(s);
    StageListFacts(Stacked(s).ordered, b);
    assert forall j :: 0 < j < |s.queue| && s.queue[j].kind.Fs? ==> b.id < s.queue[j].id;
    forall j | 0 <= j < |s'.queue|
      ensures !Stray(b, s'.queue[j])
    {
      if j < |st| {
        assert s'.queue[j] == st[j];
      } else {
        assert s'.queue[j] == s.queue[j - |st| + 1];
      }
    }
  }

  lemma NoStrayWaits(s: State)
    requires s.orig.Some? ==> !HasStray(s, s.orig.value)
    ensures StraysWait(s)
  {
    hide Stray;
  }

  lemma DrainStays(s: State, s': State)
    requires s'.orig == s.orig && s'.ordered == s.ordered
    ensures OnlyDrain(s') <==> OnlyDrain(s)
  {
  }

  lemma StepKeepsHistory(s: State, step: Step)
    requires HistoryInv(s) && Enabled(s, step)
    ensures HistoryInv(Next(s, step))
  {
    hide Inv, TagInv, StraysWait, Next, Enabled, StartOrdered, EndedIn, HasStray, OnlyDrain;
    StepKeepsInv(s, step);
    StepKeepsTag(s, step);
    StepKeepsMode(s, step);
    OrigStep(s, step);
    var s' := Next(s, step);
    if s'.orig.None? {
      NoStrayWaits(s');
    } else if s'.orig == s.orig && s'.ordered == s.ordered {
      DrainStays(s, s');
      if OnlyDrain(s) {
        StrayStep(s, step);
      } else {
        NotDrainWaits(s');
      }
    } else {
      StartStray(s);
      StartedIs(s);
      NoStrayWaits(s');
    }
  }

  lemma NotDrainWaits(s: State)
    requires !OnlyDrain(s)
    ensures StraysWait(s)
  {
  }

  // ---- the history of a running drain ----

  lemma LogGrows(s: State, step: Step, b: Req)
    requires HistoryInv(s) && Enabled(s, step) && EndedIn(s.log, b)
    ensures EndedIn(Next(s, step).log, b)
  {
    hide Inv, TagInv, StraysWait, Fetch, Finish, Dispatch, Dequeue, Requeue;
    if !step.AddStep? {
      OthersDoNotArrive(s, step);
    }
    var e :| e in s.log && e.Ended? && e.r == b;
    assert e in Next(s, step).log;
  }

  lemma {:induction false} RunLogGrows(s: State, steps: seq<Step>, b: Req)
    requires HistoryInv(s) && Possible(s, steps) && EndedIn(s.log, b)
    ensures EndedIn(Run(s, steps).log, b)
    decreases |steps|
  {
    hide Next, Enabled, EndedIn, HistoryInv;
    if steps != [] {
      LogGrows(s, steps[0], b);
      StepKeepsHistory(s, steps[0]);
      RunLogGrows(Next(s, steps[0]), steps[1..], b);
    }
  }

  lemma {:induction false} RunKeepsHistory(s: State, steps: seq<Step>)
    requires HistoryInv(s) && Possible(s, steps)
    ensures HistoryInv(Run(s, steps))
    decreases |steps|
  {
    hide Next, Enabled, HistoryInv;
    if steps != [] {
      StepKeepsHistory(s, steps[0]);
      RunKeepsHistory(Next(s, steps[0]), steps[1..]);
    }
  }

  lemma RunningNotEnded(s: State, b: Req)
    requires Inv(s) && s.orig == Some(b)
    ensures !EndedIn(s.log, b)
  {
    LogFacts(s);
    hide Inv;
  }

  /** A barrier that was running is running or has ended. */
  lemma {:induction false} RunningOrEnded(s: State, steps: seq<Step>, b: Req)
    requires HistoryInv(s) && Possible(s, steps) && s.orig == Some(b)
    ensures Run(s, steps).orig == Some(b) || EndedIn(Run(s, steps).log, b)
    decreases |steps|
  {
    hide Next, Enabled, EndedIn, Inv, TagInv, StraysWait, StartOrdered;
    if steps != [] {
      OrigStep(s, steps[0]);
      StepKeepsHistory(s, steps[0]);
      if Next(s, steps[0]).orig == Some(b) {
        RunningOrEnded(Next(s, steps[0]), steps[1..], b);
      } else {
        RunLogGrows(Next(s, steps[0]), steps[1..], b);
      }
    }
  }

  lemma EmptyDrains(s: State)
    requires HistoryInv(s) && s.orig.Some? && s.orig.value.empty
    ensures OnlyDrain(s)
  {
    Facts(s);
    hide Inv, TagInv, StraysWait, Places, Colored, BarriersInOrder;
  }

  /** One step towards a state in which b is still running. */
  lemma HistoryStep(s: State, step: Step, b: Req)
    requires HistoryInv(s) && Enabled(s, step) && b.empty && (s.orig == Some(b) ==> Next(s, step).orig == Some(b))
    ensures var s' := Next(s, step);
            s'.orig == Some(b) && HasStray(s', b)
            <==> s.orig == Some(b) && (HasStray(s, b) || (step.RequeueStep? && Stray(b, step.r)))
  {
    hide Next, Enabled, EndedIn, Inv, TagInv, StraysWait, StartOrdered, HasStray, Stray, OnlyDrain;
    OrigStep(s, step);
    if s.orig == Some(b) {
      EmptyDrains(s);
      StrayStep(s, step);
    } else if Next(s, step).orig == Some(b) {
      StartedIs(s);
      StartStray(s);
    }
  }

  /** While b is running the queue holds a stray request iff one was requeued since b began. */
  lemma {:induction false} StraysWereRequeued(s: State, steps: seq<Step>, b: Req)
    requires HistoryInv(s) && Possible(s, steps) && Run(s, steps).orig == Some(b) && b.empty
    ensures HasStray(Run(s, steps), b) <==> StrayRequeued(s, steps, b) || (s.orig == Some(b) && HasStray(s, b))
    decreases |steps|
  {
    hide Next, Enabled, EndedIn, HistoryInv, HasStray, Stray;
    if steps != [] {
      var s' := Next(s, steps[0]);
      StepKeepsHistory(s, steps[0]);
      StraysWereRequeued(s', steps[1..], b);
      if s.orig == Some(b) {
        StillRunning(s, steps, b);
      }
      HistoryStep(s, steps[0], b);
    }
  }

  lemma StillRunning(s: State, steps: seq<Step>, b: Req)
    requires HistoryInv(s) && Possible(s, steps) && steps != [] && s.orig == Some(b) && Run(s, steps).orig == Some(b)
    ensures Next(s, steps[0]).orig == Some(b)
  {
    hide Next, Enabled, EndedIn, Inv, TagInv, StraysWait, StartOrdered;
    var s' := Next(s, steps[0]);
    OrigStep(s, steps[0]);
    StepKeepsHistory(s, steps[0]);
    RunKeepsHistory(s, steps);
    RunningNotEnded(Run(s, steps), b);
    if EndedIn(s'.log, b) {
      RunLogGrows(s', steps[1..], b);
    }
  }

  /** What was requeued during the sequence of b was requeued when b was running. */
  lemma {:induction false} RequeuedWhileRunning(s: State, steps: seq<Step>, b: Req)
    requires HistoryInv(s) && Possible(s, steps) && StrayRequeued(s, steps, b)
    ensures Run(s, steps).orig == Some(b) || EndedIn(Run(s, steps).log, b)
    decreases |steps|
  {
    hide Next, Enabled, EndedIn, HistoryInv, Stray;
    if s.orig == Some(b) {
      RunningOrEnded(s, steps, b);
    } else {
      StepKeepsHistory(s, steps[0]);
      RequeuedWhileRunning(Next(s, steps[0]), steps[1..], b);
    }
  }

  lemma InitHistory()
    ensures HistoryInv(Init(ORDERED_TAG))
  {
    hide Inv;
    InitInv(ORDERED_TAG);
  }

  /** In every run on a queue ordered by tags alone: when an empty barrier ends, every older fs request has
      completed if and only if no older request of the other colour was requeued while the barrier's
      sequence was running. */
  lemma EndsDrainedIff(steps: seq<Step>, step: Step, b: Req, error: int)
    requires Possible(Init(ORDERED_TAG), steps) && Enabled(Run(Init(ORDERED_TAG), steps), step) && b.empty
    requires var s := Run(Init(ORDERED_TAG), steps); Ended(b, error) in Next(s, step).log && !EndedIn(s.log, b)
    ensures var s := Run(Init(ORDERED_TAG), steps);
            OlderFsDone(Next(s, step).log, b.id) <==> !StrayRequeued(Init(ORDERED_TAG), steps, b)
  {
    hide Next, Enabled, EndedIn, HistoryInv, HasStray, Run, Possible, StrayRequeued, OlderFsDone;
    var s0, s := Init(ORDERED_TAG), Run(Init(ORDERED_TAG), steps);
    EmptyBarrierEndsIff(steps, step, b, error);
    InitHistory();
    RunKeepsHistory(s0, steps);
    if s.orig == Some(b) {
      StraysWereRequeued(s0, steps, b);
    } else {
      if StrayRequeued(s0, steps, b) {
        RequeuedWhileRunning(s0, steps, b);
      }
      EndsAtOnce(s, step, b, error);
    }
  }

  /** A barrier that ends without having been running ends when it begins. */
  lemma EndsAtOnce(s: State, step: Step, b: Req, error: int)
    requires HistoryInv(s) && Enabled(s, step) && s.orig != Some(b) && b.empty
    requires Ended(b, error) in Next(s, step).log && !EndedIn(s.log, b)
    ensures !HasStray(s, b)
  {
    hide Inv, TagInv, StraysWait, Fetch, Finish, HasStray, Add, Dispatch, Dequeue, Requeue;
    assert Ended(b, error) !in s.log;
    assert step.FetchStep? by {
      if step.FinishStep? {
        FinishLog(s, step.r, step.error);
      } else if !step.FetchStep? {
        OthersEndNothing(s, step, Ended(b, error));
      }
    }
    FetchEnds(s, b, error);
  }

  // ---- the other colour means another barrier in between ----

  /** A barrier arrived with a number from lo up to hi. */
  ghost predicate BarrierIn(log: seq<Event>, lo: nat, hi: nat) {
    exists e :: e in log && e.Added? && FsBarrier(e.r) && lo <= e.r.id < hi
  }

  ghost predicate ColorsFlip(log: seq<Event>, color: bool, nextId: nat) {
    && (forall e, f :: e in log && f in log && e.Added? && f.Added? && e.r.id < f.r.id && e.r.color != f.r.color
          ==> BarrierIn(log, e.r.id, f.r.id))
    && (forall e :: e in log && e.Added? && e.r.color != color ==> BarrierIn(log, e.r.id, nextId))
  }

  lemma MoreBarriers(log: seq<Event>, ev: Event, lo: nat, hi: nat)
    requires BarrierIn(log, lo, hi)
    ensures BarrierIn(log + [ev], lo, hi)
  {
    var e :| e in log && e.Added? && FsBarrier(e.r) && lo <= e.r.id < hi;
    assert e in log + [ev];
  }

  lemma FlipsKept(log: seq<Event>, color: bool, nextId: nat, ev: Event)
    requires ColorsFlip(log, color, nextId) && !ev.Added?
    ensures ColorsFlip(log + [ev], color, nextId)
  {
    hide BarrierIn;
    assert forall e :: e in log + [ev] && e.Added? ==> e in log;
    forall lo, hi | BarrierIn(log, lo, hi)
      ensures BarrierIn(log + [ev], lo, hi)
    {
      MoreBarriers(log, ev, lo, hi);
    }
  }

  lemma FlipsAdded(log: seq<Event>, color: bool, nextId: nat, r: Req)
    requires ColorsFlip(log, color, nextId) && r.id == nextId && r.color == color && (r.hard ==> r.kind.Fs?)
    requires forall e :: e in log ==> e.r.id < nextId
    ensures ColorsFlip(log + [Added(r)], if r.hard then !color else color, nextId + 1)
  {
    var log' := log + [Added(r)];
    assert forall e :: e in log' <==> e in log || e == Added(r);
    forall e | e in log' && e.Added? && e.r.color != (if r.hard then !color else color)
      ensures BarrierIn(log', e.r.id, nextId + 1)
    {
      if r.hard {
        assert Added(r) in log' && FsBarrier(r) && e.r.id <= r.id;
      } else {
        MoreBarriers(log, Added(r), e.r.id, nextId);
        WiderBarriers(log', e.r.id, nextId);
      }
    }
    forall e, f | e in log' && f in log' && e.Added? && f.Added? && e.r.id < f.r.id && e.r.color != f.r.color
      ensures BarrierIn(log', e.r.id, f.r.id)
    {
      MoreBarriers(log, Added(r), e.r.id, f.r.id);
    }
  }

  lemma WiderBarriers(log: seq<Event>, lo: nat, hi: nat)
    requires BarrierIn(log, lo, hi)
    ensures BarrierIn(log, lo, hi + 1)
  {
  }

  predicate NoArrival(log: seq<Event>, log': seq<Event>) {
    || log' == log || (log' != [] && log' == log + [log'[|log'| - 1]] && !log'[|log'| - 1].Added?)
    || (|log'| > 1 && log' == log + [log'[|log'| - 2]] + [log'[|log'| - 1]] && !log'[|log'| - 2].Added? && !log'[|log'| - 1].Added?)
  }

  lemma FlipsStay(log: seq<Event>, log': seq<Event>, color: bool, nextId: nat)
    requires ColorsFlip(log, color, nextId) && NoArrival(log, log')
    ensures ColorsFlip(log', color, nextId)
  {
    hide ColorsFlip;
    if log' != log {
      var e := log'[|log'| - 1];
      if log' == log + [e] {
        FlipsKept(log, color, nextId, e);
      } else {
        var d := log'[|log'| - 2];
        FlipsKept(log, color, nextId, d);
        FlipsKept(log + [d], color, nextId, e);
      }
    }
  }

  /** Only an arrival changes the colour or the next number. */
  lemma OthersDoNotArrive(s: State, step: Step)
    requires HistoryInv(s) && Enabled(s, step) && !step.AddStep?
    ensures var s' := Next(s, step); NoArrival(s.log, s'.log) && s'.color == s.color && s'.nextId == s.nextId
  {
    hide Inv, TagInv, StraysWait, Fetch, Finish, StartOrdered;
    if step.FetchStep? {
      Facts(s);
      hide Places, Colored, BarriersInOrder;
      FetchIs(s);
      FetchFrame(s);
      if s.queue != [] && !Active(s) && FsType(s.queue[0]) && s.queue[0].hard {
        StartLog(s);
      }
    } else if step.FinishStep? {
      FinishLog(s, step.r, step.error);
      FinishFrame(s, step.r, step.error);
    }
  }

  lemma FetchFrame(s: State)
    ensures Fetch(s).color == s.color && Fetch(s).nextId == s.nextId
  {
  }

  lemma FinishFrame(s: State, r: Req, error: int)
    ensures Finish(s, r, error).color == s.color && Finish(s, r, error).nextId == s.nextId
  {
  }

  lemma KnownIds(s: State)
    requires Inv(s)
    ensures forall e :: e in s.log ==> e.r.id < s.nextId
  {
    LogFacts(s);
    hide Inv;
  }

  lemma FlipsStep(s: State, step: Step)
    requires HistoryInv(s) && ColorsFlip(s.log, s.color, s.nextId) && Enabled(s, step)
    ensures var s' := Next(s, step); ColorsFlip(s'.log, s'.color, s'.nextId)
  {
    hide Inv, TagInv, StraysWait, ColorsFlip;
    if step.AddStep? {
      KnownIds(s);
      FlipsAdded(s.log, s.color, s.nextId, Req(step.kind, s.nextId, step.hard, step.empty, s.color, step.write, step.sector));
    } else {
      OthersDoNotArrive(s, step);
      FlipsStay(s.log, Next(s, step).log, s.color, s.nextId);
    }
  }

  lemma {:induction false} RunFlips(s: State, steps: seq<Step>)
    requires HistoryInv(s) && ColorsFlip(s.log, s.color, s.nextId) && Possible(s, steps)
    ensures HistoryInv(Run(s, steps))
    ensures var t := Run(s, steps); ColorsFlip(t.log, t.color, t.nextId)
    decreases |steps|
  {
    hide HistoryInv, ColorsFlip, Next, Enabled;
    if steps != [] {
      StepKeepsHistory(s, steps[0]);
      FlipsStep(s, steps[0]);
      RunFlips(Next(s, steps[0]), steps[1..]);
    }
  }

  /** In every run a stray request arrived before another barrier that itself arrived before b. */
  lemma StrayIsBeforeEarlierBarrier(steps: seq<Step>, b: Req, r: Req)
    requires Possible(Init(ORDERED_TAG), steps) && Stray(b, r)
    requires var log := Run(Init(ORDERED_TAG), steps).log; Added(b) in log && Added(r) in log
    ensures exists c :: Added(c) in Run(Init(ORDERED_TAG), steps).log && FsBarrier(c) && r.id < c.id < b.id
  {
    hide HistoryInv, Run, Possible;
    var s0, s := Init(ORDERED_TAG), Run(Init(ORDERED_TAG), steps);
    InitHistory();
    RunFlips(s0, steps);
    assert BarrierIn(s.log, Added(r).r.id, Added(b).r.id);
    var e :| e in s.log && e.Added? && FsBarrier(e.r) && r.id <= e.r.id < b.id;
    OneArrival(s, e, r);
    assert Added(e.r) in s.log;
  }

  lemma OneArrival(s: State, e: Event, r: Req)
    requires HistoryInv(s) && e in s.log && e.Added? && Added(r) in s.log && e.r.hard && !r.hard
    ensures e.r.id != r.id
  {
    LogFacts(s);
    hide Inv, TagInv, StraysWait;
  }
}
