/** Switching the I/O scheduler of a live queue: any number of tasks allocate, insert, dispatch and
    free requests while one task attaches a new elevator or fails and goes back to the old one.
    Every step below is what runs under the queue lock, or a single unlocked access. */
module ElevatorSwitch {

  import opened Options

  /** An elevator instance (struct elevator_queue). */
  type Elevator = nat

  /** Reserved: counted in get_request, lock dropped.  Setting: elv_set_request has read
      q->elevator and is attaching its data.  Allocated: back from blk_alloc_request.
      Sorted: inside an elevator.  Dispatched: on the dispatch queue or with the driver. */
  datatype Place = Reserved | Setting(e: Elevator) | Allocated | Sorted(e: Elevator) | Dispatched

  /** priv: counted in elvpriv; data: REQ_ELVPRIV is set and whose private data is attached. */
  datatype Request = Request(priv: bool, data: Option<Elevator>, at: Place)

  /** Where elevator_switch is. */
  datatype Switcher =
    | Off
    | Prepared(new_: Elevator)
    | Quiescing(new_: Elevator)
    | Attached(old_: Elevator, new_: Elevator)
    | RollingBack(old_: Elevator)
    | Ending

  datatype State = State(elevator: Elevator, bypass: bool, elvpriv: int, reqs: map<nat, Request>,
                         switcher: Switcher, ready: set<Elevator>)

  function Init(e: Elevator): State { State(e, false, 0, map[], Off, {e}) }

  function Count(b: bool): nat { if b then 1 else 0 }

  /** Elevator functions that are called whatever the bypass flag says and whatever request there is:
      elv_may_queue, elevator_merge_fn for a bio, elevator_dispatch_fn when the dispatch queue is empty,
      and elv_queue_empty. */
  datatype Hook = MayQueue | MergeLookup | DispatchPoll | QueueEmpty

  /** Where a request is inserted; barriers are inserted at the back. */
  datatype Where = Front | Back | Sort

  datatype Step =
    | Consult(hook: Hook)
    | Reserve(id: nat)
    | ReadElevator(id: nat)
    | FinishAlloc(id: nat)
    | FailAlloc(id: nat)
    | Insert(id: nat, where: Where)
    | Dispatch(id: nat)
    | Free(id: nat)
    | Prepare(e: Elevator)
    | StartQuiesce
    | DrainAgain
    | Attach
    | Registered
    | RegisterFailed
    | Reattach
    | EndQuiesce

  predicate At(s: State, id: nat, p: Place) { id in s.reqs && s.reqs[id].at == p }

  predicate Enabled(s: State, step: Step) {
    match step
    case Consult(hook) => true
    case Reserve(id) => id !in s.reqs
    case ReadElevator(id) => At(s, id, Reserved) && s.reqs[id].priv
    case FinishAlloc(id) => id in s.reqs && (s.reqs[id].at.Setting? || (s.reqs[id].at.Reserved? && !s.reqs[id].priv))
    case FailAlloc(id) => id in s.reqs && (s.reqs[id].at.Setting? || s.reqs[id].at.Reserved?)
    case Insert(id, w) => At(s, id, Allocated)
    case Dispatch(id) => At(s, id, Sorted(s.elevator))
    // a completed, an uninserted or a merged-away request
    case Free(id) => id in s.reqs && (s.reqs[id].at.Dispatched? || s.reqs[id].at.Allocated? || s.reqs[id].at.Sorted?)
    case Prepare(e) => s.switcher.Off? && e !in s.ready && e != s.elevator
    case StartQuiesce => s.switcher.Prepared?
    case DrainAgain => s.switcher.Quiescing? && s.elvpriv != 0
    case Attach => s.switcher.Quiescing? && s.elvpriv == 0
    case Registered => s.switcher.Attached?
    case RegisterFailed => s.switcher.Attached?
    case Reattach => s.switcher.RollingBack?
    case EndQuiesce => s.switcher.Ending?
  }

  /** elv_drain_elevator: the attached elevator gives up everything it holds. */
  function Drained(e: Elevator, reqs: map<nat, Request>): map<nat, Request> {
    map id | id in reqs :: if reqs[id].at == Sorted(e) then reqs[id].(at := Dispatched) else reqs[id]
  }

  /** Without REQ_ELVPRIV a sort insertion becomes a back insertion. */
  function EffectiveWhere(r: Request, w: Where): Where { if w.Sort? && r.data.None? then Back else w }

  function Inserted(e: Elevator, reqs: map<nat, Request>, id: nat, w: Where): map<nat, Request>
    requires id in reqs
  {
    match EffectiveWhere(reqs[id], w)
    case Front => reqs[id := reqs[id].(at := Dispatched)]
    case Back => Drained(e, reqs)[id := reqs[id].(at := Dispatched)]
    case Sort => reqs[id := reqs[id].(at := Sorted(e))]
  }

  function Next(s: State, step: Step): State
    requires Enabled(s, step)
  {
    match step
    // what the elevator answers is not modelled; a request it dispatches is a step of its own
    case Consult(hook) => s
    // get_request: elvpriv is bumped unless the queue is being switched
    case Reserve(id) =>
      s.(reqs := s.reqs[id := Request(!s.bypass, None, Reserved)], elvpriv := s.elvpriv + Count(!s.bypass))
    // blk_alloc_request, without the lock
    case ReadElevator(id) => s.(reqs := s.reqs[id := s.reqs[id].(at := Setting(s.elevator))])
    case FinishAlloc(id) =>
      var r := s.reqs[id];
      s.(reqs := s.reqs[id := r.(at := Allocated, data := if r.at.Setting? then Some(r.at.e) else None)])
    // freed_request(q, is_sync, priv)
    case FailAlloc(id) => s.(reqs := s.reqs - {id}, elvpriv := s.elvpriv - Count(s.reqs[id].priv))
    // __elv_add_request and elv_insert: a back insertion drains the attached elevator
    case Insert(id, w) => s.(reqs := Inserted(s.elevator, s.reqs, id, w))
    case Dispatch(id) => s.(reqs := s.reqs[id := s.reqs[id].(at := Dispatched)])
    // __blk_put_request: the flag, not the count taken at allocation, decides
    case Free(id) => s.(reqs := s.reqs - {id}, elvpriv := s.elvpriv - Count(s.reqs[id].data.Some?))
    // elevator_alloc and elevator_init_queue
    case Prepare(e) => s.(switcher := Prepared(e), ready := s.ready + {e})
    // elv_quiesce_start
    case StartQuiesce => s.(switcher := Quiescing(s.switcher.new_), bypass := true, reqs := Drained(s.elevator, s.reqs))
    case DrainAgain => s.(reqs := Drained(s.elevator, s.reqs))
    // elevator_attach, under the lock that saw elvpriv == 0
    case Attach => s.(switcher := Attached(s.elevator, s.switcher.new_), elevator := s.switcher.new_)
    // elevator_exit of the old elevator
    case Registered => s.(switcher := Ending, ready := s.ready - {s.switcher.old_})
    // elevator_exit of the new elevator, which is still attached
    case RegisterFailed => s.(switcher := RollingBack(s.switcher.old_), ready := s.ready - {s.switcher.new_})
    case Reattach => s.(switcher := Ending, elevator := s.switcher.old_)
    case EndQuiesce => s.(switcher := Off, bypass := false)
  }

  predicate Possible(s: State, steps: seq<Step>)
    decreases |steps|
  {
    steps == [] || (Enabled(s, steps[0]) && Possible(Next(s, steps[0]), steps[1..]))
  }

  function Run(s: State, steps: seq<Step>): State
    requires Possible(s, steps)
    decreases |steps|
  {
    if steps == [] then s else Run(Next(s, steps[0]), steps[1..])
  }

  // ---- what holds between steps ----

  /** Live or half-allocated requests that will carry or carry elevator data. */
  function Private(reqs: map<nat, Request>): set<nat> { set id | id in reqs && reqs[id].priv }

  predicate RequestOk(s: State, r: Request) {
    && (r.at.Reserved? || r.at.Setting? ==> r.data == None)
    && (r.at.Setting? ==> r.priv && r.at.e == s.elevator)
    && (r.at.Allocated? || r.at.Sorted? || r.at.Dispatched? ==> (r.priv <==> r.data.Some?))
    && (r.data.Some? ==> r.data.value == s.elevator)
    && (r.at.Sorted? ==> r.data == Some(r.at.e))
  }

  ghost predicate Inv(s: State) {
    && s.elvpriv == |Private(s.reqs)|
    && (forall id :: id in s.reqs ==> RequestOk(s, s.reqs[id]))
    && (s.bypass <==> !s.switcher.Off? && !s.switcher.Prepared?)
    && match s.switcher
       case Off => s.elevator in s.ready
       case Prepared(e) => s.elevator in s.ready && e in s.ready && e != s.elevator
       case Quiescing(e) => s.elevator in s.ready && e in s.ready && e != s.elevator
       case Attached(old_, new_) =>
         && s.elvpriv == 0 && s.elevator == new_ && old_ != new_ && old_ in s.ready && new_ in s.ready
       case RollingBack(old_) => s.elvpriv == 0 && old_ in s.ready && s.elevator !in s.ready
       case Ending => s.elvpriv == 0 && s.elevator in s.ready
  }

  lemma PrivatePut(reqs: map<nat, Request>, id: nat, r: Request)
    ensures |Private(reqs[id := r])| == |Private(reqs)| - Count(id in reqs && reqs[id].priv) + Count(r.priv)
  {
    var p := Private(reqs);
    if r.priv {
      assert Private(reqs[id := r]) == p + {id};
    } else {
      assert Private(reqs[id := r]) == p - {id};
    }
  }

  lemma PrivateRemove(reqs: map<nat, Request>, id: nat)
    requires id in reqs
    ensures |Private(reqs - {id})| == |Private(reqs)| - Count(reqs[id].priv)
  {
    assert Private(reqs - {id}) == Private(reqs) - {id};
  }

  lemma PrivateDrained(e: Elevator, reqs: map<nat, Request>)
    ensures Private(Drained(e, reqs)) == Private(reqs)
  {
  }

  lemma NoPrivate(s: State)
    requires Inv(s) && s.elvpriv == 0
    ensures forall id :: id in s.reqs ==> !s.reqs[id].priv && s.reqs[id].data == None && !s.reqs[id].at.Sorted? && !s.reqs[id].at.Setting?
  {
    assert Private(s.reqs) == {};
    forall id | id in s.reqs
      ensures !s.reqs[id].priv
    {
      assert id !in Private(s.reqs);
    }
  }

  predicate OfSwitcher(step: Step) {
    step.Prepare? || step.StartQuiesce? || step.DrainAgain? || step.Attach? || step.Registered? || step.RegisterFailed?
    || step.Reattach? || step.EndQuiesce?
  }

  lemma InsertKeeps(s: State, id: nat, w: Where)
    requires Inv(s) && At(s, id, Allocated)
    ensures Inv(s.(reqs := Inserted(s.elevator, s.reqs, id, w)))
  {
    hide Private;
    var reqs := Inserted(s.elevator, s.reqs, id, w);
    PrivateDrained(s.elevator, s.reqs);
    PrivatePut(s.reqs, id, reqs[id]);
    PrivatePut(Drained(s.elevator, s.reqs), id, reqs[id]);
    assert forall x :: x in reqs ==> x in s.reqs && RequestOk(s, s.reqs[x]) && RequestOk(s, reqs[x]);
  }

  lemma RequestStepKeeps(s: State, step: Step)
    requires Inv(s) && Enabled(s, step) && !OfSwitcher(step)
    ensures Inv(Next(s, step))
  {
    hide Private, Inserted;
    match step
    case Reserve(id) => PrivatePut(s.reqs, id, Request(!s.bypass, None, Reserved));
    case ReadElevator(id) => PrivatePut(s.reqs, id, s.reqs[id].(at := Setting(s.elevator)));
    case FinishAlloc(id) => PrivatePut(s.reqs, id, Next(s, step).reqs[id]);
    case FailAlloc(id) => PrivateRemove(s.reqs, id);
    case Insert(id, w) => InsertKeeps(s, id, w);
    case Dispatch(id) => PrivatePut(s.reqs, id, Next(s, step).reqs[id]);
    case Free(id) => PrivateRemove(s.reqs, id);
    case _ =>
  }

  lemma SwitcherStepKeeps(s: State, step: Step)
    requires Inv(s) && Enabled(s, step) && OfSwitcher(step)
    ensures Inv(Next(s, step))
  {
    hide Private;
    match step
    case StartQuiesce => PrivateDrained(s.elevator, s.reqs);
    case DrainAgain => PrivateDrained(s.elevator, s.reqs);
    case Attach => NoPrivate(s);
    case Reattach => NoPrivate(s);
    case _ =>
  }

  lemma StepKeepsInv(s: State, step: Step)
    requires Inv(s) && Enabled(s, step)
    ensures Inv(Next(s, step))
  {
    hide Inv;
    if OfSwitcher(step) {
      SwitcherStepKeeps(s, step);
    } else {
      RequestStepKeeps(s, step);
    }
  }

  lemma {:induction false} RunKeepsInv(s: State, steps: seq<Step>)
    requires Inv(s) && Possible(s, steps)
    ensures Inv(Run(s, steps))
    decreases |steps|
  {
    if steps != [] {
      StepKeepsInv(s, steps[0]);
      RunKeepsInv(Next(s, steps[0]), steps[1..]);
    }
  }

  lemma Reachable(e: Elevator, steps: seq<Step>)
    requires Possible(Init(e), steps)
    ensures Inv(Run(Init(e), steps))
  {
    assert Private(Init(e).reqs) == {};
    RunKeepsInv(Init(e), steps);
  }

  // ---- the theorems ----

  /** In every reachable state elvpriv is exact and private data belongs to the attached elevator. */
  lemma PrivateDataIsCurrent(e: Elevator, steps: seq<Step>, id: nat)
    requires Possible(Init(e), steps) && id in Run(Init(e), steps).reqs
    ensures var s := Run(Init(e), steps);
            && s.elvpriv == |Private(s.reqs)|
            && (s.reqs[id].data.Some? ==> s.reqs[id].data.value == s.elevator && s.reqs[id].priv)
            && (s.reqs[id].at.Setting? ==> s.reqs[id].at.e == s.elevator && s.reqs[id].priv)
  {
    Reachable(e, steps);
  }

  /** A request that enters an elevator carries that elevator's data, whatever switch is going on. */
  lemma SortedWhereItBelongs(e: Elevator, steps: seq<Step>, step: Step, id: nat)
    requires Possible(Init(e), steps) && Enabled(Run(Init(e), steps), step)
    requires var s' := Next(Run(Init(e), steps), step); id in s'.reqs && s'.reqs[id].at.Sorted?
    ensures var s' := Next(Run(Init(e), steps), step);
            s'.reqs[id].data == Some(s'.reqs[id].at.e) && s'.reqs[id].at.e == s'.elevator && s'.elevator in s'.ready
  {
    Reachable(e, steps);
    StepKeepsInv(Run(Init(e), steps), step);
    var s' := Next(Run(Init(e), steps), step);
    if s'.elvpriv == 0 {
      NoPrivate(s');
    }
  }

  /** When another elevator is attached, by a switch or by its rollback, no request refers to the
      one before it; the same holds when an elevator is torn down. */
  lemma ChangesFindNoPrivateData(e: Elevator, steps: seq<Step>, step: Step)
    requires Possible(Init(e), steps) && Enabled(Run(Init(e), steps), step)
    requires var s := Run(Init(e), steps); Next(s, step).elevator != s.elevator || !(s.ready <= Next(s, step).ready)
    ensures var s := Run(Init(e), steps);
            forall id :: id in s.reqs ==> s.reqs[id].data == None && !s.reqs[id].at.Sorted? && !s.reqs[id].at.Setting?
  {
    Reachable(e, steps);
    NoPrivate(Run(Init(e), steps));
  }

  /** The attached elevator is torn down exactly in the window of a failed switch between
      elevator_exit and the re-attachment; then the bypass is on and no private data exists. */
  lemma TornDownOnlyWhileRollingBack(e: Elevator, steps: seq<Step>)
    requires Possible(Init(e), steps)
    ensures var s := Run(Init(e), steps);
            && (s.elevator !in s.ready <==> s.switcher.RollingBack?)
            && (s.switcher.RollingBack? ==> s.bypass && s.elvpriv == 0)
  {
    Reachable(e, steps);
  }

  /** The step calls a function of the attached elevator: get_request asks elv_may_queue first, and a
      back insertion drains the elevator. */
  predicate Enters(s: State, step: Step)
    requires Enabled(s, step)
  {
    match step
    case Consult(hook) => true
    case Reserve(id) => true
    case ReadElevator(id) => true
    case FinishAlloc(id) => s.reqs[id].at.Setting?
    case FailAlloc(id) => s.reqs[id].at.Setting?
    case Insert(id, w) => !w.Front?
    case Dispatch(id) => true
    case Free(id) => s.reqs[id].data.Some?
    case StartQuiesce => true
    case DrainAgain => true
    case _ => false
  }

  /** An elevator that is torn down is entered in the window of the rollback, and there by exactly these:
      the calls that ask the elevator whatever the bypass flag says, every allocation, and every
      insertion but one at the front.  Requests without private data do not avoid the elevator: their
      insertion at the back drains it. */
  lemma EntersTornDownIff(e: Elevator, steps: seq<Step>, step: Step)
    requires Possible(Init(e), steps) && Enabled(Run(Init(e), steps), step)
    ensures var s := Run(Init(e), steps);
            Enters(s, step) && s.elevator !in s.ready <==>
            s.switcher.RollingBack? && (step.Consult? || step.Reserve? || (step.Insert? && !step.where.Front?))
  {
    Reachable(e, steps);
    var s := Run(Init(e), steps);
    if s.switcher.RollingBack? {
      NoPrivate(s);
    }
  }

  lemma {:induction false} RunOfBoth(s: State, a: seq<Step>, b: seq<Step>)
    requires Possible(s, a) && Possible(Run(s, a), b)
    ensures Possible(s, a + b) && Run(s, a + b) == Run(Run(s, a), b)
    decreases |a|
  {
    hide Enabled, Next;
    if a == [] {
      assert a + b == b;
    } else {
      assert (a + b)[1..] == a[1..] + b;
      RunOfBoth(Next(s, a[0]), a[1..], b);
    }
  }

  lemma RunOfTwo(s: State, a: Step, b: Step)
    requires Enabled(s, a) && Enabled(Next(s, a), b)
    ensures Possible(s, [a, b]) && Run(s, [a, b]) == Next(Next(s, a), b)
  {
    hide Enabled, Next, Run, Possible;
    RunOfOne(s, a);
    RunOfOne(Next(s, a), b);
    RunOfBoth(s, [a], [b]);
    assert [a] + [b] == [a, b];
  }

  lemma RunOfOne(s: State, a: Step)
    requires Enabled(s, a)
    ensures Possible(s, [a]) && Run(s, [a]) == Next(s, a)
  {
    hide Enabled, Next;
    assert [a][1..] == [];
  }

  /** A switch whose registration fails, up to the exit of the new elevator. */
  function FailedSwitch(e: Elevator): seq<Step> { [Prepare(e), StartQuiesce] + [Attach, RegisterFailed] }

  lemma FailedSwitchRuns(e: Elevator)
    ensures var s := State(e + 1, true, 0, map[], RollingBack(e), {e});
            Possible(Init(e), FailedSwitch(e + 1)) && Run(Init(e), FailedSwitch(e + 1)) == s
  {
    hide Run, Possible;
    var s1 := Next(Init(e), Prepare(e + 1));
    var s2 := Next(s1, StartQuiesce);
    assert s2.reqs == map[];
    var s3 := Next(s2, Attach);
    RunOfTwo(Init(e), Prepare(e + 1), StartQuiesce);
    RunOfTwo(s2, Attach, RegisterFailed);
    RunOfBoth(Init(e), [Prepare(e + 1), StartQuiesce], [Attach, RegisterFailed]);
  }

  lemma RollbackWindowIsReachable(e: Elevator)
    ensures var steps := FailedSwitch(e + 1);
            Possible(Init(e), steps) && Run(Init(e), steps).elevator !in Run(Init(e), steps).ready
  {
    FailedSwitchRuns(e);
  }

  /** A request allocated in the window and sorted in, as every file system request is, enters the
      elevator that is torn down. */
  lemma InsertionMeetsTornDown(e: Elevator)
    ensures var steps := FailedSwitch(e + 1) + [Reserve(0), FinishAlloc(0)];
            && Possible(Init(e), steps)
            && var s := Run(Init(e), steps);
               Enabled(s, Insert(0, Sort)) && Enters(s, Insert(0, Sort)) && s.elevator !in s.ready
  {
    hide Run, Possible, FailedSwitch;
    FailedSwitchRuns(e);
    var s := Run(Init(e), FailedSwitch(e + 1));
    RunOfTwo(s, Reserve(0), FinishAlloc(0));
    RunOfBoth(Init(e), FailedSwitch(e + 1), [Reserve(0), FinishAlloc(0)]);
  }
}
