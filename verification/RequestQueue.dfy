/** The request queue object of elevator.c and blk-barrier.c.  Its methods update the queue in
    place; each is proved to take steps of the Barrier machine, so what Barrier proves about every
    run holds of every sequence of calls. */
module RequestQueue {
  import opened Options
  import opened Barrier

  lemma {:induction false} RequeuePosUnique(orig: Req, q: seq<Req>, seqno: int, i: nat)
    requires i <= |q| && (i < |q| ==> seqno <= ReqSeq(orig, q[i]))
    requires forall j :: 0 <= j < i ==> ReqSeq(orig, q[j]) < seqno
    ensures i == RequeuePos(orig, q, seqno)
  {
  }

  lemma SortPosUnique(s: State, q: seq<Req>, r: Req, boundary: nat, i: nat)
    requires i <= |q| && (i > 0 ==> !MayPass(s, r, q[i - 1], boundary))
    requires forall j :: i <= j < |q| ==> MayPass(s, r, q[j], boundary)
    ensures i == SortPos(s, q, r, boundary)
  {
  }

  /** A run followed by a step is a run. */
  lemma {:induction false} RunSnoc(s: State, a: seq<Step>, step: Step)
    requires Possible(s, a) && Enabled(Run(s, a), step)
    ensures Possible(s, a + [step]) && Run(s, a + [step]) == Next(Run(s, a), step)
    decreases |a|
  {
    if a == [] {
      assert a + [step] == [step];
    } else {
      assert (a + [step])[0] == a[0] && (a + [step])[1..] == a[1..] + [step];
      RunSnoc(Next(s, a[0]), a[1..], step);
    }
  }

  class Queue {
    const mode: Ordered
    var queue: seq<Req>
    var held: set<Req>
    var flight: set<Req>
    var started: set<Req>
    var soft: set<Req>
    var inFlight: int
    var color: bool
    var ordseq: OrdSeq
    var ordered: Ordered
    var orderr: int
    var orig: Option<Req>
    var nextId: nat
    ghost var log: seq<Event>

    ghost function View(): State
      reads this
    {
      State(mode, queue, held, flight, started, soft, inFlight, color, ordseq, ordered, orderr, orig, nextId, log)
    }

    /** A barrier is stashed away exactly while a sequence is running. */
    ghost predicate Coherent()
      reads this
    {
      if orig.Some? then ordseq.started else ordseq == IDLE
    }

    constructor (mode: Ordered)
      ensures View() == Init(mode) && Coherent()
    {
      this.mode := mode;
      queue, held, flight, started, soft := [], {}, {}, {}, {};
      inFlight, color, ordseq, ordered, orderr, orig, nextId, log := 0, false, IDLE, ORDERED_NONE, 0, None, 0, [];
    }

    /** blk_ordered_complete_seq: true when the sequence is over and its barrier has been ended. */
    method CompleteSequence(bits: OrdSeq, error: int) returns (over: bool)
      requires Active(View())
      modifies this
      ensures View() == CompleteSeq(old(View()), bits, error)
      ensures over == !Active(View())
      ensures Coherent()
    {
      if error != 0 && orderr == 0 {
        orderr := error;
      }
      ordseq := ordseq.Or(bits);
      if ordseq.Cur() != SEQ_DONE {
        return false;
      }
      ordseq := IDLE;
      log := log + [Ended(orig.value, orderr)];
      orig := None;
      return true;
    }

    /** The stages of start_ordered, stacked at the queue head in reverse order. */
    method StackStages(b: Req) returns (rq: Option<Req>, skip: OrdSeq)
      modifies this
      ensures View() == old(View()).(queue := StageList(ordered, b) + old(queue),
                                     started := old(started) - StageSet(ordered, b),
                                     soft := old(soft) + StageSet(ordered, b))
      ensures rq == if StageList(ordered, b) == [] then None else Some(StageList(ordered, b)[0])
      ensures skip == OrdSeq(false, false, !ordered.preflush, !ordered.bar, !ordered.postflush)
    {
      var front := [];
      skip := IDLE;
      if ordered.postflush {
        front := [StageReq(PostFlush, b)] + front;
      } else {
        skip := skip.(postflush := true);
      }
      if ordered.bar {
        front := [StageReq(Bar, b)] + front;
      } else {
        skip := skip.(bar := true);
      }
      if ordered.preflush {
        front := [StageReq(PreFlush, b)] + front;
      } else {
        skip := skip.(preflush := true);
      }
      assert front == StageList(ordered, b);
      rq := if front == [] then None else Some(front[0]);
      started, soft, queue := started - Elems(front), soft + Elems(front), front + queue;
    }

    /** The part of start_ordered before the skipped stages are completed. */
    method Stack() returns (rq: Option<Req>, skip: OrdSeq)
      requires queue != [] && ordseq == IDLE
      modifies this
      ensures View() == Stacked(old(View()))
      ensures skip == Skipped(ordered, true)
      ensures rq == if StageList(ordered, old(queue[0])) == [] then None else Some(StageList(ordered, old(queue[0]))[0])
    {
      hide StageList, StageSet;
      var b := queue[0];
      var o := mode;
      if b.empty {
        o := o.(bar := false, postflush := false);
        if o.tag && !o.preflush {
          o := o.(tag := false, drain := true);
        }
      }
      assert o == Masked(mode, b.empty);
      orderr, ordered, ordseq := 0, o, ordseq.Or(OrdSeq(true, false, false, false, false));
      DequeueOriginal();
      rq, skip := StackStages(b);
    }

    /** elv_dequeue_request on the barrier at the head, which is stashed away. */
    method DequeueOriginal()
      requires queue != []
      modifies this
      ensures View() == old(View()).(queue := old(queue)[1..], orig := Some(old(queue)[0]),
                                     inFlight := old(inFlight) + Weight(old(View()), old(queue)[0]))
    {
      var b := queue[0];
      queue, orig := queue[1..], Some(b);
      if b in started && FsType(b) {
        inFlight := inFlight + 1;
      }
    }

    /** start_ordered.  Returns the request to hand out, if any, and whether the barrier is gone. */
    method StartOrderedSequence() returns (rq: Option<Req>, gone: bool)
      requires queue != [] && ordseq == IDLE
      modifies this
      ensures gone ==> View() == StartOrdered(old(View())) && |queue| < |old(queue)|
      ensures !gone && rq.None? ==> View() == StartOrdered(old(View()))
      ensures !gone && rq.Some? ==> queue != [] && rq.value == queue[0] && Issue(View()) == StartOrdered(old(View()))
      ensures held == old(held) && Coherent()
    {
      var skip;
      rq, skip := Stack();
      if ordered.drain && inFlight != 0 {
        rq := None;
      } else {
        skip := skip.(drain := true);
      }
      gone := CompleteSequence(skip, 0);
    }

    /** blk_do_ordered on the queue head: false when the head is gone and the queue must be looked
        at again, else the request that may be handed out now, if any. */
    method DoOrdered() returns (rq: Option<Req>, keep: bool)
      requires queue != [] && Coherent()
      modifies this
      ensures keep && rq.Some? ==> queue != [] && rq.value == queue[0] && Issue(View()) == Fetch(old(View()))
      ensures !keep || rq.None? ==> View() == Fetch(old(View()))
      ensures !keep ==> |queue| < |old(queue)|
      ensures held == old(held) && Coherent()
    {
      var h := queue[0];
      rq, keep := Some(h), true;
      if ordseq == IDLE {
        if FsType(h) && h.hard {
          if mode != ORDERED_NONE {
            var gone;
            rq, gone := StartOrderedSequence();
            keep := !gone;
          } else {
            queue := queue[1..];
            log := log + [Ended(h, -EOPNOTSUPP)];
            rq, keep := None, false;
          }
        }
        return;
      }
      if !FsType(h) && !h.kind.PreFlush? && !h.kind.PostFlush? {
        return;
      }
      if ordered.tag {
        if FsType(h) && h.hard && !h.kind.Bar? {
          rq := None;
        }
      } else if ReqSeq(orig.value, h) > ordseq.Cur() {
        rq := None;
      }
    }

    /** blk_do_ordered, and what elv_next_request does with the request it gets. */
    method FetchHead() returns (rq: Option<Req>, keep: bool)
      requires queue != [] && Coherent()
      modifies this
      ensures View() == Fetch(old(View()))
      ensures keep && rq.Some? ==> queue != [] && rq.value == queue[0] && rq.value in started &&
                                   log != [] && log[|log| - 1] == Issued(rq.value)
      ensures !keep ==> |queue| < |old(queue)|
      ensures held == old(held) && Coherent()
    {
      rq, keep := DoOrdered();
      if keep && rq.Some? {
        started, log := started + {rq.value}, log + [Issued(rq.value)];
      }
    }

    /** elv_next_request without the driver's prep hook: look at the queue head until something can
        be handed out or must wait; ask the scheduler for more when the queue is empty.  The
        scheduler may move any request, sorted in or at the tail, or decline. */
    method NextRequest() returns (rq: Option<Req>, ghost steps: seq<Step>)
      requires Coherent()
      modifies this
      ensures Possible(old(View()), steps) && View() == Run(old(View()), steps) && Coherent()
      ensures forall step :: step in steps ==> step.FetchStep? || step.DispatchStep?
      ensures rq.Some? ==> queue != [] && rq.value == queue[0] && rq.value in started &&
                           log != [] && log[|log| - 1] == Issued(rq.value)
    {
      rq, steps := None, [];
      while true
        invariant Coherent()
        invariant Possible(old(View()), steps) && View() == Run(old(View()), steps)
        invariant forall step :: step in steps ==> step.FetchStep? || step.DispatchStep?
        decreases |held|, |queue|
      {
        ghost var s := View();
        if queue != [] {
          var keep;
          RunSnoc(old(View()), steps, FetchStep);
          rq, keep := FetchHead();
          steps := steps + [FetchStep];
          if keep {
            return;
          }
        } else {
          var more: bool := *;
          if held == {} || !more {
            rq := None;
            return;
          }
          var r :| r in held;
          var tail: bool, boundary: nat := *, *;
          RunSnoc(old(View()), steps, DispatchStep(r, tail, boundary));
          steps := steps + [DispatchStep(r, tail, boundary)];
          DispatchRequest(r, tail, boundary);
        }
      }
    }

    /** elv_dispatch_add_tail, or elv_dispatch_sort walking back over the dispatch queue. */
    method DispatchRequest(r: Req, tail: bool, boundary: nat)
      requires r in held
      modifies this
      ensures View() == Dispatch(old(View()), r, tail, boundary)
      ensures |held| < |old(held)|
    {
      ghost var s := View();
      var i := |queue|;
      if !tail {
        while i > 0 && queue[i - 1] !in soft && !queue[i - 1].hard && queue[i - 1] !in started &&
              r.write == queue[i - 1].write && PassesSector(r.sector, queue[i - 1].sector, boundary)
          invariant 0 <= i <= |queue|
          invariant forall j :: i <= j < |queue| ==> MayPass(s, r, queue[j], boundary)
        {
          i := i - 1;
        }
        SortPosUnique(s, queue, r, boundary, i);
      }
      held := held - {r};
      queue := queue[..i] + [r] + queue[i..];
    }

    /** blkdev_dequeue_request on a request the driver has fetched. */
    method DequeueRequest(i: nat)
      requires i < |queue| && queue[i] in started
      modifies this
      ensures View() == Dequeue(old(View()), i)
    {
      var r := queue[i];
      queue := queue[..i] + queue[i + 1..];
      flight := flight + {r};
      if FsType(r) {
        inFlight := inFlight + 1;
      }
    }

    /** elv_completed_request */
    method CompletedRequest(r: Req)
      requires Coherent()
      modifies this
      ensures View() == Completed(old(View()), r)
      ensures Coherent()
    {
      if r in started && FsType(r) {
        inFlight := inFlight - 1;
      }
      if ordseq != IDLE {
        if inFlight == 0 && ordseq.Cur() == SEQ_DRAIN &&
           (queue == [] || ReqSeq(orig.value, queue[0]) > SEQ_DRAIN)
        {
          var over := CompleteSequence(OrdSeq(false, true, false, false, false), 0);
        }
      }
    }

    /** end_that_request_last on a dequeued request, with the end_io handler of a stage. */
    method EndRequest(r: Req, error: int)
      requires r in flight && Coherent()
      modifies this
      ensures View() == Finish(old(View()), r, error) && Coherent()
    {
      flight := flight - {r};
      log := log + [Done(r, error)];
      CompletedRequest(r);
      if IsStage(r.kind) && ordseq != IDLE {
        var over := CompleteSequence(StageBit(r.kind), error);
      }
    }

    /** The walk of ELEVATOR_INSERT_REQUEUE to the first entry whose stage is not earlier. */
    method RequeueIndex(r: Req) returns (i: nat)
      requires Coherent()
      ensures i == if !Active(View()) then 0 else RequeuePos(orig.value, queue, ReqSeq(orig.value, r))
    {
      i := 0;
      if ordseq == IDLE {
        return;
      }
      var seqno := ReqSeq(orig.value, r);
      while i < |queue| && ReqSeq(orig.value, queue[i]) < seqno
        invariant 0 <= i <= |queue|
        invariant forall j :: 0 <= j < i ==> ReqSeq(orig.value, queue[j]) < seqno
      {
        i := i + 1;
      }
      RequeuePosUnique(orig.value, queue, seqno, i);
    }

    /** elv_requeue_request */
    method RequeueRequest(r: Req)
      requires r in flight && Coherent()
      modifies this
      ensures View() == Requeue(old(View()), r) && Coherent()
    {
      var i := RequeueIndex(r);
      if r in started && FsType(r) {
        inFlight := inFlight - 1;
      }
      flight, started, soft := flight - {r}, started - {r}, soft + {r};
      queue := queue[..i] + [r] + queue[i..];
    }

    /** elv_insert at the front, at the back or into the scheduler. */
    method Insert(r: Req, w: Where)
      modifies this
      ensures View() == Add(old(View()), r, w)
    {
      if r.hard {
        color := !color;
      }
      nextId, started, log := nextId + 1, started - {r}, log + [Added(r)];
      match w {
        case Front => soft, queue := soft + {r}, [r] + queue;
        case Back => soft, queue := soft + {r}, queue + [r];
        case Sort => soft, held := soft - {r}, held + {r};
      }
    }

    /** __elv_add_request: colour the request, toggle the colour for a barrier, and insert it; a
        back insertion first drains the scheduler, in whatever order it dispatches. */
    method AddRequest(kind: Kind, softFlag: bool, hard: bool, empty: bool, write: bool, sector: nat,
                      elvpriv: bool, where: Where) returns (r: Req, ghost drain: seq<Step>)
      requires (kind.Fs? && !where.Front?) || (kind.Special? && !hard && !where.Sort?)
      modifies this
      ensures r == Req(kind, old(nextId), hard, empty, old(color), write, sector)
      ensures forall step :: step in drain ==> step.DispatchStep?
      ensures Possible(old(View()), drain)
      ensures var step := AddStep(kind, softFlag, hard, empty, write, sector, elvpriv, where);
              Enabled(Run(old(View()), drain), step) && View() == Next(Run(old(View()), drain), step)
    {
      r := Req(kind, nextId, hard, empty, color, write, sector);
      drain := [];
      var w := where;
      if w.Sort? && (softFlag || hard || !elvpriv) {
        w := Back;
      }
      if w.Back? {
        drain := Drain();
      }
      Insert(r, w);
    }

    /** elv_drain_elevator with a scheduler that gives up every request it holds. */
    method Drain() returns (ghost steps: seq<Step>)
      modifies this
      ensures held == {} && nextId == old(nextId) && color == old(color)
      ensures forall step :: step in steps ==> step.DispatchStep?
      ensures Possible(old(View()), steps) && View() == Run(old(View()), steps)
    {
      steps := [];
      while held != {}
        invariant nextId == old(nextId) && color == old(color)
        invariant forall step :: step in steps ==> step.DispatchStep?
        invariant Possible(old(View()), steps) && View() == Run(old(View()), steps)
        decreases |held|
      {
        var r :| r in held;
        var tail: bool, boundary: nat := *, *;
        RunSnoc(old(View()), steps, DispatchStep(r, tail, boundary));
        steps := steps + [DispatchStep(r, tail, boundary)];
        DispatchRequest(r, tail, boundary);
      }
    }
  }

  /** The sector test of elv_dispatch_sort. */
  predicate PassesSector(sector: nat, pos: nat, boundary: nat) {
    if sector >= boundary then pos < boundary || sector < pos else pos < boundary && sector < pos
  }
}
