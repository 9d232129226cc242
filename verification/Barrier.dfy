/** Barrier sequencing: the request queue as a state machine over the steps that the block layer
    and its drivers take under the queue lock (add, dispatch, fetch, dequeue, finish, requeue).

    The state keeps a history of what happened.  `Allowed` says, without naming any field of the
    queue, which event may follow which history; `EveryRunIsOrdered` proves it of every run. */
module Barrier {

  import opened Options

  /** Fs and Special requests come from outside; the other three are the queue's own
      pre_flush_rq, bar_rq (the proxy of a barrier) and post_flush_rq. */
  datatype Kind = Fs | Special | PreFlush | Bar | PostFlush

  /** What does not change during the life of a request.  `id` is the arrival number; the three
      stage requests carry the id of their barrier.  `hard` is REQ_HARDBARRIER. */
  datatype Req = Req(kind: Kind, id: nat, hard: bool, empty: bool, color: bool, write: bool, sector: nat)

  predicate IsStage(k: Kind) { k.PreFlush? || k.Bar? || k.PostFlush? }

  /** blk_fs_request: the proxy is an fs request too. */
  predicate FsType(r: Req) { r.kind.Fs? || r.kind.Bar? }

  /** A barrier as submitted, not its proxy. */
  predicate FsBarrier(r: Req) { r.kind.Fs? && r.hard }

  // ---- ordered modes and sequence bits (blkdev.h) ----

  datatype Ordered = Ordered(drain: bool, tag: bool, preflush: bool, bar: bool, postflush: bool)

  const ORDERED_NONE := Ordered(false, false, false, false, false)
  const ORDERED_DRAIN := Ordered(true, false, false, true, false)
  const ORDERED_DRAIN_FLUSH := Ordered(true, false, true, true, true)
  const ORDERED_DRAIN_FUA := Ordered(true, false, true, true, false)
  const ORDERED_TAG := Ordered(false, true, false, true, false)
  const ORDERED_TAG_FLUSH := Ordered(false, true, true, true, true)
  const ORDERED_TAG_FUA := Ordered(false, true, true, true, false)

  /** The seven modes blk_queue_ordered accepts. */
  predicate Supported(m: Ordered) {
    m == ORDERED_NONE || m == ORDERED_DRAIN || m == ORDERED_DRAIN_FLUSH || m == ORDERED_DRAIN_FUA ||
    m == ORDERED_TAG || m == ORDERED_TAG_FLUSH || m == ORDERED_TAG_FUA
  }

  const SEQ_STARTED := 0x01
  const SEQ_DRAIN := 0x02
  const SEQ_PREFLUSH := 0x04
  const SEQ_BAR := 0x08
  const SEQ_POSTFLUSH := 0x10
  const SEQ_DONE := 0x20

  const EOPNOTSUPP := 95

  /** The bits of q->ordseq, one boolean each. */
  datatype OrdSeq = OrdSeq(started: bool, drain: bool, preflush: bool, bar: bool, postflush: bool) {
    function Or(o: OrdSeq): OrdSeq {
      OrdSeq(started || o.started, drain || o.drain, preflush || o.preflush, bar || o.bar,
             postflush || o.postflush)
    }

    predicate Bit(k: Kind)
      requires IsStage(k)
    {
      match k case PreFlush => preflush case Bar => bar case PostFlush => postflush
    }

    function Mask(): int {
      (if started then SEQ_STARTED else 0) + (if drain then SEQ_DRAIN else 0) +
      (if preflush then SEQ_PREFLUSH else 0) + (if bar then SEQ_BAR else 0) +
      (if postflush then SEQ_POSTFLUSH else 0)
    }

    /** blk_ordered_cur_seq: 1 << ffz(ordseq). */
    function Cur(): int {
      if !started then 0
      else if !drain then SEQ_DRAIN
      else if !preflush then SEQ_PREFLUSH
      else if !bar then SEQ_BAR
      else if !postflush then SEQ_POSTFLUSH
      else SEQ_DONE
    }
  }

  const IDLE := OrdSeq(false, false, false, false, false)

  function StageBit(k: Kind): OrdSeq
    requires IsStage(k)
  {
    OrdSeq(false, false, k.PreFlush?, k.Bar?, k.PostFlush?)
  }

  function StageSeq(k: Kind): int
    requires IsStage(k)
  {
    match k case PreFlush => SEQ_PREFLUSH case Bar => SEQ_BAR case PostFlush => SEQ_POSTFLUSH
  }

  /** The mask keeps the five bits apart, and Cur is the lowest clear one. */
  lemma CurIsLowestClearBit(o: OrdSeq)
    requires o.started
    ensures o.Mask() / o.Cur() % 2 == 0
    ensures forall b | b in {SEQ_STARTED, SEQ_DRAIN, SEQ_PREFLUSH, SEQ_BAR, SEQ_POSTFLUSH} && b < o.Cur() ::
              o.Mask() / b % 2 == 1
  {
    assert o.Mask() < 64;
  }

  // ---- state ----

  datatype Event =
    | Added(r: Req)
    | Issued(r: Req)
    | Done(r: Req, error: int)
    | Ended(r: Req, error: int)

  /** queue: the dispatch queue; held: inside the I/O scheduler; flight: dequeued by the driver and
      not completed; started and soft: the requests carrying REQ_STARTED and REQ_SOFTBARRIER. */
  datatype State = State(mode: Ordered, queue: seq<Req>, held: set<Req>, flight: set<Req>,
                         started: set<Req>, soft: set<Req>,
                         inFlight: int, color: bool, ordseq: OrdSeq, ordered: Ordered, orderr: int,
                         orig: Option<Req>, nextId: nat, log: seq<Event>)

  function Init(mode: Ordered): State {
    State(mode, [], {}, {}, {}, {}, 0, false, IDLE, ORDERED_NONE, 0, None, 0, [])
  }

  predicate Active(s: State) { s.ordseq.started && s.orig.Some? }

  /** blk_account_rq */
  function Weight(s: State, r: Req): nat { if r in s.started && FsType(r) then 1 else 0 }

  /** blk_ordered_req_seq */
  function ReqSeq(orig: Req, r: Req): int {
    if IsStage(r.kind) then StageSeq(r.kind)
    else if r.kind.Special? then SEQ_DRAIN
    else if r.color == orig.color then SEQ_DRAIN
    else SEQ_DONE
  }

  function InsertAt(q: seq<Req>, i: nat, r: Req): seq<Req>
    requires i <= |q|
  {
    q[..i] + [r] + q[i..]
  }

  function RemoveAt(q: seq<Req>, i: nat): seq<Req>
    requires i < |q|
  {
    q[..i] + q[i + 1..]
  }

  // ---- blk-barrier.c ----

  /** blk_ordered_complete_seq */
  function CompleteSeq(s: State, bits: OrdSeq, error: int): State
    requires Active(s)
  {
    EndIfDone(SetBits(s, bits, error))
  }

  function SetBits(s: State, bits: OrdSeq, error: int): State {
    s.(orderr := if error != 0 && s.orderr == 0 then error else s.orderr, ordseq := s.ordseq.Or(bits))
  }

  function EndIfDone(s: State): State
    requires Active(s)
  {
    if s.ordseq.Cur() != SEQ_DONE then s
    else s.(ordseq := IDLE, orig := None, log := s.log + [Ended(s.orig.value, s.orderr)])
  }

  /** The mode of one sequence: an empty barrier has no proxy and no post-flush, and without a
      pre-flush it cannot be ordered by tag. */
  function Masked(m: Ordered, empty: bool): Ordered {
    if !empty then m
    else
      var o := m.(bar := false, postflush := false);
      if o.tag && !o.preflush then o.(tag := false, drain := true) else o
  }

  function StageReq(k: Kind, b: Req): Req
    requires IsStage(k)
  {
    Req(k, b.id, true, b.empty, false, k.Bar? && b.write, b.sector)
  }

  /** The stage requests of a sequence, in the order they end up at the queue head. */
  function StageList(o: Ordered, b: Req): seq<Req> {
    (if o.preflush then [StageReq(PreFlush, b)] else []) +
    (if o.bar then [StageReq(Bar, b)] else []) +
    (if o.postflush then [StageReq(PostFlush, b)] else [])
  }

  function StageSet(o: Ordered, b: Req): set<Req> { Elems(StageList(o, b)) }

  /** start_ordered up to the completion of the skipped stages: the original request is stashed
      away and freshly initialised stage requests are stacked at the queue head. */
  function Stacked(s: State): State
    requires s.queue != []
  {
    var b := s.queue[0];
    var o := Masked(s.mode, b.empty);
    s.(orderr := 0, ordered := o, ordseq := s.ordseq.Or(OrdSeq(true, false, false, false, false)),
       inFlight := s.inFlight + Weight(s, b), orig := Some(b),
       queue := StageList(o, b) + s.queue[1..],
       started := s.started - StageSet(o, b), soft := s.soft + StageSet(o, b))
  }

  predicate Draining(s: State) { s.ordered.drain && s.inFlight != 0 }

  function Skipped(o: Ordered, draining: bool): OrdSeq {
    OrdSeq(false, !draining, !o.preflush, !o.bar, !o.postflush)
  }

  /** start_ordered; what it returns is marked as started by elv_next_request. */
  function StartOrdered(s: State): State
    requires s.queue != []
  {
    var s1 := Stacked(s);
    var s2 := CompleteSeq(s1, Skipped(s1.ordered, Draining(s1)), 0);
    if !Active(s2) || Draining(s1) || StageList(s1.ordered, s.queue[0]) == [] then s2 else Issue(s2)
  }

  // ---- elevator.c ----

  function Issue(s: State): State
    requires s.queue != []
  {
    s.(started := s.started + {s.queue[0]}, log := s.log + [Issued(s.queue[0])])
  }

  /** One round of __elv_next_request: blk_do_ordered on the queue head. */
  function Fetch(s: State): State {
    if s.queue == [] then s
    else
      var h := s.queue[0];
      if !Active(s) then
        if !(FsType(h) && h.hard) then Issue(s)
        else if s.mode == ORDERED_NONE then
          s.(queue := s.queue[1..], log := s.log + [Ended(h, -EOPNOTSUPP)])
        else StartOrdered(s)
      else if h.kind.Special? then Issue(s)
      else if s.ordered.tag then
        if FsBarrier(h) then s else Issue(s)
      else if ReqSeq(s.orig.value, h) > s.ordseq.Cur() then s
      else Issue(s)
  }

  /** elv_dequeue_request */
  function Dequeue(s: State, i: nat): State
    requires i < |s.queue|
  {
    var r := s.queue[i];
    s.(queue := RemoveAt(s.queue, i), flight := s.flight + {r}, inFlight := s.inFlight + Weight(s, r))
  }

  predicate DrainOver(s: State)
    requires Active(s)
  {
    s.inFlight == 0 && s.ordseq.Cur() == SEQ_DRAIN &&
    (s.queue == [] || ReqSeq(s.orig.value, s.queue[0]) > SEQ_DRAIN)
  }

  /** elv_completed_request */
  function Completed(s: State, r: Req): State {
    var s1 := s.(inFlight := s.inFlight - Weight(s, r));
    if Active(s1) && DrainOver(s1) then CompleteSeq(s1, OrdSeq(false, true, false, false, false), 0)
    else s1
  }

  /** end_that_request_last on a dequeued request, with the end_io handlers of the stages. */
  function Finish(s: State, r: Req, error: int): State {
    var s1 := s.(flight := s.flight - {r}, log := s.log + [Done(r, error)]);
    var s2 := Completed(s1, r);
    if IsStage(r.kind) && Active(s2) then CompleteSeq(s2, StageBit(r.kind), error) else s2
  }

  /** Where ELEVATOR_INSERT_REQUEUE stops: the first entry whose stage is not earlier. */
  function RequeuePos(orig: Req, q: seq<Req>, seqno: int): (i: nat)
    ensures i <= |q|
    ensures i < |q| ==> seqno <= ReqSeq(orig, q[i])
    ensures forall j :: 0 <= j < i ==> ReqSeq(orig, q[j]) < seqno
  {
    if q == [] || seqno <= ReqSeq(orig, q[0]) then 0 else 1 + RequeuePos(orig, q[1..], seqno)
  }

  /** elv_requeue_request */
  function Requeue(s: State, r: Req): State {
    var i := if !Active(s) then 0 else RequeuePos(s.orig.value, s.queue, ReqSeq(s.orig.value, r));
    s.(flight := s.flight - {r}, inFlight := s.inFlight - Weight(s, r),
       started := s.started - {r}, soft := s.soft + {r}, queue := InsertAt(s.queue, i, r))
  }

  /** elv_dispatch_sort walks back from the tail while it may pass the entry. */
  predicate MayPass(s: State, r: Req, pos: Req, boundary: nat) {
    && r.write == pos.write
    && pos !in s.soft && !pos.hard && pos !in s.started
    && (if r.sector >= boundary then pos.sector < boundary || r.sector < pos.sector
        else pos.sector < boundary && r.sector < pos.sector)
  }

  function SortPos(s: State, q: seq<Req>, r: Req, boundary: nat): (i: nat)
    ensures i <= |q|
    ensures i > 0 ==> !MayPass(s, r, q[i - 1], boundary)
    ensures forall j :: i <= j < |q| ==> MayPass(s, r, q[j], boundary)
  {
    if q == [] || !MayPass(s, r, q[|q| - 1], boundary) then |q| else SortPos(s, q[..|q| - 1], r, boundary)
  }

  /** The scheduler moves one request to the dispatch queue: sorted in, or at the tail. */
  function Dispatch(s: State, r: Req, tail: bool, boundary: nat): State {
    var i := if tail then |s.queue| else SortPos(s, s.queue, r, boundary);
    s.(held := s.held - {r}, queue := InsertAt(s.queue, i, r))
  }

  datatype Where = Front | Back | Sort

  /** Barriers, soft barriers and requests without scheduler data are never sorted. */
  function EffectiveWhere(soft: bool, hard: bool, elvpriv: bool, w: Where): Where {
    if w.Sort? && (soft || hard || !elvpriv) then Back else w
  }

  /** __elv_add_request of a freshly initialised request.  A back insertion drains the scheduler
      first: that drain is the Dispatch steps taken before this one. */
  function Add(s: State, r: Req, w: Where): State {
    var s1 := s.(color := if r.hard then !s.color else s.color, nextId := s.nextId + 1,
                 started := s.started - {r}, log := s.log + [Added(r)]);
    match w
    case Front => s1.(queue := [r] + s.queue, soft := s.soft + {r})
    case Back => s1.(queue := s.queue + [r], soft := s.soft + {r})
    case Sort => s1.(held := s.held + {r}, soft := s.soft - {r})
  }

  // ---- steps and runs ----

  datatype Step =
    | AddStep(kind: Kind, soft: bool, hard: bool, empty: bool, write: bool, sector: nat, elvpriv: bool, where: Where)
    | DispatchStep(r: Req, tail: bool, boundary: nat)
    | FetchStep
    | DequeueStep(i: nat)
    | FinishStep(r: Req, error: int)
    | RequeueStep(r: Req)

  /** What the source asks of its callers: only fs requests are sorted or act as barriers, no fs
      request is inserted at the front, a back insertion follows a drain, and drivers dequeue what
      they fetched and complete or requeue what they dequeued. */
  predicate Enabled(s: State, step: Step) {
    match step
    case AddStep(kind, soft, hard, empty, write, sector, elvpriv, w) =>
      && (kind.Fs? || kind.Special?)
      && (kind.Fs? ==> !w.Front?)
      && (kind.Special? ==> !w.Sort? && !hard)
      && (EffectiveWhere(soft, hard, elvpriv, w).Back? ==> s.held == {})
    case DispatchStep(r, tail, boundary) => r in s.held
    case FetchStep => true
    case DequeueStep(i) => i < |s.queue| && s.queue[i] in s.started
    case FinishStep(r, error) => r in s.flight
    case RequeueStep(r) => r in s.flight
  }

  function Next(s: State, step: Step): State
    requires Enabled(s, step)
  {
    match step
    case AddStep(kind, soft, hard, empty, write, sector, elvpriv, w) =>
      Add(s, Req(kind, s.nextId, hard, empty, s.color, write, sector), EffectiveWhere(soft, hard, elvpriv, w))
    case DispatchStep(r, tail, boundary) => Dispatch(s, r, tail, boundary)
    case FetchStep => Fetch(s)
    case DequeueStep(i) => Dequeue(s, i)
    case FinishStep(r, error) => Finish(s, r, error)
    case RequeueStep(r) => Requeue(s, r)
  }

  predicate Possible(s: State, steps: seq<Step>)
    decreases |steps|
  {
    steps == [] || (Enabled(s, steps[0]) && Possible(Next(s, steps[0]), steps[1..]))
  }

  function Run(s: State, steps: seq<Step>): State
    requires Possible(s, steps)
    decreases |steps|
  {
    if steps == [] then s else Run(Next(s, steps[0]), steps[1..])
  }

  // ---- what a history may look like ----

  ghost predicate DoneIn(log: seq<Event>, r: Req) {
    exists e :: e in log && e.Done? && e.r == r
  }

  ghost predicate EndedIn(log: seq<Event>, b: Req) {
    exists e :: e in log && e.Ended? && e.r == b
  }

  /** Stage k of barrier b has completed. */
  ghost predicate StageDone(log: seq<Event>, k: Kind, b: Req)
    requires IsStage(k)
  {
    DoneIn(log, StageReq(k, b))
  }

  /** The first non-zero error among the stages of barrier b, 0 if there is none. */
  function FirstError(log: seq<Event>, b: Req): int {
    if log == [] then 0
    else
      var e := log[|log| - 1];
      var before := FirstError(log[..|log| - 1], b);
      if before == 0 && e.Done? && IsStage(e.r.kind) && e.r.id == b.id then e.error else before
  }

  predicate Selected(m: Ordered, b: Req, k: Kind)
    requires IsStage(k)
  {
    match k
    case PreFlush => m.preflush
    case Bar => m.bar && !b.empty
    case PostFlush => m.postflush && !b.empty
  }

  /** Every barrier that arrived before id has ended. */
  ghost predicate OlderBarriersEnded(log: seq<Event>, id: nat) {
    forall e :: e in log && e.Added? && FsBarrier(e.r) && e.r.id < id ==> EndedIn(log, e.r)
  }

  /** Every fs request that arrived before id has completed. */
  ghost predicate OlderFsDone(log: seq<Event>, id: nat) {
    forall e :: e in log && e.Added? && e.r.kind.Fs? && !e.r.hard && e.r.id < id ==> DoneIn(log, e.r)
  }

  /** Barrier b ends: once, after exactly the stages selected for it and, when ordering by draining,
      after every older fs request, with the first error of the stages; or, when the queue supports no
      ordering, as not supported. */
  ghost predicate EndOk(m: Ordered, log: seq<Event>, b: Req, error: int) {
    && FsBarrier(b) && Added(b) in log && !EndedIn(log, b)
    && if m == ORDERED_NONE then error == -EOPNOTSUPP
       else
         && error == FirstError(log, b)
         && (m.drain ==> OlderFsDone(log, b.id))
         && forall k :: IsStage(k) ==> (StageDone(log, k, b) <==> Selected(m, b, k))
  }

  ghost predicate IssueOk(m: Ordered, log: seq<Event>, r: Req) {
    && !DoneIn(log, r)
    && (IsStage(r.kind) ==>
          && OlderBarriersEnded(log, r.id)
          && exists b :: Added(b) in log && FsBarrier(b) && !EndedIn(log, b) && r == StageReq(r.kind, b) && Selected(m, b, r.kind)
               && (m.drain && !r.kind.PreFlush? && Selected(m, b, PreFlush) ==> StageDone(log, PreFlush, b))
               && (m.drain && r.kind.PostFlush? ==> StageDone(log, Bar, b)))
    && (m.drain && IsStage(r.kind) ==> OlderFsDone(log, r.id))
    && (m.drain && r.kind.Fs? ==> OlderBarriersEnded(log, r.id))
  }

  ghost predicate Allowed(m: Ordered, log: seq<Event>, ev: Event) {
    match ev
    case Added(r) => forall e :: e in log && e.Added? ==> e.r.id < r.id
    case Issued(r) => IssueOk(m, log, r)
    case Done(r, error) => Issued(r) in log && !DoneIn(log, r)
    case Ended(b, error) => EndOk(m, log, b, error)
  }

  ghost predicate GoodLog(m: Ordered, log: seq<Event>) {
    forall p :: 0 <= p < |log| ==> Allowed(m, log[..p], log[p])
  }

  // ---- the invariant ----

  function Elems(q: seq<Req>): set<Req> { set r | r in q }

  function LiveSet(s: State): set<Req> { Elems(s.queue) + s.held + s.flight }

  function FsIn(flight: set<Req>): set<Req> { set r | r in flight && FsType(r) }

  /** Every live request is in one place, with the flags that place implies. */
  ghost predicate Places(s: State) {
    && (forall i, j :: 0 <= i < j < |s.queue| ==> s.queue[i] != s.queue[j])
    && (forall i :: 0 <= i < |s.queue| ==>
          && s.queue[i] !in s.held && s.queue[i] !in s.flight
          && (FsBarrier(s.queue[i]) ==> s.queue[i] !in s.started)
          && (IsStage(s.queue[i].kind) ==> s.queue[i] in s.soft))
    && (forall r :: r in s.held ==> r.kind.Fs? && !r.hard && r !in s.started && r !in s.flight)
    && (forall r :: r in s.flight ==> r in s.started && !FsBarrier(r))
    && s.inFlight == |FsIn(s.flight)|
  }

  /** The history knows every request: what is live is not over, and nothing is lost. */
  ghost predicate LogOk(live: set<Req>, orig: Option<Req>, nextId: nat, log: seq<Event>) {
    && (forall e :: e in log ==> e.r.id < nextId) && (forall r :: r in live ==> r.id < nextId)
    && (forall e :: e in log && e.Added? ==> !IsStage(e.r.kind) && (e.r.hard ==> e.r.kind.Fs?))
    && (forall e, f :: e in log && f in log && e.Added? && f.Added? && e.r.id == f.r.id ==> e == f)
    && (forall r :: (r in live && !IsStage(r.kind)) || orig == Some(r) ==> Added(r) in log && !EndedIn(log, r))
    && (forall r :: r in live ==> !DoneIn(log, r))
    && (forall e :: e in log && e.Added? && e.r.kind.Fs? ==>
          e.r in live || orig == Some(e.r) || (if e.r.hard then EndedIn(log, e.r) else DoneIn(log, e.r)))
    && (forall r, e :: r in live && FsBarrier(r) && e in log && e.Done? && IsStage(e.r.kind) ==> e.r.id != r.id)
  }

  ghost predicate IssuedOk(s: State) {
    forall r :: r in LiveSet(s) && r in s.started ==>
      Issued(r) in s.log && (IsStage(r.kind) ==> s.ordseq.drain)
  }

  ghost predicate StageOk(mode: Ordered, live: set<Req>, b: Req, o: OrdSeq, log: seq<Event>, k: Kind)
    requires IsStage(k)
  {
    && (o.Bit(k) <==> StageReq(k, b) !in live)
    && (StageReq(k, b) in live || StageDone(log, k, b) <==> Selected(mode, b, k))
  }

  /** The running sequence, up to the possibility that its last stage has just completed. */
  ghost predicate SequenceOk(mode: Ordered, live: set<Req>, orig: Option<Req>, o: OrdSeq, ordered: Ordered,
                             orderr: int, log: seq<Event>)
  {
    match orig
    case None => o == IDLE && forall r :: r in live ==> !IsStage(r.kind)
    case Some(b) =>
      && o.started && FsBarrier(b) && mode != ORDERED_NONE && b !in live
      && ordered == Masked(mode, b.empty)
      && (!o.drain ==> ordered.drain)
      && orderr == FirstError(log, b)
      && (forall r :: r in live && IsStage(r.kind) ==> r == StageReq(r.kind, b))
      && StageOk(mode, live, b, o, log, PreFlush)
      && StageOk(mode, live, b, o, log, Bar)
      && StageOk(mode, live, b, o, log, PostFlush)
  }

  ghost predicate BarriersInOrder(s: State) {
    && (forall i, j {:trigger FsBarrier(s.queue[i]), FsBarrier(s.queue[j])} ::
          0 <= i < j < |s.queue| && FsBarrier(s.queue[i]) && FsBarrier(s.queue[j]) ==>
          s.queue[i].id < s.queue[j].id)
    && (forall i :: 0 <= i < |s.queue| && s.orig.Some? && FsBarrier(s.queue[i]) ==> s.orig.value.id < s.queue[i].id)
  }

  ghost predicate Core(s: State) {
    && Supported(s.mode) && GoodLog(s.mode, s.log)
    && Places(s)
    && LogOk(LiveSet(s), s.orig, s.nextId, s.log)
    && IssuedOk(s)
    && SequenceOk(s.mode, LiveSet(s), s.orig, s.ordseq, s.ordered, s.orderr, s.log)
    && BarriersInOrder(s)
  }

  // Ordering by draining.

  predicate Older(s: State, r: Req) { s.orig.Some? && r.kind.Fs? && r.id < s.orig.value.id }

  /** Position of a request around the sequence of barrier b. */
  function Rank(b: Req, r: Req): int {
    if IsStage(r.kind) then StageSeq(r.kind) else if r.kind.Fs? && r.id < b.id then SEQ_DRAIN else SEQ_DONE
  }

  /** A queued barrier separates what arrived before it from what arrived after it. */
  ghost predicate Separated(s: State) {
    && (forall i, k {:trigger FsBarrier(s.queue[k]), s.queue[i].kind} ::
          0 <= i < k < |s.queue| && FsBarrier(s.queue[k]) && s.queue[i].kind.Fs? ==> s.queue[i].id < s.queue[k].id)
    && (forall i, k {:trigger FsBarrier(s.queue[k]), s.queue[i].kind} :: 0 <= k < i < |s.queue| && FsBarrier(s.queue[k]) && s.queue[i].kind.Fs? ==>
          s.queue[k].id < s.queue[i].id && s.queue[i] !in s.started)
    && (forall k, r {:trigger FsBarrier(s.queue[k]), r in s.held} ::
          0 <= k < |s.queue| && FsBarrier(s.queue[k]) && r in s.held ==> s.queue[k].id < r.id)
    && (forall k, r {:trigger FsBarrier(s.queue[k]), r in s.flight} ::
          0 <= k < |s.queue| && FsBarrier(s.queue[k]) && r in s.flight && r.kind.Fs? ==> r.id < s.queue[k].id)
  }

  /** Around the running sequence: older requests, then the stages in order, then newer requests,
      which have not been handed out; and no older request once the drain is over. */
  ghost predicate AroundSequence(s: State) {
    s.orig.Some? ==>
      && (forall i, j {:trigger Rank(s.orig.value, s.queue[i]), Rank(s.orig.value, s.queue[j])} ::
            0 <= i < j < |s.queue| && !s.queue[i].kind.Special? && !s.queue[j].kind.Special? ==>
            Rank(s.orig.value, s.queue[i]) <= Rank(s.orig.value, s.queue[j]))
      && (forall i :: 0 <= i < |s.queue| && s.queue[i].kind.Fs? ==>
            if Older(s, s.queue[i]) then s.queue[i] in s.soft else s.queue[i] !in s.started)
      && (forall r :: r in s.held ==> !Older(s, r))
      && (forall r :: r in s.flight && r.kind.Fs? ==> Older(s, r))
      && (forall r :: r in LiveSet(s) && Older(s, r) ==> !s.ordseq.drain)
  }

  /** The colour in force at every position of q when it is `last` behind the tail: it flips at
      every barrier. */
  function Colors(q: seq<Req>, last: bool): (c: seq<bool>)
    ensures |c| == |q| + 1 && c[|q|] == last
    ensures forall j {:trigger q[j]} :: 0 <= j < |q| ==> c[j] == (c[j + 1] != FsBarrier(q[j]))
  {
    if q == [] then [last]
    else
      var c := Colors(q[1..], last);
      [c[0] != FsBarrier(q[0])] + c
  }

  /** Requests whose colour must match their place: barriers, and, when ordering by draining, every
      fs request that is not a requeued one from before the running barrier. */
  predicate InLine(s: State, r: Req) { FsBarrier(r) || (s.mode.drain && r.kind.Fs? && !Older(s, r)) }

  /** Two colours are enough: behind the running sequence the colour flips at every queued
      barrier, so a request of the running barrier's colour is never next to it. */
  ghost predicate ColoredBy(s: State, c: seq<bool>) {
    && |c| == |s.queue| + 1
    && (forall i :: 0 <= i < |s.queue| && InLine(s, s.queue[i]) ==> s.queue[i].color == c[i])
    && (forall r :: r in s.held ==> r.color == s.color)
    && (s.orig.Some? ==> s.orig.value.color == !c[0])
    && (s.mode.drain ==>
          if s.orig.Some? then forall r :: r in LiveSet(s) && Older(s, r) ==> r.color == s.orig.value.color
          else forall r :: r in s.flight && r.kind.Fs? ==> r.color == c[0])
  }

  ghost predicate Colored(s: State) { ColoredBy(s, Colors(s.queue, s.color)) }

  ghost predicate DrainOrder(s: State) { s.mode.drain ==> Separated(s) && AroundSequence(s) }

  ghost predicate Almost(s: State) { Core(s) && Colored(s) && DrainOrder(s) }

  ghost predicate Inv(s: State) { Almost(s) && (s.orig.Some? ==> s.ordseq.Cur() != SEQ_DONE) }

  lemma InitInv(mode: Ordered)
    requires Supported(mode)
    ensures Inv(Init(mode))
  {
  }

  lemma Snoc(m: Ordered, log: seq<Event>, e: Event)
    requires GoodLog(m, log) && Allowed(m, log, e)
    ensures GoodLog(m, log + [e])
  {
    forall p | 0 <= p < |log + [e]|
      ensures Allowed(m, (log + [e])[..p], (log + [e])[p])
    {
      if p < |log| {
        assert (log + [e])[..p] == log[..p];
      } else {
        assert (log + [e])[..p] == log;
      }
    }
  }

  lemma SnocFacts(log: seq<Event>, e: Event)
    ensures forall r :: DoneIn(log + [e], r) <==> DoneIn(log, r) || (e.Done? && e.r == r)
    ensures forall b :: EndedIn(log + [e], b) <==> EndedIn(log, b) || (e.Ended? && e.r == b)
    ensures forall b ::
              FirstError(log + [e], b) ==
              if FirstError(log, b) == 0 && e.Done? && IsStage(e.r.kind) && e.r.id == b.id then e.error else FirstError(log, b)
  {
    assert (log + [e])[..|log|] == log;
    forall r
      ensures DoneIn(log + [e], r) <==> DoneIn(log, r) || (e.Done? && e.r == r)
      ensures EndedIn(log + [e], r) <==> EndedIn(log, r) || (e.Ended? && e.r == r)
    {
      assert forall f :: f in log + [e] <==> f in log || f == e;
    }
  }

  // ---- inserting and removing ----

  lemma InsertFacts(q: seq<Req>, i: nat, r: Req)
    requires i <= |q|
    ensures Elems(InsertAt(q, i, r)) == Elems(q) + {r}
    ensures |InsertAt(q, i, r)| == |q| + 1
    ensures forall j :: 0 <= j <= |q| ==> InsertAt(q, i, r)[j] == if j < i then q[j] else if j == i then r else q[j - 1]
  {
    var q' := InsertAt(q, i, r);
    forall x
      ensures x in q' <==> x in q || x == r
    {
      if x in q {
        var j :| 0 <= j < |q| && q[j] == x;
        assert q'[if j < i then j else j + 1] == x;
      }
      assert q'[i] == r;
    }
  }

  lemma RemoveFacts(q: seq<Req>, i: nat)
    requires i < |q|
    requires forall j, k :: 0 <= j < k < |q| ==> q[j] != q[k]
    ensures Elems(RemoveAt(q, i)) == Elems(q) - {q[i]}
    ensures |RemoveAt(q, i)| == |q| - 1
    ensures forall j :: 0 <= j < |q| - 1 ==> RemoveAt(q, i)[j] == if j < i then q[j] else q[j + 1]
  {
    var q' := RemoveAt(q, i);
    forall x
      ensures x in q' <==> x in q && x != q[i]
    {
      if x in q && x != q[i] {
        var j :| 0 <= j < |q| && q[j] == x;
        assert q'[if j < i then j else j - 1] == x;
      }
    }
  }

  lemma {:induction false} ColorsUnique(q: seq<Req>, last: bool, c: seq<bool>)
    requires |c| == |q| + 1 && c[|q|] == last
    requires forall j {:trigger q[j]} :: 0 <= j < |q| ==> c[j] == (c[j + 1] != FsBarrier(q[j]))
    ensures c == Colors(q, last)
  {
    if q != [] {
      forall j | 0 <= j < |q[1..]|
        ensures c[1..][j] == (c[1..][j + 1] != FsBarrier(q[1..][j]))
      {
        assert c[j + 1] == (c[j + 2] != FsBarrier(q[j + 1]));
      }
      ColorsUnique(q[1..], last, c[1..]);
      assert c == [c[0]] + c[1..];
    }
  }

  /** Inserting a request that is no barrier changes no colour in force. */
  lemma InsertColors(q: seq<Req>, i: nat, r: Req, last: bool)
    requires i <= |q| && !FsBarrier(r)
    ensures var c, c' := Colors(q, last), Colors(InsertAt(q, i, r), last);
            |c'| == |c| + 1 && forall j {:trigger c'[j]} :: 0 <= j < |c'| ==> c'[j] == if j <= i then c[j] else c[j - 1]
  {
    var c := Colors(q, last);
    ColorsUnique(InsertAt(q, i, r), last, c[..i] + [c[i]] + c[i..]);
  }

  lemma RemoveColors(q: seq<Req>, i: nat, last: bool)
    requires i < |q| && !FsBarrier(q[i])
    ensures var c, c' := Colors(q, last), Colors(RemoveAt(q, i), last);
            |c'| == |c| - 1 && forall j {:trigger c'[j]} :: 0 <= j < |c'| ==> c'[j] == if j < i then c[j] else c[j + 1]
  {
    var c := Colors(q, last);
    ColorsUnique(RemoveAt(q, i), last, c[..i] + c[i + 1..]);
  }

  /** Behind the last barrier the last colour is in force. */
  lemma TailColor(q: seq<Req>, i: nat, last: bool)
    requires i <= |q| && forall j :: i <= j < |q| ==> !FsBarrier(q[j])
    ensures Colors(q, last)[i] == last
    decreases |q| - i
  {
    if i < |q| {
      assert !FsBarrier(q[i]);
      TailColor(q, i + 1, last);
    }
  }

  /** The set of accounted requests in flight grows and shrinks by the weight of the request. */
  lemma FsInAdd(flight: set<Req>, r: Req)
    requires r !in flight
    ensures |FsIn(flight + {r})| == |FsIn(flight)| + if FsType(r) then 1 else 0
  {
    if FsType(r) {
      assert FsIn(flight + {r}) == FsIn(flight) + {r};
    } else {
      assert FsIn(flight + {r}) == FsIn(flight);
    }
  }

  lemma FsInRemove(flight: set<Req>, r: Req)
    requires r in flight
    ensures |FsIn(flight - {r})| == |FsIn(flight)| - if FsType(r) then 1 else 0
  {
    FsInAdd(flight - {r}, r);
    assert flight - {r} + {r} == flight;
  }

  // ---- Dispatch ----

  /** q' is q with r inserted before position i. */
  ghost predicate Inserted(q: seq<Req>, i: nat, r: Req, q': seq<Req>) {
    && i <= |q| && |q'| == |q| + 1
    && (forall j {:trigger q'[j]} :: 0 <= j < |q'| ==> q'[j] == if j < i then q[j] else if j == i then r else q[j - 1])
  }

  lemma InsertAtInserts(q: seq<Req>, i: nat, r: Req)
    requires i <= |q|
    ensures Inserted(q, i, r, InsertAt(q, i, r))
  {
    InsertFacts(q, i, r);
  }

  lemma DispatchPlaces(s: State, r: Req, i: nat, s': State)
    requires Places(s) && r in s.held && Inserted(s.queue, i, r, s'.queue)
    requires s'.held == s.held - {r} && s'.flight == s.flight
    requires s'.started == s.started && s'.soft == s.soft && s'.inFlight == s.inFlight
    ensures Places(s')
  {
  }

  lemma DispatchLive(s: State, r: Req, i: nat, s': State)
    requires r in s.held && i <= |s.queue| && s'.queue == InsertAt(s.queue, i, r)
    requires s'.held == s.held - {r} && s'.flight == s.flight
    ensures LiveSet(s') == LiveSet(s)
  {
    InsertFacts(s.queue, i, r);
  }

  /** What a dispatched request passes is neither soft nor hard. */
  ghost predicate PassesOnly(s: State, i: nat) {
    i <= |s.queue| && forall j :: i <= j < |s.queue| ==> s.queue[j] !in s.soft && !s.queue[j].hard
  }

  /** A request without barrier flag leaves the order of the barriers alone. */
  lemma InsertBarriers(s: State, i: nat, r: Req, s': State)
    requires BarriersInOrder(s) && !FsBarrier(r) && Inserted(s.queue, i, r, s'.queue) && s'.orig == s.orig
    ensures BarriersInOrder(s')
  {
  }

  /** Where r fits between the queued barriers. */
  ghost predicate FitsBarriers(s: State, i: nat, r: Req) {
    && (r.kind.Fs? ==> forall k {:trigger FsBarrier(s.queue[k])} :: 0 <= k < |s.queue| && FsBarrier(s.queue[k]) ==>
          if k < i then s.queue[k].id < r.id else r.id < s.queue[k].id)
    && (FsBarrier(r) ==>
          && i == |s.queue| && s.held == {}
          && (forall j :: 0 <= j < |s.queue| && s.queue[j].kind.Fs? ==> s.queue[j].id < r.id)
          && (forall x :: x in s.flight ==> x.id < r.id))
  }

  lemma InsertSeparated(s: State, i: nat, r: Req, s': State)
    requires Separated(s) && FitsBarriers(s, i, r) && Inserted(s.queue, i, r, s'.queue)
    requires s'.held <= s.held && s'.flight <= s.flight && s'.started <= s.started && r !in s'.started
    ensures Separated(s')
  {
  }

  /** Where r fits around the running sequence. */
  ghost predicate FitsSequence(s: State, i: nat, r: Req) {
    s.orig.Some? && !r.kind.Special? ==>
      forall j {:trigger Rank(s.orig.value, s.queue[j])} :: 0 <= j < |s.queue| && !s.queue[j].kind.Special? ==>
        if j < i then Rank(s.orig.value, s.queue[j]) <= Rank(s.orig.value, r)
        else Rank(s.orig.value, r) <= Rank(s.orig.value, s.queue[j])
  }

  lemma InsertAround(s: State, i: nat, r: Req, s': State)
    requires AroundSequence(s) && FitsSequence(s, i, r) && Inserted(s.queue, i, r, s'.queue)
    requires s'.held <= s.held && s'.flight <= s.flight && s'.started <= s.started && r !in s'.started && s.soft <= s'.soft
    requires s'.orig == s.orig && s'.ordseq == s.ordseq && LiveSet(s') <= LiveSet(s) + {r}
    requires Older(s, r) ==> r in s'.soft && r in LiveSet(s)
    ensures AroundSequence(s')
  {
  }

  lemma DispatchFits(s: State, r: Req, i: nat)
    requires Places(s) && Separated(s) && AroundSequence(s) && r in s.held && PassesOnly(s, i)
    ensures FitsBarriers(s, i, r) && FitsSequence(s, i, r)
  {
    forall j | i <= j < |s.queue| && s.orig.Some? && !s.queue[j].kind.Special?
      ensures Rank(s.orig.value, s.queue[j]) == SEQ_DONE
    {
    }
  }

  /** A request of the last colour enters behind the last barrier. */
  lemma DispatchColored(s: State, r: Req, i: nat, s': State)
    requires r.kind.Fs? && !r.hard
    requires Colored(s) && r in s.held && PassesOnly(s, i)
    requires s'.queue == InsertAt(s.queue, i, r) && s'.held == s.held - {r} && s'.flight == s.flight
    requires s'.mode == s.mode && s'.color == s.color && s'.orig == s.orig && LiveSet(s') == LiveSet(s)
    ensures Colored(s')
  {
    InsertColors(s.queue, i, r, s.color);
    TailColor(s.queue, i, s.color);
    InsertAtInserts(s.queue, i, r);
    InsertColoredBy(s, Colors(s.queue, s.color), r, i, s', Colors(s'.queue, s'.color));
  }

  lemma InsertColoredBy(s: State, c: seq<bool>, r: Req, i: nat, s': State, c': seq<bool>)
    requires ColoredBy(s, c) && Inserted(s.queue, i, r, s'.queue)
    requires |c'| == |c| + 1
    requires forall j {:trigger c'[j]} :: 0 <= j < |c'| ==> c'[j] == if j <= i then c[j] else c[j - 1]
    requires InLine(s, r) ==> r.color == c[i]
    requires s'.held <= s.held && s'.flight <= s.flight
    requires s'.mode == s.mode && s'.color == s.color && s'.orig == s.orig && LiveSet(s') <= LiveSet(s) + {r}
    requires Older(s, r) ==> r in LiveSet(s)
    ensures ColoredBy(s', c')
  {
  }

  lemma DispatchKeeps(s: State, r: Req, tail: bool, boundary: nat)
    requires Inv(s) && r in s.held
    ensures Inv(Dispatch(s, r, tail, boundary))
  {
    var s' := Dispatch(s, r, tail, boundary);
    var i := if tail then |s.queue| else SortPos(s, s.queue, r, boundary);
    InsertAtInserts(s.queue, i, r);
    DispatchLive(s, r, i, s');
    DispatchPlaces(s, r, i, s');
    InsertBarriers(s, i, r, s');
    DispatchColored(s, r, i, s');
    if s.mode.drain {
      DispatchFits(s, r, i);
      InsertSeparated(s, i, r, s');
      InsertAround(s, i, r, s');
    }
  }

  // ---- Dequeue ----

  /** q' is q without its entry i. */
  ghost predicate Removed(q: seq<Req>, i: nat, q': seq<Req>) {
    && i < |q| && |q'| == |q| - 1
    && (forall j {:trigger q'[j]} :: 0 <= j < |q'| ==> q'[j] == if j < i then q[j] else q[j + 1])
  }

  /** Before the first barrier the first colour is in force. */
  lemma HeadColor(q: seq<Req>, i: nat, last: bool)
    requires i <= |q| && forall j :: 0 <= j < i ==> !FsBarrier(q[j])
    ensures Colors(q, last)[i] == Colors(q, last)[0]
  {
    if i > 0 {
      assert !FsBarrier(q[i - 1]);
      HeadColor(q, i - 1, last);
    }
  }

  lemma DequeuePlaces(s: State, i: nat, s': State)
    requires Places(s) && Removed(s.queue, i, s'.queue) && s.queue[i] in s.started
    requires s'.held == s.held && s'.flight == s.flight + {s.queue[i]}
    requires s'.started == s.started && s'.soft == s.soft && s'.inFlight == s.inFlight + Weight(s, s.queue[i])
    ensures Places(s')
  {
    FsInAdd(s.flight, s.queue[i]);
  }

  lemma DequeueLive(s: State, i: nat, s': State)
    requires forall j, k :: 0 <= j < k < |s.queue| ==> s.queue[j] != s.queue[k]
    requires i < |s.queue| && s'.queue == RemoveAt(s.queue, i)
    requires s'.held == s.held && s'.flight == s.flight + {s.queue[i]}
    ensures LiveSet(s') == LiveSet(s)
    ensures Removed(s.queue, i, s'.queue)
  {
    RemoveFacts(s.queue, i);
    var r, q, q' := s.queue[i], Elems(s.queue), Elems(s'.queue);
    assert r in s.queue;
    assert q' + s.held + (s.flight + {r}) == q + s.held + s.flight;
  }

  lemma RemoveBarriers(s: State, i: nat, s': State)
    requires BarriersInOrder(s) && Removed(s.queue, i, s'.queue) && s'.orig == s.orig
    ensures BarriersInOrder(s')
  {
  }

  lemma DequeueSeparated(s: State, i: nat, s': State)
    requires Separated(s) && Removed(s.queue, i, s'.queue) && s.queue[i] in s.started && !FsBarrier(s.queue[i])
    requires s'.held == s.held && s'.flight == s.flight + {s.queue[i]} && s'.started == s.started
    ensures Separated(s')
  {
  }

  lemma DequeueAround(s: State, i: nat, s': State)
    requires AroundSequence(s) && Removed(s.queue, i, s'.queue) && s.queue[i] in s.started
    requires s'.held == s.held && s'.flight == s.flight + {s.queue[i]} && s'.started == s.started && s'.soft == s.soft
    requires s'.orig == s.orig && s'.ordseq == s.ordseq && LiveSet(s') == LiveSet(s)
    ensures AroundSequence(s')
  {
  }

  lemma DequeueColored(s: State, i: nat, s': State)
    requires Colored(s) && (s.mode.drain ==> Separated(s) && AroundSequence(s))
    requires i < |s.queue| && s.queue[i] in s.started && !FsBarrier(s.queue[i])
    requires s'.queue == RemoveAt(s.queue, i) && s'.held == s.held && s'.flight == s.flight + {s.queue[i]}
    requires s'.mode == s.mode && s'.color == s.color && s'.orig == s.orig && LiveSet(s') == LiveSet(s)
    ensures Colored(s')
  {
    var c := Colors(s.queue, s.color);
    RemoveColors(s.queue, i, s.color);
    if s.queue[i].kind.Fs? && s.mode.drain {
      HeadColor(s.queue, i, s.color);
    }
    RemoveColoredBy(s, c, i, s', Colors(s'.queue, s'.color));
  }

  lemma RemoveColoredBy(s: State, c: seq<bool>, i: nat, s': State, c': seq<bool>)
    requires ColoredBy(s, c) && i < |s.queue| && s'.queue == RemoveAt(s.queue, i)
    requires |c'| == |c| - 1 && c'[0] == c[0]
    requires forall j {:trigger c'[j]} :: 0 <= j < |c'| ==> c'[j] == if j < i then c[j] else c[j + 1]
    requires s.mode.drain && s.queue[i].kind.Fs? && s.orig.None? ==> s.queue[i].color == c[0]
    requires s'.held == s.held && s'.flight <= s.flight + {s.queue[i]}
    requires s'.mode == s.mode && s'.color == s.color && s'.orig == s.orig && LiveSet(s') <= LiveSet(s)
    ensures ColoredBy(s', c')
  {
    forall j | 0 <= j < |s'.queue| && InLine(s', s'.queue[j])
      ensures s'.queue[j].color == c'[j]
    {
      assert s'.queue[j] == if j < i then s.queue[j] else s.queue[j + 1];
    }
  }

  lemma DequeueKeeps(s: State, i: nat)
    requires Inv(s) && i < |s.queue| && s.queue[i] in s.started
    ensures Inv(Dequeue(s, i))
  {
    var s' := Dequeue(s, i);
    DequeueLive(s, i, s');
    DequeuePlaces(s, i, s');
    RemoveBarriers(s, i, s');
    DequeueColored(s, i, s');
    if s.mode.drain {
      DequeueSeparated(s, i, s');
      DequeueAround(s, i, s');
    }
  }

  // ---- Requeue ----

  lemma RequeuePlaces(s: State, r: Req, i: nat, s': State)
    requires Places(s) && r in s.flight && Inserted(s.queue, i, r, s'.queue)
    requires s'.held == s.held && s'.flight == s.flight - {r}
    requires s'.started == s.started - {r} && s'.soft == s.soft + {r} && s'.inFlight == s.inFlight - Weight(s, r)
    ensures Places(s')
  {
    FsInRemove(s.flight, r);
  }

  lemma RequeueLive(s: State, r: Req, i: nat, s': State)
    requires r in s.flight && i <= |s.queue| && s'.queue == InsertAt(s.queue, i, r)
    requires s'.held == s.held && s'.flight == s.flight - {r}
    ensures LiveSet(s') == LiveSet(s)
  {
    InsertFacts(s.queue, i, r);
  }

  /** The requeue scan stops where the stage order wants it, although a newer request may carry the
      running barrier's colour: the first newer request in the queue never does. */
  lemma ScanPassed(s: State, r: Req, i: nat, j: nat)
    requires s.orig.Some? && Colored(s) && BarriersInOrder(s) && s.mode.drain
    requires i == RequeuePos(s.orig.value, s.queue, ReqSeq(s.orig.value, r)) && IsStage(r.kind)
    requires j < i && !s.queue[j].kind.Special?
    ensures Rank(s.orig.value, s.queue[j]) < StageSeq(r.kind)
  {
    if s.queue[j].kind.Fs? && !Older(s, s.queue[j]) {
      NewerBlocksScan(s, i, j);
    }
  }

  lemma RankAtStop(s: State, r: Req, i: nat)
    requires s.orig.Some? && Colored(s) && s.mode.drain && IsStage(r.kind)
    requires i == RequeuePos(s.orig.value, s.queue, ReqSeq(s.orig.value, r)) && i < |s.queue|
    ensures !s.queue[i].kind.Special? && StageSeq(r.kind) <= Rank(s.orig.value, s.queue[i])
  {
    hide Colors, RequeuePos;
    assert s.queue[i] in LiveSet(s);
  }

  lemma ScanStopped(s: State, r: Req, i: nat, j: nat)
    requires s.orig.Some? && AroundSequence(s) && Colored(s) && s.mode.drain
    requires i == RequeuePos(s.orig.value, s.queue, ReqSeq(s.orig.value, r)) && IsStage(r.kind)
    requires i <= j < |s.queue| && !s.queue[j].kind.Special?
    ensures StageSeq(r.kind) <= Rank(s.orig.value, s.queue[j])
  {
    hide Colored, RequeuePos, Rank;
    RankAtStop(s, r, i);
    assert i < j ==> Rank(s.orig.value, s.queue[i]) <= Rank(s.orig.value, s.queue[j]);
  }

  lemma NewerBlocksScan(s: State, i: nat, j: nat)
    requires s.orig.Some? && Colored(s) && BarriersInOrder(s) && s.mode.drain
    requires j < i <= |s.queue| && s.queue[j].kind.Fs? && !Older(s, s.queue[j])
    requires forall k :: 0 <= k < i ==> ReqSeq(s.orig.value, s.queue[k]) < SEQ_DONE
    ensures false
  {
    hide Colors, LiveSet;
    if k :| 0 <= k < j && FsBarrier(s.queue[k]) {
      NewerBlocksScan(s, i, k);
    } else {
      HeadColor(s.queue, j, s.color);
      FirstInLine(s, j);
    }
  }

  /** The first request in line has the colour the running barrier does not have. */
  lemma FirstInLine(s: State, j: nat)
    requires Colored(s) && s.orig.Some? && j < |s.queue| && InLine(s, s.queue[j])
    requires Colors(s.queue, s.color)[j] == Colors(s.queue, s.color)[0]
    ensures s.queue[j].color != s.orig.value.color
  {
    hide Colors, LiveSet;
  }

  lemma RequeueColored(s: State, r: Req, i: nat, s': State)
    requires Colored(s) && r in s.flight && !FsBarrier(r) && i <= |s.queue|
    requires s.mode.drain ==> AroundSequence(s) && (r.kind.Fs? ==> i == 0)
    requires s'.queue == InsertAt(s.queue, i, r) && s'.held == s.held && s'.flight == s.flight - {r}
    requires s'.mode == s.mode && s'.color == s.color && s'.orig == s.orig && LiveSet(s') == LiveSet(s)
    ensures Colored(s')
  {
    hide Colors, InsertAt;
    InsertColors(s.queue, i, r, s.color);
    InsertAtInserts(s.queue, i, r);
    InsertColoredBy(s, Colors(s.queue, s.color), r, i, s', Colors(s'.queue, s'.color));
  }

  lemma RequeueFsAtFront(s: State, r: Req)
    requires Colored(s) && s.orig.Some? && r in s.flight && r.kind.Fs? && AroundSequence(s) && s.mode.drain
    ensures RequeuePos(s.orig.value, s.queue, ReqSeq(s.orig.value, r)) == 0
  {
    assert r in LiveSet(s);
  }

  lemma RequeueKeeps(s: State, r: Req)
    requires Inv(s) && r in s.flight
    ensures Inv(Requeue(s, r))
  {
    var s' := Requeue(s, r);
    var i := if !Active(s) then 0 else RequeuePos(s.orig.value, s.queue, ReqSeq(s.orig.value, r));
    InsertAtInserts(s.queue, i, r);
    RequeueLive(s, r, i, s');
    RequeuePlaces(s, r, i, s');
    InsertBarriers(s, i, r, s');
    assert r in LiveSet(s);
    if s.mode.drain {
      RequeueDrain(s, r, i, s');
    } else {
      RequeueColored(s, r, i, s');
    }
  }

  lemma RequeueFitsBarriers(s: State, r: Req, i: nat)
    requires Separated(s) && r in s.flight && !FsBarrier(r) && (r.kind.Fs? ==> i == 0)
    ensures FitsBarriers(s, i, r)
  {
  }

  lemma RequeueFitsSequence(s: State, r: Req, i: nat)
    requires AroundSequence(s) && Colored(s) && BarriersInOrder(s) && s.mode.drain && s.orig.Some?
    requires r in s.flight && (r.kind.Fs? ==> i == 0)
    requires i == RequeuePos(s.orig.value, s.queue, ReqSeq(s.orig.value, r))
    ensures FitsSequence(s, i, r)
  {
    hide Colored, AroundSequence, RequeuePos, BarriersInOrder, Rank;
    if IsStage(r.kind) {
      forall j | 0 <= j < |s.queue| && !s.queue[j].kind.Special?
        ensures if j < i then Rank(s.orig.value, s.queue[j]) <= Rank(s.orig.value, r)
                else Rank(s.orig.value, r) <= Rank(s.orig.value, s.queue[j])
      {
        StageRank(s.orig.value, r);
        if j < i {
          ScanPassed(s, r, i, j);
        } else {
          ScanStopped(s, r, i, j);
        }
      }
    } else if r.kind.Fs? {
      FlightIsFirst(s, r);
    }
  }

  lemma StageRank(b: Req, r: Req)
    requires IsStage(r.kind)
    ensures Rank(b, r) == StageSeq(r.kind)
  {
  }

  lemma FlightIsFirst(s: State, r: Req)
    requires AroundSequence(s) && s.orig.Some? && r in s.flight && r.kind.Fs?
    ensures forall x :: Rank(s.orig.value, r) <= Rank(s.orig.value, x)
  {
  }

  lemma RequeueDrain(s: State, r: Req, i: nat, s': State)
    requires Separated(s) && AroundSequence(s) && Colored(s) && BarriersInOrder(s) && s.mode.drain
    requires r in s.flight && r in LiveSet(s) && !FsBarrier(r) && s' == Requeue(s, r)
    requires s.orig.Some? ==> s.ordseq.started
    requires i == if !Active(s) then 0 else RequeuePos(s.orig.value, s.queue, ReqSeq(s.orig.value, r))
    requires Inserted(s.queue, i, r, s'.queue) && LiveSet(s') == LiveSet(s)
    ensures Separated(s') && AroundSequence(s') && Colored(s')
  {
    hide Separated, AroundSequence, Colored, BarriersInOrder, Inserted, LiveSet, RequeuePos;
    if s.orig.Some? {
      if r.kind.Fs? {
        RequeueFsAtFront(s, r);
      }
      RequeueFitsSequence(s, r, i);
    }
    RequeueFitsBarriers(s, r, i);
    InsertSeparated(s, i, r, s');
    InsertAround(s, i, r, s');
    RequeueColored(s, r, i, s');
  }

  // ---- Issue ----

  /** Handing out a request is no news for the records of what is over. */
  lemma LogIssued(live: set<Req>, orig: Option<Req>, nextId: nat, log: seq<Event>, r: Req)
    requires LogOk(live, orig, nextId, log) && r in live
    ensures LogOk(live, orig, nextId, log + [Issued(r)])
  {
    SnocFacts(log, Issued(r));
    assert forall f :: f in log + [Issued(r)] <==> f in log || f == Issued(r);
  }

  lemma SequenceIssued(mode: Ordered, live: set<Req>, orig: Option<Req>, o: OrdSeq, ordered: Ordered,
                       orderr: int, log: seq<Event>, r: Req)
    requires SequenceOk(mode, live, orig, o, ordered, orderr, log)
    ensures SequenceOk(mode, live, orig, o, ordered, orderr, log + [Issued(r)])
  {
    SnocFacts(log, Issued(r));
  }

  lemma IssueStarted(s: State, s': State)
    requires s.queue != [] && IssuedOk(s) && s' == Issue(s)
    requires IsStage(s.queue[0].kind) ==> s.ordseq.drain
    ensures IssuedOk(s')
  {
    assert LiveSet(s') == LiveSet(s);
    assert forall f :: f in s'.log <==> f in s.log || f == Issued(s.queue[0]);
  }

  lemma IssueSeparated(s: State, s': State)
    requires s.queue != [] && Separated(s) && s' == Issue(s)
    requires forall i, j :: 0 <= i < j < |s.queue| ==> s.queue[i] != s.queue[j]
    ensures Separated(s')
  {
  }

  lemma IssueCore(s: State, s': State)
    requires Core(s) && s.queue != [] && s' == Issue(s)
    requires !FsBarrier(s.queue[0]) && (IsStage(s.queue[0].kind) ==> s.ordseq.drain)
    requires IssueOk(s.mode, s.log, s.queue[0])
    ensures Core(s')
  {
    assert s.queue[0] in Elems(s.queue);
    LogIssued(LiveSet(s), s.orig, s.nextId, s.log, s.queue[0]);
    SequenceIssued(s.mode, LiveSet(s), s.orig, s.ordseq, s.ordered, s.orderr, s.log, s.queue[0]);
    assert LiveSet(s') == LiveSet(s);
    IssueGoodLog(s.mode, s.log, s.queue[0]);
    IssuePlaces(s, s');
    IssueStarted(s, s');
    SameBarriers(s, s');
  }

  lemma SameBarriers(s: State, s': State)
    requires BarriersInOrder(s) && s'.queue == s.queue && s'.orig == s.orig
    ensures BarriersInOrder(s')
  {
  }

  lemma IssueGoodLog(m: Ordered, log: seq<Event>, r: Req)
    requires GoodLog(m, log) && IssueOk(m, log, r)
    ensures GoodLog(m, log + [Issued(r)])
  {
    Snoc(m, log, Issued(r));
  }

  lemma IssueKeeps(s: State)
    requires Inv(s) && s.queue != []
    requires !FsBarrier(s.queue[0]) && (IsStage(s.queue[0].kind) ==> s.ordseq.drain)
    requires s.mode.drain && s.orig.Some? && s.queue[0].kind.Fs? ==> Older(s, s.queue[0])
    requires IssueOk(s.mode, s.log, s.queue[0])
    ensures Inv(Issue(s))
  {
    var s' := Issue(s);
    IssueCore(s, s');
    IssueColored(s, s');
    if s.mode.drain {
      IssueSeparated(s, s');
      IssueAround(s, s');
    }
  }

  lemma IssueColored(s: State, s': State)
    requires s.queue != [] && Colored(s) && s' == Issue(s)
    ensures Colored(s')
  {
    assert LiveSet(s') == LiveSet(s);
  }

  lemma IssuePlaces(s: State, s': State)
    requires s.queue != [] && Places(s) && s' == Issue(s) && !FsBarrier(s.queue[0])
    ensures Places(s')
  {
    assert FsIn(s'.flight) == FsIn(s.flight);
  }

  lemma IssueAround(s: State, s': State)
    requires s.queue != [] && AroundSequence(s) && s' == Issue(s)
    requires forall i, j :: 0 <= i < j < |s.queue| ==> s.queue[i] != s.queue[j]
    requires s.orig.Some? && s.queue[0].kind.Fs? ==> Older(s, s.queue[0])
    requires forall r :: r in s.held ==> r != s.queue[0]
    ensures AroundSequence(s')
  {
    assert LiveSet(s') == LiveSet(s);
  }

  // ---- Add ----

  lemma LogAdded(live: set<Req>, orig: Option<Req>, nextId: nat, log: seq<Event>, r: Req)
    requires LogOk(live, orig, nextId, log)
    requires r.id == nextId && !IsStage(r.kind) && (r.hard ==> r.kind.Fs?)
    ensures LogOk(live + {r}, orig, nextId + 1, log + [Added(r)])
    ensures r !in live
  {
    SnocFacts(log, Added(r));
    assert forall f :: f in log + [Added(r)] <==> f in log || f == Added(r);
  }

  lemma SequenceAdded(mode: Ordered, live: set<Req>, orig: Option<Req>, o: OrdSeq, ordered: Ordered,
                      orderr: int, log: seq<Event>, r: Req)
    requires SequenceOk(mode, live, orig, o, ordered, orderr, log)
    requires !IsStage(r.kind) && (orig.Some? ==> orig.value.id < r.id)
    ensures SequenceOk(mode, live + {r}, orig, o, ordered, orderr, log + [Added(r)])
  {
    SnocFacts(log, Added(r));
  }

  lemma AddedAllowed(live: set<Req>, orig: Option<Req>, nextId: nat, mode: Ordered, log: seq<Event>, r: Req)
    requires LogOk(live, orig, nextId, log) && GoodLog(mode, log) && r.id == nextId
    ensures GoodLog(mode, log + [Added(r)])
  {
    Snoc(mode, log, Added(r));
  }

  lemma AddIssued(s: State, r: Req, s': State)
    requires IssuedOk(s) && LiveSet(s') == LiveSet(s) + {r} && s'.started == s.started - {r}
    requires s'.log == s.log + [Added(r)] && s'.ordseq == s.ordseq
    ensures IssuedOk(s')
  {
    assert forall f :: f in s'.log <==> f in s.log || f == Added(r);
  }

  lemma AddLive(s: State, r: Req, w: Where)
    ensures LiveSet(Add(s, r, w)) == LiveSet(s) + {r}
    ensures w.Front? ==> Inserted(s.queue, 0, r, Add(s, r, w).queue)
    ensures w.Back? ==> Inserted(s.queue, |s.queue|, r, Add(s, r, w).queue)
  {
    var s' := Add(s, r, w);
    match w
    case Front =>
      assert s'.queue == InsertAt(s.queue, 0, r);
      InsertFacts(s.queue, 0, r);
    case Back =>
      assert s'.queue == InsertAt(s.queue, |s.queue|, r);
      InsertFacts(s.queue, |s.queue|, r);
    case Sort =>
  }

  /** The placements callers may ask for. */
  predicate PlaceOk(s: State, r: Req, w: Where) {
    && r.id == s.nextId && r.color == s.color
    && (r.kind.Fs? || (r.kind.Special? && !r.hard && !w.Sort?))
    && (r.kind.Fs? ==> !w.Front?)
    && (w.Back? ==> s.held == {})
    && (w.Sort? ==> !r.hard)
  }

  lemma AddPlaces(s: State, r: Req, w: Where, s': State)
    requires Places(s) && PlaceOk(s, r, w) && r !in LiveSet(s) && s' == Add(s, r, w)
    ensures Places(s')
  {
    AddLive(s, r, w);
    assert r !in s.held && r !in s.flight && r !in Elems(s.queue);
    if !w.Sort? {
      InsertPlaces(s, if w.Front? then 0 else |s.queue|, r, s');
    }
  }

  lemma InsertPlaces(s: State, i: nat, r: Req, s': State)
    requires Places(s) && Inserted(s.queue, i, r, s'.queue) && r !in Elems(s.queue) && r !in s.held && r !in s.flight
    requires s'.held == s.held && s'.flight == s.flight && s'.inFlight == s.inFlight
    requires s'.started == s.started - {r} && s'.soft == s.soft + {r} && !IsStage(r.kind)
    ensures Places(s')
  {
    assert forall j :: 0 <= j < |s.queue| ==> s.queue[j] in Elems(s.queue);
  }

  lemma AddBarriers(s: State, r: Req, w: Where, s': State)
    requires BarriersInOrder(s) && PlaceOk(s, r, w) && s' == Add(s, r, w)
    requires forall j :: 0 <= j < |s.queue| ==> s.queue[j].id < s.nextId
    requires s.orig.Some? ==> s.orig.value.id < s.nextId
    ensures BarriersInOrder(s')
  {
    AddLive(s, r, w);
  }

  ghost predicate IdsBelow(s: State) {
    && (forall j :: 0 <= j < |s.queue| ==> s.queue[j].id < s.nextId)
    && (forall r :: r in s.held || r in s.flight ==> r.id < s.nextId)
    && (s.orig.Some? ==> s.orig.value.id < s.nextId)
  }

  lemma LiveIdsBelow(s: State)
    requires LogOk(LiveSet(s), s.orig, s.nextId, s.log)
    ensures IdsBelow(s)
  {
    forall j | 0 <= j < |s.queue|
      ensures s.queue[j].id < s.nextId
    {
      assert s.queue[j] in LiveSet(s);
    }
    forall r | r in s.held || r in s.flight
      ensures r.id < s.nextId
    {
      assert r in LiveSet(s);
    }
  }

  lemma AddCore(s: State, r: Req, w: Where, s': State)
    requires Core(s) && PlaceOk(s, r, w) && s' == Add(s, r, w)
    ensures Core(s')
  {
    hide LogOk, SequenceOk, Places, BarriersInOrder, IssuedOk, GoodLog, LiveSet;
    LiveIdsBelow(s);
    AddLive(s, r, w);
    LogAdded(LiveSet(s), s.orig, s.nextId, s.log, r);
    SequenceAdded(s.mode, LiveSet(s), s.orig, s.ordseq, s.ordered, s.orderr, s.log, r);
    AddedAllowed(LiveSet(s), s.orig, s.nextId, s.mode, s.log, r);
    AddPlaces(s, r, w, s');
    AddIssued(s, r, s');
    AddBarriers(s, r, w, s');
  }

  lemma AddSeparated(s: State, r: Req, w: Where, s': State)
    requires Separated(s) && IdsBelow(s) && PlaceOk(s, r, w) && s' == Add(s, r, w)
    ensures Separated(s')
  {
    if !w.Sort? {
      AddLive(s, r, w);
      InsertSeparated(s, if w.Front? then 0 else |s.queue|, r, s');
    }
  }

  lemma AddAround(s: State, r: Req, w: Where, s': State)
    requires AroundSequence(s) && IdsBelow(s) && PlaceOk(s, r, w) && s' == Add(s, r, w)
    ensures AroundSequence(s')
  {
    AddLive(s, r, w);
    if !w.Sort? {
      InsertAround(s, if w.Front? then 0 else |s.queue|, r, s');
    }
  }

  lemma AppendColors(q: seq<Req>, r: Req, last: bool)
    requires r.hard ==> r.kind.Fs?
    ensures var c, c' := Colors(q, last), Colors(q + [r], last != r.hard);
            |c'| == |c| + 1 && forall j {:trigger c'[j]} :: 0 <= j <= |q| ==> c'[j] == c[j]
  {
    ColorsUnique(q + [r], last != r.hard, Colors(q, last) + [last != r.hard]);
  }

  lemma AppendColoredBy(s: State, c: seq<bool>, r: Req, s': State, c': seq<bool>)
    requires ColoredBy(s, c) && Inserted(s.queue, |s.queue|, r, s'.queue)
    requires |c'| == |c| + 1 && c[|s.queue|] == s.color == r.color
    requires forall j {:trigger c'[j]} :: 0 <= j < |c| ==> c'[j] == c[j]
    requires s'.held == s.held == {} && s'.flight == s.flight && s'.orig == s.orig
    requires s'.mode == s.mode && LiveSet(s') == LiveSet(s) + {r} && !Older(s, r)
    ensures ColoredBy(s', c')
  {
  }

  lemma FrontIsInsert(q: seq<Req>, r: Req)
    ensures [r] + q == InsertAt(q, 0, r)
  {
  }

  lemma FrontColored(s: State, r: Req, s': State)
    requires Colored(s) && r.kind.Special? && s'.queue == [r] + s.queue
    requires s'.held == s.held && s'.flight == s.flight && s'.color == s.color && s'.orig == s.orig
    requires s'.mode == s.mode && LiveSet(s') == LiveSet(s) + {r}
    ensures Colored(s')
  {
    hide Colors, ColoredBy, LiveSet, Inserted, InsertAt;
    FrontIsInsert(s.queue, r);
    InsertAtInserts(s.queue, 0, r);
    InsertColors(s.queue, 0, r, s.color);
    InsertColoredBy(s, Colors(s.queue, s.color), r, 0, s', Colors(s'.queue, s'.color));
  }

  lemma BackColored(s: State, r: Req, s': State)
    requires Colored(s) && s'.queue == s.queue + [r]
    requires r.color == s.color && (r.hard ==> r.kind.Fs?) && !Older(s, r)
    requires s'.held == s.held == {} && s'.flight == s.flight && s'.orig == s.orig
    requires s'.mode == s.mode && s'.color == (s.color != r.hard) && LiveSet(s') == LiveSet(s) + {r}
    ensures Colored(s')
  {
    AppendColors(s.queue, r, s.color);
    AppendColoredBy(s, Colors(s.queue, s.color), r, s', Colors(s'.queue, s'.color));
  }

  lemma AddColored(s: State, r: Req, w: Where, s': State)
    requires Colored(s) && PlaceOk(s, r, w) && s' == Add(s, r, w) && LiveSet(s') == LiveSet(s) + {r}
    requires s.orig.Some? ==> s.orig.value.id < s.nextId
    ensures Colored(s')
  {
    match w
    case Front => FrontColored(s, r, s');
    case Back => BackColored(s, r, s');
    case Sort => SortColored(s, r, s');
  }

  lemma SortColored(s: State, r: Req, s': State)
    requires Colored(s) && s'.queue == s.queue && s'.held == s.held + {r} && s'.flight == s.flight
    requires s'.mode == s.mode && r.color == s.color == s'.color && s'.orig == s.orig && !Older(s, r) && LiveSet(s') == LiveSet(s) + {r}
    ensures Colored(s')
  {
    hide Colors, LiveSet;
  }

  lemma AddKeeps(s: State, r: Req, w: Where)
    requires Inv(s) && PlaceOk(s, r, w)
    ensures Inv(Add(s, r, w))
  {
    var s' := Add(s, r, w);
    AddCore(s, r, w, s');
    LiveIdsBelow(s);
    AddLive(s, r, w);
    AddColored(s, r, w, s');
    if s.mode.drain {
      AddSeparated(s, r, w, s');
      AddAround(s, r, w, s');
    }
  }

  // ---- Finish ----

  lemma LogDone(live: set<Req>, orig: Option<Req>, nextId: nat, log: seq<Event>, r: Req, error: int)
    requires LogOk(live, orig, nextId, log) && r in live && !FsBarrier(r)
    requires IsStage(r.kind) ==> orig.Some? && orig.value !in live && r.id == orig.value.id
    ensures LogOk(live - {r}, orig, nextId, log + [Done(r, error)])
  {
    var log' := log + [Done(r, error)];
    SnocFacts(log, Done(r, error));
    assert forall f :: f in log' <==> f in log || f == Done(r, error);
    if IsStage(r.kind) {
      assert Added(orig.value) in log;
      forall x | x in live && FsBarrier(x)
        ensures x.id != r.id
      {
        assert Added(x) in log;
      }
    }
  }

  lemma SequenceFsDone(mode: Ordered, live: set<Req>, orig: Option<Req>, o: OrdSeq, ordered: Ordered,
                       orderr: int, log: seq<Event>, r: Req, error: int)
    requires SequenceOk(mode, live, orig, o, ordered, orderr, log) && !IsStage(r.kind)
    ensures SequenceOk(mode, live - {r}, orig, o, ordered, orderr, log + [Done(r, error)])
  {
    SnocFacts(log, Done(r, error));
  }

  /** Completing a stage sets its bit, which was clear, and keeps the first error. */
  lemma SequenceStageDone(mode: Ordered, live: set<Req>, b: Req, o: OrdSeq, ordered: Ordered,
                          orderr: int, log: seq<Event>, r: Req, error: int)
    requires SequenceOk(mode, live, Some(b), o, ordered, orderr, log) && r in live && IsStage(r.kind)
    ensures !o.Bit(r.kind)
    ensures SequenceOk(mode, live - {r}, Some(b), o.Or(StageBit(r.kind)), ordered,
                       if error != 0 && orderr == 0 then error else orderr, log + [Done(r, error)])
  {
    SnocFacts(log, Done(r, error));
  }

  lemma DoneGoodLog(m: Ordered, log: seq<Event>, r: Req, error: int)
    requires GoodLog(m, log) && Issued(r) in log && !DoneIn(log, r)
    ensures GoodLog(m, log + [Done(r, error)])
  {
    Snoc(m, log, Done(r, error));
  }

  lemma RemoveLive(s: State, r: Req, s': State)
    requires Places(s) && r in s.flight
    requires s'.queue == s.queue && s'.held == s.held && s'.flight == s.flight - {r}
    ensures LiveSet(s') == LiveSet(s) - {r}
  {
    assert r !in s.held;
    assert r !in Elems(s.queue);
  }

  lemma FinishPlaces(s: State, r: Req, s': State)
    requires Places(s) && r in s.flight
    requires s'.queue == s.queue && s'.held == s.held && s'.flight == s.flight - {r}
    requires s'.started == s.started && s'.soft == s.soft && s'.inFlight == s.inFlight - Weight(s, r)
    ensures Places(s')
  {
    FsInRemove(s.flight, r);
  }

  lemma FinishIssued(s: State, r: Req, error: int, s': State)
    requires IssuedOk(s) && LiveSet(s') <= LiveSet(s) && s'.started == s.started
    requires s'.log == s.log + [Done(r, error)] && (s.ordseq.drain ==> s'.ordseq.drain)
    ensures IssuedOk(s')
  {
    assert forall f :: f in s'.log <==> f in s.log || f == Done(r, error);
  }

  /** The state after the request left the driver's hands, before any sequence bit changes. */
  function Released(s: State, r: Req, error: int): State {
    s.(flight := s.flight - {r}, inFlight := s.inFlight - Weight(s, r), log := s.log + [Done(r, error)])
  }

  lemma ReleasedCore(s: State, r: Req, error: int, s': State)
    requires Core(s) && r in s.flight && !IsStage(r.kind) && s' == Released(s, r, error)
    ensures Core(s')
  {
    RemoveLive(s, r, s');
    assert r in LiveSet(s);
    LogDone(LiveSet(s), s.orig, s.nextId, s.log, r, error);
    SequenceFsDone(s.mode, LiveSet(s), s.orig, s.ordseq, s.ordered, s.orderr, s.log, r, error);
    DoneGoodLog(s.mode, s.log, r, error);
    FinishPlaces(s, r, s');
    FinishIssued(s, r, error, s');
    SameBarriers(s, s');
  }

  lemma StageCore(s: State, r: Req, error: int, s': State)
    requires Core(s) && r in s.flight && IsStage(r.kind) && s.orig.Some?
    requires s' == SetBits(Released(s, r, error), StageBit(r.kind), error)
    ensures Core(s')
    ensures s.ordseq.drain && !s.ordseq.Bit(r.kind)
  {
    RemoveLive(s, r, s');
    assert r in LiveSet(s);
    LogDone(LiveSet(s), s.orig, s.nextId, s.log, r, error);
    SequenceStageDone(s.mode, LiveSet(s), s.orig.value, s.ordseq, s.ordered, s.orderr, s.log, r, error);
    DoneGoodLog(s.mode, s.log, r, error);
    FinishPlaces(s, r, s');
    FinishIssued(s, r, error, s');
    SameBarriers(s, s');
  }

  lemma FinishSeparated(s: State, r: Req, s': State)
    requires Separated(s) && s'.queue == s.queue && s'.held == s.held && s'.flight == s.flight - {r} && s'.started == s.started
    ensures Separated(s')
  {
  }

  lemma FinishAround(s: State, r: Req, s': State)
    requires AroundSequence(s) && s'.queue == s.queue && s'.held == s.held && s'.flight == s.flight - {r}
    requires s'.started == s.started && s'.soft == s.soft && s'.orig == s.orig
    requires s'.ordseq.drain == s.ordseq.drain && LiveSet(s') <= LiveSet(s)
    ensures AroundSequence(s')
  {
  }

  lemma FinishColored(s: State, r: Req, s': State)
    requires Colored(s) && s'.queue == s.queue && s'.held == s.held && s'.flight == s.flight - {r}
    requires s'.mode == s.mode && s'.color == s.color && s'.orig == s.orig && LiveSet(s') <= LiveSet(s)
    ensures Colored(s')
  {
  }

  /** When elv_completed_request finds the drain over, no older request is left anywhere. */
  lemma NoOlderLeft(s: State, r: Req)
    requires Places(s) && AroundSequence(s) && Colored(s) && Active(s) && DrainOver(s) && r in LiveSet(s) && s.mode.drain
    ensures !Older(s, r)
  {
    hide Colors;
    assert FsIn(s.flight) == {};
    assert r in s.flight ==> r.kind.Fs? ==> r in FsIn(s.flight);
    if r in s.queue {
      var i :| 0 <= i < |s.queue| && s.queue[i] == r;
      assert s.queue[0] in Elems(s.queue);
      assert i > 0 && !r.kind.Special? ==> Rank(s.orig.value, s.queue[0]) <= Rank(s.orig.value, s.queue[i]);
    }
  }

  lemma DrainBitKeeps(s: State, s': State)
    requires Almost(s) && Active(s) && DrainOver(s)
    requires s' == SetBits(s, OrdSeq(false, true, false, false, false), 0)
    ensures Almost(s')
  {
    assert LiveSet(s') == LiveSet(s);
    DrainBitCore(s, s');
    if s.mode.drain {
      forall r | r in LiveSet(s)
        ensures !Older(s, r)
      {
        NoOlderLeft(s, r);
      }
      DrainBitAround(s, s');
      FinishSeparatedSame(s, s');
    }
    FinishColoredSame(s, s');
  }

  lemma DrainBitCore(s: State, s': State)
    requires Core(s) && Active(s) && s' == SetBits(s, OrdSeq(false, true, false, false, false), 0)
    ensures Core(s')
  {
    assert LiveSet(s') == LiveSet(s);
    PlacesSame(s, s');
    SameBarriers(s, s');
    assert IssuedOk(s');
  }

  lemma PlacesSame(s: State, s': State)
    requires Places(s) && s'.queue == s.queue && s'.held == s.held && s'.flight == s.flight
    requires s'.started == s.started && s'.soft == s.soft && s'.inFlight == s.inFlight
    ensures Places(s')
  {
  }

  lemma FinishSeparatedSame(s: State, s': State)
    requires Separated(s) && s'.queue == s.queue && s'.held == s.held && s'.flight == s.flight && s'.started == s.started
    ensures Separated(s')
  {
  }

  lemma FinishColoredSame(s: State, s': State)
    requires Colored(s) && s'.queue == s.queue && s'.held == s.held && s'.flight == s.flight
    requires s'.mode == s.mode && s'.color == s.color && s'.orig == s.orig && LiveSet(s') == LiveSet(s)
    ensures Colored(s')
  {
  }

  lemma DrainBitAround(s: State, s': State)
    requires AroundSequence(s) && s'.queue == s.queue && s'.held == s.held && s'.flight == s.flight
    requires s'.started == s.started && s'.soft == s.soft && s'.orig == s.orig
    requires LiveSet(s') == LiveSet(s) && forall r :: r in LiveSet(s) ==> !Older(s, r)
    ensures AroundSequence(s')
  {
  }

  // ---- the end of a sequence ----

  lemma LogEnded(live: set<Req>, b: Req, nextId: nat, log: seq<Event>, error: int)
    requires LogOk(live, Some(b), nextId, log) && b !in live && FsBarrier(b)
    ensures LogOk(live, None, nextId, log + [Ended(b, error)])
  {
    SnocFacts(log, Ended(b, error));
    assert forall f :: f in log + [Ended(b, error)] <==> f in log || f == Ended(b, error);
    assert Added(b) in log;
  }

  /** All bits set: nothing of the sequence is live, and exactly the selected stages are done. */
  lemma SequenceEnded(mode: Ordered, live: set<Req>, b: Req, nextId: nat, o: OrdSeq, ordered: Ordered, orderr: int, log: seq<Event>)
    requires SequenceOk(mode, live, Some(b), o, ordered, orderr, log) && o.Cur() == SEQ_DONE
    requires LogOk(live, Some(b), nextId, log) && (mode.drain ==> OlderFsDone(log, b.id))
    ensures EndOk(mode, log, b, orderr)
    ensures SequenceOk(mode, live, None, IDLE, ordered, orderr, log + [Ended(b, orderr)])
  {
    forall k | IsStage(k)
      ensures StageDone(log, k, b) <==> Selected(mode, b, k)
      ensures StageReq(k, b) !in live
    {
      assert o.Bit(k);
      assert StageOk(mode, live, b, o, log, k);
    }
  }

  lemma EndGoodLog(m: Ordered, log: seq<Event>, b: Req, error: int)
    requires GoodLog(m, log) && EndOk(m, log, b, error)
    ensures GoodLog(m, log + [Ended(b, error)])
  {
    Snoc(m, log, Ended(b, error));
  }

  lemma EndIssued(s: State, e: Event, s': State)
    requires IssuedOk(s) && LiveSet(s') <= LiveSet(s) && s'.started == s.started && s'.log == s.log + [e]
    requires forall r :: r in LiveSet(s') ==> !IsStage(r.kind)
    ensures IssuedOk(s')
  {
    assert forall f :: f in s'.log <==> f in s.log || f == e;
  }

  lemma EndCore(s: State, s': State)
    requires Core(s) && s.orig.Some? && s.ordseq.Cur() == SEQ_DONE && s' == EndIfDone(s)
    requires s.mode.drain ==> OlderFsDone(s.log, s.orig.value.id)
    ensures Core(s')
  {
    assert LiveSet(s') == LiveSet(s);
    LogEnded(LiveSet(s), s.orig.value, s.nextId, s.log, s.orderr);
    SequenceEnded(s.mode, LiveSet(s), s.orig.value, s.nextId, s.ordseq, s.ordered, s.orderr, s.log);
    EndGoodLog(s.mode, s.log, s.orig.value, s.orderr);
    PlacesSame(s, s');
    EndIssued(s, Ended(s.orig.value, s.orderr), s');
    EndBarriers(s, s');
  }

  lemma EndBarriers(s: State, s': State)
    requires BarriersInOrder(s) && s'.queue == s.queue && s'.orig.None?
    ensures BarriersInOrder(s')
  {
  }

  lemma EndColored(s: State, s': State)
    requires Colored(s) && s.orig.Some? && s.ordseq.drain && (s.mode.drain ==> AroundSequence(s))
    requires s'.queue == s.queue && s'.held == s.held && s'.flight == s.flight && s'.color == s.color && s'.orig.None?
    requires s'.mode == s.mode
    ensures Colored(s')
  {
    forall i | 0 <= i < |s.queue| && s.queue[i].kind.Fs? && s.mode.drain
      ensures !Older(s, s.queue[i])
    {
      assert s.queue[i] in LiveSet(s);
    }
    forall r | r in s.flight && s.mode.drain
      ensures !r.kind.Fs?
    {
      assert r in LiveSet(s);
    }
  }

  lemma EndKeeps(s: State)
    requires Almost(s) && s.orig.Some?
    requires Active(s)
    ensures Inv(EndIfDone(s))
  {
    var s' := EndIfDone(s);
    if s.ordseq.Cur() == SEQ_DONE {
      if s.mode.drain {
        DrainedMeansDone(s);
      }
      EndCore(s, s');
      EndColored(s, s');
      if s.mode.drain {
        FinishSeparatedSame(s, s');
      }
    }
  }

  // ---- the start of a sequence ----

  /** q' is q with its head replaced by the stage requests st. */
  ghost predicate StackedOn(q: seq<Req>, st: seq<Req>, q': seq<Req>) {
    && q != [] && |q'| == |st| + |q| - 1
    && (forall j {:trigger q'[j]} :: 0 <= j < |q'| ==> q'[j] == if j < |st| then st[j] else q[j - |st| + 1])
  }

  /** The stage requests of barrier b, in stage order. */
  ghost predicate StagesOf(st: seq<Req>, b: Req) {
    && (forall j :: 0 <= j < |st| ==> IsStage(st[j].kind) && st[j] == StageReq(st[j].kind, b))
    && (forall i, j :: 0 <= i < j < |st| ==> StageSeq(st[i].kind) < StageSeq(st[j].kind))
  }

  lemma StageListFacts(o: Ordered, b: Req)
    ensures StagesOf(StageList(o, b), b)
    ensures Elems(StageList(o, b)) == StageSet(o, b)
    ensures forall r :: r in StageSet(o, b) ==> IsStage(r.kind) && r == StageReq(r.kind, b)
    ensures forall k :: IsStage(k) ==> (StageReq(k, b) in StageSet(o, b) <==>
              match k case PreFlush => o.preflush case Bar => o.bar case PostFlush => o.postflush)
  {
    var st := StageList(o, b);
    forall k | IsStage(k)
      ensures StageReq(k, b) in st <==> match k case PreFlush => o.preflush case Bar => o.bar case PostFlush => o.postflush
    {
    }
  }

  lemma StackElems(q: seq<Req>, st: seq<Req>)
    requires q != [] && q[0] !in st && forall j, k :: 0 <= j < k < |q| ==> q[j] != q[k]
    ensures Elems(st + q[1..]) == Elems(q) - {q[0]} + Elems(st)
    ensures StackedOn(q, st, st + q[1..])
  {
    forall x
      ensures x in st + q[1..] <==> (x in q && x != q[0]) || x in st
    {
      if x in q && x != q[0] {
        var j :| 0 <= j < |q| && q[j] == x;
        assert q[1..][j - 1] == x;
      }
    }
  }

  lemma StackLive(s: State, s': State, o: Ordered)
    requires Places(s) && s.queue != [] && !IsStage(s.queue[0].kind)
    requires s'.queue == StageList(o, s.queue[0]) + s.queue[1..] && s'.held == s.held && s'.flight == s.flight
    ensures LiveSet(s') == LiveSet(s) - {s.queue[0]} + StageSet(o, s.queue[0])
    ensures StackedOn(s.queue, StageList(o, s.queue[0]), s'.queue)
  {
    hide StageList, StageSet, StageReq;
    var b := s.queue[0];
    StageListFacts(o, b);
    assert b !in StageList(o, b) by {
      assert b !in StageSet(o, b);
    }
    StackElems(s.queue, StageList(o, b));
    assert b !in s.held && b !in s.flight;
  }

  lemma StackPlaces(s: State, o: Ordered, s': State)
    requires Places(s) && s.queue != [] && FsBarrier(s.queue[0])
    requires StackedOn(s.queue, StageList(o, s.queue[0]), s'.queue)
    requires forall r :: r in LiveSet(s) ==> !IsStage(r.kind)
    requires s'.held == s.held && s'.flight == s.flight && s'.inFlight == s.inFlight
    requires s'.started == s.started - StageSet(o, s.queue[0]) && s'.soft == s.soft + StageSet(o, s.queue[0])
    ensures Places(s')
  {
    hide StageList, StageSet, FsIn;
    var st := StageList(o, s.queue[0]);
    StageListFacts(o, s.queue[0]);
    forall j | 0 <= j < |st|
      ensures st[j] in StageSet(o, s.queue[0]) && st[j] !in s.held && st[j] !in s.flight
    {
      assert st[j] in Elems(st);
    }
    forall j | 0 <= j < |s.queue|
      ensures !IsStage(s.queue[j].kind)
    {
      assert s.queue[j] in LiveSet(s);
    }
    StackDistinct(s.queue, st, s'.queue, s.queue[0]);
  }

  lemma StackDistinct(q: seq<Req>, st: seq<Req>, q': seq<Req>, b: Req)
    requires StackedOn(q, st, q') && StagesOf(st, b) && (forall j :: 0 <= j < |q| ==> !IsStage(q[j].kind))
    requires forall i, j :: 0 <= i < j < |q| ==> q[i] != q[j]
    ensures forall i, j :: 0 <= i < j < |q'| ==> q'[i] != q'[j]
  {
  }

  lemma {:induction false} NoErrorYet(log: seq<Event>, b: Req)
    requires forall e :: e in log && e.Done? && IsStage(e.r.kind) ==> e.r.id != b.id
    ensures FirstError(log, b) == 0
  {
    if log != [] {
      assert forall e :: e in log[..|log| - 1] ==> e in log;
      assert log[|log| - 1] in log;
      NoErrorYet(log[..|log| - 1], b);
    }
  }

  lemma LogStacked(live: set<Req>, nextId: nat, log: seq<Event>, b: Req, o: Ordered)
    requires LogOk(live, None, nextId, log) && b in live && FsBarrier(b)
    ensures LogOk(live - {b} + StageSet(o, b), Some(b), nextId, log)
    ensures FirstError(log, b) == 0
    ensures forall k :: IsStage(k) ==> !StageDone(log, k, b)
  {
    NoErrorYet(log, b);
    StageListFacts(o, b);
  }

  lemma SequenceStacked(mode: Ordered, live: set<Req>, orig: Option<Req>, o: OrdSeq, ordered: Ordered, orderr: int, log: seq<Event>,
                        b: Req, draining: bool)
    requires SequenceOk(mode, live, None, o, ordered, orderr, log) && b in live && FsBarrier(b)
    requires Supported(mode) && mode != ORDERED_NONE
    requires FirstError(log, b) == 0 && forall k :: IsStage(k) ==> !StageDone(log, k, b)
    requires draining ==> Masked(mode, b.empty).drain
    ensures var m := Masked(mode, b.empty);
            SequenceOk(mode, live - {b} + StageSet(m, b), Some(b),
                       IDLE.Or(OrdSeq(true, false, false, false, false)).Or(Skipped(m, draining)), m, 0, log)
  {
    var m := Masked(mode, b.empty);
    StageListFacts(m, b);
    assert forall k :: IsStage(k) ==> StageReq(k, b) !in live;
  }

  lemma StackIssued(s: State, o: Ordered, s': State)
    requires IssuedOk(s) && s.queue != [] && LiveSet(s') == LiveSet(s) - {s.queue[0]} + StageSet(o, s.queue[0])
    requires s'.started == s.started - StageSet(o, s.queue[0]) && s'.log == s.log
    requires forall r :: r in LiveSet(s) ==> !IsStage(r.kind)
    ensures IssuedOk(s')
  {
    StageListFacts(o, s.queue[0]);
  }

  lemma StackBarriers(s: State, st: seq<Req>, s': State)
    requires BarriersInOrder(s) && StackedOn(s.queue, st, s'.queue) && StagesOf(st, s.queue[0]) && FsBarrier(s.queue[0])
    requires s'.orig == Some(s.queue[0])
    ensures BarriersInOrder(s')
  {
  }

  lemma StackSeparated(s: State, st: seq<Req>, s': State)
    requires Separated(s) && StackedOn(s.queue, st, s'.queue) && StagesOf(st, s.queue[0])
    requires s'.held == s.held && s'.flight == s.flight && s'.started <= s.started
    ensures Separated(s')
  {
  }

  lemma StackAround(s: State, st: seq<Req>, s': State)
    requires Separated(s) && StackedOn(s.queue, st, s'.queue) && StagesOf(st, s.queue[0]) && FsBarrier(s.queue[0])
    requires s'.held == s.held && s'.flight == s.flight && s'.started <= s.started && s'.orig == Some(s.queue[0])
    requires s'.ordseq.drain ==> FsIn(s.flight) == {}
    requires forall j :: 0 <= j < |s.queue| ==> !IsStage(s.queue[j].kind)
    ensures AroundSequence(s')
  {
    StackOlder(s, st, s');
    assert forall r :: r in s.flight && r.kind.Fs? ==> r in FsIn(s.flight);
  }

  /** What is older than the starting barrier is in flight. */
  lemma StackOlder(s: State, st: seq<Req>, s': State)
    requires Separated(s) && StackedOn(s.queue, st, s'.queue) && StagesOf(st, s.queue[0]) && FsBarrier(s.queue[0])
    requires s'.held == s.held && s'.flight == s.flight && s'.orig == Some(s.queue[0])
    ensures forall r :: r in LiveSet(s') && Older(s', r) ==> r in s.flight
  {
    forall r | r in LiveSet(s') && r.kind.Fs? && r !in s.flight
      ensures !Older(s', r)
    {
      if r in s'.queue {
        var j :| 0 <= j < |s'.queue| && s'.queue[j] == r;
        assert j >= |st|;
      }
    }
  }

  /** Requests that are no barriers in front of q change no colour in force. */
  lemma {:induction false} PrefixColors(st: seq<Req>, q: seq<Req>, last: bool)
    requires forall j :: 0 <= j < |st| ==> !FsBarrier(st[j])
    ensures var c, c' := Colors(q, last), Colors(st + q, last);
            |c'| == |st| + |q| + 1 && c'[0] == c[0] &&
            forall j {:trigger c'[j]} :: |st| <= j < |c'| ==> c'[j] == c[j - |st|]
  {
    if st == [] {
      assert st + q == q;
    } else {
      assert (st + q)[1..] == st[1..] + q;
      PrefixColors(st[1..], q, last);
    }
  }

  lemma StackColors(q: seq<Req>, st: seq<Req>, last: bool)
    requires q != [] && FsBarrier(q[0]) && StagesOf(st, q[0])
    ensures var c, c' := Colors(q, last), Colors(st + q[1..], last);
            |c'| == |st| + |q| && c'[0] == !c[0] &&
            forall j {:trigger c'[j]} :: |st| <= j < |c'| ==> c'[j] == c[j - |st| + 1]
  {
    PrefixColors(st, q[1..], last);
  }

  lemma StackColoredBy(s: State, c: seq<bool>, st: seq<Req>, s': State, c': seq<bool>)
    requires ColoredBy(s, c) && (s.mode.drain ==> Separated(s)) && s.orig.None? && s.queue != [] && FsBarrier(s.queue[0])
    requires StagesOf(st, s.queue[0]) && StackedOn(s.queue, st, s'.queue)
    requires s'.mode == s.mode && s'.held == s.held && s'.flight == s.flight && s'.color == s.color && s'.orig == Some(s.queue[0])
    requires |c'| == |st| + |s.queue| && c'[0] == !c[0]
    requires forall j {:trigger c'[j]} :: |st| <= j < |c'| ==> c'[j] == c[j - |st| + 1]
    ensures ColoredBy(s', c')
  {
    if s.mode.drain {
      StackOlder(s, st, s');
    }
  }

  lemma StackColored(s: State, st: seq<Req>, s': State)
    requires Colored(s) && (s.mode.drain ==> Separated(s)) && s.orig.None? && s.queue != [] && FsBarrier(s.queue[0])
    requires StagesOf(st, s.queue[0]) && s'.queue == st + s.queue[1..] && StackedOn(s.queue, st, s'.queue)
    requires s'.mode == s.mode && s'.held == s.held && s'.flight == s.flight && s'.color == s.color && s'.orig == Some(s.queue[0])
    ensures Colored(s')
  {
    StackColors(s.queue, st, s.color);
    StackColoredBy(s, Colors(s.queue, s.color), st, s', Colors(s'.queue, s'.color));
  }

  lemma IdleFacts(s: State)
    requires SequenceOk(s.mode, LiveSet(s), s.orig, s.ordseq, s.ordered, s.orderr, s.log) && s.orig.None?
    ensures s.ordseq == IDLE && forall r :: r in LiveSet(s) ==> !IsStage(r.kind)
  {
  }

  lemma HeadFacts(s: State)
    requires Places(s) && s.queue != []
    ensures s.queue[0] in LiveSet(s) && (FsBarrier(s.queue[0]) ==> Weight(s, s.queue[0]) == 0)
  {
  }

  lemma StackCore(s: State, s': State, draining: bool)
    requires Core(s) && s.orig.None? && s.queue != [] && FsBarrier(s.queue[0]) && s.mode != ORDERED_NONE
    requires draining ==> Masked(s.mode, s.queue[0].empty).drain
    requires s' == SetBits(Stacked(s), Skipped(Stacked(s).ordered, draining), 0)
    ensures Core(s')
  {
    hide LogOk, SequenceOk, Places, BarriersInOrder, IssuedOk, GoodLog, LiveSet;
    var b, m := s.queue[0], Masked(s.mode, s.queue[0].empty);
    IdleFacts(s);
    HeadFacts(s);
    StackLive(s, s', m);
    StageListFacts(m, b);
    LogStacked(LiveSet(s), s.nextId, s.log, b, m);
    SequenceStacked(s.mode, LiveSet(s), s.orig, s.ordseq, s.ordered, s.orderr, s.log, b, draining);
    StackPlaces(s, m, s');
    StackIssued(s, m, s');
    StackBarriers(s, StageList(m, b), s');
  }

  lemma StackDrain(s: State, m: Ordered, s': State)
    requires Separated(s) && s.queue != [] && FsBarrier(s.queue[0])
    requires StackedOn(s.queue, StageList(m, s.queue[0]), s'.queue)
    requires forall r :: r in LiveSet(s) ==> !IsStage(r.kind)
    requires s'.held == s.held && s'.flight == s.flight && s'.started <= s.started && s'.orig == Some(s.queue[0])
    requires s'.ordseq.drain ==> |FsIn(s.flight)| == 0
    ensures Separated(s') && AroundSequence(s')
  {
    StageListFacts(m, s.queue[0]);
    StackSeparated(s, StageList(m, s.queue[0]), s');
    forall j | 0 <= j < |s.queue|
      ensures !IsStage(s.queue[j].kind)
    {
      assert s.queue[j] in LiveSet(s);
    }
    StackAround(s, StageList(m, s.queue[0]), s');
  }

  lemma StartKeeps(s: State, s': State)
    requires Inv(s) && s.orig.None? && s.queue != [] && FsBarrier(s.queue[0]) && s.mode != ORDERED_NONE
    requires s' == SetBits(Stacked(s), Skipped(Stacked(s).ordered, Draining(Stacked(s))), 0)
    ensures Almost(s')
  {
    var b, m := s.queue[0], Masked(s.mode, s.queue[0].empty);
    StackCore(s, s', Draining(Stacked(s)));
    StackLive(s, s', m);
    StageListFacts(m, b);
    StackColored(s, StageList(m, b), s');
    if s.mode.drain {
      StackDrain(s, m, s');
    }
  }

  // ---- Fetch ----

  /** A barrier that arrived and has not ended is queued or running. */
  lemma PendingBarrier(s: State, b: Req)
    requires LogOk(LiveSet(s), s.orig, s.nextId, s.log) && Places(s) && Added(b) in s.log && FsBarrier(b)
    ensures EndedIn(s.log, b) || s.orig == Some(b) || exists k :: 0 <= k < |s.queue| && s.queue[k] == b
  {
    if b in LiveSet(s) {
      assert b in Elems(s.queue);
    }
  }

  /** The head of an idle queue: every barrier before it has ended. */
  lemma IdleHead(s: State)
    requires LogOk(LiveSet(s), s.orig, s.nextId, s.log) && Places(s) && Separated(s)
    requires s.orig.None? && s.queue != [] && s.queue[0].kind.Fs?
    ensures OlderBarriersEnded(s.log, s.queue[0].id)
  {
    forall e | e in s.log && e.Added? && FsBarrier(e.r) && e.r.id < s.queue[0].id
      ensures EndedIn(s.log, e.r)
    {
      PendingBarrier(s, e.r);
    }
  }

  /** Everything before the running barrier or before one of its elders: barriers have ended. */
  lemma RunningBarrier(s: State, id: nat)
    requires LogOk(LiveSet(s), s.orig, s.nextId, s.log) && Places(s) && BarriersInOrder(s)
    requires s.orig.Some? && id <= s.orig.value.id
    ensures OlderBarriersEnded(s.log, id)
  {
    forall e | e in s.log && e.Added? && FsBarrier(e.r) && e.r.id < id
      ensures EndedIn(s.log, e.r)
    {
      PendingBarrier(s, e.r);
    }
  }

  /** Once the drain is over, every fs request older than the barrier has completed. */
  lemma DrainedMeansDone(s: State)
    requires LogOk(LiveSet(s), s.orig, s.nextId, s.log) && AroundSequence(s)
    requires s.orig.Some? && s.ordseq.drain
    ensures OlderFsDone(s.log, s.orig.value.id)
  {
  }

  /** The stages before k have completed when the sequence has come as far as k. */
  lemma EarlierStages(s: State, k: Kind)
    requires SequenceOk(s.mode, LiveSet(s), s.orig, s.ordseq, s.ordered, s.orderr, s.log)
    requires s.orig.Some? && IsStage(k) && StageSeq(k) <= s.ordseq.Cur()
    ensures s.ordseq.drain
    ensures !k.PreFlush? && Selected(s.mode, s.orig.value, PreFlush) ==> StageDone(s.log, PreFlush, s.orig.value)
    ensures k.PostFlush? && Selected(s.mode, s.orig.value, Bar) ==> StageDone(s.log, Bar, s.orig.value)
  {
  }

  lemma StageIssueOk(s: State, r: Req)
    requires Supported(s.mode) && Places(s) && BarriersInOrder(s)
    requires LogOk(LiveSet(s), s.orig, s.nextId, s.log)
    requires SequenceOk(s.mode, LiveSet(s), s.orig, s.ordseq, s.ordered, s.orderr, s.log)
    requires s.orig.Some? && r in LiveSet(s) && IsStage(r.kind) && s.ordseq.drain
    requires s.mode.drain ==> StageSeq(r.kind) <= s.ordseq.Cur() && AroundSequence(s)
    ensures IssueOk(s.mode, s.log, r)
  {
    var b := s.orig.value;
    RunningBarrier(s, b.id);
    assert Added(b) in s.log;
    assert StageOk(s.mode, LiveSet(s), b, s.ordseq, s.log, r.kind);
    if s.mode.drain {
      EarlierStages(s, r.kind);
      DrainedMeansDone(s);
    }
  }

  /** The two colours are told apart where it matters: an fs request at the queue head that has the
      running barrier's colour arrived before that barrier. */
  lemma HeadColorMeansOlder(s: State)
    requires Colored(s) && BarriersInOrder(s) && s.orig.Some? && s.queue != [] && s.queue[0].kind.Fs?
    requires s.queue[0].color == s.orig.value.color
    ensures !FsBarrier(s.queue[0])
    ensures s.mode.drain ==> Older(s, s.queue[0])
  {
    var c := Colors(s.queue, s.color);
    assert s.orig.value.color == !c[0];
  }

  lemma IssueHead(s: State)
    requires Inv(s) && s.queue != [] && Fetch(s) == Issue(s)
    requires s.orig.None? ==> !(FsType(s.queue[0]) && s.queue[0].hard)
    requires s.orig.Some? && !s.queue[0].kind.Special? ==>
               if s.ordered.tag then !FsBarrier(s.queue[0]) else ReqSeq(s.orig.value, s.queue[0]) <= s.ordseq.Cur()
    ensures Inv(Issue(s))
  {
    var h := s.queue[0];
    assert h in Elems(s.queue);
    if IsStage(h.kind) {
      if !s.ordered.tag {
        EarlierStages(s, h.kind);
      }
      StageIssueOk(s, h);
    } else if h.kind.Fs? {
      if s.orig.Some? && !s.ordered.tag {
        HeadColorMeansOlder(s);
      }
      if s.mode.drain {
        FsIssueOk(s);
      }
    }
    IssueKeeps(s);
  }

  lemma FsIssueOk(s: State)
    requires Places(s) && BarriersInOrder(s) && LogOk(LiveSet(s), s.orig, s.nextId, s.log) && Separated(s)
    requires s.queue != [] && s.queue[0].kind.Fs? && (s.orig.Some? ==> Older(s, s.queue[0]))
    ensures OlderBarriersEnded(s.log, s.queue[0].id)
  {
    if s.orig.None? {
      IdleHead(s);
    } else {
      RunningBarrier(s, s.queue[0].id);
    }
  }

  lemma UnsupportedCore(s: State, s': State)
    requires Core(s) && s.orig.None? && s.queue != [] && FsBarrier(s.queue[0]) && s.mode == ORDERED_NONE
    requires s' == s.(queue := s.queue[1..], log := s.log + [Ended(s.queue[0], -EOPNOTSUPP)])
    ensures Core(s')
  {
    var b, e := s.queue[0], Ended(s.queue[0], -EOPNOTSUPP);
    assert StageList(ORDERED_NONE, b) + s.queue[1..] == s.queue[1..];
    assert b in LiveSet(s);
    StackLive(s, s', ORDERED_NONE);
    LogStacked(LiveSet(s), s.nextId, s.log, b, ORDERED_NONE);
    LogEnded(LiveSet(s'), b, s.nextId, s.log, -EOPNOTSUPP);
    EndGoodLog(s.mode, s.log, b, -EOPNOTSUPP);
    EndIssued(s, e, s');
    UnsupportedPlaces(s, s');
    UnsupportedBarriers(s, s');
  }

  lemma UnsupportedPlaces(s: State, s': State)
    requires Places(s) && s.queue != [] && s'.queue == s.queue[1..] && s'.held == s.held && s'.flight == s.flight
    requires s'.started == s.started && s'.soft == s.soft && s'.inFlight == s.inFlight
    ensures Places(s')
  {
  }

  lemma UnsupportedBarriers(s: State, s': State)
    requires BarriersInOrder(s) && s.queue != [] && s'.queue == s.queue[1..] && s'.orig.None?
    ensures BarriersInOrder(s')
  {
  }

  lemma UnsupportedKeeps(s: State, s': State)
    requires Inv(s) && s.orig.None? && s.queue != [] && FsBarrier(s.queue[0]) && s.mode == ORDERED_NONE
    requires s' == s.(queue := s.queue[1..], log := s.log + [Ended(s.queue[0], -EOPNOTSUPP)])
    ensures Inv(s')
  {
    UnsupportedCore(s, s');
    UnsupportedColored(s, s');
  }

  lemma UnsupportedColored(s: State, s': State)
    requires Colored(s) && s.orig.None? && s.queue != [] && !s.mode.drain
    requires s'.queue == s.queue[1..] && s'.held == s.held && s'.color == s.color && s'.orig.None? && s'.mode == s.mode
    ensures Colored(s')
  {
    var c := Colors(s.queue, s.color);
    ColorsUnique(s'.queue, s.color, c[1..]);
    forall j | 0 <= j < |s'.queue| && InLine(s', s'.queue[j])
      ensures s'.queue[j].color == c[1..][j]
    {
      assert s'.queue[j] == s.queue[j + 1];
    }
  }

  /** The first stage of a started sequence is handed out at once when there is nothing to drain. */
  lemma FirstStageKeeps(s: State, st: seq<Req>)
    requires Inv(s) && s.orig.Some? && s.ordseq.drain && s.queue != [] && StagesOf(st, s.orig.value) && st != []
    requires s.queue[0] == st[0] && StageSeq(st[0].kind) <= s.ordseq.Cur()
    ensures Inv(Issue(s))
  {
    assert s.queue[0] in LiveSet(s);
    StageIssueOk(s, s.queue[0]);
    IssueKeeps(s);
  }

  lemma FirstStageIsDue(o: Ordered, b: Req)
    requires StageList(o, b) != []
    ensures var st := StageList(o, b);
            IsStage(st[0].kind) &&
            StageSeq(st[0].kind) <= IDLE.Or(OrdSeq(true, false, false, false, false)).Or(Skipped(o, false)).Cur()
  {
  }

  lemma StartedIssue(s: State, s1: State, s2: State)
    requires s.queue != [] && s.ordseq == IDLE && s1 == Stacked(s) && s2 == SetBits(s1, Skipped(s1.ordered, Draining(s1)), 0)
    requires Inv(EndIfDone(s2)) && StartOrdered(s) != EndIfDone(s2)
    ensures Inv(StartOrdered(s))
  {
    FirstStageIsDue(s1.ordered, s.queue[0]);
    StageListFacts(s1.ordered, s.queue[0]);
    FirstStageKeeps(s2, StageList(s1.ordered, s.queue[0]));
  }

  lemma StartedHead(s: State)
    requires Inv(s) && s.orig.None? && s.queue != [] && FsBarrier(s.queue[0]) && s.mode != ORDERED_NONE
    ensures Inv(StartOrdered(s))
  {
    var s1 := Stacked(s);
    var s2 := SetBits(s1, Skipped(s1.ordered, Draining(s1)), 0);
    assert s.ordseq == IDLE;
    StartKeeps(s, s2);
    EndKeeps(s2);
    if StartOrdered(s) != EndIfDone(s2) {
      StartedIssue(s, s1, s2);
    }
  }

  lemma FetchKeeps(s: State)
    requires Inv(s)
    ensures Inv(Fetch(s))
  {
    if s.queue != [] {
      var h := s.queue[0];
      assert h in Elems(s.queue);
      if s.orig.None? && FsType(h) && h.hard {
        if s.mode == ORDERED_NONE {
          UnsupportedKeeps(s, Fetch(s));
        } else {
          StartedHead(s);
        }
      } else if Fetch(s) != s {
        IssueHead(s);
      }
    }
  }

  /** blk_do_ordered's warning never fires: no request at the queue head is behind a sequence that
      drains, also when it is that of an empty barrier on a tag queue. */
  lemma HeadIsNeverLate(s: State)
    requires Inv(s) && s.orig.Some? && !s.ordered.tag && s.queue != [] && !s.queue[0].kind.Special?
    ensures ReqSeq(s.orig.value, s.queue[0]) >= s.ordseq.Cur()
  {
    var h := s.queue[0];
    assert h in Elems(s.queue);
    if !s.mode.drain {
      OnlyDrains(s);
    } else if h.kind.Fs? && h.color == s.orig.value.color {
      HeadColorMeansOlder(s);
    }
    if IsStage(h.kind) {
      assert StageOk(s.mode, LiveSet(s), s.orig.value, s.ordseq, s.log, h.kind);
    }
  }

  /** An empty barrier on a tag queue without flushes has a sequence with nothing but the drain. */
  lemma OnlyDrains(s: State)
    requires Inv(s) && s.orig.Some? && !s.ordered.tag && !s.mode.drain
    ensures s.mode == ORDERED_TAG && s.orig.value.empty && s.ordered.drain && s.ordseq.Cur() == SEQ_DRAIN
    ensures s.ordseq.preflush && s.ordseq.bar && s.ordseq.postflush && forall r :: r in LiveSet(s) ==> !IsStage(r.kind)
  {
    var b, live := s.orig.value, LiveSet(s);
    forall k | IsStage(k)
      ensures StageReq(k, b) !in live
    {
      assert StageOk(s.mode, live, b, s.ordseq, s.log, k);
    }
  }

  // ---- Finish, assembled ----

  lemma FinishFsKeeps(s: State, r: Req, error: int, s1: State)
    requires Inv(s) && r in s.flight && !IsStage(r.kind) && s1 == Released(s, r, error)
    ensures Inv(s1)
  {
    ReleasedCore(s, r, error, s1);
    RemoveLive(s, r, s1);
    FinishColored(s, r, s1);
    if s.mode.drain {
      FinishSeparated(s, r, s1);
      FinishAround(s, r, s1);
    }
  }

  lemma FinishStageKeeps(s: State, r: Req, error: int, s1: State)
    requires Inv(s) && r in s.flight && IsStage(r.kind) && s.orig.Some?
    requires s1 == SetBits(Released(s, r, error), StageBit(r.kind), error)
    ensures Almost(s1)
    ensures s.ordseq.drain && !s.ordseq.Bit(r.kind)
  {
    StageCore(s, r, error, s1);
    RemoveLive(s, r, s1);
    FinishColored(s, r, s1);
    if s.mode.drain {
      FinishSeparated(s, r, s1);
      FinishAround(s, r, s1);
    }
  }

  lemma FinishStageForm(s: State, r: Req, error: int)
    requires Active(s) && IsStage(r.kind) && s.ordseq.drain
    ensures Finish(s, r, error) == EndIfDone(SetBits(Released(s, r, error), StageBit(r.kind), error))
  {
  }

  lemma FinishStage(s: State, r: Req, error: int)
    requires Inv(s) && r in s.flight && IsStage(r.kind)
    ensures Inv(Finish(s, r, error))
  {
    assert r in LiveSet(s);
    var s2 := SetBits(Released(s, r, error), StageBit(r.kind), error);
    FinishStageKeeps(s, r, error, s2);
    EndKeeps(s2);
    FinishStageForm(s, r, error);
  }

  lemma FinishFsForm(s: State, r: Req, error: int)
    requires !IsStage(r.kind)
    ensures var s1 := Released(s, r, error);
            Finish(s, r, error) ==
            if Active(s1) && DrainOver(s1) then EndIfDone(SetBits(s1, OrdSeq(false, true, false, false, false), 0)) else s1
  {
  }

  lemma FinishFs(s: State, r: Req, error: int)
    requires Inv(s) && r in s.flight && !IsStage(r.kind)
    ensures Inv(Finish(s, r, error))
  {
    var s1 := Released(s, r, error);
    FinishFsKeeps(s, r, error, s1);
    FinishFsForm(s, r, error);
    if Active(s1) && DrainOver(s1) {
      var s2 := SetBits(s1, OrdSeq(false, true, false, false, false), 0);
      DrainBitKeeps(s1, s2);
      EndKeeps(s2);
    }
  }

  lemma FinishKeeps(s: State, r: Req, error: int)
    requires Inv(s) && r in s.flight
    ensures Inv(Finish(s, r, error))
  {
    if IsStage(r.kind) {
      FinishStage(s, r, error);
    } else {
      FinishFs(s, r, error);
    }
  }

  // ---- the steps from outside ----

  /** The head of an idle queue that makes it start a sequence is a barrier. */
  lemma BarrierHead(s: State)
    requires Inv(s) && s.queue != [] && FsType(s.queue[0]) && s.queue[0].hard && s.orig.None?
    ensures FsBarrier(s.queue[0])
  {
    hide GoodLog, BarriersInOrder, Separated, AroundSequence, Colored, LogOk, IssuedOk, Places;
    assert s.queue[0] in LiveSet(s);
  }

  /** What starting a sequence leaves behind. */
  lemma StartedIs(s: State)
    requires s.queue != []
    ensures var s1, s' := Stacked(s), StartOrdered(s);
            && s'.queue == StageList(s1.ordered, s.queue[0]) + s.queue[1..] && s'.held == s.held && s'.flight == s.flight
            && s'.soft == s.soft + StageSet(s1.ordered, s.queue[0])
            && s1.ordered == Masked(s.mode, s.queue[0].empty) && s'.ordered == s1.ordered
            && (s'.orig.Some? ==> s'.orig.value == s.queue[0])
            && (s'.orig.Some? && !s'.ordseq.drain ==> s.inFlight + Weight(s, s.queue[0]) != 0)
  {
    hide StageSet, StageList;
  }

  /** What a completion leaves alone, and what it records. */
  lemma FinishIs(s: State, r: Req, error: int)
    ensures var s' := Finish(s, r, error);
            && s'.queue == s.queue && s'.held == s.held && s'.flight == s.flight - {r} && s'.soft == s.soft && s'.ordered == s.ordered
            && (s'.orig == s.orig || s'.orig.None?) && (s'.orig.Some? && s.ordseq.drain ==> s'.ordseq.drain)
  {
    hide CompleteSeq, DrainOver;
    var s1 := s.(flight := s.flight - {r}, log := s.log + [Done(r, error)]);
    var s2 := s1.(inFlight := s.inFlight - Weight(s1, r));
    if Active(s2) {
      CompleteSeqIs(s2, OrdSeq(false, true, false, false, false), 0);
    }
    if IsStage(r.kind) && Active(Completed(s1, r)) {
      CompleteSeqIs(Completed(s1, r), StageBit(r.kind), error);
    }
  }

  lemma CompleteSeqIs(s: State, bits: OrdSeq, error: int)
    requires Active(s)
    ensures var s' := CompleteSeq(s, bits, error);
            && s'.started == s.started && s'.color == s.color && s'.queue == s.queue && s'.held == s.held && s'.flight == s.flight && s'.soft == s.soft && s'.ordered == s.ordered
            && (s'.orig == s.orig || s'.orig.None?) && (s'.orig.Some? && s.ordseq.drain ==> s'.ordseq.drain)
  {
  }

  lemma FinishLog(s: State, r: Req, error: int)
    ensures var s' := Finish(s, r, error);
            if s'.orig == s.orig then s'.log == s.log + [Done(r, error)]
            else s.orig.Some? && s'.orig.None? && s'.log == s.log + [Done(r, error)] + [Ended(s.orig.value, s'.orderr)]
  {
  }

  // ---- the theorems ----

  lemma StepKeepsInv(s: State, step: Step)
    requires Inv(s) && Enabled(s, step)
    ensures Inv(Next(s, step))
  {
    hide Inv, Fetch, Dispatch, Dequeue, Finish, Requeue, Add;
    match step
    case AddStep(kind, soft, hard, empty, write, sector, elvpriv, w) =>
      AddKeeps(s, Req(kind, s.nextId, hard, empty, s.color, write, sector), EffectiveWhere(soft, hard, elvpriv, w));
    case DispatchStep(r, tail, boundary) => DispatchKeeps(s, r, tail, boundary);
    case FetchStep => FetchKeeps(s);
    case DequeueStep(i) => DequeueKeeps(s, i);
    case FinishStep(r, error) => FinishKeeps(s, r, error);
    case RequeueStep(r) => RequeueKeeps(s, r);
  }

  lemma StepKeepsMode(s: State, step: Step)
    requires Enabled(s, step)
    ensures Next(s, step).mode == s.mode
  {
  }

  lemma {:induction false} RunKeepsInv(s: State, steps: seq<Step>)
    requires Inv(s) && Possible(s, steps)
    ensures Inv(Run(s, steps)) && Run(s, steps).mode == s.mode
    decreases |steps|
  {
    if steps != [] {
      StepKeepsInv(s, steps[0]);
      StepKeepsMode(s, steps[0]);
      RunKeepsInv(Next(s, steps[0]), steps[1..]);
    }
  }

  /** Whatever the driver, the scheduler and the submitters do: each event of the history is
      allowed by the history before it. */
  lemma EveryRunIsOrdered(mode: Ordered, steps: seq<Step>)
    requires Supported(mode) && Possible(Init(mode), steps)
    ensures GoodLog(mode, Run(Init(mode), steps).log)
  {
    InitInv(mode);
    RunKeepsInv(Init(mode), steps);
  }
}
