/** The CFQ scheduler: one sorted list and fifo per queue, a service tree of the busy queues with a
    cached leftmost node, and counters.  The invariant ties every cache and counter to what it
    caches or counts. */
module Cfq {
  import opened Options
  import opened IdSeq
  import opened SectorTree

  datatype Class = RT | BE | IDLE

  /** struct cfq_queue; key is rb_key, queuedSync/queuedAsync are queued[]. */
  datatype Cfqq = Cfqq(cls: Class, sync: bool, key: int, onRr: bool, sort: seq<Id>, next: Option<Id>, fifo: seq<Id>,
                       queuedSync: int, queuedAsync: int, dispatched: int)

  /** Where a request is: on its queue's sorted list, on its queue's fifo, handed to the dispatch list. */
  datatype Spot = Spot(sorted: bool, listed: bool, issued: bool)

  const NOWHERE := Spot(false, false, false)
  const WAITING := Spot(true, true, false)
  const ISSUED := Spot(false, false, true)

  /** A request: the queue it belongs to, whether that queue is synchronous, its own flags, its place. */
  datatype Attr = Attr(q: Id, qsync: bool, sync: bool, meta: bool, place: Spot)

  type Attrs = map<Id, Attr>
  type Queues = map<Id, Cfqq>

  /** struct cfq_data; rr is the service tree in order and left its cached leftmost node.  handed
      is every request given to elv_dispatch_sort so far, in order, and nrSorted is nr_sorted. */
  datatype State = State(qs: Queues, attrs: Attrs, starts: Starts, rr: seq<Id>, left: Option<Id>, busy: int,
                         rqQueued: int, syncFlight: int, last: nat, backMax: nat, penalty: nat,
                         handed: seq<Id>, nrSorted: int)

  const NO_QUEUE := Cfqq(BE, false, 0, false, [], None, [], 0, 0, 0)
  const NO_REQUEST := Attr(0, false, false, false, ISSUED)

  /** The queue q and the request r; total, so that steps need no side conditions. */
  function Q(s: State, q: Id): Cfqq { if q in s.qs then s.qs[q] else NO_QUEUE }
  function A(s: State, r: Id): Attr { if r in s.attrs then s.attrs[r] else NO_REQUEST }
  function SetQ(s: State, q: Id, c: Cfqq): State { s.(qs := s.qs[q := c]) }
  function SetPlace(s: State, r: Id, p: Spot): State { s.(attrs := s.attrs[r := A(s, r).(place := p)]) }

  // ---- choosing requests ----

  /** cfq_choose_req */
  function ChooseReq(s: State, rq1: Option<Id>, rq2: Option<Id>): (r: Option<Id>)
    ensures r == rq1 || r == rq2
    ensures r.None? <==> rq1.None? && rq2.None?
  {
    if rq1 == None || rq1 == rq2 then rq2
    else if rq2 == None then rq1
    else
      var a1, a2 := A(s, rq1.value), A(s, rq2.value);
      if a1.sync && !a2.sync then rq1
      else if a2.sync && !a1.sync then rq2
      else if a1.meta && !a2.meta then rq1
      else if a2.meta && !a1.meta then rq2
      else
        var s1, s2 := SectorOf(s.starts, rq1.value), SectorOf(s.starts, rq2.value);
        var back := 2 * s.backMax;
        var wrap1, wrap2 := s1 < s.last && s1 + back < s.last, s2 < s.last && s2 + back < s.last;
        var d1 := if s1 >= s.last then s1 - s.last else (s.last - s1) * s.penalty;
        var d2 := if s2 >= s.last then s2 - s.last else (s.last - s2) * s.penalty;
        if !wrap1 && !wrap2 then
          if d1 < d2 then rq1 else if d2 < d1 then rq2 else if s1 >= s2 then rq1 else rq2
        else if !wrap1 then rq1
        else if !wrap2 then rq2
        else if s1 <= s2 then rq1
        else rq2
  }

  /** What serving a request next costs, most significant first: asynchronous, not meta data, behind
      the head by more than a short back seek, and then the seek, a back seek weighted by the
      penalty, or for requests behind the head the distance from the start of the disk. */
  function Cost(s: State, r: Id): seq<int> {
    var a, x := A(s, r), SectorOf(s.starts, r);
    var far := x + 2 * s.backMax < s.last;
    [One(!a.sync), One(!a.meta), One(far),
     if far then x else if x >= s.last then x - s.last else (s.last - x) * s.penalty,
     if far then 0 else -x]
  }

  predicate NoDearer(c: seq<int>, d: seq<int>)
    requires |c| == |d|
    decreases |c|
  {
    c == [] || c[0] < d[0] || (c[0] == d[0] && NoDearer(c[1..], d[1..]))
  }

  /** cfq_choose_req picks the cheaper request. */
  lemma ChoosesCheaper(s: State, x: Id, y: Id)
    ensures var r := ChooseReq(s, Some(x), Some(y));
            r.Some? && NoDearer(Cost(s, r.value), Cost(s, x)) && NoDearer(Cost(s, r.value), Cost(s, y))
  {
    var c, d := Cost(s, x), Cost(s, y);
    NoDearerAt(c, d);
    NoDearerAt(d, c);
    NoDearerAt(c, c);
    NoDearerAt(d, d);
  }

  lemma NoDearerAt(c: seq<int>, d: seq<int>)
    requires |c| == |d| == 5
    ensures NoDearer(c, d) <==>
      c[0] < d[0] || (c[0] == d[0] && (c[1] < d[1] || (c[1] == d[1] && (c[2] < d[2] || (c[2] == d[2]
        && (c[3] < d[3] || (c[3] == d[3] && c[4] <= d[4])))))))
  {
    assert NoDearer(c[1..], d[1..]) <==> c[1] < d[1] || (c[1] == d[1] && NoDearer(c[2..], d[2..])) by {
      assert c[1..][1..] == c[2..] && d[1..][1..] == d[2..];
    }
    assert NoDearer(c[2..], d[2..]) <==> c[2] < d[2] || (c[2] == d[2] && NoDearer(c[3..], d[3..])) by {
      assert c[2..][1..] == c[3..] && d[2..][1..] == d[3..];
    }
    assert NoDearer(c[3..], d[3..]) <==> c[3] < d[3] || (c[3] == d[3] && NoDearer(c[4..], d[4..])) by {
      assert c[3..][1..] == c[4..] && d[3..][1..] == d[4..];
    }
    assert NoDearer(c[4..], d[4..]) <==> c[4] <= d[4] by {
      assert c[4..][1..] == [] && d[4..][1..] == [];
    }
  }

  /** cfq_find_next_rq */
  function FindNext(s: State, sort: seq<Id>, r: Id): Option<Id> {
    if r !in sort then None
    else
      var i := IndexOf(sort, r);
      var prev := if i > 0 then Some(sort[i - 1]) else None;
      var next := if i + 1 < |sort| then Some(sort[i + 1]) else if i != 0 then Some(sort[0]) else None;
      ChooseReq(s, next, prev)
  }

  // ---- the service tree ----

  function ClassRank(c: Class): int { match c case RT => 0 case BE => 1 case IDLE => 2 }

  /** RT queues first, IDLE queues last, then by key. */
  predicate Less(cls: Class, key: int, c: Cfqq) {
    ClassRank(cls) < ClassRank(c.cls) || (cls == c.cls && key < c.key)
  }

  /** Where the descent of cfq_service_tree_add ends. */
  function RrPlace(s: State, rr: seq<Id>, cls: Class, key: int): (i: nat)
    ensures i <= |rr|
    ensures forall j :: 0 <= j < i ==> !Less(cls, key, Q(s, rr[j]))
    ensures i < |rr| ==> Less(cls, key, Q(s, rr[i]))
  {
    if rr == [] || Less(cls, key, Q(s, rr[0])) then 0 else 1 + RrPlace(s, rr[1..], cls, key)
  }

  /** cfq_rb_erase */
  function RrErase(s: State, q: Id): State {
    s.(rr := Minus(s.rr, q), left := if s.left == Some(q) then None else s.left)
  }

  function RrInsert(s: State, q: Id, key: int): State {
    var i := RrPlace(s, s.rr, Q(s, q).cls, key);
    SetQ(s, q, Q(s, q).(key := key)).(rr := s.rr[..i] + [q] + s.rr[i..], left := if i == 0 then Some(q) else s.left)
  }

  /** cfq_service_tree_add with the key it computed: the cache is set when the descent never turned
      right. */
  function ServiceTreeAdd(s: State, q: Id, key: int): State {
    if q in s.rr && key == Q(s, q).key then s else RrInsert(RrErase(s, q), q, key)
  }

  /** cfq_add_cfqq_rr */
  function AddCfqqRr(s: State, q: Id, key: int): State {
    ServiceTreeAdd(SetQ(s, q, Q(s, q).(onRr := true)).(busy := s.busy + 1), q, key)
  }

  /** cfq_del_cfqq_rr */
  function DelCfqqRr(s: State, q: Id): State {
    RrErase(SetQ(s, q, Q(s, q).(onRr := false)).(busy := s.busy - 1), q)
  }

  /** cfq_resort_rr_list */
  function ResortRr(s: State, q: Id, key: int): State {
    if Q(s, q).onRr then ServiceTreeAdd(s, q, key) else s
  }

  /** cfq_rb_first fills the cache. */
  function RbFirst(s: State): State {
    if s.left.None? && s.rr != [] then s.(left := Some(s.rr[0])) else s
  }

  // ---- requests ----

  /** queued[rq_is_sync(rq)] += n */
  function Queued(c: Cfqq, sync: bool, n: int): Cfqq {
    if sync then c.(queuedSync := c.queuedSync + n) else c.(queuedAsync := c.queuedAsync + n)
  }

  /** elv_rb_del together with the counter: off the sorted list. */
  function Unsort(s: State, r: Id): State {
    var q := A(s, r).q;
    var c := Queued(Q(s, q), A(s, r).sync, -1);
    SetPlace(SetQ(s, q, c.(sort := Minus(c.sort, r))), r, A(s, r).place.(sorted := false))
  }

  /** cfq_del_rq_rb */
  function DelRqRb(s: State, r: Id): State {
    var q := A(s, r).q;
    var s1 := Unsort(s, r);
    if Q(s1, q).onRr && Q(s1, q).sort == [] then DelCfqqRr(s1, q) else s1
  }

  /** The pointer and the fifo in cfq_remove_request. */
  function Unlist(s: State, r: Id): State {
    var q := A(s, r).q;
    var c := Q(s, q);
    var next := if c.next == Some(r) then FindNext(s, c.sort, r) else c.next;
    SetPlace(SetQ(s, q, c.(next := next, fifo := Minus(c.fifo, r))), r, A(s, r).place.(listed := false)).(
      rqQueued := s.rqQueued - 1)
  }

  /** cfq_remove_request */
  function RemoveRequest(s: State, r: Id): State { DelRqRb(Unlist(s, r), r) }

  /** The rest of cfq_dispatch_insert: the request goes to the dispatch list. */
  function Issue(s: State, r: Id): State {
    var q := A(s, r).q;
    SetPlace(SetQ(s, q, Q(s, q).(dispatched := Q(s, q).dispatched + 1)), r, ISSUED).(
      syncFlight := s.syncFlight + One(Q(s, q).sync), handed := s.handed + [r], nrSorted := s.nrSorted - 1)
  }

  /** cfq_dispatch_insert */
  function DispatchInsert(s: State, r: Id): State { Issue(RemoveRequest(s, r), r) }

  function AliasOf(s: State, r: Id): Option<Id> { Alias(s.starts, Q(s, A(s, r).q).sort, SectorOf(s.starts, r)) }

  /** elv_rb_add together with the counter: onto the sorted list. */
  function Sort(s: State, r: Id): State {
    var q := A(s, r).q;
    var c := Queued(Q(s, q), A(s, r).sync, 1);
    SetPlace(SetQ(s, q, c.(sort := Inserted(s.starts, c.sort, r))), r, A(s, r).place.(sorted := true))
  }

  /** cfq_add_rq_rb after the alias is out of the way. */
  function LinkRq(s: State, r: Id, key: int): State {
    var q := A(s, r).q;
    var s1 := Sort(s, r);
    var s2 := if !Q(s1, q).onRr then AddCfqqRr(s1, q, key) else s1;
    SetQ(s2, q, Q(s2, q).(next := ChooseReq(s2, Q(s2, q).next, Some(r))))
  }

  /** cfq_add_rq_rb: a request at the same sector goes to the dispatch list first. */
  function AddRqRb(s: State, r: Id, key: int): State {
    LinkRq(if AliasOf(s, r).Some? then DispatchInsert(s, AliasOf(s, r).value) else s, r, key)
  }

  /** list_add_tail on the fifo. */
  function List(s: State, r: Id): State {
    var q := A(s, r).q;
    SetPlace(SetQ(s, q, Q(s, q).(fifo := Q(s, q).fifo + [r])), r, A(s, r).place.(listed := true)).(
      rqQueued := s.rqQueued + 1)
  }

  /** A request r of queue q comes in (elv_insert). */
  function Enter(s: State, r: Id, q: Id, sync: bool, meta: bool, sector: nat): State {
    s.(attrs := s.attrs[r := Attr(q, Q(s, q).sync, sync, meta, NOWHERE)], starts := s.starts[r := sector],
       nrSorted := s.nrSorted + 1)
  }

  /** cfq_insert_request */
  function InsertRequest(s: State, r: Id, q: Id, sync: bool, meta: bool, sector: nat, key: int): State {
    List(AddRqRb(Enter(s, r, q, sync, meta, sector), r, key), r)
  }

  /** The first half of cfq_reposition_rq_rb: the request has grown to start at `start`. */
  function Detach(s: State, r: Id, start: nat): State { Unsort(s, r).(starts := s.starts[r := start]) }

  /** cfq_reposition_rq_rb, the front merge case of cfq_merged_request. */
  function FrontMerge(s: State, r: Id, start: nat, key: int): State { AddRqRb(Detach(s, r, start), r, key) }

  /** The fifo part of cfq_merged_requests. */
  function Age(s: State, r: Id, y: Id, older: bool): State {
    var q := A(s, r).q;
    if older then SetQ(s, q, Q(s, q).(fifo := MovedBehind(Q(s, q).fifo, r, y))) else s
  }

  function Forget(s: State, r: Id): State { s.(attrs := s.attrs - {r}) }

  /** cfq_merged_requests: r absorbs y, which goes away. */
  function MergeRequests(s: State, r: Id, y: Id, older: bool): State {
    var s1 := RemoveRequest(Age(s, r, y, older), y);
    Forget(s1, y).(nrSorted := s1.nrSorted - 1)
  }

  /** cfq_completed_request */
  function Completed(s: State, r: Id): State {
    var q := A(s, r).q;
    Forget(SetQ(s, q, Q(s, q).(dispatched := Q(s, q).dispatched - 1)), r).(
      syncFlight := s.syncFlight - One(Q(s, q).sync))
  }

  // ---- what the counters count ----

  datatype Filter = SortOf(q: Id) | SortWith(q: Id, sync: bool) | FifoOf(q: Id) | IssuedOf(q: Id)
                  | AllListed | AllHeld | SyncIssued

  predicate Matches(f: Filter, a: Attr) {
    match f
    case SortOf(q) => a.place.sorted && a.q == q
    case SortWith(q, sync) => a.place.sorted && a.q == q && a.sync == sync
    case FifoOf(q) => a.place.listed && a.q == q
    case IssuedOf(q) => a.place.issued && a.q == q
    case AllListed => a.place.listed
    case AllHeld => !a.place.issued
    case SyncIssued => a.place.issued && a.qsync
  }

  function Sel(attrs: Attrs, f: Filter): set<Id> { set r | r in attrs && Matches(f, attrs[r]) }

  function One(b: bool): int { if b then 1 else 0 }

  lemma SelPut(attrs: Attrs, r: Id, a: Attr, f: Filter)
    ensures Sel(attrs[r := a], f) == Sel(attrs, f) - {r} + (if Matches(f, a) then {r} else {})
    ensures |Sel(attrs[r := a], f)| == |Sel(attrs, f)| - One(r in attrs && Matches(f, attrs[r])) + One(Matches(f, a))
  {
    SelPutSet(attrs, r, a, f);
    PutSize(Sel(attrs, f), r, Matches(f, a));
  }

  lemma SelPutSet(attrs: Attrs, r: Id, a: Attr, f: Filter)
    ensures Sel(attrs[r := a], f) == Sel(attrs, f) - {r} + (if Matches(f, a) then {r} else {})
  {
    hide Matches;
    var x, y := Sel(attrs, f) - {r}, Sel(attrs[r := a], f);
    forall z
      ensures z in y <==> (if z == r then Matches(f, a) else z in x)
    {
    }
    if Matches(f, a) {
      assert y == x + {r};
    } else {
      assert y == x;
    }
  }

  lemma PutSize(x: set<Id>, r: Id, b: bool)
    ensures |x - {r} + (if b then {r} else {})| == |x| - One(r in x) + One(b)
  {
    assert r in x ==> |x - {r}| == |x| - 1;
    assert r !in x ==> x - {r} == x;
  }

  lemma SelRemove(attrs: Attrs, r: Id, f: Filter)
    ensures Sel(attrs - {r}, f) == Sel(attrs, f) - {r}
    ensures |Sel(attrs - {r}, f)| == |Sel(attrs, f)| - One(r in attrs && Matches(f, attrs[r]))
  {
    hide Matches;
    var x := Sel(attrs, f);
    assert Sel(attrs - {r}, f) == x - {r};
    assert r in x <==> r in attrs && Matches(f, attrs[r]);
    assert r in x ==> |x - {r}| == |x| - 1;
    assert r !in x ==> x - {r} == x;
  }

  // ---- the invariant ----

  predicate InOrder(c: Cfqq, d: Cfqq) { !Less(d.cls, d.key, c) }

  /** No queue stands behind one that should be served after it. */
  ghost predicate Ordered(s: State) {
    forall i, j :: 0 <= i < j < |s.rr| ==> InOrder(Q(s, s.rr[i]), Q(s, s.rr[j]))
  }

  /** The service tree: exactly the busy queues except those in `out`, in service order, the leftmost
      one cached or nothing cached. */
  ghost predicate RrOk(s: State, out: set<Id>) {
    && Distinct(s.rr)
    && (forall q :: q in Ids(s.rr) <==> q in s.qs && s.qs[q].onRr && q !in out)
    && Ordered(s)
    && (s.left.Some? ==> s.rr != [] && s.left.value == s.rr[0])
    && s.busy == |s.rr| + |out|
  }

  /** The lists and counters of queue q. */
  ghost predicate ListsOk(c: Cfqq, q: Id, attrs: Attrs, starts: Starts) {
    && Sorted(starts, c.sort) && Ids(c.sort) == Sel(attrs, SortOf(q))
    && Distinct(c.fifo) && Ids(c.fifo) == Sel(attrs, FifoOf(q))
    && c.queuedSync == |Sel(attrs, SortWith(q, true))|
    && c.queuedAsync == |Sel(attrs, SortWith(q, false))|
    && c.dispatched == |Sel(attrs, IssuedOf(q))|
  }

  ghost predicate AllLists(s: State) { forall q :: q in s.qs ==> ListsOk(s.qs[q], q, s.attrs, s.starts) }

  /** next_rq is set exactly when the sorted list is not empty, and exactly then the queue is busy;
      `hole` is a request of the queue that is about to go back onto the sorted list. */
  ghost predicate NextOk(c: Cfqq, hole: Option<Id>) {
    && (c.next.None? ==> c.sort == [])
    && (c.next.Some? ==> c.next.value in Ids(c.sort) || c.next == hole)
    && (c.onRr ==> c.sort != [] || hole.Some?)
    && (c.sort != [] ==> c.onRr)
  }

  function HoleOf(s: State, q: Id, hole: Option<Id>): Option<Id> {
    if hole.Some? && A(s, hole.value).q == q then hole else None
  }

  ghost predicate AllNext(s: State, hole: Option<Id>) {
    forall q :: q in s.qs ==> NextOk(s.qs[q], HoleOf(s, q, hole))
  }

  /** Every request outside `moving` waits on both lists of its queue or has been issued. */
  ghost predicate AttrsOk(s: State, moving: set<Id>) {
    forall r :: r in s.attrs ==>
      && s.attrs[r].q in s.qs && s.attrs[r].qsync == s.qs[s.attrs[r].q].sync && r in s.starts
      && (r in moving || s.attrs[r].place == WAITING || s.attrs[r].place == ISSUED)
  }

  ghost predicate TotalsOk(s: State) {
    && s.rqQueued == |Sel(s.attrs, AllListed)|
    && s.nrSorted == |Sel(s.attrs, AllHeld)|
    && s.syncFlight == |Sel(s.attrs, SyncIssued)|
  }

  /** Between the parts of an operation: `moving` are the requests on the move, `hole` one of them
      that is coming back to the sorted list. */
  ghost predicate Mid(s: State, hole: Option<Id>, moving: set<Id>) {
    && AttrsOk(s, moving) && RrOk(s, {}) && AllLists(s) && AllNext(s, hole) && TotalsOk(s)
  }

  /** Between operations. */
  ghost predicate Inv(s: State) { Mid(s, None, {}) }

  // ---- the service tree keeps its order ----

  predicate SameRank(c: Cfqq, c': Cfqq) { c.cls == c'.cls && c.key == c'.key && c.onRr == c'.onRr }

  /** Only the class, the key and the on_rr flag of a queue matter to the service tree. */
  lemma RrFrame(s: State, s': State, out: set<Id>)
    requires RrOk(s, out) && s'.rr == s.rr && s'.left == s.left && s'.busy == s.busy
    requires s'.qs.Keys == s.qs.Keys && forall q :: q in s.qs ==> SameRank(s.qs[q], s'.qs[q])
    ensures RrOk(s', out)
  {
    assert forall q :: q in s'.qs ==> q in s.qs && SameRank(s.qs[q], s'.qs[q]);
    OrderedFrame(s, s');
  }

  lemma OrderedFrame(s: State, s': State)
    requires Ordered(s) && s'.rr == s.rr
    requires forall i :: 0 <= i < |s.rr| ==> Q(s, s.rr[i]).cls == Q(s', s.rr[i]).cls && Q(s, s.rr[i]).key == Q(s', s.rr[i]).key
    ensures Ordered(s')
  {
    forall i, j | 0 <= i < j < |s'.rr|
      ensures InOrder(Q(s', s'.rr[i]), Q(s', s'.rr[j]))
    {
      assert InOrder(Q(s, s.rr[i]), Q(s, s.rr[j]));
    }
  }

  lemma RrEraseKeeps(s: State, q: Id)
    requires RrOk(s, {}) && q in s.qs && s.qs[q].onRr
    ensures RrOk(RrErase(s, q), {q})
  {
    IdsMember(s.rr, q);
    MinusFacts(s.rr, q);
    MinusDistinct(s.rr, q);
    EraseOrdered(s, q);
  }

  lemma EraseOrdered(s: State, q: Id)
    requires Ordered(s) && Distinct(s.rr) && q in s.rr
    ensures Ordered(RrErase(s, q))
  {
    var p, k := Minus(s.rr, q), IndexOf(s.rr, q);
    MinusFacts(s.rr, q);
    forall i, j | 0 <= i < j < |p|
      ensures InOrder(Q(s, p[i]), Q(s, p[j]))
    {
      var i', j' := if i < k then i else i + 1, if j < k then j else j + 1;
      assert InOrder(Q(s, s.rr[i']), Q(s, s.rr[j']));
    }
  }

  lemma RrInsertKeeps(s: State, q: Id, key: int)
    requires RrOk(s, {q}) && q in s.qs && s.qs[q].onRr
    ensures RrOk(RrInsert(s, q, key), {})
  {
    var i := RrPlace(s, s.rr, s.qs[q].cls, key);
    InsertedIds(s.rr, i, q);
    IdsMember(s.rr, q);
    InsertDistinct(s.rr, i, q);
    InsertOrdered(s, q, key);
  }

  lemma InsertOrdered(s: State, q: Id, key: int)
    requires Ordered(s) && q in s.qs && q !in s.rr
    ensures Ordered(RrInsert(s, q, key))
  {
    var s', c, i := RrInsert(s, q, key), s.qs[q].(key := key), RrPlace(s, s.rr, s.qs[q].cls, key);
    assert forall j :: 0 <= j < |s.rr| ==> s.rr[j] in s.rr && Q(s', s.rr[j]) == Q(s, s.rr[j]);
    forall j | i <= j < |s.rr|
      ensures InOrder(c, Q(s, s.rr[j]))
    {
      assert i < j ==> InOrder(Q(s, s.rr[i]), Q(s, s.rr[j]));
    }
    forall j | 0 <= j < i
      ensures InOrder(Q(s, s.rr[j]), c)
    {
    }
    SplicedInOrder(s, s', i, q);
  }

  lemma SplicedInOrder(s: State, s': State, i: nat, q: Id)
    requires Ordered(s) && i <= |s.rr| && s'.rr == s.rr[..i] + [q] + s.rr[i..]
    requires forall j :: 0 <= j < |s.rr| ==> Q(s', s.rr[j]) == Q(s, s.rr[j])
    requires forall j :: 0 <= j < i ==> InOrder(Q(s, s.rr[j]), Q(s', q))
    requires forall j :: i <= j < |s.rr| ==> InOrder(Q(s', q), Q(s, s.rr[j]))
    ensures Ordered(s')
  {
    hide InOrder, Q;
    forall a, b | 0 <= a < b < |s'.rr|
      ensures InOrder(Q(s', s'.rr[a]), Q(s', s'.rr[b]))
    {
      if a == i {
        assert s'.rr[b] == s.rr[b - 1];
      } else if b == i {
        assert s'.rr[a] == s.rr[a];
      } else {
        var a', b' := if a < i then a else a - 1, if b < i then b else b - 1;
        assert s'.rr[a] == s.rr[a'] && s'.rr[b] == s.rr[b'];
        assert InOrder(Q(s, s.rr[a']), Q(s, s.rr[b']));
      }
    }
  }

  lemma ServiceTreeAddKeeps(s: State, q: Id, key: int)
    requires q in s.qs && s.qs[q].onRr && (RrOk(s, {}) || RrOk(s, {q}))
    ensures RrOk(ServiceTreeAdd(s, q, key), {})
  {
    IdsMember(s.rr, q);
    if q in s.rr {
      if key != s.qs[q].key {
        RrEraseKeeps(s, q);
        RrInsertKeeps(RrErase(s, q), q, key);
      }
    } else {
      assert RrErase(s, q) == s;
      RrInsertKeeps(s, q, key);
    }
  }

  lemma AddCfqqRrKeeps(s: State, q: Id, key: int)
    requires RrOk(s, {}) && q in s.qs && !s.qs[q].onRr
    ensures RrOk(AddCfqqRr(s, q, key), {})
  {
    var s1 := SetQ(s, q, s.qs[q].(onRr := true)).(busy := s.busy + 1);
    OrderedFrame(s, s1);
    ServiceTreeAddKeeps(s1, q, key);
  }

  lemma DelCfqqRrKeeps(s: State, q: Id)
    requires RrOk(s, {}) && q in s.qs && s.qs[q].onRr
    ensures RrOk(DelCfqqRr(s, q), {})
  {
    RrEraseKeeps(s, q);
    OrderedFrame(RrErase(s, q), DelCfqqRr(s, q));
  }

  // ---- the lists and counters follow one request at a time ----

  function Sing(r: Id, b: bool): set<Id> { if b then {r} else {} }

  predicate Was(attrs: Attrs, r: Id, f: Filter) { r in attrs && Matches(f, attrs[r]) }

  /** Queue q when its request r gets the attributes a: what its lists and counters have to become. */
  ghost predicate Relisted(c: Cfqq, c': Cfqq, q: Id, attrs: Attrs, starts: Starts, r: Id, a: Attr) {
    && Sorted(starts, c'.sort) && Ids(c'.sort) == Ids(c.sort) - {r} + Sing(r, a.place.sorted)
    && Distinct(c'.fifo) && Ids(c'.fifo) == Ids(c.fifo) - {r} + Sing(r, a.place.listed)
    && c'.queuedSync == c.queuedSync - One(Was(attrs, r, SortWith(q, true))) + One(Matches(SortWith(q, true), a))
    && c'.queuedAsync == c.queuedAsync - One(Was(attrs, r, SortWith(q, false))) + One(Matches(SortWith(q, false), a))
    && c'.dispatched == c.dispatched - One(Was(attrs, r, IssuedOf(q))) + One(Matches(IssuedOf(q), a))
  }

  /** What the filters of one queue look at. */
  lemma MatchesOwn(q: Id, a: Attr)
    requires a.q == q
    ensures Matches(SortOf(q), a) <==> a.place.sorted
    ensures Matches(FifoOf(q), a) <==> a.place.listed
  {
  }

  lemma Relist(c: Cfqq, c': Cfqq, q: Id, attrs: Attrs, starts: Starts, starts': Starts, r: Id, a: Attr)
    requires ListsOk(c, q, attrs, starts) && a.q == q && Relisted(c, c', q, attrs, starts', r, a)
    ensures ListsOk(c', q, attrs[r := a], starts')
  {
    hide Sel, Matches, Ids, Distinct, Sorted, Was, Sing;
    MatchesOwn(q, a);
    RelistSet(Ids(c.sort), Ids(c'.sort), attrs, r, a, SortOf(q));
    RelistSet(Ids(c.fifo), Ids(c'.fifo), attrs, r, a, FifoOf(q));
    RelistCount(c.queuedSync, c'.queuedSync, attrs, r, a, SortWith(q, true));
    RelistCount(c.queuedAsync, c'.queuedAsync, attrs, r, a, SortWith(q, false));
    RelistCount(c.dispatched, c'.dispatched, attrs, r, a, IssuedOf(q));
  }

  /** A list of the requests a filter selects, and a count of them, when r gets the attributes a. */
  lemma RelistSet(x: set<Id>, y: set<Id>, attrs: Attrs, r: Id, a: Attr, f: Filter)
    requires x == Sel(attrs, f) && y == x - {r} + Sing(r, Matches(f, a))
    ensures y == Sel(attrs[r := a], f)
  {
    hide Sel, Matches;
    SelPutSet(attrs, r, a, f);
  }

  lemma RelistCount(n: int, m: int, attrs: Attrs, r: Id, a: Attr, f: Filter)
    requires n == |Sel(attrs, f)| && m == n - One(Was(attrs, r, f)) + One(Matches(f, a))
    ensures m == |Sel(attrs[r := a], f)|
  {
    hide Sel, Matches;
    SelPut(attrs, r, a, f);
  }

  lemma SelSame(attrs: Attrs, r: Id, a: Attr, f: Filter)
    requires !Was(attrs, r, f) && !Matches(f, a)
    ensures Sel(attrs[r := a], f) == Sel(attrs, f)
  {
  }

  predicate Apart(p: Id, a: Attr) { a.q != p || a.place == NOWHERE }

  /** A queue does not notice a request of another queue or one that is nowhere. */
  lemma OtherLists(c: Cfqq, p: Id, attrs: Attrs, starts: Starts, starts': Starts, r: Id, a: Attr)
    requires ListsOk(c, p, attrs, starts) && Apart(p, a) && (r in attrs ==> Apart(p, attrs[r]))
    requires forall x :: x in starts && x != r ==> x in starts' && starts'[x] == starts[x]
    ensures ListsOk(c, p, attrs[r := a], starts')
  {
    SelSame(attrs, r, a, SortOf(p));
    SelSame(attrs, r, a, FifoOf(p));
    SelSame(attrs, r, a, SortWith(p, true));
    SelSame(attrs, r, a, SortWith(p, false));
    SelSame(attrs, r, a, IssuedOf(p));
    assert r !in Sel(attrs, SortOf(p));
    StartsMove(c, starts, starts', r);
  }

  /** s' gives request r of queue q the attributes a and queue q the contents c. */
  predicate Updates(s: State, s': State, q: Id, c: Cfqq, r: Id, a: Attr) {
    && s'.qs == s.qs[q := c] && s'.attrs == s.attrs[r := a]
    && (forall x :: x in s.starts && x != r ==> x in s'.starts && s'.starts[x] == s.starts[x])
  }

  lemma ListsStep(s: State, s': State, q: Id, c: Cfqq, r: Id, a: Attr)
    requires AllLists(s) && q in s.qs && Updates(s, s', q, c, r, a) && a.q == q && (r in s.attrs ==> s.attrs[r].q == q)
    requires Relisted(s.qs[q], c, q, s.attrs, s'.starts, r, a)
    ensures AllLists(s')
  {
    hide ListsOk, Relisted;
    Relist(s.qs[q], c, q, s.attrs, s.starts, s'.starts, r, a);
    forall p | p in s'.qs
      ensures ListsOk(s'.qs[p], p, s'.attrs, s'.starts)
    {
      if p != q {
        OtherLists(s.qs[p], p, s.attrs, s.starts, s'.starts, r, a);
      }
    }
  }

  /** Attributes that leave the lists alone do too. */
  lemma AttrsStep(s: State, s': State, q: Id, c: Cfqq, r: Id, a: Attr, moving: set<Id>, moving': set<Id>)
    requires AttrsOk(s, moving) && q in s.qs && Updates(s, s', q, c, r, a) && a.q == q && c.sync == s.qs[q].sync == a.qsync
    requires r in s'.starts && (r in moving' || a.place == WAITING || a.place == ISSUED) && moving <= moving' + {r}
    ensures AttrsOk(s', moving')
  {
  }

  /** What the filters over all queues look at. */
  lemma MatchesAll(a: Attr)
    ensures Matches(AllListed, a) <==> a.place.listed
    ensures Matches(AllHeld, a) <==> !a.place.issued
    ensures Matches(SyncIssued, a) <==> a.place.issued && a.qsync
  {
  }

  lemma TotalsStep(s: State, s': State, r: Id, a: Attr)
    requires TotalsOk(s) && s'.attrs == s.attrs[r := a]
    requires s'.rqQueued == s.rqQueued - One(Was(s.attrs, r, AllListed)) + One(a.place.listed)
    requires s'.nrSorted == s.nrSorted - One(Was(s.attrs, r, AllHeld)) + One(!a.place.issued)
    requires s'.syncFlight == s.syncFlight - One(Was(s.attrs, r, SyncIssued)) + One(a.place.issued && a.qsync)
    ensures TotalsOk(s')
  {
    hide Sel, Matches, Was;
    MatchesAll(a);
    RelistCount(s.rqQueued, s'.rqQueued, s.attrs, r, a, AllListed);
    RelistCount(s.nrSorted, s'.nrSorted, s.attrs, r, a, AllHeld);
    RelistCount(s.syncFlight, s'.syncFlight, s.attrs, r, a, SyncIssued);
  }

  /** AttrsOk, AllLists and TotalsOk together: everything but the pointers and the service tree. */
  ghost predicate Books(s: State, moving: set<Id>) { AttrsOk(s, moving) && AllLists(s) && TotalsOk(s) }

  lemma BooksStep(s: State, s': State, q: Id, c: Cfqq, r: Id, a: Attr, moving: set<Id>, moving': set<Id>)
    requires Books(s, moving) && q in s.qs && Updates(s, s', q, c, r, a) && a.q == q && c.sync == s.qs[q].sync == a.qsync
    requires r in s.attrs ==> s.attrs[r].q == q
    requires Relisted(s.qs[q], c, q, s.attrs, s'.starts, r, a)
    requires r in s'.starts && (r in moving' || a.place == WAITING || a.place == ISSUED) && moving <= moving' + {r}
    requires s'.rqQueued == s.rqQueued - One(Was(s.attrs, r, AllListed)) + One(a.place.listed)
    requires s'.nrSorted == s.nrSorted - One(Was(s.attrs, r, AllHeld)) + One(!a.place.issued)
    requires s'.syncFlight == s.syncFlight - One(Was(s.attrs, r, SyncIssued)) + One(a.place.issued && a.qsync)
    ensures Books(s', moving')
  {
    hide ListsOk, Relisted, AttrsOk, TotalsOk, AllLists;
    ListsStep(s, s', q, c, r, a);
    AttrsStep(s, s', q, c, r, a, moving, moving');
    TotalsStep(s, s', r, a);
  }

  lemma UnsortBooks(s: State, r: Id, moving: set<Id>)
    requires Books(s, moving) && r in s.attrs && s.attrs[r].place.sorted && !s.attrs[r].place.issued
    ensures Books(Unsort(s, r), moving + {r})
  {
    hide ListsOk, Relisted;
    var s', q := Unsort(s, r), s.attrs[r].q;
    UnsortRelists(s.qs[q], q, s.attrs, s.starts, r);
    BooksStep(s, s', q, s'.qs[q], r, s'.attrs[r], moving, moving + {r});
  }

  lemma UnsortRelists(c: Cfqq, q: Id, attrs: Attrs, starts: Starts, r: Id)
    requires ListsOk(c, q, attrs, starts) && r in attrs && attrs[r].q == q && attrs[r].place.sorted && !attrs[r].place.issued
    ensures Relisted(c, Queued(c, attrs[r].sync, -1).(sort := Minus(c.sort, r)), q, attrs, starts, r,
                     attrs[r].(place := attrs[r].place.(sorted := false)))
  {
    hide ListsOk, Sorted, Distinct, Ids, Minus;
    ListFacts(c, q, attrs, starts, r);
    SortedMinus(starts, c.sort, r);
    Same(Ids(c.fifo), r, attrs[r].place.listed);
  }

  /** Whether r is on the lists of queue q is what its place says. */
  lemma ListFacts(c: Cfqq, q: Id, attrs: Attrs, starts: Starts, r: Id)
    requires ListsOk(c, q, attrs, starts)
    ensures Sorted(starts, c.sort) && Distinct(c.fifo)
    ensures r in Ids(c.sort) <==> Was(attrs, r, SortOf(q))
    ensures r in Ids(c.fifo) <==> Was(attrs, r, FifoOf(q))
  {
    hide Sorted, Distinct, Ids;
    assert r in Sel(attrs, SortOf(q)) <==> Was(attrs, r, SortOf(q));
    assert r in Sel(attrs, FifoOf(q)) <==> Was(attrs, r, FifoOf(q));
  }

  lemma Same(x: set<Id>, r: Id, b: bool)
    requires r in x <==> b
    ensures x == x - {r} + Sing(r, b)
  {
  }

  lemma UnlistBooks(s: State, r: Id, moving: set<Id>)
    requires Books(s, moving) && r in s.attrs && s.attrs[r].place.listed && !s.attrs[r].place.issued
    ensures Books(Unlist(s, r), moving + {r})
  {
    hide ListsOk, Relisted, FindNext;
    var s', q := Unlist(s, r), s.attrs[r].q;
    UnlistRelists(s.qs[q], s'.qs[q], q, s.attrs, s.starts, r);
    BooksStep(s, s', q, s'.qs[q], r, s'.attrs[r], moving, moving + {r});
  }

  lemma UnlistRelists(c: Cfqq, c': Cfqq, q: Id, attrs: Attrs, starts: Starts, r: Id)
    requires ListsOk(c, q, attrs, starts) && r in attrs && attrs[r].q == q && attrs[r].place.listed && !attrs[r].place.issued
    requires c' == c.(next := c'.next, fifo := Minus(c.fifo, r))
    ensures Relisted(c, c', q, attrs, starts, r, attrs[r].(place := attrs[r].place.(listed := false)))
  {
    hide ListsOk, Sorted, Distinct, Ids, Minus;
    ListFacts(c, q, attrs, starts, r);
    IdsMember(c.fifo, r);
    MinusFacts(c.fifo, r);
    MinusDistinct(c.fifo, r);
    Same(Ids(c.sort), r, attrs[r].place.sorted);
  }

  lemma IssueBooks(s: State, r: Id, moving: set<Id>)
    requires Books(s, moving) && r in s.attrs && s.attrs[r].place == NOWHERE
    ensures Books(Issue(s, r), moving - {r})
  {
    hide ListsOk, Relisted;
    var s', q := Issue(s, r), s.attrs[r].q;
    IssueRelists(s.qs[q], q, s.attrs, s.starts, r);
    BooksStep(s, s', q, s'.qs[q], r, s'.attrs[r], moving, moving - {r});
  }

  lemma IssueRelists(c: Cfqq, q: Id, attrs: Attrs, starts: Starts, r: Id)
    requires ListsOk(c, q, attrs, starts) && r in attrs && attrs[r].q == q && attrs[r].place == NOWHERE
    ensures Relisted(c, c.(dispatched := c.dispatched + 1), q, attrs, starts, r, attrs[r].(place := ISSUED))
  {
    hide ListsOk, Sorted, Distinct, Ids;
    ListFacts(c, q, attrs, starts, r);
    Same(Ids(c.sort), r, false);
    Same(Ids(c.fifo), r, false);
  }

  lemma SortBooks(s: State, r: Id, moving: set<Id>, moving': set<Id>)
    requires Books(s, moving) && r in s.attrs && AliasOf(s, r).None?
    requires !s.attrs[r].place.sorted && !s.attrs[r].place.issued && moving <= moving' + {r} && (r in moving' || s.attrs[r].place.listed)
    ensures Books(Sort(s, r), moving')
  {
    hide ListsOk, Relisted;
    var s', q := Sort(s, r), s.attrs[r].q;
    SortRelists(s.qs[q], q, s.attrs, s.starts, r);
    BooksStep(s, s', q, s'.qs[q], r, s'.attrs[r], moving, moving');
  }

  lemma SortRelists(c: Cfqq, q: Id, attrs: Attrs, starts: Starts, r: Id)
    requires ListsOk(c, q, attrs, starts) && r in attrs && attrs[r].q == q && !attrs[r].place.sorted && !attrs[r].place.issued
    requires r in starts && Alias(starts, c.sort, starts[r]).None?
    ensures Relisted(c, Queued(c, attrs[r].sync, 1).(sort := Inserted(starts, c.sort, r)), q, attrs, starts, r,
                     attrs[r].(place := attrs[r].place.(sorted := true)))
  {
    hide ListsOk, Sorted, Distinct, Ids, Inserted;
    ListFacts(c, q, attrs, starts, r);
    SortedInsert(starts, c.sort, r);
    Same(Ids(c.sort), r, false);
    Same(Ids(c.fifo), r, attrs[r].place.listed);
  }

  lemma ListBooks(s: State, r: Id, moving: set<Id>)
    requires Books(s, moving) && r in s.attrs && s.attrs[r].place == Spot(true, false, false)
    ensures Books(List(s, r), moving - {r})
  {
    hide ListsOk, Relisted;
    var s', q := List(s, r), s.attrs[r].q;
    ListRelists(s.qs[q], q, s.attrs, s.starts, r);
    BooksStep(s, s', q, s'.qs[q], r, s'.attrs[r], moving, moving - {r});
  }

  lemma ListRelists(c: Cfqq, q: Id, attrs: Attrs, starts: Starts, r: Id)
    requires ListsOk(c, q, attrs, starts) && r in attrs && attrs[r].q == q && attrs[r].place == Spot(true, false, false)
    ensures Relisted(c, c.(fifo := c.fifo + [r]), q, attrs, starts, r, attrs[r].(place := WAITING))
  {
    hide ListsOk, Sorted, Distinct, Ids;
    ListFacts(c, q, attrs, starts, r);
    Same(Ids(c.sort), r, true);
    Same(Ids(c.fifo), r, false);
    IdsMember(c.fifo, r);
    assert c.fifo + [r] == c.fifo[..|c.fifo|] + [r] + c.fifo[|c.fifo|..];
    InsertDistinct(c.fifo, |c.fifo|, r);
    InsertedIds(c.fifo, |c.fifo|, r);
  }

  lemma EnterBooks(s: State, r: Id, q: Id, sync: bool, meta: bool, sector: nat)
    requires Books(s, {}) && r !in s.attrs && q in s.qs
    ensures Books(Enter(s, r, q, sync, meta, sector), {r})
  {
    hide ListsOk, TotalsOk;
    var s' := Enter(s, r, q, sync, meta, sector);
    forall p | p in s.qs
      ensures ListsOk(s.qs[p], p, s'.attrs, s'.starts)
    {
      OtherLists(s.qs[p], p, s.attrs, s.starts, s'.starts, r, s'.attrs[r]);
    }
    TotalsStep(s, s', r, s'.attrs[r]);
  }

  /** The start of a request that is not on the sorted list may change. */
  lemma StartsMove(c: Cfqq, starts: Starts, starts': Starts, r: Id)
    requires Sorted(starts, c.sort) && r !in Ids(c.sort)
    requires forall x :: x in starts && x != r ==> x in starts' && starts'[x] == starts[x]
    ensures Sorted(starts', c.sort)
  {
    forall i | 0 <= i < |c.sort|
      ensures c.sort[i] != r
    {
      assert c.sort[i] in Ids(c.sort);
    }
    SortedFrame(starts, starts', c.sort);
  }

  predicate SameBooks(c: Cfqq, c': Cfqq) {
    && c'.sort == c.sort && c'.fifo == c.fifo && c'.queuedSync == c.queuedSync && c'.queuedAsync == c.queuedAsync
    && c'.dispatched == c.dispatched && c'.sync == c.sync
  }

  /** Keys, classes, pointers and the service tree do not matter to the books. */
  lemma BooksFrame(s: State, s': State, moving: set<Id>)
    requires Books(s, moving) && s'.attrs == s.attrs && s'.starts == s.starts
    requires s'.rqQueued == s.rqQueued && s'.nrSorted == s.nrSorted && s'.syncFlight == s.syncFlight
    requires s'.qs.Keys == s.qs.Keys && forall q :: q in s.qs ==> SameBooks(s.qs[q], s'.qs[q])
    ensures Books(s', moving)
  {
    forall q | q in s'.qs
      ensures ListsOk(s'.qs[q], q, s'.attrs, s'.starts)
    {
      assert SameBooks(s.qs[q], s'.qs[q]) && ListsOk(s.qs[q], q, s.attrs, s.starts);
    }
  }

  // ---- removing a request ----

  lemma FindNextMember(s: State, sort: seq<Id>, r: Id)
    requires Distinct(sort) && r in Ids(sort)
    ensures FindNext(s, sort, r).None? <==> |sort| == 1
    ensures FindNext(s, sort, r).Some? ==> FindNext(s, sort, r).value in Ids(sort) - {r}
  {
    hide ChooseReq;
    var i := IndexOf(sort, r);
    assert i > 0 ==> sort[i - 1] in Ids(sort);
    assert i + 1 < |sort| ==> sort[i + 1] in Ids(sort);
    assert sort[0] in Ids(sort);
  }

  /** cfq_remove_request leaves the pointer on a request that stays. */
  lemma RemoveNext(s: State, r: Id, hole: Option<Id>)
    requires r in s.attrs && s.attrs[r].q in s.qs && hole != Some(r)
    requires var c := s.qs[s.attrs[r].q]; Distinct(c.sort) && r in Ids(c.sort) && NextOk(c, hole)
    ensures NextOk(Q(RemoveRequest(s, r), s.attrs[r].q), hole)
  {
    hide FindNext;
    var c := s.qs[s.attrs[r].q];
    FindNextMember(s, c.sort, r);
    IdsMember(c.sort, r);
    MinusFacts(c.sort, r);
    EmptyIds(Minus(c.sort, r));
  }

  /** What cfq_remove_request does to the rest. */
  lemma RemoveShape(s: State, r: Id)
    requires r in s.attrs && s.attrs[r].q in s.qs
    ensures var s', q := RemoveRequest(s, r), s.attrs[r].q;
            && s'.qs.Keys == s.qs.Keys && (forall p :: p in s.qs && p != q ==> s'.qs[p] == s.qs[p])
            && s'.qs[q].sort == Minus(s.qs[q].sort, r) && s'.qs[q].cls == s.qs[q].cls && s'.qs[q].sync == s.qs[q].sync
  {
    hide FindNext, Minus;
    var s1, q := Unlist(s, r), s.attrs[r].q;
    var s2 := Unsort(s1, r);
    assert s1.qs == s.qs[q := s1.qs[q]] && s2.qs == s1.qs[q := s2.qs[q]];
  }

  lemma RemoveAttrs(s: State, r: Id)
    requires r in s.attrs
    ensures var s' := RemoveRequest(s, r);
            && s'.attrs == s.attrs[r := s.attrs[r].(place := s.attrs[r].place.(sorted := false, listed := false))]
            && s'.starts == s.starts && s'.handed == s.handed
  {
    hide Unlist, DelRqRb;
    UnlistAttrs(s, r);
    DelRqRbAttrs(Unlist(s, r), r);
  }

  lemma UnlistAttrs(s: State, r: Id)
    requires r in s.attrs
    ensures var s' := Unlist(s, r);
            && s'.attrs == s.attrs[r := s.attrs[r].(place := s.attrs[r].place.(listed := false))]
            && s'.starts == s.starts && s'.handed == s.handed
  {
    hide FindNext, Minus;
  }

  lemma DelRqRbAttrs(s: State, r: Id)
    requires r in s.attrs
    ensures var s' := DelRqRb(s, r);
            && s'.attrs == s.attrs[r := s.attrs[r].(place := s.attrs[r].place.(sorted := false))]
            && s'.starts == s.starts && s'.handed == s.handed
  {
    hide Minus;
  }

  lemma RemoveBooks(s: State, r: Id, moving: set<Id>)
    requires Books(s, moving) && r in s.attrs && s.attrs[r].place == WAITING
    ensures Books(RemoveRequest(s, r), moving + {r})
  {
    hide ListsOk, FindNext, TotalsOk;
    var s1, q := Unlist(s, r), s.attrs[r].q;
    var s2 := Unsort(s1, r);
    UnlistBooks(s, r, moving);
    UnsortBooks(s1, r, moving + {r});
    BooksFrame(s2, RemoveRequest(s, r), moving + {r});
  }

  lemma RemoveRr(s: State, r: Id)
    requires RrOk(s, {}) && r in s.attrs && s.attrs[r].q in s.qs
    ensures RrOk(RemoveRequest(s, r), {})
  {
    hide FindNext, RrOk;
    var s2, q := Unsort(Unlist(s, r), r), s.attrs[r].q;
    RrFrame(s, s2, {});
    if s2.qs[q].onRr && s2.qs[q].sort == [] {
      DelCfqqRrKeeps(s2, q);
    }
  }

  lemma RemoveKeeps(s: State, r: Id, hole: Option<Id>, moving: set<Id>)
    requires Mid(s, hole, moving) && r in s.attrs && s.attrs[r].place == WAITING && hole != Some(r)
    ensures Mid(RemoveRequest(s, r), hole, moving + {r})
  {
    hide RrOk, Books, NextOk, RemoveRequest, AllLists, TotalsOk;
    var s', q := RemoveRequest(s, r), s.attrs[r].q;
    assert Books(s, moving) by { BooksAre(s, moving); }
    RemoveBooks(s, r, moving);
    BooksAre(s', moving + {r});
    RemoveRr(s, r);
    RemoveShape(s, r);
    RemoveAttrs(s, r);
    OnSort(s, r);
    RemoveNext(s, r, HoleOf(s, q, hole));
    NextStep(s, s', q, hole);
  }

  lemma BooksAre(s: State, moving: set<Id>)
    ensures Books(s, moving) <==> AttrsOk(s, moving) && AllLists(s) && TotalsOk(s)
  {
  }

  lemma OnSort(s: State, r: Id)
    requires AllLists(s) && r in s.attrs && s.attrs[r].q in s.qs && s.attrs[r].place.sorted
    ensures r in Ids(s.qs[s.attrs[r].q].sort) && Distinct(s.qs[s.attrs[r].q].sort)
  {
    assert ListsOk(s.qs[s.attrs[r].q], s.attrs[r].q, s.attrs, s.starts);
    assert r in Sel(s.attrs, SortOf(s.attrs[r].q));
    SortedDistinct(s.starts, s.qs[s.attrs[r].q].sort);
  }

  lemma NextStep(s: State, s': State, q: Id, hole: Option<Id>)
    requires AllNext(s, hole) && s'.qs.Keys == s.qs.Keys && forall p :: p in s.qs && p != q ==> s'.qs[p] == s.qs[p]
    requires q in s.qs && NextOk(s'.qs[q], HoleOf(s', q, hole)) && (hole.Some? ==> A(s', hole.value).q == A(s, hole.value).q)
    ensures AllNext(s', hole)
  {
    hide NextOk;
    assert forall p :: HoleOf(s', p, hole) == HoleOf(s, p, hole);
  }

  // ---- handing a request to the dispatch list ----

  lemma DispatchKeeps(s: State, r: Id, hole: Option<Id>, moving: set<Id>)
    requires Mid(s, hole, moving) && r in s.attrs && s.attrs[r].place == WAITING && hole != Some(r)
    ensures Mid(DispatchInsert(s, r), hole, moving - {r})
  {
    hide RrOk, Books, RemoveRequest, AllLists, TotalsOk, AttrsOk, NextOk;
    var s1, s', q := RemoveRequest(s, r), DispatchInsert(s, r), s.attrs[r].q;
    AttrsAre(s, moving, r);
    RemoveKeeps(s, r, hole, moving);
    RemoveShape(s, r);
    RemoveAttrs(s, r);
    BooksAre(s1, moving + {r});
    IssueBooks(s1, r, moving + {r});
    assert moving + {r} - {r} == moving - {r};
    BooksAre(s', moving - {r});
    RrFrame(s1, s', {});
    assert NextOk(s1.qs[q], HoleOf(s1, q, hole));
    NextFrame(s1.qs[q], s'.qs[q], HoleOf(s1, q, hole));
    NextStep(s1, s', q, hole);
  }

  lemma AttrsAre(s: State, moving: set<Id>, r: Id)
    requires AttrsOk(s, moving) && r in s.attrs
    ensures s.attrs[r].q in s.qs && r in s.starts && s.attrs[r].qsync == s.qs[s.attrs[r].q].sync
    ensures r in moving || s.attrs[r].place == WAITING || s.attrs[r].place == ISSUED
  {
  }

  /** What cfq_dispatch_insert does to the rest. */
  lemma DispatchShape(s: State, r: Id)
    requires r in s.attrs && s.attrs[r].q in s.qs
    ensures var s', q := DispatchInsert(s, r), s.attrs[r].q;
            && s'.qs.Keys == s.qs.Keys && (forall p :: p in s.qs && p != q ==> s'.qs[p] == s.qs[p])
            && s'.qs[q].sort == Minus(s.qs[q].sort, r)
            && s'.attrs == s.attrs[r := s.attrs[r].(place := ISSUED)]
            && s'.starts == s.starts && s'.handed == s.handed + [r]
  {
    hide RemoveRequest, Minus;
    RemoveShape(s, r);
    RemoveAttrs(s, r);
    var s1 := RemoveRequest(s, r);
    assert s.attrs[r := s1.attrs[r]][r := s.attrs[r].(place := ISSUED)] == s.attrs[r := s.attrs[r].(place := ISSUED)];
  }

  // ---- putting a request on the sorted list ----

  lemma LinkNext(s: State, r: Id, key: int)
    requires r in s.attrs && s.attrs[r].q in s.qs && NextOk(s.qs[s.attrs[r].q], Some(r))
    ensures NextOk(Q(LinkRq(s, r, key), s.attrs[r].q), None)
  {
    hide ChooseReq, Less;
    var q := s.attrs[r].q;
    var c, c' := s.qs[q], Q(LinkRq(s, r, key), q);
    InsertedIds(c.sort, Place(s.starts, c.sort, SectorOf(s.starts, r)), r);
    LinkQueue(s, r, key);
  }

  lemma LinkQueue(s: State, r: Id, key: int)
    requires r in s.attrs && s.attrs[r].q in s.qs
    ensures var s', q := LinkRq(s, r, key), s.attrs[r].q;
            && s'.qs.Keys == s.qs.Keys && (forall p :: p in s.qs && p != q ==> s'.qs[p] == s.qs[p])
            && s'.qs[q].sort == Inserted(s.starts, s.qs[q].sort, r) && s'.qs[q].onRr
            && (s'.qs[q].next == s.qs[q].next || s'.qs[q].next == Some(r)) && s'.qs[q].next.Some?
  {
    hide Inserted, RrPlace;
  }

  lemma LinkAttrs(s: State, r: Id, key: int)
    requires r in s.attrs
    ensures var s' := LinkRq(s, r, key);
            && s'.attrs == s.attrs[r := s.attrs[r].(place := s.attrs[r].place.(sorted := true))]
            && s'.starts == s.starts && s'.handed == s.handed
  {
    hide Inserted, RrPlace;
  }

  lemma LinkRr(s: State, r: Id, key: int)
    requires RrOk(s, {}) && r in s.attrs && s.attrs[r].q in s.qs
    ensures RrOk(LinkRq(s, r, key), {})
  {
    hide RrOk, ChooseReq, Inserted, ServiceTreeAdd;
    var s1, q := Sort(s, r), s.attrs[r].q;
    var s2 := if !Q(s1, q).onRr then AddCfqqRr(s1, q, key) else s1;
    RrFrame(s, s1, {});
    if !s1.qs[q].onRr {
      AddCfqqRrKeeps(s1, q, key);
    }
    assert q in s2.qs by { TreeAddQueues(s1, q, key); }
    RrFrame(s2, LinkRq(s, r, key), {});
  }

  lemma TreeAddQueues(s: State, q: Id, key: int)
    requires q in s.qs
    ensures var s' := AddCfqqRr(s, q, key); s'.qs.Keys == s.qs.Keys && forall p :: p in s.qs ==> SameBooks(s.qs[p], s'.qs[p])
    ensures var s' := AddCfqqRr(s, q, key); s' == s.(qs := s'.qs, rr := s'.rr, left := s'.left, busy := s'.busy)
  {
    hide RrPlace;
  }

  lemma LinkBooks(s: State, r: Id, key: int, moving: set<Id>, moving': set<Id>)
    requires Books(s, moving) && r in s.attrs && AliasOf(s, r).None?
    requires !s.attrs[r].place.sorted && !s.attrs[r].place.issued && moving <= moving' + {r} && (r in moving' || s.attrs[r].place.listed)
    ensures Books(LinkRq(s, r, key), moving')
  {
    hide ListsOk, TotalsOk, ChooseReq, AddCfqqRr;
    var s1, q := Sort(s, r), s.attrs[r].q;
    SortBooks(s, r, moving, moving');
    TreeAddQueues(s1, q, key);
    BooksFrame(s1, LinkRq(s, r, key), moving');
  }

  lemma LinkKeeps(s: State, r: Id, key: int, moving: set<Id>, moving': set<Id>)
    requires Mid(s, Some(r), moving) && r in s.attrs && AliasOf(s, r).None?
    requires !s.attrs[r].place.sorted && !s.attrs[r].place.issued && moving <= moving' + {r} && (r in moving' || s.attrs[r].place.listed)
    ensures Mid(LinkRq(s, r, key), None, moving')
  {
    hide RrOk, Books, AllLists, TotalsOk, AttrsOk, NextOk, LinkRq;
    var s', q := LinkRq(s, r, key), s.attrs[r].q;
    AttrsAre(s, moving, r);
    BooksAre(s, moving);
    LinkBooks(s, r, key, moving, moving');
    BooksAre(s', moving');
    LinkRr(s, r, key);
    LinkQueue(s, r, key);
    LinkAttrs(s, r, key);
    assert HoleOf(s, q, Some(r)) == Some(r);
    LinkNext(s, r, key);
    forall p | p in s'.qs
      ensures NextOk(s'.qs[p], HoleOf(s', p, None))
    {
      assert p != q ==> HoleOf(s, p, Some(r)) == None;
    }
  }

  /** cfq_add_rq_rb puts a request in its place whether or not another one starts at its sector. */
  lemma AddRqRbKeeps(s: State, r: Id, key: int, moving': set<Id>)
    requires Mid(s, Some(r), {r}) && r in s.attrs && !s.attrs[r].place.sorted && !s.attrs[r].place.issued
    requires moving' == (if s.attrs[r].place.listed then {} else {r})
    ensures Mid(AddRqRb(s, r, key), None, moving')
  {
    hide Mid, LinkRq, DispatchInsert;
    if AliasOf(s, r).Some? {
      var x := AliasOf(s, r).value;
      AliasWaits(s, r);
      DispatchKeeps(s, x, Some(r), {r});
      var s1 := DispatchInsert(s, x);
      assert {r} - {x} == {r};
      DispatchShape(s, x);
      LinkKeeps(s1, r, key, {r}, moving');
    } else {
      LinkKeeps(s, r, key, {r}, moving');
    }
  }

  lemma AliasWaits(s: State, r: Id)
    requires Mid(s, Some(r), {r}) && r in s.attrs && !s.attrs[r].place.sorted && AliasOf(s, r).Some?
    ensures var x := AliasOf(s, r).value;
            && x in s.attrs && s.attrs[x].place == WAITING && x != r && s.attrs[x].q == s.attrs[r].q && s.attrs[x].q in s.qs
            && Alias(s.starts, Minus(s.qs[s.attrs[r].q].sort, x), SectorOf(s.starts, r)).None?
  {
    hide NextOk, RrOk, TotalsOk;
    var q, x := s.attrs[r].q, AliasOf(s, r).value;
    AttrsAre(s, {r}, r);
    assert ListsOk(s.qs[q], q, s.attrs, s.starts);
    OneAlias(s.starts, s.qs[q].sort, s.starts[r]);
    assert x in Sel(s.attrs, SortOf(q));
    AttrsAre(s, {r}, x);
  }

  // ---- operations ----

  lemma InsertKeeps(s: State, r: Id, q: Id, sync: bool, meta: bool, sector: nat, key: int)
    requires Inv(s) && r !in s.attrs && q in s.qs
    ensures Inv(InsertRequest(s, r, q, sync, meta, sector, key))
  {
    hide Mid, AddRqRb;
    var s0 := Enter(s, r, q, sync, meta, sector);
    EnterKeeps(s, r, q, sync, meta, sector);
    AddRqRbKeeps(s0, r, key, {r});
    var s1 := AddRqRb(s0, r, key);
    AddRqRbPlace(s0, r, key);
    ListKeeps(s1, r);
  }

  lemma EnterKeeps(s: State, r: Id, q: Id, sync: bool, meta: bool, sector: nat)
    requires Inv(s) && r !in s.attrs && q in s.qs
    ensures Mid(Enter(s, r, q, sync, meta, sector), Some(r), {r})
  {
    hide RrOk, Books, AttrsOk, AllLists, TotalsOk;
    var s' := Enter(s, r, q, sync, meta, sector);
    BooksAre(s, {});
    EnterBooks(s, r, q, sync, meta, sector);
    BooksAre(s', {r});
    RrFrame(s, s', {});
    forall p | p in s.qs
      ensures NextOk(s.qs[p], HoleOf(s', p, Some(r)))
    {
      assert NextOk(s.qs[p], HoleOf(s, p, None));
    }
  }

  lemma AddRqRbPlace(s: State, r: Id, key: int)
    requires Mid(s, Some(r), {r}) && r in s.attrs && !s.attrs[r].place.sorted && !s.attrs[r].place.issued
    ensures var s' := AddRqRb(s, r, key); r in s'.attrs && s'.attrs[r] == s.attrs[r].(place := s.attrs[r].place.(sorted := true))
  {
    hide LinkRq, DispatchInsert;
    AttrsAre(s, {r}, r);
    if AliasOf(s, r).Some? {
      AliasWaits(s, r);
      DispatchShape(s, AliasOf(s, r).value);
      LinkAttrs(DispatchInsert(s, AliasOf(s, r).value), r, key);
    } else {
      LinkAttrs(s, r, key);
    }
  }

  lemma ListKeeps(s: State, r: Id)
    requires Mid(s, None, {r}) && r in s.attrs && s.attrs[r].place == Spot(true, false, false)
    ensures Mid(List(s, r), None, {})
  {
    hide RrOk, Books, AttrsOk, AllLists, TotalsOk;
    var s', q := List(s, r), s.attrs[r].q;
    AttrsAre(s, {r}, r);
    BooksAre(s, {r});
    ListBooks(s, r, {r});
    assert {r} - {r} == {};
    BooksAre(s', {});
    RrFrame(s, s', {});
    NextStep(s, s', q, None);
  }

  lemma FrontMergeKeeps(s: State, r: Id, start: nat, key: int)
    requires Inv(s) && r in s.attrs && s.attrs[r].place == WAITING
    ensures Inv(FrontMerge(s, r, start, key))
  {
    hide Mid, AddRqRb;
    DetachKeeps(s, r, start);
    AddRqRbKeeps(Detach(s, r, start), r, key, {});
  }

  lemma DetachKeeps(s: State, r: Id, start: nat)
    requires Inv(s) && r in s.attrs && s.attrs[r].place == WAITING
    ensures Mid(Detach(s, r, start), Some(r), {r})
  {
    hide RrOk, Books, AttrsOk, AllLists, TotalsOk;
    var s1, s', q := Unsort(s, r), Detach(s, r, start), s.attrs[r].q;
    AttrsAre(s, {}, r);
    BooksAre(s, {});
    UnsortBooks(s, r, {});
    assert {} + {r} == {r};
    RestartBooks(s1, r, start);
    BooksAre(s', {r});
    RrFrame(s, s', {});
    OnSort(s, r);
    IdsMember(s.qs[q].sort, r);
    MinusFacts(s.qs[q].sort, r);
    forall p | p in s'.qs
      ensures NextOk(s'.qs[p], HoleOf(s', p, Some(r)))
    {
      assert NextOk(s.qs[p], HoleOf(s, p, None));
    }
  }

  lemma RestartBooks(s: State, r: Id, start: nat)
    requires Books(s, {r}) && r in s.attrs && !s.attrs[r].place.sorted
    ensures Books(s.(starts := s.starts[r := start]), {r})
  {
    hide ListsOk, AttrsOk, TotalsOk;
    var s' := s.(starts := s.starts[r := start]);
    forall p | p in s.qs
      ensures ListsOk(s.qs[p], p, s.attrs, s'.starts)
    {
      RestartLists(s.qs[p], p, s.attrs, s.starts, r, start);
    }
    AttrsRestart(s, r, start);
    TotalsFrame(s, s');
  }

  lemma RestartLists(c: Cfqq, p: Id, attrs: Attrs, starts: Starts, r: Id, start: nat)
    requires ListsOk(c, p, attrs, starts) && r in attrs && !attrs[r].place.sorted
    ensures ListsOk(c, p, attrs, starts[r := start])
  {
    ListFacts(c, p, attrs, starts, r);
    hide Sorted, Sel;
    StartsMove(c, starts, starts[r := start], r);
  }

  lemma AttrsRestart(s: State, r: Id, start: nat)
    requires AttrsOk(s, {r})
    ensures AttrsOk(s.(starts := s.starts[r := start]), {r})
  {
  }

  lemma MovedSame(fifo: seq<Id>, r: Id, y: Id)
    requires Distinct(fifo) && r in Ids(fifo)
    ensures Distinct(MovedBehind(fifo, r, y)) && Ids(MovedBehind(fifo, r, y)) == Ids(fifo)
  {
    hide Distinct, Ids, Minus;
    var p := Minus(fifo, r);
    IdsMember(fifo, r);
    MinusFacts(fifo, r);
    MinusDistinct(fifo, r);
    IdsMember(p, r);
    if y in p {
      InsertDistinct(p, IndexOf(p, y) + 1, r);
      InsertedIds(p, IndexOf(p, y) + 1, r);
    }
  }

  lemma AgeLists(s: State, r: Id, y: Id)
    requires AllLists(s) && r in s.attrs && s.attrs[r].place == WAITING && s.attrs[r].q in s.qs
    ensures AllLists(Age(s, r, y, true))
  {
    hide MovedBehind;
    var q := s.attrs[r].q;
    assert ListsOk(s.qs[q], q, s.attrs, s.starts);
    assert r in Sel(s.attrs, FifoOf(q));
    MovedSame(s.qs[q].fifo, r, y);
  }

  lemma AgeKeeps(s: State, r: Id, y: Id, older: bool)
    requires Inv(s) && r in s.attrs && s.attrs[r].place == WAITING
    ensures Inv(Age(s, r, y, older)) && Age(s, r, y, older).attrs == s.attrs
  {
    hide Mid;
    if older {
      AgingKeeps(s, r, y);
    }
  }

  lemma AgingKeeps(s: State, r: Id, y: Id)
    requires Inv(s) && r in s.attrs && s.attrs[r].place == WAITING
    ensures Inv(Age(s, r, y, true))
  {
    hide RrOk, AttrsOk, AllLists, MovedBehind, NextOk, TotalsOk;
    var s', q := Age(s, r, y, true), s.attrs[r].q;
    AttrsAre(s, {}, r);
    AgeLists(s, r, y);
    RrFrame(s, s', {});
    AttrsFrame(s, s', {});
    assert NextOk(s.qs[q], HoleOf(s, q, None));
    NextFrame(s.qs[q], s'.qs[q], None);
    NextStep(s, s', q, None);
    TotalsFrame(s, s');
  }

  lemma TotalsFrame(s: State, s': State)
    requires TotalsOk(s) && s'.attrs == s.attrs
    requires s'.rqQueued == s.rqQueued && s'.nrSorted == s.nrSorted && s'.syncFlight == s.syncFlight
    ensures TotalsOk(s')
  {
  }

  lemma AttrsFrame(s: State, s': State, moving: set<Id>)
    requires AttrsOk(s, moving) && s'.attrs == s.attrs && s'.starts == s.starts && s'.qs.Keys == s.qs.Keys
    requires forall q :: q in s.qs ==> s'.qs[q].sync == s.qs[q].sync
    ensures AttrsOk(s', moving)
  {
  }

  lemma ForgetLists(s: State, s': State, r: Id)
    requires AllLists(s) && r in s.attrs && s.attrs[r].place == NOWHERE
    requires s'.qs == s.qs && s'.starts == s.starts && s'.attrs == s.attrs - {r}
    ensures AllLists(s')
  {
    forall q | q in s.qs
      ensures ListsOk(s.qs[q], q, s'.attrs, s.starts)
    {
      assert ListsOk(s.qs[q], q, s.attrs, s.starts);
      SelGone(s.attrs, r, SortOf(q));
      SelGone(s.attrs, r, FifoOf(q));
      SelGone(s.attrs, r, SortWith(q, true));
      SelGone(s.attrs, r, SortWith(q, false));
      SelGone(s.attrs, r, IssuedOf(q));
    }
  }

  lemma SelGone(attrs: Attrs, r: Id, f: Filter)
    requires !Was(attrs, r, f)
    ensures Sel(attrs - {r}, f) == Sel(attrs, f)
  {
  }

  lemma MergeKeeps(s: State, r: Id, y: Id, older: bool)
    requires Inv(s) && r in s.attrs && y in s.attrs && s.attrs[r].place == s.attrs[y].place == WAITING
    ensures Inv(MergeRequests(s, r, y, older))
  {
    hide RrOk, AttrsOk, TotalsOk, AllLists, RemoveRequest, Age;
    var s0 := Age(s, r, y, older);
    AgeKeeps(s, r, y, older);
    RemoveKeeps(s0, y, None, {});
    assert {} + {y} == {y};
    AttrsAre(s0, {}, y);
    RemoveAttrs(s0, y);
    var s1, s' := RemoveRequest(s0, y), MergeRequests(s, r, y, older);
    ForgetLists(s1, s', y);
    ForgetRest(s1, s', y);
    RrFrame(s1, s', {});
  }

  lemma ForgetRest(s: State, s': State, r: Id)
    requires AttrsOk(s, {r}) && TotalsOk(s) && r in s.attrs && s.attrs[r].place == NOWHERE
    requires s' == s.(attrs := s.attrs - {r}, nrSorted := s.nrSorted - 1)
    ensures AttrsOk(s', {}) && TotalsOk(s')
  {
    hide AttrsOk, Sel, Matches;
    ForgetAttrs(s, s', r);
    MatchesAll(s.attrs[r]);
    SelRemove(s.attrs, r, AllListed);
    SelRemove(s.attrs, r, AllHeld);
    SelRemove(s.attrs, r, SyncIssued);
  }

  lemma ForgetAttrs(s: State, s': State, r: Id)
    requires AttrsOk(s, {r}) && s'.qs == s.qs && s'.starts == s.starts && s'.attrs == s.attrs - {r}
    ensures AttrsOk(s', {})
  {
  }

  lemma CompletedKeeps(s: State, r: Id)
    requires Inv(s) && r in s.attrs && s.attrs[r].place == ISSUED
    ensures Inv(Completed(s, r))
  {
    hide RrOk, AttrsOk, AllLists, TotalsOk;
    var s', q := Completed(s, r), s.attrs[r].q;
    AttrsAre(s, {}, r);
    CompletedLists(s, r);
    CompletedAttrs(s, r);
    CompletedTotals(s, r);
    RrFrame(s, s', {});
    NextStep(s, s', q, None);
  }

  lemma CompletedLists(s: State, r: Id)
    requires AllLists(s) && r in s.attrs && s.attrs[r].place == ISSUED && s.attrs[r].q in s.qs
    ensures AllLists(Completed(s, r))
  {
    var s' := Completed(s, r);
    forall q | q in s.qs
      ensures ListsOk(s'.qs[q], q, s'.attrs, s.starts)
    {
      assert ListsOk(s.qs[q], q, s.attrs, s.starts);
      SelGone(s.attrs, r, SortOf(q));
      SelGone(s.attrs, r, FifoOf(q));
      SelGone(s.attrs, r, SortWith(q, true));
      SelGone(s.attrs, r, SortWith(q, false));
      SelRemove(s.attrs, r, IssuedOf(q));
    }
  }

  lemma CompletedAttrs(s: State, r: Id)
    requires AttrsOk(s, {}) && r in s.attrs
    ensures AttrsOk(Completed(s, r), {})
  {
  }

  lemma CompletedTotals(s: State, r: Id)
    requires TotalsOk(s) && r in s.attrs && s.attrs[r].place == ISSUED && Q(s, s.attrs[r].q).sync == s.attrs[r].qsync
    ensures TotalsOk(Completed(s, r))
  {
    hide Sel;
    SelRemove(s.attrs, r, AllListed);
    SelRemove(s.attrs, r, AllHeld);
    SelRemove(s.attrs, r, SyncIssued);
  }

  lemma ResortKeeps(s: State, q: Id, key: int)
    requires Inv(s)
    ensures Inv(ResortRr(s, q, key))
  {
    hide RrOk, Books, AttrsOk, AllLists, TotalsOk, NextOk;
    if Q(s, q).onRr {
      var s' := ResortRr(s, q, key);
      ServiceTreeAddKeeps(s, q, key);
      TreeAddFrame(s, q, key);
      BooksAre(s, {});
      BooksFrame(s, s', {});
      BooksAre(s', {});
      forall p | p in s'.qs
        ensures NextOk(s'.qs[p], None)
      {
        assert NextOk(s.qs[p], HoleOf(s, p, None));
        NextFrame(s.qs[p], s'.qs[p], None);
      }
    }
  }

  lemma NextFrame(c: Cfqq, c': Cfqq, hole: Option<Id>)
    requires NextOk(c, hole) && c'.next == c.next && c'.sort == c.sort && c'.onRr == c.onRr
    ensures NextOk(c', hole)
  {
  }

  lemma TreeAddFrame(s: State, q: Id, key: int)
    requires q in s.qs
    ensures var s' := ServiceTreeAdd(s, q, key);
            && s'.qs.Keys == s.qs.Keys && (forall p :: p in s.qs ==> s'.qs[p] == s.qs[p].(key := s'.qs[p].key))
            && s' == s.(qs := s'.qs, rr := s'.rr, left := s'.left)
  {
    hide RrPlace;
  }

  /** cfq_rb_first returns the queue a scan of all queues would find, and caches it. */
  lemma RbFirstKeeps(s: State)
    requires Inv(s)
    ensures Inv(RbFirst(s))
  {
    hide RrOk, AttrsOk, AllLists, NextOk, TotalsOk;
    var s' := RbFirst(s);
    assert AllLists(s') by { assert AllLists(s); ListsFrame(s, s'); }
    AttrsFrame(s, s', {});
    TotalsFrame(s, s');
    CacheFills(s);
    assert forall q :: HoleOf(s', q, None) == HoleOf(s, q, None);
  }

  lemma ListsFrame(s: State, s': State)
    requires AllLists(s) && s'.qs == s.qs && s'.attrs == s.attrs && s'.starts == s.starts
    ensures AllLists(s')
  {
  }

  lemma CacheFills(s: State)
    requires RrOk(s, {})
    ensures RrOk(RbFirst(s), {})
  {
    OrderedFrame(s, RbFirst(s));
  }

  lemma FirstIsFirst(s: State)
    requires RrOk(s, {})
    ensures RbFirst(s).left.None? <==> forall q :: q in s.qs ==> !s.qs[q].onRr
    ensures RbFirst(s).left.Some? ==>
      var f := RbFirst(s).left.value;
      f in s.qs && s.qs[f].onRr && forall q :: q in s.qs && s.qs[q].onRr ==> InOrder(s.qs[f], s.qs[q])
  {
    EmptyIds(s.rr);
    forall q | q in s.qs && s.qs[q].onRr
      ensures s.rr != [] && InOrder(Q(s, s.rr[0]), Q(s, q))
    {
      FirstRanks(s, q);
    }
  }

  lemma FirstRanks(s: State, q: Id)
    requires RrOk(s, {}) && q in s.qs && s.qs[q].onRr
    ensures s.rr != [] && InOrder(Q(s, s.rr[0]), Q(s, q))
  {
    assert q in Ids(s.rr);
    var i :| 0 <= i < |s.rr| && s.rr[i] == q;
    assert i > 0 ==> InOrder(Q(s, s.rr[0]), Q(s, s.rr[i]));
  }

  // ---- every run ----

  /** What can happen to the scheduler.  A queue may change its class only while it is not busy. */
  datatype Event = Insert(r: Id, q: Id, sync: bool, meta: bool, sector: nat, key: int) | Front(r: Id, start: nat, key: int)
                 | Merge(r: Id, y: Id, older: bool) | Dispatch(r: Id) | Complete(r: Id) | Resort(q: Id, key: int) | First
                 | NewQueue(q: Id, cls: Class, sync: bool) | Reclass(q: Id, cls: Class) | Seek(to: nat)

  predicate Possible(s: State, e: Event) {
    match e
    case Insert(r, q, _, _, _, _) => r !in s.attrs && q in s.qs
    case Front(r, _, _) => r in s.attrs && s.attrs[r].place == WAITING
    case Merge(r, y, _) => r != y && r in s.attrs && y in s.attrs && s.attrs[r].q == s.attrs[y].q
                           && s.attrs[r].place == s.attrs[y].place == WAITING
    case Dispatch(r) => r in s.attrs && s.attrs[r].place == WAITING
    case Complete(r) => r in s.attrs && s.attrs[r].place == ISSUED
    case Resort(_, _) => true
    case First => true
    case NewQueue(q, _, _) => q !in s.qs
    case Reclass(q, _) => q in s.qs && !s.qs[q].onRr
    case Seek(_) => true
  }

  function Step(s: State, e: Event): State {
    match e
    case Insert(r, q, sync, meta, sector, key) => InsertRequest(s, r, q, sync, meta, sector, key)
    case Front(r, start, key) => FrontMerge(s, r, start, key)
    case Merge(r, y, older) => MergeRequests(s, r, y, older)
    case Dispatch(r) => DispatchInsert(s, r)
    case Complete(r) => Completed(s, r)
    case Resort(q, key) => ResortRr(s, q, key)
    case First => RbFirst(s)
    case NewQueue(q, cls, sync) => SetQ(s, q, NO_QUEUE.(cls := cls, sync := sync))
    case Reclass(q, cls) => SetQ(s, q, Q(s, q).(cls := cls))
    case Seek(to) => s.(last := to)
  }

  predicate Run(s: State, es: seq<Event>)
    decreases |es|
  {
    es == [] || (Possible(s, es[0]) && Run(Step(s, es[0]), es[1..]))
  }

  function After(s: State, es: seq<Event>): State
    decreases |es|
  {
    if es == [] then s else After(Step(s, es[0]), es[1..])
  }

  function Empty(backMax: nat, penalty: nat): State {
    State(map[], map[], map[], [], None, 0, 0, 0, 0, backMax, penalty, [], 0)
  }

  lemma EmptyInv(backMax: nat, penalty: nat)
    ensures Inv(Empty(backMax, penalty))
  {
    var s := Empty(backMax, penalty);
    assert Sel(s.attrs, AllListed) == {} && Sel(s.attrs, AllHeld) == {} && Sel(s.attrs, SyncIssued) == {};
  }

  lemma NewQueueKeeps(s: State, q: Id, cls: Class, sync: bool)
    requires Inv(s) && q !in s.qs
    ensures Inv(Step(s, NewQueue(q, cls, sync)))
  {
    hide TotalsOk, NextOk, ListsOk, RrOk, AttrsOk;
    var s', c := Step(s, NewQueue(q, cls, sync)), NO_QUEUE.(cls := cls, sync := sync);
    NoRequests(s, q);
    assert ListsOk(c, q, s.attrs, s.starts) && NextOk(c, None) by { FreshQueue(c, q, s.attrs, s.starts); }
    NewQueueRest(s, q, c);
    TotalsFrame(s, s');
    assert forall p :: HoleOf(s', p, None) == HoleOf(s, p, None);
  }

  lemma FreshQueue(c: Cfqq, q: Id, attrs: Attrs, starts: Starts)
    requires c == NO_QUEUE.(cls := c.cls, sync := c.sync)
    requires Sel(attrs, SortOf(q)) == Sel(attrs, FifoOf(q)) == Sel(attrs, IssuedOf(q)) == {}
    requires Sel(attrs, SortWith(q, true)) == Sel(attrs, SortWith(q, false)) == {}
    ensures ListsOk(c, q, attrs, starts) && NextOk(c, None)
  {
  }

  lemma NewQueueRest(s: State, q: Id, c: Cfqq)
    requires RrOk(s, {}) && AttrsOk(s, {}) && q !in s.qs && !c.onRr
    ensures RrOk(SetQ(s, q, c), {}) && AttrsOk(SetQ(s, q, c), {})
  {
    assert forall p :: p in Ids(s.rr) ==> p != q;
    assert forall i :: 0 <= i < |s.rr| ==> s.rr[i] in Ids(s.rr);
    OrderedFrame(s, SetQ(s, q, c));
  }

  lemma NoRequests(s: State, q: Id)
    requires AttrsOk(s, {}) && q !in s.qs
    ensures Sel(s.attrs, SortOf(q)) == Sel(s.attrs, FifoOf(q)) == Sel(s.attrs, IssuedOf(q)) == {}
    ensures Sel(s.attrs, SortWith(q, true)) == Sel(s.attrs, SortWith(q, false)) == {}
  {
  }

  lemma ReclassKeeps(s: State, q: Id, cls: Class)
    requires Inv(s) && q in s.qs && !s.qs[q].onRr
    ensures Inv(Step(s, Reclass(q, cls)))
  {
    hide AllLists, AttrsOk, TotalsOk, NextOk, Books;
    var s' := Step(s, Reclass(q, cls));
    BooksAre(s, {});
    BooksFrame(s, s', {});
    BooksAre(s', {});
    assert forall p :: p in Ids(s.rr) ==> p != q && Q(s', p) == Q(s, p);
    assert forall i :: 0 <= i < |s.rr| ==> s.rr[i] in Ids(s.rr);
    OrderedFrame(s, s');
    assert NextOk(s.qs[q], HoleOf(s, q, None));
    NextFrame(s.qs[q], s'.qs[q], None);
    NextStep(s, s', q, None);
  }

  lemma SeekKeeps(s: State, to: nat)
    requires Inv(s)
    ensures Inv(s.(last := to))
  {
    hide AllLists, AttrsOk, TotalsOk, NextOk, RrOk;
    var s' := s.(last := to);
    ListsFrame(s, s');
    AttrsFrame(s, s', {});
    TotalsFrame(s, s');
    RrFrame(s, s', {});
    assert forall p :: HoleOf(s', p, None) == HoleOf(s, p, None);
  }

  lemma StepKeepsInv(s: State, e: Event)
    requires Inv(s) && Possible(s, e)
    ensures Inv(Step(s, e))
  {
    hide Mid;
    assert forall r: Id :: {} - {r} == {};
    match e
    case Insert(r, q, sync, meta, sector, key) => InsertKeeps(s, r, q, sync, meta, sector, key);
    case Front(r, start, key) => FrontMergeKeeps(s, r, start, key);
    case Merge(r, y, older) => MergeKeeps(s, r, y, older);
    case Dispatch(r) => DispatchKeeps(s, r, None, {});
    case Complete(r) => CompletedKeeps(s, r);
    case Resort(q, key) => ResortKeeps(s, q, key);
    case First => RbFirstKeeps(s);
    case NewQueue(q, cls, sync) => NewQueueKeeps(s, q, cls, sync);
    case Reclass(q, cls) => ReclassKeeps(s, q, cls);
    case Seek(to) => SeekKeeps(s, to);
  }

  lemma {:induction false} RunKeepsInv(s: State, es: seq<Event>)
    requires Inv(s) && Run(s, es)
    ensures Inv(After(s, es))
    decreases |es|
  {
    hide Inv, Step;
    if es != [] {
      StepKeepsInv(s, es[0]);
      RunKeepsInv(Step(s, es[0]), es[1..]);
    }
  }

  /** Between calls, whatever happened before: busy, sorted list, next_rq and service tree agree for
      every queue, the fifo holds the requests of the sorted list, and every counter counts. */
  lemma EveryRunIsSound(backMax: nat, penalty: nat, es: seq<Event>, q: Id)
    requires Run(Empty(backMax, penalty), es) && q in After(Empty(backMax, penalty), es).qs
    ensures var s := After(Empty(backMax, penalty), es);
            var c := s.qs[q];
            && (c.onRr <==> c.sort != []) && (c.onRr <==> q in s.rr) && (c.next.None? <==> c.sort == [])
            && (c.next.Some? ==> c.next.value in c.sort) && Sorted(s.starts, c.sort)
            && Ids(c.fifo) == Ids(c.sort) == (set r | r in s.attrs && s.attrs[r].q == q && s.attrs[r].place == WAITING)
            && c.queuedSync == |set r | r in s.attrs && s.attrs[r].q == q && s.attrs[r].place == WAITING && s.attrs[r].sync|
            && c.queuedAsync == |set r | r in s.attrs && s.attrs[r].q == q && s.attrs[r].place == WAITING && !s.attrs[r].sync|
            && c.dispatched == |set r | r in s.attrs && s.attrs[r].q == q && s.attrs[r].place == ISSUED|
  {
    hide Run, After, RrOk, TotalsOk;
    var s := After(Empty(backMax, penalty), es);
    EmptyInv(backMax, penalty);
    RunKeepsInv(Empty(backMax, penalty), es);
    assert ListsOk(s.qs[q], q, s.attrs, s.starts) && NextOk(s.qs[q], HoleOf(s, q, None));
    SettledSets(s, q);
    OnTree(s, q);
    var c := s.qs[q];
    assert c.next.Some? ==> c.next.value in c.sort by {
      if c.next.Some? {
        IdsMember(c.sort, c.next.value);
      }
    }
  }

  /** And so do the counters of the whole scheduler, and the cached leftmost queue is first. */
  lemma EveryRunCounts(backMax: nat, penalty: nat, es: seq<Event>)
    requires Run(Empty(backMax, penalty), es)
    ensures var s := After(Empty(backMax, penalty), es);
            && s.busy == |set q | q in s.qs && s.qs[q].onRr|
            && s.rqQueued == s.nrSorted == |set r | r in s.attrs && s.attrs[r].place == WAITING|
            && s.syncFlight == |set r | r in s.attrs && s.attrs[r].place == ISSUED && Q(s, s.attrs[r].q).sync|
            && (s.left.Some? ==> s.left.value in s.qs && s.qs[s.left.value].onRr
                                 && forall q :: q in s.qs && s.qs[q].onRr ==> InOrder(s.qs[s.left.value], s.qs[q]))
  {
    hide Run, After;
    var s := After(Empty(backMax, penalty), es);
    EmptyInv(backMax, penalty);
    RunKeepsInv(Empty(backMax, penalty), es);
    CountsAre(s);
    LeftIsFirst(s);
  }

  lemma CountsAre(s: State)
    requires Inv(s)
    ensures s.busy == |set q | q in s.qs && s.qs[q].onRr|
    ensures s.rqQueued == s.nrSorted == |set r | r in s.attrs && s.attrs[r].place == WAITING|
    ensures s.syncFlight == |set r | r in s.attrs && s.attrs[r].place == ISSUED && Q(s, s.attrs[r].q).sync|
  {
    hide Ordered, AllLists, AllNext;
    assert (set r | r in s.attrs && s.attrs[r].place == WAITING) == Sel(s.attrs, AllListed) == Sel(s.attrs, AllHeld);
    assert (set r | r in s.attrs && s.attrs[r].place == ISSUED && Q(s, s.attrs[r].q).sync) == Sel(s.attrs, SyncIssued);
    assert (set q | q in s.qs && s.qs[q].onRr) == Ids(s.rr);
    DistinctSize(s.rr);
  }

  lemma LeftIsFirst(s: State)
    requires Inv(s)
    ensures s.left.Some? ==> s.left.value in s.qs && s.qs[s.left.value].onRr
                             && forall q :: q in s.qs && s.qs[q].onRr ==> InOrder(s.qs[s.left.value], s.qs[q])
  {
    hide AllLists, AllNext, AttrsOk, TotalsOk;
    FirstIsFirst(s);
  }

  lemma OnTree(s: State, q: Id)
    requires RrOk(s, {}) && q in s.qs
    ensures s.qs[q].onRr <==> q in s.rr
  {
    IdsMember(s.rr, q);
  }

  lemma SettledSets(s: State, q: Id)
    requires AttrsOk(s, {})
    ensures Sel(s.attrs, SortOf(q)) == Sel(s.attrs, FifoOf(q)) == (set r | r in s.attrs && s.attrs[r].q == q && s.attrs[r].place == WAITING)
    ensures Sel(s.attrs, SortWith(q, true)) == (set r | r in s.attrs && s.attrs[r].q == q && s.attrs[r].place == WAITING && s.attrs[r].sync)
    ensures Sel(s.attrs, SortWith(q, false)) == (set r | r in s.attrs && s.attrs[r].q == q && s.attrs[r].place == WAITING && !s.attrs[r].sync)
    ensures Sel(s.attrs, IssuedOf(q)) == (set r | r in s.attrs && s.attrs[r].q == q && s.attrs[r].place == ISSUED)
  {
  }

  // ---- draining ----

  /** With no busy queue left nothing waits anywhere. */
  lemma IdleIsEmpty(s: State)
    requires Inv(s) && s.rr == []
    ensures s.busy == 0 && s.rqQueued == 0 && s.nrSorted == 0
    ensures forall r :: r in s.attrs ==> s.attrs[r].place == ISSUED
    ensures forall q :: q in s.qs ==> !s.qs[q].onRr && s.qs[q].sort == [] && s.qs[q].fifo == [] && s.qs[q].next.None?
  {
    forall q | q in s.qs
      ensures !s.qs[q].onRr && s.qs[q].sort == [] && s.qs[q].fifo == [] && s.qs[q].next.None?
    {
      QuietQueue(s, q);
    }
    forall r | r in s.attrs
      ensures s.attrs[r].place == ISSUED
    {
      if s.attrs[r].place == WAITING {
        OnSort(s, r);
        assert false;
      }
    }
    CountsAre(s);
    assert (set r | r in s.attrs && s.attrs[r].place == WAITING) == {};
  }

  /** A queue that is not busy has nothing on either list: BUG_ON(!list_empty(&cfqq->fifo)). */
  lemma QuietQueue(s: State, q: Id)
    requires Inv(s) && q in s.qs && (s.qs[q].next.None? || s.rr == [])
    ensures !s.qs[q].onRr && s.qs[q].sort == [] && s.qs[q].fifo == [] && s.qs[q].next.None?
  {
    hide TotalsOk, Sorted;
    var c := s.qs[q];
    assert ListsOk(c, q, s.attrs, s.starts) && NextOk(c, HoleOf(s, q, None));
    assert c.onRr <==> q in Ids(s.rr);
    SettledSets(s, q);
    EmptyIds(c.sort);
    EmptyIds(c.fifo);
  }

  /** s0 becomes s by handing over the requests d, in this order. */
  ghost predicate Handed(s0: State, s: State, d: seq<Id>) {
    && s.handed == s0.handed + d && Distinct(d) && s.qs.Keys == s0.qs.Keys && s.nrSorted == s0.nrSorted - |d|
    && s.attrs.Keys == s0.attrs.Keys && Ids(d) <= s0.attrs.Keys
    && forall r :: r in s0.attrs ==>
         if r in Ids(d) then s0.attrs[r].place == WAITING && s.attrs[r] == s0.attrs[r].(place := ISSUED) else s.attrs[r] == s0.attrs[r]
  }

  lemma HandedStep(s0: State, s: State, d: seq<Id>, r: Id)
    requires Handed(s0, s, d) && r in s.attrs && s.attrs[r].place == WAITING && s.attrs[r].q in s.qs
    ensures Handed(s0, DispatchInsert(s, r), d + [r])
  {
    hide DispatchInsert;
    DispatchShape(s, r);
    DispatchCounts(s, r);
    var d' := d + [r];
    assert d' == d[..|d|] + [r] + d[|d|..];
    InsertedIds(d, |d|, r);
    IdsMember(d, r);
    InsertDistinct(d, |d|, r);
  }

  lemma DispatchCounts(s: State, r: Id)
    ensures DispatchInsert(s, r).nrSorted == s.nrSorted - 1
  {
    hide FindNext;
  }

  /** A drain that leaves nothing busy has handed over every waiting request exactly once. */
  lemma HandedAll(s0: State, s: State, d: seq<Id>)
    requires Handed(s0, s, d) && Inv(s) && s.rr == []
    ensures Ids(d) == (set r | r in s0.attrs && s0.attrs[r].place == WAITING) && |d| == s0.nrSorted
  {
    IdleIsEmpty(s);
  }

  /** What cfq_forced_dispatch finds at the head of a busy queue. */
  lemma NextWaits(s: State, q: Id)
    requires Inv(s) && q in s.qs && s.qs[q].next.Some?
    ensures var r := s.qs[q].next.value; r in s.attrs && s.attrs[r].place == WAITING && s.attrs[r].q == q && r in s.qs[q].sort
  {
    hide RrOk, TotalsOk;
    var c := s.qs[q];
    assert ListsOk(c, q, s.attrs, s.starts) && NextOk(c, HoleOf(s, q, None));
    assert c.next.value in Sel(s.attrs, SortOf(q));
    IdsMember(c.sort, c.next.value);
  }
}
