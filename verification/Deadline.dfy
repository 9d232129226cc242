/** The deadline scheduler: per direction a sector-sorted tree and a fifo over the same requests, a
    shared batch counter and a write-starvation counter. */
module Deadline {

  import opened Options
  import opened IdSeq
  import opened SectorTree

  datatype Dir = Read | Write

  /** What the scheduler looks at in a request; expire is its fifo time. */
  datatype Attr = Attr(dir: Dir, sector: nat, sectors: nat, expire: nat)

  type Attrs = map<Id, Attr>

  /** sort_list, fifo_list and next_rq of one direction. */
  datatype Lane = Lane(tree: seq<Id>, fifo: seq<Id>, next: Option<Id>)

  /** Settings: fifo_expire[2], fifo_batch, writes_starved. */
  datatype Tunables = Tunables(readExpire: nat, writeExpire: nat, fifoBatch: nat, writesStarved: nat)

  /** queue: the dispatch queue the scheduler feeds at its tail; nrSorted: q->nr_sorted. */
  datatype State = State(tun: Tunables, attrs: Attrs, read: Lane, write: Lane, batching: nat, lastSector: nat,
                         starved: nat, nrSorted: int, queue: seq<Id>, now: nat)

  function Init(tun: Tunables): State {
    State(tun, map[], Lane([], [], None), Lane([], [], None), 0, 0, 0, 0, [], 0)
  }

  function Get(s: State, d: Dir): Lane { if d.Read? then s.read else s.write }

  function Put(s: State, d: Dir, l: Lane): State { if d.Read? then s.(read := l) else s.(write := l) }

  function Expire(tun: Tunables, d: Dir): nat { if d.Read? then tun.readExpire else tun.writeExpire }

  // ---- the tree ----

  /** Where the requests start. */
  function StartsOf(attrs: Attrs): Starts { map x | x in attrs :: attrs[x].sector }

  // ---- deadline-iosched.c ----

  /** deadline_move_request: x becomes the head position and goes to the dispatch queue. */
  function MoveRequest(s: State, x: Id): State {
    var d := if x in s.attrs then s.attrs[x].dir else Read;
    var l := Get(s, d);
    var s1 := s.(read := s.read.(next := None), write := s.write.(next := None));
    var s2 := Put(s1, d, Lane(Minus(l.tree, x), Minus(l.fifo, x), Latter(l.tree, x)));
    s2.(lastSector := if x in s.attrs then s.attrs[x].sector + s.attrs[x].sectors else 0,
        nrSorted := s.nrSorted - 1, queue := s.queue + [x])
  }

  /** deadline_add_rq_rb: a request at the same sector is dispatched first. */
  function AddRqRb(s: State, x: Id): State
    requires x in s.attrs
  {
    var d := s.attrs[x].dir;
    var alias := Alias(StartsOf(s.attrs), Get(s, d).tree, s.attrs[x].sector);
    var s1 := if alias.Some? then MoveRequest(s, alias.value) else s;
    Put(s1, d, Get(s1, d).(tree := Inserted(StartsOf(s.attrs), Get(s1, d).tree, x)))
  }

  /** elv_insert's accounting and deadline_add_request. */
  function AddRequest(s: State, x: Id, d: Dir, sector: nat, sectors: nat): State {
    var s0 := s.(attrs := s.attrs[x := Attr(d, sector, sectors, s.now + Expire(s.tun, d))], nrSorted := s.nrSorted + 1);
    var s1 := AddRqRb(s0, x);
    Put(s1, d, Get(s1, d).(fifo := Get(s1, d).fifo + [x]))
  }

  /** A bio merged at the back: the scheduler does not look. */
  function BackMerge(s: State, x: Id, n: nat): State
    requires x in s.attrs
  {
    s.(attrs := s.attrs[x := s.attrs[x].(sectors := s.attrs[x].sectors + n)])
  }

  /** A bio merged at the front: deadline_merged_request repositions the request. */
  function FrontMerge(s: State, x: Id, n: nat): State
    requires x in s.attrs && n <= s.attrs[x].sector
  {
    var a := s.attrs[x];
    var s0 := s.(attrs := s.attrs[x := a.(sector := a.sector - n, sectors := a.sectors + n)]);
    AddRqRb(Put(s0, a.dir, Get(s0, a.dir).(tree := Minus(Get(s0, a.dir).tree, x))), x)
  }

  /** attempt_merge of y into x: deadline_merged_requests and elv_merge_requests. */
  function MergeRequests(s: State, x: Id, y: Id): State
    requires x in s.attrs && y in s.attrs
  {
    var d := s.attrs[x].dir;
    var l := Get(s, d);
    var early := s.attrs[y].expire < s.attrs[x].expire;
    var a := s.attrs[x].(sectors := s.attrs[x].sectors + s.attrs[y].sectors,
                         expire := if early then s.attrs[y].expire else s.attrs[x].expire);
    var fifo := if early then MovedBehind(l.fifo, x, y) else l.fifo;
    var next := if l.next == Some(y) then Latter(l.tree, y) else l.next;
    Put(s, d, Lane(Minus(l.tree, y), Minus(fifo, y), next)).(attrs := s.attrs[x := a] - {y}, nrSorted := s.nrSorted - 1)
  }

  predicate Expired(s: State, x: Id) { x in s.attrs && s.now > s.attrs[x].expire }

  /** deadline_check_fifo: only the head is looked at. */
  predicate CheckFifo(s: State, d: Dir) { Get(s, d).fifo != [] && Expired(s, Get(s, d).fifo[0]) }

  /** The direction deadline_dispatch_requests turns to when it starts a batch. */
  function BatchDir(s: State): Dir {
    if s.read.fifo == [] then Write
    else if s.write.fifo != [] && s.starved >= s.tun.writesStarved then Write
    else Read
  }

  function NextOfBatch(s: State): Option<Id> { if s.write.next.Some? then s.write.next else s.read.next }

  predicate Idle(s: State) { s.read.fifo == [] && s.write.fifo == [] }

  /** A next request in sort order and still entitled to batch. */
  predicate Continues(s: State) { NextOfBatch(s).Some? && s.batching < s.tun.fifoBatch }

  /** The request deadline_dispatch_requests settles on. */
  function Choice(s: State): Id
    requires Continues(s) || !Idle(s)
  {
    if Continues(s) then NextOfBatch(s).value
    else
      var l := Get(s, BatchDir(s));
      if CheckFifo(s, BatchDir(s)) || l.next.None? then l.fifo[0] else l.next.value
  }

  /** The batch and starvation counters of one successful call. */
  function Counted(s: State): State {
    if Continues(s) then s.(batching := s.batching + 1)
    else
      s.(batching := 1,
         starved := if BatchDir(s).Write? then 0 else if s.write.fifo != [] then s.starved + 1 else s.starved)
  }

  /** deadline_dispatch_requests; it fails, and changes nothing, when nothing is queued. */
  function Dispatch(s: State): State {
    if Continues(s) || !Idle(s) then MoveRequest(Counted(s), Choice(s)) else s
  }

  // ---- the structural invariant ----

  ghost predicate TreeOk(attrs: Attrs, d: Dir, tree: seq<Id>) {
    && Sorted(StartsOf(attrs), tree)
    && (forall i :: 0 <= i < |tree| ==> tree[i] in attrs && attrs[tree[i]].dir == d)
  }

  function ExpireOf(attrs: Attrs, x: Id): int { if x in attrs then attrs[x].expire else 0 }

  /** Sorted by expiry, and nothing expires later than a request added now would. */
  ghost predicate FifoOk(attrs: Attrs, fifo: seq<Id>, latest: int) {
    && Distinct(fifo)
    && (forall i, j :: 0 <= i < j < |fifo| ==> ExpireOf(attrs, fifo[i]) <= ExpireOf(attrs, fifo[j]))
    && (forall i :: 0 <= i < |fifo| ==> ExpireOf(attrs, fifo[i]) <= latest)
  }

  ghost predicate LaneOk(attrs: Attrs, d: Dir, l: Lane, latest: int) {
    && TreeOk(attrs, d, l.tree) && FifoOk(attrs, l.fifo, latest)
    && Ids(l.tree) == Ids(l.fifo)
    && (l.next.Some? ==> l.next.value in Ids(l.tree))
  }

  ghost predicate Inv(s: State) {
    && LaneOk(s.attrs, Read, s.read, s.now + s.tun.readExpire)
    && LaneOk(s.attrs, Write, s.write, s.now + s.tun.writeExpire)
    && (s.read.next.None? || s.write.next.None?)
    && s.nrSorted == |s.read.tree| + |s.write.tree|
    && s.starved <= s.tun.writesStarved
  }

  // ---- removing and inserting ids ----

  lemma TreeDistinct(attrs: Attrs, d: Dir, tree: seq<Id>)
    requires TreeOk(attrs, d, tree)
    ensures Distinct(tree)
  {
    SortedDistinct(StartsOf(attrs), tree);
  }

  lemma TreeMinus(attrs: Attrs, d: Dir, tree: seq<Id>, x: Id)
    requires TreeOk(attrs, d, tree) && x in tree
    ensures TreeOk(attrs, d, Minus(tree, x))
    ensures Latter(tree, x).Some? ==> Latter(tree, x).value in Minus(tree, x)
  {
    TreeDistinct(attrs, d, tree);
    SortedMinus(StartsOf(attrs), tree, x);
    MinusFacts(tree, x);
    hide Sorted;
    var k, p := IndexOf(tree, x), Minus(tree, x);
    if k + 1 < |tree| {
      assert p[k] == tree[k + 1];
    }
  }

  lemma FifoMinus(attrs: Attrs, fifo: seq<Id>, latest: int, x: Id)
    requires FifoOk(attrs, fifo, latest) && x in fifo
    ensures FifoOk(attrs, Minus(fifo, x), latest)
  {
    MinusFacts(fifo, x);
  }

  /** Attributes of requests outside the tree or fifo do not matter. */
  lemma TreeFrame(attrs: Attrs, attrs': Attrs, d: Dir, tree: seq<Id>)
    requires TreeOk(attrs, d, tree)
    requires forall i :: 0 <= i < |tree| ==>
      tree[i] in attrs' && attrs'[tree[i]].dir == attrs[tree[i]].dir && attrs'[tree[i]].sector == attrs[tree[i]].sector
    ensures TreeOk(attrs', d, tree)
  {
    SortedFrame(StartsOf(attrs), StartsOf(attrs'), tree);
  }

  lemma FifoFrame(attrs: Attrs, attrs': Attrs, fifo: seq<Id>, latest: int, latest': int)
    requires FifoOk(attrs, fifo, latest) && latest <= latest'
    requires forall i :: 0 <= i < |fifo| ==> ExpireOf(attrs', fifo[i]) == ExpireOf(attrs, fifo[i])
    ensures FifoOk(attrs', fifo, latest')
  {
    forall i, j | 0 <= i < j < |fifo|
      ensures ExpireOf(attrs', fifo[i]) <= ExpireOf(attrs', fifo[j])
    {
      assert ExpireOf(attrs, fifo[i]) <= ExpireOf(attrs, fifo[j]);
    }
  }

  /** elv_rb_add keeps the tree strictly sorted when no request starts at the same sector. */
  lemma TreeInsert(attrs: Attrs, d: Dir, tree: seq<Id>, x: Id)
    requires TreeOk(attrs, d, tree) && x in attrs && attrs[x].dir == d
    requires Alias(StartsOf(attrs), tree, attrs[x].sector).None?
    ensures TreeOk(attrs, d, Inserted(StartsOf(attrs), tree, x))
    ensures Ids(Inserted(StartsOf(attrs), tree, x)) == Ids(tree) + {x} && |Inserted(StartsOf(attrs), tree, x)| == |tree| + 1
  {
    var p := Inserted(StartsOf(attrs), tree, x);
    SortedInsert(StartsOf(attrs), tree, x);
    hide Sorted;
    var i := Place(StartsOf(attrs), tree, attrs[x].sector);
    assert forall j {:trigger p[j]} :: 0 <= j < |p| ==> p[j] == if j < i then tree[j] else if j == i then x else tree[j - 1];
  }

  // ---- every operation keeps the invariant ----

  function Other(d: Dir): Dir { if d.Read? then Write else Read }

  function Latest(s: State, d: Dir): int { s.now + Expire(s.tun, d) }

  /** Lane d without its request x: what deadline_move_request leaves. */
  lemma MoveLane(s: State, x: Id, d: Dir)
    requires TreeOk(s.attrs, d, Get(s, d).tree) && FifoOk(s.attrs, Get(s, d).fifo, Latest(s, d))
    requires x in Get(s, d).tree && x in Get(s, d).fifo
    ensures x in s.attrs && s.attrs[x].dir == d
    ensures var s', l, l' := MoveRequest(s, x), Get(s, d), Get(MoveRequest(s, x), d);
            && TreeOk(s'.attrs, d, l'.tree) && FifoOk(s'.attrs, l'.fifo, Latest(s', d))
            && l'.tree == Minus(l.tree, x) && Ids(l'.tree) == Ids(l.tree) - {x} && |l'.tree| == |l.tree| - 1
            && l'.fifo == Minus(l.fifo, x) && Ids(l'.fifo) == Ids(l.fifo) - {x}
            && (l'.next.Some? ==> l'.next.value in Ids(l'.tree))
            && Get(s', Other(d)) == Get(s, Other(d)).(next := None)
            && s'.attrs == s.attrs && s'.nrSorted == s.nrSorted - 1 && s'.queue == s.queue + [x]
  {
    var l := Get(s, d);
    TreeDistinct(s.attrs, d, l.tree);
    MinusFacts(l.tree, x);
    TreeMinus(s.attrs, d, l.tree, x);
    MinusFacts(l.fifo, x);
    FifoMinus(s.attrs, l.fifo, Latest(s, d), x);
  }

  lemma MoveKeeps(s: State, x: Id, d: Dir)
    requires Inv(s) && x in Get(s, d).tree
    ensures Inv(MoveRequest(s, x))
  {
    hide TreeOk, FifoOk, MoveRequest;
    assert x in Ids(Get(s, d).tree);
    MoveLane(s, x, d);
    var s' := MoveRequest(s, x);
    assert s'.now == s.now && s'.tun == s.tun && s'.starved == s.starved by {
      MoveFrame(s, x);
    }
  }

  lemma MoveFrame(s: State, x: Id)
    ensures var s' := MoveRequest(s, x);
            s'.now == s.now && s'.tun == s.tun && s'.starved == s.starved && s'.batching == s.batching
  {
  }

  /** The lanes while request x is in its fifo but not, or not yet, in its tree. */
  ghost predicate Gap(s: State, d: Dir, x: Id, inFifo: bool) {
    var l, o := Get(s, d), Get(s, Other(d));
    && x in s.attrs && s.attrs[x].dir == d
    && TreeOk(s.attrs, d, l.tree) && FifoOk(s.attrs, l.fifo, Latest(s, d)) && x !in Ids(l.tree)
    && Ids(l.fifo) == (if inFifo then Ids(l.tree) + {x} else Ids(l.tree))
    && LaneOk(s.attrs, Other(d), o, Latest(s, Other(d)))
    && (l.next.None? || o.next.None?) && (l.next.Some? ==> l.next.value == x || l.next.value in Ids(l.tree))
    && s.nrSorted == |l.tree| + |o.tree| + 1 && s.starved <= s.tun.writesStarved
  }

  lemma MoveInGap(s: State, d: Dir, x: Id, inFifo: bool, alias: Id)
    requires Gap(s, d, x, inFifo) && alias in Get(s, d).tree
    ensures Gap(MoveRequest(s, alias), d, x, inFifo)
    ensures Get(MoveRequest(s, alias), d).tree == Minus(Get(s, d).tree, alias)
    ensures MoveRequest(s, alias).attrs == s.attrs
  {
    hide TreeOk, FifoOk, MoveRequest;
    assert alias in Ids(Get(s, d).tree) && alias in Ids(Get(s, d).fifo);
    MoveLane(s, alias, d);
    MoveFrame(s, alias);
  }

  /** deadline_add_rq_rb puts x into the tree, with the alias, if any, dispatched. */
  lemma AddRqRbFills(s: State, d: Dir, x: Id, inFifo: bool)
    requires Gap(s, d, x, inFifo)
    ensures var s', l := AddRqRb(s, x), Get(AddRqRb(s, x), d);
            && TreeOk(s'.attrs, d, l.tree) && FifoOk(s'.attrs, l.fifo, Latest(s', d))
            && Ids(l.tree) == (if inFifo then Ids(l.fifo) else Ids(l.fifo) + {x}) && x in Ids(l.tree)
            && (!inFifo ==> x !in Ids(l.fifo))
            && LaneOk(s'.attrs, Other(d), Get(s', Other(d)), Latest(s', Other(d)))
            && (l.next.None? || Get(s', Other(d)).next.None?) && (l.next.Some? ==> l.next.value in Ids(l.tree))
            && s'.nrSorted == |l.tree| + |Get(s', Other(d)).tree| && s'.starved <= s'.tun.writesStarved
            && s'.attrs == s.attrs && s'.now == s.now && s'.tun == s.tun
  {
    hide TreeOk, FifoOk, MoveRequest, LaneOk, Inserted, Alias, StartsOf, Minus;
    var alias := Alias(StartsOf(s.attrs), Get(s, d).tree, s.attrs[x].sector);
    var s1 := s;
    if alias.Some? {
      TreeSorted(s.attrs, d, Get(s, d).tree);
      OneAlias(StartsOf(s.attrs), Get(s, d).tree, s.attrs[x].sector);
      MoveInGap(s, d, x, inFifo, alias.value);
      MoveFrame(s, alias.value);
      s1 := MoveRequest(s, alias.value);
    }
    TreeInsert(s1.attrs, d, Get(s1, d).tree, x);
    assert x in Ids(Inserted(StartsOf(s1.attrs), Get(s1, d).tree, x));
  }

  lemma TreeSorted(attrs: Attrs, d: Dir, tree: seq<Id>)
    requires TreeOk(attrs, d, tree)
    ensures Sorted(StartsOf(attrs), tree)
  {
  }

  lemma OtherLaneFrame(attrs: Attrs, attrs': Attrs, d: Dir, l: Lane, latest: int, x: Id)
    requires LaneOk(attrs, d, l, latest) && x !in Ids(l.tree)
    requires forall y :: y in attrs && y != x ==> y in attrs' && attrs'[y] == attrs[y]
    ensures LaneOk(attrs', d, l, latest)
  {
    assert forall i :: 0 <= i < |l.tree| ==> l.tree[i] in Ids(l.tree);
    assert forall i :: 0 <= i < |l.fifo| ==> l.fifo[i] in Ids(l.fifo);
    assert forall i :: 0 <= i < |l.fifo| ==> l.fifo[i] in l.tree && l.fifo[i] in attrs;
    TreeFrame(attrs, attrs', d, l.tree);
    FifoFrame(attrs, attrs', l.fifo, latest, latest);
  }

  /** The lanes hold requests of their own direction only. */
  lemma LanesApart(s: State, d: Dir, x: Id)
    requires Inv(s) && x in Ids(Get(s, d).tree)
    ensures x !in Ids(Get(s, Other(d)).tree)
  {
    assert x in s.attrs && s.attrs[x].dir == d;
  }

  lemma FifoAppend(attrs: Attrs, fifo: seq<Id>, latest: int, x: Id)
    requires FifoOk(attrs, fifo, latest) && x !in Ids(fifo) && ExpireOf(attrs, x) == latest
    ensures FifoOk(attrs, fifo + [x], latest) && Ids(fifo + [x]) == Ids(fifo) + {x}
  {
    assert forall i :: 0 <= i < |fifo| ==> fifo[i] in Ids(fifo);
  }

  lemma AddGap(s: State, x: Id, d: Dir, sector: nat, sectors: nat)
    requires Inv(s) && x !in Ids(s.read.tree) && x !in Ids(s.write.tree)
    ensures var s0 := s.(attrs := s.attrs[x := Attr(d, sector, sectors, s.now + Expire(s.tun, d))], nrSorted := s.nrSorted + 1);
            Gap(s0, d, x, false)
  {
    hide TreeOk, FifoOk;
    var attrs' := s.attrs[x := Attr(d, sector, sectors, s.now + Expire(s.tun, d))];
    OtherLaneFrame(s.attrs, attrs', Read, s.read, Latest(s, Read), x);
    OtherLaneFrame(s.attrs, attrs', Write, s.write, Latest(s, Write), x);
  }

  lemma AddKeeps(s: State, x: Id, d: Dir, sector: nat, sectors: nat)
    requires Inv(s) && x !in Ids(s.read.tree) && x !in Ids(s.write.tree)
    ensures Inv(AddRequest(s, x, d, sector, sectors))
  {
    hide TreeOk, FifoOk, AddRqRb, Gap;
    var s0 := s.(attrs := s.attrs[x := Attr(d, sector, sectors, s.now + Expire(s.tun, d))], nrSorted := s.nrSorted + 1);
    AddGap(s, x, d, sector, sectors);
    AddRqRbFills(s0, d, x, false);
    var s1 := AddRqRb(s0, x);
    FifoAppend(s1.attrs, Get(s1, d).fifo, Latest(s1, d), x);
  }

  lemma BackMergeKeeps(s: State, x: Id, n: nat)
    requires Inv(s) && x in s.attrs
    ensures Inv(BackMerge(s, x, n))
  {
    hide TreeOk, FifoOk;
    var s' := BackMerge(s, x, n);
    SameKeys(s.attrs, s'.attrs, Read, s.read, Latest(s, Read));
    SameKeys(s.attrs, s'.attrs, Write, s.write, Latest(s, Write));
  }

  lemma SameKeys(attrs: Attrs, attrs': Attrs, d: Dir, l: Lane, latest: int)
    requires LaneOk(attrs, d, l, latest)
    requires forall y :: y in attrs ==> y in attrs' && attrs'[y].(sectors := 0) == attrs[y].(sectors := 0)
    ensures LaneOk(attrs', d, l, latest)
  {
    assert forall i :: 0 <= i < |l.fifo| ==> l.fifo[i] in Ids(l.fifo);
    assert forall i :: 0 <= i < |l.fifo| ==> l.fifo[i] in l.tree && l.fifo[i] in attrs;
    TreeFrame(attrs, attrs', d, l.tree);
    FifoFrame(attrs, attrs', l.fifo, latest, latest);
  }

  lemma TreeWithout(attrs: Attrs, d: Dir, tree: seq<Id>, x: Id)
    requires TreeOk(attrs, d, tree) && x in Ids(tree)
    ensures TreeOk(attrs, d, Minus(tree, x)) && Ids(Minus(tree, x)) == Ids(tree) - {x} && |Minus(tree, x)| == |tree| - 1
    ensures Latter(tree, x).Some? ==> Latter(tree, x).value in Ids(tree) - {x}
  {
    TreeDistinct(attrs, d, tree);
    MinusFacts(tree, x);
    TreeMinus(attrs, d, tree, x);
  }

  lemma FrontGap(s: State, d: Dir, x: Id, n: nat)
    requires Inv(s) && x in Ids(Get(s, d).tree) && x in s.attrs && s.attrs[x].dir == d && n <= s.attrs[x].sector
    ensures var a := s.attrs[x];
            var s0 := s.(attrs := s.attrs[x := a.(sector := a.sector - n, sectors := a.sectors + n)]);
            Gap(Put(s0, d, Get(s0, d).(tree := Minus(Get(s0, d).tree, x))), d, x, true)
  {
    hide TreeOk, FifoOk, Minus, Ids;
    var a, l := s.attrs[x], Get(s, d);
    var attrs' := s.attrs[x := a.(sector := a.sector - n, sectors := a.sectors + n)];
    TreeWithout(s.attrs, d, l.tree, x);
    FrontFrame(s.attrs, attrs', d, l, Latest(s, d), x);
    LanesApart(s, d, x);
    OtherLaneFrame(s.attrs, attrs', Other(d), Get(s, Other(d)), Latest(s, Other(d)), x);
  }

  lemma FrontFrame(attrs: Attrs, attrs': Attrs, d: Dir, l: Lane, latest: int, x: Id)
    requires LaneOk(attrs, d, l, latest) && x in Ids(l.tree) && TreeOk(attrs, d, Minus(l.tree, x))
    requires x !in Ids(Minus(l.tree, x))
    requires forall y :: y in attrs && y != x ==> y in attrs' && attrs'[y] == attrs[y]
    requires x in attrs' && x in attrs && attrs'[x].expire == attrs[x].expire
    ensures TreeOk(attrs', d, Minus(l.tree, x)) && FifoOk(attrs', l.fifo, latest)
  {
    var p := Minus(l.tree, x);
    assert forall i :: 0 <= i < |p| ==> p[i] in Ids(p);
    assert forall i :: 0 <= i < |l.fifo| ==> l.fifo[i] in Ids(l.fifo);
    assert forall i :: 0 <= i < |l.fifo| ==> l.fifo[i] in l.tree && l.fifo[i] in attrs;
    TreeFrame(attrs, attrs', d, p);
    FifoFrame(attrs, attrs', l.fifo, latest, latest);
  }

  lemma FrontMergeKeeps(s: State, x: Id, n: nat)
    requires Inv(s) && x in s.attrs && x in Ids(Get(s, s.attrs[x].dir).tree) && n <= s.attrs[x].sector
    ensures Inv(FrontMerge(s, x, n))
  {
    hide TreeOk, FifoOk, AddRqRb, Gap;
    var a := s.attrs[x];
    FrontGap(s, a.dir, x, n);
    var s0 := s.(attrs := s.attrs[x := a.(sector := a.sector - n, sectors := a.sectors + n)]);
    AddRqRbFills(Put(s0, a.dir, Get(s0, a.dir).(tree := Minus(Get(s0, a.dir).tree, x))), a.dir, x, true);
  }

  // ---- merging two requests ----

  lemma DropBefore(p: seq<Id>, k: nat, x: Id)
    requires Distinct(p) && k < |p|
    ensures var q := p[..k + 1] + [x] + p[k + 1..];
            p[k] in q && IndexOf(q, p[k]) == k && Minus(q, p[k]) == p[k := x]
  {
    var q := p[..k + 1] + [x] + p[k + 1..];
    assert q[k] == p[k];
    FirstIndex(q, p[k], k);
    assert q[..k] == p[..k] && q[k + 1..] == [x] + p[k + 1..];
    assert p[..k] + ([x] + p[k + 1..]) == p[k := x];
  }

  /** Moving x behind y and dropping y puts x into y's place. */
  lemma TakesPlace(fifo: seq<Id>, x: Id, y: Id)
    requires Distinct(fifo) && x in fifo && y in fifo && x != y
    ensures var p := Minus(fifo, x);
            y in p && Minus(MovedBehind(fifo, x, y), y) == p[IndexOf(p, y) := x]
  {
    hide Minus, Distinct;
    var p := Minus(fifo, x);
    MinusFacts(fifo, x);
    MinusDistinct(fifo, x);
    assert y in Ids(fifo) && y in Ids(p);
    DropBefore(p, IndexOf(p, y), x);
  }

  lemma ReplaceIds(p: seq<Id>, k: nat, x: Id)
    requires Distinct(p) && k < |p| && x !in Ids(p)
    ensures Ids(p[k := x]) == Ids(p) - {p[k]} + {x} && Distinct(p[k := x])
  {
    var q := p[k := x];
    assert forall j :: 0 <= j < |p| ==> p[j] in Ids(p);
    forall z
      ensures z in q <==> (z in p && z != p[k]) || z == x
    {
      if z in p && z != p[k] {
        var j :| 0 <= j < |p| && p[j] == z;
        assert q[j] == z;
      }
      assert q[k] == x;
    }
  }

  /** The fifo after a request merge: still sorted by expiry, because the survivor takes the place
      of the earlier one together with its expiry. */
  lemma MergedFifo(attrs: Attrs, fifo: seq<Id>, latest: int, x: Id, y: Id, attrs': Attrs)
    requires FifoOk(attrs, fifo, latest) && x in fifo && y in fifo && x != y && x in attrs && y in attrs
    requires x in attrs' && attrs'[x].expire == if attrs[y].expire < attrs[x].expire then attrs[y].expire else attrs[x].expire
    requires forall z :: z in fifo && z != x && z != y ==> ExpireOf(attrs', z) == ExpireOf(attrs, z)
    ensures var fifo' := Minus(if attrs[y].expire < attrs[x].expire then MovedBehind(fifo, x, y) else fifo, y);
            FifoOk(attrs', fifo', latest) && Ids(fifo') == Ids(fifo) - {y}
  {
    if attrs[y].expire < attrs[x].expire {
      MergedEarlier(attrs, fifo, latest, x, y, attrs');
    } else {
      MergedLater(attrs, fifo, latest, x, y, attrs');
    }
  }

  lemma MergedEarlier(attrs: Attrs, fifo: seq<Id>, latest: int, x: Id, y: Id, attrs': Attrs)
    requires FifoOk(attrs, fifo, latest) && x in fifo && y in fifo && x != y
    requires ExpireOf(attrs', x) == ExpireOf(attrs, y)
    requires forall z :: z in fifo && z != x && z != y ==> ExpireOf(attrs', z) == ExpireOf(attrs, z)
    ensures var fifo' := Minus(MovedBehind(fifo, x, y), y);
            FifoOk(attrs', fifo', latest) && Ids(fifo') == Ids(fifo) - {y}
  {
    hide Minus, MovedBehind, FifoOk;
    var p := Minus(fifo, x);
    assert Distinct(fifo) by {
      FifoDistinct(attrs, fifo, latest);
    }
    TakesPlace(fifo, x, y);
    MinusFacts(fifo, x);
    FifoMinus(attrs, fifo, latest, x);
    FifoDistinct(attrs, p, latest);
    forall z | z in p && z != y
      ensures ExpireOf(attrs', z) == ExpireOf(attrs, z)
    {
      assert z in Ids(p) && z in Ids(fifo);
    }
    ReplaceIds(p, IndexOf(p, y), x);
    ReplacedFifo(attrs, p, latest, IndexOf(p, y), x, attrs');
  }

  lemma FifoDistinct(attrs: Attrs, fifo: seq<Id>, latest: int)
    requires FifoOk(attrs, fifo, latest)
    ensures Distinct(fifo)
  {
  }

  lemma MergedLater(attrs: Attrs, fifo: seq<Id>, latest: int, x: Id, y: Id, attrs': Attrs)
    requires FifoOk(attrs, fifo, latest) && y in fifo
    requires forall z :: z in fifo && z != y ==> ExpireOf(attrs', z) == ExpireOf(attrs, z)
    ensures FifoOk(attrs', Minus(fifo, y), latest) && Ids(Minus(fifo, y)) == Ids(fifo) - {y}
  {
    hide Minus, FifoOk;
    var p := Minus(fifo, y);
    FifoDistinct(attrs, fifo, latest);
    MinusFacts(fifo, y);
    FifoMinus(attrs, fifo, latest, y);
    forall j | 0 <= j < |p|
      ensures ExpireOf(attrs', p[j]) == ExpireOf(attrs, p[j])
    {
      assert p[j] in Ids(p) && p[j] in Ids(fifo);
    }
    FifoFrame(attrs, attrs', p, latest, latest);
  }

  lemma ReplacedFifo(attrs: Attrs, p: seq<Id>, latest: int, k: nat, x: Id, attrs': Attrs)
    requires FifoOk(attrs, p, latest) && k < |p| && x !in Ids(p)
    requires ExpireOf(attrs', x) == ExpireOf(attrs, p[k])
    requires forall z :: z in p && z != p[k] ==> ExpireOf(attrs', z) == ExpireOf(attrs, z)
    ensures FifoOk(attrs', p[k := x], latest)
  {
    ReplaceIds(p, k, x);
    var q := p[k := x];
    forall j | 0 <= j < |p|
      ensures ExpireOf(attrs', q[j]) == ExpireOf(attrs, p[j])
    {
      assert j == k || (q[j] == p[j] && p[j] != p[k]);
    }
    forall i, j | 0 <= i < j < |q|
      ensures ExpireOf(attrs', q[i]) <= ExpireOf(attrs', q[j])
    {
      assert ExpireOf(attrs, p[i]) <= ExpireOf(attrs, p[j]);
    }
  }

  lemma MergedTree(attrs: Attrs, d: Dir, tree: seq<Id>, x: Id, y: Id, attrs': Attrs)
    requires TreeOk(attrs, d, tree) && x in Ids(tree) && y in Ids(tree) && x != y
    requires x in attrs && x in attrs' && attrs'[x].dir == attrs[x].dir && attrs'[x].sector == attrs[x].sector
    requires forall z :: z in attrs && z != x && z != y ==> z in attrs' && attrs'[z] == attrs[z]
    ensures TreeOk(attrs', d, Minus(tree, y))
  {
    TreeWithout(attrs, d, tree, y);
    var p := Minus(tree, y);
    assert forall j :: 0 <= j < |p| ==> p[j] in Ids(p);
    TreeFrame(attrs, attrs', d, p);
  }

  lemma MergeKeeps(s: State, d: Dir, x: Id, y: Id)
    requires Inv(s) && x in Ids(Get(s, d).tree) && y in Ids(Get(s, d).tree) && x != y
    requires x in s.attrs && y in s.attrs && s.attrs[x].dir == d
    ensures Inv(MergeRequests(s, x, y))
  {
    hide TreeOk, FifoOk, Minus, MovedBehind, Latter, Ids;
    var l, s' := Get(s, d), MergeRequests(s, x, y);
    IdsMember(l.fifo, x);
    IdsMember(l.fifo, y);
    MergedTree(s.attrs, d, l.tree, x, y, s'.attrs);
    TreeWithout(s.attrs, d, l.tree, y);
    MergedFifo(s.attrs, l.fifo, Latest(s, d), x, y, s'.attrs);
    LanesApart(s, d, x);
    LanesApart(s, d, y);
    MergedOther(s.attrs, s'.attrs, Other(d), Get(s, Other(d)), Latest(s, Other(d)), x, y);
  }

  lemma MergedOther(attrs: Attrs, attrs': Attrs, d: Dir, l: Lane, latest: int, x: Id, y: Id)
    requires LaneOk(attrs, d, l, latest) && x !in Ids(l.tree) && y !in Ids(l.tree)
    requires forall z :: z in attrs && z != x && z != y ==> z in attrs' && attrs'[z] == attrs[z]
    ensures LaneOk(attrs', d, l, latest)
  {
    assert forall i :: 0 <= i < |l.tree| ==> l.tree[i] in Ids(l.tree);
    assert forall i :: 0 <= i < |l.fifo| ==> l.fifo[i] in Ids(l.fifo);
    assert forall i :: 0 <= i < |l.fifo| ==> l.fifo[i] in l.tree && l.fifo[i] in attrs;
    TreeFrame(attrs, attrs', d, l.tree);
    FifoFrame(attrs, attrs', l.fifo, latest, latest);
  }

  // ---- dispatching ----

  lemma ChoiceIsQueued(s: State)
    requires Inv(s) && (Continues(s) || !Idle(s))
    ensures !Idle(s)
    ensures Choice(s) in s.attrs && Choice(s) in Get(s, s.attrs[Choice(s)].dir).tree
    ensures !Continues(s) ==> s.attrs[Choice(s)].dir == BatchDir(s)
  {
    var x := Choice(s);
    if Continues(s) {
      assert x in Ids(s.read.tree) || x in Ids(s.write.tree);
    } else {
      var l := Get(s, BatchDir(s));
      assert l.fifo[0] in Ids(l.fifo);
      assert x in Ids(l.tree);
    }
  }

  lemma CountedKeeps(s: State)
    requires Inv(s) && (Continues(s) || !Idle(s))
    ensures Inv(Counted(s))
  {
  }

  lemma DispatchKeeps(s: State)
    requires Inv(s)
    ensures Inv(Dispatch(s))
  {
    if Continues(s) || !Idle(s) {
      ChoiceIsQueued(s);
      CountedKeeps(s);
      MoveKeeps(Counted(s), Choice(s), s.attrs[Choice(s)].dir);
    }
  }

  lemma MoveMultiset(s: State, x: Id)
    requires x in s.attrs && x in Get(s, s.attrs[x].dir).tree
    ensures var s' := MoveRequest(s, x);
            && multiset(s.read.tree) + multiset(s.write.tree) == multiset(s'.read.tree) + multiset(s'.write.tree) + multiset{x}
            && s'.nrSorted == s.nrSorted - 1 && s'.queue == s.queue + [x]
  {
    hide Minus;
    MinusMultiset(Get(s, s.attrs[x].dir).tree, x);
  }

  /** A call fails exactly when nothing is queued; a successful one moves exactly one request from
      the scheduler to the tail of the dispatch queue. */
  lemma DispatchMovesOne(s: State)
    requires Inv(s)
    ensures Idle(s) ==> Dispatch(s) == s
    ensures !Idle(s) ==>
      && Dispatch(s).nrSorted == s.nrSorted - 1 && Dispatch(s).queue == s.queue + [Choice(s)]
      && multiset(s.read.tree) + multiset(s.write.tree) ==
         multiset(Dispatch(s).read.tree) + multiset(Dispatch(s).write.tree) + multiset{Choice(s)}
  {
    hide MoveRequest;
    if Continues(s) || !Idle(s) {
      ChoiceIsQueued(s);
      MoveMultiset(Counted(s), Choice(s));
    }
  }

  /** Testing only the head of the fifo decides whether any queued request has expired. */
  lemma HeadDecides(s: State, d: Dir)
    requires Inv(s)
    ensures CheckFifo(s, d) <==> exists x :: x in Get(s, d).tree && Expired(s, x)
  {
    var l := Get(s, d);
    if x :| x in l.tree && Expired(s, x) {
      assert x in Ids(l.tree) && x in Ids(l.fifo);
      var i :| 0 <= i < |l.fifo| && l.fifo[i] == x;
      assert i > 0 ==> ExpireOf(s.attrs, l.fifo[0]) <= ExpireOf(s.attrs, l.fifo[i]);
      assert l.fifo[0] in Ids(l.fifo) && l.fifo[0] in Ids(l.tree);
    }
    if CheckFifo(s, d) {
      assert l.fifo[0] in Ids(l.fifo) && l.fifo[0] in Ids(l.tree);
    }
  }

  /** When a batch starts in a direction in which some request has expired, the request dispatched is
      the one of that direction that expires first. */
  lemma ExpiredFirst(s: State, x: Id)
    requires Inv(s) && !Continues(s) && !Idle(s) && x in Get(s, BatchDir(s)).tree && Expired(s, x)
    ensures var c := Choice(s);
            Queued(s, c) && s.attrs[c].dir == BatchDir(s)
            && forall y :: y in Get(s, BatchDir(s)).tree ==> ExpireOf(s.attrs, c) <= ExpireOf(s.attrs, y)
  {
    var l := Get(s, BatchDir(s));
    HeadDecides(s, BatchDir(s));
    ChoiceIsQueued(s);
    forall y | y in l.tree
      ensures ExpireOf(s.attrs, l.fifo[0]) <= ExpireOf(s.attrs, y)
    {
      assert y in Ids(l.tree) && y in Ids(l.fifo);
      var i :| 0 <= i < |l.fifo| && l.fifo[i] == y;
      assert i > 0 ==> ExpireOf(s.attrs, l.fifo[0]) <= ExpireOf(s.attrs, l.fifo[i]);
    }
  }

  // ---- runs ----

  datatype Step =
    | AddStep(x: Id, d: Dir, sector: nat, sectors: nat)
    | BackMergeStep(x: Id, n: nat)
    | FrontMergeStep(x: Id, n: nat)
    | MergeStep(x: Id, y: Id)
    | TickStep(ticks: nat)
    | DispatchStep

  predicate Queued(s: State, x: Id) { x in s.attrs && x in Get(s, s.attrs[x].dir).tree }

  predicate Enabled(s: State, step: Step) {
    match step
    case AddStep(x, d, sector, sectors) => x !in s.read.tree && x !in s.write.tree
    case BackMergeStep(x, n) => Queued(s, x)
    case FrontMergeStep(x, n) => Queued(s, x) && n <= s.attrs[x].sector
    case MergeStep(x, y) => Queued(s, x) && Queued(s, y) && x != y && s.attrs[x].dir == s.attrs[y].dir
    case TickStep(ticks) => true
    case DispatchStep => true
  }

  function Next(s: State, step: Step): State
    requires Enabled(s, step)
  {
    match step
    case AddStep(x, d, sector, sectors) => AddRequest(s, x, d, sector, sectors)
    case BackMergeStep(x, n) => BackMerge(s, x, n)
    case FrontMergeStep(x, n) => FrontMerge(s, x, n)
    case MergeStep(x, y) => MergeRequests(s, x, y)
    case TickStep(ticks) => s.(now := s.now + ticks)
    case DispatchStep => Dispatch(s)
  }

  predicate Possible(s: State, steps: seq<Step>)
    decreases |steps|
  {
    steps == [] || (Enabled(s, steps[0]) && Possible(Next(s, steps[0]), steps[1..]))
  }

  function Run(s: State, steps: seq<Step>): State
    requires Possible(s, steps)
    decreases |steps|
  {
    if steps == [] then s else Run(Next(s, steps[0]), steps[1..])
  }

  lemma TickKeeps(s: State, ticks: nat)
    requires Inv(s)
    ensures Inv(s.(now := s.now + ticks))
  {
    FifoFrame(s.attrs, s.attrs, s.read.fifo, Latest(s, Read), Latest(s, Read) + ticks);
    FifoFrame(s.attrs, s.attrs, s.write.fifo, Latest(s, Write), Latest(s, Write) + ticks);
  }

  /** Per direction fifo and tree hold the same requests, the tree is strictly sorted, the fifo is
      sorted by expiry, next_rq is set in at most one direction and lies in its tree, and nr_sorted
      is exact: whatever step is taken. */
  lemma StepKeepsInv(s: State, step: Step)
    requires Inv(s) && Enabled(s, step)
    ensures Inv(Next(s, step))
  {
    hide Inv, Dispatch, AddRequest, BackMerge, FrontMerge, MergeRequests;
    match step
    case AddStep(x, d, sector, sectors) => AddKeeps(s, x, d, sector, sectors);
    case BackMergeStep(x, n) => BackMergeKeeps(s, x, n);
    case FrontMergeStep(x, n) => FrontMergeKeeps(s, x, n);
    case MergeStep(x, y) => MergeKeeps(s, s.attrs[x].dir, x, y);
    case TickStep(ticks) => TickKeeps(s, ticks);
    case DispatchStep => DispatchKeeps(s);
  }

  lemma {:induction false} RunKeepsInv(s: State, steps: seq<Step>)
    requires Inv(s) && Possible(s, steps)
    ensures Inv(Run(s, steps))
    decreases |steps|
  {
    if steps != [] {
      StepKeepsInv(s, steps[0]);
      RunKeepsInv(Next(s, steps[0]), steps[1..]);
    }
  }

  lemma EveryRunIsSound(tun: Tunables, steps: seq<Step>)
    requires Possible(Init(tun), steps)
    ensures Inv(Run(Init(tun), steps))
  {
    RunKeepsInv(Init(tun), steps);
  }

  // ---- writes are not starved ----

  function Max(a: int, b: int): int { if a > b then a else b }

  function Batch(tun: Tunables): int { Max(1, tun.fifoBatch) }

  /** How many reads can still be dispatched while a write waits. */
  function Patience(s: State): int {
    Max(0, s.tun.fifoBatch - s.batching) + (s.tun.writesStarved - s.starved) * Batch(s.tun)
  }

  lemma PatienceBound(s: State)
    requires s.starved <= s.tun.writesStarved
    ensures 0 <= Patience(s) <= Batch(s.tun) * (s.tun.writesStarved + 1)
  {
    var b, w := Batch(s.tun), s.tun.writesStarved;
    assert (w - s.starved) * b + s.starved * b == w * b;
    assert 0 <= s.starved * b && 0 <= (w - s.starved) * b;
    assert b * (w + 1) == w * b + b;
  }

  predicate DispatchesRead(s: State) {
    (Continues(s) || !Idle(s)) && Choice(s) in s.attrs && s.attrs[Choice(s)].dir.Read?
  }

  lemma MoveKeepsCounters(s: State, x: Id)
    ensures var s' := MoveRequest(s, x); s'.batching == s.batching && s'.starved == s.starved && s'.tun == s.tun
  {
  }

  /** Every read dispatched while a write waits costs patience. */
  lemma ReadCostsPatience(s: State)
    requires Inv(s) && DispatchesRead(s) && s.write.fifo != []
    ensures Dispatch(s).tun == s.tun && Patience(Dispatch(s)) < Patience(s)
  {
    MoveKeepsCounters(Counted(s), Choice(s));
    if !Continues(s) {
      ChoiceIsQueued(s);
      var b, n := Batch(s.tun), s.tun.writesStarved - s.starved;
      assert (n - 1) * b == n * b - b;
    }
  }

  lemma OthersCostNothing(s: State, step: Step)
    requires Enabled(s, step) && !step.DispatchStep?
    ensures Next(s, step).tun == s.tun && Patience(Next(s, step)) == Patience(s)
  {
    hide Next;
    OthersKeepCounters(s, step);
  }

  lemma OthersKeepCounters(s: State, step: Step)
    requires Enabled(s, step) && !step.DispatchStep?
    ensures var s' := Next(s, step); s'.tun == s.tun && s'.batching == s.batching && s'.starved == s.starved
  {
    hide Minus, Inserted, Latter, MovedBehind, Alias;
  }

  /** Every dispatch of the run is of a read while some write is queued. */
  predicate WritesWait(s: State, steps: seq<Step>)
    requires Possible(s, steps)
    decreases |steps|
  {
    steps == [] ||
    ((steps[0].DispatchStep? ==> DispatchesRead(s) && s.write.fifo != []) && WritesWait(Next(s, steps[0]), steps[1..]))
  }

  function Dispatches(steps: seq<Step>): nat {
    if steps == [] then 0 else (if steps[0].DispatchStep? then 1 else 0) + Dispatches(steps[1..])
  }

  lemma {:induction false} WaitIsBounded(s: State, steps: seq<Step>)
    requires Inv(s) && Possible(s, steps) && WritesWait(s, steps)
    ensures Dispatches(steps) <= Patience(s)
    decreases |steps|
  {
    if steps == [] {
      PatienceBound(s);
    } else {
      StepKeepsInv(s, steps[0]);
      if steps[0].DispatchStep? {
        ReadCostsPatience(s);
      } else {
        OthersCostNothing(s, steps[0]);
      }
      WaitIsBounded(Next(s, steps[0]), steps[1..]);
    }
  }

  /** From any reachable state: while some write stays queued, at most
      max(1, fifo_batch) * (writes_starved + 1) dispatches in a row are of reads, whatever arrives,
      merges or expires meanwhile. */
  lemma WritesAreNotStarved(tun: Tunables, before: seq<Step>, steps: seq<Step>)
    requires Possible(Init(tun), before) && Possible(Run(Init(tun), before), steps)
    requires WritesWait(Run(Init(tun), before), steps)
    ensures Dispatches(steps) <= Batch(tun) * (tun.writesStarved + 1)
  {
    var s := Run(Init(tun), before);
    RunKeepsInv(Init(tun), before);
    RunKeepsTunables(Init(tun), before);
    WaitIsBounded(s, steps);
    PatienceBound(s);
  }

  lemma StepKeepsTunables(s: State, step: Step)
    requires Enabled(s, step)
    ensures Next(s, step).tun == s.tun
  {
    hide Minus, Inserted, Latter, MovedBehind, Alias;
  }

  lemma {:induction false} RunKeepsTunables(s: State, steps: seq<Step>)
    requires Possible(s, steps)
    ensures Run(s, steps).tun == s.tun
    decreases |steps|
  {
    if steps != [] {
      StepKeepsTunables(s, steps[0]);
      RunKeepsTunables(Next(s, steps[0]), steps[1..]);
    }
  }

  // ---- nor are reads ----

  predicate DispatchesWrite(s: State) {
    (Continues(s) || !Idle(s)) && Choice(s) in s.attrs && s.attrs[Choice(s)].dir.Write?
  }

  /** How many writes can still be dispatched while a read waits. */
  function ReadPatience(s: State): int {
    Max(0, s.tun.fifoBatch - s.batching) + if s.starved >= s.tun.writesStarved then Batch(s.tun) else 0
  }

  lemma WriteCostsPatience(s: State)
    requires Inv(s) && DispatchesWrite(s) && s.read.fifo != [] && s.tun.writesStarved >= 1
    ensures Dispatch(s).tun == s.tun && ReadPatience(Dispatch(s)) < ReadPatience(s)
  {
    hide MoveRequest;
    MoveKeepsCounters(Counted(s), Choice(s));
    if !Continues(s) {
      ChoiceIsQueued(s);
    }
  }

  /** Every dispatch of the run is of a write while some read is queued. */
  predicate ReadsWait(s: State, steps: seq<Step>)
    requires Possible(s, steps)
    decreases |steps|
  {
    steps == [] ||
    ((steps[0].DispatchStep? ==> DispatchesWrite(s) && s.read.fifo != []) && ReadsWait(Next(s, steps[0]), steps[1..]))
  }

  lemma {:induction false} ReadWaitIsBounded(s: State, steps: seq<Step>)
    requires Inv(s) && Possible(s, steps) && ReadsWait(s, steps) && s.tun.writesStarved >= 1
    ensures Dispatches(steps) <= ReadPatience(s)
    decreases |steps|
  {
    if steps != [] {
      StepKeepsInv(s, steps[0]);
      if steps[0].DispatchStep? {
        WriteCostsPatience(s);
      } else {
        OthersKeepCounters(s, steps[0]);
      }
      ReadWaitIsBounded(Next(s, steps[0]), steps[1..]);
    }
  }

  /** From any reachable state, with writes_starved at least 1: while some read stays queued at most
      2 * max(1, fifo_batch) dispatches in a row are of writes. */
  lemma ReadsAreNotStarved(tun: Tunables, before: seq<Step>, steps: seq<Step>)
    requires Possible(Init(tun), before) && Possible(Run(Init(tun), before), steps)
    requires ReadsWait(Run(Init(tun), before), steps) && tun.writesStarved >= 1
    ensures Dispatches(steps) <= 2 * Batch(tun)
  {
    RunKeepsInv(Init(tun), before);
    RunKeepsTunables(Init(tun), before);
    ReadWaitIsBounded(Run(Init(tun), before), steps);
  }

  // ---- with writes_starved zero reads are ----

  /** A read waits and no write is queued: where each round of the starving run starts. */
  predicate OnlyReadWaits(s: State) {
    && 0 in s.attrs && s.attrs[0].dir.Read? && s.tun.writesStarved == 0
    && s.read == Lane([0], [0], None) && s.write == Lane([], [], None)
  }

  /** n rounds in which a write arrives and the scheduler is asked for a request. */
  function WriteRounds(n: nat): seq<Step> {
    if n == 0 then [] else [AddStep(1, Write, 0, 1), DispatchStep] + WriteRounds(n - 1)
  }

  lemma AddToEmpty(s: State, x: Id, d: Dir, sector: nat, sectors: nat)
    requires Get(s, d) == Lane([], [], None)
    ensures var s' := AddRequest(s, x, d, sector, sectors);
            && Get(s', d) == Lane([x], [x], None) && Get(s', Other(d)) == Get(s, Other(d)) && s'.tun == s.tun
            && s'.attrs == s.attrs[x := Attr(d, sector, sectors, s.now + Expire(s.tun, d))]
  {
    hide MoveRequest, StartsOf, Inserted;
    var s0 := s.(attrs := s.attrs[x := Attr(d, sector, sectors, s.now + Expire(s.tun, d))], nrSorted := s.nrSorted + 1);
    assert Get(s0, d).tree == [];
    InsertedFirst(StartsOf(s0.attrs), x);
  }

  lemma InsertedFirst(starts: Starts, x: Id)
    ensures Inserted(starts, [], x) == [x]
  {
  }

  /** The write is dispatched and the read is where it was. */
  lemma WriteRound(s: State)
    requires OnlyReadWaits(s)
    ensures Enabled(s, AddStep(1, Write, 0, 1))
    ensures var s1 := AddRequest(s, 1, Write, 0, 1);
            s1.read.fifo != [] && DispatchesWrite(s1) && OnlyReadWaits(Dispatch(s1))
  {
    hide AddRequest;
    AddToEmpty(s, 1, Write, 0, 1);
    var s1 := AddRequest(s, 1, Write, 0, 1);
    assert !Continues(s1) && BatchDir(s1).Write? && Choice(s1) == 1;
    assert IndexOf([1], 1) == 0;
  }

  lemma {:induction false} RoundsStarve(s: State, n: nat)
    requires OnlyReadWaits(s)
    ensures Possible(s, WriteRounds(n)) && ReadsWait(s, WriteRounds(n)) && Dispatches(WriteRounds(n)) == n
    decreases n
  {
    hide OnlyReadWaits, AddRequest, Dispatch, DispatchesWrite;
    if n > 0 {
      WriteRound(s);
      var steps := WriteRounds(n);
      var s1 := Next(s, steps[0]);
      assert steps[0] == AddStep(1, Write, 0, 1) && steps[1..][0] == DispatchStep && steps[1..][1..] == WriteRounds(n - 1);
      RoundsStarve(Dispatch(s1), n - 1);
      assert Possible(s1, steps[1..]) && ReadsWait(s1, steps[1..]);
    }
  }

  /** With writes_starved zero any number of writes in a row is dispatched while one read waits. */
  lemma ReadsStarveAtZero(tun: Tunables, n: nat)
    requires tun.writesStarved == 0
    ensures exists before, steps ::
      && Possible(Init(tun), before) && Possible(Run(Init(tun), before), steps)
      && ReadsWait(Run(Init(tun), before), steps) && Dispatches(steps) == n
  {
    var before := [AddStep(0, Read, 0, 1)];
    AddToEmpty(Init(tun), 0, Read, 0, 1);
    assert before[1..] == [];
    RoundsStarve(Run(Init(tun), before), n);
  }

  /** bound limits how many writes in a row are dispatched while reads wait, in every run. */
  ghost predicate ReadsWaitAtMost(tun: Tunables, bound: nat) {
    forall before, steps ::
      Possible(Init(tun), before) && Possible(Run(Init(tun), before), steps) && ReadsWait(Run(Init(tun), before), steps)
      ==> Dispatches(steps) <= bound
  }

  /** Reads are safe from starvation exactly when writes_starved is at least 1. */
  lemma ReadsStarveIff(tun: Tunables)
    ensures (exists bound: nat :: ReadsWaitAtMost(tun, bound)) <==> tun.writesStarved >= 1
  {
    if tun.writesStarved >= 1 {
      forall before, steps | Possible(Init(tun), before) && Possible(Run(Init(tun), before), steps)
        && ReadsWait(Run(Init(tun), before), steps)
        ensures Dispatches(steps) <= 2 * Batch(tun)
      {
        ReadsAreNotStarved(tun, before, steps);
      }
      assert ReadsWaitAtMost(tun, 2 * Batch(tun));
    } else if bound: nat :| ReadsWaitAtMost(tun, bound) {
      ReadsStarveAtZero(tun, bound + 1);
    }
  }
}
