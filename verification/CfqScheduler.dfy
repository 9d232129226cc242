/** The cfq_data object.  Its methods update queues, lists, tree and counters in place and are proved
    to compute the functions of Cfq; ForcedDispatch is the drain. */
module CfqScheduler {
  import opened Options
  import opened IdSeq
  import opened SectorTree
  import opened Cfq

  lemma {:induction false} RrPlaceUnique(s: State, rr: seq<Id>, cls: Class, key: int, i: nat)
    requires i <= |rr| && (forall j :: 0 <= j < i ==> !Less(cls, key, Q(s, rr[j])))
    requires i < |rr| ==> Less(cls, key, Q(s, rr[i]))
    ensures i == RrPlace(s, rr, cls, key)
  {
  }

  class Scheduler {
    var qs: Queues
    var attrs: Attrs
    var starts: Starts
    var rr: seq<Id>
    var left: Option<Id>
    var busy: int
    var rqQueued: int
    var syncFlight: int
    var last: nat
    const backMax: nat
    const penalty: nat
    var handed: seq<Id>
    var nrSorted: int

    function View(): State
      reads this
    {
      State(qs, attrs, starts, rr, left, busy, rqQueued, syncFlight, last, backMax, penalty, handed, nrSorted)
    }

    ghost predicate Valid()
      reads this
    {
      Inv(View())
    }

    constructor (backMax: nat, penalty: nat)
      ensures View() == Empty(backMax, penalty) && Valid()
    {
      this.backMax, this.penalty := backMax, penalty;
      qs, attrs, starts, rr, left := map[], map[], map[], [], None;
      busy, rqQueued, syncFlight, last, handed, nrSorted := 0, 0, 0, 0, [], 0;
      EmptyInv(backMax, penalty);
    }

    /** The descent of cfq_service_tree_add; leftmost stays true while it never turns right. */
    method DescendRr(cls: Class, key: int) returns (i: nat, leftmost: bool)
      requires Ordered(View())
      ensures i == RrPlace(View(), rr, cls, key) && (leftmost <==> i == 0)
    {
      var lo, hi := 0, |rr|;
      leftmost := true;
      while lo < hi
        invariant 0 <= lo <= hi <= |rr| && (leftmost <==> lo == 0)
        invariant forall j :: 0 <= j < lo ==> !Less(cls, key, Q(View(), rr[j]))
        invariant forall j :: hi <= j < |rr| ==> Less(cls, key, Q(View(), rr[j]))
      {
        var mid := (lo + hi) / 2;
        assert forall j :: 0 <= j < mid ==> InOrder(Q(View(), rr[j]), Q(View(), rr[mid]));
        assert forall j :: mid < j < |rr| ==> InOrder(Q(View(), rr[mid]), Q(View(), rr[j]));
        if Less(cls, key, Q(View(), rr[mid])) {
          hi := mid;
        } else {
          lo := mid + 1;
          leftmost := false;
        }
      }
      RrPlaceUnique(View(), rr, cls, key, lo);
      i := lo;
    }

    /** cfq_rb_erase */
    method EraseNode(q: Id)
      modifies this
      ensures View() == RrErase(old(View()), q)
    {
      if left == Some(q) {
        left := None;
      }
      rr := Minus(rr, q);
    }

    /** The second half of cfq_service_tree_add. */
    method InsertNode(q: Id, key: int)
      requires q in qs && Ordered(View())
      modifies this
      ensures View() == RrInsert(old(View()), q, key)
    {
      var i, leftmost := DescendRr(qs[q].cls, key);
      if leftmost {
        left := Some(q);
      }
      qs := qs[q := qs[q].(key := key)];
      rr := rr[..i] + [q] + rr[i..];
    }

    /** cfq_service_tree_add */
    method AddToTree(q: Id, key: int)
      requires q in qs && qs[q].onRr && (RrOk(View(), {}) || RrOk(View(), {q}))
      modifies this
      ensures View() == ServiceTreeAdd(old(View()), q, key) && RrOk(View(), {})
    {
      hide RrOk, RrInsert, RrErase, Ordered;
      ServiceTreeAddKeeps(View(), q, key);
      ErasedOk(View(), q);
      if q in rr {
        if key == qs[q].key {
          return;
        }
        EraseNode(q);
      }
      InsertNode(q, key);
    }

    /** cfq_add_cfqq_rr */
    method AddToRr(q: Id, key: int)
      requires q in qs && !qs[q].onRr && RrOk(View(), {})
      modifies this
      ensures View() == AddCfqqRr(old(View()), q, key)
    {
      NowBusy(View(), q);
      qs := qs[q := qs[q].(onRr := true)];
      busy := busy + 1;
      AddToTree(q, key);
    }

    /** cfq_del_cfqq_rr */
    method DelFromRr(q: Id)
      requires q in qs
      modifies this
      ensures View() == DelCfqqRr(old(View()), q)
    {
      qs := qs[q := qs[q].(onRr := false)];
      EraseNode(q);
      busy := busy - 1;
    }

    /** cfq_del_rq_rb */
    method DelFromSort(r: Id)
      requires r in attrs && attrs[r].q in qs
      modifies this
      ensures View() == DelRqRb(old(View()), r)
    {
      hide Minus;
      ghost var s := View();
      var q := attrs[r].q;
      var c := Queued(qs[q], attrs[r].sync, -1);
      qs := qs[q := c.(sort := Minus(c.sort, r))];
      attrs := attrs[r := attrs[r].(place := attrs[r].place.(sorted := false))];
      assert View() == Unsort(s, r);
      if qs[q].onRr && qs[q].sort == [] {
        DelFromRr(q);
      }
    }

    /** cfq_remove_request */
    method Remove(r: Id)
      requires r in attrs && attrs[r].q in qs
      modifies this
      ensures View() == RemoveRequest(old(View()), r)
    {
      hide Minus, DelRqRb, FindNext;
      ghost var s := View();
      var q := attrs[r].q;
      if qs[q].next == Some(r) {
        qs := qs[q := qs[q].(next := FindNext(View(), qs[q].sort, r))];
      }
      qs := qs[q := qs[q].(fifo := Minus(qs[q].fifo, r))];
      attrs := attrs[r := attrs[r].(place := attrs[r].place.(listed := false))];
      rqQueued := rqQueued - 1;
      assert View() == Unlist(s, r);
      DelFromSort(r);
    }

    /** cfq_dispatch_insert, with elv_dispatch_sort's nr_sorted. */
    method DispatchRequest(r: Id)
      requires r in attrs && attrs[r].q in qs
      modifies this
      ensures View() == DispatchInsert(old(View()), r)
    {
      hide RemoveRequest;
      var q := attrs[r].q;
      RemoveShape(View(), r);
      RemoveAttrs(View(), r);
      Remove(r);
      qs := qs[q := qs[q].(dispatched := qs[q].dispatched + 1)];
      attrs := attrs[r := attrs[r].(place := ISSUED)];
      handed := handed + [r];
      nrSorted := nrSorted - 1;
      if qs[q].sync {
        syncFlight := syncFlight + 1;
      }
    }

    /** The descent of elv_rb_add to its alias or to the place of a new node. */
    method DescendSort(q: Id, sector: nat) returns (i: nat, alias: Option<Id>)
      requires q in qs && Sorted(starts, qs[q].sort)
      ensures i == Place(starts, qs[q].sort, sector) && alias == Alias(starts, qs[q].sort, sector)
    {
      var tree := qs[q].sort;
      var lo, hi := 0, |tree|;
      while lo < hi
        invariant 0 <= lo <= hi <= |tree|
        invariant forall j :: 0 <= j < lo ==> SectorOf(starts, tree[j]) < sector
        invariant forall j :: hi <= j < |tree| ==> sector < SectorOf(starts, tree[j])
      {
        var mid := (lo + hi) / 2;
        if sector < starts[tree[mid]] {
          hi := mid;
        } else if sector > starts[tree[mid]] {
          lo := mid + 1;
        } else {
          PlaceUnique(starts, tree, sector, mid);
          return mid, Some(tree[mid]);
        }
      }
      PlaceUnique(starts, tree, sector, lo);
      return lo, None;
    }

    /** cfq_add_rq_rb: dispatch aliases until there is room, then link r into the sorted list. */
    method AddToSort(r: Id, key: int)
      requires r in attrs && Mid(View(), Some(r), {r}) && !attrs[r].place.sorted && !attrs[r].place.issued
      modifies this
      ensures View() == AddRqRb(old(View()), r, key)
    {
      hide Mid, DispatchInsert, LinkRq;
      ghost var s := View();
      MidFacts(s, r);
      var q, sector := attrs[r].q, starts[r];
      var i, alias := DescendSort(q, sector);
      while alias.Some?
        invariant r in attrs && attrs[r] == s.attrs[r] && Mid(View(), Some(r), {r}) && starts == s.starts && q in qs
        invariant alias.Some? ==> View() == s && alias == AliasOf(s, r)
        invariant alias.None? ==> i == Place(starts, qs[q].sort, sector) && AliasOf(View(), r).None?
        invariant alias.None? ==> View() == if AliasOf(s, r).Some? then DispatchInsert(s, AliasOf(s, r).value) else s
        decreases alias.Some?
      {
        AliasDispatched(s, r);
        DispatchRequest(alias.value);
        MidFacts(View(), r);
        i, alias := DescendSort(q, sector);
      }
      MidFacts(View(), r);
      Link(r, i, key);
    }

    /** The end of cfq_add_rq_rb, with the counter: link at i, get busy, reconsider next_rq. */
    method Link(r: Id, i: nat, key: int)
      requires r in attrs && attrs[r].q in qs && i == Place(starts, qs[attrs[r].q].sort, SectorOf(starts, r)) && RrOk(View(), {})
      modifies this
      ensures View() == LinkRq(old(View()), r, key)
    {
      hide RrOk, ChooseReq, AddCfqqRr;
      ghost var s := View();
      var q := attrs[r].q;
      var c := Queued(qs[q], attrs[r].sync, 1);
      qs := qs[q := c.(sort := c.sort[..i] + [r] + c.sort[i..])];
      attrs := attrs[r := attrs[r].(place := attrs[r].place.(sorted := true))];
      assert View() == Sort(s, r);
      RrFrame(s, View(), {});
      if !qs[q].onRr {
        TreeAddQueues(View(), q, key);
        AddToRr(q, key);
      }
      qs := qs[q := qs[q].(next := ChooseReq(View(), qs[q].next, Some(r)))];
    }

    /** cfq_insert_request, with elv_insert's nr_sorted. */
    method Insert(r: Id, q: Id, sync: bool, meta: bool, sector: nat, key: int)
      requires Valid() && r !in attrs && q in qs
      modifies this
      ensures View() == InsertRequest(old(View()), r, q, sync, meta, sector, key) && Valid()
    {
      hide Mid, AddRqRb;
      ghost var s := View();
      InsertKeeps(s, r, q, sync, meta, sector, key);
      EnterKeeps(s, r, q, sync, meta, sector);
      attrs := attrs[r := Attr(q, qs[q].sync, sync, meta, NOWHERE)];
      starts := starts[r := sector];
      nrSorted := nrSorted + 1;
      AddRqRbPlace(View(), r, key);
      AddRqRbKeeps(View(), r, key, {r});
      AddToSort(r, key);
      Enlist(r);
    }

    /** list_add_tail and cfq_rq_enqueued */
    method Enlist(r: Id)
      requires r in attrs && Mid(View(), None, {r})
      modifies this
      ensures View() == List(old(View()), r)
    {
      hide Mid;
      MidKnown(View(), r);
      var q := attrs[r].q;
      qs := qs[q := qs[q].(fifo := qs[q].fifo + [r])];
      attrs := attrs[r := attrs[r].(place := attrs[r].place.(listed := true))];
      rqQueued := rqQueued + 1;
    }

    /** cfq_reposition_rq_rb after a front merge has moved the start of r. */
    method MergedFront(r: Id, start: nat, key: int)
      requires Valid() && r in attrs && attrs[r].place == WAITING
      modifies this
      ensures View() == FrontMerge(old(View()), r, start, key) && Valid()
    {
      hide Mid, AddRqRb;
      ghost var s := View();
      FrontMergeKeeps(s, r, start, key);
      DetachKeeps(s, r, start);
      assert attrs[r].q in qs by { InvKnown(s, r); }
      var q := attrs[r].q;
      var c := Queued(qs[q], attrs[r].sync, -1);
      qs := qs[q := c.(sort := Minus(c.sort, r))];
      attrs := attrs[r := attrs[r].(place := attrs[r].place.(sorted := false))];
      starts := starts[r := start];
      assert View() == Detach(s, r, start);
      AddToSort(r, key);
    }

    /** cfq_merged_requests, with elv_merge_requests' nr_sorted. */
    method MergedRequests(r: Id, y: Id, older: bool)
      requires Valid() && Possible(View(), Merge(r, y, older))
      modifies this
      ensures View() == MergeRequests(old(View()), r, y, older) && Valid()
    {
      hide Mid, RemoveRequest, MovedBehind;
      MergeKeeps(View(), r, y, older);
      InvKnown(View(), r);
      if older {
        var q := attrs[r].q;
        qs := qs[q := qs[q].(fifo := MovedBehind(qs[q].fifo, r, y))];
      }
      Remove(y);
      attrs := attrs - {y};
      nrSorted := nrSorted - 1;
    }

    /** cfq_completed_request */
    method Complete(r: Id)
      requires Valid() && r in attrs && attrs[r].place == ISSUED
      modifies this
      ensures View() == Completed(old(View()), r) && Valid()
    {
      hide Mid;
      CompletedKeeps(View(), r);
      InvKnown(View(), r);
      var q := attrs[r].q;
      qs := qs[q := qs[q].(dispatched := qs[q].dispatched - 1)];
      if qs[q].sync {
        syncFlight := syncFlight - 1;
      }
      attrs := attrs - {r};
    }

    /** cfq_rb_first: the busy queue that comes first in the service order. */
    method FirstQueue() returns (q: Option<Id>)
      requires Valid()
      modifies this
      ensures View() == RbFirst(old(View())) && Valid()
      ensures q.None? ==> rr == []
      ensures q.Some? ==> q.value in qs && qs[q.value].onRr && forall p :: p in qs && qs[p].onRr ==> InOrder(qs[q.value], qs[p])
    {
      hide Mid, RrOk;
      RbFirstKeeps(View());
      InvTree(View());
      FirstIsFirst(View());
      if left.None? && rr != [] {
        left := Some(rr[0]);
      }
      q := left;
    }

    /** __cfq_forced_dispatch_cfqq */
    method ForcedQueue(q: Id, ghost s0: State, ghost d0: seq<Id>) returns (n: nat, ghost d: seq<Id>)
      requires Valid() && q in qs && Handed(s0, View(), d0)
      modifies this
      ensures Valid() && qs.Keys == old(qs).Keys && qs[q].sort == [] && qs[q].fifo == [] && !qs[q].onRr
      ensures Handed(s0, View(), d) && |d| == |d0| + n && (old(qs[q].onRr) ==> n > 0)
    {
      hide Mid, Handed, DispatchInsert, Minus;
      n, d := 0, d0;
      if qs[q].onRr {
        BusyHasNext(View(), q);
      }
      while qs[q].next.Some?
        invariant Valid() && q in qs && qs.Keys == old(qs).Keys && Handed(s0, View(), d) && |d| == |d0| + n
        invariant n == 0 ==> old(qs[q].next.Some?) == qs[q].next.Some?
        decreases |qs[q].sort|
      {
        ghost var s := View();
        var r := qs[q].next.value;
        NextWaits(s, q);
        DispatchKeeps(s, r, None, {});
        assert {} - {r} == {};
        HandedStep(s0, s, d, r);
        DispatchShape(s, r);
        DispatchRequest(r);
        assert |qs[q].sort| < |s.qs[q].sort| by { MinusShrinks(s.qs[q].sort, r); }
        n, d := n + 1, d + [r];
      }
      QuietQueue(View(), q);
    }

    /** cfq_forced_dispatch: the loops end, no queue is busy, nothing waits, and every request that
        waited has been handed to the dispatch list, exactly once. */
    method ForcedDispatch() returns (dispatched: nat, ghost d: seq<Id>)
      requires Valid()
      modifies this
      ensures Valid() && rr == [] && busy == 0 && rqQueued == 0 && nrSorted == 0
      ensures forall q :: q in qs ==> qs[q].sort == [] && qs[q].fifo == [] && qs[q].next.None? && !qs[q].onRr
      ensures handed == old(handed) + d && Distinct(d) && |d| == dispatched == old(nrSorted)
      ensures Ids(d) == set r | r in old(attrs) && old(attrs)[r].place == WAITING
      ensures forall r :: r in attrs ==> attrs[r].place == ISSUED
    {
      hide Mid, Handed;
      ghost var s0 := View();
      dispatched, d := 0, [];
      HandedNone(s0);
      HandedCached(s0, s0, d);
      var q := FirstQueue();
      while q.Some?
        invariant Valid() && Handed(s0, View(), d) && |d| == dispatched
        invariant q.None? ==> rr == []
        invariant q.Some? ==> q.value in qs && qs[q.value].onRr
        decreases nrSorted
      {
        HandedCounts(s0, View(), d);
        ghost var before := nrSorted;
        var n;
        n, d := ForcedQueue(q.value, s0, d);
        HandedCounts(s0, View(), d);
        dispatched := dispatched + n;
        ghost var s := View();
        q := FirstQueue();
        HandedCached(s0, s, d);
        assert nrSorted < before;
        NonNegative(View());
      }
      HandedAll(s0, View(), d);
      HandedCounts(s0, View(), d);
      IdleIsEmpty(View());
    }
  }

  lemma ErasedOk(s: State, q: Id)
    requires q in s.qs && s.qs[q].onRr && (RrOk(s, {}) || RrOk(s, {q}))
    ensures q in RrErase(s, q).qs && Ordered(RrErase(s, q)) && RrErase(s, q).qs == s.qs
    ensures q !in s.rr ==> RrErase(s, q) == s
  {
    IdsMember(s.rr, q);
    if q in s.rr {
      RrEraseKeeps(s, q);
    }
  }

  lemma NowBusy(s: State, q: Id)
    requires RrOk(s, {}) && q in s.qs && !s.qs[q].onRr
    ensures RrOk(SetQ(s, q, s.qs[q].(onRr := true)).(busy := s.busy + 1), {q})
  {
    OrderedFrame(s, SetQ(s, q, s.qs[q].(onRr := true)).(busy := s.busy + 1));
  }

  lemma MidFacts(s: State, r: Id)
    requires r in s.attrs && Mid(s, Some(r), {r})
    ensures s.attrs[r].q in s.qs && r in s.starts && Sorted(s.starts, s.qs[s.attrs[r].q].sort) && RrOk(s, {})
  {
    hide RrOk;
    AttrsAre(s, {r}, r);
    assert ListsOk(s.qs[s.attrs[r].q], s.attrs[r].q, s.attrs, s.starts);
  }

  lemma AliasDispatched(s: State, r: Id)
    requires Mid(s, Some(r), {r}) && r in s.attrs && !s.attrs[r].place.sorted && AliasOf(s, r).Some?
    ensures var x, s' := AliasOf(s, r).value, DispatchInsert(s, AliasOf(s, r).value);
            && x in s.attrs && s.attrs[x].q in s.qs && r in s'.attrs && s'.attrs[r] == s.attrs[r]
            && Mid(s', Some(r), {r}) && s'.starts == s.starts && AliasOf(s', r).None?
  {
    hide Mid, DispatchInsert;
    var x := AliasOf(s, r).value;
    AliasWaits(s, r);
    DispatchKeeps(s, x, Some(r), {r});
    assert {r} - {x} == {r};
    DispatchShape(s, x);
  }

  lemma MidKnown(s: State, r: Id)
    requires r in s.attrs && Mid(s, None, {r})
    ensures s.attrs[r].q in s.qs
  {
  }

  lemma InvKnown(s: State, r: Id)
    requires r in s.attrs && Inv(s)
    ensures s.attrs[r].q in s.qs
  {
  }

  lemma InvTree(s: State)
    requires Inv(s)
    ensures RrOk(s, {})
  {
  }

  lemma BusyHasNext(s: State, q: Id)
    requires Inv(s) && q in s.qs && s.qs[q].onRr
    ensures s.qs[q].next.Some?
  {
    assert NextOk(s.qs[q], HoleOf(s, q, None));
  }

  lemma MinusShrinks(q: seq<Id>, r: Id)
    requires r in q
    ensures |Minus(q, r)| < |q|
  {
  }

  lemma HandedNone(s: State)
    ensures Handed(s, s, [])
  {
  }

  lemma HandedCounts(s0: State, s: State, d: seq<Id>)
    requires Handed(s0, s, d)
    ensures s.handed == s0.handed + d && Distinct(d) && s.nrSorted == s0.nrSorted - |d|
  {
  }

  lemma HandedCached(s0: State, s: State, d: seq<Id>)
    requires Handed(s0, s, d)
    ensures Handed(s0, RbFirst(s), d)
  {
  }

  lemma NonNegative(s: State)
    requires Inv(s)
    ensures s.nrSorted >= 0
  {
  }
}
