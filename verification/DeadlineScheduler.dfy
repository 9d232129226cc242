/** The deadline_data object.  Its methods update lists, tree and counters in place and are proved
    to compute the functions of Deadline; Drain is elv_drain_elevator over this scheduler. */
module DeadlineScheduler {
  import opened Options
  import opened Deadline
  import opened IdSeq
  import opened SectorTree

  class Scheduler {
    const tun: Tunables
    var attrs: Attrs
    var read: Lane
    var write: Lane
    var batching: nat
    var lastSector: nat
    var starved: nat
    var nrSorted: int
    var queue: seq<Id>
    var now: nat

    ghost function View(): State
      reads this
    {
      State(tun, attrs, read, write, batching, lastSector, starved, nrSorted, queue, now)
    }

    ghost predicate Valid()
      reads this
    {
      Inv(View())
    }

    constructor (tun: Tunables)
      ensures View() == Init(tun) && Valid()
    {
      this.tun := tun;
      attrs, read, write := map[], Lane([], [], None), Lane([], [], None);
      batching, lastSector, starved, nrSorted, queue, now := 0, 0, 0, 0, [], 0;
    }

    function LaneOf(d: Dir): (l: Lane)
      reads this
      ensures l == Get(View(), d)
    {
      if d.Read? then read else write
    }

    /** The descent of elv_rb_add to its alias or to the place of a new node. */
    method Descend(d: Dir, sector: nat) returns (i: nat, alias: Option<Id>)
      requires TreeOk(attrs, d, LaneOf(d).tree)
      ensures i == Place(StartsOf(attrs), LaneOf(d).tree, sector) && alias == Alias(StartsOf(attrs), LaneOf(d).tree, sector)
    {
      var tree := LaneOf(d).tree;
      var lo, hi := 0, |tree|;
      while lo < hi
        invariant 0 <= lo <= hi <= |tree|
        invariant forall j :: 0 <= j < lo ==> SectorOf(StartsOf(attrs), tree[j]) < sector
        invariant forall j :: hi <= j < |tree| ==> sector < SectorOf(StartsOf(attrs), tree[j])
      {
        var mid := (lo + hi) / 2;
        if sector < attrs[tree[mid]].sector {
          hi := mid;
        } else if sector > attrs[tree[mid]].sector {
          lo := mid + 1;
        } else {
          PlaceUnique(StartsOf(attrs), tree, sector, mid);
          return mid, Some(tree[mid]);
        }
      }
      PlaceUnique(StartsOf(attrs), tree, sector, lo);
      return lo, None;
    }

    /** deadline_move_request */
    method Move(x: Id)
      requires x in attrs
      modifies this
      ensures View() == MoveRequest(old(View()), x)
    {
      var d := attrs[x].dir;
      var l := LaneOf(d);
      read, write := read.(next := None), write.(next := None);
      var left := Lane(Minus(l.tree, x), Minus(l.fifo, x), Latter(l.tree, x));
      if d.Read? {
        read := left;
      } else {
        write := left;
      }
      lastSector := attrs[x].sector + attrs[x].sectors;
      nrSorted := nrSorted - 1;
      queue := queue + [x];
    }

    /** deadline_add_rq_rb: dispatch aliases until there is room, then link x into the tree. */
    method AddToTree(x: Id)
      requires x in attrs && TreeOk(attrs, attrs[x].dir, LaneOf(attrs[x].dir).tree)
      modifies this
      ensures View() == AddRqRb(old(View()), x)
    {
      hide MoveRequest, Minus, Place, Alias;
      ghost var s := View();
      var d, sector := attrs[x].dir, attrs[x].sector;
      var i, alias := Descend(d, sector);
      while alias.Some?
        invariant attrs == s.attrs && TreeOk(attrs, d, LaneOf(d).tree)
        invariant alias.Some? ==> View() == s && alias == Alias(StartsOf(s.attrs), Get(s, d).tree, sector)
        invariant alias.None? ==> i == Place(StartsOf(attrs), LaneOf(d).tree, sector)
        invariant alias.None? ==>
          var a := Alias(StartsOf(s.attrs), Get(s, d).tree, sector);
          View() == if a.Some? then MoveRequest(s, a.value) else s
        decreases alias.Some?
      {
        TreeSorted(attrs, d, LaneOf(d).tree);
        OneAlias(StartsOf(attrs), LaneOf(d).tree, sector);
        AliasGone(s, d, alias.value);
        Move(alias.value);
        i, alias := Descend(d, sector);
      }
      var l := LaneOf(d);
      var tree := l.tree[..i] + [x] + l.tree[i..];
      if d.Read? {
        read := read.(tree := tree);
      } else {
        write := write.(tree := tree);
      }
    }

    /** deadline_add_request, with elv_insert's nr_sorted. */
    method Add(x: Id, d: Dir, sector: nat, sectors: nat)
      requires Valid() && x !in read.tree && x !in write.tree
      modifies this
      ensures View() == AddRequest(old(View()), x, d, sector, sectors) && Valid()
    {
      hide TreeOk, FifoOk, AddRqRb, Gap;
      ghost var s := View();
      AddKeeps(s, x, d, sector, sectors);
      AddGap(s, x, d, sector, sectors);
      GapTree(s.(attrs := s.attrs[x := Attr(d, sector, sectors, s.now + Expire(s.tun, d))], nrSorted := s.nrSorted + 1), d, x, false);
      attrs := attrs[x := Attr(d, sector, sectors, now + Expire(tun, d))];
      nrSorted := nrSorted + 1;
      AddToTree(x);
      if d.Read? {
        read := read.(fifo := read.fifo + [x]);
      } else {
        write := write.(fifo := write.fifo + [x]);
      }
    }

    /** A front merge of n sectors and deadline_merged_request. */
    method MergedFront(x: Id, n: nat)
      requires Valid() && Queued(View(), x) && n <= attrs[x].sector
      modifies this
      ensures View() == FrontMerge(old(View()), x, n) && Valid()
    {
      hide TreeOk, FifoOk, AddRqRb, Gap, Minus;
      ghost var s := View();
      var a := attrs[x];
      FrontMergeKeeps(s, x, n);
      FrontGap(s, a.dir, x, n);
      attrs := attrs[x := a.(sector := a.sector - n, sectors := a.sectors + n)];
      if a.dir.Read? {
        read := read.(tree := Minus(read.tree, x));
      } else {
        write := write.(tree := Minus(write.tree, x));
      }
      GapTree(View(), a.dir, x, true);
      AddToTree(x);
    }

    /** attempt_merge of y into x, with deadline_merged_requests and elv_merge_requests. */
    method Merged(x: Id, y: Id)
      requires Valid() && Queued(View(), x) && Queued(View(), y) && x != y && attrs[x].dir == attrs[y].dir
      modifies this
      ensures View() == MergeRequests(old(View()), x, y) && Valid()
    {
      hide Minus, MovedBehind, Latter, Inv;
      MergeKeeps(View(), attrs[x].dir, x, y);
      var d := attrs[x].dir;
      var l := LaneOf(d);
      var fifo, a := l.fifo, attrs[x].(sectors := attrs[x].sectors + attrs[y].sectors);
      if attrs[y].expire < attrs[x].expire {
        fifo := MovedBehind(fifo, x, y);
        a := a.(expire := attrs[y].expire);
      }
      var next := l.next;
      if next == Some(y) {
        next := Latter(l.tree, y);
      }
      var left := Lane(Minus(l.tree, y), Minus(fifo, y), next);
      if d.Read? {
        read := left;
      } else {
        write := left;
      }
      attrs := attrs[x := a] - {y};
      nrSorted := nrSorted - 1;
    }

    /** deadline_dispatch_requests */
    method DispatchRequests() returns (dispatched: bool)
      requires Valid()
      modifies this
      ensures View() == Dispatch(old(View())) && Valid()
      ensures dispatched == !Idle(old(View()))
    {
      hide Inv, MoveRequest;
      ghost var s := View();
      DispatchKeeps(s);
      if Continues(s) || !Idle(s) {
        ChoiceIsQueued(s);
      }
      var rq := if write.next.Some? then write.next else read.next;
      var anyRead, anyWrite := read.fifo != [], write.fifo != [];
      if rq.None? || batching >= tun.fifoBatch {
        var d: Dir;
        if anyRead && !(anyWrite && starved >= tun.writesStarved) {
          if anyWrite {
            starved := starved + 1;
          }
          d := Dir.Read;
        } else if anyWrite {
          starved := 0;
          d := Dir.Write;
        } else {
          return false;
        }
        var l := LaneOf(d);
        HeadKnown(s, d);
        if now > attrs[l.fifo[0]].expire || l.next.None? {
          rq := Some(l.fifo[0]);
        } else {
          rq := l.next;
        }
        batching := 0;
      }
      batching := batching + 1;
      assert View() == Counted(s) && rq.value == Choice(s);
      Move(rq.value);
      return true;
    }

    /** elv_drain_elevator: the loop ends, and then every request the scheduler held is on the
        dispatch queue exactly once, behind what was there, and nr_sorted is zero. */
    method Drain() returns (ghost moved: seq<Id>)
      requires Valid()
      modifies this
      ensures Valid() && Idle(View()) && read.tree == [] && write.tree == [] && nrSorted == 0
      ensures queue == old(queue) + moved && |moved| == old(nrSorted)
      ensures multiset(moved) == multiset(old(read.tree)) + multiset(old(write.tree))
    {
      hide Dispatch, Choice, Idle, TreeOk, FifoOk;
      moved := [];
      var more := true;
      while more
        invariant Valid() && (!more ==> Idle(View()))
        invariant queue == old(queue) + moved && |moved| + nrSorted == old(nrSorted)
        invariant multiset(moved) + multiset(read.tree) + multiset(write.tree) == multiset(old(read.tree)) + multiset(old(write.tree))
        decreases nrSorted, more
      {
        ghost var s := View();
        DispatchMovesOne(s);
        more := DispatchRequests();
        if more {
          ghost var m, c := moved, Choice(s);
          moved := m + [c];
          assert multiset(moved) == multiset(m) + multiset{c};
          assert multiset(m) + multiset{c} + multiset(read.tree) + multiset(write.tree) ==
                 multiset(m) + (multiset(s.read.tree) + multiset(s.write.tree));
        }
      }
      IdleIsEmpty(View());
    }
  }

  lemma AliasGone(s: State, d: Dir, x: Id)
    requires TreeOk(s.attrs, d, Get(s, d).tree) && x in Get(s, d).tree
    ensures x in s.attrs && s.attrs[x].dir == d
    ensures MoveRequest(s, x).attrs == s.attrs && Get(MoveRequest(s, x), d).tree == Minus(Get(s, d).tree, x)
    ensures TreeOk(s.attrs, d, Minus(Get(s, d).tree, x))
  {
    TreeMinus(s.attrs, d, Get(s, d).tree, x);
  }

  lemma GapTree(s: State, d: Dir, x: Id, inFifo: bool)
    requires Gap(s, d, x, inFifo)
    ensures x in s.attrs && s.attrs[x].dir == d && TreeOk(s.attrs, d, Get(s, d).tree)
  {
  }

  lemma IdleIsEmpty(s: State)
    requires Inv(s) && Idle(s)
    ensures s.read.tree == [] && s.write.tree == [] && s.nrSorted == 0
  {
    EmptyIds(s.read.tree);
    EmptyIds(s.write.tree);
  }

  lemma HeadKnown(s: State, d: Dir)
    requires Inv(s) && Get(s, d).fifo != []
    ensures Get(s, d).fifo[0] in s.attrs
  {
    var l := Get(s, d);
    assert l.fifo[0] in Ids(l.fifo);
    assert l.fifo[0] in Ids(l.tree);
  }
}
