/** The anticipatory scheduler's queue of one direction: a sector-sorted tree, a fifo and the cached
    next_rq.  The cache is updated by looking at two tree neighbours only; the lemmas say exactly when
    it nevertheless names the best request of the whole tree. */
module Anticipatory {

  import opened Options

  datatype Rq = Rq(id: nat, sector: nat, sectors: nat)

  const MAXBACK := 1024 * 1024
  const BACK_PENALTY := 2

  /** as_choose_req, with `last` the head position of the direction. */
  function ChooseReq(last: nat, rq1: Option<Rq>, rq2: Option<Rq>): Option<Rq> {
    if rq1 == None || rq1 == rq2 then rq2
    else if rq2 == None then rq1
    else
      var s1, s2 := rq1.value.sector, rq2.value.sector;
      var wrap1 := s1 < last && s1 + MAXBACK < last;
      var wrap2 := s2 < last && s2 + MAXBACK < last;
      var d1 := if s1 >= last then s1 - last else if wrap1 then 0 else (last - s1) * BACK_PENALTY;
      var d2 := if s2 >= last then s2 - last else if wrap2 then 0 else (last - s2) * BACK_PENALTY;
      if !wrap1 && wrap2 then rq1
      else if !wrap2 && wrap1 then rq2
      else if wrap1 && wrap2 then (if s1 <= s2 then rq1 else rq2)
      else if d1 < d2 then rq1
      else if d2 < d1 then rq2
      else if s1 >= s2 then rq1
      else rq2
  }

  // ---- what "best" means ----

  /** The cost of going to sector s: too far behind the head comes last, lowest sector first; else
      the distance, doubled backwards, and on a tie the request in front. */
  function Cost(last: nat, s: nat): (int, int, int) {
    if s + MAXBACK < last then (1, s, 0)
    else if s >= last then (0, s - last, 0)
    else (0, BACK_PENALTY * (last - s), 1)
  }

  predicate Less(a: (int, int, int), b: (int, int, int)) {
    a.0 < b.0 || (a.0 == b.0 && (a.1 < b.1 || (a.1 == b.1 && a.2 < b.2)))
  }

  predicate Better(last: nat, a: Rq, b: Rq) { Less(Cost(last, a.sector), Cost(last, b.sector)) }

  /** m is the request of the tree that is better than every other one. */
  ghost predicate IsBest(last: nat, tree: set<Rq>, m: Rq) {
    m in tree && forall r :: r in tree && r != m ==> Better(last, m, r)
  }

  /** The cache is exact. */
  ghost predicate CacheOk(last: nat, tree: set<Rq>, next: Option<Rq>) {
    match next
    case None => tree == {}
    case Some(m) => IsBest(last, tree, m)
  }

  lemma BestIsUnique(last: nat, tree: set<Rq>, a: Rq, b: Rq)
    requires IsBest(last, tree, a) && IsBest(last, tree, b)
    ensures a == b
  {
  }

  /** as_choose_req picks the better of two requests. */
  lemma ChoosesBetter(last: nat, a: Rq, b: Rq)
    requires a.sector != b.sector
    ensures ChooseReq(last, Some(a), Some(b)) == Some(if Better(last, a, b) then a else b)
    ensures Better(last, a, b) <==> !Better(last, b, a)
  {
  }

  /** A request added to the tree: comparing it with the cached best is enough. */
  lemma AddedBest(last: nat, tree: set<Rq>, next: Option<Rq>, rq: Rq)
    requires CacheOk(last, tree, next)
    requires forall r :: r in tree ==> r.sector != rq.sector
    ensures CacheOk(last, tree + {rq}, ChooseReq(last, Some(rq), next))
  {
    if next.Some? {
      ChoosesBetter(last, rq, next.value);
    }
  }

  // ---- the sorted tree ----

  predicate Sorted(t: seq<Rq>) { forall i, j :: 0 <= i < j < |t| ==> t[i].sector < t[j].sector }

  /** Queued requests do not overlap on disk. */
  predicate Disjoint(t: seq<Rq>) { forall i, j :: 0 <= i < j < |t| ==> t[i].sector + t[i].sectors <= t[j].sector }

  function Elems(t: seq<Rq>): set<Rq> { set r | r in t }

  /** as_find_next_rq: the right neighbour, or the first request when there is none, against the
      left neighbour. */
  function FindNext(last: nat, t: seq<Rq>, i: nat): Option<Rq>
    requires i < |t|
  {
    var prev := if i > 0 then Some(t[i - 1]) else None;
    var next := if i + 1 < |t| then Some(t[i + 1]) else if i != 0 then Some(t[0]) else None;
    ChooseReq(last, next, prev)
  }

  function Without(t: seq<Rq>, i: nat): seq<Rq>
    requires i < |t|
  {
    t[..i] + t[i + 1..]
  }

  lemma WithoutElems(t: seq<Rq>, i: nat)
    requires i < |t| && Sorted(t)
    ensures Elems(Without(t, i)) == Elems(t) - {t[i]}
    ensures Sorted(Without(t, i)) && (Disjoint(t) ==> Disjoint(Without(t, i)))
  {
    forall r
      ensures r in Without(t, i) <==> r in t && r != t[i]
    {
      if r in t && r != t[i] {
        var j :| 0 <= j < |t| && t[j] == r;
        assert Without(t, i)[if j < i then j else j - 1] == r;
      }
    }
  }

  /** Behind the head the nearest request is the best one that is not too far back; if even that is
      too far back, the first request of the tree is. */
  lemma BehindHead(last: nat, t: seq<Rq>, i: nat, k: nat)
    requires Sorted(t) && k < i <= |t| && t[i - 1].sector < last
    ensures !(t[i - 1].sector + MAXBACK < last) && k < i - 1 ==> Better(last, t[i - 1], t[k])
    ensures t[i - 1].sector + MAXBACK < last && 0 < k ==> Better(last, t[0], t[k])
  {
    assert k < i - 1 ==> t[k].sector < t[i - 1].sector;
    assert 0 < k ==> t[0].sector < t[k].sector;
    assert k == i - 1 || t[k].sector < last;
  }

  lemma AheadOfHead(last: nat, t: seq<Rq>, i: nat, k: nat)
    requires Sorted(t) && i < k < |t| && last <= t[i].sector
    ensures Better(last, t[i], t[k])
  {
  }

  lemma BetterIsTransitive(last: nat, a: Rq, b: Rq, c: Rq)
    requires Better(last, a, b) && Better(last, b, c)
    ensures Better(last, a, c)
  {
  }

  /** Too far behind the head to go back for. */
  predicate Far(last: nat, r: Rq) { r.sector + MAXBACK < last }

  /** What the tree must look like around request i for its two neighbours to contain the best of all
      the others once the head is at `end`.  Only a right neighbour that starts before `end`, inside
      request i, can spoil it: then the left one loses to it unless both are far, and what lies further
      right goes unseen. */
  predicate NeighboursDecide(end: nat, t: seq<Rq>, i: nat)
    requires i < |t|
  {
    || i + 1 >= |t|
    || end <= t[i + 1].sector
    || if Far(end, t[i + 1]) then i <= 1 && Far(end, t[|t| - 1])
       else i + 2 >= |t| || Better(end, t[i + 1], t[i + 2])
  }

  /** After request i has moved the head to its end, the cache computed from its neighbours is exact
      if and only if the neighbours decide. */
  lemma ExactIffNeighboursDecide(end: nat, t: seq<Rq>, i: nat)
    requires i < |t| && Sorted(t) && t[i].sector <= end
    ensures CacheOk(end, Elems(t) - {t[i]}, FindNext(end, t, i)) <==> NeighboursDecide(end, t, i)
  {
    hide Cost, ChooseReq, FindNext;
    if |t| == 1 {
      assert Elems(t) - {t[i]} == {};
      FoundNone(end, t, i);
    } else {
      FoundAmongOthers(end, t, i);
      if NeighboursDecide(end, t, i) {
        FoundIsBest(end, t, i);
      } else {
        FoundIsBeaten(end, t, i);
      }
    }
  }

  lemma FoundNone(end: nat, t: seq<Rq>, i: nat)
    requires i < |t| == 1
    ensures FindNext(end, t, i) == None
  {
  }

  lemma FoundIsBest(end: nat, t: seq<Rq>, i: nat)
    requires i < |t| && |t| > 1 && Sorted(t) && t[i].sector <= end && NeighboursDecide(end, t, i)
    ensures CacheOk(end, Elems(t) - {t[i]}, FindNext(end, t, i))
  {
    hide Better, ChooseReq, FindNext, NeighboursDecide;
    FoundAmongOthers(end, t, i);
    var m := FindNext(end, t, i).value;
    forall r | r in Elems(t) - {t[i]} && r != m
      ensures Better(end, m, r)
    {
      var k :| 0 <= k < |t| && t[k] == r;
      FoundBeats(end, t, i, k);
    }
  }

  lemma FoundAmongOthers(last: nat, t: seq<Rq>, i: nat)
    requires i < |t| && Sorted(t) && |t| > 1
    ensures FindNext(last, t, i).Some? && FindNext(last, t, i).value in Elems(t) - {t[i]}
  {
  }

  lemma FoundBeats(last: nat, t: seq<Rq>, i: nat, k: nat)
    requires i < |t| && k < |t| && k != i && Sorted(t) && t[i].sector <= last && NeighboursDecide(last, t, i)
    ensures FindNext(last, t, i).Some? && (t[k] == FindNext(last, t, i).value || Better(last, FindNext(last, t, i).value, t[k]))
  {
    if i + 1 < |t| && t[i + 1].sector < last {
      InsideBeats(last, t, i, k);
    } else {
      OutsideBeats(last, t, i, k);
    }
  }

  /** No request starts inside request i. */
  lemma OutsideBeats(last: nat, t: seq<Rq>, i: nat, k: nat)
    requires i < |t| && k < |t| && k != i && Sorted(t) && t[i].sector <= last
    requires i + 1 < |t| ==> last <= t[i + 1].sector
    ensures FindNext(last, t, i).Some? && (t[k] == FindNext(last, t, i).value || Better(last, FindNext(last, t, i).value, t[k]))
  {
    if i > 0 {
      BehindHead(last, t, i, if k < i then k else 0);
      if i + 1 < |t| {
        ChoosesBetter(last, t[i + 1], t[i - 1]);
      } else if i > 1 {
        ChoosesBetter(last, t[0], t[i - 1]);
      }
    }
    if i + 1 < k {
      AheadOfHead(last, t, i + 1, k);
    }
  }

  /** What is found when the right neighbour starts inside request i. */
  lemma FoundInside(last: nat, t: seq<Rq>, i: nat)
    requires i + 1 < |t| && Sorted(t) && t[i + 1].sector < last
    ensures FindNext(last, t, i) == Some(if Far(last, t[i + 1]) && i > 0 then t[i - 1] else t[i + 1])
  {
    if i > 0 {
      assert t[i - 1].sector < t[i + 1].sector;
      ChoosesBetter(last, t[i + 1], t[i - 1]);
    }
  }

  lemma InsideBeats(last: nat, t: seq<Rq>, i: nat, k: nat)
    requires i + 1 < |t| && k < |t| && k != i && Sorted(t) && t[i + 1].sector < last && NeighboursDecide(last, t, i)
    ensures FindNext(last, t, i).Some? && (t[k] == FindNext(last, t, i).value || Better(last, FindNext(last, t, i).value, t[k]))
  {
    hide FindNext;
    FoundInside(last, t, i);
    if Far(last, t[i + 1]) {
      assert k < |t| - 1 ==> t[k].sector < t[|t| - 1].sector;
      assert k > 0 ==> t[0].sector < t[k].sector;
      assert k > 1 ==> t[1].sector < t[k].sector;
    } else if k > i + 1 {
      if k > i + 2 {
        AheadOfHead(last, t, i + 2, k);
        BetterIsTransitive(last, t[i + 1], t[i + 2], t[k]);
      }
    } else if k < i {
      assert t[k].sector < t[i + 1].sector;
    }
  }

  /** When the neighbours do not decide, some other request is better than the one they give. */
  lemma FoundIsBeaten(end: nat, t: seq<Rq>, i: nat)
    requires i < |t| && |t| > 1 && Sorted(t) && t[i].sector <= end && !NeighboursDecide(end, t, i)
    ensures !CacheOk(end, Elems(t) - {t[i]}, FindNext(end, t, i))
  {
    hide FindNext;
    FoundInside(end, t, i);
    var m := FindNext(end, t, i).value;
    var k := if !Far(end, t[i + 1]) then i + 2 else if !Far(end, t[|t| - 1]) then |t| - 1 else 0;
    assert t[k] in Elems(t) - {t[i]} && t[k] != m && !Better(end, m, t[k]) by {
      assert k == 0 ==> t[0].sector < t[i - 1].sector;
      assert t[k] in Elems(t);
    }
  }

  /** In particular it is exact when no queued request starts inside the one dispatched. */
  lemma NeighboursSuffice(t: seq<Rq>, i: nat)
    requires i < |t| && Sorted(t)
    requires i + 1 < |t| ==> t[i].sector + t[i].sectors <= t[i + 1].sector
    ensures CacheOk(t[i].sector + t[i].sectors, Elems(t) - {t[i]}, FindNext(t[i].sector + t[i].sectors, t, i))
  {
    ExactIffNeighboursDecide(t[i].sector + t[i].sectors, t, i);
  }

  // ---- the queue of one direction ----

  /** sort_list, fifo_list, next_rq and last_sector of a direction, and what it has handed over. */
  datatype State = State(tree: seq<Rq>, fifo: seq<Rq>, next: Option<Rq>, last: nat, dispatched: seq<Rq>)

  const INIT := State([], [], None, 0, [])

  /** Where as_find_next_rq's starting point sits in the tree. */
  function IndexOf(t: seq<Rq>, r: Rq): (i: nat)
    requires r in t
    ensures i < |t| && t[i] == r
  {
    if t[0] == r then 0 else 1 + IndexOf(t[1..], r)
  }

  function Removed(fifo: seq<Rq>, r: Rq): (f: seq<Rq>) {
    if r in fifo then Without(fifo, IndexOf(fifo, r)) else fifo
  }

  /** as_move_to_dispatch of request i of the tree: the head moves to its end, the cache is recomputed
      from its neighbours, and it leaves tree and fifo. */
  function Moved(s: State, i: nat): State
    requires i < |s.tree|
  {
    var rq := s.tree[i];
    var end := rq.sector + rq.sectors;
    State(Without(s.tree, i), Removed(s.fifo, rq), FindNext(end, s.tree, i), end, s.dispatched + [rq])
  }

  /** Where elv_rb_add's descent ends: the first request that does not start before the sector. */
  function Place(t: seq<Rq>, sector: nat): (i: nat)
    ensures i <= |t|
    ensures forall j :: 0 <= j < i ==> t[j].sector < sector
    ensures i < |t| ==> sector <= t[i].sector
  {
    if t == [] || sector <= t[0].sector then 0 else 1 + Place(t[1..], sector)
  }

  predicate HasAlias(s: State, rq: Rq) {
    var i := Place(s.tree, rq.sector);
    i < |s.tree| && s.tree[i].sector == rq.sector
  }

  /** as_add_rq_rb's loop: a queued request that starts at the same sector is dispatched. */
  function Cleared(s: State, rq: Rq): State {
    if HasAlias(s, rq) then Moved(s, Place(s.tree, rq.sector)) else s
  }

  /** The insertion into tree and fifo, and as_update_rq's comparison with the cached request. */
  function Inserted(s: State, rq: Rq): State {
    var i := Place(s.tree, rq.sector);
    s.(tree := s.tree[..i] + [rq] + s.tree[i..], fifo := s.fifo + [rq], next := ChooseReq(s.last, Some(rq), s.next))
  }

  /** as_add_request */
  function Added(s: State, rq: Rq): State { Inserted(Cleared(s, rq), rq) }

  ghost predicate Exact(s: State) { CacheOk(s.last, Elems(s.tree), s.next) }

  /** t and fifo hold the same requests, each once. */
  ghost predicate SameRequests(t: seq<Rq>, fifo: seq<Rq>) {
    Elems(t) == Elems(fifo) && (forall i, j :: 0 <= i < j < |fifo| ==> fifo[i] != fifo[j])
  }

  ghost predicate Inv(s: State) {
    && Sorted(s.tree) && SameRequests(s.tree, s.fifo)
    && (if s.next.None? then s.tree == [] else s.next.value in Elems(s.tree))
  }

  lemma RemovedElems(fifo: seq<Rq>, r: Rq)
    requires r in fifo && forall i, j :: 0 <= i < j < |fifo| ==> fifo[i] != fifo[j]
    ensures Elems(Removed(fifo, r)) == Elems(fifo) - {r}
    ensures forall i, j :: 0 <= i < j < |Removed(fifo, r)| ==> Removed(fifo, r)[i] != Removed(fifo, r)[j]
  {
    CutElems(fifo, IndexOf(fifo, r));
  }

  lemma CutElems(fifo: seq<Rq>, k: nat)
    requires k < |fifo| && forall i, j :: 0 <= i < j < |fifo| ==> fifo[i] != fifo[j]
    ensures Elems(Without(fifo, k)) == Elems(fifo) - {fifo[k]}
    ensures forall i, j :: 0 <= i < j < |fifo| - 1 ==> Without(fifo, k)[i] != Without(fifo, k)[j]
  {
    hide Without;
    var f := Without(fifo, k);
    WithoutAt(fifo, k);
    forall x
      ensures x in f <==> x in fifo && x != fifo[k]
    {
      if x in fifo && x != fifo[k] {
        var j :| 0 <= j < |fifo| && fifo[j] == x;
        assert f[if j < k then j else j - 1] == x;
      }
    }
  }

  lemma WithoutAt(fifo: seq<Rq>, k: nat)
    requires k < |fifo|
    ensures |Without(fifo, k)| == |fifo| - 1
    ensures forall j {:trigger Without(fifo, k)[j]} :: 0 <= j < |fifo| - 1 ==> Without(fifo, k)[j] == if j < k then fifo[j] else fifo[j + 1]
  {
  }

  lemma MovedKeeps(s: State, i: nat)
    requires Inv(s) && i < |s.tree|
    ensures Inv(Moved(s, i))
    ensures Elems(Moved(s, i).tree) == Elems(s.tree) - {s.tree[i]}
    ensures Exact(Moved(s, i)) <==> NeighboursDecide(s.tree[i].sector + s.tree[i].sectors, s.tree, i)
  {
    hide CacheOk, FindNext, Removed, Without, NeighboursDecide;
    var end := s.tree[i].sector + s.tree[i].sectors;
    assert s.tree[i] in Elems(s.tree) && s.tree[i] in Elems(s.fifo);
    ExactIffNeighboursDecide(end, s.tree, i);
    WithoutElems(s.tree, i);
    RemovedElems(s.fifo, s.tree[i]);
    if |s.tree| > 1 {
      FoundAmongOthers(end, s.tree, i);
    } else {
      FoundNone(end, s.tree, i);
      WithoutOnly(s.tree, i);
    }
  }

  lemma WithoutOnly(t: seq<Rq>, i: nat)
    requires i < |t| == 1
    ensures Without(t, i) == []
  {
  }

  /** Where a request for this sector belongs when the tree has none. */
  predicate IsGap(t: seq<Rq>, i: nat, sector: nat) {
    && i <= |t|
    && (forall j :: 0 <= j < i ==> t[j].sector < sector)
    && (forall j :: i <= j < |t| ==> sector < t[j].sector)
  }

  lemma PlaceIsGap(s: State, rq: Rq)
    requires Sorted(s.tree) && !HasAlias(s, rq)
    ensures IsGap(s.tree, Place(s.tree, rq.sector), rq.sector)
  {
  }

  lemma {:induction false} PlaceUnique(t: seq<Rq>, i: nat, sector: nat)
    requires i <= |t| && (forall j :: 0 <= j < i ==> t[j].sector < sector) && (i < |t| ==> sector <= t[i].sector)
    ensures Place(t, sector) == i
  {
  }

  /** Once the alias is gone nothing starts at its sector. */
  lemma OneAlias(s: State, rq: Rq)
    requires Sorted(s.tree)
    ensures Sorted(Cleared(s, rq).tree) && !HasAlias(Cleared(s, rq), rq)
  {
    hide FindNext, Removed;
    var i, t := Place(s.tree, rq.sector), Cleared(s, rq).tree;
    if HasAlias(s, rq) {
      WithoutElems(s.tree, i);
      assert forall j {:trigger t[j]} :: 0 <= j < |t| ==> t[j] == if j < i then s.tree[j] else s.tree[j + 1];
      PlaceUnique(t, i, rq.sector);
    }
  }

  lemma GapHasNoAlias(t: seq<Rq>, i: nat, rq: Rq)
    requires IsGap(t, i, rq.sector)
    ensures forall r :: r in Elems(t) ==> r.sector != rq.sector
  {
  }

  lemma InsertSorted(t: seq<Rq>, i: nat, rq: Rq)
    requires Sorted(t) && IsGap(t, i, rq.sector)
    ensures var t' := t[..i] + [rq] + t[i..]; Sorted(t') && Elems(t') == Elems(t) + {rq}
  {
    InsertElems(t, i, rq);
    hide Elems;
    var t' := t[..i] + [rq] + t[i..];
    assert forall j {:trigger t'[j]} :: 0 <= j < |t'| ==> t'[j] == if j < i then t[j] else if j == i then rq else t[j - 1];
  }

  lemma InsertElems(t: seq<Rq>, i: nat, rq: Rq)
    requires i <= |t|
    ensures Elems(t[..i] + [rq] + t[i..]) == Elems(t) + {rq}
  {
    assert t == t[..i] + t[i..];
  }

  lemma ChoosesOne(last: nat, a: Rq, b: Option<Rq>)
    ensures ChooseReq(last, Some(a), b) == Some(a) || (b.Some? && ChooseReq(last, Some(a), b) == b)
  {
  }

  lemma InsertedKeeps(s: State, rq: Rq)
    requires Inv(s) && !HasAlias(s, rq)
    ensures Inv(Inserted(s, rq)) && Elems(Inserted(s, rq).tree) == Elems(s.tree) + {rq}
    ensures Exact(Inserted(s, rq)) <==> Exact(s) || IsBest(s.last, Elems(s.tree) + {rq}, rq)
  {
    hide CacheOk, IsBest, ChooseReq, Sorted, IsGap, HasAlias;
    var i := Place(s.tree, rq.sector);
    PlaceIsGap(s, rq);
    GapHasNoAlias(s.tree, i, rq);
    InsertSorted(s.tree, i, rq);
    ChoosesOne(s.last, rq, s.next);
    AddedFifo(s.fifo, rq);
    InsertedExact(s.last, Elems(s.tree), s.next, rq);
  }

  lemma AddedFifo(fifo: seq<Rq>, rq: Rq)
    ensures Elems(fifo + [rq]) == Elems(fifo) + {rq}
    ensures rq !in Elems(fifo) ==> forall i :: 0 <= i < |fifo| ==> fifo[i] != rq
  {
  }

  /** Comparing a new request with the cached one keeps an exact cache exact, and makes an inexact one
      exact only if the new request is the best of all. */
  lemma InsertedExact(last: nat, tree: set<Rq>, next: Option<Rq>, rq: Rq)
    requires if next.None? then tree == {} else next.value in tree
    requires forall r :: r in tree ==> r.sector != rq.sector
    ensures CacheOk(last, tree + {rq}, ChooseReq(last, Some(rq), next))
      <==> CacheOk(last, tree, next) || IsBest(last, tree + {rq}, rq)
  {
    if CacheOk(last, tree, next) {
      AddedBest(last, tree, next, rq);
    } else {
      ChoosesBetter(last, rq, next.value);
    }
  }

  /** Adding a request keeps tree, fifo and cache together; the cache is exact afterwards iff it was,
      with any alias gone, or the new request is the best. */
  lemma AddedKeeps(s: State, rq: Rq)
    requires Inv(s)
    ensures Inv(Added(s, rq)) && Elems(Added(s, rq).tree) == Elems(Cleared(s, rq).tree) + {rq}
    ensures Exact(Added(s, rq)) <==>
      Exact(Cleared(s, rq)) || IsBest(Added(s, rq).last, Elems(Added(s, rq).tree), rq)
  {
    hide Exact, IsBest, Moved;
    OneAlias(s, rq);
    if HasAlias(s, rq) {
      MovedKeeps(s, Place(s.tree, rq.sector));
    }
    InsertedKeeps(Cleared(s, rq), rq);
  }

  // ---- runs ----

  /** Adding a request, or dispatching any queued one: next_rq, or the fifo head when it has expired. */
  datatype Step = Add(rq: Rq) | Dispatch(rq: Rq)

  predicate Enabled(s: State, step: Step) { step.Dispatch? ==> step.rq in s.tree }

  function Next(s: State, step: Step): State
    requires Enabled(s, step)
  {
    match step
    case Add(rq) => Added(s, rq)
    case Dispatch(rq) => Moved(s, IndexOf(s.tree, rq))
  }

  predicate Possible(s: State, steps: seq<Step>)
    decreases |steps|
  {
    steps == [] || (Enabled(s, steps[0]) && Possible(Next(s, steps[0]), steps[1..]))
  }

  function Run(s: State, steps: seq<Step>): State
    requires Possible(s, steps)
    decreases |steps|
  {
    if steps == [] then s else Run(Next(s, steps[0]), steps[1..])
  }

  /** The neighbours of the request this step dispatches, if any, decide. */
  predicate Decides(s: State, step: Step)
    requires Enabled(s, step)
  {
    match step
    case Add(rq) =>
      HasAlias(s, rq) ==>
      var i := Place(s.tree, rq.sector);
      NeighboursDecide(s.tree[i].sector + s.tree[i].sectors, s.tree, i)
    case Dispatch(rq) => NeighboursDecide(rq.sector + rq.sectors, s.tree, IndexOf(s.tree, rq))
  }

  predicate AllDecide(s: State, steps: seq<Step>)
    requires Possible(s, steps)
    decreases |steps|
  {
    steps == [] || (Decides(s, steps[0]) && AllDecide(Next(s, steps[0]), steps[1..]))
  }

  lemma StepKeepsInv(s: State, step: Step)
    requires Inv(s) && Enabled(s, step)
    ensures Inv(Next(s, step))
    ensures Exact(s) && Decides(s, step) ==> Exact(Next(s, step))
  {
    hide Inv, Exact, Moved, Inserted, NeighboursDecide, IsBest;
    match step
    case Add(rq) =>
      AddedKeeps(s, rq);
      if HasAlias(s, rq) {
        MovedKeeps(s, Place(s.tree, rq.sector));
      }
    case Dispatch(rq) => MovedKeeps(s, IndexOf(s.tree, rq));
  }

  lemma {:induction false} RunKeepsInv(s: State, steps: seq<Step>)
    requires Inv(s) && Possible(s, steps)
    ensures Inv(Run(s, steps))
    ensures Exact(s) && AllDecide(s, steps) ==> Exact(Run(s, steps))
    decreases |steps|
  {
    hide Inv, Exact, Next, Enabled, Decides;
    if steps != [] {
      StepKeepsInv(s, steps[0]);
      RunKeepsInv(Next(s, steps[0]), steps[1..]);
    }
  }

  /** In every run, whatever overlaps, tree and fifo hold the same requests and next_rq is one of them;
      and the cache is exact when every dispatch found neighbours that decide. */
  lemma EveryRunIsSound(steps: seq<Step>)
    requires Possible(INIT, steps)
    ensures Inv(Run(INIT, steps))
    ensures AllDecide(INIT, steps) ==> Exact(Run(INIT, steps))
  {
    RunKeepsInv(INIT, steps);
  }

  /** After a dispatch nothing of the past matters: in every run that ends with one the cache is exact
      if and only if the neighbours of the dispatched request decide. */
  lemma ExactAfterDispatchIff(steps: seq<Step>, rq: Rq)
    requires Possible(INIT, steps) && rq in Run(INIT, steps).tree
    ensures var s := Run(INIT, steps);
            Exact(Next(s, Dispatch(rq))) <==> NeighboursDecide(rq.sector + rq.sectors, s.tree, IndexOf(s.tree, rq))
  {
    hide Inv, Exact, Moved, NeighboursDecide;
    EveryRunIsSound(steps);
    MovedKeeps(Run(INIT, steps), IndexOf(Run(INIT, steps).tree, rq));
  }

  // ---- requests that do not overlap ----

  predicate Apart(a: Rq, b: Rq) { a.sector + a.sectors <= b.sector || b.sector + b.sectors <= a.sector }

  predicate ApartFromAll(s: State, rq: Rq) {
    forall i :: 0 <= i < |s.tree| && s.tree[i].sector != rq.sector ==> Apart(rq, s.tree[i])
  }

  /** Every request added is apart from all those queued, but for one at its own sector. */
  predicate AllApart(s: State, steps: seq<Step>)
    requires Possible(s, steps)
    decreases |steps|
  {
    steps == [] || ((steps[0].Add? ==> ApartFromAll(s, steps[0].rq)) && AllApart(Next(s, steps[0]), steps[1..]))
  }

  lemma DisjointDecides(t: seq<Rq>, i: nat)
    requires Disjoint(t) && i < |t|
    ensures NeighboursDecide(t[i].sector + t[i].sectors, t, i)
  {
  }

  lemma WithoutDisjoint(t: seq<Rq>, i: nat)
    requires Disjoint(t) && i < |t|
    ensures Disjoint(Without(t, i))
  {
  }

  lemma InsertDisjoint(t: seq<Rq>, i: nat, rq: Rq)
    requires Disjoint(t) && IsGap(t, i, rq.sector)
    requires forall j :: 0 <= j < |t| ==> Apart(rq, t[j])
    ensures Disjoint(t[..i] + [rq] + t[i..])
  {
    var t' := t[..i] + [rq] + t[i..];
    assert forall j {:trigger t'[j]} :: 0 <= j < |t'| ==> t'[j] == if j < i then t[j] else if j == i then rq else t[j - 1];
    forall j, k | 0 <= j < k < |t'|
      ensures t'[j].sector + t'[j].sectors <= t'[k].sector
    {
      assert j != i && k != i ==> t'[j].sector + t'[j].sectors <= t'[k].sector;
    }
  }

  lemma AddedDisjoint(s: State, rq: Rq)
    requires Inv(s) && Disjoint(s.tree)
    requires ApartFromAll(s, rq)
    ensures Disjoint(Added(s, rq).tree)
  {
    hide FindNext, Removed, ChooseReq, Apart;
    var s1, i := Cleared(s, rq), Place(s.tree, rq.sector);
    if HasAlias(s, rq) {
      WithoutDisjoint(s.tree, i);
      WithoutElems(s.tree, i);
    }
    OneAlias(s, rq);
    PlaceIsGap(s1, rq);
    GapHasNoAlias(s1.tree, Place(s1.tree, rq.sector), rq);
    forall j | 0 <= j < |s1.tree|
      ensures Apart(rq, s1.tree[j])
    {
      assert s1.tree[j] in Elems(s1.tree) && s1.tree[j] in Elems(s.tree);
    }
    InsertDisjoint(s1.tree, Place(s1.tree, rq.sector), rq);
  }

  lemma {:induction false} ApartRunDecides(s: State, steps: seq<Step>)
    requires Inv(s) && Disjoint(s.tree) && Possible(s, steps) && AllApart(s, steps)
    ensures AllDecide(s, steps)
    decreases |steps|
  {
    hide Inv, Exact, Disjoint, Added, Moved, Apart, NeighboursDecide;
    if steps != [] {
      StepKeepsInv(s, steps[0]);
      match steps[0] {
        case Add(rq) =>
          AddedDisjoint(s, rq);
          if HasAlias(s, rq) {
            DisjointDecides(s.tree, Place(s.tree, rq.sector));
          }
        case Dispatch(rq) =>
          MovedDisjoint(s, IndexOf(s.tree, rq));
          DisjointDecides(s.tree, IndexOf(s.tree, rq));
      }
      ApartRunDecides(Next(s, steps[0]), steps[1..]);
    }
  }

  lemma MovedDisjoint(s: State, i: nat)
    requires Disjoint(s.tree) && i < |s.tree|
    ensures Disjoint(Moved(s, i).tree)
  {
    WithoutDisjoint(s.tree, i);
  }

  /** While no two queued requests overlap the cache is exact, in every run. */
  lemma ApartRunsAreExact(steps: seq<Step>)
    requires Possible(INIT, steps) && AllApart(INIT, steps)
    ensures Exact(Run(INIT, steps))
  {
    ApartRunDecides(INIT, steps);
    EveryRunIsSound(steps);
  }

  // ---- a run that breaks the cache ----

  /** With [10, 30), [12, 13) and [25, 26) queued, dispatching the first leaves sector 12 cached
      although 25 is nearer to the head. */
  const OVERLAP := [Add(Rq(0, 10, 20)), Add(Rq(1, 12, 1)), Add(Rq(2, 25, 1)), Dispatch(Rq(0, 10, 20))]

  lemma AddedTree(s: State, rq: Rq)
    requires forall i :: 0 <= i < |s.tree| ==> s.tree[i].sector < rq.sector
    ensures Added(s, rq).tree == s.tree + [rq]
  {
    hide FindNext, Removed, ChooseReq;
    PlaceUnique(s.tree, |s.tree|, rq.sector);
  }

  lemma InitKeeps()
    ensures Inv(INIT)
  {
  }

  /** Three requests added in sector order to the empty queue. */
  lemma AddedThree(a: Rq, b: Rq, c: Rq)
    requires a.sector < b.sector < c.sector
    ensures var s := Added(Added(Added(INIT, a), b), c); Inv(s) && s.tree == [a, b, c]
  {
    hide Added, Inv, Exact, IsBest, Cleared, Elems;
    var s1, s2 := Added(INIT, a), Added(Added(INIT, a), b);
    AddedTree(INIT, a);
    AddedTree(s1, b);
    AddedTree(s2, c);
    InitKeeps();
    AddedKeeps(INIT, a);
    AddedKeeps(s1, b);
    AddedKeeps(s2, c);
  }

  lemma RunOfFour(s: State, a: Step, b: Step, c: Step, d: Step)
    requires Enabled(s, a) && Enabled(Next(s, a), b) && Enabled(Next(Next(s, a), b), c)
    requires Enabled(Next(Next(Next(s, a), b), c), d)
    ensures Possible(s, [a, b, c, d]) && Run(s, [a, b, c, d]) == Next(Next(Next(Next(s, a), b), c), d)
  {
    hide Enabled, Next;
    var s1, s2, s3 := Next(s, a), Next(Next(s, a), b), Next(Next(Next(s, a), b), c);
    assert [d][1..] == [] && [c, d][1..] == [d] && [b, c, d][1..] == [c, d] && [a, b, c, d][1..] == [b, c, d];
    assert Possible(s3, [d]) && Run(s3, [d]) == Next(s3, d);
    assert Possible(s2, [c, d]) && Run(s2, [c, d]) == Next(s3, d);
    assert Possible(s1, [b, c, d]) && Run(s1, [b, c, d]) == Next(s3, d);
  }

  lemma OverlapBreaksTheCache()
    ensures Possible(INIT, OVERLAP) && !Exact(Run(INIT, OVERLAP))
  {
    hide Added, Moved, Exact, NeighboursDecide, Inv, Run, Possible;
    var a, b, c := Rq(0, 10, 20), Rq(1, 12, 1), Rq(2, 25, 1);
    AddedThree(a, b, c);
    RunOfFour(INIT, Add(a), Add(b), Add(c), Dispatch(a));
    MovedKeeps(Added(Added(Added(INIT, a), b), c), 0);
    assert IndexOf([a, b, c], a) == 0;
    DecidesNot();
  }

  lemma DecidesNot()
    ensures !NeighboursDecide(30, [Rq(0, 10, 20), Rq(1, 12, 1), Rq(2, 25, 1)], 0)
  {
  }

  // ---- the queue in place ----

  lemma CachedIsQueued(s: State)
    requires Inv(s) && s.next.Some?
    ensures s.next.value in s.tree && s.next.value in Elems(s.tree)
  {
  }

  lemma NothingQueued(s: State)
    requires Inv(s) && s.next.None?
    ensures s.tree == [] && s.fifo == [] && Elems(s.tree) == {}
  {
    HeadInElems(s.fifo);
  }

  lemma HeadInElems(t: seq<Rq>)
    ensures t != [] ==> t[0] in Elems(t)
  {
  }

  class Queue {
    var sortList: seq<Rq>
    var fifo: seq<Rq>
    var nextRq: Option<Rq>
    var lastSector: nat
    var dispatched: seq<Rq>

    ghost function View(): State
      reads this
    {
      State(sortList, fifo, nextRq, lastSector, dispatched)
    }

    ghost predicate Valid()
      reads this
    {
      Inv(View())
    }

    constructor ()
      ensures Valid() && View() == INIT
    {
      sortList, fifo, nextRq, lastSector, dispatched := [], [], None, 0, [];
    }

    /** The descent of elv_rb_add and elv_rb_find through the sorted tree. */
    method Lookup(sector: nat) returns (i: nat, found: bool)
      requires Sorted(sortList)
      ensures if found then i < |sortList| && sortList[i].sector == sector else IsGap(sortList, i, sector)
      ensures i == Place(sortList, sector)
    {
      var lo, hi := 0, |sortList|;
      while lo < hi
        invariant 0 <= lo <= hi <= |sortList|
        invariant forall j :: 0 <= j < lo ==> sortList[j].sector < sector
        invariant forall j :: hi <= j < |sortList| ==> sector < sortList[j].sector
      {
        var mid := (lo + hi) / 2;
        if sector < sortList[mid].sector {
          hi := mid;
        } else if sector > sortList[mid].sector {
          lo := mid + 1;
        } else {
          PlaceUnique(sortList, mid, sector);
          return mid, true;
        }
      }
      PlaceUnique(sortList, lo, sector);
      return lo, false;
    }

    /** as_move_to_dispatch of any queued request. */
    method MoveToDispatch(rq: Rq)
      requires Valid() && rq in sortList
      modifies this
      ensures Valid() && View() == Moved(old(View()), IndexOf(old(sortList), rq))
      ensures Exact(View()) <==> NeighboursDecide(rq.sector + rq.sectors, old(sortList), IndexOf(old(sortList), rq))
      ensures Elems(sortList) == Elems(old(sortList)) - {rq}
    {
      hide Inv, Exact, Without, Removed, FindNext, Elems, NeighboursDecide;
      var i := IndexOf(sortList, rq);
      MovedKeeps(View(), i);
      lastSector := rq.sector + rq.sectors;
      nextRq := FindNext(lastSector, sortList, i);
      fifo := Removed(fifo, rq);
      sortList := Without(sortList, i);
      dispatched := dispatched + [rq];
    }

    /** as_add_request: requests that start at the same sector are dispatched first. */
    method AddRequest(rq: Rq)
      requires Valid()
      modifies this
      ensures Valid() && View() == Added(old(View()), rq)
      ensures Exact(View()) <==> Exact(Cleared(old(View()), rq)) || IsBest(lastSector, Elems(sortList), rq)
    {
      hide Exact, Moved, IsBest, Elems, FindNext;
      ghost var s := View();
      AddedKeeps(s, rq);
      OneAlias(s, rq);
      var i: nat, found := Lookup(rq.sector);
      while found
        invariant Valid()
        invariant found == HasAlias(View(), rq) && i == Place(sortList, rq.sector)
        invariant if found then View() == s else View() == Cleared(s, rq)
        decreases |sortList|
      {
        var alias := sortList[i];
        ghost var s0 := View();
        IndexInSorted(sortList, i);
        MoveToDispatch(alias);
        MovedShorter(s0, i);
        i, found := Lookup(rq.sector);
      }
      sortList := sortList[..i] + [rq] + sortList[i..];
      fifo := fifo + [rq];
      nextRq := ChooseReq(lastSector, Some(rq), nextRq);
    }

    /** The forced dispatch of one direction: next_rq until there is none left. */
    method DispatchAll()
      requires Valid()
      modifies this
      ensures Valid() && sortList == [] && fifo == []
      ensures Elems(dispatched) == Elems(old(dispatched)) + Elems(old(sortList))
      ensures |dispatched| == |old(dispatched)| + |old(sortList)|
    {
      hide Inv, Elems, Exact, Removed, FindNext, Without, NeighboursDecide;
      while nextRq.Some?
        invariant Valid()
        invariant Elems(dispatched) + Elems(sortList) == Elems(old(dispatched)) + Elems(old(sortList))
        invariant |dispatched| + |sortList| == |old(dispatched)| + |old(sortList)|
        decreases |sortList|
      {
        ghost var s, rq := View(), nextRq.value;
        CachedIsQueued(s);
        MoveToDispatch(nextRq.value);
        MovedShorter(s, IndexOf(s.tree, rq));
        AddedFifo(s.dispatched, rq);
        assert Elems(dispatched) + Elems(sortList) == Elems(s.dispatched) + Elems(s.tree);
      }
      NothingQueued(View());
    }
  }

  lemma IndexInSorted(t: seq<Rq>, i: nat)
    requires Sorted(t) && i < |t|
    ensures IndexOf(t, t[i]) == i
  {
  }

  lemma MovedShorter(s: State, i: nat)
    requires i < |s.tree|
    ensures |Moved(s, i).tree| == |s.tree| - 1
  {
  }
}
