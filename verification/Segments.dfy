/** Counting and mapping the memory segments of a request.  A driver gives blk_rq_map_sg a table with
    room for as many entries as were counted; the table is always large enough. */
module Segments {
  import opened BioVec

  const PAGE_SIZE := 4096

  /** What the queue says: clustering, max_segment_size, the boundary no segment may cross (the mask
      plus one) and bounce_pfn. */
  datatype Limits = Limits(cluster: bool, maxSize: nat, window: int, bouncePfn: int)

  function Phys(v: Vec): nat { v.page * PAGE_SIZE + v.offset }

  predicate High(l: Limits, v: Vec) { v.page > l.bouncePfn }

  /** BIOVEC_PHYS_MERGEABLE and BIOVEC_SEG_BOUNDARY */
  predicate Joins(l: Limits, v: Vec, w: Vec) {
    && Phys(v) + v.len == Phys(w)
    && l.window > 0 && Phys(v) / l.window == (Phys(w) + w.len - 1) / l.window
  }

  /** Whether the last segment of vs has to start a new entry whatever the sizes; the counter also
      keeps high pages apart, because they may be bounced. */
  predicate Breaks(l: Limits, apart: bool, vs: seq<Vec>)
    requires vs != []
  {
    var v := vs[|vs| - 1];
    || |vs| == 1 || !l.cluster || !Joins(l, vs[|vs| - 2], v)
    || (apart && (High(l, vs[|vs| - 2]) || High(l, v)))
  }

  /** How many entries the segments take and how long the last one is. */
  datatype Tally = Tally(count: nat, size: nat)

  function Entries(l: Limits, apart: bool, vs: seq<Vec>): Tally {
    if vs == [] then Tally(0, 0)
    else
      var t, v := Entries(l, apart, vs[..|vs| - 1]), vs[|vs| - 1];
      if Breaks(l, apart, vs) || t.size + v.len > l.maxSize then Tally(t.count + 1, v.len) else Tally(t.count, t.size + v.len)
  }

  /** __blk_recalc_rq_segments */
  function Count(l: Limits, vs: seq<Vec>): nat { Entries(l, true, vs).count }

  predicate NoMore(t: Tally, u: Tally) { t.count < u.count || (t.count == u.count && t.size <= u.size) }

  /** Mapping never runs ahead of counting, although it joins segments the counter keeps apart and so
      may hit the size limit where the counter does not. */
  lemma {:induction false} MapsNoMore(l: Limits, vs: seq<Vec>)
    ensures NoMore(Entries(l, false, vs), Entries(l, true, vs))
  {
    if vs != [] {
      MapsNoMore(l, vs[..|vs| - 1]);
    }
  }

  /** Counting two pieces separately counts at least as many. */
  lemma {:induction false} CountsApart(l: Limits, a: seq<Vec>, b: seq<Vec>)
    ensures b != [] ==>
      NoMore(Entries(l, true, a + b), Tally(Count(l, a) + Count(l, b), Entries(l, true, b).size))
    ensures Count(l, a + b) <= Count(l, a) + Count(l, b)
  {
    if b == [] {
      assert a + b == a;
    } else {
      var p, v := b[..|b| - 1], b[|b| - 1];
      CountsApart(l, a, p);
      assert (a + b)[..|a + b| - 1] == a + p;
      assert p == [] ==> a + p == a;
      assert |b| > 1 ==> (a + b)[|a + b| - 2] == b[|b| - 2];
    }
  }

  function Flat(bios: seq<seq<Vec>>): seq<Vec> { if bios == [] then [] else Flat(bios[..|bios| - 1]) + bios[|bios| - 1] }

  lemma {:induction false} CountGrows(l: Limits, vs: seq<Vec>, k: nat)
    requires k <= |vs|
    ensures Count(l, vs[..k]) <= Count(l, vs)
    decreases |vs|
  {
    if k == |vs| {
      assert vs[..k] == vs;
    } else {
      assert vs[..|vs| - 1][..k] == vs[..k];
      CountGrows(l, vs[..|vs| - 1], k);
    }
  }

  // ---- the scatterlist ----

  /** A scatterlist entry as a physical range. */
  datatype Entry = Entry(addr: nat, len: nat)

  function Range(addr: nat, len: nat): seq<nat> { seq(len, k requires 0 <= k < len => addr + k) }

  function VecBytes(vs: seq<Vec>): seq<nat> {
    if vs == [] then [] else VecBytes(vs[..|vs| - 1]) + Range(Phys(vs[|vs| - 1]), vs[|vs| - 1].len)
  }

  function EntryBytes(es: seq<Entry>): seq<nat> {
    if es == [] then [] else EntryBytes(es[..|es| - 1]) + Range(es[|es| - 1].addr, es[|es| - 1].len)
  }

  /** The table blk_rq_map_sg builds. */
  function Mapping(l: Limits, vs: seq<Vec>): (es: seq<Entry>)
    ensures |es| == Entries(l, false, vs).count && (es == [] <==> vs == [])
    ensures es != [] ==> es[|es| - 1].len == Entries(l, false, vs).size
  {
    if vs == [] then []
    else
      var es, v := Mapping(l, vs[..|vs| - 1]), vs[|vs| - 1];
      if Breaks(l, false, vs) || es[|es| - 1].len + v.len > l.maxSize then es + [Entry(Phys(v), v.len)]
      else es[|es| - 1 := Entry(es[|es| - 1].addr, es[|es| - 1].len + v.len)]
  }

  lemma LastEntry(es: seq<Entry>, e: Entry)
    requires es != []
    ensures EntryBytes(es[|es| - 1 := e]) == EntryBytes(es[..|es| - 1]) + Range(e.addr, e.len)
  {
    assert es[|es| - 1 := e][..|es| - 1] == es[..|es| - 1];
  }

  lemma RangeJoins(addr: nat, a: nat, b: nat)
    ensures Range(addr, a + b) == Range(addr, a) + Range(addr + a, b)
  {
  }

  function Last(es: seq<Entry>): Entry
    requires es != []
  {
    es[|es| - 1]
  }

  /** The last entry ends where the last segment ends. */
  lemma {:induction false} EndsTogether(l: Limits, vs: seq<Vec>)
    requires vs != []
    ensures Last(Mapping(l, vs)).addr + Last(Mapping(l, vs)).len == Phys(vs[|vs| - 1]) + vs[|vs| - 1].len
  {
    var p := vs[..|vs| - 1];
    if p != [] {
      EndsTogether(l, p);
      assert p[|p| - 1] == vs[|vs| - 2];
    }
  }

  lemma JoinsTouch(l: Limits, v: Vec, w: Vec)
    requires Joins(l, v, w)
    ensures Phys(v) + v.len == Phys(w)
  {
  }

  lemma TouchesLast(l: Limits, vs: seq<Vec>)
    requires |vs| > 1 && Joins(l, vs[|vs| - 2], vs[|vs| - 1])
    ensures var es := Mapping(l, vs[..|vs| - 1]); es != [] && Phys(vs[|vs| - 1]) == Last(es).addr + Last(es).len
  {
    hide Phys, Entries, Mapping, Joins;
    var p := vs[..|vs| - 1];
    assert p[|p| - 1] == vs[|vs| - 2];
    EndsTogether(l, p);
    JoinsTouch(l, vs[|vs| - 2], vs[|vs| - 1]);
  }

  /** Each segment starts an entry or continues the last one where that ends. */
  lemma MappingStep(l: Limits, vs: seq<Vec>)
    requires vs != []
    ensures var es, v, fs := Mapping(l, vs[..|vs| - 1]), vs[|vs| - 1], Mapping(l, vs);
            || fs == es + [Entry(Phys(v), v.len)]
            || (es != [] && fs == es[|es| - 1 := Entry(Last(es).addr, Last(es).len + v.len)]
                && Phys(v) == Last(es).addr + Last(es).len && |vs| > 1 && Joins(l, vs[|vs| - 2], v)
                && Last(es).len + v.len <= l.maxSize)
  {
    hide Phys, Entries, Mapping, Joins;
    MappingNext(l, vs, |vs| - 1);
    assert vs[..|vs|] == vs;
    if |vs| > 1 && Joins(l, vs[|vs| - 2], vs[|vs| - 1]) {
      TouchesLast(l, vs);
    }
  }

  /** The entries cover exactly the bytes of the segments, in order. */
  lemma {:induction false} MapsTheBytes(l: Limits, vs: seq<Vec>)
    ensures EntryBytes(Mapping(l, vs)) == VecBytes(vs)
  {
    hide Phys, Entries, Range, Mapping, EntryBytes;
    if vs == [] {
      assert EntryBytes([]) == [] by { NoEntries(); }
    } else {
      var es, v := Mapping(l, vs[..|vs| - 1]), vs[|vs| - 1];
      MapsTheBytes(l, vs[..|vs| - 1]);
      MappingStep(l, vs);
      AddedEntry(es, Entry(Phys(v), v.len));
      if es != [] {
        GrownEntry(es, v.len);
      }
    }
  }

  lemma NoEntries()
    ensures EntryBytes([]) == []
  {
  }

  lemma AddedEntry(es: seq<Entry>, e: Entry)
    ensures EntryBytes(es + [e]) == EntryBytes(es) + Range(e.addr, e.len)
  {
    assert (es + [e])[..|es|] == es;
  }

  lemma GrownEntry(es: seq<Entry>, n: nat)
    requires es != []
    ensures EntryBytes(es[|es| - 1 := Entry(Last(es).addr, Last(es).len + n)]) == EntryBytes(es) + Range(Last(es).addr + Last(es).len, n)
  {
    var e := Entry(Last(es).addr, Last(es).len + n);
    LastEntry(es, e);
    RangeJoins(Last(es).addr, Last(es).len, n);
  }

  // ---- the limits ----

  /** The entry segment i is part of. */
  function EntryOf(l: Limits, vs: seq<Vec>, i: nat): (j: nat)
    requires i < |vs|
  {
    |Mapping(l, vs[..i + 1])| - 1
  }

  /** Entry j is a single segment, but for empty ones beside it. */
  predicate Alone(l: Limits, vs: seq<Vec>, j: nat)
    requires j < |Mapping(l, vs)|
  {
    exists i :: 0 <= i < |vs| && EntryOf(l, vs, i) == j && Mapping(l, vs)[j] == Entry(Phys(vs[i]), vs[i].len)
  }

  /** Within the size limit and within one window. */
  predicate Within(l: Limits, e: Entry) {
    e.len <= l.maxSize && l.window > 0 && e.addr / l.window == (e.addr + e.len - 1) / l.window
  }

  /** Entry j respects the limits of the queue, unless a single segment does not. */
  predicate Fits(l: Limits, vs: seq<Vec>, j: nat)
    requires j < |Mapping(l, vs)|
  {
    Alone(l, vs, j) || Within(l, Mapping(l, vs)[j])
  }

  /** An empty segment at the start of a window hides from the boundary test that the window ends. */
  predicate Hides(l: Limits, v: Vec) { v.len == 0 && l.window > 0 && Phys(v) % l.window == 0 }

  /** Segment i hides a boundary inside its entry, with bytes on both sides of it. */
  predicate Hidden(l: Limits, vs: seq<Vec>, i: nat)
    requires i < |vs|
  {
    && Hides(l, vs[i]) && EntryOf(l, vs, i) < |Mapping(l, vs)|
    && var e := Mapping(l, vs)[EntryOf(l, vs, i)]; e.addr < Phys(vs[i]) < e.addr + e.len
  }

  // Division.

  lemma DivOrder(a: int, b: int, w: int)
    requires a <= b && w > 0
    ensures a / w <= b / w
  {
    MulOrder(b / w + 1, a / w, w);
  }

  lemma MulOrder(x: int, y: int, w: int)
    requires w > 0
    ensures x <= y ==> x * w <= y * w
  {
  }

  lemma QuotientIs(a: int, w: int, q: int, r: int)
    requires w > 0 && a == q * w + r && 0 <= r < w
    ensures a / w == q
  {
    MulOrder(a / w + 1, q, w);
    MulOrder(q + 1, a / w, w);
  }

  /** The byte before a lies in the same window unless a starts one. */
  lemma ByteBefore(a: int, w: int)
    requires w > 0
    ensures (a - 1) / w == if a % w == 0 then a / w - 1 else a / w
  {
    if a % w == 0 {
      QuotientIs(a - 1, w, a / w - 1, w - 1);
    } else {
      QuotientIs(a - 1, w, a / w, a % w - 1);
    }
  }

  lemma CrossesAt(a: int, p: int, end: int, w: int)
    requires w > 0 && a < p < end && p % w == 0
    ensures a / w != (end - 1) / w
  {
    ByteBefore(p, w);
    DivOrder(a, p - 1, w);
    DivOrder(p, end - 1, w);
  }

  // Segments and their entries.

  /** The entries of all but the last segment are known already. */
  lemma EntryOfPrefix(l: Limits, vs: seq<Vec>, i: nat)
    requires i + 1 < |vs|
    ensures EntryOf(l, vs, i) == EntryOf(l, vs[..|vs| - 1], i)
  {
    hide Mapping;
    assert vs[..|vs| - 1][..i + 1] == vs[..i + 1];
  }

  lemma EntryOfLast(l: Limits, vs: seq<Vec>)
    requires vs != []
    ensures EntryOf(l, vs, |vs| - 1) == |Mapping(l, vs)| - 1
  {
    hide Mapping;
    assert vs[..|vs|] == vs;
  }

  predicate Covers(e: Entry, v: Vec) { e.addr <= Phys(v) && Phys(v) + v.len <= e.addr + e.len }

  ghost predicate InEntries(l: Limits, vs: seq<Vec>) {
    && (forall i :: 0 <= i < |vs| ==> EntryOf(l, vs, i) < |Mapping(l, vs)| && Covers(Mapping(l, vs)[EntryOf(l, vs, i)], vs[i]))
    && (forall i, k :: 0 <= i < k < |vs| && EntryOf(l, vs, i) == EntryOf(l, vs, k) ==> Phys(vs[i]) + vs[i].len <= Phys(vs[k]))
  }

  lemma InEntriesAt(l: Limits, vs: seq<Vec>, i: nat)
    requires InEntries(l, vs) && i < |vs|
    ensures EntryOf(l, vs, i) < |Mapping(l, vs)| && Covers(Mapping(l, vs)[EntryOf(l, vs, i)], vs[i])
  {
    hide Mapping, EntryOf, Covers;
  }

  /** Every segment lies in its entry, and those of one entry follow each other. */
  lemma {:induction false} SegmentsInEntries(l: Limits, vs: seq<Vec>)
    ensures InEntries(l, vs)
  {
    hide Mapping, EntryOf, Covers;
    if vs != [] {
      SegmentsInEntries(l, vs[..|vs| - 1]);
      forall i | 0 <= i < |vs|
        ensures EntryOf(l, vs, i) < |Mapping(l, vs)| && Covers(Mapping(l, vs)[EntryOf(l, vs, i)], vs[i])
      {
        CoveredStep(l, vs, i);
      }
      forall i, k | 0 <= i < k < |vs| && EntryOf(l, vs, i) == EntryOf(l, vs, k)
        ensures Phys(vs[i]) + vs[i].len <= Phys(vs[k])
      {
        FollowsStep(l, vs, i, k);
      }
    }
  }

  lemma CoveredStep(l: Limits, vs: seq<Vec>, i: nat)
    requires vs != [] && InEntries(l, vs[..|vs| - 1]) && i < |vs|
    ensures EntryOf(l, vs, i) < |Mapping(l, vs)| && Covers(Mapping(l, vs)[EntryOf(l, vs, i)], vs[i])
  {
    hide Mapping, Phys, EntryOf, InEntries, Joins;
    MappingStep(l, vs);
    if i == |vs| - 1 {
      EntryOfLast(l, vs);
    } else {
      EntryOfPrefix(l, vs, i);
      InEntriesAt(l, vs[..|vs| - 1], i);
    }
  }

  lemma FollowsStep(l: Limits, vs: seq<Vec>, i: nat, k: nat)
    requires vs != [] && InEntries(l, vs[..|vs| - 1]) && i < k < |vs| && EntryOf(l, vs, i) == EntryOf(l, vs, k)
    ensures Phys(vs[i]) + vs[i].len <= Phys(vs[k])
  {
    hide Mapping, Phys, EntryOf, Joins;
    var p := vs[..|vs| - 1];
    EntryOfPrefix(l, vs, i);
    if k < |p| {
      EntryOfPrefix(l, vs, k);
      assert EntryOf(l, p, i) == EntryOf(l, p, k) && p[i] == vs[i] && p[k] == vs[k];
    } else {
      hide InEntries;
      EntryOfLast(l, vs);
      MappingStep(l, vs);
      InEntriesAt(l, p, i);
    }
  }

  /** An entry with a hidden boundary does not fit. */
  lemma HiddenDoesNotFit(l: Limits, vs: seq<Vec>, i: nat)
    requires i < |vs| && Hidden(l, vs, i)
    ensures EntryOf(l, vs, i) < |Mapping(l, vs)| && !Fits(l, vs, EntryOf(l, vs, i))
  {
    hide Mapping, Phys, EntryOf;
    SegmentsInEntries(l, vs);
    var j := EntryOf(l, vs, i);
    var e := Mapping(l, vs)[j];
    CrossesAt(e.addr, Phys(vs[i]), e.addr + e.len, l.window);
    assert !Within(l, e);
    forall k | 0 <= k < |vs| && EntryOf(l, vs, k) == j
      ensures e != Entry(Phys(vs[k]), vs[k].len)
    {
      assert k < i ==> Phys(vs[k]) + vs[k].len <= Phys(vs[i]);
      assert i < k ==> Phys(vs[i]) + vs[i].len <= Phys(vs[k]);
    }
  }

  // Without a hidden boundary every entry fits.

  /** The last entry and the last segment start in one window, or the last segment hides that the entry
      ends with one. */
  predicate LastOk(l: Limits, e: Entry, v: Vec) {
    || l.window <= 0 || e.addr / l.window == Phys(v) / l.window
    || (Hides(l, v) && e.addr < Phys(v))
  }

  /** A hidden boundary stays hidden when segments are added. */
  lemma HiddenStays(l: Limits, vs: seq<Vec>, i: nat)
    requires i + 1 < |vs| && Hidden(l, vs[..|vs| - 1], i)
    ensures Hidden(l, vs, i)
  {
    hide Mapping, Phys, EntryOf, Hides;
    EntryOfPrefix(l, vs, i);
    MappingStep(l, vs);
  }

  /** And an entry that fits and does not grow still fits. */
  lemma FitsStays(l: Limits, vs: seq<Vec>, j: nat)
    requires vs != [] && j < |Mapping(l, vs[..|vs| - 1])| && Fits(l, vs[..|vs| - 1], j)
    requires j < |Mapping(l, vs)| && Mapping(l, vs)[j] == Mapping(l, vs[..|vs| - 1])[j]
    ensures Fits(l, vs, j)
  {
    hide Mapping, Phys, EntryOf, Within;
    var p := vs[..|vs| - 1];
    if i :| 0 <= i < |p| && EntryOf(l, p, i) == j && Mapping(l, p)[j] == Entry(Phys(p[i]), p[i].len) {
      EntryOfPrefix(l, vs, i);
      assert vs[i] == p[i];
    }
  }

  /** A segment that joins the last entry, if no boundary is hidden between them. */
  lemma JoinedFits(l: Limits, e: Entry, u: Vec, v: Vec)
    requires LastOk(l, e, u) && Joins(l, u, v) && e.addr + e.len == Phys(v) && e.len + v.len <= l.maxSize
    requires v.len > 0 ==> !(Hides(l, u) && e.addr < Phys(u))
    ensures Within(l, Entry(e.addr, e.len + v.len)) && LastOk(l, Entry(e.addr, e.len + v.len), v)
  {
    hide Phys;
    var a, b, n, w := Phys(u), Phys(v), v.len, l.window;
    ByteBefore(b, w);
    if n > 0 {
      DivOrder(a, b, w);
      DivOrder(b, b + n - 1, w);
    }
  }

  lemma {:induction false} FitUnlessHidden(l: Limits, vs: seq<Vec>)
    requires forall i :: 0 <= i < |vs| ==> !Hidden(l, vs, i)
    ensures forall j :: 0 <= j < |Mapping(l, vs)| ==> Fits(l, vs, j)
    ensures vs != [] ==> Mapping(l, vs) != [] && LastOk(l, Last(Mapping(l, vs)), vs[|vs| - 1])
  {
    hide Mapping, Phys, EntryOf, Hidden, Fits, LastOk, Joins;
    if vs == [] {
      MappingNone(l, vs);
      assert vs[..0] == vs;
    } else {
      var p := vs[..|vs| - 1];
      forall i | 0 <= i < |p|
        ensures !Hidden(l, p, i)
      {
        if Hidden(l, p, i) {
          HiddenStays(l, vs, i);
        }
      }
      FitUnlessHidden(l, p);
      MappingStep(l, vs);
      FitStep(l, vs);
    }
  }

  lemma FitStep(l: Limits, vs: seq<Vec>)
    requires vs != [] && forall i :: 0 <= i < |vs| ==> !Hidden(l, vs, i)
    requires var p := vs[..|vs| - 1];
             && (forall j :: 0 <= j < |Mapping(l, p)| ==> Fits(l, p, j))
             && (p != [] ==> Mapping(l, p) != [] && LastOk(l, Last(Mapping(l, p)), p[|p| - 1]))
    ensures forall j :: 0 <= j < |Mapping(l, vs)| ==> Fits(l, vs, j)
    ensures Mapping(l, vs) != [] && LastOk(l, Last(Mapping(l, vs)), vs[|vs| - 1])
  {
    hide Mapping, Phys, EntryOf, Hidden, Joins, LastOk, Fits;
    var p, v, fs := vs[..|vs| - 1], vs[|vs| - 1], Mapping(l, vs);
    MappingStep(l, vs);
    if fs == Mapping(l, p) + [Entry(Phys(v), v.len)] {
      NewFits(l, vs);
    } else {
      GrownFits(l, vs);
    }
    forall j | 0 <= j < |fs| - 1
      ensures Fits(l, vs, j)
    {
      FitsStays(l, vs, j);
    }
  }

  lemma NewFits(l: Limits, vs: seq<Vec>)
    requires vs != [] && Mapping(l, vs) != [] && var v := vs[|vs| - 1]; Last(Mapping(l, vs)) == Entry(Phys(v), v.len)
    ensures Fits(l, vs, |Mapping(l, vs)| - 1) && LastOk(l, Last(Mapping(l, vs)), vs[|vs| - 1])
  {
    hide Mapping, Phys, EntryOf, Within;
    EntryOfLast(l, vs);
  }

  lemma GrownFits(l: Limits, vs: seq<Vec>)
    requires |vs| > 1 && forall i :: 0 <= i < |vs| ==> !Hidden(l, vs, i)
    requires var es, u, v, fs := Mapping(l, vs[..|vs| - 1]), vs[|vs| - 2], vs[|vs| - 1], Mapping(l, vs);
             && es != [] && LastOk(l, Last(es), u) && Joins(l, u, v) && Phys(v) == Last(es).addr + Last(es).len
             && Last(es).len + v.len <= l.maxSize && fs == es[|es| - 1 := Entry(Last(es).addr, Last(es).len + v.len)]
    ensures Fits(l, vs, |Mapping(l, vs)| - 1) && LastOk(l, Last(Mapping(l, vs)), vs[|vs| - 1])
  {
    hide Mapping, Phys, EntryOf, LastOk, Within, Alone, Hides;
    var p, u, v := vs[..|vs| - 1], vs[|vs| - 2], vs[|vs| - 1];
    var e := Last(Mapping(l, p));
    JoinsTouch(l, u, v);
    EntryOfPrefix(l, vs, |vs| - 2);
    EntryOfLast(l, p);
    assert !Hidden(l, vs, |vs| - 2);
    HidesEmpty(l, u);
    JoinedFits(l, e, u, v);
  }

  lemma HidesEmpty(l: Limits, v: Vec)
    ensures Hides(l, v) ==> v.len == 0
  {
  }

  /** Every entry respects the limits, or is a single segment that does not, if and only if no boundary is
      hidden inside an entry. */
  lemma EntriesFitIff(l: Limits, vs: seq<Vec>)
    ensures (forall j :: 0 <= j < |Mapping(l, vs)| ==> Fits(l, vs, j)) <==> (forall i :: 0 <= i < |vs| ==> !Hidden(l, vs, i))
  {
    hide Mapping, EntryOf, Hidden, Fits;
    if i :| 0 <= i < |vs| && Hidden(l, vs, i) {
      HiddenDoesNotFit(l, vs, i);
    } else {
      FitUnlessHidden(l, vs);
    }
  }

  /** Eight bytes at the end of a page, an empty segment at the start of the next page and eight bytes
      there become one entry, although no entry may cross a page. */
  lemma EmptySegmentCrosses()
    ensures var l, vs := Limits(true, 65536, PAGE_SIZE, 0), [Vec(0, 4088, 8), Vec(1, 0, 0), Vec(1, 0, 8)];
            Mapping(l, vs) == [Entry(4088, 16)] && !Fits(l, vs, 0)
  {
    var l, a, b, c := Limits(true, 65536, PAGE_SIZE, 0), Vec(0, 4088, 8), Vec(1, 0, 0), Vec(1, 0, 8);
    var vs := [a, b, c];
    MappedTogether(l, a, b, c);
    assert vs[..2] == [a, b] && Mapping(l, [a, b]) == [Entry(4088, 8)];
    hide Mapping;
    assert Hidden(l, vs, 1);
    HiddenDoesNotFit(l, vs, 1);
  }

  lemma MappedTogether(l: Limits, a: Vec, b: Vec, c: Vec)
    requires l.cluster && Joins(l, a, b) && Joins(l, b, c) && a.len + b.len + c.len <= l.maxSize
    ensures Mapping(l, [a, b]) == [Entry(Phys(a), a.len + b.len)]
    ensures Mapping(l, [a, b, c]) == [Entry(Phys(a), a.len + b.len + c.len)]
  {
    hide Joins, Phys;
    assert [a][..0] == [] && [a, b][..1] == [a] && [a, b, c][..2] == [a, b];
    assert Mapping(l, [a]) == [Entry(Phys(a), a.len)];
  }

  // ---- merging bios into a request ----

  /** The bios of a request in order and nr_phys_segments. */
  datatype Request = Request(bios: seq<seq<Vec>>, nr: nat)

  datatype Merge = Back(bio: seq<Vec>) | Front(bio: seq<Vec>)

  /** ll_new_hw_segment with its limit, for a bio put at the end or at the front; refused merges
      change nothing here. */
  function Merged(l: Limits, limit: nat, r: Request, m: Merge): Request {
    if r.nr + Count(l, m.bio) > limit then r
    else Request(if m.Back? then r.bios + [m.bio] else [m.bio] + r.bios, r.nr + Count(l, m.bio))
  }

  function MergedAll(l: Limits, limit: nat, r: Request, ms: seq<Merge>): Request
    decreases |ms|
  {
    if ms == [] then r else MergedAll(l, limit, Merged(l, limit, r, ms[0]), ms[1..])
  }

  lemma {:induction false} FlatFront(b: seq<Vec>, bios: seq<seq<Vec>>)
    ensures Flat([b] + bios) == b + Flat(bios)
  {
    if bios == [] {
      assert [b] + bios == [b] && [b][..0] == [];
    } else {
      assert ([b] + bios)[..|bios|] == [b] + bios[..|bios| - 1];
      FlatFront(b, bios[..|bios| - 1]);
    }
  }

  lemma MergeKeepsBound(l: Limits, limit: nat, r: Request, m: Merge)
    requires Count(l, Flat(r.bios)) <= r.nr
    ensures var r' := Merged(l, limit, r, m); Count(l, Flat(r'.bios)) <= r'.nr && (r' == r || r'.nr <= limit)
  {
    if r.nr + Count(l, m.bio) <= limit {
      if m.Back? {
        assert (r.bios + [m.bio])[..|r.bios|] == r.bios;
        CountsApart(l, Flat(r.bios), m.bio);
      } else {
        FlatFront(m.bio, r.bios);
        CountsApart(l, m.bio, Flat(r.bios));
      }
    }
  }

  /** Over any series of merges the counter stays an upper bound for a fresh count and for the entries
      the request is mapped to, and no merge takes it over the limit. */
  lemma {:induction false} CounterIsEnough(l: Limits, limit: nat, r: Request, ms: seq<Merge>)
    requires Count(l, Flat(r.bios)) <= r.nr
    ensures var r' := MergedAll(l, limit, r, ms);
            |Mapping(l, Flat(r'.bios))| <= Count(l, Flat(r'.bios)) <= r'.nr && (r' == r || r'.nr <= limit)
    decreases |ms|
  {
    hide Count, Merged, Entries;
    if ms == [] {
      MapsNoMore(l, Flat(r.bios));
      assert |Mapping(l, Flat(r.bios))| <= Count(l, Flat(r.bios)) by { CountIs(l, Flat(r.bios)); }
    } else {
      MergeKeepsBound(l, limit, r, ms[0]);
      CounterIsEnough(l, limit, Merged(l, limit, r, ms[0]), ms[1..]);
    }
  }

  lemma CountIs(l: Limits, vs: seq<Vec>)
    ensures Count(l, vs) == Entries(l, true, vs).count
  {
  }

  // ---- the loops ----

  lemma FlatBio(bios: seq<seq<Vec>>, k: nat)
    requires k < |bios|
    ensures Flat(bios[..k + 1]) == Flat(bios[..k]) + bios[k]
  {
    assert bios[..k + 1][..k] == bios[..k];
  }

  lemma EntriesStep(l: Limits, apart: bool, vs: seq<Vec>, v: Vec)
    ensures var t, ws := Entries(l, apart, vs), vs + [v];
            Entries(l, apart, ws) == if Breaks(l, apart, ws) || t.size + v.len > l.maxSize then Tally(t.count + 1, v.len)
                                     else Tally(t.count, t.size + v.len)
  {
    assert (vs + [v])[..|vs|] == vs;
  }

  /** __blk_recalc_rq_segments over the bios of a request. */
  method RecalcSegments(l: Limits, bios: seq<seq<Vec>>) returns (n: nat)
    ensures n == Count(l, Flat(bios))
  {
    hide Entries, Joins, High;
    n := 0;
    var size: nat, prev, highPrev := 0, Vec(0, 0, 0), true;
    ghost var seen: seq<Vec> := [];
    CountEmpty(l);
    for k := 0 to |bios|
      invariant seen == Flat(bios[..k]) && Entries(l, true, seen) == Tally(n, size)
      invariant seen == [] ==> highPrev
      invariant seen != [] ==> prev == seen[|seen| - 1] && highPrev == High(l, prev)
    {
      FlatBio(bios, k);
      ghost var before := seen;
      for i := 0 to |bios[k]|
        invariant seen == before + bios[k][..i] && Entries(l, true, seen) == Tally(n, size)
        invariant seen == [] ==> highPrev
        invariant seen != [] ==> prev == seen[|seen| - 1] && highPrev == High(l, prev)
      {
        var v := bios[k][i];
        EntriesStep(l, true, seen, v);
        assert bios[k][..i + 1] == bios[k][..i] + [v];
        var high := High(l, v);
        if !high && !highPrev && l.cluster && size + v.len <= l.maxSize && Joins(l, prev, v) {
          size := size + v.len;
        } else {
          n, size, highPrev := n + 1, v.len, high;
        }
        prev := v;
        seen := seen + [v];
      }
      assert bios[k][..|bios[k]|] == bios[k];
    }
    assert bios[..|bios|] == bios;
  }

  lemma CountEmpty(l: Limits)
    ensures Entries(l, true, []) == Tally(0, 0)
  {
  }

  /** One turn of the loop of blk_rq_map_sg: segment i joins the last entry or gets one of its own. */
  method MapVec(l: Limits, vs: seq<Vec>, i: nat, sg: array<Entry>, m: nat) returns (n: nat)
    requires i < |vs| && m <= sg.Length && sg[..m] == Mapping(l, vs[..i]) && |Mapping(l, vs[..i + 1])| <= sg.Length
    modifies sg
    ensures n <= sg.Length && sg[..n] == Mapping(l, vs[..i + 1]) && m <= n && sg[n..] == old(sg[n..])
  {
    hide Joins, Phys, Mapping;
    var v := vs[i];
    n := m;
    MappingNext(l, vs, i);
    ghost var b := sg[..];
    assert b[..m] == sg[..m];
    if i > 0 && l.cluster && sg[n - 1].len + v.len <= l.maxSize && Joins(l, vs[i - 1], v) {
      assert Last(b[..m]) == sg[n - 1];
      sg[n - 1] := Entry(sg[n - 1].addr, sg[n - 1].len + v.len);
      assert sg[..n] == b[..n][n - 1 := sg[n - 1]];
    } else {
      assert i > 0 ==> Last(b[..m]) == sg[n - 1];
      sg[n] := Entry(Phys(v), v.len);
      assert sg[..n + 1] == b[..n] + [sg[n]];
      n := n + 1;
    }
  }

  /** The main loop of blk_rq_map_sg, into a table with room for the counted segments. */
  method MapSg(l: Limits, vs: seq<Vec>, sg: array<Entry>) returns (n: nat)
    requires Count(l, vs) <= sg.Length
    modifies sg
    ensures n <= Count(l, vs) && sg[..n] == Mapping(l, vs)
    ensures sg[n..] == old(sg[n..])
  {
    hide Count, Mapping;
    n := 0;
    MappingNone(l, vs);
    for i := 0 to |vs|
      invariant n <= sg.Length && sg[..n] == Mapping(l, vs[..i])
      invariant sg[n..] == old(sg[n..])
    {
      RoomLeft(l, vs, i);
      ghost var m, b := n, sg[..];
      n := MapVec(l, vs, i, sg, n);
      assert b[n..] == b[m..][n - m..] && old(sg[n..]) == old(sg[..])[m..][n - m..];
    }
    assert vs[..|vs|] == vs;
    RoomLeft(l, vs, |vs|);
  }

  lemma MappingNone(l: Limits, vs: seq<Vec>)
    ensures Mapping(l, vs[..0]) == []
  {
  }

  lemma MappingNext(l: Limits, vs: seq<Vec>, i: nat)
    requires i < |vs|
    ensures var es, v := Mapping(l, vs[..i]), vs[i];
            && (es == [] <==> i == 0)
            && Mapping(l, vs[..i + 1]) ==
               if i > 0 && l.cluster && Last(es).len + v.len <= l.maxSize && Joins(l, vs[i - 1], v)
               then es[|es| - 1 := Entry(Last(es).addr, Last(es).len + v.len)] else es + [Entry(Phys(v), v.len)]
  {
    hide Joins, Phys, Entries;
    assert vs[..i + 1][..i] == vs[..i];
  }

  lemma RoomLeft(l: Limits, vs: seq<Vec>, i: nat)
    requires i <= |vs|
    ensures |Mapping(l, vs[..i])| <= Count(l, vs)
    ensures i < |vs| ==> |Mapping(l, vs[..i + 1])| <= Count(l, vs)
  {
    MapsNoMore(l, vs[..i]);
    CountGrows(l, vs, i);
    if i < |vs| {
      MapsNoMore(l, vs[..i + 1]);
      CountGrows(l, vs, i + 1);
    }
  }
}
