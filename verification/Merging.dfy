/** Merging bios into queued requests and requests into each other, with the hash that finds the
    request ending at a sector.  Every request stays an ordered, gap-free cover of its sectors, every
    bio in flight is in exactly one request, and the hash agrees with a scan of all requests. */
module Merging {
  import opened Options
  import opened IdSeq

  const BUCKETS := 64

  /** segs is what blk_recount_segments counts for the bio. */
  datatype Bio = Bio(id: nat, sector: nat, sectors: nat, write: bool, segs: nat, barrier: bool)

  /** A request.  nomerge, started and barrier are the flags that forbid merging; sorted says that an
      I/O scheduler holds the request. */
  datatype Rq = Rq(bios: seq<Bio>, sector: nat, nr: nat, hardSector: nat, hardNr: nat, segs: int, write: bool,
                   nomerge: bool, started: bool, barrier: bool, special: bool, sorted: bool)

  /** max_sectors, and the smaller of max_hw_segments and max_phys_segments. */
  datatype Limits = Limits(maxSectors: nat, maxSegs: int)

  type Rqs = map<Id, Rq>
  type Table = seq<seq<Id>>

  /** hash is the merge hash, last is last_merge, live the bios in requests.  waiting holds, by id, the
      bios that found nothing to merge with and whose tasks wait for a request. */
  datatype State = State(rqs: Rqs, hash: Table, last: Option<Id>, live: set<nat>, waiting: map<nat, Bio>)

  // ---- the hash ----

  /** rq_hash_key: where a request ends. */
  function End(r: Rq): nat { r.sector + r.nr }

  /** ELV_HASH_FN on a 64-bit machine. */
  function Bucket(sector: nat): (k: nat)
    ensures k < BUCKETS
  {
    sector / 8 * 0x9e37fffffffc0001 % 0x1_0000_0000_0000_0000 / 0x400_0000_0000_0000
  }

  /** rq_mergeable */
  predicate Mergeable(r: Rq) { !r.nomerge && !r.started && !r.barrier }

  /** __elv_rqhash_del: a hashed request is unlinked from the chain it is on. */
  function HashDel(h: Table, x: Id): (t: Table)
    ensures |t| == |h|
  {
    seq(|h|, k requires 0 <= k < |h| => Minus(h[k], x))
  }

  /** elv_rqhash_add */
  function HashAdd(h: Table, x: Id, key: nat): (t: Table)
    ensures |t| == |h|
  {
    var k := Bucket(key);
    if k < |h| then h[k := [x] + h[k]] else h
  }

  /** What is left of a chain, and what is found on it, when it is searched for a request ending at
      sector. */
  datatype Search = Search(kept: seq<Id>, found: Option<Id>)

  /** The loop of elv_rqhash_find. */
  function Scan(rqs: Rqs, chain: seq<Id>, sector: nat): Search {
    if chain == [] then Search([], None)
    else if chain[0] !in rqs || !Mergeable(rqs[chain[0]]) then Scan(rqs, chain[1..], sector)
    else if End(rqs[chain[0]]) == sector then Search(chain, Some(chain[0]))
    else
      var rest := Scan(rqs, chain[1..], sector);
      Search([chain[0]] + rest.kept, rest.found)
  }

  /** elv_rqhash_find */
  function Find(s: State, sector: nat): (State, Option<Id>) {
    var k := Bucket(sector);
    if k < |s.hash| then
      var r := Scan(s.rqs, s.hash[k], sector);
      (s.(hash := s.hash[k := r.kept]), r.found)
    else (s, None)
  }

  // ---- merging ----

  datatype Hit = Miss | BackHit(x: Id) | FrontHit(x: Id)

  /** What the surroundings of a call decide: which requests the scheduler lets the caller merge with,
      the queue's nomerges flag, the scheduler's own front merge candidate, the neighbour the
      request is tried against after a merge, and whether the two touch in memory. */
  datatype Env = Env(allow: set<Id>, nomerges: bool, choice: Option<Id>, near: Option<Id>, contig: bool)

  /** elv_rq_merge_ok */
  predicate MergeOk(rqs: Rqs, x: Id, b: Bio, allow: set<Id>) {
    x in rqs && Mergeable(rqs[x]) && rqs[x].write == b.write && !rqs[x].special && x in allow
  }

  /** elv_try_merge */
  function TryMerge(rqs: Rqs, x: Id, b: Bio, allow: set<Id>): Hit {
    if !MergeOk(rqs, x, b, allow) then Miss
    else if End(rqs[x]) == b.sector then BackHit(x)
    else if rqs[x].sector == b.sector + b.sectors then FrontHit(x)
    else Miss
  }

  /** elv_merge: the one-hit cache, then the hash, then the scheduler. */
  function ElvMerge(s: State, b: Bio, env: Env): (State, Hit) {
    var cached := if s.last.Some? then TryMerge(s.rqs, s.last.value, b, env.allow) else Miss;
    if cached != Miss then (s, cached)
    else if env.nomerges then (s, Miss)
    else
      var (s1, found) := Find(s, b.sector);
      if found.Some? && MergeOk(s.rqs, found.value, b, env.allow) then (s1, BackHit(found.value))
      else if env.choice.Some? && MergeOk(s.rqs, env.choice.value, b, env.allow) then (s1, FrontHit(env.choice.value))
      else (s1, Miss)
  }

  /** The limits ll_back_merge_fn and ll_front_merge_fn check. */
  predicate Roomy(l: Limits, r: Rq, b: Bio) { r.nr + b.sectors <= l.maxSectors && r.segs + b.segs <= l.maxSegs }

  function BackMerged(r: Rq, b: Bio): Rq {
    r.(bios := r.bios + [b], segs := r.segs + b.segs, hardNr := r.hardNr + b.sectors, nr := r.hardNr + b.sectors)
  }

  function FrontMerged(r: Rq, b: Bio): Rq {
    r.(bios := [b] + r.bios, segs := r.segs + b.segs, sector := b.sector, hardSector := b.sector,
       hardNr := r.hardNr + b.sectors, nr := r.hardNr + b.sectors)
  }

  /** A request that turned out to be full is not tried again. */
  function Closed(s: State, x: Id): State {
    if x in s.rqs
    then s.(rqs := s.rqs[x := s.rqs[x].(nomerge := true)], last := if s.last == Some(x) then None else s.last)
    else s
  }

  /** elv_rqhash_reposition */
  function Rehash(s: State, x: Id): State {
    if x in s.rqs then s.(hash := HashAdd(HashDel(s.hash, x), x, End(s.rqs[x]))) else s
  }

  /** attempt_merge with ll_merge_requests_fn: whether y can be appended to x. */
  predicate CanJoin(l: Limits, rqs: Rqs, x: Id, y: Id, contig: bool) {
    && x in rqs && y in rqs && Mergeable(rqs[x]) && Mergeable(rqs[y]) && End(rqs[x]) == rqs[y].sector
    && rqs[x].write == rqs[y].write && !rqs[x].special && !rqs[y].special
    && rqs[x].nr + rqs[y].nr <= l.maxSectors && JoinedSegs(rqs[x], rqs[y], contig) <= l.maxSegs
  }

  function JoinedSegs(r: Rq, t: Rq, contig: bool): int { r.segs + t.segs - if contig then 1 else 0 }

  function JoinedRq(r: Rq, t: Rq, contig: bool): Rq {
    r.(bios := r.bios + t.bios, segs := JoinedSegs(r, t, contig), hardNr := r.hardNr + t.hardNr, nr := r.hardNr + t.hardNr)
  }

  /** attempt_merge with elv_merge_requests: y becomes part of x and goes away. */
  function Joined(s: State, x: Id, y: Id, contig: bool): State {
    if x in s.rqs && y in s.rqs then
      var s1 := Rehash(s.(rqs := s.rqs[x := JoinedRq(s.rqs[x], s.rqs[y], contig)]), x);
      s1.(hash := HashDel(s1.hash, y), last := Some(x), rqs := s1.rqs - {y})
    else s
  }

  /** After a back merge: attempt_back_merge, or else elv_merged_request. */
  function AfterBack(l: Limits, s: State, x: Id, env: Env): State {
    if env.near.Some? && CanJoin(l, s.rqs, x, env.near.value, env.contig) then Joined(s, x, env.near.value, env.contig)
    else Rehash(s, x).(last := Some(x))
  }

  /** After a front merge the end has not moved, so elv_merged_request does not touch the hash. */
  function AfterFront(l: Limits, s: State, x: Id, env: Env): State {
    if env.near.Some? && CanJoin(l, s.rqs, env.near.value, x, env.contig) then Joined(s, env.near.value, x, env.contig)
    else s.(last := Some(x))
  }

  /** init_request_from_bio and elv_insert; a barrier goes past the scheduler. */
  function NewRequest(s: State, b: Bio, x: Id): State {
    var r := Single(b);
    var s1 := s.(rqs := s.rqs[x := r], live := s.live + {b.id});
    if Mergeable(r) then s1.(hash := HashAdd(s1.hash, x, End(r)), last := if s1.last.None? then Some(x) else s1.last) else s1
  }

  /** __make_request until it is done or calls get_request_wait, which drops the lock: whether the bio
      was merged, and the new state. */
  function MergeBio(l: Limits, s: State, b: Bio, env: Env): (State, bool) {
    if b.barrier then (s, false)
    else
      var (s1, hit) := ElvMerge(s, b, env);
      match hit
      case Miss => (s1, false)
      case BackHit(x) =>
        if x in s1.rqs && Roomy(l, s1.rqs[x], b)
        then (AfterBack(l, s1.(rqs := s1.rqs[x := BackMerged(s1.rqs[x], b)], live := s1.live + {b.id}), x, env), true)
        else (Closed(s1, x), false)
      case FrontHit(x) =>
        if x in s1.rqs && Roomy(l, s1.rqs[x], b)
        then (AfterFront(l, s1.(rqs := s1.rqs[x := FrontMerged(s1.rqs[x], b)], live := s1.live + {b.id}), x, env), true)
        else (Closed(s1, x), false)
  }

  function MakeRequest(l: Limits, s: State, b: Bio, env: Env): State {
    var (s1, merged) := MergeBio(l, s, b, env);
    if merged then s1 else s1.(waiting := s1.waiting[b.id := b])
  }

  /** The rest of __make_request, once its task has a request, x, and the lock again. */
  function Resume(s: State, id: nat, x: Id): State
    requires id in s.waiting
  {
    NewRequest(s.(waiting := s.waiting - {id}), s.waiting[id], x)
  }

  /** elv_dispatch_sort and elv_dispatch_add_tail: the request leaves the scheduler. */
  function Dispatch(s: State, x: Id): State {
    if x in s.rqs
    then s.(rqs := s.rqs[x := s.rqs[x].(sorted := false)], hash := HashDel(s.hash, x),
            last := if s.last == Some(x) then None else s.last)
    else s
  }

  /** The driver takes a dispatched request. */
  function Start(s: State, x: Id): State {
    if x in s.rqs then s.(rqs := s.rqs[x := s.rqs[x].(started := true)]) else s
  }

  function BioIds(bios: seq<Bio>): set<nat> { set i | 0 <= i < |bios| :: bios[i].id }

  /** The request ends and so do its bios. */
  function Finish(s: State, x: Id): State {
    if x in s.rqs then s.(rqs := s.rqs - {x}, live := s.live - BioIds(s.rqs[x].bios)) else s
  }

  // ---- the invariant ----

  /** The bios follow each other without a gap from sector a to sector b. */
  predicate Covers(bios: seq<Bio>, a: nat, b: nat) {
    if bios == [] then a == b else bios[0].sector == a && Covers(bios[1..], a + bios[0].sectors, b)
  }

  predicate DistinctBios(bios: seq<Bio>) { forall i, j :: 0 <= i < j < |bios| ==> bios[i].id != bios[j].id }

  predicate RqOk(l: Limits, r: Rq) {
    && r.bios != [] && Covers(r.bios, r.sector, End(r)) && r.hardSector == r.sector && r.hardNr == r.nr
    && DistinctBios(r.bios) && (forall i :: 0 <= i < |r.bios| ==> r.bios[i].write == r.write)
    && (|r.bios| > 1 ==> r.nr <= l.maxSectors && r.segs <= l.maxSegs)
  }

  /** Every live bio is in one request and in no other. */
  ghost predicate OwnedOnce(rqs: Rqs, live: set<nat>) {
    && (forall x :: x in rqs ==> BioIds(rqs[x].bios) <= live)
    && (forall x, y :: x in rqs && y in rqs && x != y ==> BioIds(rqs[x].bios) !! BioIds(rqs[y].bios))
    && (forall id :: id in live ==> exists x :: x in rqs && id in BioIds(rqs[x].bios))
  }

  /** The chain of bucket k: each request once, and each where it belongs. */
  ghost predicate ChainOk(rqs: Rqs, chain: seq<Id>, k: nat) {
    && Distinct(chain)
    && (forall i :: 0 <= i < |chain| ==> chain[i] in rqs && rqs[chain[i]].sorted && Bucket(End(rqs[chain[i]])) == k)
  }

  ghost predicate HashOk(rqs: Rqs, h: Table) {
    |h| == BUCKETS && forall k :: 0 <= k < |h| ==> ChainOk(rqs, h[k], k)
  }

  ghost predicate RqsOk(l: Limits, rqs: Rqs) { forall x :: x in rqs ==> RqOk(l, rqs[x]) }

  ghost predicate Inv(l: Limits, s: State) {
    && RqsOk(l, s.rqs)
    && OwnedOnce(s.rqs, s.live) && HashOk(s.rqs, s.hash)
    && (s.last.Some? ==> s.last.value in s.rqs && s.rqs[s.last.value].sorted)
  }

  // ---- the hash agrees with a scan ----

  ghost predicate Hashed(h: Table, x: Id) { exists k :: 0 <= k < |h| && x in Ids(h[k]) }

  /** Dropping only what cannot be merged, a search finds a request iff the chain has one. */
  lemma {:induction false} ScanFacts(rqs: Rqs, chain: seq<Id>, sector: nat)
    ensures var r := Scan(rqs, chain, sector);
            && (r.found.Some? ==> var x := r.found.value; x in Ids(chain) && x in rqs && Mergeable(rqs[x]) && End(rqs[x]) == sector)
            && (r.found.None? ==> forall x :: x in Ids(chain) && x in rqs && Mergeable(rqs[x]) ==> End(rqs[x]) != sector)
            && Ids(r.kept) <= Ids(chain)
            && (forall x :: x in Ids(chain) - Ids(r.kept) ==> x !in rqs || !Mergeable(rqs[x]))
  {
    hide Mergeable, End;
    if chain != [] {
      ScanFacts(rqs, chain[1..], sector);
      ConsIds(chain);
      var rest := Scan(rqs, chain[1..], sector);
      ConsIds([chain[0]] + rest.kept);
      assert ([chain[0]] + rest.kept)[1..] == rest.kept;
    }
  }

  lemma ConsIds(q: seq<Id>)
    requires q != []
    ensures Ids(q) == {q[0]} + Ids(q[1..])
  {
    assert q == [q[0]] + q[1..];
  }

  lemma {:induction false} ScanDistinct(rqs: Rqs, chain: seq<Id>, sector: nat)
    requires Distinct(chain)
    ensures Distinct(Scan(rqs, chain, sector).kept)
  {
    hide Mergeable, End;
    if chain != [] {
      ScanDistinct(rqs, chain[1..], sector);
      ScanFacts(rqs, chain[1..], sector);
      var rest := Scan(rqs, chain[1..], sector).kept;
      assert chain[0] !in Ids(chain[1..]);
      assert forall i :: 0 <= i < |rest| ==> rest[i] in Ids(rest);
    }
  }

  /** elv_rqhash_find returns a request iff some mergeable hashed request ends at the sector, and it
      unhashes only requests that cannot be merged. */
  lemma FindAgrees(s: State, sector: nat)
    requires HashOk(s.rqs, s.hash)
    ensures var (s', found) := Find(s, sector);
            && (found.Some? <==> exists x :: Hashed(s.hash, x) && x in s.rqs && Mergeable(s.rqs[x]) && End(s.rqs[x]) == sector)
            && (found.Some? ==> var x := found.value;
                Hashed(s.hash, x) && x in s.rqs && s.rqs[x].sorted && Mergeable(s.rqs[x]) && End(s.rqs[x]) == sector)
  {
    hide Mergeable, End, Bucket;
    var k := Bucket(sector);
    var chain := s.hash[k];
    ScanFacts(s.rqs, chain, sector);
    var found := Find(s, sector).1;
    assert ChainOk(s.rqs, chain, k);
    if found.Some? {
      assert found.value in Ids(s.hash[k]);
      OnChain(s.rqs, chain, k, found.value);
    }
    forall x | Hashed(s.hash, x) && x in s.rqs && Mergeable(s.rqs[x]) && End(s.rqs[x]) == sector
      ensures found.Some?
    {
      var j :| 0 <= j < |s.hash| && x in Ids(s.hash[j]);
      assert ChainOk(s.rqs, s.hash[j], j);
      OnChain(s.rqs, s.hash[j], j, x);
    }
  }

  lemma OnChain(rqs: Rqs, chain: seq<Id>, k: nat, x: Id)
    requires ChainOk(rqs, chain, k) && x in Ids(chain)
    ensures x in rqs && rqs[x].sorted && Bucket(End(rqs[x])) == k
  {
    var i :| 0 <= i < |chain| && chain[i] == x;
  }

  lemma FindKeeps(s: State, sector: nat)
    requires HashOk(s.rqs, s.hash)
    ensures var s' := Find(s, sector).0;
            && s' == s.(hash := s'.hash) && HashOk(s.rqs, s'.hash)
            && forall x :: Hashed(s.hash, x) && x in s.rqs && Mergeable(s.rqs[x]) ==> Hashed(s'.hash, x)
  {
    hide Mergeable, End, Bucket;
    var s', k := Find(s, sector).0, Bucket(sector);
    ScanFacts(s.rqs, s.hash[k], sector);
    ScanDistinct(s.rqs, s.hash[k], sector);
    var kept := Scan(s.rqs, s.hash[k], sector).kept;
    assert ChainOk(s.rqs, s.hash[k], k);
    forall i | 0 <= i < |kept|
      ensures kept[i] in s.rqs && s.rqs[kept[i]].sorted && Bucket(End(s.rqs[kept[i]])) == k
    {
      assert kept[i] in Ids(kept);
      OnChain(s.rqs, s.hash[k], k, kept[i]);
    }
    forall x | Hashed(s.hash, x) && x in s.rqs && Mergeable(s.rqs[x])
      ensures Hashed(s'.hash, x)
    {
      var j :| 0 <= j < |s.hash| && x in Ids(s.hash[j]);
      assert x in Ids(s'.hash[j]);
    }
  }

  // ---- the hash is kept ----

  /** rqs' is rqs except that x may have changed or gone. */
  predicate Elsewhere(rqs: Rqs, rqs': Rqs, x: Id) {
    forall y :: y in rqs && y != x ==> y in rqs' && rqs'[y] == rqs[y]
  }

  lemma ChainDel(rqs: Rqs, rqs': Rqs, chain: seq<Id>, k: nat, x: Id)
    requires ChainOk(rqs, chain, k) && Elsewhere(rqs, rqs', x)
    ensures ChainOk(rqs', Minus(chain, x), k) && x !in Minus(chain, x)
  {
    hide Bucket, End;
    if x in chain {
      MinusFacts(chain, x);
      MinusDistinct(chain, x);
      IdsMember(Minus(chain, x), x);
    } else {
      assert forall i :: 0 <= i < |chain| ==> chain[i] in chain;
    }
  }

  /** Unhashing x makes room for any change to x. */
  lemma HashDelKeeps(rqs: Rqs, rqs': Rqs, h: Table, x: Id)
    requires HashOk(rqs, h) && Elsewhere(rqs, rqs', x)
    ensures HashOk(rqs', HashDel(h, x)) && forall k :: 0 <= k < |h| ==> x !in HashDel(h, x)[k]
  {
    hide ChainOk, Minus;
    forall k | 0 <= k < |h|
      ensures ChainOk(rqs', HashDel(h, x)[k], k) && x !in HashDel(h, x)[k]
    {
      ChainDel(rqs, rqs', h[k], k, x);
    }
  }

  lemma HashAddKeeps(rqs: Rqs, h: Table, x: Id)
    requires HashOk(rqs, h) && x in rqs && rqs[x].sorted && forall k :: 0 <= k < |h| ==> x !in h[k]
    ensures HashOk(rqs, HashAdd(h, x, End(rqs[x])))
  {
    hide Bucket, End;
    var k := Bucket(End(rqs[x]));
    assert ChainOk(rqs, h[k], k) && x !in h[k];
    assert ChainOk(rqs, [x] + h[k], k);
  }

  /** A request that is not hashed may change. */
  lemma HashFrame(rqs: Rqs, rqs': Rqs, h: Table, x: Id)
    requires HashOk(rqs, h) && Elsewhere(rqs, rqs', x)
    requires x in rqs ==> x in rqs' && End(rqs'[x]) == End(rqs[x]) && rqs'[x].sorted == rqs[x].sorted
    ensures HashOk(rqs', h)
  {
    hide Bucket, End;
    forall k | 0 <= k < |h|
      ensures ChainOk(rqs', h[k], k)
    {
      assert ChainOk(rqs, h[k], k);
    }
  }

  lemma RehashKeeps(rqs: Rqs, s: State, x: Id)
    requires HashOk(rqs, s.hash) && Elsewhere(rqs, s.rqs, x) && x in s.rqs && s.rqs[x].sorted
    ensures HashOk(s.rqs, Rehash(s, x).hash)
  {
    hide HashOk, HashDel, HashAdd, Elsewhere;
    HashDelKeeps(rqs, s.rqs, s.hash, x);
    assert |HashDel(s.hash, x)| == |s.hash|;
    HashAddKeeps(s.rqs, HashDel(s.hash, x), x);
  }

  // ---- one request ----

  lemma {:induction false} CoversBoth(a: seq<Bio>, b: seq<Bio>, x: nat, y: nat, z: nat)
    requires Covers(a, x, y) && Covers(b, y, z)
    ensures Covers(a + b, x, z)
  {
    if a == [] {
      assert a + b == b;
    } else {
      assert (a + b)[1..] == a[1..] + b;
      CoversBoth(a[1..], b, x + a[0].sectors, y, z);
    }
  }

  lemma IdsBoth(a: seq<Bio>, b: seq<Bio>)
    ensures BioIds(a + b) == BioIds(a) + BioIds(b)
  {
    var c := a + b;
    forall id
      ensures id in BioIds(c) <==> id in BioIds(a) || id in BioIds(b)
    {
      if id in BioIds(a) {
        var i :| 0 <= i < |a| && a[i].id == id;
        assert c[i].id == id;
      }
      if id in BioIds(b) {
        var i :| 0 <= i < |b| && b[i].id == id;
        assert c[|a| + i].id == id;
      }
      if id in BioIds(c) {
        var i :| 0 <= i < |c| && c[i].id == id;
        assert if i < |a| then a[i].id == id else b[i - |a|].id == id;
      }
    }
  }

  lemma DistinctBoth(a: seq<Bio>, b: seq<Bio>)
    requires DistinctBios(a) && DistinctBios(b) && BioIds(a) !! BioIds(b)
    ensures DistinctBios(a + b)
  {
    var c := a + b;
    forall i, j | 0 <= i < j < |c|
      ensures c[i].id != c[j].id
    {
      if i < |a| <= j {
        assert c[i].id in BioIds(a) && c[j].id in BioIds(b);
      }
    }
  }

  /** A request made of the bios of r followed by those of t. */
  lemma JoinOk(l: Limits, r: Rq, t: Rq, u: Rq)
    requires RqOk(l, r) && RqOk(l, t) && End(r) == t.sector && r.write == t.write && BioIds(r.bios) !! BioIds(t.bios)
    requires r.nr + t.nr <= l.maxSectors && u.segs <= l.maxSegs
    requires u.bios == r.bios + t.bios && u.sector == u.hardSector == r.sector && u.nr == u.hardNr == r.nr + t.nr && u.write == r.write
    ensures RqOk(l, u) && BioIds(u.bios) == BioIds(r.bios) + BioIds(t.bios) && End(u) == End(t)
  {
    hide DistinctBios, Covers, BioIds;
    CoversBoth(r.bios, t.bios, r.sector, End(r), End(t));
    DistinctBoth(r.bios, t.bios);
    IdsBoth(r.bios, t.bios);
  }

  /** The request a bio makes on its own. */
  function Single(b: Bio): Rq {
    Rq([b], b.sector, b.sectors, b.sector, b.sectors, b.segs, b.write, b.barrier, false, b.barrier, false, !b.barrier)
  }

  lemma SingleOk(l: Limits, b: Bio)
    ensures RqOk(l, Single(b)) && BioIds(Single(b).bios) == {b.id}
  {
    assert Single(b).bios[1..] == [];
  }

  lemma BackOk(l: Limits, r: Rq, b: Bio)
    requires RqOk(l, r) && Roomy(l, r, b) && b.sector == End(r) && b.write == r.write && b.id !in BioIds(r.bios)
    ensures RqOk(l, BackMerged(r, b)) && BioIds(BackMerged(r, b).bios) == BioIds(r.bios) + {b.id}
  {
    SingleOk(l, b);
    hide RqOk, BioIds;
    RqFacts(l, r);
    JoinOk(l, r, Single(b), BackMerged(r, b));
  }

  lemma FrontOk(l: Limits, r: Rq, b: Bio)
    requires RqOk(l, r) && Roomy(l, r, b) && r.sector == b.sector + b.sectors && b.write == r.write && b.id !in BioIds(r.bios)
    ensures RqOk(l, FrontMerged(r, b)) && BioIds(FrontMerged(r, b).bios) == BioIds(r.bios) + {b.id}
    ensures End(FrontMerged(r, b)) == End(r)
  {
    SingleOk(l, b);
    hide RqOk, BioIds;
    RqFacts(l, r);
    JoinOk(l, Single(b), r, FrontMerged(r, b));
    assert BioIds(r.bios) + {b.id} == {b.id} + BioIds(r.bios);
  }

  lemma RqFacts(l: Limits, r: Rq)
    requires RqOk(l, r)
    ensures r.hardNr == r.nr && r.hardSector == r.sector
  {
  }

  /** Each sector of a request belongs to exactly one of its bios. */
  lemma {:induction false} CoveredOnce(bios: seq<Bio>, a: nat, b: nat, sector: nat) returns (i: nat)
    requires Covers(bios, a, b) && a <= sector < b
    ensures i < |bios| && bios[i].sector <= sector < bios[i].sector + bios[i].sectors
    ensures forall j :: 0 <= j < |bios| && bios[j].sector <= sector < bios[j].sector + bios[j].sectors ==> j == i
  {
    if sector < a + bios[0].sectors {
      i := 0;
      CoversAbove(bios[1..], a + bios[0].sectors, b);
      assert forall j :: 0 < j < |bios| ==> bios[j] == bios[1..][j - 1];
    } else {
      var k := CoveredOnce(bios[1..], a + bios[0].sectors, b, sector);
      i := k + 1;
      assert forall j :: 0 < j < |bios| ==> bios[j] == bios[1..][j - 1];
    }
  }

  lemma {:induction false} CoversAbove(bios: seq<Bio>, a: nat, b: nat)
    requires Covers(bios, a, b)
    ensures a <= b && forall j :: 0 <= j < |bios| ==> bios[j].sector >= a
  {
    if bios != [] {
      CoversAbove(bios[1..], a + bios[0].sectors, b);
      assert forall j :: 0 < j < |bios| ==> bios[j] == bios[1..][j - 1];
    }
  }

  // ---- ownership ----

  /** x gets the bio `id` on top of what it had, if it was there at all. */
  lemma OwnMore(rqs: Rqs, live: set<nat>, x: Id, r: Rq, id: nat)
    requires OwnedOnce(rqs, live) && id !in live
    requires BioIds(r.bios) == (if x in rqs then BioIds(rqs[x].bios) else {}) + {id}
    ensures OwnedOnce(rqs[x := r], live + {id})
  {
    hide BioIds;
    var rqs' := rqs[x := r];
    forall i | i in live + {id}
      ensures exists y :: y in rqs' && i in BioIds(rqs'[y].bios)
    {
      if i == id {
        assert x in rqs' && i in BioIds(rqs'[x].bios);
      } else {
        var y :| y in rqs && i in BioIds(rqs[y].bios);
        assert y in rqs' && i in BioIds(rqs'[y].bios);
      }
    }
  }

  lemma OwnSame(rqs: Rqs, live: set<nat>, x: Id, r: Rq)
    requires OwnedOnce(rqs, live) && x in rqs && r.bios == rqs[x].bios
    ensures OwnedOnce(rqs[x := r], live)
  {
    hide BioIds;
    var rqs' := rqs[x := r];
    forall i | i in live
      ensures exists y :: y in rqs' && i in BioIds(rqs'[y].bios)
    {
      var y :| y in rqs && i in BioIds(rqs[y].bios);
      assert y in rqs' && i in BioIds(rqs'[y].bios);
    }
  }

  lemma OwnJoined(rqs: Rqs, live: set<nat>, x: Id, y: Id, r: Rq)
    requires OwnedOnce(rqs, live) && x in rqs && y in rqs && x != y
    requires BioIds(r.bios) == BioIds(rqs[x].bios) + BioIds(rqs[y].bios)
    ensures OwnedOnce(rqs[x := r] - {y}, live)
  {
    hide BioIds;
    var rqs' := rqs[x := r] - {y};
    forall i | i in live
      ensures exists z :: z in rqs' && i in BioIds(rqs'[z].bios)
    {
      var z :| z in rqs && i in BioIds(rqs[z].bios);
      var z' := if z == y then x else z;
      assert z' in rqs' && i in BioIds(rqs'[z'].bios);
    }
  }

  lemma OwnLess(rqs: Rqs, live: set<nat>, x: Id)
    requires OwnedOnce(rqs, live) && x in rqs
    ensures OwnedOnce(rqs - {x}, live - BioIds(rqs[x].bios))
  {
    hide BioIds;
    var rqs' := rqs - {x};
    forall i | i in live - BioIds(rqs[x].bios)
      ensures exists z :: z in rqs' && i in BioIds(rqs'[z].bios)
    {
      var z :| z in rqs && i in BioIds(rqs[z].bios);
      assert z in rqs' && i in BioIds(rqs'[z].bios);
    }
  }

  // ---- every step ----

  datatype Event = Submit(b: Bio, env: Env) | Insert(id: nat, x: Id) | Take(x: Id) | Begin(x: Id) | Done(x: Id)

  function HitId(h: Hit): Option<Id> { if h.Miss? then None else Some(h.x) }

  /** A bio is submitted once; the scheduler proposes only requests it holds: for a front merge one that
      starts where the bio ends, and as a neighbour one other than the request just merged into. */
  predicate Possible(s: State, e: Event) {
    match e
    case Submit(b, env) =>
      && b.id !in s.live && b.id !in s.waiting
      && (env.choice.Some? ==> env.choice.value in s.rqs && s.rqs[env.choice.value].sorted
                               && s.rqs[env.choice.value].sector == b.sector + b.sectors)
      && (env.near.Some? ==> env.near.value in s.rqs && s.rqs[env.near.value].sorted && env.near != HitId(ElvMerge(s, b, env).1))
    case Insert(id, x) => id in s.waiting && x !in s.rqs
    case Take(x) => x in s.rqs && s.rqs[x].sorted
    case Begin(x) => x in s.rqs && !s.rqs[x].sorted
    case Done(x) => x in s.rqs && !s.rqs[x].sorted
  }

  function Step(l: Limits, s: State, e: Event): State
    requires Possible(s, e)
  {
    match e
    case Submit(b, env) => MakeRequest(l, s, b, env)
    case Insert(id, x) => Resume(s, id, x)
    case Take(x) => Dispatch(s, x)
    case Begin(x) => Start(s, x)
    case Done(x) => Finish(s, x)
  }

  /** What elv_merge answers fits. */
  lemma HitFits(l: Limits, s: State, b: Bio, env: Env)
    requires Inv(l, s) && Possible(s, Submit(b, env))
    ensures var (s1, hit) := ElvMerge(s, b, env);
            && s1 == s.(hash := s1.hash) && HashOk(s.rqs, s1.hash) && Inv(l, s1)
            && (hit.Miss? || (hit.x in s.rqs && s.rqs[hit.x].sorted && s.rqs[hit.x].write == b.write && Mergeable(s.rqs[hit.x])))
            && (hit.BackHit? ==> End(s.rqs[hit.x]) == b.sector)
            && (hit.FrontHit? ==> s.rqs[hit.x].sector == b.sector + b.sectors)
  {
    hide HashOk, OwnedOnce, RqsOk, Find, Mergeable;
    FindAgrees(s, b.sector);
    FindKeeps(s, b.sector);
  }

  lemma PutOk(l: Limits, rqs: Rqs, x: Id, r: Rq)
    requires RqsOk(l, rqs) && RqOk(l, r)
    ensures RqsOk(l, rqs[x := r])
  {
    hide RqOk;
  }

  lemma NewRequestKeeps(l: Limits, s: State, b: Bio, x: Id)
    requires Inv(l, s) && x !in s.rqs && b.id !in s.live
    ensures Inv(l, NewRequest(s, b, x))
  {
    hide RqOk, OwnedOnce, RqsOk, HashOk, BioIds, HashAdd, End;
    var rqs' := s.rqs[x := Single(b)];
    SingleOk(l, b);
    PutOk(l, s.rqs, x, Single(b));
    assert {} + {b.id} == {b.id};
    OwnMore(s.rqs, s.live, x, Single(b), b.id);
    HashFrame(s.rqs, rqs', s.hash, x);
    if Mergeable(Single(b)) {
      NotHashed(s.rqs, s.hash, x);
      HashAddKeeps(rqs', s.hash, x);
    }
  }

  lemma NotHashed(rqs: Rqs, h: Table, x: Id)
    requires HashOk(rqs, h) && x !in rqs
    ensures forall k :: 0 <= k < |h| ==> x !in h[k]
  {
    forall k | 0 <= k < |h|
      ensures x !in h[k]
    {
      assert ChainOk(rqs, h[k], k);
    }
  }

  lemma ClosedKeeps(l: Limits, s: State, x: Id)
    requires Inv(l, s)
    ensures Inv(l, Closed(s, x))
  {
    hide OwnedOnce, RqsOk, HashOk, BioIds, Covers, DistinctBios;
    if x in s.rqs {
      var r := s.rqs[x].(nomerge := true);
      RqHere(l, s.rqs, x);
      PutOk(l, s.rqs, x, r);
      OwnSame(s.rqs, s.live, x, r);
      HashFrame(s.rqs, s.rqs[x := r], s.hash, x);
    }
  }

  lemma RqHere(l: Limits, rqs: Rqs, x: Id)
    requires RqsOk(l, rqs) && x in rqs
    ensures RqOk(l, rqs[x])
  {
  }

  /** attempt_merge of y into x; the hash may still have x where it was before x grew. */
  lemma JoinedKeeps(l: Limits, rqs: Rqs, s: State, x: Id, y: Id, contig: bool)
    requires RqsOk(l, s.rqs) && OwnedOnce(s.rqs, s.live) && HashOk(rqs, s.hash) && Elsewhere(rqs, s.rqs, x)
    requires CanJoin(l, s.rqs, x, y, contig) && x != y && s.rqs[x].sorted
    ensures Inv(l, Joined(s, x, y, contig))
  {
    hide RqOk, RqsOk, OwnedOnce, HashOk, BioIds, HashDel, HashAdd, Mergeable, End;
    var r := JoinedRq(s.rqs[x], s.rqs[y], contig);
    RqHere(l, s.rqs, x);
    RqHere(l, s.rqs, y);
    RqFacts(l, s.rqs[x]);
    RqFacts(l, s.rqs[y]);
    Apart(s.rqs, s.live, x, y);
    JoinOk(l, s.rqs[x], s.rqs[y], r);
    var rqs1 := s.rqs[x := r];
    PutOk(l, s.rqs, x, r);
    TakeOk(l, rqs1, y);
    OwnJoined(s.rqs, s.live, x, y, r);
    var s1 := s.(rqs := rqs1);
    RehashKeeps(rqs, s1, x);
    HashDelKeeps(rqs1, rqs1 - {y}, Rehash(s1, x).hash, y);
  }

  lemma Apart(rqs: Rqs, live: set<nat>, x: Id, y: Id)
    requires OwnedOnce(rqs, live) && x in rqs && y in rqs && x != y
    ensures BioIds(rqs[x].bios) !! BioIds(rqs[y].bios)
  {
  }

  lemma TakeOk(l: Limits, rqs: Rqs, x: Id)
    requires RqsOk(l, rqs)
    ensures RqsOk(l, rqs - {x})
  {
  }

  lemma BackKeeps(l: Limits, s: State, b: Bio, x: Id, env: Env)
    requires Inv(l, s) && b.id !in s.live && x in s.rqs && s.rqs[x].sorted && Roomy(l, s.rqs[x], b)
    requires End(s.rqs[x]) == b.sector && s.rqs[x].write == b.write && env.near != Some(x)
    ensures Inv(l, AfterBack(l, s.(rqs := s.rqs[x := BackMerged(s.rqs[x], b)], live := s.live + {b.id}), x, env))
  {
    hide RqOk, RqsOk, OwnedOnce, HashOk, BioIds, CanJoin, Joined, Rehash, Roomy;
    var s1 := s.(rqs := s.rqs[x := BackMerged(s.rqs[x], b)], live := s.live + {b.id});
    RqHere(l, s.rqs, x);
    NotOwned(s.rqs, s.live, x, b.id);
    BackOk(l, s.rqs[x], b);
    PutOk(l, s.rqs, x, s1.rqs[x]);
    OwnMore(s.rqs, s.live, x, s1.rqs[x], b.id);
    if env.near.Some? && CanJoin(l, s1.rqs, x, env.near.value, env.contig) {
      JoinedKeeps(l, s.rqs, s1, x, env.near.value, env.contig);
    } else {
      RehashKeeps(s.rqs, s1, x);
      RehashSame(s1, x);
    }
  }

  lemma RehashSame(s: State, x: Id)
    ensures Rehash(s, x) == s.(hash := Rehash(s, x).hash)
  {
  }

  lemma NotOwned(rqs: Rqs, live: set<nat>, x: Id, id: nat)
    requires OwnedOnce(rqs, live) && x in rqs && id !in live
    ensures id !in BioIds(rqs[x].bios)
  {
  }

  lemma FrontKeeps(l: Limits, s: State, b: Bio, x: Id, env: Env)
    requires Inv(l, s) && b.id !in s.live && x in s.rqs && s.rqs[x].sorted && Roomy(l, s.rqs[x], b)
    requires s.rqs[x].sector == b.sector + b.sectors && s.rqs[x].write == b.write
    requires env.near.Some? ==> env.near.value in s.rqs && s.rqs[env.near.value].sorted && env.near.value != x
    ensures Inv(l, AfterFront(l, s.(rqs := s.rqs[x := FrontMerged(s.rqs[x], b)], live := s.live + {b.id}), x, env))
  {
    hide RqOk, RqsOk, OwnedOnce, HashOk, BioIds, CanJoin, Joined, Roomy, End;
    var s1 := s.(rqs := s.rqs[x := FrontMerged(s.rqs[x], b)], live := s.live + {b.id});
    RqHere(l, s.rqs, x);
    NotOwned(s.rqs, s.live, x, b.id);
    FrontOk(l, s.rqs[x], b);
    PutOk(l, s.rqs, x, s1.rqs[x]);
    OwnMore(s.rqs, s.live, x, s1.rqs[x], b.id);
    HashFrame(s.rqs, s1.rqs, s.hash, x);
    if env.near.Some? && CanJoin(l, s1.rqs, env.near.value, x, env.contig) {
      JoinedKeeps(l, s1.rqs, s1, env.near.value, x, env.contig);
    }
  }

  lemma SubmitKeeps(l: Limits, s: State, b: Bio, env: Env)
    requires Inv(l, s) && Possible(s, Submit(b, env))
    ensures Inv(l, MakeRequest(l, s, b, env))
  {
    hide Inv, AfterBack, AfterFront, ElvMerge, Roomy, BackMerged, FrontMerged;
    if !b.barrier {
      HitFits(l, s, b, env);
      var (s1, hit) := ElvMerge(s, b, env);
      if hit.Miss? {
      } else if !Roomy(l, s1.rqs[hit.x], b) {
        ClosedKeeps(l, s1, hit.x);
      } else if hit.BackHit? {
        BackKeeps(l, s1, b, hit.x, env);
      } else {
        FrontKeeps(l, s1, b, hit.x, env);
      }
    }
    WaitingDoesNotMatter(l, MergeBio(l, s, b, env).0, b);
  }

  lemma WaitingDoesNotMatter(l: Limits, s: State, b: Bio)
    requires Inv(l, s)
    ensures Inv(l, s.(waiting := s.waiting[b.id := b])) && Inv(l, s.(waiting := s.waiting - {b.id}))
  {
  }

  lemma ResumeKeeps(l: Limits, s: State, id: nat, x: Id)
    requires Inv(l, s) && WaitOk(s) && Possible(s, Insert(id, x))
    ensures Inv(l, Resume(s, id, x))
  {
    hide Inv, NewRequest;
    WaitingDoesNotMatter(l, s, s.waiting[id]);
    NewRequestKeeps(l, s.(waiting := s.waiting - {id}), s.waiting[id], x);
  }

  // ---- waiting bios are in no request ----

  ghost predicate WaitOk(s: State) { forall id :: id in s.waiting ==> id !in s.live && s.waiting[id].id == id }

  /** A bio that is merged, and no other, comes into a request; waiting bios stay where they are. */
  lemma MergeBioFrame(l: Limits, s: State, b: Bio, env: Env)
    ensures var (s1, merged) := MergeBio(l, s, b, env);
            s1.waiting == s.waiting && s1.live == if merged then s.live + {b.id} else s.live
  {
    hide Scan, MergeOk, TryMerge, Roomy, CanJoin, HashAdd, HashDel, JoinedRq, BackMerged, FrontMerged;
  }

  lemma StepKeepsWait(l: Limits, s: State, e: Event)
    requires WaitOk(s) && Possible(s, e)
    ensures WaitOk(Step(l, s, e))
  {
    hide MergeBio, HashAdd, HashDel, Mergeable;
    if e.Submit? {
      MergeBioFrame(l, s, e.b, e.env);
    }
  }

  lemma DispatchKeeps(l: Limits, s: State, x: Id)
    requires Inv(l, s) && x in s.rqs
    ensures Inv(l, Dispatch(s, x))
  {
    hide OwnedOnce, RqsOk, HashOk, BioIds, Covers, DistinctBios, HashDel;
    var r := s.rqs[x].(sorted := false);
    RqHere(l, s.rqs, x);
    PutOk(l, s.rqs, x, r);
    OwnSame(s.rqs, s.live, x, r);
    HashDelKeeps(s.rqs, s.rqs[x := r], s.hash, x);
  }

  lemma StartKeeps(l: Limits, s: State, x: Id)
    requires Inv(l, s) && x in s.rqs
    ensures Inv(l, Start(s, x))
  {
    hide OwnedOnce, RqsOk, HashOk, BioIds, Covers, DistinctBios;
    var r := s.rqs[x].(started := true);
    RqHere(l, s.rqs, x);
    PutOk(l, s.rqs, x, r);
    OwnSame(s.rqs, s.live, x, r);
    HashFrame(s.rqs, s.rqs[x := r], s.hash, x);
  }

  lemma FinishKeeps(l: Limits, s: State, x: Id)
    requires Inv(l, s) && x in s.rqs && !s.rqs[x].sorted
    ensures Inv(l, Finish(s, x))
  {
    hide OwnedOnce, RqsOk, BioIds, Bucket, End;
    TakeOk(l, s.rqs, x);
    OwnLess(s.rqs, s.live, x);
    forall k | 0 <= k < |s.hash|
      ensures ChainOk(s.rqs - {x}, s.hash[k], k)
    {
      assert ChainOk(s.rqs, s.hash[k], k);
    }
  }

  lemma StepKeepsInv(l: Limits, s: State, e: Event)
    requires Inv(l, s) && WaitOk(s) && Possible(s, e)
    ensures Inv(l, Step(l, s, e))
  {
    hide Inv, WaitOk, MakeRequest, Resume, Dispatch, Start, Finish;
    match e
    case Submit(b, env) => SubmitKeeps(l, s, b, env);
    case Insert(id, x) => ResumeKeeps(l, s, id, x);
    case Take(x) => DispatchKeeps(l, s, x);
    case Begin(x) => StartKeeps(l, s, x);
    case Done(x) => FinishKeeps(l, s, x);
  }

  // ---- nothing mergeable is missing from the hash ----

  ghost predicate AllHashed(rqs: Rqs, h: Table) {
    forall x :: x in rqs && rqs[x].sorted && Mergeable(rqs[x]) ==> Hashed(h, x)
  }

  /** Every chain keeps everything but x. */
  ghost predicate KeepsOthers(h: Table, h': Table, x: Id) { forall y :: y != x && Hashed(h, y) ==> Hashed(h', y) }

  lemma AllHashedStep(rqs: Rqs, h: Table, rqs': Rqs, h': Table, x: Id)
    requires AllHashed(rqs, h) && Elsewhere(rqs', rqs, x) && KeepsOthers(h, h', x)
    requires x in rqs' && rqs'[x].sorted && Mergeable(rqs'[x]) ==> Hashed(h', x)
    ensures AllHashed(rqs', h')
  {
    hide Hashed, Mergeable;
  }

  lemma DelKeepsOthers(h: Table, x: Id)
    ensures KeepsOthers(h, HashDel(h, x), x)
  {
    forall y | y != x && Hashed(h, y)
      ensures Hashed(HashDel(h, x), y)
    {
      var k :| 0 <= k < |h| && y in Ids(h[k]);
      MinusOther(h[k], x, y);
      assert y in Ids(HashDel(h, x)[k]);
    }
  }

  lemma MinusOther(q: seq<Id>, x: Id, y: Id)
    requires y != x && y in Ids(q)
    ensures y in Ids(Minus(q, x))
  {
    if x in q {
      var k := IndexOf(q, x);
      assert q == q[..k] + [x] + q[k + 1..];
      assert y in q[..k] || y in q[k + 1..];
    }
  }

  lemma AddHashes(h: Table, x: Id, key: nat)
    requires |h| == BUCKETS
    ensures Hashed(HashAdd(h, x, key), x) && KeepsOthers(h, HashAdd(h, x, key), x)
  {
    hide Bucket;
    var h', k := HashAdd(h, x, key), Bucket(key);
    assert h'[k][0] == x;
    assert x in Ids(h'[k]);
    forall y | y != x && Hashed(h, y)
      ensures Hashed(h', y)
    {
      var j :| 0 <= j < |h| && y in Ids(h[j]);
      assert y in Ids(h'[j]);
    }
  }

  lemma RehashHashes(s: State, x: Id)
    requires |s.hash| == BUCKETS && x in s.rqs
    ensures |Rehash(s, x).hash| == BUCKETS && Hashed(Rehash(s, x).hash, x) && KeepsOthers(s.hash, Rehash(s, x).hash, x)
  {
    hide HashDel, HashAdd, Hashed;
    DelKeepsOthers(s.hash, x);
    assert |HashDel(s.hash, x)| == |s.hash|;
    AddHashes(HashDel(s.hash, x), x, End(s.rqs[x]));
  }

  lemma JoinedHashes(rqs: Rqs, s: State, x: Id, y: Id, contig: bool)
    requires AllHashed(rqs, s.hash) && |s.hash| == BUCKETS && Elsewhere(s.rqs, rqs, x) && x in s.rqs && y in s.rqs && x != y
    ensures AllHashed(Joined(s, x, y, contig).rqs, Joined(s, x, y, contig).hash)
  {
    hide Hashed, Mergeable, HashDel, AllHashed, KeepsOthers;
    var s1 := s.(rqs := s.rqs[x := JoinedRq(s.rqs[x], s.rqs[y], contig)]);
    var s2 := Rehash(s1, x);
    RehashHashes(s1, x);
    RehashSame(s1, x);
    AllHashedStep(rqs, s.hash, s1.rqs, s2.hash, x);
    DelKeepsOthers(s2.hash, y);
    AllHashedStep(s1.rqs, s2.hash, s1.rqs - {y}, HashDel(s2.hash, y), y);
  }

  lemma NewHashes(l: Limits, s: State, b: Bio, x: Id)
    requires AllHashed(s.rqs, s.hash) && |s.hash| == BUCKETS && x !in s.rqs
    ensures AllHashed(NewRequest(s, b, x).rqs, NewRequest(s, b, x).hash)
  {
    hide Hashed, HashAdd, AllHashed, KeepsOthers;
    var s' := NewRequest(s, b, x);
    AddHashes(s.hash, x, End(Single(b)));
    assert KeepsOthers(s.hash, s.hash, x) by { SelfKeeps(s.hash, x); }
    AllHashedStep(s.rqs, s.hash, s'.rqs, s'.hash, x);
  }

  lemma SelfKeeps(h: Table, x: Id)
    ensures KeepsOthers(h, h, x)
  {
  }

  lemma SubmitHashes(l: Limits, s: State, b: Bio, env: Env)
    requires Inv(l, s) && AllHashed(s.rqs, s.hash) && Possible(s, Submit(b, env))
    ensures AllHashed(MakeRequest(l, s, b, env).rqs, MakeRequest(l, s, b, env).hash)
  {
    hide AllHashed, KeepsOthers, RqsOk, OwnedOnce, ElvMerge, BackMerged, FrontMerged, Roomy, AfterBack, AfterFront;
    if !b.barrier {
      HitFits(l, s, b, env);
      ElvMergeHashes(l, s, b, env);
      var (s1, hit) := ElvMerge(s, b, env);
      if hit.Miss? {
      } else if !Roomy(l, s1.rqs[hit.x], b) {
        SelfKeeps(s1.hash, hit.x);
        AllHashedStep(s1.rqs, s1.hash, Closed(s1, hit.x).rqs, s1.hash, hit.x);
      } else if hit.BackHit? {
        BackHashes(l, s1, hit.x, BackMerged(s1.rqs[hit.x], b), s1.live + {b.id}, env);
      } else {
        FrontHashes(l, s1, hit.x, FrontMerged(s1.rqs[hit.x], b), s1.live + {b.id}, env);
      }
    }
  }

  lemma ElvMergeHashes(l: Limits, s: State, b: Bio, env: Env)
    requires Inv(l, s) && AllHashed(s.rqs, s.hash)
    ensures AllHashed(s.rqs, ElvMerge(s, b, env).0.hash)
  {
    hide Hashed, Find, HashOk, RqsOk, OwnedOnce, Mergeable;
    FindKeeps(s, b.sector);
  }

  lemma BackHashes(l: Limits, s: State, x: Id, r: Rq, live: set<nat>, env: Env)
    requires AllHashed(s.rqs, s.hash) && |s.hash| == BUCKETS && x in s.rqs && env.near != Some(x)
    ensures var s1 := s.(rqs := s.rqs[x := r], live := live);
            AllHashed(AfterBack(l, s1, x, env).rqs, AfterBack(l, s1, x, env).hash)
  {
    hide Hashed, Mergeable, HashDel, AllHashed, KeepsOthers, Rehash, Joined, End;
    var s1 := s.(rqs := s.rqs[x := r], live := live);
    if env.near.Some? && CanJoin(l, s1.rqs, x, env.near.value, env.contig) {
      JoinedHashes(s.rqs, s1, x, env.near.value, env.contig);
    } else {
      RehashHashes(s1, x);
      RehashSame(s1, x);
      AllHashedStep(s.rqs, s.hash, s1.rqs, Rehash(s1, x).hash, x);
    }
  }

  lemma FrontHashes(l: Limits, s: State, x: Id, r: Rq, live: set<nat>, env: Env)
    requires AllHashed(s.rqs, s.hash) && |s.hash| == BUCKETS && x in s.rqs && env.near != Some(x)
    requires s.rqs[x].sorted && Mergeable(s.rqs[x])
    ensures var s1 := s.(rqs := s.rqs[x := r], live := live);
            AllHashed(AfterFront(l, s1, x, env).rqs, AfterFront(l, s1, x, env).hash)
  {
    hide Hashed, Mergeable, HashDel, KeepsOthers, Joined, End;
    var s1 := s.(rqs := s.rqs[x := r], live := live);
    SelfKeeps(s.hash, x);
    AllHashedStep(s.rqs, s.hash, s1.rqs, s.hash, x);
    if env.near.Some? && CanJoin(l, s1.rqs, env.near.value, x, env.contig) {
      JoinedHashes(s1.rqs, s1, env.near.value, x, env.contig);
    }
  }

  lemma HashSize(l: Limits, s: State)
    requires Inv(l, s)
    ensures |s.hash| == BUCKETS
  {
  }

  lemma StepKeepsHashed(l: Limits, s: State, e: Event)
    requires Inv(l, s) && AllHashed(s.rqs, s.hash) && Possible(s, e)
    ensures AllHashed(Step(l, s, e).rqs, Step(l, s, e).hash)
  {
    hide Hashed, HashDel, KeepsOthers, MakeRequest, NewRequest, Inv;
    match e
    case Submit(b, env) => SubmitHashes(l, s, b, env);
    case Insert(id, x) =>
      HashSize(l, s);
      NewHashes(l, s.(waiting := s.waiting - {id}), s.waiting[id], x);
    case Take(x) =>
      DelKeepsOthers(s.hash, x);
      AllHashedStep(s.rqs, s.hash, Dispatch(s, x).rqs, HashDel(s.hash, x), x);
    case Begin(x) =>
      SelfKeeps(s.hash, x);
      AllHashedStep(s.rqs, s.hash, Start(s, x).rqs, s.hash, x);
    case Done(x) =>
      SelfKeeps(s.hash, x);
      AllHashedStep(s.rqs, s.hash, Finish(s, x).rqs, s.hash, x);
  }

  // ---- every run ----

  predicate Run(l: Limits, s: State, es: seq<Event>)
    decreases |es|
  {
    es == [] || (Possible(s, es[0]) && Run(l, Step(l, s, es[0]), es[1..]))
  }

  function After(l: Limits, s: State, es: seq<Event>): State
    requires Run(l, s, es)
    decreases |es|
  {
    if es == [] then s else After(l, Step(l, s, es[0]), es[1..])
  }

  function Empty(): State { State(map[], seq(BUCKETS, k => []), None, {}, map[]) }

  lemma EmptyInv(l: Limits)
    ensures Inv(l, Empty()) && WaitOk(Empty()) && AllHashed(Empty().rqs, Empty().hash)
  {
  }

  lemma {:induction false} RunKeepsInv(l: Limits, s: State, es: seq<Event>)
    requires Inv(l, s) && WaitOk(s) && AllHashed(s.rqs, s.hash) && Run(l, s, es)
    ensures Inv(l, After(l, s, es)) && WaitOk(After(l, s, es)) && AllHashed(After(l, s, es).rqs, After(l, s, es).hash)
    decreases |es|
  {
    hide Inv, WaitOk, AllHashed, Step, Possible;
    if es != [] {
      StepKeepsWait(l, s, es[0]);
      StepKeepsInv(l, s, es[0]);
      StepKeepsHashed(l, s, es[0]);
      RunKeepsInv(l, Step(l, s, es[0]), es[1..]);
    }
  }

  /** After any series of submissions, merges, dispatches and completions: a request covers its
      sectors in order without a gap, with bios of its own direction, and merging never took it over
      a limit; and every bio submitted and not ended waits for a request or is in exactly one, once.
      Anything may happen between the lookup for a bio and the insertion of its request. */
  lemma EveryRunCovers(l: Limits, es: seq<Event>)
    requires Run(l, Empty(), es)
    ensures var s := After(l, Empty(), es);
            && (forall x :: x in s.rqs ==> var r := s.rqs[x];
                && Covers(r.bios, r.sector, r.sector + r.nr) && r.hardSector == r.sector && r.hardNr == r.nr
                && (forall i :: 0 <= i < |r.bios| ==> r.bios[i].write == r.write)
                && (|r.bios| > 1 ==> r.nr <= l.maxSectors && r.segs <= l.maxSegs))
            && (forall x, i, y, j ::
                (x in s.rqs && y in s.rqs && 0 <= i < |s.rqs[x].bios| && 0 <= j < |s.rqs[y].bios|
                 && s.rqs[x].bios[i].id == s.rqs[y].bios[j].id) ==> x == y && i == j)
            && (forall id :: id in s.live <==> exists x :: x in s.rqs && id in BioIds(s.rqs[x].bios))
            && (forall id :: id in s.waiting ==> id !in s.live)
  {
    hide Run, After, HashOk;
    EmptyInv(l);
    RunKeepsInv(l, Empty(), es);
    var s := After(l, Empty(), es);
    forall x, i, y, j | x in s.rqs && y in s.rqs && 0 <= i < |s.rqs[x].bios| && 0 <= j < |s.rqs[y].bios|
                        && s.rqs[x].bios[i].id == s.rqs[y].bios[j].id
      ensures x == y && i == j
    {
      assert s.rqs[x].bios[i].id in BioIds(s.rqs[x].bios) && s.rqs[y].bios[j].id in BioIds(s.rqs[y].bios);
      assert RqOk(l, s.rqs[x]);
    }
  }

  /** And the hash lookup answers exactly like a scan of all requests the scheduler holds. */
  lemma EveryRunFinds(l: Limits, es: seq<Event>, sector: nat)
    requires Run(l, Empty(), es)
    ensures var s := After(l, Empty(), es);
            var found := Find(s, sector).1;
            && (found.Some? <==> exists x :: x in s.rqs && s.rqs[x].sorted && Mergeable(s.rqs[x]) && End(s.rqs[x]) == sector)
            && (found.Some? ==> var x := found.value;
                x in s.rqs && s.rqs[x].sorted && Mergeable(s.rqs[x]) && End(s.rqs[x]) == sector)
  {
    hide Run, After, Find, HashOk, RqsOk, OwnedOnce, Hashed, Mergeable, End;
    EmptyInv(l);
    RunKeepsInv(l, Empty(), es);
    FindAgrees(After(l, Empty(), es), sector);
  }
}
