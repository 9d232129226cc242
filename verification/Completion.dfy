/** Completing part of a request: the bio chain loses the bytes that are done, finished bios are ended
    once each and in order, and the sector fields follow.  The result does not depend on how the
    bytes are cut into calls. */
module Completion {
  import opened BioVec

  const EIO := 5

  /** A bio with its memory segments; size is bi_size, idx the current segment, bi_idx. */
  datatype Bio = Bio(id: nat, sector: nat, size: nat, vecs: seq<Vec>, idx: nat, uptodate: bool)

  /** A call of bio_endio. */
  datatype End = End(id: nat, error: int)

  /** The hard_ fields say what is left, the other three what the driver has yet to submit. */
  datatype Fields = Fields(hardSector: nat, hardNr: int, sector: nat, nr: int, hardCur: nat, cur: nat)

  datatype Rq = Rq(fs: bool, bios: seq<Bio>, ended: seq<End>, f: Fields)

  function Sum(vs: seq<Vec>): nat { if vs == [] then 0 else vs[0].len + Sum(vs[1..]) }

  /** Bytes left in a chain. */
  function Left(bios: seq<Bio>): nat { if bios == [] then 0 else bios[0].size + Left(bios[1..]) }

  /** The segments still to do. */
  function Segments(b: Bio): seq<Vec> { if b.idx <= |b.vecs| then b.vecs[b.idx..] else [] }

  /** What the source assumes of a bio: it is not empty and its remaining segments add up to its size. */
  predicate BioOk(b: Bio) { b.size > 0 && b.idx <= |b.vecs| && Sum(Segments(b)) == b.size }

  predicate Ok(bios: seq<Bio>) { forall i :: 0 <= i < |bios| ==> BioOk(bios[i]) }

  // ---- the operation ----

  /** The segment reached n bytes into the segments from i on, and the offset in it.  A boundary
      belongs to the segment behind it. */
  function Walk(vecs: seq<Vec>, i: nat, n: nat): (nat, nat)
    decreases |vecs| - i
  {
    if n == 0 || i >= |vecs| || vecs[i].len > n then (i, n) else Walk(vecs, i + 1, n - vecs[i].len)
  }

  /** The segments with the first m bytes of segment j gone. */
  function Cut(vecs: seq<Vec>, j: nat, m: nat): seq<Vec> {
    if j < |vecs| && m <= vecs[j].len then vecs[j := Vec(vecs[j].page, vecs[j].offset + m, vecs[j].len - m)] else vecs
  }

  /** A bio with its first n bytes done, 0 < n < size. */
  function Advanced(b: Bio, n: nat, error: int): Bio {
    var w := Walk(b.vecs, b.idx, n);
    b.(sector := b.sector + n / 512, size := if n <= b.size then b.size - n else 0, idx := w.0, vecs := Cut(b.vecs, w.0, w.1),
       uptodate := b.uptodate && error == 0)
  }

  /** The status bio_endio gets. */
  function Status(b: Bio, error: int): int { if error == 0 && !b.uptodate then -EIO else error }

  /** The chain with n bytes done. */
  function Rest(bios: seq<Bio>, n: nat, error: int): seq<Bio> {
    if bios == [] || n == 0 then bios
    else if n >= bios[0].size then Rest(bios[1..], n - bios[0].size, error)
    else [Advanced(bios[0], n, error)] + bios[1..]
  }

  /** The bios that n bytes finish. */
  function Finished(bios: seq<Bio>, n: nat, error: int): seq<End> {
    if bios == [] || n < bios[0].size then []
    else [End(bios[0].id, Status(bios[0], error))] + Finished(bios[1..], n - bios[0].size, error)
  }

  /** bio_cur_sectors */
  function CurSectors(b: Bio): nat {
    if Segments(b) != [] then Segments(b)[0].len / 512 else b.size / 512
  }

  /** blk_recalc_rq_sectors */
  function Recalc(f: Fields, nsect: nat, bio: Bio): Fields {
    var g := f.(hardSector := f.hardSector + nsect, hardNr := f.hardNr - nsect);
    var h := if g.nr >= g.hardNr && g.sector <= g.hardSector
             then g.(sector := g.hardSector, nr := g.hardNr, hardCur := CurSectors(bio), cur := CurSectors(bio)) else g;
    if h.nr < h.cur then h.(nr := h.cur) else h
  }

  /** __end_that_request_first: the sector fields are left alone when nothing remains. */
  function Complete(rq: Rq, n: nat, error: int): Rq {
    var bios := Rest(rq.bios, n, error);
    rq.(bios := bios, ended := rq.ended + Finished(rq.bios, n, error),
        f := if bios != [] && rq.fs then Recalc(rq.f, n / 512, bios[0]) else rq.f)
  }

  // ---- one bio ----

  /** The segments without their first n bytes, and how many of them are gone. */
  function Drop(vs: seq<Vec>, n: nat): seq<Vec> {
    if n == 0 || vs == [] then vs
    else if vs[0].len > n then [Vec(vs[0].page, vs[0].offset + n, vs[0].len - n)] + vs[1..]
    else Drop(vs[1..], n - vs[0].len)
  }

  function Skipped(vs: seq<Vec>, n: nat): nat {
    if n == 0 || vs == [] || vs[0].len > n then 0 else 1 + Skipped(vs[1..], n - vs[0].len)
  }

  lemma {:induction false} WalkDrops(vecs: seq<Vec>, i: nat, n: nat)
    requires i <= |vecs| && n < Sum(vecs[i..])
    ensures var w := Walk(vecs, i, n);
            && w.0 < |vecs| && w.1 <= vecs[w.0].len && |Cut(vecs, w.0, w.1)| == |vecs|
            && w.0 == i + Skipped(vecs[i..], n) && Cut(vecs, w.0, w.1)[w.0..] == Drop(vecs[i..], n)
    decreases |vecs| - i
  {
    assert i < |vecs|;
    assert vecs[i..][1..] == vecs[i + 1..];
    if n != 0 && vecs[i].len <= n {
      WalkDrops(vecs, i + 1, n - vecs[i].len);
    }
  }

  /** Byte k of the segments, as an address in memory. */
  function Bytes(vs: seq<Vec>): (r: seq<(nat, nat)>)
    ensures |r| == Sum(vs)
  {
    if vs == [] then [] else VecBytes(vs[0]) + Bytes(vs[1..])
  }

  function VecBytes(v: Vec): seq<(nat, nat)> { seq(v.len, k requires 0 <= k < v.len => (v.page, v.offset + k)) }

  lemma {:induction false} DropBytes(vs: seq<Vec>, n: nat)
    requires n <= Sum(vs)
    ensures Bytes(Drop(vs, n)) == Bytes(vs)[n..]
  {
    if n != 0 && vs != [] {
      if vs[0].len > n {
        var v := Vec(vs[0].page, vs[0].offset + n, vs[0].len - n);
        assert VecBytes(v) == VecBytes(vs[0])[n..];
        assert ([v] + vs[1..])[1..] == vs[1..];
      } else {
        DropBytes(vs[1..], n - vs[0].len);
        assert Bytes(vs)[n..] == Bytes(vs[1..])[n - vs[0].len..];
      }
    }
  }

  lemma {:induction false} DropTwice(vs: seq<Vec>, n1: nat, n2: nat)
    requires n1 + n2 <= Sum(vs)
    ensures Drop(Drop(vs, n1), n2) == Drop(vs, n1 + n2)
    ensures Skipped(vs, n1) + Skipped(Drop(vs, n1), n2) == Skipped(vs, n1 + n2)
  {
    if n1 != 0 && n2 != 0 {
      if vs[0].len > n1 {
        assert Drop(vs, n1)[1..] == vs[1..];
      } else {
        DropTwice(vs[1..], n1 - vs[0].len, n2);
      }
    }
  }

  /** One bio: the bytes left are the old ones without the first n. */
  lemma AdvancedFacts(b: Bio, n: nat, error: int)
    requires BioOk(b) && n < b.size
    ensures var b' := Advanced(b, n, error);
            && BioOk(b') && b'.size == b.size - n && Segments(b') == Drop(Segments(b), n)
            && b'.idx == b.idx + Skipped(Segments(b), n) && Bytes(Segments(b')) == Bytes(Segments(b))[n..]
            && |b'.vecs| == |b.vecs|
  {
    WalkDrops(b.vecs, b.idx, n);
    DropBytes(Segments(b), n);
  }

  // ---- the chain ----

  function ChainBytes(bios: seq<Bio>): seq<(nat, nat)> {
    if bios == [] then [] else Bytes(Segments(bios[0])) + ChainBytes(bios[1..])
  }

  function Min(a: nat, b: nat): nat { if a <= b then a else b }

  lemma {:induction false} ChainSize(bios: seq<Bio>)
    requires Ok(bios)
    ensures |ChainBytes(bios)| == Left(bios)
  {
    if bios != [] {
      assert BioOk(bios[0]);
      ChainSize(bios[1..]);
    }
  }

  /** Exactly min(n, what is left) bytes are done.  The chain stays sound, and it is empty iff nothing
      is left. */
  lemma {:induction false} RestLeft(bios: seq<Bio>, n: nat, error: int)
    requires Ok(bios)
    ensures var r := Rest(bios, n, error);
            && Ok(r) && (r == [] <==> n >= Left(bios)) && Left(r) == Left(bios) - Min(n, Left(bios))
  {
    hide BioOk, Advanced;
    if bios != [] {
      var b := bios[0];
      BioFacts(b);
      if n >= b.size {
        RestLeft(bios[1..], n - b.size, error);
      } else if n != 0 {
        AdvancedFacts(b, n, error);
        assert Rest(bios, n, error)[1..] == bios[1..];
      }
    }
  }

  lemma BioFacts(b: Bio)
    requires BioOk(b)
    ensures b.size > 0 && Sum(Segments(b)) == b.size
  {
  }

  /** The bytes done are the ones at the front: what remains is the rest, in place and in order. */
  lemma {:induction false} RestBytes(bios: seq<Bio>, n: nat, error: int)
    requires Ok(bios)
    ensures ChainBytes(Rest(bios, n, error)) == ChainBytes(bios)[Min(n, |ChainBytes(bios)|)..]
  {
    hide BioOk, Advanced, Segments, Bytes, Rest, Finished;
    if bios == [] || n == 0 {
      RestOfNone(bios, n, error);
    } else {
      var b, tail := bios[0], ChainBytes(bios[1..]);
      BioFacts(b);
      if n >= b.size {
        HeadGone(bios, n, error);
        RestBytes(bios[1..], n - b.size, error);
        SliceOfSum(Bytes(Segments(b)), tail, b.size + Min(n - b.size, |tail|));
      } else {
        AdvancedFacts(b, n, error);
        HeadCut(bios, n, error);
        SliceOfSum(Bytes(Segments(b)), tail, n);
      }
    }
  }

  lemma RestOfNone(bios: seq<Bio>, n: nat, error: int)
    requires bios == [] || n == 0
    ensures Rest(bios, n, error) == bios
  {
  }

  lemma HeadCut(bios: seq<Bio>, n: nat, error: int)
    requires bios != [] && 0 < n < bios[0].size
    ensures Rest(bios, n, error) == [Advanced(bios[0], n, error)] + bios[1..]
    ensures ChainBytes(Rest(bios, n, error)) == Bytes(Segments(Advanced(bios[0], n, error))) + ChainBytes(bios[1..])
  {
    hide Advanced, Segments, Bytes;
    assert Rest(bios, n, error)[1..] == bios[1..];
  }

  lemma SliceOfSum<T>(a: seq<T>, b: seq<T>, k: nat)
    requires k <= |a| + |b|
    ensures (a + b)[k..] == if k <= |a| then a[k..] + b else b[k - |a|..]
    ensures k == |a| ==> (a + b)[k..] == b
  {
  }

  /** The bios ended are the first ones, each once and in chain order. */
  lemma {:induction false} FinishedArePrefix(bios: seq<Bio>, n: nat, error: int)
    ensures var e := Finished(bios, n, error);
            && |e| <= |bios| && (forall i :: 0 <= i < |e| ==> e[i] == End(bios[i].id, Status(bios[i], error)))
  {
    hide Status;
    if bios != [] && n >= bios[0].size {
      FinishedArePrefix(bios[1..], n - bios[0].size, error);
    }
  }

  /** They are as many as have all their bytes among the first n; the others remain. */
  lemma {:induction false} FinishedCount(bios: seq<Bio>, n: nat, error: int)
    requires Ok(bios)
    ensures var k := |Finished(bios, n, error)|;
            k <= |bios| && Left(bios[..k]) <= n && (k < |bios| ==> n < Left(bios[..k + 1])) && |Rest(bios, n, error)| == |bios| - k
  {
    hide BioOk, Advanced, Status;
    if bios != [] {
      BioFacts(bios[0]);
      if n >= bios[0].size {
        var k := |Finished(bios[1..], n - bios[0].size, error)|;
        FinishedCount(bios[1..], n - bios[0].size, error);
        assert bios[..k + 1][1..] == bios[1..][..k];
        assert k + 1 < |bios| ==> bios[..k + 2][1..] == bios[1..][..k + 1];
      } else {
        assert bios[..1][1..] == [];
      }
    }
  }

  // ---- cutting the bytes into calls ----

  /** The same bio, as far as anything still to do goes. */
  predicate Alike(b: Bio, c: Bio) {
    && b.id == c.id && b.size == c.size && b.idx == c.idx && b.uptodate == c.uptodate && |b.vecs| == |c.vecs|
    && Segments(b) == Segments(c)
  }

  predicate AllAlike(bs: seq<Bio>, cs: seq<Bio>) { |bs| == |cs| && forall i :: 0 <= i < |bs| ==> Alike(bs[i], cs[i]) }

  predicate SameSectors(bs: seq<Bio>, cs: seq<Bio>) {
    |bs| == |cs| && forall i :: 0 <= i < |bs| ==> bs[i].sector == cs[i].sector
  }

  lemma AdvanceTwice(b: Bio, n1: nat, n2: nat, error: int)
    requires BioOk(b) && n1 + n2 < b.size
    ensures Alike(Advanced(Advanced(b, n1, error), n2, error), Advanced(b, n1 + n2, error))
    ensures n2 % 512 == 0 ==> Advanced(Advanced(b, n1, error), n2, error).sector == Advanced(b, n1 + n2, error).sector
  {
    hide Walk, Cut, Segments;
    AdvancedFacts(b, n1, error);
    AdvancedFacts(Advanced(b, n1, error), n2, error);
    AdvancedFacts(b, n1 + n2, error);
    BioFacts(b);
    DropTwice(Segments(b), n1, n2);
  }

  /** Where two calls meet one call: inside the first bio, behind it, or on its end. */
  lemma RestMeets(b: Bio, tail: seq<Bio>, n1: nat, n2: nat, error: int)
    requires BioOk(b) && 0 < n1 < b.size && 0 < n2
    ensures var x := Rest(Rest([b] + tail, n1, error), n2, error);
            if n1 + n2 < b.size then x == [Advanced(Advanced(b, n1, error), n2, error)] + tail
            else x == Rest(tail, n1 + n2 - b.size, error)
    ensures var y := Rest([b] + tail, n1 + n2, error);
            if n1 + n2 < b.size then y == [Advanced(b, n1 + n2, error)] + tail
            else y == Rest(tail, n1 + n2 - b.size, error)
  {
    hide Advanced, BioOk;
    AdvancedFacts(b, n1, error);
    var a := Advanced(b, n1, error);
    assert ([b] + tail)[1..] == tail && ([a] + tail)[1..] == tail;
  }

  lemma HeadGone(bios: seq<Bio>, n: nat, error: int)
    requires Ok(bios) && bios != [] && n >= bios[0].size
    ensures Rest(bios, n, error) == Rest(bios[1..], n - bios[0].size, error) && Ok(bios[1..])
    ensures Finished(bios, n, error) == [End(bios[0].id, Status(bios[0], error))] + Finished(bios[1..], n - bios[0].size, error)
  {
    hide Status;
    assert BioOk(bios[0]);
  }

  lemma RestNone(bios: seq<Bio>, n1: nat, n2: nat, error: int)
    requires bios == [] || n1 == 0 || n2 == 0
    ensures Rest(Rest(bios, n1, error), n2, error) == Rest(bios, n1 + n2, error)
  {
    hide Advanced;
  }

  lemma {:induction false} RestTwice(bios: seq<Bio>, n1: nat, n2: nat, error: int)
    requires Ok(bios)
    ensures AllAlike(Rest(Rest(bios, n1, error), n2, error), Rest(bios, n1 + n2, error))
  {
    hide Rest, BioOk, Advanced, Alike, Finished;
    AlikeItself();
    if bios == [] || n1 == 0 || n2 == 0 {
      RestNone(bios, n1, n2, error);
    } else {
      var b := bios[0];
      BioFacts(b);
      assert bios == [b] + bios[1..];
      if n1 >= b.size {
        HeadGone(bios, n1, error);
        HeadGone(bios, n1 + n2, error);
        RestTwice(bios[1..], n1 - b.size, n2, error);
      } else {
        RestMeets(b, bios[1..], n1, n2, error);
        if n1 + n2 < b.size {
          AdvanceTwice(b, n1, n2, error);
        }
      }
    }
  }

  lemma AlikeItself()
    ensures forall b: Bio :: Alike(b, b)
  {
  }

  /** The sectors agree as well when the second call is for whole sectors, whatever the bios' sizes. */
  lemma {:induction false} SectorsTwice(bios: seq<Bio>, n1: nat, n2: nat, error: int)
    requires Ok(bios) && n2 % 512 == 0
    ensures SameSectors(Rest(Rest(bios, n1, error), n2, error), Rest(bios, n1 + n2, error))
  {
    hide Rest, BioOk, Advanced, Finished;
    if bios == [] || n1 == 0 || n2 == 0 {
      RestNone(bios, n1, n2, error);
    } else {
      var b := bios[0];
      BioFacts(b);
      assert bios == [b] + bios[1..];
      if n1 >= b.size {
        HeadGone(bios, n1, error);
        HeadGone(bios, n1 + n2, error);
        SectorsTwice(bios[1..], n1 - b.size, n2, error);
      } else {
        RestMeets(b, bios[1..], n1, n2, error);
        if n1 + n2 < b.size {
          AdvanceTwice(b, n1, n2, error);
        }
      }
    }
  }

  lemma AdvancedStatus(b: Bio, n: nat, error: int)
    ensures Advanced(b, n, error).id == b.id && Status(Advanced(b, n, error), error) == Status(b, error)
  {
  }

  lemma {:induction false} FinishedTwice(bios: seq<Bio>, n1: nat, n2: nat, error: int)
    requires Ok(bios)
    ensures Finished(bios, n1, error) + Finished(Rest(bios, n1, error), n2, error) == Finished(bios, n1 + n2, error)
  {
    hide BioOk, Advanced, Status, Rest;
    if bios == [] || n1 == 0 {
      FinishedOfNone(bios, error);
      RestOfNone(bios, n1, error);
    } else {
      var b := bios[0];
      BioFacts(b);
      if n1 >= b.size {
        HeadGone(bios, n1, error);
        FinishedTwice(bios[1..], n1 - b.size, n2, error);
      } else {
        AdvancedFacts(b, n1, error);
        AdvancedStatus(b, n1, error);
        HeadCut(bios, n1, error);
      }
    }
  }

  lemma FinishedOfNone(bios: seq<Bio>, error: int)
    requires Ok(bios)
    ensures Finished(bios, 0, error) == []
  {
    assert bios != [] ==> BioOk(bios[0]);
  }

  // ---- the sector fields ----

  /** hard_nr_sectors covers what is left, and the current segment lies within what is to be submitted. */
  predicate FieldsOk(rq: Rq) { rq.fs ==> rq.f.hardNr * 512 >= Left(rq.bios) && rq.f.nr >= rq.f.cur }

  lemma CurFits(bios: seq<Bio>)
    requires Ok(bios) && bios != []
    ensures CurSectors(bios[0]) * 512 <= Left(bios)
  {
    var b := bios[0];
    assert BioOk(b);
    assert Segments(b) != [] ==> Segments(b)[0].len <= Sum(Segments(b));
  }

  /** The "request botched" repair is never needed. */
  lemma FieldsKept(rq: Rq, n: nat, error: int)
    requires Ok(rq.bios) && FieldsOk(rq)
    ensures FieldsOk(Complete(rq, n, error)) && Ok(Complete(rq, n, error).bios)
    ensures var rq' := Complete(rq, n, error);
            rq'.bios != [] && rq.fs ==>
              && rq'.f.hardSector == rq.f.hardSector + n / 512 && rq'.f.hardNr == rq.f.hardNr - n / 512
              && (rq.f.nr >= rq'.f.hardNr && rq.f.sector <= rq'.f.hardSector
                  ==> rq'.f.nr == rq'.f.hardNr && rq'.f.sector == rq'.f.hardSector && rq'.f.cur == CurSectors(rq'.bios[0]))
              && (!(rq.f.nr >= rq'.f.hardNr && rq.f.sector <= rq'.f.hardSector)
                  ==> rq'.f.nr == rq.f.nr && rq'.f.sector == rq.f.sector && rq'.f.cur == rq.f.cur)
  {
    hide Ok, CurSectors;
    RestLeft(rq.bios, n, error);
    var bios := Rest(rq.bios, n, error);
    if bios != [] {
      CurFits(bios);
    }
  }

  lemma FieldsTwice(rq: Rq, n1: nat, n2: nat, error: int)
    requires Ok(rq.bios) && FieldsOk(rq) && n1 % 512 == 0 && n1 + n2 < Left(rq.bios)
    ensures Complete(Complete(rq, n1, error), n2, error).f == Complete(rq, n1 + n2, error).f
  {
    hide Ok, CurSectors, Rest, Left;
    RestLeft(rq.bios, n1, error);
    RestLeft(Rest(rq.bios, n1, error), n2, error);
    RestLeft(rq.bios, n1 + n2, error);
    RestTwice(rq.bios, n1, n2, error);
    var b, c := Rest(Rest(rq.bios, n1, error), n2, error)[0], Rest(rq.bios, n1 + n2, error)[0];
    assert CurSectors(b) == CurSectors(c) by { SameCur(b, c); }
    var r1 := Rest(rq.bios, n1, error);
    CurFits(r1);
    CurFits(Rest(rq.bios, n1 + n2, error));
  }

  lemma SameCur(b: Bio, c: Bio)
    requires Alike(b, c)
    ensures CurSectors(b) == CurSectors(c)
  {
  }

  /** Two calls and one call leave the same hard sector fields unless the first call does some but not
      all of the request and the second finishes it: then only the two calls have moved them on. */
  lemma FieldsAgreeIff(rq: Rq, n1: nat, n2: nat, error: int)
    requires rq.fs && Ok(rq.bios) && FieldsOk(rq) && n1 % 512 == 0
    ensures var f, g := Complete(Complete(rq, n1, error), n2, error).f, Complete(rq, n1 + n2, error).f;
            f.hardSector == g.hardSector && f.hardNr == g.hardNr
            <==> n1 == 0 || n1 >= Left(rq.bios) || n1 + n2 < Left(rq.bios)
  {
    hide Ok, Left, Recalc, FieldsOk;
    RestLeft(rq.bios, n1, error);
    RestLeft(Rest(rq.bios, n1, error), n2, error);
    RestLeft(rq.bios, n1 + n2, error);
    if n1 + n2 < Left(rq.bios) {
      FieldsTwice(rq, n1, n2, error);
    } else if n1 < Left(rq.bios) {
      FieldsKept(rq, n1, error);
    }
  }

  function Total(ns: seq<nat>): nat { if ns == [] then 0 else ns[0] + Total(ns[1..]) }

  function CompleteAll(rq: Rq, ns: seq<nat>, error: int): Rq
    decreases |ns|
  {
    if ns == [] then rq else CompleteAll(Complete(rq, ns[0], error), ns[1..], error)
  }

  /** Whatever the calls, the same bios are ended with the same status in the same order, once each,
      and the same bytes remain in the same place. */
  lemma {:induction false} ChunksDoNotMatter(rq: Rq, ns: seq<nat>, error: int)
    requires Ok(rq.bios)
    ensures CompleteAll(rq, ns, error).ended == Complete(rq, Total(ns), error).ended
    ensures AllAlike(CompleteAll(rq, ns, error).bios, Complete(rq, Total(ns), error).bios)
    decreases |ns|
  {
    hide Rest, Finished, Ok, Alike, Recalc;
    if ns == [] {
      NothingDone(rq, error);
    } else {
      var rq1 := Complete(rq, ns[0], error);
      RestLeft(rq.bios, ns[0], error);
      ChunksDoNotMatter(rq1, ns[1..], error);
      RestTwice(rq.bios, ns[0], Total(ns[1..]), error);
      FinishedTwice(rq.bios, ns[0], Total(ns[1..]), error);
      AlikeTransitive(CompleteAll(rq1, ns[1..], error).bios, Complete(rq1, Total(ns[1..]), error).bios,
                      Complete(rq, Total(ns), error).bios);
    }
  }

  /** Calls for whole sectors. */
  predicate WholeSectors(ns: seq<nat>) { forall i :: 0 <= i < |ns| ==> ns[i] % 512 == 0 }

  lemma {:induction false} TotalWhole(ns: seq<nat>)
    requires WholeSectors(ns)
    ensures Total(ns) % 512 == 0
  {
    if ns != [] {
      TotalWhole(ns[1..]);
    }
  }

  /** When the calls are for whole sectors the remaining bios also start at the same sectors. */
  lemma {:induction false} ChunksKeepSectors(rq: Rq, ns: seq<nat>, error: int)
    requires Ok(rq.bios) && WholeSectors(ns)
    ensures SameSectors(CompleteAll(rq, ns, error).bios, Complete(rq, Total(ns), error).bios)
    decreases |ns|
  {
    hide Rest, Finished, Ok, Recalc;
    if ns == [] {
      NothingDone(rq, error);
    } else {
      RestLeft(rq.bios, ns[0], error);
      ChunksKeepSectors(Complete(rq, ns[0], error), ns[1..], error);
      TotalWhole(ns[1..]);
      SectorsTwice(rq.bios, ns[0], Total(ns[1..]), error);
    }
  }

  /** And so do all the sector fields of the request, while something is left. */
  lemma {:induction false} ChunksKeepFields(rq: Rq, ns: seq<nat>, error: int)
    requires Ok(rq.bios) && FieldsOk(rq) && WholeSectors(ns) && ns != [] && Total(ns) < Left(rq.bios)
    ensures CompleteAll(rq, ns, error).f == Complete(rq, Total(ns), error).f
    decreases |ns|
  {
    hide Rest, Finished, Ok, Recalc, FieldsOk, Left;
    if |ns| == 1 {
      assert ns[1..] == [];
    } else {
      var rq1 := Complete(rq, ns[0], error);
      RestLeft(rq.bios, ns[0], error);
      FieldsKept(rq, ns[0], error);
      ChunksKeepFields(rq1, ns[1..], error);
      FieldsTwice(rq, ns[0], Total(ns[1..]), error);
    }
  }

  lemma NothingDone(rq: Rq, error: int)
    requires Ok(rq.bios)
    ensures Complete(rq, 0, error).bios == rq.bios && Complete(rq, 0, error).ended == rq.ended && AllAlike(rq.bios, rq.bios)
  {
    assert rq.bios != [] ==> BioOk(rq.bios[0]);
  }

  lemma AlikeTransitive(a: seq<Bio>, b: seq<Bio>, c: seq<Bio>)
    requires AllAlike(a, b) && AllAlike(b, c)
    ensures AllAlike(a, c)
  {
    forall i | 0 <= i < |a|
      ensures Alike(a[i], c[i])
    {
      assert Alike(a[i], b[i]) && Alike(b[i], c[i]);
    }
  }

  // ---- the loop ----

  /** The loop of __end_that_request_first on its way: of the n bytes, `left` are still to be taken
      from the current chain, and `done` bytes in `next` segments of its first bio are. */
  predicate Going(all: seq<Bio>, before: seq<End>, n: nat, error: int, bios: seq<Bio>, ended: seq<End>,
                  left: nat, done: nat, next: nat) {
    && Ok(bios) && Rest(all, n, error) == Rest(bios, done + left, error)
    && ended + Finished(bios, done + left, error) == before + Finished(all, n, error)
    && (next == 0 ==> done == 0)
    && (next > 0 ==> bios != [] && done + left < bios[0].size)
    && (bios != [] ==> Within(bios[0], left, done, next))
  }

  predicate Within(b: Bio, left: nat, done: nat, next: nat) {
    && b.idx + next <= |b.vecs| && done + Sum(b.vecs[b.idx + next..]) == b.size
    && (done + left > 0 ==> Walk(b.vecs, b.idx, done + left) == Walk(b.vecs, b.idx + next, left))
  }

  /** Where it stops when something is left: `done` bytes of the first bio are done, the last `part`
      of them in segment `next`. */
  predicate Stopped(all: seq<Bio>, before: seq<End>, n: nat, error: int, bios: seq<Bio>, ended: seq<End>,
                    part: nat, done: nat, next: nat) {
    && bios != [] && BioOk(bios[0]) && done < bios[0].size && Rest(all, n, error) == Rest(bios, done, error)
    && ended == before + Finished(all, n, error)
    && (done > 0 ==> Walk(bios[0].vecs, bios[0].idx, done) == (bios[0].idx + next, part))
  }

  lemma GoingStart(bios: seq<Bio>, before: seq<End>, n: nat, error: int)
    requires Ok(bios)
    ensures Going(bios, before, n, error, bios, before, n, 0, 0)
  {
    assert bios != [] ==> BioOk(bios[0]);
  }

  lemma GoingBio(all: seq<Bio>, before: seq<End>, n: nat, error: int, bios: seq<Bio>, ended: seq<End>, left: nat, done: nat, next: nat)
    requires Going(all, before, n, error, bios, ended, left, done, next) && bios != [] && left >= bios[0].size
    ensures Going(all, before, n, error, bios[1..], ended + [End(bios[0].id, Status(bios[0], error))], left - bios[0].size, 0, 0)
  {
    hide Status, Rest, Finished, Within, Ok;
    var m, e := left - bios[0].size, End(bios[0].id, Status(bios[0], error));
    HeadGone(bios, left, error);
    GoingStart(bios[1..], before, m, error);
    assert ended + ([e] + Finished(bios[1..], m, error)) == (ended + [e]) + Finished(bios[1..], m, error);
  }

  lemma SumEnds(vecs: seq<Vec>, i: nat)
    requires i <= |vecs| && Sum(vecs[i..]) > 0
    ensures i < |vecs|
  {
  }

  lemma WithinStep(b: Bio, left: nat, done: nat, next: nat)
    requires Within(b, left, done, next) && done + left < b.size
    ensures b.idx + next < |b.vecs| && done + b.vecs[b.idx + next].len <= b.size
    ensures b.vecs[b.idx + next].len <= left && (next == 0 || left > 0) && (next == 0 ==> done == 0) ==>
      Within(b, left - b.vecs[b.idx + next].len, done + b.vecs[b.idx + next].len, next + 1)
  {
    var i := b.idx + next;
    SumEnds(b.vecs, i);
    assert b.vecs[i..][1..] == b.vecs[i + 1..];
  }

  /** In particular the check for a segment behind the last one never fires. */
  lemma GoingVec(all: seq<Bio>, before: seq<End>, n: nat, error: int, bios: seq<Bio>, ended: seq<End>, left: nat, done: nat, next: nat)
    requires Going(all, before, n, error, bios, ended, left, done, next) && bios != [] && left < bios[0].size
    ensures bios[0].idx + next < |bios[0].vecs|
    ensures var bytes := bios[0].vecs[bios[0].idx + next].len;
            bytes <= left && (next == 0 || left > 0) ==> Going(all, before, n, error, bios, ended, left - bytes, done + bytes, next + 1)
  {
    hide Rest, Finished, BioOk;
    WithinStep(bios[0], left, done, next);
  }

  /** It stops inside a segment. */
  lemma StopsInside(all: seq<Bio>, before: seq<End>, n: nat, error: int, bios: seq<Bio>, ended: seq<End>, left: nat, done: nat, next: nat)
    requires Going(all, before, n, error, bios, ended, left, done, next) && bios != [] && left < bios[0].size
    requires bios[0].idx + next < |bios[0].vecs| && left < bios[0].vecs[bios[0].idx + next].len && (next == 0 || left > 0)
    ensures Stopped(all, before, n, error, bios, ended, left, done + left, next)
  {
    assert BioOk(bios[0]);
    assert Finished(bios, done + left, error) == [];
  }

  /** It stops between two segments or two bios. */
  lemma StopsBetween(all: seq<Bio>, before: seq<End>, n: nat, error: int, bios: seq<Bio>, ended: seq<End>, done: nat, next: nat)
    requires Going(all, before, n, error, bios, ended, 0, done, next) && bios != []
    ensures Stopped(all, before, n, error, bios, ended, 0, done, next)
  {
    assert BioOk(bios[0]);
    assert Finished(bios, done, error) == [];
  }

  class Request {
    const fs: bool
    var bios: seq<Bio>
    var ended: seq<End>
    var f: Fields

    ghost function View(): Rq
      reads this
    {
      Rq(fs, bios, ended, f)
    }

    constructor (fs: bool, bios: seq<Bio>, f: Fields)
      ensures View() == Rq(fs, bios, [], f)
    {
      this.fs, this.bios, ended, this.f := fs, bios, [], f;
    }

    /** req_bio_endio on the first bio of the chain, for all of it. */
    method EndBio(error: int)
      requires bios != []
      modifies this
      ensures bios == old(bios)[1..] && f == old(f) && ended == old(ended) + [End(old(bios)[0].id, Status(old(bios)[0], error))]
    {
      var b := bios[0];
      bios := bios[1..];
      var status := error;
      if error == 0 && !b.uptodate {
        status := -EIO;
      }
      ended := ended + [End(b.id, status)];
    }

    /** The loop: bios are ended while they are done entirely, then segments are counted. */
    method Consume(error: int, n: nat) returns (total: nat, part: nat, done: nat, next: nat)
      requires Ok(bios)
      modifies this
      ensures f == old(f)
      ensures bios == [] ==> n >= Left(old(bios)) && ended == old(ended) + Finished(old(bios), n, error)
      ensures bios != [] ==> total == n && Stopped(old(bios), old(ended), n, error, bios, ended, part, done, next)
    {
      hide Finished, Rest, Walk, BioOk, Ok, Within, Stopped;
      ghost var all, before := bios, ended;
      GoingStart(all, before, n, error);
      total, part, done, next := 0, n, 0, 0;
      while bios != []
        invariant f == old(f) && total + part == n && (next == 0 || part > 0)
        invariant Going(all, before, n, error, bios, ended, part, done, next)
        decreases |bios|, if bios == [] then 0 else |bios[0].vecs| - bios[0].idx - next
      {
        var b := bios[0];
        if part >= b.size {
          GoingBio(all, before, n, error, bios, ended, part, done, next);
          EndBio(error);
          next, done := 0, 0;
          total, part := total + b.size, part - b.size;
        } else {
          GoingVec(all, before, n, error, bios, ended, part, done, next);
          var bytes := b.vecs[b.idx + next].len;
          if bytes > part {
            StopsInside(all, before, n, error, bios, ended, part, done, next);
            done, total := done + part, total + part;
            return;
          }
          next, done := next + 1, done + bytes;
          total, part := total + bytes, part - bytes;
        }
        if bios != [] && part == 0 {
          StopsBetween(all, before, n, error, bios, ended, done, next);
          return;
        }
      }
      AllDone(all, before, n, error, ended, part, done);
    }

    /** __end_that_request_first; the result says whether something is still pending. */
    method EndFirst(error: int, n: nat) returns (pending: bool)
      requires Ok(bios)
      modifies this
      ensures View() == Complete(old(View()), n, error) && Ok(bios)
      ensures pending <==> n < Left(old(bios))
    {
      hide Finished, Walk, Recalc, Left, BioOk;
      RestLeft(bios, n, error);
      ghost var all, before := bios, ended;
      var total, part, done, next := Consume(error, n);
      if bios == [] {
        return false;
      }
      if done != 0 {
        StoppedAt(all, before, n, error, bios, ended, part, done, next);
        var b := bios[0];
        var i := b.idx + next;
        var v := b.vecs[i];
        bios := [b.(sector := b.sector + done / 512, size := b.size - done, idx := i, uptodate := b.uptodate && error == 0,
                    vecs := b.vecs[i := Vec(v.page, v.offset + part, v.len - part)])] + bios[1..];
      }
      if fs {
        f := Recalc(f, total / 512, bios[0]);
      }
      return true;
    }
  }

  lemma AllDone(all: seq<Bio>, before: seq<End>, n: nat, error: int, ended: seq<End>, left: nat, done: nat)
    requires Ok(all) && Going(all, before, n, error, [], ended, left, done, 0)
    ensures n >= Left(all) && ended == before + Finished(all, n, error)
  {
    RestLeft(all, n, error);
  }

  lemma StoppedAt(all: seq<Bio>, before: seq<End>, n: nat, error: int, bios: seq<Bio>, ended: seq<End>, part: nat, done: nat, next: nat)
    requires Stopped(all, before, n, error, bios, ended, part, done, next) && done > 0
    ensures var b := bios[0];
            var i := b.idx + next;
            && i < |b.vecs| && part <= b.vecs[i].len
            && Advanced(b, done, error) == b.(sector := b.sector + done / 512, size := b.size - done, idx := i,
                                              uptodate := b.uptodate && error == 0,
                                              vecs := b.vecs[i := Vec(b.vecs[i].page, b.vecs[i].offset + part, b.vecs[i].len - part)])
            && Rest(all, n, error) == [Advanced(b, done, error)] + bios[1..]
  {
    hide Sum;
    WalkDrops(bios[0].vecs, bios[0].idx, done);
  }
}
