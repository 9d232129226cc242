/** The queue as the merge code sees it: requests, merge hash and last_merge, changed in place.  The
    methods compute the functions of Merging. */
module MergeQueue {
  import opened Options
  import opened IdSeq
  import opened Merging

  class Queue {
    const limits: Limits
    var rqs: Rqs
    var hash: Table
    var last: Option<Id>
    var live: set<nat>
    var waiting: map<nat, Bio>

    ghost function View(): State
      reads this
    {
      State(rqs, hash, last, live, waiting)
    }

    ghost predicate Valid()
      reads this
    {
      Inv(limits, View()) && WaitOk(View())
    }

    constructor (limits: Limits)
      ensures this.limits == limits && View() == Empty() && Valid()
    {
      this.limits := limits;
      rqs, hash, last, live, waiting := map[], seq(BUCKETS, k => []), None, {}, map[];
      new;
      EmptyInv(limits);
    }

    /** elv_rqhash_find: walk the chain, unlinking what cannot be merged any more. */
    method FindHashed(sector: nat) returns (found: Option<Id>)
      requires HashOk(rqs, hash)
      modifies this
      ensures (View(), found) == Find(old(View()), sector)
    {
      hide Mergeable, End, ChainOk, Scan, Bucket;
      var k := Bucket(sector);
      var chain, i, pos := hash[k], 0, 0;
      ghost var kept: seq<Id> := [];
      ScanStart(rqs, chain, sector);
      while i < |chain|
        invariant 0 <= i <= |chain| && pos == |kept| && rqs == old(rqs) && last == old(last) && live == old(live) && waiting == old(waiting)
        invariant hash == old(hash)[k := kept + chain[i..]]
        invariant Scan(rqs, chain, sector) ==
                  Search(kept + Scan(rqs, chain[i..], sector).kept, Scan(rqs, chain[i..], sector).found)
      {
        var x := chain[i];
        ChainKnown(rqs, chain, k, i);
        ScanUnfold(rqs, chain, i, sector);
        Splice(kept, chain, i);
        if !Mergeable(rqs[x]) {
          hash := hash[k := hash[k][..pos] + hash[k][pos + 1..]];
        } else if End(rqs[x]) == sector {
          return Some(x);
        } else {
          SpliceKept(kept, x, Scan(rqs, chain[i + 1..], sector).kept);
          pos, kept := pos + 1, kept + [x];
        }
        i := i + 1;
      }
      ScanEnd(rqs, chain, kept, sector);
      return None;
    }

    /** elv_try_merge */
    method TryMergeWith(x: Id, b: Bio, allow: set<Id>) returns (hit: Hit)
      requires x in rqs
      ensures hit == TryMerge(rqs, x, b, allow)
    {
      hit := Miss;
      if MergeOk(rqs, x, b, allow) {
        if End(rqs[x]) == b.sector {
          hit := BackHit(x);
        } else if rqs[x].sector == b.sector + b.sectors {
          hit := FrontHit(x);
        }
      }
    }

    /** elv_merge */
    method FindMerge(b: Bio, env: Env) returns (hit: Hit)
      requires Valid()
      modifies this
      ensures (View(), hit) == ElvMerge(old(View()), b, env)
    {
      hide Find, RqsOk, OwnedOnce, HashOk, MergeOk, TryMerge, WaitOk;
      if last.Some? {
        hit := TryMergeWith(last.value, b, env.allow);
        if hit != Miss {
          return;
        }
      }
      if env.nomerges {
        return Miss;
      }
      ghost var s := View();
      FindKeeps(s, b.sector);
      var found := FindHashed(b.sector);
      if found.Some? && MergeOk(rqs, found.value, b, env.allow) {
        return BackHit(found.value);
      }
      if env.choice.Some? && MergeOk(rqs, env.choice.value, b, env.allow) {
        return FrontHit(env.choice.value);
      }
      return Miss;
    }

    /** elv_rqhash_reposition */
    method Reposition(x: Id)
      requires x in rqs
      modifies this
      ensures View() == Rehash(old(View()), x)
    {
      hash := HashDel(hash, x);
      hash := HashAdd(hash, x, End(rqs[x]));
    }

    /** attempt_merge of y into x, with ll_merge_requests_fn and elv_merge_requests. */
    method AttemptMerge(x: Id, y: Id, contig: bool) returns (merged: bool)
      requires x in rqs && y in rqs && x != y
      modifies this
      ensures merged == CanJoin(limits, old(rqs), x, y, contig)
      ensures View() == if merged then Joined(old(View()), x, y, contig) else old(View())
    {
      hide HashDel, HashAdd;
      var r, t := rqs[x], rqs[y];
      if !Mergeable(r) || !Mergeable(t) || End(r) != t.sector || r.write != t.write || r.special || t.special {
        return false;
      }
      if r.nr + t.nr > limits.maxSectors {
        return false;
      }
      var total := r.segs + t.segs;
      if contig {
        total := total - 1;
      }
      if total > limits.maxSegs {
        return false;
      }
      rqs := rqs[x := r.(bios := r.bios + t.bios, segs := total, hardNr := r.hardNr + t.hardNr, nr := r.hardNr + t.hardNr)];
      Reposition(x);
      hash := HashDel(hash, y);
      last := Some(x);
      rqs := rqs - {y};
      return true;
    }

    /** The refusal in ll_back_merge_fn, ll_front_merge_fn and ll_new_hw_segment. */
    method Close(x: Id)
      requires x in rqs
      modifies this
      ensures View() == Closed(old(View()), x)
    {
      rqs := rqs[x := rqs[x].(nomerge := true)];
      if last == Some(x) {
        last := None;
      }
    }

    /** init_request_from_bio and elv_insert */
    method AddRequest(b: Bio, x: Id)
      modifies this
      ensures View() == NewRequest(old(View()), b, x)
    {
      var r := Single(b);
      rqs := rqs[x := r];
      live := live + {b.id};
      if Mergeable(r) {
        hash := HashAdd(hash, x, End(r));
        if last.None? {
          last := Some(x);
        }
      }
    }

    /** __make_request under its first hold of the lock: merge the bio into a request. */
    method TryMerging(b: Bio, env: Env) returns (merged: bool)
      requires Valid() && Possible(View(), Submit(b, env))
      modifies this
      ensures (View(), merged) == MergeBio(limits, old(View()), b, env)
    {
      hide Inv, WaitOk, ElvMerge, NewRequest, Closed, Joined, Rehash, CanJoin;
      ghost var s := View();
      if b.barrier {
        return false;
      }
      HitFits(limits, s, b, env);
      var hit := FindMerge(b, env);
      if hit.Miss? {
        return false;
      }
      var x := hit.x;
      if rqs[x].nr + b.sectors > limits.maxSectors || rqs[x].segs + b.segs > limits.maxSegs {
        Close(x);
        return false;
      }
      live := live + {b.id};
      if hit.BackHit? {
        rqs := rqs[x := BackMerged(rqs[x], b)];
        var joined := false;
        if env.near.Some? {
          joined := AttemptMerge(x, env.near.value, env.contig);
        }
        if !joined {
          Reposition(x);
          last := Some(x);
        }
      } else {
        rqs := rqs[x := FrontMerged(rqs[x], b)];
        var joined := false;
        if env.near.Some? {
          joined := AttemptMerge(env.near.value, x, env.contig);
        }
        if !joined {
          last := Some(x);
        }
      }
      return true;
    }

    /** The bio is merged, or its task goes to wait for a request. */
    method SubmitBio(b: Bio, env: Env)
      requires Valid() && Possible(View(), Submit(b, env))
      modifies this
      ensures View() == MakeRequest(limits, old(View()), b, env) && Valid()
    {
      hide Inv, WaitOk, MergeBio;
      SubmitKeeps(limits, View(), b, env);
      StepKeepsWait(limits, View(), Submit(b, env));
      var merged := TryMerging(b, env);
      if !merged {
        waiting := waiting[b.id := b];
      }
    }

    /** Its second hold of the lock: the request of a waiting bio is inserted. */
    method InsertWaiting(id: nat, x: Id)
      requires Valid() && Possible(View(), Insert(id, x))
      modifies this
      ensures View() == Resume(old(View()), id, x) && Valid()
    {
      hide Inv, WaitOk, NewRequest;
      ResumeKeeps(limits, View(), id, x);
      StepKeepsWait(limits, View(), Insert(id, x));
      var b := waiting[id];
      waiting := waiting - {id};
      AddRequest(b, x);
    }

    /** elv_dispatch_sort and elv_dispatch_add_tail, as far as merging goes. */
    method DispatchRequest(x: Id)
      requires Valid() && Possible(View(), Take(x))
      modifies this
      ensures View() == Dispatch(old(View()), x) && Valid()
    {
      hide Inv, WaitOk;
      DispatchKeeps(limits, View(), x);
      StepKeepsWait(limits, View(), Take(x));
      if last == Some(x) {
        last := None;
      }
      hash := HashDel(hash, x);
      rqs := rqs[x := rqs[x].(sorted := false)];
    }
  }

  lemma ChainKnown(rqs: Rqs, chain: seq<Id>, k: nat, i: nat)
    requires ChainOk(rqs, chain, k) && i < |chain|
    ensures chain[i] in rqs
  {
  }

  lemma ScanStart(rqs: Rqs, chain: seq<Id>, sector: nat)
    ensures chain[0..] == chain && [] + chain == chain && [] + Scan(rqs, chain, sector).kept == Scan(rqs, chain, sector).kept
  {
  }

  lemma ScanUnfold(rqs: Rqs, chain: seq<Id>, i: nat, sector: nat)
    requires i < |chain| && chain[i] in rqs
    ensures var x, now, later := chain[i], Scan(rqs, chain[i..], sector), Scan(rqs, chain[i + 1..], sector);
            now == if !Mergeable(rqs[x]) then later
                   else if End(rqs[x]) == sector then Search(chain[i..], Some(x))
                   else Search([x] + later.kept, later.found)
  {
    assert chain[i..][1..] == chain[i + 1..];
  }

  lemma Splice(kept: seq<Id>, chain: seq<Id>, i: nat)
    requires i < |chain|
    ensures (kept + chain[i..])[..|kept|] + (kept + chain[i..])[|kept| + 1..] == kept + chain[i + 1..]
    ensures (kept + [chain[i]]) + chain[i + 1..] == kept + chain[i..]
  {
  }

  lemma SpliceKept(kept: seq<Id>, x: Id, more: seq<Id>)
    ensures kept + ([x] + more) == (kept + [x]) + more
  {
  }

  lemma ScanEnd(rqs: Rqs, chain: seq<Id>, kept: seq<Id>, sector: nat)
    ensures chain[|chain|..] == [] && kept + [] == kept && Scan(rqs, chain[|chain|..], sector) == Search([], None)
  {
  }
}
