/** Sequences of distinct request or queue ids: the lists and in-order trees of the schedulers. */
module IdSeq {

  import opened Options

  type Id = nat

  predicate Distinct(q: seq<Id>) { forall i, j :: 0 <= i < j < |q| ==> q[i] != q[j] }

  function Ids(q: seq<Id>): set<Id> { set x | x in q }

  function IndexOf(q: seq<Id>, x: Id): (i: nat)
    requires x in q
    ensures i < |q| && q[i] == x
  {
    if q[0] == x then 0 else 1 + IndexOf(q[1..], x)
  }

  function Minus(q: seq<Id>, x: Id): seq<Id> {
    if x in q then q[..IndexOf(q, x)] + q[IndexOf(q, x) + 1..] else q
  }

  /** rb_next */
  function Latter(tree: seq<Id>, x: Id): Option<Id> {
    if x in tree && IndexOf(tree, x) + 1 < |tree| then Some(tree[IndexOf(tree, x) + 1]) else None
  }

  /** list_move of x right behind y. */
  function MovedBehind(q: seq<Id>, x: Id, y: Id): seq<Id> {
    var p := Minus(q, x);
    if y in p then p[..IndexOf(p, y) + 1] + [x] + p[IndexOf(p, y) + 1..] else q
  }

  lemma EmptyIds(q: seq<Id>)
    ensures q != [] ==> q[0] in Ids(q)
    ensures Ids(q) == {} <==> q == []
  {
    assert q != [] ==> q[0] in Ids(q);
  }

  lemma MinusFacts(q: seq<Id>, x: Id)
    requires Distinct(q) && x in q
    ensures Ids(Minus(q, x)) == Ids(q) - {x} && |Minus(q, x)| == |q| - 1
    ensures var k, p := IndexOf(q, x), Minus(q, x);
            forall j {:trigger p[j]} :: 0 <= j < |p| ==> p[j] == if j < k then q[j] else q[j + 1]
  {
    CutFacts(q, IndexOf(q, x));
  }

  lemma CutFacts(q: seq<Id>, k: nat)
    requires Distinct(q) && k < |q|
    ensures Ids(q[..k] + q[k + 1..]) == Ids(q) - {q[k]}
  {
    var p := q[..k] + q[k + 1..];
    forall y
      ensures y in p <==> y in q && y != q[k]
    {
      if y in q && y != q[k] {
        var j :| 0 <= j < |q| && q[j] == y;
        assert p[if j < k then j else j - 1] == y;
      }
      if y in p {
        var j :| 0 <= j < |p| && p[j] == y;
        assert q[if j < k then j else j + 1] == y;
      }
    }
  }

  lemma MinusDistinct(q: seq<Id>, x: Id)
    requires Distinct(q) && x in q
    ensures Distinct(Minus(q, x))
  {
    MinusFacts(q, x);
  }

  lemma MinusMultiset(q: seq<Id>, x: Id)
    requires x in q
    ensures multiset(q) == multiset(Minus(q, x)) + multiset{x}
  {
    var k := IndexOf(q, x);
    assert q == q[..k] + [x] + q[k + 1..];
  }

  lemma InsertedIds(q: seq<Id>, i: nat, x: Id)
    requires i <= |q|
    ensures Ids(q[..i] + [x] + q[i..]) == Ids(q) + {x}
  {
    assert q == q[..i] + q[i..];
  }

  lemma InsertDistinct(q: seq<Id>, i: nat, x: Id)
    requires Distinct(q) && i <= |q| && x !in q
    ensures Distinct(q[..i] + [x] + q[i..])
  {
    var p := q[..i] + [x] + q[i..];
    assert forall j {:trigger p[j]} :: 0 <= j < |p| ==> p[j] == if j < i then q[j] else if j == i then x else q[j - 1];
  }

  lemma {:induction false} DistinctSize(q: seq<Id>)
    requires Distinct(q)
    ensures |Ids(q)| == |q|
  {
    if q != [] {
      var p := q[..|q| - 1];
      DistinctSize(p);
      assert Ids(q) == Ids(p) + {q[|q| - 1]};
      assert q[|q| - 1] !in Ids(p);
    }
  }

  lemma IdsMember(q: seq<Id>, x: Id)
    ensures x in Ids(q) <==> x in q
  {
  }

  lemma {:induction false} FirstIndex(q: seq<Id>, y: Id, k: nat)
    requires k < |q| && q[k] == y && forall j :: 0 <= j < k ==> q[j] != y
    ensures IndexOf(q, y) == k
  {
    if k > 0 {
      FirstIndex(q[1..], y, k - 1);
    }
  }
}
