/** The in-order view of a request tree (elv_rb_add, elv_rb_del, elv_rb_find): ids strictly sorted by
    the start sectors they have in `starts`. */
module SectorTree {
  import opened Options
  import opened IdSeq

  type Starts = map<Id, nat>

  function SectorOf(starts: Starts, x: Id): int { if x in starts then starts[x] else -1 }

  ghost predicate Sorted(starts: Starts, tree: seq<Id>) {
    && (forall i :: 0 <= i < |tree| ==> tree[i] in starts)
    && (forall i, j :: 0 <= i < j < |tree| ==> SectorOf(starts, tree[i]) < SectorOf(starts, tree[j]))
  }

  /** Where elv_rb_add stops: the first entry that does not start before the sector. */
  function Place(starts: Starts, tree: seq<Id>, sector: int): (i: nat)
    ensures i <= |tree|
    ensures forall j :: 0 <= j < i ==> SectorOf(starts, tree[j]) < sector
    ensures i < |tree| ==> sector <= SectorOf(starts, tree[i])
  {
    if tree == [] || sector <= SectorOf(starts, tree[0]) then 0 else 1 + Place(starts, tree[1..], sector)
  }

  lemma {:induction false} PlaceUnique(starts: Starts, tree: seq<Id>, sector: int, i: nat)
    requires i <= |tree| && (forall j :: 0 <= j < i ==> SectorOf(starts, tree[j]) < sector)
    requires i < |tree| ==> sector <= SectorOf(starts, tree[i])
    ensures i == Place(starts, tree, sector)
  {
  }

  /** The request elv_rb_add returns instead of inserting. */
  function Alias(starts: Starts, tree: seq<Id>, sector: int): Option<Id> {
    var i := Place(starts, tree, sector);
    if i < |tree| && SectorOf(starts, tree[i]) == sector then Some(tree[i]) else None
  }

  function Inserted(starts: Starts, tree: seq<Id>, x: Id): seq<Id> {
    var i := Place(starts, tree, SectorOf(starts, x));
    tree[..i] + [x] + tree[i..]
  }

  lemma SortedDistinct(starts: Starts, tree: seq<Id>)
    requires Sorted(starts, tree)
    ensures Distinct(tree)
  {
  }

  lemma SortedMinus(starts: Starts, tree: seq<Id>, x: Id)
    requires Sorted(starts, tree) && x in Ids(tree)
    ensures Sorted(starts, Minus(tree, x)) && Ids(Minus(tree, x)) == Ids(tree) - {x} && |Minus(tree, x)| == |tree| - 1
  {
    SortedDistinct(starts, tree);
    MinusFacts(tree, x);
  }

  lemma SortedFrame(starts: Starts, starts': Starts, tree: seq<Id>)
    requires Sorted(starts, tree) && forall i :: 0 <= i < |tree| ==> tree[i] in starts' && starts'[tree[i]] == starts[tree[i]]
    ensures Sorted(starts', tree)
  {
    forall i, j | 0 <= i < j < |tree|
      ensures SectorOf(starts', tree[i]) < SectorOf(starts', tree[j])
    {
      assert SectorOf(starts, tree[i]) < SectorOf(starts, tree[j]);
    }
  }

  lemma SortedInsert(starts: Starts, tree: seq<Id>, x: Id)
    requires Sorted(starts, tree) && x in starts && Alias(starts, tree, starts[x]).None?
    ensures Sorted(starts, Inserted(starts, tree, x))
    ensures Ids(Inserted(starts, tree, x)) == Ids(tree) + {x}
  {
    var i, p := Place(starts, tree, starts[x]), Inserted(starts, tree, x);
    assert forall j {:trigger p[j]} :: 0 <= j < |p| ==> p[j] == if j < i then tree[j] else if j == i then x else tree[j - 1];
    forall j | i <= j < |tree|
      ensures starts[x] < SectorOf(starts, tree[j])
    {
      assert i < j ==> SectorOf(starts, tree[i]) < SectorOf(starts, tree[j]);
    }
    InsertedIds(tree, i, x);
  }

  /** Once the alias is gone no request is left at its sector. */
  lemma OneAlias(starts: Starts, tree: seq<Id>, sector: nat)
    requires Sorted(starts, tree) && Alias(starts, tree, sector).Some?
    ensures Alias(starts, tree, sector).value in Ids(tree)
    ensures Alias(starts, Minus(tree, Alias(starts, tree, sector).value), sector).None?
  {
    var x := Alias(starts, tree, sector).value;
    var p := Minus(tree, x);
    SortedDistinct(starts, tree);
    MinusFacts(tree, x);
    forall j | 0 <= j < |p|
      ensures SectorOf(starts, p[j]) != sector
    {
    }
  }
}
