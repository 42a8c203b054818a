/** The union-find of arc-intel/indexer/scoring.py and arc-intel/indexer/pnl.py:
    a dict of parent pointers with path halving, no ranks stored. */
module UnionFind {
  import opened Lists

  /** `rep` names the root of every node and `rank` grows along parent pointers,
      so that following them ends; neither exists in the source. */
  ghost predicate Node<W>(parent: map<W, W>, rep: map<W, W>, rank: map<W, nat>, top: nat, x: W) {
    && x in parent && parent[x] in parent
    && x in rep && rep[x] in parent && parent[x] in rep
    && rep[parent[x]] == rep[x] && parent[rep[x]] == rep[x]
    && (parent[x] == x ==> rep[x] == x)
    && x in rank && parent[x] in rank && rank[x] <= top && rank[parent[x]] <= top
    && (parent[x] != x ==> rank[x] < rank[parent[x]])
  }

  ghost predicate Forest<W>(parent: map<W, W>, rep: map<W, W>, rank: map<W, nat>, top: nat) {
    && rep.Keys == rank.Keys == parent.Keys
    && forall x {:trigger Node(parent, rep, rank, top, x)} :: x in parent ==> Node(parent, rep, rank, top, x)
  }

  /** Pointing a node at its grandparent changes no root. */
  lemma HalvingKeepsRoots<W>(parent: map<W, W>, rep: map<W, W>, rank: map<W, nat>, top: nat, x: W)
    requires Forest(parent, rep, rank, top) && x in parent
    ensures Node(parent, rep, rank, top, x) && Node(parent, rep, rank, top, parent[x])
    ensures Forest(parent[x := parent[parent[x]]], rep, rank, top)
  {
    assert Node(parent, rep, rank, top, x) && Node(parent, rep, rank, top, parent[x]);
    var p := parent[x := parent[parent[x]]];
    forall y | y in p ensures Node(p, rep, rank, top, y) {
      assert Node(parent, rep, rank, top, y);
    }
  }

  lemma SingletonIsForest<W>(parent: map<W, W>, rep: map<W, W>, rank: map<W, nat>, top: nat, x: W)
    requires Forest(parent, rep, rank, top) && x !in parent
    ensures Forest(parent[x := x], rep[x := x], rank[x := 0], top)
  {
    var p, m, k := parent[x := x], rep[x := x], rank[x := 0];
    forall y | y in p ensures Node(p, m, k, top, y) {
      if y != x { assert Node(parent, rep, rank, top, y); }
    }
  }

  /** The roots after `find(x)`: an unknown node becomes its own root. */
  function Registered<W(==)>(rep: map<W, W>, x: W): map<W, W> {
    if x in rep then rep else rep[x := x]
  }

  /** The roots after hanging root `rb` under root `ra`. */
  function Merged<W(==)>(rep: map<W, W>, ra: W, rb: W): (m: map<W, W>)
    ensures m.Keys == rep.Keys
  {
    map x | x in rep :: if rep[x] == rb then ra else rep[x]
  }

  function Raised<W(==)>(rank: map<W, nat>, ra: W, rb: W): map<W, nat>
    requires ra in rank && rb in rank
  {
    rank[ra := if rank[rb] < rank[ra] then rank[ra] else rank[rb] + 1]
  }

  lemma LinkMergesTwoTrees<W>(parent: map<W, W>, rep: map<W, W>, rank: map<W, nat>, top: nat, ra: W, rb: W)
    requires Forest(parent, rep, rank, top)
    requires ra in parent && rb in parent && ra != rb && parent[ra] == ra && parent[rb] == rb
    ensures Forest(parent[rb := ra], Merged(rep, ra, rb), Raised(rank, ra, rb), top + 1)
  {
    var p, m, k := parent[rb := ra], Merged(rep, ra, rb), Raised(rank, ra, rb);
    assert m.Keys == rep.Keys;
    assert Node(parent, rep, rank, top, ra) && Node(parent, rep, rank, top, rb);
    forall y | y in p ensures Node(p, m, k, top + 1, y) {
      assert Node(parent, rep, rank, top, y) && Node(parent, rep, rank, top, parent[y]);
    }
  }

  class UnionFind<W(==,!new)> {
    var parent: map<W, W>
    var order: seq<W>          // the insertion order of the dict
    ghost var rep: map<W, W>
    ghost var rank: map<W, nat>
    ghost var top: nat

    ghost predicate Valid()
      reads this
    {
      && Forest(parent, rep, rank, top)
      && rep.Keys == parent.Keys
      && Distinct(order)
      && forall x :: x in parent <==> x in order
    }

    lemma KnownIffOrdered()
      requires Valid()
      ensures forall x :: x in rep <==> x in order
    {
    }

    lemma OrderIsDistinct()
      requires Valid()
      ensures Distinct(order)
    {
    }

    constructor ()
      ensures Valid() && order == [] && rep == map[]
    {
      parent, order, rep, rank, top := map[], [], map[], map[], 0;
    }

    /** `find`: registers an unknown node, halves the path, returns the root. */
    method Find(x: W) returns (r: W)
      requires Valid()
      modifies this
      ensures Valid()
      ensures rep == Registered(old(rep), x)
      ensures order == (if x in old(rep) then old(order) else old(order) + [x])
      ensures x in rep && r in parent && r == rep[x] && parent[r] == r
    {
      if x !in parent {
        SingletonIsForest(parent, rep, rank, top, x);
        parent, rep, rank, order := parent[x := x], rep[x := x], rank[x := 0], order + [x];
      }
      r := x;
      assert Node(parent, rep, rank, top, r);
      while parent[r] != r
        invariant Valid() && Node(parent, rep, rank, top, r) && x in rep && rep[r] == rep[x]
        invariant rep == Registered(old(rep), x)
        invariant order == (if x in old(rep) then old(order) else old(order) + [x])
        decreases top - rank[r]
      {
        HalvingKeepsRoots(parent, rep, rank, top, r);
        parent := parent[r := parent[parent[r]]];
        r := parent[r];
        assert Node(parent, rep, rank, top, r);
      }
    }

    /** `union`: two known nodes end up under the root of the first. */
    method Union(a: W, b: W)
      requires Valid() && a in rep && b in rep
      modifies this
      ensures Valid() && order == old(order)
      ensures rep == Merged(old(rep), old(rep)[a], old(rep)[b])
    {
      var ra := Find(a);
      var rb := Find(b);
      assert Node(parent, rep, rank, top, a);
      if ra == rb {
        assert rep == Merged(rep, ra, rb);
      } else {
        hide Node, Merged;
        Link(ra, rb);
      }
    }

    method Link(ra: W, rb: W)
      requires Valid() && ra in parent && rb in parent && ra != rb && parent[ra] == ra && parent[rb] == rb
      modifies this
      ensures Valid() && order == old(order)
      ensures rep == Merged(old(rep), ra, rb)
    {
      LinkMergesTwoTrees(parent, rep, rank, top, ra, rb);
      assert forall x :: x in parent[rb := ra] <==> x in parent;
      hide Node;
      rep, rank, top := Merged(rep, ra, rb), Raised(rank, ra, rb), top + 1;
      parent := parent[rb := ra];
    }

    /** One id per root, in the order in which the roots are met. */
    method NumberRoots() returns (ids: map<W, int>)
      requires Valid()
      modifies this
      ensures Valid() && order == old(order) && rep == old(rep)
      ensures forall x :: x in ids <==> x in order
      ensures forall x, y :: x in order && y in order ==> (ids[x] == ids[y] <==> rep[x] == rep[y])
      ensures NumberedAsMet(order, ids)
    {
      hide Forest, Numbering, Numbered, NumberedAsMet;
      var keys := order;
      ids := map[];
      var roots: map<W, int> := map[];
      NumberingStarts(keys, rep);
      for i := 0 to |keys|
        invariant Valid() && order == keys == old(order) && rep == old(rep)
        invariant Numbering(keys, i, ids, roots, rep)
      {
        assert keys[i] in order;
        var r := Find(keys[i]);
        NumberingStep(keys, i, ids, roots, rep, r);
        var next := Numbered(ids, roots, keys[i], r);
        ids, roots := next.0, next.1;
      }
      NumberingDone(keys, ids, roots, rep);
    }
  }

  /** The loop body: a new root gets the next id, and the key gets the id of its root. */
  function Numbered<W(==)>(ids: map<W, int>, roots: map<W, int>, key: W, r: W): (map<W, int>, map<W, int>) {
    var roots' := if r in roots then roots else roots[r := |roots|];
    (ids[key := roots'[r]], roots')
  }

  /** After the first i keys: `roots` numbers the roots met, `ids` the keys. */
  ghost predicate Numbering<W(!new)>(order: seq<W>, i: nat, ids: map<W, int>, roots: map<W, int>, rep: map<W, W>)
    requires i <= |order|
  {
    && (forall x :: x in ids <==> x in order[..i])
    && (forall x :: x in ids ==> x in rep && rep[x] in roots && ids[x] == roots[rep[x]])
    && (forall r :: r in roots ==> 0 <= roots[r] < |roots|)
    && (forall r, s :: r in roots && s in roots && roots[r] == roots[s] ==> r == s)
    && (forall k {:trigger MetBefore(order, ids, i, k)} :: 0 <= k < |roots| ==> MetBefore(order, ids, i, k))
    && (forall j, k {:trigger MetBefore(order, ids, j, k)} ::
          0 <= j < i && order[j] in ids && 0 <= k < ids[order[j]] ==> MetBefore(order, ids, j, k))
  }

  lemma NumberingStarts<W(!new)>(order: seq<W>, rep: map<W, W>)
    ensures Numbering(order, 0, map[], map[], rep)
  {
  }

  lemma NumberingStep<W(!new)>(order: seq<W>, i: nat, ids: map<W, int>, roots: map<W, int>, rep: map<W, W>, r: W)
    requires i < |order| && Distinct(order) && Numbering(order, i, ids, roots, rep)
    requires order[i] in rep && r == rep[order[i]]
    ensures var (ids', roots') := Numbered(ids, roots, order[i], r);
            Numbering(order, i + 1, ids', roots', rep)
  {
    var roots' := if r in roots then roots else roots[r := |roots|];
    var ids' := ids[order[i] := roots'[r]];
    var i' := i + 1;
    assert order[..i'] == order[..i] + [order[i]];
    assert order[i] !in order[..i];
    forall k | 0 <= k < |roots'| ensures MetBefore(order, ids', i', k) {
      if k < |roots| {
        MetStays(order, ids, i, i, k, roots'[r]);
      } else {
        assert ids'[order[i]] == k;
      }
    }
    forall j, k | 0 <= j < i' && order[j] in ids' && 0 <= k < ids'[order[j]] ensures MetBefore(order, ids', j, k) {
      assert order[j] in order[..i'];
      MetStays(order, ids, i, j, k, roots'[r]);
    }
  }

  /** Naming key i changes no earlier sighting. */
  lemma MetStays<W>(order: seq<W>, ids: map<W, int>, i: nat, j: int, k: int, id: int)
    requires i < |order| && Distinct(order) && j <= i && MetBefore(order, ids, j, k)
    ensures MetBefore(order, ids[order[i] := id], j, k) && MetBefore(order, ids[order[i] := id], i + 1, k)
  {
    var h :| 0 <= h < j && h < |order| && order[h] in ids && ids[order[h]] == k;
    assert order[h] != order[i];
  }

  lemma NumberingDone<W(!new)>(order: seq<W>, ids: map<W, int>, roots: map<W, int>, rep: map<W, W>)
    requires Numbering(order, |order|, ids, roots, rep)
    ensures forall x :: x in ids <==> x in order
    ensures forall x, y :: x in order && y in order ==> (ids[x] == ids[y] <==> rep[x] == rep[y])
    ensures NumberedAsMet(order, ids)
  {
    assert order[..|order|] == order;
  }

  /** Some key among the first j has id k. */
  ghost predicate MetBefore<W>(order: seq<W>, ids: map<W, int>, j: int, k: int) {
    exists h :: 0 <= h < j && h < |order| && order[h] in ids && ids[order[h]] == k
  }

  /** Every smaller id appears at an earlier key: ids are 0, 1, 2, ... as met. */
  ghost predicate NumberedAsMet<W>(order: seq<W>, ids: map<W, int>) {
    forall j :: 0 <= j < |order| ==>
      order[j] in ids && 0 <= ids[order[j]] && forall k :: 0 <= k < ids[order[j]] ==> MetBefore(order, ids, j, k)
  }
}
