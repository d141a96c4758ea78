/*
 * Layer switching over a scene hierarchy.
 *
 * A game object carries a layer number and an ordered list of child objects;
 * the objects reachable from one root form a finite tree. `RecursiveLayerSwitch`
 * gives the root the requested layer and then, through its recursive call with
 * the constant 0, gives every object below the root layer 0.
 *
 * `Tree` and `Switched` describe the hierarchy and the effect of the switch as
 * values; the class `GameObject` is the mutable hierarchy the method updates in
 * place, and its `Model()` reads it back as a `Tree`.
 */
module HierarchyUtils {

  /** A game object seen as a value: its layer and its children, in order. */
  datatype Tree = Node(layer: int, children: seq<Tree>)

  /** Number of game objects in the hierarchy. */
  function Size(t: Tree): (n: nat)
    ensures n >= 1
  {
    1 + SizeOf(t.children)
  }

  /** Number of game objects in a list of hierarchies. */
  function SizeOf(ts: seq<Tree>): nat
  {
    if ts == [] then 0 else SizeOf(ts[..|ts| - 1]) + Size(ts[|ts| - 1])
  }

  /** Every object of the hierarchy is on layer `l`. */
  predicate AllOnLayer(t: Tree, l: int) {
    t.layer == l && forall i :: 0 <= i < |t.children| ==> AllOnLayer(t.children[i], l)
  }

  /** The two hierarchies have the same objects in the same places; layers may differ. */
  predicate SameShape(a: Tree, b: Tree) {
    |a.children| == |b.children| &&
    forall i :: 0 <= i < |a.children| ==> SameShape(a.children[i], b.children[i])
  }

  /** The hierarchy after the switch: the root on `targetLayer`, every descendant
    * switched with layer 0. */
  function Switched(t: Tree, targetLayer: int): (r: Tree)
    ensures r.layer == targetLayer && |r.children| == |t.children|
  {
    Node(targetLayer, seq(|t.children|, i requires 0 <= i < |t.children| => Switched(t.children[i], 0)))
  }

  // ---------------------------------------------------------------------------
  // Properties of the switch

  /** Switching to 0 puts the whole hierarchy, the root included, on layer 0. */
  lemma {:induction false} SwitchedToZero(t: Tree)
    ensures AllOnLayer(Switched(t, 0), 0)
  {
    var r := Switched(t, 0);
    forall i | 0 <= i < |r.children|
      ensures AllOnLayer(r.children[i], 0)
    {
      SwitchedToZero(t.children[i]);
    }
  }

  /** The root ends on the requested layer and every object below it on layer 0. */
  lemma SwitchedLayers(t: Tree, targetLayer: int)
    ensures Switched(t, targetLayer).layer == targetLayer
    ensures forall i :: 0 <= i < |t.children| ==> AllOnLayer(Switched(t, targetLayer).children[i], 0)
  {
    forall i | 0 <= i < |t.children|
      ensures AllOnLayer(Switched(t, targetLayer).children[i], 0)
    {
      SwitchedToZero(t.children[i]);
    }
  }

  /** Only layers change: the switched hierarchy has the shape of the original. */
  lemma {:induction false} SwitchedKeepsShape(t: Tree, targetLayer: int)
    ensures SameShape(Switched(t, targetLayer), t)
  {
    var r := Switched(t, targetLayer);
    forall i | 0 <= i < |t.children|
      ensures SameShape(r.children[i], t.children[i])
    {
      SwitchedKeepsShape(t.children[i], 0);
    }
  }

  /** Hierarchies of the same shape have the same number of objects. */
  lemma {:induction false} SameShapeSameSize(a: Tree, b: Tree)
    requires SameShape(a, b)
    ensures Size(a) == Size(b)
  {
    SameShapeSameSizeOf(a.children, b.children);
  }

  /** Lists of hierarchies of pairwise the same shape have the same number of objects. */
  lemma {:induction false} SameShapeSameSizeOf(xs: seq<Tree>, ys: seq<Tree>)
    requires |xs| == |ys| && forall i :: 0 <= i < |xs| ==> SameShape(xs[i], ys[i])
    ensures SizeOf(xs) == SizeOf(ys)
    decreases xs, 0
  {
    if xs != [] {
      var n := |xs| - 1;
      SameShapeSameSizeOf(xs[..n], ys[..n]);
      SameShapeSameSize(xs[n], ys[n]);
    }
  }

  /** The switch touches exactly as many objects as the hierarchy holds. */
  lemma SwitchedKeepsSize(t: Tree, targetLayer: int)
    ensures Size(Switched(t, targetLayer)) == Size(t)
  {
    SwitchedKeepsShape(t, targetLayer);
    SameShapeSameSize(Switched(t, targetLayer), t);
  }

  /** The switch is the only hierarchy of the original's shape with the root on the
    * requested layer and everything below it on layer 0. */
  lemma {:induction false} SwitchedCharacterized(t: Tree, targetLayer: int, u: Tree)
    requires SameShape(u, t) && u.layer == targetLayer
    requires forall i :: 0 <= i < |u.children| ==> AllOnLayer(u.children[i], 0)
    ensures u == Switched(t, targetLayer)
  {
    var r := Switched(t, targetLayer);
    forall i | 0 <= i < |u.children|
      ensures u.children[i] == r.children[i]
    {
      var c := u.children[i];
      assert forall j :: 0 <= j < |c.children| ==> AllOnLayer(c.children[j], 0);
      SwitchedCharacterized(t.children[i], 0, c);
    }
    assert u.children == r.children;
  }

  /** Switching twice to the same layer leaves the layers of a single switch. */
  lemma SwitchedIdempotent(t: Tree, targetLayer: int)
    ensures Switched(Switched(t, targetLayer), targetLayer) == Switched(t, targetLayer)
  {
    var r := Switched(t, targetLayer);
    SwitchedKeepsShape(r, targetLayer);
    SwitchedKeepsShape(t, targetLayer);
    SameShapeTransitive(Switched(r, targetLayer), r, t);
    SwitchedLayers(r, targetLayer);
    SwitchedCharacterized(t, targetLayer, Switched(r, targetLayer));
  }

  /** Having the same shape is transitive. */
  lemma {:induction false} SameShapeTransitive(a: Tree, b: Tree, c: Tree)
    requires SameShape(a, b) && SameShape(b, c)
    ensures SameShape(a, c)
  {
    forall i | 0 <= i < |a.children|
      ensures SameShape(a.children[i], c.children[i])
    {
      SameShapeTransitive(a.children[i], b.children[i], c.children[i]);
    }
  }

  /** The documentation promises that every object gets the target layer; a root
    * with one child switched to layer 5 leaves the child on layer 0. */
  lemma ChildNotOnTargetLayer()
    ensures Switched(Node(5, [Node(5, [])]), 5).children[0].layer == 0
    ensures !AllOnLayer(Switched(Node(5, [Node(5, [])]), 5), 5)
  {
    var r := Switched(Node(5, [Node(5, [])]), 5);
    assert r.children[0].layer == 0;
  }

  // ---------------------------------------------------------------------------
  // The mutable hierarchy

  /** A game object: its layer, which the switch assigns in place, and the game
    * objects parented to it, which the switch never changes. `Repr` is the set of
    * objects of its sub-hierarchy, itself included. */
  class GameObject {
    var layer: int
    const children: seq<GameObject>
    ghost const Repr: set<GameObject>

    /** The objects below this one form a tree: every child owns a part of `Repr`
      * that excludes this object, and no two children share an object. */
    ghost predicate Valid()
      decreases Repr
    {
      this in Repr &&
      (forall i :: 0 <= i < |children| ==>
        children[i] in Repr && children[i].Repr <= Repr && this !in children[i].Repr &&
        children[i].Valid()) &&
      (forall i, j :: 0 <= i < j < |children| ==> children[i].Repr !! children[j].Repr)
    }

    /** `Repr` holds nothing but the objects of the sub-hierarchy: this object and,
      * recursively, the objects of its children. */
    ghost predicate Exact()
      requires Valid()
      decreases Repr
    {
      Repr == {this} + ReprOf(children, |children|) &&
      forall i :: 0 <= i < |children| ==> children[i].Exact()
    }

    /** The sub-hierarchy rooted here, read as a value. */
    ghost function Model(): (t: Tree)
      requires Valid()
      reads Repr
      decreases Repr, |children| + 1
      ensures t.layer == layer && |t.children| == |children|
    {
      Node(layer, ChildModels(|children|))
    }

    /** The values of the first `k` children. */
    ghost function ChildModels(k: nat): (ts: seq<Tree>)
      requires Valid() && k <= |children|
      reads Repr
      decreases Repr, k
      ensures |ts| == k && forall i :: 0 <= i < k ==> ts[i] == children[i].Model()
    {
      if k == 0 then [] else ChildModels(k - 1) + [children[k - 1].Model()]
    }

    /** The objects of the sub-hierarchy in the order the switch assigns their
      * layers: this object, then each child's sub-hierarchy in turn. */
    ghost function Order(): seq<GameObject>
      requires Valid()
      decreases Repr, |children| + 1
    {
      [this] + ChildOrders(|children|)
    }

    /** The assignment order of the first `k` children's sub-hierarchies. */
    ghost function ChildOrders(k: nat): seq<GameObject>
      requires Valid() && k <= |children|
      decreases Repr, k
    {
      if k == 0 then [] else ChildOrders(k - 1) + children[k - 1].Order()
    }

    /** A game object on `layer` with the given children, which must be distinct
      * sub-hierarchies. */
    constructor(layer: int, children: seq<GameObject>)
      requires forall i :: 0 <= i < |children| ==> children[i].Valid() && children[i].Exact()
      requires forall i, j :: 0 <= i < j < |children| ==> children[i].Repr !! children[j].Repr
      ensures Valid() && Exact() && this.layer == layer && this.children == children
    {
      this.layer := layer;
      this.children := children;
      Repr := {this} + ReprOf(children, |children|);
      new;
      forall i | 0 <= i < |children|
        ensures children[i] in Repr && children[i].Repr <= Repr
      {
        InReprOf(children, |children|, i);
      }
    }
  }

  /** All objects of the first `k` sub-hierarchies of a list. */
  ghost function ReprOf(cs: seq<GameObject>, k: nat): set<GameObject>
    requires k <= |cs|
  {
    if k == 0 then {} else ReprOf(cs, k - 1) + cs[k - 1].Repr
  }

  /** Each of the first `k` sub-hierarchies lies inside their objects. */
  lemma {:induction false} InReprOf(cs: seq<GameObject>, k: nat, i: nat)
    requires i < k <= |cs|
    ensures cs[i].Repr <= ReprOf(cs, k)
  {
    if i < k - 1 {
      InReprOf(cs, k - 1, i);
    }
  }

  /** An object outside each of the first `k` sub-hierarchies is outside their objects. */
  lemma {:induction false} NotInReprOf(cs: seq<GameObject>, k: nat, o: GameObject)
    requires k <= |cs| && forall i :: 0 <= i < k ==> o !in cs[i].Repr
    ensures o !in ReprOf(cs, k)
  {
    if k > 0 {
      NotInReprOf(cs, k - 1, o);
    }
  }

  /** The objects of the first `i` sub-hierarchies share none with a later one. */
  lemma {:induction false} ReprOfPrefixDisjoint(cs: seq<GameObject>, i: nat)
    requires i <= |cs|
    requires forall j, k :: 0 <= j < k < |cs| ==> cs[j].Repr !! cs[k].Repr
    ensures forall k :: i <= k < |cs| ==> ReprOf(cs, i) !! cs[k].Repr
  {
    if i > 0 {
      ReprOfPrefixDisjoint(cs, i - 1);
    }
  }

  /** No object occurs twice in the sequence. */
  predicate Distinct(os: seq<GameObject>) {
    forall i, j :: 0 <= i < j < |os| ==> os[i] != os[j]
  }

  /** Two sequences without repeats and without a common object concatenate to one
    * without repeats. */
  lemma DistinctConcat(xs: seq<GameObject>, ys: seq<GameObject>)
    requires Distinct(xs) && Distinct(ys) && forall o :: o in xs ==> o !in ys
    ensures Distinct(xs + ys)
  {
    var all := xs + ys;
    forall a, b | 0 <= a < b < |all|
      ensures all[a] != all[b]
    {
      if a < |xs| <= b {
        assert xs[a] in xs && ys[b - |xs|] in ys;
      }
    }
  }

  /** The assignment order lists every object of the sub-hierarchy exactly once. */
  lemma {:induction false} OrderVisitsEachOnce(g: GameObject)
    requires g.Valid() && g.Exact()
    ensures Distinct(g.Order())
    ensures forall o :: o in g.Order() ==> o in g.Repr
    ensures forall o :: o in g.Repr ==> o in g.Order()
    decreases g.Repr, |g.children| + 1
  {
    ChildOrdersVisitEachOnce(g, |g.children|);
    NotInReprOf(g.children, |g.children|, g);
    DistinctConcat([g], g.ChildOrders(|g.children|));
  }

  /** The assignment order of the first `k` children lists every object of their
    * sub-hierarchies exactly once. */
  lemma {:induction false} ChildOrdersVisitEachOnce(g: GameObject, k: nat)
    requires g.Valid() && g.Exact() && k <= |g.children|
    ensures Distinct(g.ChildOrders(k))
    ensures forall o :: o in g.ChildOrders(k) ==> o in ReprOf(g.children, k)
    ensures forall o :: o in ReprOf(g.children, k) ==> o in g.ChildOrders(k)
    decreases g.Repr, k
  {
    if k > 0 {
      var cs, j := g.children, k - 1;
      ChildOrdersVisitEachOnce(g, j);
      OrderVisitsEachOnce(cs[j]);
      ReprOfPrefixDisjoint(cs, j);
      ChildOrdersNext(g, j, g.ChildOrders(j), cs[j].Order());
      forall o | o in g.ChildOrders(j)
        ensures o !in cs[j].Order()
      {
        assert o in ReprOf(cs, j) && o !in cs[j].Repr;
      }
      DistinctConcat(g.ChildOrders(j), cs[j].Order());
    }
  }

  /** The assignment order is as long as the hierarchy is large. */
  lemma {:induction false} OrderLength(g: GameObject)
    requires g.Valid()
    ensures |g.Order()| == Size(g.Model())
    decreases g.Repr, |g.children| + 1
  {
    ChildOrdersLength(g, |g.children|);
    assert g.ChildModels(|g.children|)[..|g.children|] == g.ChildModels(|g.children|);
  }

  /** The assignment order of the first `k` children is as long as their
    * sub-hierarchies are large together. */
  lemma {:induction false} ChildOrdersLength(g: GameObject, k: nat)
    requires g.Valid() && k <= |g.children|
    ensures |g.ChildOrders(k)| == SizeOf(g.ChildModels(|g.children|)[..k])
    decreases g.Repr, k
  {
    if k > 0 {
      var ms := g.ChildModels(|g.children|);
      ChildOrdersLength(g, k - 1);
      OrderLength(g.children[k - 1]);
      assert ms[..k][..k - 1] == ms[..k - 1];
    }
  }

  /** The children of a hierarchy, of which the first `i` have been switched with
    * layer 0 and the rest are as they were. */
  function SwitchedUpTo(ts: seq<Tree>, i: nat): (us: seq<Tree>)
    ensures |us| == |ts|
  {
    seq(|ts|, j requires 0 <= j < |ts| => if j < i then Switched(ts[j], 0) else ts[j])
  }

  /** Appending child `i`'s assignment order extends the order of the first `i`. */
  lemma ChildOrdersNext(g: GameObject, i: nat, below: seq<GameObject>, sub: seq<GameObject>)
    requires g.Valid() && i < |g.children|
    requires below == g.ChildOrders(i) && sub == g.children[i].Order()
    ensures below + sub == g.ChildOrders(i + 1)
  {
  }

  /** Switching child `i` as well extends the switched prefix by one. */
  lemma SwitchedUpToNext(ts: seq<Tree>, i: nat)
    requires i < |ts|
    ensures SwitchedUpTo(ts, i)[i := Switched(ts[i], 0)] == SwitchedUpTo(ts, i + 1)
  {
  }

  /** With no child switched yet, the children are as they were. */
  lemma SwitchedUpToNone(ts: seq<Tree>)
    ensures SwitchedUpTo(ts, 0) == ts
  {
  }

  /** With every child switched, the children are those of the switched hierarchy. */
  lemma SwitchedUpToAll(t: Tree, targetLayer: int)
    ensures Node(targetLayer, SwitchedUpTo(t.children, |t.children|)) == Switched(t, targetLayer)
  {
  }

  /** When only the root's own layer changed, the hierarchy reads as before with the
    * root on its new layer. */
  twostate lemma RootRelayered(g: GameObject)
    requires g.Valid() && unchanged(g.Repr - {g})
    ensures g.Model() == old(g.Model()).(layer := g.layer)
  {
    var cs := g.children;
    forall j | 0 <= j < |cs|
      ensures cs[j].Model() == old(cs[j].Model())
    {
      assert cs[j].Repr <= g.Repr - {g};
    }
    assert g.Model().children == old(g.Model()).children;
  }

  /** After child `i` of a hierarchy whose first `i` children were switched is
    * switched in turn, its first `i + 1` children are switched. */
  twostate lemma ChildSwitched(g: GameObject, new i: nat, new targetLayer: int, new ts: seq<Tree>)
    requires g.Valid() && i < |g.children| && unchanged(g.Repr - g.children[i].Repr)
    requires old(g.Model()) == Node(targetLayer, SwitchedUpTo(ts, i))
    requires i < |ts| && g.children[i].Model() == Switched(ts[i], 0)
    ensures g.Model() == Node(targetLayer, SwitchedUpTo(ts, i + 1))
  {
    var cs := g.children;
    forall j | 0 <= j < |cs| && j != i
      ensures cs[j].Model() == old(cs[j].Model())
    {
      assert cs[j].Repr !! cs[i].Repr;
      assert cs[j].Repr <= g.Repr - cs[i].Repr;
    }
    assert g.Model().children == old(g.Model()).children[i := cs[i].Model()];
    SwitchedUpToNext(ts, i);
  }

  /** Once every child is switched, the hierarchy is the switch of `before`, and the
    * root followed by the children's assignment orders is the assignment order,
    * which lists each object once. */
  lemma SwitchDone(g: GameObject, before: Tree, targetLayer: int, below: seq<GameObject>)
    requires g.Valid() && g.Exact() && |before.children| == |g.children|
    requires g.Model() == Node(targetLayer, SwitchedUpTo(before.children, |g.children|))
    requires below == g.ChildOrders(|g.children|)
    ensures g.Model() == Switched(before, targetLayer)
    ensures [g] + below == g.Order()
    ensures |[g] + below| == Size(before) && Distinct([g] + below)
    ensures forall o :: o in [g] + below <==> o in g.Repr
  {
    SwitchedUpToAll(before, targetLayer);
    OrderVisitsEachOnce(g);
    OrderLength(g);
    SwitchedKeepsSize(before, targetLayer);
  }

  /** Puts `parent` on `targetLayer` and, one child after the other, switches every
    * child's sub-hierarchy with layer 0. `visited` lists the objects whose layer
    * was assigned, in the order of assignment: every object of the hierarchy
    * exactly once. */
  method RecursiveLayerSwitch(parent: GameObject, targetLayer: int) returns (ghost visited: seq<GameObject>)
    requires parent.Valid() && parent.Exact()
    modifies parent.Repr
    decreases parent.Repr, 1
    ensures parent.Model() == Switched(old(parent.Model()), targetLayer)
    ensures visited == parent.Order()
    ensures |visited| == Size(old(parent.Model())) && Distinct(visited)
    ensures forall o :: o in visited <==> o in parent.Repr
  {
    ghost var before := parent.Model();
    label Start:
    parent.layer := targetLayer;
    RootRelayered@Start(parent);
    SwitchedUpToNone(before.children);
    ghost var below := [];
    var cs := parent.children;
    for i := 0 to |cs|
      invariant parent.Model() == Node(targetLayer, SwitchedUpTo(before.children, i))
      invariant below == parent.ChildOrders(i)
    {
      below := SwitchChild(parent, i, targetLayer, before.children, below);
    }
    visited := [parent] + below;
    SwitchDone(parent, before, targetLayer, below);
  }

  /** One pass of the loop over the children: switches child `i` with layer 0 and
    * appends the objects it assigned to `below`. */
  method SwitchChild(parent: GameObject, i: nat, targetLayer: int, ghost ts: seq<Tree>, ghost below: seq<GameObject>)
      returns (ghost below': seq<GameObject>)
    requires parent.Valid() && parent.Exact() && i < |parent.children|
    requires parent.Model() == Node(targetLayer, SwitchedUpTo(ts, i))
    requires below == parent.ChildOrders(i)
    modifies parent.children[i].Repr
    decreases parent.Repr, 0
    ensures parent.Model() == Node(targetLayer, SwitchedUpTo(ts, i + 1))
    ensures below' == parent.ChildOrders(i + 1)
  {
    label Entry:
    ghost var sub := RecursiveLayerSwitch(parent.children[i], 0);
    assert old(parent.children[i].Model()) == ts[i];
    ChildSwitched@Entry(parent, i, targetLayer, ts);
    ChildOrdersNext(parent, i, below, sub);
    below' := below + sub;
  }
}
