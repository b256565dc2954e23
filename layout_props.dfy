/**
 * What the layout promises: where it starts, which nodes it places, on
 * which side of its parent each placed node lands, and how siblings are
 * spread. The statements hold for any jitter that stays within
 * [-scale/2, 0.49 scale], and `JitterOfBounded` shows that the hash-driven
 * jitter does.
 */
module LayoutProps {
  import opened Common
  import opened CvModel
  import opened Layout

  /** The jitter never moves a node by more than half its scale to either side. */
  ghost predicate JitterBounded(jitter: (string, real) -> real) {
    forall id, s :: s >= 0.0 ==> -0.5 * s <= jitter(id, s) <= 0.49 * s
  }

  lemma JitterOfBounded()
    ensures JitterBounded(JitterOf)
  {
    forall id, s | s >= 0.0 ensures -0.5 * s <= JitterOf(id, s) <= 0.49 * s {
      var r := JitterFromHash(SimpleHashOf(id), s);
    }
  }

  // ---------------------------------------------------------------------------
  // The start of the layout

  /**
   * Without a node of type profile the layout is empty; otherwise it starts
   * with the first profile node at the centre (400, 300).
   */
  lemma LayoutStart(jitter: (string, real) -> real, nodes: seq<CvNode>, states: map<string, NodeState>)
    ensures var r := LayoutWith(jitter, nodes, states);
      && (r == [] <==> forall k :: 0 <= k < |nodes| ==> nodes[k].Type() != Profile)
      && (r != [] ==> r[0] == NodePosition(FindProfile(nodes).value.id, 400.0, 300.0))
  {
  }

  // ---------------------------------------------------------------------------
  // Which nodes are placed

  /** `id` is the id of a child of `parent`. */
  ghost predicate ChildId(nodes: seq<CvNode>, parent: CvNode, id: string) {
    exists g :: g in ChildrenOf(nodes, Some(parent.id)) && g.id == id
  }

  /** `id` is the id of a child of `category` or of a child of such a child. */
  ghost predicate BelowCategory(nodes: seq<CvNode>, category: CvNode, id: string) {
    exists i :: i in ChildrenOf(nodes, Some(category.id)) && (i.id == id || ChildId(nodes, i, id))
  }

  /**
   * The nodes the layout may place: the profile, its children whose id has a
   * slot, and those categories' children and grandchildren.
   */
  ghost predicate Placeable(nodes: seq<CvNode>, id: string) {
    match FindProfile(nodes)
    case None => false
    case Some(p) =>
      id == p.id
      || exists c :: c in ChildrenOf(nodes, Some(p.id)) && CategoryConfig(c.id).Some?
                     && (c.id == id || BelowCategory(nodes, c, id))
  }

  /** Every position of a fan's first k entries belongs to one of its children or, on the item tier, to a child of one. */
  lemma {:induction false} RowIds(jitter: (string, real) -> real, nodes: seq<CvNode>, states: map<string, NodeState>,
                                  f: Fan, tier: Tier, k: nat)
    requires k <= |f.children|
    ensures forall pos :: pos in Row(jitter, nodes, states, f, tier, k) ==>
      exists c :: c in f.children && (pos.nodeId == c.id || (tier == Items && ChildId(nodes, c, pos.nodeId)))
    decreases TierRank(tier), k
  {
    if k > 0 {
      RowIds(jitter, nodes, states, f, tier, k - 1);
      var a := FanAnchor(jitter, states, f, k - 1);
      var c := f.children[k - 1];
      if tier == Items {
        var gf := TierFan(nodes, states, a, f.side, Grandchildren);
        RowIds(jitter, nodes, states, gf, Grandchildren, |gf.children|);
        forall pos | pos in Block(jitter, nodes, states, a, f.side, Grandchildren) ensures ChildId(nodes, c, pos.nodeId) {
          var g :| g in gf.children && pos.nodeId == g.id;
        }
      }
    }
  }

  /** `id` lies in the block of category `c`: the category is configured and `id` is it or below it. */
  ghost predicate InBlockOf(nodes: seq<CvNode>, c: CvNode, id: string) {
    CategoryConfig(c.id).Some? && (id == c.id || BelowCategory(nodes, c, id))
  }

  /** Every position in a category's block belongs to the category or lies below it. */
  lemma CategoryBlockIds(jitter: (string, real) -> real, nodes: seq<CvNode>, states: map<string, NodeState>,
                         profile: Anchor, category: CvNode)
    ensures forall pos :: pos in CategoryBlock(jitter, nodes, states, profile, category) ==>
      InBlockOf(nodes, category, pos.nodeId)
  {
    match CategoryConfig(category.id)
    case None =>
    case Some(slot) =>
      var a := CategoryAnchor(jitter, states, profile, category, slot);
      var f := TierFan(nodes, states, a, slot.side, Items);
      RowIds(jitter, nodes, states, f, Items, |f.children|);
  }

  /** Every position in `row` lies in the block of one of the categories. */
  ghost predicate InSomeBlock(nodes: seq<CvNode>, categories: seq<CvNode>, row: seq<NodePosition>) {
    forall pos :: pos in row ==> exists c :: c in categories && InBlockOf(nodes, c, pos.nodeId)
  }

  /** Appending the block of one of the categories keeps every position in some category's block. */
  lemma BlocksConcat(nodes: seq<CvNode>, categories: seq<CvNode>, prev: seq<NodePosition>, c: CvNode,
                     block: seq<NodePosition>)
    requires c in categories && InSomeBlock(nodes, categories, prev)
    requires forall pos :: pos in block ==> InBlockOf(nodes, c, pos.nodeId)
    ensures InSomeBlock(nodes, categories, prev + block)
  {
  }

  lemma {:induction false} CategoryRowIds(jitter: (string, real) -> real, nodes: seq<CvNode>, states: map<string, NodeState>,
                                          profile: Anchor, categories: seq<CvNode>, k: nat)
    requires k <= |categories|
    ensures InSomeBlock(nodes, categories, CategoryRow(jitter, nodes, states, profile, categories, k))
  {
    if k > 0 {
      var prev := CategoryRow(jitter, nodes, states, profile, categories, k - 1);
      var c := categories[k - 1];
      var block := CategoryBlock(jitter, nodes, states, profile, c);
      CategoryRowIds(jitter, nodes, states, profile, categories, k - 1);
      CategoryBlockIds(jitter, nodes, states, profile, c);
      BlocksConcat(nodes, categories, prev, c, block);
      assert CategoryRow(jitter, nodes, states, profile, categories, k) == prev + block;
    }
  }

  /** Only the profile, the configured categories, and their children and grandchildren receive a position. */
  lemma LayoutPlacesOnlyPlaceable(jitter: (string, real) -> real, nodes: seq<CvNode>, states: map<string, NodeState>)
    ensures forall pos :: pos in LayoutWith(jitter, nodes, states) ==> Placeable(nodes, pos.nodeId)
  {
    match FindProfile(nodes)
    case None =>
    case Some(p) =>
      var pa := ProfileAnchor(states, p);
      var categories := ChildrenOf(nodes, Some(p.id));
      CategoryRowIds(jitter, nodes, states, pa, categories, |categories|);
  }

  /** Some position in `r` belongs to `id`. */
  ghost predicate Covered(r: seq<NodePosition>, id: string) {
    exists pos :: pos in r && pos.nodeId == id
  }

  lemma CoveredInConcat(a: seq<NodePosition>, b: seq<NodePosition>, id: string)
    requires Covered(a, id) || Covered(b, id)
    ensures Covered(a + b, id)
  {
    var pos :| (pos in a || pos in b) && pos.nodeId == id;
    assert pos in a + b;
  }

  /** Each of a fan's first k children, and on the item tier each of their children, has a position among its first k entries. */
  lemma {:induction false} RowCovers(jitter: (string, real) -> real, nodes: seq<CvNode>, states: map<string, NodeState>,
                                     f: Fan, tier: Tier, k: nat)
    requires k <= |f.children|
    ensures forall j :: 0 <= j < k ==> Covered(Row(jitter, nodes, states, f, tier, k), f.children[j].id)
    ensures tier == Items ==> forall j, g :: 0 <= j < k && g in ChildrenOf(nodes, Some(f.children[j].id)) ==>
      Covered(Row(jitter, nodes, states, f, tier, k), g.id)
    decreases TierRank(tier), k
  {
    if k > 0 {
      var prev := Row(jitter, nodes, states, f, tier, k - 1);
      var e := Entry(jitter, nodes, states, f, tier, k - 1);
      var a := FanAnchor(jitter, states, f, k - 1);
      assert Row(jitter, nodes, states, f, tier, k) == prev + e;
      RowCovers(jitter, nodes, states, f, tier, k - 1);
      assert PositionOf(a) in e;
      forall j | 0 <= j < k ensures Covered(prev + e, f.children[j].id) {
        CoveredInConcat(prev, e, f.children[j].id);
      }
      if tier == Items {
        var gf := TierFan(nodes, states, a, f.side, Grandchildren);
        var block := Block(jitter, nodes, states, a, f.side, Grandchildren);
        assert e == [PositionOf(a)] + block;
        RowCovers(jitter, nodes, states, gf, Grandchildren, |gf.children|);
        forall j, g | 0 <= j < k && g in ChildrenOf(nodes, Some(f.children[j].id))
          ensures Covered(prev + e, g.id)
        {
          if j == k - 1 {
            var m :| 0 <= m < |gf.children| && gf.children[m] == g;
            assert Covered(block, gf.children[m].id);
            CoveredInConcat([PositionOf(a)], block, g.id);
          }
          CoveredInConcat(prev, e, g.id);
        }
      }
    }
  }

  /** Each configured category among the first k, and everything below it, has a position among the first k blocks. */
  lemma {:induction false} CategoryRowCovers(jitter: (string, real) -> real, nodes: seq<CvNode>, states: map<string, NodeState>,
                                             profile: Anchor, categories: seq<CvNode>, k: nat)
    requires k <= |categories|
    ensures forall j, id :: 0 <= j < k && InBlockOf(nodes, categories[j], id) ==>
      Covered(CategoryRow(jitter, nodes, states, profile, categories, k), id)
  {
    if k > 0 {
      CategoryRowCovers(jitter, nodes, states, profile, categories, k - 1);
      var prev := CategoryRow(jitter, nodes, states, profile, categories, k - 1);
      var b := CategoryBlock(jitter, nodes, states, profile, categories[k - 1]);
      assert CategoryRow(jitter, nodes, states, profile, categories, k) == prev + b;
      forall j, id | 0 <= j < k && InBlockOf(nodes, categories[j], id) ensures Covered(prev + b, id) {
        if j == k - 1 {
          CategoryBlockCovers(jitter, nodes, states, profile, categories[j], id);
        }
        CoveredInConcat(prev, b, id);
      }
    }
  }

  /** A configured category and everything below it have a position in its block. */
  lemma CategoryBlockCovers(jitter: (string, real) -> real, nodes: seq<CvNode>, states: map<string, NodeState>,
                            profile: Anchor, c: CvNode, id: string)
    requires InBlockOf(nodes, c, id)
    ensures Covered(CategoryBlock(jitter, nodes, states, profile, c), id)
  {
    var slot := CategoryConfig(c.id).value;
    var a := CategoryAnchor(jitter, states, profile, c, slot);
    var block := Block(jitter, nodes, states, a, slot.side, Items);
    assert CategoryBlock(jitter, nodes, states, profile, c) == [PositionOf(a)] + block;
    if id == c.id {
      assert PositionOf(a) in [PositionOf(a)];
    } else {
      var f := TierFan(nodes, states, a, slot.side, Items);
      RowCovers(jitter, nodes, states, f, Items, |f.children|);
      var i :| i in ChildrenOf(nodes, Some(c.id)) && (i.id == id || ChildId(nodes, i, id));
      var m :| 0 <= m < |f.children| && f.children[m] == i;
      if i.id != id {
        var g :| g in ChildrenOf(nodes, Some(i.id)) && g.id == id;
        assert Covered(block, g.id);
      }
    }
    CoveredInConcat([PositionOf(a)], block, id);
  }

  /**
   * A node id has a position exactly when it is placeable: the profile, a
   * configured category under it, or a child or grandchild of such a category.
   */
  lemma LayoutIds(jitter: (string, real) -> real, nodes: seq<CvNode>, states: map<string, NodeState>)
    ensures forall id :: Covered(LayoutWith(jitter, nodes, states), id) <==> Placeable(nodes, id)
  {
    var r := LayoutWith(jitter, nodes, states);
    LayoutPlacesOnlyPlaceable(jitter, nodes, states);
    match FindProfile(nodes)
    case None =>
    case Some(p) =>
      var pa := ProfileAnchor(states, p);
      var categories := ChildrenOf(nodes, Some(p.id));
      var rest := CategoryRow(jitter, nodes, states, pa, categories, |categories|);
      assert r == [PositionOf(pa)] + rest;
      CategoryRowCovers(jitter, nodes, states, pa, categories, |categories|);
      forall id | Placeable(nodes, id) ensures Covered(r, id) {
        if id == p.id {
          assert PositionOf(pa) in r;
        } else {
          var c :| c in categories && CategoryConfig(c.id).Some? && (c.id == id || BelowCategory(nodes, c, id));
          var j :| 0 <= j < |categories| && categories[j] == c;
          assert InBlockOf(nodes, categories[j], id);
          CoveredInConcat([PositionOf(pa)], rest, id);
        }
      }
  }

  // ---------------------------------------------------------------------------
  // Sides

  /** `x` lies strictly on `side` of `from`: `sign(x - from) = dirX`. */
  predicate StrictlyOn(side: Side, from: real, x: real) {
    if side == Left then x < from else x > from
  }

  /**
   * A child in a fan whose horizontal jitter scale is below 100 lies strictly
   * on the fan's side of its parent: it is at least 50 away before the
   * jitter, and the jitter moves it by at most half its scale.
   */
  lemma FanChildOnSide(jitter: (string, real) -> real, states: map<string, NodeState>, f: Fan, idx: nat)
    requires JitterBounded(jitter) && idx < |f.children| && 0.0 <= f.jitterX < 100.0
    ensures StrictlyOn(f.side, f.parent.x, FanAnchor(jitter, states, f, idx).x)
  {
    var c := f.children[idx];
    var d := CalcHorizontalDistance(f.parent.node, f.parent.state, c, StateOr(states, c.id, Dormant));
    var j := jitter(c.id, f.jitterX);
    assert -0.5 * f.jitterX <= j <= 0.49 * f.jitterX;
  }

  /** The fans `computeLayout` builds for items and grandchildren jitter by 10 and 6, so their children lie on the fan's side. */
  lemma TierChildOnSide(jitter: (string, real) -> real, nodes: seq<CvNode>, states: map<string, NodeState>,
                        parent: Anchor, side: Side, tier: Tier, idx: nat)
    requires JitterBounded(jitter) && idx < |ChildrenOf(nodes, Some(parent.node.id))|
    ensures var f := TierFan(nodes, states, parent, side, tier);
      StrictlyOn(side, parent.x, FanAnchor(jitter, states, f, idx).x)
  {
    FanChildOnSide(jitter, states, TierFan(nodes, states, parent, side, tier), idx);
  }

  /** A configured category lies strictly on its slot's side of the profile's x. */
  lemma CategoryOnSide(jitter: (string, real) -> real, states: map<string, NodeState>, profile: Anchor, category: CvNode, slot: Slot)
    requires JitterBounded(jitter)
    ensures StrictlyOn(slot.side, CenterX, CategoryAnchor(jitter, states, profile, category, slot).x)
  {
    var j := jitter(category.id, 8.0);
    assert -0.5 * 8.0 <= j <= 0.49 * 8.0;
  }

  // ---------------------------------------------------------------------------
  // Spacing

  /** The jitter that is always zero: the layout with the jitter removed. */
  function NoJitter(id: string, scale: real): real {
    0.0
  }

  /** Without jitter, neighbouring siblings in a fan are exactly `spacing` apart. */
  lemma FanEvenlySpaced(states: map<string, NodeState>, f: Fan, idx: nat)
    requires idx + 1 < |f.children|
    ensures FanAnchor(NoJitter, states, f, idx + 1).y == FanAnchor(NoJitter, states, f, idx).y + f.spacing
  {
  }

  /** Without jitter, the first and last sibling of a fan are symmetric about the parent's y. */
  lemma FanCentred(states: map<string, NodeState>, f: Fan)
    requires |f.children| > 0
    ensures FanAnchor(NoJitter, states, f, 0).y + FanAnchor(NoJitter, states, f, |f.children| - 1).y == 2.0 * f.parent.y
  {
  }

  /** Without jitter, a child's x is exactly its size-aware distance from its parent on the fan's side. */
  lemma FanDistance(states: map<string, NodeState>, f: Fan, idx: nat)
    requires idx < |f.children|
    ensures var a := FanAnchor(NoJitter, states, f, idx);
      a.x == f.parent.x + DirX(f.side) * CalcHorizontalDistance(f.parent.node, f.parent.state, a.node, a.state)
  {
    var a := FanAnchor(NoJitter, states, f, idx);
    TowardIsProduct(f.parent.x, f.side, CalcHorizontalDistance(f.parent.node, f.parent.state, a.node, a.state));
  }
}
