/**
 * The size-aware graph layout (`layout.service.ts`): a size table per node
 * type and state, centre-to-centre distances, sibling spacing, a 32-bit
 * string hash driving a small deterministic jitter, and the three-level
 * layout that puts the profile in the middle, the configured categories to
 * its left or right, and their children and grandchildren further out on
 * the same side. Coordinates are exact rationals.
 */
module Layout {
  import opened Common
  import opened CvModel
  import opened Ancestry

  datatype Size = Size(width: real, height: real)

  /** The gap kept between neighbouring nodes (`MIN_GAP`). */
  const MinGap: real := 40.0

  /**
   * The entry of `NODE_SIZES` for a node type and state. Every node type has
   * an entry, so the table's 80 by 80 fallback is never taken.
   */
  function NodeSize(t: NodeType, state: NodeState): (r: Size)
    ensures state == Quickview ==> r == Size(80.0, 80.0)
    ensures state == Dormant ==> r == Size(10.0, 10.0)
    ensures state == Detailed ==> r.width >= 150.0 && r.height >= 80.0
  {
    match state
    case Dormant => Size(10.0, 10.0)
    case Quickview => Size(80.0, 80.0)
    case Detailed =>
      match t
      case Profile => Size(360.0, 420.0)
      case Category => Size(150.0, 80.0)
      case Item => Size(420.0, 300.0)
      case SkillGroup => Size(160.0, 80.0)
      case Skill => Size(200.0, 120.0)
  }

  /** `getNodeSize`: the size of a node drawn in a state. */
  function GetNodeSize(node: CvNode, state: NodeState): Size {
    NodeSize(node.Type(), state)
  }

  function Rank(state: NodeState): nat {
    match state
    case Dormant => 0
    case Quickview => 1
    case Detailed => 2
  }

  /** For every node type the width grows strictly from dormant to quickview to detailed. */
  lemma WidthGrowsWithState(t: NodeType, s: NodeState, u: NodeState)
    requires Rank(s) < Rank(u)
    ensures NodeSize(t, s).width < NodeSize(t, u).width
  {
  }

  /** `calcHorizontalDistance`: half the parent's width, the gap, and half the child's width. */
  function CalcHorizontalDistance(parent: CvNode, parentState: NodeState, child: CvNode, childState: NodeState): (r: real)
    ensures r >= 50.0
  {
    GetNodeSize(parent, parentState).width / 2.0 + MinGap + GetNodeSize(child, childState).width / 2.0
  }

  /** A detailed parent pushes its child further away than a quickview parent does. */
  lemma DetailedParentIsFurther(parent: CvNode, child: CvNode, childState: NodeState)
    ensures CalcHorizontalDistance(parent, Detailed, child, childState)
          > CalcHorizontalDistance(parent, Quickview, child, childState)
  {
    WidthGrowsWithState(parent.Type(), Quickview, Detailed);
  }

  // ---------------------------------------------------------------------------
  // States and vertical spacing

  /** `states.get(id) || fallback`. */
  function StateOr(states: map<string, NodeState>, id: string, fallback: NodeState): NodeState {
    if id in states then states[id] else fallback
  }

  /** The tallest height among the nodes in their states (dormant when unknown); 0 for none. */
  function MaxHeight(nodes: seq<CvNode>, states: map<string, NodeState>): real {
    if nodes == [] then 0.0
    else
      var last := nodes[|nodes| - 1];
      var h := GetNodeSize(last, StateOr(states, last.id, Dormant)).height;
      var m := MaxHeight(nodes[..|nodes| - 1], states);
      if h > m then h else m
  }

  function Height(n: CvNode, states: map<string, NodeState>): real {
    GetNodeSize(n, StateOr(states, n.id, Dormant)).height
  }

  /** The maximum bounds every height and is one of them (0 for an empty list). */
  lemma {:induction false} MaxHeightIsMaximum(nodes: seq<CvNode>, states: map<string, NodeState>)
    ensures forall k :: 0 <= k < |nodes| ==> Height(nodes[k], states) <= MaxHeight(nodes, states)
    ensures nodes == [] ==> MaxHeight(nodes, states) == 0.0
    ensures nodes != [] ==> exists k :: 0 <= k < |nodes| && Height(nodes[k], states) == MaxHeight(nodes, states)
  {
    if nodes != [] {
      var front := nodes[..|nodes| - 1];
      MaxHeightIsMaximum(front, states);
      forall k | 0 <= k < |nodes| ensures Height(nodes[k], states) <= MaxHeight(nodes, states) {
        if k < |front| { assert nodes[k] == front[k]; }
      }
      if front != [] && MaxHeight(nodes, states) == MaxHeight(front, states) {
        var k :| 0 <= k < |front| && Height(front[k], states) == MaxHeight(front, states);
        assert nodes[k] == front[k];
      } else {
        assert Height(nodes[|nodes| - 1], states) == MaxHeight(nodes, states);
      }
    }
  }

  /** The spacing `calcVerticalSpacing` returns: the tallest height plus half the gap. */
  function VerticalSpacing(nodes: seq<CvNode>, states: map<string, NodeState>): real {
    MaxHeight(nodes, states) + MinGap * 0.5
  }

  /** `calcVerticalSpacing`: the loop keeping the running maximum. */
  method CalcVerticalSpacing(nodes: seq<CvNode>, states: map<string, NodeState>) returns (spacing: real)
    ensures spacing == VerticalSpacing(nodes, states)
    ensures spacing >= 20.0
  {
    var maxHeight := 0.0;
    for i := 0 to |nodes|
      invariant maxHeight == MaxHeight(nodes[..i], states)
    {
      var state := StateOr(states, nodes[i].id, Dormant);
      var size := GetNodeSize(nodes[i], state);
      assert nodes[..i + 1][..i] == nodes[..i];
      maxHeight := if size.height > maxHeight then size.height else maxHeight;
    }
    assert nodes[..|nodes|] == nodes;
    MaxHeightIsMaximum(nodes, states);
    spacing := maxHeight + MinGap * 0.5;
  }

  /** Spacing for no nodes is exactly half the gap. */
  lemma EmptySpacing(states: map<string, NodeState>)
    ensures VerticalSpacing([], states) == 20.0
  {
  }

  // ---------------------------------------------------------------------------
  // Children map

  /** `childrenMap.get(p) || []`. */
  function Lookup(m: map<Option<string>, seq<CvNode>>, p: Option<string>): seq<CvNode> {
    if p in m then m[p] else []
  }

  ghost predicate IsChildrenMap(m: map<Option<string>, seq<CvNode>>, nodes: seq<CvNode>) {
    forall p {:trigger Lookup(m, p)} :: Lookup(m, p) == ChildrenOf(nodes, p)
  }

  /** `buildChildrenMap`: one pass appending each node to its parent's list. */
  method BuildChildrenMap(nodes: seq<CvNode>) returns (m: map<Option<string>, seq<CvNode>>)
    ensures IsChildrenMap(m, nodes)
    ensures forall p :: p in m ==> m[p] != []
  {
    m := map[];
    for i := 0 to |nodes|
      invariant forall p :: Lookup(m, p) == ChildrenOf(nodes[..i], p)
      invariant forall p :: p in m ==> m[p] != []
    {
      var node := nodes[i];
      var children := Lookup(m, node.parentId);
      m := m[node.parentId := children + [node]];
      assert nodes[..i + 1][..i] == nodes[..i];
      assert nodes[..i + 1][i] == node;
    }
    assert nodes[..|nodes|] == nodes;
  }

  // ---------------------------------------------------------------------------
  // Hash and jitter

  const TwoTo32: int := 0x1_0000_0000
  const TwoTo31: int := 0x8000_0000

  /** JavaScript's ToInt32: the 32-bit two's-complement value congruent to x. */
  function Wrap32(x: int): (r: int)
    ensures -TwoTo31 <= r < TwoTo31
  {
    var m := x % TwoTo32;
    if m >= TwoTo31 then m - TwoTo32 else m
  }

  /** Wrapping changes a value by a multiple of 2^32. */
  lemma Wrap32Congruence(x: int)
    ensures (x - Wrap32(x)) % TwoTo32 == 0
  {
  }

  /** Congruent inputs wrap to the same 32-bit value. */
  lemma Wrap32Congruent(a: int, b: int)
    requires (a - b) % TwoTo32 == 0
    ensures Wrap32(a) == Wrap32(b)
  {
    var q := (a - b) / TwoTo32;
    assert a == b + q * TwoTo32;
    ModShift(b, q);
  }

  lemma ModShift(b: int, q: int)
    ensures (b + q * TwoTo32) % TwoTo32 == b % TwoTo32
  {
  }

  /** The UTF-16 code units of a string (`charCodeAt` for each index). */
  function CodeUnits(s: string): (r: seq<int>)
    ensures forall k :: 0 <= k < |r| ==> 0 <= r[k] < 0x1_0000
  {
    if s == [] then []
    else
      var c := s[|s| - 1] as int;
      CodeUnits(s[..|s| - 1])
      + (if c < 0x1_0000 then [c] else [0xD800 + (c - 0x1_0000) / 0x400, 0xDC00 + (c - 0x1_0000) % 0x400])
  }

  /** The hash before the absolute value: `h := wrap32(31 * h + unit)` over the code units. */
  function HashFold(units: seq<int>): (r: int)
    ensures -TwoTo31 <= r < TwoTo31
  {
    if units == [] then 0
    else Wrap32(31 * HashFold(units[..|units| - 1]) + units[|units| - 1])
  }

  function Abs(x: int): nat {
    if x < 0 then -x else x
  }

  /** The value `simpleHash` returns. */
  function SimpleHashOf(s: string): (r: nat)
    ensures r <= TwoTo31
  {
    Abs(HashFold(CodeUnits(s)))
  }

  /** One step of the loop, written as the source writes it: `((h << 5) - h) + c`, then `h & h`. */
  lemma ShiftStep(h: int, c: int)
    requires -TwoTo31 <= h < TwoTo31
    ensures Wrap32(Wrap32(h * 32) - h + c) == Wrap32(31 * h + c)
  {
    Wrap32Congruence(h * 32);
    Wrap32Congruent(Wrap32(h * 32) - h + c, 31 * h + c);
  }

  /** `simpleHash`: the shift-and-subtract loop over the code units, then the absolute value. */
  method SimpleHash(str: string) returns (h: nat)
    ensures h == SimpleHashOf(str)
  {
    var units := CodeUnits(str);
    var hash := 0;
    for i := 0 to |units|
      invariant hash == HashFold(units[..i])
    {
      ShiftStep(hash, units[i]);
      assert units[..i + 1][..i] == units[..i];
      hash := Wrap32(Wrap32(hash * 32) - hash + units[i]);
    }
    assert units[..|units|] == units;
    h := Abs(hash);
  }

  /**
   * The jitter for a hash value `h`: its last two decimal digits mapped onto
   * [-scale/2, scale/2).
   */
  function JitterFromHash(h: nat, scale: real): (r: real)
    ensures scale >= 0.0 ==> -0.5 * scale <= r <= 0.49 * scale
  {
    var u := ((h % 100) as real) / 100.0 - 0.5;
    ScaleBounds(u, scale);
    u * scale
  }

  /** `jitter(id, scale)`. */
  function JitterOf(id: string, scale: real): real {
    JitterFromHash(SimpleHashOf(id), scale)
  }

  lemma ScaleBounds(u: real, scale: real)
    requires -0.5 <= u <= 0.49
    ensures scale >= 0.0 ==> -0.5 * scale <= u * scale <= 0.49 * scale
  {
    if scale >= 0.0 {
      assert (0.49 - u) * scale >= 0.0;
      assert (u + 0.5) * scale >= 0.0;
    }
  }

  method Jitter(id: string, scale: real) returns (r: real)
    ensures r == JitterOf(id, scale)
  {
    var h := SimpleHash(id);
    r := (((h % 100) as real) / 100.0 - 0.5) * scale;
  }

  // ---------------------------------------------------------------------------
  // Node state (this file's own copy, without inspector mode)

  /**
   * `computeNodeState` of the layout: with no selection the node `profile`
   * is detailed and its children quickview; with a selection the selected
   * node is detailed and its children and ancestors quickview; every other
   * node is dormant.
   */
  function ComputeNodeState(nodeId: string, selectedId: Option<string>, nodes: seq<CvNode>): (r: NodeState)
    ensures r == Detailed <==> (if Truthy(selectedId) then nodeId == selectedId.value else nodeId == "profile")
    ensures r == Quickview <==>
      if Truthy(selectedId) then
        nodeId != selectedId.value
        && (ParentIdOf(nodes, nodeId) == selectedId || nodeId in AncestorIds(nodes, selectedId.value))
      else nodeId != "profile" && ParentIdOf(nodes, nodeId) == Some("profile")
  {
    if !Truthy(selectedId) then
      if nodeId == "profile" then Detailed
      else if ParentIdOf(nodes, nodeId) == Some("profile") then Quickview
      else Dormant
    else if nodeId == selectedId.value then Detailed
    else if ParentIdOf(nodes, nodeId) == selectedId then Quickview
    else if nodeId in AncestorIds(nodes, selectedId.value) then Quickview
    else Dormant
  }

  // ---------------------------------------------------------------------------
  // computeLayout

  /** Where the profile goes (`centerX`, `centerY`). */
  const CenterX: real := 400.0
  const CenterY: real := 300.0

  /** The side of the profile a branch grows on: `dirX` is -1 on the left and 1 on the right. */
  datatype Side = Left | Right

  function DirX(side: Side): real {
    if side == Left then -1.0 else 1.0
  }

  /** `x + dirX * d`: `d` further out on the side. */
  function Toward(x: real, side: Side, d: real): (r: real)
    ensures d >= 0.0 ==> if side == Left then r <= x else r >= x
  {
    if side == Left then x - d else x + d
  }

  /** Moving toward a side is the multiplication by `dirX` of the source. */
  lemma TowardIsProduct(x: real, side: Side, d: real)
    ensures Toward(x, side, d) == x + DirX(side) * d
  {
  }

  /** A category's side and vertical offset from the profile. */
  datatype Slot = Slot(side: Side, offsetY: real)

  /** `categoryConfig[id]`: only the four built-in category ids are placed. */
  function CategoryConfig(id: string): (r: Option<Slot>)
    ensures r.Some? <==> id in {"work", "skills", "education", "languages"}
  {
    if id == "work" then Some(Slot(Left, -100.0))
    else if id == "skills" then Some(Slot(Right, -150.0))
    else if id == "education" then Some(Slot(Right, 200.0))
    else if id == "languages" then Some(Slot(Left, 200.0))
    else None
  }

  /** A placed node with the state it is drawn in and its coordinates. */
  datatype Anchor = Anchor(node: CvNode, state: NodeState, x: real, y: real)

  function PositionOf(a: Anchor): NodePosition {
    NodePosition(a.node.id, a.x, a.y)
  }

  /** `nodes.find(n => n.type === 'profile')`. */
  function FindProfile(nodes: seq<CvNode>): (r: Option<CvNode>)
    ensures r.Some? ==> r.value in nodes && r.value.Type() == Profile
    ensures r.None? <==> forall k :: 0 <= k < |nodes| ==> nodes[k].Type() != Profile
  {
    if nodes == [] then None
    else if nodes[0].Type() == Profile then Some(nodes[0])
    else
      var r := FindProfile(nodes[1..]);
      assert r.None? ==> forall k :: 0 <= k < |nodes| ==> nodes[k].Type() != Profile by {
        if r.None? {
          forall k | 0 <= k < |nodes| ensures nodes[k].Type() != Profile {
            if k > 0 { assert nodes[k] == nodes[1..][k - 1]; }
          }
        }
      }
      r
  }

  /** The x of a child placed on a side of its parent: the size-aware distance plus jitter. */
  function ChildX(jitter: (string, real) -> real, states: map<string, NodeState>, parent: Anchor, side: Side, child: CvNode, jitterScale: real): real {
    Toward(parent.x, side, CalcHorizontalDistance(parent.node, parent.state, child, StateOr(states, child.id, Dormant)))
    + jitter(child.id, jitterScale)
  }

  /**
   * `n * spacing`, written as n spacings laid end to end so that the layout's
   * definitions stay linear; `SpacingsIsProduct` gives back the product.
   */
  function Spacings(n: nat, spacing: real): real {
    if n == 0 then 0.0 else Spacings(n - 1, spacing) + spacing
  }

  lemma {:induction false} SpacingsIsProduct(n: nat, spacing: real)
    ensures Spacings(n, spacing) == (n as real) * spacing
  {
    if n > 0 {
      SpacingsIsProduct(n - 1, spacing);
    }
  }

  /**
   * The y of the first of `count` siblings spread `spacing` apart and centred
   * on `parentY`: `parentY - ((count - 1) * spacing) / 2`.
   */
  function StartY(parentY: real, count: nat, spacing: real): real {
    parentY - (Spacings(count, spacing) - spacing) / 2.0
  }

  /** `parentY - ((count - 1) * spacing) / 2`: the `totalHeight` and `startY` of a child fan. */
  method ColumnStart(parentY: real, count: nat, spacing: real) returns (startY: real)
    ensures startY == StartY(parentY, count, spacing)
  {
    SpacingsIsProduct(count, spacing);
    var totalHeight := (count as real - 1.0) * spacing;
    startY := parentY - totalHeight / 2.0;
  }

  /** A fan of siblings: where they hang, which way they go, and how they are spread and jittered. */
  datatype Fan = Fan(parent: Anchor, side: Side, children: seq<CvNode>, spacing: real,
                     jitterX: real, jitterY: real)

  /** The anchor of the child at index `idx` of a fan. */
  function FanAnchor(jitter: (string, real) -> real, states: map<string, NodeState>, f: Fan, idx: nat): Anchor
    requires idx < |f.children|
  {
    var c := f.children[idx];
    Anchor(c, StateOr(states, c.id, Dormant),
           ChildX(jitter, states, f.parent, f.side, c, f.jitterX),
           StartY(f.parent.y, |f.children|, f.spacing) + Spacings(idx, f.spacing) + jitter(c.id + "y", f.jitterY))
  }

  /** The anchor of a fan's child is given by its two coordinates. */
  lemma FanAnchorIs(jitter: (string, real) -> real, states: map<string, NodeState>, f: Fan, idx: nat, x: real, y: real)
    requires idx < |f.children|
    requires x == ChildX(jitter, states, f.parent, f.side, f.children[idx], f.jitterX)
    requires y == StartY(f.parent.y, |f.children|, f.spacing) + Spacings(idx, f.spacing)
                  + jitter(f.children[idx].id + "y", f.jitterY)
    ensures FanAnchor(jitter, states, f, idx) == Anchor(f.children[idx], StateOr(states, f.children[idx].id, Dormant), x, y)
  {
  }

  /** The two levels below a category: its items, and the items' own children. */
  datatype Tier = Items | Grandchildren

  function TierRank(t: Tier): nat {
    if t == Items then 1 else 0
  }

  /**
   * The fan of an anchor's children on a tier: items keep the full spacing
   * and jitter 10 across and 8 down; grandchildren use 0.7 of the spacing
   * and jitter 6 across and 5 down.
   */
  function TierFan(nodes: seq<CvNode>, states: map<string, NodeState>, parent: Anchor, side: Side, tier: Tier): Fan {
    var children := ChildrenOf(nodes, Some(parent.node.id));
    var spacing := VerticalSpacing(children, states);
    match tier
    case Items => Fan(parent, side, children, spacing, 10.0, 8.0)
    case Grandchildren => Fan(parent, side, children, spacing * 0.7, 6.0, 5.0)
  }

  /** Positions of an anchor's children on a tier, each item followed by its own children. */
  function Block(jitter: (string, real) -> real, nodes: seq<CvNode>, states: map<string, NodeState>, parent: Anchor,
                 side: Side, tier: Tier): seq<NodePosition>
    decreases TierRank(tier), 1, 0
  {
    var f := TierFan(nodes, states, parent, side, tier);
    Row(jitter, nodes, states, f, tier, |f.children|)
  }

  /** Positions of the first k children of a fan and, on the item tier, of their children. */
  function Row(jitter: (string, real) -> real, nodes: seq<CvNode>, states: map<string, NodeState>, f: Fan, tier: Tier, k: nat): seq<NodePosition>
    requires k <= |f.children|
    decreases TierRank(tier), 0, k
  {
    if k == 0 then []
    else Row(jitter, nodes, states, f, tier, k - 1) + Entry(jitter, nodes, states, f, tier, k - 1)
  }

  /** The position of a fan's child at `idx` and, on the item tier, the positions of its own children. */
  function Entry(jitter: (string, real) -> real, nodes: seq<CvNode>, states: map<string, NodeState>, f: Fan, tier: Tier, idx: nat): seq<NodePosition>
    requires idx < |f.children|
    decreases TierRank(tier), 0, idx
  {
    var a := FanAnchor(jitter, states, f, idx);
    if tier == Items then [PositionOf(a)] + Block(jitter, nodes, states, a, f.side, Grandchildren)
    else [PositionOf(a)]
  }

  /** Where a configured category goes: its slot's side at the size-aware distance, plus jitter. */
  function CategoryAnchor(jitter: (string, real) -> real, states: map<string, NodeState>, profile: Anchor, category: CvNode, slot: Slot): Anchor {
    var st := StateOr(states, category.id, Dormant);
    Anchor(category, st,
           Toward(CenterX, slot.side, CalcHorizontalDistance(profile.node, profile.state, category, st)) + jitter(category.id, 8.0),
           CenterY + slot.offsetY + jitter(category.id + "y", 15.0))
  }

  /** A category's own position followed by its subtree's, or nothing for an unconfigured id. */
  function CategoryBlock(jitter: (string, real) -> real, nodes: seq<CvNode>, states: map<string, NodeState>, profile: Anchor, category: CvNode): seq<NodePosition> {
    match CategoryConfig(category.id)
    case None => []
    case Some(slot) =>
      var a := CategoryAnchor(jitter, states, profile, category, slot);
      [PositionOf(a)] + Block(jitter, nodes, states, a, slot.side, Items)
  }

  function CategoryRow(jitter: (string, real) -> real, nodes: seq<CvNode>, states: map<string, NodeState>, profile: Anchor,
                       categories: seq<CvNode>, k: nat): seq<NodePosition>
    requires k <= |categories|
  {
    if k == 0 then []
    else CategoryRow(jitter, nodes, states, profile, categories, k - 1) + CategoryBlock(jitter, nodes, states, profile, categories[k - 1])
  }

  function ProfileAnchor(states: map<string, NodeState>, profile: CvNode): Anchor {
    Anchor(profile, StateOr(states, profile.id, Detailed), CenterX, CenterY)
  }

  /** The layout for given node states. */
  function LayoutWith(jitter: (string, real) -> real, nodes: seq<CvNode>, states: map<string, NodeState>): seq<NodePosition> {
    match FindProfile(nodes)
    case None => []
    case Some(p) =>
      var pa := ProfileAnchor(states, p);
      var categories := ChildrenOf(nodes, Some(p.id));
      [PositionOf(pa)] + CategoryRow(jitter, nodes, states, pa, categories, |categories|)
  }

  /** The state of every node id, as `computeLayout` precomputes them. */
  function StateTable(nodes: seq<CvNode>, selectedId: Option<string>): map<string, NodeState> {
    map id | id in IdSet(nodes) :: ComputeNodeState(id, selectedId, nodes)
  }

  /** The positions `computeLayout(nodes, selectedId)` returns. */
  function LayoutOf(nodes: seq<CvNode>, selectedId: Option<string>): seq<NodePosition> {
    LayoutWith(JitterOf, nodes, StateTable(nodes, selectedId))
  }

  /**
   * The body both child `forEach`s share: the child's state, its size-aware
   * distance from the parent on the parent's side plus jitter across, and its
   * slot below the previous sibling plus jitter down.
   */
  method PlaceInFan(jitter: (string, real) -> real, states: map<string, NodeState>, ghost f: Fan, parent: Anchor, side: Side,
                    child: CvNode, idx: nat, startY: real, spacing: real, jitterX: real, jitterY: real)
    returns (a: Anchor)
    requires idx < |f.children| && f.children[idx] == child
    requires f.parent == parent && f.side == side && f.spacing == spacing
    requires f.jitterX == jitterX && f.jitterY == jitterY
    requires startY == StartY(parent.y, |f.children|, spacing)
    ensures a == FanAnchor(jitter, states, f, idx)
  {
    var childState := StateOr(states, child.id, Dormant);
    var distance := CalcHorizontalDistance(parent.node, parent.state, child, childState);
    var x := Toward(parent.x, side, distance) + jitter(child.id, jitterX);
    var y := startY + (idx as real) * spacing + jitter(child.id + "y", jitterY);
    SpacingsIsProduct(idx, spacing);
    FanAnchorIs(jitter, states, f, idx, x, y);
    a := Anchor(child, childState, x, y);
  }

  /** The grandchildren `forEach`. */
  method PlaceGrandchildren(jitter: (string, real) -> real, nodes: seq<CvNode>, childrenMap: map<Option<string>, seq<CvNode>>,
                            states: map<string, NodeState>, item: Anchor, side: Side)
    returns (out: seq<NodePosition>)
    requires IsChildrenMap(childrenMap, nodes)
    ensures out == Block(jitter, nodes, states, item, side, Grandchildren)
  {
    ghost var f := TierFan(nodes, states, item, side, Grandchildren);
    var grandchildren := Lookup(childrenMap, Some(item.node.id));
    assert grandchildren == f.children;
    out := [];
    if |grandchildren| == 0 {
      return;
    }
    var spacing := CalcVerticalSpacing(grandchildren, states);
    spacing := spacing * 0.7;
    var startY := ColumnStart(item.y, |grandchildren|, spacing);
    assert |f.children| == |grandchildren|;
    assert f.parent == item;
    assert spacing == f.spacing;
    assert startY == StartY(item.y, |f.children|, f.spacing);
    for idx := 0 to |grandchildren|
      invariant out == Row(jitter, nodes, states, f, Grandchildren, idx)
    {
      var a := PlaceInFan(jitter, states, f, item, side, grandchildren[idx], idx, startY, spacing, 6.0, 5.0);
      out := out + [PositionOf(a)];
    }
  }

  /** The items `forEach` of one category. */
  method PlaceItems(jitter: (string, real) -> real, nodes: seq<CvNode>, childrenMap: map<Option<string>, seq<CvNode>>,
                    states: map<string, NodeState>, category: Anchor, side: Side)
    returns (out: seq<NodePosition>)
    requires IsChildrenMap(childrenMap, nodes)
    ensures out == Block(jitter, nodes, states, category, side, Items)
  {
    ghost var f := TierFan(nodes, states, category, side, Items);
    var items := Lookup(childrenMap, Some(category.node.id));
    assert items == f.children;
    out := [];
    if |items| == 0 {
      return;
    }
    var spacing := CalcVerticalSpacing(items, states);
    var startY := ColumnStart(category.y, |items|, spacing);
    assert |f.children| == |items|;
    assert f.parent == category;
    assert spacing == f.spacing;
    assert startY == StartY(category.y, |f.children|, f.spacing);
    for idx := 0 to |items|
      invariant out == Row(jitter, nodes, states, f, Items, idx)
    {
      var placed := PlaceItem(jitter, nodes, childrenMap, states, f, category, side, items[idx], idx, startY, spacing);
      out := out + placed;
    }
  }

  /** The items `forEach` callback: the item's own position, then its grandchildren's. */
  method PlaceItem(jitter: (string, real) -> real, nodes: seq<CvNode>, childrenMap: map<Option<string>, seq<CvNode>>,
                   states: map<string, NodeState>, ghost f: Fan, category: Anchor, side: Side, item: CvNode,
                   idx: nat, startY: real, spacing: real)
    returns (placed: seq<NodePosition>)
    requires IsChildrenMap(childrenMap, nodes)
    requires idx < |f.children| && f.children[idx] == item
    requires f.parent == category && f.side == side && f.spacing == spacing
    requires f.jitterX == 10.0 && f.jitterY == 8.0
    requires startY == StartY(category.y, |f.children|, spacing)
    ensures placed == Entry(jitter, nodes, states, f, Items, idx)
  {
    var anchor := PlaceInFan(jitter, states, f, category, side, item, idx, startY, spacing, 10.0, 8.0);
    var below := PlaceGrandchildren(jitter, nodes, childrenMap, states, anchor, side);
    placed := [PositionOf(anchor)] + below;
  }

  /** The categories `forEach` body: skip unconfigured ids, else place the category and its subtree. */
  method PlaceCategory(jitter: (string, real) -> real, nodes: seq<CvNode>, childrenMap: map<Option<string>, seq<CvNode>>,
                       states: map<string, NodeState>, profile: Anchor, category: CvNode)
    returns (out: seq<NodePosition>)
    requires IsChildrenMap(childrenMap, nodes)
    ensures out == CategoryBlock(jitter, nodes, states, profile, category)
  {
    var cfg := CategoryConfig(category.id);
    if cfg.None? {
      return [];
    }
    var categoryState := StateOr(states, category.id, Dormant);
    var distance := CalcHorizontalDistance(profile.node, profile.state, category, categoryState);
    var jitterX := jitter(category.id, 8.0);
    var jitterY := jitter(category.id + "y", 15.0);
    var x := Toward(CenterX, cfg.value.side, distance) + jitterX;
    var y := CenterY + cfg.value.offsetY + jitterY;
    var anchor := Anchor(category, categoryState, x, y);
    assert anchor == CategoryAnchor(jitter, states, profile, category, cfg.value);
    var below := PlaceItems(jitter, nodes, childrenMap, states, anchor, cfg.value.side);
    out := [NodePosition(category.id, x, y)] + below;
    assert CategoryBlock(jitter, nodes, states, profile, category) == [PositionOf(anchor)] + Block(jitter, nodes, states, anchor, cfg.value.side, Items);
  }

  /** The states loop of `computeLayout`: every node id mapped to its state. */
  method ComputeStates(nodes: seq<CvNode>, selectedId: Option<string>) returns (nodeStates: map<string, NodeState>)
    ensures nodeStates == StateTable(nodes, selectedId)
  {
    nodeStates := map[];
    for i := 0 to |nodes|
      invariant nodeStates == map id | id in IdSet(nodes[..i]) :: ComputeNodeState(id, selectedId, nodes)
    {
      IdSetStep(nodes, i);
      nodeStates := nodeStates[nodes[i].id := ComputeNodeState(nodes[i].id, selectedId, nodes)];
    }
    assert nodes[..|nodes|] == nodes;
  }

  /** `computeLayout` with the jitter it applies as a parameter. */
  method ComputeLayoutWith(jitter: (string, real) -> real, nodes: seq<CvNode>, selectedId: Option<string>)
    returns (positions: seq<NodePosition>)
    ensures positions == LayoutWith(jitter, nodes, StateTable(nodes, selectedId))
  {
    positions := [];
    var childrenMap := BuildChildrenMap(nodes);
    var nodeStates := ComputeStates(nodes, selectedId);
    var profile := FindProfile(nodes);
    if profile.None? {
      return;
    }
    var profileState := StateOr(nodeStates, profile.value.id, Detailed);
    var profileAnchor := Anchor(profile.value, profileState, CenterX, CenterY);
    positions := positions + [NodePosition(profile.value.id, CenterX, CenterY)];
    var categories := Lookup(childrenMap, Some(profile.value.id));
    var placed := PlaceCategories(jitter, nodes, childrenMap, nodeStates, profileAnchor, categories);
    positions := positions + placed;
  }

  /** The categories `forEach` of `computeLayout`. */
  method PlaceCategories(jitter: (string, real) -> real, nodes: seq<CvNode>, childrenMap: map<Option<string>, seq<CvNode>>,
                         states: map<string, NodeState>, profile: Anchor, categories: seq<CvNode>)
    returns (out: seq<NodePosition>)
    requires IsChildrenMap(childrenMap, nodes)
    ensures out == CategoryRow(jitter, nodes, states, profile, categories, |categories|)
  {
    out := [];
    for k := 0 to |categories|
      invariant out == CategoryRow(jitter, nodes, states, profile, categories, k)
    {
      var block := PlaceCategory(jitter, nodes, childrenMap, states, profile, categories[k]);
      CategoryRowStep(jitter, nodes, states, profile, categories, k);
      out := out + block;
    }
  }

  lemma CategoryRowStep(jitter: (string, real) -> real, nodes: seq<CvNode>, states: map<string, NodeState>,
                        profile: Anchor, categories: seq<CvNode>, k: nat)
    requires k < |categories|
    ensures CategoryRow(jitter, nodes, states, profile, categories, k + 1)
         == CategoryRow(jitter, nodes, states, profile, categories, k) + CategoryBlock(jitter, nodes, states, profile, categories[k])
  {
  }

  /** `computeLayout`: the layout with the hash-driven jitter. */
  method ComputeLayout(nodes: seq<CvNode>, selectedId: Option<string>) returns (positions: seq<NodePosition>)
    ensures positions == LayoutOf(nodes, selectedId)
  {
    positions := ComputeLayoutWith(JitterOf, nodes, selectedId);
  }

  lemma IdSetStep(nodes: seq<CvNode>, i: nat)
    requires i < |nodes|
    ensures IdSet(nodes[..i + 1]) == IdSet(nodes[..i]) + {nodes[i].id}
  {
    assert nodes[..i + 1][i] == nodes[i];
    forall id | id in IdSet(nodes[..i]) ensures id in IdSet(nodes[..i + 1]) {
      var k :| 0 <= k < i && nodes[..i][k].id == id;
      assert nodes[..i + 1][k] == nodes[..i][k];
    }
    forall id | id in IdSet(nodes[..i + 1]) ensures id in IdSet(nodes[..i]) + {nodes[i].id} {
      var k :| 0 <= k < i + 1 && nodes[..i + 1][k].id == id;
      if k < i { assert nodes[..i][k] == nodes[..i + 1][k]; }
    }
  }
}
