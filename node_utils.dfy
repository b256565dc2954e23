/**
 * Tree helpers of the frontend (`node-utils.ts`): type labels, the
 * breadcrumb chain from the root down to a node, and the section icon found
 * at the nearest category at or above a node.
 */
module NodeUtils {
  import opened Common
  import opened CvModel
  import opened Ancestry

  /** `getNodeTypeLabel`: a fixed, human-readable label per node type. */
  function GetNodeTypeLabel(t: NodeType): (r: string)
    ensures r != ""
    ensures t == Item ==> r == "Item"
  {
    match t
    case Profile => "Profile"
    case Category => "Category"
    case Item => "Item"
    case SkillGroup => "Skill Group"
    case Skill => "Skill"
  }

  /** Different types never share a label. */
  lemma TypeLabelsDistinct(s: NodeType, t: NodeType)
    requires s != t
    ensures GetNodeTypeLabel(s) != GetNodeTypeLabel(t)
  {
  }

  // ---------------------------------------------------------------------------
  // getParentChain

  /**
   * The breadcrumb from `cur` upwards, root first, taking at most `fuel`
   * further steps: while the current id is non-empty and names a node, put
   * that node in front and continue at its parentId.
   */
  function ChainFrom(nodes: seq<CvNode>, cur: Option<string>, fuel: nat): seq<CvNode>
    decreases fuel
  {
    if !Truthy(cur) then []
    else match FindById(nodes, cur.value)
      case None => []
      case Some(n) => (if fuel == 0 then [] else ChainFrom(nodes, n.parentId, fuel - 1)) + [n]
  }

  function ParentChain(nodes: seq<CvNode>, nodeId: string): seq<CvNode> {
    ChainFrom(nodes, Some(nodeId), |nodes|)
  }

  predicate RootedRef(nodes: seq<CvNode>, cur: Option<string>, fuel: nat) {
    cur.Some? ==> RootedId(nodes, cur.value, fuel)
  }

  function ChainMeasure(nodes: seq<CvNode>, cur: Option<string>, fuel: nat): nat {
    if !Truthy(cur) then 0
    else if FindById(nodes, cur.value).None? then 1
    else fuel + 2
  }

  /** `getParentChain`: the `while` loop that puts each found node in front. */
  method GetParentChain(nodeId: string, nodes: seq<CvNode>) returns (chain: seq<CvNode>)
    requires Acyclic(nodes)
    ensures chain == ParentChain(nodes, nodeId)
  {
    chain := [];
    var currentId: Option<string> := Some(nodeId);
    ghost var fuel: nat := |nodes|;
    while Truthy(currentId)
      invariant ParentChain(nodes, nodeId) == ChainFrom(nodes, currentId, fuel) + chain
      invariant RootedRef(nodes, currentId, fuel)
      decreases ChainMeasure(nodes, currentId, fuel)
    {
      var node := FindById(nodes, currentId.value);
      if node.Some? {
        fuel := ChainStep(nodes, currentId.value, fuel);
        chain := [node.value] + chain;
        currentId := node.value.parentId;
      } else {
        break;
      }
    }
  }

  /** One iteration of the loop: the found node goes in front, the walk moves to its parentId. */
  lemma ChainStep(nodes: seq<CvNode>, cur: string, fuel: nat) returns (next: nat)
    requires cur != "" && RootedId(nodes, cur, fuel) && FindById(nodes, cur).Some?
    ensures var n := FindById(nodes, cur).value;
      && ChainFrom(nodes, Some(cur), fuel) == ChainFrom(nodes, n.parentId, next) + [n]
      && RootedRef(nodes, n.parentId, next)
      && ChainMeasure(nodes, n.parentId, next) < ChainMeasure(nodes, Some(cur), fuel)
  {
    var n := FindById(nodes, cur).value;
    if fuel == 0 {
      next := 0;
      if Truthy(n.parentId) {
        assert Parent(nodes, n) == FindById(nodes, n.parentId.value);
      }
    } else {
      next := fuel - 1;
      if n.parentId.Some? {
        assert Parent(nodes, n) == FindById(nodes, n.parentId.value);
      }
    }
  }

  /** The chain is empty when the id is empty or names no node. */
  lemma ChainOfMissing(nodes: seq<CvNode>, nodeId: string)
    requires nodeId == "" || FindById(nodes, nodeId).None?
    ensures ParentChain(nodes, nodeId) == []
  {
  }

  /**
   * The chain ends with the node itself, and each entry is the first node
   * carrying its (non-empty) id.
   */
  lemma {:induction false} ChainEntries(nodes: seq<CvNode>, cur: Option<string>, fuel: nat)
    ensures var r := ChainFrom(nodes, cur, fuel);
      && (Truthy(cur) && FindById(nodes, cur.value).Some? ==> r != [] && r[|r| - 1] == FindById(nodes, cur.value).value)
      && (forall k :: 0 <= k < |r| ==> FindById(nodes, r[k].id) == Some(r[k]) && r[k].id != "")
    decreases fuel
  {
    if Truthy(cur) && FindById(nodes, cur.value).Some? {
      var n := FindById(nodes, cur.value).value;
      var up := if fuel == 0 then [] else ChainFrom(nodes, n.parentId, fuel - 1);
      if fuel > 0 {
        ChainEntries(nodes, n.parentId, fuel - 1);
      }
      assert ChainFrom(nodes, cur, fuel) == up + [n];
    }
  }

  /** The chain is a breadcrumb: each entry's parentId names the entry before it. */
  lemma {:induction false} ChainLinks(nodes: seq<CvNode>, cur: Option<string>, fuel: nat)
    ensures var r := ChainFrom(nodes, cur, fuel);
      forall k :: 0 < k < |r| ==> r[k].parentId == Some(r[k - 1].id)
    decreases fuel
  {
    var r := ChainFrom(nodes, cur, fuel);
    if Truthy(cur) && FindById(nodes, cur.value).Some? {
      var n := FindById(nodes, cur.value).value;
      var up := if fuel == 0 then [] else ChainFrom(nodes, n.parentId, fuel - 1);
      if fuel > 0 {
        ChainLinks(nodes, n.parentId, fuel - 1);
        ChainEntries(nodes, n.parentId, fuel - 1);
      }
      assert r == up + [n];
      forall k | 0 < k < |r| ensures r[k].parentId == Some(r[k - 1].id) {
        if k == |r| - 1 {
          assert up[|up| - 1] == FindById(nodes, n.parentId.value).value;
        } else {
          assert r[k] == up[k] && r[k - 1] == up[k - 1];
        }
      }
    }
  }

  /**
   * The chain starts at a root: the first entry's parentId is null or empty,
   * or names no node.
   */
  lemma {:induction false} ChainStartsAtRoot(nodes: seq<CvNode>, cur: Option<string>, fuel: nat)
    requires RootedRef(nodes, cur, fuel)
    ensures var r := ChainFrom(nodes, cur, fuel);
      r != [] ==> !Truthy(r[0].parentId) || FindById(nodes, r[0].parentId.value).None?
    decreases fuel
  {
    if Truthy(cur) && FindById(nodes, cur.value).Some? {
      var n := FindById(nodes, cur.value).value;
      if n.parentId.Some? {
        assert Parent(nodes, n) == FindById(nodes, n.parentId.value);
      }
      if fuel > 0 {
        ChainStartsAtRoot(nodes, n.parentId, fuel - 1);
      }
    }
  }

  /** Walking `j - i` links up the chain from entry j uses up that much fuel. */
  lemma {:induction false} RootedDown(nodes: seq<CvNode>, r: seq<CvNode>, i: nat, j: nat, f: nat)
    requires i <= j < |r|
    requires forall k :: 0 < k < |r| ==> Parent(nodes, r[k]) == Some(r[k - 1])
    requires Rooted(nodes, r[j], f)
    ensures f >= j - i && Rooted(nodes, r[i], f - (j - i))
    decreases j - i
  {
    if i < j {
      assert Parent(nodes, r[j]) == Some(r[j - 1]);
      RootedDown(nodes, r, i, j - 1, f - 1);
    }
  }

  /** On acyclic data no node occurs twice in the chain. */
  lemma {:induction false} ChainDistinct(nodes: seq<CvNode>, nodeId: string)
    requires Acyclic(nodes)
    ensures var r := ParentChain(nodes, nodeId);
      forall i, j :: 0 <= i < j < |r| ==> r[i] != r[j]
  {
    var r := ParentChain(nodes, nodeId);
    ChainLinks(nodes, Some(nodeId), |nodes|);
    ChainEntries(nodes, Some(nodeId), |nodes|);
    forall k | 0 < k < |r| ensures Parent(nodes, r[k]) == Some(r[k - 1]) {
      assert FindById(nodes, r[k - 1].id) == Some(r[k - 1]);
    }
    forall i, j | 0 <= i < j < |r| ensures r[i] != r[j] {
      if r[i] == r[j] {
        assert FindById(nodes, r[j].id) == Some(r[j]);
        NoReturn(nodes, r, i, j, |nodes|);
        assert false;
      }
    }
  }

  /** A chain entry cannot be rooted if the same node sits further down the chain. */
  lemma {:induction false} NoReturn(nodes: seq<CvNode>, r: seq<CvNode>, i: nat, j: nat, f: nat)
    requires i < j < |r| && r[i] == r[j]
    requires forall k :: 0 < k < |r| ==> Parent(nodes, r[k]) == Some(r[k - 1])
    ensures !Rooted(nodes, r[j], f)
    decreases f
  {
    if Rooted(nodes, r[j], f) {
      RootedDown(nodes, r, i, j, f);
      NoReturn(nodes, r, i, j, f - (j - i));
    }
  }

  /** On acyclic data the chain holds at most one entry per node. */
  lemma ChainLength(nodes: seq<CvNode>, nodeId: string)
    requires Acyclic(nodes)
    ensures |ParentChain(nodes, nodeId)| <= |nodes|
  {
    var r := ParentChain(nodes, nodeId);
    ChainDistinct(nodes, nodeId);
    ChainEntries(nodes, Some(nodeId), |nodes|);
    DistinctSubsetLength(r, nodes);
  }

  lemma {:induction false} DistinctSubsetLength<T>(r: seq<T>, s: seq<T>)
    requires forall i, j :: 0 <= i < j < |r| ==> r[i] != r[j]
    requires forall k :: 0 <= k < |r| ==> r[k] in s
    ensures |r| <= |s|
  {
    DistinctCard(r);
    SeqSetCard(s);
    var a := set k | 0 <= k < |r| :: r[k];
    var b := set k | 0 <= k < |s| :: s[k];
    assert a <= b by {
      forall x | x in a ensures x in b {
        var k :| 0 <= k < |r| && x == r[k];
        var m :| 0 <= m < |s| && s[m] == r[k];
      }
    }
    CardMono(a, b);
  }

  lemma CardMono<T>(a: set<T>, b: set<T>)
    requires a <= b
    ensures |a| <= |b|
  {
    assert b == a + (b - a);
  }

  lemma {:induction false} DistinctCard<T>(r: seq<T>)
    requires forall i, j :: 0 <= i < j < |r| ==> r[i] != r[j]
    ensures |set k | 0 <= k < |r| :: r[k]| == |r|
  {
    if r != [] {
      var front := r[..|r| - 1];
      DistinctCard(front);
      var a := set k | 0 <= k < |front| :: front[k];
      assert (set k | 0 <= k < |r| :: r[k]) == a + {r[|r| - 1]};
      assert r[|r| - 1] !in a;
    }
  }

  lemma {:induction false} SeqSetCard<T>(s: seq<T>)
    ensures |set k | 0 <= k < |s| :: s[k]| <= |s|
  {
    if s != [] {
      var front := s[..|s| - 1];
      SeqSetCard(front);
      assert (set k | 0 <= k < |s| :: s[k]) == (set k | 0 <= k < |front| :: front[k]) + {s[|s| - 1]};
    }
  }

  // ---------------------------------------------------------------------------
  // getSectionIcon

  /**
   * The nearest category at or above `n`, taking at most `fuel` parent steps:
   * `n` itself when it is a category, otherwise the nearest category above the
   * node its parentId names.
   */
  function NearestCategory(nodes: seq<CvNode>, n: CvNode, fuel: nat): (r: Option<CvNode>)
    ensures r.Some? ==> r.value.Type() == Category
    ensures n.Type() == Category ==> r == Some(n)
    decreases fuel
  {
    if n.Type() == Category then Some(n)
    else match Parent(nodes, n)
      case None => None
      case Some(p) => if fuel == 0 then None else NearestCategory(nodes, p, fuel - 1)
  }

  /** `sections.find(s => s.id === id)`. */
  function FindSection(sections: seq<Section>, id: string): (r: Option<Section>)
    ensures r.Some? ==> r.value in sections && r.value.id == id
    ensures r.None? ==> forall s :: s in sections ==> s.id != id
  {
    if sections == [] then None
    else if sections[0].id == id then Some(sections[0])
    else FindSection(sections[1..], id)
  }

  /** The icon of the category's section, when the category has a sectionId, the section exists and its icon is non-empty. */
  function CategoryIcon(sections: seq<Section>, c: Option<CvNode>): (r: Option<string>)
    ensures r.Some? ==> r.value != ""
  {
    if c.Some? && c.value.Type() == Category && c.value.details.sectionId.Some? then
      var section := FindSection(sections, c.value.details.sectionId.value);
      if section.Some? && section.value.icon != "" then Some(section.value.icon) else None
    else None
  }

  /** The node and its ancestors, given `|nodes| + 1` steps: the node itself may lie outside `nodes`. */
  function SectionIcon(node: CvNode, nodes: seq<CvNode>, sections: seq<Section>): Option<string> {
    CategoryIcon(sections, NearestCategory(nodes, node, |nodes| + 1))
  }

  function IconMeasure(current: Option<CvNode>, fuel: nat): nat {
    if current.None? then 0 else fuel + 1
  }

  /** `getSectionIcon`: the `while` loop climbing to a category, then the section lookup. */
  method GetSectionIcon(node: CvNode, nodes: seq<CvNode>, sections: seq<Section>) returns (icon: Option<string>)
    requires Acyclic(nodes)
    ensures icon == SectionIcon(node, nodes, sections)
  {
    var current: Option<CvNode> := Some(node);
    ghost var fuel: nat := |nodes| + 1;
    StartRooted(node, nodes);
    while current.Some? && current.value.Type() != Category
      invariant current.Some? ==> Rooted(nodes, current.value, fuel)
      invariant NearestCategory(nodes, node, |nodes| + 1) ==
                (if current.Some? then NearestCategory(nodes, current.value, fuel) else None)
      decreases IconMeasure(current, fuel)
    {
      current := Parent(nodes, current.value);
      if current.Some? {
        fuel := fuel - 1;
      }
    }
    if current.Some? && current.value.Type() == Category && current.value.details.sectionId.Some? {
      var section := FindSection(sections, current.value.details.sectionId.value);
      if section.Some? && section.value.icon != "" {
        icon := Some(section.value.icon);
      } else {
        icon := None;
      }
    } else {
      icon := None;
    }
  }

  /** Any node, inside `nodes` or not, is rooted with one step more than the nodes' own bound. */
  lemma StartRooted(node: CvNode, nodes: seq<CvNode>)
    requires Acyclic(nodes)
    ensures Rooted(nodes, node, |nodes| + 1)
  {
    if Parent(nodes, node).Some? {
      RootedMonotone(nodes, Parent(nodes, node).value, |nodes|, |nodes|);
    }
  }

  /** Extra fuel never changes the nearest category of a rooted node. */
  lemma {:induction false} NearestCategoryFuel(nodes: seq<CvNode>, n: CvNode, f: nat, g: nat)
    requires Rooted(nodes, n, f) && f <= g
    ensures NearestCategory(nodes, n, f) == NearestCategory(nodes, n, g)
    decreases f
  {
    if n.Type() != Category && Parent(nodes, n).Some? {
      NearestCategoryFuel(nodes, Parent(nodes, n).value, f - 1, g - 1);
    }
  }

  /**
   * On acyclic data the section icon of a category is its own section's icon,
   * and that of any other node is the icon found from the node its parentId
   * names, or null when that names no node.
   */
  lemma SectionIconUnfold(node: CvNode, nodes: seq<CvNode>, sections: seq<Section>)
    requires Acyclic(nodes)
    ensures SectionIcon(node, nodes, sections) ==
      if node.Type() == Category then CategoryIcon(sections, Some(node))
      else if Parent(nodes, node).None? then None
      else SectionIcon(Parent(nodes, node).value, nodes, sections)
  {
    if node.Type() != Category && Parent(nodes, node).Some? {
      var p := Parent(nodes, node).value;
      assert Rooted(nodes, p, |nodes|);
      NearestCategoryFuel(nodes, p, |nodes|, |nodes| + 1);
    }
  }
}
