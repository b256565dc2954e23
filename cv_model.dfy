/**
 * The frontend's CV graph data (`cv.types.ts`, `graph.types.ts`): five node
 * kinds linked by `parentId`, positions kept apart from content, and the three
 * visual states a node can be drawn in.
 */
module CvModel {
  import opened Common

  datatype NodeType = Profile | Category | Item | SkillGroup | Skill

  /** The string tag of each node type, as it appears in `CVNodeType`. */
  function TypeName(t: NodeType): string {
    match t
    case Profile => "profile"
    case Category => "category"
    case Item => "item"
    case SkillGroup => "skill-group"
    case Skill => "skill"
  }

  lemma TypeNameInjective(s: NodeType, t: NodeType)
    requires TypeName(s) == TypeName(t)
    ensures s == t
  {
  }

  datatype NodeState = Detailed | Quickview | Dormant

  /** The type-specific fields of each node kind (an item's `location` is `itemLocation`). */
  datatype Details =
    | ProfileDetails(name: string, title: string, subtitle: string, experience: string,
                     email: string, location: string, photoUrl: string)
    | CategoryDetails(sectionId: Option<string>)
    | ItemDetails(company: Option<string>, dateRange: Option<string>, itemLocation: Option<string>,
                  highlights: Option<seq<string>>, technologies: Option<seq<string>>)
    | SkillGroupDetails(proficiencyLevel: Option<string>)
    | SkillDetails(proficiencyLevel: Option<string>, yearsOfExperience: Option<int>)

  /**
   * A CV node. `labelText` is the source's `label` (a reserved word in Dafny);
   * `isDraft` is false where the source leaves the flag undefined, which every
   * test the application makes on it treats alike.
   */
  datatype CvNode = CvNode(id: string, parentId: Option<string>, labelText: string,
                           description: Option<string>, isDraft: bool, details: Details)
  {
    function Type(): NodeType {
      match details
      case ProfileDetails(_, _, _, _, _, _, _) => Profile
      case CategoryDetails(_) => Category
      case ItemDetails(_, _, _, _, _) => Item
      case SkillGroupDetails(_) => SkillGroup
      case SkillDetails(_, _) => Skill
    }
  }

  datatype NodePosition = NodePosition(nodeId: string, x: real, y: real)

  datatype CvData = CvData(nodes: seq<CvNode>, positions: seq<NodePosition>)

  /** An entry of the fixed section catalogue (`CV_SECTIONS`). */
  datatype Section = Section(id: string, labelText: string, icon: string)

  /** `nodes.find(n => n.id === id)`: the first node carrying the id. */
  function FindById(nodes: seq<CvNode>, id: string): (r: Option<CvNode>)
    ensures r.Some? ==> r.value in nodes && r.value.id == id
  {
    if nodes == [] then None
    else if nodes[0].id == id then Some(nodes[0])
    else FindById(nodes[1..], id)
  }

  /** `find` comes back empty exactly when no node carries the id. */
  lemma {:induction false} FindByIdNone(nodes: seq<CvNode>, id: string)
    ensures FindById(nodes, id).None? <==> forall k :: 0 <= k < |nodes| ==> nodes[k].id != id
  {
    if nodes != [] && nodes[0].id != id {
      FindByIdNone(nodes[1..], id);
      forall k | 0 < k < |nodes| ensures nodes[k] == nodes[1..][k - 1] {}
    }
  }

  /** The node `find` returns is the first one with the id. */
  lemma {:induction false} FindByIdIsFirst(nodes: seq<CvNode>, id: string)
    requires FindById(nodes, id).Some?
    ensures exists k :: 0 <= k < |nodes| && nodes[k] == FindById(nodes, id).value
                        && forall j :: 0 <= j < k ==> nodes[j].id != id
  {
    if nodes[0].id != id {
      FindByIdIsFirst(nodes[1..], id);
      var k :| 0 <= k < |nodes[1..]| && nodes[1..][k] == FindById(nodes, id).value
               && forall j :: 0 <= j < k ==> nodes[1..][j].id != id;
      assert nodes[k + 1] == FindById(nodes, id).value;
      forall j | 0 <= j < k + 1 ensures nodes[j].id != id {
        if j > 0 { assert nodes[j] == nodes[1..][j - 1]; }
      }
    } else {
      assert nodes[0] == FindById(nodes, id).value;
    }
  }

  /** The parentId of the first node carrying `id`, or None when there is no such node. */
  function ParentIdOf(nodes: seq<CvNode>, id: string): Option<string> {
    match FindById(nodes, id)
    case None => None
    case Some(n) => n.parentId
  }

  /** The node that `n.parentId` names, when it names one. */
  function Parent(nodes: seq<CvNode>, n: CvNode): Option<CvNode> {
    if n.parentId.Some? then FindById(nodes, n.parentId.value) else None
  }

  /**
   * The nodes whose parentId equals `p`, in input order; both
   * `buildChildrenMap(nodes).get(p)` and `nodes.filter(n => n.parentId === p)`.
   */
  function ChildrenOf(nodes: seq<CvNode>, p: Option<string>): (r: seq<CvNode>)
    ensures |r| <= |nodes|
    ensures forall k :: 0 <= k < |r| ==> r[k].parentId == p
  {
    if nodes == [] then []
    else
      var last := nodes[|nodes| - 1];
      var front := nodes[..|nodes| - 1];
      ChildrenOf(front, p) + (if last.parentId == p then [last] else [])
  }

  /** The children are exactly the nodes whose parentId is `p`. */
  lemma {:induction false} ChildrenOfMembers(nodes: seq<CvNode>, p: Option<string>)
    ensures forall n :: n in ChildrenOf(nodes, p) <==> n in nodes && n.parentId == p
  {
    if nodes != [] {
      var front := nodes[..|nodes| - 1];
      ChildrenOfMembers(front, p);
      assert nodes == front + [nodes[|nodes| - 1]];
    }
  }

  /** The set of ids carried by the nodes. */
  function IdSet(nodes: seq<CvNode>): (r: set<string>)
    ensures forall id :: id in r <==> exists k :: 0 <= k < |nodes| && nodes[k].id == id
  {
    set k | 0 <= k < |nodes| :: nodes[k].id
  }

  /** JavaScript's `Array.prototype.filter(n => !n.isDraft || editModeEnabled)`. */
  function VisibleNodes(nodes: seq<CvNode>, editModeEnabled: bool): (r: seq<CvNode>)
    ensures |r| <= |nodes|
    ensures forall n :: n in r <==> n in nodes && (!n.isDraft || editModeEnabled)
  {
    if nodes == [] then []
    else
      var last := nodes[|nodes| - 1];
      var front := nodes[..|nodes| - 1];
      assert nodes == front + [last];
      VisibleNodes(front, editModeEnabled) + (if !last.isDraft || editModeEnabled then [last] else [])
  }

  /** In edit mode nothing is filtered out. */
  lemma {:induction false} VisibleInEditMode(nodes: seq<CvNode>)
    ensures VisibleNodes(nodes, true) == nodes
  {
    if nodes != [] {
      VisibleInEditMode(nodes[..|nodes| - 1]);
      assert nodes == nodes[..|nodes| - 1] + [nodes[|nodes| - 1]];
    }
  }
}
