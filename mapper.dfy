/**
 * The graph assembler (`cv.mapper.ts`): the visual state of each node
 * relative to the selection, render nodes that merge state, position and
 * content, and the parent-child edges classed by the states of their ends.
 * The section catalogue `CV_SECTIONS` is a parameter here.
 */
module Mapper {
  import opened Common
  import opened CvModel
  import opened Ancestry
  import NodeUtils
  import Layout

  // ---------------------------------------------------------------------------
  // computeNodeState

  /**
   * `computeNodeState` with inspector mode: with no selection `profile` is
   * the focus, otherwise the selected node; the focus is detailed, or
   * quickview in inspector mode; the focus's children and, with a selection,
   * the ids on its ancestor chain are quickview; everything else is dormant.
   */
  function ComputeNodeState(nodeId: string, selectedId: Option<string>, nodes: seq<CvNode>, inspectorMode: bool): (r: NodeState)
    ensures r == Detailed <==> !inspectorMode && nodeId == Focus(selectedId)
    ensures r == Dormant <==>
      nodeId != Focus(selectedId)
      && ParentIdOf(nodes, nodeId) != Some(Focus(selectedId))
      && (Truthy(selectedId) ==> nodeId !in AncestorIds(nodes, selectedId.value))
  {
    if !Truthy(selectedId) then
      if nodeId == "profile" then (if inspectorMode then Quickview else Detailed)
      else if ParentIdOf(nodes, nodeId) == Some("profile") then Quickview
      else Dormant
    else if nodeId == selectedId.value then (if inspectorMode then Quickview else Detailed)
    else if ParentIdOf(nodes, nodeId) == selectedId then Quickview
    else if nodeId in AncestorIds(nodes, selectedId.value) then Quickview
    else Dormant
  }

  /** The node the states are centred on: the selection, or `profile` when nothing (or "") is selected. */
  function Focus(selectedId: Option<string>): string {
    if Truthy(selectedId) then selectedId.value else "profile"
  }

  /** Inspector mode only demotes the detailed node to quickview; it changes no other state. */
  lemma InspectorOnlyDemotes(nodeId: string, selectedId: Option<string>, nodes: seq<CvNode>)
    ensures ComputeNodeState(nodeId, selectedId, nodes, true) ==
      if ComputeNodeState(nodeId, selectedId, nodes, false) == Detailed then Quickview
      else ComputeNodeState(nodeId, selectedId, nodes, false)
    ensures ComputeNodeState(nodeId, selectedId, nodes, true) != Detailed
  {
  }

  /** Without inspector mode the mapper's states are the layout's own. */
  lemma AgreesWithLayout(nodeId: string, selectedId: Option<string>, nodes: seq<CvNode>)
    ensures ComputeNodeState(nodeId, selectedId, nodes, false) == Layout.ComputeNodeState(nodeId, selectedId, nodes)
  {
  }

  /**
   * On acyclic data every node on the selected node's parent chain is
   * quickview: its parent, its grandparent, and so on up to the root.
   */
  lemma {:induction false} ParentChainIsQuickview(nodes: seq<CvNode>, sel: string, p: string, inspectorMode: bool)
    requires Acyclic(nodes) && sel != ""
    requires p in AncestorIds(nodes, sel) && p != sel
    ensures ComputeNodeState(p, Some(sel), nodes, inspectorMode) == Quickview
    ensures Truthy(ParentIdOf(nodes, p)) && ParentIdOf(nodes, p).value != sel ==>
      ComputeNodeState(ParentIdOf(nodes, p).value, Some(sel), nodes, inspectorMode) == Quickview
  {
    var a := AncestorIds(nodes, sel);
    AncestorsAreParentLinks(nodes, sel, |nodes|);
    var k :| 0 <= k < |a| && a[k] == p;
    if Truthy(ParentIdOf(nodes, p)) && k == |a| - 1 {
      // the walk would have gone on from p
      AncestorsStopAtRoot(nodes, sel, |nodes|);
      assert false;
    }
    if Truthy(ParentIdOf(nodes, p)) {
      assert ParentIdOf(nodes, p) == Some(a[k + 1]);
    }
  }

  // ---------------------------------------------------------------------------
  // mapNodeToGraphData

  /** The data a graph node is drawn from (`GraphNodeData` without the callback). */
  datatype GraphNodeData = GraphNodeData(
    labelText: string, nodeType: NodeType, state: NodeState, content: Option<string>, isDraft: bool,
    name: Option<string>, title: Option<string>, subtitle: Option<string>, experience: Option<string>,
    email: Option<string>, location: Option<string>, photoUrl: Option<string>,
    icon: Option<string>, description: Option<string>, company: Option<string>, dateRange: Option<string>)

  /** The icon of a category's section, when its sectionId names an entry of the catalogue. */
  function CategorySectionIcon(sections: seq<Section>, node: CvNode): Option<string> {
    if node.details.CategoryDetails? && node.details.sectionId.Some? then
      match NodeUtils.FindSection(sections, node.details.sectionId.value)
      case Some(s) => Some(s.icon)
      case None => None
    else None
  }

  /**
   * What `mapNodeToGraphData` returns: the shared fields for every node; a
   * profile adds its seven profile strings and nothing else; any other node
   * adds its section's icon (categories), and its description, company and
   * date range where these are non-empty.
   */
  function GraphDataOf(node: CvNode, state: NodeState, content: Option<string>, sections: seq<Section>): (r: GraphNodeData)
    ensures r.labelText == node.labelText && r.nodeType == node.Type() && r.state == state
    ensures r.content == content && r.isDraft == node.isDraft
    ensures r.name.Some? <==> node.Type() == Profile
    ensures node.Type() == Profile ==>
      var d := node.details;
      && r.name == Some(d.name) && r.title == Some(d.title) && r.subtitle == Some(d.subtitle)
      && r.experience == Some(d.experience) && r.email == Some(d.email) && r.location == Some(d.location)
      && r.photoUrl == Some(d.photoUrl)
      && r.icon == None && r.description == None && r.company == None && r.dateRange == None
    ensures node.Type() != Profile ==>
      && r.title == None && r.subtitle == None && r.experience == None
      && r.email == None && r.location == None && r.photoUrl == None
      && r.description == IfTruthy(node.description)
    ensures r.icon.Some? ==> node.Type() == Category
    ensures r.company.Some? || r.dateRange.Some? ==> node.Type() == Item
    ensures node.Type() == Item ==>
      r.company == IfTruthy(node.details.company) && r.dateRange == IfTruthy(node.details.dateRange)
    ensures node.Type() == Category ==> r.icon == CategorySectionIcon(sections, node)
  {
    var base := GraphNodeData(node.labelText, node.Type(), state, content, node.isDraft,
                              None, None, None, None, None, None, None, None, None, None, None);
    match node.details
    case ProfileDetails(name, title, subtitle, experience, email, location, photoUrl) =>
      base.(name := Some(name), title := Some(title), subtitle := Some(subtitle), experience := Some(experience),
            email := Some(email), location := Some(location), photoUrl := Some(photoUrl))
    case ItemDetails(company, dateRange, _, _, _) =>
      base.(description := IfTruthy(node.description), company := IfTruthy(company), dateRange := IfTruthy(dateRange))
    case _ =>
      base.(icon := CategorySectionIcon(sections, node), description := IfTruthy(node.description))
  }

  /** `mapNodeToGraphData`: fills a base record, then adds fields one test at a time. */
  method MapNodeToGraphData(node: CvNode, state: NodeState, content: Option<string>, sections: seq<Section>)
    returns (data: GraphNodeData)
    ensures data == GraphDataOf(node, state, content, sections)
  {
    var base := GraphNodeData(node.labelText, node.Type(), state, content, node.isDraft,
                              None, None, None, None, None, None, None, None, None, None, None);
    if node.details.ProfileDetails? {
      var d := node.details;
      return base.(name := Some(d.name), title := Some(d.title), subtitle := Some(d.subtitle),
                   experience := Some(d.experience), email := Some(d.email), location := Some(d.location),
                   photoUrl := Some(d.photoUrl));
    }
    if node.details.CategoryDetails? {
      var section: Option<Section> := None;
      if node.details.sectionId.Some? {
        section := NodeUtils.FindSection(sections, node.details.sectionId.value);
      }
      if section.Some? {
        base := base.(icon := Some(section.value.icon));
      }
    }
    if Truthy(node.description) {
      base := base.(description := node.description);
    }
    if node.details.ItemDetails? && Truthy(node.details.company) {
      base := base.(company := node.details.company);
    }
    if node.details.ItemDetails? && Truthy(node.details.dateRange) {
      base := base.(dateRange := node.details.dateRange);
    }
    data := base;
  }

  /**
   * A category's icon on the graph agrees with `getSectionIcon` for it,
   * except that the graph also carries a section's empty icon, which
   * `getSectionIcon` reports as none.
   */
  lemma CategoryIconAgrees(node: CvNode, nodes: seq<CvNode>, state: NodeState, content: Option<string>, sections: seq<Section>)
    requires node.Type() == Category
    ensures var icon := GraphDataOf(node, state, content, sections).icon;
      NodeUtils.SectionIcon(node, nodes, sections) == if icon == Some("") then None else icon
  {
  }

  // ---------------------------------------------------------------------------
  // buildNodes

  datatype Point = Point(x: real, y: real)

  /** A render node (`Node<GraphNodeData>`; the constant type tag and the callback are not kept). */
  datatype RenderNode = RenderNode(id: string, position: Point, draggable: bool,
                                   data: GraphNodeData, selected: bool, editMode: bool)

  /** `new Map(positions.map(p => [p.nodeId, {x, y}]))`: entries are set in order, so a later one wins. */
  function PositionMap(positions: seq<NodePosition>): map<string, Point> {
    if positions == [] then map[]
    else
      var last := positions[|positions| - 1];
      PositionMap(positions[..|positions| - 1])[last.nodeId := Point(last.x, last.y)]
  }

  /** The map holds an id exactly when some entry names it, and then the point of the last such entry. */
  lemma {:induction false} PositionMapLastWins(positions: seq<NodePosition>, id: string)
    ensures id in PositionMap(positions) <==> exists k :: 0 <= k < |positions| && positions[k].nodeId == id
    ensures id in PositionMap(positions) ==>
      exists k :: 0 <= k < |positions| && positions[k].nodeId == id
        && PositionMap(positions)[id] == Point(positions[k].x, positions[k].y)
        && forall j :: k < j < |positions| ==> positions[j].nodeId != id
  {
    if positions != [] {
      var n := |positions|;
      var front := positions[..n - 1];
      PositionMapLastWins(front, id);
      if positions[n - 1].nodeId != id {
        if id in PositionMap(positions) {
          var k :| 0 <= k < |front| && front[k].nodeId == id
            && PositionMap(front)[id] == Point(front[k].x, front[k].y)
            && forall j :: k < j < |front| ==> front[j].nodeId != id;
          assert positions[k] == front[k];
          forall j | k < j < n ensures positions[j].nodeId != id {
            if j < n - 1 { assert positions[j] == front[j]; }
          }
        }
        forall k | 0 <= k < n && positions[k].nodeId == id ensures id in PositionMap(front) {
          assert front[k] == positions[k];
        }
      }
    }
  }

  /** `positionMap.get(id) ?? { x: 0, y: 0 }`. */
  function PositionOf(positionMap: map<string, Point>, id: string): Point {
    if id in positionMap then positionMap[id] else Point(0.0, 0.0)
  }

  /** `contentMap?.[id]`: nothing without a map or without an entry. */
  function ContentOf(contentMap: Option<map<string, string>>, id: string): Option<string> {
    if contentMap.Some? && id in contentMap.value then Some(contentMap.value[id]) else None
  }

  /**
   * The positions `buildNodes` draws from: the layout of the visible nodes
   * (the layout takes no inspector flag), or the stored positions verbatim.
   */
  function ChosenPositions(cvData: CvData, selectedId: Option<string>, useAutoLayout: bool, editModeEnabled: bool): seq<NodePosition> {
    if useAutoLayout then Layout.LayoutOf(VisibleNodes(cvData.nodes, editModeEnabled), selectedId)
    else cvData.positions
  }

  /** The render node of one visible node. */
  function RenderOf(node: CvNode, visible: seq<CvNode>, positionMap: map<string, Point>, selectedId: Option<string>,
                    contentMap: Option<map<string, string>>, inspectorMode: bool, editModeEnabled: bool,
                    sections: seq<Section>): RenderNode
  {
    var state := ComputeNodeState(node.id, selectedId, visible, inspectorMode);
    var content := if inspectorMode then None else ContentOf(contentMap, node.id);
    RenderNode(node.id, PositionOf(positionMap, node.id), editModeEnabled,
               GraphDataOf(node, state, content, sections), selectedId == Some(node.id), editModeEnabled)
  }

  /**
   * `buildNodes`: one render node per visible node, in order. Each is drawn
   * in its state among the visible nodes, at its entry in the chosen
   * positions (the origin when it has none), with its content unless in
   * inspector mode; it is selected exactly when it is the selection, and
   * draggable exactly in edit mode.
   */
  function BuildNodes(cvData: CvData, selectedId: Option<string>, contentMap: Option<map<string, string>>,
                      useAutoLayout: bool, inspectorMode: bool, editModeEnabled: bool, sections: seq<Section>): (r: seq<RenderNode>)
    ensures var visible := VisibleNodes(cvData.nodes, editModeEnabled);
      && |r| == |visible|
      && forall i :: 0 <= i < |r| ==>
        && r[i].id == visible[i].id
        && r[i].data.state == ComputeNodeState(visible[i].id, selectedId, visible, inspectorMode)
        && r[i].position == PositionOf(PositionMap(ChosenPositions(cvData, selectedId, useAutoLayout, editModeEnabled)), visible[i].id)
        && r[i].data.content == (if inspectorMode then None else ContentOf(contentMap, visible[i].id))
        && (r[i].selected <==> selectedId == Some(visible[i].id))
        && r[i].draggable == editModeEnabled && r[i].editMode == editModeEnabled
        && r[i].data.isDraft == visible[i].isDraft
        && r[i].data == GraphDataOf(visible[i], r[i].data.state, r[i].data.content, sections)
  {
    var visible := VisibleNodes(cvData.nodes, editModeEnabled);
    var positionMap := PositionMap(ChosenPositions(cvData, selectedId, useAutoLayout, editModeEnabled));
    seq(|visible|, i requires 0 <= i < |visible| =>
      RenderOf(visible[i], visible, positionMap, selectedId, contentMap, inspectorMode, editModeEnabled, sections))
  }

  /**
   * Outside edit mode no render node is a draft; in edit mode every node is
   * drawn, in input order.
   */
  lemma BuildNodesDrafts(cvData: CvData, selectedId: Option<string>, contentMap: Option<map<string, string>>,
                         useAutoLayout: bool, inspectorMode: bool, editModeEnabled: bool, sections: seq<Section>)
    ensures var r := BuildNodes(cvData, selectedId, contentMap, useAutoLayout, inspectorMode, editModeEnabled, sections);
      && (!editModeEnabled ==> forall i :: 0 <= i < |r| ==> !r[i].data.isDraft)
      && (editModeEnabled ==> |r| == |cvData.nodes| && forall i :: 0 <= i < |r| ==> r[i].id == cvData.nodes[i].id)
  {
    var r := BuildNodes(cvData, selectedId, contentMap, useAutoLayout, inspectorMode, editModeEnabled, sections);
    var visible := VisibleNodes(cvData.nodes, editModeEnabled);
    if editModeEnabled {
      VisibleInEditMode(cvData.nodes);
    } else {
      forall i | 0 <= i < |r| ensures !r[i].data.isDraft {
        assert visible[i] in visible;
      }
    }
  }

  /**
   * A render node sits at the last entry of the chosen positions that names
   * it, and at the origin when none does.
   */
  lemma RenderPosition(cvData: CvData, selectedId: Option<string>, contentMap: Option<map<string, string>>,
                       useAutoLayout: bool, inspectorMode: bool, editModeEnabled: bool, sections: seq<Section>, i: nat)
    requires i < |BuildNodes(cvData, selectedId, contentMap, useAutoLayout, inspectorMode, editModeEnabled, sections)|
    ensures var r := BuildNodes(cvData, selectedId, contentMap, useAutoLayout, inspectorMode, editModeEnabled, sections);
      var ps := ChosenPositions(cvData, selectedId, useAutoLayout, editModeEnabled);
      && ((forall k :: 0 <= k < |ps| ==> ps[k].nodeId != r[i].id) ==> r[i].position == Point(0.0, 0.0))
      && ((exists k :: 0 <= k < |ps| && ps[k].nodeId == r[i].id) ==>
            exists k :: 0 <= k < |ps| && ps[k].nodeId == r[i].id && r[i].position == Point(ps[k].x, ps[k].y)
              && forall j :: k < j < |ps| ==> ps[j].nodeId != r[i].id)
  {
    var r := BuildNodes(cvData, selectedId, contentMap, useAutoLayout, inspectorMode, editModeEnabled, sections);
    PositionMapLastWins(ChosenPositions(cvData, selectedId, useAutoLayout, editModeEnabled), r[i].id);
  }

  // ---------------------------------------------------------------------------
  // buildEdges

  /** The class `buildEdges` gives an edge (`edge-active`, `edge-partial`, `edge-dormant`). */
  datatype EdgeClass = EdgeActive | EdgePartial | EdgeDormant

  /** An edge (`Edge` with its constant type `straight` left out). */
  datatype Edge = Edge(id: string, source: string, target: string, className: EdgeClass)

  /** Active when both ends are drawn as more than dormant, partial when one is, dormant otherwise. */
  function EdgeClassOf(sourceState: NodeState, targetState: NodeState): (r: EdgeClass)
    ensures r == EdgeActive <==> sourceState != Dormant && targetState != Dormant
    ensures r == EdgePartial <==> (sourceState == Dormant) != (targetState == Dormant)
    ensures r == EdgeDormant <==> sourceState == Dormant && targetState == Dormant
  {
    var bothVisible := sourceState != Dormant && targetState != Dormant;
    var oneVisible := sourceState != Dormant || targetState != Dormant;
    if bothVisible then EdgeActive else if oneVisible then EdgePartial else EdgeDormant
  }

  /** The edge id `e-<parent>-<child>`. */
  function EdgeId(parentId: string, childId: string): string {
    "e-" + parentId + "-" + childId
  }

  /** Whether `buildEdges` draws an edge to `node`: its parentId is non-empty and names a visible node. */
  predicate HasVisibleParent(node: CvNode, visibleIds: set<string>) {
    Truthy(node.parentId) && node.parentId.value in visibleIds
  }

  /** The edge into `node`, with both states computed among the visible nodes and without inspector mode. */
  function EdgeInto(node: CvNode, selectedId: Option<string>, visible: seq<CvNode>): Edge
    requires node.parentId.Some?
  {
    var p := node.parentId.value;
    Edge(EdgeId(p, node.id), p, node.id,
         EdgeClassOf(ComputeNodeState(p, selectedId, visible, false), ComputeNodeState(node.id, selectedId, visible, false)))
  }

  /** The edges into the nodes of `prefix`, in order. */
  function EdgesInto(prefix: seq<CvNode>, selectedId: Option<string>, visible: seq<CvNode>): seq<Edge> {
    if prefix == [] then []
    else
      var last := prefix[|prefix| - 1];
      EdgesInto(prefix[..|prefix| - 1], selectedId, visible)
        + (if HasVisibleParent(last, IdSet(visible)) then [EdgeInto(last, selectedId, visible)] else [])
  }

  /** The edges `buildEdges` returns. */
  function Edges(cvData: CvData, selectedId: Option<string>, editModeEnabled: bool): seq<Edge> {
    var visible := VisibleNodes(cvData.nodes, editModeEnabled);
    EdgesInto(visible, selectedId, visible)
  }

  /** `buildEdges`: the `for` loop over the visible nodes pushing one edge per visible parent link. */
  method BuildEdges(cvData: CvData, selectedId: Option<string>, editModeEnabled: bool) returns (edges: seq<Edge>)
    ensures edges == Edges(cvData, selectedId, editModeEnabled)
  {
    edges := [];
    var visibleNodes := VisibleNodes(cvData.nodes, editModeEnabled);
    var visibleNodeIds := IdSet(visibleNodes);
    for i := 0 to |visibleNodes|
      invariant edges == EdgesInto(visibleNodes[..i], selectedId, visibleNodes)
    {
      var node := visibleNodes[i];
      EdgesIntoStep(visibleNodes, selectedId, i);
      if Truthy(node.parentId) && node.parentId.value in visibleNodeIds {
        var sourceState := ComputeNodeState(node.parentId.value, selectedId, visibleNodes, false);
        var targetState := ComputeNodeState(node.id, selectedId, visibleNodes, false);
        var edgeClass := EdgeClassOf(sourceState, targetState);
        edges := edges + [Edge(EdgeId(node.parentId.value, node.id), node.parentId.value, node.id, edgeClass)];
      }
    }
    assert visibleNodes[..|visibleNodes|] == visibleNodes;
  }

  lemma EdgesIntoStep(visible: seq<CvNode>, selectedId: Option<string>, i: nat)
    requires i < |visible|
    ensures EdgesInto(visible[..i + 1], selectedId, visible) == EdgesInto(visible[..i], selectedId, visible)
      + (if HasVisibleParent(visible[i], IdSet(visible)) then [EdgeInto(visible[i], selectedId, visible)] else [])
  {
    assert visible[..i + 1][..i] == visible[..i];
  }

  /**
   * Every edge runs from a node's non-empty parentId to the node, both ends
   * are ids of visible nodes, its id is `e-<source>-<target>`, and its class
   * is fixed by the two end states.
   */
  lemma {:induction false} EdgesSound(prefix: seq<CvNode>, selectedId: Option<string>, visible: seq<CvNode>)
    requires forall n :: n in prefix ==> n in visible
    ensures forall e :: e in EdgesInto(prefix, selectedId, visible) ==>
      && (exists n :: n in prefix && n.id == e.target && n.parentId == Some(e.source))
      && e.source != "" && e.source in IdSet(visible) && e.target in IdSet(visible)
      && e.id == EdgeId(e.source, e.target)
      && e.className == EdgeClassOf(ComputeNodeState(e.source, selectedId, visible, false),
                                    ComputeNodeState(e.target, selectedId, visible, false))
  {
    if prefix != [] {
      var front := prefix[..|prefix| - 1];
      var last := prefix[|prefix| - 1];
      assert forall n :: n in front ==> n in prefix;
      EdgesSound(front, selectedId, visible);
      assert last in visible;
    }
  }

  /** Every node of `prefix` whose parentId is non-empty and visible gets an edge from that parent. */
  lemma {:induction false} EdgesComplete(prefix: seq<CvNode>, selectedId: Option<string>, visible: seq<CvNode>, n: CvNode)
    requires n in prefix && HasVisibleParent(n, IdSet(visible))
    ensures EdgeInto(n, selectedId, visible) in EdgesInto(prefix, selectedId, visible)
  {
    var front := prefix[..|prefix| - 1];
    if n != prefix[|prefix| - 1] {
      assert prefix == front + [prefix[|prefix| - 1]];
      EdgesComplete(front, selectedId, visible, n);
    }
  }

  /** There is at most one edge per node. */
  lemma {:induction false} EdgesAtMostOnePerNode(prefix: seq<CvNode>, selectedId: Option<string>, visible: seq<CvNode>)
    ensures |EdgesInto(prefix, selectedId, visible)| <= |prefix|
  {
    if prefix != [] {
      EdgesAtMostOnePerNode(prefix[..|prefix| - 1], selectedId, visible);
    }
  }

  /**
   * Outside edit mode no edge touches a draft: when ids are unique, the id
   * of a draft node is neither the source nor the target of any edge.
   */
  lemma NoDraftEdges(cvData: CvData, selectedId: Option<string>, d: CvNode)
    requires forall i, j :: 0 <= i < j < |cvData.nodes| ==> cvData.nodes[i].id != cvData.nodes[j].id
    requires d in cvData.nodes && d.isDraft
    ensures forall e :: e in Edges(cvData, selectedId, false) ==> e.source != d.id && e.target != d.id
  {
    var visible := VisibleNodes(cvData.nodes, false);
    EdgesSound(visible, selectedId, visible);
    forall e | e in Edges(cvData, selectedId, false) ensures e.source != d.id && e.target != d.id {
      forall n | n in visible ensures n.id != d.id {
        var i :| 0 <= i < |cvData.nodes| && cvData.nodes[i] == n;
        var j :| 0 <= j < |cvData.nodes| && cvData.nodes[j] == d;
        assert i != j;
      }
    }
  }
}
