/**
 * The search dialog (`SearchDialog.tsx`): the filter that turns a query into
 * at most ten results, the per-node icon and type label it shows, and the
 * keyboard handling of the highlighted result.
 */
module Search {
  import opened Common
  import opened CvModel
  import NodeUtils
  import Mapper

  datatype MatchType = LabelMatch | ContentMatch

  datatype SearchResult = SearchResult(node: CvNode, matchType: MatchType, icon: Option<string>)

  /** At most this many results are shown. */
  const MaxResults: nat := 10

  /**
   * `getNodeIcon`: the icon of the section a category names, whether or not
   * it is empty; nothing for other nodes or when no section has that id.
   */
  function NodeIcon(node: CvNode, sections: seq<Section>): (r: Option<string>)
    ensures r.Some? <==> node.Type() == Category && node.details.sectionId.Some?
                         && NodeUtils.FindSection(sections, node.details.sectionId.value).Some?
    ensures r.Some? ==> exists s :: s in sections && s.id == node.details.sectionId.value && s.icon == r.value
  {
    if node.Type() == Category && node.details.sectionId.Some? then
      match NodeUtils.FindSection(sections, node.details.sectionId.value)
      case Some(s) => Some(s.icon)
      case None => None
    else None
  }

  /** The dialog shows the same icon as the graph node of the node. */
  lemma NodeIconAsGraph(node: CvNode, state: NodeState, content: Option<string>, sections: seq<Section>)
    ensures NodeIcon(node, sections) == Mapper.GraphDataOf(node, state, content, sections).icon
  {
  }

  /** `getNodeTypeLabel` of the dialog: an item is shown as "Experience". */
  function TypeLabel(t: NodeType): (r: string)
    ensures r != ""
  {
    match t
    case Profile => "Profile"
    case Category => "Category"
    case Item => "Experience"
    case SkillGroup => "Skill Group"
    case Skill => "Skill"
  }

  /** The dialog's labels are the tree helpers' labels except for items. */
  lemma TypeLabelVersusTreeLabel(t: NodeType)
    ensures t != Item <==> TypeLabel(t) == NodeUtils.GetNodeTypeLabel(t)
    ensures TypeLabel(Item) == "Experience" && NodeUtils.GetNodeTypeLabel(Item) == "Item"
  {
  }

  /** `contentMap[node.id] || ''`. */
  function ContentText(contentMap: map<string, string>, id: string): string {
    if id in contentMap then contentMap[id] else ""
  }

  predicate LabelMatches(lowerQuery: string, node: CvNode) {
    Contains(ToLower(node.labelText), lowerQuery)
  }

  predicate ContentMatches(lowerQuery: string, node: CvNode, contentMap: map<string, string>) {
    Contains(ToLower(ContentText(contentMap, node.id)), lowerQuery)
  }

  /** A node the loop keeps: not the profile, and its label or its content contains the query. */
  predicate IsMatch(lowerQuery: string, node: CvNode, contentMap: map<string, string>) {
    node.Type() != Profile && (LabelMatches(lowerQuery, node) || ContentMatches(lowerQuery, node, contentMap))
  }

  /** The result the loop records for a kept node. */
  function ResultOf(lowerQuery: string, node: CvNode, sections: seq<Section>): SearchResult {
    SearchResult(node, if LabelMatches(lowerQuery, node) then LabelMatch else ContentMatch, NodeIcon(node, sections))
  }

  /** The results of the loop over all nodes, before the cut to ten. */
  function Matches(lowerQuery: string, nodes: seq<CvNode>, contentMap: map<string, string>,
                   sections: seq<Section>): (r: seq<SearchResult>)
    ensures |r| <= |nodes|
    ensures forall i :: 0 <= i < |r| ==>
      && r[i].node in nodes
      && r[i].node.Type() != Profile
      && (r[i].matchType == LabelMatch <==> LabelMatches(lowerQuery, r[i].node))
      && (r[i].matchType == ContentMatch ==> ContentMatches(lowerQuery, r[i].node, contentMap))
      && r[i].icon == NodeIcon(r[i].node, sections)
  {
    if nodes == [] then []
    else
      var last := nodes[|nodes| - 1];
      Matches(lowerQuery, nodes[..|nodes| - 1], contentMap, sections)
      + (if IsMatch(lowerQuery, last, contentMap) then [ResultOf(lowerQuery, last, sections)] else [])
  }

  /** The `results` memo: nothing for a blank query, else the first ten matches of the lower-cased query. */
  function Results(query: string, nodes: seq<CvNode>, contentMap: map<string, string>,
                   sections: seq<Section>): (r: seq<SearchResult>)
    ensures Trim(query) == "" ==> r == []
    ensures |r| <= MaxResults
    ensures Trim(query) != "" ==>
      var m := Matches(ToLower(query), nodes, contentMap, sections);
      |r| <= |m| && r == m[..|r|] && (|r| < MaxResults ==> r == m)
  {
    if Trim(query) == "" then []
    else
      var m := Matches(ToLower(query), nodes, contentMap, sections);
      if |m| <= MaxResults then m else m[..MaxResults]
  }

  /** One more node extends the matches by its result when it matches, and by nothing otherwise. */
  lemma MatchesStep(lowerQuery: string, nodes: seq<CvNode>, contentMap: map<string, string>,
                    sections: seq<Section>, i: int)
    requires 0 <= i < |nodes|
    ensures Matches(lowerQuery, nodes[..i + 1], contentMap, sections)
      == Matches(lowerQuery, nodes[..i], contentMap, sections)
         + (if IsMatch(lowerQuery, nodes[i], contentMap) then [ResultOf(lowerQuery, nodes[i], sections)] else [])
  {
    assert nodes[..i + 1][..i] == nodes[..i];
  }

  /** The body of the filter loop for one node: skip the profile, then test the label, then the content. */
  method MatchNode(lowerQuery: string, node: CvNode, contentMap: map<string, string>, sections: seq<Section>)
    returns (r: Option<SearchResult>)
    ensures r.Some? <==> IsMatch(lowerQuery, node, contentMap)
    ensures r.Some? ==> r.value == ResultOf(lowerQuery, node, sections)
  {
    if node.Type() == Profile {
      return None;
    }
    var labelMatch := Contains(ToLower(node.labelText), lowerQuery);
    var content := ContentText(contentMap, node.id);
    var contentMatch := Contains(ToLower(content), lowerQuery);
    if labelMatch {
      r := Some(SearchResult(node, LabelMatch, NodeIcon(node, sections)));
    } else if contentMatch {
      r := Some(SearchResult(node, ContentMatch, NodeIcon(node, sections)));
    } else {
      r := None;
    }
  }

  /** The filter loop of the `results` memo: every node in turn, kept when it matches. */
  method FilterMatches(lowerQuery: string, nodes: seq<CvNode>, contentMap: map<string, string>,
                       sections: seq<Section>) returns (matches: seq<SearchResult>)
    ensures matches == Matches(lowerQuery, nodes, contentMap, sections)
  {
    matches := [];
    for i := 0 to |nodes|
      invariant matches == Matches(lowerQuery, nodes[..i], contentMap, sections)
    {
      MatchesStep(lowerQuery, nodes, contentMap, sections, i);
      var found := MatchNode(lowerQuery, nodes[i], contentMap, sections);
      if found.Some? {
        matches := matches + [found.value];
      }
    }
    assert nodes[..|nodes|] == nodes;
  }

  /** The `results` memo: nothing for a blank query, else the filter loop on the lower-cased query, cut to ten. */
  method SearchResults(query: string, nodes: seq<CvNode>, contentMap: map<string, string>,
                       sections: seq<Section>) returns (results: seq<SearchResult>)
    ensures results == Results(query, nodes, contentMap, sections)
  {
    if Trim(query) == "" {
      return [];
    }
    var matches := FilterMatches(ToLower(query), nodes, contentMap, sections);
    results := if |matches| <= MaxResults then matches else matches[..MaxResults];
  }

  /**
   * The matches are the matching nodes in input order: the result at
   * position `i` is the node at position `idx[i]`, the positions increase,
   * and every matching node's position is among them.
   */
  lemma {:induction false} MatchesInOrder(lowerQuery: string, nodes: seq<CvNode>, contentMap: map<string, string>,
                                          sections: seq<Section>) returns (idx: seq<int>)
    ensures var m := Matches(lowerQuery, nodes, contentMap, sections);
      && |idx| == |m|
      && (forall i :: 0 <= i < |idx| ==> 0 <= idx[i] < |nodes| && m[i].node == nodes[idx[i]])
      && (forall i, j :: 0 <= i < j < |idx| ==> idx[i] < idx[j])
      && (forall k :: 0 <= k < |nodes| && IsMatch(lowerQuery, nodes[k], contentMap) ==> k in idx)
  {
    if nodes == [] {
      idx := [];
    } else {
      var n := |nodes|;
      var front := nodes[..n - 1];
      var pre := MatchesInOrder(lowerQuery, front, contentMap, sections);
      var m := Matches(lowerQuery, nodes, contentMap, sections);
      var mf := Matches(lowerQuery, front, contentMap, sections);
      if IsMatch(lowerQuery, nodes[n - 1], contentMap) {
        idx := pre + [n - 1];
        assert m == mf + [ResultOf(lowerQuery, nodes[n - 1], sections)];
      } else {
        idx := pre;
        assert m == mf;
      }
      forall i | 0 <= i < |pre| ensures m[i].node == nodes[idx[i]] {
        assert m[i] == mf[i] && front[pre[i]] == nodes[pre[i]];
      }
      forall k | 0 <= k < n - 1 && IsMatch(lowerQuery, nodes[k], contentMap) ensures k in idx {
        assert front[k] == nodes[k];
      }
    }
  }

  /** A node is among the matches exactly when it is a non-profile node whose label or content contains the query. */
  lemma MatchesMembers(lowerQuery: string, nodes: seq<CvNode>, contentMap: map<string, string>,
                       sections: seq<Section>, node: CvNode)
    ensures (exists r :: r in Matches(lowerQuery, nodes, contentMap, sections) && r.node == node)
            <==> node in nodes && IsMatch(lowerQuery, node, contentMap)
  {
    var m := Matches(lowerQuery, nodes, contentMap, sections);
    var idx := MatchesInOrder(lowerQuery, nodes, contentMap, sections);
    if node in nodes && IsMatch(lowerQuery, node, contentMap) {
      var k :| 0 <= k < |nodes| && nodes[k] == node;
      var i :| 0 <= i < |idx| && idx[i] == k;
      assert m[i] in m && m[i].node == node;
    }
  }

  /** With ten matches or fewer, a node is a result exactly when it matches; the profile never is. */
  lemma ResultsMembers(query: string, nodes: seq<CvNode>, contentMap: map<string, string>,
                       sections: seq<Section>, node: CvNode)
    requires Trim(query) != ""
    requires |Matches(ToLower(query), nodes, contentMap, sections)| <= MaxResults
    ensures (exists r :: r in Results(query, nodes, contentMap, sections) && r.node == node)
            <==> node in nodes && IsMatch(ToLower(query), node, contentMap)
  {
    MatchesMembers(ToLower(query), nodes, contentMap, sections, node);
  }

  // ---------------------------------------------------------------------------
  // handleKeyDown

  datatype Key = ArrowDown | ArrowUp | Enter | OtherKey

  /**
   * The highlighted index the dialog can be in: inside the results, or, when
   * there are none, 0 or the -1 that ArrowDown leaves.
   */
  predicate IndexOk(i: int, len: nat) {
    if len == 0 then i == -1 || i == 0 else 0 <= i < len
  }

  /** The new highlighted index: ArrowDown `min(i + 1, len - 1)`, ArrowUp `max(i - 1, 0)`. */
  function NextIndex(key: Key, i: int, len: nat): (r: int)
    ensures key == ArrowDown ==> r <= i + 1 && r <= len - 1 && (r == i + 1 || r == len - 1)
    ensures key == ArrowUp ==> r >= i - 1 && r >= 0 && (r == i - 1 || r == 0)
    ensures key != ArrowDown && key != ArrowUp ==> r == i
    ensures IndexOk(i, len) ==> IndexOk(r, len)
  {
    match key
    case ArrowDown => if i + 1 < len - 1 then i + 1 else len - 1
    case ArrowUp => if i - 1 > 0 then i - 1 else 0
    case _ => i
  }

  /** What Enter selects: the id of the highlighted result, when one is highlighted. */
  function EnterSelection(results: seq<SearchResult>, i: int): (r: Option<string>)
    ensures r.Some? <==> 0 <= i < |results|
    ensures r.Some? ==> r.value == results[i].node.id
  {
    if 0 <= i < |results| then Some(results[i].node.id) else None
  }

  /** With results, Enter always selects one of them from any index the dialog can be in. */
  lemma EnterSelectsWhenResults(results: seq<SearchResult>, i: int)
    requires IndexOk(i, |results|) && |results| > 0
    ensures EnterSelection(results, i).Some?
    ensures exists r :: r in results && EnterSelection(results, i) == Some(r.node.id)
  {
    assert results[i] in results;
  }

  /** The dialog's query and highlighted index, over the nodes, content and sections it is given. */
  class SearchDialog {
    const nodes: seq<CvNode>
    const contentMap: map<string, string>
    const sections: seq<Section>
    var query: string
    var selectedIndex: int

    /** The `results` memo for the current query. */
    function CurrentResults(): seq<SearchResult>
      reads this
    {
      Results(query, nodes, contentMap, sections)
    }

    ghost predicate Valid()
      reads this
    {
      IndexOk(selectedIndex, |CurrentResults()|)
    }

    constructor(nodes: seq<CvNode>, contentMap: map<string, string>, sections: seq<Section>)
      ensures this.nodes == nodes && this.contentMap == contentMap && this.sections == sections
      ensures query == "" && selectedIndex == 0 && Valid()
    {
      this.nodes := nodes;
      this.contentMap := contentMap;
      this.sections := sections;
      query := "";
      selectedIndex := 0;
    }

    /** Opening the dialog clears the query and highlights the first result. */
    method Open()
      modifies this
      ensures query == "" && selectedIndex == 0 && Valid()
    {
      query := "";
      selectedIndex := 0;
    }

    /** Editing the query highlights the first result again. */
    method ChangeQuery(q: string)
      modifies this
      ensures query == q && selectedIndex == 0 && Valid()
    {
      query := q;
      selectedIndex := 0;
    }

    /** `handleKeyDown`: moves the highlight, or selects the highlighted result on Enter. */
    method KeyDown(key: Key) returns (selected: Option<string>)
      requires Valid()
      modifies this
      ensures query == old(query) && Valid()
      ensures selectedIndex == NextIndex(key, old(selectedIndex), |CurrentResults()|)
      ensures selected == (if key == Enter then EnterSelection(CurrentResults(), selectedIndex) else None)
      ensures key == Enter && |CurrentResults()| > 0 ==> selected.Some?
    {
      var results := SearchResults(query, nodes, contentMap, sections);
      selectedIndex := NextIndex(key, selectedIndex, |results|);
      selected := None;
      if key == Enter {
        selected := EnterSelection(results, selectedIndex);
        if |results| > 0 {
          EnterSelectsWhenResults(results, selectedIndex);
        }
      }
    }
  }
}
