/**
 * The frontend's data service (`cv.service.ts`): how a node DTO from the API
 * becomes a frontend node, how the full response becomes the CV data with its
 * positions, and the service object that caches the CV data until a write
 * clears it. The HTTP calls are parameters: their response, or none when the
 * call fails.
 */
module CvService {
  import opened Common
  import opened CvModel
  import opened Api

  /** `mapNodeType`: the API's enum to the frontend's type tag. */
  function MapNodeType(t: ApiType): NodeType {
    match t
    case ProfileType => Profile
    case CategoryType => Category
    case ItemType => Item
    case SkillGroupType => SkillGroup
    case SkillType => Skill
  }

  /** The API type a frontend type is sent as. */
  function ApiTypeOf(t: NodeType): ApiType {
    match t
    case Profile => ProfileType
    case Category => CategoryType
    case Item => ItemType
    case SkillGroup => SkillGroupType
    case Skill => SkillType
  }

  /** `mapNodeType` is a bijection: `ApiTypeOf` undoes it and it undoes `ApiTypeOf`. */
  lemma MapNodeTypeBijective(a: ApiType, t: NodeType)
    ensures ApiTypeOf(MapNodeType(a)) == a
    ensures MapNodeType(ApiTypeOf(t)) == t
    ensures MapNodeType(a) == t <==> a == ApiTypeOf(t)
  {
  }

  /** `attr<string>(attributes, key)`, when the value is a string. */
  function StringAttr(attributes: Option<Attributes>, key: string): (r: Option<string>)
    ensures r.Some? <==> attributes.Some? && key in attributes.value && attributes.value[key].AttrString?
    ensures r.Some? ==> r.value == attributes.value[key].s
  {
    if attributes.Some? && key in attributes.value && attributes.value[key].AttrString?
    then Some(attributes.value[key].s) else None
  }

  /** `attr<string[]>(attributes, key)`, when the value is a list of strings. */
  function StringsAttr(attributes: Option<Attributes>, key: string): (r: Option<seq<string>>)
    ensures r.Some? <==> attributes.Some? && key in attributes.value && attributes.value[key].AttrStrings?
    ensures r.Some? ==> r.value == attributes.value[key].items
  {
    if attributes.Some? && key in attributes.value && attributes.value[key].AttrStrings?
    then Some(attributes.value[key].items) else None
  }

  /** `attr<number>(attributes, key)`, when the value is a number. */
  function NumberAttr(attributes: Option<Attributes>, key: string): (r: Option<int>)
    ensures r.Some? <==> attributes.Some? && key in attributes.value && attributes.value[key].AttrNumber?
    ensures r.Some? ==> r.value == attributes.value[key].n
  {
    if attributes.Some? && key in attributes.value && attributes.value[key].AttrNumber?
    then Some(attributes.value[key].n) else None
  }

  /** `a ?? b` on optional strings. */
  function OrElse(a: Option<string>, b: string): string {
    if a.Some? then a.value else b
  }

  /**
   * `mapApiNodeToFrontend`: the type from the enum, parentId and label
   * defaulted, description passed through, and the type's own fields read
   * from the attributes. The draft flag and any other attribute are not
   * copied.
   */
  function MapApiNode(dto: NodeDto): (r: CvNode)
    ensures r.id == dto.id && r.Type() == MapNodeType(dto.nodeType)
    ensures r.parentId == dto.parentId && r.description == dto.description && !r.isDraft
    ensures r.labelText == OrElse(dto.labelText, "")
    ensures r.Type() == Profile ==>
      && r.details.name == OrElse(StringAttr(dto.attributes, "name"), OrElse(dto.labelText, ""))
      && r.details.title == OrElse(StringAttr(dto.attributes, "title"), "")
      && r.details.subtitle == OrElse(StringAttr(dto.attributes, "subtitle"), "")
      && r.details.experience == OrElse(StringAttr(dto.attributes, "experience"), "")
      && r.details.email == OrElse(StringAttr(dto.attributes, "email"), "")
      && r.details.location == OrElse(StringAttr(dto.attributes, "location"), "")
      && r.details.photoUrl == OrElse(StringAttr(dto.attributes, "photoUrl"), "")
    ensures r.Type() == Category ==>
      r.details.sectionId == Some(OrElse(StringAttr(dto.attributes, "sectionId"), dto.id))
    ensures r.Type() == Item ==>
      && r.details.company == StringAttr(dto.attributes, "company")
      && r.details.dateRange == StringAttr(dto.attributes, "dateRange")
      && r.details.itemLocation == StringAttr(dto.attributes, "location")
      && r.details.highlights == StringsAttr(dto.attributes, "highlights")
      && r.details.technologies == StringsAttr(dto.attributes, "technologies")
    ensures r.Type() == SkillGroup ==>
      r.details.proficiencyLevel == StringAttr(dto.attributes, "proficiencyLevel")
    ensures r.Type() == Skill ==>
      && r.details.proficiencyLevel == StringAttr(dto.attributes, "proficiencyLevel")
      && r.details.yearsOfExperience == NumberAttr(dto.attributes, "yearsOfExperience")
  {
    var a := dto.attributes;
    var details := match dto.nodeType
      case ProfileType =>
        ProfileDetails(OrElse(StringAttr(a, "name"), OrElse(dto.labelText, "")),
                       OrElse(StringAttr(a, "title"), ""), OrElse(StringAttr(a, "subtitle"), ""),
                       OrElse(StringAttr(a, "experience"), ""), OrElse(StringAttr(a, "email"), ""),
                       OrElse(StringAttr(a, "location"), ""), OrElse(StringAttr(a, "photoUrl"), ""))
      case CategoryType => CategoryDetails(Some(OrElse(StringAttr(a, "sectionId"), dto.id)))
      case ItemType =>
        ItemDetails(StringAttr(a, "company"), StringAttr(a, "dateRange"), StringAttr(a, "location"),
                    StringsAttr(a, "highlights"), StringsAttr(a, "technologies"))
      case SkillGroupType => SkillGroupDetails(StringAttr(a, "proficiencyLevel"))
      case SkillType => SkillDetails(StringAttr(a, "proficiencyLevel"), NumberAttr(a, "yearsOfExperience"));
    CvNode(dto.id, dto.parentId, OrElse(dto.labelText, ""), dto.description, false, details)
  }

  /** A category always comes out with a section: its attribute, or else its own id. */
  lemma CategoryAlwaysHasSection(dto: NodeDto)
    requires dto.nodeType == CategoryType
    ensures MapApiNode(dto).details.sectionId.Some?
    ensures StringAttr(dto.attributes, "sectionId").None? ==> MapApiNode(dto).details.sectionId == Some(dto.id)
  {
  }

  /** A node the response gives both coordinates. */
  predicate HasPosition(d: NodeDto) {
    d.positionX.Some? && d.positionY.Some?
  }

  function PositionOf(d: NodeDto): NodePosition
    requires HasPosition(d)
  {
    NodePosition(d.id, d.positionX.value as real, d.positionY.value as real)
  }

  /** The positions of the nodes that carry both coordinates, in order. */
  function Positions(dtos: seq<NodeDto>): (r: seq<NodePosition>)
    ensures |r| <= |dtos|
  {
    if dtos == [] then []
    else
      var n := |dtos|;
      Positions(dtos[..n - 1]) + (if HasPosition(dtos[n - 1]) then [PositionOf(dtos[n - 1])] else [])
  }

  /**
   * The positions are exactly those of the nodes with both coordinates, in
   * the order of the nodes: `idx` says which node each position comes from.
   */
  lemma {:induction false} PositionsInOrder(dtos: seq<NodeDto>) returns (idx: seq<int>)
    ensures var r := Positions(dtos);
      && |idx| == |r|
      && (forall i :: 0 <= i < |idx| ==> 0 <= idx[i] < |dtos| && HasPosition(dtos[idx[i]])
                                         && r[i] == PositionOf(dtos[idx[i]]))
      && (forall i, j :: 0 <= i < j < |idx| ==> idx[i] < idx[j])
      && (forall k :: 0 <= k < |dtos| && HasPosition(dtos[k]) ==> k in idx)
  {
    if dtos == [] {
      idx := [];
    } else {
      var n := |dtos|;
      var front := dtos[..n - 1];
      var pre := PositionsInOrder(front);
      var r := Positions(dtos);
      var rf := Positions(front);
      if HasPosition(dtos[n - 1]) {
        idx := pre + [n - 1];
        assert r == rf + [PositionOf(dtos[n - 1])];
      } else {
        idx := pre;
        assert r == rf;
      }
      forall i | 0 <= i < |pre| ensures r[i] == PositionOf(dtos[idx[i]]) {
        assert r[i] == rf[i] && front[pre[i]] == dtos[pre[i]];
      }
      forall k | 0 <= k < n - 1 && HasPosition(dtos[k]) ensures k in idx {
        assert front[k] == dtos[k];
      }
    }
  }

  /** `mapApiResponse`: every node mapped, in order, and the positions of those that have them. */
  function MapApiResponse(dtos: seq<NodeDto>): (r: CvData)
    ensures |r.nodes| == |dtos| && forall i :: 0 <= i < |dtos| ==> r.nodes[i] == MapApiNode(dtos[i])
    ensures r.positions == Positions(dtos)
  {
    CvData(seq(|dtos|, i requires 0 <= i < |dtos| => MapApiNode(dtos[i])), Positions(dtos))
  }

  /** `{ ...updates, id }`: the update request body carries the path's id. */
  function UpdateBody(id: string, updates: UpdateNodeCommand): (r: UpdateNodeCommand)
    ensures r.id == id && r == updates.(id := id)
  {
    updates.(id := id)
  }

  /**
   * `ApiCVService`: the CV data, loaded once and kept until a write clears
   * it. A write whose HTTP call fails throws before the cache is cleared.
   */
  class ApiCvService {
    var cachedData: Option<CvData>

    constructor()
      ensures cachedData.None?
    {
      cachedData := None;
    }

    /**
     * `getCVData`: the cached data when there is some, else the mapped
     * response (`nodes` is the response's node list, absent meaning none),
     * which is then cached.
     */
    method GetCvData(nodes: Option<seq<NodeDto>>) returns (data: CvData)
      modifies this
      ensures old(cachedData).Some? ==> data == old(cachedData).value && cachedData == old(cachedData)
      ensures old(cachedData).None? ==>
        data == MapApiResponse(if nodes.Some? then nodes.value else []) && cachedData == Some(data)
    {
      if cachedData.Some? {
        return cachedData.value;
      }
      var fetched := if nodes.Some? then nodes.value else [];
      cachedData := Some(MapApiResponse(fetched));
      data := cachedData.value;
    }

    /** `getNode`: the first node of the CV data with the id. */
    method GetNode(id: string, nodes: Option<seq<NodeDto>>) returns (r: Option<CvNode>)
      modifies this
      ensures cachedData.Some? && r == FindById(cachedData.value.nodes, id)
    {
      var data := GetCvData(nodes);
      r := FindById(data.nodes, id);
    }

    /** `getChildren`: the nodes of the CV data whose parentId is `parentId`, in order. */
    method GetChildren(parentId: string, nodes: Option<seq<NodeDto>>) returns (r: seq<CvNode>)
      modifies this
      ensures cachedData.Some? && r == ChildrenOf(cachedData.value.nodes, Some(parentId))
      ensures forall n :: n in r <==> n in cachedData.value.nodes && n.parentId == Some(parentId)
    {
      var data := GetCvData(nodes);
      r := ChildrenOf(data.nodes, Some(parentId));
      ChildrenOfMembers(data.nodes, Some(parentId));
    }

    /** `searchNodes`: the search response's nodes, mapped; the cache is not involved. */
    method SearchNodes(response: Option<seq<NodeDto>>) returns (r: seq<CvNode>)
      ensures var found := if response.Some? then response.value else [];
        |r| == |found| && forall i :: 0 <= i < |r| ==> r[i] == MapApiNode(found[i])
    {
      var found := if response.Some? then response.value else [];
      r := MapApiResponse(found).nodes;
    }

    /**
     * `updateNode`: sends the body with the path's id; on success clears the
     * cache and returns the mapped response, on failure leaves the cache.
     */
    method UpdateNode(id: string, updates: UpdateNodeCommand, response: Option<NodeDto>)
      returns (body: UpdateNodeCommand, r: Option<CvNode>)
      modifies this
      ensures body == UpdateBody(id, updates)
      ensures response.Some? ==> cachedData.None? && r == Some(MapApiNode(response.value))
      ensures response.None? ==> cachedData == old(cachedData) && r.None?
    {
      body := UpdateBody(id, updates);
      if response.None? {
        return body, None;
      }
      ClearCache();
      r := Some(MapApiNode(response.value));
    }

    /** `deleteNode`: on success the cache is cleared. */
    method DeleteNode(id: string, succeeded: bool)
      modifies this
      ensures succeeded ==> cachedData.None?
      ensures !succeeded ==> cachedData == old(cachedData)
    {
      if succeeded {
        ClearCache();
      }
    }

    /**
     * `createNode`: sent to the endpoint of the node's type; on success the
     * cache is cleared and the created node returned.
     */
    method CreateNode(t: NodeType, response: Option<NodeDto>) returns (endpoint: ApiType, r: Option<CvNode>)
      modifies this
      ensures endpoint == ApiTypeOf(t)
      ensures response.Some? ==> cachedData.None? && r == Some(MapApiNode(response.value))
      ensures response.None? ==> cachedData == old(cachedData) && r.None?
    {
      endpoint := ApiTypeOf(t);
      if response.None? {
        return endpoint, None;
      }
      ClearCache();
      r := Some(MapApiNode(response.value));
    }

    /** `clearCache`. */
    method ClearCache()
      modifies this
      ensures cachedData.None?
    {
      cachedData := None;
    }
  }
}
