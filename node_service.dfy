/**
 * The backend's node service (`CvNodeService.java`) over its repository.
 * The repository is a map from id to entity, together with the ids in the
 * order the nodes were created, which is the order the queries list them in.
 * Deleting is soft: the entity stays, flagged, and the active queries skip it.
 */
module NodeService {
  import opened Common
  import opened Api

  /** A stored `CvNode` entity; the label is never null. */
  datatype NodeEntity = NodeEntity(
    id: string,
    nodeType: ApiType,
    parentId: Option<string>,
    labelText: string,
    description: Option<string>,
    attributes: Option<Attributes>,
    positionX: Option<int>,
    positionY: Option<int>,
    deleted: bool)

  /** `toDto`: the entity's fields, the parent by its id. */
  function ToDto(e: NodeEntity): NodeDto {
    NodeDto(e.id, e.nodeType, e.parentId, Some(e.labelText), e.description, e.attributes, e.positionX, e.positionY)
  }

  // ---------------------------------------------------------------------------
  // Active queries
  // ---------------------------------------------------------------------------

  /** Which active query is asked: all nodes, the children of a parent, or a text search. */
  datatype Query = AllActive | ActiveChildren(parentId: string) | SearchActive(text: string)

  /**
   * Whether a query lists an entity: never a deleted one; a child query by
   * its parent id; a search by a case-insensitive substring of the label or
   * of a description that is present.
   */
  predicate Selects(q: Query, e: NodeEntity) {
    !e.deleted &&
    match q
    case AllActive => true
    case ActiveChildren(p) => e.parentId == Some(p)
    case SearchActive(text) =>
      Contains(ToLower(e.labelText), ToLower(text))
      || (e.description.Some? && Contains(ToLower(e.description.value), ToLower(text)))
  }

  /** The stored entities under `ids`, in that order. */
  function EntitiesOf(store: map<string, NodeEntity>, ids: seq<string>): (r: seq<NodeEntity>)
    requires forall id :: id in ids ==> id in store
    ensures |r| == |ids| && forall i :: 0 <= i < |ids| ==> r[i] == store[ids[i]]
  {
    seq(|ids|, i requires 0 <= i < |ids| => store[ids[i]])
  }

  /** The DTOs of the entities `q` lists, in order. */
  function Select(es: seq<NodeEntity>, q: Query): (r: seq<NodeDto>)
    ensures |r| <= |es|
  {
    if es == [] then []
    else
      var n := |es|;
      Select(es[..n - 1], q) + (if Selects(q, es[n - 1]) then [ToDto(es[n - 1])] else [])
  }

  /**
   * `Select` lists exactly the entities the query selects, each once, in
   * order: `idx` says which entity each result comes from.
   */
  lemma {:induction false} SelectInOrder(es: seq<NodeEntity>, q: Query) returns (idx: seq<int>)
    ensures var r := Select(es, q);
      && |idx| == |r|
      && (forall i :: 0 <= i < |idx| ==> 0 <= idx[i] < |es| && Selects(q, es[idx[i]]) && r[i] == ToDto(es[idx[i]]))
      && (forall i, j :: 0 <= i < j < |idx| ==> idx[i] < idx[j])
      && (forall k :: 0 <= k < |es| && Selects(q, es[k]) ==> k in idx)
  {
    if es == [] {
      idx := [];
    } else {
      var n := |es|;
      var front := es[..n - 1];
      var pre := SelectInOrder(front, q);
      var r := Select(es, q);
      var rf := Select(front, q);
      if Selects(q, es[n - 1]) {
        idx := pre + [n - 1];
        assert r == rf + [ToDto(es[n - 1])];
      } else {
        idx := pre;
        assert r == rf;
      }
      forall i | 0 <= i < |pre| ensures idx[i] == pre[i] && Selects(q, es[idx[i]]) && r[i] == ToDto(es[idx[i]]) {
        assert r[i] == rf[i] && front[pre[i]] == es[pre[i]];
      }
      forall k | 0 <= k < n - 1 && Selects(q, es[k]) ensures k in idx {
        assert front[k] == es[k];
      }
    }
  }

  /** A DTO is listed exactly when it is the DTO of an entity the query selects. */
  lemma SelectMembers(es: seq<NodeEntity>, q: Query, dto: NodeDto)
    ensures dto in Select(es, q) <==> exists e :: e in es && Selects(q, e) && dto == ToDto(e)
  {
    var r := Select(es, q);
    var idx := SelectInOrder(es, q);
    if exists e :: e in es && Selects(q, e) && dto == ToDto(e) {
      var e :| e in es && Selects(q, e) && dto == ToDto(e);
      var k :| 0 <= k < |es| && es[k] == e;
      var i :| 0 <= i < |idx| && idx[i] == k;
      assert r[i] == dto;
    }
    if dto in r {
      var i :| 0 <= i < |r| && r[i] == dto;
      assert es[idx[i]] in es;
    }
  }

  // ---------------------------------------------------------------------------
  // Commands
  // ---------------------------------------------------------------------------

  /** `putIfNotNull(map, key, value)`. */
  function PutIfNotNull(m: Attributes, key: string, value: Option<AttrValue>): (r: Attributes)
    ensures value.Some? ==> r == m[key := value.value]
    ensures value.None? ==> r == m
  {
    if value.Some? then m[key := value.value] else m
  }

  function StringValue(s: Option<string>): Option<AttrValue> {
    if s.Some? then Some(AttrString(s.value)) else None
  }

  function StringsValue(s: Option<seq<string>>): Option<AttrValue> {
    if s.Some? then Some(AttrStrings(s.value)) else None
  }

  function NumberValue(n: Option<int>): Option<AttrValue> {
    if n.Some? then Some(AttrNumber(n.value)) else None
  }

  /** The attribute keys a create command fills, with the value each would get. */
  function TypeFields(cmd: CreateNodeCommand): seq<(string, Option<AttrValue>)> {
    match cmd
    case CreateProfile(_, name, title, subtitle, experience, email, location, photoUrl) =>
      [("name", StringValue(name)), ("title", StringValue(title)), ("subtitle", StringValue(subtitle)),
       ("experience", StringValue(experience)), ("email", StringValue(email)),
       ("location", StringValue(location)), ("photoUrl", StringValue(photoUrl))]
    case CreateCategory(_, sectionId) => [("sectionId", StringValue(sectionId))]
    case CreateItem(_, company, dateRange, location, highlights, technologies) =>
      [("company", StringValue(company)), ("dateRange", StringValue(dateRange)),
       ("location", StringValue(location)), ("highlights", StringsValue(highlights)),
       ("technologies", StringsValue(technologies))]
    case CreateSkillGroup(_, proficiencyLevel) => [("proficiencyLevel", StringValue(proficiencyLevel))]
    case CreateSkill(_, proficiencyLevel, yearsOfExperience) =>
      [("proficiencyLevel", StringValue(proficiencyLevel)), ("yearsOfExperience", NumberValue(yearsOfExperience))]
  }

  /** The attribute map after putting each field in turn, when it is not null. */
  function PutAll(m: Attributes, fields: seq<(string, Option<AttrValue>)>): (r: Attributes)
    ensures forall key :: key in r <==> key in m || exists i :: 0 <= i < |fields| && fields[i].0 == key && fields[i].1.Some?
  {
    if fields == [] then m
    else
      var n := |fields|;
      var front := PutAll(m, fields[..n - 1]);
      assert forall i :: 0 <= i < n - 1 ==> fields[..n - 1][i] == fields[i];
      PutIfNotNull(front, fields[n - 1].0, fields[n - 1].1)
  }

  /** The type a create command gives the node. */
  function CommandType(cmd: CreateNodeCommand): ApiType {
    match cmd
    case CreateProfile(_, _, _, _, _, _, _, _) => ProfileType
    case CreateCategory(_, _) => CategoryType
    case CreateItem(_, _, _, _, _, _) => ItemType
    case CreateSkillGroup(_, _) => SkillGroupType
    case CreateSkill(_, _, _) => SkillType
  }

  /**
   * The attributes `create` stores: the non-null type-specific fields, and
   * none at all rather than an empty map.
   */
  function CreatedAttributes(cmd: CreateNodeCommand): (r: Option<Attributes>)
    ensures r.None? <==> forall i :: 0 <= i < |TypeFields(cmd)| ==> TypeFields(cmd)[i].1.None?
    ensures r.Some? ==> forall key :: key in r.value <==>
      exists i :: 0 <= i < |TypeFields(cmd)| && TypeFields(cmd)[i].0 == key && TypeFields(cmd)[i].1.Some?
  {
    var attributes := PutAll(map[], TypeFields(cmd));
    if attributes == map[] then
      assert forall i :: 0 <= i < |TypeFields(cmd)| ==> TypeFields(cmd)[i].0 !in attributes;
      None
    else
      Some(attributes)
  }

  /** The entity `create` saves: the parent only when the id it names is stored (deleted or not). */
  function CreatedEntity(store: map<string, NodeEntity>, cmd: CreateNodeCommand): (r: NodeEntity)
    ensures r.id == cmd.base.id && r.nodeType == CommandType(cmd) && !r.deleted
    ensures r.labelText == cmd.base.labelText && r.description == cmd.base.description
    ensures r.positionX == cmd.base.positionX && r.positionY == cmd.base.positionY
    ensures r.parentId.Some? <==> cmd.base.parentId.Some? && cmd.base.parentId.value in store
    ensures r.parentId.Some? ==> r.parentId == cmd.base.parentId
    ensures r.attributes == CreatedAttributes(cmd)
  {
    var b := cmd.base;
    NodeEntity(b.id, CommandType(cmd), if b.parentId.Some? && b.parentId.value in store then b.parentId else None,
               b.labelText, b.description, CreatedAttributes(cmd), b.positionX, b.positionY, false)
  }

  /**
   * The entity `update` saves: each field the command gives replaces the
   * stored one (the attributes as a whole), and the parent changes only to
   * a stored node.
   */
  function UpdatedEntity(store: map<string, NodeEntity>, e: NodeEntity, cmd: UpdateNodeCommand): (r: NodeEntity)
    ensures r.id == e.id && r.nodeType == e.nodeType && r.deleted == e.deleted
    ensures r.labelText == (if cmd.labelText.Some? then cmd.labelText.value else e.labelText)
    ensures r.description == (if cmd.description.Some? then cmd.description else e.description)
    ensures r.attributes == (if cmd.attributes.Some? then cmd.attributes else e.attributes)
    ensures r.positionX == (if cmd.positionX.Some? then cmd.positionX else e.positionX)
    ensures r.positionY == (if cmd.positionY.Some? then cmd.positionY else e.positionY)
    ensures r.parentId == (if cmd.parentId.Some? && cmd.parentId.value in store then cmd.parentId else e.parentId)
  {
    e.(labelText := if cmd.labelText.Some? then cmd.labelText.value else e.labelText,
       description := if cmd.description.Some? then cmd.description else e.description,
       attributes := if cmd.attributes.Some? then cmd.attributes else e.attributes,
       positionX := if cmd.positionX.Some? then cmd.positionX else e.positionX,
       positionY := if cmd.positionY.Some? then cmd.positionY else e.positionY,
       parentId := if cmd.parentId.Some? && cmd.parentId.value in store then cmd.parentId else e.parentId)
  }

  /** An update that gives no field leaves the entity as it is. */
  lemma EmptyUpdateKeeps(store: map<string, NodeEntity>, e: NodeEntity, id: string)
    ensures UpdatedEntity(store, e, UpdateNodeCommand(id, None, None, None, None, None, None)) == e
  {
  }

  /** Applying the same update twice is the same as applying it once. */
  lemma UpdateIdempotent(store: map<string, NodeEntity>, e: NodeEntity, cmd: UpdateNodeCommand)
    ensures UpdatedEntity(store, UpdatedEntity(store, e, cmd), cmd) == UpdatedEntity(store, e, cmd)
  {
  }

  /** Attributes given to `update` replace the stored ones: no stored key survives unless given again. */
  lemma UpdateReplacesAttributes(store: map<string, NodeEntity>, e: NodeEntity, cmd: UpdateNodeCommand, key: string)
    requires cmd.attributes.Some? && key !in cmd.attributes.value
    ensures UpdatedEntity(store, e, cmd).attributes.Some?
    ensures key !in UpdatedEntity(store, e, cmd).attributes.value
  {
  }

  // ---------------------------------------------------------------------------
  // The service
  // ---------------------------------------------------------------------------

  /** The `switch` of `create`: each type-specific field put into the map in turn. */
  method BuildAttributes(cmd: CreateNodeCommand) returns (attributes: Attributes)
    ensures attributes == PutAll(map[], TypeFields(cmd))
    ensures attributes == map[] <==> CreatedAttributes(cmd).None?
  {
    attributes := map[];
    var fields := TypeFields(cmd);
    for i := 0 to |fields|
      invariant attributes == PutAll(map[], fields[..i])
    {
      attributes := PutIfNotNull(attributes, fields[i].0, fields[i].1);
      assert fields[..i + 1][..i] == fields[..i];
    }
    assert fields[..|fields|] == fields;
  }

  predicate Distinct(ids: seq<string>) {
    forall i, j :: 0 <= i < j < |ids| ==> ids[i] != ids[j]
  }

  class CvNodeService {
    /** The repository: every entity by id, and the ids in creation order. */
    var store: map<string, NodeEntity>
    var order: seq<string>

    /** Every stored entity is filed under its own id and listed once in the creation order. */
    ghost predicate Valid()
      reads this
    {
      (forall id :: id in store ==> store[id].id == id)
      && (forall id :: id in store <==> id in order)
      && Distinct(order)
    }

    constructor()
      ensures Valid() && store == map[] && order == []
    {
      store := map[];
      order := [];
    }

    /** `getAllNodes` (`findAllActive`): every node not deleted, in creation order. */
    function GetAllNodes(): (r: seq<NodeDto>)
      requires Valid()
      reads this
      ensures r == Select(EntitiesOf(store, order), AllActive)
    {
      Select(EntitiesOf(store, order), AllActive)
    }

    /** `getNode` (`findActiveById`): the node with the id, unless it is missing or deleted. */
    function GetNode(id: string): (r: Option<NodeDto>)
      reads this
      ensures r.Some? <==> id in store && !store[id].deleted
      ensures r.Some? ==> r.value == ToDto(store[id])
    {
      if id in store && !store[id].deleted then Some(ToDto(store[id])) else None
    }

    /** `getChildren` (`findActiveByParentId`): the children not deleted, in creation order. */
    function GetChildren(parentId: string): (r: seq<NodeDto>)
      requires Valid()
      reads this
      ensures r == Select(EntitiesOf(store, order), ActiveChildren(parentId))
    {
      Select(EntitiesOf(store, order), ActiveChildren(parentId))
    }

    /** `search` (`searchActive`): the nodes not deleted whose label or description contains the text. */
    function Search(query: string): (r: seq<NodeDto>)
      requires Valid()
      reads this
      ensures r == Select(EntitiesOf(store, order), SearchActive(query))
    {
      Select(EntitiesOf(store, order), SearchActive(query))
    }

    /**
     * `create`: builds the entity field by field, fills the attribute map
     * with the non-null type-specific fields, and saves it; saving under an
     * id already stored replaces that entity in its place.
     */
    method Create(cmd: CreateNodeCommand) returns (dto: NodeDto)
      requires Valid()
      modifies this
      ensures Valid()
      ensures store == old(store)[cmd.base.id := CreatedEntity(old(store), cmd)]
      ensures order == if cmd.base.id in old(store) then old(order) else old(order) + [cmd.base.id]
      ensures dto == ToDto(CreatedEntity(old(store), cmd))
    {
      var node := NewEntity(cmd);
      Save(node);
      dto := ToDto(node);
    }

    /** The entity `create` builds, setter by setter. */
    method NewEntity(cmd: CreateNodeCommand) returns (node: NodeEntity)
      ensures node == CreatedEntity(store, cmd)
    {
      var b := cmd.base;
      node := NodeEntity(b.id, CommandType(cmd), None, b.labelText, b.description, None,
                         b.positionX, b.positionY, false);
      if b.parentId.Some? && b.parentId.value in store {
        node := node.(parentId := b.parentId);
      }
      var attributes := BuildAttributes(cmd);
      if attributes != map[] {
        node := node.(attributes := Some(attributes));
      }
    }

    /** `repository.save`: the entity is filed under its id; a new id joins the end of the creation order. */
    method Save(node: NodeEntity)
      requires Valid()
      modifies this
      ensures Valid()
      ensures store == old(store)[node.id := node]
      ensures order == if node.id in old(store) then old(order) else old(order) + [node.id]
    {
      if node.id !in store {
        order := order + [node.id];
      }
      store := store[node.id := node];
    }

    /**
     * `update`: nothing for a missing or deleted node; otherwise the fields
     * the command gives are written and the node saved.
     */
    method Update(cmd: UpdateNodeCommand) returns (r: Option<NodeDto>)
      requires Valid()
      modifies this
      ensures Valid() && order == old(order)
      ensures cmd.id !in old(store) || old(store)[cmd.id].deleted ==> r.None? && store == old(store)
      ensures cmd.id in old(store) && !old(store)[cmd.id].deleted ==>
        var e := UpdatedEntity(old(store), old(store)[cmd.id], cmd);
        store == old(store)[cmd.id := e] && r == Some(ToDto(e))
    {
      if cmd.id !in store || store[cmd.id].deleted {
        return None;
      }
      var node := store[cmd.id];
      if cmd.labelText.Some? { node := node.(labelText := cmd.labelText.value); }
      if cmd.description.Some? { node := node.(description := cmd.description); }
      if cmd.attributes.Some? { node := node.(attributes := cmd.attributes); }
      if cmd.positionX.Some? { node := node.(positionX := cmd.positionX); }
      if cmd.positionY.Some? { node := node.(positionY := cmd.positionY); }
      if cmd.parentId.Some? && cmd.parentId.value in store { node := node.(parentId := cmd.parentId); }
      assert node == UpdatedEntity(store, store[cmd.id], cmd);
      store := store[cmd.id := node];
      r := Some(ToDto(node));
    }

    /**
     * `delete`: flags a stored, not yet deleted node and answers true;
     * answers false otherwise. No other node, its children included, changes.
     */
    method Delete(id: string) returns (deleted: bool)
      requires Valid()
      modifies this
      ensures Valid() && order == old(order)
      ensures deleted <==> id in old(store) && !old(store)[id].deleted
      ensures deleted ==> store == old(store)[id := old(store)[id].(deleted := true)]
      ensures !deleted ==> store == old(store)
    {
      if id !in store || store[id].deleted {
        return false;
      }
      store := store[id := store[id].(deleted := true)];
      deleted := true;
    }
  }

  /** The store after `delete` flags `id`. */
  function AfterDelete(store: map<string, NodeEntity>, id: string): map<string, NodeEntity>
    requires id in store
  {
    store[id := store[id].(deleted := true)]
  }

  /**
   * After a delete the node is gone from every active query but still
   * stored, a second delete answers false, and every other node is listed
   * by a query exactly as before.
   */
  lemma DeleteHides(store: map<string, NodeEntity>, id: string, q: Query, other: string)
    requires id in store && other in store && other != id
    ensures var after := AfterDelete(store, id);
      && id in after && after[id].deleted
      && !Selects(q, after[id])
      && (Selects(q, after[other]) <==> Selects(q, store[other]))
  {
  }

  /** No active query lists a deleted node. */
  lemma QueriesSkipDeleted(store: map<string, NodeEntity>, ids: seq<string>, q: Query, dto: NodeDto)
    requires forall id :: id in ids ==> id in store
    requires forall id :: id in store ==> store[id].id == id
    requires dto in Select(EntitiesOf(store, ids), q)
    ensures dto.id in store && !store[dto.id].deleted
  {
    SelectMembers(EntitiesOf(store, ids), q, dto);
  }

  /** The children of a deleted node stay listed as its children. */
  lemma ChildrenOutliveParent(store: map<string, NodeEntity>, id: string, child: string)
    requires id in store && child in store && child != id
    requires Selects(ActiveChildren(id), store[child])
    ensures Selects(ActiveChildren(id), AfterDelete(store, id)[child])
  {
  }

  /** Search ignores case on both sides: a query and its lower-case form find the same nodes. */
  lemma SearchIgnoresCase(e: NodeEntity, text: string)
    ensures Selects(SearchActive(text), e) <==> Selects(SearchActive(ToLower(text)), e)
  {
    LowerIdempotent(text);
  }

  lemma {:induction false} LowerIdempotent(s: string)
    ensures ToLower(ToLower(s)) == ToLower(s)
  {
    if s != [] {
      LowerIdempotent(s[1..]);
      assert ToLower(s)[1..] == ToLower(s[1..]);
    }
  }
}
