/**
 * A node's way through the system: the create dialog's command, sent as
 * the backend's create command, saved by the node service, returned as a
 * DTO and mapped back to a frontend node. What survives the trip, and what
 * does not (the draft flag), is stated here.
 */
module RoundTrip {
  import opened Common
  import opened CvModel
  import opened Api
  import opened CreateDialog
  import CvService
  import NodeService

  /**
   * The JSON body the dialog's command becomes on the endpoint of its type:
   * the fields that endpoint's command declares; the `attributes` entry
   * (where the draft flag is) is not among them.
   */
  function ToApiCommand(t: NodeType, c: CreateCommand): (r: CreateNodeCommand)
    ensures r.base == CommandBase(c.id, Some(c.parentId), c.labelText, c.description, None, None)
    ensures NodeService.CommandType(r) == CvService.ApiTypeOf(t)
  {
    var base := CommandBase(c.id, Some(c.parentId), c.labelText, c.description, None, None);
    match t
    case Profile => CreateProfile(base, None, None, None, None, None, None, None)
    case Category => CreateCategory(base, c.sectionId)
    case Item => CreateItem(base, c.company, c.dateRange, c.location, None, None)
    case SkillGroup => CreateSkillGroup(base, c.proficiencyLevel)
    case Skill => CreateSkill(base, c.proficiencyLevel, None)
  }

  /** The frontend node the backend returns for a create command, given the store it is saved into. */
  function CreatedNode(store: map<string, NodeService.NodeEntity>, cmd: CreateNodeCommand): CvNode {
    CvService.MapApiNode(NodeService.ToDto(NodeService.CreatedEntity(store, cmd)))
  }

  /** A put whose key no later field repeats decides that key's value. */
  lemma {:induction false} PutAllLast(m: Attributes, fields: seq<(string, Option<AttrValue>)>, i: int)
    requires 0 <= i < |fields| && fields[i].1.Some?
    requires forall j :: i < j < |fields| ==> fields[j].0 != fields[i].0
    ensures fields[i].0 in NodeService.PutAll(m, fields)
    ensures NodeService.PutAll(m, fields)[fields[i].0] == fields[i].1.value
  {
    var n := |fields|;
    var front := fields[..n - 1];
    assert NodeService.PutAll(m, fields)
      == NodeService.PutIfNotNull(NodeService.PutAll(m, front), fields[n - 1].0, fields[n - 1].1);
    if i < n - 1 {
      assert front[i] == fields[i];
      assert forall j :: i < j < |front| ==> front[j] == fields[j];
      PutAllLast(m, front, i);
    }
  }

  /** The backend command a dialog submission with a non-blank label arrives as. */
  function SubmittedCommand(t: NodeType, form: FormData, parent: CvNode, uuid: string): CreateNodeCommand
    requires Trim(form.labelText) != ""
  {
    ToApiCommand(t, Submission(Some(t), form, parent, uuid).value.1)
  }

  /**
   * A submitted node comes back with the dialog's id, type, trimmed label
   * and description, and its parent when the parent is stored; and as not a
   * draft, although the dialog marked it as one.
   */
  lemma SubmittedNodeComesBack(t: NodeType, form: FormData, parent: CvNode, uuid: string,
                               store: map<string, NodeService.NodeEntity>)
    requires Trim(form.labelText) != ""
    ensures Submission(Some(t), form, parent, uuid).value.1.draft
    ensures var node := CreatedNode(store, SubmittedCommand(t, form, parent, uuid));
      && node.id == uuid && node.Type() == t && node.labelText == Trim(form.labelText)
      && node.description == Submission(Some(t), form, parent, uuid).value.1.description
      && node.parentId == (if parent.id in store then Some(parent.id) else None)
      && !node.isDraft
  {
    CvService.MapNodeTypeBijective(CvService.ApiTypeOf(t), t);
  }

  /**
   * A string field the command gives under a key no other field uses reads
   * back from the stored attributes as the command gave it, null as absent.
   */
  lemma StringFieldComesBack(cmd: CreateNodeCommand, i: int, v: Option<string>)
    requires 0 <= i < |NodeService.TypeFields(cmd)| && NodeService.TypeFields(cmd)[i].1 == NodeService.StringValue(v)
    requires forall j :: 0 <= j < |NodeService.TypeFields(cmd)| && j != i ==>
      NodeService.TypeFields(cmd)[j].0 != NodeService.TypeFields(cmd)[i].0
    ensures CvService.StringAttr(NodeService.CreatedAttributes(cmd), NodeService.TypeFields(cmd)[i].0) == v
  {
    var fields := NodeService.TypeFields(cmd);
    if v.Some? {
      PutAllLast(map[], fields, i);
    }
  }

  /**
   * A created category reads back with the section it was given, or else with
   * its own id as section. The running API refuses a category command without
   * a sectionId (bean validation, not part of this model) with 400.
   */
  lemma CategoryReadsBack(store: map<string, NodeService.NodeEntity>, base: CommandBase, sectionId: Option<string>)
    ensures CreatedNode(store, CreateCategory(base, sectionId)).details.sectionId
      == Some(if sectionId.Some? then sectionId.value else base.id)
  {
    StringFieldComesBack(CreateCategory(base, sectionId), 0, sectionId);
  }

  /** A created profile reads back with the name it was given, or else its label as name. */
  lemma ProfileNameReadsBack(store: map<string, NodeService.NodeEntity>, base: CommandBase, name: Option<string>,
                             title: Option<string>, subtitle: Option<string>, experience: Option<string>,
                             email: Option<string>, location: Option<string>, photoUrl: Option<string>)
    ensures CreatedNode(store, CreateProfile(base, name, title, subtitle, experience, email, location, photoUrl))
      .details.name == if name.Some? then name.value else base.labelText
  {
    var cmd := CreateProfile(base, name, title, subtitle, experience, email, location, photoUrl);
    var fields := NodeService.TypeFields(cmd);
    assert |fields| == 7;
    assert |fields[0].0| == 4 && fields[1].0[0] == 't' && fields[2].0[0] == 's' && fields[3].0[0] == 'e'
      && fields[4].0[0] == 'e' && fields[5].0[0] == 'l' && fields[6].0[0] == 'p';
    StringFieldComesBack(cmd, 0, name);
  }

  /** A created item reads back with the company, date range and location it was given. */
  lemma ItemReadsBack(store: map<string, NodeService.NodeEntity>, base: CommandBase, company: Option<string>,
                      dateRange: Option<string>, location: Option<string>,
                      highlights: Option<seq<string>>, technologies: Option<seq<string>>)
    ensures var d := CreatedNode(store, CreateItem(base, company, dateRange, location, highlights, technologies)).details;
      d.company == company && d.dateRange == dateRange && d.itemLocation == location
  {
    var cmd := CreateItem(base, company, dateRange, location, highlights, technologies);
    var fields := NodeService.TypeFields(cmd);
    assert |fields| == 5;
    assert |fields[0].0| == 7 && |fields[1].0| == 9 && |fields[2].0| == 8 && |fields[3].0| == 10 && |fields[4].0| == 12;
    StringFieldComesBack(cmd, 0, company);
    StringFieldComesBack(cmd, 1, dateRange);
    StringFieldComesBack(cmd, 2, location);
  }

  /** A created skill group reads back with the level it was given. */
  lemma GroupLevelReadsBack(store: map<string, NodeService.NodeEntity>, base: CommandBase, level: Option<string>)
    ensures CreatedNode(store, CreateSkillGroup(base, level)).details.proficiencyLevel == level
  {
    StringFieldComesBack(CreateSkillGroup(base, level), 0, level);
  }

  /** A created skill reads back with the level it was given, whatever its years of experience. */
  lemma SkillLevelReadsBack(store: map<string, NodeService.NodeEntity>, base: CommandBase, level: Option<string>,
                            years: Option<int>)
    ensures CreatedNode(store, CreateSkill(base, level, years)).details.proficiencyLevel == level
  {
    var cmd := CreateSkill(base, level, years);
    var fields := NodeService.TypeFields(cmd);
    assert |fields| == 2 && |fields[0].0| == 16 && |fields[1].0| == 17;
    StringFieldComesBack(cmd, 0, level);
  }

  /** The base command every submission arrives with. */
  function SubmittedBase(form: FormData, parent: CvNode, uuid: string): CommandBase {
    var desc := Trim(form.description);
    CommandBase(uuid, Some(parent.id), Trim(form.labelText), if desc == "" then None else Some(desc), None, None)
  }

  /** The backend command of a submission, field by field: the form's set fields of the chosen type. */
  lemma SubmittedCommandShape(t: NodeType, form: FormData, parent: CvNode, uuid: string)
    requires Trim(form.labelText) != ""
    ensures var base := SubmittedBase(form, parent, uuid);
      SubmittedCommand(t, form, parent, uuid) == match t
        case Profile => CreateProfile(base, None, None, None, None, None, None, None)
        case Category => CreateCategory(base, IfTruthy(form.sectionId))
        case Item => CreateItem(base, IfTruthy(form.company), IfTruthy(form.dateRange), IfTruthy(form.location), None, None)
        case SkillGroup => CreateSkillGroup(base, IfTruthy(form.proficiencyLevel))
        case Skill => CreateSkill(base, IfTruthy(form.proficiencyLevel), None)
  {
    var desc := Trim(form.description);
    assert Submission(Some(t), form, parent, uuid).value.1 == CreateCommand(
      uuid, parent.id, Trim(form.labelText), if desc == "" then None else Some(desc),
      if t == Category then IfTruthy(form.sectionId) else None,
      if t == Item then IfTruthy(form.company) else None,
      if t == Item then IfTruthy(form.dateRange) else None,
      if t == Item then IfTruthy(form.location) else None,
      if t == Skill || t == SkillGroup then IfTruthy(form.proficiencyLevel) else None,
      true);
  }

  /**
   * A submitted category comes back with the section the form chose, or else
   * with its own id as section. The running API refuses the second case with
   * 400, because it validates that a sectionId is present.
   */
  lemma SubmittedCategorySection(form: FormData, parent: CvNode, uuid: string,
                                 store: map<string, NodeService.NodeEntity>)
    requires Trim(form.labelText) != ""
    ensures CreatedNode(store, SubmittedCommand(Category, form, parent, uuid)).details.sectionId
      == Some(if Truthy(form.sectionId) then form.sectionId.value else uuid)
  {
    SubmittedCommandShape(Category, form, parent, uuid);
    CategoryReadsBack(store, SubmittedBase(form, parent, uuid), IfTruthy(form.sectionId));
  }

  /** A submitted item comes back with the company, date range and location the form set. */
  lemma SubmittedItemFields(form: FormData, parent: CvNode, uuid: string,
                            store: map<string, NodeService.NodeEntity>)
    requires Trim(form.labelText) != ""
    ensures var d := CreatedNode(store, SubmittedCommand(Item, form, parent, uuid)).details;
      d.company == IfTruthy(form.company) && d.dateRange == IfTruthy(form.dateRange) && d.itemLocation == IfTruthy(form.location)
  {
    SubmittedCommandShape(Item, form, parent, uuid);
    ItemReadsBack(store, SubmittedBase(form, parent, uuid), IfTruthy(form.company), IfTruthy(form.dateRange),
                  IfTruthy(form.location), None, None);
  }

  /** A submitted skill group or skill comes back with the level the form set. */
  lemma SubmittedLevel(t: NodeType, form: FormData, parent: CvNode, uuid: string,
                       store: map<string, NodeService.NodeEntity>)
    requires Trim(form.labelText) != "" && (t == SkillGroup || t == Skill)
    ensures CreatedNode(store, SubmittedCommand(t, form, parent, uuid)).details.proficiencyLevel
      == IfTruthy(form.proficiencyLevel)
  {
    SubmittedCommandShape(t, form, parent, uuid);
    if t == SkillGroup {
      GroupLevelReadsBack(store, SubmittedBase(form, parent, uuid), IfTruthy(form.proficiencyLevel));
    } else {
      SkillLevelReadsBack(store, SubmittedBase(form, parent, uuid), IfTruthy(form.proficiencyLevel), None);
    }
  }

  /**
   * The frontend publishes a node by updating its attributes to the draft
   * flag alone; since the service replaces the attributes as a whole, the
   * item's company (and every other attribute) is gone afterwards.
   */
  lemma PublishDropsAttributes(store: map<string, NodeService.NodeEntity>, e: NodeService.NodeEntity, publish: bool)
    requires e.nodeType == ItemType
    ensures var cmd := UpdateNodeCommand(e.id, None, None, None, Some(map["isDraft" := AttrBool(!publish)]), None, None);
      var after := CvService.MapApiNode(NodeService.ToDto(NodeService.UpdatedEntity(store, e, cmd)));
      after.details.company.None? && after.details.highlights.None? && !after.isDraft
  {
  }
}
