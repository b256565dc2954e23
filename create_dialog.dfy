/**
 * The dialog that creates a child node (`CreateNodeDialog.tsx`): which child
 * types a parent admits, which type is preselected, when the form may be
 * submitted, and the create command the submission builds. The new node's
 * id, a random UUID in the application, is a parameter.
 */
module CreateDialog {
  import opened Common
  import opened CvModel

  /** `getAllowedChildTypes`: the node types that may be created under `parent`. */
  function AllowedChildTypes(parent: CvNode): (r: seq<NodeType>)
    ensures |r| <= 1
    ensures r == [] <==> parent.Type() == Item || parent.Type() == Skill
    ensures parent.Type() == Profile ==> r == [Category]
    ensures parent.Type() == Category ==>
      r == (if parent.details.sectionId == Some("skills") then [SkillGroup] else [Item])
    ensures parent.Type() == SkillGroup ==> r == [Skill]
  {
    match parent.Type()
    case Profile => [Category]
    case Category => if parent.details.sectionId == Some("skills") then [SkillGroup] else [Item]
    case SkillGroup => [Skill]
    case _ => []
  }

  /** Every type a parent admits sits one level further down the tree than the parent. */
  function Depth(t: NodeType): nat {
    match t
    case Profile => 0
    case Category => 1
    case Item => 2
    case SkillGroup => 2
    case Skill => 3
  }

  lemma AllowedChildOneLevelDown(parent: CvNode, t: NodeType)
    requires t in AllowedChildTypes(parent)
    ensures Depth(t) == Depth(parent.Type()) + 1
    ensures t != Profile
  {
  }

  /** The type selected when the dialog opens: the only allowed type, if there is exactly one. */
  function InitialType(allowed: seq<NodeType>): (r: Option<NodeType>)
    ensures r.Some? <==> |allowed| == 1
    ensures r.Some? ==> r.value == allowed[0]
  {
    if |allowed| == 1 then Some(allowed[0]) else None
  }

  /** A parent that admits any child has its one child type preselected. */
  lemma InitialTypeOfParent(parent: CvNode)
    requires parent.Type() != Item && parent.Type() != Skill
    ensures InitialType(AllowedChildTypes(parent)).Some?
    ensures InitialType(AllowedChildTypes(parent)).value in AllowedChildTypes(parent)
  {
  }

  /** The dialog is drawn at all only when some child type is allowed. */
  predicate Renders(parent: CvNode) {
    |AllowedChildTypes(parent)| != 0
  }

  /** The form; the optional fields stay unset until edited. */
  datatype FormData = FormData(
    labelText: string,
    description: string,
    sectionId: Option<string>,
    company: Option<string>,
    dateRange: Option<string>,
    location: Option<string>,
    proficiencyLevel: Option<string>)

  /** The form as the dialog resets it: empty label and description, nothing else set. */
  const EmptyForm := FormData("", "", None, None, None, None, None)

  /** `canSubmit`: a type, a label that is not blank, and a section for a category. */
  predicate CanSubmit(selectedType: Option<NodeType>, form: FormData) {
    selectedType.Some? && Trim(form.labelText) != ""
    && (selectedType.value != Category || Truthy(form.sectionId))
  }

  /**
   * The command `handleSubmit` hands to `onCreate`; `draft` is the
   * `attributes.isDraft` entry.
   */
  datatype CreateCommand = CreateCommand(
    id: string,
    parentId: string,
    labelText: string,
    description: Option<string>,
    sectionId: Option<string>,
    company: Option<string>,
    dateRange: Option<string>,
    location: Option<string>,
    proficiencyLevel: Option<string>,
    draft: bool)

  /**
   * What `handleSubmit` sends, or nothing when it returns early: without a
   * type or with a blank label.
   */
  function Submission(selectedType: Option<NodeType>, form: FormData, parent: CvNode, uuid: string)
    : (r: Option<(NodeType, CreateCommand)>)
    ensures r.None? <==> selectedType.None? || Trim(form.labelText) == ""
    ensures r.Some? ==>
      var (t, c) := r.value;
      && t == selectedType.value
      && c.id == uuid
      && c.parentId == parent.id
      && c.labelText == Trim(form.labelText) && c.labelText != "" && IsTrimmed(c.labelText)
      && (c.description.None? <==> Trim(form.description) == "")
      && (c.description.Some? ==> c.description.value == Trim(form.description))
      && (c.sectionId.Some? <==> t == Category && Truthy(form.sectionId))
      && (c.company.Some? <==> t == Item && Truthy(form.company))
      && (c.dateRange.Some? <==> t == Item && Truthy(form.dateRange))
      && (c.location.Some? <==> t == Item && Truthy(form.location))
      && (c.proficiencyLevel.Some? <==> (t == Skill || t == SkillGroup) && Truthy(form.proficiencyLevel))
      && (c.sectionId.Some? ==> c.sectionId == form.sectionId)
      && (c.company.Some? ==> c.company == form.company)
      && (c.dateRange.Some? ==> c.dateRange == form.dateRange)
      && (c.location.Some? ==> c.location == form.location)
      && (c.proficiencyLevel.Some? ==> c.proficiencyLevel == form.proficiencyLevel)
      && c.draft
  {
    if selectedType.None? || Trim(form.labelText) == "" then None
    else
      var t := selectedType.value;
      var desc := Trim(form.description);
      Some((t, CreateCommand(
        uuid, parent.id, Trim(form.labelText), if desc == "" then None else Some(desc),
        if t == Category then IfTruthy(form.sectionId) else None,
        if t == Item then IfTruthy(form.company) else None,
        if t == Item then IfTruthy(form.dateRange) else None,
        if t == Item then IfTruthy(form.location) else None,
        if t == Skill || t == SkillGroup then IfTruthy(form.proficiencyLevel) else None,
        true)))
  }

  /** `handleSubmit`: builds the base command, then adds each type-specific field in turn. */
  method HandleSubmit(selectedType: Option<NodeType>, form: FormData, parent: CvNode, uuid: string)
    returns (r: Option<(NodeType, CreateCommand)>)
    ensures r == Submission(selectedType, form, parent, uuid)
  {
    if selectedType.None? || Trim(form.labelText) == "" {
      return None;
    }
    var t := selectedType.value;
    var desc := Trim(form.description);
    var command := CreateCommand(uuid, parent.id, Trim(form.labelText), if desc == "" then None else Some(desc),
                                 None, None, None, None, None, false);
    if t == Category && Truthy(form.sectionId) {
      command := command.(sectionId := form.sectionId);
    }
    if t == Item {
      if Truthy(form.company) { command := command.(company := form.company); }
      if Truthy(form.dateRange) { command := command.(dateRange := form.dateRange); }
      if Truthy(form.location) { command := command.(location := form.location); }
    }
    if (t == Skill || t == SkillGroup) && Truthy(form.proficiencyLevel) {
      command := command.(proficiencyLevel := form.proficiencyLevel);
    }
    command := command.(draft := true);
    r := Some((t, command));
  }

  /** A form the submit button accepts is always sent. */
  lemma CanSubmitSends(selectedType: Option<NodeType>, form: FormData, parent: CvNode, uuid: string)
    requires CanSubmit(selectedType, form)
    ensures Submission(selectedType, form, parent, uuid).Some?
  {
  }

  /**
   * `handleSubmit` does not repeat the section test of `canSubmit`: a
   * category without a section is sent, without a sectionId. The backend's
   * bean validation, not part of this model, answers such a command with 400.
   */
  lemma CategoryWithoutSectionSent(form: FormData, parent: CvNode, uuid: string)
    requires Trim(form.labelText) != "" && !Truthy(form.sectionId)
    ensures !CanSubmit(Some(Category), form)
    ensures var r := Submission(Some(Category), form, parent, uuid);
      r.Some? && r.value.1.sectionId.None?
  {
  }

  /** The fields of the form the dialog edits one at a time. */
  datatype Field = LabelField | DescriptionField | SectionIdField | CompanyField
                 | DateRangeField | LocationField | ProficiencyLevelField

  /** `handleFieldChange(field, value)`: that field takes the value, the others stay. */
  function SetField(form: FormData, field: Field, value: string): (r: FormData)
    ensures field == LabelField ==> r.labelText == value
    ensures field == DescriptionField ==> r.description == value
    ensures field == SectionIdField ==> r.sectionId == Some(value)
    ensures field == CompanyField ==> r.company == Some(value)
    ensures field == DateRangeField ==> r.dateRange == Some(value)
    ensures field == LocationField ==> r.location == Some(value)
    ensures field == ProficiencyLevelField ==> r.proficiencyLevel == Some(value)
    ensures field != LabelField ==> r.labelText == form.labelText
    ensures field != DescriptionField ==> r.description == form.description
    ensures field != SectionIdField ==> r.sectionId == form.sectionId
    ensures field != CompanyField ==> r.company == form.company
    ensures field != DateRangeField ==> r.dateRange == form.dateRange
    ensures field != LocationField ==> r.location == form.location
    ensures field != ProficiencyLevelField ==> r.proficiencyLevel == form.proficiencyLevel
  {
    match field
    case LabelField => form.(labelText := value)
    case DescriptionField => form.(description := value)
    case SectionIdField => form.(sectionId := Some(value))
    case CompanyField => form.(company := Some(value))
    case DateRangeField => form.(dateRange := Some(value))
    case LocationField => form.(location := Some(value))
    case ProficiencyLevelField => form.(proficiencyLevel := Some(value))
  }

  /** The dialog's selected type and form, for one parent node. */
  class CreateNodeDialog {
    const parent: CvNode
    var selectedType: Option<NodeType>
    var form: FormData

    constructor(parent: CvNode)
      ensures this.parent == parent
      ensures selectedType == InitialType(AllowedChildTypes(parent)) && form == EmptyForm
    {
      this.parent := parent;
      selectedType := InitialType(AllowedChildTypes(parent));
      form := EmptyForm;
    }

    /** Opening the dialog preselects the initial type and clears the form. */
    method Open()
      modifies this
      ensures selectedType == InitialType(AllowedChildTypes(parent)) && form == EmptyForm
    {
      selectedType := InitialType(AllowedChildTypes(parent));
      form := EmptyForm;
    }

    method ChangeField(field: Field, value: string)
      modifies this
      ensures selectedType == old(selectedType) && form == SetField(old(form), field, value)
    {
      form := SetField(form, field, value);
    }

    method SelectType(t: NodeType)
      modifies this
      ensures selectedType == Some(t) && form == old(form)
    {
      selectedType := Some(t);
    }

    /** `handleSubmit` on the current state, with `uuid` as the new node's id. */
    method Submit(uuid: string) returns (r: Option<(NodeType, CreateCommand)>)
      ensures r == Submission(selectedType, form, parent, uuid)
      ensures r.Some? ==> r.value.1.parentId == parent.id && r.value.1.draft
    {
      r := HandleSubmit(selectedType, form, parent, uuid);
    }
  }
}
