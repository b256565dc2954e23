/**
 * The wire format between the frontend and the backend: the node DTO
 * (`CvNodeDto.java`, mirrored by the frontend's generated types) and the
 * create and update commands. Strings the JSON may leave out or set to null
 * are `Option`s; a JSON attribute object is a map from keys to values.
 */
module Api {
  import opened Common

  /** The backend's `NodeType` enum. */
  datatype ApiType = ProfileType | CategoryType | ItemType | SkillGroupType | SkillType

  /** A JSON value inside an `attributes` object. */
  datatype AttrValue =
    | AttrString(s: string)
    | AttrStrings(items: seq<string>)
    | AttrNumber(n: int)
    | AttrBool(b: bool)
    | AttrNull

  type Attributes = map<string, AttrValue>

  /** `CvNodeDto`. */
  datatype NodeDto = NodeDto(
    id: string,
    nodeType: ApiType,
    parentId: Option<string>,
    labelText: Option<string>,
    description: Option<string>,
    attributes: Option<Attributes>,
    positionX: Option<int>,
    positionY: Option<int>)

  /** The fields every create command carries (`CreateNodeCommand`). */
  datatype CommandBase = CommandBase(
    id: string,
    parentId: Option<string>,
    labelText: string,
    description: Option<string>,
    positionX: Option<int>,
    positionY: Option<int>)

  /** The five create commands, one per node type. */
  datatype CreateNodeCommand =
    | CreateProfile(base: CommandBase, name: Option<string>, title: Option<string>, subtitle: Option<string>,
                    experience: Option<string>, email: Option<string>, location: Option<string>,
                    photoUrl: Option<string>)
    | CreateCategory(base: CommandBase, sectionId: Option<string>)
    | CreateItem(base: CommandBase, company: Option<string>, dateRange: Option<string>, location: Option<string>,
                 highlights: Option<seq<string>>, technologies: Option<seq<string>>)
    | CreateSkillGroup(base: CommandBase, proficiencyLevel: Option<string>)
    | CreateSkill(base: CommandBase, proficiencyLevel: Option<string>, yearsOfExperience: Option<int>)

  /** `UpdateNodeCommand`: every field but the id may be null, meaning "leave as it is". */
  datatype UpdateNodeCommand = UpdateNodeCommand(
    id: string,
    parentId: Option<string>,
    labelText: Option<string>,
    description: Option<string>,
    attributes: Option<Attributes>,
    positionX: Option<int>,
    positionY: Option<int>)
}
