# virtual-cv in Dafny

virtual-cv presents a curriculum vitae as a graph of nodes. A single profile
node sits at the centre. Category nodes (work, skills, education, languages)
hang off it. Items and skill groups hang off the categories, and skills hang
off the items and skill groups. This project models the core of the
application in Dafny and proves properties of that model.

Frontend (TypeScript, React):

- `Layout`: the layout engine. It computes node sizes by state, spacing, a
  deterministic hash jitter, and the fan-out of categories, items and
  grandchildren around the profile.
- `Mapper`: the graph assembler. It computes the visual state of every node
  relative to the selection (detailed, quickview or dormant). It builds the
  render nodes, and the edges classed by the states of their two ends.
- `Ancestry` and `NodeUtils`: the walks up the `parentId` links (ancestor ids,
  breadcrumb chain, section icon) and the node type labels.
- `Content`: the markdown content store. The text is split at `# ` headings
  into a map from node id to trimmed body.
- `Search`: the search dialog. It does case-insensitive label and content
  matching, keeps at most ten results, and handles keyboard navigation.
- `CreateDialog`: the create-node dialog. It covers the allowed child types,
  the form, and the command it submits.
- `FeatureFlags`: feature toggles, set by a URL override or by stored names.
- `Errors`: the typed API errors and the user-facing message.
- `Auth`: the sign-in state. It holds the token and user, mirrors them in
  session storage, handles expiry with a five-minute margin, and notifies
  listeners.
- `CvService`: the API client. It maps DTOs to frontend nodes, caches the
  CV, and clears the cache after each write.

Backend (Java, Spring):

- `NodeService`: the node store. It creates nodes with type-specific
  attributes, applies partial updates, soft-deletes nodes, and answers
  active-only queries.
- `Controller`: the REST controller, with its status codes.
- `Whitelist`: the e-mail whitelist filter for write requests.

Shared modules:

- `Api` holds the wire types.
- `CvModel` holds the frontend node types.
- `Common` holds Option, trim, lower-casing and split/join.
- `LayoutProps` holds properties of the layout.
- `RoundTrip` states what a node created in the dialog looks like when it
  comes back from the backend.

Code that changes state step by step is modelled as methods with loops:
layout, parent walks, search filtering, markdown parsing and edges. Each
method is proved equal to a specification function, and the lemmas are
stated about those functions. Stateful services are classes whose methods
state their whole new state.

## Model

| member | source | states |
|---|---|---|
| Common.TrimStart | virtual-cv-ui/src/services/content.service.ts:16 | the result is a suffix of the input that starts with no whitespace, and everything cut off is whitespace |
| Common.TrimEnd | virtual-cv-ui/src/services/content.service.ts:16 | the result is a prefix that ends with no whitespace, and everything cut off is whitespace |
| Common.Trim | virtual-cv-ui/src/services/content.service.ts:16 | the result is trimmed at both ends, and it is empty exactly when the input is all whitespace |
| Common.TrimOfTrimmed | virtual-cv-ui/src/services/content.service.ts:20-21 | trimming an already trimmed string changes nothing |
| Common.TrimDropsTrailingWhitespace | virtual-cv-ui/src/services/content.service.ts:21 | a trimmed non-empty string followed by whitespace trims back to itself |
| Common.ToLower | virtual-cv-ui/src/components/SearchDialog.tsx:65 | lower-casing keeps the length and maps each character on its own |
| Common.Split | virtual-cv-ui/src/services/content.service.ts:19 | splitting yields at least one part, and no part contains the separator |
| Common.JoinSplit | virtual-cv-ui/src/services/content.service.ts:19-21 | joining the parts of a split with the separator gives back the original string |
| Common.SplitWithoutSeparator | virtual-cv-ui/src/services/auth.service.ts:104-108 | a string without the separator splits into itself alone |
| CvModel.TypeNameInjective | virtual-cv-ui/src/types/cv.types.ts:2 | the five node type names are pairwise different |
| CvModel.FindById | virtual-cv-ui/src/utils/node-utils.ts:25 | `nodes.find` by id: a found node is in the list and carries the id |
| CvModel.FindByIdNone | virtual-cv-ui/src/utils/node-utils.ts:25 | the lookup finds nothing exactly when no node carries the id |
| CvModel.FindByIdIsFirst | virtual-cv-ui/src/utils/node-utils.ts:25 | a found node is the first entry of the list that carries the id |
| CvModel.ChildrenOf | virtual-cv-ui/src/services/cv.service.ts:170-173 | the children list is no longer than the node list, and every child has the given parentId |
| CvModel.ChildrenOfMembers | virtual-cv-ui/src/services/cv.service.ts:170-173 | a node is a child exactly when it is in the list with the given parentId |
| CvModel.IdSet | virtual-cv-ui/src/services/cv.mapper.ts:169 | the id set holds exactly the ids that occur in the list |
| CvModel.VisibleNodes | virtual-cv-ui/src/services/cv.mapper.ts:124-126 | a node is visible exactly when it is in the list and is not a draft, or edit mode is on |
| CvModel.VisibleInEditMode | virtual-cv-ui/src/services/cv.mapper.ts:124-126 | in edit mode every node is visible, in the same order |
| Ancestry.RootedMonotone | virtual-cv-ui/src/services/cv.mapper.ts:12-20 | a walk that reaches a root within f steps also does so within any larger bound |
| Ancestry.SelfParentIsCyclic | virtual-cv-ui/src/services/cv.mapper.ts:12-20 | a node that is its own parent makes the links cyclic |
| Ancestry.SelfLoopNeverRooted | virtual-cv-ui/src/services/cv.mapper.ts:12-20 | from a node that is its own parent the walk never reaches a root, whatever the bound |
| Ancestry.GetAncestorIds | virtual-cv-ui/src/services/cv.mapper.ts:8-23 | the loop returns the ancestor ids of the bounded walk on acyclic data |
| Ancestry.AncestorStep | virtual-cv-ui/src/services/cv.mapper.ts:14-16 | one iteration pushes the node's parentId and continues from it, with the measure decreasing |
| Ancestry.WalkFromMissing | virtual-cv-ui/src/services/cv.mapper.ts:13-18 | a walk from an id that no node carries records nothing |
| Ancestry.AncestorsFuel | virtual-cv-ui/src/services/cv.mapper.ts:12-20 | once the walk is rooted, extra steps change nothing |
| Ancestry.SameTail | virtual-cv-ui/src/services/cv.mapper.ts:14-16 | two walks from the same node agree when their walks from its parent agree |
| Ancestry.AncestorIdsUnfold | virtual-cv-ui/src/services/cv.mapper.ts:8-23 | on acyclic data the ancestors are the non-empty parentId followed by the parent's ancestors, or nothing |
| Ancestry.AncestorsAreParentLinks | virtual-cv-ui/src/services/cv.mapper.ts:14-16 | the first ancestor is the node's parentId, each later one is the parentId of the one before, and none is empty |
| Ancestry.AncestorsStopAtRoot | virtual-cv-ui/src/services/cv.mapper.ts:17-19 | a rooted walk ends at a node that has no non-empty parentId or is missing |
| NodeUtils.GetNodeTypeLabel | virtual-cv-ui/src/utils/node-utils.ts:4-17 | every type has a non-empty label, and an item is labelled "Item" |
| NodeUtils.TypeLabelsDistinct | virtual-cv-ui/src/utils/node-utils.ts:4-17 | different types have different labels |
| NodeUtils.GetParentChain | virtual-cv-ui/src/utils/node-utils.ts:20-35 | the loop builds the bounded breadcrumb chain on acyclic data |
| NodeUtils.ChainStep | virtual-cv-ui/src/utils/node-utils.ts:25-28 | one iteration puts the found node in front and continues from its parentId, with the measure decreasing |
| NodeUtils.ChainOfMissing | virtual-cv-ui/src/utils/node-utils.ts:24-31 | an empty or unknown id gives the empty chain |
| NodeUtils.ChainEntries | virtual-cv-ui/src/utils/node-utils.ts:20-35 | the chain ends with the node itself, and each entry is the first node with its (non-empty) id |
| NodeUtils.ChainLinks | virtual-cv-ui/src/utils/node-utils.ts:27-28 | in the chain each entry's parentId names the entry before it |
| NodeUtils.ChainStartsAtRoot | virtual-cv-ui/src/utils/node-utils.ts:24-31 | the chain's first entry has a null or empty parentId, or one that names no node |
| NodeUtils.ChainDistinct | virtual-cv-ui/src/utils/node-utils.ts:20-35 | on acyclic data no node occurs twice in the chain |
| NodeUtils.ChainLength | virtual-cv-ui/src/utils/node-utils.ts:20-35 | on acyclic data the chain is no longer than the node list |
| NodeUtils.NearestCategory | virtual-cv-ui/src/utils/node-utils.ts:39-42 | the climb ends at a category, and a category is its own nearest category |
| NodeUtils.FindSection | virtual-cv-ui/src/utils/node-utils.ts:45 | a found section is in the catalogue with the id; none is found exactly when no section has the id |
| NodeUtils.CategoryIcon | virtual-cv-ui/src/utils/node-utils.ts:44-49 | `section?.icon \|\| null`: an icon is returned only when it is non-empty |
| NodeUtils.GetSectionIcon | virtual-cv-ui/src/utils/node-utils.ts:38-50 | the loop climbs to the nearest category and returns its section's icon, as the bounded function does |
| NodeUtils.StartRooted | virtual-cv-ui/src/utils/node-utils.ts:39-42 | on acyclic data any start node reaches a root within one step more than the list length |
| NodeUtils.NearestCategoryFuel | virtual-cv-ui/src/utils/node-utils.ts:39-42 | extra steps never change the nearest category of a rooted node |
| NodeUtils.SectionIconUnfold | virtual-cv-ui/src/utils/node-utils.ts:38-50 | a category's icon is its own section's icon; any other node's icon is its parent's, or null without a parent |
| Layout.NodeSize | virtual-cv-ui/src/services/layout.service.ts:4-30 | quickview is 80x80 and dormant 10x10 for every type; detailed is at least 150x80 |
| Layout.WidthGrowsWithState | virtual-cv-ui/src/services/layout.service.ts:4-30 | dormant, quickview and detailed are strictly wider in that order |
| Layout.CalcHorizontalDistance | virtual-cv-ui/src/services/layout.service.ts:45-55 | the centre-to-centre distance is at least 50, the two dormant half-widths plus the 40 gap |
| Layout.DetailedParentIsFurther | virtual-cv-ui/src/services/layout.service.ts:45-55 | a detailed parent pushes its children further out than a quickview parent |
| Layout.MaxHeightIsMaximum | virtual-cv-ui/src/services/layout.service.ts:59-64 | the running maximum is at least every node's height, is attained by one node, and is 0 for no nodes |
| Layout.CalcVerticalSpacing | virtual-cv-ui/src/services/layout.service.ts:58-66 | the loop returns the tallest height plus half the gap, so at least 20 |
| Layout.EmptySpacing | virtual-cv-ui/src/services/layout.service.ts:58-66 | an empty list spaces by 20 |
| Layout.BuildChildrenMap | virtual-cv-ui/src/services/layout.service.ts:69-77 | the map sends each parentId to exactly its children in list order, and holds no empty list |
| Layout.Wrap32 | virtual-cv-ui/src/services/layout.service.ts:120 | the 32-bit wrap of `hash & hash` lies in the signed 32-bit range |
| Layout.Wrap32Congruence | virtual-cv-ui/src/services/layout.service.ts:120 | wrapping changes a value by a multiple of 2^32 |
| Layout.Wrap32Congruent | virtual-cv-ui/src/services/layout.service.ts:119-120 | values congruent modulo 2^32 wrap to the same result |
| Layout.CodeUnits | virtual-cv-ui/src/services/layout.service.ts:119 | every `charCodeAt` value lies in 0..0xFFFF |
| Layout.HashFold | virtual-cv-ui/src/services/layout.service.ts:118-121 | the folded hash stays a signed 32-bit value |
| Layout.SimpleHashOf | virtual-cv-ui/src/services/layout.service.ts:116-123 | the absolute hash is at most 2^31 |
| Layout.ShiftStep | virtual-cv-ui/src/services/layout.service.ts:119-120 | the wrapped shift-and-subtract step equals the wrap of 31*h + c |
| Layout.SimpleHash | virtual-cv-ui/src/services/layout.service.ts:116-123 | the loop computes the specified hash |
| Layout.JitterFromHash | virtual-cv-ui/src/services/layout.service.ts:126-128 | the jitter lies between -0.5 and 0.49 times the scale |
| Layout.Jitter | virtual-cv-ui/src/services/layout.service.ts:126-128 | the method computes the specified jitter of an id |
| Layout.ComputeNodeState | virtual-cv-ui/src/services/layout.service.ts:96-113 | detailed iff the node is the selection (or the profile when nothing is selected); quickview iff a child of the selection or one of its ancestors (or a child of the profile) |
| Layout.Toward | virtual-cv-ui/src/services/layout.service.ts:181 | stepping a non-negative distance left never increases x, and stepping right never decreases it |
| Layout.TowardIsProduct | virtual-cv-ui/src/services/layout.service.ts:181 | the step equals x + dirX * d |
| Layout.CategoryConfig | virtual-cv-ui/src/services/layout.service.ts:162-171 | a category is configured exactly when its id is work, skills, education or languages |
| Layout.FindProfile | virtual-cv-ui/src/services/layout.service.ts:149-150 | the profile is a profile node of the list; there is none exactly when no node is a profile |
| Layout.SpacingsIsProduct | virtual-cv-ui/src/services/layout.service.ts:207 | the repeated spacing equals index * spacing |
| Layout.ColumnStart | virtual-cv-ui/src/services/layout.service.ts:194-195 | the column starts half the total height above the parent |
| Layout.FanAnchorIs | virtual-cv-ui/src/services/layout.service.ts:206-209 | a child's position is the parent's x stepped by the distance plus jitter, and y is the column start plus index spacings plus jitter |
| Layout.PlaceInFan | virtual-cv-ui/src/services/layout.service.ts:198-209 | the placement of one child equals its specified fan position |
| Layout.PlaceGrandchildren | virtual-cv-ui/src/services/layout.service.ts:212-233 | the grandchild loop emits the specified block of grandchild positions |
| Layout.PlaceItems | virtual-cv-ui/src/services/layout.service.ts:187-234 | the item loop emits the specified block of items, each followed by its grandchildren |
| Layout.PlaceItem | virtual-cv-ui/src/services/layout.service.ts:198-233 | one item's iteration emits its specified entry |
| Layout.PlaceCategory | virtual-cv-ui/src/services/layout.service.ts:170-235 | one category's iteration emits nothing for an unconfigured id, else the category and its block |
| Layout.ComputeStates | virtual-cv-ui/src/services/layout.service.ts:143-147 | the state table maps every node id to its computed state |
| Layout.ComputeLayoutWith | virtual-cv-ui/src/services/layout.service.ts:136-238 | for any jitter function the engine emits the specified layout |
| Layout.PlaceCategories | virtual-cv-ui/src/services/layout.service.ts:169-235 | the category loop emits the blocks of the profile's children in order |
| Layout.CategoryRowStep | virtual-cv-ui/src/services/layout.service.ts:169-235 | each category's block is appended after the earlier ones |
| Layout.ComputeLayout | virtual-cv-ui/src/services/layout.service.ts:136-238 | `computeLayout` with the hash jitter emits the specified layout |
| LayoutProps.JitterOfBounded | virtual-cv-ui/src/services/layout.service.ts:126-128 | the hash jitter of any id is within -0.5 and 0.49 times any non-negative scale |
| LayoutProps.LayoutStart | virtual-cv-ui/src/services/layout.service.ts:149-157 | the layout is empty exactly when there is no profile; otherwise it starts with the profile at (400, 300) |
| LayoutProps.RowIds | virtual-cv-ui/src/services/layout.service.ts:197-233 | every position in a fan belongs to one of its children or, for items, to a grandchild |
| LayoutProps.CategoryBlockIds | virtual-cv-ui/src/services/layout.service.ts:169-235 | a category's block holds only the configured category and nodes below it |
| LayoutProps.BlocksConcat | virtual-cv-ui/src/services/layout.service.ts:169-235 | appending a category's block keeps every position inside some category's block |
| LayoutProps.CategoryRowIds | virtual-cv-ui/src/services/layout.service.ts:169-235 | every position of the category loop lies in some configured category's block |
| LayoutProps.LayoutPlacesOnlyPlaceable | virtual-cv-ui/src/services/layout.service.ts:136-238 | the layout places only the profile, configured categories, their items and the items' children |
| LayoutProps.CoveredInConcat | virtual-cv-ui/src/services/layout.service.ts:157 | an id placed in either part is placed in the whole |
| LayoutProps.RowCovers | virtual-cv-ui/src/services/layout.service.ts:197-233 | every child of a fan, and for items every grandchild, gets a position |
| LayoutProps.CategoryRowCovers | virtual-cv-ui/src/services/layout.service.ts:169-235 | every node in a configured category's block gets a position |
| LayoutProps.CategoryBlockCovers | virtual-cv-ui/src/services/layout.service.ts:181-233 | a configured category's block places it and everything below it |
| LayoutProps.LayoutIds | virtual-cv-ui/src/services/layout.service.ts:136-238 | an id is placed exactly when it is placeable: the profile, a configured category, or an item or grandchild below one |
| LayoutProps.FanChildOnSide | virtual-cv-ui/src/services/layout.service.ts:201-232 | with bounded jitter each child lands strictly on its fan's side of the parent |
| LayoutProps.TierChildOnSide | virtual-cv-ui/src/services/layout.service.ts:197-233 | items and grandchildren land strictly on the configured side |
| LayoutProps.CategoryOnSide | virtual-cv-ui/src/services/layout.service.ts:176-181 | each category lands strictly on its configured side of the profile |
| LayoutProps.FanEvenlySpaced | virtual-cv-ui/src/services/layout.service.ts:194-207 | without jitter consecutive children are exactly one spacing apart |
| LayoutProps.FanCentred | virtual-cv-ui/src/services/layout.service.ts:194-207 | without jitter the first and last child sit symmetrically around the parent |
| LayoutProps.FanDistance | virtual-cv-ui/src/services/layout.service.ts:201-206 | without jitter each child is dirX times the size-aware distance from its parent |
| Mapper.ComputeNodeState | virtual-cv-ui/src/services/cv.mapper.ts:27-52 | detailed iff not in inspector mode and the node is the focus; dormant iff the node is not the focus, not its child, and not its ancestor |
| Mapper.InspectorOnlyDemotes | virtual-cv-ui/src/services/cv.mapper.ts:33-43 | inspector mode turns detailed into quickview, changes nothing else, and never yields detailed |
| Mapper.AgreesWithLayout | virtual-cv-ui/src/services/layout.service.ts:96-113 | outside inspector mode the mapper and the layout engine give every node the same state |
| Mapper.ParentChainIsQuickview | virtual-cv-ui/src/services/cv.mapper.ts:45-49 | every ancestor of the selection, and its parent, is shown in quickview |
| Common.IfTruthy | virtual-cv-ui/src/services/cv.mapper.ts:100-108 | an optional field is copied exactly when it is a non-empty string; the create dialog's form fields follow the same rule |
| Mapper.GraphDataOf | virtual-cv-ui/src/services/cv.mapper.ts:65-111 | graph data keeps label, type, state, content and draft; the profile fields appear exactly for profiles; a category's icon is its section's icon and only categories have one; an item's non-empty company and date range are copied, and only items have them |
| Mapper.MapNodeToGraphData | virtual-cv-ui/src/services/cv.mapper.ts:65-111 | the step-by-step build equals the specified graph data |
| Mapper.CategoryIconAgrees | virtual-cv-ui/src/services/cv.mapper.ts:92-97 | a category's graph icon agrees with the breadcrumb's section icon, up to the empty icon |
| Mapper.PositionMapLastWins | virtual-cv-ui/src/services/cv.mapper.ts:133 | the position map has an id exactly when some position names it, and then holds the last such position |
| Mapper.BuildNodes | virtual-cv-ui/src/services/cv.mapper.ts:114-155 | one render node per visible node in order, with its state, chosen position, content (none in inspector mode), selection, drag and draft flags, and graph data built from that node |
| Mapper.BuildNodesDrafts | virtual-cv-ui/src/services/cv.mapper.ts:124-126 | outside edit mode no draft is rendered; in edit mode every node is rendered in order |
| Mapper.RenderPosition | virtual-cv-ui/src/services/cv.mapper.ts:137 | a node with no position sits at (0, 0); otherwise at its last listed position |
| Mapper.EdgeClassOf | virtual-cv-ui/src/services/cv.mapper.ts:177-185 | active iff both ends are shown, partial iff exactly one is dormant, dormant iff both are |
| Mapper.BuildEdges | virtual-cv-ui/src/services/cv.mapper.ts:158-198 | the loop emits the specified edges |
| Mapper.EdgesIntoStep | virtual-cv-ui/src/services/cv.mapper.ts:171-194 | each visible node adds an edge exactly when its parent is visible |
| Mapper.EdgesSound | virtual-cv-ui/src/services/cv.mapper.ts:171-194 | every edge runs from a visible non-empty parentId to a visible child, with id `e-parent-child` and the class of its end states |
| Mapper.EdgesComplete | virtual-cv-ui/src/services/cv.mapper.ts:173 | every node whose parent is visible gets its edge |
| Mapper.EdgesAtMostOnePerNode | virtual-cv-ui/src/services/cv.mapper.ts:171-194 | there are at most as many edges as visible nodes |
| Mapper.NoDraftEdges | virtual-cv-ui/src/services/cv.mapper.ts:166-173 | outside edit mode no edge touches a draft |
| Content.SplitFrom | virtual-cv-ui/src/services/content.service.ts:13 | splitting at line-start headings yields at least one section |
| Content.JoinSplitHeadings | virtual-cv-ui/src/services/content.service.ts:13 | joining the sections with `# ` gives back the markdown |
| Content.SplitHeadingFree | virtual-cv-ui/src/services/content.service.ts:13 | a heading-free first line block stays in the first section |
| Content.SectionEntry | virtual-cv-ui/src/services/content.service.ts:16-25 | a section yields an entry only with a non-empty trimmed id and a non-empty trimmed body |
| Content.Entries | virtual-cv-ui/src/services/content.service.ts:15-26 | one entry per section, in order |
| Content.ParseMarkdownSections | virtual-cv-ui/src/services/content.service.ts:9-29 | the parser returns the specified content map |
| Content.FoldStep | virtual-cv-ui/src/services/content.service.ts:23-25 | each entry is stored over the map built so far |
| Content.ReadSections | virtual-cv-ui/src/services/content.service.ts:15-26 | the section loop folds the entries into the map |
| Content.LastEntryWins | virtual-cv-ui/src/services/content.service.ts:23-25 | an id is in the map exactly when some entry has it, and it holds the body of the last such entry |
| Content.LastSectionWins | virtual-cv-ui/src/services/content.service.ts:9-29 | an id is parsed exactly when some section yields it, and a repeated id keeps the last section's body |
| Content.ParsedTrimmed | virtual-cv-ui/src/services/content.service.ts:20-24 | every parsed id and body is non-empty and trimmed |
| Content.SplitOfHeadingFree | virtual-cv-ui/src/services/content.service.ts:13 | text in which no line starts with `# ` is not split at all |
| Content.NoHeadingOneSection | virtual-cv-ui/src/services/content.service.ts:13-26 | any text without a heading line, with or without a final line break, is read as a single section |
| Content.ParseSerialize | virtual-cv-ui/src/services/content.service.ts:9-29 | writing entries as `# id` blocks and parsing them gives back the entries, with later ids winning |
| Content.EntriesOfSerialize | virtual-cv-ui/src/services/content.service.ts:13-21 | serialized text splits into an empty lead-in and then exactly the written entries |
| Content.FoldAfterEmpty | virtual-cv-ui/src/services/content.service.ts:15-26 | folding an empty lead-in and then the entries gives the entries' map |
| Content.SectionEntriesOfSections | virtual-cv-ui/src/services/content.service.ts:16-25 | each written section reads back as its entry |
| Content.SplitSerialize | virtual-cv-ui/src/services/content.service.ts:13 | serialized text splits into the written sections |
| Content.SectionHeadingFree | virtual-cv-ui/src/services/content.service.ts:13 | a written section contains no further heading |
| Content.SectionEntryOfSection | virtual-cv-ui/src/services/content.service.ts:19-21 | a written section's first line is the id and the rest the body |
| Content.SplitAfterLine | virtual-cv-ui/src/services/content.service.ts:19 | splitting at newlines separates the first line from the rest |
| Content.ContentStore.constructor | virtual-cv-ui/src/services/content.service.ts:32 | the store holds the markdown it was loaded with |
| Content.ContentStore.GetNodeContent | virtual-cv-ui/src/services/content.service.ts:37-39 | content is found exactly for parsed ids, and it is the non-empty trimmed body |
| Content.ContentStore.GetAllContent | virtual-cv-ui/src/services/content.service.ts:44-46 | the whole map is the parse of the markdown, with trimmed non-empty ids and bodies |
| Search.NodeIcon | virtual-cv-ui/src/components/SearchDialog.tsx:23-29 | an icon exists exactly for a category whose section is in the catalogue, and it is that section's icon |
| Search.NodeIconAsGraph | virtual-cv-ui/src/services/cv.mapper.ts:92-97 | the search icon is the graph icon |
| Search.TypeLabel | virtual-cv-ui/src/components/SearchDialog.tsx:31-46 | every type has a non-empty label |
| Search.TypeLabelVersusTreeLabel | virtual-cv-ui/src/components/SearchDialog.tsx:37-38 | the dialog's labels agree with the breadcrumb labels except for items ("Experience" versus "Item") |
| Search.Matches | virtual-cv-ui/src/components/SearchDialog.tsx:68-89 | matches are non-profile nodes from the list; a label match comes first, else a content match; each carries its icon |
| Search.Results | virtual-cv-ui/src/components/SearchDialog.tsx:62-92 | a blank query gives nothing; otherwise the first ten matches of the lower-cased query |
| Search.MatchesStep | virtual-cv-ui/src/components/SearchDialog.tsx:68-89 | each node adds its result exactly when it matches |
| Search.MatchNode | virtual-cv-ui/src/components/SearchDialog.tsx:70-88 | one iteration yields a result exactly for a match |
| Search.FilterMatches | virtual-cv-ui/src/components/SearchDialog.tsx:66-89 | the loop collects the specified matches |
| Search.SearchResults | virtual-cv-ui/src/components/SearchDialog.tsx:62-92 | the dialog's results are the specified results |
| Search.MatchesInOrder | virtual-cv-ui/src/components/SearchDialog.tsx:68-89 | the matches are exactly the matching nodes, in list order |
| Search.MatchesMembers | virtual-cv-ui/src/components/SearchDialog.tsx:68-89 | a node has a match exactly when it is in the list and matches |
| Search.ResultsMembers | virtual-cv-ui/src/components/SearchDialog.tsx:91 | with ten matches or fewer, the results hold every matching node |
| Search.NextIndex | virtual-cv-ui/src/components/SearchDialog.tsx:114-122 | arrow down moves to min(i+1, n-1), arrow up to max(i-1, 0), and a valid index stays valid |
| Search.EnterSelection | virtual-cv-ui/src/components/SearchDialog.tsx:123-128 | Enter selects exactly when the index is in range, and selects that result's node id |
| Search.EnterSelectsWhenResults | virtual-cv-ui/src/components/SearchDialog.tsx:113-128 | with results and a valid index, Enter always selects one of them |
| Search.SearchDialog.constructor | virtual-cv-ui/src/components/SearchDialog.tsx:56-57 | the dialog starts with an empty query at index 0 |
| Search.SearchDialog.Open | virtual-cv-ui/src/components/SearchDialog.tsx:95-102 | opening resets the query and the index |
| Search.SearchDialog.ChangeQuery | virtual-cv-ui/src/components/SearchDialog.tsx:62-92 | a new query resets the index |
| Search.SearchDialog.KeyDown | virtual-cv-ui/src/components/SearchDialog.tsx:113-131 | a key press moves the index as specified and reports the selection on Enter |
| CreateDialog.AllowedChildTypes | virtual-cv-ui/src/components/CreateNodeDialog.tsx:19-36 | profiles take categories, the skills category takes skill groups, other categories take items, skill groups take skills, and leaves take nothing |
| CreateDialog.AllowedChildOneLevelDown | virtual-cv-ui/src/components/CreateNodeDialog.tsx:19-36 | an allowed child is exactly one level deeper, and it is never a profile |
| CreateDialog.InitialType | virtual-cv-ui/src/components/CreateNodeDialog.tsx:54-56 | a type is preselected exactly when only one is allowed |
| CreateDialog.InitialTypeOfParent | virtual-cv-ui/src/components/CreateNodeDialog.tsx:53-56 | every non-leaf parent gets an allowed type preselected |
| CreateDialog.Submission | virtual-cv-ui/src/components/CreateNodeDialog.tsx:77-110 | nothing is sent without a type or with a blank label; otherwise the command carries the id, parent, trimmed label, the description when non-blank, the type-specific fields and the draft mark |
| CreateDialog.HandleSubmit | virtual-cv-ui/src/components/CreateNodeDialog.tsx:77-118 | the handler sends the specified submission |
| CreateDialog.CanSubmitSends | virtual-cv-ui/src/components/CreateNodeDialog.tsx:122-123 | when the button is enabled, the submission is sent |
| CreateDialog.CategoryWithoutSectionSent | virtual-cv-ui/src/components/CreateNodeDialog.tsx:78-123 | a category without a section disables the button, yet the handler alone would send it without a sectionId |
| CreateDialog.SetField | virtual-cv-ui/src/components/CreateNodeDialog.tsx:73-75 | changing a field sets that field and leaves every other field alone |
| CreateDialog.CreateNodeDialog.constructor | virtual-cv-ui/src/components/CreateNodeDialog.tsx:53-60 | the dialog starts with the initial type and an empty form |
| CreateDialog.CreateNodeDialog.Open | virtual-cv-ui/src/components/CreateNodeDialog.tsx:65-71 | opening resets the type and the form |
| CreateDialog.CreateNodeDialog.ChangeField | virtual-cv-ui/src/components/CreateNodeDialog.tsx:73-75 | a field change updates the form only |
| CreateDialog.CreateNodeDialog.SelectType | virtual-cv-ui/src/components/CreateNodeDialog.tsx:54 | selecting a type keeps the form |
| CreateDialog.CreateNodeDialog.Submit | virtual-cv-ui/src/components/CreateNodeDialog.tsx:77-118 | a sent command is under this parent and marked as a draft |
| FeatureFlags.FeatureName | virtual-cv-ui/src/utils/feature-flags.ts:10-13 | every feature name is non-empty and contains no comma |
| FeatureFlags.AllFeatureListComplete | virtual-cv-ui/src/utils/feature-flags.ts:10-15 | the feature list holds every feature |
| FeatureFlags.Enabled | virtual-cv-ui/src/utils/feature-flags.ts:37-57 | the URL override enables a feature; otherwise it is enabled exactly when the stored list names it |
| FeatureFlags.FeatureStore.IsFeatureEnabled | virtual-cv-ui/src/utils/feature-flags.ts:37-57 | `isFeatureEnabled` on the store's value: enabled exactly when the URL list or a readable stored list names the feature |
| FeatureFlags.IndexOf | virtual-cv-ui/src/utils/feature-flags.ts:70 | -1 exactly when absent, otherwise the first position of the name |
| FeatureFlags.UpdatedNames | virtual-cv-ui/src/utils/feature-flags.ts:65-74 | enabling appends a missing name; disabling removes its first occurrence; otherwise nothing changes |
| FeatureFlags.UpdatedKeepsNoDuplicates | virtual-cv-ui/src/utils/feature-flags.ts:67-74 | the stored list never gains a duplicate |
| FeatureFlags.DisableRemoves | virtual-cv-ui/src/utils/feature-flags.ts:69-73 | in a list without duplicates, disabling removes the name |
| FeatureFlags.UpdatedOthers | virtual-cv-ui/src/utils/feature-flags.ts:67-74 | toggling one feature leaves every other name as it was |
| FeatureFlags.FeatureStore.constructor | virtual-cv-ui/src/utils/feature-flags.ts:31 | the store starts from the stored value |
| FeatureFlags.FeatureStore.SetFeatureEnabled | virtual-cv-ui/src/utils/feature-flags.ts:62-80 | the stored value becomes the updated list; an unreadable value is left as it was |
| FeatureFlags.FeatureStore.AllFeatureStates | virtual-cv-ui/src/utils/feature-flags.ts:85-93 | every feature is mapped to whether it is enabled |
| FeatureFlags.FeatureStore.AllFeatures | virtual-cv-ui/src/utils/feature-flags.ts:98-108 | one entry per feature in order, with its config and whether it is enabled |
| FeatureFlags.DefaultDisabled | virtual-cv-ui/src/utils/feature-flags.ts:56 | with nothing stored and no override, every feature is off |
| FeatureFlags.EnableThenCheck | virtual-cv-ui/src/utils/feature-flags.ts:62-80 | after enabling, the feature is on, unless the stored value is unreadable |
| FeatureFlags.EnableDisableThenCheck | virtual-cv-ui/src/utils/feature-flags.ts:62-80 | enabling then disabling without an override leaves the feature off |
| Errors.NewApiError | virtual-cv-ui/src/api/errors.ts:6-16 | the base error keeps message, status and code |
| Errors.NewValidationError | virtual-cv-ui/src/api/errors.ts:19-27 | status 400, code VALIDATION_ERROR, with the field messages |
| Errors.NewNotFoundError | virtual-cv-ui/src/api/errors.ts:30-35 | status 404, code NOT_FOUND, message "resource not found: id" |
| Errors.NewConflictError | virtual-cv-ui/src/api/errors.ts:38-43 | status 409, code CONFLICT |
| Errors.NewNetworkError | virtual-cv-ui/src/api/errors.ts:46-51 | status 0, code NETWORK_ERROR, with the default message when none is given |
| Errors.SubclassStatusesDistinct | virtual-cv-ui/src/api/errors.ts:19-51 | the four error kinds have pairwise different statuses and codes |
| Errors.FieldMessages | virtual-cv-ui/src/api/errors.ts:56 | the field messages are the values, in order |
| Errors.GetErrorMessage | virtual-cv-ui/src/api/errors.ts:54-68 | field messages joined by ", " for a validation error with fields; otherwise the error's message, or the generic text for a non-error |
| Errors.OneFieldMessage | virtual-cv-ui/src/api/errors.ts:55-59 | a single field's message is shown as it is |
| Errors.NoFieldsOwnMessage | virtual-cv-ui/src/api/errors.ts:55-62 | a validation error without fields shows its own message |
| Errors.NotFoundMessage | virtual-cv-ui/src/api/errors.ts:30-35 | a not-found error shows "resource not found: id" |
| Errors.NetworkDefaultMessage | virtual-cv-ui/src/api/errors.ts:47 | a network error without a message shows the connection hint |
| Auth.DecodePayload | virtual-cv-ui/src/services/auth.service.ts:104-108 | a token without a second segment does not decode; otherwise the second segment is decoded |
| Auth.Expired | virtual-cv-ui/src/services/auth.service.ts:111-120 | an undecodable token is expired; a numeric exp expires 300 s early; a non-numeric exp never expires |
| Auth.ExpiredStaysExpired | virtual-cv-ui/src/services/auth.service.ts:111-120 | expiry is monotone in time |
| Auth.ValidUntilBuffer | virtual-cv-ui/src/services/auth.service.ts:116 | a token becomes expired exactly when exp - 300 is reached |
| Auth.EmptyTokenExpired | virtual-cv-ui/src/services/auth.service.ts:104-113 | the empty token is always expired |
| Auth.AuthService.constructor | virtual-cv-ui/src/services/auth.service.ts:22-24 | a new service restores the stored session, or clears it |
| Auth.AuthService.RestoreSession | virtual-cv-ui/src/services/auth.service.ts:77-87 | a stored token and user are adopted only when both are present and the token is unexpired; otherwise both entries are removed |
| Auth.AuthService.ClearAuth | virtual-cv-ui/src/services/auth.service.ts:89-95 | the token, user and stored entries are removed, and listeners are told of no user |
| Auth.AuthService.GetToken | virtual-cv-ui/src/services/auth.service.ts:27-33 | an expired token clears the session and yields nothing; otherwise the held token, with nothing changed |
| Auth.AuthService.GetUser | virtual-cv-ui/src/services/auth.service.ts:36-42 | an expired token clears the session and yields nothing; otherwise the held user |
| Auth.AuthService.IsAuthenticated | virtual-cv-ui/src/services/auth.service.ts:45-47 | authenticated exactly when an unexpired token was held |
| Auth.AuthService.HandleCredentialResponse | virtual-cv-ui/src/services/auth.service.ts:50-64 | a decodable credential becomes the held and stored token, its payload the user, and listeners are told; otherwise nothing changes |
| Auth.AuthService.SignOut | virtual-cv-ui/src/services/auth.service.ts:67-69 | signing out clears everything and tells the listeners |
| Auth.AuthService.OnAuthChange | virtual-cv-ui/src/services/auth.service.ts:72-75 | the callback joins the listeners |
| Auth.AuthService.Unsubscribe | virtual-cv-ui/src/services/auth.service.ts:74 | the returned function removes exactly that callback |
| CvService.MapNodeTypeBijective | virtual-cv-ui/src/services/cv.service.ts:35-44 | the API and frontend node types correspond one to one |
| CvService.StringAttr | virtual-cv-ui/src/services/cv.service.ts:47-49 | a string attribute is read exactly when the key holds a string |
| CvService.StringsAttr | virtual-cv-ui/src/services/cv.service.ts:47-49 | a list attribute is read exactly when the key holds a list of strings |
| CvService.NumberAttr | virtual-cv-ui/src/services/cv.service.ts:47-49 | a number attribute is read exactly when the key holds a number |
| CvService.MapApiNode | virtual-cv-ui/src/services/cv.service.ts:52-110 | the frontend node keeps id, type, parent and description and is never a draft; every type field is read from its attribute: the profile's name falls back to the label, its other strings to empty, a category's sectionId to its own id, and item, skill-group and skill fields stay absent when missing |
| CvService.CategoryAlwaysHasSection | virtual-cv-ui/src/services/cv.service.ts:77-82 | a category always gets a sectionId, its own id when the attribute is missing |
| CvService.PositionsInOrder | virtual-cv-ui/src/services/cv.service.ts:113-125 | positions are taken from exactly the DTOs that carry both coordinates, in order |
| CvService.MapApiResponse | virtual-cv-ui/src/services/cv.service.ts:113-125 | one node per DTO in order, and the positions of the positioned DTOs |
| CvService.UpdateBody | virtual-cv-ui/src/services/cv.service.ts:180-185 | the update body is the given update with the path id |
| CvService.ApiCvService.constructor | virtual-cv-ui/src/services/cv.service.ts:152 | the service starts with no cached CV |
| CvService.ApiCvService.GetCvData | virtual-cv-ui/src/services/cv.service.ts:154-163 | a cached CV is returned unchanged; otherwise the fetched response is mapped and cached |
| CvService.ApiCvService.GetNode | virtual-cv-ui/src/services/cv.service.ts:165-168 | the node is looked up by id in the cached CV |
| CvService.ApiCvService.GetChildren | virtual-cv-ui/src/services/cv.service.ts:170-173 | the children are exactly the cached nodes with that parentId |
| CvService.ApiCvService.SearchNodes | virtual-cv-ui/src/services/cv.service.ts:175-178 | the search response is mapped node by node |
| CvService.ApiCvService.UpdateNode | virtual-cv-ui/src/services/cv.service.ts:180-185 | a successful update clears the cache and returns the mapped node; a failed one leaves the cache |
| CvService.ApiCvService.DeleteNode | virtual-cv-ui/src/services/cv.service.ts:187-190 | a successful delete clears the cache |
| CvService.ApiCvService.CreateNode | virtual-cv-ui/src/services/cv.service.ts:192-213 | the command goes to the endpoint of its type; success clears the cache and returns the mapped node |
| CvService.ApiCvService.ClearCache | virtual-cv-ui/src/services/cv.service.ts:216-218 | the cache is emptied |
| NodeService.EntitiesOf | virtual-cv-api/src/main/java/de/fschmidt/virtualcv/repository/CvNodeRepository.java:23-31 | the entities are looked up one per id in creation order |
| NodeService.Select | virtual-cv-api/src/main/java/de/fschmidt/virtualcv/service/CvNodeService.java:30-48 | a query returns no more DTOs than there are entities |
| NodeService.SelectInOrder | virtual-cv-api/src/main/java/de/fschmidt/virtualcv/service/CvNodeService.java:30-48 | a query returns the DTOs of exactly the selected entities, in creation order |
| NodeService.SelectMembers | virtual-cv-api/src/main/java/de/fschmidt/virtualcv/service/CvNodeService.java:30-48 | a DTO is returned exactly when it is the DTO of a selected entity |
| NodeService.PutIfNotNull | virtual-cv-api/src/main/java/de/fschmidt/virtualcv/service/CvNodeService.java:161-165 | a present value is stored under the key; an absent one leaves the map alone |
| NodeService.PutAll | virtual-cv-api/src/main/java/de/fschmidt/virtualcv/service/CvNodeService.java:66-104 | the keys afterwards are the old keys plus those of the present fields |
| NodeService.CreatedAttributes | virtual-cv-api/src/main/java/de/fschmidt/virtualcv/service/CvNodeService.java:66-105 | no attributes exactly when no type field is present; otherwise exactly the present fields' keys |
| NodeService.CreatedEntity | virtual-cv-api/src/main/java/de/fschmidt/virtualcv/service/CvNodeService.java:52-105 | the entity takes the command's fields and type; the parent is set only when it exists |
| NodeService.UpdatedEntity | virtual-cv-api/src/main/java/de/fschmidt/virtualcv/service/CvNodeService.java:110-135 | each non-null field replaces the old one; a parent is changed only to an existing node; id, type and deletion stay |
| NodeService.EmptyUpdateKeeps | virtual-cv-api/src/main/java/de/fschmidt/virtualcv/service/CvNodeService.java:110-135 | an update with every field null changes nothing |
| NodeService.UpdateIdempotent | virtual-cv-api/src/main/java/de/fschmidt/virtualcv/service/CvNodeService.java:110-135 | applying the same update twice equals applying it once |
| NodeService.UpdateReplacesAttributes | virtual-cv-api/src/main/java/de/fschmidt/virtualcv/service/CvNodeService.java:120-122 | sent attributes replace the old ones wholesale, so a key not sent is gone |
| NodeService.BuildAttributes | virtual-cv-api/src/main/java/de/fschmidt/virtualcv/service/CvNodeService.java:66-104 | the attribute map built field by field is the specified one, and empty exactly when no field is present |
| NodeService.CvNodeService.constructor | virtual-cv-api/src/main/java/de/fschmidt/virtualcv/service/CvNodeService.java:23-25 | the store starts empty |
| NodeService.CvNodeService.GetAllNodes | virtual-cv-api/src/main/java/de/fschmidt/virtualcv/service/CvNodeService.java:30-33 | all active nodes in creation order |
| NodeService.CvNodeService.GetNode | virtual-cv-api/src/main/java/de/fschmidt/virtualcv/service/CvNodeService.java:36-38 | a node is found exactly when it exists and is not deleted |
| NodeService.CvNodeService.GetChildren | virtual-cv-api/src/main/java/de/fschmidt/virtualcv/service/CvNodeService.java:41-43 | the active children of the parent in creation order |
| NodeService.CvNodeService.Search | virtual-cv-api/src/main/java/de/fschmidt/virtualcv/service/CvNodeService.java:46-48 | the active nodes whose label or description contains the query, ignoring case |
| NodeService.CvNodeService.Create | virtual-cv-api/src/main/java/de/fschmidt/virtualcv/service/CvNodeService.java:52-108 | the created entity is stored under its id and returned as a DTO; a new id joins the creation order |
| NodeService.CvNodeService.NewEntity | virtual-cv-api/src/main/java/de/fschmidt/virtualcv/service/CvNodeService.java:53-104 | the entity is built as specified |
| NodeService.CvNodeService.Save | virtual-cv-api/src/main/java/de/fschmidt/virtualcv/service/CvNodeService.java:106-107 | saving stores the entity; a new id joins the creation order |
| NodeService.CvNodeService.Update | virtual-cv-api/src/main/java/de/fschmidt/virtualcv/service/CvNodeService.java:110-135 | a missing or deleted node gives nothing; otherwise the updated entity is stored and returned |
| NodeService.CvNodeService.Delete | virtual-cv-api/src/main/java/de/fschmidt/virtualcv/service/CvNodeService.java:137-146 | deletes exactly an active node, by marking it deleted; otherwise nothing changes |
| NodeService.DeleteHides | virtual-cv-api/src/test/java/de/fschmidt/virtualcv/repository/CvNodeRepositoryTest.java:74-89 | a deleted node leaves every query, and other nodes are unaffected |
| NodeService.QueriesSkipDeleted | virtual-cv-api/src/test/java/de/fschmidt/virtualcv/repository/CvNodeRepositoryTest.java:114-130 | no query returns a deleted node |
| NodeService.ChildrenOutliveParent | virtual-cv-api/src/main/java/de/fschmidt/virtualcv/service/CvNodeService.java:137-146 | deleting a parent leaves its children active (no cascade) |
| NodeService.SearchIgnoresCase | virtual-cv-api/src/main/java/de/fschmidt/virtualcv/repository/CvNodeRepository.java:54-63 | searching for a text and for its lower case gives the same selection |
| NodeService.LowerIdempotent | virtual-cv-api/src/main/java/de/fschmidt/virtualcv/repository/CvNodeRepository.java:54-63 | lower-casing twice equals lower-casing once |
| Controller.FoundOrNotFound | virtual-cv-api/src/main/java/de/fschmidt/virtualcv/controller/CvController.java:31-36 | 200 with the node when found, 404 otherwise |
| Controller.CreatedResponse | virtual-cv-api/src/main/java/de/fschmidt/virtualcv/controller/CvController.java:50-78 | 201 with the node, located at `/cv/nodes/` plus its id |
| Controller.UpdateResponse | virtual-cv-api/src/main/java/de/fschmidt/virtualcv/controller/CvController.java:82-92 | 400 exactly when the path id and the body id differ; otherwise found or not found |
| Controller.DeleteStatus | virtual-cv-api/src/main/java/de/fschmidt/virtualcv/controller/CvController.java:96-102 | 204 exactly when deleted, 404 otherwise |
| Controller.CvController.constructor | virtual-cv-api/src/main/java/de/fschmidt/virtualcv/controller/CvController.java:20-22 | the controller uses the given service |
| Controller.CvController.GetAllNodes | virtual-cv-api/src/main/java/de/fschmidt/virtualcv/controller/CvController.java:26-29 | returns the service's active nodes, without the `CvDataDto` wrapper |
| Controller.CvController.GetNode | virtual-cv-api/src/main/java/de/fschmidt/virtualcv/controller/CvController.java:31-36 | 200 with the node exactly when it exists and is not deleted, else 404 |
| Controller.CvController.GetChildren | virtual-cv-api/src/main/java/de/fschmidt/virtualcv/controller/CvController.java:38-41 | returns the service's active children |
| Controller.CvController.Search | virtual-cv-api/src/main/java/de/fschmidt/virtualcv/controller/CvController.java:43-46 | returns the service's search |
| Controller.CvController.CreateNode | virtual-cv-api/src/main/java/de/fschmidt/virtualcv/controller/CvController.java:50-78 | stores the created node, adds a new id to the creation order, and answers 201 at its location |
| Controller.CvController.UpdateNode | virtual-cv-api/src/main/java/de/fschmidt/virtualcv/controller/CvController.java:82-92 | an id mismatch gives 400 and changes nothing; otherwise 200 exactly when the node is active, with the updated entity stored under its id and returned, else 404 with nothing changed; the creation order never changes |
| Controller.CvController.DeleteNode | virtual-cv-api/src/main/java/de/fschmidt/virtualcv/controller/CvController.java:96-102 | 204 exactly when the node was active, and then only that node is flagged deleted; else 404 with nothing changed; the creation order never changes |
| Whitelist.AllowedEmails | virtual-cv-api/src/main/java/de/fschmidt/virtualcv/config/EmailWhitelistFilter.java:22-26 | the whitelist is exactly the lower-cased configured addresses |
| Whitelist.PreHandle | virtual-cv-api/src/main/java/de/fschmidt/virtualcv/config/EmailWhitelistFilter.java:29-62 | reads pass; writes without a JWT get 401; without a verified e-mail 403 "not verified"; without a whitelisted e-mail 403 "not authorized"; otherwise pass |
| Whitelist.PassesIff | virtual-cv-api/src/main/java/de/fschmidt/virtualcv/config/EmailWhitelistFilter.java:29-62 | a request passes exactly when it is a read, or its verified e-mail equals a configured one ignoring case |
| Whitelist.DenialsAreAuthErrors | virtual-cv-api/src/main/java/de/fschmidt/virtualcv/config/EmailWhitelistFilter.java:38-59 | every denial is 401 or one of the two 403 answers |
| Whitelist.CaseInsensitiveEmail | virtual-cv-api/src/main/java/de/fschmidt/virtualcv/config/EmailWhitelistFilter.java:54 | e-mails that differ only in case get the same decision |
| Whitelist.UnverifiedRefused | virtual-cv-api/src/main/java/de/fschmidt/virtualcv/config/EmailWhitelistFilter.java:44-52 | a write with an unverified e-mail is refused as not verified |
| Whitelist.ReadsPassInAnyCase | virtual-cv-api/src/main/java/de/fschmidt/virtualcv/config/EmailWhitelistFilter.java:34-36 | GET, HEAD and OPTIONS pass in any letter case, even anonymously |
| Whitelist.WritesNeedPrincipal | virtual-cv-api/src/test/java/de/fschmidt/virtualcv/controller/CvControllerSecurityTest.java:35-59 | anonymous writes get 401 |
| RoundTrip.ToApiCommand | virtual-cv-ui/src/services/cv.service.ts:192-213 | the dialog's command becomes the API command of its type with the same base fields and no position |
| RoundTrip.PutAllLast | virtual-cv-api/src/main/java/de/fschmidt/virtualcv/service/CvNodeService.java:161-165 | a present field with no later field of the same key is read back from the attribute map |
| RoundTrip.SubmittedNodeComesBack | virtual-cv-ui/src/components/CreateNodeDialog.tsx:77-110 | a submitted node comes back with its id, type, trimmed label, description and parent (when it exists), but no longer as a draft |
| RoundTrip.StringFieldComesBack | virtual-cv-ui/src/services/cv.service.ts:47-49 | a string field the backend stored reads back in the frontend |
| RoundTrip.CategoryReadsBack | virtual-cv-ui/src/services/cv.service.ts:77-82 | a category's sectionId comes back, or its own id when none was sent |
| RoundTrip.ProfileNameReadsBack | virtual-cv-ui/src/services/cv.service.ts:64-75 | a profile's name comes back, or its label when none was sent |
| RoundTrip.ItemReadsBack | virtual-cv-ui/src/services/cv.service.ts:84-93 | an item's company, date range and location come back unchanged |
| RoundTrip.GroupLevelReadsBack | virtual-cv-ui/src/services/cv.service.ts:95-100 | a skill group's proficiency level comes back unchanged |
| RoundTrip.SkillLevelReadsBack | virtual-cv-ui/src/services/cv.service.ts:102-108 | a skill's proficiency level comes back unchanged |
| RoundTrip.SubmittedCommandShape | virtual-cv-ui/src/components/CreateNodeDialog.tsx:85-103 | each type's API command carries exactly the dialog's non-empty type fields |
| RoundTrip.SubmittedCategorySection | virtual-cv-ui/src/components/CreateNodeDialog.tsx:93-95 | a submitted category's section comes back, or the new id when none was chosen |
| RoundTrip.SubmittedItemFields | virtual-cv-ui/src/components/CreateNodeDialog.tsx:96-100 | a submitted item's non-empty company, date range and location come back |
| RoundTrip.SubmittedLevel | virtual-cv-ui/src/components/CreateNodeDialog.tsx:101-103 | a submitted skill's or group's non-empty level comes back |
| RoundTrip.PublishDropsAttributes | virtual-cv-ui/src/hooks/useGraphState.ts:184-186 | publishing an item replaces its attributes, so company and highlights are lost and it is never a draft |

## Left out

- Layout spec functions take the jitter as a parameter. `Layout.LayoutOf` and `Layout.ComputeLayout` use the hash jitter; the position lemmas hold for any jitter within the hash jitter's bounds, or for no jitter.
- Node types form a closed datatype, so `getNodeSize`'s fallback for an unknown type (80x80) cannot arise.
- Parent walks (`getAncestorIds`, `getParentChain`, `getSectionIcon`) are loops that never end on cyclic `parentId` links. The methods require acyclic links, and the specification functions take at most as many steps as there are nodes.
- Ancestry.Acyclic follows a `parentId` of `""` to a node whose id is `""`, as `getSectionIcon` does, while `getAncestorIds` and `getParentChain` stop at an empty parentId. Their methods therefore also refuse links that loop only through the empty id, which the source walks would finish; ids are never blank in data from the API.
- Layout.CategoryConfig: an id naming an inherited object property (`toString`, `constructor`) would find a truthy entry in the source and produce NaN coordinates. The model recognises only the four configured ids.
- Common.Trim and Common.ToLower: JavaScript's and Java's full Unicode whitespace and case mapping are reduced to ASCII letters and common whitespace.
- Fetching, storage and the network are parameters. For example, `CvService.ApiCvService.GetCvData` receives the response and has no failure path, and auth receives the clock and the stored entries.
- `CV_SECTIONS` is a parameter; `types/index.ts` is not part of this model.
- Content.ContentStore.constructor takes the markdown text; the bundled file is not part of this model.
- Content.ContentStore.GetNodeContent: an id naming an inherited object property (`toString`) finds a function in the source; the model finds no content for it. A section headed `# __proto__` is not stored by the source, because assigning a string to `__proto__` of an object literal is ignored; the model stores it like any other id, so `Content.LastEntryWins` and `Content.ContentStore.GetAllContent` include that id where the source does not.
- Search.ContentText and Mapper.ContentOf: a node whose id names an inherited object property (`toString`, `constructor`, `valueOf`, `__proto__`) finds a function or `Object.prototype` in the content record. In the search dialog the following `toLowerCase` call then throws a TypeError for any non-blank query, and the mapper passes the function on as the node's content. The model finds no content for such an id: the search gives its results as usual (`Search.Matches`, `Search.Results`) and `Mapper.BuildNodes` gives no content.
- Rendering details are not modelled: the `graphNode` type tag, the `onAddChild` callback, the `straight` edge type, focus and scrolling.
- An absent `isDraft` is modelled as false.
- The draft mark does not survive the round trip. The dialog sends `attributes.isDraft`, the backend's create commands have no attributes, and the frontend mapper never sets `isDraft`. `RoundTrip.SubmittedNodeComesBack` and `RoundTrip.PublishDropsAttributes` state this as the code behaves.
- The category type in `cv.types.ts` has no `sectionId`, while the mapper, the dialog and the service read one. The model gives categories a `sectionId`, following the code that uses it.
- FeatureFlags.FeatureStore.AllFeatures: the order of `Object.values` is the declaration order; integer-like keys do not occur.
- JSON parsing of stored flags, URL query parsing and JWT base64 decoding are parameters or datatypes (`StoredValue`, the URL feature list, the payload decoder). Attributes of the wrong JSON type read as absent.
- FeatureFlags.Enabled: a stored value that is a JSON string, not a list, makes `includes` a substring test in the source; the model reads such a value as malformed, so every feature is off.
- The dialog's UUID is a parameter; the asynchronous error path (the `catch` that shows the message) is not modelled.
- NodeService.CvNodeService.Search: `%` and `_` in the query are taken literally, not as LIKE wildcards. The result order is not fixed by the query and is modelled as creation order.
- The active-only repository methods the service calls are not declared in `CvNodeRepository.java`. They are modelled after the repository test: active nodes only, in creation order.
- `errors.test.ts` refers to `AuthenticationError` and `AuthorizationError`, which `errors.ts` does not define; only the error classes `errors.ts` defines are modelled.
- Auth.Expired: a fractional `exp` is not modelled; `exp` is a whole number of seconds or absent.
- Auth.AuthService: listeners are a set; the order in which they are called is not modelled.
- Bean validation of commands, JPA merging of a re-created id, Jackson's handling of unknown fields, and a non-boolean `email_verified` claim are not modelled.
- RoundTrip.CategoryReadsBack and RoundTrip.SubmittedCategorySection: without bean validation the model accepts a category command without a sectionId and reads it back with its own id. The running API declares `sectionId` as `@NotBlank` and answers such a command with 400, so the own-id fallback is reached only through data created otherwise.
- Deletion does not cascade to children, as in `CvNodeService.delete`. `NodeService.ChildrenOutliveParent` states this.
