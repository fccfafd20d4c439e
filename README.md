# OrgFlow editor model

OrgFlow is a single-page editor for an organisational blueprint. The blueprint has three levels:

- strategic
- portfolio
- team

Teams, work items and rituals sit on these levels, and directed connections join them by id.

This project models the editor's state machine in `App.tsx`. The state is a pair: the `WorkflowModel` and the current selection `{ type, id }` or `null`. Each handler replaces that state:

- edit a team, work item or ritual;
- delete the selection, with a cascade over its connections;
- toggle an undirected link between two entities;
- add a new entity;
- spawn a work item from an input.

The lookups the inspector draws from are modelled as well:

- the selected entity;
- `getEntityName`;
- `getConnections`;
- the comma-separated members field;
- `isConnected`.

Layout of the project:

- `Types.dfy`: the entities of `types.ts` as datatypes. Optional properties are `Option`s and string unions are enumerations. `label` is written `labelText` and a work item's `type` is written `workType`, because both words are reserved in Dafny. A `Partial<T>` argument is a patch datatype with one `Option` per field.
- `Workflow.dfy`: every `setModel(prev => ...)` updater as a pure function of the old model, plus the lookups. Each comes with lemmas relating it to a partner: idempotence, an inverse, the no-op case, or the invariant that no two connections join the same pair.
- `App.dfy`: the component as a class `App.Editor`. Its fields `model` and `selection` are the two state cells. Each handler is a method that assigns both cells in the order the source calls `setModel` and `setSelection`. Each method promises the new state, and each keeps the invariant that no two connections join the same pair.
- `Members.dfy`: the members field.
  - The inspector shows the members with `join(', ')`.
  - It reads them back with `split(',').map(trim).filter(Boolean)`.
  - `trim` uses JavaScript's white-space set.
- `Ids.dfy`: ids minted from the clock, `` `${prefix}-${Date.now()}` ``, with the clock reading as a parameter.
- `Seqs.dfy`: the array operations the handlers use: `filter`, `find`, `findIndex`, `map` with a condition, and removal by index.
- `Seed.dfy`: the initial model of `constants.tsx`, and what the editor's operations do to it.
- `Optional.dfy`: the option type.

`Date.now()` is a parameter `now: nat`. The handlers that mint an entity id (`AddNewItem`, `SpawnFromInput`) require that id to be unused. The source relies on the clock for this.

## Model

| member | source | states |
|---|---|---|
| App.Editor.constructor | App.tsx:7-8 | the editor starts with the given model and nothing selected |
| App.Editor.Select | App.tsx:230 | a card click selects `{ type, id }` and leaves the model alone, so links stay distinct |
| App.Editor.UpdateTeam | App.tsx:14-16 | the model becomes `Workflow.UpdateTeam` of the old one; selection kept; links stay distinct |
| App.Editor.UpdateWork | App.tsx:17-19 | the model becomes `Workflow.UpdateWork` of the old one; selection kept; links stay distinct |
| App.Editor.UpdateRitual | App.tsx:20-22 | the model becomes `Workflow.UpdateRitual` of the old one; selection kept; links stay distinct |
| App.Editor.EditMembers | App.tsx:118 | an edit of the members field sets the selected team's members, if a team is selected, to the parsed field; the selection is kept; links stay distinct |
| App.Editor.SetMembers | App.tsx:118 | `updateTeam(selectedTeam.id, { members })` gives the selected team, if any, exactly those members; selection kept; links stay distinct |
| App.Editor.DeleteItem | App.tsx:24-35 | with no selection nothing changes; otherwise the model is `DeleteSelected` of the old one, the selection is cleared, no connection touches the deleted id, and links stay distinct |
| App.Editor.ToggleConnection | App.tsx:37-45 | the model is `Workflow.Toggle` of the old one; with distinct links the pair's connectedness flips and links stay distinct |
| App.Editor.AddNewItem | App.tsx:47-62 | the new entity of the requested kind is appended and selected, and the selection finds it with its default fields; links stay distinct |
| App.Editor.SpawnFromInput | App.tsx:64-76 | the derived work item and its link are appended; the new item is selected, found, and has the level's type; links stay distinct |
| Ids.Decimal | App.tsx:48 | the rendering of a clock reading is nonempty, all digits, and has no leading zero; it is one digit exactly below 10 |
| Ids.DecimalInjective | App.tsx:48 | distinct clock readings render differently |
| Ids.Stamped | App.tsx:48 | definition of `${prefix}-${now}`; its contract lets a reader cut the id back into the prefix, the dash and the reading's digits |
| Ids.StampedIdsDistinct | App.tsx:48 | two ids with one prefix minted at different times differ |
| Ids.StampedInjective | App.tsx:48 | for dash-free prefixes two ids are equal exactly when both the prefixes and the clock readings are |
| Members.TrimStart | App.tsx:118 | the result is a suffix of the input that does not start with white space |
| Members.TrimEnd | App.tsx:118 | the result is a prefix of the input that does not end with white space |
| Members.IsSpace | App.tsx:118 | definition: the white space and line terminators JavaScript's `trim` removes |
| Members.Trim | App.tsx:118 | the result is trimmed at both ends and no longer than the input |
| Members.TrimCutsSpaces | App.tsx:118 | the trim is the stretch of the input left after cutting off white space at both ends, and only white space is cut |
| Members.TrimAllSpaces | App.tsx:118 | a run of white space trims to nothing |
| Members.TrimAddsNothing | App.tsx:118 | a character absent from a string is absent from its trim |
| Members.TrimTrimmed | App.tsx:118 | trimming an already trimmed string is the identity |
| Members.TrimIdempotent | App.tsx:118 | trimming twice is trimming once |
| Members.TrimPadded | App.tsx:118 | white space added in front of a trimmed string is removed by trim |
| Members.Split | App.tsx:118 | `split` yields at least one piece and no piece holds the separator |
| Members.Join | App.tsx:118 | definition of `join(sep)`; JoinSplit is its inverse |
| Members.JoinSplit | App.tsx:118 | joining the pieces of `split` with the separator gives the text back |
| Members.SplitAppend | App.tsx:118 | a separator splits the text into the pieces before it followed by the pieces after it |
| Members.SplitWhole | App.tsx:118 | a text without the separator is one piece |
| Members.SplitHead | App.tsx:118 | splitting a piece without separator followed by a separator and more text starts with that piece |
| Members.SplitJoined | App.tsx:118 | splitting `pre` followed by `join(', ')` of comma-free members gives one piece per member: the first is `pre` plus the member, every later one the member behind one space |
| Members.TrimEach | App.tsx:118 | `map(s => s.trim())`, by recursion: one trimmed piece per piece, in order |
| Members.TrimEachClean | App.tsx:118 | trimming comma-free pieces gives trimmed, comma-free pieces |
| Members.TrimEachAppend | App.tsx:118 | trimming the pieces of two lists is trimming each list |
| Members.FormatMembers | App.tsx:118 | definition of the field's value `members.join(', ')`; ParseFormat is its inverse |
| Members.ParseMembers | App.tsx:118 | definition of `split(',').map(s => s.trim()).filter(Boolean)` |
| Members.ParseMembersWellFormed | App.tsx:118 | no parsed member is empty, padded with white space, or holds a comma, whatever the text |
| Members.PiecesOfFormat | App.tsx:118 | splitting the shown list on ',' gives one piece per member, which trims back to that member |
| Members.ParseFormat | App.tsx:118 | showing well-formed members and reading the field back returns the same list in the same order |
| Members.ParseFormatParse | App.tsx:118 | re-showing and re-parsing a parsed field is stable |
| Members.ParseTrailingComma | App.tsx:118 | a comma typed at the end of the field, with or without white space after it, parses to the same members |
| Seed.FilterSeven | constants.tsx:76-84 | a seven-element filter with the first, second and sixth failing keeps the other four in order |
| Seed.BoardLinks | constants.tsx:76-84 | c1, c2 and c6 touch the portfolio board; c3, c4, c5 and c7 do not |
| Seed.DeletePortfolioBoard | App.tsx:32 | deleting `board_port` from the seed leaves connections c3, c4, c5, c7 in order |
| Seed.StandupLinks | constants.tsx:80 | c4 is the first seed link joining the standup and the team board |
| Seed.ToggleStandupBoard | App.tsx:37-40 | toggling standup and team board, against c4's direction, removes c4 only |
| Seed.NoBoardTeam | constants.tsx:12-37 | no seed team carries the id `board_port` |
| Seed.BoardWork | constants.tsx:38-46 | looking up `board_port` among the seed work items finds the portfolio board |
| Seed.BoardName | App.tsx:78-83 | the seed's portfolio board is named by its title |
| Seed.InitialLinksDistinct | constants.tsx:76-84 | the seed model has no two links joining the same pair |
| Seqs.SubsequenceMembers | App.tsx:27-32 | an element of a subsequence is an element of the sequence |
| Seqs.SubsequenceReflexive | App.tsx:27-32 | a sequence is a subsequence of itself |
| Seqs.Filter | App.tsx:27-32 | `filter` keeps order (a subsequence), keeps every occurrence of each kept element, and holds exactly the kept elements |
| Seqs.FilterSingleton | App.tsx:27-32 | filtering one element keeps it exactly when the test holds |
| Seqs.FilterConcat | App.tsx:27-32 | filtering distributes over concatenation |
| Seqs.FilterCons | App.tsx:32 | filtering a list that starts with `x` keeps `x` exactly when the test holds, then filters the rest |
| Seqs.FilterKeepsAll | App.tsx:27-32 | a filter every element passes is the identity |
| Seqs.FilterKeepsNone | App.tsx:85-90 | a filter no element passes gives the empty list |
| Seqs.FilterIdempotent | App.tsx:27-32 | filtering twice with one test is filtering once |
| Seqs.FindIndex | App.tsx:38 | `findIndex` is -1 when nothing matches, else the lowest matching index |
| Seqs.Find | App.tsx:10-12 | `find` yields the first matching element, or nothing exactly when none matches |
| Seqs.MapMatching | App.tsx:14-22 | `map(x => matches(x) ? f(x) : x)` keeps the length and rewrites exactly the matching positions |
| Seqs.RemoveAt | App.tsx:40 | `filter((_, i) => i !== k)` drops position k and shifts the rest down by one |
| Seqs.RemoveAtSubsequence | App.tsx:40 | removing one position leaves a subsequence |
| Seqs.FindAppend | App.tsx:47-62 | finding an appended element no earlier element matches returns it |
| Workflow.FindTeam | App.tsx:10 | the first team with the id, or none exactly when no team carries it |
| Workflow.FindWork | App.tsx:11 | the first work item with the id, or none exactly when none carries it |
| Workflow.FindRitual | App.tsx:12 | the first ritual with the id, or none exactly when none carries it |
| Workflow.SelectedTeam | App.tsx:10 | a team is selected exactly when the selection is a team id some team carries |
| Workflow.SelectedWork | App.tsx:11 | a work item is selected exactly when the selection is a work id some item carries |
| Workflow.SelectedRitual | App.tsx:12 | a ritual is selected exactly when the selection is a ritual id some ritual carries |
| Workflow.GetEntityName | App.tsx:78-83 | the name is never empty; it is "Unknown" or the name or title of an entity with the id |
| Workflow.EntityNameUnknown | App.tsx:82 | an id no entity carries is named "Unknown" |
| Workflow.EntityNameTeamFirst | App.tsx:79 | a team with a nonempty name wins over work items and rituals |
| Workflow.EntityNameFromWork | App.tsx:79-80 | with no team carrying the id, a work item with a nonempty title names it |
| Workflow.EntityNameEmptyFallsThrough | App.tsx:79-80 | a team with an empty name falls through to the work item's title |
| Workflow.EntityNameFromRitual | App.tsx:79-81 | with no named team and no titled work item for the id, a ritual with a nonempty title names it |
| Workflow.EntityNameAllEmpty | App.tsx:79-82 | when every entity found for the id has an empty name or title, the name is "Unknown" |
| Workflow.GetConnections | App.tsx:85-90 | upstream is exactly the links ending at the id, downstream exactly those starting there, each in list order |
| Workflow.SelfLinkBothWays | App.tsx:85-90 | a self-link appears both upstream and downstream |
| Workflow.MergeTeam | App.tsx:15 | definition of `{ ...t, ...updates }`: each field the patch gives wins, the others stay; UpdateTeamIdempotent is its partner |
| Workflow.MergeWork | App.tsx:18 | definition of `{ ...w, ...updates }`; UpdateWorkIdempotent is its partner |
| Workflow.MergeRitual | App.tsx:21 | definition of `{ ...r, ...updates }`; UpdateRitualIdempotent is its partner |
| Workflow.UpdateTeam | App.tsx:14-16 | only teams with the id change, by merging the patch; length, order and the other lists are kept |
| Workflow.UpdateWork | App.tsx:17-19 | only work items with the id change, by merging the patch; length, order and the other lists are kept |
| Workflow.UpdateRitual | App.tsx:20-22 | only rituals with the id change, by merging the patch; length, order and the other lists are kept |
| Workflow.UpdateTeamIdempotent | App.tsx:14-16 | applying a team edit twice is applying it once, unless it moves the id |
| Workflow.UpdateWorkIdempotent | App.tsx:17-19 | applying a work edit twice is applying it once, unless it moves the id |
| Workflow.UpdateRitualIdempotent | App.tsx:20-22 | applying a ritual edit twice is applying it once, unless it moves the id |
| Workflow.UpdateTeamAbsent | App.tsx:14-16 | editing an id no team carries changes nothing |
| Workflow.UpdateWorkAbsent | App.tsx:17-19 | editing an id no work item carries changes nothing |
| Workflow.UpdateRitualAbsent | App.tsx:20-22 | editing an id no ritual carries changes nothing |
| Workflow.UpdateSelectedTeamMembers | App.tsx:118 | after setting the selected team's members, the selection finds a team with exactly those members |
| Workflow.SetSelectedMembers | App.tsx:114-118 | with a selected team its members become the given list, otherwise nothing changes; connections never change |
| Workflow.DeleteSelected | App.tsx:27-33 | only the selected kind's list loses entries, exactly those with the id; every link touching the id goes, every other link stays in order |
| Workflow.DeleteIdempotent | App.tsx:27-33 | deleting the same selection twice is deleting it once |
| Workflow.DeleteLeavesNoLinks | App.tsx:32 | after a delete the id has no upstream and no downstream links |
| Workflow.DeleteAbsent | App.tsx:27-33 | deleting an id that appears nowhere changes nothing |
| Workflow.Links | App.tsx:38 | definition of the `findIndex` test: the connection joins the two ids in either direction |
| Workflow.IsConnected | App.tsx:417 | definition of `isConnected`: some connection joins the two ids; FindLink and ConnectedSymmetric are its partners |
| Workflow.FindLink | App.tsx:38 | -1 exactly when the pair is unconnected, else the lowest index joining them in either direction |
| Workflow.NewLink | App.tsx:42 | definition of the new `Link` connection `c-<now>` from the first id to the second; ToggleFlips states what it does |
| Workflow.Toggle | App.tsx:37-45 | a connected pair loses exactly its first link and the rest keep their order; an unconnected pair gains one `Link` connection at the end; entities never change |
| Workflow.ConnectedSymmetric | App.tsx:417 | `isConnected` does not depend on direction |
| Workflow.ToggleTwiceRestores | App.tsx:37-45 | toggling an unconnected pair twice, in either order, restores the model |
| Workflow.ToggleConnectedEitherWay | App.tsx:38 | toggling a connected pair gives the same result whichever end comes first |
| Workflow.NoDuplicatesSubsequence | App.tsx:32 | dropping connections keeps the pairs distinct |
| Workflow.ToggleFlips | App.tsx:37-45 | with distinct pairs, the pair is connected after a toggle exactly when it was not before |
| Workflow.ToggleKeepsLinksDistinct | App.tsx:37-45 | a toggle keeps the pairs distinct |
| Workflow.DeleteKeepsLinksDistinct | App.tsx:32 | a delete keeps the pairs distinct |
| Workflow.NewTeam | App.tsx:50 | definition of the new team literal; AddTeamSelectable is its partner |
| Workflow.NewWork | App.tsx:54 | definition of the new work item literal; AddWorkSelectable is its partner |
| Workflow.NewRitual | App.tsx:58 | definition of the new ritual literal; AddRitualSelectable is its partner |
| Workflow.NewItemId | App.tsx:48 | definition of the id `${type}-${Date.now()}`; NewItemIdsDistinct is its partner |
| Workflow.NewItemIdsDistinct | App.tsx:42-48 | ids minted for different kinds or at different readings differ, and never equal a connection id |
| Workflow.AddItem | App.tsx:47-62 | one new entity of the kind is appended to its list; everything else is unchanged |
| Workflow.AddTeamSelectable | App.tsx:50-53 | a new team with a fresh id is found by its id and named "New Team" |
| Workflow.AddWorkSelectable | App.tsx:54-57 | a new work item with a fresh id is found by its id and named `New <type>` |
| Workflow.AddRitualSelectable | App.tsx:58-61 | a new ritual with a fresh id is found by its id and named "New Ritual" |
| Workflow.AddItemSelectable | App.tsx:47-62 | with a fresh id the new selection finds the new entity, which is named by its default name |
| Workflow.AddItemKeepsLinksDistinct | App.tsx:47-62 | adding an entity keeps the pairs distinct |
| Workflow.SpawnType | App.tsx:66 | strategic gives initiative, portfolio epic, team story, each both ways; never input |
| Workflow.DerivedWork | App.tsx:65-67 | definition of the derived work item; SpawnSelectable is its partner |
| Workflow.DerivationLink | App.tsx:68 | definition of the `Derived from` link from the input to the derived item; SpawnLinksNewItem is its partner |
| Workflow.Spawn | App.tsx:64-74 | the derived item and a link from the input to it are appended; the item has the level's type |
| Workflow.SpawnGrowsDownstream | App.tsx:237-239 | the input's downstream list grows by exactly the new link |
| Workflow.SpawnSelectable | App.tsx:64-75 | with a fresh id the new item is selectable and is named "Derived from Input" |
| Workflow.SpawnLinksNewItem | App.tsx:67-68 | with a fresh id the new item's only upstream link is the one from the input |
| Workflow.SpawnKeepsLinksDistinct | App.tsx:64-74 | spawning with a fresh id keeps the pairs distinct |

## Behaviour worth knowing

These follow from the code as written. The model keeps each one.

- Deleting a team leaves work items and rituals whose `owningTeamId` names it. Only connections are cascaded (App.tsx:27-33).
- `toggleConnection` removes only the first link joining a pair. With two such links, one toggle leaves the pair connected. `Workflow.ToggleFlips` therefore needs the distinct-links invariant, and every handler keeps it.
- `getEntityName` chains with `||`. An entity with an empty name is passed over for the next list, or for "Unknown" (App.tsx:78-83).
- The members field is redrawn from `members.join(', ')` after every keystroke (App.tsx:118). A comma typed at the end, with or without spaces after it, parses to the same members (`Members.ParseTrailingComma`), so the field snaps back to its old text at once, and a new member cannot be started at the end of the field.
- `Partial` edits may change an entity's id. `Workflow.UpdateTeamIdempotent` and its siblings exclude that case.

## Left out

- JSX rendering, CSS classes, and the presentational components `ConnectionBadges`, `CardWrapper`, `EmptyState`, `InputField` and `SelectField` (App.tsx:358-454): UI only. The inspector's edit callbacks are modelled as the `Update*` and `EditMembers` handlers they call.
- `services/geminiService.ts`: a network call to an external model and a `JSON.parse` of its answer.
- React scheduling:
  - Each handler is one atomic transition.
  - `toggleConnection` computes its index from the rendered `model` but filters `prev` (App.tsx:38-40). The model takes both to be the same state.
- The clock: `Date.now()` is a parameter.
  - App.Editor.AddNewItem and App.Editor.SpawnFromInput require their new entity id to be unused. The source does not check this; it relies on the clock.
  - The connection ids `c-<now>` are not required to be fresh. Nothing reads a connection by its id.
- Workflow.DerivationLink: `spawnFromInput` reads `Date.now()` twice (App.tsx:65 and 68), so the link's id can be a millisecond later than the work item's. The model uses one reading for both ids; the link's `to` end is the work item's id either way.
- App.Editor.Select: does not check that an entity with the id exists. The source's card clicks only pass ids of rendered cards, and the lookups return nothing for a missing id.
- `Partial<T>` with an explicit `undefined` for a required field cannot be written. Each patch field either keeps the old value or supplies a new one.
- String details: a Dafny `char` is a Unicode scalar value, while a JavaScript string is a sequence of UTF-16 code units, so a character outside the Basic Multilingual Plane is one character here and two units there, and a lone surrogate cannot be written. `trim` and `split(',')` are unaffected: no surrogate is white space or a comma. Trimming uses JavaScript's white-space and line-terminator set. There is no other Unicode handling.
- The options offered by the level and type selects are UI. Any `LevelId` or `WorkItemType` may be passed.
