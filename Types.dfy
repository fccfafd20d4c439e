/** The organisational model the editor works on: levels, teams, work
    items, rituals and the connections between them (types.ts). Optional
    properties are `Option`s; string unions are enumerations. The property
    the source calls `label` is `labelText` here, `label` being a Dafny
    keyword. */
module Types {
  import opened Optional

  datatype LevelId = StrategicLevel | PortfolioLevel | TeamLevel

  datatype OrgLevel = OrgLevel(id: LevelId, labelText: string, color: string, bgColor: string)

  datatype WorkItemType = Initiative | Epic | Story | Input

  /** The string a work item type is written as in the source. */
  function TypeName(t: WorkItemType): string {
    match t
    case Initiative => "initiative"
    case Epic => "epic"
    case Story => "story"
    case Input => "input"
  }

  datatype TeamType = StreamAligned | Enabling | ComplicatedSubsystem | Platform

  datatype InteractionMode = Collaboration | XAsAService | Facilitating

  datatype Status = Backlog | InProgress | Done

  datatype ConnectionStyle = Solid | Dashed

  datatype Team = Team(
    id: string,
    name: string,
    members: seq<string>,
    level: LevelId,
    teamType: Option<TeamType>,
    collaborators: Option<seq<string>>)

  datatype Ritual = Ritual(
    id: string,
    title: string,
    level: LevelId,
    description: Option<string>,
    participants: seq<string>,
    agendaItems: seq<string>,
    ritualFrequency: string,
    owningTeamId: Option<string>)

  datatype WorkItem = WorkItem(
    id: string,
    title: string,
    workType: WorkItemType,
    level: LevelId,
    description: Option<string>,
    owningTeamId: Option<string>,
    status: Option<Status>,
    source: Option<string>)

  /** A directed, labelled link; `from` and `to` name a team, work item or
      ritual by id. */
  datatype Connection = Connection(
    id: string,
    from: string,
    to: string,
    labelText: Option<string>,
    style: ConnectionStyle,
    interactionMode: Option<InteractionMode>)

  datatype WorkflowModel = WorkflowModel(
    levels: seq<OrgLevel>,
    teams: seq<Team>,
    workItems: seq<WorkItem>,
    rituals: seq<Ritual>,
    connections: seq<Connection>)

  /** `Partial<Team>`: each field is absent (`None`) or given. A given
      optional field may itself be `undefined`, hence `Option<Option<_>>`. */
  datatype TeamPatch = TeamPatch(
    id: Option<string>,
    name: Option<string>,
    members: Option<seq<string>>,
    level: Option<LevelId>,
    teamType: Option<Option<TeamType>>,
    collaborators: Option<Option<seq<string>>>)

  /** `Partial<WorkItem>`. */
  datatype WorkPatch = WorkPatch(
    id: Option<string>,
    title: Option<string>,
    workType: Option<WorkItemType>,
    level: Option<LevelId>,
    description: Option<Option<string>>,
    owningTeamId: Option<Option<string>>,
    status: Option<Option<Status>>,
    source: Option<Option<string>>)

  /** `Partial<Ritual>`. */
  datatype RitualPatch = RitualPatch(
    id: Option<string>,
    title: Option<string>,
    level: Option<LevelId>,
    description: Option<Option<string>>,
    participants: Option<seq<string>>,
    agendaItems: Option<seq<string>>,
    ritualFrequency: Option<string>,
    owningTeamId: Option<Option<string>>)
}
