/** The organisational-model editor's transitions and lookups (App.tsx), as
    pure functions of the model. Each `setModel(prev => ...)` updater is one
    function from the old model to the new one; the handlers that also move
    the selection are the methods of `App.Editor`. */
module Workflow {
  import opened Optional
  import opened Types
  import Seqs
  import Ids

  /** The list a selection points into: `'team' | 'work' | 'ritual'`. */
  datatype EntityKind = TeamKind | WorkKind | RitualKind

  /** The string a kind is written as; it prefixes the ids `addNewItem` mints. */
  function KindName(k: EntityKind): string {
    match k
    case TeamKind => "team"
    case WorkKind => "work"
    case RitualKind => "ritual"
  }

  /** `{ type, id }`: the entity the inspector shows. */
  datatype Selection = Selection(kind: EntityKind, id: string)

  /** No entity carries `id` and no connection ends at it: what a fresh
      clock reading is relied on to give. */
  predicate IdFree(m: WorkflowModel, id: string) {
    && (forall t :: t in m.teams ==> t.id != id)
    && (forall w :: w in m.workItems ==> w.id != id)
    && (forall r :: r in m.rituals ==> r.id != id)
    && (forall c :: c in m.connections ==> c.from != id && c.to != id)
  }

  // ---------------------------------------------------------------------
  // Lookups

  function TeamIs(id: string): Team -> bool {
    (t: Team) => t.id == id
  }

  function WorkIs(id: string): WorkItem -> bool {
    (w: WorkItem) => w.id == id
  }

  function RitualIs(id: string): Ritual -> bool {
    (x: Ritual) => x.id == id
  }

  /** `teams.find(t => t.id === id)`. */
  function FindTeam(ts: seq<Team>, id: string): (r: Option<Team>)
    ensures r.Some? ==> r.value in ts && r.value.id == id
    ensures r.Some? ==> exists k :: 0 <= k < |ts| && ts[k] == r.value && forall j :: 0 <= j < k ==> ts[j].id != id
    ensures r.None? <==> forall t :: t in ts ==> t.id != id
  {
    Seqs.Find(ts, TeamIs(id))
  }

  /** `workItems.find(w => w.id === id)`. */
  function FindWork(ws: seq<WorkItem>, id: string): (r: Option<WorkItem>)
    ensures r.Some? ==> r.value in ws && r.value.id == id
    ensures r.Some? ==> exists k :: 0 <= k < |ws| && ws[k] == r.value && forall j :: 0 <= j < k ==> ws[j].id != id
    ensures r.None? <==> forall w :: w in ws ==> w.id != id
  {
    Seqs.Find(ws, WorkIs(id))
  }

  /** `rituals.find(r => r.id === id)`. */
  function FindRitual(rs: seq<Ritual>, id: string): (r: Option<Ritual>)
    ensures r.Some? ==> r.value in rs && r.value.id == id
    ensures r.Some? ==> exists k :: 0 <= k < |rs| && rs[k] == r.value && forall j :: 0 <= j < k ==> rs[j].id != id
    ensures r.None? <==> forall x :: x in rs ==> x.id != id
  {
    Seqs.Find(rs, RitualIs(id))
  }

  /** `selectedTeam`: the selected team, when the selection is a team that exists. */
  function SelectedTeam(m: WorkflowModel, sel: Option<Selection>): (r: Option<Team>)
    ensures r.Some? <==> sel.Some? && sel.value.kind == TeamKind && exists t :: t in m.teams && t.id == sel.value.id
    ensures r.Some? ==> r.value in m.teams && r.value.id == sel.value.id
  {
    if sel.Some? && sel.value.kind == TeamKind then FindTeam(m.teams, sel.value.id) else None
  }

  /** `selectedWork`. */
  function SelectedWork(m: WorkflowModel, sel: Option<Selection>): (r: Option<WorkItem>)
    ensures r.Some? <==> sel.Some? && sel.value.kind == WorkKind && exists w :: w in m.workItems && w.id == sel.value.id
    ensures r.Some? ==> r.value in m.workItems && r.value.id == sel.value.id
  {
    if sel.Some? && sel.value.kind == WorkKind then FindWork(m.workItems, sel.value.id) else None
  }

  /** `selectedRitual`. */
  function SelectedRitual(m: WorkflowModel, sel: Option<Selection>): (r: Option<Ritual>)
    ensures r.Some? <==> sel.Some? && sel.value.kind == RitualKind && exists x :: x in m.rituals && x.id == sel.value.id
    ensures r.Some? ==> r.value in m.rituals && r.value.id == sel.value.id
  {
    if sel.Some? && sel.value.kind == RitualKind then FindRitual(m.rituals, sel.value.id) else None
  }

  /** `getEntityName`: the name of the first team with `id`, else the title
      of the first work item, else of the first ritual, else "Unknown". The
      chain is built with `||`, so an empty name or title counts as missing.
      The result is never empty, and it is "Unknown" or the name or title of
      an entity that carries `id`. */
  function GetEntityName(m: WorkflowModel, id: string): (name: string)
    ensures name != []
    ensures || name == "Unknown"
            || (exists t :: t in m.teams && t.id == id && t.name == name)
            || (exists w :: w in m.workItems && w.id == id && w.title == name)
            || (exists r :: r in m.rituals && r.id == id && r.title == name)
  {
    var team := FindTeam(m.teams, id);
    var work := FindWork(m.workItems, id);
    var ritual := FindRitual(m.rituals, id);
    if team.Some? && team.value.name != [] then team.value.name
    else if work.Some? && work.value.title != [] then work.value.title
    else if ritual.Some? && ritual.value.title != [] then ritual.value.title
    else "Unknown"
  }

  /** An id no entity carries is shown as "Unknown". */
  lemma EntityNameUnknown(m: WorkflowModel, id: string)
    requires forall t :: t in m.teams ==> t.id != id
    requires forall w :: w in m.workItems ==> w.id != id
    requires forall r :: r in m.rituals ==> r.id != id
    ensures GetEntityName(m, id) == "Unknown"
  {
  }

  /** Teams are looked up first: a team with a non-empty name shadows any
      work item or ritual that shares its id. */
  lemma EntityNameTeamFirst(m: WorkflowModel, id: string, t: Team)
    requires FindTeam(m.teams, id) == Some(t) && t.name != []
    ensures GetEntityName(m, id) == t.name
  {
  }

  /** With no team carrying the id, the first work item with it names it,
      unless its title is empty. */
  lemma EntityNameFromWork(m: WorkflowModel, id: string, w: WorkItem)
    requires FindTeam(m.teams, id) == None
    requires FindWork(m.workItems, id) == Some(w) && w.title != []
    ensures GetEntityName(m, id) == w.title
  {
  }

  /** A team whose name is empty does not stop the lookup: the work item
      with that id supplies the name. */
  lemma EntityNameEmptyFallsThrough(m: WorkflowModel, id: string, t: Team, w: WorkItem)
    requires FindTeam(m.teams, id) == Some(t) && t.name == []
    requires FindWork(m.workItems, id) == Some(w) && w.title != []
    ensures GetEntityName(m, id) == w.title
  {
  }

  /** With no named team and no titled work item carrying the id, the first
      ritual with it names it, unless its title is empty. */
  lemma EntityNameFromRitual(m: WorkflowModel, id: string, x: Ritual)
    requires FindTeam(m.teams, id).None? || FindTeam(m.teams, id).value.name == []
    requires FindWork(m.workItems, id).None? || FindWork(m.workItems, id).value.title == []
    requires FindRitual(m.rituals, id) == Some(x) && x.title != []
    ensures GetEntityName(m, id) == x.title
  {
  }

  /** When every entity found for the id has an empty name or title, the id
      is shown as "Unknown", even though entities carry it. */
  lemma EntityNameAllEmpty(m: WorkflowModel, id: string)
    requires FindTeam(m.teams, id).None? || FindTeam(m.teams, id).value.name == []
    requires FindWork(m.workItems, id).None? || FindWork(m.workItems, id).value.title == []
    requires FindRitual(m.rituals, id).None? || FindRitual(m.rituals, id).value.title == []
    ensures GetEntityName(m, id) == "Unknown"
  {
  }

  /** `getConnections`'s result: the links into and out of one entity. */
  datatype ConnectionSplit = ConnectionSplit(upstream: seq<Connection>, downstream: seq<Connection>)

  function Into(id: string): Connection -> bool {
    (c: Connection) => c.to == id
  }

  function OutOf(id: string): Connection -> bool {
    (c: Connection) => c.from == id
  }

  /** `getConnections`: upstream holds every connection ending at `id`,
      downstream every connection starting there, each in list order. */
  function GetConnections(m: WorkflowModel, id: string): (r: ConnectionSplit)
    ensures Seqs.IsSubsequence(r.upstream, m.connections)
    ensures Seqs.IsSubsequence(r.downstream, m.connections)
    ensures forall c :: multiset(r.upstream)[c] == if c.to == id then multiset(m.connections)[c] else 0
    ensures forall c :: multiset(r.downstream)[c] == if c.from == id then multiset(m.connections)[c] else 0
  {
    ConnectionSplit(Seqs.Filter(m.connections, Into(id)), Seqs.Filter(m.connections, OutOf(id)))
  }

  /** A self-link is listed both upstream and downstream of its entity. */
  lemma SelfLinkBothWays(m: WorkflowModel, c: Connection)
    requires c in m.connections && c.from == c.to
    ensures c in GetConnections(m, c.from).upstream && c in GetConnections(m, c.from).downstream
  {
  }

  // ---------------------------------------------------------------------
  // Field updates: `{ ...entity, ...updates }` on the entity whose id matches

  /** `{ ...t, ...p }`: each field the patch gives wins; the others stay. */
  function MergeTeam(t: Team, p: TeamPatch): Team {
    Team(p.id.GetOr(t.id), p.name.GetOr(t.name), p.members.GetOr(t.members),
         p.level.GetOr(t.level), p.teamType.GetOr(t.teamType), p.collaborators.GetOr(t.collaborators))
  }

  /** `{ ...w, ...p }`. */
  function MergeWork(w: WorkItem, p: WorkPatch): WorkItem {
    WorkItem(p.id.GetOr(w.id), p.title.GetOr(w.title), p.workType.GetOr(w.workType),
             p.level.GetOr(w.level), p.description.GetOr(w.description),
             p.owningTeamId.GetOr(w.owningTeamId), p.status.GetOr(w.status), p.source.GetOr(w.source))
  }

  /** `{ ...r, ...p }`. */
  function MergeRitual(r: Ritual, p: RitualPatch): Ritual {
    Ritual(p.id.GetOr(r.id), p.title.GetOr(r.title), p.level.GetOr(r.level),
           p.description.GetOr(r.description), p.participants.GetOr(r.participants),
           p.agendaItems.GetOr(r.agendaItems), p.ritualFrequency.GetOr(r.ritualFrequency),
           p.owningTeamId.GetOr(r.owningTeamId))
  }

  /** `updateTeam`: every team whose id is `id` gets the patch merged in;
      the list keeps its length and order, every other team and every other
      list stays as it was. */
  function UpdateTeam(m: WorkflowModel, id: string, p: TeamPatch): (r: WorkflowModel)
    ensures r.levels == m.levels && r.workItems == m.workItems
    ensures r.rituals == m.rituals && r.connections == m.connections
    ensures |r.teams| == |m.teams|
    ensures forall i :: 0 <= i < |m.teams| ==>
      r.teams[i] == if m.teams[i].id == id then MergeTeam(m.teams[i], p) else m.teams[i]
  {
    m.(teams := Seqs.MapMatching(m.teams, (t: Team) => t.id == id, (t: Team) => MergeTeam(t, p)))
  }

  /** `updateWork`. */
  function UpdateWork(m: WorkflowModel, id: string, p: WorkPatch): (r: WorkflowModel)
    ensures r.levels == m.levels && r.teams == m.teams
    ensures r.rituals == m.rituals && r.connections == m.connections
    ensures |r.workItems| == |m.workItems|
    ensures forall i :: 0 <= i < |m.workItems| ==>
      r.workItems[i] == if m.workItems[i].id == id then MergeWork(m.workItems[i], p) else m.workItems[i]
  {
    m.(workItems := Seqs.MapMatching(m.workItems, (w: WorkItem) => w.id == id, (w: WorkItem) => MergeWork(w, p)))
  }

  /** `updateRitual`. */
  function UpdateRitual(m: WorkflowModel, id: string, p: RitualPatch): (r: WorkflowModel)
    ensures r.levels == m.levels && r.teams == m.teams
    ensures r.workItems == m.workItems && r.connections == m.connections
    ensures |r.rituals| == |m.rituals|
    ensures forall i :: 0 <= i < |m.rituals| ==>
      r.rituals[i] == if m.rituals[i].id == id then MergeRitual(m.rituals[i], p) else m.rituals[i]
  {
    m.(rituals := Seqs.MapMatching(m.rituals, (x: Ritual) => x.id == id, (x: Ritual) => MergeRitual(x, p)))
  }

  /** Applying the same edit twice is applying it once, as long as the
      patch does not move the team to another id. */
  lemma UpdateTeamIdempotent(m: WorkflowModel, id: string, p: TeamPatch)
    requires p.id.None? || p.id == Some(id)
    ensures UpdateTeam(UpdateTeam(m, id, p), id, p) == UpdateTeam(m, id, p)
  {
    var once := UpdateTeam(m, id, p);
    assert forall i :: 0 <= i < |m.teams| ==> (once.teams[i].id == id <==> m.teams[i].id == id);
  }

  lemma UpdateWorkIdempotent(m: WorkflowModel, id: string, p: WorkPatch)
    requires p.id.None? || p.id == Some(id)
    ensures UpdateWork(UpdateWork(m, id, p), id, p) == UpdateWork(m, id, p)
  {
    var once := UpdateWork(m, id, p);
    assert forall i :: 0 <= i < |m.workItems| ==> (once.workItems[i].id == id <==> m.workItems[i].id == id);
  }

  lemma UpdateRitualIdempotent(m: WorkflowModel, id: string, p: RitualPatch)
    requires p.id.None? || p.id == Some(id)
    ensures UpdateRitual(UpdateRitual(m, id, p), id, p) == UpdateRitual(m, id, p)
  {
    var once := UpdateRitual(m, id, p);
    assert forall i :: 0 <= i < |m.rituals| ==> (once.rituals[i].id == id <==> m.rituals[i].id == id);
  }

  /** `{ members }`: a patch that sets the members list and nothing else. */
  function MembersPatch(ms: seq<string>): TeamPatch {
    TeamPatch(None, None, Some(ms), None, None, None)
  }

  /** Setting the selected team's members, then looking the selection up
      again, finds a team with exactly those members. */
  lemma UpdateSelectedTeamMembers(m: WorkflowModel, sel: Option<Selection>, ms: seq<string>)
    requires SelectedTeam(m, sel).Some?
    ensures SelectedTeam(UpdateTeam(m, sel.value.id, MembersPatch(ms)), sel).Some?
    ensures SelectedTeam(UpdateTeam(m, sel.value.id, MembersPatch(ms)), sel).value.members == ms
  {
    var id := sel.value.id;
    var r := UpdateTeam(m, id, MembersPatch(ms));
    var t := FindTeam(m.teams, id).value;
    var i :| 0 <= i < |m.teams| && m.teams[i] == t;
    assert r.teams[i] == MergeTeam(t, MembersPatch(ms));
    assert r.teams[i] in r.teams;
    var found := FindTeam(r.teams, id).value;
    var j :| 0 <= j < |r.teams| && r.teams[j] == found;
    assert m.teams[j].id == id;
    assert found == MergeTeam(m.teams[j], MembersPatch(ms));
  }

  /** The members field's edit: when the selection is a team that exists,
      that team's members become `ms`; otherwise nothing changes. Looking
      the selection up again then finds a team with exactly those members. */
  function SetSelectedMembers(m: WorkflowModel, sel: Option<Selection>, ms: seq<string>): (r: WorkflowModel)
    ensures r.levels == m.levels && r.workItems == m.workItems
    ensures r.rituals == m.rituals && r.connections == m.connections
    ensures SelectedTeam(m, sel).None? ==> r == m
    ensures SelectedTeam(m, sel).Some? ==> r == UpdateTeam(m, sel.value.id, MembersPatch(ms))
    ensures SelectedTeam(m, sel).Some? ==> SelectedTeam(r, sel).Some? && SelectedTeam(r, sel).value.members == ms
  {
    if SelectedTeam(m, sel).Some? then
      UpdateSelectedTeamMembers(m, sel, ms);
      UpdateTeam(m, sel.value.id, MembersPatch(ms))
    else m
  }

  /** Editing an id no team carries changes nothing. */
  lemma UpdateTeamAbsent(m: WorkflowModel, id: string, p: TeamPatch)
    requires forall t :: t in m.teams ==> t.id != id
    ensures UpdateTeam(m, id, p) == m
  {
    assert UpdateTeam(m, id, p).teams == m.teams;
  }

  lemma UpdateWorkAbsent(m: WorkflowModel, id: string, p: WorkPatch)
    requires forall w :: w in m.workItems ==> w.id != id
    ensures UpdateWork(m, id, p) == m
  {
    assert UpdateWork(m, id, p).workItems == m.workItems;
  }

  lemma UpdateRitualAbsent(m: WorkflowModel, id: string, p: RitualPatch)
    requires forall x :: x in m.rituals ==> x.id != id
    ensures UpdateRitual(m, id, p) == m
  {
    assert UpdateRitual(m, id, p).rituals == m.rituals;
  }

  // ---------------------------------------------------------------------
  // Cascading delete

  function OtherTeam(id: string): Team -> bool {
    (t: Team) => t.id != id
  }

  function OtherWork(id: string): WorkItem -> bool {
    (w: WorkItem) => w.id != id
  }

  function OtherRitual(id: string): Ritual -> bool {
    (x: Ritual) => x.id != id
  }

  /** A connection with neither end at `id`. */
  function Untouched(id: string): Connection -> bool {
    (c: Connection) => c.from != id && c.to != id
  }

  /** `deleteItem`'s model update for selection `sel`: the entities with
      the selected id leave the selected kind's list, the other two lists
      stay, and every connection with an end at that id goes. What remains
      keeps its order and every element that does not carry the id. */
  function DeleteSelected(m: WorkflowModel, sel: Selection): (r: WorkflowModel)
    ensures r.levels == m.levels
    ensures sel.kind != TeamKind ==> r.teams == m.teams
    ensures sel.kind != WorkKind ==> r.workItems == m.workItems
    ensures sel.kind != RitualKind ==> r.rituals == m.rituals
    ensures Seqs.IsSubsequence(r.teams, m.teams) && Seqs.IsSubsequence(r.workItems, m.workItems)
    ensures Seqs.IsSubsequence(r.rituals, m.rituals) && Seqs.IsSubsequence(r.connections, m.connections)
    ensures sel.kind == TeamKind ==> forall t :: multiset(r.teams)[t] == if t.id == sel.id then 0 else multiset(m.teams)[t]
    ensures sel.kind == WorkKind ==> forall w :: multiset(r.workItems)[w] == if w.id == sel.id then 0 else multiset(m.workItems)[w]
    ensures sel.kind == RitualKind ==> forall x :: multiset(r.rituals)[x] == if x.id == sel.id then 0 else multiset(m.rituals)[x]
    ensures forall c :: multiset(r.connections)[c] == if Untouched(sel.id)(c) then multiset(m.connections)[c] else 0
    ensures forall c :: c in r.connections ==> c.from != sel.id && c.to != sel.id
  {
    var links := Seqs.Filter(m.connections, Untouched(sel.id));
    match sel.kind
    case TeamKind =>
      Seqs.SubsequenceReflexive(m.workItems);
      Seqs.SubsequenceReflexive(m.rituals);
      m.(teams := Seqs.Filter(m.teams, OtherTeam(sel.id)), connections := links)
    case WorkKind =>
      Seqs.SubsequenceReflexive(m.teams);
      Seqs.SubsequenceReflexive(m.rituals);
      m.(workItems := Seqs.Filter(m.workItems, OtherWork(sel.id)), connections := links)
    case RitualKind =>
      Seqs.SubsequenceReflexive(m.teams);
      Seqs.SubsequenceReflexive(m.workItems);
      m.(rituals := Seqs.Filter(m.rituals, OtherRitual(sel.id)), connections := links)
  }

  /** Deleting the same selection again changes nothing more. */
  lemma DeleteIdempotent(m: WorkflowModel, sel: Selection)
    ensures DeleteSelected(DeleteSelected(m, sel), sel) == DeleteSelected(m, sel)
  {
    Seqs.FilterIdempotent(m.teams, OtherTeam(sel.id));
    Seqs.FilterIdempotent(m.workItems, OtherWork(sel.id));
    Seqs.FilterIdempotent(m.rituals, OtherRitual(sel.id));
    Seqs.FilterIdempotent(m.connections, Untouched(sel.id));
  }

  /** After a delete the inspector finds no link into or out of the
      deleted id. */
  lemma DeleteLeavesNoLinks(m: WorkflowModel, sel: Selection)
    ensures GetConnections(DeleteSelected(m, sel), sel.id) == ConnectionSplit([], [])
  {
    var rest := DeleteSelected(m, sel).connections;
    Seqs.FilterKeepsNone(rest, Into(sel.id));
    Seqs.FilterKeepsNone(rest, OutOf(sel.id));
  }

  /** Deleting an id that appears nowhere leaves the model as it was. */
  lemma DeleteAbsent(m: WorkflowModel, sel: Selection)
    requires IdFree(m, sel.id)
    ensures DeleteSelected(m, sel) == m
  {
    Seqs.FilterKeepsAll(m.teams, OtherTeam(sel.id));
    Seqs.FilterKeepsAll(m.workItems, OtherWork(sel.id));
    Seqs.FilterKeepsAll(m.rituals, OtherRitual(sel.id));
    Seqs.FilterKeepsAll(m.connections, Untouched(sel.id));
  }

  // ---------------------------------------------------------------------
  // Undirected connection toggle

  /** `c` joins `a` and `b`, in either direction. */
  predicate Links(c: Connection, a: string, b: string) {
    (c.from == a && c.to == b) || (c.from == b && c.to == a)
  }

  /** `isConnected` (App.tsx:417): some connection joins `a` and `b`. */
  predicate IsConnected(cs: seq<Connection>, a: string, b: string) {
    exists c :: c in cs && Links(c, a, b)
  }

  /** The `findIndex` in `toggleConnection`: the lowest index of a
      connection joining `a` and `b`, or -1 when they are not connected. */
  function FindLink(cs: seq<Connection>, a: string, b: string): (k: int)
    ensures -1 <= k < |cs|
    ensures k >= 0 ==> Links(cs[k], a, b) && forall j :: 0 <= j < k ==> !Links(cs[j], a, b)
    ensures k == -1 <==> !IsConnected(cs, a, b)
  {
    var k := Seqs.FindIndex(cs, (c: Connection) => Links(c, a, b));
    assert k >= 0 ==> cs[k] in cs;
    k
  }

  /** The connection a toggle adds: `{ id: c-<now>, from, to, style: 'solid', label: 'Link' }`. */
  function NewLink(a: string, b: string, now: nat): Connection {
    Connection(Ids.Stamped("c", now), a, b, Some("Link"), Solid, None)
  }

  /** `toggleConnection(a, b)`: when a connection joins `a` and `b` in either
      direction, the first one goes and the rest keep their order; otherwise
      one new link from `a` to `b` is appended. Entities never change. */
  function Toggle(m: WorkflowModel, a: string, b: string, now: nat): (r: WorkflowModel)
    ensures r.levels == m.levels && r.teams == m.teams
    ensures r.workItems == m.workItems && r.rituals == m.rituals
    ensures IsConnected(m.connections, a, b) ==>
      && |r.connections| == |m.connections| - 1
      && var k := FindLink(m.connections, a, b);
         && (forall i :: 0 <= i < k ==> r.connections[i] == m.connections[i])
         && (forall i :: k <= i < |r.connections| ==> r.connections[i] == m.connections[i + 1])
    ensures !IsConnected(m.connections, a, b) ==> r.connections == m.connections + [NewLink(a, b, now)]
  {
    var k := FindLink(m.connections, a, b);
    if k > -1 then m.(connections := Seqs.RemoveAt(m.connections, k))
    else m.(connections := m.connections + [NewLink(a, b, now)])
  }

  /** `isConnected` does not care about direction. */
  lemma ConnectedSymmetric(cs: seq<Connection>, a: string, b: string)
    ensures IsConnected(cs, a, b) == IsConnected(cs, b, a)
  {
    if IsConnected(cs, a, b) {
      var c :| c in cs && Links(c, a, b);
      assert Links(c, b, a);
    }
    if IsConnected(cs, b, a) {
      var c :| c in cs && Links(c, b, a);
      assert Links(c, a, b);
    }
  }

  /** Toggling an unconnected pair twice, in either order and at any two
      times, gives back the original model. */
  lemma ToggleTwiceRestores(m: WorkflowModel, a: string, b: string, now1: nat, now2: nat)
    requires !IsConnected(m.connections, a, b)
    ensures Toggle(Toggle(m, a, b, now1), a, b, now2) == m
    ensures Toggle(Toggle(m, a, b, now1), b, a, now2) == m
  {
    var link := NewLink(a, b, now1);
    var once := Toggle(m, a, b, now1);
    var cs := m.connections;
    assert once.connections == cs + [link];
    assert once.connections[|cs|] == link;
    ConnectedSymmetric(cs, a, b);
    assert FindLink(once.connections, a, b) == |cs|;
    assert FindLink(once.connections, b, a) == |cs|;
    assert Seqs.RemoveAt(once.connections, |cs|) == cs;
  }

  /** Which way round a connected pair is toggled does not matter. */
  lemma ToggleConnectedEitherWay(m: WorkflowModel, a: string, b: string, now1: nat, now2: nat)
    requires IsConnected(m.connections, a, b)
    ensures Toggle(m, a, b, now1) == Toggle(m, b, a, now2)
  {
    ConnectedSymmetric(m.connections, a, b);
    var k1, k2 := FindLink(m.connections, a, b), FindLink(m.connections, b, a);
    assert Links(m.connections[k1], b, a) && Links(m.connections[k2], a, b);
    assert k1 == k2;
  }

  /** No two connections join the same pair of entities. */
  predicate NoDuplicateLinks(cs: seq<Connection>) {
    forall i, j :: 0 <= i < j < |cs| ==> !Links(cs[j], cs[i].from, cs[i].to)
  }

  /** Leaving connections out keeps the pairs distinct. */
  lemma {:induction false} NoDuplicatesSubsequence(a: seq<Connection>, b: seq<Connection>)
    requires Seqs.IsSubsequence(a, b) && NoDuplicateLinks(b)
    ensures NoDuplicateLinks(a)
  {
    if a != [] {
      assert NoDuplicateLinks(b[1..]) by {
        forall i, j | 0 <= i < j < |b| - 1
          ensures !Links(b[1..][j], b[1..][i].from, b[1..][i].to)
        {
          assert b[1..][j] == b[j + 1] && b[1..][i] == b[i + 1];
        }
      }
      if a[0] == b[0] && Seqs.IsSubsequence(a[1..], b[1..]) {
        NoDuplicatesSubsequence(a[1..], b[1..]);
        forall i, j | 0 <= i < j < |a| ensures !Links(a[j], a[i].from, a[i].to) {
          if i > 0 {
            assert a[1..][j - 1] == a[j] && a[1..][i - 1] == a[i];
          } else {
            assert a[j] in a[1..] by { assert a[1..][j - 1] == a[j]; }
            Seqs.SubsequenceMembers(a[1..], b[1..], a[j]);
            var jj :| 0 <= jj < |b| - 1 && b[1..][jj] == a[j];
            assert b[jj + 1] == a[j];
          }
        }
      } else {
        NoDuplicatesSubsequence(a, b[1..]);
      }
    }
  }

  /** With distinct pairs a toggle really toggles: the pair is connected
      afterwards exactly when it was not before. */
  lemma ToggleFlips(m: WorkflowModel, a: string, b: string, now: nat)
    requires NoDuplicateLinks(m.connections)
    ensures IsConnected(Toggle(m, a, b, now).connections, a, b) == !IsConnected(m.connections, a, b)
  {
    var cs := m.connections;
    var r := Toggle(m, a, b, now).connections;
    if IsConnected(cs, a, b) {
      var k := FindLink(cs, a, b);
      forall c | c in r ensures !Links(c, a, b) {
        var i :| 0 <= i < |r| && r[i] == c;
        if i >= k {
          assert r[i] == cs[i + 1];
          assert !Links(cs[i + 1], cs[k].from, cs[k].to);
        }
      }
    } else {
      assert r[|cs|] == NewLink(a, b, now);
      assert r[|cs|] in r;
    }
  }

  /** A toggle never makes two connections join the same pair. */
  lemma ToggleKeepsLinksDistinct(m: WorkflowModel, a: string, b: string, now: nat)
    requires NoDuplicateLinks(m.connections)
    ensures NoDuplicateLinks(Toggle(m, a, b, now).connections)
  {
    var cs := m.connections;
    var r := Toggle(m, a, b, now).connections;
    if IsConnected(cs, a, b) {
      Seqs.RemoveAtSubsequence(cs, FindLink(cs, a, b));
      NoDuplicatesSubsequence(r, cs);
    } else {
      forall i, j | 0 <= i < j < |r| ensures !Links(r[j], r[i].from, r[i].to) {
        if j == |cs| {
          assert r[i] == cs[i] && cs[i] in cs;
          assert !Links(cs[i], a, b);
        }
      }
    }
  }

  /** A delete never makes two connections join the same pair. */
  lemma DeleteKeepsLinksDistinct(m: WorkflowModel, sel: Selection)
    requires NoDuplicateLinks(m.connections)
    ensures NoDuplicateLinks(DeleteSelected(m, sel).connections)
  {
    NoDuplicatesSubsequence(DeleteSelected(m, sel).connections, m.connections);
  }

  // ---------------------------------------------------------------------
  // Creation

  /** `{ id, name: 'New Team', members: [], level }`. */
  function NewTeam(id: string, level: LevelId): Team {
    Team(id, "New Team", [], level, None, None)
  }

  /** `{ id, title: 'New <type>', type, level }`. */
  function NewWork(id: string, level: LevelId, workType: WorkItemType): WorkItem {
    WorkItem(id, "New " + TypeName(workType), workType, level, None, None, None, None)
  }

  /** `{ id, title: 'New Ritual', level, participants: [], agendaItems: [], ritualFrequency: 'Weekly' }`. */
  function NewRitual(id: string, level: LevelId): Ritual {
    Ritual(id, "New Ritual", level, None, [], [], "Weekly", None)
  }

  /** The id `addNewItem` mints: `${type}-${Date.now()}`. */
  function NewItemId(kind: EntityKind, now: nat): string {
    Ids.Stamped(KindName(kind), now)
  }

  /** Ids minted for different kinds or at different clock readings differ,
      and none of them is ever a connection id `c-<now>`. */
  lemma NewItemIdsDistinct(k1: EntityKind, a: nat, k2: EntityKind, b: nat)
    ensures NewItemId(k1, a) == NewItemId(k2, b) <==> k1 == k2 && a == b
    ensures NewItemId(k1, a) != Ids.Stamped("c", b)
  {
    Ids.StampedInjective(KindName(k1), a, KindName(k2), b);
    Ids.StampedInjective(KindName(k1), a, "c", b);
  }

  /** `addNewItem`'s model update: one new entity of the given kind at the
      end of its list; every other list unchanged. */
  function AddItem(m: WorkflowModel, kind: EntityKind, level: LevelId, workType: WorkItemType, id: string): (r: WorkflowModel)
    ensures r.levels == m.levels && r.connections == m.connections
    ensures r.teams == if kind == TeamKind then m.teams + [NewTeam(id, level)] else m.teams
    ensures r.workItems == if kind == WorkKind then m.workItems + [NewWork(id, level, workType)] else m.workItems
    ensures r.rituals == if kind == RitualKind then m.rituals + [NewRitual(id, level)] else m.rituals
  {
    match kind
    case TeamKind => m.(teams := m.teams + [NewTeam(id, level)])
    case WorkKind => m.(workItems := m.workItems + [NewWork(id, level, workType)])
    case RitualKind => m.(rituals := m.rituals + [NewRitual(id, level)])
  }

  /** The name a new entity is shown with. */
  function DefaultName(kind: EntityKind, workType: WorkItemType): string {
    match kind
    case TeamKind => "New Team"
    case WorkKind => "New " + TypeName(workType)
    case RitualKind => "New Ritual"
  }

  /** A new team with a fresh id is found by its id and named "New Team". */
  lemma AddTeamSelectable(m: WorkflowModel, level: LevelId, workType: WorkItemType, id: string)
    requires IdFree(m, id)
    ensures FindTeam(AddItem(m, TeamKind, level, workType, id).teams, id) == Some(NewTeam(id, level))
    ensures GetEntityName(AddItem(m, TeamKind, level, workType, id), id) == "New Team"
  {
    Seqs.FindAppend(m.teams, NewTeam(id, level), TeamIs(id));
  }

  /** A new work item with a fresh id is found by its id and named "New <type>". */
  lemma AddWorkSelectable(m: WorkflowModel, level: LevelId, workType: WorkItemType, id: string)
    requires IdFree(m, id)
    ensures FindWork(AddItem(m, WorkKind, level, workType, id).workItems, id) == Some(NewWork(id, level, workType))
    ensures GetEntityName(AddItem(m, WorkKind, level, workType, id), id) == "New " + TypeName(workType)
  {
    var r := AddItem(m, WorkKind, level, workType, id);
    Seqs.FindAppend(m.workItems, NewWork(id, level, workType), WorkIs(id));
    assert FindTeam(r.teams, id) == None;
  }

  /** A new ritual with a fresh id is found by its id and named "New Ritual". */
  lemma AddRitualSelectable(m: WorkflowModel, level: LevelId, workType: WorkItemType, id: string)
    requires IdFree(m, id)
    ensures FindRitual(AddItem(m, RitualKind, level, workType, id).rituals, id) == Some(NewRitual(id, level))
    ensures GetEntityName(AddItem(m, RitualKind, level, workType, id), id) == "New Ritual"
  {
    var r := AddItem(m, RitualKind, level, workType, id);
    Seqs.FindAppend(m.rituals, NewRitual(id, level), RitualIs(id));
    assert FindTeam(r.teams, id) == None && FindWork(r.workItems, id) == None;
  }

  /** With a fresh id, the selection `addNewItem` sets finds the new entity,
      and the entity is listed under its default name. */
  lemma AddItemSelectable(m: WorkflowModel, kind: EntityKind, level: LevelId, workType: WorkItemType, id: string)
    requires IdFree(m, id)
    ensures var r := AddItem(m, kind, level, workType, id);
      && var sel := Some(Selection(kind, id));
      && (kind == TeamKind ==> SelectedTeam(r, sel) == Some(NewTeam(id, level)))
      && (kind == WorkKind ==> SelectedWork(r, sel) == Some(NewWork(id, level, workType)))
      && (kind == RitualKind ==> SelectedRitual(r, sel) == Some(NewRitual(id, level)))
      && GetEntityName(r, id) == DefaultName(kind, workType)
  {
    match kind
    case TeamKind => AddTeamSelectable(m, level, workType, id);
    case WorkKind => AddWorkSelectable(m, level, workType, id);
    case RitualKind => AddRitualSelectable(m, level, workType, id);
  }

  /** Adding an entity with a fresh id keeps the pairs distinct. */
  lemma AddItemKeepsLinksDistinct(m: WorkflowModel, kind: EntityKind, level: LevelId, workType: WorkItemType, id: string)
    requires NoDuplicateLinks(m.connections)
    ensures NoDuplicateLinks(AddItem(m, kind, level, workType, id).connections)
  {
  }

  /** Spawning derives the work type from the level: strategic gives an
      initiative, portfolio an epic, team a story; never an input. */
  function SpawnType(level: LevelId): (t: WorkItemType)
    ensures t != Input
    ensures (t == Initiative <==> level == StrategicLevel) && (t == Epic <==> level == PortfolioLevel)
    ensures t == Story <==> level == TeamLevel
  {
    match level
    case StrategicLevel => Initiative
    case PortfolioLevel => Epic
    case TeamLevel => Story
  }

  /** The work item `spawnFromInput` creates. */
  function DerivedWork(level: LevelId, now: nat): WorkItem {
    WorkItem(Ids.Stamped("work", now), "Derived from Input", SpawnType(level), level, None, None, None, None)
  }

  /** The connection `spawnFromInput` creates, from the input to the new item. */
  function DerivationLink(inputId: string, now: nat): Connection {
    Connection(Ids.Stamped("c", now), inputId, Ids.Stamped("work", now), Some("Derived from"), Solid, None)
  }

  /** `spawnFromInput`'s model update: one derived work item and one link to
      it from the input, each appended; teams and rituals unchanged. */
  function Spawn(m: WorkflowModel, inputId: string, level: LevelId, now: nat): (r: WorkflowModel)
    ensures r.levels == m.levels && r.teams == m.teams && r.rituals == m.rituals
    ensures r.workItems == m.workItems + [DerivedWork(level, now)]
    ensures r.connections == m.connections + [DerivationLink(inputId, now)]
    ensures r.workItems[|m.workItems|].workType == SpawnType(level)
    ensures r.connections[|m.connections|].to == r.workItems[|m.workItems|].id
  {
    m.(workItems := m.workItems + [DerivedWork(level, now)],
       connections := m.connections + [DerivationLink(inputId, now)])
  }

  /** The input's downstream list (the "Spawning n" badge) grows by exactly
      the new link, at its end. */
  lemma SpawnGrowsDownstream(m: WorkflowModel, inputId: string, level: LevelId, now: nat)
    ensures GetConnections(Spawn(m, inputId, level, now), inputId).downstream
         == GetConnections(m, inputId).downstream + [DerivationLink(inputId, now)]
    ensures GetConnections(Spawn(m, inputId, level, now), inputId).upstream
         == GetConnections(m, inputId).upstream + (if inputId == Ids.Stamped("work", now) then [DerivationLink(inputId, now)] else [])
  {
    var link := DerivationLink(inputId, now);
    assert Spawn(m, inputId, level, now).connections == m.connections + [link];
    Seqs.FilterConcat(m.connections, [link], OutOf(inputId));
    Seqs.FilterConcat(m.connections, [link], Into(inputId));
    Seqs.FilterSingleton(link, OutOf(inputId));
    Seqs.FilterSingleton(link, Into(inputId));
  }

  /** With a fresh id the new work item is selectable and is shown as
      "Derived from Input". */
  lemma SpawnSelectable(m: WorkflowModel, inputId: string, level: LevelId, now: nat)
    requires IdFree(m, Ids.Stamped("work", now))
    ensures var r := Spawn(m, inputId, level, now);
      var id := Ids.Stamped("work", now);
      && SelectedWork(r, Some(Selection(WorkKind, id))) == Some(DerivedWork(level, now))
      && GetEntityName(r, id) == "Derived from Input"
  {
    var id := Ids.Stamped("work", now);
    var r := Spawn(m, inputId, level, now);
    Seqs.FindAppend(m.workItems, DerivedWork(level, now), WorkIs(id));
    assert FindTeam(r.teams, id) == None;
  }

  /** With a fresh id the new work item's only upstream link is the one
      from the input. */
  lemma SpawnLinksNewItem(m: WorkflowModel, inputId: string, level: LevelId, now: nat)
    requires IdFree(m, Ids.Stamped("work", now))
    ensures var id := Ids.Stamped("work", now);
      GetConnections(Spawn(m, inputId, level, now), id).upstream == [DerivationLink(inputId, now)]
  {
    var id := Ids.Stamped("work", now);
    var link := DerivationLink(inputId, now);
    assert Spawn(m, inputId, level, now).connections == m.connections + [link];
    Seqs.FilterConcat(m.connections, [link], Into(id));
    Seqs.FilterSingleton(link, Into(id));
    Seqs.FilterKeepsNone(m.connections, Into(id));
  }

  /** Spawning with a fresh id keeps the pairs distinct. */
  lemma SpawnKeepsLinksDistinct(m: WorkflowModel, inputId: string, level: LevelId, now: nat)
    requires NoDuplicateLinks(m.connections)
    requires IdFree(m, Ids.Stamped("work", now))
    ensures NoDuplicateLinks(Spawn(m, inputId, level, now).connections)
  {
    var cs := m.connections;
    var r := Spawn(m, inputId, level, now).connections;
    forall i, j | 0 <= i < j < |r| ensures !Links(r[j], r[i].from, r[i].to) {
      if j == |cs| {
        assert r[i] == cs[i] && cs[i] in cs;
      }
    }
  }
}
