/** The editor component (App.tsx): two state cells, the model and the
    selection, and the handlers that replace them. Each handler is one
    atomic transition; the model updates are the functions of `Workflow`. */
module App {
  import opened Optional
  import opened Types
  import Ids
  import Members
  import Workflow

  class Editor {
    var model: WorkflowModel
    var selection: Option<Workflow.Selection>

    /** The state the editor starts in: the seed model, nothing selected. */
    constructor (initial: WorkflowModel)
      ensures model == initial && selection == None
    {
      model := initial;
      selection := None;
    }

    /** The invariant the handlers keep: no two connections join the same
        pair of entities, so the inspector's link buttons toggle. */
    predicate LinksDistinct()
      reads this
    {
      Workflow.NoDuplicateLinks(model.connections)
    }

    /** A card's click handler: `setSelection({ type, id })`. */
    method Select(kind: Workflow.EntityKind, id: string)
      modifies this
      ensures selection == Some(Workflow.Selection(kind, id))
      ensures model == old(model)
      ensures old(LinksDistinct()) ==> LinksDistinct()
    {
      selection := Some(Workflow.Selection(kind, id));
    }

    /** `updateTeam(id, updates)`. */
    method UpdateTeam(id: string, p: TeamPatch)
      modifies this
      ensures model == Workflow.UpdateTeam(old(model), id, p)
      ensures selection == old(selection)
      ensures old(LinksDistinct()) ==> LinksDistinct()
    {
      model := Workflow.UpdateTeam(model, id, p);
    }

    /** `updateWork(id, updates)`. */
    method UpdateWork(id: string, p: WorkPatch)
      modifies this
      ensures model == Workflow.UpdateWork(old(model), id, p)
      ensures selection == old(selection)
      ensures old(LinksDistinct()) ==> LinksDistinct()
    {
      model := Workflow.UpdateWork(model, id, p);
    }

    /** `updateRitual(id, updates)`. */
    method UpdateRitual(id: string, p: RitualPatch)
      modifies this
      ensures model == Workflow.UpdateRitual(old(model), id, p)
      ensures selection == old(selection)
      ensures old(LinksDistinct()) ==> LinksDistinct()
    {
      model := Workflow.UpdateRitual(model, id, p);
    }

    /** The members field's change handler (shown only while a team is
        selected): the field is parsed, then the selected team gets the
        parsed list as its members. */
    method EditMembers(text: string)
      modifies this
      ensures model == Workflow.SetSelectedMembers(old(model), selection, Members.ParseMembers(text))
      ensures selection == old(selection)
      ensures old(LinksDistinct()) ==> LinksDistinct()
    {
      var ms := Members.ParseMembers(text);
      SetMembers(ms);
    }

    /** `updateTeam(selectedTeam.id, { members })`: the selected team, if
        any, gets `ms` as its members. Connections are untouched, so the
        links stay distinct. */
    method SetMembers(ms: seq<string>)
      modifies this
      ensures model == Workflow.SetSelectedMembers(old(model), selection, ms)
      ensures selection == old(selection)
      ensures old(LinksDistinct()) ==> LinksDistinct()
    {
      model := Workflow.SetSelectedMembers(model, selection, ms);
    }

    /** `deleteItem`: with nothing selected, nothing happens. Otherwise the
        selected entity and every connection touching its id go, and the
        selection is cleared. */
    method DeleteItem()
      modifies this
      ensures old(selection).None? ==> model == old(model) && selection == old(selection)
      ensures old(selection).Some? ==> model == Workflow.DeleteSelected(old(model), old(selection).value)
      ensures old(selection).Some? ==> selection == None
      ensures old(selection).Some? ==>
        forall c :: c in model.connections ==> c.from != old(selection).value.id && c.to != old(selection).value.id
      ensures old(LinksDistinct()) ==> LinksDistinct()
    {
      if selection.None? {
        return;
      }
      if LinksDistinct() {
        Workflow.DeleteKeepsLinksDistinct(model, selection.value);
      }
      model := Workflow.DeleteSelected(model, selection.value);
      selection := None;
    }

    /** `toggleConnection(fromId, toId)` at clock reading `now`. */
    method ToggleConnection(fromId: string, toId: string, now: nat)
      modifies this
      ensures model == Workflow.Toggle(old(model), fromId, toId, now)
      ensures selection == old(selection)
      ensures old(LinksDistinct()) ==> LinksDistinct()
      ensures old(LinksDistinct()) ==>
        Workflow.IsConnected(model.connections, fromId, toId) == !Workflow.IsConnected(old(model).connections, fromId, toId)
    {
      if LinksDistinct() {
        Workflow.ToggleKeepsLinksDistinct(model, fromId, toId, now);
        Workflow.ToggleFlips(model, fromId, toId, now);
      }
      model := Workflow.Toggle(model, fromId, toId, now);
    }

    /** `addNewItem(type, level, workType = 'story')` at clock reading
        `now`: the new entity is appended and selected. */
    method AddNewItem(kind: Workflow.EntityKind, level: LevelId, workType: WorkItemType := Story, now: nat)
      requires Workflow.IdFree(model, Workflow.NewItemId(kind, now))
      modifies this
      ensures model == Workflow.AddItem(old(model), kind, level, workType, Workflow.NewItemId(kind, now))
      ensures selection == Some(Workflow.Selection(kind, Workflow.NewItemId(kind, now)))
      ensures kind == Workflow.TeamKind ==> Workflow.SelectedTeam(model, selection) == Some(Workflow.NewTeam(selection.value.id, level))
      ensures kind == Workflow.WorkKind ==> Workflow.SelectedWork(model, selection) == Some(Workflow.NewWork(selection.value.id, level, workType))
      ensures kind == Workflow.RitualKind ==> Workflow.SelectedRitual(model, selection) == Some(Workflow.NewRitual(selection.value.id, level))
      ensures old(LinksDistinct()) ==> LinksDistinct()
    {
      var id := Workflow.NewItemId(kind, now);
      Workflow.AddItemSelectable(model, kind, level, workType, id);
      model := Workflow.AddItem(model, kind, level, workType, id);
      selection := Some(Workflow.Selection(kind, id));
    }

    /** `spawnFromInput(inputId, level)` at clock reading `now`: a work item
        of the level's type is appended, linked from the input, and selected. */
    method SpawnFromInput(inputId: string, level: LevelId, now: nat)
      requires Workflow.IdFree(model, Ids.Stamped("work", now))
      modifies this
      ensures model == Workflow.Spawn(old(model), inputId, level, now)
      ensures selection == Some(Workflow.Selection(Workflow.WorkKind, Ids.Stamped("work", now)))
      ensures Workflow.SelectedWork(model, selection) == Some(Workflow.DerivedWork(level, now))
      ensures Workflow.SelectedWork(model, selection).value.workType == Workflow.SpawnType(level)
      ensures old(LinksDistinct()) ==> LinksDistinct()
    {
      Workflow.SpawnSelectable(model, inputId, level, now);
      if LinksDistinct() {
        Workflow.SpawnKeepsLinksDistinct(model, inputId, level, now);
      }
      model := Workflow.Spawn(model, inputId, level, now);
      selection := Some(Workflow.Selection(Workflow.WorkKind, Ids.Stamped("work", now)));
    }
  }
}
