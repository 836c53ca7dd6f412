/** `src/commands/shared/workspace.js`: choosing the workspace to list resources from. */
module WorkspacePicker {
  import opened Wrappers
  import opened Api
  import opened Selection

  /** `pickWorkspace(apiKey)` given the reply of `getWorkspaces(apiKey)` and the answer to the
      `select` (asked only for several workspaces, one option per workspace labelled by its
      identifier): the id of the chosen workspace. */
  function PickWorkspace(workspaces: Option<seq<Workspace>>, choice: Answer<nat>): (r: Pick<string>)
    requires ValidChoice(workspaces, choice)
    ensures r == Aborted([]) <==> workspaces.None? || workspaces.value == []
    ensures workspaces.Some? && |workspaces.value| == 1 ==> r == Chosen(workspaces.value[0].id, [])
    ensures workspaces.Some? && |workspaces.value| > 1 ==>
      |r.menus| == 1 && |r.menus[0]| == |workspaces.value| &&
      (forall i :: 0 <= i < |workspaces.value| ==> r.menus[0][i] == workspaces.value[i].identifier) &&
      (r.Aborted? <==> choice.Cancelled?) &&
      (r.Chosen? ==> r.item == workspaces.value[choice.value].id)
    ensures r.Chosen? ==> exists w :: w in workspaces.value && w.id == r.item
  {
    match SelectOne(workspaces, (w: Workspace) => w.identifier, choice)
    case Chosen(w, menus) => Chosen(w.id, menus)
    case Aborted(menus) => Aborted(menus)
  }
}
