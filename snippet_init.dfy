/** `src/commands/snippet/init.js`: the snippet-specific parts of `pdfmonkey snippet init`:
    the one folder proposed for it and how the snippet is found (by id, or by picking a
    workspace and then a snippet). `getSnippet` and `getSnippets` are oracles. */
module SnippetInit {
  import opened Wrappers
  import opened Text
  import opened Api
  import opened Selection
  import opened WorkspacePicker

  /** `pathCandidates(currentDir, snippet)`: only the folder named after the snippet. */
  function PathCandidates(cwd: string, snippet: Snippet): (r: seq<string>)
    ensures |r| == 1 && StartsWith(r[0], cwd + "/")
    ensures r[0][|cwd| + 1..] == snippet.sanitized_identifier
  {
    [PathJoin(cwd, snippet.sanitized_identifier)]
  }

  /** `pickSnippet(workspaceId, apiKey)` given the reply of `getSnippets`: one option per
      snippet, labelled by its display name. */
  function PickSnippet(snippets: Option<seq<Snippet>>, choice: Answer<nat>): (r: Pick<Snippet>)
    requires ValidChoice(snippets, choice)
    ensures r == Aborted([]) <==> snippets.None? || snippets.value == []
    ensures snippets.Some? && |snippets.value| == 1 ==> r == Chosen(snippets.value[0], [])
    ensures snippets.Some? && |snippets.value| > 1 ==>
      |r.menus| == 1 && |r.menus[0]| == |snippets.value| &&
      (forall i :: 0 <= i < |snippets.value| ==> r.menus[0][i] == snippets.value[i].display_name) &&
      (r.Aborted? <==> choice.Cancelled?) &&
      (r.Chosen? ==> r.item == snippets.value[choice.value])
    ensures r.Chosen? ==> snippets.Some? && r.item in snippets.value
  {
    SelectOne(snippets, (s: Snippet) => s.display_name, choice)
  }

  /** The answers given are answers to the questions asked. */
  predicate SelectionAnswers(workspaces: Option<seq<Workspace>>, workspaceChoice: Answer<nat>,
                             getSnippets: string -> Option<seq<Snippet>>, snippetChoice: Answer<nat>) {
    ValidChoice(workspaces, workspaceChoice) &&
    (PickWorkspace(workspaces, workspaceChoice).Chosen? ==>
       ValidChoice(getSnippets(PickWorkspace(workspaces, workspaceChoice).item), snippetChoice))
  }

  /** `runSnippetSelection(apiKey)`: a workspace, then a snippet of that workspace. Cancelling
      either pick cancels; the snippet picked is listed in the workspace picked. */
  function RunSnippetSelection(workspaces: Option<seq<Workspace>>, workspaceChoice: Answer<nat>,
                               getSnippets: string -> Option<seq<Snippet>>,
                               snippetChoice: Answer<nat>): (r: Pick<Snippet>)
    requires SelectionAnswers(workspaces, workspaceChoice, getSnippets, snippetChoice)
    ensures PickWorkspace(workspaces, workspaceChoice).Aborted? ==>
      r == Aborted(PickWorkspace(workspaces, workspaceChoice).menus)
    ensures r.Chosen? ==>
      exists w :: w in workspaces.value && getSnippets(w.id).Some? && r.item in getSnippets(w.id).value
    ensures |r.menus| <= 2
  {
    match PickWorkspace(workspaces, workspaceChoice)
    case Aborted(menus) => Aborted(menus)
    case Chosen(workspaceId, menus) =>
      match PickSnippet(getSnippets(workspaceId), snippetChoice)
      case Aborted(more) => Aborted(menus + more)
      case Chosen(snippet, more) => Chosen(snippet, menus + more)
  }

  /** `fetchSnippet(snippetId, apiKey)`: `getSnippet` exactly when an id is given (its `null`
      passes through), the interactive selection otherwise, which never yields `null`. */
  function FetchSnippet(snippetId: Option<string>, getSnippet: string -> Option<Snippet>,
                        workspaces: Option<seq<Workspace>>, workspaceChoice: Answer<nat>,
                        getSnippets: string -> Option<seq<Snippet>>,
                        snippetChoice: Answer<nat>): (r: Pick<Option<Snippet>>)
    requires !Truthy(snippetId) ==> SelectionAnswers(workspaces, workspaceChoice, getSnippets, snippetChoice)
    ensures Truthy(snippetId) ==> r == Chosen(getSnippet(snippetId.value), [])
    ensures !Truthy(snippetId) ==>
      var s := RunSnippetSelection(workspaces, workspaceChoice, getSnippets, snippetChoice);
      r.menus == s.menus && (r.Chosen? <==> s.Chosen?) && (r.Chosen? ==> r.item == Some(s.item))
    ensures r.Chosen? && r.item.None? ==> Truthy(snippetId)
  {
    if Truthy(snippetId) then Chosen(getSnippet(snippetId.value), [])
    else
      match RunSnippetSelection(workspaces, workspaceChoice, getSnippets, snippetChoice)
      case Aborted(menus) => Aborted(menus)
      case Chosen(snippet, menus) => Chosen(Some(snippet), menus)
  }
}
