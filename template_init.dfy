/** `src/commands/template/init.js`: the template-specific parts of `pdfmonkey template init`:
    where the folder may go, how the template is found (by id, or by picking a workspace and
    then a template), what is written, and the `template watch` command for the folder. */
module TemplateInit {
  import opened Wrappers
  import opened Text
  import opened Api
  import opened Selection
  import opened WorkspacePicker
  import opened Pdfmonkey
  import opened Files
  import TemplateWatch

  /** `pathCandidates(currentDir, templateCard)`: the folder named after the template; when the
      template sits in a folder (a truthy `sanitized_folder_identifier`), then `folder/id` and
      `folder/identifier` inside that folder. */
  function PathCandidates(cwd: string, card: TemplateCard): (r: seq<string>)
    ensures |r| == if Truthy(card.sanitized_folder_identifier) then 3 else 1
    ensures r[0] == PathJoin(cwd, card.sanitized_identifier)
    ensures |r| == 3 ==>
      var folder := PathJoin(cwd, card.sanitized_folder_identifier.value);
      r[1] == PathJoin(folder, card.id) && r[2] == PathJoin(folder, card.sanitized_identifier)
    ensures forall i :: 0 <= i < |r| ==> StartsWith(r[i], cwd + "/")
  {
    var first := [PathJoin(cwd, card.sanitized_identifier)];
    if Truthy(card.sanitized_folder_identifier) then
      var folder := PathJoin(cwd, card.sanitized_folder_identifier.value);
      first + [PathJoin(folder, card.id), PathJoin(folder, card.sanitized_identifier)]
    else first
  }

  const WatchBase: seq<string> := ["pdfmonkey", "template", "watch"]

  /** `watchCommand(path, templateId)`: the path is given unless it is the current folder, and
      `-t id` unless the folder's base name already is the id. */
  function WatchCommand(path: string, templateId: string, cwd: string): (r: seq<string>)
    ensures 3 <= |r| <= 6 && r[..3] == WatchBase
    ensures r == WatchBase + (if path == cwd then [] else [path]) +
                 (if Basename(path) == templateId then [] else ["-t", templateId])
  {
    var templateFolder := Basename(path);
    if path == cwd && templateFolder == templateId then WatchBase
    else if path == cwd then WatchBase + ["-t", templateId]
    else if templateFolder == templateId then WatchBase + [path]
    else WatchBase + [path, "-t", templateId]
  }

  /** An argument the command-line parser takes for an option. */
  predicate IsOption(s: string) {
    |s| > 0 && s[0] == '-'
  }

  /** How the command line reads the arguments after `pdfmonkey template watch`: an optional
      `[path]` (the current folder by default), then `-t <templateId>`; `None` for anything else. */
  function ParseWatchArgs(args: seq<string>, cwd: string): (r: Option<(string, Option<string>)>)
    ensures r.Some? && r.value.1.None? ==> |args| <= 1
  {
    if args == [] then Some((cwd, None))
    else if |args| == 1 then if IsOption(args[0]) then None else Some((args[0], None))
    else if |args| == 2 then if args[0] == "-t" then Some((cwd, Some(args[1]))) else None
    else if |args| == 3 then if !IsOption(args[0]) && args[1] == "-t" then Some((args[0], Some(args[2]))) else None
    else None
  }

  /** `path.basename` and `split("/").pop()` agree on a path without a trailing `/`. */
  lemma BasenameIsLastSegment(path: string)
    requires path == [] || path[|path| - 1] != '/'
    ensures Basename(path) == LastSegment(path)
  {
    assert StripTrailingSlashes(path) == path;
  }

  /** The printed command watches the folder it was printed for and the template it was
      printed for: `template watch` reads back the path, and its default id (the last path
      segment, when `-t` is left out) is the template id. */
  lemma WatchCommandRoundTrip(path: string, templateId: string, cwd: string)
    requires path == cwd || !IsOption(path)
    requires path == [] || path[|path| - 1] != '/'
    ensures var parsed := ParseWatchArgs(WatchCommand(path, templateId, cwd)[3..], cwd);
      parsed.Some? && parsed.value.0 == path &&
      TemplateWatch.DefaultTemplateId(path, parsed.value.1) == templateId
  {
    BasenameIsLastSegment(path);
    var r := WatchCommand(path, templateId, cwd);
    var args := r[3..];
    if path == cwd && Basename(path) == templateId {
      assert args == [];
      assert ParseWatchArgs(args, cwd) == Some((path, None));
    } else if path == cwd {
      assert args == ["-t", templateId];
      assert ParseWatchArgs(args, cwd) == Some((path, Some(templateId)));
    } else if Basename(path) == templateId {
      assert args == [path];
      assert ParseWatchArgs(args, cwd) == Some((path, None));
    } else {
      assert args == [path, "-t", templateId];
      assert |args| == 3 && args[0] == path && args[1] == "-t" && args[2] == templateId;
      assert !IsOption(args[0]);
      assert ParseWatchArgs(args, cwd) == Some((path, Some(templateId)));
    }
  }

  /** `pickTemplate(workspaceId, apiKey)` given the reply of `getTemplateCards`: one option per
      template, labelled by its display name. */
  function PickTemplate(templates: Option<seq<TemplateCard>>, choice: Answer<nat>): (r: Pick<TemplateCard>)
    requires ValidChoice(templates, choice)
    ensures r == Aborted([]) <==> templates.None? || templates.value == []
    ensures templates.Some? && |templates.value| == 1 ==> r == Chosen(templates.value[0], [])
    ensures templates.Some? && |templates.value| > 1 ==>
      |r.menus| == 1 && |r.menus[0]| == |templates.value| &&
      (forall i :: 0 <= i < |templates.value| ==> r.menus[0][i] == templates.value[i].display_name) &&
      (r.Aborted? <==> choice.Cancelled?) &&
      (r.Chosen? ==> r.item == templates.value[choice.value])
    ensures r.Chosen? ==> templates.Some? && r.item in templates.value
  {
    SelectOne(templates, (t: TemplateCard) => t.display_name, choice)
  }

  /** The answers given are answers to the questions asked. */
  predicate SelectionAnswers(workspaces: Option<seq<Workspace>>, workspaceChoice: Answer<nat>,
                             getTemplateCards: string -> Option<seq<TemplateCard>>, templateChoice: Answer<nat>) {
    ValidChoice(workspaces, workspaceChoice) &&
    (PickWorkspace(workspaces, workspaceChoice).Chosen? ==>
       ValidChoice(getTemplateCards(PickWorkspace(workspaces, workspaceChoice).item), templateChoice))
  }

  /** `runTemplateSelection(apiKey)`: a workspace, then a template of that workspace. Cancelling
      either pick cancels; the template picked is listed in the workspace picked. */
  function RunTemplateSelection(workspaces: Option<seq<Workspace>>, workspaceChoice: Answer<nat>,
                                getTemplateCards: string -> Option<seq<TemplateCard>>,
                                templateChoice: Answer<nat>): (r: Pick<TemplateCard>)
    requires SelectionAnswers(workspaces, workspaceChoice, getTemplateCards, templateChoice)
    ensures PickWorkspace(workspaces, workspaceChoice).Aborted? ==>
      r == Aborted(PickWorkspace(workspaces, workspaceChoice).menus)
    ensures r.Chosen? ==>
      exists w :: w in workspaces.value && getTemplateCards(w.id).Some? && r.item in getTemplateCards(w.id).value
    ensures |r.menus| <= 2
  {
    match PickWorkspace(workspaces, workspaceChoice)
    case Aborted(menus) => Aborted(menus)
    case Chosen(workspaceId, menus) =>
      match PickTemplate(getTemplateCards(workspaceId), templateChoice)
      case Aborted(more) => Aborted(menus + more)
      case Chosen(card, more) => Chosen(card, menus + more)
  }

  /** `fetchTemplate(templateId, apiKey)`: `getTemplateCard` when an id is given (its `null`
      passes through), the interactive selection otherwise, which never yields `null`. */
  function FetchTemplate(templateId: Option<string>, getTemplateCard: string -> Option<TemplateCard>,
                         workspaces: Option<seq<Workspace>>, workspaceChoice: Answer<nat>,
                         getTemplateCards: string -> Option<seq<TemplateCard>>,
                         templateChoice: Answer<nat>): (r: Pick<Option<TemplateCard>>)
    requires !Truthy(templateId) ==> SelectionAnswers(workspaces, workspaceChoice, getTemplateCards, templateChoice)
    ensures Truthy(templateId) ==> r == Chosen(getTemplateCard(templateId.value), [])
    ensures !Truthy(templateId) ==>
      var s := RunTemplateSelection(workspaces, workspaceChoice, getTemplateCards, templateChoice);
      r.menus == s.menus && (r.Chosen? <==> s.Chosen?) && (r.Chosen? ==> r.item == Some(s.item))
    ensures r.Chosen? && r.item.None? ==> Truthy(templateId)
  {
    if Truthy(templateId) then Chosen(getTemplateCard(templateId.value), [])
    else
      match RunTemplateSelection(workspaces, workspaceChoice, getTemplateCards, templateChoice)
      case Aborted(menus) => Aborted(menus)
      case Chosen(card, menus) => Chosen(Some(card), menus)
  }

  /** `write(templateCard, path, apiKey)`: the full template is fetched by the card's id and its
      drafts written; a `null` template throws in `writeTemplateContent` before any write, and
      writing into a folder that is not there throws at the first file. */
  method Write(fs: FileSystem, card: TemplateCard, path: string, apiKey: string,
               api: Request -> ApiReply<Template>) returns (r: Result<()>)
    modifies fs
    ensures var t := GetTemplate(card.id, apiKey, api).template;
      (t.None? ==> r == Err(TypeError("body_draft")) && fs.files == old(fs.files)) &&
      (t.Some? && path in old(fs.dirs) ==> r == Ok(()) && fs.files == WithTemplateContent(old(fs.files), path, t.value)) &&
      (t.Some? && path !in old(fs.dirs) ==> r == Err(NoFolder(path)) && fs.files == old(fs.files))
    ensures fs.dirs == old(fs.dirs)
  {
    var template := GetTemplate(card.id, apiKey, api).template;
    if template.None? {
      return Err(TypeError("body_draft"));
    }
    r := fs.WriteTemplateContent(template.value, path);
  }
}
