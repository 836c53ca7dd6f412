/** `src/commands/template/watch.js`: `pdfmonkey watch` for one template folder. Startup
    resolves the template id, fetches the template and settles conflicts; then every change
    in the folder PATCHes the three drafts, and on success the preview URL cell is replaced
    and the live-reload server refreshes the preview. */
module TemplateWatch {
  import opened Wrappers
  import opened Text
  import opened Api
  import opened Pdfmonkey
  import opened FilesWatching

  /** `templateId ??= path.split("/").pop()` */
  function DefaultTemplateId(path: string, templateId: Option<string>): (r: string)
    ensures templateId.Some? ==> r == templateId.value
    ensures templateId.None? ==> r == LastSegment(path)
    ensures templateId.None? ==> '/' !in r && |r| <= |path| && path[|path| - |r|..] == r
  {
    templateId.GetOr(LastSegment(path))
  }

  /** Without `-t`, a folder named after the template id watches that template. */
  lemma DefaultIdIsFolderName(dir: string, name: string)
    requires '/' !in name
    ensures DefaultTemplateId(dir + "/" + name, None) == name
  {
    LastSegmentOfChild(dir, name);
  }

  /** How startup ends: `process.exit(code)`, an exception, or a running watch. */
  datatype Startup = Exited(code: nat) | Threw(error: Failure) | Watching(templateId: string, template: Template, previewUrl: string)

  /** The startup of `watchCommand`: fetch (a failed fetch exits 1), settle conflicts with
      `handleConflicts(template, path)` (refused: exit 0), then compute the first preview URL. */
  function Start(path: string, templateId: Option<string>, apiKey: string, debug: bool,
                 api: Request -> ApiReply<Template>, debugApi: Request -> Option<string>,
                 handleConflicts: Template -> bool): (r: Startup)
    ensures var id := DefaultTemplateId(path, templateId);
      var fetched := GetTemplate(id, apiKey, api).template;
      (r == Exited(1) <==> fetched.None?) &&
      (r == Exited(0) <==> fetched.Some? && !handleConflicts(fetched.value)) &&
      (r.Watching? ==> r.templateId == id && Some(r.template) == fetched && handleConflicts(r.template) &&
                       GetTemplatePreviewUrl(r.template, apiKey, debug, debugApi) == Ok(r.previewUrl)) &&
      (fetched.Some? && handleConflicts(fetched.value) ==>
         var preview := GetTemplatePreviewUrl(fetched.value, apiKey, debug, debugApi);
         (preview.Ok? ==> r == Watching(id, fetched.value, preview.value)) &&
         (preview.Err? ==> r == Threw(preview.error)))
  {
    var id := DefaultTemplateId(path, templateId);
    match GetTemplate(id, apiKey, api).template
    case None => Exited(1)
    case Some(t) =>
      if !handleConflicts(t) then Exited(0)
      else
        match GetTemplatePreviewUrl(t, apiKey, debug, debugApi)
        case Err(e) => Threw(e)
        case Ok(url) => Watching(id, t, url)
  }

  /** A failed fetch exits before conflicts are looked at: the outcome does not depend on them. */
  lemma FetchFailureSkipsConflicts(path: string, templateId: Option<string>, apiKey: string, debug: bool,
                                   api: Request -> ApiReply<Template>, debugApi: Request -> Option<string>,
                                   c1: Template -> bool, c2: Template -> bool)
    requires api(Request("GET", TemplatesUrl + DefaultTemplateId(path, templateId), apiKey, None)).Errors?
    ensures Start(path, templateId, apiKey, debug, api, debugApi, c1) == Exited(1)
    ensures Start(path, templateId, apiKey, debug, api, debugApi, c1) == Start(path, templateId, apiKey, debug, api, debugApi, c2)
  {
  }

  /** What one change does to the preview cell: the new URL and whether the preview refreshes. */
  datatype Change = Change(previewUrl: string, refreshed: bool, result: Result<CallbackResult>)

  /** The watch callback for one change, given the current preview URL. A throw (a missing
      draft file, a debug reply without URL) rejects the callback's promise. */
  function OnChangeSpec(previewUrl: string, update: Result<Update>, apiKey: string, debug: bool,
                        debugApi: Request -> Option<string>): (r: Change)
    ensures r.refreshed <==> r.result == Ok(Succeeded)
    ensures !r.refreshed ==> r.previewUrl == previewUrl
    ensures r.refreshed <==> update.Ok? && update.value.Updated? &&
                             GetTemplatePreviewUrl(update.value.template, apiKey, debug, debugApi).Ok?
    ensures r.refreshed ==> Ok(r.previewUrl) == GetTemplatePreviewUrl(update.value.template, apiKey, debug, debugApi)
    ensures update.Ok? && update.value.Rejected? ==> r.result == Ok(Failed(FormatErrors(update.value.errors)))
  {
    match update
    case Err(e) => Change(previewUrl, false, Err(e))
    case Ok(Rejected(errors)) => Change(previewUrl, false, Ok(Failed(FormatErrors(errors))))
    case Ok(Updated(t)) =>
      match GetTemplatePreviewUrl(t, apiKey, debug, debugApi)
      case Err(e) => Change(previewUrl, false, Err(e))
      case Ok(url) => Change(url, true, Ok(Succeeded))
  }

  /** The preview URL and refresh count after a run of changes. */
  function AfterChanges(previewUrl: string, updates: seq<Result<Update>>, apiKey: string, debug: bool,
                        debugApi: Request -> Option<string>): (string, nat)
    decreases |updates|
  {
    if updates == [] then (previewUrl, 0)
    else
      var before := AfterChanges(previewUrl, updates[..|updates| - 1], apiKey, debug, debugApi);
      var c := OnChangeSpec(before.0, updates[|updates| - 1], apiKey, debug, debugApi);
      (c.previewUrl, before.1 + if c.refreshed then 1 else 0)
  }

  /** Whether one update leads to a refresh, wherever the preview cell stands. */
  predicate Refreshes(update: Result<Update>, apiKey: string, debug: bool, debugApi: Request -> Option<string>) {
    update.Ok? && update.value.Updated? && GetTemplatePreviewUrl(update.value.template, apiKey, debug, debugApi).Ok?
  }

  function CountRefreshes(updates: seq<Result<Update>>, apiKey: string, debug: bool,
                          debugApi: Request -> Option<string>): nat
    decreases |updates|
  {
    if updates == [] then 0
    else CountRefreshes(updates[..|updates| - 1], apiKey, debug, debugApi) +
         if Refreshes(updates[|updates| - 1], apiKey, debug, debugApi) then 1 else 0
  }

  /** Over any run of changes the preview refreshes exactly once per successful update, and
      a run with no successful update leaves the preview URL as it was. */
  lemma {:induction false} RefreshOncePerSuccess(previewUrl: string, updates: seq<Result<Update>>, apiKey: string,
                                                 debug: bool, debugApi: Request -> Option<string>)
    ensures AfterChanges(previewUrl, updates, apiKey, debug, debugApi).1 == CountRefreshes(updates, apiKey, debug, debugApi)
    ensures CountRefreshes(updates, apiKey, debug, debugApi) == 0 ==>
      AfterChanges(previewUrl, updates, apiKey, debug, debugApi).0 == previewUrl
    decreases |updates|
  {
    if updates != [] {
      RefreshOncePerSuccess(previewUrl, updates[..|updates| - 1], apiKey, debug, debugApi);
    }
  }

  /** The running session: `template` is fixed at startup, `previewUrl` is the cell the
      preview server reads, `refreshes` counts `liveReloadServer.refresh("/")`. */
  class Session {
    const templateId: string
    const apiKey: string
    const debug: bool
    const path: string
    const template: Template
    var previewUrl: string
    var refreshes: nat

    constructor (templateId: string, apiKey: string, debug: bool, path: string, template: Template, previewUrl: string)
      ensures this.templateId == templateId && this.apiKey == apiKey && this.debug == debug
      ensures this.path == path && this.template == template
      ensures this.previewUrl == previewUrl && refreshes == 0
    {
      this.templateId := templateId;
      this.apiKey := apiKey;
      this.debug := debug;
      this.path := path;
      this.template := template;
      this.previewUrl := previewUrl;
      refreshes := 0;
    }

    /** The `templateId` accessor of the preview server: the id of the template fetched at
        startup, which no later update replaces. */
    function TemplateIdAccessor(): (r: string)
      ensures r == template.id
    {
      template.id
    }

    /** The `previewUrl` accessor: the cell as it stands when a request comes in. */
    function PreviewUrlAccessor(): (r: string)
      reads this
      ensures r == previewUrl
    {
      previewUrl
    }

    /** The watch callback for one change of the folder. */
    method OnChange(files: map<string, string>, api: Request -> ApiReply<Template>,
                    debugApi: Request -> Option<string>) returns (r: Result<CallbackResult>)
      modifies this
      ensures var c := OnChangeSpec(old(previewUrl), UpdateTemplate(files, templateId, apiKey, path, api), apiKey, debug, debugApi);
        r == c.result && previewUrl == c.previewUrl && refreshes == old(refreshes) + if c.refreshed then 1 else 0
    ensures var c := OnChangeSpec(old(previewUrl), UpdateTemplate(files, templateId, apiKey, path, api), apiKey, debug, debugApi);
      PreviewUrlAccessor() == c.previewUrl
    {
      var update := UpdateTemplate(files, templateId, apiKey, path, api);
      match update
      case Err(e) =>
        return Err(e);
      case Ok(Rejected(errors)) =>
        return Ok(Failed(FormatErrors(errors)));
      case Ok(Updated(t)) =>
        var url := GetTemplatePreviewUrl(t, apiKey, debug, debugApi);
        if url.Err? {
          return Err(url.error);
        }
        previewUrl := url.value;
        refreshes := refreshes + 1;
        return Ok(Succeeded);
    }
  }
}
