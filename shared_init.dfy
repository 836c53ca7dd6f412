/** `src/commands/shared/init.js`: `initResource`, the steps every `init` command shares:
    fetch the resource, choose the folder, create it, confirm writing into a non-empty
    folder, write the content and the `.pdfmonkey.json` metadata, print the watch command.
    `cancelOperation()` ends the process with status 0. The `initCommand`s of
    `src/commands/template/init.js` and `src/commands/snippet/init.js` are the two callers. */
module SharedInit {
  import opened Wrappers
  import opened Text
  import opened Api
  import opened Selection
  import opened Files
  import opened Pdfmonkey
  import Json
  import TemplateInit
  import SnippetInit
  import ResourcesWatch

  /** What a `fetch` produced: a template card or a snippet. */
  datatype Resource = TemplateResource(card: TemplateCard) | SnippetResource(snippet: Snippet) {
    /** The `type` of the resource info. */
    function ResourceType(): string {
      if TemplateResource? then "template" else "snippet"
    }

    function Id(): string {
      if TemplateResource? then card.id else snippet.id
    }
  }

  /** The questions asked, in order: a `select` with its options, a `text`, a `confirm`. */
  datatype Question = Menu(options: seq<string>) | TextPrompt | Confirm

  function Menus(menus: seq<seq<string>>): (r: seq<Question>)
    ensures |r| == |menus| && forall i :: 0 <= i < |menus| ==> r[i] == Menu(menus[i])
  {
    seq(|menus|, i requires 0 <= i < |menus| => Menu(menus[i]))
  }

  /** The `pathCandidates` of the resource's own `init` command. */
  function Candidates(cwd: string, resource: Resource): seq<string> {
    match resource
    case TemplateResource(card) => TemplateInit.PathCandidates(cwd, card)
    case SnippetResource(snippet) => SnippetInit.PathCandidates(cwd, snippet)
  }

  /** `candidates.filter(Boolean)` on strings: the non-empty ones, in order. */
  function KeepTruthy(xs: seq<string>): (r: seq<string>)
    ensures |r| <= |xs|
    ensures forall s :: s in r <==> s in xs && s != ""
    decreases |xs|
  {
    if xs == [] then [] else (if xs[0] != "" then [xs[0]] else []) + KeepTruthy(xs[1..])
  }

  /** A list without empty strings passes the filter unchanged. */
  lemma {:induction false} KeepTruthyKeepsNonEmpty(xs: seq<string>)
    requires forall i :: 0 <= i < |xs| ==> xs[i] != ""
    ensures KeepTruthy(xs) == xs
    decreases |xs|
  {
    if xs != [] {
      KeepTruthyKeepsNonEmpty(xs[1..]);
    }
  }

  /** The options of `askForPath`: the folder named after the resource id, the resource's own
      candidates, the current folder, and "custom" last. Joined paths are never empty, so the
      `filter(Boolean)` drops nothing. */
  function PathOptions(cwd: string, resource: Resource): (r: seq<string>)
    ensures r == [PathJoin(cwd, resource.Id())] + Candidates(cwd, resource) + [cwd, "custom"]
    ensures |r| == |Candidates(cwd, resource)| + 3 && r[|r| - 1] == "custom"
  {
    var candidates := [PathJoin(cwd, resource.Id())] + Candidates(cwd, resource);
    assert forall i :: 0 <= i < |candidates| ==> candidates[i] != "" by {
      forall i | 0 <= i < |candidates| ensures candidates[i] != "" {
        if i > 0 {
          assert candidates[i] == Candidates(cwd, resource)[i - 1];
          assert StartsWith(candidates[i], cwd + "/");
        }
      }
    }
    KeepTruthyKeepsNonEmpty(candidates);
    KeepTruthy(candidates) + [cwd, "custom"]
  }

  /** Where a path question ends: a path, or `None` when it was cancelled. */
  datatype PathAnswer = PathAnswer(path: Option<string>, asked: seq<Question>)

  /** The answers given are answers to the questions asked: a `select` answer is one of its options. */
  predicate ValidPathChoice(options: seq<string>, choice: Answer<nat>) {
    choice.Picked? ==> choice.value < |options|
  }

  /** A `select` among `options`; the "custom" option is followed by a `text` question whose
      answer is the path; a cancelled answer to either question cancels. */
  function ChoosePath(options: seq<string>, choice: Answer<nat>, custom: Answer<string>): (r: PathAnswer)
    requires ValidPathChoice(options, choice)
    ensures 1 <= |r.asked| <= 2 && r.asked[0] == Menu(options)
    ensures |r.asked| == 2 <==> choice.Picked? && options[choice.value] == "custom"
    ensures |r.asked| == 2 ==> r.asked[1] == TextPrompt && (r.path.Some? <==> custom.Picked?) &&
                               (r.path.Some? ==> r.path.value == custom.value)
    ensures |r.asked| == 1 ==> (r.path.Some? <==> choice.Picked?) &&
                               (r.path.Some? ==> r.path.value == options[choice.value] && r.path.value != "custom")
  {
    match choice
    case Cancelled => PathAnswer(None, [Menu(options)])
    case Picked(i) =>
      if options[i] == "custom" then
        match custom
        case Cancelled => PathAnswer(None, [Menu(options), TextPrompt])
        case Picked(p) => PathAnswer(Some(p), [Menu(options), TextPrompt])
      else PathAnswer(Some(options[i]), [Menu(options)])
  }

  /** `askForPath(resource, pathCandidates)` */
  function AskForPath(cwd: string, resource: Resource, choice: Answer<nat>, custom: Answer<string>): (r: PathAnswer)
    requires ValidPathChoice(PathOptions(cwd, resource), choice)
    ensures 1 <= |r.asked| <= 2 && r.asked[0] == Menu(PathOptions(cwd, resource))
    ensures r.path.Some? && |r.asked| == 1 ==> r.path.value in PathOptions(cwd, resource) && r.path.value != "custom"
    ensures r.path.Some? && |r.asked| == 2 ==> custom == Picked(r.path.value)
    ensures choice == Picked(0) ==> r == PathAnswer(Some(PathJoin(cwd, resource.Id())), [Menu(PathOptions(cwd, resource))])
  {
    var options := PathOptions(cwd, resource);
    var first := PathJoin(cwd, resource.Id());
    assert first[|cwd|] == '/' && '/' !in "custom";
    assert options[0] == first && first != "custom";
    ChoosePath(options, choice, custom)
  }

  /** `printWatchCommand(type, path)`: the arguments given to `shellescape`. */
  function WatchCommandArgs(path: string, apiKeyEnv: Option<string>): (r: seq<string>)
    ensures |r| == if Truthy(apiKeyEnv) then 3 else 5
    ensures r[..3] == ["pdfmonkey", "watch", path]
    ensures |r| == 5 ==> r[3..] == ["-k", "YOUR_API_KEY"]
  {
    if Truthy(apiKeyEnv) then ["pdfmonkey", "watch", path]
    else ["pdfmonkey", "watch", path, "-k", "YOUR_API_KEY"]
  }

  /** The file map after `write(resource, path)` into an existing folder; a template whose
      full fetch fails makes `writeTemplateContent(null)` throw before it writes. */
  function Written(files: map<string, string>, resource: Resource, path: string, apiKey: string,
                   api: Request -> ApiReply<Template>): (r: Result<map<string, string>>)
    ensures r.Err? <==> resource.TemplateResource? && GetTemplate(resource.card.id, apiKey, api).template.None?
    ensures r.Ok? && resource.TemplateResource? ==>
      r.value == WithTemplateContent(files, path, GetTemplate(resource.card.id, apiKey, api).template.value)
    ensures r.Ok? && resource.SnippetResource? ==>
      r.value == files[FilePath(path, "code.liquid") := resource.snippet.code.GetOr("")]
  {
    match resource
    case TemplateResource(card) =>
      (match GetTemplate(card.id, apiKey, api).template
       case None => Err(TypeError("body_draft"))
       case Some(t) => Ok(WithTemplateContent(files, path, t)))
    case SnippetResource(snippet) => Ok(files[FilePath(path, "code.liquid") := snippet.code.GetOr("")])
  }

  /** How an `init` ends. */
  datatype Outcome = Initialized(path: string, watchCommand: seq<string>) | Exited(code: nat) | Threw(error: Failure)

  datatype InitRun = InitRun(outcome: Outcome, asked: seq<Question>)

  datatype InitState = InitState(run: InitRun, files: map<string, string>, dirs: set<string>)

  /** The one-shot answers the user gives, each used only if its question is asked. */
  datatype Answers = Answers(workspace: Answer<nat>, item: Answer<nat>, path: Answer<nat>,
                             customPath: Answer<string>, overwrite: Answer<bool>)

  /** The path menu is answered with one of its options. */
  predicate PathAnswerValid(fetched: Pick<Option<Resource>>, path: Option<string>, cwd: string, answers: Answers) {
    fetched.Chosen? && fetched.item.Some? && path.None? ==>
      ValidPathChoice(PathOptions(cwd, fetched.item.value), answers.path)
  }

  /** The folder given, or the answer to `askForPath`. */
  function FolderAnswer(resource: Resource, path: Option<string>, cwd: string, answers: Answers): PathAnswer
    requires path.None? ==> ValidPathChoice(PathOptions(cwd, resource), answers.path)
  {
    if path.Some? then PathAnswer(path, []) else AskForPath(cwd, resource, answers.path, answers.customPath)
  }

  /** The directories after `ensurePathPresent(path)`. */
  function DirsAfterEnsure(files: map<string, string>, dirs: set<string>, path: string): set<string> {
    if Exists(files, dirs, path) then dirs else dirs + {path} + Ancestors(path)
  }

  /** `initResource(resourceInfo)` on the file system `files`/`dirs`, for the resource its `fetch`
      produced: a cancelled fetch exits 0; a `null` resource throws when its display name is read;
      then the folder (given, or asked for), `ensurePathPresent`, `avoidConflicts` (which throws
      when the path names a file), `write`,
      `writeMetadata(type, resource.id, path)` and the watch command. */
  function InitSpec(files: map<string, string>, dirs: set<string>, fetched: Pick<Option<Resource>>,
                    path: Option<string>, cwd: string, answers: Answers, apiKey: string,
                    api: Request -> ApiReply<Template>, apiKeyEnv: Option<string>): (s: InitState)
    requires PathAnswerValid(fetched, path, cwd, answers)
  {
    match fetched
    case Aborted(menus) => InitState(InitRun(Exited(0), Menus(menus)), files, dirs)
    case Chosen(None, menus) => InitState(InitRun(Threw(TypeError("display_name")), Menus(menus)), files, dirs)
    case Chosen(Some(resource), menus) =>
      var ask := FolderAnswer(resource, path, cwd, answers);
      var asked := Menus(menus) + ask.asked;
      if ask.path.None? then InitState(InitRun(Exited(0), asked), files, dirs)
      else SetUpSpec(files, dirs, resource, ask.path.value, asked, answers.overwrite, apiKey, api, apiKeyEnv)
  }

  /** The steps of `initResource` once the folder `p` is known, after the questions `asked`:
      `ensurePathPresent`, `avoidConflicts`, `write`, `writeMetadata` and the watch command. */
  function SetUpSpec(files: map<string, string>, dirs: set<string>, resource: Resource, p: string,
                     asked: seq<Question>, overwrite: Answer<bool>, apiKey: string,
                     api: Request -> ApiReply<Template>, apiKeyEnv: Option<string>): InitState
  {
    var dirs1 := DirsAfterEnsure(files, dirs, p);
    var gate := AvoidConflicts(files, dirs1, p, overwrite);
    if gate.Unlisted? then InitState(InitRun(Threw(gate.error), asked), files, dirs1)
    else
      var asked1 := asked + if gate == Proceed(false) then [] else [Confirm];
      if gate == Abort then InitState(InitRun(Exited(0), asked1), files, dirs1)
      else
        match Written(files, resource, p, apiKey, api)
        case Err(e) => InitState(InitRun(Threw(e), asked1), files, dirs1)
        case Ok(files2) =>
          var metadata := Json.Metadata(Some(resource.ResourceType()), Some(resource.Id()));
          InitState(InitRun(Initialized(p, WatchCommandArgs(p, apiKeyEnv)), asked1),
                    files2[MetadataKey(p) := Json.Stringify(metadata)], dirs1)
  }

  /** `initResource(resourceInfo)`, step by step on the file system. */
  method InitResource(fs: FileSystem, fetched: Pick<Option<Resource>>, path: Option<string>, cwd: string,
                      answers: Answers, apiKey: string, api: Request -> ApiReply<Template>,
                      apiKeyEnv: Option<string>) returns (run: InitRun)
    requires PathAnswerValid(fetched, path, cwd, answers)
    modifies fs
    ensures var s := InitSpec(old(fs.files), old(fs.dirs), fetched, path, cwd, answers, apiKey, api, apiKeyEnv);
      run == s.run && fs.files == s.files && fs.dirs == s.dirs
  {
    InitSpecStages(fs.files, fs.dirs, fetched, path, cwd, answers, apiKey, api, apiKeyEnv);
    if fetched.Aborted? {
      return InitRun(Exited(0), Menus(fetched.menus));
    }
    if fetched.item.None? {
      return InitRun(Threw(TypeError("display_name")), Menus(fetched.menus));
    }
    var resource := fetched.item.value;
    var asked := Menus(fetched.menus);
    var p: string;
    if path.Some? {
      p := path.value;
    } else {
      var ask := AskForPath(cwd, resource, answers.path, answers.customPath);
      asked := asked + ask.asked;
      if ask.path.None? {
        return InitRun(Exited(0), asked);
      }
      p := ask.path.value;
    }
    run := SetUp(fs, resource, p, asked, answers.overwrite, apiKey, api, apiKeyEnv);
  }

  /** The steps of `initResource` once the folder is known, on the file system. */
  method SetUp(fs: FileSystem, resource: Resource, p: string, asked0: seq<Question>, overwrite: Answer<bool>,
               apiKey: string, api: Request -> ApiReply<Template>, apiKeyEnv: Option<string>)
    returns (run: InitRun)
    modifies fs
    ensures var s := SetUpSpec(old(fs.files), old(fs.dirs), resource, p, asked0, overwrite, apiKey, api, apiKeyEnv);
      run == s.run && fs.files == s.files && fs.dirs == s.dirs
  {
    var asked := asked0;
    fs.EnsurePathPresent(p);
    var gate := AvoidConflicts(fs.files, fs.dirs, p, overwrite);
    if gate.Unlisted? {
      return InitRun(Threw(gate.error), asked);
    }
    if gate != Proceed(false) {
      asked := asked + [Confirm];
    } else {
      assert asked == asked0 + [];
    }
    if gate == Abort {
      return InitRun(Exited(0), asked);
    }
    var written := Write(fs, resource, p, apiKey, api);
    if written.Err? {
      return InitRun(Threw(written.error), asked);
    }
    var stored := fs.WriteMetadata(resource.ResourceType(), Some(resource.Id()), p);
    run := InitRun(Initialized(p, WatchCommandArgs(p, apiKeyEnv)), asked);
  }

  /** `write(resource, path)` of the resource's own `init` command; the first write into a
      folder that is not there throws. */
  method Write(fs: FileSystem, resource: Resource, path: string, apiKey: string,
               api: Request -> ApiReply<Template>) returns (r: Result<()>)
    modifies fs
    ensures var w := Written(old(fs.files), resource, path, apiKey, api);
      (w.Err? ==> r == Err(w.error) && fs.files == old(fs.files)) &&
      (w.Ok? && path in old(fs.dirs) ==> r == Ok(()) && fs.files == w.value) &&
      (w.Ok? && path !in old(fs.dirs) ==> r == Err(NoFolder(path)) && fs.files == old(fs.files))
    ensures fs.dirs == old(fs.dirs)
  {
    match resource {
      case TemplateResource(card) =>
        r := TemplateInit.Write(fs, card, path, apiKey, api);
      case SnippetResource(snippet) =>
        r := fs.WriteSnippetContent(snippet, path);
    }
  }

  // ---------------------------------------------------------------- what the steps guarantee

  /** Before the folder is known nothing changes; once it is, the rest of `initResource` is
      `SetUpSpec` after the questions asked so far. */
  lemma InitSpecStages(files: map<string, string>, dirs: set<string>, fetched: Pick<Option<Resource>>,
                       path: Option<string>, cwd: string, answers: Answers, apiKey: string,
                       api: Request -> ApiReply<Template>, apiKeyEnv: Option<string>)
    requires PathAnswerValid(fetched, path, cwd, answers)
    ensures var s := InitSpec(files, dirs, fetched, path, cwd, answers, apiKey, api, apiKeyEnv);
      if fetched.Chosen? && fetched.item.Some? && FolderAnswer(fetched.item.value, path, cwd, answers).path.Some? then
        var ask := FolderAnswer(fetched.item.value, path, cwd, answers);
        s == SetUpSpec(files, dirs, fetched.item.value, ask.path.value, Menus(fetched.menus) + ask.asked,
                       answers.overwrite, apiKey, api, apiKeyEnv)
      else s.files == files && s.dirs == dirs && !s.run.outcome.Initialized?
  {
  }

  /** What the steps after the folder choice guarantee: the folder and its ancestors exist, a
      path naming a file throws `ENOTDIR` before any question, at most the overwrite
      confirmation is asked and only for a folder with entries, and files change only on
      success, where the content and then the metadata are written. */
  lemma SetUpFacts(files: map<string, string>, dirs: set<string>, resource: Resource, p: string,
                   asked: seq<Question>, overwrite: Answer<bool>, apiKey: string,
                   api: Request -> ApiReply<Template>, apiKeyEnv: Option<string>)
    ensures var s := SetUpSpec(files, dirs, resource, p, asked, overwrite, apiKey, api, apiKeyEnv);
      s.dirs == DirsAfterEnsure(files, dirs, p) && dirs <= s.dirs &&
      |asked| <= |s.run.asked| <= |asked| + 1 && s.run.asked[..|asked|] == asked &&
      (|s.run.asked| > |asked| ==> s.run.asked[|asked|] == Confirm) &&
      (s.run.outcome == Threw(NoFolder(p)) <==> p in files && p !in dirs) &&
      (|s.run.asked| == |asked| ==> !HasEntries(files, dirs, p) || s.run.outcome == Threw(NoFolder(p))) &&
      (!s.run.outcome.Initialized? ==> s.files == files) &&
      (s.run.outcome.Initialized? ==>
         s.run.outcome.path == p && Written(files, resource, p, apiKey, api).Ok? &&
         s.files == Written(files, resource, p, apiKey, api).value[MetadataKey(p) :=
           Json.Stringify(Json.Metadata(Some(resource.ResourceType()), Some(resource.Id())))])
  {
    var dirs1 := DirsAfterEnsure(files, dirs, p);
    var gate := AvoidConflicts(files, dirs1, p, overwrite);
    EnsureKeepsEntries(files, dirs, p);
    if gate == Proceed(false) {
      assert asked + [] == asked;
    } else {
      assert (asked + [Confirm])[..|asked|] == asked;
    }
  }

  /** Creating a folder and its ancestors adds nothing under the folder. */
  lemma EnsureKeepsEntries(files: map<string, string>, dirs: set<string>, p: string)
    ensures dirs <= DirsAfterEnsure(files, dirs, p)
    ensures HasEntries(files, dirs, p) ==> HasEntries(files, DirsAfterEnsure(files, dirs, p), p)
  {
    var dirs1 := DirsAfterEnsure(files, dirs, p);
    if d :| d in dirs && StartsWith(d, p + "/") {
      assert d in dirs1;
    }
  }

  /** With a path given, the only questions are those of the fetch and the overwrite
      confirmation: no folder is asked for, and the folder used is the one given. */
  lemma GivenPathAsksNoPath(files: map<string, string>, dirs: set<string>, fetched: Pick<Option<Resource>>,
                            path: string, cwd: string, answers: Answers, apiKey: string,
                            api: Request -> ApiReply<Template>, apiKeyEnv: Option<string>)
    ensures var s := InitSpec(files, dirs, fetched, Some(path), cwd, answers, apiKey, api, apiKeyEnv);
      |fetched.menus| <= |s.run.asked| <= |fetched.menus| + 1 &&
      s.run.asked[..|fetched.menus|] == Menus(fetched.menus) &&
      (|s.run.asked| > |fetched.menus| ==> s.run.asked[|fetched.menus|] == Confirm) &&
      (s.run.outcome.Initialized? ==> s.run.outcome.path == path)
  {
    InitSpecStages(files, dirs, fetched, Some(path), cwd, answers, apiKey, api, apiKeyEnv);
    if fetched.Chosen? && fetched.item.Some? {
      var asked := Menus(fetched.menus) + [];
      assert asked == Menus(fetched.menus);
      SetUpFacts(files, dirs, fetched.item.value, path, asked, answers.overwrite, apiKey, api, apiKeyEnv);
    }
  }

  /** Files are written only after the folder is confirmed: a refused confirmation exits 0
      with every file as it was (the folder itself has already been created). */
  lemma RefusedFolderWritesNothing(files: map<string, string>, dirs: set<string>, fetched: Pick<Option<Resource>>,
                                   path: Option<string>, cwd: string, answers: Answers, apiKey: string,
                                   api: Request -> ApiReply<Template>, apiKeyEnv: Option<string>)
    requires PathAnswerValid(fetched, path, cwd, answers)
    ensures var s := InitSpec(files, dirs, fetched, path, cwd, answers, apiKey, api, apiKeyEnv);
      !s.run.outcome.Initialized? ==> s.files == files && dirs <= s.dirs
    ensures var s := InitSpec(files, dirs, fetched, path, cwd, answers, apiKey, api, apiKeyEnv);
      s.run.outcome.Initialized? ==> Confirm in s.run.asked || !HasEntries(files, dirs, s.run.outcome.path)
  {
    InitSpecStages(files, dirs, fetched, path, cwd, answers, apiKey, api, apiKeyEnv);
    if fetched.Chosen? && fetched.item.Some? && FolderAnswer(fetched.item.value, path, cwd, answers).path.Some? {
      var ask := FolderAnswer(fetched.item.value, path, cwd, answers);
      var asked := Menus(fetched.menus) + ask.asked;
      SetUpFacts(files, dirs, fetched.item.value, ask.path.value, asked, answers.overwrite, apiKey, api, apiKeyEnv);
    }
  }

  /** Everything `init` writes lies inside the folder it chose; no file is removed. */
  lemma InitWritesInsideFolder(files: map<string, string>, dirs: set<string>, fetched: Pick<Option<Resource>>,
                               path: Option<string>, cwd: string, answers: Answers, apiKey: string,
                               api: Request -> ApiReply<Template>, apiKeyEnv: Option<string>)
    requires PathAnswerValid(fetched, path, cwd, answers)
    ensures var s := InitSpec(files, dirs, fetched, path, cwd, answers, apiKey, api, apiKeyEnv);
      (forall k :: k in files ==> k in s.files) &&
      (s.run.outcome.Initialized? ==>
         forall k :: k in s.files && !(k in files && s.files[k] == files[k]) ==>
           StartsWith(k, s.run.outcome.path + "/"))
  {
    var s := InitSpec(files, dirs, fetched, path, cwd, answers, apiKey, api, apiKeyEnv);
    InitSpecStages(files, dirs, fetched, path, cwd, answers, apiKey, api, apiKeyEnv);
    if s.run.outcome.Initialized? {
      InitializedState(files, dirs, fetched, path, cwd, answers, apiKey, api, apiKeyEnv);
      var p := s.run.outcome.path;
      var resource := fetched.item.value;
      var written := Written(files, resource, p, apiKey, api).value;
      assert s.files == written[MetadataKey(p) := s.files[MetadataKey(p)]];
      forall k | k in s.files && !(k in files && s.files[k] == files[k])
        ensures StartsWith(k, p + "/")
      {
        if k != MetadataKey(p) {
          assert k in written && !(k in files && written[k] == files[k]);
          assert k in {FilePath(p, "body.html.liquid"), FilePath(p, "styles.scss"),
                       FilePath(p, "sample_data.json"), FilePath(p, "code.liquid")};
        }
      }
    }
  }

  /** The state a successful `init` leaves: the content written, then the metadata over it,
      in the folder `ensurePathPresent` made sure of. */
  lemma InitializedState(files: map<string, string>, dirs: set<string>, fetched: Pick<Option<Resource>>,
                         path: Option<string>, cwd: string, answers: Answers, apiKey: string,
                         api: Request -> ApiReply<Template>, apiKeyEnv: Option<string>)
    requires PathAnswerValid(fetched, path, cwd, answers)
    requires InitSpec(files, dirs, fetched, path, cwd, answers, apiKey, api, apiKeyEnv).run.outcome.Initialized?
    ensures var s := InitSpec(files, dirs, fetched, path, cwd, answers, apiKey, api, apiKeyEnv);
      var resource := fetched.item.value;
      var p := s.run.outcome.path;
      var written := Written(files, resource, p, apiKey, api);
      fetched.Chosen? && fetched.item.Some? && written.Ok? &&
      s.files == written.value[MetadataKey(p) := Json.Stringify(Json.Metadata(Some(resource.ResourceType()), Some(resource.Id())))] &&
      s.dirs == DirsAfterEnsure(files, dirs, p)
  {
    InitSpecStages(files, dirs, fetched, path, cwd, answers, apiKey, api, apiKeyEnv);
    var ask := FolderAnswer(fetched.item.value, path, cwd, answers);
    SetUpFacts(files, dirs, fetched.item.value, ask.path.value, Menus(fetched.menus) + ask.asked,
               answers.overwrite, apiKey, api, apiKeyEnv);
  }

  /** A folder `init` set up is tracked: its metadata names the resource, every later
      `getResourceId` there returns the resource's id whatever id it is given, and the
      multi-resource watch admits the folder as a resource of the right kind. */
  lemma InitializedFolderIsTracked(files: map<string, string>, dirs: set<string>, fetched: Pick<Option<Resource>>,
                                   path: Option<string>, cwd: string, answers: Answers, apiKey: string,
                                   api: Request -> ApiReply<Template>, apiKeyEnv: Option<string>,
                                   later: Option<string>)
    requires PathAnswerValid(fetched, path, cwd, answers)
    requires InitSpec(files, dirs, fetched, path, cwd, answers, apiKey, api, apiKeyEnv).run.outcome.Initialized?
    requires fetched.item.value.Id() != ""
    ensures var s := InitSpec(files, dirs, fetched, path, cwd, answers, apiKey, api, apiKeyEnv);
      var resource := fetched.item.value;
      var p := s.run.outcome.path;
      GetResourceMetadata(s.files, p) == Some(Json.Metadata(Some(resource.ResourceType()), Some(resource.Id()))) &&
      ResolveResourceId(s.files, later, p) == Ok(Some(resource.Id())) &&
      ResourcesWatch.LoadResource(s.files, s.dirs, p, false) ==
        Some(ResourcesWatch.Resource(p, resource.TemplateResource?))
  {
    InitializedState(files, dirs, fetched, path, cwd, answers, apiKey, api, apiKeyEnv);
    var s := InitSpec(files, dirs, fetched, path, cwd, answers, apiKey, api, apiKeyEnv);
    var resource := fetched.item.value;
    var p := s.run.outcome.path;
    var m := Json.Metadata(Some(resource.ResourceType()), Some(resource.Id()));
    var written := Written(files, resource, p, apiKey, api).value;
    assert forall k :: k in files ==> k in written;
    assert Exists(s.files, s.dirs, p);
    assert MetadataKey(p) in s.files;
    WrittenMetadataIsValid(written, p, resource.ResourceType(), resource.Id());
    Json.ParseStringify(m);
  }

  /** After a template `init`, the first sync sends exactly the drafts `init` wrote. */
  lemma InitializedTemplateSyncs(files: map<string, string>, dirs: set<string>, fetched: Pick<Option<Resource>>,
                                 path: Option<string>, cwd: string, answers: Answers, apiKey: string,
                                 api: Request -> ApiReply<Template>, apiKeyEnv: Option<string>)
    requires PathAnswerValid(fetched, path, cwd, answers)
    requires InitSpec(files, dirs, fetched, path, cwd, answers, apiKey, api, apiKeyEnv).run.outcome.Initialized?
    requires fetched.item.value.TemplateResource?
    ensures fetched.Chosen? && fetched.item.Some? && GetTemplate(fetched.item.value.card.id, apiKey, api).template.Some?
    ensures var s := InitSpec(files, dirs, fetched, path, cwd, answers, apiKey, api, apiKeyEnv);
      var t := GetTemplate(fetched.item.value.card.id, apiKey, api).template.value;
      BuildTemplateData(s.files, s.run.outcome.path) ==
        Ok(TemplatePayload(t.body_draft.GetOr(""), t.scss_style_draft.GetOr(""), t.sample_data_draft.GetOr("")))
  {
    InitializedState(files, dirs, fetched, path, cwd, answers, apiKey, api, apiKeyEnv);
    var s := InitSpec(files, dirs, fetched, path, cwd, answers, apiKey, api, apiKeyEnv);
    var p := s.run.outcome.path;
    FilePathInjective(p, MetadataFile, "body.html.liquid");
    FilePathInjective(p, MetadataFile, "styles.scss");
    FilePathInjective(p, MetadataFile, "sample_data.json");
  }

  // ---------------------------------------------------------------- the two `init` commands

  /** What `fetch` gives `initResource` for a template. */
  function TemplateFetched(pick: Pick<Option<TemplateCard>>): Pick<Option<Resource>> {
    match pick
    case Aborted(menus) => Aborted(menus)
    case Chosen(None, menus) => Chosen(None, menus)
    case Chosen(Some(card), menus) => Chosen(Some(TemplateResource(card)), menus)
  }

  /** What `fetch` gives `initResource` for a snippet. */
  function SnippetFetched(pick: Pick<Option<Snippet>>): Pick<Option<Resource>> {
    match pick
    case Aborted(menus) => Aborted(menus)
    case Chosen(None, menus) => Chosen(None, menus)
    case Chosen(Some(snippet), menus) => Chosen(Some(SnippetResource(snippet)), menus)
  }

  /** `pdfmonkey template init [templateId] [path]` */
  method InitTemplate(fs: FileSystem, templateId: Option<string>, path: Option<string>, cwd: string,
                      answers: Answers, apiKey: string, getTemplateCard: string -> Option<TemplateCard>,
                      workspaces: Option<seq<Workspace>>, getTemplateCards: string -> Option<seq<TemplateCard>>,
                      api: Request -> ApiReply<Template>, apiKeyEnv: Option<string>) returns (run: InitRun)
    requires !Truthy(templateId) ==>
      TemplateInit.SelectionAnswers(workspaces, answers.workspace, getTemplateCards, answers.item)
    requires PathAnswerValid(TemplateFetched(TemplateInit.FetchTemplate(templateId, getTemplateCard, workspaces,
                               answers.workspace, getTemplateCards, answers.item)), path, cwd, answers)
    modifies fs
    ensures var fetched := TemplateFetched(TemplateInit.FetchTemplate(templateId, getTemplateCard, workspaces,
                                             answers.workspace, getTemplateCards, answers.item));
      var s := InitSpec(old(fs.files), old(fs.dirs), fetched, path, cwd, answers, apiKey, api, apiKeyEnv);
      run == s.run && fs.files == s.files && fs.dirs == s.dirs
  {
    var card := TemplateInit.FetchTemplate(templateId, getTemplateCard, workspaces, answers.workspace,
                                           getTemplateCards, answers.item);
    run := InitResource(fs, TemplateFetched(card), path, cwd, answers, apiKey, api, apiKeyEnv);
  }

  /** `pdfmonkey snippet init [snippetId] [path]` */
  method InitSnippet(fs: FileSystem, snippetId: Option<string>, path: Option<string>, cwd: string,
                     answers: Answers, getSnippet: string -> Option<Snippet>,
                     workspaces: Option<seq<Workspace>>, getSnippets: string -> Option<seq<Snippet>>,
                     apiKey: string, api: Request -> ApiReply<Template>, apiKeyEnv: Option<string>)
    returns (run: InitRun)
    requires !Truthy(snippetId) ==>
      SnippetInit.SelectionAnswers(workspaces, answers.workspace, getSnippets, answers.item)
    requires PathAnswerValid(SnippetFetched(SnippetInit.FetchSnippet(snippetId, getSnippet, workspaces,
                               answers.workspace, getSnippets, answers.item)), path, cwd, answers)
    modifies fs
    ensures var fetched := SnippetFetched(SnippetInit.FetchSnippet(snippetId, getSnippet, workspaces,
                                            answers.workspace, getSnippets, answers.item));
      var s := InitSpec(old(fs.files), old(fs.dirs), fetched, path, cwd, answers, apiKey, api, apiKeyEnv);
      run == s.run && fs.files == s.files && fs.dirs == s.dirs
  {
    var snippet := SnippetInit.FetchSnippet(snippetId, getSnippet, workspaces, answers.workspace,
                                            getSnippets, answers.item);
    run := InitResource(fs, SnippetFetched(snippet), path, cwd, answers, apiKey, api, apiKeyEnv);
  }
}
