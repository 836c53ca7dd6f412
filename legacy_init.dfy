/** `src/commands/init.js`: the older `init` command for one template. It fetches the full
    template first (a `null` template cancels before anything else), asks for the folder
    among three options, creates it, confirms writing into a non-empty folder, writes the
    three drafts and prints the watch command as one string. It writes no `.pdfmonkey.json`.
    Its `ensurePathPresent` and `avoidConflicts` are the same code as those of
    `src/utils/files.js`, modelled once in `Files`; its own `cancelOperation` exits 0. */
module LegacyInit {
  import opened Wrappers
  import opened Text
  import opened Api
  import opened Files
  import opened Pdfmonkey
  import opened SharedInit
  import TemplateInit
  import TemplateWatch

  /** The options of `askForPath(templateId)`: the folder named after the id, the current
      folder, and "custom". */
  function PathOptions(cwd: string, templateId: string): (r: seq<string>)
    ensures |r| == 3 && r[1] == cwd && r[2] == "custom"
    ensures StartsWith(r[0], cwd + "/") && r[0][|cwd| + 1..] == templateId
  {
    [PathJoin(cwd, templateId), cwd, "custom"]
  }

  /** The arguments the printed command passes after `pdfmonkey watch`: the path unless it is
      the current folder, `-t id` unless the last path segment already is the id. */
  function WatchArgs(path: string, templateId: string, cwd: string): seq<string> {
    (if path == cwd then [] else [path]) + (if LastSegment(path) == templateId then [] else ["-t", templateId])
  }

  /** The words every printed command starts with. */
  const WatchBase := "pdfmonkey watch"

  /** The command of `printWatchCommand(path, templateId)`, before the key placeholder. */
  function Command(path: string, templateId: string, cwd: string): string {
    var templateFolder := LastSegment(path);
    if path == cwd && templateFolder == templateId then WatchBase
    else if path == cwd then WatchBase + " -t " + templateId
    else if templateFolder == templateId then WatchBase + " " + path
    else WatchBase + " " + path + " -t " + templateId
  }

  /** Every branch of the command starts with the base words. */
  lemma CommandStartsWithBase(path: string, templateId: string, cwd: string)
    ensures StartsWith(Command(path, templateId, cwd), WatchBase)
  {
    var args := WatchArgs(path, templateId, cwd);
    ArgsWords(path, templateId, cwd);
    StartsWithAppended(WatchBase, if args == [] then "" else " " + Join(args, " "));
  }

  /** `printWatchCommand(path, templateId)`: the text logged. */
  function PrintWatchCommand(path: string, templateId: string, cwd: string, apiKeyEnv: Option<string>): (r: string)
    ensures StartsWith(r, WatchBase)
  {
    var command := Command(path, templateId, cwd);
    CommandStartsWithBase(path, templateId, cwd);
    if Truthy(apiKeyEnv) then command
    else
      StartsWithAppended(command, " -k YOUR_API_KEY");
      StartsWithTransitive(command + " -k YOUR_API_KEY", command, WatchBase);
      command + " -k YOUR_API_KEY"
  }

  /** The words after `pdfmonkey watch`, joined. */
  lemma ArgsWords(path: string, templateId: string, cwd: string)
    ensures var args := WatchArgs(path, templateId, cwd);
      Command(path, templateId, cwd) == WatchBase + (if args == [] then "" else " " + Join(args, " "))
  {
    if path != cwd && LastSegment(path) != templateId {
      PathAndIdCase(path, templateId, cwd);
    } else if path == cwd && LastSegment(path) != templateId {
      IdCase(path, templateId, cwd);
    } else if path != cwd {
      assert WatchArgs(path, templateId, cwd) == [path];
    } else {
      assert WatchArgs(path, templateId, cwd) == [];
    }
  }

  /** The words when both the path and `-t id` are printed. */
  lemma PathAndIdCase(path: string, templateId: string, cwd: string)
    requires path != cwd && LastSegment(path) != templateId
    ensures Command(path, templateId, cwd) == WatchBase + (" " + Join(WatchArgs(path, templateId, cwd), " "))
  {
    assert WatchArgs(path, templateId, cwd) == [path, "-t", templateId];
    PathAndIdWords(path, templateId);
    var spaced := " " + path;
    var flagged := spaced + " -t ";
    calc {
      Command(path, templateId, cwd);
      WatchBase + " " + path + " -t " + templateId;
      { Regroup(WatchBase, " ", path); }
      WatchBase + spaced + " -t " + templateId;
      { Regroup(WatchBase, spaced, " -t "); }
      WatchBase + flagged + templateId;
      { Regroup(WatchBase, flagged, templateId); }
      WatchBase + (flagged + templateId);
    }
  }

  /** The words when only `-t id` is printed. */
  lemma IdCase(path: string, templateId: string, cwd: string)
    requires path == cwd && LastSegment(path) != templateId
    ensures Command(path, templateId, cwd) == WatchBase + (" " + Join(WatchArgs(path, templateId, cwd), " "))
  {
    assert WatchArgs(path, templateId, cwd) == ["-t", templateId];
    IdWords(templateId);
  }

  /** The words `-t id`, joined. */
  lemma IdWords(templateId: string)
    ensures " " + Join(["-t", templateId], " ") == " -t " + templateId
  {
    var words: seq<string> := ["-t", templateId];
    assert words[1..] == [templateId];
    assert Join(words, " ") == "-t" + " " + templateId;
    assert " " + ("-t" + " " + templateId) == (" " + "-t" + " ") + templateId;
  }

  /** The words `path -t id`, joined. */
  lemma PathAndIdWords(path: string, templateId: string)
    ensures " " + Join([path, "-t", templateId], " ") == " " + path + " -t " + templateId
  {
    var words: seq<string> := [path, "-t", templateId];
    assert words[1..] == ["-t", templateId];
    IdWords(templateId);
    assert " " + Join(words, " ") == " " + path + (" " + Join(words[1..], " "));
  }

  /** The command joined with the words before it. */
  lemma CommandWords(path: string, templateId: string, cwd: string)
    ensures Command(path, templateId, cwd) == Join(["pdfmonkey", "watch"] + WatchArgs(path, templateId, cwd), " ")
  {
    var base: seq<string> := ["pdfmonkey", "watch"];
    var args := WatchArgs(path, templateId, cwd);
    ArgsWords(path, templateId, cwd);
    BaseWords();
    if args == [] {
      assert base + args == base;
    } else {
      JoinAppend(base, args, " ");
      Regroup(WatchBase, " ", Join(args, " "));
    }
  }

  /** The base words, joined. */
  lemma BaseWords()
    ensures Join(["pdfmonkey", "watch"], " ") == WatchBase
  {
    var base: seq<string> := ["pdfmonkey", "watch"];
    assert base[1..] == ["watch"];
  }

  /** The key placeholder is two more words. */
  lemma KeyWords()
    ensures " " + "-k" + " " + "YOUR_API_KEY" == " -k YOUR_API_KEY"
  {
  }

  /** The printed text is the words of the command, the key placeholder last when no key is
      set in the environment. */
  lemma PrintWatchCommandWords(path: string, templateId: string, cwd: string, apiKeyEnv: Option<string>)
    ensures PrintWatchCommand(path, templateId, cwd, apiKeyEnv) ==
      Join(["pdfmonkey", "watch"] + WatchArgs(path, templateId, cwd) +
           (if Truthy(apiKeyEnv) then [] else ["-k", "YOUR_API_KEY"]), " ")
  {
    var words := ["pdfmonkey", "watch"] + WatchArgs(path, templateId, cwd);
    var command := Command(path, templateId, cwd);
    CommandWords(path, templateId, cwd);
    if Truthy(apiKeyEnv) {
      assert words + [] == words;
    } else {
      JoinTwoMore(words, "-k", "YOUR_API_KEY", " ");
      KeyWords();
      assert PrintWatchCommand(path, templateId, cwd, apiKeyEnv) == command + " -k YOUR_API_KEY";
    }
  }

  /** Two more words joined after any words. */
  lemma {:induction false} JoinTwoMore(words: seq<string>, a: string, b: string, sep: string)
    requires |words| >= 1
    ensures Join(words + [a, b], sep) == Join(words, sep) + (sep + a + sep + b)
  {
    var more: seq<string> := [a, b];
    assert Join(more, sep) == a + sep + b by {
      assert more[1..] == [b];
    }
    JoinAppend(words, more, sep);
  }

  /** Read back by the command line, the printed words name the folder and the template they
      were printed for: the default id of `template watch` is the same last path segment. */
  lemma WatchArgsRoundTrip(path: string, templateId: string, cwd: string)
    requires path == cwd || !TemplateInit.IsOption(path)
    ensures var parsed := TemplateInit.ParseWatchArgs(WatchArgs(path, templateId, cwd), cwd);
      parsed.Some? && parsed.value.0 == path &&
      TemplateWatch.DefaultTemplateId(path, parsed.value.1) == templateId
  {
    WatchArgsParse(path, templateId, cwd);
  }

  /** The printed words read back as the folder, with `-t id` exactly when the last segment
      is not already the id. */
  lemma WatchArgsParse(path: string, templateId: string, cwd: string)
    requires path == cwd || !TemplateInit.IsOption(path)
    ensures TemplateInit.ParseWatchArgs(WatchArgs(path, templateId, cwd), cwd) ==
      Some((path, if LastSegment(path) == templateId then None else Some(templateId)))
  {
    var args := WatchArgs(path, templateId, cwd);
    if path == cwd {
      CwdArgsParse(path, templateId);
    } else if LastSegment(path) == templateId {
      assert args == [path];
    } else {
      assert args == [path, "-t", templateId];
    }
  }

  /** In the current folder only `-t id` can be printed. */
  lemma CwdArgsParse(cwd: string, templateId: string)
    ensures TemplateInit.ParseWatchArgs(WatchArgs(cwd, templateId, cwd), cwd) ==
      Some((cwd, if LastSegment(cwd) == templateId then None else Some(templateId)))
  {
    if LastSegment(cwd) == templateId {
      assert WatchArgs(cwd, templateId, cwd) == [];
    } else {
      assert WatchArgs(cwd, templateId, cwd) == ["-t", templateId];
    }
  }

  /** Where the older `init` ends: initialized with the command printed, cancelled (exit 0), or
      thrown by `avoidConflicts` listing a path that names a file. */
  datatype Outcome = Done(path: string, watchCommand: string) | Canceled | Threw(error: Failure)

  datatype LegacyState = LegacyState(outcome: Outcome, asked: seq<Question>, files: map<string, string>, dirs: set<string>)

  /** The path menu is answered with one of its options. */
  predicate PathAnswerValid(path: Option<string>, cwd: string, templateId: string, answers: Answers) {
    path.None? ==> ValidPathChoice(PathOptions(cwd, templateId), answers.path)
  }

  /** `initCommand(templateId, path, { apiKey, edit })` on the file system `files`/`dirs`. */
  function InitSpec(files: map<string, string>, dirs: set<string>, templateId: string, path: Option<string>,
                    cwd: string, answers: Answers, apiKey: string, api: Request -> ApiReply<Template>,
                    apiKeyEnv: Option<string>): (s: LegacyState)
    requires PathAnswerValid(path, cwd, templateId, answers)
  {
    match GetTemplate(templateId, apiKey, api).template
    case None => LegacyState(Canceled, [], files, dirs)
    case Some(t) =>
      var ask := if path.Some? then PathAnswer(path, []) else ChoosePath(PathOptions(cwd, templateId), answers.path, answers.customPath);
      if ask.path.None? then LegacyState(Canceled, ask.asked, files, dirs)
      else
        var p := ask.path.value;
        var dirs1 := DirsAfterEnsure(files, dirs, p);
        var gate := AvoidConflicts(files, dirs1, p, answers.overwrite);
        if gate.Unlisted? then LegacyState(Outcome.Threw(gate.error), ask.asked, files, dirs1)
        else
          var asked := ask.asked + if gate == Proceed(false) then [] else [Confirm];
          if gate == Abort then LegacyState(Canceled, asked, files, dirs1)
          else LegacyState(Done(p, PrintWatchCommand(p, templateId, cwd, apiKeyEnv)), asked,
                           WithTemplateContent(files, p, t), dirs1)
  }

  /** `initCommand(templateId, path, { apiKey, edit })`, step by step on the file system. */
  method InitCommand(fs: FileSystem, templateId: string, path: Option<string>, cwd: string, answers: Answers,
                     apiKey: string, api: Request -> ApiReply<Template>, apiKeyEnv: Option<string>)
    returns (outcome: Outcome, asked: seq<Question>)
    requires PathAnswerValid(path, cwd, templateId, answers)
    modifies fs
    ensures var s := InitSpec(old(fs.files), old(fs.dirs), templateId, path, cwd, answers, apiKey, api, apiKeyEnv);
      outcome == s.outcome && asked == s.asked && fs.files == s.files && fs.dirs == s.dirs
  {
    var template := GetTemplate(templateId, apiKey, api).template;
    if template.None? {
      return Canceled, [];
    }
    asked := [];
    var p: string;
    if path.Some? {
      p := path.value;
    } else {
      var ask := ChoosePath(PathOptions(cwd, templateId), answers.path, answers.customPath);
      asked := ask.asked;
      if ask.path.None? {
        return Canceled, asked;
      }
      p := ask.path.value;
    }
    fs.EnsurePathPresent(p);
    var gate := AvoidConflicts(fs.files, fs.dirs, p, answers.overwrite);
    if gate.Unlisted? {
      return Outcome.Threw(gate.error), asked;
    }
    if gate != Proceed(false) {
      asked := asked + [Confirm];
    }
    if gate == Abort {
      return Canceled, asked;
    }
    var written := fs.WriteTemplateContent(template.value, p);
    outcome := Done(p, PrintWatchCommand(p, templateId, cwd, apiKeyEnv));
  }

  /** A template that cannot be fetched cancels before any question and any change. */
  lemma NullTemplateCancelsFirst(files: map<string, string>, dirs: set<string>, templateId: string,
                                 path: Option<string>, cwd: string, answers: Answers, apiKey: string,
                                 api: Request -> ApiReply<Template>, apiKeyEnv: Option<string>)
    requires PathAnswerValid(path, cwd, templateId, answers)
    ensures var s := InitSpec(files, dirs, templateId, path, cwd, answers, apiKey, api, apiKeyEnv);
      (s.asked == [] && s.files == files && s.dirs == dirs && s.outcome == Canceled) <==>
      GetTemplate(templateId, apiKey, api).template.None?
  {
    var s := InitSpec(files, dirs, templateId, path, cwd, answers, apiKey, api, apiKeyEnv);
    if GetTemplate(templateId, apiKey, api).template.Some? && path.None? {
      assert |s.asked| >= 1;
    }
  }

  /** The older command writes the three drafts into the folder and nothing else: the
      folder's metadata, if any, is left as it was, so a folder it creates has none. */
  lemma LegacyWritesNoMetadata(files: map<string, string>, dirs: set<string>, templateId: string,
                               path: Option<string>, cwd: string, answers: Answers, apiKey: string,
                               api: Request -> ApiReply<Template>, apiKeyEnv: Option<string>)
    requires PathAnswerValid(path, cwd, templateId, answers)
    ensures var s := InitSpec(files, dirs, templateId, path, cwd, answers, apiKey, api, apiKeyEnv);
      s.outcome.Done? ==>
        var p := s.outcome.path;
        (MetadataKey(p) in s.files <==> MetadataKey(p) in files) &&
        GetResourceMetadata(s.files, p) == GetResourceMetadata(files, p)
  {
    var s := InitSpec(files, dirs, templateId, path, cwd, answers, apiKey, api, apiKeyEnv);
    if s.outcome.Done? {
      var p := s.outcome.path;
      FilePathInjective(p, MetadataFile, "body.html.liquid");
      FilePathInjective(p, MetadataFile, "styles.scss");
      FilePathInjective(p, MetadataFile, "sample_data.json");
      assert s.files == WithTemplateContent(files, p, GetTemplate(templateId, apiKey, api).template.value);
    }
  }
}
