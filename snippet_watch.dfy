/** `src/commands/snippet/watch.js`: `pdfmonkey watch` for one snippet folder. The snippet id
    goes through `getResourceId`, the snippet is fetched, the remote `code` is reconciled with
    `code.liquid`, then every change sends the snippet and reports the result. `getSnippet`
    and `updateSnippet` are not defined by the sources; they are oracles here. */
module SnippetWatch {
  import opened Wrappers
  import opened Api
  import opened Files
  import opened Prompts
  import opened ConflictsHandling
  import opened Pdfmonkey
  import opened FilesWatching
  import Json

  /** How startup ends: `process.exit(code)`, an exception, a conflict prompt still waiting
      for its answer, or a running watch. */
  datatype Startup = Exited(code: nat) | Threw(error: Failure) | Waiting | Watching(snippetId: Option<string>, snippet: Snippet)

  /** `updateSnippet`'s reply: success, or the API's `errors`. */
  datatype SnippetUpdate = Synced | Rejected(errors: ApiErrors)

  /** How a finished conflict check ends startup. */
  function AfterConflicts(outcome: ConflictsHandling.Outcome, snippetId: Option<string>, snippet: Snippet): (r: Startup)
    ensures r.Watching? <==> outcome == Resolved(true)
    ensures r == Exited(0) <==> outcome == Resolved(false)
    ensures r.Watching? ==> r == Watching(snippetId, snippet)
  {
    match outcome
    case Resolved(kept) => if kept then Watching(snippetId, snippet) else Exited(0)
    case Threw(e) => Startup.Threw(e)
    case Waiting => Startup.Waiting
  }

  /** `new Date(snippet.updated_at).toISOString()` does not throw: the field is there and
      `validDate`, the date parser of the JavaScript runtime, reads it as a valid date. */
  predicate DateReadable(snippet: Snippet, validDate: string -> bool)
    ensures snippet.updated_at.None? ==> !DateReadable(snippet, validDate)
    ensures DateReadable(snippet, validDate) <==>
      exists d :: snippet.updated_at == Some(d) && validDate(d)
  {
    snippet.updated_at.Some? && validDate(snippet.updated_at.value)
  }

  /** `handleConflicts(snippet, path)`: the remote update time is converted first, and an
      invalid one throws before any file is read; then the remote `code` against `code.liquid`. */
  method HandleConflicts(fs: FileSystem, prompter: Prompter<Choice>, snippet: Snippet, path: string,
                         validDate: string -> bool) returns (outcome: ConflictsHandling.Outcome)
    requires Consistent(fs.files, fs.dirs)
    modifies fs, prompter
    ensures !DateReadable(snippet, validDate) ==>
      outcome == ConflictsHandling.Threw(RangeError("Invalid time value")) &&
      fs.files == old(fs.files) && prompter.script == old(prompter.script)
    ensures DateReadable(snippet, validDate) ==>
      var run := HandleConflictSpec(old(fs.files), snippet.code, path, "code.liquid", old(prompter.script));
      outcome == run.outcome && fs.files == run.files && prompter.script == old(prompter.script)[run.used..]
    ensures fs.dirs == old(fs.dirs)
  {
    if !DateReadable(snippet, validDate) {
      return ConflictsHandling.Threw(RangeError("Invalid time value"));
    }
    outcome := HandleConflict(fs, prompter, snippet.code, path, "code.liquid");
  }

  /** Storing the id keeps every file in an existing folder. */
  lemma StoreKeepsConsistent(files: map<string, string>, dirs: set<string>, snippetId: Option<string>, path: string)
    requires Consistent(files, dirs) && !StoreFails(files, dirs, snippetId, path)
    ensures Consistent(FilesAfterGetResourceIdAsWritten(files, "snippet", snippetId, path), dirs)
  {
    if WritesMetadata(files, snippetId, path) {
      MetadataWriteKeepsConsistent(files, dirs, path, Json.Stringify(Json.Metadata(Some("snippet"), snippetId)));
    }
  }

  /** The startup of `watchCommand(path, { apiKey, snippetId })`, with `getResourceId` as the
      source writes it. The id is resolved (and perhaps stored: writing into a missing folder
      throws) first; a failed fetch exits 1 before any question; an invalid update time throws;
      a refused conflict check exits 0. */
  method Start(fs: FileSystem, prompter: Prompter<Choice>, path: string, snippetId: Option<string>,
               getSnippet: Option<string> -> Option<Snippet>, validDate: string -> bool) returns (r: Startup)
    requires Consistent(fs.files, fs.dirs)
    modifies fs, prompter
    ensures StoreFails(old(fs.files), old(fs.dirs), snippetId, path) ==>
      r == Startup.Threw(NoFolder(path)) && fs.files == old(fs.files) && prompter.script == old(prompter.script)
    ensures !StoreFails(old(fs.files), old(fs.dirs), snippetId, path) ==>
      var id := ResolveResourceId(old(fs.files), snippetId, path);
      var stored := FilesAfterGetResourceIdAsWritten(old(fs.files), "snippet", snippetId, path);
      (id.Err? ==> r == Startup.Threw(id.error) && fs.files == old(fs.files) && prompter.script == old(prompter.script)) &&
      (id.Ok? && getSnippet(id.value).None? ==>
         r == Exited(1) && fs.files == stored && prompter.script == old(prompter.script)) &&
      (id.Ok? && getSnippet(id.value).Some? && !DateReadable(getSnippet(id.value).value, validDate) ==>
         r == Startup.Threw(RangeError("Invalid time value")) && fs.files == stored && prompter.script == old(prompter.script)) &&
      (id.Ok? && getSnippet(id.value).Some? && DateReadable(getSnippet(id.value).value, validDate) ==>
         var run := HandleConflictSpec(stored, getSnippet(id.value).value.code, path, "code.liquid", old(prompter.script));
         r == AfterConflicts(run.outcome, id.value, getSnippet(id.value).value) &&
         fs.files == run.files && prompter.script == old(prompter.script)[run.used..])
    ensures fs.dirs == old(fs.dirs)
  {
    ghost var files0 := fs.files;
    var id := fs.GetResourceIdAsWritten("snippet", snippetId, path);
    if id.Err? {
      return Startup.Threw(id.error);
    }
    StoreKeepsConsistent(files0, fs.dirs, snippetId, path);
    var snippet := getSnippet(id.value);
    if snippet.None? {
      return Exited(1);
    }
    var outcome := HandleConflicts(fs, prompter, snippet.value, path, validDate);
    r := AfterConflicts(outcome, id.value, snippet.value);
  }

  /** The watch callback: errors are formatted only on failure; no preview is refreshed. */
  function OnChange(update: Result<SnippetUpdate>): (r: Result<CallbackResult>)
    ensures r.Err? <==> update.Err?
    ensures r == Ok(Succeeded) <==> update == Ok(Synced)
    ensures update.Ok? && update.value.Rejected? ==> r == Ok(Failed(FormatErrors(update.value.errors)))
  {
    match update
    case Err(e) => Err(e)
    case Ok(Synced) => Ok(Succeeded)
    case Ok(Rejected(errors)) => Ok(Failed(FormatErrors(errors)))
  }
}
