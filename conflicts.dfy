/** `src/utils/conflicts-handling.js`: before a watch starts, the remote content of each
    tracked file is compared with the local file, and on a difference the user keeps the
    remote or the local version, or looks at a diff and is asked again. */
module ConflictsHandling {
  import opened Wrappers
  import opened Files
  import opened Prompts

  /** The options of the "What content do you want to keep?" select. */
  datatype Choice = KeepRemote | KeepLocal | SeeDiff

  /** How `handleConflict` ends: its promise resolves with a boolean, it throws,
      or it is still waiting for an answer. */
  datatype Outcome = Resolved(kept: bool) | Threw(error: Failure) | Waiting

  /** The outcome, the files afterwards and how many answers were consumed. */
  datatype Run = Run(outcome: Outcome, files: map<string, string>, used: nat)

  /** `.remote-${filename}`, the temporary copy the diff is shown against. */
  function RemoteCopyName(filename: string): string {
    ".remote-" + filename
  }

  /** The local file and its temporary remote copy are two different files. */
  lemma RemoteCopyIsAnotherFile(path: string, filename: string)
    ensures FilePath(path, RemoteCopyName(filename)) != FilePath(path, filename)
  {
    assert |FilePath(path, RemoteCopyName(filename))| == |FilePath(path, filename)| + 8;
  }

  /** The files after `showDiff`: the remote copy is written, shown, then unlinked in `finally`. */
  function AfterShowDiff(files: map<string, string>, path: string, filename: string): (r: map<string, string>)
    ensures FilePath(path, RemoteCopyName(filename)) !in r
    ensures forall k :: k != FilePath(path, RemoteCopyName(filename)) ==> (k in r <==> k in files)
    ensures forall k :: k in r ==> r[k] == files[k]
  {
    files - {FilePath(path, RemoteCopyName(filename))}
  }

  /** The `while (true)` loop of `handleConflict` over the answers the user gives. */
  function PromptLoop(files: map<string, string>, remote: Option<string>, path: string, filename: string,
                      answers: seq<Answer<Choice>>): (r: Run)
    // it stops at the first answer that is not "see what changed", or waits forever
    ensures r.used <= |answers|
    ensures r.outcome == Waiting <==> forall i :: 0 <= i < |answers| ==> answers[i] == Picked(SeeDiff)
    ensures r.outcome != Waiting ==>
      r.used >= 1 && answers[r.used - 1] != Picked(SeeDiff) &&
      forall i :: 0 <= i < r.used - 1 ==> answers[i] == Picked(SeeDiff)
    // cancel resolves with false, remote and local with true
    ensures r.outcome != Waiting ==> r.outcome == Resolved(answers[r.used - 1] != Cancelled)
    // only "remote" writes the local file, and it writes the remote content
    ensures r.outcome != Waiting && answers[r.used - 1] == Picked(KeepRemote) ==>
      r.files == AfterDiffs(files, path, filename, r.used - 1)[FilePath(path, filename) := remote.GetOr("")]
    ensures r.outcome == Waiting || answers[r.used - 1] != Picked(KeepRemote) ==>
      r.files == AfterDiffs(files, path, filename, if r.outcome == Waiting then |answers| else r.used - 1)
    decreases |answers|
  {
    if answers == [] then Run(Waiting, files, 0)
    else match answers[0]
      case Cancelled => Run(Resolved(false), files, 1)
      case Picked(KeepLocal) => Run(Resolved(true), files, 1)
      case Picked(KeepRemote) => Run(Resolved(true), files[FilePath(path, filename) := remote.GetOr("")], 1)
      case Picked(SeeDiff) =>
        var rest := PromptLoop(AfterShowDiff(files, path, filename), remote, path, filename, answers[1..]);
        Run(rest.outcome, rest.files, rest.used + 1)
  }

  /** The files after `count` diffs were shown: the remote copy is gone once at least one was. */
  function AfterDiffs(files: map<string, string>, path: string, filename: string, count: nat): map<string, string> {
    if count == 0 then files else AfterShowDiff(files, path, filename)
  }

  /** `handleConflict(remoteData, remoteUpdatedAt, path, filename)` with the answers the user gives.
      A missing local file makes `readFile` throw; equal contents (`??` `""` on both sides) need no question. */
  function HandleConflictSpec(files: map<string, string>, remote: Option<string>, path: string, filename: string,
                              answers: seq<Answer<Choice>>): Run
  {
    match Read(files, path, filename)
    case Err(e) => Run(Threw(e), files, 0)
    case Ok(local) =>
      if remote.GetOr("") == local then Run(Resolved(true), files, 0)
      else PromptLoop(files, remote, path, filename, answers)
  }

  /** `handleConflict` resolves with `true` only when the contents already agreed, or the user
      kept one side; the local file then holds the remote content exactly when that side was
      remote. It resolves with `false` only on cancel, with the local file untouched. */
  lemma HandleConflictResolution(files: map<string, string>, remote: Option<string>, path: string,
                                 filename: string, answers: seq<Answer<Choice>>)
    ensures var r := HandleConflictSpec(files, remote, path, filename, answers);
      var key := FilePath(path, filename);
      (r.outcome == Resolved(true) && r.used == 0 <==> key in files && files[key] == remote.GetOr("")) &&
      (r.outcome.Resolved? && r.used > 0 ==>
        key in r.files && (answers[r.used - 1] == Picked(KeepRemote) <==> r.files[key] == remote.GetOr(""))) &&
      (r.outcome == Resolved(false) ==> key in r.files && r.files[key] == files[key]) &&
      (r.outcome.Threw? <==> key !in files)
  {
    var key := FilePath(path, filename);
    RemoteCopyIsAnotherFile(path, filename);
    var r := HandleConflictSpec(files, remote, path, filename, answers);
    if key in files && files[key] != remote.GetOr("") {
      assert r == PromptLoop(files, remote, path, filename, answers);
    }
  }

  /** Once the remote content was kept, the conflict is settled: checking again asks nothing. */
  lemma KeptRemoteIsSettled(files: map<string, string>, remote: Option<string>, path: string,
                            filename: string, answers: seq<Answer<Choice>>, again: seq<Answer<Choice>>)
    requires var r := HandleConflictSpec(files, remote, path, filename, answers);
      r.outcome == Resolved(true) && r.used > 0 && answers[r.used - 1] == Picked(KeepRemote)
    ensures var r := HandleConflictSpec(files, remote, path, filename, answers);
      HandleConflictSpec(r.files, remote, path, filename, again) == Run(Resolved(true), r.files, 0)
  {
    HandleConflictResolution(files, remote, path, filename, answers);
  }

  /** However many diffs are looked at, no file but the local one changes, and the
      remote copy never outlives a diff. */
  lemma OnlyTheLocalFileChanges(files: map<string, string>, remote: Option<string>, path: string,
                                filename: string, answers: seq<Answer<Choice>>, k: string)
    requires k != FilePath(path, filename) && k != FilePath(path, RemoteCopyName(filename))
    ensures var r := HandleConflictSpec(files, remote, path, filename, answers);
      (k in r.files <==> k in files) && (k in files ==> r.files[k] == files[k])
  {
  }

  /** `showDiff(path, filename, remoteContent)`: the external diff tool and pager only read.
      A failed write is caught and logged; the `unlinkSync` of `finally` then throws when there
      is no remote copy to remove. */
  method ShowDiff(fs: FileSystem, path: string, filename: string, remote: Option<string>) returns (r: Result<()>)
    modifies fs
    ensures path in old(fs.dirs) ==> r == Ok(()) && fs.files == AfterShowDiff(old(fs.files), path, filename)
    ensures path !in old(fs.dirs) ==>
      var copy := FilePath(path, RemoteCopyName(filename));
      (copy in old(fs.files) ==> r == Ok(()) && fs.files == AfterShowDiff(old(fs.files), path, filename)) &&
      (copy !in old(fs.files) ==> r == Err(FileNotFound(copy)) && fs.files == old(fs.files))
    ensures fs.dirs == old(fs.dirs)
  {
    var written := fs.WriteFile(path, RemoteCopyName(filename), remote);
    r := fs.Unlink(path, RemoteCopyName(filename));
  }

  /** `handleConflict(remoteData, remoteUpdatedAt, path, filename)` on a consistent file system:
      once the local file was read, its folder exists, so the writes of the loop succeed. */
  method HandleConflict(fs: FileSystem, prompter: Prompter<Choice>, remote: Option<string>, path: string, filename: string)
    returns (outcome: Outcome)
    requires Consistent(fs.files, fs.dirs) && '/' !in filename
    modifies fs, prompter
    ensures var run := HandleConflictSpec(old(fs.files), remote, path, filename, old(prompter.script));
      outcome == run.outcome && fs.files == run.files && prompter.script == old(prompter.script)[run.used..]
    ensures fs.dirs == old(fs.dirs)
  {
    var local := Read(fs.files, path, filename);
    if local.Err? {
      return Threw(local.error);
    }
    ReadFileFolderExists(fs.files, fs.dirs, path, filename);
    if remote.GetOr("") == local.value {
      return Resolved(true);
    }
    ghost var run := PromptLoop(fs.files, remote, path, filename, prompter.script);
    ghost var consumed := 0;
    while true
      invariant consumed <= |old(prompter.script)| && prompter.script == old(prompter.script)[consumed..]
      invariant var cur := PromptLoop(fs.files, remote, path, filename, prompter.script);
        cur.outcome == run.outcome && cur.files == run.files && consumed + cur.used == run.used
      invariant fs.dirs == old(fs.dirs) && path in fs.dirs
      decreases |prompter.script|
    {
      ghost var before := prompter.script;
      var choice := prompter.Ask();
      if choice.None? {
        return Waiting;
      }
      consumed := consumed + 1;
      match choice.value
      case Cancelled =>
        return Resolved(false);
      case Picked(KeepLocal) =>
        return Resolved(true);
      case Picked(KeepRemote) =>
        var written := fs.WriteFile(path, filename, remote);
        return Resolved(true);
      case Picked(SeeDiff) =>
        var shown := ShowDiff(fs, path, filename, remote);
        assert prompter.script == before[1..];
    }
  }
}
