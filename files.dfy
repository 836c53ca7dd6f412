/** `src/utils/files.js`: the local file system helpers.

    The file system is a `FileSystem` object: a map from `path + "/" + name`
    to file contents, and the set of directories that exist. Functions over
    the map and set are the pure part of the module (reads, id resolution,
    metadata validation); the methods are the writes. */
module Files {
  import opened Wrappers
  import opened Text
  import Json
  import Constants
  import opened Api

  const MetadataFile: string := ".pdfmonkey.json"

  /** `${path}/${filename}` */
  function FilePath(path: string, filename: string): string {
    path + "/" + filename
  }

  /** Two different names in one folder are two different files. */
  lemma FilePathInjective(path: string, a: string, b: string)
    requires a != b
    ensures FilePath(path, a) != FilePath(path, b)
  {
    assert FilePath(path, a)[|path| + 1..] == a;
    assert FilePath(path, b)[|path| + 1..] == b;
  }

  /** `readFile(path, filename)`: the contents, or ENOENT when the file is missing. */
  function Read(files: map<string, string>, path: string, filename: string): (r: Result<string>)
    ensures r.Ok? <==> FilePath(path, filename) in files
    ensures r.Ok? ==> r.value == files[FilePath(path, filename)]
    ensures r.Err? ==> r.error == FileNotFound(FilePath(path, filename))
  {
    var key := FilePath(path, filename);
    if key in files then Ok(files[key]) else Err(FileNotFound(key))
  }

  /** The folder a file key lies in: everything before its last `/`. */
  function Folder(k: string): string
    decreases |k|
  {
    if k == [] then []
    else if k[|k| - 1] == '/' then k[..|k| - 1]
    else Folder(k[..|k| - 1])
  }

  /** A file named without `/` lies in the folder it is written to. */
  lemma {:induction false} FolderOfFilePath(path: string, name: string)
    requires '/' !in name
    ensures Folder(FilePath(path, name)) == path
    decreases |name|
  {
    if name == [] {
      assert FilePath(path, name)[..|FilePath(path, name)| - 1] == path;
    } else {
      FolderOfFilePath(path, name[..|name| - 1]);
      assert FilePath(path, name)[..|FilePath(path, name)| - 1] == FilePath(path, name[..|name| - 1]);
    }
  }

  /** As on a real file system, every file lies in a folder that exists. */
  predicate Consistent(files: map<string, string>, dirs: set<string>) {
    forall k :: k in files ==> Folder(k) in dirs
  }

  /** A file that was read lies in an existing folder. */
  lemma ReadFileFolderExists(files: map<string, string>, dirs: set<string>, path: string, filename: string)
    requires Consistent(files, dirs) && '/' !in filename && FilePath(path, filename) in files
    ensures path in dirs
  {
    FolderOfFilePath(path, filename);
  }

  /** Writing a file into an existing folder keeps every file in an existing folder. */
  lemma WriteKeepsConsistent(files: map<string, string>, dirs: set<string>, path: string, filename: string, data: string)
    requires Consistent(files, dirs) && path in dirs && '/' !in filename
    ensures Consistent(files[FilePath(path, filename) := data], dirs)
  {
    FolderOfFilePath(path, filename);
  }

  /** `fs.existsSync(p)` */
  predicate Exists(files: map<string, string>, dirs: set<string>, p: string) {
    p in dirs || p in files
  }

  /** `fs.readdirSync(path).length > 0`: something lives under `path`. */
  predicate HasEntries(files: map<string, string>, dirs: set<string>, path: string) {
    (exists k :: k in files && StartsWith(k, path + "/")) ||
    (exists d :: d in dirs && StartsWith(d, path + "/"))
  }

  // ---------------------------------------------------------------- tracked files

  /** The remote fields `writeTemplateContent` writes, each with its local file, in writing order. */
  function TemplateFiles(): seq<(string, string)> {
    [("body_draft", "body.html.liquid"), ("scss_style_draft", "styles.scss"), ("sample_data_draft", "sample_data.json")]
  }

  /** The file map after `writeTemplateContent(template, path)`: the three drafts, `null` as
      an empty file, in their three files; every other file as it was. */
  function WithTemplateContent(files: map<string, string>, path: string, t: Template): (r: map<string, string>)
    ensures FilePath(path, "body.html.liquid") in r && FilePath(path, "styles.scss") in r
    ensures FilePath(path, "sample_data.json") in r
    ensures r[FilePath(path, "body.html.liquid")] == t.body_draft.GetOr("")
    ensures r[FilePath(path, "styles.scss")] == t.scss_style_draft.GetOr("")
    ensures r[FilePath(path, "sample_data.json")] == t.sample_data_draft.GetOr("")
    ensures forall k :: k in files ==> k in r
    ensures forall k :: k in r && !(k in files && r[k] == files[k]) ==>
      k in {FilePath(path, "body.html.liquid"), FilePath(path, "styles.scss"), FilePath(path, "sample_data.json")}
  {
    FilePathInjective(path, "body.html.liquid", "styles.scss");
    FilePathInjective(path, "body.html.liquid", "sample_data.json");
    FilePathInjective(path, "styles.scss", "sample_data.json");
    files[FilePath(path, "body.html.liquid") := t.body_draft.GetOr("")]
         [FilePath(path, "styles.scss") := t.scss_style_draft.GetOr("")]
         [FilePath(path, "sample_data.json") := t.sample_data_draft.GetOr("")]
  }

  /** The remote field `writeSnippetContent` writes, with its local file. */
  function SnippetFiles(): seq<(string, string)> {
    [("code", "code.liquid")]
  }

  /** A field and its file are known to both display tables, under the same name. */
  predicate ShownAlike(pair: (string, string)) {
    pair.0 in Constants.AttributeNames() && pair.1 in Constants.FileToAttributeName() &&
    Constants.AttributeNames()[pair.0] == Constants.FileToAttributeName()[pair.1]
  }

  /** Every field the content writers write is known to both display tables,
      and both tables show it under the same name. */
  lemma TrackedFilesAgree()
    ensures forall i :: 0 <= i < |TemplateFiles() + SnippetFiles()| ==> ShownAlike((TemplateFiles() + SnippetFiles())[i])
  {
    var all := TemplateFiles() + SnippetFiles();
    assert all == [("body_draft", "body.html.liquid"), ("scss_style_draft", "styles.scss"),
                   ("sample_data_draft", "sample_data.json"), ("code", "code.liquid")];
    BodyShownAlike();
    StylesShownAlike();
    SampleDataShownAlike();
    CodeShownAlike();
  }

  lemma BodyShownAlike()
    ensures ShownAlike(("body_draft", "body.html.liquid"))
  {
    assert Constants.AttributeNames()["body_draft"] == "HTML";
  }

  lemma StylesShownAlike()
    ensures ShownAlike(("scss_style_draft", "styles.scss"))
  {
    assert Constants.AttributeNames()["scss_style_draft"] == "CSS";
  }

  lemma SampleDataShownAlike()
    ensures ShownAlike(("sample_data_draft", "sample_data.json"))
  {
    assert Constants.AttributeNames()["sample_data_draft"] == "Sample Data";
  }

  lemma CodeShownAlike()
    ensures ShownAlike(("code", "code.liquid"))
  {
    assert Constants.AttributeNames()["code"] == "Code";
  }

  // ---------------------------------------------------------------- identifiers

  /** A character the `[a-z0-9]` class matches under the `i` flag. */
  predicate IsIdChar(c: char) {
    'a' <= c <= 'z' || 'A' <= c <= 'Z' || '0' <= c <= '9'
  }

  predicate IsDashPosition(i: int) {
    i == 8 || i == 13 || i == 18 || i == 23
  }

  /** 36 characters in the 8-4-4-4-12 layout of `UUID_PATTERN`. */
  predicate UuidShape(t: string) {
    |t| == 36 &&
    forall i :: 0 <= i < 36 ==> if IsDashPosition(i) then t[i] == '-' else IsIdChar(t[i])
  }

  /** The 36 characters of `s` from `i` on match `UUID_PATTERN`. */
  predicate UuidAt(s: string, i: int) {
    0 <= i && i + 36 <= |s| && UuidShape(s[i..i + 36])
  }

  /** Where the first match of `UUID_PATTERN` at or after `from` starts. */
  function FindUuid(s: string, from: nat): (r: Option<nat>)
    ensures r.Some? ==> from <= r.value && UuidAt(s, r.value)
    ensures r.Some? ==> forall i :: from <= i < r.value ==> !UuidAt(s, i)
    ensures r.None? ==> forall i :: from <= i ==> !UuidAt(s, i)
    decreases |s| - from
  {
    if from + 36 > |s| then None
    else if UuidShape(s[from..from + 36]) then Some(from)
    else FindUuid(s, from + 1)
  }

  /** `id.match(UUID_PATTERN)` is truthy: the pattern is not anchored, so any window may match. */
  predicate MatchesUuid(s: string)
    ensures MatchesUuid(s) <==> exists i :: UuidAt(s, i)
  {
    FindUuid(s, 0).Some?
  }

  /** `s.replace(/\//g, "-")`: every `/` becomes `-`, every other character stays. */
  function ReplaceSlashes(s: string): (r: string)
    ensures |r| == |s|
    ensures '/' !in r
    ensures forall i :: 0 <= i < |s| && s[i] == '/' ==> r[i] == '-'
    ensures forall i :: 0 <= i < |s| && s[i] != '/' ==> r[i] == s[i]
    decreases |s|
  {
    if s == [] then []
    else [if s[0] == '/' then '-' else s[0]] + ReplaceSlashes(s[1..])
  }

  /** `identifier?.replace(/\//g, "-")` */
  function SanitizeIdentifier(identifier: Option<string>): (r: Option<string>)
    ensures r.None? <==> identifier.None?
    ensures r.Some? ==> |r.value| == |identifier.value| && '/' !in r.value
    ensures r.Some? ==> forall i :: 0 <= i < |r.value| && identifier.value[i] == '/' ==> r.value[i] == '-'
    ensures r.Some? ==> forall i :: 0 <= i < |r.value| && identifier.value[i] != '/' ==> r.value[i] == identifier.value[i]
  {
    match identifier
    case None => None
    case Some(s) => Some(ReplaceSlashes(s))
  }

  /** Sanitizing twice is sanitizing once. */
  lemma {:induction false} ReplaceSlashesIdempotent(s: string)
    ensures ReplaceSlashes(ReplaceSlashes(s)) == ReplaceSlashes(s)
    decreases |s|
  {
    if s != [] {
      ReplaceSlashesIdempotent(s[1..]);
      assert ReplaceSlashes(s)[1..] == ReplaceSlashes(s[1..]);
    }
  }

  lemma SanitizeIdentifierIdempotent(identifier: Option<string>)
    ensures SanitizeIdentifier(SanitizeIdentifier(identifier)) == SanitizeIdentifier(identifier)
  {
    if identifier.Some? {
      ReplaceSlashesIdempotent(identifier.value);
    }
  }

  // ---------------------------------------------------------------- metadata

  function MetadataKey(path: string): string {
    FilePath(path, MetadataFile)
  }

  /** Writing the metadata into an existing folder keeps every file in an existing folder. */
  lemma MetadataWriteKeepsConsistent(files: map<string, string>, dirs: set<string>, path: string, data: string)
    requires Consistent(files, dirs) && path in dirs
    ensures Consistent(files[MetadataKey(path) := data], dirs)
  {
    assert MetadataFile[0] != '/' && MetadataFile[1..] == "pdfmonkey.json";
    WriteKeepsConsistent(files, dirs, path, MetadataFile, data);
  }

  /** `getResourceMetadata(path)`: the parsed metadata when the file exists, parses and has
      a truthy `type` and `id`; `null` otherwise (a parse error is caught and logged). */
  function GetResourceMetadata(files: map<string, string>, path: string): (r: Option<Json.Metadata>)
    ensures r.Some? ==> MetadataKey(path) in files && Json.Parse(files[MetadataKey(path)]) == r
    ensures r.Some? ==> Truthy(r.value.resourceType) && Truthy(r.value.id)
    ensures (MetadataKey(path) in files && Json.Parse(files[MetadataKey(path)]).Some? &&
             Truthy(Json.Parse(files[MetadataKey(path)]).value.resourceType) &&
             Truthy(Json.Parse(files[MetadataKey(path)]).value.id)) ==> r.Some?
  {
    var key := MetadataKey(path);
    if key !in files then None
    else
      match Json.Parse(files[key])
      case None => None
      case Some(m) => if Truthy(m.resourceType) && Truthy(m.id) then Some(m) else None
  }

  /** The id `getResourceId` returns: the stored `id` when the metadata file exists
      (JSON.parse throws on a malformed file), else `resourceId ?? basename(path)`. */
  function ResolveResourceId(files: map<string, string>, resourceId: Option<string>, path: string): (r: Result<Option<string>>)
    ensures MetadataKey(path) !in files ==> r == Ok(Some(resourceId.GetOr(Basename(path))))
    ensures MetadataKey(path) in files ==>
      (r.Err? <==> Json.Parse(files[MetadataKey(path)]).None?) &&
      (r.Ok? ==> r.value == Json.Parse(files[MetadataKey(path)]).value.id)
  {
    var key := MetadataKey(path);
    if key in files then
      match Json.Parse(files[key])
      case None => Err(InvalidJson(key))
      case Some(m) => Ok(m.id)
    else Ok(Some(resourceId.GetOr(Basename(path))))
  }

  /** `getResourceId` writes metadata only when there is none yet and the chosen id looks like a UUID. */
  predicate WritesMetadata(files: map<string, string>, resourceId: Option<string>, path: string) {
    MetadataKey(path) !in files && MatchesUuid(resourceId.GetOr(Basename(path)))
  }

  /** `getResourceId` throws when it writes metadata into a folder that does not exist. */
  predicate StoreFails(files: map<string, string>, dirs: set<string>, resourceId: Option<string>, path: string) {
    WritesMetadata(files, resourceId, path) && path !in dirs
  }

  /** The files after `getResourceId` as written: it stores the `resourceId` ARGUMENT, which is
      `undefined` when the id came from the folder name. */
  function FilesAfterGetResourceIdAsWritten(files: map<string, string>, resourceType: string,
                                            resourceId: Option<string>, path: string): map<string, string> {
    if WritesMetadata(files, resourceId, path)
    then files[MetadataKey(path) := Json.Stringify(Json.Metadata(Some(resourceType), resourceId))]
    else files
  }

  /** The files after `getResourceId` corrected: it stores the id it resolved and returns. */
  function FilesAfterGetResourceId(files: map<string, string>, resourceType: string,
                                   resourceId: Option<string>, path: string): map<string, string> {
    if WritesMetadata(files, resourceId, path)
    then files[MetadataKey(path) := Json.Stringify(Json.Metadata(Some(resourceType), Some(resourceId.GetOr(Basename(path)))))]
    else files
  }

  /** As written, a folder named after a UUID loses its id: the first call (no `-i` id, no
      metadata yet) returns the folder name and stores metadata without an id, so every later
      call returns `undefined`. */
  lemma GetResourceIdAsWrittenForgetsFolderId(files: map<string, string>, dir: string, name: string,
                                              resourceType: string, later: Option<string>)
    requires name != [] && '/' !in name && MatchesUuid(name)
    requires MetadataKey(dir + "/" + name) !in files
    ensures ResolveResourceId(files, None, dir + "/" + name) == Ok(Some(name))
    ensures ResolveResourceId(FilesAfterGetResourceIdAsWritten(files, resourceType, None, dir + "/" + name),
                              later, dir + "/" + name) == Ok(None)
  {
    BasenameOfChild(dir, name);
    Json.ParseStringify(Json.Metadata(Some(resourceType), None));
  }

  /** The UUID-named folder of the lemma above exists: `/work/0123abcd-4567-89ab-cdef-0123456789ab`. */
  lemma ExampleFolderIsUuidNamed()
    ensures var name := "0123abcd-4567-89ab-cdef-0123456789ab";
      name != [] && '/' !in name && MatchesUuid(name)
  {
    var name := "0123abcd-4567-89ab-cdef-0123456789ab";
    assert name[0..36] == name;
    assert UuidAt(name, 0);
  }

  /** Corrected, the id survives: once `getResourceId` has stored metadata, every later
      call returns the same id, whatever id argument it is given. */
  lemma GetResourceIdStable(files: map<string, string>, resourceType: string,
                            resourceId: Option<string>, path: string, later: Option<string>)
    requires WritesMetadata(files, resourceId, path)
    ensures ResolveResourceId(FilesAfterGetResourceId(files, resourceType, resourceId, path), later, path)
         == ResolveResourceId(files, resourceId, path)
  {
    Json.ParseStringify(Json.Metadata(Some(resourceType), Some(resourceId.GetOr(Basename(path)))));
  }

  /** Metadata written by `writeMetadata` with a non-empty type and id passes `getResourceMetadata`. */
  lemma WrittenMetadataIsValid(files: map<string, string>, path: string, resourceType: string, id: string)
    requires resourceType != "" && id != ""
    ensures var m := Json.Metadata(Some(resourceType), Some(id));
      GetResourceMetadata(files[MetadataKey(path) := Json.Stringify(m)], path) == Some(m)
  {
    Json.ParseStringify(Json.Metadata(Some(resourceType), Some(id)));
  }

  /** Metadata written by `getResourceId` as written, for a folder-name id, fails `getResourceMetadata`. */
  lemma MetadataWithoutIdIsRejected(files: map<string, string>, path: string, resourceType: string)
    ensures GetResourceMetadata(files[MetadataKey(path) := Json.Stringify(Json.Metadata(Some(resourceType), None))], path) == None
  {
    Json.ParseStringify(Json.Metadata(Some(resourceType), None));
  }

  // ---------------------------------------------------------------- directories

  /** `c` is `parent + "/" + name` for a non-empty `name` without `/`. */
  predicate IsChild(parent: string, c: string) {
    |c| > |parent| + 1 && c[..|parent|] == parent && c[|parent|] == '/' &&
    forall k :: |parent| < k < |c| ==> c[k] != '/'
  }

  /** The directories directly inside `p`. */
  function Children(dirs: set<string>, p: string): set<string> {
    set d | d in dirs && IsChild(p, d)
  }

  /** A path has one parent. */
  lemma ChildHasOneParent(a: string, b: string, c: string)
    requires IsChild(a, c) && IsChild(b, c)
    ensures a == b
  {
  }

  /** The parent directories `mkdir -p` creates on the way to `p`. */
  function Ancestors(p: string): set<string> {
    set i | 0 < i < |p| && p[i] == '/' :: p[..i]
  }

  /** The outcome of `avoidConflicts(path)`: `readdirSync` throws, or the folder may be used,
      or the user refused it. */
  datatype Gate = Unlisted(error: Failure) | Proceed(prompted: bool) | Abort

  /** `avoidConflicts(path)`: listing a path that is no folder throws; an empty folder passes
      without a question; otherwise only a confirmed `true` passes (`false` and cancel abort). */
  function AvoidConflicts(files: map<string, string>, dirs: set<string>, path: string, overwrite: Answer<bool>): (r: Gate)
    ensures r.Unlisted? <==> path !in dirs
    ensures r.Unlisted? ==> r.error == NoFolder(path)
    ensures path in dirs && !HasEntries(files, dirs, path) <==> r == Proceed(false)
    ensures r == Proceed(true) <==> path in dirs && HasEntries(files, dirs, path) && overwrite == Picked(true)
    ensures r == Abort <==> path in dirs && HasEntries(files, dirs, path) && overwrite != Picked(true)
  {
    if path !in dirs then Unlisted(NoFolder(path))
    else if !HasEntries(files, dirs, path) then Proceed(false)
    else if overwrite == Picked(true) then Proceed(true)
    else Abort
  }

  // ---------------------------------------------------------------- the file system

  class FileSystem {
    var files: map<string, string>
    var dirs: set<string>

    constructor (files: map<string, string>, dirs: set<string>)
      ensures this.files == files && this.dirs == dirs
    {
      this.files := files;
      this.dirs := dirs;
    }

    /** `writeFile(path, filename, data)`: `data ?? ""` replaces the file; nothing else changes.
        `writeFileSync` throws when the folder is missing or is a file. */
    method WriteFile(path: string, filename: string, data: Option<string>) returns (r: Result<()>)
      modifies this
      ensures path in old(dirs) ==> r == Ok(()) && files == old(files)[FilePath(path, filename) := data.GetOr("")]
      ensures path !in old(dirs) ==> r == Err(NoFolder(path)) && files == old(files)
      ensures dirs == old(dirs)
    {
      if path !in dirs {
        return Err(NoFolder(path));
      }
      files := files[FilePath(path, filename) := data.GetOr("")];
      r := Ok(());
    }

    /** `unlinkSync(`${path}/${filename}`)`: removes the file; a missing file throws ENOENT. */
    method Unlink(path: string, filename: string) returns (r: Result<()>)
      modifies this
      ensures FilePath(path, filename) in old(files) ==> r == Ok(()) && files == old(files) - {FilePath(path, filename)}
      ensures FilePath(path, filename) !in old(files) ==> r == Err(FileNotFound(FilePath(path, filename))) && files == old(files)
      ensures dirs == old(dirs)
    {
      if FilePath(path, filename) !in files {
        return Err(FileNotFound(FilePath(path, filename)));
      }
      files := files - {FilePath(path, filename)};
      r := Ok(());
    }

    /** `writeMetadata(type, id, path)` */
    method WriteMetadata(resourceType: string, id: Option<string>, path: string) returns (r: Result<()>)
      modifies this
      ensures path in old(dirs) ==>
        r == Ok(()) && files == old(files)[MetadataKey(path) := Json.Stringify(Json.Metadata(Some(resourceType), id))]
      ensures path !in old(dirs) ==> r == Err(NoFolder(path)) && files == old(files)
      ensures dirs == old(dirs)
    {
      r := WriteFile(path, MetadataFile, Some(Json.Stringify(Json.Metadata(Some(resourceType), id))));
    }

    /** `writeSnippetContent(snippet, path)`: only `code.liquid`. */
    method WriteSnippetContent(snippet: Snippet, path: string) returns (r: Result<()>)
      modifies this
      ensures path in old(dirs) ==> r == Ok(()) && files == old(files)[FilePath(path, "code.liquid") := snippet.code.GetOr("")]
      ensures path !in old(dirs) ==> r == Err(NoFolder(path)) && files == old(files)
      ensures dirs == old(dirs)
    {
      r := WriteFile(path, "code.liquid", snippet.code);
    }

    /** `writeTemplateContent(template, path)`: the three draft fields to their three files;
        into a missing folder the first write throws and nothing is written. */
    method WriteTemplateContent(template: Template, path: string) returns (r: Result<()>)
      modifies this
      ensures path in old(dirs) ==> r == Ok(()) && files == WithTemplateContent(old(files), path, template)
      ensures path !in old(dirs) ==> r == Err(NoFolder(path)) && files == old(files)
      ensures dirs == old(dirs)
    {
      r := WriteFile(path, "body.html.liquid", template.body_draft);
      if r.Err? {
        return;
      }
      r := WriteFile(path, "styles.scss", template.scss_style_draft);
      r := WriteFile(path, "sample_data.json", template.sample_data_draft);
    }

    /** `ensurePathPresent(path)`: `mkdir -p` only when nothing exists at `path`. */
    method EnsurePathPresent(path: string)
      modifies this
      ensures files == old(files)
      ensures old(Exists(files, dirs, path)) ==> dirs == old(dirs)
      ensures !old(Exists(files, dirs, path)) ==> dirs == old(dirs) + {path} + Ancestors(path)
    {
      if path in dirs || path in files {
        return;
      }
      dirs := dirs + {path} + Ancestors(path);
    }

    /** `getResourceId(type, resourceId, path)` as written (see the finding in README). */
    method GetResourceIdAsWritten(resourceType: string, resourceId: Option<string>, path: string)
      returns (r: Result<Option<string>>)
      modifies this
      ensures StoreFails(old(files), old(dirs), resourceId, path) ==> r == Err(NoFolder(path)) && files == old(files)
      ensures !StoreFails(old(files), old(dirs), resourceId, path) ==>
        r == ResolveResourceId(old(files), resourceId, path) &&
        files == FilesAfterGetResourceIdAsWritten(old(files), resourceType, resourceId, path)
      ensures dirs == old(dirs)
    {
      var key := MetadataKey(path);
      if key in files {
        match Json.Parse(files[key])
        case None => return Err(InvalidJson(key));
        case Some(m) => return Ok(m.id);
      }
      var id := resourceId.GetOr(Basename(path));
      if MatchesUuid(id) {
        var written := WriteMetadata(resourceType, resourceId, path);
        if written.Err? {
          return Err(written.error);
        }
      }
      return Ok(Some(id));
    }

    /** `getResourceId(type, resourceId, path)`, storing the id it resolved. */
    method GetResourceId(resourceType: string, resourceId: Option<string>, path: string)
      returns (r: Result<Option<string>>)
      modifies this
      ensures StoreFails(old(files), old(dirs), resourceId, path) ==> r == Err(NoFolder(path)) && files == old(files)
      ensures !StoreFails(old(files), old(dirs), resourceId, path) ==>
        r == ResolveResourceId(old(files), resourceId, path) &&
        files == FilesAfterGetResourceId(old(files), resourceType, resourceId, path)
      ensures dirs == old(dirs)
    {
      var key := MetadataKey(path);
      if key in files {
        match Json.Parse(files[key])
        case None => return Err(InvalidJson(key));
        case Some(m) => return Ok(m.id);
      }
      var id := resourceId.GetOr(Basename(path));
      if MatchesUuid(id) {
        var written := WriteMetadata(resourceType, Some(id), path);
        if written.Err? {
          return Err(written.error);
        }
      }
      return Ok(Some(id));
    }
  }
}
