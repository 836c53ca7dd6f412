# pdfmonkey-cli sync core, modelled in Dafny

`pdfmonkey-cli` keeps a local folder in step with one PDFMonkey template or snippet.

- **Setup.** `init` creates the folder. It writes the remote drafts into it, and writes a
  `.pdfmonkey.json` that names the resource.
- **Watch.** `watch` first settles any difference between the local and the remote content.
  Then every local change is sent back to the API. For a template, the preview URL is
  updated and the live preview refreshes.
- **Multi-folder watch.** The multi-folder `watch` admits at most one template and any
  number of snippets. `findPDFMonkeyFolders` finds the folders it can watch.

This project models that core and proves what it promises.

- **File system.** It is a `Files.FileSystem` object. Its `files` is a map from
  `path + "/" + name` to contents, and its `dirs` is the set of directories that exist.
  Every write is a method that changes those fields. The pure reads over them (reading a
  file, validating metadata, resolving an id) are functions.
- **Prompts.** A `select`, `text` or `confirm` question is answered by an `Answer<T>`:
  a picked value, or cancel. The conflict loop asks repeatedly, so it reads a scripted
  `Prompts.Prompter`. `cancelOperation()` is an exit with status 0.
- **HTTP and undefined functions.** Each HTTP call is an oracle function parameter.
  Some functions the commands import are defined nowhere in the repository: `getSnippet`,
  `updateSnippet`, `getTemplateCard(s)`, `getWorkspaces`, `getSnippets`, and the template
  `handleConflicts`. These are oracles too.

Modules follow the source files:

| module | source |
|---|---|
| `ConflictsHandling` | `src/utils/conflicts-handling.js` |
| `Files` | `src/utils/files.js` |
| `Constants` | `src/utils/constants.js` |
| `Pdfmonkey` | `src/utils/pdfmonkey.js` |
| `FilesWatching` | `src/utils/files-watching.js` |
| `ResourcesWatch` | `src/commands/resources/watch.js` |
| `TemplateWatch` | `src/commands/template/watch.js` |
| `SnippetWatch` | `src/commands/snippet/watch.js` |
| `SharedInit` | `src/commands/shared/init.js` |
| `TemplateInit` | `src/commands/template/init.js` |
| `SnippetInit` | `src/commands/snippet/init.js` |
| `LegacyInit` | `src/commands/init.js` |
| `WorkspacePicker` | `src/commands/shared/workspace.js` |

The other modules support these:

- `Selection`: the pick rule that the three pickers share.
- `Json`: the `.pdfmonkey.json` layout that `JSON.stringify(.., 2)` writes, and its parser.
- `Text`: `split("/").pop()`, `path.basename`, `join`.
- `Api`: the remote records.
- `Prompts`: the scripted answers.
- `Wrappers`: Option, Result, Answer.

## Model

| member | source | states |
|---|---|---|
| ConflictsHandling.HandleConflict | src/utils/conflicts-handling.js:17-62 | On a file system where every file lies in an existing folder, as on a real one, the method runs the prompt loop over the scripted answers. It ends with the outcome and the file map of `HandleConflictSpec`, and consumes exactly the answers that run used. It never creates a directory. |
| ConflictsHandling.PromptLoop | src/utils/conflicts-handling.js:33-61 | The loop stops at the first answer that is not "see what changed", or waits forever when every answer is one. Cancel resolves false; local and remote resolve true. Only "remote" writes the local file, and it writes `remoteData ?? ""`. |
| ConflictsHandling.HandleConflictResolution | src/utils/conflicts-handling.js:18-25 | It resolves true with no question exactly when the local file equals `remoteData ?? ""`. After a question, the local file holds the remote content exactly when "remote" was chosen. On cancel the local file is as it was. A missing local file throws; it is not read as "". |
| ConflictsHandling.KeptRemoteIsSettled | src/utils/conflicts-handling.js:23-25 | After "remote" was chosen, checking again with the same remote content resolves true without a question and without changing anything. |
| ConflictsHandling.OnlyTheLocalFileChanges | src/utils/conflicts-handling.js:52-60 | However many diffs are looked at, every file other than the local file and its `.remote-` copy keeps its presence and its content. |
| ConflictsHandling.AfterShowDiff | src/utils/conflicts-handling.js:80-87 | After a diff, the `.remote-<filename>` copy is gone and every other file is as it was. |
| ConflictsHandling.ShowDiff | src/utils/conflicts-handling.js:72-88 | In an existing folder, writing the remote copy and then unlinking it in `finally` leaves the map of `AfterShowDiff`. Where the folder is missing, the write throws (caught) and the unlink removes an old copy if there is one, or throws ENOENT with nothing changed. |
| ConflictsHandling.RemoteCopyIsAnotherFile | src/utils/conflicts-handling.js:76-78 | The temporary remote copy never overwrites the local file. |
| Prompts.Prompter.Ask | src/utils/conflicts-handling.js:34-41 | Each question consumes the next scripted answer. A script that has run out means the user never answers. |
| Constants.AttributeNamesTable | src/utils/constants.js:2-8 | The table has exactly the five API fields as keys and the five display names as values, and no two fields share a display name. |
| Constants.FileToAttributeNameTable | src/utils/constants.js:11-17 | The table has exactly the five local file names as keys, the same five display names as values, and is injective. |
| Constants.AttributeDisplayName | src/utils/pdfmonkey.js:58 | A known field gives its display name. An unknown field prints as "undefined". |
| Files.TrackedFilesAgree | src/utils/files.js:171-191 | Every field→file pair that the content writers use is in both tables, and both tables show it under the same name. |
| Files.Read | src/utils/files.js:130-132 | The read succeeds exactly when the file exists, and gives its contents. Otherwise it fails with ENOENT for that path. |
| Files.FileSystem.WriteFile | src/utils/files.js:141-143 | Into an existing folder, the method stores `data ?? ""` under `path/filename` and changes no other file. Into a folder that is missing or is a file, it throws ENOENT and changes nothing. No directory changes. |
| Files.FileSystem.Unlink | src/utils/conflicts-handling.js:86 | An existing file is removed and nothing else changes. A missing one throws ENOENT with nothing changed. |
| Files.FolderOfFilePath | src/utils/files.js:141-142 | A file written as `${path}/${filename}`, with no `/` in the name, lies in the folder `path`. |
| Files.ReadFileFolderExists | src/utils/files.js:130-132 | On a file system where every file lies in an existing folder, a file that can be read lies in a folder that exists. |
| Files.WriteKeepsConsistent | src/utils/files.js:141-143 | A write into an existing folder keeps every file inside an existing folder. |
| Files.FileSystem.WriteTemplateContent | src/utils/files.js:182-191 | Into an existing folder, the method leaves the map of `WithTemplateContent`. Into a missing folder, the first write throws ENOENT and nothing is written. |
| Files.WithTemplateContent | src/utils/files.js:182-191 | `body_draft`, `scss_style_draft` and `sample_data_draft` (null as "") are in `body.html.liquid`, `styles.scss` and `sample_data.json`. Every other file is kept and unchanged. |
| Files.FileSystem.WriteSnippetContent | src/utils/files.js:171-174 | Into an existing folder, only `code.liquid` is written, with `code ?? ""`. Into a missing folder, it throws ENOENT and nothing is written. |
| Files.FileSystem.WriteMetadata | src/utils/files.js:161-163 | Into an existing folder, the method writes `.pdfmonkey.json` with the JSON of `{ type, id }` and changes nothing else. Into a missing folder, it throws ENOENT and nothing is written. |
| Files.MetadataWriteKeepsConsistent | src/utils/files.js:161-163 | Writing the metadata into an existing folder keeps every file inside an existing folder. |
| Files.FileSystem.EnsurePathPresent | src/utils/files.js:39-46 | Nothing changes when something exists at the path. Otherwise the path and its ancestors become directories. Files are never touched. |
| Files.AvoidConflicts | src/utils/files.js:15-32 | A path that is not a folder makes `readdirSync` throw, before any question. An empty folder passes without a question. A non-empty folder passes only on a confirmed `true`; `false` and cancel abort. Every case is stated both ways. |
| Files.GetResourceMetadata | src/utils/files.js:63-79 | The result is the parsed metadata exactly when the file exists, parses, and has a truthy `type` and `id`. Otherwise it is null. |
| Files.ResolveResourceId | src/utils/files.js:88-95 | With a metadata file, the result is its stored `id`, and a malformed file throws. Without one, the result is `resourceId ?? basename(path)`. |
| Files.FindUuid | src/utils/files.js:8 | The result is the first position where the unanchored, case-insensitive 8-4-4-4-12 `[a-z0-9]` pattern matches, or none when no position matches. |
| Files.MatchesUuid | src/utils/files.js:98 | `id.match(UUID_PATTERN)` is truthy exactly when some window of the string has the UUID shape. |
| Files.FileSystem.GetResourceIdAsWritten | src/utils/files.js:88-103 | It returns the resolved id. When there is no metadata and the id looks like a UUID, it stores metadata holding the `resourceId` argument, as written; into a missing folder that store throws ENOENT and nothing is written. |
| Files.FileSystem.GetResourceId | src/utils/files.js:88-103 | The same as above, except that it stores the id it resolved. |
| Files.GetResourceIdAsWrittenForgetsFolderId | src/utils/files.js:97-100 | For a UUID-named folder with no `-i` and no metadata, the first call returns the folder name. Every later call returns undefined. |
| Files.ExampleFolderIsUuidNamed | src/utils/files.js:8 | `0123abcd-4567-89ab-cdef-0123456789ab` is a folder name that the pattern matches. |
| Files.GetResourceIdStable | src/utils/files.js:88-103 | Corrected, once metadata is stored, every later call returns the same id, whatever id it is given. |
| Files.WrittenMetadataIsValid | src/utils/files.js:63-79 | Metadata written with a non-empty type and id passes `getResourceMetadata` and reads back as written. |
| Files.MetadataWithoutIdIsRejected | src/utils/files.js:68 | Metadata without an `id` is rejected by `getResourceMetadata`. |
| Files.SanitizeIdentifier | src/utils/files.js:150-152 | Null stays null. Otherwise the result has the same length and no `/`: every `/` becomes `-` and every other character is unchanged. |
| Files.ReplaceSlashes | src/utils/files.js:151 | `replace(/\//g, "-")` keeps the length, turns every `/` into `-` and keeps every other character. |
| Files.SanitizeIdentifierIdempotent | src/utils/files.js:150-152 | Sanitizing twice is sanitizing once. |
| Files.ChildHasOneParent | src/commands/resources/watch.js:132-161 | A directory has exactly one parent. The folder scan relies on this. |
| Json.ParseStringify | src/utils/files.js:161-163 | Parsing the text that `writeMetadata` writes gives back the same `type` and `id`, for any strings. |
| Json.StringRoundTrip | src/utils/files.js:162 | An escaped JSON string literal parses back to the exact string, and the parser stops at its closing quote. |
| Json.Stringify | src/utils/files.js:161-163 | The text `writeMetadata` stores: `type` comes before `id`, each member is on its own line indented by two spaces, an undefined member is left out, and the text is `{}` when both members are undefined. |
| Json.Parse | src/utils/files.js:66 | Only text that starts with `{` after leading whitespace parses. Text that is `{}` after whitespace parses to metadata with neither `type` nor `id`. |
| Pdfmonkey.BuildTemplateData | src/utils/pdfmonkey.js:5-11 | The payload exists exactly when the three template files exist. It holds exactly their three contents, under `body_draft`, `scss_style_draft` and `sample_data_draft`. |
| Pdfmonkey.BuildAfterWrite | src/utils/pdfmonkey.js:5-11 | What `writeTemplateContent` wrote, `buildTemplateData` reads back: the template's drafts, with null drafts as "". |
| Pdfmonkey.ErrorLine | src/utils/pdfmonkey.js:54 | An error line starts with `status title` and ends with `detail`. Between them is exactly the separator as the source spells it. |
| Pdfmonkey.ErrorLines | src/utils/pdfmonkey.js:53-62 | For an array: one line per error, in order. For an object: one line per message. |
| Pdfmonkey.EntryLineAt | src/utils/pdfmonkey.js:55-62 | For an object, message `m` of attribute `j` is the line just after every message of the attributes before `j`, formatted `attributeNames[key]: message`. |
| Pdfmonkey.EntryLineIsMessageLine | src/utils/pdfmonkey.js:55-62 | The flattened lines hold each attribute's message lines at that attribute's offset: attribute order first, message order second. |
| Pdfmonkey.MessageLines | src/utils/pdfmonkey.js:58 | An attribute gives one line per message, in order, each prefixed by its display name. |
| Pdfmonkey.FormatErrors | src/utils/pdfmonkey.js:50-65 | No error lines give ""; a single line gives that line. |
| Pdfmonkey.FormatErrorsLines | src/utils/pdfmonkey.js:50-65 | When no field holds a line break, splitting the formatted text at "\n" gives back exactly the lines, in order. |
| Pdfmonkey.GetTemplate | src/utils/pdfmonkey.js:19-31 | The result is null (with the formatted errors logged) exactly when the reply carries `errors`. Otherwise it is the replied template. |
| Pdfmonkey.GetTemplatePreviewUrl | src/utils/pdfmonkey.js:33-48 | Without debug, the result is `template.preview_url`. With debug, it is the debug URL that the debug endpoint returns, and it throws when the reply has no `document_template_debug`. |
| Pdfmonkey.UpdateTemplate | src/utils/pdfmonkey.js:74-87 | A missing draft throws before any request. Otherwise the result is `success: false` with the reply's errors, or `success: true` with its template. |
| Pdfmonkey.UpdateSendsWrittenDrafts | src/utils/pdfmonkey.js:74-87 | After `writeTemplateContent`, an update sends exactly the drafts written, and succeeds exactly when the API accepts them. |
| FilesWatching.EventMessage | src/utils/files-watching.js:13 | The message is "Updated: " followed by a name that holds no `/`. |
| FilesWatching.EventMessageNamesFile | src/utils/files-watching.js:13 | The message names the changed file, not its folder. |
| FilesWatching.StopLine | src/utils/files-watching.js:19-23 | On success the spinner stops with the message and " - synced!" and code 0. On failure it stops with the formatted errors and code 1. |
| FilesWatching.Watcher.OnEvent | src/utils/files-watching.js:12-24 | One event appends the spinner start, one callback run for its path, and the closing line. A callback that throws gets no closing line, and the watch goes on (see Left out). |
| FilesWatching.EventCallsBackOnce | src/utils/files-watching.js:12-24 | One event runs the callback exactly once, for its own path, whether it resolves or throws. |
| FilesWatching.OneCallbackPerEvent | src/utils/files-watching.js:12-24 | Over any run of events, the callback runs exactly once per event, for that event's path, in order, whatever earlier callbacks did (see Left out for a throw). |
| ResourcesWatch.LoadResource | src/commands/resources/watch.js:107-130 | A folder is admitted exactly when it exists, has proper metadata, and is not a second template. Its `isTemplate` is `type === "template"`. |
| ResourcesWatch.LoadResourceAsWritten | src/commands/resources/watch.js:107-130 | As written, it throws exactly when the metadata file exists but `getResourceMetadata` returns null. |
| ResourcesWatch.LoadResourceAgrees | src/commands/resources/watch.js:120-121 | Wherever the code as written does not throw, it agrees with the corrected loader. |
| ResourcesWatch.LoadResourceAsWrittenThrows | src/commands/resources/watch.js:120-121 | Metadata without an id makes the code as written throw, where the corrected loader skips the folder. |
| ResourcesWatch.IsResource | src/commands/resources/watch.js:103-105 | A folder whose metadata is accepted is a resource. A folder with no `.pdfmonkey.json`, neither as a file nor as a folder, is not. |
| ResourcesWatch.Step | src/commands/resources/watch.js:24-31 | One `handlePath` appends at most one resource and never clears `templateFound`. |
| ResourcesWatch.AdmitAll | src/commands/resources/watch.js:33-34 | Handling every path admits at most one resource per path. Order, the single template and the snippets are stated by the lemmas that follow. |
| ResourcesWatch.Admission.HandlePath | src/commands/resources/watch.js:24-31 | One `handlePath` runs `loadResource` as written. A throw leaves the admission unchanged. Otherwise it sets `templateFound ||= isTemplate` and pushes the loaded resource, when there is one, as the corrected `Step` does. |
| ResourcesWatch.Admission.HandlePaths | src/commands/resources/watch.js:24-34 | Handling the paths in order throws at the first folder with improper metadata. Otherwise it leaves the admission that `AdmitAllAsWritten` computes. |
| ResourcesWatch.AdmitAllAsWritten | src/commands/resources/watch.js:33-34 | The only error the admission as written can end with is the TypeError from reading `metadata.type`. |
| ResourcesWatch.AdmitAllAsWrittenAgrees | src/commands/resources/watch.js:24-34 | The admission as written throws exactly when some path has improper metadata. Otherwise it admits exactly what the corrected `AdmitAll` admits, so every lemma about `AdmitAll` applies to it. |
| ResourcesWatch.AdmitAllAsWrittenErrStays | src/commands/resources/watch.js:34 | Once a `handlePath` has thrown, later paths change nothing: `forEach` stops at the throw. |
| ResourcesWatch.AtMostOneTemplate | src/commands/resources/watch.js:24-31 | At most one template is admitted, and `templateFound` says whether one was. |
| ResourcesWatch.TemplateFoundIffTemplateFolder | src/commands/resources/watch.js:28 | `templateFound` is set exactly when some path so far is a template folder. |
| ResourcesWatch.FirstTemplateAdmitted | src/commands/resources/watch.js:121-127 | The admitted template is the first template folder among the paths. |
| ResourcesWatch.SnippetsAdmitted | src/commands/resources/watch.js:121-129 | Every snippet folder is admitted. |
| ResourcesWatch.AdmissionKeepsOrder | src/commands/resources/watch.js:29 | The admitted folders are a subsequence of the paths given, in the same order. |
| ResourcesWatch.TemplateFoundStays | src/commands/resources/watch.js:28 | Once `templateFound` is true, later paths never clear it. |
| ResourcesWatch.CandidatePaths | src/commands/resources/watch.js:33-42 | The candidates are the given paths when there are any, else the working directory when it is a resource, else the folders the user enters. |
| ResourcesWatch.PlanFor | src/commands/resources/watch.js:44-85 | The plan is "nothing to watch" (exit 0) exactly when nothing was admitted. Otherwise it watches the first template and every snippet, in order. |
| ResourcesWatch.FirstTemplate | src/commands/resources/watch.js:52 | `resources.find(r => r.isTemplate)` finds a template exactly when one was admitted, and it is an admitted template. |
| ResourcesWatch.ShutdownRegistry.Register | src/commands/resources/watch.js:64-65 | Only a returned handler is appended. |
| ResourcesWatch.ShutdownRegistry.Interrupt | src/commands/resources/watch.js:14-18 | The interrupt handler runs every registered callback once, in order. |
| ResourcesWatch.RegisterWatchResults | src/commands/resources/watch.js:54-85 | The watch commands resolve with `undefined`, so nothing is registered and an interrupt runs no callback. |
| ResourcesWatch.ListDirectories | src/commands/resources/watch.js:132-161 | The listing holds exactly the directories directly inside the folder, each once. |
| ResourcesWatch.AddFolder | src/commands/resources/watch.js:140-144 | A top-level folder is appended exactly when it is a resource. The list stays free of repeats and keeps parents first. |
| ResourcesWatch.UnderListing | src/commands/resources/watch.js:136-158 | A directory is a listed entry or directly inside one exactly when it lies one or two levels below the working directory. |
| ResourcesWatch.AddSubfolders | src/commands/resources/watch.js:146-156 | The inner loop appends exactly the resource directories directly inside the folder. The list stays free of repeats and keeps parents first. |
| ResourcesWatch.FindPDFMonkeyFolders | src/commands/resources/watch.js:132-161 | The scan finds exactly the resource directories one and two levels below the working directory. Each appears once, and every parent comes before its children. |
| TemplateWatch.DefaultTemplateId | src/commands/template/watch.js:13 | A given `-t` id is kept. Otherwise the id is `LastSegment(path)`, the last `/`-segment of the path: a suffix of the path with no `/`. |
| TemplateWatch.DefaultIdIsFolderName | src/commands/template/watch.js:13 | Without `-t`, a folder named after the template watches that template. |
| TemplateWatch.Start | src/commands/template/watch.js:12-32 | A failed fetch exits 1. A refused conflict check exits 0. Conversely, once both pass, a preview URL gives a watch of that template with that URL, and a failing preview throws its error. |
| TemplateWatch.FetchFailureSkipsConflicts | src/commands/template/watch.js:17-20 | A failed fetch exits 1 before conflicts are looked at, whatever the conflict check would say. |
| TemplateWatch.OnChangeSpec | src/commands/template/watch.js:34-45 | The preview refreshes exactly when the update succeeded and its preview URL was obtained, and the cell then holds that URL. Otherwise the cell is unchanged and a rejection reports the formatted errors. |
| TemplateWatch.Session.OnChange | src/commands/template/watch.js:34-45 | One change updates the `previewUrl` cell and the refresh count as `OnChangeSpec` says. |
| TemplateWatch.Session.TemplateIdAccessor | src/commands/template/watch.js:29-30 | The `templateId` accessor answers the id of the template fetched at startup. That template is a constant of the session, so no change event replaces it. |
| TemplateWatch.Session.PreviewUrlAccessor | src/commands/template/watch.js:29-31 | The `previewUrl` accessor answers the cell as it stands. After a change event, `Session.OnChange` ensures it answers the URL that the event computed. |
| TemplateWatch.RefreshOncePerSuccess | src/commands/template/watch.js:37-42 | Over any run of changes, the preview refreshes exactly once per successful update. A run with none leaves the URL as it was. |
| SnippetWatch.Start | src/commands/snippet/watch.js:11-24 | The id is resolved through `getResourceId` as written first; storing it into a missing folder throws. A failed fetch exits 1 before any question. An unreadable `updated_at` throws a RangeError. Then `code` is checked against `code.liquid` on the file map as stored, and a refused check exits 0. |
| SnippetWatch.HandleConflicts | src/commands/snippet/watch.js:41-46 | `new Date(updated_at).toISOString()` comes first: an absent or invalid date throws a RangeError with nothing read or changed. Otherwise the snippet's `code` is checked against `code.liquid`. |
| SnippetWatch.DateReadable | src/commands/snippet/watch.js:43 | `new Date(updated_at).toISOString()` succeeds exactly when `updated_at` is present and the date parser accepts it. An absent date is never readable. |
| SnippetWatch.StoreKeepsConsistent | src/utils/files.js:97-100 | A `getResourceId` that does not throw keeps every file inside an existing folder, so the conflict check after it cannot hit a missing folder. |
| SnippetWatch.AfterConflicts | src/commands/snippet/watch.js:21-24 | The watch starts exactly when the conflict check resolved true, and exits 0 exactly when it resolved false. |
| SnippetWatch.OnChange | src/commands/snippet/watch.js:26-34 | Errors are formatted only on failure. The callback succeeds exactly when the update did. |
| Selection.SelectOne | src/commands/template/init.js:57-76 | No list or an empty list cancels. One item is taken without a question. Several items are offered in one menu, with one label per item in order, and the pick is the item picked. Cancel cancels. |
| WorkspacePicker.PickWorkspace | src/commands/shared/workspace.js:12-42 | The selection rule applies, with labels that are workspace identifiers. The result is the id of a listed workspace. |
| TemplateInit.PathCandidates | src/commands/template/init.js:38-49 | The first candidate is always `cwd/sanitized_identifier`. With a folder identifier there are exactly three, adding folder/id and folder/identifier; without one there is exactly one. Each candidate lies inside `cwd`. |
| TemplateInit.WatchCommand | src/commands/template/init.js:90-106 | The result is `pdfmonkey template watch`, plus the path unless it is `cwd`, plus `-t id` unless the base name is the id. |
| TemplateInit.WatchCommandRoundTrip | src/commands/template/init.js:90-106 | The watch command line gives back the path and the template it was printed for. |
| TemplateInit.ParseWatchArgs | bin/index.js:27-50 | An accepted command line without `-t` has at most one argument. |
| TemplateInit.PickTemplate | src/commands/template/init.js:51-81 | The selection rule applies, with labels that are display names. The pick is one of the templates listed. |
| TemplateInit.RunTemplateSelection | src/commands/template/init.js:83-88 | Cancelling the workspace pick cancels. A template picked is listed in a workspace. At most two menus are shown. |
| TemplateInit.FetchTemplate | src/commands/template/init.js:25-36 | `getTemplateCard` is used exactly when an id is given; otherwise the selection runs. Only a lookup by id can give null. |
| TemplateInit.Write | src/commands/template/init.js:108-111 | The full template is fetched by the card's id and its drafts are written. A null template throws with the files untouched. A missing folder throws ENOENT with the files untouched. |
| SnippetInit.PathCandidates | src/commands/snippet/init.js:36-38 | There is exactly one candidate, `cwd/sanitized_identifier`. |
| SnippetInit.PickSnippet | src/commands/snippet/init.js:40-70 | The selection rule applies, with labels that are display names. |
| SnippetInit.RunSnippetSelection | src/commands/snippet/init.js:72-77 | Cancelling the workspace pick cancels. A snippet picked is listed in a workspace. |
| SnippetInit.FetchSnippet | src/commands/snippet/init.js:24-34 | `getSnippet` is used exactly when an id is given; otherwise the selection runs. |
| SharedInit.KeepTruthy | src/commands/shared/init.js:40 | `filter(Boolean)` keeps exactly the non-empty candidates, in order. |
| SharedInit.KeepTruthyKeepsNonEmpty | src/commands/shared/init.js:40 | A list without empty strings passes the filter unchanged. |
| SharedInit.PathOptions | src/commands/shared/init.js:37-42 | The options are `[cwd/id, ...pathCandidates, cwd, "custom"]`, with "custom" last. |
| SharedInit.ChoosePath | src/commands/shared/init.js:44-57 | One menu of the options is asked. "custom" asks a text question whose answer is the path. Cancelling either question cancels. Any other option is the path. |
| SharedInit.AskForPath | src/commands/shared/init.js:35-58 | The options menu is shown first, and a second prompt at most. A path picked from the menu is one of the options and is not `custom`. A path given in the second prompt is the custom text typed. Picking the first option gives `cwd/<resource id>` after one prompt. |
| SharedInit.WatchCommandArgs | src/commands/shared/init.js:60-65 | The words are `pdfmonkey watch <path>`, with `-k YOUR_API_KEY` added exactly when `PDFMONKEY_API_KEY` is unset. |
| SharedInit.Written | src/commands/shared/init.js:23 | A template write fails exactly when the full fetch gives null. Otherwise the drafts are written for a template and `code.liquid` for a snippet. |
| SharedInit.Write | src/commands/shared/init.js:23 | The `write` a resource kind supplies: the files are what `Written` gives, and the folders are unchanged. A write error leaves the files unchanged, and so does a folder that does not exist, which throws `NoFolder`. |
| SharedInit.InitResource | src/commands/shared/init.js:8-33 | The run, the files and the directories after the steps are those of `InitSpec`. |
| SharedInit.SetUpFacts | src/commands/shared/init.js:19-30 | Once the folder is known, the folder and its ancestors exist. A path naming a file throws ENOTDIR, with no question asked and no file written. At most the overwrite confirmation is asked, and only for a folder with entries. Files change only on success, where the content and then the metadata are written. |
| SharedInit.EnsureKeepsEntries | src/utils/files.js:39-46 | Creating the folder and its ancestors keeps every directory and adds nothing under the folder. |
| SharedInit.GivenPathAsksNoPath | src/commands/shared/init.js:17 | With a path given, the only questions are those of the fetch and perhaps the overwrite confirmation, and that path is used. |
| SharedInit.RefusedFolderWritesNothing | src/commands/shared/init.js:19-24 | An init that does not finish writes no file. A finished one either confirmed or found the folder empty. |
| SharedInit.InitWritesInsideFolder | src/commands/shared/init.js:19-24 | No file is removed. Every file that was written lies inside the chosen folder. |
| SharedInit.InitializedFolderIsTracked | src/commands/shared/init.js:24 | After init, the folder's metadata names the resource, and `getResourceId` there returns its id. The multi-folder watch admits it as the right kind. |
| SharedInit.InitializedTemplateSyncs | src/commands/shared/init.js:23 | After a template init, the first sync sends exactly the drafts written. |
| SharedInit.InitTemplate | src/commands/template/init.js:11-23 | `template init` is `fetchTemplate` followed by `initResource`. |
| SharedInit.InitSnippet | src/commands/snippet/init.js:11-22 | `snippet init` is `fetchSnippet` followed by `initResource`. |
| LegacyInit.PathOptions | src/commands/init.js:56-67 | There are three options: `cwd/templateId`, `cwd`, "custom". |
| LegacyInit.PrintWatchCommand | src/commands/init.js:35-54 | The printed command starts with "pdfmonkey watch". |
| LegacyInit.PrintWatchCommandWords | src/commands/init.js:35-54 | The four-way branch prints exactly the words `pdfmonkey watch`, the path unless it is `cwd`, `-t id` unless the last segment is the id, and `-k YOUR_API_KEY` when no key is set. |
| LegacyInit.WatchArgsParse | src/commands/init.js:37-47 | The printed words read back as the folder, with `-t id` exactly when the last path segment is not already the id. |
| LegacyInit.WatchArgsRoundTrip | src/commands/init.js:37-47 | Read back by the command line, the printed words give the folder and the template they were printed for. |
| LegacyInit.InitCommand | src/commands/init.js:11-33 | The outcome, the questions, the files and the directories are those of `InitSpec`. That includes the throw when the path names a file. |
| LegacyInit.NullTemplateCancelsFirst | src/commands/init.js:16-19 | A null template cancels before any question and any change, and the command ends that way only in this case. |
| LegacyInit.LegacyWritesNoMetadata | src/commands/init.js:23-25 | The older command writes no `.pdfmonkey.json`. |
| Text.SplitLastIsSuffix | src/commands/template/watch.js:13 | The last piece of a one-character split is a suffix of the string, preceded by the separator unless it is the whole string. |
| Text.LastSegment | src/commands/template/watch.js:13 | `split("/").pop()` is the longest suffix without a `/`. |
| Text.LastSegmentOfChild | src/commands/template/watch.js:13 | The last segment of `dir/name` is `name`. |
| Text.Basename | src/utils/files.js:95 | `path.basename` holds no `/`. |
| Text.BasenameOfChild | src/utils/files.js:95 | The base name of `dir/name` is `name`. |
| Text.SplitJoin | src/utils/pdfmonkey.js:54 | Splitting lines joined by "\n" gives the lines back, when none of them holds a line break. |

## Left out

- **Loading as written.** The ES modules do not load as written. Several imports name a binding the imported module does not export, which is a SyntaxError at link time, before any command runs:
  - `cancelOperation`, imported from `src/utils/term.js` by `src/utils/files.js:6` and by the commands;
  - `handleConflicts`, imported from `src/utils/conflicts-handling.js` at `src/commands/template/watch.js:7`;
  - `getSnippet`, `updateSnippet`, `getSnippets`, `getTemplateCard`, `getTemplateCards` and `getWorkspaces`, imported from `src/utils/pdfmonkey.js`.
  The model describes the program with those definitions supplied: `cancelOperation` as the older `init` defines it, the others as oracles.
- **Missing local file.** A missing local file throws, as `readFile` does. Reading it as an empty file would change the outcome of the conflict check and of the update.
- **Template `handleConflicts`.** It is imported at `src/commands/template/watch.js:7` but defined nowhere. It is an oracle `Template -> bool` in `TemplateWatch.Start`.
- **Undefined API functions.** `getSnippet`, `updateSnippet`, `getTemplateCard`, `getTemplateCards`, `getWorkspaces` and `getSnippets` are imported but defined nowhere. They are oracle parameters.
- **Snippet preview refresh.** The snippet watch ignores `templateLiveReloadServer`, so a snippet change never refreshes the template preview.
- **`cancelOperation`.** It is imported from `src/utils/term.js`, which does not define it. It is modelled as exit 0, as `src/commands/init.js:99-102` defines it.
- **Watch commands.** Neither watch command returns `{ shutdownHandler, liveReloadServer }`. `ResourcesWatch.RegisterWatchResults` states the consequence: no callback is registered.
- **Path normalisation.** `nodePath.join` normalisation is not modelled: `PathJoin(a, b)` is `a + "/" + b`.
- **Default template id.** It uses `split("/").pop()`, so a path ending in `/` gets the id "". That is modelled as written.
- **`TemplateInit.WatchCommand`.** `initResource` never calls it, because it prints its own command.
- **`TemplateInit.WatchCommandRoundTrip`.** It requires a path without a trailing `/`. For a path that ends in `/`, `path.basename` and `split("/").pop()` disagree, and the printed command would then watch another template id.
- **`shellescape`.** It is not modelled: the command is the list of words it receives.
- **Other effects.** These are not modelled:
  - the editor that `openEditor` runs;
  - the diff tool and pager of `showDiff`, apart from the temporary copy written and removed;
  - `intro`/`outro`/`log`, spinners, `chalk`, `open`;
  - the web server;
  - the Ctrl-C registration in `term.js`.
- **Timestamps.** `fileUpdatedAt` only appears in log text and is not modelled. The ISO conversion of the snippet's `updated_at` is modelled for its throw: `Api.Snippet.updated_at` is `None` when the field is absent, which makes `new Date(undefined).toISOString()` throw a RangeError, and the date parser is an oracle `validDate`. A `null` `updated_at`, which `new Date` reads as 1970 without throwing, is not represented.
- **Unreadable paths.** A path that names a file where a folder is expected makes `readdirSync` throw; `Files.AvoidConflicts` models this, and a write into such a path fails as into a missing folder. A `.pdfmonkey.json` that is a directory makes `readFile` throw (EISDIR); `Read` does not model that error.
- **`Files.FileSystem.EnsurePathPresent`.** When an ancestor of the path is a file, `mkdirSync` throws ENOTDIR; the model adds the ancestors as directories anyway. The file system also keeps no invariant tying `files` to `dirs`: `Files.Consistent` (every file lies in an existing folder) is required where the conflict check reads a file, and proved kept by the writes that need it.
- **`promptForPath` and `continueAdding`.** Their dialogue in `src/commands/resources/watch.js` is not modelled. The folders entered are a parameter of `ResourcesWatch.CandidatePaths`.
- **Listing order.** `readdirSync` lists in an order the program does not fix. `ResourcesWatch.ListDirectories` returns any order.
- **JSON.** Metadata JSON is modelled only for string members, in the `JSON.stringify(.., 2)` layout. Other JSON values in a hand-edited `.pdfmonkey.json` parse as malformed here.
- **Legacy undefined id.** In the older `init`, a missing template id is passed on as the text "undefined". The model takes the id as a string.
- **Concurrency.**
  - `initResource` is not awaited by the template `init`.
  - The snippet watches run concurrently, and their shutdown callbacks run un-awaited.
  - Change events in one watcher can overlap: the change handler is async (`src/utils/files-watching.js:12`), so a second event can start before the first one's callback has resolved. Their stop lines can then interleave, and `previewUrl` ends with whichever update resolves last. `FilesWatching.Transcript` and `TemplateWatch.AfterChanges` take the events one after another.
  - These are modelled as sequential steps.
- **Exits inside a multi-folder watch.** A sub-watch that exits with `process.exit(1)` after a failed fetch, or with `process.exit(0)` after a refused conflict (`src/commands/template/watch.js:19,24`, `src/commands/snippet/watch.js:18,23`), ends the whole process and with it every other folder's watch. `ResourcesWatch.PlanFor` and `ResourcesWatch.RegisterWatchResults` treat each start on its own.
- **Pdfmonkey.GetTemplatePreviewUrl.** The debug endpoint is an oracle `debugApi: Request -> Option<string>`, with `None` for a reply that has no `document_template_debug`, which throws. It cannot represent a debug reply whose `document_template_debug` has no `url`, nor a template without `preview_url`. In both cases the source returns `undefined` without throwing (`src/utils/pdfmonkey.js:39`, `:46`).
- **Other files.**
  - The menu loop in `src/commands/resources/init.js`.
  - `src/utils/web-server.js`, `src/utils/term.js`, and the command registration in `bin/index.js` (only the argument shape of `watch` is modelled, in `TemplateInit.ParseWatchArgs`).
- **`select` answers.** A `select` answer is the index of an offered option, because the prompt library returns only offered values. `Selection.ValidChoice` and `SharedInit.ValidPathChoice` state this.
- **Dead assignment.** `templateId = templateCard.id` in `fetchTemplate` assigns a local that is never read.
- **`ConflictsHandling.HandleConflict`.** When the user never answers, the model ends with `Waiting`; the source waits forever.
- **FilesWatching.Watcher.OnEvent, FilesWatching.OneCallbackPerEvent.** A callback that throws rejects the promise of the async change handler, and nothing handles that rejection. On Node.js 15 and later an unhandled rejection ends the process, so the watch stops at that event. These members model a runtime that only reports the rejection (Node.js before 15, or `--unhandled-rejections=warn`), where the watch goes on.
- **Constants.AttributeDisplayName.** A key inherited from `Object.prototype`, such as `constructor` or `toString`, reads a function from `attributeNames`, and the line shows that function's source text. The model looks keys up in the five own entries only, so such a key prints as "undefined".
- **LegacyInit.WatchArgsRoundTrip, TemplateInit.WatchCommandRoundTrip.** The round trip is over the list of words. Pasted into a shell without quoting, as the older `init` prints it, a path holding a space splits into two words and is read back as another folder.

## Findings

| source | as written | input that shows it | evidently intended | confidence | as-written member | corrected member |
|---|---|---|---|---|---|---|
| src/utils/files.js:97-100 | `writeMetadata(type, resourceId, path)` stores the `resourceId` argument, which is `undefined` when the id came from the folder name. | Folder `/work/0123abcd-4567-89ab-cdef-0123456789ab`, no `-i`, no `.pdfmonkey.json`. The first call returns the folder name and stores `{ "type": "snippet" }`. Every later call returns `undefined`. | Store the id that was resolved, so later calls return the same id. | not executed | Files.GetResourceIdAsWrittenForgetsFolderId | Files.GetResourceIdStable |
| src/commands/resources/watch.js:120-121 | `metadata.type` is read on the value of `getResourceMetadata`, which is `null` when the metadata is malformed or lacks an `id`. | A folder whose `.pdfmonkey.json` is `{ "type": "snippet" }` (what the row above stores): `loadResource` throws a TypeError. | Skip the folder, as it skips a folder without metadata. | not executed | ResourcesWatch.LoadResourceAsWrittenThrows | ResourcesWatch.LoadResourceAgrees |

The commands are modelled as written: `SnippetWatch.Start` stores the id through
`Files.FileSystem.GetResourceIdAsWritten`, and `ResourcesWatch.Admission.HandlePaths` runs
`ResourcesWatch.LoadResourceAsWritten`. The corrected definitions carry the intended
properties, and `ResourcesWatch.AdmitAllAsWrittenAgrees` shows that the admission as written
admits what the corrected one admits whenever it does not throw.
