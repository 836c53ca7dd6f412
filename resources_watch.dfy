/** `src/commands/resources/watch.js`: `pdfmonkey watch` over several folders. Each candidate
    folder is loaded and admitted in turn (at most one template, any number of snippets), an
    empty admission ends the command, and the interrupt handler runs every registered
    shutdown callback. `findPDFMonkeyFolders` scans the working directory two levels deep. */
module ResourcesWatch {
  import opened Wrappers
  import opened Files

  /** `{ watchPath, isTemplate }` */
  datatype Resource = Resource(watchPath: string, isTemplate: bool)

  /** `isResource(path)`: something exists at `${path}/.pdfmonkey.json`. */
  predicate IsResource(files: map<string, string>, dirs: set<string>, path: string)
    ensures GetResourceMetadata(files, path).Some? ==> IsResource(files, dirs, path)
    ensures MetadataKey(path) !in files && MetadataKey(path) !in dirs ==> !IsResource(files, dirs, path)
  {
    Exists(files, dirs, MetadataKey(path))
  }

  /** `loadResource(path, templateFound)` as written: when the metadata file exists but is not
      proper metadata, `getResourceMetadata` returns `null` and reading `.type` on it throws. */
  function LoadResourceAsWritten(files: map<string, string>, dirs: set<string>, path: string, templateFound: bool)
    : (r: Result<Option<Resource>>)
    ensures r.Err? <==> Exists(files, dirs, path) && IsResource(files, dirs, path) && GetResourceMetadata(files, path).None?
  {
    if !Exists(files, dirs, path) then Ok(None)
    else if !IsResource(files, dirs, path) then Ok(None)
    else
      match GetResourceMetadata(files, path)
      case None => Err(TypeError("metadata.type"))
      case Some(m) =>
        var isTemplate := m.resourceType == Some("template");
        if isTemplate && templateFound then Ok(None) else Ok(Some(Resource(path, isTemplate)))
  }

  /** `loadResource(path, templateFound)`, skipping a folder without proper metadata as it skips
      a folder without a metadata file. */
  function LoadResource(files: map<string, string>, dirs: set<string>, path: string, templateFound: bool)
    : (r: Option<Resource>)
    ensures r.Some? <==> Exists(files, dirs, path) && GetResourceMetadata(files, path).Some? &&
                         !(GetResourceMetadata(files, path).value.resourceType == Some("template") && templateFound)
    ensures r.Some? ==> r.value.watchPath == path &&
                        (r.value.isTemplate <==> GetResourceMetadata(files, path).value.resourceType == Some("template"))
  {
    if !Exists(files, dirs, path) then None
    else if !IsResource(files, dirs, path) then None
    else
      match GetResourceMetadata(files, path)
      case None => None
      case Some(m) =>
        var isTemplate := m.resourceType == Some("template");
        if isTemplate && templateFound then None else Some(Resource(path, isTemplate))
  }

  /** Where the code as written does not throw, it agrees with the corrected loader. */
  lemma LoadResourceAgrees(files: map<string, string>, dirs: set<string>, path: string, templateFound: bool)
    requires LoadResourceAsWritten(files, dirs, path, templateFound).Ok?
    ensures LoadResourceAsWritten(files, dirs, path, templateFound) == Ok(LoadResource(files, dirs, path, templateFound))
  {
  }

  /** A folder whose metadata has no `id` (what `getResourceId` as written stores for a folder
      named after a UUID) makes `loadResource` as written throw, where it should be skipped. */
  lemma LoadResourceAsWrittenThrows(files: map<string, string>, dirs: set<string>, path: string,
                                    resourceType: string, templateFound: bool)
    requires path in dirs
    ensures var withMetadata := files[MetadataKey(path) := Json.Stringify(Json.Metadata(Some(resourceType), None))];
      LoadResourceAsWritten(withMetadata, dirs, path, templateFound).Err? &&
      LoadResource(withMetadata, dirs, path, templateFound) == None
  {
    MetadataWithoutIdIsRejected(files, path, resourceType);
  }

  // ---------------------------------------------------------------- admission

  /** The `resources` array and the `templateFound` flag. */
  datatype Admitted = Admitted(resources: seq<Resource>, templateFound: bool)

  /** `handlePath(path)` */
  function Step(state: Admitted, files: map<string, string>, dirs: set<string>, path: string): (r: Admitted)
    ensures |state.resources| <= |r.resources| <= |state.resources| + 1
    ensures state.templateFound ==> r.templateFound
  {
    match LoadResource(files, dirs, path, state.templateFound)
    case None => state
    case Some(r) => Admitted(state.resources + [r], state.templateFound || r.isTemplate)
  }

  /** `handlePath` over the paths, in order, from an empty admission. */
  function AdmitAll(files: map<string, string>, dirs: set<string>, paths: seq<string>): (r: Admitted)
    ensures |r.resources| <= |paths|
    decreases |paths|
  {
    if paths == [] then Admitted([], false)
    else Step(AdmitAll(files, dirs, paths[..|paths| - 1]), files, dirs, paths[|paths| - 1])
  }

  /** `loadResource` as written throws on this folder: its metadata file exists but is not
      proper metadata. */
  predicate Improper(files: map<string, string>, dirs: set<string>, path: string) {
    Exists(files, dirs, path) && IsResource(files, dirs, path) && GetResourceMetadata(files, path).None?
  }

  /** `paths.forEach((path) => handlePath(path))` with `loadResource` as written: the first
      throw ends the loop and propagates. */
  function AdmitAllAsWritten(files: map<string, string>, dirs: set<string>, paths: seq<string>): (r: Result<Admitted>)
    ensures r.Err? ==> r.error == TypeError("metadata.type")
    decreases |paths|
  {
    if paths == [] then Ok(Admitted([], false))
    else
      match AdmitAllAsWritten(files, dirs, paths[..|paths| - 1])
      case Err(e) => Err(e)
      case Ok(state) =>
        match LoadResourceAsWritten(files, dirs, paths[|paths| - 1], state.templateFound)
        case Err(e) => Err(e)
        case Ok(None) => Ok(state)
        case Ok(Some(r)) => Ok(Admitted(state.resources + [r], state.templateFound || r.isTemplate))
  }

  /** The admission as written throws exactly when some candidate folder has improper
      metadata; otherwise it admits what the corrected admission admits. */
  lemma {:induction false} AdmitAllAsWrittenAgrees(files: map<string, string>, dirs: set<string>, paths: seq<string>)
    ensures var w := AdmitAllAsWritten(files, dirs, paths);
      (w.Ok? <==> forall i :: 0 <= i < |paths| ==> !Improper(files, dirs, paths[i])) &&
      (w.Ok? ==> w.value == AdmitAll(files, dirs, paths))
    decreases |paths|
  {
    if paths != [] {
      var init := paths[..|paths| - 1];
      var last := paths[|paths| - 1];
      AdmitAllAsWrittenAgrees(files, dirs, init);
      assert forall i :: 0 <= i < |init| ==> init[i] == paths[i];
      var w := AdmitAllAsWritten(files, dirs, init);
      if w.Ok? {
        if LoadResourceAsWritten(files, dirs, last, w.value.templateFound).Ok? {
          LoadResourceAgrees(files, dirs, last, w.value.templateFound);
        }
      }
    }
  }

  /** Once the admission as written has thrown, later paths change nothing. */
  lemma {:induction false} AdmitAllAsWrittenErrStays(files: map<string, string>, dirs: set<string>,
                                                     paths: seq<string>, n: nat)
    requires n <= |paths| && AdmitAllAsWritten(files, dirs, paths[..n]).Err?
    ensures AdmitAllAsWritten(files, dirs, paths) == AdmitAllAsWritten(files, dirs, paths[..n])
    decreases |paths|
  {
    if n == |paths| {
      assert paths[..n] == paths;
    } else {
      var init := paths[..|paths| - 1];
      assert init[..n] == paths[..n];
      AdmitAllAsWrittenErrStays(files, dirs, init, n);
    }
  }

  /** The folder holds a template `loadResource` would admit while none was found yet. */
  predicate IsTemplateFolder(files: map<string, string>, dirs: set<string>, path: string) {
    var r := LoadResource(files, dirs, path, false);
    r.Some? && r.value.isTemplate
  }

  /** The folder holds a snippet (or any non-template resource) `loadResource` admits. */
  predicate IsSnippetFolder(files: map<string, string>, dirs: set<string>, path: string) {
    var r := LoadResource(files, dirs, path, false);
    r.Some? && !r.value.isTemplate
  }

  function WatchPaths(rs: seq<Resource>): (ps: seq<string>)
    ensures |ps| == |rs| && forall i :: 0 <= i < |rs| ==> ps[i] == rs[i].watchPath
  {
    seq(|rs|, i requires 0 <= i < |rs| => rs[i].watchPath)
  }

  /** `xs` is `ys` with some elements left out, the rest in the same order. */
  predicate IsSubsequence(xs: seq<string>, ys: seq<string>)
    decreases |ys|
  {
    if xs == [] then true
    else if ys == [] then false
    else (xs[|xs| - 1] == ys[|ys| - 1] && IsSubsequence(xs[..|xs| - 1], ys[..|ys| - 1])) ||
         IsSubsequence(xs, ys[..|ys| - 1])
  }

  /** The last step of `AdmitAll`. */
  lemma AdmitLast(files: map<string, string>, dirs: set<string>, paths: seq<string>)
    requires paths != []
    ensures AdmitAll(files, dirs, paths) ==
      Step(AdmitAll(files, dirs, paths[..|paths| - 1]), files, dirs, paths[|paths| - 1])
    ensures forall k :: 0 <= k < |paths| - 1 ==> paths[..|paths| - 1][k] == paths[k]
  {
  }

  /** At most one template is admitted, and the flag says whether one was. */
  lemma {:induction false} AtMostOneTemplate(files: map<string, string>, dirs: set<string>, paths: seq<string>)
    ensures var rs := AdmitAll(files, dirs, paths).resources;
      forall i, j :: 0 <= i < |rs| && 0 <= j < |rs| && rs[i].isTemplate && rs[j].isTemplate ==> i == j
    ensures AdmitAll(files, dirs, paths).templateFound <==>
      exists i :: 0 <= i < |AdmitAll(files, dirs, paths).resources| && AdmitAll(files, dirs, paths).resources[i].isTemplate
    decreases |paths|
  {
    if paths != [] {
      AdmitLast(files, dirs, paths);
      AtMostOneTemplate(files, dirs, paths[..|paths| - 1]);
      var before := AdmitAll(files, dirs, paths[..|paths| - 1]);
      var after := AdmitAll(files, dirs, paths);
      var r := LoadResource(files, dirs, paths[|paths| - 1], before.templateFound);
      if r.Some? {
        assert after.resources == before.resources + [r.value];
        assert forall i :: 0 <= i < |before.resources| ==> after.resources[i] == before.resources[i];
        if r.value.isTemplate {
          assert after.resources[|after.resources| - 1].isTemplate;
        }
      }
    }
  }

  /** The flag is set exactly when some path so far is a template folder. */
  lemma {:induction false} TemplateFoundIffTemplateFolder(files: map<string, string>, dirs: set<string>, paths: seq<string>)
    ensures AdmitAll(files, dirs, paths).templateFound <==>
      exists k :: 0 <= k < |paths| && IsTemplateFolder(files, dirs, paths[k])
    decreases |paths|
  {
    if paths != [] {
      var init := paths[..|paths| - 1];
      AdmitLast(files, dirs, paths);
      TemplateFoundIffTemplateFolder(files, dirs, init);
      if AdmitAll(files, dirs, init).templateFound {
        var k :| 0 <= k < |init| && IsTemplateFolder(files, dirs, init[k]);
        assert IsTemplateFolder(files, dirs, paths[k]);
      }
    }
  }

  /** The template admitted is the first template folder among the paths: later ones are skipped. */
  lemma {:induction false} FirstTemplateAdmitted(files: map<string, string>, dirs: set<string>, paths: seq<string>)
    ensures var rs := AdmitAll(files, dirs, paths).resources;
      forall i :: 0 <= i < |rs| && rs[i].isTemplate ==>
        exists k :: 0 <= k < |paths| && rs[i].watchPath == paths[k] && IsTemplateFolder(files, dirs, paths[k]) &&
          forall l :: 0 <= l < k ==> !IsTemplateFolder(files, dirs, paths[l])
    decreases |paths|
  {
    if paths != [] {
      var init := paths[..|paths| - 1];
      var p := paths[|paths| - 1];
      AdmitLast(files, dirs, paths);
      FirstTemplateAdmitted(files, dirs, init);
      var before := AdmitAll(files, dirs, init);
      var rs := AdmitAll(files, dirs, paths).resources;
      var r := LoadResource(files, dirs, p, before.templateFound);
      if r.Some? && r.value.isTemplate {
        TemplateFoundIffTemplateFolder(files, dirs, init);
        assert rs[|rs| - 1].watchPath == paths[|paths| - 1];
        assert forall l :: 0 <= l < |paths| - 1 ==> !IsTemplateFolder(files, dirs, paths[l]) by {
          forall l | 0 <= l < |paths| - 1 ensures !IsTemplateFolder(files, dirs, paths[l]) {
            assert paths[l] == init[l];
          }
        }
      }
      forall i | 0 <= i < |before.resources| && before.resources[i].isTemplate
        ensures exists k :: (0 <= k < |paths| && before.resources[i].watchPath == paths[k] &&
          IsTemplateFolder(files, dirs, paths[k]) && forall l :: 0 <= l < k ==> !IsTemplateFolder(files, dirs, paths[l]))
      {
        var k :| 0 <= k < |init| && before.resources[i].watchPath == init[k] && IsTemplateFolder(files, dirs, init[k]) &&
          forall l :: 0 <= l < k ==> !IsTemplateFolder(files, dirs, init[l]);
        assert paths[k] == init[k];
      }
    }
  }

  /** Snippets are never skipped for being snippets: every snippet folder is admitted. */
  lemma {:induction false} SnippetsAdmitted(files: map<string, string>, dirs: set<string>, paths: seq<string>)
    ensures forall k :: 0 <= k < |paths| && IsSnippetFolder(files, dirs, paths[k]) ==>
      Resource(paths[k], false) in AdmitAll(files, dirs, paths).resources
    decreases |paths|
  {
    if paths != [] {
      var init := paths[..|paths| - 1];
      AdmitLast(files, dirs, paths);
      SnippetsAdmitted(files, dirs, init);
      var before := AdmitAll(files, dirs, init).resources;
      var after := AdmitAll(files, dirs, paths).resources;
      forall k | 0 <= k < |paths| && IsSnippetFolder(files, dirs, paths[k])
        ensures Resource(paths[k], false) in after
      {
        if k < |init| {
          assert init[k] == paths[k];
          var j :| 0 <= j < |before| && before[j] == Resource(paths[k], false);
          assert after[j] == before[j];
        } else {
          assert after[|before|] == Resource(paths[k], false);
        }
      }
    }
  }

  /** The admitted folders keep the order in which the paths were given. */
  lemma {:induction false} AdmissionKeepsOrder(files: map<string, string>, dirs: set<string>, paths: seq<string>)
    ensures IsSubsequence(WatchPaths(AdmitAll(files, dirs, paths).resources), paths)
    decreases |paths|
  {
    if paths != [] {
      var init := paths[..|paths| - 1];
      var p := paths[|paths| - 1];
      AdmitLast(files, dirs, paths);
      AdmissionKeepsOrder(files, dirs, init);
      var before := AdmitAll(files, dirs, init);
      var ws := WatchPaths(AdmitAll(files, dirs, paths).resources);
      match LoadResource(files, dirs, p, before.templateFound)
      case None =>
        assert ws == WatchPaths(before.resources);
      case Some(r) =>
        assert ws == WatchPaths(before.resources) + [p];
        assert ws[..|ws| - 1] == WatchPaths(before.resources);
    }
  }

  /** Once a template was found, later paths never clear the flag. */
  lemma {:induction false} TemplateFoundStays(files: map<string, string>, dirs: set<string>, paths: seq<string>, more: seq<string>)
    requires AdmitAll(files, dirs, paths).templateFound
    ensures AdmitAll(files, dirs, paths + more).templateFound
    decreases |more|
  {
    if more == [] {
      assert paths + more == paths;
    } else {
      TemplateFoundStays(files, dirs, paths, more[..|more| - 1]);
      assert (paths + more)[..|paths + more| - 1] == paths + more[..|more| - 1];
      AdmitLast(files, dirs, paths + more);
    }
  }

  /** The state of the admission inside `watchCommand`. */
  class Admission {
    var resources: seq<Resource>
    var templateFound: bool

    constructor ()
      ensures resources == [] && !templateFound
    {
      resources := [];
      templateFound := false;
    }

    /** `handlePath(path)`: `templateFound ||= resource.isTemplate; resources.push(resource)`,
        after `loadResource` as written, whose throw leaves the admission as it was. */
    method HandlePath(files: map<string, string>, dirs: set<string>, path: string) returns (r: Result<()>)
      modifies this
      ensures var loaded := LoadResourceAsWritten(files, dirs, path, old(templateFound));
        (loaded.Err? ==> r == Err(loaded.error) && resources == old(resources) && templateFound == old(templateFound)) &&
        (loaded.Ok? ==>
           r == Ok(()) &&
           Admitted(resources, templateFound) == Step(Admitted(old(resources), old(templateFound)), files, dirs, path))
    {
      var resource := LoadResourceAsWritten(files, dirs, path, templateFound);
      if resource.Err? {
        return Err(resource.error);
      }
      LoadResourceAgrees(files, dirs, path, templateFound);
      if resource.value.Some? {
        templateFound := templateFound || resource.value.value.isTemplate;
        resources := resources + [resource.value.value];
      }
      r := Ok(());
    }

    /** `paths.forEach((path) => handlePath(path))`: the first throw ends the loop. */
    method HandlePaths(files: map<string, string>, dirs: set<string>, paths: seq<string>) returns (r: Result<()>)
      modifies this
      requires resources == [] && !templateFound
      ensures var w := AdmitAllAsWritten(files, dirs, paths);
        (w.Ok? ==> r == Ok(()) && Admitted(resources, templateFound) == w.value) &&
        (w.Err? ==> r == Err(w.error))
    {
      for i := 0 to |paths|
        invariant AdmitAllAsWritten(files, dirs, paths[..i]) == Ok(Admitted(resources, templateFound))
      {
        assert paths[..i + 1][..i] == paths[..i];
        AdmitAllAsWrittenAgrees(files, dirs, paths[..i]);
        var handled := HandlePath(files, dirs, paths[i]);
        if handled.Err? {
          AdmitAllAsWrittenErrStays(files, dirs, paths, i + 1);
          return handled;
        }
      }
      assert paths[..|paths|] == paths;
      r := Ok(());
    }
  }

  /** The folders `watchCommand` hands to `handlePath`: the given ones, else the working directory
      when it is a resource, else the ones the user enters. */
  function CandidatePaths(files: map<string, string>, dirs: set<string>, paths: seq<string>, cwd: string,
                          entered: seq<string>): (r: seq<string>)
    ensures |paths| > 0 ==> r == paths
    ensures |paths| == 0 && IsResource(files, dirs, cwd) ==> r == [cwd]
    ensures |paths| == 0 && !IsResource(files, dirs, cwd) ==> r == entered
  {
    if |paths| > 0 then paths else if IsResource(files, dirs, cwd) then [cwd] else entered
  }

  /** What `watchCommand` goes on to do with the admitted folders. */
  datatype Plan = NothingToWatch | Watch(template: Option<string>, snippets: seq<string>)

  function Snippets(rs: seq<Resource>): (ps: seq<string>)
    ensures |ps| <= |rs|
    decreases |rs|
  {
    if rs == [] then []
    else Snippets(rs[..|rs| - 1]) + if rs[|rs| - 1].isTemplate then [] else [rs[|rs| - 1].watchPath]
  }

  function FirstTemplate(rs: seq<Resource>): (r: Option<string>)
    ensures r.Some? <==> exists i :: 0 <= i < |rs| && rs[i].isTemplate
    ensures r.Some? ==> exists i :: 0 <= i < |rs| && rs[i].isTemplate && rs[i].watchPath == r.value
    decreases |rs|
  {
    if rs == [] then None
    else if rs[0].isTemplate then Some(rs[0].watchPath)
    else FirstTemplate(rs[1..])
  }

  /** No folder admitted: "No folders to watch" and exit 0 before any watcher starts. Otherwise
      the template (`resources.find`) and every snippet, in admission order, are watched. */
  function PlanFor(rs: seq<Resource>): (r: Plan)
    ensures r == NothingToWatch <==> rs == []
    ensures r.Watch? ==> r.template == FirstTemplate(rs) && r.snippets == Snippets(rs)
  {
    if rs == [] then NothingToWatch else Watch(FirstTemplate(rs), Snippets(rs))
  }

  // ---------------------------------------------------------------- shutdown

  /** The `shutdownCallbacks` array and the interrupt handler registered at startup. */
  class ShutdownRegistry {
    var callbacks: seq<string>

    constructor ()
      ensures callbacks == []
    {
      callbacks := [];
    }

    /** `if (handler) shutdownCallbacks.push(handler)`: only a returned handler is kept. */
    method Register(handler: Option<string>)
      modifies this
      ensures callbacks == old(callbacks) + if handler.Some? then [handler.value] else []
    {
      if handler.Some? {
        callbacks := callbacks + [handler.value];
      }
    }

    /** Ctrl-C: `shutdownCallbacks.forEach(callback => callback())`, each callback once, in order. */
    method Interrupt() returns (ran: seq<string>)
      ensures ran == callbacks
    {
      ran := [];
      for i := 0 to |callbacks|
        invariant ran == callbacks[..i]
      {
        ran := ran + [callbacks[i]];
      }
    }
  }

  /** The template and snippet watch commands resolve with `undefined`, so nothing is registered:
      the interrupt handler runs no callback, whatever was watched. */
  method RegisterWatchResults(registry: ShutdownRegistry, template: Option<string>, snippets: seq<string>)
    returns (ran: seq<string>)
    modifies registry
    requires registry.callbacks == []
    ensures ran == []
  {
    if template.Some? {
      registry.Register(None);
    }
    for i := 0 to |snippets|
      invariant registry.callbacks == []
    {
      registry.Register(None);
    }
    ran := registry.Interrupt();
  }

  // ---------------------------------------------------------------- folder scan

  /** The directories `readdirSync(p, { withFileTypes: true })` lists, filtered on
      `isDirectory()`, in some listing order and each once. */
  method ListDirectories(dirs: set<string>, p: string) returns (names: seq<string>)
    ensures forall x :: x in names <==> x in dirs && IsChild(p, x)
    ensures forall i, j :: 0 <= i < j < |names| ==> names[i] != names[j]
  {
    var left := Children(dirs, p);
    names := [];
    while left != {}
      invariant left <= Children(dirs, p)
      invariant forall x :: x in names <==> x in Children(dirs, p) && x !in left
      invariant forall i, j :: 0 <= i < j < |names| ==> names[i] != names[j]
      decreases left
    {
      var x :| x in left;
      names := names + [x];
      left := left - {x};
    }
  }

  /** `x` lies two levels below `cwd`. */
  predicate Grandchild(dirs: set<string>, cwd: string, x: string) {
    exists p :: p in dirs && IsChild(cwd, p) && IsChild(p, x)
  }

  /** A directory two levels down is not one level down. */
  lemma NotBoth(cwd: string, p: string, x: string)
    requires IsChild(cwd, p) && IsChild(p, x)
    ensures !IsChild(cwd, x)
  {
  }

  /** A path has one parent, as an implication that needs no case split at the call. */
  lemma OneParent(a: string, b: string, c: string)
    ensures IsChild(a, c) && IsChild(b, c) ==> a == b
  {
    if IsChild(a, c) && IsChild(b, c) {
      ChildHasOneParent(a, b, c);
    }
  }

  /** No folder is listed twice. */
  predicate Distinct(s: seq<string>) {
    forall i, j :: 0 <= i < j < |s| ==> s[i] != s[j]
  }

  /** Every folder is listed before the folders directly inside it. */
  predicate ParentsFirst(s: seq<string>) {
    forall i, j :: 0 <= i < |s| && 0 <= j < |s| && IsChild(s[i], s[j]) ==> i < j
  }

  /** `x` is one of the listed folders or directly inside one of them. */
  ghost predicate Under(x: string, listed: seq<string>) {
    exists k :: 0 <= k < |listed| && (x == listed[k] || IsChild(listed[k], x))
  }

  lemma UnderAppend(x: string, listed: seq<string>, e: string)
    ensures Under(x, listed + [e]) <==> Under(x, listed) || x == e || IsChild(e, x)
  {
    var more := listed + [e];
    if Under(x, listed) {
      var k :| 0 <= k < |listed| && (x == listed[k] || IsChild(listed[k], x));
      assert more[k] == listed[k];
    }
    if x == e || IsChild(e, x) {
      assert more[|listed|] == e;
    }
    if Under(x, more) {
      var k :| 0 <= k < |more| && (x == more[k] || IsChild(more[k], x));
      if k < |listed| {
        assert more[k] == listed[k];
      }
    }
  }

  /** The inner loop of `findPDFMonkeyFolders`: the resource directories directly inside
      `dirPath`, appended after what was found so far. */
  method AddSubfolders(files: map<string, string>, dirs: set<string>, cwd: string, listed: seq<string>,
                       dirPath: string, found0: seq<string>) returns (found: seq<string>)
    requires IsChild(cwd, dirPath)
    requires forall k :: 0 <= k < |listed| ==> IsChild(cwd, listed[k]) && listed[k] != dirPath
    requires forall x :: x in found0 ==> Under(x, listed) || x == dirPath
    requires Distinct(found0) && ParentsFirst(found0)
    ensures forall x :: x in found <==> x in found0 || (x in dirs && IsChild(dirPath, x) && IsResource(files, dirs, x))
    ensures Distinct(found) && ParentsFirst(found)
  {
    var subEntries := ListDirectories(dirs, dirPath);
    found := found0;
    for j := 0 to |subEntries|
      invariant forall x :: x in found <==>
        (x in found0 || (IsResource(files, dirs, x) && exists l :: 0 <= l < j && x == subEntries[l]))
      invariant forall x :: x in found ==> Under(x, listed) || x == dirPath || IsChild(dirPath, x)
      invariant Distinct(found) && ParentsFirst(found)
    {
      var y := subEntries[j];
      assert y in subEntries;
      if IsResource(files, dirs, y) {
        NotBoth(cwd, dirPath, y);
        forall b | 0 <= b < |found| ensures found[b] != y && !IsChild(y, found[b]) {
          var x := found[b];
          assert x in found;
          OneParent(y, cwd, x);
          OneParent(y, dirPath, x);
          if Under(x, listed) {
            var k :| 0 <= k < |listed| && (x == listed[k] || IsChild(listed[k], x));
            OneParent(listed[k], dirPath, y);
            OneParent(y, listed[k], x);
          } else if x != dirPath {
            var l :| 0 <= l < j && x == subEntries[l];
          }
        }
        found := found + [y];
      }
    }
    forall x | x in dirs && IsChild(dirPath, x) ensures exists l :: 0 <= l < |subEntries| && x == subEntries[l] {
      assert x in subEntries;
    }
  }

  /** `findPDFMonkeyFolders()`: exactly the resource directories one and two levels below `cwd`,
      each once, every parent listed before its children. */
  method FindPDFMonkeyFolders(files: map<string, string>, dirs: set<string>, cwd: string) returns (found: seq<string>)
    ensures forall x :: x in found <==> (x in dirs && IsResource(files, dirs, x) &&
                                         (IsChild(cwd, x) || Grandchild(dirs, cwd, x)))
    ensures forall i, j :: 0 <= i < j < |found| ==> found[i] != found[j]
    ensures forall i, j :: 0 <= i < |found| && 0 <= j < |found| && IsChild(found[i], found[j]) ==> i < j
  {
    found := [];
    var entries := ListDirectories(dirs, cwd);
    for i := 0 to |entries|
      invariant forall x :: x in found <==> x in dirs && IsResource(files, dirs, x) && Under(x, entries[..i])
      invariant Distinct(found) && ParentsFirst(found)
    {
      var dirPath := entries[i];
      var listed := entries[..i];
      assert dirPath in entries;
      forall k | 0 <= k < |listed| ensures IsChild(cwd, listed[k]) && listed[k] != dirPath {
        assert listed[k] == entries[k] && entries[k] in entries;
      }
      forall x | x in found ensures Under(x, listed) {
      }
      found := AddFolder(files, dirs, cwd, listed, dirPath, found);
      found := AddSubfolders(files, dirs, cwd, listed, dirPath, found);
      assert entries[..i + 1] == listed + [dirPath];
      forall x ensures Under(x, entries[..i + 1]) <==> Under(x, listed) || x == dirPath || IsChild(dirPath, x) {
        UnderAppend(x, listed, dirPath);
      }
    }
    assert entries[..|entries|] == entries;
    forall x | x in dirs ensures Under(x, entries) <==> IsChild(cwd, x) || Grandchild(dirs, cwd, x) {
      UnderListing(dirs, cwd, entries, x);
    }
  }

  /** One step of the outer loop of `findPDFMonkeyFolders`: `dirPath` itself, appended when it
      is a resource. */
  method AddFolder(files: map<string, string>, dirs: set<string>, cwd: string, listed: seq<string>,
                   dirPath: string, found0: seq<string>) returns (found: seq<string>)
    requires IsChild(cwd, dirPath)
    requires forall k :: 0 <= k < |listed| ==> IsChild(cwd, listed[k]) && listed[k] != dirPath
    requires forall x :: x in found0 ==> Under(x, listed)
    requires Distinct(found0) && ParentsFirst(found0)
    ensures forall x :: x in found <==> x in found0 || (x == dirPath && IsResource(files, dirs, dirPath))
    ensures forall x :: x in found ==> Under(x, listed) || x == dirPath
    ensures Distinct(found) && ParentsFirst(found)
  {
    found := found0;
    if IsResource(files, dirs, dirPath) {
      forall b | 0 <= b < |found| ensures found[b] != dirPath && !IsChild(dirPath, found[b]) {
        var x := found[b];
        assert x in found;
        var k :| 0 <= k < |listed| && (x == listed[k] || IsChild(listed[k], x));
        OneParent(dirPath, cwd, x);
        OneParent(dirPath, listed[k], x);
        OneParent(listed[k], cwd, dirPath);
      }
      found := found + [dirPath];
    }
  }

  /** A directory lies under the listing of `cwd` exactly when it is one or two levels below it. */
  lemma UnderListing(dirs: set<string>, cwd: string, entries: seq<string>, x: string)
    requires forall y :: y in entries <==> y in dirs && IsChild(cwd, y)
    requires x in dirs
    ensures Under(x, entries) <==> IsChild(cwd, x) || Grandchild(dirs, cwd, x)
  {
    if IsChild(cwd, x) {
      assert x in entries;
      var k :| 0 <= k < |entries| && entries[k] == x;
    } else if Grandchild(dirs, cwd, x) {
      var p :| p in dirs && IsChild(cwd, p) && IsChild(p, x);
      assert p in entries;
      var k :| 0 <= k < |entries| && entries[k] == p;
    }
    if Under(x, entries) {
      var k :| 0 <= k < |entries| && (x == entries[k] || IsChild(entries[k], x));
      assert entries[k] in entries;
    }
  }
}
