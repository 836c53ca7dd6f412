/** `src/utils/pdfmonkey.js`: the calls to the remote API and the formatting of the
    errors it returns. Every HTTP exchange is an oracle `api` from the request sent to
    the decoded response body. */
module Pdfmonkey {
  import opened Wrappers
  import opened Text
  import opened Files
  import opened Api
  import Constants

  const TemplatesUrl: string := "https://api.pdfmonkey.io/api/v1/document_templates/"
  const DebugsUrl: string := "https://api.pdfmonkey.io/api/v1/document_template_debugs/"

  /** The three drafts `buildTemplateData` sends, serialised as one JSON object. */
  datatype TemplatePayload = TemplatePayload(body_draft: string, scss_style_draft: string, sample_data_draft: string)

  /** One HTTP request: verb, URL, the API key sent as a bearer token, and the JSON body. */
  datatype Request = Request(verb: string, url: string, apiKey: string, payload: Option<TemplatePayload>)

  /** `{ success, template }` or `{ success: false, errors }` from `updateTemplate`. */
  datatype Update = Updated(template: Template) | Rejected(errors: ApiErrors)

  /** `buildTemplateData(path)`: each `readFile` throws when its file is missing. */
  function BuildTemplateData(files: map<string, string>, path: string): (r: Result<TemplatePayload>)
    ensures r.Ok? <==> forall f :: f in TemplateFileNames() ==> FilePath(path, f) in files
    ensures r.Ok? ==> r.value == TemplatePayload(files[FilePath(path, "body.html.liquid")],
                                                 files[FilePath(path, "styles.scss")],
                                                 files[FilePath(path, "sample_data.json")])
  {
    match Read(files, path, "body.html.liquid")
    case Err(e) => Err(e)
    case Ok(body) =>
      match Read(files, path, "styles.scss")
      case Err(e) => Err(e)
      case Ok(scss) =>
        match Read(files, path, "sample_data.json")
        case Err(e) => Err(e)
        case Ok(sample) => Ok(TemplatePayload(body, scss, sample))
  }

  function TemplateFileNames(): set<string> {
    {"body.html.liquid", "styles.scss", "sample_data.json"}
  }

  /** What `writeTemplateContent` writes, `buildTemplateData` reads back: the drafts of the
      template, `null` ones as empty files, whatever else the folder holds. */
  lemma BuildAfterWrite(files: map<string, string>, path: string, t: Template)
    ensures var written := WithTemplateContent(files, path, t);
      BuildTemplateData(written, path) ==
        Ok(TemplatePayload(t.body_draft.GetOr(""), t.scss_style_draft.GetOr(""), t.sample_data_draft.GetOr("")))
  {
    FilePathInjective(path, "body.html.liquid", "styles.scss");
    FilePathInjective(path, "body.html.liquid", "sample_data.json");
    FilePathInjective(path, "styles.scss", "sample_data.json");
  }

  // ---------------------------------------------------------------- errors

  /** The separator the array case puts between title and detail, as the source file spells it:
      the three characters an em dash's UTF-8 bytes read as Windows-1252, between spaces. */
  const DetailSeparator: string := " \U{E2}\U{20AC}\U{201D} "

  /** `${error.status} ${error.title} — ${error.detail}` */
  function ErrorLine(e: ApiError): (r: string)
    ensures |r| == |e.status| + |e.title| + |e.detail| + 6
    ensures StartsWith(r, e.status + " " + e.title) && r[|r| - |e.detail|..] == e.detail
    ensures r[|e.status| + |e.title| + 1 .. |r| - |e.detail|] == DetailSeparator
  {
    e.status + " " + e.title + DetailSeparator + e.detail
  }

  /** The line of one message of an `errors` object: the attribute's display name, then the message. */
  function MessageLine(key: string, message: string): string {
    Constants.AttributeDisplayName(key) + ": " + message
  }

  /** `${attributeNames[key]}: ${errorMessage}` for each message of one attribute. */
  function MessageLines(key: string, messages: seq<string>): (r: seq<string>)
    ensures |r| == |messages|
    ensures forall i :: 0 <= i < |r| ==> r[i] == MessageLine(key, messages[i])
  {
    seq(|messages|, i requires 0 <= i < |messages| => MessageLine(key, messages[i]))
  }

  /** How many messages an `errors` object holds. */
  function MessageCount(entries: seq<(string, seq<string>)>): nat
    decreases |entries|
  {
    if entries == [] then 0 else |entries[0].1| + MessageCount(entries[1..])
  }

  /** `Object.entries(errors).map(...).flat()` */
  function EntryLines(entries: seq<(string, seq<string>)>): (r: seq<string>)
    ensures |r| == MessageCount(entries)
    decreases |entries|
  {
    if entries == [] then [] else MessageLines(entries[0].0, entries[0].1) + EntryLines(entries[1..])
  }

  /** The lines `formatErrors` joins. */
  function ErrorLines(errors: ApiErrors): (r: seq<string>)
    ensures errors.ErrorList? ==> |r| == |errors.items| && forall i :: 0 <= i < |r| ==> r[i] == ErrorLine(errors.items[i])
    ensures errors.ErrorMap? ==> |r| == MessageCount(errors.entries)
  {
    match errors
    case ErrorList(items) => seq(|items|, i requires 0 <= i < |items| => ErrorLine(items[i]))
    case ErrorMap(entries) => EntryLines(entries)
  }

  /** `formatErrors(errors)` */
  function FormatErrors(errors: ApiErrors): (r: string)
    ensures ErrorLines(errors) == [] ==> r == ""
    ensures |ErrorLines(errors)| == 1 ==> r == ErrorLines(errors)[0]
  {
    Join(ErrorLines(errors), "\n")
  }

  /** The messages before entry `j`. */
  function Offset(entries: seq<(string, seq<string>)>, j: nat): nat
    requires j <= |entries|
  {
    MessageCount(entries[..j])
  }

  /** For an `errors` object, the `m`-th message of the `j`-th attribute is the line after
      all messages of the attributes before it: attribute order first, message order second. */
  lemma EntryLineAt(entries: seq<(string, seq<string>)>, j: nat, m: nat)
    requires j < |entries| && m < |entries[j].1|
    ensures Offset(entries, j) + m < |EntryLines(entries)|
    ensures EntryLines(entries)[Offset(entries, j) + m] ==
      Constants.AttributeDisplayName(entries[j].0) + ": " + entries[j].1[m]
  {
    EntryLineIsMessageLine(entries, j, m);
  }

  /** The line at the offset of attribute `j` plus `m` is its `m`-th message line. */
  lemma {:induction false} EntryLineIsMessageLine(entries: seq<(string, seq<string>)>, j: nat, m: nat)
    requires j < |entries| && m < |entries[j].1|
    ensures Offset(entries, j) + m < |EntryLines(entries)|
    ensures EntryLines(entries)[Offset(entries, j) + m] == MessageLines(entries[j].0, entries[j].1)[m]
    decreases j
  {
    if j == 0 {
      EntryLineInFirst(entries, m);
    } else {
      EntryLineIsMessageLine(entries[1..], j - 1, m);
      EntryLineInRest(entries, j, m);
    }
  }

  /** The lines of the first attribute come first. */
  lemma EntryLineInFirst(entries: seq<(string, seq<string>)>, m: nat)
    requires entries != [] && m < |entries[0].1|
    ensures Offset(entries, 0) + m < |EntryLines(entries)|
    ensures EntryLines(entries)[Offset(entries, 0) + m] == MessageLines(entries[0].0, entries[0].1)[m]
  {
    var head := MessageLines(entries[0].0, entries[0].1);
    EntryLinesUnfold(entries);
    assert entries[..0] == [];
    assert (head + EntryLines(entries[1..]))[m] == head[m];
  }

  /** A line of a later attribute sits past the first attribute's lines. */
  lemma EntryLineInRest(entries: seq<(string, seq<string>)>, j: nat, m: nat)
    requires 0 < j < |entries| && m < |entries[j].1|
    requires Offset(entries[1..], j - 1) + m < |EntryLines(entries[1..])|
    requires EntryLines(entries[1..])[Offset(entries[1..], j - 1) + m] ==
      MessageLines(entries[1..][j - 1].0, entries[1..][j - 1].1)[m]
    ensures Offset(entries, j) + m < |EntryLines(entries)|
    ensures EntryLines(entries)[Offset(entries, j) + m] == MessageLines(entries[j].0, entries[j].1)[m]
  {
    var head := MessageLines(entries[0].0, entries[0].1);
    var rest := entries[1..];
    EntryLinesUnfold(entries);
    OffsetStep(entries, j);
    assert rest[j - 1] == entries[j];
    ConcatIndex(head, EntryLines(rest), Offset(rest, j - 1) + m);
  }

  /** The lines of the first attribute, then those of the rest. */
  lemma EntryLinesUnfold(entries: seq<(string, seq<string>)>)
    requires entries != []
    ensures EntryLines(entries) == MessageLines(entries[0].0, entries[0].1) + EntryLines(entries[1..])
  {
  }

  /** Past its first part, a concatenation reads its second part. */
  lemma ConcatIndex<T>(a: seq<T>, b: seq<T>, k: nat)
    requires k < |b|
    ensures (a + b)[|a| + k] == b[k]
  {
  }

  /** The offset of attribute `j` is the first attribute's messages plus its offset in the rest. */
  lemma OffsetStep(entries: seq<(string, seq<string>)>, j: nat)
    requires 0 < j <= |entries|
    ensures Offset(entries, j) == |entries[0].1| + Offset(entries[1..], j - 1)
  {
    assert entries[..j][0] == entries[0];
    assert entries[..j][1..] == entries[1..][..j - 1];
  }

  /** No field of any error holds a line break. */
  predicate SingleLine(errors: ApiErrors) {
    match errors
    case ErrorList(items) =>
      forall i :: 0 <= i < |items| ==> '\n' !in items[i].status && '\n' !in items[i].title && '\n' !in items[i].detail
    case ErrorMap(entries) =>
      forall j :: 0 <= j < |entries| ==> forall m :: 0 <= m < |entries[j].1| ==> '\n' !in entries[j].1[m]
  }

  lemma DisplayNameSingleLine(key: string)
    ensures '\n' !in Constants.AttributeDisplayName(key)
  {
    var n := Constants.AttributeDisplayName(key);
    if key in Constants.AttributeNames() {
      assert n in Constants.AttributeNames().Values;
    }
  }

  lemma {:induction false} EntryLinesSingleLine(entries: seq<(string, seq<string>)>)
    requires SingleLine(ErrorMap(entries))
    ensures forall i :: 0 <= i < |EntryLines(entries)| ==> '\n' !in EntryLines(entries)[i]
    decreases |entries|
  {
    if entries != [] {
      DisplayNameSingleLine(entries[0].0);
      assert SingleLine(ErrorMap(entries[1..])) by {
        forall j | 0 <= j < |entries[1..]|
          ensures forall m :: 0 <= m < |entries[1..][j].1| ==> '\n' !in entries[1..][j].1[m]
        {
          assert entries[1..][j] == entries[j + 1];
        }
      }
      EntryLinesSingleLine(entries[1..]);
      assert forall m :: 0 <= m < |entries[0].1| ==> '\n' !in entries[0].1[m] by {
        assert 0 < |entries|;
      }
    }
  }

  /** `formatErrors` prints one line per error, in order: splitting its text at line breaks
      gives back exactly the lines it was built from, when no field holds a line break. */
  lemma FormatErrorsLines(errors: ApiErrors)
    requires SingleLine(errors) && ErrorLines(errors) != []
    ensures Split(FormatErrors(errors), '\n') == ErrorLines(errors)
  {
    var lines := ErrorLines(errors);
    match errors
    case ErrorList(items) =>
      forall i | 0 <= i < |lines| ensures '\n' !in lines[i] {
        assert lines[i] == items[i].status + " " + items[i].title + DetailSeparator + items[i].detail;
      }
      SplitJoin(lines, '\n');
    case ErrorMap(entries) =>
      EntryLinesSingleLine(entries);
      SplitJoin(lines, '\n');
  }

  // ---------------------------------------------------------------- calls

  /** `getTemplate(templateId, apiKey)` with what it logs: an `errors` member logs the
      formatted errors and yields `null`. */
  datatype Fetched = Fetched(template: Option<Template>, logged: Option<string>)

  function GetTemplate(templateId: string, apiKey: string, api: Request -> ApiReply<Template>): (r: Fetched)
    ensures r.template.None? <==> api(Request("GET", TemplatesUrl + templateId, apiKey, None)).Errors?
    ensures r.template.Some? ==> r.template.value == api(Request("GET", TemplatesUrl + templateId, apiKey, None)).value && r.logged == None
    ensures r.template.None? ==> r.logged == Some(FormatErrors(api(Request("GET", TemplatesUrl + templateId, apiKey, None)).errors))
  {
    match api(Request("GET", TemplatesUrl + templateId, apiKey, None))
    case Document(t) => Fetched(Some(t), None)
    case Errors(e) => Fetched(None, Some(FormatErrors(e)))
  }

  /** `getTemplatePreviewUrl(template, apiKey, debug)`: the preview URL of the template, or with
      `debug` the URL of a debug render; a debug reply without `document_template_debug` throws. */
  function GetTemplatePreviewUrl(template: Template, apiKey: string, debug: bool,
                                 debugApi: Request -> Option<string>): (r: Result<string>)
    ensures !debug ==> r == Ok(template.preview_url)
    ensures debug ==> (r.Ok? <==> debugApi(Request("GET", DebugsUrl + template.id, apiKey, None)).Some?)
    ensures debug && r.Ok? ==> r.value == debugApi(Request("GET", DebugsUrl + template.id, apiKey, None)).value
  {
    if debug then
      match debugApi(Request("GET", DebugsUrl + template.id, apiKey, None))
      case Some(url) => Ok(url)
      case None => Err(TypeError("document_template_debug"))
    else Ok(template.preview_url)
  }

  /** `updateTemplate(templateId, apiKey, path)`: the three local drafts are PATCHed; a missing
      file throws before any request. */
  function UpdateTemplate(files: map<string, string>, templateId: string, apiKey: string, path: string,
                          api: Request -> ApiReply<Template>): (r: Result<Update>)
    ensures r.Err? <==> BuildTemplateData(files, path).Err?
    ensures r.Ok? ==>
      var reply := api(Request("PATCH", TemplatesUrl + templateId, apiKey, Some(BuildTemplateData(files, path).value)));
      (r.value.Updated? <==> reply.Document?) &&
      (reply.Document? ==> r.value.template == reply.value) &&
      (reply.Errors? ==> r.value.errors == reply.errors)
  {
    match BuildTemplateData(files, path)
    case Err(e) => Err(e)
    case Ok(payload) =>
      match api(Request("PATCH", TemplatesUrl + templateId, apiKey, Some(payload)))
      case Document(t) => Ok(Updated(t))
      case Errors(e) => Ok(Rejected(e))
  }

  /** After `writeTemplateContent(template)`, `updateTemplate` sends exactly the drafts of that template. */
  lemma UpdateSendsWrittenDrafts(files: map<string, string>, path: string, t: Template, apiKey: string,
                                 api: Request -> ApiReply<Template>)
    ensures var written := WithTemplateContent(files, path, t);
      var sent := TemplatePayload(t.body_draft.GetOr(""), t.scss_style_draft.GetOr(""), t.sample_data_draft.GetOr(""));
      UpdateTemplate(written, t.id, apiKey, path, api).Ok? &&
      (UpdateTemplate(written, t.id, apiKey, path, api).value.Updated? <==>
        api(Request("PATCH", TemplatesUrl + t.id, apiKey, Some(sent))).Document?)
  {
    BuildAfterWrite(files, path, t);
  }
}
