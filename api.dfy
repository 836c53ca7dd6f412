/** The objects of the remote API that the commands read: the fields the
    sources use, nothing else. HTTP calls themselves are not modelled; each
    is an oracle that answers with an `ApiReply`. */
module Api {
  import opened Wrappers

  /** `document_template`: draft contents may be `null`. */
  datatype Template = Template(
    id: string,
    body_draft: Option<string>,
    scss_style_draft: Option<string>,
    sample_data_draft: Option<string>,
    preview_url: string)

  /** An entry of the template list used when initializing a folder. */
  datatype TemplateCard = TemplateCard(
    id: string,
    display_name: string,
    sanitized_identifier: string,
    sanitized_folder_identifier: Option<string>)

  /** `updated_at` is `None` when the reply has no such field. */
  datatype Snippet = Snippet(
    id: string,
    display_name: string,
    sanitized_identifier: string,
    code: Option<string>,
    updated_at: Option<string>)

  datatype Workspace = Workspace(id: string, identifier: string)

  /** One element of an `errors` array. */
  datatype ApiError = ApiError(status: string, title: string, detail: string)

  /** `json.errors`: an array of errors, or an object mapping attribute names to messages,
      its entries in property order. */
  datatype ApiErrors =
    | ErrorList(items: seq<ApiError>)
    | ErrorMap(entries: seq<(string, seq<string>)>)

  /** A decoded response body: the document, or an `errors` member. */
  datatype ApiReply<+T> = Document(value: T) | Errors(errors: ApiErrors)
}
