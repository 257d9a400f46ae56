/** What the React client does to the outside world, and what it gets back.
    Requests go through axios and reports through notiflix; both are recorded in
    logs kept by the hooks instead of being performed. */
module ClientEffects {
  import opened Common

  /** The kinds of notiflix `Report` the client shows. */
  datatype ReportKind = Success | Failure | Warning | Info

  /** One `Report.<kind>(title, message, button)`; the button label is not modelled. */
  datatype Notice = Notice(kind: ReportKind, title: string, message: string)

  /** A file the user picked in the file input. */
  datatype SelectedFile = SelectedFile(name: string, size: nat)

  /** A value appended to a `FormData`: a file, or a number rendered as text. */
  datatype FormValue = FilePart(file: SelectedFile) | TextPart(text: string)

  /** One `formData.append(name, value)`. */
  datatype FormField = FormField(name: string, value: FormValue)

  /** The HTTP requests the client issues. */
  datatype Request =
    | PostIngest(payload: seq<FormField>)
    | DeleteEmbeddings
    | GetHistory(url: string)
    | PostClearHistory
    | PostAsk(url: string, model: string, question: string)
    | GetModels

  /** How an awaited axios call ended: the response body, or a rejection carrying
      `err.response.data.detail` when there is one. */
  datatype Reply<+T> = Answered(body: T) | Failed(detail: Option<string>)

  /** `err?.response?.data?.detail || fallback`: an absent or empty detail gives the fallback. */
  function ErrorText(detail: Option<string>, fallback: string): (r: string)
    ensures detail.Some? && detail.value != "" ==> r == detail.value
    ensures (detail.None? || detail.value == "") ==> r == fallback
  {
    if detail.Some? && detail.value != "" then detail.value else fallback
  }

  /** How an axios call sees a route's outcome: a 2xx body, or the `detail` of the error. */
  function ReplyOf<T>(outcome: Result<T, HttpError>): (r: Reply<T>)
    ensures outcome.Ok? <==> r.Answered?
    ensures outcome.Err? ==> r == Failed(Some(outcome.error.detail))
  {
    match outcome
    case Ok(body) => Answered(body)
    case Err(e) => Failed(Some(e.detail))
  }
}
