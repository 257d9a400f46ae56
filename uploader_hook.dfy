/** The `useUploader` hook (ux-react/src/hooks/useUploader.jsx): the file selection,
    the upload result and the loading flag, the multipart payload of an upload, and
    the confirm-gated reset of the vector store. An upload is split at its `await`:
    `StartUpload` runs up to the request, `CompleteUpload` from the reply on. */
module UploaderHook {
  import opened Common
  import opened Text
  import opened ClientEffects
  import IngestRoute

  /** What `result` holds: a response body of `POST /ingest`, or the synthetic result
      built after a failure, which has no `status`. */
  datatype UploadResult =
    UploadResult(status: Option<string>, filesIndexed: seq<string>, totalChunks: nat,
                 errors: Option<seq<IngestRoute.FileError>>)

  /** The body of a successful upload, as the route builds it. */
  function FromServer(body: IngestRoute.IngestResponse): (r: UploadResult)
    ensures r.status == Some(body.status) && r.filesIndexed == body.filesIndexed
    ensures r.totalChunks == body.totalChunks && r.errors == body.errors
  {
    UploadResult(Some(body.status), body.filesIndexed, body.totalChunks, body.errors)
  }

  const UploadFallback := "Ocurrió un error al subir los archivos."
  const ResetFallback := "Error inesperado al conectar con el servidor."
  const GeneralErrorFile := "Error general"

  const SelectionWarning :=
    Notice(Warning, "Selección de archivos", "Por favor, selecciona al menos un archivo para subir.")
  const ResetCancelled := Notice(Info, "Acción Cancelada", "La operación ha sido cancelada.")

  /** The result shown after a failed upload: nothing indexed and one general error. */
  function FailureResult(message: string): UploadResult {
    UploadResult(None, [], 0, Some([IngestRoute.FileError(GeneralErrorFile, message)]))
  }

  /** `hasIndexed`: `result?.files_indexed?.length > 0`. */
  predicate HasIndexed(result: Option<UploadResult>) {
    result.Some? && |result.value.filesIndexed| > 0
  }

  /** `hasErrors`: `result?.errors?.length > 0`; an absent `errors` key gives false. */
  predicate HasErrors(result: Option<UploadResult>) {
    result.Some? && result.value.errors.Some? && |result.value.errors.value| > 0
  }

  /** `!selectedFiles || selectedFiles.length === 0`. */
  predicate NothingSelected(selected: Option<seq<SelectedFile>>) {
    selected.None? || |selected.value| == 0
  }

  /** A failed upload shows the error panel and not the success panel. */
  lemma FailureResultFlags(message: string)
    ensures HasErrors(Some(FailureResult(message)))
    ensures !HasIndexed(Some(FailureResult(message)))
  {
  }

  lemma {:induction false} IndexedNamesEmpty(files: seq<IngestRoute.UploadedFile>, results: seq<Result<nat, string>>)
    requires |files| == |results|
    ensures IngestRoute.IndexedNames(files, results) == [] <==> forall j :: 0 <= j < |results| ==> results[j].Err?
  {
    if files != [] {
      IndexedNamesEmpty(files[1..], results[1..]);
      if results[0].Err? {
        forall j | 0 < j < |results| ensures results[j] == results[1..][j - 1] {}
      }
    }
  }

  /** For a response of the ingest route, the error panel shows exactly when some file
      failed and the success panel exactly when some file was indexed; both can show. */
  lemma ServerResultFlags(files: seq<IngestRoute.UploadedFile>, results: seq<Result<nat, string>>)
    requires |files| == |results|
    ensures var r := Some(FromServer(IngestRoute.Respond(IngestRoute.TallyOf(files, results))));
            (HasErrors(r) <==> exists j :: 0 <= j < |results| && results[j].Err?) &&
            (HasIndexed(r) <==> exists j :: 0 <= j < |results| && results[j].Ok?)
  {
    IngestRoute.TallyIsPartition(files, results);
    IngestRoute.FailedEntriesEmpty(files, results);
    IndexedNamesEmpty(files, results);
  }

  /** The files of a selection, as the values appended under "files". */
  function FileParts(files: seq<SelectedFile>): (r: seq<FormValue>)
    ensures |r| == |files|
  {
    seq(|files|, i requires 0 <= i < |files| => FilePart(files[i]))
  }

  /** The values appended under `name`, in the order they were appended: what the
      server reads back for a list-valued form field. */
  function GetAll(payload: seq<FormField>, name: string): seq<FormValue> {
    if payload == [] then []
    else
      var last := payload[|payload| - 1];
      GetAll(payload[..|payload| - 1], name) + (if last.name == name then [last.value] else [])
  }

  lemma GetAllSnoc(payload: seq<FormField>, f: FormField, name: string)
    ensures GetAll(payload + [f], name) == GetAll(payload, name) + (if f.name == name then [f.value] else [])
  {
    assert (payload + [f])[..|payload|] == payload;
  }

  /** Appending a field adds its value under its own name and leaves every other name as it was. */
  lemma AppendField(payload: seq<FormField>, field: FormField)
    ensures GetAll(payload + [field], field.name) == GetAll(payload, field.name) + [field.value]
    ensures forall other :: other != field.name ==> GetAll(payload + [field], other) == GetAll(payload, other)
  {
    forall other
      ensures GetAll(payload + [field], other) ==
              GetAll(payload, other) + (if field.name == other then [field.value] else [])
    {
      GetAllSnoc(payload, field, other);
    }
  }

  /** How the server reads an optional integer form field. */
  datatype FieldRead = Absent | Value(n: int) | Unparsable

  function ReadIntField(payload: seq<FormField>, name: string): FieldRead {
    var vs := GetAll(payload, name);
    if vs == [] then Absent
    else match vs[|vs| - 1]
      case TextPart(t) => if ParseInt(t).Some? then Value(ParseInt(t).value) else Unparsable
      case FilePart(_) => Unparsable
  }

  /** What the server reads when the client sends `v`, or leaves the field out. */
  function Sent(v: Option<int>): FieldRead {
    match v
    case None => Absent
    case Some(n) => Value(n)
  }

  /** A number the client appends is read back as the same number, sign included. */
  lemma ReadRenderedInt(payload: seq<FormField>, name: string, n: int)
    requires GetAll(payload, name) == [TextPart(IntToDecimal(n))]
    ensures ReadIntField(payload, name) == Value(n)
  {
    IntDecimalRoundTrip(n);
  }

  /** The multipart payload of `handleUpload`: every selected file under "files", in
      selection order, then each chunk parameter that is neither undefined nor null,
      rendered as text. No value is checked or replaced: 0 and negative numbers are sent. */
  method BuildPayload(files: seq<SelectedFile>, chunkSize: Option<int>, chunkOverlap: Option<int>)
    returns (payload: seq<FormField>)
    ensures GetAll(payload, "files") == FileParts(files)
    ensures ReadIntField(payload, "chunk_size") == Sent(chunkSize)
    ensures ReadIntField(payload, "chunk_overlap") == Sent(chunkOverlap)
    ensures |payload| == |files| + (if chunkSize.Some? then 1 else 0) + (if chunkOverlap.Some? then 1 else 0)
  {
    payload := [];
    var i := 0;
    while i < |files|
      invariant 0 <= i <= |files| && |payload| == i
      invariant GetAll(payload, "files") == FileParts(files[..i])
      invariant GetAll(payload, "chunk_size") == [] && GetAll(payload, "chunk_overlap") == []
    {
      var field := FormField("files", FilePart(files[i]));
      AppendField(payload, field);
      assert FileParts(files[..i + 1]) == FileParts(files[..i]) + [FilePart(files[i])];
      payload := payload + [field];
      i := i + 1;
    }
    assert files[..i] == files;
    if chunkSize.Some? {
      var field := FormField("chunk_size", TextPart(IntToDecimal(chunkSize.value)));
      AppendField(payload, field);
      payload := payload + [field];
    }
    if chunkOverlap.Some? {
      var field := FormField("chunk_overlap", TextPart(IntToDecimal(chunkOverlap.value)));
      AppendField(payload, field);
      payload := payload + [field];
    }
    if chunkSize.Some? {
      ReadRenderedInt(payload, "chunk_size", chunkSize.value);
    }
    if chunkOverlap.Some? {
      ReadRenderedInt(payload, "chunk_overlap", chunkOverlap.value);
    }
  }

  class Uploader {
    var selected: Option<seq<SelectedFile>>
    var loading: bool
    var result: Option<UploadResult>
    /** The requests issued and the reports shown, oldest first. */
    ghost var requests: seq<Request>
    ghost var reports: seq<Notice>

    constructor ()
      ensures selected == None && !loading && result == None
      ensures requests == [] && reports == []
    {
      selected := None;
      loading := false;
      result := None;
      requests := [];
      reports := [];
    }

    /** `handleFileChange`: the new selection replaces the old one, whatever it is,
        and the previous result is cleared. */
    method FileChange(files: seq<SelectedFile>)
      modifies this`selected, this`result
      ensures selected == Some(files) && result == None
    {
      selected := Some(files);
      result := None;
    }

    /** `handleUpload` up to the request: with nothing selected, a warning and no
        request; otherwise the payload is posted and `loading` is set. */
    method StartUpload(chunkSize: Option<int>, chunkOverlap: Option<int>)
      returns (payload: Option<seq<FormField>>)
      modifies this`loading, this`requests, this`reports
      ensures NothingSelected(selected) ==>
                payload.None? && loading == old(loading) &&
                requests == old(requests) && reports == old(reports) + [SelectionWarning]
      ensures !NothingSelected(selected) ==>
                payload.Some? && loading && reports == old(reports) &&
                requests == old(requests) + [PostIngest(payload.value)] &&
                GetAll(payload.value, "files") == FileParts(selected.value) &&
                ReadIntField(payload.value, "chunk_size") == Sent(chunkSize) &&
                ReadIntField(payload.value, "chunk_overlap") == Sent(chunkOverlap)
    {
      if NothingSelected(selected) {
        reports := reports + [SelectionWarning];
        return None;
      }
      var form := BuildPayload(selected.value, chunkSize, chunkOverlap);
      loading := true;
      requests := requests + [PostIngest(form)];
      payload := Some(form);
    }

    /** `handleUpload` from the reply on: the body on success, otherwise the synthetic
        failure result and a failure report; `loading` is false either way. */
    method CompleteUpload(reply: Reply<IngestRoute.IngestResponse>)
      modifies this`result, this`loading, this`reports
      ensures !loading
      ensures reply.Answered? ==> result == Some(FromServer(reply.body)) && reports == old(reports)
      ensures reply.Failed? ==>
                var message := ErrorText(reply.detail, UploadFallback);
                result == Some(FailureResult(message)) &&
                reports == old(reports) + [Notice(Failure, "Error en la Ingesta", message)]
    {
      match reply {
        case Answered(body) =>
          result := Some(FromServer(body));
        case Failed(detail) =>
          var message := ErrorText(detail, UploadFallback);
          result := Some(FailureResult(message));
          reports := reports + [Notice(Failure, "Error en la Ingesta", message)];
      }
      loading := false;
    }

    /** `handleResetEmbeddings`: nothing is sent unless the user confirms. A successful
        reset clears the selection and the result; a failed one leaves both. */
    method ResetEmbeddings(confirmed: bool, reply: Reply<IngestRoute.ResetResponse>)
      modifies this`selected, this`result, this`requests, this`reports
      ensures !confirmed ==>
                selected == old(selected) && result == old(result) &&
                requests == old(requests) && reports == old(reports) + [ResetCancelled]
      ensures confirmed ==> requests == old(requests) + [DeleteEmbeddings]
      ensures confirmed && reply.Answered? ==>
                selected == None && result == None &&
                reports == old(reports) + [Notice(Success, "Base de Datos Reseteada", reply.body.message)]
      ensures confirmed && reply.Failed? ==>
                selected == old(selected) && result == old(result) &&
                reports == old(reports) + [Notice(Failure, "Error al procesar", ErrorText(reply.detail, ResetFallback))]
    {
      if !confirmed {
        reports := reports + [ResetCancelled];
        return;
      }
      requests := requests + [DeleteEmbeddings];
      match reply {
        case Answered(body) =>
          reports := reports + [Notice(Success, "Base de Datos Reseteada", body.message)];
          selected := None;
          result := None;
        case Failed(detail) =>
          reports := reports + [Notice(Failure, "Error al procesar", ErrorText(detail, ResetFallback))];
      }
    }
  }

  /** A confirmed reset against the route: when the vector store raises `m`, the client
      reports the route's own message and keeps its selection and result. */
  method ResetAgainstServer(uploader: Uploader, failure: Option<string>)
    modifies uploader
    ensures failure.Some? ==>
              uploader.selected == old(uploader.selected) && uploader.result == old(uploader.result) &&
              uploader.reports == old(uploader.reports) +
                [Notice(Failure, "Error al procesar", "Error al resetear base de datos: " + failure.value)]
    ensures failure.None? ==> uploader.selected == None && uploader.result == None
  {
    uploader.ResetEmbeddings(true, ReplyOf(IngestRoute.ResetEmbeddings(failure)));
  }
}
