/** `POST /ingest` and `DELETE /reset_embeddings` (rag-local-api/routes/ingest.py).
    Loading a file, splitting it into chunks and adding them to the vector store are
    foreign calls: what the loader returned (or the message of what it raised) is an
    input per file, and splitting plus storing is an input function of the normalised
    documents and the chunk parameters. */
module IngestRoute {
  import opened Common
  import opened Text
  import opened FileRules

  /** A LangChain `Document`. */
  datatype Document = Document(pageContent: string, metadata: map<string, string>)

  /** The metadata half of a `(content, metadata)` tuple: a dict or anything else. */
  datatype Metadata = DictMeta(entries: map<string, string>) | NonDictMeta

  /** One element of what `loader.load()` returns: a tuple, a `Document`, or any other
      object, given by its `str()`. */
  datatype RawDoc =
    | TupleDoc(content: string, meta: Metadata)
    | LangchainDoc(doc: Document)
    | OtherDoc(asText: string)

  /** An uploaded file as the route sees it. */
  datatype UploadedFile = UploadedFile(filename: string, size: nat)

  /** What writing the temporary file and running the loader did. */
  datatype LoadOutcome = LoadRaised(message: string) | Loaded(raw: seq<RawDoc>)

  /** What splitting the documents and adding the chunks to the vector store did. */
  datatype Indexing = Indexed(chunks: nat) | IndexingRaised(message: string)

  /** One entry of the response's `errors` list. */
  datatype FileError = FileError(file: string, error: string)

  /** The response body: `errors` is `None` when the key is absent. */
  datatype IngestResponse =
    IngestResponse(status: string, filesIndexed: seq<string>, totalChunks: nat, errors: Option<seq<FileError>>)

  const DefaultChunkSize := 1000
  const DefaultChunkOverlap := 50
  /** Readable documents have at least this many characters once stripped. */
  const MinReadableLength := 20

  /** The request checks, in the order the route makes them, before any file is looked at. */
  function RequestCheck(fileCount: nat, chunkSize: int, chunkOverlap: int): (r: Option<HttpError>)
    ensures r.Some? ==> r.value.status == 400
  {
    if fileCount == 0 then Some(HttpError(400, "Debes enviar al menos un archivo."))
    else if chunkSize <= 0 then Some(HttpError(400, "chunk_size debe ser un número entero positivo."))
    else if chunkOverlap < 0 then Some(HttpError(400, "chunk_overlap no puede ser negativo."))
    else if chunkOverlap >= chunkSize then Some(HttpError(400, "chunk_overlap debe ser menor que chunk_size."))
    else None
  }

  /** The request passes exactly when there is a file, the size is positive and the
      overlap lies in [0, size). */
  lemma RequestCheckPasses(fileCount: nat, chunkSize: int, chunkOverlap: int)
    ensures RequestCheck(fileCount, chunkSize, chunkOverlap).None? <==>
            fileCount > 0 && chunkSize > 0 && 0 <= chunkOverlap < chunkSize
  {
  }

  /** An empty file list is reported whatever the chunk parameters are. */
  lemma EmptyFileListFirst(chunkSize: int, chunkOverlap: int)
    ensures RequestCheck(0, chunkSize, chunkOverlap) == Some(HttpError(400, "Debes enviar al menos un archivo."))
  {
  }

  /** `extract_text`. */
  function ExtractText(d: RawDoc): string {
    match d
    case TupleDoc(content, _) => content
    case LangchainDoc(doc) => doc.pageContent
    case OtherDoc(s) => s
  }

  /** A document whose text, stripped, is shorter than 20 characters. */
  predicate ShortText(d: RawDoc) {
    |Strip(ExtractText(d))| < MinReadableLength
  }

  /** `not raw_documents or all(len(extract_text(doc).strip()) < 20 for doc in raw_documents)`. */
  predicate Unreadable(raw: seq<RawDoc>) {
    raw == [] || forall i :: 0 <= i < |raw| ==> ShortText(raw[i])
  }

  /** The `Document` the normalisation loop appends for one raw document. */
  function Normalise(d: RawDoc, filename: string): Document {
    match d
    case TupleDoc(content, DictMeta(m)) => Document(content, m)
    case TupleDoc(content, NonDictMeta) => Document(content, map["source" := filename])
    case LangchainDoc(doc) => doc
    case OtherDoc(s) => Document(s, map["source" := filename])
  }

  /** Normalising keeps the text the readability check looked at, and only a
      document that carries no metadata dict gets `{"source": filename}`. */
  lemma NormaliseKeepsText(d: RawDoc, filename: string)
    ensures Normalise(d, filename).pageContent == ExtractText(d)
    ensures d.TupleDoc? && d.meta.NonDictMeta? ==> Normalise(d, filename).metadata == map["source" := filename]
    ensures d.TupleDoc? && d.meta.DictMeta? ==> Normalise(d, filename).metadata == d.meta.entries
    ensures d.LangchainDoc? ==> Normalise(d, filename) == d.doc
  {
  }

  /** The loop building `processed_documents`: one `Document` per raw document, in order. */
  method NormaliseAll(raw: seq<RawDoc>, filename: string) returns (docs: seq<Document>)
    ensures |docs| == |raw|
    ensures forall i :: 0 <= i < |raw| ==> docs[i] == Normalise(raw[i], filename)
    ensures forall i :: 0 <= i < |raw| ==> docs[i].pageContent == ExtractText(raw[i])
  {
    docs := [];
    var i := 0;
    while i < |raw|
      invariant 0 <= i <= |raw|
      invariant |docs| == i
      invariant forall j :: 0 <= j < i ==> docs[j] == Normalise(raw[j], filename)
    {
      var doc: Document;
      match raw[i] {
        case TupleDoc(content, meta) =>
          var metadata := if meta.DictMeta? then meta.entries else map["source" := filename];
          doc := Document(content, metadata);
        case LangchainDoc(d) =>
          doc := d;
        case OtherDoc(s) =>
          doc := Document(s, map["source" := filename]);
      }
      docs := docs + [doc];
      i := i + 1;
    }
    forall i | 0 <= i < |raw| ensures docs[i].pageContent == ExtractText(raw[i]) {
      NormaliseKeepsText(raw[i], filename);
    }
  }

  /** Messages that mark a PDF the parser could not read. */
  predicate DamagedPdfMessage(message: string) {
    Contains(message, "Invalid Elementary Object") || Contains(message, "Could not read malformed PDF file")
  }

  /** The message recorded for a PDF the parser could not read. */
  function DamagedPdfDetail(filename: string): string {
    "El archivo '" + filename + "' parece estar dañado o contener contenido no estándar. " +
    "Asegúrate de subir un PDF válido con texto extraíble."
  }

  /** The message recorded for a file whose processing raised a generic exception. */
  function FriendlyError(filename: string, message: string): string {
    if DamagedPdfMessage(message) then DamagedPdfDetail(filename)
    else "Hubo un error al procesar '" + filename + "': " + message
  }

  /** A damaged-PDF message is replaced by a fixed text that does not show it; any
      other message is shown in full after the file name. */
  lemma FriendlyErrorCases(filename: string, message: string, other: string)
    ensures DamagedPdfMessage(message) && DamagedPdfMessage(other) ==>
              FriendlyError(filename, message) == FriendlyError(filename, other)
    ensures !DamagedPdfMessage(message) ==>
              var prefix := "Hubo un error al procesar '" + filename + "': ";
              var r := FriendlyError(filename, message);
              prefix <= r && r[|prefix|..] == message
  {
    if !DamagedPdfMessage(message) {
      var prefix := "Hubo un error al procesar '" + filename + "': ";
      assert FriendlyError(filename, message) == prefix + message;
    }
  }

  /** The detail of the 400 raised for a file without extractable text. */
  function ScannedDetail(filename: string): string {
    "El archivo " + filename + " parece estar escaneado o no contiene texto extraíble."
  }

  /** What one validated file contributes: its chunk count, or the error message recorded for it. */
  function ProcessFile(filename: string, load: LoadOutcome, chunkSize: int, chunkOverlap: int,
                       index: (seq<Document>, int, int) -> Indexing): Result<nat, string>
  {
    var suffix := Extension(filename);
    if suffix !in Loaders then Err("Tipo de archivo no soportado: " + suffix)
    else match load
      case LoadRaised(message) => Err(FriendlyError(filename, message))
      case Loaded(raw) =>
        if Unreadable(raw) then Err(ScannedDetail(filename))
        else
          var docs := seq(|raw|, i requires 0 <= i < |raw| => Normalise(raw[i], filename));
          match index(docs, chunkSize, chunkOverlap)
          case Indexed(n) => Ok(n)
          case IndexingRaised(message) => Err(FriendlyError(filename, message))
  }

  /** A file whose documents are all unreadable is an error with the "escaneado" detail. */
  lemma UnreadableFileIsError(filename: string, raw: seq<RawDoc>, chunkSize: int, chunkOverlap: int,
                              index: (seq<Document>, int, int) -> Indexing)
    requires CheckFile(filename, 0).None?
    requires Unreadable(raw)
    ensures ProcessFile(filename, Loaded(raw), chunkSize, chunkOverlap, index) == Err(ScannedDetail(filename))
  {
    AllowedExtensionsAreLoaderKeys();
  }

  /** Once `validate_file` has passed, a loader exists for the extension: the
      "no soportado" branch is never taken. */
  lemma ValidatedFileHasLoader(filename: string, size: nat)
    requires CheckFile(filename, size).None?
    ensures Extension(filename) in Loaders
  {
    AllowedExtensionsAreLoaderKeys();
  }

  /** `(indexed_files, total_chunks, errors)` after the loop has handled the given files. */
  datatype Tally = Tally(indexed: seq<string>, total: nat, errors: seq<FileError>)

  /** One iteration's update of the accumulators. */
  function Step(t: Tally, name: string, result: Result<nat, string>): Tally {
    match result
    case Ok(n) => Tally(t.indexed + [name], t.total + n, t.errors)
    case Err(m) => Tally(t.indexed, t.total, t.errors + [FileError(name, m)])
  }

  function TallyOf(files: seq<UploadedFile>, results: seq<Result<nat, string>>): Tally
    requires |files| == |results|
  {
    if files == [] then Tally([], 0, [])
    else
      var k := |files| - 1;
      Step(TallyOf(files[..k], results[..k]), files[k].filename, results[k])
  }

  /** The names of the files that were indexed, in input order. */
  function IndexedNames(files: seq<UploadedFile>, results: seq<Result<nat, string>>): seq<string>
    requires |files| == |results|
  {
    if files == [] then []
    else (if results[0].Ok? then [files[0].filename] else []) + IndexedNames(files[1..], results[1..])
  }

  /** The error entries of the files that were not indexed, in input order. */
  function FailedEntries(files: seq<UploadedFile>, results: seq<Result<nat, string>>): seq<FileError>
    requires |files| == |results|
  {
    if files == [] then []
    else (if results[0].Err? then [FileError(files[0].filename, results[0].error)] else []) +
         FailedEntries(files[1..], results[1..])
  }

  /** The chunk counts of the indexed files, added up. */
  function ChunkSum(results: seq<Result<nat, string>>): nat {
    if results == [] then 0
    else (if results[0].Ok? then results[0].value else 0) + ChunkSum(results[1..])
  }

  lemma {:induction false} IndexedNamesSnoc(files: seq<UploadedFile>, results: seq<Result<nat, string>>)
    requires |files| == |results| && files != []
    ensures var k := |files| - 1;
            IndexedNames(files, results) ==
            IndexedNames(files[..k], results[..k]) + (if results[k].Ok? then [files[k].filename] else [])
  {
    var k := |files| - 1;
    if k > 0 {
      assert files[1..][..k - 1] == files[..k][1..];
      assert results[1..][..k - 1] == results[..k][1..];
      IndexedNamesSnoc(files[1..], results[1..]);
    }
  }

  lemma {:induction false} FailedEntriesSnoc(files: seq<UploadedFile>, results: seq<Result<nat, string>>)
    requires |files| == |results| && files != []
    ensures var k := |files| - 1;
            FailedEntries(files, results) ==
            FailedEntries(files[..k], results[..k]) +
            (if results[k].Err? then [FileError(files[k].filename, results[k].error)] else [])
  {
    var k := |files| - 1;
    if k > 0 {
      assert files[1..][..k - 1] == files[..k][1..];
      assert results[1..][..k - 1] == results[..k][1..];
      FailedEntriesSnoc(files[1..], results[1..]);
    }
  }

  lemma {:induction false} ChunkSumSnoc(results: seq<Result<nat, string>>)
    requires results != []
    ensures var k := |results| - 1;
            ChunkSum(results) == ChunkSum(results[..k]) + (if results[k].Ok? then results[k].value else 0)
  {
    var k := |results| - 1;
    if k > 0 {
      assert results[1..][..k - 1] == results[..k][1..];
      ChunkSumSnoc(results[1..]);
    }
  }

  /** `indexed_files` lists the indexed files in input order, `errors` holds one entry
      per failed file in input order, and `total_chunks` is the sum of the indexed files'
      chunk counts. */
  lemma {:induction false} TallyIsPartition(files: seq<UploadedFile>, results: seq<Result<nat, string>>)
    requires |files| == |results|
    ensures TallyOf(files, results).indexed == IndexedNames(files, results)
    ensures TallyOf(files, results).errors == FailedEntries(files, results)
    ensures TallyOf(files, results).total == ChunkSum(results)
    ensures |TallyOf(files, results).indexed| + |TallyOf(files, results).errors| == |files|
  {
    if files != [] {
      var k := |files| - 1;
      TallyIsPartition(files[..k], results[..k]);
      IndexedNamesSnoc(files, results);
      FailedEntriesSnoc(files, results);
      ChunkSumSnoc(results);
    }
  }

  /** The response built from the loop's three accumulators. */
  function Respond(t: Tally): (r: IngestResponse)
    ensures r.status == (if t.errors != [] then "partial_success" else "indexed")
    ensures r.errors.Some? <==> t.errors != []
    ensures r.errors.Some? ==> r.errors.value == t.errors
    ensures r.filesIndexed == t.indexed && r.totalChunks == t.total
  {
    IngestResponse(if t.errors != [] then "partial_success" else "indexed",
                   t.indexed, t.total, if t.errors != [] then Some(t.errors) else None)
  }

  /** `validate_file`'s verdict on each file, in file order. */
  function Verdicts(files: seq<UploadedFile>): (vs: seq<Option<Rejection>>)
    ensures |vs| == |files|
  {
    seq(|files|, j requires 0 <= j < |files| => CheckFile(files[j].filename, files[j].size))
  }

  /** The per-file results for the given chunk parameters, in file order: each file's
      result depends on that file alone. */
  function Results(files: seq<UploadedFile>, loads: seq<LoadOutcome>, chunkSize: int, chunkOverlap: int,
                   index: (seq<Document>, int, int) -> Indexing): (rs: seq<Result<nat, string>>)
    requires |loads| == |files|
    ensures |rs| == |files|
  {
    seq(|files|, j requires 0 <= j < |files| => ProcessFile(files[j].filename, loads[j], chunkSize, chunkOverlap, index))
  }

  /** `verdicts[j]` is `validate_file`'s verdict on file j. */
  ghost predicate VerdictAt(files: seq<UploadedFile>, verdicts: seq<Option<Rejection>>, j: int)
    requires 0 <= j < |files| && |verdicts| == |files|
  {
    verdicts[j] == CheckFile(files[j].filename, files[j].size)
  }

  /** `results[j]` is what file j contributes. */
  ghost predicate ResultAt(files: seq<UploadedFile>, loads: seq<LoadOutcome>, chunkSize: int, chunkOverlap: int,
                           index: (seq<Document>, int, int) -> Indexing, results: seq<Result<nat, string>>, j: int)
    requires 0 <= j < |files| && |loads| == |files| && |results| == |files|
  {
    results[j] == ProcessFile(files[j].filename, loads[j], chunkSize, chunkOverlap, index)
  }

  lemma VerdictsHold(files: seq<UploadedFile>)
    ensures forall j {:trigger VerdictAt(files, Verdicts(files), j)} ::
              0 <= j < |files| ==> VerdictAt(files, Verdicts(files), j)
  {
  }

  lemma ResultsHold(files: seq<UploadedFile>, loads: seq<LoadOutcome>, chunkSize: int, chunkOverlap: int,
                    index: (seq<Document>, int, int) -> Indexing)
    requires |loads| == |files|
    ensures var rs := Results(files, loads, chunkSize, chunkOverlap, index);
            forall j {:trigger ResultAt(files, loads, chunkSize, chunkOverlap, index, rs, j)} ::
              0 <= j < |files| ==> ResultAt(files, loads, chunkSize, chunkOverlap, index, rs, j)
  {
  }

  /** The index of the first rejected file, or the number of files when none is. */
  function FirstRejected(verdicts: seq<Option<Rejection>>): (k: nat)
    ensures k <= |verdicts|
    ensures forall j :: 0 <= j < k ==> verdicts[j].None?
    ensures k < |verdicts| ==> verdicts[k].Some?
  {
    if verdicts == [] then 0
    else if verdicts[0].Some? then 0
    else 1 + FirstRejected(verdicts[1..])
  }

  /** FirstRejected is the only index before which every file passes and at which one is rejected. */
  lemma FirstRejectedUnique(verdicts: seq<Option<Rejection>>, k: nat)
    requires k <= |verdicts|
    requires forall j :: 0 <= j < k ==> verdicts[j].None?
    requires k < |verdicts| ==> verdicts[k].Some?
    ensures FirstRejected(verdicts) == k
  {
  }

  /** The body of the `try` for one validated file: load, check readability, normalise,
      split and store; an exception becomes the message recorded for the file. */
  method IndexFile(filename: string, load: LoadOutcome, chunkSize: int, chunkOverlap: int,
                   index: (seq<Document>, int, int) -> Indexing)
    returns (outcome: Result<nat, string>)
    ensures outcome == ProcessFile(filename, load, chunkSize, chunkOverlap, index)
  {
    var suffix := Extension(filename);
    if suffix !in Loaders {
      return Err("Tipo de archivo no soportado: " + suffix);
    }
    match load {
      case LoadRaised(message) =>
        outcome := Err(FriendlyError(filename, message));
      case Loaded(raw) =>
        if Unreadable(raw) {
          outcome := Err(ScannedDetail(filename));
        } else {
          var docs := NormaliseAll(raw, filename);
          assert docs == seq(|raw|, k requires 0 <= k < |raw| => Normalise(raw[k], filename));
          match index(docs, chunkSize, chunkOverlap) {
            case Indexed(n) =>
              outcome := Ok(n);
            case IndexingRaised(message) =>
              outcome := Err(FriendlyError(filename, message));
          }
        }
    }
  }

  /** One iteration: a rejection already raised stays raised; otherwise the file's
      verdict either raises or lets its result be tallied. */
  function Advance(prev: Result<Tally, HttpError>, name: string, verdict: Option<Rejection>,
                   result: Result<nat, string>): Result<Tally, HttpError>
  {
    match prev
    case Err(e) => Err(e)
    case Ok(t) =>
      match verdict
      case Some(rejection) => Err(RejectionError(rejection))
      case None => Ok(Step(t, name, result))
  }

  /** What the loop has produced after the given files, from their verdicts and results:
      the 400 of the first rejected file, or the three accumulators. */
  function IndexFiles(files: seq<UploadedFile>, verdicts: seq<Option<Rejection>>,
                      results: seq<Result<nat, string>>): Result<Tally, HttpError>
    requires |verdicts| == |files| && |results| == |files|
  {
    if files == [] then Ok(Tally([], 0, []))
    else
      var k := |files| - 1;
      Advance(IndexFiles(files[..k], verdicts[..k], results[..k]), files[k].filename, verdicts[k], results[k])
  }

  lemma IndexFilesPrefix(files: seq<UploadedFile>, verdicts: seq<Option<Rejection>>,
                         results: seq<Result<nat, string>>, i: nat)
    requires |verdicts| == |files| && |results| == |files| && i < |files|
    ensures IndexFiles(files[..i + 1], verdicts[..i + 1], results[..i + 1]) ==
            Advance(IndexFiles(files[..i], verdicts[..i], results[..i]), files[i].filename, verdicts[i], results[i])
  {
    assert files[..i + 1][..i] == files[..i];
    assert verdicts[..i + 1][..i] == verdicts[..i];
    assert results[..i + 1][..i] == results[..i];
  }

  /** A file that passes adds its result to the tally of the files before it. */
  lemma PassingFileTallied(files: seq<UploadedFile>, verdicts: seq<Option<Rejection>>,
                           results: seq<Result<nat, string>>, i: nat, t: Tally)
    requires |verdicts| == |files| && |results| == |files| && i < |files|
    requires IndexFiles(files[..i], verdicts[..i], results[..i]) == Ok(t)
    requires verdicts[i].None?
    ensures IndexFiles(files[..i + 1], verdicts[..i + 1], results[..i + 1]) ==
            Ok(Step(t, files[i].filename, results[i]))
  {
    IndexFilesPrefix(files, verdicts, results, i);
  }

  /** A rejected file ends the loop with its 400. */
  lemma RejectedFileRaises(files: seq<UploadedFile>, verdicts: seq<Option<Rejection>>,
                           results: seq<Result<nat, string>>, i: nat, t: Tally)
    requires |verdicts| == |files| && |results| == |files| && i < |files|
    requires IndexFiles(files[..i], verdicts[..i], results[..i]) == Ok(t)
    requires verdicts[i].Some?
    ensures IndexFiles(files, verdicts, results) == Err(RejectionError(verdicts[i].value))
  {
    IndexFilesPrefix(files, verdicts, results, i);
    RejectionSticks(files, verdicts, results, i + 1);
  }

  /** Once a file has been rejected, the files after it change nothing. */
  lemma {:induction false} RejectionSticks(files: seq<UploadedFile>, verdicts: seq<Option<Rejection>>,
                                           results: seq<Result<nat, string>>, i: nat)
    requires |verdicts| == |files| && |results| == |files| && i <= |files|
    requires IndexFiles(files[..i], verdicts[..i], results[..i]).Err?
    ensures IndexFiles(files, verdicts, results) == IndexFiles(files[..i], verdicts[..i], results[..i])
  {
    if i < |files| {
      var k := |files| - 1;
      assert files[..k][..i] == files[..i];
      assert verdicts[..k][..i] == verdicts[..i];
      assert results[..k][..i] == results[..i];
      RejectionSticks(files[..k], verdicts[..k], results[..k], i);
    } else {
      assert files[..i] == files && verdicts[..i] == verdicts && results[..i] == results;
    }
  }

  /** The loop's outcome: the 400 of the first rejected file when there is one (the
      files before it have been processed but their results are lost), otherwise the
      tally of every file's result. */
  lemma {:induction false} IndexFilesOutcome(files: seq<UploadedFile>, verdicts: seq<Option<Rejection>>,
                                             results: seq<Result<nat, string>>)
    requires |verdicts| == |files| && |results| == |files|
    ensures var k := FirstRejected(verdicts);
            var r := IndexFiles(files, verdicts, results);
            if k < |files| then r == Err(RejectionError(verdicts[k].value)) else r == Ok(TallyOf(files, results))
  {
    if files != [] {
      var n := |files| - 1;
      IndexFilesOutcome(files[..n], verdicts[..n], results[..n]);
      var kp := FirstRejected(verdicts[..n]);
      forall j | 0 <= j < kp ensures verdicts[j].None? {
        assert verdicts[j] == verdicts[..n][j];
      }
      if kp < n {
        assert verdicts[kp] == verdicts[..n][kp];
        FirstRejectedUnique(verdicts, kp);
      } else if verdicts[n].Some? {
        FirstRejectedUnique(verdicts, n);
      } else {
        FirstRejectedUnique(verdicts, |files|);
      }
    }
  }

  /** The `for file in files` loop. `verdicts` and `results` name, for the proof, what
      `validate_file` and the body of the `try` give for each file. */
  method IndexAll(files: seq<UploadedFile>, loads: seq<LoadOutcome>, chunkSize: int, chunkOverlap: int,
                  index: (seq<Document>, int, int) -> Indexing,
                  ghost verdicts: seq<Option<Rejection>>, ghost results: seq<Result<nat, string>>)
    returns (r: Result<Tally, HttpError>)
    requires |loads| == |files| && |verdicts| == |files| && |results| == |files|
    requires forall j {:trigger VerdictAt(files, verdicts, j)} :: 0 <= j < |files| ==> VerdictAt(files, verdicts, j)
    requires forall j {:trigger ResultAt(files, loads, chunkSize, chunkOverlap, index, results, j)} ::
               0 <= j < |files| ==> ResultAt(files, loads, chunkSize, chunkOverlap, index, results, j)
    ensures r == IndexFiles(files, verdicts, results)
  {
    var totalChunks: nat := 0;
    var indexedFiles: seq<string> := [];
    var errors: seq<FileError> := [];
    var i := 0;
    while i < |files|
      invariant 0 <= i <= |files|
      invariant IndexFiles(files[..i], verdicts[..i], results[..i]) == Ok(Tally(indexedFiles, totalChunks, errors))
    {
      var file := files[i];
      var rejected := CheckFile(file.filename, file.size);
      assert rejected == verdicts[i] by {
        assert VerdictAt(files, verdicts, i);
      }
      if rejected.Some? {
        RejectedFileRaises(files, verdicts, results, i, Tally(indexedFiles, totalChunks, errors));
        return Err(RejectionError(rejected.value));
      }
      ghost var before := Tally(indexedFiles, totalChunks, errors);
      PassingFileTallied(files, verdicts, results, i, before);
      var outcome := IndexFile(file.filename, loads[i], chunkSize, chunkOverlap, index);
      assert outcome == results[i] by {
        assert ResultAt(files, loads, chunkSize, chunkOverlap, index, results, i);
      }
      match outcome {
        case Ok(n) =>
          totalChunks := totalChunks + n;
          indexedFiles := indexedFiles + [file.filename];
        case Err(m) =>
          errors := errors + [FileError(file.filename, m)];
      }
      assert Tally(indexedFiles, totalChunks, errors) == Step(before, file.filename, outcome);
      i := i + 1;
    }
    assert files[..i] == files && verdicts[..i] == verdicts && results[..i] == results;
    r := Ok(Tally(indexedFiles, totalChunks, errors));
  }

  /** `ingest`. `storeOpened` is false when `settings.get_vectordb()` raises: that call
      comes before every request check, so any request then ends in an unhandled 500.
      An absent form field takes its default (1000, 50). A file rejected by
      `validate_file` ends the request with that 400: the call is outside the `try`,
      so no response body is built for the files before it. */
  method Ingest(storeOpened: bool, files: seq<UploadedFile>, chunkSizeField: Option<int>, chunkOverlapField: Option<int>,
                loads: seq<LoadOutcome>, index: (seq<Document>, int, int) -> Indexing)
    returns (r: Result<IngestResponse, HttpError>)
    requires |loads| == |files|
    ensures var size := chunkSizeField.GetOr(DefaultChunkSize);
            var overlap := chunkOverlapField.GetOr(DefaultChunkOverlap);
            var check := RequestCheck(|files|, size, overlap);
            var verdicts := Verdicts(files);
            var k := FirstRejected(verdicts);
            if !storeOpened then r == Err(Unhandled)
            else if check.Some? then r == Err(check.value)
            else if k < |files| then r == Err(RejectionError(verdicts[k].value))
            else r == Ok(Respond(TallyOf(files, Results(files, loads, size, overlap, index))))
  {
    var chunkSize := chunkSizeField.GetOr(DefaultChunkSize);
    var chunkOverlap := chunkOverlapField.GetOr(DefaultChunkOverlap);
    if !storeOpened {
      return Err(Unhandled);
    }
    if |files| == 0 {
      return Err(HttpError(400, "Debes enviar al menos un archivo."));
    }
    if chunkSize <= 0 {
      return Err(HttpError(400, "chunk_size debe ser un número entero positivo."));
    }
    if chunkOverlap < 0 {
      return Err(HttpError(400, "chunk_overlap no puede ser negativo."));
    }
    if chunkOverlap >= chunkSize {
      return Err(HttpError(400, "chunk_overlap debe ser menor que chunk_size."));
    }

    ghost var verdicts := Verdicts(files);
    ghost var results := Results(files, loads, chunkSize, chunkOverlap, index);
    VerdictsHold(files);
    ResultsHold(files, loads, chunkSize, chunkOverlap, index);
    var outcome := IndexAll(files, loads, chunkSize, chunkOverlap, index, verdicts, results);
    IndexFilesOutcome(files, verdicts, results);
    match outcome {
      case Err(e) =>
        r := Err(e);
      case Ok(t) =>
        var status := if t.errors != [] then "partial_success" else "indexed";
        r := Ok(IngestResponse(status, t.indexed, t.total, if t.errors != [] then Some(t.errors) else None));
    }
  }

  /** `status` is "partial_success" exactly when some file failed, and the `errors` key
      is present exactly then; every file ends up indexed or in `errors`, never both. */
  lemma ResponseShape(files: seq<UploadedFile>, results: seq<Result<nat, string>>)
    requires |files| == |results|
    ensures var r := Respond(TallyOf(files, results));
            (r.status == "partial_success" <==> exists j :: 0 <= j < |results| && results[j].Err?) &&
            (r.errors.Some? <==> r.status == "partial_success") &&
            |r.filesIndexed| + (if r.errors.Some? then |r.errors.value| else 0) == |files|
  {
    TallyIsPartition(files, results);
    FailedEntriesEmpty(files, results);
  }

  lemma {:induction false} FailedEntriesEmpty(files: seq<UploadedFile>, results: seq<Result<nat, string>>)
    requires |files| == |results|
    ensures FailedEntries(files, results) == [] <==> forall j :: 0 <= j < |results| ==> results[j].Ok?
  {
    if files != [] {
      FailedEntriesEmpty(files[1..], results[1..]);
      if results[0].Ok? {
        forall j | 0 < j < |results| ensures results[j] == results[1..][j - 1] {}
      }
    }
  }

  /** The body of a successful `reset_embeddings`. */
  datatype ResetResponse = ResetResponse(status: string, message: string)

  /** `reset_embeddings`: `None` when the vector store was reset, otherwise the text
      of the exception it raised, reported as a 500. */
  function ResetEmbeddings(failure: Option<string>): (r: Result<ResetResponse, HttpError>)
    ensures failure.None? <==> r.Ok?
    ensures r.Ok? ==> r.value.status == "ok"
    ensures r.Err? ==> r.error.status == 500 &&
                       r.error.detail == "Error al resetear base de datos: " + failure.value
  {
    match failure
    case None => Ok(ResetResponse("ok", "Base de datos reseteada completamente."))
    case Some(e) => Err(HttpError(500, "Error al resetear base de datos: " + e))
  }
}
