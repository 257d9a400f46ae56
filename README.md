# RAG local: a Dafny model of the ingest/ask backend and its React client

The system is a local retrieval-augmented chat. The FastAPI backend (`rag-local-api`):

- validates uploaded documents and splits them into chunks for a Chroma vector store (`POST /ingest`, `DELETE /reset_embeddings`);
- answers questions with an Ollama chat model (`POST /ask_model`). The prompt is built from a fixed Spanish template, the retrieved context and the last two question/answer pairs;
- keeps that conversation history under one Redis key;
- lists the chat models Ollama offers (`GET /models`).

The React client (`ux-react`) consists of:

- three hooks: `useUploader`, `useChatHistory` and `useChatLLM`;
- two pages, `Home` and `Ingest`, that wire the hooks to forms;
- a date formatter, `formatDate`.

The model follows the shape of each source file:

- The stateless parts are datatypes, functions and lemmas: the prompt template, the file rules, the model filter, the request checks, the per-file outcome of an ingest and `formatDate`.
- The parts that change state in place are classes with `modifies` clauses:
  - the Redis key (`HistoryStore.Store`);
  - an uploaded file's stream position (`FileRules.Upload`);
  - each hook's React state (`UploaderHook.Uploader`, `ChatHistoryHook.ChatHistory`, `ChatLlmHook.ChatLlm`);
  - the two pages (`HomeView.Home`, `IngestView.DropzoneUploader`).
- Loops in the source are methods with invariants: the ingest loop (`IngestRoute.IndexAll`), the normalisation loop (`IngestRoute.NormaliseAll`) and the multipart payload construction (`UploaderHook.BuildPayload`).
- Everything the code does not compute itself is an input to the operation:
  - Redis, Ollama, the vector store, the document loaders and the splitter;
  - the chat model and the retriever;
  - the clock;
  - the outcome of each HTTP call as seen by axios.
- Each hook records, in ghost logs, the requests it issues and the notiflix reports it shows.
- Async handlers are split at their `await`, as `Start…`/`Complete…` method pairs, wherever the state in between is visible.

Modules: `Common`, `Text` (the Python and JavaScript string operations both sides rely on), `HistoryStore`, `PromptTemplate`, `FileRules`, `ChatModels`, `IngestRoute`, `AskRoute`, `ClientEffects`, `UploaderHook`, `ChatHistoryHook`, `ChatLlmHook`, `HomeView`, `IngestView`, `FormatUtils`.

Behaviour of the code worth knowing:

- `useChatLLM` does not compare `triggerId` when a reply arrives. Whichever reply arrives last is what `data` holds (`ChatLlmHook.LastArrivalWins`). `triggerId` only makes React re-run the request effect (`ChatLlmHook.ResubmitResends`).
- The client does not replace a chunk size of 0 or an invalid overlap by 1000/50. `parseInt(value) || 0` stores 0 or a negative number, and the upload sends it as it is (`IngestView.DropzoneUploader.UploadClick`). Only the server rejects it (`IngestRoute.RequestCheck`).
- `fetchHistory` has no invalidation of an earlier fetch still in flight. Each reply replaces the history when it arrives (`ChatHistoryHook.ChatHistory.CompleteFetch`).
- The extension is `os.path.splitext`'s. A name like `.pdf` or `..pdf` has the extension `""` and is rejected (`FileRules.SplitExt`).

## Model

| member | source | states |
|---|---|---|
| Text.LStrip | rag-local-api/routes/ingest.py:71 | the result is a suffix of the input, does not start with white space, and only white space was removed |
| Text.RStrip | rag-local-api/routes/ingest.py:71 | the result is a prefix of the input, does not end with white space, and only white space was removed |
| Text.Lower | rag-local-api/routes/model.py:22 | same length, each character lower-cased in place |
| Text.JoinSnoc | rag-local-api/routes/ask.py:42-45 | joining one more part appends the separator and that part |
| Text.IntDecimalRoundTrip | rag-local-api/routes/ingest.py:20-21 | an integer rendered as a form value is parsed back to the same integer, sign included |
| HistoryStore.LastPairsIsSuffix | rag-local-api/config/history.py:57-60 | for k ≥ 1, `get_last_pairs` returns the last min(k, len) entries in stored order |
| HistoryStore.LastPairsZeroIsWhole | rag-local-api/config/history.py:60 | k = 0 on a non-empty history returns all of it (`[-0:]` is `[0:]`) |
| HistoryStore.LastPairsNegativeDropsFront | rag-local-api/config/history.py:60 | a negative k drops the first -k entries |
| HistoryStore.Store.constructor | rag-local-api/config/history.py:26 | the key starts with the given content |
| HistoryStore.Store.Load | rag-local-api/config/history.py:29-36 | an absent key or a failed read gives `[]`, otherwise the stored list |
| HistoryStore.Store.Save | rag-local-api/config/history.py:39-43 | the key holds the list, unless the write fails, in which case the key is unchanged |
| HistoryStore.Store.GetFullHistory | rag-local-api/config/history.py:46-47 | exactly the stored list, untransformed |
| HistoryStore.Store.ClearHistory | rag-local-api/config/history.py:50-54 | the key is deleted, unless the delete fails |
| HistoryStore.Store.GetLastPairs | rag-local-api/config/history.py:57-60 | the last k entries of what was loaded, stated as a suffix of the stored list |
| HistoryStore.Store.AddPair | rag-local-api/config/history.py:63-76 | the stored list grows by exactly one entry (question, answer, timestamp) at its end; a failed load replaces the list by that entry; a failed write changes nothing |
| HistoryStore.ClearThenRead | rag-local-api/config/history.py:46-54 | after a successful clear, the full history is `[]` |
| PromptTemplate.TemplateShape | rag-local-api/config/prompt_template.py:1-34 | `.strip()` removes exactly the template's opening and closing newline, leaving the holes context, history text, question in that order |
| PromptTemplate.RenderShape | rag-local-api/config/prompt_template.py:36-37 | `format` copies the literal parts and substitutes each value verbatim, in template order |
| PromptTemplate.BuildPromptLayout | rag-local-api/config/prompt_template.py:1-37 | the prompt is opening text + context + instructions + history text + question lead-in + question |
| PromptTemplate.EachFieldOnce | rag-local-api/config/prompt_template.py:1-34 | each of the three fields is a hole of the template exactly once |
| PromptTemplate.PromptStartsWithLeadIn | rag-local-api/config/prompt_template.py:1-34 | the prompt starts with "Responde en español" |
| PromptTemplate.PromptEndsWithQuestion | rag-local-api/config/prompt_template.py:33-37 | the prompt ends with the question, verbatim |
| PromptTemplate.PromptOrder | rag-local-api/config/prompt_template.py:1-37 | the context follows the "INFORMACION RELEVANTE:" heading, the history text comes after the context, the question after the history text, each at a stated offset |
| PromptTemplate.RuleAfterContext | rag-local-api/config/prompt_template.py:5-7 | right after the context comes a line of twenty dashes, then the instructions |
| FileRules.AllowedExtensionsAreLoaderKeys | rag-local-api/config/utils.py:11-18 | the allowed extensions are exactly the extensions with a loader |
| FileRules.SplitExtIsSuffix | rag-local-api/config/utils.py:36 | an extension is empty or a dot-led suffix of the name without further dots or slashes |
| FileRules.CheckFile | rag-local-api/config/utils.py:34-52 | a size rejection carries the file's own size |
| FileRules.RejectionError | rag-local-api/config/utils.py:39-52 | every rejection is a 400 |
| FileRules.CheckFilePasses | rag-local-api/config/utils.py:34-52 | a file passes iff its lower-cased extension is allowed and its size is at most 8·1024·1024 bytes |
| FileRules.ExtensionCheckedFirst | rag-local-api/config/utils.py:36-40 | a disallowed type is reported with its extension, whatever the size |
| FileRules.NoDotRejected | rag-local-api/config/utils.py:36-40 | a name without a dot has extension "" and is rejected |
| FileRules.UpperCaseExtensionAccepted | rag-local-api/config/utils.py:36 | "Informe.PDF" has extension ".pdf" |
| FileRules.SizeBoundary | rag-local-api/config/utils.py:42-52 | exactly 8 MiB passes, one byte more is rejected, and the message shows "8.00 MB" |
| FileRules.IsValidModel | rag-local-api/config/utils.py:21-31 | a model is valid only if Ollama answered; a failed query rejects every name |
| FileRules.Upload.constructor | rag-local-api/config/utils.py:34 | an upload with its name, size and stream position |
| FileRules.Upload.SeekEndAndTell | rag-local-api/config/utils.py:43-44 | the stream is at its end and the offset is the size |
| FileRules.Upload.ValidateFile | rag-local-api/config/utils.py:34-52 | raises iff `CheckFile` rejects, with that rejection's 400; the stream is rewound to 0 once the extension passes, and left untouched otherwise |
| ChatModels.GetAvailableModels | rag-local-api/routes/model.py:7-29 | a failed query gives `[]` |
| ChatModels.ListModels | rag-local-api/routes/model.py:32-34 | the body lists no model when the query failed |
| ChatModels.ChatOnlyMembership | rag-local-api/routes/model.py:20-25 | a name is listed iff Ollama reported it and it contains no embedding keyword |
| ChatModels.ChatOnlyIsSubsequence | rag-local-api/routes/model.py:25 | the listed names keep Ollama's order |
| ChatModels.ChatOnlyIdempotent | rag-local-api/routes/model.py:25 | filtering the filtered list again changes nothing |
| ChatModels.EmbeddingKeywordRedundant | rag-local-api/routes/model.py:17 | the keyword "embedding" excludes nothing that "embed" does not |
| ChatModels.ListedModelsAreValid | rag-local-api/routes/model.py:7-29 | every listed model passes `is_valid_model`, while an embedding model hidden from the list is still accepted |
| ChatModels.UpperCaseKeywordExcluded | rag-local-api/routes/model.py:20-22 | keywords match case-insensitively ("BGE-M3" is hidden) |
| IngestRoute.RequestCheck | rag-local-api/routes/ingest.py:25-34 | every request-level failure is a 400 |
| IngestRoute.RequestCheckPasses | rag-local-api/routes/ingest.py:25-34 | a request passes iff there is a file, chunk_size > 0 and 0 ≤ chunk_overlap < chunk_size |
| IngestRoute.EmptyFileListFirst | rag-local-api/routes/ingest.py:25-26 | an empty file list is reported whatever the chunk parameters |
| IngestRoute.NormaliseKeepsText | rag-local-api/routes/ingest.py:77-88 | normalising keeps the text the readability check saw; a non-dict tuple metadata and a non-document become `{"source": filename}` |
| IngestRoute.NormaliseAll | rag-local-api/routes/ingest.py:78-88 | one document per raw document, in order, with the same text |
| IngestRoute.FriendlyErrorCases | rag-local-api/routes/ingest.py:102-111 | a damaged-PDF message is replaced by a fixed text; any other message is kept verbatim after a prefix naming the file |
| IngestRoute.UnreadableFileIsError | rag-local-api/routes/ingest.py:70-75 | a file with no documents, or whose documents all strip to fewer than 20 characters, is recorded with the "escaneado" detail |
| IngestRoute.ValidatedFileHasLoader | rag-local-api/routes/ingest.py:43-50 | once `validate_file` passes, a loader exists, so the no-loader branch is dead |
| IngestRoute.TallyIsPartition | rag-local-api/routes/ingest.py:36-116 | indexed names and error entries are the passing and failing files, in input order; together they cover every file; the chunk total is the sum over indexed files |
| IngestRoute.Respond | rag-local-api/routes/ingest.py:118-126 | status "partial_success" iff there are errors; the `errors` key is present iff non-empty |
| IngestRoute.IndexFile | rag-local-api/routes/ingest.py:52-111 | the outcome of one validated file is the specification `ProcessFile` |
| IngestRoute.RejectionSticks | rag-local-api/routes/ingest.py:42-43 | after a rejected file, the later files change nothing |
| IngestRoute.IndexFilesOutcome | rag-local-api/routes/ingest.py:42-116 | the loop raises the 400 of the first rejected file, else yields the tally of all files |
| IngestRoute.IndexAll | rag-local-api/routes/ingest.py:42-116 | the loop computes the `IndexFiles` fold |
| IngestRoute.Ingest | rag-local-api/routes/ingest.py:18-126 | a vector store that cannot be opened gives an unhandled 500 before any check; defaults 1000/50; then the request checks; then the first rejected file's 400; otherwise the response of the tally |
| IngestRoute.ResponseShape | rag-local-api/routes/ingest.py:119-126 | "partial_success" iff some file failed; the indexed and error counts add up to the number of files |
| IngestRoute.ResetEmbeddings | rag-local-api/routes/ingest.py:129-139 | ok iff the reset succeeded; a failure is a 500 with the reset error in its detail |
| AskRoute.AskCheck | rag-local-api/routes/ask.py:26-38 | every guard failure is a 400, except that opening or counting the vector store raising is the unhandled 500, which comes only after both fields and the model have passed |
| AskRoute.AskCheckPasses | rag-local-api/routes/ask.py:26-38 | a request passes iff both fields are non-empty, Ollama reports the model, and the collection could be counted and is non-empty |
| AskRoute.AskCheckOrder | rag-local-api/routes/ask.py:26-38 | empty fields are reported first, an unknown or unverifiable model before anything about the collection |
| AskRoute.HistoryText | rag-local-api/routes/ask.py:42-45 | the history text is empty iff there are no pairs |
| AskRoute.HistoryTextSnoc | rag-local-api/routes/ask.py:42-45 | one more pair appends a newline and its block |
| AskRoute.HistoryTextOfLastTwo | rag-local-api/routes/ask.py:41-45 | with at least two stored pairs, the model sees exactly the last two, the older first |
| AskRoute.ContextOf | rag-local-api/routes/ask.py:56 | one retrieved text is the context verbatim |
| AskRoute.ContextOfSnoc | rag-local-api/routes/ask.py:56 | one more retrieved text is appended to the context verbatim, with no separator, keeping the retriever's order |
| AskRoute.ContextOfLength | rag-local-api/routes/ask.py:56 | the context is as long as the retrieved texts together |
| AskRoute.AskModel | rag-local-api/routes/ask.py:24-81 | a guard failure answers its 400 and leaves Redis alone; a raising vector store, retriever or chat model answers 500 and leaves Redis alone; otherwise the model gets the prompt of the retrieved texts and the last two pairs, one entry is appended, and the answer carries the full history ending with it |
| ClientEffects.ErrorText | ux-react/src/hooks/useUploader.jsx:44-45 | a non-empty server detail is shown, otherwise the fallback |
| UploaderHook.FailureResultFlags | ux-react/src/hooks/useUploader.jsx:46-50 | a failed upload shows the error panel and not the success panel |
| UploaderHook.ServerResultFlags | ux-react/src/hooks/useUploader.jsx:98-99 | for a server response, `hasErrors` iff some file failed and `hasIndexed` iff some file was indexed |
| UploaderHook.AppendField | ux-react/src/hooks/useUploader.jsx:22-32 | appending a form field adds its value under its name and changes no other name |
| UploaderHook.ReadRenderedInt | ux-react/src/hooks/useUploader.jsx:27-32 | a number appended to the form is read by the server as that number |
| UploaderHook.BuildPayload | ux-react/src/hooks/useUploader.jsx:22-32 | all files under "files" in selection order; each defined chunk parameter is read back as sent, an absent one as absent |
| UploaderHook.Uploader.constructor | ux-react/src/hooks/useUploader.jsx:7-9 | no selection, not loading, no result |
| UploaderHook.Uploader.FileChange | ux-react/src/hooks/useUploader.jsx:11-14 | the selection is replaced and the old result cleared |
| UploaderHook.Uploader.StartUpload | ux-react/src/hooks/useUploader.jsx:16-40 | with nothing selected, a warning and no request; otherwise one POST of the payload, and loading |
| UploaderHook.Uploader.CompleteUpload | ux-react/src/hooks/useUploader.jsx:41-55 | success stores the body; failure stores nothing indexed plus one general error and reports it; loading ends either way |
| UploaderHook.Uploader.ResetEmbeddings | ux-react/src/hooks/useUploader.jsx:58-89 | no request unless confirmed; success clears the selection and the result; failure keeps both and reports the detail |
| UploaderHook.ResetAgainstServer | ux-react/src/hooks/useUploader.jsx:64-76 | a server-side reset failure reaches the user as the route's own 500 detail |
| ChatHistoryHook.ChatHistory.constructor | ux-react/src/hooks/useChatHistory.jsx:8-10 | empty history, loading, no error |
| ChatHistoryHook.ChatHistory.StartFetch | ux-react/src/hooks/useChatHistory.jsx:12-16 | loading, error cleared, one GET of the history URL |
| ChatHistoryHook.ChatHistory.CompleteFetch | ux-react/src/hooks/useChatHistory.jsx:16-23 | success replaces the history wholesale; failure keeps it and sets the reload message; loading ends |
| ChatHistoryHook.ChatHistory.FetchHistory | ux-react/src/hooks/useChatHistory.jsx:12-24 | one GET; the history is the reply and the error cleared, or the history kept and the reload message set |
| ChatHistoryHook.ChatHistory.DeleteHistory | ux-react/src/hooks/useChatHistory.jsx:30-57 | as written: nothing sent unless confirmed; a successful clear re-fetches and reports success; a failed clear throws before reporting |
| ChatHistoryHook.ChatHistory.DeleteHistoryIntended | ux-react/src/hooks/useChatHistory.jsx:30-57 | as intended: a failed clear is reported and the callback ends normally |
| ChatHistoryHook.ClearFailureUnreported | ux-react/src/hooks/useChatHistory.jsx:41-43 | a failed clear, as written, throws and shows no report |
| ChatHistoryHook.ClearFailureReported | ux-react/src/hooks/useChatHistory.jsx:41-43 | a failed clear, as intended, shows the failure report and keeps the history |
| ChatLlmHook.ChatLlm.constructor | ux-react/src/hooks/useChatLLM.jsx:5-8 | no data, not loading, no error, no models |
| ChatLlmHook.ChatLlm.Render | ux-react/src/hooks/useChatLLM.jsx:11-40 | the question is sent iff a dependency changed and model, question and url are all truthy |
| ChatLlmHook.ChatLlm.CompleteAsk | ux-react/src/hooks/useChatLLM.jsx:29-36 | success replaces `data`; failure keeps it and sets the detail or the fallback; loading ends |
| ChatLlmHook.ChatLlm.FetchModels | ux-react/src/hooks/useChatLLM.jsx:43-54 | the list is the reply's models or `[]`; a failure keeps the old list |
| ChatLlmHook.ResubmitResends | ux-react/src/hooks/useChatLLM.jsx:40 | the same question with a new `triggerId` is sent again |
| ChatLlmHook.UnhandledShowsFallback | ux-react/src/hooks/useChatLLM.jsx:30-33 | an uncaught server error (500 without `detail`) shows "Error inesperado en la API" |
| ChatLlmHook.LastArrivalWins | ux-react/src/hooks/useChatLLM.jsx:29 | of two replies, the later arrival is kept, whichever request it answers |
| HomeView.ShownError | ux-react/src/components/Home.jsx:77-79 | an error is shown iff either is truthy; the request error wins |
| HomeView.VisibleEntries | ux-react/src/components/Home.jsx:82-85 | nothing while the history loads, otherwise every entry in stored order |
| HomeView.Home.constructor | ux-react/src/components/Home.jsx:30 | `params` starts null, both form fields empty, no model error |
| HomeView.Home.EditQuestion | ux-react/src/components/Home.jsx:139-146 | the question field holds what was typed |
| HomeView.Home.SelectModel | ux-react/src/components/Home.jsx:184-195 | the model field holds the chosen option |
| HomeView.Home.HookArgs | ux-react/src/components/Home.jsx:31-36 | while `params` is null the hook sends nothing |
| HomeView.Home.Submit | ux-react/src/components/Home.jsx:52-60 | with an empty required field nothing changes but the model error; otherwise params hold the form values, the ask URL and the clock, the question field is cleared, and the question is sent iff the params differ from the hook's last run; sending disables the controls |
| HomeView.Home.SyncHistory | ux-react/src/components/Home.jsx:38-42 | an answer's history replaces the local history wholesale |
| HomeView.Home.SyncModel | ux-react/src/components/Home.jsx:44-50 | a non-empty model list selects its first model |
| IngestView.TrimStart | ux-react/src/components/Ingest.jsx:85 | the result is a suffix of the input and does not start with white space |
| IngestView.DigitPrefix | ux-react/src/components/Ingest.jsx:85 | the longest run of leading digits |
| IngestView.ParseLeadingInt | ux-react/src/components/Ingest.jsx:85 | `parseInt` reads any integer's numeral back, whatever non-digit text follows |
| IngestView.FieldValueRoundTrip | ux-react/src/components/Ingest.jsx:85 | typing an integer's numeral stores that integer, 0 and negatives included |
| IngestView.FieldValueExamples | ux-react/src/components/Ingest.jsx:98 | an emptied field stores 0, "12.5" stores 12 |
| IngestView.DropzoneUploader.constructor | ux-react/src/components/Ingest.jsx:20-21 | the fields start at the server's defaults 1000 and 50 |
| IngestView.DropzoneUploader.EditChunkSize | ux-react/src/components/Ingest.jsx:85 | the size is `parseInt(text) \|\| 0` |
| IngestView.DropzoneUploader.EditChunkOverlap | ux-react/src/components/Ingest.jsx:98 | the overlap is `parseInt(text) \|\| 0` |
| IngestView.DropzoneUploader.UploadClick | ux-react/src/components/Ingest.jsx:24-26 | the fields are sent as they are, and the server reads exactly them |
| IngestView.ClickWithEmptySelection | ux-react/src/components/Ingest.jsx:123 | an empty non-null selection leaves the button enabled, and clicking only warns |
| IngestView.BothPanelsShow | ux-react/src/components/Ingest.jsx:129-146 | a partially successful ingest shows both panels |
| FormatUtils.PadStart | ux-react/src/utils/formatUtils.jsx:10-11 | the length is max(len, width), the input is the suffix and the fill is the prefix |
| FormatUtils.MonthNamesDistinct | ux-react/src/utils/formatUtils.jsx:3-6 | different month indices give different names |
| FormatUtils.TwoDigitsOfClockField | ux-react/src/utils/formatUtils.jsx:10-11 | an hour or a minute becomes two digits of the same value |
| FormatUtils.StampShape | ux-react/src/utils/formatUtils.jsx:12 | "date hh:mm" starts with the date, and the clock reads back from its end |
| FormatUtils.FormatDateLayout | ux-react/src/utils/formatUtils.jsx:1-13 | the text starts with the month name and a space, and ends with " HH:MM" reading back the hour and the minute |

## Left out

- I/O is not executed; each outcome becomes an input:
  - Redis (a read, write or delete either raises or succeeds, and is swallowed);
  - JSON encoding and decoding of the history;
  - Ollama's model list, the chat model and the MMR retriever;
  - the Chroma store (opening it may raise), the document loaders, the temporary file, and `RecursiveCharacterTextSplitter`, which becomes an `index` function from documents and chunk parameters to a chunk count or an error message.
- The timing `print`s in `ask_model` and the error `print`s in the Redis helpers are not modelled, because they change no result.
- The timestamp of a history entry is a parameter. `datetime.now(timezone.utc).isoformat()` is a clock read.
- `formatDate` starts from the local calendar fields. `new Date(isoDateStr)`, time zones and invalid dates ("NaN") are not modelled.
- `FormatUtils.FormatDateLayout` requires an hour below 24 and a minute below 60, which is what `getHours`/`getMinutes` return. The day and year are any integers.
- `Text.Lower` lower-cases ASCII letters only. Python's Unicode case mapping of other letters is not modelled.
- `FileRules.FormatMb` computes the size exactly with integers and rounds half to even, as `:.2f` does on the exact quotient. Only sizes of 2^53 bytes or more, where the float division itself rounds, could differ.
- `IngestView.JsParseInt` models decimal `parseInt`. The `0x` prefix (radix 16) is not modelled, and `ParseLeadingInt` excludes a following `x` for that reason. Digit runs beyond 2^53, which lose precision in JavaScript, are not modelled.
- The server side of a request field is `Text.ParseInt`, an optional sign and digits. FastAPI's other integer syntaxes (surrounding space, underscores) are not modelled. A 422 for an unparsable field is not modelled either, because its `detail` is a list, not a string.
- JSX rendering and scrolling are left out, except for the conditions that decide what is shown: the error line, the history entries, the two result panels and the disabled controls.
- The notiflix `Confirm` dialog becomes a `confirmed` parameter, and report button labels are dropped. `console.error` is not modelled.
- `Ingest.jsx` calls `useChatHistory()` without a URL, so its mount effect fetches `undefined`. Only the clear action of that hook instance is modelled there.
- Files indexed before a rejected file stay in the vector store although the request answers 400. The model returns only the 400 and does not track the store's contents.
- The `GET /history` and `POST /clearHistory` routes are context. Their store operations are modelled in `HistoryStore`.
- Concurrency between independent in-flight requests is modelled only as the order in which `Complete…` methods are called.
- `IngestRoute.IndexAll` takes ghost `verdicts` and `results` sequences pinned by its `requires`. They name what `validate_file` and the per-file processing yield, so the loop can be stated against the fold `IndexFiles`.

## Findings

| source | as written | input that shows it | evidently intended | confidence | as-written member | corrected member |
|---|---|---|---|---|---|---|
| ux-react/src/hooks/useChatHistory.jsx:41-43 | the `catch (err)` block logs `e`, which is not in scope; the `ReferenceError` ends the confirm callback before `Report.failure` | confirm the clear while `POST /clearHistory` fails (server down, 500) | report "No se pudo limpiar el historial." and end normally | not executed | ChatHistoryHook.ClearFailureUnreported | ChatHistoryHook.ClearFailureReported |
