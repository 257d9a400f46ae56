/** `POST /ask_model` (rag-local-api/routes/ask.py): an ordered guard cascade, then
    the prompt built from the retrieved context and the last two stored pairs, one
    call to the chat model, one appended history entry, and the response.
    The model list Ollama reports, the size of the vector collection, the retriever,
    the chat model, the clock and the Redis failures are inputs. */
module AskRoute {
  import opened Common
  import opened Text
  import FileRules
  import HistoryStore
  import PromptTemplate

  /** The JSON body of the request. */
  datatype AskRequest = AskRequest(question: string, model: string)

  /** The JSON body of a successful answer. */
  datatype AskResponse = AskResponse(question: string, model: string, answer: string, history: seq<ChatEntry>)

  /** Which of the four Redis calls a request makes raise (each is swallowed by the store). */
  datatype RedisFaults = RedisFaults(lastPairsRead: bool, addPairRead: bool, addPairWrite: bool, fullHistoryRead: bool)

  /** How many stored pairs are given to the model as conversation context. */
  const ContextPairs := 2

  const MissingFieldsDetail := "Complete todos los campos de la pregunta y el modelo."
  const NoDocumentsDetail := "No hay documentos indexados. Ingeste archivos primero."

  function UnavailableModelDetail(model: string): string {
    "El modelo '" + model + "' no está disponible en Ollama."
  }

  /** The guards of `ask_model`, in order: both fields non-empty, the model known to
      Ollama, the collection non-empty. `collectionCount` is `None` when opening the
      vector store or counting its collection raises. `None` when every guard passes. */
  function AskCheck(req: AskRequest, fetched: Option<seq<string>>, collectionCount: Option<nat>): (r: Option<HttpError>)
    ensures r.Some? ==> r.value.status == 400 || r.value == Unhandled
    ensures r == Some(Unhandled) <==>
              req.model != "" && req.question != "" && FileRules.IsValidModel(req.model, fetched) &&
              collectionCount.None?
  {
    if req.model == "" || req.question == "" then Some(HttpError(400, MissingFieldsDetail))
    else if !FileRules.IsValidModel(req.model, fetched) then Some(HttpError(400, UnavailableModelDetail(req.model)))
    else if collectionCount.None? then Some(Unhandled)
    else if collectionCount.value == 0 then Some(HttpError(400, NoDocumentsDetail))
    else None
  }

  /** A request passes exactly when both fields are non-empty, the model is among the
      reported names and the collection holds documents. */
  lemma AskCheckPasses(req: AskRequest, fetched: Option<seq<string>>, collectionCount: Option<nat>)
    ensures AskCheck(req, fetched, collectionCount).None? <==>
            req.model != "" && req.question != "" &&
            fetched.Some? && req.model in fetched.value &&
            collectionCount.Some? && collectionCount.value > 0
  {
  }

  /** An empty field is reported before anything is asked of Ollama or the vector store,
      and an unknown model before the collection is counted. */
  lemma AskCheckOrder(req: AskRequest, fetched: Option<seq<string>>, collectionCount: Option<nat>)
    ensures req.model == "" || req.question == "" ==>
              AskCheck(req, fetched, collectionCount) == Some(HttpError(400, MissingFieldsDetail))
    ensures req.model != "" && req.question != "" && fetched.None? ==>
              AskCheck(req, fetched, collectionCount) == Some(HttpError(400, UnavailableModelDetail(req.model)))
    ensures req.model != "" && req.question != "" && fetched.Some? && req.model !in fetched.value ==>
              AskCheck(req, fetched, collectionCount) == Some(HttpError(400, UnavailableModelDetail(req.model)))
  {
  }

  /** One stored pair as it is shown to the model. */
  function PairBlock(e: ChatEntry): string {
    "👤 Usuario: " + e.question + "\n🤖 IA: " + e.answer
  }

  function Blocks(pairs: seq<ChatEntry>): (r: seq<string>)
    ensures |r| == |pairs|
  {
    seq(|pairs|, i requires 0 <= i < |pairs| => PairBlock(pairs[i]))
  }

  /** `history_text`: one block per pair, in order, separated by newlines.
      It is empty exactly when there are no pairs. */
  function HistoryText(pairs: seq<ChatEntry>): (r: string)
    ensures r == "" <==> pairs == []
  {
    var blocks := Blocks(pairs);
    if pairs == [] then ""
    else
      assert blocks[0] == PairBlock(pairs[0]);
      Join("\n", blocks)
  }

  /** Appending a pair appends a newline and that pair's block. */
  lemma HistoryTextSnoc(pairs: seq<ChatEntry>, e: ChatEntry)
    requires pairs != []
    ensures HistoryText(pairs + [e]) == HistoryText(pairs) + "\n" + PairBlock(e)
  {
    assert Blocks(pairs + [e]) == Blocks(pairs) + [PairBlock(e)];
    JoinSnoc("\n", Blocks(pairs), PairBlock(e));
  }

  /** The history text of a history with at least two entries shows exactly its last two,
      the older one first. */
  lemma HistoryTextOfLastTwo(h: seq<ChatEntry>)
    requires |h| >= 2
    ensures HistoryText(HistoryStore.LastPairs(h, ContextPairs)) ==
            PairBlock(h[|h| - 2]) + "\n" + PairBlock(h[|h| - 1])
  {
    var last := HistoryStore.LastPairs(h, ContextPairs);
    HistoryStore.LastPairsIsSuffix(h, ContextPairs);
    assert last == [h[|h| - 2]] + [h[|h| - 1]];
    HistoryTextSnoc([h[|h| - 2]], h[|h| - 1]);
  }

  /** `"".join(doc.page_content for doc in docs)`: the retrieved texts back to back. */
  function ContextOf(pageContents: seq<string>): (r: string)
    ensures |pageContents| == 1 ==> r == pageContents[0]
  {
    if pageContents == [] then "" else pageContents[0] + ContextOf(pageContents[1..])
  }

  /** One more retrieved text is appended to the context as it is, with no separator:
      the texts appear in the order the retriever returned them. */
  lemma {:induction false} ContextOfSnoc(pageContents: seq<string>, text: string)
    ensures ContextOf(pageContents + [text]) == ContextOf(pageContents) + text
  {
    if pageContents != [] {
      assert (pageContents + [text])[1..] == pageContents[1..] + [text];
      ContextOfSnoc(pageContents[1..], text);
    } else {
      assert pageContents + [text] == [text];
    }
  }

  /** The context is exactly as long as the retrieved texts together. */
  function TotalLength(pageContents: seq<string>): nat {
    if pageContents == [] then 0 else |pageContents[0]| + TotalLength(pageContents[1..])
  }

  lemma {:induction false} ContextOfLength(pageContents: seq<string>)
    ensures |ContextOf(pageContents)| == TotalLength(pageContents)
  {
    if pageContents != [] {
      ContextOfLength(pageContents[1..]);
    }
  }

  /** The prompt `ask_model` gives the chat model, from the pairs it read and the
      page contents the retriever returned for the question. */
  function AskPrompt(question: string, pageContents: seq<string>, pairs: seq<ChatEntry>): string {
    PromptTemplate.BuildPrompt(question, ContextOf(pageContents), HistoryText(pairs))
  }

  /** `ask_model`. `collectionCount` is the size of the vector collection, `None` when
      opening the store or counting raises; `retrieve` gives the page contents of the
      documents the MMR retriever returns for a question, `None` when the retriever
      raises; `chat(model, prompt)` is the chat model's answer, `None` when the call
      raises. Every such exception answers 500 before anything is written to Redis. */
  method AskModel(store: HistoryStore.Store, req: AskRequest, fetched: Option<seq<string>>,
                  collectionCount: Option<nat>, retrieve: string -> Option<seq<string>>,
                  chat: (string, string) -> Option<string>, timestamp: string, faults: RedisFaults)
    returns (r: Result<AskResponse, HttpError>)
    modifies store
    ensures AskCheck(req, fetched, collectionCount).Some? ==>
              r == Err(AskCheck(req, fetched, collectionCount).value) && store.stored == old(store.stored)
    ensures AskCheck(req, fetched, collectionCount).None? ==>
              var pairs := HistoryStore.LastPairs(HistoryStore.Loaded(old(store.stored), faults.lastPairsRead), ContextPairs);
              var docs := retrieve(req.question);
              (docs.None? ==> r == Err(Unhandled) && store.stored == old(store.stored)) &&
              (docs.Some? ==>
                 var reply := chat(req.model, AskPrompt(req.question, docs.value, pairs));
                 (reply.None? ==> r == Err(Unhandled) && store.stored == old(store.stored)) &&
                 (reply.Some? ==>
                    var entry := ChatEntry(req.question, reply.value, timestamp);
                    store.stored == (if faults.addPairWrite then old(store.stored)
                                     else Some(HistoryStore.Loaded(old(store.stored), faults.addPairRead) + [entry])) &&
                    r == Ok(AskResponse(req.question, req.model, reply.value,
                                        HistoryStore.Loaded(store.stored, faults.fullHistoryRead)))))
    ensures r.Ok? && !faults.addPairRead && !faults.addPairWrite && !faults.fullHistoryRead ==>
              var before := HistoryStore.Loaded(old(store.stored), false);
              r.value.question == req.question && r.value.model == req.model &&
              r.value.history == before + [ChatEntry(req.question, r.value.answer, timestamp)]
  {
    var rejected := AskCheck(req, fetched, collectionCount);
    if rejected.Some? {
      return Err(rejected.value);
    }
    var pairs := store.GetLastPairs(ContextPairs, faults.lastPairsRead);
    var historyText := HistoryText(pairs);
    var docs := retrieve(req.question);
    if docs.None? {
      return Err(Unhandled);
    }
    var context := ContextOf(docs.value);
    var prompt := PromptTemplate.BuildPrompt(req.question, context, historyText);
    var reply := chat(req.model, prompt);
    if reply.None? {
      return Err(Unhandled);
    }
    store.AddPair(req.question, reply.value, timestamp, faults.addPairRead, faults.addPairWrite);
    var history := store.GetFullHistory(faults.fullHistoryRead);
    r := Ok(AskResponse(req.question, req.model, reply.value, history));
  }
}
