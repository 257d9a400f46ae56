/** The glue in the `Home` page (ux-react/src/components/Home.jsx) between the form,
    `useChatLLM` and `useChatHistory`: what a submit sets, how an answer's history
    replaces the local one, the default model, and which error and entries are shown. */
module HomeView {
  import opened Common
  import opened ClientEffects
  import opened ChatLlmHook
  import ChatHistoryHook

  const AskModelUrl := "http://localhost:8000/ask_model"

  /** `error || historyError`: the text shown above the chat, if any. */
  function ShownError(requestError: Option<string>, historyError: Option<string>): (r: Option<string>)
    ensures r.Some? <==> Truthy(requestError) || Truthy(historyError)
    ensures Truthy(requestError) ==> r == requestError
    ensures !Truthy(requestError) && Truthy(historyError) ==> r == historyError
  {
    if Truthy(requestError) then requestError
    else if Truthy(historyError) then historyError
    else None
  }

  /** The entries listed: none while the history loads, otherwise all of them in stored order. */
  function VisibleEntries(loadingHistory: bool, history: seq<ChatEntry>): (r: seq<ChatEntry>)
    ensures loadingHistory ==> r == []
    ensures !loadingHistory ==> r == history
  {
    if loadingHistory then [] else history
  }

  class Home {
    const llm: ChatLlm
    const chat: ChatHistoryHook.ChatHistory
    /** The `params` state; `None` is the initial `null`. */
    var params: Option<AskParams>
    /** The form's two fields, both registered as required. */
    var formModel: string
    var formQuestion: string
    /** `errors.model`: the last submit found no model selected. */
    var modelError: bool

    constructor (llm: ChatLlm, chat: ChatHistoryHook.ChatHistory)
      ensures this.llm == llm && this.chat == chat && params.None?
      ensures formModel == "" && formQuestion == "" && !modelError
    {
      this.llm := llm;
      this.chat := chat;
      params := None;
      formModel := "";
      formQuestion := "";
      modelError := false;
    }

    /** Typing in the question input. */
    method EditQuestion(text: string)
      modifies this`formQuestion
      ensures formQuestion == text
    {
      formQuestion := text;
    }

    /** Choosing an option of the model select. */
    method SelectModel(name: string)
      modifies this`formModel
      ensures formModel == name
    {
      formModel := name;
    }

    /** The arguments the page passes to `useChatLLM`: all undefined while `params` is null. */
    function HookArgs(): (p: AskParams)
      reads this
      ensures params.None? ==> !Ready(p)
    {
      match params
      case None => AskParams(None, None, None, None)
      case Some(q) => q
    }

    /** The question input, the submit button and the model select are disabled exactly
        while a question is in flight. */
    predicate ControlsDisabled()
      reads this, llm
    {
      llm.loading
    }

    /** `handleSubmit(onSubmit)` and the render it causes. The required validation runs
        first: with an empty field `onSubmit` is not called, so `params`, the fields and
        the hook are untouched, and `errors.model` is set when the model is missing.
        Otherwise `params` becomes the form's values with the ask URL and the clock as
        `triggerId`, the question field is cleared, and the hook re-runs its effect, which
        sends the question whenever the new `params` differ from its last run. */
    method Submit(now: int) returns (sent: bool)
      modifies this`params, this`formQuestion, this`modelError,
               llm`deps, llm`loading, llm`error, llm`requests
      ensures formModel == old(formModel)
      ensures modelError <==> formModel == ""
      ensures old(formModel) == "" || old(formQuestion) == "" ==>
                !sent && params == old(params) && formQuestion == old(formQuestion) &&
                llm.deps == old(llm.deps) && llm.loading == old(llm.loading) &&
                llm.error == old(llm.error) && llm.requests == old(llm.requests)
      ensures old(formModel) != "" && old(formQuestion) != "" ==>
                params == Some(AskParams(Some(old(formModel)), Some(old(formQuestion)), Some(AskModelUrl), Some(now))) &&
                formQuestion == "" && llm.deps == params &&
                (sent <==> old(llm.deps) != params)
      ensures sent ==> ControlsDisabled() &&
                       llm.requests == old(llm.requests) + [PostAsk(AskModelUrl, old(formModel), old(formQuestion))]
      ensures !sent ==> llm.requests == old(llm.requests)
    {
      modelError := formModel == "";
      if formModel == "" || formQuestion == "" {
        return false;
      }
      params := Some(AskParams(Some(formModel), Some(formQuestion), Some(AskModelUrl), Some(now)));
      formQuestion := "";
      sent := llm.Render(params.value);
    }

    /** The effect on `data`: an answer carrying a history replaces the local history
        wholesale; it is never appended to. */
    method SyncHistory()
      modifies chat`history
      ensures llm.data.Some? ==> chat.history == llm.data.value.history
      ensures llm.data.None? ==> chat.history == old(chat.history)
    {
      if llm.data.Some? {
        chat.history := llm.data.value.history;
      }
    }

    /** The effect on `models`: a non-empty list selects its first model. */
    method SyncModel()
      modifies this`formModel
      ensures |llm.models| > 0 ==> formModel == llm.models[0]
      ensures |llm.models| == 0 ==> formModel == old(formModel)
    {
      if |llm.models| > 0 {
        formModel := llm.models[0];
      }
    }
  }
}
