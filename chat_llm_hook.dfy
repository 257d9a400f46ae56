/** The `useChatLLM` hook (ux-react/src/hooks/useChatLLM.jsx): the question request
    effect with its loading/error/data state, and the model list fetched at mount.
    React runs the request effect when one of its four dependencies differs from the
    previous run; `Render` models that comparison. A request is split at its `await`:
    `Render` issues it, `CompleteAsk` applies its reply. */
module ChatLlmHook {
  import opened Common
  import opened ClientEffects
  import AskRoute

  const ApiFallback := "Error inesperado en la API"

  /** The hook's arguments (`params?.model`, ...); `None` stands for `undefined`. */
  datatype AskParams = AskParams(model: Option<string>, question: Option<string>,
                                 url: Option<string>, triggerId: Option<int>)

  /** JavaScript truthiness of a possibly undefined string. */
  predicate Truthy(s: Option<string>) {
    s.Some? && s.value != ""
  }

  /** The effect's guard: `model && question && url`. */
  predicate Ready(p: AskParams) {
    Truthy(p.model) && Truthy(p.question) && Truthy(p.url)
  }

  class ChatLlm {
    /** The dependency values of the last run of the request effect; `None` before the first. */
    var deps: Option<AskParams>
    var data: Option<AskRoute.AskResponse>
    var loading: bool
    var error: Option<string>
    var models: seq<string>
    ghost var requests: seq<Request>

    constructor ()
      ensures deps.None? && data.None? && !loading && error.None? && models == [] && requests == []
    {
      deps := None;
      data := None;
      loading := false;
      error := None;
      models := [];
      requests := [];
    }

    /** A render with arguments `p`: when they differ from the previous run's (any of the
        four, `triggerId` included) the effect runs, and it sends the question unless the
        guard fails. `data` is never touched here. */
    method Render(p: AskParams) returns (sent: bool)
      modifies this`deps, this`loading, this`error, this`requests
      ensures deps == Some(p)
      ensures sent <==> old(deps) != Some(p) && Ready(p)
      ensures sent ==>
                loading && error.None? &&
                requests == old(requests) + [PostAsk(p.url.value, p.model.value, p.question.value)]
      ensures !sent ==> loading == old(loading) && error == old(error) && requests == old(requests)
    {
      sent := false;
      if deps != Some(p) {
        deps := Some(p);
        if Ready(p) {
          loading := true;
          error := None;
          requests := requests + [PostAsk(p.url.value, p.model.value, p.question.value)];
          sent := true;
        }
      }
    }

    /** A reply to some earlier request, applied when it arrives: no request identity is
        compared. Success replaces `data`; failure keeps it and sets the error. */
    method CompleteAsk(reply: Reply<AskRoute.AskResponse>)
      modifies this`data, this`loading, this`error
      ensures !loading
      ensures reply.Answered? ==> data == Some(reply.body) && error == old(error)
      ensures reply.Failed? ==> data == old(data) && error == Some(ErrorText(reply.detail, ApiFallback))
    {
      match reply {
        case Answered(body) =>
          data := Some(body);
        case Failed(detail) =>
          error := Some(ErrorText(detail, ApiFallback));
      }
      loading := false;
    }

    /** The mount effect that lists the models: `response.data.models || []`; a failure
        is only logged, leaving the list as it was. */
    method FetchModels(reply: Reply<Option<seq<string>>>)
      modifies this`models, this`requests
      ensures requests == old(requests) + [GetModels]
      ensures reply.Answered? ==> models == reply.body.GetOr([])
      ensures reply.Failed? ==> models == old(models)
    {
      requests := requests + [GetModels];
      if reply.Answered? {
        models := reply.body.GetOr([]);
      }
    }
  }

  /** Asking the same question again with a new `triggerId` sends it again. */
  method ResubmitResends(llm: ChatLlm, p: AskParams, newTrigger: int) returns (sent: bool)
    requires Ready(p) && llm.deps == Some(p) && p.triggerId != Some(newTrigger)
    modifies llm
    ensures sent
    ensures llm.requests == old(llm.requests) + [PostAsk(p.url.value, p.model.value, p.question.value)]
  {
    sent := llm.Render(p.(triggerId := Some(newTrigger)));
  }

  /** A route failure FastAPI did not catch has no `detail`, so the hook shows its fallback. */
  lemma UnhandledShowsFallback()
    ensures var reply: Reply<AskRoute.AskResponse> := ReplyOf(Err(Unhandled));
            reply.Failed? && ErrorText(reply.detail, ApiFallback) == ApiFallback
  {
  }

  /** Two replies arriving one after the other: the later arrival is what `data` holds,
      whichever request it answers. */
  method LastArrivalWins(llm: ChatLlm, earlier: AskRoute.AskResponse, later: AskRoute.AskResponse)
    modifies llm
    ensures llm.data == Some(later) && !llm.loading
  {
    llm.CompleteAsk(Answered(earlier));
    llm.CompleteAsk(Answered(later));
  }
}
