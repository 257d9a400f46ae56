/** The `useChatHistory` hook (ux-react/src/hooks/useChatHistory.jsx): the history the
    client shows, its loading flag and error, the fetch that refreshes them, and the
    confirm-gated clear. A fetch is split at its `await` into `StartFetch` and
    `CompleteFetch`. */
module ChatHistoryHook {
  import opened Common
  import opened ClientEffects

  const ReloadMessage := "Error al cargar el historial. Intente recargar la página."
  const Cleared := Notice(Success, "Hecho", "Historial eliminado correctamente.")
  const ClearFailed := Notice(Failure, "Error", "No se pudo limpiar el historial.")
  const ClearCancelled := Notice(Info, "Acción Cancelada", "La operación ha sido cancelada.")

  /** How the confirm callback of the clear action ended: normally, or by throwing a
      `ReferenceError` out of its `catch` block (an unhandled rejection). */
  datatype Completion = Normal | ThrewReferenceError

  class ChatHistory {
    const url: string
    var history: seq<ChatEntry>
    var loading: bool
    var error: Option<string>
    /** The requests issued and the reports shown, oldest first. */
    ghost var requests: seq<Request>
    ghost var reports: seq<Notice>

    /** The state before the mount effect runs: no history, loading, no error. */
    constructor (url: string)
      ensures this.url == url && history == [] && loading && error.None?
      ensures requests == [] && reports == []
    {
      this.url := url;
      history := [];
      loading := true;
      error := None;
      requests := [];
      reports := [];
    }

    /** `fetchHistory` up to the request: loading, error cleared, GET sent. */
    method StartFetch()
      modifies this`loading, this`error, this`requests
      ensures loading && error.None? && requests == old(requests) + [GetHistory(url)]
    {
      loading := true;
      error := None;
      requests := requests + [GetHistory(url)];
    }

    /** `fetchHistory` from the reply on: the response replaces the history wholesale;
        a failure keeps the history and sets the reload message. Nothing is thrown. */
    method CompleteFetch(reply: Reply<seq<ChatEntry>>)
      modifies this`history, this`loading, this`error
      ensures !loading
      ensures reply.Answered? ==> history == reply.body && error == old(error)
      ensures reply.Failed? ==> history == old(history) && error == Some(ReloadMessage)
    {
      match reply {
        case Answered(body) =>
          history := body;
        case Failed(_) =>
          error := Some(ReloadMessage);
      }
      loading := false;
    }

    /** A whole `fetchHistory`: one GET, then the history is the response or is kept,
        the error is cleared or is the reload message, and loading is over. */
    method FetchHistory(reply: Reply<seq<ChatEntry>>)
      modifies this`history, this`loading, this`error, this`requests
      ensures requests == old(requests) + [GetHistory(url)] && !loading
      ensures reply.Answered? ==> history == reply.body && error.None?
      ensures reply.Failed? ==> history == old(history) && error == Some(ReloadMessage)
    {
      StartFetch();
      CompleteFetch(reply);
    }

    /** `handleDeleteHistory` as written. On confirm it posts the clear, re-fetches and
        reports success, even when the re-fetch fails. When the post fails, the `catch`
        block logs a variable `e` that is not in scope: the `ReferenceError` ends the
        callback before its failure report, and the re-fetch is skipped. */
    method DeleteHistory(confirmed: bool, clear: Reply<()>, refetch: Reply<seq<ChatEntry>>)
      returns (completion: Completion)
      modifies this`history, this`loading, this`error, this`requests, this`reports
      ensures !confirmed ==>
                completion == Normal && history == old(history) && loading == old(loading) &&
                error == old(error) && requests == old(requests) && reports == old(reports) + [ClearCancelled]
      ensures confirmed && clear.Answered? ==>
                completion == Normal &&
                requests == old(requests) + [PostClearHistory, GetHistory(url)] && !loading &&
                (refetch.Answered? ==> history == refetch.body && error.None?) &&
                (refetch.Failed? ==> history == old(history) && error == Some(ReloadMessage)) &&
                reports == old(reports) + [Cleared]
      ensures confirmed && clear.Failed? ==>
                completion == ThrewReferenceError &&
                history == old(history) && loading == old(loading) && error == old(error) &&
                requests == old(requests) + [PostClearHistory] && reports == old(reports)
    {
      if !confirmed {
        reports := reports + [ClearCancelled];
        return Normal;
      }
      requests := requests + [PostClearHistory];
      if clear.Failed? {
        return ThrewReferenceError;
      }
      FetchHistory(refetch);
      reports := reports + [Cleared];
      completion := Normal;
    }

    /** `handleDeleteHistory` as evidently intended: a failed post is reported with the
        failure message, and the callback ends normally. */
    method DeleteHistoryIntended(confirmed: bool, clear: Reply<()>, refetch: Reply<seq<ChatEntry>>)
      returns (completion: Completion)
      modifies this`history, this`loading, this`error, this`requests, this`reports
      ensures completion == Normal
      ensures !confirmed ==>
                history == old(history) && loading == old(loading) && error == old(error) &&
                requests == old(requests) && reports == old(reports) + [ClearCancelled]
      ensures confirmed && clear.Answered? ==>
                requests == old(requests) + [PostClearHistory, GetHistory(url)] && !loading &&
                (refetch.Answered? ==> history == refetch.body && error.None?) &&
                (refetch.Failed? ==> history == old(history) && error == Some(ReloadMessage)) &&
                reports == old(reports) + [Cleared]
      ensures confirmed && clear.Failed? ==>
                history == old(history) && loading == old(loading) && error == old(error) &&
                requests == old(requests) + [PostClearHistory] && reports == old(reports) + [ClearFailed]
    {
      if !confirmed {
        reports := reports + [ClearCancelled];
        return Normal;
      }
      requests := requests + [PostClearHistory];
      if clear.Failed? {
        reports := reports + [ClearFailed];
        return Normal;
      }
      FetchHistory(refetch);
      reports := reports + [Cleared];
      completion := Normal;
    }
  }

  /** A confirmed clear whose post fails, as written: the callback throws and the user
      is told nothing. */
  method ClearFailureUnreported(h: ChatHistory, refetch: Reply<seq<ChatEntry>>) returns (c: Completion)
    modifies h
    ensures c == ThrewReferenceError
    ensures h.reports == old(h.reports) && h.history == old(h.history) && h.error == old(h.error)
  {
    c := h.DeleteHistory(true, Failed(None), refetch);
  }

  /** The same clear, as intended: the failure is reported and the history is kept. */
  method ClearFailureReported(h: ChatHistory, refetch: Reply<seq<ChatEntry>>) returns (c: Completion)
    modifies h
    ensures c == Normal
    ensures h.reports == old(h.reports) + [ClearFailed] && h.history == old(h.history)
  {
    c := h.DeleteHistoryIntended(true, Failed(None), refetch);
  }
}
