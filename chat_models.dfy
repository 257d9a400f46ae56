/** The chat-model list the backend serves (rag-local-api/routes/model.py): the names
    Ollama reports, minus those that look like embedding models. The query to Ollama
    is an input: `None` when it raised, otherwise the reported names. */
module ChatModels {
  import opened Common
  import opened Text
  import FileRules

  /** Substrings that mark a model as an embedding model. */
  const ExcludedKeywords: seq<string> := ["embed", "embedding", "bge", "e5", "mxbai"]

  /** `any(keyword in s for keyword in keywords)`. */
  predicate AnyKeywordIn(s: string, keywords: seq<string>) {
    keywords != [] && (Contains(s, keywords[0]) || AnyKeywordIn(s, keywords[1..]))
  }

  /** `is_chat_model`: the lower-cased name contains none of the keywords. */
  predicate IsChatModel(name: string) {
    !AnyKeywordIn(Lower(name), ExcludedKeywords)
  }

  /** `[m["name"] for m in models if is_chat_model(m["name"])]`. */
  function ChatOnly(names: seq<string>): seq<string> {
    if names == [] then []
    else (if IsChatModel(names[0]) then [names[0]] else []) + ChatOnly(names[1..])
  }

  /** `get_available_models`: any failure of the query gives `[]`. */
  function GetAvailableModels(fetched: Option<seq<string>>): (r: seq<string>)
    ensures fetched.None? ==> r == []
  {
    match fetched
    case None => []
    case Some(names) => ChatOnly(names)
  }

  /** The body of `GET /models`. */
  datatype ModelsResponse = ModelsResponse(models: seq<string>)

  /** `list_models`: the filtered list under the key "models". */
  function ListModels(fetched: Option<seq<string>>): (r: ModelsResponse)
    ensures fetched.None? ==> r.models == []
  {
    ModelsResponse(GetAvailableModels(fetched))
  }

  /** `sub` is `s` with some elements removed and the rest in their order. */
  predicate IsSubsequence(sub: seq<string>, s: seq<string>) {
    sub == [] || (s != [] && (if sub[0] == s[0] then IsSubsequence(sub[1..], s[1..]) else IsSubsequence(sub, s[1..])))
  }

  /** A name is kept exactly when it is one of the input names and a chat model. */
  lemma {:induction false} ChatOnlyMembership(names: seq<string>, n: string)
    ensures n in ChatOnly(names) <==> n in names && IsChatModel(n)
  {
    if names != [] {
      ChatOnlyMembership(names[1..], n);
      assert names == [names[0]] + names[1..];
    }
  }

  /** The kept names appear in the order they were reported. */
  lemma {:induction false} ChatOnlyIsSubsequence(names: seq<string>)
    ensures IsSubsequence(ChatOnly(names), names)
  {
    if names != [] {
      ChatOnlyIsSubsequence(names[1..]);
      if IsChatModel(names[0]) {
        assert ChatOnly(names)[1..] == ChatOnly(names[1..]);
      } else {
        assert ChatOnly(names) == ChatOnly(names[1..]);
        SubsequenceDropFront(ChatOnly(names[1..]), names);
      }
    }
  }

  lemma {:induction false} SubsequenceDropFront(sub: seq<string>, s: seq<string>)
    requires s != [] && IsSubsequence(sub, s[1..])
    ensures IsSubsequence(sub, s)
    decreases |s|, |sub|
  {
    if sub != [] && sub[0] == s[0] {
      SubsequenceOfTail(sub, s[1..]);
    }
  }

  lemma {:induction false} SubsequenceOfTail(sub: seq<string>, s: seq<string>)
    requires sub != [] && IsSubsequence(sub, s)
    ensures IsSubsequence(sub[1..], s)
    decreases |s|, |sub|
  {
    if sub[0] == s[0] {
      if sub[1..] != [] {
        SubsequenceDropFront(sub[1..], s);
      }
    } else {
      SubsequenceOfTail(sub, s[1..]);
      if sub[1..] != [] {
        SubsequenceDropFront(sub[1..], s);
      }
    }
  }

  /** Filtering the filtered list again changes nothing. */
  lemma {:induction false} ChatOnlyIdempotent(names: seq<string>)
    ensures ChatOnly(ChatOnly(names)) == ChatOnly(names)
  {
    if names != [] {
      ChatOnlyIdempotent(names[1..]);
      var kept := ChatOnly(names);
      if IsChatModel(names[0]) {
        assert kept == [names[0]] + ChatOnly(names[1..]);
        assert kept[0] == names[0] && kept[1..] == ChatOnly(names[1..]);
      } else {
        assert kept == ChatOnly(names[1..]);
      }
    }
  }

  /** "embedding" is redundant among the keywords: every name containing it contains "embed". */
  lemma EmbeddingKeywordRedundant(s: string)
    ensures AnyKeywordIn(s, ExcludedKeywords) <==> AnyKeywordIn(s, ["embed", "bge", "e5", "mxbai"])
  {
    var rest := ["bge", "e5", "mxbai"];
    assert ExcludedKeywords[1..][1..] == rest;
    assert ["embed", "bge", "e5", "mxbai"][1..] == rest;
    if Contains(s, "embedding") {
      ContainsPrefixOf(s, "embedding", "embed");
    }
  }

  /** Every listed model passes `is_valid_model` against the same report, while an
      embedding model that the list hides is still accepted by it. */
  lemma ListedModelsAreValid(names: seq<string>, n: string)
    ensures n in GetAvailableModels(Some(names)) ==> FileRules.IsValidModel(n, Some(names))
    ensures n in names && !IsChatModel(n) ==>
              FileRules.IsValidModel(n, Some(names)) && n !in GetAvailableModels(Some(names))
  {
    ChatOnlyMembership(names, n);
  }

  /** The keywords are matched case-insensitively: "BGE-M3" is an embedding model. */
  lemma UpperCaseKeywordExcluded()
    ensures !IsChatModel("BGE-M3")
  {
    var low := Lower("BGE-M3");
    assert low == "bge-m3";
    assert "bge" <= low;
    assert ExcludedKeywords[1..][1..][0] == "bge";
    assert Contains(low, ExcludedKeywords[1..][1..][0]);
  }
}
