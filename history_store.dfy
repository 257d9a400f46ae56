/** The conversation history the backend keeps under one Redis key
    (rag-local-api/config/history.py). The key either is absent or holds the
    JSON encoding of a list of entries; the model keeps the decoded list.
    Every Redis call may raise; the caller passes whether it does. */
module HistoryStore {
  import opened Common

  /** The Redis key under which the single user's history lives. */
  const HistoryKey := "conversation_history:default_single_user"

  /** What `_load_history_from_redis` returns: an absent key and a failed read
      (the exception is printed and swallowed) both give the empty list. */
  function Loaded(stored: Option<seq<ChatEntry>>, readFails: bool): seq<ChatEntry> {
    if readFails then []
    else match stored
      case None => []
      case Some(h) => h
  }

  /** Python's `xs[start:]` for a possibly negative `start`. */
  function SliceFrom<T>(xs: seq<T>, start: int): seq<T> {
    var from := if start < 0 then (if -start <= |xs| then |xs| + start else 0)
                else (if start <= |xs| then start else |xs|);
    xs[from..]
  }

  /** `current_history[-k:] if len(current_history) > k else current_history`. */
  function LastPairs(h: seq<ChatEntry>, k: int): seq<ChatEntry> {
    if |h| > k then SliceFrom(h, -k) else h
  }

  /** For k >= 1 the result is the last min(k, |h|) entries, in their stored order. */
  lemma LastPairsIsSuffix(h: seq<ChatEntry>, k: int)
    requires k >= 1
    ensures var n := if k < |h| then k else |h|;
            LastPairs(h, k) == h[|h| - n..] && |LastPairs(h, k)| == n
  {
  }

  /** `[-0:]` is `[0:]`: asking for the last 0 entries of a non-empty history returns all of it. */
  lemma LastPairsZeroIsWhole(h: seq<ChatEntry>)
    requires h != []
    ensures LastPairs(h, 0) == h
  {
  }

  /** A negative k drops the first -k entries instead of keeping the last ones. */
  lemma LastPairsNegativeDropsFront(h: seq<ChatEntry>, k: int)
    requires k < 0
    ensures LastPairs(h, k) == h[if -k <= |h| then -k else |h|..]
  {
  }

  /** The Redis key: `None` when the key does not exist. */
  class Store {
    var stored: Option<seq<ChatEntry>>

    constructor (initial: Option<seq<ChatEntry>>)
      ensures stored == initial
    {
      stored := initial;
    }

    /** `_load_history_from_redis`. */
    method Load(readFails: bool) returns (h: seq<ChatEntry>)
      ensures readFails || stored.None? ==> h == []
      ensures !readFails && stored.Some? ==> h == stored.value
    {
      if readFails {
        h := [];
      } else if stored.Some? {
        h := stored.value;
      } else {
        h := [];
      }
    }

    /** `_save_history_to_redis`: a failed write is printed and swallowed, leaving the key as it was. */
    method Save(h: seq<ChatEntry>, writeFails: bool)
      modifies this
      ensures stored == if writeFails then old(stored) else Some(h)
    {
      if !writeFails {
        stored := Some(h);
      }
    }

    /** `get_full_history`: exactly what is stored, untransformed. */
    method GetFullHistory(readFails: bool) returns (h: seq<ChatEntry>)
      ensures h == Loaded(stored, readFails)
      ensures !readFails && stored.Some? ==> h == stored.value
    {
      h := Load(readFails);
    }

    /** `clear_history`: deletes the key; a failed delete leaves it as it was. */
    method ClearHistory(deleteFails: bool)
      modifies this
      ensures stored == if deleteFails then old(stored) else None
    {
      if !deleteFails {
        stored := None;
      }
    }

    /** `get_last_pairs(k)`. */
    method GetLastPairs(k: int, readFails: bool) returns (r: seq<ChatEntry>)
      ensures r == LastPairs(Loaded(stored, readFails), k)
      ensures k >= 1 && !readFails && stored.Some? ==>
                r == stored.value[|stored.value| - (if k < |stored.value| then k else |stored.value|)..]
    {
      var current := Load(readFails);
      r := if |current| > k then SliceFrom(current, -k) else current;
      if k >= 1 {
        LastPairsIsSuffix(current, k);
      }
    }

    /** `add_pair`: load, append one entry stamped with `timestamp`, save.
        When the load fails and the save succeeds, the stored history is replaced by the one new entry. */
    method AddPair(question: string, answer: string, timestamp: string, readFails: bool, writeFails: bool)
      modifies this
      ensures writeFails ==> stored == old(stored)
      ensures !writeFails ==>
                stored == Some(Loaded(old(stored), readFails) + [ChatEntry(question, answer, timestamp)])
      ensures !readFails && !writeFails ==>
                var before := Loaded(old(stored), false);
                stored.Some? && |stored.value| == |before| + 1 &&
                stored.value[..|before|] == before &&
                stored.value[|before|] == ChatEntry(question, answer, timestamp)
    {
      var current := Load(readFails);
      current := current + [ChatEntry(question, answer, timestamp)];
      Save(current, writeFails);
    }
  }

  /** After a successful `clear_history`, `get_full_history` returns `[]`, whatever was stored. */
  method ClearThenRead(store: Store) returns (h: seq<ChatEntry>)
    modifies store
    ensures h == []
  {
    store.ClearHistory(false);
    h := store.GetFullHistory(false);
  }
}
