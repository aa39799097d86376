/** `lib/feedback.ts`: the satisfaction scores visitors leave, kept in the
    module variable `cache` and loaded once from `data/feedback.json`. The
    write back to the file is left out. */
module Feedback {
  import opened Common

  /** `FeedbackEntry`: `token` is `None` when the entry has none. */
  datatype FeedbackEntry = FeedbackEntry(score: real, comment: string, createdAt: string, token: Option<string>)

  /** The list `loadLocal` answers with: the cached one when there is one
      (an empty list is truthy, so it counts), otherwise the file's, or an
      empty list when the file is missing or unreadable. */
  function Current(cache: Option<seq<FeedbackEntry>>, file: Option<seq<FeedbackEntry>>): seq<FeedbackEntry>
  {
    if cache.Some? then cache.value else if file.Some? then file.value else []
  }

  /** The module variable `cache` (`None` for `null`). */
  class FeedbackStore {
    var cache: Option<seq<FeedbackEntry>>

    constructor()
      ensures cache == None
    {
      cache := None;
    }

    /** `loadLocal`: `file` is what `data/feedback.json` holds (`None` when
        reading or parsing it fails). */
    method LoadLocal(file: Option<seq<FeedbackEntry>>) returns (list: seq<FeedbackEntry>)
      modifies this
      ensures list == Current(old(cache), file) && cache == Some(list)
    {
      if cache.Some? {
        return cache.value;
      }
      if file.Some? {
        cache := file;
      } else {
        cache := Some([]);
      }
      list := cache.value;
    }

    /** `addFeedback(entry)`: the entry goes at the end of the list. */
    method AddFeedback(entry: FeedbackEntry, file: Option<seq<FeedbackEntry>>)
      modifies this
      ensures cache == Some(Current(old(cache), file) + [entry])
    {
      var list := LoadLocal(file);
      cache := Some(list + [entry]);
    }

    /** `listFeedback` */
    method ListFeedback(file: Option<seq<FeedbackEntry>>) returns (list: seq<FeedbackEntry>)
      modifies this
      ensures list == Current(old(cache), file) && cache == Some(list)
    {
      list := LoadLocal(file);
    }
  }

  /** Entries are listed in the order they were added: two additions on a
      store and a listing give what was there, then the first entry, then
      the second. Once loaded, the file is not read again. */
  method AddTwiceThenList(store: FeedbackStore, first: FeedbackEntry, second: FeedbackEntry,
                          file1: Option<seq<FeedbackEntry>>, file2: Option<seq<FeedbackEntry>>,
                          file3: Option<seq<FeedbackEntry>>)
    returns (list: seq<FeedbackEntry>)
    modifies store
    ensures list == Current(old(store.cache), file1) + [first, second]
  {
    store.AddFeedback(first, file1);
    store.AddFeedback(second, file2);
    list := store.ListFeedback(file3);
  }
}
