/** An abstract browser session history for one document: a sequence of
    entries, each carrying the state object given to `pushState` or
    `replaceState`, and a cursor at the current entry. */
module BrowserHistory {

  import opened Pages

  /** The state object of an entry, as the `popstate` handler sees it:
      either it has a `page` field holding a tag, or it has none (a null
      state, or an entry the router never wrote). */
  datatype EntryState = Untagged | Tagged(page: string)

  datatype History = History(entries: seq<EntryState>, cursor: nat)
  {
    predicate Valid()
    {
      cursor < |entries|
    }

    /** The entry the browser is currently on. */
    function Current(): EntryState
      requires Valid()
    {
      entries[cursor]
    }
  }

  /** `h'` is `h` after exactly one push of `e`: every entry up to the cursor
      is kept, the forward entries are dropped, `e` is the new last entry and
      the cursor sits on it. */
  ghost predicate PushedOnce(h: History, h': History, e: EntryState)
    requires h.Valid()
  {
    && h'.cursor == h.cursor + 1
    && |h'.entries| == h.cursor + 2
    && h'.entries[..h.cursor + 1] == h.entries[..h.cursor + 1]
    && h'.entries[h'.cursor] == e
  }

  /** `h'` is `h` with only the current entry overwritten by `e`. */
  ghost predicate ReplacedCurrent(h: History, h': History, e: EntryState)
    requires h.Valid()
  {
    && h'.cursor == h.cursor
    && |h'.entries| == |h.entries|
    && h'.entries[h.cursor] == e
    && forall i :: 0 <= i < |h.entries| && i != h.cursor ==> h'.entries[i] == h.entries[i]
  }

  /** `history.pushState(e, '')`. */
  function Push(h: History, e: EntryState): (r: History)
    requires h.Valid()
    ensures r.Valid() && r.Current() == e
    ensures PushedOnce(h, r, e)
  {
    History(h.entries[..h.cursor + 1] + [e], h.cursor + 1)
  }

  /** `history.replaceState(e, '')`. */
  function Replace(h: History, e: EntryState): (r: History)
    requires h.Valid()
    ensures r.Valid() && r.Current() == e
    ensures ReplacedCurrent(h, r, e)
  {
    History(h.entries[h.cursor := e], h.cursor)
  }

  /** `history.back()` within this document: the cursor moves one entry
      back. At the first entry the browser leaves the document, which is
      outside this model (`None`). The entries themselves never change. */
  function Back(h: History): (r: Option<History>)
    requires h.Valid()
    ensures r.None? <==> h.cursor == 0
    ensures r.Some? ==> r.value.Valid() && r.value.entries == h.entries && r.value.cursor + 1 == h.cursor
  {
    if h.cursor == 0 then None else Some(History(h.entries, h.cursor - 1))
  }

  /** `history.forward()`: the cursor moves one entry forward, if there is one. */
  function Forward(h: History): (r: Option<History>)
    requires h.Valid()
    ensures r.None? <==> h.cursor + 1 == |h.entries|
    ensures r.Some? ==> r.value.Valid() && r.value.entries == h.entries && r.value.cursor == h.cursor + 1
  {
    if h.cursor + 1 == |h.entries| then None else Some(History(h.entries, h.cursor + 1))
  }

  /** Going back after a push returns to the entry that was current before
      it, and going forward again returns to the pushed entry. */
  lemma PushBackForward(h: History, e: EntryState)
    requires h.Valid()
    ensures Back(Push(h, e)).Some?
    ensures Back(Push(h, e)).value.Current() == h.Current()
    ensures Back(Push(h, e)).value.cursor == h.cursor
    ensures Forward(Back(Push(h, e)).value) == Some(Push(h, e))
  {
    var p := Push(h, e);
    assert p.entries[h.cursor] == p.entries[..h.cursor + 1][h.cursor];
  }

  /** A push discards every forward entry: there is nothing to go forward to. */
  lemma PushClearsForward(h: History, e: EntryState)
    requires h.Valid()
    ensures Forward(Push(h, e)).None?
  {
  }

  /** Replacing twice keeps only the second state: replace is idempotent in
      the history's shape and never grows it. */
  lemma ReplaceReplace(h: History, e1: EntryState, e2: EntryState)
    requires h.Valid()
    ensures Replace(Replace(h, e1), e2) == Replace(h, e2)
  {
  }
}
