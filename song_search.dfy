/** The search hook of the web client (src/hooks/useSongSearch.ts): every
    change of the query bumps a request counter; a blank query resets the
    state at once, any other starts a search whose outcome is applied only
    if no newer query has been issued since. */
module SongSearchHook {
  import opened Wrappers
  import JsText
  import CatalogSearch

  type Song = CatalogSearch.Track

  datatype Status = Idle | Loading | Succeeded | Failed

  datatype SearchState = SearchState(status: Status, results: seq<Song>, message: Option<string>, error: Option<string>)

  const InitialMessage := "Start typing to search for tracks."
  const SearchingMessage := "Searching songs…"
  const SearchFailedMessage := "Search failed"

  const IdleState := SearchState(Idle, [], Some(InitialMessage), None)

  /** How the search request ended: something was thrown (the fetch or the
      JSON decoding; with the message when it was an `Error`), or a response
      arrived, with its ok flag and the payload's `tracks` (`None` when not an
      array), `message` and `error`. */
  datatype Outcome =
    | Threw(reason: Option<string>)
    | Answered(ok: bool, tracks: Option<seq<Song>>, message: Option<string>, error: Option<string>)

  /** The message shown after a successful search (useSongSearch.ts:78-81):
      none when there are tracks; otherwise the server's message, or a
      default naming the query. */
  function SuccessMessage(tracks: seq<Song>, payloadMessage: Option<string>, trimmedQuery: string): (m: Option<string>)
    ensures m.None? <==> |tracks| > 0
    ensures |tracks| == 0 && payloadMessage.Some? ==> m == payloadMessage
    ensures |tracks| == 0 && payloadMessage.None? ==> m == Some("No songs found for “" + trimmedQuery + "”.")
  {
    if |tracks| == 0 then Some(payloadMessage.GetOr("No songs found for “" + trimmedQuery + "”.")) else None
  }

  /** The state a current outcome leads to (useSongSearch.ts:63-94). A
      response that is not ok is thrown as an error carrying the payload's
      `error`; an error state has no results and no message; a success state
      has the payload's tracks (none when they are not an array) and no error. */
  function Settled(outcome: Outcome, trimmedQuery: string): (s: SearchState)
    ensures s.status == Failed <==> outcome.Threw? || !outcome.ok
    ensures s.status == Succeeded <==> outcome.Answered? && outcome.ok
    ensures s.status == Failed ==> s.results == [] && s.message.None? && s.error.Some?
    ensures outcome.Threw? ==> s.error == Some(outcome.reason.GetOr(SearchFailedMessage))
    ensures outcome.Answered? && !outcome.ok ==> s.error == Some(outcome.error.GetOr(SearchFailedMessage))
    ensures s.status == Succeeded ==>
      && s.results == outcome.tracks.GetOr([]) && s.error.None?
      && s.message == SuccessMessage(s.results, outcome.message, trimmedQuery)
  {
    match outcome
    case Threw(reason) => SearchState(Failed, [], None, Some(reason.GetOr(SearchFailedMessage)))
    case Answered(ok, tracks, message, error) =>
      if !ok then SearchState(Failed, [], None, Some(error.GetOr(SearchFailedMessage)))
      else
        var results := tracks.GetOr([]);
        SearchState(Succeeded, results, SuccessMessage(results, message, trimmedQuery), None)
  }

  /** The hook's mutable part: the request counter (`requestIdRef.current`)
      and the search state. */
  class SongSearch {
    var requestId: nat
    var state: SearchState

    constructor ()
      ensures requestId == 0 && state == IdleState
    {
      requestId := 0;
      state := IdleState;
    }

    /** The effect run on a query change (useSongSearch.ts:35-48): the counter
        goes up by one whatever the query; a blank query resets the state,
        any other leaves the state alone and schedules a search tagged with
        the new counter value and the trimmed query. */
    method QueryChanged(query: string) returns (captured: nat, trimmed: string)
      modifies this
      ensures requestId == old(requestId) + 1 && captured == requestId
      ensures trimmed == JsText.Trim(query)
      ensures trimmed == "" ==> state == IdleState
      ensures trimmed != "" ==> state == old(state)
    {
      trimmed := JsText.Trim(query);
      captured := requestId + 1;
      requestId := captured;
      if trimmed == "" {
        state := IdleState;
      }
    }

    /** The debounced search starts (useSongSearch.ts:51-56): results are
        kept, the searching message shown and the error cleared. There is no
        staleness check here. */
    method StartLoading()
      modifies this
      ensures requestId == old(requestId)
      ensures state == SearchState(Loading, old(state).results, Some(SearchingMessage), None)
    {
      state := state.(status := Loading, message := Some(SearchingMessage), error := None);
    }

    /** The search tagged `captured` ends (useSongSearch.ts:63-94): its outcome
        is applied only when no query change happened since it was tagged. */
    method Resolve(captured: nat, trimmedQuery: string, outcome: Outcome)
      modifies this
      ensures requestId == old(requestId)
      ensures captured != requestId ==> state == old(state)
      ensures captured == requestId ==> state == Settled(outcome, trimmedQuery)
    {
      if requestId != captured {
        return;
      }
      state := Settled(outcome, trimmedQuery);
    }
  }

  /** A search superseded by a later query never shows: the first search
      starts and its answer arrives only after the second query was typed
      and answered; what is left on screen is the second search's result. */
  method SupersededAnswerIgnored(first: string, second: string, late: Outcome, current: Outcome)
    returns (shown: SearchState)
    requires JsText.Trim(second) != ""
    ensures shown == Settled(current, JsText.Trim(second))
  {
    var search := new SongSearch();
    var id1, q1 := search.QueryChanged(first);
    search.StartLoading();
    var id2, q2 := search.QueryChanged(second);
    search.StartLoading();
    search.Resolve(id2, q2, current);
    search.Resolve(id1, q1, late);
    shown := search.state;
  }

  /** An answer that arrives after a newer query but before that query's own
      answer is ignored too: the screen still shows the newer search loading. */
  method EarlyStaleAnswerIgnored(first: string, second: string, late: Outcome)
    returns (shown: SearchState)
    requires JsText.Trim(second) != ""
    ensures shown.status == Loading && shown.message == Some(SearchingMessage) && shown.error.None?
  {
    var search := new SongSearch();
    var id1, q1 := search.QueryChanged(first);
    search.StartLoading();
    var id2, q2 := search.QueryChanged(second);
    search.StartLoading();
    search.Resolve(id1, q1, late);
    shown := search.state;
  }

  /** Clearing the query resets the screen at once, and a search still in
      flight cannot bring old results back. */
  method ClearedQueryStaysIdle(first: string, cleared: string, late: Outcome)
    returns (shown: SearchState)
    requires JsText.AllWhiteSpace(cleared)
    ensures shown == IdleState
  {
    var search := new SongSearch();
    var id1, q1 := search.QueryChanged(first);
    search.StartLoading();
    var id2, q2 := search.QueryChanged(cleared);
    search.Resolve(id1, q1, late);
    shown := search.state;
  }
}
