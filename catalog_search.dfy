/** The catalog search function (netlify/functions/search.ts): trims the
    term, asks the iTunes Search API for up to 25 songs, classifies the
    upstream outcome and normalises each upstream record into a `Track`. */
module CatalogSearch {
  import opened Wrappers
  import opened UrlParams
  import JsText
  import Http

  /** An upstream record; an absent optional field is `None`. */
  datatype ITunesTrack = ITunesTrack(
    trackId: nat, trackName: string, artistName: string,
    collectionName: Option<string>, artworkUrl100: Option<string>, previewUrl: Option<string>)

  /** The normalised song; `None` is the JSON `null` the source writes. */
  datatype Track = Track(
    id: string, title: string, artist: string,
    album: Option<string>, artworkUrl: Option<string>, previewUrl: Option<string>)

  /** What the single upstream fetch produced: a transport failure (with the
      thrown error's message when it was an `Error`), or a status and the
      payload's `results`, `None` when the payload has none. */
  datatype Upstream = Unreachable(reason: Option<string>) | Answered(status: nat, results: Option<seq<ITunesTrack>>)

  /** The handler's answer. `upstreamQuery` is the query string of the fetch
      that was made, `None` when no fetch was made. */
  datatype SearchReply = SearchReply(
    status: nat, tracks: seq<Track>, message: Option<string>, error: Option<string>,
    upstreamQuery: Option<seq<Pair>>)

  const MissingTermMessage := "Missing search term"
  const RateLimitMessage := "The iTunes Search API rate limit has been reached. Please retry shortly."
  const RateLimitedStatus := 429

  /** `event.queryStringParameters?.term?.trim()`, with an absent term read as empty. */
  function TrimmedTerm(term: Option<string>): (t: string)
    ensures term.None? ==> t == ""
    ensures term.Some? ==> (t == "" <==> JsText.AllWhiteSpace(term.value))
  {
    if term.Some? then JsText.Trim(term.value) else ""
  }

  /** The upstream query (search.ts:48-52): the term, song entities only, at most 25. */
  function UpstreamQuery(term: string): (q: seq<Pair>)
    ensures ValuesOf(q, "term") == [term]
    ensures ValuesOf(q, "entity") == ["song"]
    ensures ValuesOf(q, "limit") == ["25"]
    ensures forall i :: 0 <= i < |q| ==> q[i].key in {"term", "entity", "limit"}
  {
    var q := [Pair("term", term), Pair("entity", "song"), Pair("limit", "25")];
    forall k ensures ValuesOf(q, k) == ValuesOf([q[0]], k) + ValuesOf([q[1]], k) + ValuesOf([q[2]], k) {
      assert q == [q[0]] + ([q[1]] + [q[2]]);
      ValuesOfAppend([q[0]], [q[1]] + [q[2]], k);
      ValuesOfAppend([q[1]], [q[2]], k);
    }
    q
  }

  /** One record mapped to a `Track` (search.ts:96-103): the numeric
      identifier becomes its decimal string, which reads back as the same
      number and has no leading zero; the texts pass through and absent optional fields stay absent. */
  function ToTrack(t: ITunesTrack): (r: Track)
    ensures JsText.AllDigits(r.id) && JsText.DecimalValue(r.id) == t.trackId
    ensures |r.id| >= 1 && (|r.id| == 1 || r.id[0] != '0')
    ensures r.title == t.trackName && r.artist == t.artistName
    ensures r.album == t.collectionName && r.artworkUrl == t.artworkUrl100 && r.previewUrl == t.previewUrl
  {
    JsText.DecimalRoundTrip(t.trackId);
    Track(JsText.NatToString(t.trackId), t.trackName, t.artistName,
          t.collectionName, t.artworkUrl100, t.previewUrl)
  }

  /** `results.map(...)`: same length, same order, one `Track` per record. */
  function ToTracks(ts: seq<ITunesTrack>): (r: seq<Track>)
    ensures |r| == |ts|
    ensures forall i :: 0 <= i < |ts| ==> r[i] == ToTrack(ts[i])
  {
    if ts == [] then [] else [ToTrack(ts[0])] + ToTracks(ts[1..])
  }

  /** `handler` (search.ts:38-105). A blank term is refused before any fetch;
      otherwise exactly one fetch is made with the trimmed term, and its
      outcome is classified: transport failure 502, status 429 503, any
      other non-ok status 502, no results 200 with a message, else 200 with
      the mapped tracks. */
  function HandleSearch(term: Option<string>, upstream: Upstream): (r: SearchReply)
    ensures var t := TrimmedTerm(term);
      && (t == "" ==> r == SearchReply(400, [], None, Some(MissingTermMessage), None))
      && (t != "" ==> r.upstreamQuery == Some(UpstreamQuery(t)))
      && (t != "" && upstream.Unreachable? ==>
            r.status == 502 && r.error == Some("Failed to reach iTunes Search API: " + upstream.reason.GetOr("Unknown error")))
      && (r.status == 503 <==> t != "" && upstream.Answered? && upstream.status == RateLimitedStatus)
      && (r.status == 503 ==> r.error == Some(RateLimitMessage))
      && (t != "" && upstream.Answered? && upstream.status != RateLimitedStatus && !Http.IsOk(upstream.status) ==>
            r.status == 502 && r.error == Some("iTunes Search API returned status " + JsText.NatToString(upstream.status)))
      && (t != "" && upstream.Answered? && Http.IsOk(upstream.status) && upstream.results.GetOr([]) == [] ==>
            r == SearchReply(200, [], Some("No songs found for \"" + t + "\"."), None, Some(UpstreamQuery(t))))
      && (t != "" && upstream.Answered? && Http.IsOk(upstream.status) && upstream.results.GetOr([]) != [] ==>
            r == SearchReply(200, ToTracks(upstream.results.value), None, None, Some(UpstreamQuery(t))))
    ensures r.status in {200, 400, 502, 503}
    ensures r.status == 400 <==> r.upstreamQuery.None?
    ensures r.status != 200 ==> r.tracks == [] && r.message.None? && r.error.Some?
    ensures r.status == 200 ==> r.error.None?
  {
    var t := TrimmedTerm(term);
    if t == "" then SearchReply(400, [], None, Some(MissingTermMessage), None)
    else
      var query := Some(UpstreamQuery(t));
      match upstream
      case Unreachable(reason) =>
        SearchReply(502, [], None, Some("Failed to reach iTunes Search API: " + reason.GetOr("Unknown error")), query)
      case Answered(status, results) =>
        if status == RateLimitedStatus then SearchReply(503, [], None, Some(RateLimitMessage), query)
        else if !Http.IsOk(status) then
          SearchReply(502, [], None, Some("iTunes Search API returned status " + JsText.NatToString(status)), query)
        else if results.GetOr([]) == [] then
          SearchReply(200, [], Some("No songs found for \"" + t + "\"."), None, query)
        else SearchReply(200, ToTracks(results.value), None, None, query)
  }
}
