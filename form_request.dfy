/** The song-request submission function (netlify/functions/request.ts):
    validates the incoming request, derives the Google Form submission
    endpoint and its baseline parameters from the configured prefill URL,
    writes the nine mapped fields plus `submit=Submit`, and turns the outcome
    of the single POST into a status code and a message. */
module FormRequest {
  import opened Wrappers
  import opened UrlParams
  import JsText
  import Http

  /** FORM_FIELD_IDS: the destination form's identifier for each of the nine
      logical fields. Its values are configuration the model does not know,
      so every operation takes it as a parameter. */
  datatype FieldIds = FieldIds(
    trackId: string, trackName: string, artistName: string,
    albumName: string, artworkUrl: string, previewUrl: string,
    requesterName: string, dedication: string, contact: string)

  /** `Object.values(FORM_FIELD_IDS)`, in declaration order. */
  function AllFieldIds(ids: FieldIds): (r: seq<string>)
    ensures |r| == 9
  {
    [ids.trackId, ids.trackName, ids.artistName, ids.albumName, ids.artworkUrl,
     ids.previewUrl, ids.requesterName, ids.dedication, ids.contact]
  }

  const SubmitKey := "submit"

  function KeySet(s: seq<string>): set<string> {
    set k | k in s
  }

  lemma KeySetSnoc(s: seq<string>, i: nat)
    requires i < |s|
    ensures KeySet(s[..i + 1]) == KeySet(s[..i]) + {s[i]}
  {
    assert s[..i + 1] == s[..i] + [s[i]];
  }

  /** The keys removed from the prefill URL's query. */
  function StrippedKeys(ids: FieldIds): set<string> {
    KeySet(AllFieldIds(ids)) + {SubmitKey}
  }

  /** The non-empty field identifiers are pairwise different and none of them
      is `submit`: the condition under which no write overwrites another. */
  predicate DistinctIds(ids: FieldIds) {
    var s := AllFieldIds(ids);
    && (forall i, j :: 0 <= i < j < |s| && s[i] == s[j] ==> s[i] == "")
    && SubmitKey !in s
  }

  // ---------------------------------------------------------------------
  // Incoming request

  datatype SongPayload = SongPayload(
    id: Option<string>, title: Option<string>, artist: Option<string>,
    album: Option<string>, artworkUrl: Option<string>, previewUrl: Option<string>)

  datatype RequesterPayload = RequesterPayload(
    name: Option<string>, dedication: Option<string>, contact: Option<string>)

  datatype RequestBody = RequestBody(song: Option<SongPayload>, requester: Option<RequesterPayload>)

  datatype ReplyBody = NoContent | ErrorText(text: string) | MessageText(text: string)

  /** What was POSTed to the form: the endpoint and the form parameters. */
  datatype Submission = Submission(url: string, params: seq<Pair>)

  /** The handler's answer: status code, body, and the submission it made, if any. */
  datatype Reply = Reply(status: nat, body: ReplyBody, sent: Option<Submission>)

  /** The method, body and payload checks that come before any configuration
      is read (request.ts:79-105). `parseJson` stands for `JSON.parse`, with
      `None` for a body that is not valid JSON. On success it yields the
      parsed payload, which then has a song. */
  function ValidateRequest(httpMethod: string, body: Option<string>,
                           parseJson: string -> Option<RequestBody>): (r: Result<RequestBody, Reply>)
    ensures r.Success? <==>
      && httpMethod == "POST" && body.Some? && body.value != ""
      && parseJson(body.value).Some? && parseJson(body.value).value.song.Some?
    ensures r.Success? ==> r.value == parseJson(body.value).value && r.value.song.Some?
    ensures httpMethod == "OPTIONS" ==> r == Failure(Reply(204, NoContent, None))
    ensures httpMethod != "OPTIONS" && httpMethod != "POST" ==>
      r == Failure(Reply(405, ErrorText("Method not allowed"), None))
    ensures httpMethod == "POST" && (body.None? || body.value == "") ==>
      r == Failure(Reply(400, ErrorText("Missing request body"), None))
    ensures httpMethod == "POST" && body.Some? && body.value != "" && parseJson(body.value).None? ==>
      r == Failure(Reply(400, ErrorText("Invalid JSON payload"), None))
    ensures (&& httpMethod == "POST" && body.Some? && body.value != "" && parseJson(body.value).Some?
             && parseJson(body.value).value.song.None?) ==>
      r == Failure(Reply(400, ErrorText("Song information is required"), None))
    ensures r.Failure? ==> r.error.sent.None? && r.error.status in {204, 405, 400}
  {
    if httpMethod == "OPTIONS" then Failure(Reply(204, NoContent, None))
    else if httpMethod != "POST" then Failure(Reply(405, ErrorText("Method not allowed"), None))
    else if body.None? || body.value == "" then Failure(Reply(400, ErrorText("Missing request body"), None))
    else match parseJson(body.value)
      case None => Failure(Reply(400, ErrorText("Invalid JSON payload"), None))
      case Some(payload) =>
        if payload.song.None? then Failure(Reply(400, ErrorText("Song information is required"), None))
        else Success(payload)
  }

  // ---------------------------------------------------------------------
  // Configuration: endpoint and baseline parameters

  /** The two environment variables that may hold the prefill URL. */
  datatype Env = Env(googleFormUrl: Option<string>, viteGoogleFormUrl: Option<string>)

  /** A URL as `new URL(...)` splits it; `query` is `url.search` as pairs. */
  datatype ParsedUrl = ParsedUrl(origin: string, pathname: string, query: seq<Pair>)

  datatype FormConfig = FormConfig(responseUrl: string, defaultParams: seq<Pair>)

  const NotConfiguredMessage := "Google Form URL is not configured. Set GOOGLE_FORM_URL or VITE_GOOGLE_FORM_URL."
  const InvalidUrlMessage := "Google Form URL is invalid. Provide a full prefilled link."

  /** `GOOGLE_FORM_URL ?? VITE_GOOGLE_FORM_URL`: the fallback is read only when
      the primary variable is absent (an empty primary is not skipped). */
  function ConfiguredUrl(env: Env): (r: Option<string>)
    ensures env.googleFormUrl.Some? ==> r == env.googleFormUrl
    ensures env.googleFormUrl.None? ==> r == env.viteGoogleFormUrl
  {
    if env.googleFormUrl.Some? then env.googleFormUrl else env.viteGoogleFormUrl
  }

  /** The word `w` stands at `i` and is followed by `/` or by the end of the path. */
  predicate WordAt(path: string, i: nat, w: string) {
    && i + |w| <= |path| && path[i..i + |w|] == w
    && (i + |w| == |path| || path[i + |w|] == '/')
  }

  /** Length of the word `/(viewform|prefill)(\/|$)/` matches at `i`, or 0. */
  function MatchLength(path: string, i: nat): (n: nat)
    ensures n == 8 <==> WordAt(path, i, "viewform")
    ensures n == 7 <==> WordAt(path, i, "prefill")
    ensures n != 0 ==> n == 8 || n == 7
  {
    if WordAt(path, i, "viewform") then 8 else if WordAt(path, i, "prefill") then 7 else 0
  }

  /** The leftmost position at or after `from` where the pattern matches. */
  function FirstMatch(path: string, from: nat): (r: Option<nat>)
    requires from <= |path|
    decreases |path| - from
    ensures r.Some? ==>
      && from <= r.value && r.value + MatchLength(path, r.value) <= |path|
      && MatchLength(path, r.value) > 0
      && forall j :: from <= j < r.value ==> MatchLength(path, j) == 0
    ensures r.None? ==> forall j :: from <= j <= |path| ==> MatchLength(path, j) == 0
  {
    if MatchLength(path, from) > 0 then Some(from)
    else if from == |path| then None
    else FirstMatch(path, from + 1)
  }

  /** `pathname.replace(/(viewform|prefill)(\/|$)/, 'formResponse$2')`: the
      path is unchanged when nothing matches; otherwise only the leftmost
      matching word is replaced, and everything before it and after it,
      including a following `/`, is kept. */
  function ResponsePath(path: string): (r: string)
    ensures (forall j :: 0 <= j <= |path| ==> MatchLength(path, j) == 0) ==> r == path
    ensures FirstMatch(path, 0).Some? ==>
      var i := FirstMatch(path, 0).value;
      var n := MatchLength(path, i);
      && (path[i..i + n] == "viewform" || path[i..i + n] == "prefill")
      && |r| == |path| - n + 12
      && r[..i] == path[..i] && r[i..i + 12] == "formResponse" && r[i + 12..] == path[i + n..]
      && (r[i + 12..] == [] || r[i + 12] == '/')
  {
    match FirstMatch(path, 0)
    case None => path
    case Some(i) => path[..i] + "formResponse" + path[i + MatchLength(path, i)..]
  }

  /** The configuration `deriveFormResponseConfig` produces, or the message of
      the error it throws (request.ts:39-68). */
  function FormConfigFor(env: Env, parseUrl: string -> Option<ParsedUrl>, ids: FieldIds): (r: Result<FormConfig, string>)
    ensures r == Failure(NotConfiguredMessage) <==> ConfiguredUrl(env) in {None, Some("")}
    ensures r == Failure(InvalidUrlMessage) <==>
      ConfiguredUrl(env).Some? && ConfiguredUrl(env).value != "" && parseUrl(ConfiguredUrl(env).value).None?
    ensures r.Success? <==>
      ConfiguredUrl(env).Some? && ConfiguredUrl(env).value != "" && parseUrl(ConfiguredUrl(env).value).Some?
    ensures r.Success? ==>
      var u := parseUrl(ConfiguredUrl(env).value).value;
      && r.value.responseUrl == u.origin + ResponsePath(u.pathname)
      && (forall k :: k in StrippedKeys(ids) ==> ValuesOf(r.value.defaultParams, k) == [])
      && (forall j :: j !in StrippedKeys(ids) ==> ValuesOf(r.value.defaultParams, j) == ValuesOf(u.query, j))
      && r.value.defaultParams == Without(u.query, StrippedKeys(ids))
  {
    var envUrl := ConfiguredUrl(env);
    if envUrl.None? || envUrl.value == "" then Failure(NotConfiguredMessage)
    else match parseUrl(envUrl.value)
      case None => Failure(InvalidUrlMessage)
      case Some(u) =>
        var defaults := Without(u.query, StrippedKeys(ids));
        assert forall j :: ValuesOf(defaults, j) == if j in StrippedKeys(ids) then [] else ValuesOf(u.query, j) by {
          forall j { WithoutValues(u.query, StrippedKeys(ids), j); }
        }
        Success(FormConfig(u.origin + ResponsePath(u.pathname), defaults))
  }

  /** `deriveFormResponseConfig`: deletes each field identifier and then
      `submit` from a copy of the prefill URL's query, one key at a time. */
  method DeriveFormResponseConfig(env: Env, parseUrl: string -> Option<ParsedUrl>, ids: FieldIds)
    returns (r: Result<FormConfig, string>)
    ensures r == FormConfigFor(env, parseUrl, ids)
  {
    var envUrl := ConfiguredUrl(env);
    if envUrl.None? || envUrl.value == "" {
      return Failure(NotConfiguredMessage);
    }
    var parsed := parseUrl(envUrl.value);
    if parsed.None? {
      return Failure(InvalidUrlMessage);
    }
    var url := parsed.value;
    var responseUrl := url.origin + ResponsePath(url.pathname);
    var defaultParams := new ParamList(url.query);
    var fieldIds := AllFieldIds(ids);
    WithoutAbsent(url.query, {});
    assert KeySet(fieldIds[..0]) == {};
    var i := 0;
    while i < |fieldIds|
      invariant 0 <= i <= |fieldIds|
      invariant defaultParams.pairs == Without(url.query, KeySet(fieldIds[..i]))
    {
      defaultParams.Delete(fieldIds[i]);
      WithoutWithout(url.query, KeySet(fieldIds[..i]), {fieldIds[i]});
      KeySetSnoc(fieldIds, i);
      i := i + 1;
    }
    defaultParams.Delete(SubmitKey);
    assert fieldIds[..i] == fieldIds;
    WithoutWithout(url.query, KeySet(fieldIds), {SubmitKey});
    return Success(FormConfig(responseUrl, defaultParams.pairs));
  }

  // ---------------------------------------------------------------------
  // Parameter assembly

  /** The nine `appendField` calls of request.ts:120-128, in order, as
      (field identifier, value written) pairs; an absent value is `""`. */
  function FieldWrites(ids: FieldIds, song: SongPayload, requester: Option<RequesterPayload>): (ws: seq<Pair>)
    ensures |ws| == 9
    ensures forall i :: 0 <= i < 9 ==> ws[i].key == AllFieldIds(ids)[i]
  {
    var who := requester.GetOr(RequesterPayload(None, None, None));
    [ Pair(ids.trackId, song.id.GetOr("")),
      Pair(ids.trackName, song.title.GetOr("")),
      Pair(ids.artistName, song.artist.GetOr("")),
      Pair(ids.albumName, song.album.GetOr("")),
      Pair(ids.artworkUrl, song.artworkUrl.GetOr("")),
      Pair(ids.previewUrl, song.previewUrl.GetOr("")),
      Pair(ids.requesterName, who.name.GetOr("")),
      Pair(ids.dedication, who.dedication.GetOr("")),
      Pair(ids.contact, who.contact.GetOr("")) ]
  }

  /** One `appendField`: an empty identifier is skipped, any other is `set`. */
  function ApplyField(ps: seq<Pair>, w: Pair): seq<Pair> {
    if w.key == "" then ps else SetValue(ps, w.key, w.value)
  }

  /** A run of `appendField` calls. */
  function ApplyFields(ps: seq<Pair>, ws: seq<Pair>): seq<Pair>
    decreases |ws|
  {
    if ws == [] then ps else ApplyFields(ApplyField(ps, ws[0]), ws[1..])
  }

  /** The parameters request.ts:119-129 sends, built from the defaults. */
  function AssembledParams(defaults: seq<Pair>, ids: FieldIds, song: SongPayload,
                           requester: Option<RequesterPayload>): seq<Pair>
  {
    SetValue(ApplyFields(defaults, FieldWrites(ids, song, requester)), SubmitKey, "Submit")
  }

  /** `appendField(params, fieldId, value)` */
  method AppendField(params: ParamList, fieldId: string, value: Option<string>)
    modifies params
    ensures params.pairs == ApplyField(old(params.pairs), Pair(fieldId, value.GetOr("")))
  {
    if fieldId == "" {
      return;
    }
    params.Set(fieldId, value.GetOr(""));
  }

  lemma ApplyFieldsUnfold(ps: seq<Pair>, ws: seq<Pair>, n: nat)
    requires n < |ws|
    ensures ApplyFields(ps, ws[n..]) == ApplyFields(ApplyField(ps, ws[n]), ws[n + 1..])
  {
    assert ws[n..][1..] == ws[n + 1..];
  }

  /** request.ts:119-129: copy the defaults, write the nine fields, set `submit`. */
  method AssembleParams(defaults: seq<Pair>, ids: FieldIds, song: SongPayload,
                        requester: Option<RequesterPayload>) returns (ps: seq<Pair>)
    ensures ps == AssembledParams(defaults, ids, song, requester)
  {
    ghost var ws := FieldWrites(ids, song, requester);
    var who := requester.GetOr(RequesterPayload(None, None, None));
    var params := new ParamList(defaults);
    assert ws[0..] == ws;
    AppendField(params, ids.trackId, song.id);
    ApplyFieldsUnfold(defaults, ws, 0);
    ghost var p := params.pairs;
    AppendField(params, ids.trackName, song.title);
    ApplyFieldsUnfold(p, ws, 1);
    p := params.pairs;
    AppendField(params, ids.artistName, song.artist);
    ApplyFieldsUnfold(p, ws, 2);
    p := params.pairs;
    AppendField(params, ids.albumName, song.album);
    ApplyFieldsUnfold(p, ws, 3);
    p := params.pairs;
    AppendField(params, ids.artworkUrl, song.artworkUrl);
    ApplyFieldsUnfold(p, ws, 4);
    p := params.pairs;
    AppendField(params, ids.previewUrl, song.previewUrl);
    ApplyFieldsUnfold(p, ws, 5);
    p := params.pairs;
    AppendField(params, ids.requesterName, who.name);
    ApplyFieldsUnfold(p, ws, 6);
    p := params.pairs;
    AppendField(params, ids.dedication, who.dedication);
    ApplyFieldsUnfold(p, ws, 7);
    p := params.pairs;
    AppendField(params, ids.contact, who.contact);
    ApplyFieldsUnfold(p, ws, 8);
    assert ws[9..] == [];
    params.Set(SubmitKey, "Submit");
    ps := params.pairs;
  }

  /** A write whose key no other write uses leaves exactly its value under that key. */
  lemma {:induction false} ApplyFieldsUnique(ps: seq<Pair>, ws: seq<Pair>, i: nat)
    requires i < |ws| && ws[i].key != ""
    requires forall j :: 0 <= j < |ws| && j != i ==> ws[j].key != ws[i].key
    ensures ValuesOf(ApplyFields(ps, ws), ws[i].key) == [ws[i].value]
    decreases |ws|
  {
    var next := ApplyField(ps, ws[0]);
    if i == 0 {
      SetValueValues(ps, ws[0].key, ws[0].value, ws[0].key);
      ApplyFieldsUntouched(next, ws[1..], ws[0].key);
    } else {
      ApplyFieldsUnique(next, ws[1..], i - 1);
    }
  }

  /** A key that no write uses (or the empty key) keeps its values. */
  lemma {:induction false} ApplyFieldsUntouched(ps: seq<Pair>, ws: seq<Pair>, k: string)
    requires k == "" || forall j :: 0 <= j < |ws| ==> ws[j].key != k
    ensures ValuesOf(ApplyFields(ps, ws), k) == ValuesOf(ps, k)
    decreases |ws|
  {
    if ws != [] {
      var next := ApplyField(ps, ws[0]);
      if ws[0].key != "" {
        SetValueValues(ps, ws[0].key, ws[0].value, k);
      }
      ApplyFieldsUntouched(next, ws[1..], k);
    }
  }

  /** Writes to keys in `ks` leave every pair outside `ks` where it was. */
  lemma {:induction false} ApplyFieldsKeepsOthers(ps: seq<Pair>, ws: seq<Pair>, ks: set<string>)
    requires forall j :: 0 <= j < |ws| ==> ws[j].key == "" || ws[j].key in ks
    ensures Without(ApplyFields(ps, ws), ks) == Without(ps, ks)
    decreases |ws|
  {
    if ws != [] {
      if ws[0].key != "" {
        SetValueKeepsOthers(ps, ws[0].key, ws[0].value, ks);
      }
      ApplyFieldsKeepsOthers(ApplyField(ps, ws[0]), ws[1..], ks);
    }
  }

  /** The `i`-th mapped field, when its identifier is not empty, ends up
      holding exactly the value written for it. */
  lemma FieldValue(defaults: seq<Pair>, ids: FieldIds, song: SongPayload,
                   requester: Option<RequesterPayload>, i: nat)
    requires DistinctIds(ids) && i < 9
    ensures var ws := FieldWrites(ids, song, requester);
      ws[i].key != "" ==>
        ValuesOf(AssembledParams(defaults, ids, song, requester), ws[i].key) == [ws[i].value]
  {
    var ws := FieldWrites(ids, song, requester);
    if ws[i].key != "" {
      ApplyFieldsUnique(defaults, ws, i);
      SetValueValues(ApplyFields(defaults, ws), SubmitKey, "Submit", ws[i].key);
    }
  }

  /** What the form receives (request.ts:119-129): with distinct identifiers,
      every non-empty field identifier holds exactly one value, the one
      supplied or `""`; `submit` holds exactly `Submit`; the empty key is
      never written; and every other pair of the defaults keeps its value and
      its order. */
  lemma SubmittedParams(defaults: seq<Pair>, ids: FieldIds, song: SongPayload, requester: Option<RequesterPayload>)
    requires DistinctIds(ids)
    ensures var ps := AssembledParams(defaults, ids, song, requester);
      var who := requester.GetOr(RequesterPayload(None, None, None));
      && (ids.trackId != "" ==> ValuesOf(ps, ids.trackId) == [song.id.GetOr("")])
      && (ids.trackName != "" ==> ValuesOf(ps, ids.trackName) == [song.title.GetOr("")])
      && (ids.artistName != "" ==> ValuesOf(ps, ids.artistName) == [song.artist.GetOr("")])
      && (ids.albumName != "" ==> ValuesOf(ps, ids.albumName) == [song.album.GetOr("")])
      && (ids.artworkUrl != "" ==> ValuesOf(ps, ids.artworkUrl) == [song.artworkUrl.GetOr("")])
      && (ids.previewUrl != "" ==> ValuesOf(ps, ids.previewUrl) == [song.previewUrl.GetOr("")])
      && (ids.requesterName != "" ==> ValuesOf(ps, ids.requesterName) == [who.name.GetOr("")])
      && (ids.dedication != "" ==> ValuesOf(ps, ids.dedication) == [who.dedication.GetOr("")])
      && (ids.contact != "" ==> ValuesOf(ps, ids.contact) == [who.contact.GetOr("")])
      && ValuesOf(ps, SubmitKey) == ["Submit"]
      && ValuesOf(ps, "") == ValuesOf(defaults, "")
      && Without(ps, StrippedKeys(ids)) == Without(defaults, StrippedKeys(ids))
  {
    var ws := FieldWrites(ids, song, requester);
    var fields := ApplyFields(defaults, ws);
    FieldValue(defaults, ids, song, requester, 0);
    FieldValue(defaults, ids, song, requester, 1);
    FieldValue(defaults, ids, song, requester, 2);
    FieldValue(defaults, ids, song, requester, 3);
    FieldValue(defaults, ids, song, requester, 4);
    FieldValue(defaults, ids, song, requester, 5);
    FieldValue(defaults, ids, song, requester, 6);
    FieldValue(defaults, ids, song, requester, 7);
    FieldValue(defaults, ids, song, requester, 8);
    SetValueValues(fields, SubmitKey, "Submit", SubmitKey);
    ApplyFieldsUntouched(defaults, ws, "");
    SetValueValues(fields, SubmitKey, "Submit", "");
    ApplyFieldsKeepsOthers(defaults, ws, StrippedKeys(ids));
    SetValueKeepsOthers(fields, SubmitKey, "Submit", StrippedKeys(ids));
  }

  // ---------------------------------------------------------------------
  // Submission outcome and the handler

  /** What the single POST to the form produced: a transport failure (with the
      thrown error's message when it was an `Error`) or a response status. */
  datatype SubmitOutcome = NetworkFailure(reason: Option<string>) | Responded(status: nat)

  const SubmittedMessage := "Song request submitted successfully."

  /** request.ts:141-157: 502 for a transport failure or a non-ok status, 200
      otherwise; the submission is reported as sent in every case. */
  function OutcomeReply(outcome: SubmitOutcome, sent: Submission): (r: Reply)
    ensures r.sent == Some(sent)
    ensures r.status == 200 <==> outcome.Responded? && Http.IsOk(outcome.status)
    ensures r.status != 200 ==> r.status == 502
    ensures r.status == 200 ==> r.body == MessageText(SubmittedMessage)
    ensures outcome.NetworkFailure? ==>
      r.body == ErrorText("Failed to submit to Google Form: " + outcome.reason.GetOr("Unknown error"))
    ensures outcome.Responded? && !Http.IsOk(outcome.status) ==>
      r.body == ErrorText("Google Form responded with status " + JsText.NatToString(outcome.status))
  {
    match outcome
    case NetworkFailure(reason) =>
      Reply(502, ErrorText("Failed to submit to Google Form: " + reason.GetOr("Unknown error")), Some(sent))
    case Responded(status) =>
      if !Http.IsOk(status) then
        Reply(502, ErrorText("Google Form responded with status " + JsText.NatToString(status)), Some(sent))
      else
        Reply(200, MessageText(SubmittedMessage), Some(sent))
  }

  /** `handler` (request.ts:78-158). The environment, the URL and JSON parsers
      and the form's answer are inputs. A request is submitted exactly when
      it passes validation and the configuration is usable; a rejected
      request or a configuration error sends nothing. */
  method Handle(httpMethod: string, body: Option<string>, parseJson: string -> Option<RequestBody>,
                env: Env, parseUrl: string -> Option<ParsedUrl>, ids: FieldIds, outcome: SubmitOutcome)
    returns (r: Reply)
    ensures ValidateRequest(httpMethod, body, parseJson).Failure? ==>
      r == ValidateRequest(httpMethod, body, parseJson).error
    ensures ValidateRequest(httpMethod, body, parseJson).Success? && FormConfigFor(env, parseUrl, ids).Failure? ==>
      r == Reply(500, ErrorText(FormConfigFor(env, parseUrl, ids).error), None)
    ensures ValidateRequest(httpMethod, body, parseJson).Success? && FormConfigFor(env, parseUrl, ids).Success? ==>
      var payload := ValidateRequest(httpMethod, body, parseJson).value;
      var config := FormConfigFor(env, parseUrl, ids).value;
      r == OutcomeReply(outcome, Submission(config.responseUrl,
             AssembledParams(config.defaultParams, ids, payload.song.value, payload.requester)))
    ensures r.sent.Some? <==>
      ValidateRequest(httpMethod, body, parseJson).Success? && FormConfigFor(env, parseUrl, ids).Success?
  {
    var checked := ValidateRequest(httpMethod, body, parseJson);
    if checked.Failure? {
      return checked.error;
    }
    var payload := checked.value;
    var config := DeriveFormResponseConfig(env, parseUrl, ids);
    if config.Failure? {
      return Reply(500, ErrorText(config.error), None);
    }
    var params := AssembleParams(config.value.defaultParams, ids, payload.song.value, payload.requester);
    r := OutcomeReply(outcome, Submission(config.value.responseUrl, params));
  }
}
