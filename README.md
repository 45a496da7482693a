# djrequests song-request pipeline in Dafny

This project models the core of djrequests, a small web app where an audience member
searches the iTunes catalog and sends a song request to a DJ. A request goes to a Google Form,
and a form-submit trigger writes it into a playlist document. There are five pieces:

- `form_request.dfy`: the submission function (`netlify/functions/request.ts`). It validates the
  HTTP request. It derives the `formResponse` endpoint and a cleaned baseline parameter list from
  the configured prefill URL. It writes the nine mapped form fields plus `submit=Submit`, and it
  turns the outcome of the POST into a status code and a message.
- `catalog_search.dfy`: the search function (`netlify/functions/search.ts`). It trims the term,
  classifies the upstream outcome (502, 503, 200 with a message) and maps iTunes records to `Track`s.
- `doc_format.dfy`: the document entry formatter (`apps-script/format.ts`). It builds a heading
  and six labelled metadata values, with placeholders for values that are absent.
- `doc_trigger.dfy`: the form-submit trigger (`apps-script/index.ts`). It turns the form's named
  values into a submission and appends the entry to the document body, modelled as a class whose
  list of blocks only grows.
- `song_search.dfy`: the client search hook (`src/hooks/useSongSearch.ts`). It is a class holding
  the request counter and the search state. A search result is applied only if its request id is
  still current.

Shared pieces:

- `url_params.dfy` models `URLSearchParams` as an ordered list of key/value pairs. It has
  `delete` and `set` operations and an in-place `ParamList` class.
- `js_text.dfy` models JavaScript's `trim` and `String(n)`.
- `http.dfy` models `Response.ok`.
- `wrappers.dfy` holds `Option` and `Result`. `Option.GetOr` is the model of `??`.

Inputs that the source reads from the outside world are parameters here:

- the environment variables;
- `new URL(...)` and `JSON.parse`, which are function-valued parameters returning `Option`;
- the answer of every `fetch`;
- the date formatter;
- the current time;
- the Google Doc body;
- the form-field identifier table `FORM_FIELD_IDS`. `shared/formFields` is not part of this model,
  so its nine identifiers are the `FieldIds` parameter.

Notes on what the code does:

- The submission function only checks that `song` is present. It does not check that the song has
  an id, a title or an artist. So those three are optional in `SongPayload`, and a missing one is
  written as `""`.
- `GOOGLE_FORM_URL ?? VITE_GOOGLE_FORM_URL` falls back only when the primary variable is absent.
  An empty primary value is not skipped. It gives the "not configured" error.
- The path rewrite replaces the leftmost `viewform`/`prefill` that is followed by `/` or by the end
  of the path, wherever it occurs. It is not limited to the last path segment.

## Model

| member | source | states |
|---|---|---|
| `Wrappers.Option.GetOr` | netlify/functions/request.ts:123 | `a ?? b` is the value of `a` when present and `b` when it is null or undefined |
| `Http.IsOk` | netlify/functions/request.ts:149 | `response.ok` holds exactly for a status in 200-299 |
| `JsText.TrimStart` | netlify/functions/search.ts:39 | the result is a suffix of the input that does not start with white space, and everything dropped is white space |
| `JsText.TrimEnd` | netlify/functions/search.ts:39 | the result is a prefix of the input that does not end with white space, and everything dropped is white space |
| `JsText.Trim` | netlify/functions/search.ts:39 | `trim()` gives the slice after the leading white space, with white space only outside it and at neither end; it is empty exactly when the input is all white space |
| `JsText.NatToString` | netlify/functions/search.ts:97 | `String(n)` is a non-empty string of decimal digits with no leading zero: it starts with `0` exactly for zero, and then it is `0` alone |
| `JsText.DecimalRoundTrip` | netlify/functions/search.ts:97 | reading the digits of `String(n)` gives `n` back |
| `JsText.NatToStringInjective` | netlify/functions/search.ts:97 | different numbers give different strings |
| `UrlParams.WithoutValues` | netlify/functions/request.ts:61-62 | after removing a set of keys, those keys hold no value and every other key holds exactly its old values |
| `UrlParams.WithoutWithout` | netlify/functions/request.ts:61-62 | removing key sets one after the other equals removing their union, so the order of the deletes does not matter |
| `UrlParams.WithoutAbsent` | netlify/functions/request.ts:61-62 | removing keys that do not occur leaves the list unchanged |
| `UrlParams.SetValueValues` | netlify/functions/request.ts:75 | after `set(k, v)`, `k` holds exactly `[v]` and every other key holds its old values |
| `UrlParams.SetValueKeepsOthers` | netlify/functions/request.ts:75 | `set(k, v)` keeps every pair whose key is outside a set containing `k`, with the same values in the same relative order |
| `UrlParams.SetValueAppends` | netlify/functions/request.ts:129 | when `k` is absent, `set` appends `(k, v)` at the end |
| `UrlParams.SetValueReplacesFirst` | netlify/functions/request.ts:75 | when `k` first occurs at `f`, `set` writes `(k, v)` at `f`, keeps the earlier pairs and drops the later `k` pairs |
| `UrlParams.ParamList.constructor` | netlify/functions/request.ts:119 | `new URLSearchParams(init)` holds a copy of `init` |
| `UrlParams.ParamList.Delete` | netlify/functions/request.ts:61-62 | `delete(k)` removes every `k` pair in place; other keys keep their values |
| `UrlParams.ParamList.Set` | netlify/functions/request.ts:75 | `set(k, v)` in place; `k` then holds exactly `[v]`, other keys unchanged |
| `FormRequest.ValidateRequest` | netlify/functions/request.ts:79-105 | OPTIONS gives 204 with no body; any other non-POST method gives 405; a missing or empty body, invalid JSON or a missing song gives 400 with its message; none of them sends anything; it succeeds exactly for a POST with JSON that has a song |
| `FormRequest.ConfiguredUrl` | netlify/functions/request.ts:40 | `GOOGLE_FORM_URL` is used when present, and otherwise `VITE_GOOGLE_FORM_URL` |
| `FormRequest.MatchLength` | netlify/functions/request.ts:54 | the pattern matches at `i` with length 8 exactly for `viewform` and 7 exactly for `prefill`, each followed by `/` or the end |
| `FormRequest.FirstMatch` | netlify/functions/request.ts:53-56 | finds the leftmost match position, with no match before it; `None` only when no position matches |
| `FormRequest.ResponsePath` | netlify/functions/request.ts:53-56 | a path with no match is unchanged; otherwise only the leftmost matching word becomes `formResponse`, and the text before it and after it (including the `/`) is kept |
| `FormRequest.FormConfigFor` | netlify/functions/request.ts:39-68 | the "not configured" error exactly when the chosen URL is absent or empty; the "invalid" error exactly when it does not parse; success exactly when it is present, non-empty and parses, and then the endpoint is origin plus rewritten path with no query, and the defaults hold no field id and no `submit`, while every other key keeps its values and order |
| `FormRequest.DeriveFormResponseConfig` | netlify/functions/request.ts:39-68 | the delete loop over the field ids, followed by the delete of `submit`, computes exactly `FormConfigFor` |
| `FormRequest.FieldWrites` | netlify/functions/request.ts:120-128 | nine writes, in the order of the field ids |
| `FormRequest.AppendField` | netlify/functions/request.ts:70-76 | an empty field id changes nothing; any other field id is `set` to the value, or to `""` when the value is absent |
| `FormRequest.AssembleParams` | netlify/functions/request.ts:119-129 | the nine `appendField` calls and `set('submit', 'Submit')` on a copy of the defaults compute exactly `AssembledParams` |
| `FormRequest.ApplyFieldsUnique` | netlify/functions/request.ts:120-128 | a write whose key no other write uses leaves exactly its value under that key |
| `FormRequest.ApplyFieldsUntouched` | netlify/functions/request.ts:71-73 | the empty key, and any key that is never written, keeps its values |
| `FormRequest.ApplyFieldsKeepsOthers` | netlify/functions/request.ts:120-128 | writes to keys in a set leave every pair outside the set in place |
| `FormRequest.FieldValue` | netlify/functions/request.ts:120-128 | with distinct ids, each non-empty mapped field ends up holding exactly its written value |
| `FormRequest.SubmittedParams` | netlify/functions/request.ts:119-129 | with distinct ids, each non-empty field id holds exactly one value: the supplied one, or `""`; `submit` holds exactly `Submit`; the empty key is never written; every other default pair keeps its value and order |
| `FormRequest.OutcomeReply` | netlify/functions/request.ts:141-157 | a transport failure gives 502 "Failed to submit to Google Form: …"; a non-ok status gives 502 "Google Form responded with status N"; otherwise 200 with the success message |
| `FormRequest.Handle` | netlify/functions/request.ts:78-158 | a validation failure is returned as is; a configuration error gives 500 with its message; otherwise the assembled parameters are posted to the derived endpoint and the outcome decides the reply; something is sent exactly when validation and configuration both succeed |
| `CatalogSearch.TrimmedTerm` | netlify/functions/search.ts:39 | an absent term counts as empty; a present term is empty after trimming exactly when it is all white space |
| `CatalogSearch.UpstreamQuery` | netlify/functions/search.ts:48-52 | the query carries `term` = the trimmed term, `entity=song`, `limit=25`, and no other key |
| `CatalogSearch.ToTrack` | netlify/functions/search.ts:96-103 | `id` is a digit string with no leading zero that reads back as `trackId`, so it is the decimal `String(trackId)`; title and artist pass through; each absent optional field stays absent (`null`) |
| `CatalogSearch.ToTracks` | netlify/functions/search.ts:95-104 | the same length and order as the upstream records, one mapped `Track` per record |
| `CatalogSearch.HandleSearch` | netlify/functions/search.ts:38-105 | a blank term gives 400 "Missing search term" and no fetch; otherwise one fetch with the trimmed term; transport failure gives 502; 429, and only 429, gives 503 with the rate-limit message; another non-ok status gives 502 echoing it; missing or empty results give 200 with `No songs found for "term".`; otherwise 200 with the mapped tracks; every error reply has no tracks |
| `DocFormat.RequestedAt` | apps-script/format.ts:18-24 | a timestamp that is not a valid date is passed through unchanged; a valid one is rendered by the date formatter |
| `DocFormat.BuildDocEntry` | apps-script/format.ts:17-39 | defined for every submission; heading `trackName (ID: trackId)`; exactly six entries labelled Artist, Album, Requested by, Dedication, Contact, Requested at; the artist and supplied values pass through; absent ones become `—`, or `Guest` for the requester |
| `DocFormat.HeadingRecoversTrackId` | apps-script/format.ts:36 | the heading is the track name, then ` (ID: `, then the id, then `)`, so the id can be read back |
| `DocFormat.HeadingDeterminesTrackId` | apps-script/format.ts:36 | two submissions with the same track name and the same heading have the same id |
| `DocTrigger.DocBody.constructor` | apps-script/index.ts:10-13 | a body with the given blocks |
| `DocTrigger.DocBody.AppendParagraph` | apps-script/index.ts:11 | appends one normal paragraph and returns its position |
| `DocTrigger.DocBody.SetHeading` | apps-script/index.ts:6 | changes only the heading level of that paragraph |
| `DocTrigger.DocBody.SetBold` | apps-script/index.ts:7 | changes only the bold flag of that paragraph |
| `DocTrigger.DocBody.AppendHorizontalRule` | apps-script/index.ts:12 | appends one rule |
| `DocTrigger.MetadataParagraphs` | apps-script/index.ts:35-37 | one paragraph per entry, in order, with text exactly `label: value` |
| `DocTrigger.MetadataParagraphsSnoc` | apps-script/index.ts:35-37 | one more entry adds one more paragraph at the end |
| `DocTrigger.EntryItems` | apps-script/index.ts:32-39 | an entry's blocks are the bold level-2 heading, one `label: value` paragraph per metadata entry in order, and a closing rule |
| `DocTrigger.EntryLayout` | apps-script/index.ts:31-39 | an entry adds 1 + 6 + 1 blocks: the bold level-2 heading, the six lines in label order, then the rule |
| `DocTrigger.AppendMetadata` | apps-script/index.ts:35-37 | the `forEach` appends exactly the metadata paragraphs |
| `DocTrigger.AppendEntry` | apps-script/index.ts:32-39 | appends the heading (made level 2 and bold), the metadata lines and the rule, in that order |
| `DocTrigger.AppendSubmissionToDoc` | apps-script/index.ts:27-40 | the body gains exactly the entry's blocks at its end; existing blocks are unchanged |
| `DocTrigger.FirstValue` | apps-script/index.ts:54-60 | `namedValues[name]?.[0]` is present exactly when the name has at least one answer, and it is the first answer |
| `DocTrigger.SubmissionFromNamedValues` | apps-script/index.ts:53-62 | only the first answer is used; a missing track id becomes `""`, track name `Unknown Track`, artist `Unknown Artist`; missing optional fields become `null` |
| `DocTrigger.NoAnswersGiveDefaults` | apps-script/index.ts:53-62 | with no answers, every field takes its default |
| `DocTrigger.NamedValuesRoundTrip` | apps-script/index.ts:53-62 | reading back the named values a submission would produce gives that submission |
| `DocTrigger.OnlyFirstAnswerUsed` | apps-script/index.ts:54-60 | extra answers to a question change nothing |
| `DocTrigger.OnFormSubmit` | apps-script/index.ts:49-65 | the body gains the blocks of the entry built from the named values |
| `SongSearchHook.SuccessMessage` | src/hooks/useSongSearch.ts:78-81 | no message when there are tracks; otherwise the payload message, or else `No songs found for “q”.` |
| `SongSearchHook.Settled` | src/hooks/useSongSearch.ts:63-94 | the status is success exactly for an ok answer and error otherwise; a thrown error or a non-ok answer gives the error state (no results, no message, the error text or `Search failed`); otherwise success with the tracks (`[]` if they are not an array), no error, and the message chosen by `SuccessMessage` |
| `SongSearchHook.SongSearch.constructor` | src/hooks/useSongSearch.ts:25-32 | counter 0; idle state with the initial message |
| `SongSearchHook.SongSearch.QueryChanged` | src/hooks/useSongSearch.ts:35-48 | the counter goes up by exactly 1 on every change; a blank query resets to idle with no results, the initial message and no error; any other query leaves the state unchanged |
| `SongSearchHook.SongSearch.StartLoading` | src/hooks/useSongSearch.ts:51-56 | status loading, results kept, `Searching songs…`, error cleared, without any staleness check |
| `SongSearchHook.SongSearch.Resolve` | src/hooks/useSongSearch.ts:71-94 | an outcome whose id is no longer current leaves the state unchanged; a current one sets `Settled` |
| `SongSearchHook.SupersededAnswerIgnored` | src/hooks/useSongSearch.ts:37-38 | when a newer query has been answered, a late answer to the older one does not change what is shown |
| `SongSearchHook.EarlyStaleAnswerIgnored` | src/hooks/useSongSearch.ts:71-73 | a stale answer that arrives while the newer search is loading is ignored |
| `SongSearchHook.ClearedQueryStaysIdle` | src/hooks/useSongSearch.ts:40-47 | after the query is cleared, an answer still in flight cannot bring results back |

## Left out

- Network calls (`fetch`) are not modelled. Each outcome is an input: a transport failure (with
  the error message when one exists), or a status and a payload. `Response.ok` is derived from the
  status (200-299).
- `process.env`, `new URL(...)` and `JSON.parse` are inputs. The model keeps the URL's origin, path
  and query pairs. Percent-encoding and `URLSearchParams.toString()` serialisation are library
  behaviour and are not modelled.
- `FORM_FIELD_IDS`: `shared/formFields` is not part of this model, so the order of
  `Object.values(FORM_FIELD_IDS)` cannot be seen. The nine identifiers are a parameter, and the
  delete loop visits them in the order of the `appendField` calls (request.ts:120-128).
  `UrlParams.WithoutWithout` shows that the order of the deletes does not change the result.
- `FormRequest.SubmittedParams` assumes that the non-empty field ids are pairwise distinct and
  differ from `submit`. Without that, a later write overwrites an earlier one.
- The CORS and content-type headers, the `cache-control` header and the JSON encoding of the
  response body are not modelled. Only the status, the message or error text, the tracks and the
  request that was sent are kept.
- A JSON body that parses to `null` makes `payload.song` throw outside any `try` in
  request.ts:103. The JSON parser input cannot produce this case, so the resulting runtime crash is
  not modelled.
- An upstream answer that makes the search handler throw instead of reply is not modelled. The
  `Upstream` input cannot express it. There are three such answers, all outside any `try`
  (search.ts:85-96):
  - an ok response whose body is not JSON, which makes `response.json()` throw;
  - a body that is JSON `null`, where reading `payload.results` throws;
  - a `results` that is not an array, where `results.map` throws.
- The search handler's `User-Agent` header and endpoint URL are not modelled. Only the query
  parameters of the upstream call are kept.
- Upstream `trackId` is modelled as a non-negative integer. `String(n)` for fractions, negative
  numbers or very large numbers is not modelled.
- Date parsing and `toLocaleString('en-GB', …)` in apps-script/format.ts:18-24 are one
  function-valued input. It returns `None` for an invalid date.
- `new Date().toISOString()` and `DocumentApp.openById` in apps-script/index.ts:51,61 are inputs:
  the current time and the document body.
- A new paragraph's formatting is modelled as heading level 0 and not bold. Apps Script's other
  paragraph attributes are not modelled.
- In src/hooks/useSongSearch.ts, the debounce timer (`setTimeout`, `clearTimeout`, `DEBOUNCE_MS`)
  and React's state plumbing are not modelled. A search that starts is `StartLoading` followed by
  `Resolve`, and a timer cancelled by a newer query corresponds to a search that never starts.
  The search request to the site's own function is part of the outcome input.
- src/App.tsx, src/lib/googleForm.ts and the build and test configuration are not part of this
  model.
