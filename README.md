# Datagen SDK client and signup-enrichment dashboard, in Dafny

This project models two pieces of the Datagen Python SDK repository and proves
properties of them.

- **`DatagenClient`** (`datagen_sdk/client.py`). The constructor settles on an
  API key, normalises the base URL and stores the retry configuration.
  `execute_tool` posts one request per attempt and classifies the response:
  - 401/403 is an authentication error;
  - any other status of 400 or more is an HTTP error;
  - a rejected outer envelope is an HTTP error;
  - a failed inner tool envelope is a tool error;
  - otherwise it returns the result.

  Network and HTTP errors are retried with an exponential backoff until the
  budget of `retries + 1` attempts is spent.

  The client is a Dafny class whose fields are set once by the constructor.
  `ExecuteTool` is a method with the source's attempt loop, and it is proved
  equal to the specification function `Client.Execute`. The HTTP transport is
  a parameter: a function from the request and the attempt index to what that
  attempt yields, the way a queue of mocked responses behaves. Sleeps are not
  performed; each run returns the delays it slept. A negative delay makes
  `time.sleep` raise `ValueError`, and that refused length is not recorded.

- **The signup-enrichment dashboard**
  (`projects/datagendev/signup-enrichment/streamlit_app.py`):
  - the `.env` loader, a loop over the lines that writes into the environment;
  - the draft query `load_email_draft` chooses;
  - the draft file names it tries;
  - how it cuts the subject and the body out of a markdown draft;
  - the quote escaping `save_email_draft` applies before splicing JSON into SQL;
  - the priority badge, the contact display name and the enrichment status,
    with the metric counts beside them.

Python's string operations are modelled with CPython's meaning in module
`Text`: `strip` (the `isspace` set), `find` returning -1, slices with negative
and out-of-range bounds, `split(c)[0]`, `lower` and `str(int)`.

Modules:
- `Wrappers`: `Option`, `Result`, and reading a missing string as `''`.
- `JsonValue`: decoded JSON, Python truthiness, `dict.get`.
- `Text`: the string operations above.
- `Client`: the client model.
- `ClientProperties`: the lemmas about `Client`.
- `DotEnv`: the `.env` loader.
- `EmailDrafts`: draft queries, file names, parsing and escaping.
- `Dashboard`: badge, names, status and counts.

Behaviours of `datagen_sdk/client.py` that the model keeps as the code has
them:
- **Exhausted network failures.** The bare `raise` (line 78) re-raises the
  last attempt's own exception. A network failure therefore reaches the
  caller as a `RequestException`, although the docstring of
  `DatagenHttpError` (line 21) lists network errors among the HTTP errors.
- **What is retried.** The handler (line 73) catches `RequestException` and
  `DatagenHttpError`. So every status of 400 or more other than 401/403
  (lines 61-62) is retried, and so is a falsy or absent outer `success`
  (lines 65-66), not only transient statuses.
- **Malformed bodies.** A body `resp.json()` cannot decode (line 64) is
  retried as a `RequestException`.
- **A missing `data` key.** An accepted envelope without `data` reads `data`
  as `{}` (line 68), which gives a tool failure (lines 69-70) that is not
  retried.
- **Non-dict bodies.** A decoded body that is not a dict makes `.get`
  (line 65) raise `AttributeError`, which no handler catches.

The dashboard's enrichment metrics (lines 539-541 of `streamlit_app.py`) read
the `Enrichment Status` column, which an empty CRM table lacks; the model
returns no metrics there, and "## Findings" records it.

## Model

| member | source | states |
|---|---|---|
| JsonValue.Truthy | datagen_sdk/client.py:65-70 | Python truthiness of a decoded value. Its meaning is stated by `JsonValue.FalsyValues`. |
| JsonValue.FalsyValues | datagen_sdk/client.py:65-70 | A decoded value is falsy if and only if it is `None`, `False`, `0`, `""`, `[]` or `{}`. |
| JsonValue.Get | datagen_sdk/client.py:65-71 | `dict.get(key, default)`. Its meaning in the client is stated by `ClientProperties.ClassifyReturns`, `ToolFailureDetail` and `MissingDataIsToolFailure`. |
| Wrappers.OrEmpty | projects/datagendev/signup-enrichment/streamlit_app.py:252 | `x or ''` for a missing string (also lines 111-112 and 283-284). Its effect on the name is stated by `Dashboard.FullNameOfFirstOnly` and `Dashboard.FullNameOfLastOnly`. |
| Client.ResolveApiKey | datagen_sdk/client.py:33-35 | A non-empty explicit key wins. Otherwise the key is the environment's `DATAGEN_API_KEY` exactly when that is present and non-empty. Otherwise the result is `DatagenAuthError` with the fixed message. A key found is never empty. |
| Client.StripTrailingSlashes | datagen_sdk/client.py:36 | The result is a prefix of the URL that does not end in `/`, and everything removed was `/`. |
| ClientProperties.StripTrailingSlashesIdempotent | datagen_sdk/client.py:36 | Normalising a normalised URL changes nothing. |
| ClientProperties.StripTrailingSlashesRemovesRun | datagen_sdk/client.py:36 | Any number of trailing slashes go, and nothing else does. |
| Client.DatagenClient.constructor | datagen_sdk/client.py:36-39 | Given a found key, the client holds it, the normalised base URL, and the timeout, retries and backoff unchanged. |
| Client.NewClient | datagen_sdk/client.py:25-39 | Construction fails with `DatagenAuthError` exactly when no key is found. Otherwise the new client's configuration is the resolved key, the normalised URL and the given settings. |
| Client.NewDefaultClient | datagen_sdk/client.py:25-39 | With every argument but the key left at its default, the client holds `http://localhost:3001`, timeout 30, no retries and backoff 0.5, as tests/test_client.py lines 16-23 expect. It fails exactly when no key is found, and then with `DatagenAuthError` and the fixed "API key missing" message (tests/test_client.py lines 31-35). |
| Client.BuildRequest | datagen_sdk/client.py:45-54 | The request `execute_tool` posts. Its meaning is stated by `ClientProperties.ParametersDefaultToEmpty` and `ClientProperties.ParametersSentAsGiven`. |
| Client.Classify | datagen_sdk/client.py:58-72 | How one attempt ends. Its meaning is stated by `ClientProperties.ClassifyAuth`, `ClassifyStatus`, `ClassifyUnexpected`, `ClassifyRetryable` and `ClassifyReturns`. |
| Client.Retryable | datagen_sdk/client.py:73 | The exceptions the handler catches: `RequestException` and `DatagenHttpError`. Which attempts produce them is stated by `ClientProperties.ClassifyRetryable`. |
| Client.Step | datagen_sdk/client.py:58-72 | One post and its classification. Its outcome is stated by the `ClientProperties.Classify…` lemmas, and its place in the loop by `ClientProperties.RunFromShape`. |
| Client.Unwrap | datagen_sdk/client.py:64-72 | Reading a decoded body of a response below 400. Its meaning is stated by `ClientProperties.ToolFailureDetail`, `MissingDataIsToolFailure`, `NonObjectPayloadEscapes` and `ClassifyReturns`. |
| Client.RunFrom | datagen_sdk/client.py:55-78 | The attempt loop from attempt `k` on. Its meaning is stated by `ClientProperties.RunFromShape`. |
| Client.Delay | datagen_sdk/client.py:76 | The sleep after attempt `k`, `backoff_seconds * 2**k`. Its meaning is stated by `ClientProperties.DelaySign` and `ClientProperties.DelayDoubles`. |
| Client.Execute | datagen_sdk/client.py:41-81 | The whole call. Its meaning is stated by `ClientProperties.ExecuteIffConforms` and `AttemptBudget`, and `DatagenClient.ExecuteTool` is proved equal to it. |
| Client.DatagenClient.ExecuteTool | datagen_sdk/client.py:41-81 | The loop's outcome, request count and sleeps equal `Execute` of the client's configuration. The invariant ties the loop to `RunFrom`. The fallback after the loop is shown to be reached only when no attempt ran. |
| ClientProperties.ClassifyAuth | datagen_sdk/client.py:59-60 | An attempt gives `DatagenAuthError` if and only if it is a 401 or 403 response, and then the message carries the response text. |
| ClientProperties.ClassifyStatus | datagen_sdk/client.py:61-62 | An attempt gives an HTTP status error if and only if its status is at least 400 and not 401/403, and the error carries that status and text. |
| ClientProperties.ClassifyUnexpected | datagen_sdk/client.py:65-66 | An attempt gives `DatagenHttpError` for an unexpected response if and only if it is a decoded dict below 400 whose outer `success` is absent or falsy, and the error carries the whole payload. |
| ClientProperties.ClassifyRetryable | datagen_sdk/client.py:58-73 | Exactly these attempts are retryable: network failures, statuses of 400 or more other than 401/403, undecodable bodies, and dicts whose outer `success` is falsy or absent. |
| ClientProperties.ClassifyReturns | datagen_sdk/client.py:64-72 | An attempt returns if and only if both envelopes report success. It then returns the inner `result`, or `None` when that is absent. |
| ClientProperties.ToolFailureDetail | datagen_sdk/client.py:68-70 | A failed inner envelope raises `DatagenToolError` with the inner `error` when it is truthy, else with "Tool reported failure". |
| ClientProperties.MissingDataIsToolFailure | datagen_sdk/client.py:68-70 | An accepted envelope without `data` is a tool failure, and so it is not retried. |
| ClientProperties.NonObjectPayloadEscapes | datagen_sdk/client.py:64-65 | A decoded body that is not a dict raises `AttributeError`, which is not retried. |
| ClientProperties.DelaySign | datagen_sdk/client.py:76 | Every sleep has the sign of the backoff. |
| ClientProperties.DelayDoubles | datagen_sdk/client.py:76 | The first sleep is the backoff, and each later one is twice the one before. |
| ClientProperties.RunFromShape | datagen_sdk/client.py:56-78 | From attempt `k` on, every attempt but the last failed retryably. The outcome is the last attempt's, and the loop stops early only on a non-retryable outcome. There is one sleep per retry, `b·2^j` after attempt `j`. There are at most `retries + 1 - k` attempts. |
| ClientProperties.ConformsUnique | datagen_sdk/client.py:56-78 | At most one run meets the loop's characterisation. |
| ClientProperties.ExecuteIffConforms | datagen_sdk/client.py:41-81 | With a name, a non-negative budget and a non-negative backoff, a run is the one `execute_tool` performs if and only if it meets the characterisation (both directions). |
| ClientProperties.AttemptBudget | datagen_sdk/client.py:42-56 | A call never sends more than `retries + 1` requests. It sends none exactly when the name is empty or the budget is negative. It sleeps once less than it sends, with delays `b·2^i`. |
| ClientProperties.EmptyNameRaisesFirst | datagen_sdk/client.py:42-43 | An empty tool name raises `ValueError` before any request. |
| ClientProperties.NegativeRetriesRunNothing | datagen_sdk/client.py:79-81 | A negative budget runs no attempt and raises the base `DatagenError`. |
| ClientProperties.ParametersDefaultToEmpty | datagen_sdk/client.py:45-49 | Missing and empty parameters send the same request. Its body holds the name and `{}`, and its URL is the base URL plus `/api/tools/execute`. |
| ClientProperties.ParametersSentAsGiven | datagen_sdk/client.py:45-54 | Non-empty parameters are sent unchanged with the name, to the base URL plus `/api/tools/execute`, with `X-API-Key` set to the client's key, `Content-Type` set to `application/json` (as tests/test_client.py lines 84-85 expect), and the client's timeout. |
| ClientProperties.RetryableEscapesOnlyWhenExhausted | datagen_sdk/client.py:73-78 | A network or HTTP error reaches the caller only after `retries + 1` requests. |
| ClientProperties.StopsAtFirstNonRetryable | datagen_sdk/client.py:56-78 | After `n ≤ retries` retryable failures (with a non-negative backoff when `n > 0`) and then any other outcome, the call ends with that outcome, `n + 1` requests and the first `n` backoffs. |
| ClientProperties.ExhaustedRaisesLast | datagen_sdk/client.py:73-78 | With a non-negative budget (and a non-negative backoff when `retries > 0`), when every attempt fails retryably, the last attempt's error is raised after `retries + 1` requests and `retries` sleeps. |
| ClientProperties.AuthErrorNotRetried | datagen_sdk/client.py:59-60 | If the first response is 401 or 403, the call raises `DatagenAuthError` after one request, whatever the budget. |
| ClientProperties.ToolErrorNotRetried | datagen_sdk/client.py:69-70 | If the first attempt is a tool failure, the call raises `DatagenToolError` after one request, whatever the budget. |
| ClientProperties.NegativeBackoffStopsAtFirstRetry | datagen_sdk/client.py:75-76 | With a negative backoff, the first retry's sleep raises `ValueError` after one request. |
| ClientProperties.TwoFailuresThenSuccess | tests/test_client.py:185-214 | Two 500s then a success, with budget 2 and backoff 0.01: three requests, sleeps 0.01 and 0.02, and `{"status": "ok"}` returned. |
| ClientProperties.RetriesExhausted | tests/test_client.py:217-232 | Four 500s with budget 3 and a non-negative backoff: four requests, and `DatagenHttpError` for HTTP 500 raised. |
| DotEnv.ParseLine | projects/datagendev/signup-enrichment/streamlit_app.py:16-21 | What one line contributes. Its meaning is stated by `DotEnv.ParseLineMeaning` and `DotEnv.ParseWrittenLine`. |
| DotEnv.LoadAll | projects/datagendev/signup-enrichment/streamlit_app.py:15-22 | The environment after the lines, first to last. Its meaning is stated by `DotEnv.LoadedValue` and `DotEnv.LaterLineWins`, and `DotEnv.LoadDotEnv` is proved equal to it. |
| DotEnv.Apply | projects/datagendev/signup-enrichment/streamlit_app.py:16-22 | What one line does to the environment. Its meaning is stated by `DotEnv.ApplyEntry` and `DotEnv.ParseLineMeaning`. |
| DotEnv.Quoted | projects/datagendev/signup-enrichment/streamlit_app.py:19-20 | The test that a value starts and ends with the quote. Its effect is stated by the ensures of `DotEnv.Unquote`. |
| DotEnv.Unquote | projects/datagendev/signup-enrichment/streamlit_app.py:19-21 | A value that starts and ends with the same quote kind loses exactly its first and last character (a lone quote gives `""`). Any other value is kept verbatim. |
| DotEnv.ParseLineMeaning | projects/datagendev/signup-enrichment/streamlit_app.py:16-21 | A line is skipped if and only if it is blank, a comment after stripping, or has no `=`. Otherwise the stripped line is `key=rest` with no `=` in the key, and the value is `rest` unquoted. |
| DotEnv.ParseWrittenLine | projects/datagendev/signup-enrichment/streamlit_app.py:16-21 | A line written as `key=value` (a key with no `=` that is neither padded nor a comment, a value not padded at the end) parses back to that key and the unquoted value. |
| DotEnv.LoadDotEnv | projects/datagendev/signup-enrichment/streamlit_app.py:13-22 | The loop leaves the environment that folding the lines in order gives. |
| DotEnv.LoadAllSnoc | projects/datagendev/signup-enrichment/streamlit_app.py:15-22 | Loading one more line applies that line to the environment loaded so far. |
| DotEnv.LoadedValue | projects/datagendev/signup-enrichment/streamlit_app.py:15-22 | After loading, a key holds the value of the last line that sets it. A key no line sets is present and valued as before. |
| DotEnv.ApplyEntry | projects/datagendev/signup-enrichment/streamlit_app.py:22 | A `key=value` line sets that key to that value and leaves every other key alone. |
| DotEnv.LaterLineWins | projects/datagendev/signup-enrichment/streamlit_app.py:22 | Of two lines for one key, the second's value is the one left. |
| DotEnv.DotEnvSuppliesApiKey | projects/datagendev/signup-enrichment/streamlit_app.py:22 | A non-empty `DATAGEN_API_KEY` set by the file is the key a client built with no explicit key resolves to. |
| EmailDrafts.IdGiven | projects/datagendev/signup-enrichment/streamlit_app.py:119-122 | The truthiness test on `contact_id`. Its effect is stated by the ensures of `EmailDrafts.DraftQuery`. |
| EmailDrafts.EmailGiven | projects/datagendev/signup-enrichment/streamlit_app.py:155 | The truthiness test on `email` (also line 119). Its effect is stated by the ensures of `EmailDrafts.DraftQuery` and `EmailDrafts.DraftFilenames`. |
| EmailDrafts.DraftQuery | projects/datagendev/signup-enrichment/streamlit_app.py:119-125 | No query exactly when neither a truthy id nor a non-empty email is given. A truthy id queries by id in decimal, and otherwise the query is by email, spliced as written. |
| EmailDrafts.UnescapedEmailBreaksLiteral | projects/datagendev/signup-enrichment/streamlit_app.py:125 | The query as written for `o'brien@example.com` holds a literal with an unpaired quote. |
| EmailDrafts.DraftQueryEscaped | projects/datagendev/signup-enrichment/streamlit_app.py:119-125 | Same choice, but the email literal is well escaped and reads back as the email. |
| EmailDrafts.EscapeQuotes | projects/datagendev/signup-enrichment/streamlit_app.py:211 | Every `'` doubled. Its meaning is stated by `EmailDrafts.EscapeWellEscaped`, `CollapseEscape` and `EscapeCollapse`. |
| EmailDrafts.EscapeWellEscaped | projects/datagendev/signup-enrichment/streamlit_app.py:211 | Escaping leaves no unpaired single quote. |
| EmailDrafts.CollapseEscape | projects/datagendev/signup-enrichment/streamlit_app.py:211 | Collapsing doubled quotes after escaping recovers the original. |
| EmailDrafts.EscapeCollapse | projects/datagendev/signup-enrichment/streamlit_app.py:211 | A well-escaped string is the escaping of what it collapses to, so escaping is a bijection onto well-escaped strings. |
| EmailDrafts.DraftFilenames | projects/datagendev/signup-enrichment/streamlit_app.py:149-156 | In order: `lower(first)_lower(last).md` then `first_last.md` when both stripped names are non-empty, then `<text before @>.md` when an email is given. Nothing else is listed. |
| EmailDrafts.AfterMarker | projects/datagendev/signup-enrichment/streamlit_app.py:171 | `find(marker) + len(marker)` (also line 177): the index just past the first occurrence, within the content. |
| EmailDrafts.ExtractSubject | projects/datagendev/signup-enrichment/streamlit_app.py:170-173 | The subject as written. Its meaning is stated by `EmailDrafts.SubjectIsRestOfLine` and `SubjectWithoutNewlineDropsLastChar`. |
| EmailDrafts.ExtractSubjectToLineEnd | projects/datagendev/signup-enrichment/streamlit_app.py:170-173 | The subject as evidently intended, up to the newline or the end of the content. Its meaning is stated by `EmailDrafts.SubjectReadingsAgree` and `SubjectWithoutNewlineKeepsRest`. |
| EmailDrafts.SubjectIsRestOfLine | projects/datagendev/signup-enrichment/streamlit_app.py:170-173 | With a newline after the marker, the subject is the stripped text from after the first marker to that newline, and it holds no newline. |
| EmailDrafts.SubjectReadingsAgree | projects/datagendev/signup-enrichment/streamlit_app.py:170-173 | With a newline after the marker, the code as written and the corrected reading agree. |
| EmailDrafts.SubjectWithoutNewlineDropsLastChar | projects/datagendev/signup-enrichment/streamlit_app.py:172-173 | Without a following newline, the subject as written is the stripped rest of the content minus its last character. |
| EmailDrafts.SubjectWithoutNewlineKeepsRest | projects/datagendev/signup-enrichment/streamlit_app.py:170-173 | Without a following newline, the corrected subject is the stripped rest of the content. |
| EmailDrafts.TrailingSubjectLine | projects/datagendev/signup-enrichment/streamlit_app.py:170-172 | In `**Subject:** w` with no newline in `w`, the marker is found, the subject starts at 12, and no newline follows. |
| EmailDrafts.SubjectLineAtEnd | projects/datagendev/signup-enrichment/streamlit_app.py:170-173 | For content that is exactly `**Subject:** w`, with `w` non-empty, unpadded and without a newline, the code as written gives a subject shorter than `w`, while the corrected reading gives `w`. |
| EmailDrafts.SubjectDropsLastCharExample | projects/datagendev/signup-enrichment/streamlit_app.py:170-173 | `**Subject:** Hi` gives `H` as written and `Hi` corrected. |
| EmailDrafts.BodyEnd | projects/datagendev/signup-enrichment/streamlit_app.py:179-183 | The end of the body lies between its start and the end of the content. |
| EmailDrafts.ExtractBody | projects/datagendev/signup-enrichment/streamlit_app.py:176-185 | The body as written. Its meaning is stated by `EmailDrafts.BodySection` and `AbsentMarkers`. |
| EmailDrafts.BodySection | projects/datagendev/signup-enrichment/streamlit_app.py:176-185 | The body is the stripped text from after the marker to its end. The end is the first `\n---` after the start, else the first `\n##`, else the end of the content. The text kept holds no `\n---`. |
| EmailDrafts.AbsentMarkers | projects/datagendev/signup-enrichment/streamlit_app.py:170-185 | Without its marker, the subject or body is `""`. |
| Dashboard.Badge | projects/datagendev/signup-enrichment/streamlit_app.py:255 | The mark is 🔥 if and only if the score is ≥ 90, ⭐ if and only if 75 ≤ score < 90, and ✓ if and only if the score is < 75. The mark is followed by a space and the score in decimal. |
| Dashboard.CountAtLeast | projects/datagendev/signup-enrichment/streamlit_app.py:396-399 | A metric never counts more rows than the table has. |
| Dashboard.CountAtLeastAntitone | projects/datagendev/signup-enrichment/streamlit_app.py:396-399 | A higher threshold never counts more rows. |
| Dashboard.HotLeadsWithinHighPriority | projects/datagendev/signup-enrichment/streamlit_app.py:396-399 | The 90+ metric never exceeds the 75+ metric. |
| Dashboard.MetricsMatchBadges | projects/datagendev/signup-enrichment/streamlit_app.py:255-399 | The 🔥 rows are the 90+ rows, the 🔥 and ⭐ rows together are the 75+ rows, and the three marks split the table. |
| Dashboard.FullName | projects/datagendev/signup-enrichment/streamlit_app.py:252 | The stripped name. Its meaning is stated by `Dashboard.FullNameOfBothNames`, `FullNameOfFirstOnly` and `FullNameOfLastOnly`. |
| Dashboard.DisplayName | projects/datagendev/signup-enrichment/streamlit_app.py:251-254 | One rule for the table (line 252) and the selected contact (line 285). The name is missing (`AttributeError` on `None.split`) if and only if the names are blank and the email cell is missing. A non-empty full name is the name; otherwise the name is the email's text before the first `@`, holding no `@`. |
| Dashboard.FullNameOfBothNames | projects/datagendev/signup-enrichment/streamlit_app.py:252 | With both names non-blank, the name is the first name without leading whitespace, a space, and the last name without trailing whitespace. |
| Dashboard.FullNameOfFirstOnly | projects/datagendev/signup-enrichment/streamlit_app.py:252 | With the last name missing or blank, the full name is the first name stripped. |
| Dashboard.FullNameOfLastOnly | projects/datagendev/signup-enrichment/streamlit_app.py:252 | With only a last name, the full name is that name stripped. |
| Dashboard.BlankNamesShowEmail | projects/datagendev/signup-enrichment/streamlit_app.py:252 | With missing or blank names, the email's local part is shown. |
| Dashboard.EnrichmentStatus | projects/datagendev/signup-enrichment/streamlit_app.py:53 | The status is "Enriched" if and only if a company or a title is present, and "Not Enriched" if and only if both are missing. |
| Dashboard.CountStatus | projects/datagendev/signup-enrichment/streamlit_app.py:540-541 | `value_counts().get(status, 0)`: never more than the number of records. Its meaning is stated by `Dashboard.StatusCountsPartition` and `Dashboard.CountedMetrics`. |
| Dashboard.StatusCountsPartition | projects/datagendev/signup-enrichment/streamlit_app.py:539-541 | The enriched and not-enriched counts add up to the total. |
| Dashboard.EnrichmentMetrics | projects/datagendev/signup-enrichment/streamlit_app.py:539-541 | The metrics as the dashboard reads them: there are none (`KeyError`) if and only if the CRM table is empty, and otherwise they are the counted metrics. |
| Dashboard.CountedMetrics | projects/datagendev/signup-enrichment/streamlit_app.py:539-541 | The total is the number of records, and the enriched and not-enriched counts add up to it. |
| Dashboard.EmptyCrmHasNoMetrics | projects/datagendev/signup-enrichment/streamlit_app.py:46-47 | An empty CRM table gives no metrics as written, where the counted metrics are all zero. |
| Text.IsSpace | projects/datagendev/signup-enrichment/streamlit_app.py:16 | The characters `str.strip()` removes. Its meaning for a whole string is stated by `Text.StripEmptyIffBlank`. |
| Text.Strip | projects/datagendev/signup-enrichment/streamlit_app.py:16 | The stripped string is no longer than the input and, when non-empty, neither starts nor ends with whitespace. `Text.StripLeftShape` and `Text.StripRightShape` show that only whitespace is removed. |
| Text.StripEmptyIffBlank | projects/datagendev/signup-enrichment/streamlit_app.py:16-17 | A string strips to `""` if and only if it is all whitespace. |
| Text.Find | projects/datagendev/signup-enrichment/streamlit_app.py:171-172 | `find` gives the first match at or after the start, or -1 exactly when there is none. |
| Text.Contains | projects/datagendev/signup-enrichment/streamlit_app.py:170 | `pat in s` (also line 176). Its meaning is stated by `Text.ContainsIffOccurs`. |
| Text.ContainsIffOccurs | projects/datagendev/signup-enrichment/streamlit_app.py:170 | Substring membership holds if and only if the pattern occurs at some index. |
| Text.Slice | projects/datagendev/signup-enrichment/streamlit_app.py:173 | Python's `s[i:j]` with negative and out-of-range bounds. Its meaning at the subject's end is stated by `EmailDrafts.SubjectWithoutNewlineDropsLastChar`. |
| Text.BeforeFirst | projects/datagendev/signup-enrichment/streamlit_app.py:18 | `split(c)[0]`: a prefix of the string that holds no `c`, followed in the string by `c` when it is shorter than the string. |
| Text.BeforeFirstAt | projects/datagendev/signup-enrichment/streamlit_app.py:18 | Splitting `x + c + y` at `c`, with no `c` in `x`, gives `x`. |
| Text.Lower | projects/datagendev/signup-enrichment/streamlit_app.py:152 | `lower()` keeps the length and maps each character through `LowerChar`. |
| Text.NatToDecimal | projects/datagendev/signup-enrichment/streamlit_app.py:255 | `str(n)` of a natural: non-empty, all digits, and a leading `0` only for `n == 0`. |
| Text.IntToDecimal | projects/datagendev/signup-enrichment/streamlit_app.py:255 | `str(n)` in an f-string. Its meaning is stated by `Text.IntToDecimalRoundTrip` and the ensures of `Text.NatToDecimal`. |
| Text.NatToDecimalRoundTrip | projects/datagendev/signup-enrichment/streamlit_app.py:255 | `str(n)` of a natural is all digits and reads back as `n`; with the leading-zero clause of `Text.NatToDecimal` this fixes the text. |
| Text.IntToDecimalRoundTrip | projects/datagendev/signup-enrichment/streamlit_app.py:123 | `str(n)` starts with `-` if and only if `n` is negative. The rest is all digits, reads back as the magnitude of `n`, and starts with `0` only for `n == 0`. |

## Left out

- The network: `requests.post` is the transport parameter. Its timeout is recorded in the request but not enforced.
- `time.sleep`: the delays slept are returned, not slept. A refused negative length is not recorded, only the `ValueError` it raises.
- Floating-point numbers: the backoff is a Dafny `real`, so `b·2^k` is exact, and JSON numbers are integers.
- `resp.json()`: it is the `Body` part of an attempt. An undecodable body counts as a `RequestException`, as in the `requests` releases that raise `requests.exceptions.JSONDecodeError`.
- The exception messages of `DatagenHttpError`: the model keeps the status and text, or the unexpected payload, instead of the formatted text. The Python `repr` of the payload is not rendered.
- The unreachable line after the loop: every path that sets `last_exc` either retries or raises, so `if last_exc: raise last_exc` never fires. `ExecuteTool` asserts this rather than modelling that line.
- The validity of environment variable names and values that `os.environ` enforces.
- Reading `.env` from disk and the `FileNotFoundError` warning: the loader takes the file's lines.
- pandas semantics: a missing cell is `None`, NaN and float ids are not modelled, and scores are integers.
- The `''` default of `row.get('email', '')` at line 252: it applies only when the table has no `email` column, and the query at line 71 always selects it, so the model reads a missing email cell as `None` on both lines.
- Strings: `lower()` covers ASCII letters only. There is no Unicode case mapping.
- The Streamlit UI: widgets, dialogs, session state and the SQL the other tools run.
- The average-score metric (line 402): it is a floating-point mean.
- The database half of `load_email_draft`: what `execute_tool` returns for the query. Only the query choice is modelled.
- The file-system probing of `load_email_draft`: only the candidate list and the parsing of a file's content are modelled.
- `save_email_draft`: only its quote escaping is modelled, not the JSON serialisation, the timestamp or the update query.
- The example scripts, `datagen_sdk/__init__.py` and the tests: they are callers and context. The retry tests appear as the two scenario lemmas.
- EmailDrafts.DraftFilenames: states the list element by element, and not separately that every name ends in `.md`. `MarkdownFile` states that on its own.

## Findings

| source | as written | input that shows it | evidently intended | confidence | as-written member | corrected member |
|---|---|---|---|---|---|---|
| projects/datagendev/signup-enrichment/streamlit_app.py:172-173 | the subject ends at `find("\n", start)`, which is -1 when the subject line is the last line, so the slice drops the last character | a draft whose content is `**Subject:** Hi` gives the subject `H` | the subject runs to the end of the content when no newline follows | not executed | EmailDrafts.SubjectDropsLastCharExample | EmailDrafts.ExtractSubjectToLineEnd |
| projects/datagendev/signup-enrichment/streamlit_app.py:125 | the email is spliced into the SQL literal unescaped | the email `o'brien@example.com` ends the literal after `o` | the email escaped as `save_email_draft` escapes its JSON (line 211), so the literal reads back as the email | not executed | EmailDrafts.UnescapedEmailBreaksLiteral | EmailDrafts.DraftQueryEscaped |
| projects/datagendev/signup-enrichment/streamlit_app.py:540-541 | an empty CRM table (`get_crm_data` returns `pd.DataFrame()` at lines 46-47 and 57-59) has no `Enrichment Status` column, so reading it raises `KeyError` | a CRM query that returns no rows | the enriched and not-enriched metrics read 0 | not executed | Dashboard.EnrichmentMetrics | Dashboard.CountedMetrics |

