# Stop Fake: verdict normalisation, analysis cache and extension helpers in Dafny

This project models the sequential core of the "Stop Fake" fake-news checker:

- **Backend `/analyze`** (`final11/project/backend/api/main.py`). The model's JSON reply becomes a fixed-shape verdict. Missing fields get their defaults. The confidence is re-mapped to 0.1, 0.5 or 0.9 using only `result`. A tone sentence chosen by `emotion` is appended to `reasons` unless it is already there. The endpoint strips the input text and rejects stripped text shorter than 10 characters. It answers a cached verdict before it checks the credential. It fails with 503 when no credential is configured and with 502 when scoring fails. Otherwise it caches the new verdict under the stripped text.
- **Extension helpers** (`final11/project/extension/helpers.js`). Page text comes from the first page region with text, or from the body. Its whitespace is trimmed and collapsed. Long text is shortened to a head, a `"\n...\n"` separator and a tail before it is sent.
- **Extension background script** (`final11/project/extension/background.js`). Each tab has an entry in a table: absent (reported as idle), loading, done or error. Analysis moves a tab to loading and then to done or error. `get_result` reads the table. Closing a tab deletes its entry.

Modules:

- `Wrappers` (wrappers.dfy): `Option` and `Result`.
- `Whitespace` (whitespace.dfy): Python's and JavaScript's whitespace classes, and trimming over a whitespace predicate.
- `Verdicts` (verdict.dfy): the provider reply, the decoded fields, normalisation and scoring.
- `AnalyzeApi` (analyze.dfy): the `analyze` step as a function, and a class that holds the cache and applies that step.
- `Helpers` (helpers.dfy): `summarizeForSend` and `extractPageText`.
- `Background` (background.dfy): the `resultsByTab` table, the message handler and tab removal.

I/O outcomes are parameters. The provider's reply is a `ProviderReply` value, "is the credential configured" is a constructor argument, and the backend request's result in the extension is a `FetchOutcome` value. The DOM lookups are a `query` function from selector to rendered text.

Some behaviour of the code is easy to miss:

- A reply that cannot be parsed yields 502 (bad gateway).
- The cache key is the stripped text, so texts that differ only in surrounding whitespace share one cache entry.
- The missing-confidence default of 0.5 only feeds `float(...)`; the value is then discarded.
- The credential is read once, when the process starts. Without it nothing is ever stored, so the cache stays empty and every call whose stripped text has at least 10 characters answers 503.

## Model

| member | source | states |
|---|---|---|
| `Verdicts.ToneReason` | final11/project/backend/api/main.py:128-134 | the emotional sentence iff emotion is "emotional", the factual one iff "factual", the mixed one for every other emotion |
| `Verdicts.Augment` | final11/project/backend/api/main.py:136-137 | the original reasons are a prefix of the result; the tone sentence is in it; the length grows by one exactly when the sentence was absent; the sentence then occurs exactly once |
| `Verdicts.AugmentIdempotent` | final11/project/backend/api/main.py:136-137 | augmenting twice equals augmenting once |
| `Verdicts.NormalizedConfidence` | final11/project/backend/api/main.py:139-149 | the confidence is one of 0.1, 0.5, 0.9; 0.9 iff the result is "real", 0.1 iff "fake" |
| `Verdicts.Normalize` | final11/project/backend/api/main.py:119-161 | fails with a parse error iff confidence is unconvertible or reasons/sources are invalid; otherwise result and emotion are passed through or defaulted to "uncertain"/"mixed", sources passed through or empty, confidence follows the result-only policy, reasons are the model's reasons (or none) augmented with the tone sentence that the emotion selects; the provider body is kept |
| `Verdicts.ConfidenceNumberIgnored` | final11/project/backend/api/main.py:124 | the model's own confidence number, or its absence, never changes the outcome |
| `Verdicts.Score` | final11/project/backend/api/main.py:105-161 | no response, a non-200 status, a non-JSON body, missing content or unusable content fail; success exactly when the status is 200, the content is an object and normalisation succeeds; whenever the content is an object the outcome is exactly that of normalising its fields; a success is normalised and keeps the provider body |
| `AnalyzeApi.AnalyzeStep` | final11/project/backend/api/main.py:165-194 | 400 iff the stripped text is shorter than 10; a cache hit returns the stored verdict with the cache unchanged, before the credential test; 503 iff miss without credential; a miss with credential caches and returns the scored verdict, or answers 502; every failure leaves the cache unchanged; only the stripped key can be added |
| `AnalyzeApi.StripIsFirst` | final11/project/backend/api/main.py:167-169 | a call on the raw text behaves exactly as a call on its stripped text |
| `AnalyzeApi.RepeatReturnsSameVerdict` | final11/project/backend/api/main.py:180-191 | after a successful call, a repeat with the same stripped text returns the identical verdict and leaves the cache unchanged, whatever the credential and provider now do |
| `AnalyzeApi.CacheStaysNormalized` | final11/project/backend/api/main.py:180-191 | if every cached verdict is normalised, so is every verdict the call caches or returns |
| `AnalyzeApi.NoCredentialNeverCaches` | final11/project/backend/api/main.py:180-190 | without a credential and from an empty cache, a call answers 400 or 503, answers 503 whenever the stripped text has at least 10 characters, and leaves the cache empty |
| `AnalyzeApi.AnalyzeService.constructor` | final11/project/backend/api/main.py:25-43 | the cache starts empty; the credential flag is fixed at start; the cache invariant holds |
| `AnalyzeApi.AnalyzeService.Analyze` | final11/project/backend/api/main.py:165-194 | the response and the new cache are exactly those of `AnalyzeStep` on the old cache; the invariant is kept that every cached verdict is normalised and that the cache is empty without a credential; without a credential, a text whose stripped form has at least 10 characters answers 503 |
| `Whitespace.Trim` | final11/project/backend/api/main.py:167 | the stripped text has no whitespace at either end |
| `Whitespace.TrimShape` | final11/project/backend/api/main.py:167 | the stripped text is a contiguous part of the input with only whitespace before and after it |
| `Whitespace.TrimIdempotent` | final11/project/backend/api/main.py:167 | stripping twice equals stripping once |
| `Whitespace.TrimKeepsVisible` | final11/project/extension/helpers.js:18 | trimming keeps every non-whitespace character, in order |
| `Helpers.SummarizeForSend` | final11/project/extension/helpers.js:21-27 | text within the budget is unchanged; longer text is its first ⌊0.7m⌋ characters, the separator, then its last ⌊0.2m⌋ characters, or the whole text when that is 0 (`slice(-0)`); the length follows |
| `Helpers.SummaryFitsBudget` | final11/project/extension/helpers.js:21-26 | for budgets of at least 50 a shortened text fits the budget and is strictly shorter than the input |
| `Helpers.DefaultSummaryLength` | final11/project/extension/helpers.js:21-26 | with the default 4000 a shortened text is 3605 characters |
| `Helpers.TinyBudgetGrows` | final11/project/extension/helpers.js:25 | below a budget of 5 the whole text is the tail, so the output is longer than the input |
| `Helpers.CollapseRunsCollapsed` | final11/project/extension/helpers.js:18 | after collapsing, every whitespace character is a plain space and none is next to another |
| `Helpers.CollapseRunsVisible` | final11/project/extension/helpers.js:18 | collapsing keeps every non-whitespace character, in order |
| `Helpers.CollapseRunsOfCollapsed` | final11/project/extension/helpers.js:18 | collapsing already-collapsed text changes nothing |
| `Helpers.CollapseRunsOfRun` | final11/project/extension/helpers.js:18 | a whitespace run of any length in front of text that starts visibly becomes exactly one space |
| `Helpers.CollapseRunsSplit` | final11/project/extension/helpers.js:18 | a whitespace run between text that ends visibly and text that starts visibly becomes exactly one space, and each side is collapsed on its own |
| `Helpers.CleanText` | final11/project/extension/helpers.js:18 | the cleaned text has no whitespace at either end, no two adjacent whitespace characters, only plain spaces, and the input's non-whitespace characters in order |
| `Helpers.CleanTextIdempotent` | final11/project/extension/helpers.js:18 | cleaning cleaned text changes nothing |
| `Helpers.CleanTextJoins` | final11/project/extension/helpers.js:18 | two pieces with no whitespace at their ends, joined by any whitespace run, clean to the cleaned pieces joined by exactly one space |
| `Helpers.FirstWithText` | final11/project/extension/helpers.js:6-12 | the index of the first region with non-empty text: every earlier region has none, and the region there has text |
| `Helpers.ExtractPageText` | final11/project/extension/helpers.js:2-19 | the cleaned text of the first region with text, trying the regions in the fixed selector order, else of the body's text, else of "" |
| `Background.DecimalString` | final11/project/extension/background.js:28 | a status renders as a non-empty string of decimal digits with no leading zero |
| `Background.DecimalRoundTrip` | final11/project/extension/background.js:28 | reading the rendered digits back gives the status |
| `Background.NotOkMessageIdentifiesStatus` | final11/project/extension/background.js:27-28 | two statuses with the same "Backend returned" message are the same status |
| `Background.Settle` | final11/project/extension/background.js:20-42 | never loading; done, with the response data, iff the status is OK and the body parses; a non-OK status gives "Backend returned <status>"; a thrown error gives its message |
| `Background.ReportFor` | final11/project/extension/background.js:52-55 | idle iff the tab has no entry, otherwise the tab's entry |
| `Background.RemovedTabIsIdle` | final11/project/extension/background.js:59-61 | after removal the tab reports idle; every other tab reports as before |
| `Background.TabResults.constructor` | final11/project/extension/background.js:6 | the table starts empty and nothing has been broadcast |
| `Background.TabResults.AnalyzeText` | final11/project/extension/background.js:14-43 | only the tab's entry changes, to the settled entry; loading then the settled entry are broadcast, in that order |
| `Background.TabResults.GetResult` | final11/project/extension/background.js:52-55 | answers the tab's entry or idle and changes nothing |
| `Background.TabResults.OnMessage` | final11/project/extension/background.js:45-57 | `page_text` starts an analysis and answers ok only when the sender's tab id is present and non-zero; `get_result` answers the report and changes nothing; anything else gets no answer and changes nothing |
| `Background.TabResults.OnRemoved` | final11/project/extension/background.js:59-61 | the tab's entry is deleted; nothing else changes |

## Left out

- The outbound chat-completion request, its prompt, payload and JSON schema, the HTTP client, FastAPI routing, `/health`, logging, `.env` loading and the development server: the request's outcome is the `ProviderReply` parameter.
- `json.loads` and Python's dynamic `.get`/`str`/`list`/`float`: the model takes the decoded entries (`Fields`), with conversion failures as explicit variants. A JSON `null` under `result` or `emotion` reaches the model as `Some("None")`, since that is what `str(None)` gives.
- The provider body kept as `raw_model_output` is modelled as text, not as a JSON object.
- The confidence number the model supplies is carried as a `real`; the source's float is never used, so its precision does not matter.
- The framework's own minimum-length check on the unstripped request text rejects before `analyze` runs; it is not modelled.
- The `RuntimeError` for a missing key inside `_openai_score` cannot happen, because `analyze` checks the key first; it is not modelled.
- `AnalyzeApi.AnalyzeService.Analyze`: calls are sequential. The source awaits the provider between the cache check and the store, so two concurrent first calls with the same text can both score and the later store wins; that interleaving is not modelled.
- `Helpers.SummarizeForSend`: `Math.floor(maxChars * 0.7)` and `* 0.2` are floating point; the model uses `(7 * m) / 10` and `(2 * m) / 10` on naturals. These agree at the default 4000. Negative budgets are not modelled, and strings are character sequences rather than UTF-16 code units.
- `Helpers.ExtractPageText`: `document.querySelector` and `innerText` are the `query` and `body` parameters.
- `Background.TabResults.AnalyzeText`: reading the backend URL from extension storage, `fetch` itself and `chrome.runtime.sendMessage` are not modelled. The request's outcome is the `FetchOutcome` parameter, and the broadcasts are a log. An analysis runs to completion before the next event, so events that interleave at its awaits are not modelled. Tab ids are integers, whereas the source's object keys are their string forms.
- The popup, options page and content script of the extension, the Telegram bot and the older scraper backend are not part of this model: they are DOM rendering, settings storage, timers and network relays.
