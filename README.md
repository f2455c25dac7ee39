# ChickenShield — a Dafny model of its decision logic

ChickenShield is a browser extension that scrapes a web page or an open
webmail message. It asks a language model for a phishing/scam risk report and
shows the verdict in a popup and a standalone dashboard. A small Flask service
turns a report into features for a trained model. This project models the
deterministic logic under that glue:

- `dashboard.dfy` (module `DashboardApp`, from `App.jsx`). A `Dashboard` class
  holds the shown report, the history list and the kid/pro switch. It has the
  `addToHistory` rule: reject a duplicate timestamp, otherwise prepend and cap
  at ten. It also has the load-time seeding from local storage and the `data`
  query parameter, the risk colour bands and the explanation choice.
- `background.dfy` (module `BackgroundWorker`, from `background.js`). This
  covers the prompt-body cut and the success/fallback result of the model call.
  It covers the provenance merge and the badge mapping. A `Worker` class holds
  the single last-result slot, its stored copy and the badge.
- `content.dfy` (module `ContentScript`, from `content.js`). This covers the
  page-text cut, the website scan and the webmail host test. It covers the
  e-mail extraction and the start-up guard. `WatchMail` is the `lastUrl`
  change filter, run as a loop over the addresses seen at each settled
  mutation batch.
- `popup.dfy` (module `PopupView`, from `popup.js`). A `Popup` class holds the
  fields that `updateUI` writes. `FillList` builds an indicator list in a
  loop, and `DashboardUrl` gives the dashboard link.
- `ml_service.dfy` (module `MlService`, from `app.py`). This is
  `preprocess_input` as a function from a report to five features or an
  error, and `predict` with its two error paths.
- `reports.dfy`, `text.dfy` and `wrappers.dfy` hold shared definitions. These
  are the report record (every field optional, since any may be missing from a
  model reply, and a separate `null` case where the code treats a JSON `null`
  differently from a missing key) and the indicator labels shown by both the popup and the
  dashboard. They also hold the JavaScript string operations the code relies
  on: `substring(0, n)`, `includes` and a replace of the first occurrence only.

JavaScript truthiness is written out. A string field counts as set only when
it is present and non-empty. A report is an error report only when `error` is
`true`. Timestamps compare with `===`, so two reports without a timestamp
count as duplicates (`undefined === undefined`), as do two with a `null` one,
while a `null` timestamp and a missing one differ.

The capped, de-duplicated history exists only in the dashboard's local
storage; the background worker keeps just the single last-result slot.
Nothing keeps `risk_score` within 0-100. An e-mail's sender is "Unknown" only
when the sender element is missing; an element with empty text and no
`email` attribute gives an empty name and address.

## Model

| member | source | states |
|---|---|---|
| `DashboardApp.AppendHistory` | ChickenShield-Dashboard/src/App.jsx:52-61 | a report whose timestamp is already in the history leaves it unchanged; otherwise the report becomes element 0, the length is at most 10, and elements 1.. are the old list's first min(n, 9) entries in order (oldest evicted first) |
| `DashboardApp.AppendHistoryIdempotent` | ChickenShield-Dashboard/src/App.jsx:55 | appending a report with the same timestamp a second time changes nothing |
| `DashboardApp.SameTimestampKeepsFirst` | ChickenShield-Dashboard/src/App.jsx:55-57 | of two scans with the same timestamp, only the first is kept at the head of the history |
| `DashboardApp.AppendAllBounded` | ChickenShield-Dashboard/src/App.jsx:57 | from a history of at most 10 entries, any number of appends keeps it at most 10 |
| `DashboardApp.AppendHistoryKeepsDistinct` | ChickenShield-Dashboard/src/App.jsx:55-57 | a history with pairwise distinct timestamps keeps them distinct after an append |
| `DashboardApp.GetRiskColors` | ChickenShield-Dashboard/src/App.jsx:91-95 | every integer gets exactly one band: teal iff score < 40, yellow iff 40 <= score < 70, red iff score >= 70 |
| `DashboardApp.RiskColorsMonotone` | ChickenShield-Dashboard/src/App.jsx:91-95 | a higher score never gets a milder band |
| `DashboardApp.ReportColors` | ChickenShield-Dashboard/src/App.jsx:241 | a report without a score is shown red (both comparisons with undefined are false); a `null` score compares as 0 and is shown teal; otherwise its score's band |
| `DashboardApp.KidRisk` | ChickenShield-Dashboard/src/App.jsx:101 | the kid-mode fallback says "Safe" exactly when the verdict is "safe", and "Dangerous" for every other verdict, including a missing one |
| `DashboardApp.GetExplanation` | ChickenShield-Dashboard/src/App.jsx:97-105 | no report gives ""; kid mode gives a non-empty `explanation_simple`, else the verdict-based fallback; pro mode gives a non-empty `explanation_technical`, else `explanation` |
| `DashboardApp.ExplanationModesIndependent` | ChickenShield-Dashboard/src/App.jsx:97-105 | kid mode does not depend on the technical texts, and depends on the verdict only through whether it is "safe"; pro mode does not depend on the simple text or the verdict |
| `DashboardApp.Dashboard.constructor` | ChickenShield-Dashboard/src/App.jsx:25-27 | the component starts with no report, an empty history and pro mode |
| `DashboardApp.Dashboard.AddToHistory` | ChickenShield-Dashboard/src/App.jsx:52-61 | the history becomes `AppendHistory` of the old one; storage receives the new list only when the report was prepended; report and mode are unchanged |
| `DashboardApp.Dashboard.Load` | ChickenShield-Dashboard/src/App.jsx:30-50 | a stored history replaces the in-memory one; a parsed `data` parameter becomes the report and goes through `addToHistory` after that, so storage is rewritten with the new list exactly when the report's timestamp was not already in the loaded history; an unparsable or absent one leaves the report and storage untouched and the history as loaded |
| `DashboardApp.Dashboard.ToggleMode` | ChickenShield-Dashboard/src/App.jsx:127 | the kid/pro button flips the mode |
| `DashboardApp.Dashboard.SelectHistoryItem` | ChickenShield-Dashboard/src/App.jsx:208 | clicking history entry i shows that entry |
| `DashboardApp.Dashboard.Explanation` | ChickenShield-Dashboard/src/App.jsx:252-278 | the panel, rendered only while a report is shown, gives in kid mode a non-empty `explanation_simple`, else the verdict-based fallback, and in pro mode a non-empty `explanation_technical`, else `explanation` |
| `DashboardApp.LoadScenario` | ChickenShield-Dashboard/src/App.jsx:41-45 | loading with a parsed report whose timestamp is new shows it and adds exactly one history entry |
| `Reports.IndicatorLabelsShape` | ChickenShield-Dashboard/src/App.jsx:289-296 | a missing, `null` or empty tag list shows only "None detected"; n tags show n labels in order, and each label is its tag with only the first underscore made a space |
| `Text.Prefix` | ChickenShield/background.js:16 | `substring(0, n)` yields a prefix of its input of length exactly min(length, n) |
| `Text.ContainsIffOccurs` | ChickenShield/content.js:28 | the left-to-right `includes` scan holds exactly when the fragment occurs at some position |
| `Text.ContainsEmbedded` | ChickenShield/content.js:28 | any string that embeds the fragment passes `includes` |
| `Text.ReplaceFirst` | ChickenShield/popup.js:94 | replacing one character keeps the length |
| `Text.ReplaceFirstSpec` | ChickenShield/popup.js:94 | a string without the character is unchanged; otherwise only its leftmost occurrence is replaced and later ones stay |
| `Text.UpperAscii` | ChickenShield/popup.js:75 | the upper-cased verdict has the same length and no lower-case ASCII letter; each lower-case ASCII letter becomes its capital and every other character is kept in place |
| `Text.UpperAsciiIdempotent` | ChickenShield/popup.js:75 | upper-casing an already upper-cased verdict changes nothing |
| `BackgroundWorker.PromptBody` | ChickenShield/background.js:15-17 | the prompt body is a prefix of the content of length min(length, 10000), or "No text content" when the content is absent or empty |
| `BackgroundWorker.AnalyzeWithGemini` | ChickenShield/background.js:36-77 | a 2xx reply that decodes is returned as it is, with no clamping of the score; every other outcome gives the fixed fallback report |
| `BackgroundWorker.FailuresIndistinguishable` | ChickenShield/background.js:68-77 | network failure, any non-OK status and an undecodable reply give the same report, with `error`, score 0 and verdict "unknown" |
| `BackgroundWorker.FinalResult` | ChickenShield/background.js:86-91 | source and title come from the request and timestamp from the clock, overriding the reply's; every other field is the reply's |
| `BackgroundWorker.BadgeFor` | ChickenShield/background.js:110-127 | suspicious gives WARN/orange, dangerous BAD/red, unknown ?/gray, and every other verdict (safe, unrecognised or missing) OK/green |
| `BackgroundWorker.BadgeAfterAnalysis` | ChickenShield/background.js:93-96 | a completed analysis never leaves the pending badge; a failed one shows ?/gray |
| `BackgroundWorker.Worker.constructor` | ChickenShield/background.js:6 | `lastScanResult` starts null |
| `BackgroundWorker.Worker.UpdateBadge` | ChickenShield/background.js:110-127 | the badge becomes the verdict's badge |
| `BackgroundWorker.Worker.BeginAnalysis` | ChickenShield/background.js:82-83 | while an analysis is pending the badge is "..." on #999 |
| `BackgroundWorker.Worker.CompleteAnalysis` | ChickenShield/background.js:85-99 | the slot and its stored copy become the merged result; the badge follows its verdict; the reply is "success" with that result |
| `BackgroundWorker.Worker.OnMessage` | ChickenShield/background.js:80-108 | ANALYZE_CONTENT stores and answers the merged result and sets the verdict badge; GET_LAST_RESULT returns the current slot and changes nothing; other actions get no reply |
| `BackgroundWorker.DangerousScenario` | ChickenShield/background.js:80-106 | a reply with score 85 and verdict "dangerous" ends with badge "BAD", and GET_LAST_RESULT returns that report with the page's URL as source |
| `BackgroundWorker.LastWriteWins` | ChickenShield/background.js:93 | after two analyses the slot holds the second one's result |
| `ContentScript.GetTextContent` | ChickenShield/content.js:16-19 | the website text is a prefix of the page text of length min(length, 15000) |
| `ContentScript.ScanWebsite` | ChickenShield/content.js:26-39 | nothing is sent iff the host contains "mail.google.com"; otherwise one website record with the page's URL, title and truncated text |
| `ContentScript.EmbeddedGmailHostSkipped` | ChickenShield/content.js:28 | a host that merely embeds "mail.google.com" is not scanned either: the test is a substring test |
| `ContentScript.SenderFallbacks` | ChickenShield/content.js:78-79 | without a sender element name and address are "Unknown"; with one, the name is its text and the address its non-empty `email` attribute, else its text |
| `ContentScript.CheckForEmailOpen` | ChickenShield/content.js:69-90 | a record is sent iff both subject and body exist (a missing sender does not block it); its source is `name <address>`, its body the untruncated message text |
| `ContentScript.OnLoad` | ChickenShield/content.js:96-102 | a non-webmail host gets exactly one website scan and no watcher; a webmail host gets the watcher and no scan |
| `ContentScript.WatchMail` | ChickenShield/content.js:56-64 | extraction runs at a batch iff its address differs from the previously observed one (never for the load address alone, never for a repeat); `lastUrl` ends as the last address; the records sent are those of the batches that fired |
| `ContentScript.StayingPutSendsNothing` | ChickenShield/content.js:60-63 | a run of mutation batches that never leaves the load address sends no e-mail record |
| `PopupView.FillList` | ChickenShield/popup.js:86-97 | the list is rebuilt from scratch as the indicator labels: "None detected" alone, or one label per tag in order |
| `PopupView.DashboardUrl` | ChickenShield/popup.js:52-60 | the link always starts with the base URL; without a stored result it is the base URL; with one, the rest is "?data=" and the encoded result |
| `PopupView.Popup.constructor` | ChickenShield/popup.js:3-14 | the popup starts with empty fields and lists |
| `PopupView.Popup.UpdateUI` | ChickenShield/popup.js:64-84 | a missing or error result sets only the verdict "Error" and the explanation (or "Unknown error"); otherwise the fields follow the result, the badge is the upper-cased verdict, the class is "container " + verdict and both lists are rebuilt |
| `MlService.EncodeLabel` | ChickenShield-ML/app.py:24-33 | a known label gets its code; an unknown one gets the default label's code; the encoding fails only when neither is known |
| `MlService.CountOf` | ChickenShield-ML/app.py:35-36 | an indicator count is the list's length, 0 when the key is absent, and a `TypeError` when the value is `null` |
| `MlService.DomainAge` | ChickenShield-ML/app.py:38-45 | the age is 0 when absent, null, the string "null" or not int-convertible; otherwise `int(age)` |
| `MlService.PreprocessInput` | ChickenShield-ML/app.py:18-55 | no artifacts gives the "Models not loaded" error; otherwise it succeeds iff both labels (after defaulting to "website"/"unknown") or their defaults are known and neither indicator list is `null`; the five features are the two codes, the two counts and the domain age; a failure is one of the three errors raised |
| `MlService.PreprocessTotalWithDefaults` | ChickenShield-ML/app.py:24-36 | with encoders that know "website" and "unknown", preprocessing succeeds iff neither indicator list is `null`, with unknown or missing labels coded as those defaults and missing lists counted as 0 |
| `MlService.Predict` | ChickenShield-ML/app.py:57-87 | no artifacts gives 500 with only an error; any other failure gives 500 with score 0 and verdict "unknown"; otherwise 200 with the models' score and verdict |
| `MlService.PreprocessErrorReported` | ChickenShield-ML/app.py:59-66 | since artifacts are checked first, a preprocessing failure reaches the client as a 500 carrying the unseen-label or the `len` error, with score 0 and verdict "unknown" |

## Left out

- The HTTP call to the model endpoint, its headers, the API key and URL from the environment, and the prompt text around the fields. The call's outcome is an input: a network failure, or a status with a body that decoded or did not.
- JSON, `JSON.parse`/`stringify`, `encodeURIComponent`/`decodeURIComponent` and `URLSearchParams`. A decoded reply or query parameter is an input. The link's encoding is a function parameter of `DashboardUrl`. A reply or parameter that parses to something other than an object is not modelled.
- Report fields that no modelled code reads, such as `creation_date_estimate`. The spread in `FinalResult` copies every field of the record.
- Chrome extension APIs (`runtime.sendMessage`/`onMessage`, `storage.local` and its change events, `action.setBadge*`, `tabs.*`). Messages sent become returned records, and storage and badge become class fields. The popup's load and storage-change listeners, and its scan and report buttons, are not modelled.
- `debounce`, `MutationObserver` and the timers. `WatchMail` receives the settled mutation batches as a sequence.
- Overlapping analyses that complete out of order. The worker runs one message to completion before the next (last write wins), so the stale-result ordering is not represented.
- DOM querying and `innerText`/`getAttribute`. Each region is an optional value, and innerText of an assigned `undefined` is kept as None rather than stringified.
- `Date`, `toISOString` and `toLocaleTimeString`. Timestamps are opaque strings passed in.
- The dashboard's PDF export, charts, mock data and all JSX styling.
- ChickenShield-ML/train_model.py is not part of this model.
- The trained models' `predict` calls, the pandas frame and `float`/`round`/`str`. They are the `infer` parameter of `Predict`. Python's `int()` is the `pyInt` parameter.
- Report fields other than `risk_score`, the two indicator lists, `timestamp` and the domain age have no separate `null` case: a `null` there is modelled as a missing key. The modelled code treats both alike there (both are falsy, neither equals a string, `toUpperCase` throws on both, and a `null` label is encoded as the default just as a missing one is). The popup would show an empty text for a `null` explanation or source where a missing one shows "undefined".
- `Text.UpperAscii`: `toUpperCase` is modelled for ASCII letters only; other characters are kept.
- `Text.Prefix`, and with it `BackgroundWorker.PromptBody` and `ContentScript.GetTextContent`: `substring` counts UTF-16 code units while Dafny strings count Unicode scalar values, so for text with characters outside the Basic Multilingual Plane the model keeps more characters than the 10000- and 15000-unit cuts do.
- JSON numbers are integers here; a fractional `risk_score` or domain age is not modelled.
