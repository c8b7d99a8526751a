# Monday BI agent: conversation client and board analysis, in Dafny

This project models the two places of the monday.com business-intelligence
agent that hold real logic.

- **The client's ask cycle** (`Index.tsx`, `QuestionInput.tsx`). The page
  keeps ten pieces of session state: four configuration strings, the typed
  question, the last answer, the last trace, a loading flag, the last error
  and the conversation history. `handleAsk` sends the trimmed question with
  the configuration and the history to the agent. On success it records the
  answer and appends the exchange to the history. On failure it records an
  error message. The model is the class `Session.Session`. `handleAsk` is
  split at its `await` into `Begin` (guard, state changes, request) and
  `Settle` (success or failure update, then `finally`). `HandleAsk` runs
  both. The network's answer is an `Outcome` value: a status with a parsed
  body, or a thrown value with or without an `Error` message. The
  question box's Enter rule and the Ask button's `disabled` rule are in
  `QuestionInput`.
- **The agent's deterministic analysis** (`agent.py`).
  - `Boards` flattens a board query response into one ordered dictionary
    per item (`extract_items`).
  - `Detect` finds the status, numeric and company columns by scanning the
    first row's keys in order.
  - `Agent` holds the rest:
    - the keyword routing of a question to one of five branches;
    - the integer and set results of the conversion, funnel and
      data-quality branches;
    - the `trace` dict;
    - the history text given to the language model;
    - `ProcessQuery`, which puts them together.

Supporting modules:
- `Text` models the string built-ins the code relies on:
  - JavaScript `trim` and Python `strip`, each with its own exact whitespace set;
  - ASCII `lower`/`upper`;
  - `isdigit`;
  - `in` on strings;
  - `"\n".join`;
  - the rendering of a status code as decimal text.
- `Conversation` holds the history entry type and the "whole exchanges"
  invariant.
- `Wrappers` holds `Option`.

Points where the code behaves differently from what one might expect:

- `handleAsk` has no `loading` guard. Only a blank question is refused
  (`Index.tsx:21`). The Ask button is disabled while loading, but Enter
  still fires `onAsk` (`QuestionInput.tsx:11-16`), so a second request can
  start while one is in flight (`QuestionInput.EnterBypassesLoading`).
- The typed question is cleared only on success (`Index.tsx:54`). After a
  failure it stays in the box. A success clears the box even if the user
  typed over it while the request was in flight.
- `answer` is not cleared when a turn starts. Only `error` and `trace` are
  (`Index.tsx:24-25`).
- The error after a failure is empty when the thrown `Error` has an empty
  message. `Session.EmptyErrorIff` shows this is the only such case. The
  page then shows no error.

## Model

| member | source | states |
|---|---|---|
| `Text.TrimStartSpec` | monday-bi-executive/src/pages/Index.tsx:22 | trimming the front drops exactly the maximal run of leading whitespace |
| `Text.TrimEndSpec` | monday-bi-executive/src/pages/Index.tsx:22 | trimming the back drops exactly the maximal run of trailing whitespace |
| `Text.StripEmptyIff` | monday-bi-executive/src/pages/Index.tsx:21 | a text trims to "" exactly when every character is whitespace |
| `Text.StripShape` | monday-bi-executive/src/pages/Index.tsx:22 | a trimmed text is a contiguous part of the input that neither starts nor ends with whitespace |
| `Text.LowerAt` | agent.py:89 | lowercasing keeps the length and maps each character on its own |
| `Text.LowerIdempotent` | agent.py:89 | lowercasing twice is lowercasing once |
| `Text.ContainsIff` | agent.py:110 | Python `sub in s` holds exactly when `sub` occurs at some position of `s` |
| `Text.RemoveDotsSpec` | agent.py:55 | as a set, deleting dots leaves exactly the non-dot characters |
| `Text.RemoveDotsConcat` | agent.py:55 | deleting dots works piece by piece, so the other characters keep their order and number |
| `Text.Decimal` | monday-bi-executive/src/pages/Index.tsx:41 | a status code renders as a non-empty string of digits |
| `Text.DecimalRoundTrip` | monday-bi-executive/src/pages/Index.tsx:41 | reading a rendered code back gives the code, and the numeral has no leading zero |
| `Text.JoinAppend` | agent.py:254 | joining one more part adds the separator and that part at the end |
| `Conversation.PairedRoles` | monday-bi-executive/src/pages/Index.tsx:49-53 | a history of whole exchanges has even length and alternates user and assistant, user first |
| `Conversation.PairedExtend` | monday-bi-executive/src/pages/Index.tsx:49-53 | appending a user/assistant pair keeps the history whole and keeps the old history as a prefix |
| `Conversation.TranscriptPaired` | monday-bi-executive/src/pages/Index.tsx:49-53 | any list of exchanges flattens to a whole history, two entries per exchange |
| `Conversation.PairedIsTranscript` | monday-bi-executive/src/pages/Index.tsx:49-53 | every whole history is the flattening of the exchanges read back from it |
| `Session.Config.With` | monday-bi-executive/src/pages/Index.tsx:107-110 | editing one configuration field sets that field and leaves the other three alone |
| `Session.StatusFailureRoundTrip` | monday-bi-executive/src/pages/Index.tsx:41 | the status-failure message names its status code exactly, so different codes give different messages |
| `Session.SettlementOf` | monday-bi-executive/src/pages/Index.tsx:41-56 | a turn succeeds exactly on a 2xx response. A success has a non-empty answer (the body's own when non-empty) and the body's trace. A failed response's message names its status. A thrown `Error` gives its own message, anything else thrown gives "An unexpected error occurred." |
| `Session.EmptyErrorIff` | monday-bi-executive/src/pages/Index.tsx:56 | a failure's error is empty exactly when an `Error` with an empty message was thrown |
| `Session.AnsweredText` | monday-bi-executive/src/pages/Index.tsx:44 | a missing or empty answer becomes "No answer returned.", any other is shown as is |
| `Session.ThrownMessage` | monday-bi-executive/src/pages/Index.tsx:55-56 | a thrown `Error` with message m gives the error m; anything else thrown gives "An unexpected error occurred." |
| `Session.Status500Message` | monday-bi-executive/src/pages/Index.tsx:41 | a 500 response gives the error "Request failed with status 500" |
| `Session.Session.constructor` | monday-bi-executive/src/pages/Index.tsx:9-18 | a fresh session has empty strings, no trace, is idle and has an empty history |
| `Session.Session.SetConfigField` | monday-bi-executive/src/pages/Index.tsx:107-110 | a configuration edit changes that field only, also while loading |
| `Session.Session.SetQuestion` | monday-bi-executive/src/pages/Index.tsx:115 | editing the question box changes the question only |
| `Session.Session.Begin` | monday-bi-executive/src/pages/Index.tsx:20-38 | a blank question changes nothing and sends nothing. Otherwise: loading on, error and trace cleared, answer, question, history and configuration kept, and the request holds the trimmed question, the current configuration and the pre-turn history |
| `Session.Session.Settle` | monday-bi-executive/src/pages/Index.tsx:40-59 | success: sets the answer and trace, appends the user then the assistant entry, clears the question. Failure: sets only the error. Loading ends either way and the history stays whole |
| `Session.Session.HandleAsk` | monday-bi-executive/src/pages/Index.tsx:20-60 | a whole turn: blank means no change. Otherwise the pre-turn history is sent and the session ends idle. On success it has the answer, its trace, no error, an empty box and one more exchange. On failure it has the error, no trace, and answer, question and history unchanged |
| `QuestionInput.HandleKeyDown` | monday-bi-executive/src/components/QuestionInput.tsx:11-16 | a key asks, and has its default prevented, exactly when it is Enter without Shift |
| `QuestionInput.ButtonDisabled` | monday-bi-executive/src/components/QuestionInput.tsx:35 | the button is disabled exactly when loading or the question is all whitespace |
| `QuestionInput.AskFiresIff` | monday-bi-executive/src/components/QuestionInput.tsx:11-16 | an ask fires exactly on Enter without Shift, or on a click while idle with a non-blank question |
| `QuestionInput.EnterBypassesLoading` | monday-bi-executive/src/components/QuestionInput.tsx:11-16 | Enter asks while a request is in flight, whatever the text |
| `QuestionInput.LoadingBlocksOnlyTheButton` | monday-bi-executive/src/components/QuestionInput.tsx:35 | while loading, the only event that asks is Enter without Shift |
| `Boards.ExtractItems` | agent.py:15-29 | no board gives no rows. Otherwise one row per item of the first board, in order, each the item's dictionary |
| `Boards.PutWellFormed` | agent.py:26 | one assignment keeps the dictionary invariant |
| `Boards.PutAllShape` | agent.py:25-26 | the column writes keep the invariant and only add keys at the end |
| `Boards.PutAllKeySet` | agent.py:25-26 | after the column writes the keys are the old keys plus the column ids |
| `Boards.PutAllGet` | agent.py:25-26 | after the column writes a key holds the text of the last column with that id, else its old value |
| `Boards.RowOf` | agent.py:22-27 | the dictionary built for one item is well formed and its first key is "name" |
| `Boards.RowOfSpec` | agent.py:24-26 | an item's row is a dictionary whose first key is "name". Its keys are "name" and the column ids. A later duplicate id overwrites an earlier one, and a column with id "name" replaces the item name |
| `Boards.RowOfKeyOrder` | agent.py:24-27 | after "name", a row's keys come in the order their ids first occur among the columns |
| `Boards.FirstIndex` | agent.py:25 | the position found is that of the first column with the id, or the end when none has it |
| `Boards.ReadingsDifferOnlyOnNull` | agent.py:42 | `str(v or "")` and `str(v)` agree except on null, which the first reads as "" and the second as "None"; a missing key is "" in both |
| `Detect.FirstKeyWhereSpec` | agent.py:40-45 | the key scan returns none exactly when no key passes, else a passing key with none before it passing |
| `Detect.DetectColumn` | agent.py:36-45 | `detect_column` returns the first key of the first row under which some row's text (null and missing as "") is exactly one of the given values |
| `Detect.NumericTextIff` | agent.py:55 | a cell is numeric exactly when it has a non-dot character and only digits and dots |
| `Detect.NumericTextExamples` | agent.py:55 | "1.2.3", "5." and "250000" count as numeric; "", "." and "-3" do not |
| `Detect.DetectNumericColumn` | agent.py:48-57 | `detect_numeric_column` returns the first key of the first row under which some row's text is numeric |
| `Detect.Sample` | agent.py:65 | the company sample is the first twenty rows, or all rows when there are fewer |
| `Detect.DetectCompanyColumn` | agent.py:60-68 | `detect_company_column` returns the first key of the first row under which one of the first twenty rows contains "company" in any case |
| `Detect.CompanyColumnSampled` | agent.py:65 | rows after the twentieth never change the company column |
| `Detect.DetectedColumns` | agent.py:36-68 | no rows give no column. Otherwise each of the three detectors finds a key of the first row that passes its own test (a listed value, a numeric cell, "company" in a sampled cell), and finds none only when no key of that row passes |
| `Agent.TraceOf` | agent.py:96-104 | the trace records that the API was called and both row counts. Each detected column is a key of its board's first row, and an empty deals board has no deal columns |
| `Agent.Route` | agent.py:110-252 | each branch fires only on its keywords and needed columns, and each later branch excludes the earlier keywords. A conversion keyword with all three columns always gives the conversion report, tried first. The model is reached only when no other branch's keywords are present, and a revenue keyword has no revenue column |
| `Agent.RouteCaseInsensitive` | agent.py:89 | routing does not depend on the letter case of the question |
| `Agent.RouteWhenColumnsFound` | agent.py:110-112 | a conversion question with all three company and status columns found gets the conversion report; a revenue question with a revenue column and no earlier keyword gets the total (agent.py:236) |
| `Agent.RouteKeywordsAvoidModel` | agent.py:151-252 | funnel, win-rate, data-quality and inconsistency questions never reach the language model. Without a revenue column only those and conversion questions avoid it |
| `Agent.RouteEmptyDeals` | agent.py:91-112 | with an empty deals board, a question goes to the funnel, the data-quality report or the model |
| `Agent.Count` | agent.py:205-213 | a row count never exceeds the number of rows |
| `Agent.CountExclusive` | agent.py:168-173 | counts of mutually exclusive tests add up to at most the number of rows |
| `Agent.CountAll` | agent.py:205-208 | a test every row passes counts every row |
| `Agent.ImageBound` | agent.py:122-130 | a set built from the rows has at most as many members as there are rows |
| `Agent.Normalize` | agent.py:114-115 | as a set, the normalised name keeps exactly the lowercase letters and digits of the lowercased name, and it is no longer than that name |
| `Agent.KeepAlnumSpec` | agent.py:115 | as a set, the character filter keeps exactly the lowercase letters and digits |
| `Agent.KeepAlnumConcat` | agent.py:115 | the filter works piece by piece, so the kept characters keep their order and number |
| `Agent.NormalizeSpec` | agent.py:114-115 | a normalised name holds only `[a-z0-9]`, and normalising it again changes nothing |
| `Agent.NormalizeIgnoresPunctuation` | agent.py:115 | names that differ only in a non-alphanumeric character normalise alike |
| `Agent.NormalizeIgnoresCase` | agent.py:115 | names that differ only in letter case normalise alike |
| `Agent.ConvertedBounded` | agent.py:117-132 | there are at most as many converted companies as won companies or work-order companies, and at most as many of those as rows |
| `Agent.ConvertedMember` | agent.py:117-132 | a company is converted exactly when some won deal and some work order have that normalised company |
| `Agent.FunnelCounts` | agent.py:153-173 | the counting loop returns the numbers of deals whose lowercased status is exactly "won", "dead" and "open" |
| `Agent.FunnelBounded` | agent.py:153-173 | won + dead + open is at most the number of deals |
| `Agent.StatusIgnoresCase` | agent.py:159 | a "WON" status cell counts as won |
| `Agent.MissingCount` | agent.py:205-213 | the number of deals whose cell strips to nothing is at most the deals |
| `Agent.MissingWithoutColumn` | agent.py:205-213 | without a detected column every deal counts as missing it |
| `Agent.MissingReadsNullAsNone` | agent.py:207 | a null cell reads as "None" and is not counted as missing; a blank cell is |
| `Agent.InconsistentCount` | agent.py:215-220 | the inconsistency count is at most the distinct lowercased deal companies, and zero unless both company columns were found |
| `Agent.InconsistentBounded` | agent.py:215-220 | the inconsistency count is at most the distinct deal companies (at most the deals), and zero when all of them appear among the work orders |
| `Agent.HistoryContext` | agent.py:252-254 | the history text is empty exactly when there is no history, and one message gives its single "ROLE: content" line |
| `Agent.HistoryContextAppend` | agent.py:252-254 | each further message adds a newline and "ROLE: content" to the history text |
| `Agent.Analyze` | agent.py:110-283 | the kind of report is exactly the routed branch, and the model prompt carries the history text and the question |
| `Agent.ProcessQuery` | agent.py:75-283 | the trace records the row counts and detected columns. The reply is the routed branch's exact result, computed from the flattened boards |
| `Agent.AnalyzeBounded` | agent.py:110-283 | each branch's numbers keep their bounds, and the model prompt carries both row counts and the question |

## Left out

- The network. `fetch`, its URL and headers, JSON serialisation and
  `res.json()` are represented only by the `Outcome` given to `Settle`.
  The board query POST (`monday_client.py`) is represented only by the
  `BoardResponse` values given to `ProcessQuery`.
- The FastAPI routing and CORS set-up (`main.py`). Its configuration dict is
  passed through unchanged.
- Environment fallbacks (`os.getenv`, `load_dotenv`). The Gemini client and
  its call are also left out: the model branch yields the prompt's inputs,
  not the model's reply.
- Floating point. This covers the conversion rate, the win rate, the mean
  and median deal size, the forecast and the total revenue, their
  `float()` parsing and the number formatting of the answer strings.
  `ConversionReport` keeps the two integers the rate is made of.
- `Agent.ProcessQuery`: does not model the `ValueError` that
  `float()` raises on non-numeric revenue text in the funnel forecast and in
  the revenue total (agent.py:181, 239). Such a query fails on the server.
- `Boards.ExtractItems`: does not model a response whose `data` is
  null, or an item without `name` or `column_values`. Python raises on
  these. The query's fixed shape makes the second impossible.
- Concurrency. Two requests in flight at once are possible through Enter
  while loading, but `Begin` and `Settle` are sequential steps on one state.
  React's batching of state updates and stale closures are not modelled.
- `Session.Body`: a field that is missing, `null` or otherwise falsy is one
  case, `None`. A truthy non-string `answer` is not modelled.
- Unicode case mapping and digits. Python `lower`/`upper` and `isdigit`
  are modelled on ASCII only: other letters are left unchanged, and only
  `0`-`9` count as digits. Both trim functions use their full whitespace
  sets.
- Presentation. This covers the configuration panel and its show/hide
  masking, the answer and trace panels, and all markup of the page.
