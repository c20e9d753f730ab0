# A verified model of the questions service's `POST /questions` handler

The service stores trivia questions. A client posts `questions_number`. The
handler `get_questions` clamps the count to 10 and asks a public provider
for that many random questions. It then opens a database session and
remembers the most recently stored question, which is what it returns.
Next it walks the ids of the provider's batch. It looks each one up in the
`questions` table and queues a row for each id the table lacks. If fewer
new rows were queued than the batch held, the code means to ask the
provider again, up to five times; as written, the retry line
app/main.py:141 raises instead, and so would the log line 142 after it
(see "## Findings"). Finally it commits all
queued rows at once. A failure inside the session turns into HTTP 500, and
nothing is committed.

Except in `SessionBlockAsWritten` and the lemmas about it, the model
follows the intended reading of app/main.py:141: a retry asks for the
remaining count.

The project models this handler and the table it writes:

- `store.dfy` (`QuestionStore`): the append-only table of rows, a
  `Database` class holding the committed rows, and a `Session` class. Rows
  added to a session wait in `pending` and reach the table only at
  `Commit`. Lookups see committed rows only, because the session does not
  autoflush.
- `upstream.dfy` (`Upstream`): `api_questions`. The provider is a
  parameter `Provider`, a total function from (call number, quantity) to
  what the transport delivered: a timeout, or a status with a decoded body.
- `handler.dfy` (`Handler`): the whole handler as functions. `Iteration`
  and `Run` are the `while` loop. `SessionBlock` is the session under the
  intended reading of the retry line. `SessionBlockAsWritten` is the
  literal one. `Handle` is the full request; it runs `SessionBlock`, so it
  follows the intended reading.
- `service.dfy` (`Service`): the handler step by step, as methods with the
  source's own loops and variables. Each method is proved to compute the
  corresponding function exactly: `GetQuestions` computes `Handle`, and
  `RetryLoop` computes `Run` from `Entry`. Its retry request asks for the
  remaining count, the intended reading of app/main.py:141.
- `handler_properties.dfy`, `dedup_properties.dfy`, `scenarios.dfy`: what
  the loop does, what a call adds to the table, and concrete runs.

### What the loop does under the intended reading

The comments at app/main.py:95 and app/main.py:134-140 say the loop runs
until five requests have been made or all unique questions have been
obtained, asking again while some questions were not unique. The loop
body does not achieve that:

- `questions_ids` is built once from the first batch (app/main.py:84) and
  never rebuilt. Every pass after the first therefore stops at its first
  id, which the first pass already checked. So all rows are queued by the
  first pass, and replacement batches are fetched but never examined
  (`HandlerProperties.LaterIterations`, `HandlerProperties.RunFromEntry`).
  Example: the table holds ids 1 and 2, the first batch is [1, 3], and
  every replacement is [4]. Under the intended reading of app/main.py:141
  the call stores only 3 and makes five replacement requests
  (`Scenarios.StaleIdsExample`). As written, the same call answers 500 and
  stores nothing (`Scenarios.RetryLineCrash`).
- The `break` at app/main.py:102-103 also fires on an id repeated within
  the first batch. The ids after the repeat are never looked up
  (`Scenarios.RepeatStopsScan`).
- An empty table receives the whole first batch exactly when its ids are
  distinct (`Scenarios.FreshStore`, and `Scenarios.RepeatLeavesSlots` for
  the converse).
- A non-positive count is rejected before any work: the request model's
  `gt=0` validation makes the framework answer 422. The model has a single
  `Rejected` response.
- A timeout on a replacement request raises HTTP 504 inside the session.
  The session's `except Exception` turns it into 500. Only the first
  request, which is made outside the session, surfaces 504.

## Model

| member | source | states |
|---|---|---|
| QuestionStore.MostRecent | app/main.py:65-81 | no prior row exactly when the table is empty; otherwise the row with the highest internal id, which is the last one, together with that id |
| QuestionStore.Lookup | app/main.py:109 | finds a row exactly when the provider id is stored; the row found is stored and carries that id |
| QuestionStore.LookupFrom | app/main.py:109 | the same for the rows from a position on |
| QuestionStore.AppendUnique | app/main.py:124-145 | appending rows with distinct ids that are new to the table keeps every stored id unique; the stored ids become the union |
| QuestionStore.Database.constructor | app/db.py:23-36 | the table holds the given rows |
| QuestionStore.Session.constructor | app/main.py:62 | a new session over the database has nothing pending |
| QuestionStore.Session.Add | app/main.py:124 | queues exactly one row at the end and leaves the table alone |
| QuestionStore.Session.Commit | app/main.py:145 | appends every queued row to the table, in order, and empties the queue |
| QuestionStore.Session.Close | app/main.py:150-155 | discards whatever is still queued |
| Upstream.ApiQuestions | app/main.py:158-172 | succeeds exactly on a 200 reply and yields its body; a timeout gives 504 and any other status gives 500 |
| Handler.Clamp | app/main.py:51-52 | the result is at most 10 and at most the request, and equals one of the two |
| Handler.Ids | app/main.py:84 | one id per candidate, position by position |
| Handler.PassFrom | app/main.py:99-106 | a pass from position i ends between i and the end of the list |
| Handler.Marked | app/main.py:106 | the ids marked checked by a pass of length n are exactly the ids at its first n positions |
| Handler.FirstWith | app/main.py:115-116 | finds a candidate exactly when one carries the id; what it finds carries the id and is in the batch |
| Handler.FirstFrom | app/main.py:115-116 | the same from a position on |
| Handler.Queued | app/main.py:99-130 | checking n ids queues at most n rows |
| Handler.FirstPass | app/main.py:99-130 | the first pass queues at most one row per candidate |
| Handler.Repeat | app/main.py:96-141 | k copies of the same quantity |
| Handler.FailedRetry | app/main.py:135-141 | when it finds a replacement request, that request is numbered between k and 5 and fails |
| Handler.Replacements | app/main.py:96-141 | no replacement request exactly when the first pass filled every slot; otherwise each asks for the outstanding count, up to 5 of them; when none fails there are exactly 5; when one fails, the last one made is the failing one |
| Handler.Iteration | app/main.py:99-141 | queued rows and lookups only grow; the rows queued plus the count stay constant; with slots left it makes request retry+1 for exactly the remaining count; with none left it makes no request |
| Handler.Run | app/main.py:96-141 | the loop ends in a state where its condition is false, or after a failure; queued rows, lookups and requests only grow |
| Handler.SessionBlock | app/main.py:60-152 | looks up exactly the scanned ids; the replacement requests are `Replacements` of the outstanding count; the response is 500 exactly when a replacement request fails, and then the table is unchanged; otherwise it answers with the previous row and appends exactly the first pass's rows |
| Handler.SessionBlockAsWritten | app/main.py:135-152 | with the line as written: it answers exactly when the first pass fills every slot; otherwise 500 with the table unchanged; it never makes a replacement request |
| Handler.Handle | app/main.py:43-155 | rejected exactly when the count is non-positive, and then nothing happens; otherwise the first request asks for the clamped count and there are at most 6 requests; a failed first request surfaces its own status and changes nothing; errors are 500 or 504; an answer is the previous row, and the old table is a prefix of the new one; on any error the table is unchanged |
| HandlerProperties.FirstWithAt | app/main.py:115-116 | the search returns the candidate at j when no earlier candidate shares its id |
| HandlerProperties.FirstFromAt | app/main.py:115-116 | the same from a position on |
| HandlerProperties.PassFromStops | app/main.py:99-106 | a pass checks only ids that were unchecked and distinct from each other; it stops at the end of the list or at an id checked before or earlier in the pass |
| HandlerProperties.ScanLengthStops | app/main.py:99-106 | the first pass looks up distinct ids and stops only at the end of the list or at a repeat of an id it already saw |
| HandlerProperties.FirstScan | app/main.py:99-106 | a non-empty first batch has a non-empty first pass, and that pass queues `FirstPass` |
| HandlerProperties.LaterScan | app/main.py:102-103 | a pass whose first id is already checked looks at nothing |
| HandlerProperties.FailedRetryFirst | app/main.py:135-141 | every replacement request before the failing one succeeds; with no failure, all of them up to 5 succeed |
| HandlerProperties.LaterIteration | app/main.py:99-141 | an iteration after the first queues and looks up nothing; it only repeats the request for the same count and keeps the new batch or the failure |
| HandlerProperties.LaterIterations | app/main.py:84-141 | from the second iteration on, the loop repeats the same request until the first failure or until 5 requests have been made, and adds no row and no lookup |
| HandlerProperties.RunFromEntry | app/main.py:84-141 | the loop from its entry state queues exactly the first pass's rows, looks up exactly the scanned ids, and makes exactly `Replacements`; it fails exactly when `RetriesFail` |
| HandlerProperties.RunCounters | app/main.py:90-141 | the rows queued plus `questions_count` are preserved; `count_retry` counts the requests and never passes 5; a failure happens only with slots left |
| HandlerProperties.LoopCounters | app/main.py:87-141 | from entry: the count ends between 0 and the batch size, and the queued rows make up the difference; the number of retries equals the number of requests, at most 5; slots are left only after 5 requests or a failure, and a failure leaves slots |
| DedupProperties.FirstFromIsFirst | app/main.py:115-116 | the candidate found is the first with that id |
| DedupProperties.StepQueues | app/main.py:109-130 | checking one id queues at most one row; nothing exactly when the id is stored or no candidate has it; otherwise the row built from the first candidate with it |
| DedupProperties.StepNew | app/main.py:112-124 | a new id some candidate carries queues the row built from the first such candidate |
| DedupProperties.QueuedRows | app/main.py:99-130 | every queued row carries a checked id that is new to the table, and is built from the first candidate with that id |
| DedupProperties.QueuedUnique | app/main.py:93-130 | distinct checked ids give rows with distinct ids |
| DedupProperties.QueuedCovers | app/main.py:109-130 | every checked id that the table lacks and some candidate carries gets a row |
| DedupProperties.FirstPassRows | app/main.py:99-130 | the first pass's rows carry scanned ids, are new, unique and built from the first candidate; each new scanned id has a row |
| DedupProperties.NoDuplicateInserts | app/main.py:93-145 | over a whole call, a table with unique ids keeps them unique; every appended row's id was not stored before |
| DedupProperties.LookupsOnce | app/main.py:93-109 | over a whole call, each id is looked up at most once; the lookups are a prefix of the first batch's ids, cut only at a repeat |
| Scenarios.PassFromDistinct | app/main.py:99-106 | over distinct unchecked ids a pass runs to the end |
| Scenarios.QueuedFresh | app/main.py:109-130 | against an empty table, distinct ids queue one row per candidate, in order |
| Scenarios.FreshFirstPass | app/main.py:99-130 | against an empty table with distinct ids, the first pass scans and stores the whole batch |
| Scenarios.FreshStore | app/main.py:43-155 | an empty table and a distinct first batch: the empty context, every candidate stored in order, the first request only, every id looked up |
| Scenarios.FilledOutcome | app/main.py:43-155 | when the first pass fills every slot, the call answers with the previous row, commits exactly that pass, makes only the first request and looks up the scanned ids |
| Scenarios.RepeatLeavesSlots | app/main.py:99-130 | against an empty table, a first batch that repeats an id leaves at least one slot unfilled |
| Scenarios.NothingNew | app/main.py:109-112 | a first batch of stored ids queues nothing |
| Scenarios.AllStored | app/main.py:43-155 | a first batch of stored ids, with retries that succeed: the table is unchanged, and exactly 5 retries ask for the whole batch size; the answer is still the previous row |
| Scenarios.FetchesBounded | app/main.py:51-57 | when the first batch is no larger than asked, no request asks for more than the clamped count, and that is at most 10 |
| Scenarios.ThenDNeverFails | app/main.py:135-141 | the example provider's replacement requests all succeed |
| Scenarios.StaleIdsExample | app/main.py:84-141 | table {1, 2}, first batch [1, 3], replacement batches [4]: stores only 3, makes five requests for one question, and looks up 1 and 3 |
| Scenarios.RetryLineCrash | app/main.py:141 | on the same input, the line as written answers 500 and stores nothing, while the intended reading stores 3 and answers with row 2 |
| Scenarios.AsWrittenAgreesWithoutRetry | app/main.py:135-152 | the two readings agree exactly when no retry is needed; otherwise the literal one fails with 500 |
| Scenarios.RepeatStopsScan | app/main.py:99-106 | empty table, first batch [1, 1, 3]: stores 1 only, never looks up 3, and asks five times for two questions |
| Service.SaveIfUnique | app/main.py:109-130 | the session queue grows by exactly `Step`; `saved` reports whether a row was queued |
| Service.CheckBatch | app/main.py:99-132 | the ids looked up are the pass's prefix; the checked set grows by exactly those ids; the queue grows by exactly the rows `Queued` gives for them; `saved` counts them |
| Service.Iterate | app/main.py:99-141 | the loop variables and queue afterwards are exactly `Iteration` of those before |
| Service.RetryLoop | app/main.py:84-141 | the queue, the requests, the lookups and the failure flag are exactly those of `Run` from `Entry` |
| Service.RunSession | app/main.py:60-152 | response, table, requests and lookups are exactly `SessionBlock` of the old table |
| Service.GetQuestions | app/main.py:43-155 | response, table, requests and lookups are exactly `Handle` of the old table |

## Left out

- HTTP plumbing (FastAPI routing, JSON bodies, the 422 status of a rejected count) is left out: a rejected count is the single response `Rejected`.
- Logging (every `main_logger` call) is left out, because it changes no state the model observes. The one exception is the log call at app/main.py:142: its message also applies `len` to the int `questions_count`, so it raises too. The model takes it as corrected along with app/main.py:141.
- The network call in `requests.get`, the URL building, `response.json()` decoding and connection errors other than a timeout are left out. The provider is a parameter that returns either a timeout or a status with an already-decoded list.
- Malformed provider items (a missing key, a non-list body) are left out; every item is assumed to have an id, a question, an answer and a date.
- The database engine, `create_table`, `SessionLocal.close_all` and database failures (a failed query or commit) are left out; the table is a sequence that never fails.
- Timestamps are opaque integers, and all rows of one call share one clock reading `now`, because the model never compares or computes with them.
- QuestionStore.MostRecent: the internal id of a row is its position plus one. That assumes the database's ids have no gaps, that is, no deleted rows and no failed commits that used up sequence values.
- Concurrent requests are left out; each call runs alone against the table.
- Column names are left out. The mapped class of app/db.py:23-31 names its columns `id_question`, `answer_text`, `created_date` and `date_question`, while app/main.py uses `question_id`, `question_text_answer`, `question_date_created` and `question_date`. The model assumes both name the same columns.

## Findings

| source | as written | input that shows it | evidently intended | confidence | as-written member | corrected member |
|---|---|---|---|---|---|---|
| app/main.py:141 | `api_questions(len(questions_count))` applies `len` to an int, so it raises a TypeError; the log line 142 makes the same call. Whenever a retry is needed, the call answers 500 and commits nothing | table {1, 2}, first batch [1, 3], two questions asked | `api_questions(questions_count)` at 141 and `questions_count` in the log message at 142, which repeats the same `len` call: request the remaining count | not executed | Scenarios.RetryLineCrash | Handler.SessionBlock |
