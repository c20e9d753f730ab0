/**
 * The `POST /questions` handler `get_questions` (app/main.py:43-155) as a
 * function of the table before the call, the requested count, the provider
 * and the local clock reading. `Service.GetQuestions` is the step-by-step
 * version and is proved to compute exactly this.
 *
 * Two things in the source shape the result:
 *  - `questions_ids` is built once from the first batch (app/main.py:84) and
 *    never rebuilt, so every pass after the first stops at its first,
 *    already-checked id: all rows are queued by the first pass and the
 *    replacement batches are never examined.
 *  - app/main.py:141 applies `len` to the int `questions_count`, which raises
 *    a TypeError. `SessionBlock` follows the evident intent: request
 *    `questions_count` replacements, as the message of the log line 142
 *    says, though that message repeats the `len` call, which the intended
 *    reading corrects too. `SessionBlockAsWritten` is the literal reading.
 */
module Handler {
  import opened Wrappers
  import opened QuestionStore
  import opened Upstream

  /** The most questions one request may ask for. */
  const QuestionsLimit := 10

  /** The number of replacement requests one invocation may make. */
  const MaxRequest := 5

  /** The HTTP-level result: the previous question, a rejected request body, or an error status. */
  datatype Response = Answer(context: Context) | Rejected | HttpError(status: int)

  /**
   * Everything one invocation does: its response, the table afterwards, the
   * quantity passed to each provider request in order, and the provider ids
   * looked up in the table in order.
   */
  datatype Outcome = Outcome(response: Response, rows: seq<Question>, fetches: seq<nat>, lookups: seq<int>)

  /** The clamp of app/main.py:51-52. */
  function Clamp(requested: int): (n: int)
    ensures n <= QuestionsLimit && n <= requested
    ensures n == requested || n == QuestionsLimit
  {
    if requested > QuestionsLimit then QuestionsLimit else requested
  }

  /** `[question['id'] for question in questions]` (app/main.py:84). */
  function Ids(batch: seq<Candidate>): (ids: seq<int>)
    ensures |ids| == |batch|
    ensures forall k :: 0 <= k < |batch| ==> ids[k] == batch[k].id
  {
    seq(|batch|, k requires 0 <= k < |batch| => batch[k].id)
  }

  /**
   * How many ids one pass of the `for` loop of app/main.py:99-106 examines:
   * from position `i`, with the ids in `checked` already checked, it goes on
   * while the next id is unchecked, checking it, and stops at the first id
   * that is checked already or at the end of the list.
   */
  function PassFrom(ids: seq<int>, checked: set<int>, i: nat): (k: nat)
    requires i <= |ids|
    ensures i <= k <= |ids|
    decreases |ids| - i
  {
    if i == |ids| || ids[i] in checked then i
    else PassFrom(ids, checked + {ids[i]}, i + 1)
  }

  /** The length of a whole pass that starts with the ids in `checked` checked. */
  function PassLength(ids: seq<int>, checked: set<int>): nat
  {
    PassFrom(ids, checked, 0)
  }

  /** The ids at the first `n` positions: what a pass of length `n` adds to `questions_checks`. */
  function Marked(ids: seq<int>, n: nat): (m: set<int>)
    requires n <= |ids|
    ensures m == set k | 0 <= k < n :: ids[k]
  {
    if n == 0 then {} else Marked(ids, n - 1) + {ids[n - 1]}
  }

  /** The first pass starts with nothing checked. */
  function ScanLength(ids: seq<int>): nat
  {
    PassLength(ids, {})
  }

  /** The ids the first pass looks up, in order. */
  function Scanned(batch: seq<Candidate>): (s: seq<int>)
    ensures |s| <= |batch|
  {
    Ids(batch)[..ScanLength(Ids(batch))]
  }

  /** The inner loop of app/main.py:115-130: the first candidate of the batch with that id. */
  function FirstWith(batch: seq<Candidate>, id: int): (r: Option<Candidate>)
    ensures r.Some? <==> exists k :: 0 <= k < |batch| && batch[k].id == id
    ensures r.Some? ==> r.value.id == id && r.value in batch
  {
    FirstFrom(batch, id, 0)
  }

  /** The first candidate at position `i` or later with that id. */
  function FirstFrom(batch: seq<Candidate>, id: int, i: nat): (r: Option<Candidate>)
    requires i <= |batch|
    ensures r.Some? <==> exists k :: i <= k < |batch| && batch[k].id == id
    ensures r.Some? ==> r.value.id == id && r.value in batch
    decreases |batch| - i
  {
    if i == |batch| then None
    else if batch[i].id == id then Some(batch[i])
    else FirstFrom(batch, id, i + 1)
  }


  /** The row `Question(...)` built from a candidate (app/main.py:117-123). */
  function MakeRow(c: Candidate, now: Timestamp): Question
  {
    Question(c.id, c.question, c.answer, c.createdAt, now)
  }

  /**
   * What checking one new id queues (app/main.py:109-130): nothing when the
   * table has it, nothing when no candidate of the current batch carries it,
   * and otherwise the row built from the first candidate that does.
   */
  function Step(rows: seq<Question>, batch: seq<Candidate>, id: int, now: Timestamp): seq<Question>
  {
    if Lookup(rows, id).Some? then []
    else match FirstWith(batch, id)
      case None => []
      case Some(c) => [MakeRow(c, now)]
  }

  /** The rows queued by checking `ids[0]`, ..., `ids[n - 1]` one after the other against the table. */
  function Queued(rows: seq<Question>, batch: seq<Candidate>, ids: seq<int>, n: nat, now: Timestamp): (q: seq<Question>)
    requires n <= |ids|
    ensures |q| <= n
  {
    if n == 0 then []
    else Queued(rows, batch, ids, n - 1, now) + Step(rows, batch, ids[n - 1], now)
  }

  /** The rows the first pass over a batch queues. */
  function FirstPass(rows: seq<Question>, batch: seq<Candidate>, now: Timestamp): (q: seq<Question>)
    ensures |q| <= |batch|
  {
    Queued(rows, batch, Ids(batch), ScanLength(Ids(batch)), now)
  }

  /** `questions_count` after the first pass: the slots the first pass left unfilled. */
  function Outstanding(rows: seq<Question>, batch: seq<Candidate>, now: Timestamp): nat
  {
    |batch| - |FirstPass(rows, batch, now)|
  }

  /** `k` copies of `x`. */
  function Repeat(x: nat, k: nat): (s: seq<nat>)
    ensures |s| == k
    ensures forall i :: 0 <= i < k ==> s[i] == x
  {
    if k == 0 then [] else Repeat(x, k - 1) + [x]
  }

  /** The first replacement request, numbered from `k` up to `MaxRequest`, that fails. */
  function FailedRetry(up: Provider, quantity: nat, k: nat): (r: Option<nat>)
    requires 1 <= k
    ensures r.Some? ==> k <= r.value <= MaxRequest && ApiQuestions(up, r.value, quantity).Failure?
    decreases MaxRequest + 1 - k
  {
    if k > MaxRequest then None
    else if ApiQuestions(up, k, quantity).Failure? then Some(k)
    else FailedRetry(up, quantity, k + 1)
  }

  /**
   * Whether the replacement requests of the `while` loop of
   * app/main.py:96-141 end in a failure: with `outstanding` slots left after
   * the first pass, it makes up to `MaxRequest` of them.
   */
  predicate RetriesFail(up: Provider, outstanding: nat)
  {
    outstanding > 0 && FailedRetry(up, outstanding, 1).Some?
  }

  /**
   * The quantities of the replacement requests the loop makes: none when
   * the first pass filled every slot, otherwise `outstanding` each time, up
   * to and including the first that fails, or `MaxRequest` of them.
   */
  function Replacements(up: Provider, outstanding: nat): (f: seq<nat>)
    ensures |f| <= MaxRequest
    ensures f == [] <==> outstanding == 0
    ensures forall k :: 0 <= k < |f| ==> f[k] == outstanding
    ensures !RetriesFail(up, outstanding) && f != [] ==> |f| == MaxRequest
    ensures RetriesFail(up, outstanding) ==> ApiQuestions(up, |f|, outstanding).Failure?
  {
    if outstanding == 0 then []
    else
      match FailedRetry(up, outstanding, 1)
      case Some(k) => Repeat(outstanding, k)
      case None => Repeat(outstanding, MaxRequest)
  }

  /**
   * The variables of the `while` loop of app/main.py:96-141: the current
   * batch `questions`, `questions_checks`, `questions_count`, `count_retry`,
   * and what the loop has done so far: the rows queued with `session.add`,
   * the quantity of each replacement request, the ids looked up in the
   * table, and whether a replacement request failed (which raises out of
   * the loop).
   */
  datatype LoopState = LoopState(questions: seq<Candidate>, checks: set<int>, count: int, retry: nat,
                                 queued: seq<Question>, fetches: seq<nat>, lookups: seq<int>, failed: bool)

  /** The loop condition of app/main.py:96; a failed request has left the loop. */
  predicate Continues(s: LoopState)
  {
    !s.failed && MaxRequest > s.retry && s.count > 0
  }

  /**
   * One iteration of the loop (app/main.py:99-141) over the never-rebuilt
   * `ids`: a pass that stops at the first checked id, queueing the rows the
   * table lacks and lowering the count by them, then, when slots remain,
   * replacement request number `retry + 1` for that many questions.
   */
  function Iteration(rows: seq<Question>, ids: seq<int>, up: Provider, now: Timestamp, s: LoopState): (t: LoopState)
    ensures s.queued <= t.queued && s.lookups <= t.lookups
    ensures t.count <= s.count && |t.queued| + t.count == |s.queued| + s.count
    ensures t.count > 0 ==> t.retry == s.retry + 1 && t.fetches == s.fetches + [t.count]
    ensures t.count <= 0 ==> t.retry == s.retry && t.fetches == s.fetches && t.failed == s.failed
  {
    var n := PassLength(ids, s.checks);
    var queued := Queued(rows, s.questions, ids, n, now);
    var checks := s.checks + Marked(ids, n);
    var left := s.count - |queued|;
    var passed := s.(checks := checks, count := left, queued := s.queued + queued, lookups := s.lookups + ids[..n]);
    if left <= 0 then passed
    else
      match ApiQuestions(up, s.retry + 1, left)
      case Failure(_) => passed.(retry := s.retry + 1, fetches := s.fetches + [left], failed := true)
      case Success(batch) => passed.(questions := batch, retry := s.retry + 1, fetches := s.fetches + [left])
  }

  /** The loop run to its end from `s`. */
  function Run(rows: seq<Question>, ids: seq<int>, up: Provider, now: Timestamp, s: LoopState): (t: LoopState)
    ensures !Continues(t)
    ensures s.queued <= t.queued && s.lookups <= t.lookups && s.fetches <= t.fetches
    decreases MaxRequest - s.retry, s.count
  {
    if Continues(s) then Run(rows, ids, up, now, Iteration(rows, ids, up, now, s)) else s
  }

  /** The loop's variables on entry (app/main.py:84-93), on the first batch. */
  function Entry(batch: seq<Candidate>): LoopState
  {
    LoopState(batch, {}, |batch|, 0, [], [], [], false)
  }

  /**
   * The `with SessionLocal() as session` block (app/main.py:60-152) on the
   * first batch, under the intended reading of app/main.py:141: capture the
   * most recent row, queue the first pass's rows, then, while slots remain,
   * request that many replacements up to `MaxRequest` times. A failed
   * replacement request becomes status 500 and nothing is committed;
   * otherwise the queued rows are committed and the captured row returned.
   * `fetches` lists the replacement requests only.
   */
  function SessionBlock(rows: seq<Question>, batch: seq<Candidate>, up: Provider, now: Timestamp): (r: Outcome)
    ensures r.lookups == Scanned(batch)
    ensures r.fetches == Replacements(up, Outstanding(rows, batch, now))
    ensures r.response.Answer? || r.response == HttpError(ServerError)
    ensures r.response.HttpError? <==> RetriesFail(up, Outstanding(rows, batch, now))
    ensures r.response.HttpError? ==> r.rows == rows
    ensures r.response.Answer? ==> r.response.context == MostRecent(rows) && r.rows == rows + FirstPass(rows, batch, now)
  {
    var outstanding := Outstanding(rows, batch, now);
    if RetriesFail(up, outstanding) then
      Outcome(HttpError(ServerError), rows, Replacements(up, outstanding), Scanned(batch))
    else
      Outcome(Answer(MostRecent(rows)), rows + FirstPass(rows, batch, now), Replacements(up, outstanding), Scanned(batch))
  }

  /**
   * The same block as written: when slots remain after the first pass,
   * evaluating `len(questions_count)` raises a TypeError before any request
   * is made, and `except Exception` turns it into status 500 with nothing
   * committed.
   */
  function SessionBlockAsWritten(rows: seq<Question>, batch: seq<Candidate>, now: Timestamp): (r: Outcome)
    ensures r.lookups == Scanned(batch) && r.fetches == []
    ensures r.response.Answer? <==> Outstanding(rows, batch, now) == 0
    ensures r.response.Answer? ==> r.response.context == MostRecent(rows) && r.rows == rows + FirstPass(rows, batch, now)
    ensures !r.response.Answer? ==> r.response == HttpError(ServerError) && r.rows == rows
  {
    if Outstanding(rows, batch, now) == 0 then
      Outcome(Answer(MostRecent(rows)), rows + FirstPass(rows, batch, now), [], Scanned(batch))
    else
      Outcome(HttpError(ServerError), rows, [], Scanned(batch))
  }

  /**
   * The whole handler: reject a non-positive count before any work, clamp it,
   * make the first request outside the session (its failure surfaces its own
   * status and touches nothing), then run the session block.
   */
  function Handle(rows: seq<Question>, requested: int, up: Provider, now: Timestamp): (r: Outcome)
    ensures r.response.Rejected? <==> requested <= 0
    ensures requested <= 0 ==> r.rows == rows && r.fetches == [] && r.lookups == []
    ensures requested > 0 ==> 1 <= |r.fetches| <= 1 + MaxRequest && r.fetches[0] == Clamp(requested)
    ensures requested > 0 && ApiQuestions(up, 0, Clamp(requested)).Failure? ==>
      r == Outcome(HttpError(ApiQuestions(up, 0, Clamp(requested)).error), rows, [Clamp(requested)], [])
    ensures r.response.HttpError? ==> r.response.status in {ServerError, GatewayTimeout}
    ensures r.response.Answer? ==> r.response.context == MostRecent(rows) && rows <= r.rows
    ensures !r.response.Answer? ==> r.rows == rows
  {
    if requested <= 0 then Outcome(Rejected, rows, [], [])
    else
      var n := Clamp(requested);
      match ApiQuestions(up, 0, n)
      case Failure(status) => Outcome(HttpError(status), rows, [n], [])
      case Success(batch) =>
        var s := SessionBlock(rows, batch, up, now);
        Outcome(s.response, s.rows, [n] + s.fetches, s.lookups)
  }
}
