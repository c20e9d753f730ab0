/**
 * `get_questions` (app/main.py:43-155) step by step: the clamp, the first
 * request, the session with its capture of the previous row, the retry loop
 * over `questions_ids` with the set of checked ids, and the single commit.
 * The body of the `for` loop and the `for` loop itself are the methods
 * `SaveIfUnique` and `CheckBatch`; `GetQuestions` holds the `while` loop.
 */
module Service {
  import opened Wrappers
  import opened QuestionStore
  import opened Upstream
  import opened Handler
  import opened HandlerProperties

  /**
   * One id of the scan (app/main.py:109-132): look it up among the committed
   * rows and, when it is absent, queue the row built from the first candidate
   * of `questions` with that id. `saved` tells whether a row was queued.
   */
  method SaveIfUnique(session: Session, questions: seq<Candidate>, questionId: int, now: Timestamp)
    returns (saved: bool)
    modifies session
    ensures session.pending == old(session.pending) + Step(session.db.rows, questions, questionId, now)
    ensures saved <==> |session.pending| == |old(session.pending)| + 1
  {
    saved := false;
    // the session does not flush, so the lookup sees committed rows only
    var questionBase := Lookup(session.db.rows, questionId);
    if questionBase.None? {
      var j := 0;
      while j < |questions|
        invariant 0 <= j <= |questions|
        invariant session.pending == old(session.pending) && !saved
        invariant forall k :: 0 <= k < j ==> questions[k].id != questionId
      {
        if questions[j].id == questionId {
          FirstWithAt(questions, j);
          session.Add(MakeRow(questions[j], now));
          saved := true;
          break;
        }
        j := j + 1;
      }
    }
  }

  /**
   * One pass of the `for` loop of app/main.py:99-132 over `questionsIds`,
   * saving from the current batch `questions`: it stops at the first id
   * already checked, marks and looks up every id before it, and queues a
   * row for each of those the table lacks. `saved` is the number of rows
   * queued, by which the caller lowers `questions_count`.
   */
  method CheckBatch(session: Session, questionsIds: seq<int>, questions: seq<Candidate>, checks: set<int>, now: Timestamp)
    returns (checked: set<int>, saved: nat, ghost looked: seq<int>)
    modifies session
    ensures looked == questionsIds[..PassLength(questionsIds, checks)]
    ensures checked == checks + Marked(questionsIds, PassLength(questionsIds, checks))
    ensures session.pending == old(session.pending) + Queued(session.db.rows, questions, questionsIds, PassLength(questionsIds, checks), now)
    ensures saved == |Queued(session.db.rows, questions, questionsIds, PassLength(questionsIds, checks), now)|
  {
    checked, saved := checks, 0;
    ghost var rows := session.db.rows;
    var i := 0;
    // the `break` of app/main.py:105-106 is the second conjunct of the guard
    while i < |questionsIds| && questionsIds[i] !in checked
      invariant 0 <= i <= |questionsIds|
      invariant PassFrom(questionsIds, checked, i) == PassLength(questionsIds, checks)
      invariant checked == checks + Marked(questionsIds, i)
      invariant session.db.rows == rows
      invariant session.pending == old(session.pending) + Queued(rows, questions, questionsIds, i, now)
      invariant saved == |session.pending| - |old(session.pending)|
    {
      var questionId := questionsIds[i];
      checked := checked + {questionId};
      var unique := SaveIfUnique(session, questions, questionId, now);
      if unique {
        saved := saved + 1;
      }
      i := i + 1;
    }
    looked := questionsIds[..i];
  }

  /**
   * One iteration of the `while` loop (app/main.py:99-141): the pass of
   * `CheckBatch`, the count lowered by the rows it queued, then, when slots
   * remain, replacement request number `countRetry + 1` for
   * `questionsCount` questions (the evident intent of app/main.py:141; as
   * written that line raises a TypeError, see `SessionBlockAsWritten`).
   * `failed` tells that the request failed, which raises out of the loop.
   * The ghost `fetches` and `lookups` record the quantity of each
   * replacement request and each id looked up in the table.
   */
  method Iterate(session: Session, questionsIds: seq<int>, questions: seq<Candidate>, questionsChecks: set<int>,
                 questionsCount: int, countRetry: nat, up: Provider, now: Timestamp,
                 ghost fetches: seq<nat>, ghost lookups: seq<int>)
    returns (batch: seq<Candidate>, checks: set<int>, count: int, retry: nat, failed: bool,
             ghost fetched: seq<nat>, ghost looked: seq<int>)
    modifies session
    ensures LoopState(batch, checks, count, retry, session.pending, fetched, looked, failed) ==
      Iteration(session.db.rows, questionsIds, up, now,
                LoopState(questions, questionsChecks, questionsCount, countRetry, old(session.pending), fetches, lookups, false))
  {
    var saved;
    ghost var scanned;
    checks, saved, scanned := CheckBatch(session, questionsIds, questions, questionsChecks, now);
    batch, count, retry, failed, fetched, looked := questions, questionsCount - saved, countRetry, false, fetches, lookups + scanned;
    if count > 0 {
      retry := retry + 1;
      var retried := ApiQuestions(up, retry, count);
      fetched := fetched + [count];
      if retried.Failure? {
        failed := true;
      } else {
        batch := retried.value;
      }
    }
  }

  /**
   * The retry loop of app/main.py:84-141 inside the session: the ids of the
   * first batch `fetched`, the counters, and the `while` loop, which stops
   * when the count is met, after `MaxRequest` replacement requests, or when
   * one fails. The result is the loop run to its end as `Run` takes it.
   */
  method RetryLoop(session: Session, fetched: seq<Candidate>, up: Provider, now: Timestamp)
    returns (failed: bool, ghost fetches: seq<nat>, ghost lookups: seq<int>)
    requires session.pending == []
    modifies session
    ensures var t := Run(session.db.rows, Ids(fetched), up, now, Entry(fetched));
      session.pending == t.queued && fetches == t.fetches && lookups == t.lookups && failed == t.failed
  {
    ghost var rows := session.db.rows;
    failed, fetches, lookups := false, [], [];
    var questions := fetched;
    var questionsIds := Ids(questions);
    var countRetry := 0;
    var questionsCount := |questionsIds|;
    var questionsChecks: set<int> := {};
    ghost var whole := Run(rows, questionsIds, up, now, Entry(fetched));

    // `failed` stands for the exception a failed request raises out of the loop
    while !failed && MaxRequest > countRetry && questionsCount > 0
      invariant session.db.rows == rows
      invariant Run(rows, questionsIds, up, now, LoopState(questions, questionsChecks, questionsCount, countRetry,
                                                           session.pending, fetches, lookups, failed)) == whole
      decreases MaxRequest - countRetry, questionsCount
    {
      questions, questionsChecks, questionsCount, countRetry, failed, fetches, lookups :=
        Iterate(session, questionsIds, questions, questionsChecks, questionsCount, countRetry, up, now, fetches, lookups);
    }
  }

  /**
   * The `with SessionLocal() as session` block (app/main.py:60-152) on the
   * first batch `fetched`: capture the most recent row, run the retry loop,
   * then commit the queued rows once, or, when the loop raised, answer
   * status 500 and leave the table alone.
   */
  method RunSession(db: Database, fetched: seq<Candidate>, up: Provider, now: Timestamp)
    returns (response: Response, ghost fetches: seq<nat>, ghost lookups: seq<int>)
    modifies db
    ensures Outcome(response, db.rows, fetches, lookups) == SessionBlock(old(db.rows), fetched, up, now)
  {
    var session := new Session(db);
    var context := MostRecent(session.db.rows);
    var failed;
    failed, fetches, lookups := RetryLoop(session, fetched, up, now);
    RunFromEntry(db.rows, fetched, up, now);
    if failed {
      session.Close();
      return HttpError(ServerError), fetches, lookups;
    }
    session.Commit();
    session.Close();
    response := Answer(context);
  }

  /**
   * Handle one request for `requested` questions against the table `db`
   * (app/main.py:43-155). `fetches` and `lookups` record the quantity of
   * each provider request and each id looked up in the table; together with
   * the response and the new table they are exactly what `Handle` says.
   */
  method GetQuestions(db: Database, requested: int, up: Provider, now: Timestamp)
    returns (response: Response, ghost fetches: seq<nat>, ghost lookups: seq<int>)
    modifies db
    ensures Outcome(response, db.rows, fetches, lookups) == Handle(old(db.rows), requested, up, now)
  {
    fetches, lookups := [], [];
    // QuestionRequest: questions_number = Field(..., gt=0)
    if requested <= 0 {
      return Rejected, fetches, lookups;
    }
    var questionsNumbers := requested;
    if questionsNumbers > QuestionsLimit {
      questionsNumbers := QuestionsLimit;
    }
    var questions := ApiQuestions(up, 0, questionsNumbers);
    fetches := [questionsNumbers];
    if questions.Failure? {
      return HttpError(questions.error), fetches, lookups;
    }
    ghost var retries;
    response, retries, lookups := RunSession(db, questions.value, up, now);
    fetches := fetches + retries;
  }
}
