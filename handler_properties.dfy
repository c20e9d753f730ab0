/** Properties of the handler model: what the scan queues, what a call leaves in the table, and the two defects. */
module HandlerProperties {
  import opened Wrappers
  import opened QuestionStore
  import opened Upstream
  import opened Handler

  /** The inner search (app/main.py:115-116) stops at the first candidate carrying the id. */
  lemma FirstWithAt(batch: seq<Candidate>, j: nat)
    requires j < |batch|
    requires forall k :: 0 <= k < j ==> batch[k].id != batch[j].id
    ensures FirstWith(batch, batch[j].id) == Some(batch[j])
  {
    FirstFromAt(batch, 0, j);
  }

  lemma {:induction false} FirstFromAt(batch: seq<Candidate>, i: nat, j: nat)
    requires i <= j < |batch|
    requires forall k :: i <= k < j ==> batch[k].id != batch[j].id
    ensures FirstFrom(batch, batch[j].id, i) == Some(batch[j])
    decreases j - i
  {
    if i < j {
      FirstFromAt(batch, i + 1, j);
    }
  }

  /**
   * A pass from position `i` checks each id it reaches: none of them was
   * checked before the pass or earlier in it, and it stops at an id that was.
   */
  lemma {:induction false} PassFromStops(ids: seq<int>, checked: set<int>, i: nat)
    requires i <= |ids|
    ensures var k := PassFrom(ids, checked, i);
      (forall m :: i <= m < k ==> ids[m] !in checked) &&
      (forall m, j :: i <= j < m < k ==> ids[j] != ids[m]) &&
      (k < |ids| ==> ids[k] in checked || ids[k] in ids[i..k])
    decreases |ids| - i
  {
    if i < |ids| && ids[i] !in checked {
      PassFromStops(ids, checked + {ids[i]}, i + 1);
      var k := PassFrom(ids, checked, i);
      assert k < |ids| && ids[k] == ids[i] ==> ids[k] in ids[i..k] by {
        if k < |ids| && ids[k] == ids[i] {
          assert ids[i..k][0] == ids[i];
        }
      }
      assert k < |ids| && ids[k] in ids[i + 1..k] ==> ids[k] in ids[i..k] by {
        assert i < k ==> ids[i..k] == [ids[i]] + ids[i + 1..k];
      }
    }
  }

  /**
   * The first pass looks each id up at most once and stops at the first id
   * equal to an earlier one (app/main.py:99-106).
   */
  lemma ScanLengthStops(ids: seq<int>)
    ensures ScanLength(ids) <= |ids|
    ensures Distinct(ids[..ScanLength(ids)])
    ensures ScanLength(ids) < |ids| ==> ids[ScanLength(ids)] in ids[..ScanLength(ids)]
  {
    PassFromStops(ids, {}, 0);
    assert ids[0..ScanLength(ids)] == ids[..ScanLength(ids)];
  }

  /** What the loop of `get_questions` needs of the first pass over the first batch's ids. */
  lemma FirstScan(rows: seq<Question>, batch: seq<Candidate>, now: Timestamp)
    ensures PassLength(Ids(batch), {}) == |Scanned(batch)|
    ensures Ids(batch)[..|Scanned(batch)|] == Scanned(batch)
    ensures Queued(rows, batch, Ids(batch), |Scanned(batch)|, now) == FirstPass(rows, batch, now)
    ensures |batch| > 0 ==> |Scanned(batch)| > 0
  {
  }

  /** A pass whose first id is already checked looks at nothing (app/main.py:103-106). */
  lemma LaterScan(ids: seq<int>, checks: set<int>)
    requires |ids| > 0 && ids[0] in checks
    ensures PassLength(ids, checks) == 0
  {
  }

  /** `FailedRetry` finds the first failure: every request before it succeeds, and with no failure all do. */
  lemma {:induction false} FailedRetryFirst(up: Provider, quantity: nat, k: nat)
    requires 1 <= k
    ensures FailedRetry(up, quantity, k).Some? ==>
      forall j: nat :: k <= j < FailedRetry(up, quantity, k).value ==> ApiQuestions(up, j, quantity).Success?
    ensures FailedRetry(up, quantity, k).None? ==>
      forall j: nat :: k <= j <= MaxRequest ==> ApiQuestions(up, j, quantity).Success?
    decreases MaxRequest + 1 - k
  {
    if k <= MaxRequest && ApiQuestions(up, k, quantity).Success? {
      FailedRetryFirst(up, quantity, k + 1);
    }
  }

  /**
   * A later iteration (its pass stops at once on the checked first id)
   * queues and looks up nothing and only makes the next replacement request
   * for the same count (app/main.py:99-103, 135-141).
   */
  lemma LaterIteration(rows: seq<Question>, ids: seq<int>, up: Provider, now: Timestamp, s: LoopState)
    requires |ids| > 0 && ids[0] in s.checks && Continues(s)
    ensures Iteration(rows, ids, up, now, s) ==
      s.(questions := if ApiQuestions(up, s.retry + 1, s.count).Success? then ApiQuestions(up, s.retry + 1, s.count).value else s.questions,
         retry := s.retry + 1, fetches := s.fetches + [s.count], failed := ApiQuestions(up, s.retry + 1, s.count).Failure?)
  {
    LaterScan(ids, s.checks);
    assert s.checks + Marked(ids, 0) == s.checks;
    assert s.queued + [] == s.queued && s.lookups + ids[..0] == s.lookups;
  }

  /**
   * Every pass after the first stops at once (the first id of the
   * never-rebuilt list is checked), so each later iteration only repeats the
   * replacement request for the same count, until one fails or `MaxRequest`
   * have been made.
   */
  lemma {:induction false} LaterIterations(rows: seq<Question>, ids: seq<int>, up: Provider, now: Timestamp, s: LoopState)
    requires |ids| > 0 && ids[0] in s.checks
    requires !s.failed && s.count > 0 && 1 <= s.retry <= MaxRequest
    requires s.fetches == Repeat(s.count, s.retry)
    ensures var t := Run(rows, ids, up, now, s);
      t.queued == s.queued && t.lookups == s.lookups &&
      match FailedRetry(up, s.count, s.retry + 1)
      case Some(k) => t.failed && t.fetches == Repeat(s.count, k)
      case None => !t.failed && t.fetches == Repeat(s.count, MaxRequest)
    decreases MaxRequest - s.retry
  {
    if s.retry < MaxRequest {
      LaterIteration(rows, ids, up, now, s);
      if ApiQuestions(up, s.retry + 1, s.count).Success? {
        LaterIterations(rows, ids, up, now, Iteration(rows, ids, up, now, s));
      }
    }
  }

  /**
   * The loop run from its entry state does what `SessionBlock` says: the
   * first pass queues every row, looks up the scanned ids, and leaves
   * `Outstanding` slots, for which the replacement requests are repeated
   * until one fails or `MaxRequest` have been made.
   */
  lemma RunFromEntry(rows: seq<Question>, batch: seq<Candidate>, up: Provider, now: Timestamp)
    ensures var t := Run(rows, Ids(batch), up, now, Entry(batch));
      var outstanding := Outstanding(rows, batch, now);
      t.queued == FirstPass(rows, batch, now) && t.lookups == Scanned(batch) &&
      t.fetches == Replacements(up, outstanding) && t.failed == RetriesFail(up, outstanding)
  {
    FirstScan(rows, batch, now);
    var ids := Ids(batch);
    var outstanding := Outstanding(rows, batch, now);
    if |batch| > 0 {
      var first := Iteration(rows, ids, up, now, Entry(batch));
      if outstanding > 0 && ApiQuestions(up, 1, outstanding).Success? {
        LaterIterations(rows, ids, up, now, first);
      }
    }
  }

  /**
   * The counters of the loop: the rows queued plus `questions_count` stay
   * constant, `count_retry` grows by one with each replacement request and
   * never passes `MaxRequest`, and a failure is left only after a request
   * for a positive count (app/main.py:90, 96, 124-141).
   */
  lemma {:induction false} RunCounters(rows: seq<Question>, ids: seq<int>, up: Provider, now: Timestamp, s: LoopState)
    requires s.retry <= MaxRequest
    ensures |Run(rows, ids, up, now, s).queued| + Run(rows, ids, up, now, s).count == |s.queued| + s.count
    ensures Run(rows, ids, up, now, s).retry - s.retry == |Run(rows, ids, up, now, s).fetches| - |s.fetches|
    ensures s.retry <= Run(rows, ids, up, now, s).retry <= MaxRequest
    ensures Run(rows, ids, up, now, s).failed ==> s.failed || Run(rows, ids, up, now, s).count > 0
    decreases MaxRequest - s.retry, s.count
  {
    if Continues(s) {
      RunCounters(rows, ids, up, now, Iteration(rows, ids, up, now, s));
    }
  }

  /**
   * From the loop's entry on a batch: `questions_count` ends between 0 and
   * the batch length, with the queued rows making up the difference;
   * `count_retry` ends at most `MaxRequest` and counts the replacement
   * requests; the loop stops with slots left only after `MaxRequest`
   * requests or a failed one.
   */
  lemma LoopCounters(rows: seq<Question>, batch: seq<Candidate>, up: Provider, now: Timestamp)
    ensures |Run(rows, Ids(batch), up, now, Entry(batch)).queued| + Run(rows, Ids(batch), up, now, Entry(batch)).count == |batch|
    ensures 0 <= Run(rows, Ids(batch), up, now, Entry(batch)).count <= |batch|
    ensures Run(rows, Ids(batch), up, now, Entry(batch)).retry == |Run(rows, Ids(batch), up, now, Entry(batch)).fetches| <= MaxRequest
    ensures Run(rows, Ids(batch), up, now, Entry(batch)).count > 0 ==>
      Run(rows, Ids(batch), up, now, Entry(batch)).failed || Run(rows, Ids(batch), up, now, Entry(batch)).retry == MaxRequest
    ensures Run(rows, Ids(batch), up, now, Entry(batch)).failed ==> Run(rows, Ids(batch), up, now, Entry(batch)).count > 0
  {
    RunCounters(rows, Ids(batch), up, now, Entry(batch));
    RunFromEntry(rows, batch, up, now);
  }
}
