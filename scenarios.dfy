/**
 * Whole invocations: an empty table, a provider that only returns ids the
 * table holds, the bound on the quantities requested, and concrete runs that
 * show the consequences of the never-rebuilt id list, of the `break` at the
 * first checked id, and of the crash at app/main.py:141.
 */
module Scenarios {
  import opened Wrappers
  import opened QuestionStore
  import opened Upstream
  import opened Handler
  import opened HandlerProperties
  import opened DedupProperties

  /** A pass over distinct, unchecked ids runs to the end of the list. */
  lemma {:induction false} PassFromDistinct(ids: seq<int>, checked: set<int>, i: nat)
    requires i <= |ids| && Distinct(ids)
    requires forall k :: i <= k < |ids| ==> ids[k] !in checked
    ensures PassFrom(ids, checked, i) == |ids|
    decreases |ids| - i
  {
    if i < |ids| {
      PassFromDistinct(ids, checked + {ids[i]}, i + 1);
    }
  }

  /** Against an empty table, checking distinct ids queues one row per candidate, in order. */
  lemma {:induction false} QueuedFresh(batch: seq<Candidate>, n: nat, now: Timestamp)
    requires n <= |batch| && Distinct(Ids(batch))
    ensures |Queued([], batch, Ids(batch), n, now)| == n
    ensures forall k :: 0 <= k < n ==> Queued([], batch, Ids(batch), n, now)[k] == MakeRow(batch[k], now)
  {
    if n > 0 {
      QueuedFresh(batch, n - 1, now);
      var id := Ids(batch)[n - 1];
      assert forall k :: 0 <= k < n - 1 ==> batch[k].id != batch[n - 1].id by {
        assert forall k :: 0 <= k < n - 1 ==> Ids(batch)[k] == batch[k].id && Ids(batch)[k] != id;
      }
      FirstWithAt(batch, n - 1);
      assert Lookup([], id) == None;
      var p := Queued([], batch, Ids(batch), n - 1, now);
      var q := Queued([], batch, Ids(batch), n, now);
      assert q == p + [MakeRow(batch[n - 1], now)];
      forall k | 0 <= k < n
        ensures q[k] == MakeRow(batch[k], now)
      {
        if k < n - 1 {
          assert q[k] == p[k];
        }
      }
    }
  }

  /** Against an empty table, the first pass over distinct ids scans and stores the whole batch. */
  lemma FreshFirstPass(batch: seq<Candidate>, now: Timestamp)
    requires Distinct(Ids(batch))
    ensures Scanned(batch) == Ids(batch)
    ensures |FirstPass([], batch, now)| == |batch|
    ensures forall k :: 0 <= k < |batch| ==> FirstPass([], batch, now)[k] == MakeRow(batch[k], now)
  {
    PassFromDistinct(Ids(batch), {}, 0);
    QueuedFresh(batch, |batch|, now);
  }

  /**
   * An empty table and a first batch with distinct ids: the answer is the
   * empty context, every candidate is stored in order, no replacement is
   * requested, and every id is looked up.
   */
  lemma FreshStore(requested: int, up: Provider, now: Timestamp, batch: seq<Candidate>)
    requires requested > 0 && ApiQuestions(up, 0, Clamp(requested)) == Success(batch) && Distinct(Ids(batch))
    ensures Handle([], requested, up, now).response == Answer(NoPrior)
    ensures |Handle([], requested, up, now).rows| == |batch|
    ensures forall k :: 0 <= k < |batch| ==> Handle([], requested, up, now).rows[k] == MakeRow(batch[k], now)
    ensures Handle([], requested, up, now).fetches == [Clamp(requested)]
    ensures Handle([], requested, up, now).lookups == Ids(batch)
  {
    FreshFirstPass(batch, now);
    FilledOutcome([], requested, up, now, batch);
  }

  /** When the first pass fills every slot, the call commits that pass and makes no replacement request. */
  lemma FilledOutcome(rows: seq<Question>, requested: int, up: Provider, now: Timestamp, batch: seq<Candidate>)
    requires requested > 0 && ApiQuestions(up, 0, Clamp(requested)) == Success(batch)
    requires |FirstPass(rows, batch, now)| == |batch|
    ensures Handle(rows, requested, up, now) ==
      Outcome(Answer(MostRecent(rows)), rows + FirstPass(rows, batch, now), [Clamp(requested)], Scanned(batch))
  {
    assert Outstanding(rows, batch, now) == 0;
    assert Replacements(up, 0) == [];
    assert [Clamp(requested)] + [] == [Clamp(requested)];
  }

  /**
   * The converse of `FreshStore`: against an empty table, a first batch
   * that repeats an id leaves slots open, because the pass stops at the
   * repeat (app/main.py:102-103).
   */
  lemma RepeatLeavesSlots(batch: seq<Candidate>, now: Timestamp)
    requires !Distinct(Ids(batch))
    ensures |FirstPass([], batch, now)| < |batch|
  {
    ScanLengthStops(Ids(batch));
    FirstScan([], batch, now);
  }

  /** A first batch that holds only ids the table has queues nothing. */
  lemma NothingNew(rows: seq<Question>, batch: seq<Candidate>, now: Timestamp)
    requires forall k :: 0 <= k < |batch| ==> batch[k].id in StoredIds(rows)
    ensures FirstPass(rows, batch, now) == []
  {
    FirstScan(rows, batch, now);
    var n := |Scanned(batch)|;
    QueuedRows(rows, batch, Ids(batch), n, now);
    assert |FirstPass(rows, batch, now)| > 0 ==> FirstPass(rows, batch, now)[0].questionId in StoredIds(rows);
  }

  /**
   * A provider whose first batch holds only ids the table has, and whose
   * replacement requests all succeed: nothing is stored, exactly
   * `MaxRequest` replacements are requested, each for the whole batch
   * size, and the invocation still answers with the previous row.
   */
  lemma AllStored(rows: seq<Question>, requested: int, up: Provider, now: Timestamp, batch: seq<Candidate>)
    requires requested > 0 && ApiQuestions(up, 0, Clamp(requested)) == Success(batch) && |batch| > 0
    requires forall k :: 0 <= k < |batch| ==> batch[k].id in StoredIds(rows)
    requires forall call: nat :: 1 <= call <= MaxRequest ==> ApiQuestions(up, call, |batch|).Success?
    ensures Handle(rows, requested, up, now) ==
      Outcome(Answer(MostRecent(rows)), rows, [Clamp(requested)] + Repeat(|batch|, MaxRequest), Scanned(batch))
  {
    NothingNew(rows, batch, now);
    assert Outstanding(rows, batch, now) == |batch|;
    assert FailedRetry(up, |batch|, 1).None?;
    assert rows + [] == rows;
  }

  /**
   * When the first batch is no larger than the clamped count, no request of
   * the invocation asks for more than the clamped count, which is at most
   * `QuestionsLimit`.
   */
  lemma FetchesBounded(rows: seq<Question>, requested: int, up: Provider, now: Timestamp, batch: seq<Candidate>)
    requires requested > 0 && ApiQuestions(up, 0, Clamp(requested)) == Success(batch) && |batch| <= Clamp(requested)
    ensures Clamp(requested) <= QuestionsLimit
    ensures forall k :: 0 <= k < |Handle(rows, requested, up, now).fetches| ==>
      Handle(rows, requested, up, now).fetches[k] <= Clamp(requested)
  {
    var f := Replacements(up, Outstanding(rows, batch, now));
    assert Handle(rows, requested, up, now).fetches == [Clamp(requested)] + f;
    assert forall k :: 1 <= k <= |f| ==> ([Clamp(requested)] + f)[k] == f[k - 1];
  }

  const CandidateA := Candidate(1, "question A", "answer A", 10)
  const CandidateB := Candidate(2, "question B", "answer B", 11)
  const CandidateC := Candidate(3, "question C", "answer C", 12)
  const CandidateD := Candidate(4, "question D", "answer D", 13)

  /** A table holding ids 1 and 2, stored at local times 1 and 2. */
  const StoredAB := [MakeRow(CandidateA, 1), MakeRow(CandidateB, 2)]

  /** A provider that first returns the ids 1 and 3 and then, on every replacement request, the id 4. */
  function ThenD(): Provider
  {
    (call: nat, quantity: nat) =>
      if call == 0 then Received(StatusOk, [CandidateA, CandidateC]) else Received(StatusOk, [CandidateD])
  }

  /** No replacement request of the example fails. */
  lemma ThenDNeverFails()
    ensures FailedRetry(ThenD(), 1, 1) == None
  {
    assert FailedRetry(ThenD(), 1, 5) == None;
    assert FailedRetry(ThenD(), 1, 3) == None;
  }

  /**
   * Table {1, 2}, first batch [1, 3], replacement batches [4], two
   * questions asked: id 1 is looked up and skipped, id 3 is stored, and the
   * one slot left is asked for `MaxRequest` times, because the replacement
   * batches are never examined: every later pass stops at id 1, which the
   * first pass already checked (app/main.py:84, 99-106).
   */
  lemma StaleIdsExample(now: Timestamp)
    ensures Handle(StoredAB, 2, ThenD(), now) ==
      Outcome(Answer(Previous(2, StoredAB[1])), StoredAB + [MakeRow(CandidateC, now)], [2, 1, 1, 1, 1, 1], [1, 3])
  {
    var batch := [CandidateA, CandidateC];
    assert ApiQuestions(ThenD(), 0, 2) == Success(batch);
    assert Ids(batch) == [1, 3];
    assert ScanLength([1, 3]) == 2 by {
      assert PassFrom([1, 3], {1}, 1) == 2;
    }
    assert Lookup(StoredAB, 1).Some?;
    assert Lookup(StoredAB, 3) == None by {
      assert LookupFrom(StoredAB, 3, 1) == None;
    }
    assert FirstWith(batch, 3) == Some(CandidateC);
    assert FirstPass(StoredAB, batch, now) == [MakeRow(CandidateC, now)] by {
      assert Queued(StoredAB, batch, [1, 3], 1, now) == [];
    }
    ThenDNeverFails();
    assert Replacements(ThenD(), 1) == [1, 1, 1, 1, 1];
  }

  /**
   * The session block as written on the same table and first batch: the
   * slot left after the first pass sends it to `len(questions_count)`,
   * which raises, so id 3 is not stored and the caller gets status 500,
   * where the intended reading stores id 3 and answers with row 2.
   */
  lemma RetryLineCrash(now: Timestamp)
    ensures SessionBlockAsWritten(StoredAB, [CandidateA, CandidateC], now) ==
      Outcome(HttpError(ServerError), StoredAB, [], [1, 3])
    ensures SessionBlock(StoredAB, [CandidateA, CandidateC], ThenD(), now).response == Answer(Previous(2, StoredAB[1]))
    ensures SessionBlock(StoredAB, [CandidateA, CandidateC], ThenD(), now).rows == StoredAB + [MakeRow(CandidateC, now)]
  {
    StaleIdsExample(now);
  }

  /**
   * The two readings of app/main.py:141 agree exactly when the first pass
   * fills every slot; otherwise the literal one fails with status 500 and
   * stores nothing.
   */
  lemma AsWrittenAgreesWithoutRetry(rows: seq<Question>, batch: seq<Candidate>, up: Provider, now: Timestamp)
    ensures Outstanding(rows, batch, now) == 0 ==> SessionBlockAsWritten(rows, batch, now) == SessionBlock(rows, batch, up, now)
    ensures Outstanding(rows, batch, now) > 0 ==>
      SessionBlockAsWritten(rows, batch, now) == Outcome(HttpError(ServerError), rows, [], Scanned(batch))
  {
  }

  /** A first batch that repeats id 1 before id 3, then replacement batches [4]. */
  function RepeatsFirst(): Provider
  {
    (call: nat, quantity: nat) =>
      if call == 0 then Received(StatusOk, [CandidateA, CandidateA, CandidateC]) else Received(StatusOk, [CandidateD])
  }

  /**
   * Empty table, first batch [1, 1, 3], three questions asked: the pass
   * stores id 1 and stops at its repeat, so id 3 is never looked up and two
   * slots stay open through `MaxRequest` replacement requests
   * (app/main.py:102-103).
   */
  lemma RepeatStopsScan(now: Timestamp)
    ensures Handle([], 3, RepeatsFirst(), now) ==
      Outcome(Answer(NoPrior), [MakeRow(CandidateA, now)], [3, 2, 2, 2, 2, 2], [1])
  {
    var batch := [CandidateA, CandidateA, CandidateC];
    assert ApiQuestions(RepeatsFirst(), 0, 3) == Success(batch);
    assert Ids(batch) == [1, 1, 3];
    assert ScanLength([1, 1, 3]) == 1 by {
      assert PassFrom([1, 1, 3], {1}, 1) == 1;
    }
    assert FirstWith(batch, 1) == Some(CandidateA);
    assert FirstPass([], batch, now) == [MakeRow(CandidateA, now)];
    assert FailedRetry(RepeatsFirst(), 2, 5) == None;
    assert FailedRetry(RepeatsFirst(), 2, 3) == None;
    assert Replacements(RepeatsFirst(), 2) == [2, 2, 2, 2, 2];
  }
}
