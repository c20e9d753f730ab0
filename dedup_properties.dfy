/**
 * What one invocation adds to the table: only rows for ids the table lacks,
 * one per scanned id, each built from the first candidate with that id; and
 * what it looks up: each id at most once.
 */
module DedupProperties {
  import opened Wrappers
  import opened QuestionStore
  import opened Upstream
  import opened Handler
  import opened HandlerProperties

  /** The inner search (app/main.py:115-116) returns the first candidate carrying the id. */
  lemma {:induction false} FirstFromIsFirst(batch: seq<Candidate>, id: int, i: nat)
    requires i <= |batch| && FirstFrom(batch, id, i).Some?
    ensures exists k :: i <= k < |batch| && batch[k] == FirstFrom(batch, id, i).value &&
                        forall j :: i <= j < k ==> batch[j].id != id
    decreases |batch| - i
  {
    if batch[i].id != id {
      FirstFromIsFirst(batch, id, i + 1);
    }
  }

  /**
   * Checking one id (app/main.py:109-130) queues at most one row: none when
   * the table has the id or no candidate carries it, and otherwise the row
   * built from the first candidate that does.
   */
  lemma StepQueues(rows: seq<Question>, batch: seq<Candidate>, id: int, now: Timestamp)
    ensures var s := Step(rows, batch, id, now);
      |s| <= 1 &&
      (s == [] <==> id in StoredIds(rows) || forall k :: 0 <= k < |batch| ==> batch[k].id != id) &&
      (s != [] ==> exists k :: 0 <= k < |batch| && batch[k].id == id && s[0] == MakeRow(batch[k], now) &&
                               forall j :: 0 <= j < k ==> batch[j].id != id)
  {
    if FirstWith(batch, id).Some? {
      FirstFromIsFirst(batch, id, 0);
    }
  }

  /** Checking a new id that some candidate carries queues the row built from the first such candidate. */
  lemma StepNew(rows: seq<Question>, batch: seq<Candidate>, id: int, now: Timestamp)
    requires id !in StoredIds(rows) && FirstWith(batch, id).Some?
    ensures Step(rows, batch, id, now) == [MakeRow(FirstWith(batch, id).value, now)]
  {
  }

  /** A row that is new to the table and built from the first candidate with its id. */
  predicate NewRow(rows: seq<Question>, batch: seq<Candidate>, now: Timestamp, q: Question)
  {
    q.questionId !in StoredIds(rows) && FirstWith(batch, q.questionId).Some? &&
    q == MakeRow(FirstWith(batch, q.questionId).value, now)
  }

  /**
   * The rows queued by checking `ids[..n]`: each carries one of those ids,
   * is new to the table and is built from the first candidate with its id.
   */
  lemma {:induction false} QueuedRows(rows: seq<Question>, batch: seq<Candidate>, ids: seq<int>, n: nat, now: Timestamp)
    requires n <= |ids|
    ensures forall m :: 0 <= m < |Queued(rows, batch, ids, n, now)| ==>
      Queued(rows, batch, ids, n, now)[m].questionId in ids[..n] && NewRow(rows, batch, now, Queued(rows, batch, ids, n, now)[m])
  {
    if n > 0 {
      QueuedRows(rows, batch, ids, n - 1, now);
      var p := Queued(rows, batch, ids, n - 1, now);
      var s := Step(rows, batch, ids[n - 1], now);
      var q := Queued(rows, batch, ids, n, now);
      assert q == p + s;
      assert forall x :: x in ids[..n - 1] ==> x in ids[..n] by {
        assert ids[..n] == ids[..n - 1] + [ids[n - 1]];
      }
      if s != [] {
        StepNew(rows, batch, ids[n - 1], now);
        assert ids[n - 1] in ids[..n] by {
          assert ids[..n][n - 1] == ids[n - 1];
        }
      }
      forall m | 0 <= m < |q|
        ensures q[m].questionId in ids[..n] && NewRow(rows, batch, now, q[m])
      {
        if m < |p| {
          assert q[m] == p[m];
        } else {
          assert q[m] == s[0];
        }
      }
    }
  }

  /** When the checked ids are distinct, so are the ids of the rows queued for them. */
  lemma {:induction false} QueuedUnique(rows: seq<Question>, batch: seq<Candidate>, ids: seq<int>, n: nat, now: Timestamp)
    requires n <= |ids| && Distinct(ids[..n])
    ensures UniqueIds(Queued(rows, batch, ids, n, now))
  {
    if n > 0 {
      assert forall k :: 0 <= k < n - 1 ==> ids[..n - 1][k] == ids[..n][k];
      QueuedUnique(rows, batch, ids, n - 1, now);
      QueuedRows(rows, batch, ids, n - 1, now);
      var p := Queued(rows, batch, ids, n - 1, now);
      var s := Step(rows, batch, ids[n - 1], now);
      var q := Queued(rows, batch, ids, n, now);
      assert q == p + s;
      assert ids[n - 1] !in ids[..n - 1] by {
        assert ids[..n][n - 1] == ids[n - 1];
      }
      if s != [] {
        StepNew(rows, batch, ids[n - 1], now);
        forall i, j | 0 <= i < j < |q|
          ensures q[i].questionId != q[j].questionId
        {
          if j < |p| {
            assert q[i] == p[i] && q[j] == p[j];
          } else {
            assert q[i] == p[i] && q[j] == s[0];
          }
        }
      }
    }
  }

  /** Every id among `ids[..n]` that the table lacks and some candidate carries has a row in `q`. */
  predicate Covers(rows: seq<Question>, batch: seq<Candidate>, ids: seq<int>, n: nat, q: seq<Question>)
    requires n <= |ids|
  {
    forall k :: 0 <= k < n && ids[k] !in StoredIds(rows) && FirstWith(batch, ids[k]).Some? ==>
      exists m :: 0 <= m < |q| && q[m].questionId == ids[k]
  }

  /** Every checked id that the table lacks and some candidate carries gets a row. */
  lemma {:induction false} QueuedCovers(rows: seq<Question>, batch: seq<Candidate>, ids: seq<int>, n: nat, now: Timestamp)
    requires n <= |ids|
    ensures Covers(rows, batch, ids, n, Queued(rows, batch, ids, n, now))
  {
    if n > 0 {
      QueuedCovers(rows, batch, ids, n - 1, now);
      var p := Queued(rows, batch, ids, n - 1, now);
      var s := Step(rows, batch, ids[n - 1], now);
      var q := Queued(rows, batch, ids, n, now);
      assert q == p + s;
      forall k | 0 <= k < n && ids[k] !in StoredIds(rows) && FirstWith(batch, ids[k]).Some?
        ensures exists m :: 0 <= m < |q| && q[m].questionId == ids[k]
      {
        if k < n - 1 {
          var m :| 0 <= m < |p| && p[m].questionId == ids[k];
          assert q[m] == p[m];
        } else {
          StepNew(rows, batch, ids[n - 1], now);
          assert q[|p|] == s[0];
        }
      }
    }
  }

  /**
   * The first pass over a batch (app/main.py:99-132) queues rows with
   * distinct ids, each new to the table, scanned, and built from the first
   * candidate with its id; every scanned id the table lacks gets one.
   */
  lemma FirstPassRows(rows: seq<Question>, batch: seq<Candidate>, now: Timestamp)
    ensures forall m :: 0 <= m < |FirstPass(rows, batch, now)| ==>
      FirstPass(rows, batch, now)[m].questionId in Scanned(batch) && NewRow(rows, batch, now, FirstPass(rows, batch, now)[m])
    ensures UniqueIds(FirstPass(rows, batch, now))
    ensures Covers(rows, batch, Ids(batch), |Scanned(batch)|, FirstPass(rows, batch, now))
  {
    var ids := Ids(batch);
    FirstScan(rows, batch, now);
    ScanLengthStops(ids);
    QueuedRows(rows, batch, ids, |Scanned(batch)|, now);
    QueuedUnique(rows, batch, ids, |Scanned(batch)|, now);
    QueuedCovers(rows, batch, ids, |Scanned(batch)|, now);
  }

  /**
   * No invocation stores a provider id twice or one the table already held:
   * the rows it appends carry new, distinct ids (app/main.py:93, 109-124).
   */
  lemma NoDuplicateInserts(rows: seq<Question>, requested: int, up: Provider, now: Timestamp)
    requires UniqueIds(rows)
    ensures UniqueIds(Handle(rows, requested, up, now).rows)
    ensures forall m :: |rows| <= m < |Handle(rows, requested, up, now).rows| ==>
      Handle(rows, requested, up, now).rows[m].questionId !in StoredIds(rows)
  {
    var r := Handle(rows, requested, up, now);
    if r.response.Answer? {
      var batch := ApiQuestions(up, 0, Clamp(requested)).value;
      var q := FirstPass(rows, batch, now);
      assert r.rows == rows + q;
      FirstPassRows(rows, batch, now);
      AppendUnique(rows, q);
      assert forall m :: |rows| <= m < |r.rows| ==> r.rows[m] == q[m - |rows|];
    }
  }

  /**
   * Each id is looked up at most once per invocation: the lookups are the
   * ids of the first batch in order, up to the first id equal to an earlier
   * one, where the scan stops (app/main.py:93, 99-109).
   */
  lemma LookupsOnce(rows: seq<Question>, requested: int, up: Provider, now: Timestamp, batch: seq<Candidate>)
    requires requested > 0 && ApiQuestions(up, 0, Clamp(requested)) == Success(batch)
    ensures Distinct(Handle(rows, requested, up, now).lookups)
    ensures Handle(rows, requested, up, now).lookups <= Ids(batch)
    ensures |Handle(rows, requested, up, now).lookups| < |batch| ==>
      Ids(batch)[|Handle(rows, requested, up, now).lookups|] in Handle(rows, requested, up, now).lookups
  {
    ScanLengthStops(Ids(batch));
  }
}
