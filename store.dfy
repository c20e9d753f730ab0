/**
 * The persisted `questions` table (app/db.py:23-31) and the unit of work that
 * writes to it (the SQLAlchemy session of app/db.py:36).
 *
 * The table is append-only. A row's internal id is not stored in the record:
 * the row at position k of `rows` has id k + 1, so the row with the highest id
 * is the last one.
 */
module QuestionStore {
  import opened Wrappers

  /** Timestamps are opaque: the model never compares or computes with them. */
  type Timestamp = int

  /** One stored row: the provider's id, question, answer, the provider's date and the local date the row was saved. */
  datatype Question = Question(questionId: int, text: string, answer: string, date: Timestamp, created: Timestamp)

  /** What the handler returns: the previous row with its internal id, or the empty object when the table was empty. */
  datatype Context = NoPrior | Previous(id: nat, row: Question)

  /** The provider ids present in the table. */
  function StoredIds(rows: seq<Question>): set<int>
  {
    set q | q in rows :: q.questionId
  }

  /** No value occurs twice. */
  predicate Distinct(s: seq<int>)
  {
    forall i, j :: 0 <= i < j < |s| ==> s[i] != s[j]
  }

  /** The provider ids of the rows, in order. */
  function QuestionIds(rows: seq<Question>): (ids: seq<int>)
    ensures |ids| == |rows|
    ensures forall k :: 0 <= k < |rows| ==> ids[k] == rows[k].questionId
  {
    seq(|rows|, k requires 0 <= k < |rows| => rows[k].questionId)
  }

  /** No provider id occurs in two rows. */
  predicate UniqueIds(rows: seq<Question>)
  {
    Distinct(QuestionIds(rows))
  }

  /** Appending rows with ids of their own, none already stored, keeps the ids unique. */
  lemma AppendUnique(rows: seq<Question>, added: seq<Question>)
    requires UniqueIds(rows) && UniqueIds(added)
    requires forall m :: 0 <= m < |added| ==> added[m].questionId !in StoredIds(rows)
    ensures UniqueIds(rows + added)
    ensures StoredIds(rows + added) == StoredIds(rows) + StoredIds(added)
  {
    var all := rows + added;
    forall i, j | 0 <= i < j < |all|
      ensures all[i].questionId != all[j].questionId
    {
      if j >= |rows| && i < |rows| {
        assert all[i] == rows[i] && rows[i] in rows;
        assert all[j] == added[j - |rows|];
      } else if i >= |rows| {
        assert all[i] == added[i - |rows|] && all[j] == added[j - |rows|];
      }
    }
  }

  /** `query(Question).order_by(Question.id.desc()).first()`: the row with the highest internal id. */
  function MostRecent(rows: seq<Question>): (c: Context)
    ensures c.NoPrior? <==> |rows| == 0
    ensures c.Previous? ==> c.id == |rows| && c.row == rows[c.id - 1]
  {
    if |rows| == 0 then NoPrior else Previous(|rows|, rows[|rows| - 1])
  }

  /**
   * `query(Question).filter_by(question_id = id).first()`: some stored row with
   * that provider id (the first by position), or nothing.
   */
  function Lookup(rows: seq<Question>, id: int): (r: Option<Question>)
    ensures r.Some? <==> id in StoredIds(rows)
    ensures r.Some? ==> r.value in rows && r.value.questionId == id
  {
    LookupFrom(rows, id, 0)
  }

  /** The first row at position `i` or later with that id. */
  function LookupFrom(rows: seq<Question>, id: int, i: nat): (r: Option<Question>)
    requires i <= |rows|
    ensures r.Some? <==> exists k :: i <= k < |rows| && rows[k].questionId == id
    ensures r.Some? ==> r.value in rows && r.value.questionId == id
    decreases |rows| - i
  {
    if i == |rows| then None
    else if rows[i].questionId == id then Some(rows[i])
    else LookupFrom(rows, id, i + 1)
  }


  /** The table as the database holds it: committed rows only. */
  class Database {
    var rows: seq<Question>

    constructor (rows: seq<Question>)
      ensures this.rows == rows
    {
      this.rows := rows;
    }
  }

  /**
   * A session over the database. Rows given to `Add` wait in `pending` and
   * reach the table only at `Commit`. The session never flushes on its own
   * (autoflush is off), so queries made through it see `db.rows` only.
   */
  class Session {
    const db: Database
    var pending: seq<Question>

    /** `SessionLocal()`: a new session has nothing pending. */
    constructor (db: Database)
      ensures this.db == db && pending == []
    {
      this.db := db;
      pending := [];
    }

    /** `session.add(row)`: queue one row; the table is untouched. */
    method Add(row: Question)
      modifies this
      ensures pending == old(pending) + [row]
    {
      pending := pending + [row];
    }

    /** `session.commit()`: append every queued row, in order, in one step. */
    method Commit()
      modifies this, db
      ensures db.rows == old(db.rows) + old(pending)
      ensures pending == []
    {
      db.rows := db.rows + pending;
      pending := [];
    }

    /** Closing the session: whatever is still queued is discarded. */
    method Close()
      modifies this
      ensures pending == []
    {
      pending := [];
    }
  }
}
