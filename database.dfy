/**
 * The progress store: the `quiz_state` table, keyed by user id, where each
 * row holds a nullable question index and a counter of right answers that
 * defaults to 0 (database.py).
 *
 * The table is a map from user id to row, so there is at most one row per
 * user (the PRIMARY KEY). Each SQL statement is a map update; the pure
 * functions below give the table that each write leaves behind, and the
 * class `ProgressStore` performs the writes step by step on its one field.
 */
module Database {
  import opened Wrappers

  type UserId = int

  /** One row of `quiz_state`: `question_index` may be NULL, `correct_answer` starts at 0. */
  datatype Row = Row(questionIndex: Option<int>, correct: nat)

  type Table = map<UserId, Row>

  /** The user's stored index as a lookup yields it: None when there is no row or the index is NULL. */
  function IndexOf(t: Table, user: UserId): Option<int>
  {
    if user in t then t[user].questionIndex else None
  }

  /** The user's stored counter as a lookup yields it: 0 when there is no row. */
  function CorrectOf(t: Table, user: UserId): nat
  {
    if user in t then t[user].correct else 0
  }

  /**
   * The table after the index upsert (insert a row, or on a key clash set only its index):
   * a new row takes the column default 0 for `correct_answer`, an existing row
   * keeps its counter, and no other row changes.
   */
  function WithIndex(t: Table, user: UserId, questionIndex: int): (r: Table)
    ensures r.Keys == t.Keys + {user}
    ensures r[user].questionIndex == Some(questionIndex)
    ensures user !in t ==> r[user].correct == 0
    ensures user in t ==> r[user].correct == t[user].correct
    ensures forall u :: u in t && u != user ==> r[u] == t[u]
  {
    if user in t then t[user := t[user].(questionIndex := Some(questionIndex))]
    else t[user := Row(Some(questionIndex), 0)]
  }

  /**
   * The table after the right-answer write: an existing row's counter goes up
   * by exactly one and its index stays; a user with no row gets a row with
   * counter 1 and a NULL index; no other row changes.
   */
  function WithRightAnswer(t: Table, user: UserId): (r: Table)
    ensures r.Keys == t.Keys + {user}
    ensures user in t ==> r[user].correct == t[user].correct + 1
    ensures user in t ==> r[user].questionIndex == t[user].questionIndex
    ensures user !in t ==> r[user].correct == 1 && r[user].questionIndex == None
    ensures forall u :: u in t && u != user ==> r[u] == t[u]
  {
    if user in t then t[user := t[user].(correct := t[user].correct + 1)]
    else t[user := Row(None, 1)]
  }

  /** Reading back an index write: the index is the one written, the counter is untouched. */
  lemma ReadAfterIndexWrite(t: Table, user: UserId, questionIndex: int, other: UserId)
    ensures IndexOf(WithIndex(t, user, questionIndex), user) == Some(questionIndex)
    ensures CorrectOf(WithIndex(t, user, questionIndex), user) == CorrectOf(t, user)
    ensures other != user ==> IndexOf(WithIndex(t, user, questionIndex), other) == IndexOf(t, other)
    ensures other != user ==> CorrectOf(WithIndex(t, user, questionIndex), other) == CorrectOf(t, other)
  {
  }

  /** Reading back a right-answer write: the counter rose by one, the index is untouched. */
  lemma ReadAfterRightAnswer(t: Table, user: UserId, other: UserId)
    ensures CorrectOf(WithRightAnswer(t, user), user) == CorrectOf(t, user) + 1
    ensures IndexOf(WithRightAnswer(t, user), user) == IndexOf(t, user)
    ensures other != user ==> IndexOf(WithRightAnswer(t, user), other) == IndexOf(t, other)
    ensures other != user ==> CorrectOf(WithRightAnswer(t, user), other) == CorrectOf(t, other)
  {
  }

  /** The `quiz_state` table as one map, updated in place by the writes. */
  class ProgressStore {
    var rows: Table

    /** `create_table` on a new database file: the table exists and is empty. */
    constructor ()
      ensures rows == map[]
    {
      rows := map[];
    }

    /** `update_quiz_index`: an upsert of the index alone. */
    method UpdateQuizIndex(user: UserId, questionIndex: int)
      modifies this
      ensures rows == WithIndex(old(rows), user, questionIndex)
    {
      if user in rows {
        // an existing row: only the index changes
        rows := rows[user := rows[user].(questionIndex := Some(questionIndex))];
      } else {
        // no row yet: a new one, whose counter takes the column default 0
        rows := rows[user := Row(Some(questionIndex), 0)];
      }
    }

    /**
     * `update_right_answer`: an update that adds one to the counter, then an
     * insert of a row with counter 1 when the update changed nothing. The
     * connection is opened for this call, so its change count covers only
     * that update.
     */
    method UpdateRightAnswer(user: UserId)
      modifies this
      ensures rows == WithRightAnswer(old(rows), user)
    {
      var totalChanges: nat := 0;
      if user in rows {
        rows := rows[user := rows[user].(correct := rows[user].correct + 1)];
        totalChanges := totalChanges + 1;
      }
      if totalChanges == 0 {
        rows := rows[user := Row(None, 1)];
      }
    }

    /** `get_quiz_index`: the stored index, or None for no row or a NULL index. */
    method GetQuizIndex(user: UserId) returns (r: Option<int>)
      ensures r == IndexOf(rows, user)
      ensures r.Some? ==> user in rows
    {
      var fetched: Option<Row> := if user in rows then Some(rows[user]) else None;
      r := if fetched.Some? then fetched.value.questionIndex else None;
    }

    /** `get_right_answers`: the stored counter, or 0 for no row. */
    method GetRightAnswers(user: UserId) returns (r: nat)
      ensures r == CorrectOf(rows, user)
      ensures r != 0 ==> user in rows
    {
      var fetched: Option<Row> := if user in rows then Some(rows[user]) else None;
      r := if fetched.Some? then fetched.value.correct else 0;
    }
  }
}
