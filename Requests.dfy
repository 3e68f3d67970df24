/** What the backend's handlers share: the error they throw, the reply they send, JavaScript truthiness. */
module Requests {
  import opened Wrappers

  /** The backend's `AppError`: a message and an HTTP status. */
  datatype AppError = AppError(message: string, statusCode: int)

  /** A `{ message }` reply with its status. */
  datatype Reply = Reply(status: int, message: string)

  /** A request field holding a string is truthy when present and not empty. */
  predicate Truthy(s: Option<string>)
  {
    s.Some? && s.value != ""
  }

  /** The rows of one user, in storage order: `where("user_id", "=", userId)`. */
  function RowsOf<T(!new)>(rows: seq<T>, userOf: T -> int, userId: int): (r: seq<T>)
    ensures forall x :: x in r <==> x in rows && userOf(x) == userId
    ensures forall x :: multiset(r)[x] == if userOf(x) == userId then multiset(rows)[x] else 0
  {
    if rows == [] then []
    else
      var n := |rows| - 1;
      assert rows == rows[..n] + [rows[n]];
      RowsOf(rows[..n], userOf, userId) + if userOf(rows[n]) == userId then [rows[n]] else []
  }

  /** Filtering a table with one more row at its end. */
  lemma RowsOfSnoc<T(!new)>(rows: seq<T>, x: T, userOf: T -> int, userId: int)
    ensures RowsOf(rows + [x], userOf, userId) == RowsOf(rows, userOf, userId) + if userOf(x) == userId then [x] else []
  {
    assert (rows + [x])[..|rows|] == rows;
  }
}
