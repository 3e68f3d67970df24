/**
 * The history endpoints: `addWordToHistory` appends a row to the
 * `history_word` table for every word a user looks up, and `getAllWords`
 * lists a user's rows, newest first. The time that `knex.fn.now()` reads
 * is a parameter; the table's auto-increment id is the store's `nextId`.
 */
module HistoryController {
  import opened Wrappers
  import opened Ordering
  import opened Requests

  datatype HistoryRow = HistoryRow(id: int, word: string, userId: int, createdAt: int)

  /** The request body; an absent `word` is None. */
  datatype HistoryBody = HistoryBody(word: Option<string>, userId: int)

  const WordRequired := "The word field is required."
  const WordAdded := "Word added to history successfully!"

  /** `addWordToHistory`: the reply or error, and the table afterwards. */
  function AddWordToHistory(rows: seq<HistoryRow>, nextId: int, body: HistoryBody, now: int)
    : (r: (Result<Reply, AppError>, seq<HistoryRow>))
    ensures r.0.Ok? <==> Truthy(body.word)
    ensures r.0.Err? ==> r.1 == rows && r.0.error.statusCode == 400
  {
    if !Truthy(body.word) then (Err(AppError(WordRequired, 400)), rows)
    else (Ok(Reply(200, WordAdded)), rows + [HistoryRow(nextId, body.word.value, body.userId, now)])
  }

  function UserOf(r: HistoryRow): int
  {
    r.userId
  }

  function CreatedAt(r: HistoryRow): int
  {
    r.createdAt
  }

  /** `getAllWords`: the user's rows, `orderBy("created_at", "desc")`. */
  function GetAllWords(rows: seq<HistoryRow>, userId: int): (r: seq<HistoryRow>)
    ensures multiset(r) == multiset(RowsOf(rows, UserOf, userId))
  {
    SortDesc(RowsOf(rows, UserOf, userId), CreatedAt)
  }

  /** How often the user has looked the word up. */
  function Lookups(rows: seq<HistoryRow>, word: string, userId: int): nat
  {
    if rows == [] then 0
    else
      var n := |rows| - 1;
      Lookups(rows[..n], word, userId) + if rows[n].word == word && rows[n].userId == userId then 1 else 0
  }

  /** Ids are below `nextId` and distinct. */
  ghost predicate IdsFresh(rows: seq<HistoryRow>, nextId: int)
  {
    && (forall i :: 0 <= i < |rows| ==> rows[i].id < nextId)
    && (forall i, j :: 0 <= i < j < |rows| ==> rows[i].id != rows[j].id)
  }

  // ---------------------------------------------------------------------
  // What the endpoints promise.
  // ---------------------------------------------------------------------

  /**
   * A missing or empty word is refused with 400 and inserts nothing;
   * otherwise exactly one row, holding the next id, the word, the user and
   * the current time, is appended and the reply is 200.
   */
  lemma AddAppendsOneRow(rows: seq<HistoryRow>, nextId: int, body: HistoryBody, now: int)
    ensures !Truthy(body.word) <==> AddWordToHistory(rows, nextId, body, now) == (Err(AppError(WordRequired, 400)), rows)
    ensures Truthy(body.word) ==>
      AddWordToHistory(rows, nextId, body, now).0 == Ok(Reply(200, WordAdded)) &&
      AddWordToHistory(rows, nextId, body, now).1[..|rows|] == rows &&
      |AddWordToHistory(rows, nextId, body, now).1| == |rows| + 1 &&
      AddWordToHistory(rows, nextId, body, now).1[|rows|] == HistoryRow(nextId, body.word.value, body.userId, now)
  {
  }

  lemma LookupsSnoc(rows: seq<HistoryRow>, r: HistoryRow, word: string, userId: int)
    ensures Lookups(rows + [r], word, userId) == Lookups(rows, word, userId) + if r.word == word && r.userId == userId then 1 else 0
  {
    assert (rows + [r])[..|rows|] == rows;
  }

  /** Looking a word up again adds another row: repeated words are not merged. */
  lemma RepeatedWordsKept(rows: seq<HistoryRow>, nextId: int, word: string, userId: int, now: int)
    requires word != ""
    ensures var added := AddWordToHistory(rows, nextId, HistoryBody(Some(word), userId), now).1;
      Lookups(added, word, userId) == Lookups(rows, word, userId) + 1
  {
    LookupsSnoc(rows, HistoryRow(nextId, word, userId, now), word, userId);
  }

  /** Appending with the next id keeps ids distinct. */
  lemma AddKeepsIdsFresh(rows: seq<HistoryRow>, nextId: int, body: HistoryBody, now: int)
    requires IdsFresh(rows, nextId)
    ensures IdsFresh(AddWordToHistory(rows, nextId, body, now).1, nextId + 1)
  {
  }

  /**
   * `getAllWords` returns exactly the user's rows, each as often as stored,
   * newest first.
   */
  lemma AllWordsOfUserNewestFirst(rows: seq<HistoryRow>, userId: int)
    ensures multiset(GetAllWords(rows, userId)) == multiset(RowsOf(rows, UserOf, userId))
    ensures forall r :: r in GetAllWords(rows, userId) <==> r in rows && r.userId == userId
    ensures Descending(GetAllWords(rows, userId), CreatedAt)
  {
    var all := GetAllWords(rows, userId);
    StepIsDescending(all, CreatedAt);
    forall r ensures r in all <==> r in RowsOf(rows, UserOf, userId) {
      assert r in all <==> r in multiset(all);
    }
  }

  /** A word just added is listed for its user, and for no other user. */
  lemma {:induction false} AddedWordIsListed(rows: seq<HistoryRow>, nextId: int, word: string, userId: int, other: int, now: int)
    requires word != "" && other != userId
    ensures var added := AddWordToHistory(rows, nextId, HistoryBody(Some(word), userId), now).1;
      HistoryRow(nextId, word, userId, now) in GetAllWords(added, userId) &&
      GetAllWords(added, other) == GetAllWords(rows, other)
  {
    var row := HistoryRow(nextId, word, userId, now);
    var added := rows + [row];
    assert AddWordToHistory(rows, nextId, HistoryBody(Some(word), userId), now).1 == added;
    RowsOfSnoc(rows, row, UserOf, other);
    assert RowsOf(added, UserOf, other) == RowsOf(rows, UserOf, other);
    RowsOfSnoc(rows, row, UserOf, userId);
    assert row in multiset(RowsOf(added, UserOf, userId));
    assert row in multiset(GetAllWords(added, userId));
  }

  /** The `history_word` table, appended to in place. */
  class HistoryStore {
    var historyWord: seq<HistoryRow>
    var nextId: int

    constructor (rows: seq<HistoryRow>, nextId: int)
      ensures historyWord == rows && this.nextId == nextId
    {
      historyWord := rows;
      this.nextId := nextId;
    }

    method Add(body: HistoryBody, now: int) returns (r: Result<Reply, AppError>)
      modifies this
      ensures (r, historyWord) == AddWordToHistory(old(historyWord), old(nextId), body, now)
      ensures nextId == if r.Ok? then old(nextId) + 1 else old(nextId)
    {
      if body.word.None? || body.word.value == "" {
        return Err(AppError(WordRequired, 400));
      }
      historyWord := historyWord + [HistoryRow(nextId, body.word.value, body.userId, now)];
      nextId := nextId + 1;
      r := Ok(Reply(200, WordAdded));
    }
  }
}
