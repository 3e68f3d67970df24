/**
 * The favourites endpoints of the backend: `updateWordFavorite` validates
 * a request and, in one transaction, upserts the (word, user) row of the
 * `favorite` table and deletes it again when the new value is 'N';
 * `listFavorites` returns a user's 'Y' rows, newest first.
 *
 * The table is a sequence of rows in storage order. The clock that
 * `knex.fn.now()` reads is a parameter, and whether the database fails the
 * transaction is a parameter too: a failed transaction applies nothing.
 */
module FavoriteController {
  import opened Wrappers
  import opened Ordering
  import opened Requests

  datatype FavoriteRow = FavoriteRow(word: string, favorite: string, userId: int, updatedAt: int)

  /** The request body; a field that is absent is None. */
  datatype FavoriteBody = FavoriteBody(word: Option<string>, favorite: Option<string>, userId: int)

  /** A row as `listFavorites` selects it. */
  datatype FavoriteView = FavoriteView(word: string, favorite: string, updatedAt: int)

  const WordRequired := "The word field is required."
  const FavoriteInvalid := "The favorite field is required and must be 'Y' or 'N'."
  const UpdateFailed := "Failed to update/insert word."
  const Updated := "Word successfully updated/inserted!"
  const FetchFailed := "Failed to fetch favorites."

  predicate HasKey(r: FavoriteRow, word: string, userId: int)
  {
    r.word == word && r.userId == userId
  }

  /** The unique index on (word, user_id) that the upsert's conflict target relies on. */
  ghost predicate UniqueKeys(rows: seq<FavoriteRow>)
  {
    forall i, j :: 0 <= i < j < |rows| ==> !HasKey(rows[j], rows[i].word, rows[i].userId)
  }

  /** The position of the row for (word, user), or -1. */
  function KeyIndex(rows: seq<FavoriteRow>, word: string, userId: int): (i: int)
    ensures -1 <= i < |rows|
    ensures i == -1 <==> forall j :: 0 <= j < |rows| ==> !HasKey(rows[j], word, userId)
    ensures i >= 0 ==> HasKey(rows[i], word, userId)
  {
    if rows == [] then -1
    else if HasKey(rows[|rows| - 1], word, userId) then |rows| - 1
    else KeyIndex(rows[..|rows| - 1], word, userId)
  }

  /** The rows with another key than (word, user), in storage order. */
  function Others(rows: seq<FavoriteRow>, word: string, userId: int): (o: seq<FavoriteRow>)
    ensures forall r :: r in o ==> r in rows && !HasKey(r, word, userId)
  {
    if rows == [] then []
    else
      var o := Others(rows[..|rows| - 1], word, userId);
      if HasKey(rows[|rows| - 1], word, userId) then o else o + [rows[|rows| - 1]]
  }

  /** How many rows hold (word, user). */
  function Count(rows: seq<FavoriteRow>, word: string, userId: int): nat
  {
    if rows == [] then 0
    else Count(rows[..|rows| - 1], word, userId) + if HasKey(rows[|rows| - 1], word, userId) then 1 else 0
  }

  /** `insert ... onConflict(["word", "user_id"]).merge({favorite, updated_at})`. */
  function Upsert(rows: seq<FavoriteRow>, word: string, favorite: string, userId: int, now: int): (r: seq<FavoriteRow>)
    ensures FavoriteRow(word, favorite, userId, now) in r
    ensures |r| == |rows| + if KeyIndex(rows, word, userId) == -1 then 1 else 0
  {
    var i := KeyIndex(rows, word, userId);
    if i == -1 then rows + [FavoriteRow(word, favorite, userId, now)]
    else
      var r := rows[i := rows[i].(favorite := favorite, updatedAt := now)];
      assert r[i] == FavoriteRow(word, favorite, userId, now);
      r
  }

  /** `where({word, user_id}).andWhere("favorite", "=", "N").delete()`. */
  function DeleteUnfavored(rows: seq<FavoriteRow>, word: string, userId: int): (r: seq<FavoriteRow>)
    ensures |r| <= |rows|
  {
    if rows == [] then []
    else
      var r := DeleteUnfavored(rows[..|rows| - 1], word, userId);
      var last := rows[|rows| - 1];
      if HasKey(last, word, userId) && last.favorite == "N" then r else r + [last]
  }

  /** The validation, in the order the handler checks. */
  function Validate(body: FavoriteBody): (e: Option<AppError>)
    ensures e.None? <==> Truthy(body.word) && (body.favorite == Some("Y") || body.favorite == Some("N"))
    ensures e.Some? ==> e.value.statusCode == 400
    ensures !Truthy(body.word) ==> e == Some(AppError(WordRequired, 400))
  {
    if !Truthy(body.word) then Some(AppError(WordRequired, 400))
    else if !Truthy(body.favorite) || (body.favorite.value != "Y" && body.favorite.value != "N") then
      Some(AppError(FavoriteInvalid, 400))
    else None
  }

  /** The transaction's effect on the table. */
  function Transaction(rows: seq<FavoriteRow>, word: string, favorite: string, userId: int, now: int): (r: seq<FavoriteRow>)
    ensures favorite != "N" ==> FavoriteRow(word, favorite, userId, now) in r
    ensures |r| <= |rows| + 1
  {
    var upserted := Upsert(rows, word, favorite, userId, now);
    if favorite == "N" then DeleteUnfavored(upserted, word, userId) else upserted
  }

  /** `updateWordFavorite`: the reply or error, and the table afterwards. */
  function UpdateWordFavorite(rows: seq<FavoriteRow>, body: FavoriteBody, now: int, dbFails: bool)
    : (r: (Result<Reply, AppError>, seq<FavoriteRow>))
    ensures r.0.Ok? <==> Validate(body).None? && !dbFails
    ensures r.0.Ok? ==> r.0.value == Reply(200, Updated)
    ensures r.0.Err? ==> r.1 == rows
  {
    match Validate(body)
    case Some(e) => (Err(e), rows)
    case None =>
      if dbFails then (Err(AppError(UpdateFailed, 500)), rows)
      else (Ok(Reply(200, Updated)),
            Transaction(rows, body.word.value, body.favorite.value, body.userId, now))
  }

  // ---------------------------------------------------------------------
  // Facts about the table operations.
  // ---------------------------------------------------------------------

  lemma OthersSnoc(rows: seq<FavoriteRow>, r: FavoriteRow, word: string, userId: int)
    ensures Others(rows + [r], word, userId) == if HasKey(r, word, userId) then Others(rows, word, userId) else Others(rows, word, userId) + [r]
  {
    assert (rows + [r])[..|rows|] == rows;
  }

  lemma CountSnoc(rows: seq<FavoriteRow>, r: FavoriteRow, word: string, userId: int)
    ensures Count(rows + [r], word, userId) == Count(rows, word, userId) + if HasKey(r, word, userId) then 1 else 0
  {
    assert (rows + [r])[..|rows|] == rows;
  }

  /** Changing a row without changing its key leaves the other keys' rows alone. */
  lemma {:induction false} OthersUpdate(rows: seq<FavoriteRow>, i: nat, r: FavoriteRow, word: string, userId: int)
    requires i < |rows| && HasKey(rows[i], word, userId) && HasKey(r, word, userId)
    ensures Others(rows[i := r], word, userId) == Others(rows, word, userId)
    ensures Count(rows[i := r], word, userId) == Count(rows, word, userId)
  {
    var n := |rows| - 1;
    assert rows == rows[..n] + [rows[n]];
    if i == n {
      assert rows[i := r] == rows[..n] + [r];
      OthersSnoc(rows[..n], r, word, userId);
      CountSnoc(rows[..n], r, word, userId);
    } else {
      OthersUpdate(rows[..n], i, r, word, userId);
      assert rows[i := r] == rows[..n][i := r] + [rows[n]];
      OthersSnoc(rows[..n][i := r], rows[n], word, userId);
      CountSnoc(rows[..n][i := r], rows[n], word, userId);
    }
  }

  /** Without a row for the key, the count is 0. */
  lemma {:induction false} CountAbsent(rows: seq<FavoriteRow>, word: string, userId: int)
    requires forall j :: 0 <= j < |rows| ==> !HasKey(rows[j], word, userId)
    ensures Count(rows, word, userId) == 0
  {
    if rows != [] {
      CountAbsent(rows[..|rows| - 1], word, userId);
    }
  }

  /** Under the unique index, a key present at `i` is counted once. */
  lemma {:induction false} CountUnique(rows: seq<FavoriteRow>, word: string, userId: int, i: nat)
    requires UniqueKeys(rows) && i < |rows| && HasKey(rows[i], word, userId)
    ensures Count(rows, word, userId) == 1
  {
    var n := |rows| - 1;
    if i == n {
      forall j | 0 <= j < n ensures !HasKey(rows[..n][j], word, userId) {
        assert !HasKey(rows[n], rows[j].word, rows[j].userId);
      }
      CountAbsent(rows[..n], word, userId);
    } else {
      CountUnique(rows[..n], word, userId, i);
      assert !HasKey(rows[n], rows[i].word, rows[i].userId);
    }
  }

  /** Deleting the key's 'N' rows keeps the other keys' rows and leaves no 'N' row for the key. */
  lemma {:induction false} DeleteFacts(rows: seq<FavoriteRow>, word: string, userId: int)
    ensures Others(DeleteUnfavored(rows, word, userId), word, userId) == Others(rows, word, userId)
    ensures forall r :: r in DeleteUnfavored(rows, word, userId) ==> r in rows
    ensures forall r :: r in DeleteUnfavored(rows, word, userId) && HasKey(r, word, userId) ==> r.favorite != "N"
  {
    if rows != [] {
      var n := |rows| - 1;
      DeleteFacts(rows[..n], word, userId);
      assert rows == rows[..n] + [rows[n]];
      OthersSnoc(rows[..n], rows[n], word, userId);
      var r := DeleteUnfavored(rows[..n], word, userId);
      if !(HasKey(rows[n], word, userId) && rows[n].favorite == "N") {
        OthersSnoc(r, rows[n], word, userId);
      }
    }
  }

  // ---------------------------------------------------------------------
  // What the handler promises.
  // ---------------------------------------------------------------------

  /**
   * A missing or empty `word` is refused with 400 before `favorite` is
   * looked at; a `favorite` other than 'Y' or 'N' with 400 next. A refused
   * request, and a failed transaction (500), leave the table as it was.
   */
  lemma RefusedRequestsWriteNothing(rows: seq<FavoriteRow>, body: FavoriteBody, now: int, dbFails: bool)
    ensures !Truthy(body.word) ==>
      UpdateWordFavorite(rows, body, now, dbFails) == (Err(AppError(WordRequired, 400)), rows)
    ensures Truthy(body.word) && !(body.favorite == Some("Y") || body.favorite == Some("N")) ==>
      UpdateWordFavorite(rows, body, now, dbFails) == (Err(AppError(FavoriteInvalid, 400)), rows)
    ensures Validate(body).None? && dbFails ==>
      UpdateWordFavorite(rows, body, now, dbFails) == (Err(AppError(UpdateFailed, 500)), rows)
    ensures UpdateWordFavorite(rows, body, now, dbFails).0.Ok? <==> Validate(body).None? && !dbFails
  {
  }

  /**
   * After a 'Y' update there is exactly one row for (word, user), holding
   * 'Y' and the current time; every other key's rows are as they were.
   */
  lemma {:induction false} FavoriteYKeepsOneRow(rows: seq<FavoriteRow>, word: string, userId: int, now: int)
    requires UniqueKeys(rows)
    ensures var t := Transaction(rows, word, "Y", userId, now);
      Count(t, word, userId) == 1 &&
      FavoriteRow(word, "Y", userId, now) in t &&
      Others(t, word, userId) == Others(rows, word, userId)
  {
    var i := KeyIndex(rows, word, userId);
    var t := Transaction(rows, word, "Y", userId, now);
    var row := FavoriteRow(word, "Y", userId, now);
    if i == -1 {
      assert t == rows + [row];
      OthersSnoc(rows, row, word, userId);
      CountSnoc(rows, row, word, userId);
      CountAbsent(rows, word, userId);
    } else {
      var r := rows[i].(favorite := "Y", updatedAt := now);
      assert r == row;
      assert t == rows[i := r] && t[i] == row;
      OthersUpdate(rows, i, r, word, userId);
      CountUnique(rows, word, userId, i);
    }
  }

  /** After an 'N' update no row for (word, user) remains; every other key's rows are as they were. */
  lemma {:induction false} FavoriteNRemovesRow(rows: seq<FavoriteRow>, word: string, userId: int, now: int)
    requires UniqueKeys(rows)
    ensures var t := Transaction(rows, word, "N", userId, now);
      (forall r :: r in t ==> !HasKey(r, word, userId)) &&
      Others(t, word, userId) == Others(rows, word, userId)
  {
    var i := KeyIndex(rows, word, userId);
    var u := Upsert(rows, word, "N", userId, now);
    if i == -1 {
      OthersSnoc(rows, FavoriteRow(word, "N", userId, now), word, userId);
    } else {
      OthersUpdate(rows, i, rows[i].(favorite := "N", updatedAt := now), word, userId);
      UpsertKeepsUnique(rows, word, "N", userId, now);
    }
    KeyRowsAreN(rows, word, userId, now);
    DeleteFacts(u, word, userId);
  }

  /** After an upsert with 'N', every row for the key holds 'N'. */
  lemma KeyRowsAreN(rows: seq<FavoriteRow>, word: string, userId: int, now: int)
    requires UniqueKeys(rows)
    ensures forall r :: r in Upsert(rows, word, "N", userId, now) && HasKey(r, word, userId) ==> r.favorite == "N"
  {
    var i := KeyIndex(rows, word, userId);
    var u := Upsert(rows, word, "N", userId, now);
    forall r | r in u && HasKey(r, word, userId) ensures r.favorite == "N" {
      var k :| 0 <= k < |u| && u[k] == r;
    }
  }

  /** The handler keeps the unique index intact. */
  lemma {:induction false} UpsertKeepsUnique(rows: seq<FavoriteRow>, word: string, favorite: string, userId: int, now: int)
    requires UniqueKeys(rows)
    ensures UniqueKeys(Upsert(rows, word, favorite, userId, now))
  {
    var i := KeyIndex(rows, word, userId);
    var u := Upsert(rows, word, favorite, userId, now);
    forall a, b | 0 <= a < b < |u| ensures !HasKey(u[b], u[a].word, u[a].userId) {
      if i == -1 && b == |rows| {
        assert !HasKey(rows[a], word, userId);
      }
    }
  }

  lemma {:induction false} DeleteKeepsUnique(rows: seq<FavoriteRow>, word: string, userId: int)
    requires UniqueKeys(rows)
    ensures UniqueKeys(DeleteUnfavored(rows, word, userId))
  {
    if rows != [] {
      var n := |rows| - 1;
      DeleteKeepsUnique(rows[..n], word, userId);
      DeleteFacts(rows[..n], word, userId);
      var d := DeleteUnfavored(rows[..n], word, userId);
      forall r | r in d ensures !HasKey(rows[n], r.word, r.userId) {
        var k :| 0 <= k < n && rows[..n][k] == r;
      }
    }
  }

  lemma UpdateKeepsUnique(rows: seq<FavoriteRow>, body: FavoriteBody, now: int, dbFails: bool)
    requires UniqueKeys(rows)
    ensures UniqueKeys(UpdateWordFavorite(rows, body, now, dbFails).1)
  {
    if Validate(body).None? && !dbFails {
      UpsertKeepsUnique(rows, body.word.value, body.favorite.value, body.userId, now);
      DeleteKeepsUnique(Upsert(rows, body.word.value, body.favorite.value, body.userId, now), body.word.value, body.userId);
    }
  }

  // ---------------------------------------------------------------------
  // listFavorites
  // ---------------------------------------------------------------------

  /** The user's rows holding 'Y', in storage order. */
  function FavoritesOf(rows: seq<FavoriteRow>, userId: int): (f: seq<FavoriteRow>)
    ensures forall r :: r in f <==> r in rows && r.userId == userId && r.favorite == "Y"
    ensures forall r :: multiset(f)[r] == if r.userId == userId && r.favorite == "Y" then multiset(rows)[r] else 0
  {
    if rows == [] then []
    else
      var f := FavoritesOf(rows[..|rows| - 1], userId);
      var last := rows[|rows| - 1];
      assert rows == rows[..|rows| - 1] + [last];
      if last.userId == userId && last.favorite == "Y" then f + [last] else f
  }

  function UpdatedAt(r: FavoriteRow): int
  {
    r.updatedAt
  }

  function View(r: FavoriteRow): FavoriteView
  {
    FavoriteView(r.word, r.favorite, r.updatedAt)
  }

  /** `listFavorites`, before the columns are selected. */
  function ListFavoriteRows(rows: seq<FavoriteRow>, userId: int): seq<FavoriteRow>
  {
    SortDesc(FavoritesOf(rows, userId), UpdatedAt)
  }

  /** `listFavorites`: `word`, `favorite` and `updated_at` of those rows. */
  function ListFavorites(rows: seq<FavoriteRow>, userId: int): (views: seq<FavoriteView>)
    ensures |views| == |ListFavoriteRows(rows, userId)|
    ensures forall i :: 0 <= i < |views| ==> views[i] == View(ListFavoriteRows(rows, userId)[i])
  {
    var sorted := ListFavoriteRows(rows, userId);
    seq(|sorted|, i requires 0 <= i < |sorted| => View(sorted[i]))
  }

  /** The endpoint's answer: the list, or the 500 error when the query fails. */
  function ListFavoritesReply(rows: seq<FavoriteRow>, userId: int, fails: bool): (r: Result<seq<FavoriteView>, AppError>)
    ensures r.Err? <==> fails
    ensures r.Err? ==> r.error.statusCode == 500
  {
    if fails then Err(AppError(FetchFailed, 500)) else Ok(ListFavorites(rows, userId))
  }

  /**
   * The list holds exactly the user's 'Y' rows, each as often as stored,
   * newest first; every listed view is 'Y'.
   */
  lemma ListIsUsersFavoritesNewestFirst(rows: seq<FavoriteRow>, userId: int, fails: bool)
    ensures ListFavoritesReply(rows, userId, fails).Err? <==> fails
    ensures fails ==> ListFavoritesReply(rows, userId, fails).error == AppError(FetchFailed, 500)
    ensures multiset(ListFavoriteRows(rows, userId)) == multiset(FavoritesOf(rows, userId))
    ensures forall r :: r in ListFavoriteRows(rows, userId) <==> r in rows && r.userId == userId && r.favorite == "Y"
    ensures forall i, j :: 0 <= i < j < |ListFavorites(rows, userId)| ==>
      ListFavorites(rows, userId)[i].updatedAt >= ListFavorites(rows, userId)[j].updatedAt
    ensures forall i :: 0 <= i < |ListFavorites(rows, userId)| ==> ListFavorites(rows, userId)[i].favorite == "Y"
  {
    var sorted := ListFavoriteRows(rows, userId);
    StepIsDescending(sorted, UpdatedAt);
    forall r ensures r in sorted <==> r in FavoritesOf(rows, userId) {
      assert r in sorted <==> r in multiset(sorted);
    }
  }

  /** The database's `favorite` table, changed in place by the handler. */
  class FavoriteStore {
    var favorite: seq<FavoriteRow>

    constructor (rows: seq<FavoriteRow>)
      ensures favorite == rows
    {
      favorite := rows;
    }

    /** The handler: answer the request and apply its transaction to the table. */
    method Update(body: FavoriteBody, now: int, dbFails: bool) returns (r: Result<Reply, AppError>)
      modifies this
      ensures (r, favorite) == UpdateWordFavorite(old(favorite), body, now, dbFails)
    {
      if body.word.None? || body.word.value == "" {
        return Err(AppError(WordRequired, 400));
      }
      if body.favorite.None? || body.favorite.value == "" ||
         (body.favorite.value != "Y" && body.favorite.value != "N") {
        return Err(AppError(FavoriteInvalid, 400));
      }
      if dbFails {
        return Err(AppError(UpdateFailed, 500));
      }
      var word, fav := body.word.value, body.favorite.value;
      var i := KeyIndex(favorite, word, body.userId);
      if i == -1 {
        favorite := favorite + [FavoriteRow(word, fav, body.userId, now)];
      } else {
        favorite := favorite[i := favorite[i].(favorite := fav, updatedAt := now)];
      }
      if fav == "N" {
        favorite := DeleteUnfavored(favorite, word, body.userId);
      }
      r := Ok(Reply(200, Updated));
    }
  }
}
