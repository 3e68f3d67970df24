/**
 * The word list endpoint: every row of the `words` table, left-joined with
 * the requesting user's rows of `favorite` on the word, with `favorite`
 * defaulting to 'N' where no row matches, ordered by word.
 */
module WordsController {
  import opened Wrappers
  import opened Ordering
  import opened Requests
  import opened FavoriteController

  /** A row of the result: `w.word` and `COALESCE(f.favorite, 'N')`. */
  datatype WordView = WordView(word: string, favorite: string)

  /** The `favorite` values of the rows that match (word, user), in storage order. */
  function Matches(favorites: seq<FavoriteRow>, word: string, userId: int): (m: seq<string>)
    ensures |m| <= |favorites|
    ensures forall v :: v in m <==>
      exists i :: 0 <= i < |favorites| && HasKey(favorites[i], word, userId) && favorites[i].favorite == v
  {
    if favorites == [] then []
    else
      var n := |favorites| - 1;
      var prefix := favorites[..n];
      assert forall i :: 0 <= i < n ==> prefix[i] == favorites[i];
      Matches(prefix, word, userId) + if HasKey(favorites[n], word, userId) then [favorites[n].favorite] else []
  }

  /** The rows one `words` row contributes to a left join: one per match, or one defaulted row. */
  function JoinRow(word: string, favorites: seq<FavoriteRow>, userId: int): (j: seq<WordView>)
    ensures |j| >= 1 && forall v :: v in j ==> v.word == word
  {
    var m := Matches(favorites, word, userId);
    if m == [] then [WordView(word, "N")]
    else seq(|m|, i requires 0 <= i < |m| => WordView(word, m[i]))
  }

  /** The left join, before ordering. */
  function Joined(words: seq<string>, favorites: seq<FavoriteRow>, userId: int): (j: seq<WordView>)
    ensures |j| >= |words|
    ensures forall v :: v in j ==> v.word in words
  {
    if words == [] then []
    else Joined(words[..|words| - 1], favorites, userId) + JoinRow(words[|words| - 1], favorites, userId)
  }

  function WordOf(v: WordView): string
  {
    v.word
  }

  /** `index`: the joined rows ordered by word, or the 500 error when the query fails. */
  function Index(words: seq<string>, favorites: seq<FavoriteRow>, userId: int, fails: bool): (r: Result<seq<WordView>, AppError>)
    ensures r.Err? <==> fails
    ensures r.Err? ==> r.error.statusCode == 500
  {
    if fails then Err(AppError(FetchFailed, 500))
    else Ok(SortAsc(Joined(words, favorites, userId), WordOf))
  }

  /** The user's stored value for the word, or 'N'. */
  function StoredOrN(favorites: seq<FavoriteRow>, word: string, userId: int): string
  {
    var i := KeyIndex(favorites, word, userId);
    if i == -1 then "N" else favorites[i].favorite
  }

  function UserOf(r: FavoriteRow): int
  {
    r.userId
  }

  // ---------------------------------------------------------------------
  // What the endpoint promises.
  // ---------------------------------------------------------------------

  /** Under the unique (word, user) index, a word matches at most the one row `KeyIndex` finds. */
  lemma {:induction false} MatchesUnderUniqueKeys(favorites: seq<FavoriteRow>, word: string, userId: int)
    requires UniqueKeys(favorites)
    ensures Matches(favorites, word, userId) ==
      if KeyIndex(favorites, word, userId) == -1 then [] else [favorites[KeyIndex(favorites, word, userId)].favorite]
  {
    if favorites != [] {
      var n := |favorites| - 1;
      var prefix := favorites[..n];
      assert UniqueKeys(prefix);
      MatchesUnderUniqueKeys(prefix, word, userId);
      if HasKey(favorites[n], word, userId) {
        forall j | 0 <= j < n ensures !HasKey(prefix[j], word, userId) {
          assert !HasKey(favorites[n], favorites[j].word, favorites[j].userId);
        }
      }
    }
  }

  lemma JoinedSnoc(words: seq<string>, w: string, favorites: seq<FavoriteRow>, userId: int)
    ensures Joined(words + [w], favorites, userId) == Joined(words, favorites, userId) + JoinRow(w, favorites, userId)
  {
    assert (words + [w])[..|words|] == words;
  }

  /**
   * Because favourites are unique per (word, user), the join has one row
   * per `words` row, in table order before sorting, holding the user's
   * stored value or 'N'.
   */
  lemma {:induction false} OneRowPerWord(words: seq<string>, favorites: seq<FavoriteRow>, userId: int)
    requires UniqueKeys(favorites)
    ensures |Joined(words, favorites, userId)| == |words|
    ensures forall i :: 0 <= i < |words| ==>
      Joined(words, favorites, userId)[i] == WordView(words[i], StoredOrN(favorites, words[i], userId))
  {
    if words != [] {
      var n := |words| - 1;
      OneRowPerWord(words[..n], favorites, userId);
      MatchesUnderUniqueKeys(favorites, words[n], userId);
      assert words == words[..n] + [words[n]];
    }
  }

  /** Other users' favourites never change a user's result. */
  lemma {:induction false} OtherUsersIrrelevant(words: seq<string>, favorites: seq<FavoriteRow>, userId: int)
    ensures Joined(words, favorites, userId) == Joined(words, RowsOf(favorites, UserOf, userId), userId)
  {
    if words != [] {
      OtherUsersIrrelevant(words[..|words| - 1], favorites, userId);
      MatchesOwnRows(favorites, words[|words| - 1], userId);
    }
  }

  lemma {:induction false} MatchesOwnRows(favorites: seq<FavoriteRow>, word: string, userId: int)
    ensures Matches(favorites, word, userId) == Matches(RowsOf(favorites, UserOf, userId), word, userId)
  {
    if favorites != [] {
      var n := |favorites| - 1;
      var last := favorites[n];
      MatchesOwnRows(favorites[..n], word, userId);
      var own := RowsOf(favorites[..n], UserOf, userId);
      if last.userId == userId {
        assert RowsOf(favorites, UserOf, userId) == own + [last];
        MatchesSnoc(own, last, word, userId);
      } else {
        assert RowsOf(favorites, UserOf, userId) == own;
      }
    }
  }

  lemma MatchesSnoc(favorites: seq<FavoriteRow>, r: FavoriteRow, word: string, userId: int)
    ensures Matches(favorites + [r], word, userId) ==
      Matches(favorites, word, userId) + if HasKey(r, word, userId) then [r.favorite] else []
  {
    assert (favorites + [r])[..|favorites|] == favorites;
  }

  /**
   * A successful result holds the joined rows, each as often as the join
   * produces it, ordered by word; with unique favourites that is one row
   * per `words` row, carrying the user's value or 'N'. A failing query
   * gives the 500 error.
   */
  lemma IndexOrderedByWord(words: seq<string>, favorites: seq<FavoriteRow>, userId: int, fails: bool)
    ensures fails <==> Index(words, favorites, userId, fails) == Err(AppError(FetchFailed, 500))
    ensures !fails ==> Ascending(Index(words, favorites, userId, fails).value, WordOf)
    ensures !fails ==> multiset(Index(words, favorites, userId, fails).value) == multiset(Joined(words, favorites, userId))
    ensures !fails && UniqueKeys(favorites) ==>
      |Index(words, favorites, userId, fails).value| == |words| &&
      forall v :: v in Index(words, favorites, userId, fails).value <==>
        v.word in words && v == WordView(v.word, StoredOrN(favorites, v.word, userId))
  {
    if !fails {
      var r := Index(words, favorites, userId, fails).value;
      var j := Joined(words, favorites, userId);
      StepIsAscending(r, WordOf);
      if UniqueKeys(favorites) {
        OneRowPerWord(words, favorites, userId);
        assert |r| == |multiset(r)| == |j|;
        forall v ensures v in r <==> v.word in words && v == WordView(v.word, StoredOrN(favorites, v.word, userId)) {
          assert v in r <==> v in multiset(j);
          if v.word in words && v == WordView(v.word, StoredOrN(favorites, v.word, userId)) {
            var i :| 0 <= i < |words| && words[i] == v.word;
            assert j[i] == v;
          }
        }
      }
    }
  }
}
