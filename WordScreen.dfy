/**
 * The logic of the Word screen: finding the shown word in the user's word
 * list, the neighbours the Previous and Next buttons go to, the favourite
 * star, the per-word cache of dictionary lookups and the texts shown when
 * the lookup has nothing.
 *
 * The pure helpers are functions. The state the screen changes (the word
 * list, the `isFavorite` flag, the cache, `loading`, `isFirstCall`) is the
 * class `WordScreen`, whose methods follow the step functions on `Screen`.
 * Requests the screen sends are recorded in the state rather than sent.
 */
module WordScreen {
  import opened Wrappers

  /** An entry of `selectedWordsList`. */
  datatype ListItem = ListItem(word: string, favorite: string)

  /** A word as the words endpoint lists it; `updated_at` is not used. */
  datatype ResponseItem = ResponseItem(word: string, favorite: string, updatedAt: Option<string>)

  /** What the screen sends to update a favourite. */
  datatype FavoriteUpdate = FavoriteUpdate(word: string, favorite: string, userId: int)

  /** A dictionary entry: the word, its phonetic and each meaning's definitions. */
  datatype Detail = Detail(word: string, phonetic: string, meanings: seq<seq<string>>)

  /** How the dictionary lookup of a word ends. */
  datatype Lookup =
    | Found(detail: Detail)  // the first entry of the response
    | NotFound               // an HTTP error response, such as 404
    | NoResponse             // an error without a response (network failure)

  const NoDefinition := "Sorry, we couldn't find definitions for the word you were looking for."
  const NoWord := "No Word Found"

  /** `findIndex(item => item.word === w)`: the first position holding `w`, or -1. */
  function FindIndex(list: seq<ListItem>, w: string): (i: int)
    ensures -1 <= i < |list|
    ensures i == -1 <==> forall j :: 0 <= j < |list| ==> list[j].word != w
    ensures i >= 0 ==> list[i].word == w && forall j :: 0 <= j < i ==> list[j].word != w
  {
    if list == [] then -1
    else if list[0].word == w then 0
    else
      var r := FindIndex(list[1..], w);
      if r == -1 then -1 else r + 1
  }

  /** `loadWords`: keep each listed word with its favourite flag. */
  function ExtractWordAndFavorite(response: seq<ResponseItem>): (list: seq<ListItem>)
    ensures |list| == |response|
    ensures forall i :: 0 <= i < |list| ==>
      list[i].word == response[i].word && list[i].favorite == response[i].favorite
  {
    seq(|response|, i requires 0 <= i < |response| => ListItem(response[i].word, response[i].favorite))
  }

  function GetPreviousWord(word: string, list: seq<ListItem>): Option<string>
  {
    var i := FindIndex(list, word);
    if i <= 0 then None else Some(list[i - 1].word)
  }

  function GetNextWord(word: string, list: seq<ListItem>): Option<string>
  {
    var i := FindIndex(list, word);
    if i == -1 || i == |list| - 1 then None else Some(list[i + 1].word)
  }

  /** Where `handleNextWord` navigates, if anywhere. */
  function HandleNextWord(selected: string, list: seq<ListItem>): Option<string>
  {
    var i := FindIndex(list, selected);
    if i < |list| - 1 then Some(list[i + 1].word) else None
  }

  /** Where `handlePreviousWord` navigates, if anywhere. */
  function HandlePreviousWord(selected: string, list: seq<ListItem>): Option<string>
  {
    var i := FindIndex(list, selected);
    if i > 0 then Some(list[i - 1].word) else None
  }

  predicate DisablePrevious(selected: string, list: seq<ListItem>)
  {
    FindIndex(list, selected) == 0
  }

  predicate DisableNext(selected: string, list: seq<ListItem>)
  {
    FindIndex(list, selected) == |list| - 1
  }

  /**
   * The Next button's handler, given the word shown on screen and the
   * selected word: the word it sends to the history (if any) and where
   * it navigates (if anywhere). When that send fails, it does not navigate.
   */
  function RegisterNext(shown: string, selected: string, list: seq<ListItem>, sendFails: bool)
    : (r: (Option<string>, Option<string>))
    ensures r.0.Some? && sendFails ==> r.1.None?
    ensures r.0.None? || !sendFails ==> r.1 == HandleNextWord(selected, list)
  {
    var target := GetNextWord(shown, list);
    if target.Some? && sendFails then (target, None)
    else (target, HandleNextWord(selected, list))
  }

  /** The Previous button's handler, as `RegisterNext`. */
  function RegisterPrevious(shown: string, selected: string, list: seq<ListItem>, sendFails: bool)
    : (r: (Option<string>, Option<string>))
    ensures r.0.Some? && sendFails ==> r.1.None?
    ensures r.0.None? || !sendFails ==> r.1 == HandlePreviousWord(selected, list)
  {
    var target := GetPreviousWord(shown, list);
    if target.Some? && sendFails then (target, None)
    else (target, HandlePreviousWord(selected, list))
  }

  // ---------------------------------------------------------------------
  // The neighbours of a word.
  // ---------------------------------------------------------------------

  /**
   * For a word whose first occurrence is at `i`, the helpers and the
   * handlers agree: the previous word is the entry before `i` unless `i` is
   * 0, the next word the entry after `i` unless `i` is last, and the
   * buttons are disabled exactly at the ends.
   */
  lemma NeighboursOfFirstOccurrence(list: seq<ListItem>, word: string, i: nat)
    requires i < |list| && list[i].word == word
    requires forall j :: 0 <= j < i ==> list[j].word != word
    ensures GetPreviousWord(word, list) == if i == 0 then None else Some(list[i - 1].word)
    ensures GetNextWord(word, list) == if i == |list| - 1 then None else Some(list[i + 1].word)
    ensures HandlePreviousWord(word, list) == GetPreviousWord(word, list)
    ensures HandleNextWord(word, list) == GetNextWord(word, list)
    ensures DisablePrevious(word, list) <==> i == 0
    ensures DisableNext(word, list) <==> i == |list| - 1
  {
  }

  /**
   * For a word not in the list, both helpers give null and Previous does
   * nothing, but Next goes to the first entry of a non-empty list; Next is
   * disabled only for the empty list.
   */
  lemma AbsentWord(list: seq<ListItem>, word: string)
    requires forall j :: 0 <= j < |list| ==> list[j].word != word
    ensures GetPreviousWord(word, list) == None && GetNextWord(word, list) == None
    ensures HandlePreviousWord(word, list) == None
    ensures HandleNextWord(word, list) == if list == [] then None else Some(list[0].word)
    ensures !DisablePrevious(word, list)
    ensures DisableNext(word, list) <==> list == []
  {
  }

  /**
   * The Next handler records the neighbour of the word shown but navigates
   * from the selected word: when the lookup failed, the word shown is
   * "No Word Found", nothing is recorded, and the screen still moves on.
   */
  lemma NextRecordsShownWord(selected: string, other: string)
    requires selected != NoWord && other != selected && other != NoWord
    ensures var list := [ListItem(selected, "N"), ListItem(other, "N")];
      RegisterNext(NoWord, selected, list, false) == (None, Some(other)) &&
      RegisterNext(selected, selected, list, false) == (Some(other), Some(other)) &&
      RegisterNext(selected, selected, list, true) == (Some(other), None)
  {
    var list := [ListItem(selected, "N"), ListItem(other, "N")];
    NeighboursOfFirstOccurrence(list, selected, 0);
    AbsentWord(list, NoWord);
  }

  /**
   * When the word shown is the selected one and recording succeeds, each
   * button records exactly the word it navigates to.
   */
  lemma RegisterRecordsTarget(selected: string, list: seq<ListItem>)
    requires exists j :: 0 <= j < |list| && list[j].word == selected
    ensures RegisterNext(selected, selected, list, false).0 == RegisterNext(selected, selected, list, false).1
    ensures RegisterPrevious(selected, selected, list, false).0 == RegisterPrevious(selected, selected, list, false).1
  {
  }

  // ---------------------------------------------------------------------
  // The texts shown for a lookup.
  // ---------------------------------------------------------------------

  /** `meanings[0]?.definitions[0]?.definition`, when present and not empty. */
  function FirstDefinition(d: Detail): Option<string>
  {
    if |d.meanings| > 0 && |d.meanings[0]| > 0 && d.meanings[0][0] != "" then Some(d.meanings[0][0]) else None
  }

  function MeaningText(details: Option<Detail>): (text: string)
  {
    if details.Some? && FirstDefinition(details.value).Some? then FirstDefinition(details.value).value
    else NoDefinition
  }

  function WordText(details: Option<Detail>): (text: string)
  {
    if details.Some? && details.value.word != "" then details.value.word else NoWord
  }

  function PhoneticText(details: Option<Detail>): (text: string)
  {
    if details.Some? && details.value.phonetic != "" then details.value.phonetic else ""
  }

  /**
   * Each text is the entry's own value when there is one, and its
   * fallback exactly when there is none.
   */
  lemma DisplayFallbacks(details: Option<Detail>)
    ensures MeaningText(details) == NoDefinition <==>
      details.None? || |details.value.meanings| == 0 || |details.value.meanings[0]| == 0 ||
      details.value.meanings[0][0] in {"", NoDefinition}
    ensures WordText(details) == NoWord <==> details.None? || details.value.word in {"", NoWord}
    ensures PhoneticText(details) == "" <==> details.None? || details.value.phonetic == ""
    ensures details.Some? && details.value.word != "" ==> WordText(details) == details.value.word
  {
  }

  // ---------------------------------------------------------------------
  // The screen's state and its steps.
  // ---------------------------------------------------------------------

  datatype Screen = Screen(
    list: seq<ListItem>,               // `selectedWordsList`
    isFavorite: bool,
    sent: seq<FavoriteUpdate>,         // favourite updates sent, in order
    cache: map<string, Option<Detail>>, // `wordCache`; None is a cached null
    details: Option<Detail>,           // `wordDetails`
    loading: bool,
    isFirstCall: bool,
    lookups: seq<string>)              // words looked up in the dictionary, in order

  /** The screen as it mounts. */
  function Opened(): Screen
  {
    Screen([], false, [], map[], None, true, true, [])
  }

  /**
   * `handleIconClick`: flip `isFavorite`; if the selected word is listed,
   * write "N" into its first entry when the flag was set and "Y" otherwise,
   * and send that value.
   */
  function ClickStar(s: Screen, selected: string, userId: int): Screen
  {
    var i := FindIndex(s.list, selected);
    var flipped := s.(isFavorite := !s.isFavorite);
    if i == -1 then flipped
    else
      var v := if s.isFavorite then "N" else "Y";
      flipped.(list := s.list[i := s.list[i].(favorite := v)],
               sent := s.sent + [FavoriteUpdate(s.list[i].word, v, userId)])
  }

  /** After a lookup settles, the first call turns `loading` off once. */
  function Settle(s: Screen): Screen
  {
    if s.isFirstCall then s.(loading := false, isFirstCall := false) else s
  }

  /**
   * `fetchWordDetails` for `selected`, where `lookup` is how the dictionary
   * would answer. A cached entry that is not null is used without a lookup.
   */
  function Fetch(s: Screen, selected: string, lookup: Lookup): Screen
  {
    var s1 := if s.isFirstCall then s.(loading := true) else s;
    if selected in s.cache && s.cache[selected].Some? then
      Settle(s1.(details := s.cache[selected]))
    else
      var s2 := s1.(lookups := s1.lookups + [selected]);
      match lookup
      case Found(d) => Settle(s2.(details := Some(d), cache := s2.cache[selected := Some(d)]))
      case NotFound => Settle(s2.(details := None, cache := s2.cache[selected := None]))
      case NoResponse => s2
  }

  /**
   * The star changes only the first entry holding the selected word, to
   * "N" after a set flag and "Y" otherwise, and sends exactly that; for an
   * unlisted word it changes and sends nothing. The flag always flips.
   */
  lemma ClickStarChangesFirstMatchOnly(s: Screen, selected: string, userId: int)
    ensures var r := ClickStar(s, selected, userId);
      r.isFavorite == !s.isFavorite && |r.list| == |s.list| &&
      r.cache == s.cache && r.details == s.details && r.lookups == s.lookups
    ensures forall j :: 0 <= j < |s.list| && j != FindIndex(s.list, selected) ==>
      ClickStar(s, selected, userId).list[j] == s.list[j]
    ensures FindIndex(s.list, selected) == -1 ==>
      ClickStar(s, selected, userId).list == s.list && ClickStar(s, selected, userId).sent == s.sent
    ensures FindIndex(s.list, selected) >= 0 ==>
      var i := FindIndex(s.list, selected);
      var v := if s.isFavorite then "N" else "Y";
      ClickStar(s, selected, userId).list[i] == ListItem(selected, v) &&
      ClickStar(s, selected, userId).sent == s.sent + [FavoriteUpdate(selected, v, userId)]
  {
  }

  /**
   * `isFavorite` starts false and is never read from the list, so the
   * first click on a freshly opened screen writes and sends "Y" even for a
   * word whose entry is already "Y"; a second click sends "N".
   */
  lemma {:induction false} FirstClickSendsY(list: seq<ListItem>, selected: string, userId: int)
    requires FindIndex(list, selected) >= 0
    ensures var s := Opened().(list := list);
      var once := ClickStar(s, selected, userId);
      var twice := ClickStar(once, selected, userId);
      once.sent == [FavoriteUpdate(selected, "Y", userId)] &&
      twice.sent == once.sent + [FavoriteUpdate(selected, "N", userId)] &&
      twice.list[FindIndex(list, selected)].favorite == "N"
  {
    var s := Opened().(list := list);
    var i := FindIndex(list, selected);
    var once := ClickStar(s, selected, userId);
    ClickStarChangesFirstMatchOnly(s, selected, userId);
    assert forall j :: 0 <= j < i ==> once.list[j] == list[j];
    NeighboursIndex(once.list, selected, i);
  }

  /** The position of the first occurrence is determined by the entries up to it. */
  lemma NeighboursIndex(list: seq<ListItem>, word: string, i: nat)
    requires i < |list| && list[i].word == word
    requires forall j :: 0 <= j < i ==> list[j].word != word
    ensures FindIndex(list, word) == i
  {
  }

  /** A cached entry that is not null is shown without a lookup, whatever the dictionary would say. */
  lemma CachedEntryReused(s: Screen, selected: string, lookup: Lookup)
    requires selected in s.cache && s.cache[selected].Some?
    ensures Fetch(s, selected, lookup).details == s.cache[selected]
    ensures Fetch(s, selected, lookup).lookups == s.lookups
    ensures Fetch(s, selected, lookup).cache == s.cache
  {
  }

  /**
   * A word not cached, or cached as null after a failed lookup, is looked
   * up again; a found entry is cached and shown, a failed lookup caches
   * null and shows nothing.
   */
  lemma MissLooksUp(s: Screen, selected: string, lookup: Lookup)
    requires selected !in s.cache || s.cache[selected].None?
    ensures Fetch(s, selected, lookup).lookups == s.lookups + [selected]
    ensures lookup.Found? ==>
      (Fetch(s, selected, lookup).details == Some(lookup.detail) &&
       Fetch(s, selected, lookup).cache == s.cache[selected := Some(lookup.detail)])
    ensures lookup.NotFound? ==>
      (Fetch(s, selected, lookup).details == None &&
       Fetch(s, selected, lookup).cache == s.cache[selected := None])
    ensures lookup.NoResponse? ==>
      (Fetch(s, selected, lookup).details == s.details &&
       Fetch(s, selected, lookup).cache == s.cache)
  {
  }

  /**
   * Once a lookup has found an entry, showing the word again uses the
   * cache: the same details, and no new lookup.
   */
  lemma {:induction false} FoundThenCached(s: Screen, selected: string, d: Detail, again: Lookup)
    ensures var r := Fetch(s, selected, Found(d));
      Fetch(r, selected, again).details == r.details && Fetch(r, selected, again).lookups == r.lookups
    ensures (selected !in s.cache || s.cache[selected].None?) ==> Fetch(s, selected, Found(d)).details == Some(d)
  {
    var r := Fetch(s, selected, Found(d));
    if selected in s.cache && s.cache[selected].Some? {
      CachedEntryReused(s, selected, Found(d));
    } else {
      MissLooksUp(s, selected, Found(d));
    }
    CachedEntryReused(r, selected, again);
  }

  /**
   * The first call turns `loading` off and clears `isFirstCall` unless it
   * had to look the word up and got no response, in which case the spinner
   * stays; later calls never touch `loading`.
   */
  lemma LoadingSettlesOnce(s: Screen, selected: string, lookup: Lookup)
    ensures s.isFirstCall ==>
      var stuck := (selected !in s.cache || s.cache[selected].None?) && lookup.NoResponse?;
      Fetch(s, selected, lookup).loading == stuck && Fetch(s, selected, lookup).isFirstCall == stuck
    ensures !s.isFirstCall ==>
      Fetch(s, selected, lookup).loading == s.loading && !Fetch(s, selected, lookup).isFirstCall
  {
  }

  /** The screen's state, held in fields that the handlers update. */
  class WordScreen {
    var selectedWordsList: seq<ListItem>
    var isFavorite: bool
    var sent: seq<FavoriteUpdate>
    var wordCache: map<string, Option<Detail>>
    var wordDetails: Option<Detail>
    var loading: bool
    var isFirstCall: bool
    var lookups: seq<string>

    function State(): Screen
      reads this
    {
      Screen(selectedWordsList, isFavorite, sent, wordCache, wordDetails, loading, isFirstCall, lookups)
    }

    constructor ()
      ensures State() == Opened()
    {
      selectedWordsList, isFavorite, sent := [], false, [];
      wordCache, wordDetails := map[], None;
      loading, isFirstCall, lookups := true, true, [];
    }

    /** `loadWords` with the words endpoint's response. */
    method LoadWords(response: seq<ResponseItem>)
      modifies this
      ensures State() == old(State()).(list := ExtractWordAndFavorite(response))
    {
      selectedWordsList := ExtractWordAndFavorite(response);
    }

    method HandleIconClick(selectedWord: string, userId: int)
      modifies this
      ensures State() == ClickStar(old(State()), selectedWord, userId)
    {
      var prior := isFavorite;
      isFavorite := !isFavorite;
      var wordIndex := FindIndex(selectedWordsList, selectedWord);
      if wordIndex != -1 {
        var updatedFavorite := if prior then "N" else "Y";
        var item := selectedWordsList[wordIndex];
        selectedWordsList := selectedWordsList[wordIndex := item.(favorite := updatedFavorite)];
        sent := sent + [FavoriteUpdate(item.word, updatedFavorite, userId)];
      }
    }

    method FetchWordDetails(selectedWord: string, lookup: Lookup)
      modifies this
      ensures State() == Fetch(old(State()), selectedWord, lookup)
    {
      if isFirstCall {
        loading := true;
      }
      if selectedWord in wordCache && wordCache[selectedWord].Some? {
        wordDetails := wordCache[selectedWord];
      } else {
        lookups := lookups + [selectedWord];
        match lookup
        case Found(d) =>
          wordDetails := Some(d);
          wordCache := wordCache[selectedWord := Some(d)];
        case NotFound =>
          wordDetails := None;
          wordCache := wordCache[selectedWord := None];
        case NoResponse =>
          return;
      }
      if isFirstCall {
        loading := false;
        isFirstCall := false;
      }
    }
  }
}
