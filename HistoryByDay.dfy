/**
 * The history hook's `transformData`: the words a user looked up are filed,
 * unchanged, under the day of their `created_at` timestamp; the days
 * become the sections of the history list.
 */
module HistoryByDay {
  import opened Seqs
  import opened Strings
  import opened DayGroups

  /** A history entry as the server lists it. */
  datatype Word = Word(id: int, word: string, createdAt: string)

  /** The day a word is filed under: the text before the first space of `created_at`. */
  function CreatedDay(w: Word): string
  {
    FirstField(w.createdAt, ' ')
  }

  /** What `transformData` returns. */
  function Grouped(words: seq<Word>): seq<Section<Word>>
  {
    Group(words, CreatedDay)
  }

  /**
   * The loop fills a dictionary from day to words; `keys` is the order in
   * which the dictionary's keys were created, which `Object.keys` returns.
   */
  method TransformData(words: seq<Word>) returns (sections: seq<Section<Word>>)
    ensures sections == Grouped(words)
    ensures |sections| == 0 <==> |words| == 0
  {
    var grouped: map<string, seq<Word>> := map[];
    var keys: seq<string> := [];
    var index := 0;
    while index < |words|
      invariant 0 <= index <= |words|
      invariant Filed(words[..index], CreatedDay, grouped, keys)
    {
      var word := words[index];
      var date := FirstField(word.createdAt, ' ');
      FileWord(words, index, grouped, keys);
      if date !in grouped {
        grouped := grouped[date := []];
        keys := keys + [date];
      }
      grouped := grouped[date := grouped[date] + [word]];
      index := index + 1;
    }
    ReadBackAll(words, grouped, keys);
    sections := seq(|keys|, i requires 0 <= i < |keys| && keys[i] in grouped => Section(keys[i], grouped[keys[i]]));
  }

  lemma FileWord(words: seq<Word>, index: nat, grouped: map<string, seq<Word>>, keys: seq<string>)
    requires index < |words| && Filed(words[..index], CreatedDay, grouped, keys)
    ensures var date := FirstField(words[index].createdAt, ' ');
      var g0 := if date in grouped then grouped else grouped[date := []];
      Filed(words[..index + 1], CreatedDay, g0[date := g0[date] + [words[index]]],
        if date in grouped then keys else keys + [date])
  {
    FileOne(words[..index], CreatedDay, grouped, keys, words[index]);
    TakeOneMore(words, index);
  }

  lemma ReadBackAll(words: seq<Word>, grouped: map<string, seq<Word>>, keys: seq<string>)
    requires Filed(words[..|words|], CreatedDay, grouped, keys)
    ensures forall k :: k in keys ==> k in grouped
    ensures seq(|keys|, i requires 0 <= i < |keys| && keys[i] in grouped => Section(keys[i], grouped[keys[i]])) == Grouped(words)
  {
    assert words[..|words|] == words;
    ReadBack(words, CreatedDay, grouped, keys);
  }

  /**
   * A section holds exactly the words of its day, in input order: the
   * words at the increasing positions whose day is the title.
   */
  lemma SectionsHoldTheirDay(words: seq<Word>)
    ensures forall i, j :: 0 <= i < |Grouped(words)| && 0 <= j < |Grouped(words)[i].data| ==>
      FirstField(Grouped(words)[i].data[j].createdAt, ' ') == Grouped(words)[i].title
    ensures forall i :: 0 <= i < |Grouped(words)| ==>
      |Grouped(words)[i].data| == |Positions(KeysOf(words, CreatedDay), Grouped(words)[i].title)|
    ensures forall i, j :: 0 <= i < |Grouped(words)| && 0 <= j < |Grouped(words)[i].data| ==>
      Grouped(words)[i].data[j] == words[Positions(KeysOf(words, CreatedDay), Grouped(words)[i].title)[j]]
  {
    var g := Grouped(words);
    forall i | 0 <= i < |g|
      ensures |g[i].data| == |Positions(KeysOf(words, CreatedDay), g[i].title)|
      ensures forall j :: 0 <= j < |g[i].data| ==>
        g[i].data[j] == words[Positions(KeysOf(words, CreatedDay), g[i].title)[j]]
    {
      BucketAtPositions(words, CreatedDay, g[i].title);
    }
  }

  /** Section titles are distinct and follow the first occurrence of each day in the input. */
  lemma DaysInFirstOccurrenceOrder(words: seq<Word>)
    ensures forall i :: 0 <= i < |Grouped(words)| ==> Grouped(words)[i].title in KeysOf(words, CreatedDay)
    ensures forall i, j :: 0 <= i < j < |Grouped(words)| ==>
      Grouped(words)[i].title != Grouped(words)[j].title
    ensures forall i, j :: 0 <= i < j < |Grouped(words)| ==>
      IndexOf(KeysOf(words, CreatedDay), Grouped(words)[i].title) <
      IndexOf(KeysOf(words, CreatedDay), Grouped(words)[j].title)
  {
    TitlesInFirstOccurrenceOrder(words, CreatedDay);
  }

  /** Every word is filed exactly once, unchanged, and no section is empty. */
  lemma EveryWordFiledOnce(words: seq<Word>)
    ensures multiset(Flatten(Grouped(words))) == multiset(words)
    ensures forall i :: 0 <= i < |Grouped(words)| ==> Grouped(words)[i].data != []
  {
    EveryItemOnce(words, CreatedDay);
    NoEmptySection(words, CreatedDay);
  }
}
