/**
 * The favourites screen's `transformData`: every favourite becomes a record
 * numbered by its input position and is filed under the day of its
 * `updated_at` timestamp; the days become the sections of the list.
 */
module FavoritesByDay {
  import opened Seqs
  import opened Strings
  import opened DayGroups

  /** A favourite as the server lists it. */
  datatype OriginalWord = OriginalWord(favorite: string, updatedAt: string, word: string)

  /** The record shown in a section. */
  datatype TransformedWord = TransformedWord(createdAt: string, id: int, word: string, favorite: string)

  /** The record pushed for the favourite at input position `index`. */
  function Converted(w: OriginalWord, index: int): TransformedWord
  {
    TransformedWord(w.updatedAt, index + 1, w.word, w.favorite)
  }

  /** All the records, in input order. */
  function Converteds(words: seq<OriginalWord>): (items: seq<TransformedWord>)
    ensures |items| == |words|
    ensures forall i :: 0 <= i < |words| ==> items[i] == Converted(words[i], i)
  {
    seq(|words|, i requires 0 <= i < |words| => Converted(words[i], i))
  }

  /** The section a record is filed under: the text before the first space of its timestamp. */
  function CreatedDay(t: TransformedWord): string
  {
    FirstField(t.createdAt, ' ')
  }

  /** The day of every favourite's `updated_at`, in input order. */
  function UpdatedDays(words: seq<OriginalWord>): (days: seq<string>)
    ensures |days| == |words|
    ensures forall i :: 0 <= i < |words| ==> days[i] == FirstField(words[i].updatedAt, ' ')
  {
    seq(|words|, i requires 0 <= i < |words| => FirstField(words[i].updatedAt, ' '))
  }

  /** What `transformData` returns. */
  function Grouped(words: seq<OriginalWord>): seq<Section<TransformedWord>>
  {
    Group(Converteds(words), CreatedDay)
  }

  /**
   * The loop fills a dictionary from day to records; `keys` is the order in
   * which the dictionary's keys were created, which `Object.keys` returns.
   */
  method TransformData(words: seq<OriginalWord>) returns (sections: seq<Section<TransformedWord>>)
    ensures sections == Grouped(words)
    ensures |sections| == 0 <==> |words| == 0
  {
    ghost var items := Converteds(words);
    var grouped: map<string, seq<TransformedWord>> := map[];
    var keys: seq<string> := [];
    var index := 0;
    while index < |words|
      invariant 0 <= index <= |words|
      invariant Filed(items[..index], CreatedDay, grouped, keys)
    {
      var word := words[index];
      var date := FirstField(word.updatedAt, ' ');
      FileOne(items[..index], CreatedDay, grouped, keys, items[index]);
      if date !in grouped {
        grouped := grouped[date := []];
        keys := keys + [date];
      }
      grouped := grouped[date := grouped[date] + [TransformedWord(word.updatedAt, index + 1, word.word, word.favorite)]];
      assert items[index] == TransformedWord(word.updatedAt, index + 1, word.word, word.favorite);
      TakeOneMore(items, index);
      index := index + 1;
    }
    assert items[..index] == items;
    ReadBack(items, CreatedDay, grouped, keys);
    sections := seq(|keys|, i requires 0 <= i < |keys| && keys[i] in grouped => Section(keys[i], grouped[keys[i]]));
  }

  lemma DaysOfRecords(words: seq<OriginalWord>)
    ensures KeysOf(Converteds(words), CreatedDay) == UpdatedDays(words)
  {
  }

  /**
   * Every record in a section is the favourite at position `id - 1`,
   * copied field for field, whose `updated_at` day is the section's title;
   * within a section the ids, hence the input positions, increase.
   */
  lemma {:induction false} RecordsTraceToInput(words: seq<OriginalWord>)
    ensures forall i, j :: 0 <= i < |Grouped(words)| && 0 <= j < |Grouped(words)[i].data| ==>
      var t := Grouped(words)[i].data[j];
      1 <= t.id <= |words| && t == Converted(words[t.id - 1], t.id - 1) &&
      FirstField(words[t.id - 1].updatedAt, ' ') == Grouped(words)[i].title
    ensures forall i, j1, j2 :: 0 <= i < |Grouped(words)| && 0 <= j1 < j2 < |Grouped(words)[i].data| ==>
      Grouped(words)[i].data[j1].id < Grouped(words)[i].data[j2].id
  {
    var g := Grouped(words);
    forall i | 0 <= i < |g|
      ensures forall j :: 0 <= j < |g[i].data| ==>
        var t := g[i].data[j];
        1 <= t.id <= |words| && t == Converted(words[t.id - 1], t.id - 1) &&
        FirstField(words[t.id - 1].updatedAt, ' ') == g[i].title
      ensures forall j1, j2 :: 0 <= j1 < j2 < |g[i].data| ==> g[i].data[j1].id < g[i].data[j2].id
    {
      BucketRecords(words, g[i].title);
    }
  }

  /** The records of one day: favourites of that day, in increasing input position. */
  lemma BucketRecords(words: seq<OriginalWord>, day: string)
    ensures forall j :: 0 <= j < |Bucket(Converteds(words), CreatedDay, day)| ==>
      var t := Bucket(Converteds(words), CreatedDay, day)[j];
      1 <= t.id <= |words| && t == Converted(words[t.id - 1], t.id - 1) &&
      FirstField(words[t.id - 1].updatedAt, ' ') == day
    ensures forall j1, j2 :: 0 <= j1 < j2 < |Bucket(Converteds(words), CreatedDay, day)| ==>
      Bucket(Converteds(words), CreatedDay, day)[j1].id < Bucket(Converteds(words), CreatedDay, day)[j2].id
  {
    var items := Converteds(words);
    var b := Bucket(items, CreatedDay, day);
    var ps := Positions(KeysOf(items, CreatedDay), day);
    BucketAtPositions(items, CreatedDay, day);
    forall j | 0 <= j < |b| ensures b[j].id == ps[j] + 1 && b[j] == Converted(words[ps[j]], ps[j]) {
      RecordAt(words, ps[j]);
    }
  }

  lemma RecordAt(words: seq<OriginalWord>, p: nat)
    requires p < |words|
    ensures Converteds(words)[p] == Converted(words[p], p)
    ensures Converteds(words)[p].id == p + 1
  {
  }

  /** Section titles are distinct and follow the first occurrence of each day in the input. */
  lemma DaysInFirstOccurrenceOrder(words: seq<OriginalWord>)
    ensures forall i :: 0 <= i < |Grouped(words)| ==> Grouped(words)[i].title in UpdatedDays(words)
    ensures forall i, j :: 0 <= i < j < |Grouped(words)| ==>
      Grouped(words)[i].title != Grouped(words)[j].title
    ensures forall i, j :: 0 <= i < j < |Grouped(words)| ==>
      IndexOf(UpdatedDays(words), Grouped(words)[i].title) <
      IndexOf(UpdatedDays(words), Grouped(words)[j].title)
  {
    DaysOfRecords(words);
    TitlesInFirstOccurrenceOrder(Converteds(words), CreatedDay);
  }

  /**
   * Every favourite is filed exactly once and no section is empty: the
   * sections hold as many records as there are favourites, among them the
   * record of each input position, so the ids are exactly 1..n.
   */
  lemma EveryFavoriteFiledOnce(words: seq<OriginalWord>)
    ensures |Flatten(Grouped(words))| == |words|
    ensures forall p :: 0 <= p < |words| ==> Converted(words[p], p) in Flatten(Grouped(words))
    ensures forall i :: 0 <= i < |Grouped(words)| ==> Grouped(words)[i].data != []
  {
    var items := Converteds(words);
    EveryItemOnce(items, CreatedDay);
    TotalSize(items, CreatedDay);
    NoEmptySection(items, CreatedDay);
    forall p | 0 <= p < |words| ensures Converted(words[p], p) in Flatten(Grouped(words)) {
      assert items[p] in multiset(items);
    }
  }
}
