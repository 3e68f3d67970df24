/**
 * Grouping a flat list into titled sections, the shape both `transformData`
 * functions of the app build for a `SectionList`: one section per key (the
 * day of a timestamp), titled by the key, holding the items with that key.
 *
 * The functions here are the specification; the loops that build a
 * dictionary and read it back through `Object.keys` live with their
 * callers and are proved equal to `Group`. Sections come in the order in
 * which their keys were first met, which is the order `Object.keys` lists
 * string keys that are not array indices (ECMAScript 2023, section
 * 10.1.11.1, OrdinaryOwnPropertyKeys).
 */
module DayGroups {
  import opened Seqs

  datatype Section<T> = Section(title: string, data: seq<T>)

  /** The key of every item, in input order. */
  function KeysOf<T>(items: seq<T>, key: T -> string): (ks: seq<string>)
    ensures |ks| == |items|
    ensures forall i :: 0 <= i < |items| ==> ks[i] == key(items[i])
  {
    seq(|items|, i requires 0 <= i < |items| => key(items[i]))
  }

  /** `ks` with every repeat dropped: each key kept where it first occurs. */
  function Distinct(ks: seq<string>): (d: seq<string>)
    ensures forall k :: k in d <==> k in ks
    ensures forall i, j :: 0 <= i < j < |d| ==> d[i] != d[j]
  {
    if ks == [] then []
    else
      var d := Distinct(ks[..|ks| - 1]);
      var k := ks[|ks| - 1];
      assert ks == ks[..|ks| - 1] + [k];
      if k in d then d else d + [k]
  }

  /** The items whose key is `k`, in input order. */
  function Bucket<T>(items: seq<T>, key: T -> string, k: string): (b: seq<T>)
    ensures |b| <= |items|
    ensures forall i :: 0 <= i < |b| ==> key(b[i]) == k
  {
    if items == [] then []
    else
      var b := Bucket(items[..|items| - 1], key, k);
      if key(items[|items| - 1]) == k then b + [items[|items| - 1]] else b
  }

  /** The positions of `ks` that hold `k`, in increasing order. */
  function Positions(ks: seq<string>, k: string): (ps: seq<nat>)
    ensures forall i :: 0 <= i < |ps| ==> ps[i] < |ks| && ks[ps[i]] == k
    ensures forall i, j :: 0 <= i < j < |ps| ==> ps[i] < ps[j]
    ensures forall p :: 0 <= p < |ks| && ks[p] == k ==> p in ps
  {
    if ks == [] then []
    else
      var ps := Positions(ks[..|ks| - 1], k);
      if ks[|ks| - 1] == k then ps + [|ks| - 1] else ps
  }

  /** Section titles: the keys, in order of first occurrence. */
  function Titles<T>(items: seq<T>, key: T -> string): seq<string>
  {
    Distinct(KeysOf(items, key))
  }

  /** One section per title, holding that title's bucket. */
  function Sections<T>(items: seq<T>, key: T -> string, titles: seq<string>): (s: seq<Section<T>>)
    ensures |s| == |titles|
    ensures forall i :: 0 <= i < |s| ==> s[i] == Section(titles[i], Bucket(items, key, titles[i]))
  {
    seq(|titles|, i requires 0 <= i < |titles| => Section(titles[i], Bucket(items, key, titles[i])))
  }

  /** The grouped sections; there are none exactly when there are no items. */
  function Group<T>(items: seq<T>, key: T -> string): (sections: seq<Section<T>>)
    ensures |sections| == 0 <==> |items| == 0
  {
    assert |items| > 0 ==> KeysOf(items, key)[0] in KeysOf(items, key);
    Sections(items, key, Titles(items, key))
  }

  /** All the sections' items, section after section. */
  function Flatten<T>(sections: seq<Section<T>>): seq<T>
  {
    if sections == [] then []
    else Flatten(sections[..|sections| - 1]) + sections[|sections| - 1].data
  }

  // ---------------------------------------------------------------------
  // One more item: how titles and buckets grow (used by the loops).
  // ---------------------------------------------------------------------

  lemma KeysOfSnoc<T>(items: seq<T>, key: T -> string, x: T)
    ensures KeysOf(items + [x], key) == KeysOf(items, key) + [key(x)]
  {
  }

  /** A new key opens a section at the end; a known key changes no title. */
  lemma TitlesSnoc<T>(items: seq<T>, key: T -> string, x: T)
    ensures Titles(items + [x], key) ==
      if key(x) in Titles(items, key) then Titles(items, key) else Titles(items, key) + [key(x)]
  {
    KeysOfSnoc(items, key, x);
    var ks := KeysOf(items, key) + [key(x)];
    assert ks[..|ks| - 1] == KeysOf(items, key);
  }

  /** The new item joins the bucket of its own key and no other. */
  lemma BucketSnoc<T>(items: seq<T>, key: T -> string, x: T, k: string)
    ensures Bucket(items + [x], key, k) ==
      if key(x) == k then Bucket(items, key, k) + [x] else Bucket(items, key, k)
  {
    assert (items + [x])[..|items|] == items;
  }

  /** A bucket is empty exactly when no item has its key. */
  lemma {:induction false} BucketEmpty<T>(items: seq<T>, key: T -> string, k: string)
    ensures Bucket(items, key, k) == [] <==> k !in KeysOf(items, key)
  {
    if items != [] {
      var n := |items| - 1;
      BucketEmpty(items[..n], key, k);
      assert items == items[..n] + [items[n]];
      KeysOfSnoc(items[..n], key, items[n]);
    }
  }

  lemma FlattenSnoc<T>(s: seq<Section<T>>, sec: Section<T>)
    ensures Flatten(s + [sec]) == Flatten(s) + sec.data
  {
    assert (s + [sec])[..|s|] == s;
  }

  lemma SectionsSnoc<T>(items: seq<T>, key: T -> string, ts: seq<string>, t: string)
    ensures Sections(items, key, ts + [t]) == Sections(items, key, ts) + [Section(t, Bucket(items, key, t))]
  {
  }

  // ---------------------------------------------------------------------
  // The dictionary the loops fill, and reading it back.
  // ---------------------------------------------------------------------

  /**
   * `grouped` maps each key met so far to its bucket, and `keys` lists the
   * dictionary's keys in the order they were created.
   */
  ghost predicate Filed<T>(items: seq<T>, key: T -> string, grouped: map<string, seq<T>>, keys: seq<string>)
  {
    && keys == Titles(items, key)
    && (forall k :: k in grouped <==> k in keys)
    && (forall k :: k in grouped ==> grouped[k] == Bucket(items, key, k))
  }

  /** Filing one more item: create its key's empty list if missing, then push onto it. */
  lemma FileOne<T>(items: seq<T>, key: T -> string, grouped: map<string, seq<T>>, keys: seq<string>, x: T)
    requires Filed(items, key, grouped, keys)
    ensures key(x) !in grouped ==> Bucket(items, key, key(x)) == []
    ensures var g0 := if key(x) in grouped then grouped else grouped[key(x) := []];
      Filed(items + [x], key, g0[key(x) := g0[key(x)] + [x]],
        if key(x) in grouped then keys else keys + [key(x)])
  {
    BucketEmpty(items, key, key(x));
    TitlesSnoc(items, key, x);
    forall k ensures Bucket(items + [x], key, k) == if key(x) == k then Bucket(items, key, k) + [x] else Bucket(items, key, k) {
      BucketSnoc(items, key, x, k);
    }
  }

  /** Reading the dictionary back key by key gives the sections. */
  lemma ReadBack<T>(items: seq<T>, key: T -> string, grouped: map<string, seq<T>>, keys: seq<string>)
    requires Filed(items, key, grouped, keys)
    ensures forall k :: k in keys ==> k in grouped
    ensures seq(|keys|, i requires 0 <= i < |keys| && keys[i] in grouped => Section(keys[i], grouped[keys[i]])) == Group(items, key)
  {
  }

  // ---------------------------------------------------------------------
  // What the grouping promises.
  // ---------------------------------------------------------------------

  /** Every item of a section has the section's title as its key. */
  lemma SectionTitleIsKey<T>(items: seq<T>, key: T -> string)
    ensures forall i, j :: 0 <= i < |Group(items, key)| && 0 <= j < |Group(items, key)[i].data| ==>
      key(Group(items, key)[i].data[j]) == Group(items, key)[i].title
  {
  }

  /** No section is empty. */
  lemma {:induction false} NoEmptySection<T>(items: seq<T>, key: T -> string)
    ensures forall i :: 0 <= i < |Group(items, key)| ==> Group(items, key)[i].data != []
  {
    var g := Group(items, key);
    forall i | 0 <= i < |g| ensures g[i].data != [] {
      BucketEmpty(items, key, g[i].title);
    }
  }

  /**
   * Titles are distinct and come in the order in which the keys first
   * occur in the input.
   */
  lemma {:induction false} TitlesInFirstOccurrenceOrder<T>(items: seq<T>, key: T -> string)
    ensures forall i, j :: 0 <= i < j < |Group(items, key)| ==>
      Group(items, key)[i].title != Group(items, key)[j].title
    ensures forall i, j :: 0 <= i < j < |Group(items, key)| ==>
      IndexOf(KeysOf(items, key), Group(items, key)[i].title) <
      IndexOf(KeysOf(items, key), Group(items, key)[j].title)
  {
    DistinctInFirstOccurrenceOrder(KeysOf(items, key));
  }

  lemma {:induction false} DistinctInFirstOccurrenceOrder(ks: seq<string>)
    ensures forall i, j :: 0 <= i < j < |Distinct(ks)| ==>
      IndexOf(ks, Distinct(ks)[i]) < IndexOf(ks, Distinct(ks)[j])
  {
    if ks != [] {
      var pre := ks[..|ks| - 1];
      var k := ks[|ks| - 1];
      assert ks == pre + [k];
      DistinctInFirstOccurrenceOrder(pre);
      forall y | y in pre ensures IndexOf(ks, y) == IndexOf(pre, y) {
        var p := IndexOf(pre, y);
        assert ks[..p] == pre[..p];
        IndexOfUnique(ks, y, p);
      }
      if k !in pre {
        assert ks[..|pre|] == pre;
        IndexOfUnique(ks, k, |pre|);
      }
    }
  }

  /**
   * Within a section the items keep their input order: a bucket is the
   * items at exactly the positions holding its key, in increasing order.
   */
  lemma {:induction false} BucketAtPositions<T>(items: seq<T>, key: T -> string, k: string)
    ensures |Bucket(items, key, k)| == |Positions(KeysOf(items, key), k)|
    ensures forall i :: 0 <= i < |Bucket(items, key, k)| ==>
      Bucket(items, key, k)[i] == items[Positions(KeysOf(items, key), k)[i]]
  {
    if items != [] {
      var n := |items| - 1;
      BucketAtPositions(items[..n], key, k);
      assert items == items[..n] + [items[n]];
      KeysOfSnoc(items[..n], key, items[n]);
      var ks := KeysOf(items, key);
      assert ks[..n] == KeysOf(items[..n], key);
    }
  }

  /** Adding one item adds it to the contents of the bucket of its key, if that key is listed. */
  lemma {:induction false} SectionsSnocItem<T>(items: seq<T>, key: T -> string, x: T, ts: seq<string>)
    requires forall i, j :: 0 <= i < j < |ts| ==> ts[i] != ts[j]
    ensures multiset(Flatten(Sections(items + [x], key, ts))) ==
      multiset(Flatten(Sections(items, key, ts))) + (if key(x) in ts then multiset{x} else multiset{})
  {
    if ts != [] {
      var m := |ts| - 1;
      var pre := ts[..m];
      var t := ts[m];
      assert ts == pre + [t];
      SectionsSnocItem(items, key, x, pre);
      SectionsSnoc(items + [x], key, pre, t);
      SectionsSnoc(items, key, pre, t);
      FlattenSnoc(Sections(items + [x], key, pre), Section(t, Bucket(items + [x], key, t)));
      FlattenSnoc(Sections(items, key, pre), Section(t, Bucket(items, key, t)));
      BucketSnoc(items, key, x, t);
    }
  }

  /** One more item adds exactly that item to the sections' contents. */
  lemma GroupSnoc<T>(items: seq<T>, key: T -> string, x: T)
    ensures multiset(Flatten(Group(items + [x], key))) == multiset(Flatten(Group(items, key))) + multiset{x}
  {
    var ts := Titles(items, key);
    TitlesSnoc(items, key, x);
    SectionsSnocItem(items, key, x, ts);
    if key(x) !in ts {
      NewKeySection(items, key, x, ts);
    }
  }

  /** A first item with a new key opens a section holding just that item. */
  lemma NewKeySection<T>(items: seq<T>, key: T -> string, x: T, ts: seq<string>)
    requires ts == Titles(items, key) && key(x) !in ts
    ensures Flatten(Sections(items + [x], key, ts + [key(x)])) == Flatten(Sections(items + [x], key, ts)) + [x]
  {
    SectionsSnoc(items + [x], key, ts, key(x));
    FlattenSnoc(Sections(items + [x], key, ts), Section(key(x), Bucket(items + [x], key, key(x))));
    BucketEmpty(items, key, key(x));
    BucketSnoc(items, key, x, key(x));
  }

  /** Every item lands in exactly one section: the sections hold the input, as a multiset. */
  lemma {:induction false} EveryItemOnce<T>(items: seq<T>, key: T -> string)
    ensures multiset(Flatten(Group(items, key))) == multiset(items)
  {
    if items != [] {
      var n := |items| - 1;
      EveryItemOnce(items[..n], key);
      GroupSnoc(items[..n], key, items[n]);
      assert items == items[..n] + [items[n]];
    }
  }

  /** Hence the sections hold as many items as the input. */
  lemma TotalSize<T>(items: seq<T>, key: T -> string)
    ensures |Flatten(Group(items, key))| == |items|
  {
    EveryItemOnce(items, key);
    assert |multiset(Flatten(Group(items, key)))| == |multiset(items)|;
  }
}
