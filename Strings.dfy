/**
 * JavaScript's `String.prototype.split` with a one-character separator,
 * the only form the modelled code uses (`split(" ")` and `split(":")`).
 */
module Strings {
  import opened Seqs

  /** The fields of `s` between occurrences of `sep`, as `s.split(sep)` gives them. */
  function Split(s: string, sep: char): (fields: seq<string>)
    ensures |fields| >= 1
    ensures (sep in s) <==> |fields| >= 2
    ensures forall k :: 0 <= k < |fields| ==> sep !in fields[k]
    decreases |s|
  {
    if sep !in s then [s]
    else
      var i := IndexOf(s, sep);
      [s[..i]] + Split(s[i + 1..], sep)
  }

  /** `fields.join(sep)`. */
  function Join(fields: seq<string>, sep: char): string
    requires |fields| >= 1
  {
    if |fields| == 1 then fields[0] else fields[0] + [sep] + Join(fields[1..], sep)
  }

  /** Splitting loses nothing: joining the fields back gives the input. */
  lemma {:induction false} JoinSplit(s: string, sep: char)
    ensures Join(Split(s, sep), sep) == s
    decreases |s|
  {
    if sep in s {
      var i := IndexOf(s, sep);
      JoinSplit(s[i + 1..], sep);
      assert s == s[..i] + [sep] + s[i + 1..];
    }
  }

  /** A string that starts with a separator-free field and then the separator splits there. */
  lemma SplitAfterField(field: string, sep: char, rest: string)
    requires sep !in field
    ensures Split(field + [sep] + rest, sep) == [field] + Split(rest, sep)
  {
    var s := field + [sep] + rest;
    assert s[|field|] == sep;
    assert s[..|field|] == field;
    var i := IndexOf(s, sep);
    assert i == |field|;
    assert s[i + 1..] == rest;
  }

  /** The first field: the text before the first `sep`, or all of `s` when there is none. */
  function FirstField(s: string, sep: char): (f: string)
    ensures f <= s && sep !in f
    ensures |f| < |s| ==> s[|f|] == sep
  {
    Split(s, sep)[0]
  }
}
