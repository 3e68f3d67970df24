/**
 * The `ORDER BY` clauses of the backend's queries, as sorts: newest first
 * by a timestamp, and ascending by a word. SQL leaves the order of equal
 * keys open; these sorts keep input order among them, and what is proved
 * about them (sorted, and a permutation of the input) holds for any order
 * the database picks.
 */
module Ordering {

  /** Each item is at least as new as the next. */
  ghost predicate DescendingStep<T>(s: seq<T>, key: T -> int)
  {
    forall i :: 0 < i < |s| ==> key(s[i - 1]) >= key(s[i])
  }

  /** Non-increasing by `key`: newest first. */
  ghost predicate Descending<T>(s: seq<T>, key: T -> int)
  {
    forall i, j :: 0 <= i < j < |s| ==> key(s[i]) >= key(s[j])
  }

  /** Insert `x` after the items with a larger or equal key. */
  function InsertDesc<T>(x: T, s: seq<T>, key: T -> int): (r: seq<T>)
    requires DescendingStep(s, key)
    ensures DescendingStep(r, key)
    ensures |r| > 0 && (r[0] == x || (|s| > 0 && r[0] == s[0]))
    ensures multiset(r) == multiset(s) + multiset{x}
  {
    if s == [] then [x]
    else if key(x) > key(s[0]) then [x] + s
    else
      var rest := InsertDesc(x, s[1..], key);
      assert s == [s[0]] + s[1..];
      [s[0]] + rest
  }

  /** `ORDER BY key DESC`. */
  function SortDesc<T>(s: seq<T>, key: T -> int): (r: seq<T>)
    ensures DescendingStep(r, key)
    ensures multiset(r) == multiset(s)
  {
    if s == [] then []
    else
      assert s == s[..|s| - 1] + [s[|s| - 1]];
      InsertDesc(s[|s| - 1], SortDesc(s[..|s| - 1], key), key)
  }

  /** Neighbours in order means every pair in order. */
  lemma {:induction false} StepIsDescending<T>(s: seq<T>, key: T -> int)
    requires DescendingStep(s, key)
    ensures Descending(s, key)
  {
    forall i, j | 0 <= i < j < |s| ensures key(s[i]) >= key(s[j]) {
      DescChain(s, key, i, j);
    }
  }

  lemma {:induction false} DescChain<T>(s: seq<T>, key: T -> int, i: nat, j: nat)
    requires DescendingStep(s, key) && i < j < |s|
    ensures key(s[i]) >= key(s[j])
    decreases j - i
  {
    if i + 1 < j {
      DescChain(s, key, i + 1, j);
    }
  }

  /** `a` sorts no later than `b`, comparing characters from the left. */
  predicate LexLe(a: string, b: string)
  {
    |a| == 0 || (|b| > 0 && (a[0] < b[0] || (a[0] == b[0] && LexLe(a[1..], b[1..]))))
  }

  lemma {:induction false} LexTotal(a: string, b: string)
    ensures LexLe(a, b) || LexLe(b, a)
  {
    if |a| > 0 && |b| > 0 && a[0] == b[0] {
      LexTotal(a[1..], b[1..]);
    }
  }

  lemma {:induction false} LexTransitive(a: string, b: string, c: string)
    requires LexLe(a, b) && LexLe(b, c)
    ensures LexLe(a, c)
  {
    if |a| > 0 && a[0] == b[0] && b[0] == c[0] {
      LexTransitive(a[1..], b[1..], c[1..]);
    }
  }

  /** Each item sorts no later than the next. */
  ghost predicate AscendingStep<T>(s: seq<T>, key: T -> string)
  {
    forall i :: 0 < i < |s| ==> LexLe(key(s[i - 1]), key(s[i]))
  }

  /** Non-decreasing by `key`. */
  ghost predicate Ascending<T>(s: seq<T>, key: T -> string)
  {
    forall i, j :: 0 <= i < j < |s| ==> LexLe(key(s[i]), key(s[j]))
  }

  /** Insert `x` before the first item that sorts after it. */
  function InsertAsc<T>(x: T, s: seq<T>, key: T -> string): (r: seq<T>)
    requires AscendingStep(s, key)
    ensures AscendingStep(r, key)
    ensures |r| > 0 && (r[0] == x || (|s| > 0 && r[0] == s[0]))
    ensures multiset(r) == multiset(s) + multiset{x}
  {
    if s == [] then [x]
    else if !LexLe(key(s[0]), key(x)) then
      LexTotal(key(s[0]), key(x));
      [x] + s
    else
      var rest := InsertAsc(x, s[1..], key);
      assert s == [s[0]] + s[1..];
      [s[0]] + rest
  }

  /** `ORDER BY key`. */
  function SortAsc<T>(s: seq<T>, key: T -> string): (r: seq<T>)
    ensures AscendingStep(r, key)
    ensures multiset(r) == multiset(s)
  {
    if s == [] then []
    else
      assert s == s[..|s| - 1] + [s[|s| - 1]];
      InsertAsc(s[|s| - 1], SortAsc(s[..|s| - 1], key), key)
  }

  /** Neighbours in order means every pair in order. */
  lemma {:induction false} StepIsAscending<T>(s: seq<T>, key: T -> string)
    requires AscendingStep(s, key)
    ensures Ascending(s, key)
  {
    forall i, j | 0 <= i < j < |s| ensures LexLe(key(s[i]), key(s[j])) {
      StepChain(s, key, i, j);
    }
  }

  lemma {:induction false} StepChain<T>(s: seq<T>, key: T -> string, i: nat, j: nat)
    requires AscendingStep(s, key) && i < j < |s|
    ensures LexLe(key(s[i]), key(s[j]))
    decreases j - i
  {
    if i + 1 < j {
      StepChain(s, key, i + 1, j);
      LexTransitive(key(s[i]), key(s[i + 1]), key(s[j]));
    }
  }
}
