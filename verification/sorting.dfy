/**
 * ORDER BY over one column, ascending or descending. Sort keys are integers
 * (timestamps) or strings compared code point by code point. The order of rows
 * with equal keys is left unspecified: the only promises are sortedness and
 * that the rows are a permutation of the input.
 */
module Sorting {

  datatype Key = IntKey(i: int) | TextKey(s: string)

  /** Lexicographic order on strings by code point. */
  predicate TextLe(a: string, b: string)
    decreases |a|
  {
    a == [] || (b != [] && (a[0] < b[0] || (a[0] == b[0] && TextLe(a[1..], b[1..]))))
  }

  lemma {:induction false} TextLeTotal(a: string, b: string)
    ensures TextLe(a, b) || TextLe(b, a)
    decreases |a|
  {
    if a != [] && b != [] && a[0] == b[0] {
      TextLeTotal(a[1..], b[1..]);
    }
  }

  lemma {:induction false} TextLeTransitive(a: string, b: string, c: string)
    requires TextLe(a, b) && TextLe(b, c)
    ensures TextLe(a, c)
    decreases |a|
  {
    if a != [] && b != [] && c != [] && a[0] == b[0] && b[0] == c[0] {
      TextLeTransitive(a[1..], b[1..], c[1..]);
    }
  }

  /** Integers before strings; the model never compares keys of different kinds. */
  predicate KeyLe(a: Key, b: Key) {
    match (a, b)
    case (IntKey(x), IntKey(y)) => x <= y
    case (TextKey(x), TextKey(y)) => TextLe(x, y)
    case (IntKey(_), TextKey(_)) => true
    case (TextKey(_), IntKey(_)) => false
  }

  /** a may come before b when sorting ascending, or descending. */
  predicate InOrder(a: Key, b: Key, descending: bool) {
    if descending then KeyLe(b, a) else KeyLe(a, b)
  }

  lemma InOrderTotal(a: Key, b: Key, descending: bool)
    ensures InOrder(a, b, descending) || InOrder(b, a, descending)
  {
    if a.TextKey? && b.TextKey? {
      TextLeTotal(a.s, b.s);
    }
  }

  lemma InOrderTransitive(a: Key, b: Key, c: Key, descending: bool)
    requires InOrder(a, b, descending) && InOrder(b, c, descending)
    ensures InOrder(a, c, descending)
  {
    if a.TextKey? && b.TextKey? && c.TextKey? {
      if descending {
        TextLeTransitive(c.s, b.s, a.s);
      } else {
        TextLeTransitive(a.s, b.s, c.s);
      }
    }
  }

  predicate SortedBy<T>(s: seq<T>, key: T -> Key, descending: bool) {
    forall i, j :: 0 <= i < j < |s| ==> InOrder(key(s[i]), key(s[j]), descending)
  }

  /** Places x in front of the first element it may precede. */
  function Insert<T>(x: T, s: seq<T>, key: T -> Key, descending: bool): (r: seq<T>)
    requires SortedBy(s, key, descending)
    ensures SortedBy(r, key, descending)
    ensures multiset(r) == multiset(s) + multiset{x}
  {
    if s == [] then [x]
    else if InOrder(key(x), key(s[0]), descending) then
      assert SortedBy([x] + s, key, descending) by {
        forall j | 0 <= j < |s| ensures InOrder(key(x), key(s[j]), descending) {
          if j > 0 {
            InOrderTransitive(key(x), key(s[0]), key(s[j]), descending);
          }
        }
      }
      [x] + s
    else
      var rest := Insert(x, s[1..], key, descending);
      InOrderTotal(key(x), key(s[0]), descending);
      assert s == [s[0]] + s[1..];
      assert SortedBy([s[0]] + rest, key, descending) by {
        forall j | 0 <= j < |rest| ensures InOrder(key(s[0]), key(rest[j]), descending) {
          assert rest[j] in multiset(rest);
          if rest[j] != x {
            assert rest[j] in multiset(s[1..]);
            var k :| 0 <= k < |s[1..]| && s[1..][k] == rest[j];
            assert s[k + 1] == rest[j];
          }
        }
      }
      [s[0]] + rest
  }

  /** Insertion sort: a sorted permutation of s. */
  function Sort<T>(s: seq<T>, key: T -> Key, descending: bool): (r: seq<T>)
    ensures SortedBy(r, key, descending)
    ensures multiset(r) == multiset(s)
    ensures |r| == |s|
  {
    if s == [] then []
    else
      assert s == [s[0]] + s[1..];
      Insert(s[0], Sort(s[1..], key, descending), key, descending)
  }
}
