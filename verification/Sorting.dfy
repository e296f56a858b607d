/** Sorting, as the standard library provides it: an ordered permutation. */
module Sorting {

  predicate StringLe(a: string, b: string) {
    a == [] || (b != [] && (a[0] < b[0] || (a[0] == b[0] && StringLe(a[1..], b[1..]))))
  }

  lemma StringLeTotal(a: string, b: string)
    ensures StringLe(a, b) || StringLe(b, a)
  {
  }

  lemma StringLeTransitive(a: string, b: string, c: string)
    requires StringLe(a, b) && StringLe(b, c)
    ensures StringLe(a, c)
  {
  }

  lemma StringLeAntisymmetric(a: string, b: string)
    requires StringLe(a, b) && StringLe(b, a)
    ensures a == b
  {
  }

  /** The order is lexicographic: a prefix comes first, and otherwise the first difference decides. */
  lemma {:induction false} StringLeIs(prefix: string, a: string, b: string)
    ensures StringLe(prefix, prefix + a)
    ensures a != [] ==> !StringLe(prefix + a, prefix)
    ensures a != [] && b != [] && a[0] != b[0] ==> (StringLe(prefix + a, prefix + b) <==> a[0] < b[0])
  {
    if prefix == [] {
      assert prefix + a == a && prefix + b == b;
    } else {
      assert (prefix + a)[1..] == prefix[1..] + a && (prefix + b)[1..] == prefix[1..] + b;
      StringLeIs(prefix[1..], a, b);
    }
  }

  predicate SortedStrings(s: seq<string>) {
    forall i, j :: 0 <= i < j < |s| ==> StringLe(s[i], s[j])
  }

  predicate SortedBy<T>(s: seq<T>, key: T -> string) {
    forall i, j :: 0 <= i < j < |s| ==> StringLe(key(s[i]), key(s[j]))
  }

  function InsertBy<T>(s: seq<T>, x: T, key: T -> string): (r: seq<T>)
    ensures |r| == |s| + 1 && multiset(r) == multiset(s) + multiset{x}
  {
    if s == [] || StringLe(key(x), key(s[0])) then [x] + s
    else
      assert s == [s[0]] + s[1..];
      [s[0]] + InsertBy(s[1..], x, key)
  }

  lemma {:induction false} InsertKeepsSorted<T>(s: seq<T>, x: T, key: T -> string)
    requires SortedBy(s, key)
    ensures SortedBy(InsertBy(s, x, key), key)
  {
    var r := InsertBy(s, x, key);
    if s == [] {
    } else if StringLe(key(x), key(s[0])) {
      forall j | 0 < j < |r|
        ensures StringLe(key(r[0]), key(r[j]))
      {
        assert r[j] == s[j - 1];
        StringLeTotal(key(s[0]), key(s[0]));
        StringLeTransitive(key(x), key(s[0]), key(r[j]));
      }
    } else {
      var rest := InsertBy(s[1..], x, key);
      InsertKeepsSorted(s[1..], x, key);
      StringLeTotal(key(x), key(s[0]));
      forall j | 0 < j < |r|
        ensures StringLe(key(r[0]), key(r[j]))
      {
        assert r[j] == rest[j - 1] && r[j] in multiset(rest);
        assert r[j] in multiset(s[1..]) + multiset{x};
      }
    }
  }

  function SortBy<T>(s: seq<T>, key: T -> string): (r: seq<T>)
    ensures |r| == |s| && multiset(r) == multiset(s)
  {
    if s == [] then []
    else
      assert s == s[..|s| - 1] + [s[|s| - 1]];
      InsertBy(SortBy(s[..|s| - 1], key), s[|s| - 1], key)
  }

  lemma {:induction false} SortBySorts<T>(s: seq<T>, key: T -> string)
    ensures SortedBy(SortBy(s, key), key)
  {
    if s != [] {
      SortBySorts(s[..|s| - 1], key);
      InsertKeepsSorted(SortBy(s[..|s| - 1], key), s[|s| - 1], key);
    }
  }

  function Itself(s: string): string {
    s
  }

  function SortStrings(s: seq<string>): (r: seq<string>)
    ensures SortedStrings(r) && multiset(r) == multiset(s) && |r| == |s|
  {
    SortBySorts(s, Itself);
    SortBy(s, Itself)
  }

  /** The first of a sorted list comes before everything in it. */
  lemma FirstIsLeast(a: seq<string>, x: string)
    requires SortedStrings(a) && x in a
    ensures StringLe(a[0], x)
  {
    var i :| 0 <= i < |a| && a[i] == x;
    StringLeTotal(a[0], a[0]);
  }

  lemma WithoutFirst(a: seq<string>)
    requires SortedStrings(a) && a != []
    ensures SortedStrings(a[1..]) && multiset(a[1..]) == multiset(a) - multiset{a[0]}
  {
    assert a == [a[0]] + a[1..];
  }

  /** A sorted list is determined by its elements: sorting forgets the order in which they were
      gathered. */
  lemma {:induction false} SortedIsUnique(a: seq<string>, b: seq<string>)
    requires SortedStrings(a) && SortedStrings(b) && multiset(a) == multiset(b)
    ensures a == b
  {
    assert |multiset(a)| == |a| && |multiset(b)| == |b|;
    if a != [] {
      assert a[0] in multiset(b) && b[0] in multiset(a);
      FirstIsLeast(a, b[0]);
      FirstIsLeast(b, a[0]);
      StringLeAntisymmetric(a[0], b[0]);
      WithoutFirst(a);
      WithoutFirst(b);
      SortedIsUnique(a[1..], b[1..]);
      assert a == [a[0]] + a[1..] && b == [b[0]] + b[1..];
    }
  }
}
