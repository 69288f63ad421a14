/** A stable sort by a key of two numbers, and the sort of names, as Python's `sorted`. */
module Sorting {

  type Key = (int, int)

  predicate Below(a: Key, b: Key) {
    a.0 < b.0 || (a.0 == b.0 && a.1 < b.1)
  }

  function Insert<T>(x: T, s: seq<T>, key: T -> Key): (r: seq<T>)
    ensures multiset(r) == multiset{x} + multiset(s) && |r| == |s| + 1
  {
    if s == [] || !Below(key(s[0]), key(x)) then
      [x] + s
    else
      assert s == [s[0]] + s[1..];
      [s[0]] + Insert(x, s[1..], key)
  }

  function SortBy<T>(s: seq<T>, key: T -> Key): (r: seq<T>)
    ensures multiset(r) == multiset(s) && |r| == |s|
  {
    if s == [] then []
    else
      assert s == [s[0]] + s[1..];
      Insert(s[0], SortBy(s[1..], key), key)
  }

  predicate Ascending<T>(s: seq<T>, key: T -> Key) {
    forall i, j :: 0 <= i < j < |s| ==> !Below(key(s[j]), key(s[i]))
  }

  lemma {:induction false} InsertAscends<T>(x: T, s: seq<T>, key: T -> Key)
    requires Ascending(s, key)
    ensures Ascending(Insert(x, s, key), key)
  {
    if s != [] && Below(key(s[0]), key(x)) {
      InsertAscends(x, s[1..], key);
      var rest := Insert(x, s[1..], key);
      forall j | 0 <= j < |rest| ensures !Below(key(rest[j]), key(s[0])) {
        assert rest[j] in multiset(rest);
        assert rest[j] == x || rest[j] in s[1..];
      }
    }
  }

  lemma {:induction false} SortAscends<T>(s: seq<T>, key: T -> Key)
    ensures Ascending(SortBy(s, key), key)
  {
    if s != [] {
      SortAscends(s[1..], key);
      InsertAscends(s[0], SortBy(s[1..], key), key);
    }
  }

  function Having<T>(s: seq<T>, key: T -> Key, k: Key): seq<T> {
    if s == [] then []
    else (if key(s[0]) == k then [s[0]] else []) + Having(s[1..], key, k)
  }

  lemma {:induction false} InsertIsStable<T>(x: T, s: seq<T>, key: T -> Key, k: Key)
    ensures Having(Insert(x, s, key), key, k) == Having([x] + s, key, k)
  {
    assert ([x] + s)[1..] == s;
    if s != [] && Below(key(s[0]), key(x)) {
      InsertIsStable(x, s[1..], key, k);
      assert ([x] + s[1..])[1..] == s[1..];
      var r := Insert(x, s, key);
      assert r[1..] == Insert(x, s[1..], key);
    }
  }

  /** Entries with the same key stay in the order they came in. */
  lemma {:induction false} SortIsStable<T>(s: seq<T>, key: T -> Key, k: Key)
    ensures Having(SortBy(s, key), key, k) == Having(s, key, k)
  {
    if s != [] {
      SortIsStable(s[1..], key, k);
      var rest := SortBy(s[1..], key);
      InsertIsStable(s[0], rest, key, k);
      assert ([s[0]] + rest)[1..] == rest;
    }
  }

  predicate Strict<T>(s: seq<T>, key: T -> Key) {
    forall i, j :: 0 <= i < j < |s| ==> Below(key(s[i]), key(s[j]))
  }

  /** Sorting any shuffle of a strictly ascending sequence gives that sequence back. */
  lemma {:induction false} SortRecovers<T>(shuffled: seq<T>, s: seq<T>, key: T -> Key)
    requires multiset(shuffled) == multiset(s) && Strict(s, key)
    ensures SortBy(shuffled, key) == s
  {
    SortAscends(shuffled, key);
    SameWhenSorted(SortBy(shuffled, key), s, key);
  }

  lemma SameHead<T>(r: seq<T>, s: seq<T>, key: T -> Key)
    requires multiset(r) == multiset(s) && Ascending(r, key) && Strict(s, key) && s != [] && r != []
    ensures r[0] == s[0]
  {
    assert s[0] in multiset(r) && r[0] in multiset(s);
    var i :| 0 <= i < |s| && s[i] == r[0];
    var j :| 0 <= j < |r| && r[j] == s[0];
    assert !Below(key(r[j]), key(r[0]));
    assert i == 0;
  }

  lemma SameTails<T>(r: seq<T>, s: seq<T>)
    requires multiset(r) == multiset(s) && s != [] && r != [] && r[0] == s[0]
    ensures multiset(r[1..]) == multiset(s[1..])
  {
    assert s == [s[0]] + s[1..] && r == [r[0]] + r[1..];
    assert multiset(r[1..]) == multiset(r) - multiset{r[0]};
  }

  lemma {:induction false} SameWhenSorted<T>(r: seq<T>, s: seq<T>, key: T -> Key)
    requires multiset(r) == multiset(s) && Ascending(r, key) && Strict(s, key)
    ensures r == s
  {
    assert |r| == |multiset(r)| == |multiset(s)| == |s|;
    if s != [] {
      SameHead(r, s, key);
      SameTails(r, s);
      SameWhenSorted(r[1..], s[1..], key);
      assert s == [s[0]] + s[1..] && r == [r[0]] + r[1..];
    }
  }

  // ------------------------------------------------------------ names ---

  /** The order of strings, by code points. */
  predicate Precedes(a: string, b: string) {
    b != [] && (a == [] || a[0] < b[0] || (a[0] == b[0] && Precedes(a[1..], b[1..])))
  }

  lemma {:induction false} PrecedesIsTotal(a: string, b: string)
    ensures a == b || Precedes(a, b) || Precedes(b, a)
  {
    if a != [] && b != [] && a[0] == b[0] {
      PrecedesIsTotal(a[1..], b[1..]);
      assert a == [a[0]] + a[1..] && b == [b[0]] + b[1..];
    }
  }

  lemma {:induction false} PrecedesIsTransitive(a: string, b: string, c: string)
    requires Precedes(a, b) && Precedes(b, c)
    ensures Precedes(a, c)
  {
    if a != [] && a[0] == b[0] == c[0] {
      PrecedesIsTransitive(a[1..], b[1..], c[1..]);
    }
  }

  function InsertName(x: string, s: seq<string>): (r: seq<string>)
    ensures multiset(r) == multiset{x} + multiset(s) && |r| == |s| + 1
  {
    if s == [] || !Precedes(s[0], x) then
      [x] + s
    else
      assert s == [s[0]] + s[1..];
      [s[0]] + InsertName(x, s[1..])
  }

  function SortNames(s: seq<string>): (r: seq<string>)
    ensures multiset(r) == multiset(s) && |r| == |s|
  {
    if s == [] then []
    else
      assert s == [s[0]] + s[1..];
      InsertName(s[0], SortNames(s[1..]))
  }

  predicate InOrder(s: seq<string>) {
    forall i, j :: 0 <= i < j < |s| ==> s[i] == s[j] || Precedes(s[i], s[j])
  }

  lemma {:induction false} InsertKeepsOrder(x: string, s: seq<string>)
    requires InOrder(s)
    ensures InOrder(InsertName(x, s))
  {
    hide Precedes;
    if s == [] {
    } else if Precedes(s[0], x) {
      InsertKeepsOrder(x, s[1..]);
      var rest := InsertName(x, s[1..]);
      forall j | 0 <= j < |rest| ensures s[0] == rest[j] || Precedes(s[0], rest[j]) {
        assert rest[j] in multiset(rest);
        assert rest[j] == x || rest[j] in s[1..];
      }
    } else {
      forall j | 0 <= j < |s| ensures x == s[j] || Precedes(x, s[j]) {
        PrecedesIsTotal(x, s[0]);
        if j > 0 && x != s[0] && s[0] != s[j] {
          PrecedesIsTransitive(x, s[0], s[j]);
        }
      }
    }
  }

  /** Sorting names puts them in order; the same names are there, as often. */
  lemma {:induction false} SortedNames(s: seq<string>)
    ensures InOrder(SortNames(s))
    ensures forall x :: x in SortNames(s) <==> x in s
  {
    forall x ensures x in SortNames(s) <==> x in s {
      assert x in multiset(SortNames(s)) <==> x in multiset(s);
    }
    if s != [] {
      SortedNames(s[1..]);
      InsertKeepsOrder(s[0], SortNames(s[1..]));
    }
  }

  /** Each name once, in order. */
  predicate Rising(s: seq<string>) {
    forall i, j :: 0 <= i < j < |s| ==> Precedes(s[i], s[j])
  }

  lemma DistinctNamesRise(s: seq<string>)
    requires forall i, j :: 0 <= i < j < |s| ==> s[i] != s[j]
    ensures Rising(SortNames(s)) && forall x :: x in SortNames(s) <==> x in s
  {
    SortedNames(s);
    var r := SortNames(s);
    assert multiset(r) == multiset(s);
    hide Precedes, SortNames;
    forall i, j | 0 <= i < j < |r| ensures r[i] != r[j] {
      OccursAtMostOnce(s, r[i]);
      OccursTwice(r, i, j);
    }
  }

  lemma OccursTwice(r: seq<string>, i: nat, j: nat)
    requires i < j < |r|
    ensures r[i] == r[j] ==> multiset(r)[r[i]] >= 2
  {
    assert r == r[..j] + [r[j]] + r[j + 1..];
    assert r[i] == r[..j][i] && r[i] in multiset(r[..j]);
  }

  lemma {:induction false} OccursAtMostOnce(s: seq<string>, x: string)
    requires forall i, j :: 0 <= i < j < |s| ==> s[i] != s[j]
    ensures multiset(s)[x] <= 1
  {
    if s != [] {
      OccursAtMostOnce(s[1..], x);
      assert s == [s[0]] + s[1..];
    }
  }
}
