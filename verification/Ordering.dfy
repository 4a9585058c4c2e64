/** The order of instruction paths, shallow scopes first and paths alphabetically, and sorting by it. */
module Ordering {

  /** Where a path stands: the depth of its scope and the path itself. */
  datatype Key = Key(depth: nat, path: string)

  function Slashes(scope: string): nat {
    if scope == "" then 0 else (if scope[0] == '/' then 1 else 0) + Slashes(scope[1..])
  }

  function ScopeDepth(scope: string): nat {
    if scope == ['.'] then 0 else Slashes(scope) + 1
  }

  function KeyOf(scope: string, path: string): Key {
    Key(ScopeDepth(scope), path)
  }

  /** Lexicographic order by code point, which is that of the UTF-8 bytes. */
  predicate LessText(a: string, b: string) {
    if b == "" then false
    else if a == "" then true
    else a[0] < b[0] || (a[0] == b[0] && LessText(a[1..], b[1..]))
  }

  predicate Less(a: Key, b: Key) {
    if a.depth != b.depth then a.depth < b.depth else LessText(a.path, b.path)
  }

  lemma {:induction false} LessTextTotal(a: string, b: string)
    ensures !LessText(a, b) && !LessText(b, a) ==> a == b
    ensures !(LessText(a, b) && LessText(b, a))
  {
    if a != "" && b != "" {
      LessTextTotal(a[1..], b[1..]);
      assert a == [a[0]] + a[1..] && b == [b[0]] + b[1..];
    }
  }

  lemma {:induction false} LessTextTransitive(a: string, b: string, c: string)
    requires LessText(a, b) && LessText(b, c)
    ensures LessText(a, c)
  {
    if a != "" && a[0] == b[0] == c[0] {
      LessTextTransitive(a[1..], b[1..], c[1..]);
    }
  }

  /** Not after. */
  predicate AtMost(a: Key, b: Key) {
    !Less(b, a)
  }

  lemma AtMostTransitive(a: Key, b: Key, c: Key)
    requires AtMost(a, b) && AtMost(b, c)
    ensures AtMost(a, c)
  {
    if Less(c, a) && a.depth == c.depth {
      LessTextTotal(a.path, b.path);
      LessTextTotal(b.path, c.path);
      if LessText(b.path, c.path) {
        LessTextTransitive(b.path, c.path, a.path);
      }
    }
  }

  lemma AtMostTotal(a: Key, b: Key)
    ensures AtMost(a, b) || AtMost(b, a)
  {
    LessTextTotal(a.path, b.path);
  }

  ghost predicate Sorted<T(!new)>(key: T -> Key, s: seq<T>) {
    forall i, j :: 0 <= i < j < |s| ==> AtMost(key(s[i]), key(s[j]))
  }

  ghost predicate Bounds<T(!new)>(key: T -> Key, k: Key, s: seq<T>) {
    forall i :: 0 <= i < |s| ==> AtMost(k, key(s[i]))
  }

  /** Put `x` in front of the first element that is not before it. */
  function Insert<T(!new)>(key: T -> Key, x: T, s: seq<T>): seq<T> {
    if s == [] || AtMost(key(x), key(s[0])) then [x] + s else [s[0]] + Insert(key, x, s[1..])
  }

  function Sort<T(!new)>(key: T -> Key, s: seq<T>): seq<T> {
    if s == [] then [] else Insert(key, s[0], Sort(key, s[1..]))
  }

  lemma {:induction false} InsertKeeps<T(!new)>(key: T -> Key, x: T, s: seq<T>)
    ensures multiset(Insert(key, x, s)) == multiset([x]) + multiset(s)
    ensures |Insert(key, x, s)| == |s| + 1
  {
    if !(s == [] || AtMost(key(x), key(s[0]))) {
      InsertKeeps(key, x, s[1..]);
      assert s == [s[0]] + s[1..];
    }
  }

  lemma {:induction false} InsertBounds<T(!new)>(key: T -> Key, x: T, s: seq<T>, k: Key)
    requires Bounds(key, k, s) && AtMost(k, key(x))
    ensures Bounds(key, k, Insert(key, x, s))
  {
    if !(s == [] || AtMost(key(x), key(s[0]))) {
      InsertBounds(key, x, s[1..], k);
    }
  }

  lemma SortedCons<T(!new)>(key: T -> Key, x: T, s: seq<T>)
    requires Sorted(key, s) && Bounds(key, key(x), s)
    ensures Sorted(key, [x] + s)
  {
  }

  lemma {:induction false} InsertSorted<T(!new)>(key: T -> Key, x: T, s: seq<T>)
    requires Sorted(key, s)
    ensures Sorted(key, Insert(key, x, s))
  {
    if s == [] {
    } else if AtMost(key(x), key(s[0])) {
      forall i | 0 <= i < |s|
        ensures AtMost(key(x), key(s[i]))
      {
        if i > 0 {
          AtMostTransitive(key(x), key(s[0]), key(s[i]));
        }
      }
      SortedCons(key, x, s);
    } else {
      AtMostTotal(key(x), key(s[0]));
      InsertSorted(key, x, s[1..]);
      InsertBounds(key, x, s[1..], key(s[0]));
      SortedCons(key, s[0], Insert(key, x, s[1..]));
    }
  }

  /** Sorting gives a permutation in order. */
  lemma {:induction false} SortSorts<T(!new)>(key: T -> Key, s: seq<T>)
    ensures Sorted(key, Sort(key, s)) && multiset(Sort(key, s)) == multiset(s) && |Sort(key, s)| == |s|
  {
    if s != [] {
      SortSorts(key, s[1..]);
      InsertSorted(key, s[0], Sort(key, s[1..]));
      InsertKeeps(key, s[0], Sort(key, s[1..]));
      assert s == [s[0]] + s[1..];
    }
  }

  /** Sorting keeps exactly the elements. */
  lemma SortMembers<T(!new)>(key: T -> Key, s: seq<T>, x: T)
    ensures x in Sort(key, s) <==> x in s
  {
    SortSorts(key, s);
    assert x in Sort(key, s) <==> x in multiset(Sort(key, s));
    assert x in s <==> x in multiset(s);
  }

  lemma AtMostAntisymmetric(a: Key, b: Key)
    requires AtMost(a, b) && AtMost(b, a)
    ensures a == b
  {
    LessTextTotal(a.path, b.path);
  }

  /** Elements of the list are told apart by their keys. */
  ghost predicate Distinguishes<T(!new)>(key: T -> Key, s: seq<T>) {
    forall x, y :: x in s && y in s && key(x) == key(y) ==> x == y
  }

  lemma FirstIsLeast<T(!new)>(key: T -> Key, s: seq<T>, x: T)
    requires Sorted(key, s) && x in s
    ensures AtMost(key(s[0]), key(x))
  {
    LessTextTotal(key(x).path, key(x).path);
    var i :| 0 <= i < |s| && s[i] == x;
  }

  /** There is only one way to sort elements that their keys tell apart. */
  lemma {:induction false} SortedUnique<T(!new)>(key: T -> Key, a: seq<T>, b: seq<T>)
    requires Sorted(key, a) && Sorted(key, b) && multiset(a) == multiset(b) && Distinguishes(key, a)
    ensures a == b
  {
    if a == [] {
      assert |multiset(b)| == 0;
    } else {
      SameMembers(a, b, a[0]);
      SameMembers(b, a, b[0]);
      FirstIsLeast(key, b, a[0]);
      FirstIsLeast(key, a, b[0]);
      AtMostAntisymmetric(key(a[0]), key(b[0]));
      assert a[0] == b[0];
      Rest(a);
      Rest(b);
      SortedUnique(key, a[1..], b[1..]);
      assert a == [a[0]] + a[1..] && b == [b[0]] + b[1..];
    }
  }

  lemma Rest<T>(s: seq<T>)
    requires s != []
    ensures multiset(s[1..]) == multiset(s) - multiset{s[0]}
  {
    assert s == [s[0]] + s[1..];
  }

  lemma SameMembers<T>(a: seq<T>, b: seq<T>, x: T)
    requires multiset(a) == multiset(b) && x in a
    ensures x in b
  {
    assert x in multiset(a);
  }
}
