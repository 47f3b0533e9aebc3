/** Strings in the order sort.Strings uses, and the listing of a set in that order.
    Go compares strings byte by byte; for UTF-8 that is code point order, which is the
    order of Dafny's `char`. */
module Ordering {

  predicate Le(a: string, b: string) {
    a == [] || (b != [] && (a[0] < b[0] || (a[0] == b[0] && Le(a[1..], b[1..]))))
  }

  lemma LeTotal(a: string, b: string)
    ensures Le(a, b) || Le(b, a)
  {
  }

  lemma LeAntisymmetric(a: string, b: string)
    requires Le(a, b) && Le(b, a)
    ensures a == b
  {
    if a != [] && b != [] {
      LeAntisymmetric(a[1..], b[1..]);
      assert a == [a[0]] + a[1..] && b == [b[0]] + b[1..];
    }
  }

  lemma LeTransitive(a: string, b: string, c: string)
    requires Le(a, b) && Le(b, c)
    ensures Le(a, c)
  {
  }

  predicate Sorted(s: seq<string>) {
    forall i, j :: 0 <= i < j < |s| ==> Le(s[i], s[j])
  }

  lemma SortedHeadFirst(x: string, s: seq<string>)
    requires Sorted(s) && s != [] && Le(x, s[0])
    ensures Sorted([x] + s)
  {
    forall j | 0 <= j < |s| ensures Le(x, s[j]) {
      if j > 0 {
        LeTransitive(x, s[0], s[j]);
      }
    }
  }

  lemma SortedHeadKept(x: string, s: seq<string>, rest: seq<string>)
    requires Sorted(s) && s != [] && !Le(x, s[0])
    requires Sorted(rest) && multiset(rest) == multiset(s[1..]) + multiset{x}
    ensures Sorted([s[0]] + rest) && multiset([s[0]] + rest) == multiset(s) + multiset{x}
  {
    assert s == [s[0]] + s[1..];
    LeTotal(x, s[0]);
    forall j | 0 <= j < |rest| ensures Le(s[0], rest[j]) {
      assert rest[j] in multiset(rest);
    }
  }

  function Insert(x: string, s: seq<string>): (r: seq<string>)
    requires Sorted(s)
    ensures Sorted(r) && multiset(r) == multiset(s) + multiset{x}
  {
    if s == [] then [x]
    else if Le(x, s[0]) then
      SortedHeadFirst(x, s);
      [x] + s
    else
      var rest := Insert(x, s[1..]);
      SortedHeadKept(x, s, rest);
      [s[0]] + rest
  }

  /** What sort.Strings leaves in the slice it is given. */
  function Sort(s: seq<string>): (r: seq<string>)
    ensures Sorted(r) && multiset(r) == multiset(s) && |r| == |s|
  {
    if s == [] then []
    else
      assert s == s[..|s| - 1] + [s[|s| - 1]];
      var r := Insert(s[|s| - 1], Sort(s[..|s| - 1]));
      assert |multiset(r)| == |multiset(s)|;
      r
  }

  lemma SortedHead(a: seq<string>, x: string)
    requires Sorted(a) && x in multiset(a)
    ensures Le(a[0], x)
  {
    var i :| 0 <= i < |a| && a[i] == x;
    LeTotal(x, x);
  }

  lemma TailMultiset(a: seq<string>)
    requires a != []
    ensures multiset(a[1..]) == multiset(a) - multiset{a[0]}
  {
    assert a == [a[0]] + a[1..];
  }

  lemma SameLeast(a: seq<string>, b: seq<string>)
    requires Sorted(a) && Sorted(b) && multiset(a) == multiset(b) && a != [] && b != []
    ensures a[0] == b[0]
  {
    assert a[0] in multiset(a) && b[0] in multiset(b);
    SortedHead(a, b[0]);
    SortedHead(b, a[0]);
    LeAntisymmetric(a[0], b[0]);
  }

  /** A sorted sequence is determined by its multiset of elements. */
  lemma {:induction false} SortedUnique(a: seq<string>, b: seq<string>)
    requires Sorted(a) && Sorted(b) && multiset(a) == multiset(b)
    ensures a == b
  {
    if a == [] || b == [] {
      assert |multiset(a)| == |a| && |multiset(b)| == |b|;
    } else {
      SameLeast(a, b);
      TailMultiset(a);
      TailMultiset(b);
      SortedUnique(a[1..], b[1..]);
      assert a == [a[0]] + a[1..] && b == [b[0]] + b[1..];
    }
  }

  /** Sorting forgets the order it was given. */
  lemma SortCanonical(a: seq<string>, b: seq<string>)
    requires multiset(a) == multiset(b)
    ensures Sort(a) == Sort(b)
  {
    SortedUnique(Sort(a), Sort(b));
  }

  /** The elements of a set in increasing order, each once. */
  ghost function Listing(s: set<string>): (r: seq<string>)
    ensures Sorted(r) && multiset(r) == multiset(s)
    ensures forall x :: x in r <==> x in s
    ensures |r| == |s|
  {
    if s == {} then []
    else
      var x :| x in s;
      var r := Insert(x, Listing(s - {x}));
      assert multiset(s) == multiset(s - {x}) + multiset{x};
      assert forall y :: y in r <==> y in multiset(r);
      assert |multiset(r)| == |r|;
      r
  }

  predicate Distinct<T(==)>(s: seq<T>) {
    forall i, j :: 0 <= i < j < |s| ==> s[i] != s[j]
  }

  lemma OnceEach<T>(r: seq<T>, s: set<T>, i: nat, j: nat)
    requires multiset(r) == multiset(s) && i < j < |r|
    ensures r[i] != r[j]
  {
    assert r == r[..j] + r[j..];
    assert r[..j][i] in multiset(r[..j]) && r[j..][0] in multiset(r[j..]);
    assert multiset(r)[r[j]] <= 1;
  }

  lemma ListingDistinct(s: set<string>)
    ensures Distinct(Listing(s))
  {
    forall i, j | 0 <= i < j < |Listing(s)| ensures Listing(s)[i] != Listing(s)[j] {
      OnceEach(Listing(s), s, i, j);
    }
  }

  lemma ListingIn(s: set<string>)
    ensures forall k :: 0 <= k < |Listing(s)| ==> Listing(s)[k] in s
  {
    var r := Listing(s);
    assert forall k :: 0 <= k < |r| ==> r[k] in r;
  }

  /** The first element of a nonempty set. */
  ghost function Least(s: set<string>): (x: string)
    requires s != {}
    ensures x in s && forall y :: y in s ==> Le(x, y)
  {
    var r := Listing(s);
    assert r[0] in r;
    assert forall y :: y in s ==> Le(r[0], y) by {
      forall y | y in s ensures Le(r[0], y) {
        assert y in multiset(r);
        SortedHead(r, y);
      }
    }
    r[0]
  }

  lemma LeastIs(s: set<string>, x: string)
    requires x in s && forall y :: y in s ==> Le(x, y)
    ensures Least(s) == x
  {
    LeAntisymmetric(Least(s), x);
  }

  /** The keys of a Go map, collected by `range` in an unknown order and then sorted. */
  method SortedKeys(s: set<string>) returns (keys: seq<string>)
    ensures keys == Listing(s)
  {
    keys := [];
    var left := s;
    while left != {}
      invariant left <= s
      invariant multiset(keys) + multiset(left) == multiset(s)
      decreases left
    {
      var k :| k in left;
      assert multiset(left) == multiset(left - {k}) + multiset{k};
      keys := keys + [k];
      left := left - {k};
    }
    keys := Sort(keys);
    SortedUnique(keys, Listing(s));
  }

  /** The order compares the first characters that differ; a prefix comes first. */
  ghost predicate Lexicographic(a: string, b: string) {
    a <= b || exists i: nat :: DiffersAt(a, b, i) && a[i] < b[i]
  }

  predicate DiffersAt(a: string, b: string, i: nat) {
    i < |a| && i < |b| && a[..i] == b[..i] && a[i] != b[i]
  }

  lemma {:induction false} LeIsLexicographic(a: string, b: string)
    ensures Le(a, b) <==> Lexicographic(a, b)
  {
    if a != [] && b != [] && a[0] == b[0] {
      var x, y := a[1..], b[1..];
      assert a == [a[0]] + x && b == [b[0]] + y;
      LeIsLexicographic(x, y);
      assert a <= b <==> x <= y;
      forall i: nat | DiffersAt(x, y, i) ensures DiffersAt(a, b, i + 1) {
        assert a[..i + 1] == [a[0]] + x[..i] && b[..i + 1] == [b[0]] + y[..i];
      }
      forall i: nat | DiffersAt(a, b, i) ensures i > 0 && DiffersAt(x, y, i - 1) {
        assert x[..i - 1] == a[..i][1..] && y[..i - 1] == b[..i][1..];
      }
    } else if a != [] && b != [] {
      assert !(a <= b);
      assert a[..0] == b[..0] && DiffersAt(a, b, 0);
      forall i: nat ensures DiffersAt(a, b, i) ==> i == 0 {
        SameHead(a, b, i);
      }
    }
  }

  lemma SameHead(a: string, b: string, i: nat)
    ensures DiffersAt(a, b, i) && i > 0 ==> a[0] == b[0]
  {
    if DiffersAt(a, b, i) && i > 0 {
      assert a[..i][0] == b[..i][0];
    }
  }
}
