/** Service names, scopes and other identifiers: the order `str` sorts by, sorting, and listing a set
    of names in that order. */
module Names {

  /** Lexicographic order by code point, which is also the byte order of the UTF-8 encodings. */
  predicate Le(a: string, b: string) {
    a == [] || (b != [] && (a[0] < b[0] || (a[0] == b[0] && Le(a[1..], b[1..]))))
  }

  predicate Lt(a: string, b: string) {
    Le(a, b) && a != b
  }

  lemma {:induction false} LeTotal(a: string, b: string)
    ensures Le(a, b) || Le(b, a)
  {
    if a != [] && b != [] && a[0] == b[0] {
      LeTotal(a[1..], b[1..]);
    }
  }

  lemma {:induction false} LeAntisymmetric(a: string, b: string)
    requires Le(a, b) && Le(b, a)
    ensures a == b
  {
    if a != [] && b != [] {
      LeAntisymmetric(a[1..], b[1..]);
      assert a == [a[0]] + a[1..] && b == [b[0]] + b[1..];
    }
  }

  lemma {:induction false} LeTransitive(a: string, b: string, c: string)
    requires Le(a, b) && Le(b, c)
    ensures Le(a, c)
  {
    if a != [] && b != [] && c != [] && a[0] == b[0] == c[0] {
      LeTransitive(a[1..], b[1..], c[1..]);
    }
  }

  /** `Le` is the order of strings in the source: a prefix comes first, otherwise the first difference
      decides. */
  lemma {:induction false} LeIsLexicographic(a: string, b: string)
    ensures Le(a, b) <==> a <= b || exists k: nat :: FirstDifference(a, b, k) && a[k] < b[k]
  {
    if a != "" && b != "" {
      LeIsLexicographic(a[1..], b[1..]);
      forall k: nat ensures FirstDifference(a, b, k) <==>
                              if k == 0 then a[0] != b[0] else a[0] == b[0] && FirstDifference(a[1..], b[1..], k - 1) {
        if k > 0 && k < |a| && k < |b| {
          assert a[..k] == [a[0]] + a[1..][..k - 1] && b[..k] == [b[0]] + b[1..][..k - 1];
        }
      }
      assert a <= b <==> a[0] == b[0] && a[1..] <= b[1..];
      if k: nat :| FirstDifference(a[1..], b[1..], k) && a[1..][k] < b[1..][k] && a[0] == b[0] {
        assert FirstDifference(a, b, k + 1);
      }
    }
  }

  ghost predicate FirstDifference(a: string, b: string, k: nat) {
    k < |a| && k < |b| && a[..k] == b[..k] && a[k] != b[k]
  }

  ghost predicate Sorted(s: seq<string>) {
    forall i, j :: 0 <= i < j < |s| ==> Le(s[i], s[j])
  }

  ghost predicate NoDup<T(!new)>(s: seq<T>) {
    forall i, j :: 0 <= i < j < |s| ==> s[i] != s[j]
  }

  function Elems<T>(s: seq<T>): set<T> {
    set x | x in s
  }

  function Insert(x: string, s: seq<string>): seq<string> {
    if s == [] || Le(x, s[0]) then [x] + s else [s[0]] + Insert(x, s[1..])
  }

  lemma {:induction false} InsertAdds(x: string, s: seq<string>)
    ensures multiset(Insert(x, s)) == multiset(s) + multiset{x}
  {
    if s != [] && !Le(x, s[0]) {
      InsertAdds(x, s[1..]);
      assert s == [s[0]] + s[1..];
    }
  }

  lemma SortedCons(x: string, s: seq<string>)
    requires Sorted(s) && forall y :: y in s ==> Le(x, y)
    ensures Sorted([x] + s)
  {
  }

  lemma {:induction false} InsertSorted(x: string, s: seq<string>)
    requires Sorted(s)
    ensures Sorted(Insert(x, s)) && multiset(Insert(x, s)) == multiset(s) + multiset{x}
  {
    InsertAdds(x, s);
    if s == [] || Le(x, s[0]) {
      forall y | y in s ensures Le(x, y) {
        if y != s[0] {
          LeTransitive(x, s[0], y);
        }
      }
      SortedCons(x, s);
    } else {
      var r := Insert(x, s[1..]);
      InsertSorted(x, s[1..]);
      LeTotal(x, s[0]);
      forall y | y in r ensures Le(s[0], y) {
        assert y in multiset(r);
        if y != x {
          assert y in s[1..];
        }
      }
      SortedCons(s[0], r);
    }
  }

  /** What `sort` and `sort_unstable` do to a vector of names. */
  function Sort(s: seq<string>): seq<string> {
    if s == [] then [] else Insert(s[0], Sort(s[1..]))
  }

  lemma {:induction false} SortSorts(s: seq<string>)
    ensures Sorted(Sort(s)) && multiset(Sort(s)) == multiset(s)
  {
    if s != [] {
      assert s == [s[0]] + s[1..];
      SortSorts(s[1..]);
      InsertSorted(s[0], Sort(s[1..]));
    }
  }

  lemma SortedHeads(a: seq<string>, b: seq<string>)
    requires Sorted(a) && Sorted(b) && a != [] && b != []
    requires a[0] in b && b[0] in a
    ensures a[0] == b[0]
  {
    var i :| 0 <= i < |b| && b[i] == a[0];
    var j :| 0 <= j < |a| && a[j] == b[0];
    if i != 0 && j != 0 {
      LeAntisymmetric(a[0], b[0]);
    }
  }

  /** A multiset of names has only one sorted listing. */
  lemma {:induction false} SortedUnique(a: seq<string>, b: seq<string>)
    requires Sorted(a) && Sorted(b) && multiset(a) == multiset(b)
    ensures a == b
  {
    assert |a| == |multiset(a)| == |multiset(b)| == |b|;
    if a != [] {
      assert a[0] in multiset(b) && b[0] in multiset(a);
      SortedHeads(a, b);
      assert a == [a[0]] + a[1..] && b == [b[0]] + b[1..];
      assert multiset(a[1..]) == multiset(a) - multiset{a[0]};
      assert multiset(b[1..]) == multiset(b) - multiset{b[0]};
      SortedUnique(a[1..], b[1..]);
    }
  }

  /** The names of a set, in order. */
  ghost function Listing(s: set<string>): seq<string> {
    if s == {} then [] else
    var x :| x in s;
    Insert(x, Listing(s - {x}))
  }

  lemma {:induction false} ListingSorts(s: set<string>)
    ensures Sorted(Listing(s)) && multiset(Listing(s)) == multiset(s)
  {
    if s != {} {
      var x :| x in s && Listing(s) == Insert(x, Listing(s - {x}));
      ListingSorts(s - {x});
      InsertSorted(x, Listing(s - {x}));
      assert multiset(s) == multiset(s - {x}) + multiset{x};
    }
  }

  lemma ListingElems(s: set<string>)
    ensures NoDup(Listing(s)) && Elems(Listing(s)) == s && |Listing(s)| == |s|
  {
    var r := Listing(s);
    ListingSorts(s);
    MultisetNoDup(r, s);
    assert |r| == |multiset(r)| == |multiset(s)| == |s|;
    assert forall x :: x in r <==> x in multiset(r);
  }

  lemma ListingIncreases(s: set<string>, i: nat, j: nat)
    requires i < j < |Listing(s)|
    ensures Lt(Listing(s)[i], Listing(s)[j])
  {
    ListingElems(s);
    ListingSorts(s);
  }

  lemma {:induction false} MultisetNoDup(r: seq<string>, s: set<string>)
    requires multiset(r) <= multiset(s)
    ensures NoDup(r)
  {
    forall i, j | 0 <= i < j < |r| ensures r[i] != r[j] {
      assert r == r[..j] + [r[j]] + r[j + 1..];
      assert r[i] in multiset(r[..j]) by { assert r[..j][i] == r[i]; }
      assert multiset(r) == multiset(r[..j]) + multiset{r[j]} + multiset(r[j + 1..]);
      assert multiset(r)[r[j]] <= multiset(s)[r[j]] <= 1;
    }
  }

  lemma {:induction false} NoDupMultiset(r: seq<string>)
    requires NoDup(r)
    ensures multiset(r) == multiset(Elems(r)) && |Elems(r)| == |r|
  {
    if r != [] {
      var k := |r| - 1;
      NoDupMultiset(r[..k]);
      assert r == r[..k] + [r[k]];
      assert Elems(r) == Elems(r[..k]) + {r[k]};
    }
  }

  /** Counting distinct elements detects repetition. */
  lemma {:induction false} ElemsSize(r: seq<string>)
    ensures |Elems(r)| <= |r| && (|Elems(r)| == |r| <==> NoDup(r))
  {
    if r != [] {
      var k := |r| - 1;
      ElemsSize(r[..k]);
      assert r == r[..k] + [r[k]];
      assert Elems(r) == Elems(r[..k]) + {r[k]};
      if r[k] in r[..k] {
        assert Elems(r) == Elems(r[..k]);
        var i :| 0 <= i < k && r[..k][i] == r[k];
        assert r[i] == r[k];
      } else {
        assert NoDup(r[..k]) ==> NoDup(r);
        assert NoDup(r) ==> NoDup(r[..k]);
      }
    }
  }

  /** Sorting a repetition-free vector lists its set of elements, whatever order it started in. */
  lemma SortIsListing(r: seq<string>)
    requires NoDup(r)
    ensures Sort(r) == Listing(Elems(r))
  {
    NoDupMultiset(r);
    SortSorts(r);
    ListingSorts(Elems(r));
    SortedUnique(Sort(r), Listing(Elems(r)));
  }

  /** A repetition-free sequence is no longer than a set it stays inside. */
  lemma {:induction false} NoDupFits(r: seq<string>, s: set<string>)
    requires NoDup(r) && Elems(r) <= s
    ensures |r| <= |s|
    ensures |r| == |s| ==> Elems(r) == s
  {
    NoDupMultiset(r);
    SubsetSize(Elems(r), s);
  }

  lemma {:induction false} SubsetSize(a: set<string>, b: set<string>)
    requires a <= b
    ensures |a| <= |b| && (|a| == |b| ==> a == b)
  {
    assert b == a + (b - a);
    assert |b| == |a| + |b - a|;
  }
}
