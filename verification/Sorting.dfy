/** Python's `sorted`: a stable sort by a total order given as a comparison. */
module Sorting {

  ghost predicate TotalOrder<T(!new)>(le: (T, T) -> bool) {
    && (forall a, b :: le(a, b) || le(b, a))
    && (forall a, b, c :: le(a, b) && le(b, c) ==> le(a, c))
  }

  predicate SortedBy<T>(le: (T, T) -> bool, s: seq<T>) {
    forall i, j :: 0 <= i < j < |s| ==> le(s[i], s[j])
  }

  function Insert<T>(le: (T, T) -> bool, x: T, s: seq<T>): seq<T> {
    if |s| == 0 then [x]
    else if le(x, s[0]) then [x] + s
    else [s[0]] + Insert(le, x, s[1..])
  }

  function Sort<T>(le: (T, T) -> bool, s: seq<T>): seq<T> {
    if |s| == 0 then [] else Insert(le, s[0], Sort(le, s[1..]))
  }

  lemma {:induction false} InsertContents<T>(le: (T, T) -> bool, x: T, s: seq<T>)
    ensures multiset(Insert(le, x, s)) == multiset{x} + multiset(s)
  {
    if |s| > 0 {
      assert s == [s[0]] + s[1..];
      InsertContents(le, x, s[1..]);
    }
  }

  lemma {:induction false} InsertSorted<T(!new)>(le: (T, T) -> bool, x: T, s: seq<T>)
    requires TotalOrder(le) && SortedBy(le, s)
    ensures SortedBy(le, Insert(le, x, s))
  {
    if |s| > 0 && !le(x, s[0]) {
      var rest := Insert(le, x, s[1..]);
      InsertSorted(le, x, s[1..]);
      InsertContents(le, x, s[1..]);
      forall j | 0 <= j < |rest|
        ensures le(s[0], rest[j])
      {
        assert rest[j] in multiset(rest);
        if rest[j] != x {
          assert rest[j] in s[1..];
        }
      }
    }
  }

  /** The output is a rearrangement of the input, in order. */
  lemma {:induction false} SortCorrect<T(!new)>(le: (T, T) -> bool, s: seq<T>)
    ensures multiset(Sort(le, s)) == multiset(s)
    ensures |Sort(le, s)| == |s|
    ensures TotalOrder(le) ==> SortedBy(le, Sort(le, s))
  {
    if |s| > 0 {
      SortCorrect(le, s[1..]);
      InsertContents(le, s[0], Sort(le, s[1..]));
      assert s == [s[0]] + s[1..];
      if TotalOrder(le) {
        InsertSorted(le, s[0], Sort(le, s[1..]));
      }
    }
    assert |multiset(Sort(le, s))| == |multiset(s)|;
  }

  predicate Distinct<T(==)>(s: seq<T>) {
    forall i, j :: 0 <= i < j < |s| ==> s[i] != s[j]
  }

  lemma DistinctMultiplicity<T>(s: seq<T>)
    requires Distinct(s)
    ensures forall x :: x in s ==> multiset(s)[x] == 1
  {
    forall x | x in s
      ensures multiset(s)[x] == 1
    {
      var i :| 0 <= i < |s| && s[i] == x;
      assert s == s[..i] + [x] + s[i + 1..];
    }
  }

  lemma MultiplicityDistinct<T>(s: seq<T>)
    requires forall x :: x in s ==> multiset(s)[x] == 1
    ensures Distinct(s)
  {
    forall i, j | 0 <= i < j < |s|
      ensures s[i] != s[j]
    {
      assert s == s[..i] + [s[i]] + s[i + 1..];
      assert s[j] in s[i + 1..] by {
        assert s[j] == s[i + 1..][j - i - 1];
      }
      assert multiset(s)[s[j]] == 1;
    }
  }

  lemma SortDistinct<T(!new)>(le: (T, T) -> bool, s: seq<T>)
    requires Distinct(s)
    ensures Distinct(Sort(le, s))
    ensures forall x :: x in Sort(le, s) <==> x in s
  {
    SortCorrect(le, s);
    DistinctMultiplicity(s);
    forall x
      ensures x in Sort(le, s) <==> x in s
    {
      assert x in Sort(le, s) <==> x in multiset(Sort(le, s));
      assert x in s <==> x in multiset(s);
    }
    MultiplicityDistinct(Sort(le, s));
  }

  /** The elements of a duplicate-free sequence, as a set of the same size. */
  lemma {:induction false} DistinctSize<T>(s: seq<T>)
    requires Distinct(s)
    ensures |set x | x in s| == |s|
  {
    if |s| > 0 {
      DistinctSize(s[1..]);
      assert s == [s[0]] + s[1..];
      assert (set x | x in s) == {s[0]} + (set x | x in s[1..]);
    }
  }

  lemma SameSize<T(!new)>(a: seq<T>, b: seq<T>)
    requires Distinct(a) && Distinct(b) && forall x :: x in a <==> x in b
    ensures |a| == |b|
  {
    DistinctSize(a);
    DistinctSize(b);
    assert (set x | x in a) == (set x | x in b);
  }

  lemma DistinctAppend<T>(s: seq<T>, t: seq<T>)
    requires Distinct(s) && Distinct(t) && forall x :: x in t ==> x !in s
    ensures Distinct(s + t)
  {
    forall i, j | 0 <= i < j < |s + t|
      ensures (s + t)[i] != (s + t)[j]
    {
      if i < |s| <= j {
        assert (s + t)[j] == t[j - |s|] && t[j - |s|] in t;
        assert (s + t)[i] in s;
      }
    }
  }
}
