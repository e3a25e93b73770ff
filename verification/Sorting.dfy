/** Python's `sorted(items, key=...)`: a stable sort by a pair of integers. */
module Sorting {

  datatype Keyed<T> = Keyed(major: int, minor: int, value: T)

  predicate NotAfter<T>(a: Keyed<T>, b: Keyed<T>) {
    a.major < b.major || (a.major == b.major && a.minor <= b.minor)
  }

  predicate StrictlyBefore<T>(a: Keyed<T>, b: Keyed<T>) {
    a.major < b.major || (a.major == b.major && a.minor < b.minor)
  }

  ghost predicate Sorted<T(!new)>(s: seq<Keyed<T>>) {
    forall i, j :: 0 <= i < j < |s| ==> NotAfter(s[i], s[j])
  }

  function Insert<T>(x: Keyed<T>, s: seq<Keyed<T>>): (r: seq<Keyed<T>>)
    ensures multiset(r) == multiset([x] + s)
  {
    if s == [] || NotAfter(x, s[0]) then [x] + s
    else
      var rest := Insert(x, s[1..]);
      assert [x] + s == [x] + ([s[0]] + s[1..]);
      [s[0]] + rest
  }

  function StableSort<T>(s: seq<Keyed<T>>): (r: seq<Keyed<T>>)
    ensures multiset(r) == multiset(s) && |r| == |s|
  {
    if s == [] then []
    else
      assert s == [s[0]] + s[1..];
      var r := Insert(s[0], StableSort(s[1..]));
      assert |multiset(r)| == |multiset(s)|;
      r
  }

  lemma {:induction false} InsertSorted<T(!new)>(x: Keyed<T>, s: seq<Keyed<T>>)
    requires Sorted(s)
    ensures Sorted(Insert(x, s))
  {
    if s != [] && !NotAfter(x, s[0]) {
      InsertSorted(x, s[1..]);
      var rest := Insert(x, s[1..]);
      forall k | 0 <= k < |rest|
        ensures NotAfter(s[0], rest[k])
      {
        assert rest[k] in multiset(rest);
        assert rest[k] in multiset([x] + s[1..]);
      }
    }
  }

  /** The result is in order. */
  lemma {:induction false} SortIsSorted<T(!new)>(s: seq<Keyed<T>>)
    ensures Sorted(StableSort(s))
  {
    if s != [] {
      SortIsSorted(s[1..]);
      InsertSorted(s[0], StableSort(s[1..]));
    }
  }

  lemma SortHasSameItems<T>(s: seq<Keyed<T>>, x: Keyed<T>)
    ensures x in StableSort(s) <==> x in s
  {
    assert x in multiset(StableSort(s)) <==> x in multiset(s);
  }

  // ------------------------------------------------------ stability by filtering

  /** The items whose value is in `keep`, in their order. */
  function Keep<T(==)>(s: seq<Keyed<T>>, keep: set<T>): seq<Keyed<T>> {
    if s == [] then []
    else if s[0].value in keep then [s[0]] + Keep(s[1..], keep)
    else Keep(s[1..], keep)
  }

  lemma {:induction false} InsertKeep<T(!new)>(x: Keyed<T>, s: seq<Keyed<T>>, keep: set<T>)
    requires Sorted(s)
    ensures Keep(Insert(x, s), keep) == if x.value in keep then Insert(x, Keep(s, keep)) else Keep(s, keep)
  {
    if s == [] || NotAfter(x, s[0]) {
      assert ([x] + s)[1..] == s;
      KeepBounded(s, keep, x);
    } else {
      InsertKeep(x, s[1..], keep);
      var rest := Insert(x, s[1..]);
      assert Insert(x, s) == [s[0]] + rest && ([s[0]] + rest)[1..] == rest;
      if s[0].value in keep {
        assert Keep(s, keep)[1..] == Keep(s[1..], keep);
      }
    }
  }

  /** Everything kept from a sorted sequence that starts not before `x` is not before `x`. */
  lemma {:induction false} KeepBounded<T(!new)>(s: seq<Keyed<T>>, keep: set<T>, x: Keyed<T>)
    requires Sorted(s) && (s != [] ==> NotAfter(x, s[0]))
    ensures Keep(s, keep) != [] ==> NotAfter(x, Keep(s, keep)[0])
  {
    if s != [] && s[0].value !in keep {
      if |s| > 1 {
        assert NotAfter(s[0], s[1]);
      }
      KeepBounded(s[1..], keep, x);
    }
  }

  /** Sorting and filtering commute, so equal keys keep their order: the sort is stable. */
  lemma {:induction false} SortKeepCommute<T(!new)>(s: seq<Keyed<T>>, keep: set<T>)
    ensures StableSort(Keep(s, keep)) == Keep(StableSort(s), keep)
  {
    if s != [] {
      var rest := StableSort(s[1..]);
      SortIsSorted(s[1..]);
      SortKeepCommute(s[1..], keep);
      InsertKeep(s[0], rest, keep);
      assert StableSort(s) == Insert(s[0], rest);
      if s[0].value in keep {
        assert Keep(s, keep) == [s[0]] + Keep(s[1..], keep);
        assert Keep(s, keep)[1..] == Keep(s[1..], keep);
      }
    }
  }
}
