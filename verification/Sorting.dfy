/**
 The stable sort and the list filters the rest of the model shares: what
 Python's sorted() and list comprehensions promise.
 */
module Sorting {

  ghost predicate TotalPreorder<T(!new)>(le: (T, T) -> bool) {
    && (forall x, y :: le(x, y) || le(y, x))
    && (forall x, y, z :: le(x, y) && le(y, z) ==> le(x, z))
  }

  ghost predicate Sorted<T>(s: seq<T>, le: (T, T) -> bool) {
    forall i, j :: 0 <= i < j < |s| ==> le(s[i], s[j])
  }

  function Insert<T>(x: T, s: seq<T>, le: (T, T) -> bool): seq<T> {
    if s == [] then [x]
    else if le(x, s[0]) then [x] + s
    else [s[0]] + Insert(x, s[1..], le)
  }

  /** sorted(): an element goes before the equal ones that follow it in the input. */
  function StableSort<T>(s: seq<T>, le: (T, T) -> bool): seq<T> {
    if s == [] then [] else Insert(s[0], StableSort(s[1..], le), le)
  }

  function Filter<T>(s: seq<T>, keep: T -> bool): seq<T> {
    if s == [] then []
    else if keep(s[0]) then [s[0]] + Filter(s[1..], keep)
    else Filter(s[1..], keep)
  }

  lemma {:induction false} InsertKeeps<T>(x: T, s: seq<T>, le: (T, T) -> bool)
    ensures multiset(Insert(x, s, le)) == multiset(s) + multiset{x}
    ensures |Insert(x, s, le)| == |s| + 1
  {
    if s == [] {
    } else if le(x, s[0]) {
    } else {
      InsertKeeps(x, s[1..], le);
      assert s == [s[0]] + s[1..];
    }
  }

  lemma MembersOf<T(!new)>(a: seq<T>, b: seq<T>)
    requires multiset(a) == multiset(b)
    ensures forall x :: x in a <==> x in b
  {
    forall x ensures x in a <==> x in b {
      assert x in a <==> x in multiset(a);
      assert x in b <==> x in multiset(b);
    }
  }

  lemma {:induction false} InsertSorted<T(!new)>(x: T, s: seq<T>, le: (T, T) -> bool)
    requires TotalPreorder(le) && Sorted(s, le)
    ensures Sorted(Insert(x, s, le), le)
  {
    if s != [] {
      if le(x, s[0]) {
        var r := [x] + s;
        forall i, j | 0 <= i < j < |r| ensures le(r[i], r[j]) {
          if i == 0 && j > 1 { assert le(s[0], s[j - 1]); }
        }
      } else {
        var t := Insert(x, s[1..], le);
        InsertSorted(x, s[1..], le);
        InsertKeeps(x, s[1..], le);
        forall j | 0 <= j < |t| ensures le(s[0], t[j]) {
          assert t[j] in multiset(t);
          assert t[j] == x || t[j] in s[1..];
        }
      }
    }
  }

  /** The result is ordered and is a rearrangement of the input. */
  lemma {:induction false} SortIsSorted<T(!new)>(s: seq<T>, le: (T, T) -> bool)
    requires TotalPreorder(le)
    ensures Sorted(StableSort(s, le), le)
    ensures multiset(StableSort(s, le)) == multiset(s)
    ensures |StableSort(s, le)| == |s|
  {
    if s != [] {
      SortIsSorted(s[1..], le);
      InsertSorted(s[0], StableSort(s[1..], le), le);
      InsertKeeps(s[0], StableSort(s[1..], le), le);
      assert s == [s[0]] + s[1..];
    }
  }

  lemma {:induction false} FilterMembers<T(!new)>(s: seq<T>, keep: T -> bool)
    ensures forall x :: x in Filter(s, keep) <==> x in s && keep(x)
    ensures |Filter(s, keep)| <= |s|
    ensures (forall x :: x in s ==> keep(x)) ==> Filter(s, keep) == s
  {
    if s != [] {
      FilterMembers(s[1..], keep);
      assert s == [s[0]] + s[1..];
    }
  }

  lemma {:induction false} FilterNone<T>(s: seq<T>, keep: T -> bool)
    requires forall i :: 0 <= i < |s| ==> !keep(s[i])
    ensures Filter(s, keep) == []
  {
    if s != [] { FilterNone(s[1..], keep); }
  }

  lemma {:induction false} FilterConcat<T(!new)>(a: seq<T>, b: seq<T>, keep: T -> bool)
    ensures Filter(a + b, keep) == Filter(a, keep) + Filter(b, keep)
  {
    if a == [] {
      assert a + b == b;
    } else {
      FilterConcat(a[1..], b, keep);
      assert (a + b)[1..] == a[1..] + b;
    }
  }

  lemma {:induction false} FilterSorted<T(!new)>(s: seq<T>, keep: T -> bool, le: (T, T) -> bool)
    requires Sorted(s, le)
    ensures Sorted(Filter(s, keep), le)
  {
    if s != [] {
      FilterSorted(s[1..], keep, le);
      FilterMembers(s[1..], keep);
      var rest := Filter(s[1..], keep);
      forall i | 0 <= i < |rest| ensures le(s[0], rest[i]) {
        assert rest[i] in rest && rest[i] in s[1..];
        var j :| 1 <= j < |s| && s[j] == rest[i];
      }
    }
  }

  lemma {:induction false} FilterInsert<T(!new)>(x: T, s: seq<T>, keep: T -> bool, le: (T, T) -> bool)
    requires TotalPreorder(le) && Sorted(s, le)
    ensures Filter(Insert(x, s, le), keep) ==
            if keep(x) then Insert(x, Filter(s, keep), le) else Filter(s, keep)
  {
    if s != [] {
      var rest := Filter(s[1..], keep);
      FilterMembers(s[1..], keep);
      if le(x, s[0]) {
        assert ([x] + s)[1..] == s;
        if rest != [] {
          assert rest[0] in s[1..];
          assert le(s[0], rest[0]);
        }
      } else {
        FilterInsert(x, s[1..], keep, le);
        var t := Insert(x, s[1..], le);
        assert ([s[0]] + t)[1..] == t;
        if keep(s[0]) {
          assert ([s[0]] + rest)[1..] == rest;
        }
      }
    }
  }

  /** Filtering a stably sorted list is sorting the filtered list. */
  lemma {:induction false} FilterCommutesWithSort<T(!new)>(s: seq<T>, keep: T -> bool, le: (T, T) -> bool)
    requires TotalPreorder(le)
    ensures Filter(StableSort(s, le), keep) == StableSort(Filter(s, keep), le)
  {
    if s != [] {
      FilterCommutesWithSort(s[1..], keep, le);
      SortIsSorted(s[1..], le);
      FilterInsert(s[0], StableSort(s[1..], le), keep, le);
      if keep(s[0]) {
        assert ([s[0]] + Filter(s[1..], keep))[1..] == Filter(s[1..], keep);
      }
    }
  }

  lemma {:induction false} SortOfSorted<T(!new)>(s: seq<T>, le: (T, T) -> bool)
    requires Sorted(s, le)
    ensures StableSort(s, le) == s
  {
    if s != [] {
      SortOfSorted(s[1..], le);
      assert s == [s[0]] + s[1..];
    }
  }

  /** Stability: the elements that tie with a given one keep their input order. */
  lemma TiesKeepOrder<T(!new)>(s: seq<T>, x: T, le: (T, T) -> bool, tie: T -> bool)
    requires TotalPreorder(le) && forall y :: tie(y) <==> le(x, y) && le(y, x)
    ensures Filter(StableSort(s, le), tie) == Filter(s, tie)
  {
    FilterCommutesWithSort(s, tie, le);
    FilterMembers(s, tie);
    var f := Filter(s, tie);
    forall i, j | 0 <= i < j < |f| ensures le(f[i], f[j]) {
      assert f[i] in f && f[j] in f;
      assert le(f[i], x) && le(x, f[j]);
    }
    SortOfSorted(f, le);
  }

  ghost predicate Distinct<T>(s: seq<T>) {
    forall i, j :: 0 <= i < j < |s| ==> s[i] != s[j]
  }

  lemma {:induction false} DistinctIsOnce<T(!new)>(s: seq<T>)
    requires Distinct(s)
    ensures forall x :: multiset(s)[x] <= 1
  {
    if s != [] {
      var front, last := s[..|s| - 1], s[|s| - 1];
      DistinctIsOnce(front);
      assert s == front + [last];
      assert last !in multiset(front) by { assert last !in front; }
    }
  }

  lemma OnceIsDistinct<T(!new)>(s: seq<T>)
    requires forall x :: multiset(s)[x] <= 1
    ensures Distinct(s)
  {
    forall i, j | 0 <= i < j < |s| ensures s[i] != s[j] {
      assert s == s[..j] + ([s[j]] + s[j + 1..]);
      assert s[i] in s[..j] && multiset(s[..j])[s[i]] >= 1;
      assert multiset(s) == multiset(s[..j]) + (multiset{s[j]} + multiset(s[j + 1..]));
      assert multiset(s)[s[j]] >= multiset(s[..j])[s[j]] + 1;
    }
  }

  /** Sorting neither repeats nor loses anything. */
  lemma SortKeepsDistinct<T(!new)>(s: seq<T>, le: (T, T) -> bool)
    requires TotalPreorder(le) && Distinct(s)
    ensures Distinct(StableSort(s, le))
    ensures forall x :: x in StableSort(s, le) <==> x in s
  {
    SortIsSorted(s, le);
    MembersOf(StableSort(s, le), s);
    DistinctIsOnce(s);
    OnceIsDistinct(StableSort(s, le));
  }

  lemma {:induction false} FilterKeepsDistinct<T(!new)>(s: seq<T>, keep: T -> bool)
    requires Distinct(s)
    ensures Distinct(Filter(s, keep))
  {
    if s != [] {
      FilterKeepsDistinct(s[1..], keep);
      FilterMembers(s[1..], keep);
      var rest := Filter(s[1..], keep);
      forall j | 0 <= j < |rest| ensures rest[j] != s[0] { assert rest[j] in rest && rest[j] in s[1..]; }
    }
  }

  /** Filtering twice is filtering by both conditions. */
  lemma {:induction false} FilterTwice<T(!new)>(s: seq<T>, p: T -> bool, q: T -> bool, both: T -> bool)
    requires forall x :: both(x) <==> p(x) && q(x)
    ensures Filter(Filter(s, p), q) == Filter(s, both)
  {
    if s != [] {
      FilterTwice(s[1..], p, q, both);
      if p(s[0]) { assert ([s[0]] + Filter(s[1..], p))[1..] == Filter(s[1..], p); }
    }
  }
}
