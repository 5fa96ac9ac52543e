/**
 Directories of SQL files and the order of their names: strings compared
 character by character, as Python compares them. Shared by the migration
 runner and its mirror.
 */
module Folders {
  import opened Sorting

  datatype File = File(name: string, text: string)

  /** What globbing a directory gives: its files in no particular order. */
  datatype Folder = Missing | Folder(files: seq<File>)

  predicate LexLe(a: string, b: string) {
    if a == [] then true
    else if b == [] then false
    else if a[0] != b[0] then a[0] < b[0]
    else LexLe(a[1..], b[1..])
  }

  lemma {:induction false} LexTotal(a: string, b: string)
    ensures LexLe(a, b) || LexLe(b, a)
  {
    if a != [] && b != [] { LexTotal(a[1..], b[1..]); }
  }

  lemma {:induction false} LexTransitive(a: string, b: string, c: string)
    requires LexLe(a, b) && LexLe(b, c)
    ensures LexLe(a, c)
  {
    if a != [] && b[0] == a[0] && c[0] == b[0] { LexTransitive(a[1..], b[1..], c[1..]); }
  }

  lemma {:induction false} LexAntisymmetric(a: string, b: string)
    requires LexLe(a, b) && LexLe(b, a)
    ensures a == b
  {
    if a != [] {
      LexAntisymmetric(a[1..], b[1..]);
      assert a == [a[0]] + a[1..] && b == [b[0]] + b[1..];
    }
  }

  /** The first difference decides: a shared start does not matter, and neither does anything after a difference. */
  lemma {:induction false} LexDecidesEarly(p: string, a: string, b: string)
    ensures LexLe(p + a, p + b) <==> LexLe(a, b)
  {
    if p == [] {
      assert p + a == a && p + b == b;
    } else {
      LexDecidesEarly(p[1..], a, b);
      assert (p + a)[1..] == p[1..] + a && (p + b)[1..] == p[1..] + b;
    }
  }

  lemma {:induction false} LexIgnoresTails(a: string, b: string, x: string, y: string)
    requires |a| == |b| && a != b
    ensures LexLe(a + x, b + y) <==> LexLe(a, b)
  {
    assert a != [];
    if a[0] == b[0] {
      assert a[1..] != b[1..] by { assert a == [a[0]] + a[1..] && b == [b[0]] + b[1..]; }
      LexIgnoresTails(a[1..], b[1..], x, y);
      assert (a + x)[1..] == a[1..] + x && (b + y)[1..] == b[1..] + y;
    }
  }

  predicate ByName(a: File, b: File) { LexLe(a.name, b.name) }

  lemma NamesAreOrdered()
    ensures TotalPreorder(ByName)
  {
    forall x: File, y: File ensures ByName(x, y) || ByName(y, x) { LexTotal(x.name, y.name); }
    forall x: File, y: File, z: File | ByName(x, y) && ByName(y, z) ensures ByName(x, z) {
      LexTransitive(x.name, y.name, z.name);
    }
  }

  const SQL_SUFFIX := ".sql"

  predicate IsSql(name: string) {
    |name| >= |SQL_SUFFIX| && name[|name| - |SQL_SUFFIX|..] == SQL_SUFFIX
  }

  predicate IsSqlFile(f: File) { IsSql(f.name) }

  predicate DistinctNames(files: seq<File>) {
    forall i, j :: 0 <= i < j < |files| ==> files[i].name != files[j].name
  }

  /** sorted(glob("*.sql")). */
  function SqlFiles(files: seq<File>): seq<File> {
    StableSort(Filter(files, IsSqlFile), ByName)
  }

  lemma {:induction false} FilterDistinct(files: seq<File>)
    requires DistinctNames(files)
    ensures DistinctNames(Filter(files, IsSqlFile))
  {
    if files != [] {
      FilterDistinct(files[1..]);
      FilterMembers(files[1..], IsSqlFile);
      var rest := Filter(files[1..], IsSqlFile);
      forall j | 0 <= j < |rest| ensures rest[j].name != files[0].name { assert rest[j] in files[1..]; }
    }
  }

  lemma {:induction false} InsertDistinct(x: File, files: seq<File>)
    requires DistinctNames(files) && forall i :: 0 <= i < |files| ==> files[i].name != x.name
    ensures DistinctNames(Insert(x, files, ByName))
  {
    if files != [] && !ByName(x, files[0]) {
      InsertDistinct(x, files[1..]);
      InsertKeeps(x, files[1..], ByName);
      var rest := Insert(x, files[1..], ByName);
      forall j | 0 <= j < |rest| ensures rest[j].name != files[0].name { assert rest[j] in multiset(rest); }
    }
  }

  lemma {:induction false} SortDistinct(files: seq<File>)
    requires DistinctNames(files)
    ensures DistinctNames(StableSort(files, ByName))
  {
    if files != [] {
      NamesAreOrdered();
      SortDistinct(files[1..]);
      SortIsSorted(files[1..], ByName);
      var rest := StableSort(files[1..], ByName);
      forall j | 0 <= j < |rest| ensures rest[j].name != files[0].name {
        assert rest[j] in multiset(rest);
        assert rest[j] in files[1..];
      }
      InsertDistinct(files[0], rest);
    }
  }

  /** The listing holds exactly the SQL files, each once, in strictly increasing order of name. */
  lemma ListingIsExact(files: seq<File>)
    requires DistinctNames(files)
    ensures forall f :: f in SqlFiles(files) <==> f in files && IsSqlFile(f)
    ensures DistinctNames(SqlFiles(files)) && Sorted(SqlFiles(files), ByName)
  {
    var kept := Filter(files, IsSqlFile);
    NamesAreOrdered();
    FilterMembers(files, IsSqlFile);
    FilterDistinct(files);
    SortDistinct(kept);
    SortIsSorted(kept, ByName);
    MembersOf(SqlFiles(files), kept);
  }

  /** The listing does not depend on the order the directory was read in. */
  lemma ListingIsUnique(files: seq<File>, others: seq<File>)
    requires DistinctNames(files) && DistinctNames(others)
    requires forall f :: f in files <==> f in others
    ensures SqlFiles(files) == SqlFiles(others)
  {
    ListingIsExact(files);
    ListingIsExact(others);
    SortedIsUnique(SqlFiles(files), SqlFiles(others));
  }

  lemma Empty(a: seq<File>, b: seq<File>)
    requires forall f :: f in a <==> f in b
    ensures a == [] <==> b == []
  {
    if a != [] { assert a[0] in b; }
    if b != [] { assert b[0] in a; }
  }

  lemma {:induction false} SortedIsUnique(a: seq<File>, b: seq<File>)
    requires Sorted(a, ByName) && Sorted(b, ByName) && DistinctNames(a) && DistinctNames(b)
    requires forall f :: f in a <==> f in b
    ensures a == b
  {
    if a == [] || b == [] {
      Empty(a, b);
    } else {
      assert a[0] in b && b[0] in a;
      var i :| 0 <= i < |b| && b[i] == a[0];
      var j :| 0 <= j < |a| && a[j] == b[0];
      if i > 0 && j > 0 { LexAntisymmetric(a[0].name, b[0].name); }
      assert a[0] == b[0];
      forall f ensures f in a[1..] <==> f in b[1..] {
        if f in a[1..] { assert f in b && f != a[0]; }
        if f in b[1..] { assert f in a && f != b[0]; }
      }
      SortedIsUnique(a[1..], b[1..]);
      assert a == [a[0]] + a[1..] && b == [b[0]] + b[1..];
    }
  }
}
