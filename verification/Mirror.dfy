/**
 The generated mirror of the migrations directory under timestamped names:
 renaming, writing and checking. File names use ASCII digits.
 Models scripts/sync_supabase_migrations.py.
 */
module Mirror {
  import opened Sorting
  import opened Folders

  // ---------------------------------------------------------------- numbers --

  function Digit(d: nat): char
    requires d < 10
  {
    ('0' as int + d) as char
  }

  predicate IsDigit(c: char) { '0' <= c <= '9' }

  function Two(n: nat): string
    requires n < 100
  {
    [Digit(n / 10), Digit(n % 10)]
  }

  /** int() of a string of digits. */
  function Value(s: string): nat
    requires forall i :: 0 <= i < |s| ==> IsDigit(s[i])
  {
    if s == [] then 0
    else
      assert IsDigit(s[|s| - 1]);
      10 * Value(s[..|s| - 1]) + (s[|s| - 1] as int - '0' as int)
  }

  // ------------------------------------------------------------------ names --

  const MINUTES_A_DAY := 1440

  /** The date some days after 2026-01-01; the day before it belongs to sequence number 0. */
  function Date(days: int): string
    requires -1 <= days < 9
  {
    if days == -1 then "20251231" else "202601" + Two(days + 1)
  }

  /** One minute per sequence number, formatted as YYYYMMDDHHMMSS. */
  function TimestampFor(sequence: nat): string
    requires sequence <= 9999
  {
    var minutes := sequence - 1;
    var days, inDay := minutes / MINUTES_A_DAY, minutes % MINUTES_A_DAY;
    Stamp(days, inDay / 60, inDay % 60)
  }

  function Stamp(days: int, hours: nat, minutes: nat): string
    requires -1 <= days < 9 && hours < 24 && minutes < 60
  {
    Date(days) + (Two(hours) + (Two(minutes) + "00"))
  }

  predicate FourDigits(name: string) {
    |name| >= 4 && forall i :: 0 <= i < 4 ==> IsDigit(name[i])
  }

  /** NNNN_name.sql with a name of at least one character and no line break. */
  predicate Conventional(name: string) {
    && FourDigits(name) && |name| >= 10 && name[4] == '_' && IsSql(name)
    && forall i :: 5 <= i < |name| - 4 ==> name[i] != '\n'
  }

  /** The four digits give way to a timestamp; the rest of the name stays. */
  function TargetName(name: string): string
    requires Conventional(name)
  {
    FourIsSmall(name[..4]);
    TimestampFor(Value(name[..4])) + name[4..]
  }

  lemma FourIsSmall(s: string)
    requires |s| == 4 && forall i :: 0 <= i < 4 ==> IsDigit(s[i])
    ensures Value(s) <= 9999
  {
    assert s[..3][..2] == s[..2] && s[..2][..1] == s[..1];
    assert Value(s) == 10 * Value(s[..3]) + (s[3] as int - '0' as int);
    assert Value(s[..3]) == 10 * Value(s[..2]) + (s[2] as int - '0' as int);
    assert Value(s[..2]) == 10 * Value(s[..1]) + (s[1] as int - '0' as int);
    assert s[..1][..0] == [];
  }

  // ------------------------------------------------------------------ order --

  predicate LexLt(a: string, b: string) { LexLe(a, b) && a != b }

  lemma PairOrder(a: string, b: string, x: string, y: string)
    requires |a| == |b| && |x| == |y|
    requires LexLt(a, b) || (a == b && LexLt(x, y))
    ensures LexLt(a + x, b + y)
  {
    if a == b {
      LexDecidesEarly(a, x, y);
    } else {
      LexIgnoresTails(a, b, x, y);
      assert (a + x)[..|a|] == a && (b + y)[..|a|] == b;
    }
    assert (a + x)[|a|..] == x && (b + y)[|a|..] == y;
  }

  lemma CharOrder(c: char, d: char)
    requires c < d
    ensures LexLt([c], [d])
  {
  }

  lemma TwoOrder(m: nat, n: nat)
    requires m < n < 100
    ensures LexLt(Two(m), Two(n))
  {
    if m / 10 < n / 10 { CharOrder(Digit(m / 10), Digit(n / 10)); } else { CharOrder(Digit(m % 10), Digit(n % 10)); }
    PairOrder([Digit(m / 10)], [Digit(n / 10)], [Digit(m % 10)], [Digit(n % 10)]);
    assert Two(m) == [Digit(m / 10)] + [Digit(m % 10)] && Two(n) == [Digit(n / 10)] + [Digit(n % 10)];
  }

  lemma DateOrder(m: int, n: int)
    requires -1 <= m < n < 9
    ensures LexLt(Date(m), Date(n))
  {
    if m == -1 {
      CharOrder('5', '6');
      PairOrder("5", "6", "1231", "01" + Two(n + 1));
      PairOrder("202", "202", "5" + "1231", "6" + ("01" + Two(n + 1)));
      assert Date(m) == "202" + ("5" + "1231") && Date(n) == "202" + ("6" + ("01" + Two(n + 1)));
    } else {
      TwoOrder(m + 1, n + 1);
      PairOrder("202601", "202601", Two(m + 1), Two(n + 1));
    }
  }

  lemma StampOrder(d: int, h: nat, m: nat, e: int, i: nat, n: nat)
    requires -1 <= d <= e < 9 && h < 24 && i < 24 && m < 60 && n < 60
    requires d < e || h < i || (h == i && m < n)
    ensures LexLt(Stamp(d, h, m), Stamp(e, i, n)) && |Stamp(d, h, m)| == |Stamp(e, i, n)| == 14
  {
    var x, y := Two(m) + "00", Two(n) + "00";
    if d < e {
      DateOrder(d, e);
    } else if h < i {
      TwoOrder(h, i);
      PairOrder(Two(h), Two(i), x, y);
    } else {
      TwoOrder(m, n);
      PairOrder(Two(m), Two(n), "00", "00");
      PairOrder(Two(h), Two(i), x, y);
    }
    PairOrder(Date(d), Date(e), Two(h) + x, Two(i) + y);
  }

  lemma Clock(minutes: int) returns (d: int, h: nat, m: nat)
    requires -1 <= minutes < 9999
    ensures -1 <= d < 9 && h < 24 && m < 60
    ensures d == minutes / MINUTES_A_DAY && h == minutes % MINUTES_A_DAY / 60
    ensures m == minutes % MINUTES_A_DAY % 60
    ensures TimestampFor(minutes + 1) == Stamp(d, h, m)
  {
    d, h, m := minutes / MINUTES_A_DAY, minutes % MINUTES_A_DAY / 60, minutes % MINUTES_A_DAY % 60;
  }

  /** A later minute falls on a later day, or the same day at a later hour and minute. */
  lemma ClockOrder(a: int, b: int)
    requires -1 <= a < b < 9999
    ensures -1 <= a / MINUTES_A_DAY <= b / MINUTES_A_DAY < 9
    ensures var x, y := a % MINUTES_A_DAY, b % MINUTES_A_DAY;
            && x / 60 < 24 && y / 60 < 24
            && (a / MINUTES_A_DAY < b / MINUTES_A_DAY || x / 60 < y / 60 || (x / 60 == y / 60 && x % 60 < y % 60))
  {
  }

  /** A later sequence number gets a later timestamp, of the same length. */
  lemma TimestampOrder(s: nat, t: nat)
    requires s < t <= 9999
    ensures LexLt(TimestampFor(s), TimestampFor(t))
    ensures |TimestampFor(s)| == |TimestampFor(t)| == 14
  {
    ClockOrder(s - 1, t - 1);
    var d, h, m := Clock(s - 1);
    var e, i, n := Clock(t - 1);
    StampOrder(d, h, m, e, i, n);
  }

  /** The name is four digits, an underscore, a body on one line and the suffix. */
  predicate ReadsAs(name: string, digits: string, body: string) {
    && |digits| == 4 && (forall i :: 0 <= i < 4 ==> '0' <= digits[i] <= '9')
    && body != "" && '\n' !in body && name == digits + "_" + body + ".sql"
  }

  lemma ConventionIff(name: string)
    ensures Conventional(name) <==> exists digits, body :: ReadsAs(name, digits, body)
  {
    if Conventional(name) {
      var digits, body := name[..4], name[5..|name| - 4];
      assert name == digits + [name[4]] + body + name[|name| - 4..];
      assert ReadsAs(name, digits, body);
    }
    if digits, body :| ReadsAs(name, digits, body) {
      assert name[..4] == digits && name[4] == '_' && name[|name| - 4..] == ".sql";
      assert name[5..|name| - 4] == body;
      forall i | 0 <= i < 4 ensures IsDigit(name[i]) { assert name[i] == digits[i]; }
      forall i | 5 <= i < |name| - 4 ensures name[i] != '\n' { assert name[i] == body[i - 5]; }
    }
  }

  /** A renamed file keeps the rest of its name, and its timestamp reads back as its number less one in minutes. */
  lemma NameReadsBack(name: string)
    requires Conventional(name)
    ensures var target := TargetName(name);
            && |target| == |name| + 10 && target[14..] == name[4..] && Digits(target[..14])
            && Digits(name[..4]) && MinutesSince2026(target[..14]) == Value(name[..4]) - 1
  {
    FourIsSmall(name[..4]);
    var s := Value(name[..4]);
    TimestampReadsBack(s);
    assert TargetName(name)[..14] == TimestampFor(s);
  }

  predicate Digits(s: string) { forall i :: 0 <= i < |s| ==> IsDigit(s[i]) }

  /** Minutes since the start of 2026 that a timestamp of early 2026, or of the day before, stands for. */
  function MinutesSince2026(stamp: string): int
    requires |stamp| == 14 && Digits(stamp)
  {
    (if Value(stamp[..8]) == 20251231 then -1 else Value(stamp[..8]) - 20260101) * MINUTES_A_DAY
    + Value(stamp[8..10]) * 60 + Value(stamp[10..12])
  }

  lemma TwoMore(a: string, n: nat)
    requires Digits(a) && n < 100
    ensures Digits(a + Two(n)) && Value(a + Two(n)) == 100 * Value(a) + n
  {
    var s := a + Two(n);
    assert s[..|s| - 1] == a + [Digit(n / 10)] && (a + [Digit(n / 10)])[..|a|] == a;
    assert Value(a + [Digit(n / 10)]) == 10 * Value(a) + n / 10;
  }

  lemma FourPairs(a: nat, b: nat, c: nat, d: nat)
    requires a < 100 && b < 100 && c < 100 && d < 100
    ensures var s := Two(a) + Two(b) + Two(c) + Two(d);
            |s| == 8 && Digits(s) && Value(s) == ((a * 100 + b) * 100 + c) * 100 + d
  {
    TwoMore("", a);
    assert "" + Two(a) == Two(a);
    TwoMore(Two(a), b);
    TwoMore(Two(a) + Two(b), c);
    TwoMore(Two(a) + Two(b) + Two(c), d);
  }

  lemma DateValue(days: int)
    requires -1 <= days < 9
    ensures Digits(Date(days)) && |Date(days)| == 8
    ensures Value(Date(days)) == if days == -1 then 20251231 else 20260101 + days
  {
    if days == -1 {
      FourPairs(20, 25, 12, 31);
      assert Date(days) == Two(20) + Two(25) + Two(12) + Two(31);
    } else {
      FourPairs(20, 26, 1, days + 1);
      assert Date(days) == Two(20) + Two(26) + Two(1) + Two(days + 1);
    }
  }

  /** Read back, the timestamp of a sequence number is that many minutes, less one, after midnight of 2026-01-01. */
  lemma TimestampReadsBack(sequence: nat)
    requires sequence <= 9999
    ensures |TimestampFor(sequence)| == 14 && Digits(TimestampFor(sequence))
    ensures MinutesSince2026(TimestampFor(sequence)) == sequence - 1
  {
    var days, inDay := (sequence - 1) / MINUTES_A_DAY, (sequence - 1) % MINUTES_A_DAY;
    var stamp := TimestampFor(sequence);
    StampReads(days, inDay / 60, inDay % 60);
    assert stamp == Stamp(days, inDay / 60, inDay % 60);
  }

  lemma StampReads(days: int, hours: nat, minutes: nat)
    requires -1 <= days < 9 && hours < 24 && minutes < 60
    ensures var s := Stamp(days, hours, minutes);
            |s| == 14 && Digits(s) && MinutesSince2026(s) == days * MINUTES_A_DAY + hours * 60 + minutes
  {
    DateValue(days);
    TwoMore("", hours);
    TwoMore("", minutes);
    assert "" + Two(hours) == Two(hours) && "" + Two(minutes) == Two(minutes);
    var s := Stamp(days, hours, minutes);
    assert s[..8] == Date(days) && s[8..10] == Two(hours) && s[10..12] == Two(minutes) && s[12..] == "00";
    assert s == s[..8] + s[8..10] + s[10..12] + s[12..];
  }

  /** Equally long numerals compare as the numbers they write. */
  lemma {:induction false} ValueOrder(a: string, b: string)
    requires |a| == |b| && forall i :: 0 <= i < |a| ==> IsDigit(a[i]) && IsDigit(b[i])
    ensures LexLt(a, b) <==> Value(a) < Value(b)
    ensures a == b <==> Value(a) == Value(b)
  {
    if a != [] {
      var x, y := a[..|a| - 1], b[..|b| - 1];
      var c, d := a[|a| - 1], b[|b| - 1];
      ValueOrder(x, y);
      assert a == x + [c] && b == y + [d];
      if x == y {
        LexDecidesEarly(x, [c], [d]);
      } else {
        LexIgnoresTails(x, y, [c], [d]);
      }
    }
  }

  /** Renaming keeps the order of any two migrations, and keeps them apart. */
  lemma RenamingKeepsOrder(a: string, b: string)
    requires Conventional(a) && Conventional(b)
    ensures LexLe(TargetName(a), TargetName(b)) <==> LexLe(a, b)
    ensures TargetName(a) == TargetName(b) <==> a == b
    ensures IsSql(TargetName(a)) && FourDigits(TargetName(a))
  {
    var p, q := a[..4], b[..4];
    assert a == p + a[4..] && b == q + b[4..];
    FourIsSmall(p);
    FourIsSmall(q);
    var s, t := TimestampFor(Value(p)), TimestampFor(Value(q));
    TimestampShape(Value(p), a[4..]);
    assert a[4..][|a| - 8..] == a[|a| - 4..];
    ValueOrder(p, q);
    if p == q {
      LexDecidesEarly(p, a[4..], b[4..]);
      LexDecidesEarly(s, a[4..], b[4..]);
      assert (s + a[4..])[|s|..] == a[4..] && (t + b[4..])[|s|..] == b[4..];
    } else {
      DifferentNumbers(p, q, a[4..], b[4..]);
    }
  }

  lemma TimestampShape(s: nat, tail: string)
    requires s <= 9999 && |tail| >= 4 && tail[|tail| - 4..] == SQL_SUFFIX
    ensures IsSql(TimestampFor(s) + tail) && FourDigits(TimestampFor(s) + tail) && |TimestampFor(s)| == 14
  {
    var n := TimestampFor(s) + tail;
    assert n[|n| - 4..] == tail[|tail| - 4..];
    assert n[..4] == Date((s - 1) / MINUTES_A_DAY)[..4];
    assert forall i :: 0 <= i < 4 ==> n[i] == n[..4][i];
  }

  lemma DifferentNumbers(p: string, q: string, x: string, y: string)
    requires |p| == |q| == 4 && p != q && forall i :: 0 <= i < 4 ==> IsDigit(p[i]) && IsDigit(q[i])
    requires Value(p) <= 9999 && Value(q) <= 9999
    ensures var s, t := TimestampFor(Value(p)), TimestampFor(Value(q));
            && (LexLe(s + x, t + y) <==> LexLe(p + x, q + y))
            && s + x != t + y && p + x != q + y
  {
    var s, t := TimestampFor(Value(p)), TimestampFor(Value(q));
    ValueOrder(p, q);
    if Value(p) < Value(q) { TimestampOrder(Value(p), Value(q)); } else { TimestampOrder(Value(q), Value(p)); }
    if LexLe(s, t) && LexLe(t, s) { LexAntisymmetric(s, t); }
    LexTotal(p, q);
    if LexLe(p, q) && LexLe(q, p) { LexAntisymmetric(p, q); }
    ValueOrder(q, p);
    LexIgnoresTails(p, q, x, y);
    LexIgnoresTails(s, t, x, y);
    assert (s + x)[..14] == s && (t + y)[..14] == t && (p + x)[..4] == p && (q + y)[..4] == q;
  }

  // ------------------------------------------------------------------- plan --

  datatype Result<+T> = Returned(value: T) | BadName(name: string)

  /** planned_mirrors over the listed files: the renamed files, or the first name outside the convention. */
  function Plan(files: seq<File>): Result<seq<File>> {
    if files == [] then Returned([])
    else if !Conventional(files[0].name) then BadName(files[0].name)
    else match Plan(files[1..])
      case BadName(n) => BadName(n)
      case Returned(rest) => Returned([File(TargetName(files[0].name), files[0].text)] + rest)
  }

  lemma {:induction false} PlanNames(files: seq<File>)
    ensures Plan(files).Returned? <==> forall i :: 0 <= i < |files| ==> Conventional(files[i].name)
    ensures Plan(files).BadName? ==>
              exists i :: 0 <= i < |files| && Plan(files).name == files[i].name && !Conventional(files[i].name)
    ensures Plan(files).Returned? ==>
              && |Plan(files).value| == |files|
              && forall i :: 0 <= i < |files| ==> Plan(files).value[i] == File(TargetName(files[i].name), files[i].text)
  {
    if files != [] {
      PlanNames(files[1..]);
      if Plan(files).BadName? && Conventional(files[0].name) {
        var i :| 0 <= i < |files| - 1 && Plan(files).name == files[1..][i].name && !Conventional(files[1..][i].name);
        assert files[i + 1] == files[1..][i];
      }
    }
  }

  /** Every file has its mirror at the same position with the same text, and the mirror names are strictly in order:
      no two sources collide, and a sort of the mirror names changes nothing. */
  lemma PlanIsFaithful(files: seq<File>)
    requires Sorted(files, ByName) && DistinctNames(files)
    ensures Plan(files).Returned? <==> forall i :: 0 <= i < |files| ==> Conventional(files[i].name)
    ensures Plan(files).Returned? ==>
              var plan := Plan(files).value;
              && |plan| == |files|
              && (forall i :: 0 <= i < |files| ==>
                    plan[i] == File(TargetName(files[i].name), files[i].text) && IsSqlFile(plan[i]))
              && Sorted(plan, ByName) && DistinctNames(plan)
  {
    PlanNames(files);
    if Plan(files).Returned? {
      var plan := Plan(files).value;
      forall i, j | 0 <= i < j < |plan| ensures ByName(plan[i], plan[j]) && plan[i].name != plan[j].name {
        assert ByName(files[i], files[j]);
        RenamingKeepsOrder(files[i].name, files[j].name);
      }
      forall i | 0 <= i < |plan| ensures IsSqlFile(plan[i]) { RenamingKeepsOrder(files[i].name, files[i].name); }
    }
  }

  // ------------------------------------------------------------- the folder --

  type Contents = map<string, string>

  function PlannedNames(plan: seq<File>): seq<string> {
    seq(|plan|, i requires 0 <= i < |plan| => plan[i].name)
  }

  predicate Planned(plan: seq<File>, name: string) {
    exists i :: 0 <= i < |plan| && plan[i].name == name
  }

  /** The folder agrees with the plan: the same SQL files with the same text, whatever else it holds. */
  ghost predicate InSync(c: Contents, plan: seq<File>) {
    && (forall i :: 0 <= i < |plan| ==> plan[i].name in c && c[plan[i].name] == plan[i].text)
    && (forall name :: name in c && IsSql(name) ==> Planned(plan, name))
  }

  /** Files that are not SQL are the same in both. */
  ghost predicate SameOthers(a: Contents, b: Contents) {
    forall name: string :: !IsSql(name) ==> (name in a <==> name in b) && (name in a ==> a[name] == b[name])
  }

  datatype Problem = Absent(name: string) | Differs(name: string) | Stale(name: string)

  predicate IsProblem(c: Contents, plan: seq<File>, p: Problem) {
    match p
    case Absent(n) => Planned(plan, n) && n !in c
    case Differs(n) => n in c && IsSql(n) && exists i :: 0 <= i < |plan| && plan[i].name == n && c[n] != plan[i].text
    case Stale(n) => n in c && IsSql(n) && !Planned(plan, n)
  }

  class MirrorFolder {
    var files: Contents

    constructor (c: Contents)
      ensures files == c
    {
      files := c;
    }

    /** sync: whatever the folder held, it agrees with the plan afterwards and nothing else in it is touched;
        a source name outside the convention changes nothing. */
    method Sync(source: seq<File>) returns (r: Result<seq<string>>)
      requires DistinctNames(source)
      modifies this
      ensures r.BadName? <==> Plan(SqlFiles(source)).BadName?
      ensures r.BadName? ==> r.name == Plan(SqlFiles(source)).name && files == old(files)
      ensures r.Returned? ==> InSync(files, Plan(SqlFiles(source)).value) && SameOthers(files, old(files))
      ensures r.Returned? ==> r.value == PlannedNames(Plan(SqlFiles(source)).value)
    {
      var planned := Plan(SqlFiles(source));
      if planned.BadName? { return BadName(planned.name); }
      var plan := planned.value;
      ListingIsExact(source);
      PlanIsFaithful(SqlFiles(source));
      RemoveStale(plan);
      WriteAll(plan);
      SortOfSorted(plan, ByName);
      r := Returned(PlannedNames(StableSort(plan, ByName)));
    }

    method WriteAll(plan: seq<File>)
      requires DistinctNames(plan)
      modifies this
      ensures Written(old(files), plan, files)
    {
      var i := 0;
      while i < |plan|
        invariant 0 <= i <= |plan| && Written(old(files), plan[..i], files)
      {
        OneMoreWritten(old(files), plan, files, i);
        files := files[plan[i].name := plan[i].text];
        i := i + 1;
      }
      assert plan[..i] == plan;
    }

    method RemoveStale(plan: seq<File>)
      modifies this
      ensures forall name :: name in files <==> name in old(files) && (IsSql(name) ==> Planned(plan, name))
      ensures forall name :: name in files ==> files[name] == old(files)[name]
    {
      var todo := files.Keys;
      while todo != {}
        invariant todo <= old(files).Keys
        invariant forall name :: name in files <==>
                    name in old(files) && (name in todo || !IsSql(name) || Planned(plan, name))
        invariant forall name :: name in files ==> files[name] == old(files)[name]
        decreases todo
      {
        var name :| name in todo;
        if IsSql(name) && !Planned(plan, name) { files := files - {name}; }
        todo := todo - {name};
      }
    }

    /** check: exactly the differences between the folder's SQL files and the plan. */
    method Check(source: seq<File>) returns (r: Result<seq<Problem>>)
      requires DistinctNames(source)
      ensures r.BadName? <==> Plan(SqlFiles(source)).BadName?
      ensures r.BadName? ==> r.name == Plan(SqlFiles(source)).name
      ensures r.Returned? ==> forall p :: p in r.value <==> IsProblem(files, Plan(SqlFiles(source)).value, p)
      ensures r.Returned? ==> (r.value == [] <==> InSync(files, Plan(SqlFiles(source)).value))
    {
      var planned := Plan(SqlFiles(source));
      if planned.BadName? { return BadName(planned.name); }
      var plan := planned.value;
      ListingIsExact(source);
      PlanIsFaithful(SqlFiles(source));
      var missing := CheckPlanned(plan);
      var stale := CheckStale(plan);
      NoProblemsMeansInSync(files, plan, missing + stale);
      r := Returned(missing + stale);
    }

    method CheckPlanned(plan: seq<File>) returns (problems: seq<Problem>)
      requires forall i :: 0 <= i < |plan| ==> IsSqlFile(plan[i])
      ensures forall p :: p in problems <==> !p.Stale? && IsProblem(files, plan, p)
    {
      problems := [];
      var i := 0;
      while i < |plan|
        invariant 0 <= i <= |plan|
        invariant forall p :: p in problems <==> !p.Stale? && IsProblem(files, plan[..i], p)
      {
        var f := plan[i];
        assert IsSqlFile(f) && plan[..i + 1] == plan[..i] + [f];
        ghost var before := problems;
        if f.name !in files {
          problems := problems + [Absent(f.name)];
        } else if files[f.name] != f.text {
          problems := problems + [Differs(f.name)];
        }
        OneMorePlanned(files, plan, i, before, problems);
        i := i + 1;
      }
      assert plan[..i] == plan;
    }

    method CheckStale(plan: seq<File>) returns (problems: seq<Problem>)
      ensures forall p :: p in problems <==> p.Stale? && IsProblem(files, plan, p)
    {
      problems := [];
      var todo := files.Keys;
      while todo != {}
        invariant todo <= files.Keys
        invariant forall p :: p in problems <==> p.Stale? && IsProblem(files, plan, p) && p.name !in todo
        decreases todo
      {
        var name :| name in todo;
        if IsSql(name) && !Planned(plan, name) { problems := problems + [Stale(name)]; }
        todo := todo - {name};
      }
    }
  }

  /** The plan's files hold the plan's text, and everything else is as it was. */
  ghost predicate Written(before: Contents, plan: seq<File>, now: Contents) {
    && (forall i :: 0 <= i < |plan| ==> plan[i].name in now && now[plan[i].name] == plan[i].text)
    && (forall name :: name in now <==> name in before || Planned(plan, name))
    && (forall name :: name in before && !Planned(plan, name) ==> now[name] == before[name])
  }

  lemma OneMoreWritten(before: Contents, plan: seq<File>, now: Contents, i: nat)
    requires DistinctNames(plan) && i < |plan| && Written(before, plan[..i], now)
    ensures Written(before, plan[..i + 1], now[plan[i].name := plan[i].text])
  {
    PlannedGrows(plan, i);
    forall j | 0 <= j < i ensures plan[j].name != plan[i].name {
    }
  }

  lemma PlannedGrows(plan: seq<File>, i: nat)
    requires i < |plan|
    ensures forall name :: Planned(plan[..i + 1], name) <==> Planned(plan[..i], name) || name == plan[i].name
  {
    var now := plan[..i + 1];
    assert now[i] == plan[i];
    forall name | Planned(plan[..i], name) ensures Planned(now, name) {
      var j :| 0 <= j < i && plan[..i][j].name == name;
      assert now[j].name == name;
    }
    forall name | Planned(now, name) && name != plan[i].name ensures Planned(plan[..i], name) {
      var j :| 0 <= j < |now| && now[j].name == name;
      assert plan[..i][j].name == name;
    }
  }

  lemma OneMorePlanned(c: Contents, plan: seq<File>, i: nat, before: seq<Problem>, after: seq<Problem>)
    requires i < |plan| && IsSqlFile(plan[i])
    requires forall p :: p in before <==> !p.Stale? && IsProblem(c, plan[..i], p)
    requires after == before + (if plan[i].name !in c then [Absent(plan[i].name)]
                                else if c[plan[i].name] != plan[i].text then [Differs(plan[i].name)] else [])
    ensures forall p :: p in after <==> !p.Stale? && IsProblem(c, plan[..i + 1], p)
  {
    var f := plan[i];
    var now := plan[..i + 1];
    assert now == plan[..i] + [f] && now[i] == f;
    forall p ensures p in after <==> !p.Stale? && IsProblem(c, now, p) {
      if p.Absent? {
        assert Planned(now, p.name) <==> Planned(plan[..i], p.name) || p.name == f.name;
      }
    }
  }

  lemma NoProblemsMeansInSync(c: Contents, plan: seq<File>, problems: seq<Problem>)
    requires forall i :: 0 <= i < |plan| ==> IsSqlFile(plan[i])
    requires forall p :: p in problems <==> IsProblem(c, plan, p)
    ensures problems == [] <==> InSync(c, plan)
  {
    if problems == [] {
      forall i | 0 <= i < |plan| ensures plan[i].name in c && c[plan[i].name] == plan[i].text {
        assert !IsProblem(c, plan, Absent(plan[i].name)) && !IsProblem(c, plan, Differs(plan[i].name));
      }
      forall name | name in c && IsSql(name) ensures Planned(plan, name) {
        assert !IsProblem(c, plan, Stale(name));
      }
    } else {
      assert problems[0] in problems;
    }
  }

  /** Syncing a folder that agrees with the plan leaves it as it is: two folders that agree with one plan and hold
      the same other files are equal. */
  lemma SyncIsIdempotent(a: Contents, b: Contents, plan: seq<File>)
    requires InSync(a, plan) && InSync(b, plan) && SameOthers(a, b)
    ensures a == b
  {
    forall name ensures name in a <==> name in b {
      if IsSql(name) && Planned(plan, name) {
        var i :| 0 <= i < |plan| && plan[i].name == name;
      }
    }
    forall name | name in a ensures a[name] == b[name] {
      if IsSql(name) {
        var i :| 0 <= i < |plan| && plan[i].name == name;
      }
    }
  }
}
