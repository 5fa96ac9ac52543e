/**
 The migration runner: a snapshot of what is recorded, then one transaction per
 file holding the file's SQL and its record. Runs may overlap, fail in the SQL
 or stop anywhere; the directory they read is the same.
 Models migrate and _already_applied of scripts/migrate.py, and migration_files
 and pending_migrations of src/arie/migrations.py.
 */
module Migrations {
  import opened Scoring
  import opened Sorting
  import opened Folders

  /** Hashing is injective here. */
  datatype Checksum = Sha256(of: string)

  type Records = map<string, Checksum>

  /** The record table, absent before the first bootstrap, and the effects committed, in order. */
  datatype Db = Db(table: Option<Records>, effects: seq<string>)

  datatype Error =
    NoFolder | NoFiles | ChangedSince(name: string) | SqlFailed(name: string) | AlreadyRecorded(name: string)

  datatype Result<+T> = Returned(value: T) | Raised(error: Error)

  /** _already_applied: an absent table reads as nothing applied. */
  function Applied(db: Db): Records {
    if db.table.Some? then db.table.value else map[]
  }

  /** migration_files: a missing or empty directory is an error, never an empty answer. */
  function MigrationFiles(d: Folder): Result<seq<File>> {
    if d.Missing? then Raised(NoFolder)
    else if SqlFiles(d.files) == [] then Raised(NoFiles)
    else Returned(SqlFiles(d.files))
  }

  function ChecksumOf(f: File): Checksum { Sha256(f.text) }

  function Names(files: seq<File>): seq<string> {
    seq(|files|, i requires 0 <= i < |files| => files[i].name)
  }

  // ------------------------------------------------------- what runs answer --

  function Unrecorded(files: seq<File>, done: Records): seq<File> {
    if files == [] then []
    else if files[0].name in done then Unrecorded(files[1..], done)
    else [files[0]] + Unrecorded(files[1..], done)
  }

  /** pending_migrations: the names on disk without a record. */
  function PendingMigrations(d: Folder, db: Db): Result<seq<string>> {
    match MigrationFiles(d)
    case Raised(e) => Raised(e)
    case Returned(files) => Returned(Names(Unrecorded(files, Applied(db))))
  }

  predicate Changed(f: File, done: Records) {
    f.name in done && done[f.name] != ChecksumOf(f)
  }

  /** The position of the first file edited after it ran, or the number of files. */
  function FirstChanged(files: seq<File>, done: Records): (n: nat)
    ensures n <= |files|
    ensures forall i :: 0 <= i < n ==> !Changed(files[i], done)
    ensures n < |files| ==> Changed(files[n], done)
  {
    if files == [] || Changed(files[0], done) then 0 else 1 + FirstChanged(files[1..], done)
  }

  /** What a run over these files should answer: the unrecorded names, or the first edited file. */
  function Verdict(files: seq<File>, done: Records): Result<seq<string>> {
    var n := FirstChanged(files, done);
    if n < |files| then Raised(ChangedSince(files[n].name)) else Returned(Names(Unrecorded(files, done)))
  }

  /** A dry run's whole answer. */
  function Preview(d: Folder, db: Db): Result<seq<string>> {
    match MigrationFiles(d)
    case Raised(e) => Raised(e)
    case Returned(files) => Verdict(files, Applied(db))
  }

  lemma {:induction false} NoneUnrecorded(files: seq<File>, done: Records)
    ensures Unrecorded(files, done) == [] <==> forall i :: 0 <= i < |files| ==> files[i].name in done
  {
    if files != [] { NoneUnrecorded(files[1..], done); }
  }

  /** The readiness check and the dry run name the same files, except that the dry run refuses an edited one. */
  lemma DryRunIsReadinessPlusChecksums(d: Folder, db: Db)
    ensures MigrationFiles(d).Raised? ==> Preview(d, db) == PendingMigrations(d, db) == Raised(MigrationFiles(d).error)
    ensures Preview(d, db).Returned? ==> Preview(d, db) == PendingMigrations(d, db)
    ensures MigrationFiles(d).Returned? ==>
              (Preview(d, db).Raised? <==> exists f :: f in MigrationFiles(d).value && Changed(f, Applied(db)))
  {
    if MigrationFiles(d).Returned? {
      var files := MigrationFiles(d).value;
      var n := FirstChanged(files, Applied(db));
      assert n < |files| ==> files[n] in files;
    }
  }

  /** A directory that is missing or holds no SQL file is an error for both, never "nothing pending". */
  lemma BadFoldersAreErrors(d: Folder, db: Db)
    requires d.Folder? ==> DistinctNames(d.files)
    ensures d.Missing? ==> Preview(d, db) == PendingMigrations(d, db) == Raised(NoFolder)
    ensures d.Folder? && (forall f :: f in d.files ==> !IsSql(f.name)) ==>
              Preview(d, db) == PendingMigrations(d, db) == Raised(NoFiles)
    ensures d.Folder? && (exists f :: f in d.files && IsSql(f.name)) ==> PendingMigrations(d, db).Returned?
  {
    if d.Folder? {
      ListingIsExact(d.files);
      if SqlFiles(d.files) != [] { assert SqlFiles(d.files)[0] in SqlFiles(d.files); }
      if f :| f in d.files && IsSql(f.name) { assert f in SqlFiles(d.files); }
    }
  }

  // ------------------------------------------------------------ one whole run --

  class Database {
    var table: Option<Records>
    var effects: seq<string>

    ghost function Contents(): Db
      reads this
    {
      Db(table, effects)
    }

    constructor ()
      ensures Contents() == Db(None, [])
    {
      table, effects := None, [];
    }

    /** The loop over the listed files; see Migrate. */
    method Process(files: seq<File>, already: Records, dryRun: bool, broken: set<string>)
      returns (r: Result<seq<string>>)
      requires DistinctNames(files) && (!dryRun ==> table == Some(already))
      modifies this
      ensures dryRun ==> Contents() == old(Contents()) && r == Verdict(files, already)
      ensures !dryRun ==> Ran(files, already, broken, old(effects), Contents(), r)
    {
      ghost var before := Contents();
      var applied: seq<string> := [];
      var i := 0;
      while i < |files|
        invariant 0 <= i <= |files|
        invariant Progress(files, already, dryRun, broken, i, applied, before, Contents())
      {
        var f := files[i];
        ghost var was := Contents();
        if f.name in already {
          if already[f.name] != ChecksumOf(f) {
            Stopped(files, already, dryRun, broken, i, applied, before, Contents());
            return Raised(ChangedSince(f.name));
          }
          Skipped(files, already, dryRun, broken, i, applied, before, Contents());
        } else {
          if !dryRun {
            if f.name in broken {
              Broke(files, already, broken, i, applied, before, Contents());
              return Raised(SqlFailed(f.name));
            }
            table := Some(table.value[f.name := ChecksumOf(f)]);
            effects := effects + [f.name];
          }
          Took(files, already, dryRun, broken, i, applied, before, was, Contents());
          applied := applied + [f.name];
        }
        i := i + 1;
      }
      Stopped(files, already, dryRun, broken, i, applied, before, Contents());
      r := Returned(applied);
    }

    /** migrate. `broken` are the files whose SQL fails. A dry run writes nothing and answers the preview. An apply
        with succeeding SQL answers the same and commits the effect of every unrecorded file before the first edited
        one, in order, each with its record; a failing file ends it, keeping what came before. */
    method Migrate(d: Folder, dryRun: bool, broken: set<string>) returns (r: Result<seq<string>>)
      requires d.Folder? ==> DistinctNames(d.files)
      modifies this
      ensures Migrated(d, dryRun, broken, old(Contents()), Contents(), r)
    {
      var already := Applied(Db(table, effects));
      if !dryRun && table.None? { table := Some(map[]); }
      var listed := MigrationFiles(d);
      if listed.Raised? { return Raised(listed.error); }
      ListingIsExact(d.files);
      r := Process(listed.value, already, dryRun, broken);
    }
  }

  /** The files an apply runs: the unrecorded ones before the first edited one. */
  function Due(files: seq<File>, done: Records): seq<File> {
    Unrecorded(files[..FirstChanged(files, done)], done)
  }

  /** What a whole run answers and leaves. */
  predicate Migrated(d: Folder, dryRun: bool, broken: set<string>, before: Db, after: Db, r: Result<seq<string>>) {
    if dryRun then after == before && r == Preview(d, before)
    else match MigrationFiles(d)
      case Raised(e) => r == Raised(e) && after == Db(Some(Applied(before)), before.effects)
      case Returned(files) => Ran(files, Applied(before), broken, before.effects, after, r)
  }

  predicate NoneBroken(files: seq<File>, broken: set<string>) {
    forall i :: 0 <= i < |files| ==> files[i].name !in broken
  }

  /** What an apply leaves and answers, given the records it started from: the effects and records of the files that
      were due, up to the first whose SQL fails. */
  predicate Ran(files: seq<File>, done: Records, broken: set<string>, effects: seq<string>, after: Db,
                r: Result<seq<string>>) {
    var due := Due(files, done);
    var n := FirstBroken(due, broken);
    && after.effects == effects + Names(due[..n])
    && after.table == Some(WithRecords(done, due[..n]))
    && r == if n < |due| then Raised(SqlFailed(due[n].name)) else Verdict(files, done)
  }

  function FirstBroken(files: seq<File>, broken: set<string>): (n: nat)
    ensures n <= |files|
    ensures forall i :: 0 <= i < n ==> files[i].name !in broken
    ensures n < |files| ==> files[n].name in broken
  {
    if files == [] || files[0].name in broken then 0 else 1 + FirstBroken(files[1..], broken)
  }

  function WithRecords(done: Records, files: seq<File>): Records {
    if files == [] then done
    else WithRecords(done, files[..|files| - 1])[files[|files| - 1].name := ChecksumOf(files[|files| - 1])]
  }

  lemma {:induction false} UnrecordedOfConcat(a: seq<File>, b: seq<File>, done: Records)
    ensures Unrecorded(a + b, done) == Unrecorded(a, done) + Unrecorded(b, done)
  {
    if a == [] {
      assert a + b == b;
    } else {
      UnrecordedOfConcat(a[1..], b, done);
      assert (a + b)[0] == a[0] && (a + b)[1..] == a[1..] + b;
      var x, y := Unrecorded(a[1..], done), Unrecorded(b, done);
      assert [a[0]] + (x + y) == ([a[0]] + x) + y;
    }
  }

  lemma OneMore(files: seq<File>, done: Records, i: nat)
    requires i < |files|
    ensures Unrecorded(files[..i + 1], done) ==
            Unrecorded(files[..i], done) + if files[i].name in done then [] else [files[i]]
  {
    assert files[..i + 1] == files[..i] + [files[i]];
    UnrecordedOfConcat(files[..i], [files[i]], done);
  }

  /** After i files: nothing edited was met, and what is applied is what was unrecorded among them. */
  ghost predicate Progress(files: seq<File>, done: Records, dryRun: bool, broken: set<string>,
                           i: nat, applied: seq<string>, before: Db, now: Db)
    requires i <= |files|
  {
    var due := Unrecorded(files[..i], done);
    && (forall j :: 0 <= j < i ==> !Changed(files[j], done))
    && applied == Names(due)
    && (if dryRun then now == before
        else now == Db(Some(WithRecords(done, due)), before.effects + applied) && NoneBroken(due, broken))
  }

  lemma Skipped(files: seq<File>, done: Records, dryRun: bool, broken: set<string>,
                i: nat, applied: seq<string>, before: Db, now: Db)
    requires i < |files| && Progress(files, done, dryRun, broken, i, applied, before, now)
    requires files[i].name in done && !Changed(files[i], done)
    ensures Progress(files, done, dryRun, broken, i + 1, applied, before, now)
  {
    OneMore(files, done, i);
    assert Unrecorded(files[..i + 1], done) == Unrecorded(files[..i], done);
  }

  /** The state after an unrecorded file: its own transaction committed, unless nothing is written. */
  function WithFile(was: Db, f: File, dryRun: bool): Db {
    if dryRun then was else Db(Some(Applied(was)[f.name := ChecksumOf(f)]), was.effects + [f.name])
  }

  lemma Took(files: seq<File>, done: Records, dryRun: bool, broken: set<string>,
             i: nat, applied: seq<string>, before: Db, was: Db, now: Db)
    requires i < |files| && files[i].name !in done && (dryRun || files[i].name !in broken)
    requires Progress(files, done, dryRun, broken, i, applied, before, was)
    requires now == WithFile(was, files[i], dryRun)
    ensures Progress(files, done, dryRun, broken, i + 1, applied + [files[i].name], before, now)
  {
    OneMore(files, done, i);
    var due := Unrecorded(files[..i], done);
    OneMoreDue(due, files[i], done, broken);
    forall j | 0 <= j < i + 1 ensures !Changed(files[j], done) {
    }
  }

  lemma OneMoreDue(due: seq<File>, f: File, done: Records, broken: set<string>)
    ensures Names(due + [f]) == Names(due) + [f.name]
    ensures WithRecords(done, due + [f]) == WithRecords(done, due)[f.name := ChecksumOf(f)]
    ensures NoneBroken(due, broken) && f.name !in broken ==> NoneBroken(due + [f], broken)
  {
    assert (due + [f])[..|due|] == due;
  }

  /** A loop that stops after the last file, or at an edited one, covered exactly what was due. */
  lemma Stopped(files: seq<File>, done: Records, dryRun: bool, broken: set<string>,
                i: nat, applied: seq<string>, before: Db, now: Db)
    requires i <= |files| && Progress(files, done, dryRun, broken, i, applied, before, now)
    requires i < |files| ==> Changed(files[i], done)
    ensures Verdict(files, done) == if i < |files| then Raised(ChangedSince(files[i].name)) else Returned(applied)
    ensures !dryRun ==> Ran(files, done, broken, before.effects, now, Verdict(files, done))
  {
    assert FirstChanged(files, done) == i;
    var due := Due(files, done);
    assert due[..|due|] == due && (i == |files| ==> files[..i] == files);
  }

  lemma Broke(files: seq<File>, done: Records, broken: set<string>, i: nat, applied: seq<string>, before: Db, now: Db)
    requires i < |files| && Progress(files, done, false, broken, i, applied, before, now)
    requires files[i].name !in done && files[i].name in broken
    ensures Ran(files, done, broken, before.effects, now, Raised(SqlFailed(files[i].name)))
  {
    var due, earlier := Due(files, done), Unrecorded(files[..i], done);
    DueContinues(files, done, i);
    BrokenIs(due, |earlier|, broken);
  }

  lemma DueContinues(files: seq<File>, done: Records, i: nat)
    requires i < |files| && forall j :: 0 <= j <= i ==> !Changed(files[j], done)
    requires files[i].name !in done
    ensures var due := Due(files, done); var before := Unrecorded(files[..i], done);
            |before| < |due| && due[|before|] == files[i] && due[..|before|] == before
  {
    var c := FirstChanged(files, done);
    assert files[..c] == files[..i + 1] + files[i + 1..c];
    UnrecordedOfConcat(files[..i + 1], files[i + 1..c], done);
    OneMore(files, done, i);
  }

  lemma BrokenIs(due: seq<File>, n: nat, broken: set<string>)
    requires n < |due| && due[n].name in broken && NoneBroken(due[..n], broken)
    ensures FirstBroken(due, broken) == n
  {
  }

  // --------------------------------------------------------- what a run means --

  predicate Recorded(db: Db, f: File) {
    f.name in Applied(db) && Applied(db)[f.name] == ChecksumOf(f)
  }

  /** When every file is recorded as it is on disk, the dry run and the readiness check both come out empty. */
  lemma AllRecordedMeansNothingPending(d: Folder, db: Db)
    requires MigrationFiles(d).Returned?
    requires forall i :: 0 <= i < |MigrationFiles(d).value| ==> Recorded(db, MigrationFiles(d).value[i])
    ensures Preview(d, db) == Returned([]) && PendingMigrations(d, db) == Returned([])
  {
    NoneUnrecorded(MigrationFiles(d).value, Applied(db));
    assert Names([]) == [];
  }

  lemma {:induction false} RecordsOf(done: Records, files: seq<File>, name: string)
    requires DistinctNames(files)
    ensures name in WithRecords(done, files) <==> name in done || exists i :: 0 <= i < |files| && files[i].name == name
    ensures forall i :: 0 <= i < |files| && files[i].name == name ==>
              WithRecords(done, files)[name] == ChecksumOf(files[i])
    ensures name in done && (forall i :: 0 <= i < |files| ==> files[i].name != name) ==>
              WithRecords(done, files)[name] == done[name]
  {
    if files != [] {
      var front := files[..|files| - 1];
      RecordsOf(done, front, name);
      if i :| 0 <= i < |front| && front[i].name == name { assert files[i].name == name; }
    }
  }

  lemma {:induction false} UnrecordedAre(files: seq<File>, done: Records)
    requires DistinctNames(files)
    ensures DistinctNames(Unrecorded(files, done))
    ensures forall f :: f in Unrecorded(files, done) <==> f in files && f.name !in done
  {
    if files != [] {
      UnrecordedAre(files[1..], done);
      var rest := Unrecorded(files[1..], done);
      forall j | 0 <= j < |rest| ensures rest[j].name != files[0].name { assert rest[j] in files[1..]; }
    }
  }

  lemma AllDueRan(files: seq<File>, done: Records, effects: seq<string>, after: Db, r: Result<seq<string>>)
    requires Ran(files, done, {}, effects, after, r)
    ensures var due := Due(files, done);
            && r == Verdict(files, done) && after.effects == effects + Names(due)
            && after.table == Some(WithRecords(done, due))
  {
    var due := Due(files, done);
    assert FirstBroken(due, {}) == |due|;
    assert due[..|due|] == due;
  }

  lemma DueWhenReturned(files: seq<File>, done: Records)
    requires Verdict(files, done).Returned?
    ensures Due(files, done) == Unrecorded(files, done)
  {
    assert files[..|files|] == files;
  }

  /** An apply with succeeding SQL answers what the dry run predicted, and after it returns nothing is pending. */
  lemma ApplyDoesWhatDryRunSays(d: Folder, before: Db, after: Db, r: Result<seq<string>>)
    requires MigrationFiles(d).Returned? && DistinctNames(d.files)
    requires Ran(MigrationFiles(d).value, Applied(before), {}, before.effects, after, r)
    ensures r == Preview(d, before)
    ensures r.Returned? ==> after.effects == before.effects + r.value
    ensures r.Returned? ==> Preview(d, after) == Returned([]) && PendingMigrations(d, after) == Returned([])
  {
    var files, done := MigrationFiles(d).value, Applied(before);
    AllDueRan(files, done, before.effects, after, r);
    ListingIsExact(d.files);
    if r.Returned? {
      DueWhenReturned(files, done);
      AllRecordedNow(files, done, after);
      AllRecordedMeansNothingPending(d, after);
    }
  }

  lemma AllRecordedNow(files: seq<File>, done: Records, after: Db)
    requires DistinctNames(files) && after.table == Some(WithRecords(done, Unrecorded(files, done)))
    requires forall i :: 0 <= i < |files| ==> !Changed(files[i], done)
    ensures forall i :: 0 <= i < |files| ==> Recorded(after, files[i])
  {
    var due := Unrecorded(files, done);
    UnrecordedAre(files, done);
    forall i | 0 <= i < |files| ensures Recorded(after, files[i]) {
      RecordsOf(done, due, files[i].name);
      if files[i].name !in done { assert files[i] in due; } else { NotDue(due, done, files[i].name); }
    }
  }

  /** Whatever SQL fails, each effect a run adds is of a file that had no record and has one now, and none is added
      twice. */
  lemma ApplyRepeatsNothing(d: Folder, dryRun: bool, broken: set<string>, before: Db, after: Db, r: Result<seq<string>>)
    requires d.Folder? ==> DistinctNames(d.files)
    requires Migrated(d, dryRun, broken, before, after, r)
    ensures before.effects <= after.effects && Distinct(after.effects[|before.effects|..])
    ensures forall name :: name in after.effects[|before.effects|..] ==>
              name !in Applied(before) && name in Applied(after)
  {
    if !dryRun && MigrationFiles(d).Returned? {
      ListingIsExact(d.files);
      RanRepeatsNothing(MigrationFiles(d).value, Applied(before), broken, before.effects, after, r);
    } else {
      assert after.effects[|before.effects|..] == [];
    }
  }

  lemma RanRepeatsNothing(files: seq<File>, done: Records, broken: set<string>, effects: seq<string>, after: Db,
                          r: Result<seq<string>>)
    requires DistinctNames(files) && Ran(files, done, broken, effects, after, r)
    ensures effects <= after.effects && Distinct(after.effects[|effects|..])
    ensures forall name :: name in after.effects[|effects|..] ==> name !in done && name in Applied(after)
  {
    UnrecordedAre(files[..FirstChanged(files, done)], done);
    var due := Due(files, done);
    var ran := due[..FirstBroken(due, broken)];
    assert after.effects[|effects|..] == Names(ran);
    forall f | f in ran ensures f.name !in done { assert f in due; }
    NewNames(ran, done, Applied(after));
  }

  lemma NewNames(due: seq<File>, done: Records, after: Records)
    requires DistinctNames(due) && after == WithRecords(done, due) && forall f :: f in due ==> f.name !in done
    ensures Distinct(Names(due))
    ensures forall name :: name in Names(due) ==> name !in done && name in after
  {
    forall i | 0 <= i < |due| ensures due[i].name !in done && due[i].name in after {
      assert due[i] in due;
      RecordsOf(done, due, due[i].name);
    }
  }

  lemma NotDue(due: seq<File>, done: Records, name: string)
    requires name in done && forall f :: f in due ==> f.name !in done
    ensures forall i :: 0 <= i < |due| ==> due[i].name != name
  {
    forall i | 0 <= i < |due| ensures due[i].name != name { assert due[i] in due; }
  }

  // ------------------------------------------------------- edits, as texts --

  /** The records are of these texts: what each recorded file held when it was applied. */
  predicate Remembers(db: Db, texts: map<string, string>) {
    Applied(db).Keys == texts.Keys && forall n :: n in texts ==> Applied(db)[n] == Sha256(texts[n])
  }

  /** The folder holds a SQL file of this name whose text is not the one applied. */
  ghost predicate IsEdited(d: Folder, texts: map<string, string>, n: string) {
    d.Folder? && IsSql(n) && n in texts && exists f :: f in d.files && f.name == n && f.text != texts[n]
  }

  /** The first edited file in order of name. */
  ghost predicate FirstEdited(d: Folder, texts: map<string, string>, n: string) {
    IsEdited(d, texts, n) && forall m :: IsEdited(d, texts, m) ==> LexLe(n, m)
  }

  lemma ChangedIsEdited(d: Folder, db: Db, texts: map<string, string>, f: File)
    requires d.Folder? && DistinctNames(d.files) && Remembers(db, texts) && f in SqlFiles(d.files)
    ensures Changed(f, Applied(db)) <==> IsEdited(d, texts, f.name)
  {
    ListingIsExact(d.files);
    forall g | g in d.files && g.name == f.name ensures g == f {
      var i :| 0 <= i < |d.files| && d.files[i] == g;
      var j :| 0 <= j < |d.files| && d.files[j] == f;
    }
  }

  /** The first changed file of the listing is the first edited one in order of name. */
  lemma FirstChangedIsFirstEdited(d: Folder, db: Db, texts: map<string, string>, n: string)
    requires d.Folder? && DistinctNames(d.files) && Remembers(db, texts)
    ensures var files := SqlFiles(d.files); var i := FirstChanged(files, Applied(db));
            FirstEdited(d, texts, n) <==> i < |files| && files[i].name == n
  {
    var files := SqlFiles(d.files);
    var i := FirstChanged(files, Applied(db));
    ListingIsExact(d.files);
    forall m | IsEdited(d, texts, m) ensures i < |files| && LexLe(files[i].name, m) {
      var f :| f in d.files && f.name == m && f.text != texts[m];
      assert f in files;
      var j :| 0 <= j < |files| && files[j] == f;
      ChangedIsEdited(d, db, texts, f);
      if i < j { assert LexLe(files[i].name, files[j].name); } else { LexTotal(m, m); }
    }
    if i < |files| {
      ChangedIsEdited(d, db, texts, files[i]);
      if FirstEdited(d, texts, n) { LexAntisymmetric(n, files[i].name); }
    }
  }

  /** A dry run refuses with a file's name exactly when it is the first, in order of name, whose text on disk is not the
      text that was applied. */
  lemma EditsAreRefused(d: Folder, db: Db, texts: map<string, string>, n: string)
    requires d.Folder? && DistinctNames(d.files) && Remembers(db, texts)
    ensures Preview(d, db) == Raised(ChangedSince(n)) <==> FirstEdited(d, texts, n)
  {
    FirstChangedIsFirstEdited(d, db, texts, n);
    ListingIsExact(d.files);
    if FirstEdited(d, texts, n) {
      var f :| f in d.files && f.name == n && f.text != texts[n];
      assert f in SqlFiles(d.files);
    }
  }

  /** So does an apply, unless the SQL of a file before it fails; it raises that error for no other file. */
  lemma ApplyRefusesEdits(d: Folder, broken: set<string>, before: Db, after: Db, r: Result<seq<string>>,
                          texts: map<string, string>, n: string)
    requires d.Folder? && DistinctNames(d.files) && Remembers(before, texts)
    requires Migrated(d, false, broken, before, after, r)
    ensures r == Raised(ChangedSince(n)) ==> FirstEdited(d, texts, n)
    ensures FirstEdited(d, texts, n) && (forall m :: m in broken ==> LexLe(n, m)) ==> r == Raised(ChangedSince(n))
  {
    EditsAreRefused(d, before, texts, n);
    ListingIsExact(d.files);
    if MigrationFiles(d).Returned? {
      var files, done := MigrationFiles(d).value, Applied(before);
      if FirstEdited(d, texts, n) && (forall m :: m in broken ==> LexLe(n, m)) {
        NothingDueFails(d, before, texts, broken, n);
        assert Due(files, done)[..|Due(files, done)|] == Due(files, done);
      }
    }
  }

  lemma NothingDueFails(d: Folder, db: Db, texts: map<string, string>, broken: set<string>, n: string)
    requires d.Folder? && DistinctNames(d.files) && Remembers(db, texts) && FirstEdited(d, texts, n)
    requires forall m :: m in broken ==> LexLe(n, m)
    ensures FirstBroken(Due(SqlFiles(d.files), Applied(db)), broken) == |Due(SqlFiles(d.files), Applied(db))|
  {
    var files, done := SqlFiles(d.files), Applied(db);
    var i := FirstChanged(files, done);
    FirstChangedIsFirstEdited(d, db, texts, n);
    ListingIsExact(d.files);
    UnrecordedAre(files[..i], done);
    var due := Due(files, done);
    var k := FirstBroken(due, broken);
    if k < |due| {
      assert due[k] in due;
      var j :| 0 <= j < i && files[j] == due[k];
      LexAntisymmetric(files[j].name, files[i].name);
    }
  }

  /** The text a folder holds under a name. */
  ghost function TextIn(d: Folder, n: string): string {
    if d.Folder? && exists f :: f in d.files && f.name == n then
      var f :| f in d.files && f.name == n;
      f.text
    else ""
  }

  /** What is remembered after a run over the folder: earlier texts stay, newly recorded files bring theirs. */
  ghost function TextsAfter(texts: map<string, string>, d: Folder, after: Db): map<string, string> {
    map n | n in Applied(after) :: if n in texts then texts[n] else TextIn(d, n)
  }

  lemma TextOfFile(d: Folder, f: File)
    requires d.Folder? && DistinctNames(d.files) && f in d.files
    ensures TextIn(d, f.name) == f.text
  {
    var g :| g in d.files && g.name == f.name && TextIn(d, f.name) == g.text;
    var i :| 0 <= i < |d.files| && d.files[i] == g;
    var j :| 0 <= j < |d.files| && d.files[j] == f;
  }

  lemma {:induction false} FilesRemembered(d: Folder, files: seq<File>, done: Records, texts: map<string, string>)
    requires d.Folder? && DistinctNames(d.files) && forall f :: f in files ==> f in d.files && f.name !in done
    requires DistinctNames(files) && Remembers(Db(Some(done), []), texts)
    ensures var after := Db(Some(WithRecords(done, files)), []);
            Remembers(after, TextsAfter(texts, d, after))
  {
    var after := WithRecords(done, files);
    forall n | n in after ensures after[n] == Sha256(if n in texts then texts[n] else TextIn(d, n)) {
      RecordsOf(done, files, n);
      if i :| 0 <= i < |files| && files[i].name == n {
        assert files[i] in files;
        TextOfFile(d, files[i]);
      }
    }
  }

  /** The files an apply records: SQL files of the folder, without a record before, each once. */
  lemma WhatRan(d: Folder, broken: set<string>, before: Db, after: Db, r: Result<seq<string>>) returns (ran: seq<File>)
    requires d.Folder? && DistinctNames(d.files) && MigrationFiles(d).Returned?
    requires Migrated(d, false, broken, before, after, r)
    ensures Applied(after) == WithRecords(Applied(before), ran) && DistinctNames(ran)
    ensures forall f :: f in ran ==> f in SqlFiles(d.files) && f.name !in Applied(before)
    ensures r.Returned? ==> ran == Unrecorded(SqlFiles(d.files), Applied(before))
  {
    var files, done := SqlFiles(d.files), Applied(before);
    var due := Due(files, done);
    ListingIsExact(d.files);
    UnrecordedAre(files[..FirstChanged(files, done)], done);
    ran := due[..FirstBroken(due, broken)];
    forall f | f in ran ensures f in files && f.name !in done {
      assert f in due && f in files[..FirstChanged(files, done)];
    }
    if r.Returned? {
      DueWhenReturned(files, done);
      assert due[..|due|] == due;
    }
  }

  /** Every run, dry or applying and whatever fails in it, leaves records of the texts that were applied: those it
      found, and for each file it recorded the text the folder holds. */
  lemma RunRemembers(d: Folder, dryRun: bool, broken: set<string>, before: Db, after: Db, r: Result<seq<string>>,
                     texts: map<string, string>)
    requires (d.Folder? ==> DistinctNames(d.files)) && Remembers(before, texts)
    requires Migrated(d, dryRun, broken, before, after, r)
    ensures Remembers(after, TextsAfter(texts, d, after))
  {
    if !dryRun && MigrationFiles(d).Returned? {
      var ran := WhatRan(d, broken, before, after, r);
      ListingIsExact(d.files);
      FilesRemembered(d, ran, Applied(before), texts);
      SameRecords(after, Db(Some(WithRecords(Applied(before), ran)), []), TextsAfter(texts, d, after));
    } else {
      assert Applied(after) == Applied(before);
    }
  }

  lemma SameRecords(a: Db, b: Db, texts: map<string, string>)
    requires Applied(a) == Applied(b)
    ensures Remembers(a, texts) <==> Remembers(b, texts)
  {
  }

  /** After an apply over one folder returned, over a later folder a dry run, and an apply whose SQL succeeds, refuse
      exactly the first SQL file, in order of name, that both folders hold with different texts, if every record before
      was of a file of the first. */
  lemma EditedBetweenFolders(d: Folder, e: Folder, broken: set<string>, before: Db, after: Db, r: Result<seq<string>>,
                             texts: map<string, string>, later: Db, answer: Result<seq<string>>, n: string)
    requires Migrated(e, false, {}, after, later, answer)
    requires d.Folder? && DistinctNames(d.files) && e.Folder? && DistinctNames(e.files) && Remembers(before, texts)
    requires Migrated(d, false, broken, before, after, r) && r.Returned?
    requires forall m :: m in Applied(before) ==> IsSql(m) && exists f :: f in d.files && f.name == m
    ensures Preview(e, after) == Raised(ChangedSince(n)) <==>
            EditedBetween(d, e, n) && forall m :: EditedBetween(d, e, m) ==> LexLe(n, m)
    ensures answer == Preview(e, after)
  {
    var now := TextsAfter(texts, d, after);
    if MigrationFiles(e).Returned? { ApplyDoesWhatDryRunSays(e, after, later, answer); }
    RunRemembers(d, false, broken, before, after, r, texts);
    EditsAreRefused(e, after, now, n);
    forall m ensures IsEdited(e, now, m) <==> EditedBetween(d, e, m) {
      ReturnedRemembersTexts(d, broken, before, after, r, texts, m);
      SameEdits(d, e, now, m);
    }
  }

  lemma SameEdits(d: Folder, e: Folder, texts: map<string, string>, m: string)
    requires d.Folder? && DistinctNames(d.files)
    requires m in texts <==> IsSql(m) && exists f :: f in d.files && f.name == m
    requires m in texts ==> texts[m] == TextIn(d, m)
    ensures IsEdited(e, texts, m) <==> EditedBetween(d, e, m)
  {
    forall f | f in d.files && f.name == m ensures TextIn(d, m) == f.text { TextOfFile(d, f); }
  }

  /** Both folders hold a SQL file of this name, with different texts. */
  ghost predicate EditedBetween(d: Folder, e: Folder, n: string) {
    d.Folder? && e.Folder? && IsSql(n)
    && exists f, g :: f in d.files && g in e.files && f.name == n && g.name == n && f.text != g.text
  }

  lemma ReturnedRemembersTexts(d: Folder, broken: set<string>, before: Db, after: Db, r: Result<seq<string>>,
                               texts: map<string, string>, m: string)
    requires d.Folder? && DistinctNames(d.files) && Remembers(before, texts)
    requires Migrated(d, false, broken, before, after, r) && r.Returned?
    requires forall k :: k in Applied(before) ==> IsSql(k) && exists f :: f in d.files && f.name == k
    ensures m in Applied(after) <==> IsSql(m) && exists f :: f in d.files && f.name == m
    ensures m in Applied(after) ==> TextsAfter(texts, d, after)[m] == TextIn(d, m)
  {
    var files, done := SqlFiles(d.files), Applied(before);
    var ran := WhatRan(d, broken, before, after, r);
    ListingIsExact(d.files);
    UnrecordedAre(files, done);
    RecordsOf(done, ran, m);
    if i :| 0 <= i < |ran| && ran[i].name == m { assert ran[i] in ran; }
    if f :| f in d.files && f.name == m && IsSql(m) {
      assert f in files && (m !in done ==> f in ran);
      if f in ran { var k :| 0 <= k < |ran| && ran[k] == f; }
      if m in done { UnchangedText(d, before, texts, f); }
    }
  }

  lemma UnchangedText(d: Folder, db: Db, texts: map<string, string>, f: File)
    requires d.Folder? && DistinctNames(d.files) && Remembers(db, texts) && f in SqlFiles(d.files)
    requires Verdict(SqlFiles(d.files), Applied(db)).Returned? && f.name in texts
    ensures texts[f.name] == TextIn(d, f.name)
  {
    var files := SqlFiles(d.files);
    var k :| 0 <= k < |files| && files[k] == f;
    assert !Changed(files[k], Applied(db));
    ListingIsExact(d.files);
    TextOfFile(d, f);
  }
}
