/**
 Migration runs that overlap: any number of runners over one directory and one
 database, dry or applying, each stopping anywhere. A file's SQL and its record
 are one transaction, and two runners that reach the same file meet at the
 record's primary key.
 Models migrate of scripts/migrate.py under concurrency.
 */
module MigrationRuns {
  import opened Scoring
  import opened Sorting
  import opened Folders
  import opened Migrations

  type RunnerId = nat

  datatype Point = Started | Snapped | Prepared | Filing | Ended(r: Result<seq<string>>)

  datatype Runner = Runner(dry: bool, at: Point, already: Records, done: nat, applied: seq<string>)

  datatype State = State(db: Db, runners: map<RunnerId, Runner>)

  datatype Step =
    | Start(q: RunnerId, dry: bool)
    | Snapshot(q: RunnerId)
    | Bootstrap(q: RunnerId)
    | ListFiles(q: RunnerId)
    | ProcessFile(q: RunnerId, sqlSucceeds: bool)
    | Crash(q: RunnerId)

  predicate Enabled(s: State, step: Step) {
    match step
    case Start(q, _) => q !in s.runners
    case Snapshot(q) => q in s.runners && s.runners[q].at == Started
    case Bootstrap(q) => q in s.runners && s.runners[q].at == Snapped
    case ListFiles(q) => q in s.runners && s.runners[q].at == Prepared
    case ProcessFile(q, _) => q in s.runners && s.runners[q].at == Filing
    case Crash(q) => q in s.runners
  }

  /** One turn of the loop for the file at hand. */
  function FileStep(f: File, db: Db, p: Runner, sqlSucceeds: bool): (Db, Runner) {
    if f.name in p.already then
      (db, if p.already[f.name] != ChecksumOf(f) then p.(at := Ended(Raised(ChangedSince(f.name))))
           else p.(done := p.done + 1))
    else if p.dry then (db, p.(done := p.done + 1, applied := p.applied + [f.name]))
    else if !sqlSucceeds || db.table.None? then (db, p.(at := Ended(Raised(SqlFailed(f.name)))))
    else if f.name in db.table.value then (db, p.(at := Ended(Raised(AlreadyRecorded(f.name)))))
    else (WithFile(db, f, false), p.(done := p.done + 1, applied := p.applied + [f.name]))
  }

  function Turn(files: seq<File>, db: Db, p: Runner, sqlSucceeds: bool): (Db, Runner) {
    if p.done < |files| then FileStep(files[p.done], db, p, sqlSucceeds)
    else (db, p.(at := Ended(Returned(p.applied))))
  }

  function Files(d: Folder): seq<File> {
    if d.Missing? then [] else SqlFiles(d.files)
  }

  function Next(d: Folder, s: State, step: Step): State
    requires Enabled(s, step)
  {
    match step
    case Start(q, dry) => s.(runners := s.runners[q := Runner(dry, Started, map[], 0, [])])
    case Snapshot(q) => s.(runners := s.runners[q := s.runners[q].(at := Snapped, already := Applied(s.db))])
    case Bootstrap(q) =>
      State(if s.runners[q].dry || s.db.table.Some? then s.db else s.db.(table := Some(map[])),
            s.runners[q := s.runners[q].(at := Prepared)])
    case ListFiles(q) =>
      var listed := MigrationFiles(d);
      s.(runners := s.runners[q := s.runners[q].(at := if listed.Raised? then Ended(Raised(listed.error)) else Filing)])
    case ProcessFile(q, ok) =>
      var (db, p) := Turn(Files(d), s.db, s.runners[q], ok);
      State(db, s.runners[q := p])
    case Crash(q) => s.(runners := s.runners - {q})
  }

  ghost predicate IsRun(d: Folder, ss: seq<State>, steps: seq<Step>) {
    && |ss| == |steps| + 1 && ss[0].runners == map[] && ss[0].db.effects == []
    && (d.Folder? ==> DistinctNames(d.files))
    && forall i :: 0 <= i < |steps| ==> Enabled(ss[i], steps[i]) && ss[i + 1] == Next(d, ss[i], steps[i])
  }

  // -------------------------------------------------------------- invariants --

  ghost predicate Extends(a: Records, b: Records) {
    forall name :: name in a ==> name in b && b[name] == a[name]
  }

  /** The recorded names are those of the first k files. */
  ghost predicate RecordsFirst(files: seq<File>, done: Records, k: nat) {
    && k <= |files|
    && (forall i :: 0 <= i < |files| ==> (files[i].name in done <==> i < k))
    && (forall name :: name in done ==> exists i :: 0 <= i < |files| && files[i].name == name)
  }

  /** What a runner knows: its snapshot is still recorded; an applying one left every file behind it recorded as it
      is on disk; what it counts as applied is what its snapshot lacked; a dry one ends, either way, with the
      preview of its snapshot. */
  ghost predicate RunnerOk(d: Folder, db: Db, p: Runner) {
    var files := Files(d);
    && Extends(p.already, Applied(db))
    && (!p.dry && (p.at.Prepared? || p.at.Filing?) ==> db.table.Some?)
    && (!p.at.Filing? && !p.at.Ended? ==> p.done == 0 && p.applied == [])
    && (p.at.Filing? ==>
          && MigrationFiles(d) == Returned(files) && p.done <= |files|
          && Progress(files, p.already, true, {}, p.done, p.applied, db, db)
          && (!p.dry ==> forall i :: 0 <= i < p.done ==> Recorded(db, files[i])))
    && (p.at.Ended? && (p.dry || p.at.r.Returned?) ==> p.at.r == Preview(d, Db(Some(p.already), [])))
    && (p.at.Ended? && p.at.r.Returned? && !p.dry ==>
          MigrationFiles(d) == Returned(files) && forall i :: 0 <= i < |files| ==> Recorded(db, files[i]))
  }

  ghost predicate RunnersOk(d: Folder, s: State) {
    forall q :: q in s.runners ==> RunnerOk(d, s.db, s.runners[q])
  }

  /** The effects since the start: each of a file the starting records lacked and the present ones hold, none twice. */
  ghost predicate EffectsOk(start: Records, db: Db) {
    && Extends(start, Applied(db)) && Distinct(db.effects)
    && forall name :: name in db.effects ==> name !in start && name in Applied(db)
  }

  lemma GrowthKeepsRunner(d: Folder, db: Db, after: Db, p: Runner)
    requires RunnerOk(d, db, p) && Extends(Applied(db), Applied(after)) && (db.table.Some? ==> after.table.Some?)
    ensures RunnerOk(d, after, p)
  {
  }

  /** How a step can change the database: not at all, by creating the table, or by one file that had no record. */
  ghost predicate Commits(files: seq<File>, was: Db, now: Db) {
    || now == was
    || (was.table.None? && now == was.(table := Some(map[])))
    || exists f :: f in files && f.name !in Applied(was) && was.table.Some? && now == WithFile(was, f, false)
  }

  lemma StepCommits(d: Folder, s: State, step: Step)
    requires RunnersOk(d, s) && Enabled(s, step)
    ensures Commits(Files(d), s.db, Next(d, s, step).db)
    ensures Extends(Applied(s.db), Applied(Next(d, s, step).db))
    ensures s.db.table.Some? ==> Next(d, s, step).db.table.Some?
  {
    if step.ProcessFile? && Next(d, s, step).db != s.db {
      var f := Files(d)[s.runners[step.q].done];
      assert f in Files(d) && f.name !in Applied(s.db);
    }
  }

  /** A runner's turn that ends it: after the last file, or at an edited one. */
  lemma LastTurnKeepsRunner(d: Folder, db: Db, p: Runner, ok: bool)
    requires RunnerOk(d, db, p) && p.at.Filing?
    requires p.done == |Files(d)| || Changed(Files(d)[p.done], p.already)
    ensures RunnerOk(d, db, Turn(Files(d), db, p, ok).1)
  {
    Stopped(Files(d), p.already, true, {}, p.done, p.applied, db, db);
  }

  /** Any other turn, whose transaction took the database from `was` to `now`. */
  lemma FileTurnKeepsRunner(d: Folder, was: Db, p: Runner, ok: bool)
    requires RunnerOk(d, was, p) && p.at.Filing? && p.done < |Files(d)| && !Changed(Files(d)[p.done], p.already)
    requires Extends(Applied(was), Applied(Turn(Files(d), was, p, ok).0))
    ensures RunnerOk(d, Turn(Files(d), was, p, ok).0, Turn(Files(d), was, p, ok).1)
  {
    var files := Files(d);
    var (db, after) := Turn(files, was, p, ok);
    if files[p.done].name in p.already {
      Skipped(files, p.already, true, {}, p.done, p.applied, db, db);
    } else {
      Took(files, p.already, true, {}, p.done, p.applied, db, db, db);
    }
  }

  /** Every step of any runner keeps what every runner knows, whatever the database held at the start. */
  lemma StepKeepsRunners(d: Folder, s: State, step: Step)
    requires RunnersOk(d, s) && Enabled(s, step)
    ensures RunnersOk(d, Next(d, s, step))
  {
    var t := Next(d, s, step);
    StepCommits(d, s, step);
    if step.ProcessFile? {
      var p := s.runners[step.q];
      if p.done == |Files(d)| || Changed(Files(d)[p.done], p.already) {
        LastTurnKeepsRunner(d, s.db, p, step.sqlSucceeds);
      } else {
        FileTurnKeepsRunner(d, s.db, p, step.sqlSucceeds);
      }
    }
    forall q | q in t.runners ensures RunnerOk(d, t.db, t.runners[q]) {
      if q in s.runners && q != step.q {
        GrowthKeepsRunner(d, s.db, t.db, s.runners[q]);
      } else if step.ListFiles? && MigrationFiles(d).Returned? {
        assert Files(d)[..0] == [] && Names([]) == [];
      }
    }
  }

  lemma CommitKeepsEffects(files: seq<File>, start: Records, was: Db, now: Db)
    requires EffectsOk(start, was) && Commits(files, was, now)
    ensures EffectsOk(start, now)
  {
    if now.effects != was.effects {
      var f :| f in files && f.name !in Applied(was) && was.table.Some? && now == WithFile(was, f, false);
      assert f.name !in was.effects && f.name !in start;
    }
  }

  /** However runs overlap, fail or crash, from any database: runners know what they know and effects are in order. */
  lemma {:induction false} RunsHold(d: Folder, ss: seq<State>, steps: seq<Step>, i: nat)
    requires IsRun(d, ss, steps) && i < |ss|
    ensures RunnersOk(d, ss[i]) && EffectsOk(Applied(ss[0].db), ss[i].db)
  {
    if i > 0 {
      RunsHold(d, ss, steps, i - 1);
      StepKeepsRunners(d, ss[i - 1], steps[i - 1]);
      StepCommits(d, ss[i - 1], steps[i - 1]);
      CommitKeepsEffects(Files(d), Applied(ss[0].db), ss[i - 1].db, ss[i].db);
    }
  }

  /** No migration's effect is committed twice, and none that was recorded before the run is committed again. */
  lemma EffectsAreCommittedOnce(d: Folder, ss: seq<State>, steps: seq<Step>, i: nat)
    requires IsRun(d, ss, steps) && i < |ss|
    ensures Distinct(ss[i].db.effects)
    ensures forall name :: name in ss[i].db.effects ==> name !in Applied(ss[0].db) && name in Applied(ss[i].db)
  {
    RunsHold(d, ss, steps, i);
  }

  lemma StepKeepsRecords(d: Folder, ss: seq<State>, steps: seq<Step>, i: nat)
    requires IsRun(d, ss, steps) && i < |steps|
    ensures Extends(Applied(ss[i].db), Applied(ss[i + 1].db))
  {
    RunsHold(d, ss, steps, i);
    StepCommits(d, ss[i], steps[i]);
  }

  /** A record, once committed, is never changed or lost. */
  lemma {:induction false} RecordsArePermanent(d: Folder, ss: seq<State>, steps: seq<Step>, i: nat, j: nat)
    requires IsRun(d, ss, steps) && i <= j < |ss|
    ensures Extends(Applied(ss[i].db), Applied(ss[j].db))
  {
    if i < j {
      RecordsArePermanent(d, ss, steps, i, j - 1);
      StepKeepsRecords(d, ss, steps, j - 1);
    }
  }

  /** A dry run changes nothing at any of its steps, and however it ends, it returns or raises the preview of its
      snapshot. */
  lemma DryRunsOnlyRead(d: Folder, ss: seq<State>, steps: seq<Step>, i: nat)
    requires IsRun(d, ss, steps) && i < |steps|
    requires steps[i].q in ss[i].runners && ss[i].runners[steps[i].q].dry
    ensures ss[i + 1].db == ss[i].db
    ensures steps[i].q in ss[i + 1].runners ==>
              var p := ss[i + 1].runners[steps[i].q];
              p.at.Ended? ==> p.at.r == Preview(d, Db(Some(p.already), []))
  {
    RunsHold(d, ss, steps, i + 1);
    var q := steps[i].q;
    if q in ss[i + 1].runners { assert RunnerOk(d, ss[i + 1].db, ss[i + 1].runners[q]); }
  }

  /** Once an apply has returned, the dry run and the readiness check stay empty whatever other runs do. */
  lemma SuccessLeavesNothingPending(d: Folder, ss: seq<State>, steps: seq<Step>, i: nat, j: nat, q: RunnerId)
    requires IsRun(d, ss, steps) && i <= j < |ss|
    requires q in ss[i].runners && !ss[i].runners[q].dry
    requires ss[i].runners[q].at.Ended? && ss[i].runners[q].at.r.Returned?
    ensures Preview(d, ss[j].db) == Returned([]) && PendingMigrations(d, ss[j].db) == Returned([])
  {
    RunsHold(d, ss, steps, i);
    RecordsArePermanent(d, ss, steps, i, j);
    assert RunnerOk(d, ss[i].db, ss[i].runners[q]);
    forall n | 0 <= n < |Files(d)| ensures Recorded(ss[j].db, Files(d)[n]) {
      assert Recorded(ss[i].db, Files(d)[n]);
    }
    AllRecordedMeansNothingPending(d, ss[j].db);
  }

  // ------------------------------------------------------- edits, as texts --

  /** The records are of the texts applied: those the run began with, and the folder's own for what it recorded. */
  ghost predicate RunTexts(d: Folder, db: Db, texts: map<string, string>) {
    Remembers(db, TextsAfter(texts, d, db)) && texts.Keys <= Applied(db).Keys
  }

  lemma StartsWithTexts(d: Folder, db: Db, texts: map<string, string>)
    requires Remembers(db, texts)
    ensures RunTexts(d, db, texts)
  {
    assert TextsAfter(texts, d, db) == texts;
  }

  lemma FileKeepsTexts(d: Folder, was: Db, f: File, texts: map<string, string>)
    requires d.Folder? && DistinctNames(d.files) && RunTexts(d, was, texts)
    requires f in d.files && f.name !in Applied(was)
    ensures RunTexts(d, WithFile(was, f, false), texts)
  {
    var now := WithFile(was, f, false);
    var before, after := TextsAfter(texts, d, was), TextsAfter(texts, d, now);
    TextOfFile(d, f);
    assert Applied(now) == Applied(was)[f.name := ChecksumOf(f)];
    forall n | n in after ensures Applied(now)[n] == Sha256(after[n]) {
      if n != f.name { assert n in before && after[n] == before[n]; }
    }
  }

  lemma CommitKeepsTexts(d: Folder, was: Db, now: Db, texts: map<string, string>)
    requires (d.Folder? ==> DistinctNames(d.files)) && RunTexts(d, was, texts) && Commits(Files(d), was, now)
    ensures RunTexts(d, now, texts)
  {
    if now != was && now != was.(table := Some(map[])) {
      var f :| f in Files(d) && f.name !in Applied(was) && was.table.Some? && now == WithFile(was, f, false);
      ListingIsExact(d.files);
      FileKeepsTexts(d, was, f, texts);
    } else {
      assert TextsAfter(texts, d, now) == TextsAfter(texts, d, was);
    }
  }

  /** However runs overlap, fail or crash, every record is of a text: one from before, or the folder's. */
  lemma {:induction false} RunsRememberTexts(d: Folder, ss: seq<State>, steps: seq<Step>, i: nat,
                                             texts: map<string, string>)
    requires IsRun(d, ss, steps) && i < |ss| && Remembers(ss[0].db, texts)
    ensures RunTexts(d, ss[i].db, texts)
  {
    if i == 0 {
      StartsWithTexts(d, ss[0].db, texts);
    } else {
      RunsRememberTexts(d, ss, steps, i - 1, texts);
      RunCommits(d, ss, steps, i - 1);
      CommitKeepsTexts(d, ss[i - 1].db, ss[i].db, texts);
    }
  }

  lemma RunCommits(d: Folder, ss: seq<State>, steps: seq<Step>, i: nat)
    requires IsRun(d, ss, steps) && i < |steps|
    ensures Commits(Files(d), ss[i].db, ss[i + 1].db)
  {
    RunsHold(d, ss, steps, i);
    StepCommits(d, ss[i], steps[i]);
  }

  /** So, at any moment of any such run, a dry run over any folder refuses exactly the first file, in order of name,
      whose text there is not the text that was applied. */
  lemma EditsAreRefusedDuringRuns(d: Folder, ss: seq<State>, steps: seq<Step>, i: nat, texts: map<string, string>,
                                  e: Folder, n: string)
    requires IsRun(d, ss, steps) && i < |ss| && Remembers(ss[0].db, texts) && e.Folder? && DistinctNames(e.files)
    ensures Preview(e, ss[i].db) == Raised(ChangedSince(n)) <==>
            FirstEdited(e, TextsAfter(texts, d, ss[i].db), n)
  {
    RunsRememberTexts(d, ss, steps, i, texts);
    EditsAreRefused(e, ss[i].db, TextsAfter(texts, d, ss[i].db), n);
  }

  /** And once an apply has returned, that is the first file both folders hold with different texts, if every record the
      run began with was of a file of its folder. */
  lemma EditsAreRefusedAfterSuccess(d: Folder, ss: seq<State>, steps: seq<Step>, i: nat, j: nat, q: RunnerId,
                                    texts: map<string, string>, e: Folder, n: string)
    requires IsRun(d, ss, steps) && i <= j < |ss| && Remembers(ss[0].db, texts) && e.Folder? && DistinctNames(e.files)
    requires q in ss[i].runners && !ss[i].runners[q].dry
    requires ss[i].runners[q].at.Ended? && ss[i].runners[q].at.r.Returned?
    requires forall m :: m in texts ==> exists f :: f in Files(d) && f.name == m
    ensures Preview(e, ss[j].db) == Raised(ChangedSince(n)) <==>
            EditedBetween(d, e, n) && forall m :: EditedBetween(d, e, m) ==> LexLe(n, m)
  {
    EditsAreRefusedDuringRuns(d, ss, steps, j, texts, e, n);
    SuccessRecordsAll(d, ss, steps, i, j, q);
    RunsRememberTexts(d, ss, steps, j, texts);
    RecordedNamesKnown(d, ss, steps, j, texts);
    FilesDistinct(d);
    forall m ensures IsEdited(e, TextsAfter(texts, d, ss[j].db), m) <==> EditedBetween(d, e, m) {
      RecordedTexts(d, ss[j].db, texts, m);
      SameEdits(d, e, TextsAfter(texts, d, ss[j].db), m);
    }
  }

  lemma SuccessRecordsAll(d: Folder, ss: seq<State>, steps: seq<Step>, i: nat, j: nat, q: RunnerId)
    requires IsRun(d, ss, steps) && i <= j < |ss| && q in ss[i].runners && !ss[i].runners[q].dry
    requires ss[i].runners[q].at.Ended? && ss[i].runners[q].at.r.Returned?
    ensures d.Folder? && forall k :: 0 <= k < |Files(d)| ==> Recorded(ss[j].db, Files(d)[k])
  {
    RunsHold(d, ss, steps, i);
    RecordsArePermanent(d, ss, steps, i, j);
    assert RunnerOk(d, ss[i].db, ss[i].runners[q]);
    forall k | 0 <= k < |Files(d)| ensures Recorded(ss[j].db, Files(d)[k]) {
      assert Recorded(ss[i].db, Files(d)[k]);
    }
  }

  lemma {:induction false} RecordedNamesKnown(d: Folder, ss: seq<State>, steps: seq<Step>, i: nat,
                                              texts: map<string, string>)
    requires IsRun(d, ss, steps) && i < |ss| && Remembers(ss[0].db, texts)
    ensures forall m :: m in Applied(ss[i].db) ==> m in texts || exists f :: f in Files(d) && f.name == m
  {
    if i > 0 {
      RecordedNamesKnown(d, ss, steps, i - 1, texts);
      RunCommits(d, ss, steps, i - 1);
    }
  }

  lemma RecordedTexts(d: Folder, db: Db, texts: map<string, string>, m: string)
    requires d.Folder? && DistinctNames(d.files) && RunTexts(d, db, texts)
    requires forall k :: 0 <= k < |Files(d)| ==> Recorded(db, Files(d)[k])
    requires forall k :: k in Applied(db) ==> k in texts || exists f :: f in Files(d) && f.name == k
    requires forall k :: k in texts ==> exists f :: f in Files(d) && f.name == k
    ensures m in Applied(db) <==> IsSql(m) && exists f :: f in d.files && f.name == m
    ensures m in Applied(db) ==> TextsAfter(texts, d, db)[m] == TextIn(d, m)
  {
    ListingIsExact(d.files);
    if f :| f in d.files && f.name == m && IsSql(m) {
      assert f in Files(d);
      var k :| 0 <= k < |Files(d)| && Files(d)[k] == f;
      assert Recorded(db, Files(d)[k]);
      TextOfFile(d, f);
    }
  }

  // ------------------------------------------------------------ prefixes --

  /** The recorded names are those of the first k files, and the effects since the start those of files k0 to k. */
  ghost predicate PrefixInv(files: seq<File>, db: Db, k0: nat, k: nat) {
    k0 <= k && RecordsFirst(files, Applied(db), k) && db.effects == Names(files[k0..k])
  }

  lemma PrefixGrows(files: seq<File>, done: Records, k: nat, c: Checksum)
    requires DistinctNames(files) && RecordsFirst(files, done, k) && k < |files|
    ensures RecordsFirst(files, done[files[k].name := c], k + 1)
  {
    var after := done[files[k].name := c];
    forall name | name in after ensures exists i :: 0 <= i < |files| && files[i].name == name {
      if name == files[k].name { assert files[k].name == name; }
    }
  }

  /** The file an applying runner commits is the first unrecorded one. */
  lemma CommitExtendsPrefix(files: seq<File>, db: Db, i: nat, k0: nat, k: nat)
    requires DistinctNames(files) && RecordsFirst(files, Applied(db), k) && k0 <= k && db.effects == Names(files[k0..k])
    requires i < |files| && files[i].name !in Applied(db) && forall j :: 0 <= j < i ==> Recorded(db, files[j])
    ensures i == k
    ensures var after := WithFile(db, files[i], false);
            && RecordsFirst(files, Applied(after), k + 1) && Extends(Applied(db), Applied(after))
            && after.effects == Names(files[k0..k + 1])
  {
    PrefixGrows(files, Applied(db), k, ChecksumOf(files[k]));
    assert files[k0..k + 1] == files[k0..k] + [files[k]];
    assert Names(files[k0..k + 1]) == Names(files[k0..k]) + [files[k].name];
  }

  lemma StepKeepsPrefix(d: Folder, s: State, step: Step, k0: nat, k: nat) returns (n: nat)
    requires RunnersOk(d, s) && PrefixInv(Files(d), s.db, k0, k) && Enabled(s, step) && DistinctNames(Files(d))
    ensures k <= n && PrefixInv(Files(d), Next(d, s, step).db, k0, n)
  {
    n := k;
    if step.ProcessFile? && Next(d, s, step).db != s.db {
      assert RunnerOk(d, s.db, s.runners[step.q]);
      CommitExtendsPrefix(Files(d), s.db, s.runners[step.q].done, k0, k);
      n := k + 1;
    }
  }

  lemma StartsAPrefix(files: seq<File>, db: Db, k0: nat)
    requires RecordsFirst(files, Applied(db), k0) && db.effects == []
    ensures PrefixInv(files, db, k0, k0)
  {
    assert files[k0..k0] == [] && Names([]) == [];
  }

  lemma FilesDistinct(d: Folder)
    requires d.Folder? ==> DistinctNames(d.files)
    ensures DistinctNames(Files(d))
  {
    if d.Folder? { ListingIsExact(d.files); }
  }

  /** However runs overlap, fail or crash: the recorded migrations stay a prefix of the directory if they began as
      one, and the effects committed are then exactly those of the files past the starting point, in order. */
  lemma {:induction false} AppliedStaysAPrefix(d: Folder, ss: seq<State>, steps: seq<Step>, k0: nat, i: nat)
    returns (k: nat)
    requires IsRun(d, ss, steps) && i < |ss| && RecordsFirst(Files(d), Applied(ss[0].db), k0)
    ensures PrefixInv(Files(d), ss[i].db, k0, k)
  {
    if i == 0 {
      k := k0;
      StartsAPrefix(Files(d), ss[0].db, k0);
    } else {
      k := AppliedStaysAPrefix(d, ss, steps, k0, i - 1);
      k := RunKeepsPrefix(d, ss, steps, k0, i - 1, k);
    }
  }

  lemma RunKeepsPrefix(d: Folder, ss: seq<State>, steps: seq<Step>, k0: nat, i: nat, k: nat) returns (n: nat)
    requires IsRun(d, ss, steps) && i < |steps| && PrefixInv(Files(d), ss[i].db, k0, k)
    ensures PrefixInv(Files(d), ss[i + 1].db, k0, n)
  {
    FilesDistinct(d);
    RunsHold(d, ss, steps, i);
    n := StepKeepsPrefix(d, ss[i], steps[i], k0, k);
  }

  // ------------------------------------------------------- a run left alone --

  /** The file loop of one runner while nobody else moves; the files in `broken` fail. */
  function PlayFiles(d: Folder, s: State, q: RunnerId, broken: set<string>): State
    requires q in s.runners && s.runners[q].at.Filing?
    decreases |Files(d)| - s.runners[q].done
  {
    var i := s.runners[q].done;
    var n := Next(d, s, ProcessFile(q, i < |Files(d)| ==> Files(d)[i].name !in broken));
    if n.runners[q].at.Filing? then PlayFiles(d, n, q, broken) else n
  }

  /** One whole run while nobody else moves: started, snapshot taken, bootstrapped, listed, and its files processed. */
  function PlayRun(d: Folder, s: State, q: RunnerId, dry: bool, broken: set<string>): State
    requires q !in s.runners
  {
    var ready := Next(d, Next(d, Next(d, s, Start(q, dry)), Snapshot(q)), Bootstrap(q));
    var listed := Next(d, ready, ListFiles(q));
    if listed.runners[q].at.Filing? then PlayFiles(d, listed, q, broken) else listed
  }

  lemma {:induction false} FilesPlayed(d: Folder, s: State, q: RunnerId, broken: set<string>, before: Db)
    requires q in s.runners && s.runners[q].at.Filing? && s.runners[q].done <= |Files(d)| && DistinctNames(Files(d))
    requires var p := s.runners[q]; Progress(Files(d), p.already, p.dry, broken, p.done, p.applied, before, s.db)
    ensures var n := PlayFiles(d, s, q, broken); var p := s.runners[q];
            && q in n.runners && n.runners[q].at.Ended? && n.runners - {q} == s.runners - {q}
            && (if p.dry then n.db == before && n.runners[q].at.r == Verdict(Files(d), p.already)
                else Ran(Files(d), p.already, broken, before.effects, n.db, n.runners[q].at.r))
    decreases |Files(d)| - s.runners[q].done
  {
    var files, p := Files(d), s.runners[q];
    var ok := p.done < |files| ==> files[p.done].name !in broken;
    var n := Next(d, s, ProcessFile(q, ok));
    assert n.runners - {q} == s.runners - {q};
    if p.done == |files| || Changed(files[p.done], p.already) {
      Stopped(files, p.already, p.dry, broken, p.done, p.applied, before, s.db);
    } else if files[p.done].name in p.already {
      Skipped(files, p.already, p.dry, broken, p.done, p.applied, before, s.db);
      FilesPlayed(d, n, q, broken, before);
    } else {
      NewFilePlayed(files, s.db, p, broken, before);
      if p.dry || ok { FilesPlayed(d, n, q, broken, before); }
    }
  }

  /** One unrecorded file: taken, or the end of an applying run whose file fails. */
  lemma NewFilePlayed(files: seq<File>, db: Db, p: Runner, broken: set<string>, before: Db)
    requires p.at.Filing? && p.done < |files| && DistinctNames(files) && files[p.done].name !in p.already
    requires Progress(files, p.already, p.dry, broken, p.done, p.applied, before, db)
    ensures var f := files[p.done]; var (n, r) := Turn(files, db, p, f.name !in broken);
            if p.dry || f.name !in broken then
              && r == p.(done := p.done + 1, applied := p.applied + [f.name])
              && Progress(files, r.already, r.dry, broken, r.done, r.applied, before, n)
            else r.at == Ended(Raised(SqlFailed(f.name))) && Ran(files, p.already, broken, before.effects, n, r.at.r)
  {
    var f := files[p.done];
    if p.dry || f.name !in broken {
      if !p.dry { NotYetRecorded(files, p.already, p.done); }
      Took(files, p.already, p.dry, broken, p.done, p.applied, before, db, WithFile(db, f, p.dry));
    } else {
      Broke(files, p.already, broken, p.done, p.applied, before, db);
    }
  }

  lemma NotYetRecorded(files: seq<File>, done: Records, i: nat)
    requires i < |files| && DistinctNames(files) && files[i].name !in done
    ensures files[i].name !in WithRecords(done, Unrecorded(files[..i], done))
  {
    UnrecordedAre(files[..i], done);
    RecordsOf(done, Unrecorded(files[..i], done), files[i].name);
    forall j | 0 <= j < |Unrecorded(files[..i], done)| ensures Unrecorded(files[..i], done)[j].name != files[i].name {
      assert Unrecorded(files[..i], done)[j] in files[..i];
    }
  }

  /** Left alone, a run of the interleaved system, dry or applying and whatever SQL fails, answers and leaves
      exactly what the call does, and no other runner is touched. */
  lemma AloneIsMigrate(d: Folder, s: State, q: RunnerId, dry: bool, broken: set<string>)
    requires q !in s.runners && (d.Folder? ==> DistinctNames(d.files))
    ensures var n := PlayRun(d, s, q, dry, broken);
            && q in n.runners && n.runners[q].at.Ended? && n.runners - {q} == s.runners
            && Migrated(d, dry, broken, s.db, n.db, n.runners[q].at.r)
  {
    FilesDistinct(d);
    var ready := Next(d, Next(d, Next(d, s, Start(q, dry)), Snapshot(q)), Bootstrap(q));
    var listed := Next(d, ready, ListFiles(q));
    assert listed.runners - {q} == s.runners;
    if listed.runners[q].at.Filing? {
      assert Files(d)[..0] == [] && Names([]) == [];
      FilesPlayed(d, listed, q, broken, s.db);
    }
  }
}
