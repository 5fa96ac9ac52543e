/**
 Scoring-profile versions of every organization under concurrent creation: one
 transaction takes the advisory lock, reads the highest version, retires the
 active row and inserts the next version. The retired row stays locked from the
 UPDATE to the commit, so the update and the insert become visible together.
 Models create_profile, get_active_profile and resolve_scoring_config of
 src/arie/icp_profiles.py with migrations/0019_organization_icp_profiles.sql.
 */
module Profiles {
  import opened Scoring
  import opened IcpConfig

  type Org = nat
  type TxId = nat

  datatype Row = Row(org: Org, version: nat, config: Config, active: bool)

  datatype Point = Waiting | Locked | Numbered(next: nat) | Retired(next: nat, retiring: set<nat>)

  datatype Creation = Creation(org: Org, config: Config, at: Point)

  /** Rows in the order they were committed. */
  datatype State = State(rows: seq<Row>, locks: map<int, TxId>, txs: map<TxId, Creation>)

  datatype Step =
    | Begin(tx: TxId, o: Org, config: Config)
    | TakeLock(tx: TxId)
    | ReadMax(tx: TxId)
    | RetireActive(tx: TxId)
    | InsertAndCommit(tx: TxId)
    | Abort(tx: TxId)

  // ---------------------------------------------------------------- queries --

  /** SELECT COALESCE(MAX(version), 0) for one organization. */
  function MaxVersion(rows: seq<Row>, o: Org): nat {
    if rows == [] then 0
    else
      var r := rows[|rows| - 1];
      var m := MaxVersion(rows[..|rows| - 1], o);
      if r.org == o && r.version > m then r.version else m
  }

  function ActiveRows(rows: seq<Row>, o: Org): set<nat> {
    set i | 0 <= i < |rows| && rows[i].org == o && rows[i].active
  }

  /** The table once the given rows are retired and one row is added. */
  function Replaced(rows: seq<Row>, retiring: set<nat>, added: Row): seq<Row> {
    seq(|rows|, i requires 0 <= i < |rows| => if i in retiring then rows[i].(active := false) else rows[i]) + [added]
  }

  /** The two unique indexes: (organization, version), and one active row per organization. */
  predicate IndexesAllow(rows: seq<Row>) {
    forall i, j :: 0 <= i < j < |rows| && rows[i].org == rows[j].org ==>
      rows[i].version != rows[j].version && !(rows[i].active && rows[j].active)
  }

  /** get_active_profile: the active row of the organization, if any. */
  function ActiveProfile(rows: seq<Row>, o: Org): Option<Row> {
    if rows == [] then None
    else if rows[|rows| - 1].org == o && rows[|rows| - 1].active then Some(rows[|rows| - 1])
    else ActiveProfile(rows[..|rows| - 1], o)
  }

  // ------------------------------------------------------------------ steps --

  function Finish(s: State, tx: TxId): State {
    s.(txs := s.txs - {tx}, locks := map k | k in s.locks && s.locks[k] != tx :: s.locks[k])
  }

  predicate At(s: State, tx: TxId) { tx in s.txs }

  /** When a step can run; `key` maps an organization to its advisory lock key, not necessarily injectively.
      A creation begins only after its configuration was validated. */
  ghost predicate Enabled(key: Org -> int, s: State, step: Step) {
    match step
    case Begin(tx, _, c) => tx !in s.txs && ValidConfig(c)
    case TakeLock(tx) => At(s, tx) && s.txs[tx].at == Waiting && key(s.txs[tx].org) !in s.locks
    case ReadMax(tx) => At(s, tx) && s.txs[tx].at == Locked
    case RetireActive(tx) => At(s, tx) && s.txs[tx].at.Numbered?
    case InsertAndCommit(tx) => At(s, tx) && s.txs[tx].at.Retired?
    case Abort(tx) => At(s, tx)
  }

  function Inserted(s: State, tx: TxId): seq<Row>
    requires At(s, tx) && s.txs[tx].at.Retired?
  {
    var p := s.txs[tx];
    Replaced(s.rows, p.at.retiring, Row(p.org, p.at.next, p.config, true))
  }

  ghost function Next(key: Org -> int, s: State, step: Step): State
    requires Enabled(key, s, step)
  {
    match step
    case Begin(tx, o, c) => s.(txs := s.txs[tx := Creation(o, c, Waiting)])
    case TakeLock(tx) => s.(locks := s.locks[key(s.txs[tx].org) := tx], txs := s.txs[tx := s.txs[tx].(at := Locked)])
    case ReadMax(tx) => s.(txs := s.txs[tx := s.txs[tx].(at := Numbered(MaxVersion(s.rows, s.txs[tx].org) + 1))])
    case RetireActive(tx) =>
      s.(txs := s.txs[tx := s.txs[tx].(at := Retired(s.txs[tx].at.next, ActiveRows(s.rows, s.txs[tx].org)))])
    case InsertAndCommit(tx) =>
      if IndexesAllow(Inserted(s, tx)) then Finish(s.(rows := Inserted(s, tx)), tx) else Finish(s, tx)
    case Abort(tx) => Finish(s, tx)
  }

  /** What the migration leaves: at most one profile per organization, version 1 and active. */
  ghost predicate Bootstrapped(rows: seq<Row>) {
    && (forall i :: 0 <= i < |rows| ==> rows[i].version == 1 && rows[i].active && ValidConfig(rows[i].config))
    && (forall i, j :: 0 <= i < j < |rows| ==> rows[i].org != rows[j].org)
  }

  ghost predicate IsRun(key: Org -> int, ss: seq<State>, steps: seq<Step>) {
    && |ss| == |steps| + 1
    && Bootstrapped(ss[0].rows) && ss[0].locks == map[] && ss[0].txs == map[]
    && forall i :: 0 <= i < |steps| ==> Enabled(key, ss[i], steps[i]) && ss[i + 1] == Next(key, ss[i], steps[i])
  }

  // ------------------------------------------------------- versions in order --

  /** How many versions the organization has. */
  function Count(rows: seq<Row>, o: Org): nat {
    if rows == [] then 0
    else Count(rows[..|rows| - 1], o) + if rows[|rows| - 1].org == o then 1 else 0
  }

  /** Every row carries the next number after the earlier rows of its organization. */
  ghost predicate InOrder(rows: seq<Row>) {
    forall i :: 0 <= i < |rows| ==> rows[i].version == Count(rows[..i], rows[i].org) + 1
  }

  /** ... and exactly the newest row of each organization is active. */
  ghost predicate Versioned(rows: seq<Row>) {
    && InOrder(rows)
    && forall i :: 0 <= i < |rows| ==> (rows[i].active <==> rows[i].version == Count(rows, rows[i].org))
  }

  lemma {:induction false} CountUpTo(rows: seq<Row>, o: Org, i: nat)
    requires i < |rows|
    ensures Count(rows[..i], o) + (if rows[i].org == o then 1 else 0) == Count(rows[..i + 1], o) <= Count(rows, o)
  {
    assert rows[..i + 1][..i] == rows[..i];
    if i + 1 == |rows| {
      assert rows[..i + 1] == rows;
    } else {
      CountUpTo(rows[..|rows| - 1], o, i);
      assert rows[..|rows| - 1][..i] == rows[..i] && rows[..|rows| - 1][..i + 1] == rows[..i + 1];
    }
  }

  lemma {:induction false} MaxIsCount(rows: seq<Row>, o: Org)
    requires InOrder(rows)
    ensures MaxVersion(rows, o) == Count(rows, o)
  {
    if rows != [] {
      var front := rows[..|rows| - 1];
      forall i | 0 <= i < |front| ensures front[i].version == Count(front[..i], front[i].org) + 1 {
        assert front[..i] == rows[..i];
      }
      MaxIsCount(front, o);
    }
  }

  /** Two rows of one organization have different versions, the later one the higher. */
  lemma LaterIsHigher(rows: seq<Row>, i: nat, j: nat)
    requires InOrder(rows) && i < j < |rows| && rows[i].org == rows[j].org
    ensures rows[i].version < rows[j].version <= Count(rows, rows[i].org)
  {
    CountUpTo(rows[..j], rows[i].org, i);
    assert rows[..j][..i] == rows[..i] && rows[..j][..i + 1] == rows[..i + 1];
    CountUpTo(rows, rows[j].org, j);
  }

  lemma {:induction false} FindVersion(rows: seq<Row>, o: Org, v: nat) returns (i: nat)
    requires InOrder(rows) && 1 <= v <= Count(rows, o)
    ensures i < |rows| && rows[i].org == o && rows[i].version == v
  {
    var front := rows[..|rows| - 1];
    if rows[|rows| - 1].org == o && v == Count(rows, o) {
      i := |rows| - 1;
    } else {
      forall j | 0 <= j < |front| ensures front[j].version == Count(front[..j], front[j].org) + 1 {
        assert front[..j] == rows[..j];
      }
      i := FindVersion(front, o, v);
    }
  }

  predicate HasVersion(rows: seq<Row>, o: Org, v: nat) {
    exists i :: 0 <= i < |rows| && rows[i].org == o && rows[i].version == v
  }

  lemma IndexesHold(rows: seq<Row>)
    requires Versioned(rows)
    ensures IndexesAllow(rows)
  {
    forall i, j | 0 <= i < j < |rows| && rows[i].org == rows[j].org
      ensures rows[i].version < rows[j].version && !rows[i].active {
      LaterIsHigher(rows, i, j);
    }
  }

  lemma OneActive(rows: seq<Row>, o: Org) returns (i: nat)
    requires Versioned(rows) && Count(rows, o) > 0
    ensures i < |rows| && ActiveRows(rows, o) == {i} && rows[i].version == Count(rows, o)
  {
    i := FindVersion(rows, o, Count(rows, o));
    forall j | j in ActiveRows(rows, o) ensures j == i {
      if j < i { LaterIsHigher(rows, j, i); }
      if i < j { LaterIsHigher(rows, i, j); }
    }
  }

  /** In a versioned table an organization's versions are exactly 1..n, each once, and exactly one row
      is active: version n. Both unique indexes hold. */
  lemma VersionsAreGapless(rows: seq<Row>, o: Org)
    requires Versioned(rows)
    ensures IndexesAllow(rows)
    ensures forall v: nat :: HasVersion(rows, o, v) <==> 1 <= v <= Count(rows, o)
    ensures |ActiveRows(rows, o)| == if Count(rows, o) == 0 then 0 else 1
    ensures forall i :: i in ActiveRows(rows, o) ==> rows[i].version == Count(rows, o)
  {
    IndexesHold(rows);
    forall v: nat ensures HasVersion(rows, o, v) <==> 1 <= v <= Count(rows, o) {
      if HasVersion(rows, o, v) {
        var i :| 0 <= i < |rows| && rows[i].org == o && rows[i].version == v;
        CountUpTo(rows, o, i);
      }
      if 1 <= v <= Count(rows, o) { var i := FindVersion(rows, o, v); }
    }
    if Count(rows, o) > 0 {
      var i := OneActive(rows, o);
    } else if i :| i in ActiveRows(rows, o) {
      CountUpTo(rows, o, i);
    }
  }

  lemma {:induction false} SameCount(rows: seq<Row>, others: seq<Row>, o: Org)
    requires |rows| == |others| && forall i :: 0 <= i < |rows| ==> rows[i].org == others[i].org
    ensures Count(rows, o) == Count(others, o)
  {
    if rows != [] { SameCount(rows[..|rows| - 1], others[..|rows| - 1], o); }
  }

  lemma CountAfter(rows: seq<Row>, retiring: set<nat>, added: Row, p: Org)
    ensures var n := Replaced(rows, retiring, added);
            Count(n, p) == Count(rows, p) + (if p == added.org then 1 else 0)
  {
    var n := Replaced(rows, retiring, added);
    SameCount(n[..|rows|], rows, p);
  }

  lemma OrderAfter(rows: seq<Row>, retiring: set<nat>, added: Row)
    requires InOrder(rows) && added.version == Count(rows, added.org) + 1
    ensures InOrder(Replaced(rows, retiring, added))
  {
    var n := Replaced(rows, retiring, added);
    forall i | 0 <= i < |n| ensures n[i].version == Count(n[..i], n[i].org) + 1 {
      SameCount(n[..i], rows[..i], n[i].org);
      assert rows[..|rows|] == rows;
    }
  }

  /** Retiring the active row and adding the next version keeps the table versioned. */
  lemma ReplacingKeepsVersions(rows: seq<Row>, o: Org, added: Row)
    requires Versioned(rows) && added.org == o && added.version == Count(rows, o) + 1 && added.active
    ensures Versioned(Replaced(rows, ActiveRows(rows, o), added))
  {
    var n := Replaced(rows, ActiveRows(rows, o), added);
    OrderAfter(rows, ActiveRows(rows, o), added);
    forall i | 0 <= i < |n| ensures n[i].active <==> n[i].version == Count(n, n[i].org) {
      CountAfter(rows, ActiveRows(rows, o), added, n[i].org);
      if i < |rows| { CountUpTo(rows, rows[i].org, i); }
    }
  }

  // ------------------------------------------------------------- invariants --

  predicate PastLock(s: State, tx: TxId) {
    tx in s.txs && s.txs[tx].at != Waiting
  }

  /** What a creation in flight read is still true. */
  ghost predicate ReadsHold(s: State, tx: TxId) {
    tx in s.txs ==>
      var p := s.txs[tx];
      && ValidConfig(p.config)
      && (p.at.Numbered? || p.at.Retired? ==> p.at.next == Count(s.rows, p.org) + 1)
      && (p.at.Retired? ==> p.at.retiring == ActiveRows(s.rows, p.org))
  }

  ghost predicate ProfileInv(key: Org -> int, s: State) {
    && Versioned(s.rows)
    && (forall i :: 0 <= i < |s.rows| ==> ValidConfig(s.rows[i].config))
    && (forall tx :: PastLock(s, tx) ==> key(s.txs[tx].org) in s.locks && s.locks[key(s.txs[tx].org)] == tx)
    && (forall tx :: ReadsHold(s, tx))
  }

  lemma StartHolds(key: Org -> int, s: State)
    requires Bootstrapped(s.rows) && s.locks == map[] && s.txs == map[]
    ensures ProfileInv(key, s)
  {
    forall i | 0 <= i < |s.rows| ensures Count(s.rows[..i], s.rows[i].org) == 0 {
      NoneBefore(s.rows[..i], s.rows[i].org);
    }
    forall i | 0 <= i < |s.rows| ensures Count(s.rows, s.rows[i].org) == 1 {
      OnlyOne(s.rows, i);
    }
  }

  lemma {:induction false} NoneBefore(rows: seq<Row>, o: Org)
    requires forall i :: 0 <= i < |rows| ==> rows[i].org != o
    ensures Count(rows, o) == 0
  {
    if rows != [] { NoneBefore(rows[..|rows| - 1], o); }
  }

  lemma {:induction false} OnlyOne(rows: seq<Row>, i: nat)
    requires i < |rows| && forall j :: 0 <= j < |rows| && j != i ==> rows[j].org != rows[i].org
    ensures Count(rows, rows[i].org) == 1
  {
    if i == |rows| - 1 { NoneBefore(rows[..i], rows[i].org); } else { OnlyOne(rows[..|rows| - 1], i); }
  }

  /** The commit: under the lock nobody else of the organization has read anything, so the number is
      still free, the retired row still the active one, and no unique index is violated. */
  lemma CommitFits(key: Org -> int, s: State, tx: TxId)
    requires ProfileInv(key, s) && Enabled(key, s, InsertAndCommit(tx))
    ensures Versioned(Inserted(s, tx)) && IndexesAllow(Inserted(s, tx))
    ensures Next(key, s, InsertAndCommit(tx)) == Finish(s.(rows := Inserted(s, tx)), tx)
  {
    var p := s.txs[tx];
    assert ReadsHold(s, tx);
    ReplacingKeepsVersions(s.rows, p.org, Row(p.org, p.at.next, p.config, true));
    IndexesHold(Inserted(s, tx));
  }

  lemma OthersStillHold(key: Org -> int, s: State, tx: TxId, t: TxId)
    requires ProfileInv(key, s) && Enabled(key, s, InsertAndCommit(tx)) && t != tx
    ensures ReadsHold(s.(rows := Inserted(s, tx)), t)
  {
    assert ReadsHold(s, t) && ReadsHold(s, tx);
    if t in s.txs && s.txs[t].at != Waiting {
      assert PastLock(s, t) && PastLock(s, tx);
      var p := s.txs[tx];
      var added := Row(p.org, p.at.next, p.config, true);
      CountAfter(s.rows, p.at.retiring, added, s.txs[t].org);
      OthersUntouched(s.rows, p.org, added, s.txs[t].org);
    }
  }

  lemma CommitKeeps(key: Org -> int, s: State, tx: TxId)
    requires ProfileInv(key, s) && Enabled(key, s, InsertAndCommit(tx))
    ensures ProfileInv(key, Next(key, s, InsertAndCommit(tx)))
  {
    CommitFits(key, s, tx);
    var n := Finish(s.(rows := Inserted(s, tx)), tx);
    assert ReadsHold(s, tx);
    forall t ensures ReadsHold(n, t) {
      if t != tx { OthersStillHold(key, s, tx, t); }
    }
    forall t | PastLock(n, t) ensures key(n.txs[t].org) in n.locks && n.locks[key(n.txs[t].org)] == t {
      assert PastLock(s, t);
    }
  }

  lemma OthersUntouched(rows: seq<Row>, o: Org, added: Row, p: Org)
    requires added.org == o && p != o
    ensures ActiveRows(Replaced(rows, ActiveRows(rows, o), added), p) == ActiveRows(rows, p)
  {
    var n := Replaced(rows, ActiveRows(rows, o), added);
    forall i | 0 <= i < |n| ensures i in ActiveRows(n, p) <==> i in ActiveRows(rows, p) {
    }
  }

  /** Steps that leave the table alone. */
  lemma QuietKeeps(key: Org -> int, s: State, step: Step)
    requires ProfileInv(key, s) && Enabled(key, s, step) && !step.InsertAndCommit?
    ensures ProfileInv(key, Next(key, s, step))
  {
    var n := Next(key, s, step);
    if step.ReadMax? { MaxIsCount(s.rows, s.txs[step.tx].org); }
    if !step.Begin? && !step.TakeLock? && s.txs[step.tx].at != Waiting { assert PastLock(s, step.tx); }
    forall t ensures ReadsHold(n, t) {
      assert ReadsHold(s, t) && ReadsHold(s, step.tx);
    }
    forall t | PastLock(n, t) ensures key(n.txs[t].org) in n.locks && n.locks[key(n.txs[t].org)] == t {
      if t != step.tx { assert PastLock(s, t); }
    }
  }

  /** In every interleaving of creations, whatever the lock keys are, the table is versioned. */
  lemma {:induction false} ProfilesStayVersioned(key: Org -> int, ss: seq<State>, steps: seq<Step>, i: nat)
    requires IsRun(key, ss, steps) && i < |ss|
    ensures ProfileInv(key, ss[i])
  {
    if i == 0 {
      StartHolds(key, ss[0]);
    } else {
      ProfilesStayVersioned(key, ss, steps, i - 1);
      if steps[i - 1].InsertAndCommit? {
        CommitKeeps(key, ss[i - 1], steps[i - 1].tx);
      } else {
        QuietKeeps(key, ss[i - 1], steps[i - 1]);
      }
    }
  }

  /** No creation that reaches its insert is refused by a unique index. */
  lemma NoCreationIsRefused(key: Org -> int, ss: seq<State>, steps: seq<Step>, i: nat)
    requires IsRun(key, ss, steps) && i < |steps| && steps[i].InsertAndCommit?
    ensures Enabled(key, ss[i], steps[i])
    ensures ss[i + 1].rows == Inserted(ss[i], steps[i].tx)
  {
    ProfilesStayVersioned(key, ss, steps, i);
    CommitFits(key, ss[i], steps[i].tx);
  }

  /** A stored version keeps its organization, number and configuration forever, and once retired stays retired. */
  lemma {:induction false} HistoryIsPermanent(key: Org -> int, ss: seq<State>, steps: seq<Step>, i: nat, j: nat, k: nat)
    requires IsRun(key, ss, steps) && i <= j < |ss| && k < |ss[i].rows|
    ensures |ss[i].rows| <= |ss[j].rows|
    ensures ss[j].rows[k] == ss[i].rows[k] || ss[j].rows[k] == ss[i].rows[k].(active := false)
  {
    if i < j {
      HistoryIsPermanent(key, ss, steps, i, j - 1, k);
      assert Enabled(key, ss[j - 1], steps[j - 1]);
    }
  }

  // ---------------------------------------------------------------- readers --

  lemma {:induction false} ActiveIsTheActiveRow(rows: seq<Row>, o: Org)
    ensures ActiveProfile(rows, o).None? <==> ActiveRows(rows, o) == {}
    ensures ActiveProfile(rows, o).Some? ==>
              exists i :: i in ActiveRows(rows, o) && rows[i] == ActiveProfile(rows, o).value
  {
    if rows != [] {
      var front := rows[..|rows| - 1];
      ActiveIsTheActiveRow(front, o);
      forall i | i in ActiveRows(front, o) ensures i in ActiveRows(rows, o) {
      }
      if rows[|front|].org == o && rows[|front|].active {
        assert |front| in ActiveRows(rows, o);
      } else {
        assert ActiveRows(rows, o) == ActiveRows(front, o);
      }
    }
  }

  /** In a versioned table the active profile is the newest version. */
  lemma ActiveIsNewest(rows: seq<Row>, o: Org)
    requires Versioned(rows)
    ensures ActiveProfile(rows, o).None? <==> Count(rows, o) == 0
    ensures ActiveProfile(rows, o).Some? ==>
              var r := ActiveProfile(rows, o).value; r in rows && r.org == o && r.version == Count(rows, o)
  {
    ActiveIsTheActiveRow(rows, o);
    VersionsAreGapless(rows, o);
    if ActiveProfile(rows, o).Some? {
      var i :| i in ActiveRows(rows, o) && rows[i] == ActiveProfile(rows, o).value;
      CountUpTo(rows, o, i);
    }
  }

  /** A creation whose reads still hold becomes its organization's active profile, and nobody else's changes. */
  lemma InsertedShows(s: State, tx: TxId, o: Org)
    requires At(s, tx) && s.txs[tx].at.Retired? && ReadsHold(s, tx)
    ensures var p := s.txs[tx];
            ActiveProfile(Inserted(s, tx), o) ==
            if p.org == o then Some(Row(o, Count(s.rows, o) + 1, p.config, true)) else ActiveProfile(s.rows, o)
  {
    var p := s.txs[tx];
    ActiveAfter(s.rows, p.org, Row(p.org, p.at.next, p.config, true), o);
  }

  /** A step leaves what is shown alone, or shows the creation it commits. */
  lemma StepShows(key: Org -> int, s: State, n: State, step: Step, o: Org)
    requires Enabled(key, s, step) && n == Next(key, s, step)
    requires step.InsertAndCommit? ==> ReadsHold(s, step.tx) && n.rows == Inserted(s, step.tx)
    ensures ActiveProfile(n.rows, o) ==
            if step.InsertAndCommit? && s.txs[step.tx].org == o
            then Some(Row(o, Count(s.rows, o) + 1, s.txs[step.tx].config, true))
            else ActiveProfile(s.rows, o)
  {
    if step.InsertAndCommit? {
      InsertedShows(s, step.tx, o);
    } else {
      assert n.rows == s.rows;
    }
  }

  lemma CommitsInsert(key: Org -> int, ss: seq<State>, steps: seq<Step>, i: nat)
    requires IsRun(key, ss, steps) && i < |steps|
    ensures steps[i].InsertAndCommit? ==>
              Enabled(key, ss[i], steps[i])
              && ReadsHold(ss[i], steps[i].tx) && ss[i + 1].rows == Inserted(ss[i], steps[i].tx)
  {
    ProfilesStayVersioned(key, ss, steps, i);
    if steps[i].InsertAndCommit? { NoCreationIsRefused(key, ss, steps, i); }
  }

  /** A reader between any two steps sees the old profile whole or the new one whole: a step leaves an organization's
      active profile alone unless it commits a creation of that organization, and then it becomes that creation. */
  lemma ReadersSeeWholeProfiles(key: Org -> int, ss: seq<State>, steps: seq<Step>, i: nat, o: Org)
    requires IsRun(key, ss, steps) && i < |steps|
    ensures ActiveProfile(ss[i + 1].rows, o) ==
            if steps[i].InsertAndCommit? && steps[i].tx in ss[i].txs && ss[i].txs[steps[i].tx].org == o
            then Some(Row(o, Count(ss[i].rows, o) + 1, ss[i].txs[steps[i].tx].config, true))
            else ActiveProfile(ss[i].rows, o)
  {
    CommitsInsert(key, ss, steps, i);
    StepShows(key, ss[i], ss[i + 1], steps[i], o);
  }

  lemma ActiveAfter(rows: seq<Row>, o: Org, added: Row, p: Org)
    requires added.org == o && added.active
    ensures ActiveProfile(Replaced(rows, ActiveRows(rows, o), added), p) ==
            if p == o then Some(added) else ActiveProfile(rows, p)
  {
    var n := Replaced(rows, ActiveRows(rows, o), added);
    if p != o { UntouchedActive(rows, n[..|rows|], p); }
  }

  lemma {:induction false} UntouchedActive(rows: seq<Row>, others: seq<Row>, o: Org)
    requires |rows| == |others|
    requires forall i :: 0 <= i < |rows| ==> if rows[i].org == o then others[i] == rows[i] else others[i].org != o
    ensures ActiveProfile(others, o) == ActiveProfile(rows, o)
  {
    if rows != [] { UntouchedActive(rows[..|rows| - 1], others[..|rows| - 1], o); }
  }

  /** Every profile a scorer resolves in any run scores every lead within the 0-100 scale. */
  lemma ResolvedProfilesScoreInScale(key: Org -> int, ss: seq<State>, steps: seq<Step>, i: nat, o: Org, facts: Facts)
    requires IsRun(key, ss, steps) && i < |ss|
    ensures ActiveProfile(ss[i].rows, o).Some? ==>
              var c := ActiveProfile(ss[i].rows, o).value.config;
              ValidConfig(c) && 0.0 <= Score(Materialize(c), facts) <= WEIGHT_SUM_TARGET + WEIGHT_SUM_TOLERANCE
  {
    ProfilesStayVersioned(key, ss, steps, i);
    ActiveIsNewest(ss[i].rows, o);
    if ActiveProfile(ss[i].rows, o).Some? {
      AcceptedProfileScoresInScale(ActiveProfile(ss[i].rows, o).value.config, facts);
    }
  }

  // ------------------------------------------------------------------ calls --

  class ProfileTable {
    var rows: seq<Row>

    constructor (bootstrapped: seq<Row>)
      requires Versioned(bootstrapped)
      ensures rows == bootstrapped
    {
      rows := bootstrapped;
    }

    /** create_profile as one whole transaction: a rejected configuration changes nothing; an accepted one becomes
        the active next version, and every other row keeps everything but the flag of the version it replaces. */
    method CreateProfile(o: Org, c: Config) returns (created: Option<nat>)
      requires Versioned(rows)
      modifies this
      ensures Versioned(rows)
      ensures created.Some? <==> ValidConfig(c)
      ensures created.None? ==> rows == old(rows)
      ensures created.Some? ==>
                && created.value == Count(old(rows), o) + 1 == Count(rows, o)
                && |rows| == |old(rows)| + 1 && rows[|old(rows)|] == Row(o, created.value, c, true)
                && ActiveProfile(rows, o) == Some(rows[|old(rows)|])
                && forall i :: 0 <= i < |old(rows)| ==>
                     rows[i] == if old(rows)[i].org == o then old(rows)[i].(active := false) else old(rows)[i]
    {
      var errors := ValidateConfig(c);
      if errors != [] { return None; }
      var next := MaxVersion(rows, o) + 1;
      MaxIsCount(rows, o);
      var added := Row(o, next, c, true);
      ReplacingKeepsVersions(rows, o, added);
      CountAfter(rows, ActiveRows(rows, o), added, o);
      ActiveAfter(rows, o, added, o);
      rows := Replaced(rows, ActiveRows(rows, o), added);
      created := Some(next);
    }
  }

  /** One creation run without interruption, all steps in order. */
  ghost function PlayCreation(key: Org -> int, s: State, tx: TxId, o: Org, c: Config): State
    requires tx !in s.txs && key(o) !in s.locks && ValidConfig(c)
  {
    var ready := PlayReads(key, s, tx, o, c);
    Next(key, ready, InsertAndCommit(tx))
  }

  ghost function PlayReads(key: Org -> int, s: State, tx: TxId, o: Org, c: Config): (ready: State)
    requires tx !in s.txs && key(o) !in s.locks && ValidConfig(c)
    ensures Enabled(key, ready, InsertAndCommit(tx))
  {
    var locked := Next(key, Next(key, s, Begin(tx, o, c)), TakeLock(tx));
    Next(key, Next(key, locked, ReadMax(tx)), RetireActive(tx))
  }

  /** The next version, and the table with it. */
  function NewRow(rows: seq<Row>, o: Org, c: Config): Row { Row(o, Count(rows, o) + 1, c, true) }

  function WithNext(rows: seq<Row>, o: Org, c: Config): seq<Row> {
    Replaced(rows, ActiveRows(rows, o), NewRow(rows, o, c))
  }

  /** The moment before the insert, `k` being the lock key. */
  function ReadyState(s: State, k: int, tx: TxId, o: Org, c: Config): State {
    s.(locks := s.locks[k := tx],
       txs := s.txs[tx := Creation(o, c, Retired(Count(s.rows, o) + 1, ActiveRows(s.rows, o)))])
  }

  lemma ReadsArrive(key: Org -> int, s: State, tx: TxId, o: Org, c: Config)
    requires InOrder(s.rows) && tx !in s.txs && key(o) !in s.locks && ValidConfig(c)
    ensures PlayReads(key, s, tx, o, c) == ReadyState(s, key(o), tx, o, c)
  {
    MaxIsCount(s.rows, o);
    var ready := PlayReads(key, s, tx, o, c);
    assert ready.txs == s.txs[tx := ready.txs[tx]];
  }

  /** Run without interruption, the transaction of the interleaved system makes the call's change and leaves nothing
      behind. */
  lemma UninterruptedCreationIsTheCall(key: Org -> int, s: State, tx: TxId, o: Org, c: Config)
    requires Versioned(s.rows) && tx !in s.txs && key(o) !in s.locks && ValidConfig(c)
    requires forall k :: k in s.locks ==> s.locks[k] != tx
    ensures PlayCreation(key, s, tx, o, c) == s.(rows := WithNext(s.rows, o, c))
  {
    ReadsArrive(key, s, tx, o, c);
    ReadyCommits(key, s, PlayReads(key, s, tx, o, c), key(o), tx, o, c);
    ReadyEnds(s, key(o), tx, o, c, WithNext(s.rows, o, c));
  }

  lemma ReadyCommits(key: Org -> int, s: State, ready: State, k: int, tx: TxId, o: Org, c: Config)
    requires Versioned(s.rows) && ready == ReadyState(s, k, tx, o, c)
    ensures Enabled(key, ready, InsertAndCommit(tx))
    ensures Next(key, ready, InsertAndCommit(tx)) == Finish(ready.(rows := WithNext(s.rows, o, c)), tx)
  {
    ReplacingKeepsVersions(s.rows, o, NewRow(s.rows, o, c));
    InsertedIsNext(s, k, tx, o, c);
    AllowedCommits(key, ready, tx, WithNext(s.rows, o, c));
  }

  lemma InsertedIsNext(s: State, k: int, tx: TxId, o: Org, c: Config)
    ensures Inserted(ReadyState(s, k, tx, o, c), tx) == WithNext(s.rows, o, c)
  {
  }

  lemma ReadyEnds(s: State, k: int, tx: TxId, o: Org, c: Config, rows: seq<Row>)
    requires tx !in s.txs && k !in s.locks && forall j :: j in s.locks ==> s.locks[j] != tx
    ensures Finish(ReadyState(s, k, tx, o, c).(rows := rows), tx) == s.(rows := rows)
  {
    var n := ReadyState(s, k, tx, o, c).(rows := rows);
    assert n.txs - {tx} == s.txs;
    EndReleases(s, n, tx, k);
  }

  lemma AllowedCommits(key: Org -> int, s: State, tx: TxId, rows: seq<Row>)
    requires Enabled(key, s, InsertAndCommit(tx)) && rows == Inserted(s, tx) && Versioned(rows)
    ensures Next(key, s, InsertAndCommit(tx)) == Finish(s.(rows := rows), tx)
  {
    IndexesHold(rows);
  }

  lemma EndReleases(s: State, n: State, tx: TxId, k: int)
    requires tx !in s.txs && n.txs - {tx} == s.txs && k !in s.locks && n.locks == s.locks[k := tx]
    requires forall j :: j in s.locks ==> s.locks[j] != tx
    ensures Finish(n, tx) == s.(rows := n.rows)
  {
    var f := Finish(n, tx);
    assert f.locks.Keys == s.locks.Keys by {
      forall j: int ensures j in f.locks <==> j in s.locks {
        if j in s.locks { assert n.locks[j] != tx; }
      }
    }
    assert f.locks == s.locks;
  }
}
