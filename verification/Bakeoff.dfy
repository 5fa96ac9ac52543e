/**
 The provider comparison run: every provider against every identity, bounded by
 a spend ceiling and resumed from the results file of the run before.
 Models run_bakeoff, _load_cache and the rewrite of the results file in main of
 scripts/provider_bakeoff.py. What a provider answers is a parameter of the run;
 the cache key is injective here.
 */
module Bakeoff {

  datatype Identity = Identity(email: string, hasDomain: bool)

  datatype Provider = Provider(name: string, company: bool, baseCost: real)

  type Pair = (Identity, Provider)
  type Key = (string, string)

  datatype Status = Success | Miss | Error | Skipped

  datatype Served = LiveCall | CacheFile | SkippedBudget | SkippedNoDomain

  /** `details` stands for everything else a record carries. */
  datatype Record = Record(provider: string, email: string, served: Served, status: Status, cost: real, details: string)

  datatype Answer = Answer(found: Found, cost: real, details: string)
  datatype Found = Matched | NotMatched | Failed

  type Cache = map<Key, Record>

  function KeyOf(p: Pair): Key { (p.1.name, p.0.email) }

  function RecordKey(r: Record): Key { (r.provider, r.email) }

  predicate Settled(r: Record) { r.status == Success || r.status == Miss }

  predicate Callable(p: Pair) { p.1.company ==> p.0.hasDomain }

  // --------------------------------------------------------------- one run --

  function StatusOf(f: Found): Status {
    match f case Matched => Success case NotMatched => Miss case Failed => Error
  }

  function SkipRecord(p: Pair, why: Served): Record {
    Record(p.1.name, p.0.email, why, Skipped, 0.0, "")
  }

  function LiveRecord(p: Pair, a: Answer): Record {
    Record(p.1.name, p.0.email, LiveCall, StatusOf(a.found), a.cost, a.details)
  }

  function Row(id: Identity, providers: seq<Provider>): seq<Pair> {
    if providers == [] then [] else Row(id, providers[..|providers| - 1]) + [(id, providers[|providers| - 1])]
  }

  /** Identities outside, providers inside. */
  function Pairs(ids: seq<Identity>, providers: seq<Provider>): seq<Pair> {
    if ids == [] then [] else Pairs(ids[..|ids| - 1], providers) + Row(ids[|ids| - 1], providers)
  }

  /** The record a pair gets when `spent` has been spent before it. */
  function RecordFor(p: Pair, cached: Cache, ceiling: real, answers: Key -> Answer, spent: real): Record {
    if KeyOf(p) in cached then cached[KeyOf(p)].(served := CacheFile)
    else if !Callable(p) then SkipRecord(p, SkippedNoDomain)
    else if spent + p.1.baseCost > ceiling then SkipRecord(p, SkippedBudget)
    else LiveRecord(p, answers(KeyOf(p)))
  }

  function LiveCost(r: Record): real { if r.served == LiveCall then r.cost else 0.0 }

  function Spent(records: seq<Record>): real {
    if records == [] then 0.0 else Spent(records[..|records| - 1]) + LiveCost(records[|records| - 1])
  }

  function Records(pairs: seq<Pair>, cached: Cache, ceiling: real, answers: Key -> Answer): (rs: seq<Record>)
    ensures |rs| == |pairs|
  {
    if pairs == [] then []
    else
      var before := Records(pairs[..|pairs| - 1], cached, ceiling, answers);
      before + [RecordFor(pairs[|pairs| - 1], cached, ceiling, answers, Spent(before))]
  }

  lemma OneMoreInRow(seen: seq<Pair>, id: Identity, providers: seq<Provider>, j: nat, cached: Cache, ceiling: real,
                     answers: Key -> Answer, records: seq<Record>, spent: real)
    requires j < |providers| && Ran(seen + Row(id, providers[..j]), cached, ceiling, answers, records, spent)
    ensures var r := RecordFor((id, providers[j]), cached, ceiling, answers, spent);
            Ran(seen + Row(id, providers[..j + 1]), cached, ceiling, answers, records + [r], spent + LiveCost(r))
  {
    OneMore(seen + Row(id, providers[..j]), (id, providers[j]), cached, ceiling, answers, records, spent);
    RowGrows(seen, id, providers, j);
  }

  /** What the providers really bill for the calls among these records, whatever the records say. */
  function Billed(pairs: seq<Pair>, records: seq<Record>, answers: Key -> Answer): real
    requires |pairs| == |records|
  {
    if records == [] then 0.0
    else
      var n := |records| - 1;
      Billed(pairs[..n], records[..n], answers)
      + if records[n].served == LiveCall then answers(KeyOf(pairs[n])).cost else 0.0
  }

  /** No call costs more than its provider's listed base cost. */
  ghost predicate CostsWithinBase(pairs: seq<Pair>, answers: Key -> Answer) {
    forall i :: 0 <= i < |pairs| ==> answers(KeyOf(pairs[i])).cost <= pairs[i].1.baseCost
  }

  /** The body of the inner loop: reuse, skip, or call within the ceiling. */
  method Consult(p: Pair, cached: Cache, ceiling: real, answers: Key -> Answer, before: real)
    returns (r: Record, spent: real)
    ensures r == RecordFor(p, cached, ceiling, answers, before) && spent == before + LiveCost(r)
    ensures r.served == LiveCall ==> before + p.1.baseCost <= ceiling && KeyOf(p) !in cached && Callable(p)
  {
    spent := before;
    if KeyOf(p) in cached {
      r := cached[KeyOf(p)].(served := CacheFile);
    } else if p.1.company && !p.0.hasDomain {
      r := SkipRecord(p, SkippedNoDomain);
    } else if spent + p.1.baseCost > ceiling {
      r := SkipRecord(p, SkippedBudget);
    } else {
      var result := answers(KeyOf(p));
      spent := spent + result.cost;
      r := LiveRecord(p, result);
    }
  }

  /** The inner loop: every provider against one identity, after the pairs already `seen`. */
  method RunIdentity(id: Identity, providers: seq<Provider>, cached: Cache, ceiling: real, answers: Key -> Answer,
                     ghost seen: seq<Pair>, before: seq<Record>, spentBefore: real)
    returns (records: seq<Record>, spent: real)
    requires Ran(seen, cached, ceiling, answers, before, spentBefore)
    ensures Ran(seen + Row(id, providers), cached, ceiling, answers, records, spent)
  {
    records, spent := before, spentBefore;
    var j := 0;
    assert seen + Row(id, providers[..0]) == seen;
    while j < |providers|
      invariant 0 <= j <= |providers|
      invariant Ran(seen + Row(id, providers[..j]), cached, ceiling, answers, records, spent)
    {
      OneMoreInRow(seen, id, providers, j, cached, ceiling, answers, records, spent);
      var r;
      r, spent := Consult((id, providers[j]), cached, ceiling, answers, spent);
      records := records + [r];
      j := j + 1;
    }
    assert providers[..j] == providers;
  }

  /** run_bakeoff. */
  method RunBakeoff(ids: seq<Identity>, providers: seq<Provider>, cached: Cache, ceiling: real, answers: Key -> Answer)
    returns (records: seq<Record>, spent: real)
    ensures records == Records(Pairs(ids, providers), cached, ceiling, answers)
    ensures |records| == |Pairs(ids, providers)| && spent == Billed(Pairs(ids, providers), records, answers)
    ensures 0.0 <= ceiling && CostsWithinBase(Pairs(ids, providers), answers) ==> spent <= ceiling
  {
    records, spent := [], 0.0;
    var i := 0;
    while i < |ids|
      invariant 0 <= i <= |ids|
      invariant Ran(Pairs(ids[..i], providers), cached, ceiling, answers, records, spent)
    {
      records, spent :=
        RunIdentity(ids[i], providers, cached, ceiling, answers, Pairs(ids[..i], providers), records, spent);
      RowsAddUp(ids, providers, i);
      i := i + 1;
    }
    assert ids[..i] == ids;
    SpentIsBilled(Pairs(ids, providers), cached, ceiling, answers);
    if 0.0 <= ceiling && CostsWithinBase(Pairs(ids, providers), answers) {
      SpendStaysUnderCeiling(Pairs(ids, providers), cached, ceiling, answers);
    }
  }

  /** The loop's state after some pairs. */
  predicate Ran(seen: seq<Pair>, cached: Cache, ceiling: real, answers: Key -> Answer, records: seq<Record>,
                spent: real) {
    records == Records(seen, cached, ceiling, answers) && spent == Spent(records)
  }

  lemma RowGrows(earlier: seq<Pair>, id: Identity, providers: seq<Provider>, j: nat)
    requires j < |providers|
    ensures earlier + Row(id, providers[..j]) + [(id, providers[j])] == earlier + Row(id, providers[..j + 1])
  {
    assert providers[..j + 1][..j] == providers[..j];
  }

  lemma RowsAddUp(ids: seq<Identity>, providers: seq<Provider>, i: nat)
    requires i < |ids|
    ensures Pairs(ids[..i], providers) + Row(ids[i], providers) == Pairs(ids[..i + 1], providers)
  {
    assert ids[..i + 1][..i] == ids[..i];
  }

  lemma OneMore(seen: seq<Pair>, p: Pair, cached: Cache, ceiling: real, answers: Key -> Answer,
                records: seq<Record>, spent: real)
    requires Ran(seen, cached, ceiling, answers, records, spent)
    ensures var r := RecordFor(p, cached, ceiling, answers, spent);
            Ran(seen + [p], cached, ceiling, answers, records + [r], spent + LiveCost(r))
  {
    var r := RecordFor(p, cached, ceiling, answers, spent);
    assert (seen + [p])[..|seen|] == seen && (records + [r])[..|records|] == records;
  }

  /** The spend the run keeps count of is what the providers bill. */
  lemma {:induction false} SpentIsBilled(pairs: seq<Pair>, cached: Cache, ceiling: real, answers: Key -> Answer)
    ensures var rs := Records(pairs, cached, ceiling, answers); Spent(rs) == Billed(pairs, rs, answers)
  {
    if pairs != [] {
      var n := |pairs| - 1;
      SpentIsBilled(pairs[..n], cached, ceiling, answers);
      var rs := Records(pairs, cached, ceiling, answers);
      assert rs[..n] == Records(pairs[..n], cached, ceiling, answers);
      assert rs[n] == RecordFor(pairs[n], cached, ceiling, answers, Spent(rs[..n]));
    }
  }

  /** The check before each call is enough: whatever part of a run has been made, the providers' bills for it stay
      within the ceiling. */
  lemma {:induction false} SpendStaysUnderCeiling(pairs: seq<Pair>, cached: Cache, ceiling: real,
                                                  answers: Key -> Answer)
    requires 0.0 <= ceiling && CostsWithinBase(pairs, answers)
    ensures Spent(Records(pairs, cached, ceiling, answers)) <= ceiling
    ensures Billed(pairs, Records(pairs, cached, ceiling, answers), answers) <= ceiling
  {
    SpentIsBilled(pairs, cached, ceiling, answers);
    if pairs != [] {
      var front := pairs[..|pairs| - 1];
      assert CostsWithinBase(front, answers);
      SpendStaysUnderCeiling(front, cached, ceiling, answers);
      var rs := Records(pairs, cached, ceiling, answers);
      assert rs[..|rs| - 1] == Records(front, cached, ceiling, answers);
      assert answers(KeyOf(pairs[|rs| - 1])).cost <= pairs[|rs| - 1].1.baseCost;
    }
  }

  /** What each record of a run is, read off the caches and bills: a resumed copy; a skip for want of a domain; a skip
      because the bills so far and the listed cost do not fit; or a call, with exactly what the provider answered. */
  lemma EachRecord(pairs: seq<Pair>, cached: Cache, ceiling: real, answers: Key -> Answer, i: nat)
    requires i < |pairs|
    ensures var rs, p := Records(pairs, cached, ceiling, answers), pairs[i];
            var key, a := (p.1.name, p.0.email), answers((p.1.name, p.0.email));
            var due := Billed(pairs[..i], rs[..i], answers) + p.1.baseCost;
            && (key in cached ==> rs[i] == cached[key].(served := CacheFile))
            && (key !in cached ==> rs[i].provider == p.1.name && rs[i].email == p.0.email)
            && (key !in cached && p.1.company && !p.0.hasDomain ==>
                  rs[i].served == SkippedNoDomain && rs[i].status == Skipped && rs[i].cost == 0.0)
            && (key !in cached && (p.1.company ==> p.0.hasDomain) && due > ceiling ==>
                  rs[i].served == SkippedBudget && rs[i].status == Skipped && rs[i].cost == 0.0)
            && (key !in cached && (p.1.company ==> p.0.hasDomain) && due <= ceiling ==>
                  && rs[i].served == LiveCall && rs[i].cost == a.cost && rs[i].details == a.details
                  && (rs[i].status == Success <==> a.found == Matched)
                  && (rs[i].status == Miss <==> a.found == NotMatched)
                  && (rs[i].status == Error <==> a.found == Failed))
  {
    RecordAt(pairs, cached, ceiling, answers, i);
    PrefixOfRun(pairs, cached, ceiling, answers, i);
    SpentIsBilled(pairs[..i], cached, ceiling, answers);
  }

  lemma {:induction false} PrefixOfRun(pairs: seq<Pair>, cached: Cache, ceiling: real, answers: Key -> Answer, i: nat)
    requires i <= |pairs|
    ensures Records(pairs, cached, ceiling, answers)[..i] == Records(pairs[..i], cached, ceiling, answers)
  {
    var n := |pairs| - 1;
    if i <= n {
      PrefixOfRun(pairs[..n], cached, ceiling, answers, i);
      assert pairs[..n][..i] == pairs[..i];
      var rs := Records(pairs, cached, ceiling, answers);
      assert rs[..n] == Records(pairs[..n], cached, ceiling, answers) && rs[..n][..i] == rs[..i];
    } else {
      assert pairs[..i] == pairs;
    }
  }

  // ------------------------------------------------------------- the file --

  /** _load_cache: later lines win; only settled records are resumed. */
  function CacheOf(lines: seq<Record>): Cache {
    if lines == [] then map[]
    else
      var before := CacheOf(lines[..|lines| - 1]);
      var r := lines[|lines| - 1];
      if Settled(r) then before[RecordKey(r) := r] else before
  }

  /** A key is resumed iff some line settled it, and then as the last such line. */
  method LoadCache(lines: seq<Record>) returns (cached: Cache)
    ensures cached == CacheOf(lines)
    ensures forall k :: k in cached <==> exists i :: 0 <= i < |lines| && Settled(lines[i]) && RecordKey(lines[i]) == k
    ensures forall k :: k in cached ==> cached[k].status == Success || cached[k].status == Miss
    ensures forall i :: 0 <= i < |lines| && (lines[i].status == Success || lines[i].status == Miss) ==>
              (lines[i].provider, lines[i].email) in cached
    ensures forall k :: k in cached ==>
              Settled(cached[k]) && RecordKey(cached[k]) == k && LastSettled(lines, k, cached[k])
  {
    cached := map[];
    var i := 0;
    while i < |lines|
      invariant 0 <= i <= |lines| && cached == CacheOf(lines[..i])
      invariant forall k :: k in cached <==> exists j :: 0 <= j < i && Settled(lines[j]) && RecordKey(lines[j]) == k
      invariant forall k :: k in cached ==>
                  Settled(cached[k]) && RecordKey(cached[k]) == k && LastSettled(lines[..i], k, cached[k])
    {
      assert lines[..i + 1][..i] == lines[..i];
      LastSettledGrows(lines, i);
      if Settled(lines[i]) { cached := cached[RecordKey(lines[i]) := lines[i]]; }
      i := i + 1;
    }
    assert lines[..i] == lines;
    forall j | 0 <= j < |lines| && (lines[j].status == Success || lines[j].status == Miss)
      ensures (lines[j].provider, lines[j].email) in cached {
      assert Settled(lines[j]) && RecordKey(lines[j]) == (lines[j].provider, lines[j].email);
    }
  }

  predicate LastSettled(lines: seq<Record>, k: Key, r: Record) {
    exists i :: 0 <= i < |lines| && lines[i] == r
      && forall j :: i < j < |lines| && Settled(lines[j]) ==> RecordKey(lines[j]) != k
  }

  lemma LastSettledGrows(lines: seq<Record>, i: nat)
    requires i < |lines|
    ensures Settled(lines[i]) ==> LastSettled(lines[..i + 1], RecordKey(lines[i]), lines[i])
    ensures forall k, r :: LastSettled(lines[..i], k, r) && !(Settled(lines[i]) && RecordKey(lines[i]) == k) ==>
              LastSettled(lines[..i + 1], k, r)
  {
    var now := lines[..i + 1];
    assert now[i] == lines[i];
    forall k, r | LastSettled(lines[..i], k, r) && !(Settled(lines[i]) && RecordKey(lines[i]) == k)
      ensures LastSettled(now, k, r) {
      var j :| 0 <= j < i && lines[..i][j] == r
        && forall n :: j < n < i && Settled(lines[..i][n]) ==> RecordKey(lines[..i][n]) != k;
      forall n | j < n < |now| && Settled(now[n]) ensures RecordKey(now[n]) != k {
        if n < i { assert lines[..i][n] == now[n]; }
      }
      assert now[j] == r;
    }
  }

  // ---------------------------------------------------------- repeated runs --

  /** The file left by a run that resumed from `file`. */
  function Rerun(pairs: seq<Pair>, file: seq<Record>, ceiling: real, answers: Key -> Answer): seq<Record> {
    Records(pairs, CacheOf(file), ceiling, answers)
  }

  predicate DistinctKeys(pairs: seq<Pair>) {
    forall i, j :: 0 <= i < j < |pairs| ==> KeyOf(pairs[i]) != KeyOf(pairs[j])
  }

  /** One line per pair, in order. */
  predicate Covers(file: seq<Record>, pairs: seq<Pair>) {
    |file| == |pairs| && forall i :: 0 <= i < |pairs| ==> RecordKey(file[i]) == KeyOf(pairs[i])
  }

  predicate ValidCache(cached: Cache) {
    forall k :: k in cached ==> RecordKey(cached[k]) == k && Settled(cached[k])
  }

  lemma {:induction false} CacheIsValid(file: seq<Record>)
    ensures ValidCache(CacheOf(file))
  {
    if file != [] { CacheIsValid(file[..|file| - 1]); }
  }

  lemma {:induction false} CacheHasLines(file: seq<Record>, pairs: seq<Pair>, i: nat)
    requires Covers(file, pairs) && DistinctKeys(pairs) && i < |file|
    ensures KeyOf(pairs[i]) in CacheOf(file) <==> Settled(file[i])
    ensures Settled(file[i]) ==> CacheOf(file)[KeyOf(pairs[i])] == file[i]
  {
    var n := |file| - 1;
    if i < n {
      CacheHasLines(file[..n], pairs[..n], i);
      assert KeyOf(pairs[i]) != KeyOf(pairs[n]);
    } else {
      NotBefore(file[..n], pairs[..n], KeyOf(pairs[n]));
    }
  }

  lemma {:induction false} NotBefore(file: seq<Record>, pairs: seq<Pair>, k: Key)
    requires Covers(file, pairs) && forall i :: 0 <= i < |pairs| ==> KeyOf(pairs[i]) != k
    ensures k !in CacheOf(file)
  {
    if file != [] { NotBefore(file[..|file| - 1], pairs[..|pairs| - 1], k); }
  }

  /** Line by line: each record is the one its pair gets after what the lines before it spent. */
  lemma {:induction false} RecordAt(pairs: seq<Pair>, cached: Cache, ceiling: real, answers: Key -> Answer, i: nat)
    requires i < |pairs|
    ensures var rs := Records(pairs, cached, ceiling, answers);
            rs[i] == RecordFor(pairs[i], cached, ceiling, answers, Spent(rs[..i]))
  {
    var rs := Records(pairs, cached, ceiling, answers);
    var n := |pairs| - 1;
    assert rs[..n] == Records(pairs[..n], cached, ceiling, answers);
    if i < n {
      RecordAt(pairs[..n], cached, ceiling, answers, i);
      assert rs[..n][..i] == rs[..i];
    }
  }

  lemma RerunCovers(pairs: seq<Pair>, file: seq<Record>, ceiling: real, answers: Key -> Answer)
    ensures Covers(Rerun(pairs, file, ceiling, answers), pairs)
  {
    CacheIsValid(file);
    forall i | 0 <= i < |pairs| ensures RecordKey(Rerun(pairs, file, ceiling, answers)[i]) == KeyOf(pairs[i]) {
      RecordAt(pairs, CacheOf(file), ceiling, answers, i);
    }
  }

  /** A settled line is carried over, marked as resumed; it is not called again. */
  lemma SettledIsCarried(pairs: seq<Pair>, file: seq<Record>, ceiling: real, answers: Key -> Answer, i: nat)
    requires Covers(file, pairs) && DistinctKeys(pairs) && i < |pairs| && Settled(file[i])
    ensures Rerun(pairs, file, ceiling, answers)[i] == file[i].(served := CacheFile)
  {
    CacheHasLines(file, pairs, i);
    RecordAt(pairs, CacheOf(file), ceiling, answers, i);
  }

  /** The files left by repeated runs, each over its own list and resuming from the one before. */
  ghost predicate IsSeries(lists: seq<seq<Pair>>, files: seq<seq<Record>>, ceilings: seq<real>,
                           worlds: seq<Key -> Answer>) {
    && |files| == |lists| + 1 == |ceilings| + 1 == |worlds| + 1
    && forall n :: 0 <= n < |lists| ==> files[n + 1] == Rerun(lists[n], files[n], ceilings[n], worlds[n])
  }

  predicate Asks(pairs: seq<Pair>, k: Key) {
    exists i :: 0 <= i < |pairs| && KeyOf(pairs[i]) == k
  }

  predicate SettledByCall(r: Record) { r.served == LiveCall && Settled(r) }

  /** A run over the list, leaving the file, called the key and settled it. */
  predicate CallSettles(pairs: seq<Pair>, file: seq<Record>, k: Key)
    requires |file| == |pairs|
  {
    exists i :: 0 <= i < |pairs| && KeyOf(pairs[i]) == k && SettledByCall(file[i])
  }

  lemma {:induction false} CacheHasSettled(lines: seq<Record>, k: Key)
    ensures k in CacheOf(lines) <==> exists i :: 0 <= i < |lines| && Settled(lines[i]) && RecordKey(lines[i]) == k
  {
    if lines != [] {
      var front := lines[..|lines| - 1];
      CacheHasSettled(front, k);
      assert forall i :: 0 <= i < |front| ==> front[i] == lines[i];
    }
  }

  /** A file remembers a key iff its own list asked for it and it was remembered before or settled by a call of this
      run; a remembered key is not called. */
  lemma RememberedIff(pairs: seq<Pair>, file: seq<Record>, ceiling: real, answers: Key -> Answer, k: Key)
    ensures var next := Rerun(pairs, file, ceiling, answers);
            k in CacheOf(next) <==> Asks(pairs, k) && (k in CacheOf(file) || CallSettles(pairs, next, k))
    ensures k in CacheOf(file) ==> !CallSettles(pairs, Rerun(pairs, file, ceiling, answers), k)
  {
    var cached, next := CacheOf(file), Rerun(pairs, file, ceiling, answers);
    CacheIsValid(file);
    RerunCovers(pairs, file, ceiling, answers);
    CacheHasSettled(next, k);
    forall i | 0 <= i < |pairs| && KeyOf(pairs[i]) == k
      ensures Settled(next[i]) <==> k in cached || SettledByCall(next[i])
      ensures k in cached ==> next[i].served != LiveCall {
      RecordAt(pairs, cached, ceiling, answers, i);
    }
    forall i | 0 <= i < |next| && RecordKey(next[i]) == k ensures KeyOf(pairs[i]) == k {
    }
  }

  lemma {:induction false} RememberedWhileAsked(lists: seq<seq<Pair>>, files: seq<seq<Record>>, ceilings: seq<real>,
                                                worlds: seq<Key -> Answer>, m: nat, n: nat, k: Key)
    requires IsSeries(lists, files, ceilings, worlds) && m <= n < |files| && k in CacheOf(files[m])
    requires forall j :: m <= j < n ==> Asks(lists[j], k)
    ensures k in CacheOf(files[n])
  {
    if m < n {
      RememberedWhileAsked(lists, files, ceilings, worlds, m, n - 1, k);
      RememberedIff(lists[n - 1], files[n - 1], ceilings[n - 1], worlds[n - 1], k);
    }
  }

  lemma {:induction false} ForgottenUntilCalled(lists: seq<seq<Pair>>, files: seq<seq<Record>>, ceilings: seq<real>,
                                                worlds: seq<Key -> Answer>, j: nat, n: nat, k: Key)
    requires IsSeries(lists, files, ceilings, worlds) && j < n < |files| && !Asks(lists[j], k)
    requires forall l :: j < l < n ==> !CallSettles(lists[l], files[l + 1], k)
    ensures k !in CacheOf(files[n])
  {
    if j < n - 1 { ForgottenUntilCalled(lists, files, ceilings, worlds, j, n - 1, k); }
    RememberedIff(lists[n - 1], files[n - 1], ceilings[n - 1], worlds[n - 1], k);
  }

  /** A list between the two runs left the key out. */
  predicate Dropped(lists: seq<seq<Pair>>, m: nat, n: nat, k: Key)
    requires n <= |lists|
  {
    exists j :: m < j < n && !Asks(lists[j], k)
  }

  /** After a call settled a key, and with no such call since, a later run calls it again exactly when a list in
      between left it out, because the file then forgot it, and the run would call a pair never settled: callable
      and within the ceiling. */
  lemma CalledAgainIff(lists: seq<seq<Pair>>, files: seq<seq<Record>>, ceilings: seq<real>, worlds: seq<Key -> Answer>,
                       m: nat, n: nat, k: Key, i: nat)
    requires IsSeries(lists, files, ceilings, worlds) && m < n < |lists|
    requires CallSettles(lists[m], files[m + 1], k)
    requires forall j :: m < j < n ==> !CallSettles(lists[j], files[j + 1], k)
    requires i < |lists[n]| && KeyOf(lists[n][i]) == k
    ensures var p := lists[n][i];
            files[n + 1][i].served == LiveCall <==>
            && Dropped(lists, m, n, k) && (p.1.company ==> p.0.hasDomain)
            && Billed(lists[n][..i], files[n + 1][..i], worlds[n]) + p.1.baseCost <= ceilings[n]
  {
    RememberedIff(lists[m], files[m], ceilings[m], worlds[m], k);
    if Dropped(lists, m, n, k) {
      var j :| m < j < n && !Asks(lists[j], k);
      ForgottenUntilCalled(lists, files, ceilings, worlds, j, n, k);
    } else {
      RememberedWhileAsked(lists, files, ceilings, worlds, m + 1, n, k);
    }
    EachRecord(lists[n], CacheOf(files[n]), ceilings[n], worlds[n], i);
  }

  /** Over any number of runs, with any lists, ceilings and answers: between two runs whose calls settle one key,
      some list left that key out. */
  lemma SettledTwiceOnlyIfDropped(lists: seq<seq<Pair>>, files: seq<seq<Record>>, ceilings: seq<real>,
                                  worlds: seq<Key -> Answer>, m: nat, n: nat, k: Key)
    requires IsSeries(lists, files, ceilings, worlds) && m < n < |lists|
    requires CallSettles(lists[m], files[m + 1], k) && CallSettles(lists[n], files[n + 1], k)
    ensures Dropped(lists, m, n, k)
  {
    RememberedIff(lists[m], files[m], ceilings[m], worlds[m], k);
    RememberedIff(lists[n], files[n], ceilings[n], worlds[n], k);
    if !Dropped(lists, m, n, k) { RememberedWhileAsked(lists, files, ceilings, worlds, m + 1, n, k); }
  }

  /** The smallest case: asked, left out, asked again. */
  lemma DroppedPairIsCalledAgain(p: Pair, ceiling: real, answers: Key -> Answer)
    requires Callable(p) && p.1.baseCost <= ceiling && answers(KeyOf(p)).found != Failed
    ensures var first := Rerun([p], [], ceiling, answers);
            var third := Rerun([p], Rerun([], first, ceiling, answers), ceiling, answers);
            CallSettles([p], first, KeyOf(p)) && CallSettles([p], third, KeyOf(p))
  {
    var called := LiveRecord(p, answers(KeyOf(p)));
    RecordAt([p], map[], ceiling, answers, 0);
    assert Rerun([p], [], ceiling, answers)[0] == called;
  }

  /** Over one list of distinct keys, with any ceilings and any answers, each provider settles each identity by at
      most one call. */
  lemma OneSettledCallPerPair(pairs: seq<Pair>, lists: seq<seq<Pair>>, files: seq<seq<Record>>, ceilings: seq<real>,
                              worlds: seq<Key -> Answer>, m: nat, n: nat, i: nat, j: nat)
    requires IsSeries(lists, files, ceilings, worlds) && DistinctKeys(pairs)
    requires forall l :: 0 <= l < |lists| ==> lists[l] == pairs
    requires 0 < m < |files| && 0 < n < |files| && i < |pairs| && j < |pairs| && KeyOf(pairs[i]) == KeyOf(pairs[j])
    ensures |files[m]| == |files[n]| == |pairs|
    ensures SettledByCall(files[m][i]) && SettledByCall(files[n][j]) ==> m == n && i == j
  {
    var k := KeyOf(pairs[i]);
    assert lists[m - 1] == pairs && lists[n - 1] == pairs;
    if SettledByCall(files[m][i]) && SettledByCall(files[n][j]) && m != n {
      assert CallSettles(pairs, files[m], k) && CallSettles(pairs, files[n], k);
      var earlier, later := if m < n then m else n, if m < n then n else m;
      SettledTwiceOnlyIfDropped(lists, files, ceilings, worlds, earlier - 1, later - 1, k);
    }
  }

  // ---------------------------------------------------------------- progress --

  /** Pairs that can be called and that no line of the file settles; the file may be missing, partial or of another
      list. */
  function Outstanding(pairs: seq<Pair>, file: seq<Record>): set<nat> {
    set i | 0 <= i < |pairs| && Callable(pairs[i]) && KeyOf(pairs[i]) !in CacheOf(file)
  }

  lemma {:induction false} NothingSpentYet(records: seq<Record>)
    requires forall i :: 0 <= i < |records| ==> records[i].served != LiveCall
    ensures Spent(records) == 0.0
  {
    if records != [] { NothingSpentYet(records[..|records| - 1]); }
  }

  /** The first outstanding pair is always within the ceiling, because nothing has been spent before it. */
  lemma FirstIsCalled(pairs: seq<Pair>, file: seq<Record>, ceiling: real, answers: Key -> Answer) returns (i: nat)
    requires Outstanding(pairs, file) != {}
    requires forall j :: 0 <= j < |pairs| ==> pairs[j].1.baseCost <= ceiling
    ensures i in Outstanding(pairs, file)
    ensures Rerun(pairs, file, ceiling, answers)[i] == LiveRecord(pairs[i], answers(KeyOf(pairs[i])))
  {
    var cached, next := CacheOf(file), Rerun(pairs, file, ceiling, answers);
    i := Least(Outstanding(pairs, file), |pairs|);
    forall j | 0 <= j < i ensures next[..i][j].served != LiveCall {
      RecordAt(pairs, cached, ceiling, answers, j);
      assert j !in Outstanding(pairs, file);
    }
    NothingSpentYet(next[..i]);
    RecordAt(pairs, cached, ceiling, answers, i);
  }

  lemma Least(s: set<nat>, n: nat) returns (i: nat)
    requires s != {} && forall j :: j in s ==> j < n
    ensures i in s && forall j :: 0 <= j < i ==> j !in s
  {
    i := 0;
    while i !in s
      invariant forall j :: 0 <= j < i ==> j !in s
      invariant exists j :: j in s && i <= j
      decreases n - i
    {
      i := i + 1;
    }
  }

  /** The ceiling covers any single call and no call errors. */
  ghost predicate Favourable(pairs: seq<Pair>, ceiling: real, answers: Key -> Answer) {
    forall j :: 0 <= j < |pairs| ==> pairs[j].1.baseCost <= ceiling && answers(KeyOf(pairs[j])).found != Failed
  }

  /** What a line of the next file settles is settled from then on; what was settled stays so. */
  lemma CacheAfter(pairs: seq<Pair>, file: seq<Record>, ceiling: real, answers: Key -> Answer, i: nat)
    requires DistinctKeys(pairs) && i < |pairs|
    ensures var next := Rerun(pairs, file, ceiling, answers);
            && (KeyOf(pairs[i]) in CacheOf(next) <==> Settled(next[i]))
            && (KeyOf(pairs[i]) in CacheOf(file) ==> Settled(next[i]))
  {
    RerunCovers(pairs, file, ceiling, answers);
    CacheHasLines(Rerun(pairs, file, ceiling, answers), pairs, i);
    CacheIsValid(file);
    RecordAt(pairs, CacheOf(file), ceiling, answers, i);
  }

  /** From any results file, no run leaves more outstanding; and as long as something is outstanding, a run whose
      ceiling covers any single call and whose calls do not error leaves strictly less. */
  lemma RunsMakeProgress(pairs: seq<Pair>, file: seq<Record>, ceiling: real, answers: Key -> Answer)
    requires DistinctKeys(pairs)
    ensures var next := Rerun(pairs, file, ceiling, answers);
            && Outstanding(pairs, next) <= Outstanding(pairs, file)
            && (Favourable(pairs, ceiling, answers) && Outstanding(pairs, file) != {} ==>
                  Outstanding(pairs, next) < Outstanding(pairs, file)
                  && |Outstanding(pairs, next)| < |Outstanding(pairs, file)|)
  {
    var next := Rerun(pairs, file, ceiling, answers);
    forall i | i in Outstanding(pairs, next) ensures i in Outstanding(pairs, file) {
      CacheAfter(pairs, file, ceiling, answers, i);
    }
    if Favourable(pairs, ceiling, answers) && Outstanding(pairs, file) != {} {
      var i := FirstIsCalled(pairs, file, ceiling, answers);
      CacheAfter(pairs, file, ceiling, answers, i);
      assert i !in Outstanding(pairs, next);
      Smaller(Outstanding(pairs, next), Outstanding(pairs, file));
    }
  }

  lemma Smaller(a: set<nat>, b: set<nat>)
    requires a < b
    ensures |a| < |b|
  {
    var x :| x in b && x !in a;
    assert b == a + (b - a) && |b| == |a| + |b - a| && x in b - a;
  }

  /** With nothing outstanding, a run calls nobody, spends nothing and reproduces every settled line. */
  lemma FinishedRunsOnlyReproduce(pairs: seq<Pair>, file: seq<Record>, ceiling: real, answers: Key -> Answer)
    requires Outstanding(pairs, file) == {}
    ensures var next := Rerun(pairs, file, ceiling, answers);
            && Billed(pairs, next, answers) == 0.0
            && forall i :: 0 <= i < |pairs| ==>
                 next[i] == if KeyOf(pairs[i]) in CacheOf(file)
                            then CacheOf(file)[KeyOf(pairs[i])].(served := CacheFile)
                            else SkipRecord(pairs[i], SkippedNoDomain)
    ensures DistinctKeys(pairs) && Covers(file, pairs) ==>
              forall i :: 0 <= i < |file| && Settled(file[i]) ==>
                Rerun(pairs, file, ceiling, answers)[i] == file[i].(served := CacheFile)
  {
    var next := Rerun(pairs, file, ceiling, answers);
    forall i | 0 <= i < |pairs|
      ensures next[i] == if KeyOf(pairs[i]) in CacheOf(file) then CacheOf(file)[KeyOf(pairs[i])].(served := CacheFile)
                         else SkipRecord(pairs[i], SkippedNoDomain) {
      RecordAt(pairs, CacheOf(file), ceiling, answers, i);
      assert i !in Outstanding(pairs, file);
    }
    NothingSpentYet(next);
    SpentIsBilled(pairs, CacheOf(file), ceiling, answers);
    if DistinctKeys(pairs) && Covers(file, pairs) {
      forall i | 0 <= i < |file| && Settled(file[i]) ensures next[i] == file[i].(served := CacheFile) {
        SettledIsCarried(pairs, file, ceiling, answers, i);
      }
    }
  }

  /** So, starting from any results file or none, within as many runs as there were outstanding pairs nothing is
      left to call. */
  lemma {:induction false} SeriesFinishes(pairs: seq<Pair>, lists: seq<seq<Pair>>, files: seq<seq<Record>>,
                                          ceilings: seq<real>, worlds: seq<Key -> Answer>, n: nat)
    requires IsSeries(lists, files, ceilings, worlds) && DistinctKeys(pairs) && n < |files|
    requires forall j :: 0 <= j < |lists| ==> lists[j] == pairs
    requires forall m :: 0 <= m < n ==> Favourable(pairs, ceilings[m], worlds[m])
    ensures Outstanding(pairs, files[n]) == {} || |Outstanding(pairs, files[n])| + n <= |Outstanding(pairs, files[0])|
  {
    if n > 0 {
      SeriesFinishes(pairs, lists, files, ceilings, worlds, n - 1);
      RunsMakeProgress(pairs, files[n - 1], ceilings[n - 1], worlds[n - 1]);
    }
  }

  // ----------------------------------------------------------- distinct keys --

  lemma {:induction false} RowIs(id: Identity, providers: seq<Provider>)
    ensures |Row(id, providers)| == |providers|
    ensures forall j :: 0 <= j < |providers| ==> Row(id, providers)[j] == (id, providers[j])
  {
    if providers != [] { RowIs(id, providers[..|providers| - 1]); }
  }

  /** One list of distinct addresses against providers with distinct names gives distinct keys. */
  lemma {:induction false} PairsAreDistinct(ids: seq<Identity>, providers: seq<Provider>)
    requires forall i, j :: 0 <= i < j < |ids| ==> ids[i].email != ids[j].email
    requires forall i, j :: 0 <= i < j < |providers| ==> providers[i].name != providers[j].name
    ensures DistinctKeys(Pairs(ids, providers))
    ensures forall p :: p in Pairs(ids, providers) ==> p.0 in ids && p.1 in providers
  {
    if ids != [] {
      var front, last := ids[..|ids| - 1], ids[|ids| - 1];
      PairsAreDistinct(front, providers);
      RowIs(last, providers);
      var a, b := Pairs(front, providers), Row(last, providers);
      forall i, j | 0 <= i < j < |a + b| ensures KeyOf((a + b)[i]) != KeyOf((a + b)[j]) {
        if i < |a| <= j {
          assert a[i] in a;
          assert a[i].0 in front;
        }
      }
    }
  }
}
