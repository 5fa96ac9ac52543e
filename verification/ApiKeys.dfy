/**
 The API-key table: rows found by the first twelve characters of a key and
 checked by its hash. Every statement that changes a row commits on its own, so
 a run is a sequence of insert attempts, revocations and last-used touches from
 any number of concurrent calls. Hashes are injective here.
 Models src/arie/apikeys.py with migrations/0017_organization_api_keys.sql.
 */
module ApiKeys {
  import opened Scoring

  type Org = nat
  type KeyId = nat

  datatype Scope = LeadsWrite | LeadsRead | ReviewsRead | ReviewsWrite

  datatype Digest = Sha256(of: string)

  const API_KEY_PREFIX := "arie_"
  const PREFIX_STORED_LENGTH := 12
  const ATTEMPTS := 5

  datatype Row = Row(
    id: KeyId, org: Org, digest: Digest, scopes: set<Scope>, revokedAt: Option<nat>, lastUsed: Option<nat>)

  /** Keyed by the stored prefix, which the table keeps unique. */
  type Rows = map<string, Row>

  function Prefix(raw: string): string {
    if |raw| <= PREFIX_STORED_LENGTH then raw else raw[..PREFIX_STORED_LENGTH]
  }

  function RawKey(token: string): string { API_KEY_PREFIX + token }

  predicate Matches(r: Row, org: Org, id: KeyId) { r.id == id && r.org == org }

  /** UPDATE ... SET revoked_at WHERE key_id, organization and revoked_at IS NULL. */
  function Revoked(rows: Rows, org: Org, id: KeyId, now: nat): Rows {
    map p | p in rows ::
      if Matches(rows[p], org, id) && rows[p].revokedAt.None? then rows[p].(revokedAt := Some(now)) else rows[p]
  }

  /** UPDATE ... SET last_used_at WHERE key_id. */
  function Touched(rows: Rows, id: KeyId, now: nat): Rows {
    map p | p in rows :: if rows[p].id == id then rows[p].(lastUsed := Some(now)) else rows[p]
  }

  datatype Verdict = Invalid | WasRevoked(id: KeyId) | Verified(id: KeyId, org: Org, scopes: set<Scope>)

  /** The verifying read: the row under the key's prefix, if its hash is the key's. */
  function Verify(rows: Rows, raw: string): Verdict {
    if Prefix(raw) !in rows || rows[Prefix(raw)].digest != Sha256(raw) then Invalid
    else
      var r := rows[Prefix(raw)];
      if r.revokedAt.Some? then WasRevoked(r.id) else Verified(r.id, r.org, r.scopes)
  }

  // ------------------------------------------------------------------- runs --

  /** Calls in the order they took effect. */
  datatype Call =
    | Issue(raw: string, id: KeyId, org: Org, scopes: set<Scope>)
    | Revoke(org: Org, id: KeyId, at: nat)

  datatype Step = Insert(issue: Call) | Revoking(org: Org, id: KeyId, now: nat) | Touch(id: KeyId, now: nat)

  datatype State = State(rows: Rows, log: seq<Call>)

  predicate IdFree(rows: Rows, id: KeyId) {
    forall p :: p in rows ==> rows[p].id != id
  }

  function RowOf(c: Call): Row
    requires c.Issue?
  {
    Row(c.id, c.org, Sha256(c.raw), c.scopes, None, None)
  }

  predicate Enabled(s: State, step: Step) {
    step.Insert? ==> step.issue.Issue? && IdFree(s.rows, step.issue.id)
  }

  /** An insert whose prefix is taken violates the unique constraint and is rolled back. */
  function Next(s: State, step: Step): State
    requires Enabled(s, step)
  {
    match step
    case Insert(c) =>
      if Prefix(c.raw) in s.rows then s else State(s.rows[Prefix(c.raw) := RowOf(c)], s.log + [c])
    case Revoking(org, id, now) => State(Revoked(s.rows, org, id, now), s.log + [Revoke(org, id, now)])
    case Touch(id, now) => s.(rows := Touched(s.rows, id, now))
  }

  ghost predicate IsRun(ss: seq<State>, steps: seq<Step>) {
    && |ss| == |steps| + 1 && ss[0] == State(map[], [])
    && forall i :: 0 <= i < |steps| ==> Enabled(ss[i], steps[i]) && ss[i + 1] == Next(ss[i], steps[i])
  }

  // ---------------------------------------------- the map from keys to records --

  datatype Record = Record(id: KeyId, org: Org, scopes: set<Scope>, revokedAt: Option<nat>)

  /** What one call does to the record of one raw key. */
  function After(before: Option<Record>, c: Call, raw: string): Option<Record> {
    match c
    case Issue(r, id, org, scopes) => if r == raw then Some(Record(id, org, scopes, None)) else before
    case Revoke(org, id, at) =>
      if before.Some? && before.value.id == id && before.value.org == org && before.value.revokedAt.None?
      then Some(before.value.(revokedAt := Some(at))) else before
  }

  /** The record of a raw key after the calls of a log: a plain map from whole keys, with no prefixes or hashes. */
  function Recall(log: seq<Call>, raw: string): Option<Record> {
    if log == [] then None else After(Recall(log[..|log| - 1], raw), log[|log| - 1], raw)
  }

  function Found(rows: Rows, raw: string): Option<Record> {
    if Prefix(raw) in rows && rows[Prefix(raw)].digest == Sha256(raw)
    then var r := rows[Prefix(raw)]; Some(Record(r.id, r.org, r.scopes, r.revokedAt))
    else None
  }

  ghost predicate KeyInv(s: State) {
    && (forall p, q | p in s.rows && q in s.rows && s.rows[p].id == s.rows[q].id :: p == q)
    && (forall p :: p in s.rows ==> Prefix(s.rows[p].digest.of) == p)
    && (forall raw: string :: Found(s.rows, raw) == Recall(s.log, raw))
  }

  lemma StepKeepsKeys(s: State, step: Step)
    requires KeyInv(s) && Enabled(s, step)
    ensures KeyInv(Next(s, step))
  {
    var n := Next(s, step);
    assert n.log != s.log ==> n.log[..|s.log|] == s.log;
    forall raw: string ensures Found(n.rows, raw) == Recall(n.log, raw) {
      assert Found(s.rows, raw) == Recall(s.log, raw);
    }
  }

  /** Over every run, looking a key up by prefix and hash gives exactly the record the calls left for that whole key. */
  lemma {:induction false} TableRefinesKeyMap(ss: seq<State>, steps: seq<Step>, i: nat)
    requires IsRun(ss, steps) && i < |ss|
    ensures KeyInv(ss[i])
  {
    if i > 0 {
      TableRefinesKeyMap(ss, steps, i - 1);
      StepKeepsKeys(ss[i - 1], steps[i - 1]);
    }
  }

  predicate IssuedIn(log: seq<Call>, raw: string) {
    exists i :: 0 <= i < |log| && log[i].Issue? && log[i].raw == raw
  }

  lemma {:induction false} RecalledIsIssued(log: seq<Call>, raw: string) returns (i: nat)
    requires Recall(log, raw).Some?
    ensures i < |log| && log[i].Issue? && log[i].raw == raw
    ensures var r := Recall(log, raw).value; r.id == log[i].id && r.org == log[i].org && r.scopes == log[i].scopes
    ensures var r := Recall(log, raw).value; r.revokedAt.Some? ==>
              exists j :: i < j < |log| && log[j] == Revoke(r.org, r.id, r.revokedAt.value)
    ensures var r := Recall(log, raw).value; r.revokedAt.None? ==>
              forall j :: i < j < |log| && log[j].Revoke? ==> !(log[j].org == r.org && log[j].id == r.id)
  {
    var front, c := log[..|log| - 1], log[|log| - 1];
    if c.Issue? && c.raw == raw {
      i := |log| - 1;
    } else {
      i := RecalledIsIssued(front, raw);
      var before := Recall(front, raw).value;
      if before.revokedAt.Some? {
        var j :| i < j < |front| && front[j] == Revoke(before.org, before.id, before.revokedAt.value);
        assert log[j] == front[j];
      } else if c.Revoke? && c.org == before.org && c.id == before.id {
        assert log[|log| - 1] == c;
      }
    }
  }

  lemma {:induction false} IssuedIsRecalled(log: seq<Call>, raw: string)
    requires IssuedIn(log, raw)
    ensures Recall(log, raw).Some?
  {
    var front := log[..|log| - 1];
    if !(log[|log| - 1].Issue? && log[|log| - 1].raw == raw) {
      var i :| 0 <= i < |log| && log[i].Issue? && log[i].raw == raw;
      assert front[i] == log[i];
      IssuedIsRecalled(front, raw);
    }
  }

  ghost predicate IssuedAtMostOnce(log: seq<Call>) {
    forall i, j
      | 0 <= i < |log| && 0 <= j < |log| && log[i].Issue? && log[j].Issue? && log[i].raw == log[j].raw :: i == j
  }

  lemma {:induction false} NoKeyIsIssuedTwice(ss: seq<State>, steps: seq<Step>, i: nat)
    requires IsRun(ss, steps) && i < |ss|
    ensures IssuedAtMostOnce(ss[i].log)
  {
    if i > 0 {
      NoKeyIsIssuedTwice(ss, steps, i - 1);
      var s, step := ss[i - 1], steps[i - 1];
      if step.Insert? && Prefix(step.issue.raw) !in s.rows {
        TableRefinesKeyMap(ss, steps, i - 1);
        assert Found(s.rows, step.issue.raw) == Recall(s.log, step.issue.raw);
        if IssuedIn(s.log, step.issue.raw) { IssuedIsRecalled(s.log, step.issue.raw); }
      }
    }
  }

  /** The call at j issued this key and no later call revokes it. */
  predicate Stands(log: seq<Call>, j: nat, raw: string) {
    && j < |log| && log[j].Issue? && log[j].raw == raw
    && forall k :: j < k < |log| && log[k].Revoke? ==> !(log[k].org == log[j].org && log[k].id == log[j].id)
  }

  /** A key verifies iff that exact key was issued and has not been revoked since; the answer names the organization
      and scopes it was issued with. A key that was never issued is invalid, whatever its prefix. */
  lemma VerifiesIffIssuedAndNotRevoked(ss: seq<State>, steps: seq<Step>, i: nat, raw: string)
    requires IsRun(ss, steps) && i < |ss|
    ensures Verify(ss[i].rows, raw).Invalid? <==> !IssuedIn(ss[i].log, raw)
    ensures Verify(ss[i].rows, raw).Verified? <==> exists j: nat :: Stands(ss[i].log, j, raw)
    ensures forall j: nat :: Stands(ss[i].log, j, raw) ==>
              var c := ss[i].log[j]; Verify(ss[i].rows, raw) == Verified(c.id, c.org, c.scopes)
  {
    TableRefinesKeyMap(ss, steps, i);
    NoKeyIsIssuedTwice(ss, steps, i);
    var log := ss[i].log;
    assert Found(ss[i].rows, raw) == Recall(log, raw);
    if IssuedIn(log, raw) { IssuedIsRecalled(log, raw); }
    if Recall(log, raw).Some? {
      var j := RecalledIsIssued(log, raw);
      assert Recall(log, raw).value.revokedAt.None? <==> Stands(log, j, raw);
    }
  }

  /** A row keeps its key, organization and scopes, and its first revocation time is never overwritten. */
  lemma {:induction false} FirstRevocationStands(ss: seq<State>, steps: seq<Step>, i: nat, j: nat, p: string)
    requires IsRun(ss, steps) && i <= j < |ss| && p in ss[i].rows
    ensures p in ss[j].rows
    ensures var a, b := ss[i].rows[p], ss[j].rows[p];
            && b == a.(revokedAt := b.revokedAt, lastUsed := b.lastUsed)
            && (a.revokedAt.Some? ==> b.revokedAt == a.revokedAt)
  {
    if i < j {
      FirstRevocationStands(ss, steps, i, j - 1, p);
      assert Enabled(ss[j - 1], steps[j - 1]);
    }
  }

  // ------------------------------------------------------------------ calls --

  class KeyTable {
    var rows: Rows

    constructor ()
      ensures rows == map[]
    {
      rows := map[];
    }

    predicate Taken(token: string)
      reads this
    {
      Prefix(RawKey(token)) in rows
    }

    /** create_api_key: the first of five generated keys whose prefix is free is stored; none free, nothing is. */
    method CreateApiKey(org: Org, scopes: set<Scope>, id: KeyId, tokens: seq<string>) returns (raw: Option<string>)
      requires |tokens| == ATTEMPTS && IdFree(rows, id)
      modifies this
      ensures raw.None? <==> forall i :: 0 <= i < ATTEMPTS ==> old(Taken(tokens[i]))
      ensures raw.None? ==> rows == old(rows)
      ensures raw.Some? ==>
                && rows == old(rows)[Prefix(raw.value) := Row(id, org, Sha256(raw.value), scopes, None, None)]
                && exists i :: 0 <= i < ATTEMPTS && raw.value == RawKey(tokens[i]) && !old(Taken(tokens[i]))
                     && forall j :: 0 <= j < i ==> old(Taken(tokens[j]))
    {
      for i := 0 to ATTEMPTS
        invariant rows == old(rows)
        invariant forall j :: 0 <= j < i ==> Taken(tokens[j])
      {
        var key := RawKey(tokens[i]);
        if Prefix(key) !in rows {
          rows := rows[Prefix(key) := RowOf(Issue(key, id, org, scopes))];
          return Some(key);
        }
      }
      raw := None;
    }

    /** None only when the organization has no key with this id; a second revocation changes nothing. */
    method RevokeApiKey(org: Org, id: KeyId, now: nat) returns (found: bool)
      modifies this
      ensures found <==> exists p :: p in old(rows) && Matches(old(rows)[p], org, id)
      ensures rows.Keys == old(rows).Keys
      ensures forall p :: p in rows ==>
                rows[p] == if Matches(old(rows)[p], org, id) && old(rows)[p].revokedAt.None?
                           then old(rows)[p].(revokedAt := Some(now)) else old(rows)[p]
    {
      found := exists p :: p in rows && Matches(rows[p], org, id);
      rows := Revoked(rows, org, id, now);
    }

    /** The answer depends on the key alone, and only a successful verification leaves a trace: its row's last use. */
    method VerifyApiKey(raw: string, now: nat) returns (v: Verdict)
      modifies this
      ensures v == (match old(Found(rows, raw))
                    case None => Invalid
                    case Some(r) => if r.revokedAt.Some? then WasRevoked(r.id) else Verified(r.id, r.org, r.scopes))
      ensures forall key: string :: Found(rows, key) == Found(old(rows), key)
      ensures rows.Keys == old(rows).Keys
      ensures forall p :: p in rows ==>
                rows[p] == if v.Verified? && old(rows)[p].id == v.id then old(rows)[p].(lastUsed := Some(now))
                           else old(rows)[p]
    {
      if Prefix(raw) !in rows || rows[Prefix(raw)].digest != Sha256(raw) { return Invalid; }
      var r := rows[Prefix(raw)];
      if r.revokedAt.Some? { return WasRevoked(r.id); }
      rows := Touched(rows, r.id, now);
      v := Verified(r.id, r.org, r.scopes);
    }
  }

  /** The insert attempts of one call, run as steps of the interleaved system, leave what the call leaves. */
  lemma {:induction false} AttemptsAreTheCall(s: State, issues: seq<Call>, n: nat)
    requires n <= |issues| && forall i :: 0 <= i < |issues| ==> issues[i].Issue? && IdFree(s.rows, issues[i].id)
    requires forall i :: 0 <= i < n ==> Prefix(issues[i].raw) in s.rows
    requires n < |issues| ==> Prefix(issues[n].raw) !in s.rows
    ensures Attempt(s, issues) ==
            if n == |issues| then s else State(s.rows[Prefix(issues[n].raw) := RowOf(issues[n])], s.log + [issues[n]])
    decreases n
  {
    if n > 0 { AttemptsAreTheCall(s, issues[1..], n - 1); }
  }

  /** Inserts tried in order until one adds a row. */
  function Attempt(s: State, issues: seq<Call>): State
    requires forall i :: 0 <= i < |issues| ==> issues[i].Issue? && IdFree(s.rows, issues[i].id)
  {
    if issues == [] then s
    else
      var n := Next(s, Insert(issues[0]));
      if n != s then n else Attempt(s, issues[1..])
  }
}
