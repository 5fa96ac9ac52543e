/**
 The membership calls as the service makes them, each a whole transaction on
 the table it updates in place, and their relation to the interleaved system.
 Models src/arie/members.py.
 */
module TenantCalls {
  import opened Tenancy

  datatype Verdict = CannotActOnSelf | NoSuchMember | LastOwner | Done

  /** What update_member_role or remove_member answers. */
  function Judge(m: Members, o: Org, target: User, c: Change, actor: User): Verdict {
    if target == actor then CannotActOnSelf
    else if (o, target) !in m || !m[(o, target)].active then NoSuchMember
    else if m[(o, target)].role == Owner && Demotes(c) && |Owners(m, o)| <= 1 then LastOwner
    else Done
  }

  /** Some other member of the organization is an active owner. */
  ghost predicate AnotherOwns(m: Members, o: Org, target: User) {
    exists u: User :: u != target && (o, u) in m && m[(o, u)].active && m[(o, u)].role == Owner
  }

  /** Each answer, exactly: oneself is refused first, then an absent or inactive target; the last active owner can be
      neither removed nor given another role; everything else is done. */
  lemma EachVerdictIff(m: Members, o: Org, target: User, c: Change, actor: User)
    ensures var v := Judge(m, o, target, c, actor);
            var present := (o, target) in m && m[(o, target)].active;
            var gives := present && m[(o, target)].role == Owner && (c.Remove? || c.role != Owner);
            && (v == CannotActOnSelf <==> target == actor)
            && (v == NoSuchMember <==> target != actor && !present)
            && (v == LastOwner <==> target != actor && gives && !AnotherOwns(m, o, target))
            && (v == Done <==> target != actor && present && (gives ==> AnotherOwns(m, o, target)))
  {
    CountMeansAnother(m, o, target);
    assert OwnerBesides(m, o, target) <==> AnotherOwns(m, o, target) by {
      if u: User :| u != target && (o, u) in m && m[(o, u)].active && m[(o, u)].role == Owner {
        assert ActiveOwner(m, o, u);
      }
    }
  }

  class MemberTable {
    var rows: Members

    constructor (m: Members)
      ensures rows == m
    {
      rows := m;
    }

    /** Either nothing changes, or exactly the target's row does; an organization with an owner keeps one. */
    method ChangeMember(o: Org, target: User, c: Change, actor: User) returns (v: Verdict)
      modifies this
      ensures v == Judge(old(rows), o, target, c, actor)
      ensures v != Done ==> rows == old(rows)
      ensures v == Done ==> (o, target) in old(rows) && rows == Apply(old(rows), o, target, c)
      ensures forall p: Org :: HasOwner(old(rows), p) ==> HasOwner(rows, p)
    {
      if target == actor { return CannotActOnSelf; }
      if (o, target) !in rows || !rows[(o, target)].active { return NoSuchMember; }
      if rows[(o, target)].role == Owner && Demotes(c) {
        var owners := Owners(rows, o);
        if |owners| <= 1 { return LastOwner; }
      }
      ghost var before := rows;
      rows := rows[(o, target) :=
        if c.Remove? then rows[(o, target)].(active := false) else rows[(o, target)].(role := c.role)];
      CountMeansAnother(before, o, target);
      OwnersAfterChange(before, o, target, c);
      v := Done;
    }

    method UpdateMemberRole(o: Org, target: User, role: Role, actor: User) returns (v: Verdict)
      modifies this
      ensures v == Judge(old(rows), o, target, SetRole(role), actor)
      ensures rows == if v == Done then old(rows)[(o, target) := Member(role, true)] else old(rows)
      ensures forall p: Org :: HasOwner(old(rows), p) ==> HasOwner(rows, p)
    {
      v := ChangeMember(o, target, SetRole(role), actor);
    }

    method RemoveMember(o: Org, target: User, actor: User) returns (v: Verdict)
      modifies this
      ensures v == Judge(old(rows), o, target, Remove, actor)
      ensures v != Done ==> rows == old(rows)
      ensures v == Done ==> (o, target) in old(rows)
      ensures v == Done ==> rows == old(rows)[(o, target) := old(rows)[(o, target)].(active := false)]
      ensures forall p: Org :: HasOwner(old(rows), p) ==> HasOwner(rows, p)
    {
      v := ChangeMember(o, target, Remove, actor);
    }
  }

  lemma OwnersAfterChange(m: Members, o: Org, t: User, c: Change)
    requires (o, t) in m && m[(o, t)].active
    requires m[(o, t)].role == Owner && Demotes(c) ==> OwnerBesides(m, o, t)
    ensures forall p: Org :: HasOwner(m, p) ==> HasOwner(Apply(m, o, t, c), p)
  {
    var n := Apply(m, o, t, c);
    forall p: Org | HasOwner(m, p) ensures HasOwner(n, p) {
      var u: User :| ActiveOwner(m, p, u);
      if (p, u) == (o, t) && Demotes(c) {
        var w :| w != t && ActiveOwner(m, o, w);
        assert ActiveOwner(n, p, w);
      } else {
        assert ActiveOwner(n, p, u);
      }
    }
  }

  /** One membership change run without interruption: its steps in order, stopping when it ends early. */
  function PlayChange(key: Org -> int, s: State, tx: Tx, o: Org, t: User, c: Change, actor: User): State
    requires tx !in s.txs && t != actor && key(o) !in s.advisory
  {
    var started := Next(key, s, StartChange(tx, o, t, c, actor));
    var locked := Next(key, started, TakeLock(tx));
    var seen := Next(key, locked, ReadTarget(tx));
    if tx !in seen.txs then seen else PlayChecked(key, seen, tx)
  }

  function PlayChecked(key: Org -> int, seen: State, tx: Tx): State
    requires Enabled(key, seen, CountOwners(tx))
  {
    var counted := Next(key, seen, CountOwners(tx));
    if tx !in counted.txs then counted else Next(key, counted, CommitChange(tx))
  }

  predicate HoldsNothing(s: State, tx: Tx) {
    && tx !in s.txs
    && (forall k :: k in s.advisory ==> s.advisory[k] != tx)
    && (forall i :: i in s.rowLocks ==> s.rowLocks[i] != tx)
  }

  lemma FinishUndoes(s: State, tx: Tx, p: Program, k: int)
    requires HoldsNothing(s, tx) && k !in s.advisory
    ensures Finish(s.(txs := s.txs[tx := p], advisory := s.advisory[k := tx]), tx) == s
  {
    var n := Finish(s.(txs := s.txs[tx := p], advisory := s.advisory[k := tx]), tx);
    assert n.txs == s.txs && n.rowLocks == s.rowLocks;
    var taken := s.advisory[k := tx];
    assert n.advisory.Keys == s.advisory.Keys by {
      forall j: int ensures j in n.advisory <==> j in s.advisory {
        if j in s.advisory { assert taken[j] != tx; }
      }
    }
  }

  lemma LockTaken(key: Org -> int, s: State, tx: Tx, o: Org, t: User, c: Change, actor: User)
    requires tx !in s.txs && t != actor && key(o) !in s.advisory
    ensures Next(key, Next(key, s, StartChange(tx, o, t, c, actor)), TakeLock(tx)) ==
            s.(txs := s.txs[tx := Changing(o, t, c, Locked)], advisory := s.advisory[key(o) := tx])
  {
    assert s.txs[tx := Changing(o, t, c, Waiting)][tx := Changing(o, t, c, Locked)] ==
      s.txs[tx := Changing(o, t, c, Locked)];
  }

  lemma TargetSeen(key: Org -> int, s: State, locked: State, tx: Tx, p: Program)
    requires p.Changing? && p.at == Locked && (p.org, p.target) in s.members && s.members[(p.org, p.target)].active
    requires locked == s.(txs := s.txs[tx := p], advisory := s.advisory[key(p.org) := tx])
    ensures Next(key, locked, ReadTarget(tx)) ==
            locked.(txs := s.txs[tx := p.(at := Seen(s.members[(p.org, p.target)].role))])
  {
    var q := p.(at := Seen(s.members[(p.org, p.target)].role));
    assert s.txs[tx := p][tx := q] == s.txs[tx := q];
  }

  /** Run without interruption, the transaction of the interleaved system does what the call does, and leaves
      no lock and no program behind. */
  lemma UninterruptedChangeIsTheCall(key: Org -> int, s: State, tx: Tx, o: Org, t: User, c: Change, actor: User)
    requires HoldsNothing(s, tx) && t != actor && key(o) !in s.advisory
    ensures PlayChange(key, s, tx, o, t, c, actor) ==
            if Judge(s.members, o, t, c, actor) == Done then s.(members := Apply(s.members, o, t, c)) else s
  {
    var p := Changing(o, t, c, Locked);
    var locked := s.(txs := s.txs[tx := p], advisory := s.advisory[key(o) := tx]);
    LockTaken(key, s, tx, o, t, c, actor);
    if (o, t) in s.members && s.members[(o, t)].active {
      var q := p.(at := Seen(s.members[(o, t)].role));
      TargetSeen(key, s, locked, tx, p);
      CheckedChangeIsTheCall(key, s, locked.(txs := s.txs[tx := q]), tx, q, actor);
    } else {
      FinishUndoes(s, tx, p, key(o));
    }
  }

  lemma CheckedChangeIsTheCall(key: Org -> int, s: State, seen: State, tx: Tx, q: Program, actor: User)
    requires HoldsNothing(s, tx) && q.Changing? && key(q.org) !in s.advisory && q.target != actor
    requires (q.org, q.target) in s.members && s.members[(q.org, q.target)].active
    requires q.at == Seen(s.members[(q.org, q.target)].role)
    requires seen == s.(txs := s.txs[tx := q], advisory := s.advisory[key(q.org) := tx])
    ensures PlayChecked(key, seen, tx) ==
            if Judge(s.members, q.org, q.target, q.change, actor) == Done
            then s.(members := Apply(s.members, q.org, q.target, q.change)) else s
  {
    FinishUndoes(s, tx, q, key(q.org));
    var r := q.(at := Cleared);
    assert s.txs[tx := q][tx := r] == s.txs[tx := r];
    FinishUndoes(s.(members := Apply(s.members, q.org, q.target, q.change)), tx, r, key(q.org));
  }
}
