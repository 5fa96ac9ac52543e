/**
 Membership changes and invitations of every organization as one system of
 interleaved transactions. Each request is a small program; one step runs one
 statement group of one transaction against the committed tables. A write and
 the commit that publishes it are one step: between the two the written rows
 are locked and nobody else sees them.
 Models src/arie/members.py, src/arie/invitations.py and the owner row of
 src/arie/provisioning.py.
 */
module Tenancy {

  type Org = nat
  type User = nat
  type Email = nat     // a normalized address
  type Token = nat     // the hash of a raw token
  type Tx = nat

  datatype Option<+T> = None | Some(value: T)

  datatype Role = Owner | Admin | AnalystReviewer

  datatype Member = Member(role: Role, active: bool)

  type Members = map<(Org, User), Member>

  datatype Status = Pending | Accepted | Revoked | Expired

  datatype Invitation = Invitation(
    org: Org, email: Email, role: Role, token: Token, status: Status, expiresAt: nat, acceptedAt: Option<nat>)

  const SEVEN_DAYS := 7 * 86_400

  /** update_member_role or remove_member. */
  datatype Change = SetRole(role: Role) | Remove

  datatype Program =
    | Changing(org: Org, target: User, change: Change, at: ChangePoint)
    | Accepting(token: Token, email: Email, user: User, startedAt: nat, where: AcceptPoint)
    | Inviting(iorg: Org, iemail: Email, irole: Role, prechecked: bool)

  datatype ChangePoint = Waiting | Locked | Seen(previous: Role) | Cleared
  datatype AcceptPoint = Unread | Read(inv: nat) | Verified(inv: nat, checkedAt: nat)

  datatype State = State(
    orgs: set<Org>,
    members: Members,
    invitations: map<nat, Invitation>,
    now: nat,
    advisory: map<int, Tx>,      // advisory locks by key
    rowLocks: map<nat, Tx>,      // row locks by invitation
    txs: map<Tx, Program>)

  datatype Step =
    | Tick(delta: nat)
    | Provision(o: Org, owner: User)
    | StartChange(tx: Tx, o: Org, target: User, change: Change, actor: User)
    | TakeLock(tx: Tx)
    | ReadTarget(tx: Tx)
    | CountOwners(tx: Tx)
    | CommitChange(tx: Tx)
    | StartAccept(tx: Tx, token: Token, email: Email, user: User)
    | ReadInvitation(tx: Tx, inv: nat)
    | CheckInvitation(tx: Tx)
    | CommitAccept(tx: Tx)
    | StartInvite(tx: Tx, o: Org, email: Email, role: Role)
    | PrecheckInvite(tx: Tx)
    | CommitInvite(tx: Tx, id: nat, token: Token)
    | Revoke(o: Org, inv: nat)
    | Abort(tx: Tx)

  // ---------------------------------------------------------------- queries --

  predicate ActiveOwner(m: Members, o: Org, u: User) {
    (o, u) in m && m[(o, u)] == Member(Owner, true)
  }

  function Owners(m: Members, o: Org): set<(Org, User)> {
    set k | k in m && k.0 == o && m[k] == Member(Owner, true)
  }

  ghost predicate HasOwner(m: Members, o: Org) {
    exists u :: ActiveOwner(m, o, u)
  }

  ghost predicate OwnerBesides(m: Members, o: Org, t: User) {
    exists u :: u != t && ActiveOwner(m, o, u)
  }

  /** Whether a change takes ownership away from an owner. */
  predicate Demotes(c: Change) {
    c.Remove? || c.role != Owner
  }

  function Apply(m: Members, o: Org, u: User, c: Change): Members
    requires (o, u) in m
  {
    m[(o, u) := if c.Remove? then m[(o, u)].(active := false) else m[(o, u)].(role := c.role)]
  }

  /** The transaction ends: its program is gone and its locks are released. */
  function Finish(s: State, tx: Tx): State {
    s.(txs := s.txs - {tx},
       advisory := map k | k in s.advisory && s.advisory[k] != tx :: s.advisory[k],
       rowLocks := map i | i in s.rowLocks && s.rowLocks[i] != tx :: s.rowLocks[i])
  }

  predicate PendingFor(s: State, i: nat, o: Org, e: Email) {
    i in s.invitations && s.invitations[i].org == o && s.invitations[i].email == e && s.invitations[i].status == Pending
  }

  predicate NoPending(s: State, o: Org, e: Email) {
    forall i :: i in s.invitations ==> !PendingFor(s, i, o, e)
  }

  predicate TokenFree(s: State, t: Token) {
    forall i :: i in s.invitations ==> s.invitations[i].token != t
  }

  predicate IsChanging(s: State, tx: Tx) { tx in s.txs && s.txs[tx].Changing? }
  predicate IsAccepting(s: State, tx: Tx) { tx in s.txs && s.txs[tx].Accepting? }
  predicate IsInviting(s: State, tx: Tx) { tx in s.txs && s.txs[tx].Inviting? }

  // ------------------------------------------------------------------ steps --

  /** When a step can run; `key` maps an organization to its advisory lock key, not necessarily injectively. */
  predicate Enabled(key: Org -> int, s: State, step: Step) {
    match step
    case Tick(_) => true
    case Provision(o, _) => o !in s.orgs
    case StartChange(tx, _, target, _, actor) => tx !in s.txs && target != actor
    case TakeLock(tx) => IsChanging(s, tx) && s.txs[tx].at == Waiting && key(s.txs[tx].org) !in s.advisory
    case ReadTarget(tx) => IsChanging(s, tx) && s.txs[tx].at == Locked
    case CountOwners(tx) => IsChanging(s, tx) && s.txs[tx].at.Seen?
    case CommitChange(tx) => IsChanging(s, tx) && s.txs[tx].at == Cleared
    case StartAccept(tx, _, _, _) => tx !in s.txs
    case ReadInvitation(tx, i) =>
      IsAccepting(s, tx) && s.txs[tx].where == Unread
      && i in s.invitations && s.invitations[i].token == s.txs[tx].token && i !in s.rowLocks
    case CheckInvitation(tx) => IsAccepting(s, tx) && s.txs[tx].where.Read? && s.txs[tx].where.inv in s.invitations
    case CommitAccept(tx) => IsAccepting(s, tx) && s.txs[tx].where.Verified? && s.txs[tx].where.inv in s.invitations
    case StartInvite(tx, o, _, _) => tx !in s.txs && o in s.orgs
    case PrecheckInvite(tx) => IsInviting(s, tx) && !s.txs[tx].prechecked
    case CommitInvite(tx, id, _) => IsInviting(s, tx) && s.txs[tx].prechecked && id !in s.invitations
    case Revoke(_, i) => i !in s.rowLocks
    case Abort(tx) => tx in s.txs
  }

  function ReadTargetStep(s: State, tx: Tx): State
    requires IsChanging(s, tx)
  {
    var p := s.txs[tx];
    if (p.org, p.target) in s.members && s.members[(p.org, p.target)].active
    then s.(txs := s.txs[tx := p.(at := Seen(s.members[(p.org, p.target)].role))])
    else Finish(s, tx)
  }

  /** The last-owner guard: only a demotion of somebody read as owner counts, and refuses at one. */
  function CountOwnersStep(s: State, tx: Tx): State
    requires IsChanging(s, tx) && s.txs[tx].at.Seen?
  {
    var p := s.txs[tx];
    if p.at.previous == Owner && Demotes(p.change) && |Owners(s.members, p.org)| <= 1
    then Finish(s, tx)
    else s.(txs := s.txs[tx := p.(at := Cleared)])
  }

  function CommitChangeStep(s: State, tx: Tx): State
    requires IsChanging(s, tx)
  {
    var p := s.txs[tx];
    if (p.org, p.target) in s.members && s.members[(p.org, p.target)].active
    then Finish(s.(members := Apply(s.members, p.org, p.target, p.change)), tx)
    else Finish(s, tx)
  }

  function ReadInvitationStep(s: State, tx: Tx, i: nat): State
    requires IsAccepting(s, tx) && i in s.invitations
  {
    if s.invitations[i].status != Pending then Finish(s, tx)
    else s.(txs := s.txs[tx := s.txs[tx].(where := Read(i))], rowLocks := s.rowLocks[i := tx])
  }

  function CheckInvitationStep(s: State, tx: Tx): State
    requires IsAccepting(s, tx) && s.txs[tx].where.Read? && s.txs[tx].where.inv in s.invitations
  {
    var p := s.txs[tx];
    var inv := s.invitations[p.where.inv];
    if inv.expiresAt <= s.now
    then Finish(s.(invitations := s.invitations[p.where.inv := inv.(status := Expired)]), tx)
    else if p.email != inv.email then Finish(s, tx)
    else s.(txs := s.txs[tx := p.(where := Verified(p.where.inv, s.now))])
  }

  /** Upsert the membership and mark the invitation accepted, stamped with the transaction's start. */
  function CommitAcceptStep(s: State, tx: Tx): State
    requires IsAccepting(s, tx) && s.txs[tx].where.Verified? && s.txs[tx].where.inv in s.invitations
  {
    var p := s.txs[tx];
    var inv := s.invitations[p.where.inv];
    var accepted := inv.(status := Accepted, acceptedAt := Some(p.startedAt));
    Finish(s.(members := s.members[(inv.org, p.user) := Member(inv.role, true)],
              invitations := s.invitations[p.where.inv := accepted]), tx)
  }

  function WithInvitation(s: State, id: nat, inv: Invitation): State {
    s.(invitations := s.invitations[id := inv])
  }

  function Offer(p: Program, token: Token, now: nat): Invitation
    requires p.Inviting?
  {
    Invitation(p.iorg, p.iemail, p.irole, token, Pending, now + SEVEN_DAYS, None)
  }

  /** The unique indexes decide: one pending row per organization and address, one row per token. */
  function CommitInviteStep(s: State, tx: Tx, id: nat, token: Token): State
    requires IsInviting(s, tx)
  {
    var p := s.txs[tx];
    if NoPending(s, p.iorg, p.iemail) && TokenFree(s, token)
    then Finish(WithInvitation(s, id, Offer(p, token, s.now)), tx)
    else Finish(s, tx)
  }

  function Next(key: Org -> int, s: State, step: Step): State
    requires Enabled(key, s, step)
  {
    match step
    case Tick(delta) => s.(now := s.now + delta)
    case Provision(o, u) => s.(orgs := s.orgs + {o}, members := s.members[(o, u) := Member(Owner, true)])
    case StartChange(tx, o, t, c, _) => s.(txs := s.txs[tx := Changing(o, t, c, Waiting)])
    case TakeLock(tx) =>
      s.(advisory := s.advisory[key(s.txs[tx].org) := tx], txs := s.txs[tx := s.txs[tx].(at := Locked)])
    case ReadTarget(tx) => ReadTargetStep(s, tx)
    case CountOwners(tx) => CountOwnersStep(s, tx)
    case CommitChange(tx) => CommitChangeStep(s, tx)
    case StartAccept(tx, t, e, u) => s.(txs := s.txs[tx := Accepting(t, e, u, s.now, Unread)])
    case ReadInvitation(tx, i) => ReadInvitationStep(s, tx, i)
    case CheckInvitation(tx) => CheckInvitationStep(s, tx)
    case CommitAccept(tx) => CommitAcceptStep(s, tx)
    case StartInvite(tx, o, e, r) => s.(txs := s.txs[tx := Inviting(o, e, r, false)])
    case PrecheckInvite(tx) =>
      if NoPending(s, s.txs[tx].iorg, s.txs[tx].iemail)
      then s.(txs := s.txs[tx := s.txs[tx].(prechecked := true)]) else Finish(s, tx)
    case CommitInvite(tx, id, token) => CommitInviteStep(s, tx, id, token)
    case Revoke(o, i) =>
      if i in s.invitations && s.invitations[i].org == o && s.invitations[i].status == Pending
      then s.(invitations := s.invitations[i := s.invitations[i].(status := Revoked)]) else s
    case Abort(tx) => Finish(s, tx)
  }

  const EMPTY := State({}, map[], map[], 0, map[], map[], map[])

  /** A run: the states visited, one more than the steps taken. */
  ghost predicate IsRun(key: Org -> int, ss: seq<State>, steps: seq<Step>) {
    && |ss| == |steps| + 1
    && ss[0] == EMPTY
    && forall i :: 0 <= i < |steps| ==> Enabled(key, ss[i], steps[i]) && ss[i + 1] == Next(key, ss[i], steps[i])
  }

  // ------------------------------------------------- an owner always remains --

  /** The acceptance about to commit takes ownership from an active owner. */
  predicate LowersOwner(s: State, step: Step) {
    step.CommitAccept? && IsAccepting(s, step.tx) && s.txs[step.tx].where.Verified?
    && s.txs[step.tx].where.inv in s.invitations
    && var inv := s.invitations[s.txs[step.tx].where.inv];
       inv.role != Owner && ActiveOwner(s.members, inv.org, s.txs[step.tx].user)
  }

  predicate PastLock(s: State, tx: Tx) {
    IsChanging(s, tx) && s.txs[tx].at != Waiting
  }

  /** A demotion that is past the owner count, or will skip it because the target was read as no owner. */
  predicate Relies(p: Program) {
    p.Changing? && Demotes(p.change) && (p.at.Cleared? || (p.at.Seen? && p.at.previous != Owner))
  }

  /** What a transaction past its checks relies on until it commits. */
  ghost predicate Guarded(s: State, tx: Tx) {
    IsChanging(s, tx) ==>
      var p := s.txs[tx];
      && (Relies(p) ==> OwnerBesides(s.members, p.org, p.target))
      && (p.at.Seen? || p.at.Cleared? ==>
            (p.org, p.target) in s.members && s.members[(p.org, p.target)].active)
  }

  ghost predicate LocksHeld(key: Org -> int, s: State) {
    forall tx :: PastLock(s, tx) ==> key(s.txs[tx].org) in s.advisory && s.advisory[key(s.txs[tx].org)] == tx
  }

  ghost predicate OrgsKnown(s: State) {
    && (forall k :: k in s.members ==> k.0 in s.orgs)
    && (forall i :: i in s.invitations ==> s.invitations[i].org in s.orgs)
    && (forall tx :: IsInviting(s, tx) ==> s.txs[tx].iorg in s.orgs)
  }

  ghost predicate Owned(s: State) {
    forall o :: o in s.orgs ==> HasOwner(s.members, o)
  }

  ghost predicate OwnerInv(key: Org -> int, s: State) {
    && Owned(s) && OrgsKnown(s) && LocksHeld(key, s)
    && forall tx :: Guarded(s, tx)
  }

  lemma CountMeansAnother(m: Members, o: Org, t: User)
    ensures |Owners(m, o)| > 1 ==> OwnerBesides(m, o, t)
    ensures |Owners(m, o)| <= 1 && ActiveOwner(m, o, t) ==> !OwnerBesides(m, o, t)
  {
    var all := Owners(m, o);
    if |all| > 1 {
      var others := all - {(o, t)};
      assert |others| >= |all| - 1;
      var k :| k in others;
      assert ActiveOwner(m, o, k.1) && k.1 != t;
    }
    if u :| u != t && ActiveOwner(m, o, u) && ActiveOwner(m, o, t) {
      assert {(o, u), (o, t)} <= all;
      assert |{(o, u), (o, t)}| == 2;
      assert |all - {(o, u), (o, t)}| == |all| - 2;
    }
  }

  /** A membership table that keeps every other owner keeps every guarantee that named one of them. */
  ghost predicate KeepsOwnersExcept(m: Members, n: Members, o: Org, t: User) {
    forall p: Org, u: User :: ActiveOwner(m, p, u) && (p, u) != (o, t) ==> ActiveOwner(n, p, u)
  }

  lemma FinishFacts(key: Org -> int, s: State, tx: Tx)
    requires LocksHeld(key, s)
    ensures LocksHeld(key, Finish(s, tx))
    ensures forall t :: t in Finish(s, tx).txs <==> t in s.txs && t != tx
  {
  }

  /** Nothing the owner argument reads has changed, except that membership changes may have started or ended. */
  ghost predicate SameForOwners(s: State, n: State) {
    && n.members == s.members && n.orgs == s.orgs
    && (forall tx :: PastLock(n, tx) ==> PastLock(s, tx) && n.txs[tx] == s.txs[tx])
    && (forall k :: k in s.advisory && PastLock(n, s.advisory[k]) ==> k in n.advisory && n.advisory[k] == s.advisory[k])
  }

  lemma SameForOwnersKeeps(key: Org -> int, s: State, n: State)
    requires OwnerInv(key, s) && SameForOwners(s, n) && OrgsKnown(n)
    ensures OwnerInv(key, n)
  {
    forall tx ensures Guarded(n, tx) {
      assert Guarded(s, tx);
    }
    forall tx | PastLock(n, tx) ensures key(n.txs[tx].org) in n.advisory && n.advisory[key(n.txs[tx].org)] == tx {
      assert PastLock(s, tx);
      var k := key(s.txs[tx].org);
      assert k in s.advisory && PastLock(n, s.advisory[k]);
    }
  }

  lemma FinishIsQuiet(key: Org -> int, s: State, tx: Tx)
    requires OwnerInv(key, s)
    ensures OwnerInv(key, Finish(s, tx))
  {
    SameForOwnersKeeps(key, s, Finish(s, tx));
  }

  lemma StartIsQuiet(key: Org -> int, s: State, step: Step)
    requires OwnerInv(key, s) && Enabled(key, s, step)
    requires step.StartChange? || step.StartAccept? || step.StartInvite?
    ensures OwnerInv(key, Next(key, s, step))
  {
    SameForOwnersKeeps(key, s, Next(key, s, step));
  }

  lemma RevokeIsQuiet(key: Org -> int, s: State, step: Step)
    requires OwnerInv(key, s) && Enabled(key, s, step)
    requires step.Tick? || step.Revoke?
    ensures OwnerInv(key, Next(key, s, step))
  {
    SameForOwnersKeeps(key, s, Next(key, s, step));
  }

  lemma ReadIsQuiet(key: Org -> int, s: State, step: Step)
    requires OwnerInv(key, s) && Enabled(key, s, step) && step.ReadInvitation?
    ensures OwnerInv(key, Next(key, s, step))
  {
    FinishIsQuiet(key, s, step.tx);
    if s.invitations[step.inv].status == Pending { SameForOwnersKeeps(key, s, Next(key, s, step)); }
  }

  lemma PrecheckIsQuiet(key: Org -> int, s: State, step: Step)
    requires OwnerInv(key, s) && Enabled(key, s, step) && step.PrecheckInvite?
    ensures OwnerInv(key, Next(key, s, step))
  {
    FinishIsQuiet(key, s, step.tx);
    var p := s.txs[step.tx];
    SameForOwnersKeeps(key, s, s.(txs := s.txs[step.tx := p.(prechecked := true)]));
  }

  lemma CheckIsQuiet(key: Org -> int, s: State, step: Step)
    requires OwnerInv(key, s) && Enabled(key, s, step) && step.CheckInvitation?
    ensures OwnerInv(key, Next(key, s, step))
  {
    var i := s.txs[step.tx].where.inv;
    var expired := s.(invitations := s.invitations[i := s.invitations[i].(status := Expired)]);
    SameForOwnersKeeps(key, s, expired);
    FinishIsQuiet(key, expired, step.tx);
    FinishIsQuiet(key, s, step.tx);
    if s.now < s.invitations[i].expiresAt && s.txs[step.tx].email == s.invitations[i].email {
      SameForOwnersKeeps(key, s, Next(key, s, step));
    }
  }

  lemma InviteIsQuiet(key: Org -> int, s: State, step: Step)
    requires OwnerInv(key, s) && Enabled(key, s, step) && step.CommitInvite?
    ensures OwnerInv(key, Next(key, s, step))
  {
    var p := s.txs[step.tx];
    assert p.iorg in s.orgs;
    var added := WithInvitation(s, step.id, Offer(p, step.token, s.now));
    SameForOwnersKeeps(key, s, added);
    FinishIsQuiet(key, added, step.tx);
    FinishIsQuiet(key, s, step.tx);
  }

  lemma ProvisionStep(key: Org -> int, s: State, step: Step)
    requires OwnerInv(key, s) && Enabled(key, s, step) && step.Provision?
    ensures OwnerInv(key, Next(key, s, step))
  {
    var n := Next(key, s, step);
    assert ActiveOwner(n.members, step.o, step.owner);
    OwnersSurvive(s, n, step.o, step.owner);
    forall tx ensures Guarded(n, tx) {
      assert Guarded(s, tx);
    }
  }

  /** When nobody loses ownership, no organization and no waiting transaction loses its owner. */
  lemma OwnersSurvive(s: State, n: State, o: Org, t: User)
    requires KeepsOwnersExcept(s.members, n.members, o, t)
    requires ActiveOwner(s.members, o, t) ==> ActiveOwner(n.members, o, t)
    ensures forall p :: HasOwner(s.members, p) ==> HasOwner(n.members, p)
    ensures forall p, v :: OwnerBesides(s.members, p, v) ==> OwnerBesides(n.members, p, v)
  {
    forall p | HasOwner(s.members, p) ensures HasOwner(n.members, p) {
      var u :| ActiveOwner(s.members, p, u);
      assert ActiveOwner(n.members, p, u);
    }
    forall p, v | OwnerBesides(s.members, p, v) ensures OwnerBesides(n.members, p, v) {
      var u :| u != v && ActiveOwner(s.members, p, u);
      assert ActiveOwner(n.members, p, u);
    }
  }

  lemma LockStep(key: Org -> int, s: State, step: Step)
    requires OwnerInv(key, s) && Enabled(key, s, step) && step.TakeLock?
    ensures OwnerInv(key, Next(key, s, step))
  {
    var n := Next(key, s, step);
    forall tx ensures Guarded(n, tx) {
      assert Guarded(s, tx);
    }
    forall tx | PastLock(n, tx) ensures key(n.txs[tx].org) in n.advisory && n.advisory[key(n.txs[tx].org)] == tx {
      if tx != step.tx { assert PastLock(s, tx); }
    }
  }

  /** The locked read: a target that is not an owner leaves some other owner, because there is one. */
  lemma ReadStep(key: Org -> int, s: State, step: Step)
    requires OwnerInv(key, s) && Enabled(key, s, step) && step.ReadTarget?
    ensures OwnerInv(key, Next(key, s, step))
  {
    var n := Next(key, s, step);
    var p := s.txs[step.tx];
    assert PastLock(s, step.tx);
    forall tx ensures Guarded(n, tx) {
      assert Guarded(s, tx);
      if tx == step.tx && IsChanging(n, tx) && Relies(n.txs[tx]) {
        assert p.org in s.orgs;
        var u :| ActiveOwner(s.members, p.org, u);
        assert u != p.target;
      }
    }
    forall tx | PastLock(n, tx) ensures key(n.txs[tx].org) in n.advisory && n.advisory[key(n.txs[tx].org)] == tx {
      assert PastLock(s, tx);
    }
  }

  lemma CountStep(key: Org -> int, s: State, step: Step)
    requires OwnerInv(key, s) && Enabled(key, s, step) && step.CountOwners?
    ensures OwnerInv(key, Next(key, s, step))
  {
    var p := s.txs[step.tx];
    CountMeansAnother(s.members, p.org, p.target);
    if p.at.previous == Owner && Demotes(p.change) && |Owners(s.members, p.org)| <= 1 {
      FinishIsQuiet(key, s, step.tx);
    } else {
      ClearedKeeps(key, s, step.tx);
    }
  }

  /** The count passed: whatever is relied on from here was there already, or was just counted. */
  lemma ClearedKeeps(key: Org -> int, s: State, t: Tx)
    requires OwnerInv(key, s) && IsChanging(s, t) && s.txs[t].at.Seen?
    requires s.txs[t].at.previous == Owner && Demotes(s.txs[t].change) ==>
               OwnerBesides(s.members, s.txs[t].org, s.txs[t].target)
    ensures OwnerInv(key, s.(txs := s.txs[t := s.txs[t].(at := Cleared)]))
  {
    var n := s.(txs := s.txs[t := s.txs[t].(at := Cleared)]);
    assert PastLock(s, t);
    forall tx ensures Guarded(n, tx) {
      assert Guarded(s, tx);
    }
    forall tx | PastLock(n, tx) ensures key(n.txs[tx].org) in n.advisory && n.advisory[key(n.txs[tx].org)] == tx {
      assert PastLock(s, tx);
    }
  }

  /** The commit: the other owner found under the lock is still there, and no other
      transaction of the organization is past its lock. */
  lemma CommitChangeKeeps(key: Org -> int, s: State, step: Step)
    requires OwnerInv(key, s) && Enabled(key, s, step) && step.CommitChange?
    ensures OwnerInv(key, Next(key, s, step))
  {
    var n := Next(key, s, step);
    var p := s.txs[step.tx];
    assert PastLock(s, step.tx) && Guarded(s, step.tx);
    assert KeepsOwnersExcept(s.members, n.members, p.org, p.target);
    if Demotes(p.change) {
      forall o | o in n.orgs ensures HasOwner(n.members, o) {
        if o == p.org {
          var u :| u != p.target && ActiveOwner(s.members, p.org, u);
          assert ActiveOwner(n.members, o, u);
        } else {
          var u :| ActiveOwner(s.members, o, u);
          assert ActiveOwner(n.members, o, u);
        }
      }
    } else {
      OwnersSurvive(s, n, p.org, p.target);
    }
    FinishFacts(key, s.(members := n.members), step.tx);
    forall tx ensures Guarded(n, tx) {
      OtherGuarded(key, s, step, tx);
    }
  }

  lemma OtherGuarded(key: Org -> int, s: State, step: Step, tx: Tx)
    requires OwnerInv(key, s) && Enabled(key, s, step) && step.CommitChange?
    ensures Guarded(Next(key, s, step), tx)
  {
    var n := Next(key, s, step);
    if IsChanging(n, tx) && n.txs[tx].at != Waiting && n.txs[tx].at != Locked {
      assert Guarded(s, tx) && PastLock(s, tx) && PastLock(s, step.tx);
      var p, q := s.txs[step.tx], s.txs[tx];
      assert q.org != p.org;
      if OwnerBesides(s.members, q.org, q.target) {
        var u :| u != q.target && ActiveOwner(s.members, q.org, u);
        assert ActiveOwner(n.members, q.org, u);
      }
    }
  }

  // ------------------------------------------------------ safe acceptances --

  ghost predicate OwnerBesidesBoth(m: Members, o: Org, t: User, u: User) {
    exists w :: w != t && w != u && ActiveOwner(m, o, w)
  }

  /** The acceptance about to commit takes ownership from nobody, or from somebody the organization and every
      demotion in flight in it can do without. */
  ghost predicate AcceptSafe(s: State, step: Step) {
    LowersOwner(s, step) ==>
      var o, u := s.invitations[s.txs[step.tx].where.inv].org, s.txs[step.tx].user;
      && OwnerBesides(s.members, o, u)
      && forall t :: t in s.txs && Relies(s.txs[t]) && s.txs[t].org == o ==>
           OwnerBesidesBoth(s.members, o, s.txs[t].target, u)
  }

  lemma AcceptRaises(key: Org -> int, s: State, step: Step)
    requires OwnerInv(key, s) && Enabled(key, s, step) && step.CommitAccept? && !LowersOwner(s, step)
    ensures OwnerInv(key, Next(key, s, step))
  {
    var n := Next(key, s, step);
    var p := s.txs[step.tx];
    var inv := s.invitations[p.where.inv];
    OwnersSurvive(s, n, inv.org, p.user);
    AcceptKeepsLocks(key, s, step.tx);
    AcceptKeepsOrgs(s, step.tx);
    forall tx ensures Guarded(n, tx) {
      assert Guarded(s, tx);
    }
  }

  /** After a lowering acceptance the owners are those of before without the accepting user. */
  lemma OwnersAfterLowering(key: Org -> int, s: State, step: Step)
    requires Enabled(key, s, step) && LowersOwner(s, step)
    ensures var o, x := s.invitations[s.txs[step.tx].where.inv].org, s.txs[step.tx].user;
            forall p: Org, u: User ::
              ActiveOwner(Next(key, s, step).members, p, u) <==> ActiveOwner(s.members, p, u) && (p, u) != (o, x)
  {
  }

  lemma LoweringKeepsOwned(key: Org -> int, s: State, step: Step)
    requires OwnerInv(key, s) && Enabled(key, s, step) && LowersOwner(s, step)
    ensures var o, x := s.invitations[s.txs[step.tx].where.inv].org, s.txs[step.tx].user;
            Owned(Next(key, s, step)) <==> OwnerBesides(s.members, o, x)
  {
    var n := Next(key, s, step);
    var o, x := s.invitations[s.txs[step.tx].where.inv].org, s.txs[step.tx].user;
    OwnersAfterLowering(key, s, step);
    assert o in n.orgs;
    if OwnerBesides(s.members, o, x) {
      forall p: Org | p in n.orgs ensures HasOwner(n.members, p) {
        var u: User :| ActiveOwner(s.members, p, u) && (p == o ==> u != x);
        assert ActiveOwner(n.members, p, u);
      }
    } else {
      forall u: User ensures !ActiveOwner(n.members, o, u) {
      }
    }
  }

  lemma LoweringKeepsGuard(key: Org -> int, s: State, step: Step, t: Tx)
    requires OwnerInv(key, s) && Enabled(key, s, step) && LowersOwner(s, step) && t != step.tx
    ensures var o, x := s.invitations[s.txs[step.tx].where.inv].org, s.txs[step.tx].user;
            Guarded(Next(key, s, step), t) <==>
            (t in s.txs && Relies(s.txs[t]) && s.txs[t].org == o ==> OwnerBesidesBoth(s.members, o, s.txs[t].target, x))
  {
    var n := Next(key, s, step);
    var o, x := s.invitations[s.txs[step.tx].where.inv].org, s.txs[step.tx].user;
    OwnersAfterLowering(key, s, step);
    assert Guarded(s, t);
    if t in s.txs && Relies(s.txs[t]) {
      var p := s.txs[t];
      if p.org == o {
        BesidesAfterLowering(s.members, n.members, o, x, p.target);
      } else {
        var w: User :| w != p.target && ActiveOwner(s.members, p.org, w);
        assert ActiveOwner(n.members, p.org, w);
      }
    }
  }

  lemma BesidesAfterLowering(m: Members, n: Members, o: Org, x: User, t: User)
    requires forall u: User :: ActiveOwner(n, o, u) <==> ActiveOwner(m, o, u) && u != x
    ensures OwnerBesides(n, o, t) <==> OwnerBesidesBoth(m, o, t, x)
  {
    if OwnerBesides(n, o, t) {
      var w :| w != t && ActiveOwner(n, o, w);
      assert w != t && w != x && ActiveOwner(m, o, w);
    }
    if OwnerBesidesBoth(m, o, t, x) {
      var w :| w != t && w != x && ActiveOwner(m, o, w);
      assert ActiveOwner(n, o, w);
    }
  }

  /** After a lowering acceptance the invariant is down to the owners and to what the other transactions rely on. */
  lemma LoweringKeepsRest(key: Org -> int, s: State, step: Step)
    requires OwnerInv(key, s) && Enabled(key, s, step) && step.CommitAccept? && LowersOwner(s, step)
    ensures var n := Next(key, s, step);
            OwnerInv(key, n) <==> Owned(n) && forall t :: t != step.tx ==> Guarded(n, t)
  {
    AcceptKeepsLocks(key, s, step.tx);
    AcceptKeepsOrgs(s, step.tx);
    assert step.tx !in Next(key, s, step).txs;
  }

  lemma AcceptKeepsLocks(key: Org -> int, s: State, tx: Tx)
    requires LocksHeld(key, s) && IsAccepting(s, tx)
    requires s.txs[tx].where.Verified? && s.txs[tx].where.inv in s.invitations
    ensures LocksHeld(key, CommitAcceptStep(s, tx))
  {
    var n := CommitAcceptStep(s, tx);
    forall t | PastLock(n, t) ensures key(n.txs[t].org) in n.advisory && n.advisory[key(n.txs[t].org)] == t {
      assert PastLock(s, t);
    }
  }

  lemma AcceptKeepsOrgs(s: State, tx: Tx)
    requires OrgsKnown(s) && IsAccepting(s, tx) && s.txs[tx].where.Verified? && s.txs[tx].where.inv in s.invitations
    ensures OrgsKnown(CommitAcceptStep(s, tx))
  {
  }

  lemma LoweringKeepsIff(key: Org -> int, s: State, step: Step)
    requires OwnerInv(key, s) && Enabled(key, s, step) && step.CommitAccept? && LowersOwner(s, step)
    ensures OwnerInv(key, Next(key, s, step)) <==> AcceptSafe(s, step)
  {
    LoweringKeepsRest(key, s, step);
    LoweringKeepsOwned(key, s, step);
    var o, x := s.invitations[s.txs[step.tx].where.inv].org, s.txs[step.tx].user;
    forall t | t != step.tx
      ensures Guarded(Next(key, s, step), t) <==>
              (t in s.txs && Relies(s.txs[t]) && s.txs[t].org == o ==>
                 OwnerBesidesBoth(s.members, o, s.txs[t].target, x)) {
      LoweringKeepsGuard(key, s, step, t);
    }
  }

  /** An acceptance keeps what the other transactions rely on exactly when it is safe. */
  lemma AcceptKeepsIff(key: Org -> int, s: State, step: Step)
    requires OwnerInv(key, s) && Enabled(key, s, step) && step.CommitAccept?
    ensures OwnerInv(key, Next(key, s, step)) <==> AcceptSafe(s, step)
  {
    if LowersOwner(s, step) { LoweringKeepsIff(key, s, step); } else { AcceptRaises(key, s, step); }
  }

  /** What a step needs so that no owner is lost; only acceptances can fail it. */
  ghost predicate Safe(s: State, step: Step) {
    step.CommitAccept? ==> AcceptSafe(s, step)
  }

  lemma StepKeepsOwners(key: Org -> int, s: State, step: Step)
    requires OwnerInv(key, s) && Enabled(key, s, step) && Safe(s, step)
    ensures OwnerInv(key, Next(key, s, step))
  {
    match step
    case Provision(_, _) => ProvisionStep(key, s, step);
    case TakeLock(_) => LockStep(key, s, step);
    case ReadTarget(_) => ReadStep(key, s, step);
    case CountOwners(_) => CountStep(key, s, step);
    case CommitChange(_) => CommitChangeKeeps(key, s, step);
    case CommitAccept(_) => AcceptKeepsIff(key, s, step);
    case ReadInvitation(_, _) => ReadIsQuiet(key, s, step);
    case CheckInvitation(_) => CheckIsQuiet(key, s, step);
    case PrecheckInvite(_) => PrecheckIsQuiet(key, s, step);
    case CommitInvite(_, _, _) => InviteIsQuiet(key, s, step);
    case Abort(tx) => FinishIsQuiet(key, s, tx);
    case Tick(_) => RevokeIsQuiet(key, s, step);
    case Revoke(_, _) => RevokeIsQuiet(key, s, step);
    case _ => StartIsQuiet(key, s, step);
  }

  /** States visited from any state on. */
  ghost predicate IsPath(key: Org -> int, ss: seq<State>, steps: seq<Step>) {
    && |ss| == |steps| + 1
    && forall i :: 0 <= i < |steps| ==> Enabled(key, ss[i], steps[i]) && ss[i + 1] == Next(key, ss[i], steps[i])
  }

  ghost predicate SafePath(key: Org -> int, ss: seq<State>, steps: seq<Step>) {
    IsPath(key, ss, steps) && forall i :: 0 <= i < |steps| ==> Safe(ss[i], steps[i])
  }

  lemma {:induction false} SafePathKeeps(key: Org -> int, ss: seq<State>, steps: seq<Step>, i: nat)
    requires SafePath(key, ss, steps) && OwnerInv(key, ss[0]) && i < |ss|
    ensures OwnerInv(key, ss[i])
  {
    if i > 0 {
      SafePathKeeps(key, ss, steps, i - 1);
      StepKeepsOwners(key, ss[i - 1], steps[i - 1]);
    }
  }

  /** In every interleaving whose acceptances are safe, every provisioned organization has an active owner at every
      moment, whatever the lock keys are. */
  lemma OwnersAlwaysRemain(key: Org -> int, ss: seq<State>, steps: seq<Step>, i: nat)
    requires IsRun(key, ss, steps) && i < |ss|
    requires forall j :: 0 <= j < i ==> Safe(ss[j], steps[j])
    ensures OwnerInv(key, ss[i])
    ensures forall o :: o in ss[i].orgs ==> HasOwner(ss[i].members, o)
  {
    SafePathKeeps(key, ss[..i + 1], steps[..i], i);
  }

  // ----------------------------------------------------- unsafe acceptances --

  /** A demotion relying on an owner besides its target, where there is none, takes the last owner when it commits. */
  lemma ReliantDemotionStrands(key: Org -> int, s: State, t: Tx)
    requires t in s.txs && Relies(s.txs[t]) && s.txs[t].at.Cleared?
    requires (s.txs[t].org, s.txs[t].target) in s.members && s.members[(s.txs[t].org, s.txs[t].target)].active
    requires !OwnerBesides(s.members, s.txs[t].org, s.txs[t].target)
    ensures Enabled(key, s, CommitChange(t)) && !HasOwner(Next(key, s, CommitChange(t)).members, s.txs[t].org)
    ensures Next(key, s, CommitChange(t)).orgs == s.orgs
  {
    var p := s.txs[t];
    var n := Next(key, s, CommitChange(t));
    forall u ensures !ActiveOwner(n.members, p.org, u) {
      assert u != p.target ==> !ActiveOwner(s.members, p.org, u);
    }
  }

  /** Its way there: at most the skipped count, then the commit, neither of them an acceptance. */
  lemma ReliantDemotionRuns(key: Org -> int, s: State, t: Tx) returns (ss: seq<State>, steps: seq<Step>)
    requires t in s.txs && Relies(s.txs[t]) && s.txs[t].org in s.orgs
    requires (s.txs[t].org, s.txs[t].target) in s.members && s.members[(s.txs[t].org, s.txs[t].target)].active
    requires !OwnerBesides(s.members, s.txs[t].org, s.txs[t].target)
    ensures SafePath(key, ss, steps) && ss[0] == s && !Owned(ss[|steps|])
  {
    var o := s.txs[t].org;
    if s.txs[t].at.Cleared? {
      ReliantDemotionStrands(key, s, t);
      ss, steps := [s, Next(key, s, CommitChange(t))], [CommitChange(t)];
    } else {
      var c := Next(key, s, CountOwners(t));
      assert c.members == s.members && c.txs[t] == s.txs[t].(at := Cleared);
      ReliantDemotionStrands(key, c, t);
      ss, steps := [s, c, Next(key, c, CommitChange(t))], [CountOwners(t), CommitChange(t)];
    }
    assert o in ss[|steps|].orgs && !HasOwner(ss[|steps|].members, o);
  }

  /** A demotion in flight that an unsafe acceptance leaves without the owner it relies on. */
  lemma LeftBehind(key: Org -> int, s: State, step: Step, t: Tx)
    requires OwnerInv(key, s) && Enabled(key, s, step) && step.CommitAccept? && LowersOwner(s, step)
    requires var o, x := s.invitations[s.txs[step.tx].where.inv].org, s.txs[step.tx].user;
             t in s.txs && Relies(s.txs[t]) && s.txs[t].org == o && !OwnerBesidesBoth(s.members, o, s.txs[t].target, x)
    ensures var n := Next(key, s, step); var p := s.txs[t];
            && t in n.txs && n.txs[t] == p && p.org in n.orgs
            && (p.org, p.target) in n.members && n.members[(p.org, p.target)].active
            && !OwnerBesides(n.members, p.org, p.target)
  {
    assert Guarded(s, t);
    OwnersAfterLowering(key, s, step);
    BesidesAfterLowering(s.members, Next(key, s, step).members, s.txs[t].org, s.txs[step.tx].user, s.txs[t].target);
  }

  /** An unsafe acceptance leaves an organization without owner at once, or lets a demotion already in flight do so. */
  lemma UnsafeAcceptanceStrands(key: Org -> int, s: State, step: Step) returns (ss: seq<State>, steps: seq<Step>)
    requires OwnerInv(key, s) && Enabled(key, s, step) && step.CommitAccept? && !AcceptSafe(s, step)
    ensures SafePath(key, ss, steps) && ss[0] == Next(key, s, step) && !Owned(ss[|steps|])
  {
    var o, x := s.invitations[s.txs[step.tx].where.inv].org, s.txs[step.tx].user;
    LoweringKeepsOwned(key, s, step);
    if !OwnerBesides(s.members, o, x) {
      ss, steps := [Next(key, s, step)], [];
    } else {
      var t :| t in s.txs && Relies(s.txs[t]) && s.txs[t].org == o
        && !OwnerBesidesBoth(s.members, o, s.txs[t].target, x);
      LeftBehind(key, s, step, t);
      ss, steps := ReliantDemotionRuns(key, Next(key, s, step), t);
    }
  }

  /** Safety is exact: an acceptance is safe iff, whatever follows it, no organization loses its owners before
      another unsafe acceptance. */
  lemma AcceptSafeIff(key: Org -> int, s: State, step: Step)
    requires OwnerInv(key, s) && Enabled(key, s, step) && step.CommitAccept?
    ensures AcceptSafe(s, step) <==>
            forall ss, steps :: SafePath(key, ss, steps) && ss[0] == Next(key, s, step) ==> Owned(ss[|steps|])
  {
    if AcceptSafe(s, step) {
      AcceptKeepsIff(key, s, step);
      forall ss, steps | SafePath(key, ss, steps) && ss[0] == Next(key, s, step) ensures Owned(ss[|steps|]) {
        SafePathKeeps(key, ss, steps, |steps|);
      }
    } else {
      var ss, steps := UnsafeAcceptanceStrands(key, s, step);
    }
  }

  /** At once, an acceptance strands its organization exactly when it overwrites the only active owner with a lower
      role. */
  lemma AcceptStrandsIff(key: Org -> int, s: State, step: Step)
    requires OwnerInv(key, s) && Enabled(key, s, step) && step.CommitAccept?
    ensures var p := s.txs[step.tx]; var o := s.invitations[p.where.inv].org;
            !HasOwner(Next(key, s, step).members, o) <==>
            LowersOwner(s, step) && !OwnerBesides(s.members, o, p.user)
  {
    var p := s.txs[step.tx];
    var inv := s.invitations[p.where.inv];
    var n := Next(key, s, step);
    if LowersOwner(s, step) {
      OwnersAfterLowering(key, s, step);
      if OwnerBesides(s.members, inv.org, p.user) {
        var u :| u != p.user && ActiveOwner(s.members, inv.org, u);
        assert ActiveOwner(n.members, inv.org, u);
      }
    } else {
      AcceptRaises(key, s, step);
    }
  }
}
