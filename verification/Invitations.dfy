/**
 The life of an invitation in the interleaved system of Tenancy: what the row
 lock, the unique indexes and the expiry check guarantee over every run.
 Models src/arie/invitations.py with migrations/0024_organization_invitations.sql.
 */
module Invitations {
  import opened Tenancy

  ghost predicate UniquePending(s: State) {
    forall i, j | i in s.invitations && j in s.invitations
        && s.invitations[i].status == Pending && s.invitations[j].status == Pending
        && s.invitations[i].org == s.invitations[j].org && s.invitations[i].email == s.invitations[j].email
      :: i == j
  }

  ghost predicate UniqueTokens(s: State) {
    forall i, j | i in s.invitations && j in s.invitations && s.invitations[i].token == s.invitations[j].token :: i == j
  }

  predicate Holds(s: State, tx: Tx, i: nat) {
    && i in s.invitations && i in s.rowLocks && s.rowLocks[i] == tx
    && s.invitations[i].status == Pending
  }

  /** What an acceptance in flight knows: its invitation is locked and still pending, and once
      verified it is its own and was checked before it expired. */
  predicate AcceptanceKnows(s: State, tx: Tx) {
    IsAccepting(s, tx) ==>
      var p := s.txs[tx];
      && p.startedAt <= s.now
      && (p.where.Read? ==> Holds(s, tx, p.where.inv) && s.invitations[p.where.inv].token == p.token)
      && (p.where.Verified? ==>
            && Holds(s, tx, p.where.inv) && s.invitations[p.where.inv].token == p.token
            && s.invitations[p.where.inv].email == p.email
            && p.startedAt <= p.where.checkedAt <= s.now
            && p.where.checkedAt < s.invitations[p.where.inv].expiresAt)
  }

  predicate WellStamped(inv: Invitation) {
    if inv.status == Accepted then inv.acceptedAt.Some? && inv.acceptedAt.value < inv.expiresAt
    else inv.acceptedAt.None?
  }

  ghost predicate InvitationInv(s: State) {
    && UniquePending(s) && UniqueTokens(s)
    && (forall tx :: tx in s.txs ==> AcceptanceKnows(s, tx))
    && (forall i :: i in s.invitations ==> WellStamped(s.invitations[i]))
  }

  lemma FinishKeeps(s: State, tx: Tx)
    requires InvitationInv(s)
    ensures InvitationInv(Finish(s, tx))
  {
    forall t | t in Finish(s, tx).txs ensures AcceptanceKnows(Finish(s, tx), t) {
      assert AcceptanceKnows(s, t);
    }
  }

  /** Resolving an invitation whose row lock, if any, is the given transaction's own. */
  lemma ResolveKeeps(s: State, tx: Tx, i: nat, inv: Invitation, m: Members)
    requires InvitationInv(s) && i in s.invitations && inv.status != Pending && WellStamped(inv)
    requires i in s.rowLocks ==> s.rowLocks[i] == tx
    requires inv.token == s.invitations[i].token
    ensures InvitationInv(Finish(s.(members := m, invitations := s.invitations[i := inv]), tx))
  {
    var n := Finish(s.(members := m, invitations := s.invitations[i := inv]), tx);
    forall t | t in n.txs ensures AcceptanceKnows(n, t) {
      assert AcceptanceKnows(s, t);
    }
  }

  lemma AddKeeps(s: State, id: nat, inv: Invitation)
    requires InvitationInv(s) && id !in s.invitations && inv.status == Pending && WellStamped(inv)
    requires NoPending(s, inv.org, inv.email) && TokenFree(s, inv.token)
    ensures InvitationInv(WithInvitation(s, id, inv))
  {
    var n := WithInvitation(s, id, inv);
    forall j | j in s.invitations && s.invitations[j].status == Pending && s.invitations[j].org == inv.org
      ensures s.invitations[j].email != inv.email {
      assert !PendingFor(s, j, inv.org, inv.email);
    }
    forall t | t in n.txs ensures AcceptanceKnows(n, t) {
      assert AcceptanceKnows(s, t);
    }
  }

  /** Only the program of one transaction moves; invitations and their locks stay. */
  lemma ProgramMoves(s: State, n: State, tx: Tx)
    requires InvitationInv(s) && n.invitations == s.invitations && n.now >= s.now
    requires forall t :: t in n.txs && t != tx ==> t in s.txs && n.txs[t] == s.txs[t]
    requires forall i :: i in s.rowLocks && s.rowLocks[i] != tx ==> i in n.rowLocks && n.rowLocks[i] == s.rowLocks[i]
    requires tx in n.txs ==> AcceptanceKnows(n, tx)
    ensures InvitationInv(n)
  {
    forall t | t in n.txs ensures AcceptanceKnows(n, t) {
      if t != tx { assert AcceptanceKnows(s, t); }
    }
  }

  lemma CheckKeeps(key: Org -> int, s: State, step: Step)
    requires InvitationInv(s) && Enabled(key, s, step) && step.CheckInvitation?
    ensures InvitationInv(Next(key, s, step))
  {
    var p := s.txs[step.tx];
    var i := p.where.inv;
    assert AcceptanceKnows(s, step.tx);
    if s.invitations[i].expiresAt <= s.now {
      ResolveKeeps(s, step.tx, i, s.invitations[i].(status := Expired), s.members);
    } else if p.email != s.invitations[i].email {
      FinishKeeps(s, step.tx);
    } else {
      ProgramMoves(s, Next(key, s, step), step.tx);
    }
  }

  lemma AcceptCommitKeeps(key: Org -> int, s: State, step: Step)
    requires InvitationInv(s) && Enabled(key, s, step) && step.CommitAccept?
    ensures InvitationInv(Next(key, s, step))
  {
    var p := s.txs[step.tx];
    assert AcceptanceKnows(s, step.tx);
    var inv := s.invitations[p.where.inv];
    ResolveKeeps(s, step.tx, p.where.inv, inv.(status := Accepted, acceptedAt := Some(p.startedAt)),
                 s.members[(inv.org, p.user) := Member(inv.role, true)]);
  }

  lemma ReadKeeps(key: Org -> int, s: State, step: Step)
    requires InvitationInv(s) && Enabled(key, s, step) && step.ReadInvitation?
    ensures InvitationInv(Next(key, s, step))
  {
    assert AcceptanceKnows(s, step.tx);
    if s.invitations[step.inv].status != Pending {
      FinishKeeps(s, step.tx);
    } else {
      ProgramMoves(s, Next(key, s, step), step.tx);
    }
  }

  lemma InviteCommitKeeps(key: Org -> int, s: State, step: Step)
    requires InvitationInv(s) && Enabled(key, s, step) && step.CommitInvite?
    ensures InvitationInv(Next(key, s, step))
  {
    var p := s.txs[step.tx];
    var inv := Offer(p, step.token, s.now);
    if NoPending(s, p.iorg, p.iemail) && TokenFree(s, step.token) {
      AddKeeps(s, step.id, inv);
      FinishKeeps(WithInvitation(s, step.id, inv), step.tx);
    } else {
      FinishKeeps(s, step.tx);
    }
  }

  lemma RevokeKeeps(key: Org -> int, s: State, step: Step)
    requires InvitationInv(s) && Enabled(key, s, step) && step.Revoke?
    ensures InvitationInv(Next(key, s, step))
  {
    var n := Next(key, s, step);
    forall t | t in n.txs ensures AcceptanceKnows(n, t) {
      assert AcceptanceKnows(s, t);
    }
  }

  lemma WorldKeeps(key: Org -> int, s: State, step: Step)
    requires InvitationInv(s) && Enabled(key, s, step) && (step.Tick? || step.Provision?)
    ensures InvitationInv(Next(key, s, step))
  {
    var n := Next(key, s, step);
    forall t | t in n.txs ensures AcceptanceKnows(n, t) {
      assert AcceptanceKnows(s, t);
    }
  }

  /** Membership programs and invitation requests that only move a program. */
  lemma OtherKeeps(key: Org -> int, s: State, step: Step)
    requires InvitationInv(s) && Enabled(key, s, step)
    requires step.StartChange? || step.TakeLock? || step.StartAccept? || step.StartInvite?
    ensures InvitationInv(Next(key, s, step))
  {
    ProgramMoves(s, Next(key, s, step), step.tx);
  }

  lemma ChangeKeeps(key: Org -> int, s: State, step: Step)
    requires InvitationInv(s) && Enabled(key, s, step)
    requires step.ReadTarget? || step.CountOwners? || step.CommitChange?
    ensures InvitationInv(Next(key, s, step))
  {
    var p := s.txs[step.tx];
    FinishKeeps(s, step.tx);
    match step {
      case ReadTarget(tx) =>
        if (p.org, p.target) in s.members && s.members[(p.org, p.target)].active {
          ProgramMoves(s, Next(key, s, step), tx);
        }
      case CountOwners(tx) =>
        ProgramMoves(s, s.(txs := s.txs[tx := p.(at := Cleared)]), tx);
      case CommitChange(tx) =>
        if (p.org, p.target) in s.members && s.members[(p.org, p.target)].active {
          var m := s.(members := Apply(s.members, p.org, p.target, p.change));
          ProgramMoves(s, m, tx);
          FinishKeeps(m, tx);
        }
    }
  }

  lemma PrecheckKeeps(key: Org -> int, s: State, step: Step)
    requires InvitationInv(s) && Enabled(key, s, step) && step.PrecheckInvite?
    ensures InvitationInv(Next(key, s, step))
  {
    FinishKeeps(s, step.tx);
    ProgramMoves(s, s.(txs := s.txs[step.tx := s.txs[step.tx].(prechecked := true)]), step.tx);
  }

  lemma StepKeepsInvitations(key: Org -> int, s: State, step: Step)
    requires InvitationInv(s) && Enabled(key, s, step)
    ensures InvitationInv(Next(key, s, step))
  {
    match step
    case ReadTarget(_) => ChangeKeeps(key, s, step);
    case CountOwners(_) => ChangeKeeps(key, s, step);
    case CommitChange(_) => ChangeKeeps(key, s, step);
    case ReadInvitation(_, _) => ReadKeeps(key, s, step);
    case CheckInvitation(_) => CheckKeeps(key, s, step);
    case CommitAccept(_) => AcceptCommitKeeps(key, s, step);
    case PrecheckInvite(_) => PrecheckKeeps(key, s, step);
    case CommitInvite(_, _, _) => InviteCommitKeeps(key, s, step);
    case Revoke(_, _) => RevokeKeeps(key, s, step);
    case Abort(tx) => FinishKeeps(s, tx);
    case Tick(_) => WorldKeeps(key, s, step);
    case Provision(_, _) => WorldKeeps(key, s, step);
    case _ => OtherKeeps(key, s, step);
  }

  /** In every interleaving: one pending invitation per organization and address, tokens unique, an acceptance
      in flight holds a pending invitation, and a recorded acceptance predates the expiry. */
  lemma {:induction false} InvitationsStayConsistent(key: Org -> int, ss: seq<State>, steps: seq<Step>, i: nat)
    requires IsRun(key, ss, steps) && i < |ss|
    ensures InvitationInv(ss[i])
  {
    if i > 0 {
      InvitationsStayConsistent(key, ss, steps, i - 1);
      StepKeepsInvitations(key, ss[i - 1], steps[i - 1]);
    }
  }

  // ------------------------------------------------------ resolved is final --

  /** How one invitation may move in one step: created pending, untouched, or pending and then resolved. */
  predicate MayBecome(before: Invitation, after: Invitation) {
    && after.(status := before.status, acceptedAt := before.acceptedAt) == before
    && (before.status != Pending ==> after == before)
  }

  ghost predicate Moves(s: State, n: State) {
    forall i :: i in s.invitations ==> i in n.invitations && MayBecome(s.invitations[i], n.invitations[i])
  }

  lemma StepMovesInvitations(key: Org -> int, s: State, step: Step)
    requires InvitationInv(s) && Enabled(key, s, step)
    ensures Moves(s, Next(key, s, step))
  {
    if step.CheckInvitation? || step.CommitAccept? {
      ResolvingMoves(key, s, step);
    } else if step.CommitInvite? {
      InviteMoves(key, s, step);
    } else if step.Revoke? {
      RevokeMoves(key, s, step);
    } else {
      assert Next(key, s, step).invitations == s.invitations;
    }
  }

  lemma ResolvingMoves(key: Org -> int, s: State, step: Step)
    requires InvitationInv(s) && Enabled(key, s, step) && (step.CheckInvitation? || step.CommitAccept?)
    ensures Moves(s, Next(key, s, step))
  {
    assert AcceptanceKnows(s, step.tx);
  }

  lemma InviteMoves(key: Org -> int, s: State, step: Step)
    requires Enabled(key, s, step) && step.CommitInvite?
    ensures Moves(s, Next(key, s, step))
  {
  }

  lemma RevokeMoves(key: Org -> int, s: State, step: Step)
    requires InvitationInv(s) && Enabled(key, s, step) && step.Revoke?
    ensures Moves(s, Next(key, s, step))
  {
  }

  lemma RunMovesInvitations(key: Org -> int, ss: seq<State>, steps: seq<Step>, i: nat)
    requires IsRun(key, ss, steps) && i < |steps|
    ensures Moves(ss[i], ss[i + 1])
  {
    InvitationsStayConsistent(key, ss, steps, i);
    StepMovesInvitations(key, ss[i], steps[i]);
  }

  /** Accepted, revoked and expired are final, and an invitation's terms never change. */
  lemma {:induction false} ResolvedIsFinal(key: Org -> int, ss: seq<State>, steps: seq<Step>, i: nat, j: nat, id: nat)
    requires IsRun(key, ss, steps) && i <= j < |ss| && id in ss[i].invitations
    ensures id in ss[j].invitations && MayBecome(ss[i].invitations[id], ss[j].invitations[id])
  {
    if i < j {
      ResolvedIsFinal(key, ss, steps, i, j - 1, id);
      RunMovesInvitations(key, ss, steps, j - 1);
    }
  }

  /** The invitation an acceptance commits. */
  function AcceptedBy(s: State, step: Step): nat
    requires step.CommitAccept? && IsAccepting(s, step.tx) && s.txs[step.tx].where.Verified?
  {
    s.txs[step.tx].where.inv
  }

  /** No token is accepted twice: two acceptances in a run are of different invitations with different tokens. */
  lemma TokenAcceptedOnce(key: Org -> int, ss: seq<State>, steps: seq<Step>, i: nat, j: nat)
    requires IsRun(key, ss, steps) && i < j < |steps|
    requires steps[i].CommitAccept? && steps[j].CommitAccept?
    ensures Enabled(key, ss[i], steps[i]) && Enabled(key, ss[j], steps[j])
    ensures AcceptedBy(ss[i], steps[i]) != AcceptedBy(ss[j], steps[j])
    ensures ss[i].txs[steps[i].tx].token != ss[j].txs[steps[j].tx].token
  {
    InvitationsStayConsistent(key, ss, steps, i);
    InvitationsStayConsistent(key, ss, steps, j);
    assert AcceptanceKnows(ss[i], steps[i].tx) && AcceptanceKnows(ss[j], steps[j].tx);
    var a := AcceptedBy(ss[i], steps[i]);
    assert ss[i + 1].invitations[a].status == Accepted;
    ResolvedIsFinal(key, ss, steps, i + 1, j, a);
    ResolvedIsFinal(key, ss, steps, i, j, a);
  }

  // -------------------------------------------- membership follows acceptance --

  /** One acceptance: exactly one invitation turns accepted, by the address it was sent to, checked and stamped
      before its expiry, and exactly one membership becomes active with the organization and role it offers. */
  ghost predicate IsAcceptance(s: State, n: State, user: User, email: Email, i: nat) {
    && i in s.invitations && s.invitations[i].status == Pending && s.invitations[i].email == email
    && n.members == s.members[(s.invitations[i].org, user) := Member(s.invitations[i].role, true)]
    && n.invitations.Keys == s.invitations.Keys
    && n.invitations[i].status == Accepted && MayBecome(s.invitations[i], n.invitations[i])
    && n.invitations[i].acceptedAt.Some? && n.invitations[i].acceptedAt.value < s.invitations[i].expiresAt
    && (forall j :: j in s.invitations && j != i ==> n.invitations[j] == s.invitations[j])
  }

  lemma CommitIsAcceptance(key: Org -> int, s: State, step: Step)
    requires InvitationInv(s) && Enabled(key, s, step) && step.CommitAccept?
    ensures IsAcceptance(s, Next(key, s, step), s.txs[step.tx].user, s.txs[step.tx].email, AcceptedBy(s, step))
  {
    assert AcceptanceKnows(s, step.tx);
  }

  /** No membership written, and no invitation accepted. */
  ghost predicate AcceptsNobody(s: State, n: State) {
    && n.members == s.members
    && forall i | i in n.invitations && n.invitations[i].status == Accepted ::
         i in s.invitations && s.invitations[i].status == Accepted
  }

  lemma OthersAcceptNobody(key: Org -> int, s: State, step: Step)
    requires InvitationInv(s) && Enabled(key, s, step)
    requires !step.Provision? && !step.CommitChange? && !step.CommitAccept?
    ensures AcceptsNobody(s, Next(key, s, step))
  {
    if step.CommitInvite? {
      InviteAcceptsNobody(key, s, step);
    } else if step.CheckInvitation? {
      CheckAcceptsNobody(key, s, step);
    } else if step.Revoke? {
      RevokeAcceptsNobody(key, s, step);
    } else {
      assert Next(key, s, step).members == s.members && Next(key, s, step).invitations == s.invitations;
    }
  }

  lemma InviteAcceptsNobody(key: Org -> int, s: State, step: Step)
    requires Enabled(key, s, step) && step.CommitInvite?
    ensures AcceptsNobody(s, Next(key, s, step))
  {
  }

  lemma CheckAcceptsNobody(key: Org -> int, s: State, step: Step)
    requires Enabled(key, s, step) && step.CheckInvitation?
    ensures AcceptsNobody(s, Next(key, s, step))
  {
  }

  lemma RevokeAcceptsNobody(key: Org -> int, s: State, step: Step)
    requires Enabled(key, s, step) && step.Revoke?
    ensures AcceptsNobody(s, Next(key, s, step))
  {
  }

  /** Outside provisioning and membership changes, memberships and accepted invitations change together,
      one of each at a time. */
  lemma MembershipFollowsAcceptance(key: Org -> int, ss: seq<State>, steps: seq<Step>, k: nat)
    requires IsRun(key, ss, steps) && k < |steps|
    requires !steps[k].Provision? && !steps[k].CommitChange?
    ensures steps[k].CommitAccept? ==>
              && IsAccepting(ss[k], steps[k].tx) && ss[k].txs[steps[k].tx].where.Verified?
              && IsAcceptance(ss[k], ss[k + 1], ss[k].txs[steps[k].tx].user, ss[k].txs[steps[k].tx].email,
                              AcceptedBy(ss[k], steps[k]))
    ensures !steps[k].CommitAccept? ==> AcceptsNobody(ss[k], ss[k + 1])
  {
    InvitationsStayConsistent(key, ss, steps, k);
    if steps[k].CommitAccept? {
      CommitIsAcceptance(key, ss[k], steps[k]);
    } else {
      OthersAcceptNobody(key, ss[k], steps[k]);
    }
  }
}
