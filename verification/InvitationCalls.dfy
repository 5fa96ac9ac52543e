/**
 The invitation calls as the service makes them, each a whole transaction on the
 tables it updates in place, and their relation to the interleaved system.
 Models src/arie/invitations.py.
 */
module InvitationCalls {
  import opened Tenancy
  import opened Invitations
  import opened TenantCalls

  type Table = map<nat, Invitation>

  // ------------------------------------------------------------------ answers --

  predicate OpenFor(t: Table, i: nat, o: Org, e: Email) {
    i in t && t[i].org == o && t[i].email == e && t[i].status == Pending
  }

  predicate Carries(t: Table, i: nat, token: Token) {
    i in t && t[i].token == token
  }

  /** Whether the tables let an invitation be created: no open one for the address, and an unused token. */
  predicate MayCreate(t: Table, o: Org, e: Email, token: Token) {
    forall i :: i in t ==> !OpenFor(t, i, o, e) && !Carries(t, i, token)
  }

  datatype AcceptResult = NotFound | HasExpired(inv: nat) | MismatchedEmail | OverQuota | Joined(inv: nat)

  /** What accepting answers for one invitation. */
  function AnswerFor(m: Members, t: Table, i: nat, email: Email, user: User, underQuota: bool, now: nat): AcceptResult
    requires i in t
  {
    var inv := t[i];
    if inv.status != Pending then NotFound
    else if inv.expiresAt <= now then HasExpired(i)
    else if email != inv.email then MismatchedEmail
    else if !underQuota && !((inv.org, user) in m && m[(inv.org, user)].active) then OverQuota
    else Joined(i)
  }

  /** Each answer, exactly, in the order the service looks: a resolved invitation is as good as none; then its
      expiry, its address, and the quota, which an active member of the organization does not need. */
  lemma EachAnswerIff(m: Members, t: Table, i: nat, email: Email, user: User, underQuota: bool, now: nat)
    requires i in t
    ensures var r, inv := AnswerFor(m, t, i, email, user, underQuota, now), t[i];
            var live := inv.status == Pending && now < inv.expiresAt;
            var room := underQuota || ((inv.org, user) in m && m[(inv.org, user)].active);
            && (r == NotFound <==> inv.status != Pending)
            && (r == HasExpired(i) <==> inv.status == Pending && inv.expiresAt <= now)
            && (r == MismatchedEmail <==> live && email != inv.email)
            && (r == OverQuota <==> live && email == inv.email && !room)
            && (r == Joined(i) <==> live && email == inv.email && room)
  {
  }

  /** The answer is that of the invitation carrying the token, or "not found" when none does. */
  ghost predicate IsAnswer(m: Members, t: Table, token: Token, email: Email, user: User, underQuota: bool, now: nat,
                           r: AcceptResult) {
    && ((forall i :: !Carries(t, i, token)) ==> r == NotFound)
    && (forall i :: Carries(t, i, token) ==> r == AnswerFor(m, t, i, email, user, underQuota, now))
    && (r.Joined? || r.HasExpired? ==> r.inv in t)
  }

  /** A membership appears exactly with an acceptance ... */
  function MembersAfter(m: Members, t: Table, user: User, r: AcceptResult): Members
    requires r.Joined? ==> r.inv in t
  {
    if r.Joined? then m[(t[r.inv].org, user) := Member(t[r.inv].role, true)] else m
  }

  /** ... which, like an expiry, closes its invitation; nothing else changes. */
  function TableAfter(t: Table, now: nat, r: AcceptResult): Table
    requires r.Joined? || r.HasExpired? ==> r.inv in t
  {
    match r
    case Joined(i) => t[i := t[i].(status := Accepted, acceptedAt := Some(now))]
    case HasExpired(i) => t[i := t[i].(status := Expired)]
    case _ => t
  }

  class InvitationDesk {
    var members: Members
    var invitations: map<nat, Invitation>

    constructor (m: Members)
      ensures members == m && invitations == map[]
    {
      members, invitations := m, map[];
    }

    ghost predicate Valid()
      reads this
    {
      && (forall i, j | i in invitations && j in invitations && invitations[i].token == invitations[j].token :: i == j)
      && (forall i, j | i in invitations && j in invitations
            && invitations[i].status == Pending && invitations[j].status == Pending
            && invitations[i].org == invitations[j].org && invitations[i].email == invitations[j].email :: i == j)
    }

    /** Refused when the plan is full, the address has an open invitation or the token is taken; else one pending row
        is added. */
    method CreateInvitation(o: Org, email: Email, role: Role, underQuota: bool, id: nat, token: Token, now: nat)
      returns (created: bool)
      requires Valid() && id !in invitations
      modifies this
      ensures Valid() && members == old(members)
      ensures created <==> underQuota && old(MayCreate(invitations, o, email, token))
      ensures invitations == if !created then old(invitations) else
                old(invitations)[id := Invitation(o, email, role, token, Pending, now + SEVEN_DAYS, None)]
    {
      if !underQuota { return false; }
      if exists i :: i in invitations && OpenFor(invitations, i, o, email) { return false; }
      if exists i :: i in invitations && Carries(invitations, i, token) { return false; }
      invitations := invitations[id := Invitation(o, email, role, token, Pending, now + SEVEN_DAYS, None)];
      created := true;
    }

    method RevokeInvitation(o: Org, i: nat) returns (revoked: bool)
      requires Valid()
      modifies this
      ensures Valid() && members == old(members)
      ensures revoked <==>
                i in old(invitations) && old(invitations)[i].org == o && old(invitations)[i].status == Pending
      ensures invitations == if !revoked then old(invitations) else
                old(invitations)[i := old(invitations)[i].(status := Revoked)]
    {
      if i !in invitations || invitations[i].org != o || invitations[i].status != Pending { return false; }
      invitations := invitations[i := invitations[i].(status := Revoked)];
      revoked := true;
    }

    method FindByToken(token: Token) returns (found: Option<nat>)
      ensures found.Some? ==> Carries(invitations, found.value, token)
      ensures found.None? ==> forall i :: !Carries(invitations, i, token)
    {
      var todo := invitations.Keys;
      while todo != {}
        invariant todo <= invitations.Keys
        invariant forall i :: i in invitations && i !in todo ==> invitations[i].token != token
        decreases todo
      {
        var i :| i in todo;
        if invitations[i].token == token { return Some(i); }
        todo := todo - {i};
      }
      found := None;
    }

    method AcceptInvitation(token: Token, email: Email, user: User, underQuota: bool, now: nat)
      returns (r: AcceptResult)
      requires Valid()
      modifies this
      ensures Valid()
      ensures IsAnswer(old(members), old(invitations), token, email, user, underQuota, now, r)
      ensures members == MembersAfter(old(members), old(invitations), user, r)
      ensures invitations == TableAfter(old(invitations), now, r)
    {
      var found := FindByToken(token);
      if found.None? { return NotFound; }
      var i := found.value;
      var inv := invitations[i];
      if inv.status != Pending { return NotFound; }
      if inv.expiresAt <= now {
        invitations := invitations[i := inv.(status := Expired)];
        return HasExpired(i);
      }
      if email != inv.email { return MismatchedEmail; }
      var already := (inv.org, user) in members && members[(inv.org, user)].active;
      if !already && !underQuota { return OverQuota; }
      members := members[(inv.org, user) := Member(inv.role, true)];
      invitations := invitations[i := inv.(status := Accepted, acceptedAt := Some(now))];
      r := Joined(i);
    }
  }

  // --------------------------------------------- the calls, uninterrupted --

  /** All steps are of one transaction. */
  predicate Alone(tx: Tx, steps: seq<Step>) {
    forall i :: 0 <= i < |steps| ==>
      match steps[i]
      case StartAccept(t, _, _, _) => t == tx
      case ReadInvitation(t, _) => t == tx
      case CheckInvitation(t) => t == tx
      case CommitAccept(t) => t == tx
      case StartInvite(t, _, _, _) => t == tx
      case PrecheckInvite(t) => t == tx
      case CommitInvite(t, _, _) => t == tx
      case Abort(t) => t == tx
      case _ => false
  }

  /** A path of one transaction from s to n. */
  ghost predicate Plays(key: Org -> int, tx: Tx, ss: seq<State>, steps: seq<Step>, s: State, n: State) {
    IsPath(key, ss, steps) && Alone(tx, steps) && ss[0] == s && ss[|steps|] == n
  }

  lemma StandStill(key: Org -> int, tx: Tx, s: State)
    ensures Plays(key, tx, [s], [], s, s)
  {
  }

  lemma OneMore(key: Org -> int, tx: Tx, ss: seq<State>, steps: seq<Step>, s: State, t: State, step: Step, n: State)
    requires Plays(key, tx, ss, steps, s, t) && Alone(tx, [step]) && Enabled(key, t, step) && Next(key, t, step) == n
    ensures Plays(key, tx, ss + [n], steps + [step], s, n)
  {
    assert [step][0] == step;
  }

  /** Ending, a transaction that took no advisory lock leaves its writes and nothing else. */
  lemma FinishRestores(s: State, n: State, tx: Tx, i: nat)
    requires HoldsNothing(s, tx) && tx in n.txs && n.txs == s.txs[tx := n.txs[tx]] && n.advisory == s.advisory
    requires n.rowLocks == s.rowLocks || (i !in s.rowLocks && n.rowLocks == s.rowLocks[i := tx])
    ensures Finish(n, tx) == n.(txs := s.txs, rowLocks := s.rowLocks)
  {
    var f := Finish(n, tx);
    assert f.txs == s.txs;
    assert f.advisory.Keys == s.advisory.Keys by {
      forall k: int ensures k in f.advisory <==> k in s.advisory {
        if k in s.advisory { assert s.advisory[k] != tx; }
      }
    }
    assert f.advisory == s.advisory;
    assert f.rowLocks.Keys == s.rowLocks.Keys by {
      forall j: nat ensures j in f.rowLocks <==> j in s.rowLocks {
        if j in s.rowLocks { assert s.rowLocks[j] != tx; }
      }
    }
    assert f.rowLocks == s.rowLocks;
  }

  /** The interleaved system's two uniqueness tests are the call's. */
  lemma SameTests(s: State, o: Org, e: Email, token: Token)
    ensures NoPending(s, o, e) && TokenFree(s, token) <==> MayCreate(s.invitations, o, e, token)
  {
    if MayCreate(s.invitations, o, e, token) {
      forall i | i in s.invitations ensures !PendingFor(s, i, o, e) && s.invitations[i].token != token {
        assert !OpenFor(s.invitations, i, o, e) && !Carries(s.invitations, i, token);
      }
    } else {
      var i :| i in s.invitations && (OpenFor(s.invitations, i, o, e) || Carries(s.invitations, i, token));
      assert PendingFor(s, i, o, e) || s.invitations[i].token == token;
    }
  }

  /** What creating leaves. */
  function Created(s: State, o: Org, e: Email, r: Role, underQuota: bool, id: nat, token: Token): State {
    if underQuota && MayCreate(s.invitations, o, e, token)
    then WithInvitation(s, id, Invitation(o, e, r, token, Pending, s.now + SEVEN_DAYS, None)) else s
  }

  /** Run without interruption, the inviting transaction leaves what the call leaves. */
  lemma UninterruptedInvitingIsTheCall(key: Org -> int, s: State, tx: Tx, o: Org, e: Email, r: Role, underQuota: bool,
                                       id: nat, token: Token) returns (ss: seq<State>, steps: seq<Step>)
    requires HoldsNothing(s, tx) && o in s.orgs && id !in s.invitations
    ensures Plays(key, tx, ss, steps, s, Created(s, o, e, r, underQuota, id, token))
  {
    var begun := s.(txs := s.txs[tx := Inviting(o, e, r, false)]);
    StandStill(key, tx, s);
    OneMore(key, tx, [s], [], s, s, StartInvite(tx, o, e, r), begun);
    ss, steps := [s] + [begun], [] + [StartInvite(tx, o, e, r)];
    FinishRestores(s, begun, tx, 0);
    if !underQuota {
      OneMore(key, tx, ss, steps, s, begun, Abort(tx), s);
      ss, steps := ss + [s], steps + [Abort(tx)];
    } else if !NoPending(s, o, e) {
      SameTests(s, o, e, token);
      OneMore(key, tx, ss, steps, s, begun, PrecheckInvite(tx), s);
      ss, steps := ss + [s], steps + [PrecheckInvite(tx)];
    } else {
      var ready := s.(txs := s.txs[tx := Inviting(o, e, r, true)]);
      assert begun.txs[tx := Inviting(o, e, r, true)] == ready.txs;
      OneMore(key, tx, ss, steps, s, begun, PrecheckInvite(tx), ready);
      ss, steps := ss + [ready], steps + [PrecheckInvite(tx)];
      var n := Created(s, o, e, r, underQuota, id, token);
      ReadyInviteCommits(key, s, ready, tx, id, token);
      OneMore(key, tx, ss, steps, s, ready, CommitInvite(tx, id, token), n);
      ss, steps := ss + [n], steps + [CommitInvite(tx, id, token)];
    }
  }

  lemma ReadyInviteCommits(key: Org -> int, s: State, ready: State, tx: Tx, id: nat, token: Token)
    requires HoldsNothing(s, tx) && IsInviting(ready, tx) && ready.txs[tx].prechecked && id !in s.invitations
    requires ready == s.(txs := s.txs[tx := ready.txs[tx]])
    requires NoPending(s, ready.txs[tx].iorg, ready.txs[tx].iemail)
    ensures var p := ready.txs[tx];
            Next(key, ready, CommitInvite(tx, id, token)) == Created(s, p.iorg, p.iemail, p.irole, true, id, token)
  {
    var p := ready.txs[tx];
    SameTests(s, p.iorg, p.iemail, token);
    FinishRestores(s, ready, tx, 0);
    var offer := Offer(p, token, s.now);
    FinishRestores(WithInvitation(s, id, offer), WithInvitation(ready, id, offer), tx, 0);
    assert NoPending(ready, p.iorg, p.iemail) && (TokenFree(ready, token) <==> TokenFree(s, token));
  }

  /** What accepting leaves, given the answer. */
  function AfterAccepting(s: State, user: User, r: AcceptResult): State
    requires r.Joined? || r.HasExpired? ==> r.inv in s.invitations
  {
    s.(members := MembersAfter(s.members, s.invitations, user, r), invitations := TableAfter(s.invitations, s.now, r))
  }

  /** Run without interruption, the accepting transaction answers and leaves what the call does. */
  lemma UninterruptedAcceptingIsTheCall(key: Org -> int, s: State, tx: Tx, token: Token, email: Email, user: User,
                                        underQuota: bool) returns (ss: seq<State>, steps: seq<Step>, r: AcceptResult)
    requires HoldsNothing(s, tx) && UniqueTokens(s)
    requires forall i :: Carries(s.invitations, i, token) ==> i !in s.rowLocks
    ensures IsAnswer(s.members, s.invitations, token, email, user, underQuota, s.now, r)
    ensures Plays(key, tx, ss, steps, s, AfterAccepting(s, user, r))
  {
    var begun := s.(txs := s.txs[tx := Accepting(token, email, user, s.now, Unread)]);
    StandStill(key, tx, s);
    OneMore(key, tx, [s], [], s, s, StartAccept(tx, token, email, user), begun);
    ss, steps := [s] + [begun], [] + [StartAccept(tx, token, email, user)];
    FinishRestores(s, begun, tx, 0);
    if i :| Carries(s.invitations, i, token) {
      r := AnswerFor(s.members, s.invitations, i, email, user, underQuota, s.now);
      ss, steps := FoundEnds(key, s, tx, i, underQuota, begun, ss, steps);
    } else {
      r := NotFound;
      OneMore(key, tx, ss, steps, s, begun, Abort(tx), s);
      ss, steps := ss + [s], steps + [Abort(tx)];
    }
  }

  /** The state in which the transaction runs this program and holds the row. */
  function Held(s: State, tx: Tx, p: Program, i: nat): State {
    s.(txs := s.txs[tx := p], rowLocks := s.rowLocks[i := tx])
  }

  /** From the token's invitation to the end. */
  lemma FoundEnds(key: Org -> int, s: State, tx: Tx, i: nat, underQuota: bool, begun: State, before: seq<State>,
                  done: seq<Step>) returns (ss: seq<State>, steps: seq<Step>)
    requires HoldsNothing(s, tx) && i in s.invitations && i !in s.rowLocks
    requires IsAccepting(begun, tx) && begun.txs[tx].where == Unread && begun.txs[tx].startedAt == s.now
    requires begun == s.(txs := s.txs[tx := begun.txs[tx]]) && Plays(key, tx, before, done, s, begun)
    requires Carries(s.invitations, i, begun.txs[tx].token)
    ensures var p := begun.txs[tx];
            Plays(key, tx, ss, steps, s,
                  AfterAccepting(s, p.user, AnswerFor(s.members, s.invitations, i, p.email, p.user, underQuota, s.now)))
  {
    if s.invitations[i].status != Pending {
      FinishRestores(s, begun, tx, 0);
      OneMore(key, tx, before, done, s, begun, ReadInvitation(tx, i), s);
      ss, steps := before + [s], done + [ReadInvitation(tx, i)];
    } else {
      var held := Held(s, tx, begun.txs[tx].(where := Read(i)), i);
      assert begun.txs[tx := held.txs[tx]] == held.txs;
      OneMore(key, tx, before, done, s, begun, ReadInvitation(tx, i), held);
      ss, steps := HeldEnds(key, s, tx, i, underQuota, held, before + [held], done + [ReadInvitation(tx, i)]);
    }
  }

  /** From the locked read to the end. */
  lemma HeldEnds(key: Org -> int, s: State, tx: Tx, i: nat, underQuota: bool, held: State, before: seq<State>,
                 done: seq<Step>) returns (ss: seq<State>, steps: seq<Step>)
    requires HoldsNothing(s, tx) && i in s.invitations && s.invitations[i].status == Pending && i !in s.rowLocks
    requires IsAccepting(held, tx) && held.txs[tx].where == Read(i) && held.txs[tx].startedAt == s.now
    requires held == Held(s, tx, held.txs[tx], i) && Plays(key, tx, before, done, s, held)
    ensures var p := held.txs[tx];
            Plays(key, tx, ss, steps, s,
                  AfterAccepting(s, p.user, AnswerFor(s.members, s.invitations, i, p.email, p.user, underQuota, s.now)))
  {
    var p, inv := held.txs[tx], s.invitations[i];
    if inv.expiresAt <= s.now || p.email != inv.email {
      CheckEnds(key, s, tx, i, underQuota, held);
      var n := Next(key, held, CheckInvitation(tx));
      OneMore(key, tx, before, done, s, held, CheckInvitation(tx), n);
      ss, steps := before + [n], done + [CheckInvitation(tx)];
    } else {
      var verified := Held(s, tx, p.(where := Verified(i, s.now)), i);
      assert held.txs[tx := verified.txs[tx]] == verified.txs;
      OneMore(key, tx, before, done, s, held, CheckInvitation(tx), verified);
      var answer := AnswerFor(s.members, s.invitations, i, p.email, p.user, underQuota, s.now);
      ss, steps := AnswerEnds(key, s, tx, i, answer, verified, before + [verified], done + [CheckInvitation(tx)]);
    }
  }

  /** The quota refuses by rolling back; otherwise the membership and the acceptance commit together. */
  lemma AnswerEnds(key: Org -> int, s: State, tx: Tx, i: nat, answer: AcceptResult, verified: State, before: seq<State>,
                   done: seq<Step>) returns (ss: seq<State>, steps: seq<Step>)
    requires HoldsNothing(s, tx) && i in s.invitations && i !in s.rowLocks
    requires IsAccepting(verified, tx) && verified.txs[tx].where == Verified(i, s.now)
    requires verified.txs[tx].startedAt == s.now && verified == Held(s, tx, verified.txs[tx], i)
    requires Plays(key, tx, before, done, s, verified) && (answer == OverQuota || answer == Joined(i))
    ensures Plays(key, tx, ss, steps, s, AfterAccepting(s, verified.txs[tx].user, answer))
  {
    VerifiedEnds(key, s, tx, i, verified);
    var n := AfterAccepting(s, verified.txs[tx].user, answer);
    var last := if answer == OverQuota then Abort(tx) else CommitAccept(tx);
    OneMore(key, tx, before, done, s, verified, last, n);
    ss, steps := before + [n], done + [last];
  }

  lemma CheckEnds(key: Org -> int, s: State, tx: Tx, i: nat, underQuota: bool, held: State)
    requires HoldsNothing(s, tx) && i in s.invitations && s.invitations[i].status == Pending && i !in s.rowLocks
    requires IsAccepting(held, tx) && held.txs[tx].where == Read(i) && held == Held(s, tx, held.txs[tx], i)
    requires s.invitations[i].expiresAt <= s.now || held.txs[tx].email != s.invitations[i].email
    ensures var p := held.txs[tx];
            Next(key, held, CheckInvitation(tx)) ==
            AfterAccepting(s, p.user, AnswerFor(s.members, s.invitations, i, p.email, p.user, underQuota, s.now))
  {
    var inv := s.invitations[i];
    FinishRestores(s, held, tx, i);
    var closed := s.invitations[i := inv.(status := Expired)];
    FinishRestores(s.(invitations := closed), held.(invitations := closed), tx, i);
  }

  lemma VerifiedEnds(key: Org -> int, s: State, tx: Tx, i: nat, verified: State)
    requires HoldsNothing(s, tx) && i in s.invitations && i !in s.rowLocks
    requires IsAccepting(verified, tx)
    requires verified.txs[tx].where == Verified(i, s.now) && verified.txs[tx].startedAt == s.now
    requires verified == Held(s, tx, verified.txs[tx], i)
    ensures Next(key, verified, Abort(tx)) == s
    ensures Next(key, verified, CommitAccept(tx)) == AfterAccepting(s, verified.txs[tx].user, Joined(i))
  {
    FinishRestores(s, verified, tx, i);
    var n := AfterAccepting(s, verified.txs[tx].user, Joined(i));
    FinishRestores(n, verified.(members := n.members, invitations := n.invitations), tx, i);
  }
}
