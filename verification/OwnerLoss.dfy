/**
 Runs that lose an organization's last owner to an acceptance: of the only
 owner, and of one of two while the other's removal is past its count.
 */
module OwnerLoss {
  import opened Tenancy
  import opened TenantCalls
  import opened InvitationCalls

  const FOUNDER: User := 7

  function StrandingSteps(): seq<Step> {
    [Provision(0, FOUNDER),
     StartInvite(1, 0, 5, AnalystReviewer), PrecheckInvite(1), CommitInvite(1, 0, 9),
     StartAccept(2, 9, 5, FOUNDER), ReadInvitation(2, 0), CheckInvitation(2), Tick(SEVEN_DAYS), CommitAccept(2)]
  }

  lemma Extend(key: Org -> int, ss: seq<State>, steps: seq<Step>, step: Step, n: State)
    requires IsRun(key, ss, steps) && Enabled(key, ss[|steps|], step) && Next(key, ss[|steps|], step) == n
    ensures IsRun(key, ss + [n], steps + [step])
  {
  }

  const OPEN := Invitation(0, 5, AnalystReviewer, 9, Pending, SEVEN_DAYS, None)
  const FOUNDED := EMPTY.(orgs := {0}, members := map[(0, FOUNDER) := Member(Owner, true)])
  const INVITED := FOUNDED.(invitations := map[0 := OPEN])

  function Joining(where: AcceptPoint): State {
    INVITED.(txs := map[2 := Accepting(9, 5, FOUNDER, 0, where)], rowLocks := map[0 := 2])
  }

  lemma RunToInviting(key: Org -> int) returns (ss: seq<State>)
    ensures IsRun(key, ss, StrandingSteps()[..3])
    ensures ss[3] == FOUNDED.(txs := map[1 := Inviting(0, 5, AnalystReviewer, true)])
  {
    var s2 := FOUNDED.(txs := map[1 := Inviting(0, 5, AnalystReviewer, false)]);
    var s3 := FOUNDED.(txs := map[1 := Inviting(0, 5, AnalystReviewer, true)]);
    ss := [EMPTY];
    Extend(key, ss, [], Provision(0, FOUNDER), FOUNDED);
    ss := ss + [FOUNDED];
    Extend(key, ss, [Provision(0, FOUNDER)], StartInvite(1, 0, 5, AnalystReviewer), s2);
    ss := ss + [s2];
    Extend(key, ss, [Provision(0, FOUNDER), StartInvite(1, 0, 5, AnalystReviewer)], PrecheckInvite(1), s3);
    ss := ss + [s3];
    assert StrandingSteps()[..3] ==
      [Provision(0, FOUNDER), StartInvite(1, 0, 5, AnalystReviewer)] + [PrecheckInvite(1)];
  }

  lemma RunToInvited(key: Org -> int) returns (ss: seq<State>)
    ensures IsRun(key, ss, StrandingSteps()[..4]) && ss[4] == INVITED
  {
    ss := RunToInviting(key);
    InviteCommits(key, ss[3]);
    Extend(key, ss, StrandingSteps()[..3], CommitInvite(1, 0, 9), INVITED);
    ss := ss + [INVITED];
    assert StrandingSteps()[..4] == StrandingSteps()[..3] + [CommitInvite(1, 0, 9)];
  }

  lemma InviteCommits(key: Org -> int, s: State)
    requires s == FOUNDED.(txs := map[1 := Inviting(0, 5, AnalystReviewer, true)])
    ensures Enabled(key, s, CommitInvite(1, 0, 9)) && Next(key, s, CommitInvite(1, 0, 9)) == INVITED
  {
    var r := Next(key, s, CommitInvite(1, 0, 9));
    assert r.txs == map[] && r.advisory == map[] && r.rowLocks == map[] && r.invitations == map[0 := OPEN];
  }

  lemma RunToVerified(key: Org -> int) returns (ss: seq<State>)
    ensures IsRun(key, ss, StrandingSteps()[..7]) && ss[7] == Joining(Verified(0, 0))
  {
    ss := RunToInvited(key);
    var steps := StrandingSteps();
    var s5 := INVITED.(txs := map[2 := Accepting(9, 5, FOUNDER, 0, Unread)]);
    Extend(key, ss, steps[..4], steps[4], s5);
    ss := ss + [s5];
    assert steps[..4] + [steps[4]] == steps[..5];
    Extend(key, ss, steps[..5], steps[5], Joining(Read(0)));
    ss := ss + [Joining(Read(0))];
    assert steps[..5] + [steps[5]] == steps[..6];
    Extend(key, ss, steps[..6], steps[6], Joining(Verified(0, 0)));
    ss := ss + [Joining(Verified(0, 0))];
    assert steps[..6] + [steps[6]] == steps[..7];
  }

  /** A reachable run in which the founder accepts an invitation to a lower role: it ends without any owner.
      The same run commits an acceptance after the invitation's expiry, checked before it and stamped before it. */
  lemma AcceptanceCanStrandAnOrganization(key: Org -> int) returns (ss: seq<State>)
    ensures IsRun(key, ss, StrandingSteps())
    ensures LowersOwner(ss[8], StrandingSteps()[8])
    ensures 0 in ss[9].orgs && !HasOwner(ss[9].members, 0)
    ensures 0 in ss[8].invitations && ss[8].now >= ss[8].invitations[0].expiresAt
    ensures 0 in ss[9].invitations && ss[9].invitations[0].status == Accepted
    ensures ss[9].invitations[0].acceptedAt.Some?
    ensures ss[9].invitations[0].acceptedAt.value < ss[9].invitations[0].expiresAt
  {
    ss := RunToVerified(key);
    var steps := StrandingSteps();
    var s8 := Joining(Verified(0, 0)).(now := SEVEN_DAYS);
    Extend(key, ss, steps[..7], steps[7], s8);
    ss := ss + [s8];
    assert steps[..7] + [steps[7]] == steps[..8];
    var s9 := Next(key, s8, steps[8]);
    Extend(key, ss, steps[..8], steps[8], s9);
    ss := ss + [s9];
    assert steps[..8] + [steps[8]] == steps;
    assert s9.members == map[(0, FOUNDER) := Member(AnalystReviewer, true)];
  }

  // ------------------------------------------------------ one of two owners --

  const SECOND: User := 8

  /** Continuing a run along a path. */
  lemma JoinRun(key: Org -> int, ss: seq<State>, steps: seq<Step>, tt: seq<State>, more: seq<Step>)
    requires IsRun(key, ss, steps) && IsPath(key, tt, more) && tt[0] == ss[|steps|]
    ensures IsRun(key, ss + tt[1..], steps + more) && (ss + tt[1..])[|steps + more|] == tt[|more|]
  {
    var all, taken := ss + tt[1..], steps + more;
    forall i | 0 <= i < |taken| ensures Enabled(key, all[i], taken[i]) && all[i + 1] == Next(key, all[i], taken[i]) {
      if i >= |steps| {
        var j := i - |steps|;
        assert all[i] == tt[j] && all[i + 1] == tt[j + 1] && taken[i] == more[j];
      }
    }
  }

  const JOINED := Invitation(0, 5, Owner, 9, Accepted, SEVEN_DAYS, Some(0))
  const OFFERED := Invitation(0, 5, AnalystReviewer, 10, Pending, SEVEN_DAYS, None)
  const TWO_OWNERS := FOUNDED.(
    members := map[(0, FOUNDER) := Member(Owner, true), (0, SECOND) := Member(Owner, true)],
    invitations := map[0 := JOINED, 1 := OFFERED])

  lemma RunToSecondInvited(key: Org -> int) returns (ss: seq<State>, steps: seq<Step>)
    ensures IsRun(key, ss, steps)
    ensures ss[|steps|] == FOUNDED.(invitations := map[0 := JOINED.(status := Pending, acceptedAt := None)])
  {
    ss, steps := [EMPTY], [];
    Extend(key, ss, steps, Provision(0, FOUNDER), FOUNDED);
    ss, steps := ss + [FOUNDED], steps + [Provision(0, FOUNDER)];
    var tt, more := UninterruptedInvitingIsTheCall(key, FOUNDED, 1, 0, 5, Owner, true, 0, 9);
    JoinRun(key, ss, steps, tt, more);
    ss, steps := ss + tt[1..], steps + more;
  }

  lemma RunToSecondOwner(key: Org -> int) returns (ss: seq<State>, steps: seq<Step>)
    ensures IsRun(key, ss, steps) && ss[|steps|] == TWO_OWNERS.(invitations := map[0 := JOINED])
  {
    ss, steps := RunToSecondInvited(key);
    var s := ss[|steps|];
    var tt, more, r := UninterruptedAcceptingIsTheCall(key, s, 2, 9, 5, SECOND, true);
    assert Carries(s.invitations, 0, 9);
    assert r == Joined(0);
    JoinRun(key, ss, steps, tt, more);
    ss, steps := ss + tt[1..], steps + more;
    assert AfterAccepting(s, SECOND, r) == TWO_OWNERS.(invitations := map[0 := JOINED]);
  }

  lemma RunToTwoOwners(key: Org -> int) returns (ss: seq<State>, steps: seq<Step>)
    ensures IsRun(key, ss, steps) && ss[|steps|] == TWO_OWNERS
  {
    ss, steps := RunToSecondOwner(key);
    var s := ss[|steps|];
    var tt, more := UninterruptedInvitingIsTheCall(key, s, 3, 0, 5, AnalystReviewer, true, 1, 10);
    assert MayCreate(s.invitations, 0, 5, 10);
    JoinRun(key, ss, steps, tt, more);
    ss, steps := ss + tt[1..], steps + more;
  }

  function Accepting8(where: AcceptPoint): Program { Accepting(10, 5, SECOND, 0, where) }

  function Removing7(at: ChangePoint): Program { Changing(0, FOUNDER, Remove, at) }

  /** The second owner's acceptance of a lower role is verified and about to commit. */
  lemma PathToVerified(key: Org -> int) returns (ss: seq<State>, steps: seq<Step>)
    ensures IsPath(key, ss, steps) && ss[0] == TWO_OWNERS
    ensures ss[|steps|] == TWO_OWNERS.(txs := map[4 := Accepting8(Verified(1, 0))], rowLocks := map[1 := 4])
  {
    var a := TWO_OWNERS.(txs := map[4 := Accepting8(Unread)]);
    var b := TWO_OWNERS.(txs := map[4 := Accepting8(Read(1))], rowLocks := map[1 := 4]);
    var c := TWO_OWNERS.(txs := map[4 := Accepting8(Verified(1, 0))], rowLocks := map[1 := 4]);
    ss := [TWO_OWNERS, a, b, c];
    steps := [StartAccept(4, 10, 5, SECOND), ReadInvitation(4, 1), CheckInvitation(4)];
    AcceptanceStarts(key, a);
    OfferIsRead(key, a, b);
    OfferIsVerified(key, b, c);
  }

  lemma AcceptanceStarts(key: Org -> int, a: State)
    requires a == TWO_OWNERS.(txs := map[4 := Accepting8(Unread)])
    ensures Enabled(key, TWO_OWNERS, StartAccept(4, 10, 5, SECOND))
    ensures Next(key, TWO_OWNERS, StartAccept(4, 10, 5, SECOND)) == a
  {
  }

  lemma OfferIsVerified(key: Org -> int, b: State, c: State)
    requires b == TWO_OWNERS.(txs := map[4 := Accepting8(Read(1))], rowLocks := map[1 := 4])
    requires c == TWO_OWNERS.(txs := map[4 := Accepting8(Verified(1, 0))], rowLocks := map[1 := 4])
    ensures Enabled(key, b, CheckInvitation(4)) && Next(key, b, CheckInvitation(4)) == c
  {
  }

  lemma OfferIsRead(key: Org -> int, a: State, b: State)
    requires a == TWO_OWNERS.(txs := map[4 := Accepting8(Unread)])
    requires b == TWO_OWNERS.(txs := map[4 := Accepting8(Read(1))], rowLocks := map[1 := 4])
    ensures Enabled(key, a, ReadInvitation(4, 1)) && Next(key, a, ReadInvitation(4, 1)) == b
  {
    assert Carries(a.invitations, 1, 10);
  }

  function BothInFlight(k: int, at: ChangePoint): State {
    TWO_OWNERS.(txs := map[4 := Accepting8(Verified(1, 0)), 5 := Removing7(at)], rowLocks := map[1 := 4],
                advisory := if at == Waiting then map[] else map[k := 5])
  }

  lemma CountPasses(key: Org -> int)
    ensures Enabled(key, BothInFlight(key(0), Seen(Owner)), CountOwners(5))
    ensures Next(key, BothInFlight(key(0), Seen(Owner)), CountOwners(5)) == BothInFlight(key(0), Cleared)
  {
    var s := BothInFlight(key(0), Seen(Owner));
    var owners := Owners(s.members, 0);
    assert owners == {(0, FOUNDER), (0, SECOND)};
    assert owners - {(0, FOUNDER)} == {(0, SECOND)};
    assert |owners| == 2;
    assert s.txs[5 := Removing7(Cleared)] == BothInFlight(key(0), Cleared).txs;
  }

  lemma RemovalStarts(key: Org -> int, s: State)
    requires s == TWO_OWNERS.(txs := map[4 := Accepting8(Verified(1, 0))], rowLocks := map[1 := 4])
    ensures Enabled(key, s, StartChange(5, 0, FOUNDER, Remove, SECOND))
    ensures Next(key, s, StartChange(5, 0, FOUNDER, Remove, SECOND)) == BothInFlight(key(0), Waiting)
  {
    assert s.txs[5 := Removing7(Waiting)] == BothInFlight(key(0), Waiting).txs;
  }

  lemma RemovalLocks(key: Org -> int)
    ensures Enabled(key, BothInFlight(key(0), Waiting), TakeLock(5))
    ensures Next(key, BothInFlight(key(0), Waiting), TakeLock(5)) == BothInFlight(key(0), Locked)
  {
    assert BothInFlight(key(0), Waiting).txs[5 := Removing7(Locked)] == BothInFlight(key(0), Locked).txs;
  }

  lemma RemovalReads(key: Org -> int)
    ensures Enabled(key, BothInFlight(key(0), Locked), ReadTarget(5))
    ensures Next(key, BothInFlight(key(0), Locked), ReadTarget(5)) == BothInFlight(key(0), Seen(Owner))
  {
    assert BothInFlight(key(0), Locked).txs[5 := Removing7(Seen(Owner))] == BothInFlight(key(0), Seen(Owner)).txs;
  }

  lemma Steps4(key: Org -> int, ss: seq<State>, steps: seq<Step>)
    requires |ss| == 5 && |steps| == 4
    requires Enabled(key, ss[0], steps[0]) && ss[1] == Next(key, ss[0], steps[0])
    requires Enabled(key, ss[1], steps[1]) && ss[2] == Next(key, ss[1], steps[1])
    requires Enabled(key, ss[2], steps[2]) && ss[3] == Next(key, ss[2], steps[2])
    requires Enabled(key, ss[3], steps[3]) && ss[4] == Next(key, ss[3], steps[3])
    ensures IsPath(key, ss, steps)
  {
  }

  /** Meanwhile the founder's removal takes its lock, reads and counts two owners. */
  lemma PathToCleared(key: Org -> int) returns (ss: seq<State>, steps: seq<Step>)
    ensures IsPath(key, ss, steps)
    ensures ss[0] == TWO_OWNERS.(txs := map[4 := Accepting8(Verified(1, 0))], rowLocks := map[1 := 4])
    ensures ss[|steps|] == BothInFlight(key(0), Cleared)
  {
    var k := key(0);
    var s := TWO_OWNERS.(txs := map[4 := Accepting8(Verified(1, 0))], rowLocks := map[1 := 4]);
    ss := [s, BothInFlight(k, Waiting), BothInFlight(k, Locked), BothInFlight(k, Seen(Owner)),
           BothInFlight(k, Cleared)];
    steps := [StartChange(5, 0, FOUNDER, Remove, SECOND), TakeLock(5), ReadTarget(5), CountOwners(5)];
    RemovalStarts(key, s);
    RemovalLocks(key);
    RemovalReads(key);
    CountPasses(key);
    Steps4(key, ss, steps);
  }

  function AfterAcceptance(k: int): State {
    var s := BothInFlight(k, Cleared);
    s.(members := s.members[(0, SECOND) := Member(AnalystReviewer, true)],
       invitations := s.invitations[1 := OFFERED.(status := Accepted, acceptedAt := Some(0))],
       txs := map[5 := Removing7(Cleared)], rowLocks := map[])
  }

  lemma AcceptanceCommits(key: Org -> int)
    ensures Enabled(key, BothInFlight(key(0), Cleared), CommitAccept(4))
    ensures Next(key, BothInFlight(key(0), Cleared), CommitAccept(4)) == AfterAcceptance(key(0))
  {
    var s := BothInFlight(key(0), Cleared);
    var n := Next(key, s, CommitAccept(4));
    assert n.txs == map[5 := Removing7(Cleared)];
    assert n.rowLocks == map[] && n.advisory == s.advisory;
  }

  lemma AcceptanceIsUnsafe(k: int)
    ensures LowersOwner(BothInFlight(k, Cleared), CommitAccept(4))
    ensures !AcceptSafe(BothInFlight(k, Cleared), CommitAccept(4))
  {
    var s := BothInFlight(k, Cleared);
    assert 5 in s.txs && Relies(s.txs[5]);
    forall w ensures !(w != FOUNDER && w != SECOND && ActiveOwner(s.members, 0, w)) {
    }
  }

  /** The acceptance commits while the removal is past its count, then the removal commits. */
  lemma LastTwoSteps(key: Org -> int) returns (ss: seq<State>, steps: seq<Step>)
    ensures IsPath(key, ss, steps) && steps == [CommitAccept(4), CommitChange(5)]
    ensures ss[0] == BothInFlight(key(0), Cleared)
    ensures LowersOwner(ss[0], steps[0]) && !AcceptSafe(ss[0], steps[0])
    ensures ActiveOwner(ss[1].members, 0, FOUNDER) && 0 in ss[2].orgs && !HasOwner(ss[2].members, 0)
  {
    var s, accepted := BothInFlight(key(0), Cleared), AfterAcceptance(key(0));
    var removed := Next(key, accepted, CommitChange(5));
    AcceptanceCommits(key);
    AcceptanceIsUnsafe(key(0));
    ss, steps := [s, accepted, removed], [CommitAccept(4), CommitChange(5)];
    assert removed.members == accepted.members[(0, FOUNDER) := Member(Owner, false)];
    forall u ensures !ActiveOwner(removed.members, 0, u) {
    }
  }

  /** A reachable run with two owners: one accepts a lower role while the other's removal is past its count.
      The acceptance leaves an owner, but not a safe state: when the removal commits, nobody is left. */
  lemma AcceptanceCanStrandTwoOwners(key: Org -> int) returns (ss: seq<State>, steps: seq<Step>)
    ensures IsRun(key, ss, steps) && |steps| >= 2
    ensures steps[|steps| - 2] == CommitAccept(4) && steps[|steps| - 1] == CommitChange(5)
    ensures LowersOwner(ss[|steps| - 2], steps[|steps| - 2]) && !AcceptSafe(ss[|steps| - 2], steps[|steps| - 2])
    ensures ActiveOwner(ss[|steps| - 1].members, 0, FOUNDER)
    ensures 0 in ss[|steps|].orgs && !HasOwner(ss[|steps|].members, 0)
  {
    ss, steps := RunToTwoOwners(key);
    var tt, more := PathToVerified(key);
    JoinRun(key, ss, steps, tt, more);
    ss, steps := ss + tt[1..], steps + more;
    tt, more := PathToCleared(key);
    JoinRun(key, ss, steps, tt, more);
    ss, steps := ss + tt[1..], steps + more;
    tt, more := LastTwoSteps(key);
    JoinRun(key, ss, steps, tt, more);
    ss, steps := ss + tt[1..], steps + more;
  }
}
