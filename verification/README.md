# Lead qualification, verified

A Dafny model of the parts of the lead-qualification service where being right is hard: deciding a lead on incomplete
facts, buying one more fact under a budget, changing shared tenant data concurrently, applying migrations exactly once,
and reporting on the result. `dafny verify dfyconfig.toml` checks everything.

A lead's score adds up points per field behind a disqualifying gate. The service compares two bounds with two
thresholds and concludes "no missing fact can change this". `Scoring.dfy` and `Settlement.dfy` give that conclusion its
meaning, a statement about every completion of the unknown facts, and prove when the comparison is sound (always, for a
well-formed profile) and when it is exact (a comparison of three scores read off the profile and the known facts, with
the attainable ceiling of a field in place of the declared one), and what learning facts does to it. `IcpConfig.dfy` ties
the scorer to submitted profiles and computes those ceilings, `Research.dfy` and
`Acquisition.dfy` to the purchase of facts, `Overlap.dfy` to purchases that overlap, `Recommendations.dfy` to what customers
are told.

Tenant data is modelled as interleaved transactions with a program counter each: `Tenancy.dfy`, `Invitations.dfy`,
`TenantCalls.dfy`, `InvitationCalls.dfy` and `OwnerLoss.dfy` (members and invitations in one system), `Profiles.dfy`,
`ProviderConfigs.dfy` and `ApiKeys.dfy`. The advisory lock key is an arbitrary function of what it protects, so hash
collisions are covered. Classes give the calls as the service makes them. For every transaction of several statements a
lemma shows that, run without interruption, it leaves what its call leaves; the calls of one statement are one step.

`Migrations.dfy`, `MigrationRuns.dfy` and `Mirror.dfy` cover the migration runner, alone and overlapping, and its renamed
mirror. `Bakeoff.dfy`, `Copilot.dfy` and `Regret.dfy` cover the resumable comparison run, the list pipeline and the regret
counters. `Sorting.dfy` and `Folders.dfy` hold the stable sort and the name order the others share.

## Results that are not what one would hope

- The clear-decision test is sound but not exact: a profile that passes validation can hide a settled lead, because
  overlapping bands or a category named "unknown" put a declared ceiling out of reach (`Counterexamples.OverlapHidesASettledLead`,
  `Counterexamples.UnknownCategoryHidesASettledLead`). The module documentation of `src/arie/icp_profiles.py` presents each
  ceiling as the most a field can contribute; the model follows the code. `Settlement.SettledIsExactIff` is the exact
  condition, and `IcpConfig.DecideAgreement` computes what the test should say.
- A field is called material although no answer to it alone can matter, in exactly two families: the gate is unresolved, the
  score is zero and the declared ceiling reaches a threshold; or the declared ceiling reaches a threshold and the attainable
  one does not (`Research.MaterialIffSomeAnswerMoves`; both families occur under accepted profiles,
  `Counterexamples.GateMakesAFieldMaterialInNameOnly` and the two lemmas above).
- The lead cap holds over every sequence of requests, but authorizing and charging are not covered by one lock:
  overlapping requests can overspend it (`Overlap.OverlappingRequestsCanOverspend`), exactly when the bills of some
  requests in flight, with charge keys that are new and pairwise distinct, do not fit under the cap together
  (`Overlap.OverspendsIffExposed`); landed in any order, such requests spend exactly the sum of their bills. One sum decides
  it, each new key counted once at its highest bill (`Overlap.ExposedIffCounted`), and where bills are the listed prices
  it is a comparison that can be made at authorization: the spend, the costs in flight and the new request's cost against
  the cap (`Overlap.AuthorizationExposesIff`). A run whose authorizations all pass it stays within the cap
  (`Overlap.UnexposedRunsStayWithinCap`).
- Accepting an invitation takes no organization lock and overwrites the role, so an organization can lose its last owner.
  An acceptance is safe exactly when it lowers no owner, or leaves one besides the accepting user who is also not the
  target of any demotion or removal of that organization that no longer counts owners (`Tenancy.AcceptSafeIff`). Two
  reachable runs break it: the sole owner accepts a lower role (`OwnerLoss.AcceptanceCanStrandAnOrganization`), and one
  of two owners does so while the other's removal is past its count (`OwnerLoss.AcceptanceCanStrandTwoOwners`). The
  first also commits an acceptance after the invitation's expiry: it was checked and stamped before it.
- A replacing save takes a lock that a removal does not: when the row it read is gone at its commit, the call's own
  assertion fails and everything is rolled back (`ProviderConfigs.RemovalOvertakesSave`).
- The CSV export skips a rejected lead that the list shows for review, exactly when the lead's interval is still open
  (`Recommendations.ExportDiffersIff`); the list and the pool can disagree the same way when the row's profile is no longer
  the active one (`Recommendations.RoutesDifferIff`).
- The needs-research filter reads the active thresholds and the planner those of the receipt: for a lead decided under an
  older profile they disagree exactly when one pair has a threshold in reach and the other has none
  (`Research.FilterAndPlanDifferIff`; `Research.FilterAndPlanCanDiffer` is such a lead).
- The comparison run forgets what the latest list left out: a settled pair is called a second time exactly when a list in
  between dropped it (`Bakeoff.CalledAgainIff`).
- Nothing bought can turn a sure preview around (`Acquisition.PreviewIsFinal`), but time can: evidence expires, and a newer,
  weaker claim outlives an older, stronger one (`Counterexamples.ExpiryTurnsAPreview`, `Counterexamples.DecayTurnsAPreview`).
  A preview survives every run of requests exactly when the evidence in hand still gives it at the later moment
  (`Acquisition.PreviewSurvivesIff`).
- The regret counters balance exactly when both policies were right equally often on the leads only one of them decided
  (`Regret.RegretBalancesIff`).

## Model

| member | source | states |
|---|---|---|
| Scoring.PointsInRange | src/arie/scoring/rules.py:282-325 | every field contributes between zero and its ceiling, whatever the value |
| Scoring.SizeEarnsFirstBand | src/arie/scoring/rules.py:282-306 | a size earns the points of the first band containing it, ends included, and nothing outside all of them |
| Scoring.IntentEarnsItsShare | src/arie/scoring/rules.py:314-320 | intent earns its value times the ceiling between 0 and 1, nothing below, the ceiling above |
| Scoring.GateZeroesTheScore | src/arie/scoring/rules.py:354-379 | an enabled gate whose flag is literally true scores zero whatever else is known |
| Scoring.ScoreAddsUp | src/arie/scoring/rules.py:360-384 | unless the gate is literally true, each additive answer adds what it earns alone, and nothing known scores zero |
| Scoring.FullScore | src/arie/scoring/rules.py:289-384 | the score of an ungated lead with every field known, term by term off the tables |
| Scoring.MaxCategoryPoints | src/arie/scoring/rules.py:219-232 | a category ceiling is the largest value of the point map |
| Scoring.AttainableCeilingIsExact | src/arie/scoring/rules.py:282-351 | the attainable ceiling read off the configuration is exactly the most any answer earns, and equals the declared one iff some answer reaches that |
| Scoring.LowerBoundReached | src/arie/scoring/engine.py:134-161 | some completion of the unknown facts scores exactly the lower bound |
| Scoring.TrueUpperReached | src/arie/scoring/engine.py:134-161 | some completion scores the current points plus the attainable ceilings of the unknown fields |
| Settlement.SettledIffOneClass | src/arie/scoring/rules.py:402-423 | settled holds iff both ends of the interval, hence every score between them, fall in one decision class |
| Settlement.CompletionWithinBounds | src/arie/scoring/engine.py:134-161 | every completion scores within the reachable bounds |
| Settlement.SettledIsSound | src/arie/research.py:189-194 | a clear decision is what every completion of the unknown fields and gate decides |
| Settlement.CompletionsAgreeIff | src/arie/scoring/engine.py:134-161 | all completions agree iff the lower bound and the score with attainable ceilings decide alike |
| Settlement.SettledIsExactIff | src/arie/scoring/rules.py:402-423 | the test is exact unless the lower bound and the attainable upper score decide alike and the declared upper bound does not |
| Settlement.SettledIsExact | src/arie/research.py:189-194 | with every unknown ceiling attainable, clear holds iff every completion gives the same class |
| Settlement.CheckedCeilingsReached | src/arie/icp_profiles.py:196-219 | disjoint bands and a usable top category make every ceiling attainable |
| Settlement.KeptFactsNestBounds | src/arie/scoring/engine.py:134-161 | while nothing known is lost the lower bound never falls and the upper never rises |
| Settlement.LearningNestsBounds | src/arie/research.py:182-199 | learning a fact nests the reachable bounds |
| Settlement.AcquisitionIsMonotone | src/arie/research.py:182-199 | along any acquisition sequence bounds nest, a clear decision keeps its class, and each step uses up one unknown field |
| IcpConfig.ValidateConfig | src/arie/icp_profiles.py:170-273 | reports exactly the violations a submitted configuration has, and none iff it is valid |
| IcpConfig.CheckPointMap | src/arie/icp_profiles.py:221-236 | reports exactly the faults of one point map |
| IcpConfig.CheckBands | src/arie/icp_profiles.py:196-219 | reports exactly the faults of the band list, by position |
| IcpConfig.MaxOfMap | src/arie/icp_profiles.py:246-254 | computes the largest value of a point map, zero for an empty one |
| IcpConfig.PointsKeepCategories | src/arie/icp_profiles.py:221-236 | an accepted map loses no category and no value |
| IcpConfig.MaterializedIsSound | src/arie/icp_profiles.py:276-301 | truncated bands stay non-empty, thresholds stay ordered, and the six ceilings sum to 100 within tolerance |
| IcpConfig.CategoriesEarnAsSubmitted | src/arie/icp_profiles.py:276-301 | industry, seniority and function each earn the number submitted for the value under the field's own map, nothing when it is not listed |
| IcpConfig.SizeEarnsAsSubmitted | src/arie/icp_profiles.py:276-301 | a size earns the points submitted with the first band that contains it once its ends are cut to whole numbers |
| IcpConfig.SignalsEarnAsSubmitted | src/arie/icp_profiles.py:276-301 | intent earns its share of the submitted intent weight, a truthy trigger the submitted trigger weight |
| IcpConfig.ScalarsArriveAsSubmitted | src/arie/icp_profiles.py:276-301 | thresholds and weights are the submitted numbers, and the gate is on unless submitted as false |
| IcpConfig.BandsArriveAsSubmitted | src/arie/icp_profiles.py:276-301 | band by band in the submitted order, with the submitted points and ends that lose only a fraction |
| IcpConfig.CeilingsAreSubmitted | src/arie/icp_profiles.py:276-301 | each ceiling is the largest number submitted for its own field |
| IcpConfig.AcceptedIff | src/arie/icp_profiles.py:170-273 | a configuration is accepted iff its document, read key by key, is well formed and its ceilings sum to 100 |
| IcpConfig.AcceptedProfileScoresInScale | src/arie/icp_profiles.py:246-259 | any facts score within 0 and 100 plus the tolerance under any accepted configuration |
| IcpConfig.DecideAgreement | src/arie/scoring/engine.py:134-161 | whether every completion decides alike, computed from the configuration and the known facts |
| Counterexamples.OverlapHidesASettledLead | src/arie/icp_profiles.py:196-219 | an accepted configuration with overlapping bands: a lead every completion decides alike is not clear, and a field no answer to which matters is material |
| Counterexamples.UnknownCategoryHidesASettledLead | src/arie/icp_profiles.py:221-236 | the same for a best category named "unknown" |
| Research.AnalyzeMateriality | src/arie/research.py:169-221 | the verdicts of the four candidate fields in declaration order, and the clear flag |
| Research.ClearIsSettled | src/arie/research.py:189-194 | the receipt's clear flag is the scorer's settled decision on the same facts |
| Research.ClearGuardRedundant | src/arie/research.py:200-217 | a field whose ceiling crosses a threshold already implies the decision is not clear |
| Research.MaterialIffSomeAnswerMoves | src/arie/research.py:195-221 | for every well-formed profile: material iff unknown and some answer to it alone moves the guaranteed class, except exactly in the two families of MaterialInNameOnly |
| Research.MaterialBehindOpenGate | src/arie/research.py:195-217 | a field called material although no answer to it moves the class |
| Counterexamples.GateMakesAFieldMaterialInNameOnly | src/arie/research.py:195-217 | the open-gate family occurs under an accepted profile |
| Research.LastUnknownField | src/arie/research.py:189-221 | with one candidate field unknown, not clear and material coincide |
| Research.SelectTargetIsBest | src/arie/research.py:224-240 | the target is material, no material field has a larger ceiling, ties go to the earliest field |
| Research.SelectedHasLargestCeiling | src/arie/research.py:224-240 | read off the receipt, the target is material with the largest ceiling, the first declared among equals, and there is one iff any field is material |
| Research.PlanNamesTheBestOrTheProposal | src/arie/research_acquisition.py:391-425 | the plan names the planner's proposal iff it is material, otherwise the best target |
| Research.FilterAndPlanAgree | src/arie/copilot_service.py:332-348 | for a lead decided under the active thresholds, the needs-research filter and the planner agree on whether there is a target, and the target is material |
| Research.FilterAndPlanDifferIff | src/arie/research_acquisition.py:266-291 | with other active thresholds than the receipt's, filter and planner disagree iff the lower bound is not below the score and exactly one of the two pairs has a threshold in reach of an unknown field's ceiling |
| Research.FilterAndPlanCanDiffer | src/arie/copilot_service.py:332-348 | a lead on the filter's list for which the planner finds nothing |
| Research.ApprovedIffEveryGateOpen | src/arie/research.py:320-372 | approval iff every gate is open at once, and the provider is the first usable candidate |
| Research.RefusalNamesAClosedGate | src/arie/research.py:320-372 | a refusal names a gate that is closed while every gate checked before it is open |
| Acquisition.ResearchedLead.RecordProviderCall | src/arie/ledger/store.py:159-271 | one charge per idempotency key |
| Acquisition.ResearchedLead.ExecuteResearch | src/arie/research_acquisition.py:529-701 | the new ledger, evidence and answer; a request that does not call changes nothing |
| Acquisition.PlanAndExecutionAgree | src/arie/research_acquisition.py:344-460 | executing a plan's target meets the planned verdict, reason, source and cost |
| Acquisition.CalledIsAuthorized | src/arie/research_acquisition.py:197-263 | the source called is the first open candidate, the one whose cost passed the cap and the organization's allowance |
| Acquisition.CalledIff | src/arie/research_acquisition.py:555-636 | a call happens iff the question is material on a decision not clear, in simulation, with no fresh answer, and the next source's listed cost fits the lead's cap and the organization's remaining allowance |
| Acquisition.CallLeaves | src/arie/research_acquisition.py:643-682 | one charge at what the source billed unless its key was charged, and one row with the source's answer if it had one |
| Acquisition.SimulatedRefusals | src/arie/research_acquisition.py:563-610 | each reason a simulated request is refused for, exactly |
| Acquisition.LiveRefusals | src/arie/research_acquisition.py:234-263 | a live request is never performed; each reason, exactly, from the unavailable and suppressed sources, the entitlement and the two budgets |
| Acquisition.ReportedIsNewest | src/arie/research_acquisition.py:612-640 | an answered request reports a fresh row of the field that none is newer than |
| Acquisition.RepeatOnlyAfterAll | src/arie/research_acquisition.py:219-232 | a source already called is chosen again only once every candidate has been called |
| Acquisition.FreshEvidenceCostsNothing | src/arie/research_acquisition.py:597-618 | a request that finds fresh evidence changes nothing |
| Acquisition.RunKeepsBudget | src/arie/research_acquisition.py:584-636 | over every run recorded spend that starts within the cap stays within it |
| Acquisition.RunOnlyAppends | src/arie/research_acquisition.py:620-682 | over every run charges stay unique per key and nothing recorded is lost |
| Acquisition.RunChargesBounded | src/arie/research.py:100-118 | any number of requests adds at most thirteen charges to a lead |
| Acquisition.RunSpendBounded | src/arie/providers/catalog.py:70-200 | whatever the cap, research on one lead adds at most 1.5148 in charges, the listed prices of its thirteen purchases |
| Acquisition.BelievedIsSurest | src/arie/scoring/merge.py:73-106 | the believed claim is fresh, says something, is the newest of its source, and no latest claim of a source that says something is surer; ties go to the last name |
| Acquisition.ConfidenceFades | src/arie/core/types.py:102-110 | a fresh claim's confidence fades in proportion to the life it has left |
| Acquisition.PreviewIsTheSettledClass | src/arie/research_acquisition.py:490-526 | a sure preview is the settled decision on the evidence, which every completion of it shares |
| Acquisition.PutIsLearning | src/arie/evidence/store.py:190-223 | recording an answer where no fresh evidence exists is learning exactly that fact |
| Acquisition.RequestLearnsAtMostOneFact | src/arie/research_acquisition.py:655-682 | one request leaves the facts alone or learns one fact about its target |
| Acquisition.PreviewIsFinal | src/arie/research_acquisition.py:490-526 | no run of requests made by a moment widens the bounds at that moment, so a sure preview of the evidence in hand is final |
| Acquisition.PreviewSurvivesIff | src/arie/research_acquisition.py:490-526 | a sure preview survives every run of requests until a later moment iff the evidence in hand alone still gives it then |
| Acquisition.SurePreviewLasts | src/arie/research_acquisition.py:490-526 | a sure preview is unchanged by any requests until later when each known field has a row fresh then and its fresh rows agree |
| Counterexamples.ExpiryTurnsAPreview | src/arie/research_acquisition.py:490-526 | under an accepted profile one purchase makes a lead qualify and, after the fact's real lifetime, another makes it reject |
| Counterexamples.DecayTurnsAPreview | src/arie/scoring/merge.py:73-106 | under an accepted profile decaying confidence turns a preview from qualifies to rejects with nothing expired or bought |
| Overlap.CapHoldsUpToOverlap | src/arie/research_acquisition.py:563-655 | in every interleaving a recorded request exceeds the cap by at most what was charged since its own authorization |
| Overlap.UninterruptedRequestIsTheCall | src/arie/research_acquisition.py:529-701 | a request recorded right after its authorization does what the call does |
| Overlap.SpendBoundedByFlights | src/arie/research_acquisition.py:563-655 | over every interleaving spend and everything in flight stay within the cap, the costs in flight beside an authorization, and other charges |
| Overlap.SeparateRequestsStayWithinCap | src/arie/research_acquisition.py:563-655 | requests that do not overlap stay within the cap apart from other charges |
| Overlap.LandedBillsAddUp | src/arie/research_acquisition.py:620-655 | requests in flight with new, pairwise distinct charge keys, landed in any order, spend exactly the sum of their bills |
| Overlap.OverspendsIffExposed | src/arie/research_acquisition.py:563-655 | from any state the requests in flight can land over the cap iff the bills of some with new, pairwise distinct keys do not fit together |
| Overlap.ExposedIffCounted | src/arie/research_acquisition.py:563-655 | that holds iff one sum exceeds the cap: the spend and, for each new key in flight, its highest bill |
| Overlap.AuthorizationExposesIff | src/arie/research_acquisition.py:584-636 | with bills at listed prices and no shared key, an authorization leads to it iff spend, costs in flight and its own cost exceed the cap |
| Overlap.FittingAuthorizationIsSafe | src/arie/research_acquisition.py:584-636 | whatever the keys, spend and costs in flight within the cap rule it out as long as no bill exceeds its listed price |
| Overlap.UnexposedRunsStayWithinCap | src/arie/research_acquisition.py:563-655 | a run in which no authorization and no other charge leads to it never exceeds the cap |
| Overlap.OverlappingRequestsCanOverspend | src/arie/research_acquisition.py:563-655 | a run of two overlapping requests, each within the cap, that together exceed it |
| Recommendations.SkipIsSettled | src/arie/recommendations.py:300-340 | a skip shown for a row with bounds never straddles a threshold |
| Recommendations.SkipMeansEveryCompletionAgrees | src/arie/recommendations.py:246-279 | a skip on either route with bounds means every completion keeps the class the lead's own facts have |
| Recommendations.RejectedReviewMeansOpen | src/arie/recommendations.py:320-333 | with attainable ceilings a rejected lead is skipped iff every completion agrees |
| Recommendations.ListAndPoolAgree | src/arie/batches.py:593-633 | the batch list and the copilot pool build one signal under the same thresholds |
| Recommendations.RoutesDifferIff | src/arie/copilot_service.py:214-233 | under two profiles' thresholds the routes differ exactly on rejected rows settled under one and open under the other |
| Recommendations.RoutesCanDiffer | src/arie/copilot_service.py:214-233 | a row skipped under the reference thresholds and under review under another profile's |
| Recommendations.ExportDiffersIff | src/arie/batch_export.py:117-127 | the export differs from the list exactly on rejected rows that are unsettled |
| Recommendations.EachPriorityIff | src/arie/recommendations.py:300-340 | each priority of a row with bounds, exactly, in the row's status, decision, confidence and interval |
| Recommendations.EachActionIff | src/arie/recommendations.py:343-374 | each suggested action, exactly, in the priority shown, the known contact and what is unknown |
| Tenancy.CountMeansAnother | src/arie/members.py:93-97 | more than one counted owner means an owner other than the target exists, and conversely |
| Tenancy.CommitChangeKeeps | src/arie/members.py:160-184 | the other owner found under the lock is still there at the commit |
| Tenancy.OwnersAlwaysRemain | src/arie/members.py:125-232 | in every interleaving whose acceptances are safe each organization has an active owner, for any lock keys |
| Tenancy.AcceptKeepsIff | src/arie/invitations.py:379-395 | an acceptance keeps the owner invariant iff it is safe: it lowers no owner, or an owner remains besides the user and besides the target of each change relying on another owner |
| Tenancy.UnsafeAcceptanceStrands | src/arie/members.py:187-232 | every unsafe acceptance can be followed by steps that are themselves safe to an organization without an owner |
| Tenancy.AcceptSafeIff | src/arie/invitations.py:213-227 | an acceptance is safe iff every organization keeps an owner in every safe continuation |
| Tenancy.AcceptStrandsIff | src/arie/invitations.py:218-227 | an acceptance leaves no owner at once iff it overwrites the only active owner with a lower role |
| TenantCalls.MemberTable.ChangeMember | src/arie/members.py:125-232 | the verdict and the whole new table; an organization that has an owner keeps one |
| TenantCalls.EachVerdictIff | src/arie/members.py:125-232 | each answer, exactly: oneself, an absent or inactive target, the last active owner, otherwise done |
| TenantCalls.MemberTable.UpdateMemberRole | src/arie/members.py:125-184 | exactly the target's role changes, or nothing does |
| TenantCalls.MemberTable.RemoveMember | src/arie/members.py:187-232 | exactly the target is deactivated, or nothing changes |
| TenantCalls.UninterruptedChangeIsTheCall | src/arie/members.py:125-232 | the interleaved transaction run alone does what the call does and releases its lock |
| OwnerLoss.AcceptanceCanStrandAnOrganization | src/arie/invitations.py:379-395 | a reachable run in which the sole owner accepts a lower role and no owner is left |
| OwnerLoss.AcceptanceCanStrandTwoOwners | src/arie/invitations.py:379-395 | a reachable run in which one of two owners accepts a lower role while the other's removal is past its count, and no owner is left |
| Invitations.InvitationsStayConsistent | src/arie/invitations.py:156-211 | in every interleaving one pending invitation per organization and address, unique tokens, acceptances stamped before expiry |
| Invitations.ResolvedIsFinal | src/arie/invitations.py:189-211 | accepted, revoked and expired are absorbing and the terms of an invitation never change |
| Invitations.TokenAcceptedOnce | src/arie/invitations.py:338-416 | no token is accepted twice in a run |
| Invitations.MembershipFollowsAcceptance | src/arie/invitations.py:379-416 | each membership written by an acceptance matches one invitation's organization, role and address, and no other step accepts |
| InvitationCalls.InvitationDesk.CreateInvitation | src/arie/invitations.py:230-300 | refused iff over quota, already pending or the token exists; otherwise one pending row is added |
| InvitationCalls.InvitationDesk.RevokeInvitation | src/arie/invitations.py:312-335 | revokes exactly a pending invitation of the organization |
| InvitationCalls.InvitationDesk.AcceptInvitation | src/arie/invitations.py:338-416 | the answer for every case of the invitation with the token, and the whole new state |
| InvitationCalls.EachAnswerIff | src/arie/invitations.py:338-416 | each answer, exactly, in the invitation's status, expiry, address and the quota |
| InvitationCalls.UninterruptedInvitingIsTheCall | src/arie/invitations.py:230-300 | the interleaved inviting transaction run alone leaves what the call leaves and holds nothing |
| InvitationCalls.UninterruptedAcceptingIsTheCall | src/arie/invitations.py:338-416 | the interleaved accepting transaction run alone answers and leaves what the call does, in every case |
| Profiles.VersionsAreGapless | migrations/0019_organization_icp_profiles.sql:32-53 | versions of an organization are exactly 1..n, exactly one row is active and it is n, both unique indexes hold |
| Profiles.ProfilesStayVersioned | src/arie/icp_profiles.py:364-404 | in every interleaving of creations the table is so, for any lock keys |
| Profiles.NoCreationIsRefused | src/arie/icp_profiles.py:304-315 | under the lock no unique index ever refuses an insert |
| Profiles.HistoryIsPermanent | src/arie/icp_profiles.py:317-339 | a stored version keeps its number and configuration forever and retires at most once |
| Profiles.ReadersSeeWholeProfiles | src/arie/icp_profiles.py:443-463 | any reader sees the whole old or the whole new active profile |
| Profiles.ActiveIsNewest | src/arie/icp_profiles.py:407-422 | the active profile is the newest version, and there is one iff any version exists |
| Profiles.ResolvedProfilesScoreInScale | src/arie/icp_profiles.py:443-463 | every profile resolved in any run is valid and scores in scale |
| Profiles.ProfileTable.CreateProfile | src/arie/icp_profiles.py:364-404 | rejected iff invalid and then nothing changes; otherwise the next version is active and the rest keeps everything else |
| Profiles.UninterruptedCreationIsTheCall | src/arie/icp_profiles.py:364-404 | the interleaved creation run alone makes the call's change and releases its lock |
| ProviderConfigs.StoreFollowsTheCalls | src/arie/provider_configs.py:241-420 | in every interleaving rows and vault secrets are paired one to one and hold what the calls left |
| ProviderConfigs.ResolverReturnsTheLastCredential | src/arie/credential_resolver.py:56-85 | the last credential stored for that organization and provider iff configured and enabled |
| ProviderConfigs.OtherOrganizationsDoNotInterfere | src/arie/credential_resolver.py:50-85 | no step of another organization changes what is resolved |
| ProviderConfigs.SavingReplacesInPlace | src/arie/provider_configs.py:241-314 | replacing keeps the row and the secret id, creating enables it, a save whose row vanished changes nothing |
| ProviderConfigs.RemovalOvertakesSave | src/arie/provider_configs.py:241-314 | a removal between a save's read and its commit leaves nothing configured and the save undone |
| ProviderConfigs.OtherPlacesDoNotMatter | src/arie/provider_configs.py:241-420 | only the calls about a place decide what it holds |
| ProviderConfigs.ProviderStore.SetProviderCredential | src/arie/provider_configs.py:241-314 | the place holds the new credential with its flag kept, every other place is unchanged, pairing stays |
| ProviderConfigs.UninterruptedSaveIsTheCall | src/arie/provider_configs.py:241-314 | the interleaved saving transaction run alone leaves the rows and secrets the call leaves and no lock |
| ProviderConfigs.ProviderStore.SetProviderEnabled | src/arie/provider_configs.py:317-352 | only the flag of a configured place changes |
| ProviderConfigs.ProviderStore.DeleteProviderConfig | src/arie/provider_configs.py:396-420 | row and secret go together, every other place is unchanged |
| ProviderConfigs.ProviderStore.ResolveProviderCredential | src/arie/credential_resolver.py:56-85 | unknown providers refused; the stored credential iff enabled |
| ApiKeys.TableRefinesKeyMap | src/arie/apikeys.py:270-304 | over every run lookup by prefix and hash gives the record of the whole key |
| ApiKeys.VerifiesIffIssuedAndNotRevoked | src/arie/apikeys.py:270-304 | a key verifies iff it was issued and not revoked since, with the issuing organization and scopes |
| ApiKeys.NoKeyIsIssuedTwice | src/arie/apikeys.py:196-236 | no key is issued twice |
| ApiKeys.FirstRevocationStands | src/arie/apikeys.py:165-177 | the first revocation time is never overwritten |
| ApiKeys.KeyTable.CreateApiKey | src/arie/apikeys.py:196-236 | the first of five keys with a free prefix is stored; none free, nothing is |
| ApiKeys.KeyTable.RevokeApiKey | src/arie/apikeys.py:246-267 | only an unrevoked key of the organization is stamped; found iff the organization has the id |
| ApiKeys.KeyTable.VerifyApiKey | src/arie/apikeys.py:270-304 | the verdict, and no key's record changes |
| ApiKeys.AttemptsAreTheCall | src/arie/apikeys.py:196-236 | insert attempts run as separate transactions leave what the call leaves |
| Folders.ListingIsExact | src/arie/migrations.py:49-69 | the listing holds exactly the SQL files, each once, in order of name |
| Folders.ListingIsUnique | src/arie/migrations.py:49-69 | the listing does not depend on the order the directory was read in |
| Migrations.Database.Migrate | scripts/migrate.py:252-310 | what a dry run or an apply answers and leaves, with failing files |
| Migrations.DryRunIsReadinessPlusChecksums | src/arie/migrations.py:72-99 | dry run and readiness check name the same files, except that the dry run refuses iff a recorded file changed |
| Migrations.EditsAreRefused | scripts/migrate.py:272-290 | a dry run refuses a file iff it is the first, in order of name, whose text is not the text that was applied |
| Migrations.ApplyRefusesEdits | scripts/migrate.py:272-290 | an apply refuses no other file, and that one unless the SQL of a file before it fails |
| Migrations.RunRemembers | src/arie/migrations.py:45-46 | every run leaves records of the texts applied: those it found, and the folder's own for what it recorded |
| Migrations.EditedBetweenFolders | scripts/migrate.py:272-290 | after an apply over one folder returned, dry run and apply over a later one refuse exactly the first SQL file both hold with different texts |
| Migrations.BadFoldersAreErrors | src/arie/migrations.py:49-69 | a missing directory and one without SQL files are errors of their own for dry run and readiness check |
| Migrations.ApplyDoesWhatDryRunSays | scripts/migrate.py:252-310 | an apply with succeeding SQL returns or raises what the dry run did, and then nothing is pending |
| Migrations.ApplyRepeatsNothing | scripts/migrate.py:252-310 | whatever SQL fails, each effect added is of a file without a record, none twice |
| MigrationRuns.AppliedStaysAPrefix | scripts/migrate.py:231-310 | under overlap, failure and crash records that began as a prefix stay one, and the effects are the files past the start, in order |
| MigrationRuns.EffectsAreCommittedOnce | scripts/migrate.py:252-310 | from any database no effect is committed twice or for a file recorded before |
| MigrationRuns.RecordsArePermanent | scripts/migrate.py:252-310 | from any database a record is never changed or lost |
| MigrationRuns.RunsRememberTexts | scripts/migrate.py:252-310 | however runs overlap, fail or crash, every record is of a text from before or of the folder |
| MigrationRuns.EditsAreRefusedDuringRuns | scripts/migrate.py:272-290 | at any moment of any run a dry run over any folder refuses exactly the first file whose text is not the one applied |
| MigrationRuns.EditsAreRefusedAfterSuccess | scripts/migrate.py:272-290 | once an apply has returned, that is the first SQL file both folders hold with different texts |
| MigrationRuns.DryRunsOnlyRead | scripts/migrate.py:231-310 | a dry runner changes nothing and, returning or raising, ends with the preview of its snapshot |
| MigrationRuns.SuccessLeavesNothingPending | src/arie/migrations.py:72-99 | from any database, after an apply returned, dry run and readiness check stay empty whatever other runs do |
| MigrationRuns.AloneIsMigrate | scripts/migrate.py:252-310 | a runner left alone from its start, dry or applying and whatever SQL fails, answers and leaves what the call does |
| Mirror.TimestampOrder | scripts/sync_supabase_migrations.py:45-47 | a later sequence number has a later timestamp of equal length, across days |
| Mirror.TimestampReadsBack | scripts/sync_supabase_migrations.py:41-47 | read back, a timestamp is its sequence number less one in minutes after midnight of 2026-01-01 |
| Mirror.RenamingKeepsOrder | scripts/sync_supabase_migrations.py:50-57 | renaming is injective and keeps the order of names |
| Mirror.NameReadsBack | scripts/sync_supabase_migrations.py:50-57 | a renamed file keeps the rest of its name, and its timestamp reads back as its number |
| Mirror.ConventionIff | scripts/sync_supabase_migrations.py:38 | a name is accepted iff it is four digits, an underscore, a body on one line and the suffix |
| Mirror.PlanIsFaithful | scripts/sync_supabase_migrations.py:60-61 | one mirror per source, same text, distinct names in order; refused iff a name is unconventional |
| Mirror.MirrorFolder.Sync | scripts/sync_supabase_migrations.py:64-76 | from any folder the SQL files equal the plan and nothing else is touched |
| Mirror.MirrorFolder.Check | scripts/sync_supabase_migrations.py:79-102 | exactly the differences; none iff the folder equals the plan |
| Mirror.SyncIsIdempotent | scripts/sync_supabase_migrations.py:64-76 | a second sync changes nothing |
| Bakeoff.RunBakeoff | scripts/provider_bakeoff.py:438-478 | the records of the whole run, and as spend what the providers bill for its calls, never above the ceiling if calls cost at most the base cost |
| Bakeoff.LoadCache | scripts/provider_bakeoff.py:843-862 | a key is resumed iff some line settled it, and as the last such line |
| Bakeoff.SpendStaysUnderCeiling | scripts/provider_bakeoff.py:438-478 | whatever part of a run has been made, the providers' bills for it stay within the ceiling |
| Bakeoff.SpentIsBilled | scripts/provider_bakeoff.py:472-477 | the spend a run counts is what the providers bill for its calls |
| Bakeoff.EachRecord | scripts/provider_bakeoff.py:455-477 | each record, exactly: a resumed copy, a skip for want of a domain, a skip because bills and listed cost do not fit, or a call with the provider's own cost, status and details |
| Bakeoff.OneSettledCallPerPair | scripts/provider_bakeoff.py:895-910 | over any number of runs of one list each provider settles each identity by at most one call |
| Bakeoff.RememberedIff | scripts/provider_bakeoff.py:843-910 | a run's file resumes a key iff its list asked for it and it was resumed or settled by a call; a resumed key is not called |
| Bakeoff.SettledTwiceOnlyIfDropped | scripts/provider_bakeoff.py:895-910 | over any lists, between two runs that settle one key by a call some list left the key out |
| Bakeoff.CalledAgainIff | scripts/provider_bakeoff.py:438-478 | after a settling call, a later run calls the pair again iff a list in between left it out, it has the domain it needs and the bills so far leave room for it |
| Bakeoff.DroppedPairIsCalledAgain | scripts/provider_bakeoff.py:895-910 | asked, left out and asked again, a pair is called and settled twice |
| Bakeoff.RunsMakeProgress | scripts/provider_bakeoff.py:438-478 | from any results file outstanding pairs never grow, and strictly shrink when the ceiling covers each call and none fails |
| Bakeoff.SeriesFinishes | scripts/provider_bakeoff.py:895-910 | from any results file, within as many runs as outstanding pairs nothing is left to call |
| Bakeoff.FinishedRunsOnlyReproduce | scripts/provider_bakeoff.py:438-478 | with nothing outstanding a run spends nothing and reproduces every settled line |
| Bakeoff.PairsAreDistinct | scripts/provider_bakeoff.py:438-478 | distinct addresses and provider names give distinct cache keys |
| Copilot.ApplyPlanFilters | src/arie/copilot_service.py:381-407 | the six filters in turn keep exactly what meets all of them, in order |
| Copilot.AnswerListQuery | src/arie/copilot_service.py:633-676 | the answer is the ordered list cut to the clamped limit |
| Copilot.OrderedIsExact | src/arie/copilot_service.py:354-421 | the ordered list is exactly the qualifying leads of the pool, each once, sorted |
| Copilot.ListedIff | src/arie/copilot_service.py:354-407 | a lead is listed iff it suits the question and meets every filter that is set |
| Copilot.ListedInOrder | src/arie/copilot_service.py:410-421 | how two listed leads stand for each sort option, missing numbers as minus a billion, names without case |
| Copilot.AnswerIsTheBestOfThePool | src/arie/copilot_service.py:661-676 | at most min(limit, 50) leads of the pool without duplication, in order, nothing left out is strictly better |
| Copilot.TiesStayInFetchOrder | src/arie/copilot_service.py:410-421 | leads the order cannot tell apart stay in fetch order |
| Copilot.TodayListsTheUrgentFirst | src/arie/copilot.py:405-425 | the ranking's members and its order by priority, score and confidence |
| Copilot.FilteringCommutesWithRanking | src/arie/copilot_service.py:661-676 | filtering after the stable ranking is ranking after filtering |
| Copilot.DashboardAgreesWithCopilot | src/arie/dashboard.py:66-72 | the dashboard's top five open the unfiltered answer |
| Copilot.MergeLookups | src/arie/copilot_service.py:294-329 | lookups by name merge to one row per lead, first occurrence kept, none lost |
| Regret.CounterfactualRegret | bench/metrics.py:48-79 | the counters of the loop, and improved plus worsened at most changed |
| Regret.CountersCount | bench/metrics.py:48-66 | changed, improved and worsened are numbers of policy records whose decision differs from the last the reference made for the lead, told apart by who was right |
| Regret.RegretBalances | bench/metrics.py:48-79 | improved minus worsened equals the difference in correct decisions |
| Regret.RegretBalancesIff | bench/metrics.py:48-79 | for distinct leads judged by one oracle the balance holds iff both policies are right equally often on leads only one decided |
| Regret.UncoveredLead | bench/metrics.py:51-62 | one uncovered lead breaks the balance when decided right and not when decided wrong |

## Left out

- Numbers: floats, decimals and timestamps are reals and integers; NaN, infinities and rounding (`round(..., 6)`) are not modelled.
- Values: how a raw value reads as a number, a boolean or a string is carried by the value itself, not computed.
- Hashes and ids: SHA-256 and UUIDs are injective or fresh parameters; tokens and new keys are chosen by the run.
- Text: file-name digits and case folding are ASCII; SQL `ILIKE`, wildcard escaping and the lookup queries are not modelled.
- Transactions: a write and the commit that publishes it are one step, because the written rows stay locked in between;
  deadlocks end as aborts, which may happen at any point.
- Ledger and evidence tables: idempotent insertion by key and append with expiry; their SQL is not part of this model.
- Scoring.AttainableCeilingIsExact: an employee count may be fractional here, and the probe half above a band's end counts
  one that lies between two bands; with whole counts only, the attainable ceiling can be lower.
- Acquisition.PreviewSurvivesIff: one profile holds from the first preview to the last.
- Acquisition.RunOnlyAppends: the evidence is one lead's own; rows about a company that other leads share are not part of
  this model.
- Acquisition.RunKeepsBudget: assumes that a source never bills above its listed cost.
- Bakeoff.RunBakeoff: assumes the same of the compared providers; a run that stops before it writes its results file leaves the old file, so its calls can be repeated.
- Invitations: quota decisions and e-mail delivery are parameters; a refused quota is an abort of the interleaved system.
- Profiles: the bootstrap rows are the starting table; the reference configuration used without a profile is not spelled out.
- Migrations: target selection, connection strings and command-line handling; the directory does not change while runners overlap.
- Mirror.MirrorFolder.Sync: creating a missing target directory is not modelled; a missing directory is an empty folder.
- Copilot: COMPARE_LEADS beyond merging its lookups, language-model plans, answer texts; a plan is any value of its type.
- Regret.CounterfactualRegret: the rates and cost figures derived from the counters are single divisions.
- Live research calls, their suppression query and entitlement lookup enter as parameters of a request.
- Scoring confidence, completeness weights and contested evidence: they feed explanations, not the properties here.
- `evaluate_verdict`, cost models, onboarding, billing and rendering would add only short case splits.
