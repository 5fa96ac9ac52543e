/**
 What a customer is told to do about a lead, and the three routes that build
 the signal it is derived from: the batch list, the copilot pool and the CSV
 export. Models src/arie/recommendations.py with its callers in
 src/arie/batches.py, src/arie/copilot_service.py and src/arie/batch_export.py.
 */
module Recommendations {
  import opened Scoring
  import opened Settlement

  datatype LeadStatus =
    | New | IdentityResolved | ScoringStatus | FetchingEvidence | Integrating | DecisionStatus
    | AutoRouted | AwaitingHuman | ManualReview | Routed | Synced | Failed | DeadLetter | ShadowEvaluated

  predicate IsRejected(s: LeadStatus) { s == Synced }
  predicate IsAwaitingReview(s: LeadStatus) { s == AwaitingHuman }
  predicate IsFailure(s: LeadStatus) { s == Failed || s == DeadLetter }

  datatype CustomerPriority = ContactFirst | WorthPursuing | Review | Skip

  datatype NextAction = ContactNow | EmailFirst | FindDecisionMaker | ResearchMore | Nurture | SkipLead | HumanReview

  datatype ConfidenceBand = High | Medium | Low

  function BandOf(confidence: real): ConfidenceBand {
    if confidence >= 0.75 then High else if confidence >= 0.45 then Medium else Low
  }

  datatype Sufficiency = SettledOutcome | InsufficientEvidence

  datatype DecisionSignal = DecisionSignal(
    status: LeadStatus,
    decision: Option<Decision>,
    confidence: Option<real>,
    unknown: set<ScoredField>,
    sufficiency: Option<Sufficiency>)

  /** One joined decision row; every receipt column is missing before a decision. */
  datatype DecisionRow = DecisionRow(
    status: LeadStatus,
    decision: Option<Decision>,
    confidence: Option<real>,
    score: Option<real>,
    lower: Option<real>,
    upper: Option<real>,
    unknown: set<ScoredField>)

  /** from_decision_row: the sufficiency is computed only when all four numbers are supplied. */
  function FromDecisionRow(row: DecisionRow, lower: Option<real>, upper: Option<real>,
                           qualify: Option<real>, reject: Option<real>): DecisionSignal {
    DecisionSignal(
      row.status, row.decision, row.confidence, row.unknown,
      if lower.Some? && upper.Some? && qualify.Some? && reject.Some? then
        Some(if SettledDecision(lower.value, upper.value, qualify.value, reject.value).Some?
             then SettledOutcome else InsufficientEvidence)
      else None)
  }

  /** The priority, or None where the code's own assertion fails (a decided, unrejected row without a confidence). */
  function CustomerPriorityOf(s: DecisionSignal): Option<CustomerPriority> {
    if s.decision.None? then Some(Review)
    else if IsFailure(s.status) || IsAwaitingReview(s.status) then Some(Review)
    else if IsRejected(s.status) then
      if s.sufficiency == Some(InsufficientEvidence) then Some(Review) else Some(Skip)
    else if s.confidence.None? then None
    else if s.decision == Some(AutoRoute) && BandOf(s.confidence.value) == High then Some(ContactFirst)
    else Some(WorthPursuing)
  }

  function NextActionOf(p: CustomerPriority, s: DecisionSignal): NextAction {
    if s.decision.None? then ResearchMore
    else if IsFailure(s.status) || IsAwaitingReview(s.status) then HumanReview
    else if p == Skip then SkipLead
    else
      var hasContact := TitleSeniority !in s.unknown;
      if p == ContactFirst then if hasContact then ContactNow else FindDecisionMaker
      else if p == WorthPursuing then
        if !hasContact then FindDecisionMaker else if s.unknown != {} then EmailFirst else Nurture
      else ResearchMore
  }

  const QUALIFY_THRESHOLD := 65.0
  const REJECT_THRESHOLD := 55.0

  function OrElse(x: Option<real>, fallback: real): real {
    if x.Some? then x.value else fallback
  }

  /** The batch list: thresholds of the row's profile, or the reference ones; no signal for a row without a lead. */
  function BatchListSignal(row: DecisionRow, profileQualify: Option<real>, profileReject: Option<real>)
    : DecisionSignal {
    FromDecisionRow(row, row.lower, row.upper,
                    Some(OrElse(profileQualify, QUALIFY_THRESHOLD)), Some(OrElse(profileReject, REJECT_THRESHOLD)))
  }

  /** The copilot pool and the dashboard: thresholds of the organization's active configuration. */
  function PoolSignal(row: DecisionRow, qualify: real, reject: real): DecisionSignal {
    FromDecisionRow(row, row.lower, row.upper, Some(qualify), Some(reject))
  }

  /** The CSV export passes neither bounds nor thresholds, and exports only decided, scored rows. */
  function ExportSignal(row: DecisionRow): DecisionSignal {
    FromDecisionRow(row, None, None, None, None)
  }

  /** The stored row of a lead decided on `facts` under `c`. */
  ghost function RowFor(c: ScoringConfig, facts: Facts, status: LeadStatus, d: Decision, confidence: real)
    : DecisionRow {
    var b := ComputeBounds(c, facts);
    DecisionRow(status, Some(d), Some(confidence), Some(b.current), Some(b.lower), Some(b.upper),
                set f | f in ALL_FIELDS && !Known(facts, f))
  }

  /** A SKIP shown for a row with bounds never straddles a threshold. */
  lemma SkipIsSettled(row: DecisionRow, qualify: real, reject: real)
    requires reject < qualify
    requires row.lower.Some? && row.upper.Some? && row.lower.value <= row.upper.value
    requires CustomerPriorityOf(PoolSignal(row, qualify, reject)) == Some(Skip)
    ensures row.decision.Some? && IsRejected(row.status)
    ensures forall x, y :: row.lower.value <= x <= row.upper.value && row.lower.value <= y <= row.upper.value ==>
              Decide(x, qualify, reject) == Decide(y, qualify, reject)
  {
    SettledIffOneClass(row.lower.value, row.upper.value, qualify, reject);
  }

  /** What SKIP promises, through either route that has bounds: every completion of the facts the lead was decided
      on falls in the class those facts already have, so a skipped lead decided as a reject could not have
      qualified. */
  lemma SkipMeansEveryCompletionAgrees(c: ScoringConfig, facts: Facts, status: LeadStatus, d: Decision,
                                       confidence: real)
    requires WellFormed(c) && c.reject < c.qualify
    requires var row := RowFor(c, facts, status, d, confidence);
             CustomerPriorityOf(PoolSignal(row, c.qualify, c.reject)) == Some(Skip)
             || CustomerPriorityOf(BatchListSignal(row, Some(c.qualify), Some(c.reject))) == Some(Skip)
    ensures EveryCompletionAgrees(c, facts)
    ensures EveryCompletionDecides(c, facts, Decide(Score(c, facts), c.qualify, c.reject))
  {
    SettledIsSound(c, facts);
    BoundsOrder(c, facts);
    var b := ComputeBounds(c, facts);
    SettledIffOneClass(b.lower, b.upper, c.qualify, c.reject);
    assert b.lower <= b.current <= b.upper by { CurrentWithinBounds(c, facts); }
  }

  lemma CurrentWithinBounds(c: ScoringConfig, facts: Facts)
    requires WellFormed(c)
    ensures ComputeBounds(c, facts).lower <= ComputeBounds(c, facts).current <= ComputeBounds(c, facts).upper
  {
    BoundsOrder(c, facts);
    forall f: ScoredField ensures Open(c, facts, f) >= 0.0 { CeilingNonNegative(c, f); }
  }

  /** The converse with reachable ceilings: a rejected lead that is not skipped has two completions that differ. */
  lemma RejectedReviewMeansOpen(c: ScoringConfig, facts: Facts, d: Decision, confidence: real)
    requires WellFormed(c) && c.reject < c.qualify && UnknownCeilingsReached(c, facts)
    ensures CustomerPriorityOf(PoolSignal(RowFor(c, facts, Synced, d, confidence), c.qualify, c.reject)) ==
            Some(if EveryCompletionAgrees(c, facts) then Skip else Review)
  {
    SettledIsExact(c, facts);
  }

  /** Both routes with bounds give one priority and one next action under the same thresholds. */
  lemma ListAndPoolAgree(row: DecisionRow, qualify: real, reject: real)
    ensures BatchListSignal(row, Some(qualify), Some(reject)) == PoolSignal(row, qualify, reject)
    ensures BatchListSignal(row, None, None) == PoolSignal(row, QUALIFY_THRESHOLD, REJECT_THRESHOLD)
  {
  }

  /** A row scored under one profile and listed under another: the two routes differ exactly on a rejected row with
      bounds that is settled under one pair of thresholds and open under the other, and there the settled side says
      SKIP. */
  lemma RoutesDifferIff(row: DecisionRow, profileQualify: Option<real>, profileReject: Option<real>, qualify: real,
                        reject: real)
    ensures var q, r := OrElse(profileQualify, QUALIFY_THRESHOLD), OrElse(profileReject, REJECT_THRESHOLD);
            var list := CustomerPriorityOf(BatchListSignal(row, profileQualify, profileReject));
            var pool := CustomerPriorityOf(PoolSignal(row, qualify, reject));
            && (list != pool <==>
                  && row.decision.Some? && IsRejected(row.status) && row.lower.Some? && row.upper.Some?
                  && (SettledDecision(row.lower.value, row.upper.value, q, r).Some? <==>
                      SettledDecision(row.lower.value, row.upper.value, qualify, reject).None?))
            && (list != pool ==>
                  (list == Some(Skip) <==> SettledDecision(row.lower.value, row.upper.value, q, r).Some?)
                  && {list, pool} == {Some(Skip), Some(Review)})
  {
  }

  /** Such rows exist: rejected as settled under the reference thresholds, still open under a profile whose rejection
      threshold is the row's upper bound. */
  lemma RoutesCanDiffer(lower: real, upper: real)
    requires 0.0 <= lower <= upper < REJECT_THRESHOLD
    ensures var row := DecisionRow(Synced, Some(Reject), Some(0.5), Some(lower), Some(lower), Some(upper), {});
            && CustomerPriorityOf(BatchListSignal(row, None, None)) == Some(Skip)
            && (lower < upper ==>
                  CustomerPriorityOf(PoolSignal(row, 100.0, upper)) == Some(Review))
  {
  }

  /** The export's priority differs from the list's exactly on rejected rows whose interval is still open,
      and there it says SKIP where the list says REVIEW. */
  lemma ExportDiffersIff(row: DecisionRow, qualify: real, reject: real)
    ensures var list := CustomerPriorityOf(PoolSignal(row, qualify, reject));
            var export_ := CustomerPriorityOf(ExportSignal(row));
            && (list != export_ <==>
                  row.decision.Some? && IsRejected(row.status) && row.lower.Some? && row.upper.Some?
                  && SettledDecision(row.lower.value, row.upper.value, qualify, reject).None?)
            && (list != export_ ==>
                  && list == Some(Review) && export_ == Some(Skip)
                  && NextActionOf(Review, PoolSignal(row, qualify, reject)) == ResearchMore
                  && NextActionOf(Skip, ExportSignal(row)) == SkipLead)
  {
  }

  /** What the pool shows, in the row's own numbers: a lead is skipped exactly when it was rejected and no missing fact
      can change that, contacted first exactly when routed with high confidence, and reviewed when undecided, failed,
      awaiting somebody, or rejected while the interval is open. */
  lemma EachPriorityIff(row: DecisionRow, qualify: real, reject: real)
    requires row.lower.Some? && row.upper.Some?
    ensures var p := CustomerPriorityOf(PoolSignal(row, qualify, reject));
            var pending := row.decision.None? || row.status in {Failed, DeadLetter, AwaitingHuman};
            var open := (row.lower.value < qualify && row.upper.value >= reject)
                        && (row.lower.value < reject || row.upper.value >= qualify);
            && (p == Some(Skip) <==> !pending && row.status == Synced && !open)
            && (p == Some(Review) <==> pending || (row.status == Synced && open))
            && (p == Some(ContactFirst) <==>
                  !pending && row.status != Synced && row.decision == Some(AutoRoute)
                  && row.confidence.Some? && row.confidence.value >= 0.75)
            && (p == Some(WorthPursuing) <==>
                  !pending && row.status != Synced && row.confidence.Some?
                  && (row.decision != Some(AutoRoute) || row.confidence.value < 0.75))
  {
  }

  /** And what it suggests: each action exactly, for a shown priority. */
  lemma EachActionIff(row: DecisionRow, qualify: real, reject: real)
    requires CustomerPriorityOf(PoolSignal(row, qualify, reject)).Some?
    ensures var s := PoolSignal(row, qualify, reject);
            var p := CustomerPriorityOf(s).value;
            var a := NextActionOf(p, s);
            var contact := TitleSeniority !in row.unknown;
            && (a == SkipLead <==> p == Skip)
            && (a == HumanReview <==> row.decision.Some? && row.status in {Failed, DeadLetter, AwaitingHuman})
            && (a == ContactNow <==> p == ContactFirst && contact)
            && (a == FindDecisionMaker <==> (p == ContactFirst || p == WorthPursuing) && !contact)
            && (a == EmailFirst <==> p == WorthPursuing && contact && row.unknown != {})
            && (a == Nurture <==> p == WorthPursuing && row.unknown == {})
            && (a == ResearchMore <==>
                  p == Review && (row.decision.None? || row.status !in {Failed, DeadLetter, AwaitingHuman}))
  {
  }
}
