/**
 Accepted profiles and concrete leads on which the service's conclusions fall
 short of their wording: a settled lead not reported, a field material in name
 only, a preview that time turns around. The exact conditions are in
 Settlement, Research and Acquisition; here are inputs that meet them.
 */
module Counterexamples {
  import opened Scoring
  import opened Settlement
  import opened IcpConfig
  import opened Sorting
  import opened Research
  import opened Acquisition

  /** A profile scoring size, industry and intent only. */
  function Sample(bands: seq<BandEntry>, industry: map<string, Json>, intent: real, gate: bool): Config {
    Config(Num(70.0), Num(60.0), Some(bands),
           (m: PointMap) => if m == IndustryMap then Mapping(industry) else Mapping(map[]),
           (w: Weight) => if w == IntentWeight then Num(intent) else Num(0.0), None, Some(Bool(gate)))
  }

  lemma SampleAccepted(bands: seq<BandEntry>, industry: map<string, Json>, intent: real, gate: bool)
    requires bands != [] && (forall i :: 0 <= i < |bands| ==> SoundBand(bands[i])) && intent >= 0.0
    requires forall k :: k in industry ==> k != "" && NonNegativeNumber(industry[k])
    requires RawBandMax(bands) + MaxCategoryPoints(Points(Mapping(industry))) + intent == 100.0
    ensures ValidConfig(Sample(bands, industry, intent, gate))
  {
    var c := Sample(bands, industry, intent, gate);
    assert Points(Mapping(map[])) == map[];
    forall v: Violation ensures !Structural(c, v) {
    }
  }

  /** The verdict on a field of a lead decided on `facts` under `s`. */
  ghost predicate IsMaterial(s: ScoringConfig, facts: Facts, f: ScoredField) {
    MaterialityOf(ReceiptFor(s, facts), CeilingsOf(s), f) == Material
  }

  // ------------------------------------------------ ceilings nothing reaches --

  function AllBut(open: ScoredField): Facts {
    map[EmployeeCount := NOTHING, Industry := NOTHING, TitleSeniority := NOTHING, TitleFunction := NOTHING,
        BuyingIntent := NOTHING.(number := Some(1.0)), RecentTriggerEvent := NOTHING, DisqualifyingFlag := NOTHING]
    - {open}
  }

  lemma SixtyPoints(s: ScoringConfig, open: ScoredField)
    requires open == EmployeeCount || open == Industry
    requires WellFormed(s) && s.intentMaxPoints == 60.0 && s.triggerPoints == 0.0
    ensures ComputeBounds(s, AllBut(open)) == Bounds(60.0, 60.0, 60.0 + Ceiling(s, open))
    ensures TrueUpper(s, AllBut(open)) == 60.0 + AttainableCeiling(s, open)
    ensures forall f: ScoredField :: Known(AllBut(open), f) <==> f != open
  {
    var facts := AllBut(open);
    assert IntentPoints(60.0, Some(1.0)) == 60.0;
    forall f: ScoredField
      ensures Known(facts, f) <==> f != open
      ensures PointsOf(s, facts, f) == if f == BuyingIntent then 60.0 else 0.0
    {
    }
  }

  /** A declared ceiling of 40 that no answer reaches, 10 points short of the threshold: every completion agrees,
      the lead is not reported clear, and the field is called material although no answer to it moves the class. */
  lemma OutOfReach(s: ScoringConfig, open: ScoredField)
    requires open == EmployeeCount || open == Industry
    requires WellFormed(s) && s.intentMaxPoints == 60.0 && s.triggerPoints == 0.0
    requires s.qualify == 70.0 && s.reject == 60.0
    requires Ceiling(s, open) == 40.0 && AttainableCeiling(s, open) == 0.0
    ensures EveryCompletionAgrees(s, AllBut(open)) && Settled(s, AllBut(open)).None?
    ensures !GateOpen(s, AllBut(open)) && IsMaterial(s, AllBut(open), open)
    ensures !SomeAnswerMoves(s, AllBut(open), open)
  {
    SixtyPoints(s, open);
    CompletionsAgreeIff(s, AllBut(open));
    MaterialWhenUnknown(s, AllBut(open), open);
    MovesWhenUnknown(s, AllBut(open), open);
  }

  const OVERLAPPING := [Entry(Num(0.0), Num(100.0), Num(0.0)), Entry(Num(10.0), Num(20.0), Num(40.0))]

  lemma OverlappingBands(s: ScoringConfig)
    requires s.sizeBands == [Band(0, 100, 0.0), Band(10, 20, 40.0)]
    ensures AttainableCeiling(s, EmployeeCount) == 0.0 && Ceiling(s, EmployeeCount) == 40.0
  {
    var bands := s.sizeBands;
    assert bands[1..] == [Band(10, 20, 40.0)] && bands[1..][1..] == [];
    assert MaxBandPoints(bands[1..]) == 40.0;
    var probes := Probes(bands);
    assert Probes(bands[1..]) == [10.0, 20.5] + Probes([]) == [10.0, 20.5];
    assert probes == [0.0, 100.5] + [10.0, 20.5] == [0.0, 100.5, 10.0, 20.5];
    assert SizePoints(bands, Some(0.0)) == SizePoints(bands, Some(10.0)) == SizePoints(bands, Some(20.5)) == 0.0;
    assert SizePoints(bands, Some(100.5)) == SizePoints(bands[1..], Some(100.5)) == 0.0;
    assert probes[1..] == [100.5, 10.0, 20.5] && probes[1..][1..] == [10.0, 20.5] && probes[1..][1..][1..] == [20.5];
    assert BestProbe(bands, [20.5]) == 0.0;
    assert BestProbe(bands, [10.0, 20.5]) == 0.0;
    assert BestProbe(bands, [100.5, 10.0, 20.5]) == 0.0;
  }

  /** Overlapping bands pass validation, hide a settled lead and make a field material in name only. */
  lemma OverlapHidesASettledLead()
    ensures var c := Sample(OVERLAPPING, map[], 60.0, true);
            && ValidConfig(c)
            && EveryCompletionAgrees(Materialize(c), AllBut(EmployeeCount))
            && Settled(Materialize(c), AllBut(EmployeeCount)).None?
            && IsMaterial(Materialize(c), AllBut(EmployeeCount), EmployeeCount)
            && !SomeAnswerMoves(Materialize(c), AllBut(EmployeeCount), EmployeeCount)
  {
    assert Points(Mapping(map[])) == map[];
    assert RawBandMax(OVERLAPPING) == MaxReal(0.0, RawBandMax(OVERLAPPING[1..])) == 40.0;
    SampleAccepted(OVERLAPPING, map[], 60.0, true);
    var c := Sample(OVERLAPPING, map[], 60.0, true);
    MaterializedIsSound(c);
    var s := Materialize(c);
    assert s.sizeBands == [Band(0, 100, 0.0), Band(10, 20, 40.0)];
    OverlappingBands(s);
    OutOfReach(s, EmployeeCount);
  }

  /** So does a best category named by the word the scorer reads as "no evidence". */
  lemma UnknownCategoryHidesASettledLead()
    ensures var c := Sample([Entry(Num(0.0), Num(10.0), Num(0.0))], map[UNKNOWN := Num(40.0)], 60.0, true);
            && ValidConfig(c)
            && EveryCompletionAgrees(Materialize(c), AllBut(Industry))
            && Settled(Materialize(c), AllBut(Industry)).None?
            && IsMaterial(Materialize(c), AllBut(Industry), Industry)
            && !SomeAnswerMoves(Materialize(c), AllBut(Industry), Industry)
  {
    var bands, industry := [Entry(Num(0.0), Num(10.0), Num(0.0))], map[UNKNOWN := Num(40.0)];
    var points := Points(Mapping(industry));
    assert points.Keys == {UNKNOWN} && points[UNKNOWN] == 40.0;
    assert IsLargest(points, MaxCategoryPoints(points));
    SampleAccepted(bands, industry, 60.0, true);
    var c := Sample(bands, industry, 60.0, true);
    MaterializedIsSound(c);
    assert points - {UNKNOWN} == map[];
    OutOfReach(Materialize(c), Industry);
  }

  // ------------------------------------------------- an industry-led profile --

  const SOFTWARE := "software"

  function IndustryLed(gate: bool): Config {
    Sample([Entry(Num(0.0), Num(10.0), Num(30.0))], map[SOFTWARE := Num(70.0)], 0.0, gate)
  }

  lemma IndustryLedAccepted(gate: bool)
    ensures ValidConfig(IndustryLed(gate))
    ensures var s := Materialize(IndustryLed(gate));
            && WellFormed(s) && s.qualify == 70.0 && s.reject == 60.0 && s.disqualifierEnabled == gate
            && s.industryPoints == map[SOFTWARE := 70.0]
            && Ceiling(s, Industry) == 70.0 && Ceiling(s, EmployeeCount) == 30.0
            && Ceiling(s, TitleSeniority) == Ceiling(s, TitleFunction) == 0.0
            && Ceiling(s, BuyingIntent) == Ceiling(s, RecentTriggerEvent) == 0.0
  {
    var bands, industry := [Entry(Num(0.0), Num(10.0), Num(30.0))], map[SOFTWARE := Num(70.0)];
    var points := Points(Mapping(industry));
    assert points == map[SOFTWARE := 70.0];
    assert IsLargest(points, MaxCategoryPoints(points)) && SOFTWARE in points;
    assert Points(Mapping(map[])) == map[];
    SampleAccepted(bands, industry, 0.0, gate);
    MaterializedIsSound(IndustryLed(gate));
  }

  /** Under an accepted profile a new lead's industry is called material, although behind the unresolved gate no
      industry matters. */
  lemma GateMakesAFieldMaterialInNameOnly()
    ensures ValidConfig(IndustryLed(true))
    ensures var s := Materialize(IndustryLed(true));
            && IsMaterial(s, map[], Industry)
            && !SomeAnswerMoves(s, map[], Industry)
  {
    IndustryLedAccepted(true);
    MaterialBehindOpenGate(Materialize(IndustryLed(true)));
  }

  // ------------------------------------------------------------ turned previews --

  const RETAIL := "retail"

  function Named(shown: string): Value { Observed(shown, None, true, false) }

  predicate OnlyIndustry(facts: Facts, v: Value) {
    Get(facts, Industry) == v && forall f: ScoredField :: f != Industry ==> !Known(facts, f)
  }

  lemma IndustryDecides(facts: Facts, shown: string)
    requires shown == SOFTWARE || shown == RETAIL
    requires ValidConfig(IndustryLed(false)) && OnlyIndustry(facts, Named(shown))
    ensures var b := ComputeBounds(Materialize(IndustryLed(false)), facts);
            if shown == SOFTWARE then b.lower == 70.0 else b.lower == 0.0 && b.upper == 30.0
  {
    IndustryLedAccepted(false);
    var s := Materialize(IndustryLed(false));
    forall f: ScoredField | f != Industry ensures PointsOf(s, facts, f) == 0.0 && Open(s, facts, f) == Ceiling(s, f) {
      assert !Known(facts, f);
    }
    assert UNKNOWN[2] == 'k' && SOFTWARE[2] == 'f' && RETAIL[2] == 't' && SOFTWARE != RETAIL;
  }

  lemma OnlyIndustryRows(rows: seq<EvidenceRow>, now: int, v: Value)
    requires forall r :: r in rows ==> r.field == Industry
    requires Resolve(rows, Industry, now).Some? && Resolve(rows, Industry, now).value.value == v
    ensures OnlyIndustry(FactsAt(rows, now), v)
  {
    FactIsWinner(rows, Industry, now);
    forall f: ScoredField | f != Industry ensures !Known(FactsAt(rows, now), f) {
      FactIsWinner(rows, f, now);
      FreshForMembers(rows, f, now);
      if Resolve(rows, f, now).Some? { WinnerIsFresh(rows, f, now); }
    }
  }

  lemma IndustryPreview(s: LeadState, now: int, shown: string)
    requires shown == SOFTWARE || shown == RETAIL
    requires forall r :: r in s.evidence ==> r.field == Industry
    requires Resolve(s.evidence, Industry, now).Some? && Resolve(s.evidence, Industry, now).value.value == Named(shown)
    ensures ValidConfig(IndustryLed(false))
    ensures Preview(Materialize(IndustryLed(false)), s, now) == if shown == SOFTWARE then Qualifies else Rejects
  {
    IndustryLedAccepted(false);
    OnlyIndustryRows(s.evidence, now, Named(shown));
    IndustryDecides(FactsAt(s.evidence, now), shown);
  }

  function Heard(shown: string, source: Provider, confidence: real, at: int): EvidenceRow {
    EvidenceRow(Industry, Named(shown), source, confidence, at, TtlFor(Industry))
  }

  /** Two sources that disagree: the older, surer one decides until it has aged below the newer one. */
  function Disagreeing(s: LeadState): LeadState {
    s.(evidence := [Heard(SOFTWARE, FirmographicsBasic, 1.0, 0), Heard(RETAIL, InternalCrm, 0.4, 45 * DAY)])
  }

  lemma BothFresh(s: LeadState, now: int)
    requires 45 * DAY <= now < 90 * DAY
    ensures NewestPerSource(FreshFor(Disagreeing(s).evidence, Industry, now)) == Disagreeing(s).evidence
    ensures Filter(Disagreeing(s).evidence, (r: EvidenceRow) => !IsUnknown(r.value)) == Disagreeing(s).evidence
  {
    var rows := Disagreeing(s).evidence;
    assert UNKNOWN[2] == 'k' && SOFTWARE[2] == 'f' && RETAIL[2] == 't';
    FilterMembers(rows, (r: EvidenceRow) => r.field == Industry && Fresh(r, now));
    FilterMembers(rows, (r: EvidenceRow) => !IsUnknown(r.value));
    var tail := rows[1..];
    assert tail == [rows[1]] && tail[1..] == [];
    assert NewestPerSource(tail) == tail;
    FilterMembers(tail, (r: EvidenceRow) => r.source != rows[0].source);
    assert rows == [rows[0]] + tail;
  }

  lemma OneOutranks(s: LeadState, now: int)
    requires now == 45 * DAY || now == 80 * DAY
    ensures Resolve(Disagreeing(s).evidence, Industry, now) ==
            Some(Disagreeing(s).evidence[if now == 45 * DAY then 0 else 1])
  {
    BothFresh(s, now);
    var a, b := Disagreeing(s).evidence[0], Disagreeing(s).evidence[1];
    assert Winner([b], now) == Some(b);
    assert [a, b][1..] == [b];
    Ages(now);
    assert EffectiveConfidence(a, now) == if now == 45 * DAY then 0.5 else 1.0 / 9.0;
    assert EffectiveConfidence(b, now) == if now == 45 * DAY then 0.4 else 0.4 * (11.0 / 18.0);
  }

  lemma Ages(now: int)
    requires now == 45 * DAY || now == 80 * DAY
    ensures now == 45 * DAY ==>
              now as real / (90 * DAY) as real == 0.5 && (now - 45 * DAY) as real / (90 * DAY) as real == 0.0
    ensures now == 80 * DAY ==>
              now as real / (90 * DAY) as real == 8.0 / 9.0
              && (now - 45 * DAY) as real / (90 * DAY) as real == 7.0 / 18.0
  {
  }

  /** Decay turns a preview around: nothing expires and nothing is bought, yet "qualifies" becomes "rejects" within
      35 days. */
  lemma DecayTurnsAPreview(s: LeadState)
    ensures ValidConfig(IndustryLed(false))
    ensures var c := Materialize(IndustryLed(false)); var t := Disagreeing(s);
            && Preview(c, t, 45 * DAY) == Qualifies && Preview(c, t, 80 * DAY) == Rejects
            && forall r :: r in t.evidence ==> Fresh(r, 80 * DAY)
  {
    OneOutranks(s, 45 * DAY);
    OneOutranks(s, 80 * DAY);
    IndustryPreview(Disagreeing(s), 45 * DAY, SOFTWARE);
    IndustryPreview(Disagreeing(s), 80 * DAY, RETAIL);
  }

  // ------------------------------------------------------- bought, and expired --

  ghost function Led(): ScoringConfig {
    IndustryLedAccepted(false);
    Materialize(IndustryLed(false))
  }

  /** A lead decided on nothing under the profile, with a cap of one. */
  ghost function NewLead(): LeadState {
    LeadState(Some(ReceiptFor(Led(), map[])), 0.0, 1.0, [], [])
  }

  function Unpriced(p: Provider): real { 0.0 }

  function Listed(p: Provider): real { BaseCost(p, Unpriced) }

  /** A simulated request for the industry whose source answers the given category at its listed price. */
  ghost function AskIndustry(shown: string, at: int): Request {
    Request(Industry, Simulated, CeilingsOf(Led()), 1.0, at, Unpriced,
            (p: Provider) => FetchResult(Success, Listed(p), Named(shown), 0.9))
  }

  /** The next source is p, at most a cent, on a lead that can afford it. */
  ghost predicate Affords(s: LeadState, at: int, p: Provider) {
    && s.receipt == NewLead().receipt && s.modelSpend == 0.0 && s.cap == 1.0 && Spent(s.ledger) <= 0.5
    && FreshFor(s.evidence, Industry, at) == []
    && OpenCandidates(s.ledger, Industry) != [] && OpenCandidates(s.ledger, Industry)[0] == p
    && Listed(p) <= 0.01 && !HasKey(s.ledger, ResearchKey(Industry, p))
  }

  lemma IndustryIsMaterial()
    ensures IsMaterial(Led(), map[], Industry)
  {
    IndustryLedAccepted(false);
    MaterialWhenUnknown(Led(), map[], Industry);
    ClearGuardRedundant(Led(), map[], Industry);
  }

  lemma Authorized(s: LeadState, shown: string, at: int, p: Provider)
    requires Affords(s, at, p)
    ensures var d := AuthorizeResearch(AuthorizationInputs(s, AskIndustry(shown, at))); d.Approved? && d.provider == p
  {
    var ctx := AuthorizationInputs(s, AskIndustry(shown, at));
    IndustryIsMaterial();
    assert ctx.candidates == OpenCandidates(s.ledger, Industry);
    assert Usable(ctx, p) && p in ctx.candidates;
    ApprovedIffEveryGateOpen(ctx);
    assert Usable(ctx, ctx.candidates[0]);
  }

  lemma Buys(s: LeadState, shown: string, at: int, p: Provider)
    requires Affords(s, at, p)
    ensures Execute(s, AskIndustry(shown, at)).0 ==
            s.(ledger := s.ledger + [Charge(ResearchKey(Industry, p), p, Listed(p))],
               evidence := s.evidence + [Heard(shown, p, 0.9, at)])
  {
    Authorized(s, shown, at, p);
  }

  lemma FirstSource()
    ensures OpenCandidates([], Industry) == SimulatedCandidates(Industry)
  {
    OpenAreTheRest([], Industry, [], SimulatedCandidates(Industry));
  }

  lemma SecondSource(ledger: seq<Charge>)
    requires ledger == [Charge(ResearchKey(Industry, InternalCrm), InternalCrm, 0.0)]
    ensures OpenCandidates(ledger, Industry) == [DnsWeb, FirmographicsBasic, FirmographicsPremium, DeepResearch]
  {
    OnlyCrmCalled(ledger);
    OpenAreTheRest(ledger, Industry, [InternalCrm],
                   [DnsWeb, FirmographicsBasic, FirmographicsPremium, DeepResearch]);
  }

  lemma OnlyCrmCalled(ledger: seq<Charge>)
    requires ledger == [Charge(ResearchKey(Industry, InternalCrm), InternalCrm, 0.0)]
    ensures forall p :: WasCalled(ledger, p) <==> p == InternalCrm
  {
    assert ledger[0].provider == InternalCrm;
  }

  lemma SingleRowWins(r: EvidenceRow, now: int)
    requires r.field == Industry && Fresh(r, now) && !IsUnknown(r.value)
    ensures Resolve([r], Industry, now).Some? && Resolve([r], Industry, now).value == r
  {
    FreshAfterPut([], r, Industry, now);
    assert [] + [r] == [r] && FreshFor([], Industry, now) == [];
    ResolveSingle(r, now);
  }

  ghost predicate BoughtOnce(s: LeadState) {
    && s.evidence == [Heard(SOFTWARE, InternalCrm, 0.9, 0)]
    && s.ledger == [Charge(ResearchKey(Industry, InternalCrm), InternalCrm, 0.0)]
    && s.receipt == NewLead().receipt && s.modelSpend == 0.0 && s.cap == 1.0
  }

  lemma FirstPurchase()
    ensures BoughtOnce(Execute(NewLead(), AskIndustry(SOFTWARE, 0)).0)
  {
    FirstSource();
    Buys(NewLead(), SOFTWARE, 0, InternalCrm);
  }

  /** The bought answer says "software" and the preview qualifies. */
  lemma FirstPreview(s: LeadState)
    requires BoughtOnce(s)
    ensures Preview(Led(), s, 0) == Qualifies
  {
    SaysSomething();
    SingleRowWins(s.evidence[0], 0);
    IndustryPreview(s, 0, SOFTWARE);
  }

  lemma SaysSomething()
    ensures !IsUnknown(Named(SOFTWARE)) && !IsUnknown(Named(RETAIL))
  {
    assert UNKNOWN[2] == 'k' && SOFTWARE[2] == 'f' && RETAIL[2] == 't';
  }

  /** Ninety days on the answer has expired, the field is bought again, and the preview rejects. */
  lemma SecondPurchase(s: LeadState)
    requires BoughtOnce(s)
    ensures Preview(Led(), Execute(s, AskIndustry(RETAIL, 90 * DAY)).0, 90 * DAY) == Rejects
  {
    var later := 90 * DAY;
    SecondSource(s.ledger);
    FilterNone(s.evidence, (r: EvidenceRow) => r.field == Industry && Fresh(r, later));
    assert s.ledger[1..] == [] && Spent(s.ledger) == 0.0;
    Buys(s, RETAIL, later, DnsWeb);
    var n := Execute(s, AskIndustry(RETAIL, later)).0;
    var r := Heard(RETAIL, DnsWeb, 0.9, later);
    assert n.evidence == s.evidence + [r];
    SaysSomething();
    ResolveAfterPut(s.evidence, r, Industry, later);
    IndustryPreview(n, later, RETAIL);
  }

  /** Expiry turns a preview around: from a lead with no evidence, one purchase makes it qualify, and ninety days
      later another purchase of the same field makes it reject. */
  lemma ExpiryTurnsAPreview()
    ensures ValidConfig(IndustryLed(false))
    ensures var c := Materialize(IndustryLed(false));
            var q, again := AskIndustry(SOFTWARE, 0), AskIndustry(RETAIL, 90 * DAY);
            && Preview(c, Run(NewLead(), [q]), 0) == Qualifies
            && Preview(c, Run(NewLead(), [q, again]), 90 * DAY) == Rejects
  {
    IndustryLedAccepted(false);
    var q, again := AskIndustry(SOFTWARE, 0), AskIndustry(RETAIL, 90 * DAY);
    FirstPurchase();
    FirstPreview(Execute(NewLead(), q).0);
    SecondPurchase(Execute(NewLead(), q).0);
    RunsOfTwo(NewLead(), q, again);
  }

  lemma RunsOfTwo(s: LeadState, q: Request, again: Request)
    ensures Run(s, [q]) == Execute(s, q).0
    ensures Run(s, [q, again]) == Execute(Execute(s, q).0, again).0
  {
    assert [q][1..] == [] && [q, again][1..] == [again] && [again][1..] == [];
    assert Run(s, [q]) == Run(Execute(s, q).0, []);
    assert Run(s, [q, again]) == Run(Execute(s, q).0, [again]);
    assert Run(Execute(s, q).0, [again]) == Run(Execute(Execute(s, q).0, again).0, []);
  }
}
