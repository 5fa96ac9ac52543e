/**
 Buying one fact for one decided lead: what is authorized, what is called, what
 is charged and what becomes known, over any number of requests.
 Models src/arie/research_acquisition.py over the ledger and evidence tables.
 */
module Acquisition {
  import opened Scoring
  import opened Settlement
  import opened Sorting
  import opened Research

  // --------------------------------------------------------------- catalogue --

  function SimulatedCandidates(f: ScoredField): seq<Provider> {
    match f
    case EmployeeCount => [InternalCrm, FirmographicsBasic, FirmographicsPremium, DeepResearch]
    case Industry => [InternalCrm, DnsWeb, FirmographicsBasic, FirmographicsPremium, DeepResearch]
    case TitleSeniority => [InboundPayload, ContactEnrich]
    case TitleFunction => [InboundPayload, ContactEnrich]
    case _ => []
  }

  function LiveCandidates(f: ScoredField): seq<Provider> {
    match f
    case EmployeeCount => [AbstractCompany]
    case Industry => [AbstractCompany]
    case TitleSeniority => [HunterCombined, ApolloPerson]
    case TitleFunction => [HunterCombined, ApolloPerson]
    case _ => []
  }

  /** Listed base cost of a simulated source; the live ones carry configured prices. */
  function BaseCost(p: Provider, live: Provider -> real): real {
    match p
    case InboundPayload => 0.0
    case InternalCrm => 0.0
    case DnsWeb => 0.0008
    case FirmographicsBasic => 0.012
    case FirmographicsPremium => 0.09
    case ContactEnrich => 0.055
    case DeepResearch => 0.6
    case _ => live(p)
  }

  const DAY := 86_400

  function TtlFor(f: ScoredField): int {
    match f
    case EmployeeCount => 30 * DAY
    case Industry => 90 * DAY
    case TitleSeniority => 60 * DAY
    case TitleFunction => 60 * DAY
    case BuyingIntent => 3 * DAY
    case RecentTriggerEvent => 7 * DAY
    case DisqualifyingFlag => 14 * DAY
  }

  // ------------------------------------------------------------------ tables --

  /** Idempotency keys: a research purchase, or any other charge of the pipeline. */
  datatype CallKey = ResearchKey(field: ScoredField, source: Provider) | OtherKey(id: nat)

  datatype Charge = Charge(key: CallKey, provider: Provider, cost: real)

  datatype EvidenceRow = EvidenceRow(
    field: ScoredField, value: Value, source: Provider, confidence: real, fetchedAt: int, ttl: int)

  datatype ProviderStatus = Success | Miss | Error | Timeout

  /** One provider response; an absent value stands for a missing field. */
  datatype FetchResult = FetchResult(status: ProviderStatus, cost: real, value: Value, confidence: real)

  datatype Mode = Simulated
        | Live(unavailable: map<Provider, Unavailability>, suppressed: set<Provider>, entitled: bool)

  /** The lead's frozen receipt, its budget, and the two tables research appends to. */
  datatype LeadState = LeadState(
    receipt: Option<Receipt>, modelSpend: real, cap: real, ledger: seq<Charge>, evidence: seq<EvidenceRow>)

  /** One request, with everything the environment contributes to it. */
  datatype Request = Request(
    target: ScoredField, mode: Mode, ceilings: map<ScoredField, real>, orgRemaining: real, now: int,
    livePrice: Provider -> real, fetch: Provider -> FetchResult)

  datatype Outcome =
    | NoResearchNeeded
    | NotAuthorized(reason: ReasonCode)
    | AlreadyResearched(row: EvidenceRow)
    | Called(provider: Provider, cost: real, found: Value)

  function Spent(ledger: seq<Charge>): real {
    if ledger == [] then 0.0 else ledger[0].cost + Spent(ledger[1..])
  }

  function LeadSpend(s: LeadState): real {
    Spent(s.ledger) + s.modelSpend
  }

  predicate HasKey(ledger: seq<Charge>, key: CallKey) {
    exists i :: 0 <= i < |ledger| && ledger[i].key == key
  }

  /** Insert, or keep the existing row of the same idempotency key. */
  function Record(ledger: seq<Charge>, c: Charge): seq<Charge> {
    if HasKey(ledger, c.key) then ledger else ledger + [c]
  }

  predicate WasCalled(ledger: seq<Charge>, p: Provider) {
    exists i :: 0 <= i < |ledger| && ledger[i].provider == p
  }

  predicate Fresh(r: EvidenceRow, now: int) {
    r.fetchedAt + r.ttl > now
  }

  function FreshFor(rows: seq<EvidenceRow>, f: ScoredField, now: int): seq<EvidenceRow> {
    Filter(rows, (r: EvidenceRow) => r.field == f && Fresh(r, now))
  }

  function Freshest(rows: seq<EvidenceRow>): EvidenceRow
    requires rows != []
  {
    if |rows| == 1 || Freshest(rows[1..]).fetchedAt < rows[0].fetchedAt then rows[0] else Freshest(rows[1..])
  }

  // ----------------------------------------------------------------- request --

  /** Sources not called for this lead yet, or all of them once every one has been called. */
  function OpenCandidates(ledger: seq<Charge>, f: ScoredField): seq<Provider> {
    var uncalled := Filter(SimulatedCandidates(f), p => !WasCalled(ledger, p));
    if uncalled == [] then SimulatedCandidates(f) else uncalled
  }

  function AuthorizationInputs(s: LeadState, q: Request): AuthContext {
    var candidates := if q.mode.Simulated? then OpenCandidates(s.ledger, q.target) else LiveCandidates(q.target);
    AuthContext(
      if s.receipt.None? then NonMaterial else MaterialityOf(s.receipt.value, q.ceilings, q.target),
      s.receipt.Some? && DecisionClear(s.receipt.value),
      candidates,
      if q.mode.Simulated? then map[] else q.mode.unavailable,
      if q.mode.Simulated? then {} else q.mode.suppressed,
      q.mode.Simulated?,
      q.mode.Simulated? || q.mode.entitled,
      if candidates == [] then 0.0 else BaseCost(candidates[0], q.livePrice),
      LeadSpend(s), s.cap, q.orgRemaining)
  }

  function EvidenceFrom(q: Request, p: Provider): EvidenceRow {
    EvidenceRow(q.target, q.fetch(p).value, p, q.fetch(p).confidence, q.now, TtlFor(q.target))
  }

  predicate Answers(r: FetchResult) {
    r.status == Success && r.value.Observed?
  }

  /** What one request does to the lead and what it reports. */
  function Execute(s: LeadState, q: Request): (LeadState, Outcome) {
    if s.receipt.None? then (s, NoResearchNeeded)
    else
      var d := AuthorizeResearch(AuthorizationInputs(s, q));
      if d.Refused? then (s, NotAuthorized(d.reason))
      else
        var unexpired := FreshFor(s.evidence, q.target, q.now);
        if unexpired != [] then (s, AlreadyResearched(Freshest(unexpired)))
        else
          var result := q.fetch(d.provider);
          var ledger := Record(s.ledger, Charge(ResearchKey(q.target, d.provider), d.provider, result.cost));
          var evidence := if Answers(result) then s.evidence + [EvidenceFrom(q, d.provider)] else s.evidence;
          (s.(ledger := ledger, evidence := evidence), Called(d.provider, result.cost, result.value))
  }

  /** The lead as the request handler sees it: the two tables are updated in place. */
  class ResearchedLead {
    const receipt: Option<Receipt>
    const modelSpend: real
    const cap: real
    var ledger: seq<Charge>
    var evidence: seq<EvidenceRow>

    constructor (s: LeadState)
      ensures State() == s
    {
      receipt, modelSpend, cap, ledger, evidence := s.receipt, s.modelSpend, s.cap, s.ledger, s.evidence;
    }

    function State(): LeadState
      reads this
    {
      LeadState(receipt, modelSpend, cap, ledger, evidence)
    }

    method RecordProviderCall(key: CallKey, provider: Provider, cost: real)
      modifies this`ledger
      ensures ledger == Record(old(ledger), Charge(key, provider, cost))
    {
      var i := 0;
      while i < |ledger|
        invariant 0 <= i <= |ledger|
        invariant forall j :: 0 <= j < i ==> ledger[j].key != key
        invariant ledger == old(ledger)
      {
        if ledger[i].key == key { return; }
        i := i + 1;
      }
      ledger := ledger + [Charge(key, provider, cost)];
    }

    /** A refused or already answered request changes nothing; an approved one calls the authorized source. */
    method ExecuteResearch(q: Request) returns (o: Outcome)
      modifies this
      ensures (State(), o) == Execute(old(State()), q)
      ensures !o.Called? ==> ledger == old(ledger) && evidence == old(evidence)
      ensures old(ledger) <= ledger && old(evidence) <= evidence
    {
      if receipt.None? { return NoResearchNeeded; }
      var d := AuthorizeResearch(AuthorizationInputs(State(), q));
      if d.Refused? { return NotAuthorized(d.reason); }
      var unexpired := FreshFor(evidence, q.target, q.now);
      if unexpired != [] { return AlreadyResearched(Freshest(unexpired)); }
      var result := q.fetch(d.provider);
      RecordProviderCall(ResearchKey(q.target, d.provider), d.provider, result.cost);
      if result.status == Success && result.value.Observed? {
        evidence := evidence +
          [EvidenceRow(q.target, result.value, d.provider, result.confidence, q.now, TtlFor(q.target))];
      }
      o := Called(d.provider, result.cost, result.value);
    }
  }

  // -------------------------------------------------------------------- plan --

  datatype PlanResult =
    | PlanNotDecided
    | PlanAlreadyClear
    | PlanNoUsefulQuestion
    | Planned(target: ScoredField, sources: seq<Provider>, cost: real, decision: ResearchDecision)

  /** A proposal for the lead; nothing is called and nothing changes. */
  function BuildPlan(s: LeadState, q: Request, llm: bool, proposal: Option<ScoredField>): PlanResult {
    if s.receipt.None? then PlanNotDecided
    else
      var a := AnalysisOf(s.receipt.value, q.ceilings);
      if a.clear then PlanAlreadyClear
      else
        var target := PlanTarget(a, llm, proposal);
        if target.None? then PlanNoUsefulQuestion
        else
          var ctx := AuthorizationInputs(s, q.(target := target.value)).(materiality := Material, clear := false);
          Planned(target.value, ctx.candidates, ctx.cost, AuthorizeResearch(ctx))
  }

  /** Executing a plan's own target is authorized exactly as planned: same verdict, same reason, and a call
      goes to the planned source. */
  lemma PlanAndExecutionAgree(s: LeadState, q: Request, llm: bool, proposal: Option<ScoredField>)
    requires BuildPlan(s, q, llm, proposal).Planned?
    ensures var plan := BuildPlan(s, q, llm, proposal);
            var o := Execute(s, q.(target := plan.target)).1;
            && (plan.decision.Refused? ==> o == NotAuthorized(plan.decision.reason))
            && (plan.decision.Approved? ==> o.AlreadyResearched? || (o.Called? && o.provider == plan.decision.provider))
            && (o.Called? ==> plan.sources != [] && o.provider == plan.sources[0]
                              && plan.cost == BaseCost(o.provider, q.livePrice))
  {
    var plan := BuildPlan(s, q, llm, proposal);
    var q' := q.(target := plan.target);
    FilterAndPlanAgree(s.receipt.value, q.ceilings, llm, proposal);
    assert AuthorizationInputs(s, q') == AuthorizationInputs(s, q').(materiality := Material, clear := false);
    if Execute(s, q').1.Called? { CalledIsAuthorized(s, q'); }
  }

  // --------------------------------------------------------- single requests --

  lemma {:induction false} SpentAppend(ledger: seq<Charge>, c: Charge)
    ensures Spent(ledger + [c]) == Spent(ledger) + c.cost
  {
    if ledger == [] {
      assert [c][1..] == [];
    } else {
      SpentAppend(ledger[1..], c);
      assert (ledger + [c])[1..] == ledger[1..] + [c];
    }
  }

  lemma OpenAreCandidates(ledger: seq<Charge>, f: ScoredField)
    ensures forall p :: p in OpenCandidates(ledger, f) ==> p in SimulatedCandidates(f)
  {
    FilterMembers(SimulatedCandidates(f), p => !WasCalled(ledger, p));
  }

  /** With a first part of the sources called and none of the rest, the rest is open. */
  lemma OpenAreTheRest(ledger: seq<Charge>, f: ScoredField, called: seq<Provider>, rest: seq<Provider>)
    requires SimulatedCandidates(f) == called + rest && rest != []
    requires forall i :: 0 <= i < |called| ==> WasCalled(ledger, called[i])
    requires forall i :: 0 <= i < |rest| ==> !WasCalled(ledger, rest[i])
    ensures OpenCandidates(ledger, f) == rest
  {
    var uncalled := p => !WasCalled(ledger, p);
    FilterMembers(rest, uncalled);
    FilterNone(called, uncalled);
    FilterConcat(called, rest, uncalled);
  }

  /** The source an approved request calls is the first open candidate, the one whose cost was authorized. */
  lemma CalledIsAuthorized(s: LeadState, q: Request)
    requires Execute(s, q).1.Called?
    ensures var ctx, p := AuthorizationInputs(s, q), Execute(s, q).1.provider;
            && q.mode.Simulated? && q.target in TARGETS
            && OpenCandidates(s.ledger, q.target) != [] && p == OpenCandidates(s.ledger, q.target)[0]
            && ctx.cost == BaseCost(p, q.livePrice)
            && LeadSpend(s) + BaseCost(p, q.livePrice) <= s.cap && BaseCost(p, q.livePrice) <= q.orgRemaining
            && p in SimulatedCandidates(q.target)
  {
    ApprovedIsFirst(AuthorizationInputs(s, q));
    OpenAreCandidates(s.ledger, q.target);
    var open := OpenCandidates(s.ledger, q.target);
    assert open != [] ==> open[0] in open;
  }

  /** In simulation nothing is unavailable, so an approval names the first candidate. */
  lemma ApprovedIsFirst(ctx: AuthContext)
    requires ctx.unavailable == map[] && ctx.suppressed == {} && AuthorizeResearch(ctx).Approved?
    ensures ctx.simulated && ctx.candidates != [] && AuthorizeResearch(ctx).provider == ctx.candidates[0]
    ensures ctx.spent + ctx.cost <= ctx.cap && ctx.cost <= ctx.orgRemaining
  {
    ApprovedIffEveryGateOpen(ctx);
    assert Usable(ctx, ctx.candidates[0]);
  }

  /** A source already called comes back only after every candidate for the field has been called. */
  lemma RepeatOnlyAfterAll(s: LeadState, q: Request)
    requires Execute(s, q).1.Called? && WasCalled(s.ledger, Execute(s, q).1.provider)
    ensures forall p :: p in SimulatedCandidates(q.target) ==> WasCalled(s.ledger, p)
  {
    CalledIsAuthorized(s, q);
    var unused := p => !WasCalled(s.ledger, p);
    FilterMembers(SimulatedCandidates(q.target), unused);
    forall p | p in SimulatedCandidates(q.target) ensures WasCalled(s.ledger, p) {
      if !WasCalled(s.ledger, p) {
        assert p in Filter(SimulatedCandidates(q.target), unused);
        assert Execute(s, q).1.provider in Filter(SimulatedCandidates(q.target), unused);
        assert false;
      }
    }
  }

  /** A request that finds fresh evidence spends nothing and calls nobody. */
  lemma FreshEvidenceCostsNothing(s: LeadState, q: Request)
    requires exists i :: 0 <= i < |s.evidence| && s.evidence[i].field == q.target && Fresh(s.evidence[i], q.now)
    ensures Execute(s, q).0 == s && !Execute(s, q).1.Called?
  {
    FilterMembers(s.evidence, (r: EvidenceRow) => r.field == q.target && Fresh(r, q.now));
    var i :| 0 <= i < |s.evidence| && s.evidence[i].field == q.target && Fresh(s.evidence[i], q.now);
    assert s.evidence[i] in FreshFor(s.evidence, q.target, q.now);
  }

  /** Sources that never bill above their listed price. */
  ghost predicate HonestPricing(q: Request) {
    forall p: Provider :: q.fetch(p).cost <= BaseCost(p, q.livePrice)
  }

  ghost predicate KeysUnique(ledger: seq<Charge>) {
    forall i, j :: 0 <= i < j < |ledger| ==> ledger[i].key != ledger[j].key
  }

  lemma RequestKeepsBudget(s: LeadState, q: Request)
    requires HonestPricing(q) && LeadSpend(s) <= s.cap
    ensures LeadSpend(Execute(s, q).0) <= s.cap
  {
    if Execute(s, q).1.Called? {
      CalledIsAuthorized(s, q);
      var p := Execute(s, q).1.provider;
      SpentAppend(s.ledger, Charge(ResearchKey(q.target, p), p, q.fetch(p).cost));
    }
  }

  lemma RequestKeepsKeys(s: LeadState, q: Request)
    requires KeysUnique(s.ledger)
    ensures KeysUnique(Execute(s, q).0.ledger)
  {
    if Execute(s, q).1.Called? {
      var p := Execute(s, q).1.provider;
      assert Execute(s, q).0.ledger == Record(s.ledger, Charge(ResearchKey(q.target, p), p, q.fetch(p).cost));
    }
  }

  // ------------------------------------------------- a request, from its inputs --

  predicate IsCharged(ledger: seq<Charge>, p: Provider) {
    exists c :: c in ledger && c.provider == p
  }

  /** The source a simulated request turns to: the field's first source that no charge of the lead names, or the first
      of all when every one is named. */
  ghost predicate IsNextSource(ledger: seq<Charge>, f: ScoredField, p: Provider) {
    var sources := SimulatedCandidates(f);
    exists i :: 0 <= i < |sources| && sources[i] == p
      && if forall j :: 0 <= j < |sources| ==> IsCharged(ledger, sources[j]) then i == 0
         else !IsCharged(ledger, p) && forall j :: 0 <= j < i ==> IsCharged(ledger, sources[j])
  }

  lemma ChargedIsCalled(ledger: seq<Charge>, p: Provider)
    ensures IsCharged(ledger, p) <==> WasCalled(ledger, p)
  {
    if c :| c in ledger && c.provider == p {
      var i :| 0 <= i < |ledger| && ledger[i] == c;
    }
  }

  lemma {:induction false} FirstKeptIs<T>(s: seq<T>, keep: T -> bool, i: nat)
    requires i < |s| && keep(s[i]) && forall j :: 0 <= j < i ==> !keep(s[j])
    ensures Filter(s, keep) != [] && Filter(s, keep)[0] == s[i]
  {
    if i > 0 { FirstKeptIs(s[1..], keep, i - 1); }
  }

  lemma {:induction false} FirstUncharged(ledger: seq<Charge>, sources: seq<Provider>) returns (i: nat)
    ensures i <= |sources| && forall j :: 0 <= j < i ==> IsCharged(ledger, sources[j])
    ensures i < |sources| ==> !IsCharged(ledger, sources[i])
  {
    i := 0;
    if sources != [] && IsCharged(ledger, sources[0]) {
      i := FirstUncharged(ledger, sources[1..]);
      i := i + 1;
    }
  }

  lemma OpenStartsAt(ledger: seq<Charge>, f: ScoredField, i: nat)
    requires i <= |SimulatedCandidates(f)|
    requires forall j :: 0 <= j < i ==> IsCharged(ledger, SimulatedCandidates(f)[j])
    requires i < |SimulatedCandidates(f)| ==> !IsCharged(ledger, SimulatedCandidates(f)[i])
    ensures i == |SimulatedCandidates(f)| ==> OpenCandidates(ledger, f) == SimulatedCandidates(f)
    ensures i < |SimulatedCandidates(f)| ==>
              OpenCandidates(ledger, f) != [] && OpenCandidates(ledger, f)[0] == SimulatedCandidates(f)[i]
  {
    var sources, uncalled := SimulatedCandidates(f), (x: Provider) => !WasCalled(ledger, x);
    forall j | 0 <= j < |sources| ensures IsCharged(ledger, sources[j]) <==> !uncalled(sources[j]) {
      ChargedIsCalled(ledger, sources[j]);
    }
    if i < |sources| { FirstKeptIs(sources, uncalled, i); } else { FilterNone(sources, uncalled); }
  }

  lemma NextIsFirstUncharged(ledger: seq<Charge>, f: ScoredField, i: nat, p: Provider)
    requires i < |SimulatedCandidates(f)| && !IsCharged(ledger, SimulatedCandidates(f)[i])
    requires forall j :: 0 <= j < i ==> IsCharged(ledger, SimulatedCandidates(f)[j])
    ensures IsNextSource(ledger, f, p) <==> p == SimulatedCandidates(f)[i]
  {
    var sources := SimulatedCandidates(f);
    if IsNextSource(ledger, f, p) {
      var k :| 0 <= k < |sources| && sources[k] == p && !IsCharged(ledger, p)
        && forall j :: 0 <= j < k ==> IsCharged(ledger, sources[j]);
      assert k == i;
    }
  }

  lemma NextAfterAll(ledger: seq<Charge>, f: ScoredField, p: Provider)
    requires forall j :: 0 <= j < |SimulatedCandidates(f)| ==> IsCharged(ledger, SimulatedCandidates(f)[j])
    ensures IsNextSource(ledger, f, p) <==> SimulatedCandidates(f) != [] && p == SimulatedCandidates(f)[0]
  {
    var sources := SimulatedCandidates(f);
    if sources != [] && p == sources[0] { assert sources[0] == p; }
  }

  lemma FirstOpenIsNext(ledger: seq<Charge>, f: ScoredField, p: Provider)
    ensures OpenCandidates(ledger, f) != [] && OpenCandidates(ledger, f)[0] == p <==> IsNextSource(ledger, f, p)
  {
    var i := FirstUncharged(ledger, SimulatedCandidates(f));
    OpenStartsAt(ledger, f, i);
    if i < |SimulatedCandidates(f)| { NextIsFirstUncharged(ledger, f, i, p); } else { NextAfterAll(ledger, f, p); }
  }

  /** The request's question is still worth asking. */
  predicate IsAsked(s: LeadState, q: Request) {
    && s.receipt.Some? && !DecisionClear(s.receipt.value)
    && MaterialityOf(s.receipt.value, q.ceilings, q.target) == Material
  }

  /** The source's listed cost fits what the lead and what the organization have left. */
  predicate Fits(s: LeadState, q: Request, cost: real) {
    Spent(s.ledger) + s.modelSpend + cost <= s.cap && cost <= q.orgRemaining
  }

  ghost predicate HasFreshAnswer(s: LeadState, q: Request) {
    exists row :: row in s.evidence && row.field == q.target && row.fetchedAt + row.ttl > q.now
  }

  lemma FreshAnswerIff(s: LeadState, q: Request)
    ensures HasFreshAnswer(s, q) <==> FreshFor(s.evidence, q.target, q.now) != []
  {
    FreshForMembers(s.evidence, q.target, q.now);
    var unexpired := FreshFor(s.evidence, q.target, q.now);
    if unexpired != [] { assert unexpired[0] in unexpired; }
  }

  lemma ApprovedIff(s: LeadState, q: Request)
    requires s.receipt.Some?
    ensures var d := AuthorizeResearch(AuthorizationInputs(s, q)); var open := OpenCandidates(s.ledger, q.target);
            && (d.Approved? <==>
                  IsAsked(s, q) && q.mode.Simulated? && open != [] && Fits(s, q, BaseCost(open[0], q.livePrice)))
            && (d.Approved? ==> d.provider == open[0])
  {
    var ctx := AuthorizationInputs(s, q);
    ApprovedIffEveryGateOpen(ctx);
    if AuthorizeResearch(ctx).Approved? { ApprovedIsFirst(ctx); }
    if q.mode.Simulated? && ctx.candidates != [] {
      assert ctx.candidates[0] in ctx.candidates && Usable(ctx, ctx.candidates[0]);
    }
  }

  /** A call happens exactly when the question is asked in simulation, no fresh row answers it, and the listed cost of
      the next source fits both what is left of the lead's cap and the organization's remaining allowance; the next
      source is the one called. */
  lemma CalledIff(s: LeadState, q: Request)
    ensures Execute(s, q).1.Called? <==>
            && IsAsked(s, q) && q.mode.Simulated? && !HasFreshAnswer(s, q)
            && exists p :: IsNextSource(s.ledger, q.target, p) && Fits(s, q, BaseCost(p, q.livePrice))
    ensures Execute(s, q).1.Called? ==>
              var p := Execute(s, q).1.provider;
              IsNextSource(s.ledger, q.target, p) && Fits(s, q, BaseCost(p, q.livePrice))
  {
    forall p ensures IsNextSource(s.ledger, q.target, p) <==>
                     OpenCandidates(s.ledger, q.target) != [] && OpenCandidates(s.ledger, q.target)[0] == p {
      FirstOpenIsNext(s.ledger, q.target, p);
    }
    if s.receipt.Some? { ApprovedIff(s, q); }
    FreshAnswerIff(s, q);
  }

  /** What a call leaves: one charge under the request's key at what the source billed, unless the key was charged
      before, and one row holding the answer, if the source had one. */
  lemma CallLeaves(s: LeadState, q: Request)
    requires Execute(s, q).1.Called?
    ensures var (n, o) := Execute(s, q); var p := o.provider; var got := q.fetch(p);
            && o.cost == got.cost && o.found == got.value
            && n.ledger == (if exists c :: c in s.ledger && c.key == ResearchKey(q.target, p) then s.ledger
                            else s.ledger + [Charge(ResearchKey(q.target, p), p, got.cost)])
            && n.evidence == (if got.status != Success || got.value.Absent? then s.evidence
                              else s.evidence + [EvidenceRow(q.target, got.value, p, got.confidence, q.now,
                                                             TtlFor(q.target))])
            && n.receipt == s.receipt && n.modelSpend == s.modelSpend && n.cap == s.cap
  {
    var key := ResearchKey(q.target, Execute(s, q).1.provider);
    if c :| c in s.ledger && c.key == key {
      var i :| 0 <= i < |s.ledger| && s.ledger[i] == c;
    }
  }

  /** Why a simulated request makes no call, each reason exactly. */
  lemma SimulatedRefusals(s: LeadState, q: Request)
    requires s.receipt.Some? && q.mode.Simulated?
    ensures var o, r := Execute(s, q).1, s.receipt.value;
            && (o == NotAuthorized(DecisionAlreadyClear) <==> DecisionClear(r))
            && (o == NotAuthorized(FieldAlreadyKnown) <==> !DecisionClear(r) && q.target in r.known)
            && (o == NotAuthorized(MissingFieldCannotChangeDecision) <==>
                  !DecisionClear(r) && q.target !in r.known && !IsAsked(s, q))
            && (o == NotAuthorized(NoSupportedSource) <==> IsAsked(s, q) && SimulatedCandidates(q.target) == [])
            && (o == NotAuthorized(OverBudget) <==>
                  IsAsked(s, q)
                  && exists p :: IsNextSource(s.ledger, q.target, p) && !Fits(s, q, BaseCost(p, q.livePrice)))
            && (o.NotAuthorized? ==>
                  o.reason in {DecisionAlreadyClear, FieldAlreadyKnown, MissingFieldCannotChangeDecision,
                               NoSupportedSource, OverBudget})
  {
    var ctx := AuthorizationInputs(s, q);
    var open := OpenCandidates(s.ledger, q.target);
    forall p ensures IsNextSource(s.ledger, q.target, p) <==> open != [] && open[0] == p {
      FirstOpenIsNext(s.ledger, q.target, p);
    }
    ApprovedIff(s, q);
    if AuthorizeResearch(ctx).Refused? { RefusalNamesAClosedGate(ctx); }
    if open != [] { assert open[0] in ctx.candidates && Usable(ctx, open[0]); }
    assert open == [] <==> SimulatedCandidates(q.target) == [];
  }

  /** A live request is planned and never performed; the reason it is refused with, each exactly. */
  lemma LiveRefusals(s: LeadState, q: Request)
    requires IsAsked(s, q) && q.mode.Live?
    ensures Execute(s, q).0 == s && Execute(s, q).1.NotAuthorized?
    ensures var why, sources, m := Execute(s, q).1.reason, LiveCandidates(q.target), q.mode;
            var usable := exists p :: p in sources && p !in m.unavailable && p !in m.suppressed;
            var paused := forall p :: p in sources ==> p in m.suppressed;
            var missing := forall p :: p in sources ==> p in m.unavailable && m.unavailable[p] == NotConfigured;
            && (why == NoSupportedSource <==> sources == [])
            && (why == SuppressedRecentFailure <==> sources != [] && paused)
            && (why == ProviderNotConfigured <==> sources != [] && !usable && !paused && missing)
            && (why == ProviderUnavailable <==> sources != [] && !usable && !paused && !missing)
            && (why == EntitlementBlocked <==> usable && !m.entitled)
            && (why == OverBudget <==> usable && m.entitled && !Fits(s, q, q.livePrice(sources[0])))
            && (why == ExecutionModeBlocked <==> usable && m.entitled && Fits(s, q, q.livePrice(sources[0])))
  {
    var ctx := AuthorizationInputs(s, q);
    ApprovedIffEveryGateOpen(ctx);
    RefusalNamesAClosedGate(ctx);
    assert ctx.cost == if ctx.candidates == [] then 0.0 else q.livePrice(ctx.candidates[0]);
  }

  /** A request that is already answered reports a row of the field that is fresh, and none is newer. */
  lemma ReportedIsNewest(s: LeadState, q: Request)
    requires Execute(s, q).1.AlreadyResearched?
    ensures var row := Execute(s, q).1.row;
            && row in s.evidence && row.field == q.target && row.fetchedAt + row.ttl > q.now
            && forall x :: x in s.evidence && x.field == q.target && x.fetchedAt + x.ttl > q.now ==>
                 x.fetchedAt <= row.fetchedAt
  {
    FreshForMembers(s.evidence, q.target, q.now);
    FreshestIsNewest(FreshFor(s.evidence, q.target, q.now));
  }

  lemma {:induction false} FreshestIsNewest(rows: seq<EvidenceRow>)
    requires rows != []
    ensures Freshest(rows) in rows && forall x :: x in rows ==> x.fetchedAt <= Freshest(rows).fetchedAt
  {
    if |rows| > 1 { FreshestIsNewest(rows[1..]); }
  }

  // ------------------------------------------------------------ whole runs --

  function Run(s: LeadState, qs: seq<Request>): LeadState
    decreases |qs|
  {
    if qs == [] then s else Run(Execute(s, qs[0]).0, qs[1..])
  }

  ghost predicate AllHonest(qs: seq<Request>) {
    forall i :: 0 <= i < |qs| ==> HonestPricing(qs[i])
  }

  /** Over every run, spend that starts within the cap stays within it. */
  lemma {:induction false} RunKeepsBudget(s: LeadState, qs: seq<Request>)
    requires AllHonest(qs) && LeadSpend(s) <= s.cap
    ensures LeadSpend(Run(s, qs)) <= s.cap == Run(s, qs).cap
    decreases |qs|
  {
    if qs != [] {
      RequestKeepsBudget(s, qs[0]);
      assert AllHonest(qs[1..]);
      assert Execute(s, qs[0]).0.cap == s.cap;
      RunKeepsBudget(Execute(s, qs[0]).0, qs[1..]);
    }
  }

  /** Over every run each source is charged at most once per field, the receipt never changes, and nothing
      recorded is lost. */
  lemma {:induction false} RunOnlyAppends(s: LeadState, qs: seq<Request>)
    requires KeysUnique(s.ledger)
    ensures KeysUnique(Run(s, qs).ledger)
    ensures Run(s, qs).receipt == s.receipt
    ensures s.ledger <= Run(s, qs).ledger && s.evidence <= Run(s, qs).evidence
    decreases |qs|
  {
    if qs != [] {
      var t := Execute(s, qs[0]).0;
      RequestKeepsKeys(s, qs[0]);
      assert t.receipt == s.receipt && s.ledger <= t.ledger && s.evidence <= t.evidence;
      RunOnlyAppends(t, qs[1..]);
    }
  }

  const SIZE_KEYS: seq<CallKey> :=
    [ResearchKey(EmployeeCount, InternalCrm), ResearchKey(EmployeeCount, FirmographicsBasic),
     ResearchKey(EmployeeCount, FirmographicsPremium), ResearchKey(EmployeeCount, DeepResearch)]
  const INDUSTRY_KEYS: seq<CallKey> :=
    [ResearchKey(Industry, InternalCrm), ResearchKey(Industry, DnsWeb), ResearchKey(Industry, FirmographicsBasic),
     ResearchKey(Industry, FirmographicsPremium), ResearchKey(Industry, DeepResearch)]
  const TITLE_KEYS: seq<CallKey> :=
    [ResearchKey(TitleSeniority, InboundPayload), ResearchKey(TitleSeniority, ContactEnrich),
     ResearchKey(TitleFunction, InboundPayload), ResearchKey(TitleFunction, ContactEnrich)]

  /** Every purchase research can make. */
  const RESEARCH_KEYS: seq<CallKey> := SIZE_KEYS + INDUSTRY_KEYS + TITLE_KEYS

  function Keys(ledger: seq<Charge>): set<CallKey> {
    set c | c in ledger :: c.key
  }

  lemma {:induction false} UniqueKeysCount(ledger: seq<Charge>)
    requires KeysUnique(ledger)
    ensures |Keys(ledger)| == |ledger|
  {
    if ledger != [] {
      var last := |ledger| - 1;
      var init := ledger[..last];
      UniqueKeysCount(init);
      assert ledger == init + [ledger[last]];
      assert Keys(ledger) == Keys(init) + {ledger[last].key};
      assert ledger[last].key !in Keys(init);
    }
  }

  lemma {:induction false} RunKeysKnown(s: LeadState, qs: seq<Request>)
    ensures forall k :: k in Keys(Run(s, qs).ledger) ==> k in Keys(s.ledger) || k in RESEARCH_KEYS
    decreases |qs|
  {
    if qs != [] {
      var t := Execute(s, qs[0]).0;
      RunKeysKnown(t, qs[1..]);
      RequestKeysKnown(s, qs[0]);
    }
  }

  lemma RequestKeysKnown(s: LeadState, q: Request)
    ensures forall k :: k in Keys(Execute(s, q).0.ledger) ==> k in Keys(s.ledger) || k in RESEARCH_KEYS
  {
    if Execute(s, q).1.Called? {
      CalledIsAuthorized(s, q);
      var p := Execute(s, q).1.provider;
      var c := Charge(ResearchKey(q.target, p), p, q.fetch(p).cost);
      assert Execute(s, q).0.ledger == Record(s.ledger, c);
      ResearchKeyListed(q.target, p);
    }
  }

  lemma ResearchKeyListed(f: ScoredField, p: Provider)
    requires p in SimulatedCandidates(f)
    ensures ResearchKey(f, p) in RESEARCH_KEYS
  {
  }

  lemma {:induction false} ElementsCount<T>(xs: seq<T>)
    ensures |set x | x in xs| <= |xs|
  {
    if xs != [] {
      ElementsCount(xs[1..]);
      assert (set x | x in xs) == {xs[0]} + (set x | x in xs[1..]);
    }
  }

  /** However many requests are made, research adds at most thirteen charges to a lead. */
  lemma RunChargesBounded(s: LeadState, qs: seq<Request>)
    requires KeysUnique(s.ledger)
    ensures |Run(s, qs).ledger| <= |s.ledger| + 13
  {
    RunOnlyAppends(s, qs);
    RunKeysKnown(s, qs);
    UniqueKeysCount(s.ledger);
    UniqueKeysCount(Run(s, qs).ledger);
    ElementsCount(RESEARCH_KEYS);
    var before, research := Keys(s.ledger), set k | k in RESEARCH_KEYS;
    SubsetSize(Keys(Run(s, qs).ledger), before + research);
    assert |before + research| <= |before| + |research|;
  }

  lemma {:induction false} SubsetSize<T>(a: set<T>, b: set<T>)
    requires a <= b
    ensures |a| <= |b|
  {
    if a != {} {
      var x :| x in a;
      SubsetSize(a - {x}, b - {x});
    }
  }

  /** A purchase billed at no more than its source's listed price. */
  predicate Priced(c: Charge) {
    c.key.ResearchKey? && c.key in RESEARCH_KEYS && c.cost <= ListPrice(c.key)
  }

  function ListPrice(k: CallKey): real {
    if k.OtherKey? then 0.0 else BaseCost(k.source, (p: Provider) => 0.0)
  }

  function ListTotal(keys: seq<CallKey>): real {
    if keys == [] then 0.0 else ListPrice(keys[0]) + ListTotal(keys[1..])
  }

  lemma {:induction false} ListTotalWithout(keys: seq<CallKey>, i: nat)
    requires i < |keys|
    ensures ListTotal(keys) == ListPrice(keys[i]) + ListTotal(keys[..i] + keys[i + 1..])
  {
    if i == 0 {
      assert keys[..0] + keys[1..] == keys[1..];
    } else {
      ListTotalWithout(keys[1..], i - 1);
      var rest := keys[..i] + keys[i + 1..];
      assert rest[0] == keys[0] && rest[1..] == keys[1..][..i - 1] + keys[1..][i..];
    }
  }

  lemma {:induction false} ListTotalNonNegative(keys: seq<CallKey>)
    requires forall k :: k in keys ==> ListPrice(k) >= 0.0
    ensures ListTotal(keys) >= 0.0
  {
    if keys != [] { ListTotalNonNegative(keys[1..]); }
  }

  lemma {:induction false} DistinctPurchasesCost(bought: seq<Charge>, keys: seq<CallKey>)
    requires KeysUnique(bought) && forall c :: c in bought ==> c.key in keys && c.cost <= ListPrice(c.key)
    requires forall k :: k in keys ==> ListPrice(k) >= 0.0
    ensures Spent(bought) <= ListTotal(keys)
    decreases |bought|
  {
    if bought == [] {
      ListTotalNonNegative(keys);
    } else {
      assert bought[0] in bought;
      var i :| 0 <= i < |keys| && keys[i] == bought[0].key;
      var rest := keys[..i] + keys[i + 1..];
      forall c | c in bought[1..] ensures c.key in rest {
        var j :| 0 <= j < |bought[1..]| && bought[1..][j] == c;
        assert c == bought[j + 1] && c.key != bought[0].key && c in bought;
        var l :| 0 <= l < |keys| && keys[l] == c.key;
        assert c.key == rest[if l < i then l else l - 1];
      }
      DistinctPurchasesCost(bought[1..], rest);
      ListTotalWithout(keys, i);
    }
  }

  lemma PurchaseIsPriced(q: Request, p: Provider)
    requires p in SimulatedCandidates(q.target) && q.fetch(p).cost <= BaseCost(p, q.livePrice)
    ensures Priced(Charge(ResearchKey(q.target, p), p, q.fetch(p).cost))
  {
    ResearchKeyListed(q.target, p);
  }

  lemma RequestAppendsOneCharge(s: LeadState, q: Request)
    ensures var (n, o) := Execute(s, q);
            n.ledger == s.ledger
            || (o.Called? && o.provider in SimulatedCandidates(q.target)
                && n.ledger == s.ledger + [Charge(ResearchKey(q.target, o.provider), o.provider,
                                                  q.fetch(o.provider).cost)])
  {
    if Execute(s, q).1.Called? {
      CallLeaves(s, q);
      CalledIsAuthorized(s, q);
    }
  }

  lemma RequestBuysPriced(s: LeadState, q: Request)
    requires HonestPricing(q)
    ensures s.ledger <= Execute(s, q).0.ledger
    ensures forall c :: c in Execute(s, q).0.ledger[|s.ledger|..] ==> Priced(c)
  {
    RequestAppendsOneCharge(s, q);
    var after := Execute(s, q).0.ledger;
    if after != s.ledger {
      var p := Execute(s, q).1.provider;
      PurchaseIsPriced(q, p);
      assert after[|s.ledger|..] == [Charge(ResearchKey(q.target, p), p, q.fetch(p).cost)];
    }
  }

  lemma {:induction false} RunBuysPriced(s: LeadState, qs: seq<Request>)
    requires AllHonest(qs)
    ensures s.ledger <= Run(s, qs).ledger && forall c :: c in Run(s, qs).ledger[|s.ledger|..] ==> Priced(c)
    decreases |qs|
  {
    if qs != [] {
      var t := Execute(s, qs[0]).0;
      RequestBuysPriced(s, qs[0]);
      assert AllHonest(qs[1..]);
      RunBuysPriced(t, qs[1..]);
      var all := Run(s, qs).ledger;
      assert all[|s.ledger|..] == t.ledger[|s.ledger|..] + all[|t.ledger|..];
    }
  }

  lemma ListTotalOfTwo(a: CallKey, b: CallKey)
    ensures ListTotal([a, b]) == ListPrice(a) + ListPrice(b)
  {
    assert [a, b][1..] == [b] && [b][1..] == [];
    assert ListTotal([b]) == ListPrice(b) + ListTotal([]);
  }

  lemma ListTotalOfFour(a: CallKey, b: CallKey, c: CallKey, d: CallKey)
    ensures ListTotal([a, b, c, d]) == ListPrice(a) + ListPrice(b) + ListPrice(c) + ListPrice(d)
  {
    ListTotalOfTwo(a, b);
    ListTotalOfTwo(c, d);
    ListTotalConcat([a, b], [c, d]);
    assert [a, b] + [c, d] == [a, b, c, d];
  }

  lemma {:induction false} ListTotalConcat(a: seq<CallKey>, b: seq<CallKey>)
    ensures ListTotal(a + b) == ListTotal(a) + ListTotal(b)
  {
    if a == [] {
      assert a + b == b;
    } else {
      ListTotalConcat(a[1..], b);
      assert (a + b)[1..] == a[1..] + b;
    }
  }

  lemma SizeTotal()
    ensures ListTotal(SIZE_KEYS) == 0.702
  {
    ListTotalOfFour(SIZE_KEYS[0], SIZE_KEYS[1], SIZE_KEYS[2], SIZE_KEYS[3]);
  }

  lemma IndustryTotal()
    ensures ListTotal(INDUSTRY_KEYS) == 0.7028
  {
    var keys := INDUSTRY_KEYS;
    ListTotalOfFour(keys[1], keys[2], keys[3], keys[4]);
    assert keys[1..] == [keys[1], keys[2], keys[3], keys[4]];
    assert ListTotal(keys) == ListPrice(keys[0]) + ListTotal(keys[1..]);
  }

  lemma TitleTotal()
    ensures ListTotal(TITLE_KEYS) == 0.11
  {
    ListTotalOfFour(TITLE_KEYS[0], TITLE_KEYS[1], TITLE_KEYS[2], TITLE_KEYS[3]);
  }

  lemma PricesNonNegative(k: CallKey)
    requires k in RESEARCH_KEYS
    ensures ListPrice(k) >= 0.0
  {
  }

  /** Size costs at most 0.702, industry 0.7028, and the two title fields 0.11 together. */
  lemma CatalogueTotal()
    ensures ListTotal(RESEARCH_KEYS) == 1.5148
  {
    SizeTotal();
    IndustryTotal();
    TitleTotal();
    ListTotalConcat(SIZE_KEYS, INDUSTRY_KEYS);
    ListTotalConcat(SIZE_KEYS + INDUSTRY_KEYS, TITLE_KEYS);
  }

  lemma PurchasesCost(bought: seq<Charge>)
    requires KeysUnique(bought) && forall c :: c in bought ==> Priced(c)
    ensures Spent(bought) <= 1.5148
  {
    CatalogueTotal();
    forall k | k in RESEARCH_KEYS ensures ListPrice(k) >= 0.0 { PricesNonNegative(k); }
    DistinctPurchasesCost(bought, RESEARCH_KEYS);
  }

  /** Whatever the cap, research on one lead costs at most the listed prices of the thirteen purchases it can make. */
  lemma RunSpendBounded(s: LeadState, qs: seq<Request>)
    requires KeysUnique(s.ledger) && AllHonest(qs)
    ensures Spent(Run(s, qs).ledger) <= Spent(s.ledger) + 1.5148
  {
    RunOnlyAppends(s, qs);
    RunBuysPriced(s, qs);
    SuffixCost(s.ledger, Run(s, qs).ledger);
  }

  lemma SuffixCost(before: seq<Charge>, after: seq<Charge>)
    requires before <= after && KeysUnique(after) && forall c :: c in after[|before|..] ==> Priced(c)
    ensures Spent(after) <= Spent(before) + 1.5148
  {
    var bought := after[|before|..];
    PurchasesCost(bought);
    assert after == before + bought;
    SpentConcat(before, bought);
  }

  lemma {:induction false} SpentConcat(a: seq<Charge>, b: seq<Charge>)
    ensures Spent(a + b) == Spent(a) + Spent(b)
  {
    if a == [] {
      assert a + b == b;
    } else {
      SpentConcat(a[1..], b);
      assert (a + b)[1..] == a[1..] + b;
    }
  }

  // ------------------------------------------------- what the evidence says --

  /** The newest row of each source. */
  function NewestPerSource(rows: seq<EvidenceRow>): seq<EvidenceRow> {
    if rows == [] then []
    else
      var rest := NewestPerSource(rows[1..]);
      if exists i :: 0 <= i < |rest| && rest[i].source == rows[0].source
           && rest[i].fetchedAt >= rows[0].fetchedAt then rest
      else [rows[0]] + Filter(rest, (r: EvidenceRow) => r.source != rows[0].source)
  }

  function NameRank(p: Provider): nat {
    match p
    case AbstractCompany => 0 case ApolloPerson => 1 case ContactEnrich => 2 case DeepResearch => 3 case DnsWeb => 4
    case FirmographicsBasic => 5 case FirmographicsPremium => 6 case HunterCombined => 7
    case InboundPayload => 8 case InternalCrm => 9
  }

  function EffectiveConfidence(r: EvidenceRow, now: int): real {
    if r.ttl <= 0 then 0.0
    else r.confidence * MaxReal(0.0, 1.0 - (now - r.fetchedAt) as real / r.ttl as real)
  }

  predicate Outranks(a: EvidenceRow, b: EvidenceRow, now: int) {
    EffectiveConfidence(a, now) > EffectiveConfidence(b, now)
    || (EffectiveConfidence(a, now) == EffectiveConfidence(b, now) && NameRank(a.source) > NameRank(b.source))
  }

  function Winner(rows: seq<EvidenceRow>, now: int): Option<EvidenceRow> {
    if rows == [] then None
    else
      var rest := Winner(rows[1..], now);
      if rest.Some? && Outranks(rest.value, rows[0], now) then rest else Some(rows[0])
  }

  function Resolve(rows: seq<EvidenceRow>, f: ScoredField, now: int): Option<EvidenceRow> {
    Winner(Filter(NewestPerSource(FreshFor(rows, f, now)), (r: EvidenceRow) => !IsUnknown(r.value)), now)
  }

  /** The facts the preview scores: per field, the winning fresh claim. */
  function FactsAt(rows: seq<EvidenceRow>, now: int): Facts {
    FactsFrom(Resolutions(rows, now))
  }

  function Resolutions(rows: seq<EvidenceRow>, now: int): map<ScoredField, Option<EvidenceRow>> {
    map f: ScoredField :: Resolve(rows, f, now)
  }

  function FactsFrom(won: map<ScoredField, Option<EvidenceRow>>): Facts {
    map f | f in won && won[f].Some? :: won[f].value.value
  }

  lemma FreshAfterPut(rows: seq<EvidenceRow>, r: EvidenceRow, f: ScoredField, now: int)
    requires Fresh(r, now)
    ensures FreshFor(rows + [r], f, now) == FreshFor(rows, f, now) + (if f == r.field then [r] else [])
  {
    FilterConcat(rows, [r], (x: EvidenceRow) => x.field == f && Fresh(x, now));
    assert [r][1..] == [];
  }

  lemma ResolveSingle(r: EvidenceRow, now: int)
    ensures Winner(Filter(NewestPerSource([r]), (x: EvidenceRow) => !IsUnknown(x.value)), now) ==
            if IsUnknown(r.value) then None else Some(r)
  {
    assert [r][1..] == [];
    assert NewestPerSource([]) == [];
    assert NewestPerSource([r]) == [r] + [];
  }

  lemma ResolveAfterPut(rows: seq<EvidenceRow>, r: EvidenceRow, f: ScoredField, now: int)
    requires FreshFor(rows, r.field, now) == [] && Fresh(r, now)
    ensures Resolve(rows, r.field, now) == None
    ensures Resolve(rows + [r], f, now) ==
            if f != r.field then Resolve(rows, f, now) else if IsUnknown(r.value) then None else Some(r)
  {
    FreshAfterPut(rows, r, f, now);
    ResolveSingle(r, now);
    if f != r.field {
      assert FreshFor(rows + [r], f, now) == FreshFor(rows, f, now);
    } else {
      assert FreshFor(rows + [r], f, now) == [r];
    }
  }

  /** Recording an answer for a field without fresh evidence is learning exactly that fact. */
  lemma PutIsLearning(rows: seq<EvidenceRow>, r: EvidenceRow, now: int)
    requires FreshFor(rows, r.field, now) == [] && Fresh(r, now)
    ensures !Known(FactsAt(rows, now), r.field)
    ensures FactsAt(rows + [r], now) ==
            if IsUnknown(r.value) then FactsAt(rows, now) else FactsAt(rows, now)[r.field := r.value]
  {
    var won := Resolutions(rows, now);
    ResolveAfterPut(rows, r, r.field, now);
    assert won[r.field] == None;
    ResolutionsAfterPut(rows, r, now);
    FactsAfterWin(won, r);
  }

  lemma ResolutionsAfterPut(rows: seq<EvidenceRow>, r: EvidenceRow, now: int)
    requires FreshFor(rows, r.field, now) == [] && Fresh(r, now)
    ensures Resolutions(rows + [r], now) ==
            Resolutions(rows, now)[r.field := if IsUnknown(r.value) then None else Some(r)]
  {
    forall f: ScoredField
      ensures Resolutions(rows + [r], now)[f] ==
              Resolutions(rows, now)[r.field := if IsUnknown(r.value) then None else Some(r)][f]
    {
      ResolveAfterPut(rows, r, f, now);
    }
  }

  lemma FactsAfterWin(won: map<ScoredField, Option<EvidenceRow>>, r: EvidenceRow)
    requires r.field in won && won[r.field] == None
    ensures r.field !in FactsFrom(won)
    ensures FactsFrom(won[r.field := None]) == FactsFrom(won)
    ensures FactsFrom(won[r.field := Some(r)]) == FactsFrom(won)[r.field := r.value]
  {
    assert won[r.field := None] == won;
  }

  datatype LikelyOutcome = Qualifies | Borderline | Rejects

  ghost function Preview(c: ScoringConfig, s: LeadState, now: int): LikelyOutcome {
    var b := ComputeBounds(c, FactsAt(s.evidence, now));
    if b.lower >= c.qualify then Qualifies else if b.upper < c.reject then Rejects else Borderline
  }

  lemma RowTeachesItsFact(rows: seq<EvidenceRow>, r: EvidenceRow, now: int)
    requires FreshFor(rows, r.field, now) == [] && Fresh(r, now)
    ensures var before, after := FactsAt(rows, now), FactsAt(rows + [r], now);
            after == before || (Learnable(before, r.field, r.value) && after == before[r.field := r.value])
  {
    PutIsLearning(rows, r, now);
  }

  lemma AnswerIsAppended(s: LeadState, q: Request)
    requires Execute(s, q).0.evidence != s.evidence
    ensures Execute(s, q).1.Called? && FreshFor(s.evidence, q.target, q.now) == []
    ensures var r := EvidenceFrom(q, Execute(s, q).1.provider);
            Execute(s, q).0.evidence == s.evidence + [r] && r.field == q.target && Fresh(r, q.now)
  {
  }

  /** A sure preview is the settled decision: it names the class every completion of the facts in hand falls in. */
  lemma PreviewIsTheSettledClass(c: ScoringConfig, s: LeadState, now: int)
    requires WellFormed(c) && c.reject < c.qualify
    ensures Preview(c, s, now) == Qualifies <==> Settled(c, FactsAt(s.evidence, now)) == Some(AutoRoute)
    ensures Preview(c, s, now) == Rejects <==> Settled(c, FactsAt(s.evidence, now)) == Some(Reject)
    ensures Preview(c, s, now) == Qualifies ==> EveryCompletionDecides(c, FactsAt(s.evidence, now), AutoRoute)
    ensures Preview(c, s, now) == Rejects ==> EveryCompletionDecides(c, FactsAt(s.evidence, now), Reject)
  {
    var facts := FactsAt(s.evidence, now);
    BoundsOrder(c, facts);
    if Settled(c, facts).Some? { SettledIsSound(c, facts); }
  }

  /** One request either leaves the preview's facts alone or learns one fact about its target. */
  lemma RequestLearnsAtMostOneFact(s: LeadState, q: Request)
    ensures var before, after := FactsAt(s.evidence, q.now), FactsAt(Execute(s, q).0.evidence, q.now);
            after == before ||
            exists v :: Learnable(before, q.target, v) && after == before[q.target := v]
  {
    if Execute(s, q).0.evidence != s.evidence {
      AnswerIsAppended(s, q);
      RowTeachesItsFact(s.evidence, EvidenceFrom(q, Execute(s, q).1.provider), q.now);
    }
  }

  lemma {:induction false} NewestAreRows(rows: seq<EvidenceRow>)
    ensures forall r :: r in NewestPerSource(rows) ==> r in rows
    ensures rows != [] ==> NewestPerSource(rows) != []
  {
    if rows != [] {
      NewestAreRows(rows[1..]);
      FilterMembers(NewestPerSource(rows[1..]), (r: EvidenceRow) => r.source != rows[0].source);
    }
  }

  lemma {:induction false} WinnerIsARow(rows: seq<EvidenceRow>, now: int)
    ensures Winner(rows, now).None? <==> rows == []
    ensures Winner(rows, now).Some? ==> Winner(rows, now).value in rows
  {
    if rows != [] { WinnerIsARow(rows[1..], now); }
  }

  /** What wins is one of the field's fresh rows and says something. */
  lemma WinnerIsFresh(rows: seq<EvidenceRow>, f: ScoredField, now: int)
    requires Resolve(rows, f, now).Some?
    ensures Resolve(rows, f, now).value in FreshFor(rows, f, now) && !IsUnknown(Resolve(rows, f, now).value.value)
  {
    var newest := NewestPerSource(FreshFor(rows, f, now));
    var saying := (r: EvidenceRow) => !IsUnknown(r.value);
    NewestAreRows(FreshFor(rows, f, now));
    FilterMembers(newest, saying);
    WinnerIsARow(Filter(newest, saying), now);
  }

  /** Fresh rows that all say one thing make it the winner. */
  lemma AgreeingRowsWin(rows: seq<EvidenceRow>, f: ScoredField, now: int, v: Value)
    requires FreshFor(rows, f, now) != [] && !IsUnknown(v)
    requires forall r :: r in FreshFor(rows, f, now) ==> r.value == v
    ensures Resolve(rows, f, now).Some? && Resolve(rows, f, now).value.value == v
  {
    var newest := NewestPerSource(FreshFor(rows, f, now));
    var saying := (r: EvidenceRow) => !IsUnknown(r.value);
    NewestAreRows(FreshFor(rows, f, now));
    FilterMembers(newest, saying);
    assert newest[0] in newest && newest[0] in Filter(newest, saying);
    WinnerIsARow(Filter(newest, saying), now);
  }

  lemma FreshForMembers(rows: seq<EvidenceRow>, f: ScoredField, now: int)
    ensures forall r :: r in FreshFor(rows, f, now) <==> r in rows && r.field == f && Fresh(r, now)
  {
    FilterMembers(rows, (r: EvidenceRow) => r.field == f && Fresh(r, now));
  }

  lemma FactIsWinner(rows: seq<EvidenceRow>, f: ScoredField, now: int)
    ensures Known(FactsAt(rows, now), f) <==> Resolve(rows, f, now).Some?
    ensures Known(FactsAt(rows, now), f) ==> Get(FactsAt(rows, now), f) == Resolve(rows, f, now).value.value
  {
    var won := Resolutions(rows, now);
    assert won[f] == Resolve(rows, f, now);
    if won[f].Some? { WinnerIsFresh(rows, f, now); }
  }

  /** A request made by `later` loses and changes no fact that the evidence in hand still gives at `later`: such a
      fact has a row fresh at the request, so it is not bought again. */
  lemma RequestKeepsLastingFacts(s: LeadState, q: Request, later: int)
    requires q.now <= later
    ensures Keeps(FactsAt(s.evidence, later), FactsAt(Execute(s, q).0.evidence, later))
  {
    var rows, after := s.evidence, Execute(s, q).0.evidence;
    if after != rows {
      var r := EvidenceFrom(q, Execute(s, q).1.provider);
      assert after == rows + [r];
      forall f: ScoredField | Known(FactsAt(rows, later), f)
        ensures Get(FactsAt(after, later), f) == Get(FactsAt(rows, later), f) {
        FactIsWinner(rows, f, later);
        WinnerIsFresh(rows, f, later);
        FreshForMembers(rows, f, later);
        FreshForMembers(rows, q.target, q.now);
        var held := Resolve(rows, f, later).value;
        assert f == q.target ==> held in FreshFor(rows, q.target, q.now);
        OtherFieldUntouched(rows, r, f, later);
        FactIsWinner(after, f, later);
      }
    }
  }

  lemma OtherFieldUntouched(rows: seq<EvidenceRow>, r: EvidenceRow, f: ScoredField, now: int)
    requires r.field != f
    ensures Resolve(rows + [r], f, now) == Resolve(rows, f, now)
  {
    FilterConcat(rows, [r], (x: EvidenceRow) => x.field == f && Fresh(x, now));
    assert [r][1..] == [];
    assert FreshFor(rows + [r], f, now) == FreshFor(rows, f, now);
  }

  // ------------------------------------------------ which claim is believed --

  /** A fresh claim's confidence fades in proportion to the life it has left. */
  lemma ConfidenceFades(r: EvidenceRow, now: int)
    requires r.fetchedAt <= now < r.fetchedAt + r.ttl
    ensures EffectiveConfidence(r, now) == r.confidence * ((r.fetchedAt + r.ttl - now) as real / r.ttl as real)
  {
    ShareLeft((now - r.fetchedAt) as real, r.ttl as real);
  }

  lemma ShareLeft(age: real, life: real)
    requires 0.0 <= age < life
    ensures MaxReal(0.0, 1.0 - age / life) == (life - age) / life
  {
    var share := age / life;
    assert share * life == age;
    assert (1.0 - share) * life == life - age;
  }

  lemma {:induction false} NewestIsNewest(rows: seq<EvidenceRow>)
    ensures forall r, x :: r in NewestPerSource(rows) && x in rows && x.source == r.source ==>
              x.fetchedAt <= r.fetchedAt
  {
    if rows != [] {
      NewestIsNewest(rows[1..]);
      var rest := NewestPerSource(rows[1..]);
      FilterMembers(rest, (r: EvidenceRow) => r.source != rows[0].source);
      forall r, x | r in NewestPerSource(rows) && x in rows && x.source == r.source ensures x.fetchedAt <= r.fetchedAt {
        NewestOfTwo(rows, r, x);
      }
    }
  }

  lemma NewestOfTwo(rows: seq<EvidenceRow>, r: EvidenceRow, x: EvidenceRow)
    requires rows != [] && r in NewestPerSource(rows) && x in rows && x.source == r.source
    requires forall a, b :: a in NewestPerSource(rows[1..]) && b in rows[1..] && b.source == a.source ==>
               b.fetchedAt <= a.fetchedAt
    ensures x.fetchedAt <= r.fetchedAt
  {
    var rest := NewestPerSource(rows[1..]);
    FilterMembers(rest, (y: EvidenceRow) => y.source != rows[0].source);
    OnePerSource(rows[1..]);
    EachSourceKept(rows[1..]);
    assert x == rows[0] || x in rows[1..];
    if i :| 0 <= i < |rest| && rest[i].source == rows[0].source && rest[i].fetchedAt >= rows[0].fetchedAt {
      assert rest[i] in rest;
    } else if r == rows[0] && x in rows[1..] {
      var y :| y in rest && y.source == x.source;
      var j :| 0 <= j < |rest| && rest[j] == y;
    }
  }

  lemma {:induction false} OnePerSource(rows: seq<EvidenceRow>)
    ensures forall a, b :: a in NewestPerSource(rows) && b in NewestPerSource(rows) && a.source == b.source ==> a == b
  {
    if rows != [] {
      OnePerSource(rows[1..]);
      FilterMembers(NewestPerSource(rows[1..]), (r: EvidenceRow) => r.source != rows[0].source);
    }
  }

  lemma {:induction false} EachSourceKept(rows: seq<EvidenceRow>)
    ensures forall x :: x in rows ==> exists r :: r in NewestPerSource(rows) && r.source == x.source
  {
    if rows != [] {
      EachSourceKept(rows[1..]);
      forall x | x in rows ensures exists r :: r in NewestPerSource(rows) && r.source == x.source {
        assert x != rows[0] ==> x in rows[1..];
        if x in rows[1..] || x.source == rows[0].source { KeepsSource(rows, x); }
      }
    }
  }

  lemma KeepsSource(rows: seq<EvidenceRow>, x: EvidenceRow)
    requires rows != [] && (x.source == rows[0].source || x in rows[1..])
    requires x in rows[1..] ==> exists r :: r in NewestPerSource(rows[1..]) && r.source == x.source
    ensures exists r :: r in NewestPerSource(rows) && r.source == x.source
  {
    var rest := NewestPerSource(rows[1..]);
    FilterMembers(rest, (r: EvidenceRow) => r.source != rows[0].source);
    if i :| 0 <= i < |rest| && rest[i].source == rows[0].source && rest[i].fetchedAt >= rows[0].fetchedAt {
      assert rest[i] in NewestPerSource(rows);
    } else {
      assert rows[0] in NewestPerSource(rows);
    }
    if x.source != rows[0].source {
      var r :| r in rest && r.source == x.source;
      assert r in NewestPerSource(rows);
    }
  }

  lemma NotOutrankedThrough(x: EvidenceRow, y: EvidenceRow, z: EvidenceRow, now: int)
    requires !Outranks(x, y, now) && !Outranks(y, z, now)
    ensures !Outranks(x, z, now)
  {
    var a, b, c := EffectiveConfidence(x, now), EffectiveConfidence(y, now), EffectiveConfidence(z, now);
    assert a <= b <= c;
  }

  lemma {:induction false} WinnerOutranksAll(rows: seq<EvidenceRow>, now: int)
    ensures Winner(rows, now).Some? ==>
              forall x :: x in rows ==> !Outranks(x, Winner(rows, now).value, now)
  {
    if rows != [] {
      WinnerOutranksAll(rows[1..], now);
      var rest := Winner(rows[1..], now);
      forall x | x in rows ensures !Outranks(x, Winner(rows, now).value, now) {
        WinnerIsARow(rows[1..], now);
        assert x != rows[0] ==> x in rows[1..];
        if rest.Some? && x in rows[1..] && !Outranks(rest.value, rows[0], now) {
          NotOutrankedThrough(x, rest.value, rows[0], now);
        }
      }
    }
  }

  /** No other fresh row of its field and source is as new. */
  ghost predicate IsLatest(rows: seq<EvidenceRow>, x: EvidenceRow, now: int) {
    && x in rows && x.fetchedAt + x.ttl > now
    && forall y :: y in rows && y != x && y.field == x.field && y.source == x.source && y.fetchedAt + y.ttl > now ==>
         y.fetchedAt < x.fetchedAt
  }

  /** The claim believed for a field is a fresh row that says something; nothing newer comes from its source; and no
      latest claim of any source that says something is surer, the alphabetically last source winning a tie. */
  lemma BelievedIsSurest(rows: seq<EvidenceRow>, f: ScoredField, now: int, x: EvidenceRow)
    requires x.field == f && IsLatest(rows, x, now) && x.value.Observed? && x.value.shown != "unknown"
    ensures Resolve(rows, f, now).Some?
    ensures var w := Resolve(rows, f, now).value;
            && w in rows && w.field == f && w.fetchedAt + w.ttl > now
            && w.value.Observed? && w.value.shown != "unknown"
            && (x.source == w.source ==> x.fetchedAt <= w.fetchedAt)
            && EffectiveConfidence(x, now) <= EffectiveConfidence(w, now)
            && (EffectiveConfidence(x, now) == EffectiveConfidence(w, now) ==> NameRank(x.source) <= NameRank(w.source))
  {
    LatestStandsForItsSource(rows, f, now, x);
    var newest, saying := NewestPerSource(FreshFor(rows, f, now)), (r: EvidenceRow) => !IsUnknown(r.value);
    FilterMembers(newest, saying);
    assert x in Filter(newest, saying);
    WinnerIsARow(Filter(newest, saying), now);
    WinnerIsFresh(rows, f, now);
    FreshForMembers(rows, f, now);
    WinnerOutranksAll(Filter(newest, saying), now);
    NewestIsNewest(FreshFor(rows, f, now));
  }

  lemma LatestStandsForItsSource(rows: seq<EvidenceRow>, f: ScoredField, now: int, x: EvidenceRow)
    requires x.field == f && IsLatest(rows, x, now)
    ensures x in NewestPerSource(FreshFor(rows, f, now))
  {
    var live := FreshFor(rows, f, now);
    FreshForMembers(rows, f, now);
    NewestAreRows(live);
    EachSourceKept(live);
    NewestIsNewest(live);
    var r :| r in NewestPerSource(live) && r.source == x.source;
    assert r == x;
  }

  /** Requests made within a period. */
  ghost predicate Within(qs: seq<Request>, from: int, to: int) {
    forall i :: 0 <= i < |qs| ==> from <= qs[i].now <= to
  }

  lemma {:induction false} RunKeepsLastingFacts(s: LeadState, qs: seq<Request>, later: int)
    requires forall i :: 0 <= i < |qs| ==> qs[i].now <= later
    ensures Keeps(FactsAt(s.evidence, later), FactsAt(Run(s, qs).evidence, later))
    decreases |qs|
  {
    if qs != [] {
      RequestKeepsLastingFacts(s, qs[0], later);
      RunKeepsLastingFacts(Execute(s, qs[0]).0, qs[1..], later);
    }
  }

  /** No run of requests made by a moment widens the interval at that moment, so a preview of "qualifies" or
      "rejects" of the evidence in hand is final: nothing that is bought can change it. */
  lemma PreviewIsFinal(c: ScoringConfig, s: LeadState, qs: seq<Request>, now: int)
    requires WellFormed(c) && c.reject < c.qualify
    requires forall i :: 0 <= i < |qs| ==> qs[i].now <= now
    ensures var before := ComputeBounds(c, FactsAt(s.evidence, now));
            var after := ComputeBounds(c, FactsAt(Run(s, qs).evidence, now));
            before.lower <= after.lower <= after.upper <= before.upper
    ensures Preview(c, s, now) != Borderline ==> Preview(c, Run(s, qs), now) == Preview(c, s, now)
  {
    RunKeepsLastingFacts(s, qs, now);
    KeptFactsNestBounds(c, FactsAt(s.evidence, now), FactsAt(Run(s, qs).evidence, now));
  }

  /** Across time a sure preview survives every run of requests exactly when the evidence in hand alone still gives
      it at the later moment, which can be computed when it is first shown. */
  lemma PreviewSurvivesIff(c: ScoringConfig, s: LeadState, now: int, later: int)
    requires WellFormed(c) && c.reject < c.qualify
    ensures Preview(c, s, now) != Borderline ==>
              ((forall qs :: Within(qs, now, later) ==> Preview(c, Run(s, qs), later) == Preview(c, s, now)) <==>
               Preview(c, s, later) == Preview(c, s, now))
  {
    if Preview(c, s, later) != Preview(c, s, now) {
      assert Within([], now, later) && Run(s, []) == s;
    } else if Preview(c, s, now) != Borderline {
      forall qs | Within(qs, now, later) ensures Preview(c, Run(s, qs), later) == Preview(c, s, now) {
        PreviewIsFinal(c, s, qs, later);
      }
    }
  }

  /** Evidence that lasts: every known field has a row still fresh at `later`, and its rows fresh now agree. */
  ghost predicate Lasting(rows: seq<EvidenceRow>, now: int, later: int) {
    forall f: ScoredField :: Known(FactsAt(rows, now), f) ==>
      && FreshFor(rows, f, later) != []
      && forall a, b :: a in FreshFor(rows, f, now) && b in FreshFor(rows, f, now) ==> a.value == b.value
  }

  lemma LastingKeepsFacts(rows: seq<EvidenceRow>, now: int, later: int)
    requires now <= later && Lasting(rows, now, later)
    ensures Keeps(FactsAt(rows, now), FactsAt(rows, later))
  {
    forall f: ScoredField | Known(FactsAt(rows, now), f)
      ensures Get(FactsAt(rows, later), f) == Get(FactsAt(rows, now), f) {
      FactIsWinner(rows, f, now);
      WinnerIsFresh(rows, f, now);
      FreshForMembers(rows, f, now);
      FreshForMembers(rows, f, later);
      AgreeingRowsWin(rows, f, later, Resolve(rows, f, now).value.value);
      FactIsWinner(rows, f, later);
    }
  }

  /** With evidence that lasts, a sure preview is unchanged by any requests made in between. */
  lemma SurePreviewLasts(c: ScoringConfig, s: LeadState, qs: seq<Request>, now: int, later: int)
    requires WellFormed(c) && c.reject < c.qualify && now <= later && Within(qs, now, later)
    ensures Lasting(s.evidence, now, later) && Preview(c, s, now) != Borderline ==>
              Preview(c, Run(s, qs), later) == Preview(c, s, now)
  {
    if Lasting(s.evidence, now, later) {
      LastingKeepsFacts(s.evidence, now, later);
      KeptFactsNestBounds(c, FactsAt(s.evidence, now), FactsAt(s.evidence, later));
      PreviewIsFinal(c, s, qs, later);
    }
  }
}
