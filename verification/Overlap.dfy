/**
 Research requests that overlap on one lead. A request authorizes itself against
 the recorded spend, calls the source, and only then records its charge; no lock
 covers the two. Other charges of the pipeline may land at any time.
 Models execute_research of src/arie/research_acquisition.py under concurrency.
 */
module Overlap {
  import opened Scoring
  import opened Sorting
  import opened Research
  import opened Acquisition

  type RequestId = nat

  /** An authorized request on its way; `mark` is how many charges it saw. */
  datatype Flight = Flight(q: Request, provider: Provider, mark: nat)

  datatype State = State(lead: LeadState, flights: map<RequestId, Flight>)

  datatype Step =
    | Authorize(r: RequestId, q: Request)
    | RecordResult(r: RequestId)
    | OtherCharge(id: nat, provider: Provider, cost: real)
    | Crash(r: RequestId)

  predicate Enabled(s: State, step: Step) {
    match step
    case Authorize(r, _) => r !in s.flights
    case RecordResult(r) => r in s.flights
    case OtherCharge(_, _, _) => true
    case Crash(r) => r in s.flights
  }

  function AuthorizeStep(s: State, r: RequestId, q: Request): State {
    if s.lead.receipt.None? then s
    else
      var d := AuthorizeResearch(AuthorizationInputs(s.lead, q));
      if d.Refused? || FreshFor(s.lead.evidence, q.target, q.now) != [] then s
      else s.(flights := s.flights[r := Flight(q, d.provider, |s.lead.ledger|)])
  }

  /** What a request charges when it lands. */
  function Bill(f: Flight): Charge {
    Charge(ResearchKey(f.q.target, f.provider), f.provider, f.q.fetch(f.provider).cost)
  }

  function RecordStep(s: State, r: RequestId): State
    requires r in s.flights
  {
    var f := s.flights[r];
    State(s.lead.(
            ledger := Record(s.lead.ledger, Bill(f)),
            evidence := if Answers(f.q.fetch(f.provider)) then s.lead.evidence + [EvidenceFrom(f.q, f.provider)]
                        else s.lead.evidence),
          s.flights - {r})
  }

  function Next(s: State, step: Step): State
    requires Enabled(s, step)
  {
    match step
    case Authorize(r, q) => AuthorizeStep(s, r, q)
    case RecordResult(r) => RecordStep(s, r)
    case OtherCharge(id, p, cost) => s.(lead := s.lead.(ledger := Record(s.lead.ledger, Charge(OtherKey(id), p, cost))))
    case Crash(r) => s.(flights := s.flights - {r})
  }

  ghost predicate Honest(step: Step) {
    step.Authorize? ==> HonestPricing(step.q)
  }

  ghost predicate IsRun(ss: seq<State>, steps: seq<Step>) {
    && |ss| == |steps| + 1 && ss[0].flights == map[]
    && forall i :: 0 <= i < |steps| ==>
         Enabled(ss[i], steps[i]) && Honest(steps[i]) && ss[i + 1] == Next(ss[i], steps[i])
  }

  function FlightCost(f: Flight): real { BaseCost(f.provider, f.q.livePrice) }

  /** What an authorized request was promised: on the charges it saw, its own fits under the cap. */
  ghost predicate Promised(s: State, r: RequestId) {
    r in s.flights ==>
      var f := s.flights[r];
      && HonestPricing(f.q) && f.mark <= |s.lead.ledger| && FlightCost(f) >= 0.0
      && Spent(s.lead.ledger[..f.mark]) + s.lead.modelSpend + FlightCost(f) <= s.lead.cap
  }

  lemma AuthorizedFits(s: State, r: RequestId, q: Request)
    requires r !in s.flights && HonestPricing(q)
    ensures var n := AuthorizeStep(s, r, q);
            && n.lead == s.lead
            && (n.flights == s.flights || (r in n.flights && n.flights == s.flights[r := n.flights[r]]))
            && (r in n.flights ==>
                  FlightCost(n.flights[r]) >= 0.0 && LeadSpend(s.lead) + FlightCost(n.flights[r]) <= s.lead.cap)
    ensures Promised(AuthorizeStep(s, r, q), r)
  {
    var n := AuthorizeStep(s, r, q);
    if r in n.flights {
      ApprovedIsFirst(AuthorizationInputs(s.lead, q));
      OpenAreCandidates(s.lead.ledger, q.target);
      var open := OpenCandidates(s.lead.ledger, q.target);
      assert open[0] in open;
      assert s.lead.ledger[..|s.lead.ledger|] == s.lead.ledger;
    }
  }

  lemma StepKeepsPromises(s: State, step: Step)
    requires Enabled(s, step) && Honest(step) && forall r :: Promised(s, r)
    ensures forall r :: Promised(Next(s, step), r)
    ensures s.lead.ledger <= Next(s, step).lead.ledger && Next(s, step).lead.cap == s.lead.cap
    ensures Next(s, step).lead.modelSpend == s.lead.modelSpend
  {
    var n := Next(s, step);
    if step.Authorize? { AuthorizedFits(s, step.r, step.q); }
    forall r ensures Promised(n, r) {
      assert Promised(s, r);
      if r in s.flights && r in n.flights {
        assert n.lead.ledger[..s.flights[r].mark] == s.lead.ledger[..s.flights[r].mark];
      }
    }
  }

  lemma {:induction false} PromisesHold(ss: seq<State>, steps: seq<Step>, i: nat)
    requires IsRun(ss, steps) && i < |ss|
    ensures forall r :: Promised(ss[i], r)
  {
    if i > 0 {
      PromisesHold(ss, steps, i - 1);
      StepKeepsPromises(ss[i - 1], steps[i - 1]);
    }
  }

  lemma {:induction false} SpentSplits(ledger: seq<Charge>, k: nat)
    requires k <= |ledger|
    ensures Spent(ledger) == Spent(ledger[..k]) + Spent(ledger[k..])
  {
    if k == 0 {
      assert ledger[..0] == [] && ledger[0..] == ledger;
    } else {
      SpentSplits(ledger[1..], k - 1);
      assert ledger[..k][1..] == ledger[1..][..k - 1] && ledger[1..][k - 1..] == ledger[k..];
    }
  }

  /** In every interleaving a recorded request leaves the lead over its cap by at most what was charged between its own
      authorization and its record: with nothing charged in between, the cap holds. */
  lemma CapHoldsUpToOverlap(ss: seq<State>, steps: seq<Step>, i: nat)
    requires IsRun(ss, steps) && i < |steps| && steps[i].RecordResult?
    ensures steps[i].r in ss[i].flights && ss[i].flights[steps[i].r].mark <= |ss[i].lead.ledger|
    ensures ss[i + 1].lead.ledger != ss[i].lead.ledger ==>
              LeadSpend(ss[i + 1].lead) <=
              ss[i + 1].lead.cap + Spent(ss[i].lead.ledger[ss[i].flights[steps[i].r].mark..])
    ensures ss[i + 1].lead.ledger != ss[i].lead.ledger && ss[i].flights[steps[i].r].mark == |ss[i].lead.ledger| ==>
              LeadSpend(ss[i + 1].lead) <= ss[i + 1].lead.cap
  {
    PromisesHold(ss, steps, i);
    var s, r := ss[i], steps[i].r;
    assert Promised(s, r);
    var f := s.flights[r];
    SpentSplits(s.lead.ledger, f.mark);
    SpentAppend(s.lead.ledger, Bill(f));
    assert s.lead.ledger[|s.lead.ledger|..] == [];
  }

  /** A request whose record follows its authorization at once is the call: the same verdict, charge and evidence. */
  lemma UninterruptedRequestIsTheCall(s: State, r: RequestId, q: Request)
    requires r !in s.flights
    ensures var n := AuthorizeStep(s, r, q);
            if Execute(s.lead, q).1.Called?
            then r in n.flights && RecordStep(n, r) == s.(lead := Execute(s.lead, q).0)
            else n == s && Execute(s.lead, q).0 == s.lead
  {
    var n := AuthorizeStep(s, r, q);
    if Execute(s.lead, q).1.Called? { assert n.flights - {r} == s.flights; }
  }

  // ------------------------------------------------------------- whole runs --

  /** Amounts added up. */
  ghost function Total(m: map<RequestId, real>): real {
    if m == map[] then 0.0
    else
      var r :| r in m;
      m[r] + Total(m - {r})
  }

  lemma {:induction false} TotalWithout(m: map<RequestId, real>, r: RequestId)
    requires r in m
    ensures Total(m) == m[r] + Total(m - {r})
    decreases |m|
  {
    var t :| t in m && Total(m) == m[t] + Total(m - {t});
    if t != r {
      TotalWithout(m - {t}, r);
      TotalWithout(m - {r}, t);
      assert m - {t} - {r} == m - {r} - {t};
    }
  }

  lemma {:induction false} TotalAtMost(m: map<RequestId, real>, n: map<RequestId, real>)
    requires forall r :: r in m ==> r in n && m[r] <= n[r]
    requires forall r :: r in n && r !in m ==> 0.0 <= n[r]
    ensures Total(m) <= Total(n)
    decreases |n|
  {
    if n == map[] {
      assert m == map[];
    } else {
      var r :| r in n;
      TotalWithout(n, r);
      if r in m {
        TotalWithout(m, r);
        TotalAtMost(m - {r}, n - {r});
      } else {
        TotalAtMost(m, n - {r});
      }
    }
  }

  /** The base costs of the requests in flight. */
  function Costs(flights: map<RequestId, Flight>): map<RequestId, real> {
    map r | r in flights :: FlightCost(flights[r])
  }

  ghost function InFlight(flights: map<RequestId, Flight>): real { Total(Costs(flights)) }

  lemma InFlightWithout(flights: map<RequestId, Flight>, r: RequestId)
    requires r in flights
    ensures InFlight(flights) == FlightCost(flights[r]) + InFlight(flights - {r})
  {
    TotalWithout(Costs(flights), r);
    assert Costs(flights) - {r} == Costs(flights - {r});
  }

  /** What the rest of the pipeline charged, credits not counted. */
  function OtherCharges(steps: seq<Step>): real {
    if steps == [] then 0.0
    else
      var last := steps[|steps| - 1];
      OtherCharges(steps[..|steps| - 1]) + if last.OtherCharge? then MaxReal(0.0, last.cost) else 0.0
  }

  lemma AuthorizeExposure(s: State, step: Step)
    requires step.Authorize? && Enabled(s, step) && Honest(step)
    ensures var n := Next(s, step);
            LeadSpend(n.lead) == LeadSpend(s.lead)
            && (InFlight(n.flights) == InFlight(s.flights)
                || LeadSpend(n.lead) + InFlight(n.flights) <= s.lead.cap + InFlight(s.flights))
  {
    AuthorizedFits(s, step.r, step.q);
    var n := Next(s, step);
    if n.flights != s.flights {
      InFlightWithout(n.flights, step.r);
      assert n.flights - {step.r} == s.flights;
    }
  }

  lemma RecordExposure(s: State, step: Step)
    requires step.RecordResult? && Enabled(s, step) && Promised(s, step.r)
    ensures LeadSpend(Next(s, step).lead) + InFlight(Next(s, step).flights) <= LeadSpend(s.lead) + InFlight(s.flights)
  {
    var f := s.flights[step.r];
    SpentAppend(s.lead.ledger, Bill(f));
    InFlightWithout(s.flights, step.r);
  }

  lemma OtherExposure(s: State, step: Step)
    requires (step.OtherCharge? || step.Crash?) && Enabled(s, step) && forall r :: Promised(s, r)
    ensures LeadSpend(Next(s, step).lead) + InFlight(Next(s, step).flights) <=
            LeadSpend(s.lead) + InFlight(s.flights) + OtherCharges([step])
  {
    assert [step][..0] == [];
    if step.OtherCharge? {
      SpentAppend(s.lead.ledger, Charge(OtherKey(step.id), step.provider, step.cost));
    } else {
      assert Promised(s, step.r);
      InFlightWithout(s.flights, step.r);
    }
  }

  /** Over every interleaving: what is spent, with everything in flight, stays within the cap, what was in flight
      beside a request when it was authorized, and what the rest of the pipeline charged. */
  lemma {:induction false} SpendBoundedByFlights(ss: seq<State>, steps: seq<Step>, i: nat, peak: real)
    requires IsRun(ss, steps) && i < |ss| && LeadSpend(ss[0].lead) <= ss[0].lead.cap && peak >= 0.0
    requires forall j :: 0 <= j < i && steps[j].Authorize? ==> InFlight(ss[j].flights) <= peak
    ensures ss[i].lead.cap == ss[0].lead.cap
    ensures LeadSpend(ss[i].lead) <= LeadSpend(ss[i].lead) + InFlight(ss[i].flights) <=
            ss[0].lead.cap + peak + OtherCharges(steps[..i])
  {
    PromisesHold(ss, steps, i);
    forall r | r in ss[i].flights ensures FlightCost(ss[i].flights[r]) >= 0.0 { assert Promised(ss[i], r); }
    TotalAtMost(map[], Costs(ss[i].flights));
    if i > 0 {
      var s, step := ss[i - 1], steps[i - 1];
      SpendBoundedByFlights(ss, steps, i - 1, peak);
      PromisesHold(ss, steps, i - 1);
      StepKeepsPromises(s, step);
      OtherChargesGrow(steps, i - 1);
      match step
      case Authorize(_, _) => AuthorizeExposure(s, step);
      case RecordResult(r) => assert Promised(s, r); RecordExposure(s, step);
      case _ => OtherExposure(s, step);
    }
  }

  lemma {:induction false} OtherChargesGrow(steps: seq<Step>, i: nat)
    requires i < |steps|
    ensures OtherCharges(steps[..i + 1]) == OtherCharges(steps[..i]) + OtherCharges([steps[i]])
    ensures 0.0 <= OtherCharges(steps[..i]) && 0.0 <= OtherCharges([steps[i]])
  {
    assert steps[..i + 1][..i] == steps[..i] && [steps[i]][..0] == [];
    if i > 0 { OtherChargesGrow(steps, i - 1); }
  }

  /** Requests that do not overlap stay within the cap, apart from what others charge. */
  lemma SeparateRequestsStayWithinCap(ss: seq<State>, steps: seq<Step>, i: nat)
    requires IsRun(ss, steps) && i < |ss| && LeadSpend(ss[0].lead) <= ss[0].lead.cap
    requires forall j :: 0 <= j < i && steps[j].Authorize? ==> ss[j].flights == map[]
    ensures LeadSpend(ss[i].lead) <= ss[0].lead.cap + OtherCharges(steps[..i])
  {
    SpendBoundedByFlights(ss, steps, i, 0.0);
  }

  // ---------------------------------------------- exactly when they overspend --

  function Bills(flights: map<RequestId, Flight>, family: set<RequestId>): map<RequestId, real>
    requires family <= flights.Keys
  {
    map r | r in family :: Bill(flights[r]).cost
  }

  /** Requests in flight whose charge keys are new to the ledger and pairwise distinct: none is charged to another's
      key. */
  ghost predicate Separate(s: State, family: set<RequestId>) {
    && family <= s.flights.Keys
    && (forall r :: r in family ==> !HasKey(s.lead.ledger, Bill(s.flights[r]).key))
    && forall r, t | r in family && t in family && Bill(s.flights[r]).key == Bill(s.flights[t]).key :: r == t
  }

  /** The bills of some such requests do not fit under the cap together. */
  ghost predicate Exposed(s: State) {
    exists family :: Separate(s, family) && LeadSpend(s.lead) + Total(Bills(s.flights, family)) > s.lead.cap
  }

  /** Each of these requests is in flight, and none is listed twice. */
  ghost predicate IsOrder(flights: map<RequestId, Flight>, order: seq<RequestId>) {
    && (forall i :: 0 <= i < |order| ==> order[i] in flights)
    && forall i, j :: 0 <= i < j < |order| ==> order[i] != order[j]
  }

  function Members(order: seq<RequestId>): set<RequestId> { set i | 0 <= i < |order| :: order[i] }

  /** The requests of an order, recorded one after the other. */
  function LandAll(s: State, order: seq<RequestId>): State
    requires IsOrder(s.flights, order)
    decreases |order|
  {
    if order == [] then s else LandAll(RecordStep(s, order[0]), order[1..])
  }

  /** One landing: what it charges, and what stays in flight. */
  lemma LandingCharges(s: State, r: RequestId)
    requires r in s.flights
    ensures var n := RecordStep(s, r); var bill := Bill(s.flights[r]);
            && LeadSpend(n.lead) == LeadSpend(s.lead) + (if HasKey(s.lead.ledger, bill.key) then 0.0 else bill.cost)
            && (forall k :: HasKey(n.lead.ledger, k) <==> HasKey(s.lead.ledger, k) || k == bill.key)
            && n.flights == s.flights - {r} && n.lead.cap == s.lead.cap
  {
    var bill, before, after := Bill(s.flights[r]), s.lead.ledger, RecordStep(s, r).lead.ledger;
    SpentAppend(before, bill);
    forall k ensures HasKey(after, k) <==> HasKey(before, k) || k == bill.key {
      if after != before { AppendedKey(before, bill, k); }
    }
  }

  lemma AppendedKey(ledger: seq<Charge>, c: Charge, k: CallKey)
    ensures HasKey(ledger + [c], k) <==> HasKey(ledger, k) || k == c.key
  {
    var after := ledger + [c];
    assert after[|ledger|] == c;
    if HasKey(ledger, k) {
      var i :| 0 <= i < |ledger| && ledger[i].key == k;
      assert after[i].key == k;
    }
  }

  lemma BillsWith(flights: map<RequestId, Flight>, r: RequestId, rest: set<RequestId>)
    requires r in flights && rest <= flights.Keys - {r}
    ensures Bills(flights - {r}, rest) == Bills(flights, rest)
    ensures Total(Bills(flights, rest + {r})) == Bill(flights[r]).cost + Total(Bills(flights, rest))
  {
    var all := Bills(flights, rest + {r});
    TotalWithout(all, r);
    assert all - {r} == Bills(flights, rest);
  }

  /** Landed in any order, separate requests spend exactly the sum of their bills. */
  lemma {:induction false} LandedBillsAddUp(s: State, order: seq<RequestId>)
    requires IsOrder(s.flights, order) && Separate(s, Members(order))
    ensures LeadSpend(LandAll(s, order).lead) == LeadSpend(s.lead) + Total(Bills(s.flights, Members(order)))
    decreases |order|
  {
    if order != [] {
      var r, rest := order[0], order[1..];
      assert Members(order) == Members(rest) + {r};
      LandingCharges(s, r);
      LandedBillsAddUp(RecordStep(s, r), rest);
      BillsWith(s.flights, r, Members(rest));
    }
  }

  lemma {:induction false} AnyOrder(flights: map<RequestId, Flight>, family: set<RequestId>)
    returns (order: seq<RequestId>)
    requires family <= flights.Keys
    ensures IsOrder(flights, order) && Members(order) == family
  {
    order := [];
    if r :| r in family {
      var rest := AnyOrder(flights, family - {r});
      forall i | 0 <= i < |rest| ensures rest[i] != r { assert rest[i] in Members(rest); }
      order := [r] + rest;
      assert order[1..] == rest;
      assert Members(order) == Members(rest) + {r} by {
        forall t ensures t in Members(order) <==> t in Members(rest) + {r} {
          if t in Members(rest) {
            var i :| 0 <= i < |rest| && rest[i] == t;
            assert order[i + 1] == t;
          }
          if t == r { assert order[0] == t; }
        }
      }
    }
  }

  /** Landing or losing a request exposes nothing that was not exposed. */
  lemma SettlingKeepsUnexposed(s: State, step: Step)
    requires (step.RecordResult? || step.Crash?) && Enabled(s, step) && Exposed(Next(s, step))
    ensures Exposed(s)
  {
    var n := Next(s, step);
    var r := step.r;
    var family :| Separate(n, family) && LeadSpend(n.lead) + Total(Bills(n.flights, family)) > n.lead.cap;
    BillsWith(s.flights, r, family);
    if step.RecordResult? { LandingCharges(s, r); }
    if step.RecordResult? && !HasKey(s.lead.ledger, Bill(s.flights[r]).key) {
      assert Separate(s, family + {r});
    } else {
      assert Separate(s, family);
    }
  }

  /** A continuation in which requests in flight only land or are lost. */
  ghost predicate Settles(ss: seq<State>, steps: seq<Step>) {
    && |ss| == |steps| + 1
    && forall i :: 0 <= i < |steps| ==> (steps[i].RecordResult? || steps[i].Crash?)
                                        && Enabled(ss[i], steps[i]) && ss[i + 1] == Next(ss[i], steps[i])
  }

  ghost predicate Overspends(ss: seq<State>, steps: seq<Step>) {
    Settles(ss, steps) && LeadSpend(ss[|steps|].lead) > ss[0].lead.cap
  }

  lemma {:induction false} SettledStaysUnexposed(ss: seq<State>, steps: seq<Step>)
    requires Settles(ss, steps) && Exposed(ss[|steps|])
    ensures Exposed(ss[0])
    decreases |steps|
  {
    if steps != [] {
      var i := |steps| - 1;
      SettlingKeepsUnexposed(ss[i], steps[i]);
      SettledStaysUnexposed(ss[..|steps|], steps[..i]);
    }
  }

  lemma {:induction false} SettledKeepsCap(ss: seq<State>, steps: seq<Step>)
    requires Settles(ss, steps)
    ensures ss[|steps|].lead.cap == ss[0].lead.cap
    decreases |steps|
  {
    if steps != [] { SettledKeepsCap(ss[..|steps|], steps[..|steps| - 1]); }
  }

  lemma {:induction false} LandingsSettle(s: State, order: seq<RequestId>) returns (ss: seq<State>, steps: seq<Step>)
    requires IsOrder(s.flights, order)
    ensures Settles(ss, steps) && ss[0] == s && ss[|steps|] == LandAll(s, order)
    decreases |order|
  {
    ss, steps := [s], [];
    if order != [] {
      var n := RecordStep(s, order[0]);
      var tt, rest := LandingsSettle(n, order[1..]);
      ss, steps := [s] + tt, [RecordResult(order[0])] + rest;
      forall i | 0 < i < |steps| ensures ss[i] == tt[i - 1] && ss[i + 1] == tt[i] && steps[i] == rest[i - 1] {
      }
    }
  }

  lemma OverCapIsExposed(s: State)
    requires LeadSpend(s.lead) > s.lead.cap
    ensures Exposed(s)
  {
    assert Separate(s, {}) && Bills(s.flights, {}) == map[];
  }

  /** The requests in flight can land over the cap iff the bills of some of them, with new and pairwise distinct charge
      keys, do not fit together. */
  lemma OverspendsIffExposed(s: State)
    ensures Exposed(s) <==> exists ss, steps :: Overspends(ss, steps) && ss[0] == s
  {
    if Exposed(s) {
      var family :| Separate(s, family) && LeadSpend(s.lead) + Total(Bills(s.flights, family)) > s.lead.cap;
      var order := AnyOrder(s.flights, family);
      LandedBillsAddUp(s, order);
      var ss, steps := LandingsSettle(s, order);
      assert Overspends(ss, steps);
    }
    if ss, steps :| Overspends(ss, steps) && ss[0] == s {
      SettledKeepsCap(ss, steps);
      OverCapIsExposed(ss[|steps|]);
      SettledStaysUnexposed(ss, steps);
    }
  }

  /** A run whose every authorization and foreign charge leaves nothing exposed never overspends. */
  lemma {:induction false} UnexposedRunsStayWithinCap(ss: seq<State>, steps: seq<Step>, i: nat)
    requires IsRun(ss, steps) && i < |ss| && LeadSpend(ss[0].lead) <= ss[0].lead.cap
    requires forall j :: 0 <= j < i && (steps[j].Authorize? || steps[j].OtherCharge?) ==> !Exposed(ss[j + 1])
    ensures !Exposed(ss[i]) && LeadSpend(ss[i].lead) <= ss[i].lead.cap
  {
    if i == 0 {
      forall family | Separate(ss[0], family) ensures family == {} {}
      assert Bills(ss[0].flights, {}) == map[];
    } else {
      UnexposedRunsStayWithinCap(ss, steps, i - 1);
      if steps[i - 1].RecordResult? || steps[i - 1].Crash? {
        if Exposed(ss[i]) { SettlingKeepsUnexposed(ss[i - 1], steps[i - 1]); }
      }
    }
    if LeadSpend(ss[i].lead) > ss[i].lead.cap { OverCapIsExposed(ss[i]); }
  }

  /** Two requests in flight for one charge key, the second billed no less. */
  predicate Stands(flights: map<RequestId, Flight>, r: RequestId, t: RequestId) {
    r in flights && t in flights
    && Bill(flights[r]).key == Bill(flights[t]).key && Bill(flights[r]).cost <= Bill(flights[t]).cost
  }

  ghost predicate StoodFor(flights: map<RequestId, Flight>, family: set<RequestId>, counted: set<RequestId>) {
    forall r :: r in family ==> exists t :: t in counted && Stands(flights, r, t)
  }

  lemma OthersStoodFor(s: State, family: set<RequestId>, counted: set<RequestId>, r: RequestId, t: RequestId)
    requires Separate(s, family) && StoodFor(s.flights, family, counted) && r in family && t in counted
    requires Stands(s.flights, r, t)
    ensures StoodFor(s.flights, family - {r}, counted - {t})
  {
    forall q | q in family - {r} ensures exists u :: u in counted - {t} && Stands(s.flights, q, u) {
      var u :| u in counted && Stands(s.flights, q, u);
      assert u in counted - {t};
    }
  }

  lemma TotalSplits(flights: map<RequestId, Flight>, family: set<RequestId>, r: RequestId)
    requires r in family && family <= flights.Keys
    ensures Total(Bills(flights, family)) == Bill(flights[r]).cost + Total(Bills(flights, family - {r}))
  {
    BillsWith(flights, r, family - {r});
    assert family == family - {r} + {r};
  }

  lemma {:induction false} CountedBillsBound(s: State, family: set<RequestId>, counted: set<RequestId>)
    requires Separate(s, family) && Separate(s, counted) && StoodFor(s.flights, family, counted)
    requires forall t :: t in counted ==> 0.0 <= Bill(s.flights[t]).cost
    ensures Total(Bills(s.flights, family)) <= Total(Bills(s.flights, counted))
    decreases |family|
  {
    if r :| r in family {
      var t :| t in counted && Stands(s.flights, r, t);
      OthersStoodFor(s, family, counted, r, t);
      CountedBillsBound(s, family - {r}, counted - {t});
      TotalSplits(s.flights, family, r);
      TotalSplits(s.flights, counted, t);
    } else {
      TotalAtMost(Bills(s.flights, family), Bills(s.flights, counted));
    }
  }

  /** The requests in flight whose key is not charged yet. */
  function Chargeable(s: State): set<RequestId> {
    set r | r in s.flights && !HasKey(s.lead.ledger, Bill(s.flights[r]).key)
  }

  /** So one sum decides: each new charge key in flight counted once, at its highest bill. */
  lemma ExposedIffCounted(s: State, counted: set<RequestId>)
    requires Separate(s, counted) && forall t :: t in counted ==> 0.0 <= Bill(s.flights[t]).cost
    requires StoodFor(s.flights, Chargeable(s), counted)
    ensures Exposed(s) <==> LeadSpend(s.lead) + Total(Bills(s.flights, counted)) > s.lead.cap
  {
    forall family | Separate(s, family) ensures Total(Bills(s.flights, family)) <= Total(Bills(s.flights, counted)) {
      forall r | r in family ensures exists t :: t in counted && Stands(s.flights, r, t) {
        assert r in Chargeable(s);
      }
      CountedBillsBound(s, family, counted);
    }
  }

  lemma ListedExposedIff(s: State)
    requires Separate(s, s.flights.Keys)
    requires forall t :: t in s.flights ==> 0.0 <= Bill(s.flights[t]).cost == FlightCost(s.flights[t])
    ensures Exposed(s) <==> LeadSpend(s.lead) + InFlight(s.flights) > s.lead.cap
  {
    assert Bills(s.flights, s.flights.Keys) == Costs(s.flights);
    forall t | t in s.flights ensures Stands(s.flights, t, t) {
    }
    ExposedIffCounted(s, s.flights.Keys);
  }

  /** When every bill is the listed price and no key is shared, that is a comparison the service can make as it
      authorizes: the spend, what is in flight and the new request's cost against the cap. */
  lemma AuthorizationExposesIff(s: State, r: RequestId, q: Request)
    requires r !in s.flights && r in AuthorizeStep(s, r, q).flights
    requires var n := AuthorizeStep(s, r, q);
             && Separate(n, n.flights.Keys)
             && forall t :: t in n.flights ==> 0.0 <= Bill(n.flights[t]).cost == FlightCost(n.flights[t])
    ensures var n := AuthorizeStep(s, r, q);
            Exposed(n) <==> LeadSpend(s.lead) + InFlight(s.flights) + FlightCost(n.flights[r]) > s.lead.cap
  {
    var n := AuthorizeStep(s, r, q);
    InFlightWithout(n.flights, r);
    assert n.flights - {r} == s.flights && n.lead == s.lead;
    ListedExposedIff(n);
  }

  /** Whatever the keys, and as long as no bill exceeds its listed price, that comparison keeps the lead safe. */
  lemma FittingAuthorizationIsSafe(s: State)
    requires forall r :: Promised(s, r)
    requires LeadSpend(s.lead) + InFlight(s.flights) <= s.lead.cap
    ensures !Exposed(s)
  {
    forall r | r in s.flights
      ensures Bill(s.flights[r]).cost <= FlightCost(s.flights[r]) && 0.0 <= FlightCost(s.flights[r]) {
      assert Promised(s, r);
    }
    forall family | Separate(s, family) ensures Total(Bills(s.flights, family)) <= InFlight(s.flights) {
      TotalAtMost(Bills(s.flights, family), Costs(s.flights));
    }
  }

  // -------------------------------------------- two requests, one budget --

  const TIGHT := LeadState(
    Some(Receipt(50.0, 65.0, 55.0, 50.0, 90.0, {})), 0.0, 0.02,
    [Charge(OtherKey(0), InternalCrm, 0.0), Charge(OtherKey(1), DnsWeb, 0.0)], [])

  function Ask(f: ScoredField): Request {
    Request(f, Simulated, map[EmployeeCount := 20.0, Industry := 20.0], 1.0, 0, (p: Provider) => 0.0,
            (p: Provider) => FetchResult(Miss, BaseCost(p, (r: Provider) => 0.0), Absent, 0.0))
  }

  lemma OpenFor(f: ScoredField)
    requires f == EmployeeCount || f == Industry
    ensures OpenCandidates(TIGHT.ledger, f) == [FirmographicsBasic, FirmographicsPremium, DeepResearch]
  {
    CalledInTight();
    var called := if f == EmployeeCount then [InternalCrm] else [InternalCrm, DnsWeb];
    OpenAreTheRest(TIGHT.ledger, f, called, [FirmographicsBasic, FirmographicsPremium, DeepResearch]);
  }

  lemma CalledInTight()
    ensures forall p :: WasCalled(TIGHT.ledger, p) <==> p == InternalCrm || p == DnsWeb
  {
    var ledger := TIGHT.ledger;
    assert ledger[0].provider == InternalCrm && ledger[1].provider == DnsWeb;
  }

  lemma TakesOff(s: State, r: RequestId, f: ScoredField)
    requires s.lead == TIGHT && (f == EmployeeCount || f == Industry)
    ensures AuthorizeStep(s, r, Ask(f)) == s.(flights := s.flights[r := Flight(Ask(f), FirmographicsBasic, 2)])
  {
    OpenFor(f);
    var ctx := AuthorizationInputs(TIGHT, Ask(f));
    var ledger := TIGHT.ledger;
    assert ledger[1..][1..] == [] && Spent(ledger) == 0.0;
    assert ctx.candidates == OpenCandidates(TIGHT.ledger, f) && ctx.cost == 0.012;
    ApprovedIffEveryGateOpen(ctx);
    assert Usable(ctx, FirmographicsBasic) && FirmographicsBasic in ctx.candidates;
    assert AuthorizeResearch(ctx).Approved?;
    assert Usable(ctx, ctx.candidates[0]);
    assert AuthorizeResearch(ctx).provider == FirmographicsBasic;
  }

  function Purchase(f: ScoredField): Charge {
    Charge(ResearchKey(f, FirmographicsBasic), FirmographicsBasic, 0.012)
  }

  lemma Lands(s: State, r: RequestId, f: ScoredField)
    requires r in s.flights && s.flights[r] == Flight(Ask(f), FirmographicsBasic, 2)
    requires !HasKey(s.lead.ledger, ResearchKey(f, FirmographicsBasic))
    ensures RecordStep(s, r) == State(s.lead.(ledger := s.lead.ledger + [Purchase(f)]), s.flights - {r})
  {
  }

  lemma TwoPurchases()
    ensures Spent(TIGHT.ledger) == 0.0
    ensures Spent(TIGHT.ledger + [Purchase(EmployeeCount)] + [Purchase(Industry)]) == 0.024
  {
    var ledger := TIGHT.ledger;
    assert ledger[1..][1..] == [];
    SpentAppend(ledger, Purchase(EmployeeCount));
    SpentAppend(ledger + [Purchase(EmployeeCount)], Purchase(Industry));
  }

  lemma AskIsHonest(f: ScoredField)
    ensures HonestPricing(Ask(f))
  {
  }

  lemma Extend(ss: seq<State>, steps: seq<Step>, step: Step, n: State)
    requires IsRun(ss, steps) && Enabled(ss[|steps|], step) && Honest(step) && Next(ss[|steps|], step) == n
    ensures IsRun(ss + [n], steps + [step])
  {
  }

  function InTheAir(f: ScoredField): Flight { Flight(Ask(f), FirmographicsBasic, 2) }

  lemma BothAuthorized() returns (ss: seq<State>, steps: seq<Step>)
    ensures IsRun(ss, steps) && |steps| == 2 && ss[0].lead == TIGHT
    ensures ss[2] == State(TIGHT, map[0 := InTheAir(EmployeeCount), 1 := InTheAir(Industry)])
  {
    var s0, s1 := State(TIGHT, map[]), State(TIGHT, map[0 := InTheAir(EmployeeCount)]);
    ss, steps := [s0], [];
    AskIsHonest(EmployeeCount);
    AskIsHonest(Industry);
    TakesOff(s0, 0, EmployeeCount);
    Extend(ss, steps, Authorize(0, Ask(EmployeeCount)), s1);
    ss, steps := ss + [s1], steps + [Authorize(0, Ask(EmployeeCount))];
    TakesOff(s1, 1, Industry);
    var s2 := s1.(flights := s1.flights[1 := InTheAir(Industry)]);
    Extend(ss, steps, Authorize(1, Ask(Industry)), s2);
    ss, steps := ss + [s2], steps + [Authorize(1, Ask(Industry))];
  }

  lemma BothLand() returns (ss: seq<State>, steps: seq<Step>)
    ensures IsRun(ss, steps) && |steps| == 4 && ss[0].lead == TIGHT
    ensures steps[2] == RecordResult(0) && steps[3] == RecordResult(1) && ss[4].lead.cap == TIGHT.cap
    ensures ss[4].lead == TIGHT.(ledger := TIGHT.ledger + [Purchase(EmployeeCount)] + [Purchase(Industry)])
  {
    ss, steps := BothAuthorized();
    Lands(ss[2], 0, EmployeeCount);
    var s3 := RecordStep(ss[2], 0);
    Lands(s3, 1, Industry);
    var s4 := RecordStep(s3, 1);
    Extend(ss, steps, RecordResult(0), s3);
    ss, steps := ss + [s3], steps + [RecordResult(0)];
    Extend(ss, steps, RecordResult(1), s4);
    ss, steps := ss + [s4], steps + [RecordResult(1)];
  }

  /** Overlap matters: two honest requests, each authorized within the cap, together overspend it. */
  lemma OverlappingRequestsCanOverspend() returns (ss: seq<State>, steps: seq<Step>)
    ensures IsRun(ss, steps) && |steps| == 4 && Exposed(ss[2])
    ensures LeadSpend(ss[0].lead) <= ss[0].lead.cap && LeadSpend(ss[4].lead) > ss[4].lead.cap
  {
    ss, steps := BothLand();
    TwoPurchases();
    OverCapIsExposed(ss[4]);
    SettlingKeepsUnexposed(ss[3], steps[3]);
    SettlingKeepsUnexposed(ss[2], steps[2]);
  }
}
