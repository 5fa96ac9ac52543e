/**
 Is one more fact worth buying, which one, and is the purchase allowed?
 Models src/arie/research.py and the target selection of
 src/arie/research_acquisition.py and src/arie/copilot_service.py.
 */
module Research {
  import opened Scoring
  import opened Settlement
  import opened Sorting

  /** The four fields a research plan may name, in declaration order. */
  const TARGETS: seq<ScoredField> := [EmployeeCount, Industry, TitleSeniority, TitleFunction]

  datatype Materiality = Material | NonMaterial | AlreadyResolved

  datatype FieldMateriality = FieldMateriality(field: ScoredField, materiality: Materiality, ceiling: real)

  datatype Analysis = Analysis(clear: bool, fields: seq<FieldMateriality>)

  /** What a decision receipt freezes about a score. */
  datatype Receipt = Receipt(
    score: real, qualify: real, reject: real, lower: real, upper: real, known: set<ScoredField>)

  predicate DecisionClear(r: Receipt) {
    || r.lower >= r.qualify
    || r.upper < r.reject
    || (r.lower >= r.reject && r.upper < r.qualify)
  }

  predicate Crosses(r: Receipt, ceiling: real) {
    r.score < r.reject <= r.score + ceiling || r.score < r.qualify <= r.score + ceiling
  }

  function CeilingFor(ceilings: map<ScoredField, real>, f: ScoredField): real {
    if f in ceilings then ceilings[f] else 0.0
  }

  function MaterialityOf(r: Receipt, ceilings: map<ScoredField, real>, f: ScoredField): Materiality {
    if f in r.known then AlreadyResolved
    else if DecisionClear(r) || r.lower < r.score then NonMaterial
    else if Crosses(r, CeilingFor(ceilings, f)) then Material
    else NonMaterial
  }

  function Assess(r: Receipt, ceilings: map<ScoredField, real>, f: ScoredField): FieldMateriality {
    FieldMateriality(f, MaterialityOf(r, ceilings, f), CeilingFor(ceilings, f))
  }

  /** The analysis, one verdict per candidate field in declaration order. */
  method AnalyzeMateriality(r: Receipt, ceilings: map<ScoredField, real>) returns (a: Analysis)
    ensures a.clear == DecisionClear(r)
    ensures |a.fields| == |TARGETS|
    ensures forall i :: 0 <= i < |TARGETS| ==> a.fields[i] == Assess(r, ceilings, TARGETS[i])
    ensures a == AnalysisOf(r, ceilings)
  {
    var clear := r.lower >= r.qualify || r.upper < r.reject || (r.lower >= r.reject && r.upper < r.qualify);
    var pinned := r.lower < r.score;
    var results: seq<FieldMateriality> := [];
    for i := 0 to |TARGETS|
      invariant |results| == i
      invariant forall j :: 0 <= j < i ==> results[j] == Assess(r, ceilings, TARGETS[j])
    {
      var target := TARGETS[i];
      var ceiling := if target in ceilings then ceilings[target] else 0.0;
      var materiality;
      if target in r.known {
        materiality := AlreadyResolved;
      } else if clear || pinned {
        materiality := NonMaterial;
      } else {
        var best := r.score + ceiling;
        var crosses := r.score < r.reject <= best || r.score < r.qualify <= best;
        materiality := if crosses then Material else NonMaterial;
      }
      results := results + [FieldMateriality(target, materiality, ceiling)];
    }
    a := Analysis(clear, results);
    assert a.fields == AnalysisOf(r, ceilings).fields;
  }

  function AnalysisOf(r: Receipt, ceilings: map<ScoredField, real>): Analysis {
    Analysis(DecisionClear(r), seq(|TARGETS|, i requires 0 <= i < |TARGETS| => Assess(r, ceilings, TARGETS[i])))
  }

  function MaterialFields(a: Analysis): seq<FieldMateriality> {
    Filter(a.fields, (f: FieldMateriality) => f.materiality == Material)
  }

  // ---------------------------------------------- receipts of decided leads --

  ghost function CeilingsOf(c: ScoringConfig): map<ScoredField, real> {
    map f | f in ALL_FIELDS - {DisqualifyingFlag} :: Ceiling(c, f)
  }

  /** The receipt of a lead decided on `facts` under `c`. */
  ghost function ReceiptFor(c: ScoringConfig, facts: Facts): Receipt {
    var b := ComputeBounds(c, facts);
    Receipt(b.current, c.qualify, c.reject, b.lower, b.upper, set f | f in ALL_FIELDS && Known(facts, f))
  }

  /** The clear-decision test of the materiality analysis is the scorer's settled-decision test. */
  lemma ClearIsSettled(c: ScoringConfig, facts: Facts)
    ensures DecisionClear(ReceiptFor(c, facts)) <==> Settled(c, facts).Some?
  {
  }

  /** Some answer to `f` alone moves the class of the guaranteed score. */
  ghost predicate SomeAnswerMoves(c: ScoringConfig, facts: Facts, f: ScoredField) {
    exists v: Value :: !IsUnknown(v) && GuaranteedClass(c, facts[f := v]) != GuaranteedClass(c, facts)
  }

  ghost function GuaranteedClass(c: ScoringConfig, facts: Facts): Decision {
    Decide(ComputeBounds(c, facts).lower, c.qualify, c.reject)
  }

  /** Crossing a threshold already implies the decision is not clear: the guard changes nothing. */
  lemma ClearGuardRedundant(c: ScoringConfig, facts: Facts, f: ScoredField)
    requires WellFormed(c) && c.reject < c.qualify && f in TARGETS
    requires !Known(facts, f) && !Disqualified(c, facts)
    requires Crosses(ReceiptFor(c, facts), Ceiling(c, f))
    ensures !DecisionClear(ReceiptFor(c, facts))
  {
    BoundsOrder(c, facts);
    UpperCoversField(c, facts, f);
  }

  lemma UpperCoversField(c: ScoringConfig, facts: Facts, f: ScoredField)
    requires WellFormed(c) && f in TARGETS && !Known(facts, f) && !Disqualified(c, facts)
    ensures Score(c, facts) + Ceiling(c, f) <= ComputeBounds(c, facts).upper
  {
    forall h: ScoredField ensures Open(c, facts, h) >= 0.0 {
      CeilingNonNegative(c, h);
    }
  }

  lemma ScoreAfterAnswer(c: ScoringConfig, facts: Facts, f: ScoredField, v: Value)
    requires f in TARGETS && !Known(facts, f) && !IsUnknown(v) && !Disqualified(c, facts)
    ensures Score(c, facts[f := v]) == Score(c, facts) + FieldPoints(c, f, v)
    ensures !Disqualified(c, facts[f := v]) && (GateOpen(c, facts[f := v]) <==> GateOpen(c, facts))
  {
    forall h: ScoredField | h != f ensures PointsOf(c, facts[f := v], h) == PointsOf(c, facts, h) {
    }
    assert PointsOf(c, facts, f) == 0.0;
  }

  lemma GapIff(c: ScoringConfig, s: real, x: real, top: real)
    requires c.reject < c.qualify && 0.0 <= x <= top
    ensures Decide(s + x, c.qualify, c.reject) != Decide(s, c.qualify, c.reject) ==> ThresholdInGap(c, s, s + top)
    ensures Decide(s + top, c.qualify, c.reject) != Decide(s, c.qualify, c.reject) <==> ThresholdInGap(c, s, s + top)
  {
  }

  /** With the gate resolved, one answer moves the class only if the attainable ceiling crosses a threshold,
      and an answer worth that ceiling moves it then. */
  lemma AnswerMovesIff(c: ScoringConfig, facts: Facts, f: ScoredField, v: Value)
    requires WellFormed(c) && c.reject < c.qualify && f in TARGETS && !Known(facts, f) && !IsUnknown(v)
    requires !Disqualified(c, facts) && !GateOpen(c, facts)
    ensures GuaranteedClass(c, facts[f := v]) != GuaranteedClass(c, facts) ==>
              ThresholdInGap(c, Score(c, facts), Score(c, facts) + AttainableCeiling(c, f))
    ensures FieldPoints(c, f, v) == AttainableCeiling(c, f) ==>
              (GuaranteedClass(c, facts[f := v]) != GuaranteedClass(c, facts) <==>
               ThresholdInGap(c, Score(c, facts), Score(c, facts) + AttainableCeiling(c, f)))
  {
    ScoreAfterAnswer(c, facts, f, v);
    PointsInRange(c, f, v);
    NoAnswerBeatsAttainable(c, f, v);
    GapIff(c, Score(c, facts), FieldPoints(c, f, v), AttainableCeiling(c, f));
  }

  /** With the gate resolved, some answer moves the class exactly when the attainable ceiling crosses a threshold. */
  lemma MovesIffCrosses(c: ScoringConfig, facts: Facts, f: ScoredField)
    requires WellFormed(c) && c.reject < c.qualify && f in TARGETS
    requires !Known(facts, f) && !Disqualified(c, facts) && !GateOpen(c, facts)
    ensures SomeAnswerMoves(c, facts, f) <==>
            ThresholdInGap(c, Score(c, facts), Score(c, facts) + AttainableCeiling(c, f))
  {
    forall v: Value | !IsUnknown(v)
      ensures GuaranteedClass(c, facts[f := v]) != GuaranteedClass(c, facts) ==>
                ThresholdInGap(c, Score(c, facts), Score(c, facts) + AttainableCeiling(c, f))
    {
      AnswerMovesIff(c, facts, f, v);
    }
    var top := AttainableIsReached(c, f);
    AnswerMovesIff(c, facts, f, top);
  }

  /** While the gate is open no answer to a candidate field moves the guaranteed score. */
  lemma OpenGatePins(c: ScoringConfig, facts: Facts, f: ScoredField)
    requires f in TARGETS && !Known(facts, f) && (GateOpen(c, facts) || Disqualified(c, facts))
    ensures !SomeAnswerMoves(c, facts, f)
  {
    forall v: Value | !IsUnknown(v) ensures GuaranteedClass(c, facts[f := v]) == GuaranteedClass(c, facts) {
      if !Disqualified(c, facts) { ScoreAfterAnswer(c, facts, f, v); }
    }
  }

  lemma KnownInReceipt(c: ScoringConfig, facts: Facts, f: ScoredField)
    ensures f in ReceiptFor(c, facts).known <==> Known(facts, f)
    ensures f in TARGETS ==> CeilingFor(CeilingsOf(c), f) == Ceiling(c, f)
  {
    assert f in ALL_FIELDS;
  }

  /** The field's declared ceiling crosses a threshold from the score, but the gate is still open or no answer gets
      that far. */
  ghost predicate MaterialInNameOnly(c: ScoringConfig, facts: Facts, f: ScoredField) {
    var s := Score(c, facts);
    && !Known(facts, f) && !Disqualified(c, facts) && (GateOpen(c, facts) ==> s == 0.0)
    && ThresholdInGap(c, s, s + Ceiling(c, f))
    && (GateOpen(c, facts) || !ThresholdInGap(c, s, s + AttainableCeiling(c, f)))
  }

  /** MATERIAL is the quantified statement "unknown, and some answer to it alone moves the class", exactly outside two
      families: a zero score behind an unresolved gate, and a threshold only the declared ceiling reaches. */
  lemma MaterialIffSomeAnswerMoves(c: ScoringConfig, facts: Facts, f: ScoredField)
    requires WellFormed(c) && c.reject < c.qualify && f in TARGETS
    ensures (MaterialityOf(ReceiptFor(c, facts), CeilingsOf(c), f) == Material
             <==> (!Known(facts, f) && SomeAnswerMoves(c, facts, f)))
            <==> !MaterialInNameOnly(c, facts, f)
  {
    KnownInReceipt(c, facts, f);
    if !Known(facts, f) {
      MaterialWhenUnknown(c, facts, f);
      MovesWhenUnknown(c, facts, f);
      GapsNest(c, facts, f);
    }
  }

  lemma MovesWhenUnknown(c: ScoringConfig, facts: Facts, f: ScoredField)
    requires WellFormed(c) && c.reject < c.qualify && f in TARGETS && !Known(facts, f)
    ensures SomeAnswerMoves(c, facts, f) <==>
            && !Disqualified(c, facts) && !GateOpen(c, facts)
            && ThresholdInGap(c, Score(c, facts), Score(c, facts) + AttainableCeiling(c, f))
  {
    if Disqualified(c, facts) || GateOpen(c, facts) {
      OpenGatePins(c, facts, f);
    } else {
      MovesIffCrosses(c, facts, f);
    }
  }

  lemma GapsNest(c: ScoringConfig, facts: Facts, f: ScoredField)
    requires WellFormed(c)
    ensures ThresholdInGap(c, Score(c, facts), Score(c, facts) + AttainableCeiling(c, f)) ==>
            ThresholdInGap(c, Score(c, facts), Score(c, facts) + Ceiling(c, f))
  {
    AttainableCeilingIsExact(c, f);
  }

  /** The verdict on an unknown candidate field, in terms of the facts behind the receipt. */
  lemma MaterialWhenUnknown(c: ScoringConfig, facts: Facts, f: ScoredField)
    requires WellFormed(c) && c.reject < c.qualify && f in TARGETS && !Known(facts, f)
    ensures MaterialityOf(ReceiptFor(c, facts), CeilingsOf(c), f) == Material <==>
            && !Disqualified(c, facts) && (GateOpen(c, facts) ==> Score(c, facts) == 0.0)
            && ThresholdInGap(c, Score(c, facts), Score(c, facts) + Ceiling(c, f))
  {
    KnownInReceipt(c, facts, f);
    BoundsOrder(c, facts);
    if !Disqualified(c, facts) && Crosses(ReceiptFor(c, facts), Ceiling(c, f)) {
      ClearGuardRedundant(c, facts, f);
    }
  }

  /** A lead where the analysis calls a field material although no answer to it can matter. */
  lemma MaterialBehindOpenGate(c: ScoringConfig)
    requires WellFormed(c) && 0.0 < c.reject < c.qualify && c.disqualifierEnabled && Ceiling(c, Industry) >= c.reject
    ensures MaterialityOf(ReceiptFor(c, map[]), CeilingsOf(c), Industry) == Material
    ensures !SomeAnswerMoves(c, map[], Industry)
  {
    OpenGatePins(c, map[], Industry);
    assert Score(c, map[]) == 0.0;
    ClearGuardRedundant(c, map[], Industry);
  }

  /** When one candidate field is all that is unknown, "not clear" and "that field is material" coincide. */
  lemma LastUnknownField(c: ScoringConfig, facts: Facts, f: ScoredField)
    requires WellFormed(c) && c.reject < c.qualify && f in TARGETS
    requires forall h: ScoredField :: Known(facts, h) <==> h != f
    ensures !DecisionClear(ReceiptFor(c, facts)) <==>
            MaterialityOf(ReceiptFor(c, facts), CeilingsOf(c), f) == Material
  {
    assert CeilingFor(CeilingsOf(c), f) == Ceiling(c, f);
    BoundsOrder(c, facts);
    assert !Disqualified(c, facts) ==> ComputeBounds(c, facts).upper == Score(c, facts) + Ceiling(c, f);
  }

  // ---------------------------------------------------------- target choice --

  function Position(f: ScoredField): nat {
    match f
    case EmployeeCount => 0 case Industry => 1 case TitleSeniority => 2 case TitleFunction => 3
    case BuyingIntent => 4 case RecentTriggerEvent => 5 case DisqualifyingFlag => 6
  }

  predicate RanksBefore(a: FieldMateriality, b: FieldMateriality) {
    a.ceiling > b.ceiling || (a.ceiling == b.ceiling && Position(a.field) <= Position(b.field))
  }

  function SelectTarget(a: Analysis): Option<ScoredField> {
    var ranked := StableSort(MaterialFields(a), RanksBefore);
    if ranked == [] then None else Some(ranked[0].field)
  }

  /** The chosen target is material, no material field has a larger ceiling, and ties go to the earliest field. */
  lemma SelectTargetIsBest(a: Analysis)
    ensures SelectTarget(a).None? <==> MaterialFields(a) == []
    ensures SelectTarget(a).Some? ==>
              exists f :: f in a.fields && f.materiality == Material && f.field == SelectTarget(a).value
                && forall g :: g in a.fields && g.materiality == Material ==> RanksBefore(f, g)
  {
    assert TotalPreorder(RanksBefore);
    var material := MaterialFields(a);
    var ranked := StableSort(material, RanksBefore);
    SortIsSorted(material, RanksBefore);
    MembersOf(ranked, material);
    FilterMembers(a.fields, (f: FieldMateriality) => f.materiality == Material);
    if ranked != [] {
      var f := ranked[0];
      assert f in ranked && f in a.fields && f.materiality == Material;
      forall g | g in a.fields && g.materiality == Material ensures RanksBefore(f, g) {
        assert g in ranked;
        var j :| 0 <= j < |ranked| && ranked[j] == g;
      }
    }
  }

  /** Read off the receipt: the chosen field is material, none that is material has a larger ceiling, and among
      equals it is the first declared. */
  lemma SelectedHasLargestCeiling(r: Receipt, ceilings: map<ScoredField, real>)
    ensures var t := SelectTarget(AnalysisOf(r, ceilings));
            && (t.None? <==> forall i :: 0 <= i < |TARGETS| ==> MaterialityOf(r, ceilings, TARGETS[i]) != Material)
            && (t.Some? ==>
                  exists i :: 0 <= i < |TARGETS| && TARGETS[i] == t.value && IsBestTarget(r, ceilings, i))
  {
    var a := AnalysisOf(r, ceilings);
    SelectTargetIsBest(a);
    if SelectTarget(a).Some? {
      var f :| f in a.fields && f.materiality == Material && f.field == SelectTarget(a).value
        && forall g :: g in a.fields && g.materiality == Material ==> RanksBefore(f, g);
      var i :| 0 <= i < |a.fields| && a.fields[i] == f;
      BestFieldIsBestTarget(r, ceilings, i);
    } else {
      forall i | 0 <= i < |TARGETS| ensures MaterialityOf(r, ceilings, TARGETS[i]) != Material {
        NoneSelectedNoneMaterial(r, ceilings, i);
      }
    }
  }

  lemma NoneSelectedNoneMaterial(r: Receipt, ceilings: map<ScoredField, real>, i: nat)
    requires i < |TARGETS| && MaterialFields(AnalysisOf(r, ceilings)) == []
    ensures MaterialityOf(r, ceilings, TARGETS[i]) != Material
  {
    var a := AnalysisOf(r, ceilings);
    FilterMembers(a.fields, (f: FieldMateriality) => f.materiality == Material);
    assert a.fields[i] in a.fields && a.fields[i] !in MaterialFields(a);
  }

  lemma BestFieldIsBestTarget(r: Receipt, ceilings: map<ScoredField, real>, i: nat)
    requires i < |TARGETS| && MaterialityOf(r, ceilings, TARGETS[i]) == Material
    requires var fields := AnalysisOf(r, ceilings).fields;
             forall g :: g in fields && g.materiality == Material ==> RanksBefore(fields[i], g)
    ensures IsBestTarget(r, ceilings, i)
  {
    var fields := AnalysisOf(r, ceilings).fields;
    forall j | 0 <= j < |TARGETS| && MaterialityOf(r, ceilings, TARGETS[j]) == Material
      ensures RanksBefore(fields[i], fields[j]) {
      assert fields[j] in fields;
    }
    DeclaredInOrder();
  }

  lemma DeclaredInOrder()
    ensures forall i :: 0 <= i < |TARGETS| ==> Position(TARGETS[i]) == i
  {
  }

  /** Candidate i is material, with the largest ceiling of all that are, the first of those that share it. */
  predicate IsBestTarget(r: Receipt, ceilings: map<ScoredField, real>, i: nat)
    requires i < |TARGETS|
  {
    && MaterialityOf(r, ceilings, TARGETS[i]) == Material
    && forall j :: 0 <= j < |TARGETS| && MaterialityOf(r, ceilings, TARGETS[j]) == Material ==>
         var mine, other := CeilingFor(ceilings, TARGETS[i]), CeilingFor(ceilings, TARGETS[j]);
         other < mine || (other == mine && i <= j)
  }

  /** The target a research plan names: the only material field, the planner's pick if it is one, else the best. */
  function PlanTarget(a: Analysis, llm: bool, proposal: Option<ScoredField>): Option<ScoredField> {
    var material := MaterialFields(a);
    if a.clear || material == [] then None
    else if |material| == 1 then Some(material[0].field)
    else if llm && proposal.Some? && FieldMateriality(proposal.value, Material, 0.0) in Bare(material) then proposal
    else SelectTarget(a)
  }

  function Bare(fields: seq<FieldMateriality>): seq<FieldMateriality> {
    seq(|fields|, i requires 0 <= i < |fields| => fields[i].(ceiling := 0.0))
  }

  /** Without a planner the plan names the best target; a planner's proposal is followed exactly when it is material. */
  lemma PlanNamesTheBestOrTheProposal(r: Receipt, ceilings: map<ScoredField, real>, llm: bool,
                                      proposal: Option<ScoredField>)
    ensures var a := AnalysisOf(r, ceilings);
            PlanTarget(a, llm, proposal) ==
            if llm && proposal.Some? && proposal.value in TARGETS
               && MaterialityOf(r, ceilings, proposal.value) == Material
            then proposal else SelectTarget(a)
  {
    var a := AnalysisOf(r, ceilings);
    var material := MaterialFields(a);
    FilterMembers(a.fields, (f: FieldMateriality) => f.materiality == Material);
    ProposalIsMaterial(r, ceilings, proposal);
    if material == [] {
      NoMaterialNoTarget(a);
      assert Bare(material) == [];
    } else {
      assert material[0] in material && !a.clear;
      if |material| == 1 { OneMaterialIsTheTarget(a); }
    }
  }

  lemma NoMaterialNoTarget(a: Analysis)
    requires MaterialFields(a) == []
    ensures SelectTarget(a).None?
  {
  }

  lemma OneMaterialIsTheTarget(a: Analysis)
    requires |MaterialFields(a)| == 1
    ensures SelectTarget(a) == Some(MaterialFields(a)[0].field)
  {
    var material := MaterialFields(a);
    assert material[1..] == [];
    assert StableSort(material, RanksBefore) == [material[0]];
  }

  lemma ProposalIsMaterial(r: Receipt, ceilings: map<ScoredField, real>, proposal: Option<ScoredField>)
    ensures var material := MaterialFields(AnalysisOf(r, ceilings));
            proposal.Some? ==>
              (FieldMateriality(proposal.value, Material, 0.0) in Bare(material) <==>
               proposal.value in TARGETS && MaterialityOf(r, ceilings, proposal.value) == Material)
              && (|material| == 1 && FieldMateriality(proposal.value, Material, 0.0) in Bare(material) ==>
                    material[0].field == proposal.value)
  {
    var fields := AnalysisOf(r, ceilings).fields;
    var material := MaterialFields(AnalysisOf(r, ceilings));
    FilterMembers(fields, (f: FieldMateriality) => f.materiality == Material);
    if proposal.Some? {
      var bare := FieldMateriality(proposal.value, Material, 0.0);
      if bare in Bare(material) {
        var i :| 0 <= i < |material| && Bare(material)[i] == bare;
        assert material[i] in material;
        var j :| 0 <= j < |fields| && fields[j] == material[i];
        assert TARGETS[j] == proposal.value;
      }
      if proposal.value in TARGETS && MaterialityOf(r, ceilings, proposal.value) == Material {
        MaterialIsListed(r, ceilings, proposal.value);
      }
    }
  }

  lemma MaterialIsListed(r: Receipt, ceilings: map<ScoredField, real>, f: ScoredField)
    requires f in TARGETS && MaterialityOf(r, ceilings, f) == Material
    ensures FieldMateriality(f, Material, 0.0) in Bare(MaterialFields(AnalysisOf(r, ceilings)))
  {
    var fields := AnalysisOf(r, ceilings).fields;
    var material := MaterialFields(AnalysisOf(r, ceilings));
    FilterMembers(fields, (x: FieldMateriality) => x.materiality == Material);
    var j :| 0 <= j < |TARGETS| && TARGETS[j] == f;
    assert fields[j] in fields && fields[j] in material;
    var i :| 0 <= i < |material| && material[i] == fields[j];
    assert Bare(material)[i] == FieldMateriality(f, Material, 0.0);
  }

  /** A pool row of the list view: the receipt's numbers, any of which may be missing. */
  datatype PoolRow = PoolRow(score: Option<real>, lower: Option<real>, upper: Option<real>, known: set<ScoredField>)

  predicate IsResearchable(row: PoolRow, qualify: real, reject: real, ceilings: map<ScoredField, real>) {
    row.score.Some? && row.lower.Some? && row.upper.Some? &&
    var a := AnalysisOf(
      Receipt(row.score.value, qualify, reject, row.lower.value, row.upper.value, row.known), ceilings);
    !a.clear && MaterialFields(a) != []
  }

  /** For a lead decided under the active profile, the needs-research filter and the planner agree on
      whether there is a target, whatever the planner model proposes, and the target is material. */
  lemma FilterAndPlanAgree(r: Receipt, ceilings: map<ScoredField, real>, llm: bool, proposal: Option<ScoredField>)
    ensures var a := AnalysisOf(r, ceilings);
            var row := PoolRow(Some(r.score), Some(r.lower), Some(r.upper), r.known - {DisqualifyingFlag});
            && (IsResearchable(row, r.qualify, r.reject, ceilings) <==> PlanTarget(a, llm, proposal).Some?)
            && (PlanTarget(a, llm, proposal).Some? ==>
                  PlanTarget(a, llm, proposal).value in TARGETS
                  && MaterialityOf(r, ceilings, PlanTarget(a, llm, proposal).value) == Material)
  {
    var a := AnalysisOf(r, ceilings);
    var r' := r.(known := r.known - {DisqualifyingFlag});
    assert AnalysisOf(r', ceilings).fields == a.fields;
    SelectTargetIsBest(a);
    TargetIsMaterial(a, llm, proposal);
  }

  lemma TargetIsMaterial(a: Analysis, llm: bool, proposal: Option<ScoredField>)
    ensures var t := PlanTarget(a, llm, proposal);
            t.Some? ==> exists f :: f in a.fields && f.materiality == Material && f.field == t.value
  {
    FilterMembers(a.fields, (f: FieldMateriality) => f.materiality == Material);
    SelectTargetIsBest(a);
    var material := MaterialFields(a);
    var t := PlanTarget(a, llm, proposal);
    if t.Some? {
      if |material| == 1 {
        assert material[0] in material;
      } else if t != SelectTarget(a) {
        var i :| 0 <= i < |material| && Bare(material)[i] == FieldMateriality(t.value, Material, 0.0);
        assert material[i] in material;
      }
    }
  }

  /** The class is still open, and the ceiling of an unknown candidate field reaches a threshold above the score. */
  predicate InReach(r: Receipt, ceilings: map<ScoredField, real>) {
    !DecisionClear(r)
    && exists i :: 0 <= i < |TARGETS| && TARGETS[i] !in r.known && Crosses(r, CeilingFor(ceilings, TARGETS[i]))
  }

  lemma MaterialFieldsIff(r: Receipt, ceilings: map<ScoredField, real>)
    ensures !DecisionClear(r) && MaterialFields(AnalysisOf(r, ceilings)) != [] <==>
            r.lower >= r.score && InReach(r, ceilings)
  {
    var fields := AnalysisOf(r, ceilings).fields;
    var material := MaterialFields(AnalysisOf(r, ceilings));
    FilterMembers(fields, (f: FieldMateriality) => f.materiality == Material);
    if material != [] {
      assert material[0] in material;
      var i :| 0 <= i < |fields| && fields[i] == material[0];
      assert TARGETS[i] == fields[i].field;
    }
    if r.lower >= r.score && InReach(r, ceilings) {
      var i :| 0 <= i < |TARGETS| && TARGETS[i] !in r.known && Crosses(r, CeilingFor(ceilings, TARGETS[i]));
      assert fields[i] in fields && fields[i].materiality == Material;
    }
  }

  /** The filter reads the active thresholds, the planner those of the receipt. They differ exactly on leads whose lower
      bound is not below their score and for which just one of the two pairs has a threshold in reach. */
  lemma FilterAndPlanDifferIff(r: Receipt, qualify: real, reject: real, ceilings: map<ScoredField, real>, llm: bool,
                               proposal: Option<ScoredField>)
    ensures var row := PoolRow(Some(r.score), Some(r.lower), Some(r.upper), r.known - {DisqualifyingFlag});
            (IsResearchable(row, qualify, reject, ceilings) != PlanTarget(AnalysisOf(r, ceilings), llm, proposal).Some?)
            <==> r.lower >= r.score
                 && InReach(r.(qualify := qualify, reject := reject), ceilings) != InReach(r, ceilings)
  {
    var active := r.(qualify := qualify, reject := reject);
    FilterAndPlanAgree(active, ceilings, llm, proposal);
    FilterAndPlanAgree(r, ceilings, llm, proposal);
    MaterialFieldsIff(active, ceilings);
    MaterialFieldsIff(r, ceilings);
  }

  /** A profile that lowers its threshold from 70 to 60 puts an older lead at 50 on the filter's list, and the
      planner still finds nothing to research. */
  lemma FilterAndPlanCanDiffer(llm: bool, proposal: Option<ScoredField>)
    ensures var r := Receipt(50.0, 70.0, 30.0, 50.0, 90.0, {});
            var row := PoolRow(Some(50.0), Some(50.0), Some(90.0), {});
            var ceilings := map[EmployeeCount := 10.0, Industry := 10.0, TitleSeniority := 10.0, TitleFunction := 10.0];
            && IsResearchable(row, 60.0, 30.0, ceilings) && PlanTarget(AnalysisOf(r, ceilings), llm, proposal).None?
  {
    var r := Receipt(50.0, 70.0, 30.0, 50.0, 90.0, {});
    var ceilings := map[EmployeeCount := 10.0, Industry := 10.0, TitleSeniority := 10.0, TitleFunction := 10.0];
    assert r.known - {DisqualifyingFlag} == {};
    assert Crosses(r.(qualify := 60.0), CeilingFor(ceilings, TARGETS[0]));
    MaterialFieldsIff(r, ceilings);
    MaterialFieldsIff(r.(qualify := 60.0), ceilings);
  }

  // ----------------------------------------------------------- authorization --

  /** The data sources a plan may call. */
  datatype Provider =
    | InboundPayload | InternalCrm | DnsWeb | FirmographicsBasic | FirmographicsPremium | DeepResearch
    | ContactEnrich | AbstractCompany | HunterCombined | ApolloPerson

  datatype Unavailability = NotConfigured | OtherReason

  datatype AuthContext = AuthContext(
    materiality: Materiality,
    clear: bool,
    candidates: seq<Provider>,
    unavailable: map<Provider, Unavailability>,
    suppressed: set<Provider>,
    simulated: bool,
    entitledLive: bool,
    cost: real,
    spent: real,
    cap: real,
    orgRemaining: real)

  datatype ReasonCode =
    | DecisionAlreadyClear | FieldAlreadyKnown | MissingFieldCannotChangeDecision | NoSupportedSource
    | SuppressedRecentFailure | ProviderNotConfigured | ProviderUnavailable | EntitlementBlocked
    | OverBudget | ExecutionModeBlocked | ResearchApproved

  datatype ResearchDecision =
    | Refused(reason: ReasonCode)
    | Approved(provider: Provider, cost: real)

  predicate Usable(ctx: AuthContext, p: Provider) {
    p !in ctx.unavailable && p !in ctx.suppressed
  }

  function AuthorizeResearch(ctx: AuthContext): ResearchDecision {
    if ctx.clear then Refused(DecisionAlreadyClear)
    else if ctx.materiality == AlreadyResolved then Refused(FieldAlreadyKnown)
    else if ctx.materiality != Material then Refused(MissingFieldCannotChangeDecision)
    else if ctx.candidates == [] then Refused(NoSupportedSource)
    else
      var available := Filter(ctx.candidates, p => Usable(ctx, p));
      if available == [] then
        if forall p :: p in ctx.candidates ==> p in ctx.suppressed then Refused(SuppressedRecentFailure)
        else if forall p :: p in ctx.candidates ==> p in ctx.unavailable && ctx.unavailable[p] == NotConfigured
        then Refused(ProviderNotConfigured)
        else Refused(ProviderUnavailable)
      else if !ctx.simulated && !ctx.entitledLive then Refused(EntitlementBlocked)
      else if ctx.spent + ctx.cost > ctx.cap then Refused(OverBudget)
      else if ctx.orgRemaining < ctx.cost then Refused(OverBudget)
      else if !ctx.simulated then Refused(ExecutionModeBlocked)
      else Approved(available[0], ctx.cost)
  }

  /** Approval means every gate is open at once, and nothing else does; the provider is the first usable one. */
  lemma ApprovedIffEveryGateOpen(ctx: AuthContext)
    ensures AuthorizeResearch(ctx).Approved? <==>
            && !ctx.clear && ctx.materiality == Material && ctx.simulated
            && (exists p :: p in ctx.candidates && Usable(ctx, p))
            && ctx.spent + ctx.cost <= ctx.cap && ctx.cost <= ctx.orgRemaining
    ensures AuthorizeResearch(ctx).Approved? ==>
              && AuthorizeResearch(ctx).cost == ctx.cost
              && exists i :: 0 <= i < |ctx.candidates| && ctx.candidates[i] == AuthorizeResearch(ctx).provider
                  && Usable(ctx, ctx.candidates[i])
                  && forall j :: 0 <= j < i ==> !Usable(ctx, ctx.candidates[j])
  {
    var usable := p => Usable(ctx, p);
    FilterMembers(ctx.candidates, usable);
    var available := Filter(ctx.candidates, usable);
    if available != [] {
      assert available[0] in available;
      FirstKept(ctx.candidates, usable);
    }
    if p :| p in ctx.candidates && Usable(ctx, p) {
      assert p in available;
    }
  }

  /** A refusal names a gate that is really closed, and everything that is checked before it is open: the most
      specific true blocker. */
  lemma RefusalNamesAClosedGate(ctx: AuthContext)
    requires AuthorizeResearch(ctx).Refused?
    ensures var why := AuthorizeResearch(ctx).reason;
            var asks := !ctx.clear && ctx.materiality == Material;
            var usable := exists p :: p in ctx.candidates && Usable(ctx, p);
            var paused := forall p :: p in ctx.candidates ==> p in ctx.suppressed;
            var missing := forall p :: p in ctx.candidates ==>
                             p in ctx.unavailable && ctx.unavailable[p] == NotConfigured;
            var entitled := ctx.simulated || ctx.entitledLive;
            var fits := ctx.spent + ctx.cost <= ctx.cap && ctx.cost <= ctx.orgRemaining;
            && (why == DecisionAlreadyClear <==> ctx.clear)
            && (why == FieldAlreadyKnown <==> !ctx.clear && ctx.materiality == AlreadyResolved)
            && (why == MissingFieldCannotChangeDecision <==> !ctx.clear && ctx.materiality == NonMaterial)
            && (why == NoSupportedSource <==> asks && ctx.candidates == [])
            && (why == SuppressedRecentFailure <==> asks && ctx.candidates != [] && !usable && paused)
            && (why == ProviderNotConfigured <==> asks && ctx.candidates != [] && !usable && !paused && missing)
            && (why == ProviderUnavailable <==> asks && ctx.candidates != [] && !usable && !paused && !missing)
            && (why == EntitlementBlocked <==> asks && usable && !entitled)
            && (why == OverBudget <==> asks && usable && entitled && !fits)
            && (why == ExecutionModeBlocked <==> asks && usable && entitled && fits && !ctx.simulated)
            && why != ResearchApproved
  {
    var usable := p => Usable(ctx, p);
    FilterMembers(ctx.candidates, usable);
    var available := Filter(ctx.candidates, usable);
    if available != [] { assert available[0] in available; }
    if p :| p in ctx.candidates && Usable(ctx, p) { assert p in available; }
  }

  lemma {:induction false} FirstKept<T>(s: seq<T>, keep: T -> bool)
    requires Filter(s, keep) != []
    ensures exists i :: 0 <= i < |s| && s[i] == Filter(s, keep)[0] && keep(s[i])
              && forall j :: 0 <= j < i ==> !keep(s[j])
  {
    if !keep(s[0]) {
      FirstKept(s[1..], keep);
      var i :| 0 <= i < |s[1..]| && s[1..][i] == Filter(s[1..], keep)[0] && keep(s[1..][i])
        && forall j :: 0 <= j < i ==> !keep(s[1..][j]);
      forall j | 0 <= j < i + 1 ensures !keep(s[j]) {
        if j > 0 { assert s[j] == s[1..][j - 1]; }
      }
      assert s[i + 1] == Filter(s, keep)[0];
    } else {
      assert s[0] == Filter(s, keep)[0];
    }
  }
}
