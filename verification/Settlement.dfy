/**
 What the threshold comparisons over the reachable bounds mean for every way
 the unknown facts could turn out, and what learning facts does to them.
 Models src/arie/scoring/rules.py (settled_decision), src/arie/scoring/engine.py
 (compute_bounds) and the clear-decision test of src/arie/research.py.
 */
module Settlement {
  import opened Scoring

  /** Settled is exactly "both ends of the interval fall in one decision class". */
  lemma SettledIffOneClass(lower: real, upper: real, qualify: real, reject: real)
    requires reject < qualify && lower <= upper
    ensures SettledDecision(lower, upper, qualify, reject) ==
            if Decide(lower, qualify, reject) == Decide(upper, qualify, reject)
            then Some(Decide(lower, qualify, reject)) else None
    ensures forall x :: lower <= x <= upper && SettledDecision(lower, upper, qualify, reject).Some? ==>
              Some(Decide(x, qualify, reject)) == SettledDecision(lower, upper, qualify, reject)
  {
  }

  lemma CompletedPoints(c: ScoringConfig, facts: Facts, g: Facts, f: ScoredField)
    requires WellFormed(c) && Completion(facts, g)
    ensures PointsOf(c, facts, f) <= PointsOf(c, g, f) <= PointsOf(c, facts, f) + Reach(c, facts, f)
    ensures PointsOf(c, g, f) >= 0.0
  {
    PointsInRange(c, f, Get(g, f));
    assert Known(g, f);
    NoAnswerBeatsAttainable(c, f, Get(g, f));
  }

  lemma OpenOrder(c: ScoringConfig, facts: Facts, f: ScoredField)
    requires WellFormed(c)
    ensures 0.0 <= Reach(c, facts, f) <= Open(c, facts, f)
  {
    AttainableCeilingIsExact(c, f);
  }

  lemma BoundsOrder(c: ScoringConfig, facts: Facts)
    requires WellFormed(c)
    ensures 0.0 <= ComputeBounds(c, facts).lower <= TrueUpper(c, facts) <= ComputeBounds(c, facts).upper
    ensures ComputeBounds(c, facts).lower <= ComputeBounds(c, facts).current == Score(c, facts)
  {
    forall f: ScoredField
      ensures 0.0 <= Reach(c, facts, f) <= Open(c, facts, f)
      ensures PointsOf(c, facts, f) >= 0.0
    {
      OpenOrder(c, facts, f);
      PointsInRange(c, f, Get(facts, f));
    }
  }

  /** Every completion scores between the lower bound and the true upper bound. */
  lemma CompletionWithinBounds(c: ScoringConfig, facts: Facts, g: Facts)
    requires WellFormed(c) && Completion(facts, g)
    ensures ComputeBounds(c, facts).lower <= Score(c, g) <= TrueUpper(c, facts) <= ComputeBounds(c, facts).upper
  {
    BoundsOrder(c, facts);
    assert Known(facts, DisqualifyingFlag) ==> Get(g, DisqualifyingFlag) == Get(facts, DisqualifyingFlag);
    forall f: ScoredField
      ensures PointsOf(c, facts, f) <= PointsOf(c, g, f) <= PointsOf(c, facts, f) + Reach(c, facts, f)
      ensures PointsOf(c, g, f) >= 0.0
    {
      CompletedPoints(c, facts, g, f);
    }
  }

  /** Soundness, for every configuration: a settled decision is what every completion decides. */
  lemma SettledIsSound(c: ScoringConfig, facts: Facts)
    requires WellFormed(c) && c.reject <= c.qualify
    requires Settled(c, facts).Some?
    ensures EveryCompletionDecides(c, facts, Settled(c, facts).value)
    ensures EveryCompletionAgrees(c, facts)
  {
    forall g | Completion(facts, g) ensures Decide(Score(c, g), c.qualify, c.reject) == Settled(c, facts).value {
      CompletionWithinBounds(c, facts, g);
    }
  }

  ghost function Settled(c: ScoringConfig, facts: Facts): Option<Decision> {
    var b := ComputeBounds(c, facts);
    SettledDecision(b.lower, b.upper, c.qualify, c.reject)
  }

  /** All completions agree exactly when the lowest and the highest reachable scores decide alike. */
  lemma CompletionsAgreeIff(c: ScoringConfig, facts: Facts)
    requires WellFormed(c) && c.reject < c.qualify
    ensures EveryCompletionAgrees(c, facts) <==>
            Decide(ComputeBounds(c, facts).lower, c.qualify, c.reject) ==
            Decide(TrueUpper(c, facts), c.qualify, c.reject)
  {
    LowerBoundReached(c, facts);
    TrueUpperReached(c, facts);
    forall g | Completion(facts, g)
      ensures ComputeBounds(c, facts).lower <= Score(c, g) <= TrueUpper(c, facts)
    {
      CompletionWithinBounds(c, facts, g);
    }
  }

  /** The test misses a settled lead exactly when the declared ceilings reach another class and the attainable ones
      do not. All three scores are read off the configuration and the known facts. */
  lemma SettledIsExactIff(c: ScoringConfig, facts: Facts)
    requires WellFormed(c) && c.reject < c.qualify
    ensures var b, top := ComputeBounds(c, facts), TrueUpper(c, facts);
            (Settled(c, facts).Some? <==> EveryCompletionAgrees(c, facts)) <==>
            !(Decide(b.lower, c.qualify, c.reject) == Decide(top, c.qualify, c.reject)
              && Decide(b.upper, c.qualify, c.reject) != Decide(top, c.qualify, c.reject))
  {
    BoundsOrder(c, facts);
    CompletionsAgreeIff(c, facts);
    var b := ComputeBounds(c, facts);
    SettledIffOneClass(b.lower, b.upper, c.qualify, c.reject);
  }

  predicate ThresholdInGap(c: ScoringConfig, reached: real, claimed: real) {
    reached < c.qualify <= claimed || reached < c.reject <= claimed
  }

  /** With every open ceiling within reach the test is exact. */
  lemma SettledIsExact(c: ScoringConfig, facts: Facts)
    requires WellFormed(c) && c.reject < c.qualify
    requires UnknownCeilingsReached(c, facts)
    ensures Settled(c, facts).Some? <==> EveryCompletionAgrees(c, facts)
    ensures TrueUpper(c, facts) == ComputeBounds(c, facts).upper
  {
    forall f: ScoredField
      ensures Reach(c, facts, f) == Open(c, facts, f)
    {
      OpenOrder(c, facts, f);
      if !Known(facts, f) {
        assert CeilingReached(c, f);
        AttainableCeilingIsExact(c, f);
      }
    }
    SettledIsExactIff(c, facts);
  }

  // ------------------------------------------------------ ceilings in reach --

  /** Bands that are non-empty and do not overlap. */
  ghost predicate DisjointBands(bands: seq<Band>) {
    && (forall i :: 0 <= i < |bands| ==> bands[i].lo <= bands[i].hi)
    && (forall i, j :: 0 <= i < j < |bands| ==> bands[i].hi < bands[j].lo || bands[j].hi < bands[i].lo)
  }

  lemma {:induction false} BandReached(bands: seq<Band>, k: nat)
    requires DisjointBands(bands) && k < |bands|
    ensures SizePoints(bands, Some(bands[k].lo as real)) == bands[k].points
  {
    if k > 0 {
      assert !InBand(bands[0], bands[k].lo as real);
      BandReached(bands[1..], k - 1);
    }
  }

  lemma {:induction false} TopBand(bands: seq<Band>) returns (k: nat)
    requires bands != []
    ensures k < |bands| && bands[k].points == MaxBandPoints(bands)
  {
    k := 0;
    if |bands| > 1 && bands[0].points < MaxBandPoints(bands[1..]) {
      k := TopBand(bands[1..]);
      k := k + 1;
    }
  }

  /** Only a category literally named "unknown" can hide a point map's maximum. */
  ghost predicate TopCategoryUsable(points: map<string, real>) {
    points == map[] || exists k :: k in points && k != UNKNOWN && points[k] == MaxCategoryPoints(points)
  }

  /** Checks on the configuration alone that put every ceiling within reach. */
  lemma CheckedCeilingsReached(c: ScoringConfig, f: ScoredField)
    requires WellFormed(c)
    requires DisjointBands(c.sizeBands)
    requires TopCategoryUsable(c.industryPoints) && TopCategoryUsable(c.seniorityPoints)
    requires TopCategoryUsable(c.functionPoints)
    ensures CeilingReached(c, f)
  {
    var v := NOTHING;
    match f {
    case EmployeeCount =>
      if c.sizeBands != [] {
        var k := TopBand(c.sizeBands);
        BandReached(c.sizeBands, k);
        v := NOTHING.(number := Some(c.sizeBands[k].lo as real));
      }
    case Industry => v := CategoryAnswer(c.industryPoints);
    case TitleSeniority => v := CategoryAnswer(c.seniorityPoints);
    case TitleFunction => v := CategoryAnswer(c.functionPoints);
    case BuyingIntent => v := NOTHING.(number := Some(1.0));
    case RecentTriggerEvent => v := NOTHING.(truthy := true);
    case DisqualifyingFlag =>
    }
    assert !IsUnknown(v) && FieldPoints(c, f, v) == Ceiling(c, f);
  }

  lemma CategoryAnswer(points: map<string, real>) returns (v: Value)
    requires NonNegative(points) && TopCategoryUsable(points)
    ensures !IsUnknown(v) && CategoryPoints(points, v.shown) == MaxCategoryPoints(points)
  {
    v := NOTHING;
    if points != map[] {
      var k :| k in points && k != UNKNOWN && points[k] == MaxCategoryPoints(points);
      v := NOTHING.(shown := k);
    }
  }

  // --------------------------------------------------------- learning facts --

  ghost predicate Learnable(facts: Facts, f: ScoredField, v: Value) {
    !Known(facts, f) && !IsUnknown(v)
  }

  function UnknownCount(facts: Facts): nat {
    Unanswered(facts, EmployeeCount) + Unanswered(facts, Industry) + Unanswered(facts, TitleSeniority)
    + Unanswered(facts, TitleFunction) + Unanswered(facts, BuyingIntent) + Unanswered(facts, RecentTriggerEvent)
    + Unanswered(facts, DisqualifyingFlag)
  }

  function Unanswered(facts: Facts, f: ScoredField): nat {
    if Known(facts, f) then 0 else 1
  }

  lemma LearningUsesUpOne(facts: Facts, f: ScoredField, v: Value)
    requires Learnable(facts, f, v)
    ensures UnknownCount(facts[f := v]) == UnknownCount(facts) - 1
  {
    forall h: ScoredField ensures Unanswered(facts[f := v], h) == if h == f then 0 else Unanswered(facts, h) {
    }
  }

  /** `g` still says everything `facts` says, and may say more. */
  ghost predicate Keeps(facts: Facts, g: Facts) {
    forall f: ScoredField :: Known(facts, f) ==> Get(g, f) == Get(facts, f)
  }

  /** Whenever nothing known is lost, the interval nests: the lower bound never falls, the upper never rises. */
  lemma KeptFactsNestBounds(c: ScoringConfig, facts: Facts, g: Facts)
    requires WellFormed(c) && Keeps(facts, g)
    ensures var before, after := ComputeBounds(c, facts), ComputeBounds(c, g);
            before.lower <= after.lower <= after.upper <= before.upper
  {
    BoundsOrder(c, facts);
    BoundsOrder(c, g);
    assert Known(facts, DisqualifyingFlag) ==> Get(g, DisqualifyingFlag) == Get(facts, DisqualifyingFlag);
    if !Disqualified(c, facts) && !Disqualified(c, g) {
      forall h: ScoredField
        ensures PointsOf(c, facts, h) <= PointsOf(c, g, h)
        ensures PointsOf(c, g, h) + Open(c, g, h) <= PointsOf(c, facts, h) + Open(c, facts, h)
      {
        PointsInRange(c, h, Get(g, h));
        PointsInRange(c, h, Get(facts, h));
        assert Known(facts, h) ==> Get(g, h) == Get(facts, h);
      }
      ScoreRises(c, facts, g);
    }
  }

  lemma ScoreRises(c: ScoringConfig, facts: Facts, next: Facts)
    requires !Disqualified(c, facts) && !Disqualified(c, next)
    requires forall h: ScoredField :: PointsOf(c, facts, h) <= PointsOf(c, next, h)
    requires forall h: ScoredField ::
               PointsOf(c, next, h) + Open(c, next, h) <= PointsOf(c, facts, h) + Open(c, facts, h)
    ensures Score(c, facts) <= Score(c, next)
    ensures ComputeBounds(c, next).upper <= ComputeBounds(c, facts).upper
  {
  }

  /** Learning one fact nests the interval. */
  lemma LearningNestsBounds(c: ScoringConfig, facts: Facts, f: ScoredField, v: Value)
    requires WellFormed(c) && Learnable(facts, f, v)
    ensures var before, after := ComputeBounds(c, facts), ComputeBounds(c, facts[f := v]);
            before.lower <= after.lower <= after.upper <= before.upper
  {
    assert Keeps(facts, facts[f := v]);
    KeptFactsNestBounds(c, facts, facts[f := v]);
  }

  datatype Learned = Learned(field: ScoredField, value: Value)

  function LearnAll(facts: Facts, steps: seq<Learned>): Facts
    decreases |steps|
  {
    if steps == [] then facts else LearnAll(facts[steps[0].field := steps[0].value], steps[1..])
  }

  ghost predicate AllLearnable(facts: Facts, steps: seq<Learned>)
    decreases |steps|
  {
    steps == [] ||
    (Learnable(facts, steps[0].field, steps[0].value)
     && AllLearnable(facts[steps[0].field := steps[0].value], steps[1..]))
  }

  /** Along any acquisition sequence the interval only shrinks, a settled decision stays settled on the
      same class, a sure outcome is final, and at most as many facts can be learned as are unknown. */
  lemma {:induction false} AcquisitionIsMonotone(c: ScoringConfig, facts: Facts, steps: seq<Learned>)
    requires WellFormed(c) && c.reject < c.qualify && AllLearnable(facts, steps)
    ensures var before, after := ComputeBounds(c, facts), ComputeBounds(c, LearnAll(facts, steps));
            && before.lower <= after.lower <= after.upper <= before.upper
            && (before.lower >= c.qualify ==> after.lower >= c.qualify)
            && (before.upper < c.reject ==> after.upper < c.reject)
    ensures Settled(c, facts).Some? ==> Settled(c, LearnAll(facts, steps)) == Settled(c, facts)
    ensures UnknownCount(LearnAll(facts, steps)) + |steps| == UnknownCount(facts)
    decreases |steps|
  {
    if steps == [] {
      BoundsOrder(c, facts);
    } else {
      LearningNestsBounds(c, facts, steps[0].field, steps[0].value);
      LearningUsesUpOne(facts, steps[0].field, steps[0].value);
      AcquisitionIsMonotone(c, facts[steps[0].field := steps[0].value], steps[1..]);
    }
  }
}
