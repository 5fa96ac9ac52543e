/**
 Validation of a submitted scoring profile and its materialization into the
 configuration the scorer reads. Models validate_config and
 materialize_scoring_config of src/arie/icp_profiles.py.
 */
module IcpConfig {
  import opened Scoring
  import opened Settlement

  /** A scalar of the submitted JSON document; a missing key reads as Null, as dict.get does. */
  datatype Json = Null | Bool(b: bool) | Num(n: real) | Str(s: string) | Compound

  /** An entry of employee_count_bands: an object read at three keys, or something else. */
  datatype BandEntry = NotAnEntry | Entry(lo: Json, hi: Json, points: Json)

  /** A category point map: an object, or something else. */
  datatype Mapping = NotAMapping | Mapping(fields: map<string, Json>)

  /** The submitted document, one field per key the code reads. */
  datatype Config = Config(
    qualify: Json,
    reject: Json,
    bands: Option<seq<BandEntry>>,          // None: absent or not a list
    points: PointMap -> Mapping,
    weight: Weight -> Json,
    geographies: Option<Option<seq<Json>>>, // None: absent; Some(None): not a list
    disqualifier: Option<Json>)

  const WEIGHT_SUM_TARGET := 100.0
  const WEIGHT_SUM_TOLERANCE := 0.000001

  datatype PointMap = IndustryMap | SeniorityMap | FunctionMap
  datatype Weight = IntentWeight | TriggerWeight

  /** Every message validation can produce. */
  datatype Violation =
    | QualifyOutOfRange | RejectOutOfRange | RejectNotBelowQualify
    | BandsMissing | BandShape(i: nat) | BandRange(i: nat) | BandPoints(i: nat)
    | MapShape(m: PointMap) | EmptyCategory(m: PointMap) | CategoryValue(m: PointMap, key: string)
    | WeightValue(w: Weight) | CeilingSum | Geographies | DisqualifierFlag

  predicate InScale(j: Json) {
    j.Num? && 0.0 <= j.n <= 100.0
  }

  predicate NumericBand(e: BandEntry) {
    e.Entry? && e.lo.Num? && e.hi.Num? && e.points.Num?
  }

  predicate BandFault(e: BandEntry, v: Violation) {
    (v.BandShape? && !NumericBand(e))
    || (v.BandRange? && NumericBand(e) && (e.lo.n < 0.0 || e.hi.n < e.lo.n))
    || (v.BandPoints? && NumericBand(e) && e.points.n < 0.0)
  }

  predicate IsBandViolation(v: Violation) {
    v.BandShape? || v.BandRange? || v.BandPoints?
  }

  predicate NonNegativeNumber(j: Json) {
    j.Num? && j.n >= 0.0
  }

  function Bands(c: Config): seq<BandEntry> {
    if c.bands.Some? then c.bands.value else []
  }

  function Points(m: Mapping): map<string, real> {
    if m.NotAMapping? then map[]
    else map k | k in m.fields && k != "" && NonNegativeNumber(m.fields[k]) :: m.fields[k].n
  }

  function NumberOf(j: Json): real {
    if j.Num? then j.n else 0.0
  }

  function RawBandMax(bands: seq<BandEntry>): real {
    if bands == [] then 0.0
    else if |bands| == 1 then RawPoints(bands[0])
    else MaxReal(RawPoints(bands[0]), RawBandMax(bands[1..]))
  }

  function RawPoints(e: BandEntry): real {
    if e.Entry? then NumberOf(e.points) else 0.0
  }

  /** The six declared or derived field ceilings added up. */
  ghost function CeilingTotal(c: Config): real {
    RawBandMax(Bands(c))
    + MaxCategoryPoints(Points(c.points(IndustryMap)))
    + MaxCategoryPoints(Points(c.points(SeniorityMap)))
    + MaxCategoryPoints(Points(c.points(FunctionMap)))
    + NumberOf(c.weight(IntentWeight)) + NumberOf(c.weight(TriggerWeight))
  }

  predicate SumsTo100(total: real) {
    -WEIGHT_SUM_TOLERANCE <= total - WEIGHT_SUM_TARGET <= WEIGHT_SUM_TOLERANCE
  }

  /** Violations found before the ceiling sum is looked at. */
  ghost predicate Structural(c: Config, v: Violation) {
    match v
    case QualifyOutOfRange => !InScale(c.qualify)
    case RejectOutOfRange => !InScale(c.reject)
    case RejectNotBelowQualify =>
      InScale(c.qualify) && InScale(c.reject)
      && c.reject.n >= c.qualify.n
    case BandsMissing => Bands(c) == []
    case BandShape(i) => i < |Bands(c)| && BandFault(Bands(c)[i], v)
    case BandRange(i) => i < |Bands(c)| && BandFault(Bands(c)[i], v)
    case BandPoints(i) => i < |Bands(c)| && BandFault(Bands(c)[i], v)
    case MapShape(m) => !c.points(m).Mapping?
    case EmptyCategory(m) => c.points(m).Mapping? && "" in c.points(m).fields
    case CategoryValue(m, k) =>
      c.points(m).Mapping? && k != "" && k in c.points(m).fields && !NonNegativeNumber(c.points(m).fields[k])
    case WeightValue(w) => !NonNegativeNumber(c.weight(w))
    case CeilingSum => false
    case Geographies => false
    case DisqualifierFlag => false
  }

  ghost predicate StructurallySound(c: Config) {
    forall v: Violation :: !Structural(c, v)
  }

  /** What it means for a configuration to deserve a message. */
  ghost predicate Violates(c: Config, v: Violation) {
    || Structural(c, v)
    || (v.CeilingSum? && StructurallySound(c) && !SumsTo100(CeilingTotal(c)))
    || (v.Geographies? && c.geographies.Some? && !StringList(c.geographies.value))
    || (v.DisqualifierFlag? && c.disqualifier.Some? && !c.disqualifier.value.Bool?)
  }

  predicate StringList(items: Option<seq<Json>>) {
    items.Some? && forall i :: 0 <= i < |items.value| ==> items.value[i].Str?
  }

  ghost predicate ValidConfig(c: Config) {
    forall v: Violation :: !Violates(c, v)
  }

  // -------------------------------------------------------------- validation --

  method CheckThresholds(c: Config) returns (errors: seq<Violation>)
    ensures forall v :: v in errors <==>
              (v.QualifyOutOfRange? || v.RejectOutOfRange? || v.RejectNotBelowQualify?) && Structural(c, v)
  {
    errors := [];
    var qualify, reject := c.qualify, c.reject;
    if !InScale(qualify) { errors := errors + [QualifyOutOfRange]; }
    if !InScale(reject) { errors := errors + [RejectOutOfRange]; }
    if InScale(qualify) && InScale(reject) && reject.n >= qualify.n { errors := errors + [RejectNotBelowQualify]; }
  }

  method CheckBand(e: BandEntry, i: nat) returns (errors: seq<Violation>)
    ensures forall v :: v in errors <==> IsBandViolation(v) && v.i == i && BandFault(e, v)
  {
    errors := [];
    if !NumericBand(e) {
      errors := [BandShape(i)];
    } else {
      if e.lo.n < 0.0 || e.hi.n < e.lo.n { errors := errors + [BandRange(i)]; }
      if e.points.n < 0.0 { errors := errors + [BandPoints(i)]; }
    }
  }

  method CheckBands(bands: seq<BandEntry>) returns (errors: seq<Violation>)
    ensures forall v :: v in errors <==>
              if bands == [] then v == BandsMissing
              else IsBandViolation(v) && v.i < |bands| && BandFault(bands[v.i], v)
  {
    errors := [];
    if bands == [] { return [BandsMissing]; }
    for i := 0 to |bands|
      invariant forall v :: v in errors <==> IsBandViolation(v) && v.i < i && BandFault(bands[v.i], v)
    {
      var found := CheckBand(bands[i], i);
      errors := errors + found;
    }
  }

  method CheckPointMap(c: Config, m: PointMap) returns (errors: seq<Violation>)
    ensures forall v :: v in errors <==>
              (v.MapShape? || v.EmptyCategory? || v.CategoryValue?) && v.m == m && Structural(c, v)
  {
    errors := [];
    var mapping := c.points(m);
    if !mapping.Mapping? { return [MapShape(m)]; }
    var todo := mapping.fields.Keys;
    while todo != {}
      invariant todo <= mapping.fields.Keys
      invariant forall v :: v in errors <==>
                  || (v == EmptyCategory(m) && "" in mapping.fields && "" !in todo)
                  || (v.CategoryValue? && v.m == m && v.key != "" && v.key in mapping.fields && v.key !in todo
                      && !NonNegativeNumber(mapping.fields[v.key]))
      decreases todo
    {
      var k :| k in todo;
      if k == "" {
        errors := errors + [EmptyCategory(m)];
      } else if !NonNegativeNumber(mapping.fields[k]) {
        errors := errors + [CategoryValue(m, k)];
      }
      todo := todo - {k};
    }
  }

  method CheckWeight(c: Config, w: Weight) returns (errors: seq<Violation>)
    ensures forall v :: v in errors <==> v == WeightValue(w) && Structural(c, v)
  {
    errors := if NonNegativeNumber(c.weight(w)) then [] else [WeightValue(w)];
  }

  method MaxOfMap(points: map<string, real>) returns (best: real)
    ensures best == MaxCategoryPoints(points)
  {
    if points == map[] { return 0.0; }
    var k :| k in points;
    best := points[k];
    var todo := points.Keys - {k};
    while todo != {}
      invariant todo <= points.Keys
      invariant exists j :: j in points && points[j] == best
      invariant forall j :: j in points && j !in todo ==> points[j] <= best
      decreases todo
    {
      var j :| j in todo;
      if points[j] > best { best := points[j]; }
      todo := todo - {j};
    }
    assert IsLargest(points, best) && IsLargest(points, MaxCategoryPoints(points));
  }

  method ComputeCeilingTotal(c: Config) returns (total: real)
    ensures total == CeilingTotal(c)
  {
    var i := MaxOfMap(Points(c.points(IndustryMap)));
    var s := MaxOfMap(Points(c.points(SeniorityMap)));
    var f := MaxOfMap(Points(c.points(FunctionMap)));
    total := RawBandMax(Bands(c)) + i + s + f + NumberOf(c.weight(IntentWeight)) + NumberOf(c.weight(TriggerWeight));
  }

  method CheckStructure(c: Config) returns (errors: seq<Violation>)
    ensures forall v :: v in errors <==> Structural(c, v)
  {
    var thresholds := CheckThresholds(c);
    var bands := CheckBands(Bands(c));
    var industry := CheckPointMap(c, IndustryMap);
    var seniority := CheckPointMap(c, SeniorityMap);
    var function_ := CheckPointMap(c, FunctionMap);
    var intent := CheckWeight(c, IntentWeight);
    var trigger := CheckWeight(c, TriggerWeight);
    var maps := industry + seniority + function_;
    assert forall v: Violation ::
      v in maps <==> (v.MapShape? || v.EmptyCategory? || v.CategoryValue?) && Structural(c, v) by {
      forall v: Violation | v.MapShape? || v.EmptyCategory? || v.CategoryValue?
        ensures v.m == IndustryMap || v.m == SeniorityMap || v.m == FunctionMap {}
    }
    assert forall v: Violation :: v in intent + trigger <==> v.WeightValue? && Structural(c, v) by {
      forall v: Violation | v.WeightValue? ensures v.w == IntentWeight || v.w == TriggerWeight {}
    }
    errors := thresholds + bands + maps + (intent + trigger);
  }

  /** Reports exactly the violations the configuration has; accepts exactly the valid ones. */
  method ValidateConfig(c: Config) returns (errors: seq<Violation>)
    ensures forall v :: v in errors <==> Violates(c, v)
    ensures errors == [] <==> ValidConfig(c)
  {
    errors := CheckStructure(c);
    var structural := errors;
    assert structural == [] <==> StructurallySound(c) by {
      if structural != [] { assert structural[0] in structural; }
    }
    if errors == [] {
      var total := ComputeCeilingTotal(c);
      if !SumsTo100(total) { errors := errors + [CeilingSum]; }
    }
    if c.geographies.Some? && !StringList(c.geographies.value) { errors := errors + [Geographies]; }
    if c.disqualifier.Some? && !c.disqualifier.value.Bool? { errors := errors + [DisqualifierFlag]; }
    if errors != [] { assert errors[0] in errors; }
  }

  // --------------------------------------------------------- materialization --

  function Truncate(x: real): int {
    if x >= 0.0 then x.Floor else -((-x).Floor)
  }

  function ToBand(e: BandEntry): Band
    requires NumericBand(e)
  {
    Band(Truncate(e.lo.n), Truncate(e.hi.n), e.points.n)
  }

  predicate SoundBand(e: BandEntry) {
    NumericBand(e) && 0.0 <= e.lo.n <= e.hi.n && e.points.n >= 0.0
  }

  lemma ValidBands(c: Config)
    requires ValidConfig(c)
    ensures |Bands(c)| > 0
    ensures forall i :: 0 <= i < |Bands(c)| ==> SoundBand(Bands(c)[i])
  {
    assert !Violates(c, BandsMissing);
    forall i: nat | i < |Bands(c)| ensures SoundBand(Bands(c)[i]) {
      assert !Violates(c, BandShape(i)) && !Violates(c, BandRange(i)) && !Violates(c, BandPoints(i));
    }
  }

  lemma ValidScalars(c: Config)
    requires ValidConfig(c)
    ensures InScale(c.qualify) && InScale(c.reject)
    ensures c.reject.n < c.qualify.n
    ensures NonNegativeNumber(c.weight(IntentWeight)) && NonNegativeNumber(c.weight(TriggerWeight))
    ensures SumsTo100(CeilingTotal(c))
  {
    assert !Violates(c, QualifyOutOfRange) && !Violates(c, RejectOutOfRange) && !Violates(c, RejectNotBelowQualify);
    assert !Violates(c, WeightValue(IntentWeight)) && !Violates(c, WeightValue(TriggerWeight));
    assert StructurallySound(c) by {
      forall v: Violation ensures !Structural(c, v) { assert !Violates(c, v); }
    }
    assert !Violates(c, CeilingSum);
  }

  function Materialize(c: Config): ScoringConfig
    requires ValidConfig(c)
  {
    ValidBands(c);
    ScoringConfig(
      NumberOf(c.qualify), NumberOf(c.reject),
      seq(|Bands(c)|, i requires 0 <= i < |Bands(c)| && NumericBand(Bands(c)[i]) => ToBand(Bands(c)[i])),
      Points(c.points(IndustryMap)), Points(c.points(SeniorityMap)), Points(c.points(FunctionMap)),
      NumberOf(c.weight(IntentWeight)), NumberOf(c.weight(TriggerWeight)),
      c.disqualifier.Some? && c.disqualifier.value.Bool? ==> c.disqualifier.value.b)
  }

  /** Nothing submitted is dropped: each category of an accepted map keeps its points. */
  lemma PointsKeepCategories(c: Config, m: PointMap)
    requires ValidConfig(c)
    ensures c.points(m).Mapping?
    ensures Points(c.points(m)).Keys == c.points(m).fields.Keys
    ensures forall k :: k in c.points(m).fields ==> Num(Points(c.points(m))[k]) == c.points(m).fields[k]
  {
    assert !Violates(c, MapShape(m)) && !Violates(c, EmptyCategory(m));
    var j := c.points(m);
    forall k | k in j.fields ensures k in Points(j) {
      assert !Violates(c, CategoryValue(m, k));
    }
  }

  lemma {:induction false} SameBandMax(raw: seq<BandEntry>, bands: seq<Band>)
    requires |raw| == |bands|
    requires forall i :: 0 <= i < |raw| ==> RawPoints(raw[i]) == bands[i].points
    ensures RawBandMax(raw) == MaxBandPoints(bands)
  {
    if |raw| > 1 { SameBandMax(raw[1..], bands[1..]); }
  }

  /** An accepted profile materializes to a usable scorer: thresholds in order, truncated bands
      still non-empty, no ceiling changed, and the six ceilings adding up to 100. */
  lemma MaterializedIsSound(c: Config)
    requires ValidConfig(c)
    ensures WellFormed(Materialize(c))
    ensures 0.0 <= Materialize(c).reject < Materialize(c).qualify <= 100.0
    ensures forall i :: 0 <= i < |Materialize(c).sizeBands| ==>
              0 <= Materialize(c).sizeBands[i].lo <= Materialize(c).sizeBands[i].hi
    ensures Ceiling(Materialize(c), EmployeeCount) == RawBandMax(Bands(c))
    ensures SumsTo100(Ceiling(Materialize(c), EmployeeCount) + Ceiling(Materialize(c), Industry)
                      + Ceiling(Materialize(c), TitleSeniority) + Ceiling(Materialize(c), TitleFunction)
                      + Ceiling(Materialize(c), BuyingIntent) + Ceiling(Materialize(c), RecentTriggerEvent))
  {
    ValidBands(c);
    ValidScalars(c);
    SameBandMax(Bands(c), Materialize(c).sizeBands);
  }

  // ------------------------------------------------ the document, as scored --

  /** Each category field earns exactly the number submitted for the value under the field's own map, and nothing when
      the map does not list it. */
  lemma CategoriesEarnAsSubmitted(c: Config, v: Value)
    requires ValidConfig(c) && v.Observed? && v.shown != "unknown"
    ensures c.points(IndustryMap).Mapping? && c.points(SeniorityMap).Mapping? && c.points(FunctionMap).Mapping?
    ensures var s := Materialize(c);
            && (if v.shown in c.points(IndustryMap).fields
                then Num(FieldPoints(s, Industry, v)) == c.points(IndustryMap).fields[v.shown]
                else FieldPoints(s, Industry, v) == 0.0)
            && (if v.shown in c.points(SeniorityMap).fields
                then Num(FieldPoints(s, TitleSeniority, v)) == c.points(SeniorityMap).fields[v.shown]
                else FieldPoints(s, TitleSeniority, v) == 0.0)
            && (if v.shown in c.points(FunctionMap).fields
                then Num(FieldPoints(s, TitleFunction, v)) == c.points(FunctionMap).fields[v.shown]
                else FieldPoints(s, TitleFunction, v) == 0.0)
  {
    PointsKeepCategories(c, IndustryMap);
    PointsKeepCategories(c, SeniorityMap);
    PointsKeepCategories(c, FunctionMap);
    CategoryEarnsItsEntry(Materialize(c), v);
  }

  /** The scalars arrive where they belong: thresholds, the two weights, and the gate, which is on unless it is
      submitted as false. */
  lemma ScalarsArriveAsSubmitted(c: Config)
    requires ValidConfig(c)
    ensures var s := Materialize(c);
            && Num(s.qualify) == c.qualify && Num(s.reject) == c.reject
            && Num(Ceiling(s, BuyingIntent)) == c.weight(IntentWeight)
            && Num(Ceiling(s, RecentTriggerEvent)) == c.weight(TriggerWeight)
            && (s.disqualifierEnabled <==> c.disqualifier == None || c.disqualifier == Some(Bool(true)))
  {
    ValidScalars(c);
    assert !Violates(c, DisqualifierFlag);
  }

  /** Intent earns its share of the submitted intent weight, and a truthy trigger the submitted trigger weight. */
  lemma SignalsEarnAsSubmitted(c: Config, v: Value)
    requires ValidConfig(c) && v.Observed? && v.shown != "unknown"
    ensures c.weight(IntentWeight).Num?
    ensures v.number.Some? && 0.0 <= v.number.value <= 1.0 ==>
              FieldPoints(Materialize(c), BuyingIntent, v) == v.number.value * c.weight(IntentWeight).n
    ensures Num(FieldPoints(Materialize(c), RecentTriggerEvent, v)) ==
            if v.truthy then c.weight(TriggerWeight) else Num(0.0)
  {
    ScalarsArriveAsSubmitted(c);
    var s := Materialize(c);
    assert Num(s.intentMaxPoints) == c.weight(IntentWeight) && Num(s.triggerPoints) == c.weight(TriggerWeight);
    IntentEarnsItsShare(s, v);
    TriggerEarnsWhenTruthy(s, v);
  }

  /** The bands keep their order and points; their ends lose only a fraction. */
  lemma BandsArriveAsSubmitted(c: Config)
    requires ValidConfig(c)
    ensures c.bands.Some? && |Materialize(c).sizeBands| == |c.bands.value| > 0
    ensures forall i :: 0 <= i < |c.bands.value| ==>
              var e, b := c.bands.value[i], Materialize(c).sizeBands[i];
              && e.Entry? && e.lo.Num? && e.hi.Num? && e.points == Num(b.points)
              && b.lo as real <= e.lo.n < b.lo as real + 1.0 && b.hi as real <= e.hi.n < b.hi as real + 1.0
  {
    ValidBands(c);
  }

  /** A size earns the points submitted with the first band that contains it, once band ends are cut to whole numbers,
      and nothing outside every band. */
  lemma SizeEarnsAsSubmitted(c: Config, v: Value, k: nat)
    requires ValidConfig(c) && v.Observed? && v.shown != "unknown" && v.number.Some?
    requires forall j :: 0 <= j < k && j < |Bands(c)| ==> OutsideEntry(Bands(c)[j], v.number.value)
    ensures c.bands.Some?
    ensures k >= |c.bands.value| ==> FieldPoints(Materialize(c), EmployeeCount, v) == 0.0
    ensures k < |c.bands.value| && !OutsideEntry(c.bands.value[k], v.number.value) ==>
              c.bands.value[k].Entry?
              && Num(FieldPoints(Materialize(c), EmployeeCount, v)) == c.bands.value[k].points
  {
    BandsArriveAsSubmitted(c);
    ValidBands(c);
    var bands := Materialize(c).sizeBands;
    forall j | 0 <= j < |bands|
      ensures OutsideEntry(Bands(c)[j], v.number.value) <==>
              v.number.value < bands[j].lo as real || bands[j].hi as real < v.number.value {
      assert SoundBand(Bands(c)[j]);
    }
    SizeEarnsFirstBand(Materialize(c), v);
  }

  /** The number lies outside the entry's ends, each cut to a whole number. */
  predicate OutsideEntry(e: BandEntry, x: real) {
    e.Entry? && e.lo.Num? && e.hi.Num? && (x < e.lo.n.Floor as real || e.hi.n.Floor as real < x)
  }

  /** `m` is the largest number submitted in a map, zero when it is empty. */
  ghost predicate LargestSubmitted(m: Mapping, top: real) {
    m.Mapping? &&
    if m.fields == map[] then top == 0.0
    else (exists k :: k in m.fields && m.fields[k] == Num(top))
         && forall k :: k in m.fields ==> m.fields[k].Num? && m.fields[k].n <= top
  }

  /** No ceiling is changed on the way: each is the largest number submitted for its own field. */
  lemma CeilingsAreSubmitted(c: Config)
    requires ValidConfig(c)
    ensures LargestSubmitted(c.points(IndustryMap), Ceiling(Materialize(c), Industry))
    ensures LargestSubmitted(c.points(SeniorityMap), Ceiling(Materialize(c), TitleSeniority))
    ensures LargestSubmitted(c.points(FunctionMap), Ceiling(Materialize(c), TitleFunction))
    ensures var top := Ceiling(Materialize(c), EmployeeCount);
            c.bands.Some?
            && (exists i :: 0 <= i < |c.bands.value| && c.bands.value[i].Entry? && c.bands.value[i].points == Num(top))
            && forall i :: 0 <= i < |c.bands.value| ==>
                 c.bands.value[i].Entry? && c.bands.value[i].points.Num? && c.bands.value[i].points.n <= top
  {
    MapCeilingIsSubmitted(c, IndustryMap);
    MapCeilingIsSubmitted(c, SeniorityMap);
    MapCeilingIsSubmitted(c, FunctionMap);
    BandsArriveAsSubmitted(c);
    BandMaxIsReached(Materialize(c).sizeBands);
  }

  lemma MapCeilingIsSubmitted(c: Config, m: PointMap)
    requires ValidConfig(c)
    ensures LargestSubmitted(c.points(m), MaxCategoryPoints(Points(c.points(m))))
  {
    PointsKeepCategories(c, m);
    var fields, points := c.points(m).fields, Points(c.points(m));
    if fields == map[] {
      assert points == map[];
    } else {
      var k :| k in fields;
      assert k in points;
      var j :| j in points && points[j] == MaxCategoryPoints(points);
      assert fields[j] == Num(points[j]);
    }
  }

  lemma {:induction false} BandMaxIsReached(bands: seq<Band>)
    requires bands != []
    ensures exists i :: 0 <= i < |bands| && bands[i].points == MaxBandPoints(bands)
    ensures forall i :: 0 <= i < |bands| ==> bands[i].points <= MaxBandPoints(bands)
  {
    if |bands| > 1 {
      BandMaxIsReached(bands[1..]);
      var i :| 0 <= i < |bands[1..]| && bands[1..][i].points == MaxBandPoints(bands[1..]);
      assert bands[i + 1].points == MaxBandPoints(bands[1..]);
    } else {
      assert bands[0].points == MaxBandPoints(bands);
    }
  }

  /** What is accepted, read off the document. */
  lemma AcceptedIff(c: Config)
    ensures ValidConfig(c) <==>
            && InScale(c.qualify) && InScale(c.reject) && c.reject.n < c.qualify.n
            && c.bands.Some? && c.bands.value != []
            && (forall i :: 0 <= i < |c.bands.value| ==>
                  var e := c.bands.value[i];
                  e.Entry? && e.lo.Num? && e.hi.Num? && e.points.Num? && 0.0 <= e.lo.n <= e.hi.n && e.points.n >= 0.0)
            && (forall m: PointMap :: c.points(m).Mapping?)
            && (forall m: PointMap, k :: k in c.points(m).fields ==>
                  k != "" && c.points(m).fields[k].Num? && c.points(m).fields[k].n >= 0.0)
            && (forall w: Weight :: c.weight(w).Num? && c.weight(w).n >= 0.0)
            && SumsTo100(CeilingTotal(c))
            && (c.geographies.Some? ==>
                  c.geographies.value.Some?
                  && forall i :: 0 <= i < |c.geographies.value.value| ==> c.geographies.value.value[i].Str?)
            && (c.disqualifier.Some? ==> c.disqualifier.value.Bool?)
  {
    if ValidConfig(c) {
      ValidBands(c);
      ValidScalars(c);
      assert !Violates(c, Geographies) && !Violates(c, DisqualifierFlag);
      forall m: PointMap ensures c.points(m).Mapping?
                         ensures forall k :: k in c.points(m).fields ==>
                                   k != "" && c.points(m).fields[k].Num? && c.points(m).fields[k].n >= 0.0 {
        PointsKeepCategories(c, m);
        assert !Violates(c, MapShape(m)) && !Violates(c, EmptyCategory(m));
        forall k | k in c.points(m).fields ensures NonNegativeNumber(c.points(m).fields[k]) {
          assert !Violates(c, CategoryValue(m, k));
        }
      }
      forall w: Weight ensures NonNegativeNumber(c.weight(w)) { assert !Violates(c, WeightValue(w)); }
    }
  }

  /** Any facts at all score within [0, 100 + tolerance] under an accepted profile. */
  lemma AcceptedProfileScoresInScale(c: Config, facts: Facts)
    requires ValidConfig(c)
    ensures 0.0 <= Score(Materialize(c), facts) <= WEIGHT_SUM_TARGET + WEIGHT_SUM_TOLERANCE
  {
    var s := Materialize(c);
    MaterializedIsSound(c);
    forall f: ScoredField ensures 0.0 <= PointsOf(s, facts, f) <= Ceiling(s, f) {
      PointsInRange(s, f, Get(facts, f));
    }
  }

  // ------------------------------------------------------ ceilings, computed --

  /** The attainable ceiling of a field, computed from the configuration. */
  method ComputeAttainableCeiling(c: ScoringConfig, f: ScoredField) returns (ceiling: real)
    requires WellFormed(c)
    ensures ceiling == AttainableCeiling(c, f)
  {
    match f {
      case EmployeeCount => ceiling := BestProbe(c.sizeBands, Probes(c.sizeBands));
      case Industry => ceiling := MaxOfMap(c.industryPoints - {UNKNOWN});
      case TitleSeniority => ceiling := MaxOfMap(c.seniorityPoints - {UNKNOWN});
      case TitleFunction => ceiling := MaxOfMap(c.functionPoints - {UNKNOWN});
      case BuyingIntent => ceiling := c.intentMaxPoints;
      case RecentTriggerEvent => ceiling := c.triggerPoints;
      case DisqualifyingFlag => ceiling := 0.0;
    }
  }

  method ComputeReach(c: ScoringConfig, facts: Facts, f: ScoredField) returns (reach: real)
    requires WellFormed(c)
    ensures reach == Reach(c, facts, f)
  {
    reach := 0.0;
    if !Known(facts, f) { reach := ComputeAttainableCeiling(c, f); }
  }

  /** Whether every completion decides alike can be computed: compare the classes of two scores. */
  method DecideAgreement(c: ScoringConfig, facts: Facts) returns (agree: bool)
    requires WellFormed(c) && c.reject < c.qualify
    ensures agree <==> EveryCompletionAgrees(c, facts)
  {
    CompletionsAgreeIff(c, facts);
    var lower := if Disqualified(c, facts) || GateOpen(c, facts) then 0.0 else Score(c, facts);
    var upper := 0.0;
    if !Disqualified(c, facts) {
      var size := ComputeReach(c, facts, EmployeeCount);
      var industry := ComputeReach(c, facts, Industry);
      var seniority := ComputeReach(c, facts, TitleSeniority);
      var role := ComputeReach(c, facts, TitleFunction);
      var intent := ComputeReach(c, facts, BuyingIntent);
      var trigger := ComputeReach(c, facts, RecentTriggerEvent);
      upper := Score(c, facts) + size + industry + seniority + role + intent + trigger;
    }
    agree := Decide(lower, c.qualify, c.reject) == Decide(upper, c.qualify, c.reject);
  }
}
