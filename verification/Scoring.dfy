/**
 The deterministic scorer over partial evidence: per-field points, the
 disqualifier gate, the reachable score bounds, and what "settled" means for
 every way the unknown facts could still turn out.
 Models src/arie/scoring/rules.py and src/arie/scoring/engine.py.
 */
module Scoring {

  datatype Option<+T> = None | Some(value: T)

  /** The seven scored fields; the last one is a gate, not an additive field. */
  datatype ScoredField =
    | EmployeeCount | Industry | TitleSeniority | TitleFunction
    | BuyingIntent | RecentTriggerEvent | DisqualifyingFlag

  const ALL_FIELDS: set<ScoredField> :=
    {EmployeeCount, Industry, TitleSeniority, TitleFunction, BuyingIntent, RecentTriggerEvent, DisqualifyingFlag}

  /** A fact value, reduced to the four readings the scorer makes of it:
      as text, as a number (when it parses as one), as a truth value, and as the literal True. */
  datatype Value =
    | Absent
    | Observed(shown: string, number: Option<real>, truthy: bool, isTrue: bool)

  const UNKNOWN := "unknown"

  predicate IsUnknown(v: Value) {
    v.Absent? || v.shown == UNKNOWN
  }

  type Facts = map<ScoredField, Value>

  function Get(facts: Facts, f: ScoredField): Value {
    if f in facts then facts[f] else Absent
  }

  predicate Known(facts: Facts, f: ScoredField) {
    !IsUnknown(Get(facts, f))
  }

  datatype Band = Band(lo: int, hi: int, points: real)

  datatype ScoringConfig = ScoringConfig(
    qualify: real,
    reject: real,
    sizeBands: seq<Band>,
    industryPoints: map<string, real>,
    seniorityPoints: map<string, real>,
    functionPoints: map<string, real>,
    intentMaxPoints: real,
    triggerPoints: real,
    disqualifierEnabled: bool)

  datatype Decision = AutoRoute | EscalateHuman | Reject

  function Decide(score: real, qualify: real, reject: real): Decision {
    if score >= qualify then AutoRoute else if score < reject then Reject else EscalateHuman
  }

  function SettledDecision(lower: real, upper: real, qualify: real, reject: real): Option<Decision> {
    if lower >= qualify then Some(AutoRoute)
    else if upper < reject then Some(Reject)
    else if lower >= reject && upper < qualify then Some(EscalateHuman)
    else None
  }

  // ------------------------------------------------------------ field points --

  predicate InBand(b: Band, n: real) {
    b.lo as real <= n <= b.hi as real
  }

  /** The first band containing the number wins; none scores zero. */
  function SizePoints(bands: seq<Band>, n: Option<real>): real {
    if n.None? || bands == [] then 0.0
    else if InBand(bands[0], n.value) then bands[0].points
    else SizePoints(bands[1..], n)
  }

  function CategoryPoints(points: map<string, real>, shown: string): real {
    if shown in points then points[shown] else 0.0
  }

  function Clamp01(x: real): real {
    if x < 0.0 then 0.0 else if x > 1.0 then 1.0 else x
  }

  function IntentPoints(top: real, n: Option<real>): real {
    if n.None? then 0.0 else Clamp01(n.value) * top
  }

  function FieldPoints(c: ScoringConfig, f: ScoredField, v: Value): real {
    if IsUnknown(v) then 0.0
    else match f
      case EmployeeCount => SizePoints(c.sizeBands, v.number)
      case Industry => CategoryPoints(c.industryPoints, v.shown)
      case TitleSeniority => CategoryPoints(c.seniorityPoints, v.shown)
      case TitleFunction => CategoryPoints(c.functionPoints, v.shown)
      case BuyingIntent => IntentPoints(c.intentMaxPoints, v.number)
      case RecentTriggerEvent => if v.truthy then c.triggerPoints else 0.0
      case DisqualifyingFlag => 0.0
  }

  function MaxReal(a: real, b: real): real {
    if a >= b then a else b
  }

  /** The largest band value, zero for no bands. */
  function MaxBandPoints(bands: seq<Band>): real {
    if bands == [] then 0.0
    else if |bands| == 1 then bands[0].points
    else MaxReal(bands[0].points, MaxBandPoints(bands[1..]))
  }

  ghost predicate IsLargest(points: map<string, real>, m: real) {
    (exists k :: k in points && points[k] == m) && forall k :: k in points ==> points[k] <= m
  }

  lemma {:induction false} LargestExists(points: map<string, real>) returns (m: real)
    requires points != map[]
    ensures IsLargest(points, m)
    decreases |points|
  {
    var k :| k in points;
    var rest := points - {k};
    m := points[k];
    if rest != map[] {
      var n := LargestExists(rest);
      var j :| j in rest && rest[j] == n;
      assert points[j] == n;
      m := MaxReal(m, n);
      forall i | i in points ensures points[i] <= m {
        assert i != k ==> i in rest && rest[i] <= n;
      }
    } else {
      forall i | i in points ensures i == k {
        assert i != k ==> i in rest;
      }
    }
  }

  /** The largest value of a point map, zero for an empty map. */
  ghost function MaxCategoryPoints(points: map<string, real>): (m: real)
    ensures points != map[] ==> IsLargest(points, m)
  {
    if points == map[] then 0.0
    else
      assert exists m :: IsLargest(points, m) by { var m := LargestExists(points); }
      var m :| IsLargest(points, m);
      m
  }

  ghost function Ceiling(c: ScoringConfig, f: ScoredField): real {
    match f
    case EmployeeCount => MaxBandPoints(c.sizeBands)
    case Industry => MaxCategoryPoints(c.industryPoints)
    case TitleSeniority => MaxCategoryPoints(c.seniorityPoints)
    case TitleFunction => MaxCategoryPoints(c.functionPoints)
    case BuyingIntent => c.intentMaxPoints
    case RecentTriggerEvent => c.triggerPoints
    case DisqualifyingFlag => 0.0
  }

  // ---------------------------------------------------------- score and bounds --

  predicate Disqualified(c: ScoringConfig, facts: Facts) {
    c.disqualifierEnabled && Known(facts, DisqualifyingFlag) && Get(facts, DisqualifyingFlag).isTrue
  }

  function PointsOf(c: ScoringConfig, facts: Facts, f: ScoredField): real {
    FieldPoints(c, f, Get(facts, f))
  }

  function Score(c: ScoringConfig, facts: Facts): real {
    if Disqualified(c, facts) then 0.0
    else
      PointsOf(c, facts, EmployeeCount) + PointsOf(c, facts, Industry) + PointsOf(c, facts, TitleSeniority)
      + PointsOf(c, facts, TitleFunction) + PointsOf(c, facts, BuyingIntent) + PointsOf(c, facts, RecentTriggerEvent)
  }

  datatype Bounds = Bounds(current: real, lower: real, upper: real)

  predicate GateOpen(c: ScoringConfig, facts: Facts) {
    c.disqualifierEnabled && !Known(facts, DisqualifyingFlag)
  }

  /** What the ceilings of the unknown additive fields add up to. */
  ghost function Headroom(c: ScoringConfig, facts: Facts): real {
    Open(c, facts, EmployeeCount) + Open(c, facts, Industry) + Open(c, facts, TitleSeniority)
    + Open(c, facts, TitleFunction) + Open(c, facts, BuyingIntent) + Open(c, facts, RecentTriggerEvent)
  }

  ghost function Open(c: ScoringConfig, facts: Facts, f: ScoredField): real {
    if Known(facts, f) then 0.0 else Ceiling(c, f)
  }

  ghost function ComputeBounds(c: ScoringConfig, facts: Facts): Bounds {
    if Disqualified(c, facts) then Bounds(0.0, 0.0, 0.0)
    else
      var current := Score(c, facts);
      Bounds(current, if GateOpen(c, facts) then 0.0 else current, current + Headroom(c, facts))
  }

  // ------------------------------------------------------------- completions --

  /** `g` answers every field and keeps every answer `facts` already has. */
  ghost predicate Completion(facts: Facts, g: Facts) {
    && (forall f: ScoredField :: Known(g, f))
    && (forall f: ScoredField :: Known(facts, f) ==> Get(g, f) == Get(facts, f))
  }

  ghost predicate EveryCompletionDecides(c: ScoringConfig, facts: Facts, d: Decision) {
    forall g :: Completion(facts, g) ==> Decide(Score(c, g), c.qualify, c.reject) == d
  }

  ghost predicate EveryCompletionAgrees(c: ScoringConfig, facts: Facts) {
    forall g, h :: Completion(facts, g) && Completion(facts, h) ==>
      Decide(Score(c, g), c.qualify, c.reject) == Decide(Score(c, h), c.qualify, c.reject)
  }

  /** What every stored profile and the reference configuration satisfy (see IcpConfig). */
  ghost predicate NonNegative(points: map<string, real>) {
    "" !in points && forall k :: k in points ==> points[k] >= 0.0
  }

  ghost predicate WellFormed(c: ScoringConfig) {
    && (forall i :: 0 <= i < |c.sizeBands| ==> c.sizeBands[i].points >= 0.0)
    && NonNegative(c.industryPoints) && NonNegative(c.seniorityPoints) && NonNegative(c.functionPoints)
    && c.intentMaxPoints >= 0.0 && c.triggerPoints >= 0.0
  }

  // ---------------------------------------------------- points and ceilings --

  lemma {:induction false} BandPointsInRange(bands: seq<Band>, n: Option<real>)
    requires forall i :: 0 <= i < |bands| ==> bands[i].points >= 0.0
    ensures 0.0 <= SizePoints(bands, n) <= MaxBandPoints(bands)
  {
    if bands != [] {
      BandPointsInRange(bands[1..], n);
    }
  }

  lemma CategoryPointsInRange(points: map<string, real>, shown: string)
    requires NonNegative(points)
    ensures 0.0 <= CategoryPoints(points, shown) <= MaxCategoryPoints(points)
  {
    assert points != map[] ==> IsLargest(points, MaxCategoryPoints(points));
  }

  lemma IntentInRange(top: real, n: Option<real>)
    requires top >= 0.0
    ensures 0.0 <= IntentPoints(top, n) <= top
  {
    if n.Some? {
      var y := Clamp01(n.value);
      assert top - y * top == (1.0 - y) * top >= 0.0;
    }
  }

  lemma CeilingNonNegative(c: ScoringConfig, f: ScoredField)
    requires WellFormed(c)
    ensures Ceiling(c, f) >= 0.0
  {
    match f
    case EmployeeCount => BandPointsInRange(c.sizeBands, None);
    case Industry => CategoryPointsInRange(c.industryPoints, "");
    case TitleSeniority => CategoryPointsInRange(c.seniorityPoints, "");
    case TitleFunction => CategoryPointsInRange(c.functionPoints, "");
    case BuyingIntent =>
    case RecentTriggerEvent =>
    case DisqualifyingFlag =>
  }

  /** Every answer to a field is worth between zero and the field's ceiling. */
  lemma PointsInRange(c: ScoringConfig, f: ScoredField, v: Value)
    requires WellFormed(c)
    ensures 0.0 <= FieldPoints(c, f, v) <= Ceiling(c, f)
  {
    if IsUnknown(v) {
      CeilingNonNegative(c, f);
    } else {
      match f
      case EmployeeCount => BandPointsInRange(c.sizeBands, v.number);
      case Industry => CategoryPointsInRange(c.industryPoints, v.shown);
      case TitleSeniority => CategoryPointsInRange(c.seniorityPoints, v.shown);
      case TitleFunction => CategoryPointsInRange(c.functionPoints, v.shown);
      case BuyingIntent => IntentInRange(c.intentMaxPoints, v.number);
      case RecentTriggerEvent =>
      case DisqualifyingFlag =>
    }
  }

  // --------------------------------------------------- what answers are worth --

  /** A missing answer and the word "unknown" earn nothing in any field, and the gate never earns points. */
  lemma NoEvidenceEarnsNothing(c: ScoringConfig, f: ScoredField, v: Value)
    requires v.Absent? || v.shown == "unknown" || f == DisqualifyingFlag
    ensures FieldPoints(c, f, v) == 0.0
  {
  }

  /** A size earns the points of the first band that contains it, ends included, and nothing outside every band. */
  lemma SizeEarnsFirstBand(c: ScoringConfig, v: Value)
    requires v.Observed? && v.shown != "unknown"
    ensures v.number.None? ==> FieldPoints(c, EmployeeCount, v) == 0.0
    ensures v.number.Some? ==>
              var x := v.number.value;
              var bands := c.sizeBands;
              && ((forall k :: 0 <= k < |bands| ==> x < bands[k].lo as real || bands[k].hi as real < x) ==>
                    FieldPoints(c, EmployeeCount, v) == 0.0)
              && (forall k | 0 <= k < |bands| && bands[k].lo as real <= x <= bands[k].hi as real
                    && (forall j :: 0 <= j < k ==> x < bands[j].lo as real || bands[j].hi as real < x) ::
                    FieldPoints(c, EmployeeCount, v) == bands[k].points)
  {
    if v.number.Some? {
      var x, bands := v.number.value, c.sizeBands;
      var n := FirstOrNone(bands, x);
      forall k | 0 <= k < |bands| && bands[k].lo as real <= x <= bands[k].hi as real
          && (forall j :: 0 <= j < k ==> x < bands[j].lo as real || bands[j].hi as real < x)
        ensures FieldPoints(c, EmployeeCount, v) == bands[k].points {
        assert FirstIn(bands, k, x);
        FirstInDecides(bands, k, x);
      }
      if n < |bands| { assert bands[n].lo as real <= x <= bands[n].hi as real; }
    }
  }

  /** A category earns exactly what its own table lists for it, and nothing when unlisted. */
  lemma CategoryEarnsItsEntry(c: ScoringConfig, v: Value)
    requires v.Observed? && v.shown != "unknown"
    ensures FieldPoints(c, Industry, v) == if v.shown in c.industryPoints then c.industryPoints[v.shown] else 0.0
    ensures FieldPoints(c, TitleSeniority, v) ==
            if v.shown in c.seniorityPoints then c.seniorityPoints[v.shown] else 0.0
    ensures FieldPoints(c, TitleFunction, v) == if v.shown in c.functionPoints then c.functionPoints[v.shown] else 0.0
  {
  }

  /** Intent earns its share of the ceiling: nothing up to zero, everything from one on, in proportion between. */
  lemma IntentEarnsItsShare(c: ScoringConfig, v: Value)
    requires v.Observed? && v.shown != "unknown"
    ensures v.number.None? ==> FieldPoints(c, BuyingIntent, v) == 0.0
    ensures v.number.Some? && v.number.value <= 0.0 ==> FieldPoints(c, BuyingIntent, v) == 0.0
    ensures v.number.Some? && 0.0 <= v.number.value <= 1.0 ==>
              FieldPoints(c, BuyingIntent, v) == v.number.value * c.intentMaxPoints
    ensures v.number.Some? && 1.0 <= v.number.value ==> FieldPoints(c, BuyingIntent, v) == c.intentMaxPoints
  {
  }

  /** A trigger event earns its points exactly when the value is truthy. */
  lemma TriggerEarnsWhenTruthy(c: ScoringConfig, v: Value)
    requires v.Observed? && v.shown != "unknown"
    ensures FieldPoints(c, RecentTriggerEvent, v) == if v.truthy then c.triggerPoints else 0.0
  {
  }

  /** The gate: enabled, and the flag is literally true. */
  lemma GateZeroesTheScore(c: ScoringConfig, facts: Facts)
    requires c.disqualifierEnabled && DisqualifyingFlag in facts && facts[DisqualifyingFlag].Observed?
    requires facts[DisqualifyingFlag].isTrue && facts[DisqualifyingFlag].shown != "unknown"
    ensures Score(c, facts) == 0.0
  {
  }

  /** Otherwise the score is a sum: each additive field's answer adds what it earns, whatever else is known, and no
      answers score zero. */
  lemma ScoreAddsUp(c: ScoringConfig, facts: Facts, f: ScoredField)
    requires f in facts && f != DisqualifyingFlag
    requires c.disqualifierEnabled && DisqualifyingFlag in facts && facts[DisqualifyingFlag].Observed? ==>
               !facts[DisqualifyingFlag].isTrue || facts[DisqualifyingFlag].shown == "unknown"
    ensures Score(c, facts) == Score(c, facts - {f}) + FieldPoints(c, f, facts[f])
    ensures Score(c, map[]) == 0.0
  {
    var without := facts - {f};
    assert Disqualified(c, without) <==> Disqualified(c, facts);
    forall h: ScoredField | h != f ensures PointsOf(c, without, h) == PointsOf(c, facts, h) {
    }
    NoEvidenceEarnsNothing(c, f, Absent);
  }

  /** So the score of an ungated lead with every additive field known is, term by term, what the tables say; band k is
      the first that contains the size, or k is the number of bands. */
  lemma FullScore(c: ScoringConfig, facts: Facts, k: nat, size: real, intent: real)
    requires !(c.disqualifierEnabled && DisqualifyingFlag in facts && facts[DisqualifyingFlag].Observed?
               && facts[DisqualifyingFlag].isTrue)
    requires forall f: ScoredField :: f != DisqualifyingFlag ==>
               f in facts && facts[f].Observed? && facts[f].shown != "unknown"
    requires facts[EmployeeCount].number == Some(size) && facts[BuyingIntent].number == Some(intent)
    requires k <= |c.sizeBands|
    requires k < |c.sizeBands| ==> c.sizeBands[k].lo as real <= size <= c.sizeBands[k].hi as real
    requires forall j :: 0 <= j < k ==> size < c.sizeBands[j].lo as real || c.sizeBands[j].hi as real < size
    ensures var industry, seniority, role :=
              facts[Industry].shown, facts[TitleSeniority].shown, facts[TitleFunction].shown;
            Score(c, facts) ==
            (if k < |c.sizeBands| then c.sizeBands[k].points else 0.0)
            + (if industry in c.industryPoints then c.industryPoints[industry] else 0.0)
            + (if seniority in c.seniorityPoints then c.seniorityPoints[seniority] else 0.0)
            + (if role in c.functionPoints then c.functionPoints[role] else 0.0)
            + (if intent <= 0.0 then 0.0 else if intent >= 1.0 then c.intentMaxPoints else intent * c.intentMaxPoints)
            + (if facts[RecentTriggerEvent].truthy then c.triggerPoints else 0.0)
  {
    SizeEarnsFirstBand(c, facts[EmployeeCount]);
    CategoryEarnsItsEntry(c, facts[Industry]);
    CategoryEarnsItsEntry(c, facts[TitleSeniority]);
    CategoryEarnsItsEntry(c, facts[TitleFunction]);
    IntentEarnsItsShare(c, facts[BuyingIntent]);
    TriggerEarnsWhenTruthy(c, facts[RecentTriggerEvent]);
  }

  // ------------------------------------------------------ attainable ceilings --

  const NOTHING := Observed("", None, false, false)

  /** Where a first-match band table can change its value: each lower end, and just past each upper end. */
  function Probes(bands: seq<Band>): seq<real> {
    if bands == [] then [] else [bands[0].lo as real, bands[0].hi as real + 0.5] + Probes(bands[1..])
  }

  function BestProbe(bands: seq<Band>, probes: seq<real>): real {
    if probes == [] then 0.0 else MaxReal(SizePoints(bands, Some(probes[0])), BestProbe(bands, probes[1..]))
  }

  /** The most a usable answer to `f` earns, read off the configuration: bands are probed where their value can change,
      and a category named "unknown" does not count. */
  ghost function AttainableCeiling(c: ScoringConfig, f: ScoredField): real {
    match f
    case EmployeeCount => BestProbe(c.sizeBands, Probes(c.sizeBands))
    case Industry => MaxCategoryPoints(c.industryPoints - {UNKNOWN})
    case TitleSeniority => MaxCategoryPoints(c.seniorityPoints - {UNKNOWN})
    case TitleFunction => MaxCategoryPoints(c.functionPoints - {UNKNOWN})
    case BuyingIntent => c.intentMaxPoints
    case RecentTriggerEvent => c.triggerPoints
    case DisqualifyingFlag => 0.0
  }

  lemma {:induction false} ProbesHold(bands: seq<Band>, k: nat)
    requires k < |bands|
    ensures bands[k].lo as real in Probes(bands) && bands[k].hi as real + 0.5 in Probes(bands)
  {
    if k > 0 { ProbesHold(bands[1..], k - 1); }
  }

  lemma {:induction false} BestProbeIsMost(bands: seq<Band>, probes: seq<real>)
    ensures BestProbe(bands, probes) >= 0.0
    ensures forall x :: x in probes ==> SizePoints(bands, Some(x)) <= BestProbe(bands, probes)
  {
    if probes != [] { BestProbeIsMost(bands, probes[1..]); }
  }

  lemma {:induction false} BestProbeIsReached(bands: seq<Band>, probes: seq<real>) returns (n: Option<real>)
    ensures SizePoints(bands, n) == BestProbe(bands, probes)
  {
    if probes == [] {
      n := None;
    } else {
      n := BestProbeIsReached(bands, probes[1..]);
      if SizePoints(bands, Some(probes[0])) >= BestProbe(bands, probes[1..]) { n := Some(probes[0]); }
    }
  }

  /** Band k is the first to contain x. */
  predicate FirstIn(bands: seq<Band>, k: nat, x: real) {
    k < |bands| && InBand(bands[k], x) && forall i :: 0 <= i < k ==> !InBand(bands[i], x)
  }

  lemma {:induction false} FirstInDecides(bands: seq<Band>, k: nat, x: real)
    requires FirstIn(bands, k, x)
    ensures SizePoints(bands, Some(x)) == bands[k].points
  {
    if k > 0 { FirstInDecides(bands[1..], k - 1, x); }
  }

  lemma {:induction false} FirstOrNone(bands: seq<Band>, x: real) returns (k: nat)
    ensures k == |bands| || FirstIn(bands, k, x)
    ensures k == |bands| ==> SizePoints(bands, Some(x)) == 0.0
  {
    if bands == [] || InBand(bands[0], x) {
      k := 0;
    } else {
      k := FirstOrNone(bands[1..], x);
      k := k + 1;
    }
  }

  /** The latest end before x of a band before k, if one lies in band k. */
  lemma LatestEnd(bands: seq<Band>, k: nat, x: real) returns (end: Option<int>)
    requires FirstIn(bands, k, x)
    ensures end.None? ==> forall j :: 0 <= j < k ==> bands[j].hi < bands[k].lo || bands[j].hi as real >= x
    ensures end.Some? ==> forall j :: 0 <= j < k ==> bands[j].hi <= end.value || bands[j].hi as real >= x
    ensures end.Some? ==>
              bands[k].lo <= end.value && (end.value as real) < x && end.value as real + 0.5 in Probes(bands)
  {
    end := None;
    var i := 0;
    while i < k
      invariant 0 <= i <= k
      invariant end.None? ==> forall j :: 0 <= j < i ==> bands[j].hi < bands[k].lo || bands[j].hi as real >= x
      invariant end.Some? ==> forall j :: 0 <= j < i ==> bands[j].hi <= end.value || bands[j].hi as real >= x
      invariant end.Some? ==>
                  bands[k].lo <= end.value && (end.value as real) < x && end.value as real + 0.5 in Probes(bands)
    {
      if bands[k].lo <= bands[i].hi && (bands[i].hi as real) < x && (end.None? || bands[i].hi > end.value) {
        ProbesHold(bands, i);
        end := Some(bands[i].hi);
      }
      i := i + 1;
    }
  }

  /** A band that misses x and ends below lo, or not before x, misses lo as well. */
  lemma MissesLo(b: Band, lo: int, x: real)
    requires !InBand(b, x) && lo as real <= x && (b.hi < lo || b.hi as real >= x)
    ensures !InBand(b, lo as real)
  {
  }

  /** A band that misses x and ends by m, or not before x, misses the number just past m. */
  lemma MissesPast(b: Band, m: int, x: real)
    requires !InBand(b, x) && (m as real) < x && (b.hi <= m || b.hi as real >= x)
    ensures !InBand(b, m as real + 0.5)
  {
    assert b.lo as real <= m as real + 0.5 ==> b.lo <= m;
  }

  /** Sliding a number down within its band, one meets a probe that the same band still decides. */
  lemma SlideToProbe(bands: seq<Band>, k: nat, x: real) returns (y: real)
    requires FirstIn(bands, k, x)
    ensures y in Probes(bands) && FirstIn(bands, k, y)
  {
    var end := LatestEnd(bands, k, x);
    if end.None? {
      y := bands[k].lo as real;
      ProbesHold(bands, k);
      forall i | 0 <= i < k ensures !InBand(bands[i], y) { MissesLo(bands[i], bands[k].lo, x); }
    } else {
      y := end.value as real + 0.5;
      assert end.value + 1 <= bands[k].hi;
      forall i | 0 <= i < k ensures !InBand(bands[i], y) { MissesPast(bands[i], end.value, x); }
    }
  }

  lemma NoSizeBeatsProbes(bands: seq<Band>, n: Option<real>)
    ensures SizePoints(bands, n) <= BestProbe(bands, Probes(bands))
  {
    BestProbeIsMost(bands, Probes(bands));
    if n.Some? {
      var k := FirstOrNone(bands, n.value);
      if k < |bands| {
        var y := SlideToProbe(bands, k, n.value);
        FirstInDecides(bands, k, n.value);
        FirstInDecides(bands, k, y);
      }
    }
  }

  lemma NoCategoryBeatsUsable(points: map<string, real>, shown: string)
    requires NonNegative(points) && shown != UNKNOWN
    ensures CategoryPoints(points, shown) <= MaxCategoryPoints(points - {UNKNOWN})
  {
    var usable := points - {UNKNOWN};
    assert usable != map[] ==> IsLargest(usable, MaxCategoryPoints(usable));
    if shown in points { assert shown in usable && usable[shown] == points[shown]; }
  }

  lemma UsableIsReached(points: map<string, real>) returns (k: string)
    requires NonNegative(points)
    ensures k != UNKNOWN && CategoryPoints(points, k) == MaxCategoryPoints(points - {UNKNOWN})
  {
    var usable := points - {UNKNOWN};
    k := "";
    if usable != map[] {
      k :| k in usable && usable[k] == MaxCategoryPoints(usable);
    }
  }

  lemma NoAnswerBeatsAttainable(c: ScoringConfig, f: ScoredField, v: Value)
    requires WellFormed(c) && !IsUnknown(v)
    ensures FieldPoints(c, f, v) <= AttainableCeiling(c, f)
  {
    match f
    case EmployeeCount => NoSizeBeatsProbes(c.sizeBands, v.number);
    case Industry => NoCategoryBeatsUsable(c.industryPoints, v.shown);
    case TitleSeniority => NoCategoryBeatsUsable(c.seniorityPoints, v.shown);
    case TitleFunction => NoCategoryBeatsUsable(c.functionPoints, v.shown);
    case BuyingIntent => IntentInRange(c.intentMaxPoints, v.number);
    case RecentTriggerEvent =>
    case DisqualifyingFlag =>
  }

  lemma AttainableIsReached(c: ScoringConfig, f: ScoredField) returns (v: Value)
    requires WellFormed(c)
    ensures !IsUnknown(v) && !v.isTrue && FieldPoints(c, f, v) == AttainableCeiling(c, f)
  {
    match f
    case EmployeeCount =>
      var n := BestProbeIsReached(c.sizeBands, Probes(c.sizeBands));
      v := NOTHING.(number := n);
    case Industry =>
      var k := UsableIsReached(c.industryPoints);
      v := NOTHING.(shown := k);
    case TitleSeniority =>
      var k := UsableIsReached(c.seniorityPoints);
      v := NOTHING.(shown := k);
    case TitleFunction =>
      var k := UsableIsReached(c.functionPoints);
      v := NOTHING.(shown := k);
    case BuyingIntent => v := NOTHING.(number := Some(1.0));
    case RecentTriggerEvent => v := NOTHING.(truthy := true);
    case DisqualifyingFlag => v := NOTHING;
  }

  /** The attainable ceiling is exactly the most any usable answer earns, and never above the declared ceiling. */
  lemma AttainableCeilingIsExact(c: ScoringConfig, f: ScoredField)
    requires WellFormed(c)
    ensures forall v: Value :: !IsUnknown(v) ==> FieldPoints(c, f, v) <= AttainableCeiling(c, f)
    ensures exists v: Value :: !IsUnknown(v) && FieldPoints(c, f, v) == AttainableCeiling(c, f)
    ensures 0.0 <= AttainableCeiling(c, f) <= Ceiling(c, f)
    ensures CeilingReached(c, f) <==> AttainableCeiling(c, f) == Ceiling(c, f)
  {
    forall v: Value | !IsUnknown(v) ensures FieldPoints(c, f, v) <= AttainableCeiling(c, f) {
      NoAnswerBeatsAttainable(c, f, v);
    }
    var v := AttainableIsReached(c, f);
    PointsInRange(c, f, v);
  }

  /** An answer worth the attainable ceiling. */
  ghost function BestAnswer(c: ScoringConfig, f: ScoredField): (v: Value)
    requires WellFormed(c)
    ensures !IsUnknown(v) && !v.isTrue && FieldPoints(c, f, v) == AttainableCeiling(c, f)
  {
    assert exists v: Value :: !IsUnknown(v) && !v.isTrue && FieldPoints(c, f, v) == AttainableCeiling(c, f) by {
      var v := AttainableIsReached(c, f);
    }
    var v: Value :| !IsUnknown(v) && !v.isTrue && FieldPoints(c, f, v) == AttainableCeiling(c, f);
    v
  }

  /** The score plus the attainable ceilings of the unknown fields. */
  ghost function TrueUpper(c: ScoringConfig, facts: Facts): real {
    if Disqualified(c, facts) then 0.0
    else
      Score(c, facts)
      + Reach(c, facts, EmployeeCount) + Reach(c, facts, Industry) + Reach(c, facts, TitleSeniority)
      + Reach(c, facts, TitleFunction) + Reach(c, facts, BuyingIntent) + Reach(c, facts, RecentTriggerEvent)
  }

  ghost function Reach(c: ScoringConfig, facts: Facts, f: ScoredField): real {
    if Known(facts, f) then 0.0 else AttainableCeiling(c, f)
  }

  /** Some usable answer to `f` earns the declared ceiling. */
  ghost predicate CeilingReached(c: ScoringConfig, f: ScoredField) {
    exists v: Value :: !IsUnknown(v) && FieldPoints(c, f, v) == Ceiling(c, f)
  }

  ghost predicate UnknownCeilingsReached(c: ScoringConfig, facts: Facts) {
    forall f: ScoredField :: !Known(facts, f) ==> CeilingReached(c, f)
  }

  // ----------------------------------------------------- extreme completions --

  ghost function Fill(facts: Facts, answer: ScoredField -> Value): Facts {
    map f | f in ALL_FIELDS :: if Known(facts, f) then Get(facts, f) else answer(f)
  }

  lemma FillGet(facts: Facts, answer: ScoredField -> Value, f: ScoredField)
    ensures Get(Fill(facts, answer), f) == if Known(facts, f) then Get(facts, f) else answer(f)
  {
    assert f in ALL_FIELDS;
  }

  lemma FillCompletes(facts: Facts, answer: ScoredField -> Value)
    requires forall f: ScoredField :: !IsUnknown(answer(f))
    ensures Completion(facts, Fill(facts, answer))
  {
    forall f: ScoredField ensures Known(Fill(facts, answer), f)
                          ensures Known(facts, f) ==> Get(Fill(facts, answer), f) == Get(facts, f) {
      FillGet(facts, answer, f);
    }
  }

  ghost function WorstCase(c: ScoringConfig, facts: Facts): Facts {
    Fill(facts, f => if f == DisqualifyingFlag && GateOpen(c, facts) then NOTHING.(isTrue := true) else NOTHING)
  }

  ghost function BestCase(c: ScoringConfig, facts: Facts): Facts
    requires WellFormed(c)
  {
    Fill(facts, f => BestAnswer(c, f))
  }

  /** Some completion scores exactly the lower bound. */
  lemma LowerBoundReached(c: ScoringConfig, facts: Facts)
    requires WellFormed(c)
    ensures Completion(facts, WorstCase(c, facts))
    ensures Score(c, WorstCase(c, facts)) == ComputeBounds(c, facts).lower
  {
    var answer := f => if f == DisqualifyingFlag && GateOpen(c, facts) then NOTHING.(isTrue := true) else NOTHING;
    FillCompletes(facts, answer);
    var g := WorstCase(c, facts);
    forall f: ScoredField ensures Get(g, f) == if Known(facts, f) then Get(facts, f) else answer(f) {
      FillGet(facts, answer, f);
    }
    forall f: ScoredField | f != DisqualifyingFlag ensures PointsOf(c, g, f) == PointsOf(c, facts, f) {
      assert FieldPoints(c, f, NOTHING) == 0.0;
    }
  }

  /** Some completion scores exactly the true upper bound. */
  lemma TrueUpperReached(c: ScoringConfig, facts: Facts)
    requires WellFormed(c)
    ensures Completion(facts, BestCase(c, facts))
    ensures Score(c, BestCase(c, facts)) == TrueUpper(c, facts)
  {
    var answer := f => BestAnswer(c, f);
    FillCompletes(facts, answer);
    var g := BestCase(c, facts);
    forall f: ScoredField ensures Get(g, f) == if Known(facts, f) then Get(facts, f) else BestAnswer(c, f) {
      FillGet(facts, answer, f);
    }
    forall f: ScoredField ensures PointsOf(c, g, f) == PointsOf(c, facts, f) + Reach(c, facts, f) {
    }
  }
}
