/**
 The list pipeline behind a question about an organization's leads: choose from
 the fetched pool, filter by the plan, sort, cut to the limit. Also the
 dashboard's top leads, which use the same ranking.
 Models the selection part of answer_list_query in src/arie/copilot_service.py,
 rank_work_today and clamp_limit of src/arie/copilot.py, and the top leads of
 src/arie/dashboard.py. Case folding covers ASCII letters.
 */
module Copilot {
  import opened Scoring
  import opened Sorting
  import opened Folders
  import opened Recommendations
  import R = Research

  const MAX_LIST_LIMIT := 50
  const TOP_LEADS_LIMIT := 5

  datatype Intent =
    TopLeads | FilterLeads | NeedsResearch | MissingDecisionMaker | LowConfidence | FeedbackSummary | WorkToday

  datatype SortOption = ByPriority | ByScore | ByConfidence | ByRecency | ByCompanyName

  datatype ResearchStatus = NotNeeded | NotPerformed | Researched | Partial | Unavailable

  datatype Sentiment = Positive | Negative

  datatype Summary = Summary(
    id: nat,
    company: Option<string>,
    priority: CustomerPriority,
    nextAction: NextAction,
    score: Option<real>,
    confidence: Option<real>,
    band: Option<ConfidenceBand>,
    industry: Option<string>,
    research: ResearchStatus,
    feedback: Option<Sentiment>,
    createdAt: string)

  datatype Row = Row(summary: Summary, receipt: R.PoolRow, unknown: set<ScoredField>)

  datatype Plan = Plan(
    intent: Intent,
    priorities: set<CustomerPriority>,
    bands: set<ConfidenceBand>,
    states: set<ResearchStatus>,
    sentiment: Option<Sentiment>,
    industries: set<string>,
    companyNames: set<string>,
    limit: int,
    sort: SortOption)

  /** The thresholds and ceilings of the active profile. */
  datatype Profile = Profile(qualify: real, reject: real, ceilings: map<ScoredField, real>)

  // ----------------------------------------------------------------- ranking --

  function Rank(p: CustomerPriority): nat {
    match p case ContactFirst => 0 case WorthPursuing => 1 case Review => 2 case Skip => 3
  }

  function OrElse(x: Option<real>, missing: real): real { if x.Some? then x.value else missing }

  const LAST := -1_000_000_000.0

  /** Skips never; a review only when somebody has something to do. */
  predicate WorthToday(s: Summary) {
    s.priority != Skip && (s.priority == Review ==> s.nextAction == HumanReview || s.nextAction == FindDecisionMaker)
  }

  predicate TodayOrder(a: Summary, b: Summary) {
    if Rank(a.priority) != Rank(b.priority) then Rank(a.priority) < Rank(b.priority)
    else if OrElse(a.score, 0.0) != OrElse(b.score, 0.0) then OrElse(a.score, 0.0) > OrElse(b.score, 0.0)
    else OrElse(a.confidence, 0.0) >= OrElse(b.confidence, 0.0)
  }

  function RankWorkToday(s: seq<Summary>): seq<Summary> {
    StableSort(Filter(s, WorthToday), TodayOrder)
  }

  function LowerChar(c: char): char {
    if 'A' <= c <= 'Z' then (c as int + 32) as char else c
  }

  function Lower(s: string): string {
    seq(|s|, i requires 0 <= i < |s| => LowerChar(s[i]))
  }

  function CompanyKey(s: Summary): string {
    Lower(if s.company.Some? then s.company.value else "")
  }

  predicate PriorityOrder(a: Summary, b: Summary) { Rank(a.priority) <= Rank(b.priority) }
  predicate ScoreOrder(a: Summary, b: Summary) { OrElse(a.score, LAST) >= OrElse(b.score, LAST) }
  predicate ConfidenceOrder(a: Summary, b: Summary) { OrElse(a.confidence, LAST) >= OrElse(b.confidence, LAST) }
  predicate RecencyOrder(a: Summary, b: Summary) { LexLe(b.createdAt, a.createdAt) }
  predicate CompanyOrder(a: Summary, b: Summary) { LexLe(CompanyKey(a), CompanyKey(b)) }

  /** The order an answer is given in. */
  function OrderOf(plan: Plan): (Summary, Summary) -> bool {
    if plan.intent == WorkToday then TodayOrder
    else match plan.sort
      case ByPriority => PriorityOrder
      case ByScore => ScoreOrder
      case ByConfidence => ConfidenceOrder
      case ByRecency => RecencyOrder
      case ByCompanyName => CompanyOrder
  }

  lemma OrdersAreTotal(plan: Plan)
    ensures TotalPreorder(OrderOf(plan))
  {
    var le := OrderOf(plan);
    forall a: Summary, b: Summary ensures le(a, b) || le(b, a) {
      LexTotal(a.createdAt, b.createdAt);
      LexTotal(CompanyKey(a), CompanyKey(b));
    }
    forall a: Summary, b: Summary, c: Summary | le(a, b) && le(b, c) ensures le(a, c) {
      if le == RecencyOrder && plan.intent != WorkToday && plan.sort == ByRecency {
        LexTransitive(c.createdAt, b.createdAt, a.createdAt);
      }
      if plan.intent != WorkToday && plan.sort == ByCompanyName {
        LexTransitive(CompanyKey(a), CompanyKey(b), CompanyKey(c));
      }
    }
  }

  // --------------------------------------------------------------- selection --

  predicate Chosen(intent: Intent, row: Row, profile: Profile) {
    match intent
    case NeedsResearch => R.IsResearchable(row.receipt, profile.qualify, profile.reject, profile.ceilings)
    case MissingDecisionMaker =>
      (row.summary.priority == ContactFirst || row.summary.priority == WorthPursuing) && TitleSeniority in row.unknown
    case LowConfidence => row.summary.band == Some(Low)
    case FeedbackSummary => row.summary.feedback.Some?
    case WorkToday => WorthToday(row.summary)
    case TopLeads => true
    case FilterLeads => true
  }

  function ChosenBy(intent: Intent, profile: Profile): Row -> bool {
    (row: Row) => Chosen(intent, row, profile)
  }

  function Summaries(rows: seq<Row>): seq<Summary> {
    seq(|rows|, i requires 0 <= i < |rows| => rows[i].summary)
  }

  /** _select_candidates. */
  function Candidates(intent: Intent, rows: seq<Row>, profile: Profile): seq<Summary> {
    if intent == WorkToday then RankWorkToday(Summaries(rows))
    else Summaries(Filter(rows, ChosenBy(intent, profile)))
  }

  // ----------------------------------------------------------------- filters --

  predicate Contains(s: string, part: string) {
    exists i :: 0 <= i <= |s| && part <= s[i..]
  }

  predicate PriorityFits(plan: Plan, s: Summary) { plan.priorities != {} ==> s.priority in plan.priorities }
  predicate BandFits(plan: Plan, s: Summary) { plan.bands != {} ==> s.band.Some? && s.band.value in plan.bands }
  predicate StateFits(plan: Plan, s: Summary) { plan.states != {} ==> s.research in plan.states }
  predicate SentimentFits(plan: Plan, s: Summary) { plan.sentiment.Some? ==> s.feedback == plan.sentiment }
  predicate IndustryFits(plan: Plan, s: Summary) {
    plan.industries != {} ==>
      s.industry.Some? && exists i :: i in plan.industries && Lower(i) == Lower(s.industry.value)
  }
  predicate CompanyFits(plan: Plan, s: Summary) {
    plan.companyNames != {} ==>
      s.company.Some? && exists n :: n in plan.companyNames && Contains(Lower(s.company.value), Lower(n))
  }

  predicate Passes(plan: Plan, s: Summary) {
    PriorityFits(plan, s) && BandFits(plan, s) && StateFits(plan, s) && SentimentFits(plan, s)
    && IndustryFits(plan, s) && CompanyFits(plan, s)
  }

  function PassesOf(plan: Plan): Summary -> bool { (s: Summary) => Passes(plan, s) }

  /** _apply_plan_filters: the six filters one after the other keep exactly what meets all of them, in order. */
  method ApplyPlanFilters(summaries: seq<Summary>, plan: Plan) returns (result: seq<Summary>)
    ensures result == Filter(summaries, PassesOf(plan))
  {
    result := summaries;
    ghost var kept := (s: Summary) => true;
    FilterMembers(summaries, kept);
    result, kept :=
      FilterStage(summaries, result, plan.priorities != {}, kept, (s: Summary) => s.priority in plan.priorities);
    result, kept := FilterStage(summaries, result, plan.bands != {}, kept,
                                (s: Summary) => s.band.Some? && s.band.value in plan.bands);
    result, kept := FilterStage(summaries, result, plan.states != {}, kept, (s: Summary) => s.research in plan.states);
    assert forall s: Summary :: kept(s) <==> PriorityFits(plan, s) && BandFits(plan, s) && StateFits(plan, s);
    result, kept :=
      FilterStage(summaries, result, plan.sentiment.Some?, kept, (s: Summary) => s.feedback == plan.sentiment);
    result, kept := FilterStage(summaries, result, plan.industries != {}, kept, (s: Summary) => s.industry.Some?
                                && exists i :: i in plan.industries && Lower(i) == Lower(s.industry.value));
    result, kept := FilterStage(summaries, result, plan.companyNames != {}, kept, (s: Summary) => s.company.Some?
                                && exists n :: n in plan.companyNames && Contains(Lower(s.company.value), Lower(n)));
    SameFilter(summaries, kept, PassesOf(plan));
  }

  /** One conditional narrowing of the list. */
  method FilterStage(all: seq<Summary>, list: seq<Summary>, active: bool, ghost kept: Summary -> bool,
                     keep: Summary -> bool)
    returns (next: seq<Summary>, ghost nowKept: Summary -> bool)
    requires list == Filter(all, kept)
    ensures next == Filter(all, nowKept)
    ensures forall s: Summary :: nowKept(s) <==> kept(s) && (active ==> keep(s))
  {
    if !active { return list, kept; }
    nowKept := (s: Summary) => kept(s) && keep(s);
    FilterTwice(all, kept, keep, nowKept);
    next := Filter(list, keep);
  }

  lemma {:induction false} SameFilter<T(!new)>(s: seq<T>, p: T -> bool, q: T -> bool)
    requires forall x :: p(x) <==> q(x)
    ensures Filter(s, p) == Filter(s, q)
  {
    if s != [] { SameFilter(s[1..], p, q); }
  }

  // ------------------------------------------------------------------ answer --

  function ClampLimit(limit: int): int {
    if limit < 1 then 1 else if limit > MAX_LIST_LIMIT then MAX_LIST_LIMIT else limit
  }

  function Take<T>(s: seq<T>, n: nat): seq<T> { if n <= |s| then s[..n] else s }

  /** Everything that could be answered, in the order it is answered in. */
  function Ordered(plan: Plan, rows: seq<Row>, profile: Profile): seq<Summary> {
    var kept := Filter(Candidates(plan.intent, rows, profile), PassesOf(plan));
    if plan.intent == WorkToday then kept else StableSort(kept, OrderOf(plan))
  }

  /** answer_list_query, from the fetched pool to the listed leads. */
  method AnswerListQuery(plan: Plan, rows: seq<Row>, profile: Profile) returns (answer: seq<Summary>)
    ensures answer == Take(Ordered(plan, rows, profile), ClampLimit(plan.limit))
  {
    var limit := ClampLimit(plan.limit);
    var candidates := Candidates(plan.intent, rows, profile);
    candidates := ApplyPlanFilters(candidates, plan);
    if plan.intent != WorkToday { candidates := StableSort(candidates, OrderOf(plan)); }
    answer := Take(candidates, limit);
  }

  predicate DistinctLeads(rows: seq<Row>) {
    forall i, j :: 0 <= i < j < |rows| ==> rows[i].summary.id != rows[j].summary.id
  }

  predicate Qualifies(plan: Plan, row: Row, profile: Profile) {
    Chosen(plan.intent, row, profile) && Passes(plan, row.summary)
  }

  lemma InSummaries(rows: seq<Row>, s: Summary)
    ensures s in Summaries(rows) <==> exists row :: row in rows && row.summary == s
  {
    if s in Summaries(rows) {
      var i :| 0 <= i < |rows| && Summaries(rows)[i] == s;
      assert rows[i] in rows;
    }
    if row :| row in rows && row.summary == s {
      var i :| 0 <= i < |rows| && rows[i] == row;
      assert Summaries(rows)[i] == s;
    }
  }

  lemma {:induction false} SummariesOfFiltered(rows: seq<Row>, keep: Row -> bool)
    requires DistinctLeads(rows)
    ensures Distinct(Summaries(Filter(rows, keep)))
  {
    assert Distinct(rows);
    FilterKeepsDistinct(rows, keep);
    FilterMembers(rows, keep);
    var kept := Filter(rows, keep);
    forall i, j | 0 <= i < j < |kept| ensures Summaries(kept)[i] != Summaries(kept)[j] {
      assert kept[i] in kept && kept[j] in kept;
    }
  }

  lemma CandidatesAre(intent: Intent, rows: seq<Row>, profile: Profile, s: Summary)
    requires DistinctLeads(rows)
    ensures Distinct(Candidates(intent, rows, profile))
    ensures s in Candidates(intent, rows, profile) <==>
            exists row :: row in rows && row.summary == s && Chosen(intent, row, profile)
  {
    if intent == WorkToday {
      var all := Summaries(rows);
      OrdersAreTotal(Plan(WorkToday, {}, {}, {}, None, {}, {}, 1, ByPriority));
      InSummaries(rows, s);
      FilterMembers(all, WorthToday);
      FilterKeepsDistinct(all, WorthToday);
      SortKeepsDistinct(Filter(all, WorthToday), TodayOrder);
    } else {
      var keep := ChosenBy(intent, profile);
      SummariesOfFiltered(rows, keep);
      FilterMembers(rows, keep);
      InSummaries(Filter(rows, keep), s);
    }
  }

  /** The full ordering: exactly the qualifying leads of the pool, each once, sorted by the plan's order. */
  lemma OrderedIsExact(plan: Plan, rows: seq<Row>, profile: Profile)
    requires DistinctLeads(rows)
    ensures Distinct(Ordered(plan, rows, profile)) && Sorted(Ordered(plan, rows, profile), OrderOf(plan))
    ensures forall s: Summary :: s in Ordered(plan, rows, profile) <==>
              exists row :: row in rows && row.summary == s && Qualifies(plan, row, profile)
  {
    var candidates := Candidates(plan.intent, rows, profile);
    var kept := Filter(candidates, PassesOf(plan));
    OrdersAreTotal(plan);
    FilterMembers(candidates, PassesOf(plan));
    forall s: Summary
      ensures s in kept <==> exists row :: row in rows && row.summary == s && Qualifies(plan, row, profile) {
      CandidatesAre(plan.intent, rows, profile, s);
    }
    CandidatesAre(plan.intent, rows, profile,
                  Summary(0, None, Skip, SkipLead, None, None, None, None, NotNeeded, None, ""));
    FilterKeepsDistinct(candidates, PassesOf(plan));
    if plan.intent == WorkToday {
      SortIsSorted(Filter(Summaries(rows), WorthToday), TodayOrder);
      FilterSorted(candidates, PassesOf(plan), TodayOrder);
    } else {
      SortKeepsDistinct(kept, OrderOf(plan));
      SortIsSorted(kept, OrderOf(plan));
    }
  }

  /** How two listed leads stand, in the plan's own terms: by priority, contact-first before worth-pursuing before
      review before skip; by score or confidence, the larger first, a missing one counting as minus a billion; by
      recency, the later timestamp first; by company, the name that comes first once case is folded, a missing name
      as empty. */
  lemma ListedInOrder(plan: Plan, rows: seq<Row>, profile: Profile, i: nat, j: nat)
    requires DistinctLeads(rows) && plan.intent != WorkToday && i < j < |Ordered(plan, rows, profile)|
    ensures var a, b := Ordered(plan, rows, profile)[i], Ordered(plan, rows, profile)[j];
            && (plan.sort == ByPriority ==>
                  && (a.priority == WorthPursuing ==> b.priority != ContactFirst)
                  && (a.priority == Review ==> b.priority == Review || b.priority == Skip)
                  && (a.priority == Skip ==> b.priority == Skip))
            && (plan.sort == ByScore ==> LargerFirst(a.score, b.score))
            && (plan.sort == ByConfidence ==> LargerFirst(a.confidence, b.confidence))
            && (plan.sort == ByRecency ==> LexLe(b.createdAt, a.createdAt))
            && (plan.sort == ByCompanyName ==>
                  LexLe(Lower(if a.company.Some? then a.company.value else ""),
                        Lower(if b.company.Some? then b.company.value else "")))
  {
    OrderedIsExact(plan, rows, profile);
  }

  predicate LargerFirst(a: Option<real>, b: Option<real>) {
    && (a.Some? && b.Some? ==> a.value >= b.value)
    && (a.None? && b.Some? ==> b.value <= -1_000_000_000.0)
    && (a.Some? && b.None? ==> a.value >= -1_000_000_000.0)
  }

  /** Folding changes the capital letters of ASCII and nothing else. */
  lemma FoldingIsAscii(s: string, i: nat)
    requires i < |s|
    ensures |Lower(s)| == |s|
    ensures 'A' <= s[i] <= 'Z' ==> Lower(s)[i] as int - 'a' as int == s[i] as int - 'A' as int
    ensures !('A' <= s[i] <= 'Z') ==> Lower(s)[i] == s[i]
  {
  }

  /** Who is listed, read off the question and the filters. */
  lemma ListedIff(plan: Plan, rows: seq<Row>, profile: Profile, s: Summary)
    requires DistinctLeads(rows)
    ensures s in Ordered(plan, rows, profile) <==>
            exists row :: row in rows && row.summary == s && Suits(plan.intent, row, profile) && MeetsFilters(plan, s)
  {
    OrderedIsExact(plan, rows, profile);
    FiltersMean(plan, s);
    forall row: Row | row.summary == s
      ensures Qualifies(plan, row, profile) <==> Suits(plan.intent, row, profile) && MeetsFilters(plan, s) {
    }
  }

  lemma FiltersMean(plan: Plan, s: Summary)
    ensures Passes(plan, s) <==> MeetsFilters(plan, s)
  {
    if s.company.Some? {
      forall n ensures Contains(Lower(s.company.value), Lower(n)) <==>
                       exists k :: OccursAt(Lower(s.company.value), Lower(n), k) {
        ContainsIff(Lower(s.company.value), Lower(n));
      }
    }
  }

  /** What each question asks for. */
  predicate Suits(intent: Intent, row: Row, profile: Profile) {
    var s := row.summary;
    && (intent == NeedsResearch ==>
          R.IsResearchable(row.receipt, profile.qualify, profile.reject, profile.ceilings))
    && (intent == MissingDecisionMaker ==> TitleSeniority in row.unknown && s.priority in {ContactFirst, WorthPursuing})
    && (intent == LowConfidence ==> s.band == Some(Low))
    && (intent == FeedbackSummary ==> s.feedback != None)
    && (intent == WorkToday ==>
          s.priority in {ContactFirst, WorthPursuing}
          || (s.priority == Review && s.nextAction in {HumanReview, FindDecisionMaker}))
  }

  /** What the filters ask for; one that is not set asks for nothing. */
  ghost predicate MeetsFilters(plan: Plan, s: Summary) {
    && (plan.priorities == {} || s.priority in plan.priorities)
    && (plan.bands == {} || exists b :: b in plan.bands && s.band == Some(b))
    && (plan.states == {} || s.research in plan.states)
    && (plan.sentiment == None || s.feedback == plan.sentiment)
    && (plan.industries == {} ||
        exists i :: i in plan.industries && s.industry.Some? && Lower(i) == Lower(s.industry.value))
    && (plan.companyNames == {} ||
        exists n :: n in plan.companyNames && s.company.Some?
          && exists k :: OccursAt(Lower(s.company.value), Lower(n), k))
  }

  predicate OccursAt(whole: string, part: string, k: int) {
    0 <= k <= |whole| - |part| && whole[k..k + |part|] == part
  }

  lemma ContainsIff(whole: string, part: string)
    ensures Contains(whole, part) <==> exists k :: OccursAt(whole, part, k)
  {
    if k :| 0 <= k <= |whole| && part <= whole[k..] {
      assert whole[k..][..|part|] == whole[k..k + |part|];
      assert OccursAt(whole, part, k);
    }
    if k :| OccursAt(whole, part, k) {
      assert whole[k..][..|part|] == whole[k..k + |part|];
      assert part <= whole[k..];
    }
  }

  /** What a list answer is, for any plan and pool: at most the clamped limit and never more than fifty; qualifying
      leads of the pool, each once; in the plan's order; and nothing left out comes strictly before anything listed.
      */
  lemma AnswerIsTheBestOfThePool(plan: Plan, rows: seq<Row>, profile: Profile, answer: seq<Summary>)
    requires DistinctLeads(rows) && answer == Take(Ordered(plan, rows, profile), ClampLimit(plan.limit))
    ensures |answer| <= 50 && (1 <= plan.limit ==> |answer| <= plan.limit) && (plan.limit < 1 ==> |answer| <= 1)
    ensures Distinct(answer) && Sorted(answer, OrderOf(plan))
    ensures forall s :: s in answer ==> exists row :: row in rows && row.summary == s && Qualifies(plan, row, profile)
    ensures forall row, s :: row in rows && Qualifies(plan, row, profile) && row.summary !in answer && s in answer ==>
              OrderOf(plan)(s, row.summary)
    ensures |answer| < (if plan.limit < 1 then 1 else if plan.limit > 50 then 50 else plan.limit) ==>
              forall row :: row in rows && Qualifies(plan, row, profile) ==> row.summary in answer
  {
    var all := Ordered(plan, rows, profile);
    OrderedIsExact(plan, rows, profile);
    assert forall s :: s in answer ==> s in all;
    forall row, s | row in rows && Qualifies(plan, row, profile) && row.summary !in answer && s in answer
      ensures OrderOf(plan)(s, row.summary) {
      assert row.summary in all;
      var i :| 0 <= i < |answer| && answer[i] == s;
      var j :| 0 <= j < |all| && all[j] == row.summary;
      assert |answer| <= j by { assert forall k :: 0 <= k < |answer| ==> all[k] == answer[k] && answer[k] in answer; }
    }
  }

  // -------------------------------------------------------------- work today --

  /** For "what should I work on today", filtering the ranked leads is ranking the filtered leads. */
  lemma FilteringCommutesWithRanking(s: seq<Summary>, plan: Plan)
    ensures Filter(RankWorkToday(s), PassesOf(plan)) == RankWorkToday(Filter(s, PassesOf(plan)))
  {
    OrdersAreTotal(plan.(intent := WorkToday));
    FilterCommutesWithSort(Filter(s, WorthToday), PassesOf(plan), TodayOrder);
    var both := (x: Summary) => WorthToday(x) && Passes(plan, x);
    FilterTwice(s, WorthToday, PassesOf(plan), both);
    FilterTwice(s, PassesOf(plan), WorthToday, both);
  }

  /** What the ranking lists: every lead worth today's work and no other, contact-first before worth-pursuing before
      review, within one priority the higher score first, within one score the higher confidence first. */
  lemma TodayListsTheUrgentFirst(s: seq<Summary>, i: nat, j: nat)
    requires i < j < |RankWorkToday(s)|
    ensures var a, b := RankWorkToday(s)[i], RankWorkToday(s)[j];
            && (a.priority == WorthPursuing ==> b.priority != ContactFirst)
            && (a.priority == Review ==> b.priority == Review)
            && (a.priority == b.priority && a.score.Some? && b.score.Some? ==> a.score.value >= b.score.value)
            && (a.priority == b.priority && a.score == b.score && a.confidence.Some? && b.confidence.Some? ==>
                  a.confidence.value >= b.confidence.value)
    ensures forall x :: x in RankWorkToday(s) <==> x in s && WorthToday(x)
    ensures forall x :: x in RankWorkToday(s) ==> x.priority != Skip
  {
    var kept := Filter(s, WorthToday);
    FilterMembers(s, WorthToday);
    OrdersAreTotal(Plan(WorkToday, {}, {}, {}, None, {}, {}, 1, ByPriority));
    SortIsSorted(kept, TodayOrder);
    MembersOf(RankWorkToday(s), kept);
    assert TodayOrder(RankWorkToday(s)[i], RankWorkToday(s)[j]);
    assert RankWorkToday(s)[i] in RankWorkToday(s) && RankWorkToday(s)[j] in RankWorkToday(s);
  }

  /** Leads the chosen order cannot tell apart stay in the order they were fetched in. */
  lemma TiesStayInFetchOrder(plan: Plan, rows: seq<Row>, profile: Profile, x: Summary, tie: Summary -> bool)
    requires plan.intent != WorkToday
    requires forall y :: tie(y) <==> OrderOf(plan)(x, y) && OrderOf(plan)(y, x)
    ensures Filter(Ordered(plan, rows, profile), tie) ==
            Filter(Filter(Candidates(plan.intent, rows, profile), PassesOf(plan)), tie)
  {
    OrdersAreTotal(plan);
    TiesKeepOrder(Filter(Candidates(plan.intent, rows, profile), PassesOf(plan)), x, OrderOf(plan), tie);
  }

  predicate Unfiltered(plan: Plan) {
    plan.priorities == {} && plan.bands == {} && plan.states == {} && plan.sentiment == None
    && plan.industries == {} && plan.companyNames == {}
  }

  /** load_dashboard's top leads. */
  function TopLeads5(rows: seq<Row>): seq<Summary> {
    Take(RankWorkToday(Summaries(rows)), TOP_LEADS_LIMIT)
  }

  /** The dashboard's top leads open the unfiltered answer to "what should I work on today". */
  lemma DashboardAgreesWithCopilot(plan: Plan, rows: seq<Row>, profile: Profile, answer: seq<Summary>)
    requires plan.intent == WorkToday && Unfiltered(plan) && plan.limit >= 5
    requires answer == Take(Ordered(plan, rows, profile), ClampLimit(plan.limit))
    ensures TopLeads5(rows) <= answer
    ensures TopLeads5(rows) == if |answer| <= 5 then answer else answer[..5]
  {
    FilterMembers(RankWorkToday(Summaries(rows)), PassesOf(plan));
  }

  // ------------------------------------------------------------ named fetches --

  ghost predicate Has(rows: seq<Row>, id: nat) {
    exists row :: row in rows && row.summary.id == id
  }

  /** _fetch_by_company_names: the rows of each name's lookup, keeping the first occurrence of a lead. */
  method MergeLookups(lookups: seq<seq<Row>>) returns (results: seq<Row>)
    ensures DistinctLeads(results)
    ensures forall row :: row in results ==> exists i :: 0 <= i < |lookups| && row in lookups[i]
    ensures forall i, row :: 0 <= i < |lookups| && row in lookups[i] ==>
              Has(results, row.summary.id)
    ensures |lookups| > 0 && DistinctLeads(lookups[0]) ==> lookups[0] <= results
  {
    results := [];
    var seen: set<nat> := {};
    var i := 0;
    while i < |lookups|
      invariant 0 <= i <= |lookups| && DistinctLeads(results) && Seen(results, seen)
      invariant forall row :: row in results ==> exists k :: 0 <= k < |lookups| && row in lookups[k]
      invariant forall k, row :: 0 <= k < i && row in lookups[k] ==> row.summary.id in seen
      invariant i == 0 ==> results == []
      invariant i > 0 && DistinctLeads(lookups[0]) ==> lookups[0] <= results
    {
      results, seen := AddRows(results, seen, lookups[i]);
      i := i + 1;
    }
    forall k, row | 0 <= k < |lookups| && row in lookups[k] ensures Has(results, row.summary.id) {
      assert row.summary.id in seen;
    }
  }

  /** One lookup's rows: those of leads not seen yet are appended in order. */
  method AddRows(before: seq<Row>, had: set<nat>, rows: seq<Row>) returns (results: seq<Row>, seen: set<nat>)
    requires DistinctLeads(before) && Seen(before, had)
    ensures DistinctLeads(results) && Seen(results, seen)
    ensures before <= results && had <= seen && forall row :: row in rows ==> row.summary.id in seen
    ensures forall row :: row in results ==> row in before || row in rows
    ensures before == [] && DistinctLeads(rows) ==> results == rows
  {
    results, seen := before, had;
    var j := 0;
    while j < |rows|
      invariant 0 <= j <= |rows| && DistinctLeads(results) && Seen(results, seen) && had <= seen && before <= results
      invariant forall row :: row in results ==> row in before || row in rows
      invariant forall k :: 0 <= k < j ==> rows[k].summary.id in seen
      invariant before == [] && DistinctLeads(rows) ==> results == rows[..j]
    {
      var row := rows[j];
      if row.summary.id !in seen {
        SeenGrows(results, seen, row);
        seen := seen + {row.summary.id};
        results := results + [row];
      }
      j := j + 1;
    }
  }

  lemma SeenGrows(results: seq<Row>, seen: set<nat>, row: Row)
    requires DistinctLeads(results) && Seen(results, seen) && row.summary.id !in seen
    ensures DistinctLeads(results + [row]) && Seen(results + [row], seen + {row.summary.id})
  {
    var now := results + [row];
    forall i | 0 <= i < |results| ensures now[i].summary.id != row.summary.id { assert results[i] in results; }
    assert now[|results|] == row && row in now;
    forall id | id in seen ensures Has(now, id) {
      var r :| r in results && r.summary.id == id;
      assert r in now;
    }
  }

  /** `seen` holds exactly the ids of the rows kept. */
  ghost predicate Seen(results: seq<Row>, seen: set<nat>) {
    && (forall row :: row in results ==> row.summary.id in seen)
    && (forall id :: id in seen ==> Has(results, id))
  }
}
