/**
 What a policy that stops early changed against full enrichment: the counters
 behind the regret figures and the balance they keep.
 Models counterfactual_regret of bench/metrics.py.
 */
module Regret {

  type LeadId = nat
  type Verdict = nat

  datatype Record = Record(lead: LeadId, decision: Verdict, correct: bool)

  type ById = map<LeadId, Record>

  /** {r.lead: r for r in records}: a later record of a lead replaces an earlier one. */
  function Index(records: seq<Record>): ById {
    if records == [] then map[]
    else Index(records[..|records| - 1])[records[|records| - 1].lead := records[|records| - 1]]
  }

  predicate DistinctLeads(records: seq<Record>) {
    forall i, j :: 0 <= i < j < |records| ==> records[i].lead != records[j].lead
  }

  function Leads(records: seq<Record>): set<LeadId> {
    if records == [] then {} else Leads(records[..|records| - 1]) + {records[|records| - 1].lead}
  }

  /** decision_agreement's numerator. */
  function Correct(records: seq<Record>): nat {
    if records == [] then 0
    else Correct(records[..|records| - 1]) + if records[|records| - 1].correct then 1 else 0
  }

  datatype Effect = Same | Improved | Worsened | Sideways

  /** How one decision compares with the reference's for the same lead. */
  function EffectOf(base: ById, r: Record): Effect {
    if r.lead !in base || base[r.lead].decision == r.decision then Same
    else if r.correct && !base[r.lead].correct then Improved
    else if base[r.lead].correct && !r.correct then Worsened
    else Sideways
  }

  function Count(base: ById, records: seq<Record>, e: Effect): nat {
    if records == [] then 0
    else Count(base, records[..|records| - 1], e) + if EffectOf(base, records[|records| - 1]) == e then 1 else 0
  }

  /** counterfactual_regret's counters. */
  method CounterfactualRegret(reference: seq<Record>, policy: seq<Record>)
    returns (changed: nat, improved: nat, worsened: nat)
    ensures changed == |set i | 0 <= i < |policy| && Differs(reference, policy, i)|
    ensures improved == |set i | 0 <= i < |policy| && Improves(reference, policy, i)|
    ensures worsened == |set i | 0 <= i < |policy| && Worsens(reference, policy, i)|
    ensures improved == Count(Index(reference), policy, Improved)
    ensures worsened == Count(Index(reference), policy, Worsened)
    ensures improved + worsened <= changed <= |policy|
  {
    var byId: ById := map[];
    var i := 0;
    while i < |reference|
      invariant 0 <= i <= |reference| && byId == Index(reference[..i])
    {
      assert reference[..i + 1][..i] == reference[..i];
      byId := byId[reference[i].lead := reference[i]];
      i := i + 1;
    }
    assert reference[..i] == reference;
    changed, improved, worsened := 0, 0, 0;
    i := 0;
    while i < |policy|
      invariant 0 <= i <= |policy|
      invariant improved == Count(byId, policy[..i], Improved) && worsened == Count(byId, policy[..i], Worsened)
      invariant changed == improved + worsened + Count(byId, policy[..i], Sideways) <= i
    {
      assert policy[..i + 1][..i] == policy[..i];
      var r := policy[i];
      i := i + 1;
      if r.lead !in byId || byId[r.lead].decision == r.decision { continue; }
      changed := changed + 1;
      if r.correct && !byId[r.lead].correct {
        improved := improved + 1;
      } else if byId[r.lead].correct && !r.correct {
        worsened := worsened + 1;
      }
    }
    assert policy[..i] == policy;
    CountersCount(reference, policy);
  }

  // ---------------------------------------------------- what is counted --

  /** Record k is the last the reference holds of the lead. */
  predicate IsLast(records: seq<Record>, lead: LeadId, k: int) {
    0 <= k < |records| && records[k].lead == lead && forall j :: k < j < |records| ==> records[j].lead != lead
  }

  /** One record more: it is the last of its own lead, and nobody else's last changes. */
  lemma LastGrows(records: seq<Record>, lead: LeadId)
    requires records != []
    ensures var n := |records| - 1;
            && (records[n].lead == lead ==> forall k: int :: IsLast(records, lead, k) <==> k == n)
            && (records[n].lead != lead ==>
                  forall k: int :: IsLast(records, lead, k) <==> IsLast(records[..n], lead, k))
  {
    var n := |records| - 1;
    forall k: int | records[n].lead != lead ensures IsLast(records, lead, k) <==> IsLast(records[..n], lead, k) {
      assert forall j :: 0 <= j < n ==> records[..n][j] == records[j];
    }
  }

  lemma {:induction false} IndexIsLast(records: seq<Record>, lead: LeadId)
    ensures forall k: int :: IsLast(records, lead, k) ==> lead in Index(records) && Index(records)[lead] == records[k]
    ensures lead in Index(records) ==> exists k :: IsLast(records, lead, k)
  {
    if records != [] {
      var n := |records| - 1;
      LastGrows(records, lead);
      IndexIsLast(records[..n], lead);
      if records[n].lead == lead {
        assert IsLast(records, lead, n);
      } else if lead in Index(records) {
        var k :| IsLast(records[..n], lead, k);
        assert IsLast(records, lead, k);
      }
    }
  }

  /** The reference decided the lead of policy record i, and differently. */
  ghost predicate Differs(reference: seq<Record>, policy: seq<Record>, i: nat) {
    i < |policy| && exists k :: IsLast(reference, policy[i].lead, k) && reference[k].decision != policy[i].decision
  }

  /** It differs, and the policy is right where the reference is wrong. */
  ghost predicate Improves(reference: seq<Record>, policy: seq<Record>, i: nat) {
    i < |policy| && policy[i].correct
    && exists k :: IsLast(reference, policy[i].lead, k) && reference[k].decision != policy[i].decision
                   && !reference[k].correct
  }

  /** It differs, and the policy is wrong where the reference is right. */
  ghost predicate Worsens(reference: seq<Record>, policy: seq<Record>, i: nat) {
    i < |policy| && !policy[i].correct
    && exists k :: IsLast(reference, policy[i].lead, k) && reference[k].decision != policy[i].decision
                   && reference[k].correct
  }

  lemma EffectMeans(reference: seq<Record>, policy: seq<Record>, i: nat)
    requires i < |policy|
    ensures var e := EffectOf(Index(reference), policy[i]);
            && (e != Same <==> Differs(reference, policy, i))
            && (e == Improved <==> Improves(reference, policy, i))
            && (e == Worsened <==> Worsens(reference, policy, i))
  {
    IndexIsLast(reference, policy[i].lead);
  }

  /** The positions of the records with an effect. */
  function Having(base: ById, records: seq<Record>, e: Effect): set<nat> {
    set i | 0 <= i < |records| && EffectOf(base, records[i]) == e
  }

  lemma HavingGrows(base: ById, records: seq<Record>, e: Effect)
    requires records != []
    ensures var n := |records| - 1;
            Having(base, records, e) ==
            Having(base, records[..n], e) + if EffectOf(base, records[n]) == e then {n as nat} else {}
  {
    var n := |records| - 1;
    forall i | 0 <= i < n ensures records[..n][i] == records[i] {
    }
  }

  lemma {:induction false} CountIsCard(base: ById, records: seq<Record>, e: Effect)
    ensures Count(base, records, e) == |Having(base, records, e)|
  {
    if records != [] {
      CountIsCard(base, records[..|records| - 1], e);
      HavingGrows(base, records, e);
    }
  }

  lemma ImprovedAre(reference: seq<Record>, policy: seq<Record>)
    ensures Having(Index(reference), policy, Improved) == set i | 0 <= i < |policy| && Improves(reference, policy, i)
    ensures Having(Index(reference), policy, Worsened) == set i | 0 <= i < |policy| && Worsens(reference, policy, i)
  {
    forall i | 0 <= i < |policy|
      ensures EffectOf(Index(reference), policy[i]) == Improved <==> Improves(reference, policy, i)
      ensures EffectOf(Index(reference), policy[i]) == Worsened <==> Worsens(reference, policy, i) {
      EffectMeans(reference, policy, i);
    }
  }

  lemma ChangedAre(reference: seq<Record>, policy: seq<Record>)
    ensures var base := Index(reference);
            Having(base, policy, Improved) + Having(base, policy, Worsened) + Having(base, policy, Sideways) ==
            set i | 0 <= i < |policy| && Differs(reference, policy, i)
  {
    forall i | 0 <= i < |policy|
      ensures EffectOf(Index(reference), policy[i]) != Same <==> Differs(reference, policy, i) {
      EffectMeans(reference, policy, i);
    }
  }

  /** The three counters are numbers of policy records, told apart by the two decisions and who was right. */
  lemma CountersCount(reference: seq<Record>, policy: seq<Record>)
    ensures var base := Index(reference);
            && Count(base, policy, Improved) + Count(base, policy, Worsened) + Count(base, policy, Sideways) ==
               |set i | 0 <= i < |policy| && Differs(reference, policy, i)|
            && Count(base, policy, Improved) == |set i | 0 <= i < |policy| && Improves(reference, policy, i)|
            && Count(base, policy, Worsened) == |set i | 0 <= i < |policy| && Worsens(reference, policy, i)|
  {
    var base := Index(reference);
    ImprovedAre(reference, policy);
    ChangedAre(reference, policy);
    CountIsCard(base, policy, Improved);
    CountIsCard(base, policy, Worsened);
    CountIsCard(base, policy, Sideways);
    var improved, worsened := Having(base, policy, Improved), Having(base, policy, Worsened);
    assert |improved + worsened| == |improved| + |worsened|;
    assert |improved + worsened + Having(base, policy, Sideways)| ==
      |improved + worsened| + |Having(base, policy, Sideways)|;
  }

  // ------------------------------------------------------------- the balance --

  /** Correctness is agreement with one oracle answer per lead. */
  ghost predicate JudgedBy(records: seq<Record>, oracle: LeadId -> Verdict) {
    forall i :: 0 <= i < |records| ==> (records[i].correct <==> records[i].decision == oracle(records[i].lead))
  }

  function CorrectLeads(base: ById): set<LeadId> {
    set id | id in base && base[id].correct
  }

  function CountIn(records: seq<Record>, good: set<LeadId>): nat {
    if records == [] then 0
    else CountIn(records[..|records| - 1], good) + if records[|records| - 1].lead in good then 1 else 0
  }

  lemma {:induction false} IndexFinds(records: seq<Record>)
    requires DistinctLeads(records)
    ensures forall i :: 0 <= i < |records| ==>
              records[i].lead in Index(records) && Index(records)[records[i].lead] == records[i]
    ensures forall id :: id in Index(records) ==> Index(records)[id] in records && Index(records)[id].lead == id
  {
    if records != [] { IndexFinds(records[..|records| - 1]); }
  }

  /** Counting records of distinct leads is counting leads: the order does not matter. */
  lemma {:induction false} CountIsSet(records: seq<Record>, good: set<LeadId>)
    requires DistinctLeads(records)
    ensures CountIn(records, good) == |Leads(records) * good|
  {
    if records != [] {
      var front, last := records[..|records| - 1], records[|records| - 1];
      CountIsSet(front, good);
      LeadsAre(front, last.lead);
      if last.lead in good {
        assert Leads(records) * good == Leads(front) * good + {last.lead};
      } else {
        assert Leads(records) * good == Leads(front) * good;
      }
    }
  }

  lemma {:induction false} LeadsAre(records: seq<Record>, id: LeadId)
    ensures id in Leads(records) <==> exists i :: 0 <= i < |records| && records[i].lead == id
  {
    if records != [] {
      var front := records[..|records| - 1];
      LeadsAre(front, id);
      if i :| 0 <= i < |front| && front[i].lead == id { assert records[i].lead == id; }
    }
  }

  /** Correct records of leads outside the given ones. */
  function CorrectOutside(records: seq<Record>, others: set<LeadId>): nat {
    if records == [] then 0
    else
      CorrectOutside(records[..|records| - 1], others)
      + if records[|records| - 1].correct && records[|records| - 1].lead !in others then 1 else 0
  }

  /** Record by record: gains, and what was correct before or is correct without a counterpart, make up losses and
      what is correct. */
  lemma {:induction false} GainsAddUp(base: ById, records: seq<Record>, oracle: LeadId -> Verdict)
    requires JudgedBy(records, oracle)
    requires forall id :: id in base ==> (base[id].correct <==> base[id].decision == oracle(id))
    ensures Count(base, records, Improved) + CountIn(records, CorrectLeads(base)) + CorrectOutside(records, base.Keys)
            == Count(base, records, Worsened) + Correct(records)
  {
    if records != [] { GainsAddUp(base, records[..|records| - 1], oracle); }
  }

  /** Correct records split into those with a counterpart and those without. */
  lemma {:induction false} CorrectSplits(records: seq<Record>, good: set<LeadId>, others: set<LeadId>)
    requires forall i :: 0 <= i < |records| ==> (records[i].correct <==> records[i].lead in good)
    ensures Correct(records) == CountIn(records, good * others) + CorrectOutside(records, others)
  {
    if records != [] { CorrectSplits(records[..|records| - 1], good, others); }
  }

  lemma IndexKeys(records: seq<Record>)
    requires DistinctLeads(records)
    ensures Index(records).Keys == Leads(records)
  {
    IndexFinds(records);
    forall id: LeadId ensures id in Index(records) <==> id in Leads(records) {
      LeadsAre(records, id);
    }
  }

  /** For distinct leads judged by one oracle: gained minus lost differs from the difference in correct decisions by
      exactly what each policy got right on leads the other never decided. */
  lemma RegretAccounts(reference: seq<Record>, policy: seq<Record>, oracle: LeadId -> Verdict)
    requires DistinctLeads(reference) && DistinctLeads(policy)
    requires JudgedBy(reference, oracle) && JudgedBy(policy, oracle)
    ensures (Count(Index(reference), policy, Improved) - Count(Index(reference), policy, Worsened))
            - (Correct(policy) - Correct(reference)) ==
            CorrectOutside(reference, Leads(policy)) - CorrectOutside(policy, Leads(reference))
  {
    var base := Index(reference);
    var good := CorrectLeads(base);
    IndexFinds(reference);
    IndexKeys(reference);
    GainsAddUp(base, policy, oracle);
    CorrectSplits(reference, good, Leads(policy));
    CountIsSet(reference, good * Leads(policy));
    CountIsSet(policy, good);
    assert Leads(reference) * (good * Leads(policy)) == Leads(policy) * good;
  }

  /** The balance holds exactly when the policies were right equally often on the leads only one of them decided. */
  lemma RegretBalancesIff(reference: seq<Record>, policy: seq<Record>, oracle: LeadId -> Verdict)
    requires DistinctLeads(reference) && DistinctLeads(policy)
    requires JudgedBy(reference, oracle) && JudgedBy(policy, oracle)
    ensures Count(Index(reference), policy, Improved) - Count(Index(reference), policy, Worsened) ==
            Correct(policy) - Correct(reference)
            <==>
            CorrectOutside(policy, Leads(reference)) == CorrectOutside(reference, Leads(policy))
  {
    RegretAccounts(reference, policy, oracle);
  }

  lemma {:induction false} NothingOutside(records: seq<Record>, others: set<LeadId>)
    requires Leads(records) <= others
    ensures CorrectOutside(records, others) == 0
  {
    if records != [] { NothingOutside(records[..|records| - 1], others); }
  }

  /** When both policies cover the same leads once each and correctness is agreement with an oracle, what was gained
      minus what was lost is exactly the difference in correct decisions, for any order of the records. */
  lemma RegretBalances(reference: seq<Record>, policy: seq<Record>, oracle: LeadId -> Verdict)
    requires DistinctLeads(reference) && DistinctLeads(policy) && Leads(reference) == Leads(policy)
    requires JudgedBy(reference, oracle) && JudgedBy(policy, oracle)
    ensures Count(Index(reference), policy, Improved) - Count(Index(reference), policy, Worsened) ==
            Correct(policy) - Correct(reference)
  {
    RegretAccounts(reference, policy, oracle);
    NothingOutside(policy, Leads(reference));
    NothingOutside(reference, Leads(policy));
  }

  /** Differing coverage: a correct decision on a lead the reference lacks breaks the balance, a wrong one does not. */
  lemma UncoveredLead(correct: bool)
    ensures var policy := [Record(1, 5, correct)]; var oracle := (id: LeadId) => if correct then 5 else 6;
            && DistinctLeads([]) && DistinctLeads(policy) && JudgedBy([], oracle) && JudgedBy(policy, oracle)
            && (Count(Index([]), policy, Improved) - Count(Index([]), policy, Worsened) == Correct(policy) - Correct([])
                <==> !correct)
  {
    var policy := [Record(1, 5, correct)];
    var oracle := (id: LeadId) => if correct then 5 else 6;
    assert policy[..0] == [];
    RegretBalancesIff([], policy, oracle);
  }
}
