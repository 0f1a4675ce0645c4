/** Buyer policies: packages/application/src/negotiation-policy.ts and packages/decision/src/policy.ts. */
module NegotiationPolicy {
  import opened Prelude
  import opened Decision

  datatype Priority = CostFirst | QualityFirst | LeadTimeFirst | PaymentTermsFirst

  datatype Policy = Policy(weights: Criteria, hardMaxLead: Option<int>)

  const BASE_WEIGHTS := Criteria(0.45, 0.25, 0.20, 0.10)

  function WeightsFor(priority: Option<Priority>): Criteria {
    match priority
    case None => BASE_WEIGHTS
    case Some(LeadTimeFirst) => BASE_WEIGHTS.(cost := 0.30, lead := 0.35)
    case Some(CostFirst) => BASE_WEIGHTS.(cost := 0.55, lead := 0.10)
    case Some(QualityFirst) => BASE_WEIGHTS.(cost := 0.35, quality := 0.40, lead := 0.15)
    case Some(PaymentTermsFirst) => BASE_WEIGHTS.(cost := 0.35, lead := 0.15, payment := 0.25)
  }

  /** The criterion that a priority is about. */
  function Favoured(priority: Priority): Criterion {
    match priority
    case CostFirst => Cost
    case QualityFirst => Quality
    case LeadTimeFirst => Lead
    case PaymentTermsFirst => Payment
  }

  /** A priority raises the weight of its own criterion, raises no other, and keeps the sum. */
  lemma PriorityRaisesItsCriterion(priority: Priority, c: Criterion)
    ensures var w := WeightsFor(Some(priority));
      && (Weight(w, c) > Weight(BASE_WEIGHTS, c) <==> c == Favoured(priority))
      && (Weight(w, c) >= Weight(BASE_WEIGHTS, c) + 0.10 <==> c == Favoured(priority))
      && Total(w) == Total(BASE_WEIGHTS) == 1.0
    ensures WeightsFor(None) == BASE_WEIGHTS
    ensures var w := WeightsFor(Some(priority));
      && (priority == CostFirst ==> w.cost > BASE_WEIGHTS.cost)
      && (priority == QualityFirst ==> w.quality > BASE_WEIGHTS.quality)
      && (priority == LeadTimeFirst ==> w.lead > BASE_WEIGHTS.lead)
      && (priority == PaymentTermsFirst ==> w.payment > BASE_WEIGHTS.payment)
  {
    var w := WeightsFor(Some(priority));
    assert priority == LeadTimeFirst ==> w == Criteria(0.30, 0.25, 0.35, 0.10);
  }

  predicate Within(x: real, y: real, bound: real) {
    x - y <= bound && y - x <= bound
  }

  /** A note may move weights by at most fifteen points each, and they must still sum to one. */
  function DeriveDecisionPolicy(base: Criteria, weights: Criteria, hardMaxLead: Option<int>): Result<Policy, string> {
    if hardMaxLead.Some? && !(0 < hardMaxLead.value <= 55) then Err("hardMaxLead must be an integer between 1 and 55")
    else if !(&& Within(weights.cost, base.cost, 0.15) && Within(weights.quality, base.quality, 0.15)
              && Within(weights.lead, base.lead, 0.15) && Within(weights.payment, base.payment, 0.15))
    then Err("note-derived weight change exceeds 15 percentage points")
    else if Total(weights) != 1.0 then Err("derived weights must sum to one")
    else Ok(Policy(weights, hardMaxLead))
  }

  /** Which changes of a policy are accepted: none moves a weight by more than fifteen points, whatever the base was. */
  lemma DeriveSucceedsIff(base: Criteria, weights: Criteria, hardMaxLead: Option<int>)
    ensures DeriveDecisionPolicy(base, weights, hardMaxLead).Ok? <==>
      && (forall c :: -0.15 <= Weight(weights, c) - Weight(base, c) <= 0.15)
      && Total(weights) == 1.0
      && (hardMaxLead.Some? ==> 1 <= hardMaxLead.value < 56)
    ensures DeriveDecisionPolicy(base, weights, hardMaxLead).Ok? ==>
      DeriveDecisionPolicy(base, weights, hardMaxLead).value == Policy(weights, hardMaxLead)
  {
    if forall c :: -0.15 <= Weight(weights, c) - Weight(base, c) <= 0.15 {
      assert -0.15 <= Weight(weights, Cost) - Weight(base, Cost) <= 0.15;
      assert -0.15 <= Weight(weights, Quality) - Weight(base, Quality) <= 0.15;
      assert -0.15 <= Weight(weights, Lead) - Weight(base, Lead) <= 0.15;
      assert -0.15 <= Weight(weights, Payment) - Weight(base, Payment) <= 0.15;
    }
  }

  /** A lead limit of zero counts as no limit. */
  function DeriveNegotiationPolicy(priority: Option<Priority>, hardMaxLeadDays: Option<int>): Result<Policy, string> {
    var limit := if hardMaxLeadDays == Some(0) then None else hardMaxLeadDays;
    if priority.None? && limit.None? then Ok(Policy(BASE_WEIGHTS, None))
    else DeriveDecisionPolicy(BASE_WEIGHTS, WeightsFor(priority), limit)
  }

  /** A policy that any buyer can confirm. */
  ghost predicate Confirmable(policy: Policy) {
    exists priority, days :: DeriveNegotiationPolicy(priority, days) == Ok(policy)
  }

  /** Every confirmable policy has weights that sum to one and lie well inside (0, 1), and an admissible lead limit. */
  lemma ConfirmablePolicies(policy: Policy)
    requires Confirmable(policy)
    ensures Total(policy.weights) == 1.0 && NonNegative(policy.weights) && Robust(policy.weights)
      && Spread(policy.weights)
    ensures policy.hardMaxLead.Some? ==> 0 < policy.hardMaxLead.value <= 55
  {
  }

  /** Deriving a policy fails only on a lead limit outside 0..55. */
  lemma DerivationFailsIff(priority: Option<Priority>, days: Option<int>)
    ensures DeriveNegotiationPolicy(priority, days).Err? <==> days.Some? && !(0 <= days.value <= 55)
    ensures DeriveNegotiationPolicy(priority, days).Ok? ==>
      var policy := DeriveNegotiationPolicy(priority, days).value;
      && policy.weights == WeightsFor(priority)
      && (policy.hardMaxLead.Some? <==> days.Some? && days.value != 0)
      && (policy.hardMaxLead.Some? ==> policy.hardMaxLead == days)
  {
    var w := WeightsFor(priority);
    assert Total(w) == 1.0;
  }

  /** Under any confirmed policy, all eight sensitivity cases recommend efficient offers only. */
  lemma ConfirmedDecisionsAreEfficient(input: DecisionInput, policy: Policy)
    requires Confirmable(policy) && input.weights == policy.weights && Decide(input).Ok?
    ensures var d := Decide(input).value;
      && (d.selection.winner.Some? ==> d.selection.winner.value in d.front)
      && (forall k | k in d.sensitivity && k.winner.Some? :: k.winner.value in d.front)
  {
    ConfirmablePolicies(policy);
    DecisionIsEfficient(input);
    SensitivityIsEfficient(input);
  }
}
