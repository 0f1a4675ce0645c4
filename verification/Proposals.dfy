/** Supplier proposals: packages/agents/src/proposal-validation.ts, and what an accepted one guarantees. */
module Proposals {
  import opened Prelude
  import opened OfferRules
  import Decision

  datatype ContextLine = ContextLine(productId: ProductId, quantity: int, baselineMinor: nat)

  /** What both rounds of one negotiation share; the round itself is a separate argument. */
  datatype Context = Context(quotationId: string, brandId: string, currency: Currency, lines: seq<ContextLine>)

  datatype ProposalLine = ProposalLine(productId: ProductId, quantity: nat, unitPriceMinor: nat)

  /** A model answer that has the shape of a proposal. */
  datatype Proposal = Proposal(
    supplier: Supplier,
    round: Round,
    currency: Currency,
    leadTimeDays: int,
    capacityPercent: int,
    expiresAt: int,
    schedule: seq<Installment>,
    lines: seq<ProposalLine>)

  /** The numeric and structural part of the proposal schema. */
  predicate SchemaValid(p: Proposal) {
    && p.leadTimeDays > 0
    && 0 <= p.capacityPercent <= 100
    && ValidSchedule(p.schedule)
    && (forall entry | entry in p.schedule :: entry.basisPoints <= 10000)
    && p.lines != []
  }

  function BuildIntent(context: Context): Intent {
    Intent(context.quotationId, context.brandId, context.currency,
           Map((line: ContextLine) =>
                 OrderLine(line.productId, line.quantity, Money(context.currency, line.baselineMinor)), context.lines))
  }

  function BuildOffer(p: Proposal, id: string): Offer {
    Offer(id, p.supplier, p.currency, p.leadTimeDays, p.capacityPercent, p.expiresAt,
          Map((line: ProposalLine) => OfferLine(line.productId, line.quantity, Money(p.currency, line.unitPriceMinor)),
            p.lines),
          p.schedule, true)
  }

  function ContextBaseline(line: ContextLine): int {
    line.quantity * line.baselineMinor
  }

  /** The order of a context has its lines, one for one, at their quantities and prices, so its total is theirs. */
  lemma {:induction false} IntentIsContext(context: Context)
    ensures var lines := BuildIntent(context).lines;
      && |lines| == |context.lines|
      && (forall k :: 0 <= k < |lines| ==>
            && lines[k].productId == context.lines[k].productId && lines[k].quantity == context.lines[k].quantity
            && lines[k].baseline == Money(context.currency, context.lines[k].baselineMinor))
      && BaselineTotal(lines) == SumBy(ContextBaseline, context.lines)
    decreases |context.lines|
  {
    if context.lines != [] {
      var rest := context.(lines := context.lines[1..]);
      IntentIsContext(rest);
      assert BuildIntent(context).lines[1..] == BuildIntent(rest).lines;
    }
  }

  function ExpectedCapacity(supplier: Supplier, round: Round): int {
    if supplier == S2 && round == Two then 60 else 100
  }

  /** The round policy, on the offer that a proposal stands for. */
  predicate MeetsRoundPolicy(offer: Offer, intent: Intent, round: Round) {
    var policy := RoundPolicy(offer.supplier, round);
    && TermsMet(offer, policy)
    && forall line | line in offer.lines :: RoundPriceLine(line, LinesByProduct(intent.lines), policy)
  }

  /** A product with a zero baseline counts as unknown. */
  predicate RoundPriceLine(line: OfferLine, sources: map<ProductId, OrderLine>, terms: Terms)
    requires 0 <= terms.price.low && 0 <= terms.price.high
  {
    && line.productId in sources
    && sources[line.productId].baseline.minor != 0
    && PriceWithin(line.unitPrice.minor, sources[line.productId].baseline.minor, terms)
  }

  ghost predicate Accepted(p: Proposal, supplier: Supplier, round: Round, context: Context, now: int) {
    var intent, offer := BuildIntent(context), BuildOffer(p, "");
    && SchemaValid(p)
    && p.supplier == supplier
    && p.round == round
    && MeetsSupplierPolicy(supplier, intent, offer)
    && CommercialFacts(offer, intent, now)
    && MeetsRoundPolicy(offer, intent, round)
    && p.capacityPercent == ExpectedCapacity(supplier, round)
  }

  method ValidateRoundPolicy(offer: Offer, intent: Intent, round: Round) returns (error: Option<Violation>)
    ensures error.None? <==> MeetsRoundPolicy(offer, intent, round)
    ensures error.Some? ==>
      error.value == (if !RoundPolicy(offer.supplier, round).lead.Contains(offer.leadTimeDays) then RoundLeadPolicy
                      else if !TermsMet(offer, RoundPolicy(offer.supplier, round)) then RoundPaymentPolicy
                      else RoundPricePolicy)
  {
    var policy := RoundPolicy(offer.supplier, round);
    if !policy.lead.Contains(offer.leadTimeDays) {
      return Some(RoundLeadPolicy);
    }
    if !policy.order.Contains(OrderBps(offer.schedule)) {
      return Some(RoundPaymentPolicy);
    }
    if !policy.preShipment.Contains(PreShipmentBurden(offer.schedule)) {
      return Some(RoundPaymentPolicy);
    }
    var sources := LinesByProduct(intent.lines);
    for i := 0 to |offer.lines|
      invariant forall k :: 0 <= k < i ==> RoundPriceLine(offer.lines[k], sources, policy)
    {
      var line := offer.lines[i];
      assert line in offer.lines;
      if !RoundPriceLine(line, sources, policy) {
        return Some(RoundPricePolicy);
      }
    }
    return None;
  }

  /** Accepts a proposal, or names the first rule it breaks. */
  method ValidateProposal(p: Proposal, id: string, supplier: Supplier, round: Round, context: Context, now: int)
    returns (result: Result<Offer, Violation>)
    ensures result.Ok? <==> Accepted(p, supplier, round, context, now)
    ensures result.Ok? ==> result.value == BuildOffer(p, id)
    ensures result == Err(SchemaViolation) <==> !SchemaValid(p)
    ensures SchemaValid(p) && p.supplier != supplier ==> result == Err(SupplierIdentity)
    ensures SchemaValid(p) && p.supplier == supplier && p.round != round ==> result == Err(RoundMismatch)
    ensures result == Err(CapacityEventMismatch) <==>
      Accepted(p.(capacityPercent := ExpectedCapacity(supplier, round)), supplier, round, context, now)
      && SchemaValid(p) && p.capacityPercent != ExpectedCapacity(supplier, round)
  {
    if !SchemaValid(p) {
      return Err(SchemaViolation);
    }
    if p.supplier != supplier {
      return Err(SupplierIdentity);
    }
    if p.round != round {
      return Err(RoundMismatch);
    }
    var intent, offer := BuildIntent(context), BuildOffer(p, id);
    hide MeetsSupplierPolicy, CommercialFacts, MeetsRoundPolicy, ValidSchedule;
    IdIsIrrelevant(p, id, supplier, round, context, now);
    CapacityIsIrrelevant(p, ExpectedCapacity(supplier, round), supplier, round, context, now);
    var error := ValidateOfferAgainstSupplierPolicy(supplier, intent, offer);
    if error.Some? {
      return Err(error.value);
    }
    error := ValidateOfferCommercialFacts(offer, intent, now);
    if error.Some? {
      return Err(error.value);
    }
    error := ValidateRoundPolicy(offer, intent, round);
    if error.Some? {
      return Err(error.value);
    }
    if p.capacityPercent != ExpectedCapacity(supplier, round) {
      return Err(CapacityEventMismatch);
    }
    return Ok(offer);
  }

  lemma IdIsIrrelevant(p: Proposal, id: string, supplier: Supplier, round: Round, context: Context, now: int)
    ensures var intent := BuildIntent(context);
      && MeetsSupplierPolicy(supplier, intent, BuildOffer(p, id))
        == MeetsSupplierPolicy(supplier, intent, BuildOffer(p, ""))
      && CommercialFacts(BuildOffer(p, id), intent, now) == CommercialFacts(BuildOffer(p, ""), intent, now)
      && MeetsRoundPolicy(BuildOffer(p, id), intent, round) == MeetsRoundPolicy(BuildOffer(p, ""), intent, round)
  {
    assert BuildOffer(p, id) == BuildOffer(p, "").(id := id);
  }

  /** Only the last check looks at the capacity. */
  lemma CapacityIsIrrelevant(p: Proposal, capacity: int, supplier: Supplier, round: Round, context: Context, now: int)
    ensures var intent, q := BuildIntent(context), p.(capacityPercent := capacity);
      && MeetsSupplierPolicy(supplier, intent, BuildOffer(q, ""))
        == MeetsSupplierPolicy(supplier, intent, BuildOffer(p, ""))
      && CommercialFacts(BuildOffer(q, ""), intent, now) == CommercialFacts(BuildOffer(p, ""), intent, now)
      && MeetsRoundPolicy(BuildOffer(q, ""), intent, round) == MeetsRoundPolicy(BuildOffer(p, ""), intent, round)
  {
    assert BuildOffer(p.(capacityPercent := capacity), "") == BuildOffer(p, "").(capacityPercent := capacity);
  }

  // ------------------------------------------------------------- exact cover

  /** The order line that an offer line answers. */
  function Answered(line: OfferLine, expected: map<ProductId, OrderLine>): OrderLine {
    if line.productId in expected then expected[line.productId]
    else OrderLine(line.productId, line.quantity, line.unitPrice)
  }

  function Answering(expected: map<ProductId, OrderLine>): OfferLine -> OrderLine {
    line => Answered(line, expected)
  }

  function AnsweredLines(offer: Offer, intent: Intent): seq<OrderLine> {
    Map(Answering(LinesByProduct(intent.lines)), offer.lines)
  }

  function ByAnswer(f: OrderLine -> int, answering: OfferLine -> OrderLine): OfferLine -> int {
    line => f(answering(line))
  }

  /** The lines of a covering offer answer every order line exactly once. */
  lemma CoverIsPermutation(offer: Offer, intent: Intent)
    requires ValidIntent(intent) && Covers(offer, intent)
    ensures multiset(AnsweredLines(offer, intent)) == multiset(intent.lines)
  {
    LinesByProductKeys(intent.lines);
    LinesByProductSize(intent.lines);
    var answered := AnsweredLines(offer, intent);
    forall i | 0 <= i < |answered|
      ensures answered[i].productId == offer.lines[i].productId && answered[i] in intent.lines
    {
      assert offer.lines[i] in offer.lines;
    }
    assert Distinct(answered) && Distinct(intent.lines);
    SameElements(answered, intent.lines);
  }

  lemma {:induction false} SumOfAnswers(f: OrderLine -> int, answering: OfferLine -> OrderLine, lines: seq<OfferLine>)
    ensures SumBy(f, Map(answering, lines)) == SumBy(ByAnswer(f, answering), lines)
  {
    if lines != [] {
      assert Map(answering, lines)[1..] == Map(answering, lines[1..]);
      SumOfAnswers(f, answering, lines[1..]);
    }
  }

  /** So a sum over the answered lines is a sum over the order. */
  lemma CoverSum(offer: Offer, intent: Intent, f: OrderLine -> int)
    requires ValidIntent(intent) && Covers(offer, intent)
    ensures SumBy(ByAnswer(f, Answering(LinesByProduct(intent.lines))), offer.lines) == SumBy(f, intent.lines)
  {
    CoverIsPermutation(offer, intent);
    SumByPermuted(f, AnsweredLines(offer, intent), intent.lines);
    SumOfAnswers(f, Answering(LinesByProduct(intent.lines)), offer.lines);
  }

  /** The order priced at a basis-point share of its baseline, rounded line by line. */
  function PricedAt(basisPoints: nat): OrderLine -> int {
    (line: OrderLine) => line.quantity * RoundMinor(line.baseline.minor, basisPoints)
  }

  ghost predicate PricesWithin(offer: Offer, intent: Intent, low: nat, high: nat) {
    var expected := LinesByProduct(intent.lines);
    forall line | line in offer.lines ::
      && line.productId in expected
      && RoundMinor(expected[line.productId].baseline.minor, low) <= line.unitPrice.minor
      && line.unitPrice.minor <= RoundMinor(expected[line.productId].baseline.minor, high)
  }

  lemma PositiveProduct(q: int, x: int, y: int)
    requires q > 0 && x <= y
    ensures q * x <= q * y
  {
  }

  /** The total of a covering offer lies between the order priced at its lower and at its upper bound. */
  lemma TotalBetween(offer: Offer, intent: Intent, low: nat, high: nat)
    requires ValidIntent(intent) && Covers(offer, intent) && PricesWithin(offer, intent, low, high)
    ensures SumBy(PricedAt(low), intent.lines) <= OfferTotal(offer.lines) <= SumBy(PricedAt(high), intent.lines)
  {
    var expected := LinesByProduct(intent.lines);
    var answering := Answering(expected);
    LinesByProductKeys(intent.lines);
    CoverSum(offer, intent, PricedAt(low));
    CoverSum(offer, intent, PricedAt(high));
    forall line | line in offer.lines
      ensures ByAnswer(PricedAt(low), answering)(line) <= LineTotal(line) <= ByAnswer(PricedAt(high), answering)(line)
    {
      var order := expected[line.productId];
      assert order in intent.lines;
      PositiveProduct(line.quantity, RoundMinor(order.baseline.minor, low), line.unitPrice.minor);
      PositiveProduct(line.quantity, line.unitPrice.minor, RoundMinor(order.baseline.minor, high));
    }
    SumByMonotone(ByAnswer(PricedAt(low), answering), LineTotal, offer.lines);
    SumByMonotone(LineTotal, ByAnswer(PricedAt(high), answering), offer.lines);
  }

  // ---------------------------------------------------------- rounding bound

  function Quantity(line: OrderLine): int {
    line.quantity
  }

  function TotalQuantity(lines: seq<OrderLine>): int {
    SumBy(Quantity, lines)
  }

  lemma LineRounding(q: int, b: nat, bps: nat)
    requires q > 0
    ensures bps * (q * b) - 5000 * q < 10000 * (q * RoundMinor(b, bps)) <= bps * (q * b) + 5000 * q
  {
    var r := RoundMinor(b, bps);
    RoundMinorHalfUp(b, bps);
    assert q * (b * bps) == bps * (q * b);
    PositiveProduct(q, b * bps - 5000 + 1, 10000 * r);
    PositiveProduct(q, 10000 * r, b * bps + 5000);
  }

  /** Rounding each line half up moves the total by less than half a unit for each item ordered. */
  lemma {:induction false} RoundingDrift(lines: seq<OrderLine>, bps: nat)
    requires forall line | line in lines :: line.quantity > 0
    ensures bps * BaselineTotal(lines) - 5000 * TotalQuantity(lines) + |lines| <= 10000 * SumBy(PricedAt(bps), lines)
    ensures 10000 * SumBy(PricedAt(bps), lines) <= bps * BaselineTotal(lines) + 5000 * TotalQuantity(lines)
  {
    if lines != [] {
      assert lines[0] in lines;
      LineRounding(lines[0].quantity, lines[0].baseline.minor, bps);
      ScaledSum(bps, BaselineLine(lines[0]), BaselineTotal(lines[1..]));
      RoundingDrift(lines[1..], bps);
    }
  }

  lemma ScaledSum(k: int, x: int, y: int)
    ensures k * (x + y) == k * x + k * y
  {
  }

  lemma AcceptedPrices(p: Proposal, supplier: Supplier, round: Round, context: Context, now: int)
    requires Accepted(p, supplier, round, context, now)
    ensures var intent, offer, price := BuildIntent(context), BuildOffer(p, ""), RoundPolicy(supplier, round).price;
      ValidIntent(intent) && Covers(offer, intent) && PricesWithin(offer, intent, price.low, price.high)
  {
  }

  /** An accepted proposal can fill the whole order, unless it is the round-two proposal of S2. */
  lemma AcceptedCapacity(p: Proposal, supplier: Supplier, round: Round, context: Context, now: int)
    requires Accepted(p, supplier, round, context, now)
    ensures p.capacityPercent == 100 <==> !(p.supplier == S2 && p.round == Two)
    ensures p.supplier == S2 && p.round == Two ==> p.capacityPercent == 60
  {
  }

  /** How far the total of an accepted proposal can stray from the basis-point range of its supplier and round. */
  lemma AcceptedTotal(p: Proposal, supplier: Supplier, round: Round, context: Context, now: int)
    requires Accepted(p, supplier, round, context, now)
    ensures var lines, price, total := BuildIntent(context).lines, RoundPolicy(supplier, round).price,
      OfferTotal(BuildOffer(p, "").lines);
      && price.low * BaselineTotal(lines) - 5000 * TotalQuantity(lines) < 10000 * total
      && 10000 * total <= price.high * BaselineTotal(lines) + 5000 * TotalQuantity(lines)
  {
    var intent, offer, price := BuildIntent(context), BuildOffer(p, ""), RoundPolicy(supplier, round).price;
    AcceptedPrices(p, supplier, round, context, now);
    TotalBetween(offer, intent, price.low, price.high);
    RoundingDrift(intent.lines, price.low);
    RoundingDrift(intent.lines, price.high);
  }

  // -------------------------------------------------------------- concession

  /** The opening price bound of a supplier is at least its later one. */
  lemma ConcessionIsCheaper(intent: Intent, supplier: Supplier)
    requires ValidIntent(intent)
    ensures SumBy(PricedAt(RoundPolicy(supplier, Two).price.high), intent.lines)
         <= SumBy(PricedAt(RoundPolicy(supplier, One).price.low), intent.lines)
  {
    var lower, higher := RoundPolicy(supplier, Two).price.high, RoundPolicy(supplier, One).price.low;
    forall line | line in intent.lines ensures PricedAt(lower)(line) <= PricedAt(higher)(line) {
      RoundMinorMonotone(line.baseline.minor, lower, higher);
      PositiveProduct(line.quantity, RoundMinor(line.baseline.minor, lower), RoundMinor(line.baseline.minor, higher));
    }
    SumByMonotone(PricedAt(lower), PricedAt(higher), intent.lines);
  }

  /** The commercial terms of an offer, as the decision compares them. */
  function CandidateOf(offer: Offer, offerId: nat): Decision.Candidate {
    Decision.Candidate(offerId, offer.supplier, OfferTotal(offer.lines), Decision.SupplierQuality(offer.supplier),
                       offer.leadTimeDays, PreShipmentBurden(offer.schedule), true, "", offer.capacityPercent)
  }

  /**
   Every accepted round-two proposal is a real improvement on every accepted round-one proposal of the same supplier.
   */
  lemma ConcessionDominates(
    first: Proposal, second: Proposal, supplier: Supplier, context: Context, then': int, now: int, id1: nat, id2: nat)
    requires Accepted(first, supplier, One, context, then') && Accepted(second, supplier, Two, context, now)
    ensures var opening, concession := BuildOffer(first, ""), BuildOffer(second, "");
      && OfferTotal(concession.lines) <= OfferTotal(opening.lines)
      && concession.leadTimeDays < opening.leadTimeDays
      && PreShipmentBurden(concession.schedule) < PreShipmentBurden(opening.schedule)
      && Decision.Dominates(CandidateOf(concession, id2), CandidateOf(opening, id1))
  {
    var intent := BuildIntent(context);
    var low, high := RoundPolicy(supplier, One).price, RoundPolicy(supplier, Two).price;
    AcceptedPrices(first, supplier, One, context, then');
    AcceptedPrices(second, supplier, Two, context, now);
    TotalBetween(BuildOffer(first, ""), intent, low.low, low.high);
    TotalBetween(BuildOffer(second, ""), intent, high.low, high.high);
    ConcessionIsCheaper(intent, supplier);
  }

  /** The supplier-wide policy never rejects what the round policy allows on a covering offer. */
  lemma RoundPolicyIsTighter(offer: Offer, intent: Intent, round: Round, now: int)
    requires CommercialFacts(offer, intent, now) && MeetsRoundPolicy(offer, intent, round)
    ensures MeetsSupplierPolicy(offer.supplier, intent, offer)
  {
    var sources := LinesByProduct(intent.lines);
    LinesByProductKeys(intent.lines);
    var narrow, wide := RoundPolicy(offer.supplier, round).price, SupplierPolicy(offer.supplier).price;
    forall line | line in offer.lines ensures PriceLine(line, sources, SupplierPolicy(offer.supplier)) {
      var b := sources[line.productId].baseline.minor;
      assert sources[line.productId] in intent.lines;
      RoundMinorMonotone(b, wide.low, narrow.low);
      RoundMinorMonotone(b, narrow.high, wide.high);
    }
  }
}
