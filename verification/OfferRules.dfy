/**
 Money, orders, offers and supplier policies: packages/domain/src and packages/agents/src/proposal-validation.ts.
 A validator that throws in the source returns the code of its error here.
 */
module OfferRules {
  import opened Prelude

  type ProductId = string

  datatype Currency = USD | EUR | BRL

  /** The money constructor refuses negative amounts, so the type carries that fact. */
  datatype Money = Money(currency: Currency, minor: nat)

  datatype Milestone = OnOrder | PreShipment | OnDelivery

  datatype Installment = Installment(milestone: Milestone, basisPoints: int)

  datatype OrderLine = OrderLine(productId: ProductId, quantity: int, baseline: Money)

  datatype Intent = Intent(quotationId: string, brandId: string, currency: Currency, lines: seq<OrderLine>)

  datatype OfferLine = OfferLine(productId: ProductId, quantity: int, unitPrice: Money)

  datatype Offer = Offer(
    id: string,
    supplier: Supplier,
    currency: Currency,
    leadTimeDays: int,
    capacityPercent: int,
    expiresAt: int,
    lines: seq<OfferLine>,
    schedule: seq<Installment>,
    policyValid: bool)

  /** The error codes of the validators. */
  datatype Violation =
    | OrderLines | QuantityPositive | BaselinePrice | OrderProductUnique
    | PaymentRequired | PaymentPercent | PaymentTotal | OfferPolicy | OfferCurrency | OfferExpired | OfferComplete
      | OfferProductUnique
    | SupplierIdentity | LeadPolicy | PaymentPolicy | PriceCoverage | PriceCurrency | PricePolicy
    | RoundMismatch | RoundLeadPolicy | RoundPaymentPolicy | RoundPricePolicy | CapacityEventMismatch | SchemaViolation

  // ------------------------------------------------------------------ money

  /** A basis-point share, with fractions of a minor unit rounded half up. */
  function RoundMinor(minor: nat, basisPoints: nat): nat {
    assert minor * basisPoints >= 0;
    (minor * basisPoints + 5000) / 10000
  }

  /** The rounded amount is the nearest one, and the larger of the two nearest on a tie. */
  lemma RoundMinorHalfUp(minor: nat, basisPoints: nat)
    ensures minor * basisPoints - 5000 < 10000 * RoundMinor(minor, basisPoints) <= minor * basisPoints + 5000
  {
    assert minor * basisPoints >= 0;
  }

  lemma RoundMinorMonotone(minor: nat, lower: nat, higher: nat)
    requires lower <= higher
    ensures RoundMinor(minor, lower) <= RoundMinor(minor, higher)
  {
    assert minor * lower <= minor * higher;
  }

  function LineTotal(line: OfferLine): int {
    line.quantity * line.unitPrice.minor
  }

  function OfferTotal(lines: seq<OfferLine>): int {
    SumBy(LineTotal, lines)
  }

  function BaselineLine(line: OrderLine): int {
    line.quantity * line.baseline.minor
  }

  /** The total of the order at its baseline prices. */
  function BaselineTotal(lines: seq<OrderLine>): int {
    SumBy(BaselineLine, lines)
  }

  // ---------------------------------------------------------------- payment

  function PaidAt(schedule: seq<Installment>, when: Installment -> bool): int {
    SumBy((entry: Installment) => if when(entry) then entry.basisPoints else 0, schedule)
  }

  function OrderBps(schedule: seq<Installment>): int {
    PaidAt(schedule, (entry: Installment) => entry.milestone.OnOrder?)
  }

  function PreShipmentBurden(schedule: seq<Installment>): int {
    PaidAt(schedule, (entry: Installment) => !entry.milestone.OnDelivery?)
  }

  lemma {:induction false} PaidInTwo(s: seq<Installment>, t: seq<Installment>, when: Installment -> bool)
    ensures PaidAt(s + t, when) == PaidAt(s, when) + PaidAt(t, when)
  {
    if s == [] {
      assert s + t == t;
    } else {
      assert (s + t)[0] == s[0] && (s + t)[1..] == s[1..] + t;
      PaidInTwo(s[1..], t, when);
    }
  }

  /**
   Which installments count: what is due with the order, before shipment, or on delivery. With the two facts after it,
   this determines both shares.
   */
  lemma ShareOfOne(entry: Installment)
    ensures OrderBps([entry]) == if entry.milestone == OnOrder then entry.basisPoints else 0
    ensures PreShipmentBurden([entry]) == if entry.milestone in {OnOrder, PreShipment} then entry.basisPoints else 0
  {
    PaidInOne(entry, (entry: Installment) => entry.milestone.OnOrder?);
    PaidInOne(entry, (entry: Installment) => !entry.milestone.OnDelivery?);
  }

  lemma PaidInOne(entry: Installment, when: Installment -> bool)
    ensures PaidAt([entry], when) == if when(entry) then entry.basisPoints else 0
  {
    var f := (entry: Installment) => if when(entry) then entry.basisPoints else 0;
    assert SumBy(f, [entry]) == f(entry) + SumBy(f, [entry][1..]);
  }

  lemma SharesAdd(s: seq<Installment>, t: seq<Installment>)
    ensures OrderBps(s + t) == OrderBps(s) + OrderBps(t)
    ensures PreShipmentBurden(s + t) == PreShipmentBurden(s) + PreShipmentBurden(t)
  {
    PaidInTwo(s, t, (entry: Installment) => entry.milestone.OnOrder?);
    PaidInTwo(s, t, (entry: Installment) => !entry.milestone.OnDelivery?);
  }

  function DeliveryShare(schedule: seq<Installment>): int {
    PaidAt(schedule, (entry: Installment) => entry.milestone.OnDelivery?)
  }

  lemma {:induction false} SharesSplit(schedule: seq<Installment>)
    ensures PreShipmentBurden(schedule) + DeliveryShare(schedule) == PaidAt(schedule, entry => true)
    ensures (forall entry | entry in schedule :: 0 <= entry.basisPoints) ==>
      0 <= OrderBps(schedule) <= PreShipmentBurden(schedule) && 0 <= DeliveryShare(schedule)
  {
    if schedule != [] {
      assert schedule[0] in schedule;
      SharesSplit(schedule[1..]);
    }
  }

  /** In a valid schedule the burden before shipment and the share on delivery make up the whole. */
  lemma BurdenAndDelivery(schedule: seq<Installment>)
    requires ValidSchedule(schedule)
    ensures PreShipmentBurden(schedule) + DeliveryShare(schedule) == 10000
    ensures 0 <= OrderBps(schedule) <= PreShipmentBurden(schedule) <= 10000
  {
    hide PaidAt;
    SharesSplit(schedule);
  }

  predicate ValidSchedule(schedule: seq<Installment>) {
    && schedule != []
    && (forall entry | entry in schedule :: 0 <= entry.basisPoints)
    && PaidAt(schedule, entry => true) == 10000
  }

  /** What is wrong with a schedule, in the order of the checks. */
  function ScheduleError(schedule: seq<Installment>): (error: Option<Violation>)
    ensures error.None? <==> ValidSchedule(schedule)
    ensures error.Some? ==> error.value in {PaymentRequired, PaymentPercent, PaymentTotal}
    ensures error == Some(PaymentRequired) <==> |schedule| == 0
    ensures error == Some(PaymentPercent) <==> exists k :: 0 <= k < |schedule| && schedule[k].basisPoints < 0
  {
    assert forall k :: 0 <= k < |schedule| ==> schedule[k] in schedule;
    if schedule == [] then Some(PaymentRequired)
    else if exists entry | entry in schedule :: entry.basisPoints < 0 then Some(PaymentPercent)
    else if PaidAt(schedule, entry => true) != 10000 then Some(PaymentTotal)
    else None
  }

  // ------------------------------------------------------------ order intent

  predicate ValidOrderLine(line: OrderLine, currency: Currency) {
    line.quantity > 0 && line.baseline.currency == currency && line.baseline.minor > 0
  }

  predicate DistinctProducts(lines: seq<OrderLine>) {
    forall i, j :: 0 <= i < j < |lines| ==> lines[i].productId != lines[j].productId
  }

  predicate ValidIntent(intent: Intent) {
    && intent.lines != []
    && (forall line | line in intent.lines :: ValidOrderLine(line, intent.currency))
    && DistinctProducts(intent.lines)
  }

  /** What is wrong with line `k` when the lines before it are in order; the checks come in this order. */
  function OrderLineError(intent: Intent, k: nat): Option<Violation>
    requires k < |intent.lines|
  {
    var line := intent.lines[k];
    if line.quantity <= 0 then Some(QuantityPositive)
    else if line.baseline.currency != intent.currency || line.baseline.minor <= 0 then Some(BaselinePrice)
    else if exists j :: 0 <= j < k && intent.lines[j].productId == line.productId then Some(OrderProductUnique)
    else None
  }

  /** `error` is what the first line in error has. */
  ghost predicate FirstOrderError(intent: Intent, error: Violation) {
    exists k: nat :: k < |intent.lines| && OrderLineError(intent, k) == Some(error)
                     && forall j: nat :: j < k ==> OrderLineError(intent, j) == None
  }

  method ValidateOrderIntent(intent: Intent) returns (error: Option<Violation>)
    ensures error.None? <==> ValidIntent(intent)
    ensures error.Some? ==> if intent.lines == [] then error.value == OrderLines
      else FirstOrderError(intent, error.value)
    ensures error.Some? ==> error.value in {OrderLines, QuantityPositive, BaselinePrice, OrderProductUnique}
  {
    if intent.lines == [] {
      return Some(OrderLines);
    }
    var products: set<ProductId> := {};
    for i := 0 to |intent.lines|
      invariant forall k: nat :: k < i ==> OrderLineError(intent, k) == None
      invariant forall p :: p in products <==> exists k :: 0 <= k < i && intent.lines[k].productId == p
    {
      var line := intent.lines[i];
      if line.quantity <= 0 {
        error := Some(QuantityPositive);
      } else if line.baseline.currency != intent.currency || line.baseline.minor <= 0 {
        error := Some(BaselinePrice);
      } else if line.productId in products {
        error := Some(OrderProductUnique);
      } else {
        error := None;
      }
      assert error == OrderLineError(intent, i);
      if error.Some? {
        LineInError(intent, i);
        return;
      }
      products := products + {line.productId};
    }
    NoLineInError(intent);
    return None;
  }

  lemma LineInError(intent: Intent, k: nat)
    requires k < |intent.lines| && OrderLineError(intent, k).Some?
    ensures !ValidIntent(intent)
  {
    assert intent.lines[k] in intent.lines;
  }

  lemma NoLineInError(intent: Intent)
    requires intent.lines != [] && forall k: nat :: k < |intent.lines| ==> OrderLineError(intent, k) == None
    ensures ValidIntent(intent)
  {
    forall line | line in intent.lines ensures ValidOrderLine(line, intent.currency) {
      var k :| 0 <= k < |intent.lines| && intent.lines[k] == line;
      assert OrderLineError(intent, k) == None;
    }
    forall i, j | 0 <= i < j < |intent.lines| ensures intent.lines[i].productId != intent.lines[j].productId {
      assert OrderLineError(intent, j) == None;
    }
  }

  // ------------------------------------------------------------ exact cover

  /** The order line of each product; a repeated product keeps its last line. */
  function LinesByProduct(lines: seq<OrderLine>): map<ProductId, OrderLine> {
    if lines == [] then map[]
    else LinesByProduct(lines[..|lines| - 1])[lines[|lines| - 1].productId := lines[|lines| - 1]]
  }

  lemma {:induction false} LinesByProductKeys(lines: seq<OrderLine>)
    ensures forall p :: p in LinesByProduct(lines) <==> exists k :: 0 <= k < |lines| && lines[k].productId == p
    ensures forall p | p in LinesByProduct(lines) ::
      LinesByProduct(lines)[p] in lines && LinesByProduct(lines)[p].productId == p
  {
    if lines != [] {
      var init, last := lines[..|lines| - 1], lines[|lines| - 1];
      LinesByProductKeys(init);
      assert lines == init + [last];
    }
  }

  lemma {:induction false} LinesByProductSize(lines: seq<OrderLine>)
    requires DistinctProducts(lines)
    ensures |LinesByProduct(lines)| == |lines|
  {
    if lines != [] {
      var init, last := lines[..|lines| - 1], lines[|lines| - 1];
      LinesByProductKeys(init);
      LinesByProductSize(init);
      assert last.productId !in LinesByProduct(init);
    }
  }

  predicate CoversLine(line: OfferLine, expected: map<ProductId, OrderLine>, currency: Currency) {
    && line.productId in expected
    && line.quantity == expected[line.productId].quantity
    && line.unitPrice.currency == currency
    && line.unitPrice.minor > 0
  }

  predicate DistinctOffered(lines: seq<OfferLine>) {
    forall i, j :: 0 <= i < j < |lines| ==> lines[i].productId != lines[j].productId
  }

  /** The offer has exactly one line for every order line, with the same quantity and a positive price. */
  predicate Covers(offer: Offer, intent: Intent) {
    var expected := LinesByProduct(intent.lines);
    && |offer.lines| == |expected|
    && (forall line | line in offer.lines :: CoversLine(line, expected, intent.currency))
    && DistinctOffered(offer.lines)
  }

  predicate CommercialFacts(offer: Offer, intent: Intent, now: int) {
    && ValidIntent(intent)
    && ValidSchedule(offer.schedule)
    && offer.policyValid
    && offer.currency == intent.currency
    && offer.expiresAt > now
    && Covers(offer, intent)
  }

  /** How the scan of the offer lines ends: at the first line that repeats a product, or else is not good. */
  datatype Scan = AllGood | Repeated(at: nat) | Bad(at: nat)

  predicate RepeatsAt(lines: seq<OfferLine>, k: nat)
    requires k < |lines|
  {
    exists j :: 0 <= j < k && lines[j].productId == lines[k].productId
  }

  ghost predicate CleanBefore(lines: seq<OfferLine>, good: OfferLine -> bool, k: nat)
    requires k <= |lines|
  {
    forall j: nat :: j < k ==> !RepeatsAt(lines, j) && good(lines[j])
  }

  /** The scan that both offer validators make: a growing set of seen products, and one test for each line. */
  method ScanOfferLines(lines: seq<OfferLine>, good: OfferLine -> bool) returns (scan: Scan)
    ensures scan == AllGood <==> DistinctOffered(lines) && forall line | line in lines :: good(line)
    ensures scan.Repeated? ==> scan.at < |lines| && CleanBefore(lines, good, scan.at) && RepeatsAt(lines, scan.at)
    ensures scan.Bad? ==>
      scan.at < |lines| && CleanBefore(lines, good, scan.at) && !RepeatsAt(lines, scan.at) && !good(lines[scan.at])
  {
    var seen: set<ProductId> := {};
    for i := 0 to |lines|
      invariant CleanBefore(lines, good, i)
      invariant forall p :: p in seen <==> exists k :: 0 <= k < i && lines[k].productId == p
    {
      var line := lines[i];
      assert line in lines;
      if line.productId in seen {
        return Repeated(i);
      }
      if !good(line) {
        return Bad(i);
      }
      seen := seen + {line.productId};
    }
    forall i, j | 0 <= i < j < |lines| ensures lines[i].productId != lines[j].productId {
      assert !RepeatsAt(lines, j);
    }
    return AllGood;
  }

  /** The checks on the offer as a whole, in order; `None` when they all pass. */
  function HeaderError(offer: Offer, intent: Intent, now: int): Option<Violation> {
    if ScheduleError(offer.schedule).Some? then ScheduleError(offer.schedule)
    else if !offer.policyValid then Some(OfferPolicy)
    else if offer.currency != intent.currency then Some(OfferCurrency)
    else if offer.expiresAt <= now then Some(OfferExpired)
    else if |offer.lines| != |LinesByProduct(intent.lines)| then Some(OfferComplete)
    else None
  }

  /**
   An offer is rejected for its order, for its header, or for its first line that repeats or does not answer an order
   line.
   */
  method ValidateOfferCommercialFacts(offer: Offer, intent: Intent, now: int) returns (error: Option<Violation>)
    ensures error.None? <==> CommercialFacts(offer, intent, now)
    ensures !ValidIntent(intent) ==>
      error.Some? && error.value in {OrderLines, QuantityPositive, BaselinePrice, OrderProductUnique}
    ensures ValidIntent(intent) && HeaderError(offer, intent, now).Some? ==> error == HeaderError(offer, intent, now)
    ensures ValidIntent(intent) && HeaderError(offer, intent, now).None? && error.Some? ==>
      exists k: nat :: k < |offer.lines|
        && CleanBefore(offer.lines, Covering(intent), k)
        && error.value == (if RepeatsAt(offer.lines, k) then OfferProductUnique else OfferComplete)
        && (RepeatsAt(offer.lines, k) || !Covering(intent)(offer.lines[k]))
  {
    hide ValidIntent, ValidSchedule, ScheduleError, LinesByProduct;
    error := ValidateOrderIntent(intent);
    if error.Some? {
      return;
    }
    if ScheduleError(offer.schedule).Some? {
      return ScheduleError(offer.schedule);
    }
    if !offer.policyValid {
      return Some(OfferPolicy);
    }
    if offer.currency != intent.currency {
      return Some(OfferCurrency);
    }
    if offer.expiresAt <= now {
      return Some(OfferExpired);
    }
    var expected := LinesByProduct(intent.lines);
    if |offer.lines| != |expected| {
      return Some(OfferComplete);
    }
    var scan := ScanOfferLines(offer.lines, Covering(intent));
    match scan
    case AllGood => return None;
    case Repeated(_) => return Some(OfferProductUnique);
    case Bad(_) => return Some(OfferComplete);
  }

  /** Whether a line answers its order line. */
  function Covering(intent: Intent): OfferLine -> bool {
    (line: OfferLine) => CoversLine(line, LinesByProduct(intent.lines), intent.currency)
  }

  predicate OfferForIntent(offer: Offer, intent: Intent, now: int) {
    CommercialFacts(offer, intent, now) && offer.capacityPercent == 100
  }

  // -------------------------------------------------------- supplier policy

  datatype Bounds = Bounds(low: int, high: int) {
    predicate Contains(x: int) {
      low <= x <= high
    }
  }

  datatype Terms = Terms(price: Bounds, lead: Bounds, order: Bounds, preShipment: Bounds)

  /** The opening position and the concession space of each supplier. */
  function RoundPolicy(supplier: Supplier, round: Round): Terms {
    match (supplier, round)
    case (S1, One) => Terms(Bounds(10000, 10000), Bounds(50, 50), Bounds(3300, 3300), Bounds(6600, 6600))
    case (S1, Two) => Terms(Bounds(9200, 9900), Bounds(42, 49), Bounds(2000, 3200), Bounds(6000, 6500))
    case (S2, One) => Terms(Bounds(11500, 11500), Bounds(25, 25), Bounds(4000, 4000), Bounds(4000, 4000))
    case (S2, Two) => Terms(Bounds(10500, 11400), Bounds(20, 24), Bounds(3000, 3900), Bounds(3000, 3900))
    case (S3, One) => Terms(Bounds(10500, 10500), Bounds(15, 15), Bounds(10000, 10000), Bounds(10000, 10000))
    case (S3, Two) => Terms(Bounds(9700, 10400), Bounds(12, 14), Bounds(7000, 9900), Bounds(7000, 9900))
  }

  /** What each supplier may ever offer. */
  function SupplierPolicy(supplier: Supplier): Terms {
    match supplier
    case S1 => Terms(Bounds(9200, 10000), Bounds(42, 55), Bounds(2000, 3300), Bounds(6000, 6600))
    case S2 => Terms(Bounds(10500, 11500), Bounds(20, 30), Bounds(3000, 4000), Bounds(3000, 4000))
    case S3 => Terms(Bounds(9700, 10800), Bounds(12, 20), Bounds(7000, 10000), Bounds(7000, 10000))
  }

  predicate PriceWithin(price: int, baseline: nat, terms: Terms)
    requires 0 <= terms.price.low && 0 <= terms.price.high
  {
    RoundMinor(baseline, terms.price.low) <= price <= RoundMinor(baseline, terms.price.high)
  }

  predicate TermsMet(offer: Offer, terms: Terms) {
    && terms.lead.Contains(offer.leadTimeDays)
    && terms.order.Contains(OrderBps(offer.schedule))
    && terms.preShipment.Contains(PreShipmentBurden(offer.schedule))
  }

  predicate PriceLine(line: OfferLine, sources: map<ProductId, OrderLine>, terms: Terms)
    requires 0 <= terms.price.low && 0 <= terms.price.high
  {
    && line.productId in sources
    && line.unitPrice.currency == sources[line.productId].baseline.currency
    && PriceWithin(line.unitPrice.minor, sources[line.productId].baseline.minor, terms)
  }

  predicate MeetsSupplierPolicy(supplier: Supplier, intent: Intent, offer: Offer) {
    var sources := LinesByProduct(intent.lines);
    && offer.supplier == supplier
    && ValidSchedule(offer.schedule)
    && TermsMet(offer, SupplierPolicy(supplier))
    && |offer.lines| == |sources|
    && DistinctOffered(offer.lines)
    && forall line | line in offer.lines :: PriceLine(line, sources, SupplierPolicy(supplier))
  }

  /** The checks of the supplier policy that come before the lines. */
  function PolicyHeaderError(supplier: Supplier, intent: Intent, offer: Offer): Option<Violation> {
    var policy := SupplierPolicy(supplier);
    if offer.supplier != supplier then Some(SupplierIdentity)
    else if !policy.lead.Contains(offer.leadTimeDays) then Some(LeadPolicy)
    else if ScheduleError(offer.schedule).Some? then ScheduleError(offer.schedule)
    else if !TermsMet(offer, policy) then Some(PaymentPolicy)
    else if |offer.lines| != |LinesByProduct(intent.lines)| then Some(PriceCoverage)
    else None
  }

  predicate Priceable(line: OfferLine, sources: map<ProductId, OrderLine>) {
    line.productId in sources && line.unitPrice.currency == sources[line.productId].baseline.currency
  }

  function Pricing(supplier: Supplier, intent: Intent): OfferLine -> bool {
    (line: OfferLine) => PriceLine(line, LinesByProduct(intent.lines), SupplierPolicy(supplier))
  }

  /**
   An offer breaks the supplier policy in its header, or in its first line that repeats, cannot be priced, or is priced
   outside.
   */
  method ValidateOfferAgainstSupplierPolicy(supplier: Supplier, intent: Intent, offer: Offer)
    returns (error: Option<Violation>)
    ensures error.None? <==> MeetsSupplierPolicy(supplier, intent, offer)
    ensures PolicyHeaderError(supplier, intent, offer).Some? ==> error == PolicyHeaderError(supplier, intent, offer)
    ensures PolicyHeaderError(supplier, intent, offer).None? && error.Some? ==>
      exists k: nat :: k < |offer.lines|
        && CleanBefore(offer.lines, Pricing(supplier, intent), k)
        && (RepeatsAt(offer.lines, k) || !Pricing(supplier, intent)(offer.lines[k]))
        && error.value == (if RepeatsAt(offer.lines, k) then PriceCoverage
                           else if !Priceable(offer.lines[k], LinesByProduct(intent.lines)) then PriceCurrency
                           else PricePolicy)
    ensures error.Some? ==>
      error.value in {SupplierIdentity, LeadPolicy, PaymentRequired, PaymentPercent, PaymentTotal, PaymentPolicy,
                      PriceCoverage, PriceCurrency, PricePolicy}
  {
    hide ValidSchedule, ScheduleError, LinesByProduct;
    var policy := SupplierPolicy(supplier);
    if offer.supplier != supplier {
      return Some(SupplierIdentity);
    }
    if !policy.lead.Contains(offer.leadTimeDays) {
      return Some(LeadPolicy);
    }
    if ScheduleError(offer.schedule).Some? {
      return ScheduleError(offer.schedule);
    }
    if !TermsMet(offer, policy) {
      return Some(PaymentPolicy);
    }
    var sources := LinesByProduct(intent.lines);
    if |offer.lines| != |sources| {
      return Some(PriceCoverage);
    }
    var scan := ScanOfferLines(offer.lines, Pricing(supplier, intent));
    match scan
    case AllGood => return None;
    case Repeated(_) => return Some(PriceCoverage);
    case Bad(at) => return Some(if Priceable(offer.lines[at], sources) then PricePolicy else PriceCurrency);
  }
}
