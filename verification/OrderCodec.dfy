/**
 The stored form of a purchase-order snapshot: packages/persistence/src/purchase-order-codec.ts.

 Currencies, suppliers and milestones are their own tokens, and a time is the number of its milliseconds; both are
 written as text, and read back from text, as in the source.
 */
module OrderCodec {
  import opened Prelude
  import opened Decimal
  import opened OfferRules

  /** The names of the members of a stored document. */
  datatype Name =
    | BrandId | NegotiationId | RecommendationId | CatalogVersion | DecisionVersion | Eligible | NegotiationState
    | OrderIntent | SelectedOffer | QuotationId | CurrencyName | Lines | ProductIdName | Quantity
    | BaselineUnitPriceMinor
    | UnitPriceMinor | OfferId | SupplierId | LeadTimeDays | CapacityPercent | ExpiresAt | PolicyValid | ScheduleName
    | MilestoneName | PercentBasisPoints

  datatype Json =
    | Null | Bool(bool) | Number(int) | Text(string) | Array(items: seq<Json>) | Object(members: map<Name, Json>)

  datatype CodecError =
    | NotAnObject | BadText(name: Name) | BadNumber(name: Name) | NotPositive(name: Name) | IdentityMismatch
    | BadCurrency
    | LinesIncomplete | BadSchedule | BadExpiry | BadSupplier | BadOfferNumbers | BadFacts

  datatype Snapshot = Snapshot(
    brandId: string,
    negotiationId: string,
    recommendationId: string,
    selectedOffer: Offer,
    orderIntent: Intent,
    catalogVersion: string,
    decisionVersion: string,
    eligible: bool,
    negotiationState: string)

  // ------------------------------------------------------------------ tokens

  function CurrencyText(c: Currency): string {
    match c
    case USD => "USD"
    case EUR => "EUR"
    case BRL => "BRL"
  }

  function CurrencyOf(s: string): Option<Currency> {
    if s == "USD" then Some(USD) else if s == "EUR" then Some(EUR) else if s == "BRL" then Some(BRL) else None
  }

  function SupplierText(s: Supplier): string {
    match s
    case S1 => "S1"
    case S2 => "S2"
    case S3 => "S3"
  }

  function SupplierOf(s: string): Option<Supplier> {
    if s == "S1" then Some(S1) else if s == "S2" then Some(S2) else if s == "S3" then Some(S3) else None
  }

  function MilestoneText(m: Milestone): string {
    match m
    case OnOrder => "ORDER"
    case PreShipment => "PRE_SHIPMENT"
    case OnDelivery => "DELIVERY"
  }

  function MilestoneOf(s: string): Option<Milestone> {
    if s == "ORDER" then Some(OnOrder)
    else if s == "PRE_SHIPMENT" then Some(PreShipment)
    else if s == "DELIVERY" then Some(OnDelivery)
    else None
  }

  lemma TokensRoundTrip(c: Currency, s: Supplier, m: Milestone)
    ensures CurrencyText(c) != "" && CurrencyOf(CurrencyText(c)) == Some(c)
    ensures SupplierText(s) != "" && SupplierOf(SupplierText(s)) == Some(s)
    ensures MilestoneText(m) != "" && MilestoneOf(MilestoneText(m)) == Some(m)
  {
  }

  /** Integers of any size, in decimal with a sign. */
  function IntText(n: int): string {
    if n < 0 then "-" + Print(-n) else Print(n)
  }

  function IntOf(s: string): Option<int> {
    var negative := s != "" && s[0] == '-';
    var digits := if negative then s[1..] else s;
    var magnitude: int := Value(digits);
    if !IsDecimal(digits) then None else Some(if negative then -magnitude else magnitude)
  }

  lemma IntRoundTrip(n: int)
    ensures IntText(n) != "" && IntOf(IntText(n)) == Some(n)
  {
    ValueOfPrint(Abs(n));
    if n < 0 {
      assert IntText(n)[1..] == Print(-n);
    } else {
      assert Print(n)[0] in Print(n);
    }
  }

  // ---------------------------------------------------------------- encoding

  function EncodeOrderLine(line: OrderLine): Json {
    Object(map[
      ProductIdName := Text(line.productId),
      Quantity := Text(IntText(line.quantity)),
      BaselineUnitPriceMinor := Text(IntText(line.baseline.minor))])
  }

  function EncodeOfferLine(line: OfferLine): Json {
    Object(map[
      ProductIdName := Text(line.productId),
      Quantity := Text(IntText(line.quantity)),
      UnitPriceMinor := Text(IntText(line.unitPrice.minor))])
  }

  function EncodeInstallment(entry: Installment): Json {
    Object(map[
      MilestoneName := Text(MilestoneText(entry.milestone)),
      PercentBasisPoints := Number(entry.basisPoints)])
  }

  function EncodeIntent(intent: Intent): Json {
    Object(map[
      QuotationId := Text(intent.quotationId),
      CurrencyName := Text(CurrencyText(intent.currency)),
      Lines := Array(Map(EncodeOrderLine, intent.lines))])
  }

  function EncodeOffer(offer: Offer): Json {
    Object(map[
      OfferId := Text(offer.id),
      SupplierId := Text(SupplierText(offer.supplier)),
      CurrencyName := Text(CurrencyText(offer.currency)),
      LeadTimeDays := Number(offer.leadTimeDays),
      CapacityPercent := Number(offer.capacityPercent),
      ExpiresAt := Text(IntText(offer.expiresAt)),
      PolicyValid := Bool(offer.policyValid),
      Lines := Array(Map(EncodeOfferLine, offer.lines)),
      ScheduleName := Array(Map(EncodeInstallment, offer.schedule))])
  }

  function Encode(s: Snapshot): Json {
    Object(map[
      BrandId := Text(s.brandId),
      NegotiationId := Text(s.negotiationId),
      RecommendationId := Text(s.recommendationId),
      CatalogVersion := Text(s.catalogVersion),
      DecisionVersion := Text(s.decisionVersion),
      Eligible := Bool(s.eligible),
      NegotiationState := Text(s.negotiationState),
      OrderIntent := EncodeIntent(s.orderIntent),
      SelectedOffer := EncodeOffer(s.selectedOffer)])
  }

  // ---------------------------------------------------------------- decoding

  function Member(members: map<Name, Json>, name: Name): Option<Json> {
    if name in members then Some(members[name]) else None
  }

  function Members(value: Option<Json>): Result<map<Name, Json>, CodecError> {
    if value.Some? && value.value.Object? then Ok(value.value.members) else Err(NotAnObject)
  }

  /** A text that is there and not empty. */
  function RequiredText(members: map<Name, Json>, name: Name): Result<string, CodecError> {
    match Member(members, name)
    case Some(Text(s)) => if s != "" then Ok(s) else Err(BadText(name))
    case _ => Err(BadText(name))
  }

  function PositiveNumber(members: map<Name, Json>, name: Name): Result<nat, CodecError> {
    var text :- RequiredText(members, name);
    match IntOf(text)
    case None => Err(BadNumber(name))
    case Some(n) => if n <= 0 then Err(NotPositive(name)) else Ok(n)
  }

  function DecodeOrderLine(value: Json, currency: Currency): Result<OrderLine, CodecError> {
    var line :- Members(Some(value));
    var productId :- RequiredText(line, ProductIdName);
    var quantity :- PositiveNumber(line, Quantity);
    var price :- PositiveNumber(line, BaselineUnitPriceMinor);
    Ok(OrderLine(productId, quantity, Money(currency, price)))
  }

  function DecodeOfferLine(value: Json, currency: Currency): Result<OfferLine, CodecError> {
    var line :- Members(Some(value));
    var productId :- RequiredText(line, ProductIdName);
    var quantity :- PositiveNumber(line, Quantity);
    var price :- PositiveNumber(line, UnitPriceMinor);
    Ok(OfferLine(productId, quantity, Money(currency, price)))
  }

  function DecodeInstallment(value: Json): Result<Installment, CodecError> {
    var entry :- Members(Some(value));
    var milestone :- RequiredText(entry, MilestoneName);
    match (MilestoneOf(milestone), Member(entry, PercentBasisPoints))
    case (Some(m), Some(Number(bps))) => Ok(Installment(m, bps))
    case _ => Err(BadSchedule)
  }

  /** Decode the items in order; the first that fails decides. */
  function DecodeAll<T>(decode: Json -> Result<T, CodecError>, items: seq<Json>): Result<seq<T>, CodecError> {
    if items == [] then Ok([])
    else
      var first :- decode(items[0]);
      var rest :- DecodeAll(decode, items[1..]);
      Ok([first] + rest)
  }

  function DecodeSchedule(value: Option<Json>): Result<seq<Installment>, CodecError> {
    match value
    case Some(Array(items)) =>
      if items == [] then Err(BadSchedule)
      else
        var schedule :- DecodeAll(DecodeInstallment, items);
        if ValidSchedule(schedule) then Ok(schedule) else Err(BadSchedule)
    case _ => Err(BadSchedule)
  }

  function DecodeIntent(value: Option<Json>, brandId: string): Result<Intent, CodecError> {
    var intent :- Members(value);
    var code :- RequiredText(intent, CurrencyName);
    if CurrencyOf(code).None? then Err(BadCurrency)
    else
      var currency := CurrencyOf(code).value;
      match Member(intent, Lines)
      case Some(Array(items)) =>
        if items == [] then Err(LinesIncomplete)
        else
          var quotationId :- RequiredText(intent, QuotationId);
          var lines :- DecodeAll((v: Json) => DecodeOrderLine(v, currency), items);
          Ok(Intent(quotationId, brandId, currency, lines))
      case _ => Err(LinesIncomplete)
  }

  function DecodeOfferLines(value: Option<Json>, currency: Currency): Result<seq<OfferLine>, CodecError> {
    match value
    case Some(Array(items)) => DecodeAll((v: Json) => DecodeOfferLine(v, currency), items)
    case _ => Ok([])
  }

  /** The offer is read in the currency of the order, whatever currency it was stored with. */
  function DecodeOffer(value: Option<Json>, currency: Currency): Result<Offer, CodecError> {
    var offer :- Members(value);
    var expiry :- RequiredText(offer, ExpiresAt);
    if IntOf(expiry).None? then Err(BadExpiry)
    else
      var id :- RequiredText(offer, OfferId);
      var supplier :- RequiredText(offer, SupplierId);
      var lines :- DecodeOfferLines(Member(offer, Lines), currency);
      var schedule :- DecodeSchedule(Member(offer, ScheduleName));
      if SupplierOf(supplier).None? then Err(BadSupplier)
      else
        match (Member(offer, LeadTimeDays), Member(offer, CapacityPercent))
        case (Some(Number(lead)), Some(Number(capacity))) =>
          Ok(Offer(id, SupplierOf(supplier).value, currency, lead, capacity, IntOf(expiry).value, lines, schedule,
                   Member(offer, PolicyValid) == Some(Bool(true))))
        case _ => Err(BadOfferNumbers)
  }

  function Decode(value: Json, brandId: string, negotiationId: string, negotiationState: string)
    : Result<Snapshot, CodecError>
  {
    var root :- Members(Some(value));
    var brand, negotiation := Member(root, BrandId), Member(root, NegotiationId);
    if (brand.Some? && brand.value != Text(brandId)) || (negotiation.Some? && negotiation.value != Text(negotiationId))
    then Err(IdentityMismatch)
    else
      var intent :- DecodeIntent(Member(root, OrderIntent), brandId);
      var offer :- DecodeOffer(Member(root, SelectedOffer), intent.currency);
      if !CommercialFacts(offer, intent, 0) then Err(BadFacts)
      else
        var recommendationId :- RequiredText(root, RecommendationId);
        var catalogVersion :- RequiredText(root, CatalogVersion);
        var decisionVersion :- RequiredText(root, DecisionVersion);
        Ok(Snapshot(brandId, negotiationId, recommendationId, offer, intent, catalogVersion, decisionVersion,
                    Member(root, Eligible) == Some(Bool(true)), negotiationState))
  }

  // ---------------------------------------------------------------- validity

  predicate NamedLines(offer: Offer, intent: Intent) {
    && (forall line | line in intent.lines :: line.productId != "")
    && (forall line | line in offer.lines :: line.productId != "")
  }

  /**
   A snapshot that can be stored: its texts are filled in, it belongs to one brand, and its offer satisfies its order.
   */
  predicate Storable(s: Snapshot) {
    && s.recommendationId != "" && s.catalogVersion != "" && s.decisionVersion != ""
    && s.orderIntent.quotationId != "" && s.selectedOffer.id != ""
    && NamedLines(s.selectedOffer, s.orderIntent)
    && s.orderIntent.brandId == s.brandId
    && CommercialFacts(s.selectedOffer, s.orderIntent, 0)
  }

  // ------------------------------------------------------------- round trips

  lemma OrderLineRoundTrip(line: OrderLine, currency: Currency)
    requires line.productId != "" && ValidOrderLine(line, currency)
    ensures DecodeOrderLine(EncodeOrderLine(line), currency) == Ok(line)
  {
    IntRoundTrip(line.quantity);
    IntRoundTrip(line.baseline.minor);
  }

  lemma OfferLineRoundTrip(line: OfferLine, currency: Currency)
    requires line.productId != "" && line.quantity > 0 && line.unitPrice.currency == currency
      && line.unitPrice.minor > 0
    ensures DecodeOfferLine(EncodeOfferLine(line), currency) == Ok(line)
  {
    IntRoundTrip(line.quantity);
    IntRoundTrip(line.unitPrice.minor);
  }

  lemma InstallmentRoundTrip(entry: Installment)
    ensures DecodeInstallment(EncodeInstallment(entry)) == Ok(entry)
  {
    TokensRoundTrip(USD, S1, entry.milestone);
  }

  lemma {:induction false} AllRoundTrip<T>(encode: T -> Json, decode: Json -> Result<T, CodecError>, items: seq<T>)
    requires forall item | item in items :: decode(encode(item)) == Ok(item)
    ensures DecodeAll(decode, Map(encode, items)) == Ok(items)
  {
    if items != [] {
      assert items[0] in items;
      assert Map(encode, items)[1..] == Map(encode, items[1..]);
      AllRoundTrip(encode, decode, items[1..]);
      assert [items[0]] + items[1..] == items;
    }
  }

  lemma IntentRoundTrip(intent: Intent)
    requires ValidIntent(intent) && intent.quotationId != ""
      && forall line | line in intent.lines :: line.productId != ""
    ensures DecodeIntent(Some(EncodeIntent(intent)), intent.brandId) == Ok(intent)
  {
    hide DecodeOrderLine, EncodeOrderLine, CurrencyText, CurrencyOf;
    TokensRoundTrip(intent.currency, S1, OnOrder);
    forall line | line in intent.lines ensures DecodeOrderLine(EncodeOrderLine(line), intent.currency) == Ok(line) {
      OrderLineRoundTrip(line, intent.currency);
    }
    AllRoundTrip(EncodeOrderLine, (v: Json) => DecodeOrderLine(v, intent.currency), intent.lines);
  }

  lemma OfferLinesRoundTrip(offer: Offer, intent: Intent)
    requires CommercialFacts(offer, intent, 0) && forall line | line in offer.lines :: line.productId != ""
    ensures DecodeOfferLines(Some(Array(Map(EncodeOfferLine, offer.lines))), intent.currency) == Ok(offer.lines)
  {
    hide DecodeOfferLine, EncodeOfferLine;
    LinesByProductKeys(intent.lines);
    forall line | line in offer.lines ensures DecodeOfferLine(EncodeOfferLine(line), intent.currency) == Ok(line) {
      OfferLineRoundTrip(line, intent.currency);
    }
    AllRoundTrip(EncodeOfferLine, (v: Json) => DecodeOfferLine(v, intent.currency), offer.lines);
  }

  lemma ScheduleRoundTrip(schedule: seq<Installment>)
    requires ValidSchedule(schedule)
    ensures DecodeSchedule(Some(Array(Map(EncodeInstallment, schedule)))) == Ok(schedule)
  {
    hide DecodeInstallment, EncodeInstallment;
    forall entry | entry in schedule ensures DecodeInstallment(EncodeInstallment(entry)) == Ok(entry) {
      InstallmentRoundTrip(entry);
    }
    AllRoundTrip(EncodeInstallment, DecodeInstallment, schedule);
  }

  lemma OfferRoundTrip(offer: Offer, intent: Intent)
    requires CommercialFacts(offer, intent, 0) && offer.id != ""
      && forall line | line in offer.lines :: line.productId != ""
    ensures DecodeOffer(Some(EncodeOffer(offer)), intent.currency) == Ok(offer)
  {
    hide DecodeOfferLines, DecodeSchedule, CurrencyText, SupplierText, SupplierOf, IntText, IntOf, EncodeOfferLine,
      EncodeInstallment;
    TokensRoundTrip(offer.currency, offer.supplier, OnOrder);
    IntRoundTrip(offer.expiresAt);
    OfferLinesRoundTrip(offer, intent);
    ScheduleRoundTrip(offer.schedule);
  }

  lemma {:induction false} DecodedFromItem<T>(decode: Json -> Result<T, CodecError>, items: seq<Json>, x: T)
    returns (v: Json)
    requires DecodeAll(decode, items).Ok? && x in DecodeAll(decode, items).value
    ensures v in items && decode(v) == Ok(x)
  {
    if decode(items[0]) == Ok(x) {
      v := items[0];
    } else {
      v := DecodedFromItem(decode, items[1..], x);
    }
  }

  lemma DecodedIntentIsNamed(value: Option<Json>, brandId: string)
    requires DecodeIntent(value, brandId).Ok?
    ensures var intent := DecodeIntent(value, brandId).value;
      && intent.quotationId != "" && intent.brandId == brandId
      && forall line | line in intent.lines :: line.productId != ""
  {
    var intent := DecodeIntent(value, brandId).value;
    var items := Member(Members(value).value, Lines).value;
    forall line | line in intent.lines ensures line.productId != "" {
      var v := DecodedFromItem((v: Json) => DecodeOrderLine(v, intent.currency), items.items, line);
    }
  }

  lemma DecodedOfferIsNamed(value: Option<Json>, currency: Currency)
    requires DecodeOffer(value, currency).Ok?
    ensures var offer := DecodeOffer(value, currency).value;
      offer.id != "" && forall line | line in offer.lines :: line.productId != ""
  {
    hide DecodeSchedule, IntOf, SupplierOf;
    var offer := DecodeOffer(value, currency).value;
    var items := Member(Members(value).value, Lines);
    forall line | line in offer.lines ensures line.productId != "" {
      if items.Some? && items.value.Array? {
        var v := DecodedFromItem((v: Json) => DecodeOfferLine(v, currency), items.value.items, line);
      }
    }
  }

  /** Everything that decoding accepts is storable, whatever document it came from. */
  lemma DecodedIsStorable(value: Json, brandId: string, negotiationId: string, state: string)
    requires Decode(value, brandId, negotiationId, state).Ok?
    ensures Storable(Decode(value, brandId, negotiationId, state).value)
  {
    hide DecodeIntent, DecodeOffer, CommercialFacts;
    var root := value.members;
    DecodedIntentIsNamed(Member(root, OrderIntent), brandId);
    DecodedOfferIsNamed(Member(root, SelectedOffer), DecodeIntent(Member(root, OrderIntent), brandId).value.currency);
  }

  lemma StorableRoundTrip(s: Snapshot)
    requires Storable(s)
    ensures Decode(Encode(s), s.brandId, s.negotiationId, s.negotiationState) == Ok(s)
  {
    hide DecodeIntent, DecodeOffer, EncodeIntent, EncodeOffer, ValidSchedule, Covers;
    IntentRoundTrip(s.orderIntent);
    OfferRoundTrip(s.selectedOffer, s.orderIntent);
  }

  /** Decoding the encoded snapshot gives it back exactly when it is storable. */
  lemma RoundTripIff(s: Snapshot)
    ensures Decode(Encode(s), s.brandId, s.negotiationId, s.negotiationState) == Ok(s) <==> Storable(s)
  {
    hide Decode, Encode, Storable;
    if Decode(Encode(s), s.brandId, s.negotiationId, s.negotiationState) == Ok(s) {
      DecodedIsStorable(Encode(s), s.brandId, s.negotiationId, s.negotiationState);
    }
    if Storable(s) {
      StorableRoundTrip(s);
    }
  }

  /** A stored document is read only by the brand and for the negotiation it was written for. */
  lemma ReadByItsOwnerOnly(s: Snapshot, brandId: string, negotiationId: string, state: string)
    requires Storable(s)
    ensures Decode(Encode(s), brandId, negotiationId, state).Ok? <==>
      brandId == s.brandId && negotiationId == s.negotiationId
    ensures !(brandId == s.brandId && negotiationId == s.negotiationId) ==>
      Decode(Encode(s), brandId, negotiationId, state) == Err(IdentityMismatch)
  {
    hide DecodeIntent, DecodeOffer, EncodeIntent, EncodeOffer, CommercialFacts;
    if brandId == s.brandId && negotiationId == s.negotiationId {
      StorableRoundTrip(s.(negotiationState := state));
      assert Encode(s.(negotiationState := state)).members[OrderIntent] == Encode(s).members[OrderIntent];
      StateIsIrrelevant(s, state);
    }
  }

  /** The state of the negotiation is not read from the document. */
  lemma StateIsIrrelevant(s: Snapshot, state: string)
    ensures Decode(Encode(s), s.brandId, s.negotiationId, state).Ok? <==>
      Decode(Encode(s.(negotiationState := state)), s.brandId, s.negotiationId, state).Ok?
  {
    hide DecodeIntent, DecodeOffer, EncodeIntent, EncodeOffer, CommercialFacts;
  }

  /** So an order that was loaded once can be stored and loaded again, any number of times, without a change. */
  lemma StoredOrdersStayReadable(value: Json, brandId: string, negotiationId: string, state: string)
    requires Decode(value, brandId, negotiationId, state).Ok?
    ensures var s := Decode(value, brandId, negotiationId, state).value;
      && s.brandId == brandId && s.negotiationId == negotiationId && s.negotiationState == state
      && Decode(Encode(s), brandId, negotiationId, state) == Ok(s)
  {
    hide Storable, Encode, DecodeIntent, DecodeOffer, CommercialFacts;
    DecodedIsStorable(value, brandId, negotiationId, state);
    StorableRoundTrip(Decode(value, brandId, negotiationId, state).value);
  }
}
