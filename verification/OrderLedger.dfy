/**
 Issuing purchase orders: packages/application/src/commands/issue-purchase-order.ts and
 packages/persistence/src/repositories/purchase-order.ts.

 A digest is what it digests, ids are numbers that grow, and the confirmation token is either good or not.
 */
module OrderLedger {
  import opened Prelude
  import opened OfferRules
  import opened OrderCodec
  import D = Decimal
  import N = Negotiation

  // -------------------------------------------------------------------- rows

  /** The facts that a preview shows; the recommendation id is not among them. */
  datatype Evidence = Evidence(
    brandId: string, negotiationId: string, offer: Offer, intent: Intent, catalogVersion: string,
    decisionVersion: string, eligible: bool, negotiationState: string)

  function PreviewEvidence(s: Snapshot): Evidence {
    Evidence(s.brandId, s.negotiationId, s.selectedOffer, s.orderIntent, s.catalogVersion, s.decisionVersion,
             s.eligible, s.negotiationState)
  }

  datatype Request = Request(negotiationId: string, offerId: string, preview: Evidence, actor: string)

  datatype StoredLine = StoredLine(productId: string, quantity: int, unitPrice: int, total: int)

  datatype OrderRow = OrderRow(
    id: nat, brand: string, number: string, negotiationId: string, offerId: string, key: string, request: Request,
    total: int, lines: seq<StoredLine>, document: Json)

  /** `counters` holds the next number of a brand, `negotiations` the state of each run. */
  datatype Tables = Tables(
    counters: map<string, nat>, orders: seq<OrderRow>, negotiations: map<(string, string), N.State>, nextId: nat)

  datatype IssueError =
    | TokenTooShort | IdempotencyConflict | NegotiationNotFound | CorruptSnapshot | OfferNotSelected
    | BrandForbidden | InvalidState | OfferIneligible | PreviewStale | ConfirmationInvalid
    | NotReplayable | UniqueViolation | ProductUnavailable

  datatype Reply = Reply(id: nat, number: string, replayed: bool)

  /**
   A command with what its transaction reads from elsewhere: the joined rows of the negotiation, the products of the
   brand, the clock and the verdict on the token.
   */
  datatype Command = Command(
    brand: string, key: string, request: Request, tokenLength: nat, tokenValid: bool, document: Option<Json>,
    catalog: set<string>, now: int)

  // ----------------------------------------------------------------- numbers

  function Pad(s: string): string
    decreases 7 - |s|
  {
    if |s| >= 7 then s else Pad("0" + s)
  }

  function OrderNumber(n: nat): string {
    "PO-" + Pad(D.Print(n))
  }

  lemma {:induction false} LeadingZero(s: string)
    ensures D.Value("0" + s) == D.Value(s)
  {
    if s == "" {
      assert ("0" + s)[..0] == "";
    } else {
      LeadingZero(s[..|s| - 1]);
      assert ("0" + s)[..|s|] == "0" + s[..|s| - 1];
    }
  }

  lemma {:induction false} PaddedValue(s: string)
    ensures D.Value(Pad(s)) == D.Value(s)
    decreases 7 - |s|
  {
    if |s| < 7 {
      LeadingZero(s);
      PaddedValue("0" + s);
    }
  }

  lemma {:induction false} PaddedForm(s: string)
    requires D.IsDecimal(s)
    ensures D.IsDecimal(Pad(s)) && |Pad(s)| == if |s| < 7 then 7 else |s|
    decreases 7 - |s|
  {
    if |s| < 7 {
      PaddedForm("0" + s);
    }
  }

  /** An order number is its number in seven digits, or in as many as it needs. */
  lemma OrderNumberForm(n: nat)
    ensures var s := OrderNumber(n);
      && "PO-" <= s && D.IsDecimal(s[3..]) && D.Value(s[3..]) == n
      && |s[3..]| == if |D.Print(n)| < 7 then 7 else |D.Print(n)|
  {
    assert OrderNumber(n)[3..] == Pad(D.Print(n));
    D.ValueOfPrint(n);
    PaddedValue(D.Print(n));
    PaddedForm(D.Print(n));
  }

  /** Different numbers are printed differently, however long they get. */
  lemma OrderNumbersDiffer(m: nat, n: nat)
    requires OrderNumber(m) == OrderNumber(n)
    ensures m == n
  {
    assert OrderNumber(m)[3..] == Pad(D.Print(m)) && OrderNumber(n)[3..] == Pad(D.Print(n));
    PaddedValue(D.Print(m));
    PaddedValue(D.Print(n));
    D.ValueOfPrint(m);
    D.ValueOfPrint(n);
  }

  // ------------------------------------------------------------ transactions

  function StateText(state: N.State): string {
    match state
    case Draft => "DRAFT"
    case Round1Running => "ROUND_1_RUNNING"
    case Round1Complete => "ROUND_1_COMPLETE"
    case CapacityEventApplied => "CAPACITY_EVENT_APPLIED"
    case Round2Running => "ROUND_2_RUNNING"
    case Evaluated => "EVALUATED"
    case Recommended => "RECOMMENDED"
    case PoCommitted => "PO_COMMITTED"
    case Failed => "FAILED"
  }

  /** The order of a brand under an idempotency key. */
  function FindByIdempotency(orders: seq<OrderRow>, brand: string, key: string): (r: Option<OrderRow>)
    ensures r.Some? ==> r.value in orders && r.value.brand == brand && r.value.key == key
    ensures r.None? ==> forall o | o in orders :: o.brand != brand || o.key != key
  {
    if orders == [] then None
    else if orders[0].brand == brand && orders[0].key == key then Some(orders[0])
    else FindByIdempotency(orders[1..], brand, key)
  }

  predicate Readable(o: OrderRow) {
    Decode(o.document, o.brand, o.negotiationId, "RECOMMENDED").Ok?
  }

  predicate Issuable(s: Snapshot, now: int) {
    && s.eligible
    && OfferForIntent(s.selectedOffer, s.orderIntent, now)
    && MeetsSupplierPolicy(s.selectedOffer.supplier, s.orderIntent, s.selectedOffer)
  }

  function LoadSnapshot(t: Tables, c: Command): Result<Snapshot, IssueError> {
    var negotiation := (c.brand, c.request.negotiationId);
    if negotiation !in t.negotiations || c.document.None? then Err(NegotiationNotFound)
    else
      match Decode(c.document.value, c.brand, c.request.negotiationId, StateText(t.negotiations[negotiation]))
      case Err(_) => Err(CorruptSnapshot)
      case Ok(s) => Ok(s)
  }

  function Authorize(t: Tables, c: Command): Result<Snapshot, IssueError> {
    var s :- LoadSnapshot(t, c);
    if s.selectedOffer.id != c.request.offerId then Err(OfferNotSelected)
    else if s.brandId != c.brand then Err(BrandForbidden)
    else if s.negotiationState != "RECOMMENDED" then Err(InvalidState)
    else if !Issuable(s, c.now) then Err(OfferIneligible)
    else if PreviewEvidence(s) != c.request.preview then Err(PreviewStale)
    else if !c.tokenValid then Err(ConfirmationInvalid)
    else Ok(s)
  }

  function NextValue(t: Tables, brand: string): nat {
    if brand in t.counters then t.counters[brand] else 1
  }

  function StoreLine(line: OfferLine): StoredLine {
    StoredLine(line.productId, line.quantity, line.unitPrice.minor, line.quantity * line.unitPrice.minor)
  }

  function RowFor(t: Tables, c: Command, s: Snapshot): OrderRow {
    OrderRow(t.nextId, c.brand, OrderNumber(NextValue(t, c.brand)), c.request.negotiationId, s.selectedOffer.id,
             c.key, c.request, OfferTotal(s.selectedOffer.lines), Map(StoreLine, s.selectedOffer.lines), Encode(s))
  }

  /** What the unique indexes refuse, besides a repeated idempotency key. */
  predicate Clashes(o: OrderRow, orders: seq<OrderRow>) {
    exists other | other in orders :: other.brand == o.brand && (other.number == o.number || other.offerId == o.offerId)
  }

  predicate InCatalog(lines: seq<OfferLine>, catalog: set<string>) {
    |set line | line in lines && line.productId in catalog :: line.productId| == |lines|
  }

  function Persist(t: Tables, c: Command, s: Snapshot): Result<(Tables, Reply), IssueError> {
    var o := RowFor(t, c, s);
    var negotiation := (c.brand, c.request.negotiationId);
    if FindByIdempotency(t.orders, c.brand, c.key).Some? then Err(NotReplayable)
    else if Clashes(o, t.orders) then Err(UniqueViolation)
    else if !InCatalog(s.selectedOffer.lines, c.catalog) then Err(ProductUnavailable)
    else if negotiation !in t.negotiations || t.negotiations[negotiation] != N.Recommended then Err(InvalidState)
    else
      var t' := Tables(t.counters[c.brand := NextValue(t, c.brand) + 1], t.orders + [o],
                       t.negotiations[negotiation := N.PoCommitted], t.nextId + 1);
      Ok((t', Reply(o.id, o.number, false)))
  }

  /** One issue command; an error leaves the tables alone. */
  function Issue(t: Tables, c: Command): Result<(Tables, Reply), IssueError> {
    if c.tokenLength < 16 then Err(TokenTooShort)
    else
      match FindByIdempotency(t.orders, c.brand, c.key)
      case Some(o) =>
        if !Readable(o) then Err(CorruptSnapshot)
        else if o.request != c.request then Err(IdempotencyConflict)
        else Ok((t, Reply(o.id, o.number, true)))
      case None =>
        var s :- Authorize(t, c);
        Persist(t, c, s)
  }

  // --------------------------------------------------------------- histories

  /** What happens to the ledger: commands, and runs that are created or move along the transition table. */
  datatype Event =
    | IssueCommand(command: Command)
    | NewRun(brand: string, negotiationId: string)
    | MoveRun(brand: string, negotiationId: string, to: N.State)

  function Step(t: Tables, e: Event): Tables {
    match e
    case IssueCommand(c) => (match Issue(t, c) case Ok(r) => r.0 case Err(_) => t)
    case NewRun(brand, id) =>
      if (brand, id) in t.negotiations then t else t.(negotiations := t.negotiations[(brand, id) := N.Round1Running])
    case MoveRun(brand, id, to) =>
      if (brand, id) in t.negotiations && to != N.PoCommitted && N.Legal(t.negotiations[(brand, id)], to)
      then t.(negotiations := t.negotiations[(brand, id) := to])
      else t
  }

  function Play(t: Tables, events: seq<Event>): Tables {
    if events == [] then t else Step(Play(t, events[..|events| - 1]), events[|events| - 1])
  }

  const EMPTY := Tables(map[], [], map[], 0)

  function OrdersOf(orders: seq<OrderRow>, brand: string): seq<OrderRow> {
    Filter((o: OrderRow) => o.brand == brand, orders)
  }

  // --------------------------------------------------------------- invariant

  /** A brand's numbers are 1, 2, … in the order of issue, and its counter holds the next one. */
  ghost predicate NumbersOk(t: Tables, brand: string) {
    var mine := OrdersOf(t.orders, brand);
    && NextValue(t, brand) == |mine| + 1
    && forall i :: 0 <= i < |mine| ==> mine[i].number == OrderNumber(i + 1)
  }

  function StoredTotal(line: StoredLine): int {
    line.total
  }

  /** The stored lines answer those of the offer, one for one and in order. */
  ghost predicate LinesAnswer(stored: seq<StoredLine>, offered: seq<OfferLine>) {
    && |stored| == |offered|
    && forall k :: 0 <= k < |stored| ==>
         && stored[k].productId == offered[k].productId
         && stored[k].quantity == offered[k].quantity
         && stored[k].unitPrice == offered[k].unitPrice.minor
  }

  /** The order is for what its document and the confirmed preview show, and that could be ordered. */
  ghost predicate AsPreviewed(o: OrderRow, s: Snapshot) {
    && LinesAnswer(o.lines, s.selectedOffer.lines)
    && o.total == OfferTotal(s.selectedOffer.lines)
    && o.offerId == s.selectedOffer.id == o.request.offerId
    && o.negotiationId == o.request.negotiationId && o.brand == s.brandId
    && PreviewEvidence(s) == o.request.preview
    && s.eligible && s.selectedOffer.capacityPercent == 100
    && MeetsSupplierPolicy(s.selectedOffer.supplier, s.orderIntent, s.selectedOffer)
  }

  ghost predicate RowOk(o: OrderRow) {
    && o.total == SumBy(StoredTotal, o.lines)
    && (forall line | line in o.lines :: line.total == line.quantity * line.unitPrice)
    && Readable(o)
    && AsPreviewed(o, Decode(o.document, o.brand, o.negotiationId, "RECOMMENDED").value)
  }

  /** Two orders of a brand share neither their negotiation, nor their offer, nor their key. */
  ghost predicate Apart(o: OrderRow, p: OrderRow) {
    o.brand == p.brand ==>
      o.negotiationId != p.negotiationId && o.offerId != p.offerId && o.key != p.key && o.number != p.number
  }

  ghost predicate Committed(t: Tables, o: OrderRow) {
    (o.brand, o.negotiationId) in t.negotiations && t.negotiations[(o.brand, o.negotiationId)] == N.PoCommitted
  }

  ghost predicate Inv(t: Tables) {
    && (forall brand :: NumbersOk(t, brand))
    && (forall o | o in t.orders :: RowOk(o) && o.id < t.nextId && Committed(t, o))
    && (forall i, j :: 0 <= i < j < |t.orders| ==> Apart(t.orders[i], t.orders[j]) && t.orders[i].id != t.orders[j].id)
  }

  lemma OrdersOfAppend(orders: seq<OrderRow>, o: OrderRow, brand: string)
    ensures OrdersOf(orders + [o], brand) == OrdersOf(orders, brand) + if o.brand == brand then [o] else []
  {
    FilterAppend((o: OrderRow) => o.brand == brand, orders, [o]);
  }

  lemma {:induction false} TotalOfStored(lines: seq<OfferLine>)
    ensures SumBy(StoredTotal, Map(StoreLine, lines)) == OfferTotal(lines)
  {
    if lines != [] {
      assert Map(StoreLine, lines)[1..] == Map(StoreLine, lines[1..]);
      TotalOfStored(lines[1..]);
    }
  }

  lemma LoadedState(t: Tables, c: Command)
    requires Authorize(t, c).Ok?
    ensures (c.brand, c.request.negotiationId) in t.negotiations
    ensures StateText(t.negotiations[(c.brand, c.request.negotiationId)]) == "RECOMMENDED"
  {
    hide Issuable, PreviewEvidence, DecodeIntent, DecodeOffer, CommercialFacts, Members, Member;
  }

  lemma NewRowOk(t: Tables, c: Command)
    requires Authorize(t, c).Ok?
    ensures var o := RowFor(t, c, Authorize(t, c).value); RowOk(o) && o.brand == c.brand
  {
    hide Encode, Decode, PreviewEvidence, CommercialFacts, MeetsSupplierPolicy;
    var s := Authorize(t, c).value;
    TotalOfStored(s.selectedOffer.lines);
    LoadedState(t, c);
    StoredOrdersStayReadable(c.document.value, c.brand, c.request.negotiationId,
                             StateText(t.negotiations[(c.brand, c.request.negotiationId)]));
  }

  lemma NumbersAfter(t: Tables, u: Tables, o: OrderRow, brand: string)
    requires NumbersOk(t, brand)
    requires u.orders == t.orders + [o] && o.number == OrderNumber(NextValue(t, o.brand))
    requires u.counters == t.counters[o.brand := NextValue(t, o.brand) + 1]
    ensures NumbersOk(u, brand)
  {
    OrdersOfAppend(t.orders, o, brand);
  }

  lemma NewRowApart(t: Tables, o: OrderRow, p: OrderRow)
    requires Inv(t) && p in t.orders
    requires FindByIdempotency(t.orders, o.brand, o.key).None? && !Clashes(o, t.orders)
    requires (o.brand, o.negotiationId) in t.negotiations && t.negotiations[(o.brand, o.negotiationId)] == N.Recommended
    ensures Apart(p, o)
  {
    assert Committed(t, p);
  }

  lemma IssueKeeps(t: Tables, c: Command)
    requires Inv(t) && Issue(t, c).Ok?
    ensures Inv(Issue(t, c).value.0)
  {
    hide Authorize, RowOk, InCatalog, Readable, OrderNumber, Encode, OrdersOf, FindByIdempotency;
    if FindByIdempotency(t.orders, c.brand, c.key).None? {
      var u := Issue(t, c).value.0;
      var o := RowFor(t, c, Authorize(t, c).value);
      NewRowOk(t, c);
      forall brand ensures NumbersOk(u, brand) {
        NumbersAfter(t, u, o, brand);
      }
      forall i | 0 <= i < |t.orders| ensures Apart(t.orders[i], o) {
        NewRowApart(t, o, t.orders[i]);
      }
    }
  }

  lemma MoveKeeps(t: Tables, e: Event)
    requires Inv(t) && !e.IssueCommand?
    ensures Inv(Step(t, e))
  {
    hide RowOk;
    var u := Step(t, e);
    forall brand ensures NumbersOk(u, brand) {
      assert NumbersOk(t, brand);
    }
    forall o | o in u.orders ensures Committed(u, o) {
      assert Committed(t, o);
    }
  }

  lemma StepKeeps(t: Tables, e: Event)
    requires Inv(t)
    ensures Inv(Step(t, e))
  {
    hide Inv, Issue;
    if !e.IssueCommand? {
      MoveKeeps(t, e);
    } else if Issue(t, e.command).Ok? {
      IssueKeeps(t, e.command);
    }
  }

  lemma {:induction false} PlayKeeps(t: Tables, events: seq<Event>)
    requires Inv(t)
    ensures Inv(Play(t, events))
  {
    hide Inv, Step;
    if events != [] {
      PlayKeeps(t, events[..|events| - 1]);
      StepKeeps(Play(t, events[..|events| - 1]), events[|events| - 1]);
    }
  }

  lemma EmptyInv()
    ensures Inv(EMPTY)
  {
  }

  // ------------------------------------------------------------ main results

  lemma ApartEitherWay(t: Tables, i: nat, j: nat)
    requires Inv(t) && i < |t.orders| && j < |t.orders| && i != j
    ensures Apart(t.orders[i], t.orders[j])
  {
    hide NumbersOk, RowOk, Committed;
    if j < i {
      assert Apart(t.orders[j], t.orders[i]);
    }
  }

  /** After any history a negotiation has at most one order. */
  lemma {:induction false} OneOrderPerNegotiation(events: seq<Event>, i: nat, j: nat)
    requires var orders := Play(EMPTY, events).orders;
      i < |orders| && j < |orders| && orders[i].brand == orders[j].brand
        && orders[i].negotiationId == orders[j].negotiationId
    ensures i == j
  {
    hide Play, NumbersOk, RowOk, Committed;
    EmptyInv();
    PlayKeeps(EMPTY, events);
    if i != j {
      ApartEitherWay(Play(EMPTY, events), i, j);
    }
  }

  /** After any history the run of an order is committed, so no later command can order from it again. */
  lemma {:induction false} OrderedRunsAreCommitted(events: seq<Event>, o: OrderRow)
    requires o in Play(EMPTY, events).orders
    ensures Committed(Play(EMPTY, events), o)
  {
    hide Play, NumbersOk, RowOk, Committed;
    EmptyInv();
    PlayKeeps(EMPTY, events);
  }

  /** After any history, failed attempts included, the numbers of a brand are 1, 2, …, n in the order of issue. */
  lemma {:induction false} NumbersHaveNoGaps(events: seq<Event>, brand: string)
    ensures var mine := OrdersOf(Play(EMPTY, events).orders, brand);
      forall i :: 0 <= i < |mine| ==> mine[i].number == OrderNumber(i + 1)
  {
    hide Play, RowOk, Committed, Apart;
    EmptyInv();
    PlayKeeps(EMPTY, events);
    assert NumbersOk(Play(EMPTY, events), brand);
  }

  /** After any history the stored total of an order is the sum of its stored line totals. */
  lemma {:induction false} TotalsAddUp(events: seq<Event>, o: OrderRow)
    requires o in Play(EMPTY, events).orders
    ensures o.total == SumBy(StoredTotal, o.lines)
    ensures forall line | line in o.lines :: line.total == line.quantity * line.unitPrice
  {
    hide Play, NumbersOk, Committed, Apart, Readable;
    EmptyInv();
    PlayKeeps(EMPTY, events);
    assert RowOk(o);
  }

  /**
   After any history an order is for what was confirmed: its document decodes to the facts of the confirmed preview, its
   lines are those of the selected offer, by product, quantity and unit price, and its total is theirs.
   */
  lemma {:induction false} OrdersAreAsPreviewed(events: seq<Event>, o: OrderRow)
    requires o in Play(EMPTY, events).orders
    ensures Readable(o) && AsPreviewed(o, Decode(o.document, o.brand, o.negotiationId, "RECOMMENDED").value)
    ensures var offer := o.request.preview.offer;
      LinesAnswer(o.lines, offer.lines) && o.total == OfferTotal(offer.lines) && o.offerId == offer.id
  {
    hide Play, NumbersOk, Committed, Apart, Readable, Decode, LinesAnswer, MeetsSupplierPolicy;
    EmptyInv();
    PlayKeeps(EMPTY, events);
    assert RowOk(o);
  }

  /** A preview shows everything but the recommendation id: snapshots with the same evidence differ in nothing else. */
  lemma EvidenceDetermines(s: Snapshot, r: Snapshot)
    ensures PreviewEvidence(s) == PreviewEvidence(r) <==> s == r.(recommendationId := s.recommendationId)
  {
  }

  lemma StepOnlyAppends(t: Tables, e: Event)
    ensures t.orders <= Step(t, e).orders
  {
    hide Authorize, FindByIdempotency, InCatalog, Clashes, RowFor, Readable;
  }

  lemma {:induction false} PlayOnlyAppends(t: Tables, events: seq<Event>)
    ensures t.orders <= Play(t, events).orders
  {
    hide Step;
    if events != [] {
      PlayOnlyAppends(t, events[..|events| - 1]);
      StepOnlyAppends(Play(t, events[..|events| - 1]), events[|events| - 1]);
    }
  }

  lemma FoundAgain(t: Tables, o: OrderRow)
    requires Inv(t) && o in t.orders
    ensures FindByIdempotency(t.orders, o.brand, o.key) == Some(o)
  {
    hide NumbersOk, RowOk, Committed;
    var r := FindByIdempotency(t.orders, o.brand, o.key);
    var i :| 0 <= i < |t.orders| && t.orders[i] == o;
    var j :| 0 <= j < |t.orders| && t.orders[j] == r.value;
    if i != j {
      ApartEitherWay(t, i, j);
    }
  }

  /**
   Once an order is issued, its idempotency key is answered for good: the same request gets the first id and number, any
   other is refused, and nothing changes.
   */
  lemma {:induction false} ReplayForever(t: Tables, events: seq<Event>, o: OrderRow, c: Command)
    requires Inv(t) && o in t.orders
    requires c.brand == o.brand && c.key == o.key && c.tokenLength >= 16
    ensures var u := Play(t, events);
      Issue(u, c) == if c.request == o.request then Ok((u, Reply(o.id, o.number, true))) else Err(IdempotencyConflict)
  {
    hide Play, FindByIdempotency, Authorize, Readable, Committed, Apart, NumbersOk;
    var u := Play(t, events);
    PlayKeeps(t, events);
    PlayOnlyAppends(t, events);
    assert o in u.orders && RowOk(o);
    FoundAgain(u, o);
  }

  /** The unique index on numbers is never hit, and neither is the conflict on an idempotency key that was not found. */
  lemma NumbersNeverClash(t: Tables, c: Command, p: OrderRow)
    requires Inv(t) && p in t.orders && p.brand == c.brand
    ensures p.number != OrderNumber(NextValue(t, c.brand))
  {
    hide RowOk, Committed, Apart, OrderNumber;
    var mine := OrdersOf(t.orders, c.brand);
    assert NumbersOk(t, c.brand);
    assert p in mine;
    var i :| 0 <= i < |mine| && mine[i] == p;
    if p.number == OrderNumber(NextValue(t, c.brand)) {
      OrderNumbersDiffer(i + 1, NextValue(t, c.brand));
    }
  }

  /** What a first issue needs of the snapshot it loads. */
  ghost predicate MayIssue(t: Tables, c: Command, s: Snapshot) {
    && (c.brand, c.request.negotiationId) in t.negotiations
    && t.negotiations[(c.brand, c.request.negotiationId)] == N.Recommended
    && s.selectedOffer.id == c.request.offerId
    && s.eligible
    && OfferForIntent(s.selectedOffer, s.orderIntent, c.now)
    && MeetsSupplierPolicy(s.selectedOffer.supplier, s.orderIntent, s.selectedOffer)
    && PreviewEvidence(s) == c.request.preview
    && c.tokenValid
    && (forall line | line in s.selectedOffer.lines :: line.productId in c.catalog)
    && forall p | p in t.orders && p.brand == c.brand :: p.offerId != c.request.offerId
  }

  lemma {:induction false} ProductCount(lines: seq<OfferLine>)
    requires DistinctOffered(lines)
    ensures |set line | line in lines :: line.productId| == |lines|
  {
    if lines != [] {
      var rest := lines[1..];
      ProductCount(rest);
      assert (set line | line in lines :: line.productId)
          == {lines[0].productId} + set line | line in rest :: line.productId;
    }
  }

  /** The size of a set decides whether all products are there, since no product is offered twice. */
  lemma InCatalogIff(lines: seq<OfferLine>, catalog: set<string>)
    requires DistinctOffered(lines)
    ensures InCatalog(lines, catalog) <==> forall line | line in lines :: line.productId in catalog
  {
    ProductCount(lines);
    var all, found := set line | line in lines :: line.productId,
      set line | line in lines && line.productId in catalog :: line.productId;
    if |found| == |lines| {
      assert all - found == {} by {
        assert found + (all - found) == all;
      }
      forall line | line in lines ensures line.productId in catalog {
        assert line.productId in all;
      }
    }
    if forall line | line in lines :: line.productId in catalog {
      assert found == all;
    }
  }

  /**
   A new key is issued exactly when the run is RECOMMENDED, the request names the offer of the snapshot, that offer can
   be issued now, the preview and the token are good, its products are in the catalog and it was not ordered before.
   */
  lemma FirstIssueIff(t: Tables, c: Command)
    requires Inv(t) && c.tokenLength >= 16 && FindByIdempotency(t.orders, c.brand, c.key).None?
    ensures Issue(t, c).Ok? <==> LoadSnapshot(t, c).Ok? && MayIssue(t, c, LoadSnapshot(t, c).value)
    ensures Issue(t, c).Ok? ==> Issue(t, c).value.1 == Reply(t.nextId, OrderNumber(NextValue(t, c.brand)), false)
  {
    hide Inv, FindByIdempotency, InCatalog, MayIssue, Authorize, LoadSnapshot, OrderNumber;
    forall p | p in t.orders && p.brand == c.brand ensures p.number != OrderNumber(NextValue(t, c.brand)) {
      NumbersNeverClash(t, c, p);
    }
    AuthorizedMayIssue(t, c);
  }

  lemma AuthorizedMayIssue(t: Tables, c: Command)
    ensures LoadSnapshot(t, c).Ok? && MayIssue(t, c, LoadSnapshot(t, c).value) <==>
      && Authorize(t, c).Ok?
      && (c.brand, c.request.negotiationId) in t.negotiations
      && t.negotiations[(c.brand, c.request.negotiationId)] == N.Recommended
      && InCatalog(Authorize(t, c).value.selectedOffer.lines, c.catalog)
      && forall p | p in t.orders && p.brand == c.brand :: p.offerId != c.request.offerId
    ensures Authorize(t, c).Ok? ==>
      && Authorize(t, c) == LoadSnapshot(t, c)
      && Authorize(t, c).value.selectedOffer.id == c.request.offerId
      && (c.brand, c.request.negotiationId) in t.negotiations
      && t.negotiations[(c.brand, c.request.negotiationId)] == N.Recommended
  {
    hide InCatalog, PreviewEvidence, MeetsSupplierPolicy, DecodeIntent, DecodeOffer, Members, Member;
    if Authorize(t, c).Ok? {
      LoadedIsRecommended(t, c);
    }
    if LoadSnapshot(t, c).Ok? {
      var s := LoadSnapshot(t, c).value;
      LoadedFields(t, c);
      if CommercialFacts(s.selectedOffer, s.orderIntent, c.now) {
        InCatalogIff(s.selectedOffer.lines, c.catalog);
      }
    }
  }

  lemma LoadedFields(t: Tables, c: Command)
    requires LoadSnapshot(t, c).Ok?
    ensures var s := LoadSnapshot(t, c).value;
      && (c.brand, c.request.negotiationId) in t.negotiations
      && s.brandId == c.brand
      && s.negotiationState == StateText(t.negotiations[(c.brand, c.request.negotiationId)])
  {
    hide DecodeIntent, DecodeOffer, CommercialFacts, Members, Member, StateText;
  }

  lemma LoadedIsRecommended(t: Tables, c: Command)
    requires Authorize(t, c).Ok?
    ensures (c.brand, c.request.negotiationId) in t.negotiations
    ensures t.negotiations[(c.brand, c.request.negotiationId)] == N.Recommended
  {
    hide Authorize;
    LoadedState(t, c);
    OnlyRecommendedReadsSo(t.negotiations[(c.brand, c.request.negotiationId)]);
  }

  lemma OnlyRecommendedReadsSo(state: N.State)
    ensures StateText(state) == "RECOMMENDED" <==> state == N.Recommended
  {
    assert |StateText(state)| == |"RECOMMENDED"| ==> state == N.Recommended;
  }

  // ------------------------------------------------------------- in place

  /** The tables, changed in place by one transaction at a time. */
  class OrderBook {
    var counters: map<string, nat>
    var orders: seq<OrderRow>
    var negotiations: map<(string, string), N.State>
    var nextId: nat

    function Snapshot(): Tables
      reads this
    {
      Tables(counters, orders, negotiations, nextId)
    }

    constructor ()
      ensures Snapshot() == EMPTY
    {
      counters, orders, negotiations, nextId := map[], [], map[], 0;
    }

    method Find(brand: string, key: string) returns (found: Option<OrderRow>)
      ensures found == FindByIdempotency(orders, brand, key)
    {
      var i := 0;
      while i < |orders|
        invariant 0 <= i <= |orders|
        invariant FindByIdempotency(orders, brand, key) == FindByIdempotency(orders[i..], brand, key)
      {
        if orders[i].brand == brand && orders[i].key == key {
          return Some(orders[i]);
        }
        assert orders[i..][1..] == orders[i + 1..];
        i := i + 1;
      }
      return None;
    }

    /** Take the next number of a brand; the first one starts the counter. */
    method NextNumber(brand: string) returns (number: string)
      modifies this`counters
      ensures number == OrderNumber(NextValue(old(Snapshot()), brand))
      ensures counters == old(counters)[brand := NextValue(old(Snapshot()), brand) + 1]
    {
      var taken := if brand in counters then counters[brand] else 1;
      counters := counters[brand := taken + 1];
      number := OrderNumber(taken);
    }

    method MarkNegotiationCommitted(brand: string, negotiationId: string) returns (marked: bool)
      modifies this`negotiations
      ensures marked
        == ((brand, negotiationId) in old(negotiations) && old(negotiations)[(brand, negotiationId)] == N.Recommended)
      ensures negotiations == if marked then old(negotiations)[(brand, negotiationId) := N.PoCommitted]
        else old(negotiations)
    {
      marked := (brand, negotiationId) in negotiations && negotiations[(brand, negotiationId)] == N.Recommended;
      if marked {
        negotiations := negotiations[(brand, negotiationId) := N.PoCommitted];
      }
    }

    /**
     The writes of an issue, in the order of the source; on an error they are left half done for the caller to undo.
     */
    method PersistOrder(c: Command, s: OrderCodec.Snapshot) returns (result: Result<Reply, IssueError>)
      modifies this
      ensures result.Ok? == Persist(old(Snapshot()), c, s).Ok?
      ensures result.Ok? ==> Persist(old(Snapshot()), c, s).value == (Snapshot(), result.value)
      ensures result.Err? ==> Persist(old(Snapshot()), c, s).error == result.error
    {
      hide FindByIdempotency, Clashes, InCatalog, OrderNumber, Encode;
      var id := nextId;
      nextId := nextId + 1;
      var number := NextNumber(c.brand);
      var o := OrderRow(id, c.brand, number, c.request.negotiationId, s.selectedOffer.id, c.key, c.request,
                        OfferTotal(s.selectedOffer.lines), Map(StoreLine, s.selectedOffer.lines), Encode(s));
      assert o == RowFor(old(Snapshot()), c, s);
      var found := Find(c.brand, c.key);
      if found.Some? {
        return Err(NotReplayable);
      }
      if Clashes(o, orders) {
        return Err(UniqueViolation);
      }
      orders := orders + [o];
      if !InCatalog(s.selectedOffer.lines, c.catalog) {
        return Err(ProductUnavailable);
      }
      var marked := MarkNegotiationCommitted(c.brand, c.request.negotiationId);
      if !marked {
        return Err(InvalidState);
      }
      return Ok(Reply(id, number, false));
    }

    /** The issue transaction: an error undoes everything, the number it took included. */
    method IssueOrder(c: Command) returns (result: Result<Reply, IssueError>)
      modifies this
      ensures result.Ok? == Issue(old(Snapshot()), c).Ok?
      ensures result.Ok? ==> Issue(old(Snapshot()), c).value == (Snapshot(), result.value)
      ensures result.Err? ==> Issue(old(Snapshot()), c).error == result.error && Snapshot() == old(Snapshot())
      ensures old(Inv(Snapshot())) ==> Inv(Snapshot())
    {
      hide FindByIdempotency, Authorize, Persist, Readable, Inv;
      if Issue(Snapshot(), c).Ok? && Inv(Snapshot()) {
        IssueKeeps(Snapshot(), c);
      }
      if c.tokenLength < 16 {
        return Err(TokenTooShort);
      }
      var replay := Find(c.brand, c.key);
      if replay.Some? {
        if !Readable(replay.value) {
          return Err(CorruptSnapshot);
        }
        if replay.value.request != c.request {
          return Err(IdempotencyConflict);
        }
        return Ok(Reply(replay.value.id, replay.value.number, true));
      }
      var authorized := Authorize(Snapshot(), c);
      if authorized.Err? {
        return Err(authorized.error);
      }
      var before := Snapshot();
      result := PersistOrder(c, authorized.value);
      if result.Err? {
        counters, orders, negotiations, nextId := before.counters, before.orders, before.negotiations, before.nextId;
      }
    }
  }
}
