/**
 When a scenario is ready to be negotiated: three scans of its lines that must agree.

 packages/persistence/src/repositories: negotiation-codecs, latest-match-decisions, matching-unresolved,
 commercial-review, negotiation-start-facts; packages/application/src/commands/resolve-catalog-match.ts.
 */
module ReadinessGate {
  import opened Prelude
  import opened Decimal

  // -------------------------------------------------------- decoded numbers

  type Positive = n: int | n > 0 witness 1

  function PositiveInteger(text: string): Option<Positive> {
    if IsDecimal(text) && Value(text) > 0 then Some(Value(text)) else None
  }

  /** The place of the first dot, or the end. */
  function Dot(s: string): (i: nat)
    ensures i <= |s|
  {
    if s == "" || s[0] == '.' then 0 else 1 + Dot(s[1..])
  }

  /** Hundredths: no digit or two digits are as they are, one digit means tenths. */
  function Hundredths(s: string): nat {
    if |s| == 1 then 10 * Value(s) else Value(s)
  }

  /** An amount with at most two decimals, in minor units. */
  function MoneyMinor(s: string): Option<Positive> {
    var dot := Dot(s);
    var whole, fraction := s[..dot], if dot < |s| then s[dot + 1..] else "";
    if !IsDecimal(whole) || (dot < |s| && (!IsDecimal(fraction) || |fraction| > 2)) then None
    else
      var minor := 100 * Value(whole) + Hundredths(fraction);
      if minor > 0 then Some(minor) else None
  }

  function TwoDigits(n: nat): string
    requires n < 100
  {
    [Digit(n / 10), Digit(n % 10)]
  }

  function AmountText(minor: nat): string {
    Print(minor / 100) + "." + TwoDigits(minor % 100)
  }

  lemma {:induction false} DotAfter(s: string, rest: string)
    requires IsDecimal(s)
    ensures Dot(s + ("." + rest)) == |s|
  {
    var t := s + ("." + rest);
    assert s[0] in s && t[0] == s[0] && t[1..] == s[1..] + ("." + rest);
    if |s| > 1 {
      assert forall c | c in s[1..] :: c in s;
      DotAfter(s[1..], rest);
    } else {
      assert t[1..] == "." + rest;
    }
  }

  lemma ValueOfTwo(n: nat)
    requires n < 100
    ensures IsDecimal(TwoDigits(n)) && Value(TwoDigits(n)) == n
  {
    var s := TwoDigits(n);
    assert s[..1] == [Digit(n / 10)] && [Digit(n / 10)][..0] == "";
    assert Value(s[..1]) == n / 10;
  }

  /** Every positive amount can be written, and is read back exactly. */
  lemma AmountRoundTrip(minor: Positive)
    ensures MoneyMinor(AmountText(minor)) == Some(minor)
  {
    var whole, fraction := Print(minor / 100), TwoDigits(minor % 100);
    ValueOfPrint(minor / 100);
    ValueOfTwo(minor % 100);
    DotAfter(whole, fraction);
    assert AmountText(minor) == whole + ("." + fraction);
    assert AmountText(minor)[..|whole|] == whole && AmountText(minor)[|whole| + 1..] == fraction;
  }

  lemma ValueOfOne(d: nat)
    requires d < 10
    ensures IsDecimal([Digit(d)]) && Value([Digit(d)]) == d
  {
    assert [Digit(d)][..0] == "";
  }

  lemma {:induction false} NoDot(s: string)
    requires forall c | c in s :: IsDigit(c)
    ensures Dot(s) == |s|
  {
    if s != "" {
      assert s[0] in s;
      NoDot(s[1..]);
    }
  }

  /** One decimal means tenths, and no decimal means whole units; zero is no price. */
  lemma ShortAmounts(units: nat, tenths: nat)
    requires tenths < 10
    ensures MoneyMinor(Print(units)) == if units > 0 then Some(100 * units) else None
    ensures MoneyMinor(Print(units) + ("." + [Digit(tenths)]))
         == if units > 0 || tenths > 0 then Some(100 * units + 10 * tenths) else None
  {
    var whole, fraction := Print(units), [Digit(tenths)];
    ValueOfPrint(units);
    NoDot(whole);
    assert whole[..|whole|] == whole;
    ValueOfOne(tenths);
    DotAfter(whole, fraction);
    var s := whole + ("." + fraction);
    assert s[..|whole|] == whole && s[|whole| + 1..] == fraction;
  }

  /** Whatever is read as a price consists of digits, with at most one dot and at most two digits after it. */
  lemma OnlyAmountsAreRead(s: string)
    requires MoneyMinor(s).Some?
    ensures IsDecimal(s[..Dot(s)])
    ensures s == s[..Dot(s)] || (s == s[..Dot(s)] + "." + s[Dot(s) + 1..] && 1 <= |s[Dot(s) + 1..]| <= 2
                                 && IsDecimal(s[Dot(s) + 1..]))
  {
    DotIsThere(s);
    if Dot(s) == |s| {
      assert s[..|s|] == s;
    } else {
      assert s == s[..Dot(s)] + [s[Dot(s)]] + s[Dot(s) + 1..];
    }
  }

  lemma {:induction false} DotIsThere(s: string)
    ensures Dot(s) < |s| ==> s[Dot(s)] == '.'
  {
    if s != "" && s[0] != '.' {
      DotIsThere(s[1..]);
    }
  }

  // ------------------------------------------------------------ price tiers

  datatype TierMinimum = NumberMinimum(number: int) | TextMinimum(text: string) | NoMinimum

  datatype TierEntry = TierEntry(minimum: TierMinimum, unitPrice: Option<string>)

  /** The parsed cells of a line: every quantity and unit price that was found, and the tiers. */
  datatype Candidates = Candidates(
    quantities: seq<Option<string>>, unitPrices: seq<Option<string>>, tiers: seq<TierEntry>, ambiguous: bool)

  datatype PriceTier = PriceTier(minimum: Positive, price: Positive)

  const MAX_SAFE_INTEGER := 9007199254740991

  function TierMinimumOf(minimum: TierMinimum): Option<Positive> {
    match minimum
    case NumberMinimum(n) => if 0 < n <= MAX_SAFE_INTEGER then Some(n) else None
    case TextMinimum(s) => PositiveInteger(s)
    case NoMinimum => None
  }

  function TierPriceOf(price: Option<string>): Option<Positive> {
    if price.None? then None else MoneyMinor(price.value)
  }

  function PriceTiersOf(entries: seq<TierEntry>): seq<PriceTier> {
    if entries == [] then []
    else
      var minimum, price := TierMinimumOf(entries[0].minimum), TierPriceOf(entries[0].unitPrice);
      (if minimum.Some? && price.Some? then [PriceTier(minimum.value, price.value)] else [])
        + PriceTiersOf(entries[1..])
  }

  function PriceTiers(c: Candidates): seq<PriceTier> {
    PriceTiersOf(c.tiers)
  }

  function SmallestMinimum(tiers: seq<PriceTier>): Positive
    requires tiers != []
  {
    if |tiers| == 1 then tiers[0].minimum
    else
      var rest := SmallestMinimum(tiers[1..]);
      if rest < tiers[0].minimum then rest else tiers[0].minimum
  }

  function MinimumOrderQuantity(c: Candidates): Option<Positive> {
    if PriceTiers(c) == [] then None else Some(SmallestMinimum(PriceTiers(c)))
  }

  /** A tier that applies to `quantity` with the largest minimum. */
  function ApplicableTier(tiers: seq<PriceTier>, quantity: Positive): Option<PriceTier> {
    if tiers == [] then None
    else
      var rest := ApplicableTier(tiers[1..], quantity);
      if tiers[0].minimum > quantity then rest
      else if rest.Some? && rest.value.minimum > tiers[0].minimum then rest
      else Some(tiers[0])
  }

  /** The value of the only candidate. */
  function SingleCandidate(values: seq<Option<string>>): Option<string> {
    if |values| == 1 then values[0] else None
  }

  function CommercialQuantity(c: Candidates): Option<Positive> {
    var text := SingleCandidate(c.quantities);
    if text.None? then None else PositiveInteger(text.value)
  }

  function CommercialUnitPrice(c: Candidates, quantity: Option<Positive>): Option<Positive> {
    if quantity.Some? && PriceTiers(c) != [] then
      var tier := ApplicableTier(PriceTiers(c), quantity.value);
      if tier.None? then None else Some(tier.value.price)
    else
      var text := SingleCandidate(c.unitPrices);
      if text.None? then None else MoneyMinor(text.value)
  }

  lemma {:induction false} SmallestMinimumFacts(tiers: seq<PriceTier>)
    requires tiers != []
    ensures forall tier | tier in tiers :: SmallestMinimum(tiers) <= tier.minimum
    ensures exists tier :: tier in tiers && tier.minimum == SmallestMinimum(tiers)
  {
    if |tiers| > 1 {
      SmallestMinimumFacts(tiers[1..]);
      if SmallestMinimum(tiers) == tiers[0].minimum {
        assert tiers[0] in tiers;
      } else {
        var tier :| tier in tiers[1..] && tier.minimum == SmallestMinimum(tiers[1..]);
        assert tier in tiers;
      }
    } else {
      assert tiers[0] in tiers;
    }
  }

  lemma {:induction false} ApplicableTierFacts(tiers: seq<PriceTier>, quantity: Positive)
    ensures var best := ApplicableTier(tiers, quantity);
      && (best.None? ==> forall tier | tier in tiers :: quantity < tier.minimum)
      && (best.Some? ==>
            && best.value in tiers && best.value.minimum <= quantity
            && forall tier | tier in tiers && tier.minimum <= quantity :: tier.minimum <= best.value.minimum)
  {
    if tiers != [] {
      ApplicableTierFacts(tiers[1..], quantity);
      assert forall tier | tier in tiers :: tier == tiers[0] || tier in tiers[1..];
    }
  }

  /** With tiers, a price exists exactly from the smallest minimum on, and it is that of the highest tier reached. */
  lemma TierPriceIff(c: Candidates, quantity: Positive)
    requires PriceTiers(c) != []
    ensures var price := CommercialUnitPrice(c, Some(quantity));
      && (price.Some? <==> MinimumOrderQuantity(c).value <= quantity)
      && (price.Some? ==>
            exists best :: best in PriceTiers(c) && best.price == price.value && best.minimum <= quantity
              && forall tier | tier in PriceTiers(c) && tier.minimum <= quantity :: tier.minimum <= best.minimum)
  {
    hide PriceTiers, SmallestMinimum, ApplicableTier;
    SmallestMinimumFacts(PriceTiers(c));
    ApplicableTierFacts(PriceTiers(c), quantity);
  }

  /** A tier as a parsed cell may hold it: its minimum as a number or as text. */
  function WrittenTier(tier: PriceTier, asText: bool): TierEntry {
    TierEntry(if asText then TextMinimum(Print(tier.minimum)) else NumberMinimum(tier.minimum),
              Some(AmountText(tier.price)))
  }

  lemma WrittenTierIsRead(tier: PriceTier, asText: bool)
    requires asText || tier.minimum <= MAX_SAFE_INTEGER
    ensures PriceTiersOf([WrittenTier(tier, asText)]) == [tier]
  {
    ValueOfPrint(tier.minimum);
    AmountRoundTrip(tier.price);
  }

  lemma {:induction false} TiersAppend(a: seq<TierEntry>, b: seq<TierEntry>)
    ensures PriceTiersOf(a + b) == PriceTiersOf(a) + PriceTiersOf(b)
  {
    hide TierMinimumOf, TierPriceOf;
    if a == [] {
      assert a + b == b;
    } else {
      assert (a + b)[0] == a[0] && (a + b)[1..] == a[1..] + b;
      TiersAppend(a[1..], b);
    }
  }

  function WrittenTiers(tiers: seq<PriceTier>, asText: PriceTier -> bool): seq<TierEntry> {
    if tiers == [] then [] else [WrittenTier(tiers[0], asText(tiers[0]))] + WrittenTiers(tiers[1..], asText)
  }

  /** Written tiers are read back, all of them and in order, with either form of the minimum. */
  lemma {:induction false} TiersAreRead(tiers: seq<PriceTier>, asText: PriceTier -> bool)
    requires forall tier | tier in tiers :: asText(tier) || tier.minimum <= MAX_SAFE_INTEGER
    ensures PriceTiersOf(WrittenTiers(tiers, asText)) == tiers
  {
    if tiers != [] {
      assert tiers[0] in tiers;
      WrittenTierIsRead(tiers[0], asText(tiers[0]));
      TiersAreRead(tiers[1..], asText);
      TiersAppend([WrittenTier(tiers[0], asText(tiers[0]))], WrittenTiers(tiers[1..], asText));
    }
  }

  /** A cell without a usable minimum or without a price is no tier, wherever it stands. */
  lemma UnusableTiersAreSkipped(before: seq<TierEntry>, entry: TierEntry, after: seq<TierEntry>)
    requires
      || entry.minimum == NoMinimum
      || (entry.minimum.NumberMinimum? && !(1 <= entry.minimum.number <= MAX_SAFE_INTEGER))
      || entry.unitPrice.None?
    ensures PriceTiersOf(before + [entry] + after) == PriceTiersOf(before + after)
  {
    hide MoneyMinor, PositiveInteger;
    TiersAppend(before, [entry]);
    TiersAppend(before + [entry], after);
    TiersAppend(before, after);
    assert PriceTiersOf([entry]) == [] + PriceTiersOf([entry][1..]);
  }

  /**
   Without tiers the price is the one unit price that was found, whatever the quantities are; with none or several
   there is no price.
   */
  lemma UntieredPrice(c: Candidates, quantity: Option<Positive>, price: Positive)
    requires PriceTiers(c) == []
    ensures c.unitPrices == [Some(AmountText(price))] ==> CommercialUnitPrice(c, quantity) == Some(price)
    ensures |c.unitPrices| != 1 || c.unitPrices == [None] ==> CommercialUnitPrice(c, quantity) == None
  {
    AmountRoundTrip(price);
  }

  /** The quantity is the one quantity that was found; with none or several there is no quantity. */
  lemma SingleQuantity(c: Candidates, n: Positive)
    ensures c.quantities == [Some(Print(n))] ==> CommercialQuantity(c) == Some(n)
    ensures |c.quantities| != 1 || c.quantities in {[None], [Some("0")], [Some("")]} ==> CommercialQuantity(c) == None
  {
    ValueOfPrint(n);
    assert "0"[..0] == "";
  }

  // ------------------------------------------------------------------- rows

  datatype QuoteLine = QuoteLine(id: string, candidates: Candidates, requestedQuantity: Option<Positive>)

  datatype MatchDecision = MatchDecision(lineId: string, selected: Option<string>, excluded: bool)

  /** The first row of a line, in the order of the query: latest first. */
  function LatestOf(decisions: seq<MatchDecision>, lineId: string): Option<MatchDecision> {
    if decisions == [] then None
    else if decisions[0].lineId == lineId then Some(decisions[0])
    else LatestOf(decisions[1..], lineId)
  }

  lemma {:induction false} LatestOfAppend(decisions: seq<MatchDecision>, last: MatchDecision, lineId: string)
    ensures LatestOf(decisions + [last], lineId)
         == if LatestOf(decisions, lineId).Some? then LatestOf(decisions, lineId)
            else if last.lineId == lineId then Some(last) else None
  {
    if decisions == [] {
      assert decisions + [last] == [last] && [last][1..] == [];
    } else {
      assert (decisions + [last])[1..] == decisions[1..] + [last];
      LatestOfAppend(decisions[1..], last, lineId);
    }
  }

  method LoadLatestMatchDecisions(decisions: seq<MatchDecision>) returns (latest: map<string, MatchDecision>)
    ensures forall id :: id in latest <==> LatestOf(decisions, id).Some?
    ensures forall id | id in latest :: latest[id] == LatestOf(decisions, id).value
  {
    latest := map[];
    for i := 0 to |decisions|
      invariant forall id :: id in latest <==> LatestOf(decisions[..i], id).Some?
      invariant forall id | id in latest :: latest[id] == LatestOf(decisions[..i], id).value
    {
      var decision := decisions[i];
      forall id ensures LatestOf(decisions[..i + 1], id)
                     == if LatestOf(decisions[..i], id).Some? then LatestOf(decisions[..i], id)
                        else if decision.lineId == id then Some(decision) else None {
        assert decisions[..i + 1] == decisions[..i] + [decision];
        LatestOfAppend(decisions[..i], decision, id);
      }
      if decision.lineId !in latest {
        latest := latest[decision.lineId := decision];
      }
    }
    assert decisions[..|decisions|] == decisions;
  }

  // -------------------------------------------------------------- the scans

  predicate Excluded(line: QuoteLine, ds: seq<MatchDecision>) {
    LatestOf(ds, line.id).Some? && LatestOf(ds, line.id).value.excluded
  }

  predicate Included(line: QuoteLine, ds: seq<MatchDecision>) {
    LatestOf(ds, line.id).Some? && !LatestOf(ds, line.id).value.excluded && LatestOf(ds, line.id).value.selected.Some?
  }

  function QuantityOf(line: QuoteLine): Option<Positive> {
    if line.requestedQuantity.Some? then line.requestedQuantity else CommercialQuantity(line.candidates)
  }

  function PriceOf(line: QuoteLine): Option<Positive> {
    CommercialUnitPrice(line.candidates, QuantityOf(line))
  }

  predicate Priced(line: QuoteLine) {
    QuantityOf(line).Some? && PriceOf(line).Some?
  }

  /** What a buyer asked for goes before what the sheet says. */
  lemma RequestedGoesFirst(line: QuoteLine, n: Positive)
    ensures line.requestedQuantity == Some(n) ==> QuantityOf(line) == Some(n)
    ensures line.requestedQuantity == None && line.candidates.quantities == [Some(Print(n))] ==>
      QuantityOf(line) == Some(n)
    ensures line.requestedQuantity == None && |line.candidates.quantities| != 1 ==> QuantityOf(line) == None
  {
    SingleQuantity(line.candidates, n);
  }

  function IncludedLines(lines: seq<QuoteLine>, ds: seq<MatchDecision>): seq<QuoteLine> {
    Filter((line: QuoteLine) => Included(line, ds), lines)
  }

  /** Lines that are neither excluded nor matched. */
  function UndecidedLines(lines: seq<QuoteLine>, ds: seq<MatchDecision>): seq<QuoteLine> {
    Filter((line: QuoteLine) => !Excluded(line, ds) && !Included(line, ds), lines)
  }

  /** Lines that can be ordered: matched, with a quantity and a price. */
  function OrderableLines(lines: seq<QuoteLine>, ds: seq<MatchDecision>): seq<QuoteLine> {
    Filter((line: QuoteLine) => Included(line, ds) && Priced(line), lines)
  }

  /** Lines that are not excluded and cannot be ordered. */
  function BlockedLines(lines: seq<QuoteLine>, ds: seq<MatchDecision>): seq<QuoteLine> {
    Filter((line: QuoteLine) => !Excluded(line, ds) && !(Included(line, ds) && Priced(line)), lines)
  }

  lemma ScanOneMore(lines: seq<QuoteLine>, i: nat, ds: seq<MatchDecision>)
    requires i < |lines|
    ensures var line := lines[i];
      && IncludedLines(lines[..i + 1], ds)
        == IncludedLines(lines[..i], ds) + (if Included(line, ds) then [line] else [])
      && UndecidedLines(lines[..i + 1], ds)
         == UndecidedLines(lines[..i], ds) + (if !Excluded(line, ds) && !Included(line, ds) then [line] else [])
  {
    hide LatestOf;
    assert lines[..i + 1] == lines[..i] + [lines[i]];
    FilterAppend((line: QuoteLine) => Included(line, ds), lines[..i], [lines[i]]);
    FilterAppend((line: QuoteLine) => !Excluded(line, ds) && !Included(line, ds), lines[..i], [lines[i]]);
  }

  lemma FactsOneMore(lines: seq<QuoteLine>, i: nat, ds: seq<MatchDecision>)
    requires i < |lines|
    ensures var line := lines[i];
      && OrderableLines(lines[..i + 1], ds)
         == OrderableLines(lines[..i], ds) + (if Included(line, ds) && Priced(line) then [line] else [])
      && BlockedLines(lines[..i + 1], ds)
         == BlockedLines(lines[..i], ds)
           + (if !Excluded(line, ds) && !(Included(line, ds) && Priced(line)) then [line] else [])
  {
    hide LatestOf, QuantityOf, PriceOf;
    assert lines[..i + 1] == lines[..i] + [lines[i]];
    FilterAppend((line: QuoteLine) => Included(line, ds) && Priced(line), lines[..i], [lines[i]]);
    FilterAppend((line: QuoteLine) => !Excluded(line, ds)
      && !(Included(line, ds) && Priced(line)), lines[..i], [lines[i]]);
  }

  /** How many lines still need a decision, and how many take part. */
  method LoadMatchResolutionSummary(lines: seq<QuoteLine>, ds: seq<MatchDecision>)
    returns (unresolved: nat, included: nat)
    ensures unresolved == |UndecidedLines(lines, ds)| && included == |IncludedLines(lines, ds)|
  {
    hide LatestOf, UndecidedLines, IncludedLines;
    unresolved, included := 0, 0;
    NoLines(ds);
    if lines == [] {
      return;
    }
    var latest := LoadLatestMatchDecisions(ds);
    for i := 0 to |lines|
      invariant unresolved == |UndecidedLines(lines[..i], ds)| && included == |IncludedLines(lines[..i], ds)|
    {
      ScanOneMore(lines, i, ds);
      var id := lines[i].id;
      if id !in latest || (!latest[id].excluded && latest[id].selected.None?) {
        unresolved := unresolved + 1;
      } else if !latest[id].excluded && latest[id].selected.Some? {
        included := included + 1;
      }
    }
    assert lines[..|lines|] == lines;
  }

  lemma NoLines(ds: seq<MatchDecision>)
    ensures UndecidedLines([], ds) == [] && IncludedLines([], ds) == [] && OrderableLines([], ds) == []
      && BlockedLines([], ds) == []
  {
  }

  datatype StartLine = StartLine(productId: string, quantity: Positive, baselineUnitPriceMinor: Positive)

  function ProductOf(line: QuoteLine, ds: seq<MatchDecision>): string {
    var latest := LatestOf(ds, line.id);
    if latest.Some? && latest.value.selected.Some? then latest.value.selected.value else ""
  }

  predicate IsStartLine(start: StartLine, line: QuoteLine, ds: seq<MatchDecision>) {
    && start.productId == ProductOf(line, ds)
    && Some(start.quantity) == QuantityOf(line)
    && Some(start.baselineUnitPriceMinor) == PriceOf(line)
  }

  /** The lines of the order, in the order of the rows, and how many rows stand in its way. */
  method LoadStartFacts(lines: seq<QuoteLine>, ds: seq<MatchDecision>)
    returns (unresolvedMatchCount: nat, orderLines: seq<StartLine>)
    ensures unresolvedMatchCount == |BlockedLines(lines, ds)|
    ensures |orderLines| == |OrderableLines(lines, ds)|
    ensures forall k :: 0 <= k < |orderLines| ==> IsStartLine(orderLines[k], OrderableLines(lines, ds)[k], ds)
  {
    hide LatestOf, BlockedLines, OrderableLines, QuantityOf, CommercialUnitPrice;
    var latest := LoadLatestMatchDecisions(ds);
    unresolvedMatchCount, orderLines := 0, [];
    NoLines(ds);
    for i := 0 to |lines|
      invariant unresolvedMatchCount == |BlockedLines(lines[..i], ds)|
      invariant |orderLines| == |OrderableLines(lines[..i], ds)|
      invariant forall k :: 0 <= k < |orderLines| ==> IsStartLine(orderLines[k], OrderableLines(lines[..i], ds)[k], ds)
    {
      FactsOneMore(lines, i, ds);
      var line := lines[i];
      var quantity := QuantityOf(line);
      var baselineUnitPriceMinor := CommercialUnitPrice(line.candidates, quantity);
      if line.id in latest && latest[line.id].excluded {
        continue;
      }
      if line.id !in latest || latest[line.id].selected.None? || quantity.None? || baselineUnitPriceMinor.None? {
        unresolvedMatchCount := unresolvedMatchCount + 1;
        continue;
      }
      orderLines := orderLines
        + [StartLine(latest[line.id].selected.value, quantity.value, baselineUnitPriceMinor.value)];
    }
    assert lines[..|lines|] == lines;
  }

  datatype ReviewReason = MissingRequestedQuantity | NoPriceForRequestedQuantity | MissingUnitPrice
    | AmbiguousCommercialFields

  function ReasonNumber(reason: ReviewReason): nat {
    match reason
    case MissingRequestedQuantity => 1
    case NoPriceForRequestedQuantity => 2
    case MissingUnitPrice => 3
    case AmbiguousCommercialFields => 4
  }

  /** Why a line needs a person, in the order in which the reasons are found. */
  method CommercialReviewReasons(c: Candidates, requested: Option<Positive>) returns (reasons: seq<ReviewReason>)
    ensures var quantity := if requested.Some? then requested else CommercialQuantity(c);
      && (MissingRequestedQuantity in reasons <==> quantity.None?)
      && (NoPriceForRequestedQuantity in reasons <==> quantity.Some? && CommercialUnitPrice(c, quantity).None?)
      && (MissingUnitPrice in reasons <==> CommercialUnitPrice(c, None).None? && PriceTiers(c) == [])
      && (AmbiguousCommercialFields in reasons <==> c.ambiguous)
    ensures forall i, j :: 0 <= i < j < |reasons| ==> ReasonNumber(reasons[i]) < ReasonNumber(reasons[j])
    ensures reasons == [] <==> Clear(c, if requested.Some? then requested else CommercialQuantity(c))
  {
    hide PriceTiers, CommercialQuantity, ApplicableTier;
    var quantity := if requested.Some? then requested else CommercialQuantity(c);
    reasons := [];
    if quantity.None? {
      reasons := reasons + [MissingRequestedQuantity];
    }
    if quantity.Some? && CommercialUnitPrice(c, quantity).None? {
      reasons := reasons + [NoPriceForRequestedQuantity];
    }
    if CommercialUnitPrice(c, None).None? && PriceTiers(c) == [] {
      reasons := reasons + [MissingUnitPrice];
    }
    if c.ambiguous {
      reasons := reasons + [AmbiguousCommercialFields];
    }
  }

  /** A line needs nobody exactly when it has a quantity, a price for it, and unambiguous cells. */
  predicate Clear(c: Candidates, quantity: Option<Positive>) {
    quantity.Some? && CommercialUnitPrice(c, quantity).Some? && !c.ambiguous
  }

  method HasBlockers(lines: seq<QuoteLine>, ds: seq<MatchDecision>) returns (blocked: bool)
    ensures blocked <==> exists line ::
      line in lines && !Excluded(line, ds) && !(Priced(line) && !line.candidates.ambiguous)
  {
    hide LatestOf, CommercialQuantity, CommercialUnitPrice;
    var latest := LoadLatestMatchDecisions(ds);
    for i := 0 to |lines|
      invariant forall k :: 0 <= k < i ==>
        Excluded(lines[k], ds) || (Priced(lines[k]) && !lines[k].candidates.ambiguous)
    {
      var line := lines[i];
      assert line in lines;
      if line.id !in latest || !latest[line.id].excluded {
        var reasons := CommercialReviewReasons(line.candidates, line.requestedQuantity);
        if reasons != [] {
          return true;
        }
      }
    }
    return false;
  }

  // ---------------------------------------------------------------- the gate

  /** The condition under which a quotation becomes READY. */
  ghost predicate GateOpens(lines: seq<QuoteLine>, ds: seq<MatchDecision>) {
    && UndecidedLines(lines, ds) == []
    && IncludedLines(lines, ds) != []
    && !exists line :: line in lines && !Excluded(line, ds) && !(Priced(line) && !line.candidates.ambiguous)
  }

  lemma {:induction false} AllOrderable(lines: seq<QuoteLine>, ds: seq<MatchDecision>)
    requires forall line | line in lines :: Excluded(line, ds) || (Included(line, ds) && Priced(line))
    ensures OrderableLines(lines, ds) == IncludedLines(lines, ds)
    ensures UndecidedLines(lines, ds) == [] && BlockedLines(lines, ds) == []
  {
    hide Priced, LatestOf;
    if lines != [] {
      assert lines[0] in lines;
      AllOrderable(lines[1..], ds);
    }
  }

  /**
   The gates agree: a scenario passes the review gate exactly when the facts read at the start leave nothing unresolved,
   hold a line, and no line that takes part is ambiguous.
   */
  lemma GatesAgree(lines: seq<QuoteLine>, ds: seq<MatchDecision>)
    ensures GateOpens(lines, ds) <==>
      && BlockedLines(lines, ds) == []
      && OrderableLines(lines, ds) != []
      && forall line | line in lines && Included(line, ds) :: !line.candidates.ambiguous
    ensures GateOpens(lines, ds) ==> OrderableLines(lines, ds) == IncludedLines(lines, ds)
  {
    hide Priced, LatestOf;
    if GateOpens(lines, ds) {
      forall line | line in lines ensures Excluded(line, ds) || (Included(line, ds) && Priced(line)) {
        assert line !in UndecidedLines(lines, ds);
      }
      AllOrderable(lines, ds);
    }
    if BlockedLines(lines, ds) == [] {
      forall line | line in lines ensures Excluded(line, ds) || (Included(line, ds) && Priced(line)) {
        assert line !in BlockedLines(lines, ds);
      }
      AllOrderable(lines, ds);
    }
  }

  /** The quotation becomes READY when the gate of its selected scenario opens, unless it is READY already. */
  method BecomesReady(
    lines: seq<QuoteLine>, ds: seq<MatchDecision>, resolved: string, selected: Option<string>, alreadyReady: bool)
    returns (ready: bool)
    ensures ready <==> GateOpens(lines, ds) && selected == Some(resolved) && !alreadyReady
  {
    hide Priced, LatestOf;
    var unresolved, included := LoadMatchResolutionSummary(lines, ds);
    var blocked := HasBlockers(lines, ds);
    ready := unresolved == 0 && included > 0 && !blocked && selected == Some(resolved) && !alreadyReady;
  }

  /** A start right after that is given one line for each line that takes part, in order, and nothing unresolved. */
  method StartAfterGate(lines: seq<QuoteLine>, ds: seq<MatchDecision>, scenario: string)
    returns (ready: bool, unresolvedMatchCount: nat, orderLines: seq<StartLine>)
    ensures ready <==> GateOpens(lines, ds)
    ensures ready ==> unresolvedMatchCount == 0 && orderLines != [] && |orderLines| == |IncludedLines(lines, ds)|
    ensures ready ==> forall k :: 0 <= k < |orderLines| ==> IsStartLine(orderLines[k], IncludedLines(lines, ds)[k], ds)
  {
    hide Priced, LatestOf, IsStartLine;
    GatesAgree(lines, ds);
    ready := BecomesReady(lines, ds, scenario, Some(scenario), false);
    unresolvedMatchCount, orderLines := LoadStartFacts(lines, ds);
  }
}
