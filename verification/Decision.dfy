/** The decision engine of packages/decision/src, over exact rationals. */
module Decision {
  import opened Prelude
  import opened Sorting

  type OfferId = nat

  datatype Candidate = Candidate(
    offerId: OfferId,
    supplier: Supplier,
    totalMinor: int,
    quality: real,
    leadTimeDays: int,
    preShipmentBps: int,
    policyValid: bool,
    currency: string,
    capacityPercent: int)

  /** One number for each criterion: weights, or normalised values. */
  datatype Criteria = Criteria(cost: real, quality: real, lead: real, payment: real)

  datatype Criterion = Cost | Quality | Lead | Payment

  datatype Direction = Increase | Decrease

  /** The quality that the decision assigns to each supplier. */
  function SupplierQuality(supplier: Supplier): real {
    match supplier
    case S1 => 4.0
    case S2 => 4.7
    case S3 => 4.0
  }

  // ---------------------------------------------------------------- scoring

  function Clamp(value: real): real {
    if value < 0.0 then 0.0 else if value > 1.0 then 1.0 else value
  }

  function NormalizedValues(c: Candidate, baselineMinor: int): Criteria
    requires baselineMinor > 0
  {
    var baseline := baselineMinor as real;
    Criteria(
      Clamp((1.15 * baseline - c.totalMinor as real) / (0.23 * baseline)),
      Clamp((c.quality - 4.0) / 0.7),
      Clamp((55.0 - c.leadTimeDays as real) / 43.0),
      Clamp((10000.0 - c.preShipmentBps as real) / 7000.0))
  }

  /** The anchors of the four value functions: where each is full, and where it is empty. */
  lemma ValueAnchors(c: Candidate, baselineMinor: int)
    requires baselineMinor > 0
    ensures var v := NormalizedValues(c, baselineMinor);
      && 0.0 <= v.cost <= 1.0 && 0.0 <= v.quality <= 1.0 && 0.0 <= v.lead <= 1.0 && 0.0 <= v.payment <= 1.0
      && (v.cost == 1.0 <==> c.totalMinor as real <= 0.92 * baselineMinor as real)
      && (v.cost == 0.0 <==> c.totalMinor as real >= 1.15 * baselineMinor as real)
      && (v.quality == 1.0 <==> c.quality >= 4.7) && (v.quality == 0.0 <==> c.quality <= 4.0)
      && (v.lead == 1.0 <==> c.leadTimeDays <= 12) && (v.lead == 0.0 <==> c.leadTimeDays >= 55)
      && (v.payment == 1.0 <==> c.preShipmentBps <= 3000) && (v.payment == 0.0 <==> c.preShipmentBps >= 10000)
  {
    var b := baselineMinor as real;
    QuotientAnchors(1.15 * b - c.totalMinor as real, 0.23 * b);
  }

  /** Between its anchors each value interpolates: the measure is the mixture of both anchors that the value says. */
  lemma ValuesInterpolate(c: Candidate, baselineMinor: int)
    requires baselineMinor > 0
    ensures var b, v := baselineMinor as real, NormalizedValues(c, baselineMinor);
      && (0.92 * b <= c.totalMinor as real <= 1.15 * b ==>
            c.totalMinor as real == v.cost * (0.92 * b) + (1.0 - v.cost) * (1.15 * b))
      && (4.0 <= c.quality <= 4.7 ==> c.quality == v.quality * 4.7 + (1.0 - v.quality) * 4.0)
      && (12 <= c.leadTimeDays <= 55 ==> c.leadTimeDays as real == v.lead * 12.0 + (1.0 - v.lead) * 55.0)
      && (3000 <= c.preShipmentBps <= 10000 ==>
            c.preShipmentBps as real == v.payment * 3000.0 + (1.0 - v.payment) * 10000.0)
  {
    var b := baselineMinor as real;
    ClampedQuotient(1.15 * b - c.totalMinor as real, 0.23 * b);
    var v := NormalizedValues(c, baselineMinor).cost;
    assert v * (0.92 * b) + (1.0 - v) * (1.15 * b) == 1.15 * b - v * (0.23 * b);
  }

  lemma ClampedQuotient(x: real, d: real)
    requires d > 0.0
    ensures 0.0 <= x <= d ==> Clamp(x / d) * d == x
  {
    QuotientAnchors(x, d);
    assert (x / d) * d == x;
    assert x == d ==> x / d == 1.0;
  }

  /** Quality cannot separate S1 from S3: the one is as good as the other, and only S2 is better. */
  lemma QualityOfSuppliers(c: Candidate, baselineMinor: int)
    requires baselineMinor > 0 && c.quality == SupplierQuality(c.supplier)
    ensures NormalizedValues(c, baselineMinor).quality == if c.supplier == S2 then 1.0 else 0.0
  {
    ValueAnchors(c, baselineMinor);
  }

  lemma QuotientAnchors(x: real, d: real)
    requires d > 0.0
    ensures x / d >= 1.0 <==> x >= d
    ensures x / d <= 0.0 <==> x <= 0.0
  {
    assert x == (x / d) * d;
    if x / d >= 1.0 {
      MonotoneProduct(1.0, x / d, d);
    } else {
      assert (1.0 - x / d) * d > 0.0;
    }
    if x / d <= 0.0 {
      MonotoneProduct(x / d, 0.0, d);
    } else {
      assert (x / d) * d > 0.0;
    }
  }

  function Score(values: Criteria, weights: Criteria): real {
    values.cost * weights.cost + values.quality * weights.quality + values.lead * weights.lead
      + values.payment * weights.payment
  }

  function Plus(v: Criteria, w: Criteria): Criteria {
    Criteria(v.cost + w.cost, v.quality + w.quality, v.lead + w.lead, v.payment + w.payment)
  }

  /** With all the weight on one criterion, the score is the value of that criterion. */
  lemma ScoreOfOneCriterion(values: Criteria)
    ensures Score(values, Criteria(1.0, 0.0, 0.0, 0.0)) == values.cost
    ensures Score(values, Criteria(0.0, 1.0, 0.0, 0.0)) == values.quality
    ensures Score(values, Criteria(0.0, 0.0, 1.0, 0.0)) == values.lead
    ensures Score(values, Criteria(0.0, 0.0, 0.0, 1.0)) == values.payment
  {
  }

  /** The score is linear in the weights, so the four cases above determine it. */
  lemma ScoreIsLinear(values: Criteria, v: Criteria, w: Criteria, factor: real)
    ensures Score(values, Plus(v, w)) == Score(values, v) + Score(values, w)
    ensures Score(values, Scale(w, factor)) == Score(values, w) * factor
  {
    assert values.cost * (w.cost * factor) == (values.cost * w.cost) * factor;
    assert values.quality * (w.quality * factor) == (values.quality * w.quality) * factor;
    assert values.lead * (w.lead * factor) == (values.lead * w.lead) * factor;
    assert values.payment * (w.payment * factor) == (values.payment * w.payment) * factor;
  }

  /** Weights that sum to one give a weighted mean: no score lies outside the values it is made of. */
  lemma ScoreIsMean(values: Criteria, w: Criteria, low: real, high: real)
    requires NonNegative(w) && Total(w) == 1.0
    requires low <= values.cost <= high && low <= values.quality <= high
    requires low <= values.lead <= high && low <= values.payment <= high
    ensures low <= Score(values, w) <= high
  {
    var least, most := Criteria(low, low, low, low), Criteria(high, high, high, high);
    ScoreMonotone(values, least, w);
    ScoreMonotone(most, values, w);
    assert Score(least, w) == low * Total(w) && Score(most, w) == high * Total(w);
  }

  predicate NonNegative(w: Criteria) {
    w.cost >= 0.0 && w.quality >= 0.0 && w.lead >= 0.0 && w.payment >= 0.0
  }

  // ----------------------------------------------------------- Pareto front

  predicate Dominates(left: Candidate, right: Candidate) {
    && left.totalMinor <= right.totalMinor
    && left.quality >= right.quality
    && left.leadTimeDays <= right.leadTimeDays
    && left.preShipmentBps <= right.preShipmentBps
    && (|| left.totalMinor < right.totalMinor
        || left.quality > right.quality
        || left.leadTimeDays < right.leadTimeDays
        || left.preShipmentBps < right.preShipmentBps)
  }

  predicate AtLeastAsGood(left: Candidate, right: Candidate) {
    && left.totalMinor <= right.totalMinor
    && left.quality >= right.quality
    && left.leadTimeDays <= right.leadTimeDays
    && left.preShipmentBps <= right.preShipmentBps
  }

  /** Dominance is the strict part of being at least as good everywhere. */
  lemma DominanceIsStrict(left: Candidate, right: Candidate)
    ensures Dominates(left, right) <==> AtLeastAsGood(left, right) && !AtLeastAsGood(right, left)
  {
  }

  predicate OnFront(c: Candidate, eligible: seq<Candidate>) {
    forall other | other in eligible :: !(other.offerId != c.offerId && Dominates(other, c))
  }

  function ParetoFront(eligible: seq<Candidate>): seq<Candidate> {
    Filter(c => OnFront(c, eligible), eligible)
  }

  lemma MonotoneQuotient(x: real, y: real, d: real)
    requires x <= y && d > 0.0
    ensures x / d <= y / d
  {
  }

  lemma MonotoneProduct(x: real, y: real, w: real)
    requires x <= y && w >= 0.0
    ensures x * w <= y * w
  {
  }

  /** A dominating candidate is at least as good on every normalised value. */
  lemma DominatingValues(left: Candidate, right: Candidate, baselineMinor: int)
    requires baselineMinor > 0 && Dominates(left, right)
    ensures var l, r := NormalizedValues(left, baselineMinor), NormalizedValues(right, baselineMinor);
      l.cost >= r.cost && l.quality >= r.quality && l.lead >= r.lead && l.payment >= r.payment
  {
    var baseline := baselineMinor as real;
    MonotoneQuotient(1.15 * baseline - right.totalMinor as real, 1.15 * baseline - left.totalMinor as real,
      0.23 * baseline);
  }

  lemma ScoreMonotone(l: Criteria, r: Criteria, w: Criteria)
    requires NonNegative(w)
    requires l.cost >= r.cost && l.quality >= r.quality && l.lead >= r.lead && l.payment >= r.payment
    ensures Score(l, w) >= Score(r, w)
  {
    MonotoneProduct(r.cost, l.cost, w.cost);
    MonotoneProduct(r.quality, l.quality, w.quality);
    MonotoneProduct(r.lead, l.lead, w.lead);
    MonotoneProduct(r.payment, l.payment, w.payment);
  }

  lemma DominatingScore(left: Candidate, right: Candidate, baselineMinor: int, w: Criteria)
    requires baselineMinor > 0 && Dominates(left, right) && NonNegative(w)
    ensures Score(NormalizedValues(left, baselineMinor), w) >= Score(NormalizedValues(right, baselineMinor), w)
  {
    DominatingValues(left, right, baselineMinor);
    ScoreMonotone(NormalizedValues(left, baselineMinor), NormalizedValues(right, baselineMinor), w);
  }

  predicate UniqueIds(s: seq<Candidate>) {
    forall i, j :: 0 <= i < j < |s| ==> s[i].offerId != s[j].offerId
  }

  ghost function Dominators(c: Candidate, eligible: seq<Candidate>): set<Candidate> {
    set other | other in eligible && Dominates(other, c)
  }

  /** The front holds exactly the eligible candidates that no eligible candidate dominates. */
  lemma FrontIffUndominated(c: Candidate, eligible: seq<Candidate>)
    requires UniqueIds(eligible)
    ensures c in ParetoFront(eligible) <==> c in eligible && forall other | other in eligible :: !Dominates(other, c)
  {
    if c in eligible {
      forall other | other in eligible && other.offerId == c.offerId ensures other == c {
        var i :| 0 <= i < |eligible| && eligible[i] == c;
        var j :| 0 <= j < |eligible| && eligible[j] == other;
      }
    }
  }

  /** Every eligible candidate off the front is dominated by one on it. */
  lemma {:induction false} FrontDominates(c: Candidate, eligible: seq<Candidate>) returns (best: Candidate)
    requires c in eligible && UniqueIds(eligible)
    ensures best in ParetoFront(eligible)
    ensures best == c || Dominates(best, c)
    decreases Dominators(c, eligible)
  {
    if OnFront(c, eligible) {
      return c;
    }
    var other :| other in eligible && other.offerId != c.offerId && Dominates(other, c);
    assert other in Dominators(c, eligible) && other !in Dominators(other, eligible);
    assert Dominators(other, eligible) <= Dominators(c, eligible);
    best := FrontDominates(other, eligible);
  }

  // -------------------------------------------------------------- selection

  datatype Status = Recommended | ManualSelectionRequired | NoEligibleOffer

  datatype Scored = Scored(candidate: Candidate, score: real)

  datatype TieResult = TieResult(winner: Option<Candidate>, status: Status, trace: seq<string>)

  function CostOf(x: Scored): real {
    x.candidate.totalMinor as real
  }

  function LeadOf(x: Scored): real {
    x.candidate.leadTimeDays as real
  }

  /** Higher quality is less of this. */
  function LackOf(x: Scored): real {
    -x.candidate.quality
  }

  /** The least value of a measure. */
  function Least(measure: Scored -> real, s: seq<Scored>): (r: real)
    requires s != []
    ensures (forall x | x in s :: r <= measure(x)) && exists x :: x in s && measure(x) == r
  {
    if |s| == 1 then assert s[0] in s; measure(s[0])
    else
      var rest := Least(measure, s[1..]);
      assert forall x | x in s :: x == s[0] || x in s[1..];
      assert s[0] in s;
      if measure(s[0]) < rest then measure(s[0]) else rest
  }

  function OfScore(score: real, s: seq<Scored>): (r: seq<Scored>) {
    Filter((x: Scored) => x.score == score, s)
  }

  predicate AgreeOn(measure: Scored -> real, s: seq<Scored>) {
    forall x, y | x in s && y in s :: measure(x) == measure(y)
  }

  /** The entries that have it. */
  function OfLeast(measure: Scored -> real, s: seq<Scored>): (r: seq<Scored>)
    requires s != []
    ensures r != []
    ensures AgreeOn(measure, r) && forall x | x in r :: x in s
  {
    var least := Least(measure, s);
    Filter((x: Scored) => measure(x) == least, s)
  }

  /** Narrow the leaders by cost, then lead time, then quality, stopping as soon as one is left. */
  function BreakTie(ranked: seq<Scored>): TieResult {
    if ranked == [] then TieResult(None, NoEligibleOffer, ["no eligible offers"])
    else
      var leaders := OfScore(ranked[0].score, ranked);
      assert ranked[0] in leaders;
      if |leaders| == 1 then TieResult(Some(leaders[0].candidate), Recommended, ["highest weighted score"])
      else
        var cheapest := OfLeast(CostOf, leaders);
        if |cheapest| == 1 then TieResult(Some(cheapest[0].candidate), Recommended, ["score tie", "lower total cost"])
        else
          var fastest := OfLeast(LeadOf, cheapest);
          if |fastest| == 1 then
            TieResult(Some(fastest[0].candidate), Recommended, ["score tie", "cost tie", "lower lead time"])
          else
            var finest := OfLeast(LackOf, fastest);
            if |finest| == 1 then
              TieResult(Some(finest[0].candidate), Recommended, ["score tie", "cost tie", "lead tie", "higher quality"])
            else
              TieResult(None, ManualSelectionRequired,
                        ["score tie", "cost tie", "lead tie", "quality tie", "manual selection required"])
  }

  predicate HigherScoreFirst(x: Scored, y: Scored) {
    x.score >= y.score
  }

  function ScoreAll(eligible: seq<Candidate>, score: Candidate -> real): seq<Scored> {
    if eligible == [] then [] else [Scored(eligible[0], score(eligible[0]))] + ScoreAll(eligible[1..], score)
  }

  function SelectBy(eligible: seq<Candidate>, score: Candidate -> real): TieResult {
    BreakTie(Sort(ScoreAll(eligible, score), HigherScoreFirst))
  }

  function WeightedScore(baselineMinor: int, weights: Criteria): Candidate -> real
    requires baselineMinor > 0
  {
    c => Score(NormalizedValues(c, baselineMinor), weights)
  }

  function Select(eligible: seq<Candidate>, baselineMinor: int, weights: Criteria): TieResult
    requires baselineMinor > 0
  {
    SelectBy(eligible, WeightedScore(baselineMinor, weights))
  }

  // ------------------------------------------- what the selection means

  /** Higher score, then lower cost, then lower lead time, then higher quality. */
  predicate Better(x: Scored, y: Scored) {
    || x.score > y.score
    || (x.score == y.score && x.candidate.totalMinor < y.candidate.totalMinor)
    || (x.score == y.score && x.candidate.totalMinor == y.candidate.totalMinor
        && x.candidate.leadTimeDays < y.candidate.leadTimeDays)
    || (x.score == y.score && x.candidate.totalMinor == y.candidate.totalMinor
        && x.candidate.leadTimeDays == y.candidate.leadTimeDays && x.candidate.quality > y.candidate.quality)
  }

  /** `w` occurs once and is better than every other entry. */
  ghost predicate IsBest(w: Scored, ranked: seq<Scored>) {
    multiset(ranked)[w] == 1 && forall y | y in ranked && y != w :: Better(w, y)
  }

  lemma {:induction false} FilterCount<T>(p: T -> bool, s: seq<T>, x: T)
    ensures multiset(Filter(p, s))[x] == if p(x) then multiset(s)[x] else 0
  {
    if s != [] {
      assert s == [s[0]] + s[1..];
      FilterCount(p, s[1..], x);
    }
  }

  /** `tied` is the part of `ranked` that beats all the rest of it. */
  ghost predicate Leads(ranked: seq<Scored>, tied: seq<Scored>) {
    && (forall x | x in tied :: multiset(tied)[x] == multiset(ranked)[x])
    && (forall x, y | x in tied && y in ranked && y !in tied :: Better(x, y))
  }

  lemma ScoreStage(ranked: seq<Scored>)
    requires ranked != [] && SortedBy(ranked, HigherScoreFirst)
    ensures ranked[0] in OfScore(ranked[0].score, ranked)
    ensures Leads(ranked, OfScore(ranked[0].score, ranked))
  {
    forall x: Scored { FilterCount((x: Scored) => x.score == ranked[0].score, ranked, x); }
  }

  /** A lower measure is better. */
  ghost predicate Decides(measure: Scored -> real, s: seq<Scored>) {
    forall x, y | x in s && y in s && measure(x) < measure(y) :: Better(x, y)
  }

  /** Narrowing by a measure that decides between the leaders keeps the lead. */
  lemma Stage(ranked: seq<Scored>, tied: seq<Scored>, measure: Scored -> real)
    requires tied != [] && Leads(ranked, tied)
    requires Decides(measure, tied)
    ensures Leads(ranked, OfLeast(measure, tied))
  {
    hide Better;
    var least := Least(measure, tied);
    forall x: Scored { FilterCount((x: Scored) => measure(x) == least, tied, x); }
  }

  function ScoreOf(x: Scored): real {
    x.score
  }

  /** Among entries that agree so far, the next measure decides. */
  lemma CostDecides(s: seq<Scored>)
    requires AgreeOn(ScoreOf, s)
    ensures Decides(CostOf, s)
  {
  }

  lemma LeadDecides(s: seq<Scored>)
    requires AgreeOn(ScoreOf, s) && AgreeOn(CostOf, s)
    ensures Decides(LeadOf, s)
  {
    forall x, y | x in s && y in s && LeadOf(x) < LeadOf(y) ensures Better(x, y) {
      assert ScoreOf(x) == ScoreOf(y) && CostOf(x) == CostOf(y);
    }
  }

  lemma LackDecides(s: seq<Scored>)
    requires AgreeOn(ScoreOf, s) && AgreeOn(CostOf, s) && AgreeOn(LeadOf, s)
    ensures Decides(LackOf, s)
    ensures AgreeOn(LackOf, s) ==> forall x, y | x in s && y in s :: !Better(x, y)
  {
    forall x, y | x in s && y in s
      ensures LackOf(x) < LackOf(y) ==> Better(x, y)
      ensures LackOf(x) == LackOf(y) ==> !Better(x, y)
    {
      assert ScoreOf(x) == ScoreOf(y) && CostOf(x) == CostOf(y) && LeadOf(x) == LeadOf(y);
    }
  }

  lemma BestIsUnique(ranked: seq<Scored>, v: Scored, w: Scored)
    requires IsBest(v, ranked) && IsBest(w, ranked)
    ensures v == w
  {
    assert v in multiset(ranked) && w in multiset(ranked);
    assert v in ranked && w in ranked;
    assert !(Better(v, w) && Better(w, v));
  }

  lemma SingleLeaderIsBest(ranked: seq<Scored>, tied: seq<Scored>)
    requires |tied| == 1 && Leads(ranked, tied)
    ensures IsBest(tied[0], ranked)
    ensures forall w :: IsBest(w, ranked) ==> w == tied[0]
  {
    assert tied == [tied[0]] && tied[0] in tied;
    assert multiset(tied)[tied[0]] == 1;
    forall w | IsBest(w, ranked) ensures w == tied[0] {
      BestIsUnique(ranked, tied[0], w);
    }
  }

  lemma SharedLeadHasNoBest(ranked: seq<Scored>, tied: seq<Scored>)
    requires |tied| > 1 && Leads(ranked, tied)
    requires forall x, y | x in tied && y in tied :: !Better(x, y)
    ensures !exists w :: IsBest(w, ranked)
  {
    var x, y := tied[0], tied[1];
    assert tied == [x, y] + tied[2..];
    assert x in tied && y in tied;
    assert multiset(tied)[x] > 0 && multiset(tied)[y] > 0 && (x == y ==> multiset(tied)[x] > 1);
    assert x in multiset(ranked) && y in multiset(ranked);
    forall w: Scored ensures !IsBest(w, ranked) {
      assert IsBest(w, ranked) ==> w in multiset(ranked) && (Better(w, x) || Better(w, y));
      assert w in ranked && w !in tied ==> Better(x, w) && Better(y, w);
    }
  }

  /** The tie-break recommends the unique maximum of the order, and nothing when the maximum is shared. */
  lemma BreakTieIsUniqueMaximum(ranked: seq<Scored>)
    requires SortedBy(ranked, HigherScoreFirst)
    ensures var r := BreakTie(ranked);
      && (r.status == Recommended <==> exists w :: IsBest(w, ranked))
      && (r.status == ManualSelectionRequired <==> ranked != [] && !exists w :: IsBest(w, ranked))
      && (r.status == NoEligibleOffer <==> ranked == [])
      && (r.winner.Some? <==> r.status == Recommended)
      && (forall w | IsBest(w, ranked) :: r.winner == Some(w.candidate))
  {
    if ranked == [] {
      return;
    }
    hide Better, Decides, IsBest, Leads, OfLeast, Least, CostOf, LeadOf, LackOf;
    ScoreStage(ranked);
    var leaders := OfScore(ranked[0].score, ranked);
    if |leaders| == 1 {
      SingleLeaderIsBest(ranked, leaders);
      return;
    }
    CostDecides(leaders);
    Stage(ranked, leaders, CostOf);
    var cheapest := OfLeast(CostOf, leaders);
    if |cheapest| == 1 {
      SingleLeaderIsBest(ranked, cheapest);
      return;
    }
    LeadDecides(cheapest);
    Stage(ranked, cheapest, LeadOf);
    var fastest := OfLeast(LeadOf, cheapest);
    if |fastest| == 1 {
      SingleLeaderIsBest(ranked, fastest);
      return;
    }
    LackDecides(fastest);
    Stage(ranked, fastest, LackOf);
    var finest := OfLeast(LackOf, fastest);
    if |finest| == 1 {
      SingleLeaderIsBest(ranked, finest);
    } else {
      LackDecides(finest);
      SharedLeadHasNoBest(ranked, finest);
    }
  }

  /** Another entry has the score of `w`, and its cost and lead time when `depth` goes that far. */
  ghost predicate Ties(ranked: seq<Scored>, w: Scored, depth: nat) {
    exists y :: y in ranked && y != w && AgreesTo(w, y, depth)
  }

  predicate AgreesTo(x: Scored, y: Scored, depth: nat) {
    && x.score == y.score
    && (depth >= 2 ==> x.candidate.totalMinor == y.candidate.totalMinor)
    && (depth >= 3 ==> x.candidate.leadTimeDays == y.candidate.leadTimeDays)
  }

  /** `tied` holds all entries that agree with any one of it up to `depth`. */
  ghost predicate IsTiedGroup(ranked: seq<Scored>, tied: seq<Scored>, depth: nat) {
    && (forall x | x in tied :: x in ranked)
    && forall x, y | x in tied && y in ranked :: y in tied <==> AgreesTo(x, y, depth)
  }

  lemma CheapestGroup(ranked: seq<Scored>, leaders: seq<Scored>)
    requires leaders != [] && IsTiedGroup(ranked, leaders, 1)
    ensures IsTiedGroup(ranked, OfLeast(CostOf, leaders), 2)
  {
  }

  lemma FastestGroup(ranked: seq<Scored>, cheapest: seq<Scored>)
    requires cheapest != [] && IsTiedGroup(ranked, cheapest, 2)
    ensures IsTiedGroup(ranked, OfLeast(LeadOf, cheapest), 3)
  {
  }

  /** An entry that beats the others is among the leaders at every stage, alone exactly when nobody ties with it. */
  lemma LeaderStage(ranked: seq<Scored>, tied: seq<Scored>, w: Scored, depth: nat)
    requires tied != [] && Leads(ranked, tied) && IsBest(w, ranked) && IsTiedGroup(ranked, tied, depth)
    ensures w in tied
    ensures |tied| > 1 <==> Ties(ranked, w, depth)
    ensures |tied| == 1 ==> tied == [w]
  {
    assert w in multiset(ranked);
    assert tied[0] in tied && !(Better(tied[0], w) && Better(w, tied[0]));
    if |tied| > 1 {
      var i :| 0 <= i < |tied| && tied[i] == w;
      var j := if i == 0 then 1 else 0;
      assert multiset(tied)[w] == 1;
      if tied[j] == w {
        TwicePresent(tied, i, j);
      }
      assert AgreesTo(w, tied[j], depth);
    }
    if y :| y in ranked && y != w && AgreesTo(w, y, depth) {
      assert y in tied;
    }
  }

  lemma LeaderGroup(ranked: seq<Scored>)
    requires ranked != []
    ensures OfScore(ranked[0].score, ranked) != [] && IsTiedGroup(ranked, OfScore(ranked[0].score, ranked), 1)
  {
    assert ranked[0] in OfScore(ranked[0].score, ranked);
  }

  lemma NotEmpty(ranked: seq<Scored>, w: Scored)
    requires IsBest(w, ranked)
    ensures ranked != []
  {
  }

  lemma TieDepths(ranked: seq<Scored>, w: Scored)
    ensures Ties(ranked, w, 3) ==> Ties(ranked, w, 2)
    ensures Ties(ranked, w, 2) ==> Ties(ranked, w, 1)
  {
  }

  /** Where there is a best entry, quality is the last criterion that is needed. */
  lemma LastStage(ranked: seq<Scored>, fastest: seq<Scored>, w: Scored)
    requires fastest != [] && Leads(ranked, fastest) && IsBest(w, ranked)
    requires AgreeOn(ScoreOf, fastest) && AgreeOn(CostOf, fastest) && AgreeOn(LeadOf, fastest)
    ensures |OfLeast(LackOf, fastest)| == 1
  {
    hide Better, Decides, IsBest, Leads, OfLeast, Least, CostOf, LeadOf, LackOf;
    LackDecides(fastest);
    Stage(ranked, fastest, LackOf);
    var finest := OfLeast(LackOf, fastest);
    if |finest| > 1 {
      LackDecides(finest);
      SharedLeadHasNoBest(ranked, finest);
    }
  }

  lemma TwicePresent<T>(s: seq<T>, i: nat, j: nat)
    requires i < |s| && j < |s| && i != j && s[i] == s[j]
    ensures multiset(s)[s[i]] > 1
  {
    var lo, hi := if i < j then i else j, if i < j then j else i;
    assert s == s[..lo] + [s[lo]] + s[lo + 1..hi] + [s[hi]] + s[hi + 1..];
  }

  /** The trace of a recommendation names the criterion that settled it, and the ties before it. */
  lemma TraceNamesTheStage(ranked: seq<Scored>, w: Scored)
    requires SortedBy(ranked, HigherScoreFirst) && IsBest(w, ranked)
    ensures BreakTie(ranked).trace ==
      if !Ties(ranked, w, 1) then ["highest weighted score"]
      else if !Ties(ranked, w, 2) then ["score tie", "lower total cost"]
      else if !Ties(ranked, w, 3) then ["score tie", "cost tie", "lower lead time"]
      else ["score tie", "cost tie", "lead tie", "higher quality"]
  {
    hide Better, Decides, IsBest, Leads, Least, Ties, IsTiedGroup, OfLeast, CostOf, LeadOf;
    NotEmpty(ranked, w);
    ScoreStage(ranked);
    var leaders := OfScore(ranked[0].score, ranked);
    LeaderGroup(ranked);
    LeaderStage(ranked, leaders, w, 1);
    if |leaders| > 1 {
      CostDecides(leaders);
      Stage(ranked, leaders, CostOf);
      CheapestGroup(ranked, leaders);
      var cheapest := OfLeast(CostOf, leaders);
      LeaderStage(ranked, cheapest, w, 2);
      if |cheapest| > 1 {
        LeadDecides(cheapest);
        Stage(ranked, cheapest, LeadOf);
        FastestGroup(ranked, cheapest);
        LeaderStage(ranked, OfLeast(LeadOf, cheapest), w, 3);
        TieDepths(ranked, w);
        LastStage(ranked, OfLeast(LeadOf, cheapest), w);
      }
      TieDepths(ranked, w);
    }
  }

  lemma {:induction false} ScoreAllCount(s: seq<Candidate>, score: Candidate -> real, x: Scored)
    ensures multiset(ScoreAll(s, score))[x] == if x.score == score(x.candidate) then multiset(s)[x.candidate] else 0
  {
    if s != [] {
      assert s == [s[0]] + s[1..];
      ScoreAllCount(s[1..], score, x);
    }
  }

  /** The order in which candidates arrive changes neither the winner nor the status. */
  lemma SelectionIgnoresOrder(e1: seq<Candidate>, e2: seq<Candidate>, score: Candidate -> real)
    requires multiset(e1) == multiset(e2)
    ensures SelectBy(e1, score).winner == SelectBy(e2, score).winner
    ensures SelectBy(e1, score).status == SelectBy(e2, score).status
  {
    var r1, r2 := Sort(ScoreAll(e1, score), HigherScoreFirst), Sort(ScoreAll(e2, score), HigherScoreFirst);
    forall x: Scored ensures multiset(r1)[x] == multiset(r2)[x] {
      ScoreAllCount(e1, score, x);
      ScoreAllCount(e2, score, x);
    }
    SameBest(r1, r2);
    BreakTieIsUniqueMaximum(r1);
    BreakTieIsUniqueMaximum(r2);
    if w :| IsBest(w, r1) {
      assert IsBest(w, r2);
    }
  }

  lemma SameBest(r1: seq<Scored>, r2: seq<Scored>)
    requires multiset(r1) == multiset(r2)
    ensures forall w :: IsBest(w, r1) <==> IsBest(w, r2)
    ensures r1 == [] <==> r2 == []
  {
    assert forall y :: y in r1 <==> y in multiset(r1);
    assert forall y :: y in r2 <==> y in multiset(r2);
    assert |r1| == |multiset(r1)| == |r2|;
  }

  /** `w` is better than every other candidate. */
  ghost predicate Beats(w: Candidate, eligible: seq<Candidate>, score: Candidate -> real) {
    && w in eligible
    && forall c | c in eligible && c != w :: Better(Scored(w, score(w)), Scored(c, score(c)))
  }

  lemma {:induction false} UniqueCounts(s: seq<Candidate>, c: Candidate)
    requires UniqueIds(s)
    ensures multiset(s)[c] == if c in s then 1 else 0
  {
    if s != [] {
      var rest := s[1..];
      assert s == [s[0]] + rest;
      UniqueCounts(rest, c);
      if c in rest {
        var j :| 0 <= j < |rest| && rest[j] == c;
        assert s[j + 1] == c;
      }
    }
  }

  lemma BestIffBeats(eligible: seq<Candidate>, score: Candidate -> real, ranked: seq<Scored>, w: Scored)
    requires UniqueIds(eligible) && multiset(ranked) == multiset(ScoreAll(eligible, score))
    ensures IsBest(w, ranked) <==> w.score == score(w.candidate) && Beats(w.candidate, eligible, score)
  {
    hide Better;
    forall x: Scored ensures x in ranked <==> x.score == score(x.candidate) && x.candidate in eligible {
      RankedMembers(eligible, score, ranked, x);
    }
    ScoreAllCount(eligible, score, w);
    UniqueCounts(eligible, w.candidate);
    if IsBest(w, ranked) {
      assert w in multiset(ranked);
      forall c | c in eligible && c != w.candidate ensures Better(w, Scored(c, score(c))) {
        assert Scored(c, score(c)) in ranked;
      }
    }
  }

  lemma RankedMembers(eligible: seq<Candidate>, score: Candidate -> real, ranked: seq<Scored>, x: Scored)
    requires multiset(ranked) == multiset(ScoreAll(eligible, score))
    ensures x in ranked <==> x.score == score(x.candidate) && x.candidate in eligible
  {
    ScoreAllCount(eligible, score, x);
    assert x in ranked <==> x in multiset(ranked);
    assert x.candidate in eligible <==> x.candidate in multiset(eligible);
  }

  /** A selection recommends exactly the candidate that beats all others; the status says whether there is one. */
  lemma SelectsTheBest(eligible: seq<Candidate>, score: Candidate -> real)
    requires UniqueIds(eligible)
    ensures var r := SelectBy(eligible, score);
      && (forall w :: r.winner == Some(w) <==> Beats(w, eligible, score))
      && (r.status == NoEligibleOffer <==> eligible == [])
      && (r.status == ManualSelectionRequired <==> eligible != [] && r.winner.None?)
      && (r.status == Recommended <==> r.winner.Some?)
  {
    hide BreakTie, Beats, IsBest;
    var ranked := Sort(ScoreAll(eligible, score), HigherScoreFirst);
    BreakTieIsUniqueMaximum(ranked);
    RankedLength(eligible, score, ranked);
    forall w ensures SelectBy(eligible, score).winner == Some(w) <==> Beats(w, eligible, score) {
      BestIffBeats(eligible, score, ranked, Scored(w, score(w)));
      if best :| IsBest(best, ranked) {
        BestIffBeats(eligible, score, ranked, best);
      }
    }
  }

  lemma {:induction false} RankedLength(eligible: seq<Candidate>, score: Candidate -> real, ranked: seq<Scored>)
    requires multiset(ranked) == multiset(ScoreAll(eligible, score))
    ensures ranked == [] <==> eligible == []
  {
    assert |ranked| == |multiset(ranked)| == |ScoreAll(eligible, score)|;
  }

  // ------------------------------------------------ winners and the front

  lemma DominatedIsNotBetter(x: Scored, y: Scored)
    requires Dominates(y.candidate, x.candidate) && y.score >= x.score
    ensures !Better(x, y)
  {
  }

  ghost predicate RespectsDominance(score: Candidate -> real) {
    forall left, right :: Dominates(left, right) ==> score(left) >= score(right)
  }

  lemma {:induction false} BestIsUndominated(
    eligible: seq<Candidate>, score: Candidate -> real, ranked: seq<Scored>, best: Scored, other: Candidate)
    requires RespectsDominance(score) && multiset(ranked) == multiset(ScoreAll(eligible, score))
    requires IsBest(best, ranked) && other in eligible
    ensures best.candidate in eligible
    ensures !Dominates(other, best.candidate)
  {
    ScoreAllCount(eligible, score, best);
    assert best.candidate in multiset(eligible);
    var y := Scored(other, score(other));
    ScoreAllCount(eligible, score, y);
    assert y in multiset(ranked);
    if Dominates(other, best.candidate) {
      DominatedIsNotBetter(best, y);
    }
  }

  /** A winner is efficient under every score that never prefers a dominated candidate. */
  lemma MonotoneWinnerIsOnFront(eligible: seq<Candidate>, score: Candidate -> real)
    requires RespectsDominance(score)
    ensures var winner := SelectBy(eligible, score).winner;
      winner.Some? ==> winner.value in ParetoFront(eligible)
  {
    var ranked := Sort(ScoreAll(eligible, score), HigherScoreFirst);
    BreakTieIsUniqueMaximum(ranked);
    if best :| IsBest(best, ranked) {
      assert best in multiset(ranked);
      assert eligible != [];
      BestIsUndominated(eligible, score, ranked, best, eligible[0]);
      forall other | other in eligible ensures !Dominates(other, best.candidate) {
        BestIsUndominated(eligible, score, ranked, best, other);
      }
    }
  }

  /** For every choice of non-negative weights, zero and clamped values included, a winner is on the Pareto front. */
  lemma WinnerIsOnFront(eligible: seq<Candidate>, baselineMinor: int, w: Criteria)
    requires baselineMinor > 0 && NonNegative(w)
    ensures var winner := Select(eligible, baselineMinor, w).winner;
      winner.Some? ==> winner.value in ParetoFront(eligible)
  {
    var score := WeightedScore(baselineMinor, w);
    forall left, right | Dominates(left, right) ensures score(left) >= score(right) {
      DominatingScore(left, right, baselineMinor, w);
    }
    MonotoneWinnerIsOnFront(eligible, score);
  }

  // ------------------------------------------------------------ sensitivity

  function Weight(w: Criteria, c: Criterion): real {
    match c
    case Cost => w.cost
    case Quality => w.quality
    case Lead => w.lead
    case Payment => w.payment
  }

  function WithWeight(w: Criteria, c: Criterion, value: real): Criteria {
    match c
    case Cost => w.(cost := value)
    case Quality => w.(quality := value)
    case Lead => w.(lead := value)
    case Payment => w.(payment := value)
  }

  function Total(w: Criteria): real {
    w.cost + w.quality + w.lead + w.payment
  }

  function OldRemaining(base: Criteria, c: Criterion): real {
    Total(WithWeight(base, c, 0.0))
  }

  function Changed(base: Criteria, c: Criterion, d: Direction): real {
    Weight(base, c) + if d.Increase? then 0.10 else -0.10
  }

  /** The factor by which a perturbation of `c` rescales the other weights. */
  function Factor(base: Criteria, c: Criterion, d: Direction): real
    requires OldRemaining(base, c) != 0.0
  {
    (1.0 - Changed(base, c, d)) / OldRemaining(base, c)
  }

  function Scale(w: Criteria, factor: real): Criteria {
    Criteria(w.cost * factor, w.quality * factor, w.lead * factor, w.payment * factor)
  }

  /** One weight moves by ten points; the others share what remains in proportion. */
  function PerturbedWeights(base: Criteria, c: Criterion, d: Direction): Criteria
    requires OldRemaining(base, c) != 0.0
  {
    WithWeight(Scale(base, Factor(base, c, d)), c, Changed(base, c, d))
  }

  datatype Others = Others(x: real, y: real, z: real)

  /** The weights that a perturbation of `c` rescales. */
  function OtherWeights(w: Criteria, c: Criterion): (r: Others)
    ensures Total(w) == Weight(w, c) + r.x + r.y + r.z
    ensures OldRemaining(w, c) == r.x + r.y + r.z
    ensures NonNegative(w) <==> Weight(w, c) >= 0.0 && r.x >= 0.0 && r.y >= 0.0 && r.z >= 0.0
  {
    match c
    case Cost => Others(w.quality, w.lead, w.payment)
    case Quality => Others(w.cost, w.lead, w.payment)
    case Lead => Others(w.cost, w.quality, w.payment)
    case Payment => Others(w.cost, w.quality, w.lead)
  }

  lemma ScaledOthers(w: Criteria, c: Criterion, f: real, moved: real)
    ensures var rest := OtherWeights(w, c);
      OtherWeights(WithWeight(Scale(w, f), c, moved), c) == Others(rest.x * f, rest.y * f, rest.z * f)
  {
    hide NonNegative, Total, OldRemaining, Weight;
    match c
    case Cost =>
    case Quality =>
    case Lead =>
    case Payment =>
  }

  lemma ScaledTotal(w: Criteria, c: Criterion, f: real, moved: real)
    ensures Total(WithWeight(Scale(w, f), c, moved)) == moved + OldRemaining(w, c) * f
  {
    var r := OtherWeights(w, c);
    ScaledOthers(w, c, f, moved);
    assert r.x * f + r.y * f + r.z * f == (r.x + r.y + r.z) * f;
  }

  /** A perturbation moves one weight by ten points, and the result sums to one whatever the base weights sum to. */
  lemma PerturbedSumsToOne(base: Criteria, c: Criterion, d: Direction)
    requires OldRemaining(base, c) != 0.0
    ensures Total(PerturbedWeights(base, c, d)) == 1.0
    ensures var moved, step := PerturbedWeights(base, c, d), if d == Increase then 0.10 else -0.10;
      && (c == Cost ==> moved.cost == base.cost + step) && (c == Quality ==> moved.quality == base.quality + step)
      && (c == Lead ==> moved.lead == base.lead + step) && (c == Payment ==> moved.payment == base.payment + step)
  {
    ScaledTotal(base, c, Factor(base, c, d), Changed(base, c, d));
  }

  predicate SameProportions(p: Others, r: Others) {
    p.x * r.y == p.y * r.x && p.y * r.z == p.z * r.y
  }

  lemma ScaledProportions(w: Criteria, c: Criterion, f: real, moved: real)
    ensures SameProportions(OtherWeights(WithWeight(Scale(w, f), c, moved), c), OtherWeights(w, c))
  {
    hide NonNegative, Total, OldRemaining, Weight, WithWeight, Scale;
    var r := OtherWeights(w, c);
    ScaledOthers(w, c, f, moved);
    assert (r.x * f) * r.y == (r.y * f) * r.x;
    assert (r.y * f) * r.z == (r.z * f) * r.y;
  }

  /** The weights that are not moved keep their proportions. */
  lemma PerturbedKeepsProportions(base: Criteria, c: Criterion, d: Direction)
    requires OldRemaining(base, c) != 0.0
    ensures SameProportions(OtherWeights(PerturbedWeights(base, c, d), c), OtherWeights(base, c))
  {
    var f, moved := Factor(base, c, d), Changed(base, c, d);
    assert PerturbedWeights(base, c, d) == WithWeight(Scale(base, f), c, moved);
    ScaledProportions(base, c, f, moved);
  }

  lemma ScaledSign(x: real, f: real)
    requires x >= 0.0
    ensures f >= 0.0 ==> x * f >= 0.0
    ensures f < 0.0 && x > 0.0 ==> x * f < 0.0
  {
  }

  lemma ScaledOtherSigns(w: Criteria, c: Criterion, f: real, moved: real)
    requires NonNegative(w)
    ensures var r, p := OtherWeights(w, c), OtherWeights(WithWeight(Scale(w, f), c, moved), c);
      && (f >= 0.0 ==> p.x >= 0.0 && p.y >= 0.0 && p.z >= 0.0)
      && (f < 0.0 ==> (r.x > 0.0 ==> p.x < 0.0) && (r.y > 0.0 ==> p.y < 0.0) && (r.z > 0.0 ==> p.z < 0.0))
  {
    hide Scale, WithWeight;
    var r := OtherWeights(w, c);
    ScaledOthers(w, c, f, moved);
    ScaledSign(r.x, f);
    ScaledSign(r.y, f);
    ScaledSign(r.z, f);
  }

  lemma ScaledNonNegative(w: Criteria, c: Criterion, f: real, moved: real)
    requires NonNegative(w) && OldRemaining(w, c) > 0.0
    ensures NonNegative(WithWeight(Scale(w, f), c, moved)) <==> moved >= 0.0 && f >= 0.0
  {
    hide Scale;
    var r := OtherWeights(w, c);
    ScaledOtherSigns(w, c, f, moved);
    assert r.x > 0.0 || r.y > 0.0 || r.z > 0.0;
  }

  lemma QuotientSign(x: real, d: real)
    requires d > 0.0
    ensures x / d >= 0.0 <==> x >= 0.0
  {
    assert (x / d) * d == x;
  }

  /** A perturbation of non-negative weights stays non-negative exactly when the moved weight stays within [0, 1]. */
  lemma PerturbedNonNegativeIff(base: Criteria, c: Criterion, d: Direction)
    requires NonNegative(base) && OldRemaining(base, c) > 0.0
    ensures d == Increase ==> (NonNegative(PerturbedWeights(base, c, d)) <==> Weight(base, c) <= 0.90)
    ensures d == Decrease ==> (NonNegative(PerturbedWeights(base, c, d)) <==> 0.10 <= Weight(base, c) <= 1.10)
  {
    ScaledNonNegative(base, c, Factor(base, c, d), Changed(base, c, d));
    QuotientSign(1.0 - Changed(base, c, d), OldRemaining(base, c));
  }

  // ------------------------------------------------------------ the decision

  datatype DecisionInput = DecisionInput(
    baselineMinor: int,
    currency: string,
    candidates: seq<Candidate>,
    weights: Criteria,
    hardMaxLead: Option<int>)

  datatype SensitivityCase = SensitivityCase(
    criterion: Criterion, direction: Direction, winner: Option<Candidate>, status: Status)

  datatype DecisionRecord = DecisionRecord(
    eligible: seq<Candidate>,
    front: seq<Candidate>,
    selection: TieResult,
    sensitivity: seq<SensitivityCase>,
    preferenceSensitive: bool)

  /** Why a decision throws; the last stands for the tie-break of scores that are not numbers. */
  datatype DecisionError = LeadLimit | BaselineNotPositive | RepeatedOffer | ScoreUndefined

  datatype Exclusion = PolicyInvalid | CurrencyMismatch | CapacityNotFull | HardLeadExceeded

  predicate Eligible(c: Candidate, input: DecisionInput) {
    && c.policyValid
    && c.currency == input.currency
    && c.capacityPercent == 100
    && (input.hardMaxLead.Some? ==> c.leadTimeDays <= input.hardMaxLead.value)
  }

  /** The order of the tests. */
  function ExclusionNumber(e: Exclusion): nat {
    match e
    case PolicyInvalid => 1
    case CurrencyMismatch => 2
    case CapacityNotFull => 3
    case HardLeadExceeded => 4
  }

  /** Why a candidate is left out: one reason for each failed test, none exactly when it is eligible. */
  method ExclusionReasons(c: Candidate, input: DecisionInput) returns (reasons: seq<Exclusion>)
    ensures PolicyInvalid in reasons <==> !c.policyValid
    ensures CurrencyMismatch in reasons <==> c.currency != input.currency
    ensures CapacityNotFull in reasons <==> c.capacityPercent != 100
    ensures HardLeadExceeded in reasons <==> input.hardMaxLead.Some? && c.leadTimeDays > input.hardMaxLead.value
    ensures reasons == [] <==> Eligible(c, input)
    ensures forall i, j :: 0 <= i < j < |reasons| ==> ExclusionNumber(reasons[i]) < ExclusionNumber(reasons[j])
  {
    reasons := [];
    if !c.policyValid {
      reasons := reasons + [PolicyInvalid];
    }
    if c.currency != input.currency {
      reasons := reasons + [CurrencyMismatch];
    }
    if c.capacityPercent != 100 {
      reasons := reasons + [CapacityNotFull];
    }
    if input.hardMaxLead.Some? && c.leadTimeDays > input.hardMaxLead.value {
      reasons := reasons + [HardLeadExceeded];
    }
  }

  const ALL_VARIANTS: seq<(Criterion, Direction)> :=
    [(Cost, Increase), (Cost, Decrease), (Quality, Increase), (Quality, Decrease),
     (Lead, Increase), (Lead, Decrease), (Payment, Increase), (Payment, Decrease)]

  /** No criterion carries all the weight, so that no perturbation divides by zero. */
  predicate Spread(w: Criteria) {
    forall v | v in ALL_VARIANTS :: OldRemaining(w, v.0) != 0.0
  }

  function VariantCase(
    eligible: seq<Candidate>, baselineMinor: int, w: Criteria, v: (Criterion, Direction)): SensitivityCase
    requires baselineMinor > 0
  {
    var result := if OldRemaining(w, v.0) == 0.0 then TieResult(None, NoEligibleOffer, [])
                  else Select(eligible, baselineMinor, PerturbedWeights(w, v.0, v.1));
    SensitivityCase(v.0, v.1, result.winner, result.status)
  }

  /** The eligible candidates of an input, in order. */
  function EligibleOf(input: DecisionInput): (r: seq<Candidate>)
    ensures forall c :: c in r <==> c in input.candidates && Eligible(c, input)
  {
    Filter((c: Candidate) => Eligible(c, input), input.candidates)
  }

  function Decide(input: DecisionInput): Result<DecisionRecord, DecisionError> {
    if input.hardMaxLead.Some? && !(0 < input.hardMaxLead.value <= 55) then
      Err(LeadLimit)
    else if input.baselineMinor <= 0 then Err(BaselineNotPositive)
    else if !UniqueIds(input.candidates) then Err(RepeatedOffer)
    else
      var eligible := EligibleOf(input);
      if eligible != [] && !Spread(input.weights) then Err(ScoreUndefined)
      else
        var selection := Select(eligible, input.baselineMinor, input.weights);
        var sensitivity := Map(v => VariantCase(eligible, input.baselineMinor, input.weights, v), ALL_VARIANTS);
        Ok(DecisionRecord(eligible, ParetoFront(eligible), selection, sensitivity,
                          exists i :: 0 <= i < |sensitivity| && sensitivity[i].winner != selection.winner))
  }

  lemma {:induction false} FilterKeepsUniqueIds(p: Candidate -> bool, s: seq<Candidate>)
    requires UniqueIds(s)
    ensures UniqueIds(Filter(p, s))
  {
    if s != [] {
      FilterKeepsUniqueIds(p, s[1..]);
      if p(s[0]) {
        var rest := Filter(p, s[1..]);
        forall j | 0 <= j < |rest| ensures rest[j].offerId != s[0].offerId {
          assert rest[j] in s[1..];
        }
      }
    }
  }

  predicate Robust(w: Criteria) {
    forall c :: 0.10 <= Weight(w, c) <= 0.90
  }

  lemma VariantWinnerIsOnFront(eligible: seq<Candidate>, baselineMinor: int, w: Criteria, v: (Criterion, Direction))
    requires baselineMinor > 0 && Robust(w)
    ensures var k := VariantCase(eligible, baselineMinor, w, v); k.winner.Some? ==>
      k.winner.value in ParetoFront(eligible)
  {
    assert Weight(w, Cost) >= 0.10 && Weight(w, Quality) >= 0.10 && Weight(w, Lead) >= 0.10
      && Weight(w, Payment) >= 0.10;
    assert 0.10 <= Weight(w, v.0) <= 0.90;
    PerturbedNonNegativeIff(w, v.0, v.1);
    WinnerIsOnFront(eligible, baselineMinor, PerturbedWeights(w, v.0, v.1));
  }

  /**
   What a decision promises: the winner is eligible and efficient, and whatever is off the front is dominated by it.
   */
  lemma DecisionIsEfficient(input: DecisionInput)
    requires Decide(input).Ok? && NonNegative(input.weights)
    ensures var d := Decide(input).value;
      && (d.selection.winner.Some? ==> d.selection.winner.value in d.front && Eligible(d.selection.winner.value, input))
      && (forall c | c in d.eligible && c !in d.front :: exists best :: best in d.front && Dominates(best, c))
  {
    var d := Decide(input).value;
    WinnerIsOnFront(d.eligible, input.baselineMinor, input.weights);
    FilterKeepsUniqueIds((c: Candidate) => Eligible(c, input), input.candidates);
    forall c | c in d.eligible && c !in d.front ensures exists best :: best in d.front && Dominates(best, c) {
      var best := FrontDominates(c, d.eligible);
    }
  }

  /** A decision recommends exactly the eligible candidate that beats every other one under the weights of the buyer. */
  lemma DecisionIsBest(input: DecisionInput)
    requires Decide(input).Ok?
    ensures var r := Decide(input).value.selection;
      && (forall w :: r.winner == Some(w) <==>
            Beats(w, EligibleOf(input), WeightedScore(input.baselineMinor, input.weights)))
      && (r.status == NoEligibleOffer <==> forall c | c in input.candidates :: !Eligible(c, input))
      && (r.status == ManualSelectionRequired <==>
            r.winner.None? && exists c | c in input.candidates :: Eligible(c, input))
  {
    hide SelectBy, Beats, Eligible;
    FilterKeepsUniqueIds((c: Candidate) => Eligible(c, input), input.candidates);
    SelectsTheBest(EligibleOf(input), WeightedScore(input.baselineMinor, input.weights));
    if EligibleOf(input) != [] {
      assert EligibleOf(input)[0] in EligibleOf(input);
    }
  }

  /** What one sensitivity case says. */
  ghost predicate IsCaseOf(k: SensitivityCase, input: DecisionInput, c: Criterion, d: Direction)
    requires input.baselineMinor > 0
  {
    && k.criterion == c && k.direction == d && OldRemaining(input.weights, c) != 0.0
    && var score := WeightedScore(input.baselineMinor, PerturbedWeights(input.weights, c, d));
       && (forall w :: k.winner == Some(w) <==> Beats(w, EligibleOf(input), score))
       && (k.status == NoEligibleOffer <==> EligibleOf(input) == [])
       && (k.status == Recommended <==> k.winner.Some?)
  }

  ghost predicate HasCase(cases: seq<SensitivityCase>, input: DecisionInput, c: Criterion, d: Direction)
    requires input.baselineMinor > 0
  {
    exists i :: 0 <= i < |cases| && IsCaseOf(cases[i], input, c, d)
  }

  /**
   Each criterion and direction has its one case, which recommends the best candidate under its own perturbed weights;
   the decision is preference-sensitive exactly when one of the eight differs from the recommendation.
   */
  lemma SensitivityCases(input: DecisionInput)
    requires Decide(input).Ok? && Spread(input.weights)
    ensures var d := Decide(input).value;
      && |d.sensitivity| == 8
      && (forall c, dir :: HasCase(d.sensitivity, input, c, dir))
      && (d.preferenceSensitive <==> exists k :: k in d.sensitivity && k.winner != d.selection.winner)
  {
    hide Beats, Eligible, SelectBy;
    var d := Decide(input).value;
    FilterKeepsUniqueIds((c: Candidate) => Eligible(c, input), input.candidates);
    forall c, dir ensures HasCase(d.sensitivity, input, c, dir) {
      var i := VariantIndex(c, dir);
      SelectsTheBest(EligibleOf(input), WeightedScore(input.baselineMinor, PerturbedWeights(input.weights, c, dir)));
      assert ALL_VARIANTS[i] in ALL_VARIANTS;
      assert IsCaseOf(d.sensitivity[i], input, c, dir);
    }
  }

  lemma VariantIndex(c: Criterion, d: Direction) returns (i: nat)
    ensures i < |ALL_VARIANTS| && ALL_VARIANTS[i] == (c, d)
  {
    i := (match c case Cost => 0 case Quality => 2 case Lead => 4 case Payment => 6) + if d == Increase then 0 else 1;
  }

  /** With every weight within [0.10, 0.90], each sensitivity case also recommends efficient offers only. */
  lemma SensitivityIsEfficient(input: DecisionInput)
    requires Decide(input).Ok? && Robust(input.weights)
    ensures var d := Decide(input).value;
      |d.sensitivity| == 8 && forall k | k in d.sensitivity && k.winner.Some? :: k.winner.value in d.front
  {
    var d := Decide(input).value;
    forall i | 0 <= i < |ALL_VARIANTS|
      ensures d.sensitivity[i].winner.Some? ==> d.sensitivity[i].winner.value in d.front
    {
      VariantWinnerIsOnFront(d.eligible, input.baselineMinor, input.weights, ALL_VARIANTS[i]);
    }
  }

  /**
   A decision needs nothing but a lead limit within 1..55, a positive baseline, distinct offers and spread weights.
   */
  lemma DecideSucceedsIff(input: DecisionInput)
    ensures Decide(input).Ok? <==>
      && (input.hardMaxLead.Some? ==> 0 < input.hardMaxLead.value <= 55)
      && input.baselineMinor > 0
      && UniqueIds(input.candidates)
      && (Spread(input.weights) || forall c | c in input.candidates :: !Eligible(c, input))
    ensures input.hardMaxLead.Some? && !(0 < input.hardMaxLead.value <= 55) ==> Decide(input) == Err(LeadLimit)
    ensures Decide(input) == Err(RepeatedOffer) ==> input.baselineMinor > 0 && !UniqueIds(input.candidates)
    ensures Decide(input) == Err(ScoreUndefined) ==> UniqueIds(input.candidates)
  {
    var eligible := EligibleOf(input);
    if eligible == [] {
      assert forall c | c in input.candidates :: !Eligible(c, input);
    } else {
      assert eligible[0] in eligible && eligible[0] in input.candidates;
    }
  }
}
