/**
 Choosing a catalog product for an SKU: packages/parser/src/matching.ts.

 SKUs and texts are already normalised, and `collate` is the order in which SKUs are listed.
 */
module SkuMatching {
  import opened Prelude
  import opened OsaDistance
  import opened Sorting

  /** A text as it was given, and normalised. */
  datatype Label = Label(raw: string, normalized: string)

  /** A product of the catalog, with its brand in lower case and its SKU normalised. */
  datatype Product = Product(brand: string, sku: string, name: Option<Label>)

  datatype Candidate = Candidate(product: Product, score: real, distance: int, sku: real, semantic: real)

  // ------------------------------------------------------------ OCR variants

  /** The confusions of character recognition, one character at a time. */
  predicate Confused(x: char, y: char) {
    || (x == '0' && y == 'O') || (x == 'O' && y == '0') || (x == '1' && y == 'I') || (x == 'I' && y == '1')
  }

  predicate VariantAt(s: string, v: string, i: nat, x: char, y: char) {
    i < |s| && s[i] == x && v == s[..i] + [y] + s[i + 1..]
  }

  ghost predicate IsVariant(s: string, v: string) {
    exists i: nat, x, y :: Confused(x, y) && VariantAt(s, v, i, x, y)
  }

  const CONFUSIONS := [('0', 'O'), ('O', '0'), ('1', 'I'), ('I', '1')]

  ghost predicate FoundSoFar(s: string, v: string, pairs: nat, i: nat)
    requires pairs <= 4
  {
    || (exists p: nat, k: nat :: p < pairs && VariantAt(s, v, k, CONFUSIONS[p].0, CONFUSIONS[p].1))
    || (pairs < 4 && exists k: nat :: k < i && VariantAt(s, v, k, CONFUSIONS[pairs].0, CONFUSIONS[pairs].1))
  }

  lemma AllFound(s: string, v: string)
    ensures FoundSoFar(s, v, 4, 0) <==> IsVariant(s, v)
  {
    if FoundSoFar(s, v, 4, 0) {
      var p: nat, k: nat :| p < 4 && VariantAt(s, v, k, CONFUSIONS[p].0, CONFUSIONS[p].1);
      assert Confused(CONFUSIONS[p].0, CONFUSIONS[p].1);
    }
    if IsVariant(s, v) {
      var i: nat, x, y :| Confused(x, y) && VariantAt(s, v, i, x, y);
      assert (x, y) == CONFUSIONS[0] || (x, y) == CONFUSIONS[1] || (x, y) == CONFUSIONS[2] || (x, y) == CONFUSIONS[3];
    }
  }

  lemma FoundOneMore(s: string, v: string, p: nat, i: nat)
    requires p < 4 && i < |s|
    ensures FoundSoFar(s, v, p, i + 1) <==>
      FoundSoFar(s, v, p, i) || VariantAt(s, v, i, CONFUSIONS[p].0, CONFUSIONS[p].1)
  {
  }

  lemma FoundOnePair(s: string, v: string, p: nat)
    requires p < 4
    ensures FoundSoFar(s, v, p + 1, 0) <==> FoundSoFar(s, v, p, |s|)
  {
  }

  /** Every text that differs from `s` in one confused character, and nothing else. */
  method OcrVariants(s: string) returns (out: set<string>)
    ensures forall v :: v in out <==> IsVariant(s, v)
  {
    out := {};
    for p := 0 to 4
      invariant forall v :: v in out <==> FoundSoFar(s, v, p, 0)
    {
      var x, y := CONFUSIONS[p].0, CONFUSIONS[p].1;
      for i := 0 to |s|
        invariant forall v :: v in out <==> FoundSoFar(s, v, p, i)
      {
        forall v ensures FoundSoFar(s, v, p, i + 1) <==> FoundSoFar(s, v, p, i) || VariantAt(s, v, i, x, y) {
          FoundOneMore(s, v, p, i);
        }
        if s[i] == x {
          out := out + {s[..i] + [y] + s[i + 1..]};
        }
      }
      forall v ensures FoundSoFar(s, v, p + 1, 0) <==> FoundSoFar(s, v, p, |s|) {
        FoundOnePair(s, v, p);
      }
    }
    forall v ensures FoundSoFar(s, v, 4, 0) <==> IsVariant(s, v) {
      AllFound(s, v);
    }
  }

  // ------------------------------------------------------------------ scores

  predicate OccursAt(text: string, part: string, i: nat) {
    i + |part| <= |text| && text[i..i + |part|] == part
  }

  predicate Contains(text: string, part: string) {
    exists i :: 0 <= i <= |text| && OccursAt(text, part, i)
  }

  /** Both are given and not empty, and the name of the product occurs in the description. */
  predicate Corroborated(product: Product, description: Option<Label>) {
    && description.Some? && description.value.raw != ""
    && product.name.Some? && product.name.value.raw != ""
    && Contains(description.value.normalized, product.name.value.normalized)
  }

  /** That is: the description is the name with something before it and something after it. */
  lemma CorroboratedIff(product: Product, description: Label)
    requires product.name.Some?
    ensures Corroborated(product, Some(description)) <==>
      && description.raw != "" && product.name.value.raw != ""
      && exists before, after :: description.normalized == before + product.name.value.normalized + after
  {
    var text, part := description.normalized, product.name.value.normalized;
    if Contains(text, part) {
      var i :| 0 <= i <= |text| && OccursAt(text, part, i);
      assert text == text[..i] + part + text[i + |part|..];
    }
    if before, after :| text == before + part + after {
      assert OccursAt(text, part, |before|);
    }
  }

  function SkuScore(exact: bool, distance: int): real {
    if exact then 1.0 else if distance == 1 then 0.94 else if distance == 2 then 0.84 else 0.0
  }

  /** `d` is the least distance from any of the keys. */
  ghost predicate IsLeast(d: nat, keys: set<string>, sku: string) {
    (exists k :: k in keys && Distance(k, sku) == d) && forall k | k in keys :: d <= Distance(k, sku)
  }

  /** The keys that are compared: the SKU that was read, and what it may have been. */
  ghost predicate AreKeys(keys: set<string>, key: string) {
    forall k :: k in keys <==> k == key || IsVariant(key, k)
  }

  function CandidateOf(product: Product, key: string, distance: int, description: Option<Label>): Option<Candidate> {
    var exact := product.sku == key;
    var sku := SkuScore(exact, distance);
    var semantic := if Corroborated(product, description) then 1.0 else 0.0;
    if sku == 0.0 then None
    else Some(Candidate(product, if exact then 1.0 else 0.9 * sku + 0.1 * semantic, distance, sku, semantic))
  }

  /** The least distance when it is at most two, and something above two otherwise. */
  method BoundedLeast(keys: set<string>, sku: string) returns (least: int)
    requires keys != {}
    ensures least <= 2 ==> least >= 0 && IsLeast(least, keys, sku)
    ensures least > 2 ==> forall k | k in keys :: Distance(k, sku) > 2
  {
    var rest := keys;
    var k :| k in rest;
    rest := rest - {k};
    least := OsaBounded(k, sku, 2);
    while rest != {}
      invariant rest < keys
      invariant least <= 2 ==> exists k :: k in keys - rest && Distance(k, sku) == least
      invariant forall k | k in keys - rest :: Distance(k, sku) >= Min(least, 3)
      decreases rest
    {
      k :| k in rest;
      rest := rest - {k};
      var d := OsaBounded(k, sku, 2);
      if d < least {
        least := d;
      }
    }
  }

  /** What a product scores: at a distance of one or two it is a candidate, and its name can add a tenth. */
  ghost predicate IsCandidate(product: Product, key: string, keys: set<string>) {
    product.sku == key || IsLeast(1, keys, product.sku) || IsLeast(2, keys, product.sku)
  }

  ghost function ScoreOf(product: Product, key: string, keys: set<string>, description: Option<Label>): real {
    if product.sku == key then 1.0
    else
      var named := if Corroborated(product, description) then 0.1 else 0.0;
      (if IsLeast(1, keys, product.sku) then 0.846 else 0.756) + named
  }

  /** The candidate that a product makes, or nothing. */
  method ScoreCandidate(product: Product, key: string, keys: set<string>, description: Option<Label>)
    returns (candidate: Option<Candidate>)
    requires keys != {}
    ensures candidate.Some? <==> IsCandidate(product, key, keys)
    ensures candidate.Some? ==>
      candidate.value.product == product && candidate.value.score == ScoreOf(product, key, keys, description)
    ensures candidate.Some? && product.sku != key ==>
      candidate.value.distance >= 0 && IsLeast(candidate.value.distance, keys, product.sku)
    ensures candidate.Some? ==>
      && (candidate.value.semantic == 1.0 <==> Corroborated(product, description))
      && (candidate.value.semantic == 0.0 <==> !Corroborated(product, description))
      && (candidate.value.sku == 1.0 <==> product.sku == key)
      && (candidate.value.sku == 0.94 <==> product.sku != key && IsLeast(1, keys, product.sku))
      && (candidate.value.sku == 0.84 <==> product.sku != key && IsLeast(2, keys, product.sku))
  {
    var distance := 0;
    if product.sku != key {
      distance := BoundedLeast(keys, product.sku);
      if distance <= 2 {
        assert forall d: nat | IsLeast(d, keys, product.sku) :: d == distance;
      }
    }
    candidate := CandidateOf(product, key, distance, description);
  }

  lemma {:induction false} LeastExists(keys: set<string>, sku: string) returns (d: nat)
    requires keys != {}
    ensures IsLeast(d, keys, sku)
    decreases |keys|
  {
    var k :| k in keys;
    var rest := keys - {k};
    d := Distance(k, sku);
    if rest == {} {
      assert keys == {k};
    } else {
      var e := LeastExists(rest, sku);
      LeastOfTwo(keys, k, e, sku);
      d := if d <= e then d else e;
    }
  }

  lemma LeastOfTwo(keys: set<string>, k: string, e: nat, sku: string)
    requires k in keys && IsLeast(e, keys - {k}, sku)
    ensures IsLeast(if Distance(k, sku) <= e then Distance(k, sku) else e, keys, sku)
  {
    hide Distance;
    var d := if Distance(k, sku) <= e then Distance(k, sku) else e;
    forall j | j in keys ensures d <= Distance(j, sku) {
      if j != k {
        assert j in keys - {k};
      }
    }
    var j :| j in keys - {k} && Distance(j, sku) == e;
    assert j in keys;
  }

  /**
   Within a distance of two from some key, a product is a candidate exactly unless an OCR variant of the key, and not
   the key itself, is its very SKU.
   */
  lemma OcrHitIsNoCandidate(product: Product, key: string, keys: set<string>)
    requires AreKeys(keys, key) && exists k :: k in keys && Distance(k, product.sku) <= 2
    ensures IsCandidate(product, key, keys) <==> product.sku == key || !IsVariant(key, product.sku)
  {
    var d := LeastExists(keys, product.sku);
    ZeroIffEqual(product.sku, product.sku, |product.sku|, |product.sku|);
    forall k | k in keys ensures Distance(k, product.sku) == 0 <==> k == product.sku {
      ZeroIffEqual(k, product.sku, |k|, |product.sku|);
      assert k[..|k|] == k && product.sku[..|product.sku|] == product.sku;
    }
    assert d == 0 <==> product.sku in keys;
  }

  // --------------------------------------------------------------- selection

  datatype Status = Matched | NeedsReview | NotFound

  datatype MatchResult = MatchResult(
    status: Status, candidates: seq<Candidate>, selected: Option<Product>, confidence: real, margin: real)

  /** Higher scores first, equal scores by SKU. */
  function Ranking(collate: (string, string) -> bool): (Candidate, Candidate) -> bool {
    (a: Candidate, b: Candidate) => a.score > b.score || (a.score == b.score && collate(a.product.sku, b.product.sku))
  }

  lemma RankingIsTotal(collate: (string, string) -> bool)
    requires TotalPreorder(collate)
    ensures TotalPreorder(Ranking(collate))
  {
    var le := Ranking(collate);
    forall a, b ensures le(a, b) || le(b, a) {
      assert collate(a.product.sku, b.product.sku) || collate(b.product.sku, a.product.sku);
    }
    forall a, b, c | le(a, b) && le(b, c) ensures le(a, c) {
      RankingChain(collate, a, b, c);
    }
  }

  lemma RankingChain(collate: (string, string) -> bool, a: Candidate, b: Candidate, c: Candidate)
    requires TotalPreorder(collate) && Ranking(collate)(a, b) && Ranking(collate)(b, c)
    ensures Ranking(collate)(a, c)
  {
    if a.score == b.score == c.score {
      assert collate(a.product.sku, b.product.sku) && collate(b.product.sku, c.product.sku);
    }
  }

  /** At a distance of one, with the name in the description. */
  ghost predicate Strong(product: Product, key: string, keys: set<string>, description: Option<Label>) {
    product.sku != key && IsLeast(1, keys, product.sku) && Corroborated(product, description)
  }

  ghost function StrongCount(products: seq<Product>, key: string, keys: set<string>, description: Option<Label>): nat {
    if products == [] then 0
    else
      var head := if Strong(products[0], key, keys, description) then 1 else 0;
      head + StrongCount(products[1..], key, keys, description)
  }

  ghost function CandidateCount(products: seq<Product>, key: string, keys: set<string>): nat {
    if products == [] then 0
    else (if IsCandidate(products[0], key, keys) then 1 else 0) + CandidateCount(products[1..], key, keys)
  }

  predicate HasExact(products: seq<Product>, key: string) {
    exists p | p in products :: p.sku == key
  }

  /** The scores that occur: 1 for an exact match, 0.946 for a strong one, and at most 0.856 for the others. */
  predicate ScoreLevels(s: seq<Candidate>, key: string) {
    forall c | c in s :: (c.score == 1.0 <==> c.product.sku == key)
      && (c.score == 1.0 || c.score == 0.946 || c.score <= 0.856)
  }

  function IsStrongScore(c: Candidate): int {
    if c.score == 0.946 then 1 else 0
  }

  predicate Descending(s: seq<Candidate>) {
    forall i, j :: 0 <= i < j < |s| ==> s[i].score >= s[j].score
  }

  function Confidence(s: seq<Candidate>): real {
    if |s| > 0 then s[0].score else 0.0
  }

  function Margin(s: seq<Candidate>): real {
    Confidence(s) - if |s| > 1 then s[1].score else 0.0
  }

  predicate Accepts(confidence: real, margin: real) {
    confidence == 1.0 || (confidence >= 0.92 && margin >= 0.08)
  }

  lemma {:induction false} NoStrongBelow(s: seq<Candidate>)
    requires forall c | c in s :: c.score <= 0.856
    ensures SumBy(IsStrongScore, s) == 0
  {
    if s != [] {
      assert s[0] in s;
      NoStrongBelow(s[1..]);
    }
  }

  lemma {:induction false} CountIsNatural(s: seq<Candidate>)
    ensures SumBy(IsStrongScore, s) >= 0
  {
    if s != [] {
      CountIsNatural(s[1..]);
    }
  }

  /** The thresholds in words: an exact match is on top, or nothing is exact and exactly one score is strong. */
  lemma {:induction false} AcceptsIff(s: seq<Candidate>, key: string)
    requires Descending(s) && ScoreLevels(s, key)
    ensures Accepts(Confidence(s), Margin(s)) <==>
      s != [] && (s[0].product.sku == key || (s[0].product.sku != key && SumBy(IsStrongScore, s) == 1))
    ensures Accepts(Confidence(s), Margin(s)) ==> s[0].product.sku == key || s[0].score == 0.946
    ensures (s != [] && s[0].product.sku == key) <==> exists c :: c in s && c.product.sku == key
  {
    if s == [] {
      return;
    }
    assert s[0] in s;
    if s[0].score <= 0.856 {
      forall c | c in s ensures c.score <= 0.856 {
      }
      NoStrongBelow(s);
    } else if s[0].score == 0.946 {
      SecondDecides(s, key);
    }
  }

  lemma {:induction false} SecondDecides(s: seq<Candidate>, key: string)
    requires Descending(s) && ScoreLevels(s, key) && s != [] && s[0].score == 0.946
    ensures Margin(s) >= 0.08 <==> SumBy(IsStrongScore, s) == 1
    ensures forall c | c in s :: c.product.sku != key
  {
    var rest := s[1..];
    assert s[0] in s;
    if rest == [] {
    } else if s[1].score == 0.946 {
      assert rest[0] == s[1];
      CountIsNatural(rest[1..]);
    } else {
      assert s[1] in s;
      forall c | c in rest ensures c.score <= 0.856 {
        assert c in s;
      }
      NoStrongBelow(rest);
    }
  }

  /** What `matchSku` holds after it has scored a part of the catalog. */
  ghost predicate Scored(
    s: seq<Candidate>, products: seq<Product>, key: string, keys: set<string>, description: Option<Label>)
  {
    && ScoreLevels(s, key)
    && (forall c | c in s :: c.product in products && c.score == ScoreOf(c.product, key, keys, description)
                             && IsCandidate(c.product, key, keys))
    && (forall p | p in products && IsCandidate(p, key, keys) :: exists c :: c in s && c.product == p)
    && |s| == CandidateCount(products, key, keys)
    && (HasExact(products, key) <==> exists c :: c in s && c.product.sku == key)
    && SumBy(IsStrongScore, s) == StrongCount(products, key, keys, description)
  }

  lemma {:induction false} StrongCountAppend(
    products: seq<Product>, last: Product, key: string, keys: set<string>, description: Option<Label>)
    ensures StrongCount(products + [last], key, keys, description)
         == StrongCount(products, key, keys, description) + if Strong(last, key, keys, description) then 1 else 0
  {
    hide Strong;
    if products == [] {
      assert products + [last] == [last] && [last][1..] == [];
    } else {
      assert (products + [last])[1..] == products[1..] + [last];
      StrongCountAppend(products[1..], last, key, keys, description);
    }
  }

  lemma {:induction false} CandidateCountAppend(products: seq<Product>, last: Product, key: string, keys: set<string>)
    ensures CandidateCount(products + [last], key, keys)
         == CandidateCount(products, key, keys) + if IsCandidate(last, key, keys) then 1 else 0
  {
    hide IsCandidate;
    if products == [] {
      assert products + [last] == [last] && [last][1..] == [];
    } else {
      assert (products + [last])[1..] == products[1..] + [last];
      CandidateCountAppend(products[1..], last, key, keys);
    }
  }

  lemma {:induction false} SumByAppend(s: seq<Candidate>, c: Candidate)
    ensures SumBy(IsStrongScore, s + [c]) == SumBy(IsStrongScore, s) + IsStrongScore(c)
  {
    if s == [] {
      assert s + [c] == [c] && [c][1..] == [];
    } else {
      assert (s + [c])[1..] == s[1..] + [c];
      SumByAppend(s[1..], c);
    }
  }

  lemma ScoreLevelOf(product: Product, key: string, keys: set<string>, description: Option<Label>)
    requires IsCandidate(product, key, keys)
    ensures var score := ScoreOf(product, key, keys, description);
      && (score == 1.0 <==> product.sku == key)
      && (score == 0.946 <==> Strong(product, key, keys, description))
      && (score == 1.0 || score == 0.946 || score <= 0.856)
  {
    hide IsLeast, Corroborated;
  }

  lemma ScoredOneMore(
    s: seq<Candidate>, products: seq<Product>, p: Product, c: Option<Candidate>, key: string, keys: set<string>,
    description: Option<Label>)
    requires Scored(s, products, key, keys, description)
    requires c.Some? <==> IsCandidate(p, key, keys)
    requires c.Some? ==> c.value.product == p && c.value.score == ScoreOf(p, key, keys, description)
    ensures Scored(s + (if c.Some? then [c.value] else []), products + [p], key, keys, description)
  {
    hide IsLeast, Corroborated, ScoreOf;
    StrongCountAppend(products, p, key, keys, description);
    CandidateCountAppend(products, p, key, keys);
    if c.Some? {
      ScoreLevelOf(p, key, keys, description);
      SumByAppend(s, c.value);
      assert c.value in s + [c.value];
    } else {
      assert s + [] == s;
    }
  }

  lemma SortedStaysScored(
    s: seq<Candidate>, t: seq<Candidate>, products: seq<Product>, key: string, keys: set<string>,
    description: Option<Label>)
    requires Scored(s, products, key, keys, description) && multiset(t) == multiset(s)
    ensures Scored(t, products, key, keys, description)
  {
    hide IsCandidate, ScoreOf;
    SumByPermuted(IsStrongScore, s, t);
    assert |t| == |multiset(t)| == |s|;
    forall c ensures c in t <==> c in s {
      assert c in multiset(t) <==> c in multiset(s);
    }
  }

  method ScoreAll(products: seq<Product>, key: string, keys: set<string>, description: Option<Label>)
    returns (scored: seq<Candidate>)
    requires keys != {}
    ensures Scored(scored, products, key, keys, description)
  {
    hide Scored, IsCandidate, ScoreOf;
    scored := [];
    NothingScored(key, keys, description);
    for i := 0 to |products|
      invariant Scored(scored, products[..i], key, keys, description)
    {
      var candidate := ScoreCandidate(products[i], key, keys, description);
      ScoredOneMore(scored, products[..i], products[i], candidate, key, keys, description);
      assert products[..i + 1] == products[..i] + [products[i]];
      scored := scored + if candidate.Some? then [candidate.value] else [];
    }
    assert products[..|products|] == products;
  }

  lemma NothingScored(key: string, keys: set<string>, description: Option<Label>)
    ensures Scored([], [], key, keys, description)
  {
  }

  lemma TopOf(s: seq<Candidate>, products: seq<Product>, key: string, keys: set<string>, description: Option<Label>)
    requires Scored(s, products, key, keys, description) && s != []
    ensures s[0].product in products
    ensures s[0].product.sku != key && s[0].score == 0.946 ==> Strong(s[0].product, key, keys, description)
  {
    hide IsLeast, Corroborated, StrongCount, SumBy, HasExact;
    assert s[0] in s;
    ScoreLevelOf(s[0].product, key, keys, description);
  }

  /** A product is on the list, or five others are that score at least as much. */
  ghost predicate IsListed(
    top: seq<Candidate>, p: Product, key: string, keys: set<string>, description: Option<Label>)
  {
    || (exists c :: c in top && c.product == p)
    || (|top| == 5 && forall c | c in top :: c.score >= ScoreOf(p, key, keys, description))
  }

  lemma ListedOrOutranked(
    s: seq<Candidate>, top: seq<Candidate>, products: seq<Product>, p: Product, key: string, keys: set<string>,
    description: Option<Label>)
    requires Scored(s, products, key, keys, description) && Descending(s)
    requires top == if |s| > 5 then s[..5] else s
    requires p in products && IsCandidate(p, key, keys)
    ensures IsListed(top, p, key, keys, description)
  {
    hide IsCandidate, ScoreOf, ScoreLevels, StrongCount, CandidateCount, HasExact;
    var c :| c in s && c.product == p;
    var i :| 0 <= i < |s| && s[i] == c;
    if i < |top| {
      assert top[i] == c;
    }
  }

  /** The products of one brand, in catalog order. */
  function OfBrand(catalog: seq<Product>, brand: string): (products: seq<Product>)
    ensures forall p :: p in products <==> p in catalog && p.brand == brand
  {
    Filter((p: Product) => p.brand == brand, catalog)
  }

  /** What the list of five says about the products. */
  lemma ListFacts(
    s: seq<Candidate>, top: seq<Candidate>, products: seq<Product>, key: string, keys: set<string>,
    description: Option<Label>)
    requires Scored(s, products, key, keys, description) && Descending(s)
    requires top == if |s| > 5 then s[..5] else s
    ensures |top| == Min(5, CandidateCount(products, key, keys))
    ensures forall c | c in top ::
      && c.product in products && IsCandidate(c.product, key, keys)
      && c.score == ScoreOf(c.product, key, keys, description)
    ensures forall p | p in products && IsCandidate(p, key, keys) :: IsListed(top, p, key, keys, description)
  {
    hide IsCandidate, ScoreOf, ScoreLevels, StrongCount, CandidateCount, HasExact, IsListed, SumBy;
    forall c | c in top ensures c in s {
    }
    forall p | p in products && IsCandidate(p, key, keys) ensures IsListed(top, p, key, keys, description) {
      ListedOrOutranked(s, top, products, p, key, keys, description);
    }
  }

  lemma NothingCounted()
    ensures SumBy(IsStrongScore, []) == 0
  {
  }

  /** The outcome of a ranking, in terms of the catalog. */
  lemma {:induction false} SelectionIff(
    s: seq<Candidate>, products: seq<Product>, key: string, keys: set<string>, description: Option<Label>)
    requires Scored(s, products, key, keys, description) && Descending(s)
    ensures Accepts(Confidence(s), Margin(s)) <==>
      HasExact(products, key) || StrongCount(products, key, keys, description) == 1
    ensures Accepts(Confidence(s), Margin(s)) ==>
      && s != [] && s[0].product in products
      && (if HasExact(products, key) then s[0].product.sku == key else Strong(s[0].product, key, keys, description))
  {
    hide IsVariant, IsCandidate, IsLeast, ScoreOf, StrongCount, SumBy, Corroborated, HasExact, Accepts, ScoreLevels,
         Confidence, Margin, CandidateCount;
    NothingCounted();
    AcceptsIff(s, key);
    if s != [] {
      TopOf(s, products, key, keys, description);
    }
  }

  lemma SortedDescends(s: seq<Candidate>, collate: (string, string) -> bool)
    requires SortedBy(s, Ranking(collate))
    ensures Descending(s)
  {
  }

  /** Dropping all but the first five changes neither the confidence nor the margin. */
  lemma FirstFive(s: seq<Candidate>)
    ensures var top := if |s| > 5 then s[..5] else s;
      Confidence(top) == Confidence(s) && Margin(top) == Margin(s) && (top == [] <==> s == [])
        && (s != [] ==> top[0] == s[0])
  {
  }

  /**
   A product is selected exactly when some product has the key as its SKU, or none has and exactly one is a strong
   match; and the product selected is then of that kind. The list of five does not matter.
   */
  method MatchSku(
    key: string, catalog: seq<Product>, brand: string, description: Option<Label>, collate: (string, string) -> bool)
    returns (result: MatchResult, ghost keys: set<string>)
    requires TotalPreorder(collate)
    ensures AreKeys(keys, key)
    ensures result.selected.Some? <==>
      HasExact(OfBrand(catalog, brand), key) || StrongCount(OfBrand(catalog, brand), key, keys, description) == 1
    ensures result.selected.Some? ==> result.selected.value in OfBrand(catalog, brand)
    ensures result.selected.Some? && HasExact(OfBrand(catalog, brand), key) ==> result.selected.value.sku == key
    ensures result.selected.Some? && !HasExact(OfBrand(catalog, brand), key) ==>
      Strong(result.selected.value, key, keys, description)
    ensures |result.candidates| == Min(5, CandidateCount(OfBrand(catalog, brand), key, keys))
      && SortedBy(result.candidates, Ranking(collate))
    ensures forall c | c in result.candidates ::
      c.product in OfBrand(catalog, brand) && IsCandidate(c.product, key, keys)
        && c.score == ScoreOf(c.product, key, keys, description)
    ensures forall p | p in OfBrand(catalog, brand) && IsCandidate(p, key, keys) ::
      IsListed(result.candidates, p, key, keys, description)
    ensures result.confidence == Confidence(result.candidates) && result.margin == Margin(result.candidates)
    ensures result.status
         == if result.selected.Some? then Matched
            else if CandidateCount(OfBrand(catalog, brand), key, keys) > 0 then NeedsReview
            else NotFound
  {
    hide IsVariant, IsCandidate, IsLeast, ScoreOf, StrongCount, SumBy, Corroborated, TotalPreorder, HasExact, Accepts,
         Strong, ScoreLevels, Ranking, Confidence, Margin, CandidateCount, IsListed, OfBrand, Filter,
         Scored;
    var products := OfBrand(catalog, brand);
    var variants := OcrVariants(key);
    var compared := {key} + variants;
    keys := compared;
    var scored := ScoreAll(products, key, compared, description);
    RankingIsTotal(collate);
    var ranked := Sort(scored, Ranking(collate));
    SortedStaysScored(scored, ranked, products, key, keys, description);
    var top := if |ranked| > 5 then ranked[..5] else ranked;
    var confidence, margin := Confidence(top), Margin(top);
    SortedDescends(ranked, collate);
    SelectionIff(ranked, products, key, keys, description);
    FirstFive(ranked);
    ListFacts(ranked, top, products, key, keys, description);
    var selected := if Accepts(confidence, margin) then Some(top[0].product) else None;
    result := MatchResult(if selected.Some? then Matched else if top != [] then NeedsReview else NotFound,
                          top, selected, confidence, margin);
  }
}
