/** Which offers a run decides on, and whom it can recommend. */
module NegotiationOutcome {
  import opened Prelude
  import opened Negotiation
  import opened NegotiationPolicy
  import opened NegotiationStore
  import D = Decision

  // ----------------------------------------------------------- latest offers

  lemma {:induction false} SupplierListed(rows: seq<OfferRow>, o: OfferRow)
    requires o in rows
    ensures o.supplier in Suppliers(rows)
  {
    if o != rows[0] {
      SupplierListed(rows[1..], o);
    }
  }

  lemma {:induction false} SupplierWitness(rows: seq<OfferRow>, s: Supplier) returns (o: OfferRow)
    requires s in Suppliers(rows)
    ensures o in rows && o.supplier == s
  {
    if rows[0].supplier == s {
      o := rows[0];
    } else {
      o := SupplierWitness(rows[1..], s);
    }
  }

  lemma {:induction false} SuppliersOfAppend(rows: seq<OfferRow>, last: OfferRow)
    ensures Suppliers(rows + [last]) == Suppliers(rows) + {last.supplier}
  {
    if rows != [] {
      assert (rows + [last])[1..] == rows[1..] + [last];
      SuppliersOfAppend(rows[1..], last);
    }
  }

  /** One row of each supplier is kept. */
  lemma {:induction false} FirstPerSupplierFacts(rows: seq<OfferRow>)
    ensures forall o | o in FirstPerSupplier(rows) :: o in rows
    ensures Suppliers(FirstPerSupplier(rows)) == Suppliers(rows)
    ensures forall i, j | 0 <= i < j < |FirstPerSupplier(rows)| ::
      FirstPerSupplier(rows)[i].supplier != FirstPerSupplier(rows)[j].supplier
  {
    if rows != [] {
      var init, last := rows[..|rows| - 1], rows[|rows| - 1];
      var r := FirstPerSupplier(init);
      FirstPerSupplierFacts(init);
      assert rows == init + [last];
      SuppliersOfAppend(init, last);
      SuppliersOfAppend(r, last);
      forall i | 0 <= i < |r| ensures r[i].supplier in Suppliers(r) {
        SupplierListed(r, r[i]);
      }
    }
  }

  /** Later rounds come first. */
  ghost predicate RoundsDescend(rows: seq<OfferRow>) {
    forall i, j :: 0 <= i < j < |rows| && rows[i].round == One ==> rows[j].round == One
  }

  lemma {:induction false} FirstIsLatest(rows: seq<OfferRow>, o: OfferRow, p: OfferRow)
    requires RoundsDescend(rows) && o in FirstPerSupplier(rows) && p in rows && p.supplier == o.supplier
    ensures o.round == One ==> p.round == One
  {
    var init, last := rows[..|rows| - 1], rows[|rows| - 1];
    FirstPerSupplierFacts(init);
    if o in FirstPerSupplier(init) {
      var k :| 0 <= k < |init| && init[k] == o;
      assert rows[k] == o;
      if p in init {
        FirstIsLatest(init, o, p);
      }
    } else if p in init {
      SupplierListed(init, p);
    }
  }

  lemma FilteredRound(rows: seq<OfferRow>, round: Round, i: nat)
    requires i < |Filter((o: OfferRow) => o.round == round, rows)|
    ensures Filter((o: OfferRow) => o.round == round, rows)[i].round == round
  {
    var r := Filter((o: OfferRow) => o.round == round, rows);
    assert r[i] in r;
  }

  lemma LatestFirstDescends(offers: seq<OfferRow>)
    ensures RoundsDescend(LatestFirst(offers))
  {
    var reversed := Reverse(offers);
    var twos, ones := Filter((o: OfferRow) => o.round == Two, reversed),
      Filter((o: OfferRow) => o.round == One, reversed);
    forall i | 0 <= i < |twos| ensures twos[i].round == Two {
      FilteredRound(reversed, Two, i);
    }
    forall i | 0 <= i < |ones| ensures ones[i].round == One {
      FilteredRound(reversed, One, i);
    }
  }

  lemma LatestFirstMembers(offers: seq<OfferRow>, o: OfferRow)
    ensures o in LatestFirst(offers) <==> o in offers
  {
  }

  function Selected(offers: seq<OfferRow>): seq<OfferRow> {
    FirstPerSupplier(LatestFirst(offers))
  }

  lemma SelectedIsStored(offers: seq<OfferRow>, o: OfferRow)
    requires o in Selected(offers)
    ensures o in offers
  {
    FirstPerSupplierFacts(LatestFirst(offers));
    LatestFirstMembers(offers, o);
  }

  /**
   The offers that are decided on: for each supplier its round-two offer if it has one, or else its round-one offer.
   */
  lemma LatestOffers(t: Tables, o: OfferRow)
    requires OfferKeys(t)
    ensures o in Selected(t.offers) <==>
      o in t.offers && (o.round == Two || forall p | p in t.offers && p.supplier == o.supplier :: p.round == One)
  {
    var rows := LatestFirst(t.offers);
    LatestFirstDescends(t.offers);
    FirstPerSupplierFacts(rows);
    LatestFirstMembers(t.offers, o);
    if o in Selected(t.offers) {
      forall p | p in t.offers && p.supplier == o.supplier ensures o.round == One ==> p.round == One {
        LatestFirstMembers(t.offers, p);
        FirstIsLatest(rows, o, p);
      }
    } else if o in t.offers {
      SupplierListed(rows, o);
      var p := SupplierWitness(Selected(t.offers), o.supplier);
      LatestFirstMembers(t.offers, p);
      FirstIsLatest(rows, p, o);
    }
  }

  // ---- the candidates are the latest offers

  lemma {:induction false} CandidateRows(t: Tables, rows: seq<OfferRow>)
    ensures |Candidates(t, rows)| == |rows|
    ensures forall i :: 0 <= i < |rows| ==> Candidates(t, rows)[i] == CandidateOf(t, rows[i])
  {
    if rows != [] {
      CandidateRows(t, rows[1..]);
    }
  }

  lemma CandidatesHaveUniqueIds(t: Tables)
    requires OfferKeys(t)
    ensures D.UniqueIds(DecisionInputs(t).candidates)
  {
    var rows := Selected(t.offers);
    CandidateRows(t, rows);
    FirstPerSupplierFacts(LatestFirst(t.offers));
    forall i, j | 0 <= i < j < |rows| ensures rows[i].id != rows[j].id {
      SelectedIsStored(t.offers, rows[i]);
      SelectedIsStored(t.offers, rows[j]);
    }
  }

  lemma {:induction false} BaselineIsPositive(lines: seq<RunLine>)
    requires lines != [] && forall line | line in lines :: line.quantity > 0 && line.baselineUnitPriceMinor > 0
    ensures SumBy(RunLineTotal, lines) > 0
  {
    var line := lines[0];
    assert line in lines && RunLineTotal(line) == line.quantity * line.baselineUnitPriceMinor > 0;
    if |lines| > 1 {
      BaselineIsPositive(lines[1..]);
    } else {
      assert SumBy(RunLineTotal, lines[1..]) == 0;
    }
  }

  /** The decision of a run never fails: its inputs always meet what the engine asks for. */
  lemma DecisionNeverThrows(t: Tables)
    requires Startable(t.facts) && OfferKeys(t)
    ensures D.Decide(DecisionInputs(t)).Ok?
  {
    CandidatesHaveUniqueIds(t);
    BaselineIsPositive(t.facts.lines);
    ConfirmablePolicies(t.facts.policy);
    D.DecideSucceedsIff(DecisionInputs(t));
  }

  /** A winner that the run may buy from. */
  ghost predicate Buyable(t: Tables, id: nat) {
    IsOfferId(t, id) && forall o | o in t.offers && o.id == id :: o.supplier != S2 && o.capacityPercent == 100
  }

  lemma EligibleCandidateIsBuyable(t: Tables, c: D.Candidate)
    requires StoreOk(t) && CapacityEvent in t.events
    requires c in DecisionInputs(t).candidates && D.Eligible(c, DecisionInputs(t))
    ensures Buyable(t, c.offerId)
  {
    var rows := Selected(t.offers);
    CandidateRows(t, rows);
    var i :| 0 <= i < |rows| && Candidates(t, rows)[i] == c;
    SelectedIsStored(t.offers, rows[i]);
    EligibleIffNotS2(t, rows[i]);
  }

  /** A recommended offer is one of the stored offers, can fill the whole order, and is not from S2. */
  lemma WinnerIsBuyable(t: Tables)
    requires Startable(t.facts) && StoreOk(t) && CapacityEvent in t.events
    requires D.Decide(DecisionInputs(t)).Ok? && D.Decide(DecisionInputs(t)).value.selection.winner.Some?
    ensures Buyable(t, D.Decide(DecisionInputs(t)).value.selection.winner.value.offerId)
  {
    ConfirmablePolicies(t.facts.policy);
    WinnerIsEligible(DecisionInputs(t));
    EligibleCandidateIsBuyable(t, D.Decide(DecisionInputs(t)).value.selection.winner.value);
  }

  lemma WinnerIsEligible(input: D.DecisionInput)
    requires D.NonNegative(input.weights) && D.Decide(input).Ok? && D.Decide(input).value.selection.winner.Some?
    ensures var winner := D.Decide(input).value.selection.winner.value;
      winner in input.candidates && D.Eligible(winner, input)
  {
    D.DecisionIsEfficient(input);
  }
}
