/** What the offer tables of a run keep, whatever the suppliers answer. */
module NegotiationStore {
  import opened Prelude
  import opened Negotiation

  ghost predicate OfferKeys(t: Tables) {
    && (forall o | o in t.offers :: o.id < t.nextId)
    && (forall o, p | o in t.offers && p in t.offers && o.id == p.id :: o == p)
    && (forall o, p | o in t.offers && p in t.offers && o.supplier == p.supplier && o.round == p.round :: o == p)
  }

  ghost predicate LineKeys(t: Tables) {
    && (forall line | line in t.offerLines :: line.id < t.nextId && IsOfferId(t, line.offerId))
    && (forall l, m | l in t.offerLines && m in t.offerLines && l.id == m.id :: l == m)
  }

  ghost predicate NoEmptyOffer(t: Tables) {
    forall o | o in t.offers :: exists line | line in t.offerLines :: line.offerId == o.id
  }

  /** A row for a line: sixty percent of its quantity, rounded down, and never the full order. */
  predicate IsRowFor(row: Fulfillment, line: OfferLineRow) {
    && !row.fullOrderEligible
    && 100 * row.fulfillableQuantity <= 60 * line.quantity < 100 * (row.fulfillableQuantity + 1)
  }

  ghost predicate IsS2Row(t: Tables, id: nat, row: Fulfillment) {
    exists line | line in t.offerLines :: line.id == id && BelongsTo(line, S2, t.offers) && IsRowFor(row, line)
  }

  /** Only lines of S2 ever get a fulfillment row, and every row says "not eligible". */
  ghost predicate RowsAreS2(t: Tables) {
    forall id | id in t.fulfillments :: IsS2Row(t, id, t.fulfillments[id])
  }

  /** Once the capacity event is recorded, every line of S2, of either round, has its row. */
  ghost predicate S2Covered(t: Tables) {
    CapacityEvent in t.events ==>
      forall line | line in t.offerLines && BelongsTo(line, S2, t.offers) :: line.id in t.fulfillments
  }

  ghost predicate StoreOk(t: Tables) {
    OfferKeys(t) && LineKeys(t) && NoEmptyOffer(t) && RowsAreS2(t) && S2Covered(t)
  }

  /** Tables that agree on everything the predicate above looks at. */
  ghost predicate SameStore(t: Tables, u: Tables) {
    && t.offers == u.offers && t.offerLines == u.offerLines && t.fulfillments == u.fulfillments && t.nextId == u.nextId
    && (CapacityEvent in t.events <==> CapacityEvent in u.events)
  }

  lemma SameStoreOk(t: Tables, u: Tables)
    requires SameStore(t, u) && StoreOk(t)
    ensures StoreOk(u)
  {
  }

  lemma {:induction false} InsertFulfillmentsFacts(lines: seq<OfferLineRow>, rows: map<nat, Fulfillment>)
    ensures var r := InsertFulfillments(lines, rows);
      && (forall id | id in rows :: id in r && r[id] == rows[id])
      && (forall line | line in lines :: line.id in r)
      && (forall id | id in r && id !in rows :: exists line | line in lines :: line.id == id && IsRowFor(r[id], line))
  {
    if lines != [] {
      var line := lines[0];
      var rows' := if line.id in rows then rows else rows[line.id := Fulfillment(line.quantity * 60 / 100, false)];
      InsertFulfillmentsFacts(lines[1..], rows');
      assert forall l | l in lines :: l == line || l in lines[1..];
    }
  }

  lemma S2LineFacts(t: Tables)
    ensures forall line :: line in S2Lines(t) <==> line in t.offerLines && BelongsTo(line, S2, t.offers)
  {
  }

  lemma MaterializeS2Rows(t: Tables, id: nat)
    requires RowsAreS2(t) && id in MaterializeS2Fulfillment(t).fulfillments
    ensures IsS2Row(t, id, MaterializeS2Fulfillment(t).fulfillments[id])
  {
    InsertFulfillmentsFacts(S2Lines(t), t.fulfillments);
    S2LineFacts(t);
    var row := MaterializeS2Fulfillment(t).fulfillments[id];
    if id in t.fulfillments {
      assert IsS2Row(t, id, t.fulfillments[id]);
    } else {
      var line :| line in S2Lines(t) && line.id == id && IsRowFor(row, line);
      assert line in t.offerLines;
    }
  }

  lemma MaterializeS2Keeps(t: Tables)
    requires OfferKeys(t) && LineKeys(t) && NoEmptyOffer(t) && RowsAreS2(t)
    ensures StoreOk(MaterializeS2Fulfillment(t))
    ensures var u := MaterializeS2Fulfillment(t);
      forall line | line in u.offerLines && BelongsTo(line, S2, u.offers) :: line.id in u.fulfillments
  {
    var u := MaterializeS2Fulfillment(t);
    forall id | id in u.fulfillments ensures IsS2Row(u, id, u.fulfillments[id]) {
      MaterializeS2Rows(t, id);
      var line :| line in t.offerLines && line.id == id && BelongsTo(line, S2, t.offers)
        && IsRowFor(u.fulfillments[id], line);
      assert line in u.offerLines;
    }
    forall line | line in u.offerLines && BelongsTo(line, S2, u.offers) ensures line.id in u.fulfillments {
      InsertFulfillmentsFacts(S2Lines(t), t.fulfillments);
      S2LineFacts(t);
      assert line in S2Lines(t);
    }
  }

  lemma ApplyCapacityEventKeeps(t: Tables)
    requires StoreOk(t)
    ensures StoreOk(ApplyCapacityEvent(t)) && CapacityEvent in ApplyCapacityEvent(t).events
  {
    if CapacityEvent !in t.events {
      MaterializeS2Keeps(InsertEvent(t, CapacityEvent));
    }
  }

  lemma NewLineFacts(p: AnswerProposal, offerId: nat)
    requires p.lines != []
    ensures var lines := NewLines(p, offerId);
      && (forall l | l in lines :: l.offerId == offerId && offerId < l.id < offerId + 1 + |p.lines|)
      && (forall l, m | l in lines && m in lines && l.id == m.id :: l == m)
      && lines[0] in lines
  {
  }

  lemma InsertOfferKeys(t: Tables, p: AnswerProposal)
    requires OfferKeys(t) && !HasOffer(t, p.supplier, p.round)
    ensures OfferKeys(InsertOffer(t, p))
  {
    var u := InsertOffer(t, p);
    var row := u.offers[|t.offers|];
    assert forall o :: o in u.offers <==> o in t.offers || o == row;
  }

  lemma InsertOfferLines(t: Tables, p: AnswerProposal)
    requires OfferKeys(t) && LineKeys(t) && NoEmptyOffer(t) && p.lines != []
    ensures LineKeys(InsertOffer(t, p)) && NoEmptyOffer(InsertOffer(t, p))
  {
    var u := InsertOffer(t, p);
    var row, lines := u.offers[|t.offers|], NewLines(p, t.nextId);
    NewLineFacts(p, t.nextId);
    assert forall o :: o in u.offers <==> o in t.offers || o == row;
    assert forall l :: l in u.offerLines <==> l in t.offerLines || l in lines;
    forall l | l in u.offerLines ensures l.id < u.nextId && IsOfferId(u, l.offerId) {
      if l in lines {
        assert row in u.offers;
      } else {
        assert IsOfferId(t, l.offerId);
      }
    }
    forall o | o in u.offers ensures exists line | line in u.offerLines :: line.offerId == o.id {
      if o == row {
        assert lines[0] in u.offerLines && lines[0].offerId == o.id;
      } else {
        var line :| line in t.offerLines && line.offerId == o.id;
        assert line in u.offerLines;
      }
    }
  }

  /** A new offer changes nothing about whose lines the older ones are. */
  lemma OwnersStay(t: Tables, p: AnswerProposal, line: OfferLineRow)
    requires OfferKeys(t) && LineKeys(t) && line in t.offerLines
    ensures BelongsTo(line, S2, InsertOffer(t, p).offers) <==> BelongsTo(line, S2, t.offers)
  {
    var u := InsertOffer(t, p);
    var row := u.offers[|t.offers|];
    assert forall o :: o in u.offers <==> o in t.offers || o == row;
    assert IsOfferId(t, line.offerId);
  }

  lemma InsertOfferRows(t: Tables, p: AnswerProposal)
    requires OfferKeys(t) && LineKeys(t) && RowsAreS2(t)
    ensures RowsAreS2(InsertOffer(t, p))
  {
    var u := InsertOffer(t, p);
    forall id | id in u.fulfillments ensures IsS2Row(u, id, u.fulfillments[id]) {
      assert IsS2Row(t, id, t.fulfillments[id]);
      var line :| line in t.offerLines && line.id == id && BelongsTo(line, S2, t.offers)
        && IsRowFor(t.fulfillments[id], line);
      OwnersStay(t, p, line);
      assert line in u.offerLines;
    }
  }

  lemma NewLineOwner(t: Tables, p: AnswerProposal, line: OfferLineRow)
    requires OfferKeys(t) && line.offerId == t.nextId
    ensures BelongsTo(line, S2, InsertOffer(t, p).offers) <==> p.supplier == S2
  {
    var u := InsertOffer(t, p);
    var row := u.offers[|t.offers|];
    assert forall o :: o in u.offers <==> o in t.offers || o == row;
  }

  lemma InsertOtherOfferCovered(t: Tables, p: AnswerProposal)
    requires OfferKeys(t) && LineKeys(t) && S2Covered(t) && p.supplier != S2 && p.lines != []
    ensures S2Covered(InsertOffer(t, p))
  {
    var u := InsertOffer(t, p);
    NewLineFacts(p, t.nextId);
    forall line | line in u.offerLines && CapacityEvent in u.events
      ensures BelongsTo(line, S2, u.offers) ==> line.id in u.fulfillments
    {
      if line in t.offerLines {
        OwnersStay(t, p, line);
      } else {
        NewLineOwner(t, p, line);
      }
    }
  }

  lemma MaterializeOfferKeeps(t: Tables, proposal: Option<AnswerProposal>)
    requires StoreOk(t) && (proposal.Some? ==> proposal.value.lines != [])
    ensures MaterializeOffer(t, proposal).Some? ==> StoreOk(MaterializeOffer(t, proposal).value)
  {
    if proposal.Some? && MaterializeOffer(t, proposal).Some?
        && !HasOffer(t, proposal.value.supplier, proposal.value.round) {
      var p := proposal.value;
      InsertOfferKeys(t, p);
      InsertOfferLines(t, p);
      InsertOfferRows(t, p);
      if p.supplier != S2 {
        InsertOtherOfferCovered(t, p);
      } else if CapacityEvent in t.events {
        MaterializeS2Keeps(InsertOffer(t, p));
      }
    }
  }

  lemma AppendTurnKeeps(t: Tables, supplier: Supplier, round: Round, answer: Answer)
    requires StoreOk(t)
    ensures AppendTurn(t, supplier, round, answer).Some? ==> StoreOk(AppendTurn(t, supplier, round, answer).value)
  {
    if (supplier, round) !in t.turns {
      var t' := InsertEvent(t.(turns := t.turns[(supplier, round) := answer.status]), TurnEvent(supplier, round));
      SameStoreOk(t, t');
      MaterializeOfferKeeps(t', DecodeProposal(answer));
    }
  }

  /** From the capacity event on, an offer can fill the whole order exactly when it is not from S2. */
  lemma EligibleIffNotS2(t: Tables, o: OfferRow)
    requires StoreOk(t) && CapacityEvent in t.events && o in t.offers
    ensures FullOrderEligible(t, o.id) <==> o.supplier != S2
  {
    if o.supplier == S2 {
      var line :| line in t.offerLines && line.offerId == o.id;
      assert BelongsTo(line, S2, t.offers);
      assert line in LinesOf(t, o.id);
    } else {
      forall line, m | line in LinesOf(t, o.id) && m in t.offerLines && m.id == line.id
        ensures !BelongsTo(m, S2, t.offers)
      {
        assert m == line;
      }
      forall line | line in LinesOf(t, o.id) ensures line.id !in t.fulfillments {
        assert line.id in t.fulfillments ==> IsS2Row(t, line.id, t.fulfillments[line.id]);
      }
    }
  }
}
