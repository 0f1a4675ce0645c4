/** What the turns of a run leave in its offer tables. */
module NegotiationOffers {
  import opened Prelude
  import opened Negotiation
  import opened NegotiationStore
  import opened NegotiationSafety
  import opened NegotiationAnswers
  import opened NegotiationIssuance
  import opened NegotiationRecommendation
  import R = NegotiationRuns
  import D = Decision
  import P = Proposals

  // ------------------------------------------------------ any answers at all

  /** Every stored offer has a lead time, some capacity, and distinct products with quantities and prices. */
  ghost predicate OffersSane(t: Tables) {
    && (forall o | o in t.offers :: o.leadTimeDays > 0 && 1 <= o.capacityPercent <= 100)
    && (forall line | line in t.offerLines :: line.quantity > 0 && line.unitPrice > 0)
    && (forall i, j :: 0 <= i < j < |t.offerLines| && t.offerLines[i].offerId == t.offerLines[j].offerId ==>
          t.offerLines[i].productId != t.offerLines[j].productId)
  }

  lemma SameOffersSane(t: Tables, u: Tables)
    requires SameOffers(t, u) && OffersSane(t)
    ensures OffersSane(u)
  {
  }

  lemma DecodedIsSane(answer: Answer, p: AnswerProposal)
    requires DecodeProposal(answer) == Some(p)
    ensures p.leadTimeDays > 0 && 0 <= p.capacityPercent <= 100
    ensures forall line | line in p.lines :: line.quantity > 0 && line.unitPriceMinor > 0
  {
  }

  lemma InsertKeepsSane(t: Tables, answer: Answer, p: AnswerProposal)
    requires StoreOk(t) && OffersSane(t) && DecodeProposal(answer) == Some(p)
    requires p.capacityPercent >= 1 && DistinctAnswers(p.lines)
    ensures OffersSane(InsertOffer(t, p))
  {
    hide StoreOk, DecodeProposal;
    DecodedIsSane(answer, p);
    OlderLines(t);
    var u, more := InsertOffer(t, p), NewLines(p, t.nextId);
    forall line | line in more ensures line.quantity > 0 && line.unitPrice > 0 {
      var i :| 0 <= i < |more| && more[i] == line;
      assert p.lines[i] in p.lines;
    }
    forall i, j | 0 <= i < j < |u.offerLines| && u.offerLines[i].offerId == u.offerLines[j].offerId
      ensures u.offerLines[i].productId != u.offerLines[j].productId
    {
      if i < |t.offerLines| {
        assert t.offerLines[i] in t.offerLines;
      }
    }
  }

  lemma AppendTurnKeepsSane(t: Tables, supplier: Supplier, round: Round, answer: Answer)
    requires StoreOk(t) && OffersSane(t) && AppendTurn(t, supplier, round, answer).Some?
    ensures OffersSane(AppendTurn(t, supplier, round, answer).value)
  {
    hide StoreOk, OffersSane, InsertOffer, MaterializeS2Fulfillment, DecodeProposal;
    if (supplier, round) in t.turns {
      return;
    }
    var u := AppendTurn(t, supplier, round, answer).value;
    var t' := InsertEvent(t.(turns := t.turns[(supplier, round) := answer.status]), TurnEvent(supplier, round));
    SameStoreOk(t, t');
    SameOffersSane(t, t');
    var decoded := DecodeProposal(answer);
    if decoded.Some? && !HasOffer(t', decoded.value.supplier, decoded.value.round) {
      InsertKeepsSane(t', answer, decoded.value);
      S2RowsKeepOffers(InsertOffer(t', decoded.value));
      SameOffersSane(InsertOffer(t', decoded.value), u);
    }
  }

  lemma CommitKeepsSane(t: Tables, job: Job, answer: Answer)
    requires Inv(t) && OffersSane(t)
    ensures OffersSane(Next(t, Commit(job, answer)))
  {
    hide CommitTurn, OffersSane, Inv, StoreOk, Next;
    if job in t.inflight && job.TurnJob? {
      var taken := R.Taken(t, job);
      R.TakenKeeps(t, job);
      TakenSame(t, job);
      SameOffersSane(t, taken);
      if CommitTurn(taken, job, answer).None? {
        R.RefusedCommit(t, job, answer);
      } else {
        var u := CommitTurn(taken, job, answer).value;
        R.AcceptedCommit(t, job, answer);
        CommittedSane(taken, job, answer);
        SameOffersSane(u, u.(completed := u.completed + {job}));
      }
    } else {
      NotCommitted(t, job, answer);
    }
  }

  lemma NotCommitted(t: Tables, job: Job, answer: Answer)
    requires !(job in t.inflight && job.TurnJob?)
    ensures Next(t, Commit(job, answer)) == t
  {
  }

  lemma CommittedSane(t: Tables, job: Job, answer: Answer)
    requires Inv(t) && OffersSane(t) && job.TurnJob? && CommitTurn(t, job, answer).Some?
    ensures OffersSane(CommitTurn(t, job, answer).value)
  {
    hide AppendTurn, AdvanceToRoundTwo, AdvanceToDecision, StoreOk, OffersSane, SameOffers;
    if t.state == StateForRound(job.round) {
      var u := AppendTurn(t, job.supplier, job.round, answer).value;
      AppendTurnKeepsSane(t, job.supplier, job.round, answer);
      AdvanceKeepsOffers(u, t.version);
      SameOffersSane(u, AdvanceToRoundTwo(u, t.version));
      SameOffersSane(u, AdvanceToDecision(u, t.version));
    }
  }

  lemma {:induction false} RunsAreSane(t: Tables, actions: seq<Action>)
    requires Inv(t) && OffersSane(t)
    ensures OffersSane(Exec(t, actions))
  {
    hide Inv, OffersSane, Next, SameOffers;
    if actions != [] {
      var init, a := actions[..|actions| - 1], actions[|actions| - 1];
      RunsAreSane(t, init);
      ExecKeeps(t, init);
      var u := Exec(t, init);
      if a.Commit? {
        CommitKeepsSane(u, a.job, a.answer);
      } else {
        OtherStepsKeepOffers(u, a);
        SameOffersSane(u, Next(u, a));
      }
    }
  }

  /** Over every schedule, and whatever the suppliers answer, only well-formed offers are stored. */
  lemma StoredOffersAreSane(t: Tables)
    requires Reachable(t)
    ensures OffersSane(t)
  {
    hide Inv, Exec;
    var facts, actions :| Startable(facts) && t == Exec(Start(facts), actions);
    StartInv(facts);
    RunsAreSane(Start(facts), actions);
  }

  /** A new turn with a readable proposal stores that proposal, whole, unless its supplier has an offer of the round. */
  lemma TurnStoresItsOffer(t: Tables, supplier: Supplier, round: Round, answer: Answer, p: AnswerProposal)
    requires (supplier, round) !in t.turns && DecodeProposal(answer) == Some(p)
    requires AppendTurn(t, supplier, round, answer).Some?
    ensures var u := AppendTurn(t, supplier, round, answer).value;
      && HasOffer(u, p.supplier, p.round)
      && (HasOffer(t, p.supplier, p.round) ==> u.offers == t.offers && u.offerLines == t.offerLines)
      && (!HasOffer(t, p.supplier, p.round) ==>
            && u.offers
               == t.offers + [OfferRow(t.nextId, p.supplier, p.round, p.leadTimeDays, p.capacityPercent, p.terms)]
            && |u.offerLines| == |t.offerLines| + |p.lines| && t.offerLines <= u.offerLines
            && forall k :: 0 <= k < |p.lines| ==>
                 var line := u.offerLines[|t.offerLines| + k];
                 && line.offerId == t.nextId && line.productId == p.lines[k].productId
                 && line.quantity == p.lines[k].quantity && line.unitPrice == p.lines[k].unitPriceMinor)
  {
    hide DecodeProposal, InsertFulfillments, S2Lines;
    var u := AppendTurn(t, supplier, round, answer).value;
    if !HasOffer(t, p.supplier, p.round) {
      assert u.offers[|t.offers|] in u.offers;
    }
  }

  // ------------------------------------------------------- validated answers

  /** A supplier has an offer of a round exactly when its recorded turn of that round is a proposal. */
  ghost predicate OffersMatchTurns(t: Tables) {
    forall s, r :: HasOffer(t, s, r) <==> (s, r) in t.turns && t.turns[(s, r)] == Proposed
  }

  lemma SameMatch(t: Tables, u: Tables)
    requires OffersMatchTurns(t) && u.offers == t.offers && u.turns == t.turns
    ensures OffersMatchTurns(u)
  {
    forall s, r ensures HasOffer(u, s, r) <==> (s, r) in u.turns && u.turns[(s, r)] == Proposed {
      assert HasOffer(t, s, r) <==> HasOffer(u, s, r);
    }
  }

  /** A validated answer is read as a proposal exactly when it is one, and then for its own supplier and round. */
  lemma ValidatedIsDecoded(answer: Answer, job: Job, facts: Facts, h: Header)
    requires job.TurnJob? && ValidatedHere(answer, job, facts, h)
    ensures DecodeProposal(answer).Some? <==> answer.status == Proposed
    ensures DecodeProposal(answer).Some? ==>
      DecodeProposal(answer).value.supplier == job.supplier && DecodeProposal(answer).value.round == job.round
  {
    hide P.Accepted, DistinctAnswers;
    if answer.status == Proposed {
      var p :| AcceptedHere(p, job.supplier, job.round, facts, h) && answer == StoredAnswer(p);
      var now :| P.Accepted(p, job.supplier, job.round, ContextOf(facts, h), now);
      AcceptedIsDecoded(p, job.supplier, job.round, ContextOf(facts, h), now);
    }
  }

  lemma AppendTurnKeepsMatch(t: Tables, job: Job, answer: Answer, h: Header)
    requires job.TurnJob? && OffersMatchTurns(t) && ValidatedHere(answer, job, t.facts, h)
    requires AppendTurn(t, job.supplier, job.round, answer).Some?
    ensures OffersMatchTurns(AppendTurn(t, job.supplier, job.round, answer).value)
  {
    hide ValidatedHere, DecodeProposal, InsertFulfillments, S2Lines;
    if (job.supplier, job.round) !in t.turns {
      ValidatedIsDecoded(answer, job, t.facts, h);
      var u := AppendTurn(t, job.supplier, job.round, answer).value;
      assert !HasOffer(t, job.supplier, job.round);
      forall s, r ensures HasOffer(u, s, r) <==> (s, r) in u.turns && u.turns[(s, r)] == Proposed {
        assert HasOffer(t, s, r) <==> (s, r) in t.turns && t.turns[(s, r)] == Proposed;
        if DecodeProposal(answer).Some? {
          var row := u.offers[|t.offers|];
          assert forall o :: o in u.offers <==> o in t.offers || o == row;
        } else {
          assert u.offers == t.offers;
        }
      }
    }
  }

  lemma CommittedMatch(t: Tables, job: Job, answer: Answer, h: Header)
    requires job.TurnJob? && OffersMatchTurns(t) && ValidatedHere(answer, job, t.facts, h)
    requires CommitTurn(t, job, answer).Some?
    ensures OffersMatchTurns(CommitTurn(t, job, answer).value)
  {
    hide AppendTurn, AdvanceToRoundTwo, AdvanceToDecision, OffersMatchTurns, ValidatedHere;
    if t.state == StateForRound(job.round) {
      var u := AppendTurn(t, job.supplier, job.round, answer).value;
      AppendTurnKeepsMatch(t, job, answer, h);
      AdvanceKeepsTurns(u, t.version);
      SameMatch(u, AdvanceToRoundTwo(u, t.version));
      SameMatch(u, AdvanceToDecision(u, t.version));
    }
  }

  lemma AdvanceKeepsTurns(t: Tables, version: nat)
    ensures AdvanceToRoundTwo(t, version).offers == t.offers && AdvanceToRoundTwo(t, version).turns == t.turns
    ensures AdvanceToDecision(t, version).offers == t.offers && AdvanceToDecision(t, version).turns == t.turns
  {
    hide Transition, ApplyCapacityEvent;
    AdvanceKeepsOffers(t, version);
    var t1 := Transition(t, Round1Running, version, Round1Complete);
    var t2 := ApplyCapacityEvent(t1);
    var t3 := Transition(t2, Round1Complete, version + 1, CapacityEventApplied);
    TransitionKeepsTurns(t, Round1Running, version, Round1Complete);
    R.CapacityFrame(t1);
    TransitionKeepsTurns(t2, Round1Complete, version + 1, CapacityEventApplied);
    TransitionKeepsTurns(t3, CapacityEventApplied, version + 2, Round2Running);
    TransitionKeepsTurns(t, Round2Running, version, Evaluated);
  }

  lemma TransitionKeepsTurns(t: Tables, from: State, version: nat, to: State)
    requires Legal(from, to)
    ensures Transition(t, from, version, to).turns == t.turns
  {
  }

  lemma CommitKeepsMatch(t: Tables, job: Job, answer: Answer, h: Header)
    requires OffersMatchTurns(t) && ValidatedHere(answer, job, t.facts, h)
    ensures OffersMatchTurns(Next(t, Commit(job, answer)))
  {
    hide CommitTurn, OffersMatchTurns, Next, ValidatedHere;
    if job in t.inflight && job.TurnJob? {
      var taken := R.Taken(t, job);
      SameMatch(t, taken);
      if CommitTurn(taken, job, answer).None? {
        R.RefusedCommit(t, job, answer);
      } else {
        var u := CommitTurn(taken, job, answer).value;
        R.AcceptedCommit(t, job, answer);
        CommittedMatch(taken, job, answer, h);
        SameMatch(u, u.(completed := u.completed + {job}));
      }
    } else {
      NotCommitted(t, job, answer);
    }
  }

  lemma OtherStepsKeepTurns(t: Tables, a: Action)
    requires !a.Commit?
    ensures Next(t, a).turns == t.turns && Next(t, a).offers == t.offers
  {
    hide D.Decide, DecisionInputs, FullOrderEligible, Prepared;
  }

  lemma {:induction false} RunsMatch(t: Tables, actions: seq<Action>, h: Header)
    requires OffersMatchTurns(t) && forall a | a in actions :: ValidatedAction(a, t.facts, h)
    ensures OffersMatchTurns(Exec(t, actions))
  {
    hide OffersMatchTurns, Next, ValidatedHere;
    if actions != [] {
      var init, a := actions[..|actions| - 1], actions[|actions| - 1];
      assert a in actions && forall b | b in init :: b in actions;
      RunsMatch(t, init, h);
      FactsStay(t, init);
      var u := Exec(t, init);
      if a.Commit? {
        CommitKeepsMatch(u, a.job, a.answer, h);
      } else {
        OtherStepsKeepTurns(u, a);
        SameMatch(u, Next(u, a));
      }
    }
  }

  /** After any schedule of validated answers, the offers are those of the turns that were proposals, and no others. */
  lemma OffersAreTheProposals(facts: Facts, h: Header, actions: seq<Action>, s: Supplier, r: Round)
    requires forall a | a in actions :: ValidatedAction(a, facts, h)
    ensures var t := Exec(Start(facts), actions);
      HasOffer(t, s, r) <==> (s, r) in t.turns && t.turns[(s, r)] == Proposed
  {
    hide Exec, ValidatedAction;
    RunsMatch(Start(facts), actions, h);
  }

  // ------------------------------------------------- a recommendation is made

  /** The lead times of S1 and of S3 never meet. */
  lemma LeadTimesDiffer(t: Tables, h: Header, o: OfferRow, p: OfferRow)
    requires Sourced(t, h) && o in t.offers && p in t.offers && o.supplier == S1 && p.supplier == S3
    ensures o.leadTimeDays > p.leadTimeDays
  {
    hide Sourced, P.MeetsRoundPolicy, LinesOf;
    SourceOf(t, o, h);
    SourceOf(t, p, h);
    var a :| AcceptedHere(a, o.supplier, o.round, t.facts, h) && IsStored(t, o, a);
    var b :| AcceptedHere(b, p.supplier, p.round, t.facts, h) && IsStored(t, p, b);
    LeadOfAccepted(a, S1, o.round, t.facts, h);
    LeadOfAccepted(b, S3, p.round, t.facts, h);
  }

  lemma LeadOfAccepted(p: P.Proposal, supplier: Supplier, round: Round, facts: Facts, h: Header)
    requires AcceptedHere(p, supplier, round, facts, h)
    ensures supplier == S1 ==> p.leadTimeDays >= 42
    ensures supplier == S3 ==> p.leadTimeDays <= 20
  {
    var now :| P.Accepted(p, supplier, round, ContextOf(facts, h), now);
  }

  lemma LatestIsOne(t: Tables, o: OfferRow, p: OfferRow)
    requires StoreOk(t) && Latest(t, o) && Latest(t, p) && o.supplier == p.supplier
    ensures o == p
  {
  }

  lemma OneOfTwoIsBetter(x: D.Scored, y: D.Scored)
    requires x.candidate.leadTimeDays != y.candidate.leadTimeDays
    ensures D.Better(x, y) || D.Better(y, x)
  {
  }

  /** Among offers that may be ordered one is the best: S1 and S3 have one each at most, and never tie. */
  lemma SomeBest(t: Tables, h: Header, o: OfferRow)
    requires StoreOk(t) && Sourced(t, h) && Latest(t, o) && Orderable(t.facts, o)
    ensures exists b :: Best(t, b)
  {
    hide StoreOk, Sourced, D.Better, Rated;
    if forall p | Latest(t, p) && Orderable(t.facts, p) :: p == o {
      assert Best(t, o);
      return;
    }
    var p :| Latest(t, p) && Orderable(t.facts, p) && p != o;
    if p.supplier == o.supplier {
      LatestIsOne(t, o, p);
    }
    if o.supplier == S1 {
      LeadTimesDiffer(t, h, o, p);
    } else {
      LeadTimesDiffer(t, h, p, o);
    }
    LeadOfRated(t, o);
    LeadOfRated(t, p);
    OneOfTwoIsBetter(Rated(t, o), Rated(t, p));
    forall q | Latest(t, q) && Orderable(t.facts, q) ensures q == o || q == p {
      if q.supplier == o.supplier {
        LatestIsOne(t, q, o);
      } else {
        LatestIsOne(t, q, p);
      }
    }
    assert Best(t, o) || Best(t, p);
  }

  lemma LeadOfRated(t: Tables, o: OfferRow)
    ensures Rated(t, o).candidate.leadTimeDays == o.leadTimeDays
  {
    hide D.Score, D.NormalizedValues;
  }

  lemma NothingStored(facts: Facts, h: Header)
    ensures Sourced(Start(facts), h)
  {
  }

  /**
   When all answers were validated, a decided run recommends an offer exactly when some latest offer may be ordered: it
   never asks for a manual choice.
   */
  lemma RecommendsIff(facts: Facts, h: Header, actions: seq<Action>)
    requires Startable(facts) && forall a | a in actions :: ValidatedAction(a, facts, h)
    requires Exec(Start(facts), actions).version >= 6
    ensures var t := Exec(Start(facts), actions);
      t.recommendation.Some? &&
      (t.recommendation.value.Some? <==> exists o :: Latest(t, o) && Orderable(t.facts, o))
  {
    hide Exec, Inv, ValidatedAction, Sourced, Best, StoreOk, Latest, Orderable;
    var t := Exec(Start(facts), actions);
    assert Reachable(t);
    StartInv(facts);
    ExecKeeps(Start(facts), actions);
    NothingStored(facts, h);
    RunsAreSourced(Start(facts), actions, h);
    RecommendationIsBest(t);
    WinnerParts(t);
    if o :| Latest(t, o) && Orderable(t.facts, o) {
      SomeBest(t, h, o);
    }
    if b :| Best(t, b) {
      BestIsLatest(t, b);
    }
  }
}
