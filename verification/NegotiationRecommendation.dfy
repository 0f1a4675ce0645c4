/** Which offer a run recommends, and which order it leads to. */
module NegotiationRecommendation {
  import opened Prelude
  import opened Negotiation
  import opened NegotiationStore
  import opened NegotiationOutcome
  import opened NegotiationSafety
  import R = NegotiationRuns
  import D = Decision

  // ------------------------------------------------------- who is in the running

  /** The latest offer of its supplier. */
  ghost predicate Latest(t: Tables, o: OfferRow) {
    o in t.offers && (o.round == Two || forall p | p in t.offers && p.supplier == o.supplier :: p.round == One)
  }

  /** An offer that the buyer may order: not from S2, for the whole order, and within the lead limit. */
  predicate Orderable(facts: Facts, o: OfferRow) {
    && o.supplier != S2
    && o.capacityPercent == 100
    && (facts.policy.hardMaxLead.Some? ==> o.leadTimeDays <= facts.policy.hardMaxLead.value)
  }

  /** From the capacity event on, an offer is eligible for the decision exactly when it may be ordered. */
  lemma EligibleIffOrderable(t: Tables, o: OfferRow)
    requires StoreOk(t) && CapacityEvent in t.events && o in t.offers
    ensures D.Eligible(CandidateOf(t, o), DecisionInputs(t)) <==> Orderable(t.facts, o)
  {
    hide FullOrderEligible, StoreOk;
    EligibleIffNotS2(t, o);
  }

  /** The eligible candidates are those of the latest offers that may be ordered. */
  lemma EligibleCandidates(t: Tables, c: D.Candidate)
    requires StoreOk(t) && CapacityEvent in t.events
    ensures c in D.EligibleOf(DecisionInputs(t)) <==>
      exists o :: Latest(t, o) && Orderable(t.facts, o) && c == CandidateOf(t, o)
  {
    hide CandidateOf, FullOrderEligible, D.Eligible, StoreOk, OfferKeys, Orderable;
    var rows := Selected(t.offers);
    CandidateRows(t, rows);
    KeysOf(t);
    if c in D.EligibleOf(DecisionInputs(t)) {
      var i :| 0 <= i < |rows| && Candidates(t, rows)[i] == c;
      LatestOffers(t, rows[i]);
      EligibleIffOrderable(t, rows[i]);
      assert Latest(t, rows[i]);
    }
    if o :| Latest(t, o) && Orderable(t.facts, o) && c == CandidateOf(t, o) {
      LatestOffers(t, o);
      EligibleIffOrderable(t, o);
      var i :| 0 <= i < |rows| && rows[i] == o;
      assert Candidates(t, rows)[i] == c;
    }
  }

  lemma KeysOf(t: Tables)
    requires StoreOk(t)
    ensures OfferKeys(t)
  {
  }

  /** An offer with its score under the weights of the buyer. */
  function Rated(t: Tables, o: OfferRow): D.Scored {
    var baseline := SumBy(RunLineTotal, t.facts.lines);
    var c := CandidateOf(t, o);
    D.Scored(c, if baseline > 0 then D.Score(D.NormalizedValues(c, baseline), t.facts.policy.weights) else 0.0)
  }

  /** The offer that beats every other latest offer that may be ordered. */
  ghost predicate Best(t: Tables, o: OfferRow) {
    && Latest(t, o) && Orderable(t.facts, o)
    && forall p | Latest(t, p) && Orderable(t.facts, p) && p != o :: D.Better(Rated(t, o), Rated(t, p))
  }

  /** What the decision engine recommends for the stored rows. */
  function Winner(t: Tables): Option<nat> {
    match D.Decide(DecisionInputs(t))
    case Err(_) => None
    case Ok(d) => if d.selection.winner.Some? then Some(d.selection.winner.value.offerId) else None
  }

  lemma SameIdSameOffer(t: Tables, o: OfferRow, p: OfferRow)
    requires StoreOk(t) && o in t.offers && p in t.offers && o.id == p.id
    ensures o == p
  {
  }

  lemma BeatsIffBest(t: Tables, o: OfferRow)
    requires Startable(t.facts) && StoreOk(t) && CapacityEvent in t.events && Latest(t, o)
    requires DecisionInputs(t).baselineMinor > 0
    ensures var input := DecisionInputs(t);
      D.Beats(CandidateOf(t, o), D.EligibleOf(input), D.WeightedScore(input.baselineMinor, input.weights))
      <==> Best(t, o)
  {
    hide D.Better, D.NormalizedValues, D.Score, FullOrderEligible, StoreOk, D.Eligible, Orderable, Startable,
      D.EligibleOf;
    var input := DecisionInputs(t);
    var score := D.WeightedScore(input.baselineMinor, input.weights);
    var eligible := D.EligibleOf(input);
    EligibleCandidates(t, CandidateOf(t, o));
    if D.Beats(CandidateOf(t, o), eligible, score) {
      var q :| Latest(t, q) && Orderable(t.facts, q) && CandidateOf(t, o) == CandidateOf(t, q);
      SameIdSameOffer(t, o, q);
      forall p | Latest(t, p) && Orderable(t.facts, p) && p != o ensures D.Better(Rated(t, o), Rated(t, p)) {
        EligibleCandidates(t, CandidateOf(t, p));
        if CandidateOf(t, p).offerId == CandidateOf(t, o).offerId {
          SameIdSameOffer(t, o, p);
        }
        assert CandidateOf(t, p) != CandidateOf(t, o);
      }
    }
    if Best(t, o) {
      forall c | c in eligible && c != CandidateOf(t, o)
        ensures D.Better(D.Scored(CandidateOf(t, o), score(CandidateOf(t, o))), D.Scored(c, score(c)))
      {
        EligibleCandidates(t, c);
        var p :| Latest(t, p) && Orderable(t.facts, p) && c == CandidateOf(t, p);
        assert D.Better(Rated(t, o), Rated(t, p));
      }
    }
  }

  lemma InputsAreGood(t: Tables)
    requires Startable(t.facts) && StoreOk(t)
    ensures D.Decide(DecisionInputs(t)).Ok? && DecisionInputs(t).baselineMinor > 0
  {
    KeysOf(t);
    DecisionNeverThrows(t);
    D.DecideSucceedsIff(DecisionInputs(t));
  }

  /** The engine recommends exactly the best offer. */
  lemma WinnerIffBest(t: Tables, id: nat)
    requires Startable(t.facts) && StoreOk(t) && CapacityEvent in t.events
    ensures Winner(t) == Some(id) <==> exists o: OfferRow :: o.id == id && Best(t, o)
  {
    hide D.Decide, D.Beats, StoreOk, Startable, DecisionInputs, D.WeightedScore, Best, CandidateOf;
    InputsAreGood(t);
    var input := DecisionInputs(t);
    D.DecisionIsBest(input);
    var score := D.WeightedScore(input.baselineMinor, input.weights);
    if Winner(t) == Some(id) {
      var w := D.Decide(input).value.selection.winner.value;
      assert D.Beats(w, D.EligibleOf(input), score);
      BeaterIsEligible(w, D.EligibleOf(input), score);
      EligibleCandidates(t, w);
      var o :| Latest(t, o) && Orderable(t.facts, o) && w == CandidateOf(t, o);
      BeatsIffBest(t, o);
      IdOfCandidate(t, o);
    }
    if o: OfferRow :| o.id == id && Best(t, o) {
      BestIsLatest(t, o);
      BeatsIffBest(t, o);
      IdOfCandidate(t, o);
    }
  }

  lemma BeaterIsEligible(w: D.Candidate, eligible: seq<D.Candidate>, score: D.Candidate -> real)
    requires D.Beats(w, eligible, score)
    ensures w in eligible
  {
  }

  lemma IdOfCandidate(t: Tables, o: OfferRow)
    ensures CandidateOf(t, o).offerId == o.id
  {
  }

  lemma BestIsLatest(t: Tables, o: OfferRow)
    requires Best(t, o)
    ensures Latest(t, o) && Orderable(t.facts, o)
  {
  }

  // -------------------------------------------------- over every schedule

  /** Tables that agree on everything the decision looks at. */
  ghost predicate SameInputs(t: Tables, u: Tables) {
    && u.facts == t.facts && u.offers == t.offers && u.offerLines == t.offerLines && u.fulfillments == t.fulfillments
  }

  lemma {:induction false} SameCandidates(t: Tables, u: Tables, rows: seq<OfferRow>)
    requires SameInputs(t, u)
    ensures Candidates(u, rows) == Candidates(t, rows)
  {
    if rows != [] {
      SameCandidates(t, u, rows[1..]);
      assert LinesOf(u, rows[0].id) == LinesOf(t, rows[0].id);
    }
  }

  lemma SameWinner(t: Tables, u: Tables)
    requires SameInputs(t, u)
    ensures Winner(u) == Winner(t)
  {
    hide D.Decide, Candidates;
    SameCandidates(t, u, FirstPerSupplier(LatestFirst(t.offers)));
  }

  /** What is stored as recommended is what the engine recommends, and an order is for that offer. */
  ghost predicate Decided(t: Tables) {
    && (t.version >= 6 ==> t.recommendation == Some(Winner(t)))
    && (forall order | order in t.orders :: OrderIsRecommended(t, order))
  }

  ghost predicate OrderIsRecommended(t: Tables, order: Order) {
    && t.recommendation == Some(Some(order.offerId))
    && exists o :: o in t.offers && o.id == order.offerId && o.supplier == order.supplier
  }

  lemma SameDecided(t: Tables, u: Tables)
    requires Decided(t) && SameInputs(t, u) && u.recommendation == t.recommendation && u.orders == t.orders
    requires u.version >= 6 ==> t.version >= 6
    ensures Decided(u)
  {
    hide Winner;
    SameWinner(t, u);
    forall order | order in u.orders ensures OrderIsRecommended(u, order) {
      assert OrderIsRecommended(t, order);
    }
  }

  lemma NoOrdersYet(t: Tables)
    requires Inv(t) && t.version <= 6
    ensures t.orders == []
  {
  }

  lemma CommitKeepsDecided(t: Tables, job: Job, answer: Answer)
    requires Inv(t) && Decided(t)
    ensures Decided(Next(t, Commit(job, answer)))
  {
    hide Inv, Decided, AppendTurn, AdvanceToRoundTwo, AdvanceToDecision, Winner;
    var u := Next(t, Commit(job, answer));
    if job in t.inflight && job.TurnJob? {
      StateOfVersion(t);
      if t.version >= 5 {
        SameDecided(t, u);
      } else {
        R.CommitMovesForward(t, job, answer);
        NextKeeps(t, Commit(job, answer));
        EarlyIsDecided(t, u);
      }
    }
  }

  lemma StateOfVersion(t: Tables)
    requires Inv(t)
    ensures t.version >= 5 <==> t.state != Round1Running && t.state != Round2Running
  {
  }

  lemma EarlyIsDecided(t: Tables, u: Tables)
    requires Inv(t) && Inv(u) && R.Forward(t, u) && t.version < 5
    ensures Decided(u)
  {
    hide StoreOk, TurnsMatch, JobsMatch, EventsMatch, Winner;
    NoOrdersYet(u);
  }

  /** The decision transaction stores what the engine recommends. */
  lemma DecisionStores(t: Tables, job: Job)
    requires Inv(t) && job in t.jobs && job.DecisionJob? && t.state == Evaluated
    ensures var u := Next(t, RunDecision(job));
      u.recommendation == Some(Winner(t)) && SameInputs(t, u) && u.orders == t.orders == []
  {
    hide D.Decide, DecisionInputs, StoreOk, TurnsMatch, EventsMatch;
    JobsAtMembers(t.version, job);
    InputsAreGood(t);
    NoOrdersYet(t);
  }

  lemma DecisionKeepsDecided(t: Tables, job: Job)
    requires Inv(t) && Decided(t)
    ensures Decided(Next(t, RunDecision(job)))
  {
    hide Inv, D.Decide, DecisionInputs, Winner, Decided, SameInputs, StoreRecommendation;
    var u := Next(t, RunDecision(job));
    if job in t.jobs && job.DecisionJob? {
      if t.state == Evaluated {
        DecisionStores(t, job);
        SameWinner(t, u);
        FreshDecision(u);
      } else {
        OnlyCompleted(t, job);
        SameDecided(t, u);
      }
    }
  }

  lemma OnlyCompleted(t: Tables, job: Job)
    requires job in t.jobs && job.DecisionJob? && t.state != Evaluated
    ensures var u := Next(t, RunDecision(job));
      SameInputs(t, u) && u.recommendation == t.recommendation && u.orders == t.orders && u.version == t.version
  {
    hide D.Decide, DecisionInputs, StoreRecommendation;
  }

  lemma FreshDecision(t: Tables)
    requires t.recommendation == Some(Winner(t)) && t.orders == []
    ensures Decided(t)
  {
  }

  lemma IssueKeepsDecided(t: Tables, authorized: bool)
    requires Inv(t) && Decided(t)
    ensures Decided(Next(t, Issue(authorized)))
  {
    hide StoreOk, TurnsMatch, EventsMatch, JobsMatch, Winner, FullOrderEligible;
    var u := Next(t, Issue(authorized));
    if u != t {
      SameWinner(t, u);
      NoOrdersYet(t);
      forall order | order in u.orders ensures OrderIsRecommended(u, order) {
        var o := OfferById(t.offers, t.recommendation.value.value);
        assert order == Order(o.id, o.supplier) && o in u.offers;
      }
    }
  }

  lemma StepKeepsDecided(t: Tables, a: Action)
    requires Inv(t) && Decided(t)
    ensures Decided(Next(t, a))
  {
    hide Inv, Decided, Winner, CommitTurn, ContinueDecision, IssueOrder;
    match a
    case Deliver(job) => SameDecided(t, Next(t, a));
    case Commit(job, answer) => CommitKeepsDecided(t, job, answer);
    case Abandon(job) => SameDecided(t, Next(t, a));
    case RunDecision(job) => DecisionKeepsDecided(t, job);
    case Issue(authorized) => IssueKeepsDecided(t, authorized);
  }

  lemma {:induction false} RunsAreDecided(t: Tables, actions: seq<Action>)
    requires Inv(t) && Decided(t)
    ensures Decided(Exec(t, actions))
  {
    hide Inv, Decided, Next;
    if actions != [] {
      var init := actions[..|actions| - 1];
      RunsAreDecided(t, init);
      ExecKeeps(t, init);
      StepKeepsDecided(Exec(t, init), actions[|actions| - 1]);
    }
  }

  lemma ReachableDecided(t: Tables)
    requires Reachable(t)
    ensures Decided(t) && Inv(t)
  {
    hide Inv, Exec, Winner;
    ReachableInv(t);
    var facts, actions :| Startable(facts) && t == Exec(Start(facts), actions);
    StartInv(facts);
    RunsAreDecided(Start(facts), actions);
  }

  // ------------------------------------------------------------ main results

  /**
   In every reachable state from RECOMMENDED on, the recommendation is the offer that beats every other latest offer
   that may be ordered, under the weights of the buyer; there is no recommendation exactly when no offer does.
   */
  lemma RecommendationIsBest(t: Tables)
    requires Reachable(t) && t.version >= 6
    ensures t.recommendation.Some?
    ensures forall id :: t.recommendation == Some(Some(id)) <==> exists o: OfferRow :: o.id == id && Best(t, o)
    ensures t.recommendation == Some(None) <==> !exists o :: Best(t, o)
  {
    hide Best, Winner, StoreOk, Inv, Reachable;
    ReachableDecided(t);
    WinnerParts(t);
    forall id ensures t.recommendation == Some(Some(id)) <==> exists o: OfferRow :: o.id == id && Best(t, o) {
      WinnerIffBest(t, id);
    }
    if t.recommendation.value.Some? {
      assert t.recommendation == Some(Some(t.recommendation.value.value));
    }
    if o :| Best(t, o) {
      assert t.recommendation == Some(Some(o.id));
    }
  }

  lemma WinnerParts(t: Tables)
    requires Inv(t) && t.version >= 6
    ensures Startable(t.facts) && StoreOk(t) && CapacityEvent in t.events
  {
  }

  /** An order is for the recommended offer and its supplier. */
  lemma OrdersFollowTheRecommendation(t: Tables, order: Order)
    requires Reachable(t) && order in t.orders
    ensures t.recommendation == Some(Some(order.offerId))
    ensures exists o :: o in t.offers && o.id == order.offerId && o.supplier == order.supplier
  {
    hide Inv, Reachable, Winner;
    ReachableDecided(t);
    assert OrderIsRecommended(t, order);
  }

  /** In every reachable state an order is issued exactly when it is authorized and the run recommends an offer. */
  lemma IssueIff(t: Tables, authorized: bool)
    requires Reachable(t)
    ensures IssueOrder(t, authorized).Some? <==>
      authorized && t.state == Recommended && t.recommendation.Some? && t.recommendation.value.Some?
  {
    hide Inv, Reachable;
    ReachableInv(t);
    RecommendedIsGood(t);
  }

  lemma RecommendedIsGood(t: Tables)
    requires Inv(t)
    ensures t.recommendation.Some? && t.recommendation.value.Some? ==>
      var id := t.recommendation.value.value;
      IsOfferId(t, id) && FullOrderEligible(t, id) && OfferById(t.offers, id).capacityPercent == 100
  {
    hide FullOrderEligible, TurnsMatch, JobsMatch;
    if t.recommendation.Some? && t.recommendation.value.Some? {
      var o := OfferById(t.offers, t.recommendation.value.value);
      R.S2IsBlocked(t, o);
    }
  }
}
