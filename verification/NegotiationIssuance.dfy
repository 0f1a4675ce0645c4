/**
 Runs whose answers all passed the proposal validator: what is stored is what was validated, so the order for the
 recommended offer can be refused for its expiry, its preview or its token only.
 */
module NegotiationIssuance {
  import opened Prelude
  import opened Negotiation
  import opened NegotiationStore
  import opened NegotiationOutcome
  import opened NegotiationSafety
  import opened NegotiationAnswers
  import R = NegotiationRuns
  import C = OrderCodec
  import D = Decision
  import L = OrderLedger
  import O = OfferRules
  import P = Proposals

  /** What the order of a run has besides its lines. */
  datatype Header = Header(quotationId: string, brandId: string, currency: O.Currency)

  function Amount(minor: int): nat {
    if minor < 0 then 0 else minor
  }

  function ContextLineOf(line: RunLine): P.ContextLine {
    P.ContextLine(line.productId, line.quantity, Amount(line.baselineUnitPriceMinor))
  }

  /** The context in which both rounds of a run are negotiated. */
  function ContextOf(facts: Facts, h: Header): P.Context {
    P.Context(h.quotationId, h.brandId, h.currency, Map(ContextLineOf, facts.lines))
  }

  function IntentOf(facts: Facts, h: Header): O.Intent {
    P.BuildIntent(ContextOf(facts, h))
  }

  /** The decision measures against the baseline total of the order that is negotiated. */
  lemma BaselineIsTheOrders(facts: Facts, h: Header)
    requires forall line | line in facts.lines :: line.baselineUnitPriceMinor >= 0
    ensures DecisionInputs(Start(facts)).baselineMinor == O.BaselineTotal(IntentOf(facts, h).lines)
  {
    hide O.BaselineTotal, P.BuildIntent;
    P.IntentIsContext(ContextOf(facts, h));
    SameBaseline(facts.lines);
  }

  lemma {:induction false} SameBaseline(lines: seq<RunLine>)
    requires forall line | line in lines :: line.baselineUnitPriceMinor >= 0
    ensures SumBy(RunLineTotal, lines) == SumBy(P.ContextBaseline, Map(ContextLineOf, lines))
  {
    if lines != [] {
      assert lines[0] in lines;
      assert Map(ContextLineOf, lines)[1..] == Map(ContextLineOf, lines[1..]);
      SameBaseline(lines[1..]);
    }
  }

  /** A proposal that was validated for this run. */
  ghost predicate AcceptedHere(p: P.Proposal, supplier: Supplier, round: Round, facts: Facts, h: Header) {
    exists now :: P.Accepted(p, supplier, round, ContextOf(facts, h), now)
  }

  ghost predicate ValidatedHere(answer: Answer, job: Job, facts: Facts, h: Header) {
    job.TurnJob? && answer.status.Proposed? ==>
      exists p :: AcceptedHere(p, job.supplier, job.round, facts, h) && answer == StoredAnswer(p)
  }

  ghost predicate ValidatedAction(a: Action, facts: Facts, h: Header) {
    a.Commit? ==> ValidatedHere(a.answer, a.job, facts, h)
  }

  // -------------------------------------------------------------- provenance

  /** The row and its lines are those of the proposal. */
  ghost predicate IsStored(t: Tables, o: OfferRow, p: P.Proposal) {
    var a := StoredAnswer(p).proposal.value;
    && o == OfferRow(o.id, a.supplier, a.round, a.leadTimeDays, a.capacityPercent, a.terms)
    && LinesOf(t, o.id) == NewLines(a, o.id)
  }

  ghost predicate HasSource(t: Tables, o: OfferRow, h: Header) {
    exists p :: AcceptedHere(p, o.supplier, o.round, t.facts, h) && IsStored(t, o, p)
  }

  /** Every stored offer is a validated proposal of this run, whole. */
  ghost predicate Sourced(t: Tables, h: Header) {
    forall o | o in t.offers :: HasSource(t, o, h)
  }

  /** Tables that agree on the offers and their lines. */
  ghost predicate SameOffers(t: Tables, u: Tables) {
    u.facts == t.facts && u.offers == t.offers && u.offerLines == t.offerLines
  }

  lemma SameOffersSourced(t: Tables, u: Tables, h: Header)
    requires SameOffers(t, u) && Sourced(t, h)
    ensures Sourced(u, h)
  {
    hide StoredAnswer, AcceptedHere, NewLines;
    forall o | o in u.offers ensures HasSource(u, o, h) {
      assert HasSource(t, o, h);
      var p :| AcceptedHere(p, o.supplier, o.round, t.facts, h) && IsStored(t, o, p);
      assert LinesOf(u, o.id) == LinesOf(t, o.id);
      assert IsStored(u, o, p);
    }
  }

  lemma {:induction false} LinesOfNone(t: Tables, lines: seq<OfferLineRow>, id: nat)
    requires forall line | line in lines :: line.offerId != id
    ensures LinesOf(t.(offerLines := lines), id) == []
  {
    if lines != [] {
      assert lines[0] in lines;
      LinesOfNone(t, lines[1..], id);
    }
  }

  lemma {:induction false} LinesOfAll(t: Tables, lines: seq<OfferLineRow>, id: nat)
    requires forall line | line in lines :: line.offerId == id
    ensures LinesOf(t.(offerLines := lines), id) == lines
  {
    if lines != [] {
      assert lines[0] in lines;
      LinesOfAll(t, lines[1..], id);
    }
  }

  lemma LinesOfMore(t: Tables, more: seq<OfferLineRow>, id: nat)
    ensures LinesOf(t.(offerLines := t.offerLines + more), id) == LinesOf(t, id) + LinesOf(t.(offerLines := more), id)
  {
    FilterAppend((line: OfferLineRow) => line.offerId == id, t.offerLines, more);
  }

  /** A new offer has its own lines, and the older ones keep theirs. */
  lemma InsertedLines(t: Tables, a: AnswerProposal, id: nat)
    requires StoreOk(t) && id <= t.nextId
    ensures LinesOf(InsertOffer(t, a), id) == if id == t.nextId then NewLines(a, id) else LinesOf(t, id)
  {
    var more := NewLines(a, t.nextId);
    assert LinesOf(InsertOffer(t, a), id) == LinesOf(t.(offerLines := t.offerLines + more), id);
    LinesOfMore(t, more, id);
    if id == t.nextId {
      OlderLines(t);
      LinesOfNone(t, t.offerLines, id);
      assert t.(offerLines := t.offerLines) == t;
      LinesOfAll(t, more, id);
    } else {
      LinesOfNone(t, more, id);
    }
  }

  lemma OlderLines(t: Tables)
    requires StoreOk(t)
    ensures forall line | line in t.offerLines :: line.offerId < t.nextId
  {
    forall line | line in t.offerLines ensures line.offerId < t.nextId {
      assert IsOfferId(t, line.offerId);
    }
  }

  lemma InsertKeepsSource(t: Tables, a: AnswerProposal, o: OfferRow, h: Header)
    requires StoreOk(t) && o in t.offers && HasSource(t, o, h)
    ensures HasSource(InsertOffer(t, a), o, h)
  {
    hide StoredAnswer, AcceptedHere, NewLines, StoreOk, LinesOf;
    assert o.id < t.nextId by {
      OfferIdsAreOld(t);
    }
    var p :| AcceptedHere(p, o.supplier, o.round, t.facts, h) && IsStored(t, o, p);
    InsertedLines(t, a, o.id);
    assert IsStored(InsertOffer(t, a), o, p);
  }

  lemma OfferIdsAreOld(t: Tables)
    requires StoreOk(t)
    ensures forall o | o in t.offers :: o.id < t.nextId
  {
  }

  lemma NewOfferSource(t: Tables, p: P.Proposal, supplier: Supplier, round: Round, h: Header)
    requires StoreOk(t) && AcceptedHere(p, supplier, round, t.facts, h)
    ensures var u := InsertOffer(t, StoredAnswer(p).proposal.value); HasSource(u, u.offers[|t.offers|], h)
  {
    hide NewLines, StoreOk, LinesOf;
    var now :| P.Accepted(p, supplier, round, ContextOf(t.facts, h), now);
    AcceptedIdentity(p, supplier, round, ContextOf(t.facts, h), now);
    var a := StoredAnswer(p).proposal.value;
    InsertedLines(t, a, t.nextId);
    var u := InsertOffer(t, a);
    assert IsStored(u, u.offers[|t.offers|], p);
  }

  lemma InsertKeepsSourced(t: Tables, p: P.Proposal, supplier: Supplier, round: Round, h: Header)
    requires StoreOk(t) && Sourced(t, h) && AcceptedHere(p, supplier, round, t.facts, h)
    ensures Sourced(InsertOffer(t, StoredAnswer(p).proposal.value), h)
  {
    hide HasSource, StoreOk, AcceptedHere;
    var a := StoredAnswer(p).proposal.value;
    var u := InsertOffer(t, a);
    NewOfferSource(t, p, supplier, round, h);
    forall o | o in u.offers ensures HasSource(u, o, h) {
      if o in t.offers {
        InsertKeepsSource(t, a, o, h);
      }
    }
  }

  lemma AppendTurnKeepsSourced(t: Tables, job: Job, answer: Answer, h: Header)
    requires job.TurnJob? && StoreOk(t) && Sourced(t, h) && ValidatedHere(answer, job, t.facts, h)
    requires AppendTurn(t, job.supplier, job.round, answer).Some?
    ensures Sourced(AppendTurn(t, job.supplier, job.round, answer).value, h)
  {
    hide HasSource, AcceptedHere, StoredAnswer, InsertOffer, StoreOk, Sourced, MaterializeS2Fulfillment;
    var u := AppendTurn(t, job.supplier, job.round, answer).value;
    if (job.supplier, job.round) in t.turns {
      return;
    }
    var recorded := t.(turns := t.turns[(job.supplier, job.round) := answer.status]);
    var t' := InsertEvent(recorded, TurnEvent(job.supplier, job.round));
    SameStoreOk(t, t');
    SameOffersSourced(t, t', h);
    var decoded := DecodeProposal(answer);
    if decoded.Some? && !HasOffer(t', decoded.value.supplier, decoded.value.round) {
      var p :| AcceptedHere(p, job.supplier, job.round, t.facts, h) && answer == StoredAnswer(p);
      assert decoded.value == StoredAnswer(p).proposal.value;
      InsertKeepsSourced(t', p, job.supplier, job.round, h);
      S2RowsKeepOffers(InsertOffer(t', decoded.value));
      SameOffersSourced(InsertOffer(t', decoded.value), u, h);
    }
  }

  lemma S2RowsKeepOffers(t: Tables)
    ensures SameOffers(t, MaterializeS2Fulfillment(t)) && SameOffers(t, t)
  {
  }

  lemma AdvanceKeepsOffers(t: Tables, version: nat)
    ensures SameOffers(t, AdvanceToRoundTwo(t, version)) && SameOffers(t, AdvanceToDecision(t, version))
  {
    hide InsertFulfillments, S2Lines;
  }

  lemma CommitKeepsSourced(t: Tables, job: Job, answer: Answer, h: Header)
    requires job.TurnJob? && StoreOk(t) && Sourced(t, h) && ValidatedHere(answer, job, t.facts, h)
    requires CommitTurn(t, job, answer).Some?
    ensures Sourced(CommitTurn(t, job, answer).value, h)
  {
    hide AppendTurn, AdvanceToRoundTwo, AdvanceToDecision, StoreOk, Sourced, ValidatedHere, SameOffers, TurnsDone;
    if t.state == StateForRound(job.round) {
      var u := AppendTurn(t, job.supplier, job.round, answer).value;
      AppendTurnKeepsSourced(t, job, answer, h);
      AdvanceKeepsOffers(u, t.version);
      if TurnsDone(u, job.round) == 3 {
        var advanced := if job.round == One then AdvanceToRoundTwo(u, t.version) else AdvanceToDecision(u, t.version);
        SameOffersSourced(u, advanced, h);
      }
    }
  }

  lemma OtherStepsKeepOffers(t: Tables, a: Action)
    requires !a.Commit?
    ensures SameOffers(t, Next(t, a))
  {
    hide D.Decide, DecisionInputs, FullOrderEligible, Prepared;
  }

  lemma CommitStepKeepsSourced(t: Tables, job: Job, answer: Answer, h: Header)
    requires Inv(t) && Sourced(t, h) && ValidatedHere(answer, job, t.facts, h)
    ensures Sourced(Next(t, Commit(job, answer)), h)
  {
    hide CommitTurn, Sourced, ValidatedHere, VersionOfState, TurnsMatch, EventsMatch, JobsMatch, OutcomeMatches;
    if job in t.inflight && job.TurnJob? {
      var taken := R.Taken(t, job);
      R.TakenKeeps(t, job);
      TakenSame(t, job);
      SameOffersSourced(t, taken, h);
      if CommitTurn(taken, job, answer).None? {
        R.RefusedCommit(t, job, answer);
      } else {
        var u := CommitTurn(taken, job, answer).value;
        R.AcceptedCommit(t, job, answer);
        CommitKeepsSourced(taken, job, answer, h);
        SameOffersSourced(u, u.(completed := u.completed + {job}), h);
      }
    }
  }

  lemma TakenSame(t: Tables, job: Job)
    ensures SameOffers(t, R.Taken(t, job))
  {
  }

  lemma StepKeepsSourced(t: Tables, a: Action, h: Header)
    requires Inv(t) && Sourced(t, h) && ValidatedAction(a, t.facts, h)
    ensures Sourced(Next(t, a), h)
  {
    hide Next, Inv, Sourced, ValidatedHere, SameOffers;
    if a.Commit? {
      CommitStepKeepsSourced(t, a.job, a.answer, h);
    } else {
      OtherStepsKeepOffers(t, a);
      SameOffersSourced(t, Next(t, a), h);
    }
  }

  lemma {:induction false} FactsStay(t: Tables, actions: seq<Action>)
    ensures Exec(t, actions).facts == t.facts
  {
    hide R.Keeps;
    R.NothingIsRewritten(t, actions);
    KeptFacts(t, Exec(t, actions));
  }

  lemma KeptFacts(t: Tables, u: Tables)
    requires R.Keeps(t, u)
    ensures u.facts == t.facts
  {
  }

  /**
   Whatever the schedule, as long as its answers were validated for the run, every stored offer is a validated proposal.
   */
  lemma {:induction false} RunsAreSourced(t: Tables, actions: seq<Action>, h: Header)
    requires Inv(t) && Sourced(t, h) && forall a | a in actions :: ValidatedAction(a, t.facts, h)
    ensures Sourced(Exec(t, actions), h)
  {
    hide Inv, Sourced, ValidatedAction, Next;
    if actions != [] {
      var init, last := actions[..|actions| - 1], actions[|actions| - 1];
      assert last in actions && forall a | a in init :: a in actions;
      RunsAreSourced(t, init, h);
      ExecKeeps(t, init);
      FactsStay(t, init);
      StepKeepsSourced(Exec(t, init), last, h);
    }
  }

  // ------------------------------------------------------ order of the lines

  /** Two orders with the same lines, in any order. */
  ghost predicate SameOrder(i: O.Intent, j: O.Intent) {
    j == i.(lines := j.lines) && multiset(i.lines) == multiset(j.lines)
  }

  ghost predicate SameOffer(x: O.Offer, y: O.Offer) {
    y == x.(id := y.id, lines := y.lines) && multiset(x.lines) == multiset(y.lines)
  }

  lemma SameMembers<T>(s: seq<T>, t: seq<T>)
    requires multiset(s) == multiset(t)
    ensures |s| == |t| && forall x :: x in s <==> x in t
  {
    assert |s| == |multiset(s)| == |multiset(t)| == |t|;
    forall x ensures x in s <==> x in t {
      assert x in s <==> x in multiset(s);
      assert x in t <==> x in multiset(t);
    }
  }

  /** Two places of one sequence hold two entries of the other. */
  lemma TwoPlaces<T>(s: seq<T>, t: seq<T>, i: nat, j: nat) returns (k: nat, l: nat)
    requires multiset(s) == multiset(t) && i < j < |s|
    ensures k < |t| && l < |t| && k != l && t[k] == s[i] && t[l] == s[j]
  {
    SameMembers(s, t);
    assert s[i] in s && s[j] in s;
    k :| k < |t| && t[k] == s[i];
    if s[i] != s[j] {
      l :| l < |t| && t[l] == s[j];
    } else {
      var rest := t[..k] + t[k + 1..];
      RemovedOne(t, k);
      var others := s[..i] + s[i + 1..];
      RemovedOne(s, i);
      SameMembers(others, rest);
      assert others[j - 1] == s[j];
      var m :| 0 <= m < |rest| && rest[m] == s[j];
      l := if m < k then m else m + 1;
    }
  }

  lemma PermutedDistinctProducts(s: seq<O.OrderLine>, t: seq<O.OrderLine>)
    requires multiset(s) == multiset(t) && O.DistinctProducts(s)
    ensures O.DistinctProducts(t)
  {
    forall i, j | 0 <= i < j < |t| ensures t[i].productId != t[j].productId {
      var k, l := TwoPlaces(t, s, i, j);
    }
  }

  lemma PermutedDistinctOffered(s: seq<O.OfferLine>, t: seq<O.OfferLine>)
    requires multiset(s) == multiset(t) && O.DistinctOffered(s)
    ensures O.DistinctOffered(t)
  {
    forall i, j | 0 <= i < j < |t| ensures t[i].productId != t[j].productId {
      var k, l := TwoPlaces(t, s, i, j);
    }
  }

  lemma PermutedByProduct(s: seq<O.OrderLine>, t: seq<O.OrderLine>)
    requires multiset(s) == multiset(t) && O.DistinctProducts(s)
    ensures O.LinesByProduct(s) == O.LinesByProduct(t)
  {
    hide O.LinesByProduct;
    PermutedDistinctProducts(s, t);
    SameMembers(s, t);
    O.LinesByProductKeys(s);
    O.LinesByProductKeys(t);
    var m, n := O.LinesByProduct(s), O.LinesByProduct(t);
    forall p ensures p in m <==> p in n {
      KeysAreProducts(s, p);
      KeysAreProducts(t, p);
    }
    forall p | p in m ensures m[p] == n[p] {
      assert m[p] in s && n[p] in s;
      var i :| 0 <= i < |s| && s[i] == m[p];
      var j :| 0 <= j < |s| && s[j] == n[p];
    }
  }

  lemma KeysAreProducts(s: seq<O.OrderLine>, p: O.ProductId)
    ensures p in O.LinesByProduct(s) <==> exists line :: line in s && line.productId == p
  {
    O.LinesByProductKeys(s);
    if p in O.LinesByProduct(s) {
      assert O.LinesByProduct(s)[p] in s;
    }
    if line :| line in s && line.productId == p {
      var k :| 0 <= k < |s| && s[k] == line;
      assert s[k].productId == p;
    }
  }

  /** The commercial checks do not look at the order of the lines. */
  lemma PermutedFacts(x: O.Offer, y: O.Offer, i: O.Intent, j: O.Intent, now: int)
    requires SameOffer(x, y) && SameOrder(i, j) && O.CommercialFacts(x, i, now)
    ensures O.CommercialFacts(y, j, now)
  {
    hide O.LinesByProduct, O.ValidSchedule;
    SameMembers(x.lines, y.lines);
    SameMembers(i.lines, j.lines);
    PermutedDistinctProducts(i.lines, j.lines);
    PermutedDistinctOffered(x.lines, y.lines);
    PermutedByProduct(i.lines, j.lines);
  }

  lemma PermutedPolicy(x: O.Offer, y: O.Offer, i: O.Intent, j: O.Intent)
    requires SameOffer(x, y) && SameOrder(i, j) && O.ValidIntent(i) && O.MeetsSupplierPolicy(x.supplier, i, x)
    ensures O.MeetsSupplierPolicy(y.supplier, j, y)
  {
    hide O.LinesByProduct, O.ValidSchedule, O.SupplierPolicy, O.PaidAt;
    SameMembers(x.lines, y.lines);
    PermutedDistinctOffered(x.lines, y.lines);
    PermutedByProduct(i.lines, j.lines);
  }

  // ---------------------------------------------------------------- issuance

  function OfferLineOf(row: OfferLineRow, currency: O.Currency): O.OfferLine {
    O.OfferLine(row.productId, row.quantity, O.Money(currency, Amount(row.unitPrice)))
  }

  /** The stored rows read back as an offer, in the currency of the order. */
  function StoredOffer(t: Tables, o: OfferRow, h: Header): O.Offer {
    O.Offer("", o.supplier, h.currency, o.leadTimeDays, o.capacityPercent, o.terms.expiresAt,
            Map((row: OfferLineRow) => OfferLineOf(row, h.currency), LinesOf(t, o.id)), o.terms.schedule, true)
  }

  /** A snapshot that was loaded from the rows, with the lines in whatever order the queries gave them. */
  ghost predicate IsSnapshot(s: C.Snapshot, t: Tables, o: OfferRow, h: Header) {
    && s.eligible == FullOrderEligible(t, o.id)
    && SameOrder(IntentOf(t.facts, h), s.orderIntent)
    && SameOffer(StoredOffer(t, o, h), s.selectedOffer)
  }

  lemma StoredIsValidated(t: Tables, o: OfferRow, p: P.Proposal, h: Header)
    requires AcceptedHere(p, o.supplier, o.round, t.facts, h) && IsStored(t, o, p)
    ensures StoredOffer(t, o, h) == P.BuildOffer(p, "")
  {
    hide O.MeetsSupplierPolicy, P.MeetsRoundPolicy, O.Covers, O.ValidIntent, O.ValidSchedule, LinesOf;
    var now :| P.Accepted(p, o.supplier, o.round, ContextOf(t.facts, h), now);
    assert p.currency == h.currency;
    var built, stored := P.BuildOffer(p, "").lines, StoredOffer(t, o, h).lines;
    assert |built| == |stored|;
    forall i | 0 <= i < |built| ensures built[i] == stored[i] {
    }
  }

  /**
   The stored offer of a validated run passes every check of issuance but the expiry, which it passes as long as it
   lasts.
   */
  lemma StoredOfferPasses(t: Tables, o: OfferRow, h: Header, now: int)
    requires o in t.offers && Sourced(t, h) && o.terms.expiresAt > now
    ensures O.CommercialFacts(StoredOffer(t, o, h), IntentOf(t.facts, h), now)
    ensures O.MeetsSupplierPolicy(o.supplier, IntentOf(t.facts, h), StoredOffer(t, o, h))
  {
    hide O.MeetsSupplierPolicy, P.MeetsRoundPolicy, O.Covers, O.ValidIntent, O.ValidSchedule, LinesOf, NewLines,
      Sourced;
    assert HasSource(t, o, h) by {
      SourceOf(t, o, h);
    }
    var p :| AcceptedHere(p, o.supplier, o.round, t.facts, h) && IsStored(t, o, p);
    StoredIsValidated(t, o, p, h);
    var then' :| P.Accepted(p, o.supplier, o.round, ContextOf(t.facts, h), then');
  }

  lemma SourceOf(t: Tables, o: OfferRow, h: Header)
    requires o in t.offers && Sourced(t, h)
    ensures HasSource(t, o, h)
  {
  }

  lemma SnapshotPasses(t: Tables, o: OfferRow, s: C.Snapshot, h: Header, now: int)
    requires Inv(t) && Sourced(t, h) && o in t.offers && t.recommendation == Some(Some(o.id)) && IsSnapshot(s, t, o, h)
    ensures L.Issuable(s, now) <==> o.terms.expiresAt > now
  {
    hide O.Covers, O.ValidIntent, O.ValidSchedule, O.MeetsSupplierPolicy, Sourced, StoredOffer, LinesOf,
         VersionOfState, TurnsMatch, JobsMatch, StoreOk;
    assert s.selectedOffer.expiresAt == o.terms.expiresAt && s.selectedOffer.supplier == o.supplier by {
      StoredFields(t, o, h);
    }
    if o.terms.expiresAt > now {
      StoredOfferPasses(t, o, h, now);
      PermutedFacts(StoredOffer(t, o, h), s.selectedOffer, IntentOf(t.facts, h), s.orderIntent, now);
      StoredFields(t, o, h);
      PermutedPolicy(StoredOffer(t, o, h), s.selectedOffer, IntentOf(t.facts, h), s.orderIntent);
      R.S2IsBlocked(t, o);
    }
  }

  lemma StoredFields(t: Tables, o: OfferRow, h: Header)
    ensures var x := StoredOffer(t, o, h);
      x.supplier == o.supplier && x.expiresAt == o.terms.expiresAt && x.capacityPercent == o.capacityPercent
  {
  }

  /**
   In a run whose answers were all validated, a snapshot of the recommended offer can be issued exactly until the offer
   expires: order, cover, prices, policy, capacity and eligibility hold by themselves.
   */
  lemma RecommendedIsIssuable(facts: Facts, h: Header, actions: seq<Action>, o: OfferRow, s: C.Snapshot, now: int)
    requires Startable(facts) && forall a | a in actions :: ValidatedAction(a, facts, h)
    requires var t := Exec(Start(facts), actions);
      o in t.offers && t.recommendation == Some(Some(o.id)) && IsSnapshot(s, t, o, h)
    ensures L.Issuable(s, now) <==> o.terms.expiresAt > now
  {
    hide Exec, Inv, ValidatedAction, IsSnapshot, L.Issuable, HasSource;
    StartInv(facts);
    ExecKeeps(Start(facts), actions);
    RunsAreSourced(Start(facts), actions, h);
    SnapshotPasses(Exec(Start(facts), actions), o, s, h, now);
  }

  /** So only the expiry, the preview and the token are left to refuse an order for it. */
  lemma OnlyExpiryPreviewOrToken(
    facts: Facts, h: Header, actions: seq<Action>, o: OfferRow, s: C.Snapshot, ledger: L.Tables, c: L.Command)
    requires Startable(facts) && forall a | a in actions :: ValidatedAction(a, facts, h)
    requires var t := Exec(Start(facts), actions);
      o in t.offers && t.recommendation == Some(Some(o.id)) && IsSnapshot(s, t, o, h)
    requires L.LoadSnapshot(ledger, c) == Ok(s)
    requires s.selectedOffer.id == c.request.offerId && s.brandId == c.brand && s.negotiationState == "RECOMMENDED"
    ensures L.Authorize(ledger, c).Ok? <==>
      o.terms.expiresAt > c.now && L.PreviewEvidence(s) == c.request.preview && c.tokenValid
  {
    hide Exec, L.Issuable, IsSnapshot, ValidatedAction, L.LoadSnapshot, L.PreviewEvidence;
    RecommendedIsIssuable(facts, h, actions, o, s, c.now);
  }

  // ------------------------------------------------ what the decision compares

  function LineReader(currency: O.Currency): OfferLineRow -> O.OfferLine {
    (row: OfferLineRow) => OfferLineOf(row, currency)
  }

  lemma {:induction false} StoredTotal(rows: seq<OfferLineRow>, currency: O.Currency)
    requires forall row | row in rows :: row.unitPrice >= 0
    ensures SumBy(StoredLineTotal, rows) == O.OfferTotal(Map(LineReader(currency), rows))
  {
    if rows != [] {
      assert rows[0] in rows;
      assert Map(LineReader(currency), rows)[1..] == Map(LineReader(currency), rows[1..]);
      StoredTotal(rows[1..], currency);
    }
  }

  /** The candidate of a stored offer has the total, lead time and burden of its proposal. */
  lemma CandidateIsProposal(t: Tables, o: OfferRow, p: P.Proposal, h: Header)
    requires AcceptedHere(p, o.supplier, o.round, t.facts, h) && IsStored(t, o, p)
    ensures var c, q := CandidateOf(t, o), P.CandidateOf(P.BuildOffer(p, ""), o.id);
      && c.totalMinor == q.totalMinor && c.quality == q.quality
      && c.leadTimeDays == q.leadTimeDays && c.preShipmentBps == q.preShipmentBps
  {
    hide O.PreShipmentBurden, FullOrderEligible, LinesOf, O.MeetsSupplierPolicy, P.MeetsRoundPolicy, O.CommercialFacts,
      O.OfferTotal;
    var rows := LinesOf(t, o.id);
    StoredIsValidated(t, o, p, h);
    assert forall row | row in rows :: row.unitPrice >= 0;
    StoredTotal(rows, h.currency);
    assert Map(LineReader(h.currency), rows) == P.BuildOffer(p, "").lines;
  }

  /**
   In a validated run the round-two offer of a supplier dominates its round-one offer, as the decision compares them.
   */
  lemma LaterOfferDominates(t: Tables, h: Header, opening: OfferRow, concession: OfferRow)
    requires Sourced(t, h) && opening in t.offers && concession in t.offers
    requires opening.supplier == concession.supplier && opening.round == One && concession.round == Two
    ensures D.Dominates(CandidateOf(t, concession), CandidateOf(t, opening))
  {
    hide Sourced, CandidateOf, P.CandidateOf, P.Accepted, IsStored;
    SourceOf(t, opening, h);
    SourceOf(t, concession, h);
    var p :| AcceptedHere(p, opening.supplier, One, t.facts, h) && IsStored(t, opening, p);
    var q :| AcceptedHere(q, opening.supplier, Two, t.facts, h) && IsStored(t, concession, q);
    CandidateIsProposal(t, opening, p, h);
    CandidateIsProposal(t, concession, q, h);
    var then' :| P.Accepted(p, opening.supplier, One, ContextOf(t.facts, h), then');
    var now :| P.Accepted(q, opening.supplier, Two, ContextOf(t.facts, h), now);
    P.ConcessionDominates(p, q, opening.supplier, ContextOf(t.facts, h), then', now, opening.id, concession.id);
  }
}
