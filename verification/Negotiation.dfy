/**
 The negotiation run: its tables, and what each unit of work does to them.

 packages/application/src/commands: start-negotiation, execute-negotiation-turn, decision-worker, issue-purchase-order;
 packages/persistence/src/repositories: negotiation-lifecycle, negotiation-offers, negotiation-decision.

 A unit of work is one transaction: it maps tables to tables, or throws and leaves them alone.
 */
module Negotiation {
  import opened Prelude
  import opened NegotiationPolicy
  import D = Decision
  import O = OfferRules

  // ----------------------------------------------------------------- states

  datatype State =
    | Draft | Round1Running | Round1Complete | CapacityEventApplied | Round2Running
    | Evaluated | Recommended | PoCommitted | Failed

  /** The transition table of the domain. */
  predicate Legal(from: State, to: State) {
    match from
    case Draft => to.Round1Running? || to.Failed?
    case Round1Running => to.Round1Complete? || to.Failed?
    case Round1Complete => to.CapacityEventApplied? || to.Failed?
    case CapacityEventApplied => to.Round2Running? || to.Failed?
    case Round2Running => to.Evaluated? || to.Failed?
    case Evaluated => to.Recommended?
    case Recommended => to.PoCommitted?
    case PoCommitted => false
    case Failed => false
  }

  function StateForRound(round: Round): State {
    if round == One then Round1Running else Round2Running
  }

  // ------------------------------------------------------------------- rows

  datatype TurnStatus = Proposed | Refused | Invalid | Timeout | ProviderError

  datatype EventKey = StartedEvent | TurnEvent(supplier: Supplier, round: Round) | CapacityEvent | RecommendedEvent

  /** What an offer carries through to the order. */
  datatype Terms = Terms(currency: string, expiresAt: int, schedule: seq<O.Installment>)

  datatype OfferRow = OfferRow(
    id: nat, supplier: Supplier, round: Round, leadTimeDays: int, capacityPercent: int, terms: Terms)

  datatype OfferLineRow = OfferLineRow(id: nat, offerId: nat, productId: string, quantity: int, unitPrice: int)

  datatype Fulfillment = Fulfillment(fulfillableQuantity: int, fullOrderEligible: bool)

  datatype Job = TurnJob(supplier: Supplier, round: Round, expectedVersion: nat) | DecisionJob(expectedVersion: nat)

  datatype Order = Order(offerId: nat, supplier: Supplier)

  datatype RunLine = RunLine(productId: string, quantity: int, baselineUnitPriceMinor: int)

  /** What a run is started with and never changes. */
  datatype Facts = Facts(currency: string, lines: seq<RunLine>, policy: Policy)

  /**
   The rows of one run. A map is a table under its unique index; `jobs` lists every job ever enqueued, `completed` holds
   the durable completion claims, and `inflight` the executions that are between their prepare and their commit.
   */
  datatype Tables = Tables(
    facts: Facts,
    state: State,
    version: nat,
    turns: map<(Supplier, Round), TurnStatus>,
    events: seq<EventKey>,
    offers: seq<OfferRow>,
    offerLines: seq<OfferLineRow>,
    fulfillments: map<nat, Fulfillment>,
    recommendation: Option<Option<nat>>,
    orders: seq<Order>,
    jobs: seq<Job>,
    completed: set<Job>,
    inflight: multiset<Job>,
    nextId: nat)

  // ---------------------------------------------------------------- answers

  datatype AnswerLine = AnswerLine(productId: string, quantity: int, unitPriceMinor: int)

  datatype AnswerProposal = AnswerProposal(
    supplier: Supplier, round: Round, leadTimeDays: int, capacityPercent: int, terms: Terms, lines: seq<AnswerLine>)

  /** Whatever a supplier model returned: nothing is assumed about it. */
  datatype Answer = Answer(status: TurnStatus, proposal: Option<AnswerProposal>)

  /** The stored result read back as a proposal, or nothing when it is not one. */
  function DecodeProposal(answer: Answer): (r: Option<AnswerProposal>)
    ensures r.Some? ==> r.value.lines != []
  {
    if !answer.status.Proposed? || answer.proposal.None? then None
    else
      var p := answer.proposal.value;
      if && p.leadTimeDays > 0 && 0 <= p.capacityPercent <= 100 && p.lines != []
         && forall line | line in p.lines :: line.quantity > 0 && line.unitPriceMinor > 0
      then Some(p) else None
  }

  // ----------------------------------------------------------- repositories

  predicate CanTransition(t: Tables, expectedState: State, expectedVersion: nat) {
    t.state == expectedState && t.version == expectedVersion
  }

  /** Compare-and-swap on state and version; every one that is written is an edge of the domain's table. */
  function Transition(t: Tables, expectedState: State, expectedVersion: nat, nextState: State): Tables
    requires Legal(expectedState, nextState)
  {
    if CanTransition(t, expectedState, expectedVersion) then t.(state := nextState, version := t.version + 1) else t
  }

  function InsertEvent(t: Tables, key: EventKey): Tables {
    if key in t.events then t else t.(events := t.events + [key])
  }

  function Enqueue(t: Tables, job: Job): Tables {
    t.(jobs := t.jobs + [job])
  }

  predicate BelongsTo(line: OfferLineRow, supplier: Supplier, offers: seq<OfferRow>) {
    exists o | o in offers :: o.id == line.offerId && o.supplier == supplier
  }

  /** Insert a not-eligible row for each of the lines that has none yet. */
  function InsertFulfillments(lines: seq<OfferLineRow>, rows: map<nat, Fulfillment>): map<nat, Fulfillment> {
    if lines == [] then rows
    else
      var line := lines[0];
      var rows' := if line.id in rows then rows else rows[line.id := Fulfillment(line.quantity * 60 / 100, false)];
      InsertFulfillments(lines[1..], rows')
  }

  function LinesOfSupplier(supplier: Supplier, offers: seq<OfferRow>, lines: seq<OfferLineRow>): seq<OfferLineRow> {
    Filter((line: OfferLineRow) => BelongsTo(line, supplier, offers), lines)
  }

  function S2Lines(t: Tables): seq<OfferLineRow> {
    LinesOfSupplier(S2, t.offers, t.offerLines)
  }

  function MaterializeS2Fulfillment(t: Tables): Tables {
    t.(fulfillments := InsertFulfillments(S2Lines(t), t.fulfillments))
  }

  function NewLines(p: AnswerProposal, offerId: nat): seq<OfferLineRow> {
    seq(|p.lines|, i requires 0 <= i < |p.lines| =>
      OfferLineRow(offerId + 1 + i, offerId, p.lines[i].productId, p.lines[i].quantity, p.lines[i].unitPriceMinor))
  }

  predicate DistinctAnswers(lines: seq<AnswerLine>) {
    forall i, j :: 0 <= i < j < |lines| ==> lines[i].productId != lines[j].productId
  }

  predicate HasOffer(t: Tables, supplier: Supplier, round: Round) {
    exists o | o in t.offers :: o.supplier == supplier && o.round == round
  }

  function InsertOffer(t: Tables, p: AnswerProposal): Tables {
    t.(offers := t.offers + [OfferRow(t.nextId, p.supplier, p.round, p.leadTimeDays, p.capacityPercent, p.terms)],
       offerLines := t.offerLines + NewLines(p, t.nextId),
       nextId := t.nextId + 1 + |p.lines|)
  }

  /** Store the offer of a turn; throws when the database refuses its capacity or a repeated product. */
  function MaterializeOffer(t: Tables, proposal: Option<AnswerProposal>): Option<Tables> {
    if proposal.None? then Some(t)
    else
      var p := proposal.value;
      if p.capacityPercent < 1 then None
      else if HasOffer(t, p.supplier, p.round) then Some(t)
      else if !DistinctAnswers(p.lines) then None
      else
        var t' := InsertOffer(t, p);
        Some(if p.supplier == S2 && CapacityEvent in t'.events then MaterializeS2Fulfillment(t') else t')
  }

  /** Record a turn once; a second turn under the same key changes nothing. */
  function AppendTurn(t: Tables, supplier: Supplier, round: Round, answer: Answer): Option<Tables> {
    if (supplier, round) in t.turns then Some(t)
    else
      var t' := t.(turns := t.turns[(supplier, round) := answer.status]);
      MaterializeOffer(InsertEvent(t', TurnEvent(supplier, round)), DecodeProposal(answer))
  }

  function ApplyCapacityEvent(t: Tables): Tables {
    if CapacityEvent in t.events then t
    else MaterializeS2Fulfillment(InsertEvent(t, CapacityEvent))
  }

  // ------------------------------------------------------------- turn worker

  function Done(t: Tables, supplier: Supplier, round: Round): nat {
    if (supplier, round) in t.turns then 1 else 0
  }

  /** How many turns of a round are recorded. */
  function TurnsDone(t: Tables, round: Round): nat {
    Done(t, S1, round) + Done(t, S2, round) + Done(t, S3, round)
  }

  /** The prepare phase goes ahead only on the state and version the job was made for, and only once. */
  predicate Prepared(t: Tables, job: Job)
    requires job.TurnJob?
  {
    && t.state == StateForRound(job.round)
    && t.version == job.expectedVersion
    && (job.supplier, job.round) !in t.turns
  }

  function AdvanceToRoundTwo(t: Tables, version: nat): Tables {
    if !CanTransition(t, Round1Running, version) then t
    else
      var t1 := Transition(t, Round1Running, version, Round1Complete);
      var t2 := ApplyCapacityEvent(t1);
      var t3 := Transition(t2, Round1Complete, version + 1, CapacityEventApplied);
      var t4 := Transition(t3, CapacityEventApplied, version + 2, Round2Running);
      var t5 := Enqueue(t4, TurnJob(S1, Two, version + 3));
      var t6 := Enqueue(t5, TurnJob(S2, Two, version + 3));
      Enqueue(t6, TurnJob(S3, Two, version + 3))
  }

  function AdvanceToDecision(t: Tables, version: nat): Tables {
    if !CanTransition(t, Round2Running, version) then t
    else Enqueue(Transition(t, Round2Running, version, Evaluated), DecisionJob(version + 1))
  }

  /** The commit phase: record the turn, and advance the run when it was the third of its round. */
  function CommitTurn(t: Tables, job: Job, answer: Answer): Option<Tables>
    requires job.TurnJob?
  {
    if t.state != StateForRound(job.round) then Some(t)
    else
      match AppendTurn(t, job.supplier, job.round, answer)
      case None => None
      case Some(t') => Some(
        if TurnsDone(t', job.round) != 3 then t'
        else if job.round == One then AdvanceToRoundTwo(t', t.version)
        else AdvanceToDecision(t', t.version))
  }

  // --------------------------------------------------------- decision worker

  /** Rows ordered by round, latest first, and within a round by time, latest first. */
  function LatestFirst(offers: seq<OfferRow>): seq<OfferRow> {
    var reversed := Reverse(offers);
    Filter((o: OfferRow) => o.round == Two, reversed) + Filter((o: OfferRow) => o.round == One, reversed)
  }

  function Reverse<T>(s: seq<T>): (r: seq<T>)
    ensures forall x | x in r :: x in s
    ensures forall x | x in s :: x in r
  {
    if s == [] then [] else Reverse(s[1..]) + [s[0]]
  }

  /** The first row of each supplier, in order. */
  function FirstPerSupplier(rows: seq<OfferRow>): seq<OfferRow> {
    if rows == [] then []
    else
      var init, last := FirstPerSupplier(rows[..|rows| - 1]), rows[|rows| - 1];
      if last.supplier in Suppliers(init) then init else init + [last]
  }

  function Suppliers(rows: seq<OfferRow>): set<Supplier> {
    if rows == [] then {} else {rows[0].supplier} + Suppliers(rows[1..])
  }

  function LinesOf(t: Tables, offerId: nat): seq<OfferLineRow> {
    Filter((line: OfferLineRow) => line.offerId == offerId, t.offerLines)
  }

  predicate FullOrderEligible(t: Tables, offerId: nat) {
    forall line | line in LinesOf(t, offerId) :: line.id in t.fulfillments ==> t.fulfillments[line.id].fullOrderEligible
  }

  function StoredLineTotal(line: OfferLineRow): int {
    line.quantity * line.unitPrice
  }

  function RunLineTotal(line: RunLine): int {
    line.quantity * line.baselineUnitPriceMinor
  }

  function CandidateOf(t: Tables, o: OfferRow): D.Candidate {
    D.Candidate(
      o.id, o.supplier, SumBy(StoredLineTotal, LinesOf(t, o.id)), D.SupplierQuality(o.supplier), o.leadTimeDays,
      O.PreShipmentBurden(o.terms.schedule), FullOrderEligible(t, o.id) && o.capacityPercent == 100, t.facts.currency,
      o.capacityPercent)
  }

  function Candidates(t: Tables, rows: seq<OfferRow>): seq<D.Candidate> {
    if rows == [] then [] else [CandidateOf(t, rows[0])] + Candidates(t, rows[1..])
  }

  function DecisionInputs(t: Tables): D.DecisionInput {
    D.DecisionInput(SumBy(RunLineTotal, t.facts.lines), t.facts.currency,
                    Candidates(t, FirstPerSupplier(LatestFirst(t.offers))),
                    t.facts.policy.weights, t.facts.policy.hardMaxLead)
  }

  /** Decide once, on the state and version the job was made for; throws when the decision engine does. */
  function ContinueDecision(t: Tables, job: Job): Option<Tables>
    requires job.DecisionJob?
  {
    if t.state != Evaluated || t.version != job.expectedVersion then Some(t)
    else
      match D.Decide(DecisionInputs(t))
      case Err(_) => None
      case Ok(d) =>
        Some(StoreRecommendation(t, if d.selection.winner.Some? then Some(d.selection.winner.value.offerId) else None))
  }

  /** Save the recommendation unless there is one, and move on. */
  function StoreRecommendation(t: Tables, winner: Option<nat>): Tables {
    var t' := if t.recommendation.None? then t.(recommendation := Some(winner)) else t;
    InsertEvent(Transition(t', Evaluated, t.version, Recommended), RecommendedEvent)
  }

  // ---------------------------------------------------------------- issuance

  predicate IsOfferId(t: Tables, id: nat) {
    exists o | o in t.offers :: o.id == id
  }

  /** The offer row with a given id. */
  function OfferById(offers: seq<OfferRow>, id: nat): (r: OfferRow)
    requires exists o | o in offers :: o.id == id
    ensures r in offers && r.id == id
  {
    if offers[0].id == id then offers[0] else OfferById(offers[1..], id)
  }

  /**
   Issue the order for the recommended offer. `authorized` stands for every check that does not look at the run itself:
   confirmation, expiry, prices and cover.
   */
  function IssueOrder(t: Tables, authorized: bool): Option<Tables> {
    if t.recommendation.None? || t.recommendation.value.None? || !IsOfferId(t, t.recommendation.value.value) then None
    else
      var o := OfferById(t.offers, t.recommendation.value.value);
      if t.state != Recommended || !FullOrderEligible(t, o.id) || o.capacityPercent != 100 || !authorized then None
      else
        assert Legal(t.state, PoCommitted);
        Some(t.(orders := t.orders + [Order(o.id, o.supplier)], state := PoCommitted, version := t.version + 1))
  }

  // ------------------------------------------------------------------- start

  predicate DistinctRunLines(lines: seq<RunLine>) {
    forall i, j :: 0 <= i < j < |lines| ==> lines[i].productId != lines[j].productId
  }

  /** What the gates before `start`, and the constraints on the order lines, let through. */
  ghost predicate Startable(facts: Facts) {
    && facts.lines != []
    && (forall line | line in facts.lines :: line.quantity > 0 && line.baselineUnitPriceMinor > 0)
    && DistinctRunLines(facts.lines)
    && Confirmable(facts.policy)
  }

  function Start(facts: Facts): Tables {
    Tables(facts, Round1Running, 1, map[], [StartedEvent], [], [], map[], None, [],
           [TurnJob(S1, One, 1), TurnJob(S2, One, 1), TurnJob(S3, One, 1)], {}, multiset{}, 0)
  }

  // -------------------------------------------------------------------- runs

  /** One thing that can happen to a run. */
  datatype Action =
    | Deliver(job: Job)
    | Commit(job: Job, answer: Answer)
    | Abandon(job: Job)
    | RunDecision(job: Job)
    | Issue(authorized: bool)

  /**
   An enqueued job may be delivered at any time and any number of times, whether or not it was completed before; an
   execution that was prepared may commit at any later time, or be lost. An action that does not apply changes nothing.
   */
  function Next(t: Tables, a: Action): Tables {
    match a
    case Deliver(job) =>
      if job !in t.jobs || !job.TurnJob? then t
      else if Prepared(t, job) then t.(inflight := t.inflight + multiset{job})
      else t.(completed := t.completed + {job})
    case Commit(job, answer) =>
      if job !in t.inflight || !job.TurnJob? then t
      else
        var t' := t.(inflight := t.inflight - multiset{job});
        (match CommitTurn(t', job, answer)
         case None => t'
         case Some(u) => u.(completed := u.completed + {job}))
    case Abandon(job) =>
      t.(inflight := t.inflight - multiset{job})
    case RunDecision(job) =>
      if job !in t.jobs || !job.DecisionJob? then t
      else
        (match ContinueDecision(t, job)
         case None => t
         case Some(u) => u.(completed := u.completed + {job}))
    case Issue(authorized) =>
      (match IssueOrder(t, authorized)
       case None => t
       case Some(u) => u)
  }

  function Exec(t: Tables, actions: seq<Action>): Tables {
    if actions == [] then t else Next(Exec(t, actions[..|actions| - 1]), actions[|actions| - 1])
  }

  /** The tables that some schedule can bring a run to. */
  ghost predicate Reachable(t: Tables) {
    exists facts, actions :: Startable(facts) && t == Exec(Start(facts), actions)
  }
}
