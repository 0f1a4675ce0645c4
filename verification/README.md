# Verified model of the procurement workflow

This project models the parts of the procurement workflow that are hard to get right, and proves what they promise. It is
written in Dafny 4.11; `dafny verify dfyconfig.toml` checks all of it.

## What is modelled

- **The negotiation run** (`Negotiation`, `NegotiationDesk`). A run is a set of tables: state and version, turns, events, offers
  and their lines, fulfillment rows, recommendation, orders, jobs and claims. `Negotiation` says what each unit of work does to
  them; `NegotiationDesk` is the same work as a class that changes the tables in place, statement by statement, with rollback,
  and is proved against the former. Jobs are delivered any number of times, in any order, whether or not they were completed;
  a prepared execution may commit at any later moment or be lost; a supplier may answer anything. `NegotiationStore`,
  `NegotiationOutcome`, `NegotiationSafety` and `NegotiationRuns` prove the invariant and what follows from it over every schedule;
  `NegotiationAnswers` adds which answers make a commit fail, and what holds when they passed the proposal validator;
  `NegotiationIssuance` follows validated proposals from the validator through the stored rows to the order;
  `NegotiationOffers` says which offers a run holds, and `NegotiationRecommendation` which of them it recommends and orders.
- **The decision engine** (`Decision`, `NegotiationPolicy`): eligibility, clamped values, weighted score, tie-break, Pareto front,
  sensitivity, and the policies that a buyer can confirm.
- **Offers** (`OfferRules`, `Proposals`): half-up rounding, exact cover of an order, supplier and round policies, and what an
  accepted proposal guarantees.
- **Edit distance and SKU selection** (`OsaDistance`, `SkuMatching`): a rolling three-row program with two early exits, and the
  choice that is built on it.
- **Quote runs** (`QuoteRuns`, `QuoteMemory`): how a sheet is cut into runs, lines and numbered scenarios, and when the
  memory of the cutter changes the cut.
- **Parsers and codecs** (`Sse`, `SseFrames`, `CatalogCsv`, `OrderCodec`, `TagStack`, `Decimal`).
- **Purchase orders** (`OrderLedger`): idempotent issuance, numbering and totals over any history of commands.
- **The readiness gate** (`ReadinessGate`): three scans of the same lines that must agree, and tier pricing.

`Prelude` and `Sorting` hold the vocabulary they share; `Sort` stands for the runtime's stable sort.

## Assumptions

- A unit of work is atomic, and units of work are serialised. Nested units of work join the outer transaction
  (packages/persistence/src/drizzle-unit-of-work.ts:48-49), a worker execution and its claim share one
  (packages/application/src/commands/worker-execution.ts:22-34), and a queue hands out one job at a time
  (packages/persistence/src/pg-boss-bridge.ts:48-51). The count of three turns that advances a run
  (packages/application/src/commands/execute-negotiation-turn.ts:135-142) needs this. In production the whole execution of a turn
  runs inside the transaction of its claim; the model also lets prepare and commit be separate transactions, so it allows more
  than production does, and `ClaimedExecutionIsARun` shows that it allows production.
- Decimal arithmetic is exact arithmetic over the reals. The efficiency results need only that scores are monotone.
- Texts and SKUs are already normalised, and the order of SKUs is a total order that the caller gives.
- A digest is what it digests, a confirmation token is good or not, the clock and the answers of models are parameters.

## What the proofs found

- The exclusion of S2 does not need valid proposals: it holds for arbitrary stored answers, because an offer without lines is
  never stored.
- A commit of the running round fails exactly when the decoded proposal has no capacity, or repeats a product in an offer that
  is not stored yet (`CommitFailsIff`, with such answers in `EmptyOfferFails`); the transaction is then rolled back
  (`RefusedCommit`). The shipped model adapter validates what it returns
  (packages/agents/src/openai-adapter.ts:100-121), so it cannot produce such an answer (`ValidatedNeverThrows`).
- When all answers were validated, order, cover, prices, policy, capacity and eligibility of the recommended offer hold by
  themselves: only its expiry, a stale preview or a bad token can refuse the order (`OnlyExpiryPreviewOrToken`).
- What a run recommends is the best of the latest offers that may be ordered, under the weights of the buyer
  (`RecommendationIsBest`). When all answers were validated it never ends in a manual choice: only S1 and S3 can win, their
  quality is the same, and their lead times never meet (`QualityOfSuppliers`, `RecommendsIff`).
- An order is, line by line, what the confirmed preview showed (`OrdersAreAsPreviewed`).
- The decision engine can fail on weights that put everything on one criterion, but no policy that a buyer can confirm does so,
  and the decision of a run never fails.
- It is false that a run is cut before an SKU only when the run holds that SKU. The set of remembered SKUs is cleared when a
  repeated SKU ends a run, but not when two blank rows do, so a later run may be cut at an SKU of an earlier one
  (`OldSkusStillCut`); nothing is lost, but a scenario is split. A sheet is free of this exactly when, cut with a memory that
  every end clears, no run holds below its first row an SKU of an earlier run with only two-blank ends between them
  (`CutAsIntendedIff`, `RunsHoldTheirCutsIff`).
- A product whose SKU equals an OCR variant of what was read has distance zero without being an exact match, scores nothing, and
  is dropped; within distance two of some key this is the only way not to be a candidate (`OcrHitIsNoCandidate`).
- The supplier policy never rejects an offer that covers the order and meets the round policy (`RoundPolicyIsTighter`).
- An order that was loaded once stays readable for ever, so replaying an issue command cannot fail on a stored snapshot.

## Model

| member | source | states |
|---|---|---|
| NegotiationRuns.S2IsNeverChosen | packages/persistence/src/repositories/negotiation-offers.ts:55-112 | In every reachable state no order and no recommendation is for S2; from the capacity event on, an offer of either round can fill the whole order exactly when it is not from S2 |
| NegotiationRuns.LogIsDetermined | packages/application/src/commands/execute-negotiation-turn.ts:112-233 | In every reachable state the version is fixed by the state, the complete list of jobs ever enqueued by the version (so exactly three round-two jobs and one decision job, each carrying the version it will meet), the capacity event is recorded once exactly from version 4 on, and round two has a turn only when round one has three |
| NegotiationRuns.StepsAreLegal | packages/domain/src/states.ts:36-48 | Whatever happens to a run, its state moves along a walk of the transition table, one version for each transition; that the walk is the one taken follows from `Transition`, whose every use must show that it is an edge of the table |
| NegotiationRuns.TableIsAChain | packages/domain/src/states.ts:36-48 | The table is a chain of eight states, with a way out to FAILED up to the end of round two |
| NegotiationRuns.OnlyOneWalk | packages/domain/src/states.ts:36-48 | So to a state other than FAILED there is one walk only: nothing can be skipped or entered twice |
| NegotiationRuns.NothingIsRewritten | packages/persistence/src/repositories/negotiation-lifecycle.ts:163-279 | Over every schedule the tables only grow: no turn, event, offer, line, fulfillment, order, job, claim or stored recommendation is changed or removed |
| NegotiationRuns.UnfinishedHasWork | packages/application/src/commands/execute-negotiation-turn.ts:56-86 | An unfinished run has a job that was enqueued, was not completed and will not be turned away |
| NegotiationRuns.EveryoneIsServed | packages/application/src/commands/start-negotiation.ts:144-164 | While a round runs, each supplier has a recorded turn or an uncompleted job for that round and version |
| NegotiationRuns.NoRunIsStuck | packages/application/src/commands/decision-worker.ts:27-92 | When every job ever enqueued is completed, a reachable run is RECOMMENDED or PO_COMMITTED, whatever the suppliers answered |
| NegotiationRuns.EffectiveStepsAreFinite | packages/application/src/commands/execute-negotiation-turn.ts:112-147 | A step that changes more than the bookkeeping of jobs makes a natural-number measure smaller |
| NegotiationRuns.ServingHelps | packages/application/src/commands/execute-negotiation-turn.ts:56-147 | Preparing and committing the next job, with any answer the database accepts, makes the measure smaller and completes the job |
| NegotiationRuns.DecidingHelps | packages/application/src/commands/decision-worker.ts:36-91 | In EVALUATED the decision job always succeeds, leaves RECOMMENDED and is completed |
| NegotiationRuns.EveryRunCanFinish | packages/application/src/commands/execute-negotiation-turn.ts:149-233 | From every state that satisfies the invariant some schedule finishes the run, even when no supplier ever answers |
| NegotiationRuns.RedeliveryIsHarmless | packages/application/src/commands/worker-execution.ts:22-34 | Delivering a completed job again changes nothing, even without looking at its completion claim |
| NegotiationRuns.ClaimedExecutionIsARun | packages/application/src/commands/worker-execution.ts:22-34 | A claimed execution in one transaction is exactly the prepare and, if that goes ahead, the commit in two, so every theorem about schedules covers it |
| NegotiationAnswers.AcceptedIsDecoded | packages/persistence/src/repositories/negotiation-codecs.ts:137-180 | A validated proposal is read back from its stored form whole, with distinct products and a capacity the database accepts |
| NegotiationAnswers.ValidatedNeverThrows | packages/persistence/src/repositories/negotiation-offers.ts:13-53 | The commit of a validated proposal, a refusal, an invalid answer or a timeout never fails, whatever is stored already |
| NegotiationAnswers.EveryValidatedAnswerHelps | packages/agents/src/openai-adapter.ts:100-121 | Whatever mix of proposals, refusals and timeouts comes back, serving the next job makes the measure smaller |
| NegotiationAnswers.CommitFailsIff | packages/persistence/src/repositories/negotiation-offers.ts:21-53 | A commit fails exactly when it would record a turn of the running round and the decoded proposal has no capacity, or repeats a product in an offer that is not stored yet |
| NegotiationAnswers.EmptyOfferFails | packages/persistence/src/repositories/negotiation-offers.ts:21-53 | Two such answers in a fresh run: one without capacity, one that repeats a product |
| NegotiationRuns.RefusedCommit | packages/persistence/src/drizzle-unit-of-work.ts:45-60 | A failed commit only takes the prepared execution away; its job stays uncompleted and every other table is as it was |
| NegotiationSafety.StartInv | packages/application/src/commands/start-negotiation.ts:108-142 | A started run satisfies the invariant |
| NegotiationSafety.AdvanceToRoundTwoResult | packages/application/src/commands/execute-negotiation-turn.ts:149-202 | After the third round-one turn the three transitions, the capacity event and the three jobs leave round two running at version 4 |
| NegotiationSafety.DeliverKeeps | packages/application/src/commands/execute-negotiation-turn.ts:56-86 | Preparing a turn keeps the invariant: version by state, turns by round, events once, job log by version, completed jobs spent, outcome not S2 |
| NegotiationSafety.CommitKeeps | packages/application/src/commands/execute-negotiation-turn.ts:112-147 | Committing a turn keeps the invariant, also when the run has moved on since the prepare or the database refuses the offer |
| NegotiationSafety.DecisionKeeps | packages/application/src/commands/decision-worker.ts:27-92 | A decision job, on time or late, keeps the invariant |
| NegotiationSafety.IssueKeeps | packages/application/src/commands/issue-purchase-order.ts:183-262 | Issuing an order, or failing to, keeps the invariant |
| NegotiationSafety.NextKeeps | packages/application/src/commands/execute-negotiation-turn.ts:56-233 | Every action on a run keeps the invariant |
| NegotiationSafety.ExecKeeps | packages/application/src/commands/execute-negotiation-turn.ts:56-233 | Every schedule of actions keeps the invariant |
| NegotiationSafety.ReachableInv | packages/application/src/commands/execute-negotiation-turn.ts:56-233 | Every reachable state satisfies the invariant |
| NegotiationStore.MaterializeS2Keeps | packages/persistence/src/repositories/negotiation-offers.ts:72-113 | After the S2 rows are written, whether or not the event is recorded, every line of every S2 offer has a not-eligible row of floor(60 %) of its quantity, and no other line has a row |
| NegotiationStore.ApplyCapacityEventKeeps | packages/persistence/src/repositories/negotiation-lifecycle.ts:236-279 | Recording the capacity event keeps the offer tables consistent and covers every S2 line |
| NegotiationStore.MaterializeOfferKeeps | packages/persistence/src/repositories/negotiation-offers.ts:13-70 | Storing an offer keeps ids and (supplier, round) keys unique, lines owned, offers non-empty, and S2 covered once the event is recorded |
| NegotiationStore.AppendTurnKeeps | packages/persistence/src/repositories/negotiation-lifecycle.ts:163-234 | Recording a turn with any answer keeps the offer tables consistent |
| NegotiationStore.EligibleIffNotS2 | packages/persistence/src/repositories/negotiation-decision.ts:84-100 | From the capacity event on, all lines of an offer are eligible exactly when the offer is not from S2 |
| NegotiationOutcome.LatestOffers | packages/persistence/src/repositories/negotiation-decision.ts:38-48 | The offers decided on are, for each supplier, its round-two offer if it has one and its round-one offer otherwise |
| NegotiationOutcome.CandidatesHaveUniqueIds | packages/persistence/src/repositories/negotiation-decision.ts:84-101 | The candidates of a run have distinct ids |
| NegotiationOutcome.DecisionNeverThrows | packages/application/src/decision-mapper.ts:72-92 | The decision of a startable run never fails: its inputs meet every check of the engine |
| NegotiationOutcome.WinnerIsBuyable | packages/application/src/decision-mapper.ts:86 | A recommended winner is a stored offer with full capacity that is not from S2 |
| NegotiationRecommendation.EligibleIffOrderable | packages/application/src/decision-mapper.ts:72-92 | From the capacity event on an offer is eligible for the decision exactly when it is not from S2, is for the whole order and meets the lead limit |
| NegotiationRecommendation.WinnerIffBest | packages/application/src/commands/decision-worker.ts:36-64 | The engine recommends an id exactly when it is that of the offer that beats every other latest offer that may be ordered |
| NegotiationRecommendation.RecommendationIsBest | packages/application/src/commands/decision-worker.ts:48-64 | In every reachable state from RECOMMENDED on, the stored recommendation is that best offer under the weights of the buyer, and empty exactly when there is none; later steps do not change what is best |
| NegotiationRecommendation.OrdersFollowTheRecommendation | packages/application/src/commands/issue-purchase-order.ts:183-222 | In every reachable state an order is for the recommended offer and for the supplier of that offer |
| NegotiationRecommendation.IssueIff | packages/application/src/commands/issue-purchase-order.ts:101-222 | In every reachable state an order is issued exactly when it is authorized, the run is RECOMMENDED and an offer is recommended |
| NegotiationOffers.StoredOffersAreSane | packages/persistence/src/repositories/negotiation-codecs.ts:137-180 | Over every schedule, whatever the suppliers answer, a stored offer has a lead time, a capacity within 1..100, distinct products, and positive quantities and prices |
| NegotiationOffers.TurnStoresItsOffer | packages/persistence/src/repositories/negotiation-offers.ts:13-70 | A new turn with a readable proposal stores that proposal field by field and line by line, unless its supplier has an offer of the round already |
| NegotiationOffers.OffersAreTheProposals | packages/persistence/src/repositories/negotiation-lifecycle.ts:163-234 | After any schedule of validated answers a supplier has an offer of a round exactly when its recorded turn of that round is a proposal |
| NegotiationOffers.RecommendsIff | packages/application/src/commands/decision-worker.ts:36-64 | After any schedule of validated answers a decided run recommends an offer exactly when some latest offer may be ordered: it never ends in a manual choice |
| NegotiationDesk.LatestPerSupplier | packages/persistence/src/repositories/negotiation-decision.ts:45-48 | The loop keeps the first row of each supplier, in order |
| NegotiationDesk.RunDesk.constructor | packages/application/src/commands/start-negotiation.ts:108-175 | Starting creates the run at version 1 with its three round-one jobs |
| NegotiationDesk.RunDesk.Restore | packages/persistence/src/drizzle-unit-of-work.ts:45-60 | A rolled-back transaction leaves every table as it was |
| NegotiationDesk.RunDesk.Transition | packages/persistence/src/repositories/negotiation-lifecycle.ts:281-305 | The compare-and-swap on state and version, for an edge of the table only, and whether it moved the run |
| NegotiationDesk.RunDesk.InsertEvent | packages/persistence/src/repositories/negotiation-lifecycle.ts:198-216 | An event is inserted once under its key |
| NegotiationDesk.RunDesk.ScheduleRound | packages/application/src/commands/start-negotiation.ts:144-164 | One job for each supplier, in order |
| NegotiationDesk.RunDesk.MaterializeS2Fulfillment | packages/persistence/src/repositories/negotiation-offers.ts:72-113 | The loop over the lines writes the rows of the specification |
| NegotiationDesk.RunDesk.MaterializeOffer | packages/persistence/src/repositories/negotiation-offers.ts:13-70 | Stores the offer and its lines, once for each supplier and round, or throws exactly when the database refuses it |
| NegotiationDesk.RunDesk.AppendTurn | packages/persistence/src/repositories/negotiation-lifecycle.ts:163-234 | Records the turn, its event and its offer, once |
| NegotiationDesk.RunDesk.ApplyCapacityEvent | packages/persistence/src/repositories/negotiation-lifecycle.ts:236-279 | Records the capacity event and its consequences, once |
| NegotiationDesk.RunDesk.AdvanceToRoundTwo | packages/application/src/commands/execute-negotiation-turn.ts:149-202 | The writes that start round two |
| NegotiationDesk.RunDesk.AdvanceToDecision | packages/application/src/commands/execute-negotiation-turn.ts:204-233 | The writes that start the decision |
| NegotiationDesk.RunDesk.CommitTurn | packages/application/src/commands/execute-negotiation-turn.ts:112-147 | The commit transaction, statement by statement |
| NegotiationDesk.RunDesk.Prepare | packages/application/src/commands/execute-negotiation-turn.ts:56-86 | The prepare transaction is the delivery step, and keeps the invariant |
| NegotiationDesk.RunDesk.Commit | packages/application/src/commands/execute-negotiation-turn.ts:112-147 | The commit transaction with its rollback is the commit step, and keeps the invariant |
| NegotiationDesk.RunDesk.LoadDecisionInputs | packages/persistence/src/repositories/negotiation-decision.ts:18-103 | The inputs of the decision: latest offers, totals and eligibility |
| NegotiationDesk.RunDesk.ContinueDecision | packages/application/src/commands/decision-worker.ts:27-92 | The decision transaction is the decision step, and keeps the invariant; what it stores is stated by `NegotiationRecommendation.RecommendationIsBest` |
| NegotiationDesk.RunDesk.Issue | packages/application/src/commands/issue-purchase-order.ts:101-222 | Issuance from the recommended offer only, with its capacity and eligibility, is the issue step, and keeps the invariant; the other checks are a flag here and are in `OrderLedger.Authorize` |
| NegotiationDesk.RunDesk.ExecuteClaimed | packages/application/src/commands/worker-execution.ts:22-34 | Claim and work stand or fall together |
| NegotiationIssuance.RunsAreSourced | packages/persistence/src/repositories/negotiation-offers.ts:13-53 | Over every schedule whose answers were validated for the run, each stored offer and its lines are those of a validated proposal for its supplier and round |
| NegotiationIssuance.LaterOfferDominates | packages/application/src/decision-mapper.ts:72-92 | So the stored round-two offer of a supplier Pareto-dominates its stored round-one offer, compared as the decision compares them |
| NegotiationIssuance.CandidateIsProposal | packages/application/src/decision-mapper.ts:72-92 | The candidate of a stored offer has the total, quality, lead time and pre-shipment burden of its proposal |
| NegotiationIssuance.BaselineIsTheOrders | packages/persistence/src/repositories/negotiation-decision.ts:78-82 | The decision measures against the baseline total of the order that is negotiated |
| NegotiationIssuance.PermutedFacts | packages/application/src/purchase-order-validation.ts:9-48 | The commercial checks do not depend on the order in which queries return the lines |
| NegotiationIssuance.PermutedPolicy | packages/application/src/purchase-order-validation.ts:9-48 | Nor does the supplier policy |
| NegotiationIssuance.RecommendedIsIssuable | packages/application/src/purchase-order-validation.ts:9-48 | After any schedule of validated answers, a snapshot of the recommended offer passes all checks of issuance exactly until the offer expires |
| NegotiationIssuance.OnlyExpiryPreviewOrToken | packages/application/src/commands/issue-purchase-order.ts:101-181 | So a request for it is authorized exactly when the offer has not expired, the preview is the current one and the token is good |
| Decision.ValueAnchors | packages/decision/src/value-functions.ts:10-36 | Each value lies in [0, 1] and is 1 or 0 exactly at and beyond its anchors |
| Decision.ValuesInterpolate | packages/decision/src/value-functions.ts:10-36 | Between its anchors each measure is the mixture of both anchors that its value says |
| Decision.QualityOfSuppliers | packages/application/src/decision-mapper.ts:54-57 | The quality value is 1 for S2 and 0 for the others, so quality never separates the suppliers that can win |
| Decision.ScoreOfOneCriterion | packages/decision/src/scoring.ts:18-26 | With all weight on one criterion the score is the value of that criterion, for each of the four |
| Decision.ScoreIsLinear | packages/decision/src/scoring.ts:18-26 | The score is additive and homogeneous in the weights, so those four cases determine it |
| Decision.ScoreIsMean | packages/decision/src/scoring.ts:18-26 | With weights that sum to one the score lies between the least and the greatest value |
| Decision.DominatingScore | packages/decision/src/scoring.ts:18-26 | A dominating candidate scores at least as high, for all non-negative weights |
| Decision.DominanceIsStrict | packages/decision/src/pareto.ts:4-15 | Dominance is being at least as good on all four measures without the converse |
| Decision.FrontIffUndominated | packages/decision/src/pareto.ts:4-24 | The front holds exactly the eligible candidates that no eligible candidate dominates |
| Decision.FrontDominates | packages/decision/src/pareto.ts:4-24 | Every eligible offer is on the front or dominated by an offer on it |
| Decision.BreakTieIsUniqueMaximum | packages/decision/src/tie-break.ts:8-65 | The tie-break recommends w exactly when w is the unique maximum of (score up, cost down, lead down, quality up), and asks for manual choice exactly when there are offers and none is |
| Decision.TraceNamesTheStage | packages/decision/src/tie-break.ts:8-65 | The trace of a recommendation names the criterion that settled it and exactly the ties before it |
| Decision.SelectsTheBest | packages/decision/src/decide.ts:37-49 | A selection recommends exactly the candidate that beats every other one; the status says whether there is one |
| Decision.SelectionIgnoresOrder | packages/decision/src/decide.ts:37-49 | Permuting the candidates changes neither winner nor status |
| Decision.MonotoneWinnerIsOnFront | packages/decision/src/decide.ts:37-49 | Under any score that never prefers a dominated offer, a winner is on the front |
| Decision.WinnerIsOnFront | packages/decision/src/decide.ts:37-49 | For all non-negative weights, zero weights and clamped values included, a winner is on the front |
| Decision.PerturbedSumsToOne | packages/decision/src/sensitivity.ts:9-42 | A perturbation moves the named weight by 0.10 and the result sums to one |
| Decision.PerturbedKeepsProportions | packages/decision/src/sensitivity.ts:17-41 | The other weights keep their proportions |
| Decision.PerturbedNonNegativeIff | packages/decision/src/sensitivity.ts:14-22 | Non-negative weights stay so exactly when the moved weight stays within [0, 1] |
| Decision.ExclusionReasons | packages/decision/src/eligibility.ts:2-16 | One reason for each failed test, in order; none exactly when the candidate is eligible |
| Decision.DecisionIsEfficient | packages/decision/src/decide.ts:167-224 | A decided winner is an eligible candidate on the front, and every eligible candidate off the front is dominated by one on it |
| Decision.DecisionIsBest | packages/decision/src/decide.ts:51-147 | A decision recommends exactly the eligible candidate that beats every other eligible one under the weights of the input |
| Decision.SensitivityCases | packages/decision/src/sensitivity.ts:9-66 | Each criterion and direction has a case, which recommends the best candidate under its own perturbed weights; the decision is preference-sensitive exactly when a case differs from it |
| Decision.SensitivityIsEfficient | packages/decision/src/decide.ts:152-165 | With base weights within [0.10, 0.90] every sensitivity case recommends offers on the front only |
| Decision.DecideSucceedsIff | packages/decision/src/decide.ts:51-67 | A decision fails exactly on a lead limit outside 1..55, a baseline that is not positive, repeated offer ids, or weights that make a score undefined |
| NegotiationPolicy.ConfirmablePolicies | packages/application/src/negotiation-policy.ts:23-89 | Every policy a buyer can confirm has weights within [0.10, 0.90] that sum to one, and a lead limit of at most 55 days |
| NegotiationPolicy.PriorityRaisesItsCriterion | packages/application/src/negotiation-policy.ts:23-46 | Each priority raises the weight of its own criterion above the base, raises no other, and keeps the sum |
| NegotiationPolicy.DeriveSucceedsIff | packages/decision/src/policy.ts:6-47 | A change of weights is accepted exactly when none moves by more than 0.15, they sum to one and the lead limit is within 1..55; it is then taken over as it is |
| NegotiationPolicy.DerivationFailsIff | packages/decision/src/policy.ts:14-36 | Deriving a policy fails exactly on a lead limit outside 0..55; otherwise it has the weights of the priority and the limit, zero being none |
| NegotiationPolicy.ConfirmedDecisionsAreEfficient | packages/decision/src/decide.ts:152-165 | Under every confirmable policy all eight sensitivity cases are efficient |
| OfferRules.RoundMinorHalfUp | packages/domain/src/money.ts:30-46 | The rounded amount is within half a unit of the exact share, upwards on a tie |
| OfferRules.RoundMinorMonotone | packages/domain/src/money.ts:30-46 | A larger share is never rounded to less |
| OfferRules.ScheduleError | packages/domain/src/payment.ts:7-31 | A schedule is accepted exactly when it has an entry, no negative percentage and sums to the whole; each failure has its error |
| OfferRules.ShareOfOne | packages/domain/src/supplier-policy.ts:124-127 | Which milestones count for the order share and for the burden before shipment |
| OfferRules.SharesAdd | packages/domain/src/supplier-policy.ts:124-127 | Both shares add up along a schedule, so the single installments determine them |
| OfferRules.BurdenAndDelivery | packages/domain/src/payment.ts:33-40 | Burden and delivery share make up the whole of a valid schedule, and the order share is part of the burden |
| OfferRules.ValidateOrderIntent | packages/domain/src/order-intent.ts:21-49 | Accepts exactly the valid orders; otherwise the error of the first bad line, in the order of the checks |
| OfferRules.ScanOfferLines | packages/domain/src/offer.ts:49-68 | Stops exactly at the first line that repeats a product or is not good |
| OfferRules.ValidateOfferCommercialFacts | packages/domain/src/offer.ts:23-69 | Accepts exactly the offers that cover the order line by line on valid terms; otherwise the first failed check, each payment error by its name |
| OfferRules.ValidateOfferAgainstSupplierPolicy | packages/domain/src/supplier-policy.ts:105-173 | Accepts exactly what the supplier may offer; otherwise the first failed check |
| Proposals.ValidateRoundPolicy | packages/agents/src/proposal-validation.ts:63-105 | Accepts exactly what the round allows; otherwise the first of lead, payment, price that fails |
| Proposals.ValidateProposal | packages/agents/src/proposal-validation.ts:106-140 | Accepts exactly the proposals that pass every rule, and which error stands for which rule |
| Proposals.IntentIsContext | packages/agents/src/proposal-validation.ts:26-38 | The order of a context has its lines one for one, so its baseline total is theirs |
| Proposals.AcceptedCapacity | packages/agents/src/proposal-validation.ts:132-135 | An accepted proposal is for the whole order, unless it is that of S2 in round two, which is for sixty percent |
| Proposals.CoverIsPermutation | packages/domain/src/offer.ts:43-68 | The lines of a covering offer answer the order lines one to one |
| Proposals.CoverSum | packages/domain/src/offer.ts:43-68 | So any sum over the offer by order line is the same sum over the order |
| Proposals.TotalBetween | packages/agents/src/proposal-validation.ts:83-102 | The total of a covering offer lies between the order priced at the lower and at the upper bound |
| Proposals.RoundingDrift | packages/domain/src/money.ts:30-46 | Rounding line by line moves a total by at most half a unit for each item |
| Proposals.AcceptedTotal | packages/agents/src/proposal-validation.ts:83-102 | An accepted total T satisfies lo*B - 5000*Q < 10000*T <= hi*B + 5000*Q for the bounds of its supplier and round |
| Proposals.ConcessionIsCheaper | packages/domain/src/supplier-policy.ts:29-74 | The order priced at the round-two ceiling costs no more than at the round-one price |
| Proposals.ConcessionDominates | packages/domain/src/supplier-policy.ts:29-74 | Every accepted round-two proposal Pareto-dominates every accepted round-one proposal of the same supplier and order, with lead time and pre-shipment burden strictly lower |
| Proposals.RoundPolicyIsTighter | packages/domain/src/supplier-policy.ts:75-104 | What the round policy allows on a covering offer the supplier policy allows too |
| OsaDistance.DistanceIsCheapestAlignment | packages/parser/src/normalize.ts:18-42 | The recurrence is the least cost of an alignment by keeps, replacements, insertions, deletions and adjacent swaps |
| OsaDistance.ZeroIffEqual | packages/parser/src/normalize.ts:25-41 | Distance zero means equal |
| OsaDistance.AtLeastLengthDifference | packages/parser/src/normalize.ts:22 | The distance is at least the difference of the lengths, so the first exit is sound |
| OsaDistance.NextRowAbove | packages/parser/src/normalize.ts:33-37 | A row above the bound keeps the next row above it, although a swap reaches back two rows |
| OsaDistance.RowAboveStays | packages/parser/src/normalize.ts:37 | So the row exit is sound for all later rows |
| OsaDistance.FillRow | packages/parser/src/normalize.ts:26-36 | The inner loop computes the next row of the recurrence from the two rows before |
| OsaDistance.OsaBounded | packages/parser/src/normalize.ts:18-42 | The result is at most the bound exactly when the distance is, and is then the distance |
| QuoteRuns.FindQuoteRuns | packages/parser/src/workbook-values.ts:30-59 | The loop yields the specified runs, and they are a segmentation of the sheet |
| QuoteRuns.SegmentsAreRuns | packages/parser/src/workbook-values.ts:61-98 | Each run is non-empty, starts on an SKU, repeats none, holds no two blank rows in a row and no footer, and ends for one of four reasons |
| QuoteRuns.SegmentsAreOrdered | packages/parser/src/workbook-values.ts:39-57 | Runs are disjoint and in order |
| QuoteRuns.SegmentsDropNothing | packages/parser/src/workbook-values.ts:39-57 | The SKU rows of the runs are, in order, the SKU rows up to the first footer |
| QuoteRuns.SegmentsPartition | packages/parser/src/workbook-values.ts:30-59 | The three together, for every sheet |
| QuoteRuns.InExactlyOneRun | packages/parser/src/workbook-values.ts:30-59 | Each SKU row above the first footer is in exactly one run |
| QuoteMemory.CarriedDecides | packages/parser/src/workbook-values.ts:61-98 | From any point of a sheet the cut equals the one with a memory cleared at every end of a run, exactly when no open run meets an SKU that an earlier run left in the memory |
| QuoteMemory.CutAsIntendedIff | packages/parser/src/workbook-values.ts:75-97 | A sheet is cut as with the cleared memory exactly when no such run holds, below its first row, an SKU of an earlier one with nothing but two-blank ends between them |
| QuoteMemory.RunsHoldTheirCutsIff | packages/parser/src/workbook-values.ts:75-97 | Every run that is cut before an SKU holds that SKU exactly under the same condition |
| QuoteMemory.OldSkusStillCut | packages/parser/src/workbook-values.ts:75-97 | The condition can fail: a sheet whose later run is cut although it repeats nothing |
| QuoteRuns.RunsOfSheet | packages/parser/src/workbook.ts:96-97 | The filter on empty runs removes nothing |
| QuoteRuns.ScenariosAreNumbered | packages/parser/src/workbook.ts:29-56 | Scenario numbers are 1..N across the visible sheets of any workbook |
| QuoteRuns.ScenarioHoldsItsRun | packages/parser/src/workbook.ts:96-135 | The lines of the k-th scenario of a sheet are exactly the rows of its k-th run that hold an SKU, from top to bottom |
| QuoteRuns.WorkbookHoldsItsRuns | packages/parser/src/workbook.ts:46-56 | In a workbook each run of each visible sheet is one scenario at its place, with its own lines, and there are no others |
| QuoteRuns.HiddenSheetsAreLeftOut | packages/parser/src/workbook.ts:46-48 | A hidden sheet changes nothing, wherever it stands |
| QuoteRuns.VisibleSheetsStay | packages/parser/src/workbook.ts:46-48 | No visible sheet is left out or moved |
| QuoteRuns.SheetLinesAreItsSkuRows | packages/parser/src/workbook-lines.ts:30-32 | The parsed lines of a sheet are its SKU rows between header and first footer, one to one and in order |
| Sse.CutAnywhere | apps/web/src/lib/api/client.ts:205-207 | Splitting a text at any point, inside a separator included, and continuing with the leftover gives the same records |
| Sse.DeliverRecords | apps/web/src/lib/api/client.ts:209-220 | The loop over records delivers their messages up to the first whose data is not JSON, and fails exactly when there is one |
| Sse.StreamCommand | apps/web/src/lib/api/client.ts:199-224 | For every sequence of chunks the messages are those of the whole text, up to the first whose data is not JSON, where the client throws |
| Sse.InIdOrder | apps/api/src/routes/events.ts:22-24 | For decimal ids the batch is the same events in numeric id order |
| Sse.DeframeBody | apps/web/src/lib/api/client.ts:210-220 | A framed event is read back as its name and payload |
| SseFrames.FramesAreRead | apps/web/src/lib/api/client.ts:205-220 | Records with any number of data lines, other lines between them, padding and LF or CR LF at each line end are read back as the messages they stand for, and nothing is left over |
| SseFrames.JoinedDataSplits | apps/web/src/lib/api/client.ts:214-219 | The data of a message keeps its lines apart |
| Sse.BatchRoundTrip | apps/api/src/routes/events.ts:7-29 | Deframing a formatted batch gives each name and payload in the order of the sort, for ids of any kind; for decimal ids that is the numeric order |
| CatalogCsv.UnterminatedIff | packages/persistence/src/catalog-seed.ts:27-45 | A text is rejected as unterminated exactly when it has an odd number of quotes |
| CatalogCsv.ParseCatalogCsv | packages/persistence/src/catalog-seed.ts:21-62 | The index loop computes the specified result or error |
| CatalogCsv.ReadInvertsPrint | packages/persistence/src/catalog-seed.ts:27-46 | Parsing a printed document gives its values back, for any choice of quoting, of LF, CR or CR LF, and of a final line end |
| CatalogCsv.RowRoundTripIff | packages/persistence/src/catalog-seed.ts:52-61 | A row survives exactly when it has an SKU and writes missing parts as missing |
| CatalogCsv.RowOfIff | packages/persistence/src/catalog-seed.ts:52-61 | A record is accepted exactly when it has four cells, an SKU and a known brand, and is then kept as it is |
| CatalogCsv.BlankLinesAreSkipped | packages/persistence/src/catalog-seed.ts:50-51 | A line without text, wherever below the header, changes neither the rows nor the error |
| CatalogCsv.RowsOfIff | packages/persistence/src/catalog-seed.ts:50-61 | Rows are accepted together or the first bad one is named |
| CatalogCsv.ParseSucceedsIff | packages/persistence/src/catalog-seed.ts:45-61 | Exactly which files are accepted, and which row an error names |
| CatalogCsv.CatalogRoundTrip | packages/persistence/src/catalog-seed.ts:21-62 | Printing and parsing a catalog gives its rows, with or without blank lines |
| CatalogCsv.PlainCatalogRoundTrip | packages/persistence/src/catalog-seed.ts:21-62 | The same for a header followed by rows |
| Decimal.ValueOfPrint | packages/persistence/src/purchase-order-codec.ts:66-67 | Reading a printed natural number gives it back |
| Decimal.PrintOfValue | packages/persistence/src/purchase-order-codec.ts:25-29 | Printing the value of a decimal text without a leading zero gives the text |
| OrderCodec.IntRoundTrip | packages/persistence/src/purchase-order-codec.ts:66-67 | Reading a printed integer of any size gives it back |
| OrderCodec.DecodedIsStorable | packages/persistence/src/purchase-order-codec.ts:87-178 | Whatever document is decoded, the result is a storable snapshot |
| OrderCodec.StorableRoundTrip | packages/persistence/src/purchase-order-codec.ts:51-178 | A storable snapshot is decoded to itself |
| OrderCodec.RoundTripIff | packages/persistence/src/purchase-order-codec.ts:51-178 | Decoding the encoded snapshot gives it back exactly when it is storable |
| OrderCodec.ReadByItsOwnerOnly | packages/persistence/src/purchase-order-codec.ts:87-97 | A stored document is read exactly by the brand and for the negotiation it was written for |
| OrderCodec.StoredOrdersStayReadable | packages/persistence/src/repositories/purchase-order-snapshot.ts:139-190 | A snapshot that was loaded once can be stored and loaded again without change |
| OrderLedger.OrderNumbersDiffer | packages/persistence/src/repositories/purchase-order.ts:123 | Different numbers are printed differently, beyond seven digits too |
| OrderLedger.OrderNumberForm | packages/persistence/src/repositories/purchase-order.ts:123 | An order number is its number in seven digits, or in as many as it needs |
| OrderLedger.IssueKeeps | packages/application/src/commands/issue-purchase-order.ts:78-222 | A successful command keeps the invariant of the ledger |
| OrderLedger.PlayKeeps | packages/application/src/commands/issue-purchase-order.ts:78-222 | Every history keeps it |
| OrderLedger.OneOrderPerNegotiation | packages/persistence/src/repositories/purchase-order.ts:166-194 | After any history a negotiation has at most one order |
| OrderLedger.OrderedRunsAreCommitted | packages/persistence/src/repositories/purchase-order.ts:166-194 | After any history the run of an order is PO_COMMITTED |
| OrderLedger.NumbersHaveNoGaps | packages/persistence/src/repositories/purchase-order.ts:100-124 | After any history, failed attempts included, the numbers of a brand are 1..n in order of issue |
| OrderLedger.TotalsAddUp | packages/application/src/purchase-order-digest.ts:39-43 | The stored total is the sum of the stored line totals, each quantity times price |
| OrderLedger.OrdersAreAsPreviewed | packages/persistence/src/repositories/purchase-order.ts:195-238 | After any history the lines of an order answer those of the selected offer of its document and of the confirmed preview, one for one and in order, by product, quantity and unit price; its total is theirs, and it names that offer |
| OrderLedger.EvidenceDetermines | packages/application/src/purchase-order-digest.ts:27-37 | A preview shows everything but the recommendation id |
| OrderLedger.InCatalogIff | packages/persistence/src/repositories/purchase-order.ts:203-222 | Comparing sizes decides whether every product is in the catalog, because no product is offered twice |
| OrderLedger.ReplayForever | packages/application/src/commands/issue-purchase-order.ts:84-99 | Once issued, a key is answered for good: the same request gets the first id and number, another is refused, nothing changes |
| OrderLedger.NumbersNeverClash | packages/persistence/src/repositories/purchase-order.ts:100-124 | The unique index on numbers is never hit |
| OrderLedger.FirstIssueIff | packages/application/src/commands/issue-purchase-order.ts:101-181 | A new key is issued exactly when the run is RECOMMENDED, the request names the offer of the snapshot, that offer is eligible, valid and within policy now, preview and token are good, its products are in the catalog and it was not ordered before |
| OrderLedger.OrderBook.Find | packages/persistence/src/repositories/purchase-order.ts:60-72 | The lookup by brand and idempotency key |
| OrderLedger.OrderBook.NextNumber | packages/persistence/src/repositories/purchase-order.ts:100-124 | Takes the counter of the brand, which starts at one |
| OrderLedger.OrderBook.MarkNegotiationCommitted | packages/persistence/src/repositories/purchase-order.ts:166-194 | Commits the run exactly when it was RECOMMENDED |
| OrderLedger.OrderBook.PersistOrder | packages/application/src/commands/issue-purchase-order.ts:183-222 | The writes of an issue, in order |
| OrderLedger.OrderBook.IssueOrder | packages/application/src/commands/issue-purchase-order.ts:78-116 | The transaction: its reply and new tables, and on an error the old tables |
| ReadinessGate.AmountRoundTrip | packages/persistence/src/repositories/negotiation-codecs.ts:43-52 | Every positive amount, written with two decimals, is read back exactly |
| ReadinessGate.ShortAmounts | packages/persistence/src/repositories/negotiation-codecs.ts:43-52 | One decimal means tenths, none means whole units, and zero is no price |
| ReadinessGate.OnlyAmountsAreRead | packages/persistence/src/repositories/negotiation-codecs.ts:43-52 | Whatever is read as a price consists of digits, with at most one dot and one or two digits after it |
| ReadinessGate.TierPriceIff | packages/persistence/src/repositories/negotiation-codecs.ts:76-98 | With tiers a price exists exactly from the minimum order quantity on, and comes from a tier with the largest minimum reached |
| ReadinessGate.TiersAreRead | packages/persistence/src/repositories/negotiation-codecs.ts:56-74 | Written tiers are read back, all of them and in order, with a number or a text as minimum |
| ReadinessGate.UnusableTiersAreSkipped | packages/persistence/src/repositories/negotiation-codecs.ts:56-74 | A cell without a usable minimum or without a price is no tier, wherever it stands |
| ReadinessGate.UntieredPrice | packages/persistence/src/repositories/negotiation-codecs.ts:86-103 | Without tiers the price is the single unit price, whatever the quantities are; with none or several there is no price |
| ReadinessGate.SingleQuantity | packages/persistence/src/repositories/negotiation-codecs.ts:31-41 | The quantity is the single quantity that was found; with none or several there is none |
| ReadinessGate.RequestedGoesFirst | packages/persistence/src/repositories/negotiation-start-facts.ts:75-76 | A requested quantity goes before the quantity of the sheet |
| ReadinessGate.LoadLatestMatchDecisions | packages/persistence/src/repositories/latest-match-decisions.ts:32-38 | The map holds the latest decision of each line |
| ReadinessGate.LoadMatchResolutionSummary | packages/persistence/src/repositories/matching-unresolved.ts:40-52 | The counts of undecided and of included lines |
| ReadinessGate.LoadStartFacts | packages/persistence/src/repositories/negotiation-start-facts.ts:71-91 | The count of blocked lines, and one order line for each orderable line, in order, with the quantity and price that the rows above define |
| ReadinessGate.CommercialReviewReasons | packages/persistence/src/repositories/negotiation-codecs.ts:111-127 | Each reason exactly when it applies, in order; none exactly when the line has a quantity, a price and unambiguous cells |
| ReadinessGate.HasBlockers | packages/persistence/src/repositories/commercial-review.ts:49-54 | Whether some line that is not excluded has a reason |
| ReadinessGate.GatesAgree | packages/application/src/commands/resolve-catalog-match.ts:89-95 | The scans of the review gate pass exactly when the start facts leave nothing unresolved, hold a line, and no included line is ambiguous; the order lines are then exactly the included lines |
| ReadinessGate.BecomesReady | packages/application/src/commands/resolve-catalog-match.ts:89-101 | The quotation becomes READY exactly when the scans pass, the resolved scenario is the selected one and it is not READY already |
| ReadinessGate.StartAfterGate | packages/persistence/src/repositories/negotiation-start-facts.ts:71-98 | The scans run one after the other: an open gate, then one priced order line for each included line, in order |
| TagStack.ClosesUnwinds | packages/parser/src/ooxml-relationships.ts:33-45 | What the stack machine accepts is made of forests and the tags that close the stack |
| TagStack.ForestIsNeutral | packages/parser/src/ooxml-relationships.ts:33-45 | A balanced forest leaves the stack as it was |
| TagStack.AssertWellFormedTags | packages/parser/src/ooxml-relationships.ts:33-45 | The check passes exactly when there is a token and the tokens are those of a balanced forest |
| SkuMatching.OcrVariants | packages/parser/src/matching.ts:103-114 | Exactly the texts that differ in one confused character |
| SkuMatching.BoundedLeast | packages/parser/src/matching.ts:66-68 | The least distance over the keys when it is at most two |
| SkuMatching.CorroboratedIff | packages/parser/src/matching.ts:90-101 | A name corroborates exactly when it is there and the description is that name with something before and after it |
| SkuMatching.ScoreCandidate | packages/parser/src/matching.ts:58-81 | A candidate exactly for an exact match or a least distance of one or two, with its score |
| SkuMatching.OcrHitIsNoCandidate | packages/parser/src/matching.ts:83-88 | Within distance two of some key a product is a candidate exactly unless an OCR variant of the key, and not the key itself, is its SKU |
| SkuMatching.AcceptsIff | packages/parser/src/matching.ts:42-47 | The thresholds accept exactly an exact match on top, or a single strong score |
| SkuMatching.MatchSku | packages/parser/src/matching.ts:24-56 | Among the products of the brand one is selected exactly when one matches exactly, or none does and exactly one is at distance one with a corroborated name; the list holds the best five |

## Left out

- Routes, user interface, object storage, SQL text, the queue's internals, process isolation, ZIP and spreadsheet readers: foreign
  code and I/O. The unique indexes and checks of the database that the results rely on are part of the model.
- The prompts and the agents: a model answer is an arbitrary value. The raw text of a stored answer is not part of a run's rows.
- Retry limits of the queue and the recording of worker failures: a lost execution is an action of its own.
- The reset of demonstration data, which deletes runs, and projection events, audits and read models, which only record.
- Foreign keys from offer lines to products and the product lookup at the start of a run.
- Hashes, HMAC tokens, UUIDs and clocks: injective values, growing numbers and parameters. That the canonical text behind a digest
  is injective on arbitrary objects is not claimed.
- Rounding of decimals to twenty digits and their printing with twelve; floating-point rounding of match scores.
- Unicode normalisation, locale collation and the regular expressions that cut XML into tokens.
- Quotation transitions: a rejected upload is moved along an edge that the domain table does not have
  (packages/persistence/src/repositories/upload.ts:62-67), so no claim is made that they follow the table.
- Header discovery, price columns, medians and field warnings of a parsed line.
- The polling loop for projection events and its failure count.
- Decision.Decide: the rationale text and the serialised records are not part of the record; weights that leave nothing
  to rescale make every score undefined, and the tie-break then throws, which is modelled as one error.
- NegotiationDesk.RunDesk.Issue: cover, prices, policy, expiry, preview and token are one flag in the run; they are checked in
  `OrderLedger.Authorize`, and `NegotiationIssuance.OnlyExpiryPreviewOrToken` says what is left of them.
- ReadinessGate.GatesAgree: the scans only; the selected scenario and the state of the quotation are in `BecomesReady`.
- OrderCodec.RoundTripIff: a time is the number of its milliseconds rather than its ISO text, other notations of integers than
  signed decimals (hexadecimal, surrounding blanks) are refused, and a lead time or capacity must be stored as a number.
- OrderLedger.OrderBook.IssueOrder: names and SKUs that are copied from the catalog to the order lines, and the audit and event
  that an issue records.
- ReadinessGate.TierPriceIff: of two tiers with the same minimum it is not said which one gives the price, because the comparator
  of the sort never reports a tie.
