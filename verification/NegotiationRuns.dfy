/** The promises of the negotiation protocol, over every run and every schedule. */
module NegotiationRuns {
  import opened Prelude
  import opened Negotiation
  import opened NegotiationStore
  import opened NegotiationSafety
  import D = Decision

  // ------------------------------------------------------------------ safety

  lemma S2IsBlocked(t: Tables, o: OfferRow)
    requires Inv(t) && o in t.offers
    ensures t.version >= 4 ==> (FullOrderEligible(t, o.id) <==> o.supplier != S2)
    ensures t.recommendation == Some(Some(o.id)) ==> o.supplier != S2 && o.capacityPercent == 100
  {
    if t.version >= 4 {
      EligibleIffNotS2(t, o);
    }
  }

  lemma OrdersAreNotS2(t: Tables)
    requires Inv(t)
    ensures forall order | order in t.orders :: order.supplier != S2
  {
  }

  /** No schedule, and no mix of answers, makes a run recommend S2 or order from it. */
  lemma S2IsNeverChosen(t: Tables)
    requires Reachable(t)
    ensures forall order | order in t.orders :: order.supplier != S2
    ensures forall o | o in t.offers && t.recommendation == Some(Some(o.id)) ::
      o.supplier != S2 && o.capacityPercent == 100
    ensures forall o | o in t.offers && t.version >= 4 :: FullOrderEligible(t, o.id) <==> o.supplier != S2
  {
    ReachableInv(t);
    OrdersAreNotS2(t);
    forall o | o in t.offers
      ensures t.version >= 4 ==> (FullOrderEligible(t, o.id) <==> o.supplier != S2)
      ensures t.recommendation == Some(Some(o.id)) ==> o.supplier != S2 && o.capacityPercent == 100
    {
      S2IsBlocked(t, o);
    }
  }

  /**
   The whole job log, the capacity event and the number of orders are functions of the version, and the version of the
   state.
   */
  lemma LogIsDetermined(t: Tables)
    requires Reachable(t)
    ensures VersionOfState(t)
    ensures t.jobs == JobsAt(t.version)
    ensures multiset(t.events)[CapacityEvent] == if t.version >= 4 then 1 else 0
    ensures |t.orders| == if t.state == PoCommitted then 1 else 0
    ensures TurnsDone(t, Two) > 0 ==> TurnsDone(t, One) == 3
    ensures t.state in {Evaluated, Recommended, PoCommitted} <==> TurnsDone(t, One) == 3 && TurnsDone(t, Two) == 3
  {
    ReachableInv(t);
    DistinctCounts(t.events);
  }

  // ------------------------------------------------------- legal transitions

  /** A walk through the transition table of the domain. */
  ghost predicate LegalWalk(path: seq<State>) {
    path != [] && forall i :: 0 < i < |path| ==> Legal(path[i - 1], path[i])
  }

  /** How far a run is along the table. */
  function Rank(s: State): nat {
    match s
    case Draft => 0
    case Round1Running => 1
    case Round1Complete => 2
    case CapacityEventApplied => 3
    case Round2Running => 4
    case Evaluated => 5
    case Recommended => 6
    case PoCommitted => 7
    case Failed => 8
  }

  /** The table is a chain, with a way out to FAILED up to the end of round two. */
  lemma TableIsAChain(a: State, b: State)
    ensures Legal(a, b) <==> (Rank(b) == Rank(a) + 1 <= 7) || (b == Failed && Rank(a) <= 4)
  {
  }

  lemma NotFailedYet(path: seq<State>, i: nat)
    requires LegalWalk(path) && path[|path| - 1] != Failed && i < |path|
    ensures path[i] != Failed
  {
    if i + 1 < |path| {
      assert Legal(path[i + 1 - 1], path[i + 1]);
    }
  }

  lemma {:induction false} RanksCount(path: seq<State>, i: nat)
    requires LegalWalk(path) && path[|path| - 1] != Failed && i < |path|
    ensures Rank(path[i]) == Rank(path[0]) + i <= 7
  {
    NotFailedYet(path, i);
    if i > 0 {
      RanksCount(path, i - 1);
      TableIsAChain(path[i - 1], path[i]);
    }
  }

  /** Between two states of a run there is one walk only: no state can be skipped or entered twice. */
  lemma OnlyOneWalk(path: seq<State>, other: seq<State>)
    requires LegalWalk(path) && LegalWalk(other) && path[0] == other[0]
    requires path[|path| - 1] == other[|other| - 1] != Failed
    ensures path == other
  {
    RanksCount(path, |path| - 1);
    RanksCount(other, |other| - 1);
    forall i | 0 <= i < |path| ensures path[i] == other[i] {
      RanksCount(path, i);
      RanksCount(other, i);
    }
  }

  /** How far one step can move a run. */
  ghost predicate Forward(t: Tables, u: Tables) {
    || u.state == t.state
    || (t.state == Round1Running && u.state == Round2Running)
    || (t.state == Round2Running && u.state == Evaluated)
    || (t.state == Evaluated && u.state == Recommended)
    || (t.state == Recommended && u.state == PoCommitted)
  }

  lemma ForwardIsLegal(t: Tables, u: Tables) returns (path: seq<State>)
    requires VersionOfState(t) && VersionOfState(u) && Forward(t, u)
    ensures LegalWalk(path) && path[0] == t.state && path[|path| - 1] == u.state
    ensures u.version == t.version + |path| - 1
  {
    if u.state == t.state {
      path := [t.state];
    } else if t.state == Round1Running {
      path := [Round1Running, Round1Complete, CapacityEventApplied, Round2Running];
    } else {
      path := [t.state, u.state];
    }
  }

  lemma ActiveCommitMoves(t: Tables, job: Job, answer: Answer)
    requires Inv(t) && job.TurnJob? && t.state == StateForRound(job.round) && CommitTurn(t, job, answer).Some?
    ensures Forward(t, CommitTurn(t, job, answer).value)
  {
    var u := AppendTurn(t, job.supplier, job.round, answer).value;
    AppendTurnFrame(t, job.supplier, job.round, answer);
    if job.round == One {
      AdvanceToRoundTwoResult(u);
    }
  }

  /** The tables in which the commit of a prepared job works. */
  function Taken(t: Tables, job: Job): Tables {
    t.(inflight := t.inflight - multiset{job})
  }

  lemma TakenKeeps(t: Tables, job: Job)
    requires Inv(t)
    ensures Inv(Taken(t, job))
  {
    BookkeepingKeeps(t, t.completed, t.inflight - multiset{job});
  }

  lemma RefusedCommit(t: Tables, job: Job, answer: Answer)
    requires job in t.inflight && job.TurnJob? && CommitTurn(Taken(t, job), job, answer).None?
    ensures Next(t, Commit(job, answer)) == Taken(t, job)
  {
    hide CommitTurn;
  }

  lemma AcceptedCommit(t: Tables, job: Job, answer: Answer)
    requires job in t.inflight && job.TurnJob? && CommitTurn(Taken(t, job), job, answer).Some?
    ensures var u := CommitTurn(Taken(t, job), job, answer).value;
      Next(t, Commit(job, answer)) == u.(completed := u.completed + {job})
  {
    hide CommitTurn;
  }

  lemma CommitMovesForward(t: Tables, job: Job, answer: Answer)
    requires Inv(t) && job in t.inflight && job.TurnJob?
    ensures Forward(t, Next(t, Commit(job, answer)))
  {
    hide AppendTurn, AdvanceToRoundTwo, AdvanceToDecision, Next, Inv;
    TakenKeeps(t, job);
    if CommitTurn(Taken(t, job), job, answer).None? {
      RefusedCommit(t, job, answer);
    } else {
      AcceptedCommit(t, job, answer);
      if t.state == StateForRound(job.round) {
        ActiveCommitMoves(Taken(t, job), job, answer);
      }
    }
  }

  lemma StepMovesForward(t: Tables, a: Action)
    requires Inv(t)
    ensures Forward(t, Next(t, a))
  {
    hide CommitTurn, D.Decide, DecisionInputs, Inv;
    if a.Commit? && a.job in t.inflight && a.job.TurnJob? {
      CommitMovesForward(t, a.job, a.answer);
    }
  }

  /** Whatever happens moves the run along the domain's table, one version for each transition. */
  lemma StepsAreLegal(t: Tables, a: Action) returns (path: seq<State>)
    requires Inv(t)
    ensures LegalWalk(path) && path[0] == t.state && path[|path| - 1] == Next(t, a).state
    ensures Next(t, a).version == t.version + |path| - 1
  {
    StepMovesForward(t, a);
    NextKeeps(t, a);
    path := ForwardIsLegal(t, Next(t, a));
  }

  // ----------------------------------------------------------------- history

  /** `u` keeps every row of `t`. */
  ghost predicate Keeps(t: Tables, u: Tables) {
    && u.facts == t.facts
    && (forall k | k in t.turns :: k in u.turns && u.turns[k] == t.turns[k])
    && (forall id | id in t.fulfillments :: id in u.fulfillments && u.fulfillments[id] == t.fulfillments[id])
    && t.events <= u.events && t.offers <= u.offers && t.offerLines <= u.offerLines
    && t.orders <= u.orders && t.jobs <= u.jobs && t.completed <= u.completed
    && (t.recommendation.Some? ==> u.recommendation == t.recommendation)
  }

  lemma MaterializeS2History(t: Tables)
    ensures Keeps(t, MaterializeS2Fulfillment(t))
  {
    InsertFulfillmentsFacts(S2Lines(t), t.fulfillments);
  }

  lemma MaterializeOfferHistory(t: Tables, p: Option<AnswerProposal>)
    requires MaterializeOffer(t, p).Some?
    ensures Keeps(t, MaterializeOffer(t, p).value)
  {
    if p.Some? {
      MaterializeS2History(InsertOffer(t, p.value));
    }
  }

  lemma AppendTurnHistory(t: Tables, supplier: Supplier, round: Round, answer: Answer)
    requires AppendTurn(t, supplier, round, answer).Some?
    ensures Keeps(t, AppendTurn(t, supplier, round, answer).value)
  {
    if (supplier, round) !in t.turns {
      var t' := t.(turns := t.turns[(supplier, round) := answer.status]);
      MaterializeOfferHistory(InsertEvent(t', TurnEvent(supplier, round)), DecodeProposal(answer));
    }
  }

  lemma CapacityHistory(t: Tables)
    ensures Keeps(t, ApplyCapacityEvent(t))
  {
    hide MaterializeS2Fulfillment;
    if CapacityEvent !in t.events {
      MaterializeS2History(InsertEvent(t, CapacityEvent));
    }
  }

  lemma TransitionHistory(t: Tables, from: State, version: nat, to: State)
    requires Legal(from, to)
    ensures Keeps(t, Transition(t, from, version, to))
  {
  }

  lemma EnqueueHistory(t: Tables, job: Job)
    ensures Keeps(t, Enqueue(t, job))
  {
  }

  lemma RoundTwoHistory(t: Tables, version: nat)
    ensures Keeps(t, AdvanceToRoundTwo(t, version))
  {
    hide Transition, ApplyCapacityEvent, Keeps;
    var t1 := Transition(t, Round1Running, version, Round1Complete);
    TransitionHistory(t, Round1Running, version, Round1Complete);
    CapacityHistory(t1);
    StartHistory(ApplyCapacityEvent(t1), version);
    KeepsIsTransitive(t, t1, ApplyCapacityEvent(t1));
    KeepsIsTransitive(t, ApplyCapacityEvent(t1), StartRoundTwo(ApplyCapacityEvent(t1), version));
    KeepsItself(t);
  }

  /** The last part of the advance: two transitions and three jobs. */
  function StartRoundTwo(t: Tables, version: nat): Tables {
    var t3 := Transition(t, Round1Complete, version + 1, CapacityEventApplied);
    var t4 := Transition(t3, CapacityEventApplied, version + 2, Round2Running);
    Enqueue(Enqueue(Enqueue(t4, TurnJob(S1, Two, version + 3)), TurnJob(S2, Two, version + 3)),
      TurnJob(S3, Two, version + 3))
  }

  lemma StartHistory(t: Tables, version: nat)
    ensures Keeps(t, StartRoundTwo(t, version))
  {
    hide Transition, Enqueue, Keeps;
    var t3 := Transition(t, Round1Complete, version + 1, CapacityEventApplied);
    var t4 := Transition(t3, CapacityEventApplied, version + 2, Round2Running);
    var t5 := Enqueue(t4, TurnJob(S1, Two, version + 3));
    var t6 := Enqueue(t5, TurnJob(S2, Two, version + 3));
    TransitionHistory(t, Round1Complete, version + 1, CapacityEventApplied);
    TransitionHistory(t3, CapacityEventApplied, version + 2, Round2Running);
    EnqueueHistory(t4, TurnJob(S1, Two, version + 3));
    EnqueueHistory(t5, TurnJob(S2, Two, version + 3));
    EnqueueHistory(t6, TurnJob(S3, Two, version + 3));
    KeepsIsTransitive(t, t3, t4);
    KeepsIsTransitive(t, t4, t5);
    KeepsIsTransitive(t, t5, t6);
    KeepsIsTransitive(t, t6, StartRoundTwo(t, version));
  }

  lemma KeepsItself(t: Tables)
    ensures Keeps(t, t)
  {
  }

  lemma DecisionHistory(t: Tables, version: nat)
    ensures Keeps(t, AdvanceToDecision(t, version))
  {
  }

  lemma KeepsIsTransitive(t: Tables, u: Tables, v: Tables)
    requires Keeps(t, u) && Keeps(u, v)
    ensures Keeps(t, v)
  {
  }

  lemma CommitHistory(t: Tables, job: Job, answer: Answer)
    requires job.TurnJob? && CommitTurn(t, job, answer).Some?
    ensures Keeps(t, CommitTurn(t, job, answer).value)
  {
    if t.state == StateForRound(job.round) {
      var u := AppendTurn(t, job.supplier, job.round, answer).value;
      AppendTurnHistory(t, job.supplier, job.round, answer);
      RoundTwoHistory(u, t.version);
      DecisionHistory(u, t.version);
      KeepsIsTransitive(t, u, CommitTurn(t, job, answer).value);
    }
  }

  lemma CommitStepHistory(t: Tables, job: Job, answer: Answer)
    ensures Keeps(t, Next(t, Commit(job, answer)))
  {
    if job in t.inflight && job.TurnJob? {
      var t' := t.(inflight := t.inflight - multiset{job});
      if CommitTurn(t', job, answer).Some? {
        var u := CommitTurn(t', job, answer).value;
        CommitHistory(t', job, answer);
        assert Keeps(u, u.(completed := u.completed + {job}));
        KeepsIsTransitive(t', u, u.(completed := u.completed + {job}));
      }
    }
  }

  lemma StoreRecommendationHistory(t: Tables, winner: Option<nat>)
    ensures Keeps(t, StoreRecommendation(t, winner))
  {
  }

  lemma DecisionShape(t: Tables, job: Job) returns (winner: Option<nat>)
    requires job.DecisionJob? && ContinueDecision(t, job).Some?
    ensures ContinueDecision(t, job).value
         == if t.state == Evaluated && t.version == job.expectedVersion then StoreRecommendation(t, winner) else t
  {
    if t.state == Evaluated && t.version == job.expectedVersion {
      var selected := D.Decide(DecisionInputs(t)).value.selection.winner;
      winner := if selected.Some? then Some(selected.value.offerId) else None;
    } else {
      winner := None;
    }
  }

  lemma DecisionStepHistory(t: Tables, job: Job)
    ensures Keeps(t, Next(t, RunDecision(job)))
  {
    hide D.Decide, DecisionInputs, StoreOk, EventsMatch;
    if job in t.jobs && job.DecisionJob? && ContinueDecision(t, job).Some? {
      var winner := DecisionShape(t, job);
      StoreRecommendationHistory(t, winner);
    }
  }

  lemma IssueStepHistory(t: Tables, authorized: bool)
    ensures Keeps(t, Next(t, Issue(authorized)))
  {
  }

  lemma StepHistory(t: Tables, a: Action)
    ensures Keeps(t, Next(t, a))
  {
    match a
    case Deliver(job) =>
    case Commit(job, answer) => CommitStepHistory(t, job, answer);
    case Abandon(job) =>
    case RunDecision(job) => DecisionStepHistory(t, job);
    case Issue(authorized) => IssueStepHistory(t, authorized);
  }

  /** Nothing a run has recorded is ever changed or removed. */
  lemma {:induction false} NothingIsRewritten(t: Tables, actions: seq<Action>)
    ensures Keeps(t, Exec(t, actions))
  {
    if actions != [] {
      var u := Exec(t, actions[..|actions| - 1]);
      NothingIsRewritten(t, actions[..|actions| - 1]);
      StepHistory(u, actions[|actions| - 1]);
      KeepsIsTransitive(t, u, Exec(t, actions));
    }
  }

  // ---------------------------------------------------------------- progress

  predicate Finished(t: Tables) {
    t.state == Recommended || t.state == PoCommitted
  }

  /** The next job of an unfinished run. */
  function NextJob(t: Tables): Job {
    if t.state == Round1Running then TurnJob(FirstWaiting(t, One), One, 1)
    else if t.state == Round2Running then TurnJob(FirstWaiting(t, Two), Two, 4)
    else DecisionJob(5)
  }

  function FirstWaiting(t: Tables, round: Round): Supplier {
    if (S1, round) !in t.turns then S1 else if (S2, round) !in t.turns then S2 else S3
  }

  /** An unfinished run always has a job that was enqueued, was not completed, and will not be turned away. */
  lemma UnfinishedHasWork(t: Tables)
    requires Inv(t) && !Finished(t)
    ensures NextJob(t) in t.jobs && NextJob(t) !in t.completed
    ensures NextJob(t).TurnJob? ==> Prepared(t, NextJob(t))
    ensures NextJob(t).DecisionJob? ==> t.state == Evaluated && t.version == NextJob(t).expectedVersion
  {
    JobsAtMembers(t.version, NextJob(t));
  }

  /**
   While a round runs, each supplier has a recorded turn, or a job for that round and version that is still to be done.
   */
  lemma EveryoneIsServed(t: Tables, s: Supplier, r: Round)
    requires Inv(t) && t.state == StateForRound(r)
    ensures (s, r) in t.turns || (TurnJob(s, r, t.version) in t.jobs && TurnJob(s, r, t.version) !in t.completed)
  {
    JobsAtMembers(t.version, TurnJob(s, r, t.version));
  }

  /** No run is stuck: once every job that was ever enqueued is completed, the run has its recommendation. */
  lemma NoRunIsStuck(t: Tables)
    requires Reachable(t) && forall job | job in t.jobs :: job in t.completed
    ensures Finished(t)
  {
    ReachableInv(t);
    if !Finished(t) {
      UnfinishedHasWork(t);
    }
  }

  function Remaining(t: Tables): int {
    6 - TurnsDone(t, One) - TurnsDone(t, Two) + 7 - t.version
  }

  /** The tables differ in nothing but the bookkeeping of jobs. */
  ghost predicate OnlyBookkeeping(t: Tables, u: Tables) {
    u == t.(completed := u.completed, inflight := u.inflight)
  }

  lemma AppendTurnEffect(t: Tables, supplier: Supplier, round: Round, answer: Answer)
    requires AppendTurn(t, supplier, round, answer).Some? && (supplier, round) !in t.turns
    ensures Remaining(AppendTurn(t, supplier, round, answer).value) < Remaining(t)
  {
    AppendTurnFrame(t, supplier, round, answer);
  }

  lemma TransitionEffect(t: Tables, from: State, version: nat, to: State)
    requires Legal(from, to)
    ensures Remaining(Transition(t, from, version, to)) <= Remaining(t)
  {
  }

  lemma CapacityEffect(t: Tables)
    ensures Remaining(ApplyCapacityEvent(t)) == Remaining(t)
  {
    hide MaterializeS2Fulfillment;
    var u := ApplyCapacityEvent(t);
    assert u.turns == t.turns && u.version == t.version by {
      CapacityFrame(t);
    }
  }

  lemma CapacityFrame(t: Tables)
    ensures ApplyCapacityEvent(t).turns == t.turns && ApplyCapacityEvent(t).version == t.version
  {
    hide S2Lines, InsertFulfillments;
  }

  lemma StartEffect(t: Tables, version: nat)
    ensures Remaining(StartRoundTwo(t, version)) <= Remaining(t)
  {
    hide Transition;
    var t3 := Transition(t, Round1Complete, version + 1, CapacityEventApplied);
    TransitionEffect(t, Round1Complete, version + 1, CapacityEventApplied);
    TransitionEffect(t3, CapacityEventApplied, version + 2, Round2Running);
  }

  lemma AdvanceEffect(t: Tables, version: nat)
    ensures Remaining(AdvanceToRoundTwo(t, version)) <= Remaining(t)
    ensures Remaining(AdvanceToDecision(t, version)) <= Remaining(t)
  {
    hide Transition, ApplyCapacityEvent, Remaining;
    var t1 := Transition(t, Round1Running, version, Round1Complete);
    TransitionEffect(t, Round1Running, version, Round1Complete);
    CapacityEffect(t1);
    StartEffect(ApplyCapacityEvent(t1), version);
    TransitionEffect(t, Round2Running, version, Evaluated);
    EnqueueEffect(Transition(t, Round2Running, version, Evaluated), DecisionJob(version + 1));
  }

  lemma EnqueueEffect(t: Tables, job: Job)
    ensures Remaining(Enqueue(t, job)) == Remaining(t)
  {
  }

  lemma ActiveCommitEffect(t: Tables, job: Job, answer: Answer)
    requires Inv(t) && job.TurnJob? && t.state == StateForRound(job.round) && CommitTurn(t, job, answer).Some?
    ensures var u := CommitTurn(t, job, answer).value;
      if (job.supplier, job.round) in t.turns then u == t else Remaining(u) < Remaining(t)
  {
    if (job.supplier, job.round) !in t.turns {
      AppendTurnEffect(t, job.supplier, job.round, answer);
      AdvanceEffect(AppendTurn(t, job.supplier, job.round, answer).value, t.version);
    }
  }

  /** A commit that is not refused records a turn, or finds its round over and does nothing. */
  lemma CommittedEffect(t: Tables, job: Job, answer: Answer)
    requires Inv(t) && job.TurnJob? && CommitTurn(t, job, answer).Some?
    ensures var u := CommitTurn(t, job, answer).value; u == t || Remaining(u) < Remaining(t)
  {
    hide AppendTurn, AdvanceToRoundTwo, AdvanceToDecision, Inv, Remaining;
    if t.state == StateForRound(job.round) {
      ActiveCommitEffect(t, job, answer);
    }
  }

  lemma BookkeepingOnly(t: Tables, completed: set<Job>, inflight: multiset<Job>)
    ensures OnlyBookkeeping(t, t.(completed := completed, inflight := inflight))
  {
  }

  lemma BookkeepingIsNoProgress(t: Tables, completed: set<Job>, inflight: multiset<Job>)
    ensures Remaining(t.(completed := completed)) == Remaining(t) == Remaining(t.(inflight := inflight))
  {
  }

  lemma CommitStepEffect(t: Tables, job: Job, answer: Answer)
    requires Inv(t) && job in t.inflight && job.TurnJob?
    ensures OnlyBookkeeping(t, Next(t, Commit(job, answer))) || Remaining(Next(t, Commit(job, answer))) < Remaining(t)
  {
    hide CommitTurn, Next, Inv, Remaining, OnlyBookkeeping;
    var taken := Taken(t, job);
    if CommitTurn(taken, job, answer).None? {
      RefusedCommit(t, job, answer);
      BookkeepingOnly(t, t.completed, taken.inflight);
    } else {
      var u := CommitTurn(taken, job, answer).value;
      TakenKeeps(t, job);
      CommittedEffect(taken, job, answer);
      AcceptedCommit(t, job, answer);
      BookkeepingOnly(t, t.completed + {job}, taken.inflight);
      BookkeepingIsNoProgress(u, u.completed + {job}, u.inflight);
      BookkeepingIsNoProgress(t, t.completed, taken.inflight);
    }
  }

  lemma DecisionStepEffect(t: Tables, job: Job)
    requires Inv(t) && job in t.jobs && job.DecisionJob?
    ensures OnlyBookkeeping(t, Next(t, RunDecision(job))) || Remaining(Next(t, RunDecision(job))) < Remaining(t)
  {
    hide D.Decide, DecisionInputs, StoreOk, EventsMatch;
    if ContinueDecision(t, job).Some? {
      var winner := DecisionShape(t, job);
    }
  }

  lemma StepEffect(t: Tables, a: Action)
    requires Inv(t)
    ensures OnlyBookkeeping(t, Next(t, a)) || Remaining(Next(t, a)) < Remaining(t)
  {
    hide D.Decide, DecisionInputs, CommitTurn, StoreOk, EventsMatch, JobsMatch;
    match a
    case Deliver(job) =>
    case Commit(job, answer) =>
      if job in t.inflight && job.TurnJob? {
        CommitStepEffect(t, job, answer);
      }
    case Abandon(job) =>
    case RunDecision(job) =>
      if job in t.jobs && job.DecisionJob? {
        DecisionStepEffect(t, job);
      }
    case Issue(authorized) =>
  }

  lemma RemainingIsNatural(t: Tables)
    requires Inv(t)
    ensures Remaining(t) >= 0
  {
  }

  /** A step that has any effect beyond bookkeeping brings the run closer to its end, so every run has finitely many. */
  lemma EffectiveStepsAreFinite(t: Tables, a: Action)
    requires Reachable(t)
    ensures OnlyBookkeeping(t, Next(t, a)) || 0 <= Remaining(Next(t, a)) < Remaining(t)
  {
    ReachableInv(t);
    StepEffect(t, a);
    NextKeeps(t, a);
    RemainingIsNatural(Next(t, a));
  }

  lemma {:induction false} ExecAppend(t: Tables, first: seq<Action>, second: seq<Action>)
    ensures Exec(t, first + second) == Exec(Exec(t, first), second)
  {
    if second == [] {
      assert first + second == first;
    } else {
      var n := |second| - 1;
      assert (first + second)[..|first + second| - 1] == first + second[..n];
      ExecAppend(t, first, second[..n]);
    }
  }

  lemma {:induction false} ExecOne(t: Tables, a: Action)
    ensures Exec(t, [a]) == Next(t, a)
  {
    assert [a][..0] == [];
  }

  lemma {:induction false} ExecTwo(t: Tables, a: Action, b: Action)
    ensures Exec(t, [a, b]) == Next(Next(t, a), b)
  {
    assert [a, b][..1] == [a];
    ExecOne(t, a);
  }

  /** A turn whose supplier gave no answer in time. */
  const SILENCE := Answer(Timeout, None)

  /** Serving the next job of an unfinished run, with any answer the tables accept, brings it closer to its end. */
  lemma {:induction false} ServingHelps(t: Tables, answer: Answer)
    requires Inv(t) && !Finished(t) && NextJob(t).TurnJob? && CommitTurn(t, NextJob(t), answer).Some?
    ensures var u := Exec(t, [Deliver(NextJob(t)), Commit(NextJob(t), answer)]);
      Remaining(u) < Remaining(t) && NextJob(t) in u.completed
  {
    hide AppendTurn, AdvanceToRoundTwo, AdvanceToDecision, StoreOk, EventsMatch, OutcomeMatches;
    var job := NextJob(t);
    UnfinishedHasWork(t);
    ExecTwo(t, Deliver(job), Commit(job, answer));
    var u := Next(t, Deliver(job));
    assert u.(inflight := u.inflight - multiset{job}) == t;
    ActiveCommitEffect(t, job, answer);
  }

  lemma {:induction false} DecidingHelps(t: Tables)
    requires Inv(t) && t.state == Evaluated
    ensures var u := Exec(t, [RunDecision(DecisionJob(5))]); u.state == Recommended && DecisionJob(5) in u.completed
  {
    hide D.Decide, DecisionInputs, StoreOk, TurnsMatch, EventsMatch;
    var job := DecisionJob(5);
    JobsAtMembers(t.version, job);
    RecommendationKeeps(t, job);
    var winner := DecisionShape(t, job);
    ExecOne(t, RunDecision(job));
  }

  /** From every state some schedule finishes the run, even if no supplier ever answers. */
  lemma {:induction false} EveryRunCanFinish(t: Tables) returns (actions: seq<Action>)
    requires Inv(t)
    ensures Finished(Exec(t, actions))
    decreases Remaining(t)
  {
    RemainingIsNatural(t);
    if Finished(t) {
      return [];
    } else if t.state == Evaluated {
      DecidingHelps(t);
      return [RunDecision(DecisionJob(5))];
    }
    var first := [Deliver(NextJob(t)), Commit(NextJob(t), SILENCE)];
    ServingHelps(t, SILENCE);
    ExecKeeps(t, first);
    var rest := EveryRunCanFinish(Exec(t, first));
    ExecAppend(t, first, rest);
    return first + rest;
  }

  // ------------------------------------------------------------------ claims

  /** A completed job has no effect when it is delivered again, whether or not its completion claim is consulted. */
  lemma RedeliveryIsHarmless(t: Tables, job: Job)
    requires Inv(t) && job in t.completed
    ensures Next(t, Deliver(job)) == t
    ensures Next(t, RunDecision(job)) == t
  {
    hide Inv, Next;
    RedeliveredTurn(t, job);
    RedeliveredDecision(t, job);
  }

  lemma RedeliveredTurn(t: Tables, job: Job)
    requires Inv(t) && job in t.completed
    ensures Next(t, Deliver(job)) == t
  {
    hide D.Decide, DecisionInputs;
    assert t.completed + {job} == t.completed;
  }

  lemma RedeliveredDecision(t: Tables, job: Job)
    requires Inv(t) && job in t.completed
    ensures Next(t, RunDecision(job)) == t
  {
    hide D.Decide, DecisionInputs, CommitTurn;
    assert t.completed + {job} == t.completed;
  }

  /** A worker execution as one transaction: claim the job, prepare, ask, commit, or roll all of it back. */
  function ExecuteClaimed(t: Tables, job: Job, answer: Answer): Tables
    requires job.TurnJob?
  {
    if job in t.completed then t
    else if !Prepared(t, job) then t.(completed := t.completed + {job})
    else
      match CommitTurn(t, job, answer)
      case None => t
      case Some(u) => u.(completed := u.completed + {job})
  }

  /**
   Such an execution is a prepare followed by its commit, so it can do nothing that two separate transactions cannot.
   */
  lemma ClaimedExecutionIsARun(t: Tables, job: Job, answer: Answer) returns (actions: seq<Action>)
    requires Inv(t) && job in t.jobs && job.TurnJob?
    ensures ExecuteClaimed(t, job, answer) == Exec(t, actions)
    ensures actions == if job in t.completed || !Prepared(t, job) then [Deliver(job)]
                       else [Deliver(job), Commit(job, answer)]
  {
    hide Inv, Exec, Next, CommitTurn;
    if job in t.completed || !Prepared(t, job) {
      if job in t.completed {
        RedeliveryIsHarmless(t, job);
      } else {
        TurnedAway(t, job);
      }
      actions := [Deliver(job)];
      ExecOne(t, Deliver(job));
    } else {
      actions := [Deliver(job), Commit(job, answer)];
      ExecTwo(t, Deliver(job), Commit(job, answer));
      PreparedThenCommitted(t, job, answer);
    }
  }

  lemma TurnedAway(t: Tables, job: Job)
    requires job in t.jobs && job.TurnJob? && !Prepared(t, job)
    ensures Next(t, Deliver(job)) == t.(completed := t.completed + {job})
  {
    hide D.Decide, DecisionInputs, CommitTurn;
  }

  lemma PreparedThenCommitted(t: Tables, job: Job, answer: Answer)
    requires job in t.jobs && job.TurnJob? && Prepared(t, job) && job !in t.completed
    ensures Next(Next(t, Deliver(job)), Commit(job, answer)) == ExecuteClaimed(t, job, answer)
  {
    hide D.Decide, DecisionInputs, CommitTurn;
    var u := Next(t, Deliver(job));
    assert u.(inflight := u.inflight - multiset{job}) == t;
  }
}
