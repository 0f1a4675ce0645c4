/** What holds in every state that any schedule of deliveries, commits, losses and answers can reach. */
module NegotiationSafety {
  import opened Prelude
  import opened Negotiation
  import opened NegotiationStore
  import opened NegotiationOutcome
  import D = Decision

  // -------------------------------------------------------------- invariant

  /** The version is fixed by the state, and no transaction ends in an intermediate state. */
  ghost predicate VersionOfState(t: Tables) {
    || (t.state == Round1Running && t.version == 1)
    || (t.state == Round2Running && t.version == 4)
    || (t.state == Evaluated && t.version == 5)
    || (t.state == Recommended && t.version == 6)
    || (t.state == PoCommitted && t.version == 7)
  }

  /** Every job ever enqueued, in order: each carries the version at which it can run. */
  function JobsAt(version: nat): seq<Job> {
    [TurnJob(S1, One, 1), TurnJob(S2, One, 1), TurnJob(S3, One, 1)]
    + (if version >= 4 then [TurnJob(S1, Two, 4), TurnJob(S2, Two, 4), TurnJob(S3, Two, 4)] else [])
    + (if version >= 5 then [DecisionJob(5)] else [])
  }

  ghost predicate TurnsMatch(t: Tables) {
    && (t.version == 1 ==> TurnsDone(t, One) < 3 && TurnsDone(t, Two) == 0)
    && (t.version >= 4 ==> TurnsDone(t, One) == 3)
    && (t.version == 4 ==> TurnsDone(t, Two) < 3)
    && (t.version >= 5 ==> TurnsDone(t, Two) == 3)
  }

  /** Each event is recorded at most once, and exactly when what it stands for has happened. */
  ghost predicate EventsMatch(t: Tables) {
    && Distinct(t.events)
    && (forall s, r :: TurnEvent(s, r) in t.events <==> (s, r) in t.turns)
    && (CapacityEvent in t.events <==> t.version >= 4)
    && (RecommendedEvent in t.events <==> t.version >= 6)
  }

  /** A completed job has nothing left to do. */
  ghost predicate Spent(t: Tables, job: Job) {
    match job
    case TurnJob(s, r, v) => (s, r) in t.turns || v < t.version
    case DecisionJob(v) => v < t.version
  }

  ghost predicate JobsMatch(t: Tables) {
    && t.jobs == JobsAt(t.version)
    && (forall job | job in t.completed :: job in t.jobs && Spent(t, job))
    && (forall job | job in t.inflight :: job in t.jobs && job.TurnJob?)
  }

  ghost predicate OutcomeMatches(t: Tables) {
    && (t.recommendation.Some? <==> t.version >= 6)
    && (t.recommendation.Some? && t.recommendation.value.Some? ==> Buyable(t, t.recommendation.value.value))
    && |t.orders| == (if t.version == 7 then 1 else 0)
    && (t.version == 7 ==>
          t.recommendation.Some? && t.recommendation.value == Some(t.orders[0].offerId) && t.orders[0].supplier != S2)
  }

  ghost predicate Inv(t: Tables) {
    && Startable(t.facts)
    && VersionOfState(t)
    && TurnsMatch(t)
    && EventsMatch(t)
    && JobsMatch(t)
    && OutcomeMatches(t)
    && StoreOk(t)
  }

  lemma StartInv(facts: Facts)
    requires Startable(facts)
    ensures Inv(Start(facts))
  {
  }

  // --------------------------------------------------------------- delivery

  /** The jobs of a version, one by one. */
  lemma JobsAtMembers(version: nat, job: Job)
    ensures job in JobsAt(version) <==>
      || job in [TurnJob(S1, One, 1), TurnJob(S2, One, 1), TurnJob(S3, One, 1)]
      || (version >= 4 && job in [TurnJob(S1, Two, 4), TurnJob(S2, Two, 4), TurnJob(S3, Two, 4)])
      || (version >= 5 && job == DecisionJob(5))
  {
  }

  /** Bookkeeping changes that cannot hurt. */
  lemma BookkeepingKeeps(t: Tables, completed: set<Job>, inflight: multiset<Job>)
    requires Inv(t)
    requires forall job | job in completed :: job in t.jobs && Spent(t, job)
    requires forall job | job in inflight :: job in t.jobs && job.TurnJob?
    ensures Inv(t.(completed := completed, inflight := inflight))
  {
    SameStoreOk(t, t.(completed := completed, inflight := inflight));
  }

  lemma UnpreparedIsSpent(t: Tables, job: Job)
    requires Inv(t) && job in t.jobs && job.TurnJob? && !Prepared(t, job)
    ensures Spent(t, job)
  {
    JobsAtMembers(t.version, job);
  }

  lemma DeliverKeeps(t: Tables, job: Job)
    requires Inv(t)
    ensures Inv(Next(t, Deliver(job)))
  {
    if job in t.jobs && job.TurnJob? {
      if Prepared(t, job) {
        BookkeepingKeeps(t, t.completed, t.inflight + multiset{job});
      } else {
        UnpreparedIsSpent(t, job);
        BookkeepingKeeps(t, t.completed + {job}, t.inflight);
      }
    }
  }

  // ------------------------------------------------------------------ commit

  /** A commit's turn touches nothing but the turn, its event and the offer tables. */
  lemma AppendTurnFrame(t: Tables, supplier: Supplier, round: Round, answer: Answer)
    requires AppendTurn(t, supplier, round, answer).Some?
    ensures var u := AppendTurn(t, supplier, round, answer).value;
      && u == t.(turns := u.turns, events := u.events, offers := u.offers, offerLines := u.offerLines,
                 fulfillments := u.fulfillments, nextId := u.nextId)
      && (supplier, round) in u.turns
      && ((supplier, round) in t.turns ==> u == t)
      && ((supplier, round) !in t.turns ==>
            && u.turns == t.turns[(supplier, round) := answer.status]
            && u.events == InsertEvent(t, TurnEvent(supplier, round)).events)
  {
  }

  /** The invariant inside a commit, before the run advances: the round may just have been filled. */
  ghost predicate MidRound(t: Tables, round: Round) {
    && Startable(t.facts)
    && t.state == StateForRound(round)
    && VersionOfState(t)
    && EventsMatch(t)
    && JobsMatch(t)
    && OutcomeMatches(t)
    && StoreOk(t)
    && (round == One ==> TurnsDone(t, Two) == 0)
    && (round == Two ==> TurnsDone(t, One) == 3)
  }

  lemma AppendTurnMidRound(t: Tables, job: Job, answer: Answer)
    requires Inv(t) && job.TurnJob? && job in t.jobs && t.state == StateForRound(job.round)
    requires AppendTurn(t, job.supplier, job.round, answer).Some?
    ensures MidRound(AppendTurn(t, job.supplier, job.round, answer).value, job.round)
  {
    var u := AppendTurn(t, job.supplier, job.round, answer).value;
    AppendTurnFrame(t, job.supplier, job.round, answer);
    AppendTurnKeeps(t, job.supplier, job.round, answer);
    AppendedEventsMatch(t, u, job, answer.status);
  }

  lemma AppendedEventsMatch(t: Tables, u: Tables, job: Job, status: TurnStatus)
    requires EventsMatch(t) && job.TurnJob? && u.version == t.version
    requires u == t
      || (&& u.turns == t.turns[(job.supplier, job.round) := status]
          && u.events == InsertEvent(t, TurnEvent(job.supplier, job.round)).events)
    ensures EventsMatch(u)
  {
  }

  lemma MidRoundIsInv(t: Tables, job: Job)
    requires job.TurnJob? && MidRound(t, job.round) && TurnsDone(t, job.round) != 3
    requires job in t.jobs && (job.supplier, job.round) in t.turns
    ensures Inv(t.(completed := t.completed + {job}))
  {
    SameStoreOk(t, t.(completed := t.completed + {job}));
  }

  /** The three transitions, the capacity event and the three jobs, in one step. */
  lemma AdvanceToRoundTwoResult(t: Tables)
    requires t.state == Round1Running && t.version == 1 && t.jobs == JobsAt(1)
    ensures AdvanceToRoundTwo(t, 1) == ApplyCapacityEvent(t).(state := Round2Running, version := 4, jobs := JobsAt(4))
  {
    var t1 := Transition(t, Round1Running, 1, Round1Complete);
    assert S2Lines(t1) == S2Lines(t);
    var t2 := ApplyCapacityEvent(t1);
    assert t2 == ApplyCapacityEvent(t).(state := Round1Complete, version := 2);
    var t4 :=
      Transition(Transition(t2, Round1Complete, 2, CapacityEventApplied), CapacityEventApplied, 3, Round2Running);
    assert t4 == ApplyCapacityEvent(t).(state := Round2Running, version := 4);
    assert JobsAt(4) == ((JobsAt(1) + [TurnJob(S1, Two, 4)]) + [TurnJob(S2, Two, 4)]) + [TurnJob(S3, Two, 4)];
  }

  lemma AdvanceToRoundTwoKeeps(t: Tables, job: Job)
    requires MidRound(t, One) && TurnsDone(t, One) == 3 && job in t.jobs && job.TurnJob?
    ensures var u := AdvanceToRoundTwo(t, t.version); Inv(u.(completed := u.completed + {job}))
  {
    AdvanceToRoundTwoResult(t);
    ApplyCapacityEventKeeps(t);
    var c := ApplyCapacityEvent(t);
    var v := c.(state := Round2Running, version := 4, jobs := JobsAt(4), completed := c.completed + {job});
    SameStoreOk(c, v);
    JobsAtMembers(1, job);
    AdvancedJobsMatch(t, v, job);
    AdvancedEventsMatch(t, v);
  }

  lemma AdvancedEventsMatch(t: Tables, u: Tables)
    requires EventsMatch(t) && t.version == 1 && u.version == 4 && u.turns == t.turns
      && u.events == t.events + [CapacityEvent]
    ensures EventsMatch(u)
  {
  }

  lemma AdvancedJobsMatch(t: Tables, u: Tables, job: Job)
    requires JobsMatch(t) && job in t.jobs && job.TurnJob?
      && (job.expectedVersion < u.version || (job.supplier, job.round) in t.turns)
    requires u.version > t.version && u.jobs == JobsAt(u.version) && u.turns == t.turns
    requires u.completed == t.completed + {job} && u.inflight == t.inflight
    ensures JobsMatch(u)
  {
    forall j | j in t.jobs ensures j in u.jobs {
      JobsAtMembers(t.version, j);
      JobsAtMembers(u.version, j);
    }
  }

  lemma AdvanceToDecisionKeeps(t: Tables, job: Job)
    requires MidRound(t, Two) && TurnsDone(t, Two) == 3 && job in t.jobs && job.TurnJob?
    ensures var u := AdvanceToDecision(t, t.version); Inv(u.(completed := u.completed + {job}))
  {
    var u := AdvanceToDecision(t, t.version);
    var v := u.(completed := u.completed + {job});
    SameStoreOk(t, v);
    assert v.jobs == JobsAt(5);
    AdvancedJobsMatch(t, v, job);
  }

  lemma ActiveCommitKeeps(t: Tables, job: Job, answer: Answer)
    requires Inv(t) && job.TurnJob? && job in t.jobs && t.state == StateForRound(job.round)
    requires CommitTurn(t, job, answer).Some?
    ensures var u := CommitTurn(t, job, answer).value; Inv(u.(completed := u.completed + {job}))
  {
    var u := AppendTurn(t, job.supplier, job.round, answer).value;
    AppendTurnFrame(t, job.supplier, job.round, answer);
    AppendTurnMidRound(t, job, answer);
    if TurnsDone(u, job.round) != 3 {
      MidRoundIsInv(u, job);
    } else if job.round == One {
      AdvanceToRoundTwoKeeps(u, job);
    } else {
      AdvanceToDecisionKeeps(u, job);
    }
  }

  lemma StaleCommitKeeps(t: Tables, job: Job)
    requires Inv(t) && job.TurnJob? && job in t.jobs && t.state != StateForRound(job.round)
    ensures Inv(t.(completed := t.completed + {job}))
  {
    UnpreparedIsSpent(t, job);
    BookkeepingKeeps(t, t.completed + {job}, t.inflight);
  }

  lemma CommitKeeps(t: Tables, job: Job, answer: Answer)
    requires Inv(t)
    ensures Inv(Next(t, Commit(job, answer)))
  {
    if job in t.inflight && job.TurnJob? {
      var t' := t.(inflight := t.inflight - multiset{job});
      BookkeepingKeeps(t, t.completed, t.inflight - multiset{job});
      if t.state != StateForRound(job.round) {
        StaleCommitKeeps(t', job);
      } else if CommitTurn(t', job, answer).Some? {
        ActiveCommitKeeps(t', job, answer);
      }
    }
  }

  // ---------------------------------------------------------------- decision

  lemma DecisionKeeps(t: Tables, job: Job)
    requires Inv(t)
    ensures Inv(Next(t, RunDecision(job)))
  {
    if job in t.jobs && job.DecisionJob? {
      JobsAtMembers(t.version, job);
      if t.state != Evaluated || t.version != job.expectedVersion {
        BookkeepingKeeps(t, t.completed + {job}, t.inflight);
      } else {
        RecommendationKeeps(t, job);
      }
    }
  }

  lemma RecommendationKeeps(t: Tables, job: Job)
    requires Inv(t) && t.state == Evaluated && job == DecisionJob(t.version) && job in t.jobs
    ensures ContinueDecision(t, job).Some?
    ensures var u := ContinueDecision(t, job).value; Inv(u.(completed := u.completed + {job}))
  {
    DecisionNeverThrows(t);
    var selected := D.Decide(DecisionInputs(t)).value.selection.winner;
    if selected.Some? {
      WinnerIsBuyable(t);
    }
    StoreRecommendationKeeps(t, if selected.Some? then Some(selected.value.offerId) else None, job);
  }

  lemma StoreRecommendationKeeps(t: Tables, winner: Option<nat>, job: Job)
    requires Inv(t) && t.state == Evaluated && job == DecisionJob(t.version) && job in t.jobs
    requires winner.Some? ==> Buyable(t, winner.value)
    ensures var u := StoreRecommendation(t, winner); Inv(u.(completed := u.completed + {job}))
  {
    var v := t.(recommendation := Some(winner), state := Recommended, version := 6,
                events := t.events + [RecommendedEvent], completed := t.completed + {job});
    SameStoreOk(t, v);
    RecommendedEventsMatch(t, v);
    RecommendedJobsMatch(t, v);
  }

  lemma RecommendedJobsMatch(t: Tables, u: Tables)
    requires JobsMatch(t) && t.version == 5 && u.version == 6 && u.jobs == t.jobs && u.turns == t.turns
      && u.inflight == t.inflight
    requires DecisionJob(5) in t.jobs && u.completed == t.completed + {DecisionJob(5)}
    ensures JobsMatch(u)
  {
  }

  lemma RecommendedEventsMatch(t: Tables, u: Tables)
    requires EventsMatch(t) && t.version == 5 && u.version == 6 && u.turns == t.turns
      && u.events == t.events + [RecommendedEvent]
    ensures EventsMatch(u)
  {
  }

  // ---------------------------------------------------------------- issuance

  lemma IssueKeeps(t: Tables, authorized: bool)
    requires Inv(t)
    ensures Inv(Next(t, Issue(authorized)))
  {
    hide FullOrderEligible, OfferKeys, LineKeys, NoEmptyOffer, RowsAreS2, S2Covered;
    if IssueOrder(t, authorized).Some? {
      SameStoreOk(t, IssueOrder(t, authorized).value);
    }
  }

  lemma AbandonKeeps(t: Tables, job: Job)
    requires Inv(t)
    ensures Inv(Next(t, Abandon(job)))
  {
    BookkeepingKeeps(t, t.completed, t.inflight - multiset{job});
  }

  // -------------------------------------------------------------------- runs

  lemma NextKeeps(t: Tables, a: Action)
    requires Inv(t)
    ensures Inv(Next(t, a))
  {
    match a
    case Deliver(job) => DeliverKeeps(t, job);
    case Commit(job, answer) => CommitKeeps(t, job, answer);
    case Abandon(job) => AbandonKeeps(t, job);
    case RunDecision(job) => DecisionKeeps(t, job);
    case Issue(authorized) => IssueKeeps(t, authorized);
  }

  lemma {:induction false} ExecKeeps(t: Tables, actions: seq<Action>)
    requires Inv(t)
    ensures Inv(Exec(t, actions))
  {
    if actions != [] {
      ExecKeeps(t, actions[..|actions| - 1]);
      NextKeeps(Exec(t, actions[..|actions| - 1]), actions[|actions| - 1]);
    }
  }

  /** Every reachable state satisfies the invariant. */
  lemma ReachableInv(t: Tables)
    requires Reachable(t)
    ensures Inv(t)
  {
    var facts, actions :| Startable(facts) && t == Exec(Start(facts), actions);
    StartInv(facts);
    ExecKeeps(Start(facts), actions);
  }
}
