/** The workers of a negotiation run, changing its stored rows in place, one transaction at a time. */
module NegotiationDesk {
  import opened Prelude
  import opened Negotiation
  import opened NegotiationOutcome
  import opened NegotiationSafety
  import N = Negotiation
  import R = NegotiationRuns
  import D = Decision

  // -------------------------------------------------- specification, one row on

  lemma {:induction false} InsertOneMore(lines: seq<OfferLineRow>, line: OfferLineRow, rows: map<nat, Fulfillment>)
    ensures InsertFulfillments(lines + [line], rows) == InsertFulfillments([line], InsertFulfillments(lines, rows))
  {
    if lines == [] {
      assert lines + [line] == [line];
    } else {
      assert (lines + [line])[0] == lines[0] && (lines + [line])[1..] == lines[1..] + [line];
      var row := Fulfillment(lines[0].quantity * 60 / 100, false);
      var rows' := if lines[0].id in rows then rows else rows[lines[0].id := row];
      InsertOneMore(lines[1..], line, rows');
    }
  }

  lemma {:induction false} OneMoreRow(lines: seq<OfferLineRow>, line: OfferLineRow, rows: map<nat, Fulfillment>)
    ensures var r, row := InsertFulfillments(lines, rows), Fulfillment(line.quantity * 60 / 100, false);
      InsertFulfillments(lines + [line], rows) == if line.id in r then r else r[line.id := row]
    ensures lines + [] == lines
  {
    InsertOneMore(lines, line, rows);
    assert [line][1..] == [];
  }

  lemma OneMoreLine(lines: seq<OfferLineRow>, i: nat, supplier: Supplier, offers: seq<OfferRow>)
    requires i < |lines|
    ensures LinesOfSupplier(supplier, offers, lines[..i + 1])
         == LinesOfSupplier(supplier, offers, lines[..i]) + if BelongsTo(lines[i], supplier, offers) then [lines[i]]
           else []
  {
    assert lines[..i + 1] == lines[..i] + [lines[i]];
    FilterAppend((line: OfferLineRow) => BelongsTo(line, supplier, offers), lines[..i], [lines[i]]);
  }

  /** The latest offer of each supplier, kept in the order in which the suppliers are met. */
  method LatestPerSupplier(rows: seq<OfferRow>) returns (latest: seq<OfferRow>)
    ensures latest == FirstPerSupplier(rows)
  {
    latest := [];
    var suppliers: set<Supplier> := {};
    for i := 0 to |rows|
      invariant latest == FirstPerSupplier(rows[..i])
      invariant suppliers == Suppliers(latest)
    {
      assert rows[..i + 1][..i] == rows[..i] && rows[..i + 1][i] == rows[i];
      if rows[i].supplier !in suppliers {
        SuppliersOfAppend(latest, rows[i]);
        latest := latest + [rows[i]];
        suppliers := suppliers + {rows[i].supplier};
      }
    }
    assert rows[..|rows|] == rows;
  }

  lemma StillValid(t: Tables, a: Action)
    ensures Inv(t) ==> Inv(Next(t, a))
  {
    hide Inv, Next;
    if Inv(t) {
      NextKeeps(t, a);
    }
  }

  lemma ClaimedStillValid(t: Tables, job: Job, answer: Answer)
    requires job in t.jobs && job.TurnJob?
    ensures Inv(t) ==> Inv(R.ExecuteClaimed(t, job, answer))
  {
    hide Inv, Exec;
    if Inv(t) {
      var path := R.ClaimedExecutionIsARun(t, job, answer);
      ExecKeeps(t, path);
    }
  }

  const SUPPLIERS := [S1, S2, S3]

  class RunDesk {
    const facts: Facts
    var state: State
    var version: nat
    var turns: map<(Supplier, Round), TurnStatus>
    var events: seq<EventKey>
    var offers: seq<OfferRow>
    var offerLines: seq<OfferLineRow>
    var fulfillments: map<nat, Fulfillment>
    var recommendation: Option<Option<nat>>
    var orders: seq<Order>
    var jobs: seq<Job>
    var completed: set<Job>
    var inflight: multiset<Job>
    var nextId: nat

    function Snapshot(): Tables
      reads this
    {
      Tables(facts, state, version, turns, events, offers, offerLines, fulfillments, recommendation, orders, jobs,
             completed, inflight, nextId)
    }

    ghost predicate Valid()
      reads this
    {
      Inv(Snapshot())
    }

    /** Create the run and schedule its first round. */
    constructor (facts: Facts)
      requires Startable(facts)
      ensures Snapshot() == Start(facts)
      ensures Valid()
    {
      this.facts := facts;
      state, version := Round1Running, 1;
      turns, events, offers, offerLines, fulfillments := map[], [], [], [], map[];
      recommendation, orders := None, [];
      jobs, completed, inflight := [], {}, multiset{};
      nextId := 0;
      new;
      ScheduleRound(One, 1);
      var _ := InsertEvent(StartedEvent);
      StartInv(facts);
    }

    /** Put back what the tables held when the transaction began. */
    method Restore(t: Tables)
      requires t.facts == facts
      modifies this
      ensures Snapshot() == t
    {
      RestoreRun(t);
      RestoreOffers(t);
      jobs, completed, inflight := t.jobs, t.completed, t.inflight;
    }

    method RestoreRun(t: Tables)
      modifies this`state, this`version, this`turns, this`events, this`recommendation, this`orders
      ensures state == t.state && version == t.version && turns == t.turns && events == t.events
      ensures recommendation == t.recommendation && orders == t.orders
    {
      state, version, turns, events := t.state, t.version, t.turns, t.events;
      recommendation, orders := t.recommendation, t.orders;
    }

    method RestoreOffers(t: Tables)
      modifies this`offers, this`offerLines, this`fulfillments, this`nextId
      ensures offers == t.offers && offerLines == t.offerLines && fulfillments == t.fulfillments && nextId == t.nextId
    {
      offers, offerLines, fulfillments, nextId := t.offers, t.offerLines, t.fulfillments, t.nextId;
    }

    // ---------------------------------------------------------- repositories

    method Transition(expectedState: State, expectedVersion: nat, nextState: State) returns (moved: bool)
      requires Legal(expectedState, nextState)
      modifies this`state, this`version
      ensures moved == CanTransition(old(Snapshot()), expectedState, expectedVersion)
      ensures Snapshot() == N.Transition(old(Snapshot()), expectedState, expectedVersion, nextState)
      ensures !moved ==> Snapshot() == old(Snapshot())
    {
      moved := state == expectedState && version == expectedVersion;
      if moved {
        state, version := nextState, version + 1;
      }
    }

    method InsertEvent(key: EventKey) returns (inserted: bool)
      modifies this`events
      ensures inserted == (key !in old(events))
      ensures Snapshot() == N.InsertEvent(old(Snapshot()), key)
    {
      inserted := key !in events;
      if inserted {
        events := events + [key];
      }
    }

    method Enqueue(job: Job)
      modifies this`jobs
      ensures Snapshot() == N.Enqueue(old(Snapshot()), job)
    {
      jobs := jobs + [job];
    }

    /** One turn job for each supplier. */
    method ScheduleRound(round: Round, at: nat)
      modifies this`jobs
      ensures jobs == old(jobs) + [TurnJob(S1, round, at), TurnJob(S2, round, at), TurnJob(S3, round, at)]
    {
      var i := 0;
      while i < |SUPPLIERS|
        invariant 0 <= i <= 3
        invariant jobs == old(jobs) + [TurnJob(S1, round, at), TurnJob(S2, round, at), TurnJob(S3, round, at)][..i]
      {
        Enqueue(TurnJob(SUPPLIERS[i], round, at));
        i := i + 1;
      }
    }

    method MaterializeS2Fulfillment()
      modifies this`fulfillments
      ensures Snapshot() == N.MaterializeS2Fulfillment(old(Snapshot()))
    {
      ghost var before := fulfillments;
      var s2Offers := set o | o in offers && o.supplier == S2 :: o.id;
      for i := 0 to |offerLines|
        invariant fulfillments == InsertFulfillments(LinesOfSupplier(S2, offers, offerLines[..i]), before)
      {
        var line := offerLines[i];
        OneMoreLine(offerLines, i, S2, offers);
        OneMoreRow(LinesOfSupplier(S2, offers, offerLines[..i]), line, before);
        if line.offerId in s2Offers && line.id !in fulfillments {
          fulfillments := fulfillments[line.id := Fulfillment(line.quantity * 60 / 100, false)];
        }
      }
      assert offerLines[..|offerLines|] == offerLines;
    }

    /** Store the offer of a turn; `thrown` when the database refuses it. */
    method MaterializeOffer(proposal: Option<AnswerProposal>) returns (thrown: bool)
      modifies this`offers, this`offerLines, this`fulfillments, this`nextId
      ensures thrown == N.MaterializeOffer(old(Snapshot()), proposal).None?
      ensures !thrown ==> Snapshot() == N.MaterializeOffer(old(Snapshot()), proposal).value
    {
      if proposal.None? {
        return false;
      }
      var p := proposal.value;
      if p.capacityPercent < 1 {
        return true;
      }
      if HasOffer(Snapshot(), p.supplier, p.round) {
        return false;
      }
      var offerId := nextId;
      offers := offers + [OfferRow(offerId, p.supplier, p.round, p.leadTimeDays, p.capacityPercent, p.terms)];
      nextId := nextId + 1 + |p.lines|;
      if !DistinctAnswers(p.lines) {
        return true;
      }
      offerLines := offerLines + NewLines(p, offerId);
      if p.supplier == S2 && CapacityEvent in events {
        MaterializeS2Fulfillment();
      }
      return false;
    }

    method AppendTurn(supplier: Supplier, round: Round, answer: Answer) returns (thrown: bool)
      modifies this`turns, this`events, this`offers, this`offerLines, this`fulfillments, this`nextId
      ensures thrown == N.AppendTurn(old(Snapshot()), supplier, round, answer).None?
      ensures !thrown ==> Snapshot() == N.AppendTurn(old(Snapshot()), supplier, round, answer).value
    {
      if (supplier, round) in turns {
        return false;
      }
      turns := turns[(supplier, round) := answer.status];
      var _ := InsertEvent(TurnEvent(supplier, round));
      thrown := MaterializeOffer(DecodeProposal(answer));
    }

    method ApplyCapacityEvent()
      modifies this`events, this`fulfillments
      ensures Snapshot() == N.ApplyCapacityEvent(old(Snapshot()))
    {
      var inserted := InsertEvent(CapacityEvent);
      if inserted {
        MaterializeS2Fulfillment();
      }
    }

    // ----------------------------------------------------------- turn worker

    method AdvanceToRoundTwo(at: nat)
      modifies this`state, this`version, this`events, this`fulfillments, this`jobs
      ensures Snapshot() == N.AdvanceToRoundTwo(old(Snapshot()), at)
    {
      hide N.ApplyCapacityEvent, N.Transition;
      var moved := Transition(Round1Running, at, Round1Complete);
      if !moved {
        return;
      }
      ApplyCapacityEvent();
      var _ := Transition(Round1Complete, at + 1, CapacityEventApplied);
      var _ := Transition(CapacityEventApplied, at + 2, Round2Running);
      ScheduleRound(Two, at + 3);
    }

    method AdvanceToDecision(at: nat)
      modifies this`state, this`version, this`jobs
      ensures Snapshot() == N.AdvanceToDecision(old(Snapshot()), at)
    {
      var moved := Transition(Round2Running, at, Evaluated);
      if moved {
        Enqueue(DecisionJob(at + 1));
      }
    }

    /** The body of the commit transaction. */
    method CommitTurn(job: Job, answer: Answer) returns (thrown: bool)
      requires job.TurnJob?
      modifies this
      ensures thrown == N.CommitTurn(old(Snapshot()), job, answer).None?
      ensures !thrown ==> Snapshot() == N.CommitTurn(old(Snapshot()), job, answer).value
    {
      if state != StateForRound(job.round) {
        return false;
      }
      var at := version;
      thrown := AppendTurn(job.supplier, job.round, answer);
      if thrown || TurnsDone(Snapshot(), job.round) != 3 {
        return;
      }
      if job.round == One {
        AdvanceToRoundTwo(at);
      } else {
        AdvanceToDecision(at);
      }
    }

    /** Deliver a turn job: prepare it, or find that there is nothing left to do. */
    method Prepare(job: Job)
      modifies this`completed, this`inflight
      ensures Snapshot() == Next(old(Snapshot()), Deliver(job)) && (old(Valid()) ==> Valid())
    {
      hide Inv;
      StillValid(Snapshot(), Deliver(job));
      if job in jobs && job.TurnJob? {
        if Prepared(Snapshot(), job) {
          inflight := inflight + multiset{job};
        } else {
          completed := completed + {job};
        }
      }
    }

    /** Commit a prepared turn with whatever the supplier's model answered; a throw rolls everything back. */
    method Commit(job: Job, answer: Answer)
      modifies this
      ensures Snapshot() == Next(old(Snapshot()), N.Commit(job, answer)) && (old(Valid()) ==> Valid())
    {
      hide Inv, N.CommitTurn;
      StillValid(Snapshot(), N.Commit(job, answer));
      if job !in inflight || !job.TurnJob? {
        return;
      }
      inflight := inflight - multiset{job};
      var before := Snapshot();
      var thrown := CommitTurn(job, answer);
      if thrown {
        Restore(before);
      } else {
        completed := completed + {job};
      }
    }

    // ------------------------------------------------------- decision worker

    /** What the decision engine is given: the latest offer of each supplier. */
    method LoadDecisionInputs() returns (input: D.DecisionInput)
      ensures input == DecisionInputs(Snapshot())
    {
      var latest := LatestPerSupplier(LatestFirst(offers));
      input := D.DecisionInput(SumBy(RunLineTotal, facts.lines), facts.currency, Candidates(Snapshot(), latest),
                               facts.policy.weights, facts.policy.hardMaxLead);
    }

    method ContinueDecision(job: Job)
      modifies this
      ensures Snapshot() == Next(old(Snapshot()), RunDecision(job)) && (old(Valid()) ==> Valid())
    {
      hide D.Decide, DecisionInputs, Inv;
      StillValid(Snapshot(), RunDecision(job));
      if job !in jobs || !job.DecisionJob? {
        return;
      }
      var input := LoadDecisionInputs();
      if state == Evaluated && version == job.expectedVersion {
        var decision := D.Decide(input);
        if decision.Err? {
          return;
        }
        var winner := decision.value.selection.winner;
        if recommendation.None? {
          recommendation := Some(if winner.Some? then Some(winner.value.offerId) else None);
        }
        var moved := Transition(Evaluated, job.expectedVersion, Recommended);
        var _ := InsertEvent(RecommendedEvent);
      }
      completed := completed + {job};
    }

    // -------------------------------------------------------------- issuance

    method Issue(authorized: bool) returns (issued: bool)
      modifies this`orders, this`state, this`version
      ensures issued == IssueOrder(old(Snapshot()), authorized).Some?
      ensures Snapshot() == Next(old(Snapshot()), N.Issue(authorized)) && (old(Valid()) ==> Valid())
    {
      hide Inv, FullOrderEligible;
      StillValid(Snapshot(), N.Issue(authorized));
      if recommendation.None? || recommendation.value.None? || !IsOfferId(Snapshot(), recommendation.value.value) {
        return false;
      }
      var o := OfferById(offers, recommendation.value.value);
      if state != Recommended || !FullOrderEligible(Snapshot(), o.id) || o.capacityPercent != 100 || !authorized {
        return false;
      }
      orders := orders + [Order(o.id, o.supplier)];
      state, version := PoCommitted, version + 1;
      return true;
    }

    // ------------------------------------------------------ worker execution

    /** Claim a job, do its work, and keep or drop both together. */
    method ExecuteClaimed(job: Job, answer: Answer) returns (replayed: bool)
      requires job in jobs && job.TurnJob?
      modifies this
      ensures replayed == (job in old(completed))
      ensures Snapshot() == R.ExecuteClaimed(old(Snapshot()), job, answer) && (old(Valid()) ==> Valid())
    {
      hide Inv;
      ClaimedStillValid(Snapshot(), job, answer);
      if job in completed {
        return true;
      }
      replayed := false;
      var before := Snapshot();
      if !Prepared(before, job) {
        completed := completed + {job};
        return;
      }
      var thrown := CommitTurn(job, answer);
      if thrown {
        Restore(before);
      } else {
        completed := completed + {job};
      }
    }
  }
}
