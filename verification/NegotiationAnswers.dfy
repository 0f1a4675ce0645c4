/** What the supplier model really answers: a validated proposal, or no proposal at all. */
module NegotiationAnswers {
  import opened Prelude
  import opened Negotiation
  import opened NegotiationSafety
  import opened NegotiationRuns
  import P = Proposals
  import C = OrderCodec
  import O = OfferRules

  /** The stored form of a proposal. */
  function StoredAnswer(p: P.Proposal): Answer {
    Answer(Proposed, Some(AnswerProposal(
      p.supplier, p.round, p.leadTimeDays, p.capacityPercent,
      Terms(C.CurrencyText(p.currency), p.expiresAt, p.schedule),
      Map((line: P.ProposalLine) => AnswerLine(line.productId, line.quantity, line.unitPriceMinor), p.lines))))
  }

  /**
   An answer for a job is a refusal, a failure, or a proposal that passed the validator for that supplier and round.
   */
  ghost predicate IsValidated(answer: Answer, job: Job)
    requires job.TurnJob?
  {
    || !answer.status.Proposed?
    || exists p, context, now :: P.Accepted(p, job.supplier, job.round, context, now) && answer == StoredAnswer(p)
  }

  lemma AcceptedLines(p: P.Proposal, supplier: Supplier, round: Round, context: P.Context, now: int)
    requires P.Accepted(p, supplier, round, context, now)
    ensures p.lines != [] && p.capacityPercent in {60, 100} && p.leadTimeDays > 0
    ensures forall line | line in p.lines :: line.quantity > 0 && line.unitPriceMinor > 0
    ensures forall i, j :: 0 <= i < j < |p.lines| ==> p.lines[i].productId != p.lines[j].productId
  {
    hide P.MeetsRoundPolicy, O.MeetsSupplierPolicy, O.ValidSchedule;
    var intent, offer := P.BuildIntent(context), P.BuildOffer(p, "");
    O.LinesByProductKeys(intent.lines);
    forall i | 0 <= i < |p.lines| ensures p.lines[i].quantity > 0 && p.lines[i].unitPriceMinor > 0 {
      assert offer.lines[i] in offer.lines;
      assert O.CoversLine(offer.lines[i], O.LinesByProduct(intent.lines), intent.currency);
    }
    forall i, j | 0 <= i < j < |p.lines| ensures p.lines[i].productId != p.lines[j].productId {
      assert offer.lines[i].productId != offer.lines[j].productId;
    }
  }

  /** A validated proposal is read back from its stored form whole, for the supplier and round it was made for. */
  lemma AcceptedIsDecoded(p: P.Proposal, supplier: Supplier, round: Round, context: P.Context, now: int)
    requires P.Accepted(p, supplier, round, context, now)
    ensures var decoded := DecodeProposal(StoredAnswer(p));
      && decoded == StoredAnswer(p).proposal
      && decoded.value.supplier == supplier && decoded.value.round == round
      && DistinctAnswers(decoded.value.lines) && decoded.value.capacityPercent >= 1
  {
    hide P.Accepted;
    AcceptedLines(p, supplier, round, context, now);
    assert p.supplier == supplier && p.round == round by {
      AcceptedIdentity(p, supplier, round, context, now);
    }
    var lines := StoredAnswer(p).proposal.value.lines;
    forall line | line in lines ensures line.quantity > 0 && line.unitPriceMinor > 0 {
      var i :| 0 <= i < |lines| && lines[i] == line;
      assert p.lines[i] in p.lines;
    }
  }

  lemma AcceptedIdentity(p: P.Proposal, supplier: Supplier, round: Round, context: P.Context, now: int)
    requires P.Accepted(p, supplier, round, context, now)
    ensures p.supplier == supplier && p.round == round
  {
  }

  /** The database refuses no validated answer, whatever the run has stored before. */
  lemma ValidatedNeverThrows(t: Tables, job: Job, answer: Answer)
    requires job.TurnJob? && IsValidated(answer, job)
    ensures CommitTurn(t, job, answer).Some?
  {
    hide StoredAnswer, CommitTurn, P.Accepted, DistinctAnswers, HasOffer;
    CommitFailsIff(t, job, answer);
    if answer.status.Proposed? {
      var p, context, now :| P.Accepted(p, job.supplier, job.round, context, now) && answer == StoredAnswer(p);
      AcceptedIsDecoded(p, job.supplier, job.round, context, now);
    }
  }

  /**
   So whatever mix of proposals, refusals and timeouts comes back, serving the next job brings the run closer to its
   end.
   */
  lemma EveryValidatedAnswerHelps(t: Tables, answer: Answer)
    requires Inv(t) && !Finished(t) && NextJob(t).TurnJob? && IsValidated(answer, NextJob(t))
    ensures Remaining(Exec(t, [Deliver(NextJob(t)), Commit(NextJob(t), answer)])) < Remaining(t)
  {
    hide Inv, Exec, IsValidated, Remaining, CommitTurn;
    ValidatedNeverThrows(t, NextJob(t), answer);
    ServingHelps(t, answer);
  }

  /**
   What the database refuses of a decoded proposal: no capacity, or a repeated product in an offer that is not stored
   yet.
   */
  predicate Refused(t: Tables, p: AnswerProposal) {
    p.capacityPercent < 1 || (!HasOffer(t, p.supplier, p.round) && !DistinctAnswers(p.lines))
  }

  /**
   A commit fails exactly when it would record a turn of the running round whose decoded proposal the database refuses.
   */
  lemma CommitFailsIff(t: Tables, job: Job, answer: Answer)
    requires job.TurnJob?
    ensures CommitTurn(t, job, answer).None? <==>
      && t.state == StateForRound(job.round)
      && (job.supplier, job.round) !in t.turns
      && DecodeProposal(answer).Some?
      && Refused(t, DecodeProposal(answer).value)
  {
    hide AdvanceToRoundTwo, AdvanceToDecision, MaterializeS2Fulfillment, InsertOffer, DecodeProposal, DistinctAnswers;
  }

  /**
   Such answers exist: an offer without capacity passes the reader of stored answers and fails the commit of a fresh
   run.
   */
  lemma EmptyOfferFails(facts: Facts, job: Job, terms: Terms)
    requires job == TurnJob(S1, One, 1)
    ensures var line := AnswerLine("sku", 1, 1);
      CommitTurn(Start(facts), job, Answer(Proposed, Some(AnswerProposal(S1, One, 50, 0, terms, [line])))).None?
    ensures var line := AnswerLine("sku", 1, 1);
      CommitTurn(Start(facts), job, Answer(Proposed, Some(AnswerProposal(S1, One, 50, 100, terms, [line, line])))).None?
  {
    var line := AnswerLine("sku", 1, 1);
    var empty := Answer(Proposed, Some(AnswerProposal(S1, One, 50, 0, terms, [line])));
    var twice := Answer(Proposed, Some(AnswerProposal(S1, One, 50, 100, terms, [line, line])));
    assert forall l | l in [line, line] :: l == line;
    CommitFailsIff(Start(facts), job, empty);
    CommitFailsIff(Start(facts), job, twice);
    assert [line, line][0].productId == [line, line][1].productId;
  }
}
