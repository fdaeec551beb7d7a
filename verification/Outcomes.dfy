/** What a result comes to: whom its settlement pays, when it is due, and how long it can be disputed. */
module Outcomes {
  import opened Tables
  import opened Ledger
  import opened Fees
  import opened Settlement
  import opened SettlementEffect
  import opened SettlementScan
  import opened ConsentExpiry
  import opened BetExpiry
  import opened Lifecycle
  import opened Invariant
  import opened MoneySteps
  import opened Protocol
  import opened BetTerms
  import opened Safety
  import opened History
  import opened Transitions
  import opened Runs

  // ---- whom a result pays -------------------------------------------------

  /** All that the fee leaves goes to the named winner, or half to each, player A's the larger by a penny at most. */
  predicate PaysOutcome(terms: Terms, outcome: BetOutcome) {
    var left := terms.pot - terms.fee;
    match outcome
    case PLAYER_A_WIN => terms.payA == left && terms.payB == 0
    case PLAYER_B_WIN => terms.payA == 0 && terms.payB == left
    case DRAW => terms.payA + terms.payB == left && terms.payB <= terms.payA <= terms.payB + 1
  }

  lemma ResultStepKeepsMoney(s: State, step: Step)
    requires ResultOf(step).Some?
    ensures Apply(s, step).balances == s.balances && Apply(s, step).cat == s.cat
  {
    hide Books, AfterRefundBoth;
  }

  /** Whoever a report, the referee or a dispute's ruling names is the one the settlement of that result pays. */
  lemma ResultPays(s: State, step: Step, bet: Id)
    requires Sound(s) && !Reopens(s, step) && Target(s, step) == Some(bet) && ResultOf(step).Some?
    requires bet in s.bets && bet in Apply(s, step).bets && Apply(s, step).bets[bet] != s.bets[bet]
    requires SettleAttempt(Apply(s, step), bet, true).Committed?
    ensures var t := Apply(s, step);
            && RowsKnown(t, bet) && TermsFit(t, bet) && PaysOutcome(TermsOf(t, bet), ResultOf(step).value.0)
            && TermsOf(t, bet).playerA == s.bets[bet].playerA && s.bets[bet].playerB == Some(TermsOf(t, bet).playerB)
            && forall a: Account ::
                 Bal(SettleAttempt(t, bet, true).state, a) == Bal(s, a) + Due(TermsOf(t, bet), bet, a)
  {
    hide Sound, Apply, Reopens, AfterSettlement, Payable, Bal, Due, TermsFit, RowMoves, TermsOf, Target;
    var t := Apply(s, step);
    StepKeepsSound(s, step);
    ResultStepKeepsMoney(s, step);
    BalSame(s, t);
    SettlementExact(t, bet);
    StepMoves(s, step);
    ResultWritten(s, t, step, bet);
    StepGoesOn(s, step, bet);
    FitsOutcome(t, bet);
    TermsNamePlayers(t, bet);
  }

  lemma ResultWritten(s: State, t: State, step: Step, bet: Id)
    requires Follows(s, t, step) && ResultOf(step).Some? && bet in s.bets
    requires bet in t.bets && t.bets[bet] != s.bets[bet]
    ensures t.bets[bet].outcome == Some(ResultOf(step).value.0)
    ensures t.bets[bet].playerB == s.bets[bet].playerB
  {
    hide AssignmentsMove, DisputesMove, BetMoves;
  }

  lemma FitsOutcome(t: State, bet: Id)
    requires RowsKnown(t, bet) && TermsFit(t, bet)
    ensures PaysOutcome(TermsOf(t, bet), t.bets[bet].outcome.value)
  {
    hide TermsOf;
  }

  lemma TermsNamePlayers(t: State, bet: Id)
    requires RowsKnown(t, bet)
    ensures TermsOf(t, bet).playerA == t.bets[bet].playerA && TermsOf(t, bet).playerB == t.bets[bet].playerB.value
  {
    hide PlatformFee, RefereeFee, DeveloperShare, PayoutA, PayoutB;
  }

  // ---- when a result is due, and until when it can be disputed ------------

  lemma NoDisputesYet(s: State, bet: Id)
    requires Sound(s) && bet in s.bets && s.bets[bet].status == MATCHED
    ensures forall d :: d in s.disputes ==> s.disputes[d].bet != bet
  {
    forall d | d in s.disputes
      ensures s.disputes[d].bet != bet
    {
      assert DisputeSound(s, d);
    }
  }

  /** A report the widget confirmed is due two minutes later, any other never; both can be disputed for a day. */
  lemma ReportIsDue(s: State, bet: Id, outcome: BetOutcome, verified: bool, at: int, now: int)
    requires Sound(s) && AfterReport(s, bet, outcome, verified, at).Done?
    ensures var t := AfterReport(s, bet, outcome, verified, at).state;
            && (Selected(t, bet, now) <==> verified && at + SETTLEMENT_DELAY < now)
            && (RouteAdmits(t, bet, now) <==> now <= at + FILING_WINDOW)
  {
    hide Sound;
    NoDisputesYet(s, bet);
  }

  /** Confirming a report late makes it due by its own time, unless somebody disputes it. */
  lemma VerificationMakesDue(s: State, bet: Id, now: int)
    requires Sound(s) && AfterVerification(s, bet).Done? && bet !in s.assignments
    ensures s.bets[bet].reportedAt.Some?
    ensures var t := AfterVerification(s, bet).state;
            && (Selected(t, bet, now)
                <==> s.bets[bet].reportedAt.value + SETTLEMENT_DELAY < now && !HasUndecidedDispute(s, bet))
            && (s.bets[bet].verified || !Selected(s, bet, now))
  {
    assert RowSound(s, bet);
    var t := AfterVerification(s, bet).state;
    assert HasUndecidedDispute(t, bet) == HasUndecidedDispute(s, bet);
  }

  /** A referee's decision can be disputed until the moment from which it is due, and not a moment longer. */
  lemma DecisionHandsOver(s: State, bet: Id, outcome: BetOutcome, at: int, now: int)
    requires Sound(s) && AfterDecision(s, bet, outcome, at).Done?
    ensures var t := AfterDecision(s, bet, outcome, at).state;
            && (RouteAdmits(t, bet, now) <==> now < at + DISPUTE_WINDOW)
            && (Selected(t, bet, now) <==> !RouteAdmits(t, bet, now))
  {
    hide Sound;
    NoDisputesYet(s, bet);
  }

  /** A ruling for one side is final: from its own moment on the route takes no further dispute of it. */
  lemma RulingIsFinal(s: State, dispute: Id, ruling: Ruling, at: int, now: int)
    requires dispute in s.disputes && s.disputes[dispute].bet in s.assignments && s.disputes[dispute].bet in s.bets
    requires ruling != ForVoid && at <= now
    ensures var r := AfterRuling(s, dispute, ruling, at); r.Done? && !RouteAdmits(r.state, s.disputes[dispute].bet, now)
  {
    hide Books, AfterRefundBoth;
  }

  // ---- over whole runs ----------------------------------------------------

  /** Whatever was paid out had an outcome, was verified, and gave up exactly its own fee. */
  lemma PaidWasVerified(s: State, steps: seq<Step>, bet: Id)
    requires Initial(s) && NeverReopens(s, steps) && bet in Run(s, steps).bets
    ensures var row := Run(s, steps).bets[bet];
            && (row.status == SETTLED ==>
                  row.verified && row.outcome.Some? && row.feeTaken == Some(PlatformFee(row.amount, row.feePercent)))
            && (Settles(Run(s, steps), bet) <==> row.status == RESULT_REPORTED && row.verified)
  {
    hide Run, NeverReopens, Legal, RowsSound, PlatformFee;
    InitialIsLegal(s);
    RunKeepsLegal(s, steps);
    LegalParts(Run(s, steps));
    RowIsSound(Run(s, steps), bet);
  }

  /** An offer nobody consented to in time is cancelled for good and nobody ever pays into it. */
  lemma LapseIsFinal(s: State, bet: Id, steps: seq<Step>)
    requires Legal(s) && bet in s.bets && s.bets[bet].status == PENDING_CONSENT
    requires NeverReopens(AfterConsentExpiry(s, bet), steps)
    ensures var t := Run(AfterConsentExpiry(s, bet), steps);
            && bet in t.bets && t.bets[bet].status == CANCELLED && Bal(t, Escrow(bet)) == 0
            && forall i :: |s.entries| <= i < |t.entries| ==> t.entries[i].account != Escrow(bet)
  {
    hide Run, NeverReopens, Legal, RowsSound, Bal, Apply;
    var u := AfterConsentExpiry(s, bet);
    assert Apply(s, ConsentExpires(bet)) == u by { LapseApplies(s, bet); }
    NotReopening(s, bet);
    StepKeepsLegal(s, ConsentExpires(bet));
    RunKeepsLegal(u, steps);
    LeavesOnce(u, steps, bet);
    LegalParts(Run(u, steps));
    EscrowIsHeld(Run(u, steps), bet);
  }

  lemma LapseApplies(s: State, bet: Id)
    ensures Apply(s, ConsentExpires(bet)) == AfterConsentExpiry(s, bet)
  {
  }

  lemma NotReopening(s: State, bet: Id)
    ensures !Reopens(s, ConsentExpires(bet))
  {
  }
}
