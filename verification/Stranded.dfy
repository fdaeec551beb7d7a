/** Two ways a bet can be stuck for good: an escrow with nothing in it, and a fee that is the whole pot. */
module Stranded {
  import opened Tables
  import opened Ledger
  import opened Fees
  import opened Escrows
  import opened Settlement
  import opened BetExpiry
  import opened DisputeEscalation
  import opened Lifecycle
  import opened Invariant
  import opened MoneySteps
  import opened SettlementEffect
  import opened Protocol
  import opened Safety
  import opened History
  import opened BetTerms
  import opened Runs
  import opened Scenario

  // ---- nothing in escrow --------------------------------------------------

  /** Past OPEN, nothing more can be put in a bet's escrow; with nothing in it, nothing can be paid out. */
  ghost predicate Drained(s: State, bet: Id) {
    bet in s.bets && !s.bets[bet].status.CanHold() && s.bets[bet].amount > 0 && Bal(s, Escrow(bet)) == 0
  }

  lemma DrainedRefuses(s: State, bet: Id, player: Id, amount: int, key: Key, movement: Movement)
    requires bet in s.bets && Bal(s, Escrow(bet)) == 0
    ensures AfterRefund(s, bet, player, amount, key).Fail?
    ensures AfterHold(s, bet, player, amount, movement).Done? ==> s.bets[bet].status.CanHold()
  {
    hide Books;
  }

  lemma DrainedSettlementFails(s: State, bet: Id, locked: bool)
    requires Drained(s, bet)
    ensures !SettleAttempt(s, bet, locked).Committed?
  {
    hide Books, AfterMoney;
  }

  lemma DrainedNoShow(s: State, bet: Id)
    requires Drained(s, bet)
    ensures OrSame(s, AfterNoShow(s, bet)).balances == s.balances
  {
    hide Books, AfterRefund;
    var u := WithStatus(CancelLiveAssignment(s, bet), bet, VOIDED);
    DrainedRefuses(u, bet, s.bets[bet].playerA, s.bets[bet].amount, BetKey(NoShowA, bet), HoldA);
  }

  lemma DrainedUnderage(s: State, bet: Id)
    requires Drained(s, bet)
    ensures OrSame(s, AfterUnderageVoid(s, bet)).balances == s.balances
  {
    hide Books, AfterRefund;
    var u := CancelOpenAssignment(WithStatus(s, bet, VOIDED), bet);
    DrainedRefuses(u, bet, s.bets[bet].playerA, s.bets[bet].amount, BetKey(UnderageA, bet), HoldA);
  }

  lemma DrainedAutoVoid(s: State, dispute: Id, bet: Id, locked: bool)
    requires Drained(s, bet)
    ensures AutoVoidAttempt(s, dispute, bet, locked).Outcome(s).balances == s.balances
  {
    hide Books, AfterRefund;
    var row := s.bets[bet];
    DrainedRefuses(WithStatus(s, bet, VOIDED), bet, row.playerA, row.amount, BetKey(DisputeVoidA, bet), HoldA);
  }

  lemma DrainedRuling(s: State, dispute: Id, bet: Id, ruling: Ruling, now: int)
    requires Drained(s, bet) && dispute in s.disputes && s.disputes[dispute].bet == bet
    ensures OrSame(s, AfterRuling(s, dispute, ruling, now)).balances == s.balances
  {
    hide Books, AfterRefund;
    var row := s.bets[bet];
    var decided := Resolved(s, dispute, RESOLVED_VOID);
    DrainedRefuses(decided, bet, row.playerA, row.amount, ResolveKey(true, dispute), HoldA);
    DrainedRefuses(WithStatus(decided, bet, VOIDED), bet, row.playerA, row.amount, ResolveKey(true, dispute), HoldA);
  }

  lemma VoidingMovesNothing(s: State, step: Step)
    requires IsVoiding(step) && Drained(s, step.bet)
    ensures Apply(s, step).balances == s.balances
  {
    hide Books, AfterNoShow, AfterUnderageVoid, AutoVoidAttempt, Drained;
    DrainedNoShow(s, step.bet);
    match step
    case VoidsUnderage(bet) => DrainedUnderage(s, bet);
    case AutoVoids(dispute, bet, locked) => DrainedAutoVoid(s, dispute, bet, locked);
    case _ =>
  }

  lemma MatchingMovesNothing(s: State, step: Step)
    requires IsMatching(step) && Drained(s, step.bet)
    ensures Apply(s, step).balances == s.balances
  {
    hide Books, AfterHold;
  }

  lemma PayingMovesNothing(s: State, step: Step, bet: Id)
    requires Target(s, step) == Some(bet) && IsPaying(step) && Drained(s, bet)
    ensures Apply(s, step).balances == s.balances
  {
    hide Books, SettleAttempt, AfterRuling, AfterRefund;
    match step
    case Expires(_, _) =>
    case SettlesBet(_, locked) => DrainedSettlementFails(s, bet, locked);
    case Rules(dispute, ruling, now) => DrainedRuling(s, dispute, bet, ruling, now);
  }

  /** No step aimed at a drained bet moves any money at all. */
  lemma TargetMovesNothing(s: State, step: Step, bet: Id)
    requires Target(s, step) == Some(bet) && Drained(s, bet)
    ensures Apply(s, step).balances == s.balances
  {
    hide Apply, Drained, SameBooks;
    if IsMatching(step) {
      MatchingMovesNothing(s, step);
    } else if IsVoiding(step) {
      VoidingMovesNothing(s, step);
    } else if IsPaying(step) {
      PayingMovesNothing(s, step, bet);
    } else {
      RowsKeepLedger(s, step);
      SameBooksSameBalances(s, Apply(s, step));
    }
  }

  lemma SameBooksSameBalances(s: State, t: State)
    requires SameBooks(s, t)
    ensures t.balances == s.balances
  {
  }

  lemma StepStaysDrained(s: State, step: Step, bet: Id)
    requires Drained(s, bet)
    ensures Drained(Apply(s, step), bet)
  {
    hide Apply, RoutedTxn;
    StepGoesOn(s, step, bet);
    if Target(s, step) == Some(bet) {
      TargetMovesNothing(s, step, bet);
      BalSame(s, Apply(s, step));
    } else {
      StepAppends(s, step, if Target(s, step).Some? then Target(s, step).value else Elsewhere(bet));
    }
  }

  /** Whatever runs, rulings that reopen included, the bet's escrow stays empty and it never settles. */
  lemma {:induction false} DrainedForGood(s: State, steps: seq<Step>, bet: Id, locked: bool)
    requires Drained(s, bet)
    ensures Drained(Run(s, steps), bet)
    ensures !SettleAttempt(Run(s, steps), bet, locked).Committed?
  {
    hide Apply, Drained, SettleAttempt;
    if steps != [] {
      var n := |steps| - 1;
      DrainedForGood(s, steps[..n], bet, locked);
      StepStaysDrained(Run(s, steps[..n]), steps[n], bet);
    }
    DrainedSettlementFails(Run(s, steps), bet, locked);
  }

  /** So a bet that has been paid out or refunded and is then reopened can never be settled again. */
  lemma ReopenedNeverSettles(s: State, dispute: Id, ruling: Ruling, now: int, steps: seq<Step>, locked: bool)
    requires Sound(s) && Reopens(s, Rules(dispute, ruling, now))
    ensures var bet, t := s.disputes[dispute].bet, Run(Apply(s, Rules(dispute, ruling, now)), steps);
            Bal(t, Escrow(bet)) == 0 && !SettleAttempt(t, bet, locked).Committed?
  {
    hide Sound, Apply, SettleAttempt, Run;
    var bet := s.disputes[dispute].bet;
    LeftIsDrained(s, bet);
    StepStaysDrained(s, Rules(dispute, ruling, now), bet);
    DrainedForGood(Apply(s, Rules(dispute, ruling, now)), steps, bet, locked);
  }

  lemma LeftIsDrained(s: State, bet: Id)
    requires Sound(s) && bet in s.bets && s.bets[bet].status.IsTerminal()
    ensures Drained(s, bet)
  {
    assert RowSound(s, bet);
  }

  // ---- a fee that is the whole pot ----------------------------------------

  predicate FeeIsPot(row: Bet) {
    PlatformFee(row.amount, row.feePercent) == 2 * row.amount
  }

  /** Then there is nothing to pay out, and a payout of nothing is refused whatever the outcome. */
  lemma WholePotFails(s: State, bet: Id, locked: bool)
    requires bet in s.bets && FeeIsPot(s.bets[bet])
    ensures !SettleAttempt(s, bet, locked).Committed?
  {
    hide Books, AfterCuts, PlatformFee, RefereeFee;
    if Settles(s, bet) {
      var fee := 2 * s.bets[bet].amount;
      var r := AfterCuts(s, bet, fee, RefereeFee(fee, AssignmentOf(s, bet)));
      if r.Done? {
        NothingLeftFails(r.state, bet);
      }
    }
  }

  lemma NothingLeftFails(s: State, bet: Id)
    requires Settles(s, bet)
    ensures AfterPayouts(s, bet, 0) == Fail(NonPositiveAmount)
  {
    hide Books, AfterTransfer;
  }

  /** The stake and the percentage are fixed when the bet is made, so no run ever settles it. */
  lemma WholePotNeverSettles(s: State, steps: seq<Step>, bet: Id, locked: bool)
    requires bet in s.bets && FeeIsPot(s.bets[bet])
    ensures !SettleAttempt(Run(s, steps), bet, locked).Committed?
  {
    hide Run, SettleAttempt;
    RunGoesOn(s, steps, bet);
    WholePotFails(Run(s, steps), bet, locked);
  }

  /** With no account frozen, the error is the refused payout unless a customer has the text of an earlier key. */
  lemma WholePotError(s: State, bet: Id)
    requires Sound(s) && Settles(s, bet) && FeeIsPot(s.bets[bet]) && s.cat.frozen == {}
    ensures RowsKnown(s, bet)
    ensures SettleAttempt(s, bet, true)
            == Failed(if CutsUnclaimed(s, bet, TermsOf(s, bet)) then NonPositiveAmount else KeyConflict)
  {
    hide Sound, Books, AfterCuts, AfterPayouts, PlatformFee, RefereeFee, DeveloperShare, PayoutA, PayoutB,
      CutsTaken, CutsUnclaimed;
    SoundParts(s);
    RowsAreKnown(s, bet);
    UnsettledEscrow(s, bet);
    CutsExact(s, bet);
    var fee := 2 * s.bets[bet].amount;
    var r := AfterCuts(s, bet, fee, RefereeFee(fee, AssignmentOf(s, bet)));
    if r.Done? {
      NothingLeftFails(r.state, bet);
    }
  }

  /** A stake of 100 at a fee of the whole pot: reached from an empty database, refused now and after any later run. */
  lemma WholePotIsReachable(later: seq<Step>)
    ensures Initial(Empty()) && NeverReopens(Empty(), Opening(WHOLE))
    ensures var t := Run(Empty(), Opening(WHOLE));
            && Legal(t) && Settles(t, M) && SettleAttempt(t, M, true) == Failed(NonPositiveAmount)
            && !SettleAttempt(Run(t, later), M, true).Committed?
  {
    hide Apply, Run, Legal, SettleAttempt, Opening, FeeIsPot, Staked, CutsUnclaimed, TermsOf;
    OpeningRuns(WHOLE);
    OpeningIsLegal(WHOLE, []);
    assert Opening(WHOLE) + [] == Opening(WHOLE);
    var t := Run(Empty(), Opening(WHOLE));
    LegalParts(t);
    RunKeepsCatalogue(Empty(), Opening(WHOLE));
    DecidedSettles(t, WHOLE);
    WholeIsPot(t.bets[M]);
    WholePotError(t, M);
    NobodysTexts(t, M, TermsOf(t, M));
    WholePotNeverSettles(t, later, M, true);
  }

  lemma NobodysTexts(t: State, bet: Id, terms: Terms)
    requires t.clientKeys == {}
    ensures CutsUnclaimed(t, bet, terms)
  {
  }

  lemma DecidedSettles(t: State, percent: int)
    requires Decided(t, percent)
    ensures t.clientKeys == {}
    ensures Settles(t, M) && t.bets[M].amount == 100 && t.bets[M].feePercent == percent
  {
  }

  lemma WholeIsPot(row: Bet)
    requires row.amount == 100 && row.feePercent == WHOLE
    ensures FeeIsPot(row)
  {
  }
}
