/** What no step rewrites: a bet's terms are fixed when it is proposed, and once past OPEN it never returns to it. */
module BetTerms {
  import opened Tables
  import opened Ledger
  import opened Settlement
  import opened Escrows
  import opened BetExpiry
  import opened DisputeEscalation
  import opened Lifecycle
  import opened Protocol
  import opened History

  /** The row keeps its terms, and once past OPEN it does not come back to it. */
  predicate GoesOn(row: Bet, row': Bet) {
    && row'.game == row.game && row'.playerA == row.playerA && row'.amount == row.amount
    && row'.feePercent == row.feePercent && row'.expiresAt == row.expiresAt
    && (row.playerB.Some? ==> row'.playerB == row.playerB)
    && (row.status != PENDING_CONSENT ==> row'.status != PENDING_CONSENT)
    && (!row.status.CanHold() ==> !row'.status.CanHold())
  }

  ghost predicate GoesOnIn(s: State, t: State, bet: Id) {
    bet in s.bets ==> bet in t.bets && GoesOn(s.bets[bet], t.bets[bet])
  }

  lemma MatchingGoesOn(s: State, step: Step)
    requires IsMatching(step)
    ensures GoesOnIn(s, Apply(s, step), step.bet)
  {
    hide Books, AfterHold, AfterRuling, AfterRefundBoth, AfterUnderageVoid, AfterRefund, AfterNoShow,
      AutoVoidAttempt, SettleAttempt, AfterTransfer;
  }

  lemma NoShowGoesOn(s: State, bet: Id)
    ensures GoesOnIn(s, OrSame(s, AfterNoShow(s, bet)), bet)
  {
    hide Books, AfterRefundBoth;
  }

  lemma AutoVoidGoesOn(s: State, dispute: Id, bet: Id, locked: bool)
    ensures GoesOnIn(s, AutoVoidAttempt(s, dispute, bet, locked).Outcome(s), bet)
  {
    hide Books, AfterRefundBoth;
  }

  lemma UnderageGoesOn(s: State, bet: Id)
    ensures GoesOnIn(s, OrSame(s, AfterUnderageVoid(s, bet)), bet)
  {
    hide Books, AfterRefundBoth;
  }

  lemma VoidingGoesOn(s: State, step: Step)
    requires IsVoiding(step)
    ensures GoesOnIn(s, Apply(s, step), step.bet)
  {
    hide Books, AfterNoShow, AfterRefundBoth, AfterRuling, AfterRefund, SettleAttempt, AfterTransfer, AfterHold,
      AutoVoidAttempt, AfterUnderageVoid, AfterLobbyMatch, AfterDisputeFiled, AfterDecision, GoesOn;
    NoShowGoesOn(s, step.bet);
    Unmoved(s, step.bet);
    match step
    case AutoVoids(dispute, bet, locked) => AutoVoidGoesOn(s, dispute, bet, locked);
    case VoidsUnderage(bet) => UnderageGoesOn(s, bet);
    case _ =>
  }

  lemma Unmoved(s: State, bet: Id)
    ensures GoesOnIn(s, s, bet)
  {
  }

  lemma RulingGoesOn(s: State, dispute: Id, ruling: Ruling, now: int)
    requires dispute in s.disputes
    ensures GoesOnIn(s, OrSame(s, AfterRuling(s, dispute, ruling, now)), s.disputes[dispute].bet)
  {
    hide Books, AfterRefundBoth;
  }

  lemma SettlingGoesOn(s: State, bet: Id, locked: bool)
    ensures GoesOnIn(s, SettleAttempt(s, bet, locked).Outcome(s), bet)
  {
    hide Books, AfterMoney, Fees.PlatformFee, Fees.RefereeFee;
  }

  lemma PlainGoesOn(s: State, step: Step, bet: Id)
    requires !IsMatching(step) && !IsVoiding(step) && Target(s, step) == Some(bet)
    ensures GoesOnIn(s, Apply(s, step), bet)
  {
    hide Books, AfterNoShow, AfterRefundBoth, AfterRuling, AfterRefund, SettleAttempt, AfterTransfer, AfterHold,
      AutoVoidAttempt, AfterUnderageVoid, GoesOn;
    match step
    case SettlesBet(b, locked) => SettlingGoesOn(s, b, locked);
    case Rules(dispute, ruling, now) => RulingGoesOn(s, dispute, ruling, now);
    case _ => RowGoesOn(s, step, bet);
  }

  predicate IsRefereeing(step: Step) {
    step.Claims? || step.Advances? || step.Decides? || step.FilesDispute?
  }

  lemma RowGoesOn(s: State, step: Step, bet: Id)
    requires !IsMatching(step) && !IsVoiding(step) && !step.SettlesBet? && !step.Rules? && Target(s, step) == Some(bet)
    ensures GoesOnIn(s, Apply(s, step), bet)
  {
    hide Apply;
    if IsRefereeing(step) {
      RefereeingGoesOn(s, step, bet);
    } else {
      ReportingGoesOn(s, step, bet);
    }
  }

  /** Assignments move on without the bet's row, except when the referee decides. */
  lemma AssignmentMoves(s: State, bet: Id, referee: Id, start: bool, now: int)
    ensures GoesOnIn(s, OrSame(s, AfterClaim(s, bet, referee, now)), bet)
    ensures GoesOnIn(s, OrSame(s, AfterAdvance(s, bet, start, now)), bet)
  {
  }

  lemma DecisionMoves(s: State, bet: Id, outcome: BetOutcome, now: int)
    ensures GoesOnIn(s, OrSame(s, AfterDecision(s, bet, outcome, now)), bet)
  {
  }

  lemma FilingMoves(s: State, dispute: Id, bet: Id)
    ensures GoesOnIn(s, OrSame(s, AfterDisputeFiled(s, dispute, bet)), bet)
  {
  }

  lemma RefereeingGoesOn(s: State, step: Step, bet: Id)
    requires IsRefereeing(step) && Target(s, step) == Some(bet)
    ensures GoesOnIn(s, Apply(s, step), bet)
  {
    hide GoesOnIn, OrSame, AfterClaim, AfterAdvance, AfterDecision, AfterDisputeFiled;
    match step
    case Claims(b, referee, now) => AssignmentMoves(s, b, referee, false, now);
    case Advances(b, start, now) => AssignmentMoves(s, b, b, start, now);
    case Decides(b, outcome, now) => DecisionMoves(s, b, outcome, now);
    case FilesDispute(dispute, b) => FilingMoves(s, dispute, b);
  }

  lemma ReportingGoesOn(s: State, step: Step, bet: Id)
    requires !IsMatching(step) && !IsVoiding(step) && !IsRefereeing(step) && !step.SettlesBet? && !step.Rules?
    requires Target(s, step) == Some(bet)
    ensures GoesOnIn(s, Apply(s, step), bet)
  {
    hide Books, AfterNoShow, AfterRefundBoth, AfterRuling, AfterRefund, SettleAttempt, AfterTransfer, AfterHold,
      AutoVoidAttempt, AfterUnderageVoid, AfterLobbyMatch, AfterDisputeFiled, AfterDecision;
  }

  lemma StepGoesOn(s: State, step: Step, bet: Id)
    ensures GoesOnIn(s, Apply(s, step), bet)
  {
    hide Apply;
    if bet in s.bets {
      if Target(s, step) != Some(bet) {
        OthersStay(s, step, bet);
      } else if IsMatching(step) {
        MatchingGoesOn(s, step);
      } else if IsVoiding(step) {
        VoidingGoesOn(s, step);
      } else {
        PlainGoesOn(s, step, bet);
      }
    }
  }

  lemma {:induction false} RunGoesOn(s: State, steps: seq<Step>, bet: Id)
    ensures GoesOnIn(s, Run(s, steps), bet)
  {
    hide Apply;
    if steps != [] {
      var n := |steps| - 1;
      RunGoesOn(s, steps[..n], bet);
      StepGoesOn(Run(s, steps[..n]), steps[n], bet);
    }
  }

  // ---- the catalogue and the customers' texts -----------------------------

  predicate SameReference(s: State, t: State) {
    t.cat == s.cat && t.clientKeys == s.clientKeys
  }

  /** The two requests that file a row under a text of the customer's. */
  predicate IsRequest(step: Step) {
    step.RequestsDeposit? || step.CashesOut?
  }

  lemma VoidsKeepCatalogue(s: State, bet: Id)
    ensures AfterNoShow(s, bet).Done? ==> SameReference(s, AfterNoShow(s, bet).state)
    ensures AfterUnderageVoid(s, bet).Done? ==> SameReference(s, AfterUnderageVoid(s, bet).state)
  {
    hide Books, AfterRefundBoth;
  }

  lemma DisputesKeepCatalogue(s: State, dispute: Id, bet: Id, ruling: Ruling, now: int, locked: bool)
    ensures AfterRuling(s, dispute, ruling, now).Done? ==> SameReference(s, AfterRuling(s, dispute, ruling, now).state)
    ensures SameReference(s, AutoVoidAttempt(s, dispute, bet, locked).Outcome(s))
  {
    hide Books, AfterRefundBoth;
  }

  lemma LobbyKeepsCatalogue(s: State, bet: Id, row: Bet, reward: Option<int>, now: int)
    ensures var r := AfterLobbyMatch(s, bet, row, reward, now); r.Done? ==> SameReference(s, r.state)
  {
    hide Books, AfterHold;
  }

  lemma SettlingKeepsCatalogue(s: State, bet: Id, locked: bool)
    ensures SameReference(s, SettleAttempt(s, bet, locked).Outcome(s))
  {
    hide Books, AfterMoney, Fees.PlatformFee, Fees.RefereeFee;
  }

  lemma StepKeepsCatalogue(s: State, step: Step)
    ensures Apply(s, step).cat == s.cat
    ensures !IsRequest(step) ==> Apply(s, step).clientKeys == s.clientKeys
  {
    hide Apply;
    if IsVoiding(step) || step.Rules? || step.SettlesBet? {
      ClosingKeepsCatalogue(s, step);
    } else if IsMatching(step) {
      MatchingKeepsCatalogue(s, step);
    } else if IsRefereeing(step) {
      RefereeingKeepsCatalogue(s, step);
    } else {
      PlainKeepsCatalogue(s, step);
    }
  }

  lemma ClosingKeepsCatalogue(s: State, step: Step)
    requires IsVoiding(step) || step.Rules? || step.SettlesBet?
    ensures SameReference(s, Apply(s, step))
  {
    hide Books, AfterNoShow, AfterUnderageVoid, AfterRefundBoth, AfterRuling, AfterRefund, SettleAttempt,
      AfterTransfer, AfterHold, AutoVoidAttempt, AfterLobbyMatch;
    match step
    case NoShow(bet, _) => VoidsKeepCatalogue(s, bet);
    case Sweeps(bet, _, _) => VoidsKeepCatalogue(s, bet);
    case Withdraws(bet) => VoidsKeepCatalogue(s, bet);
    case VoidsUnderage(bet) => VoidsKeepCatalogue(s, bet);
    case AutoVoids(dispute, bet, locked) => DisputesKeepCatalogue(s, dispute, bet, ForVoid, 0, locked);
    case Rules(dispute, ruling, now) => DisputesKeepCatalogue(s, dispute, dispute, ruling, now, true);
    case SettlesBet(bet, locked) => SettlingKeepsCatalogue(s, bet, locked);
  }

  lemma MatchingKeepsCatalogue(s: State, step: Step)
    requires IsMatching(step)
    ensures SameReference(s, Apply(s, step))
  {
    hide Books, AfterNoShow, AfterUnderageVoid, AfterRefundBoth, AfterRuling, AfterRefund, SettleAttempt,
      AfterTransfer, AfterHold, AutoVoidAttempt, AfterLobbyMatch, AfterExpiry, AfterSweep;
    match step
    case MatchesInLobby(bet, row, reward, now) => LobbyKeepsCatalogue(s, bet, row, reward, now);
    case _ =>
  }

  lemma RefereeingKeepsCatalogue(s: State, step: Step)
    requires IsRefereeing(step)
    ensures SameReference(s, Apply(s, step))
  {
    hide Books, AfterNoShow, AfterUnderageVoid, AfterRefundBoth, AfterRuling, AfterRefund, SettleAttempt,
      AfterTransfer, AfterHold, AutoVoidAttempt, AfterLobbyMatch, AfterExpiry, AfterSweep;
  }

  lemma PlainKeepsCatalogue(s: State, step: Step)
    requires !IsVoiding(step) && !step.Rules? && !step.SettlesBet? && !IsMatching(step) && !IsRefereeing(step)
    ensures Apply(s, step).cat == s.cat && (!IsRequest(step) ==> Apply(s, step).clientKeys == s.clientKeys)
  {
    hide Books, AfterNoShow, AfterUnderageVoid, AfterRefundBoth, AfterRuling, AfterRefund, SettleAttempt,
      AfterTransfer, AfterHold, AutoVoidAttempt, AfterLobbyMatch, AfterDisputeFiled, AfterDecision;
  }

  lemma {:induction false} RunKeepsCatalogue(s: State, steps: seq<Step>)
    ensures Run(s, steps).cat == s.cat
  {
    hide Apply;
    if steps != [] {
      var n := |steps| - 1;
      RunKeepsCatalogue(s, steps[..n]);
      StepKeepsCatalogue(Run(s, steps[..n]), steps[n]);
    }
  }
}
