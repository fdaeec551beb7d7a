/** A bet whose result came from a referee still has that referee when it settles. */
module Staffing {
  import opened Tables
  import opened Ledger
  import opened Settlement
  import opened Escrows
  import opened BetExpiry
  import opened DisputeEscalation
  import opened Lifecycle
  import opened Invariant
  import opened Protocol
  import opened Safety
  import opened History

  /** An assignment that somebody took is somebody's until it is put back or cancelled, and behind a result for good. */
  ghost predicate Staffed(s: State) {
    forall b :: b in s.assignments ==>
      && b in s.bets
      && (!s.assignments[b].status.ASG_OPEN? && !s.assignments[b].status.ASG_CANCELLED? ==>
            s.assignments[b].referee.Some?)
      && (s.bets[b].status.HasResult() ==> s.assignments[b].referee.Some?)
  }

  lemma LobbyStaffs(s: State, bet: Id, row: Bet, reward: Option<int>, now: int)
    requires Staffed(s)
    ensures Staffed(OrSame(s, AfterLobbyMatch(s, bet, row, reward, now)))
  {
    hide Books, AfterHold;
  }

  lemma HoldingStaffs(s: State, bet: Id, player: Id)
    requires Staffed(s)
    ensures Staffed(OrSame(s, AfterConsent(s, bet)))
    ensures Staffed(OrSame(s, AfterAccept(s, bet, player)))
  {
    hide Books, AfterHold;
  }

  lemma MatchingStaffs(s: State, step: Step)
    requires Staffed(s) && IsMatching(step)
    ensures Staffed(Apply(s, step))
  {
    hide Books, AfterConsent, AfterAccept, AfterLobbyMatch;
    match step
    case Proposes(_, _) =>
    case Consents(b) => HoldingStaffs(s, b, b);
    case Accepts(b, player) => HoldingStaffs(s, b, player);
    case MatchesInLobby(b, row, reward, now) => LobbyStaffs(s, b, row, reward, now);
  }

  /** A void writes VOIDED to the bet and at most CANCELLED to its assignment. */
  predicate VoidsRows(s: State, t: State, bet: Id) {
    && bet in s.bets && t.bets == s.bets[bet := s.bets[bet].(status := VOIDED)]
    && (t.assignments == s.assignments
        || (bet in s.assignments
            && t.assignments == s.assignments[bet := s.assignments[bet].(status := ASG_CANCELLED)]))
  }

  lemma VoidStaffs(s: State, t: State, bet: Id)
    requires Staffed(s) && VoidsRows(s, t, bet)
    ensures Staffed(t)
  {
  }

  lemma NoShowStaffs(s: State, bet: Id)
    requires Staffed(s)
    ensures Staffed(OrSame(s, AfterNoShow(s, bet)))
  {
    hide Books, AfterRefundBoth, Staffed;
    var r := AfterNoShow(s, bet);
    if r.Done? && IsUnplayed(s, bet) {
      VoidStaffs(s, r.state, bet);
    }
  }

  lemma AutoVoidStaffs(s: State, dispute: Id, bet: Id, locked: bool)
    requires Staffed(s)
    ensures Staffed(AutoVoidAttempt(s, dispute, bet, locked).Outcome(s))
  {
    hide Books, AfterRefundBoth;
  }

  lemma UnderageStaffs(s: State, bet: Id)
    requires Staffed(s)
    ensures Staffed(OrSame(s, AfterUnderageVoid(s, bet)))
  {
    hide Books, AfterRefundBoth, Staffed;
    var r := AfterUnderageVoid(s, bet);
    if r.Done? && s.bets[bet].status.IsUnsettled() {
      VoidStaffs(s, r.state, bet);
    }
  }

  lemma SweepStaffs(s: State, bet: Id, now: int)
    requires Staffed(s)
    ensures Staffed(OrSame(s, AfterSweep(s, bet, now)))
  {
    hide Books, AfterNoShow;
    NoShowStaffs(s, bet);
  }

  lemma VoidingStaffs(s: State, step: Step)
    requires Staffed(s) && IsVoiding(step)
    ensures Staffed(Apply(s, step))
  {
    hide Books, AfterNoShow, AfterSweep, AutoVoidAttempt, AfterUnderageVoid, Staffed;
    match step
    case NoShow(b, _) => NoShowStaffs(s, b);
    case Sweeps(b, now, _) => SweepStaffs(s, b, now);
    case AutoVoids(dispute, b, locked) => AutoVoidStaffs(s, dispute, b, locked);
    case Withdraws(b) => NoShowStaffs(s, b);
    case VoidsUnderage(b) => UnderageStaffs(s, b);
  }

  lemma ClosingStaffs(s: State, u: State, bet: Id, fee: int, refereeFee: int)
    requires Staffed(s) && OnlyLedger(s, u) && bet in s.bets
    ensures var r := AfterClose(u, bet, fee, refereeFee); r.Done? ==> Staffed(r.state)
  {
    hide Books, AfterClose;
    CloseRows(u, bet, fee, refereeFee);
  }

  lemma SettlingStaffs(s: State, bet: Id, locked: bool)
    requires Staffed(s)
    ensures Staffed(SettleAttempt(s, bet, locked).Outcome(s))
  {
    hide Books, AfterMoney, AfterClose, Fees.PlatformFee, Fees.RefereeFee, Staffed;
    if SettleAttempt(s, bet, locked).Committed? {
      var fee := Fees.PlatformFee(s.bets[bet].amount, s.bets[bet].feePercent);
      var refereeFee := Fees.RefereeFee(fee, AssignmentOf(s, bet));
      ClosingStaffs(s, AfterMoney(s, bet, fee, refereeFee).state, bet, fee, refereeFee);
    }
  }

  lemma OutcomeStaffs(s: State, t: State, bet: Id)
    requires Staffed(s) && bet in s.bets && (bet in s.assignments ==> s.bets[bet].status.HasResult())
    requires bet in t.bets && t.bets == s.bets[bet := t.bets[bet]]
    requires t.assignments.Keys == s.assignments.Keys
    requires forall b :: b in s.assignments ==>
               t.assignments[b] == s.assignments[b]
               || (b == bet && t.assignments[b].referee == s.assignments[b].referee)
    ensures Staffed(t)
  {
  }

  /** A ruling finds the referee in place unless it reopens a bet that was voided before anyone took it. */
  lemma RulingStaffs(s: State, dispute: Id, ruling: Ruling, now: int)
    requires Staffed(s) && RowsSound(s) && !Reopens(s, Rules(dispute, ruling, now))
    ensures Staffed(OrSame(s, AfterRuling(s, dispute, ruling, now)))
  {
    hide Books, AfterRefundBoth, RowsSound, Staffed;
    var r := AfterRuling(s, dispute, ruling, now);
    if r.Done? {
      var bet := s.disputes[dispute].bet;
      DisputedHasResult(s, dispute);
      if ruling.ForVoid? && s.bets[bet].status == DISPUTED {
        VoidStaffs(s, r.state, bet);
      } else {
        OutcomeStaffs(s, r.state, bet);
      }
    }
  }

  lemma DisputedHasResult(s: State, dispute: Id)
    requires RowsSound(s) && dispute in s.disputes
    ensures var bet := s.disputes[dispute].bet;
            bet in s.bets && (s.bets[bet].status.HasResult() || s.bets[bet].status == VOIDED)
  {
    assert DisputeSound(s, dispute);
  }

  lemma DecisionStaffs(s: State, bet: Id, outcome: BetOutcome, now: int)
    requires Staffed(s)
    ensures Staffed(OrSame(s, AfterDecision(s, bet, outcome, now)))
  {
  }

  lemma FilingStaffs(s: State, dispute: Id, bet: Id)
    requires Staffed(s)
    ensures Staffed(OrSame(s, AfterDisputeFiled(s, dispute, bet)))
  {
  }

  lemma AssigningStaffs(s: State, bet: Id, referee: Id, start: bool, now: int)
    requires Staffed(s)
    ensures Staffed(OrSame(s, AfterClaim(s, bet, referee, now)))
    ensures Staffed(OrSame(s, AfterAdvance(s, bet, start, now)))
  {
  }

  lemma RefereeingStaffs(s: State, step: Step)
    requires Staffed(s) && (step.Claims? || step.Advances? || step.Decides? || step.FilesDispute?)
    ensures Staffed(Apply(s, step))
  {
    hide Books, AfterClaim, AfterAdvance, AfterDecision, AfterDisputeFiled, Staffed;
    match step
    case Claims(bet, referee, now) => AssigningStaffs(s, bet, referee, false, now);
    case Advances(bet, start, now) => AssigningStaffs(s, bet, bet, start, now);
    case Decides(bet, outcome, now) => DecisionStaffs(s, bet, outcome, now);
    case FilesDispute(dispute, bet) => FilingStaffs(s, dispute, bet);
  }

  lemma PlainStaffs(s: State, step: Step)
    requires Staffed(s) && !IsMatching(step) && !IsVoiding(step) && !step.SettlesBet? && !step.Rules?
    requires !step.Claims? && !step.Advances? && !step.Decides? && !step.FilesDispute?
    ensures Staffed(Apply(s, step))
  {
    hide Books, AfterRefund, AfterRuling, AfterTransfer, AfterNoShow, AutoVoidAttempt, SettleAttempt,
      AfterUnderageVoid, AfterHold, AfterLobbyMatch, AfterDisputeFiled, AfterDecision;
  }

  lemma StepStaffs(s: State, step: Step)
    requires Staffed(s) && RowsSound(s) && !Reopens(s, step)
    ensures Staffed(Apply(s, step))
  {
    hide Staffed, RowsSound, Reopens, AfterRuling, SettleAttempt, AfterLobbyMatch, AfterDisputeFiled, Books;
    if IsMatching(step) {
      MatchingStaffs(s, step);
    } else if IsVoiding(step) {
      VoidingStaffs(s, step);
    } else if step.Claims? || step.Advances? || step.Decides? || step.FilesDispute? {
      RefereeingStaffs(s, step);
    } else if step.SettlesBet? {
      SettlingStaffs(s, step.bet, step.locked);
    } else if step.Rules? {
      RulingStaffs(s, step.dispute, step.ruling, step.now);
    } else {
      PlainStaffs(s, step);
    }
  }
}
