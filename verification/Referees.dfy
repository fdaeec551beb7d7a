/** A refereed bet's assignment follows the bet, and is closed for good when the bet is. */
module Referees {
  import opened Tables
  import opened Ledger
  import opened Escrows
  import opened Settlement
  import opened BetExpiry
  import opened DisputeEscalation
  import opened Lifecycle
  import opened Invariant
  import opened VoidSteps
  import opened VoidConditions
  import opened Protocol
  import opened History
  import opened Runs

  /** The assignment's status in each phase of its bet; there is none before the match. */
  predicate Fits(bet: BetStatus, assignment: AssignmentStatus) {
    match bet
    case MATCHED => assignment.IsLive()
    case RESULT_REPORTED => assignment.ASG_DECISION_SUBMITTED?
    case DISPUTED => assignment.ASG_DISPUTED?
    case SETTLED => assignment.ASG_COMPLETED?
    case VOIDED => assignment.ASG_CANCELLED?
    case _ => false
  }

  ghost predicate Officiated(s: State) {
    forall b :: b in s.assignments ==> b in s.bets && Fits(s.bets[b].status, s.assignments[b].status)
  }

  /** Filing on a refereed bet that has been settled marks the completed assignment as disputed. */
  predicate FilesLate(s: State, step: Step) {
    && step.FilesDispute? && step.dispute !in s.disputes
    && step.bet in s.assignments && step.bet in s.bets && s.bets[step.bet].status == SETTLED
  }

  lemma LobbyOfficiates(s: State, bet: Id, row: Bet, reward: Option<int>, now: int)
    requires Officiated(s)
    ensures Officiated(OrSame(s, AfterLobbyMatch(s, bet, row, reward, now)))
  {
    hide Books, AfterHold;
  }

  lemma MatchingOfficiates(s: State, step: Step)
    requires Officiated(s) && IsMatching(step)
    ensures Officiated(Apply(s, step))
  {
    hide Books, AfterHold, AfterLobbyMatch, AfterRuling, AfterRefundBoth, AfterUnderageVoid, AfterRefund,
      AfterNoShow, AutoVoidAttempt, SettleAttempt, AfterTransfer;
    match step
    case MatchesInLobby(bet, row, reward, now) => LobbyOfficiates(s, bet, row, reward, now);
    case _ =>
  }

  lemma NoShowOfficiates(s: State, bet: Id)
    requires Officiated(s)
    ensures Officiated(OrSame(s, AfterNoShow(s, bet)))
  {
    hide Books, AfterRefundBoth;
  }

  lemma AutoVoidOfficiates(s: State, dispute: Id, bet: Id, locked: bool)
    requires Officiated(s)
    ensures Officiated(AutoVoidAttempt(s, dispute, bet, locked).Outcome(s))
  {
    hide Books, AfterRefundBoth;
  }

  lemma UnderageOfficiates(s: State, bet: Id)
    requires Officiated(s)
    ensures Officiated(OrSame(s, AfterUnderageVoid(s, bet)))
  {
    hide Books, AfterRefundBoth;
  }

  lemma VoidingOfficiates(s: State, step: Step)
    requires Officiated(s) && IsVoiding(step)
    ensures Officiated(Apply(s, step))
  {
    hide Books, AfterNoShow, AutoVoidAttempt, AfterUnderageVoid;
    match step
    case NoShow(b, _) => NoShowOfficiates(s, b);
    case Sweeps(b, _, _) => NoShowOfficiates(s, b);
    case AutoVoids(dispute, b, locked) => AutoVoidOfficiates(s, dispute, b, locked);
    case Withdraws(b) => NoShowOfficiates(s, b);
    case VoidsUnderage(b) => UnderageOfficiates(s, b);
  }

  lemma ClosingOfficiates(s: State, u: State, bet: Id, fee: int, refereeFee: int)
    requires Officiated(s) && OnlyLedger(s, u) && bet in s.bets
    ensures var r := AfterClose(u, bet, fee, refereeFee); r.Done? ==> Officiated(r.state)
  {
    hide Books, AfterClose;
    CloseRows(u, bet, fee, refereeFee);
  }

  lemma SettlingOfficiates(s: State, bet: Id, locked: bool)
    requires Officiated(s)
    ensures Officiated(SettleAttempt(s, bet, locked).Outcome(s))
  {
    hide Books, AfterMoney, AfterClose, Fees.PlatformFee, Fees.RefereeFee, Officiated;
    if SettleAttempt(s, bet, locked).Committed? {
      var fee := Fees.PlatformFee(s.bets[bet].amount, s.bets[bet].feePercent);
      var refereeFee := Fees.RefereeFee(fee, AssignmentOf(s, bet));
      ClosingOfficiates(s, AfterMoney(s, bet, fee, refereeFee).state, bet, fee, refereeFee);
    }
  }

  lemma RulingOfficiates(s: State, dispute: Id, ruling: Ruling, now: int)
    requires Officiated(s)
    ensures Officiated(OrSame(s, AfterRuling(s, dispute, ruling, now)))
  {
    hide Books, AfterRefundBoth;
  }

  lemma FilingOfficiates(s: State, dispute: Id, bet: Id)
    requires Officiated(s) && !FilesLate(s, FilesDispute(dispute, bet))
    ensures Officiated(OrSame(s, AfterDisputeFiled(s, dispute, bet)))
  {
  }

  lemma DecisionOfficiates(s: State, bet: Id, outcome: BetOutcome, now: int)
    requires Officiated(s)
    ensures Officiated(OrSame(s, AfterDecision(s, bet, outcome, now)))
  {
  }

  lemma RefereeOfficiates(s: State, step: Step)
    requires Officiated(s) && !FilesLate(s, step)
    requires step.Claims? || step.Advances? || step.Decides? || step.FilesDispute?
    ensures Officiated(Apply(s, step))
  {
    hide Books, AfterHold, AfterLobbyMatch, AfterRuling, AfterRefundBoth, AfterUnderageVoid, AfterRefund,
      AfterNoShow, AutoVoidAttempt, SettleAttempt, AfterTransfer, AfterDecision, AfterDisputeFiled;
    match step
    case Decides(bet, outcome, now) => DecisionOfficiates(s, bet, outcome, now);
    case FilesDispute(dispute, bet) => FilingOfficiates(s, dispute, bet);
    case _ =>
  }

  lemma PlainOfficiates(s: State, step: Step)
    requires Officiated(s) && !IsMatching(step) && !IsVoiding(step) && !step.SettlesBet? && !step.Rules?
    requires !step.Claims? && !step.Advances? && !step.Decides? && !step.FilesDispute?
    ensures Officiated(Apply(s, step))
  {
    hide Books, AfterRefund, AfterRuling, AfterTransfer, AfterNoShow, AutoVoidAttempt, SettleAttempt,
      AfterUnderageVoid, AfterHold, AfterLobbyMatch, AfterDisputeFiled, AfterDecision;
  }

  /** The only step that parts an assignment from its bet is a dispute filed after the bet was settled. */
  lemma OfficiatedIff(s: State, step: Step)
    requires Officiated(s)
    ensures Officiated(Apply(s, step)) <==> !FilesLate(s, step)
  {
    hide Apply;
    if FilesLate(s, step) {
      LateFilingParts(s, step);
    } else if IsMatching(step) {
      MatchingOfficiates(s, step);
    } else if IsVoiding(step) {
      VoidingOfficiates(s, step);
    } else if step.SettlesBet? {
      SettlingOfficiates(s, step.bet, step.locked);
      assert Apply(s, step) == SettleAttempt(s, step.bet, step.locked).Outcome(s) by { ApplySettles(s, step); }
    } else if step.Rules? {
      RulingOfficiates(s, step.dispute, step.ruling, step.now);
      ApplyRules(s, step);
    } else if step.Claims? || step.Advances? || step.Decides? || step.FilesDispute? {
      RefereeOfficiates(s, step);
    } else {
      PlainOfficiates(s, step);
    }
  }

  lemma ApplySettles(s: State, step: Step)
    requires step.SettlesBet?
    ensures Apply(s, step) == SettleAttempt(s, step.bet, step.locked).Outcome(s)
  {
    hide SettleAttempt;
  }

  lemma ApplyRules(s: State, step: Step)
    requires step.Rules?
    ensures Apply(s, step) == OrSame(s, AfterRuling(s, step.dispute, step.ruling, step.now))
  {
    hide Books, AfterRuling;
  }

  lemma LateFilingParts(s: State, step: Step)
    requires FilesLate(s, step)
    ensures !Officiated(Apply(s, step))
  {
    var t := Apply(s, step);
    assert step.bet in t.assignments && t.assignments[step.bet].status == ASG_DISPUTED;
    assert t.bets[step.bet].status == SETTLED;
  }

  predicate NeverFilesLate(s: State, steps: seq<Step>) {
    forall i :: 0 <= i < |steps| ==> !FilesLate(Run(s, steps[..i]), steps[i])
  }

  lemma {:induction false} RunOfficiates(s: State, steps: seq<Step>)
    requires Officiated(s) && NeverFilesLate(s, steps)
    ensures Officiated(Run(s, steps))
  {
    hide Apply, FilesLate, Officiated;
    if steps != [] {
      var n := |steps| - 1;
      forall i | 0 <= i < n
        ensures !FilesLate(Run(s, steps[..n][..i]), steps[..n][i])
      {
        assert steps[..n][..i] == steps[..i];
      }
      RunOfficiates(s, steps[..n]);
      OfficiatedIff(Run(s, steps[..n]), steps[n]);
    }
  }

  /**
   Once a refereed bet has been paid out or voided its referee is released, completed
   or cancelled accordingly, in every later state.
   */
  lemma RefereeIsReleased(s: State, steps: seq<Step>, bet: Id)
    requires Officiated(s) && NeverFilesLate(s, steps) && NeverReopens(s, steps)
    requires bet in s.bets && s.bets[bet].status.IsTerminal()
    ensures var t := Run(s, steps);
            bet in t.assignments ==>
              t.assignments[bet].status == if s.bets[bet].status == SETTLED then ASG_COMPLETED else ASG_CANCELLED
  {
    hide Run, NeverFilesLate, NeverReopens;
    RunOfficiates(s, steps);
    LeavesOnce(s, steps, bet);
  }

  // ---- the two sweeps of one snapshot -------------------------------------

  const NO_SHOW_TTL := 600_000

  /** The no-show scan passes over a bet that a referee may be officiating. */
  predicate PickedAsNoShow(s: State, bet: Id, updatedAt: int, now: int) {
    && bet in s.bets && s.bets[bet].status == MATCHED && updatedAt < now - NO_SHOW_TTL
    && (bet in s.assignments ==> s.assignments[bet].status.IsClosed())
  }

  predicate PickedForReferee(s: State, bet: Id, now: int) {
    && bet in s.assignments && bet in s.bets && s.bets[bet].status == MATCHED
    && var row := s.assignments[bet];
       match row.status
       case ASG_OPEN => row.since < now - CLAIM_TTL
       case ASG_ASSIGNED => row.since < now - START_TTL
       case ASG_READY => row.since < now - START_TTL
       case ASG_IN_PROGRESS => row.since < now - MATCH_TTL
       case _ => false
  }

  /**
   A refereed match is only ever the referee sweep's. The no-show sweep has exactly the
   unrefereed matches whose rows nobody has touched for ten minutes.
   */
  lemma SweepsAreDisjoint(s: State, bet: Id, updatedAt: int, now: int)
    requires Officiated(s)
    ensures PickedAsNoShow(s, bet, updatedAt, now) <==>
              bet in s.bets && s.bets[bet].status == MATCHED && bet !in s.assignments && updatedAt < now - NO_SHOW_TTL
    ensures !(PickedAsNoShow(s, bet, updatedAt, now) && PickedForReferee(s, bet, now))
  {
    assert bet in s.assignments && bet in s.bets ==> Fits(s.bets[bet].status, s.assignments[bet].status);
  }

  lemma NoShowReleases(s: State, bet: Id)
    requires Officiated(s) && bet in s.assignments && IsUnplayed(s, bet)
    ensures var r := AfterNoShow(s, bet);
            r.Done? ==>
              && bet in r.state.bets && r.state.bets[bet].status == VOIDED
              && bet in r.state.assignments && r.state.assignments[bet].status == ASG_CANCELLED
  {
    hide Books, AfterRefundBoth;
  }

  /**
   The sweep acts on whatever the scan picked and nobody has touched since: it voids
   the match, or puts the assignment back for another referee, or throws; and at that
   moment the scan would not pick it again.
   */
  lemma SweepActsOnPicked(s: State, bet: Id, now: int, later: int, updatedAt: int)
    requires Officiated(s) && PickedForReferee(s, bet, now) && now <= later
    requires s.bets[bet].playerB.Some?
    ensures var r := AfterSweep(s, bet, later);
            r.Done? ==>
              && bet in r.state.bets && bet in r.state.assignments
              && !PickedForReferee(r.state, bet, later) && !PickedAsNoShow(r.state, bet, updatedAt, later)
              && (if s.assignments[bet].status.ASG_ASSIGNED? || s.assignments[bet].status.ASG_READY?
                  then r.state.bets == s.bets && r.state.assignments[bet].status == ASG_OPEN
                       && r.state.assignments[bet].referee.None?
                  else r.state.bets[bet].status == VOIDED && r.state.assignments[bet].status == ASG_CANCELLED)
  {
    hide Books, AfterNoShow, Officiated;
    NoShowReleases(s, bet);
  }

  /**
   What a picked assignment's sweep waits for: a stalled referee's is put back whatever
   happens; a void throws exactly when an account of the bet's is frozen or a customer
   has the text of one of its two refunds.
   */
  lemma SweepExact(s: State, bet: Id, now: int, later: int)
    requires Sound(s) && PickedForReferee(s, bet, now) && now <= later
    ensures s.bets[bet].playerB.Some?
    ensures var r := AfterSweep(s, bet, later);
            if s.assignments[bet].status.ASG_ASSIGNED? || s.assignments[bet].status.ASG_READY? then r.Done?
            else VoidsExactly(s, r, bet, BetKey(NoShowA, bet), BetKey(NoShowB, bet))
  {
    hide Sound, Books, AfterNoShow, VoidsExactly;
    UnsettledIsEscrowed(s, bet);
    NoShowExact(s, bet);
  }

  /** On whatever the scan would not pick at that moment the sweep does nothing; what it did pick it still re-checks. */
  lemma SweepLeavesUnpicked(s: State, bet: Id, now: int)
    requires !PickedForReferee(s, bet, now + 1)
    ensures AfterSweep(s, bet, now) == Done(s)
  {
    hide Books, AfterNoShow;
  }

  /**
   So whoever gets in between the scan and its sweep wins: a match just offered, a referee
   who has just claimed, is ready or has started is left alone for that stage's time limit, and a decided match
   for good.
   */
  lemma RacingStageWins(s: State, bet: Id, rewardPercent: int, referee: Id, start: bool, at: int, now: int)
    ensures var r := AfterOpenAssignment(s, bet, rewardPercent, at);
            r.Done? && now < at + CLAIM_TTL ==> AfterSweep(r.state, bet, now) == Done(r.state)
    ensures var r := AfterClaim(s, bet, referee, at);
            r.Done? && now < at + START_TTL ==> AfterSweep(r.state, bet, now) == Done(r.state)
    ensures var r := AfterAdvance(s, bet, start, at);
            r.Done? && now < at + (if start then MATCH_TTL else START_TTL) ==>
              AfterSweep(r.state, bet, now) == Done(r.state)
  {
    hide Books, AfterSweep;
    if AfterOpenAssignment(s, bet, rewardPercent, at).Done? && now < at + CLAIM_TTL {
      SweepLeavesUnpicked(AfterOpenAssignment(s, bet, rewardPercent, at).state, bet, now);
    }
    if AfterClaim(s, bet, referee, at).Done? && now < at + START_TTL {
      SweepLeavesUnpicked(AfterClaim(s, bet, referee, at).state, bet, now);
    }
    if AfterAdvance(s, bet, start, at).Done? && now < at + (if start then MATCH_TTL else START_TTL) {
      SweepLeavesUnpicked(AfterAdvance(s, bet, start, at).state, bet, now);
    }
  }

  lemma RacingDecisionWins(s: State, bet: Id, outcome: BetOutcome, at: int, now: int)
    ensures var r := AfterDecision(s, bet, outcome, at);
            r.Done? ==> AfterSweep(r.state, bet, now) == Done(r.state)
  {
    hide Books, AfterSweep;
    if AfterDecision(s, bet, outcome, at).Done? {
      SweepLeavesUnpicked(AfterDecision(s, bet, outcome, at).state, bet, now);
    }
  }

  /** With SweepActsOnPicked, then: a sweep that commits changes something exactly when the scan would pick. */
  lemma SweepActsIffPicked(s: State, bet: Id, now: int)
    requires Officiated(s) && bet in s.bets && s.bets[bet].playerB.Some? && AfterSweep(s, bet, now).Done?
    ensures AfterSweep(s, bet, now).state != s <==> PickedForReferee(s, bet, now + 1)
  {
    hide Books, AfterNoShow, Officiated;
    if PickedForReferee(s, bet, now + 1) {
      NoShowReleases(s, bet);
    } else {
      SweepLeavesUnpicked(s, bet, now);
    }
  }
}
