/** Which step may take a bet, an assignment or a dispute from where to where, and what it may write on the way. */
module Transitions {
  import opened Tables
  import opened Ledger
  import opened Escrows
  import opened Settlement
  import opened BetExpiry
  import opened ConsentExpiry
  import opened DisputeEscalation
  import opened Lifecycle
  import opened Protocol
  import opened BetTerms
  import opened History

  /** The edges of a bet's life. On a refereed bet a ruling that names an outcome can come from anywhere. */
  predicate BetMoves(step: Step, refereed: bool, before: BetStatus, after: BetStatus) {
    match step
    case ConsentExpires(_) => before.PENDING_CONSENT? && after.CANCELLED?
    case Expires(_, _) => before.OPEN? && after.CANCELLED?
    case NoShow(_, _) => before.MATCHED? && after.VOIDED?
    case Sweeps(_, _, _) => before.MATCHED? && after.VOIDED?
    case Withdraws(_) => before.MATCHED? && after.VOIDED?
    case SettlesBet(_, _) => before.RESULT_REPORTED? && after.SETTLED?
    case AutoVoids(_, _, _) => (before.RESULT_REPORTED? || before.DISPUTED?) && after.VOIDED?
    case VoidsUnderage(_) => before.IsUnsettled() && after.VOIDED?
    case Consents(_) => before.PENDING_CONSENT? && after.OPEN?
    case Accepts(_, _) => before.OPEN? && after.MATCHED?
    case Reports(_, _, _, _) => before.MATCHED? && after.RESULT_REPORTED?
    case Decides(_, _, _) => before.MATCHED? && after.RESULT_REPORTED?
    case FilesDispute(_, _) => before.RESULT_REPORTED? && after.DISPUTED?
    case Rules(_, ruling, _) =>
      if ruling.ForVoid? then before.DISPUTED? && after.VOIDED?
      else (before.DISPUTED? || refereed) && after.RESULT_REPORTED?
    case _ => false
  }

  /** The result a step writes, with whether it counts as verified and when it was made. */
  function ResultOf(step: Step): Option<(BetOutcome, bool, int)> {
    match step
    case Reports(_, outcome, verified, now) => Some((outcome, verified, now))
    case Decides(_, outcome, now) => Some((outcome, true, now))
    case Rules(_, ForA, now) => Some((PLAYER_A_WIN, true, now))
    case Rules(_, ForB, now) => Some((PLAYER_B_WIN, true, now))
    case Rules(_, ForDraw, now) => Some((DRAW, true, now))
    case _ => None
  }

  /** A row moves along its step's edge, and only a step that brings a result writes one. */
  predicate RowMoves(step: Step, refereed: bool, row: Bet, row': Bet) {
    && (row'.status == row.status ==> step.Verifies? || (step.Rules? && ResultOf(step).Some?))
    && (row'.status != row.status ==> BetMoves(step, refereed, row.status, row'.status))
    && (if ResultOf(step).Some?
        then row'.outcome == Some(ResultOf(step).value.0) && row'.verified == ResultOf(step).value.1
             && row'.reportedAt == Some(ResultOf(step).value.2)
        else row'.outcome == row.outcome && row'.reportedAt == row.reportedAt
             && row'.verified == (row.verified || step.Verifies?))
    && (if step.Accepts? then row'.playerB == Some(step.player) else row'.playerB == row.playerB)
  }

  predicate AssignmentMoves(step: Step, before: AssignmentStatus, after: AssignmentStatus) {
    match step
    case Claims(_, _, _) => before.ASG_OPEN? && after.ASG_ASSIGNED?
    case Advances(_, start, _) =>
      if start then before.ASG_READY? && after.ASG_IN_PROGRESS? else before.ASG_ASSIGNED? && after.ASG_READY?
    case Decides(_, _, _) => before.ASG_IN_PROGRESS? && after.ASG_DECISION_SUBMITTED?
    case Sweeps(_, _, _) =>
      ((before.ASG_ASSIGNED? || before.ASG_READY?) && after.ASG_OPEN?)
      || ((before.ASG_OPEN? || before.ASG_IN_PROGRESS?) && after.ASG_CANCELLED?)
    case NoShow(_, _) => before.IsLive() && after.ASG_CANCELLED?
    case Withdraws(_) => before.BeforeStart() && after.ASG_CANCELLED?
    case AutoVoids(_, _, _) => !before.IsClosed() && after.ASG_CANCELLED?
    case VoidsUnderage(_) => !before.IsClosed() && after.ASG_CANCELLED?
    case SettlesBet(_, _) => after.ASG_COMPLETED?
    case FilesDispute(_, _) => after.ASG_DISPUTED?
    case Rules(_, ruling, _) => if ruling.ForVoid? then after.ASG_CANCELLED? else after.ASG_DECISION_SUBMITTED?
    case _ => false
  }

  /** Only a claim puts a referee in and only the sweep takes one out. */
  predicate RefereeMoves(step: Step, row: Assignment, row': Assignment) {
    && AssignmentMoves(step, row.status, row'.status)
    && row'.rewardPercent == row.rewardPercent
    && (if step.Claims? then row'.referee == Some(step.referee)
        else if step.Sweeps? && row'.status.ASG_OPEN? then row'.referee == None
        else row'.referee == row.referee)
  }

  predicate DisputeMoves(step: Step, before: DisputeStatus, after: DisputeStatus) {
    match step
    case Escalates(_) => before.DSP_OPEN? && after.DSP_UNDER_REVIEW?
    case ClaimsDispute(_) => before.IsUndecided() && after.DSP_UNDER_REVIEW?
    case AutoVoids(_, _, _) => before.DSP_UNDER_REVIEW? && after.RESOLVED_VOID?
    case Rules(_, ruling, _) =>
      (match ruling
       case ForA => after.RESOLVED_PLAYER_A?
       case ForB => after.RESOLVED_PLAYER_B?
       case ForDraw => after.RESOLVED_DRAW?
       case ForVoid => after.RESOLVED_VOID?)
    case _ => false
  }

  predicate IsAbout(step: Step, dispute: Id) {
    (step.Escalates? || step.ClaimsDispute? || step.AutoVoids? || step.Rules?) && step.dispute == dispute
  }

  ghost predicate BetsMove(s: State, t: State, step: Step) {
    forall b :: b in s.bets ==>
      && b in t.bets
      && (t.bets[b] == s.bets[b]
          || (Target(s, step) == Some(b) && RowMoves(step, b in s.assignments, s.bets[b], t.bets[b])))
  }

  ghost predicate AssignmentsMove(s: State, t: State, step: Step) {
    forall b :: b in s.assignments ==>
      && b in t.assignments
      && (t.assignments[b] == s.assignments[b]
          || (Target(s, step) == Some(b) && RefereeMoves(step, s.assignments[b], t.assignments[b])))
  }

  ghost predicate DisputesMove(s: State, t: State, step: Step) {
    forall d :: d in s.disputes ==>
      && d in t.disputes && t.disputes[d].bet == s.disputes[d].bet
      && (t.disputes[d] == s.disputes[d]
          || (IsAbout(step, d) && DisputeMoves(step, s.disputes[d].status, t.disputes[d].status)))
  }

  /** Every row is left alone, or is the step's own and moves as its step says. */
  ghost predicate Follows(s: State, t: State, step: Step) {
    BetsMove(s, t, step) && AssignmentsMove(s, t, step) && DisputesMove(s, t, step)
  }

  /** One bet's row is rewritten, or none. */
  predicate OneBet(s: State, t: State, step: Step, bet: Id) {
    t.bets == s.bets
    || (bet in s.bets && bet in t.bets && t.bets == s.bets[bet := t.bets[bet]]
        && RowMoves(step, bet in s.assignments, s.bets[bet], t.bets[bet]))
  }

  predicate OneAssignment(s: State, t: State, step: Step, bet: Id) {
    t.assignments == s.assignments
    || (bet in s.assignments && bet in t.assignments && t.assignments == s.assignments[bet := t.assignments[bet]]
        && RefereeMoves(step, s.assignments[bet], t.assignments[bet]))
  }

  predicate OneDispute(s: State, t: State, step: Step, dispute: Id) {
    t.disputes == s.disputes
    || (dispute in t.disputes && t.disputes == s.disputes[dispute := t.disputes[dispute]]
        && (dispute in s.disputes ==>
              && t.disputes[dispute].bet == s.disputes[dispute].bet && IsAbout(step, dispute)
              && DisputeMoves(step, s.disputes[dispute].status, t.disputes[dispute].status)))
  }

  lemma BetsOneOrNone(s: State, t: State, step: Step, bet: Id)
    requires OneBet(s, t, step, bet) && (t.bets != s.bets ==> Target(s, step) == Some(bet))
    ensures BetsMove(s, t, step)
  {
    hide RowMoves, Target;
  }

  lemma AssignmentsOneOrNone(s: State, t: State, step: Step, bet: Id)
    requires OneAssignment(s, t, step, bet) && (t.assignments != s.assignments ==> Target(s, step) == Some(bet))
    ensures AssignmentsMove(s, t, step)
  {
    hide RefereeMoves, Target;
  }

  lemma DisputesOneOrNone(s: State, t: State, step: Step, dispute: Id)
    requires OneDispute(s, t, step, dispute)
    ensures DisputesMove(s, t, step)
  {
    hide DisputeMoves, IsAbout;
  }

  lemma OneOfEach(s: State, t: State, step: Step, bet: Id, dispute: Id)
    requires OneBet(s, t, step, bet) && OneAssignment(s, t, step, bet) && OneDispute(s, t, step, dispute)
    requires t.bets != s.bets || t.assignments != s.assignments ==> Target(s, step) == Some(bet)
    ensures Follows(s, t, step)
  {
    hide OneBet, OneAssignment, OneDispute, BetsMove, AssignmentsMove, DisputesMove, Target;
    BetsOneOrNone(s, t, step, bet);
    AssignmentsOneOrNone(s, t, step, bet);
    DisputesOneOrNone(s, t, step, dispute);
  }

  lemma NothingMoves(s: State, t: State, step: Step)
    requires t.bets == s.bets && t.assignments == s.assignments && t.disputes == s.disputes
    ensures Follows(s, t, step)
  {
    hide BetsMove, AssignmentsMove, DisputesMove, Target;
    SameBets(s, t, step);
    SameAssignments(s, t, step);
    DisputesOneOrNone(s, t, step, Id(""));
  }

  lemma SameBets(s: State, t: State, step: Step)
    requires forall b :: b in s.bets ==> b in t.bets && t.bets[b] == s.bets[b]
    ensures BetsMove(s, t, step)
  {
    hide RowMoves, Target;
  }

  lemma SameAssignments(s: State, t: State, step: Step)
    requires forall b :: b in s.assignments ==> b in t.assignments && t.assignments[b] == s.assignments[b]
    ensures AssignmentsMove(s, t, step)
  {
    hide RefereeMoves, Target;
  }

  /** Rows that were not there are nobody's to move. */
  lemma NewRows(s: State, t: State, step: Step)
    requires forall b :: b in s.bets ==> b in t.bets && t.bets[b] == s.bets[b]
    requires forall b :: b in s.assignments ==> b in t.assignments && t.assignments[b] == s.assignments[b]
    requires t.disputes == s.disputes
    ensures Follows(s, t, step)
  {
    hide BetsMove, AssignmentsMove, DisputesMove, Target;
    SameBets(s, t, step);
    SameAssignments(s, t, step);
    DisputesOneOrNone(s, t, step, Id(""));
  }

  // ---- further in ---------------------------------------------------------

  lemma ConsentMoves(s: State, step: Step)
    requires step.Consents?
    ensures Follows(s, OrSame(s, AfterConsent(s, step.bet)), step)
  {
    hide Books, AfterHold, Follows;
    OneOfEach(s, OrSame(s, AfterConsent(s, step.bet)), step, step.bet, step.bet);
  }

  lemma AcceptMoves(s: State, step: Step)
    requires step.Accepts?
    ensures Follows(s, OrSame(s, AfterAccept(s, step.bet, step.player)), step)
  {
    hide Books, AfterHold, Follows;
    OneOfEach(s, OrSame(s, AfterAccept(s, step.bet, step.player)), step, step.bet, step.bet);
  }

  lemma LobbyAddsRows(s: State, bet: Id, row: Bet, reward: Option<int>, now: int)
    requires AfterLobbyMatch(s, bet, row, reward, now).Done?
    ensures var t := AfterLobbyMatch(s, bet, row, reward, now).state;
            && bet !in s.bets && t.bets.Keys == s.bets.Keys + {bet} && t.disputes == s.disputes
            && (forall b :: b in s.bets ==> t.bets[b] == s.bets[b])
            && (forall b :: b in s.assignments ==> b in t.assignments && t.assignments[b] == s.assignments[b])
  {
    hide Books, AfterHold;
  }

  lemma LobbyMoves(s: State, step: Step)
    requires step.MatchesInLobby?
    ensures Follows(s, OrSame(s, AfterLobbyMatch(s, step.bet, step.row, step.reward, step.now)), step)
  {
    hide Books, AfterLobbyMatch, Follows;
    var r := AfterLobbyMatch(s, step.bet, step.row, step.reward, step.now);
    NothingMoves(s, s, step);
    if r.Done? {
      LobbyAddsRows(s, step.bet, step.row, step.reward, step.now);
      NewRows(s, r.state, step);
    }
  }

  lemma ProposalMoves(s: State, step: Step)
    requires step.Proposes?
    ensures Follows(s, OrSame(s, AfterProposal(s, step.bet, step.row)), step)
  {
    hide Follows;
    NewRows(s, OrSame(s, AfterProposal(s, step.bet, step.row)), step);
  }

  // ---- out ----------------------------------------------------------------

  /** A void writes VOIDED to the bet and at most CANCELLED to its assignment. */
  lemma VoidMoves(s: State, t: State, step: Step, bet: Id)
    requires IsVoiding(step) && step.bet == bet && bet in s.bets && !step.AutoVoids?
    requires BetMoves(step, bet in s.assignments, s.bets[bet].status, VOIDED)
    requires t.bets == s.bets[bet := s.bets[bet].(status := VOIDED)] && t.disputes == s.disputes
    requires t.assignments == s.assignments
             || (bet in s.assignments && AssignmentMoves(step, s.assignments[bet].status, ASG_CANCELLED)
                 && t.assignments == s.assignments[bet := s.assignments[bet].(status := ASG_CANCELLED)])
    ensures Follows(s, t, step)
  {
    hide Follows, BetMoves, AssignmentMoves;
    OneOfEach(s, t, step, bet, bet);
  }

  /** The assignment it cancels, if any, is one the step may cancel. */
  lemma NoShowMoves(s: State, step: Step, bet: Id)
    requires (step.NoShow? || step.Withdraws? || step.Sweeps?) && step.bet == bet
    requires bet in s.assignments && s.assignments[bet].status.IsLive() ==>
               AssignmentMoves(step, s.assignments[bet].status, ASG_CANCELLED)
    ensures Follows(s, OrSame(s, AfterNoShow(s, bet)), step)
  {
    hide Books, AfterRefundBoth, Follows, AssignmentMoves;
    var r := AfterNoShow(s, bet);
    NothingMoves(s, s, step);
    if r.Done? && IsUnplayed(s, bet) {
      VoidMoves(s, r.state, step, bet);
    }
  }

  lemma SweepMoves(s: State, step: Step)
    requires step.Sweeps?
    ensures Follows(s, OrSame(s, AfterSweep(s, step.bet, step.now)), step)
  {
    hide Books, AfterNoShow, Follows;
    var bet := step.bet;
    var t := OrSame(s, AfterSweep(s, bet, step.now));
    if bet in s.assignments && (s.assignments[bet].status.ASG_OPEN? || s.assignments[bet].status.ASG_IN_PROGRESS?) {
      NoShowMoves(s, step, bet);
      NothingMoves(s, s, step);
    } else {
      OneOfEach(s, t, step, bet, bet);
    }
  }

  lemma UnderageMoves(s: State, step: Step)
    requires step.VoidsUnderage?
    ensures Follows(s, OrSame(s, AfterUnderageVoid(s, step.bet)), step)
  {
    hide Books, AfterRefundBoth, Follows;
    var r := AfterUnderageVoid(s, step.bet);
    NothingMoves(s, s, step);
    if r.Done? && s.bets[step.bet].status.IsUnsettled() {
      VoidMoves(s, r.state, step, step.bet);
    }
  }

  lemma AutoVoidMoves(s: State, step: Step)
    requires step.AutoVoids?
    ensures Follows(s, AutoVoidAttempt(s, step.dispute, step.bet, step.locked).Outcome(s), step)
  {
    hide Books, AfterAutoVoid, Follows;
    NothingMoves(s, s, step);
    if AutoVoidAttempt(s, step.dispute, step.bet, step.locked).Committed? {
      AutoVoidRows(s, step.dispute, step.bet);
      OneOfEach(s, AfterAutoVoid(s, step.dispute, step.bet).state, step, step.bet, step.dispute);
    }
  }

  lemma AutoVoidRows(s: State, dispute: Id, bet: Id)
    requires dispute in s.disputes && bet in s.bets && AfterAutoVoid(s, dispute, bet).Done?
    ensures var t := AfterAutoVoid(s, dispute, bet).state;
            && (t.bets == s.bets
                || (HoldsDisputedStakes(s, bet) && t.bets == s.bets[bet := s.bets[bet].(status := VOIDED)]))
            && (t.assignments == s.assignments
                || (bet in s.assignments && !s.assignments[bet].status.IsClosed()
                    && t.assignments == s.assignments[bet := s.assignments[bet].(status := ASG_CANCELLED)]))
            && t.disputes == s.disputes[dispute := s.disputes[dispute].(status := RESOLVED_VOID)]
  {
    hide Books, AfterRefundBoth;
  }

  lemma SettlingMoves(s: State, step: Step)
    requires step.SettlesBet?
    ensures Follows(s, SettleAttempt(s, step.bet, step.locked).Outcome(s), step)
  {
    hide Books, AfterMoney, AfterClose, Fees.PlatformFee, Fees.RefereeFee, Follows;
    NothingMoves(s, s, step);
    var bet := step.bet;
    if SettleAttempt(s, bet, step.locked).Committed? {
      var fee := Fees.PlatformFee(s.bets[bet].amount, s.bets[bet].feePercent);
      var refereeFee := Fees.RefereeFee(fee, AssignmentOf(s, bet));
      var u := AfterMoney(s, bet, fee, refereeFee).state;
      CloseRows(u, bet, fee, refereeFee);
      CloseKeepsDisputes(u, bet, fee, refereeFee);
      OneOfEach(s, AfterClose(u, bet, fee, refereeFee).state, step, bet, bet);
    }
  }

  lemma CloseKeepsDisputes(s: State, bet: Id, fee: int, refereeFee: int)
    requires bet in s.bets
    ensures var r := AfterClose(s, bet, fee, refereeFee); r.Done? ==> r.state.disputes == s.disputes
  {
    hide Books;
  }

  lemma ExpiryMoves(s: State, step: Step)
    requires step.Expires?
    ensures Follows(s, ExpireAttempt(s, step.bet, step.locked).Outcome(s), step)
  {
    hide Books, AfterRefund, Follows;
    OneOfEach(s, ExpireAttempt(s, step.bet, step.locked).Outcome(s), step, step.bet, step.bet);
  }

  lemma VoidRulingBet(s: State, step: Step)
    requires step.Rules? && step.ruling.ForVoid? && AfterRuling(s, step.dispute, step.ruling, step.now).Done?
    ensures OneBet(s, AfterRuling(s, step.dispute, step.ruling, step.now).state, step, s.disputes[step.dispute].bet)
  {
    hide Books, AfterRefundBoth;
  }

  lemma OutcomeRulingBet(s: State, step: Step)
    requires step.Rules? && !step.ruling.ForVoid? && AfterRuling(s, step.dispute, step.ruling, step.now).Done?
    ensures OneBet(s, AfterRuling(s, step.dispute, step.ruling, step.now).state, step, s.disputes[step.dispute].bet)
  {
    hide Books, AfterRefundBoth;
  }

  lemma RulingAssignment(s: State, step: Step)
    requires step.Rules? && AfterRuling(s, step.dispute, step.ruling, step.now).Done?
    ensures OneAssignment(s, AfterRuling(s, step.dispute, step.ruling, step.now).state, step,
                          s.disputes[step.dispute].bet)
  {
    hide Books, AfterRefundBoth;
  }

  lemma RulingDispute(s: State, step: Step)
    requires step.Rules? && AfterRuling(s, step.dispute, step.ruling, step.now).Done?
    ensures OneDispute(s, AfterRuling(s, step.dispute, step.ruling, step.now).state, step, step.dispute)
  {
    hide Books, AfterRefundBoth;
  }

  lemma RulingMoves(s: State, step: Step)
    requires step.Rules?
    ensures Follows(s, OrSame(s, AfterRuling(s, step.dispute, step.ruling, step.now)), step)
  {
    hide Books, AfterRefundBoth, Follows, OneBet, OneAssignment, OneDispute;
    NothingMoves(s, s, step);
    if AfterRuling(s, step.dispute, step.ruling, step.now).Done? {
      if step.ruling.ForVoid? {
        VoidRulingBet(s, step);
      } else {
        OutcomeRulingBet(s, step);
      }
      RulingAssignment(s, step);
      RulingDispute(s, step);
      OneOfEach(s, AfterRuling(s, step.dispute, step.ruling, step.now).state, step, s.disputes[step.dispute].bet,
                step.dispute);
    }
  }

  // ---- results, referees, disputes ----------------------------------------

  lemma ReportMoves(s: State, step: Step)
    requires step.Reports?
    ensures Follows(s, OrSame(s, AfterReport(s, step.bet, step.outcome, step.verified, step.now)), step)
  {
    hide Follows;
    OneOfEach(s, OrSame(s, AfterReport(s, step.bet, step.outcome, step.verified, step.now)), step, step.bet, step.bet);
  }

  lemma VerificationMoves(s: State, step: Step)
    requires step.Verifies?
    ensures Follows(s, OrSame(s, AfterVerification(s, step.bet)), step)
  {
    hide Follows;
    OneOfEach(s, OrSame(s, AfterVerification(s, step.bet)), step, step.bet, step.bet);
  }

  lemma LapseMoves(s: State, step: Step)
    requires step.ConsentExpires?
    ensures Follows(s, AfterConsentExpiry(s, step.bet), step)
  {
    hide Follows;
    OneOfEach(s, AfterConsentExpiry(s, step.bet), step, step.bet, step.bet);
  }

  lemma DecisionMoves(s: State, step: Step)
    requires step.Decides?
    ensures Follows(s, OrSame(s, AfterDecision(s, step.bet, step.outcome, step.now)), step)
  {
    hide Follows;
    OneOfEach(s, OrSame(s, AfterDecision(s, step.bet, step.outcome, step.now)), step, step.bet, step.bet);
  }

  lemma FilingDispute(s: State, step: Step)
    requires step.FilesDispute?
    ensures OneDispute(s, OrSame(s, AfterDisputeFiled(s, step.dispute, step.bet)), step, step.dispute)
  {
  }

  lemma FilingBet(s: State, step: Step)
    requires step.FilesDispute?
    ensures OneBet(s, OrSame(s, AfterDisputeFiled(s, step.dispute, step.bet)), step, step.bet)
  {
  }

  lemma FilingAssignment(s: State, step: Step)
    requires step.FilesDispute?
    ensures OneAssignment(s, OrSame(s, AfterDisputeFiled(s, step.dispute, step.bet)), step, step.bet)
  {
  }

  lemma FilingMoves(s: State, step: Step)
    requires step.FilesDispute?
    ensures Follows(s, OrSame(s, AfterDisputeFiled(s, step.dispute, step.bet)), step)
  {
    hide Follows, OneBet, OneAssignment, OneDispute, AfterDisputeFiled;
    FilingBet(s, step);
    FilingDispute(s, step);
    FilingAssignment(s, step);
    OneOfEach(s, OrSame(s, AfterDisputeFiled(s, step.dispute, step.bet)), step, step.bet, step.dispute);
  }

  lemma ClaimMoves(s: State, step: Step)
    requires step.Claims?
    ensures Follows(s, OrSame(s, AfterClaim(s, step.bet, step.referee, step.now)), step)
  {
    hide Follows;
    OneOfEach(s, OrSame(s, AfterClaim(s, step.bet, step.referee, step.now)), step, step.bet, step.bet);
  }

  lemma AdvanceMoves(s: State, step: Step)
    requires step.Advances?
    ensures Follows(s, OrSame(s, AfterAdvance(s, step.bet, step.start, step.now)), step)
  {
    hide Follows;
    OneOfEach(s, OrSame(s, AfterAdvance(s, step.bet, step.start, step.now)), step, step.bet, step.bet);
  }

  lemma StageMoves(s: State, step: Step)
    requires step.Claims? || step.Advances?
    ensures Follows(s, Apply(s, step), step)
  {
    hide Follows, AfterClaim, AfterAdvance;
    match step
    case Claims(_, _, _) => ClaimMoves(s, step);
    case Advances(_, _, _) => AdvanceMoves(s, step);
  }

  lemma DisputeStepMoves(s: State, step: Step)
    requires step.Escalates? || step.ClaimsDispute?
    ensures Follows(s, Apply(s, step), step)
  {
    hide Follows;
    OneOfEach(s, Apply(s, step), step, step.dispute, step.dispute);
  }

  predicate IsPayment(step: Step) {
    step.Deposits? || step.RequestsDeposit? || step.CashesOut? || step.Reverses? || step.ChangesCaps?
  }

  lemma PaymentMoves(s: State, step: Step)
    requires IsPayment(step)
    ensures Follows(s, Apply(s, step), step)
  {
    hide Books, AfterTransfer, IsTaken, Follows;
    NothingMoves(s, Apply(s, step), step);
  }

  // ---- every step ---------------------------------------------------------

  lemma MatchingMoves(s: State, step: Step)
    requires IsMatching(step)
    ensures Follows(s, Apply(s, step), step)
  {
    hide Books, AfterProposal, AfterConsent, AfterAccept, AfterLobbyMatch, Follows;
    match step
    case Proposes(_, _) => ProposalMoves(s, step);
    case Consents(_) => ConsentMoves(s, step);
    case Accepts(_, _) => AcceptMoves(s, step);
    case MatchesInLobby(_, _, _, _) => LobbyMoves(s, step);
  }

  lemma VoidingMoves(s: State, step: Step)
    requires IsVoiding(step)
    ensures Follows(s, Apply(s, step), step)
  {
    hide Books, AfterNoShow, AfterSweep, AutoVoidAttempt, AfterUnderageVoid, Follows;
    NothingMoves(s, s, step);
    match step
    case NoShow(bet, _) => NoShowMoves(s, step, bet);
    case Sweeps(_, _, _) => SweepMoves(s, step);
    case AutoVoids(_, _, _) => AutoVoidMoves(s, step);
    case Withdraws(bet) =>
      if bet in s.assignments ==> s.assignments[bet].status.BeforeStart() { NoShowMoves(s, step, bet); }
    case VoidsUnderage(_) => UnderageMoves(s, step);
  }

  lemma ResultMoves(s: State, step: Step)
    requires step.Reports? || step.Verifies? || step.ConsentExpires? || step.Decides? || step.FilesDispute?
    ensures Follows(s, Apply(s, step), step)
  {
    hide Books, Follows, AfterReport, AfterVerification, AfterConsentExpiry, AfterDecision, AfterDisputeFiled;
    match step
    case Reports(_, _, _, _) => ReportMoves(s, step);
    case Verifies(_) => VerificationMoves(s, step);
    case ConsentExpires(_) => LapseMoves(s, step);
    case Decides(_, _, _) => DecisionMoves(s, step);
    case FilesDispute(_, _) => FilingMoves(s, step);
  }

  lemma ClosingMoves(s: State, step: Step)
    requires step.SettlesBet? || step.Expires? || step.Rules?
    ensures Follows(s, Apply(s, step), step)
  {
    hide Books, Follows, SettleAttempt, ExpireAttempt, AfterRuling;
    match step
    case SettlesBet(_, _) => SettlingMoves(s, step);
    case Expires(_, _) => ExpiryMoves(s, step);
    case Rules(_, _, _) => RulingMoves(s, step);
  }

  /** In every state whatever, every step takes every row along one of its own edges or leaves it alone. */
  lemma StepMoves(s: State, step: Step)
    ensures Follows(s, Apply(s, step), step)
  {
    hide Apply, Follows;
    if IsMatching(step) {
      MatchingMoves(s, step);
    } else if IsVoiding(step) {
      VoidingMoves(s, step);
    } else if step.SettlesBet? || step.Expires? || step.Rules? {
      ClosingMoves(s, step);
    } else if step.Claims? || step.Advances? {
      StageMoves(s, step);
    } else if step.Escalates? || step.ClaimsDispute? {
      DisputeStepMoves(s, step);
    } else if IsPayment(step) {
      PaymentMoves(s, step);
    } else {
      ResultMoves(s, step);
    }
  }

  // ---- when a step that moves no money acts -------------------------------

  predicate IsMoneyless(step: Step) {
    || step.ConsentExpires? || step.Escalates? || step.Reports? || step.Verifies? || step.Claims? || step.Advances?
    || step.Decides? || step.FilesDispute? || step.ClaimsDispute?
  }

  predicate Acts(s: State, step: Step) {
    match step
    case ConsentExpires(bet) => bet in s.bets && s.bets[bet].status.PENDING_CONSENT?
    case Escalates(dispute) => dispute in s.disputes && s.disputes[dispute].status.DSP_OPEN?
    case ClaimsDispute(dispute) => dispute in s.disputes && s.disputes[dispute].status.DSP_OPEN?
    case Reports(bet, _, _, _) => bet in s.bets && s.bets[bet].status.MATCHED? && bet !in s.assignments
    case Verifies(bet) => bet in s.bets && s.bets[bet].status.RESULT_REPORTED? && !s.bets[bet].verified
    case Claims(bet, _, _) => bet in s.assignments && s.assignments[bet].status.ASG_OPEN?
    case Advances(bet, start, _) =>
      && bet in s.assignments
      && (if start then s.assignments[bet].status.ASG_READY? else s.assignments[bet].status.ASG_ASSIGNED?)
    case Decides(bet, _, _) =>
      bet in s.assignments && s.assignments[bet].status.ASG_IN_PROGRESS? && bet in s.bets && s.bets[bet].status.MATCHED?
    case FilesDispute(dispute, bet) =>
      dispute !in s.disputes && bet in s.bets && (s.bets[bet].status.RESULT_REPORTED? || s.bets[bet].status.SETTLED?)
    case _ => false
  }

  lemma RowActs(s: State, step: Step)
    requires step.ConsentExpires? || step.Reports? || step.Verifies? || step.Decides?
    ensures Acts(s, step) <==> step.bet in s.bets && step.bet in Apply(s, step).bets
                               && Apply(s, step).bets[step.bet] != s.bets[step.bet]
    ensures !Acts(s, step) ==> Apply(s, step) == s
  {
  }

  lemma StageActs(s: State, step: Step)
    requires step.Claims? || step.Advances?
    ensures Acts(s, step) <==> step.bet in s.assignments && step.bet in Apply(s, step).assignments
                               && Apply(s, step).assignments[step.bet] != s.assignments[step.bet]
    ensures !Acts(s, step) ==> Apply(s, step) == s
  {
  }

  lemma DisputeActs(s: State, step: Step)
    requires step.Escalates? || step.ClaimsDispute?
    ensures Acts(s, step) <==> step.dispute in s.disputes && step.dispute in Apply(s, step).disputes
                               && Apply(s, step).disputes[step.dispute] != s.disputes[step.dispute]
    ensures !Acts(s, step) ==> Apply(s, step) == s
  {
  }

  lemma FilingActs(s: State, step: Step)
    requires step.FilesDispute?
    ensures Acts(s, step) <==> step.dispute !in s.disputes && step.dispute in Apply(s, step).disputes
                               && Apply(s, step).disputes[step.dispute] == Dispute(step.bet, DSP_OPEN)
    ensures !Acts(s, step) ==> Apply(s, step) == s
  {
    FilingApplies(s, step);
    hide Apply;
  }

  lemma FilingApplies(s: State, step: Step)
    requires step.FilesDispute?
    ensures Apply(s, step) == OrSame(s, AfterDisputeFiled(s, step.dispute, step.bet))
  {
    hide AfterDisputeFiled;
  }

  // ---- locks --------------------------------------------------------------

  /** Another worker has the bet. */
  predicate IsLockedOut(step: Step) {
    && (step.Expires? || step.NoShow? || step.Sweeps? || step.SettlesBet? || step.AutoVoids?)
    && !step.locked
  }

  lemma LockedOutDoesNothing(s: State, step: Step)
    requires IsLockedOut(step)
    ensures Apply(s, step) == s
  {
    hide Books, AfterExpiry, AfterNoShow, AfterSweep, AfterSettlement, AfterAutoVoid;
  }
}
