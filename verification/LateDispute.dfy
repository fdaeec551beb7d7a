/** How a dispute comes to be filed on a refereed bet after it was settled. */
module LateDispute {
  import opened Tables
  import opened Ledger
  import opened Fees
  import opened Escrows
  import opened Settlement
  import opened BetExpiry
  import opened DisputeEscalation
  import opened SettlementEffect
  import opened SettlementScan
  import opened Lifecycle
  import opened Invariant
  import opened Protocol
  import opened History
  import opened Staffing
  import opened BetTerms
  import opened Runs
  import opened Referees
  import opened Scenario

  // ---- a window once closed -----------------------------------------------

  /** A refereed bet past the match, whose dispute window has closed by `asked`. */
  predicate WindowClosed(s: State, bet: Id, asked: int) {
    && bet in s.bets && !s.bets[bet].status.CanHold() && !s.bets[bet].status.MATCHED?
    && bet in s.assignments && s.assignments[bet].deadline.Some? && s.assignments[bet].deadline.value <= asked
  }

  ghost predicate StayClosed(s: State, t: State, asked: int) {
    forall b :: WindowClosed(s, b, asked) ==> WindowClosed(t, b, asked)
  }

  lemma LobbyLeavesClosed(s: State, bet: Id, row: Bet, reward: Option<int>, now: int, asked: int)
    ensures StayClosed(s, OrSame(s, AfterLobbyMatch(s, bet, row, reward, now)), asked)
  {
    hide Books, AfterHold;
  }

  lemma HoldingLeavesClosed(s: State, bet: Id, player: Id, asked: int)
    ensures StayClosed(s, OrSame(s, AfterConsent(s, bet)), asked)
    ensures StayClosed(s, OrSame(s, AfterAccept(s, bet, player)), asked)
  {
    hide Books, AfterHold;
  }

  lemma MatchingLeavesClosed(s: State, step: Step, asked: int)
    requires IsMatching(step)
    ensures StayClosed(s, Apply(s, step), asked)
  {
    hide Books, AfterConsent, AfterAccept, AfterLobbyMatch;
    match step
    case Proposes(_, _) =>
    case Consents(b) => HoldingLeavesClosed(s, b, b, asked);
    case Accepts(b, player) => HoldingLeavesClosed(s, b, player, asked);
    case MatchesInLobby(b, row, reward, now) => LobbyLeavesClosed(s, b, row, reward, now, asked);
  }

  lemma VoidLeavesClosed(s: State, t: State, bet: Id, asked: int)
    requires VoidsRows(s, t, bet)
    ensures StayClosed(s, t, asked)
  {
  }

  lemma SameStayClosed(s: State, asked: int)
    ensures StayClosed(s, s, asked)
  {
  }

  lemma NoShowLeavesClosed(s: State, bet: Id, asked: int)
    ensures StayClosed(s, OrSame(s, AfterNoShow(s, bet)), asked)
  {
    hide Books, AfterRefundBoth, StayClosed;
    var r := AfterNoShow(s, bet);
    SameStayClosed(s, asked);
    if r.Done? && IsUnplayed(s, bet) {
      VoidLeavesClosed(s, r.state, bet, asked);
    }
  }

  lemma AutoVoidLeavesClosed(s: State, dispute: Id, bet: Id, locked: bool, asked: int)
    ensures StayClosed(s, AutoVoidAttempt(s, dispute, bet, locked).Outcome(s), asked)
  {
    hide Books, AfterRefundBoth;
  }

  lemma UnderageLeavesClosed(s: State, bet: Id, asked: int)
    ensures StayClosed(s, OrSame(s, AfterUnderageVoid(s, bet)), asked)
  {
    hide Books, AfterRefundBoth, StayClosed;
    var r := AfterUnderageVoid(s, bet);
    SameStayClosed(s, asked);
    if r.Done? && s.bets[bet].status.IsUnsettled() {
      VoidLeavesClosed(s, r.state, bet, asked);
    }
  }

  lemma SweepLeavesClosed(s: State, bet: Id, now: int, asked: int)
    ensures StayClosed(s, OrSame(s, AfterSweep(s, bet, now)), asked)
  {
    hide Books, AfterNoShow;
    NoShowLeavesClosed(s, bet, asked);
  }

  lemma VoidingLeavesClosed(s: State, step: Step, asked: int)
    requires IsVoiding(step)
    ensures StayClosed(s, Apply(s, step), asked)
  {
    hide Books, AfterNoShow, AfterSweep, AutoVoidAttempt, AfterUnderageVoid;
    match step
    case NoShow(b, _) => NoShowLeavesClosed(s, b, asked);
    case Sweeps(b, now, _) => SweepLeavesClosed(s, b, now, asked);
    case AutoVoids(dispute, b, locked) => AutoVoidLeavesClosed(s, dispute, b, locked, asked);
    case Withdraws(b) => NoShowLeavesClosed(s, b, asked);
    case VoidsUnderage(b) => UnderageLeavesClosed(s, b, asked);
  }

  lemma SettlingLeavesClosed(s: State, bet: Id, locked: bool, asked: int)
    ensures StayClosed(s, SettleAttempt(s, bet, locked).Outcome(s), asked)
  {
    hide Books, AfterMoney, PlatformFee, RefereeFee;
  }

  lemma RulingLeavesClosed(s: State, dispute: Id, ruling: Ruling, now: int, asked: int)
    requires now <= asked
    ensures StayClosed(s, OrSame(s, AfterRuling(s, dispute, ruling, now)), asked)
  {
    hide Books, AfterRefundBoth;
  }

  lemma ResultLeavesClosed(s: State, bet: Id, outcome: BetOutcome, now: int, dispute: Id, asked: int)
    ensures StayClosed(s, OrSame(s, AfterDecision(s, bet, outcome, now)), asked)
    ensures StayClosed(s, OrSame(s, AfterDisputeFiled(s, dispute, bet)), asked)
  {
  }

  lemma AssigningLeavesClosed(s: State, bet: Id, referee: Id, start: bool, now: int, asked: int)
    ensures StayClosed(s, OrSame(s, AfterClaim(s, bet, referee, now)), asked)
    ensures StayClosed(s, OrSame(s, AfterAdvance(s, bet, start, now)), asked)
  {
  }

  lemma RefereeingLeavesClosed(s: State, step: Step, asked: int)
    requires IsRefereeing(step)
    ensures StayClosed(s, Apply(s, step), asked)
  {
    hide Books, AfterClaim, AfterAdvance, AfterDecision, AfterDisputeFiled;
    match step
    case Claims(bet, referee, now) => AssigningLeavesClosed(s, bet, referee, false, now, asked);
    case Advances(bet, start, now) => AssigningLeavesClosed(s, bet, bet, start, now, asked);
    case Decides(bet, outcome, now) => ResultLeavesClosed(s, bet, outcome, now, bet, asked);
    case FilesDispute(dispute, bet) => ResultLeavesClosed(s, bet, DRAW, 0, dispute, asked);
  }

  lemma PlainLeavesClosed(s: State, step: Step, asked: int)
    requires !IsMatching(step) && !IsVoiding(step) && !step.SettlesBet? && !step.Rules? && !IsRefereeing(step)
    ensures StayClosed(s, Apply(s, step), asked)
  {
    hide Books, AfterRefund, AfterRuling, AfterTransfer, AfterNoShow, AutoVoidAttempt, SettleAttempt,
      AfterUnderageVoid, AfterHold, AfterLobbyMatch, AfterDisputeFiled, AfterDecision, IsTaken;
  }

  lemma StepLeavesClosed(s: State, step: Step, asked: int)
    requires step.Rules? ==> step.now <= asked
    ensures StayClosed(s, Apply(s, step), asked)
  {
    hide Books, StayClosed, AfterRuling, SettleAttempt, AfterLobbyMatch, AfterDisputeFiled;
    if IsMatching(step) {
      MatchingLeavesClosed(s, step, asked);
    } else if IsVoiding(step) {
      VoidingLeavesClosed(s, step, asked);
    } else if IsRefereeing(step) {
      RefereeingLeavesClosed(s, step, asked);
    } else if step.SettlesBet? {
      SettlingLeavesClosed(s, step.bet, step.locked, asked);
    } else if step.Rules? {
      RulingLeavesClosed(s, step.dispute, step.ruling, step.now, asked);
    } else {
      PlainLeavesClosed(s, step, asked);
    }
  }

  lemma {:induction false} RunLeavesClosed(s: State, steps: seq<Step>, asked: int)
    requires forall i :: 0 <= i < |steps| && steps[i].Rules? ==> steps[i].now <= asked
    ensures StayClosed(s, Run(s, steps), asked)
  {
    hide Apply, WindowClosed;
    if steps != [] {
      var n := |steps| - 1;
      RunLeavesClosed(s, steps[..n], asked);
      StepLeavesClosed(Run(s, steps[..n]), steps[n], asked);
    }
  }

  /**
   The scan picks a refereed bet only once its dispute window has closed, and nothing
   opens the window again: whatever runs from the picked state on, settlements made on
   this scan long out of date included, the route turns away everyone who reads the bet
   then or later. Only a reading from before lets a dispute through to its transaction.
   */
  lemma OnlyAnEarlierReadingIsLate(s: State, steps: seq<Step>, bet: Id, scanned: int, asked: int)
    requires Selected(s, bet, scanned) && bet in s.assignments && scanned <= asked
    requires forall i :: 0 <= i < |steps| && steps[i].Rules? ==> steps[i].now <= asked
    ensures !RouteAdmits(Run(s, steps), bet, asked)
  {
    hide Run;
    RunLeavesClosed(s, steps, asked);
    assert WindowClosed(s, bet, asked);
  }

  // ---- the race -----------------------------------------------------------

  const ASKED := DISPUTE_WINDOW - 1
  const SCANNED := DISPUTE_WINDOW

  lemma DecidedAdmits(s: State)
    requires Decided(s, 500) && s.disputes == map[]
    ensures RouteAdmits(s, M, ASKED) && Selected(s, M, SCANNED) && s.clientKeys == {}
  {
  }

  lemma DecidedPays(s: State)
    requires Sound(s) && Decided(s, 500) && s.cat.frozen == {} && s.clientKeys == {}
    ensures SettleAttempt(s, M, true).Committed?
    ensures var t := SettleAttempt(s, M, true).state;
            && M in t.bets && t.bets[M].status == SETTLED && M in t.assignments && t.disputes == s.disputes
  {
    hide Sound, Books, AfterSettlement, MoneyMoved, Lowered;
    SettlementExact(s, M);
    assert PlatformFee(100, 500) == 10;
  }

  /**
   A dispute is asked for a millisecond before the window closes; the bet is settled
   while the request is on its way; then the filing commits. The bet is paid out and
   its completed assignment is marked as disputed.
   */
  lemma LateFilingIsReachable()
    ensures Initial(Empty()) && NeverReopens(Empty(), Opening(500))
    ensures var s := Run(Empty(), Opening(500));
            var t := Apply(s, SettlesBet(M, true));
            && RouteAdmits(s, M, ASKED) && Selected(s, M, SCANNED) && ASKED < SCANNED
            && Officiated(t) && FilesLate(t, FilesDispute(D, M)) && !Officiated(Apply(t, FilesDispute(D, M)))
  {
    hide Apply, Run, Legal, SettleAttempt, Opening, Decided, Officiated, FilesLate, RouteAdmits, Selected;
    OpeningRuns(500);
    OpeningIsLegal(500, []);
    assert Opening(500) + [] == Opening(500);
    var s := Run(Empty(), Opening(500));
    LegalParts(s);
    RunKeepsCatalogue(Empty(), Opening(500));
    DecidedAdmits(s);
    DecidedPays(s);
    DecidedOfficiates(s);
    ApplySettles(s, SettlesBet(M, true));
    OfficiatedIff(s, SettlesBet(M, true));
    NotLate(s);
    var t := SettleAttempt(s, M, true).state;
    SettledFilesLate(t);
    OfficiatedIff(t, FilesDispute(D, M));
  }

  lemma DecidedOfficiates(s: State)
    requires Decided(s, 500)
    ensures Officiated(s)
  {
  }

  lemma NotLate(s: State)
    ensures !FilesLate(s, SettlesBet(M, true))
  {
  }

  lemma SettledFilesLate(t: State)
    requires M in t.bets && t.bets[M].status == SETTLED && M in t.assignments && t.disputes == map[]
    ensures FilesLate(t, FilesDispute(D, M))
  {
  }
}
