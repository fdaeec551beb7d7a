/** What a bet's players are paid when it leaves, whichever step takes it out. */
module Exits {
  import opened Tables
  import opened Ledger
  import opened Escrows
  import opened Settlement
  import opened BetExpiry
  import opened ConsentExpiry
  import opened DisputeEscalation
  import opened Lifecycle
  import opened Invariant
  import opened MoneySteps
  import opened VoidSteps
  import opened SettlementEffect
  import opened Protocol
  import opened Safety
  import opened BetTerms
  import opened History
  import opened Transitions

  /** What one account gains when a bet leaves with the given status. */
  function Owed(s: State, bet: Id, status: BetStatus, a: Account): int
    requires bet in s.bets
    requires status == SETTLED ==> RowsKnown(s, bet)
    requires status == VOIDED ==> s.bets[bet].playerB.Some?
  {
    var row := s.bets[bet];
    match status
    case CANCELLED =>
      if row.status == OPEN then Moved(a, Escrow(bet), PlayerBalance(row.playerA), row.amount) else 0
    case VOIDED =>
      Moved(a, Escrow(bet), PlayerBalance(row.playerA), row.amount)
      + Moved(a, Escrow(bet), PlayerBalance(row.playerB.value), row.amount)
    case SETTLED => Due(TermsOf(s, bet), bet, a)
    case _ => 0
  }

  ghost predicate PaysExactly(s: State, t: State, bet: Id, status: BetStatus) {
    && bet in s.bets
    && (status == SETTLED ==> RowsKnown(s, bet))
    && (status == VOIDED ==> s.bets[bet].playerB.Some?)
    && forall a: Account :: Bal(t, a) == Bal(s, a) + Owed(s, bet, status, a)
  }

  /** The step took the bet out, and if so paid exactly what its way out owes. */
  ghost predicate LeavesPaid(s: State, t: State, bet: Id) {
    && bet in t.bets
    && (t.bets[bet].status.IsTerminal() ==> PaysExactly(s, t, bet, t.bets[bet].status))
  }

  lemma StaysIn(s: State, t: State, bet: Id)
    requires bet in t.bets && !t.bets[bet].status.IsTerminal()
    ensures LeavesPaid(s, t, bet)
  {
  }

  // ---- voids --------------------------------------------------------------

  lemma VoidPays(s: State, u: State, t: State, bet: Id, keyA: Key, keyB: Key)
    requires Sound(s) && bet in s.bets && s.bets[bet].status.IsUnsettled()
    requires SameMoney(s, u) && bet in u.bets && SameParties(s.bets[bet], u.bets[bet])
    requires keyA !in s.txns && keyB !in s.txns && keyA != keyB
    requires var r := AfterRefundBoth(u, bet, keyA, keyB); r.Done? && SameMoney(r.state, t)
    requires bet in t.bets && t.bets[bet].status == VOIDED
    ensures LeavesPaid(s, t, bet)
  {
    hide Books, CountersAgree, Solvent, RowsSound, KeySound, AfterRefundBoth, Bal;
    CounterCovers(s, bet);
    UnsettledIsEscrowed(s, bet);
    var v := AfterRefundBoth(u, bet, keyA, keyB).state;
    RefundBothEffect(u, bet, keyA, keyB);
    BalSame(s, u);
    BalSame(v, t);
  }

  /** The keys of a way out are unused until the bet takes it. */
  lemma UnusedKeys(s: State, bet: Id, a: Movement, b: Movement)
    requires Sound(s) && bet in s.bets && !s.bets[bet].status.IsTerminal()
    requires a != HoldA && a != HoldB && b != HoldA && b != HoldB
    ensures BetKey(a, bet) !in s.txns && BetKey(b, bet) !in s.txns
  {
    hide RowsSound, Books, CountersAgree, Solvent;
    ExitKeysFresh(s, bet);
  }

  lemma UnusedRulingKeys(s: State, dispute: Id)
    requires Sound(s) && dispute in s.disputes && s.disputes[dispute].bet in s.bets
    requires !s.bets[s.disputes[dispute].bet].status.IsTerminal()
    ensures ResolveKey(true, dispute) !in s.txns && ResolveKey(false, dispute) !in s.txns
  {
    hide RowsSound, Books, CountersAgree, Solvent;
    ExitKeysFresh(s, s.disputes[dispute].bet);
  }

  lemma NoShowPays(s: State, bet: Id)
    requires Sound(s) && bet in s.bets && !s.bets[bet].status.IsTerminal()
    ensures LeavesPaid(s, OrSame(s, AfterNoShow(s, bet)), bet)
  {
    hide Sound, AfterRefundBoth, Books, LeavesPaid, KeySound;
    var r := AfterNoShow(s, bet);
    if r.Done? && IsUnplayed(s, bet) {
      UnsettledIsEscrowed(s, bet);
      UnusedKeys(s, bet, NoShowA, NoShowB);
      var u := WithStatus(CancelLiveAssignment(s, bet), bet, VOIDED);
      VoidPays(s, u, r.state, bet, BetKey(NoShowA, bet), BetKey(NoShowB, bet));
    } else {
      StaysIn(s, OrSame(s, r), bet);
    }
  }

  lemma SweepPays(s: State, bet: Id, now: int)
    requires Sound(s) && bet in s.bets && !s.bets[bet].status.IsTerminal()
    ensures LeavesPaid(s, OrSame(s, AfterSweep(s, bet, now)), bet)
  {
    hide Sound, AfterNoShow, Books, LeavesPaid;
    NoShowPays(s, bet);
    var t := OrSame(s, AfterSweep(s, bet, now));
    if t != OrSame(s, AfterNoShow(s, bet)) {
      StaysIn(s, t, bet);
    }
  }

  lemma UnderagePays(s: State, bet: Id)
    requires Sound(s) && bet in s.bets && !s.bets[bet].status.IsTerminal()
    ensures LeavesPaid(s, OrSame(s, AfterUnderageVoid(s, bet)), bet)
  {
    hide Sound, AfterRefundBoth, Books, LeavesPaid, KeySound;
    var r := AfterUnderageVoid(s, bet);
    if r.Done? && s.bets[bet].status.IsUnsettled() {
      UnsettledIsEscrowed(s, bet);
      UnusedKeys(s, bet, UnderageA, UnderageB);
      var u := CancelOpenAssignment(WithStatus(s, bet, VOIDED), bet);
      VoidPays(s, u, r.state, bet, BetKey(UnderageA, bet), BetKey(UnderageB, bet));
    } else {
      StaysIn(s, OrSame(s, r), bet);
    }
  }

  lemma AutoVoidPays(s: State, dispute: Id, bet: Id, locked: bool)
    requires Sound(s) && bet in s.bets && !s.bets[bet].status.IsTerminal()
    ensures LeavesPaid(s, AutoVoidAttempt(s, dispute, bet, locked).Outcome(s), bet)
  {
    hide Sound, AfterRefundBoth, Books, LeavesPaid, KeySound;
    var attempt := AutoVoidAttempt(s, dispute, bet, locked);
    if attempt.Committed? && HoldsDisputedStakes(s, bet) {
      UnusedKeys(s, bet, DisputeVoidA, DisputeVoidB);
      VoidPays(s, WithStatus(s, bet, VOIDED), attempt.state, bet, BetKey(DisputeVoidA, bet), BetKey(DisputeVoidB, bet));
    } else {
      StaysIn(s, attempt.Outcome(s), bet);
    }
  }

  lemma RulingPays(s: State, dispute: Id, ruling: Ruling, now: int)
    requires Sound(s) && dispute in s.disputes && s.disputes[dispute].bet in s.bets
    requires !s.bets[s.disputes[dispute].bet].status.IsTerminal()
    ensures LeavesPaid(s, OrSame(s, AfterRuling(s, dispute, ruling, now)), s.disputes[dispute].bet)
  {
    hide Sound, AfterRefundBoth, Books, LeavesPaid, KeySound;
    var bet := s.disputes[dispute].bet;
    var r := AfterRuling(s, dispute, ruling, now);
    if r.Done? && ruling.ForVoid? && s.bets[bet].status == DISPUTED {
      UnusedRulingKeys(s, dispute);
      var decided := Resolved(s, dispute, RESOLVED_VOID);
      var u := if bet in s.assignments then decided else WithStatus(decided, bet, VOIDED);
      VoidPays(s, u, r.state, bet, ResolveKey(true, dispute), ResolveKey(false, dispute));
    } else {
      StaysIn(s, OrSame(s, r), bet);
    }
  }

  // ---- expiries and settlement --------------------------------------------

  lemma ExpiryPays(s: State, bet: Id, locked: bool)
    requires Sound(s) && bet in s.bets && !s.bets[bet].status.IsTerminal()
    ensures LeavesPaid(s, ExpireAttempt(s, bet, locked).Outcome(s), bet)
  {
    hide Sound, AfterRefund, Bal, Books;
    var attempt := ExpireAttempt(s, bet, locked);
    if attempt.Committed? {
      UnusedKeys(s, bet, ExpiryRefund, ExpiryRefund);
      var row := s.bets[bet];
      CounterCovers(s, bet);
      RefundEffect(s, bet, row.playerA, row.amount, BetKey(ExpiryRefund, bet));
      BalSame(AfterRefund(s, bet, row.playerA, row.amount, BetKey(ExpiryRefund, bet)).state, attempt.state);
    } else {
      StaysIn(s, s, bet);
    }
  }

  lemma ConsentExpiryPays(s: State, bet: Id)
    requires bet in s.bets && !s.bets[bet].status.IsTerminal()
    ensures LeavesPaid(s, AfterConsentExpiry(s, bet), bet)
  {
    hide Bal;
    BalSame(s, AfterConsentExpiry(s, bet));
  }

  lemma SettlementPays(s: State, bet: Id, locked: bool)
    requires Sound(s) && bet in s.bets && !s.bets[bet].status.IsTerminal()
    ensures LeavesPaid(s, SettleAttempt(s, bet, locked).Outcome(s), bet)
  {
    hide Sound, AfterSettlement, Payable, TermsOf, Bal, Due;
    if SettleAttempt(s, bet, locked).Committed? {
      SettlementExact(s, bet);
    } else {
      StaysIn(s, s, bet);
    }
  }

  // ---- every step ---------------------------------------------------------

  lemma VoidingPays(s: State, step: Step)
    requires IsVoiding(step) && Sound(s) && step.bet in s.bets && !s.bets[step.bet].status.IsTerminal()
    ensures LeavesPaid(s, Apply(s, step), step.bet)
  {
    hide Books, Sound, LeavesPaid, AfterNoShow, AfterSweep, AutoVoidAttempt, AfterUnderageVoid;
    StaysIn(s, s, step.bet);
    match step
    case NoShow(bet, _) => NoShowPays(s, bet);
    case Sweeps(bet, now, _) => SweepPays(s, bet, now);
    case AutoVoids(dispute, bet, locked) => AutoVoidPays(s, dispute, bet, locked);
    case Withdraws(bet) => NoShowPays(s, bet);
    case VoidsUnderage(bet) => UnderagePays(s, bet);
  }

  /** The steps that take a bet further in never take it out. */
  lemma MatchingStaysIn(s: State, step: Step)
    requires IsMatching(step) && step.bet in s.bets && !s.bets[step.bet].status.IsTerminal()
    ensures LeavesPaid(s, Apply(s, step), step.bet)
  {
    hide Books, AfterHold;
    StaysIn(s, Apply(s, step), step.bet);
  }

  lemma ResultStaysIn(s: State, bet: Id, outcome: BetOutcome, now: int, dispute: Id)
    requires bet in s.bets && !s.bets[bet].status.IsTerminal()
    ensures LeavesPaid(s, OrSame(s, AfterDecision(s, bet, outcome, now)), bet)
    ensures LeavesPaid(s, OrSame(s, AfterDisputeFiled(s, dispute, bet)), bet)
  {
    hide LeavesPaid;
    StaysIn(s, OrSame(s, AfterDecision(s, bet, outcome, now)), bet);
    StaysIn(s, OrSame(s, AfterDisputeFiled(s, dispute, bet)), bet);
  }

  lemma RowStaysIn(s: State, step: Step, bet: Id)
    requires !IsMatching(step) && !IsVoiding(step) && !step.SettlesBet? && !step.Rules? && !step.Expires?
    requires !step.ConsentExpires? && Target(s, step) == Some(bet)
    requires bet in s.bets && !s.bets[bet].status.IsTerminal()
    ensures LeavesPaid(s, Apply(s, step), bet)
  {
    hide Books, ExpireAttempt, NoShowAttempt, SweepAttempt, SettleAttempt, AutoVoidAttempt, AfterProposal,
      AfterConsent, AfterAccept, AfterLobbyMatch, AfterWithdrawal, AfterRuling, AfterUnderageVoid, AfterDeposit,
      AfterCashOut, LeavesPaid, AfterDecision, AfterDisputeFiled;
    match step
    case Decides(_, outcome, now) => ResultStaysIn(s, bet, outcome, now, bet);
    case FilesDispute(dispute, _) => ResultStaysIn(s, bet, DRAW, 0, dispute);
    case _ => StaysIn(s, Apply(s, step), bet);
  }

  /**
   Whatever step takes a bet out of a sound database pays exactly what that way out
   owes and nobody else: a lapsed offer its stake to player A, a void both stakes to
   the two players, a settlement what its terms say.
   */
  lemma LeavingPaysExactly(s: State, step: Step, bet: Id)
    requires Sound(s) && bet in s.bets && !s.bets[bet].status.IsTerminal()
    ensures LeavesPaid(s, Apply(s, step), bet)
  {
    hide Sound, Apply, LeavesPaid;
    if Target(s, step) != Some(bet) {
      OthersStay(s, step, bet);
      StaysIn(s, Apply(s, step), bet);
    } else if IsMatching(step) {
      MatchingStaysIn(s, step);
    } else if IsVoiding(step) {
      VoidingPays(s, step);
    } else {
      OutcomePays(s, step, bet);
    }
  }

  lemma OutcomePays(s: State, step: Step, bet: Id)
    requires !IsMatching(step) && !IsVoiding(step) && Target(s, step) == Some(bet)
    requires Sound(s) && bet in s.bets && !s.bets[bet].status.IsTerminal()
    ensures LeavesPaid(s, Apply(s, step), bet)
  {
    hide Books, Sound, LeavesPaid, SettleAttempt, ExpireAttempt, AfterConsentExpiry, AfterRuling, NoShowAttempt,
      SweepAttempt, AutoVoidAttempt, AfterProposal, AfterConsent, AfterAccept, AfterLobbyMatch, AfterWithdrawal,
      AfterUnderageVoid, AfterDeposit, AfterCashOut, AfterDisputeFiled, AfterDecision;
    match step
    case SettlesBet(b, locked) => SettlementPays(s, b, locked);
    case Expires(b, locked) => ExpiryPays(s, b, locked);
    case ConsentExpires(b) => ConsentExpiryPays(s, b);
    case Rules(dispute, ruling, now) => RulingPays(s, dispute, ruling, now);
    case _ => RowStaysIn(s, step, bet);
  }

  // ---- while it is in -----------------------------------------------------

  /** What the players of a bet in this phase have put in, as one account sees it. */
  function PutIn(bet: Id, row: Bet, a: Account): int {
    (if row.status.IsActive() then Moved(a, PlayerBalance(row.playerA), Escrow(bet), row.amount) else 0)
    + (if row.status.IsUnsettled() && row.playerB.Some?
       then Moved(a, PlayerBalance(row.playerB.value), Escrow(bet), row.amount) else 0)
  }

  function PutInBefore(s: State, bet: Id, a: Account): int {
    if bet in s.bets then PutIn(bet, s.bets[bet], a) else 0
  }

  /** The step moved exactly what the bet's players have put in more than before. */
  ghost predicate PaysIn(s: State, t: State, bet: Id) {
    && bet in t.bets
    && forall a: Account :: Bal(t, a) == Bal(s, a) + PutIn(bet, t.bets[bet], a) - PutInBefore(s, bet, a)
  }

  lemma ConsentPaysIn(s: State, bet: Id)
    requires Sound(s) && AfterConsent(s, bet).Done?
    ensures PaysIn(s, AfterConsent(s, bet).state, bet)
  {
    hide Books, CountersAgree, Solvent, RowsSound, AfterHold, Bal;
    var row := s.bets[bet];
    ExitKeysFresh(s, bet);
    HoldEffect(s, bet, row.playerA, row.amount, HoldA);
    BalSame(AfterHold(s, bet, row.playerA, row.amount, HoldA).state, AfterConsent(s, bet).state);
  }

  lemma AcceptPaysIn(s: State, bet: Id, player: Id)
    requires Sound(s) && AfterAccept(s, bet, player).Done?
    ensures PaysIn(s, AfterAccept(s, bet, player).state, bet)
  {
    hide Books, CountersAgree, Solvent, RowsSound, AfterHold, Bal;
    var row := s.bets[bet];
    ExitKeysFresh(s, bet);
    HoldEffect(s, bet, player, row.amount, HoldB);
    BalSame(AfterHold(s, bet, player, row.amount, HoldB).state, AfterAccept(s, bet, player).state);
  }

  lemma ProposalPaysIn(s: State, bet: Id, row: Bet)
    requires AfterProposal(s, bet, row).Done?
    ensures PaysIn(s, AfterProposal(s, bet, row).state, bet)
  {
    hide Bal;
    BalSame(s, AfterProposal(s, bet, row).state);
  }

  lemma PaysInThen(s: State, t: State, u: State, bet: Id)
    requires PaysIn(s, t, bet) && PaysIn(t, u, bet)
    ensures PaysIn(s, u, bet)
  {
    hide Bal, PutIn;
  }

  lemma LobbyPaysIn(s: State, bet: Id, row: Bet, reward: Option<int>, now: int)
    requires Sound(s) && AfterLobbyMatch(s, bet, row, reward, now).Done?
    ensures PaysIn(s, AfterLobbyMatch(s, bet, row, reward, now).state, bet)
  {
    hide Sound, PaysIn, AfterProposal, AfterConsent, AfterAccept;
    var s1 := AfterProposal(s, bet, row).state;
    ProposalKeepsSound(s, bet, row);
    ProposalPaysIn(s, bet, row);
    ConsentKeepsSound(s1, bet);
    ConsentPaysIn(s1, bet);
    var s2 := AfterConsent(s1, bet).state;
    AcceptPaysIn(s2, bet, row.playerB.value);
    var s3 := AfterAccept(s2, bet, row.playerB.value).state;
    PaysInThen(s, s1, s2, bet);
    PaysInThen(s, s2, s3, bet);
    JoinedIsThere(s2, s3, bet);
    SamePaysIn(s3, AfterLobbyMatch(s, bet, row, reward, now).state, bet);
    PaysInThen(s, s3, AfterLobbyMatch(s, bet, row, reward, now).state, bet);
  }

  lemma JoinedIsThere(s: State, t: State, bet: Id)
    requires PaysIn(s, t, bet)
    ensures bet in t.bets
  {
  }

  lemma SamePaysIn(s: State, t: State, bet: Id)
    requires t.balances == s.balances && bet in s.bets && bet in t.bets
    requires var row, row' := s.bets[bet], t.bets[bet];
             && row'.playerA == row.playerA && row'.playerB == row.playerB && row'.amount == row.amount
             && (row'.status == row.status || (row.status.IsUnsettled() && row'.status.IsUnsettled()))
    ensures PaysIn(s, t, bet)
  {
    hide Bal, Moved;
    BalSame(s, t);
  }

  /** What a transaction aimed at a bet may do while it has moved no money, or else the bet is out. */
  predicate MovesOnlyOut(s: State, t: State, bet: Id) {
    t.balances == s.balances || (bet in t.bets && t.bets[bet].status.IsTerminal())
  }

  lemma NoShowMovesOut(s: State, bet: Id)
    requires bet in s.bets
    ensures MovesOnlyOut(s, OrSame(s, AfterNoShow(s, bet)), bet)
  {
    hide Books, AfterRefundBoth;
  }

  lemma SweepMovesOut(s: State, bet: Id, now: int)
    requires bet in s.bets
    ensures MovesOnlyOut(s, OrSame(s, AfterSweep(s, bet, now)), bet)
  {
    hide Books, AfterNoShow;
    NoShowMovesOut(s, bet);
  }

  lemma UnderageMovesOut(s: State, bet: Id)
    requires bet in s.bets
    ensures MovesOnlyOut(s, OrSame(s, AfterUnderageVoid(s, bet)), bet)
  {
    hide Books, AfterRefundBoth;
  }

  lemma RulingMovesOut(s: State, dispute: Id, ruling: Ruling, now: int, bet: Id)
    requires dispute in s.disputes && s.disputes[dispute].bet == bet && bet in s.bets
    ensures MovesOnlyOut(s, OrSame(s, AfterRuling(s, dispute, ruling, now)), bet)
  {
    hide Books, AfterRefundBoth;
  }

  lemma AutoVoidMovesOut(s: State, dispute: Id, bet: Id, locked: bool)
    requires bet in s.bets
    ensures MovesOnlyOut(s, AutoVoidAttempt(s, dispute, bet, locked).Outcome(s), bet)
  {
    hide Books, AfterRefundBoth;
  }

  lemma VoidingKeepsMoney(s: State, step: Step)
    requires IsVoiding(step) && step.bet in s.bets
    ensures MovesOnlyOut(s, Apply(s, step), step.bet)
  {
    hide Books, AfterNoShow, AfterSweep, AutoVoidAttempt, AfterUnderageVoid;
    match step
    case NoShow(bet, _) => NoShowMovesOut(s, bet);
    case Sweeps(bet, now, _) => SweepMovesOut(s, bet, now);
    case AutoVoids(dispute, bet, locked) => AutoVoidMovesOut(s, dispute, bet, locked);
    case Withdraws(bet) => NoShowMovesOut(s, bet);
    case VoidsUnderage(bet) => UnderageMovesOut(s, bet);
  }

  lemma ClosingKeepsMoney(s: State, step: Step, bet: Id)
    requires (step.SettlesBet? || step.Expires? || step.Rules?) && Target(s, step) == Some(bet) && bet in s.bets
    ensures MovesOnlyOut(s, Apply(s, step), bet)
  {
    hide Books, AfterMoney, AfterRefund, AfterRuling, Fees.PlatformFee, Fees.RefereeFee;
    if step.Rules? {
      RulingMovesOut(s, step.dispute, step.ruling, step.now, bet);
    }
  }

  lemma StayingKeepsMoney(s: State, step: Step, bet: Id)
    requires !IsMatching(step) && Target(s, step) == Some(bet) && bet in s.bets
    ensures MovesOnlyOut(s, Apply(s, step), bet)
  {
    hide Apply, SameBooks;
    if IsVoiding(step) {
      VoidingKeepsMoney(s, step);
    } else if step.SettlesBet? || step.Expires? || step.Rules? {
      ClosingKeepsMoney(s, step, bet);
    } else {
      RowsKeepLedger(s, step);
      BooksAreBalances(s, Apply(s, step));
    }
  }

  lemma BooksAreBalances(s: State, t: State)
    requires SameBooks(s, t)
    ensures t.balances == s.balances
  {
  }

  lemma MatchingPaysIn(s: State, step: Step)
    requires IsMatching(step) && Sound(s)
    ensures Apply(s, step) == s || PaysIn(s, Apply(s, step), step.bet)
  {
    hide Sound, PaysIn, AfterProposal, AfterConsent, AfterAccept, AfterLobbyMatch;
    if Apply(s, step) != s {
      match step
      case Proposes(bet, row) => ProposalPaysIn(s, bet, row);
      case Consents(bet) => ConsentPaysIn(s, bet);
      case Accepts(bet, player) => AcceptPaysIn(s, bet, player);
      case MatchesInLobby(bet, row, reward, now) => LobbyPaysIn(s, bet, row, reward, now);
    }
  }

  /**
   While a bet stays in, whatever step is aimed at it, each player has paid in one stake
   from the moment they joined and nothing else has moved: not a penny of anyone else's,
   and nothing twice.
   */
  lemma StayingPaysExactly(s: State, step: Step, bet: Id)
    requires Sound(s) && Target(s, step) == Some(bet) && Apply(s, step) != s
    requires bet in s.bets ==> !s.bets[bet].status.IsTerminal()
    requires bet in s.bets || IsMatching(step)
    requires bet in Apply(s, step).bets && !Apply(s, step).bets[bet].status.IsTerminal()
    ensures PaysIn(s, Apply(s, step), bet)
  {
    hide Sound, Apply, PaysIn, Target;
    if IsMatching(step) {
      TargetIsBet(s, step);
      MatchingPaysIn(s, step);
    } else {
      StayingKeepsMoney(s, step, bet);
      StepMoves(s, step);
      StepGoesOn(s, step, bet);
      if bet in s.assignments {
        RefereedIsMatched(s, bet);
      }
      StaysOnEdges(s, Apply(s, step), step, bet);
      SamePaysIn(s, Apply(s, step), bet);
    }
  }

  lemma RefereedIsMatched(s: State, bet: Id)
    requires Sound(s) && bet in s.assignments
    ensures bet in s.bets && !s.bets[bet].status.CanHold()
  {
    assert AssignmentSound(s, bet);
  }

  lemma TargetIsBet(s: State, step: Step)
    requires IsMatching(step)
    ensures Target(s, step) == Some(step.bet)
  {
  }

  lemma StaysOnEdges(s: State, t: State, step: Step, bet: Id)
    requires Follows(s, t, step) && !IsMatching(step) && bet in s.bets && bet in t.bets
    requires !s.bets[bet].status.IsTerminal() && !t.bets[bet].status.IsTerminal()
    requires bet in s.assignments ==> !s.bets[bet].status.CanHold()
    ensures t.bets[bet].playerB == s.bets[bet].playerB
    ensures t.bets[bet].status == s.bets[bet].status
            || (s.bets[bet].status.IsUnsettled() && t.bets[bet].status.IsUnsettled())
  {
    hide AssignmentsMove, DisputesMove;
  }
}
