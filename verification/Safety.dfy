/** The invariant holds over every run, up to the one request that can reopen a finished bet. */
module Safety {
  import opened Tables
  import opened IdempotencyKeys
  import opened Ledger
  import opened Fees
  import opened Settlement
  import opened BetExpiry
  import opened ConsentExpiry
  import opened DisputeEscalation
  import opened Lifecycle
  import opened Invariant
  import opened RowSteps
  import opened MoneySteps
  import opened Payments
  import opened VoidSteps
  import opened SettlementEffect
  import opened Protocol

  /** A ruling that names an outcome, on a refereed bet that has already been paid out or refunded. */
  predicate Reopens(s: State, step: Step) {
    && step.Rules? && step.ruling != ForVoid
    && step.dispute in s.disputes
    && var bet := s.disputes[step.dispute].bet;
       bet in s.assignments && bet in s.bets && s.bets[bet].status.IsTerminal()
  }

  // ---- steps that only rewrite rows ---------------------------------------

  /** Rows rewritten, no money moved: what RelabelKeepsSound and RowsFollow ask for, together. */
  lemma RelabelStep(s: State, t: State, bet: Id)
    requires Sound(s) && bet in s.bets && bet in t.bets
    requires t == s.(bets := s.bets[bet := t.bets[bet]], assignments := t.assignments, disputes := t.disputes)
    requires Relabels(s.bets[bet], t.bets[bet])
    requires var before, after := s.bets[bet].status, t.bets[bet].status;
             before == after || before.CanHold() || (after.HadOpponent() && !after.MATCHED?)
    requires forall d :: d in s.disputes ==> d in t.disputes && t.disputes[d].bet == s.disputes[d].bet
    requires forall d :: d in t.disputes ==>
               || d in s.disputes
               || (t.disputes[d].bet == bet && t.bets[bet].status.HadOpponent() && !t.bets[bet].status.MATCHED?)
    requires forall b :: b in t.assignments ==>
               || (b in s.assignments && t.assignments[b].rewardPercent == s.assignments[b].rewardPercent)
               || (b == bet && !t.bets[bet].status.CanHold() && 0 <= t.assignments[b].rewardPercent <= WHOLE)
    ensures Sound(t)
  {
    hide RowsSound, CountersAgree, Solvent, Books, Relabels, DisputeSound, AssignmentSound;
    RowsFollow(s, t, bet);
    RelabelKeepsSound(s, t, bet);
  }

  lemma Unchanged(s: State, bet: Id)
    requires RowsSound(s) && bet in s.bets
    ensures Relabels(s.bets[bet], s.bets[bet])
  {
    assert RowSound(s, bet);
  }

  lemma ProposalKeepsSound(s: State, bet: Id, row: Bet)
    requires Sound(s) && AfterProposal(s, bet, row).Done?
    ensures Sound(AfterProposal(s, bet, row).state)
  {
    hide Books, CountersAgree, Solvent;
    var t := AfterProposal(s, bet, row).state;
    assert Escrow(bet) !in s.balances;
    forall k | k in t.txns
      ensures KeySound(t, k)
    {
      assert KeySound(s, k);
    }
    forall d | d in t.disputes
      ensures DisputeSound(t, d)
    {
      assert DisputeSound(s, d);
    }
    forall b | b in t.assignments
      ensures AssignmentSound(t, b)
    {
      assert AssignmentSound(s, b);
    }
    SameLedger(s, t);
    OnlyBetKeepsSound(s, t, bet);
  }

  lemma OpenAssignmentKeepsSound(s: State, bet: Id, reward: int, now: int)
    requires Sound(s) && AfterOpenAssignment(s, bet, reward, now).Done?
    ensures Sound(AfterOpenAssignment(s, bet, reward, now).state)
  {
    hide Sound, RowsSound;
    SoundParts(s);
    Unchanged(s, bet);
    RelabelStep(s, AfterOpenAssignment(s, bet, reward, now).state, bet);
  }

  lemma SoundParts(s: State)
    requires Sound(s)
    ensures RowsSound(s)
  {
  }

  lemma LobbyKeepsSound(s: State, bet: Id, row: Bet, reward: Option<int>, now: int)
    requires Sound(s) && AfterLobbyMatch(s, bet, row, reward, now).Done?
    ensures Sound(AfterLobbyMatch(s, bet, row, reward, now).state)
  {
    hide Sound, AfterProposal, AfterConsent, AfterAccept, AfterOpenAssignment;
    ProposalKeepsSound(s, bet, row);
    var s1 := AfterProposal(s, bet, row).state;
    ConsentKeepsSound(s1, bet);
    var s2 := AfterConsent(s1, bet).state;
    AcceptKeepsSound(s2, bet, row.playerB.value);
    if reward.Some? {
      OpenAssignmentKeepsSound(AfterAccept(s2, bet, row.playerB.value).state, bet, reward.value, now);
    }
  }

  lemma CapsKeepSound(s: State, developer: Id, maxTotal: int, maxSingle: int)
    requires Sound(s) && AfterCapChange(s, developer, maxTotal, maxSingle).Done?
    ensures Sound(AfterCapChange(s, developer, maxTotal, maxSingle).state)
  {
    hide Books, CountersAgree, Solvent, RowsSound;
    var t := AfterCapChange(s, developer, maxTotal, maxSingle).state;
    SameLedger(s, t);
    SameExposures(s, t);
    SameRowsSound(s, t);
  }

  lemma SameRowsSound(s: State, t: State)
    requires RowsSound(s) && t == s.(limits := t.limits, clientKeys := t.clientKeys)
    ensures RowsSound(t)
  {
    assert forall b :: b in s.bets ==> RowSound(s, b) ==> RowSound(t, b);
    assert forall k :: k in s.txns ==> KeySound(s, k) ==> KeySound(t, k);
    assert forall d :: d in s.disputes ==> DisputeSound(s, d) ==> DisputeSound(t, d);
    assert forall b :: b in s.assignments ==> AssignmentSound(s, b) ==> AssignmentSound(t, b);
  }

  /** Which texts customers have used is no part of what is sound. */
  lemma TextsKeepSound(s: State, t: State)
    requires Sound(s) && t == s.(clientKeys := t.clientKeys)
    ensures Sound(t)
  {
    hide Books, CountersAgree, Solvent, RowsSound;
    SameLedger(s, t);
    SameExposures(s, t);
    SameRowsSound(s, t);
  }

  lemma CashOutKeepsSound(s: State, user: Id, amount: int, text: string)
    requires Sound(s) && AfterCashOut(s, user, amount, text).Done?
    ensures Sound(AfterCashOut(s, user, amount, text).state)
  {
    hide Sound, AfterTransfer, Text;
    PaymentKeepsSound(s, PlayerBalance(user), StripeSink, amount, CashOutKey(text));
    TextsKeepSound(AfterTransfer(s, PlayerBalance(user), StripeSink, amount, CashOutKey(text)).state,
                   AfterCashOut(s, user, amount, text).state);
  }

  lemma DisputeStatusKeepsSound(s: State, dispute: Id, status: DisputeStatus)
    requires Sound(s) && dispute in s.disputes
    ensures s.disputes[dispute].bet in s.bets && Sound(Resolved(s, dispute, status))
  {
    hide Sound;
    SoundParts(s);
    assert DisputeSound(s, dispute);
    Unchanged(s, s.disputes[dispute].bet);
    RelabelStep(s, Resolved(s, dispute, status), s.disputes[dispute].bet);
  }

  /** An assignment changes hands or stage; the bet does not. */
  lemma AssignmentKeepsSound(s: State, bet: Id, row: Assignment)
    requires Sound(s) && bet in s.assignments && row.rewardPercent == s.assignments[bet].rewardPercent
    ensures bet in s.bets && Sound(s.(assignments := s.assignments[bet := row]))
  {
    hide Sound;
    SoundParts(s);
    assert AssignmentSound(s, bet);
    Unchanged(s, bet);
    RelabelStep(s, s.(assignments := s.assignments[bet := row]), bet);
  }

  lemma ConsentExpiryKeepsSound(s: State, bet: Id)
    requires Sound(s)
    ensures Sound(AfterConsentExpiry(s, bet))
  {
    hide Sound;
    SoundParts(s);
    if bet in s.bets && s.bets[bet].status == PENDING_CONSENT {
      Unchanged(s, bet);
      RelabelStep(s, AfterConsentExpiry(s, bet), bet);
    }
  }

  lemma SweepKeepsSound(s: State, bet: Id, now: int)
    requires Sound(s) && AfterSweep(s, bet, now).Done?
    ensures Sound(AfterSweep(s, bet, now).state)
  {
    hide Sound, AfterNoShow;
    if bet in s.assignments {
      AssignmentKeepsSound(s, bet, s.assignments[bet].(status := ASG_OPEN, referee := None, since := now));
      if AfterNoShow(s, bet).Done? {
        NoShowKeepsSound(s, bet);
      }
    }
  }

  lemma AutoVoidAttemptKeepsSound(s: State, dispute: Id, locked: bool)
    requires Sound(s) && dispute in s.disputes
    ensures Sound(AutoVoidAttempt(s, dispute, s.disputes[dispute].bet, locked).Outcome(s))
  {
    hide Sound, AfterRefundBoth;
    var bet := s.disputes[dispute].bet;
    DisputeStatusKeepsSound(s, dispute, RESOLVED_VOID);
    if HoldsDisputedStakes(s, bet) && AfterAutoVoid(s, dispute, bet).Done? {
      AutoVoidKeepsSound(s, dispute);
    }
  }

  // ---- results and disputes -----------------------------------------------

  lemma ReportKeepsSound(s: State, bet: Id, outcome: BetOutcome, verified: bool, now: int)
    requires Sound(s) && AfterReport(s, bet, outcome, verified, now).Done?
    ensures Sound(AfterReport(s, bet, outcome, verified, now).state)
  {
    hide Sound;
    SoundParts(s);
    Unchanged(s, bet);
    RelabelStep(s, AfterReport(s, bet, outcome, verified, now).state, bet);
  }

  lemma VerificationKeepsSound(s: State, bet: Id)
    requires Sound(s) && AfterVerification(s, bet).Done?
    ensures Sound(AfterVerification(s, bet).state)
  {
    hide Sound;
    SoundParts(s);
    Unchanged(s, bet);
    RelabelStep(s, AfterVerification(s, bet).state, bet);
  }

  lemma DecisionKeepsSound(s: State, bet: Id, outcome: BetOutcome, now: int)
    requires Sound(s) && AfterDecision(s, bet, outcome, now).Done?
    ensures Sound(AfterDecision(s, bet, outcome, now).state)
  {
    hide Sound;
    SoundParts(s);
    Unchanged(s, bet);
    RelabelStep(s, AfterDecision(s, bet, outcome, now).state, bet);
  }

  lemma FilingKeepsSound(s: State, dispute: Id, bet: Id)
    requires Sound(s) && AfterDisputeFiled(s, dispute, bet).Done?
    ensures Sound(AfterDisputeFiled(s, dispute, bet).state)
  {
    hide Sound;
    var filed := s.(disputes := s.disputes[dispute := Dispute(bet, DSP_OPEN)]);
    if s.bets[bet].status == RESULT_REPORTED {
      FiledKeepsSound(s, WithStatus(filed, bet, DISPUTED), dispute, bet);
    } else {
      FiledKeepsSound(s, filed, dispute, bet);
    }
  }

  lemma FiledKeepsSound(s: State, held: State, dispute: Id, bet: Id)
    requires Sound(s) && bet in s.bets && bet in held.bets && dispute !in s.disputes && s.bets[bet].status.CanDispute()
    requires held == s.(bets := s.bets[bet := held.bets[bet]], disputes := s.disputes[dispute := Dispute(bet, DSP_OPEN)])
    requires held.bets[bet] == s.bets[bet]
             || (s.bets[bet].status == RESULT_REPORTED && held.bets[bet] == s.bets[bet].(status := DISPUTED))
    ensures Sound(held)
    ensures bet in s.assignments ==>
              Sound(held.(assignments := s.assignments[bet := s.assignments[bet].(status := ASG_DISPUTED)]))
  {
    hide Sound;
    SoundParts(s);
    Unchanged(s, bet);
    RelabelStep(s, held, bet);
    if bet in s.assignments {
      AssignmentKeepsSound(held, bet, s.assignments[bet].(status := ASG_DISPUTED));
    }
  }

  /** Naming an outcome while both stakes are held. */
  lemma OutcomeKeepsSound(s: State, bet: Id, outcome: BetOutcome, now: int)
    requires Sound(s) && bet in s.bets && s.bets[bet].status.IsUnsettled()
    ensures Sound(s.(bets := s.bets[bet := Reported(s.bets[bet], outcome, true, now)]))
  {
    hide Sound;
    SoundParts(s);
    Unchanged(s, bet);
    RelabelStep(s, s.(bets := s.bets[bet := Reported(s.bets[bet], outcome, true, now)]), bet);
  }

  lemma OutcomeRulingKeepsSound(s: State, dispute: Id, ruling: Ruling, now: int)
    requires Sound(s) && ruling != ForVoid && AfterRuling(s, dispute, ruling, now).Done?
    requires s.disputes[dispute].bet in s.assignments ==> !s.bets[s.disputes[dispute].bet].status.IsTerminal()
    ensures Sound(AfterRuling(s, dispute, ruling, now).state)
  {
    hide Sound, AfterRefundBoth;
    SoundParts(s);
    var bet := s.disputes[dispute].bet;
    assert DisputeSound(s, dispute);
    var decided := Resolved(s, dispute, ruling.Status());
    DisputeStatusKeepsSound(s, dispute, ruling.Status());
    if bet in s.assignments || s.bets[bet].status == DISPUTED {
      OutcomeKeepsSound(decided, bet, ruling.Outcome().value, now);
      if bet in s.assignments {
        var t := decided.(bets := s.bets[bet := Reported(s.bets[bet], ruling.Outcome().value, true, now)]);
        AssignmentKeepsSound(t, bet, s.assignments[bet].(status := ASG_DECISION_SUBMITTED, deadline := Some(now)));
      }
    }
  }

  lemma RulingKeepsSound(s: State, dispute: Id, ruling: Ruling, now: int)
    requires Sound(s) && AfterRuling(s, dispute, ruling, now).Done?
    requires !Reopens(s, Rules(dispute, ruling, now))
    ensures Sound(AfterRuling(s, dispute, ruling, now).state)
  {
    hide Sound, AfterRefundBoth;
    var bet := s.disputes[dispute].bet;
    if ruling != ForVoid {
      OutcomeRulingKeepsSound(s, dispute, ruling, now);
    } else if s.bets[bet].status == DISPUTED {
      VoidRulingKeepsSound(s, dispute, now);
    } else {
      DisputeStatusKeepsSound(s, dispute, RESOLVED_VOID);
    }
  }

  // ---- every step ---------------------------------------------------------

  predicate IsWorkers(step: Step) {
    || step.ConsentExpires? || step.Expires? || step.NoShow? || step.Sweeps?
    || step.SettlesBet? || step.Escalates? || step.AutoVoids?
  }

  /** No worker needs a proviso. */
  lemma WorkerKeepsSound(s: State, step: Step)
    requires Sound(s) && IsWorkers(step)
    ensures Sound(Apply(s, step))
  {
    hide Sound, AfterSettlement, AfterExpiry, AfterNoShow, AfterSweep, AutoVoidAttempt, AfterConsentExpiry;
    match step
    case ConsentExpires(bet) => ConsentExpiryKeepsSound(s, bet);
    case Expires(bet, locked) =>
      if ExpireAttempt(s, bet, locked).Committed? { ExpiryKeepsSound(s, bet); }
    case NoShow(bet, locked) =>
      if NoShowAttempt(s, bet, locked).Committed? { NoShowKeepsSound(s, bet); }
    case Sweeps(bet, now, locked) =>
      if SweepAttempt(s, bet, now, locked).Committed? { SweepKeepsSound(s, bet, now); }
    case SettlesBet(bet, locked) =>
      if SettleAttempt(s, bet, locked).Committed? { SettlementKeepsSound(s, bet); }
    case Escalates(dispute) =>
      if dispute in s.disputes { DisputeStatusKeepsSound(s, dispute, DSP_UNDER_REVIEW); }
    case AutoVoids(dispute, bet, locked) =>
      if dispute in s.disputes { AutoVoidAttemptKeepsSound(s, dispute, locked); }
  }

  lemma RequestKeepsSound(s: State, step: Step)
    requires Sound(s) && !IsWorkers(step) && !Reopens(s, step) && (step.Reverses? ==> Routed(s))
    ensures Sound(Apply(s, step))
  {
    hide Sound, Reopens, AfterProposal, AfterConsent, AfterAccept, AfterLobbyMatch, AfterReport, AfterVerification,
      AfterDecision, AfterNoShow, AfterDisputeFiled, AfterRuling, AfterUnderageVoid, AfterTransfer, AfterCapChange,
      AfterReversal, AfterCashOut, Routed;
    if Apply(s, step) != s {
      match step
      case Proposes(bet, row) => ProposalKeepsSound(s, bet, row);
      case Consents(bet) => ConsentKeepsSound(s, bet);
      case Accepts(bet, player) => AcceptKeepsSound(s, bet, player);
      case MatchesInLobby(bet, row, reward, now) => LobbyKeepsSound(s, bet, row, reward, now);
      case Reports(bet, outcome, verified, now) => ReportKeepsSound(s, bet, outcome, verified, now);
      case Verifies(bet) => VerificationKeepsSound(s, bet);
      case Claims(bet, referee, now) =>
        AssignmentKeepsSound(s, bet, s.assignments[bet].(status := ASG_ASSIGNED, referee := Some(referee), since := now));
      case Advances(bet, start, now) =>
        AssignmentKeepsSound(s, bet,
          s.assignments[bet].(status := if start then ASG_IN_PROGRESS else ASG_READY, since := now));
      case Decides(bet, outcome, now) => DecisionKeepsSound(s, bet, outcome, now);
      case Withdraws(bet) => NoShowKeepsSound(s, bet);
      case FilesDispute(dispute, bet) => FilingKeepsSound(s, dispute, bet);
      case ClaimsDispute(dispute) => DisputeStatusKeepsSound(s, dispute, DSP_UNDER_REVIEW);
      case Rules(dispute, ruling, now) => RulingKeepsSound(s, dispute, ruling, now);
      case VoidsUnderage(bet) => UnderageKeepsSound(s, bet);
      case Deposits(user, amount, reference) =>
        PaymentKeepsSound(s, StripeSource, PlayerBalance(user), amount, DepositKey(reference));
      case RequestsDeposit(text) => TextsKeepSound(s, Apply(s, step));
      case CashesOut(user, amount, text) => CashOutKeepsSound(s, user, amount, text);
      case Reverses(user, amount, text) => ReversalKeepsSound(s, user, amount, text);
      case ChangesCaps(developer, maxTotal, maxSingle) => CapsKeepSound(s, developer, maxTotal, maxSingle);
    }
  }

  lemma StepKeepsSound(s: State, step: Step)
    requires Sound(s) && !Reopens(s, step) && (step.Reverses? ==> Routed(s))
    ensures Sound(Apply(s, step))
  {
    hide Sound, Apply, Reopens, Routed;
    if IsWorkers(step) {
      WorkerKeepsSound(s, step);
    } else {
      RequestKeepsSound(s, step);
    }
  }
}
