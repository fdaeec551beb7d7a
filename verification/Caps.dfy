/** A developer's escrow caps: what a hold asks of them, and that no step takes a counter past its cap. */
module Caps {
  import opened Tables
  import opened Ledger
  import opened Escrows
  import opened Settlement
  import opened BetExpiry
  import opened DisputeEscalation
  import opened Lifecycle
  import opened Invariant
  import opened MoneySteps
  import opened Protocol
  import opened Safety
  import opened History
  import opened Transitions
  import opened Runs

  // ---- exactly when a stake can be held -----------------------------------

  predicate WithinCaps(s: State, row: Bet, amount: int) {
    var id := LimitOf(s, row);
    id.Some? ==>
      s.limits[id.value].current + amount <= s.limits[id.value].maxTotal && amount <= s.limits[id.value].maxSingle
  }

  /** The player has the stake, both accounts are usable, the key is free and the developer's caps leave room. */
  predicate CanStake(s: State, bet: Id, player: Id, movement: Movement)
    requires bet in s.bets
  {
    && Bal(s, PlayerBalance(player)) >= s.bets[bet].amount
    && PlayerBalance(player) !in s.cat.frozen && Escrow(bet) !in s.cat.frozen
    && !ClientHas(s, BetKey(movement, bet)) && WithinCaps(s, s.bets[bet], s.bets[bet].amount)
  }

  lemma HoldExact(s: State, bet: Id, player: Id, movement: Movement)
    requires bet in s.bets && s.bets[bet].amount > 0 && s.bets[bet].game in s.cat.games
    requires s.bets[bet].status.CanHold() && BetKey(movement, bet) !in s.txns
    ensures AfterHold(s, bet, player, s.bets[bet].amount, movement).Done? <==> CanStake(s, bet, player, movement)
  {
    hide Books, ClientHas;
  }

  /** In a sound database an offer opens exactly when its maker can stake on it. */
  lemma ConsentExact(s: State, bet: Id)
    requires Sound(s) && bet in s.bets && s.bets[bet].status == PENDING_CONSENT
    ensures var r := AfterConsent(s, bet);
            && (r.Done? <==> CanStake(s, bet, s.bets[bet].playerA, HoldA))
            && (r.Done? ==> r.state.bets == s.bets[bet := s.bets[bet].(status := OPEN)])
  {
    hide Books, CountersAgree, Solvent, RowsSound, AfterHold, CanStake;
    RowIsSound(s, bet);
    ExitKeysFresh(s, bet);
    HoldExact(s, bet, s.bets[bet].playerA, HoldA);
  }

  /** And is matched exactly when somebody else, the invited player if there is one, can. */
  lemma AcceptExact(s: State, bet: Id, player: Id)
    requires Sound(s) && bet in s.bets && s.bets[bet].status == OPEN
    ensures var r := AfterAccept(s, bet, player);
            && (r.Done? <==>
                  && player != s.bets[bet].playerA
                  && (s.bets[bet].playerB.Some? ==> player == s.bets[bet].playerB.value)
                  && CanStake(s, bet, player, HoldB))
            && (r.Done? ==> r.state.bets == s.bets[bet := s.bets[bet].(status := MATCHED, playerB := Some(player))])
  {
    hide Books, CountersAgree, Solvent, RowsSound, AfterHold, CanStake;
    RowIsSound(s, bet);
    ExitKeysFresh(s, bet);
    HoldExact(s, bet, player, HoldB);
  }

  /** The caps a developer has been given are the ones the next stake is held against. */
  lemma CapChangeGoverns(s: State, developer: Id, maxTotal: int, maxSingle: int, row: Bet, amount: int)
    requires developer in s.limits && DeveloperOf(s, row.game) == Some(developer)
    ensures var r := AfterCapChange(s, developer, maxTotal, maxSingle);
            && r.Done?
            && (WithinCaps(r.state, row, amount)
                <==> s.limits[developer].current + amount <= maxTotal && amount <= maxSingle)
            && (forall d :: d in s.limits ==> d in r.state.limits && r.state.limits[d].current == s.limits[d].current)
            && (forall d :: d in s.limits && d != developer ==> r.state.limits[d] == s.limits[d])
  {
  }

  // ---- no step takes a counter past its cap -------------------------------

  /** The caps stay, and a counter that rose stays within its own. */
  ghost predicate Respects(s: State, t: State) {
    forall d :: d in s.limits ==>
      && d in t.limits
      && t.limits[d].maxTotal == s.limits[d].maxTotal && t.limits[d].maxSingle == s.limits[d].maxSingle
      && (t.limits[d].current <= Max(s.limits[d].current, 0) || t.limits[d].current <= t.limits[d].maxTotal)
  }

  lemma SameRespects(s: State, t: State)
    requires t.limits == s.limits
    ensures Respects(s, t)
  {
  }

  lemma RespectsThen(s: State, t: State, u: State)
    requires Respects(s, t) && Respects(t, u)
    ensures Respects(s, u)
  {
  }

  lemma HoldRespects(s: State, bet: Id, player: Id, amount: int, movement: Movement)
    ensures Respects(s, OrSame(s, AfterHold(s, bet, player, amount, movement)))
  {
    hide Books, AfterTransfer;
  }

  lemma LowerRespects(s: State, row: Bet, amount: int)
    requires amount > 0
    ensures Respects(s, LowerCounter(s, row, amount))
  {
  }

  lemma RefundRespects(s: State, bet: Id, player: Id, amount: int, key: Key)
    ensures Respects(s, OrSame(s, AfterRefund(s, bet, player, amount, key)))
  {
    hide Books, AfterTransfer, LowerCounter, Respects;
    var r := AfterRefund(s, bet, player, amount, key);
    SameRespects(s, s);
    if r.Done? {
      var t := AfterTransfer(s, Escrow(bet), PlayerBalance(player), amount, key).state;
      SameRespects(s, t);
      LowerRespects(t, t.bets[bet], amount);
      RespectsThen(s, t, LowerCounter(t, t.bets[bet], amount));
    }
  }

  lemma RefundBothRespects(s: State, bet: Id, keyA: Key, keyB: Key)
    requires bet in s.bets
    ensures Respects(s, OrSame(s, AfterRefundBoth(s, bet, keyA, keyB)))
  {
    hide Books, AfterRefund, Respects;
    SameRespects(s, s);
    var row := s.bets[bet];
    RefundRespects(s, bet, row.playerA, row.amount, keyA);
    var r := AfterRefund(s, bet, row.playerA, row.amount, keyA);
    if r.Done? && row.playerB.Some? {
      RefundRespects(r.state, bet, row.playerB.value, row.amount, keyB);
      RespectsThen(s, r.state, OrSame(r.state, AfterRefund(r.state, bet, row.playerB.value, row.amount, keyB)));
    }
  }

  /** The money was moved on `u`, and the rows around it rewritten before and after. */
  lemma RespectsBetween(s: State, u: State, r: Result, q: Result)
    requires u.limits == s.limits && Respects(u, OrSame(u, r))
    requires q.Done? ==> r.Done? && q.state.limits == r.state.limits
    ensures Respects(s, OrSame(s, q))
  {
  }

  lemma ConsentRespects(s: State, bet: Id)
    ensures Respects(s, OrSame(s, AfterConsent(s, bet)))
  {
    hide Books, AfterHold, Respects;
    SameRespects(s, s);
    if bet in s.bets {
      var r := AfterHold(s, bet, s.bets[bet].playerA, s.bets[bet].amount, HoldA);
      HoldRespects(s, bet, s.bets[bet].playerA, s.bets[bet].amount, HoldA);
      RespectsBetween(s, s, r, AfterConsent(s, bet));
    }
  }

  lemma AcceptRespects(s: State, bet: Id, player: Id)
    ensures Respects(s, OrSame(s, AfterAccept(s, bet, player)))
  {
    hide Books, AfterHold, Respects;
    SameRespects(s, s);
    if bet in s.bets {
      var r := AfterHold(s, bet, player, s.bets[bet].amount, HoldB);
      HoldRespects(s, bet, player, s.bets[bet].amount, HoldB);
      RespectsBetween(s, s, r, AfterAccept(s, bet, player));
    }
  }

  lemma LobbyRespects(s: State, bet: Id, row: Bet, reward: Option<int>, now: int)
    ensures Respects(s, OrSame(s, AfterLobbyMatch(s, bet, row, reward, now)))
  {
    hide Books, AfterConsent, AfterAccept, Respects;
    SameRespects(s, s);
    var q := AfterLobbyMatch(s, bet, row, reward, now);
    if q.Done? {
      var s1 := AfterProposal(s, bet, row).state;
      SameRespects(s, s1);
      ConsentRespects(s1, bet);
      var s2 := AfterConsent(s1, bet).state;
      AcceptRespects(s2, bet, row.playerB.value);
      var s3 := AfterAccept(s2, bet, row.playerB.value).state;
      SameRespects(s3, q.state);
      RespectsThen(s, s1, s2);
      RespectsThen(s, s2, s3);
      RespectsThen(s, s3, q.state);
    }
  }

  lemma NoShowRespects(s: State, bet: Id)
    ensures Respects(s, OrSame(s, AfterNoShow(s, bet)))
  {
    hide Books, AfterRefundBoth, Respects;
    SameRespects(s, s);
    var q := AfterNoShow(s, bet);
    if q.Done? && IsUnplayed(s, bet) {
      var u := WithStatus(CancelLiveAssignment(s, bet), bet, VOIDED);
      SameRespects(s, u);
      RefundBothRespects(u, bet, BetKey(NoShowA, bet), BetKey(NoShowB, bet));
      if Escrow(bet) in s.balances {
        RespectsBetween(s, u, AfterRefundBoth(u, bet, BetKey(NoShowA, bet), BetKey(NoShowB, bet)), q);
      }
    }
  }

  lemma SweepRespects(s: State, bet: Id, now: int)
    ensures Respects(s, OrSame(s, AfterSweep(s, bet, now)))
  {
    hide Books, AfterNoShow, Respects;
    NoShowRespects(s, bet);
    var t := OrSame(s, AfterSweep(s, bet, now));
    if t != OrSame(s, AfterNoShow(s, bet)) {
      SameRespects(s, t);
    }
  }

  lemma UnderageRespects(s: State, bet: Id)
    ensures Respects(s, OrSame(s, AfterUnderageVoid(s, bet)))
  {
    hide Books, AfterRefundBoth, Respects;
    SameRespects(s, s);
    var q := AfterUnderageVoid(s, bet);
    if q.Done? && s.bets[bet].status.IsUnsettled() {
      var u := CancelOpenAssignment(WithStatus(s, bet, VOIDED), bet);
      SameRespects(s, u);
      RefundBothRespects(u, bet, BetKey(UnderageA, bet), BetKey(UnderageB, bet));
      if Escrow(bet) in s.balances {
        RespectsBetween(s, u, AfterRefundBoth(u, bet, BetKey(UnderageA, bet), BetKey(UnderageB, bet)), q);
      }
    }
  }

  lemma AutoVoidRespects(s: State, dispute: Id, bet: Id, locked: bool)
    ensures Respects(s, AutoVoidAttempt(s, dispute, bet, locked).Outcome(s))
  {
    hide Books, AfterRefundBoth, Respects;
    SameRespects(s, s);
    if AutoVoidAttempt(s, dispute, bet, locked).Committed? {
      var q := AfterAutoVoid(s, dispute, bet);
      if HoldsDisputedStakes(s, bet) {
        var u := WithStatus(s, bet, VOIDED);
        RefundBothRespects(u, bet, BetKey(DisputeVoidA, bet), BetKey(DisputeVoidB, bet));
        RespectsBetween(s, u, AfterRefundBoth(u, bet, BetKey(DisputeVoidA, bet), BetKey(DisputeVoidB, bet)), q);
      } else {
        SameRespects(s, q.state);
      }
    }
  }

  lemma RulingRespects(s: State, dispute: Id, ruling: Ruling, now: int)
    ensures Respects(s, OrSame(s, AfterRuling(s, dispute, ruling, now)))
  {
    hide Books, AfterRefundBoth, Respects;
    SameRespects(s, s);
    var q := AfterRuling(s, dispute, ruling, now);
    if q.Done? {
      var bet := s.disputes[dispute].bet;
      if ruling.ForVoid? && s.bets[bet].status == DISPUTED {
        var decided := Resolved(s, dispute, RESOLVED_VOID);
        var keyA, keyB := ResolveKey(true, dispute), ResolveKey(false, dispute);
        var u := if bet in s.assignments then decided else WithStatus(decided, bet, VOIDED);
        RefundBothRespects(u, bet, keyA, keyB);
        RespectsBetween(s, u, AfterRefundBoth(u, bet, keyA, keyB), q);
      } else {
        SameRespects(s, q.state);
      }
    }
  }

  lemma ExpiryRespects(s: State, bet: Id, locked: bool)
    ensures Respects(s, ExpireAttempt(s, bet, locked).Outcome(s))
  {
    hide Books, AfterRefund, Respects;
    SameRespects(s, s);
    if ExpireAttempt(s, bet, locked).Committed? {
      var row := s.bets[bet];
      RefundRespects(s, bet, row.playerA, row.amount, BetKey(ExpiryRefund, bet));
      RespectsBetween(s, s, AfterRefund(s, bet, row.playerA, row.amount, BetKey(ExpiryRefund, bet)), AfterExpiry(s, bet));
    }
  }

  lemma CloseRespects(s: State, u: State, bet: Id, fee: int, refereeFee: int)
    requires OnlyLedger(s, u) && bet in s.bets && s.bets[bet].amount > 0
    ensures Respects(s, OrSame(s, AfterClose(u, bet, fee, refereeFee)))
  {
    hide Books, LowerCounter, Respects;
    SameRespects(s, s);
    var row := s.bets[bet];
    var r := AfterClose(u, bet, fee, refereeFee);
    if r.Done? {
      var settled := u.(bets := u.bets[bet := row.(status := SETTLED, feeTaken := Some(fee))]);
      var closed := if bet !in u.assignments then settled
                    else settled.(assignments := u.assignments[bet :=
                      u.assignments[bet].(status := ASG_COMPLETED, reward := Some(refereeFee))]);
      SameRespects(s, closed);
      LowerRespects(closed, row, 2 * row.amount);
      RespectsThen(s, closed, r.state);
    }
  }

  lemma SettlingRespects(s: State, bet: Id, locked: bool)
    requires bet in s.bets ==> s.bets[bet].amount > 0
    ensures Respects(s, SettleAttempt(s, bet, locked).Outcome(s))
  {
    hide Books, AfterMoney, AfterClose, Fees.PlatformFee, Fees.RefereeFee, Respects;
    SameRespects(s, s);
    if SettleAttempt(s, bet, locked).Committed? {
      var fee := Fees.PlatformFee(s.bets[bet].amount, s.bets[bet].feePercent);
      var refereeFee := Fees.RefereeFee(fee, AssignmentOf(s, bet));
      CloseRespects(s, AfterMoney(s, bet, fee, refereeFee).state, bet, fee, refereeFee);
    }
  }

  // ---- every step ---------------------------------------------------------

  lemma MatchingRespects(s: State, step: Step)
    requires IsMatching(step)
    ensures Respects(s, Apply(s, step))
  {
    hide Books, AfterConsent, AfterAccept, AfterLobbyMatch, Respects;
    match step
    case Proposes(_, _) => SameRespects(s, Apply(s, step));
    case Consents(bet) => ConsentRespects(s, bet);
    case Accepts(bet, player) => AcceptRespects(s, bet, player);
    case MatchesInLobby(bet, row, reward, now) => LobbyRespects(s, bet, row, reward, now);
  }

  lemma VoidingRespects(s: State, step: Step)
    requires IsVoiding(step)
    ensures Respects(s, Apply(s, step))
  {
    hide Books, AfterNoShow, AfterSweep, AutoVoidAttempt, AfterUnderageVoid, Respects;
    SameRespects(s, s);
    match step
    case NoShow(bet, _) => NoShowRespects(s, bet);
    case Sweeps(bet, now, _) => SweepRespects(s, bet, now);
    case AutoVoids(dispute, bet, locked) => AutoVoidRespects(s, dispute, bet, locked);
    case Withdraws(bet) => NoShowRespects(s, bet);
    case VoidsUnderage(bet) => UnderageRespects(s, bet);
  }

  lemma ClosingRespects(s: State, step: Step)
    requires step.SettlesBet? || step.Expires? || step.Rules?
    requires forall b :: b in s.bets ==> s.bets[b].amount > 0
    ensures Respects(s, Apply(s, step))
  {
    hide Books, SettleAttempt, ExpireAttempt, AfterRuling, Respects;
    match step
    case SettlesBet(bet, locked) => SettlingRespects(s, bet, locked);
    case Expires(bet, locked) => ExpiryRespects(s, bet, locked);
    case Rules(dispute, ruling, now) => RulingRespects(s, dispute, ruling, now);
  }

  lemma ReportRespects(s: State, step: Step)
    requires step.Reports? || step.Verifies? || step.ConsentExpires?
    ensures Apply(s, step).limits == s.limits
  {
  }

  lemma DecisionRespects(s: State, bet: Id, outcome: BetOutcome, now: int, dispute: Id)
    ensures OrSame(s, AfterDecision(s, bet, outcome, now)).limits == s.limits
    ensures OrSame(s, AfterDisputeFiled(s, dispute, bet)).limits == s.limits
  {
  }

  lemma ResultRespects(s: State, step: Step)
    requires step.Decides? || step.FilesDispute?
    ensures Apply(s, step).limits == s.limits
  {
    hide Books, AfterDecision, AfterDisputeFiled;
    match step
    case Decides(bet, outcome, now) => DecisionRespects(s, bet, outcome, now, bet);
    case FilesDispute(dispute, bet) => DecisionRespects(s, bet, DRAW, 0, dispute);
  }

  lemma StageRespects(s: State, step: Step)
    requires step.Claims? || step.Advances? || step.Escalates? || step.ClaimsDispute?
    ensures Apply(s, step).limits == s.limits
  {
  }

  lemma MoneylessRespects(s: State, step: Step)
    requires IsMoneyless(step)
    ensures Apply(s, step).limits == s.limits
  {
    hide Apply;
    if step.Claims? || step.Advances? || step.Escalates? || step.ClaimsDispute? {
      StageRespects(s, step);
    } else if step.Reports? || step.Verifies? || step.ConsentExpires? {
      ReportRespects(s, step);
    } else {
      ResultRespects(s, step);
    }
  }

  lemma PaymentRespects(s: State, step: Step)
    requires step.Deposits? || step.RequestsDeposit? || step.CashesOut? || step.Reverses?
    ensures Apply(s, step).limits == s.limits
  {
    hide Books, AfterTransfer, IsTaken;
  }

  lemma StepRespects(s: State, step: Step)
    requires (forall b :: b in s.bets ==> s.bets[b].amount > 0) && !step.ChangesCaps?
    ensures Respects(s, Apply(s, step))
  {
    hide Apply, Respects;
    if IsMatching(step) {
      MatchingRespects(s, step);
    } else if IsVoiding(step) {
      VoidingRespects(s, step);
    } else if step.SettlesBet? || step.Expires? || step.Rules? {
      ClosingRespects(s, step);
    } else if IsMoneyless(step) {
      MoneylessRespects(s, step);
      SameRespects(s, Apply(s, step));
    } else {
      PaymentRespects(s, step);
      SameRespects(s, Apply(s, step));
    }
  }

  ghost predicate UnderCaps(s: State) {
    forall d :: d in s.limits ==> s.limits[d].current <= s.limits[d].maxTotal
  }

  lemma SoundAmounts(s: State)
    requires Sound(s)
    ensures forall b :: b in s.bets ==> s.bets[b].amount > 0
  {
    forall b | b in s.bets
      ensures s.bets[b].amount > 0
    {
      assert RowSound(s, b);
    }
  }

  /**
   However stakes are held, returned and paid in any order, what a developer's bets hold
   together never passes the cap, as long as the cap itself is not lowered under it.
   */
  lemma {:induction false} RunStaysUnderCaps(s: State, steps: seq<Step>)
    requires Legal(s) && UnderCaps(s) && NeverReopens(s, steps)
    requires forall d :: d in s.limits ==> s.limits[d].maxTotal >= 0
    requires forall i :: 0 <= i < |steps| ==> !steps[i].ChangesCaps?
    ensures forall d :: d in s.limits ==>
              && d in Run(s, steps).limits && Run(s, steps).limits[d].maxTotal == s.limits[d].maxTotal
              && Exposure(Run(s, steps), d) == Run(s, steps).limits[d].current <= s.limits[d].maxTotal
  {
    hide Apply, Legal, Reopens, Exposure;
    if steps != [] {
      var n := |steps| - 1;
      PrefixNeverReopens(s, steps, n);
      RunStaysUnderCaps(s, steps[..n]);
      RunKeepsLegal(s, steps[..n]);
      var t := Run(s, steps[..n]);
      LegalParts(t);
      SoundAmounts(t);
      StepRespects(t, steps[n]);
    }
    RunKeepsLegal(s, steps);
    LegalParts(Run(s, steps));
    CountersMatch(Run(s, steps));
  }

  lemma CountersMatch(s: State)
    requires Sound(s)
    ensures forall d :: d in s.limits ==> s.limits[d].current == Exposure(s, d)
  {
  }
}
