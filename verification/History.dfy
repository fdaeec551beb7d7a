/** The ledger is append-only, and a finished bet's escrow is never touched again. */
module History {
  import opened Tables
  import opened IdempotencyKeys
  import opened Ledger
  import opened Escrows
  import opened Settlement
  import opened BetExpiry
  import opened ConsentExpiry
  import opened DisputeEscalation
  import opened Lifecycle
  import opened Invariant
  import opened Protocol
  import opened Safety

  /** Every dispute stays, on the bet it was filed on. */
  ghost predicate KeepsDisputes(s: State, t: State) {
    forall d :: d in s.disputes ==> d in t.disputes && t.disputes[d].bet == s.disputes[d].bet
  }

  /**
   Nothing already written changes, of all escrow accounts only `bet`'s is posted to,
   each new key's transaction runs between the accounts the key stands for, and the
   customers' texts stay apart from the code's own.
   */
  ghost predicate Appends(s: State, t: State, bet: Id) {
    && s.entries <= t.entries
    && (forall k :: k in s.txns ==> k in t.txns && t.txns[k] == s.txns[k])
    && (forall i :: |s.entries| <= i < |t.entries| ==> t.entries[i].account.Escrow? ==> t.entries[i].account.bet == bet)
    && (forall c: Id :: c != bet ==> Bal(t, Escrow(c)) == Bal(s, Escrow(c)))
    && KeepsDisputes(s, t)
    && (forall k :: k in t.txns && k !in s.txns ==> RoutedTxn(t, k, t.txns[k]))
    && s.clientKeys <= t.clientKeys && (Filed(s) ==> Filed(t))
  }

  /** The ledger's own tables are the same. */
  ghost predicate SameBooks(s: State, t: State) {
    t.balances == s.balances && t.entries == s.entries && t.txns == s.txns && t.clientKeys == s.clientKeys
    && KeepsDisputes(s, t)
  }

  lemma NothingAppends(s: State, t: State, bet: Id)
    requires SameBooks(s, t)
    ensures Appends(s, t, bet)
  {
  }

  lemma RoutesCarry(s: State, t: State, k: Key, txn: Txn)
    requires RoutedTxn(s, k, txn) && KeepsDisputes(s, t)
    requires forall j :: j in s.txns ==> j in t.txns && t.txns[j] == s.txns[j]
    ensures RoutedTxn(t, k, txn)
  {
  }

  lemma AppendsThen(s: State, t: State, u: State, bet: Id)
    requires Appends(s, t, bet) && Appends(t, u, bet)
    ensures Appends(s, u, bet)
  {
    hide Bal, RoutedTxn;
    forall k | k in u.txns && k !in s.txns
      ensures RoutedTxn(u, k, u.txns[k])
    {
      if k in t.txns {
        RoutesCarry(t, u, k, t.txns[k]);
      }
    }
  }

  /** The ledger work was done on `u`, whose rows alone differ from `s`, and the result's rows were then finished. */
  lemma AppendsBetween(s: State, u: State, v: State, t: State, bet: Id)
    requires SameBooks(s, u) && Appends(u, v, bet) && SameBooks(v, t)
    ensures Appends(s, t, bet)
  {
    hide Appends, SameBooks;
    NothingAppends(s, u, bet);
    NothingAppends(v, t, bet);
    AppendsThen(s, u, v, bet);
    AppendsThen(s, v, t, bet);
  }

  predicate MayTouch(a: Account, bet: Id) {
    a.Escrow? ==> a.bet == bet
  }

  lemma TransferAppends(s: State, from: Account, to: Account, amount: int, key: Key, bet: Id)
    requires MayTouch(from, bet) && MayTouch(to, bet) && IsServers(key)
    requires amount > 0 ==> RoutedTxn(s, key, Txn(from, to, amount))
    ensures Appends(s, OrSame(s, AfterTransfer(s, from, to, amount, key)), bet)
  {
    hide Books, RoutedTxn;
    var r := AfterTransfer(s, from, to, amount, key);
    if r.Done? && key !in s.txns {
      PostAppends(s, from, to, amount, key, bet);
    } else {
      NothingAppends(s, OrSame(s, r), bet);
    }
  }

  lemma PostAppends(s: State, from: Account, to: Account, amount: int, key: Key, bet: Id)
    requires from != to && key !in s.txns && MayTouch(from, bet) && MayTouch(to, bet)
    requires RoutedTxn(s, key, Txn(from, to, amount)) && IsServers(key) && !ClientHas(s, key)
    ensures Appends(s, Post(s, from, to, amount, key), bet)
  {
    hide RoutedTxn, Text;
    var t := Post(s, from, to, amount, key);
    RoutesCarry(s, t, key, Txn(from, to, amount));
  }

  lemma HoldAppends(s: State, bet: Id, player: Id, amount: int, movement: Movement)
    requires movement == HoldA || movement == HoldB
    ensures Appends(s, OrSame(s, AfterHold(s, bet, player, amount, movement)), bet)
  {
    hide Books, AfterTransfer, Appends;
    TransferAppends(s, PlayerBalance(player), Escrow(bet), amount, BetKey(movement, bet), bet);
    MoneyThenCounter(s, AfterTransfer(s, PlayerBalance(player), Escrow(bet), amount, BetKey(movement, bet)),
                     AfterHold(s, bet, player, amount, movement), bet);
  }

  /** An escrow operation is a transfer and then at most a counter, or it throws. */
  lemma MoneyThenCounter(s: State, r: Result, q: Result, bet: Id)
    requires Appends(s, OrSame(s, r), bet)
    requires q.Done? ==> r.Done? && SameBooks(r.state, q.state)
    ensures Appends(s, OrSame(s, q), bet)
  {
    hide Appends, SameBooks;
    NothingIsNothing(s, bet);
    if q.Done? {
      NothingAppends(r.state, q.state, bet);
      AppendsThen(s, r.state, q.state, bet);
    }
  }

  lemma NothingIsNothing(s: State, bet: Id)
    ensures Appends(s, s, bet) && SameBooks(s, s)
  {
  }

  lemma RefundAppends(s: State, bet: Id, player: Id, amount: int, key: Key)
    requires IsServers(key) && (amount > 0 ==> RoutedTxn(s, key, Txn(Escrow(bet), PlayerBalance(player), amount)))
    ensures Appends(s, OrSame(s, AfterRefund(s, bet, player, amount, key)), bet)
  {
    hide Books, AfterTransfer, Appends, RoutedTxn;
    TransferAppends(s, Escrow(bet), PlayerBalance(player), amount, key, bet);
    MoneyThenCounter(s, AfterTransfer(s, Escrow(bet), PlayerBalance(player), amount, key),
                     AfterRefund(s, bet, player, amount, key), bet);
  }

  /** A key that stands for paying a player out of this bet's escrow. */
  predicate IsRefundKey(s: State, key: Key, bet: Id) {
    match key
    case BetKey(movement, b) =>
      && b == bet && !movement.HoldA? && !movement.HoldB?
      && !movement.Fee? && !movement.RefereeReward? && !movement.DevShare?
    case ResolveKey(_, dispute) => dispute in s.disputes && s.disputes[dispute].bet == bet
    case _ => false
  }

  lemma RefundBothAppends(s: State, bet: Id, keyA: Key, keyB: Key)
    requires bet in s.bets && IsRefundKey(s, keyA, bet) && IsRefundKey(s, keyB, bet)
    ensures Appends(s, OrSame(s, AfterRefundBoth(s, bet, keyA, keyB)), bet)
  {
    hide Books, AfterRefund, Appends;
    var row := s.bets[bet];
    RefundAppends(s, bet, row.playerA, row.amount, keyA);
    var r := AfterRefund(s, bet, row.playerA, row.amount, keyA);
    NothingIsNothing(s, bet);
    if r.Done? && row.playerB.Some? {
      RefundAppends(r.state, bet, row.playerB.value, row.amount, keyB);
      AppendsThen(s, r.state, OrSame(r.state, AfterRefund(r.state, bet, row.playerB.value, row.amount, keyB)), bet);
    }
  }

  lemma ReleaseAppends(s: State, bet: Id, winner: Id, amount: int, movement: Movement)
    requires movement == Release || movement == ReleaseA || movement == ReleaseB
    ensures Appends(s, OrSame(s, AfterRelease(s, bet, winner, amount, movement)), bet)
  {
    hide Books, AfterTransfer, Appends;
    NothingIsNothing(s, bet);
    TransferAppends(s, Escrow(bet), PlayerBalance(winner), amount, BetKey(movement, bet), bet);
  }

  /** Two stages, the second only if the first went through. */
  lemma StagesAppend(s: State, r: Result, q: Result, bet: Id)
    requires Appends(s, OrSame(s, r), bet)
    requires q.Done? ==> r.Done? && Appends(r.state, q.state, bet)
    ensures Appends(s, OrSame(s, q), bet)
  {
    hide Appends;
    NothingIsNothing(s, bet);
    if q.Done? {
      AppendsThen(s, r.state, q.state, bet);
    }
  }

  lemma PayoutsAppend(s: State, bet: Id, remaining: int)
    requires Settles(s, bet)
    ensures Appends(s, OrSame(s, AfterPayouts(s, bet, remaining)), bet)
  {
    hide Books, AfterRelease, Appends;
    var row := s.bets[bet];
    if row.outcome.value == DRAW {
      var payA, payB := Fees.PayoutA(remaining, DRAW), Fees.PayoutB(remaining, DRAW);
      ReleaseAppends(s, bet, row.playerA, payA, ReleaseA);
      var r := AfterRelease(s, bet, row.playerA, payA, ReleaseA);
      if r.Done? {
        ReleaseAppends(r.state, bet, row.playerB.value, payB, ReleaseB);
      }
      StagesAppend(s, r, AfterPayouts(s, bet, remaining), bet);
    } else {
      ReleaseAppends(s, bet, row.playerA, remaining, Release);
      ReleaseAppends(s, bet, row.playerB.value, remaining, Release);
    }
  }

  lemma CutsAppend(s: State, bet: Id, fee: int, refereeFee: int)
    requires bet in s.bets
    ensures Appends(s, OrSame(s, AfterCuts(s, bet, fee, refereeFee)), bet)
  {
    hide Books, AfterFee, AfterReward, AfterShare, Appends;
    FeeAppends(s, bet, fee);
    var r := AfterFee(s, bet, fee);
    NothingIsNothing(s, bet);
    if r.Done? {
      RewardAppends(r.state, bet, refereeFee);
      var q := AfterReward(r.state, bet, refereeFee);
      if q.Done? {
        ShareAppends(q.state, bet, fee, refereeFee);
        StagesAppend(r.state, q, AfterShare(q.state, bet, fee, refereeFee), bet);
        StagesAppend(s, r, AfterCuts(s, bet, fee, refereeFee), bet);
      }
    }
  }

  lemma FeeAppends(s: State, bet: Id, fee: int)
    ensures Appends(s, OrSame(s, AfterFee(s, bet, fee)), bet)
  {
    hide Books, AfterTransfer, Appends;
    NothingIsNothing(s, bet);
    TransferAppends(s, Escrow(bet), PlatformRevenue, fee, BetKey(Fee, bet), bet);
  }

  lemma RewardAppends(s: State, bet: Id, refereeFee: int)
    ensures Appends(s, OrSame(s, AfterReward(s, bet, refereeFee)), bet)
  {
    hide Books, AfterTransfer, Appends;
    NothingIsNothing(s, bet);
    if bet in s.assignments && s.assignments[bet].referee.Some? {
      TransferAppends(s, PlatformRevenue, PlayerBalance(s.assignments[bet].referee.value), refereeFee,
                      BetKey(RefereeReward, bet), bet);
    }
  }

  lemma ShareAppends(s: State, bet: Id, fee: int, refereeFee: int)
    requires bet in s.bets
    ensures Appends(s, OrSame(s, AfterShare(s, bet, fee, refereeFee)), bet)
  {
    hide Books, AfterTransfer, Fees.DeveloperShare, Appends;
    NothingIsNothing(s, bet);
    var owner := DeveloperOf(s, s.bets[bet].game);
    if owner.Some? && owner.value in s.cat.developers {
      var developer := s.cat.developers[owner.value];
      TransferAppends(s, PlatformRevenue, DeveloperBalance(developer.user),
                      Fees.DeveloperShare(fee, refereeFee, developer.revShare), BetKey(DevShare, bet), bet);
    }
  }

  lemma SettlementAppends(s: State, bet: Id)
    requires Settles(s, bet)
    ensures Appends(s, OrSame(s, AfterSettlement(s, bet)), bet)
  {
    hide Books, AfterCuts, AfterPayouts, AfterClose, Fees.PlatformFee, Fees.RefereeFee, Appends, SameBooks;
    NothingIsNothing(s, bet);
    var fee := Fees.PlatformFee(s.bets[bet].amount, s.bets[bet].feePercent);
    var refereeFee := Fees.RefereeFee(fee, AssignmentOf(s, bet));
    var remaining := 2 * s.bets[bet].amount - fee;
    CutsAppend(s, bet, fee, refereeFee);
    var r := AfterCuts(s, bet, fee, refereeFee);
    if r.Done? {
      PayoutsAppend(r.state, bet, remaining);
      var q := AfterPayouts(r.state, bet, remaining);
      StagesAppend(s, r, q, bet);
      if q.Done? {
        CloseIsRows(q.state, bet, fee, refereeFee);
        MoneyThenCounter(s, q, AfterSettlement(s, bet), bet);
      }
    }
  }

  lemma CloseIsRows(s: State, bet: Id, fee: int, refereeFee: int)
    requires bet in s.bets
    ensures var r := AfterClose(s, bet, fee, refereeFee); r.Done? ==> SameBooks(s, r.state)
  {
    hide Books;
  }

  /** The two rows a settlement writes. */
  lemma CloseRows(s: State, bet: Id, fee: int, refereeFee: int)
    requires bet in s.bets
    ensures var r := AfterClose(s, bet, fee, refereeFee);
            r.Done? ==>
              && r.state.bets == s.bets[bet := s.bets[bet].(status := SETTLED, feeTaken := Some(fee))]
              && (bet in s.assignments ==> s.assignments[bet].referee.Some?)
              && r.state.assignments == (if bet in s.assignments
                   then s.assignments[bet := s.assignments[bet].(status := ASG_COMPLETED, reward := Some(refereeFee))]
                   else s.assignments)
  {
    hide Books;
  }

  // ---- whole steps --------------------------------------------------------

  /** The one bet whose rows and escrow a step can write. */
  function Target(s: State, step: Step): Option<Id> {
    match step
    case Rules(dispute, _, _) => if dispute in s.disputes then Some(s.disputes[dispute].bet) else None
    case Escalates(_) => None
    case ClaimsDispute(_) => None
    case Deposits(_, _, _) => None
    case RequestsDeposit(_) => None
    case CashesOut(_, _, _) => None
    case Reverses(_, _, _) => None
    case ChangesCaps(_, _, _) => None
    case _ => Some(step.bet)
  }

  /** Some bet that is not this one. */
  function Elsewhere(bet: Id): (other: Id)
    ensures other != bet
  {
    assert |bet.text + "'"| != |bet.text|;
    Id(bet.text + "'")
  }

  lemma NoShowAppends(s: State, bet: Id)
    ensures Appends(s, OrSame(s, AfterNoShow(s, bet)), bet)
  {
    hide Books, AfterRefundBoth, Appends;
    var r := AfterNoShow(s, bet);
    if r.Done? && IsUnplayed(s, bet) && Escrow(bet) in s.balances {
      var u := WithStatus(CancelLiveAssignment(s, bet), bet, VOIDED);
      RefundBothAppends(u, bet, BetKey(NoShowA, bet), BetKey(NoShowB, bet));
      AppendsBetween(s, u, r.state, r.state, bet);
    } else {
      NothingAppends(s, OrSame(s, r), bet);
    }
  }

  lemma ConsentAppends(s: State, bet: Id)
    ensures Appends(s, OrSame(s, AfterConsent(s, bet)), bet)
  {
    hide Books, AfterHold, Appends;
    NothingIsNothing(s, bet);
    if bet in s.bets && AfterConsent(s, bet).Done? {
      HoldAppends(s, bet, s.bets[bet].playerA, s.bets[bet].amount, HoldA);
      MoneyThenCounter(s, AfterHold(s, bet, s.bets[bet].playerA, s.bets[bet].amount, HoldA), AfterConsent(s, bet), bet);
    }
  }

  lemma AcceptAppends(s: State, bet: Id, player: Id)
    ensures Appends(s, OrSame(s, AfterAccept(s, bet, player)), bet)
  {
    hide Books, AfterHold, Appends;
    NothingIsNothing(s, bet);
    if bet in s.bets && AfterAccept(s, bet, player).Done? {
      HoldAppends(s, bet, player, s.bets[bet].amount, HoldB);
      MoneyThenCounter(s, AfterHold(s, bet, player, s.bets[bet].amount, HoldB), AfterAccept(s, bet, player), bet);
    }
  }

  lemma LobbyAppends(s: State, bet: Id, row: Bet, reward: Option<int>, now: int)
    ensures Appends(s, OrSame(s, AfterLobbyMatch(s, bet, row, reward, now)), bet)
  {
    hide Books, AfterConsent, AfterAccept, Appends;
    NothingIsNothing(s, bet);
    var r := AfterProposal(s, bet, row);
    var q := AfterLobbyMatch(s, bet, row, reward, now);
    if q.Done? {
      NothingAppends(s, r.state, bet);
      ConsentAppends(r.state, bet);
      var s2 := AfterConsent(r.state, bet).state;
      AcceptAppends(s2, bet, row.playerB.value);
      var s3 := AfterAccept(s2, bet, row.playerB.value).state;
      AppendsThen(s, r.state, s2, bet);
      AppendsThen(s, s2, s3, bet);
      NothingAppends(s3, q.state, bet);
      AppendsThen(s, s3, q.state, bet);
    }
  }

  lemma RulingAppends(s: State, dispute: Id, ruling: Ruling, now: int, bet: Id)
    requires dispute in s.disputes ==> s.disputes[dispute].bet == bet
    ensures Appends(s, OrSame(s, AfterRuling(s, dispute, ruling, now)), bet)
  {
    hide Books, AfterRefundBoth, Appends;
    var r := AfterRuling(s, dispute, ruling, now);
    if r.Done? && ruling.ForVoid? && s.bets[bet].status == DISPUTED {
      var decided := Resolved(s, dispute, RESOLVED_VOID);
      var keyA, keyB := ResolveKey(true, dispute), ResolveKey(false, dispute);
      var u := if bet in s.assignments then decided else WithStatus(decided, bet, VOIDED);
      RefundBothAppends(u, bet, keyA, keyB);
      AppendsBetween(s, u, AfterRefundBoth(u, bet, keyA, keyB).state, r.state, bet);
    } else {
      NothingAppends(s, OrSame(s, r), bet);
    }
  }

  lemma SweepAppends(s: State, bet: Id, now: int)
    ensures Appends(s, OrSame(s, AfterSweep(s, bet, now)), bet)
  {
    hide Books, AfterNoShow, Appends;
    NoShowAppends(s, bet);
    var t := OrSame(s, AfterSweep(s, bet, now));
    if t != OrSame(s, AfterNoShow(s, bet)) {
      NothingAppends(s, t, bet);
    }
  }

  lemma AutoVoidAppends(s: State, dispute: Id, bet: Id, locked: bool)
    ensures Appends(s, AutoVoidAttempt(s, dispute, bet, locked).Outcome(s), bet)
  {
    hide Books, AfterRefundBoth, Appends;
    var attempt := AutoVoidAttempt(s, dispute, bet, locked);
    if attempt.Committed? && HoldsDisputedStakes(s, bet) {
      var u := WithStatus(s, bet, VOIDED);
      RefundBothAppends(u, bet, BetKey(DisputeVoidA, bet), BetKey(DisputeVoidB, bet));
      var v := AfterRefundBoth(u, bet, BetKey(DisputeVoidA, bet), BetKey(DisputeVoidB, bet)).state;
      AppendsBetween(s, u, v, attempt.state, bet);
    } else {
      NothingAppends(s, attempt.Outcome(s), bet);
    }
  }

  lemma UnderageAppends(s: State, bet: Id)
    ensures Appends(s, OrSame(s, AfterUnderageVoid(s, bet)), bet)
  {
    hide Books, AfterRefundBoth, Appends;
    var r := AfterUnderageVoid(s, bet);
    if r.Done? && s.bets[bet].status.IsUnsettled() && Escrow(bet) in s.balances {
      var voided := CancelOpenAssignment(WithStatus(s, bet, VOIDED), bet);
      RefundBothAppends(voided, bet, BetKey(UnderageA, bet), BetKey(UnderageB, bet));
      AppendsBetween(s, voided, r.state, r.state, bet);
    } else {
      NothingAppends(s, OrSame(s, r), bet);
    }
  }

  lemma ExpiryAppends(s: State, bet: Id, locked: bool)
    ensures Appends(s, ExpireAttempt(s, bet, locked).Outcome(s), bet)
  {
    hide Books, AfterRefund, Appends;
    NothingIsNothing(s, bet);
    if ExpireAttempt(s, bet, locked).Committed? {
      var row := s.bets[bet];
      RefundAppends(s, bet, row.playerA, row.amount, BetKey(ExpiryRefund, bet));
      var refunded := AfterRefund(s, bet, row.playerA, row.amount, BetKey(ExpiryRefund, bet));
      MoneyThenCounter(s, refunded, AfterExpiry(s, bet), bet);
    }
  }

  lemma DepositAppends(s: State, user: Id, amount: int, reference: Id, bet: Id)
    ensures Appends(s, OrSame(s, AfterDeposit(s, user, amount, reference)), bet)
  {
    hide Books, AfterTransfer, Appends, Text;
    TransferAppends(s, StripeSource, PlayerBalance(user), amount, DepositKey(reference), bet);
  }

  lemma ReversalAppends(s: State, user: Id, amount: int, text: string, bet: Id)
    ensures Appends(s, OrSame(s, AfterReversal(s, user, amount, text)), bet)
  {
    hide Books, AfterTransfer, Appends, Text;
    NothingIsNothing(s, bet);
    if AfterReversal(s, user, amount, text).Done? {
      TransferAppends(s, StripeSink, PlayerBalance(user), amount, ReversalKey(text), bet);
    }
  }

  /** A text no row has is taken into use. */
  lemma RequestAppends(s: State, text: string, bet: Id)
    ensures Appends(s, OrSame(s, AfterDepositRequest(s, text)), bet)
  {
    hide Books, Text, RoutedTxn;
  }

  lemma CashOutAppends(s: State, user: Id, amount: int, text: string, bet: Id)
    ensures Appends(s, OrSame(s, AfterCashOut(s, user, amount, text)), bet)
  {
    hide Books, Text, RoutedTxn, Post;
    CashOutText(text);
    NothingIsNothing(s, bet);
    if AfterCashOut(s, user, amount, text).Done? && CashOutKey(text) !in s.txns {
      WithdrawalAppends(s, user, amount, text, bet);
    }
  }

  /** A withdrawal under a text no row has. */
  lemma WithdrawalAppends(s: State, user: Id, amount: int, text: string, bet: Id)
    requires CashOutKey(text) !in s.txns && !IsTaken(s, text) && IsRequestText(text) && amount > 0
    ensures var t := Post(s, PlayerBalance(user), StripeSink, amount, CashOutKey(text));
            Appends(s, t.(clientKeys := t.clientKeys + {text}), bet)
  {
    hide Text;
    CashOutText(text);
  }

  predicate IsMatching(step: Step) {
    step.Proposes? || step.Consents? || step.Accepts? || step.MatchesInLobby?
  }

  predicate IsPaying(step: Step) {
    step.Expires? || step.SettlesBet? || step.Rules?
    || step.Deposits? || step.RequestsDeposit? || step.CashesOut? || step.Reverses?
  }

  predicate IsVoiding(step: Step) {
    step.NoShow? || step.Sweeps? || step.AutoVoids? || step.Withdraws? || step.VoidsUnderage?
  }

  lemma StepAppends(s: State, step: Step, bet: Id)
    requires Target(s, step) == None || Target(s, step) == Some(bet)
    ensures Appends(s, Apply(s, step), bet)
  {
    hide Apply, Appends;
    if IsMatching(step) {
      MatchingAppends(s, step);
    } else if IsVoiding(step) {
      VoidingAppends(s, step);
    } else if IsPaying(step) {
      PayingAppends(s, step, bet);
    } else {
      RowsAppend(s, step, bet);
    }
  }

  lemma MatchingAppends(s: State, step: Step)
    requires IsMatching(step)
    ensures Appends(s, Apply(s, step), step.bet)
  {
    hide Books, AfterConsent, AfterAccept, AfterLobbyMatch, Appends;
    var bet := step.bet;
    match step
    case Consents(_) => ConsentAppends(s, bet);
    case Accepts(_, player) => AcceptAppends(s, bet, player);
    case MatchesInLobby(_, row, reward, now) => LobbyAppends(s, bet, row, reward, now);
    case Proposes(_, _) => NothingAppends(s, Apply(s, step), bet);
  }

  lemma VoidingAppends(s: State, step: Step)
    requires IsVoiding(step)
    ensures Appends(s, Apply(s, step), step.bet)
  {
    hide Books, AfterNoShow, AfterSweep, AutoVoidAttempt, AfterUnderageVoid, Appends;
    var bet := step.bet;
    NothingIsNothing(s, bet);
    match step
    case NoShow(_, _) => NoShowAppends(s, bet);
    case Sweeps(_, now, _) => SweepAppends(s, bet, now);
    case AutoVoids(dispute, _, locked) => AutoVoidAppends(s, dispute, bet, locked);
    case Withdraws(_) => NoShowAppends(s, bet);
    case VoidsUnderage(_) => UnderageAppends(s, bet);
  }

  lemma PayingAppends(s: State, step: Step, bet: Id)
    requires IsPaying(step) && (Target(s, step) == None || Target(s, step) == Some(bet))
    ensures Appends(s, Apply(s, step), bet)
  {
    hide Books, ExpireAttempt, AfterSettlement, AfterRuling, AfterDeposit, AfterDepositRequest,
      AfterCashOut, AfterReversal, Appends;
    NothingIsNothing(s, bet);
    match step
    case Expires(_, locked) => ExpiryAppends(s, bet, locked);
    case SettlesBet(_, _) => if Settles(s, bet) { SettlementAppends(s, bet); }
    case Rules(dispute, ruling, now) => RulingAppends(s, dispute, ruling, now, bet);
    case Deposits(user, amount, reference) => DepositAppends(s, user, amount, reference, bet);
    case RequestsDeposit(text) => RequestAppends(s, text, bet);
    case CashesOut(user, amount, text) => CashOutAppends(s, user, amount, text, bet);
    case Reverses(user, amount, text) => ReversalAppends(s, user, amount, text, bet);
  }

  lemma RowsAppend(s: State, step: Step, bet: Id)
    requires !IsMatching(step) && !IsVoiding(step) && !IsPaying(step)
    ensures Appends(s, Apply(s, step), bet)
  {
    hide Apply, Appends, SameBooks;
    RowsKeepLedger(s, step);
    NothingAppends(s, Apply(s, step), bet);
  }

  /** The steps that rewrite one bet's row in place. */
  predicate IsReporting(step: Step) {
    step.ConsentExpires? || step.Expires? || step.Reports? || step.Verifies? || step.Decides? || step.FilesDispute?
  }

  lemma RowsKeepLedger(s: State, step: Step)
    requires !IsMatching(step) && !IsVoiding(step) && !IsPaying(step)
    ensures SameBooks(s, Apply(s, step))
  {
    hide Apply, SameBooks;
    if IsReporting(step) {
      ReportingKeepsLedger(s, step);
    } else {
      AssigningKeepsLedger(s, step);
    }
  }

  lemma ReportingKeepsLedger(s: State, step: Step)
    requires IsReporting(step) && !step.Expires?
    ensures SameBooks(s, Apply(s, step))
  {
    hide Books, ExpireAttempt, NoShowAttempt, SweepAttempt, SettleAttempt, AutoVoidAttempt, AfterProposal,
      AfterConsent, AfterAccept, AfterLobbyMatch, AfterWithdrawal, AfterRuling, AfterUnderageVoid, AfterDeposit,
      AfterCashOut;
    match step
    case ConsentExpires(_) =>
    case Reports(_, _, _, _) =>
    case Verifies(_) =>
    case Decides(_, _, _) =>
    case FilesDispute(dispute, bet) => FilingKeepsLedger(s, dispute, bet);
  }

  lemma FilingKeepsLedger(s: State, dispute: Id, bet: Id)
    ensures SameBooks(s, OrSame(s, AfterDisputeFiled(s, dispute, bet)))
  {
  }

  lemma AssigningKeepsLedger(s: State, step: Step)
    requires !IsMatching(step) && !IsVoiding(step) && !IsPaying(step) && !IsReporting(step)
    ensures SameBooks(s, Apply(s, step))
  {
    hide Books, ExpireAttempt, NoShowAttempt, SweepAttempt, SettleAttempt, AutoVoidAttempt, AfterProposal,
      AfterConsent, AfterAccept, AfterLobbyMatch, AfterWithdrawal, AfterRuling, AfterUnderageVoid, AfterDeposit,
      AfterCashOut;
  }

  // ---- leaving once -------------------------------------------------------

  /** A step writes no bet row but its target's. */
  lemma OthersStay(s: State, step: Step, bet: Id)
    requires Target(s, step) != Some(bet) && bet in s.bets
    ensures var t := Apply(s, step); bet in t.bets && t.bets[bet] == s.bets[bet]
  {
    hide Apply;
    if IsMatching(step) {
      MatchingOthers(s, step, bet);
    } else if IsVoiding(step) {
      VoidingOthers(s, step, bet);
    } else if step.SettlesBet? {
      SettlingOthers(s, step, bet);
    } else {
      PlainOthers(s, step, bet);
    }
  }

  ghost predicate WritesOnly(s: State, t: State, bet: Id) {
    forall c :: c in s.bets && c != bet ==> c in t.bets && t.bets[c] == s.bets[c]
  }

  lemma LobbyWrites(s: State, bet: Id, row: Bet, reward: Option<int>, now: int)
    ensures WritesOnly(s, OrSame(s, AfterLobbyMatch(s, bet, row, reward, now)), bet)
  {
    hide Books, AfterHold;
  }

  lemma HoldingWrites(s: State, bet: Id, player: Id)
    ensures WritesOnly(s, OrSame(s, AfterConsent(s, bet)), bet)
    ensures WritesOnly(s, OrSame(s, AfterAccept(s, bet, player)), bet)
  {
    hide Books, AfterHold;
  }

  lemma MatchingOthers(s: State, step: Step, bet: Id)
    requires IsMatching(step) && step.bet != bet && bet in s.bets
    ensures var t := Apply(s, step); bet in t.bets && t.bets[bet] == s.bets[bet]
  {
    hide Books, AfterLobbyMatch, AfterConsent, AfterAccept;
    match step
    case Proposes(_, _) =>
    case Consents(b) => HoldingWrites(s, b, b);
    case Accepts(b, player) => HoldingWrites(s, b, player);
    case MatchesInLobby(b, row, reward, now) => LobbyWrites(s, b, row, reward, now);
  }

  lemma NoShowWrites(s: State, bet: Id)
    ensures WritesOnly(s, OrSame(s, AfterNoShow(s, bet)), bet)
  {
    hide Books, AfterRefundBoth;
  }

  lemma AutoVoidWrites(s: State, dispute: Id, bet: Id, locked: bool)
    ensures WritesOnly(s, AutoVoidAttempt(s, dispute, bet, locked).Outcome(s), bet)
  {
    hide Books, AfterRefundBoth;
  }

  lemma UnderageWrites(s: State, bet: Id)
    ensures WritesOnly(s, OrSame(s, AfterUnderageVoid(s, bet)), bet)
  {
    hide Books, AfterRefundBoth;
  }

  lemma RulingWrites(s: State, dispute: Id, ruling: Ruling, now: int, bet: Id)
    requires dispute in s.disputes ==> s.disputes[dispute].bet == bet
    ensures WritesOnly(s, OrSame(s, AfterRuling(s, dispute, ruling, now)), bet)
    ensures dispute !in s.disputes ==> AfterRuling(s, dispute, ruling, now).Fail?
  {
    hide Books, AfterRefundBoth;
  }

  lemma VoidingOthers(s: State, step: Step, bet: Id)
    requires IsVoiding(step) && step.bet != bet && bet in s.bets
    ensures var t := Apply(s, step); bet in t.bets && t.bets[bet] == s.bets[bet]
  {
    hide Books, AfterNoShow, AutoVoidAttempt, AfterUnderageVoid, ExpireAttempt, SettleAttempt, AfterProposal,
      AfterConsent, AfterAccept, AfterLobbyMatch, AfterRuling, AfterDeposit, AfterCashOut, AfterDisputeFiled,
      AfterDecision;
    match step
    case NoShow(b, _) => NoShowWrites(s, b);
    case Sweeps(b, _, _) => NoShowWrites(s, b);
    case AutoVoids(dispute, b, locked) => AutoVoidWrites(s, dispute, b, locked);
    case Withdraws(b) => NoShowWrites(s, b);
    case VoidsUnderage(b) => UnderageWrites(s, b);
  }

  lemma SettlingOthers(s: State, step: Step, bet: Id)
    requires step.SettlesBet? && step.bet != bet && bet in s.bets
    ensures var t := Apply(s, step); bet in t.bets && t.bets[bet] == s.bets[bet]
  {
    hide Books, AfterMoney, Fees.PlatformFee, Fees.RefereeFee;
  }

  lemma ExpiryWrites(s: State, bet: Id, locked: bool)
    ensures WritesOnly(s, ExpireAttempt(s, bet, locked).Outcome(s), bet)
  {
    hide Books, AfterRefund;
  }

  lemma ReportWrites(s: State, bet: Id, outcome: BetOutcome, verified: bool, now: int)
    ensures WritesOnly(s, OrSame(s, AfterReport(s, bet, outcome, verified, now)), bet)
    ensures WritesOnly(s, OrSame(s, AfterVerification(s, bet)), bet)
    ensures WritesOnly(s, AfterConsentExpiry(s, bet), bet)
  {
  }

  lemma DecisionWrites(s: State, bet: Id, outcome: BetOutcome, now: int, dispute: Id)
    ensures WritesOnly(s, OrSame(s, AfterDecision(s, bet, outcome, now)), bet)
    ensures WritesOnly(s, OrSame(s, AfterDisputeFiled(s, dispute, bet)), bet)
  {
  }

  lemma ReportingOthers(s: State, step: Step, bet: Id)
    requires IsReporting(step) && step.bet != bet && bet in s.bets
    ensures var t := Apply(s, step); bet in t.bets && t.bets[bet] == s.bets[bet]
  {
    hide Books, ExpireAttempt, AfterReport, AfterVerification, AfterConsentExpiry, AfterDecision, AfterDisputeFiled,
      NoShowAttempt, SweepAttempt, SettleAttempt, AutoVoidAttempt, AfterProposal, AfterConsent, AfterAccept,
      AfterLobbyMatch, AfterWithdrawal, AfterRuling, AfterUnderageVoid, AfterDeposit, AfterCashOut;
    match step
    case Expires(b, locked) => ExpiryWrites(s, b, locked);
    case Reports(b, outcome, verified, now) => ReportWrites(s, b, outcome, verified, now);
    case Verifies(b) => ReportWrites(s, b, DRAW, true, 0);
    case ConsentExpires(b) => ReportWrites(s, b, DRAW, true, 0);
    case Decides(b, outcome, now) => DecisionWrites(s, b, outcome, now, b);
    case FilesDispute(dispute, b) => DecisionWrites(s, b, DRAW, 0, dispute);
  }

  lemma PlainOthers(s: State, step: Step, bet: Id)
    requires !IsMatching(step) && !IsVoiding(step) && !step.SettlesBet?
    requires Target(s, step) != Some(bet) && bet in s.bets
    ensures var t := Apply(s, step); bet in t.bets && t.bets[bet] == s.bets[bet]
  {
    hide Books, AfterRuling, AfterTransfer;
    if IsReporting(step) {
      ReportingOthers(s, step, bet);
    } else if step.Rules? {
      RulingWrites(s, step.dispute, step.ruling, step.now,
                   if step.dispute in s.disputes then s.disputes[step.dispute].bet else step.dispute);
    }
  }

  /** A finished bet's row and escrow are left alone even by the steps aimed at it. */
  lemma TargetStays(s: State, step: Step, bet: Id)
    requires Target(s, step) == Some(bet) && bet in s.bets && s.bets[bet].status.IsTerminal() && !Reopens(s, step)
    ensures var t := Apply(s, step); bet in t.bets && t.bets[bet] == s.bets[bet] && t.entries == s.entries
  {
    hide Apply;
    if IsMatching(step) {
      MatchingStays(s, step, bet);
    } else if IsVoiding(step) || step.SettlesBet? {
      VoidingStays(s, step, bet);
    } else {
      PlainStays(s, step, bet);
    }
  }

  lemma MatchingStays(s: State, step: Step, bet: Id)
    requires IsMatching(step) && step.bet == bet && bet in s.bets && s.bets[bet].status.IsTerminal()
    ensures Apply(s, step) == s
  {
    hide Books, AfterHold;
  }

  lemma VoidingStays(s: State, step: Step, bet: Id)
    requires IsVoiding(step) || step.SettlesBet?
    requires step.bet == bet && bet in s.bets && s.bets[bet].status.IsTerminal()
    ensures var t := Apply(s, step); t.bets == s.bets && t.entries == s.entries
  {
    hide Books, AfterRefundBoth, AfterSettlement;
  }

  lemma PlainStays(s: State, step: Step, bet: Id)
    requires !IsMatching(step) && !IsVoiding(step) && !step.SettlesBet?
    requires Target(s, step) == Some(bet) && bet in s.bets && s.bets[bet].status.IsTerminal() && !Reopens(s, step)
    ensures var t := Apply(s, step); bet in t.bets && t.bets[bet] == s.bets[bet] && t.entries == s.entries
  {
    hide Books, AfterRefund, AfterRuling, AfterTransfer, NoShowAttempt, SweepAttempt, SettleAttempt,
      AutoVoidAttempt, AfterProposal, AfterConsent, AfterAccept, AfterLobbyMatch, AfterWithdrawal, AfterUnderageVoid,
      AfterDeposit, AfterCashOut, AfterDisputeFiled;
    match step
    case Rules(dispute, ruling, now) => RulingStays(s, dispute, ruling, now, bet);
    case FilesDispute(dispute, _) => FilingStays(s, dispute, bet);
    case _ =>
  }

  lemma RulingStays(s: State, dispute: Id, ruling: Ruling, now: int, bet: Id)
    requires dispute in s.disputes && s.disputes[dispute].bet == bet && bet in s.bets && s.bets[bet].status.IsTerminal()
    requires !Reopens(s, Rules(dispute, ruling, now))
    ensures var t := OrSame(s, AfterRuling(s, dispute, ruling, now));
            bet in t.bets && t.bets[bet] == s.bets[bet] && t.entries == s.entries
  {
    hide Books, AfterRefundBoth;
  }

  lemma FilingStays(s: State, dispute: Id, bet: Id)
    requires bet in s.bets && s.bets[bet].status.IsTerminal()
    ensures var t := OrSame(s, AfterDisputeFiled(s, dispute, bet));
            bet in t.bets && t.bets[bet] == s.bets[bet] && t.entries == s.entries
  {
  }
}
