/** Exactly when a void goes through: both refunds must, and each asks for its accounts and its key. */
module VoidConditions {
  import opened Tables
  import opened Ledger
  import opened Escrows
  import opened BetExpiry
  import opened DisputeEscalation
  import opened Lifecycle
  import opened Invariant
  import opened MoneySteps
  import opened VoidSteps

  predicate PartiesUsable(s: State, row: Bet, escrow: Account)
    requires row.playerB.Some?
  {
    && escrow !in s.cat.frozen && PlayerBalance(row.playerA) !in s.cat.frozen
    && PlayerBalance(row.playerB.value) !in s.cat.frozen
  }

  predicate RefundsUnclaimed(s: State, keyA: Key, keyB: Key) {
    !ClientHas(s, keyA) && !ClientHas(s, keyB)
  }

  /** Both refunds went through exactly when they could, and otherwise the error names what was wrong. */
  ghost predicate RefundsExactly(s: State, r: Result, bet: Id, keyA: Key, keyB: Key)
    requires bet in s.bets && s.bets[bet].playerB.Some?
  {
    var usable, unclaimed := PartiesUsable(s, s.bets[bet], Escrow(bet)), RefundsUnclaimed(s, keyA, keyB);
    && (r.Done? <==> usable && unclaimed)
    && (r.Fail? ==> (r.error == FrozenAccount && !usable) || (r.error == KeyConflict && !unclaimed))
  }

  /** And the bet is then VOIDED. */
  ghost predicate VoidsExactly(s: State, r: Result, bet: Id, keyA: Key, keyB: Key)
    requires bet in s.bets && s.bets[bet].playerB.Some?
  {
    RefundsExactly(s, r, bet, keyA, keyB) && (r.Done? ==> bet in r.state.bets && r.state.bets[bet].status == VOIDED)
  }

  lemma RefundExact(s: State, bet: Id, player: Id, amount: int, key: Key)
    requires bet in s.bets && s.bets[bet].status.CanRefund() && amount > 0 && key !in s.txns
    requires Escrow(bet) in s.balances && Bal(s, Escrow(bet)) >= amount
    ensures var r := AfterRefund(s, bet, player, amount, key);
            && (r.Done? <==>
                  && Escrow(bet) !in s.cat.frozen && PlayerBalance(player) !in s.cat.frozen && !ClientHas(s, key))
            && (r.Fail? ==> r.error == if ClientHas(s, key) then KeyConflict else FrozenAccount)
            && (r.Done? ==>
                  && OnlyMoney(s, r.state) && Escrow(bet) in r.state.balances
                  && Bal(r.state, Escrow(bet)) == Bal(s, Escrow(bet)) - amount
                  && r.state.txns.Keys == s.txns.Keys + {key})
  {
    hide Books, ClientHas;
  }

  lemma RefundBothExact(s: State, bet: Id, keyA: Key, keyB: Key)
    requires bet in s.bets && s.bets[bet].status.CanRefund() && s.bets[bet].playerB.Some? && s.bets[bet].amount > 0
    requires Escrow(bet) in s.balances && Bal(s, Escrow(bet)) == 2 * s.bets[bet].amount
    requires keyA !in s.txns && keyB !in s.txns && keyA != keyB
    ensures RefundsExactly(s, AfterRefundBoth(s, bet, keyA, keyB), bet, keyA, keyB)
  {
    hide Bal, AfterRefund, ClientHas;
    var row := s.bets[bet];
    RefundExact(s, bet, row.playerA, row.amount, keyA);
    var r := AfterRefund(s, bet, row.playerA, row.amount, keyA);
    if r.Done? {
      SameClients(s, r.state);
      RefundExact(r.state, bet, row.playerB.value, row.amount, keyB);
    }
  }

  /** The same for a state whose rows alone have been rewritten on the way. */
  lemma RelabelledExact(s: State, u: State, bet: Id, keyA: Key, keyB: Key)
    requires Sound(s) && bet in s.bets && s.bets[bet].status.IsUnsettled()
    requires SameMoney(s, u) && bet in u.bets && SameParties(s.bets[bet], u.bets[bet])
    requires u.bets[bet].status.CanRefund() && keyA !in s.txns && keyB !in s.txns && keyA != keyB
    ensures s.bets[bet].playerB.Some? && RefundsExactly(s, AfterRefundBoth(u, bet, keyA, keyB), bet, keyA, keyB)
  {
    hide Books, CountersAgree, Solvent, RowsSound, Bal, AfterRefundBoth, ClientHas;
    RowIsSound(s, bet);
    UnsettledIsEscrowed(s, bet);
    BalSame(s, u);
    SameClients(s, u);
    RefundBothExact(u, bet, keyA, keyB);
  }

  lemma FreshPair(s: State, bet: Id, a: Movement, b: Movement)
    requires Sound(s) && bet in s.bets && s.bets[bet].status.IsUnsettled()
    requires a != HoldA && a != HoldB && b != HoldA && b != HoldB
    ensures BetKey(a, bet) !in s.txns && BetKey(b, bet) !in s.txns
    ensures forall d, side :: d in s.disputes && s.disputes[d].bet == bet ==> ResolveKey(side, d) !in s.txns
  {
    hide RowsSound;
    ExitKeysFresh(s, bet);
  }

  /** The no-show void of a match that was played by nobody. */
  lemma NoShowExact(s: State, bet: Id)
    requires Sound(s) && IsUnplayed(s, bet)
    ensures VoidsExactly(s, AfterNoShow(s, bet), bet, BetKey(NoShowA, bet), BetKey(NoShowB, bet))
  {
    hide Sound, AfterRefundBoth, VoidsExactly, RefundsExactly;
    FreshPair(s, bet, NoShowA, NoShowB);
    UnsettledIsEscrowed(s, bet);
    var u := WithStatus(CancelLiveAssignment(s, bet), bet, VOIDED);
    var r := AfterRefundBoth(u, bet, BetKey(NoShowA, bet), BetKey(NoShowB, bet));
    RelabelledExact(s, u, bet, BetKey(NoShowA, bet), BetKey(NoShowB, bet));
    Around(s, r, AfterNoShow(s, bet), bet, BetKey(NoShowA, bet), BetKey(NoShowB, bet));
  }

  lemma UnderageExact(s: State, bet: Id)
    requires Sound(s) && bet in s.bets && s.bets[bet].status.IsUnsettled()
    ensures s.bets[bet].playerB.Some?
    ensures VoidsExactly(s, AfterUnderageVoid(s, bet), bet, BetKey(UnderageA, bet), BetKey(UnderageB, bet))
  {
    hide Sound, AfterRefundBoth, VoidsExactly, RefundsExactly;
    FreshPair(s, bet, UnderageA, UnderageB);
    UnsettledIsEscrowed(s, bet);
    var u := CancelOpenAssignment(WithStatus(s, bet, VOIDED), bet);
    var r := AfterRefundBoth(u, bet, BetKey(UnderageA, bet), BetKey(UnderageB, bet));
    RelabelledExact(s, u, bet, BetKey(UnderageA, bet), BetKey(UnderageB, bet));
    Around(s, r, AfterUnderageVoid(s, bet), bet, BetKey(UnderageA, bet), BetKey(UnderageB, bet));
  }

  /** Carrying a refund's verdict over to the transaction around it. */
  lemma Around(s: State, inner: Result, outer: Result, bet: Id, keyA: Key, keyB: Key)
    requires bet in s.bets && s.bets[bet].playerB.Some? && RefundsExactly(s, inner, bet, keyA, keyB)
    requires inner.Done? <==> outer.Done?
    requires inner.Fail? ==> outer == inner
    requires outer.Done? ==> bet in outer.state.bets && outer.state.bets[bet].status == VOIDED
    ensures VoidsExactly(s, outer, bet, keyA, keyB)
  {
  }

  lemma AutoVoidExact(s: State, dispute: Id, bet: Id)
    requires Sound(s) && dispute in s.disputes && HoldsDisputedStakes(s, bet)
    ensures s.bets[bet].playerB.Some?
    ensures VoidsExactly(s, AfterAutoVoid(s, dispute, bet), bet, BetKey(DisputeVoidA, bet), BetKey(DisputeVoidB, bet))
  {
    hide Sound, AfterRefundBoth, VoidsExactly, RefundsExactly;
    var keyA, keyB := BetKey(DisputeVoidA, bet), BetKey(DisputeVoidB, bet);
    FreshPair(s, bet, DisputeVoidA, DisputeVoidB);
    UnsettledIsEscrowed(s, bet);
    var u := WithStatus(s, bet, VOIDED);
    RelabelledExact(s, u, bet, keyA, keyB);
    Around(s, AfterRefundBoth(u, bet, keyA, keyB), AfterAutoVoid(s, dispute, bet), bet, keyA, keyB);
  }

  lemma VoidRulingExact(s: State, dispute: Id, now: int)
    requires Sound(s) && dispute in s.disputes && s.disputes[dispute].bet in s.bets
    requires s.bets[s.disputes[dispute].bet].status == DISPUTED
    ensures s.bets[s.disputes[dispute].bet].playerB.Some?
    ensures VoidsExactly(s, AfterRuling(s, dispute, ForVoid, now), s.disputes[dispute].bet,
                         ResolveKey(true, dispute), ResolveKey(false, dispute))
  {
    hide Sound, AfterRefundBoth, VoidsExactly, RefundsExactly;
    var bet := s.disputes[dispute].bet;
    var keyA, keyB := ResolveKey(true, dispute), ResolveKey(false, dispute);
    FreshPair(s, bet, Release, Release);
    UnsettledIsEscrowed(s, bet);
    var decided := Resolved(s, dispute, RESOLVED_VOID);
    var u := if bet in s.assignments then decided else WithStatus(decided, bet, VOIDED);
    RelabelledExact(s, u, bet, keyA, keyB);
    Around(s, AfterRefundBoth(u, bet, keyA, keyB), AfterRuling(s, dispute, ForVoid, now), bet, keyA, keyB);
  }

  /** A player can pull out of a matched bet until the referee has started it, and then not at all. */
  lemma WithdrawalExact(s: State, bet: Id)
    requires Sound(s)
    ensures var r := AfterWithdrawal(s, bet);
            if bet !in s.bets || !s.bets[bet].status.MATCHED?
               || (bet in s.assignments && !s.assignments[bet].status.BeforeStart())
            then r == Fail(Conflict)
            else s.bets[bet].playerB.Some? && VoidsExactly(s, r, bet, BetKey(NoShowA, bet), BetKey(NoShowB, bet))
  {
    hide Sound, AfterNoShow, VoidsExactly;
    if bet in s.bets && s.bets[bet].status.MATCHED? {
      UnsettledIsEscrowed(s, bet);
      NoShowExact(s, bet);
    }
  }

  /** The no-show void is for matches still waiting for a result; any other bet it leaves exactly as it is. */
  lemma NoShowSparesTheRest(s: State, bet: Id)
    requires bet !in s.bets || !s.bets[bet].status.MATCHED?
    ensures AfterNoShow(s, bet) == Done(s)
  {
  }

  /** A match whose stakes have moved but which has no escrow account is never written off as void. */
  lemma MovedWithoutEscrowThrows(s: State, bet: Id, movement: Movement)
    requires IsUnplayed(s, bet) && Escrow(bet) !in s.balances && BetKey(movement, bet) in s.txns
    requires movement != DevShare
    ensures AfterNoShow(s, bet) == Fail(UnescrowedMovement)
  {
    assert FiledUnder(s, BetKey(movement, bet)) == Some(bet);
  }
}
