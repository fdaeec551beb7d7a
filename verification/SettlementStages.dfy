/** What each stage of a settlement does, and the reasons each can throw in a sound database. */
module SettlementStages {
  import opened Tables
  import opened Ledger
  import opened Fees
  import opened Escrows
  import opened Settlement

  /** `amount` went from one account to the other, or nothing happened because it was zero. */
  ghost predicate Paid(s: State, t: State, from: Account, to: Account, amount: int, key: Key) {
    && OnlyLedger(s, t) && amount >= 0
    && (forall a :: Bal(t, a) == Bal(s, a) + Moved(a, from, to, amount))
    && t.txns.Keys == s.txns.Keys + (if amount > 0 then {key} else {})
    && s.balances.Keys <= t.balances.Keys <= s.balances.Keys + {from, to}
  }

  /** A part that comes to nothing is not paid, so it need not be payable. */
  predicate Usable(s: State, from: Account, to: Account, amount: int) {
    amount > 0 ==> from !in s.cat.frozen && to !in s.cat.frozen
  }

  predicate Unclaimed(s: State, amount: int, key: Key) {
    amount > 0 ==> !ClientHas(s, key)
  }

  /** The stage goes through exactly when the accounts are usable and no customer has the key's text. */
  ghost predicate Stage(s: State, r: Result, from: Account, to: Account, amount: int, key: Key) {
    && (r.Done? <==> Usable(s, from, to, amount) && Unclaimed(s, amount, key))
    && (r.Fail? ==> r.error == if ClientHas(s, key) then KeyConflict else FrozenAccount)
    && (r.Done? ==> Paid(s, r.state, from, to, amount, key))
  }

  lemma TransferPays(s: State, from: Account, to: Account, amount: int, key: Key)
    requires amount > 0 && from != to && key !in s.txns && (IsSystem(from) || Bal(s, from) >= amount)
    ensures Stage(s, AfterTransfer(s, from, to, amount, key), from, to, amount, key)
  {
    hide ClientHas, Books, Post, Paid, Bal;
    PostPays(s, from, to, amount, key);
  }

  lemma PostPays(s: State, from: Account, to: Account, amount: int, key: Key)
    requires amount > 0 && from != to
    ensures Paid(s, Post(s, from, to, amount, key), from, to, amount, key)
  {
  }

  lemma NothingPaid(s: State, from: Account, to: Account, key: Key)
    ensures Stage(s, Done(s), from, to, 0, key)
  {
    hide ClientHas, Bal;
    assert Paid(s, s, from, to, 0, key);
  }

  lemma FeeStage(s: State, bet: Id, fee: int)
    requires bet in s.bets && s.bets[bet].status == RESULT_REPORTED && BetKey(Fee, bet) !in s.txns
    requires Escrow(bet) in s.balances && 0 <= fee <= Bal(s, Escrow(bet))
    ensures Stage(s, AfterFee(s, bet, fee), Escrow(bet), PlatformRevenue, fee, BetKey(Fee, bet))
  {
    hide AfterTransfer, Stage;
    NothingPaid(s, Escrow(bet), PlatformRevenue, BetKey(Fee, bet));
    if fee > 0 {
      TransferPays(s, Escrow(bet), PlatformRevenue, fee, BetKey(Fee, bet));
    }
  }

  lemma RewardStage(s: State, bet: Id, referee: Id, refereeFee: int)
    requires BetKey(RefereeReward, bet) !in s.txns && 0 <= refereeFee
    requires refereeFee > 0 ==> bet in s.assignments && s.assignments[bet].referee == Some(referee)
    ensures Stage(s, AfterReward(s, bet, refereeFee), PlatformRevenue, PlayerBalance(referee), refereeFee,
                  BetKey(RefereeReward, bet))
  {
    hide AfterTransfer, Stage;
    NothingPaid(s, PlatformRevenue, PlayerBalance(referee), BetKey(RefereeReward, bet));
    if refereeFee > 0 {
      TransferPays(s, PlatformRevenue, PlayerBalance(referee), refereeFee, BetKey(RefereeReward, bet));
    }
  }

  lemma ShareStage(s: State, bet: Id, fee: int, refereeFee: int, developer: Developer, share: int)
    requires bet in s.bets && BetKey(DevShare, bet) !in s.txns
    requires s.bets[bet].game in s.cat.games && s.cat.games[s.bets[bet].game] in s.cat.developers
    requires developer == s.cat.developers[s.cat.games[s.bets[bet].game]]
    requires share == DeveloperShare(fee, refereeFee, developer.revShare)
    requires 0 <= share <= Bal(s, PlatformRevenue)
    ensures Stage(s, AfterShare(s, bet, fee, refereeFee), PlatformRevenue, DeveloperBalance(developer.user), share,
                  BetKey(DevShare, bet))
  {
    hide AfterTransfer, DeveloperShare, Stage;
    NothingPaid(s, PlatformRevenue, DeveloperBalance(developer.user), BetKey(DevShare, bet));
    if share > 0 {
      TransferPays(s, PlatformRevenue, DeveloperBalance(developer.user), share, BetKey(DevShare, bet));
    }
  }

  lemma ReleaseStage(s: State, bet: Id, winner: Id, amount: int, movement: Movement)
    requires bet in s.bets && s.bets[bet].status == RESULT_REPORTED && BetKey(movement, bet) !in s.txns
    requires Escrow(bet) in s.balances && amount <= Bal(s, Escrow(bet))
    ensures var r := AfterRelease(s, bet, winner, amount, movement);
            if amount <= 0 then r == Fail(NonPositiveAmount)
            else Stage(s, r, Escrow(bet), PlayerBalance(winner), amount, BetKey(movement, bet))
  {
    hide AfterTransfer, Stage;
    if amount > 0 {
      TransferPays(s, Escrow(bet), PlayerBalance(winner), amount, BetKey(movement, bet));
    }
  }

  /** The winner is left a penny, or on a draw both players are. */
  predicate LeavesEnough(remaining: int, outcome: BetOutcome) {
    remaining >= if outcome == DRAW then 2 else 1
  }

  predicate PayoutsUsable(s: State, bet: Id, a: Id, b: Id, payA: int, payB: int) {
    Usable(s, Escrow(bet), PlayerBalance(a), payA) && Usable(s, Escrow(bet), PlayerBalance(b), payB)
  }

  predicate PayoutsUnclaimed(s: State, bet: Id, outcome: BetOutcome) {
    if outcome == DRAW then !ClientHas(s, BetKey(ReleaseA, bet)) && !ClientHas(s, BetKey(ReleaseB, bet))
    else !ClientHas(s, BetKey(Release, bet))
  }

  ghost predicate PaidOut(s: State, t: State, bet: Id, a: Id, b: Id, payA: int, payB: int) {
    && OnlyLedger(s, t)
    && (forall x :: Bal(t, x) == Bal(s, x) + Moved(x, Escrow(bet), PlayerBalance(a), payA)
                                           + Moved(x, Escrow(bet), PlayerBalance(b), payB))
    && s.txns.Keys <= t.txns.Keys <= s.txns.Keys + {BetKey(Release, bet), BetKey(ReleaseA, bet), BetKey(ReleaseB, bet)}
    && s.balances.Keys <= t.balances.Keys <= s.balances.Keys + {Escrow(bet), PlayerBalance(a), PlayerBalance(b)}
  }

  lemma PayoutStage(s: State, bet: Id, remaining: int)
    requires Settles(s, bet) && Escrow(bet) in s.balances && remaining == Bal(s, Escrow(bet)) && 0 <= remaining
    requires BetKey(Release, bet) !in s.txns && BetKey(ReleaseA, bet) !in s.txns && BetKey(ReleaseB, bet) !in s.txns
    ensures var row := s.bets[bet];
            var payA, payB := PayoutA(remaining, row.outcome.value), PayoutB(remaining, row.outcome.value);
            var r := AfterPayouts(s, bet, remaining);
            && (r.Done? <==> && LeavesEnough(remaining, row.outcome.value)
                             && PayoutsUsable(s, bet, row.playerA, row.playerB.value, payA, payB)
                             && PayoutsUnclaimed(s, bet, row.outcome.value))
            && (r.Fail? ==>
                  match r.error
                  case NonPositiveAmount => !LeavesEnough(remaining, row.outcome.value)
                  case FrozenAccount => !PayoutsUsable(s, bet, row.playerA, row.playerB.value, payA, payB)
                  case KeyConflict => !PayoutsUnclaimed(s, bet, row.outcome.value)
                  case _ => false)
            && (r.Done? ==> PaidOut(s, r.state, bet, row.playerA, row.playerB.value, payA, payB))
  {
    hide AfterRelease, ClientHas;
    var row := s.bets[bet];
    if row.outcome.value == DRAW {
      var payA, payB := PayoutA(remaining, DRAW), PayoutB(remaining, DRAW);
      assert payA == (remaining + 1) / 2 && payB == remaining / 2;
      ReleaseStage(s, bet, row.playerA, payA, ReleaseA);
      if AfterRelease(s, bet, row.playerA, payA, ReleaseA).Done? {
        SameClients(s, AfterRelease(s, bet, row.playerA, payA, ReleaseA).state);
        ReleaseStage(AfterRelease(s, bet, row.playerA, payA, ReleaseA).state, bet, row.playerB.value, payB, ReleaseB);
      }
    } else {
      var winner := if row.outcome.value == PLAYER_A_WIN then row.playerA else row.playerB.value;
      ReleaseStage(s, bet, winner, remaining, Release);
    }
  }

  // ---- repetitions --------------------------------------------------------

  /**
   Every escrow operation repeated under a key already used changes nothing, counter
   included, or throws; a fee already taken is reported again even from an empty escrow.
   */
  lemma EscrowReplaysAreInert(s: State, bet: Id, player: Id, amount: int, movement: Movement, key: Key)
    requires BetKey(movement, bet) in s.txns
    ensures var r := AfterHold(s, bet, player, amount, movement); r.Done? ==> r.state == s
    ensures var r := AfterRelease(s, bet, player, amount, movement); r.Done? ==> r.state == s
    ensures key in s.txns ==> var r := AfterRefund(s, bet, player, amount, key); r.Done? ==> r.state == s
    ensures movement == Fee && amount > 0 && bet in s.bets && s.bets[bet].status.CanRelease() ==>
              AfterCollectFee(s, bet, amount)
              == if s.txns[BetKey(Fee, bet)].amount == amount then Done(s) else Fail(KeyConflict)
  {
    hide Books, ClientHas;
  }

  /** A developer's share is never paid out of revenue that is not there, though the account could be overdrawn. */
  lemma DevShareFromRevenue(s: State, bet: Id, developer: Id, amount: int)
    requires BetKey(DevShare, bet) !in s.txns && AfterDevShare(s, bet, developer, amount).Done?
    ensures Bal(AfterDevShare(s, bet, developer, amount).state, PlatformRevenue) == Bal(s, PlatformRevenue) - amount >= 0
  {
    hide Books, ClientHas;
  }
}
