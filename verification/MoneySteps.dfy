/** Holding, expiring and voiding keep the database sound. */
module MoneySteps {
  import opened Tables
  import opened Ledger
  import opened Escrows
  import opened BetExpiry
  import opened Lifecycle
  import opened Invariant

  /** No movement of a bet that has not left yet is filed under one of the ways out. */
  lemma ExitKeysFresh(s: State, bet: Id)
    requires RowsSound(s) && bet in s.bets && !s.bets[bet].status.IsTerminal()
    ensures forall m: Movement :: m != HoldA && m != HoldB ==> BetKey(m, bet) !in s.txns
    ensures s.bets[bet].status == PENDING_CONSENT ==> BetKey(HoldA, bet) !in s.txns
    ensures s.bets[bet].status == PENDING_CONSENT || s.bets[bet].status == OPEN ==> BetKey(HoldB, bet) !in s.txns
    ensures forall d, side :: d in s.disputes && s.disputes[d].bet == bet ==> ResolveKey(side, d) !in s.txns
  {
    hide RowSound, DisputeSound, AssignmentSound;
    forall m: Movement | BetKey(m, bet) in s.txns
      ensures Admits(s.bets[bet].status, m)
    {
      assert KeySound(s, BetKey(m, bet));
    }
    forall d, side | d in s.disputes && s.disputes[d].bet == bet
      ensures ResolveKey(side, d) !in s.txns
    {
      assert ResolveKey(side, d) in s.txns ==> KeySound(s, ResolveKey(side, d));
    }
  }

  /** How a bet's row may change when money moves: forward, with its terms fixed. */
  predicate Advances(row: Bet, row': Bet) {
    && row'.game == row.game && row'.amount == row.amount && row'.feePercent == row.feePercent
    && row'.playerA == row.playerA && ResultSound(row')
    && (row'.playerB.Some? ==> row'.playerB.value != row'.playerA)
    && (row'.status.HadOpponent() ==> row'.playerB.Some?)
    && (forall m: Movement :: Admits(row.status, m) ==> Admits(row'.status, m))
    && row.status != VOIDED
  }

  predicate NewKey(t: State, bet: Id, k: Key)
    requires bet in t.bets
  {
    match k
    case BetKey(movement, b) => b == bet && Admits(t.bets[bet].status, movement)
    case ResolveKey(_, d) => d in t.disputes && t.disputes[d].bet == bet && t.bets[bet].status == VOIDED
    case _ => false
  }

  /** A transaction that moves money into or out of one bet's escrow, leaving it at what the new phase holds. */
  ghost predicate MovesOneBet(s: State, t: State, bet: Id) {
    && bet in s.bets && bet in t.bets
    && OnlyBet(s, t, bet)
    && Advances(s.bets[bet], t.bets[bet])
    && Bal(t, Escrow(bet)) == Held(t.bets[bet]) && (Held(t.bets[bet]) > 0 ==> Escrow(bet) in t.balances)
    && (forall k :: k in t.txns ==> k in s.txns || NewKey(t, bet, k))
    && (forall d :: d in s.disputes ==> d in t.disputes && t.disputes[d].bet == s.disputes[d].bet)
  }

  lemma MovesOneBetKeepsSound(s: State, t: State, bet: Id)
    requires Sound(s) && MovesOneBet(s, t, bet)
    requires forall d :: d in t.disputes ==> DisputeSound(t, d)
    requires forall b :: b in t.assignments ==> AssignmentSound(t, b)
    requires Solvent(t) && Books(t)
    ensures Sound(t)
  {
    hide Books, CountersAgree, DisputeSound, AssignmentSound, Bal;
    assert RowSound(s, bet);
    forall k | k in t.txns
      ensures KeySound(t, k)
    {
      assert k in s.txns ==> KeySound(s, k);
    }
    OnlyBetKeepsSound(s, t, bet);
  }

  lemma MovesSolvent(s: State, t: State, from: Account, to: Account, amount: int, key: Key)
    requires Solvent(s) && Moves(s, t, from, to, amount, key) && !IsSystem(from)
    ensures Solvent(t)
  {
    hide Bal;
  }

  /** One movement between a player and one bet's escrow, together with that bet's new row. */
  ghost predicate OneMovement(s: State, t: State, bet: Id, player: Id, stake: int, key: Key) {
    && bet in s.bets && bet in t.bets
    && t.bets == s.bets[bet := t.bets[bet]]
    && t.cat == s.cat && t.disputes == s.disputes && t.assignments == s.assignments
    && (if stake > 0 then Moves(s, t, PlayerBalance(player), Escrow(bet), stake, key)
        else Moves(s, t, Escrow(bet), PlayerBalance(player), -stake, key))
    && Lowered(s, t, s.bets[bet], -stake)
    && Held(t.bets[bet]) == Held(s.bets[bet]) + stake
    && Advances(s.bets[bet], t.bets[bet])
    && NewKey(t, bet, key)
  }

  lemma OneMovementKeepsSound(s: State, t: State, bet: Id, player: Id, stake: int, key: Key)
    requires Sound(s) && Books(t) && OneMovement(s, t, bet, player, stake, key)
    requires s.bets[bet].status.CanHold() || (t.bets[bet].status.HadOpponent() && !t.bets[bet].status.MATCHED?)
    ensures Sound(t)
  {
    hide Books, CountersAgree, DisputeSound, AssignmentSound, Bal, Solvent, RowsSound, RowSound, Admits, KeySound;
    RowIsSound(s, bet);
    MovementSolvent(s, t, bet, player, stake, key);
    MovementShape(s, t, bet, player, stake, key);
    RowsFollow(s, t, bet);
    MovesOneBetKeepsSound(s, t, bet);
  }

  lemma MovementSolvent(s: State, t: State, bet: Id, player: Id, stake: int, key: Key)
    requires Solvent(s) && OneMovement(s, t, bet, player, stake, key)
    ensures Solvent(t)
  {
    hide Bal, Advances, Held;
    if stake > 0 {
      MovesSolvent(s, t, PlayerBalance(player), Escrow(bet), stake, key);
    } else {
      MovesSolvent(s, t, Escrow(bet), PlayerBalance(player), -stake, key);
    }
  }

  lemma MovementShape(s: State, t: State, bet: Id, player: Id, stake: int, key: Key)
    requires bet in s.bets && RowSound(s, bet) && OneMovement(s, t, bet, player, stake, key)
    ensures MovesOneBet(s, t, bet)
  {
    hide Bal, Admits;
  }

  lemma ConsentKeepsSound(s: State, bet: Id)
    requires Sound(s) && AfterConsent(s, bet).Done?
    ensures Sound(AfterConsent(s, bet).state)
  {
    hide Books, CountersAgree, Solvent, AfterHold, Bal, RowsSound, KeySound;
    var row := s.bets[bet];
    ExitKeysFresh(s, bet);
    HoldEffect(s, bet, row.playerA, row.amount, HoldA);
    RowIsSound(s, bet);
    var held := AfterHold(s, bet, row.playerA, row.amount, HoldA).state;
    Rewritten(s, held, bet, row.(status := OPEN), row.playerA, row.amount, BetKey(HoldA, bet));
  }

  lemma RowIsSound(s: State, bet: Id)
    requires RowsSound(s) && bet in s.bets
    ensures RowSound(s, bet)
  {
  }

  /** The movement first, then the row: the order in which every hold and refund is written. */
  lemma Rewritten(s: State, moved: State, bet: Id, row: Bet, player: Id, stake: int, key: Key)
    requires Sound(s) && Books(moved) && OnlyMoney(s, moved) && bet in s.bets && stake != 0
    requires if stake > 0 then Moves(s, moved, PlayerBalance(player), Escrow(bet), stake, key)
             else Moves(s, moved, Escrow(bet), PlayerBalance(player), -stake, key)
    requires Lowered(s, moved, s.bets[bet], -stake)
    requires Held(row) == Held(s.bets[bet]) + stake && Advances(s.bets[bet], row)
    requires key.BetKey? && key.bet == bet && Admits(row.status, key.movement)
    requires s.bets[bet].status.CanHold()
    ensures Sound(moved.(bets := moved.bets[bet := row]))
  {
    hide Books, CountersAgree, Solvent, Bal, RowsSound, Advances, Held;
    var t := moved.(bets := moved.bets[bet := row]);
    SameLedger(moved, t);
    BalSame(moved, t);
    OneMovementKeepsSound(s, t, bet, player, stake, key);
  }

  lemma BalSame(s: State, t: State)
    requires t.balances == s.balances
    ensures forall a :: Bal(t, a) == Bal(s, a)
  {
  }

  lemma AcceptKeepsSound(s: State, bet: Id, player: Id)
    requires Sound(s) && AfterAccept(s, bet, player).Done?
    ensures Sound(AfterAccept(s, bet, player).state)
  {
    hide Books, CountersAgree, Solvent, AfterHold, Bal, RowsSound, KeySound;
    var row := s.bets[bet];
    ExitKeysFresh(s, bet);
    HoldEffect(s, bet, player, row.amount, HoldB);
    RowIsSound(s, bet);
    var held := AfterHold(s, bet, player, row.amount, HoldB).state;
    Rewritten(s, held, bet, row.(status := MATCHED, playerB := Some(player)), player, row.amount, BetKey(HoldB, bet));
  }

  lemma ExpiryKeepsSound(s: State, bet: Id)
    requires Sound(s) && bet in s.bets && s.bets[bet].status == OPEN && AfterExpiry(s, bet).Done?
    ensures Sound(AfterExpiry(s, bet).state)
  {
    hide Books, CountersAgree, Solvent, AfterRefund, Bal, RowsSound, KeySound;
    var row := s.bets[bet];
    var key := BetKey(ExpiryRefund, bet);
    ExitKeysFresh(s, bet);
    CounterCovers(s, bet);
    RowIsSound(s, bet);
    RefundEffect(s, bet, row.playerA, row.amount, key);
    var refunded := AfterRefund(s, bet, row.playerA, row.amount, key).state;
    Rewritten(s, refunded, bet, row.(status := CANCELLED), row.playerA, -row.amount, key);
  }

  // ---- both stakes back ---------------------------------------------------

  ghost predicate Returns(s: State, t: State, bet: Id, row: Bet, keyA: Key, keyB: Key)
    requires row.playerB.Some?
  {
    var e, a, b := Escrow(bet), PlayerBalance(row.playerA), PlayerBalance(row.playerB.value);
    && row.amount > 0
    && (forall x :: Bal(t, x) == Bal(s, x) + Moved(x, e, a, row.amount) + Moved(x, e, b, row.amount))
    && t.balances.Keys == s.balances.Keys + {e, a, b}
    && t.txns == s.txns[keyA := Txn(e, a, row.amount)][keyB := Txn(e, b, row.amount)]
    && Lowered(s, t, row, 2 * row.amount)
  }

  lemma RefundBothEffect(s: State, bet: Id, keyA: Key, keyB: Key)
    requires bet in s.bets && s.bets[bet].playerB.Some?
    requires keyA !in s.txns && keyB !in s.txns && keyA != keyB
    requires LimitOf(s, s.bets[bet]).Some? ==>
               s.limits[LimitOf(s, s.bets[bet]).value].current >= 2 * s.bets[bet].amount
    requires AfterRefundBoth(s, bet, keyA, keyB).Done?
    ensures Returns(s, AfterRefundBoth(s, bet, keyA, keyB).state, bet, s.bets[bet], keyA, keyB)
  {
    hide Bal, AfterRefund;
    var row := s.bets[bet];
    RefundPositive(s, bet, row.playerA, row.amount, keyA);
    RefundEffect(s, bet, row.playerA, row.amount, keyA);
    var t := AfterRefund(s, bet, row.playerA, row.amount, keyA).state;
    RefundEffect(t, bet, row.playerB.value, row.amount, keyB);
  }

  lemma RefundPositive(s: State, bet: Id, player: Id, amount: int, key: Key)
    requires AfterRefund(s, bet, player, amount, key).Done?
    ensures amount > 0
  {
  }

  /** The pre-state of a void, up to the rows it has already relabelled. */
  predicate SameMoney(s: State, u: State) {
    && u.balances == s.balances && u.txns == s.txns && u.entries == s.entries
    && u.limits == s.limits && u.clientKeys == s.clientKeys && u.cat == s.cat
  }

  predicate SameParties(row: Bet, row': Bet) {
    row'.game == row.game && row'.amount == row.amount && row'.playerA == row.playerA && row'.playerB == row.playerB
  }

  lemma VoidKeepsSound(s: State, u: State, t: State, bet: Id, keyA: Key, keyB: Key)
    requires Sound(s) && bet in s.bets && s.bets[bet].status.IsUnsettled()
    requires SameMoney(s, u) && bet in u.bets && SameParties(s.bets[bet], u.bets[bet])
    requires AfterRefundBoth(u, bet, keyA, keyB).Done? && SameMoney(AfterRefundBoth(u, bet, keyA, keyB).state, t)
    requires t.bets == s.bets[bet := s.bets[bet].(status := VOIDED)]
    requires keyA !in s.txns && keyB !in s.txns && keyA != keyB && NewKey(t, bet, keyA) && NewKey(t, bet, keyB)
    requires forall d :: d in s.disputes ==> d in t.disputes && t.disputes[d].bet == s.disputes[d].bet
    requires forall d :: d in t.disputes ==> DisputeSound(t, d)
    requires forall b :: b in t.assignments ==> AssignmentSound(t, b)
    ensures Sound(t)
  {
    hide Books, CountersAgree, DisputeSound, AssignmentSound, Bal, Solvent, RowsSound, KeySound, AfterRefundBoth,
      NewKey;
    CounterCovers(s, bet);
    RowIsSound(s, bet);
    var v := AfterRefundBoth(u, bet, keyA, keyB).state;
    RefundBothEffect(u, bet, keyA, keyB);
    SameLedger(s, u);
    SameLedger(v, t);
    BalSame(s, u);
    BalSame(v, t);
    assert Returns(s, t, bet, s.bets[bet], keyA, keyB);
    ReturnsSolvent(s, t, bet, keyA, keyB);
    ReturnsShape(s, t, bet, keyA, keyB);
    MovesOneBetKeepsSound(s, t, bet);
  }

  lemma ReturnsSolvent(s: State, t: State, bet: Id, keyA: Key, keyB: Key)
    requires Solvent(s) && bet in s.bets && s.bets[bet].playerB.Some?
    requires Returns(s, t, bet, s.bets[bet], keyA, keyB) && Bal(s, Escrow(bet)) >= 2 * s.bets[bet].amount
    ensures Solvent(t)
  {
    hide Bal;
    forall x: Account | x != StripeSource
      ensures Bal(t, x) >= 0
    {
      assert Bal(s, x) >= 0;
    }
  }

  lemma ReturnsShape(s: State, t: State, bet: Id, keyA: Key, keyB: Key)
    requires bet in s.bets && s.bets[bet].status.IsUnsettled() && RowSound(s, bet) && t.cat == s.cat
    requires s.bets[bet].playerB.Some? && Returns(s, t, bet, s.bets[bet], keyA, keyB)
    requires t.bets == s.bets[bet := s.bets[bet].(status := VOIDED)]
    requires NewKey(t, bet, keyA) && NewKey(t, bet, keyB)
    requires forall d :: d in s.disputes ==> d in t.disputes && t.disputes[d].bet == s.disputes[d].bet
    ensures MovesOneBet(s, t, bet)
  {
    hide Bal, NewKey;
  }
}
