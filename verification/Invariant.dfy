/** What every reachable state of the database satisfies. */
module Invariant {
  import opened Sums
  import opened Tables
  import opened IdempotencyKeys
  import opened Ledger
  import opened Fees
  import opened Escrows

  /** The money a bet's escrow account must hold in each phase. */
  function Held(row: Bet): int {
    match row.status
    case OPEN => row.amount
    case MATCHED => 2 * row.amount
    case RESULT_REPORTED => 2 * row.amount
    case DISPUTED => 2 * row.amount
    case _ => 0
  }

  function HeldFor(s: State, developer: Id, row: Bet): int {
    if DeveloperOf(s, row.game) == Some(developer) then Held(row) else 0
  }

  /** What a developer's escrow counter must read. */
  ghost function Exposure(s: State, developer: Id): int {
    MapSum(map b | b in s.bets :: HeldFor(s, developer, s.bets[b]))
  }

  /** Which movements a bet's status admits: each way out has its own. */
  predicate Admits(status: BetStatus, movement: Movement) {
    match movement
    case HoldA => status != PENDING_CONSENT
    case HoldB => status.HadOpponent()
    case ExpiryRefund => status == CANCELLED
    case Fee => status == SETTLED
    case RefereeReward => status == SETTLED
    case DevShare => status == SETTLED
    case Release => status == SETTLED
    case ReleaseA => status == SETTLED
    case ReleaseB => status == SETTLED
    case _ => status == VOIDED
  }

  predicate KeySound(s: State, k: Key) {
    match k
    case BetKey(movement, bet) => bet in s.bets && Admits(s.bets[bet].status, movement)
    case ResolveKey(_, dispute) =>
      dispute in s.disputes && s.disputes[dispute].bet in s.bets
      && s.bets[s.disputes[dispute].bet].status == VOIDED
    case _ => true
  }

  /** A bet with a result has its outcome and its time; a paid one was verified and took exactly its fee. */
  predicate ResultSound(row: Bet) {
    && (row.status.HasResult() ==> row.outcome.Some? && row.reportedAt.Some?)
    && (row.status.SETTLED? ==> row.verified && row.feeTaken == Some(PlatformFee(row.amount, row.feePercent)))
  }

  predicate RowSound(s: State, bet: Id)
    requires bet in s.bets
  {
    var row := s.bets[bet];
    && row.amount > 0 && 0 <= row.feePercent <= WHOLE && row.game in s.cat.games
    && (row.playerB.Some? ==> row.playerB.value != row.playerA)
    && (row.status.HadOpponent() ==> row.playerB.Some?) && ResultSound(row)
    && Bal(s, Escrow(bet)) == Held(row)
    && (Held(row) > 0 ==> Escrow(bet) in s.balances)
  }

  predicate DisputeSound(s: State, dispute: Id)
    requires dispute in s.disputes
  {
    var bet := s.disputes[dispute].bet;
    bet in s.bets && (s.bets[bet].status.HadOpponent() && !s.bets[bet].status.MATCHED?)
  }

  predicate AssignmentSound(s: State, bet: Id)
    requires bet in s.assignments
  {
    && bet in s.bets && !s.bets[bet].status.CanHold()
    && 0 <= s.assignments[bet].rewardPercent <= WHOLE
  }

  predicate CatalogueSound(cat: Catalogue) {
    && (forall g :: g in cat.games ==> cat.games[g] in cat.developers)
    && (forall d :: d in cat.developers ==> 0 <= cat.developers[d].revShare <= WHOLE)
  }

  /** No account but the inbound payments account is overdrawn. */
  ghost predicate Solvent(s: State) {
    forall a: Account :: a != StripeSource ==> Bal(s, a) >= 0
  }

  ghost predicate CountersAgree(s: State) {
    forall d :: d in s.limits ==> s.limits[d].current == Exposure(s, d)
  }

  ghost predicate RowsSound(s: State) {
    && CatalogueSound(s.cat)
    && (forall b :: b in s.bets ==> RowSound(s, b))
    && (forall b :: Escrow(b) in s.balances ==> b in s.bets)
    && (forall k :: k in s.txns ==> KeySound(s, k))
    && (forall d :: d in s.disputes ==> DisputeSound(s, d))
    && (forall b :: b in s.assignments ==> AssignmentSound(s, b))
  }

  ghost predicate Sound(s: State) {
    RowsSound(s) && CountersAgree(s) && Solvent(s) && Books(s)
  }

  // ---- which accounts each key's transaction runs between -----------------

  predicate Routes(movement: Movement, bet: Id, txn: Txn) {
    match movement
    case HoldA => txn.from.PlayerBalance? && txn.to == Escrow(bet)
    case HoldB => txn.from.PlayerBalance? && txn.to == Escrow(bet)
    case Fee => txn.from == Escrow(bet) && txn.to == PlatformRevenue
    case RefereeReward => txn.from == PlatformRevenue && txn.to.PlayerBalance?
    case DevShare => txn.from == PlatformRevenue && txn.to.DeveloperBalance?
    case _ => txn.from == Escrow(bet) && txn.to.PlayerBalance?
  }

  predicate RoutedTxn(s: State, k: Key, txn: Txn) {
    && txn.amount > 0
    && match k
       case BetKey(movement, bet) => Routes(movement, bet, txn)
       case ResolveKey(_, dispute) =>
         dispute in s.disputes && txn.from == Escrow(s.disputes[dispute].bet) && txn.to.PlayerBalance?
       case DepositKey(_) => txn.from == StripeSource && txn.to.PlayerBalance?
       case CashOutKey(_) => txn.from.PlayerBalance? && txn.to == StripeSink
       case ReversalKey(text) =>
         && txn.from == StripeSink && txn.to.PlayerBalance?
         && CashOutKey(text) in s.txns && s.txns[CashOutKey(text)] == Txn(txn.to, StripeSink, txn.amount)
  }

  /** Every key names the accounts its transaction ran between. */
  ghost predicate Routed(s: State) {
    forall k :: k in s.txns ==> RoutedTxn(s, k, s.txns[k])
  }

  /** A text is a customer's request's or a movement's of the code's own, and each customer's fits the column. */
  ghost predicate Filed(s: State) {
    && (forall k :: k in s.txns ==> (ClientHas(s, k) <==> k.CashOutKey?))
    && (forall text :: text in s.clientKeys ==> IsRequestText(text))
  }

  // ---- a step that changes one bet ----------------------------------------

  function HeldBefore(s: State, bet: Id): int {
    if bet in s.bets then Held(s.bets[bet]) else 0
  }

  /** `t` differs from `s` in one bet's row, escrow and share of the counter, and nothing of any other bet. */
  ghost predicate OnlyBet(s: State, t: State, bet: Id) {
    && t.cat == s.cat
    && bet in t.bets && t.bets == s.bets[bet := t.bets[bet]]
    && (bet in s.bets ==> s.bets[bet].game == t.bets[bet].game)
    && (forall c: Id :: c != bet ==> Bal(t, Escrow(c)) == Bal(s, Escrow(c)))
    && (forall c: Id :: c != bet ==> (Escrow(c) in t.balances <==> Escrow(c) in s.balances))
    && t.limits.Keys == s.limits.Keys
    && (forall d :: d in t.limits ==>
          t.limits[d].current == s.limits[d].current
            + if DeveloperOf(s, t.bets[bet].game) == Some(d) then Held(t.bets[bet]) - HeldBefore(s, bet) else 0)
  }

  lemma ExposureMoves(s: State, t: State, bet: Id, developer: Id)
    requires t.cat == s.cat && bet in t.bets && t.bets == s.bets[bet := t.bets[bet]]
    requires bet in s.bets ==> s.bets[bet].game == t.bets[bet].game
    ensures Exposure(t, developer) == Exposure(s, developer)
            + if DeveloperOf(s, t.bets[bet].game) == Some(developer) then Held(t.bets[bet]) - HeldBefore(s, bet) else 0
  {
    var before := map b | b in s.bets :: HeldFor(s, developer, s.bets[b]);
    var after := map b | b in t.bets :: HeldFor(t, developer, t.bets[b]);
    assert after == before[bet := HeldFor(s, developer, t.bets[bet])];
    MapSumUpdate(before, bet, HeldFor(s, developer, t.bets[bet]));
  }

  lemma CountersFollow(s: State, t: State, bet: Id)
    requires CountersAgree(s) && OnlyBet(s, t, bet)
    ensures CountersAgree(t)
  {
    hide Exposure, Bal;
    forall d | d in t.limits
      ensures t.limits[d].current == Exposure(t, d)
    {
      ExposureMoves(s, t, bet, d);
    }
  }

  lemma OtherRowsSound(s: State, t: State, bet: Id)
    requires RowsSound(s) && OnlyBet(s, t, bet)
    requires RowSound(t, bet)
    requires forall k :: k in t.txns ==> KeySound(t, k)
    requires forall d :: d in t.disputes ==> DisputeSound(t, d)
    requires forall b :: b in t.assignments ==> AssignmentSound(t, b)
    ensures RowsSound(t)
  {
    hide KeySound, DisputeSound, AssignmentSound, Bal;
    forall b | b in t.bets
      ensures RowSound(t, b)
    {
      assert b != bet ==> RowSound(s, b);
    }
  }

  lemma OnlyBetKeepsSound(s: State, t: State, bet: Id)
    requires Sound(s) && OnlyBet(s, t, bet)
    requires RowSound(t, bet)
    requires forall k :: k in t.txns ==> KeySound(t, k)
    requires forall d :: d in t.disputes ==> DisputeSound(t, d)
    requires forall b :: b in t.assignments ==> AssignmentSound(t, b)
    requires Solvent(t) && Books(t)
    ensures Sound(t)
  {
    hide RowsSound, RowSound, CountersAgree, OnlyBet, KeySound, DisputeSound, AssignmentSound, Solvent, Books;
    CountersFollow(s, t, bet);
    OtherRowsSound(s, t, bet);
  }

  lemma SameLedger(s: State, t: State)
    requires t.balances == s.balances && t.entries == s.entries && t.txns == s.txns
    ensures Solvent(s) ==> Solvent(t)
    ensures Books(s) ==> Books(t)
  {
    hide AccountSum, KeySum, TotalSum;
    assert forall a: Account :: Bal(t, a) == Bal(s, a);
  }

  /** Disputes and assignments stay sound when one bet's row moves on and their own fixed columns are kept. */
  lemma RowsFollow(s: State, t: State, bet: Id)
    requires RowsSound(s) && bet in s.bets && bet in t.bets && t.bets == s.bets[bet := t.bets[bet]]
    requires var before, after := s.bets[bet].status, t.bets[bet].status;
             before == after || before.CanHold() || (after.HadOpponent() && !after.MATCHED?)
    requires forall d :: d in t.disputes ==>
               || (d in s.disputes && t.disputes[d].bet == s.disputes[d].bet)
               || (t.disputes[d].bet == bet && t.bets[bet].status.HadOpponent() && !t.bets[bet].status.MATCHED?)
    requires forall b :: b in t.assignments ==>
               || (b in s.assignments && t.assignments[b].rewardPercent == s.assignments[b].rewardPercent)
               || (b == bet && !t.bets[bet].status.CanHold() && 0 <= t.assignments[b].rewardPercent <= WHOLE)
    ensures forall d :: d in t.disputes ==> DisputeSound(t, d)
    ensures forall b :: b in t.assignments ==> AssignmentSound(t, b)
  {
    hide RowSound, KeySound;
    forall d | d in t.disputes
      ensures DisputeSound(t, d)
    {
      assert d in s.disputes ==> DisputeSound(s, d);
    }
    forall b | b in t.assignments
      ensures AssignmentSound(t, b)
    {
      assert b in s.assignments ==> AssignmentSound(s, b);
    }
  }

  lemma ExposureCovers(s: State, bet: Id, developer: Id)
    requires bet in s.bets && DeveloperOf(s, s.bets[bet].game) == Some(developer)
    requires forall b :: b in s.bets ==> s.bets[b].amount > 0
    ensures Exposure(s, developer) >= Held(s.bets[bet])
  {
    var shares := map b | b in s.bets :: HeldFor(s, developer, s.bets[b]);
    MapSumBounds(shares);
    assert shares[bet] == Held(s.bets[bet]);
  }

  /** The counter is always at least what any one bet holds, so lowering it never clamps. */
  lemma CounterCovers(s: State, bet: Id)
    requires Sound(s) && bet in s.bets
    ensures LimitOf(s, s.bets[bet]).Some? ==>
              s.limits[LimitOf(s, s.bets[bet]).value].current >= Held(s.bets[bet])
  {
    hide Books, Solvent, KeySound, Exposure;
    var developer := LimitOf(s, s.bets[bet]);
    if developer.Some? {
      forall b | b in s.bets
        ensures s.bets[b].amount > 0
      {
        assert RowSound(s, b);
      }
      ExposureCovers(s, bet, developer.value);
    }
  }

  // ---- what each escrow operation does, given a fresh key -----------------

  predicate Lowered(s: State, t: State, row: Bet, amount: int) {
    && t.limits.Keys == s.limits.Keys
    && forall d :: d in t.limits ==>
         t.limits[d] == s.limits[d].(current := s.limits[d].current
                          - if DeveloperOf(s, row.game) == Some(d) then amount else 0)
  }

  ghost predicate Moves(s: State, t: State, from: Account, to: Account, amount: int, key: Key) {
    && amount > 0 && from != to
    && (forall a :: Bal(t, a) == Bal(s, a) + Moved(a, from, to, amount))
    && t.balances.Keys == s.balances.Keys + {from, to}
    && t.txns == s.txns[key := Txn(from, to, amount)]
    && (!IsSystem(from) ==> Bal(s, from) >= amount)
  }

  lemma TransferEffect(s: State, from: Account, to: Account, amount: int, key: Key)
    requires key !in s.txns && AfterTransfer(s, from, to, amount, key).Done?
    ensures Moves(s, AfterTransfer(s, from, to, amount, key).state, from, to, amount, key)
  {
    hide Books;
  }

  lemma HoldEffect(s: State, bet: Id, player: Id, amount: int, movement: Movement)
    requires BetKey(movement, bet) !in s.txns && bet in s.bets
    requires AfterHold(s, bet, player, amount, movement).Done?
    ensures var t := AfterHold(s, bet, player, amount, movement).state;
            && Moves(s, t, PlayerBalance(player), Escrow(bet), amount, BetKey(movement, bet))
            && Lowered(s, t, s.bets[bet], -amount)
  {
    hide Books;
  }

  lemma RefundEffect(s: State, bet: Id, player: Id, amount: int, key: Key)
    requires key !in s.txns && bet in s.bets
    requires AfterRefund(s, bet, player, amount, key).Done?
    requires LimitOf(s, s.bets[bet]).Some? ==> s.limits[LimitOf(s, s.bets[bet]).value].current >= amount
    ensures var t := AfterRefund(s, bet, player, amount, key).state;
            && Moves(s, t, Escrow(bet), PlayerBalance(player), amount, key)
            && Lowered(s, t, s.bets[bet], amount)
  {
    hide Books;
  }
}
