/** In a sound database a settlement has one closed form, and each way it can fail has its reason. */
module SettlementEffect {
  import opened Tables
  import opened Ledger
  import opened Fees
  import opened Escrows
  import opened Settlement
  import opened SettlementStages
  import opened Invariant
  import opened MoneySteps

  /** Everything a settlement decides, from the bet's own rows alone. */
  datatype Terms = Terms(
    pot: int, fee: int, refereeFee: int, share: int, payA: int, payB: int,
    playerA: Id, playerB: Id, referee: Option<Id>, developer: Id)

  function TermsOf(s: State, bet: Id): Terms
    requires RowsKnown(s, bet)
  {
    var row := s.bets[bet];
    var owner := s.cat.developers[s.cat.games[row.game]];
    var assignment := AssignmentOf(s, bet);
    var pot := 2 * row.amount;
    var fee := PlatformFee(row.amount, row.feePercent);
    var refereeFee := RefereeFee(fee, assignment);
    Terms(pot, fee, refereeFee, DeveloperShare(fee, refereeFee, owner.revShare),
          PayoutA(pot - fee, row.outcome.value), PayoutB(pot - fee, row.outcome.value),
          row.playerA, row.playerB.value,
          if assignment.Some? then assignment.value.referee else None, owner.user)
  }

  predicate RowsKnown(s: State, bet: Id) {
    && Settles(s, bet)
    && s.bets[bet].game in s.cat.games && s.cat.games[s.bets[bet].game] in s.cat.developers
  }

  /** What a settlement adds to one account's balance. */
  function Due(terms: Terms, bet: Id, a: Account): int {
    match a
    case Escrow(b) => if b == bet then -terms.pot else 0
    case PlatformRevenue => terms.fee - terms.refereeFee - terms.share
    case PlayerBalance(u) =>
      (if terms.referee == Some(u) then terms.refereeFee else 0)
      + (if u == terms.playerA then terms.payA else 0)
      + (if u == terms.playerB then terms.payB else 0)
    case DeveloperBalance(u) => if u == terms.developer then terms.share else 0
    case _ => 0
  }

  predicate CutsUsable(s: State, bet: Id, terms: Terms) {
    && Usable(s, Escrow(bet), PlatformRevenue, terms.fee)
    && (terms.referee.Some? ==> Usable(s, PlatformRevenue, PlayerBalance(terms.referee.value), terms.refereeFee))
    && Usable(s, PlatformRevenue, DeveloperBalance(terms.developer), terms.share)
  }

  predicate CutsUnclaimed(s: State, bet: Id, terms: Terms) {
    && Unclaimed(s, terms.fee, BetKey(Fee, bet))
    && Unclaimed(s, terms.refereeFee, BetKey(RefereeReward, bet))
    && Unclaimed(s, terms.share, BetKey(DevShare, bet))
  }

  /** Every account that pays or is paid can. */
  predicate AccountsUsable(s: State, bet: Id)
    requires RowsKnown(s, bet)
  {
    var terms := TermsOf(s, bet);
    CutsUsable(s, bet, terms) && PayoutsUsable(s, bet, terms.playerA, terms.playerB, terms.payA, terms.payB)
  }

  /** No customer's deposit or withdrawal has the text of a key this settlement needs. */
  predicate KeysUnclaimed(s: State, bet: Id)
    requires RowsKnown(s, bet)
  {
    CutsUnclaimed(s, bet, TermsOf(s, bet)) && PayoutsUnclaimed(s, bet, s.bets[bet].outcome.value)
  }

  /** Someone is left something to be paid; on a draw both players are. */
  predicate PotSuffices(s: State, bet: Id)
    requires RowsKnown(s, bet)
  {
    LeavesEnough(TermsOf(s, bet).pot - TermsOf(s, bet).fee, s.bets[bet].outcome.value)
  }

  /** When the money can move. */
  predicate MoneyPayable(s: State, bet: Id)
    requires RowsKnown(s, bet)
  {
    PotSuffices(s, bet) && AccountsUsable(s, bet) && KeysUnclaimed(s, bet)
  }

  /** What an error says about the settlement that threw it. */
  predicate Explains(s: State, bet: Id, error: Error)
    requires RowsKnown(s, bet)
  {
    match error
    case NonPositiveAmount => !PotSuffices(s, bet)
    case FrozenAccount => !AccountsUsable(s, bet)
    case KeyConflict => !KeysUnclaimed(s, bet)
    case NoRefereeProfile => bet in s.assignments && s.assignments[bet].referee.None?
    case _ => false
  }

  /** When a settlement goes through: an assignment row must also have a referee. */
  predicate Payable(s: State, bet: Id)
    requires RowsKnown(s, bet)
  {
    MoneyPayable(s, bet) && (bet in s.assignments ==> s.assignments[bet].referee.Some?)
  }

  function SettledRow(s: State, bet: Id): Bet
    requires RowsKnown(s, bet)
  {
    s.bets[bet].(status := SETTLED, feeTaken := Some(TermsOf(s, bet).fee))
  }

  function SettledAssignments(s: State, bet: Id): map<Id, Assignment>
    requires RowsKnown(s, bet)
  {
    if bet in s.assignments
    then s.assignments[bet := s.assignments[bet].(status := ASG_COMPLETED, reward := Some(TermsOf(s, bet).refereeFee))]
    else s.assignments
  }

  /** The terms, each amount by its own percentage: fee of the pot, reward of the fee, share of the rest. */
  ghost predicate TermsFit(s: State, bet: Id)
    requires RowsKnown(s, bet)
  {
    var row, terms := s.bets[bet], TermsOf(s, bet);
    && terms.pot == 2 * row.amount && IsNearest(terms.fee, terms.pot, row.feePercent)
    && RewardFits(terms.fee, terms.refereeFee, AssignmentOf(s, bet))
    && DevShareFits(terms.fee, terms.refereeFee, terms.share, s.cat.developers[s.cat.games[row.game]].revShare)
    && terms.payA + terms.payB + terms.fee == terms.pot
    && match row.outcome.value
       case DRAW => terms.payB <= terms.payA <= terms.payB + 1
       case PLAYER_A_WIN => terms.payB == 0
       case PLAYER_B_WIN => terms.payA == 0
  }

  lemma TermsSplit(s: State, bet: Id)
    requires RowsSound(s) && RowsKnown(s, bet)
    ensures var terms := TermsOf(s, bet);
            && terms.pot == 2 * s.bets[bet].amount > 0
            && 0 <= terms.fee <= terms.pot && 0 <= terms.refereeFee && 0 <= terms.share
            && terms.refereeFee + terms.share <= terms.fee
            && 0 <= terms.payA && 0 <= terms.payB && terms.payA + terms.payB + terms.fee == terms.pot
            && (terms.refereeFee > 0 ==> terms.referee.Some? && terms.fee > 0)
            && (terms.share > 0 ==> terms.fee > 0)
    ensures TermsFit(s, bet)
  {
    hide IsNearest, KeySound, DisputeSound, PlatformFee, PayoutA, PayoutB;
    var row := s.bets[bet];
    assert RowSound(s, bet);
    assert bet in s.assignments ==> AssignmentSound(s, bet);
    FeeWaterfall(row.amount, row.feePercent, AssignmentOf(s, bet),
                 s.cat.developers[s.cat.games[row.game]].revShare, row.outcome.value);
  }

  /** What the platform takes and what the players are paid do not depend on the referee or the developer. */
  lemma PayoutsIgnoreShares(s: State, s': State, bet: Id)
    requires RowsKnown(s, bet) && RowsKnown(s', bet) && s.bets[bet] == s'.bets[bet]
    ensures var terms, terms' := TermsOf(s, bet), TermsOf(s', bet);
            terms.fee == terms'.fee && terms.payA == terms'.payA && terms.payB == terms'.payB
  {
  }

  /** The ledger side: every balance moves by what is due, and the escrow ends empty. */
  ghost predicate MoneyMoved(s: State, t: State, bet: Id, terms: Terms) {
    && (forall a :: Bal(t, a) == Bal(s, a) + Due(terms, bet, a))
    && (forall k :: k in t.txns ==> k in s.txns || (k.BetKey? && k.bet == bet && Admits(SETTLED, k.movement)))
    && (forall k :: k in s.txns ==> k in t.txns)
    && (forall c: Id :: c != bet ==> (Escrow(c) in t.balances <==> Escrow(c) in s.balances))
  }

  ghost predicate MoneySettled(s: State, t: State, bet: Id, terms: Terms) {
    OnlyLedger(s, t) && MoneyMoved(s, t, bet, terms) && Escrow(bet) in t.balances
  }

  lemma CutsExact(s: State, bet: Id)
    requires Sound(s) && RowsKnown(s, bet)
    ensures var terms := TermsOf(s, bet);
            var r := AfterCuts(s, bet, terms.fee, terms.refereeFee);
            && (r.Done? <==> CutsUsable(s, bet, terms) && CutsUnclaimed(s, bet, terms))
            && (r.Fail? ==> CutsExplain(s, bet, terms, r.error))
            && (r.Done? ==> CutsTaken(s, r.state, bet, terms))
  {
    hide Books, CountersAgree, RowsSound, Bal, TermsOf, AfterFee, AfterReward, AfterShare, ClientHas;
    var terms := TermsOf(s, bet);
    TermsSplit(s, bet);
    UnsettledEscrow(s, bet);
    ExitKeysFresh(s, bet);
    FeeStage(s, bet, terms.fee);
    if AfterFee(s, bet, terms.fee).Done? {
      var t := AfterFee(s, bet, terms.fee).state;
      RewardAndShare(s, t, bet, terms);
    }
  }

  predicate CutsExplain(s: State, bet: Id, terms: Terms, error: Error) {
    match error
    case FrozenAccount => !CutsUsable(s, bet, terms)
    case KeyConflict => !CutsUnclaimed(s, bet, terms)
    case _ => false
  }

  /** After the fee, the referee's and the developer's parts have come out of revenue. */
  ghost predicate CutsTaken(s: State, t: State, bet: Id, terms: Terms) {
    && OnlyLedger(s, t)
    && (forall a :: Bal(t, a) == Bal(s, a)
          + (if a == Escrow(bet) then -terms.fee else 0)
          + (if a == PlatformRevenue then terms.fee - terms.refereeFee - terms.share else 0)
          + (if terms.referee.Some? && a == PlayerBalance(terms.referee.value) then terms.refereeFee else 0)
          + (if a == DeveloperBalance(terms.developer) then terms.share else 0))
    && s.txns.Keys <= t.txns.Keys <= s.txns.Keys + {BetKey(Fee, bet), BetKey(RefereeReward, bet), BetKey(DevShare, bet)}
    && s.balances.Keys <= t.balances.Keys
    && (forall c: Id :: Escrow(c) in t.balances ==> Escrow(c) in s.balances || c == bet)
  }

  lemma UnsettledEscrow(s: State, bet: Id)
    requires RowsSound(s) && bet in s.bets && s.bets[bet].status.IsUnsettled()
    ensures Escrow(bet) in s.balances && Bal(s, Escrow(bet)) == 2 * s.bets[bet].amount && s.bets[bet].amount > 0
  {
    assert RowSound(s, bet);
  }

  lemma RewardAndShare(s: State, t: State, bet: Id, terms: Terms)
    requires RowsKnown(s, bet) && terms == TermsOf(s, bet) && Solvent(s)
    requires Paid(s, t, Escrow(bet), PlatformRevenue, terms.fee, BetKey(Fee, bet))
    requires BetKey(RefereeReward, bet) !in s.txns && BetKey(DevShare, bet) !in s.txns
    requires 0 <= terms.refereeFee && 0 <= terms.share && terms.refereeFee + terms.share <= terms.fee
    requires terms.refereeFee > 0 ==> terms.referee.Some?
    requires Usable(s, Escrow(bet), PlatformRevenue, terms.fee) && Unclaimed(s, terms.fee, BetKey(Fee, bet))
    ensures var r := (var u :- AfterReward(t, bet, terms.refereeFee); AfterShare(u, bet, terms.fee, terms.refereeFee));
            && (r.Done? <==> CutsUsable(s, bet, terms) && CutsUnclaimed(s, bet, terms))
            && (r.Fail? ==> CutsExplain(s, bet, terms, r.error))
            && (r.Done? ==> CutsTaken(s, r.state, bet, terms))
  {
    hide CutsTaken, ClientHas, Bal, AfterReward, AfterShare, PlatformFee, RefereeFee, DeveloperShare, PayoutA, PayoutB;
    var referee := if terms.referee.Some? then terms.referee.value else terms.playerA;
    SameClients(s, t);
    RewardStage(t, bet, referee, terms.refereeFee);
    var r := AfterReward(t, bet, terms.refereeFee);
    if r.Done? {
      var u := r.state;
      assert Bal(u, PlatformRevenue) == Bal(s, PlatformRevenue) + terms.fee - terms.refereeFee;
      ShareStage(u, bet, terms.fee, terms.refereeFee, s.cat.developers[s.cat.games[s.bets[bet].game]], terms.share);
      SameClients(s, u);
      var last := AfterShare(u, bet, terms.fee, terms.refereeFee);
      if last.Done? {
        CutsCompose(s, t, u, last.state, bet, referee, terms);
      }
    }
  }

  lemma CutsCompose(s: State, t: State, u: State, v: State, bet: Id, referee: Id, terms: Terms)
    requires Paid(s, t, Escrow(bet), PlatformRevenue, terms.fee, BetKey(Fee, bet))
    requires Paid(t, u, PlatformRevenue, PlayerBalance(referee), terms.refereeFee, BetKey(RefereeReward, bet))
    requires Paid(u, v, PlatformRevenue, DeveloperBalance(terms.developer), terms.share, BetKey(DevShare, bet))
    requires if terms.referee.Some? then terms.referee.value == referee else terms.refereeFee == 0
    ensures CutsTaken(s, v, bet, terms)
  {
    hide Bal;
    forall a: Account
      ensures Bal(v, a) == Bal(s, a)
          + (if a == Escrow(bet) then -terms.fee else 0)
          + (if a == PlatformRevenue then terms.fee - terms.refereeFee - terms.share else 0)
          + (if terms.referee.Some? && a == PlayerBalance(terms.referee.value) then terms.refereeFee else 0)
          + (if a == DeveloperBalance(terms.developer) then terms.share else 0)
    {
      assert Bal(v, a) == Bal(u, a) + Moved(a, PlatformRevenue, DeveloperBalance(terms.developer), terms.share);
    }
    CutKeysCompose(s, t, u, v, bet, referee, terms);
  }

  lemma CutKeysCompose(s: State, t: State, u: State, v: State, bet: Id, referee: Id, terms: Terms)
    requires Paid(s, t, Escrow(bet), PlatformRevenue, terms.fee, BetKey(Fee, bet))
    requires Paid(t, u, PlatformRevenue, PlayerBalance(referee), terms.refereeFee, BetKey(RefereeReward, bet))
    requires Paid(u, v, PlatformRevenue, DeveloperBalance(terms.developer), terms.share, BetKey(DevShare, bet))
    ensures OnlyLedger(s, v)
    ensures s.txns.Keys <= v.txns.Keys
    ensures v.txns.Keys <= s.txns.Keys + {BetKey(Fee, bet), BetKey(RefereeReward, bet), BetKey(DevShare, bet)}
    ensures s.balances.Keys <= v.balances.Keys
    ensures forall c: Id :: Escrow(c) in v.balances ==> Escrow(c) in s.balances || c == bet
  {
    hide Bal, Moved;
  }

  lemma MoneyExact(s: State, bet: Id)
    requires Sound(s) && RowsKnown(s, bet)
    ensures var terms := TermsOf(s, bet);
            var r := AfterMoney(s, bet, terms.fee, terms.refereeFee);
            && (r.Done? <==> MoneyPayable(s, bet))
            && (r.Fail? ==> r.error != NoRefereeProfile && Explains(s, bet, r.error))
            && (r.Done? ==> MoneySettled(s, r.state, bet, terms))
  {
    hide TermsFit, CutsUsable, CutsUnclaimed, PayoutsUsable, PayoutsUnclaimed, LeavesEnough, Books, CountersAgree,
      Solvent, RowsSound, Bal, AfterCuts, AfterPayouts, CutsTaken, PlatformFee, RefereeFee,
      DeveloperShare, PayoutA, PayoutB;
    var terms := TermsOf(s, bet);
    TermsSplit(s, bet);
    CutsExact(s, bet);
    var r := AfterCuts(s, bet, terms.fee, terms.refereeFee);
    if r.Done? {
      PayoutsExact(s, r.state, bet, terms);
    }
  }

  lemma PayoutsExact(s: State, t: State, bet: Id, terms: Terms)
    requires RowsSound(s) && RowsKnown(s, bet) && CutsTaken(s, t, bet, terms)
    requires terms.pot == 2 * s.bets[bet].amount && 0 <= terms.fee <= terms.pot
    requires terms.payA + terms.payB + terms.fee == terms.pot
    requires terms.playerA == s.bets[bet].playerA && terms.playerB == s.bets[bet].playerB.value
    requires var outcome := s.bets[bet].outcome.value;
             && terms.payA == PayoutA(terms.pot - terms.fee, outcome)
             && terms.payB == PayoutB(terms.pot - terms.fee, outcome)
    ensures var r := AfterPayouts(t, bet, terms.pot - terms.fee);
            && (r.Done? <==>
                  && LeavesEnough(terms.pot - terms.fee, s.bets[bet].outcome.value)
                  && PayoutsUsable(s, bet, terms.playerA, terms.playerB, terms.payA, terms.payB)
                  && PayoutsUnclaimed(s, bet, s.bets[bet].outcome.value))
            && (r.Fail? ==>
                  match r.error
                  case NonPositiveAmount => !LeavesEnough(terms.pot - terms.fee, s.bets[bet].outcome.value)
                  case FrozenAccount => !PayoutsUsable(s, bet, terms.playerA, terms.playerB, terms.payA, terms.payB)
                  case KeyConflict => !PayoutsUnclaimed(s, bet, s.bets[bet].outcome.value)
                  case _ => false)
            && (r.Done? ==> MoneySettled(s, r.state, bet, terms))
  {
    hide LeavesEnough, RowsSound, Bal, AfterPayouts, PayoutA, PayoutB, PaidOut, MoneySettled, CutsTaken;
    UnsettledEscrow(s, bet);
    CutsLeave(s, t, bet, terms);
    PayoutStage(t, bet, terms.pot - terms.fee);
    var r := AfterPayouts(t, bet, terms.pot - terms.fee);
    if r.Done? {
      MoneyComposes(s, t, r.state, bet, terms);
    }
  }

  /** The cuts leave the rows alone, the rest of the pot in escrow and the release keys unused. */
  lemma CutsLeave(s: State, t: State, bet: Id, terms: Terms)
    requires RowsSound(s) && RowsKnown(s, bet) && CutsTaken(s, t, bet, terms)
    requires terms.pot == 2 * s.bets[bet].amount
    ensures t.bets == s.bets && t.cat == s.cat && t.clientKeys == s.clientKeys && Escrow(bet) in t.balances
    ensures Bal(t, Escrow(bet)) == terms.pot - terms.fee
    ensures BetKey(Release, bet) !in t.txns && BetKey(ReleaseA, bet) !in t.txns && BetKey(ReleaseB, bet) !in t.txns
  {
    hide RowsSound, Bal;
    UnsettledEscrow(s, bet);
    ExitKeysFresh(s, bet);
  }

  lemma MoneyComposes(s: State, t: State, u: State, bet: Id, terms: Terms)
    requires CutsTaken(s, t, bet, terms) && Escrow(bet) in s.balances
    requires PaidOut(t, u, bet, terms.playerA, terms.playerB, terms.payA, terms.payB)
    requires terms.payA + terms.payB + terms.fee == terms.pot
    ensures MoneySettled(s, u, bet, terms)
  {
    hide Bal, Due;
    forall a: Account
      ensures Bal(u, a) == Bal(s, a) + Due(terms, bet, a)
    {
      DueComposes(s, t, u, bet, terms, a);
    }
    KeysCompose(s, t, u, bet, terms);
  }

  lemma KeysCompose(s: State, t: State, u: State, bet: Id, terms: Terms)
    requires CutsTaken(s, t, bet, terms) && PaidOut(t, u, bet, terms.playerA, terms.playerB, terms.payA, terms.payB)
    ensures forall k :: k in u.txns ==> k in s.txns || (k.BetKey? && k.bet == bet && Admits(SETTLED, k.movement))
    ensures forall k :: k in s.txns ==> k in u.txns
    ensures forall c: Id :: c != bet ==> (Escrow(c) in u.balances <==> Escrow(c) in s.balances)
    ensures s.balances.Keys <= u.balances.Keys
  {
    hide Bal;
  }

  lemma DueComposes(s: State, t: State, u: State, bet: Id, terms: Terms, a: Account)
    requires CutsTaken(s, t, bet, terms)
    requires PaidOut(t, u, bet, terms.playerA, terms.playerB, terms.payA, terms.payB)
    requires terms.payA + terms.payB + terms.fee == terms.pot
    ensures Bal(u, a) == Bal(s, a) + Due(terms, bet, a)
  {
    hide Bal;
    assert Bal(u, a) == Bal(t, a) + Moved(a, Escrow(bet), PlayerBalance(terms.playerA), terms.payA)
                                  + Moved(a, Escrow(bet), PlayerBalance(terms.playerB), terms.payB);
  }

  // ---- the whole settlement -----------------------------------------------

  ghost predicate Settled(s: State, t: State, bet: Id)
    requires RowsKnown(s, bet)
  {
    && t.cat == s.cat && t.disputes == s.disputes && t.clientKeys == s.clientKeys
    && t.bets == s.bets[bet := SettledRow(s, bet)]
    && t.assignments == SettledAssignments(s, bet)
    && Lowered(s, t, s.bets[bet], TermsOf(s, bet).pot)
    && MoneyMoved(s, t, bet, TermsOf(s, bet))
  }

  lemma RowsAreKnown(s: State, bet: Id)
    requires RowsSound(s) && Settles(s, bet)
    ensures RowsKnown(s, bet)
  {
    assert RowSound(s, bet);
  }

  /**
   In a sound database the mismatch error and the escrow-not-empty error cannot
   happen: a settlement goes through exactly when it is payable, and then does
   exactly what its terms say; when it throws, the error names what was wrong.
   */
  lemma SettlementExact(s: State, bet: Id)
    requires Sound(s) && Settles(s, bet)
    ensures RowsKnown(s, bet)
    ensures AfterSettlement(s, bet).Done? <==> Payable(s, bet)
    ensures AfterSettlement(s, bet).Fail? ==> Explains(s, bet, AfterSettlement(s, bet).error)
    ensures AfterSettlement(s, bet).Done? ==> Settled(s, AfterSettlement(s, bet).state, bet) && TermsFit(s, bet)
  {
    hide Books, CountersAgree, Solvent, RowsSound, Bal, AfterMoney, MoneyPayable, DeveloperShare, PayoutA, PayoutB,
      PlatformFee, RefereeFee, PotSuffices, AccountsUsable, KeysUnclaimed, TermsFit;
    RowsAreKnown(s, bet);
    UnsettledEscrow(s, bet);
    CounterCovers(s, bet);
    TermsSplit(s, bet);
    MoneyExact(s, bet);
    var terms := TermsOf(s, bet);
    var r := AfterMoney(s, bet, terms.fee, terms.refereeFee);
    if r.Done? {
      assert Bal(r.state, Escrow(bet)) == 0;
      CloseEffect(s, r.state, bet, terms);
    }
  }

  lemma CloseEffect(s: State, u: State, bet: Id, terms: Terms)
    requires RowsKnown(s, bet) && MoneySettled(s, u, bet, terms)
    requires terms == TermsOf(s, bet)
    requires LimitOf(s, s.bets[bet]).Some? ==>
               s.limits[LimitOf(s, s.bets[bet]).value].current >= terms.pot
    ensures var r := AfterClose(u, bet, terms.fee, terms.refereeFee);
            && (r.Done? <==> (bet in s.assignments ==> s.assignments[bet].referee.Some?))
            && (r.Fail? ==> r.error == NoRefereeProfile)
            && (r.Done? ==> Settled(s, r.state, bet))
  {
    hide Bal, MoneyMoved, TermsOf, LowerCounter, Lowered;
    var r := AfterClose(u, bet, terms.fee, terms.refereeFee);
    CloseWrites(s, u, bet, terms.fee, terms.refereeFee);
    if r.Done? {
      PotIsTwice(s, bet);
      MoneyMovedCarries(s, u, r.state, bet, terms);
      LowerCounterLowers(s, r.state, s.bets[bet], terms.pot);
    }
  }

  lemma PotIsTwice(s: State, bet: Id)
    requires RowsKnown(s, bet)
    ensures TermsOf(s, bet).pot == 2 * s.bets[bet].amount
  {
    hide PlatformFee, RefereeFee, DeveloperShare, PayoutA, PayoutB;
  }

  /** Closing rewrites the bet's two rows and one counter. */
  lemma CloseWrites(s: State, u: State, bet: Id, fee: int, refereeFee: int)
    requires bet in s.bets && OnlyLedger(s, u)
    ensures var r := AfterClose(u, bet, fee, refereeFee);
            && (r.Done? <==> (bet in s.assignments ==> s.assignments[bet].referee.Some?))
            && (r.Fail? ==> r.error == NoRefereeProfile)
            && (r.Done? ==>
                  && r.state.cat == s.cat && r.state.disputes == s.disputes && r.state.clientKeys == s.clientKeys
                  && r.state.balances == u.balances && r.state.txns == u.txns
                  && r.state.bets == s.bets[bet := s.bets[bet].(status := SETTLED, feeTaken := Some(fee))]
                  && r.state.assignments == (if bet in s.assignments
                       then s.assignments[bet := s.assignments[bet].(status := ASG_COMPLETED, reward := Some(refereeFee))]
                       else s.assignments)
                  && r.state.limits == LowerCounter(s, s.bets[bet], 2 * s.bets[bet].amount).limits)
  {
  }

  lemma MoneyMovedCarries(s: State, u: State, t: State, bet: Id, terms: Terms)
    requires MoneyMoved(s, u, bet, terms) && t.balances == u.balances && t.txns == u.txns
    ensures MoneyMoved(s, t, bet, terms)
  {
    hide Due;
    BalSame(u, t);
  }

  lemma LowerCounterLowers(s: State, t: State, row: Bet, amount: int)
    requires t.limits == LowerCounter(s, row, amount).limits && t.cat == s.cat
    requires LimitOf(s, row).Some? ==> s.limits[LimitOf(s, row).value].current >= amount
    ensures Lowered(s, t, row, amount)
  {
  }

  lemma SettlementKeepsSound(s: State, bet: Id)
    requires Sound(s) && Settles(s, bet) && AfterSettlement(s, bet).Done?
    ensures Sound(AfterSettlement(s, bet).state)
  {
    hide Books, CountersAgree, Solvent, RowsSound, Bal, AfterSettlement, Payable, Settled, TermsOf;
    SettlementExact(s, bet);
    var t := AfterSettlement(s, bet).state;
    SettledSound(s, t, bet);
  }

  lemma SettledSound(s: State, t: State, bet: Id)
    requires Sound(s) && RowsKnown(s, bet) && Settled(s, t, bet) && Books(t)
    ensures Sound(t)
  {
    hide Books, CountersAgree, RowsSound, Settled, MovesOneBet, Solvent, TermsOf, Bal;
    SettledSolvent(s, t, bet);
    SettledMoves(s, t, bet);
    SettledRows(s, t, bet);
    MovesOneBetKeepsSound(s, t, bet);
  }

  lemma SettledSolvent(s: State, t: State, bet: Id)
    requires RowsSound(s) && Solvent(s) && RowsKnown(s, bet) && Settled(s, t, bet)
    ensures Solvent(t)
  {
    hide RowsSound, Bal, TermsOf, Lowered, SettledRow, SettledAssignments;
    TermsSplit(s, bet);
    UnsettledEscrow(s, bet);
    PotIsTwice(s, bet);
    var terms := TermsOf(s, bet);
    forall a: Account | a != StripeSource
      ensures Bal(t, a) >= 0
    {
      assert Bal(t, a) == Bal(s, a) + Due(terms, bet, a);
    }
  }

  lemma SettledResult(s: State, bet: Id)
    requires RowsSound(s) && RowsKnown(s, bet)
    ensures ResultSound(SettledRow(s, bet))
  {
    assert RowSound(s, bet);
  }

  lemma SettledMoves(s: State, t: State, bet: Id)
    requires RowsSound(s) && RowsKnown(s, bet) && Settled(s, t, bet)
    ensures MovesOneBet(s, t, bet)
  {
    hide RowsSound, Bal, TermsOf, SettledAssignments, ResultSound;
    RowIsSound(s, bet);
    SettledResult(s, bet);
    PotIsTwice(s, bet);
    assert Bal(t, Escrow(bet)) == Bal(s, Escrow(bet)) + Due(TermsOf(s, bet), bet, Escrow(bet));
  }

  lemma SettledRows(s: State, t: State, bet: Id)
    requires RowsSound(s) && RowsKnown(s, bet) && Settled(s, t, bet)
    ensures forall d :: d in t.disputes ==> DisputeSound(t, d)
    ensures forall b :: b in t.assignments ==> AssignmentSound(t, b)
  {
    hide RowsSound, TermsOf, MoneyMoved, Lowered;
    RowsFollow(s, t, bet);
  }
}
