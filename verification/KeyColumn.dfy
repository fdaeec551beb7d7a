/** One unique column holds the keys of the code's movements and of customers' requests, and the first come has it. */
module KeyColumn {
  import opened Tables
  import opened IdempotencyKeys
  import opened Ledger
  import opened Fees
  import opened Escrows
  import opened Settlement
  import opened SettlementEffect
  import opened BetExpiry
  import opened Lifecycle
  import opened Invariant
  import opened Protocol
  import opened History
  import opened BetTerms
  import opened Runs
  import opened Scenario

  // ---- the column is unique -----------------------------------------------

  /** In every state no two transactions have the same text. */
  lemma OneRowPerText(s: State, k: Key, k': Key)
    requires Filed(s) && k in s.txns && k' in s.txns && k != k'
    ensures Text(k) != Text(k')
  {
    hide Prefix, Suffix;
    assert ClientHas(s, k) <==> k.CashOutKey?;
    assert ClientHas(s, k') <==> k'.CashOutKey?;
    if IsServers(k) && IsServers(k') {
      KeysNeverCollide(k, k');
    } else if !IsServers(k) && !IsServers(k') {
      CashOutText(k.text);
      CashOutText(k'.text);
    }
  }

  /** So for a movement not yet made, asking the customers' texts is asking the whole column. */
  lemma LookupIsExact(s: State, key: Key)
    requires Filed(s) && IsServers(key) && key !in s.txns
    ensures ClientHas(s, key) <==> IsTaken(s, Text(key))
  {
    hide Text;
    if k :| k in s.txns && Text(k) == Text(key) {
      assert ClientHas(s, k) <==> k.CashOutKey?;
      if IsServers(k) {
        KeysNeverCollide(k, key);
      }
    }
  }

  // ---- a text once taken --------------------------------------------------

  /** A movement whose text a customer has is never made, in any later run. */
  lemma ClaimedNeverMoves(s: State, steps: seq<Step>, from: Account, to: Account, amount: int, key: Key)
    requires Filed(s) && IsServers(key) && ClientHas(s, key)
    ensures var t := Run(s, steps);
            Filed(t) && ClientHas(t, key) && key !in t.txns && AfterTransfer(t, from, to, amount, key).Fail?
  {
    hide Run, Text, Books;
    RunKeepsFiled(s, steps);
    var t := Run(s, steps);
    assert key in t.txns ==> (ClientHas(t, key) <==> key.CashOutKey?);
  }

  /** So a bet is never settled while its fee's text is a customer's, and never expired while its refund's is. */
  lemma ClaimedBlocks(s: State, steps: seq<Step>, bet: Id, locked: bool)
    requires Filed(s) && bet in s.bets
    ensures PlatformFee(s.bets[bet].amount, s.bets[bet].feePercent) > 0 && ClientHas(s, BetKey(Fee, bet)) ==>
              !SettleAttempt(Run(s, steps), bet, locked).Committed?
    ensures ClientHas(s, BetKey(Release, bet))
            && (ClientHas(s, BetKey(ReleaseA, bet)) || ClientHas(s, BetKey(ReleaseB, bet))) ==>
              !SettleAttempt(Run(s, steps), bet, locked).Committed?
    ensures ClientHas(s, BetKey(ExpiryRefund, bet)) ==> !ExpireAttempt(Run(s, steps), bet, locked).Committed?
  {
    hide Run, ClientHas, Filed, PlatformFee, SettleAttempt, ExpireAttempt;
    RunGoesOn(s, steps, bet);
    RunKeepsFiled(s, steps);
    var t := Run(s, steps);
    TextsStay(s, t);
    FeeBlocks(t, bet, locked);
    ReleaseBlocks(t, bet, locked);
    RefundBlocks(t, bet, locked);
  }

  lemma TextsStay(s: State, t: State)
    requires s.clientKeys <= t.clientKeys
    ensures forall k :: ClientHas(s, k) ==> ClientHas(t, k)
  {
  }

  lemma ClaimedRefuses(s: State, from: Account, to: Account, amount: int, key: Key)
    requires Filed(s) && IsServers(key) && ClientHas(s, key)
    ensures key !in s.txns && AfterTransfer(s, from, to, amount, key).Fail?
  {
    ClaimedNeverMoves(s, [], from, to, amount, key);
  }

  lemma FeeBlocks(s: State, bet: Id, locked: bool)
    requires Filed(s) && bet in s.bets
    ensures PlatformFee(s.bets[bet].amount, s.bets[bet].feePercent) > 0 && ClientHas(s, BetKey(Fee, bet)) ==>
              !SettleAttempt(s, bet, locked).Committed?
  {
    hide Books, Filed, ClientHas, AfterTransfer, AfterPayouts, AfterReward, AfterShare, AfterClose, PlatformFee,
      RefereeFee;
    var fee := PlatformFee(s.bets[bet].amount, s.bets[bet].feePercent);
    if ClientHas(s, BetKey(Fee, bet)) {
      ClaimedRefuses(s, Escrow(bet), PlatformRevenue, fee, BetKey(Fee, bet));
    }
  }

  lemma RefundBlocks(s: State, bet: Id, locked: bool)
    requires Filed(s)
    ensures ClientHas(s, BetKey(ExpiryRefund, bet)) ==> !ExpireAttempt(s, bet, locked).Committed?
  {
    hide Books, Filed, ClientHas, AfterTransfer;
    if ClientHas(s, BetKey(ExpiryRefund, bet)) && bet in s.bets {
      ClaimedRefuses(s, Escrow(bet), PlayerBalance(s.bets[bet].playerA), s.bets[bet].amount,
                     BetKey(ExpiryRefund, bet));
    }
  }

  lemma ReleaseBlocks(s: State, bet: Id, locked: bool)
    requires Filed(s)
    ensures ClientHas(s, BetKey(Release, bet))
            && (ClientHas(s, BetKey(ReleaseA, bet)) || ClientHas(s, BetKey(ReleaseB, bet))) ==>
              !SettleAttempt(s, bet, locked).Committed?
  {
    hide Books, Filed, ClientHas, AfterPayouts, AfterCuts, AfterClose, PlatformFee, RefereeFee;
    if Settles(s, bet) && ClientHas(s, BetKey(Release, bet))
       && (ClientHas(s, BetKey(ReleaseA, bet)) || ClientHas(s, BetKey(ReleaseB, bet))) {
      var fee := PlatformFee(s.bets[bet].amount, s.bets[bet].feePercent);
      var r := AfterCuts(s, bet, fee, RefereeFee(fee, AssignmentOf(s, bet)));
      if r.Done? {
        CutsKeepFiled(s, bet, fee, RefereeFee(fee, AssignmentOf(s, bet)));
        SameClients(s, r.state);
        PayoutsBlocked(r.state, bet, 2 * s.bets[bet].amount - fee);
      }
    }
  }

  lemma CutsKeepFiled(s: State, bet: Id, fee: int, refereeFee: int)
    requires Filed(s) && bet in s.bets && AfterCuts(s, bet, fee, refereeFee).Done?
    ensures Filed(AfterCuts(s, bet, fee, refereeFee).state)
  {
    hide Books, AfterCuts, Filed;
    CutsAppend(s, bet, fee, refereeFee);
  }

  lemma ClaimedReleaseFails(s: State, bet: Id, winner: Id, amount: int, movement: Movement)
    requires Filed(s) && ClientHas(s, BetKey(movement, bet))
    ensures AfterRelease(s, bet, winner, amount, movement).Fail?
  {
    hide Books, Filed, ClientHas, AfterTransfer;
    ClaimedRefuses(s, Escrow(bet), PlayerBalance(winner), amount, BetKey(movement, bet));
  }

  lemma PayoutsBlocked(s: State, bet: Id, remaining: int)
    requires Filed(s) && Settles(s, bet) && ClientHas(s, BetKey(Release, bet))
    requires ClientHas(s, BetKey(ReleaseA, bet)) || ClientHas(s, BetKey(ReleaseB, bet))
    ensures AfterPayouts(s, bet, remaining).Fail?
  {
    hide Books, Filed, ClientHas, AfterRelease, Appends;
    var row := s.bets[bet];
    if row.outcome.value == DRAW {
      var r := AfterRelease(s, bet, row.playerA, PayoutA(remaining, DRAW), ReleaseA);
      if r.Fail? { return; }
      ReleaseKeepsFiled(s, bet, row.playerA, PayoutA(remaining, DRAW), ReleaseA);
      SameClients(s, r.state);
      if ClientHas(s, BetKey(ReleaseA, bet)) {
        ClaimedReleaseFails(s, bet, row.playerA, PayoutA(remaining, DRAW), ReleaseA);
      } else {
        ClaimedReleaseFails(r.state, bet, row.playerB.value, PayoutB(remaining, DRAW), ReleaseB);
      }
    } else {
      ClaimedReleaseFails(s, bet, row.playerA, remaining, Release);
      ClaimedReleaseFails(s, bet, row.playerB.value, remaining, Release);
    }
  }

  lemma ReleaseKeepsFiled(s: State, bet: Id, winner: Id, amount: int, movement: Movement)
    requires Filed(s) && (movement == Release || movement == ReleaseA || movement == ReleaseB)
    requires AfterRelease(s, bet, winner, amount, movement).Done?
    ensures Filed(AfterRelease(s, bet, winner, amount, movement).state)
  {
    hide Books, AfterRelease, Filed;
    ReleaseAppends(s, bet, winner, amount, movement);
  }

  // ---- where a customer's text comes from ---------------------------------

  /** The step is a request sent with this text, and it files a row under it. */
  predicate Brings(s: State, step: Step, text: string) {
    match step
    case RequestsDeposit(x) => x == text && AfterDepositRequest(s, x).Done?
    case CashesOut(user, amount, x) => x == text && AfterCashOut(s, user, amount, x).Done?
    case _ => false
  }

  predicate Brought(s: State, steps: seq<Step>, text: string) {
    exists i :: 0 <= i < |steps| && Brings(Run(s, steps[..i]), steps[i], text)
  }

  lemma StepBrings(s: State, step: Step, text: string)
    ensures text in Apply(s, step).clientKeys <==> text in s.clientKeys || Brings(s, step, text)
  {
    hide Apply;
    if IsRequest(step) {
      RequestBrings(s, step, text);
    } else {
      StepKeepsCatalogue(s, step);
    }
  }

  lemma RequestBrings(s: State, step: Step, text: string)
    requires IsRequest(step)
    ensures text in Apply(s, step).clientKeys <==> text in s.clientKeys || Brings(s, step, text)
  {
    hide Books, AfterTransfer, Text;
  }

  /** The customers' texts are exactly those their requests brought. */
  lemma {:induction false} TextsAreBrought(s: State, steps: seq<Step>, text: string)
    ensures text in Run(s, steps).clientKeys <==> text in s.clientKeys || Brought(s, steps, text)
  {
    hide Apply, Brings;
    if steps != [] {
      var n := |steps| - 1;
      TextsAreBrought(s, steps[..n], text);
      StepBrings(Run(s, steps[..n]), steps[n], text);
      assert forall i :: 0 <= i < n ==> steps[..n][..i] == steps[..i];
      if Brought(s, steps, text) {
        var i :| 0 <= i < |steps| && Brings(Run(s, steps[..i]), steps[i], text);
        assert i < n ==> Brings(Run(s, steps[..n][..i]), steps[..n][i], text);
      }
      if Brought(s, steps[..n], text) {
        var i :| 0 <= i < n && Brings(Run(s, steps[..n][..i]), steps[..n][i], text);
        assert Brings(Run(s, steps[..i]), steps[i], text);
      }
    }
  }

  // ---- exactly when a settlement meets a taken text -----------------------

  /** The keys a bet's settlement makes its movements under. */
  predicate Needs(s: State, bet: Id, movement: Movement)
    requires RowsKnown(s, bet)
  {
    var terms := TermsOf(s, bet);
    match movement
    case Fee => terms.fee > 0
    case RefereeReward => terms.refereeFee > 0
    case DevShare => terms.share > 0
    case Release => s.bets[bet].outcome.value != DRAW
    case ReleaseA => s.bets[bet].outcome.value == DRAW
    case ReleaseB => s.bets[bet].outcome.value == DRAW
    case _ => false
  }

  lemma UnclaimedIff(s: State, bet: Id)
    requires RowsKnown(s, bet)
    ensures KeysUnclaimed(s, bet) <==> forall m: Movement :: Needs(s, bet, m) ==> !ClientHas(s, BetKey(m, bet))
  {
    hide TermsOf, ClientHas;
  }

  /**
   After any run, a settlement that nothing else stops is refused for a taken key exactly
   when an earlier deposit or withdrawal request was sent with the text of a key it needs;
   otherwise it goes through.
   */
  lemma ConflictIff(s: State, steps: seq<Step>, bet: Id)
    requires Initial(s) && NeverReopens(s, steps) && RowsKnown(Run(s, steps), bet)
    requires PotSuffices(Run(s, steps), bet) && AccountsUsable(Run(s, steps), bet)
    ensures var t := Run(s, steps);
            var attempt := SettleAttempt(t, bet, true);
            if exists m: Movement :: Needs(t, bet, m) && Brought(s, steps, Text(BetKey(m, bet)))
            then attempt == Failed(KeyConflict) else attempt.Committed?
  {
    hide Run, NeverReopens, RowsKnown, PotSuffices, AccountsUsable, KeysUnclaimed, Needs, Brought, Text, SettleAttempt;
    var t := Run(s, steps);
    KnownRow(t, bet);
    EscrowFollowsPhase(s, steps, bet, true);
    SettlesOrFails(t, bet);
    UnclaimedIff(t, bet);
    forall m: Movement
      ensures ClientHas(t, BetKey(m, bet)) <==> Brought(s, steps, Text(BetKey(m, bet)))
    {
      TextsAreBrought(s, steps, Text(BetKey(m, bet)));
    }
  }

  lemma KnownRow(t: State, bet: Id)
    requires RowsKnown(t, bet)
    ensures bet in t.bets && Settles(t, bet)
  {
  }

  lemma SettlesOrFails(t: State, bet: Id)
    requires Settles(t, bet)
    ensures !SettleAttempt(t, bet, true).Skipped?
  {
    hide AfterSettlement;
  }

  // ---- such a state is reachable ------------------------------------------

  /** A decided bet at 5%, and a deposit request sent with the text of its fee's key. */
  function FeeTextTaken(): seq<Step> {
    Opening(500) + [RequestsDeposit(Text(BetKey(Fee, M)))]
  }

  lemma DecidedIsFree(t: State)
    requires Decided(t, 500)
    ensures !IsTaken(t, Text(BetKey(Fee, M)))
  {
    hide Text;
    forall k | k in t.txns
      ensures Text(k) != Text(BetKey(Fee, M))
    {
      KeysNeverCollide(k, BetKey(Fee, M));
    }
  }

  lemma FeeTextFits()
    ensures IsRequestText(Text(BetKey(Fee, M)))
  {
    assert Text(BetKey(Fee, M)) == "settle_m_fee";
  }

  lemma RequestGoes(t: State, text: string)
    requires !IsTaken(t, text)
    requires IsRequestText(text)
    ensures Apply(t, RequestsDeposit(text)) == t.(clientKeys := t.clientKeys + {text})
  {
    hide IsTaken;
  }

  lemma TakenFeeFails(t: State, u: State)
    requires Sound(u) && Decided(t, 500) && u == t.(clientKeys := t.clientKeys + {Text(BetKey(Fee, M))})
    requires u.cat == Empty().cat
    ensures SettleAttempt(u, M, true) == Failed(KeyConflict)
  {
    hide Sound, Books, AfterSettlement, Text, AfterMoney;
    SettlementExact(u, M);
    assert PlatformFee(100, 500) == 10;
    assert ClientHas(u, BetKey(Fee, M));
  }

  /** The bet is paid for, decided and due; its settlement is refused then and after any later run. */
  lemma TakenTextIsReachable(later: seq<Step>)
    ensures Initial(Empty()) && NeverReopens(Empty(), FeeTextTaken())
    ensures var t := Run(Empty(), FeeTextTaken());
            && Legal(t) && Settles(t, M) && SettleAttempt(t, M, true) == Failed(KeyConflict)
            && !SettleAttempt(Run(t, later), M, true).Committed?
  {
    hide Apply, Run, Legal, SettleAttempt, Opening, Decided, Settles, PlatformFee, Text, IsTaken, IsRequestText;
    var text := Text(BetKey(Fee, M));
    OpeningRuns(500);
    OpeningIsLegal(500, [RequestsDeposit(text)]);
    var s := Run(Empty(), Opening(500));
    DecidedIsFree(s);
    FeeTextFits();
    RequestGoes(s, text);
    RunExtends(Empty(), Opening(500), RequestsDeposit(text));
    var t := Run(Empty(), FeeTextTaken());
    LegalParts(t);
    RunKeepsCatalogue(Empty(), FeeTextTaken());
    TakenFeeFails(s, t);
    DecidedSettles(s, t);
    ClaimedBlocks(t, later, M, true);
  }

  lemma DecidedSettles(s: State, t: State)
    requires Decided(s, 500) && t.bets == s.bets
    ensures Settles(t, M) && PlatformFee(t.bets[M].amount, t.bets[M].feePercent) > 0
  {
    assert PlatformFee(100, 500) == 10;
  }
}
