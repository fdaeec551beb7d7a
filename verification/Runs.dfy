/** The protocol's guarantees over whole runs, in any interleaving. */
module Runs {
  import opened Sums
  import opened Tables
  import opened Ledger
  import opened Settlement
  import opened Invariant
  import opened SettlementEffect
  import opened Protocol
  import opened Safety
  import opened Staffing
  import opened History

  /** An empty database: nothing has moved and no counter has been raised. */
  ghost predicate Initial(s: State) {
    && s.balances == map[] && s.txns == map[] && s.entries == []
    && s.bets == map[] && s.assignments == map[] && s.disputes == map[] && s.clientKeys == {}
    && (forall d :: d in s.limits ==> s.limits[d].current == 0)
    && CatalogueSound(s.cat)
  }

  predicate NeverReopens(s: State, steps: seq<Step>) {
    forall i :: 0 <= i < |steps| ==> !Reopens(Run(s, steps[..i]), steps[i])
  }

  /**
   Sound, every transaction where its key says, a referee behind every refereed result,
   and the customers' texts apart from the code's own.
   */
  ghost predicate Legal(s: State) {
    Sound(s) && Routed(s) && Staffed(s) && Filed(s)
  }

  lemma InitialIsLegal(s: State)
    requires Initial(s)
    ensures Legal(s)
  {
    hide CatalogueSound;
    forall d | d in s.limits
      ensures Exposure(s, d) == 0
    {
      assert (map b | b in s.bets :: HeldFor(s, d, s.bets[b])) == map[];
    }
    forall a: Account
      ensures Net(s.txns, a) == 0
    {
      NothingNets(s.txns, a);
    }
  }

  lemma NothingNets(txns: map<Key, Txn>, a: Account)
    requires |txns| == 0
    ensures Net(txns, a) == 0
  {
    hide Moved;
  }

  lemma LegalParts(s: State)
    requires Legal(s)
    ensures Sound(s) && RowsSound(s) && Routed(s) && Staffed(s) && Filed(s)
  {
  }

  /** Every step, with no proviso: old transactions keep their accounts and new ones get their own. */
  lemma StepKeepsRouted(s: State, step: Step)
    requires Routed(s)
    ensures Routed(Apply(s, step))
  {
    hide Apply, RoutedTxn, Target;
    var t := Apply(s, step);
    StepAppends(s, step, if Target(s, step).Some? then Target(s, step).value else Id(""));
    forall k | k in t.txns
      ensures RoutedTxn(t, k, t.txns[k])
    {
      if k in s.txns {
        RoutesCarry(s, t, k, s.txns[k]);
      }
    }
  }

  /** Every step: a text is a customer's or the code's own, never both, and a customer's for good. */
  lemma StepKeepsFiled(s: State, step: Step)
    ensures Filed(s) ==> Filed(Apply(s, step))
    ensures s.clientKeys <= Apply(s, step).clientKeys
  {
    hide Apply, RoutedTxn, Target, Filed;
    StepAppends(s, step, if Target(s, step).Some? then Target(s, step).value else Id(""));
  }

  lemma StepKeepsLegal(s: State, step: Step)
    requires Legal(s) && !Reopens(s, step)
    ensures Legal(Apply(s, step))
  {
    hide Apply, Sound, RowsSound, Routed, Staffed, Filed, Reopens;
    SoundParts(s);
    StepKeepsSound(s, step);
    StepKeepsRouted(s, step);
    StepKeepsFiled(s, step);
    StepStaffs(s, step);
  }

  /** What each run keeps, in any interleaving of everything that can happen. */
  lemma {:induction false} RunKeepsLegal(s: State, steps: seq<Step>)
    requires Legal(s) && NeverReopens(s, steps)
    ensures Legal(Run(s, steps))
  {
    hide Legal, Apply, Reopens;
    if steps != [] {
      var n := |steps| - 1;
      PrefixNeverReopens(s, steps, n);
      RunKeepsLegal(s, steps[..n]);
      StepKeepsLegal(Run(s, steps[..n]), steps[n]);
    }
  }

  /** Whatever runs, reopening rulings included. */
  lemma {:induction false} RunKeepsFiled(s: State, steps: seq<Step>)
    ensures Filed(s) ==> Filed(Run(s, steps))
    ensures s.clientKeys <= Run(s, steps).clientKeys
  {
    hide Filed, Apply;
    if steps != [] {
      var n := |steps| - 1;
      RunKeepsFiled(s, steps[..n]);
      StepKeepsFiled(Run(s, steps[..n]), steps[n]);
    }
  }

  lemma PrefixNeverReopens(s: State, steps: seq<Step>, n: nat)
    requires n <= |steps| && NeverReopens(s, steps)
    ensures NeverReopens(s, steps[..n])
  {
    hide Reopens, Run;
    forall i | 0 <= i < n
      ensures !Reopens(Run(s, steps[..n][..i]), steps[..n][i])
    {
      assert steps[..n][..i] == steps[..i];
    }
  }

  lemma {:induction false} RunConcat(s: State, first: seq<Step>, rest: seq<Step>)
    ensures Run(s, first + rest) == Run(Run(s, first), rest)
  {
    hide Apply;
    if rest == [] {
      assert first + rest == first;
    } else {
      var n := |rest| - 1;
      RunConcat(s, first, rest[..n]);
      assert (first + rest)[..|first| + n] == first + rest[..n];
    }
  }

  /**
   A bet's escrow holds nothing before consent and after it has left, one stake while
   it waits for an opponent, and two from then on. So a settlement is never refused
   because the escrow does not match, nor rolled back because it did not empty, nor
   stopped by a referee who is not there: what can stop it is a payout of nothing, a
   frozen account or a key whose text a customer has, and the error says which.
   */
  lemma EscrowFollowsPhase(s: State, steps: seq<Step>, bet: Id, locked: bool)
    requires Initial(s) && NeverReopens(s, steps) && bet in Run(s, steps).bets
    ensures var t := Run(s, steps);
            && Bal(t, Escrow(bet)) == Held(t.bets[bet])
            && var attempt := SettleAttempt(t, bet, locked);
               && (attempt.Committed? <==> locked && RowsKnown(t, bet) && MoneyPayable(t, bet))
               && (attempt.Failed? ==>
                     && attempt.error in {NonPositiveAmount, FrozenAccount, KeyConflict}
                     && RowsKnown(t, bet) && Explains(t, bet, attempt.error))
  {
    hide MoneyPayable, PotSuffices, AccountsUsable, KeysUnclaimed, Filed, Sound, RowsSound,
      Routed, Run, NeverReopens, AfterSettlement;
    InitialIsLegal(s);
    RunKeepsLegal(s, steps);
    var t := Run(s, steps);
    SoundParts(t);
    EscrowIsHeld(t, bet);
    if Settles(t, bet) {
      SettlementExact(t, bet);
    }
  }

  lemma EscrowIsHeld(t: State, bet: Id)
    requires RowsSound(t) && bet in t.bets
    ensures Bal(t, Escrow(bet)) == Held(t.bets[bet])
  {
    assert RowSound(t, bet);
  }

  /** Money is neither made nor lost, and only the inbound payments account can be overdrawn. */
  lemma MoneyIsConserved(s: State, steps: seq<Step>)
    requires Initial(s) && NeverReopens(s, steps)
    ensures var t := Run(s, steps);
            && MapSum(t.balances) == 0
            && (forall a: Account :: Bal(t, a) == AccountSum(t.entries, a))
            && (forall k: Key :: KeySum(t.entries, k) == 0) && RunsOn(t.entries)
            && (forall a: Account :: a != StripeSource ==> Bal(t, a) >= 0)
  {
    hide Run, NeverReopens, RowsSound, CountersAgree, Routed, Staffed, Filed;
    InitialIsLegal(s);
    RunKeepsLegal(s, steps);
  }

  // ---- leaving once -------------------------------------------------------

  lemma {:induction false} RunAppends(s: State, steps: seq<Step>)
    ensures s.entries <= Run(s, steps).entries
    ensures forall k :: k in s.txns ==> k in Run(s, steps).txns && Run(s, steps).txns[k] == s.txns[k]
  {
    hide Apply, Target;
    if steps != [] {
      var n := |steps| - 1;
      RunAppends(s, steps[..n]);
      var t := Run(s, steps[..n]);
      AnyStepAppends(t, steps[n]);
    }
  }

  lemma AnyStepAppends(s: State, step: Step)
    ensures s.entries <= Apply(s, step).entries
    ensures forall k :: k in s.txns ==> k in Apply(s, step).txns && Apply(s, step).txns[k] == s.txns[k]
  {
    hide Apply;
    StepAppends(s, step, if Target(s, step).Some? then Target(s, step).value else Id(""));
  }

  /**
   Whatever runs in between, repeating a movement whose key has been used changes
   nothing, and reusing its key for a different movement is refused; so is repeating a
   withdrawal that was put back.
   */
  lemma ReplayMovesNothing(s: State, steps: seq<Step>, from: Account, to: Account, amount: int, key: Key)
    requires key in s.txns && amount > 0 && from != to
    ensures var t := Run(s, steps);
            AfterTransfer(t, from, to, amount, key)
            == if s.txns[key] == Txn(from, to, amount) && !IsPutBack(t, key) then Done(t) else Fail(KeyConflict)
  {
    hide Run;
    RunAppends(s, steps);
  }

  /** SETTLED, CANCELLED and VOIDED are final: the row is frozen and the escrow is never posted to again. */
  lemma {:induction false} LeavesOnce(s: State, steps: seq<Step>, bet: Id)
    requires NeverReopens(s, steps) && bet in s.bets && s.bets[bet].status.IsTerminal()
    ensures var t := Run(s, steps);
            && bet in t.bets && t.bets[bet] == s.bets[bet] && s.entries <= t.entries
            && forall i :: |s.entries| <= i < |t.entries| ==> t.entries[i].account != Escrow(bet)
  {
    hide Apply, Reopens, Target;
    if steps != [] {
      var n := |steps| - 1;
      PrefixNeverReopens(s, steps, n);
      LeavesOnce(s, steps[..n], bet);
      FinishedStays(Run(s, steps[..n]), steps[n], bet);
    }
  }

  lemma FinishedStays(s: State, step: Step, bet: Id)
    requires !Reopens(s, step) && bet in s.bets && s.bets[bet].status.IsTerminal()
    ensures var t := Apply(s, step);
            && bet in t.bets && t.bets[bet] == s.bets[bet] && s.entries <= t.entries
            && forall i :: |s.entries| <= i < |t.entries| ==> t.entries[i].account != Escrow(bet)
  {
    hide Apply, Reopens;
    if Target(s, step) == Some(bet) {
      TargetStays(s, step, bet);
    } else {
      OthersStay(s, step, bet);
      StepAppends(s, step, if Target(s, step).Some? then Target(s, step).value else Elsewhere(bet));
    }
  }

  function Credits(entries: seq<Entry>, a: Account): int {
    if entries == [] then 0
    else
      var last := entries[|entries| - 1];
      Credits(entries[..|entries| - 1], a) + if last.account == a && last.amount > 0 then last.amount else 0
  }

  function Debits(entries: seq<Entry>, a: Account): int {
    if entries == [] then 0
    else
      var last := entries[|entries| - 1];
      Debits(entries[..|entries| - 1], a) + if last.account == a && last.amount < 0 then -last.amount else 0
  }

  lemma {:induction false} CreditsLessDebits(entries: seq<Entry>, a: Account)
    ensures Credits(entries, a) - Debits(entries, a) == AccountSum(entries, a)
  {
    if entries != [] {
      CreditsLessDebits(entries[..|entries| - 1], a);
    }
  }

  datatype Way = Payout | OneRefund | TwoRefunds

  /** The way out a movement belongs to; holds are on the way in. */
  function WayOf(movement: Movement): Option<Way> {
    match movement
    case HoldA => None
    case HoldB => None
    case ExpiryRefund => Some(OneRefund)
    case Fee => Some(Payout)
    case RefereeReward => Some(Payout)
    case DevShare => Some(Payout)
    case Release => Some(Payout)
    case ReleaseA => Some(Payout)
    case ReleaseB => Some(Payout)
    case _ => Some(TwoRefunds)
  }

  function StatusOf(way: Way): BetStatus {
    match way
    case Payout => SETTLED
    case OneRefund => CANCELLED
    case TwoRefunds => VOIDED
  }

  /** A key of this bet's, or of one of its disputes, under the one way out its status names. */
  predicate IsWayOut(t: State, k: Key, bet: Id) {
    && bet in t.bets
    && var status := t.bets[bet].status;
       || (k.BetKey? && k.bet == bet && WayOf(k.movement).Some? && status == StatusOf(WayOf(k.movement).value))
       || (k.ResolveKey? && k.dispute in t.disputes && t.disputes[k.dispute].bet == bet && status == VOIDED)
  }

  /**
   Every movement out of a bet's escrow, whatever its key, is filed under the one way the
   bet left, every movement in is one of its two holds, and a bet that has left paid out
   exactly what was paid in.
   */
  lemma OneWayOut(s: State, steps: seq<Step>, bet: Id)
    requires Initial(s) && NeverReopens(s, steps) && bet in Run(s, steps).bets
    ensures var t := Run(s, steps);
            && (forall k :: k in t.txns && t.txns[k].from == Escrow(bet) ==> IsWayOut(t, k, bet))
            && (forall k :: k in t.txns && t.txns[k].to == Escrow(bet) ==>
                  k == BetKey(HoldA, bet) || k == BetKey(HoldB, bet))
            && (t.bets[bet].status.IsTerminal() ==> Debits(t.entries, Escrow(bet)) == Credits(t.entries, Escrow(bet)))
  {
    hide Run, NeverReopens, RowsSound, RowSound, CountersAgree, Solvent, Staffed, Filed;
    InitialIsLegal(s);
    RunKeepsLegal(s, steps);
    var t := Run(s, steps);
    SoundParts(t);
    EscrowIsHeld(t, bet);
    CreditsLessDebits(t.entries, Escrow(bet));
    forall k | k in t.txns
      ensures t.txns[k].from == Escrow(bet) ==> IsWayOut(t, k, bet)
      ensures t.txns[k].to == Escrow(bet) ==> k == BetKey(HoldA, bet) || k == BetKey(HoldB, bet)
    {
      EscrowKeys(t, k, bet);
    }
  }

  lemma EscrowKeys(t: State, k: Key, bet: Id)
    requires RowsSound(t) && Routed(t) && bet in t.bets && k in t.txns
    ensures t.txns[k].from == Escrow(bet) ==> IsWayOut(t, k, bet)
    ensures t.txns[k].to == Escrow(bet) ==> k == BetKey(HoldA, bet) || k == BetKey(HoldB, bet)
  {
    hide RowSound, DisputeSound, AssignmentSound;
    assert KeySound(t, k) && RoutedTxn(t, k, t.txns[k]);
  }
}
