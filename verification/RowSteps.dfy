/** Steps that move no money, and the steps that move it into or out of one escrow. */
module RowSteps {
  import opened Tables
  import opened Ledger
  import opened Invariant

  /** A bet may change phase without its money moving only along these lines. */
  predicate Relabels(old': Bet, new': Bet) {
    && new'.game == old'.game && new'.amount == old'.amount && new'.feePercent == old'.feePercent
    && new'.playerA == old'.playerA && new'.playerB == old'.playerB
    && Held(new') == Held(old') && ResultSound(new')
    && (new'.status.HadOpponent() ==> new'.playerB.Some?)
    && (forall m: Movement :: Admits(old'.status, m) ==> Admits(new'.status, m))
    && (old'.status == VOIDED ==> new'.status == VOIDED)
  }

  /** Rewriting rows without touching the ledger or the counters. */
  lemma RelabelKeepsSound(s: State, t: State, bet: Id)
    requires Sound(s) && bet in s.bets && bet in t.bets
    requires t == s.(bets := s.bets[bet := t.bets[bet]], assignments := t.assignments, disputes := t.disputes)
    requires Relabels(s.bets[bet], t.bets[bet])
    requires forall d :: d in s.disputes ==> d in t.disputes && t.disputes[d].bet == s.disputes[d].bet
    requires forall d :: d in t.disputes ==> DisputeSound(t, d)
    requires forall b :: b in t.assignments ==> AssignmentSound(t, b)
    ensures Sound(t)
  {
    hide Books, Solvent, CountersAgree, DisputeSound, AssignmentSound;
    assert RowSound(s, bet);
    forall k | k in t.txns
      ensures KeySound(t, k)
    {
      assert KeySound(s, k);
    }
    SameLedger(s, t);
    OnlyBetKeepsSound(s, t, bet);
  }

  lemma SameExposures(s: State, t: State)
    requires t.bets == s.bets && t.cat == s.cat
    requires forall d :: d in t.limits ==> d in s.limits && t.limits[d].current == s.limits[d].current
    ensures CountersAgree(s) ==> CountersAgree(t)
  {
    hide Exposure;
    forall d | d in t.limits
      ensures Exposure(t, d) == Exposure(s, d)
    {
      SameExposure(s, t, d);
    }
  }

  lemma SameExposure(s: State, t: State, developer: Id)
    requires t.bets == s.bets && t.cat == s.cat
    ensures Exposure(t, developer) == Exposure(s, developer)
  {
    var before := map b | b in s.bets :: HeldFor(s, developer, s.bets[b]);
    var after := map b | b in t.bets :: HeldFor(t, developer, t.bets[b]);
    assert after == before;
  }

  /** Payments touch no bet, so only the ledger's own conditions are at stake. */
  lemma PaymentKeepsSound(s: State, from: Account, to: Account, amount: int, key: Key)
    requires Sound(s) && !from.Escrow? && !to.Escrow?
    requires from == StripeSource || !IsSystem(from) || Bal(s, from) >= amount
    requires key.DepositKey? || key.CashOutKey? || key.ReversalKey?
    requires AfterTransfer(s, from, to, amount, key).Done?
    ensures Sound(AfterTransfer(s, from, to, amount, key).state)
  {
    hide Books, CountersAgree, AfterTransfer, RowsSound, Solvent;
    var t := AfterTransfer(s, from, to, amount, key).state;
    if key !in s.txns {
      TransferEffect(s, from, to, amount, key);
      PaymentRows(s, t, from, to, amount, key);
      SameExposures(s, t);
    }
  }

  lemma PaymentRows(s: State, t: State, from: Account, to: Account, amount: int, key: Key)
    requires RowsSound(s) && Solvent(s) && OnlyLedger(s, t)
    requires Moves(s, t, from, to, amount, key)
    requires !from.Escrow? && !to.Escrow? && (key.DepositKey? || key.CashOutKey? || key.ReversalKey?)
    requires from == StripeSource || !IsSystem(from) || Bal(s, from) >= amount
    ensures RowsSound(t) && Solvent(t)
  {
    hide Bal, KeySound, DisputeSound, AssignmentSound;
    PaymentKeys(s, t, from, to, amount, key);
    forall b | b in t.bets
      ensures RowSound(t, b)
    {
      assert RowSound(s, b);
    }
    forall b | Escrow(b) in t.balances
      ensures b in t.bets
    {
      assert Escrow(b) in s.balances;
    }
  }

  lemma PaymentKeys(s: State, t: State, from: Account, to: Account, amount: int, key: Key)
    requires RowsSound(s) && OnlyLedger(s, t)
    requires Moves(s, t, from, to, amount, key) && (key.DepositKey? || key.CashOutKey? || key.ReversalKey?)
    ensures forall k :: k in t.txns ==> KeySound(t, k)
    ensures forall d :: d in t.disputes ==> DisputeSound(t, d)
    ensures forall b :: b in t.assignments ==> AssignmentSound(t, b)
  {
    hide Bal, RowSound, Moved;
    forall k | k in t.txns
      ensures KeySound(t, k)
    {
      assert k in s.txns ==> KeySound(s, k);
    }
    forall d | d in t.disputes
      ensures DisputeSound(t, d)
    {
      assert DisputeSound(s, d);
    }
    forall b | b in t.assignments
      ensures AssignmentSound(t, b)
    {
      assert AssignmentSound(s, b);
    }
  }
}
