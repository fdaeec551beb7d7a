/** Withdrawals that are put back never overdraw the outbound payments account. */
module Payments {
  import opened Sums
  import opened Tables
  import opened IdempotencyKeys
  import opened Ledger
  import opened Lifecycle
  import opened Invariant
  import opened RowSteps

  /** Each reversal undoes one withdrawal, so the rest are what the account is left with. */
  lemma {:induction false} UnreversedRemains(parts: map<Key, int>, text: string)
    requires forall k :: k in parts ==> (k.ReversalKey? || parts[k] >= 0)
    requires forall r :: ReversalKey(r) in parts ==>
               CashOutKey(r) in parts && parts[CashOutKey(r)] + parts[ReversalKey(r)] == 0
    requires CashOutKey(text) in parts && ReversalKey(text) !in parts
    ensures MapSum(parts) >= parts[CashOutKey(text)]
    decreases |parts|
  {
    if r :| ReversalKey(r) in parts {
      var rest := parts - {ReversalKey(r)} - {CashOutKey(r)};
      MapSumPeel(parts, ReversalKey(r));
      MapSumPeel(parts - {ReversalKey(r)}, CashOutKey(r));
      UnreversedRemains(rest, text);
    } else {
      MapSumBounds(parts);
    }
  }

  /** What one transaction means for the outbound account. */
  ghost function SinkParts(s: State): map<Key, int> {
    map k | k in s.txns :: Moved(StripeSink, s.txns[k].from, s.txns[k].to, s.txns[k].amount)
  }

  lemma SinkCovers(s: State, text: string)
    requires Books(s) && Routed(s)
    requires CashOutKey(text) in s.txns && ReversalKey(text) !in s.txns
    requires s.txns[CashOutKey(text)].to == StripeSink
    ensures Bal(s, StripeSink) >= s.txns[CashOutKey(text)].amount
  {
    hide AccountSum, KeySum, TotalSum, MapSum;
    var parts := SinkParts(s);
    forall k | k in parts
      ensures k.ReversalKey? || parts[k] >= 0
      ensures k.ReversalKey? ==>
                CashOutKey(k.text) in parts && parts[CashOutKey(k.text)] + parts[k] == 0
    {
      assert RoutedTxn(s, k, s.txns[k]);
    }
    assert RoutedTxn(s, CashOutKey(text), s.txns[CashOutKey(text)]);
    UnreversedRemains(parts, text);
    assert Bal(s, StripeSink) == Net(s.txns, StripeSink);
  }

  lemma ReversalKeepsSound(s: State, user: Id, amount: int, text: string)
    requires Sound(s) && Routed(s) && AfterReversal(s, user, amount, text).Done?
    ensures Sound(AfterReversal(s, user, amount, text).state)
  {
    hide Sound, Routed, AfterTransfer;
    var key := ReversalKey(text);
    if key in s.txns {
      ReplayIsInert(s, StripeSink, PlayerBalance(user), amount, key);
    } else {
      SoundBooks(s);
      SinkCovers(s, text);
      PaymentKeepsSound(s, StripeSink, PlayerBalance(user), amount, key);
    }
  }

  lemma ReplayIsInert(s: State, from: Account, to: Account, amount: int, key: Key)
    requires key in s.txns && AfterTransfer(s, from, to, amount, key).Done?
    ensures AfterTransfer(s, from, to, amount, key).state == s
  {
  }

  lemma SoundBooks(s: State)
    requires Sound(s)
    ensures Books(s)
  {
  }

  /**
   A withdrawal made and not yet put back can be put back exactly when neither account is
   frozen, no customer has the reversal's text, and the withdrawal's own text leaves room
   for the nine letters put before it.
   */
  lemma ReversalExact(s: State, user: Id, amount: int, text: string)
    requires Sound(s) && Routed(s) && CashOutKey(text) in s.txns && ReversalKey(text) !in s.txns
    requires s.txns[CashOutKey(text)] == Txn(PlayerBalance(user), StripeSink, amount)
    ensures AfterReversal(s, user, amount, text).Done?
            <==> && StripeSink !in s.cat.frozen && PlayerBalance(user) !in s.cat.frozen
                 && !ClientHas(s, ReversalKey(text)) && |text| <= KEY_WIDTH - 9
  {
    hide Sound, Books, Text;
    ReversalText(text);
    assert RoutedTxn(s, CashOutKey(text), s.txns[CashOutKey(text)]);
  }

  lemma ReversalText(text: string)
    ensures Text(ReversalKey(text)) == "reversal_" + text && |Text(ReversalKey(text))| == |text| + 9
  {
    assert Text(ReversalKey(text)) == "reversal_" + text;
  }

  /** A deposit is credited once, in full and to its own player, exactly when nothing bars the two accounts or the key. */
  lemma DepositExact(s: State, user: Id, amount: int, reference: Id)
    requires DepositKey(reference) !in s.txns
    ensures var r := AfterDeposit(s, user, amount, reference);
            && (r.Done? <==>
                  && amount > 0 && StripeSource !in s.cat.frozen && PlayerBalance(user) !in s.cat.frozen
                  && !ClientHas(s, DepositKey(reference)))
            && (r.Done? ==>
                  && (forall a :: Bal(r.state, a) == Bal(s, a) + Moved(a, StripeSource, PlayerBalance(user), amount))
                  && AfterDeposit(r.state, user, amount, reference) == Done(r.state))
  {
    hide Books, ClientHas;
    if AfterDeposit(s, user, amount, reference).Done? {
      TransferEffect(s, StripeSource, PlayerBalance(user), amount, DepositKey(reference));
    }
  }

  /** A withdrawal takes exactly its amount from the player, who has it, and gives it to the outbound account alone. */
  lemma CashOutTakesExactly(s: State, user: Id, amount: int, text: string)
    requires CashOutKey(text) !in s.txns && AfterCashOut(s, user, amount, text).Done?
    ensures var t := AfterCashOut(s, user, amount, text).state;
            && 0 < amount <= Bal(s, PlayerBalance(user))
            && (forall a :: Bal(t, a) == Bal(s, a) + Moved(a, PlayerBalance(user), StripeSink, amount))
            && CashOutKey(text) in t.txns && t.txns[CashOutKey(text)] == Txn(PlayerBalance(user), StripeSink, amount)
            && (ReversalKey(text) in t.txns <==> ReversalKey(text) in s.txns)
  {
    hide Books, Text, IsTaken;
    var moved := AfterTransfer(s, PlayerBalance(user), StripeSink, amount, CashOutKey(text)).state;
    TransferEffect(s, PlayerBalance(user), StripeSink, amount, CashOutKey(text));
    SameBalances(moved, AfterCashOut(s, user, amount, text).state);
  }

  lemma SameBalances(s: State, t: State)
    requires t.balances == s.balances
    ensures forall a :: Bal(t, a) == Bal(s, a)
  {
  }

  /** A withdrawal that is put back leaves every balance what it was, whoever sent the request. */
  lemma PutBackRestores(s: State, user: Id, amount: int, text: string)
    requires CashOutKey(text) !in s.txns && ReversalKey(text) !in s.txns
    requires AfterCashOut(s, user, amount, text).Done?
    ensures var t := AfterCashOut(s, user, amount, text).state;
            var r := AfterReversal(t, user, amount, text);
            r.Done? ==>
              && (forall a :: Bal(r.state, a) == Bal(s, a))
              && AfterCashOut(r.state, user, amount, text).Fail?
              && AfterReversal(r.state, user, amount, text) == Done(r.state)
  {
    hide Books, Text, AfterCashOut, Bal;
    CashOutTakesExactly(s, user, amount, text);
    var t := AfterCashOut(s, user, amount, text).state;
    if AfterReversal(t, user, amount, text).Done? {
      TransferEffect(t, StripeSink, PlayerBalance(user), amount, ReversalKey(text));
      PutBackRefuses(AfterReversal(t, user, amount, text).state, user, amount, text);
    }
  }

  lemma PutBackRefuses(s: State, user: Id, amount: int, text: string)
    requires CashOutKey(text) in s.txns && ReversalKey(text) in s.txns
    ensures AfterCashOut(s, user, amount, text).Fail?
  {
    hide Text;
  }
}
