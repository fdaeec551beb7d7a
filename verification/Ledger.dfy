/** The double-entry ledger: one primitive moves money, and nothing else writes a balance. */
module Ledger {
  import opened Sums
  import opened Tables
  import opened IdempotencyKeys

  /** Accounts standing for the outside world may be debited below zero. */
  predicate IsSystem(a: Account) {
    a.StripeSource? || a.StripeSink? || a.PlatformRevenue?
  }

  /** What moving `amount` does to one account's balance. */
  function Moved(a: Account, from: Account, to: Account, amount: int): int {
    (if a == to then amount else 0) - (if a == from then amount else 0)
  }

  /** One side of a posting: the balance moves and the entry records what it became. */
  function Entered(s: State, a: Account, key: Key, amount: int): State {
    var balance := Bal(s, a) + amount;
    s.(balances := s.balances[a := balance], entries := s.entries + [Entry(a, key, amount, balance)])
  }

  function Post(s: State, from: Account, to: Account, amount: int, key: Key): (t: State)
    requires from != to
    ensures forall a :: Bal(t, a) == Bal(s, a) + Moved(a, from, to, amount)
  {
    var moved := Entered(Entered(s, from, key, -amount), to, key, amount);
    moved.(txns := s.txns[key := Txn(from, to, amount)])
  }

  /** A transfer writes no table but the ledger's own. */
  predicate OnlyLedger(s: State, t: State) {
    && t.bets == s.bets && t.assignments == s.assignments && t.disputes == s.disputes
    && t.limits == s.limits && t.clientKeys == s.clientKeys && t.cat == s.cat
  }

  /** A deposit or withdrawal request came with this movement's text first, and its row has it. */
  predicate ClientHas(s: State, key: Key) {
    Text(key) in s.clientKeys
  }

  /** A withdrawal that was put back is marked as failed, and its key refuses whatever comes under it again. */
  predicate IsPutBack(s: State, key: Key) {
    key.CashOutKey? && ReversalKey(key.text) in s.txns
  }

  lemma SameClients(s: State, t: State)
    requires t.clientKeys == s.clientKeys
    ensures forall k :: ClientHas(t, k) <==> ClientHas(s, k)
  {
  }

  function AfterTransfer(s: State, from: Account, to: Account, amount: int, key: Key): (r: Result)
    ensures r.Done? ==> OnlyLedger(s, r.state)
    ensures r.Done? && Books(s) ==> Books(r.state)
    ensures r.Done? && key in s.txns ==> r.state == s
  {
    if amount <= 0 then Fail(NonPositiveAmount)
    else if from == to then Fail(SameAccount)
    else if key in s.txns then
      if s.txns[key] == Txn(from, to, amount) && !IsPutBack(s, key) then Done(s) else Fail(KeyConflict)
    else if ClientHas(s, key) then Fail(KeyConflict)
    else if from in s.cat.frozen || to in s.cat.frozen then Fail(FrozenAccount)
    else if !IsSystem(from) && Bal(s, from) < amount then Fail(InsufficientFunds)
    else
      PostKeepsBooks(s, from, to, amount, key);
      Done(Post(s, from, to, amount, key))
  }

  method Transfer(db: Database, from: Account, to: Account, amount: int, key: Key) returns (error: Option<Error>)
    modifies db
    ensures AfterTransfer(old(db.Now()), from, to, amount, key) == Returned(error, db.Now())
  {
    hide Books, OnlyLedger;
    if amount <= 0 {
      return Some(NonPositiveAmount);
    }
    if from == to {
      return Some(SameAccount);
    }
    if key in db.txns {
      var same := db.txns[key] == Txn(from, to, amount) && !IsPutBack(db.Now(), key);
      return if same then None else Some(KeyConflict);
    }
    if ClientHas(db.Now(), key) {
      return Some(KeyConflict);
    }
    if from in db.cat.frozen || to in db.cat.frozen {
      return Some(FrozenAccount);
    }
    var available := db.Balance(from);
    if !IsSystem(from) && available < amount {
      return Some(InsufficientFunds);
    }
    Enter(db, from, key, -amount);
    Enter(db, to, key, amount);
    db.txns := db.txns[key := Txn(from, to, amount)];
    return None;
  }

  method Enter(db: Database, a: Account, key: Key, amount: int)
    modifies db
    ensures db.Now() == Entered(old(db.Now()), a, key, amount)
  {
    var balance := db.Balance(a) + amount;
    db.balances := db.balances[a := balance];
    db.entries := db.entries + [Entry(a, key, amount, balance)];
  }

  // ---- what the nightly audit recomputes ----------------------------------

  function AccountSum(entries: seq<Entry>, a: Account): int {
    if entries == [] then 0
    else
      var last := entries[|entries| - 1];
      AccountSum(entries[..|entries| - 1], a) + if last.account == a then last.amount else 0
  }

  function KeySum(entries: seq<Entry>, k: Key): int {
    if entries == [] then 0
    else
      var last := entries[|entries| - 1];
      KeySum(entries[..|entries| - 1], k) + if last.key == k then last.amount else 0
  }

  function TotalSum(entries: seq<Entry>): int {
    if entries == [] then 0
    else TotalSum(entries[..|entries| - 1]) + entries[|entries| - 1].amount
  }

  /** Each entry's recorded balance is what its account's entries come to, up to and with itself. */
  predicate RunsOn(entries: seq<Entry>) {
    forall i :: 0 <= i < |entries| ==> entries[i].balanceAfter == AccountSum(entries[..i + 1], entries[i].account)
  }

  /** What a set of transactions adds up to for one account. */
  ghost function Net(txns: map<Key, Txn>, a: Account): int {
    MapSum(map k | k in txns :: Moved(a, txns[k].from, txns[k].to, txns[k].amount))
  }

  /**
   The books balance: per account, by entries and by transactions, per transaction and
   over the whole system, and every entry's running balance is right.
   */
  ghost predicate Balanced(balances: map<Account, int>, entries: seq<Entry>, txns: map<Key, Txn>) {
    && (forall a: Account :: BalanceIn(balances, a) == AccountSum(entries, a))
    && (forall a: Account :: BalanceIn(balances, a) == Net(txns, a))
    && (forall k: Key :: KeySum(entries, k) == 0)
    && TotalSum(entries) == 0
    && MapSum(balances) == 0
    && RunsOn(entries)
  }

  ghost predicate Books(s: State) {
    Balanced(s.balances, s.entries, s.txns)
  }

  lemma SumsAppend(entries: seq<Entry>, e: Entry)
    ensures forall a: Account :: AccountSum(entries + [e], a)
                                 == AccountSum(entries, a) + if e.account == a then e.amount else 0
    ensures forall k: Key :: KeySum(entries + [e], k)
                             == KeySum(entries, k) + if e.key == k then e.amount else 0
    ensures TotalSum(entries + [e]) == TotalSum(entries) + e.amount
  {
    assert (entries + [e])[..|entries|] == entries;
  }

  lemma PostKeepsBooks(s: State, from: Account, to: Account, amount: int, key: Key)
    requires from != to && key !in s.txns
    ensures Books(s) ==> Books(Post(s, from, to, amount, key))
  {
    hide AccountSum, KeySum, TotalSum, MapSum, BalanceIn, Net, RunsOn;
    EnteredSums(s, from, key, -amount);
    EnteredSums(Entered(s, from, key, -amount), to, key, amount);
    PostRunsOn(s, from, to, amount, key);
    NetGrows(s.txns, key, Txn(from, to, amount));
    if Books(s) {
      var t := Post(s, from, to, amount, key);
      assert forall a: Account :: Bal(t, a) == Net(t.txns, a);
      assert forall a: Account :: Bal(t, a) == AccountSum(t.entries, a);
    }
  }

  lemma NetGrows(txns: map<Key, Txn>, key: Key, txn: Txn)
    requires key !in txns
    ensures forall a: Account :: Net(txns[key := txn], a) == Net(txns, a) + Moved(a, txn.from, txn.to, txn.amount)
  {
    hide MapSum;
    forall a: Account
      ensures Net(txns[key := txn], a) == Net(txns, a) + Moved(a, txn.from, txn.to, txn.amount)
    {
      var before := map k | k in txns :: Moved(a, txns[k].from, txns[k].to, txns[k].amount);
      var more := txns[key := txn];
      assert (map k | k in more :: Moved(a, more[k].from, more[k].to, more[k].amount))
             == before[key := Moved(a, txn.from, txn.to, txn.amount)];
      MapSumUpdate(before, key, Moved(a, txn.from, txn.to, txn.amount));
    }
  }

  lemma PostRunsOn(s: State, from: Account, to: Account, amount: int, key: Key)
    requires from != to
    ensures RunsOn(s.entries) && (forall b: Account :: BalanceIn(s.balances, b) == AccountSum(s.entries, b)) ==>
              RunsOn(Post(s, from, to, amount, key).entries)
  {
    hide AccountSum, RunsOn;
    if RunsOn(s.entries) && forall b: Account :: BalanceIn(s.balances, b) == AccountSum(s.entries, b) {
      EnteredSums(s, from, key, -amount);
      EnteredRunsOn(s, from, key, -amount);
      EnteredRunsOn(Entered(s, from, key, -amount), to, key, amount);
    }
  }

  lemma EnteredRunsOn(s: State, a: Account, key: Key, amount: int)
    requires RunsOn(s.entries) && forall b: Account :: Bal(s, b) == AccountSum(s.entries, b)
    ensures RunsOn(Entered(s, a, key, amount).entries)
  {
    hide AccountSum;
    var t := Entered(s, a, key, amount);
    EnteredSums(s, a, key, amount);
    forall i | 0 <= i < |t.entries|
      ensures t.entries[i].balanceAfter == AccountSum(t.entries[..i + 1], t.entries[i].account)
    {
      if i < |s.entries| {
        assert t.entries[..i + 1] == s.entries[..i + 1];
      } else {
        assert t.entries[..i + 1] == t.entries;
      }
    }
  }

  lemma EnteredSums(s: State, a: Account, key: Key, amount: int)
    ensures var t := Entered(s, a, key, amount);
            && (forall b: Account :: AccountSum(t.entries, b) == AccountSum(s.entries, b) + if b == a then amount else 0)
            && (forall b: Account :: Bal(t, b) == Bal(s, b) + if b == a then amount else 0)
            && (forall k: Key :: KeySum(t.entries, k) == KeySum(s.entries, k) + if k == key then amount else 0)
            && TotalSum(t.entries) == TotalSum(s.entries) + amount
            && MapSum(t.balances) == MapSum(s.balances) + amount
  {
    hide AccountSum, KeySum, TotalSum, MapSum;
    SumsAppend(s.entries, Entry(a, key, amount, Bal(s, a) + amount));
    MapSumUpdate(s.balances, a, Bal(s, a) + amount);
  }
}
