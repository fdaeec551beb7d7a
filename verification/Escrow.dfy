/** Holding, releasing and refunding a bet's escrow, and paying shares out of the fee. */
module Escrows {
  import opened Tables
  import opened Ledger

  function Max(a: int, b: int): int {
    if a < b then b else a
  }

  /** The escrow limit row of the developer whose game a bet is on, if there is one. */
  function LimitOf(s: State, bet: Bet): Option<Id> {
    var developer := DeveloperOf(s, bet.game);
    if developer.Some? && developer.value in s.limits then developer else None
  }

  /** Escrow operations write the ledger and one escrow counter, never the rows around them. */
  predicate OnlyMoney(s: State, t: State) {
    && t.bets == s.bets && t.assignments == s.assignments && t.disputes == s.disputes
    && t.clientKeys == s.clientKeys && t.cat == s.cat && t.limits.Keys == s.limits.Keys
  }

  function LowerCounter(s: State, bet: Bet, amount: int): State {
    var id := LimitOf(s, bet);
    if id.None? then s
    else
      var row := s.limits[id.value];
      s.(limits := s.limits[id.value := row.(current := Max(row.current - amount, 0))])
  }

  /** An account row appears with its first posting; until then its balance reads as zero. */
  function AfterHold(s: State, bet: Id, player: Id, amount: int, movement: Movement): (r: Result)
    ensures r.Done? ==> OnlyMoney(s, r.state)
    ensures r.Done? && Books(s) ==> Books(r.state)
  {
    if amount <= 0 then Fail(NonPositiveAmount)
    else if bet !in s.bets || s.bets[bet].game !in s.cat.games then Fail(NotFound)
    else if !s.bets[bet].status.CanHold() then Fail(WrongStatus)
    else
      var key := BetKey(movement, bet);
      var t :- AfterTransfer(s, PlayerBalance(player), Escrow(bet), amount, key);
      var id := LimitOf(t, t.bets[bet]);
      if key in s.txns || id.None? then Done(t)
      else
        var row := t.limits[id.value];
        if row.current + amount <= row.maxTotal && amount <= row.maxSingle
        then Done(t.(limits := t.limits[id.value := row.(current := row.current + amount)]))
        else Fail(CapExceeded)
  }

  function AfterCollectFee(s: State, bet: Id, amount: int): (r: Result)
    ensures r.Done? ==> OnlyLedger(s, r.state)
    ensures r.Done? && Books(s) ==> Books(r.state)
  {
    var key := BetKey(Fee, bet);
    if amount <= 0 then Fail(NonPositiveAmount)
    else if bet !in s.bets then Fail(NotFound)
    else if !s.bets[bet].status.CanRelease() then Fail(WrongStatus)
    else if key in s.txns then (if s.txns[key].amount == amount then Done(s) else Fail(KeyConflict))
    else if Escrow(bet) !in s.balances then Fail(NoEscrowAccount)
    else if Bal(s, Escrow(bet)) < amount then Fail(EscrowShort)
    else AfterTransfer(s, Escrow(bet), PlatformRevenue, amount, key)
  }

  function AfterRefereeFee(s: State, bet: Id, referee: Id, amount: int): (r: Result)
    ensures r.Done? ==> OnlyLedger(s, r.state)
    ensures r.Done? && Books(s) ==> Books(r.state)
  {
    AfterTransfer(s, PlatformRevenue, PlayerBalance(referee), amount, BetKey(RefereeReward, bet))
  }

  function AfterDevShare(s: State, bet: Id, developer: Id, amount: int): (r: Result)
    ensures r.Done? ==> OnlyLedger(s, r.state)
    ensures r.Done? && Books(s) ==> Books(r.state)
  {
    if amount <= 0 then Fail(NonPositiveAmount)
    else if Bal(s, PlatformRevenue) < amount then Fail(RevenueShort)
    else AfterTransfer(s, PlatformRevenue, DeveloperBalance(developer), amount, BetKey(DevShare, bet))
  }

  function AfterRelease(s: State, bet: Id, winner: Id, amount: int, movement: Movement): (r: Result)
    ensures r.Done? ==> OnlyLedger(s, r.state)
    ensures r.Done? && Books(s) ==> Books(r.state)
  {
    if amount <= 0 then Fail(NonPositiveAmount)
    else if bet !in s.bets then Fail(NotFound)
    else if !s.bets[bet].status.CanRelease() then Fail(WrongStatus)
    else if Escrow(bet) !in s.balances then Fail(NoEscrowAccount)
    else if Bal(s, Escrow(bet)) < amount then Fail(EscrowShort)
    else AfterTransfer(s, Escrow(bet), PlayerBalance(winner), amount, BetKey(movement, bet))
  }

  function AfterRefund(s: State, bet: Id, player: Id, amount: int, key: Key): (r: Result)
    ensures r.Done? ==> OnlyMoney(s, r.state)
    ensures r.Done? && Books(s) ==> Books(r.state)
  {
    if amount <= 0 then Fail(NonPositiveAmount)
    else if bet !in s.bets then Fail(NotFound)
    else if !s.bets[bet].status.CanRefund() then Fail(WrongStatus)
    else if Escrow(bet) !in s.balances then Fail(NoEscrowAccount)
    else if Bal(s, Escrow(bet)) < amount then Fail(EscrowShort)
    else
      var t :- AfterTransfer(s, Escrow(bet), PlayerBalance(player), amount, key);
      Done(if key in s.txns then t else LowerCounter(t, t.bets[bet], amount))
  }

  // ---- the same operations on the mutable tables --------------------------

  method CollectFee(db: Database, bet: Id, amount: int) returns (error: Option<Error>)
    modifies db
    ensures AfterCollectFee(old(db.Now()), bet, amount) == Returned(error, db.Now())
  {
    if amount <= 0 { return Some(NonPositiveAmount); }
    if bet !in db.bets { return Some(NotFound); }
    if !db.bets[bet].status.CanRelease() { return Some(WrongStatus); }
    var key := BetKey(Fee, bet);
    if key in db.txns {
      return if db.txns[key].amount == amount then None else Some(KeyConflict);
    }
    if Escrow(bet) !in db.balances { return Some(NoEscrowAccount); }
    if db.balances[Escrow(bet)] < amount { return Some(EscrowShort); }
    error := Transfer(db, Escrow(bet), PlatformRevenue, amount, key);
  }

  method DistributeRefereeFee(db: Database, bet: Id, referee: Id, amount: int) returns (error: Option<Error>)
    modifies db
    ensures AfterRefereeFee(old(db.Now()), bet, referee, amount) == Returned(error, db.Now())
  {
    error := Transfer(db, PlatformRevenue, PlayerBalance(referee), amount, BetKey(RefereeReward, bet));
  }

  method DistributeDevShare(db: Database, bet: Id, developer: Id, amount: int) returns (error: Option<Error>)
    modifies db
    ensures AfterDevShare(old(db.Now()), bet, developer, amount) == Returned(error, db.Now())
  {
    if amount <= 0 { return Some(NonPositiveAmount); }
    var revenue := db.Balance(PlatformRevenue);
    if revenue < amount { return Some(RevenueShort); }
    error := Transfer(db, PlatformRevenue, DeveloperBalance(developer), amount, BetKey(DevShare, bet));
  }

  method ReleaseEscrow(db: Database, bet: Id, winner: Id, amount: int, movement: Movement) returns (error: Option<Error>)
    modifies db
    ensures AfterRelease(old(db.Now()), bet, winner, amount, movement) == Returned(error, db.Now())
  {
    if amount <= 0 { return Some(NonPositiveAmount); }
    if bet !in db.bets { return Some(NotFound); }
    if !db.bets[bet].status.CanRelease() { return Some(WrongStatus); }
    if Escrow(bet) !in db.balances { return Some(NoEscrowAccount); }
    if db.balances[Escrow(bet)] < amount { return Some(EscrowShort); }
    error := Transfer(db, Escrow(bet), PlayerBalance(winner), amount, BetKey(movement, bet));
  }

  method DecrementEscrow(db: Database, bet: Bet, amount: int)
    modifies db
    ensures db.Now() == LowerCounter(old(db.Now()), bet, amount)
  {
    if bet.game in db.cat.games {
      var id := db.cat.games[bet.game];
      if id in db.limits {
        var row := db.limits[id];
        db.limits := db.limits[id := row.(current := if row.current < amount then 0 else row.current - amount)];
      }
    }
  }

  method RefundEscrow(db: Database, bet: Id, player: Id, amount: int, key: Key) returns (error: Option<Error>)
    modifies db
    ensures AfterRefund(old(db.Now()), bet, player, amount, key) == Returned(error, db.Now())
  {
    if amount <= 0 { return Some(NonPositiveAmount); }
    if bet !in db.bets { return Some(NotFound); }
    if !db.bets[bet].status.CanRefund() { return Some(WrongStatus); }
    if Escrow(bet) !in db.balances { return Some(NoEscrowAccount); }
    if db.balances[Escrow(bet)] < amount { return Some(EscrowShort); }
    var alreadyTransferred := key in db.txns;
    error := Transfer(db, Escrow(bet), PlayerBalance(player), amount, key);
    if error.None? && !alreadyTransferred {
      DecrementEscrow(db, db.bets[bet], amount);
    }
  }
}
