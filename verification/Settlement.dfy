/** Settling one verified result: fee, referee reward, developer share, payouts, close. */
module Settlement {
  import opened Tables
  import opened Ledger
  import opened Fees
  import opened Escrows

  function AssignmentOf(s: State, bet: Id): Option<Assignment> {
    if bet in s.assignments then Some(s.assignments[bet]) else None
  }

  /** The re-checks under the lock. Open disputes are the scan's business, not this one's. */
  predicate Settles(s: State, bet: Id) {
    && bet in s.bets
    && s.bets[bet].status == RESULT_REPORTED
    && s.bets[bet].verified
    && s.bets[bet].outcome.Some?
    && s.bets[bet].playerB.Some?
  }

  function AfterFee(s: State, bet: Id, fee: int): (r: Result)
    ensures r.Done? ==> OnlyLedger(s, r.state)
    ensures r.Done? && Books(s) ==> Books(r.state)
  {
    if fee > 0 then AfterCollectFee(s, bet, fee) else Done(s)
  }

  function AfterReward(s: State, bet: Id, refereeFee: int): (r: Result)
    ensures r.Done? ==> OnlyLedger(s, r.state)
    ensures r.Done? && Books(s) ==> Books(r.state)
  {
    if refereeFee > 0 && bet in s.assignments && s.assignments[bet].referee.Some?
    then AfterRefereeFee(s, bet, s.assignments[bet].referee.value, refereeFee)
    else Done(s)
  }

  function AfterShare(s: State, bet: Id, fee: int, refereeFee: int): (r: Result)
    requires bet in s.bets
    ensures r.Done? ==> OnlyLedger(s, r.state)
    ensures r.Done? && Books(s) ==> Books(r.state)
  {
    var owner := DeveloperOf(s, s.bets[bet].game);
    if owner.None? || owner.value !in s.cat.developers then Fail(NotFound)
    else
      var developer := s.cat.developers[owner.value];
      var share := DeveloperShare(fee, refereeFee, developer.revShare);
      if share > 0 then AfterDevShare(s, bet, developer.user, share) else Done(s)
  }

  function AfterPayouts(s: State, bet: Id, remaining: int): (r: Result)
    requires Settles(s, bet)
    ensures r.Done? ==> OnlyLedger(s, r.state)
    ensures r.Done? && Books(s) ==> Books(r.state)
  {
    var row := s.bets[bet];
    if row.outcome.value == DRAW then
      var t :- AfterRelease(s, bet, row.playerA, PayoutA(remaining, DRAW), ReleaseA);
      AfterRelease(t, bet, row.playerB.value, PayoutB(remaining, DRAW), ReleaseB)
    else
      var winner := if row.outcome.value == PLAYER_A_WIN then row.playerA else row.playerB.value;
      AfterRelease(s, bet, winner, remaining, Release)
  }

  function AfterClose(s: State, bet: Id, fee: int, refereeFee: int): (r: Result)
    requires bet in s.bets
    ensures r.Done? && Books(s) ==> Books(r.state)
  {
    var row := s.bets[bet];
    var settled := s.(bets := s.bets[bet := row.(status := SETTLED, feeTaken := Some(fee))]);
    if bet !in s.assignments then Done(LowerCounter(settled, row, 2 * row.amount))
    else if s.assignments[bet].referee.None? then Fail(NoRefereeProfile)
    else
      var released := s.assignments[bet].(status := ASG_COMPLETED, reward := Some(refereeFee));
      Done(LowerCounter(settled.(assignments := s.assignments[bet := released]), row, 2 * row.amount))
  }

  function AfterCuts(s: State, bet: Id, fee: int, refereeFee: int): (r: Result)
    requires bet in s.bets
    ensures r.Done? ==> OnlyLedger(s, r.state)
    ensures r.Done? && Books(s) ==> Books(r.state)
  {
    var t :- AfterFee(s, bet, fee);
    var u :- AfterReward(t, bet, refereeFee);
    AfterShare(u, bet, fee, refereeFee)
  }

  function AfterMoney(s: State, bet: Id, fee: int, refereeFee: int): (r: Result)
    requires Settles(s, bet)
    ensures r.Done? ==> OnlyLedger(s, r.state)
    ensures r.Done? && Books(s) ==> Books(r.state)
  {
    var t :- AfterCuts(s, bet, fee, refereeFee);
    AfterPayouts(t, bet, 2 * s.bets[bet].amount - fee)
  }

  /** The transaction body, with every check the code makes and the error each one throws. */
  function AfterSettlement(s: State, bet: Id): (r: Result)
    requires Settles(s, bet)
    ensures r.Done? && Books(s) ==> Books(r.state)
  {
    var pot := 2 * s.bets[bet].amount;
    if Escrow(bet) !in s.balances then Fail(NoEscrowAccount)
    else if Bal(s, Escrow(bet)) != pot then Fail(EscrowMismatch)
    else
      var fee := PlatformFee(s.bets[bet].amount, s.bets[bet].feePercent);
      var refereeFee := RefereeFee(fee, AssignmentOf(s, bet));
      var t :- AfterMoney(s, bet, fee, refereeFee);
      if Bal(t, Escrow(bet)) != 0 then Fail(EscrowNotEmptied)
      else AfterClose(t, bet, fee, refereeFee)
  }

  function SettleAttempt(s: State, bet: Id, locked: bool): Attempt {
    if !locked || !Settles(s, bet) then Skipped
    else Attempted(AfterSettlement(s, bet))
  }

  // ---- the worker ---------------------------------------------------------

  method RewardReferee(db: Database, bet: Id, fee: int) returns (error: Option<Error>, refereeFee: int)
    modifies db
    ensures refereeFee == RefereeFee(fee, AssignmentOf(old(db.Now()), bet))
    ensures AfterReward(old(db.Now()), bet, refereeFee) == Returned(error, db.Now())
  {
    error, refereeFee := None, 0;
    if bet in db.assignments && db.assignments[bet].referee.Some? && fee > 0 {
      refereeFee := Share(fee, db.assignments[bet].rewardPercent);
      if refereeFee > 0 {
        error := DistributeRefereeFee(db, bet, db.assignments[bet].referee.value, refereeFee);
      }
    }
  }

  method ShareRevenue(db: Database, bet: Id, fee: int, refereeFee: int) returns (error: Option<Error>)
    requires bet in db.bets
    modifies db
    ensures AfterShare(old(db.Now()), bet, fee, refereeFee) == Returned(error, db.Now())
  {
    var game := db.bets[bet].game;
    if game !in db.cat.games || db.cat.games[game] !in db.cat.developers { return Some(NotFound); }
    var developer := db.cat.developers[db.cat.games[game]];
    error := None;
    if developer.revShare > 0 && fee > 0 {
      var share := Share(fee - refereeFee, developer.revShare);
      if share > 0 {
        error := DistributeDevShare(db, bet, developer.user, share);
      }
    }
  }

  method PayPlayers(db: Database, bet: Id, remaining: int) returns (error: Option<Error>)
    requires Settles(db.Now(), bet)
    modifies db
    ensures AfterPayouts(old(db.Now()), bet, remaining) == Returned(error, db.Now())
  {
    hide Books, AfterRelease;
    var row := db.bets[bet];
    if row.outcome.value == DRAW {
      var half := RoundHalfUp(remaining, 2);
      error := ReleaseEscrow(db, bet, row.playerA, half, ReleaseA);
      if error.None? {
        error := ReleaseEscrow(db, bet, row.playerB.value, remaining - half, ReleaseB);
      }
    } else {
      var winner := if row.outcome.value == PLAYER_A_WIN then row.playerA else row.playerB.value;
      error := ReleaseEscrow(db, bet, winner, remaining, Release);
    }
  }

  method Close(db: Database, bet: Id, fee: int, refereeFee: int) returns (error: Option<Error>)
    requires bet in db.bets
    modifies db
    ensures AfterClose(old(db.Now()), bet, fee, refereeFee) == Returned(error, db.Now())
  {
    var row := db.bets[bet];
    db.bets := db.bets[bet := row.(status := SETTLED, feeTaken := Some(fee))];
    if bet in db.assignments {
      if db.assignments[bet].referee.None? { return Some(NoRefereeProfile); }
      db.assignments := db.assignments[bet :=
        db.assignments[bet].(status := ASG_COMPLETED, reward := Some(refereeFee))];
    }
    DecrementEscrow(db, row, 2 * row.amount);
    return None;
  }

  method TakeFee(db: Database, bet: Id, fee: int) returns (error: Option<Error>)
    modifies db
    ensures AfterFee(old(db.Now()), bet, fee) == Returned(error, db.Now())
  {
    error := None;
    if fee > 0 {
      error := CollectFee(db, bet, fee);
    }
  }

  method TakeCuts(db: Database, bet: Id, fee: int) returns (error: Option<Error>, refereeFee: int)
    requires bet in db.bets
    modifies db
    ensures error.None? ==> refereeFee == RefereeFee(fee, AssignmentOf(old(db.Now()), bet))
    ensures AfterCuts(old(db.Now()), bet, fee, RefereeFee(fee, AssignmentOf(old(db.Now()), bet)))
            == Returned(error, db.Now())
  {
    refereeFee := 0;
    error := TakeFee(db, bet, fee);
    if error.None? {
      error, refereeFee := RewardReferee(db, bet, fee);
      if error.None? {
        error := ShareRevenue(db, bet, fee, refereeFee);
      }
    }
  }

  method MoveMoney(db: Database, bet: Id, fee: int) returns (error: Option<Error>, refereeFee: int)
    requires Settles(db.Now(), bet)
    modifies db
    ensures error.None? ==> refereeFee == RefereeFee(fee, AssignmentOf(old(db.Now()), bet))
    ensures AfterMoney(old(db.Now()), bet, fee, RefereeFee(fee, AssignmentOf(old(db.Now()), bet)))
            == Returned(error, db.Now())
  {
    hide AfterPayouts, AfterCuts, AfterFee, RefereeFee;
    ghost var s := db.Now();
    ghost var cut := RefereeFee(fee, AssignmentOf(s, bet));
    error, refereeFee := TakeCuts(db, bet, fee);
    ghost var t := db.Now();
    assert AfterCuts(s, bet, fee, cut) == Returned(error, t);
    if error.None? {
      error := PayPlayers(db, bet, 2 * db.bets[bet].amount - fee);
      assert AfterPayouts(t, bet, 2 * s.bets[bet].amount - fee) == Returned(error, db.Now());
      assert AfterMoney(s, bet, fee, cut) == Returned(error, db.Now());
    }
  }

  method SettleBody(db: Database, bet: Id) returns (error: Option<Error>)
    requires Settles(db.Now(), bet)
    modifies db
    ensures AfterSettlement(old(db.Now()), bet) == Returned(error, db.Now())
  {
    if Escrow(bet) !in db.balances { return Some(NoEscrowAccount); }
    var row := db.bets[bet];
    if db.balances[Escrow(bet)] != 2 * row.amount { return Some(EscrowMismatch); }
    var fee := PlatformFee(row.amount, row.feePercent);
    var refereeFee;
    error, refereeFee := MoveMoney(db, bet, fee);
    if error.Some? { return; }
    var left := db.Balance(Escrow(bet));
    if left != 0 { return Some(EscrowNotEmptied); }
    error := Close(db, bet, fee, refereeFee);
  }

  method SettleBet(db: Database, bet: Id, locked: bool) returns (attempt: Attempt)
    modifies db
    ensures attempt == SettleAttempt(old(db.Now()), bet, locked)
    ensures db.Now() == attempt.Outcome(old(db.Now()))
  {
    if !locked || bet !in db.bets { return Skipped; }
    var row := db.bets[bet];
    if row.status != RESULT_REPORTED || !row.verified || row.outcome.None? || row.playerB.None? {
      return Skipped;
    }
    var saved := db.Now();
    var error := SettleBody(db, bet);
    if error.Some? {
      db.Rollback(saved);
      return Failed(error.value);
    }
    return Committed(db.Now());
  }
}
