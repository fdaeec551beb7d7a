/** Expiry of OPEN bets, the no-show void, and the referee sweep's time limits. */
module BetExpiry {
  import opened Tables
  import opened Ledger
  import opened Escrows

  // ---- an OPEN bet past its expiry ----------------------------------------

  function WithStatus(s: State, bet: Id, status: BetStatus): State
    requires bet in s.bets
  {
    s.(bets := s.bets[bet := s.bets[bet].(status := status)])
  }

  function AfterExpiry(s: State, bet: Id): (r: Result)
    requires bet in s.bets
    ensures r.Done? && Books(s) ==> Books(r.state)
  {
    var t :- AfterRefund(s, bet, s.bets[bet].playerA, s.bets[bet].amount, BetKey(ExpiryRefund, bet));
    Done(WithStatus(t, bet, CANCELLED))
  }

  function ExpireAttempt(s: State, bet: Id, locked: bool): Attempt {
    if !locked || bet !in s.bets || s.bets[bet].status != OPEN then Skipped
    else Attempted(AfterExpiry(s, bet))
  }

  /** `notified`: whether a BET_CANCELLED webhook is attempted. */
  method ExpireBet(db: Database, bet: Id, locked: bool) returns (attempt: Attempt, notified: bool)
    modifies db
    ensures attempt == ExpireAttempt(old(db.Now()), bet, locked)
    ensures db.Now() == attempt.Outcome(old(db.Now()))
    ensures notified <==> attempt.Committed?
  {
    if !locked || bet !in db.bets || db.bets[bet].status != OPEN {
      return Skipped, false;
    }
    var saved := db.Now();
    var row := db.bets[bet];
    var error := RefundEscrow(db, bet, row.playerA, row.amount, BetKey(ExpiryRefund, bet));
    if error.Some? {
      db.Rollback(saved);
      return Failed(error.value), false;
    }
    db.bets := db.bets[bet := db.bets[bet].(status := CANCELLED)];
    return Committed(db.Now()), true;
  }

  // ---- both stakes back ---------------------------------------------------

  function AfterRefundBoth(s: State, bet: Id, keyA: Key, keyB: Key): (r: Result)
    requires bet in s.bets
    ensures r.Done? ==> OnlyMoney(s, r.state)
    ensures r.Done? && Books(s) ==> Books(r.state)
  {
    var row := s.bets[bet];
    var t :- AfterRefund(s, bet, row.playerA, row.amount, keyA);
    if row.playerB.None? then Done(t)
    else AfterRefund(t, bet, row.playerB.value, row.amount, keyB)
  }

  method RefundBoth(db: Database, bet: Id, keyA: Key, keyB: Key) returns (error: Option<Error>)
    requires bet in db.bets
    modifies db
    ensures AfterRefundBoth(old(db.Now()), bet, keyA, keyB) == Returned(error, db.Now())
  {
    var row := db.bets[bet];
    error := RefundEscrow(db, bet, row.playerA, row.amount, keyA);
    if error.None? && row.playerB.Some? {
      error := RefundEscrow(db, bet, row.playerB.value, row.amount, keyB);
    }
  }

  // ---- the no-show void ---------------------------------------------------

  /** Which bet's transaction list a movement is filed under; developer shares carry none. */
  function FiledUnder(s: State, k: Key): Option<Id> {
    match k
    case BetKey(movement, bet) => if movement == DevShare then None else Some(bet)
    case ResolveKey(_, dispute) => if dispute in s.disputes then Some(s.disputes[dispute].bet) else None
    case _ => None
  }

  predicate HasMovements(s: State, bet: Id) {
    exists k :: k in s.txns && FiledUnder(s, k) == Some(bet)
  }

  function CancelLiveAssignment(s: State, bet: Id): State {
    if bet in s.assignments && s.assignments[bet].status.IsLive()
    then s.(assignments := s.assignments[bet := s.assignments[bet].(status := ASG_CANCELLED)])
    else s
  }

  function AfterNoShow(s: State, bet: Id): (r: Result)
    ensures r.Done? && Books(s) ==> Books(r.state)
  {
    if !IsUnplayed(s, bet) then Done(s)
    else
      var released := CancelLiveAssignment(s, bet);
      if Escrow(bet) !in s.balances then
        if HasMovements(s, bet) then Fail(UnescrowedMovement)
        else Done(WithStatus(released, bet, VOIDED))
      else
        AfterRefundBoth(WithStatus(released, bet, VOIDED), bet, BetKey(NoShowA, bet), BetKey(NoShowB, bet))
  }

  function NoShowAttempt(s: State, bet: Id, locked: bool): Attempt {
    if !locked then Skipped else Attempted(AfterNoShow(s, bet))
  }

  predicate IsUnplayed(s: State, bet: Id) {
    bet in s.bets && s.bets[bet].status == MATCHED && s.bets[bet].playerB.Some?
  }

  method CancelActiveRefereeAssignment(db: Database, bet: Id)
    modifies db
    ensures db.Now() == CancelLiveAssignment(old(db.Now()), bet)
  {
    if bet in db.assignments && db.assignments[bet].status.IsLive() {
      db.assignments := db.assignments[bet := db.assignments[bet].(status := ASG_CANCELLED)];
    }
  }

  method VoidNoShowMatch(db: Database, bet: Id) returns (error: Option<Error>, voided: bool, refunded: bool)
    modifies db
    ensures AfterNoShow(old(db.Now()), bet) == Returned(error, db.Now())
    ensures error.None? ==> (voided <==> IsUnplayed(old(db.Now()), bet))
    ensures error.None? ==> (refunded <==> voided && Escrow(bet) in old(db.balances))
  {
    if !IsUnplayed(db.Now(), bet) {
      return None, false, false;
    }
    CancelActiveRefereeAssignment(db, bet);
    var escrowed := Escrow(bet) in db.balances;
    if !escrowed && HasMovements(db.Now(), bet) {
      return Some(UnescrowedMovement), false, false;
    }
    db.bets := db.bets[bet := db.bets[bet].(status := VOIDED)];
    error, voided, refunded := None, true, escrowed;
    if escrowed {
      error := RefundBoth(db, bet, BetKey(NoShowA, bet), BetKey(NoShowB, bet));
    }
  }

  method VoidStaleMatch(db: Database, bet: Id, locked: bool) returns (attempt: Attempt, notified: bool)
    modifies db
    ensures attempt == NoShowAttempt(old(db.Now()), bet, locked)
    ensures db.Now() == attempt.Outcome(old(db.Now()))
    ensures notified <==> attempt.Committed? && IsUnplayed(old(db.Now()), bet) && Escrow(bet) in old(db.balances)
  {
    if !locked {
      return Skipped, false;
    }
    var saved := db.Now();
    var error, voided, refunded := VoidNoShowMatch(db, bet);
    if error.Some? {
      db.Rollback(saved);
      return Failed(error.value), false;
    }
    return Committed(db.Now()), voided && refunded;
  }

  // ---- the referee sweep --------------------------------------------------

  const CLAIM_TTL := 600_000
  const START_TTL := 300_000
  const MATCH_TTL := 7_200_000

  /** The three time limits, re-read under the bet's lock; timestamps in milliseconds. */
  function AfterSweep(s: State, bet: Id, now: int): (r: Result)
    ensures r.Done? && Books(s) ==> Books(r.state)
  {
    if bet !in s.assignments || bet !in s.bets || s.bets[bet].status != MATCHED then Done(s)
    else
      var row := s.assignments[bet];
      var age := now - row.since;
      if row.status == ASG_OPEN && age >= CLAIM_TTL then AfterNoShow(s, bet)
      else if (row.status.ASG_ASSIGNED? || row.status.ASG_READY?) && age >= START_TTL then
        Done(s.(assignments := s.assignments[bet := row.(status := ASG_OPEN, referee := None, since := now)]))
      else if row.status == ASG_IN_PROGRESS && age >= MATCH_TTL then AfterNoShow(s, bet)
      else Done(s)
  }

  function SweepAttempt(s: State, bet: Id, now: int, locked: bool): Attempt {
    if !locked then Skipped else Attempted(AfterSweep(s, bet, now))
  }

  method SweepStaleAssignment(db: Database, bet: Id, now: int, locked: bool) returns (attempt: Attempt)
    modifies db
    ensures attempt == SweepAttempt(old(db.Now()), bet, now, locked)
    ensures db.Now() == attempt.Outcome(old(db.Now()))
  {
    if !locked {
      return Skipped;
    }
    if bet !in db.assignments || bet !in db.bets || db.bets[bet].status != MATCHED {
      return Committed(db.Now());
    }
    var saved := db.Now();
    var row := db.assignments[bet];
    var age := now - row.since;
    var error := None;
    if row.status == ASG_OPEN && age >= CLAIM_TTL {
      var voided, refunded;
      error, voided, refunded := VoidNoShowMatch(db, bet);
    } else if (row.status.ASG_ASSIGNED? || row.status.ASG_READY?) && age >= START_TTL {
      db.assignments := db.assignments[bet := row.(status := ASG_OPEN, referee := None, since := now)];
    } else if row.status == ASG_IN_PROGRESS && age >= MATCH_TTL {
      var voided, refunded;
      error, voided, refunded := VoidNoShowMatch(db, bet);
    }
    if error.Some? {
      db.Rollback(saved);
      return Failed(error.value);
    }
    return Committed(db.Now());
  }
}
