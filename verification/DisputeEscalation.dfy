/** Escalating disputes nobody has looked at, and voiding matches nobody has decided. */
module DisputeEscalation {
  import opened Tables
  import opened Ledger
  import opened BetExpiry
  import opened Escrows

  function AfterEscalation(s: State, dispute: Id): State {
    if dispute in s.disputes && s.disputes[dispute].status == DSP_OPEN
    then s.(disputes := s.disputes[dispute := s.disputes[dispute].(status := DSP_UNDER_REVIEW)])
    else s
  }

  function EscalatedAll(s: State, disputes: seq<Id>): State {
    if disputes == [] then s
    else AfterEscalation(EscalatedAll(s, disputes[..|disputes| - 1]), disputes[|disputes| - 1])
  }

  method EscalateOpenDisputes(db: Database, openDisputes: seq<Id>)
    modifies db
    ensures db.Now() == EscalatedAll(old(db.Now()), openDisputes)
  {
    for i := 0 to |openDisputes|
      invariant db.Now() == EscalatedAll(old(db.Now()), openDisputes[..i])
    {
      var id := openDisputes[i];
      assert openDisputes[..i + 1][..i] == openDisputes[..i];
      if id in db.disputes && db.disputes[id].status == DSP_OPEN {
        db.disputes := db.disputes[id := db.disputes[id].(status := DSP_UNDER_REVIEW)];
      }
    }
    assert openDisputes[..|openDisputes|] == openDisputes;
  }

  /** Whatever the list repeats or leaves out, the pass touches the OPEN disputes on it and nothing else. */
  lemma {:induction false} EscalatesExactlyOpen(s: State, disputes: seq<Id>)
    ensures var t := EscalatedAll(s, disputes);
            && t == s.(disputes := t.disputes) && t.disputes.Keys == s.disputes.Keys
            && forall d :: d in s.disputes ==>
                 t.disputes[d] == if d in disputes && s.disputes[d].status == DSP_OPEN
                                  then s.disputes[d].(status := DSP_UNDER_REVIEW) else s.disputes[d]
  {
    if disputes != [] {
      var n := |disputes| - 1;
      EscalatesExactlyOpen(s, disputes[..n]);
      assert disputes == disputes[..n] + [disputes[n]];
    }
  }

  // ---- the automatic void -------------------------------------------------

  function Resolved(s: State, dispute: Id, status: DisputeStatus): State
    requires dispute in s.disputes
  {
    s.(disputes := s.disputes[dispute := s.disputes[dispute].(status := status)])
  }

  function CancelOpenAssignment(s: State, bet: Id): State {
    if bet in s.assignments && !s.assignments[bet].status.IsClosed()
    then s.(assignments := s.assignments[bet := s.assignments[bet].(status := ASG_CANCELLED)])
    else s
  }

  predicate HoldsDisputedStakes(s: State, bet: Id) {
    bet in s.bets && (s.bets[bet].status.RESULT_REPORTED? || s.bets[bet].status.DISPUTED?)
  }

  function AfterAutoVoid(s: State, dispute: Id, bet: Id): (r: Result)
    requires dispute in s.disputes && bet in s.bets
    ensures r.Done? && Books(s) ==> Books(r.state)
  {
    if !HoldsDisputedStakes(s, bet) then Done(Resolved(s, dispute, RESOLVED_VOID))
    else
      var t :- AfterRefundBoth(WithStatus(s, bet, VOIDED), bet, BetKey(DisputeVoidA, bet), BetKey(DisputeVoidB, bet));
      Done(Resolved(CancelOpenAssignment(t, bet), dispute, RESOLVED_VOID))
  }

  function AutoVoidAttempt(s: State, dispute: Id, bet: Id, locked: bool): Attempt {
    if !locked || dispute !in s.disputes || s.disputes[dispute].status != DSP_UNDER_REVIEW || bet !in s.bets then Skipped
    else Attempted(AfterAutoVoid(s, dispute, bet))
  }

  /** `voided`: the players are told their stakes came back. */
  method AutoVoidDispute(db: Database, dispute: Id, bet: Id, locked: bool) returns (attempt: Attempt, voided: bool)
    modifies db
    ensures attempt == AutoVoidAttempt(old(db.Now()), dispute, bet, locked)
    ensures db.Now() == attempt.Outcome(old(db.Now()))
    ensures voided <==> attempt.Committed? && HoldsDisputedStakes(old(db.Now()), bet)
  {
    hide AfterRefund;
    if !locked || dispute !in db.disputes || db.disputes[dispute].status != DSP_UNDER_REVIEW || bet !in db.bets {
      return Skipped, false;
    }
    if db.bets[bet].status != RESULT_REPORTED && db.bets[bet].status != DISPUTED {
      db.disputes := db.disputes[dispute := db.disputes[dispute].(status := RESOLVED_VOID)];
      return Committed(db.Now()), false;
    }
    var saved := db.Now();
    db.bets := db.bets[bet := db.bets[bet].(status := VOIDED)];
    var error := RefundBoth(db, bet, BetKey(DisputeVoidA, bet), BetKey(DisputeVoidB, bet));
    if error.Some? {
      db.Rollback(saved);
      return Failed(error.value), false;
    }
    if bet in db.assignments && !db.assignments[bet].status.IsClosed() {
      db.assignments := db.assignments[bet := db.assignments[bet].(status := ASG_CANCELLED)];
    }
    db.disputes := db.disputes[dispute := db.disputes[dispute].(status := RESOLVED_VOID)];
    return Committed(db.Now()), true;
  }

  /**
   A void that commits settles the dispute for good: it reads RESOLVED_VOID, every other
   dispute is as it was, and the next visit passes over it. If the bet held stakes it is
   VOIDED with its assignment closed and no other row touched; if not, nothing else changes.
   */
  lemma AutoVoidResolves(s: State, dispute: Id, bet: Id, locked: bool, again: bool)
    requires AutoVoidAttempt(s, dispute, bet, locked).Committed?
    ensures dispute in s.disputes && bet in s.bets
    ensures var t := AutoVoidAttempt(s, dispute, bet, locked).state;
            && t.disputes == s.disputes[dispute := Dispute(s.disputes[dispute].bet, RESOLVED_VOID)]
            && AutoVoidAttempt(t, dispute, bet, again).Skipped?
            && (if HoldsDisputedStakes(s, bet)
                then
                  && t.bets == s.bets[bet := s.bets[bet].(status := VOIDED)]
                  && t.assignments.Keys == s.assignments.Keys
                  && (bet in s.assignments ==>
                        t.assignments[bet].status.IsClosed() && t.assignments[bet].referee == s.assignments[bet].referee)
                  && (forall b :: b in s.assignments && b != bet ==> t.assignments[b] == s.assignments[b])
                else t == s.(disputes := t.disputes))
  {
    hide AfterRefundBoth;
  }

  /** A dispute is voided only after it was escalated. */
  lemma EscalatedThenVoided(s: State, dispute: Id)
    requires dispute in s.disputes && s.disputes[dispute].status == DSP_OPEN && s.disputes[dispute].bet in s.bets
    ensures AutoVoidAttempt(s, dispute, s.disputes[dispute].bet, true).Skipped?
    ensures !AutoVoidAttempt(AfterEscalation(s, dispute), dispute, s.disputes[dispute].bet, true).Skipped?
  {
  }
}
