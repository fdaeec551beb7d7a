/** The settlement scan: which bets it picks, and what one pass over them comes to. */
module SettlementScan {
  import opened Sums
  import opened Tables
  import opened Fees
  import opened Settlement
  import opened Lifecycle
  import opened Invariant
  import opened SettlementEffect

  // ---- selection and the countdown players are shown ----------------------

  const SETTLEMENT_DELAY := 120_000

  predicate HasUndecidedDispute(s: State, bet: Id) {
    exists d :: d in s.disputes && s.disputes[d].bet == bet && s.disputes[d].status.IsUndecided()
  }

  predicate Selected(s: State, bet: Id, now: int) {
    && bet in s.bets && s.bets[bet].status == RESULT_REPORTED && s.bets[bet].verified
    && s.bets[bet].reportedAt.Some? && s.bets[bet].reportedAt.value < now - SETTLEMENT_DELAY
    && !HasUndecidedDispute(s, bet)
    && (bet in s.assignments ==>
          && s.assignments[bet].status == ASG_DECISION_SUBMITTED
          && s.assignments[bet].deadline.Some? && s.assignments[bet].deadline.value <= now)
  }

  /** The time the players' countdown runs to. */
  function SettlementDueAt(row: Bet, hasOpenDispute: bool, assignment: Option<Assignment>): Option<int> {
    if row.status != RESULT_REPORTED then None
    else if !row.verified || row.reportedAt.None? || hasOpenDispute then None
    else if assignment.Some? then
      if assignment.value.status != ASG_DECISION_SUBMITTED then None else assignment.value.deadline
    else Some(row.reportedAt.value + SETTLEMENT_DELAY)
  }

  function DueAt(s: State, bet: Id): Option<int>
    requires bet in s.bets
  {
    SettlementDueAt(s.bets[bet], HasUndecidedDispute(s, bet), AssignmentOf(s, bet))
  }

  /**
   The scan picks up an unrefereed bet exactly when its countdown has passed. A refereed
   bet must in addition have been reported two minutes ago, which the countdown ignores.
   */
  lemma ScanFollowsCountdown(s: State, bet: Id, now: int)
    requires bet in s.bets
    ensures bet !in s.assignments ==>
              (Selected(s, bet, now) <==> DueAt(s, bet).Some? && DueAt(s, bet).value < now)
    ensures bet in s.assignments ==>
              (Selected(s, bet, now) <==>
                 && DueAt(s, bet).Some? && DueAt(s, bet).value <= now
                 && s.bets[bet].reportedAt.value + SETTLEMENT_DELAY < now)
  {
  }

  /** A ruling on a refereed bet closes the dispute window at once, so there the two part. */
  lemma RulingOutrunsCountdown(s: State, dispute: Id, ruling: Ruling, now: int, later: int)
    requires dispute in s.disputes && s.disputes[dispute].bet in s.bets && s.disputes[dispute].bet in s.assignments
    requires ruling != ForVoid
    requires forall d :: d in s.disputes && d != dispute && s.disputes[d].bet == s.disputes[dispute].bet
                         ==> !s.disputes[d].status.IsUndecided()
    ensures var bet, r := s.disputes[dispute].bet, AfterRuling(s, dispute, ruling, now);
            && r.Done? && bet in r.state.bets
            && DueAt(r.state, bet) == Some(now)
            && (Selected(r.state, bet, later) <==> now + SETTLEMENT_DELAY < later)
  {
    var bet, t := s.disputes[dispute].bet, AfterRuling(s, dispute, ruling, now).state;
    assert forall d :: d in t.disputes ==> d in s.disputes && t.disputes[d].bet == s.disputes[d].bet;
    assert !HasUndecidedDispute(t, bet);
  }

  // ---- one pass -----------------------------------------------------------

  /** `locked[i]`: whether the advisory lock was free when the i-th bet's turn came. */
  function SettledAll(s: State, ids: seq<Id>, locked: seq<bool>): State
    requires |locked| == |ids|
  {
    if ids == [] then s
    else
      var n := |ids| - 1;
      var t := SettledAll(s, ids[..n], locked[..n]);
      SettleAttempt(t, ids[n], locked[n]).Outcome(t)
  }

  /** `failed`: the bets whose transaction threw, in order; the rest of the batch goes on. */
  method ProcessSettlementScan(db: Database, ids: seq<Id>, locked: seq<bool>) returns (failed: seq<Id>)
    requires |locked| == |ids|
    modifies db
    ensures db.Now() == SettledAll(old(db.Now()), ids, locked)
    ensures failed == FailedIn(old(db.Now()), ids, locked)
  {
    hide SettleAttempt;
    failed := [];
    for i := 0 to |ids|
      invariant db.Now() == SettledAll(old(db.Now()), ids[..i], locked[..i])
      invariant failed == FailedIn(old(db.Now()), ids[..i], locked[..i])
    {
      assert ids[..i + 1][..i] == ids[..i] && locked[..i + 1][..i] == locked[..i];
      var attempt := SettleBet(db, ids[i], locked[i]);
      if attempt.Failed? {
        failed := failed + [ids[i]];
      }
    }
    assert ids[..|ids|] == ids && locked[..|ids|] == locked;
  }

  function FailedIn(s: State, ids: seq<Id>, locked: seq<bool>): seq<Id>
    requires |locked| == |ids|
  {
    if ids == [] then []
    else
      var n := |ids| - 1;
      FailedIn(s, ids[..n], locked[..n])
      + if SettleAttempt(SettledAll(s, ids[..n], locked[..n]), ids[n], locked[n]).Failed? then [ids[n]] else []
  }

  // ---- what a pass comes to, whatever its order ---------------------------

  predicate Goes(s: State, bet: Id) {
    RowsKnown(s, bet) && Payable(s, bet)
  }

  /** The bets a pass settles: listed with a free lock, eligible and payable as the pass begins. */
  function Winners(s: State, ids: seq<Id>, locked: seq<bool>): set<Id>
    requires |locked| == |ids|
  {
    set i | 0 <= i < |ids| && locked[i] && Goes(s, ids[i]) :: ids[i]
  }

  ghost function TotalDue(s: State, settled: set<Id>, a: Account): int
    requires forall b :: b in settled ==> RowsKnown(s, b)
  {
    MapSum(map b | b in settled :: Due(TermsOf(s, b), b, a))
  }

  function PotFor(s: State, bet: Id, developer: Id): int {
    if bet in s.bets && DeveloperOf(s, s.bets[bet].game) == Some(developer) then 2 * s.bets[bet].amount else 0
  }

  ghost function TotalPots(s: State, settled: set<Id>, developer: Id): int
    requires forall b :: b in settled ==> RowsKnown(s, b)
  {
    MapSum(map b | b in settled :: PotFor(s, b, developer))
  }

  /** Every bet in `settled` was settled once on the terms `s` gives it, and nothing else happened. */
  ghost predicate SettledOnce(s: State, t: State, settled: set<Id>)
    requires forall b :: b in settled ==> RowsKnown(s, b)
  {
    && RowsSettledOnce(s, t, settled)
    && (forall a :: Bal(t, a) == Bal(s, a) + TotalDue(s, settled, a))
    && t.limits.Keys == s.limits.Keys
    && (forall d :: d in s.limits ==>
          t.limits[d] == s.limits[d].(current := s.limits[d].current - TotalPots(s, settled, d)))
  }

  ghost predicate SettledBy(s: State, t: State, settled: set<Id>) {
    (forall b :: b in settled ==> RowsKnown(s, b)) && SettledOnce(s, t, settled)
  }

  ghost predicate RowsSettledOnce(s: State, t: State, settled: set<Id>)
    requires forall b :: b in settled ==> RowsKnown(s, b)
  {
    && t.cat == s.cat && t.disputes == s.disputes && t.clientKeys == s.clientKeys
    && t.bets.Keys == s.bets.Keys && t.assignments.Keys == s.assignments.Keys
    && (forall b :: b in s.bets ==> t.bets[b] == if b in settled then SettledRow(s, b) else s.bets[b])
    && (forall b :: b in s.assignments ==>
          t.assignments[b] == if b in settled then SettledAssignments(s, b)[b] else s.assignments[b])
  }

  /** Settling other bets changes neither what a bet is owed nor whether it can be settled. */
  lemma UntouchedIsTheSame(s: State, t: State, settled: set<Id>, bet: Id)
    requires forall b :: b in settled ==> RowsKnown(s, b)
    requires RowsSettledOnce(s, t, settled) && bet !in settled
    ensures RowsKnown(t, bet) <==> RowsKnown(s, bet)
    ensures Settles(t, bet) <==> Settles(s, bet)
    ensures RowsKnown(s, bet) ==>
              && TermsOf(t, bet) == TermsOf(s, bet) && SettledRow(t, bet) == SettledRow(s, bet)
              && (Payable(t, bet) <==> Payable(s, bet))
              && (bet in s.assignments ==> SettledAssignments(t, bet)[bet] == SettledAssignments(s, bet)[bet])
  {
    hide PlatformFee, RefereeFee, DeveloperShare, PayoutA, PayoutB;
    assert bet in s.assignments <==> bet in t.assignments;
  }

  lemma SettledIsSkipped(s: State, t: State, settled: set<Id>, bet: Id)
    requires forall b :: b in settled ==> RowsKnown(s, b)
    requires RowsSettledOnce(s, t, settled) && bet in settled
    ensures !Settles(t, bet)
  {
    hide TermsOf;
  }

  lemma OneMoreRow(s: State, t: State, u: State, settled: set<Id>, bet: Id)
    requires forall b :: b in settled ==> RowsKnown(s, b)
    requires RowsSettledOnce(s, t, settled) && bet !in settled && RowsKnown(s, bet) && RowsKnown(t, bet)
    requires u.cat == t.cat && u.disputes == t.disputes && u.clientKeys == t.clientKeys
    requires u.bets == t.bets[bet := SettledRow(t, bet)] && u.assignments == SettledAssignments(t, bet)
    ensures RowsSettledOnce(s, u, settled + {bet})
  {
    UntouchedIsTheSame(s, t, settled, bet);
    hide TermsOf, SettledRow;
  }

  lemma OneMoreDue(s: State, settled: set<Id>, bet: Id, a: Account)
    requires forall b :: b in settled ==> RowsKnown(s, b)
    requires bet !in settled && RowsKnown(s, bet)
    ensures TotalDue(s, settled + {bet}, a) == TotalDue(s, settled, a) + Due(TermsOf(s, bet), bet, a)
  {
    hide TermsOf, Due, RowsKnown;
    var before := map b | b in settled :: Due(TermsOf(s, b), b, a);
    var after := map b | b in settled + {bet} :: Due(TermsOf(s, b), b, a);
    assert after == before[bet := Due(TermsOf(s, bet), bet, a)];
    MapSumUpdate(before, bet, Due(TermsOf(s, bet), bet, a));
  }

  lemma OneMorePot(s: State, settled: set<Id>, bet: Id, developer: Id)
    requires forall b :: b in settled ==> RowsKnown(s, b)
    requires bet !in settled && RowsKnown(s, bet)
    ensures TotalPots(s, settled + {bet}, developer) == TotalPots(s, settled, developer) + PotFor(s, bet, developer)
  {
    var before := map b | b in settled :: PotFor(s, b, developer);
    var after := map b | b in settled + {bet} :: PotFor(s, b, developer);
    assert after == before[bet := PotFor(s, bet, developer)];
    MapSumUpdate(before, bet, PotFor(s, bet, developer));
  }

  lemma OneMoreSettled(s: State, t: State, u: State, settled: set<Id>, bet: Id)
    requires forall b :: b in settled ==> RowsKnown(s, b)
    requires SettledOnce(s, t, settled) && bet !in settled && RowsKnown(s, bet) && RowsKnown(t, bet)
    requires Settled(t, u, bet)
    ensures SettledOnce(s, u, settled + {bet})
  {
    hide TermsOf, Due, RowsKnown, SettledRow, SettledAssignments, TotalDue, TotalPots, RowsSettledOnce, Payable;
    UntouchedIsTheSame(s, t, settled, bet);
    OneMoreRow(s, t, u, settled, bet);
    forall a
      ensures Bal(u, a) == Bal(s, a) + TotalDue(s, settled + {bet}, a)
    {
      OneMoreDue(s, settled, bet, a);
    }
    forall d | d in s.limits
      ensures u.limits[d] == s.limits[d].(current := s.limits[d].current - TotalPots(s, settled + {bet}, d))
    {
      OneMorePot(s, settled, bet, d);
      PotIsTerms(s, t, settled, bet, d);
    }
  }

  lemma PotIsTerms(s: State, t: State, settled: set<Id>, bet: Id, developer: Id)
    requires forall b :: b in settled ==> RowsKnown(s, b)
    requires RowsSettledOnce(s, t, settled) && bet !in settled && RowsKnown(s, bet) && RowsKnown(t, bet)
    ensures PotFor(s, bet, developer)
            == if DeveloperOf(t, t.bets[bet].game) == Some(developer) then TermsOf(t, bet).pot else 0
  {
    hide PlatformFee, RefereeFee, DeveloperShare, PayoutA, PayoutB;
  }

  /** One turn of the loop. */
  lemma TurnSettles(s: State, t: State, settled: set<Id>, bet: Id, locked: bool)
    requires forall b :: b in settled ==> RowsKnown(s, b)
    requires Sound(s) && Sound(t) && SettledOnce(s, t, settled)
    ensures var attempt := SettleAttempt(t, bet, locked);
            && Sound(attempt.Outcome(t))
            && SettledBy(s, attempt.Outcome(t), if locked && Goes(s, bet) then settled + {bet} else settled)
            && (bet !in settled ==> (attempt.Failed? <==> locked && Settles(s, bet) && !Goes(s, bet)))
            && (bet in settled ==> attempt.Skipped?)
  {
    hide Sound, SettledOnce, RowsSettledOnce, AfterSettlement, RowsKnown, Payable, Settled;
    RowsOf(s, t, settled);
    if bet in settled {
      SettledIsSkipped(s, t, settled, bet);
      assert settled + {bet} == settled;
    } else {
      UntouchedIsTheSame(s, t, settled, bet);
      KnownIffSettles(s, bet);
      if locked && Settles(s, bet) {
        SettlementExact(t, bet);
        if Payable(s, bet) {
          OneMoreSettled(s, t, AfterSettlement(t, bet).state, settled, bet);
          SettlementKeepsSound(t, bet);
        }
      }
    }
  }

  lemma RowsOf(s: State, t: State, settled: set<Id>)
    requires forall b :: b in settled ==> RowsKnown(s, b)
    requires SettledOnce(s, t, settled)
    ensures RowsSettledOnce(s, t, settled)
  {
  }

  lemma KnownIffSettles(s: State, bet: Id)
    requires Sound(s)
    ensures RowsKnown(s, bet) <==> Settles(s, bet)
  {
    if Settles(s, bet) {
      RowsAreKnown(s, bet);
    }
  }

  lemma WinnersStep(s: State, ids: seq<Id>, locked: seq<bool>)
    requires |locked| == |ids| > 0
    ensures var n := |ids| - 1;
            var before := Winners(s, ids[..n], locked[..n]);
            Winners(s, ids, locked) == if locked[n] && Goes(s, ids[n]) then before + {ids[n]} else before
  {
    hide Goes;
    var n := |ids| - 1;
    var before := Winners(s, ids[..n], locked[..n]);
    forall b | b in before
      ensures b in Winners(s, ids, locked)
    {
      var i :| 0 <= i < n && locked[..n][i] && Goes(s, ids[..n][i]) && ids[..n][i] == b;
      assert ids[i] == b && locked[i];
    }
    forall b | b in Winners(s, ids, locked)
      ensures b in before || (b == ids[n] && locked[n] && Goes(s, ids[n]))
    {
      var i :| 0 <= i < |ids| && locked[i] && Goes(s, ids[i]) && ids[i] == b;
      if i < n {
        assert ids[..n][i] == b && locked[..n][i];
      }
    }
  }

  lemma WinnersKnown(s: State, ids: seq<Id>, locked: seq<bool>)
    requires |locked| == |ids|
    ensures forall b :: b in Winners(s, ids, locked) ==> RowsKnown(s, b)
  {
    hide Payable;
  }

  /**
   Batch confluence: a pass over any list of ids, with duplicates, stale ids, busy
   locks and failing bets, in any order, settles each eligible and payable bet once on
   its own terms and touches nothing else, though all of them pay into one account.
   */
  lemma {:induction false} PassSettlesEachOnce(s: State, ids: seq<Id>, locked: seq<bool>)
    requires Sound(s) && |locked| == |ids|
    ensures forall b :: b in Winners(s, ids, locked) ==> RowsKnown(s, b)
    ensures Sound(SettledAll(s, ids, locked))
    ensures SettledOnce(s, SettledAll(s, ids, locked), Winners(s, ids, locked))
    decreases |ids|, 1
  {
    WinnersKnown(s, ids, locked);
    if ids == [] {
      NothingSettled(s);
      assert Winners(s, ids, locked) == {};
    } else {
      PassStep(s, ids, locked);
    }
  }

  lemma PassStep(s: State, ids: seq<Id>, locked: seq<bool>)
    requires Sound(s) && |locked| == |ids| > 0
    ensures forall b :: b in Winners(s, ids, locked) ==> RowsKnown(s, b)
    ensures Sound(SettledAll(s, ids, locked))
    ensures SettledOnce(s, SettledAll(s, ids, locked), Winners(s, ids, locked))
    decreases |ids|, 0
  {
    hide Sound, SettledOnce, RowsKnown, Goes, Winners, SettleAttempt;
    var n := |ids| - 1;
    WinnersKnown(s, ids, locked);
    WinnersKnown(s, ids[..n], locked[..n]);
    PassSettlesEachOnce(s, ids[..n], locked[..n]);
    WinnersStep(s, ids, locked);
    TurnSettles(s, SettledAll(s, ids[..n], locked[..n]), Winners(s, ids[..n], locked[..n]), ids[n], locked[n]);
  }

  lemma NothingSettled(s: State)
    ensures SettledOnce(s, s, {})
  {
    hide Due, TermsOf, PotFor;
    assert forall a :: TotalDue(s, {}, a) == 0;
    assert forall d :: TotalPots(s, {}, d) == 0;
  }

  /** So two passes that settle the same bets leave the same balances, rows and counters. */
  lemma OrderDoesNotMatter(s: State, ids: seq<Id>, locked: seq<bool>, ids': seq<Id>, locked': seq<bool>)
    requires Sound(s) && |locked| == |ids| && |locked'| == |ids'|
    requires Winners(s, ids, locked) == Winners(s, ids', locked')
    ensures var t, t' := SettledAll(s, ids, locked), SettledAll(s, ids', locked');
            && (forall a :: Bal(t, a) == Bal(t', a)) && t.bets == t'.bets && t.assignments == t'.assignments
            && t.limits == t'.limits
  {
    hide Sound, SettledAll, Winners, RowsKnown, SettledRow, SettledAssignments, TotalDue, TotalPots;
    PassSettlesEachOnce(s, ids, locked);
    PassSettlesEachOnce(s, ids', locked');
  }

  /** The listed bets, in order, that are eligible as the pass begins but cannot be paid. */
  function Unpayable(s: State, ids: seq<Id>, locked: seq<bool>): seq<Id>
    requires |locked| == |ids|
  {
    if ids == [] then []
    else
      var n := |ids| - 1;
      Unpayable(s, ids[..n], locked[..n])
      + if locked[n] && Settles(s, ids[n]) && !Goes(s, ids[n]) then [ids[n]] else []
  }

  /** Failures are isolated: which bets throw does not depend on what the pass did before them. */
  lemma {:induction false} FailuresAreIsolated(s: State, ids: seq<Id>, locked: seq<bool>)
    requires Sound(s) && |locked| == |ids|
    ensures FailedIn(s, ids, locked) == Unpayable(s, ids, locked)
  {
    hide Sound, SettledOnce, RowsKnown, Goes, Winners, SettleAttempt, Settles;
    if ids != [] {
      var n := |ids| - 1;
      FailuresAreIsolated(s, ids[..n], locked[..n]);
      PassSettlesEachOnce(s, ids[..n], locked[..n]);
      var settled := Winners(s, ids[..n], locked[..n]);
      WinnersGo(s, ids[..n], locked[..n]);
      TurnSettles(s, SettledAll(s, ids[..n], locked[..n]), settled, ids[n], locked[n]);
    }
  }

  lemma WinnersGo(s: State, ids: seq<Id>, locked: seq<bool>)
    requires |locked| == |ids|
    ensures forall b :: b in Winners(s, ids, locked) ==> Goes(s, b)
  {
    hide Goes;
  }
}
