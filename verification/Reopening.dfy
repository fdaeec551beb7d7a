/**
 The one request the invariant does not survive: a ruling that names an outcome on
 a refereed bet writes RESULT_REPORTED whatever the bet's status is.
 */
module Reopening {
  import opened Tables
  import opened Ledger
  import opened Settlement
  import opened Escrows
  import opened BetExpiry
  import opened DisputeEscalation
  import opened Lifecycle
  import opened Invariant
  import opened Safety
  import opened Protocol
  import opened Runs
  import opened Scenario
  import opened Stranded

  /** On a refereed bet the ruling is safe exactly when the bet has not already left. */
  lemma RulingSafeIff(s: State, dispute: Id, ruling: Ruling, now: int)
    requires Sound(s) && dispute in s.disputes && s.disputes[dispute].bet in s.assignments
    requires ruling != ForVoid
    ensures s.disputes[dispute].bet in s.bets
    ensures Sound(Apply(s, Rules(dispute, ruling, now))) <==> !s.bets[s.disputes[dispute].bet].status.IsTerminal()
  {
    hide Books, CountersAgree, Solvent, KeySound;
    var bet := s.disputes[dispute].bet;
    assert DisputeSound(s, dispute);
    assert RowSound(s, bet);
    if s.bets[bet].status.IsTerminal() {
      ReopenedIsUnsound(s, dispute, ruling, now);
    } else {
      StepKeepsSound(s, Rules(dispute, ruling, now));
    }
  }

  lemma ReopenedIsUnsound(s: State, dispute: Id, ruling: Ruling, now: int)
    requires dispute in s.disputes && s.disputes[dispute].bet in s.assignments && s.disputes[dispute].bet in s.bets
    requires RowSound(s, s.disputes[dispute].bet) && s.bets[s.disputes[dispute].bet].status.IsTerminal()
    requires ruling != ForVoid
    ensures !Sound(Apply(s, Rules(dispute, ruling, now)))
    ensures s.bets[s.disputes[dispute].bet].status != CANCELLED ==>
              SettleAttempt(Apply(s, Rules(dispute, ruling, now)), s.disputes[dispute].bet, true)
              in {Failed(NoEscrowAccount), Failed(EscrowMismatch)}
  {
    hide Books, CountersAgree, Solvent, KeySound, AfterMoney;
    var bet := s.disputes[dispute].bet;
    var t := Apply(s, Rules(dispute, ruling, now));
    assert t.bets[bet].status == RESULT_REPORTED && Bal(t, Escrow(bet)) == Bal(s, Escrow(bet)) == 0;
    assert !RowSound(t, bet);
  }

  // ---- such a state is reachable ------------------------------------------

  lemma FilingGoes(s: State)
    requires Decided(s, 500) && s.disputes == map[]
    ensures var r := AfterDisputeFiled(s, D, M);
            && r.Done? && Staked(r.state, Reported(Stake(500), PLAYER_A_WIN, true, 0).(status := DISPUTED))
            && r.state.disputes == map[D := Dispute(M, DSP_OPEN)]
  {
  }

  lemma VoidApplies(s: State, t: State)
    ensures Apply(s, FilesDispute(D, M)) == OrSame(s, AfterDisputeFiled(s, D, M))
    ensures Apply(t, VoidsUnderage(M)) == OrSame(t, AfterUnderageVoid(t, M))
  {
    hide AfterDisputeFiled, AfterUnderageVoid;
  }

  lemma UnderageGoes(s: State)
    requires Staked(s, Reported(Stake(500), PLAYER_A_WIN, true, 0).(status := DISPUTED))
    ensures var r := AfterUnderageVoid(s, M);
            && r.Done? && r.state.bets == map[M := s.bets[M].(status := VOIDED)]
            && M in r.state.assignments && r.state.disputes == s.disputes
  {
    hide AfterRefundBoth;
    var u := CancelOpenAssignment(WithStatus(s, M, VOIDED), M);
    RefundsGo(u);
  }

  lemma RefundsGo(s: State)
    requires M in s.bets && s.bets[M] == Reported(Stake(500), PLAYER_A_WIN, true, 0).(status := VOIDED)
    requires s.limits == map[] && s.clientKeys == {} && s.cat == Empty().cat
    requires Escrow(M) in s.balances && Bal(s, Escrow(M)) == 200
    requires BetKey(UnderageA, M) !in s.txns && BetKey(UnderageB, M) !in s.txns
    ensures AfterRefundBoth(s, M, BetKey(UnderageA, M), BetKey(UnderageB, M)).Done?
  {
    hide AfterRefund, Bal;
    RefundGoes(s, A, UnderageA);
    var t := AfterRefund(s, M, A, 100, BetKey(UnderageA, M)).state;
    RefundGoes(t, B, UnderageB);
  }

  lemma RefundGoes(s: State, player: Id, movement: Movement)
    requires M in s.bets && s.bets[M].status == VOIDED && s.limits == map[]
    requires s.clientKeys == {} && s.cat == Empty().cat
    requires Escrow(M) in s.balances && Bal(s, Escrow(M)) >= 100 && BetKey(movement, M) !in s.txns
    ensures var r := AfterRefund(s, M, player, 100, BetKey(movement, M));
            && r.Done? && r.state.limits == map[]
            && Moves(s, r.state, Escrow(M), PlayerBalance(player), 100, BetKey(movement, M))
  {
    RefundEffect(s, M, player, 100, BetKey(movement, M));
  }

  /** Matched and refereed, disputed, then voided because a player is under age. */
  function VoidedInDispute(): seq<Step> {
    Opening(500) + [FilesDispute(D, M), VoidsUnderage(M)]
  }

  /** Where the run ends: the bet is refunded and final, and its dispute is still open. */
  lemma VoidedInDisputeRuns()
    ensures var t := Run(Empty(), VoidedInDispute());
            && M in t.bets && t.bets[M].status == VOIDED && M in t.assignments
            && t.disputes == map[D := Dispute(M, DSP_OPEN)]
  {
    hide Apply, Staked, Run, Opening, AfterDisputeFiled, AfterUnderageVoid;
    var steps := VoidedInDispute();
    OpeningRuns(500);
    var s7 := Run(Empty(), Opening(500));
    FilingGoes(s7);
    var s8 := AfterDisputeFiled(s7, D, M).state;
    UnderageGoes(s8);
    VoidApplies(s7, s8);
    RunExtends(Empty(), Opening(500), FilesDispute(D, M));
    RunExtends(Empty(), Opening(500) + [FilesDispute(D, M)], VoidsUnderage(M));
    assert steps == Opening(500) + [FilesDispute(D, M)] + [VoidsUnderage(M)];
  }

  /**
   A run from an empty database in which no step reopens anything, after which a
   ruling does: the bet was refunded in full, reads RESULT_REPORTED again, and no
   later run settles it.
   */
  lemma ReopeningIsReachable(later: seq<Step>)
    ensures Initial(Empty()) && NeverReopens(Empty(), VoidedInDispute())
    ensures var t := Run(Empty(), VoidedInDispute());
            && Reopens(t, Rules(D, ForA, 1)) && M in t.bets && t.bets[M].status == VOIDED
            && var u := Apply(t, Rules(D, ForA, 1));
               && !Sound(u) && M in u.bets && u.bets[M].status == RESULT_REPORTED
               && SettleAttempt(u, M, true) in {Failed(NoEscrowAccount), Failed(EscrowMismatch)}
               && !SettleAttempt(Run(u, later), M, true).Committed?
  {
    hide Apply, Run, Sound, RowSound, SettleAttempt, Opening;
    VoidedInDisputeRuns();
    var t := Run(Empty(), VoidedInDispute());
    OpeningIsLegal(500, [FilesDispute(D, M), VoidsUnderage(M)]);
    LegalParts(t);
    SoundRow(t);
    ReopenedIsUnsound(t, D, ForA, 1);
    ReopenedNeverSettles(t, D, ForA, 1, later, true);
    RulesReports(t);
  }

  lemma SoundRow(t: State)
    requires Sound(t) && M in t.bets
    ensures RowSound(t, M)
  {
  }

  lemma RulesReports(t: State)
    requires t.disputes == map[D := Dispute(M, DSP_OPEN)] && M in t.bets && M in t.assignments
    ensures var u := Apply(t, Rules(D, ForA, 1)); M in u.bets && u.bets[M].status == RESULT_REPORTED
  {
    hide AfterRefundBoth;
  }
}
