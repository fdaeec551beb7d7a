/** Every way a match can be voided returns both stakes and keeps the database sound. */
module VoidSteps {
  import opened Tables
  import opened Ledger
  import opened BetExpiry
  import opened DisputeEscalation
  import opened Lifecycle
  import opened Invariant
  import opened MoneySteps

  /** Disputes keep their bet and assignments their reward, whatever else a void rewrites. */
  predicate Relabelled(s: State, t: State, bet: Id) {
    && bet in s.bets && t.bets == s.bets[bet := s.bets[bet].(status := VOIDED)]
    && t.disputes.Keys == s.disputes.Keys
    && (forall d :: d in s.disputes ==> t.disputes[d].bet == s.disputes[d].bet)
    && t.assignments.Keys == s.assignments.Keys
    && (forall b :: b in s.assignments ==> t.assignments[b].rewardPercent == s.assignments[b].rewardPercent)
  }

  /** A void under a pair of the bet's own keys. */
  lemma VoidUnder(s: State, u: State, t: State, bet: Id, a: Movement, b: Movement)
    requires Sound(s) && bet in s.bets && s.bets[bet].status.IsUnsettled()
    requires SameMoney(s, u) && bet in u.bets && SameParties(s.bets[bet], u.bets[bet])
    requires a != b && Admits(VOIDED, a) && Admits(VOIDED, b) && a != HoldA && a != HoldB && b != HoldA && b != HoldB
    requires var r := AfterRefundBoth(u, bet, BetKey(a, bet), BetKey(b, bet)); r.Done? && SameMoney(r.state, t)
    requires Relabelled(s, t, bet)
    ensures Sound(t)
  {
    hide Books, CountersAgree, Solvent, RowsSound, KeySound, AfterRefundBoth;
    ExitKeysFresh(s, bet);
    RowsFollow(s, t, bet);
    VoidKeepsSound(s, u, t, bet, BetKey(a, bet), BetKey(b, bet));
  }

  lemma VoidFrom(s: State, u: State, bet: Id, a: Movement, b: Movement)
    requires Sound(s) && bet in s.bets && s.bets[bet].status.IsUnsettled()
    requires SameMoney(s, u) && Relabelled(s, u, bet)
    requires a != b && Admits(VOIDED, a) && Admits(VOIDED, b) && a != HoldA && a != HoldB && b != HoldA && b != HoldB
    requires AfterRefundBoth(u, bet, BetKey(a, bet), BetKey(b, bet)).Done?
    ensures Sound(AfterRefundBoth(u, bet, BetKey(a, bet), BetKey(b, bet)).state)
  {
    hide Sound, AfterRefundBoth, Admits;
    VoidUnder(s, u, AfterRefundBoth(u, bet, BetKey(a, bet), BetKey(b, bet)).state, bet, a, b);
  }

  /** Both stakes are in escrow, so the branch for a bet that was never escrowed is never taken. */
  lemma UnsettledIsEscrowed(s: State, bet: Id)
    requires Sound(s) && bet in s.bets && s.bets[bet].status.IsUnsettled()
    ensures Escrow(bet) in s.balances && Bal(s, Escrow(bet)) == 2 * s.bets[bet].amount
    ensures s.bets[bet].playerB.Some?
  {
    assert RowSound(s, bet);
  }

  lemma NoShowKeepsSound(s: State, bet: Id)
    requires Sound(s) && AfterNoShow(s, bet).Done?
    ensures Sound(AfterNoShow(s, bet).state)
  {
    hide Sound, AfterRefundBoth;
    if IsUnplayed(s, bet) {
      UnsettledIsEscrowed(s, bet);
      var u := WithStatus(CancelLiveAssignment(s, bet), bet, VOIDED);
      VoidFrom(s, u, bet, NoShowA, NoShowB);
    }
  }

  lemma UnderageKeepsSound(s: State, bet: Id)
    requires Sound(s) && AfterUnderageVoid(s, bet).Done?
    ensures Sound(AfterUnderageVoid(s, bet).state)
  {
    hide Sound, AfterRefundBoth;
    if s.bets[bet].status.IsUnsettled() {
      UnsettledIsEscrowed(s, bet);
      var u := CancelOpenAssignment(WithStatus(s, bet, VOIDED), bet);
      VoidFrom(s, u, bet, UnderageA, UnderageB);
    }
  }

  lemma AutoVoidKeepsSound(s: State, dispute: Id)
    requires Sound(s) && dispute in s.disputes && s.disputes[dispute].bet in s.bets
    requires HoldsDisputedStakes(s, s.disputes[dispute].bet)
    requires AfterAutoVoid(s, dispute, s.disputes[dispute].bet).Done?
    ensures Sound(AfterAutoVoid(s, dispute, s.disputes[dispute].bet).state)
  {
    hide Sound, AfterRefundBoth;
    var bet := s.disputes[dispute].bet;
    VoidUnder(s, WithStatus(s, bet, VOIDED), AfterAutoVoid(s, dispute, bet).state, bet, DisputeVoidA, DisputeVoidB);
  }

  lemma VoidRulingKeepsSound(s: State, dispute: Id, now: int)
    requires Sound(s) && dispute in s.disputes && s.disputes[dispute].bet in s.bets
    requires s.bets[s.disputes[dispute].bet].status == DISPUTED
    requires AfterRuling(s, dispute, ForVoid, now).Done?
    ensures Sound(AfterRuling(s, dispute, ForVoid, now).state)
  {
    hide Sound, AfterRefundBoth;
    var bet := s.disputes[dispute].bet;
    var decided := Resolved(s, dispute, RESOLVED_VOID);
    var keyA, keyB := ResolveKey(true, dispute), ResolveKey(false, dispute);
    if bet in s.assignments {
      var t := AfterRefundBoth(decided, bet, keyA, keyB).state;
      RuledVoid(s, decided, WithStatus(t, bet, VOIDED).(assignments :=
        s.assignments[bet := s.assignments[bet].(status := ASG_CANCELLED)]), dispute);
    } else {
      var u := WithStatus(decided, bet, VOIDED);
      RuledVoid(s, u, AfterRefundBoth(u, bet, keyA, keyB).state, dispute);
    }
  }

  lemma RuledVoid(s: State, u: State, t: State, dispute: Id)
    requires Sound(s) && dispute in s.disputes
    requires var bet := s.disputes[dispute].bet;
             && bet in s.bets && s.bets[bet].status.IsUnsettled()
             && SameMoney(s, u) && bet in u.bets && SameParties(s.bets[bet], u.bets[bet])
             && Relabelled(s, t, bet)
             && var r := AfterRefundBoth(u, bet, ResolveKey(true, dispute), ResolveKey(false, dispute));
                r.Done? && SameMoney(r.state, t)
    ensures Sound(t)
  {
    hide Books, CountersAgree, Solvent, RowsSound, KeySound, AfterRefundBoth;
    var bet := s.disputes[dispute].bet;
    ExitKeysFresh(s, bet);
    RowsFollow(s, t, bet);
    VoidKeepsSound(s, u, t, bet, ResolveKey(true, dispute), ResolveKey(false, dispute));
  }
}
