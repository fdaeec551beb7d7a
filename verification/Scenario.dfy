/** Concrete runs from an empty database, to show that what is claimed to happen can. */
module Scenario {
  import opened Tables
  import opened Ledger
  import opened Escrows
  import opened Lifecycle
  import opened Invariant
  import opened Protocol
  import opened Runs
  import Fees
  import MoneySteps

  const A := Id("a")
  const B := Id("b")
  const M := Id("m")
  const R := Id("r")
  const D := Id("d")

  function Empty(): State {
    State(map[], map[], [], map[], map[], map[], map[], {},
          Catalogue(map[M := M], map[M := Developer(M, 0)], {}))
  }

  function Stake(percent: int): Bet {
    Bet(M, A, Some(B), 100, percent, PENDING_CONSENT, None, false, None, 0, None)
  }

  /** Funded, matched, refereed and decided for player A. */
  function Opening(percent: int): seq<Step> {
    [Deposits(A, 100, A), Deposits(B, 100, B), MatchesInLobby(M, Stake(percent), Some(1000), 0),
     Claims(M, R, 0), Advances(M, false, 0), Advances(M, true, 0), Decides(M, PLAYER_A_WIN, 0)]
  }

  lemma RunExtends(s: State, steps: seq<Step>, step: Step)
    ensures Run(s, steps + [step]) == Apply(Run(s, steps), step)
  {
    assert (steps + [step])[..|steps|] == steps;
  }

  lemma DepositGoes(s: State, user: Id)
    requires s.cat == Empty().cat && s.clientKeys == {} && DepositKey(user) !in s.txns
    ensures var t := Apply(s, Deposits(user, 100, user));
            && OnlyLedger(s, t)
            && Moves(s, t, StripeSource, PlayerBalance(user), 100, DepositKey(user))
  {
    hide Apply, Books;
    DepositApplies(s, user);
    TransferEffect(s, StripeSource, PlayerBalance(user), 100, DepositKey(user));
  }

  lemma DepositApplies(s: State, user: Id)
    ensures Apply(s, Deposits(user, 100, user))
            == OrSame(s, AfterTransfer(s, StripeSource, PlayerBalance(user), 100, DepositKey(user)))
  {
    hide AfterTransfer;
  }

  lemma HoldGoes(s: State, player: Id, movement: Movement)
    requires s.cat == Empty().cat && s.clientKeys == {} && s.limits == map[] && M in s.bets
    requires s.bets[M].game == M && s.bets[M].status.CanHold() && BetKey(movement, M) !in s.txns
    requires Bal(s, PlayerBalance(player)) >= 100
    ensures var r := AfterHold(s, M, player, 100, movement);
            && r.Done? && OnlyMoney(s, r.state)
            && Moves(s, r.state, PlayerBalance(player), Escrow(M), 100, BetKey(movement, M))
  {
    hide Books;
    HoldEffect(s, M, player, 100, movement);
  }

  /** Both players are funded. */
  ghost predicate Funded(s: State) {
    && s.bets == map[] && s.assignments == map[] && s.disputes == map[] && s.limits == map[]
    && s.clientKeys == {} && s.cat == Empty().cat
    && s.txns.Keys == {DepositKey(A), DepositKey(B)}
    && (forall b: Id :: Escrow(b) !in s.balances)
    && Bal(s, PlayerBalance(A)) == 100 && Bal(s, PlayerBalance(B)) == 100
  }

  /** The bet is in the given phase with its assignment, both stakes held, no way out used. */
  ghost predicate Staked(s: State, row: Bet) {
    && s.bets == map[M := row] && M in s.assignments && s.limits == map[]
    && s.clientKeys == {} && s.cat == Empty().cat
    && s.txns.Keys == {DepositKey(A), DepositKey(B), BetKey(HoldA, M), BetKey(HoldB, M)}
    && Escrow(M) in s.balances && Bal(s, Escrow(M)) == 200
  }

  lemma FundingRuns(percent: int)
    ensures Funded(Run(Empty(), Opening(percent)[..2]))
  {
    hide Apply, Bal;
    var steps := Opening(percent);
    var s0 := Empty();
    RunExtends(s0, [], steps[0]);
    assert steps[..1] == [] + [steps[0]];
    RunExtends(s0, steps[..1], steps[1]);
    assert steps[..2] == steps[..1] + [steps[1]];
    assert A != B;
    DepositGoes(s0, A);
    DepositGoes(Apply(s0, steps[0]), B);
    NoBalances(s0);
  }

  lemma NoBalances(s: State)
    requires s.balances == map[]
    ensures forall a :: Bal(s, a) == 0
  {
  }

  /** Between the holds: the bet is in `row`'s phase, `held` is in escrow and B still has the stake. */
  ghost predicate Between(s: State, row: Bet, keys: set<Key>, held: int) {
    && s.bets == map[M := row] && s.assignments == map[] && s.disputes == map[] && s.limits == map[]
    && s.clientKeys == {} && s.cat == Empty().cat && s.txns.Keys == {DepositKey(A), DepositKey(B)} + keys
    && Bal(s, Escrow(M)) == held && (held > 0 ==> Escrow(M) in s.balances)
    && (held == 0 ==> Bal(s, PlayerBalance(A)) == 100) && (held <= 100 ==> Bal(s, PlayerBalance(B)) == 100)
  }

  lemma ConsentRuns(s: State, percent: int)
    requires Between(s, Stake(percent), {}, 0)
    ensures var r := AfterConsent(s, M);
            r.Done? && Between(r.state, Stake(percent).(status := OPEN), {BetKey(HoldA, M)}, 100)
  {
    hide AfterHold, Bal;
    assert A != B;
    HoldGoes(s, A, HoldA);
    MoneySteps.BalSame(AfterHold(s, M, A, 100, HoldA).state, AfterConsent(s, M).state);
  }

  lemma AcceptRuns(s: State, percent: int)
    requires Between(s, Stake(percent).(status := OPEN), {BetKey(HoldA, M)}, 100)
    ensures var r := AfterAccept(s, M, B);
            r.Done? && Between(r.state, Stake(percent).(status := MATCHED), {BetKey(HoldA, M), BetKey(HoldB, M)}, 200)
  {
    hide AfterHold, Bal;
    HoldGoes(s, B, HoldB);
    MoneySteps.BalSame(AfterHold(s, M, B, 100, HoldB).state, AfterAccept(s, M, B).state);
  }

  lemma LobbyRuns(s: State, percent: int)
    requires Funded(s) && 0 <= percent <= Fees.WHOLE
    ensures var t := Apply(s, MatchesInLobby(M, Stake(percent), Some(1000), 0));
            && Staked(t, Stake(percent).(status := MATCHED)) && t.disputes == map[]
            && t.assignments == map[M := Assignment(None, ASG_OPEN, 1000, 0, None, None)]
  {
    hide AfterConsent, AfterAccept, AfterProposal, AfterOpenAssignment, Bal, Between, Staked;
    ProposalRuns(s, percent);
    var s1 := AfterProposal(s, M, Stake(percent)).state;
    ConsentRuns(s1, percent);
    var s2 := AfterConsent(s1, M).state;
    AcceptRuns(s2, percent);
    AssignmentRuns(AfterAccept(s2, M, B).state, percent);
  }

  lemma ProposalRuns(s: State, percent: int)
    requires Funded(s) && 0 <= percent <= Fees.WHOLE
    ensures var r := AfterProposal(s, M, Stake(percent)); r.Done? && Between(r.state, Stake(percent), {}, 0)
  {
    hide Bal;
    var s1 := AfterProposal(s, M, Stake(percent)).state;
    assert Escrow(M) !in s.balances;
    NoEscrowYet(s1);
    MoneySteps.BalSame(s, s1);
  }

  lemma AssignmentRuns(s: State, percent: int)
    requires Between(s, Stake(percent).(status := MATCHED), {BetKey(HoldA, M), BetKey(HoldB, M)}, 200)
    ensures var r := AfterOpenAssignment(s, M, 1000, 0);
            && r.Done? && Staked(r.state, Stake(percent).(status := MATCHED)) && r.state.disputes == map[]
            && r.state.assignments == map[M := Assignment(None, ASG_OPEN, 1000, 0, None, None)]
  {
    hide Bal;
    MoneySteps.BalSame(s, AfterOpenAssignment(s, M, 1000, 0).state);
  }

  lemma NoEscrowYet(s: State)
    requires Escrow(M) !in s.balances
    ensures Bal(s, Escrow(M)) == 0
  {
  }

  function Refereed(s: State, referee: Option<Id>, status: AssignmentStatus): State {
    s.(assignments := map[M := Assignment(referee, status, 1000, 0, None, None)])
  }

  lemma ClaimGoes(s: State)
    requires s == Refereed(s, None, ASG_OPEN)
    ensures AfterClaim(s, M, R, 0) == Done(Refereed(s, Some(R), ASG_ASSIGNED))
  {
  }

  lemma AdvanceGoes(s: State, start: bool)
    requires s == Refereed(s, Some(R), if start then ASG_READY else ASG_ASSIGNED)
    ensures AfterAdvance(s, M, start, 0) == Done(Refereed(s, Some(R), if start then ASG_IN_PROGRESS else ASG_READY))
  {
  }

  /** Only the referee's own row moves. */
  lemma RefereeStarts(s: State, percent: int)
    requires s == Refereed(s, None, ASG_OPEN)
    ensures Run(s, Opening(percent)[3..6]) == Refereed(s, Some(R), ASG_IN_PROGRESS)
  {
    hide AfterClaim, AfterAdvance;
    var steps := [Claims(M, R, 0), Advances(M, false, 0), Advances(M, true, 0)];
    assert Opening(percent)[3..6] == steps;
    RunsThree(s, steps[0], steps[1], steps[2]);
    ClaimGoes(s);
    AdvanceGoes(Refereed(s, Some(R), ASG_ASSIGNED), false);
    AdvanceGoes(Refereed(s, Some(R), ASG_READY), true);
  }

  lemma RunsThree(s: State, a: Step, b: Step, c: Step)
    ensures Run(s, [a, b, c]) == Apply(Apply(Apply(s, a), b), c)
  {
    hide Apply;
    RunExtends(s, [a, b], c);
    RunExtends(s, [a], b);
    RunExtends(s, [], a);
    assert [a, b, c] == [a, b] + [c] && [a, b] == [a] + [b] && [a] == [] + [a];
  }

  /** Where the opening ends: the result stands, both stakes are held, and the dispute window is open. */
  ghost predicate Decided(s: State, percent: int) {
    && Staked(s, Reported(Stake(percent), PLAYER_A_WIN, true, 0))
    && s.assignments == map[M := Assignment(Some(R), ASG_DECISION_SUBMITTED, 1000, 0, Some(DISPUTE_WINDOW), None)]
  }

  lemma DecisionGoes(s: State, percent: int)
    requires Staked(s, Stake(percent).(status := MATCHED)) && s == Refereed(s, Some(R), ASG_IN_PROGRESS)
    ensures var r := AfterDecision(s, M, PLAYER_A_WIN, 0);
            && r.Done? && Decided(r.state, percent) && r.state.disputes == s.disputes
  {
  }

  lemma StakedCarries(s: State, t: State, percent: int)
    requires Staked(s, Stake(percent).(status := MATCHED)) && t == s.(assignments := t.assignments) && M in t.assignments
    ensures Staked(t, Stake(percent).(status := MATCHED))
  {
  }


  lemma OpeningRuns(percent: int)
    requires 0 <= percent <= Fees.WHOLE
    ensures var t := Run(Empty(), Opening(percent)); Decided(t, percent) && t.disputes == map[]
  {
    hide Apply, Staked, Funded, Run, Decided, AfterDecision;
    var steps := Opening(percent);
    FundingRuns(percent);
    var s2 := Run(Empty(), steps[..2]);
    LobbyRuns(s2, percent);
    RunExtends(Empty(), steps[..2], steps[2]);
    assert steps[..3] == steps[..2] + [steps[2]];
    var s3 := Run(Empty(), steps[..3]);
    RefereeStarts(s3, percent);
    RunConcat(Empty(), steps[..3], steps[3..6]);
    assert steps[..6] == steps[..3] + steps[3..6];
    var s6 := Run(Empty(), steps[..6]);
    StakedCarries(s3, s6, percent);
    DecisionGoes(s6, percent);
    DecisionApplies(s6);
    RunExtends(Empty(), steps[..6], steps[6]);
    assert steps == steps[..6] + [steps[6]];
  }

  lemma DecisionApplies(s: State)
    ensures Apply(s, Decides(M, PLAYER_A_WIN, 0)) == OrSame(s, AfterDecision(s, M, PLAYER_A_WIN, 0))
  {
    hide AfterDecision;
  }

  /** Nothing in the opening can reopen a bet, so all that runs keep holds at its end. */
  lemma OpeningIsLegal(percent: int, more: seq<Step>)
    requires forall i :: 0 <= i < |more| ==> !more[i].Rules?
    ensures Initial(Empty()) && NeverReopens(Empty(), Opening(percent) + more)
    ensures Legal(Run(Empty(), Opening(percent) + more))
  {
    hide Apply, Run, Legal;
    var steps := Opening(percent) + more;
    assert forall i :: 0 <= i < |steps| ==> !steps[i].Rules?;
    InitialIsLegal(Empty());
    RunKeepsLegal(Empty(), steps);
  }
}
