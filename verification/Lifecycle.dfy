/**
 Everything else that moves a bet: players, referees, dispute staff, payments.
 The workers share the database with these, one serializable transaction at a time.
 */
module Lifecycle {
  import opened Tables
  import opened IdempotencyKeys
  import opened Ledger
  import opened Fees
  import opened Escrows
  import opened BetExpiry
  import opened DisputeEscalation

  // ---- proposing, consenting, accepting -----------------------------------

  /** The table constraints a new bet row must meet. */
  predicate IsProposable(s: State, bet: Id, row: Bet) {
    && bet !in s.bets && row.game in s.cat.games
    && row.amount > 0 && 0 <= row.feePercent <= WHOLE
    && (row.playerB.Some? ==> row.playerB.value != row.playerA)
    && row.status == PENDING_CONSENT
  }

  function AfterProposal(s: State, bet: Id, row: Bet): Result {
    if IsProposable(s, bet, row) then Done(s.(bets := s.bets[bet := row])) else Fail(Conflict)
  }

  function AfterConsent(s: State, bet: Id): (r: Result)
    ensures r.Done? && Books(s) ==> Books(r.state)
  {
    if bet !in s.bets || s.bets[bet].status != PENDING_CONSENT then Fail(WrongStatus)
    else
      var t :- AfterHold(s, bet, s.bets[bet].playerA, s.bets[bet].amount, HoldA);
      Done(WithStatus(t, bet, OPEN))
  }

  function AfterAccept(s: State, bet: Id, player: Id): (r: Result)
    ensures r.Done? && Books(s) ==> Books(r.state)
  {
    if bet !in s.bets || s.bets[bet].status != OPEN then Fail(WrongStatus)
    else if player == s.bets[bet].playerA then Fail(Conflict)
    else if s.bets[bet].playerB.Some? && s.bets[bet].playerB.value != player then Fail(Conflict)
    else
      var t :- AfterHold(s, bet, player, s.bets[bet].amount, HoldB);
      Done(t.(bets := t.bets[bet := t.bets[bet].(status := MATCHED, playerB := Some(player))]))
  }

  function AfterOpenAssignment(s: State, bet: Id, rewardPercent: int, now: int): Result {
    if bet !in s.bets || s.bets[bet].status != MATCHED || bet in s.assignments || !(0 <= rewardPercent <= WHOLE)
    then Fail(Conflict)
    else Done(s.(assignments := s.assignments[bet := Assignment(None, ASG_OPEN, rewardPercent, now, None, None)]))
  }

  /** Accepting a challenge proposes, consents and accepts in one transaction. */
  function AfterLobbyMatch(s: State, bet: Id, row: Bet, rewardPercent: Option<int>, now: int): (r: Result)
    ensures r.Done? && Books(s) ==> Books(r.state)
  {
    if row.playerB.None? then Fail(Conflict)
    else
      var s1 :- AfterProposal(s, bet, row);
      var s2 :- AfterConsent(s1, bet);
      var s3 :- AfterAccept(s2, bet, row.playerB.value);
      if rewardPercent.None? then Done(s3) else AfterOpenAssignment(s3, bet, rewardPercent.value, now)
  }

  // ---- results ------------------------------------------------------------

  function Reported(row: Bet, outcome: BetOutcome, verified: bool, now: int): Bet {
    row.(status := RESULT_REPORTED, outcome := Some(outcome), verified := verified, reportedAt := Some(now))
  }

  function AfterReport(s: State, bet: Id, outcome: BetOutcome, verified: bool, now: int): Result {
    if bet !in s.bets || s.bets[bet].status != MATCHED || bet in s.assignments then Fail(WrongStatus)
    else Done(s.(bets := s.bets[bet := Reported(s.bets[bet], outcome, verified, now)]))
  }

  function AfterVerification(s: State, bet: Id): Result {
    if bet !in s.bets || s.bets[bet].status != RESULT_REPORTED then Fail(WrongStatus)
    else Done(s.(bets := s.bets[bet := s.bets[bet].(verified := true)]))
  }

  // ---- the referee --------------------------------------------------------

  function AfterClaim(s: State, bet: Id, referee: Id, now: int): Result {
    if bet !in s.assignments || s.assignments[bet].status != ASG_OPEN then Fail(Conflict)
    else Done(s.(assignments := s.assignments[bet :=
      s.assignments[bet].(status := ASG_ASSIGNED, referee := Some(referee), since := now)]))
  }

  /** READY from ASSIGNED, START from READY. */
  function AfterAdvance(s: State, bet: Id, start: bool, now: int): Result {
    if bet !in s.assignments || s.assignments[bet].status != (if start then ASG_READY else ASG_ASSIGNED)
    then Fail(Conflict)
    else Done(s.(assignments := s.assignments[bet :=
      s.assignments[bet].(status := if start then ASG_IN_PROGRESS else ASG_READY, since := now)]))
  }

  const DISPUTE_WINDOW := 900_000

  function AfterDecision(s: State, bet: Id, outcome: BetOutcome, now: int): Result {
    if bet !in s.assignments || s.assignments[bet].status != ASG_IN_PROGRESS then Fail(Conflict)
    else if bet !in s.bets || s.bets[bet].status != MATCHED then Fail(WrongStatus)
    else Done(s.(
      assignments := s.assignments[bet :=
        s.assignments[bet].(status := ASG_DECISION_SUBMITTED, deadline := Some(now + DISPUTE_WINDOW))],
      bets := s.bets[bet := Reported(s.bets[bet], outcome, true, now)]))
  }

  /** Either player may pull out until the referee starts the match. */
  function AfterWithdrawal(s: State, bet: Id): (r: Result)
    ensures r.Done? && Books(s) ==> Books(r.state)
  {
    if bet !in s.bets || s.bets[bet].status != MATCHED then Fail(Conflict)
    else if bet in s.assignments && !s.assignments[bet].status.BeforeStart() then Fail(Conflict)
    else AfterNoShow(s, bet)
  }

  // ---- disputes -----------------------------------------------------------

  const FILING_WINDOW := 86_400_000

  /** What the route asks of its own reading of the bet and its assignment, before the transaction begins. */
  predicate RouteAdmits(s: State, bet: Id, now: int) {
    && bet in s.bets && s.bets[bet].status.CanDispute()
    && (if bet in s.assignments && s.assignments[bet].deadline.Some? then now < s.assignments[bet].deadline.value
        else s.bets[bet].reportedAt.Some? ==> now - s.bets[bet].reportedAt.value <= FILING_WINDOW)
  }

  /** The filing transaction, which re-reads only the bet's status. */
  function AfterDisputeFiled(s: State, dispute: Id, bet: Id): Result {
    if dispute in s.disputes || bet !in s.bets || !s.bets[bet].status.CanDispute() then Fail(Conflict)
    else
      var filed := s.(disputes := s.disputes[dispute := Dispute(bet, DSP_OPEN)]);
      var held := if s.bets[bet].status == RESULT_REPORTED then WithStatus(filed, bet, DISPUTED) else filed;
      Done(if bet !in s.assignments then held
           else held.(assignments := s.assignments[bet := s.assignments[bet].(status := ASG_DISPUTED)]))
  }

  function AfterDisputeClaimed(s: State, dispute: Id): Result {
    if dispute !in s.disputes || !s.disputes[dispute].status.IsUndecided() then Fail(Conflict)
    else Done(Resolved(s, dispute, DSP_UNDER_REVIEW))
  }

  datatype Ruling = ForA | ForB | ForDraw | ForVoid {
    function Status(): DisputeStatus {
      match this
      case ForA => RESOLVED_PLAYER_A
      case ForB => RESOLVED_PLAYER_B
      case ForDraw => RESOLVED_DRAW
      case ForVoid => RESOLVED_VOID
    }

    function Outcome(): Option<BetOutcome> {
      match this
      case ForA => Some(PLAYER_A_WIN)
      case ForB => Some(PLAYER_B_WIN)
      case ForDraw => Some(DRAW)
      case ForVoid => None
    }
  }

  /**
   The ruling transaction. That the dispute is still undecided is checked before
   the transaction begins, on a reading that can be out of date, so not here. On a
   refereed bet a ruling that names an outcome writes RESULT_REPORTED without
   looking at the bet's status.
   */
  function AfterRuling(s: State, dispute: Id, ruling: Ruling, now: int): (r: Result)
    ensures r.Done? && Books(s) ==> Books(r.state)
  {
    if dispute !in s.disputes || s.disputes[dispute].bet !in s.bets then Fail(NotFound)
    else
      var bet := s.disputes[dispute].bet;
      var row := s.bets[bet];
      var decided := Resolved(s, dispute, ruling.Status());
      var keyA, keyB := ResolveKey(true, dispute), ResolveKey(false, dispute);
      if bet in s.assignments then
        if ruling.ForVoid? then
          if row.status != DISPUTED then Fail(Conflict)
          else
            var t :- AfterRefundBoth(decided, bet, keyA, keyB);
            Done(WithStatus(t, bet, VOIDED).(assignments :=
              s.assignments[bet := s.assignments[bet].(status := ASG_CANCELLED)]))
        else
          Done(decided.(
            bets := s.bets[bet := Reported(row, ruling.Outcome().value, true, now)],
            assignments := s.assignments[bet :=
              s.assignments[bet].(status := ASG_DECISION_SUBMITTED, deadline := Some(now))]))
      else if row.status != DISPUTED then Done(decided)
      else if ruling.ForVoid? then AfterRefundBoth(WithStatus(decided, bet, VOIDED), bet, keyA, keyB)
      else Done(decided.(bets := s.bets[bet := Reported(row, ruling.Outcome().value, true, now)]))
  }

  /** An under-age account: its unsettled bets are void and both stakes go back. */
  function AfterUnderageVoid(s: State, bet: Id): (r: Result)
    ensures r.Done? && Books(s) ==> Books(r.state)
  {
    if bet !in s.bets then Fail(NotFound)
    else if !s.bets[bet].status.IsUnsettled() then Done(s)
    else
      var voided := CancelOpenAssignment(WithStatus(s, bet, VOIDED), bet);
      if Escrow(bet) !in s.balances then Done(voided)
      else AfterRefundBoth(voided, bet, BetKey(UnderageA, bet), BetKey(UnderageB, bet))
  }

  // ---- payments and caps --------------------------------------------------

  function AfterDeposit(s: State, user: Id, amount: int, reference: Id): (r: Result)
    ensures r.Done? && Books(s) ==> Books(r.state)
  {
    AfterTransfer(s, StripeSource, PlayerBalance(user), amount, DepositKey(reference))
  }

  /** Some row of the transactions table has this text. */
  predicate IsTaken(s: State, text: string) {
    text in s.clientKeys || exists k :: k in s.txns && Text(k) == text
  }

  /** A deposit request files a pending row under the text it was sent with; the money comes later. */
  function AfterDepositRequest(s: State, text: string): Result {
    if !IsRequestText(text) then Fail(Conflict)
    else if IsTaken(s, text) then Fail(KeyConflict)
    else Done(s.(clientKeys := s.clientKeys + {text}))
  }

  /** A withdrawal is filed under the text it was sent with. */
  function AfterCashOut(s: State, user: Id, amount: int, text: string): (r: Result)
    ensures r.Done? && Books(s) ==> Books(r.state)
  {
    var key := CashOutKey(text);
    if !IsRequestText(text) then Fail(Conflict)
    else if key !in s.txns && IsTaken(s, text) then Fail(KeyConflict)
    else
      var t :- AfterTransfer(s, PlayerBalance(user), StripeSink, amount, key);
      Done(t.(clientKeys := t.clientKeys + {text}))
  }

  /** A payout that Stripe refuses is put back, under a key made from the withdrawal's own. */
  function AfterReversal(s: State, user: Id, amount: int, text: string): (r: Result)
    ensures r.Done? && Books(s) ==> Books(r.state)
  {
    var key := CashOutKey(text);
    if key !in s.txns || s.txns[key] != Txn(PlayerBalance(user), StripeSink, amount) then Fail(NotFound)
    else
      var t :- AfterTransfer(s, StripeSink, PlayerBalance(user), amount, ReversalKey(text));
      if |Text(ReversalKey(text))| > KEY_WIDTH then Fail(TextTooLong) else Done(t)
  }

  function AfterCapChange(s: State, developer: Id, maxTotal: int, maxSingle: int): Result {
    if developer !in s.limits then Fail(NotFound)
    else Done(s.(limits := s.limits[developer :=
      s.limits[developer].(maxTotal := maxTotal, maxSingle := maxSingle)]))
  }
}
