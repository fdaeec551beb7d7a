/** The concurrent money-moving state machine: every step of every worker and request handler. */
module Protocol {
  import opened Tables
  import opened Settlement
  import opened BetExpiry
  import opened ConsentExpiry
  import opened DisputeEscalation
  import opened Lifecycle

  datatype Step =
    // the workers
    | ConsentExpires(bet: Id)
    | Expires(bet: Id, locked: bool)
    | NoShow(bet: Id, locked: bool)
    | Sweeps(bet: Id, now: int, locked: bool)
    | SettlesBet(bet: Id, locked: bool)
    | Escalates(dispute: Id)
    | AutoVoids(dispute: Id, bet: Id, locked: bool)
    // players, referees, dispute staff, payments
    | Proposes(bet: Id, row: Bet)
    | Consents(bet: Id)
    | Accepts(bet: Id, player: Id)
    | MatchesInLobby(bet: Id, row: Bet, reward: Option<int>, now: int)
    | Reports(bet: Id, outcome: BetOutcome, verified: bool, now: int)
    | Verifies(bet: Id)
    | Claims(bet: Id, referee: Id, now: int)
    | Advances(bet: Id, start: bool, now: int)
    | Decides(bet: Id, outcome: BetOutcome, now: int)
    | Withdraws(bet: Id)
    | FilesDispute(dispute: Id, bet: Id)
    | ClaimsDispute(dispute: Id)
    | Rules(dispute: Id, ruling: Ruling, now: int)
    | VoidsUnderage(bet: Id)
    | Deposits(user: Id, amount: int, reference: Id)
    | RequestsDeposit(text: string)
    | CashesOut(user: Id, amount: int, text: string)
    | Reverses(user: Id, amount: int, text: string)
    | ChangesCaps(developer: Id, maxTotal: int, maxSingle: int)

  /** A transaction that throws leaves the database as it was. */
  function OrSame(s: State, r: Result): State {
    if r.Done? then r.state else s
  }

  function Apply(s: State, step: Step): State {
    match step
    case ConsentExpires(bet) => AfterConsentExpiry(s, bet)
    case Expires(bet, locked) => ExpireAttempt(s, bet, locked).Outcome(s)
    case NoShow(bet, locked) => NoShowAttempt(s, bet, locked).Outcome(s)
    case Sweeps(bet, now, locked) => SweepAttempt(s, bet, now, locked).Outcome(s)
    case SettlesBet(bet, locked) => SettleAttempt(s, bet, locked).Outcome(s)
    case Escalates(dispute) => AfterEscalation(s, dispute)
    case AutoVoids(dispute, bet, locked) =>
      // a dispute row's bet never changes, so the scanned id is the row's own
      if dispute in s.disputes && s.disputes[dispute].bet == bet
      then AutoVoidAttempt(s, dispute, bet, locked).Outcome(s) else s
    case Proposes(bet, row) => OrSame(s, AfterProposal(s, bet, row))
    case Consents(bet) => OrSame(s, AfterConsent(s, bet))
    case Accepts(bet, player) => OrSame(s, AfterAccept(s, bet, player))
    case MatchesInLobby(bet, row, reward, now) => OrSame(s, AfterLobbyMatch(s, bet, row, reward, now))
    case Reports(bet, outcome, verified, now) => OrSame(s, AfterReport(s, bet, outcome, verified, now))
    case Verifies(bet) => OrSame(s, AfterVerification(s, bet))
    case Claims(bet, referee, now) => OrSame(s, AfterClaim(s, bet, referee, now))
    case Advances(bet, start, now) => OrSame(s, AfterAdvance(s, bet, start, now))
    case Decides(bet, outcome, now) => OrSame(s, AfterDecision(s, bet, outcome, now))
    case Withdraws(bet) => OrSame(s, AfterWithdrawal(s, bet))
    case FilesDispute(dispute, bet) => OrSame(s, AfterDisputeFiled(s, dispute, bet))
    case ClaimsDispute(dispute) => OrSame(s, AfterDisputeClaimed(s, dispute))
    case Rules(dispute, ruling, now) => OrSame(s, AfterRuling(s, dispute, ruling, now))
    case VoidsUnderage(bet) => OrSame(s, AfterUnderageVoid(s, bet))
    case Deposits(user, amount, reference) => OrSame(s, AfterDeposit(s, user, amount, reference))
    case RequestsDeposit(text) => OrSame(s, AfterDepositRequest(s, text))
    case CashesOut(user, amount, text) => OrSame(s, AfterCashOut(s, user, amount, text))
    case Reverses(user, amount, text) => OrSame(s, AfterReversal(s, user, amount, text))
    case ChangesCaps(developer, maxTotal, maxSingle) => OrSame(s, AfterCapChange(s, developer, maxTotal, maxSingle))
  }

  function Run(s: State, steps: seq<Step>): State {
    if steps == [] then s else Apply(Run(s, steps[..|steps| - 1]), steps[|steps| - 1])
  }
}
