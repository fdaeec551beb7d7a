/**
 The database tables the workers share, with money in whole pence (cents in the
 code's own variable names) and percentages in ten-thousandths, as the columns
 are DECIMAL(_, 2) and DECIMAL(5, 4).
 */
module Tables {

  datatype Option<+T> = None | Some(value: T)

  /** A row's uuid. */
  datatype Id = Id(text: string)

  // ---- rows ---------------------------------------------------------------

  datatype BetStatus =
    | PENDING_CONSENT | OPEN | MATCHED | RESULT_REPORTED
    | DISPUTED | SETTLED | CANCELLED | VOIDED
  {
    predicate IsTerminal() { SETTLED? || CANCELLED? || VOIDED? }
    predicate IsUnsettled() { MATCHED? || RESULT_REPORTED? || DISPUTED? }
    predicate IsActive() { OPEN? || IsUnsettled() }
    /** Two players staked on it at some time. */
    predicate HadOpponent() { !PENDING_CONSENT? && !OPEN? && !CANCELLED? }
    /** The bet has a result, standing, contested or paid. */
    predicate HasResult() { RESULT_REPORTED? || DISPUTED? || SETTLED? }
    predicate CanHold() { PENDING_CONSENT? || OPEN? }
    predicate CanRelease() { RESULT_REPORTED? || DISPUTED? || SETTLED? }
    predicate CanRefund() { OPEN? || MATCHED? || CANCELLED? || DISPUTED? || VOIDED? }
    predicate CanDispute() { RESULT_REPORTED? || SETTLED? }
  }

  datatype BetOutcome = PLAYER_A_WIN | PLAYER_B_WIN | DRAW

  datatype Bet = Bet(
    game: Id, playerA: Id, playerB: Option<Id>, amount: int, feePercent: int,
    status: BetStatus, outcome: Option<BetOutcome>, verified: bool,
    reportedAt: Option<int>, expiresAt: int, feeTaken: Option<int>)

  datatype AssignmentStatus =
    | ASG_OPEN | ASG_ASSIGNED | ASG_READY | ASG_IN_PROGRESS
    | ASG_DECISION_SUBMITTED | ASG_DISPUTED | ASG_COMPLETED | ASG_CANCELLED
  {
    predicate BeforeStart() { ASG_OPEN? || ASG_ASSIGNED? || ASG_READY? }
    predicate IsLive() { BeforeStart() || ASG_IN_PROGRESS? }
    predicate IsClosed() { ASG_COMPLETED? || ASG_CANCELLED? }
  }

  /** `since` is the timestamp the referee sweep compares for the current status. */
  datatype Assignment = Assignment(
    referee: Option<Id>, status: AssignmentStatus, rewardPercent: int,
    since: int, deadline: Option<int>, reward: Option<int>)

  datatype DisputeStatus =
    | DSP_OPEN | DSP_UNDER_REVIEW | RESOLVED_PLAYER_A | RESOLVED_PLAYER_B
    | RESOLVED_DRAW | RESOLVED_VOID
  {
    predicate IsUndecided() { DSP_OPEN? || DSP_UNDER_REVIEW? }
  }

  datatype Dispute = Dispute(bet: Id, status: DisputeStatus)

  datatype Limit = Limit(current: int, maxTotal: int, maxSingle: int)

  datatype Developer = Developer(user: Id, revShare: int)

  /** What no worker writes: which developer owns a game, and which accounts are frozen. */
  datatype Catalogue = Catalogue(games: map<Id, Id>, developers: map<Id, Developer>, frozen: set<Account>)

  // ---- the ledger ---------------------------------------------------------

  datatype Account =
    | PlayerBalance(user: Id) | DeveloperBalance(user: Id) | Escrow(bet: Id)
    | PlatformRevenue | StripeSource | StripeSink

  /** The movement an idempotency key names; IdempotencyKeys renders them as text. */
  datatype Movement =
    | HoldA | HoldB
    | Fee | RefereeReward | DevShare | Release | ReleaseA | ReleaseB
    | ExpiryRefund
    | DisputeVoidA | DisputeVoidB | NoShowA | NoShowB | UnderageA | UnderageB

  /** A withdrawal is filed under the text its customer sent, everything else under a text the code builds. */
  datatype Key =
    | BetKey(movement: Movement, bet: Id)
    | ResolveKey(sideA: bool, dispute: Id)
    | DepositKey(reference: Id)
    | CashOutKey(text: string)
    | ReversalKey(text: string)

  datatype Txn = Txn(from: Account, to: Account, amount: int)

  datatype Entry = Entry(account: Account, key: Key, amount: int, balanceAfter: int)

  // ---- the whole database -------------------------------------------------

  /**
   `clientKeys`: the texts in the transactions' unique key column that deposit and
   withdrawal requests brought along, whatever has become of their rows.
   */
  datatype State = State(
    balances: map<Account, int>, txns: map<Key, Txn>, entries: seq<Entry>,
    bets: map<Id, Bet>, assignments: map<Id, Assignment>, disputes: map<Id, Dispute>,
    limits: map<Id, Limit>, clientKeys: set<string>, cat: Catalogue)

  function BalanceIn(balances: map<Account, int>, a: Account): int {
    if a in balances then balances[a] else 0
  }

  function Bal(s: State, a: Account): int {
    BalanceIn(s.balances, a)
  }

  function DeveloperOf(s: State, game: Id): Option<Id> {
    if game in s.cat.games then Some(s.cat.games[game]) else None
  }

  // ---- transactions -------------------------------------------------------

  datatype Error =
    | NonPositiveAmount | SameAccount | KeyConflict | FrozenAccount | InsufficientFunds
    | WrongStatus | NoEscrowAccount | EscrowShort | EscrowMismatch | EscrowNotEmptied
    | RevenueShort | CapExceeded | NotFound | NoRefereeProfile | UnescrowedMovement | TextTooLong
    | Conflict

  /** The value of one step inside a transaction; `Fail` is a thrown exception. */
  datatype Result = Done(state: State) | Fail(error: Error) {
    predicate IsFailure() { Fail? }
    function PropagateFailure(): Result requires Fail? { this }
    function Extract(): State requires Done? { state }
  }

  /** A method inside a transaction returns the exception it would throw, if any. */
  function Returned(error: Option<Error>, now: State): Result {
    if error.None? then Done(now) else Fail(error.value)
  }

  /** What a per-bet transaction came to: a throw rolls everything back. */
  datatype Attempt = Skipped | Failed(error: Error) | Committed(state: State) {
    function Outcome(before: State): State {
      if Committed? then state else before
    }
  }

  function Attempted(r: Result): Attempt {
    match r
    case Done(t) => Committed(t)
    case Fail(e) => Failed(e)
  }

  /** The mutable database. Every table is a field; `Now` is its contents as a value. */
  class Database {
    var balances: map<Account, int>
    var txns: map<Key, Txn>
    var entries: seq<Entry>
    var bets: map<Id, Bet>
    var assignments: map<Id, Assignment>
    var disputes: map<Id, Dispute>
    var limits: map<Id, Limit>
    var clientKeys: set<string>
    const cat: Catalogue

    constructor (cat: Catalogue)
      ensures Now() == State(map[], map[], [], map[], map[], map[], map[], {}, cat)
    {
      this.cat := cat;
      balances, txns, entries := map[], map[], [];
      bets, assignments, disputes, limits, clientKeys := map[], map[], map[], map[], {};
    }

    function Now(): State
      reads this
    {
      State(balances, txns, entries, bets, assignments, disputes, limits, clientKeys, cat)
    }

    function Balance(a: Account): (r: int)
      reads this
      ensures r == Bal(Now(), a)
    {
      if a in balances then balances[a] else 0
    }

    /** ROLLBACK: every table goes back to the snapshot taken when the transaction began. */
    method Rollback(saved: State)
      requires saved.cat == cat
      modifies this
      ensures Now() == saved
    {
      balances, txns, entries := saved.balances, saved.txns, saved.entries;
      bets, assignments := saved.bets, saved.assignments;
      disputes, limits, clientKeys := saved.disputes, saved.limits, saved.clientKeys;
    }
  }
}
