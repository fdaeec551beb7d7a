/** A customer's deposit limit: lowering it is immediate, raising or removing it waits a day. */
module DepositLimits {
  import opened Tables

  const HOUR := 3_600_000
  const LIMIT_INCREASE_DELAY := 24 * HOUR
  const MAX_DEPOSIT_LIMIT := 100_000_000

  /** The stored columns of one limit; amounts in pence, times in milliseconds. */
  datatype Terms = Terms(amount: int, pending: Option<int>, effectiveAt: Option<int>, removal: bool)

  function Plain(amount: int): Terms {
    Terms(amount, None, None, false)
  }

  predicate Due(terms: Terms, now: int) {
    terms.effectiveAt.Some? && terms.effectiveAt.value <= now
  }

  /** A staged increase whose time has come. */
  predicate Matured(terms: Terms, now: int) {
    terms.pending.Some? && Due(terms, now)
  }

  /** The stored row as it applies at `now`, whether or not the worker has tidied it. */
  function Resolve(row: Option<Terms>, now: int): Option<Terms> {
    if row.None? || (row.value.removal && Due(row.value, now)) then None
    else if Matured(row.value, now) then Some(Terms(row.value.pending.value, None, None, row.value.removal))
    else row
  }

  /** The limit in force at `now`, if any. */
  function Effective(row: Option<Terms>, now: int): Option<int> {
    var current := Resolve(row, now);
    if current.None? then None else Some(current.value.amount)
  }

  // ---- what the customer can do -------------------------------------------

  datatype Change = Set(amount: int) | Cancel | Remove

  predicate IsValidLimit(amount: int) {
    0 < amount <= MAX_DEPOSIT_LIMIT
  }

  /** An invalid amount throws before anything is read. */
  function Changed(row: Option<Terms>, change: Change, now: int): Option<Terms> {
    match change
    case Cancel => if row.None? then None else Some(Plain(row.value.amount))
    case Set(amount) =>
      var current := Resolve(row, now);
      if !IsValidLimit(amount) then row
      else if current.None? || amount <= current.value.amount then Some(Plain(amount))
      else Some(Terms(current.value.amount, Some(amount), Some(now + LIMIT_INCREASE_DELAY), false))
    case Remove =>
      var current := Resolve(row, now);
      if current.None? || (current.value.removal && current.value.effectiveAt.Some?) then row
      else Some(Terms(current.value.amount, None, Some(now + LIMIT_INCREASE_DELAY), true))
  }

  /** The shape every stored row has: one staged thing at a time, and a staged amount is an increase. */
  predicate IsShaped(row: Option<Terms>) {
    row.Some? ==>
      && IsValidLimit(row.value.amount)
      && (row.value.pending.Some? ==> row.value.amount < row.value.pending.value && IsValidLimit(row.value.pending.value))
      && (row.value.effectiveAt.Some? <==> row.value.pending.Some? || row.value.removal)
      && !(row.value.pending.Some? && row.value.removal)
  }

  lemma ChangeKeepsShape(row: Option<Terms>, change: Change, now: int)
    requires IsShaped(row)
    ensures IsShaped(Changed(row, change, now))
  {
  }

  /** As the customer is told: a reduction works straight away, an increase after exactly 24 hours. */
  lemma SetTakesEffect(row: Option<Terms>, amount: int, now: int, t: int)
    requires IsShaped(row) && IsValidLimit(amount) && now <= t
    ensures var before := Effective(row, now);
            Effective(Changed(row, Set(amount), now), t)
            == if before.None? || amount <= before.value || now + LIMIT_INCREASE_DELAY <= t then Some(amount) else before
  {
  }

  predicate RemovalStaged(row: Option<Terms>, now: int) {
    var current := Resolve(row, now);
    current.Some? && current.value.removal
  }

  /**
   A removal keeps the limit in force for exactly 24 hours and then there is none; asked
   for again it changes nothing, so the moment first staged stands.
   */
  lemma RemoveTakesEffect(row: Option<Terms>, now: int, t: int)
    requires IsShaped(row) && now <= t
    ensures var before := Effective(row, now);
            Effective(Changed(row, Remove, now), t)
            == if before.None? then None
               else if RemovalStaged(row, now) then (if t < row.value.effectiveAt.value then before else None)
               else if t < now + LIMIT_INCREASE_DELAY then before else None
  {
  }

  /** A cancellation leaves the stored amount in force from then on, whatever was staged. */
  lemma CancelTakesEffect(row: Option<Terms>, now: int, t: int)
    ensures Effective(Changed(row, Cancel, now), t) == if row.None? then None else Some(row.value.amount)
  {
  }

  /** No change of any kind loosens the limit within 24 hours of being made, apart from what was staged already. */
  lemma ChangesOnlyTightenAtFirst(row: Option<Terms>, change: Change, now: int, t: int)
    requires IsShaped(row) && now <= t < now + LIMIT_INCREASE_DELAY
    ensures NoLooser(Effective(Changed(row, change, now), t), Effective(row, t))
            || NoLooser(Effective(Changed(row, change, now), t), Effective(row, now))
  {
  }

  /** `a` lets through no deposit that `b` stops; None is no limit at all. */
  predicate NoLooser(a: Option<int>, b: Option<int>) {
    b.None? || (a.Some? && a.value <= b.value)
  }

  // ---- tidying ------------------------------------------------------------

  /** Reading a row through what it resolves to changes nothing anyone can see from then on. */
  lemma TidyIsInvisible(row: Option<Terms>, now: int, t: int)
    requires IsShaped(row) && now <= t
    ensures IsShaped(Resolve(row, now))
    ensures Resolve(Resolve(row, now), t) == Resolve(row, t)
    ensures Effective(Resolve(row, now), t) == Effective(row, t)
  {
  }

  /** Setting and removing go by what the limit resolves to, so they cannot tell a tidied row from an untidied one. */
  lemma ChangesSeeResolved(row: Option<Terms>, change: Change, now: int)
    requires IsShaped(row) && !change.Cancel?
    ensures Resolve(Changed(row, change, now), now) == Resolve(Changed(Resolve(row, now), change, now), now)
  {
  }

  /**
   Cancelling goes by the stored columns. It agrees with cancelling the tidied row
   exactly when there was nothing to tidy.
   */
  lemma CancelSeesStored(row: Option<Terms>, now: int)
    requires IsShaped(row)
    ensures Resolve(Changed(row, Cancel, now), now) == Resolve(Changed(Resolve(row, now), Cancel, now), now)
            <==> Resolve(row, now) == row
  {
  }

  /** Raised from 100 to 200 a day ago and cancelled now: 200 if the worker came first, 100 if it had not. */
  lemma CancelAfterMaturity()
    ensures var raised := Changed(Changed(None, Set(100), 0), Set(200), 0);
            var now := LIMIT_INCREASE_DELAY;
            && Effective(raised, now) == Some(200)
            && Effective(Changed(raised, Cancel, now), now) == Some(100)
            && Effective(Changed(Resolve(raised, now), Cancel, now), now) == Some(200)
  {
  }

  // ---- a write that rests on an earlier reading ---------------------------

  /** Whether the request writes at all, given the row it read. */
  predicate Writes(seen: Option<Terms>, change: Change, now: int) {
    match change
    case Set(amount) => IsValidLimit(amount)
    case Cancel => true
    case Remove =>
      var current := Resolve(seen, now);
      current.Some? && !(current.value.removal && current.value.effectiveAt.Some?)
  }

  /**
   Setting and removing write what they made of the row they read, whatever it is by then;
   creating a row that is there or updating one that is gone throws. Cancelling reads nothing.
   */
  function Written(stored: Option<Terms>, seen: Option<Terms>, change: Change, now: int): Option<Terms> {
    if change.Cancel? then Changed(stored, Cancel, now)
    else if !Writes(seen, change, now) || seen.Some? != stored.Some? then stored
    else Changed(seen, change, now)
  }

  /** With nothing in between, the reading and the write are one change. */
  lemma UnracedIsChanged(row: Option<Terms>, change: Change, now: int)
    ensures Written(row, row, change, now) == Changed(row, change, now)
  {
  }

  /** A change loosens nothing in its first 24 hours beyond what was staged and what its request had read. */
  lemma RacedOnlyTightensAtFirst(stored: Option<Terms>, seen: Option<Terms>, change: Change, now: int, t: int)
    requires IsShaped(stored) && IsShaped(seen) && now <= t < now + LIMIT_INCREASE_DELAY
    ensures IsShaped(Written(stored, seen, change, now))
    ensures var after := Effective(Written(stored, seen, change, now), t);
            || NoLooser(after, Effective(stored, t)) || NoLooser(after, Effective(stored, now))
            || NoLooser(after, Effective(seen, t)) || NoLooser(after, Effective(seen, now))
  {
  }

  /** What the request puts in force at once, if it writes. */
  function AtOnce(seen: Option<Terms>, change: Change, now: int): Option<int> {
    var current := Effective(seen, now);
    if change.Set? && (current.None? || change.amount <= current.value) then Some(change.amount) else current
  }

  /**
   A reduction that is written between another request's reading and its write survives
   that write exactly when the other finds nothing to write, or throws for want of a row
   when it read, or puts no more than the reduced amount in force.
   */
  lemma ReductionSurvivesIff(reduced: int, seen: Option<Terms>, change: Change, now: int, t: int)
    requires IsShaped(seen) && now <= t < now + LIMIT_INCREASE_DELAY
    ensures NoLooser(Effective(Written(Some(Plain(reduced)), seen, change, now), t), Some(reduced))
            <==> || change.Cancel? || !Writes(seen, change, now) || seen.None?
                 || NoLooser(AtOnce(seen, change, now), Some(reduced))
  {
  }

  /** 50 and 300 asked for at a limit of 100: if both read it first, the later write decides, and the 50 can be lost. */
  lemma ReductionLost(now: int)
    ensures var row := Some(Plain(100));
            var lowered, raised := Written(row, row, Set(50), now), Written(row, row, Set(300), now);
            && Effective(lowered, now) == Some(50)
            && Effective(Written(lowered, row, Set(300), now), now) == Some(100)
            && Effective(Written(lowered, row, Set(300), now), now + LIMIT_INCREASE_DELAY) == Some(300)
            && Effective(Written(lowered, lowered, Set(300), now), now) == Some(50)
            && Effective(Written(raised, row, Set(50), now), now + LIMIT_INCREASE_DELAY) == Some(50)
  {
  }
}
