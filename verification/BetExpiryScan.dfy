/** The expiry job: an oldest-first window and three sweeps, and how long a bet can wait in it. */
module BetExpiryScan {
  import opened Counting
  import opened Tables
  import opened IdempotencyKeys
  import opened Ledger
  import Escrows
  import opened BetExpiry
  import opened Invariant
  import opened Protocol
  import opened BetTerms
  import opened Runs

  // ---- the job ------------------------------------------------------------

  function Expiries(ids: seq<Id>, locked: seq<bool>): seq<Step>
    requires |locked| == |ids|
  {
    seq(|ids|, i requires 0 <= i < |ids| => Expires(ids[i], locked[i]))
  }

  function NoShows(ids: seq<Id>, locked: seq<bool>): seq<Step>
    requires |locked| == |ids|
  {
    seq(|ids|, i requires 0 <= i < |ids| => NoShow(ids[i], locked[i]))
  }

  function RefereeSweeps(ids: seq<Id>, now: int, locked: seq<bool>): seq<Step>
    requires |locked| == |ids|
  {
    seq(|ids|, i requires 0 <= i < |ids| => Sweeps(ids[i], now, locked[i]))
  }

  method ProcessExpiries(db: Database, ids: seq<Id>, locked: seq<bool>)
    requires |locked| == |ids|
    modifies db
    ensures db.Now() == Run(old(db.Now()), Expiries(ids, locked))
  {
    hide ExpireAttempt;
    ghost var steps := Expiries(ids, locked);
    for i := 0 to |ids|
      invariant db.Now() == Run(old(db.Now()), steps[..i])
    {
      assert steps[..i + 1][..i] == steps[..i];
      var attempt, notified := ExpireBet(db, ids[i], locked[i]);
    }
    assert steps[..|ids|] == steps;
  }

  method ProcessNoShows(db: Database, ids: seq<Id>, locked: seq<bool>)
    requires |locked| == |ids|
    modifies db
    ensures db.Now() == Run(old(db.Now()), NoShows(ids, locked))
  {
    hide NoShowAttempt;
    ghost var steps := NoShows(ids, locked);
    for i := 0 to |ids|
      invariant db.Now() == Run(old(db.Now()), steps[..i])
    {
      assert steps[..i + 1][..i] == steps[..i];
      var attempt, notified := VoidStaleMatch(db, ids[i], locked[i]);
    }
    assert steps[..|ids|] == steps;
  }

  method ProcessRefereeSweeps(db: Database, ids: seq<Id>, now: int, locked: seq<bool>)
    requires |locked| == |ids|
    modifies db
    ensures db.Now() == Run(old(db.Now()), RefereeSweeps(ids, now, locked))
  {
    hide SweepAttempt;
    ghost var steps := RefereeSweeps(ids, now, locked);
    for i := 0 to |ids|
      invariant db.Now() == Run(old(db.Now()), steps[..i])
    {
      assert steps[..i + 1][..i] == steps[..i];
      var attempt := SweepStaleAssignment(db, ids[i], now, locked[i]);
    }
    assert steps[..|ids|] == steps;
  }

  /** Each list may be out of date by the time its turn comes; every step re-checks under its lock. */
  method ProcessBetExpiryScan(db: Database, now: int, expired: seq<Id>, stale: seq<Id>, officiated: seq<Id>,
                              lockedE: seq<bool>, lockedS: seq<bool>, lockedO: seq<bool>)
    requires |lockedE| == |expired| && |lockedS| == |stale| && |lockedO| == |officiated|
    modifies db
    ensures db.Now() == Run(Run(Run(old(db.Now()), Expiries(expired, lockedE)), NoShows(stale, lockedS)),
                            RefereeSweeps(officiated, now, lockedO))
  {
    ProcessExpiries(db, expired, lockedE);
    ProcessNoShows(db, stale, lockedS);
    ProcessRefereeSweeps(db, officiated, now, lockedO);
  }

  // ---- when an expiry goes through ----------------------------------------

  predicate CanExpire(s: State, bet: Id) {
    && bet in s.bets && Escrow(bet) !in s.cat.frozen && PlayerBalance(s.bets[bet].playerA) !in s.cat.frozen
    && !ClientHas(s, BetKey(ExpiryRefund, bet))
  }

  /** In a sound database only a frozen account stops an expiry, or a customer who has the refund's text. */
  lemma ExpiryExact(s: State, bet: Id)
    requires Sound(s) && bet in s.bets && s.bets[bet].status == OPEN
    ensures var attempt := ExpireAttempt(s, bet, true);
            && (attempt.Committed? <==> CanExpire(s, bet))
            && (!attempt.Committed? ==>
                  attempt == Failed(if ClientHas(s, BetKey(ExpiryRefund, bet)) then KeyConflict else FrozenAccount))
            && (attempt.Committed? ==> bet in attempt.state.bets && attempt.state.bets[bet].status == CANCELLED)
  {
    hide Books, CountersAgree, Solvent, KeySound, DisputeSound, AssignmentSound, ClientHas;
    assert RowSound(s, bet);
    OpenRefundFresh(s, bet);
  }

  lemma OpenRefundFresh(s: State, bet: Id)
    requires RowsSound(s) && bet in s.bets && s.bets[bet].status == OPEN
    ensures BetKey(ExpiryRefund, bet) !in s.txns
  {
    hide RowSound, DisputeSound, AssignmentSound;
    assert BetKey(ExpiryRefund, bet) in s.txns ==> KeySound(s, BetKey(ExpiryRefund, bet));
  }

  // ---- rounds of scanning with anything in between ------------------------

  const WINDOW := 100

  predicate IsCandidate(s: State, bet: Id, now: int) {
    bet in s.bets && s.bets[bet].status == OPEN && s.bets[bet].expiresAt < now
  }

  /** The query: candidates only, no row twice, oldest first, at most a hundred. */
  ghost predicate PicksOldest(s: State, window: seq<Id>, now: int) {
    && |window| <= WINDOW
    && (forall i :: 0 <= i < |window| ==> IsCandidate(s, window[i], now))
    && (forall i, j :: 0 <= i < j < |window| ==> window[i] != window[j])
    && (forall i, j :: 0 <= i < j < |window| ==> s.bets[window[i]].expiresAt <= s.bets[window[j]].expiresAt)
    && (forall b :: IsCandidate(s, b, now) && b !in window ==>
          |window| == WINDOW && forall i :: 0 <= i < |window| ==> s.bets[window[i]].expiresAt <= s.bets[b].expiresAt)
  }

  /** One scan's window, as read at `now`, and all that happens from that reading until the next scan's. */
  datatype Round = Round(now: int, window: seq<Id>, steps: seq<Step>)

  predicate IsOpen(s: State, bet: Id) {
    bet in s.bets && s.bets[bet].status == OPEN
  }

  /**
   What the claim assumes of a round: the window is the query above; the scan's own
   transactions are somewhere among the round's steps, with anything else before, between
   and after them; only bets in `stuck` fail, now or by the round's end; nothing is reopened; and any bet that opens
   meanwhile expires after `deadline`.
   */
  ghost predicate Fair(s: State, round: Round, stuck: set<Id>, deadline: int) {
    && deadline < round.now && PicksOldest(s, round.window, round.now)
    && (forall i :: 0 <= i < |round.window| && round.window[i] !in stuck ==>
          Expires(round.window[i], true) in round.steps && CanExpire(Run(s, round.steps), round.window[i]))
    && NeverReopens(s, round.steps)
    && (forall b :: IsOpen(Run(s, round.steps), b) && !IsOpen(s, b) ==>
          Run(s, round.steps).bets[b].expiresAt > deadline)
  }

  ghost predicate AllFair(s: State, rounds: seq<Round>, stuck: set<Id>, deadline: int)
    decreases |rounds|
  {
    rounds == []
    || (Fair(s, rounds[0], stuck, deadline) && AllFair(Run(s, rounds[0].steps), rounds[1..], stuck, deadline))
  }

  function AfterRounds(s: State, rounds: seq<Round>): State
    decreases |rounds|
  {
    if rounds == [] then s else AfterRounds(Run(s, rounds[0].steps), rounds[1..])
  }

  /** The candidates ahead of `bet`, ties included, that do not fail. */
  function Ahead(s: State, bet: Id, stuck: set<Id>): set<Id>
    requires bet in s.bets
  {
    set b | b in s.bets && b != bet && b !in stuck && IsOpen(s, b) && s.bets[b].expiresAt <= s.bets[bet].expiresAt
  }

  // ---- the job on its own -------------------------------------------------

  predicate AreExpiries(steps: seq<Step>) {
    forall i :: 0 <= i < |steps| ==> steps[i].Expires?
  }

  lemma OneExpiry(s: State, bet: Id, locked: bool)
    ensures var t := Apply(s, Expires(bet, locked));
            && t.clientKeys == s.clientKeys && t.cat == s.cat && t.bets.Keys == s.bets.Keys
            && (bet in s.bets ==> t.bets[bet].playerA == s.bets[bet].playerA)
            && forall b :: b in t.bets ==> t.bets[b] == s.bets[b] || (b == bet && t.bets[b].status == CANCELLED)
  {
    hide Books, Escrows.AfterRefund;
  }

  /** Expiries take no text into use and open nothing. */
  lemma {:induction false} ExpiriesOnlyClose(s: State, steps: seq<Step>)
    requires AreExpiries(steps)
    ensures NeverReopens(s, steps)
    ensures var t := Run(s, steps);
            && t.clientKeys == s.clientKeys && t.cat == s.cat && t.bets.Keys == s.bets.Keys
            && forall b :: b in t.bets ==> t.bets[b].playerA == s.bets[b].playerA && (IsOpen(t, b) ==> IsOpen(s, b))
  {
    hide Apply;
    if steps != [] {
      var n := |steps| - 1;
      ExpiriesOnlyClose(s, steps[..n]);
      OneExpiry(Run(s, steps[..n]), steps[n].bet, steps[n].locked);
    }
  }

  /** One pass of the job with nothing in between is a fair round, if only bets in `stuck` are locked or unpayable. */
  lemma OwnPassIsFair(s: State, window: seq<Id>, locked: seq<bool>, now: int, stuck: set<Id>, deadline: int)
    requires PicksOldest(s, window, now) && deadline < now && |locked| == |window|
    requires forall i :: 0 <= i < |window| && window[i] !in stuck ==> locked[i] && CanExpire(s, window[i])
    ensures Fair(s, Round(now, window, Expiries(window, locked)), stuck, deadline)
  {
    hide Apply, Run, NeverReopens, PicksOldest, Text;
    var steps := Expiries(window, locked);
    ExpiriesOnlyClose(s, steps);
    forall i | 0 <= i < |window| && window[i] !in stuck
      ensures Expires(window[i], true) in steps && CanExpire(Run(s, steps), window[i])
    {
      assert steps[i] == Expires(window[i], true);
    }
  }

  // ---- one round ----------------------------------------------------------

  /** Past OPEN; by BetTerms.StepGoesOn, for good. */
  predicate HasLeft(s: State, bet: Id) {
    bet in s.bets && !s.bets[bet].status.CanHold()
  }

  lemma LeftForGood(s: State, t: State, bet: Id)
    requires HasLeft(s, bet) && GoesOnIn(s, t, bet)
    ensures HasLeft(t, bet)
  {
  }

  /** Whatever runs before and after its turn, a bet that can be expired throughout has left OPEN by the end. */
  lemma TurnSomewhereCloses(s: State, steps: seq<Step>, bet: Id)
    requires Legal(s) && NeverReopens(s, steps) && IsOpen(s, bet)
    requires Expires(bet, true) in steps && CanExpire(Run(s, steps), bet)
    ensures HasLeft(Run(s, steps), bet)
  {
    hide Legal, Apply, GoesOnIn, CanExpire, NeverReopens;
    var p :| 0 <= p < |steps| && steps[p] == Expires(bet, true);
    var t := Run(s, steps[..p]);
    PrefixNeverReopens(s, steps, p);
    RunKeepsLegal(s, steps[..p]);
    LegalParts(t);
    RunGoesOn(s, steps[..p], bet);
    StillCan(s, steps, p, bet);
    TurnCloses(s, t, bet);
    assert steps[..p + 1][..p] == steps[..p];
    var u := Run(s, steps[..p + 1]);
    RunGoesOn(u, steps[p + 1..], bet);
    LeftForGood(u, Run(u, steps[p + 1..]), bet);
    RunConcat(s, steps[..p + 1], steps[p + 1..]);
    assert steps[..p + 1] + steps[p + 1..] == steps;
  }

  /** Nothing that could stop an expiry ever goes away, so what can be expired in the end could be all along. */
  lemma StillCan(s: State, steps: seq<Step>, p: nat, bet: Id)
    requires p <= |steps| && bet in s.bets && CanExpire(Run(s, steps), bet)
    ensures CanExpire(Run(s, steps[..p]), bet)
  {
    hide Apply, Run, Text;
    var t := Run(s, steps[..p]);
    RunGoesOn(s, steps[..p], bet);
    RunGoesOn(t, steps[p..], bet);
    RunKeepsCatalogue(t, steps[p..]);
    RunKeepsFiled(t, steps[p..]);
    RunConcat(s, steps[..p], steps[p..]);
    assert steps[..p] + steps[p..] == steps;
  }

  lemma TurnCloses(s: State, t: State, bet: Id)
    requires IsOpen(s, bet) && GoesOnIn(s, t, bet) && CanExpire(t, bet) && Sound(t)
    ensures HasLeft(Apply(t, Expires(bet, true)), bet)
  {
    hide Sound, AfterExpiry, Apply, CanExpire, ClientHas;
    ApplyExpires(t, bet);
    if t.bets[bet].status == OPEN {
      ExpiryExact(t, bet);
    }
  }

  lemma ApplyExpires(s: State, bet: Id)
    ensures Apply(s, Expires(bet, true)) == ExpireAttempt(s, bet, true).Outcome(s)
  {
    hide ExpireAttempt;
  }

  // ---- counting -----------------------------------------------------------

  /** A bet the window has no room for is behind a hundred others, and most of them are ahead of it. */
  lemma WindowIsAhead(s: State, window: seq<Id>, now: int, bet: Id, stuck: set<Id>, f: nat)
    requires PicksOldest(s, window, now) && IsCandidate(s, bet, now) && bet !in window && |stuck| <= f
    ensures var moving := (set b | b in window) - stuck;
            moving <= Ahead(s, bet, stuck) && |moving| >= WINDOW - f
  {
    var all := set b | b in window;
    DistinctCount(window, all);
    var moving := all - stuck;
    SubsetCount(all * stuck, stuck);
    assert all == moving + (all * stuck);
    forall b | b in moving
      ensures b in Ahead(s, bet, stuck)
    {
      var i :| 0 <= i < |window| && window[i] == b;
      assert IsCandidate(s, window[i], now);
    }
  }

  /** One fair round: the bet has left, or the queue ahead of it is shorter by all the window's working rows. */
  lemma RoundAdvances(s: State, round: Round, bet: Id, stuck: set<Id>, f: nat)
    requires Legal(s) && IsOpen(s, bet) && bet !in stuck && |stuck| <= f
    requires Fair(s, round, stuck, s.bets[bet].expiresAt)
    ensures var u := Run(s, round.steps);
            && Legal(u) && bet in u.bets && u.bets[bet].expiresAt == s.bets[bet].expiresAt
            && (HasLeft(u, bet) || (IsOpen(u, bet) && |Ahead(u, bet, stuck)| + WINDOW - f <= |Ahead(s, bet, stuck)|))
  {
    hide Legal, Apply, CanExpire, Run, NeverReopens;
    var u := Run(s, round.steps);
    RunKeepsLegal(s, round.steps);
    RunGoesOn(s, round.steps, bet);
    assert IsCandidate(s, bet, round.now);
    if bet in round.window {
      TurnSomewhereCloses(s, round.steps, bet);
    } else {
      WindowIsAhead(s, round.window, round.now, bet, stuck, f);
      var moving := (set b | b in round.window) - stuck;
      QueueShrinks(s, round, bet, stuck, moving);
      if IsOpen(u, bet) {
        SubsetCount(Ahead(u, bet, stuck), Ahead(s, bet, stuck) - moving);
      }
    }
  }

  lemma QueueShrinks(s: State, round: Round, bet: Id, stuck: set<Id>, moving: set<Id>)
    requires Legal(s) && IsOpen(s, bet) && Fair(s, round, stuck, s.bets[bet].expiresAt)
    requires moving == (set b | b in round.window) - stuck
    ensures var u := Run(s, round.steps);
            && bet in u.bets && u.bets[bet].expiresAt == s.bets[bet].expiresAt
            && Ahead(u, bet, stuck) <= Ahead(s, bet, stuck) - moving
  {
    hide Legal, Apply, CanExpire, Run, NeverReopens;
    var u := Run(s, round.steps);
    RunGoesOn(s, round.steps, bet);
    forall b | b in Ahead(u, bet, stuck)
      ensures b in Ahead(s, bet, stuck) && b !in moving
    {
      assert IsOpen(s, b);
      RunGoesOn(s, round.steps, b);
      if b in moving {
        TurnSomewhereCloses(s, round.steps, b);
      }
    }
  }

  // ---- the bound ----------------------------------------------------------

  lemma {:induction false} LeftStaysLeft(s: State, rounds: seq<Round>, bet: Id)
    requires HasLeft(s, bet)
    ensures HasLeft(AfterRounds(s, rounds), bet)
    decreases |rounds|
  {
    hide Run;
    if rounds != [] {
      RunGoesOn(s, rounds[0].steps, bet);
      LeftStaysLeft(Run(s, rounds[0].steps), rounds[1..], bet);
    }
  }

  /**
   Bounded waiting: with at most f < 100 bets that fail every scan and later bets
   expiring later, an expired OPEN bet with r working candidates ahead of it has left
   OPEN after ceil((r + 1) / (100 - f)) scans, whatever runs before, between and after
   their transactions.
   */
  lemma {:induction false} ExpiredBetLeaves(s: State, rounds: seq<Round>, bet: Id, stuck: set<Id>, f: nat)
    requires Legal(s) && IsOpen(s, bet) && bet !in stuck && |stuck| <= f < WINDOW
    requires AllFair(s, rounds, stuck, s.bets[bet].expiresAt)
    requires |rounds| * (WINDOW - f) >= |Ahead(s, bet, stuck)| + 1
    ensures HasLeft(AfterRounds(s, rounds), bet)
    decreases |rounds|
  {
    hide Legal, Fair, Run, Ahead;
    var u := Run(s, rounds[0].steps);
    RoundAdvances(s, rounds[0], bet, stuck, f);
    if HasLeft(u, bet) {
      LeftStaysLeft(u, rounds[1..], bet);
    } else {
      assert |rounds| * (WINDOW - f) == (|rounds| - 1) * (WINDOW - f) + (WINDOW - f);
      ExpiredBetLeaves(u, rounds[1..], bet, stuck, f);
    }
  }

  // ---- the job with nothing in between ------------------------------------

  /** One run of the job: the window it read, the locks it found free, and when. */
  datatype Pass = Pass(now: int, window: seq<Id>, locked: seq<bool>)

  function RoundOf(pass: Pass): Round
    requires |pass.locked| == |pass.window|
  {
    Round(pass.now, pass.window, Expiries(pass.window, pass.locked))
  }

  /** Each pass reads the window of its own state, and finds every lock free but those of `stuck` bets. */
  ghost predicate Passes(s: State, passes: seq<Pass>, stuck: set<Id>, deadline: int)
    decreases |passes|
  {
    passes == []
    || (var pass := passes[0];
        && |pass.locked| == |pass.window| && deadline < pass.now && PicksOldest(s, pass.window, pass.now)
        && (forall i :: 0 <= i < |pass.window| && pass.window[i] !in stuck ==> pass.locked[i])
        && Passes(Run(s, RoundOf(pass).steps), passes[1..], stuck, deadline))
  }

  function RoundsOf(passes: seq<Pass>): seq<Round>
    requires forall i :: 0 <= i < |passes| ==> |passes[i].locked| == |passes[i].window|
  {
    if passes == [] then [] else [RoundOf(passes[0])] + RoundsOf(passes[1..])
  }

  ghost predicate OnlyStuckFail(s: State, stuck: set<Id>) {
    forall b :: IsOpen(s, b) && b !in stuck ==> CanExpire(s, b)
  }

  /** A bet that could be expired when the first pass began can be whenever its turn comes. */
  lemma {:induction false} PassesAreFair(s: State, passes: seq<Pass>, stuck: set<Id>, deadline: int)
    requires OnlyStuckFail(s, stuck) && Passes(s, passes, stuck, deadline)
    ensures forall i :: 0 <= i < |passes| ==> |passes[i].locked| == |passes[i].window|
    ensures |RoundsOf(passes)| == |passes| && AllFair(s, RoundsOf(passes), stuck, deadline)
    decreases |passes|
  {
    hide Fair, Run, CanExpire, NeverReopens, Apply;
    if passes != [] {
      var pass := passes[0];
      var t := Run(s, RoundOf(pass).steps);
      WindowIsOpen(s, pass.window, pass.now);
      OwnPassIsFair(s, pass.window, pass.locked, pass.now, stuck, deadline);
      ExpiriesOnlyClose(s, RoundOf(pass).steps);
      forall b | IsOpen(t, b) && b !in stuck
        ensures CanExpire(t, b)
      {
        StaysPayable(s, t, b);
      }
      PassesAreFair(t, passes[1..], stuck, deadline);
      assert RoundsOf(passes)[1..] == RoundsOf(passes[1..]);
    }
  }

  lemma WindowIsOpen(s: State, window: seq<Id>, now: int)
    requires PicksOldest(s, window, now)
    ensures forall i :: 0 <= i < |window| ==> IsOpen(s, window[i])
  {
    assert forall i :: 0 <= i < |window| ==> IsCandidate(s, window[i], now);
  }

  lemma StaysPayable(s: State, t: State, bet: Id)
    requires CanExpire(s, bet) && bet in t.bets && t.clientKeys == s.clientKeys && t.cat == s.cat
    requires t.bets[bet].playerA == s.bets[bet].playerA
    ensures CanExpire(t, bet)
  {
    hide Text;
  }

  /**
   The job by itself, with at most f < 100 bets it cannot expire: an expired bet with r
   candidates ahead that it can has left OPEN after ceil((r + 1) / (100 - f)) passes.
   */
  lemma JobAloneCloses(s: State, passes: seq<Pass>, bet: Id, stuck: set<Id>, f: nat)
    requires Legal(s) && IsOpen(s, bet) && bet !in stuck && |stuck| <= f < WINDOW
    requires OnlyStuckFail(s, stuck) && Passes(s, passes, stuck, s.bets[bet].expiresAt)
    requires |passes| * (WINDOW - f) >= |Ahead(s, bet, stuck)| + 1
    ensures forall i :: 0 <= i < |passes| ==> |passes[i].locked| == |passes[i].window|
    ensures HasLeft(AfterRounds(s, RoundsOf(passes)), bet)
  {
    hide Legal, Passes, AllFair, AfterRounds, RoundsOf, Ahead;
    PassesAreFair(s, passes, stuck, s.bets[bet].expiresAt);
    ExpiredBetLeaves(s, RoundsOf(passes), bet, stuck, f);
  }
}
