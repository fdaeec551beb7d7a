/** Escalating results the widget never confirmed: one alert a bet, and a cap cut from the third on. */
module UnverifiedResults {
  import opened Arithmetic
  import opened Tables

  const DAY := 86_400_000
  const THRESHOLD := 3

  /** `bet` is the details' betId; the HIGH alert carries none. */
  datatype Alert = Alert(developer: Id, bet: Option<Id>, high: bool, at: int)

  /** The columns of a bet the worker reads, its developer looked up through the game. */
  datatype Result = Result(developer: Id, status: BetStatus, verified: bool)

  datatype Desk = Desk(alerts: seq<Alert>, caps: map<Id, int>, flagged: set<Id>)

  predicate IsUnverified(results: map<Id, Result>, bet: Id) {
    bet in results && results[bet].status == RESULT_REPORTED && !results[bet].verified
  }

  predicate HasAlert(alerts: seq<Alert>, developer: Id, bet: Id) {
    exists i :: 0 <= i < |alerts| && alerts[i].developer == developer && alerts[i].bet == Some(bet)
  }

  function RecentCount(alerts: seq<Alert>, developer: Id, since: int): nat {
    if alerts == [] then 0
    else
      var last := alerts[|alerts| - 1];
      RecentCount(alerts[..|alerts| - 1], developer, since)
      + if last.developer == developer && since <= last.at then 1 else 0
  }

  /** Half the cap, rounded half up to a whole penny. */
  function Halved(cap: int): int {
    (cap + 1) / 2
  }

  function AfterEscalation(desk: Desk, results: map<Id, Result>, bet: Id, now: int): Desk {
    if !IsUnverified(results, bet) then desk
    else
      var developer := results[bet].developer;
      if HasAlert(desk.alerts, developer, bet) then desk
      else
        var raised := desk.alerts + [Alert(developer, Some(bet), false, now)];
        var flagged := desk.flagged + {bet};
        if RecentCount(raised, developer, now - DAY) < THRESHOLD then Desk(raised, desk.caps, flagged)
        else
          Desk(raised + [Alert(developer, None, true, now)],
               if developer in desk.caps then desk.caps[developer := Halved(desk.caps[developer])] else desk.caps,
               flagged)
  }

  class AlertDesk {
    var alerts: seq<Alert>
    var caps: map<Id, int>
    var flagged: set<Id>
    const results: map<Id, Result>

    constructor (results: map<Id, Result>, caps: map<Id, int>)
      ensures Now() == Desk([], caps, {}) && this.results == results
    {
      this.results, this.caps := results, caps;
      alerts, flagged := [], {};
    }

    function Now(): Desk
      reads this
    {
      Desk(alerts, caps, flagged)
    }

    method Count(developer: Id, since: int) returns (count: nat)
      ensures count == RecentCount(alerts, developer, since)
    {
      count := 0;
      for i := 0 to |alerts|
        invariant count == RecentCount(alerts[..i], developer, since)
      {
        assert alerts[..i + 1][..i] == alerts[..i];
        if alerts[i].developer == developer && since <= alerts[i].at {
          count := count + 1;
        }
      }
      assert alerts[..|alerts|] == alerts;
    }

    method EscalateUnverifiedResult(bet: Id, now: int)
      modifies this
      ensures Now() == AfterEscalation(old(Now()), results, bet, now)
    {
      if bet !in results || results[bet].status != RESULT_REPORTED || results[bet].verified {
        return;
      }
      var developer := results[bet].developer;
      if HasAlert(alerts, developer, bet) {
        return;
      }
      var cap := if developer in caps then Some(caps[developer]) else None;
      alerts := alerts + [Alert(developer, Some(bet), false, now)];
      var recent := Count(developer, now - DAY);
      if recent >= THRESHOLD {
        alerts := alerts + [Alert(developer, None, true, now)];
        if cap.Some? {
          caps := caps[developer := Halved(cap.value)];
        }
      }
      flagged := flagged + {bet};
    }

    method ProcessUnverifiedResultScan(bets: seq<Id>, now: int)
      modifies this
      ensures Now() == AfterAll(old(Now()), results, bets, seq(|bets|, _ => now))
    {
      ghost var times := seq(|bets|, _ => now);
      for i := 0 to |bets|
        invariant Now() == AfterAll(old(Now()), results, bets[..i], times[..i])
      {
        assert bets[..i + 1][..i] == bets[..i] && times[..i + 1][..i] == times[..i];
        EscalateUnverifiedResult(bets[i], now);
      }
      assert bets[..|bets|] == bets && times[..|bets|] == times;
    }
  }

  /** Any number of scans, as the one list of bets they visit and when. */
  function AfterAll(desk: Desk, results: map<Id, Result>, bets: seq<Id>, times: seq<int>): Desk
    requires |times| == |bets|
  {
    if bets == [] then desk
    else
      var n := |bets| - 1;
      AfterEscalation(AfterAll(desk, results, bets[..n], times[..n]), results, bets[n], times[n])
  }

  // ---- what a day of scans comes to ---------------------------------------

  /** The different bets of one developer that the visits escalate. */
  function Escalated(results: map<Id, Result>, bets: seq<Id>, developer: Id): set<Id> {
    set b | b in bets && IsUnverified(results, b) && results[b].developer == developer
  }

  function Flagged(results: map<Id, Result>, bets: seq<Id>): set<Id> {
    set b | b in bets && IsUnverified(results, b)
  }

  /** How many of `n` bets also draw a HIGH alert and halve the cap. */
  function Cuts(n: nat): nat {
    if n <= 2 then 0 else n - 2
  }

  function Pow2(k: nat): (p: nat)
    ensures p > 0
  {
    if k == 0 then 1 else 2 * Pow2(k - 1)
  }

  function CeilDiv(n: int, d: nat): int
    requires d > 0
  {
    (n + d - 1) / d
  }

  lemma HalvedAgain(cap: int, p: nat)
    requires p > 0
    ensures Halved(CeilDiv(cap, p)) == CeilDiv(cap, 2 * p)
  {
    var q, r := (cap + p - 1) / p, (cap + p - 1) % p;
    assert cap + p - 1 == p * q + r;
    var h := (q + 1) / 2;
    var e := (q + 1) % 2;
    assert q + 1 == 2 * h + e;
    assert p * (q + 1) == p * (2 * h + e) == 2 * p * h + p * e;
    assert cap + 2 * p - 1 == 2 * p * h + (p * e + r);
    assert 0 <= p * e + r < 2 * p;
    DivisionIsUnique(cap + 2 * p - 1, 2 * p, h, p * e + r);
  }

  /** The books after visiting `bets`, none of which had an alert before, all within a day of `start`. */
  ghost predicate Accounted(before: Desk, after: Desk, results: map<Id, Result>, bets: seq<Id>, start: int) {
    && Alerted(after.alerts, results, bets, start)
    && after.caps.Keys == before.caps.Keys
    && (forall d :: d in before.caps ==>
          after.caps[d] == CeilDiv(before.caps[d], Pow2(Cuts(|Escalated(results, bets, d)|))))
    && after.flagged == before.flagged + Flagged(results, bets)
  }

  ghost predicate Alerted(alerts: seq<Alert>, results: map<Id, Result>, bets: seq<Id>, start: int) {
    && (forall d, b :: HasAlert(alerts, d, b) <==> b in Escalated(results, bets, d))
    && (forall d, since :: since <= start ==>
          RecentCount(alerts, d, since) == |Escalated(results, bets, d)| + Cuts(|Escalated(results, bets, d)|))
  }

  lemma NoVisits(desk: Desk, results: map<Id, Result>, start: int)
    requires desk.alerts == []
    ensures Accounted(desk, desk, results, [], start)
  {
    assert forall d :: Escalated(results, [], d) == {};
  }

  lemma EscalatedStep(results: map<Id, Result>, bets: seq<Id>, bet: Id, developer: Id)
    ensures Escalated(results, bets + [bet], developer)
            == Escalated(results, bets, developer)
               + if IsUnverified(results, bet) && results[bet].developer == developer then {bet} else {}
  {
  }

  lemma HasAlertStep(alerts: seq<Alert>, last: Alert, developer: Id, bet: Id)
    ensures HasAlert(alerts + [last], developer, bet)
            <==> HasAlert(alerts, developer, bet) || (last.developer == developer && last.bet == Some(bet))
  {
    var more := alerts + [last];
    if HasAlert(alerts, developer, bet) {
      var i :| 0 <= i < |alerts| && alerts[i].developer == developer && alerts[i].bet == Some(bet);
      assert more[i] == alerts[i];
    }
    if last.developer == developer && last.bet == Some(bet) {
      assert more[|alerts|] == last;
    }
  }

  lemma CountStep(alerts: seq<Alert>, last: Alert, developer: Id, since: int)
    ensures RecentCount(alerts + [last], developer, since)
            == RecentCount(alerts, developer, since) + if last.developer == developer && since <= last.at then 1 else 0
  {
    assert (alerts + [last])[..|alerts|] == alerts;
  }

  lemma VisitTallies(before: Desk, desk: Desk, results: map<Id, Result>, bets: seq<Id>, bet: Id, now: int, start: int)
    requires Accounted(before, desk, results, bets, start) && start <= now <= start + DAY
    ensures Accounted(before, AfterEscalation(desk, results, bet, now), results, bets + [bet], start)
  {
    hide HasAlert, RecentCount, Escalated, AfterEscalation, Flagged, IsUnverified, CeilDiv, Pow2, Cuts;
    FlaggedStep(results, bets, bet);
    if bet in results && IsUnverified(results, bet) && !HasAlert(desk.alerts, results[bet].developer, bet) {
      FirstVisitAlerts(desk, results, bets, bet, now, start);
      FirstVisitWrites(desk, results, bet, now);
      forall d | d in before.caps
        ensures AfterEscalation(desk, results, bet, now).caps[d]
                == CeilDiv(before.caps[d], Pow2(Cuts(|Escalated(results, bets + [bet], d)|)))
      {
        CapStep(before.caps[d], |Escalated(results, bets, d)|);
        EscalatedStep(results, bets, bet, d);
      }
    } else {
      UnverifiedIsKnown(results, bet);
      SecondVisit(desk, results, bet, now);
      NothingNew(desk, results, bets, bet, start);
    }
  }

  lemma UnverifiedIsKnown(results: map<Id, Result>, bet: Id)
    ensures IsUnverified(results, bet) ==> bet in results
  {
  }

  lemma NothingNew(desk: Desk, results: map<Id, Result>, bets: seq<Id>, bet: Id, start: int)
    requires Alerted(desk.alerts, results, bets, start)
    requires IsUnverified(results, bet) ==> HasAlert(desk.alerts, results[bet].developer, bet)
    ensures forall d :: Escalated(results, bets + [bet], d) == Escalated(results, bets, d)
    ensures Flagged(results, bets + [bet]) == Flagged(results, bets)
    ensures Alerted(desk.alerts, results, bets + [bet], start)
  {
    hide HasAlert, RecentCount;
    forall d
      ensures Escalated(results, bets + [bet], d) == Escalated(results, bets, d)
    {
      EscalatedStep(results, bets, bet, d);
    }
  }

  lemma FlaggedStep(results: map<Id, Result>, bets: seq<Id>, bet: Id)
    ensures Flagged(results, bets + [bet]) == Flagged(results, bets) + if IsUnverified(results, bet) then {bet} else {}
  {
  }

  lemma CapStep(cap: int, n: nat)
    ensures CeilDiv(cap, Pow2(Cuts(n + 1)))
            == if n >= 2 then Halved(CeilDiv(cap, Pow2(Cuts(n)))) else CeilDiv(cap, Pow2(Cuts(n)))
  {
    if n >= 2 {
      HalvedAgain(cap, Pow2(Cuts(n)));
    }
  }

  lemma FirstVisitWrites(desk: Desk, results: map<Id, Result>, bet: Id, now: int)
    requires IsUnverified(results, bet) && !HasAlert(desk.alerts, results[bet].developer, bet)
    ensures var developer := results[bet].developer;
            var raised := desk.alerts + [Alert(developer, Some(bet), false, now)];
            var cut := RecentCount(raised, developer, now - DAY) >= THRESHOLD;
            var after := AfterEscalation(desk, results, bet, now);
            && after.flagged == desk.flagged + {bet} && after.caps.Keys == desk.caps.Keys
            && (forall d :: d in desk.caps ==>
                  after.caps[d] == if d == developer && cut then Halved(desk.caps[d]) else desk.caps[d])
  {
    hide RecentCount, HasAlert;
  }

  /** The n-th bet's visit adds its own alert, and a HIGH one from the third on. */
  lemma FirstVisitAlerts(desk: Desk, results: map<Id, Result>, bets: seq<Id>, bet: Id, now: int, start: int)
    requires Alerted(desk.alerts, results, bets, start) && start <= now <= start + DAY
    requires IsUnverified(results, bet) && !HasAlert(desk.alerts, results[bet].developer, bet)
    ensures bet in results
    ensures var developer := results[bet].developer;
            var n := |Escalated(results, bets, developer)|;
            && |Escalated(results, bets + [bet], developer)| == n + 1
            && (var raised := desk.alerts + [Alert(developer, Some(bet), false, now)];
                RecentCount(raised, developer, now - DAY) >= THRESHOLD <==> n >= 2)
            && Alerted(AfterEscalation(desk, results, bet, now).alerts, results, bets + [bet], start)
  {
    hide HasAlert, RecentCount, Escalated;
    var developer := results[bet].developer;
    var medium, high := Alert(developer, Some(bet), false, now), Alert(developer, None, true, now);
    var raised := desk.alerts + [medium];
    forall d, since
      ensures RecentCount(raised, d, since)
              == RecentCount(desk.alerts, d, since) + if developer == d && since <= now then 1 else 0
      ensures RecentCount(raised + [high], d, since)
              == RecentCount(raised, d, since) + if developer == d && since <= now then 1 else 0
    {
      CountStep(desk.alerts, medium, d, since);
      CountStep(raised, high, d, since);
    }
    forall d, b
      ensures HasAlert(raised, d, b) <==> HasAlert(desk.alerts, d, b) || (d == developer && b == bet)
      ensures HasAlert(raised + [high], d, b) <==> HasAlert(raised, d, b)
    {
      HasAlertStep(desk.alerts, medium, d, b);
      HasAlertStep(raised, high, d, b);
    }
    forall d
      ensures Escalated(results, bets + [bet], d)
              == Escalated(results, bets, d) + if developer == d then {bet} else {}
    {
      EscalatedStep(results, bets, bet, d);
    }
    var n := |Escalated(results, bets, developer)|;
    assert bet !in Escalated(results, bets, developer);
    assert RecentCount(raised, developer, now - DAY) == n + Cuts(n) + 1;
  }

  lemma {:induction false} VisitsTally(desk: Desk, results: map<Id, Result>, bets: seq<Id>, times: seq<int>, start: int)
    requires |times| == |bets| && desk.alerts == []
    requires forall i :: 0 <= i < |times| ==> start <= times[i] <= start + DAY
    ensures Accounted(desk, AfterAll(desk, results, bets, times), results, bets, start)
  {
    hide Accounted, AfterEscalation;
    if bets == [] {
      NoVisits(desk, results, start);
    } else {
      var n := |bets| - 1;
      VisitsTally(desk, results, bets[..n], times[..n], start);
      VisitTallies(desk, AfterAll(desk, results, bets[..n], times[..n]), results, bets[..n], bets[n], times[n], start);
      assert bets[..n] + [bets[n]] == bets;
    }
  }

  /**
   Within one day, however often and in whatever order the scans visit them, n different
   unverified bets of one developer leave n + max(0, n - 2) alerts and a cap of
   cap / 2^max(0, n - 2), rounded up to a penny.
   */
  lemma CapCutCompounds(desk: Desk, results: map<Id, Result>, bets: seq<Id>, times: seq<int>, start: int, developer: Id)
    requires |times| == |bets| && desk.alerts == []
    requires forall i :: 0 <= i < |times| ==> start <= times[i] <= start + DAY
    ensures var after := AfterAll(desk, results, bets, times);
            var n := |Escalated(results, bets, developer)|;
            && RecentCount(after.alerts, developer, start) == n + Cuts(n)
            && (developer in desk.caps ==>
                  developer in after.caps && after.caps[developer] == CeilDiv(desk.caps[developer], Pow2(Cuts(n))))
  {
    hide RecentCount, Escalated, AfterAll, HasAlert;
    VisitsTally(desk, results, bets, times, start);
  }

  /** Visiting bets that have been visited changes nothing at all. */
  lemma {:induction false} RescanChangesNothing(desk: Desk, results: map<Id, Result>, bets: seq<Id>, times: seq<int>,
                                                again: seq<Id>, later: seq<int>)
    requires |times| == |bets| && |later| == |again|
    requires forall b :: b in again ==> b in bets
    ensures AfterAll(AfterAll(desk, results, bets, times), results, again, later) == AfterAll(desk, results, bets, times)
  {
    hide AfterEscalation, HasAlert;
    var after := AfterAll(desk, results, bets, times);
    if again != [] {
      var n := |again| - 1;
      RescanChangesNothing(desk, results, bets, times, again[..n], later[..n]);
      assert again[n] in bets;
      if IsUnverified(results, again[n]) {
        VisitedHasAlert(desk, results, bets, times, again[n]);
      }
      SecondVisit(after, results, again[n], later[n]);
    }
  }

  lemma SecondVisit(desk: Desk, results: map<Id, Result>, bet: Id, now: int)
    requires IsUnverified(results, bet) ==> HasAlert(desk.alerts, results[bet].developer, bet)
    ensures AfterEscalation(desk, results, bet, now) == desk
  {
  }

  lemma {:induction false} VisitedHasAlert(desk: Desk, results: map<Id, Result>, bets: seq<Id>, times: seq<int>, bet: Id)
    requires |times| == |bets| && bet in bets && IsUnverified(results, bet)
    ensures HasAlert(AfterAll(desk, results, bets, times).alerts, results[bet].developer, bet)
  {
    hide AfterEscalation, HasAlert;
    var n := |bets| - 1;
    var before := AfterAll(desk, results, bets[..n], times[..n]);
    if bet in bets[..n] {
      VisitedHasAlert(desk, results, bets[..n], times[..n], bet);
    } else {
      assert bet == bets[n];
    }
    VisitAlerts(before, results, bets[n], times[n], results[bet].developer, bet);
  }

  /** A visit leaves its bet with an alert and takes none away. */
  lemma VisitAlerts(desk: Desk, results: map<Id, Result>, visited: Id, now: int, developer: Id, bet: Id)
    ensures HasAlert(desk.alerts, developer, bet)
            || (visited == bet && IsUnverified(results, bet) && results[bet].developer == developer)
            ==> HasAlert(AfterEscalation(desk, results, visited, now).alerts, developer, bet)
  {
    hide HasAlert, RecentCount;
    if IsUnverified(results, visited) {
      var d := results[visited].developer;
      var medium, high := Alert(d, Some(visited), false, now), Alert(d, None, true, now);
      HasAlertStep(desk.alerts, medium, developer, bet);
      HasAlertStep(desk.alerts + [medium], high, developer, bet);
    }
  }

  // ---- which alerts are which ---------------------------------------------

  /** The alerts of one kind that a developer has. */
  function KindCount(alerts: seq<Alert>, developer: Id, high: bool): nat {
    if alerts == [] then 0
    else
      var last := alerts[|alerts| - 1];
      KindCount(alerts[..|alerts| - 1], developer, high)
      + if last.developer == developer && last.high == high then 1 else 0
  }

  lemma KindStep(alerts: seq<Alert>, last: Alert, developer: Id, high: bool)
    ensures KindCount(alerts + [last], developer, high)
            == KindCount(alerts, developer, high) + if last.developer == developer && last.high == high then 1 else 0
  {
    assert (alerts + [last])[..|alerts|] == alerts;
  }

  /** A bet's own alert is never the HIGH one, and each developer has one of the first kind a bet. */
  ghost predicate Kinds(alerts: seq<Alert>, results: map<Id, Result>, bets: seq<Id>) {
    && (forall i :: 0 <= i < |alerts| ==> (alerts[i].high <==> alerts[i].bet.None?))
    && (forall d :: KindCount(alerts, d, false) == |Escalated(results, bets, d)|)
    && (forall d :: KindCount(alerts, d, true) == Cuts(|Escalated(results, bets, d)|))
  }

  lemma FirstVisitAdds(desk: Desk, results: map<Id, Result>, bet: Id, now: int)
    requires IsUnverified(results, bet) && !HasAlert(desk.alerts, results[bet].developer, bet)
    ensures var developer := results[bet].developer;
            var raised := desk.alerts + [Alert(developer, Some(bet), false, now)];
            AfterEscalation(desk, results, bet, now).alerts
            == if RecentCount(raised, developer, now - DAY) < THRESHOLD then raised
               else raised + [Alert(developer, None, true, now)]
  {
    hide RecentCount, HasAlert;
  }

  lemma VisitKinds(desk: Desk, results: map<Id, Result>, bets: seq<Id>, bet: Id, now: int, start: int)
    requires Alerted(desk.alerts, results, bets, start) && Kinds(desk.alerts, results, bets)
    requires start <= now <= start + DAY
    ensures Kinds(AfterEscalation(desk, results, bet, now).alerts, results, bets + [bet])
  {
    hide HasAlert, RecentCount, Escalated, KindCount, Alerted, AfterEscalation, IsUnverified, Kinds;
    if bet in results && IsUnverified(results, bet) && !HasAlert(desk.alerts, results[bet].developer, bet) {
      FirstVisitAlerts(desk, results, bets, bet, now, start);
      FirstVisitAdds(desk, results, bet, now);
      KindsGrow(desk.alerts, results, bets, bet, now);
    } else {
      UnverifiedIsKnown(results, bet);
      SecondVisit(desk, results, bet, now);
      NothingNew(desk, results, bets, bet, start);
      KindsCarry(desk.alerts, results, bets, bet);
    }
  }

  lemma KindsCarry(alerts: seq<Alert>, results: map<Id, Result>, bets: seq<Id>, bet: Id)
    requires Kinds(alerts, results, bets)
    requires forall d :: Escalated(results, bets + [bet], d) == Escalated(results, bets, d)
    ensures Kinds(alerts, results, bets + [bet])
  {
    hide Escalated, KindCount;
  }

  lemma KindsGrow(alerts: seq<Alert>, results: map<Id, Result>, bets: seq<Id>, bet: Id, now: int)
    requires Kinds(alerts, results, bets) && IsUnverified(results, bet)
    requires |Escalated(results, bets + [bet], results[bet].developer)|
             == |Escalated(results, bets, results[bet].developer)| + 1
    ensures var developer := results[bet].developer;
            var raised := alerts + [Alert(developer, Some(bet), false, now)];
            Kinds(if |Escalated(results, bets, developer)| >= 2 then raised + [Alert(developer, None, true, now)]
                  else raised, results, bets + [bet])
  {
    hide Escalated, KindCount, IsUnverified;
    UnverifiedIsKnown(results, bet);
    var developer := results[bet].developer;
    var medium, high := Alert(developer, Some(bet), false, now), Alert(developer, None, true, now);
    forall d
      ensures d != developer ==> |Escalated(results, bets + [bet], d)| == |Escalated(results, bets, d)|
    {
      EscalatedStep(results, bets, bet, d);
    }
    forall d, kind: bool
      ensures KindCount(alerts + [medium], d, kind)
              == KindCount(alerts, d, kind) + if developer == d && !kind then 1 else 0
      ensures KindCount(alerts + [medium] + [high], d, kind)
              == KindCount(alerts + [medium], d, kind) + if developer == d && kind then 1 else 0
    {
      KindStep(alerts, medium, d, kind);
      KindStep(alerts + [medium], high, d, kind);
    }
  }

  /** Within a day each of n bets draws one alert that names it; the HIGH ones are the n - 2 from the third on. */
  lemma {:induction false} HighFromTheThird(desk: Desk, results: map<Id, Result>, bets: seq<Id>, times: seq<int>,
                                            start: int)
    requires |times| == |bets| && desk.alerts == []
    requires forall i :: 0 <= i < |times| ==> start <= times[i] <= start + DAY
    ensures Kinds(AfterAll(desk, results, bets, times).alerts, results, bets)
  {
    hide AfterEscalation, Accounted, Kinds, Alerted;
    if bets == [] {
      NoKinds(results);
    } else {
      var n := |bets| - 1;
      HighFromTheThird(desk, results, bets[..n], times[..n], start);
      VisitsTally(desk, results, bets[..n], times[..n], start);
      var before := AfterAll(desk, results, bets[..n], times[..n]);
      AccountedAlerts(desk, before, results, bets[..n], start);
      VisitKinds(before, results, bets[..n], bets[n], times[n], start);
      assert bets[..n] + [bets[n]] == bets;
    }
  }

  lemma AccountedAlerts(before: Desk, after: Desk, results: map<Id, Result>, bets: seq<Id>, start: int)
    requires Accounted(before, after, results, bets, start)
    ensures Alerted(after.alerts, results, bets, start)
  {
  }

  lemma NoKinds(results: map<Id, Result>)
    ensures Kinds([], results, [])
  {
    assert forall d :: Escalated(results, [], d) == {};
  }

  /** A confirmed result, or a bet that is not waiting on one, costs its developer nothing. */
  lemma OnlyUnconfirmedCounts(desk: Desk, results: map<Id, Result>, bet: Id, now: int)
    requires bet in results ==> results[bet].verified || results[bet].status != RESULT_REPORTED
    ensures AfterEscalation(desk, results, bet, now) == desk
  {
  }
}
