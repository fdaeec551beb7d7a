/** The anomaly scan's loops over a developer's last settled bets, and its automatic cap cut. */
module AnomalyDetection {
  import opened Sums
  import opened Tables
  import opened Fees
  import opened UnverifiedResults

  datatype Played = Played(playerA: Id, playerB: Option<Id>, outcome: Option<BetOutcome>)

  // ---- one winner in a row ------------------------------------------------

  /** The winner the streak loop looks at: none for a draw or an unmatched bet. */
  function WinnerOf(bet: Played): Option<Id> {
    if bet.playerB.None? || bet.outcome.None? then None
    else
      match bet.outcome.value
      case PLAYER_A_WIN => Some(bet.playerA)
      case PLAYER_B_WIN => bet.playerB
      case DRAW => None
  }

  /** The bets' winners in order, with draws and unmatched bets removed. */
  function Winners(bets: seq<Played>): seq<Id> {
    if bets == [] then []
    else
      var n := |bets| - 1;
      Winners(bets[..n]) + if WinnerOf(bets[n]).Some? then [WinnerOf(bets[n]).value] else []
  }

  /** Positions lo up to hi all went to one player. */
  predicate IsRun(winners: seq<Id>, lo: int, hi: int) {
    0 <= lo <= hi <= |winners| && forall i, j :: lo <= i < hi && lo <= j < hi ==> winners[i] == winners[j]
  }

  ghost predicate HasRun(winners: seq<Id>, length: nat) {
    exists lo, hi :: hi - lo == length && IsRun(winners, lo, hi)
  }

  predicate RunEnds(winners: seq<Id>, length: nat, hi: int) {
    IsRun(winners, hi - length, hi)
  }

  /** `hi` is where a run of this length first ends. */
  ghost predicate FirstEnds(winners: seq<Id>, length: nat, hi: int) {
    RunEnds(winners, length, hi) && forall e :: e < hi ==> !RunEnds(winners, length, e)
  }

  /** The longest run, and the winner of the first run that reaches its length. */
  ghost predicate IsLongest(winners: seq<Id>, length: nat, player: Option<Id>) {
    && (forall lo, hi :: IsRun(winners, lo, hi) ==> hi - lo <= length)
    && (length == 0 <==> winners == [])
    && (length == 0 ==> player == None)
    && (length > 0 ==> exists hi :: FirstEnds(winners, length, hi) && player == Some(winners[hi - 1]))
  }

  /** The run at the end of the list, as far back as it goes. */
  predicate IsLastRun(winners: seq<Id>, length: nat) {
    && length <= |winners| && (length == 0 <==> winners == [])
    && IsRun(winners, |winners| - length, |winners|)
    && (0 < length < |winners| ==> winners[|winners| - length - 1] != winners[|winners| - 1])
  }

  lemma RunWithin(winners: seq<Id>, next: Id, lo: int, hi: int)
    requires hi <= |winners|
    ensures IsRun(winners + [next], lo, hi) <==> IsRun(winners, lo, hi)
  {
    assert forall i :: 0 <= i < |winners| ==> (winners + [next])[i] == winners[i];
  }

  lemma LastRunGrows(winners: seq<Id>, length: nat, next: Id)
    requires IsLastRun(winners, length)
    ensures var more := winners + [next];
            var grown := if winners != [] && winners[|winners| - 1] == next then length + 1 else 1;
            && IsLastRun(more, grown)
            && (forall lo, hi :: IsRun(more, lo, hi) ==> (hi <= |winners| && IsRun(winners, lo, hi)) || hi - lo <= grown)
  {
    var more := winners + [next];
    var grown := if winners != [] && winners[|winners| - 1] == next then length + 1 else 1;
    forall lo, hi | IsRun(more, lo, hi)
      ensures (hi <= |winners| && IsRun(winners, lo, hi)) || hi - lo <= grown
    {
      if hi <= |winners| {
        RunWithin(winners, next, lo, hi);
      } else {
        var i := |more| - grown - 1;
        assert 0 <= i ==> more[i] != more[|more| - 1];
      }
    }
  }

  lemma LongestGrows(winners: seq<Id>, length: nat, player: Option<Id>, last: nat, next: Id)
    requires IsLongest(winners, length, player) && IsLastRun(winners, last) && last <= length
    ensures var more := winners + [next];
            var grown := if winners != [] && winners[|winners| - 1] == next then last + 1 else 1;
            IsLongest(more, if grown > length then grown else length, if grown > length then Some(next) else player)
  {
    var more := winners + [next];
    var grown := if winners != [] && winners[|winners| - 1] == next then last + 1 else 1;
    LastRunGrows(winners, last, next);
    if grown > length {
      forall e | e < |more|
        ensures !RunEnds(more, grown, e)
      {
        RunWithin(winners, next, e - grown, e);
      }
      assert FirstEnds(more, grown, |more|);
    } else {
      var hi :| FirstEnds(winners, length, hi) && player == Some(winners[hi - 1]);
      RunWithin(winners, next, hi - length, hi);
      forall e | e < hi
        ensures !RunEnds(more, length, e)
      {
        assert !RunEnds(winners, length, e);
        RunWithin(winners, next, e - length, e);
      }
      assert FirstEnds(more, length, hi);
    }
  }

  method FindStreak(bets: seq<Played>) returns (maxStreak: nat, maxStreakPlayer: Option<Id>)
    ensures IsLongest(Winners(bets), maxStreak, maxStreakPlayer)
  {
    hide IsLongest, IsLastRun, IsRun;
    var currentWinner: Option<Id>, streak: nat := None, 0;
    maxStreak, maxStreakPlayer := 0, None;
    EmptyStreak();
    for k := 0 to |bets|
      invariant IsLongest(Winners(bets[..k]), maxStreak, maxStreakPlayer)
      invariant IsLastRun(Winners(bets[..k]), streak) && streak <= maxStreak
      invariant currentWinner == LastOf(Winners(bets[..k]))
    {
      assert bets[..k + 1][..k] == bets[..k] && bets[..k + 1][k] == bets[k];
      var bet := bets[k];
      if bet.playerB.None? || bet.outcome.None? || bet.outcome.value == DRAW {
        assert Winners(bets[..k + 1]) == Winners(bets[..k]);
        continue;
      }
      var winner := if bet.outcome.value == PLAYER_A_WIN then bet.playerA else bet.playerB.value;
      assert Winners(bets[..k + 1]) == Winners(bets[..k]) + [winner];
      LastRunGrows(Winners(bets[..k]), streak, winner);
      LongestGrows(Winners(bets[..k]), maxStreak, maxStreakPlayer, streak, winner);
      if currentWinner == Some(winner) {
        streak := streak + 1;
      } else {
        currentWinner := Some(winner);
        streak := 1;
      }
      if streak > maxStreak {
        maxStreak := streak;
        maxStreakPlayer := Some(winner);
      }
    }
    assert bets[..|bets|] == bets;
  }

  lemma EmptyStreak()
    ensures IsLongest([], 0, None) && IsLastRun([], 0)
  {
  }

  function LastOf(winners: seq<Id>): Option<Id> {
    if winners == [] then None else Some(winners[|winners| - 1])
  }

  // ---- wins per player ----------------------------------------------------

  predicate IsCounted(bet: Played) {
    bet.playerB.Some? && bet.outcome.Some?
  }

  function Counted(bets: seq<Played>): nat {
    if bets == [] then 0
    else Counted(bets[..|bets| - 1]) + if IsCounted(bets[|bets| - 1]) then 1 else 0
  }

  /** How many counted places a player holds. */
  function PlayedBy(bets: seq<Played>, player: Id): nat {
    if bets == [] then 0
    else
      var bet := bets[|bets| - 1];
      PlayedBy(bets[..|bets| - 1], player)
      + (if IsCounted(bet) && bet.playerA == player then 1 else 0)
      + (if IsCounted(bet) && bet.playerB == Some(player) then 1 else 0)
  }

  function WinsOf(bets: seq<Played>, player: Id): nat {
    multiset(Winners(bets))[player]
  }

  function OneMore(counts: map<Id, int>, player: Id): map<Id, int> {
    counts[player := Tally(counts, player) + 1]
  }

  lemma OneMoreCounts(counts: map<Id, int>, player: Id)
    ensures MapSum(OneMore(counts, player)) == MapSum(counts) + 1
    ensures forall p :: Tally(OneMore(counts, player), p) == Tally(counts, p) + if p == player then 1 else 0
  {
    MapSumUpdate(counts, player, Tally(counts, player) + 1);
  }

  /** Every player's count is exact, and together they are two for every counted bet. */
  ghost predicate CountsBets(bets: seq<Played>, betCounts: map<Id, int>) {
    && (forall p :: p in betCounts <==> PlayedBy(bets, p) > 0)
    && (forall p :: Tally(betCounts, p) == PlayedBy(bets, p))
    && MapSum(betCounts) == 2 * Counted(bets)
  }

  ghost predicate CountsWins(bets: seq<Played>, winCounts: map<Id, int>) {
    forall p :: Tally(winCounts, p) == WinsOf(bets, p)
  }

  lemma BetCounts(bets: seq<Played>, bet: Played, betCounts: map<Id, int>)
    requires CountsBets(bets, betCounts)
    ensures CountsBets(bets + [bet], if IsCounted(bet) then OneMore(OneMore(betCounts, bet.playerA), bet.playerB.value)
                                     else betCounts)
  {
    assert (bets + [bet])[..|bets|] == bets;
    if IsCounted(bet) {
      OneMoreCounts(betCounts, bet.playerA);
      OneMoreCounts(OneMore(betCounts, bet.playerA), bet.playerB.value);
    }
  }

  lemma WinCounts(bets: seq<Played>, bet: Played, winCounts: map<Id, int>)
    requires CountsWins(bets, winCounts)
    ensures CountsWins(bets + [bet], if WinnerOf(bet).Some? then OneMore(winCounts, WinnerOf(bet).value) else winCounts)
  {
    hide WinsOf, WinnerOf;
    WinsStep(bets, bet);
    if WinnerOf(bet).Some? {
      OneMoreCounts(winCounts, WinnerOf(bet).value);
    }
  }

  method CountWins(bets: seq<Played>) returns (winCounts: map<Id, int>, betCounts: map<Id, int>)
    ensures CountsBets(bets, betCounts) && CountsWins(bets, winCounts)
  {
    hide CountsBets, CountsWins;
    winCounts, betCounts := map[], map[];
    NothingCounted();
    for k := 0 to |bets|
      invariant CountsBets(bets[..k], betCounts) && CountsWins(bets[..k], winCounts)
    {
      var bet := bets[k];
      BetCounts(bets[..k], bet, betCounts);
      WinCounts(bets[..k], bet, winCounts);
      assert bets[..k] + [bet] == bets[..k + 1];
      if bet.playerB.None? || bet.outcome.None? {
        continue;
      }
      betCounts := OneMore(betCounts, bet.playerA);
      betCounts := OneMore(betCounts, bet.playerB.value);
      if bet.outcome.value == PLAYER_A_WIN {
        winCounts := OneMore(winCounts, bet.playerA);
      } else if bet.outcome.value == PLAYER_B_WIN {
        winCounts := OneMore(winCounts, bet.playerB.value);
      }
    }
    assert bets[..|bets|] == bets;
  }

  lemma NothingCounted()
    ensures CountsBets([], map[]) && CountsWins([], map[])
  {
  }

  lemma WinsStep(bets: seq<Played>, bet: Played)
    ensures forall p :: WinsOf(bets + [bet], p) == WinsOf(bets, p) + if WinnerOf(bet) == Some(p) then 1 else 0
  {
    assert (bets + [bet])[..|bets|] == bets;
    assert Winners(bets + [bet])
           == Winners(bets) + if WinnerOf(bet).Some? then [WinnerOf(bet).value] else [];
  }

  /** Nobody wins more bets than they play. */
  lemma {:induction false} WinsAreBets(bets: seq<Played>, player: Id)
    ensures WinsOf(bets, player) <= PlayedBy(bets, player)
  {
    if bets != [] {
      var n := |bets| - 1;
      WinsAreBets(bets[..n], player);
      WinsStep(bets[..n], bets[n]);
      assert bets[..n] + [bets[n]] == bets;
    }
  }

  // ---- flagging -----------------------------------------------------------

  /** At least ten bets and more than four fifths of them won. */
  predicate IsSkewed(bets: seq<Played>, player: Id) {
    PlayedBy(bets, player) >= 10 && 5 * WinsOf(bets, player) > 4 * PlayedBy(bets, player)
  }

  function Without(winners: seq<Id>, player: Id): seq<Id> {
    if winners == [] then []
    else
      var n := |winners| - 1;
      Without(winners[..n], player) + if winners[n] == player then [] else [winners[n]]
  }

  lemma {:induction false} WithoutCounts(winners: seq<Id>, player: Id)
    ensures |Without(winners, player)| + multiset(winners)[player] == |winners|
    ensures forall p :: p != player ==> multiset(Without(winners, player))[p] == multiset(winners)[p]
  {
    if winners != [] {
      var n := |winners| - 1;
      WithoutCounts(winners[..n], player);
      assert winners == winners[..n] + [winners[n]];
    }
  }

  lemma {:induction false} FewWinOften(winners: seq<Id>, players: set<Id>)
    requires forall p :: p in players ==> multiset(winners)[p] >= 9
    ensures 9 * |players| <= |winners|
    decreases |players|
  {
    if players != {} {
      hide Without;
      var p :| p in players;
      WithoutCounts(winners, p);
      FewWinOften(Without(winners, p), players - {p});
    }
  }

  /**
   A skewed player has won at least nine bets, so nine times their number is at most the
   number of decisive bets: a sample of a hundred flags eleven players at the most.
   */
  lemma FewAreSkewed(bets: seq<Played>, players: set<Id>)
    requires forall p :: p in players ==> IsSkewed(bets, p)
    ensures 9 * |players| <= |Winners(bets)| <= |bets|
    ensures |bets| <= 100 ==> |players| <= 11
  {
    FewWinOften(Winners(bets), players);
    WinnersFit(bets);
  }

  lemma {:induction false} WinnersFit(bets: seq<Played>)
    ensures |Winners(bets)| <= |bets|
  {
    if bets != [] {
      WinnersFit(bets[..|bets| - 1]);
    }
  }

  datatype Skew = Skew(player: Id, wins: int, total: int, high: bool)

  function PlayersIn(alerts: seq<Skew>): set<Id> {
    set a | a in alerts :: a.player
  }

  /** One alert a player, with the player's figures and how far the rate is out. */
  ghost predicate AreSkews(sample: seq<Played>, alerts: seq<Skew>) {
    && (forall i, j :: 0 <= i < j < |alerts| ==> alerts[i].player != alerts[j].player)
    && (forall a :: a in alerts ==>
          && a.wins == WinsOf(sample, a.player) && a.total == PlayedBy(sample, a.player)
          && (a.high <==> 20 * a.wins > 19 * a.total))
  }

  /** `recent`: the players already flagged in the last day. */
  method DetectWinRateSkew(sample: seq<Played>, recent: set<Id>) returns (alerts: seq<Skew>)
    ensures |sample| < 20 ==> alerts == []
    ensures |sample| >= 20 ==> forall p :: p in PlayersIn(alerts) <==> IsSkewed(sample, p) && p !in recent
    ensures AreSkews(sample, alerts) && 9 * |alerts| <= |sample|
  {
    hide PlayedBy, WinsOf;
    alerts := [];
    if |sample| < 20 {
      return;
    }
    var winCounts, betCounts := CountWins(sample);
    var rest := betCounts.Keys;
    while rest != {}
      invariant rest <= betCounts.Keys
      invariant forall p :: p in PlayersIn(alerts) <==>
                  p in betCounts && p !in rest && IsSkewed(sample, p) && p !in recent
      invariant AreSkews(sample, alerts)
      invariant |PlayersIn(alerts)| == |alerts|
      decreases rest
    {
      var p :| p in rest;
      rest := rest - {p};
      var total, wins := betCounts[p], Tally(winCounts, p);
      assert wins == WinsOf(sample, p) && total == Tally(betCounts, p) == PlayedBy(sample, p);
      if total >= 10 && 5 * wins > 4 * total && p !in recent {
        MoreAlerts(sample, alerts, Skew(p, wins, total, 20 * wins > 19 * total));
        alerts := alerts + [Skew(p, wins, total, 20 * wins > 19 * total)];
      }
    }
    FewAreSkewed(sample, PlayersIn(alerts));
  }

  lemma MoreAlerts(sample: seq<Played>, alerts: seq<Skew>, last: Skew)
    requires AreSkews(sample, alerts) && last.player !in PlayersIn(alerts)
    requires last.wins == WinsOf(sample, last.player) && last.total == PlayedBy(sample, last.player)
    requires last.high <==> 20 * last.wins > 19 * last.total
    ensures AreSkews(sample, alerts + [last])
    ensures PlayersIn(alerts + [last]) == PlayersIn(alerts) + {last.player}
  {
    hide PlayedBy, WinsOf;
    assert forall i :: 0 <= i < |alerts| ==> alerts[i].player in PlayersIn(alerts);
  }

  datatype Streak = Streak(player: Id, length: nat, critical: bool)

  /** `recent`: the developer already has a streak alert from the last day. */
  method DetectSingleWinnerPattern(sample: seq<Played>, recent: bool) returns (alert: Option<Streak>)
    ensures alert.Some? <==>
              |sample| >= 11 && !recent && HasRun(Winners(sample), 11)
    ensures alert.Some? ==>
              && IsLongest(Winners(sample), alert.value.length, Some(alert.value.player))
              && (alert.value.critical <==> alert.value.length > 20)
  {
    alert := None;
    if |sample| >= 11 {
      var maxStreak, player := FindStreak(sample);
      LongEnough(Winners(sample), maxStreak, player, 11);
      if maxStreak > 10 && player.Some? && !recent {
        alert := Some(Streak(player.value, maxStreak, maxStreak > 20));
      }
    }
  }

  lemma LongEnough(winners: seq<Id>, length: nat, player: Option<Id>, least: nat)
    requires IsLongest(winners, length, player) && least > 0
    ensures length >= least <==> HasRun(winners, least)
    ensures length > 0 ==> player.Some?
  {
    if length >= least {
      var hi :| FirstEnds(winners, length, hi);
      assert IsRun(winners, hi - least, hi);
    }
  }

  // ---- the automatic cap cut ----------------------------------------------

  /** What the scan loaded of a developer, and the stored cap it may overwrite. */
  class ScannedDeveloper {
    var maxTotal: int
    const snapshot: Option<int>
    const isPlatform: bool

    constructor (maxTotal: int, hasLimit: bool, isPlatform: bool)
      ensures this.maxTotal == maxTotal && this.isPlatform == isPlatform
      ensures snapshot == if hasLimit then Some(maxTotal) else None
    {
      this.maxTotal := maxTotal;
      this.snapshot := if hasLimit then Some(maxTotal) else None;
      this.isPlatform := isPlatform;
    }

    method ReduceEscrowCap()
      modifies this
      ensures maxTotal == AfterCut(old(maxTotal), if isPlatform then None else snapshot)
    {
      if snapshot.None? || isPlatform {
        return;
      }
      maxTotal := Halved(snapshot.value);
    }

    method CutForSkews(skews: seq<Skew>) returns (cuts: nat)
      modifies this
      ensures cuts == HighIn(skews)
      ensures maxTotal == AfterCuts(old(maxTotal), if isPlatform then None else snapshot, cuts)
    {
      cuts := 0;
      for i := 0 to |skews|
        invariant maxTotal == AfterCuts(old(maxTotal), if isPlatform then None else snapshot, cuts)
        invariant cuts == HighIn(skews[..i])
      {
        assert skews[..i + 1][..i] == skews[..i];
        if skews[i].high {
          ReduceEscrowCap();
          cuts := cuts + 1;
        }
      }
      assert skews[..|skews|] == skews;
    }

    /** The four detectors of one scan; the two whose queries are not modelled say only whether they cut. */
    method Scan(sample: seq<Played>, recentSkews: set<Id>, recentStreak: bool, rapid: bool, spike: bool)
        returns (skews: seq<Skew>, streak: Option<Streak>, cuts: nat, frozen: bool)
      modifies this
      ensures AreSkews(sample, skews)
      ensures |sample| >= 20 ==> forall p :: p in PlayersIn(skews) <==> IsSkewed(sample, p) && p !in recentSkews
      ensures streak.Some? ==> IsLongest(Winners(sample), streak.value.length, Some(streak.value.player))
      ensures cuts == HighIn(skews) + (if streak.Some? && !streak.value.critical then 1 else 0)
                      + (if rapid then 1 else 0) + (if spike then 1 else 0)
      ensures maxTotal == AfterCuts(old(maxTotal), if isPlatform then None else snapshot, cuts)
      ensures streak.Some? <==>
                |sample| >= 11 && !recentStreak && HasRun(Winners(sample), 11)
      ensures streak.Some? ==>
                (streak.value.critical <==> HasRun(Winners(sample), 21))
      ensures frozen <==> streak.Some? && streak.value.critical && !isPlatform
      ensures isPlatform || snapshot.None? ==> maxTotal == old(maxTotal)
    {
      hide AreSkews, IsSkewed, PlayersIn, IsLongest, HasRun, Winners;
      skews := DetectWinRateSkew(sample, recentSkews);
      frozen := false;
      cuts := CutForSkews(skews);
      streak := DetectSingleWinnerPattern(sample, recentStreak);
      if streak.Some? {
        LongEnough(Winners(sample), streak.value.length, Some(streak.value.player), 21);
        if streak.value.critical {
          frozen := !isPlatform;
        } else {
          ReduceEscrowCap();
          cuts := cuts + 1;
        }
      }
      assert maxTotal == AfterCuts(old(maxTotal), if isPlatform then None else snapshot, cuts);
      if rapid {
        ReduceEscrowCap();
        cuts := cuts + 1;
      }
      assert maxTotal == AfterCuts(old(maxTotal), if isPlatform then None else snapshot, cuts);
      if spike {
        ReduceEscrowCap();
        cuts := cuts + 1;
      }
      NothingLoadedNothingCut(old(maxTotal), cuts);
    }
  }

  function HighIn(skews: seq<Skew>): nat {
    if skews == [] then 0 else HighIn(skews[..|skews| - 1]) + if skews[|skews| - 1].high then 1 else 0
  }

  /** A cut overwrites the stored cap with half the one loaded, whatever is stored by then. */
  function AfterCut(stored: int, snapshot: Option<int>): int {
    if snapshot.None? then stored else Halved(snapshot.value)
  }

  function AfterCuts(stored: int, snapshot: Option<int>, cuts: nat): int {
    if cuts == 0 then stored else AfterCut(AfterCuts(stored, snapshot, cuts - 1), snapshot)
  }

  /**
   Any positive number of reductions in one scan halves the cap the scan loaded, once,
   where the same number of unverified results would have halved it each time.
   */
  lemma CutsOnce(cap: int, cuts: nat)
    requires cuts > 0
    ensures AfterCuts(cap, Some(cap), cuts) == CeilDiv(cap, Pow2(1))
    ensures cuts > 1 && cap >= 3 ==> CeilDiv(cap, Pow2(cuts)) < AfterCuts(cap, Some(cap), cuts)
  {
    HalvedAgain(cap, 1);
    if cuts > 1 && cap >= 3 {
      CompoundsFurther(cap, cuts);
    }
  }

  lemma {:induction false} CompoundsFurther(cap: int, cuts: nat)
    requires cuts > 1 && cap >= 3
    ensures 1 <= CeilDiv(cap, Pow2(cuts)) < Halved(cap)
  {
    HalvedAgain(cap, Pow2(cuts - 1));
    if cuts == 2 {
      HalvedAgain(cap, Pow2(0));
    } else {
      CompoundsFurther(cap, cuts - 1);
    }
  }

  /** The platform's own developer, or one without a limit row, keeps the cap however many detectors cut. */
  lemma {:induction false} NothingLoadedNothingCut(stored: int, cuts: nat)
    ensures AfterCuts(stored, None, cuts) == stored
  {
    if cuts > 0 {
      NothingLoadedNothingCut(stored, cuts - 1);
    }
  }

  /** The winner these detectors count is whoever a settlement pays all that the fee leaves. */
  lemma WinnerIsPaidAll(bet: Played, remaining: int, player: Id)
    requires bet.playerB.Some? && bet.playerB.value != bet.playerA && bet.outcome.Some? && remaining > 1
    ensures WinnerOf(bet) == Some(player)
            <==> || (player == bet.playerA && PayoutA(remaining, bet.outcome.value) == remaining)
                 || (Some(player) == bet.playerB && PayoutB(remaining, bet.outcome.value) == remaining)
  {
  }
}
