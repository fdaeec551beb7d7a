/** The nightly audit: what it recomputes, what it reports, and what it cannot see. */
module LedgerAudit {
  import opened Sums
  import opened Tables
  import opened Ledger
  import opened Lifecycle
  import opened Invariant
  import opened Protocol
  import opened Safety
  import opened Runs

  // ---- escrow counters ----------------------------------------------------

  function GamesOf(cat: Catalogue, developer: Id): set<Id> {
    set g | g in cat.games && cat.games[g] == developer
  }

  predicate CountsToward(s: State, games: set<Id>, bet: Id) {
    bet in s.bets && s.bets[bet].game in games && s.bets[bet].status.IsActive() && Escrow(bet) in s.balances
  }

  /** The escrow balances of the active bets on a set of games. */
  ghost function EscrowTotal(s: State, games: set<Id>): int {
    MapSum(map b | b in s.bets && CountsToward(s, games, b) :: s.balances[Escrow(b)])
  }

  ghost function ActualEscrow(s: State, developer: Id): int {
    EscrowTotal(s, GamesOf(s.cat, developer))
  }

  datatype Discrepancy = Discrepancy(developer: Id, recorded: int, actual: int, difference: int)

  method SumEscrow(db: Database, games: set<Id>) returns (total: int)
    ensures total == EscrowTotal(db.Now(), games)
  {
    ghost var s := db.Now();
    ghost var rows := map b | b in s.bets && CountsToward(s, games, b) :: s.balances[Escrow(b)];
    var rest := set b | b in db.bets && CountsToward(db.Now(), games, b);
    total := 0;
    assert rows - (rows.Keys - rest) == rows;
    while rest != {}
      invariant rest <= rows.Keys
      invariant total + MapSum(rows - (rows.Keys - rest)) == MapSum(rows)
      decreases rest
    {
      var b :| b in rest;
      MapSumPeel(rows - (rows.Keys - rest), b);
      assert rows - (rows.Keys - rest) - {b} == rows - (rows.Keys - (rest - {b}));
      total := total + db.balances[Escrow(b)];
      rest := rest - {b};
    }
    assert rows - (rows.Keys - rest) == map[];
  }

  /** One developer's finding, if the counter and the ledger disagree. */
  ghost function Finding(s: State, developer: Id): Option<Discrepancy>
    requires developer in s.limits
  {
    var recorded, actual := s.limits[developer].current, ActualEscrow(s, developer);
    if recorded == actual then None else Some(Discrepancy(developer, recorded, actual, recorded - actual))
  }

  /** No row is reported twice, and the rows reported are exactly the findings over `among`. */
  ghost predicate Reports(s: State, found: seq<Discrepancy>, among: set<Id>)
    requires among <= s.limits.Keys
  {
    && (forall i, j :: 0 <= i < j < |found| ==> found[i].developer != found[j].developer)
    && (forall i :: 0 <= i < |found| ==> found[i].developer in among && Finding(s, found[i].developer) == Some(found[i]))
    && (forall d :: d in among && Finding(s, d).Some? ==> Finding(s, d).value in found)
  }

  method VerifyDeveloperEscrowLimits(db: Database) returns (discrepancies: seq<Discrepancy>)
    ensures Reports(db.Now(), discrepancies, db.limits.Keys)
  {
    hide EscrowTotal;
    ghost var s := db.Now();
    discrepancies := [];
    var rest := db.limits.Keys;
    while rest != {}
      invariant rest <= db.limits.Keys
      invariant Reports(s, discrepancies, db.limits.Keys - rest)
      decreases rest
    {
      var developer :| developer in rest;
      var recorded := db.limits[developer].current;
      var games := GamesOf(db.cat, developer);
      if games == {} {
        NoGamesNoEscrow(s);
        if recorded != 0 {
          discrepancies := discrepancies + [Discrepancy(developer, recorded, 0, recorded)];
        }
      } else {
        var actual := SumEscrow(db, games);
        if recorded != actual {
          discrepancies := discrepancies + [Discrepancy(developer, recorded, actual, recorded - actual)];
        }
      }
      rest := rest - {developer};
    }
  }

  lemma NoGamesNoEscrow(s: State)
    ensures EscrowTotal(s, {}) == 0
  {
    assert (map b | b in s.bets && CountsToward(s, {}, b) :: s.balances[Escrow(b)]) == map[];
  }

  // ---- the ledger itself --------------------------------------------------

  /** Accounts and transactions out of balance, and the sum of every entry. */
  datatype Report = Report(accounts: set<Account>, transactions: set<Key>, totalSum: int) {
    predicate IsHealthy() {
      accounts == {} && transactions == {} && totalSum == 0
    }
  }

  function AccountsAdrift(s: State): set<Account> {
    set a | a in s.balances && s.balances[a] != AccountSum(s.entries, a)
  }

  function TransactionsAdrift(s: State): set<Key> {
    set e | e in s.entries && KeySum(s.entries, e.key) != 0 :: e.key
  }

  /** The three groupings of the entry table, in one pass each way the queries group it. */
  method SumEntries(entries: seq<Entry>)
      returns (byAccount: map<Account, int>, byKey: map<Key, int>, total: int)
    ensures forall a: Account :: Tally(byAccount, a) == AccountSum(entries, a)
    ensures forall k: Key :: Tally(byKey, k) == KeySum(entries, k)
    ensures forall k :: k in byKey <==> exists e :: e in entries && e.key == k
    ensures total == TotalSum(entries)
  {
    byAccount, byKey, total := map[], map[], 0;
    for i := 0 to |entries|
      invariant forall a: Account :: Tally(byAccount, a) == AccountSum(entries[..i], a)
      invariant forall k: Key :: Tally(byKey, k) == KeySum(entries[..i], k)
      invariant forall k :: k in byKey <==> exists e :: e in entries[..i] && e.key == k
      invariant total == TotalSum(entries[..i])
    {
      var e := entries[i];
      assert entries[..i + 1] == entries[..i] + [e];
      SumsAppend(entries[..i], e);
      byAccount := byAccount[e.account := Tally(byAccount, e.account) + e.amount];
      byKey := byKey[e.key := Tally(byKey, e.key) + e.amount];
      total := total + e.amount;
    }
    assert entries[..|entries|] == entries;
  }

  method RunFullAudit(db: Database) returns (report: Report)
    ensures report == Report(AccountsAdrift(db.Now()), TransactionsAdrift(db.Now()), TotalSum(db.entries))
  {
    hide AccountSum, KeySum, TotalSum;
    var byAccount, byKey, total := SumEntries(db.entries);
    var accounts, rest := {}, db.balances.Keys;
    while rest != {}
      invariant rest <= db.balances.Keys
      invariant accounts == set a | a in db.balances.Keys - rest && db.balances[a] != AccountSum(db.entries, a)
      decreases rest
    {
      var a :| a in rest;
      if db.balances[a] != Tally(byAccount, a) {
        accounts := accounts + {a};
      }
      rest := rest - {a};
    }
    var transactions := set k | k in byKey && byKey[k] != 0;
    GroupsAreTransactions(db.Now(), byKey, transactions);
    report := Report(accounts, transactions, total);
  }

  lemma GroupsAreTransactions(s: State, byKey: map<Key, int>, transactions: set<Key>)
    requires forall k: Key :: Tally(byKey, k) == KeySum(s.entries, k)
    requires forall k :: k in byKey <==> exists e :: e in s.entries && e.key == k
    requires forall k :: k in transactions <==> k in byKey && byKey[k] != 0
    ensures transactions == TransactionsAdrift(s)
  {
    hide KeySum;
    assert forall k :: k in byKey ==> byKey[k] == Tally(byKey, k);
    forall k | k in transactions
      ensures k in TransactionsAdrift(s)
    {
      var e :| e in s.entries && e.key == k;
    }
  }

  method ProcessLedgerAudit(db: Database) returns (report: Report, discrepancies: seq<Discrepancy>, healthy: bool)
    ensures healthy <==> Healthy(db.Now())
    ensures report == Report(AccountsAdrift(db.Now()), TransactionsAdrift(db.Now()), TotalSum(db.entries))
    ensures Reports(db.Now(), discrepancies, db.limits.Keys)
  {
    report := RunFullAudit(db);
    discrepancies := VerifyDeveloperEscrowLimits(db);
    healthy := report.IsHealthy() && |discrepancies| == 0;
    ReportsNothingIff(db.Now(), discrepancies);
  }

  lemma ReportsNothingIff(s: State, found: seq<Discrepancy>)
    requires Reports(s, found, s.limits.Keys)
    ensures |found| == 0 <==> forall d :: d in s.limits ==> s.limits[d].current == ActualEscrow(s, d)
  {
    hide ActualEscrow;
    if |found| > 0 {
      assert Finding(s, found[0].developer).Some?;
    }
  }

  /** What the worker logs as healthy. */
  ghost predicate Healthy(s: State) {
    && AccountsAdrift(s) == {} && TransactionsAdrift(s) == {} && TotalSum(s.entries) == 0
    && forall d :: d in s.limits ==> s.limits[d].current == ActualEscrow(s, d)
  }

  // ---- in every reachable state -------------------------------------------

  /** When each escrow holds what its phase says, the ledger sum is the exposure. */
  lemma ActualIsExposure(s: State, developer: Id)
    requires RowsSound(s)
    ensures ActualEscrow(s, developer) == Exposure(s, developer)
  {
    hide KeySound, DisputeSound, AssignmentSound, CatalogueSound;
    var games := GamesOf(s.cat, developer);
    var all := map b | b in s.bets :: HeldFor(s, developer, s.bets[b]);
    var active := map b | b in s.bets && CountsToward(s, games, b) :: s.balances[Escrow(b)];
    forall b | b in all
      ensures all[b] == if b in active then active[b] else 0
    {
      assert RowSound(s, b);
    }
    MapSumSupport(all, active);
  }

  lemma BooksAreHealthy(s: State)
    requires Books(s)
    ensures AccountsAdrift(s) == {} && TransactionsAdrift(s) == {} && TotalSum(s.entries) == 0
  {
    hide AccountSum, KeySum;
    assert forall a :: a in s.balances ==> Bal(s, a) == s.balances[a];
  }

  lemma SoundIsHealthy(s: State)
    requires Sound(s)
    ensures Healthy(s)
  {
    hide Books, RowsSound, ActualEscrow, Exposure, AccountsAdrift, TransactionsAdrift;
    BooksAreHealthy(s);
    forall d | d in s.limits
      ensures s.limits[d].current == ActualEscrow(s, d)
    {
      ActualIsExposure(s, d);
    }
  }

  /** The audit passes after every run of the protocol. */
  lemma AuditPasses(s: State, steps: seq<Step>)
    requires Initial(s) && NeverReopens(s, steps)
    ensures Healthy(Run(s, steps))
  {
    hide Sound, Healthy, Run, NeverReopens, Initial;
    InitialIsLegal(s);
    RunKeepsLegal(s, steps);
    SoundIsHealthy(Run(s, steps));
  }

  /**
   But it compares counters with balances, not balances with phases: reopening a bet that
   has been paid out or refunded leaves the audit healthy.
   */
  lemma ReopeningIsInvisible(s: State, dispute: Id, ruling: Ruling, now: int)
    requires Sound(s) && Reopens(s, Rules(dispute, ruling, now))
    ensures Healthy(Apply(s, Rules(dispute, ruling, now)))
  {
    hide Books, ActualEscrow, CountersAgree, Solvent, KeySound, DisputeSound, AssignmentSound, Sound, RowsSound,
      Healthy;
    var t := AfterRuling(s, dispute, ruling, now).state;
    var bet := s.disputes[dispute].bet;
    SoundIsHealthy(s);
    EmptyEscrow(s, bet);
    ReopenedLedger(s, t, bet);
  }

  lemma EmptyEscrow(s: State, bet: Id)
    requires Sound(s) && bet in s.bets && s.bets[bet].status.IsTerminal()
    ensures Bal(s, Escrow(bet)) == 0
  {
    assert RowSound(s, bet);
  }

  lemma ReopenedLedger(s: State, t: State, bet: Id)
    requires Healthy(s) && bet in s.bets && s.bets[bet].status.IsTerminal() && Bal(s, Escrow(bet)) == 0
    requires t == s.(bets := t.bets, disputes := t.disputes, assignments := t.assignments)
    requires bet in t.bets && t.bets == s.bets[bet := t.bets[bet]] && t.bets[bet].game == s.bets[bet].game
    ensures Healthy(t)
  {
    hide AccountSum, KeySum, TotalSum, ActualEscrow, Bal;
    forall d | d in s.limits
      ensures ActualEscrow(t, d) == ActualEscrow(s, d)
    {
      SameActual(s, t, bet, d);
    }
  }

  lemma SameActual(s: State, t: State, bet: Id, developer: Id)
    requires bet in s.bets && s.bets[bet].status.IsTerminal() && Bal(s, Escrow(bet)) == 0
    requires t.balances == s.balances && t.cat == s.cat
    requires bet in t.bets && t.bets == s.bets[bet := t.bets[bet]] && t.bets[bet].game == s.bets[bet].game
    ensures ActualEscrow(t, developer) == ActualEscrow(s, developer)
  {
    hide GamesOf;
    var games := GamesOf(s.cat, developer);
    var before := map b | b in s.bets && CountsToward(s, games, b) :: s.balances[Escrow(b)];
    var after := map b | b in t.bets && CountsToward(t, games, b) :: t.balances[Escrow(b)];
    assert before.Keys <= after.Keys;
    MapSumSupport(after, before);
  }

  // ---- what the audit catches ---------------------------------------------

  /** Healthy means what it says of every account, every transaction and every developer, used or not. */
  lemma HealthyIff(s: State)
    ensures Healthy(s) <==>
              && (forall a :: a in s.balances ==> s.balances[a] == AccountSum(s.entries, a))
              && (forall k: Key :: KeySum(s.entries, k) == 0) && TotalSum(s.entries) == 0
              && (forall d :: d in s.limits ==> s.limits[d].current == ActualEscrow(s, d))
  {
    hide AccountSum, KeySum, TotalSum, ActualEscrow, AccountsAdrift, TransactionsAdrift;
    AccountsIff(s);
    TransactionsIff(s);
  }

  lemma AccountsIff(s: State)
    ensures AccountsAdrift(s) == {} <==> forall a :: a in s.balances ==> s.balances[a] == AccountSum(s.entries, a)
  {
    hide AccountSum;
    forall a | a in s.balances && s.balances[a] != AccountSum(s.entries, a)
      ensures AccountsAdrift(s) != {}
    {
      assert a in AccountsAdrift(s);
    }
  }

  lemma TransactionsIff(s: State)
    ensures TransactionsAdrift(s) == {} <==> forall k: Key :: KeySum(s.entries, k) == 0
  {
    hide KeySum;
    forall k: Key | KeySum(s.entries, k) != 0
      ensures k in TransactionsAdrift(s)
    {
      UsedIfNonzero(s.entries, k);
    }
    if k :| k in TransactionsAdrift(s) {
      assert KeySum(s.entries, k) != 0;
    }
  }

  lemma {:induction false} UsedIfNonzero(entries: seq<Entry>, k: Key)
    requires KeySum(entries, k) != 0
    ensures exists e :: e in entries && e.key == k
  {
    var n := |entries| - 1;
    if entries[n].key != k {
      UsedIfNonzero(entries[..n], k);
      var e :| e in entries[..n] && e.key == k;
      assert e in entries;
    } else {
      assert entries[n] in entries;
    }
  }

  /** A balance written behind the ledger's back, or a counter off by anything, is found the next night. */
  lemma DriftIsCaught(s: State, a: Account, developer: Id, drift: int)
    requires Sound(s) && drift != 0
    ensures a in s.balances ==> !Healthy(s.(balances := s.balances[a := s.balances[a] + drift]))
    ensures developer in s.limits ==>
              !Healthy(s.(limits := s.limits[developer :=
                s.limits[developer].(current := s.limits[developer].current + drift)]))
  {
    hide AccountSum, KeySum, TotalSum, ActualEscrow, RowsSound, CountersAgree, Healthy;
    SoundIsHealthy(s);
    HealthyIff(s);
    if a in s.balances {
      HealthyIff(s.(balances := s.balances[a := s.balances[a] + drift]));
    }
    if developer in s.limits {
      var t := s.(limits := s.limits[developer := s.limits[developer].(current := s.limits[developer].current + drift)]);
      HealthyIff(t);
      SameEscrow(s, t, developer);
      assert t.limits[developer].current != ActualEscrow(t, developer);
    }
  }

  lemma SameEscrow(s: State, t: State, developer: Id)
    requires t == s.(limits := t.limits)
    ensures ActualEscrow(t, developer) == ActualEscrow(s, developer)
  {
    var games := GamesOf(s.cat, developer);
    assert (map b | b in s.bets && CountsToward(s, games, b) :: s.balances[Escrow(b)])
           == (map b | b in t.bets && CountsToward(t, games, b) :: t.balances[Escrow(b)]);
  }
}
