/**
 The tidying worker: it deletes matured removals, reads matured increases and folds
 each one in with a guarded write, while customers go on changing their limits.
 */
module LimitActivation {
  import opened Tables
  import opened DepositLimits

  datatype Period = DAILY | WEEKLY | MONTHLY

  /** A limit is unique per customer and period. */
  datatype Slot = Slot(user: Id, period: Period)

  datatype Row = Row(id: nat, terms: Terms)

  type Rows = map<Slot, Row>

  function TermsAt(rows: Rows, slot: Slot): Option<Terms> {
    if slot in rows then Some(rows[slot].terms) else None
  }

  // ---- the statements, each atomic ----------------------------------------

  function AfterChange(rows: Rows, nextId: nat, slot: Slot, change: Change, now: int): Rows {
    var changed := Changed(TermsAt(rows, slot), change, now);
    if changed.None? then rows
    else rows[slot := Row(if slot in rows then rows[slot].id else nextId, changed.value)]
  }

  function AfterDelete(rows: Rows, now: int): Rows {
    map s | s in rows && !(rows[s].terms.removal && Due(rows[s].terms, now)) :: rows[s]
  }

  /** What the guarded write does to a row it matches: the amount is the one read earlier. */
  function Folded(row: Row, id: nat, amount: int, now: int): Row {
    if row.id == id && Matured(row.terms, now)
    then Row(id, Terms(amount, None, None, row.terms.removal)) else row
  }

  function AfterFold(rows: Rows, id: nat, amount: int, now: int): Rows {
    map s | s in rows :: Folded(rows[s], id, amount, now)
  }

  // ---- the table and the worker as they run -------------------------------

  datatype Staged = Staged(id: nat, amount: int)

  class LimitTable {
    var rows: Rows
    var nextId: nat

    constructor ()
      ensures rows == map[] && nextId == 0
    {
      rows, nextId := map[], 0;
    }

    /** Both the customer's routes and the cancellation; returns whether an invalid amount was refused. */
    method Change(slot: Slot, change: Change, now: int) returns (refused: bool)
      modifies this
      ensures rows == AfterChange(old(rows), old(nextId), slot, change, now)
      ensures nextId == old(nextId) + if slot in rows && slot !in old(rows) then 1 else 0
      ensures refused <==> change.Set? && !IsValidLimit(change.amount)
    {
      refused := change.Set? && !IsValidLimit(change.amount);
      var terms := if refused then None else Changed(TermsAt(rows, slot), change, now);
      if terms.Some? {
        if slot in rows {
          rows := rows[slot := Row(rows[slot].id, terms.value)];
        } else {
          rows := rows[slot := Row(nextId, terms.value)];
          nextId := nextId + 1;
        }
      }
    }

    method DeleteMatured(now: int)
      modifies this
      ensures rows == AfterDelete(old(rows), now) && nextId == old(nextId)
    {
      rows := map s | s in rows && !(rows[s].terms.removal && Due(rows[s].terms, now)) :: rows[s];
    }

    /** At most 200 of the matured rows, in no particular order. */
    method ReadMatured(now: int) returns (batch: seq<Staged>)
      ensures |batch| <= BATCH
      ensures forall e :: e in batch ==> exists s :: s in rows && Read(rows[s], now) == Some(e)
      ensures |batch| < BATCH ==> forall s :: s in rows && Read(rows[s], now).Some? ==> Read(rows[s], now).value in batch
    {
      batch := [];
      var rest := rows.Keys;
      while rest != {} && |batch| < BATCH
        invariant rest <= rows.Keys && |batch| <= BATCH
        invariant forall e :: e in batch ==> exists s :: s in rows && Read(rows[s], now) == Some(e)
        invariant forall s :: s in rows && s !in rest && Read(rows[s], now).Some? ==> Read(rows[s], now).value in batch
        decreases rest
      {
        var s :| s in rest;
        var terms := rows[s].terms;
        if Matured(terms, now) {
          assert Read(rows[s], now) == Some(Staged(rows[s].id, terms.pending.value));
          batch := batch + [Staged(rows[s].id, terms.pending.value)];
        }
        rest := rest - {s};
      }
    }

    method Fold(entry: Staged, now: int)
      modifies this
      ensures rows == AfterFold(old(rows), entry.id, entry.amount, now) && nextId == old(nextId)
    {
      rows := map s | s in rows :: Folded(rows[s], entry.id, entry.amount, now);
    }

    /**
     One scan. `before` and `between[i]` are what customers do after the deletion and
     before the i-th write; a write may also fail, and then the scan goes on.
     */
    method ProcessActivationScan(now: int, before: seq<Request>, between: seq<seq<Request>>, fails: seq<bool>)
        returns (batch: seq<Staged>)
      requires |between| == |fails| == BATCH
      modifies this
      ensures var read := RunRequests(Store(AfterDelete(old(rows), now), old(nextId)), before);
              && IsRead(read, batch, now)
              && Store(rows, nextId) == RunFolds(read, batch, now, between, fails)
    {
      DeleteMatured(now);
      Serve(before);
      batch := ReadMatured(now);
      ghost var read := Store(rows, nextId);
      for i := 0 to |batch|
        invariant Store(rows, nextId) == RunFolds(read, batch[..i], now, between, fails)
      {
        assert batch[..i + 1][..i] == batch[..i];
        Serve(between[i]);
        if !fails[i] {
          Fold(batch[i], now);
        }
      }
      assert batch[..|batch|] == batch;
    }

    method Serve(requests: seq<Request>)
      modifies this
      ensures Store(rows, nextId) == RunRequests(old(Store(rows, nextId)), requests)
    {
      for i := 0 to |requests|
        invariant Store(rows, nextId) == RunRequests(old(Store(rows, nextId)), requests[..i])
      {
        assert requests[..i + 1][..i] == requests[..i];
        var refused := Change(requests[i].slot, requests[i].change, requests[i].now);
      }
      assert requests[..|requests|] == requests;
    }
  }

  /** What the read takes from a row: the staged amount, if it has matured. */
  function Read(row: Row, now: int): Option<Staged> {
    if Matured(row.terms, now) then Some(Staged(row.id, row.terms.pending.value)) else None
  }

  const BATCH := 200

  ghost predicate IsRead(store: Store, batch: seq<Staged>, now: int) {
    && |batch| <= BATCH
    && (forall e :: e in batch ==> exists s :: s in store.rows && Read(store.rows[s], now) == Some(e))
    && (|batch| < BATCH ==> forall s :: s in store.rows && Read(store.rows[s], now).Some? ==>
          Read(store.rows[s], now).value in batch)
  }

  datatype Request = Request(slot: Slot, change: Change, now: int)

  datatype Store = Store(rows: Rows, nextId: nat)

  function AfterRequest(store: Store, request: Request): Store {
    var rows := AfterChange(store.rows, store.nextId, request.slot, request.change, request.now);
    Store(rows, store.nextId + if request.slot in rows && request.slot !in store.rows then 1 else 0)
  }

  function RunRequests(store: Store, requests: seq<Request>): Store {
    if requests == [] then store
    else AfterRequest(RunRequests(store, requests[..|requests| - 1]), requests[|requests| - 1])
  }

  function RunFolds(store: Store, batch: seq<Staged>, now: int, between: seq<seq<Request>>, fails: seq<bool>): Store
    requires |batch| <= |between| == |fails|
  {
    if batch == [] then store
    else
      var n := |batch| - 1;
      var served := RunRequests(RunFolds(store, batch[..n], now, between, fails), between[n]);
      if fails[n] then served else Store(AfterFold(served.rows, batch[n].id, batch[n].amount, now), served.nextId)
  }

  // ---- the guarded write never writes a stale amount ----------------------

  /** Every row has its shape and an id of its own. */
  ghost predicate Good(store: Store) {
    && (forall s :: s in store.rows ==> IsShaped(Some(store.rows[s].terms)) && store.rows[s].id < store.nextId)
    && (forall s, s' :: s in store.rows && s' in store.rows && s != s' ==> store.rows[s].id != store.rows[s'].id)
  }

  /** If a guarded write of the batch still matches a row, it writes what is staged there now. */
  ghost predicate Fresh(store: Store, batch: seq<Staged>, now: int) {
    forall e, s :: e in batch && s in store.rows && store.rows[s].id == e.id ==>
      Matured(store.rows[s].terms, now) ==> store.rows[s].terms.pending == Some(e.amount)
  }

  /** And the rows it was read from were there at the time, so a new row is never mistaken for one of them. */
  ghost predicate Known(store: Store, batch: seq<Staged>) {
    forall e :: e in batch ==> e.id < store.nextId
  }

  lemma ReadIsFresh(store: Store, batch: seq<Staged>, now: int)
    requires Good(store) && IsRead(store, batch, now)
    ensures Fresh(store, batch, now) && Known(store, batch)
  {
    forall e | e in batch
      ensures e.id < store.nextId
      ensures forall s :: s in store.rows && store.rows[s].id == e.id ==> Read(store.rows[s], now) == Some(e)
    {
      var s0 :| s0 in store.rows && Read(store.rows[s0], now) == Some(e);
    }
  }

  /**
   Whenever it reached the database, a request whose clock reading is less than a day
   older than the scan's stages nothing the scan's guard would match.
   */
  lemma RequestKeepsFresh(store: Store, request: Request, batch: seq<Staged>, now: int)
    requires Good(store) && Fresh(store, batch, now) && Known(store, batch) && now < request.now + LIMIT_INCREASE_DELAY
    ensures var u := AfterRequest(store, request); Good(u) && Fresh(u, batch, now) && Known(u, batch)
  {
    var u := AfterRequest(store, request);
    ChangeKeepsShape(TermsAt(store.rows, request.slot), request.change, request.now);
    forall e, s | e in batch && s in u.rows && u.rows[s].id == e.id && Matured(u.rows[s].terms, now)
      ensures u.rows[s].terms.pending == Some(e.amount)
    {
      if s == request.slot && s in store.rows {
        assert store.rows[s].id == e.id;
      }
    }
  }

  lemma FoldKeepsFresh(store: Store, entry: Staged, batch: seq<Staged>, now: int)
    requires Good(store) && Fresh(store, batch, now) && Known(store, batch) && entry in batch
    ensures var u := Store(AfterFold(store.rows, entry.id, entry.amount, now), store.nextId);
            Good(u) && Fresh(u, batch, now) && Known(u, batch)
  {
  }

  lemma {:induction false} RequestsKeepFresh(store: Store, requests: seq<Request>, batch: seq<Staged>, now: int)
    requires Good(store) && Fresh(store, batch, now) && Known(store, batch)
    requires forall i :: 0 <= i < |requests| ==> now < requests[i].now + LIMIT_INCREASE_DELAY
    ensures var u := RunRequests(store, requests); Good(u) && Fresh(u, batch, now) && Known(u, batch)
  {
    hide AfterRequest, Good, Fresh, Known;
    if requests != [] {
      var n := |requests| - 1;
      RequestsKeepFresh(store, requests[..n], batch, now);
      RequestKeepsFresh(RunRequests(store, requests[..n]), requests[n], batch, now);
    }
  }

  /**
   Whatever customers do between the read and the writes, no write of the scan puts an
   amount in a row other than the one staged there at that moment.
   */
  lemma {:induction false} FoldsWriteWhatIsStaged(read: Store, batch: seq<Staged>, k: nat, now: int,
                                                  between: seq<seq<Request>>, fails: seq<bool>)
    requires k <= |batch| <= |between| == |fails|
    requires Good(read) && Fresh(read, batch, now) && Known(read, batch)
    requires forall i, j :: 0 <= i < |between| && 0 <= j < |between[i]| ==>
               now < between[i][j].now + LIMIT_INCREASE_DELAY
    ensures var u := RunFolds(read, batch[..k], now, between, fails); Good(u) && Fresh(u, batch, now) && Known(u, batch)
    ensures k < |batch| ==> Fresh(RunRequests(RunFolds(read, batch[..k], now, between, fails), between[k]), batch, now)
  {
    hide Good, Fresh, Known, AfterFold;
    if k > 0 {
      FoldsWriteWhatIsStaged(read, batch, k - 1, now, between, fails);
      assert batch[..k][..k - 1] == batch[..k - 1];
      var u := RunFolds(read, batch[..k - 1], now, between, fails);
      RequestsKeepFresh(u, between[k - 1], batch, now);
      FoldKeepsFresh(RunRequests(u, between[k - 1]), batch[k - 1], batch, now);
    } else {
      assert batch[..0] == [];
    }
    if k < |batch| {
      RequestsKeepFresh(RunFolds(read, batch[..k], now, between, fails), between[k], batch, now);
    }
  }

  /** A day is exactly what it takes: a request that old stages an amount the guard does match, and loses it. */
  lemma RequestADayOldIsOverwritten(slot: Slot, now: int)
    ensures var raised := map[slot := Row(0, Terms(100, Some(200), Some(now), false))];
            var entry := Staged(0, 200);
            var late := Request(slot, Set(300), now - LIMIT_INCREASE_DELAY);
            var store := AfterRequest(Store(raised, 1), late);
            && Good(Store(raised, 1)) && Read(raised[slot], now) == Some(entry)
            && slot in store.rows && store.rows[slot].terms == Terms(100, Some(300), Some(now), false)
            && AfterFold(store.rows, entry.id, entry.amount, now)[slot].terms == Plain(200)
  {
  }

  // ---- what a scan leaves -------------------------------------------------

  /** Nothing in the row is waiting to be tidied. */
  predicate IsTidy(terms: Terms, now: int) {
    !(terms.removal && Due(terms, now)) && !Matured(terms, now)
  }

  predicate AllSucceed(fails: seq<bool>, n: nat)
    requires n <= |fails|
  {
    forall i :: 0 <= i < n ==> !fails[i]
  }

  predicate NoRequests(between: seq<seq<Request>>, n: nat)
    requires n <= |between|
  {
    forall i :: 0 <= i < n ==> between[i] == []
  }

  /** Each row is as it was read, or tidied because its write has been made. */
  lemma {:induction false} FoldsSoFar(read: Store, batch: seq<Staged>, now: int,
                                      between: seq<seq<Request>>, fails: seq<bool>)
    requires |batch| <= |between| == |fails| && AllSucceed(fails, |batch|) && NoRequests(between, |batch|)
    requires Good(read) && AreReads(read, batch, now)
    ensures var u := RunFolds(read, batch, now, between, fails);
            && u.rows.Keys == read.rows.Keys
            && forall s :: s in read.rows ==> u.rows[s] == Tidying(read.rows[s], batch, now)
  {
    hide Good, Matured, Tidying;
    if batch != [] {
      var n := |batch| - 1;
      assert batch == batch[..n] + [batch[n]];
      PrefixReads(read, batch, now);
      FoldsSoFar(read, batch[..n], now, between, fails);
      var u := RunFolds(read, batch[..n], now, between, fails);
      assert RunRequests(u, between[n]) == u;
      forall s | s in read.rows
        ensures Folded(u.rows[s], batch[n].id, batch[n].amount, now) == Tidying(read.rows[s], batch, now)
      {
        OneFold(read, batch, s, now);
      }
    } else {
      NothingTidied(read, now);
    }
  }

  lemma NothingTidied(read: Store, now: int)
    ensures forall s :: s in read.rows ==> Tidying(read.rows[s], [], now) == read.rows[s]
  {
  }

  ghost predicate WasRead(read: Store, e: Staged, now: int) {
    exists s :: s in read.rows && Read(read.rows[s], now) == Some(e)
  }

  ghost predicate AreReads(read: Store, batch: seq<Staged>, now: int) {
    forall e :: e in batch ==> WasRead(read, e, now)
  }

  /** A row whose write is among those made, or as it was. */
  function Tidying(row: Row, batch: seq<Staged>, now: int): Row {
    if Matured(row.terms, now) && Staged(row.id, row.terms.pending.value) in batch
    then Row(row.id, Terms(row.terms.pending.value, None, None, row.terms.removal)) else row
  }

  lemma PrefixReads(read: Store, batch: seq<Staged>, now: int)
    requires AreReads(read, batch, now) && batch != []
    ensures AreReads(read, batch[..|batch| - 1], now)
  {
    hide Read;
    var first := batch[..|batch| - 1];
    assert forall e :: e in first ==> e in batch;
  }

  lemma OneFold(read: Store, batch: seq<Staged>, slot: Slot, now: int)
    requires Good(read) && AreReads(read, batch, now) && batch != [] && slot in read.rows
    ensures var last := batch[|batch| - 1];
            Folded(Tidying(read.rows[slot], batch[..|batch| - 1], now), last.id, last.amount, now)
            == Tidying(read.rows[slot], batch, now)
  {
    var n := |batch| - 1;
    assert batch == batch[..n] + [batch[n]] && batch[n] in batch && WasRead(read, batch[n], now);
    var s0 :| s0 in read.rows && Read(read.rows[s0], now) == Some(batch[n]);
    assert s0 != slot ==> read.rows[s0].id != read.rows[slot].id;
  }

  /**
   A scan that reads every matured row and meets no failure or request leaves nothing to
   tidy: each limit still in force at its time is there with what it resolves to, nothing
   staged that is due, and a limit whose removal has come is gone.
   */
  lemma ScanTidiesAll(rows: Rows, nextId: nat, batch: seq<Staged>, now: int,
                      between: seq<seq<Request>>, fails: seq<bool>)
    requires Good(Store(rows, nextId)) && |batch| < BATCH == |between| == |fails|
    requires IsRead(Store(AfterDelete(rows, now), nextId), batch, now)
    requires AllSucceed(fails, |batch|) && NoRequests(between, |batch|)
    ensures var u := RunFolds(Store(AfterDelete(rows, now), nextId), batch, now, between, fails);
            && (forall s :: s in u.rows ==> IsTidy(u.rows[s].terms, now))
            && (forall s: Slot :: TermsAt(u.rows, s) == Resolve(TermsAt(rows, s), now))
  {
    hide RunFolds, Good, IsTidy, Resolve, AfterDelete, Tidying, Matured, Read;
    var read := Store(AfterDelete(rows, now), nextId);
    DeleteIsGood(rows, nextId, now);
    assert forall e :: e in batch ==> WasRead(read, e, now);
    FoldsSoFar(read, batch, now, between, fails);
    forall s: Slot
      ensures s in read.rows ==> IsTidy(Tidying(read.rows[s], batch, now).terms, now)
      ensures (if s in read.rows then Some(Tidying(read.rows[s], batch, now).terms) else None)
              == Resolve(TermsAt(rows, s), now)
    {
      RowIsTidied(rows, nextId, batch, now, s);
    }
  }

  lemma DeleteIsGood(rows: Rows, nextId: nat, now: int)
    requires Good(Store(rows, nextId))
    ensures Good(Store(AfterDelete(rows, now), nextId))
  {
  }

  lemma RowIsTidied(rows: Rows, nextId: nat, batch: seq<Staged>, now: int, slot: Slot)
    requires Good(Store(rows, nextId)) && |batch| < BATCH && IsRead(Store(AfterDelete(rows, now), nextId), batch, now)
    ensures var left := AfterDelete(rows, now);
            && (slot in left ==> IsTidy(Tidying(left[slot], batch, now).terms, now))
            && (if slot in left then Some(Tidying(left[slot], batch, now).terms) else None)
               == Resolve(TermsAt(rows, slot), now)
  {
    var left := AfterDelete(rows, now);
    assert slot in left && Matured(left[slot].terms, now) ==> Read(left[slot], now).Some?;
  }
}
