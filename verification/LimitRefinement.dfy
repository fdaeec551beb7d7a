/**
 The tidying worker against a worker that never runs: with the same customer
 requests, the limits agree, and where a cancellation makes them part the stalled
 worker's are the stricter.
 */
module LimitRefinement {
  import opened Tables
  import opened DepositLimits
  import opened LimitActivation

  // ---- one limit ----------------------------------------------------------

  /** `w` is `n` with the worker's tidying, done or not yet done by `clock`. */
  predicate Tidied(w: Option<Terms>, n: Option<Terms>, clock: int) {
    w == n || w == Resolve(n, clock)
  }

  /** The stalled row `n` holds the customer to no more than the worker's row `w`, now and as staged. */
  predicate Stricter(n: Option<Terms>, w: Option<Terms>) {
    w.Some? ==>
      && n.Some? && n.value.amount <= w.value.amount
      && (n.value.removal <==> w.value.removal)
      && (n.value.removal ==> n.value.effectiveAt == w.value.effectiveAt)
      && (w.value.pending.Some? ==> n.value.pending == w.value.pending && n.value.effectiveAt == w.value.effectiveAt)
      && (n.value.pending.Some? && w.value.pending.None? ==> n.value.pending.value <= w.value.amount)
  }

  /** `exact`: no cancellation so far has met a matured change that nobody had tidied. */
  predicate Related(w: Option<Terms>, n: Option<Terms>, clock: int, exact: bool) {
    IsShaped(w) && IsShaped(n) && Stricter(n, w) && (exact ==> Tidied(w, n, clock))
  }

  lemma RelatedMeans(w: Option<Terms>, n: Option<Terms>, clock: int, exact: bool, t: int)
    requires Related(w, n, clock, exact) && (exact ==> clock <= t)
    ensures NoLooser(Effective(n, t), Effective(w, t))
    ensures exact ==> Effective(n, t) == Effective(w, t)
    ensures Related(w, n, t, exact)
  {
  }

  lemma ChangeRelates(w: Option<Terms>, n: Option<Terms>, change: Change, now: int, exact: bool)
    requires Related(w, n, now, exact)
    requires exact && change.Cancel? ==> Resolve(n, now) == n
    ensures Related(Changed(w, change, now), Changed(n, change, now), now, exact)
  {
    ChangeKeepsShape(w, change, now);
    ChangeKeepsShape(n, change, now);
  }

  lemma DeleteRelates(w: Option<Terms>, n: Option<Terms>, now: int, clock: int, exact: bool)
    requires Related(w, n, clock, exact) && (exact ==> now <= clock)
    ensures w.Some? && w.value.removal && Due(w.value, now) ==> Related(None, n, clock, exact)
  {
  }

  lemma FoldRelates(w: Option<Terms>, n: Option<Terms>, now: int, clock: int, exact: bool)
    requires Related(w, n, clock, exact) && (exact ==> now <= clock) && w.Some? && Matured(w.value, now)
    ensures Related(Some(Terms(w.value.pending.value, None, None, w.value.removal)), n, clock, exact)
  {
  }

  // ---- the whole table ----------------------------------------------------

  ghost predicate AllRelated(w: Store, n: Store, clock: int, exact: bool) {
    forall s: Slot :: Related(TermsAt(w.rows, s), TermsAt(n.rows, s), clock, exact)
  }

  function Clock(requests: seq<Request>, from: int): int {
    if requests == [] then from else requests[|requests| - 1].now
  }

  predicate Timely(requests: seq<Request>, from: int) {
    && (forall i :: 0 <= i < |requests| ==> from <= requests[i].now)
    && (forall i, j :: 0 <= i < j < |requests| ==> requests[i].now <= requests[j].now)
  }

  /** Every cancellation finds nothing matured in the row as stored without a worker. */
  predicate CancelsInTime(n: Store, requests: seq<Request>) {
    forall i :: 0 <= i < |requests| && requests[i].change.Cancel? ==>
      var row := TermsAt(RunRequests(n, requests[..i]).rows, requests[i].slot);
      Resolve(row, requests[i].now) == row
  }

  lemma LaterRelated(w: Store, n: Store, clock: int, later: int, exact: bool)
    requires AllRelated(w, n, clock, exact) && (exact ==> clock <= later)
    ensures AllRelated(w, n, later, exact)
  {
    hide Related;
    forall s: Slot
      ensures Related(TermsAt(w.rows, s), TermsAt(n.rows, s), later, exact)
    {
      RelatedMeans(TermsAt(w.rows, s), TermsAt(n.rows, s), clock, exact, later);
    }
  }

  lemma RequestRelates(w: Store, n: Store, request: Request, exact: bool)
    requires AllRelated(w, n, request.now, exact)
    requires exact && request.change.Cancel? ==>
               Resolve(TermsAt(n.rows, request.slot), request.now) == TermsAt(n.rows, request.slot)
    ensures AllRelated(AfterRequest(w, request), AfterRequest(n, request), request.now, exact)
  {
    hide Related, Changed, Resolve;
    ChangeRelates(TermsAt(w.rows, request.slot), TermsAt(n.rows, request.slot), request.change, request.now, exact);
    RequestWrites(w, request);
    RequestWrites(n, request);
  }

  lemma RequestWrites(store: Store, request: Request)
    ensures forall s: Slot :: TermsAt(AfterRequest(store, request).rows, s)
              == if s == request.slot then Changed(TermsAt(store.rows, s), request.change, request.now)
                 else TermsAt(store.rows, s)
  {
  }

  lemma {:induction false} RequestsRelate(w: Store, n: Store, requests: seq<Request>, clock: int, exact: bool)
    requires AllRelated(w, n, clock, exact)
    requires exact ==> Timely(requests, clock) && CancelsInTime(n, requests)
    ensures AllRelated(RunRequests(w, requests), RunRequests(n, requests), Clock(requests, clock), exact)
    ensures exact ==> clock <= Clock(requests, clock)
  {
    hide AllRelated, AfterRequest, Resolve;
    if requests != [] {
      var k := |requests| - 1;
      var first := requests[..k];
      forall i | 0 <= i < k
        ensures first[..i] == requests[..i]
      {
      }
      RequestsRelate(w, n, first, clock, exact);
      LaterRelated(RunRequests(w, first), RunRequests(n, first), Clock(first, clock), requests[k].now, exact);
      RequestRelates(RunRequests(w, first), RunRequests(n, first), requests[k], exact);
    }
  }

  lemma DeletionRelates(w: Store, n: Store, now: int, clock: int, exact: bool)
    requires AllRelated(w, n, clock, exact) && (exact ==> now <= clock)
    ensures AllRelated(Store(AfterDelete(w.rows, now), w.nextId), n, clock, exact)
  {
    hide Related;
    forall s: Slot
      ensures Related(TermsAt(AfterDelete(w.rows, now), s), TermsAt(n.rows, s), clock, exact)
    {
      DeleteRelates(TermsAt(w.rows, s), TermsAt(n.rows, s), now, clock, exact);
    }
  }

  lemma FoldingRelates(w: Store, n: Store, entry: Staged, batch: seq<Staged>, now: int, clock: int, exact: bool)
    requires AllRelated(w, n, clock, exact) && (exact ==> now <= clock) && Fresh(w, batch, now) && entry in batch
    ensures AllRelated(Store(AfterFold(w.rows, entry.id, entry.amount, now), w.nextId), n, clock, exact)
  {
    hide Related;
    var rows := AfterFold(w.rows, entry.id, entry.amount, now);
    forall s: Slot
      ensures Related(TermsAt(rows, s), TermsAt(n.rows, s), clock, exact)
    {
      if s in w.rows && w.rows[s].id == entry.id && Matured(w.rows[s].terms, now) {
        FoldRelates(TermsAt(w.rows, s), TermsAt(n.rows, s), now, clock, exact);
      }
    }
  }

  // ---- one scan amid the requests -----------------------------------------

  /** The requests served while the first `k` writes of a scan were made. */
  function ServedBetween(between: seq<seq<Request>>, k: nat): seq<Request>
    requires k <= |between|
  {
    if k == 0 then [] else ServedBetween(between, k - 1) + between[k - 1]
  }

  lemma {:induction false} RequestsConcat(store: Store, first: seq<Request>, rest: seq<Request>)
    ensures RunRequests(store, first + rest) == RunRequests(RunRequests(store, first), rest)
  {
    hide AfterRequest;
    if rest == [] {
      assert first + rest == first;
    } else {
      var k := |rest| - 1;
      RequestsConcat(store, first, rest[..k]);
      assert (first + rest)[..|first| + k] == first + rest[..k];
    }
  }

  lemma {:induction false} FoldsRelate(w: Store, n: Store, batch: seq<Staged>, k: nat, now: int,
                                       between: seq<seq<Request>>, fails: seq<bool>, clock: int, exact: bool)
    requires k <= |batch| <= |between| == |fails|
    requires AllRelated(w, n, clock, exact) && Good(w) && Fresh(w, batch, now) && Known(w, batch)
    requires forall i, j :: 0 <= i < |between| && 0 <= j < |between[i]| ==>
               now < between[i][j].now + LIMIT_INCREASE_DELAY
    requires exact ==> now <= clock && Timely(ServedBetween(between, k), clock)
    requires exact ==> CancelsInTime(n, ServedBetween(between, k))
    ensures var served := ServedBetween(between, k);
            AllRelated(RunFolds(w, batch[..k], now, between, fails), RunRequests(n, served), Clock(served, clock), exact)
  {
    hide AllRelated, Good, Fresh, Known, AfterFold, CancelsInTime, Timely;
    if k == 0 {
      assert batch[..0] == [];
    } else {
      var before, served := ServedBetween(between, k - 1), ServedBetween(between, k);
      Split(n, before, between[k - 1], clock, exact);
      FoldsRelate(w, n, batch, k - 1, now, between, fails, clock, exact);
      assert batch[..k][..k - 1] == batch[..k - 1];
      var u, m := RunFolds(w, batch[..k - 1], now, between, fails), RunRequests(n, before);
      RequestsRelate(u, m, between[k - 1], Clock(before, clock), exact);
      FoldsWriteWhatIsStaged(w, batch, k - 1, now, between, fails);
      FoldingRelates(RunRequests(u, between[k - 1]), RunRequests(m, between[k - 1]), batch[k - 1], batch, now,
                     Clock(between[k - 1], Clock(before, clock)), exact);
    }
  }

  /** A request list in two parts: each part is timely and cancels in time, from where the first leaves off. */
  lemma Split(n: Store, first: seq<Request>, rest: seq<Request>, clock: int, exact: bool)
    requires exact ==> Timely(first + rest, clock) && CancelsInTime(n, first + rest)
    ensures RunRequests(n, first + rest) == RunRequests(RunRequests(n, first), rest)
    ensures Clock(first + rest, clock) == Clock(rest, Clock(first, clock))
    ensures exact ==>
              && Timely(first, clock) && Timely(rest, Clock(first, clock)) && clock <= Clock(first, clock)
              && CancelsInTime(n, first) && CancelsInTime(RunRequests(n, first), rest)
  {
    hide CancelsInTime, RunRequests;
    var all := first + rest;
    assert forall i :: 0 <= i < |first| ==> all[i] == first[i];
    assert forall i :: 0 <= i < |rest| ==> all[|first| + i] == rest[i];
    SplitCancels(n, first, rest, exact);
  }

  /** One scan of the worker and everything customers ask for since the one before. */
  datatype Pass = Pass(
    idle: seq<Request>, now: int, before: seq<Request>, batch: seq<Staged>,
    between: seq<seq<Request>>, fails: seq<bool>)

  function Requests(pass: Pass): seq<Request>
    requires |pass.batch| <= |pass.between|
  {
    pass.idle + (pass.before + ServedBetween(pass.between, |pass.batch|))
  }

  function ReadStore(store: Store, pass: Pass): Store {
    var idle := RunRequests(store, pass.idle);
    RunRequests(Store(AfterDelete(idle.rows, pass.now), idle.nextId), pass.before)
  }

  function AfterPass(store: Store, pass: Pass): Store
    requires |pass.batch| <= |pass.between| == |pass.fails|
  {
    RunFolds(ReadStore(store, pass), pass.batch, pass.now, pass.between, pass.fails)
  }

  /** The scan writes what it read; no request that lands between its writes read its clock a day before it. */
  ghost predicate IsPass(store: Store, pass: Pass) {
    && |pass.batch| <= |pass.between| == |pass.fails|
    && (forall i, j :: 0 <= i < |pass.between| && 0 <= j < |pass.between[i]| ==>
          pass.now < pass.between[i][j].now + LIMIT_INCREASE_DELAY)
    && IsRead(ReadStore(store, pass), pass.batch, pass.now)
  }

  /** The clock readings come in the order of the writes. */
  predicate InOrder(pass: Pass, clock: int)
    requires |pass.batch| <= |pass.between|
  {
    && Timely(pass.idle, clock) && Clock(pass.idle, clock) <= pass.now
    && Timely(pass.before + ServedBetween(pass.between, |pass.batch|), pass.now)
  }

  function EndOf(pass: Pass): int
    requires |pass.batch| <= |pass.between|
  {
    Clock(pass.before + ServedBetween(pass.between, |pass.batch|), pass.now)
  }

  lemma DeleteKeepsGood(store: Store, now: int)
    requires Good(store)
    ensures Good(Store(AfterDelete(store.rows, now), store.nextId))
  {
  }

  lemma {:induction false} RequestsKeepGood(store: Store, requests: seq<Request>)
    requires Good(store)
    ensures Good(RunRequests(store, requests))
  {
    hide AfterRequest, Good;
    if requests != [] {
      var k := |requests| - 1;
      RequestsKeepGood(store, requests[..k]);
      NothingIsFresh(RunRequests(store, requests[..k]), requests[k].now);
      RequestKeepsFresh(RunRequests(store, requests[..k]), requests[k], [], requests[k].now);
    }
  }

  lemma NothingIsFresh(store: Store, now: int)
    ensures Fresh(store, [], now) && Known(store, [])
  {
  }

  lemma PassRelates(w: Store, n: Store, pass: Pass, clock: int, exact: bool)
    requires AllRelated(w, n, clock, exact) && Good(w) && IsPass(w, pass)
    requires exact ==> InOrder(pass, clock) && CancelsInTime(n, Requests(pass))
    ensures AllRelated(AfterPass(w, pass), RunRequests(n, Requests(pass)), EndOf(pass), exact)
    ensures Good(AfterPass(w, pass))
  {
    hide AllRelated, Good, Fresh, Known, CancelsInTime, Timely, AfterDelete, IsRead, Clock;
    var k := |pass.batch|;
    var served := ServedBetween(pass.between, k);
    var rest := pass.before + served;
    SplitCancels(n, pass.idle, rest, exact);
    RequestsRelate(w, n, pass.idle, clock, exact);
    RequestsKeepGood(w, pass.idle);
    var w1, n1 := RunRequests(w, pass.idle), RunRequests(n, pass.idle);
    LaterRelated(w1, n1, Clock(pass.idle, clock), pass.now, exact);
    DeletionRelates(w1, n1, pass.now, pass.now, exact);
    DeleteKeepsGood(w1, pass.now);
    var w2 := Store(AfterDelete(w1.rows, pass.now), w1.nextId);
    Split(n1, pass.before, served, pass.now, exact);
    RequestsRelate(w2, n1, pass.before, pass.now, exact);
    RequestsKeepGood(w2, pass.before);
    var w3, n3 := RunRequests(w2, pass.before), RunRequests(n1, pass.before);
    ReadIsFresh(w3, pass.batch, pass.now);
    FoldsRelate(w3, n3, pass.batch, k, pass.now, pass.between, pass.fails, Clock(pass.before, pass.now), exact);
    FoldsWriteWhatIsStaged(w3, pass.batch, k, pass.now, pass.between, pass.fails);
    assert pass.batch[..k] == pass.batch;
  }

  lemma SplitCancels(n: Store, first: seq<Request>, rest: seq<Request>, exact: bool)
    requires exact ==> CancelsInTime(n, first + rest)
    ensures RunRequests(n, first + rest) == RunRequests(RunRequests(n, first), rest)
    ensures exact ==> CancelsInTime(n, first) && CancelsInTime(RunRequests(n, first), rest)
  {
    hide Resolve, RunRequests;
    var all := first + rest;
    RequestsConcat(n, first, rest);
    if exact {
      forall i | 0 <= i < |first| && first[i].change.Cancel?
        ensures var row := TermsAt(RunRequests(n, first[..i]).rows, first[i].slot); Resolve(row, first[i].now) == row
      {
        assert all[..i] == first[..i] && all[i] == first[i];
      }
      forall i | 0 <= i < |rest| && rest[i].change.Cancel?
        ensures var row := TermsAt(RunRequests(RunRequests(n, first), rest[..i]).rows, rest[i].slot);
                Resolve(row, rest[i].now) == row
      {
        assert all[..|first| + i] == first + rest[..i] && all[|first| + i] == rest[i];
        RequestsConcat(n, first, rest[..i]);
      }
    }
  }

  // ---- any number of scans ------------------------------------------------

  ghost predicate ArePasses(store: Store, passes: seq<Pass>)
    decreases |passes|
  {
    passes == [] || (IsPass(store, passes[0]) && ArePasses(AfterPass(store, passes[0]), passes[1..]))
  }

  predicate AllInOrder(passes: seq<Pass>, clock: int)
    requires forall i :: 0 <= i < |passes| ==> |passes[i].batch| <= |passes[i].between|
    decreases |passes|
  {
    passes == [] || (InOrder(passes[0], clock) && AllInOrder(passes[1..], EndOf(passes[0])))
  }

  ghost predicate AllInTime(n: Store, passes: seq<Pass>)
    requires forall i :: 0 <= i < |passes| ==> |passes[i].batch| <= |passes[i].between|
    decreases |passes|
  {
    passes == []
    || (CancelsInTime(n, Requests(passes[0])) && AllInTime(RunRequests(n, Requests(passes[0])), passes[1..]))
  }

  function AfterPasses(store: Store, passes: seq<Pass>): Store
    requires forall i :: 0 <= i < |passes| ==> |passes[i].batch| <= |passes[i].between| == |passes[i].fails|
    decreases |passes|
  {
    if passes == [] then store else AfterPasses(AfterPass(store, passes[0]), passes[1..])
  }

  /** The same requests with no worker. */
  function Stalled(store: Store, passes: seq<Pass>): Store
    requires forall i :: 0 <= i < |passes| ==> |passes[i].batch| <= |passes[i].between|
    decreases |passes|
  {
    if passes == [] then store else Stalled(RunRequests(store, Requests(passes[0])), passes[1..])
  }

  function EndOfAll(passes: seq<Pass>, clock: int): int
    requires forall i :: 0 <= i < |passes| ==> |passes[i].batch| <= |passes[i].between|
  {
    if passes == [] then clock else EndOf(passes[|passes| - 1])
  }

  lemma {:induction false} PassesRelate(w: Store, n: Store, passes: seq<Pass>, clock: int, exact: bool)
    requires forall i :: 0 <= i < |passes| ==> |passes[i].batch| <= |passes[i].between| == |passes[i].fails|
    requires AllRelated(w, n, clock, exact) && Good(w) && ArePasses(w, passes)
    requires exact ==> AllInOrder(passes, clock) && AllInTime(n, passes)
    ensures AllRelated(AfterPasses(w, passes), Stalled(n, passes), EndOfAll(passes, clock), exact)
    decreases |passes|
  {
    hide AllRelated, Good, IsPass, InOrder, AfterPass, EndOf, CancelsInTime, Requests;
    if passes != [] {
      PassRelates(w, n, passes[0], clock, exact);
      PassesRelate(AfterPass(w, passes[0]), RunRequests(n, Requests(passes[0])), passes[1..], EndOf(passes[0]), exact);
    }
  }

  /**
   A worker that never runs leaves no customer's limit looser, at any time, through any
   number of scans racing with any requests, in any order, with writes failing anywhere.
   */
  lemma StalledIsNeverLooser(store: Store, passes: seq<Pass>, slot: Slot, t: int)
    requires forall i :: 0 <= i < |passes| ==> |passes[i].batch| <= |passes[i].between| == |passes[i].fails|
    requires Good(store) && ArePasses(store, passes)
    ensures NoLooser(Effective(TermsAt(Stalled(store, passes).rows, slot), t),
                     Effective(TermsAt(AfterPasses(store, passes).rows, slot), t))
  {
    hide Good, ArePasses, EndOfAll, Related;
    StartsRelated(store, 0);
    PassesRelate(store, store, passes, 0, false);
    var w, n := AfterPasses(store, passes), Stalled(store, passes);
    RelatedMeans(TermsAt(w.rows, slot), TermsAt(n.rows, slot), EndOfAll(passes, 0), false, t);
  }

  /**
   And the worker changes no limit anyone can see: the two agree on every limit at every
   later time, if the clock readings come in the order of the writes and each
   cancellation came before what it cancels had matured.
   */
  lemma WorkerIsInvisible(store: Store, passes: seq<Pass>, clock: int, slot: Slot, t: int)
    requires forall i :: 0 <= i < |passes| ==> |passes[i].batch| <= |passes[i].between| == |passes[i].fails|
    requires Good(store) && ArePasses(store, passes)
    requires AllInOrder(passes, clock) && AllInTime(store, passes) && EndOfAll(passes, clock) <= t
    ensures Effective(TermsAt(Stalled(store, passes).rows, slot), t)
            == Effective(TermsAt(AfterPasses(store, passes).rows, slot), t)
  {
    hide Good, ArePasses, AllInOrder, AllInTime, EndOfAll, Related;
    StartsRelated(store, clock);
    PassesRelate(store, store, passes, clock, true);
    var w, n := AfterPasses(store, passes), Stalled(store, passes);
    RelatedMeans(TermsAt(w.rows, slot), TermsAt(n.rows, slot), EndOfAll(passes, clock), true, t);
  }

  lemma StartsRelated(store: Store, clock: int)
    requires Good(store)
    ensures AllRelated(store, store, clock, false) && AllRelated(store, store, clock, true)
  {
  }
}
