/** Delivering webhooks: bounded retries with growing waits, sent five at a time. */
module WebhookDelivery {
  import opened Tables

  const MINUTE := 60_000
  const BACKOFF_INTERVALS := [1 * MINUTE, 5 * MINUTE, 30 * MINUTE, 120 * MINUTE, 720 * MINUTE]
  const MAX_ATTEMPTS := 5
  const CONCURRENCY := 5

  datatype Status = PENDING | RETRYING | DELIVERED | FAILED

  datatype Delivery = Delivery(status: Status, attemptCount: int, nextRetryAt: Option<int>)

  /** One visit: when the scan read the row, when the request went out and came back, and how. */
  datatype Visit = Visit(scannedAt: int, sentAt: int, answeredAt: int, configActive: bool, ok: bool)

  function Backoff(attempts: int): int
    requires attempts >= 1
  {
    if attempts - 1 < |BACKOFF_INTERVALS| then BACKOFF_INTERVALS[attempts - 1]
    else BACKOFF_INTERVALS[|BACKOFF_INTERVALS| - 1]
  }

  function AfterVisit(row: Delivery, visit: Visit): Delivery
    requires row.attemptCount >= 0
  {
    if !row.status.PENDING? && !row.status.RETRYING? then row
    else if !visit.configActive then row.(status := FAILED)
    else
      var attempts := row.attemptCount + 1;
      if visit.ok then row.(status := DELIVERED, attemptCount := attempts)
      else if attempts >= MAX_ATTEMPTS then row.(status := FAILED, attemptCount := attempts)
      else Delivery(RETRYING, attempts, Some(visit.answeredAt + Backoff(attempts)))
  }

  predicate IsSelected(row: Delivery, now: int) {
    row.status.PENDING? || (row.status.RETRYING? && row.nextRetryAt.Some? && row.nextRetryAt.value <= now)
  }

  class DeliveryLog {
    var rows: map<Id, Delivery>

    constructor ()
      ensures rows == map[]
    {
      rows := map[];
    }

    method DeliverWebhook(id: Id, visit: Visit)
      requires id in rows ==> rows[id].attemptCount >= 0
      modifies this
      ensures rows == if id in old(rows) then old(rows)[id := AfterVisit(old(rows)[id], visit)] else old(rows)
    {
      if id !in rows {
        return;
      }
      var row := rows[id];
      if !row.status.PENDING? && !row.status.RETRYING? {
        return;
      }
      if !visit.configActive {
        rows := rows[id := row.(status := FAILED)];
        return;
      }
      var attempts := row.attemptCount + 1;
      if visit.ok {
        rows := rows[id := row.(status := DELIVERED, attemptCount := attempts)];
      } else if attempts >= MAX_ATTEMPTS {
        rows := rows[id := row.(status := FAILED, attemptCount := attempts)];
      } else {
        var nextRetryAt := visit.answeredAt + Backoff(attempts);
        rows := rows[id := Delivery(RETRYING, attempts, Some(nextRetryAt))];
      }
    }

    method DeliverBatch(found: seq<Id>, visits: seq<Visit>, from: nat, end: nat, ghost before: map<Id, Delivery>)
      requires |visits| == |found| && from <= end <= |found|
      requires forall i, j :: 0 <= i < j < |found| ==> found[i] != found[j]
      requires forall id :: id in before ==> before[id].attemptCount >= 0
      requires VisitedUpTo(before, rows, found, visits, from)
      modifies this
      ensures VisitedUpTo(before, rows, found, visits, end)
    {
      hide AfterVisit, VisitedUpTo;
      for k := from to end
        invariant VisitedUpTo(before, rows, found, visits, k)
      {
        VisitedStep(before, rows, found, visits, k);
        DeliverWebhook(found[k], visits[k]);
      }
    }

    /**
     The batches follow the list in order and cover it, so each row found is visited
     once; visits in one batch run together, and the outcome does not depend on how.
     */
    method ProcessWebhookDeliveryScan(found: seq<Id>, visits: seq<Visit>) returns (batches: seq<seq<Id>>)
      requires |visits| == |found| && forall i, j :: 0 <= i < j < |found| ==> found[i] != found[j]
      requires forall id :: id in rows ==> rows[id].attemptCount >= 0
      modifies this
      ensures Flatten(batches) == found
      ensures forall b :: 0 <= b < |batches| ==> 0 < |batches[b]| <= CONCURRENCY
      ensures forall b :: 0 <= b < |batches| - 1 ==> |batches[b]| == CONCURRENCY
      ensures rows.Keys == old(rows).Keys
      ensures forall i :: 0 <= i < |found| && found[i] in rows ==>
                rows[found[i]] == AfterVisit(old(rows)[found[i]], visits[i])
      ensures forall id :: id in rows && id !in found ==> rows[id] == old(rows)[id]
    {
      hide AfterVisit, Flatten;
      batches := [];
      NothingFlat();
      var i := 0;
      while i < |found|
        invariant 0 <= i && (i % CONCURRENCY == 0 || i >= |found|)
        invariant Flatten(batches) == found[..Least(i, |found|)]
        invariant forall b :: 0 <= b < |batches| ==> 0 < |batches[b]| <= CONCURRENCY
        invariant forall b :: 0 <= b < |batches| - 1 ==> |batches[b]| == CONCURRENCY
        invariant i <= |found| && |batches| > 0 ==> |batches[|batches| - 1]| == CONCURRENCY
        invariant VisitedUpTo(old(rows), rows, found, visits, Least(i, |found|))
      {
        var end := Least(i + CONCURRENCY, |found|);
        var batch := found[i..end];
        DeliverBatch(found, visits, i, end, old(rows));
        FlattenAppend(batches, batch);
        assert found[..i] + batch == found[..end];
        batches := batches + [batch];
        i := i + CONCURRENCY;
      }
      assert found[..|found|] == found;
    }
  }

  lemma VisitCounts(row: Delivery, visit: Visit)
    requires row.attemptCount >= 0
    ensures AfterVisit(row, visit).attemptCount >= 0
  {
  }

  function Least(a: int, b: int): int {
    if a < b then a else b
  }

  function Flatten(batches: seq<seq<Id>>): seq<Id> {
    if batches == [] then [] else Flatten(batches[..|batches| - 1]) + batches[|batches| - 1]
  }

  lemma NothingFlat()
    ensures Flatten([]) == []
  {
  }

  lemma FlattenAppend(batches: seq<seq<Id>>, batch: seq<Id>)
    ensures Flatten(batches + [batch]) == Flatten(batches) + batch
  {
    assert (batches + [batch])[..|batches|] == batches;
  }

  ghost predicate VisitedUpTo(before: map<Id, Delivery>, after: map<Id, Delivery>,
                              found: seq<Id>, visits: seq<Visit>, k: int)
    requires |visits| == |found| && 0 <= k <= |found|
    requires forall id :: id in before ==> before[id].attemptCount >= 0
  {
    && after.Keys == before.Keys
    && (forall id :: id in after ==> after[id].attemptCount >= 0)
    && (forall i :: 0 <= i < k && found[i] in before ==> after[found[i]] == AfterVisit(before[found[i]], visits[i]))
    && (forall id :: id in before && id !in found[..k] ==> after[id] == before[id])
  }

  lemma VisitedStep(before: map<Id, Delivery>, rows: map<Id, Delivery>, found: seq<Id>, visits: seq<Visit>, k: nat)
    requires |visits| == |found| && k < |found| && forall i, j :: 0 <= i < j < |found| ==> found[i] != found[j]
    requires forall id :: id in before ==> before[id].attemptCount >= 0
    requires VisitedUpTo(before, rows, found, visits, k)
    ensures found[k] in rows ==> rows[found[k]].attemptCount >= 0
    ensures var after := if found[k] in rows then rows[found[k] := AfterVisit(rows[found[k]], visits[k])] else rows;
            VisitedUpTo(before, after, found, visits, k + 1)
  {
    hide AfterVisit;
    assert found[..k + 1] == found[..k] + [found[k]];
    if found[k] in before {
      assert rows[found[k]] == before[found[k]];
      VisitCounts(before[found[k]], visits[k]);
    }
  }

  // ---- the life of one delivery -------------------------------------------

  function AfterVisits(row: Delivery, visits: seq<Visit>): (r: Delivery)
    requires row.attemptCount >= 0
    ensures r.attemptCount >= 0
  {
    if visits == [] then row
    else AfterVisit(AfterVisits(row, visits[..|visits| - 1]), visits[|visits| - 1])
  }

  /** One scan at a time: each visit was selected by its scan, and followed the one before. */
  predicate IsRun(row: Delivery, visits: seq<Visit>)
    requires row.attemptCount >= 0
  {
    && (forall i :: 0 <= i < |visits| ==> IsSelected(AfterVisits(row, visits[..i]), visits[i].scannedAt))
    && (forall i :: 0 <= i < |visits| ==> visits[i].scannedAt <= visits[i].sentAt <= visits[i].answeredAt)
  }

  const NEW := Delivery(PENDING, 0, None)

  /** The waits before attempt k + 1, added up. */
  function Waited(k: nat): int {
    if k == 0 then 0 else Waited(k - 1) + Backoff(k)
  }

  predicate AllActive(visits: seq<Visit>) {
    forall i :: 0 <= i < |visits| ==> visits[i].configActive
  }

  /** Where a delivery can be after its visits so far. */
  predicate Stands(row: Delivery, visits: seq<Visit>) {
    && 0 <= row.attemptCount <= |visits|
    && (row.status == PENDING <==> visits == [])
    && (row.status == RETRYING ==>
          && row.attemptCount == |visits| < MAX_ATTEMPTS && row.nextRetryAt.Some? && visits != []
          && row.nextRetryAt.value >= visits[0].sentAt + Waited(|visits|)
          && row.nextRetryAt.value <= visits[|visits| - 1].answeredAt + 120 * MINUTE)
    && (row.status == FAILED && AllActive(visits) ==>
          && row.attemptCount == |visits| == MAX_ATTEMPTS
          && visits[|visits| - 1].answeredAt >= visits[0].sentAt + Waited(MAX_ATTEMPTS - 1))
    && |visits| <= MAX_ATTEMPTS
  }

  lemma {:induction false} RunStands(visits: seq<Visit>)
    requires IsRun(NEW, visits)
    ensures Stands(AfterVisits(NEW, visits), visits)
  {
    hide Stands, AfterVisit, IsSelected;
    if visits == [] {
      NewStands();
    } else {
      var n := |visits| - 1;
      var first := visits[..n];
      forall i | 0 <= i < n
        ensures first[..i] == visits[..i]
      {
      }
      RunStands(first);
      VisitStands(AfterVisits(NEW, first), first, visits[n]);
      assert first + [visits[n]] == visits;
    }
  }

  lemma NewStands()
    ensures Stands(NEW, [])
  {
  }

  lemma VisitStands(row: Delivery, visits: seq<Visit>, visit: Visit)
    requires Stands(row, visits) && IsSelected(row, visit.scannedAt)
    requires visit.scannedAt <= visit.sentAt <= visit.answeredAt
    ensures Stands(AfterVisit(row, visit), visits + [visit])
  {
    var k := row.attemptCount + 1;
    assert row.status == PENDING ==> row.attemptCount == 0;
    assert 1 <= k <= MAX_ATTEMPTS;
    assert Waited(k) == Waited(k - 1) + Backoff(k);
    var more := visits + [visit];
    assert forall i :: 0 <= i < |visits| ==> more[i] == visits[i];
    assert more[|visits|] == visit;
  }

  /**
   Every run ends within five attempts. While the webhook stays active, giving up takes
   all five and comes at least 156 minutes after the first; no wait is ever longer than
   two hours, so the twelve-hour entry of the table is never used.
   */
  lemma RetriesAreBounded(visits: seq<Visit>)
    requires IsRun(NEW, visits)
    ensures var row := AfterVisits(NEW, visits);
            && |visits| <= MAX_ATTEMPTS && 0 <= row.attemptCount <= MAX_ATTEMPTS
            && (|visits| == MAX_ATTEMPTS ==> row.status == DELIVERED || row.status == FAILED)
            && (row.status == FAILED && AllActive(visits) ==>
                  && |visits| == MAX_ATTEMPTS
                  && visits[MAX_ATTEMPTS - 1].answeredAt >= visits[0].sentAt + 156 * MINUTE)
            && (row.status == RETRYING ==>
                  row.nextRetryAt.Some? && row.nextRetryAt.value <= visits[|visits| - 1].answeredAt + 120 * MINUTE)
  {
    hide AfterVisits;
    RunStands(visits);
    assert Waited(4) == Waited(3) + Backoff(4) && Waited(3) == Waited(2) + Backoff(3);
    assert Waited(2) == Waited(1) + Backoff(2) && Waited(1) == Backoff(1);
  }

  // ---- how a delivery ends ------------------------------------------------

  predicate Answered(visit: Visit) {
    visit.configActive && visit.ok
  }

  function ActiveIn(visits: seq<Visit>): nat {
    if visits == [] then 0
    else ActiveIn(visits[..|visits| - 1]) + if visits[|visits| - 1].configActive then 1 else 0
  }

  /**
   Where a delivery stands is decided by its last visit and by how many there were: it is
   delivered by the first request that was answered well, given up when its webhook was
   switched off or the fifth request failed, and else due again after this attempt's wait.
   */
  predicate EndsAs(row: Delivery, visits: seq<Visit>) {
    && row.attemptCount == ActiveIn(visits)
    && (visits == [] ==> row == NEW)
    && (visits != [] ==>
          var last := visits[|visits| - 1];
          && (forall i :: 0 <= i < |visits| - 1 ==> visits[i].configActive && !visits[i].ok)
          && (row.status == DELIVERED <==> Answered(last))
          && (row.status == FAILED <==> !last.configActive || (!last.ok && |visits| == MAX_ATTEMPTS))
          && (row.status == RETRYING <==> last.configActive && !last.ok && |visits| < MAX_ATTEMPTS)
          && (row.status == RETRYING ==> row.nextRetryAt == Some(last.answeredAt + Backoff(|visits|))))
  }

  lemma {:induction false} AllFailedSoFar(visits: seq<Visit>)
    requires forall i :: 0 <= i < |visits| ==> visits[i].configActive
    ensures ActiveIn(visits) == |visits|
  {
    if visits != [] {
      AllFailedSoFar(visits[..|visits| - 1]);
    }
  }

  lemma VisitEnds(row: Delivery, visits: seq<Visit>, visit: Visit)
    requires EndsAs(row, visits) && IsSelected(row, visit.scannedAt) && |visits| < MAX_ATTEMPTS
    ensures EndsAs(AfterVisit(row, visit), visits + [visit])
  {
    var more := visits + [visit];
    assert more[..|visits|] == visits && more[|visits|] == visit;
    assert visits != [] ==> !Answered(visits[|visits| - 1]) && visits[|visits| - 1].configActive;
    AllFailedSoFar(visits);
  }

  /** Over every run: delivered if and only if the last request was answered well, and never sent again after that. */
  lemma {:induction false} DeliveredIffAnswered(visits: seq<Visit>)
    requires IsRun(NEW, visits)
    ensures EndsAs(AfterVisits(NEW, visits), visits)
  {
    hide EndsAs, AfterVisit, IsSelected;
    if visits == [] {
      NewEnds();
    } else {
      var n := |visits| - 1;
      var first := visits[..n];
      forall i | 0 <= i < n
        ensures first[..i] == visits[..i]
      {
      }
      DeliveredIffAnswered(first);
      RetriesAreBounded(visits);
      VisitEnds(AfterVisits(NEW, first), first, visits[n]);
      assert first + [visits[n]] == visits;
    }
  }

  lemma NewEnds()
    ensures EndsAs(NEW, [])
  {
  }

  /** The first retry comes a minute later and no wait is shorter than the one before. */
  lemma BackoffGrows(a: int, b: int)
    requires 1 <= a <= b
    ensures MINUTE == Backoff(1) <= Backoff(a) <= Backoff(b)
  {
  }
}
