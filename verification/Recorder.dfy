/** The match recorder: a pool of capture slots, and segments uploaded while the match is on. */
module Recorder {
  import opened Counting
  import opened Digits
  import opened Tables

  // ---- capture slots ------------------------------------------------------

  /** `jobs` is each running job's own `slot` variable. */
  datatype Pool = Pool(free: seq<nat>, jobs: map<Id, nat>)

  datatype PoolEvent = Starts(job: Id) | Finishes(job: Id)

  function AfterStart(pool: Pool, job: Id): Pool {
    if job in pool.jobs || pool.free == [] then pool
    else Pool(pool.free[1..], pool.jobs[job := pool.free[0]])
  }

  function AfterFinish(pool: Pool, job: Id): Pool {
    if job !in pool.jobs then pool else Pool(pool.free + [pool.jobs[job]], pool.jobs - {job})
  }

  function AfterEvents(pool: Pool, events: seq<PoolEvent>): Pool {
    if events == [] then pool
    else
      var before, last := AfterEvents(pool, events[..|events| - 1]), events[|events| - 1];
      if last.Starts? then AfterStart(before, last.job) else AfterFinish(before, last.job)
  }

  /** No slot is given out twice, and free and used ones number the limit together. */
  ghost predicate Shared(pool: Pool, concurrency: nat) {
    && (forall i, j :: 0 <= i < j < |pool.free| ==> pool.free[i] != pool.free[j])
    && (forall a, b :: a in pool.jobs && b in pool.jobs && a != b ==> pool.jobs[a] != pool.jobs[b])
    && (forall i, a :: 0 <= i < |pool.free| && a in pool.jobs ==> pool.free[i] != pool.jobs[a])
    && (forall i :: 0 <= i < |pool.free| ==> pool.free[i] < concurrency)
    && (forall a :: a in pool.jobs ==> pool.jobs[a] < concurrency)
    && |pool.free| + |pool.jobs| == concurrency
  }

  lemma StartShares(pool: Pool, job: Id, concurrency: nat)
    requires Shared(pool, concurrency)
    ensures Shared(AfterStart(pool, job), concurrency)
    ensures job !in pool.jobs && |pool.jobs| < concurrency ==> job in AfterStart(pool, job).jobs
  {
  }

  lemma FinishShares(pool: Pool, job: Id, concurrency: nat)
    requires Shared(pool, concurrency)
    ensures Shared(AfterFinish(pool, job), concurrency)
  {
    if job in pool.jobs {
      var slot, rest := pool.jobs[job], pool.jobs - {job};
      assert pool.jobs == rest[job := slot] && |pool.jobs| == |rest| + 1;
      assert forall i :: 0 <= i < |pool.free| ==> pool.free[i] != slot;
    }
  }

  function Range(n: nat): (slots: set<nat>)
    ensures |slots| == n
    ensures forall s: nat :: s in slots <==> s < n
  {
    if n == 0 then {} else Range(n - 1) + {n - 1}
  }

  function SlotsIn(free: seq<nat>): set<nat> {
    set s | s in free
  }

  lemma {:induction false} UsedCount(jobs: map<Id, nat>)
    requires forall a, b :: a in jobs && b in jobs && a != b ==> jobs[a] != jobs[b]
    ensures |jobs.Values| == |jobs|
    decreases |jobs|
  {
    if jobs == map[] {
      assert jobs.Values == {};
    } else {
      var a :| a in jobs;
      var rest := jobs - {a};
      UsedCount(rest);
      assert jobs == rest[a := jobs[a]];
      forall s | s in jobs.Values
        ensures s in rest.Values + {jobs[a]}
      {
        var b :| b in jobs && jobs[b] == s;
        assert b != a ==> rest[b] == s;
      }
      assert jobs.Values == rest.Values + {jobs[a]};
    }
  }

  /** So together they are exactly the slots there are. */
  lemma SharedIsPartition(pool: Pool, concurrency: nat)
    requires Shared(pool, concurrency)
    ensures SlotsIn(pool.free) !! pool.jobs.Values
    ensures SlotsIn(pool.free) + pool.jobs.Values == Range(concurrency)
  {
    var free, used := SlotsIn(pool.free), pool.jobs.Values;
    DistinctCount(pool.free, free);
    UsedCount(pool.jobs);
    assert free !! used;
    SameSizeSubset(free + used, Range(concurrency));
  }

  function Fresh(concurrency: nat): Pool {
    Pool(seq(concurrency, i => i), map[])
  }

  /**
   Through any run of starts and finishes the free and the used slots partition the
   range, so a job that starts while fewer than the limit are running gets a slot.
   */
  lemma SlotsNeverRunOut(concurrency: nat, events: seq<PoolEvent>, job: Id)
    ensures var pool := AfterEvents(Fresh(concurrency), events);
            && SlotsIn(pool.free) !! pool.jobs.Values
            && SlotsIn(pool.free) + pool.jobs.Values == Range(concurrency)
            && (job !in pool.jobs && |pool.jobs| < concurrency ==> job in AfterStart(pool, job).jobs)
  {
    hide AfterEvents;
    EventsShare(concurrency, events);
    SharedIsPartition(AfterEvents(Fresh(concurrency), events), concurrency);
    StartShares(AfterEvents(Fresh(concurrency), events), job, concurrency);
  }

  lemma {:induction false} EventsShare(concurrency: nat, events: seq<PoolEvent>)
    ensures Shared(AfterEvents(Fresh(concurrency), events), concurrency)
  {
    if events != [] {
      var n := |events| - 1;
      EventsShare(concurrency, events[..n]);
      var before := AfterEvents(Fresh(concurrency), events[..n]);
      StartShares(before, events[n].job, concurrency);
      FinishShares(before, events[n].job, concurrency);
    }
  }

  class SlotPool {
    var freeSlots: seq<nat>
    var jobs: map<Id, nat>

    constructor (concurrency: nat)
      ensures Pool(freeSlots, jobs) == Fresh(concurrency)
    {
      freeSlots, jobs := seq(concurrency, i => i), map[];
    }

    /** None is the thrown "No free recorder slot". */
    method Start(job: Id) returns (slot: Option<nat>)
      requires job !in jobs
      modifies this
      ensures Pool(freeSlots, jobs) == AfterStart(old(Pool(freeSlots, jobs)), job)
      ensures slot.Some? <==> job in jobs
      ensures slot.Some? ==> jobs[job] == slot.value
    {
      if freeSlots == [] {
        return None;
      }
      slot := Some(freeSlots[0]);
      freeSlots := freeSlots[1..];
      jobs := jobs[job := slot.value];
    }

    method Finish(job: Id)
      requires job in jobs
      modifies this
      ensures Pool(freeSlots, jobs) == AfterFinish(old(Pool(freeSlots, jobs)), job)
    {
      freeSlots := freeSlots + [jobs[job]];
      jobs := jobs - {job};
    }
  }

  // ---- segment names ------------------------------------------------------

  /** seg%03d.mp4 */
  function Name(k: nat): string
    requires k < 10000
  {
    "seg" + (if k < 1000 then [] else [Digit(k / 1000)]) + [Digit(k / 100), Digit(k / 10), Digit(k)] + ".mp4"
  }

  predicate PartAt(a: string, b: string, i: nat) {
    i < |a| && i < |b| && a[..i] == b[..i] && a[i] < b[i]
  }

  /** The order the listing is sorted in. */
  ghost predicate Before(a: string, b: string) {
    a < b || exists i :: PartAt(a, b, i)
  }

  lemma BeforeIsAsymmetric(a: string, b: string)
    requires Before(a, b)
    ensures !Before(b, a)
  {
  }

  lemma ShortName(k: nat)
    requires k < 1000
    ensures Name(k) == ['s', 'e', 'g', Digit(k / 100), Digit(k / 10), Digit(k), '.', 'm', 'p', '4']
  {
  }

  /** Below a thousand the names sort as the numbers do. */
  lemma NamesInOrder(j: nat, k: nat)
    requires j < k < 1000
    ensures Before(Name(j), Name(k))
  {
    hide Name, Digit;
    ShortName(j);
    ShortName(k);
    DigitsOrder(j, k);
    var i := if j / 100 != k / 100 then 3 else if j / 10 != k / 10 then 4 else 5;
    assert Name(j)[..i] == Name(k)[..i];
    assert PartAt(Name(j), Name(k), i);
  }

  lemma DigitsOrder(j: nat, k: nat)
    requires j < k < 1000
    ensures if j / 100 != k / 100 then Digit(j / 100) < Digit(k / 100)
            else if j / 10 != k / 10 then Digit(j / 10) < Digit(k / 10)
            else Digit(j) < Digit(k)
  {
    hide Digit;
    if j / 100 != k / 100 {
      assert j / 100 < k / 100 < 10;
      DigitLess(j / 100, k / 100);
    } else if j / 10 != k / 10 {
      assert j / 10 < k / 10 && j / 10 / 10 == k / 10 / 10;
      DigitLess(j / 10, k / 10);
    } else {
      DigitLess(j, k);
    }
  }

  lemma DigitLess(a: nat, b: nat)
    requires a < b && a / 10 == b / 10
    ensures Digit(a) < Digit(b)
  {
  }

  /** seg1000.mp4 sorts before seg999.mp4, so the newest file is no longer the last. */
  lemma FourDigitsBreakTheOrder(k: nat)
    requires 1000 <= k < 9990
    ensures Before(Name(k), Name(999))
  {
    var i := if k / 1000 < 9 then 3 else if k / 100 % 10 < 9 then 4 else 5;
    assert Name(k)[3] == Digit(k / 1000) && Name(k)[4] == Digit(k / 100) && Name(k)[5] == Digit(k / 10);
    assert PartAt(Name(k), Name(999), i);
  }

  function Names(n: nat): seq<string>
    requires n <= 10000
  {
    seq(n, k requires 0 <= k < n => Name(k))
  }

  /** What readdir and sort give when ffmpeg has made `n` segments. */
  ghost predicate IsListing(files: seq<string>, n: nat)
    requires n <= 10000
  {
    && (forall i, j :: 0 <= i < j < |files| ==> Before(files[i], files[j]))
    && (forall name :: name in files <==> name in Names(n))
  }

  ghost function IndexOf(name: string, n: nat): (k: nat)
    requires n <= 10000 && name in Names(n)
    ensures k < n && Name(k) == name
  {
    var k :| 0 <= k < n && Names(n)[k] == name;
    k
  }

  lemma LaterInListing(files: seq<string>, n: nat, i: nat, j: nat)
    requires n <= 1000 && IsListing(files, n) && i < j < |files|
    ensures files[i] in Names(n) && files[j] in Names(n)
    ensures IndexOf(files[i], n) < IndexOf(files[j], n)
  {
    assert files[i] in Names(n) && files[j] in Names(n);
    var a, b := IndexOf(files[i], n), IndexOf(files[j], n);
    BeforeIsAsymmetric(files[i], files[j]);
    if b < a {
      NamesInOrder(b, a);
    }
  }

  /** Indices strictly increase along the listing, and skip none. */
  lemma {:induction false} ListingClimbs(files: seq<string>, n: nat, i: nat)
    requires n <= 1000 && IsListing(files, n) && i < |files|
    ensures files[i] in Names(n) && IndexOf(files[i], n) >= i
  {
    assert files[i] in Names(n);
    if i > 0 {
      ListingClimbs(files, n, i - 1);
      LaterInListing(files, n, i - 1, i);
    }
  }

  lemma {:induction false} ListingCovers(files: seq<string>, n: nat, k: nat)
    requires n <= 1000 && IsListing(files, n) && k < n
    ensures k < |files| && files[k] == Name(k)
  {
    assert Names(n)[k] == Name(k);
    assert Name(k) in files;
    var p :| 0 <= p < |files| && files[p] == Name(k);
    assert IndexOf(files[p], n) == k by {
      SameNameSameIndex(IndexOf(files[p], n), k);
    }
    ListingClimbs(files, n, p);
    if k > 0 {
      ListingCovers(files, n, k - 1);
      if p < k {
        if p < k - 1 {
          LaterInListing(files, n, p, k - 1);
        }
        SameNameSameIndex(k - 1, IndexOf(files[k - 1], n));
      }
    }
  }

  lemma SameNameSameIndex(j: nat, k: nat)
    requires j < 1000 && k < 1000 && Name(j) == Name(k)
    ensures j == k
  {
    if j < k {
      NamesInOrder(j, k);
      BeforeIsAsymmetric(Name(j), Name(k));
    } else if k < j {
      NamesInOrder(k, j);
      BeforeIsAsymmetric(Name(k), Name(j));
    }
  }

  /** Up to a thousand segments the sorted listing is the recording order. */
  lemma ListingIsRecordingOrder(files: seq<string>, n: nat)
    requires n <= 1000 && IsListing(files, n)
    ensures files == Names(n)
  {
    forall k | 0 <= k < n
      ensures k < |files| && files[k] == Name(k)
    {
      ListingCovers(files, n, k);
    }
    if n > 0 {
      ListingCovers(files, n, n - 1);
    }
    if |files| > n {
      ListingClimbs(files, n, n);
    }
  }

  /** So while ffmpeg runs, the listing without its last file leaves out the one being written. */
  lemma NewestIsLeftOut(files: seq<string>, n: nat)
    requires 0 < n <= 1000 && IsListing(files, n)
    ensures |files| == n && files[..n - 1] == Names(n - 1) && Name(n - 1) !in files[..n - 1]
  {
    ListingIsRecordingOrder(files, n);
    assert Names(n)[..n - 1] == Names(n - 1);
    if Name(n - 1) in Names(n - 1) {
      var k :| 0 <= k < n - 1 && Names(n - 1)[k] == Name(n - 1);
      SameNameSameIndex(k, n - 1);
    }
  }

  /** From the thousand-and-first segment on, it is the newest that is kept and seg999.mp4 that is left out. */
  lemma NewestIsUploadedLate(files: seq<string>, n: nat)
    requires 1000 < n <= 9990 && IsListing(files, n)
    ensures |files| > 0 && Name(n - 1) in files[..|files| - 1]
  {
    assert Names(n)[n - 1] == Name(n - 1) && Names(n)[999] == Name(999);
    hide Name, Names;
    assert Name(n - 1) in files && Name(999) in files;
    var p, q :| 0 <= p < |files| && files[p] == Name(n - 1) && 0 <= q < |files| && files[q] == Name(999);
    FourDigitsBreakTheOrder(n - 1);
    BeforeIsAsymmetric(Name(n - 1), Name(999));
    assert files[p] == files[..|files| - 1][p];
  }

  // ---- recording one match ------------------------------------------------

  /** A segment put into storage, and how many there were when the directory was read. */
  datatype Put = Put(name: string, existing: nat, stopped: bool)

  function NamesOf(puts: seq<Put>): seq<string> {
    seq(|puts|, i requires 0 <= i < |puts| => puts[i].name)
  }

  /** What the recorder meets on one turn of its loop: `failAt` is the upload that throws, if one does. */
  datatype Poll = Poll(now: int, exited: bool, files: seq<string>, count: nat, failAt: Option<nat>, over: bool)

  /** How many of `count` segments a listing counts as finished. */
  function FinishedOf(count: nat, includeLast: bool): nat {
    if includeLast || count == 0 then count else count - 1
  }

  /** The failure happens at a segment not stored before. */
  predicate Interrupts(stored: nat, finished: nat, failAt: Option<nat>) {
    failAt.Some? && stored <= failAt.value < finished
  }

  function StoredBy(stored: nat, finished: nat, failAt: Option<nat>): nat {
    if Interrupts(stored, finished, failAt) then failAt.value
    else if stored < finished then finished else stored
  }

  /** How many segments are stored after these turns of the loop; a failed upload is tried again on the next. */
  function StoredAfter(polls: seq<Poll>): nat {
    if polls == [] then 0
    else
      var poll := polls[|polls| - 1];
      StoredBy(StoredAfter(polls[..|polls| - 1]), FinishedOf(poll.count, false), poll.failAt)
  }

  predicate FirstOver(polls: seq<Poll>, j: int) {
    0 <= j < |polls| && polls[j].over && forall k :: 0 <= k < j ==> !polls[k].over
  }

  /** At turn `i` the match has been over for the grace time. */
  predicate GraceOver(polls: seq<Poll>, grace: int, i: int) {
    0 <= i < |polls| && exists j :: 0 <= j <= i && FirstOver(polls, j) && polls[i].now >= polls[j].now + grace
  }

  /** The turn at which recording stops: the first with the grace time over, unless the capture died by then. */
  predicate StopsAt(polls: seq<Poll>, grace: int, i: int) {
    && GraceOver(polls, grace, i) && (forall h :: 0 <= h < i ==> !GraceOver(polls, grace, h))
    && (forall k :: 0 <= k <= i ==> !polls[k].exited)
  }

  /** What makes a recording whole once it has stopped. */
  predicate Completes(stored: nat, last: Poll, joins: bool) {
    !Interrupts(stored, last.count, last.failAt) && last.count > 0 && joins
  }

  datatype Outcome = StillRecording | RecordingFailed | Sealed(joined: seq<string>)

  class MatchRecorder {
    var uploaded: set<string>
    var stored: seq<Put>

    /** Uploads go in recording order without a gap, and the set remembers exactly them. */
    ghost predicate Valid()
      reads this
    {
      && |stored| <= 1000 && NamesOf(stored) == Names(|stored|)
      && (forall name :: name in uploaded <==> name in Names(|stored|))
      && (forall i :: 0 <= i < |stored| ==> stored[i].stopped || i + 1 < stored[i].existing)
    }

    constructor ()
      ensures Valid() && stored == []
    {
      uploaded, stored := {}, [];
    }

    method UploadFinished(files: seq<string>, count: nat, includeLast: bool, failAt: Option<nat>) returns (ok: bool)
      requires Valid() && |stored| <= count <= 1000 && IsListing(files, count)
      modifies this
      ensures Valid() && old(stored) <= stored && |stored| <= count
      ensures |stored| == StoredBy(|old(stored)|, FinishedOf(count, includeLast), failAt)
      ensures ok <==> !Interrupts(|old(stored)|, FinishedOf(count, includeLast), failAt)
      ensures ok && includeLast ==> NamesOf(stored) == files
    {
      ListingIsRecordingOrder(files, count);
      var finished := if includeLast || files == [] then files else files[..|files| - 1];
      ok := true;
      for k := 0 to |finished|
        invariant Valid() && old(stored) <= stored && |stored| <= count
        invariant k <= |stored| && |stored| == (if k < |old(stored)| then |old(stored)| else k)
        invariant failAt.Some? && |old(stored)| <= failAt.value ==> k <= failAt.value
      {
        var name := finished[k];
        assert name == Name(k) && Names(count)[k] == name;
        if k < |stored| {
          StoredIsNamed(k, |stored|);
        }
        if name in uploaded {
          UploadedMeansStored(k, |stored|);
          continue;
        }
        if failAt == Some(k) {
          return false;
        }
        StoreNext(name, count, includeLast);
      }
    }

    method StoreNext(name: string, count: nat, stopped: bool)
      requires Valid() && |stored| < count <= 1000 && name == Name(|stored|)
      requires stopped || |stored| + 1 < count
      modifies this
      ensures Valid() && stored == old(stored) + [Put(name, count, stopped)]
    {
      assert Names(|stored| + 1) == Names(|stored|) + [name];
      uploaded := uploaded + {name};
      stored := stored + [Put(name, count, stopped)];
      assert NamesOf(stored) == NamesOf(old(stored)) + [name];
    }

    /**
     The polling loop and what follows it. `joins` says whether the steps after the
     last upload went through.
     */
    method RecordMatch(polls: seq<Poll>, last: Poll, joins: bool, grace: int) returns (outcome: Outcome)
      requires Valid() && stored == []
      requires forall i :: 0 <= i < |polls| ==> polls[i].count <= 1000 && IsListing(polls[i].files, polls[i].count)
      requires forall i, j :: 0 <= i < j < |polls| ==> polls[i].count <= polls[j].count
      requires last.count <= 1000 && IsListing(last.files, last.count)
      requires forall i :: 0 <= i < |polls| ==> polls[i].count <= last.count
      modifies this
      ensures Valid()
      ensures outcome.Sealed? ==>
                last.count > 0 && NamesOf(stored) == Names(last.count) && outcome.joined == Names(last.count)
      ensures outcome.Sealed? <==>
                exists i :: StopsAt(polls, grace, i) && Completes(StoredAfter(polls[..i + 1]), last, joins)
      ensures outcome.StillRecording? <==>
                (forall i :: 0 <= i < |polls| ==> !polls[i].exited && !GraceOver(polls, grace, i))
    {
      hide Tracks, StopsAt, GraceOver;
      var stopAt: Option<int> := None;
      var stopping := false;
      NothingTracked(polls, grace);
      var i := 0;
      while i < |polls| && !stopping
        invariant 0 <= i <= |polls| && Valid() && |stored| == StoredAfter(polls[..i])
        invariant Tracks(polls, grace, i, stopAt, stopping)
        invariant forall j :: i <= j < |polls| ==> |stored| <= polls[j].count
        invariant |stored| <= last.count
        decreases |polls| - i
      {
        var poll := polls[i];
        assert polls[..i + 1][..i] == polls[..i];
        if poll.exited {
          DiedFirst(polls, grace, i, stopAt);
          return RecordingFailed;
        }
        TracksStep(polls, grace, i, stopAt);
        var ok := UploadFinished(poll.files, poll.count, false, poll.failAt);
        if stopAt.None? && poll.over {
          stopAt := Some(poll.now + grace);
        }
        stopping := stopAt.Some? && poll.now >= stopAt.value;
        i := i + 1;
      }
      if !stopping {
        NotYet(polls, grace, stopAt);
        return StillRecording;
      }
      StopsThere(polls, grace, i, stopAt);
      ghost var stop := i - 1;
      assert StopsAt(polls, grace, stop) && |stored| == StoredAfter(polls[..stop + 1]);
      var ok := UploadFinished(last.files, last.count, true, last.failAt);
      if !ok || |last.files| == 0 || !joins {
        return RecordingFailed;
      }
      ListingIsRecordingOrder(last.files, last.count);
      return Sealed(last.files);
    }
  }

  /** Where the loop stands before turn `i`: nothing died, and when it will stop, or that it just has. */
  ghost predicate Tracks(polls: seq<Poll>, grace: int, i: int, stopAt: Option<int>, stopping: bool) {
    && 0 <= i <= |polls| && (forall k :: 0 <= k < i ==> !polls[k].exited)
    && (stopAt.None? <==> forall k :: 0 <= k < i ==> !polls[k].over)
    && (stopAt.Some? ==> exists j :: 0 <= j < i && FirstOver(polls, j) && stopAt.value == polls[j].now + grace)
    && (forall h :: 0 <= h < i - (if stopping then 1 else 0) ==> !GraceOver(polls, grace, h))
    && (stopping ==> i > 0 && GraceOver(polls, grace, i - 1))
  }

  lemma NothingTracked(polls: seq<Poll>, grace: int)
    ensures Tracks(polls, grace, 0, None, false)
  {
  }

  lemma TracksStep(polls: seq<Poll>, grace: int, i: nat, stopAt: Option<int>)
    requires Tracks(polls, grace, i, stopAt, false) && i < |polls| && !polls[i].exited
    ensures var later := if stopAt.None? && polls[i].over then Some(polls[i].now + grace) else stopAt;
            Tracks(polls, grace, i + 1, later, later.Some? && polls[i].now >= later.value)
  {
    var later := if stopAt.None? && polls[i].over then Some(polls[i].now + grace) else stopAt;
    if later.Some? {
      var j :| 0 <= j <= i && FirstOver(polls, j) && later.value == polls[j].now + grace;
      assert forall k :: FirstOver(polls, k) ==> k == j;
    }
  }

  /** A capture that dies before the grace time is over is never sealed, and not still recording. */
  lemma DiedFirst(polls: seq<Poll>, grace: int, i: nat, stopAt: Option<int>)
    requires Tracks(polls, grace, i, stopAt, false) && i < |polls| && polls[i].exited
    ensures forall k :: !StopsAt(polls, grace, k)
  {
  }

  lemma NotYet(polls: seq<Poll>, grace: int, stopAt: Option<int>)
    requires Tracks(polls, grace, |polls|, stopAt, false)
    ensures forall k :: !StopsAt(polls, grace, k)
    ensures forall k :: 0 <= k < |polls| ==> !polls[k].exited && !GraceOver(polls, grace, k)
  {
  }

  lemma StopsThere(polls: seq<Poll>, grace: int, i: nat, stopAt: Option<int>)
    requires Tracks(polls, grace, i, stopAt, true)
    ensures i > 0 && GraceOver(polls, grace, i - 1) && forall k :: StopsAt(polls, grace, k) <==> k == i - 1
  {
    assert StopsAt(polls, grace, i - 1);
  }

  lemma UploadedMeansStored(k: nat, n: nat)
    requires k < 1000 && n <= 1000 && Name(k) in Names(n)
    ensures k < n
  {
    var j :| 0 <= j < n && Names(n)[j] == Name(k);
    SameNameSameIndex(j, k);
  }

  lemma StoredIsNamed(k: nat, n: nat)
    requires k < n <= 1000
    ensures Name(k) in Names(n)
  {
    assert Names(n)[k] == Name(k);
  }
}
