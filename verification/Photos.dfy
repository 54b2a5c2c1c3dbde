/** The life of a report's photos: upload slots, and the workers that process them. */
module Photos {
  // Slots are internal/handlers/photos.go, workers internal/workers/photos.go. Each statement or transaction is one
  // atomic step.

  import opened Prelude

  const MAX_PHOTOS: nat := 4
  const SLOT_TTL: real := 900.0
  const LEASE: real := 300.0
  const MAX_ATTEMPTS: nat := 5

  datatype Status = PendingUpload | Processing | Ready | Rejected | Failed
  {
    predicate Final() { Ready? || Rejected? || Failed? }
  }

  datatype Photo = Photo(report: nat, status: Status, createdAt: real, lockedUntil: Option<real>, attempts: nat)

  /** How far the worker holding a claim has got. */
  datatype Stage = Claimed | Fetched | Scanned

  datatype Claim = Claim(photo: nat, attempt: nat, until: real, stage: Stage)

  /** fetches and scans log every download and malware scan, as (photo, attempt). */
  datatype Sys = Sys(photos: map<nat, Photo>, workers: map<nat, Claim>,
                     fetches: seq<(nat, nat)>, scans: seq<(nat, nat)>, clock: real)

  datatype Step =
    | Reserve(photo: nat, report: nat, now: real)
    | Complete(photo: nat, now: real)
    | TakeClaim(worker: nat, photo: nat, now: real)
    | Fetch(worker: nat, now: real)
    | Scan(worker: nat, now: real)
    | Finish(worker: nat, outcome: Status, now: real)
    | Retry(worker: nat, now: real)
    | GiveUp(worker: nat, now: real)

  const EMPTY: Sys := Sys(map[], map[], [], [], 0.0)

  // ---------------------------------------------------------------- the steps

  predicate SlotExpired(p: Photo, now: real) {
    p.createdAt <= now - SLOT_TTL
  }

  /** The photos that count towards a report's limit. */
  function Live(photos: map<nat, Photo>, report: nat, now: real): set<nat> {
    set id | id in photos && photos[id].report == report && Counts(photos[id], now)
  }

  predicate Counts(p: Photo, now: real) {
    p.status == Processing || p.status == Ready || (p.status == PendingUpload && p.createdAt > now - SLOT_TTL)
  }

  function Reserved(photos: map<nat, Photo>, id: nat, report: nat, now: real): map<nat, Photo> {
    if |Live(photos, report, now)| >= MAX_PHOTOS then photos
    else photos[id := Photo(report, PendingUpload, now, None, 0)]
  }

  function Completed(photos: map<nat, Photo>, id: nat, now: real): map<nat, Photo> {
    if id in photos && photos[id].status == PendingUpload && !SlotExpired(photos[id], now)
    then photos[id := photos[id].(status := Processing)] else photos
  }

  predicate Claimable(photos: map<nat, Photo>, id: nat, now: real) {
    && id in photos && photos[id].status == Processing
    && (photos[id].lockedUntil.None? || photos[id].lockedUntil.value < now)
  }

  function Leased(p: Photo, now: real): Photo {
    p.(lockedUntil := Some(now + LEASE), attempts := p.attempts + 1)
  }

  function PowerOfTwo(n: nat): nat {
    if n == 0 then 1 else 2 * PowerOfTwo(n - 1)
  }

  /** The writes that end a claim name the photo only: they check neither its status nor the lease. */
  function Finished(photos: map<nat, Photo>, id: nat, outcome: Status): map<nat, Photo> {
    if id in photos then photos[id := photos[id].(status := outcome, lockedUntil := None)] else photos
  }

  function Postponed(photos: map<nat, Photo>, id: nat, attempt: nat, now: real): map<nat, Photo> {
    if id in photos
    then photos[id := photos[id].(lockedUntil := Some(now + PowerOfTwo(attempt) as real * 30.0))] else photos
  }

  /** A worker that has tried too often fails the photo unseen; otherwise it downloads, scans, and then decides. */
  predicate Enabled(s: Sys, step: Step) {
    && s.clock <= step.now
    && match step
       case Reserve(id, _, _) => id !in s.photos
       case Complete(_, _) => true
       case TakeClaim(w, id, now) => w !in s.workers && Claimable(s.photos, id, now)
       case Fetch(w, _) => w in s.workers && s.workers[w].stage == Claimed && s.workers[w].attempt <= MAX_ATTEMPTS
       case Scan(w, _) => w in s.workers && s.workers[w].stage == Fetched
       case Finish(w, outcome, _) =>
         && w in s.workers
         && (outcome == Failed ==> s.workers[w].attempt > MAX_ATTEMPTS)
         && (outcome == Rejected ==> s.workers[w].stage != Claimed)
         && (outcome == Ready ==> s.workers[w].stage == Scanned)
         && outcome.Final()
       case Retry(w, _) => w in s.workers && s.workers[w].stage != Claimed
       case GiveUp(w, _) => w in s.workers
  }

  function Next(s: Sys, step: Step): Sys
    requires Enabled(s, step)
  {
    match step
    case Reserve(id, report, now) => s.(photos := Reserved(s.photos, id, report, now), clock := now)
    case Complete(id, now) => s.(photos := Completed(s.photos, id, now), clock := now)
    case TakeClaim(w, id, now) =>
      var p := Leased(s.photos[id], now);
      s.(photos := s.photos[id := p], workers := s.workers[w := Claim(id, p.attempts, now + LEASE, Claimed)],
         clock := now)
    case Fetch(w, now) =>
      var c := s.workers[w];
      s.(workers := s.workers[w := c.(stage := Fetched)], fetches := s.fetches + [(c.photo, c.attempt)], clock := now)
    case Scan(w, now) =>
      var c := s.workers[w];
      s.(workers := s.workers[w := c.(stage := Scanned)], scans := s.scans + [(c.photo, c.attempt)], clock := now)
    case Finish(w, outcome, now) =>
      s.(photos := Finished(s.photos, s.workers[w].photo, outcome), workers := s.workers - {w}, clock := now)
    case Retry(w, now) =>
      s.(photos := Postponed(s.photos, s.workers[w].photo, s.workers[w].attempt, now), workers := s.workers - {w},
         clock := now)
    case GiveUp(w, now) => s.(workers := s.workers - {w}, clock := now)
  }

  ghost predicate IsRun(states: seq<Sys>, steps: seq<Step>) {
    && |states| == |steps| + 1
    && states[0] == EMPTY
    && forall i :: 0 <= i < |steps| ==> Enabled(states[i], steps[i]) && states[i + 1] == Next(states[i], steps[i])
  }

  // ---------------------------------------------------------------- at most five downloads and five scans

  ghost predicate NoDuplicates(log: seq<(nat, nat)>) {
    forall i, j :: 0 <= i < j < |log| ==> log[i] != log[j]
  }

  function Count(log: seq<(nat, nat)>, photo: nat): nat {
    if log == [] then 0 else Count(log[..|log| - 1], photo) + if log[|log| - 1].0 == photo then 1 else 0
  }

  ghost predicate Granted(c: Claim, photos: map<nat, Photo>) {
    c.photo in photos && 1 <= c.attempt <= photos[c.photo].attempts
  }

  ghost predicate Different(c: Claim, d: Claim) {
    c.photo != d.photo || c.attempt != d.attempt
  }

  ghost predicate ClaimInv(s: Sys) {
    && (forall w :: w in s.workers ==> Granted(s.workers[w], s.photos))
    && (forall v, w :: v in s.workers && w in s.workers && v != w ==> Different(s.workers[v], s.workers[w]))
  }

  /** The entry is an allowed attempt that was claimed. */
  ghost predicate WasClaimed(e: (nat, nat), photos: map<nat, Photo>) {
    e.0 in photos && 1 <= e.1 <= MAX_ATTEMPTS && e.1 <= photos[e.0].attempts
  }

  ghost predicate LogInv(s: Sys, log: seq<(nat, nat)>) {
    NoDuplicates(log) && forall e :: e in log ==> WasClaimed(e, s.photos)
  }

  /** The logs show how far the holder of the claim has got. */
  ghost predicate LoggedUpTo(c: Claim, fetches: seq<(nat, nat)>, scans: seq<(nat, nat)>) {
    && (c.stage == Claimed ==> (c.photo, c.attempt) !in fetches)
    && (c.stage != Claimed ==> c.attempt <= MAX_ATTEMPTS)
    && (c.stage == Scanned <==> (c.photo, c.attempt) in scans)
  }

  ghost predicate FetchInv(s: Sys) {
    && ClaimInv(s) && LogInv(s, s.fetches) && LogInv(s, s.scans)
    && (forall w :: w in s.workers ==> LoggedUpTo(s.workers[w], s.fetches, s.scans))
    && (forall id :: id in s.photos && s.photos[id].status == Ready ==> Count(s.scans, id) > 0)
  }

  lemma CountGrows(log: seq<(nat, nat)>, e: (nat, nat), photo: nat)
    ensures Count(log + [e], photo) == Count(log, photo) + if e.0 == photo then 1 else 0
  {
    assert (log + [e])[..|log|] == log;
  }

  lemma {:induction false} CountedIfLogged(log: seq<(nat, nat)>, e: (nat, nat))
    requires e in log
    ensures Count(log, e.0) > 0
  {
    var n := |log| - 1;
    if log[n] != e {
      assert e in log[..n];
      CountedIfLogged(log[..n], e);
    }
  }

  /** No photo disappears or loses attempts, and the workers are as before, save some that stopped. */
  ghost predicate OnlyRowsChange(s: Sys, s': Sys) {
    && s'.fetches == s.fetches && s'.scans == s.scans
    && (forall id :: id in s.photos ==> id in s'.photos && s.photos[id].attempts <= s'.photos[id].attempts)
    && (forall w :: w in s'.workers ==> w in s.workers && s'.workers[w] == s.workers[w])
  }

  lemma RowChangesKeepFetchInv(s: Sys, s': Sys)
    requires FetchInv(s) && OnlyRowsChange(s, s')
    requires forall id :: id in s'.photos && s'.photos[id].status == Ready ==> Count(s.scans, id) > 0
    ensures FetchInv(s')
  {
  }

  lemma TakeClaimKeepsFetchInv(s: Sys, w: nat, id: nat, now: real)
    requires FetchInv(s) && Enabled(s, TakeClaim(w, id, now))
    ensures FetchInv(Next(s, TakeClaim(w, id, now)))
  {
    var s' := Next(s, TakeClaim(w, id, now));
    var attempt := s.photos[id].attempts + 1;
    assert (id, attempt) !in s.fetches && (id, attempt) !in s.scans;
    assert ClaimInv(s');
  }

  lemma FetchKeepsFetchInv(s: Sys, w: nat, now: real)
    requires FetchInv(s) && Enabled(s, Fetch(w, now))
    ensures FetchInv(Next(s, Fetch(w, now)))
  {
    var s' := Next(s, Fetch(w, now));
    assert LogInv(s', s'.fetches);
  }

  lemma ScanKeepsFetchInv(s: Sys, w: nat, now: real)
    requires FetchInv(s) && Enabled(s, Scan(w, now))
    ensures FetchInv(Next(s, Scan(w, now)))
  {
    var s', c := Next(s, Scan(w, now)), s.workers[w];
    assert LoggedUpTo(c, s.fetches, s.scans) && Granted(c, s.photos);
    assert LogInv(s', s'.scans);
    ScansGrow(s.scans, (c.photo, c.attempt));
    forall v | v in s'.workers
      ensures LoggedUpTo(s'.workers[v], s'.fetches, s'.scans)
    {
      assert LoggedUpTo(s.workers[v], s.fetches, s.scans);
      assert v != w ==> Different(s.workers[v], c);
    }
  }

  lemma ScansGrow(log: seq<(nat, nat)>, e: (nat, nat))
    ensures forall id :: Count(log, id) <= Count(log + [e], id)
  {
    forall id: nat
      ensures Count(log, id) <= Count(log + [e], id)
    {
      CountGrows(log, e, id);
    }
  }

  lemma NextKeepsFetchInv(s: Sys, step: Step)
    requires FetchInv(s) && Enabled(s, step)
    ensures FetchInv(Next(s, step))
  {
    if step.TakeClaim? {
      TakeClaimKeepsFetchInv(s, step.worker, step.photo, step.now);
    } else if step.Fetch? {
      FetchKeepsFetchInv(s, step.worker, step.now);
    } else if step.Scan? {
      ScanKeepsFetchInv(s, step.worker, step.now);
    } else if step.Finish? {
      FinishKeepsFetchInv(s, step.worker, step.outcome, step.now);
    } else {
      RowChangesKeepFetchInv(s, Next(s, step));
    }
  }

  lemma FinishKeepsFetchInv(s: Sys, w: nat, outcome: Status, now: real)
    requires FetchInv(s) && Enabled(s, Finish(w, outcome, now))
    ensures FetchInv(Next(s, Finish(w, outcome, now)))
  {
    if outcome == Ready {
      CountedIfLogged(s.scans, (s.workers[w].photo, s.workers[w].attempt));
    }
    RowChangesKeepFetchInv(s, Next(s, Finish(w, outcome, now)));
  }

  /** The attempts of one photo in a log are different numbers from 1 to 5. */
  lemma {:induction false} CountIsAtMostFive(log: seq<(nat, nat)>, photo: nat)
    requires NoDuplicates(log) && forall e :: e in log ==> 1 <= e.1 <= MAX_ATTEMPTS
    ensures Count(log, photo) <= MAX_ATTEMPTS
  {
    var seen := AttemptsSeen(log, photo);
    SubsetSize(seen, {1, 2, 3, 4, 5});
  }

  lemma {:induction false} AttemptsSeen(log: seq<(nat, nat)>, photo: nat) returns (seen: set<nat>)
    requires NoDuplicates(log)
    ensures |seen| == Count(log, photo)
    ensures forall a :: a in seen <==> (photo, a) in log
  {
    if log == [] {
      seen := {};
    } else {
      var n := |log| - 1;
      seen := AttemptsSeen(log[..n], photo);
      assert log == log[..n] + [log[n]];
      if log[n].0 == photo {
        assert (photo, log[n].1) == log[n] && log[n] !in log[..n];
        seen := seen + {log[n].1};
      }
    }
  }

  /**
   * However workers interleave or overrun, no photo is downloaded or scanned more than five times, and none is ready
   * unscanned.
   */
  lemma {:induction false} AtMostFiveFetches(states: seq<Sys>, steps: seq<Step>, k: nat, photo: nat)
    requires IsRun(states, steps) && k < |states|
    ensures FetchInv(states[k])
    ensures Count(states[k].fetches, photo) <= MAX_ATTEMPTS && Count(states[k].scans, photo) <= MAX_ATTEMPTS
    ensures photo in states[k].photos && states[k].photos[photo].status == Ready ==> Count(states[k].scans, photo) > 0
  {
    if k > 0 {
      AtMostFiveFetches(states, steps, k - 1, photo);
      NextKeepsFetchInv(states[k - 1], steps[k - 1]);
      assert states[k - 1 + 1] == Next(states[k - 1], steps[k - 1]);
    }
    CountIsAtMostFive(states[k].fetches, photo);
    CountIsAtMostFive(states[k].scans, photo);
  }

  // ---------------------------------------------------------------- leases, final statuses and the limit of four

  /** A worker acts only while its lease runs. */
  ghost predicate InTime(s: Sys, step: Step) {
    (step.Fetch? || step.Scan? || step.Finish? || step.Retry?) && step.worker in s.workers ==>
      step.now <= s.workers[step.worker].until
  }

  /** Whoever's lease still runs holds the photo: it is being processed, locked until then, at that attempt. */
  ghost predicate Holds(c: Claim, photos: map<nat, Photo>) {
    && c.photo in photos && photos[c.photo].status == Processing
    && photos[c.photo].lockedUntil == Some(c.until) && photos[c.photo].attempts == c.attempt
  }

  ghost predicate LeaseInv(s: Sys) {
    forall w :: w in s.workers && s.clock <= s.workers[w].until ==> Holds(s.workers[w], s.photos)
  }

  lemma NextKeepsLeaseInv(s: Sys, step: Step)
    requires ClaimInv(s) && LeaseInv(s) && Enabled(s, step) && InTime(s, step)
    ensures LeaseInv(Next(s, step))
  {
    match step
    case Reserve(id, report, now) => ReserveKeepsLeaseInv(s, id, report, now);
    case Complete(id, now) => CompleteKeepsLeaseInv(s, id, now);
    case TakeClaim(w, id, now) => TakeClaimKeepsLeaseInv(s, w, id, now);
    case Fetch(w, now) => StageKeepsLeaseInv(s, w, Fetched, now);
    case Scan(w, now) => StageKeepsLeaseInv(s, w, Scanned, now);
    case Finish(w, outcome, now) => EndingKeepsLeaseInv(s, w, Finished(s.photos, s.workers[w].photo, outcome), now);
    case Retry(w, now) =>
      EndingKeepsLeaseInv(s, w, Postponed(s.photos, s.workers[w].photo, s.workers[w].attempt, now), now);
    case GiveUp(w, now) => GiveUpKeepsLeaseInv(s, w, now);
  }

  lemma ReserveKeepsLeaseInv(s: Sys, id: nat, report: nat, now: real)
    requires LeaseInv(s) && s.clock <= now && id !in s.photos
    ensures LeaseInv(s.(photos := Reserved(s.photos, id, report, now), clock := now))
  {
    RowKeepsLeaseInv(s, id, Photo(report, PendingUpload, now, None, 0), now);
  }

  lemma CompleteKeepsLeaseInv(s: Sys, id: nat, now: real)
    requires LeaseInv(s) && s.clock <= now
    ensures LeaseInv(s.(photos := Completed(s.photos, id, now), clock := now))
  {
    if id in s.photos {
      RowKeepsLeaseInv(s, id, s.photos[id].(status := Processing), now);
    }
  }

  lemma RowKeepsLeaseInv(s: Sys, id: nat, p: Photo, now: real)
    requires LeaseInv(s) && s.clock <= now
    ensures LeaseInv(s.(clock := now))
    ensures id !in s.photos || s.photos[id].status == PendingUpload ==>
              LeaseInv(s.(photos := s.photos[id := p], clock := now))
  {
  }

  lemma StageKeepsLeaseInv(s: Sys, w: nat, stage: Stage, now: real)
    requires LeaseInv(s) && s.clock <= now && w in s.workers
    ensures LeaseInv(s.(workers := s.workers[w := s.workers[w].(stage := stage)], clock := now))
  {
    assert s.clock <= s.workers[w].until ==> Holds(s.workers[w], s.photos);
  }

  lemma GiveUpKeepsLeaseInv(s: Sys, w: nat, now: real)
    requires LeaseInv(s) && s.clock <= now
    ensures LeaseInv(s.(workers := s.workers - {w}, clock := now))
  {
  }

  lemma TakeClaimKeepsLeaseInv(s: Sys, w: nat, id: nat, now: real)
    requires LeaseInv(s) && s.clock <= now && Claimable(s.photos, id, now) && w !in s.workers
    ensures LeaseInv(Next(s, TakeClaim(w, id, now)))
  {
  }

  /** Of the claims on one photo, only one can have a lease that still runs. */
  lemma OneLeaseRuns(s: Sys, v: nat, w: nat)
    requires ClaimInv(s) && LeaseInv(s) && v in s.workers && w in s.workers && v != w
    requires s.workers[v].photo == s.workers[w].photo && s.clock <= s.workers[w].until
    ensures s.workers[v].until < s.clock
  {
  }

  lemma EndingKeepsLeaseInv(s: Sys, w: nat, photos: map<nat, Photo>, now: real)
    requires ClaimInv(s) && LeaseInv(s) && w in s.workers && s.clock <= now <= s.workers[w].until
    requires forall id :: id in s.photos && id != s.workers[w].photo ==> id in photos && photos[id] == s.photos[id]
    ensures LeaseInv(s.(photos := photos, workers := s.workers - {w}, clock := now))
  {
    forall v | v in s.workers && v != w && s.workers[v].photo == s.workers[w].photo
      ensures s.workers[v].until < s.clock
    {
      OneLeaseRuns(s, v, w);
    }
  }

  ghost predicate LimitInv(s: Sys) {
    forall report :: |Live(s.photos, report, s.clock)| <= MAX_PHOTOS
  }

  /** No photo counts that did not count before. */
  ghost predicate NoneAdded(photos: map<nat, Photo>, photos': map<nat, Photo>, now: real) {
    forall id :: id in photos' ==>
      && id in photos && photos'[id].report == photos[id].report
      && (Counts(photos'[id], now) ==> Counts(photos[id], now))
  }

  lemma CompletingAddsNone(photos: map<nat, Photo>, id: nat, now: real)
    ensures NoneAdded(photos, Completed(photos, id, now), now)
  {
  }

  lemma WorkersAddNone(photos: map<nat, Photo>, id: nat, outcome: Status, attempt: nat, now: real)
    ensures id in photos && photos[id].status == Processing ==> NoneAdded(photos, Finished(photos, id, outcome), now)
    ensures id in photos ==> NoneAdded(photos, photos[id := Leased(photos[id], now)], now)
    ensures NoneAdded(photos, Postponed(photos, id, attempt, now), now)
  {
  }

  lemma LeaseHolds(s: Sys, w: nat)
    requires LeaseInv(s) && w in s.workers && s.clock <= s.workers[w].until
    ensures s.workers[w].photo in s.photos && s.photos[s.workers[w].photo].status == Processing
  {
  }

  /** Apart from a reservation, no step makes a photo count that did not. */
  lemma NothingStartsToCount(s: Sys, step: Step)
    requires LeaseInv(s) && Enabled(s, step) && InTime(s, step) && !step.Reserve?
    ensures NoneAdded(s.photos, Next(s, step).photos, step.now)
  {
    match step
    case Complete(id, now) => CompletingAddsNone(s.photos, id, now);
    case TakeClaim(_, id, now) => WorkersAddNone(s.photos, id, Failed, 0, now);
    case Finish(w, outcome, now) =>
      LeaseHolds(s, w);
      WorkersAddNone(s.photos, s.workers[w].photo, outcome, 0, now);
    case Retry(w, now) => WorkersAddNone(s.photos, s.workers[w].photo, Failed, s.workers[w].attempt, now);
    case Fetch(_, _) =>
    case Scan(_, _) =>
    case GiveUp(_, _) =>
  }

  lemma ReservingAddsOne(photos: map<nat, Photo>, id: nat, report: nat, other: nat, now: real)
    requires id !in photos
    ensures var (live, live') := (Live(photos, other, now), Live(Reserved(photos, id, report, now), other, now));
            if report == other && |live| < MAX_PHOTOS then live' == live + {id} else live' == live
  {
  }

  lemma LiveAfter(s: Sys, step: Step, report: nat)
    requires LeaseInv(s) && Enabled(s, step) && InTime(s, step)
    ensures var (live, live') := (Live(s.photos, report, step.now), Live(Next(s, step).photos, report, step.now));
            |live'| <= |live| || (|live| < MAX_PHOTOS && |live'| == |live| + 1)
  {
    var (live, live') := (Live(s.photos, report, step.now), Live(Next(s, step).photos, report, step.now));
    if step.Reserve? {
      ReservingAddsOne(s.photos, step.photo, step.report, report, step.now);
    } else {
      NothingStartsToCount(s, step);
      FewerLive(s.photos, Next(s, step).photos, report, step.now);
    }
  }

  lemma FewerLive(photos: map<nat, Photo>, photos': map<nat, Photo>, report: nat, now: real)
    requires NoneAdded(photos, photos', now)
    ensures |Live(photos', report, now)| <= |Live(photos, report, now)|
  {
    SubsetSize(Live(photos', report, now), Live(photos, report, now));
  }

  lemma FewerLater(photos: map<nat, Photo>, report: nat, before: real, now: real)
    requires before <= now
    ensures |Live(photos, report, now)| <= |Live(photos, report, before)|
  {
    SubsetSize(Live(photos, report, now), Live(photos, report, before));
  }

  lemma NextKeepsLimit(s: Sys, step: Step)
    requires LeaseInv(s) && LimitInv(s) && Enabled(s, step) && InTime(s, step)
    ensures LimitInv(Next(s, step))
  {
    forall report
      ensures |Live(Next(s, step).photos, report, step.now)| <= MAX_PHOTOS
    {
      LiveAfter(s, step, report);
      FewerLater(s.photos, report, s.clock, step.now);
    }
  }

  ghost predicate AllInTime(states: seq<Sys>, steps: seq<Step>) {
    |states| == |steps| + 1 && forall i :: 0 <= i < |steps| ==> InTime(states[i], steps[i])
  }

  /** If every worker acts within its lease, no report ever has more than four live photos. */
  lemma {:induction false} AtMostFourLivePhotos(states: seq<Sys>, steps: seq<Step>, k: nat)
    requires IsRun(states, steps) && AllInTime(states, steps) && k < |states|
    ensures FetchInv(states[k]) && LeaseInv(states[k]) && LimitInv(states[k])
  {
    if k > 0 {
      AtMostFourLivePhotos(states, steps, k - 1);
      var (s, step) := (states[k - 1], steps[k - 1]);
      NextKeepsFetchInv(s, step);
      NextKeepsLeaseInv(s, step);
      NextKeepsLimit(s, step);
      assert states[k - 1 + 1] == Next(s, step);
    } else {
      assert forall report :: Live(EMPTY.photos, report, 0.0) == {};
    }
  }

  // ---------------------------------------------------------------- when the limit of four is exceeded

  /** A final write makes a photo ready that was rejected or had failed. */
  ghost predicate Revives(s: Sys, step: Step) {
    && step.Finish? && step.outcome == Ready && step.worker in s.workers && s.workers[step.worker].photo in s.photos
    && var status := s.photos[s.workers[step.worker].photo].status; status == Rejected || status == Failed
  }

  /** A claimed photo has been handed in. */
  ghost predicate HandedIn(c: Claim, photos: map<nat, Photo>) {
    c.photo in photos && photos[c.photo].status != PendingUpload
  }

  ghost predicate ClaimedHandedIn(s: Sys) {
    forall w :: w in s.workers ==> HandedIn(s.workers[w], s.photos)
  }

  lemma NextKeepsHandedIn(s: Sys, step: Step)
    requires ClaimedHandedIn(s) && Enabled(s, step)
    ensures ClaimedHandedIn(Next(s, step))
  {
    var s' := Next(s, step);
    forall w | w in s'.workers
      ensures HandedIn(s'.workers[w], s'.photos)
    {
      assert w in s.workers ==> HandedIn(s.workers[w], s.photos);
    }
  }

  /** A step that revives nothing makes no photo count that did not, reservations apart. */
  lemma OnlyRevivalsAdd(s: Sys, step: Step)
    requires ClaimedHandedIn(s) && Enabled(s, step) && !step.Reserve? && !Revives(s, step)
    ensures NoneAdded(s.photos, Next(s, step).photos, step.now)
  {
    if step.Finish? {
      assert HandedIn(s.workers[step.worker], s.photos);
    }
  }

  /** From within the limit a step exceeds it exactly by reviving a photo of a report that has four live ones. */
  lemma LimitExceededIff(s: Sys, step: Step, report: nat)
    requires ClaimedHandedIn(s) && LimitInv(s) && Enabled(s, step)
    ensures |Live(Next(s, step).photos, report, step.now)| > MAX_PHOTOS <==>
            && Revives(s, step) && s.photos[s.workers[step.worker].photo].report == report
            && |Live(s.photos, report, step.now)| == MAX_PHOTOS
  {
    FewerLater(s.photos, report, s.clock, step.now);
    var live, live' := Live(s.photos, report, step.now), Live(Next(s, step).photos, report, step.now);
    if step.Reserve? {
      ReservingAddsOne(s.photos, step.photo, step.report, report, step.now);
    } else if Revives(s, step) {
      RevivingAddsOne(s, step, report);
    } else {
      OnlyRevivalsAdd(s, step);
      FewerLive(s.photos, Next(s, step).photos, report, step.now);
    }
  }

  lemma RevivingAddsOne(s: Sys, step: Step, report: nat)
    requires Enabled(s, step) && Revives(s, step)
    ensures var id := s.workers[step.worker].photo;
            var (live, live') := (Live(s.photos, report, step.now), Live(Next(s, step).photos, report, step.now));
            id !in live && live' == if s.photos[id].report == report then live + {id} else live
  {
  }

  /** However workers overrun, no report has more than four live photos unless a photo has been revived before. */
  lemma {:induction false} MoreThanFourOnlyAfterRevival(states: seq<Sys>, steps: seq<Step>, k: nat)
    requires IsRun(states, steps) && k < |states|
    ensures ClaimedHandedIn(states[k])
    ensures !LimitInv(states[k]) ==> exists i :: 0 <= i < k && Revives(states[i], steps[i])
  {
    if k > 0 {
      var s, step := states[k - 1], steps[k - 1];
      MoreThanFourOnlyAfterRevival(states, steps, k - 1);
      assert states[k - 1 + 1] == Next(s, step);
      NextKeepsHandedIn(s, step);
      if LimitInv(s) && !Revives(s, step) {
        forall report
          ensures |Live(states[k].photos, report, states[k].clock)| <= MAX_PHOTOS
        {
          LimitExceededIff(s, step, report);
        }
      }
    } else {
      assert forall report :: Live(EMPTY.photos, report, 0.0) == {};
    }
  }

  /** Photo 0 has been rejected by worker 1 while worker 0, which has scanned it, has overrun its lease. */
  lemma RejectedBesideSlowWorker() returns (states: seq<Sys>, steps: seq<Step>)
    ensures IsRun(states, steps)
    ensures var s := states[|steps|];
            && s.photos == map[0 := Photo(7, Rejected, 1.0, None, 2)]
            && s.workers == map[0 := Claim(0, 1, 303.0, Scanned)] && s.clock == 307.0
  {
    states, steps := SlowWorkerDownloads();
    states, steps := Extended(states, steps, TakeClaim(1, 0, 304.0));
    states, steps := Extended(states, steps, Fetch(1, 305.0));
    states, steps := Extended(states, steps, Scan(0, 306.0));
    states, steps := Extended(states, steps, Finish(1, Rejected, 307.0));
  }

  function UpTo(n: nat): (ids: set<nat>)
    ensures |ids| == n && forall id :: id in ids <==> 1 <= id <= n
  {
    if n == 0 then {} else UpTo(n - 1) + {n}
  }

  /** Slots 1 to n of report 7 are reserved at 308, beside the rejected photo 0. */
  ghost predicate SlotsBeside(s: Sys, n: nat) {
    && s.photos.Keys == UpTo(n) + {0} && s.photos[0] == Photo(7, Rejected, 1.0, None, 2)
    && (forall id :: id in UpTo(n) ==> s.photos[id] == Photo(7, PendingUpload, 308.0, None, 0))
    && s.workers == map[0 := Claim(0, 1, 303.0, Scanned)] && 307.0 <= s.clock <= 308.0
  }

  lemma LiveBeside(s: Sys, n: nat, now: real)
    requires SlotsBeside(s, n) && 307.0 <= now <= 309.0
    ensures Live(s.photos, 7, now) == UpTo(n)
  {
  }

  lemma ReserveBeside(s: Sys, n: nat)
    requires 0 < n <= MAX_PHOTOS && SlotsBeside(s, n - 1)
    ensures Enabled(s, Reserve(n, 7, 308.0)) && SlotsBeside(Next(s, Reserve(n, 7, 308.0)), n)
  {
    LiveBeside(s, n - 1, 308.0);
    assert n !in s.photos && Reserved(s.photos, n, 7, 308.0) == s.photos[n := Photo(7, PendingUpload, 308.0, None, 0)];
    OneMoreSlot(s, s.photos[n := Photo(7, PendingUpload, 308.0, None, 0)], n);
  }

  lemma OneMoreSlot(s: Sys, photos: map<nat, Photo>, n: nat)
    requires n > 0 && SlotsBeside(s, n - 1) && photos == s.photos[n := Photo(7, PendingUpload, 308.0, None, 0)]
    ensures SlotsBeside(s.(photos := photos, clock := 308.0), n)
  {
    assert UpTo(n) == UpTo(n - 1) + {n};
  }

  lemma {:induction false} ReservesBeside(n: nat) returns (states: seq<Sys>, steps: seq<Step>)
    requires n <= MAX_PHOTOS
    ensures IsRun(states, steps) && SlotsBeside(states[|steps|], n)
  {
    if n == 0 {
      states, steps := RejectedBesideSlowWorker();
    } else {
      states, steps := ReservesBeside(n - 1);
      ReserveBeside(states[|steps|], n);
      states, steps := Extended(states, steps, Reserve(n, 7, 308.0));
    }
  }

  /** So a report can have five live photos: worker 0 makes photo 0 ready after four more slots were given out. */
  lemma FiveLivePhotos() returns (states: seq<Sys>, steps: seq<Step>)
    ensures IsRun(states, steps) && |Live(states[|steps|].photos, 7, states[|steps|].clock)| == 5
  {
    states, steps := ReservesBeside(MAX_PHOTOS);
    var s := states[|steps|];
    LiveBeside(s, MAX_PHOTOS, 309.0);
    RevivingAddsOne(s, Finish(0, Ready, 309.0), 7);
    states, steps := Extended(states, steps, Finish(0, Ready, 309.0));
  }

  /** And a ready, rejected or failed photo stays so. */
  lemma {:induction false} FinalStatusesStay(states: seq<Sys>, steps: seq<Step>, from: nat, to: nat, id: nat)
    requires IsRun(states, steps) && AllInTime(states, steps) && from <= to < |states|
    requires id in states[from].photos && states[from].photos[id].status.Final()
    ensures id in states[to].photos && states[to].photos[id].status == states[from].photos[id].status
  {
    if from < to {
      FinalStatusesStay(states, steps, from, to - 1, id);
      AtMostFourLivePhotos(states, steps, to - 1);
      assert states[to - 1 + 1] == Next(states[to - 1], steps[to - 1]);
      FinalStatusStays(states[to - 1], steps[to - 1], id);
    }
  }

  lemma FinalStatusStays(s: Sys, step: Step, id: nat)
    requires LeaseInv(s) && Enabled(s, step) && InTime(s, step) && id in s.photos && s.photos[id].status.Final()
    ensures id in Next(s, step).photos && Next(s, step).photos[id].status == s.photos[id].status
  {
    if step.Finish? || step.Retry? {
      LeaseHolds(s, step.worker);
    }
  }

  // ---------------------------------------------------------------- exactly when a worker meets a final status

  /** Worker w's claim on photo id, made by step claim, is still the one it holds at step to. */
  ghost predicate HoldsSince(states: seq<Sys>, steps: seq<Step>, claim: nat, to: nat, w: nat, id: nat) {
    && claim < to < |states| && |states| == |steps| + 1
    && steps[claim].TakeClaim? && steps[claim].worker == w && steps[claim].photo == id
    && forall i :: claim < i < to ==> !ReleasedBy(steps[i], w)
  }

  predicate ReleasedBy(step: Step, w: nat) {
    (step.Finish? || step.Retry? || step.GiveUp?) && step.worker == w
  }

  /** The step is some worker's final write to photo id. */
  ghost predicate Finishes(s: Sys, step: Step, id: nat) {
    step.Finish? && step.worker in s.workers && s.workers[step.worker].photo == id
  }

  /** Between two points of a run some final write to the photo was made. */
  ghost predicate FinishedBetween(states: seq<Sys>, steps: seq<Step>, from: nat, to: nat, id: nat)
    requires |states| == |steps| + 1 && to <= |steps|
  {
    exists i :: from < i < to && Finishes(states[i], steps[i], id)
  }

  /**
   * A worker that is about to end its claim finds the photo in a final status exactly when another worker's final
   * write came after it claimed the photo; and then its lease has run out, or some worker has acted past its own.
   */
  lemma MeetsFinalStatusIff(states: seq<Sys>, steps: seq<Step>, claim: nat, to: nat, w: nat, id: nat)
    requires IsRun(states, steps) && HoldsSince(states, steps, claim, to, w, id)
    ensures w in states[to].workers && states[to].workers[w].photo == id && id in states[to].photos
    ensures states[to].photos[id].status.Final() <==> FinishedBetween(states, steps, claim, to, id)
    ensures forall i :: claim < i < to && Finishes(states[i], steps[i], id) ==> steps[i].worker != w
    ensures states[to].photos[id].status.Final() && states[to].clock <= states[to].workers[w].until ==>
              exists i :: 0 <= i < to && !InTime(states[i], steps[i])
  {
    StatusSinceClaim(states, steps, claim, to, w, id);
    if forall i :: 0 <= i < to ==> InTime(states[i], steps[i]) {
      assert IsRun(states[..to + 1], steps[..to]) && AllInTime(states[..to + 1], steps[..to]);
      AtMostFourLivePhotos(states[..to + 1], steps[..to], to);
      if states[to].clock <= states[to].workers[w].until {
        LeaseHolds(states[to], w);
      }
    }
  }

  /** From the claim on the photo is being processed, until the first final write. */
  lemma {:induction false} StatusSinceClaim(states: seq<Sys>, steps: seq<Step>, claim: nat, to: nat, w: nat, id: nat)
    requires IsRun(states, steps) && HoldsSince(states, steps, claim, to, w, id)
    ensures w in states[to].workers && states[to].workers[w].photo == id && id in states[to].photos
    ensures FinishedBetween(states, steps, claim, to, id) ==> states[to].photos[id].status.Final()
    ensures !FinishedBetween(states, steps, claim, to, id) ==> states[to].photos[id].status == Processing
  {
    assert Enabled(states[to - 1], steps[to - 1]) && states[to - 1 + 1] == Next(states[to - 1], steps[to - 1]);
    if claim + 1 < to {
      StatusSinceClaim(states, steps, claim, to - 1, w, id);
      StatusStep(states[to - 1], steps[to - 1], w, id);
      assert FinishedBetween(states, steps, claim, to, id) <==>
             FinishedBetween(states, steps, claim, to - 1, id) || Finishes(states[to - 1], steps[to - 1], id);
    }
  }

  lemma StatusStep(s: Sys, step: Step, w: nat, id: nat)
    requires Enabled(s, step) && w in s.workers && s.workers[w].photo == id && !ReleasedBy(step, w)
    requires id in s.photos && s.photos[id].status != PendingUpload
    ensures var s' := Next(s, step);
            && w in s'.workers && s'.workers[w].photo == id && id in s'.photos
            && (Finishes(s, step, id) ==> s'.photos[id].status.Final())
            && (!Finishes(s, step, id) ==> s'.photos[id].status == s.photos[id].status)
  {
  }

  /**
   * A worker that overruns its lease can reject a photo another worker has already published, because the final
   * writes check neither status nor lease.
   */
  lemma OverrunChangesAFinalStatus() returns (states: seq<Sys>, steps: seq<Step>)
    ensures IsRun(states, steps) && |steps| == 9
    ensures 0 in states[8].photos && states[8].photos[0].status == Ready
    ensures 0 in states[9].photos && states[9].photos[0].status == Rejected
  {
    states, steps := SlowWorkerDownloads();
    states, steps := Extended(states, steps, TakeClaim(1, 0, 304.0));
    states, steps := Extended(states, steps, Fetch(1, 305.0));
    states, steps := Extended(states, steps, Scan(1, 306.0));
    states, steps := Extended(states, steps, Finish(1, Ready, 307.0));
    states, steps := Extended(states, steps, Finish(0, Rejected, 308.0));
  }

  /** Nor is it only the late worker that meets one: worker 1 keeps to its lease, but worker 0 has overrun its own. */
  lemma PunctualWorkerMeetsAFinalStatus() returns (states: seq<Sys>, steps: seq<Step>)
    ensures IsRun(states, steps) && |steps| == 7 && HoldsSince(states, steps, 4, 7, 1, 0)
    ensures 0 in states[7].photos && states[7].photos[0].status == Rejected
    ensures 1 in states[7].workers && states[7].clock <= states[7].workers[1].until
    ensures steps[4] == TakeClaim(1, 0, 304.0) && steps[5] == Fetch(1, 305.0) && InTime(states[5], steps[5])
  {
    states, steps := SlowWorkerDownloads();
    states, steps := Extended(states, steps, TakeClaim(1, 0, 304.0));
    states, steps := Extended(states, steps, Fetch(1, 305.0));
    states, steps := Extended(states, steps, Finish(0, Rejected, 306.0));
  }

  lemma Extended(states: seq<Sys>, steps: seq<Step>, step: Step) returns (states': seq<Sys>, steps': seq<Step>)
    requires IsRun(states, steps) && Enabled(states[|steps|], step)
    ensures IsRun(states', steps') && states' == states + [Next(states[|steps|], step)] && steps' == steps + [step]
  {
    states', steps' := states + [Next(states[|steps|], step)], steps + [step];
  }

  /** Worker 0 downloads photo 0 of report 7 and then stalls; its lease ends at 303. */
  lemma SlowWorkerDownloads() returns (states: seq<Sys>, steps: seq<Step>)
    ensures IsRun(states, steps) && |steps| == 4
    ensures states[4].photos == map[0 := Photo(7, Processing, 1.0, Some(303.0), 1)]
    ensures states[4].workers == map[0 := Claim(0, 1, 303.0, Fetched)] && states[4].clock == 4.0
  {
    assert Live(EMPTY.photos, 7, 1.0) == {};
    states, steps := [EMPTY], [];
    states, steps := Extended(states, steps, Reserve(0, 7, 1.0));
    states, steps := Extended(states, steps, Complete(0, 2.0));
    states, steps := Extended(states, steps, TakeClaim(0, 0, 3.0));
    states, steps := Extended(states, steps, Fetch(0, 4.0));
  }

  // ---------------------------------------------------------------- the rows as the code updates them

  /** How the request for a slot is answered. */
  datatype Upload = Slot | ReportNotFound | NotTheAuthor | TooManyPhotos

  class PhotoTable {
    /** The account behind each report, and behind each photo; reports can lose theirs. */
    var authors: map<nat, Option<nat>>
    var uploaders: map<nat, nat>
    var photos: map<nat, Photo>

    /** account is None for a request without a session. */
    method CreatePhotoUpload(id: nat, report: nat, account: Option<nat>, now: real) returns (upload: Upload)
      modifies this`photos, this`uploaders
      ensures upload == if report !in authors then ReportNotFound
                        else if authors[report].None? || authors[report] != account then NotTheAuthor
                        else if |Live(old(photos), report, now)| >= MAX_PHOTOS then TooManyPhotos else Slot
      ensures photos == if upload.Slot? then Reserved(old(photos), id, report, now) else old(photos)
      ensures uploaders == if upload.Slot? then old(uploaders)[id := account.value] else old(uploaders)
    {
      if report !in authors {
        return ReportNotFound;
      }
      if authors[report] == None || authors[report] != account {
        return NotTheAuthor;
      }
      var count := |Live(photos, report, now)|;
      if count >= MAX_PHOTOS {
        return TooManyPhotos;
      }
      photos := photos[id := Photo(report, PendingUpload, now, None, 0)];
      uploaders := uploaders[id := account.value];
      return Slot;
    }

    /** The status to answer with; None is for photos that do not exist or are someone else's. */
    method CompletePhotoUpload(id: nat, account: nat, now: real) returns (status: Option<Status>)
      modifies this`photos
      ensures status.Some? <==> id in old(photos) && id in uploaders && uploaders[id] == account
      ensures photos == if status.Some? then Completed(old(photos), id, now) else old(photos)
      ensures status.Some? ==> status.value == photos[id].status
    {
      if !(id in photos && id in uploaders && uploaders[id] == account) {
        return None;
      }
      var expired := SlotExpired(photos[id], now);
      if photos[id].status == PendingUpload && !expired {
        photos := photos[id := photos[id].(status := Processing)];
      }
      return Some(photos[id].status);
    }

    method ClaimPhoto(id: nat, now: real) returns (attempt: nat)
      requires Claimable(photos, id, now)
      modifies this`photos
      ensures photos == old(photos)[id := Leased(old(photos)[id], now)] && attempt == photos[id].attempts
    {
      photos := photos[id := photos[id].(lockedUntil := Some(now + LEASE), attempts := photos[id].attempts + 1)];
      return photos[id].attempts;
    }

    method FinishPhoto(id: nat, outcome: Status)
      modifies this`photos
      ensures photos == Finished(old(photos), id, outcome)
    {
      if id in photos {
        photos := photos[id := photos[id].(status := outcome, lockedUntil := None)];
      }
    }

    method RetryPhoto(id: nat, attempt: nat, now: real)
      modifies this`photos
      ensures photos == Postponed(old(photos), id, attempt, now)
    {
      var backoff := 30.0;
      for i := 0 to attempt
        invariant backoff == PowerOfTwo(i) as real * 30.0
      {
        backoff := backoff * 2.0;
      }
      if id in photos {
        photos := photos[id := photos[id].(lockedUntil := Some(now + backoff))];
      }
    }
  }
}
