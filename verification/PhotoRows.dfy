/**
 * What each statement leaves in the photo rows (internal/handlers/photos.go, internal/workers/photos.go), and for how
 * long slots, leases and retries last, over single steps and over runs in which workers keep to their leases.
 */
module PhotoRows {
  import opened Prelude
  import opened Photos

  // ---------------------------------------------------------------- slots

  /** Published and processed photos count for ever, refused ones never, and an unused slot for a quarter of an hour. */
  lemma CountsIff(p: Photo, now: real)
    ensures Counts(p, now) <==>
            p.status in {Processing, Ready} || (p.status == PendingUpload && now < p.createdAt + 15.0 * 60.0)
  {
  }

  /** A slot can be completed exactly as long as it counts, and completing it writes nothing but its status. */
  lemma CompletableIffCounted(photos: map<nat, Photo>, id: nat, now: real)
    requires id in photos
    ensures var p, photos' := photos[id], Completed(photos, id, now);
            && photos' - {id} == photos - {id} && id in photos'
            && photos'[id] == (if p.status == PendingUpload && Counts(p, now) then p.(status := Processing) else p)
  {
  }

  /** A slot is given out exactly while fewer than four photos of the report count, and starts unclaimed. */
  lemma ReservedIffRoom(photos: map<nat, Photo>, id: nat, report: nat, now: real)
    requires id !in photos
    ensures var photos' := Reserved(photos, id, report, now);
            && photos' - {id} == photos
            && (id in photos' <==>
                  |set i | i in photos && photos[i].report == report && Counts(photos[i], now) :: i| < 4)
            && (id in photos' ==> photos'[id] == Photo(report, PendingUpload, now, None, 0))
  {
    assert Live(photos, report, now)
        == set i | i in photos && photos[i].report == report && Counts(photos[i], now) :: i;
  }

  // ---------------------------------------------------------------- claims

  /** Nobody can claim the photo before or at the time, and anybody can after it. */
  ghost predicate LockedUntil(photos: map<nat, Photo>, id: nat, until: real) {
    forall now :: Claimable(photos, id, now) <==> until < now
  }

  /** A claim takes only photos being processed, counts as an attempt, and keeps others out for five minutes. */
  lemma ClaimLocks(s: Sys, w: nat, id: nat, now: real)
    requires Enabled(s, TakeClaim(w, id, now))
    ensures var s' := Next(s, TakeClaim(w, id, now));
            && id in s.photos && s.photos[id].status == Processing
            && s'.photos - {id} == s.photos - {id} && id in s'.photos
            && s'.photos[id]
                 == s.photos[id].(attempts := s.photos[id].attempts + 1, lockedUntil := s'.photos[id].lockedUntil)
            && LockedUntil(s'.photos, id, now + 5.0 * 60.0)
            && w in s'.workers
            && s'.workers[w] == Claim(id, s.photos[id].attempts + 1, now + 5.0 * 60.0, Claimed)
  {
  }

  /** The final write sets the status and drops the lock, on that photo only. */
  lemma FinishWritesStatus(s: Sys, w: nat, outcome: Status, now: real)
    requires Enabled(s, Finish(w, outcome, now)) && s.workers[w].photo in s.photos
    ensures var s', id := Next(s, Finish(w, outcome, now)), s.workers[w].photo;
            && s'.photos - {id} == s.photos - {id} && id in s'.photos
            && s'.photos[id] == s.photos[id].(status := outcome, lockedUntil := None)
            && w !in s'.workers && s'.workers == s.workers - {w}
  {
  }

  // ---------------------------------------------------------------- retries

  /** The wait after each of the five attempts. */
  const WAITS: map<nat, real> := map[1 := 60.0, 2 := 120.0, 3 := 240.0, 4 := 480.0, 5 := 960.0]

  /** A failed attempt writes nothing but the lock, which holds for one minute, doubled with each further attempt. */
  lemma RetryWaits(s: Sys, w: nat, now: real)
    requires FetchInv(s) && Enabled(s, Retry(w, now))
    ensures var c, s' := s.workers[w], Next(s, Retry(w, now));
            && c.attempt in WAITS && c.photo in s.photos && c.photo in s'.photos
            && s'.photos - {c.photo} == s.photos - {c.photo}
            && s'.photos[c.photo] == s.photos[c.photo].(lockedUntil := Some(now + WAITS[c.attempt]))
            && (s.photos[c.photo].status == Processing ==>
                  LockedUntil(s'.photos, c.photo, now + WAITS[c.attempt]))
            && w !in s'.workers
  {
    var c := s.workers[w];
    assert Granted(c, s.photos) && LoggedUpTo(c, s.fetches, s.scans);
    assert PowerOfTwo(0) == 1 && PowerOfTwo(1) == 2 && PowerOfTwo(2) == 4 && PowerOfTwo(3) == 8
        && PowerOfTwo(4) == 16 && PowerOfTwo(5) == 32;
  }

  /** The photo waits, locked, with nobody's lease on it. */
  ghost predicate Waits(s: Sys, id: nat, until: real) {
    && id in s.photos && s.photos[id].status == Processing && s.photos[id].lockedUntil == Some(until)
    && forall w :: w in s.workers && s.workers[w].photo == id ==> s.workers[w].until < s.clock
  }

  lemma WaitGoesOn(s: Sys, step: Step, id: nat, until: real)
    requires Waits(s, id, until) && Enabled(s, step) && InTime(s, step)
    requires !(step.TakeClaim? && step.photo == id)
    ensures Waits(Next(s, step), id, until)
  {
    if step.Finish? || step.Retry? {
      assert s.workers[step.worker].photo != id;
    }
  }

  lemma RetryStartsWait(s: Sys, w: nat, now: real)
    requires FetchInv(s) && LeaseInv(s) && Enabled(s, Retry(w, now)) && InTime(s, Retry(w, now))
    ensures s.workers[w].attempt in WAITS
    ensures Waits(Next(s, Retry(w, now)), s.workers[w].photo, now + WAITS[s.workers[w].attempt])
  {
    RetryWaits(s, w, now);
    assert Holds(s.workers[w], s.photos);
    forall v | v in s.workers && v != w && s.workers[v].photo == s.workers[w].photo
      ensures s.workers[v].until < s.clock
    {
      OneLeaseRuns(s, v, w);
    }
  }

  ghost predicate Claims(step: Step, id: nat) {
    step.TakeClaim? && step.photo == id
  }

  /** As long as nobody claims it again. */
  lemma {:induction false} StaysPostponed(states: seq<Sys>, steps: seq<Step>, retry: nat, to: nat)
    requires IsRun(states, steps) && AllInTime(states, steps) && retry < to < |states|
    requires steps[retry].Retry?
    requires forall i :: retry < i < to ==> !Claims(steps[i], states[retry].workers[steps[retry].worker].photo)
    ensures var c := states[retry].workers[steps[retry].worker];
            c.attempt in WAITS && Waits(states[to], c.photo, steps[retry].now + WAITS[c.attempt])
  {
    var c := states[retry].workers[steps[retry].worker];
    assert states[to - 1 + 1] == Next(states[to - 1], steps[to - 1]);
    if retry + 1 == to {
      AtMostFourLivePhotos(states, steps, retry);
      RetryStartsWait(states[retry], steps[retry].worker, steps[retry].now);
    } else {
      StaysPostponed(states, steps, retry, to - 1);
      WaitGoesOn(states[to - 1], steps[to - 1], c.photo, steps[retry].now + WAITS[c.attempt]);
    }
  }

  /**
   * When leases are kept, a photo whose attempt failed is next claimed only once the wait for that attempt is over,
   * and by then it is still being processed.
   */
  lemma NextClaimIsAfterTheWait(states: seq<Sys>, steps: seq<Step>, retry: nat, claim: nat)
    requires IsRun(states, steps) && AllInTime(states, steps) && retry < claim < |steps| && steps[retry].Retry?
    requires Claims(steps[claim], states[retry].workers[steps[retry].worker].photo)
    requires forall i :: retry < i < claim ==> !Claims(steps[i], states[retry].workers[steps[retry].worker].photo)
    ensures var c := states[retry].workers[steps[retry].worker];
            c.attempt in WAITS && steps[claim].now > steps[retry].now + WAITS[c.attempt]
  {
    StaysPostponed(states, steps, retry, claim);
  }
}
