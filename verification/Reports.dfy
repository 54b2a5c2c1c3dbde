/** The report rows, under every interleaving of all that write them. */
module Reports {
  // Report creation (reports.go), moderation (moderation.go), the automatic verifier (verifier.go) and the retention
  // cleaner (retention.go) share these rows.

  import opened Prelude
  import opened Curation

  datatype Status = Pending | Verified | Rejected

  datatype Report = Report(account: Option<nat>, category: string, place: int, approximate: bool, createdAt: real,
                           duplicateOf: Option<nat>, status: Status, moderatedBy: Option<string>,
                           statusUpdatedAt: real, score: int, corroborations: nat)

  datatype Event = Event(from: Status, to: Status, actor: string)

  datatype Db = Db(reports: map<nat, Report>, events: map<nat, seq<Event>>)

  // ---------------------------------------------------------------- the transactions

  /** A new row; the foreign key refuses a duplicate_of that no longer exists. */
  function Inserted(db: Db, id: nat, account: Option<nat>, category: string, place: int, approximate: bool,
                    duplicateOf: Option<nat>, now: real): Db
  {
    if duplicateOf.Some? && duplicateOf.value !in db.reports then db
    else
      var r := Report(account, category, place, approximate, now, duplicateOf, Pending, None, now, 0, 0);
      Db(db.reports[id := r], db.events[id := []])
  }

  function EventsOf(db: Db, id: nat): seq<Event> {
    if id in db.events then db.events[id] else []
  }

  /** A moderator's decision; setting a report back to pending forgets who moderated it. */
  function Moderated(db: Db, id: nat, status: Status, moderator: string, notDuplicate: bool, now: real): Db {
    if id !in db.reports then db
    else
      var r := db.reports[id];
      var r' := r.(status := status, moderatedBy := if status != Pending then Some(moderator) else None,
                   statusUpdatedAt := now, duplicateOf := if notDuplicate then None else r.duplicateOf);
      Db(db.reports[id := r'], db.events[id := EventsOf(db, id) + [Event(r.status, status, moderator)]])
  }

  predicate Undecided(db: Db, id: nat) {
    id in db.reports && db.reports[id].status == Pending && db.reports[id].moderatedBy.None?
  }

  /** The verifier stores a score, and verifies the report if the score is high enough. */
  function Recorded(db: Db, id: nat, score: int, corroborations: nat, now: real): Db {
    if !Undecided(db, id) then db
    else
      var r := db.reports[id].(score := score, corroborations := corroborations);
      if score >= AUTO_VERIFY_SCORE
      then Db(db.reports[id := r.(status := Verified, moderatedBy := Some(AUTO), statusUpdatedAt := now)],
              db.events[id := EventsOf(db, id) + [Event(Pending, Verified, AUTO)]])
      else db.(reports := db.reports[id := r])
  }

  /** ON DELETE CASCADE on duplicate_of: deleting a report deletes its duplicates, and theirs. */
  function Cascade(reports: map<nat, Report>, gone: set<nat>): (all: set<nat>)
    ensures gone <= all
    decreases |reports.Keys - gone|
  {
    var more := set r | r in reports && reports[r].duplicateOf.Some? && reports[r].duplicateOf.value in gone
        && r !in gone;
    if more == {} then gone
    else
      assert reports.Keys - (gone + more) < reports.Keys - gone by {
        var r :| r in more;
        assert r in reports.Keys - gone;
      }
      ProperSubsetSize(reports.Keys - (gone + more), reports.Keys - gone);
      Cascade(reports, gone + more)
  }

  lemma ProperSubsetSize(a: set<nat>, b: set<nat>)
    requires a < b
    ensures |a| < |b|
  {
    assert b == a + (b - a);
  }

  function Deleted(db: Db, remove: set<nat>): Db {
    var gone := Cascade(db.reports, remove);
    Db(db.reports - gone, db.events - gone)
  }

  /** ON DELETE SET NULL on account_id. */
  function AccountDropped(db: Db, account: nat): Db {
    db.(reports := map id | id in db.reports ::
          if db.reports[id].account == Some(account) then db.reports[id].(account := None) else db.reports[id])
  }

  // ---------------------------------------------------------------- interleavings

  /**
   * drafts are report creations that have read their candidates but not inserted yet, with the original
   * they found; loaded are the reports the verifier's current run is working through.
   */
  datatype Sys = Sys(db: Db, drafts: map<nat, Option<nat>>, loaded: set<nat>, next: nat)

  datatype Step =
    | ReadCandidates(k: nat, draft: Draft, candidates: seq<Candidate>, original: Option<nat>)
    | Insert(k: nat, account: Option<nat>, category: string, place: int, approximate: bool, now: real)
    | Moderate(id: nat, status: Status, moderator: string, notDuplicate: bool, now: real)
    | Load(ids: set<nat>)
    | Record(id: nat, score: int, corroborations: nat, now: real)
    | Expire(remove: set<nat>)
    | DropAccount(dropped: nat)

  /** What the candidate query returns: reports that are not rejected, with their duplicate_of. */
  ghost predicate AreCandidates(db: Db, candidates: seq<Candidate>) {
    forall i :: 0 <= i < |candidates| ==>
      var c := candidates[i];
      c.id in db.reports && db.reports[c.id].status != Rejected && c.duplicateOf == db.reports[c.id].duplicateOf
  }

  ghost predicate Enabled(s: Sys, step: Step) {
    match step
    case ReadCandidates(k, draft, candidates, original) =>
      k !in s.drafts && AreCandidates(s.db, candidates) && Finds(draft, candidates, original)
    case Insert(k, _, _, _, _, _) => k in s.drafts
    // The configuration reserves the name "auto" (config.go:246).
    case Moderate(_, _, moderator, _, _) => moderator != AUTO
    case Load(ids) => forall id :: id in ids ==> Undecided(s.db, id) && s.db.reports[id].duplicateOf.None?
    // The verifier's list may be stale by the time it records, and so may the evidence behind the score.
    case Record(id, _, _, _) => id in s.loaded
    case Expire(_) => true
    case DropAccount(_) => true
  }

  function Next(s: Sys, step: Step): Sys
    requires step.Insert? ==> step.k in s.drafts
  {
    match step
    case ReadCandidates(k, _, _, original) => s.(drafts := s.drafts[k := original])
    case Insert(k, account, category, place, approximate, now) =>
      Sys(Inserted(s.db, s.next, account, category, place, approximate, s.drafts[k], now),
          s.drafts - {k}, s.loaded, s.next + 1)
    case Moderate(id, status, moderator, notDuplicate, now) =>
      s.(db := Moderated(s.db, id, status, moderator, notDuplicate, now))
    case Load(ids) => s.(loaded := ids)
    case Record(id, score, corroborations, now) => s.(db := Recorded(s.db, id, score, corroborations, now))
    case Expire(remove) => s.(db := Deleted(s.db, remove))
    case DropAccount(account) => s.(db := AccountDropped(s.db, account))
  }

  const EMPTY: Sys := Sys(Db(map[], map[]), map[], {}, 0)

  ghost predicate IsRun(states: seq<Sys>, steps: seq<Step>) {
    && |states| == |steps| + 1
    && states[0] == EMPTY
    && forall i :: 0 <= i < |steps| ==> Enabled(states[i], steps[i]) && states[i + 1] == Next(states[i], steps[i])
  }

  // ---------------------------------------------------------------- duplicates form stars, never chains

  ghost predicate IsOriginal(reports: map<nat, Report>, id: nat) {
    id in reports && reports[id].duplicateOf.None?
  }

  /** Every duplicate_of names a report that is itself not a duplicate. */
  ghost predicate Stars(reports: map<nat, Report>) {
    forall id :: id in reports && reports[id].duplicateOf.Some? ==> IsOriginal(reports, reports[id].duplicateOf.value)
  }

  ghost predicate StarInv(s: Sys) {
    && Stars(s.db.reports)
    && (forall id :: id in s.db.reports ==> id < s.next)
    && (forall k :: k in s.drafts && s.drafts[k].Some? ==>
          && s.drafts[k].value < s.next
          && (s.drafts[k].value in s.db.reports ==> IsOriginal(s.db.reports, s.drafts[k].value)))
    && (forall id :: id in s.loaded ==> id < s.next && (id in s.db.reports ==> IsOriginal(s.db.reports, id)))
  }

  /** Since stars are one level deep, deleting reports takes their direct duplicates along and no more. */
  lemma CascadeIsOneLevel(reports: map<nat, Report>, gone: set<nat>)
    requires Stars(reports)
    ensures Cascade(reports, gone)
         == gone + set r | r in reports && reports[r].duplicateOf.Some? && reports[r].duplicateOf.value in gone
  {
    var more := set r | r in reports && reports[r].duplicateOf.Some? && reports[r].duplicateOf.value in gone
        && r !in gone;
    if more != {} {
      var rest := set r | r in reports && reports[r].duplicateOf.Some? && reports[r].duplicateOf.value in gone + more
          && r !in gone + more;
      assert forall r :: r in reports && reports[r].duplicateOf.Some? ==> reports[r].duplicateOf.value !in more;
      assert rest == {};
      assert Cascade(reports, gone + more) == gone + more;
    }
    assert gone + more
        == gone + set r | r in reports && reports[r].duplicateOf.Some? && reports[r].duplicateOf.value in gone;
  }

  lemma InsertKeepsStars(s: Sys, step: Step)
    requires StarInv(s) && step.Insert? && Enabled(s, step)
    ensures StarInv(Next(s, step))
  {
  }

  lemma ReadKeepsStars(s: Sys, step: Step)
    requires StarInv(s) && step.ReadCandidates? && Enabled(s, step)
    ensures StarInv(Next(s, step))
  {
    if step.original.Some? {
      var i: nat :| FirstMatch(step.draft, step.candidates, i) && step.original.value == Original(step.candidates[i]);
      assert step.candidates[i].id in s.db.reports;
    }
  }

  /** Rows may go, or stop being duplicates, but no original becomes a duplicate. */
  lemma ShrinkingKeepsStars(s: Sys, s': Sys)
    requires StarInv(s) && s'.drafts == s.drafts && s'.next == s.next && s'.loaded == s.loaded
    requires forall id :: id in s'.db.reports ==>
               && id in s.db.reports
               && (s'.db.reports[id].duplicateOf.Some? ==>
                     && s'.db.reports[id].duplicateOf == s.db.reports[id].duplicateOf
                     && s'.db.reports[id].duplicateOf.value in s'.db.reports)
    ensures StarInv(s')
  {
  }

  lemma ExpireKeepsStars(s: Sys, step: Step)
    requires StarInv(s) && step.Expire?
    ensures StarInv(Next(s, step))
  {
    CascadeIsOneLevel(s.db.reports, step.remove);
    ShrinkingKeepsStars(s, Next(s, step));
  }

  lemma NextKeepsStars(s: Sys, step: Step)
    requires StarInv(s) && Enabled(s, step)
    ensures StarInv(Next(s, step))
  {
    match step
    case ReadCandidates(_, _, _, _) => ReadKeepsStars(s, step);
    case Insert(_, _, _, _, _, _) => InsertKeepsStars(s, step);
    case Expire(_) => ExpireKeepsStars(s, step);
    case Load(_) =>
    case _ => ShrinkingKeepsStars(s, Next(s, step));
  }

  // ---------------------------------------------------------------- the audit trail

  /** Replays a report's events from pending; None when one does not start where the last ended. */
  function Replay(events: seq<Event>): Option<Status> {
    if events == [] then Some(Pending)
    else
      var before, e := Replay(events[..|events| - 1]), events[|events| - 1];
      if before == Some(e.from) then Some(e.to) else None
  }

  ghost predicate AuditedReport(r: Report, events: seq<Event>) {
    && Replay(events) == Some(r.status)
    && (r.status == Pending <==> r.moderatedBy.None?)
    && (r.moderatedBy.Some? ==> events != [] && events[|events| - 1].actor == r.moderatedBy.value)
    && (r.moderatedBy == Some(AUTO) ==> r.status == Verified && r.duplicateOf.None?)
    && (forall i :: 0 <= i < |events| && events[i].actor == AUTO ==> events[i] == Event(Pending, Verified, AUTO))
  }

  /**
   * Each report's events replay to its current status; it names who last moderated it exactly while decided;
   * and the verifier only ever verified pending reports, none of them a duplicate.
   */
  ghost predicate AuditInv(db: Db) {
    && db.events.Keys == db.reports.Keys
    && forall id :: id in db.reports ==> AuditedReport(db.reports[id], db.events[id])
  }

  lemma ReplaySnoc(events: seq<Event>, e: Event)
    ensures Replay(events + [e]) == if Replay(events) == Some(e.from) then Some(e.to) else None
  {
    assert (events + [e])[..|events|] == events;
  }

  lemma AppendKeepsAudit(r: Report, events: seq<Event>, r': Report, e: Event)
    requires AuditedReport(r, events) && e.from == r.status && e.to == r'.status
    requires if r'.status == Pending then r'.moderatedBy.None? else r'.moderatedBy == Some(e.actor)
    requires e.actor == AUTO ==> e == Event(Pending, Verified, AUTO) && r'.duplicateOf.None?
    ensures AuditedReport(r', events + [e])
  {
    ReplaySnoc(events, e);
  }

  lemma ModerateKeepsAudit(s: Sys, step: Step)
    requires AuditInv(s.db) && step.Moderate? && Enabled(s, step) && step.id in s.db.reports
    ensures AuditInv(Next(s, step).db)
  {
    var db' := Next(s, step).db;
    var r := s.db.reports[step.id];
    AppendKeepsAudit(r, s.db.events[step.id], db'.reports[step.id], Event(r.status, step.status, step.moderator));
  }

  lemma RecordKeepsAudit(s: Sys, step: Step)
    requires StarInv(s) && AuditInv(s.db) && step.Record? && Enabled(s, step) && Undecided(s.db, step.id)
    ensures AuditInv(Next(s, step).db)
  {
    var db' := Next(s, step).db;
    assert IsOriginal(s.db.reports, step.id);
    if step.score >= AUTO_VERIFY_SCORE {
      AppendKeepsAudit(s.db.reports[step.id], s.db.events[step.id], db'.reports[step.id],
          Event(Pending, Verified, AUTO));
    }
  }

  lemma NextKeepsAudit(s: Sys, step: Step)
    requires StarInv(s) && AuditInv(s.db) && Enabled(s, step)
    ensures AuditInv(Next(s, step).db)
  {
    match step
    case Moderate(id, _, _, _, _) =>
      if id in s.db.reports {
        ModerateKeepsAudit(s, step);
      }
    case Record(id, _, _, _) =>
      if Undecided(s.db, id) {
        RecordKeepsAudit(s, step);
      }
    case Insert(_, _, _, _, _, _) =>
      assert Replay([]) == Some(Pending);
    case _ =>
  }

  // ---------------------------------------------------------------- theorems over every run

  lemma {:induction false} StarsAndAuditHold(states: seq<Sys>, steps: seq<Step>, k: nat)
    requires IsRun(states, steps) && k < |states|
    ensures StarInv(states[k]) && AuditInv(states[k].db)
  {
    if k > 0 {
      StarsAndAuditHold(states, steps, k - 1);
      NextKeepsStars(states[k - 1], steps[k - 1]);
      NextKeepsAudit(states[k - 1], steps[k - 1]);
      assert states[k - 1 + 1] == Next(states[k - 1], steps[k - 1]);
    }
  }

  /** A report's fate as moderators and clients see it. */
  ghost predicate SameDecision(a: Report, b: Report) {
    a.status == b.status && a.moderatedBy == b.moderatedBy && a.duplicateOf == b.duplicateOf
  }

  /**
   * A moderator's decision is final: until a moderator takes the report up again, no step of the verifier,
   * however stale its list, and no other step changes it while the report exists.
   */
  lemma {:induction false} DecisionsAreFinal(states: seq<Sys>, steps: seq<Step>, from: nat, to: nat, id: nat)
    requires IsRun(states, steps) && from <= to < |states|
    requires id in states[from].db.reports && states[from].db.reports[id].status != Pending
    requires forall i :: from <= i < to ==> !Moderates(steps[i], id)
    ensures id in states[to].db.reports ==> SameDecision(states[to].db.reports[id], states[from].db.reports[id])
    ensures id < states[to].next
  {
    StarsAndAuditHold(states, steps, from);
    if from < to {
      DecisionsAreFinal(states, steps, from, to - 1, id);
      assert states[to - 1 + 1] == Next(states[to - 1], steps[to - 1]);
      DecisionStays(states[to - 1], steps[to - 1], id);
    }
  }

  predicate Moderates(step: Step, id: nat) {
    step.Moderate? && step.id == id
  }

  /** No step but a moderator's alters a decided report, brings back one that is gone, or takes its number. */
  lemma DecisionStays(s: Sys, step: Step, id: nat)
    requires Enabled(s, step) && id < s.next && !Moderates(step, id)
    ensures id < Next(s, step).next
    ensures id in Next(s, step).db.reports ==> id in s.db.reports
    ensures id in Next(s, step).db.reports && s.db.reports[id].status != Pending ==>
              SameDecision(Next(s, step).db.reports[id], s.db.reports[id])
  {
  }

  // ---------------------------------------------------------------- which reports serve as originals

  /**
   * At the moment the candidates are read, the original found is rejected just when it was reached through a duplicate.
   */
  lemma FoundRejectedIff(s: Sys, draft: Draft, candidates: seq<Candidate>, original: nat)
    requires StarInv(s) && AreCandidates(s.db, candidates) && Finds(draft, candidates, Some(original))
    ensures original in s.db.reports
    ensures s.db.reports[original].status == Rejected <==> ThroughDuplicate(s.db, draft, candidates)
  {
    var i: nat :| FirstMatch(draft, candidates, i) && original == Original(candidates[i]);
    assert candidates[i].id in s.db.reports;
    assert forall j: nat :: FirstMatch(draft, candidates, j) ==> j == i;
  }

  /** The earliest match is a duplicate whose own original has been rejected. */
  ghost predicate ThroughDuplicate(db: Db, draft: Draft, candidates: seq<Candidate>) {
    exists i: nat :: FirstMatch(draft, candidates, i) && candidates[i].duplicateOf.Some?
                     && candidates[i].duplicateOf.value in db.reports
                     && db.reports[candidates[i].duplicateOf.value].status == Rejected
  }

  /** What the last moderator to take up id among these steps set it to, if any did. */
  function LastSetTo(steps: seq<Step>, id: nat): Option<Status> {
    if steps == [] then None
    else
      var n := |steps| - 1;
      if Moderates(steps[n], id) then Some(steps[n].status) else LastSetTo(steps[..n], id)
  }

  /** While a report exists, whether it is rejected is up to the last moderator who took it up. */
  lemma {:induction false} RejectedIffLastSetTo(states: seq<Sys>, steps: seq<Step>, from: nat, to: nat, id: nat)
    requires IsRun(states, steps) && from <= to < |states| && id < states[from].next
    requires id in states[to].db.reports
    ensures id in states[from].db.reports
    ensures var last := LastSetTo(steps[from..to], id);
            states[to].db.reports[id].status == Rejected <==>
            if last.Some? then last == Some(Rejected) else states[from].db.reports[id].status == Rejected
  {
    if from < to {
      NumbersGrow(states, steps, from, to - 1);
      assert states[to - 1 + 1] == Next(states[to - 1], steps[to - 1]);
      RejectionStep(states[to - 1], steps[to - 1], id);
      RejectedIffLastSetTo(states, steps, from, to - 1, id);
      LastSetToSnoc(steps, from, to, id);
    }
  }

  lemma LastSetToSnoc(steps: seq<Step>, from: nat, to: nat, id: nat)
    requires from < to <= |steps|
    ensures LastSetTo(steps[from..to], id)
         == if Moderates(steps[to - 1], id) then Some(steps[to - 1].status) else LastSetTo(steps[from..to - 1], id)
  {
    assert steps[from..to][..to - 1 - from] == steps[from..to - 1];
  }

  lemma {:induction false} NumbersGrow(states: seq<Sys>, steps: seq<Step>, from: nat, to: nat)
    requires IsRun(states, steps) && from <= to < |states|
    ensures states[from].next <= states[to].next
  {
    if from < to {
      NumbersGrow(states, steps, from, to - 1);
      assert states[to - 1 + 1] == Next(states[to - 1], steps[to - 1]);
    }
  }

  lemma RejectionStep(s: Sys, step: Step, id: nat)
    requires Enabled(s, step) && id < s.next && id in Next(s, step).db.reports
    ensures id in s.db.reports
    ensures Next(s, step).db.reports[id].status == Rejected <==>
            if Moderates(step, id) then step.status == Rejected else s.db.reports[id].status == Rejected
  {
  }

  /** Step read finds `original` for draft k, and step insert is the one that stores that draft. */
  ghost predicate CreatesFrom(states: seq<Sys>, steps: seq<Step>, read: nat, insert: nat, original: Option<nat>) {
    && read < insert < |steps| && |states| == |steps| + 1
    && steps[read].ReadCandidates? && steps[insert].Insert? && steps[insert].k == steps[read].k
    && steps[read].original == original
    && forall i :: read < i < insert ==> !(steps[i].Insert? && steps[i].k == steps[read].k)
  }

  /** Step insert stored a new row that hangs on a rejected report. */
  ghost predicate HangsOnRejected(before: Db, after: Db, id: nat) {
    && id in after.reports && after.reports[id].duplicateOf.Some?
    && after.reports[id].duplicateOf.value in before.reports
    && before.reports[after.reports[id].duplicateOf.value].status == Rejected
  }

  /**
   * Rejected reports are left out of the candidates, yet a new report can still be attached to one: exactly when
   * the original it found still exists, and either the last moderator to take that original up between the read
   * and the insert rejected it, or none did and it was found through a duplicate of a report already rejected.
   */
  lemma RejectedOriginalIff(states: seq<Sys>, steps: seq<Step>, read: nat, insert: nat, original: Option<nat>)
    requires IsRun(states, steps) && CreatesFrom(states, steps, read, insert, original)
    ensures var (s, step) := (states[read], steps[read]);
            HangsOnRejected(states[insert].db, states[insert + 1].db, states[insert].next) <==>
            && original.Some? && original.value in states[insert].db.reports
            && var last := LastSetTo(steps[read + 1..insert], original.value);
               if last.Some? then last == Some(Rejected) else ThroughDuplicate(s.db, step.draft, step.candidates)
  {
    assert Enabled(states[read], steps[read]) && Enabled(states[insert], steps[insert]);
    assert states[read + 1] == Next(states[read], steps[read])
           && states[insert + 1] == Next(states[insert], steps[insert]);
    StarsAndAuditHold(states, steps, read);
    StarsAndAuditHold(states, steps, insert);
    DraftWaits(states, steps, read, insert, original);
    InsertedRow(states[insert], steps[insert]);
    if original.Some? && original.value in states[insert].db.reports {
      FoundRejectedIff(states[read], steps[read].draft, steps[read].candidates, original.value);
      RejectedIffLastSetTo(states, steps, read + 1, insert, original.value);
    }
  }

  lemma {:induction false} DraftWaits(states: seq<Sys>, steps: seq<Step>, read: nat, to: nat, original: Option<nat>)
    requires IsRun(states, steps) && read < to < |states|
    requires steps[read].ReadCandidates? && steps[read].original == original
    requires forall i :: read < i < to ==> !(steps[i].Insert? && steps[i].k == steps[read].k)
    ensures steps[read].k in states[to].drafts && states[to].drafts[steps[read].k] == original
  {
    assert states[to - 1 + 1] == Next(states[to - 1], steps[to - 1]);
    if read + 1 < to {
      DraftWaits(states, steps, read, to - 1, original);
      assert Enabled(states[to - 1], steps[to - 1]);
    }
  }

  lemma InsertedRow(s: Sys, step: Step)
    requires StarInv(s) && step.Insert? && step.k in s.drafts
    ensures var (o, db', id) := (s.drafts[step.k], Next(s, step).db, s.next);
            && (id in db'.reports <==> (o.Some? ==> o.value in s.db.reports))
            && (id in db'.reports ==> db'.reports[id].duplicateOf == o)
  {
  }

  // ---------------------------------------------------------------- and both ways do happen

  lemma Extended(states: seq<Sys>, steps: seq<Step>, step: Step) returns (states': seq<Sys>, steps': seq<Step>)
    requires IsRun(states, steps) && Enabled(states[|steps|], step)
    ensures IsRun(states', steps') && states' == states + [Next(states[|steps|], step)] && steps' == steps + [step]
  {
    states', steps' := states + [Next(states[|steps|], step)], steps + [step];
  }

  const NOTE: Draft := Draft(Some(1), "flooding", {})

  function Here(id: nat, duplicateOf: Option<nat>): Candidate {
    Candidate(id, duplicateOf, Some(1), "flooding", {}, 0.0, 60.0)
  }

  lemma FindsHere(id: nat, duplicateOf: Option<nat>)
    ensures Finds(NOTE, [Here(id, duplicateOf)], Some(if duplicateOf.Some? then duplicateOf.value else id))
    ensures FirstMatch(NOTE, [Here(id, duplicateOf)], 0)
  {
    var candidates := [Here(id, duplicateOf)];
    assert candidates[0] == Here(id, duplicateOf) && Duplicates(NOTE, candidates[0]);
    assert FirstMatch(NOTE, candidates, 0);
  }

  /** Report 0 is stored: draft 0 finds no candidate. */
  lemma FirstReport() returns (states: seq<Sys>, steps: seq<Step>)
    ensures IsRun(states, steps) && |steps| == 2
    ensures var s := states[2];
            s.db.reports.Keys == {0} && s.db.reports[0].status == Pending && s.db.reports[0].duplicateOf.None?
            && s.drafts == map[] && s.next == 1
  {
    states, steps := [EMPTY], [];
    states, steps := Extended(states, steps, ReadCandidates(0, NOTE, [], None));
    states, steps := Extended(states, steps, Insert(0, Some(1), "flooding", 0, false, 0.0));
  }

  /** Draft 1 finds report 0 while that is pending; a moderator rejects it before the draft is stored. */
  lemma RejectedBetweenReadAndInsert() returns (states: seq<Sys>, steps: seq<Step>)
    ensures IsRun(states, steps) && CreatesFrom(states, steps, 2, 4, Some(0))
    ensures !ThroughDuplicate(states[2].db, steps[2].draft, steps[2].candidates)
    ensures HangsOnRejected(states[4].db, states[5].db, states[4].next)
  {
    states, steps := FirstReport();
    FindsHere(0, None);
    states, steps := Extended(states, steps, ReadCandidates(1, NOTE, [Here(0, None)], Some(0)));
    states, steps := Extended(states, steps, Moderate(0, Rejected, "m", false, 2.0));
    states, steps := Extended(states, steps, Insert(1, Some(1), "flooding", 0, false, 3.0));
  }

  /** Report 1 is stored as a duplicate of report 0, which is then rejected. */
  lemma DuplicateOfRejected() returns (states: seq<Sys>, steps: seq<Step>)
    ensures IsRun(states, steps) && |steps| == 5
    ensures var s := states[5];
            && s.db.reports.Keys == {0, 1} && s.db.reports[0].status == Rejected && s.db.reports[0].duplicateOf.None?
            && s.db.reports[1].status == Pending && s.db.reports[1].duplicateOf == Some(0) && s.drafts == map[]
  {
    states, steps := FirstReport();
    FindsHere(0, None);
    states, steps := Extended(states, steps, ReadCandidates(1, NOTE, [Here(0, None)], Some(0)));
    states, steps := Extended(states, steps, Insert(1, Some(1), "flooding", 0, false, 2.0));
    states, steps := Extended(states, steps, Moderate(0, Rejected, "m", false, 3.0));
  }

  /** Draft 2 finds report 0 through report 1. */
  lemma RejectedBeforeRead() returns (states: seq<Sys>, steps: seq<Step>)
    ensures IsRun(states, steps) && CreatesFrom(states, steps, 5, 6, Some(0))
    ensures LastSetTo(steps[6..6], 0).None? && ThroughDuplicate(states[5].db, steps[5].draft, steps[5].candidates)
    ensures HangsOnRejected(states[6].db, states[7].db, states[6].next)
  {
    states, steps := DuplicateOfRejected();
    FindsHere(1, Some(0));
    states, steps := Extended(states, steps, ReadCandidates(2, NOTE, [Here(1, Some(0))], Some(0)));
    states, steps := Extended(states, steps, Insert(2, Some(1), "flooding", 0, false, 4.0));
  }

  // ---------------------------------------------------------------- the tables as the code updates them

  class ReportTables {
    var reports: map<nat, Report>
    var events: map<nat, seq<Event>>

    function State(): Db
      reads this
    {
      Db(reports, events)
    }

    /** storeReport, when nothing else runs between reading the candidates and inserting. */
    method StoreReport(id: nat, draft: Draft, candidates: seq<Candidate>, place: int, approximate: bool, now: real)
        returns (duplicateOf: Option<nat>)
      modifies this
      ensures Finds(draft, candidates, duplicateOf)
      ensures State() == Inserted(old(State()), id, draft.account, draft.category, place, approximate, duplicateOf, now)
    {
      duplicateOf := FindDuplicate(draft, candidates);
      if duplicateOf.Some? && duplicateOf.value !in reports {
        return;
      }
      var r := Report(draft.account, draft.category, place, approximate, now, duplicateOf, Pending, None, now, 0, 0);
      reports := reports[id := r];
      events := events[id := []];
    }

    method AppendEvent(id: nat, e: Event)
      modifies this`events
      ensures events == old(events)[id := EventsOf(old(State()), id) + [e]]
    {
      events := events[id := (if id in events then events[id] else []) + [e]];
    }

    method ModerateReport(id: nat, status: Status, moderator: string, notDuplicate: bool, now: real)
        returns (found: bool)
      modifies this
      ensures found == (id in old(reports))
      ensures State() == Moderated(old(State()), id, status, moderator, notDuplicate, now)
    {
      if id !in reports {
        return false;
      }
      var current := reports[id];
      var moderatedBy := if status != Pending then Some(moderator) else None;
      var duplicateOf := if notDuplicate then None else current.duplicateOf;
      reports := reports[id := current.(status := status, moderatedBy := moderatedBy, statusUpdatedAt := now,
                                        duplicateOf := duplicateOf)];
      AppendEvent(id, Event(current.status, status, moderator));
      return true;
    }

    method Record(id: nat, score: int, corroborations: nat, now: real) returns (verified: bool)
      modifies this
      ensures verified == (Undecided(old(State()), id) && score >= AUTO_VERIFY_SCORE)
      ensures State() == Recorded(old(State()), id, score, corroborations, now)
    {
      var verify := score >= AUTO_VERIFY_SCORE;
      if !(id in reports && reports[id].status == Pending && reports[id].moderatedBy.None?) {
        return false;
      }
      var r := reports[id].(score := score, corroborations := corroborations);
      if verify {
        r := r.(status := Verified, moderatedBy := Some(AUTO), statusUpdatedAt := now);
        AppendEvent(id, Event(Pending, Verified, AUTO));
      }
      reports := reports[id := r];
      return verify;
    }
  }
}
