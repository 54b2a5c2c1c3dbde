/** What counts as evidence for a report, row by row, and what a run makes of it (internal/workers/verifier.go). */
module VerifierEvidence {
  import opened Prelude
  import opened Curation
  import opened Reports
  import opened Verifier

  // ---------------------------------------------------------------- what one more row adds

  /**
   * A row that corroborates the report `mine` of a category: an original that is not rejected, of the same kind, near
   * by, both places exact, filed within six hours either way, and not by the same account.
   */
  predicate Supports(w: World, mine: Report, category: string, x: Report) {
    && x.duplicateOf.None? && x.status != Rejected
    && x.category in CategoriesForGroup(category)
    && (x.place, mine.place) in w.near && !x.approximate && !mine.approximate
    && -6.0 * 3600.0 <= x.createdAt - mine.createdAt <= 6.0 * 3600.0
    && !(mine.account.Some? && x.account == mine.account)
  }

  /** Some other row corroborates the report for this account. */
  ghost predicate Counted(w: World, reports: map<nat, Report>, r: PendingReport, account: nat)
    requires r.id in reports
  {
    exists p :: p in reports && p != r.id && Supports(w, reports[r.id], r.category, reports[p])
                && reports[p].account == Some(account)
  }

  /** A human moderator gave the row of this reporter that status. */
  predicate OnRecord(r: PendingReport, x: Report, status: Status) {
    r.account.Some? && x.account == r.account && x.status == status
    && x.moderatedBy.Some? && x.moderatedBy.value != "auto"
  }

  lemma MoreCorroborators(w: World, reports: map<nat, Report>, o: nat, x: Report, r: PendingReport)
    requires o !in reports && r.id in reports
    ensures var before := Corroborators(w, reports, r);
            Corroborators(w, reports[o := x], r)
              == if Supports(w, reports[r.id], r.category, x) then before + {o} else before
  {
  }

  lemma MoreAccounts(reports: map<nat, Report>, o: nat, x: Report, ids: set<nat>)
    requires o !in reports && ids <= reports.Keys
    ensures Accounts(reports[o := x], ids) == Accounts(reports, ids)
    ensures Accounts(reports[o := x], ids + {o})
         == Accounts(reports, ids) + if x.account.Some? then {x.account.value} else {}
    ensures Anonymous(reports[o := x], ids) == Anonymous(reports, ids)
    ensures Anonymous(reports[o := x], ids + {o}) == Anonymous(reports, ids) + if x.account.Some? then {} else {o}
  {
  }

  lemma MoreHistory(reports: map<nat, Report>, o: nat, x: Report, r: PendingReport, status: Status)
    requires o !in reports && r.id in reports
    ensures |History(reports[o := x], r, status)|
         == |History(reports, r, status)| + if OnRecord(r, x, status) then 1 else 0
  {
    assert History(reports[o := x], r, status)
        == History(reports, r, status) + if OnRecord(r, x, status) then {o} else {};
  }

  lemma CountedIff(w: World, reports: map<nat, Report>, r: PendingReport, account: nat)
    requires r.id in reports
    ensures account in Accounts(reports, Corroborators(w, reports, r)) <==> Counted(w, reports, r, account)
  {
    if Counted(w, reports, r, account) {
      var p :| p in reports && p != r.id && Supports(w, reports[r.id], r.category, reports[p])
               && reports[p].account == Some(account);
      assert p in Corroborators(w, reports, r);
    }
  }

  lemma OneMore<T>(s: set<T>, x: T)
    ensures |s + {x}| == |s| + if x in s then 0 else 1
  {
    if x in s {
      assert s + {x} == s;
    }
  }

  /** How the counts of a set of rows grow by one row. */
  lemma OneMoreCounted(reports: map<nat, Report>, o: nat, x: Report, ids: set<nat>)
    requires o !in reports && ids <= reports.Keys
    ensures |ids + {o}| == |ids| + 1
    ensures |Anonymous(reports[o := x], ids + {o})|
         == |Anonymous(reports, ids)| + if x.account.None? then 1 else 0
    ensures |Accounts(reports[o := x], ids + {o})|
         == |Accounts(reports, ids)|
              + if x.account.Some? && x.account.value !in Accounts(reports, ids) then 1 else 0
  {
    MoreAccounts(reports, o, x, ids);
    OneMore(ids, o);
    if x.account.Some? {
      OneMore(Accounts(reports, ids), x.account.value);
      assert Anonymous(reports, ids) + {} == Anonymous(reports, ids);
    } else {
      OneMore(Anonymous(reports, ids), o);
      assert Accounts(reports, ids) + {} == Accounts(reports, ids);
    }
  }

  lemma MoreSupport(w: World, reports: map<nat, Report>, o: nat, x: Report, r: PendingReport)
    requires o !in reports && r.id in reports && Supports(w, reports[r.id], r.category, x)
    ensures var (ids, ids') := (Corroborators(w, reports, r), Corroborators(w, reports[o := x], r));
            && |ids'| == |ids| + 1
            && |Accounts(reports[o := x], ids')| == |Accounts(reports, ids)|
                 + (if x.account.Some? && !Counted(w, reports, r, x.account.value) then 1 else 0)
            && |Anonymous(reports[o := x], ids')| == |Anonymous(reports, ids)| + (if x.account.None? then 1 else 0)
  {
    MoreCorroborators(w, reports, o, x, r);
    OneMoreCounted(reports, o, x, Corroborators(w, reports, r));
    if x.account.Some? {
      CountedIff(w, reports, r, x.account.value);
    }
  }

  lemma NoMoreSupport(w: World, reports: map<nat, Report>, o: nat, x: Report, r: PendingReport)
    requires o !in reports && r.id in reports && !Supports(w, reports[r.id], r.category, x)
    ensures var (ids, ids') := (Corroborators(w, reports, r), Corroborators(w, reports[o := x], r));
            && ids' == ids && Accounts(reports[o := x], ids') == Accounts(reports, ids)
            && Anonymous(reports[o := x], ids') == Anonymous(reports, ids)
  {
    MoreCorroborators(w, reports, o, x, r);
    MoreAccounts(reports, o, x, Corroborators(w, reports, r));
  }

  /**
   * What one more row does to the evidence for a report. A row that does not support it adds no corroboration. An
   * anonymous one that does adds to the anonymous ones only; one with an account is an independent reporter unless
   * that account has been counted. A row of the reporter's own that a human decided goes on record, whatever else it
   * is, and nothing else does.
   */
  lemma OneMoreRow(w: World, reports: map<nat, Report>, o: nat, x: Report, r: PendingReport)
    requires o !in reports && r.id in reports
    ensures var (e, e') := (EvidenceFor(w, reports, r), EvidenceFor(w, reports[o := x], r));
            var supports := Supports(w, reports[r.id], r.category, x);
            && |Corroborators(w, reports[o := x], r)| == |Corroborators(w, reports, r)| + (if supports then 1 else 0)
            && e'.independentReporters == e.independentReporters
                 + (if supports && x.account.Some? && !Counted(w, reports, r, x.account.value) then 1 else 0)
            && e'.anonymousCorroborations == e.anonymousCorroborations + (if supports && x.account.None? then 1 else 0)
            && e'.reporterVerified == e.reporterVerified + (if OnRecord(r, x, Verified) then 1 else 0)
            && e'.reporterRejected == e.reporterRejected + (if OnRecord(r, x, Rejected) then 1 else 0)
            && e'.hasReadyPhoto == e.hasReadyPhoto && e'.signedIn == e.signedIn
  {
    if Supports(w, reports[r.id], r.category, x) {
      MoreSupport(w, reports, o, x, r);
    } else {
      NoMoreSupport(w, reports, o, x, r);
    }
    MoreHistory(reports, o, x, r, Verified);
    MoreHistory(reports, o, x, r, Rejected);
  }

  /** A report that is alone has just its photo and its reporter to speak for it. */
  lemma AloneWithoutSupport(w: World, r: PendingReport, mine: Report)
    ensures EvidenceFor(w, map[r.id := mine], r)
         == Evidence(0, 0, r.id in w.withReadyPhoto, r.account.Some?, 0, 0)
    ensures Corroborators(w, map[r.id := mine], r) == {}
  {
    var reports := map[r.id := mine];
    assert Corroborators(w, reports, r) == {};
    assert Accounts(reports, {}) == {} && Anonymous(reports, {}) == {};
    assert History(reports, r, Verified) == {} && History(reports, r, Rejected) == {};
  }

  /** So no one can corroborate their own report, however many they file. */
  lemma OwnReportsDoNotSupport(w: World, reports: map<nat, Report>, o: nat, x: Report, r: PendingReport)
    requires o !in reports && r.id in reports && reports[r.id].account.Some? && x.account == reports[r.id].account
    requires x.moderatedBy.None? || x.moderatedBy == Some("auto")
    ensures EvidenceFor(w, reports[o := x], r) == EvidenceFor(w, reports, r)
  {
    OneMoreRow(w, reports, o, x, r);
  }

  // ---------------------------------------------------------------- what a run does

  /** Pending, decided by no one, no duplicate, and filed within the last two days. */
  ghost predicate AwaitsVerdict(x: Report, now: real) {
    x.status == Pending && x.moderatedBy.None? && x.duplicateOf.None? && x.createdAt > now - 48.0 * 3600.0
  }

  /** A run loads only reports that await a verdict, and misses one only behind five hundred that are no older. */
  lemma LoadedOrBehind(db: Db, batch: seq<PendingReport>, now: real, id: nat)
    requires Loaded(db, batch, now) && id in db.reports
    ensures id in Ids(batch) ==> AwaitsVerdict(db.reports[id], now)
    ensures AwaitsVerdict(db.reports[id], now) && id !in Ids(batch) ==>
              && |batch| == 500
              && forall i :: 0 <= i < |batch| ==>
                   batch[i].id in db.reports && db.reports[id].createdAt <= db.reports[batch[i].id].createdAt
  {
    assert AwaitsVerdict(db.reports[id], now) <==> id in AllEligible(db, now);
  }

  /**
   * A run gives every undecided report of its batch the score its evidence had before the run, and verifies it, in
   * the name of "auto" and with one event, exactly from a score of 50 on. It touches nothing else.
   */
  lemma RunVerifiesIff(w: World, db: Db, batch: seq<PendingReport>, now: real, id: nat)
    requires db.events.Keys == db.reports.Keys && Lists(db, batch) && id in db.reports
    ensures var (before, after) := (db.reports[id], RunOver(w, db, batch, now));
            && after.reports.Keys == db.reports.Keys && id in after.events
            && (if id in Ids(batch) && before.status == Pending && before.moderatedBy.None? then
                  var r := PendingReport(id, before.account, before.category);
                  var score := VerificationScore(EvidenceFor(w, db.reports, r));
                  var scored := before.(score := score, corroborations := |Corroborators(w, db.reports, r)|);
                  if score >= 50 then
                    && after.reports[id]
                         == scored.(status := Verified, moderatedBy := Some("auto"), statusUpdatedAt := now)
                    && after.events[id] == db.events[id] + [Event(Pending, Verified, "auto")]
                  else after.reports[id] == scored && after.events[id] == db.events[id]
                else after.reports[id] == before && after.events[id] == db.events[id])
  {
    RunIsOneJudgement(w, db, batch, now);
  }
}
