/**
 * What each transaction leaves in the report tables, field by field: the creation of a report (reports.go), a
 * moderator's decision (moderation.go), the verifier's result (verifier.go), the deletion of expired reports
 * (retention.go) and the deletion of an account (auth.go). Nothing else changes.
 */
module ReportRows {
  import opened Prelude
  import opened Curation
  import opened Reports

  /** Nothing changes but, at most, the row and the events of this report. */
  ghost predicate OnlyThisReport(db: Db, db': Db, id: nat) {
    db'.reports - {id} == db.reports - {id} && db'.events - {id} == db.events - {id}
  }

  /**
   * A new report is stored as filed, pending and unscored, with an empty trail; if its original has gone meanwhile
   * nothing is stored.
   */
  lemma StoredAsFiled(db: Db, id: nat, account: Option<nat>, category: string, place: int, approximate: bool,
                      original: Option<nat>, now: real)
    requires id !in db.reports && (original.Some? ==> original.value != id)
    ensures var db' := Inserted(db, id, account, category, place, approximate, original, now);
            && OnlyThisReport(db, db', id)
            && (id in db'.reports <==> original.None? || original.value in db.reports)
            && (id !in db'.reports ==> db' == db)
            && (id in db'.reports ==>
                  var r := db'.reports[id];
                  && r.account == account && r.category == category && r.place == place && r.approximate == approximate
                  && r.createdAt == now && r.statusUpdatedAt == now && r.duplicateOf == original
                  && r.status == Pending && r.moderatedBy.None? && r.score == 0 && r.corroborations == 0
                  && id in db'.events && db'.events[id] == [])
  {
  }

  /**
   * A decision sets the status and its time, names the moderator unless the report is handed back, clears the
   * duplicate link exactly when asked to, adds the event, and leaves everything else as it was.
   */
  lemma DecidedAsAsked(db: Db, id: nat, status: Status, moderator: string, notDuplicate: bool, now: real)
    requires id in db.reports && id in db.events
    ensures var db' := Moderated(db, id, status, moderator, notDuplicate, now);
            && OnlyThisReport(db, db', id) && id in db'.reports && id in db'.events
            && var (r, r') := (db.reports[id], db'.reports[id]);
               && r'.status == status && r'.statusUpdatedAt == now
               && (if status == Pending then r'.moderatedBy.None? else r'.moderatedBy == Some(moderator))
               && (if notDuplicate then r'.duplicateOf.None? else r'.duplicateOf == r.duplicateOf)
               && r'.account == r.account && r'.category == r.category && r'.place == r.place
               && r'.approximate == r.approximate && r'.createdAt == r.createdAt
               && r'.score == r.score && r'.corroborations == r.corroborations
               && db'.events[id] == db.events[id] + [Event(r.status, status, moderator)]
  {
  }

  lemma UnknownIsNotDecided(db: Db, id: nat, status: Status, moderator: string, notDuplicate: bool, now: real)
    requires id !in db.reports
    ensures Moderated(db, id, status, moderator, notDuplicate, now) == db
  {
  }

  /** The verifier's result lands only on a report that is pending and not decided by anyone. */
  lemma RecordedOnlyIfUndecided(db: Db, id: nat, score: int, corroborations: nat, now: real)
    requires db.events.Keys == db.reports.Keys
    ensures var db' := Recorded(db, id, score, corroborations, now);
            && OnlyThisReport(db, db', id)
            && (if id in db.reports && db.reports[id].status == Pending && db.reports[id].moderatedBy.None? then
                  && id in db'.reports && id in db'.events
                  && var scored := db.reports[id].(score := score, corroborations := corroborations);
                     if score >= 50 then
                       && db'.reports[id]
                            == scored.(status := Verified, moderatedBy := Some("auto"), statusUpdatedAt := now)
                       && db'.events[id] == db.events[id] + [Event(Pending, Verified, "auto")]
                     else db'.reports[id] == scored && db'.events[id] == db.events[id]
                else db' == db)
  {
  }

  /** Deleting reports takes their direct duplicates along, with all their events, and nothing else. */
  lemma DeletedIff(db: Db, remove: set<nat>, id: nat)
    requires Stars(db.reports) && db.events.Keys == db.reports.Keys && id in db.reports
    ensures var db' := Deleted(db, remove);
            && (id !in db'.reports <==>
                  || id in remove
                  || (db.reports[id].duplicateOf.Some? && db.reports[id].duplicateOf.value in remove))
            && (id in db'.reports ==>
                  db'.reports[id] == db.reports[id] && id in db'.events && db'.events[id] == db.events[id])
            && (id !in db'.reports ==> id !in db'.events)
  {
    CascadeIsOneLevel(db.reports, remove);
  }

  /** Reports outlive the account that filed them, without its name. */
  lemma ReportsOutliveAccount(db: Db, account: nat, id: nat)
    requires id in db.reports
    ensures var db' := AccountDropped(db, account);
            && db'.events == db.events && db'.reports.Keys == db.reports.Keys
            && db'.reports[id] == db.reports[id].(account := db'.reports[id].account)
            && db'.reports[id].account
                 == (if db.reports[id].account == Some(account) then None else db.reports[id].account)
  {
  }
}
