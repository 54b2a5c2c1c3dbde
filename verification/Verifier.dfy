/** The automatic verifier's run over pending reports (internal/workers/verifier.go). */
module Verifier {
  import opened Prelude
  import opened Curation
  import opened Reports

  const LOOKBACK: real := 172800.0
  const BATCH: nat := 500
  const CORROBORATION_WINDOW: real := 21600.0

  /** What loadPending reads of a report. */
  datatype PendingReport = PendingReport(id: nat, account: Option<nat>, category: string)

  /** What a run does not change: which places are within a kilometre, and which reports have a ready photo. */
  datatype World = World(near: set<(int, int)>, withReadyPhoto: set<nat>)

  // ---------------------------------------------------------------- evidence

  predicate Corroborates(w: World, reports: map<nat, Report>, o: nat, r: PendingReport)
    requires o in reports && r.id in reports
  {
    var (other, mine) := (reports[o], reports[r.id]);
    && o != r.id && other.duplicateOf.None? && other.status != Rejected
    && other.category in CategoriesForGroup(r.category)
    && (other.place, mine.place) in w.near && !other.approximate && !mine.approximate
    && mine.createdAt - CORROBORATION_WINDOW <= other.createdAt <= mine.createdAt + CORROBORATION_WINDOW
    && (mine.account.None? || other.account != mine.account)
  }

  function Corroborators(w: World, reports: map<nat, Report>, r: PendingReport): set<nat> {
    set o | o in reports && r.id in reports && Corroborates(w, reports, o, r)
  }

  /** The accounts behind a set of reports; anonymous ones have none. */
  function Accounts(reports: map<nat, Report>, ids: set<nat>): set<nat> {
    set id | id in ids && id in reports && reports[id].account.Some? :: reports[id].account.value
  }

  function Anonymous(reports: map<nat, Report>, ids: set<nat>): set<nat> {
    set id | id in ids && id in reports && reports[id].account.None?
  }

  /** The reporter's other reports that a human moderator gave this status. */
  function History(reports: map<nat, Report>, r: PendingReport, status: Status): set<nat> {
    set h | h in reports && r.account.Some? && reports[h].account == r.account && h != r.id
            && reports[h].moderatedBy.Some? && reports[h].moderatedBy.value != AUTO && reports[h].status == status
  }

  function EvidenceFor(w: World, reports: map<nat, Report>, r: PendingReport): Evidence {
    var corroborators := Corroborators(w, reports, r);
    Evidence(|Accounts(reports, corroborators)|, |Anonymous(reports, corroborators)|, r.id in w.withReadyPhoto,
             r.account.Some?, |History(reports, r, Verified)|, |History(reports, r, Rejected)|)
  }

  ghost predicate Counted(reports: map<nat, Report>, seen: set<nat>, accounts: set<nat>, anonymous: nat, all: nat) {
    accounts == Accounts(reports, seen) && anonymous == |Anonymous(reports, seen)| && all == |seen|
  }

  lemma OneMoreReport(reports: map<nat, Report>, seen: set<nat>, id: nat, accounts: set<nat>, anonymous: nat, all: nat)
    requires id in reports && id !in seen && Counted(reports, seen, accounts, anonymous, all)
    ensures var account := reports[id].account;
            Counted(reports, seen + {id}, accounts + (if account.Some? then {account.value} else {}),
                    anonymous + (if account.Some? then 0 else 1), all + 1)
  {
    assert Anonymous(reports, seen + {id}) == Anonymous(reports, seen) + if reports[id].account.Some? then {} else {id};
  }

  /** The loop over the rows of the corroboration query. */
  method CountCorroborations(reports: map<nat, Report>, rows: set<nat>)
      returns (independent: nat, anonymous: nat, corroborations: nat)
    requires rows <= reports.Keys
    ensures independent == |Accounts(reports, rows)| && anonymous == |Anonymous(reports, rows)|
            && corroborations == |rows|
  {
    var accounts: set<nat> := {};
    anonymous, corroborations := 0, 0;
    var seen := {};
    assert Counted(reports, {}, accounts, anonymous, corroborations);
    while seen != rows
      invariant seen <= rows
      invariant Counted(reports, seen, accounts, anonymous, corroborations)
      decreases rows - seen
    {
      assert rows == seen + (rows - seen);
      var id :| id in rows - seen;
      OneMoreReport(reports, seen, id, accounts, anonymous, corroborations);
      seen := seen + {id};
      corroborations := corroborations + 1;
      if reports[id].account.Some? {
        accounts := accounts + {reports[id].account.value};
      } else {
        anonymous := anonymous + 1;
      }
    }
    independent := |accounts|;
  }

  // ---------------------------------------------------------------- one run

  datatype Verdict = Verdict(score: int, corroborations: nat)

  function VerdictOn(w: World, reports: map<nat, Report>, r: PendingReport): Verdict {
    Verdict(VerificationScore(EvidenceFor(w, reports, r)), |Corroborators(w, reports, r)|)
  }

  /** One iteration of RunOnce: gather evidence from the rows as they are now, score it, record the outcome. */
  function Processed(w: World, db: Db, r: PendingReport, now: real): Db {
    var v := VerdictOn(w, db.reports, r);
    Recorded(db, r.id, v.score, v.corroborations, now)
  }

  function RunOver(w: World, db: Db, batch: seq<PendingReport>, now: real): Db
  {
    if batch == [] then db
    else
      var n := |batch| - 1;
      Processed(w, RunOver(w, db, batch[..n], now), batch[n], now)
  }

  method GatherEvidence(w: World, reports: map<nat, Report>, r: PendingReport)
      returns (e: Evidence, corroborations: nat)
    ensures e == EvidenceFor(w, reports, r) && corroborations == |Corroborators(w, reports, r)|
  {
    var independent, anonymous;
    independent, anonymous, corroborations := CountCorroborations(reports, Corroborators(w, reports, r));
    e := Evidence(independent, anonymous, r.id in w.withReadyPhoto, r.account.Some?,
                  |History(reports, r, Verified)|, |History(reports, r, Rejected)|);
  }

  /** The loop of RunOnce, when nothing else writes the tables meanwhile. */
  method RunOnce(tables: ReportTables, w: World, batch: seq<PendingReport>, now: real)
    modifies tables
    ensures tables.State() == RunOver(w, old(tables.State()), batch, now)
  {
    for i := 0 to |batch|
      invariant tables.State() == RunOver(w, old(tables.State()), batch[..i], now)
    {
      assert batch[..i + 1][..i] == batch[..i];
      var evidence, corroborations := GatherEvidence(w, tables.reports, batch[i]);
      var _ := tables.Record(batch[i].id, VerificationScore(evidence), corroborations, now);
    }
    assert batch[..|batch|] == batch;
  }

  /** A report loadPending may select at `now`. */
  ghost predicate Eligible(db: Db, id: nat, now: real) {
    Undecided(db, id) && db.reports[id].duplicateOf.None? && now - LOOKBACK < db.reports[id].createdAt
  }

  ghost function AllEligible(db: Db, now: real): set<nat> {
    set id | id in db.reports && Eligible(db, id, now)
  }

  ghost function Ids(batch: seq<PendingReport>): set<nat> {
    set i | 0 <= i < |batch| :: batch[i].id
  }

  ghost predicate Distinct(batch: seq<PendingReport>) {
    forall i, j :: 0 <= i < j < |batch| ==> batch[i].id != batch[j].id
  }

  /** batch lists eligible reports as they are in db, each once. */
  ghost predicate Lists(db: Db, batch: seq<PendingReport>) {
    && Distinct(batch)
    && forall i :: 0 <= i < |batch| ==>
         var r := batch[i];
         r.id in db.reports && r.account == db.reports[r.id].account && r.category == db.reports[r.id].category
  }

  /** The batch goes from new to old, and leaves out only what is no newer. */
  ghost predicate NewestFirst(db: Db, batch: seq<PendingReport>, now: real)
    requires Lists(db, batch)
  {
    && (forall i, j :: 0 <= i < j < |batch| ==>
          db.reports[batch[j].id].createdAt <= db.reports[batch[i].id].createdAt)
    && forall id, i :: id in AllEligible(db, now) && id !in Ids(batch) && 0 <= i < |batch| ==>
         db.reports[id].createdAt <= db.reports[batch[i].id].createdAt
  }

  /** A result of loadPending: the newest eligible reports, as many as fit the batch. */
  ghost predicate Loaded(db: Db, batch: seq<PendingReport>, now: real) {
    && Lists(db, batch) && Ids(batch) <= AllEligible(db, now)
    && (|batch| < BATCH ==> Ids(batch) == AllEligible(db, now))
    && |batch| <= BATCH && NewestFirst(db, batch, now)
  }

  // ---------------------------------------------------------------- recording touches nobody's evidence

  /** The same row up to what the verifier itself writes. */
  ghost predicate SameEvidenceRow(a: Report, b: Report) {
    || b == a.(score := b.score, corroborations := b.corroborations)
    || (&& a.status == Pending && a.moderatedBy.None?
        && b == a.(score := b.score, corroborations := b.corroborations, status := Verified,
                   moderatedBy := Some(AUTO), statusUpdatedAt := b.statusUpdatedAt))
  }

  ghost predicate SameEvidenceRows(a: map<nat, Report>, b: map<nat, Report>) {
    a.Keys == b.Keys && forall id :: id in a ==> SameEvidenceRow(a[id], b[id])
  }

  lemma SameCorroborators(w: World, a: map<nat, Report>, b: map<nat, Report>, r: PendingReport)
    requires SameEvidenceRows(a, b)
    ensures Corroborators(w, b, r) == Corroborators(w, a, r)
  {
  }

  lemma SameAccounts(a: map<nat, Report>, b: map<nat, Report>, ids: set<nat>)
    requires SameEvidenceRows(a, b)
    ensures Accounts(b, ids) == Accounts(a, ids) && Anonymous(b, ids) == Anonymous(a, ids)
  {
  }

  lemma SameHistory(a: map<nat, Report>, b: map<nat, Report>, r: PendingReport, status: Status)
    requires SameEvidenceRows(a, b)
    ensures History(b, r, status) == History(a, r, status)
  {
  }

  /**
   * Auto-verifying reports changes no report's evidence, its own included: not its corroborators, nor anyone's record.
   */
  lemma VerifyingLeavesEvidence(w: World, a: map<nat, Report>, b: map<nat, Report>, r: PendingReport)
    requires SameEvidenceRows(a, b)
    ensures Corroborators(w, b, r) == Corroborators(w, a, r)
    ensures VerdictOn(w, b, r) == VerdictOn(w, a, r)
  {
    SameCorroborators(w, a, b, r);
    SameAccounts(a, b, Corroborators(w, a, r));
    SameHistory(a, b, r, Verified);
    SameHistory(a, b, r, Rejected);
  }

  function JudgedRow(r: Report, v: Verdict, now: real): Report {
    if r.status != Pending || r.moderatedBy.Some? then r
    else
      var r' := r.(score := v.score, corroborations := v.corroborations);
      if v.score >= AUTO_VERIFY_SCORE
      then r'.(status := Verified, moderatedBy := Some(AUTO), statusUpdatedAt := now) else r'
  }

  function JudgedEvents(r: Report, events: seq<Event>, v: Verdict): seq<Event> {
    if r.status != Pending || r.moderatedBy.Some? || v.score < AUTO_VERIFY_SCORE then events
    else events + [Event(Pending, Verified, AUTO)]
  }

  /** The tables after each report with a verdict has been judged by it, on its own. */
  function AllJudged(db: Db, verdicts: map<nat, Verdict>, now: real): Db
    requires db.events.Keys == db.reports.Keys
  {
    Db(map id | id in db.reports ::
         if id in verdicts then JudgedRow(db.reports[id], verdicts[id], now) else db.reports[id],
       map id | id in db.reports ::
         if id in verdicts then JudgedEvents(db.reports[id], db.events[id], verdicts[id]) else db.events[id])
  }

  /** The verdicts by the evidence as it stands in these rows. */
  ghost function Verdicts(w: World, reports: map<nat, Report>, ids: set<nat>): map<nat, Verdict> {
    map id | id in ids && id in reports ::
        VerdictOn(w, reports, PendingReport(id, reports[id].account, reports[id].category))
  }

  lemma JudgingLeavesEvidenceRows(db: Db, verdicts: map<nat, Verdict>, now: real)
    requires db.events.Keys == db.reports.Keys
    ensures SameEvidenceRows(db.reports, AllJudged(db, verdicts, now).reports)
  {
  }

  lemma RecordOneMore(db: Db, verdicts: map<nat, Verdict>, id: nat, v: Verdict, now: real)
    requires db.events.Keys == db.reports.Keys && id in db.reports && id !in verdicts
    ensures Recorded(AllJudged(db, verdicts, now), id, v.score, v.corroborations, now)
              == AllJudged(db, verdicts[id := v], now)
  {
    var done := Recorded(AllJudged(db, verdicts, now), id, v.score, v.corroborations, now);
    var want := AllJudged(db, verdicts[id := v], now);
    assert done.reports == want.reports;
    assert done.events == want.events;
  }

  lemma ProcessOneMore(w: World, db: Db, ids: set<nat>, r: PendingReport, now: real)
    requires db.events.Keys == db.reports.Keys
    requires r.id in db.reports && r.id !in ids
    requires r.account == db.reports[r.id].account && r.category == db.reports[r.id].category
    ensures Processed(w, AllJudged(db, Verdicts(w, db.reports, ids), now), r, now)
         == AllJudged(db, Verdicts(w, db.reports, ids + {r.id}), now)
  {
    var verdicts := Verdicts(w, db.reports, ids);
    var so := AllJudged(db, verdicts, now);
    JudgingLeavesEvidenceRows(db, verdicts, now);
    VerifyingLeavesEvidence(w, db.reports, so.reports, r);
    VerdictsGrow(w, db.reports, ids, r);
    RecordOneMore(db, verdicts, r.id, VerdictOn(w, db.reports, r), now);
  }

  lemma VerdictsGrow(w: World, reports: map<nat, Report>, ids: set<nat>, r: PendingReport)
    requires r.id in reports && r.account == reports[r.id].account && r.category == reports[r.id].category
    ensures Verdicts(w, reports, ids + {r.id}) == Verdicts(w, reports, ids)[r.id := VerdictOn(w, reports, r)]
  {
    assert r == PendingReport(r.id, reports[r.id].account, reports[r.id].category);
  }

  lemma LastAndRest(batch: seq<PendingReport>)
    requires batch != [] && Distinct(batch)
    ensures var (rest, last) := (batch[..|batch| - 1], batch[|batch| - 1]);
            Distinct(rest) && last.id !in Ids(rest) && Ids(batch) == Ids(rest) + {last.id}
  {
    var rest := batch[..|batch| - 1];
    forall i | 0 <= i < |batch|
      ensures batch[i].id in Ids(rest) + {batch[|batch| - 1].id}
    {
      if i < |rest| {
        assert rest[i] == batch[i];
      }
    }
    forall i | 0 <= i < |rest|
      ensures rest[i].id in Ids(batch)
    {
      assert rest[i] == batch[i];
    }
  }

  lemma NothingJudged(db: Db, now: real)
    requires db.events.Keys == db.reports.Keys
    ensures AllJudged(db, map[], now) == db
  {
    assert AllJudged(db, map[], now).reports == db.reports && AllJudged(db, map[], now).events == db.events;
  }

  /** A run judges every report of its batch by the evidence from before the run. */
  lemma {:induction false} RunIsOneJudgement(w: World, db: Db, batch: seq<PendingReport>, now: real)
    requires db.events.Keys == db.reports.Keys && Lists(db, batch)
    ensures RunOver(w, db, batch, now) == AllJudged(db, Verdicts(w, db.reports, Ids(batch)), now)
  {
    if batch == [] {
      NothingJudged(db, now);
      assert Verdicts(w, db.reports, Ids(batch)) == map[];
    } else {
      var n := |batch| - 1;
      LastAndRest(batch);
      RunIsOneJudgement(w, db, batch[..n], now);
      ProcessOneMore(w, db, Ids(batch[..n]), batch[n], now);
    }
  }

  /** So the order in which a run goes through its reports makes no difference. */
  lemma OrderDoesNotMatter(w: World, db: Db, batch: seq<PendingReport>, other: seq<PendingReport>, now: real)
    requires db.events.Keys == db.reports.Keys
    requires Lists(db, batch) && Lists(db, other) && Ids(batch) == Ids(other)
    ensures RunOver(w, db, batch, now) == RunOver(w, db, other, now)
  {
    RunIsOneJudgement(w, db, batch, now);
    RunIsOneJudgement(w, db, other, now);
  }

  // ---------------------------------------------------------------- a second run finds nothing to do

  lemma {:induction false} BatchSize(batch: seq<PendingReport>)
    requires Distinct(batch)
    ensures |Ids(batch)| == |batch|
  {
    if batch != [] {
      LastAndRest(batch);
      BatchSize(batch[..|batch| - 1]);
    }
  }

  /** When everything eligible fits one batch, the batch is everything eligible. */
  lemma WholeBatchLoaded(db: Db, batch: seq<PendingReport>, now: real)
    requires Loaded(db, batch, now) && |AllEligible(db, now)| <= BATCH
    ensures Ids(batch) == AllEligible(db, now)
  {
    BatchSize(batch);
    if |batch| == BATCH {
      var (some, all) := (Ids(batch), AllEligible(db, now));
      assert all == some + (all - some);
    }
  }

  /**
   * If at most one batch of reports is eligible, a second run with no other change in between alters nothing
   * at all, however much later it comes and in whatever order either run goes.
   */
  lemma SecondRunChangesNothing(w: World, db: Db, batch: seq<PendingReport>, now: real, again: seq<PendingReport>,
      later: real)
    requires db.events.Keys == db.reports.Keys && now <= later
    requires |AllEligible(db, now)| <= BATCH
    requires Loaded(db, batch, now) && Loaded(RunOver(w, db, batch, now), again, later)
    ensures RunOver(w, RunOver(w, db, batch, now), again, later) == RunOver(w, db, batch, now)
  {
    WholeBatchLoaded(db, batch, now);
    RunIsOneJudgement(w, db, batch, now);
    var verdicts := Verdicts(w, db.reports, Ids(batch));
    var done := AllJudged(db, verdicts, now);
    RunIsOneJudgement(w, done, again, later);
    SameVerdicts(w, db, verdicts, now, again, later);
    RejudgingChangesNothing(db, verdicts, now, Verdicts(w, done.reports, Ids(again)), later);
  }

  /** What is still eligible after the run was judged by it, and would be judged the same again. */
  lemma SameVerdicts(w: World, db: Db, verdicts: map<nat, Verdict>, now: real, again: seq<PendingReport>, later: real)
    requires db.events.Keys == db.reports.Keys && now <= later
    requires verdicts == Verdicts(w, db.reports, AllEligible(db, now))
    requires Loaded(AllJudged(db, verdicts, now), again, later)
    ensures var second := Verdicts(w, AllJudged(db, verdicts, now).reports, Ids(again));
            forall id :: id in second ==>
              id in verdicts && second[id] == verdicts[id] && AllJudged(db, verdicts, now).reports[id].status == Pending
  {
    var done := AllJudged(db, verdicts, now);
    JudgingLeavesEvidenceRows(db, verdicts, now);
    forall id | id in Ids(again)
      ensures id in verdicts && done.reports[id].status == Pending
      ensures VerdictOn(w, done.reports, PendingReport(id, done.reports[id].account, done.reports[id].category))
                == verdicts[id]
    {
      assert Eligible(done, id, later);
      assert Eligible(db, id, now);
      VerifyingLeavesEvidence(w, db.reports, done.reports,
          PendingReport(id, db.reports[id].account, db.reports[id].category));
    }
  }

  lemma RejudgingChangesNothing(db: Db, verdicts: map<nat, Verdict>, now: real, again: map<nat, Verdict>, later: real)
    requires db.events.Keys == db.reports.Keys
    requires forall id :: id in again ==>
               && id in verdicts && again[id] == verdicts[id]
               && id in db.reports && AllJudged(db, verdicts, now).reports[id].status == Pending
    ensures AllJudged(AllJudged(db, verdicts, now), again, later) == AllJudged(db, verdicts, now)
  {
    var done := AllJudged(db, verdicts, now);
    assert AllJudged(done, again, later).reports == done.reports;
    assert AllJudged(done, again, later).events == done.events;
  }
}
