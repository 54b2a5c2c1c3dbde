/**
 * The documented rules of duplicate detection and scoring, rule by rule (internal/services/curation.go): what counts as
 * one kind of report, how similar two notes are, which reports are duplicates, and how many points each piece of
 * evidence is worth. Between them they leave no freedom.
 */
module CurationRules {
  import opened Prelude
  import opened Curation

  // ---------------------------------------------------------------- kinds

  const KNOWN: set<string> := {"flooding", "water_rising", "road_blocked", "drainage_issue"}

  /** Of the categories a report may have, only flooding and rising water count as the same kind. */
  lemma SameKindIff(a: string, b: string)
    requires a in KNOWN && b in KNOWN
    ensures CategoryGroup(a) == CategoryGroup(b) <==> a == b || {a, b} == {"flooding", "water_rising"}
    ensures b in CategoriesForGroup(a) <==> a == b || {a, b} == {"flooding", "water_rising"}
  {
    GroupListsItsMembers(a, b);
  }

  // ---------------------------------------------------------------- similar notes

  /** Notes of three words or more are as similar as the share of their words they have in common. */
  lemma SimilarityIsTheShare(a: set<string>, b: set<string>)
    requires |a| >= 3 && |b| >= 3
    ensures Similarity(a, b) * |a + b| as real == |a * b| as real
  {
    SubsetSize(a, a + b);
  }

  /** Shorter ones are similar only if equal, and notes without words never are. */
  lemma ShortNotesAreEqualOrNot(a: set<string>, b: set<string>)
    requires |a| < 3 || |b| < 3
    ensures Similarity(a, b) == if a == b && a != {} then 1.0 else 0.0
  {
    SameIffAllShared(a, b);
  }

  // ---------------------------------------------------------------- what counts as a duplicate

  /** How long before or after the new report the candidate was filed. */
  function Apart(c: Candidate): real {
    Max(c.age, -c.age)
  }

  /** The same account reports the same kind of problem again. */
  predicate Repeats(r: Draft, c: Candidate) {
    r.account.Some? && c.account == r.account && CategoryGroup(c.category) == CategoryGroup(r.category)
  }

  /** A repetition by the same account within 500 m and three hours is a duplicate. */
  lemma RepetitionIsDuplicate(r: Draft, c: Candidate)
    requires Repeats(r, c) && c.distance <= 500.0 && Apart(c) <= 3.0 * 3600.0
    ensures Duplicates(r, c)
  {
  }

  /** So is anyone's text that is four fifths the same, within 250 m and a day. */
  lemma CopyIsDuplicate(r: Draft, c: Candidate)
    requires Similarity(r.words, c.words) >= 4.0 / 5.0 && c.distance <= 250.0 && Apart(c) <= 24.0 * 3600.0
    ensures Duplicates(r, c)
  {
  }

  /** Nothing else is: not farther or longer apart, nor without the same account or the same text. */
  lemma NothingElseIsDuplicate(r: Draft, c: Candidate)
    requires !(Repeats(r, c) && c.distance <= 500.0 && Apart(c) <= 3.0 * 3600.0)
    requires !(Similarity(r.words, c.words) >= 4.0 / 5.0 && c.distance <= 250.0 && Apart(c) <= 24.0 * 3600.0)
    ensures !Duplicates(r, c)
  {
  }

  /** Of several matches the earliest counts, and one that is itself a duplicate stands for its original. */
  lemma EarliestIsFound(r: Draft, candidates: seq<Candidate>, original: Option<nat>, i: nat)
    requires Finds(r, candidates, original) && i < |candidates| && Duplicates(r, candidates[i])
    requires forall j :: 0 <= j < i ==> !Duplicates(r, candidates[j])
    ensures original == if candidates[i].duplicateOf.Some? then candidates[i].duplicateOf else Some(candidates[i].id)
  {
    var k: nat :| FirstMatch(r, candidates, k) && original.value == Original(candidates[k]);
    assert k == i;
  }

  lemma NothingIsFound(r: Draft, candidates: seq<Candidate>, original: Option<nat>)
    requires Finds(r, candidates, original) && forall i :: 0 <= i < |candidates| ==> !Duplicates(r, candidates[i])
    ensures original.None?
  {
  }

  // ---------------------------------------------------------------- what each piece of evidence is worth

  const NO_EVIDENCE: Evidence := Evidence(0, 0, false, false, 0, 0)

  lemma NoEvidenceScoresNothing()
    ensures VerificationScore(NO_EVIDENCE) == 0
  {
  }

  /** A photo is worth 20 points, a signed-in reporter 10. */
  lemma PhotoAndSignInCount(e: Evidence)
    requires e.reporterRejected == 0
    ensures !e.hasReadyPhoto ==>
              VerificationScore(e.(hasReadyPhoto := true)) == VerificationScore(e) + 20
    ensures !e.signedIn ==>
              VerificationScore(e.(signedIn := true)) == VerificationScore(e) + 10
  {
  }

  /** Each moderator-verified report of the reporter's is worth 10, twice at most. */
  lemma RecordCounts(e: Evidence)
    requires e.reporterRejected == 0
    ensures VerificationScore(e.(reporterVerified := e.reporterVerified + 1))
         == VerificationScore(e) + if e.reporterVerified < 2 then 10 else 0
  {
  }

  /**
   * Each independent reporter is worth 25 and anonymous corroboration 15 however much there is, together 50 at most.
   */
  lemma CorroborationCounts(e: Evidence)
    requires e.reporterRejected == 0
    ensures VerificationScore(e.(independentReporters := e.independentReporters + 1)) - VerificationScore(e)
         == if e.independentReporters >= 2 then 0
            else if e.independentReporters == 1 && e.anonymousCorroborations > 0 then 10 else 25
    ensures VerificationScore(e.(anonymousCorroborations := e.anonymousCorroborations + 1)) - VerificationScore(e)
         == if e.anonymousCorroborations > 0 || e.independentReporters >= 2 then 0 else 15
  {
  }

  /** Each rejected report costs 25, as long as there is so much to lose. */
  lemma RejectionCosts(e: Evidence)
    ensures VerificationScore(e.(reporterRejected := e.reporterRejected + 1)) == MaxInt(0, VerificationScore(e) - 25)
  {
  }
}
