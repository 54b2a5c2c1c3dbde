/**
 * The curation rules: duplicate detection and the verification score (internal/services/curation.go). The words of a
 * note, the distance between two places and the age of a candidate are inputs.
 */
module Curation {
  import opened Prelude

  const AUTO: string := "auto"
  const AUTO_VERIFY_SCORE: int := 50

  // ---------------------------------------------------------------- categories

  const GROUPS: map<string, string> := map[
    "flooding" := "water", "water_rising" := "water",
    "road_blocked" := "road_blocked", "drainage_issue" := "drainage_issue"]

  function CategoryGroup(category: string): string {
    if category in GROUPS then GROUPS[category] else category
  }

  function CategoriesForGroup(category: string): set<string> {
    var found := set c | c in GROUPS && GROUPS[c] == CategoryGroup(category);
    if found == {} then {category} else found
  }

  /** For the categories a report may have, being listed for a group is the same as being in it. */
  lemma GroupListsItsMembers(a: string, b: string)
    requires a in GROUPS && b in GROUPS
    ensures b in CategoriesForGroup(a) <==> CategoryGroup(b) == CategoryGroup(a)
    ensures a in CategoriesForGroup(a)
  {
    assert a in (set c | c in GROUPS && GROUPS[c] == CategoryGroup(a));
  }

  // ---------------------------------------------------------------- note similarity

  /** Jaccard similarity of two notes' word sets; notes under three words are similar only when equal. */
  function Similarity(a: set<string>, b: set<string>): real {
    if a == {} || b == {} then 0.0
    else if |a| < 3 || |b| < 3 then (if a == b then 1.0 else 0.0)
    else
      SubsetSize(a, a + b);
      |a * b| as real / |a + b| as real
  }

  lemma UnionSize(a: set<string>, b: set<string>)
    ensures |a + b| == |a| + |b| - |a * b|
  {
    assert a + b == a + (b - a) && b == (b - a) + (a * b);
  }

  lemma SimilarityIsSymmetric(a: set<string>, b: set<string>)
    ensures Similarity(a, b) == Similarity(b, a)
  {
    assert a + b == b + a && a * b == b * a;
  }

  /** Similarity lies in 0..1 and reaches 1 exactly on notes made of the same words. */
  lemma SimilarityIsOneIffSameWords(a: set<string>, b: set<string>)
    requires a != {} && b != {}
    ensures 0.0 <= Similarity(a, b) <= 1.0
    ensures Similarity(a, b) == 1.0 <==> a == b
  {
    SubsetSize(a * b, a + b);
    SubsetSize(a, a + b);
    SameIffAllShared(a, b);
    RatioOf(|a * b| as real, |a + b| as real, 0.0);
    RatioOf(|a * b| as real, |a + b| as real, 1.0);
  }

  lemma SameSize(a: set<string>, b: set<string>)
    requires a <= b && |a| == |b|
    ensures a == b
  {
    assert b == a + (b - a);
  }

  method CountShared(a: set<string>, b: set<string>) returns (shared: nat)
    ensures shared == |a * b|
  {
    shared := 0;
    var seen: set<string> := {};
    while seen != a
      invariant seen <= a && shared == |seen * b|
      decreases a - seen
    {
      assert a == seen + (a - seen);
      var w :| w in a - seen;
      if w in b {
        assert (seen + {w}) * b == seen * b + {w};
        shared := shared + 1;
      } else {
        assert (seen + {w}) * b == seen * b;
      }
      seen := seen + {w};
    }
  }

  method NoteSimilarity(a: set<string>, b: set<string>) returns (r: real)
    ensures r == Similarity(a, b)
  {
    if |a| == 0 || |b| == 0 {
      return 0.0;
    }
    var shared := CountShared(a, b);
    var union := |a| + |b| - shared;
    UnionSize(a, b);
    SubsetSize(a, a + b);
    if |a| < 3 || |b| < 3 {
      SameIffAllShared(a, b);
      return if shared == union then 1.0 else 0.0;
    }
    return shared as real / union as real;
  }

  lemma SameIffAllShared(a: set<string>, b: set<string>)
    ensures |a * b| == |a + b| <==> a == b
  {
    if |a * b| == |a + b| {
      SameSize(a * b, a + b);
    }
    if a == b {
      assert a * b == a && a + b == a;
    }
  }

  // ---------------------------------------------------------------- duplicates

  /** An earlier report near a new one; age is how much older it is, distance and clock abstracted to numbers. */
  datatype Candidate = Candidate(id: nat, duplicateOf: Option<nat>, account: Option<nat>, category: string,
                                 words: set<string>, distance: real, age: real)

  datatype Draft = Draft(account: Option<nat>, category: string, words: set<string>)

  predicate Duplicates(r: Draft, c: Candidate) {
    var age := if c.age < 0.0 then -c.age else c.age;
    var sameReporter := r.account.Some? && r.account == c.account
                        && CategoryGroup(r.category) == CategoryGroup(c.category)
                        && c.distance <= 500.0 && age <= 10800.0;
    var copiedText := c.distance <= 250.0 && age <= 86400.0 && Similarity(r.words, c.words) >= 0.8;
    sameReporter || copiedText
  }

  function Original(c: Candidate): nat {
    if c.duplicateOf.Some? then c.duplicateOf.value else c.id
  }

  /** i is the earliest candidate that r duplicates. */
  ghost predicate FirstMatch(r: Draft, candidates: seq<Candidate>, i: nat) {
    i < |candidates| && Duplicates(r, candidates[i]) && forall j :: 0 <= j < i ==> !Duplicates(r, candidates[j])
  }

  /** The outcome of duplicate detection: the earliest match wins, and a duplicate stands for its original. */
  ghost predicate Finds(r: Draft, candidates: seq<Candidate>, original: Option<nat>) {
    && (original.None? <==> forall i :: 0 <= i < |candidates| ==> !Duplicates(r, candidates[i]))
    && (original.Some? ==> exists i: nat :: FirstMatch(r, candidates, i) && original.value == Original(candidates[i]))
  }

  method FindDuplicate(r: Draft, candidates: seq<Candidate>) returns (original: Option<nat>)
    ensures Finds(r, candidates, original)
  {
    for i := 0 to |candidates|
      invariant forall j :: 0 <= j < i ==> !Duplicates(r, candidates[j])
    {
      var c := candidates[i];
      var age := if c.age < 0.0 then -c.age else c.age;
      var similarity := NoteSimilarity(r.words, c.words);
      var sameReporter := r.account.Some? && r.account == c.account
                          && CategoryGroup(r.category) == CategoryGroup(c.category)
                          && c.distance <= 500.0 && age <= 10800.0;
      var copiedText := c.distance <= 250.0 && age <= 86400.0 && similarity >= 0.8;
      if sameReporter || copiedText {
        assert FirstMatch(r, candidates, i);
        if c.duplicateOf.Some? {
          return c.duplicateOf;
        }
        return Some(c.id);
      }
    }
    return None;
  }

  // ---------------------------------------------------------------- the verification score

  datatype Evidence = Evidence(independentReporters: nat, anonymousCorroborations: nat, hasReadyPhoto: bool,
                               signedIn: bool, reporterVerified: nat, reporterRejected: nat)

  function VerificationScore(e: Evidence): int {
    var corroboration := 25 * e.independentReporters + if e.anonymousCorroborations > 0 then 15 else 0;
    var score := MinInt(corroboration, 50) + (if e.hasReadyPhoto then 20 else 0) + (if e.signedIn then 10 else 0)
                 + MinInt(10 * e.reporterVerified, 20) - 25 * e.reporterRejected;
    MaxInt(0, MinInt(score, 100))
  }

  predicate Verifies(e: Evidence) {
    VerificationScore(e) >= AUTO_VERIFY_SCORE
  }

  method ScoreEvidence(e: Evidence) returns (score: int)
    ensures score == VerificationScore(e)
  {
    var corroboration: int := 25 * e.independentReporters;
    if e.anonymousCorroborations > 0 {
      corroboration := corroboration + 15;
    }
    score := MinInt(corroboration, 50);
    if e.hasReadyPhoto {
      score := score + 20;
    }
    if e.signedIn {
      score := score + 10;
    }
    score := score + MinInt(10 * e.reporterVerified, 20);
    score := score - 25 * e.reporterRejected;
    score := MaxInt(0, MinInt(score, 100));
  }

  /** More evidence for a report, and no more rejections of its reporter. */
  ghost predicate AtLeastAsGood(a: Evidence, b: Evidence) {
    && a.independentReporters <= b.independentReporters && a.anonymousCorroborations <= b.anonymousCorroborations
    && (a.hasReadyPhoto ==> b.hasReadyPhoto) && (a.signedIn ==> b.signedIn)
    && a.reporterVerified <= b.reporterVerified && a.reporterRejected >= b.reporterRejected
  }

  /** The score stays within 0..100 and never falls as evidence grows or rejections vanish. */
  lemma ScoreIsMonotone(a: Evidence, b: Evidence)
    requires AtLeastAsGood(a, b)
    ensures 0 <= VerificationScore(a) <= VerificationScore(b) <= 100
  {
  }

  /**
   * Exactly what it takes when the reporter has no moderated history: two signed-in corroborators, or one
   * together with two of these three: an anonymous corroboration, a photo, a signed-in reporter.
   * Without a signed-in corroborator no number of anonymous reports is enough.
   */
  lemma VerifiesWithoutHistoryIff(e: Evidence)
    requires e.reporterVerified == 0 && e.reporterRejected == 0
    ensures Verifies(e) <==>
            || e.independentReporters >= 2
            || (e.independentReporters == 1 && (
                  || (e.hasReadyPhoto && e.signedIn)
                  || (e.hasReadyPhoto && e.anonymousCorroborations > 0)
                  || (e.signedIn && e.anonymousCorroborations > 0)))
  {
  }

  /** A reporter with two verified reports and no rejected one needs only a photo; one rejection undoes even that. */
  lemma GoodRecordWithPhotoVerifies(e: Evidence)
    requires e.signedIn && e.hasReadyPhoto && e.independentReporters == 0 && e.anonymousCorroborations == 0
    ensures Verifies(e) <==> e.reporterVerified >= 2 && e.reporterRejected == 0
  {
  }

  /**
   * A reporter rejected twice needs every other point there is to be had; one rejected three times is never verified.
   */
  lemma TwoRejectionsNeedEverything(e: Evidence)
    requires e.reporterRejected >= 2
    ensures Verifies(e) <==>
            && e.reporterRejected == 2 && e.reporterVerified >= 2 && e.hasReadyPhoto && e.signedIn
            && e.independentReporters >= 2
  {
  }
}
