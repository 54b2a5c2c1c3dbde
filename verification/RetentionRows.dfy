/** Exactly what the retention cleaner removes (internal/workers/retention.go): reports, photo rows and objects. */
module RetentionRows {
  import opened Prelude
  import opened Reports
  import opened Retention

  // ---------------------------------------------------------------- which objects the query finds

  /** A photo row names its upload, and the two processed copies once it is ready. */
  lemma NamedIff(id: nat, p: Photo, k: Key)
    ensures k in KeysOf(id, p) <==> k.photo == id && (k.variant == Quarantine || p.ready)
  {
  }

  /** An object is filed under its own report if that has expired, and else under the original it duplicates. */
  lemma FiledIff(d: Data, expired: set<nat>, g: nat, k: Key)
    ensures FiledUnder(d, expired, g, k) <==>
            && k.photo in d.photos && (k.variant == Quarantine || d.photos[k.photo].ready)
            && g in expired && d.photos[k.photo].report in d.reports
            && (|| d.photos[k.photo].report == g
                || (&& d.photos[k.photo].report !in expired
                    && d.reports[d.photos[k.photo].report].duplicateOf == Some(g)))
  {
    if k.photo in d.photos {
      NamedIff(k.photo, d.photos[k.photo], k);
    }
  }

  // ---------------------------------------------------------------- which objects go

  ghost predicate NoneRefused(keys: seq<Key>, failing: set<Key>, last: nat)
    requires last < |keys|
  {
    forall j :: 0 <= j <= last ==> keys[j] !in failing
  }

  /** The object comes before any that is refused. */
  ghost predicate BeforeRefusal(keys: seq<Key>, failing: set<Key>, k: Key) {
    exists i: nat :: i < |keys| && keys[i] == k && NoneRefused(keys, failing, i)
  }

  /** Objects are deleted in order, up to the first that is refused. */
  lemma {:induction false} DeletedFromIff(keys: seq<Key>, failing: set<Key>, k: Key)
    ensures k in DeletedFrom(keys, failing) <==> BeforeRefusal(keys, failing, k)
  {
    if keys != [] && keys[0] !in failing {
      DeletedFromIff(keys[1..], failing, k);
      TailBeforeRefusal(keys, failing, k);
    }
  }

  lemma NoneRefusedInTail(keys: seq<Key>, failing: set<Key>, last: nat)
    requires keys != [] && keys[0] !in failing && last < |keys| - 1
    ensures NoneRefused(keys[1..], failing, last) <==> NoneRefused(keys, failing, last + 1)
  {
    assert forall j :: 0 <= j <= last ==> keys[1..][j] == keys[j + 1];
    assert forall j :: 1 <= j <= last + 1 ==> keys[j] == keys[1..][j - 1];
  }

  lemma TailBeforeRefusal(keys: seq<Key>, failing: set<Key>, k: Key)
    requires keys != [] && keys[0] !in failing
    ensures BeforeRefusal(keys, failing, k) <==> k == keys[0] || BeforeRefusal(keys[1..], failing, k)
  {
    if i: nat :| i < |keys[1..]| && keys[1..][i] == k && NoneRefused(keys[1..], failing, i) {
      var next := i + 1;
      NoneRefusedInTail(keys, failing, i);
      assert keys[next] == k && NoneRefused(keys, failing, next);
    }
    if i: nat :| i < |keys| && keys[i] == k && NoneRefused(keys, failing, i) && 0 < i {
      var before := i - 1;
      NoneRefusedInTail(keys, failing, before);
      assert keys[1..][before] == k && NoneRefused(keys[1..], failing, before);
    }
    if k == keys[0] {
      assert NoneRefused(keys, failing, 0);
    }
  }

  /** An undisturbed batch deletes just the objects that come before any refusal in their group. */
  lemma ObjectsRemainIff(b: Batch, failing: set<Key>, k: Key)
    requires b.Valid() && b.first == [] && b.second == [] && k in b.at.store
    ensures k !in b.Result(failing).store <==> exists g :: g in b.keys && BeforeRefusal(b.keys[g], failing, k)
  {
    forall g | g in b.keys
      ensures k in DeletedFrom(b.keys[g], failing) <==> BeforeRefusal(b.keys[g], failing, k)
    {
      DeletedFromIff(b.keys[g], failing, k);
    }
    if k in DeletedObjects(b.keys, b.keys.Keys, failing) {
      var g :| g in b.keys && k in DeletedFrom(b.keys[g], failing);
    }
  }

  // ---------------------------------------------------------------- which reports go

  /** The report has expired, and none of the objects filed under it is refused. */
  ghost predicate Cleared(b: Batch, failing: set<Key>, e: nat) {
    e in b.expired && forall k :: FiledUnder(b.at, b.expired, e, k) ==> k !in failing
  }

  lemma RemovableIff(b: Batch, failing: set<Key>, e: nat)
    requires b.Valid()
    ensures e in Removable(b.expired, b.keys, failing) <==> Cleared(b, failing, e)
  {
    if e in b.expired {
      forall k
        ensures FiledUnder(b.at, b.expired, e, k) <==> e in b.keys && k in b.keys[e]
      {
        if FiledUnder(b.at, b.expired, e, k) {
          assert Files(b.keys, e, k.photo, b.at.photos[k.photo]);
        }
      }
    }
  }

  /**
   * A batch removes exactly the reports that have expired, or duplicate one that has, with no object filed under
   * that expired report refused. Every other report stays as it is.
   */
  lemma ReportGoesIff(b: Batch, failing: set<Key>, id: nat)
    requires b.Valid()
    ensures var (before, after) := (b.Rows().reports, b.Result(failing).reports);
            && (id in after ==> id in before && after[id] == before[id])
            && (id in before ==>
                  (id !in after <==>
                     || Cleared(b, failing, id)
                     || (before[id].duplicateOf.Some? && Cleared(b, failing, before[id].duplicateOf.value))))
  {
    RowsBeforeDelete(b, failing);
    CascadeIsOneLevel(b.Rows().reports, Removable(b.expired, b.keys, failing));
    RemovableIff(b, failing, id);
    if id in b.Rows().reports && b.Rows().reports[id].duplicateOf.Some? {
      RemovableIff(b, failing, b.Rows().reports[id].duplicateOf.value);
    }
  }

  /** When nothing is refused, the expired reports go with their direct duplicates, and no other report does. */
  lemma AllExpiredGo(b: Batch, id: nat)
    requires b.Valid() && id in b.Rows().reports
    ensures id !in b.Result({}).reports <==>
            || id in b.expired
            || (b.Rows().reports[id].duplicateOf.Some? && b.Rows().reports[id].duplicateOf.value in b.expired)
  {
    ReportGoesIff(b, {}, id);
  }

  /** A photo's row goes exactly with its report. */
  lemma PhotoRowGoesIff(b: Batch, failing: set<Key>, id: nat)
    requires b.Valid()
    ensures var (before, after) := (b.Rows(), b.Result(failing));
            && (id in after.photos ==> id in before.photos && after.photos[id] == before.photos[id])
            && (id in before.photos ==> (id !in after.photos <==> before.photos[id].report !in after.reports))
  {
    RowsBeforeDelete(b, failing);
  }

  // ---------------------------------------------------------------- which photos go on their own

  /** Of the chosen photos exactly those go of whose named objects none is refused; no report does. */
  lemma ChosenPhotoGoesIff(b: PhotoBatch, failing: set<Key>, id: nat)
    requires b.Valid()
    ensures b.Result(failing).reports == b.Rows().reports
    ensures var (before, after) := (b.Rows().photos, b.Result(failing).photos);
            && (id in after ==> id in before && after[id] == before[id])
            && (id in before ==>
                  (id !in after <==>
                     id in b.chosen && forall k :: k in KeysOf(id, b.at.photos[id]) ==> k !in failing))
  {
    StoreDoesNotMatter(AfterAll(b.at, b.first), WithoutObjects(AfterAll(b.at, b.first), b.Keys(), failing), b.second);
  }
}
