/** One batch of the retention cleaner (internal/workers/retention.go). */
module Retention {
  // The batch is three steps over reports, photos and stored objects: it queries the object keys, deletes the objects,
  // then deletes the rows. Report creation, moderation, uploads and the photo worker go on between them.

  import opened Prelude
  import opened Reports

  datatype Variant = Quarantine | Large | Thumb

  /** An object's key is made from its photo's id, so it is known before the row names it. */
  datatype Key = Key(photo: nat, variant: Variant)

  /** large_key and thumb_key are set together, when the photo is marked ready. */
  datatype Photo = Photo(report: nat, ready: bool)

  /** The keys a photo row names. */
  function KeysOf(id: nat, p: Photo): seq<Key> {
    [Key(id, Quarantine)] + if p.ready then [Key(id, Large), Key(id, Thumb)] else []
  }

  datatype Data = Data(reports: map<nat, Report>, photos: map<nat, Photo>, store: set<Key>)

  // ---------------------------------------------------------------- the first step: which objects to delete

  /** The group a photo's keys are filed under: its own report if that expired, else the expired original. */
  function GroupOf(reports: map<nat, Report>, expired: set<nat>, p: Photo): Option<nat> {
    if p.report !in reports then None
    else if p.report in expired then Some(p.report)
    else
      var o := reports[p.report].duplicateOf;
      if o.Some? && o.value in expired then o else None
  }

  /** keys is the result of photoKeys: each group's photos' keys, in whatever order the rows came. */
  ghost predicate Grouped(d: Data, expired: set<nat>, keys: map<nat, seq<Key>>) {
    && (forall id :: id in d.photos && GroupOf(d.reports, expired, d.photos[id]).Some? ==>
          Files(keys, GroupOf(d.reports, expired, d.photos[id]).value, id, d.photos[id]))
    && (forall g, k :: g in keys && k in keys[g] ==> FiledUnder(d, expired, g, k))
  }

  ghost predicate Files(keys: map<nat, seq<Key>>, g: nat, id: nat, p: Photo) {
    g in keys && forall k :: k in KeysOf(id, p) ==> k in keys[g]
  }

  ghost predicate FiledUnder(d: Data, expired: set<nat>, g: nat, k: Key) {
    && k.photo in d.photos && k in KeysOf(k.photo, d.photos[k.photo])
    && GroupOf(d.reports, expired, d.photos[k.photo]) == Some(g)
  }

  /** The query returns k, under one group or another. */
  ghost predicate Queried(d: Data, expired: set<nat>, k: Key) {
    && k.photo in d.photos && k in KeysOf(k.photo, d.photos[k.photo])
    && GroupOf(d.reports, expired, d.photos[k.photo]).Some?
  }

  // ---------------------------------------------------------------- the second step: the objects

  /** The objects deleteObjects removes: it stops at the first key whose deletion fails. */
  function DeletedFrom(keys: seq<Key>, failing: set<Key>): (r: set<Key>)
    ensures forall k :: k in r ==> k in keys && k !in failing
    ensures Clears(keys, failing) ==> forall k :: k in keys ==> k in r
  {
    if keys == [] || keys[0] in failing then {} else {keys[0]} + DeletedFrom(keys[1..], failing)
  }

  predicate Clears(keys: seq<Key>, failing: set<Key>) {
    forall k :: k in keys ==> k !in failing
  }

  function Removable(expired: set<nat>, keys: map<nat, seq<Key>>, failing: set<Key>): set<nat> {
    set e | e in expired && (e in keys ==> Clears(keys[e], failing))
  }

  function DeletedObjects(keys: map<nat, seq<Key>>, groups: set<nat>, failing: set<Key>): set<Key> {
    set g, k | g in groups && g in keys && k in DeletedFrom(keys[g], failing) :: k
  }

  function WithoutObjects(d: Data, keys: map<nat, seq<Key>>, failing: set<Key>): Data {
    d.(store := d.store - DeletedObjects(keys, keys.Keys, failing))
  }

  // ---------------------------------------------------------------- the third step: the rows

  /** Deleting reports cascades to their duplicates, and to the photos of all of them. */
  function WithoutReports(d: Data, remove: set<nat>): Data {
    var gone := Cascade(d.reports, remove);
    Data(d.reports - gone, map id | id in d.photos && d.photos[id].report !in gone :: d.photos[id], d.store)
  }

  // ---------------------------------------------------------------- what goes on meanwhile

  datatype Other =
    | AddReport(id: nat, row: Report)
    | ChangeReport(id: nat, row: Report)
    | AddSlot(photo: nat, report: nat)
    | MarkReady(photo: nat)
    | Put(key: Key)
    | Drop(key: Key)

  /**
   * Duplicate links are set when a report is created and only ever cleared; uploads and workers write what they like.
   */
  ghost predicate Enabled(d: Data, e: Other) {
    match e
    case AddReport(id, row) =>
      id !in d.reports && (row.duplicateOf.Some? ==> IsOriginal(d.reports, row.duplicateOf.value))
    case ChangeReport(id, row) =>
      id in d.reports && (row.duplicateOf.Some? ==> row.duplicateOf == d.reports[id].duplicateOf)
    case AddSlot(photo, report) => photo !in d.photos && report in d.reports
    case _ => true
  }

  function After(d: Data, e: Other): Data {
    match e
    case AddReport(id, row) => d.(reports := d.reports[id := row])
    case ChangeReport(id, row) => d.(reports := d.reports[id := row])
    case AddSlot(photo, report) => d.(photos := d.photos[photo := Photo(report, false)])
    case MarkReady(photo) =>
      if photo in d.photos then d.(photos := d.photos[photo := d.photos[photo].(ready := true)]) else d
    case Put(key) => d.(store := d.store + {key})
    case Drop(key) => d.(store := d.store - {key})
  }

  function AfterAll(d: Data, es: seq<Other>): Data {
    if es == [] then d else After(AfterAll(d, es[..|es| - 1]), es[|es| - 1])
  }

  ghost predicate Possible(d: Data, es: seq<Other>) {
    forall i :: 0 <= i < |es| ==> Enabled(AfterAll(d, es[..i]), es[i])
  }

  /** Whether k is stored after these steps, given whether it was before. */
  function Left(es: seq<Other>, k: Key, before: bool): bool {
    if es == [] then before
    else
      var e := es[|es| - 1];
      if e == Put(k) then true else if e == Drop(k) then false else Left(es[..|es| - 1], k, before)
  }

  /** One batch: query, `first`, delete objects, `second`, delete rows. */
  datatype Batch = Batch(at: Data, expired: set<nat>, keys: map<nat, seq<Key>>, first: seq<Other>, second: seq<Other>)
  {
    ghost predicate Valid() {
      && Inv(at) && NoOrphans(at) && Grouped(at, expired, keys)
      && Possible(at, first) && Possible(AfterAll(at, first), second)
      && WritesHaveRows(AfterAll(AfterAll(at, first), second), first + second)
    }

    function BeforeRows(failing: set<Key>): Data {
      AfterAll(WithoutObjects(AfterAll(at, first), keys, failing), second)
    }

    function Result(failing: set<Key>): Data {
      WithoutReports(BeforeRows(failing), Removable(expired, keys, failing))
    }

    /** The reports and photos just before the rows go; they do not depend on what the store refuses. */
    function Rows(): Data {
      AfterAll(AfterAll(at, first), second)
    }

    /** Whether k is stored just before the rows go, if the batch deletes it or not. */
    predicate Stays(k: Key, deleted: bool) {
      Left(second, k, Left(first, k, k in at.store) && !deleted)
    }
  }

  /** Whatever is written belongs to a photo that has a row. */
  ghost predicate WritesHaveRows(d: Data, es: seq<Other>) {
    forall i :: 0 <= i < |es| && es[i].Put? ==> es[i].key.photo in d.photos
  }

  // ---------------------------------------------------------------- what every step keeps

  /** Every stored object belongs to a photo that has a row. */
  ghost predicate NoOrphans(d: Data) {
    forall k :: k in d.store ==> k.photo in d.photos
  }

  ghost predicate Inv(d: Data) {
    Stars(d.reports) && forall id :: id in d.photos ==> d.photos[id].report in d.reports
  }

  /** Reports and photos stay, photos stay with their report, and a duplicate link is kept or cleared. */
  ghost predicate Grows(d: Data, d': Data) {
    && (forall id :: id in d.reports ==> id in d'.reports && LinkKept(d.reports[id], d'.reports[id]))
    && (forall id :: id in d.photos ==> id in d'.photos && d'.photos[id].report == d.photos[id].report)
  }

  ghost predicate LinkKept(r: Report, r': Report) {
    r'.duplicateOf.Some? ==> r'.duplicateOf == r.duplicateOf
  }

  lemma AfterKeepsInv(d: Data, e: Other)
    requires Inv(d) && Enabled(d, e)
    ensures Inv(After(d, e)) && Grows(d, After(d, e))
  {
  }

  lemma {:induction false} OthersKeepInv(d: Data, es: seq<Other>)
    requires Inv(d) && Possible(d, es)
    ensures Inv(AfterAll(d, es)) && Grows(d, AfterAll(d, es))
  {
    if es != [] {
      var n := |es| - 1;
      forall i | 0 <= i < n
        ensures Enabled(AfterAll(d, es[..n][..i]), es[..n][i])
      {
        assert es[..n][..i] == es[..i];
      }
      OthersKeepInv(d, es[..n]);
      assert Enabled(AfterAll(d, es[..n]), es[n]);
      AfterKeepsInv(AfterAll(d, es[..n]), es[n]);
    }
  }

  lemma {:induction false} StoredIffLeft(d: Data, es: seq<Other>, k: Key)
    ensures k in AfterAll(d, es).store <==> Left(es, k, k in d.store)
  {
    if es != [] {
      StoredIffLeft(d, es[..|es| - 1], k);
    }
  }

  /** What others do to reports and photos does not depend on the store. */
  lemma {:induction false} StoreDoesNotMatter(d: Data, d': Data, es: seq<Other>)
    requires d.reports == d'.reports && d.photos == d'.photos
    ensures AfterAll(d, es).reports == AfterAll(d', es).reports && AfterAll(d, es).photos == AfterAll(d', es).photos
  {
    if es != [] {
      StoreDoesNotMatter(d, d', es[..|es| - 1]);
    }
  }

  /** Outside a batch an object is orphaned exactly by a write for a photo whose row has gone. */
  lemma StepOrphansIff(d: Data, e: Other)
    requires NoOrphans(d)
    ensures NoOrphans(After(d, e)) <==> !(e.Put? && e.key.photo !in d.photos)
  {
    if e.Put? {
      assert e.key in After(d, e).store;
    }
  }

  /** A batch keeps the stars and the photo rows' reports. */
  lemma BatchKeepsInv(b: Batch, failing: set<Key>)
    requires b.Valid()
    ensures Inv(b.Result(failing))
  {
    RowsBeforeDelete(b, failing);
    CascadeIsOneLevel(b.Rows().reports, Removable(b.expired, b.keys, failing));
  }

  /** Just before the rows go: the invariant holds, nothing has left the tables since the query, nothing is orphaned. */
  lemma RowsBeforeDelete(b: Batch, failing: set<Key>)
    requires b.Valid()
    ensures Inv(b.Rows()) && Grows(b.at, b.Rows())
    ensures b.BeforeRows(failing).reports == b.Rows().reports && b.BeforeRows(failing).photos == b.Rows().photos
  {
    OthersKeepInv(b.at, b.first);
    OthersKeepInv(AfterAll(b.at, b.first), b.second);
    GrowsFurther(b.at, AfterAll(b.at, b.first), b.Rows());
    StoreDoesNotMatter(AfterAll(b.at, b.first), WithoutObjects(AfterAll(b.at, b.first), b.keys, failing), b.second);
  }

  lemma GrowsFurther(a: Data, b: Data, c: Data)
    requires Grows(a, b) && Grows(b, c)
    ensures Grows(a, c)
  {
    forall id | id in a.reports
      ensures id in c.reports && LinkKept(a.reports[id], c.reports[id])
    {
      assert LinkKept(a.reports[id], b.reports[id]) && LinkKept(b.reports[id], c.reports[id]);
    }
  }

  // ---------------------------------------------------------------- exactly when a batch orphans an object

  /** The photo's report is removed, itself or as a duplicate. */
  ghost predicate Goes(d: Data, remove: set<nat>, photo: nat) {
    && photo in d.photos && d.photos[photo].report in d.reports
    && (d.photos[photo].report in remove
        || (d.reports[d.photos[photo].report].duplicateOf.Some?
            && d.reports[d.photos[photo].report].duplicateOf.value in remove))
  }

  /**
   * With stars one level deep, the photo rows that go are those of the removed reports and of their direct duplicates.
   */
  lemma GoesIff(d: Data, remove: set<nat>, photo: nat)
    requires Inv(d) && photo in d.photos
    ensures photo in WithoutReports(d, remove).photos <==> !Goes(d, remove, photo)
  {
    CascadeIsOneLevel(d.reports, remove);
  }

  /** k is orphaned by the batch exactly when it is still stored as its photo's row goes. */
  lemma OrphanedIff(b: Batch, failing: set<Key>, k: Key)
    requires b.Valid()
    ensures k in b.Result(failing).store && k.photo !in b.Result(failing).photos <==>
            && b.Stays(k, k in DeletedObjects(b.keys, b.keys.Keys, failing))
            && Goes(b.Rows(), Removable(b.expired, b.keys, failing), k.photo)
  {
    RowsBeforeDelete(b, failing);
    StoredIffLeft(b.at, b.first, k);
    StoredIffLeft(WithoutObjects(AfterAll(b.at, b.first), b.keys, failing), b.second, k);
    if b.Stays(k, k in DeletedObjects(b.keys, b.keys.Keys, failing)) {
      StoredHasRow(b, k);
      GoesIff(b.BeforeRows(failing), Removable(b.expired, b.keys, failing), k.photo);
    }
  }

  lemma StoredHasRow(b: Batch, k: Key)
    requires b.Valid() && (b.Stays(k, false) || b.Stays(k, true))
    ensures k.photo in b.Rows().photos
  {
    RowsBeforeDelete(b, {});
    var es := b.first + b.second;
    if forall i :: 0 <= i < |es| ==> es[i] != Put(k) {
      forall i | 0 <= i < |b.first|
        ensures b.first[i] != Put(k)
      {
        assert es[i] == b.first[i];
      }
      forall i | 0 <= i < |b.second|
        ensures b.second[i] != Put(k)
      {
        assert es[|b.first| + i] == b.second[i];
      }
      NeverPut(b.first, k, k in b.at.store);
      NeverPut(b.second, k, Left(b.first, k, k in b.at.store));
      NeverPut(b.second, k, false);
    }
  }

  lemma {:induction false} NeverPut(es: seq<Other>, k: Key, before: bool)
    requires forall i :: 0 <= i < |es| ==> es[i] != Put(k)
    ensures Left(es, k, before) ==> before
  {
    if es != [] {
      NeverPut(es[..|es| - 1], k, before);
    }
  }

  /** k is written in these steps and not dropped again. */
  ghost predicate PutLast(es: seq<Other>, k: Key) {
    exists i :: 0 <= i < |es| && es[i] == Put(k) && forall j :: i < j < |es| ==> es[j] != Drop(k)
  }

  ghost predicate Dropped(es: seq<Other>, k: Key) {
    exists i :: 0 <= i < |es| && es[i] == Drop(k)
  }

  lemma {:induction false} LeftIff(es: seq<Other>, k: Key, before: bool)
    ensures Left(es, k, before) <==> PutLast(es, k) || (before && !Dropped(es, k))
  {
    if es != [] {
      var n := |es| - 1;
      LeftIff(es[..n], k, before);
      if es[n] == Put(k) {
        assert PutLast(es, k);
      } else {
        assert forall i :: 0 <= i < n ==> es[..n][i] == es[i];
        assert PutLast(es[..n], k) && es[n] != Drop(k) ==> PutLast(es, k) by {
          if i :| 0 <= i < n && es[..n][i] == Put(k) && forall j :: i < j < n ==> es[..n][j] != Drop(k) {
            assert es[i] == Put(k);
          }
        }
        assert PutLast(es, k) ==> PutLast(es[..n], k) by {
          if i :| 0 <= i <= n && es[i] == Put(k) && forall j :: i < j <= n ==> es[j] != Drop(k) {
            assert es[..n][i] == Put(k);
          }
        }
        assert Dropped(es[..n], k) ==> Dropped(es, k);
        assert Dropped(es, k) ==> es[n] == Drop(k) || Dropped(es[..n], k) by {
          if i :| 0 <= i < n && es[i] == Drop(k) {
            assert es[..n][i] == Drop(k);
          }
        }
      }
    }
  }

  /**
   * The batch misses k: its photo goes with an expired report, and k is written after the deletions, or the query
   * did not return it although it was stored then or is written before the deletions.
   */
  ghost predicate Missed(b: Batch, k: Key) {
    && Goes(b.Rows(), b.expired, k.photo)
    && (|| PutLast(b.second, k)
        || (&& !Queried(b.at, b.expired, k) && !Dropped(b.second, k)
            && (PutLast(b.first, k) || (k in b.at.store && !Dropped(b.first, k)))))
  }

  lemma MissedIff(b: Batch, k: Key)
    ensures Missed(b, k) <==> Goes(b.Rows(), b.expired, k.photo) && b.Stays(k, Queried(b.at, b.expired, k))
  {
    LeftIff(b.first, k, k in b.at.store);
    LeftIff(b.second, k, Left(b.first, k, k in b.at.store) && !Queried(b.at, b.expired, k));
  }

  /** k belongs to a duplicate that expired together with its original, and is stored unless the batch deletes it. */
  ghost predicate Mixed(b: Batch, k: Key) {
    && k.photo in b.at.photos && k in KeysOf(k.photo, b.at.photos[k.photo]) && b.Stays(k, false)
    && var r := b.at.photos[k.photo].report;
       r in b.expired && LinkOf(b.Rows().reports, r).Some? && LinkOf(b.Rows().reports, r).value in b.expired
  }

  /** The original of a report that is a duplicate. */
  function LinkOf(reports: map<nat, Report>, id: nat): Option<nat> {
    if id in reports then reports[id].duplicateOf else None
  }

  /** If nothing is refused the batch orphans just what it missed. */
  lemma MissedIsOrphaned(b: Batch, k: Key)
    requires b.Valid() && Missed(b, k)
    ensures !NoOrphans(b.Result({}))
  {
    MissedIff(b, k);
    DeletedIffQueried(b, k);
    assert Removable(b.expired, b.keys, {}) == b.expired;
    OrphanedIff(b, {}, k);
  }

  lemma DeletedIffQueried(b: Batch, k: Key)
    requires Grouped(b.at, b.expired, b.keys)
    ensures k in DeletedObjects(b.keys, b.keys.Keys, {}) <==> Queried(b.at, b.expired, k)
  {
    OnlyQueriedDeleted(b, {}, k);
    if Queried(b.at, b.expired, k) {
      ClearedIsDeleted(b, {}, k);
    }
  }

  lemma OnlyQueriedDeleted(b: Batch, failing: set<Key>, k: Key)
    requires Grouped(b.at, b.expired, b.keys)
    ensures k in DeletedObjects(b.keys, b.keys.Keys, failing) ==> Queried(b.at, b.expired, k)
  {
    if k in DeletedObjects(b.keys, b.keys.Keys, failing) {
      var g :| g in b.keys && k in DeletedFrom(b.keys[g], failing);
      assert FiledUnder(b.at, b.expired, g, k);
    }
  }

  /** A queried object is deleted if nothing in its group is refused. */
  lemma ClearedIsDeleted(b: Batch, failing: set<Key>, k: Key)
    requires Grouped(b.at, b.expired, b.keys) && Queried(b.at, b.expired, k)
    ensures var g := GroupOf(b.at.reports, b.expired, b.at.photos[k.photo]).value;
            g in b.keys && (Clears(b.keys[g], failing) ==> k in DeletedObjects(b.keys, b.keys.Keys, failing))
  {
    var g := GroupOf(b.at.reports, b.expired, b.at.photos[k.photo]).value;
    assert Files(b.keys, g, k.photo, b.at.photos[k.photo]);
    assert Clears(b.keys[g], failing) ==> k in DeletedFrom(b.keys[g], failing);
  }

  /** If the store refuses just that duplicate's object, its original still goes and takes the duplicate's row along. */
  lemma MixedIsOrphaned(b: Batch, k: Key)
    requires b.Valid() && Mixed(b, k)
    ensures !NoOrphans(b.Result({k}))
  {
    RowsBeforeDelete(b, {k});
    var r := b.at.photos[k.photo].report;
    var o := b.Rows().reports[r].duplicateOf.value;
    assert LinkKept(b.at.reports[r], b.Rows().reports[r]);
    assert IsOriginal(b.Rows().reports, o);
    assert o in b.keys && k in b.keys[o] ==> FiledUnder(b.at, b.expired, o, k);
    assert o in Removable(b.expired, b.keys, {k});
    OrphanedIff(b, {k}, k);
  }

  /** Whatever an uninterrupted or interrupted batch orphans, it missed or it held mixed. */
  lemma OrphanIsMissedOrMixed(b: Batch, failing: set<Key>, k: Key)
    requires b.Valid() && k in b.Result(failing).store && k.photo !in b.Result(failing).photos
    ensures Missed(b, k) || Mixed(b, k)
  {
    OrphanedIff(b, failing, k);
    RowsBeforeDelete(b, failing);
    MissedIff(b, k);
    LeftGrows(b.second, k);
    OnlyQueriedDeleted(b, failing, k);
    if Queried(b.at, b.expired, k) && !Missed(b, k) {
      ClearedIsDeleted(b, failing, k);
      var r := b.at.photos[k.photo].report;
      assert LinkKept(b.at.reports[r], b.Rows().reports[r]);
    }
  }

  lemma {:induction false} LeftGrows(es: seq<Other>, k: Key)
    ensures Left(es, k, false) ==> Left(es, k, true)
  {
    if es != [] {
      LeftGrows(es[..|es| - 1], k);
    }
  }

  /**
   * Whatever deletions the object store refuses, a batch leaves no orphaned object: exactly when it misses none
   * and holds no stored object of a duplicate that expired together with its original.
   */
  lemma OrphanFreeIff(b: Batch)
    requires b.Valid()
    ensures (forall failing: set<Key> :: NoOrphans(b.Result(failing))) <==>
            forall k :: !Missed(b, k) && !Mixed(b, k)
  {
    if k :| Missed(b, k) {
      MissedIsOrphaned(b, k);
    } else if k :| Mixed(b, k) {
      MixedIsOrphaned(b, k);
    } else {
      forall failing: set<Key>
        ensures NoOrphans(b.Result(failing))
      {
        forall k | k in b.Result(failing).store
          ensures k.photo in b.Result(failing).photos
        {
          if k.photo !in b.Result(failing).photos {
            OrphanIsMissedOrMixed(b, failing, k);
            assert false;
          }
        }
      }
    }
  }

  /**
   * An undisturbed batch misses exactly the objects that were stored for a row which did not name them yet:
   * what a worker had put but not marked ready when the keys were queried.
   */
  lemma UndisturbedMissIff(b: Batch, k: Key)
    requires b.Valid() && b.first == [] && b.second == []
    ensures Missed(b, k) <==>
            && k in b.at.store && Goes(b.at, b.expired, k.photo)
            && k !in KeysOf(k.photo, b.at.photos[k.photo])
  {
    MissedIff(b, k);
  }

  /**
   * A report is kept, photo rows and all, when the store refuses one of its objects and its original, if any, stays.
   */
  lemma BlockedReportIsKept(b: Batch, failing: set<Key>, k: Key)
    requires b.Valid() && k in failing && k.photo in b.at.photos && k in KeysOf(k.photo, b.at.photos[k.photo])
    requires var o := LinkOf(b.Rows().reports, b.at.photos[k.photo].report);
             o.Some? ==> o.value !in Removable(b.expired, b.keys, failing)
    ensures var d := b.Result(failing);
            b.at.photos[k.photo].report in d.reports && k.photo in d.photos && (k in d.store <==> b.Stays(k, false))
  {
    RowsBeforeDelete(b, failing);
    var p, remove := b.at.photos[k.photo], Removable(b.expired, b.keys, failing);
    if p.report in b.expired {
      assert GroupOf(b.at.reports, b.expired, p) == Some(p.report);
      assert Files(b.keys, p.report, k.photo, p);
    }
    GoesIff(b.BeforeRows(failing), remove, k.photo);
    CascadeIsOneLevel(b.Rows().reports, remove);
    StoredIffLeft(b.at, b.first, k);
    StoredIffLeft(WithoutObjects(AfterAll(b.at, b.first), b.keys, failing), b.second, k);
  }

  // ---------------------------------------------------------------- photos that are cleaned on their own

  /** One batch of cleanPhotos: query abandoned and failed photos, `first`, delete objects, `second`, delete rows. */
  datatype PhotoBatch = PhotoBatch(at: Data, chosen: set<nat>, first: seq<Other>, second: seq<Other>)
  {
    ghost predicate Valid() {
      && Inv(at) && NoOrphans(at) && chosen <= at.photos.Keys
      && Possible(at, first) && Possible(AfterAll(at, first), second)
      && WritesHaveRows(Rows(), first + second)
    }

    function Rows(): Data {
      AfterAll(AfterAll(at, first), second)
    }

    /** Whether k is stored just before the rows go, if the batch deletes it or not. */
    predicate Stays(k: Key, deleted: bool) {
      Left(second, k, Left(first, k, k in at.store) && !deleted)
    }

    /** Each photo is a group of its own. */
    function Keys(): map<nat, seq<Key>>
      requires chosen <= at.photos.Keys
    {
      map id | id in chosen :: KeysOf(id, at.photos[id])
    }

    function BeforeRows(failing: set<Key>): Data
      requires chosen <= at.photos.Keys
    {
      AfterAll(WithoutObjects(AfterAll(at, first), Keys(), failing), second)
    }

    function Result(failing: set<Key>): Data
      requires chosen <= at.photos.Keys
    {
      WithoutPhotos(BeforeRows(failing), Removable(chosen, Keys(), failing))
    }
  }

  function WithoutPhotos(d: Data, remove: set<nat>): Data {
    d.(photos := d.photos - remove)
  }

  /**
   * The batch leaves k behind: its photo is chosen, and k is written after the deletions, or the photo's row did not
   * name it when queried although it was stored then or is written before the deletions.
   */
  ghost predicate LeftBehind(b: PhotoBatch, k: Key)
    requires b.chosen <= b.at.photos.Keys
  {
    && k.photo in b.chosen
    && (|| PutLast(b.second, k)
        || (&& k !in KeysOf(k.photo, b.at.photos[k.photo]) && !Dropped(b.second, k)
            && (PutLast(b.first, k) || (k in b.at.store && !Dropped(b.first, k)))))
  }

  lemma PhotoOrphanIff(b: PhotoBatch, failing: set<Key>, k: Key)
    requires b.Valid()
    ensures k in b.Result(failing).store && k.photo !in b.Result(failing).photos <==>
            && b.Stays(k, k in DeletedObjects(b.Keys(), b.Keys().Keys, failing))
            && k.photo in Removable(b.chosen, b.Keys(), failing)
  {
    StoreDoesNotMatter(AfterAll(b.at, b.first), WithoutObjects(AfterAll(b.at, b.first), b.Keys(), failing), b.second);
    StoredIffLeft(b.at, b.first, k);
    StoredIffLeft(WithoutObjects(AfterAll(b.at, b.first), b.Keys(), failing), b.second, k);
    StoredInEnd(b, k);
  }

  /** Whatever is stored in the end, deleted in between or not, belongs to a photo with a row. */
  lemma StoredInEnd(b: PhotoBatch, k: Key)
    requires b.Valid()
    ensures b.Stays(k, false) || b.Stays(k, true) ==> k.photo in b.Rows().photos
  {
    OthersKeepInv(b.at, b.first);
    OthersKeepInv(AfterAll(b.at, b.first), b.second);
    GrowsFurther(b.at, AfterAll(b.at, b.first), b.Rows());
    LeftIff(b.first, k, k in b.at.store);
    LeftIff(b.second, k, Left(b.first, k, k in b.at.store));
    LeftIff(b.second, k, false);
    PutsHaveRows(b.Rows(), b.first, b.second, k);
  }

  lemma PutsHaveRows(d: Data, first: seq<Other>, second: seq<Other>, k: Key)
    requires WritesHaveRows(d, first + second)
    ensures PutLast(first, k) || PutLast(second, k) ==> k.photo in d.photos
  {
    var es := first + second;
    assert forall i :: 0 <= i < |first| ==> es[i] == first[i];
    assert forall i :: 0 <= i < |second| ==> es[|first| + i] == second[i];
  }

  lemma DeletedByPhoto(b: PhotoBatch, failing: set<Key>, k: Key)
    requires b.chosen <= b.at.photos.Keys
    ensures k in DeletedObjects(b.Keys(), b.Keys().Keys, failing) ==>
              k.photo in b.chosen && k in KeysOf(k.photo, b.at.photos[k.photo])
    ensures k.photo in Removable(b.chosen, b.Keys(), failing) && k in KeysOf(k.photo, b.at.photos[k.photo]) ==>
              k in DeletedObjects(b.Keys(), b.Keys().Keys, failing)
  {
    if k in DeletedObjects(b.Keys(), b.Keys().Keys, failing) {
      var g :| g in b.Keys() && k in DeletedFrom(b.Keys()[g], failing);
      assert k in KeysOf(g, b.at.photos[g]);
    }
    if k.photo in Removable(b.chosen, b.Keys(), failing) && k in KeysOf(k.photo, b.at.photos[k.photo]) {
      assert Clears(b.Keys()[k.photo], failing) && k in DeletedFrom(b.Keys()[k.photo], failing);
    }
  }

  /** Whatever the store refuses, cleaning photos on their own orphans no object exactly when it leaves none behind. */
  lemma PhotosOrphanFreeIff(b: PhotoBatch)
    requires b.Valid()
    ensures (forall failing: set<Key> :: NoOrphans(b.Result(failing))) <==> forall k :: !LeftBehind(b, k)
  {
    if k :| LeftBehind(b, k) {
      PhotoOrphanIff(b, {}, k);
      OnlyLeftBehind(b, {}, k);
      assert Removable(b.chosen, b.Keys(), {}) == b.chosen;
      assert !NoOrphans(b.Result({}));
    } else {
      forall failing: set<Key>, k | k in b.Result(failing).store
        ensures k.photo in b.Result(failing).photos
      {
        PhotoOrphanIff(b, failing, k);
        OnlyLeftBehind(b, failing, k);
      }
    }
  }

  lemma OnlyLeftBehind(b: PhotoBatch, failing: set<Key>, k: Key)
    requires b.Valid()
    ensures k.photo in Removable(b.chosen, b.Keys(), failing) ==>
              (LeftBehind(b, k) <==> b.Stays(k, k in DeletedObjects(b.Keys(), b.Keys().Keys, failing)))
  {
    DeletedByPhoto(b, failing, k);
    LeftIff(b.first, k, k in b.at.store);
    LeftIff(b.second, k, Left(b.first, k, k in b.at.store) && k !in DeletedObjects(b.Keys(), b.Keys().Keys, failing));
  }

  /** Photo 5 failed after its large copy was stored, which its row never came to name. */
  function FailedPhoto(): PhotoBatch {
    PhotoBatch(Data(map[1 := Row(None)], map[5 := Photo(1, false)], {Key(5, Large)}), {5}, [], [])
  }

  lemma FailedPhotoLeavesItsCopy()
    ensures FailedPhoto().Valid() && LeftBehind(FailedPhoto(), Key(5, Large))
    ensures !NoOrphans(FailedPhoto().Result({}))
  {
    var b := FailedPhoto();
    PhotoOrphanIff(b, {}, Key(5, Large));
    OnlyLeftBehind(b, {}, Key(5, Large));
  }

  // ---------------------------------------------------------------- both ways do happen

  function Row(duplicateOf: Option<nat>): Report {
    Report(None, "flooding", 0, false, 0.0, duplicateOf, Pending, None, 0.0, 0, 0)
  }

  /** Photo 5 of the expired report 1 is being processed while the batch goes on; no deletion fails. */
  function WorkerBatch(): Batch {
    Batch(Data(map[1 := Row(None)], map[5 := Photo(1, false)], {Key(5, Quarantine)}), {1},
          map[1 := [Key(5, Quarantine)]],
          [Put(Key(5, Large)), Put(Key(5, Thumb)), MarkReady(5)], [])
  }

  /** The worker's objects appear after the query, so the batch orphans them without any refusal or mix. */
  lemma WorkerBatchMisses()
    ensures WorkerBatch().Valid() && Missed(WorkerBatch(), Key(5, Large))
    ensures forall k :: !Mixed(WorkerBatch(), k)
    ensures !NoOrphans(WorkerBatch().Result({}))
  {
    WorkerBatchIsValid();
    assert WorkerBatch().first[0] == Put(Key(5, Large));
    MissedIsOrphaned(WorkerBatch(), Key(5, Large));
  }

  lemma WorkerBatchIsValid()
    ensures WorkerBatch().Valid()
    ensures WorkerBatch().Rows().photos == map[5 := Photo(1, true)]
    ensures WorkerBatch().Rows().reports == map[1 := Row(None)]
  {
    var b := WorkerBatch();
    ThreeSteps(b.at, Put(Key(5, Large)), Put(Key(5, Thumb)), MarkReady(5));
    assert b.Rows() == AfterAll(b.at, b.first);
    assert b.first + b.second == b.first;
    assert KeysOf(5, Photo(1, false)) == b.keys[1];
  }

  lemma OneMoreStep(d: Data, es: seq<Other>, e: Other)
    ensures AfterAll(d, es + [e]) == After(AfterAll(d, es), e)
    ensures Possible(d, es) && Enabled(AfterAll(d, es), e) ==> Possible(d, es + [e])
  {
    assert (es + [e])[..|es|] == es;
    if Possible(d, es) && Enabled(AfterAll(d, es), e) {
      forall i | 0 <= i <= |es|
        ensures Enabled(AfterAll(d, (es + [e])[..i]), (es + [e])[i])
      {
        assert i < |es| ==> (es + [e])[..i] == es[..i];
      }
    }
  }

  lemma ThreeSteps(d: Data, x: Other, y: Other, z: Other)
    ensures AfterAll(d, [x, y, z]) == After(After(After(d, x), y), z)
    ensures Enabled(d, x) && Enabled(After(d, x), y) && Enabled(After(After(d, x), y), z) ==> Possible(d, [x, y, z])
  {
    OneMoreStep(d, [], x);
    OneMoreStep(d, [x], y);
    OneMoreStep(d, [x, y], z);
    assert [] + [x] == [x];
    assert [x] + [y] == [x, y];
    assert [x, y] + [z] == [x, y, z];
  }

  /** The expired report 2 duplicates report 1, which has expired too; photo 5 is the duplicate's. */
  function MixedBatch(): Batch {
    Batch(Data(map[1 := Row(None), 2 := Row(Some(1))], map[5 := Photo(2, true)], {Key(5, Large)}), {1, 2},
          map[2 := [Key(5, Quarantine), Key(5, Large), Key(5, Thumb)]], [], [])
  }

  lemma MixedBatchMixes()
    ensures MixedBatch().Valid() && Mixed(MixedBatch(), Key(5, Large))
    ensures forall k :: !Missed(MixedBatch(), k)
  {
    var b := MixedBatch();
    assert KeysOf(5, Photo(2, true)) == b.keys[2];
    assert IsOriginal(b.at.reports, 1);
  }

  // ---------------------------------------------------------------- the cleaner as the code runs it

  function Elements(keys: seq<Key>): set<Key> {
    set k | k in keys
  }

  class RetentionCleaner {
    var reports: map<nat, Report>
    var photos: map<nat, Photo>
    var store: set<Key>

    function State(): Data
      reads this
    {
      Data(reports, photos, store)
    }

    /** failing holds the keys whose deletion the store refuses; nothing else happens during this call. */
    method CleanReports(expired: seq<nat>, failing: set<Key>) returns (keys: map<nat, seq<Key>>)
      modifies this
      ensures Grouped(old(State()), (set e | e in expired), keys)
      ensures State() == Batch(old(State()), (set e | e in expired), keys, [], []).Result(failing)
    {
      keys := PhotoKeys((set e | e in expired));
      var deletable := DeleteGroups((set e | e in expired), keys, failing);
      DeleteRows(deletable);
    }

    method PhotoKeys(expired: set<nat>) returns (keys: map<nat, seq<Key>>)
      ensures Grouped(State(), expired, keys)
    {
      keys := map[];
      var todo := photos.Keys;
      while todo != {}
        invariant todo <= photos.Keys
        invariant forall id :: id in photos && id !in todo && GroupOf(reports, expired, photos[id]).Some? ==>
                    Files(keys, GroupOf(reports, expired, photos[id]).value, id, photos[id])
        invariant forall g, k :: g in keys && k in keys[g] ==> FiledUnder(State(), expired, g, k)
        decreases todo
      {
        var id :| id in todo;
        todo := todo - {id};
        var group := GroupOf(reports, expired, photos[id]);
        if group.Some? {
          var g := group.value;
          ghost var before := keys;
          keys := keys[g := (if g in keys then keys[g] else []) + KeysOf(id, photos[id])];
          forall other, g' | other in photos && Files(before, g', other, photos[other])
            ensures Files(keys, g', other, photos[other])
          {
          }
        }
      }
    }

    /** Deletes each group's objects; deletable are the expired reports none of whose objects was refused. */
    method DeleteGroups(expired: set<nat>, keys: map<nat, seq<Key>>, failing: set<Key>) returns (deletable: set<nat>)
      modifies this`store
      ensures deletable == Removable(expired, keys, failing)
      ensures State() == WithoutObjects(old(State()), keys, failing)
    {
      deletable := expired;
      var groups, done := keys.Keys, {};
      while groups != {}
        invariant groups + done == keys.Keys
        invariant deletable == StillDeletable(expired, keys, done, failing)
        invariant store == old(store) - DeletedObjects(keys, done, failing)
        decreases groups
      {
        var g :| g in groups;
        OneMoreGroup(expired, keys, done, g, failing);
        groups, done := groups - {g}, done + {g};
        var ok := DeleteObjects(keys[g], failing);
        if !ok {
          deletable := deletable - {g};
        }
      }
      assert done == keys.Keys;
    }

    method DeleteObjects(keys: seq<Key>, failing: set<Key>) returns (ok: bool)
      modifies this`store
      ensures ok == Clears(keys, failing)
      ensures store == old(store) - DeletedFrom(keys, failing)
    {
      for i := 0 to |keys|
        invariant forall j :: 0 <= j < i ==> keys[j] !in failing
        invariant store == old(store) - Elements(keys[..i])
        invariant DeletedFrom(keys, failing) == Elements(keys[..i]) + DeletedFrom(keys[i..], failing)
      {
        assert keys[i..][1..] == keys[i + 1..];
        if keys[i] in failing {
          return false;
        }
        assert Elements(keys[..i + 1]) == Elements(keys[..i]) + {keys[i]};
        store := store - {keys[i]};
      }
      return true;
    }

    /** chosen are the photos whose rows the query returned; nothing else happens during this call. */
    method CleanPhotos(chosen: set<nat>, failing: set<Key>)
      requires chosen <= photos.Keys
      modifies this
      ensures State() == PhotoBatch(old(State()), chosen, [], []).Result(failing)
    {
      var keys := map id | id in chosen :: KeysOf(id, photos[id]);
      var remove := DeleteGroups(chosen, keys, failing);
      photos := photos - remove;
    }

    method DeleteRows(remove: set<nat>)
      modifies this
      ensures State() == WithoutReports(old(State()), remove)
    {
      var gone := Cascade(reports, remove);
      reports := reports - gone;
      photos := map id | id in photos && photos[id].report !in gone :: photos[id];
    }
  }

  function StillDeletable(expired: set<nat>, keys: map<nat, seq<Key>>, done: set<nat>, failing: set<Key>): set<nat> {
    set e | e in expired && (e in keys && e in done ==> Clears(keys[e], failing))
  }

  lemma OneMoreGroup(expired: set<nat>, keys: map<nat, seq<Key>>, done: set<nat>, g: nat, failing: set<Key>)
    requires g in keys
    ensures StillDeletable(expired, keys, done + {g}, failing)
         == StillDeletable(expired, keys, done, failing) - if Clears(keys[g], failing) then {} else {g}
    ensures DeletedObjects(keys, done + {g}, failing)
         == DeletedObjects(keys, done, failing) + DeletedFrom(keys[g], failing)
  {
  }
}
