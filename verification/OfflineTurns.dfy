/**
 * What one step of a flush does to each queued report (src/sync/flushReportQueue.ts, src/storage/reportQueue.ts):
 * whether it leaves the queue and as what, what becomes of its entry if it stays, and how its turn goes on from there,
 * up to the end of the flush.
 */
module OfflineTurns {
  import opened Prelude
  import opened OfflineQueue

  /** The report is the one the flush is working on. */
  ghost predicate IsInHand(s: Sys, id: nat) {
    s.flush.Flushing? && !s.flush.current.Nobody? && s.flush.current.item.tempId == id
  }

  ghost predicate WasRefused(s: Sys, step: Step, id: nat) {
    step == CreateReturns(Refused) && IsInHand(s, id)
  }

  ghost predicate WasCompleted(s: Sys, step: Step, id: nat) {
    step.Complete? && IsInHand(s, id)
  }

  /** Its turn comes, and three have failed already. */
  ghost predicate RunsOut(s: Sys, step: Step, id: nat) {
    step.TakeUp? && s.flush.Flushing? && s.flush.rest != [] && s.flush.rest[0].tempId == id
    && s.flush.rest[0].retryCount >= 3
  }

  /** The report was not created, as far as the client knows, or a photo has to be tried again. */
  ghost predicate Fails(s: Sys, step: Step, id: nat) {
    IsInHand(s, id) && FailsSomeone(step)
  }

  ghost predicate Leaves(s: Sys, step: Step, id: nat) {
    WasCompleted(s, step, id) || WasRefused(s, step, id) || RunsOut(s, step, id)
  }

  lemma NotLeftYet(s: Sys, id: nat)
    requires Accounted(s) && id in TempIds(s.queue)
    ensures id !in s.sent && id !in s.rejected && id !in s.exhausted
  {
  }

  /** The ids the step takes out of the queue, if any. */
  lemma LeavingIds(s: Sys, step: Step, id: nat)
    requires Distinct(s.queue) && FlushInv(s) && Enabled(s, step) && id in TempIds(s.queue)
    ensures id in TempIds(Next(s, step).queue) <==> !Leaves(s, step, id)
  {
    if step.TakeUp? {
      DequeuedIds(s.queue, s.flush.rest[0].tempId);
    } else if step.Complete? || step == CreateReturns(Refused) {
      DequeuedIds(s.queue, s.flush.current.item.tempId);
    } else if step.Enqueue? {
      assert forall x :: x in s.queue ==> x in s.queue + [step.item];
    } else {
      StayingIds(s, step);
    }
  }

  lemma StayingIds(s: Sys, step: Step)
    requires Enabled(s, step) && !step.Enqueue? && !step.TakeUp? && !step.Complete? && step != CreateReturns(Refused)
    ensures TempIds(Next(s, step).queue) == TempIds(s.queue)
  {
    if step.Mark? {
      UpdatedIds(s.queue, s.flush.current.item.tempId, WithServerId(s.flush.current.serverId));
    } else if step.PhotoReturns? && !step.photo.Retryable? {
      UpdatedIds(s.queue, s.flush.current.item.tempId, WithoutPhoto(s.flush.current.left[0]));
    } else if s.flush.Flushing? && !s.flush.current.Nobody? {
      UpdatedIds(s.queue, s.flush.current.item.tempId, Retried);
    }
  }

  /** The report is recorded as having left in at most this way. */
  ghost predicate RecordedAs(s: Sys, s': Sys, sent: bool, rejected: bool, exhausted: bool, id: nat) {
    (id in s'.sent <==> id in s.sent || sent) && (id in s'.rejected <==> id in s.rejected || rejected)
    && (id in s'.exhausted <==> id in s.exhausted || exhausted)
  }

  lemma TakeUpRecords(s: Sys, online: bool, id: nat)
    requires Enabled(s, TakeUp(online))
    ensures RecordedAs(s, Next(s, TakeUp(online)), false, false, RunsOut(s, TakeUp(online), id), id)
  {
  }

  lemma CreationRecords(s: Sys, outcome: CreateOutcome, id: nat)
    requires Enabled(s, CreateReturns(outcome))
    ensures RecordedAs(s, Next(s, CreateReturns(outcome)), false, WasRefused(s, CreateReturns(outcome), id), false, id)
  {
  }

  lemma CompletionRecords(s: Sys, id: nat)
    requires Enabled(s, Complete)
    ensures RecordedAs(s, Next(s, Complete), WasCompleted(s, Complete, id), false, false, id)
  {
  }

  lemma OthersRecordNothing(s: Sys, step: Step, id: nat)
    requires Enabled(s, step) && !step.TakeUp? && !step.CreateReturns? && !step.Complete?
    ensures RecordedAs(s, Next(s, step), false, false, false, id)
  {
  }

  lemma StepRecords(s: Sys, step: Step, id: nat)
    requires Enabled(s, step)
    ensures RecordedAs(s, Next(s, step), WasCompleted(s, step, id), WasRefused(s, step, id), RunsOut(s, step, id), id)
  {
    if step.TakeUp? {
      TakeUpRecords(s, step.online, id);
    } else if step.CreateReturns? {
      CreationRecords(s, step.outcome, id);
    } else if step.Complete? {
      CompletionRecords(s, id);
    } else {
      OthersRecordNothing(s, step, id);
    }
  }

  /** A report leaves the queue only when it is complete, refused, or out of retries, and is recorded as just that. */
  lemma LeavesIff(s: Sys, step: Step, id: nat)
    requires Inv(s) && Enabled(s, step) && id in TempIds(s.queue)
    ensures var s' := Next(s, step);
            && (id in s'.sent <==> WasCompleted(s, step, id))
            && (id in s'.rejected <==> WasRefused(s, step, id))
            && (id in s'.exhausted <==> RunsOut(s, step, id))
            && (id in TempIds(s'.queue) <==> !Leaves(s, step, id))
  {
    NotLeftYet(s, id);
    StepRecords(s, step, id);
    LeavingIds(s, step, id);
  }

  /** An entry that goes through an update of the entries with some id. */
  lemma UpdatedEntry(queue: seq<Item>, id: nat, update: Item -> Item, x: Item, y: Item)
    requires forall z :: update(z).tempId == z.tempId
    requires Distinct(queue) && x in queue && y in Updated(queue, id, update) && x.tempId == y.tempId
    ensures y == if x.tempId == id then update(x) else x
  {
    UpdatedItems(queue, id, update);
    if y.tempId == id {
      var z :| z in queue && z.tempId == id && y == update(z);
      SameIdSameItem(queue, x, z);
    } else {
      SameIdSameItem(queue, x, y);
    }
  }

  /**
   * What a step makes of an entry that stays: a failed turn counts one retry, a server id told is stored, and a
   * photo uploaded, or impossible to upload, is taken from its list.
   */
  ghost predicate BecomesEntry(s: Sys, step: Step, x: Item, y: Item)
    requires Enabled(s, step)
  {
    && y.tempId == x.tempId
    && y.retryCount == x.retryCount + (if Fails(s, step, x.tempId) then 1 else 0)
    && y.serverId == (if step.Mark? && IsInHand(s, x.tempId) then Some(s.flush.current.serverId) else x.serverId)
    && y.photos == (if Settles(step) && IsInHand(s, x.tempId) then Without(x.photos, s.flush.current.left[0])
                    else x.photos)
  }

  predicate Settles(step: Step) {
    step == PhotoReturns(Uploaded) || step == PhotoReturns(Permanent)
  }

  predicate FailsSomeone(step: Step) {
    step == CreateReturns(CreateFailed) || step == CreateReturns(Lost) || step == PhotoReturns(Retryable)
  }

  /** x is in the queue, and y is the entry with its id after the step. */
  ghost predicate Succeeds(s: Sys, step: Step, x: Item, y: Item)
    requires Enabled(s, step)
  {
    Distinct(s.queue) && x in s.queue && y in Next(s, step).queue && x.tempId == y.tempId
  }

  lemma EntryAfterMark(s: Sys, x: Item, y: Item)
    requires Enabled(s, Mark) && Succeeds(s, Mark, x, y)
    ensures BecomesEntry(s, Mark, x, y)
  {
    UpdatedEntry(s.queue, s.flush.current.item.tempId, WithServerId(s.flush.current.serverId), x, y);
  }

  lemma EntryAfterPhoto(s: Sys, step: Step, x: Item, y: Item)
    requires Enabled(s, step) && Settles(step) && Succeeds(s, step, x, y)
    ensures BecomesEntry(s, step, x, y)
  {
    UpdatedEntry(s.queue, s.flush.current.item.tempId, WithoutPhoto(s.flush.current.left[0]), x, y);
  }

  lemma EntryAfterFailure(s: Sys, step: Step, x: Item, y: Item)
    requires Enabled(s, step) && FailsSomeone(step) && Succeeds(s, step, x, y)
    ensures BecomesEntry(s, step, x, y)
  {
    UpdatedEntry(s.queue, s.flush.current.item.tempId, Retried, x, y);
  }

  /** No other step changes an entry. */
  lemma EntryIsOld(s: Sys, step: Step, x: Item, y: Item)
    requires Enabled(s, step) && Succeeds(s, step, x, y)
    requires !step.Mark? && !Settles(step) && !FailsSomeone(step) && TempIds(s.queue) <= s.known
    ensures y in s.queue
  {
    if step.TakeUp? {
      DequeuedItems(s.queue, s.flush.rest[0].tempId);
    } else if step.Complete? || step == CreateReturns(Refused) {
      DequeuedItems(s.queue, s.flush.current.item.tempId);
    } else if step.Enqueue? {
      assert x.tempId in TempIds(s.queue);
    }
  }

  lemma EntryAfter(s: Sys, step: Step, x: Item, y: Item)
    requires Inv(s) && Enabled(s, step) && Succeeds(s, step, x, y)
    ensures BecomesEntry(s, step, x, y)
  {
    if step.Mark? {
      EntryAfterMark(s, x, y);
    } else if Settles(step) {
      EntryAfterPhoto(s, step, x, y);
    } else if FailsSomeone(step) {
      EntryAfterFailure(s, step, x, y);
    } else {
      EntryIsOld(s, step, x, y);
      SameIdSameItem(s.queue, x, y);
    }
  }

  // ---------------------------------------------------------------- how a turn goes

  /** A flush sets out to give every report queued by then its turn, in order, and no other. */
  lemma BeginsWithWholeQueue(s: Sys, id: nat)
    requires Enabled(s, Begin)
    ensures var s' := Next(s, Begin);
            && s'.flush.Flushing? && s'.flush.current.Nobody? && s'.flush.rest == s.queue && s'.queue == s.queue
            && (id in s'.flush.batch <==> exists x :: x in s.queue && x.tempId == id)
  {
  }

  /** Without a connection the flush ends there and nothing else happens. */
  lemma OfflineEndsFlush(s: Sys)
    requires Enabled(s, TakeUp(false)) && s.flush.rest[0].retryCount < 3
    ensures Next(s, TakeUp(false)) == s.(flush := Idle)
  {
  }

  /** With one, a report the server has not got yet is created first, and one it has goes straight to its photos. */
  lemma CreatedOnlyWithoutServerId(s: Sys)
    requires Enabled(s, TakeUp(true)) && s.flush.rest[0].retryCount < 3
    ensures var s', x := Next(s, TakeUp(true)), s.flush.rest[0];
            && s'.flush.Flushing? && s'.flush.rest == s.flush.rest[1..] && s'.queue == s.queue
            && s'.flush.current == (if x.serverId.None? then Creating(x) else Uploading(x, x.photos))
  {
  }

  /** A creation that is answered goes on by storing the server id, and then with all of the report's photos. */
  lemma StoredBeforePhotos(s: Sys, serverId: nat)
    requires Enabled(s, CreateReturns(Created(serverId)))
    ensures var s' := Next(s, CreateReturns(Created(serverId)));
            && Enabled(s', Mark) && s'.flush.current.serverId == serverId
            && s'.creates == s.creates + [Creation(s.flush.current.item.tempId, false)]
            && var s2 := Next(s', Mark);
               s2.flush.Flushing? && s2.flush.current == Uploading(s.flush.current.item, s.flush.current.item.photos)
  {
  }

  /** The photos are taken in order; the first that has to be tried again ends the turn. */
  lemma PhotosInOrder(s: Sys, photo: PhotoOutcome)
    requires Enabled(s, PhotoReturns(photo))
    ensures var s' := Next(s, PhotoReturns(photo));
            && s'.flush.Flushing? && s'.flush.rest == s.flush.rest
            && s'.flush.current == (if photo.Retryable? then Nobody
                                    else Uploading(s.flush.current.item, s.flush.current.left[1..]))
  {
  }
}
