/** What becomes of a queued report's photos and server id (flushReportQueue.ts, upload.ts). */
module OfflinePhotos {
  import opened Prelude
  import opened OfflineQueue

  // ---------------------------------------------------------------- the invariant

  /** The report has this photo, and it is neither uploaded nor known to be impossible to upload. */
  predicate Unsettled(s: Sys, id: nat, p: nat)
    requires id in s.filed
  {
    p in s.filed[id].photos && (id, p) !in s.settled
  }

  /** The id the report was queued with, or else the one the server told. */
  function ServerIdOf(s: Sys, id: nat): Option<nat>
    requires id in s.filed
  {
    if s.filed[id].serverId.Some? then s.filed[id].serverId
    else if id in s.given then Some(s.given[id]) else None
  }

  /** The entry lists just the photos not settled, and has the report's server id, save while that is being stored. */
  ghost predicate EntryFits(s: Sys, x: Item) {
    && x.tempId in s.filed
    && (forall p :: p in x.photos <==> Unsettled(s, x.tempId, p))
    && (!BeingMarked(s.flush, x.tempId) ==> x.serverId == ServerIdOf(s, x.tempId))
  }

  /** The photos the flush still means to upload for the report in hand. */
  function Intended(c: Current): seq<nat>
    requires !c.Nobody?
  {
    if c.Uploading? then c.left else c.item.photos
  }

  ghost predicate HandFits(s: Sys) {
    s.flush.Flushing? && !s.flush.current.Nobody? ==>
      var (c, id) := (s.flush.current, s.flush.current.item.tempId);
      && id in s.filed && (forall p :: Unsettled(s, id, p) ==> p in Intended(c))
      && (c.Creating? ==> ServerIdOf(s, id).None?)
      && (c.Marking? ==> s.filed[id].serverId.None? && id in s.given && s.given[id] == c.serverId)
  }

  ghost predicate SentFits(s: Sys, id: nat) {
    id in s.filed && forall p :: p in s.filed[id].photos ==> (id, p) in s.settled
  }

  ghost predicate PhotoInv(s: Sys) {
    && s.filed.Keys == s.known && s.given.Keys <= s.known
    && (forall pair :: pair in s.settled ==> pair.0 in s.known)
    && (forall x :: x in s.queue ==> EntryFits(s, x))
    && HandFits(s)
    && (forall id :: id in s.sent ==> SentFits(s, id))
  }

  lemma {:induction false} WithoutIff(photos: seq<nat>, uri: nat, p: nat)
    ensures p in Without(photos, uri) <==> p in photos && p != uri
  {
    if photos != [] {
      WithoutIff(photos[1..], uri, p);
      assert photos == [photos[0]] + photos[1..];
    }
  }

  // ---------------------------------------------------------------- every step keeps it

  lemma EnqueueKeeps(s: Sys, item: Item)
    requires Inv(s) && PhotoInv(s) && Enabled(s, Enqueue(item))
    ensures PhotoInv(Next(s, Enqueue(item)))
  {
    var s' := Next(s, Enqueue(item));
    forall x | x in s'.queue
      ensures EntryFits(s', x)
    {
      if x in s.queue {
        assert EntryFits(s, x) && x.tempId in s.known;
      }
      forall p
        ensures Unsettled(s', x.tempId, p) <==> p in x.photos
      {
        assert x in s.queue ==> (Unsettled(s, x.tempId, p) <==> p in x.photos);
      }
    }
    if s.flush.Flushing? && !s.flush.current.Nobody? {
      var id := s.flush.current.item.tempId;
      assert id in s.known;
      assert forall p :: Unsettled(s', id, p) <==> Unsettled(s, id, p);
    }
    forall id | id in s'.sent
      ensures SentFits(s', id)
    {
      assert SentFits(s, id);
    }
  }

  /** A report that leaves, or a change of the flush alone, takes nothing from the others. */
  lemma LeavingKeeps(s: Sys, s': Sys)
    requires PhotoInv(s) && (forall x :: x in s'.queue ==> x in s.queue)
    requires s'.filed == s.filed && s'.settled == s.settled && s'.given == s.given && s'.known == s.known
    requires !(s.flush.Flushing? && s.flush.current.Marking?) && s'.sent == s.sent
    requires s'.flush.Flushing? ==> s'.flush.current.Nobody?
    ensures PhotoInv(s')
  {
    forall x | x in s'.queue
      ensures EntryFits(s', x)
    {
      assert EntryFits(s, x);
      assert forall p :: Unsettled(s', x.tempId, p) <==> Unsettled(s, x.tempId, p);
    }
    forall id | id in s'.sent
      ensures SentFits(s', id)
    {
      assert SentFits(s, id);
    }
  }

  lemma TakeUpKeeps(s: Sys, online: bool)
    requires Inv(s) && PhotoInv(s) && Enabled(s, TakeUp(online))
    ensures PhotoInv(Next(s, TakeUp(online)))
  {
    var s', item := Next(s, TakeUp(online)), s.flush.rest[0];
    DequeuedItems(s.queue, item.tempId);
    assert item in s.flush.rest;
    assert EntryFits(s, item);
    if item.retryCount >= MAX_RETRIES || !online {
      LeavingKeeps(s, s');
    } else {
      forall x | x in s'.queue
        ensures EntryFits(s', x)
      {
        assert EntryFits(s, x);
        assert forall p :: Unsettled(s', x.tempId, p) <==> Unsettled(s, x.tempId, p);
      }
      assert forall p :: Unsettled(s', item.tempId, p) <==> Unsettled(s, item.tempId, p);
      assert forall id :: id in s.sent ==> SentFits(s, id);
    }
  }

  /** The report in hand stays with one more retry. */
  lemma FailingKeeps(s: Sys, s': Sys)
    requires PhotoInv(s) && s.flush.Flushing? && !s.flush.current.Nobody? && !s.flush.current.Marking?
    requires s'.queue == Updated(s.queue, s.flush.current.item.tempId, Retried)
    requires s'.filed == s.filed && s'.settled == s.settled && s'.given == s.given && s'.known == s.known
    requires s'.sent == s.sent && s'.flush.Flushing? && s'.flush.current.Nobody?
    ensures PhotoInv(s')
  {
    var id := s.flush.current.item.tempId;
    UpdatedItems(s.queue, id, Retried);
    forall y | y in s'.queue
      ensures EntryFits(s', y)
    {
      var x :| x in s.queue && y == if x.tempId == id then Retried(x) else x;
      assert EntryFits(s, x);
      assert forall p :: Unsettled(s', x.tempId, p) <==> Unsettled(s, x.tempId, p);
    }
    forall i | i in s'.sent
      ensures SentFits(s', i)
    {
      assert SentFits(s, i);
    }
  }

  lemma CreatedKeeps(s: Sys, serverId: nat)
    requires Inv(s) && PhotoInv(s) && Enabled(s, CreateReturns(Created(serverId)))
    ensures PhotoInv(Next(s, CreateReturns(Created(serverId))))
  {
    var s', id := Next(s, CreateReturns(Created(serverId))), s.flush.current.item.tempId;
    forall x | x in s'.queue
      ensures EntryFits(s', x)
    {
      assert EntryFits(s, x);
      assert forall p :: Unsettled(s', x.tempId, p) <==> Unsettled(s, x.tempId, p);
    }
    assert forall p :: Unsettled(s', id, p) <==> Unsettled(s, id, p);
    forall i | i in s'.sent
      ensures SentFits(s', i)
    {
      assert SentFits(s, i);
    }
  }

  lemma MarkKeeps(s: Sys)
    requires Inv(s) && PhotoInv(s) && Enabled(s, Mark)
    ensures PhotoInv(Next(s, Mark))
  {
    var s', id := Next(s, Mark), s.flush.current.item.tempId;
    forall y | y in s'.queue
      ensures EntryFits(s', y)
    {
      MarkKeepsEntry(s, y);
    }
    assert forall p :: Unsettled(s', id, p) <==> Unsettled(s, id, p);
    forall i | i in s'.sent
      ensures SentFits(s', i)
    {
      assert SentFits(s, i);
    }
  }

  lemma MarkKeepsEntry(s: Sys, y: Item)
    requires HandFits(s) && Enabled(s, Mark) && (forall x :: x in s.queue ==> EntryFits(s, x))
    requires y in Next(s, Mark).queue
    ensures EntryFits(Next(s, Mark), y)
  {
    var s', id, update := Next(s, Mark), s.flush.current.item.tempId, WithServerId(s.flush.current.serverId);
    UpdatedItems(s.queue, id, update);
    var x :| x in s.queue && y == if x.tempId == id then update(x) else x;
    assert EntryFits(s, x);
    assert forall p :: Unsettled(s', x.tempId, p) <==> Unsettled(s, x.tempId, p);
  }

  lemma SettlingKeeps(s: Sys, photo: PhotoOutcome)
    requires Inv(s) && PhotoInv(s) && Enabled(s, PhotoReturns(photo)) && !photo.Retryable?
    ensures PhotoInv(Next(s, PhotoReturns(photo)))
  {
    var s', id, uri := Next(s, PhotoReturns(photo)), s.flush.current.item.tempId, s.flush.current.left[0];
    forall y | y in s'.queue
      ensures EntryFits(s', y)
    {
      SettlingKeepsEntry(s, s', id, uri, y);
    }
    SettlingKeepsHand(s, s', id, uri);
    forall i | i in s'.sent
      ensures SentFits(s', i)
    {
      assert SentFits(s, i);
    }
  }

  /** From s to s' the photo uri of the report in hand, id, is settled. */
  ghost predicate Settles(s: Sys, s': Sys, id: nat, uri: nat) {
    && s.flush.Flushing? && s.flush.current.Uploading? && s.flush.current.item.tempId == id
    && s.flush.current.left != [] && s.flush.current.left[0] == uri
    && s'.flush.Flushing? && s'.flush.current == Uploading(s.flush.current.item, s.flush.current.left[1..])
    && s'.filed == s.filed && s'.given == s.given && s'.settled == s.settled + {(id, uri)}
    && s'.queue == Updated(s.queue, id, WithoutPhoto(uri))
  }

  lemma SettlingKeepsPhotos(s: Sys, s': Sys, id: nat, uri: nat, x: Item, photos: seq<nat>)
    requires Settles(s, s', id, uri) && EntryFits(s, x)
    requires photos == if x.tempId == id then Without(x.photos, uri) else x.photos
    ensures forall p :: p in photos <==> Unsettled(s', x.tempId, p)
  {
    forall p
      ensures p in photos <==> Unsettled(s', x.tempId, p)
    {
      WithoutIff(x.photos, uri, p);
      assert p in x.photos <==> Unsettled(s, x.tempId, p);
    }
  }

  lemma SettlingKeepsEntry(s: Sys, s': Sys, id: nat, uri: nat, y: Item)
    requires Settles(s, s', id, uri) && (forall x :: x in s.queue ==> EntryFits(s, x)) && y in s'.queue
    ensures EntryFits(s', y)
  {
    UpdatedItems(s.queue, id, WithoutPhoto(uri));
    var x :| x in s.queue && y == if x.tempId == id then WithoutPhoto(uri)(x) else x;
    SettlingKeepsPhotos(s, s', id, uri, x, y.photos);
  }

  lemma SettlingKeepsHand(s: Sys, s': Sys, id: nat, uri: nat)
    requires Settles(s, s', id, uri) && HandFits(s)
    ensures HandFits(s')
  {
    forall p | Unsettled(s', id, p)
      ensures p in s'.flush.current.left
    {
      assert Unsettled(s, id, p) && p != uri;
      assert s.flush.current.left == [uri] + s'.flush.current.left;
    }
  }

  lemma CompleteKeeps(s: Sys)
    requires Inv(s) && PhotoInv(s) && Enabled(s, Complete)
    ensures PhotoInv(Next(s, Complete))
  {
    var s', id := Next(s, Complete), s.flush.current.item.tempId;
    DequeuedItems(s.queue, id);
    LeavingKeeps(s, s'.(sent := s.sent));
    forall i | i in s'.sent
      ensures SentFits(s', i)
    {
      if i == id {
        assert forall p :: p in s.filed[id].photos && (id, p) !in s.settled ==> Unsettled(s, id, p);
      } else {
        assert SentFits(s, i);
      }
    }
    assert forall x :: EntryFits(s'.(sent := s.sent), x) ==> EntryFits(s', x) by {
      forall x | EntryFits(s'.(sent := s.sent), x)
        ensures EntryFits(s', x)
      {
        assert forall p :: Unsettled(s', x.tempId, p) <==> Unsettled(s'.(sent := s.sent), x.tempId, p);
      }
    }
  }

  lemma NextKeepsPhotos(s: Sys, step: Step)
    requires Inv(s) && PhotoInv(s) && Enabled(s, step)
    ensures PhotoInv(Next(s, step))
  {
    if step.Enqueue? {
      EnqueueKeeps(s, step.item);
    } else if step.TakeUp? {
      TakeUpKeeps(s, step.online);
    } else if step.CreateReturns? {
      CreateReturnsKeeps(s, step.outcome);
    } else if step.Mark? {
      MarkKeeps(s);
    } else if step.PhotoReturns? && !step.photo.Retryable? {
      SettlingKeeps(s, step.photo);
    } else if step.PhotoReturns? {
      FailingKeeps(s, Next(s, step));
    } else if step.Complete? {
      CompleteKeeps(s);
    } else {
      LeavingKeeps(s, Next(s, step));
    }
  }

  lemma CreateReturnsKeeps(s: Sys, outcome: CreateOutcome)
    requires Inv(s) && PhotoInv(s) && Enabled(s, CreateReturns(outcome))
    ensures PhotoInv(Next(s, CreateReturns(outcome)))
  {
    match outcome
    case Created(serverId) => CreatedKeeps(s, serverId);
    case Refused =>
      DequeuedItems(s.queue, s.flush.current.item.tempId);
      LeavingKeeps(s, Next(s, CreateReturns(outcome)));
    case CreateFailed => FailingKeeps(s, Next(s, CreateReturns(outcome)));
    case Lost => FailingKeeps(s, Next(s, CreateReturns(outcome)));
  }

  lemma {:induction false} EveryRunKeepsPhotos(states: seq<Sys>, steps: seq<Step>, k: nat)
    requires IsRun(states, steps) && k < |states|
    ensures PhotoInv(states[k])
  {
    if k > 0 {
      EveryRunKeepsPhotos(states, steps, k - 1);
      EveryRunKeepsInv(states, steps, k - 1);
      NextKeepsPhotos(states[k - 1], steps[k - 1]);
      assert states[k - 1 + 1] == Next(states[k - 1], steps[k - 1]);
    }
  }

  /** In every run a queued report still lists exactly the photos that are neither uploaded nor impossible to upload. */
  lemma PhotosAreKept(states: seq<Sys>, steps: seq<Step>, k: nat, x: Item, p: nat)
    requires IsRun(states, steps) && k < |states| && x in states[k].queue
    ensures x.tempId in states[k].filed
    ensures p in x.photos <==> p in states[k].filed[x.tempId].photos && (x.tempId, p) !in states[k].settled
  {
    EveryRunKeepsPhotos(states, steps, k);
    assert EntryFits(states[k], x);
    assert p in x.photos <==> Unsettled(states[k], x.tempId, p);
  }

  /** A report counts as sent only when every one of its photos has been settled. */
  lemma SentWithItsPhotos(states: seq<Sys>, steps: seq<Step>, k: nat, id: nat, p: nat)
    requires IsRun(states, steps) && k < |states| && id in states[k].sent
    ensures id in states[k].filed && (p in states[k].filed[id].photos ==> (id, p) in states[k].settled)
  {
    EveryRunKeepsPhotos(states, steps, k);
    assert SentFits(states[k], id);
  }

  /** Between flushes an entry has the server id it was queued with, or else the one the server told, if it has. */
  lemma ServerIdIsKept(states: seq<Sys>, steps: seq<Step>, k: nat, x: Item)
    requires IsRun(states, steps) && k < |states| && x in states[k].queue && states[k].flush.Idle?
    ensures x.tempId in states[k].filed
    ensures var (filed, given) := (states[k].filed[x.tempId].serverId, states[k].given);
            x.serverId == if filed.Some? then filed
                          else if x.tempId in given then Some(given[x.tempId]) else None
  {
    EveryRunKeepsPhotos(states, steps, k);
    assert EntryFits(states[k], x);
  }

  // ---------------------------------------------------------------- what the records mean

  /** A photo is settled exactly by an answer that it was uploaded or never can be, for the report in hand. */
  lemma SettledByAnswer(s: Sys, photo: PhotoOutcome)
    requires Enabled(s, PhotoReturns(photo))
    ensures Next(s, PhotoReturns(photo)).settled
         == s.settled + if photo.Retryable? then {} else {(s.flush.current.item.tempId, s.flush.current.left[0])}
  {
  }

  lemma NothingElseSettles(s: Sys, step: Step)
    requires Enabled(s, step) && !step.PhotoReturns?
    ensures Next(s, step).settled == s.settled
  {
  }

  /** What is filed is what was queued, and never changes. */
  lemma FiledAsQueued(s: Sys, step: Step, id: nat)
    requires Enabled(s, step)
    ensures if step.Enqueue? && step.item.tempId == id
            then id in Next(s, step).filed && Next(s, step).filed[id] == step.item
            else (id in Next(s, step).filed <==> id in s.filed)
                 && (id in s.filed ==> Next(s, step).filed[id] == s.filed[id])
  {
  }

  /** New reports go to the end of the queue, and the others keep their order. */
  lemma QueuedAtTheEnd(s: Sys, item: Item)
    requires Enabled(s, Enqueue(item))
    ensures Next(s, Enqueue(item)).queue == s.queue + [item]
  {
  }
}
