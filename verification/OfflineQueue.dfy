/** The mobile app's offline report queue and its flush. */
module OfflineQueue {
  // The queue is src/storage/reportQueue.ts, the flush src/sync/flushReportQueue.ts and src/photos/upload.ts. Each
  // queue operation is atomic and succeeds; reports may be queued between any two steps.

  import opened Prelude

  const MAX_RETRIES: nat := 3

  /** photos are the files still to be uploaded; serverId is set once the report exists on the server. */
  datatype Item = Item(tempId: nat, retryCount: nat, photos: seq<nat>, serverId: Option<nat>)

  // ---------------------------------------------------------------- queue operations

  function Dequeued(queue: seq<Item>, id: nat): seq<Item> {
    if queue == [] then []
    else
      var n := |queue| - 1;
      Dequeued(queue[..n], id) + if queue[n].tempId == id then [] else [queue[n]]
  }

  /** Exactly the items with that id leave. */
  lemma {:induction false} DequeuedItems(queue: seq<Item>, id: nat)
    ensures forall x :: x in Dequeued(queue, id) <==> x in queue && x.tempId != id
  {
    if queue != [] {
      DequeuedItems(queue[..|queue| - 1], id);
      assert queue == queue[..|queue| - 1] + [queue[|queue| - 1]];
    }
  }

  function Updated(queue: seq<Item>, id: nat, update: Item -> Item): (r: seq<Item>)
    ensures |r| == |queue|
    ensures forall i :: 0 <= i < |queue| ==> r[i] == if queue[i].tempId == id then update(queue[i]) else queue[i]
  {
    seq(|queue|, i requires 0 <= i < |queue| => if queue[i].tempId == id then update(queue[i]) else queue[i])
  }

  function Retried(x: Item): Item {
    x.(retryCount := x.retryCount + 1)
  }

  function WithServerId(serverId: nat): Item -> Item {
    (x: Item) => x.(serverId := Some(serverId))
  }

  function Without(photos: seq<nat>, uri: nat): seq<nat> {
    if photos == [] then []
    else if photos[0] == uri then Without(photos[1..], uri) else [photos[0]] + Without(photos[1..], uri)
  }

  function WithoutPhoto(uri: nat): Item -> Item {
    (x: Item) => x.(photos := Without(x.photos, uri))
  }

  // ---------------------------------------------------------------- one flush, step by step

  /** Lost is a creation the server made but whose answer never arrived; to the client it looks like CreateFailed. */
  datatype CreateOutcome = Created(serverId: nat) | Refused | CreateFailed | Lost

  /** A report created on the server, and whether the answer was lost. */
  datatype Creation = Creation(id: nat, lost: bool)

  datatype PhotoOutcome = Uploaded | Permanent | Retryable

  /** The item a flush is working on, and which call it is waiting for. */
  datatype Current =
    | Nobody
    | Creating(item: Item)
    | Marking(item: Item, serverId: nat)
    | Uploading(item: Item, left: seq<nat>)

  /** batch are the reports queued when the flush began, rest those it has not reached. */
  datatype Flush = Idle | Flushing(batch: set<nat>, rest: seq<Item>, current: Current)

  /**
   * sent, rejected and exhausted say how reports left the queue; creates logs every creation;
   * turns counts how often a flush took a report up, covered how many whole flushes went past it; filed keeps each
   * report as it was queued, settled the photos that were uploaded or never can be, given the server ids told.
   */
  datatype Sys = Sys(queue: seq<Item>, flush: Flush, known: set<nat>,
                     sent: set<nat>, rejected: set<nat>, exhausted: set<nat>,
                     creates: seq<Creation>, turns: map<nat, nat>, covered: map<nat, nat>,
                     filed: map<nat, Item>, settled: set<(nat, nat)>, given: map<nat, nat>)

  datatype Step =
    | Enqueue(item: Item)
    | Begin
    | TakeUp(online: bool)
    | CreateReturns(outcome: CreateOutcome)
    | Mark
    | PhotoReturns(photo: PhotoOutcome)
    | Complete
    | End

  const EMPTY: Sys := Sys([], Idle, {}, {}, {}, {}, [], map[], map[], map[], {}, map[])

  function TempIds(queue: seq<Item>): set<nat> {
    set x | x in queue :: x.tempId
  }

  predicate Enabled(s: Sys, step: Step) {
    match step
    case Enqueue(item) => item.tempId !in s.known && item.retryCount == 0
    case Begin => s.flush.Idle?
    case TakeUp(_) => s.flush.Flushing? && s.flush.current.Nobody? && s.flush.rest != []
    case CreateReturns(_) => s.flush.Flushing? && s.flush.current.Creating?
    case Mark => s.flush.Flushing? && s.flush.current.Marking?
    case PhotoReturns(_) => s.flush.Flushing? && s.flush.current.Uploading? && s.flush.current.left != []
    case Complete => s.flush.Flushing? && s.flush.current.Uploading? && s.flush.current.left == []
    case End => s.flush.Flushing? && s.flush.current.Nobody? && s.flush.rest == []
  }

  function Get(m: map<nat, nat>, id: nat): nat {
    if id in m then m[id] else 0
  }

  /** A report's turn is over: the flush moves on. */
  function TurnOver(s: Sys, id: nat): Sys
    requires s.flush.Flushing?
  {
    s.(flush := s.flush.(current := Nobody), turns := s.turns[id := Get(s.turns, id) + 1])
  }

  /** It stays queued, with one more retry counted. */
  function TurnFailed(s: Sys, id: nat): Sys
    requires s.flush.Flushing?
  {
    TurnOver(s.(queue := Updated(s.queue, id, Retried)), id)
  }

  function Next(s: Sys, step: Step): Sys
    requires Enabled(s, step)
  {
    match step
    case Enqueue(item) =>
      s.(queue := s.queue + [item], known := s.known + {item.tempId}, filed := s.filed[item.tempId := item])
    case Begin => s.(flush := Flushing(TempIds(s.queue), s.queue, Nobody))
    case TakeUp(online) =>
      var item, rest := s.flush.rest[0], s.flush.rest[1..];
      var s1 := s.(flush := s.flush.(rest := rest));
      if item.retryCount >= MAX_RETRIES
      then TurnOver(s1.(queue := Dequeued(s.queue, item.tempId), exhausted := s.exhausted + {item.tempId}), item.tempId)
      else if !online then s.(flush := Idle)
      else
        s1.(flush := s1.flush.(current := if item.serverId.Some? then Uploading(item, item.photos) else Creating(item)))
    case CreateReturns(outcome) =>
      var item := s.flush.current.item;
      (match outcome
       case Created(serverId) =>
         s.(flush := s.flush.(current := Marking(item, serverId)),
            creates := s.creates + [Creation(item.tempId, false)], given := s.given[item.tempId := serverId])
       case Refused =>
         TurnOver(s.(queue := Dequeued(s.queue, item.tempId), rejected := s.rejected + {item.tempId}), item.tempId)
       case CreateFailed => TurnFailed(s, item.tempId)
       case Lost => TurnFailed(s.(creates := s.creates + [Creation(item.tempId, true)]), item.tempId))
    case Mark =>
      var (item, serverId) := (s.flush.current.item, s.flush.current.serverId);
      s.(queue := Updated(s.queue, item.tempId, WithServerId(serverId)),
          flush := s.flush.(current := Uploading(item, item.photos)))
    case PhotoReturns(photo) =>
      var (item, left) := (s.flush.current.item, s.flush.current.left);
      if photo.Retryable? then TurnFailed(s, item.tempId)
      else s.(queue := Updated(s.queue, item.tempId, WithoutPhoto(left[0])),
              flush := s.flush.(current := Uploading(item, left[1..])),
              settled := s.settled + {(item.tempId, left[0])})
    case Complete =>
      var id := s.flush.current.item.tempId;
      TurnOver(s.(queue := Dequeued(s.queue, id), sent := s.sent + {id}), id)
    case End =>
      s.(flush := Idle, covered := map id | id in s.covered.Keys + s.flush.batch ::
                                     Get(s.covered, id) + if id in s.flush.batch then 1 else 0)
  }

  ghost predicate IsRun(states: seq<Sys>, steps: seq<Step>) {
    && |states| == |steps| + 1
    && states[0] == EMPTY
    && forall i :: 0 <= i < |steps| ==> Enabled(states[i], steps[i]) && states[i + 1] == Next(states[i], steps[i])
  }

  // ---------------------------------------------------------------- the invariant

  ghost predicate Distinct(queue: seq<Item>) {
    forall i, j :: 0 <= i < j < |queue| ==> queue[i].tempId != queue[j].tempId
  }

  /** The flush has yet to finish with id. */
  ghost predicate Ahead(f: Flush, id: nat) {
    f.Flushing? && (id in TempIds(f.rest) || (!f.current.Nobody? && f.current.item.tempId == id))
  }

  /** The report now being sent is queued, began in this batch and has retries left. */
  ghost predicate InHand(s: Sys, id: nat, batch: set<nat>, rest: seq<Item>) {
    && id in TempIds(s.queue) && id in batch && id !in TempIds(rest)
    && (forall x :: x in s.queue && x.tempId == id ==> x.retryCount < MAX_RETRIES)
  }

  /** What the flush has yet to reach is in the queue just as it was when the flush began. */
  ghost predicate FlushInv(s: Sys) {
    s.flush.Flushing? ==>
      && Distinct(s.flush.rest) && (forall x :: x in s.flush.rest ==> x in s.queue)
      && TempIds(s.flush.rest) <= s.flush.batch <= s.known
      && (!s.flush.current.Nobody? ==> InHand(s, s.flush.current.item.tempId, s.flush.batch, s.flush.rest))
  }

  /** Every report ever queued is still queued or has left in exactly one way. */
  ghost predicate Accounted(s: Sys) {
    && s.known == TempIds(s.queue) + s.sent + s.rejected + s.exhausted
    && TempIds(s.queue) !! s.sent !! s.rejected !! s.exhausted
  }

  /** Its creation went through and is just being recorded. */
  ghost predicate BeingMarked(f: Flush, id: nat) {
    f.Flushing? && f.current.Marking? && f.current.item.tempId == id
  }

  /** The client has been told that the report was created. */
  predicate Acknowledged(creates: seq<Creation>, id: nat) {
    Creation(id, false) in creates
  }

  /** Of two creations of one report the answer to the earlier one was lost. */
  ghost predicate TwiceOnlyIfLost(creates: seq<Creation>) {
    forall i, j :: 0 <= i < j < |creates| && creates[i].id == creates[j].id ==> creates[i].lost
  }

  /**
   * A queued report without a server id has no acknowledged creation, save one whose creation is just being recorded.
   */
  ghost predicate CreatedOnce(s: Sys) {
    && TwiceOnlyIfLost(s.creates)
    && (forall c :: c in s.creates ==> c.id in s.known)
    && (forall x :: x in s.queue && x.serverId.None? && Acknowledged(s.creates, x.tempId) ==>
          BeingMarked(s.flush, x.tempId))
    && (s.flush.Flushing? && s.flush.current.Creating? ==> !Acknowledged(s.creates, s.flush.current.item.tempId))
  }

  /** The report has had as many turns as it has retries, and a whole flush gave it one. */
  ghost predicate TurnsFit(s: Sys, x: Item) {
    && x.retryCount == Get(s.turns, x.tempId) && x.retryCount <= MAX_RETRIES
    && Get(s.covered, x.tempId) + (if DoneWith(s.flush, x.tempId) then 1 else 0) <= Get(s.turns, x.tempId)
  }

  ghost predicate TurnsCounted(s: Sys) {
    && (forall x :: x in s.queue ==> TurnsFit(s, x))
    && (forall id :: id in s.turns || id in s.covered ==> id in s.known)
  }

  ghost predicate DoneWith(f: Flush, id: nat) {
    f.Flushing? && id in f.batch && !Ahead(f, id)
  }

  ghost predicate Inv(s: Sys) {
    Distinct(s.queue) && FlushInv(s) && Accounted(s) && CreatedOnce(s) && TurnsCounted(s)
  }

  // ---------------------------------------------------------------- every step keeps it

  lemma SameIdSameItem(queue: seq<Item>, x: Item, y: Item)
    requires Distinct(queue) && x in queue && y in queue && x.tempId == y.tempId
    ensures x == y
  {
  }

  lemma {:induction false} DequeuedIds(queue: seq<Item>, id: nat)
    requires Distinct(queue)
    ensures Distinct(Dequeued(queue, id)) && TempIds(Dequeued(queue, id)) == TempIds(queue) - {id}
  {
    if queue != [] {
      var n := |queue| - 1;
      DequeuedIds(queue[..n], id);
      DequeuedItems(queue[..n], id);
      assert TempIds(queue) == TempIds(queue[..n]) + {queue[n].tempId};
      AppendedIds(Dequeued(queue[..n], id), queue[n]);
    }
  }

  lemma AppendedIds(queue: seq<Item>, x: Item)
    requires Distinct(queue)
    ensures TempIds(queue + [x]) == TempIds(queue) + {x.tempId}
    ensures x.tempId !in TempIds(queue) ==> Distinct(queue + [x])
  {
  }

  lemma UpdatedIds(queue: seq<Item>, id: nat, update: Item -> Item)
    requires forall x :: update(x).tempId == x.tempId
    ensures TempIds(Updated(queue, id, update)) == TempIds(queue)
    ensures Distinct(queue) ==> Distinct(Updated(queue, id, update))
  {
    var r := Updated(queue, id, update);
    assert forall i :: 0 <= i < |queue| ==> r[i].tempId == queue[i].tempId;
    forall x | x in queue
      ensures x.tempId in TempIds(r)
    {
      var i :| 0 <= i < |queue| && queue[i] == x;
      assert r[i] in r;
    }
    forall y | y in r
      ensures y.tempId in TempIds(queue)
    {
      var i :| 0 <= i < |r| && r[i] == y;
      assert queue[i] in queue;
    }
  }

  lemma UpdatedItems(queue: seq<Item>, id: nat, update: Item -> Item)
    requires forall x :: update(x).tempId == x.tempId
    ensures forall x :: x in queue && x.tempId != id ==> x in Updated(queue, id, update)
    ensures forall y :: y in Updated(queue, id, update) ==>
              if y.tempId == id then exists x :: x in queue && x.tempId == id && y == update(x) else y in queue
  {
    var r := Updated(queue, id, update);
    forall x | x in queue && x.tempId != id
      ensures x in r
    {
      var i :| 0 <= i < |queue| && queue[i] == x;
      assert r[i] == x;
    }
  }

  /** The report whose turn it is leaves the queue, in one of the three ways. */
  lemma LeavingKeepsInv(s: Sys, id: nat, s': Sys)
    requires Inv(s) && s.flush.Flushing? && id in TempIds(s.queue)
    requires s'.queue == Dequeued(s.queue, id) && s'.known == s.known && s'.creates == s.creates
             && s'.covered == s.covered
    requires s'.turns == s.turns[id := Get(s.turns, id) + 1]
    requires s'.flush.Flushing? && s'.flush.batch == s.flush.batch && s'.flush.current == Nobody
    requires if s.flush.current.Nobody?
             then s.flush.rest != [] && s.flush.rest[0].tempId == id && s'.flush.rest == s.flush.rest[1..]
             else s.flush.current.item.tempId == id && s'.flush.rest == s.flush.rest
    requires || (s'.sent == s.sent + {id} && s'.rejected == s.rejected && s'.exhausted == s.exhausted)
             || (s'.sent == s.sent && s'.rejected == s.rejected + {id} && s'.exhausted == s.exhausted)
             || (s'.sent == s.sent && s'.rejected == s.rejected && s'.exhausted == s.exhausted + {id})
    ensures Inv(s')
  {
    DequeuedIds(s.queue, id);
    DequeuedItems(s.queue, id);
    if s.flush.current.Nobody? {
      HeadAndRest(s.flush.rest);
    }
    assert forall x :: x in s'.queue ==>
             x in s.queue && x.tempId != id && (Ahead(s'.flush, x.tempId) <==> Ahead(s.flush, x.tempId));
  }

  lemma HeadAndRest(rest: seq<Item>)
    requires rest != [] && Distinct(rest)
    ensures Distinct(rest[1..]) && rest[0].tempId !in TempIds(rest[1..])
    ensures TempIds(rest) == {rest[0].tempId} + TempIds(rest[1..])
  {
    assert rest == [rest[0]] + rest[1..];
  }

  /** The report whose turn it is stays, with one more retry. */
  lemma FailingKeepsInv(s: Sys, id: nat)
    requires Inv(s) && s.flush.Flushing? && !s.flush.current.Nobody? && !s.flush.current.Marking?
             && s.flush.current.item.tempId == id
    ensures Inv(TurnFailed(s, id))
  {
    UpdatedIds(s.queue, id, Retried);
    UpdatedItems(s.queue, id, Retried);
    FailingKeepsTurns(s, id);
  }

  lemma FailingKeepsTurns(s: Sys, id: nat)
    requires TurnsCounted(s) && FlushInv(s) && s.flush.Flushing? && !s.flush.current.Nobody?
             && s.flush.current.item.tempId == id
    requires id in s.known
    ensures TurnsCounted(TurnFailed(s, id))
  {
    var s' := TurnFailed(s, id);
    UpdatedItems(s.queue, id, Retried);
    forall y | y in s'.queue
      ensures TurnsFit(s', y)
    {
      var x :| x in s.queue && y == if x.tempId == id then Retried(x) else x;
      assert TurnsFit(s, x);
      assert Ahead(s.flush, id) && (x.tempId != id ==> (Ahead(s'.flush, x.tempId) <==> Ahead(s.flush, x.tempId)));
    }
  }

  /** The current report's queue entry changes, but neither its identity nor its retries. */
  lemma EditingKeepsInv(s: Sys, update: Item -> Item, current: Current)
    requires Inv(s) && s.flush.Flushing? && !s.flush.current.Nobody? && current.Uploading?
             && current.item == s.flush.current.item
    requires forall x :: update(x).tempId == x.tempId && update(x).retryCount == x.retryCount
    requires forall x :: update(x).serverId.None? ==> x.serverId.None? && !s.flush.current.Marking?
    ensures Inv(s.(queue := Updated(s.queue, s.flush.current.item.tempId, update),
                   flush := s.flush.(current := current)))
  {
    UpdatedIds(s.queue, s.flush.current.item.tempId, update);
    UpdatedItems(s.queue, s.flush.current.item.tempId, update);
    EditingKeepsFlush(s, update, current);
    EditingKeepsTurns(s, update, current);
  }

  lemma EditingKeepsFlush(s: Sys, update: Item -> Item, current: Current)
    requires FlushInv(s) && s.flush.Flushing? && !s.flush.current.Nobody? && current.Uploading?
             && current.item == s.flush.current.item
    requires forall x :: update(x).tempId == x.tempId && update(x).retryCount == x.retryCount
    ensures FlushInv(s.(queue := Updated(s.queue, s.flush.current.item.tempId, update),
                        flush := s.flush.(current := current)))
  {
    var id := s.flush.current.item.tempId;
    UpdatedIds(s.queue, id, update);
    UpdatedItems(s.queue, id, update);
    assert InHand(s, id, s.flush.batch, s.flush.rest);
  }

  lemma EditingKeepsTurns(s: Sys, update: Item -> Item, current: Current)
    requires TurnsCounted(s) && s.flush.Flushing? && !s.flush.current.Nobody? && current.Uploading?
             && current.item == s.flush.current.item
    requires forall x :: update(x).tempId == x.tempId && update(x).retryCount == x.retryCount
    ensures TurnsCounted(s.(queue := Updated(s.queue, s.flush.current.item.tempId, update),
                            flush := s.flush.(current := current)))
  {
    var id := s.flush.current.item.tempId;
    var s' := s.(queue := Updated(s.queue, id, update), flush := s.flush.(current := current));
    UpdatedItems(s.queue, id, update);
    forall y | y in s'.queue
      ensures TurnsFit(s', y)
    {
      var x :| x in s.queue && y == if x.tempId == id then update(x) else x;
      assert TurnsFit(s, x);
      assert Ahead(s'.flush, x.tempId) <==> Ahead(s.flush, x.tempId);
    }
  }

  lemma EnqueueKeepsInv(s: Sys, item: Item)
    requires Inv(s) && Enabled(s, Enqueue(item))
    ensures Inv(Next(s, Enqueue(item)))
  {
    AppendedIds(s.queue, item);
    assert item.tempId !in TempIds(s.queue);
    EnqueueKeepsFlush(s, item);
    EnqueueKeepsTurns(s, item);
  }

  lemma EnqueueKeepsFlush(s: Sys, item: Item)
    requires FlushInv(s) && item.tempId !in s.known
    ensures FlushInv(s.(queue := s.queue + [item], known := s.known + {item.tempId}))
  {
    assert TempIds(s.queue + [item]) == TempIds(s.queue) + {item.tempId};
  }

  lemma EnqueueKeepsTurns(s: Sys, item: Item)
    requires TurnsCounted(s) && FlushInv(s) && item.tempId !in s.known && item.retryCount == 0
    ensures TurnsCounted(s.(queue := s.queue + [item], known := s.known + {item.tempId}))
  {
    var s' := s.(queue := s.queue + [item], known := s.known + {item.tempId});
    forall x | x in s'.queue
      ensures TurnsFit(s', x)
    {
      assert x in s.queue ==> TurnsFit(s, x);
    }
  }

  lemma BeginKeepsInv(s: Sys)
    requires Inv(s) && Enabled(s, Begin)
    ensures Inv(Next(s, Begin))
  {
  }

  lemma TakeUpKeepsInv(s: Sys, online: bool)
    requires Inv(s) && Enabled(s, TakeUp(online))
    ensures Inv(Next(s, TakeUp(online)))
  {
    var item := s.flush.rest[0];
    assert item in s.flush.rest && item in s.queue && item.tempId in TempIds(s.queue);
    if item.retryCount >= MAX_RETRIES {
      LeavingKeepsInv(s, item.tempId, Next(s, TakeUp(online)));
    } else if online {
      StartingKeepsInv(s, item, if item.serverId.Some? then Uploading(item, item.photos) else Creating(item));
    }
  }

  lemma StartingKeepsInv(s: Sys, item: Item, current: Current)
    requires Inv(s) && s.flush.Flushing? && s.flush.current.Nobody? && s.flush.rest != [] && s.flush.rest[0] == item
    requires item in s.queue && item.retryCount < MAX_RETRIES
    requires current == Uploading(item, item.photos) || (current == Creating(item) && item.serverId.None?)
    ensures Inv(s.(flush := Flushing(s.flush.batch, s.flush.rest[1..], current)))
  {
    var s' := s.(flush := Flushing(s.flush.batch, s.flush.rest[1..], current));
    HeadAndRest(s.flush.rest);
    forall x | x in s.queue && x.tempId == item.tempId
      ensures x == item
    {
      SameIdSameItem(s.queue, x, item);
    }
    assert forall i :: Ahead(s'.flush, i) <==> Ahead(s.flush, i);
    assert forall x :: x in s.queue ==> TurnsFit(s, x);
  }

  lemma CreateReturnsKeepsInv(s: Sys, outcome: CreateOutcome)
    requires Inv(s) && Enabled(s, CreateReturns(outcome))
    ensures Inv(Next(s, CreateReturns(outcome)))
  {
    var id := s.flush.current.item.tempId;
    match outcome
    case Created(serverId) => CreatedKeepsInv(s, serverId);
    case Refused => RefusedKeepsInv(s);
    case CreateFailed => FailingKeepsInv(s, id);
    case Lost => LostKeepsInv(s);
  }

  lemma RefusedKeepsInv(s: Sys)
    requires Inv(s) && s.flush.Flushing? && s.flush.current.Creating?
    ensures Inv(Next(s, CreateReturns(Refused)))
  {
    assert InHand(s, s.flush.current.item.tempId, s.flush.batch, s.flush.rest);
    LeavingKeepsInv(s, s.flush.current.item.tempId, Next(s, CreateReturns(Refused)));
  }

  lemma LostKeepsInv(s: Sys)
    requires Inv(s) && s.flush.Flushing? && s.flush.current.Creating?
    ensures Inv(Next(s, CreateReturns(Lost)))
  {
    var id := s.flush.current.item.tempId;
    OneMoreCreation(s, true);
    var s1 := s.(creates := s.creates + [Creation(id, true)]);
    assert CreatedOnce(s1);
    assert forall x :: x in s.queue ==> TurnsFit(s, x) && TurnsFit(s1, x);
    FailingKeepsInv(s1, id);
  }

  /** While the report in hand has no acknowledged creation, one more keeps the log in order. */
  lemma OneMoreCreation(s: Sys, lost: bool)
    requires CreatedOnce(s) && FlushInv(s) && s.flush.Flushing? && s.flush.current.Creating?
    ensures var id, creates := s.flush.current.item.tempId, s.creates + [Creation(s.flush.current.item.tempId, lost)];
            && TwiceOnlyIfLost(creates) && (forall c :: c in creates ==> c.id in s.known)
            && (forall x: nat :: Acknowledged(creates, x) <==> Acknowledged(s.creates, x) || (x == id && !lost))
  {
    var id := s.flush.current.item.tempId;
    forall i | 0 <= i < |s.creates| && s.creates[i].id == id
      ensures s.creates[i].lost
    {
      assert s.creates[i] in s.creates && s.creates[i] != Creation(id, false);
    }
    assert InHand(s, id, s.flush.batch, s.flush.rest);
  }

  lemma CreatedKeepsInv(s: Sys, serverId: nat)
    requires Inv(s) && s.flush.Flushing? && s.flush.current.Creating?
    ensures Inv(Next(s, CreateReturns(Created(serverId))))
  {
    OneMoreCreation(s, false);
    var s', id := Next(s, CreateReturns(Created(serverId))), s.flush.current.item.tempId;
    assert forall i :: Ahead(s'.flush, i) <==> Ahead(s.flush, i);
    assert InHand(s, id, s.flush.batch, s.flush.rest);
    assert forall x :: x in s.queue ==> TurnsFit(s, x);
  }

  lemma UploadKeepsInv(s: Sys, step: Step)
    requires Inv(s) && Enabled(s, step) && (step.Mark? || step.PhotoReturns? || step.Complete?)
    ensures Inv(Next(s, step))
  {
    var item := s.flush.current.item;
    match step
    case Mark =>
      EditingKeepsInv(s, WithServerId(s.flush.current.serverId), Uploading(item, item.photos));
    case PhotoReturns(photo) =>
      if photo.Retryable? {
        FailingKeepsInv(s, item.tempId);
      } else {
        EditingKeepsInv(s, WithoutPhoto(s.flush.current.left[0]), Uploading(item, s.flush.current.left[1..]));
      }
    case Complete => LeavingKeepsInv(s, item.tempId, Next(s, step));
  }

  lemma EndKeepsInv(s: Sys)
    requires Inv(s) && Enabled(s, End)
    ensures Inv(Next(s, End))
  {
    var s' := Next(s, End);
    forall x | x in s'.queue
      ensures Get(s'.covered, x.tempId) <= Get(s'.turns, x.tempId)
    {
      assert x.tempId in s.flush.batch ==> DoneWith(s.flush, x.tempId);
    }
  }

  lemma NextKeepsInv(s: Sys, step: Step)
    requires Inv(s) && Enabled(s, step)
    ensures Inv(Next(s, step))
  {
    match step
    case Enqueue(item) => EnqueueKeepsInv(s, item);
    case Begin => BeginKeepsInv(s);
    case TakeUp(online) => TakeUpKeepsInv(s, online);
    case CreateReturns(outcome) => CreateReturnsKeepsInv(s, outcome);
    case Mark => UploadKeepsInv(s, step);
    case PhotoReturns(_) => UploadKeepsInv(s, step);
    case Complete => UploadKeepsInv(s, step);
    case End => EndKeepsInv(s);
  }

  // ---------------------------------------------------------------- theorems over every run

  lemma {:induction false} EveryRunKeepsInv(states: seq<Sys>, steps: seq<Step>, k: nat)
    requires IsRun(states, steps) && k < |states|
    ensures Inv(states[k])
  {
    if k > 0 {
      EveryRunKeepsInv(states, steps, k - 1);
      NextKeepsInv(states[k - 1], steps[k - 1]);
      assert states[k - 1 + 1] == Next(states[k - 1], steps[k - 1]);
    }
  }

  /** How often the report was created on the server. */
  function Made(creates: seq<Creation>, id: nat): nat {
    if creates == [] then 0
    else Made(creates[..|creates| - 1], id) + if creates[|creates| - 1].id == id then 1 else 0
  }

  /** It was created once more after the answer to a creation was lost. */
  ghost predicate SecondAfterLost(creates: seq<Creation>, id: nat) {
    exists i, j :: 0 <= i < j < |creates| && creates[i] == Creation(id, true) && creates[j].id == id
  }

  lemma {:induction false} MadeIff(creates: seq<Creation>, id: nat)
    ensures Made(creates, id) >= 1 <==> exists i :: 0 <= i < |creates| && creates[i].id == id
    ensures Made(creates, id) >= 2 <==>
            exists i, j :: 0 <= i < j < |creates| && creates[i].id == id && creates[j].id == id
  {
    if creates != [] {
      var n := |creates| - 1;
      MadeIff(creates[..n], id);
      assert forall i :: 0 <= i < n ==> creates[..n][i] == creates[i];
    }
  }

  /**
   * Over any interleaving of flushes and new reports: every report ever queued is still queued or was sent,
   * rejected or dropped after its retries, exactly one of these; and a report is created twice on the server if and
   * only if it was created again after the answer to an earlier creation was lost.
   */
  lemma NothingLostNothingTwice(states: seq<Sys>, steps: seq<Step>, k: nat)
    requires IsRun(states, steps) && k < |states|
    ensures Accounted(states[k])
    ensures forall id :: Made(states[k].creates, id) >= 2 <==> SecondAfterLost(states[k].creates, id)
  {
    EveryRunKeepsInv(states, steps, k);
    forall id: nat
      ensures Made(states[k].creates, id) >= 2 <==> SecondAfterLost(states[k].creates, id)
    {
      TwiceIffLost(states[k].creates, id);
    }
  }

  lemma TwiceIffLost(creates: seq<Creation>, id: nat)
    requires TwiceOnlyIfLost(creates)
    ensures Made(creates, id) >= 2 <==> SecondAfterLost(creates, id)
  {
    MadeIff(creates, id);
    if i, j :| 0 <= i < j < |creates| && creates[i].id == id && creates[j].id == id {
      assert creates[i] == Creation(id, true);
    }
  }

  // ---------------------------------------------------------------- at most three creations

  /** A report that is not known to be created has been created at most once for each retry it has spent. */
  ghost predicate CreationsCounted(s: Sys) {
    && (forall id :: MadeFits(s.creates, s.known, id))
    && (forall x :: x in s.queue ==> PaidFor(s, x))
    && (s.flush.Flushing? && s.flush.current.Creating? ==>
          forall x :: x in s.queue && x.tempId == s.flush.current.item.tempId ==> x.serverId.None?)
  }

  ghost predicate MadeFits(creates: seq<Creation>, known: set<nat>, id: nat) {
    Made(creates, id) <= MAX_RETRIES && (Made(creates, id) > 0 ==> id in known)
  }

  ghost predicate PaidFor(s: Sys, x: Item) {
    x.serverId.None? && !BeingMarked(s.flush, x.tempId) ==> Made(s.creates, x.tempId) <= x.retryCount
  }

  lemma MadeMore(creates: seq<Creation>, c: Creation, id: nat)
    ensures Made(creates + [c], id) == Made(creates, id) + if c.id == id then 1 else 0
  {
    assert (creates + [c])[..|creates|] == creates;
  }

  /** While a report is being created its entry has fewer retries than creations allowed. */
  lemma CreatingHasRoom(s: Sys)
    requires FlushInv(s) && CreationsCounted(s) && s.flush.Flushing? && s.flush.current.Creating?
    ensures Made(s.creates, s.flush.current.item.tempId) < MAX_RETRIES && s.flush.current.item.tempId in s.known
  {
    var id := s.flush.current.item.tempId;
    assert InHand(s, id, s.flush.batch, s.flush.rest);
    var x :| x in s.queue && x.tempId == id;
    assert PaidFor(s, x);
  }

  lemma CreateReturnsKeepsCount(s: Sys, outcome: CreateOutcome)
    requires Inv(s) && CreationsCounted(s) && Enabled(s, CreateReturns(outcome))
    ensures CreationsCounted(Next(s, CreateReturns(outcome)))
  {
    CreatingHasRoom(s);
    if outcome.Refused? {
      RefusedKeepsCount(s);
    } else if outcome.CreateFailed? {
      assert forall x: nat :: AtMostOneMore(s.creates, s.creates, s.flush.current.item.tempId, x);
      FailedKeepsCount(s, s.creates);
    } else {
      MadeKeepsCount(s, outcome);
    }
  }

  lemma RefusedKeepsCount(s: Sys)
    requires CreationsCounted(s) && s.flush.Flushing? && s.flush.current.Creating?
    ensures CreationsCounted(Next(s, CreateReturns(Refused)))
  {
    var s' := Next(s, CreateReturns(Refused));
    DequeuedItems(s.queue, s.flush.current.item.tempId);
    forall y | y in s'.queue
      ensures PaidFor(s', y)
    {
      assert PaidFor(s, y);
    }
  }

  lemma MadeKeepsCount(s: Sys, outcome: CreateOutcome)
    requires CreationsCounted(s) && Enabled(s, CreateReturns(outcome)) && (outcome.Created? || outcome.Lost?)
    requires Made(s.creates, s.flush.current.item.tempId) < MAX_RETRIES && s.flush.current.item.tempId in s.known
    ensures CreationsCounted(Next(s, CreateReturns(outcome)))
  {
    var c := Creation(s.flush.current.item.tempId, outcome.Lost?);
    OneMoreMade(s.creates, c);
    assert AtMostOneMore(s.creates, s.creates + [c], c.id, c.id);
    if outcome.Created? {
      CreatedKeepsCount(s, outcome.serverId, s.creates + [c]);
    } else {
      FailedKeepsCount(s, s.creates + [c]);
    }
  }

  /** At most one more creation of the report id, and none of another. */
  ghost predicate AtMostOneMore(creates: seq<Creation>, creates': seq<Creation>, id: nat, x: nat) {
    Made(creates, x) <= Made(creates', x) <= Made(creates, x) + if x == id then 1 else 0
  }

  lemma OneMoreMade(creates: seq<Creation>, c: Creation)
    ensures forall x :: AtMostOneMore(creates, creates + [c], c.id, x)
  {
    forall x: nat
      ensures AtMostOneMore(creates, creates + [c], c.id, x)
    {
      MadeMore(creates, c, x);
    }
  }

  lemma CreatedKeepsCount(s: Sys, serverId: nat, creates: seq<Creation>)
    requires CreationsCounted(s) && s.flush.Flushing? && s.flush.current.Creating?
    requires s.flush.current.item.tempId in s.known
    requires Made(creates, s.flush.current.item.tempId) <= MAX_RETRIES
    requires forall x :: AtMostOneMore(s.creates, creates, s.flush.current.item.tempId, x)
    ensures CreationsCounted(s.(flush := s.flush.(current := Marking(s.flush.current.item, serverId)),
                                creates := creates))
  {
    var id := s.flush.current.item.tempId;
    var s' := s.(flush := s.flush.(current := Marking(s.flush.current.item, serverId)), creates := creates);
    forall y | y in s'.queue
      ensures PaidFor(s', y)
    {
      assert PaidFor(s, y) && AtMostOneMore(s.creates, creates, id, y.tempId);
    }
    forall x: nat
      ensures MadeFits(creates, s.known, x)
    {
      assert AtMostOneMore(s.creates, creates, id, x) && MadeFits(s.creates, s.known, x);
    }
  }

  lemma FailedKeepsCount(s: Sys, creates: seq<Creation>)
    requires CreationsCounted(s) && s.flush.Flushing? && s.flush.current.Creating?
    requires s.flush.current.item.tempId in s.known
    requires Made(creates, s.flush.current.item.tempId) <= MAX_RETRIES
    requires forall x :: AtMostOneMore(s.creates, creates, s.flush.current.item.tempId, x)
    ensures CreationsCounted(TurnFailed(s.(creates := creates), s.flush.current.item.tempId))
  {
    var id := s.flush.current.item.tempId;
    var s' := TurnFailed(s.(creates := creates), id);
    UpdatedItems(s.queue, id, Retried);
    forall y | y in s'.queue
      ensures PaidFor(s', y)
    {
      var x :| x in s.queue && y == if x.tempId == id then Retried(x) else x;
      assert PaidFor(s, x) && AtMostOneMore(s.creates, creates, id, x.tempId);
    }
    forall x: nat
      ensures MadeFits(creates, s.known, x)
    {
      assert AtMostOneMore(s.creates, creates, id, x) && MadeFits(s.creates, s.known, x);
    }
  }

  lemma EditingKeepsCount(s: Sys, s': Sys)
    requires CreationsCounted(s) && s'.creates == s.creates && s'.known == s.known
    requires s'.flush.Flushing? ==> !s'.flush.current.Creating?
    requires forall y :: y in s'.queue ==> PaidFrom(s, y)
    ensures CreationsCounted(s')
  {
    forall y | y in s'.queue
      ensures PaidFor(s', y)
    {
      assert PaidFrom(s, y);
      if y.serverId.None? {
        var x :| x in s.queue && x.tempId == y.tempId && x.serverId.None? && x.retryCount <= y.retryCount
                 && !BeingMarked(s.flush, x.tempId);
        assert PaidFor(s, x);
      }
    }
  }

  /** The entry has its server id, or comes from one that had as few retries and was not being marked. */
  ghost predicate PaidFrom(s: Sys, y: Item) {
    || y.serverId.Some?
    || exists x :: x in s.queue && x.tempId == y.tempId && x.serverId.None? && x.retryCount <= y.retryCount
                   && !BeingMarked(s.flush, x.tempId)
  }


  lemma EnqueueKeepsCount(s: Sys, item: Item)
    requires CreationsCounted(s) && Enabled(s, Enqueue(item))
    requires FlushInv(s)
    ensures CreationsCounted(Next(s, Enqueue(item)))
  {
    var s' := Next(s, Enqueue(item));
    assert s.flush.Flushing? && s.flush.current.Creating? ==>
             InHand(s, s.flush.current.item.tempId, s.flush.batch, s.flush.rest);
    assert MadeFits(s.creates, s.known, item.tempId);
    MoreKnown(s.creates, s.known, s'.known);
    forall y | y in s'.queue
      ensures PaidFor(s', y)
    {
      assert y in s.queue ==> PaidFor(s, y);
    }
  }

  lemma MoreKnown(creates: seq<Creation>, known: set<nat>, known': set<nat>)
    requires known <= known' && forall id :: MadeFits(creates, known, id)
    ensures forall id :: MadeFits(creates, known', id)
  {
    forall id: nat
      ensures MadeFits(creates, known', id)
    {
      assert MadeFits(creates, known, id);
    }
  }

  lemma TakeUpKeepsCount(s: Sys, online: bool)
    requires Inv(s) && CreationsCounted(s) && Enabled(s, TakeUp(online))
    ensures CreationsCounted(Next(s, TakeUp(online)))
  {
    var s', item := Next(s, TakeUp(online)), s.flush.rest[0];
    assert item in s.flush.rest;
    DequeuedItems(s.queue, item.tempId);
    forall x | x in s.queue && x.tempId == item.tempId
      ensures x == item
    {
      SameIdSameItem(s.queue, x, item);
    }
    forall y | y in s'.queue
      ensures PaidFor(s', y)
    {
      assert PaidFor(s, y);
    }
  }

  lemma UploadKeepsCount(s: Sys, step: Step)
    requires Inv(s) && CreationsCounted(s) && Enabled(s, step)
    requires step.Mark? || step.PhotoReturns? || step.Complete? || step.Begin? || step.End?
    ensures CreationsCounted(Next(s, step))
  {
    var s' := Next(s, step);
    if step.Complete? {
      DequeuedItems(s.queue, s.flush.current.item.tempId);
    }
    forall y | y in s'.queue
      ensures PaidFrom(s, y)
    {
      if step.Mark? {
        UpdatedItems(s.queue, s.flush.current.item.tempId, WithServerId(s.flush.current.serverId));
      } else if step.PhotoReturns? && step.photo.Retryable? {
        UpdatedItems(s.queue, s.flush.current.item.tempId, Retried);
      } else if step.PhotoReturns? {
        UpdatedItems(s.queue, s.flush.current.item.tempId, WithoutPhoto(s.flush.current.left[0]));
      }
    }
    EditingKeepsCount(s, s');
  }

  /** No report is created more than three times, however many answers are lost. */
  lemma {:induction false} AtMostThreeCreations(states: seq<Sys>, steps: seq<Step>, k: nat, id: nat)
    requires IsRun(states, steps) && k < |states|
    ensures CreationsCounted(states[k]) && Made(states[k].creates, id) <= MAX_RETRIES
  {
    if k > 0 {
      AtMostThreeCreations(states, steps, k - 1, id);
      EveryRunKeepsInv(states, steps, k - 1);
      assert states[k - 1 + 1] == Next(states[k - 1], steps[k - 1]);
      NextKeepsCount(states[k - 1], steps[k - 1]);
    }
    assert MadeFits(states[k].creates, states[k].known, id);
  }

  lemma NextKeepsCount(s: Sys, step: Step)
    requires Inv(s) && CreationsCounted(s) && Enabled(s, step)
    ensures CreationsCounted(Next(s, step))
  {
    if step.CreateReturns? {
      CreateReturnsKeepsCount(s, step.outcome);
    } else if step.Enqueue? {
      EnqueueKeepsCount(s, step.item);
    } else if step.TakeUp? {
      TakeUpKeepsCount(s, step.online);
    } else {
      UploadKeepsCount(s, step);
    }
  }

  lemma Extended(states: seq<Sys>, steps: seq<Step>, step: Step) returns (states': seq<Sys>, steps': seq<Step>)
    requires IsRun(states, steps) && Enabled(states[|steps|], step)
    ensures IsRun(states', steps') && steps' == steps + [step] && states'[|steps'|] == Next(states[|steps|], step)
  {
    states', steps' := states + [Next(states[|steps|], step)], steps + [step];
  }

  /** One flush of a queue with just this report, which the server creates; the answer is lost. */
  lemma LostOnce(states: seq<Sys>, steps: seq<Step>, n: nat) returns (states': seq<Sys>, steps': seq<Step>)
    requires IsRun(states, steps) && states[|steps|].flush.Idle? && n < MAX_RETRIES
    requires states[|steps|].queue == [Item(0, n, [], None)]
    ensures IsRun(states', steps') && states'[|steps'|].flush.Idle?
    ensures states'[|steps'|].queue == [Item(0, n + 1, [], None)]
    ensures states'[|steps'|].creates == states[|steps|].creates + [Creation(0, true)]
  {
    states', steps' := Extended(states, steps, Begin);
    states', steps' := Extended(states', steps', TakeUp(true));
    states', steps' := Extended(states', steps', CreateReturns(Lost));
    states', steps' := Extended(states', steps', End);
  }

  /** The bound is reached: if every answer is lost the report is created three times. */
  lemma ThreeAnswersLost() returns (states: seq<Sys>, steps: seq<Step>)
    ensures IsRun(states, steps)
    ensures states[|steps|].creates == [Creation(0, true), Creation(0, true), Creation(0, true)]
    ensures SecondAfterLost(states[|steps|].creates, 0)
  {
    states, steps := Extended([EMPTY], [], Enqueue(Item(0, 0, [], None)));
    states, steps := LostOnce(states, steps, 0);
    states, steps := LostOnce(states, steps, 1);
    states, steps := LostOnce(states, steps, 2);
    var creates := states[|steps|].creates;
    assert creates[0] == Creation(0, true) && creates[1].id == 0;
  }

  /** A report is gone once four flushes that began with it queued have run to their end. */
  lemma GoneAfterFourFlushes(states: seq<Sys>, steps: seq<Step>, k: nat, id: nat)
    requires IsRun(states, steps) && k < |states|
    requires id in states[k].known && Get(states[k].covered, id) >= 4
    ensures id !in TempIds(states[k].queue)
    ensures id in states[k].sent + states[k].rejected + states[k].exhausted
  {
    EveryRunKeepsInv(states, steps, k);
    assert forall x :: x in states[k].queue ==> Get(states[k].covered, x.tempId) <= MAX_RETRIES;
  }

  // ---------------------------------------------------------------- when two queue operations overlap

  /**
   * Each queue operation reads the stored queue, waits, and writes its change of what it read. What is stored after
   * one has read at r and written at w, and the other at r' and w'.
   */
  function AfterBoth(queue: seq<Item>, change: seq<Item> -> seq<Item>, r: int, w: int,
                     change': seq<Item> -> seq<Item>, r': int, w': int): seq<Item>
  {
    if w < w' then change'(if w < r' then change(queue) else queue)
    else change(if w' < r then change'(queue) else queue)
  }

  /** Queueing one report while another leaves works exactly if one operation ends before the other reads. */
  lemma OverlapLosesAnUpdateIff(queue: seq<Item>, item: Item, r: int, w: int, id: nat, r': int, w': int)
    requires r < w && r' < w' && w != w' && w != r' && w' != r
    requires id in TempIds(queue) && item.tempId !in TempIds(queue)
    ensures var after := AfterBoth(queue, q => q + [item], r, w, q => Dequeued(q, id), r', w');
            item in after && id !in TempIds(after) <==> w < r' || w' < r
  {
    var x :| x in queue && x.tempId == id;
    assert x in queue + [item] && item in queue + [item];
    DequeuedItems(queue, id);
    DequeuedItems(queue + [item], id);
  }

  // ---------------------------------------------------------------- the queue and the flush as the code runs them

  /** A report as the user files it: its photos, and its id on the server if it has been created there. */
  datatype NewReport = NewReport(photos: seq<nat>, serverId: Option<nat>)

  /**
   * How the network answers during one flush, by report and photo, and what the user files meanwhile: arrives(n)
   * are the reports queued while the code waits for the n-th time.
   */
  datatype World = World(online: nat -> bool, create: nat -> CreateOutcome, photo: (nat, nat) -> PhotoOutcome,
                         arrives: nat -> seq<NewReport>)

  /** Each of the report's photos is uploaded, or never can be. */
  ghost predicate PhotosSettle(w: World, item: Item) {
    forall p :: p in item.photos ==> !w.photo(item.tempId, p).Retryable?
  }

  /** What one request for the report adds to the log of creations. */
  function Logged(item: Item, w: World): seq<Creation> {
    match w.create(item.tempId)
    case Created(_) => [Creation(item.tempId, false)]
    case Lost => [Creation(item.tempId, true)]
    case _ => []
  }

  /** These steps lead from the empty queue to s. */
  ghost predicate Reached(s: Sys, trace: seq<Step>)
    decreases |trace|
  {
    if trace == [] then s == EMPTY
    else
      var n := |trace| - 1;
      exists before :: Reached(before, trace[..n]) && Enabled(before, trace[n]) && s == Next(before, trace[n])
  }

  lemma OneMoreStep(s: Sys, trace: seq<Step>, step: Step)
    requires Reached(s, trace) && Enabled(s, step)
    ensures Reached(Next(s, step), trace + [step])
  {
    assert (trace + [step])[..|trace|] == trace;
  }

  lemma {:induction false} ReachedIsSound(s: Sys, trace: seq<Step>)
    requires Reached(s, trace)
    ensures Inv(s)
    decreases |trace|
  {
    if trace != [] {
      var n := |trace| - 1;
      var before :| Reached(before, trace[..n]) && Enabled(before, trace[n]) && s == Next(before, trace[n]);
      ReachedIsSound(before, trace[..n]);
      NextKeepsInv(before, trace[n]);
    }
  }

  /** The same reports count as sent and dropped, and the same flushes as completed. */
  ghost predicate SameTallies(a: Sys, b: Sys) {
    a.sent == b.sent && a.exhausted == b.exhausted && a.covered == b.covered
  }

  datatype Turn = Sent | Failed | Dropped | Offline

  class ReportQueue {
    var queue: seq<Item>
    var flush: Flush
    var nextId: nat
    var waits: nat
    ghost var log: Sys
    ghost var trace: seq<Step>

    /**
     * log adds the bookkeeping the theorems speak of to the real queue and flush, and trace is the run that led to
     * it; temporary ids are not reused.
     */
    ghost predicate Valid()
      reads this
    {
      && Reached(log, trace) && log.queue == queue && log.flush == flush
      && forall id :: id in log.known ==> id < nextId
    }

    ghost method Do(step: Step)
      requires Reached(log, trace) && Enabled(log, step)
      modifies this`log, this`trace
      ensures Reached(log, trace) && log == Next(old(log), step) && trace == old(trace) + [step]
    {
      OneMoreStep(log, trace, step);
      log, trace := Next(log, step), trace + [step];
    }

    constructor ()
      ensures Valid() && log == EMPTY
    {
      queue, flush, nextId, waits, log, trace := [], Idle, 0, 0, EMPTY, [];
    }

    method EnqueueReport(report: NewReport) returns (item: Item)
      requires Valid()
      modifies this`queue, this`nextId, this`log, this`trace
      ensures item == Item(old(nextId), 0, report.photos, report.serverId) && Enabled(old(log), Enqueue(item))
      ensures Valid() && log == Next(old(log), Enqueue(item))
    {
      item := Item(nextId, 0, report.photos, report.serverId);
      Do(Enqueue(item));
      queue, nextId := queue + [item], nextId + 1;
    }

    /** Other code runs while the flush waits: reports may be queued, at the end. */
    method Await(w: World)
      requires Valid()
      modifies this`queue, this`nextId, this`waits, this`log, this`trace
      ensures Valid() && old(queue) <= queue && |queue| == |old(queue)| + |w.arrives(old(waits))|
      ensures SameTallies(log, old(log)) && log.creates == old(log.creates)
    {
      var reports := w.arrives(waits);
      waits := waits + 1;
      for i := 0 to |reports|
        invariant Valid() && old(queue) <= queue && |queue| == |old(queue)| + i
        invariant SameTallies(log, old(log)) && log.creates == old(log.creates)
      {
        var _ := EnqueueReport(reports[i]);
      }
    }

    method DequeueReport(id: nat)
      modifies this`queue
      ensures queue == Dequeued(old(queue), id)
    {
      var kept: seq<Item> := [];
      for i := 0 to |queue|
        invariant queue == old(queue) && kept == Dequeued(queue[..i], id)
      {
        assert queue[..i + 1][..i] == queue[..i];
        if queue[i].tempId != id {
          kept := kept + [queue[i]];
        }
      }
      assert queue[..|queue|] == queue;
      queue := kept;
    }

    method UpdateItem(id: nat, update: Item -> Item)
      modifies this`queue
      ensures queue == Updated(old(queue), id, update)
    {
      var changed: seq<Item> := [];
      for i := 0 to |queue|
        invariant queue == old(queue) && |changed| == i
        invariant forall j :: 0 <= j < i ==> changed[j] == if queue[j].tempId == id then update(queue[j]) else queue[j]
      {
        changed := changed + [if queue[i].tempId == id then update(queue[i]) else queue[i]];
      }
      queue := changed;
    }

    method DropItem(item: Item)
      requires Valid() && flush.Flushing? && flush.current.Nobody? && flush.rest != [] && flush.rest[0] == item
      requires item.retryCount >= MAX_RETRIES
      modifies this
      ensures Valid() && log == Next(old(log), TakeUp(true)) == Next(old(log), TakeUp(false))
      ensures flush == Flushing(old(flush.batch), old(flush.rest)[1..], Nobody)
      ensures log.sent == old(log.sent) && log.covered == old(log.covered)
      ensures |log.exhausted| == |old(log.exhausted)| + 1
    {
      assert item.tempId !in log.exhausted by {
        ReachedIsSound(log, trace);
        assert item in queue && item.tempId in TempIds(queue) && Accounted(log);
      }
      Do(TakeUp(true));
      flush := flush.(rest := flush.rest[1..], current := Nobody);
      DequeueReport(item.tempId);
    }

    /** A report's turn begins if the app is online; otherwise the flush ends here. */
    method StartTurn(item: Item, w: World) returns (online: bool)
      requires Valid() && flush.Flushing? && flush.current.Nobody? && flush.rest != [] && flush.rest[0] == item
      requires item.retryCount < MAX_RETRIES
      modifies this
      ensures Valid() && online == w.online(item.tempId) && log == Next(old(log), TakeUp(online))
      ensures queue == old(queue) && SameTallies(log, old(log))
      ensures flush == if !online then Idle
                       else Flushing(old(flush.batch), old(flush.rest)[1..],
                                     if item.serverId.Some? then Uploading(item, item.photos) else Creating(item))
    {
      online := w.online(item.tempId);
      Do(TakeUp(online));
      if !online {
        flush := Idle;
      } else {
        flush := flush.(rest := flush.rest[1..],
                        current := if item.serverId.Some? then Uploading(item, item.photos) else Creating(item));
      }
    }

    method UpdateRetryCount(item: Item, ghost step: Step)
      requires Valid() && flush.Flushing? && !flush.current.Nobody? && flush.current.item == item
      requires step == CreateReturns(CreateFailed) || step == CreateReturns(Lost) || step == PhotoReturns(Retryable)
      requires Enabled(log, step)
      modifies this
      ensures Valid() && log == Next(old(log), step)
      ensures flush == old(flush).(current := Nobody) && SameTallies(log, old(log))
    {
      Do(step);
      flush := flush.(current := Nobody);
      UpdateItem(item.tempId, Retried);
    }

    /** Creates the report unless the server already has it; false means it did not get that far. */
    method CreateIfNeeded(item: Item, w: World) returns (ready: bool)
      requires Valid() && flush.Flushing?
               && (flush.current == Creating(item) || flush.current == Uploading(item, item.photos))
      modifies this
      ensures Valid() && flush == old(flush).(current := if ready then Uploading(item, item.photos) else Nobody)
      ensures SameTallies(log, old(log))
      ensures ready <==> old(flush.current.Uploading?) || w.create(item.tempId).Created?
      ensures log.creates == old(log.creates) + if old(flush.current.Creating?) then Logged(item, w) else []
    {
      if flush.current.Uploading? {
        return true;
      }
      Await(w);
      var outcome := w.create(item.tempId);
      match outcome {
        case Created(serverId) =>
          MarkReportCreated(item, serverId);
          return true;
        case Refused =>
          DropRejected(item);
          return false;
        case CreateFailed =>
          UpdateRetryCount(item, CreateReturns(CreateFailed));
          return false;
        case Lost =>
          UpdateRetryCount(item, CreateReturns(Lost));
          return false;
      }
    }

    /** The server has created the report; its id is stored before anything else. */
    method MarkReportCreated(item: Item, serverId: nat)
      requires Valid() && flush.Flushing? && flush.current == Creating(item)
      modifies this
      ensures Valid() && flush == old(flush).(current := Uploading(item, item.photos))
      ensures queue == Updated(old(queue), item.tempId, WithServerId(serverId))
      ensures SameTallies(log, old(log)) && log.creates == old(log.creates) + [Creation(item.tempId, false)]
    {
      Do(CreateReturns(Created(serverId)));
      flush := flush.(current := Marking(item, serverId));
      Do(Mark);
      flush := flush.(current := Uploading(item, item.photos));
      UpdateItem(item.tempId, WithServerId(serverId));
    }

    /** The server will never take the report. */
    method DropRejected(item: Item)
      requires Valid() && flush.Flushing? && flush.current == Creating(item)
      modifies this
      ensures Valid() && flush == old(flush).(current := Nobody) && queue == Dequeued(old(queue), item.tempId)
      ensures log.rejected == old(log.rejected) + {item.tempId}
      ensures SameTallies(log, old(log)) && log.creates == old(log.creates)
    {
      Do(CreateReturns(Refused));
      flush := flush.(current := Nobody);
      DequeueReport(item.tempId);
    }

    /** Uploads photos one at a time, dropping those that never can be; stops at the first that may work later. */
    method UploadReportPhotos(item: Item, w: World) returns (done: bool)
      requires Valid() && flush.Flushing? && flush.current == Uploading(item, item.photos)
      modifies this
      ensures Valid() && flush == old(flush).(current := if done then Uploading(item, []) else Nobody)
      ensures done <==> PhotosSettle(w, item)
      ensures SameTallies(log, old(log)) && log.creates == old(log.creates)
    {
      for i := 0 to |item.photos|
        invariant Valid() && flush == old(flush).(current := Uploading(item, item.photos[i..]))
        invariant forall j :: 0 <= j < i ==> !w.photo(item.tempId, item.photos[j]).Retryable?
        invariant SameTallies(log, old(log)) && log.creates == old(log.creates)
      {
        var uri := item.photos[i];
        assert item.photos[i..] == [uri] + item.photos[i + 1..];
        Await(w);
        var outcome := w.photo(item.tempId, uri);
        if outcome.Retryable? {
          UpdateRetryCount(item, PhotoReturns(Retryable));
          return false;
        }
        PhotoDone(item, uri, item.photos[i + 1..], outcome);
      }
      return true;
    }

    /** Takes a photo that was uploaded, or never can be, off its report. */
    method PhotoDone(item: Item, uri: nat, left: seq<nat>, ghost outcome: PhotoOutcome)
      requires Valid() && flush.Flushing? && flush.current == Uploading(item, [uri] + left) && !outcome.Retryable?
      modifies this
      ensures Valid() && Enabled(old(log), PhotoReturns(outcome)) && log == Next(old(log), PhotoReturns(outcome))
      ensures flush == old(flush).(current := Uploading(item, left))
      ensures SameTallies(log, old(log)) && log.creates == old(log.creates)
    {
      Do(PhotoReturns(outcome));
      flush := flush.(current := Uploading(item, left));
      UpdateItem(item.tempId, WithoutPhoto(uri));
    }

    /** Sends one report: it counts as sent exactly if it exists on the server and no photo has to be tried again. */
    method FlushOne(item: Item, w: World) returns (sent: bool)
      requires Valid() && flush.Flushing?
               && (flush.current == Creating(item) || flush.current == Uploading(item, item.photos))
      modifies this
      ensures Valid() && flush == old(flush).(current := Nobody)
      ensures sent <==> (old(flush.current.Uploading?) || w.create(item.tempId).Created?) && PhotosSettle(w, item)
      ensures log.exhausted == old(log.exhausted) && log.covered == old(log.covered)
      ensures log.sent == if sent then old(log.sent) + {item.tempId} else old(log.sent)
      ensures |log.sent| == |old(log.sent)| + if sent then 1 else 0
    {
      var ready := CreateIfNeeded(item, w);
      if !ready {
        return false;
      }
      var done := UploadReportPhotos(item, w);
      if !done {
        return false;
      }
      SendDone(item);
      return true;
    }

    method SendDone(item: Item)
      requires Valid() && flush.Flushing? && flush.current == Uploading(item, [])
      modifies this
      ensures Valid() && flush == old(flush).(current := Nobody) && queue == Dequeued(old(queue), item.tempId)
      ensures log.exhausted == old(log.exhausted) && log.covered == old(log.covered)
      ensures log.sent == old(log.sent) + {item.tempId} && |log.sent| == |old(log.sent)| + 1
    {
      assert item.tempId !in log.sent by {
        ReachedIsSound(log, trace);
        assert InHand(log, item.tempId, flush.batch, flush.rest) && Accounted(log);
      }
      Do(Complete);
      flush := flush.(current := Nobody);
      DequeueReport(item.tempId);
    }

    method BeginFlush()
      requires Valid() && flush.Idle?
      modifies this
      ensures Valid() && log == Next(old(log), Begin) && queue == old(queue)
      ensures flush == Flushing(TempIds(queue), queue, Nobody) && SameTallies(log, old(log))
    {
      Do(Begin);
      flush := Flushing(TempIds(queue), queue, Nobody);
    }

    method EndFlush()
      requires Valid() && flush.Flushing? && flush.current.Nobody? && flush.rest == []
      modifies this
      ensures Valid() && log == Next(old(log), End)
      ensures flush.Idle? && queue == old(queue)
      ensures log.sent == old(log.sent) && log.exhausted == old(log.exhausted)
      ensures forall id :: id in old(flush.batch) ==> Get(log.covered, id) == Get(old(log.covered), id) + 1
    {
      Do(End);
      flush := Idle;
    }

    /**
     * One whole flush, with whatever is queued meanwhile left for the next one. When the app stays online it goes
     * past every report that was queued, so by GoneAfterFourFlushes four of them empty the queue of those reports.
     */
    method RunFlush(w: World) returns (sent: nat, failed: nat, remaining: nat)
      requires Valid() && flush.Idle?
      modifies this
      ensures Valid() && flush.Idle? && remaining == |queue|
      ensures |log.sent| == |old(log.sent)| + sent
      ensures sent + failed + |log.exhausted| - |old(log.exhausted)| <= |old(queue)|
      ensures (forall id :: id in TempIds(old(queue)) ==> w.online(id)) ==>
                && sent + failed + |log.exhausted| - |old(log.exhausted)| == |old(queue)|
                && forall id :: id in TempIds(old(queue)) ==> Get(log.covered, id) == Get(old(log.covered), id) + 1
    {
      BeginFlush();
      var offlineAt;
      sent, failed, offlineAt := GoThrough(w);
      if offlineAt.None? {
        EndFlush();
      }
      remaining := |queue|;
    }

    /** The loop of runFlush: a turn for each report of the batch, until the app is found to be offline. */
    method GoThrough(w: World) returns (sent: nat, failed: nat, offlineAt: Option<nat>)
      requires Valid() && flush.Flushing? && flush.current.Nobody?
      modifies this
      ensures Valid() && flush == if offlineAt.Some? then Idle else Flushing(old(flush.batch), [], Nobody)
      ensures offlineAt.Some? ==> offlineAt.value in old(flush.batch) && !w.online(offlineAt.value)
      ensures log.covered == old(log.covered) && |log.sent| == |old(log.sent)| + sent
      ensures var turns := sent + failed + |log.exhausted| - |old(log.exhausted)|;
              turns <= |old(flush.rest)| && (offlineAt.None? ==> turns == |old(flush.rest)|)
    {
      sent, failed := 0, 0;
      while flush.rest != []
        invariant Valid() && flush.Flushing? && flush.batch == old(flush.batch) && flush.current.Nobody?
        invariant |flush.rest| <= |old(flush.rest)|
        invariant Tallied(old(log), sent, failed, |old(flush.rest)| - |flush.rest|)
        decreases |flush.rest|
      {
        var item := flush.rest[0];
        assert item.tempId in flush.batch by {
          ReachedIsSound(log, trace);
          assert item in flush.rest && item.tempId in TempIds(flush.rest);
        }
        var turn := TakeTurn(item, w);
        if turn.Offline? {
          return sent, failed, Some(item.tempId);
        }
        if turn.Sent? {
          sent := sent + 1;
        } else if turn.Failed? {
          failed := failed + 1;
        }
      }
      return sent, failed, None;
    }

    /** Since `before` this many reports were sent, failed and dropped, and no flush has ended. */
    ghost predicate Tallied(before: Sys, sent: nat, failed: nat, turns: nat)
      reads this
    {
      && log.covered == before.covered && |log.sent| == |before.sent| + sent
      && sent + failed + |log.exhausted| - |before.exhausted| == turns
    }

    /** One report's turn, from the loop of runFlush. */
    method TakeTurn(item: Item, w: World) returns (turn: Turn)
      requires Valid() && flush.Flushing? && flush.current.Nobody? && flush.rest != [] && flush.rest[0] == item
      modifies this
      ensures Valid()
      ensures flush == if turn.Offline? then Idle else Flushing(old(flush.batch), old(flush.rest)[1..], Nobody)
      ensures log.covered == old(log.covered)
      ensures |log.sent| == |old(log.sent)| + if turn.Sent? then 1 else 0
      ensures |log.exhausted| == |old(log.exhausted)| + if turn.Dropped? then 1 else 0
      ensures turn.Dropped? <==> item.retryCount >= MAX_RETRIES
      ensures turn.Offline? <==> item.retryCount < MAX_RETRIES && !w.online(item.tempId)
    {
      if item.retryCount >= MAX_RETRIES {
        DropItem(item);
        return Dropped;
      }
      Await(w);
      var online := StartTurn(item, w);
      if !online {
        return Offline;
      }
      var ok := FlushOne(item, w);
      return if ok then Sent else Failed;
    }
  }
}
