/**
 * How the mobile client gets a session, shares it and starts over (src/auth/authClient.ts), and that the server honours
 * it: what each stretch does with the session, and what a registration leaves in every run.
 */
module AuthRecovery {
  import opened Prelude
  import opened AuthServer
  import opened AuthClient

  // ---------------------------------------------------------------- one refresh and one registration at a time

  /** Callers share the refresh under way, and one that starts works on the session as it is. */
  lemma CallersShareRefresh(c: Client)
    ensures c.refresh != Idle ==> RefreshCalled(c) == c
    ensures c.refresh == Idle ==> RefreshCalled(c) == Client(c.cached, Read(c.cached), c.register)
  {
  }

  lemma CallersShareRegistration(c: Client)
    ensures c.register != NoRegister ==> RegisterCalled(c) == c
    ensures c.register == NoRegister ==> RegisterCalled(c) == Client(c.cached, c.refresh, RegisterSent)
  {
  }

  /** A session that is there and not expired is kept and its refresh token presented; otherwise it is given up. */
  lemma SessionIsPresentedIff(c: Client, expired: bool)
    requires c.refresh.Read?
    ensures var c' := SessionRead(c, expired);
            && c'.register == c.register
            && (c'.refresh.Sent? <==> c.refresh.current.Some? && !expired)
            && (c'.refresh.Sent? ==> c'.refresh.token == c.refresh.current.value.refresh && c'.cached == c.cached)
            && (!c'.refresh.Sent? ==> c'.refresh == Clearing && c'.cached.None?)
  {
  }

  /** A rotated pair becomes the session, and whatever else the server answers ends it. */
  lemma RotationBecomesSession(c: Client)
    requires c.refresh.Replied?
    ensures var c' := ReplyArrived(c);
            && c'.register == c.register
            && (c.refresh.reply.Rotated? ==> c'.cached == Some(c.refresh.reply.pair) && c'.refresh == Saving)
            && (!c.refresh.reply.Rotated? ==> c'.cached.None? && c'.refresh == Clearing)
  {
  }

  // ---------------------------------------------------------------- a registered session works

  /** The device has the tokens of this pair, unrevoked, and no others. */
  ghost predicate NewRows(tokens: map<nat, Row>, p: Pair) {
    && p.refresh in tokens && tokens[p.refresh] == Row(p.device, Refresh, p.refreshExpiresAt, false)
    && p.access in tokens && tokens[p.access] == Row(p.device, Access, p.accessExpiresAt, false)
    && forall t :: t in tokens && tokens[t].device == p.device ==> t == p.access || t == p.refresh
  }

  /** A registration on its way back is as the server stored it, and nobody has its tokens yet. */
  ghost predicate ReplyIsNew(w: World) {
    w.client.register.RegisterReplied? ==>
      var p := w.client.register.pair;
      && NewRows(w.db.tokens, p)
      && p.access in w.mine && p.refresh in w.mine && p.access !in w.abandoned && p.refresh !in w.abandoned
  }

  lemma OtherDevicesLeaveRows(db: Db, db': Db, device: Option<nat>, p: Pair)
    requires AuthServer.Inv(db) && OnlyActsOn(db, db', device) && device != Some(p.device) && NewRows(db.tokens, p)
    ensures NewRows(db'.tokens, p)
  {
  }

  lemma RequestLeavesRows(db: Db, r: Request, p: Pair)
    requires AuthServer.Inv(db) && NewRows(db.tokens, p)
    requires r.Register? || (r.token != p.access && r.token != p.refresh)
    ensures NewRows(After(db, r).tokens, p)
  {
    RequestsActOnOneDevice(db, r);
    OtherDevicesLeaveRows(db, After(db, r), ActsOn(db, r), p);
  }

  lemma RegisteringIsNew(w: World, now: real)
    requires AuthClient.Inv(w) && w.client.register.RegisterSent?
    ensures ReplyIsNew(Next(w, ServeRegister(now)))
  {
  }

  /** The token presented is none of the new ones. */
  lemma PresentedIsOlder(w: World)
    requires AuthClient.Inv(w) && ReplyIsNew(w) && w.client.refresh.Sent? && w.client.register.RegisterReplied?
    ensures w.client.refresh.token !in PairTokens(w.client.register.pair)
  {
    assert w.client.refresh.token in Held(w.client);
    assert Explained(w.db, w.unanswered, w.accused, w.client.refresh.token);
  }

  lemma ServerKeepsReply(w: World, e: Event)
    requires AuthClient.Inv(w) && ReplyIsNew(w) && AuthClient.Enabled(w, e) && w.client.register.RegisterReplied?
    requires e.ServeRefresh? || e.ServeAbandoned? || e.Others?
    ensures ReplyIsNew(Next(w, e))
  {
    var p := w.client.register.pair;
    if e.ServeRefresh? {
      PresentedIsOlder(w);
      RequestLeavesRows(w.db, RefreshWith(w.client.refresh.token, e.now), p);
    } else if e.ServeAbandoned? {
      RequestLeavesRows(w.db, RefreshWith(e.token, e.now), p);
    } else {
      RequestLeavesRows(w.db, e.request, p);
    }
  }

  lemma NextKeepsReply(w: World, e: Event)
    requires AuthClient.Inv(w) && ReplyIsNew(w) && AuthClient.Enabled(w, e)
    ensures ReplyIsNew(Next(w, e))
  {
    if e.ServeRegister? {
      RegisteringIsNew(w, e.now);
    } else if w.client.register.RegisterReplied? && (e.ServeRefresh? || e.ServeAbandoned? || e.Others?) {
      ServerKeepsReply(w, e);
    } else if w.client.register.RegisterReplied? && e.RefreshGivenUp? {
      PresentedIsOlder(w);
    }
  }

  lemma {:induction false} RepliesAreNew(worlds: seq<World>, events: seq<Event>, k: nat)
    requires AuthClient.IsRun(worlds, events) && k < |worlds|
    ensures ReplyIsNew(worlds[k])
  {
    if k > 0 {
      RepliesAreNew(worlds, events, k - 1);
      AuthClient.EveryRunKeepsInv(worlds, events, k - 1);
      NextKeepsReply(worlds[k - 1], events[k - 1]);
      assert worlds[k - 1 + 1] == Next(worlds[k - 1], events[k - 1]);
    }
  }

  /**
   * In every run, when a registration's reply arrives the client has a session that works: its access token
   * authenticates its device exactly until the time told, and its refresh token rotates exactly up to the time told.
   */
  lemma RegisteredSessionWorks(worlds: seq<World>, events: seq<Event>, k: nat, now: real)
    requires AuthClient.IsRun(worlds, events) && k < |events| && events[k] == RegisterReply
    ensures var w := worlds[k + 1];
            && w.client.cached.Some?
            && var p := w.client.cached.value;
               && (Authenticated(w.db, p.access, now) == Some(p.device) <==> now < p.accessExpiresAt)
               && (Refreshed(w.db, p.refresh, now).1.Rotated? <==> now <= p.refreshExpiresAt)
  {
    RepliesAreNew(worlds, events, k);
    AuthClient.EveryRunKeepsInv(worlds, events, k);
  }

  /** Up to the first harmful event the session kept is not revoked, save while its rotation is on its way back. */
  lemma HonestSessionIsGood(worlds: seq<World>, events: seq<Event>, k: nat)
    requires AuthClient.IsRun(worlds, events) && k < |worlds| && !SomeHarmful(worlds, events, k)
    ensures var c := worlds[k].client;
            c.cached.Some? ==> !Spent(worlds[k].db, c.cached.value.refresh)
                               || (c.refresh.Replied? && c.refresh.reply.Rotated?
                                   && c.refresh.token == c.cached.value.refresh)
  {
    AuthClient.EveryRunKeepsInv(worlds, events, k);
    BlamedIffHarmful(worlds, events, k);
    var c := worlds[k].client;
    if c.cached.Some? && c.cached.value.refresh !in InTransit(c.refresh) {
      assert c.cached.value.refresh in Held(c);
      assert Explained(worlds[k].db, worlds[k].unanswered, worlds[k].accused, c.cached.value.refresh);
    }
  }

  /**
   * A refused client recovers: it drops its session, registers, and then has a session of a device never seen
   * before, good for fifteen minutes and, refreshed in time, for thirty days.
   */
  lemma RefusedClientRecovers(w: World, now: real) returns (ended: World, cleared: World, served: World, done: World)
    requires AuthClient.Inv(w) && w.client.refresh.Replied? && !w.client.refresh.reply.Rotated?
    requires w.client.register.NoRegister?
    ensures ended == Next(w, RefreshReply) && ended.client.cached.None? && AuthClient.Enabled(ended, SessionCleared)
    ensures cleared == Next(ended, SessionCleared) && AuthClient.Enabled(cleared, ServeRegister(now))
    ensures served == Next(cleared, ServeRegister(now)) && AuthClient.Enabled(served, RegisterReply)
    ensures done == Next(served, RegisterReply) && done.client.cached.Some?
    ensures var p := done.client.cached.value;
            && p.device !in w.own && (forall t :: t in w.db.tokens ==> w.db.tokens[t].device != p.device)
            && (forall later :: Authenticated(done.db, p.access, later) == Some(p.device) <==> later < now + 900.0)
            && (forall later :: Refreshed(done.db, p.refresh, later).1.Rotated? <==> later <= now + 2592000.0)
  {
    ended := Next(w, RefreshReply);
    cleared := Next(ended, SessionCleared);
    served := Next(cleared, ServeRegister(now));
    done := Next(served, RegisterReply);
  }
}
