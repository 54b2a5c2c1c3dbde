/** What a token pair tells its device (internal/handlers/auth.go), and how long it stays true. */
module AuthPairs {
  import opened Prelude
  import opened AuthServer

  // ---------------------------------------------------------------- rows only ever get revoked

  ghost predicate RowKept(a: Row, b: Row) {
    b == a.(revoked := b.revoked) && (a.revoked ==> b.revoked)
  }

  ghost predicate RowsKept(db: Db, db': Db) {
    && db.nextToken <= db'.nextToken
    && forall t :: t in db'.tokens && t < db.nextToken ==> t in db.tokens && RowKept(db.tokens[t], db'.tokens[t])
  }

  lemma RefreshKeepsRows(db: Db, token: nat, now: real)
    requires Inv(db)
    ensures RowsKept(db, Refreshed(db, token, now).0)
  {
  }

  lemma RequestKeepsRows(db: Db, r: Request)
    requires Inv(db)
    ensures RowsKept(db, After(db, r))
  {
    if r.RefreshWith? {
      RefreshKeepsRows(db, r.token, r.now);
    }
  }

  lemma {:induction false} RunKeepsRows(db: Db, rs: seq<Request>)
    requires Inv(db)
    ensures Inv(AfterAll(db, rs)) && RowsKept(db, AfterAll(db, rs))
  {
    if rs != [] {
      var before := AfterAll(db, rs[..|rs| - 1]);
      RunKeepsRows(db, rs[..|rs| - 1]);
      AfterKeepsInv(before, rs[|rs| - 1]);
      RequestKeepsRows(before, rs[|rs| - 1]);
    }
  }

  // ---------------------------------------------------------------- what a pair tells is true

  /** A registration or a rotation at `now` gave out the pair. */
  ghost predicate Gave(db: Db, db': Db, pair: Pair, now: real) {
    (db', pair) == Registered(db, now) || exists t :: Refreshed(db, t, now) == (db', Rotated(pair))
  }

  lemma GivenRows(db: Db, db': Db, pair: Pair, now: real)
    requires Inv(db) && Gave(db, db', pair, now)
    ensures Inv(db') && pair.access in db'.tokens && pair.refresh in db'.tokens
    ensures db'.tokens[pair.access] == Row(pair.device, Access, pair.accessExpiresAt, false)
    ensures db'.tokens[pair.refresh] == Row(pair.device, Refresh, pair.refreshExpiresAt, false)
  {
    if (db', pair) == Registered(db, now) {
      AfterKeepsInv(db, Register(now));
    } else {
      var t :| Refreshed(db, t, now) == (db', Rotated(pair));
      AfterKeepsInv(db, RefreshWith(t, now));
    }
  }

  /** Access tokens are given for a quarter of an hour and refresh tokens for thirty days. */
  lemma Lifetimes(db: Db, db': Db, pair: Pair, now: real)
    requires Gave(db, db', pair, now)
    ensures pair.accessExpiresAt == now + 15.0 * 60.0 && pair.refreshExpiresAt == now + 30.0 * 24.0 * 3600.0
  {
  }

  /**
   * What the pair tells is true after any further requests. While its device is not shut out the access token
   * authenticates it exactly until the time told; the refresh token, while it has not been spent, rotates exactly up
   * to the time told; and neither can be used for the other's purpose.
   */
  lemma PairTellsTheTruth(db: Db, given: Db, pair: Pair, now: real, rs: seq<Request>, later: real)
    requires Inv(db) && Gave(db, given, pair, now) && forall i :: 0 <= i < |rs| ==> rs[i].now <= later
    ensures var d := AfterAll(given, rs);
            && (Authenticated(d, pair.access, later) == Some(pair.device) <==>
                  !ShutOut(d, pair.device) && later < pair.accessExpiresAt)
            && (Live(d.tokens, pair.refresh) ==>
                  (Refreshed(d, pair.refresh, later).1.Rotated? <==> later <= pair.refreshExpiresAt))
            && Authenticated(d, pair.refresh, later).None? && Refreshed(d, pair.access, later) == (d, Invalid)
  {
    GivenRows(db, given, pair, now);
    RunKeepsRows(given, rs);
    var d := AfterAll(given, rs);
    assert pair.access in d.tokens ==> RowKept(given.tokens[pair.access], d.tokens[pair.access]);
    assert pair.refresh in d.tokens ==> RowKept(given.tokens[pair.refresh], d.tokens[pair.refresh]);
    if later < pair.accessExpiresAt {
      AccessLastsUntilShutOut(given, pair.access, rs, later);
    }
  }

  /** Only a refresh token of a registered device can be refreshed with; trying another changes nothing. */
  lemma OtherTokensAreInvalid(db: Db, token: nat, now: real)
    requires Inv(db) && !(token in db.tokens && db.tokens[token].kind == Refresh)
    ensures Refreshed(db, token, now) == (db, Invalid)
  {
  }

  // ---------------------------------------------------------------- what a rotation leaves behind

  /** A rotation forgets the device's rows that expired more than a day ago, and no others. */
  lemma RotationForgetsOldRows(db: Db, token: nat, now: real, t: nat)
    requires Inv(db) && Refreshed(db, token, now).1.Rotated? && t in db.tokens
    ensures t in Refreshed(db, token, now).0.tokens <==>
            db.tokens[t].device != db.tokens[token].device || db.tokens[t].expiresAt >= now - 24.0 * 3600.0
  {
  }

  /** Nothing else forgets a row, short of deleting its device. */
  lemma RowsAreKept(db: Db, r: Request, t: nat)
    requires Inv(db) && t in db.tokens && !(r.RefreshWith? && Refreshed(db, r.token, r.now).1.Rotated?)
    ensures t in After(db, r).tokens <==> db.tokens[t].device in After(db, r).devices
  {
  }

  /** Deleting takes the caller's account with all its devices, and no other device. */
  lemma DeletionTakesTheAccount(db: Db, token: nat, now: real, device: nat)
    requires Inv(db) && Authenticated(db, token, now).Some? && device in db.devices
    ensures device in After(db, DeleteWith(token, now)).devices <==>
            db.devices[device] != db.devices[Authenticated(db, token, now).value]
  {
  }
}
