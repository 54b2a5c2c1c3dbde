/** Device tokens on the server (internal/handlers/auth.go). */
module AuthServer {
  // Each handler is one transaction, taken as one atomic step. Token hashes are injective and new tokens unguessable,
  // so tokens are numbers never used before.

  import opened Prelude

  const ACCESS_TTL: real := 900.0
  const REFRESH_TTL: real := 2592000.0
  const DAY: real := 86400.0

  datatype Kind = Access | Refresh

  datatype Row = Row(device: nat, kind: Kind, expiresAt: real, revoked: bool)

  /** devices maps each device to its account. */
  datatype Db = Db(tokens: map<nat, Row>, devices: map<nat, nat>, nextToken: nat, nextDevice: nat)

  datatype Pair = Pair(device: nat, access: nat, accessExpiresAt: real, refresh: nat, refreshExpiresAt: real)

  datatype Reply = Rotated(pair: Pair) | Invalid | ReuseDetected | Expired

  const EMPTY: Db := Db(map[], map[], 0, 0)

  // ---------------------------------------------------------------- the transactions

  function Issued(db: Db, device: nat, now: real): (Db, Pair) {
    var (a, r) := (db.nextToken, db.nextToken + 1);
    (db.(tokens := db.tokens[a := Row(device, Access, now + ACCESS_TTL, false)]
                            [r := Row(device, Refresh, now + REFRESH_TTL, false)],
         nextToken := db.nextToken + 2),
     Pair(device, a, now + ACCESS_TTL, r, now + REFRESH_TTL))
  }

  function Registered(db: Db, now: real): (Db, Pair) {
    Issued(WithDevice(db), db.nextDevice, now)
  }

  /** A new device, with an account of its own. */
  function WithDevice(db: Db): Db {
    db.(devices := db.devices[db.nextDevice := db.nextDevice], nextDevice := db.nextDevice + 1)
  }

  function RevokedAll(tokens: map<nat, Row>, device: nat): map<nat, Row> {
    map t | t in tokens :: if tokens[t].device == device then tokens[t].(revoked := true) else tokens[t]
  }

  function Pruned(tokens: map<nat, Row>, device: nat, now: real): map<nat, Row> {
    map t | t in tokens && !(tokens[t].device == device && tokens[t].expiresAt < now - DAY) :: tokens[t]
  }

  function Refreshed(db: Db, token: nat, now: real): (Db, Reply) {
    if token !in db.tokens || db.tokens[token].device !in db.devices || db.tokens[token].kind != Refresh
    then (db, Invalid)
    else
      var row := db.tokens[token];
      if row.revoked then (db.(tokens := RevokedAll(db.tokens, row.device)), ReuseDetected)
      else if row.expiresAt < now then (db, Expired)
      else
        var spent := db.tokens[token := row.(revoked := true)];
        var (db', pair) := Issued(db.(tokens := Pruned(spent, row.device, now)), row.device, now);
        (db', Rotated(pair))
  }

  function LoggedOut(db: Db, device: nat): Db {
    db.(tokens := RevokedAll(db.tokens, device))
  }

  /** Deleting an account cascades to its devices and their tokens. */
  function AccountDeleted(db: Db, account: nat): Db {
    var gone := set d | d in db.devices && db.devices[d] == account;
    db.(devices := db.devices - gone, tokens := map t | t in db.tokens && db.tokens[t].device !in gone :: db.tokens[t])
  }

  function Authenticated(db: Db, token: nat, now: real): Option<nat> {
    if token in db.tokens && db.tokens[token].device in db.devices && db.tokens[token].kind == Access
       && !db.tokens[token].revoked && now < db.tokens[token].expiresAt
    then Some(db.tokens[token].device) else None
  }

  datatype Request =
    | Register(now: real)
    | RefreshWith(token: nat, now: real)
    | LogoutWith(token: nat, now: real)
    | DeleteWith(token: nat, now: real)

  /** Logout and account deletion first authenticate with an access token. */
  function After(db: Db, r: Request): Db {
    match r
    case Register(now) => Registered(db, now).0
    case RefreshWith(token, now) => Refreshed(db, token, now).0
    case LogoutWith(token, now) =>
      var d := Authenticated(db, token, now);
      if d.Some? then LoggedOut(db, d.value) else db
    case DeleteWith(token, now) =>
      var d := Authenticated(db, token, now);
      if d.Some? && d.value in db.devices then AccountDeleted(db, db.devices[d.value]) else db
  }

  function AfterAll(db: Db, rs: seq<Request>): Db {
    if rs == [] then db else After(AfterAll(db, rs[..|rs| - 1]), rs[|rs| - 1])
  }

  // ---------------------------------------------------------------- at most one live refresh token per device

  ghost predicate Live(tokens: map<nat, Row>, t: nat) {
    t in tokens && tokens[t].kind == Refresh && !tokens[t].revoked
  }

  ghost predicate OneLivePerDevice(tokens: map<nat, Row>) {
    forall t, u :: Live(tokens, t) && Live(tokens, u) && tokens[t].device == tokens[u].device ==> t == u
  }

  ghost predicate OneDevicePerAccount(devices: map<nat, nat>, next: nat) {
    && (forall d :: d in devices ==> d < next && devices[d] < next)
    && (forall d, e :: d in devices && e in devices && devices[d] == devices[e] ==> d == e)
  }

  ghost predicate Inv(db: Db) {
    && (forall t :: t in db.tokens ==> t < db.nextToken && db.tokens[t].device in db.devices)
    && OneDevicePerAccount(db.devices, db.nextDevice)
    && OneLivePerDevice(db.tokens)
  }

  /** Revoking and deleting tokens, with the rest untouched, keeps the invariant. */
  lemma RevokingKeepsInv(db: Db, db': Db)
    requires Inv(db) && db'.nextToken == db.nextToken && db'.nextDevice == db.nextDevice
    requires forall d :: d in db'.devices ==> d in db.devices && db'.devices[d] == db.devices[d]
    requires forall t :: t in db'.tokens ==>
               && t in db.tokens && db'.tokens[t].device == db.tokens[t].device && db'.tokens[t].device in db'.devices
               && db'.tokens[t].kind == db.tokens[t].kind && (db.tokens[t].revoked ==> db'.tokens[t].revoked)
    ensures Inv(db')
  {
    assert forall t :: Live(db'.tokens, t) ==> Live(db.tokens, t);
  }

  lemma IssuingKeepsInv(db: Db, device: nat, now: real)
    requires Inv(db) && device in db.devices
    requires forall t :: Live(db.tokens, t) ==> db.tokens[t].device != device
    ensures Inv(Issued(db, device, now).0)
  {
    var db' := Issued(db, device, now).0;
    assert forall t :: Live(db'.tokens, t) && t != db.nextToken + 1 ==>
             Live(db.tokens, t) && db'.tokens[t] == db.tokens[t];
  }

  lemma RefreshKeepsInv(db: Db, token: nat, now: real)
    requires Inv(db)
    ensures Inv(Refreshed(db, token, now).0)
  {
    var (db', reply) := Refreshed(db, token, now);
    if reply.Rotated? {
      var row := db.tokens[token];
      var spent := db.tokens[token := row.(revoked := true)];
      var kept := db.(tokens := Pruned(spent, row.device, now));
      RevokingKeepsInv(db, kept);
      assert Live(db.tokens, token);
      assert forall t :: Live(kept.tokens, t) ==> Live(db.tokens, t) && t != token;
      IssuingKeepsInv(kept, row.device, now);
    } else if reply.ReuseDetected? {
      RevokingKeepsInv(db, db');
    }
  }

  lemma NewDeviceKeepsInv(db: Db)
    requires Inv(db)
    ensures Inv(WithDevice(db)) && forall t :: Live(db.tokens, t) ==> db.tokens[t].device != db.nextDevice
  {
    assert OneDevicePerAccount(WithDevice(db).devices, db.nextDevice + 1);
  }

  lemma RegisterKeepsInv(db: Db, now: real)
    requires Inv(db)
    ensures Inv(Registered(db, now).0)
  {
    NewDeviceKeepsInv(db);
    IssuingKeepsInv(WithDevice(db), db.nextDevice, now);
  }

  lemma DeleteKeepsInv(db: Db, account: nat)
    requires Inv(db)
    ensures Inv(AccountDeleted(db, account))
  {
    RevokingKeepsInv(db, AccountDeleted(db, account));
  }

  lemma AfterKeepsInv(db: Db, r: Request)
    requires Inv(db)
    ensures Inv(After(db, r))
  {
    match r
    case Register(now) => RegisterKeepsInv(db, now);
    case RefreshWith(token, now) => RefreshKeepsInv(db, token, now);
    case LogoutWith(token, now) =>
      var d := Authenticated(db, token, now);
      if d.Some? {
        RevokingKeepsInv(db, LoggedOut(db, d.value));
      }
    case DeleteWith(token, now) =>
      var d := Authenticated(db, token, now);
      if d.Some? {
        DeleteKeepsInv(db, db.devices[d.value]);
      }
  }

  /** In every reachable state each device has at most one refresh token that is not revoked. */
  lemma {:induction false} OneLiveToken(rs: seq<Request>)
    ensures Inv(AfterAll(EMPTY, rs))
  {
    if rs != [] {
      OneLiveToken(rs[..|rs| - 1]);
      AfterKeepsInv(AfterAll(EMPTY, rs[..|rs| - 1]), rs[|rs| - 1]);
    }
  }

  // ---------------------------------------------------------------- requests act on one device only

  /** The device a request creates, or whose token it carries. */
  function ActsOn(db: Db, r: Request): Option<nat> {
    if r.Register? then Some(db.nextDevice)
    else if r.token in db.tokens then Some(db.tokens[r.token].device) else None
  }

  /** Rows of every other device are untouched, new rows belong to that device, and nothing is ever unrevoked. */
  ghost predicate OnlyActsOn(db: Db, db': Db, device: Option<nat>) {
    && db.nextToken <= db'.nextToken && db.nextDevice <= db'.nextDevice
    && (forall t :: t in db.tokens && Some(db.tokens[t].device) != device ==>
        t in db'.tokens && db'.tokens[t] == db.tokens[t])
    && (forall t :: t in db'.tokens ==>
          if t < db.nextToken
          then t in db.tokens && db'.tokens[t].device == db.tokens[t].device
              && (db.tokens[t].revoked ==> db'.tokens[t].revoked)
          else Some(db'.tokens[t].device) == device)
  }

  lemma DeleteOnlyActsOn(db: Db, device: nat)
    requires Inv(db) && device in db.devices
    ensures OnlyActsOn(db, AccountDeleted(db, db.devices[device]), Some(device))
  {
  }

  lemma RefreshOnlyActsOn(db: Db, token: nat, now: real)
    requires Inv(db) && token in db.tokens
    ensures OnlyActsOn(db, Refreshed(db, token, now).0, Some(db.tokens[token].device))
  {
    var row, reply := db.tokens[token], Refreshed(db, token, now).1;
    if reply.Rotated? {
      var kept := Pruned(db.tokens[token := row.(revoked := true)], row.device, now);
      IssueOnlyActsOn(db, db.(tokens := kept), row.device, now);
    }
  }

  lemma IssueOnlyActsOn(db: Db, kept: Db, device: nat, now: real)
    requires OnlyActsOn(db, kept, Some(device)) && kept.nextToken == db.nextToken && kept.nextDevice == db.nextDevice
    requires forall t :: t in kept.tokens ==> t < db.nextToken
    ensures OnlyActsOn(db, Issued(kept, device, now).0, Some(device))
  {
  }

  lemma RequestsActOnOneDevice(db: Db, r: Request)
    requires Inv(db)
    ensures OnlyActsOn(db, After(db, r), ActsOn(db, r))
  {
    if r.DeleteWith? {
      var d := Authenticated(db, r.token, r.now);
      if d.Some? {
        DeleteOnlyActsOn(db, d.value);
      }
    } else if r.RefreshWith? && r.token in db.tokens {
      RefreshOnlyActsOn(db, r.token, r.now);
    }
  }

  // ---------------------------------------------------------------- a device that is shut out stays out

  /** The device was registered once and none of its tokens is good any more. */
  ghost predicate ShutOut(db: Db, device: nat) {
    && device < db.nextDevice
    && forall t :: t in db.tokens && db.tokens[t].device == device ==> db.tokens[t].revoked
  }

  /** Reuse detection, logout and account deletion each shut the device out. */
  lemma ShutOutBy(db: Db, r: Request)
    requires Inv(db)
    ensures r.RefreshWith? && Refreshed(db, r.token, r.now).1 == ReuseDetected ==>
              ShutOut(After(db, r), db.tokens[r.token].device)
    ensures r.LogoutWith? || r.DeleteWith? ==>
              var d := Authenticated(db, r.token, r.now); d.Some? ==> ShutOut(After(db, r), d.value)
  {
  }

  lemma {:induction false} ShutOutForever(db: Db, device: nat, rs: seq<Request>, token: nat, now: real)
    requires Inv(db) && ShutOut(db, device)
    ensures var db' := AfterAll(db, rs);
            && Inv(db') && ShutOut(db', device)
            && Authenticated(db', token, now) != Some(device)
            && var reply := Refreshed(db', token, now).1; (reply.Rotated? ==> reply.pair.device != device)
  {
    if rs != [] {
      var before, r := AfterAll(db, rs[..|rs| - 1]), rs[|rs| - 1];
      ShutOutForever(db, device, rs[..|rs| - 1], if r.Register? then 0 else r.token, r.now);
      AfterKeepsInv(before, r);
      ShutOutStep(before, device, r);
    }
    ShutOutMeans(AfterAll(db, rs), device, token, now);
  }

  lemma ShutOutMeans(db: Db, device: nat, token: nat, now: real)
    requires Inv(db) && ShutOut(db, device)
    ensures Authenticated(db, token, now) != Some(device)
    ensures var reply := Refreshed(db, token, now).1; (reply.Rotated? ==> reply.pair.device != device)
  {
  }

  lemma ShutOutStep(db: Db, device: nat, r: Request)
    requires Inv(db) && ShutOut(db, device)
    ensures ShutOut(After(db, r), device)
  {
    if r.RefreshWith? && Refreshed(db, r.token, r.now).1.Rotated? {
      assert db.tokens[r.token].device != device;
    }
  }

  // ---------------------------------------------------------------- a device that is not shut out keeps working

  /** A registered device still has a refresh token that can be rotated, or at least has not been revoked. */
  ghost predicate Served(db: Db, device: nat) {
    exists t :: Live(db.tokens, t) && db.tokens[t].device == device
  }

  lemma ServedStep(db: Db, r: Request, device: nat)
    requires Inv(db) && device < After(db, r).nextDevice
    requires device < db.nextDevice ==> ShutOut(db, device) || Served(db, device)
    ensures ShutOut(After(db, r), device) || Served(After(db, r), device)
  {
    var db', actsOn := After(db, r), ActsOn(db, r);
    RequestsActOnOneDevice(db, r);
    if actsOn == Some(device) {
      IssuedOrShutOut(db, r, device);
    } else if Served(db, device) {
      var t :| Live(db.tokens, t) && db.tokens[t].device == device;
      assert Live(db'.tokens, t);
    }
  }

  /** A request that acts on a device leaves it as it was, issues it a pair, or shuts it out. */
  lemma IssuedOrShutOut(db: Db, r: Request, device: nat)
    requires Inv(db) && ActsOn(db, r) == Some(device)
    ensures var db' := After(db, r); db' == db || ShutOut(db', device) || Served(db', device)
  {
    var db' := After(db, r);
    if r.Register? || (r.RefreshWith? && Refreshed(db, r.token, r.now).1.Rotated?) {
      assert Live(db'.tokens, db.nextToken + 1);
    } else {
      ShutOutBy(db, r);
    }
  }

  /** So in every reachable state each device has exactly one refresh token that is not revoked, or is shut out. */
  lemma {:induction false} OneLiveTokenOrShutOut(rs: seq<Request>, device: nat)
    requires device < AfterAll(EMPTY, rs).nextDevice
    ensures var db := AfterAll(EMPTY, rs);
            || ShutOut(db, device)
            || exists t :: && Live(db.tokens, t) && db.tokens[t].device == device
                           && forall u :: Live(db.tokens, u) && db.tokens[u].device == device ==> u == t
  {
    OneLiveToken(rs);
    if rs != [] {
      var before := AfterAll(EMPTY, rs[..|rs| - 1]);
      OneLiveToken(rs[..|rs| - 1]);
      if device < before.nextDevice {
        OneLiveTokenOrShutOut(rs[..|rs| - 1], device);
      }
      ServedStep(before, rs[|rs| - 1], device);
    }
  }

  /**
   * A refresh token that is not revoked rotates if and only if it has not expired, and the pair it gives works:
   * the access token authenticates its device, and the refresh token is the device's live one.
   */
  lemma LiveTokenRotatesUntilExpiry(db: Db, token: nat, now: real, later: real)
    requires Inv(db) && Live(db.tokens, token)
    ensures var (db', reply) := Refreshed(db, token, now);
            && (reply.Rotated? <==> now <= db.tokens[token].expiresAt)
            && (!reply.Rotated? ==> reply == Expired && db' == db)
            && (reply.Rotated? ==>
                  && Live(db'.tokens, reply.pair.refresh)
                  && db'.tokens[reply.pair.refresh].device == db.tokens[token].device
                  && !Live(db'.tokens, token)
                  && (Authenticated(db', reply.pair.access, later) == Some(db.tokens[token].device) <==>
                      later < now + ACCESS_TTL))
  {
  }

  /** The row of an access token is as issued, or its device is shut out. */
  ghost predicate Usable(db: Db, token: nat, row: Row) {
    && token < db.nextToken && (token in db.tokens ==> db.tokens[token].device == row.device)
    && ((token in db.tokens && db.tokens[token] == row) || ShutOut(db, row.device))
  }

  lemma UsableStep(db: Db, r: Request, token: nat, row: Row, later: real)
    requires Inv(db) && Usable(db, token, row) && row.kind == Access && r.now <= later <= row.expiresAt
    requires row.device < db.nextDevice
    ensures Usable(After(db, r), token, row)
  {
    RequestsActOnOneDevice(db, r);
    if ShutOut(db, row.device) {
      ShutOutStep(db, row.device, r);
    } else if ActsOn(db, r) == Some(row.device) {
      OwnRequestKeepsAccess(db, r, token);
    }
  }

  lemma OwnRequestKeepsAccess(db: Db, r: Request, token: nat)
    requires Inv(db) && token in db.tokens && db.tokens[token].kind == Access && r.now <= db.tokens[token].expiresAt
    requires ActsOn(db, r) == Some(db.tokens[token].device)
    ensures var db' := After(db, r);
            (token in db'.tokens && db'.tokens[token] == db.tokens[token]) || ShutOut(db', db.tokens[token].device)
  {
    ShutOutBy(db, r);
  }

  /** An access token works until it expires or its device is shut out, and no longer. */
  lemma {:induction false} AccessLastsUntilShutOut(db: Db, token: nat, rs: seq<Request>, later: real)
    requires Inv(db) && token in db.tokens
    requires var row := db.tokens[token]; row.kind == Access && !row.revoked && later < row.expiresAt
    requires forall i :: 0 <= i < |rs| ==> rs[i].now <= later
    ensures var (db', row) := (AfterAll(db, rs), db.tokens[token]);
            && Inv(db') && Usable(db', token, row) && row.device < db'.nextDevice
            && Authenticated(db', token, later) == if ShutOut(db', row.device) then None else Some(row.device)
  {
    if rs != [] {
      var before := AfterAll(db, rs[..|rs| - 1]);
      AccessLastsUntilShutOut(db, token, rs[..|rs| - 1], later);
      AfterKeepsInv(before, rs[|rs| - 1]);
      RequestsActOnOneDevice(before, rs[|rs| - 1]);
      UsableStep(before, rs[|rs| - 1], token, db.tokens[token], later);
    }
  }

  // ---------------------------------------------------------------- replays are caught

  /** The row of a spent refresh token is kept until a day after it expires, unless its device is deleted. */
  ghost predicate Remembered(db: Db, token: nat, row: Row, until: real) {
    && token < db.nextToken && row.device < db.nextDevice
    && (token in db.tokens ==> db.tokens[token] == row)
    && (until <= row.expiresAt + DAY && row.device in db.devices ==> token in db.tokens)
  }

  /**
   * Once a refresh token has been rotated, presenting it again is detected as reuse at any time up to a day after
   * its expiry, whatever was served in between, as long as its own device has not been deleted.
   */
  lemma {:induction false} ReplayIsDetected(db: Db, token: nat, now: real, rs: seq<Request>, later: real)
    requires Inv(db) && Refreshed(db, token, now).1.Rotated?
    requires forall i :: 0 <= i < |rs| ==> rs[i].now <= later
    requires later <= db.tokens[token].expiresAt + DAY
    ensures var db' := AfterAll(Refreshed(db, token, now).0, rs);
            Refreshed(db', token, later).1
              == if db.tokens[token].device in db'.devices then ReuseDetected else Invalid
  {
    AfterKeepsInv(db, RefreshWith(token, now));
    StillRemembered(Refreshed(db, token, now).0, token, db.tokens[token].(revoked := true), rs, later);
  }

  lemma {:induction false} StillRemembered(db: Db, token: nat, row: Row, rs: seq<Request>, later: real)
    requires Inv(db) && Remembered(db, token, row, later) && row.kind == Refresh && row.revoked
    requires forall i :: 0 <= i < |rs| ==> rs[i].now <= later
    ensures Inv(AfterAll(db, rs)) && Remembered(AfterAll(db, rs), token, row, later)
  {
    if rs != [] {
      StillRemembered(db, token, row, rs[..|rs| - 1], later);
      AfterKeepsInv(AfterAll(db, rs[..|rs| - 1]), rs[|rs| - 1]);
      RememberedStep(AfterAll(db, rs[..|rs| - 1]), token, row, rs[|rs| - 1], later);
    }
  }

  lemma RememberedStep(db: Db, token: nat, row: Row, r: Request, later: real)
    requires Inv(db) && Remembered(db, token, row, later) && row.kind == Refresh && row.revoked && r.now <= later
    ensures Remembered(After(db, r), token, row, later)
  {
    if r.DeleteWith? {
      var d := Authenticated(db, r.token, r.now);
      if d.Some? {
        DeletionRemembers(db, db.devices[d.value], token, row, later);
      }
    } else if r.RefreshWith? {
      RefreshRemembers(db, r.token, r.now, token, row, later);
    }
  }

  lemma DeletionRemembers(db: Db, account: nat, token: nat, row: Row, later: real)
    requires Inv(db) && Remembered(db, token, row, later)
    ensures Remembered(AccountDeleted(db, account), token, row, later)
  {
  }

  lemma RefreshRemembers(db: Db, t: nat, now: real, token: nat, row: Row, later: real)
    requires Inv(db) && Remembered(db, token, row, later) && row.kind == Refresh && row.revoked && now <= later
    ensures Remembered(Refreshed(db, t, now).0, token, row, later)
  {
  }

  // ---------------------------------------------------------------- the handlers as the code runs them

  class AuthApi {
    var tokens: map<nat, Row>
    var devices: map<nat, nat>
    var nextToken: nat
    var nextDevice: nat

    function State(): Db
      reads this
    {
      Db(tokens, devices, nextToken, nextDevice)
    }

    constructor ()
      ensures State() == EMPTY
    {
      tokens, devices, nextToken, nextDevice := map[], map[], 0, 0;
    }

    method IssueTokens(device: nat, now: real) returns (pair: Pair)
      modifies this`tokens, this`nextToken
      ensures (State(), pair) == Issued(old(State()), device, now)
    {
      var access, refresh := nextToken, nextToken + 1;
      nextToken := nextToken + 2;
      pair := Pair(device, access, now + ACCESS_TTL, refresh, now + REFRESH_TTL);
      tokens := tokens[access := Row(device, Access, pair.accessExpiresAt, false)];
      tokens := tokens[refresh := Row(device, Refresh, pair.refreshExpiresAt, false)];
    }

    method RegisterDevice(now: real) returns (pair: Pair)
      modifies this
      ensures (State(), pair) == Registered(old(State()), now)
    {
      var device := nextDevice;
      nextDevice := nextDevice + 1;
      devices := devices[device := device];
      pair := IssueTokens(device, now);
    }

    method RefreshTokens(token: nat, now: real) returns (reply: Reply)
      modifies this
      ensures (State(), reply) == Refreshed(old(State()), token, now)
    {
      if token !in tokens || tokens[token].device !in devices || tokens[token].kind != Refresh {
        return Invalid;
      }
      var row := tokens[token];
      if row.revoked {
        tokens := RevokedAll(tokens, row.device);
        return ReuseDetected;
      }
      if now > row.expiresAt {
        return Expired;
      }
      tokens := tokens[token := row.(revoked := true)];
      tokens := Pruned(tokens, row.device, now);
      var pair := IssueTokens(row.device, now);
      return Rotated(pair);
    }

    method Logout(device: nat)
      modifies this`tokens
      ensures State() == LoggedOut(old(State()), device)
    {
      tokens := RevokedAll(tokens, device);
    }
  }
}
