/** The mobile client's token handling (src/auth/authClient.ts) composed with the server. */
module AuthClient {
  // The session is already loaded and no logout is under way. JavaScript runs each stretch between two awaits without
  // interruption, so those stretches are the client's steps; any number of authFetch callers may ask for a refresh or a
  // registration at any moment.

  import opened Prelude
  import opened AuthServer

  /** Where the one shared refresh stands (inFlightRefresh); Idle is null. */
  datatype RefreshTask =
    | Idle
    | Read(current: Option<Pair>)
    | Sent(token: nat)
    | Replied(token: nat, reply: Reply)
    | Clearing
    | AwaitingRegister
    | Saving

  /** Where the one shared registration stands (inFlightRegister). */
  datatype RegisterTask = NoRegister | RegisterSent | RegisterReplied(pair: Pair) | RegisterSaving

  datatype Client = Client(cached: Option<Pair>, refresh: RefreshTask, register: RegisterTask)

  // ---------------------------------------------------------------- the client's steps

  /** refreshSession() called by anyone: joins the running refresh or starts one on the session as it is now. */
  function RefreshCalled(c: Client): Client {
    if c.refresh.Idle? then c.(refresh := Read(c.cached)) else c
  }

  /** registerDevice() called by anyone. */
  function RegisterCalled(c: Client): Client {
    if c.register.NoRegister? then c.(register := RegisterSent) else c
  }

  /** After `await readSession()`: give up an absent or expired session, else present its refresh token. */
  function SessionRead(c: Client, expired: bool): Client
    requires c.refresh.Read?
  {
    if c.refresh.current.None? || expired then c.(cached := None, refresh := Clearing)
    else c.(refresh := Sent(c.refresh.current.value.refresh))
  }

  /** The refresh request's reply arrives; anything but a rotation is a 401. */
  function ReplyArrived(c: Client): Client
    requires c.refresh.Replied?
  {
    match c.refresh.reply
    case Rotated(pair) => c.(cached := Some(pair), refresh := Saving)
    case _ => c.(cached := None, refresh := Clearing)
  }

  /** After `await clearSession()`: register a new device, or share the registration under way. */
  function Cleared(c: Client): Client
    requires c.refresh.Clearing?
  {
    RegisterCalled(c).(refresh := AwaitingRegister)
  }

  function RegisterReplyArrived(c: Client): Client
    requires c.register.RegisterReplied?
  {
    c.(cached := Some(c.register.pair), register := RegisterSaving)
  }

  // ---------------------------------------------------------------- client, server and everyone else

  /**
   * mine holds every token ever issued in reply to this client, own every device it registered, abandoned the
   * tokens of refresh requests it gave up waiting for, which the server may still get to. Two ghosts of the history:
   * unanswered are the tokens rotated by a request whose reply never reached the client, accused the devices
   * whose token some request was found to reuse.
   */
  datatype World = World(db: Db, client: Client, mine: set<nat>, own: set<nat>, abandoned: multiset<nat>,
                         unanswered: set<nat>, accused: set<nat>)

  datatype Event =
    | CallRefresh | CallRegister | ReadSession(expired: bool) | RefreshReply | SessionCleared | RegisterReply
    | ServeRefresh(now: real) | ServeRegister(now: real) | ServeAbandoned(token: nat, now: real)
    | RefreshGivenUp | RegisterGivenUp | RefreshReplyLost | RegisterReplyLost | RefreshSettles | RegisterSettles
    | Others(request: Request)

  function PairTokens(p: Pair): set<nat> {
    {p.access, p.refresh}
  }

  ghost predicate Enabled(w: World, e: Event) {
    match e
    case CallRefresh => true
    case CallRegister => true
    case ReadSession(_) => w.client.refresh.Read?
    case RefreshReply => w.client.refresh.Replied?
    case SessionCleared => w.client.refresh.Clearing?
    case RegisterReply => w.client.register.RegisterReplied?
    case ServeRefresh(_) => w.client.refresh.Sent?
    case ServeRegister(_) => w.client.register.RegisterSent?
    case ServeAbandoned(t, _) => t in w.abandoned
    case RefreshGivenUp => w.client.refresh.Sent?
    case RegisterGivenUp => w.client.register.RegisterSent?
    case RefreshReplyLost => w.client.refresh.Replied?
    case RegisterReplyLost => w.client.register.RegisterReplied?
    case RefreshSettles => w.client.refresh.Saving? || w.client.refresh.AwaitingRegister?
    case RegisterSettles => w.client.register.RegisterSaving?
    // Everyone else can send any request, but cannot know this client's tokens. A registration that this client
    // gave up on and that is served late belongs to nobody, so it is one of these.
    case Others(r) => r.Register? || r.token !in w.mine
  }

  /** The server's side of a refresh with one of this client's tokens. */
  function Served(w: World, t: nat, now: real): World {
    var (db, reply) := Refreshed(w.db, t, now);
    w.(db := db, mine := w.mine + (if reply.Rotated? then PairTokens(reply.pair) else {}),
       accused := w.accused + if reply.ReuseDetected? then {w.db.tokens[t].device} else {})
  }

  ghost function Next(w: World, e: Event): World
    requires Enabled(w, e)
  {
    var c := w.client;
    match e
    case CallRefresh => w.(client := RefreshCalled(c))
    case CallRegister => w.(client := RegisterCalled(c))
    case ReadSession(expired) => w.(client := SessionRead(c, expired))
    case RefreshReply => w.(client := ReplyArrived(c))
    case SessionCleared => w.(client := Cleared(c))
    case RegisterReply => w.(client := RegisterReplyArrived(c))
    case ServeRefresh(now) =>
      var t := c.refresh.token;
      Served(w, t, now).(client := c.(refresh := Replied(t, Refreshed(w.db, t, now).1)))
    case ServeRegister(now) =>
      var (db, pair) := Registered(w.db, now);
      w.(db := db, client := c.(register := RegisterReplied(pair)),
         mine := w.mine + PairTokens(pair), own := w.own + {pair.device})
    case ServeAbandoned(t, now) =>
      Served(w, t, now).(abandoned := w.abandoned - multiset{t},
                         unanswered := w.unanswered + if Refreshed(w.db, t, now).1.Rotated? then {t} else {})
    case RefreshGivenUp => w.(client := c.(refresh := Idle), abandoned := w.abandoned + multiset{c.refresh.token})
    case RegisterGivenUp => w.(client := c.(register := NoRegister))
    case RefreshReplyLost =>
      w.(client := c.(refresh := Idle),
         unanswered := w.unanswered + if c.refresh.reply.Rotated? then {c.refresh.token} else {})
    case RegisterReplyLost => w.(client := c.(register := NoRegister))
    case RefreshSettles => w.(client := c.(refresh := Idle))
    case RegisterSettles => w.(client := c.(register := NoRegister))
    case Others(r) => w.(db := After(w.db, r))
  }

  // ---------------------------------------------------------------- the invariant

  ghost predicate Spent(db: Db, t: nat) {
    t in db.tokens && db.tokens[t].revoked
  }

  /** A refresh token whose row, if still kept, is revoked exactly for one of the two reasons the ghosts record. */
  ghost predicate Explained(db: Db, unanswered: set<nat>, accused: set<nat>, t: nat) {
    t in db.tokens ==>
      && db.tokens[t].kind == Refresh
      && (db.tokens[t].revoked <==> t in unanswered || db.tokens[t].device in accused)
  }

  /** The refresh token the refresh task is about to present or has just presented. */
  function Presenting(r: RefreshTask): Option<nat> {
    match r
    case Read(current) => if current.Some? then Some(current.value.refresh) else None
    case Sent(t) => Some(t)
    case Replied(t, _) => Some(t)
    case _ => None
  }

  function RefreshOf(p: Option<Pair>): set<nat> {
    if p.Some? then {p.value.refresh} else {}
  }

  /** A token whose rotation is on its way back. */
  function InTransit(r: RefreshTask): set<nat> {
    if r.Replied? && r.reply.Rotated? then {r.token} else {}
  }

  function Incoming(r: RefreshTask): set<nat> {
    match r
    case Read(current) => RefreshOf(current)
    case Sent(t) => {t}
    case Replied(_, reply) => if reply.Rotated? then {reply.pair.refresh} else {}
    case _ => {}
  }

  function Registering(r: RegisterTask): set<nat> {
    if r.RegisterReplied? then {r.pair.refresh} else {}
  }

  /** Every refresh token the client may yet present. */
  function Held(c: Client): set<nat> {
    RefreshOf(c.cached) - InTransit(c.refresh) + Incoming(c.refresh) + Registering(c.register)
  }

  /** The tokens known here are the ones of the devices registered here. */
  ghost predicate MineByDevice(tokens: map<nat, Row>, mine: set<nat>, own: set<nat>) {
    forall t :: t in tokens ==> (t in mine <==> tokens[t].device in own)
  }

  ghost predicate ServerSide(w: World) {
    && AuthServer.Inv(w.db)
    && (forall t :: t in w.mine ==> t < w.db.nextToken)
    && (forall d :: d in w.own ==> d < w.db.nextDevice)
    && MineByDevice(w.db.tokens, w.mine, w.own)
  }

  ghost predicate GhostInv(w: World) {
    && w.unanswered <= w.mine && (forall t :: t in w.unanswered && t in w.db.tokens ==> w.db.tokens[t].revoked)
    && (forall d :: d in w.accused ==> ShutOut(w.db, d))
    && (forall t :: t in w.abandoned ==> t in w.mine)
  }

  ghost predicate HeldInv(w: World) {
    var (c, r) := (w.client, w.client.refresh);
    && Held(c) <= w.mine
    && (forall t :: t in Held(c) ==> Explained(w.db, w.unanswered, w.accused, t))
    && (r.Replied? ==> r.token in w.mine)
    && (forall t :: t in InTransit(r) ==> SpentIfKept(w.db, t))
    && (c.register.RegisterReplied? ==>
          var t := c.register.pair.refresh;
          Presenting(r) != Some(t) && t !in RefreshOf(c.cached) && t !in Incoming(r))
    && (r.Replied? && r.reply.Rotated? ==>
        r.reply.pair.refresh != r.token && r.reply.pair.refresh !in RefreshOf(c.cached))
  }

  ghost predicate Inv(w: World) {
    ServerSide(w) && GhostInv(w) && HeldInv(w)
  }

  ghost predicate Start(w: World) {
    && ServerSide(w) && w.client.refresh.Idle? && w.client.register.NoRegister?
    && w.abandoned == multiset{} && w.unanswered == {} && w.accused == {}
    && RefreshOf(w.client.cached) <= w.mine
    && (forall t :: t in RefreshOf(w.client.cached) && t in w.db.tokens ==> Live(w.db.tokens, t))
  }

  // ---------------------------------------------------------------- server steps seen from the client

  ghost predicate SameRows(a: map<nat, Row>, b: map<nat, Row>, ts: set<nat>) {
    forall t :: t in ts ==> (t in b <==> t in a) && (t in a && t in b ==> b[t] == a[t])
  }

  lemma OthersLeaveMineAlone(w: World, r: Request)
    requires ServerSide(w) && (r.Register? || r.token !in w.mine)
    ensures ServerSide(w.(db := After(w.db, r)))
    ensures SameRows(w.db.tokens, After(w.db, r).tokens, w.mine)
  {
    AfterKeepsInv(w.db, r);
    RequestsActOnOneDevice(w.db, r);
    OnlyOthersTouched(w, After(w.db, r), ActsOn(w.db, r));
  }

  lemma OnlyOthersTouched(w: World, db: Db, device: Option<nat>)
    requires ServerSide(w) && AuthServer.Inv(db) && OnlyActsOn(w.db, db, device)
    requires device.None? || device.value !in w.own
    ensures ServerSide(w.(db := db))
    ensures SameRows(w.db.tokens, db.tokens, w.mine)
  {
  }

  lemma IssuingKeepsMine(db: Db, device: nat, now: real, mine: set<nat>, own: set<nat>)
    requires MineByDevice(db.tokens, mine, own) && device in own
    requires forall t :: t in db.tokens ==> t < db.nextToken
    ensures var (db', pair) := Issued(db, device, now); MineByDevice(db'.tokens, mine + PairTokens(pair), own)
  {
  }

  lemma RotatingKeepsMine(db: Db, t: nat, now: real, mine: set<nat>, own: set<nat>)
    requires AuthServer.Inv(db) && MineByDevice(db.tokens, mine, own) && t in mine && Refreshed(db, t, now).1.Rotated?
    ensures var (db', reply) := Refreshed(db, t, now);
            MineByDevice(db'.tokens, mine + PairTokens(reply.pair), own)
  {
    var row := db.tokens[t];
    var kept := Pruned(db.tokens[t := row.(revoked := true)], row.device, now);
    assert MineByDevice(kept, mine, own);
    IssuingKeepsMine(db.(tokens := kept), row.device, now, mine, own);
  }

  lemma ServedKeepsServerSide(w: World, t: nat, now: real)
    requires ServerSide(w) && t in w.mine
    ensures ServerSide(Served(w, t, now))
  {
    var reply := Refreshed(w.db, t, now).1;
    if reply.Rotated? {
      RotationKeepsServerSide(w, t, now);
    } else if reply.ReuseDetected? {
      AfterKeepsInv(w.db, RefreshWith(t, now));
      ReuseKeepsMine(w.db, t, now, w.mine, w.own);
    }
  }

  lemma RotationKeepsServerSide(w: World, t: nat, now: real)
    requires ServerSide(w) && t in w.mine && Refreshed(w.db, t, now).1.Rotated?
    ensures ServerSide(Served(w, t, now))
  {
    AfterKeepsInv(w.db, RefreshWith(t, now));
    RotatingKeepsMine(w.db, t, now, w.mine, w.own);
    RotationTouchesOne(w.db, t, now);
  }

  lemma ReuseKeepsMine(db: Db, t: nat, now: real, mine: set<nat>, own: set<nat>)
    requires MineByDevice(db.tokens, mine, own) && Refreshed(db, t, now).1.ReuseDetected?
    ensures var db' := Refreshed(db, t, now).0;
            MineByDevice(db'.tokens, mine, own) && db'.nextToken == db.nextToken && db'.nextDevice == db.nextDevice
  {
    ReuseTouchesDevice(db, t, now);
  }

  /** A rotation changes no other row, save that old ones may go; the old token is spent and the new one is not. */
  lemma RotationTouchesOne(db: Db, t: nat, now: real)
    requires AuthServer.Inv(db) && Refreshed(db, t, now).1.Rotated?
    ensures var (db', reply) := Refreshed(db, t, now);
            && Live(db.tokens, t) && (t in db'.tokens ==> db'.tokens[t] == db.tokens[t].(revoked := true))
            && (forall u: nat :: u < db.nextToken && u != t && u in db'.tokens ==>
                u in db.tokens && db'.tokens[u] == db.tokens[u])
            && reply.pair.refresh == db.nextToken + 1 && Live(db'.tokens, reply.pair.refresh)
            && PairTokens(reply.pair) == {db.nextToken, db.nextToken + 1}
            && db'.nextToken == db.nextToken + 2 && db'.nextDevice == db.nextDevice
            && db'.tokens[reply.pair.refresh].device == db.tokens[t].device
  {
  }

  /** Reuse detection revokes the tokens of that device and changes nothing else. */
  lemma ReuseTouchesDevice(db: Db, t: nat, now: real)
    requires Refreshed(db, t, now).1.ReuseDetected?
    ensures var db' := Refreshed(db, t, now).0;
            && t in db.tokens && db'.tokens.Keys == db.tokens.Keys
            && db'.nextToken == db.nextToken && db'.nextDevice == db.nextDevice
            && forall u :: u in db.tokens ==>
                 db'.tokens[u] == if db.tokens[u].device == db.tokens[t].device
                                  then db.tokens[u].(revoked := true) else db.tokens[u]
  {
  }

  lemma ServedKeepsExplained(w: World, t: nat, now: real, unanswered: set<nat>, u: nat)
    requires ServerSide(w) && t in w.mine && u in w.mine && Explained(w.db, w.unanswered, w.accused, u)
    requires w.unanswered <= unanswered <= w.unanswered + {t}
    requires if Refreshed(w.db, t, now).1.Rotated? then u != t || t in unanswered else unanswered == w.unanswered
    ensures var w' := Served(w, t, now); Explained(w'.db, unanswered, w'.accused, u)
  {
    var reply := Refreshed(w.db, t, now).1;
    if reply.Rotated? {
      RotationTouchesOne(w.db, t, now);
    } else if reply.ReuseDetected? {
      ReuseTouchesDevice(w.db, t, now);
    }
  }

  lemma ServedKeepsGhostInv(w: World, t: nat, now: real)
    requires ServerSide(w) && GhostInv(w) && t in w.mine
    ensures GhostInv(Served(w, t, now))
    ensures Refreshed(w.db, t, now).1.Rotated? ==> GhostInv(Served(w, t, now).(unanswered := w.unanswered + {t}))
  {
    var reply := Refreshed(w.db, t, now).1;
    if reply.Rotated? {
      RotationKeepsGhostInv(w, t, now);
    } else if reply.ReuseDetected? {
      ReuseKeepsGhostInv(w, t, now);
    }
  }

  lemma RotationKeepsGhostInv(w: World, t: nat, now: real)
    requires ServerSide(w) && GhostInv(w) && t in w.mine && Refreshed(w.db, t, now).1.Rotated?
    ensures GhostInv(Served(w, t, now)) && GhostInv(Served(w, t, now).(unanswered := w.unanswered + {t}))
  {
    RotationTouchesOne(w.db, t, now);
    RotationKeepsAccused(w, t, now);
  }

  lemma ReuseKeepsGhostInv(w: World, t: nat, now: real)
    requires ServerSide(w) && GhostInv(w) && t in w.mine && Refreshed(w.db, t, now).1.ReuseDetected?
    ensures GhostInv(Served(w, t, now))
  {
    ReuseTouchesDevice(w.db, t, now);
    ShutOutBy(w.db, RefreshWith(t, now));
  }

  lemma RotationKeepsAccused(w: World, t: nat, now: real)
    requires ServerSide(w) && GhostInv(w) && Refreshed(w.db, t, now).1.Rotated?
    ensures w.db.tokens[t].device !in w.accused
    ensures forall d :: d in w.accused ==> ShutOut(Served(w, t, now).db, d)
  {
    RotationTouchesOne(w.db, t, now);
    forall d | d in w.accused
      ensures ShutOut(Served(w, t, now).db, d)
    {
      ShutOutStep(w.db, d, RefreshWith(t, now));
    }
  }

  lemma ServeRefreshKeepsInv(w: World, now: real)
    requires Inv(w) && w.client.refresh.Sent?
    ensures Inv(Next(w, ServeRefresh(now)))
  {
    var t, w' := w.client.refresh.token, Next(w, ServeRefresh(now));
    assert t in Held(w.client);
    assert ServerSide(w') by {
      ServedKeepsServerSide(w, t, now);
    }
    assert GhostInv(w') by {
      ServedKeepsGhostInv(w, t, now);
    }
    assert HeldInv(w') by {
      if Refreshed(w.db, t, now).1.Rotated? {
        RotationKeepsHeld(w, now);
      } else {
        RefusalKeepsHeld(w, now);
      }
    }
  }

  lemma RotationKeepsHeld(w: World, now: real)
    requires Inv(w) && w.client.refresh.Sent? && Refreshed(w.db, w.client.refresh.token, now).1.Rotated?
    ensures HeldInv(Next(w, ServeRefresh(now)))
  {
    var t, w' := w.client.refresh.token, Next(w, ServeRefresh(now));
    var issued := w'.client.refresh.reply.pair.refresh;
    RotationTouchesOne(w.db, t, now);
    RotationKeepsAccused(w, t, now);
    assert Held(w'.client) == Held(w.client) - {t} + {issued};
    forall u | u in Held(w.client) - {t}
      ensures Explained(w'.db, w'.unanswered, w'.accused, u)
    {
      ServedKeepsExplained(w, t, now, w.unanswered, u);
    }
    assert Explained(w'.db, w'.unanswered, w'.accused, issued);
  }

  lemma RefusalKeepsHeld(w: World, now: real)
    requires Inv(w) && w.client.refresh.Sent? && !Refreshed(w.db, w.client.refresh.token, now).1.Rotated?
    ensures HeldInv(Next(w, ServeRefresh(now)))
  {
    var t, w' := w.client.refresh.token, Next(w, ServeRefresh(now));
    assert Held(w'.client) <= Held(w.client);
    forall u | u in Held(w.client)
      ensures Explained(w'.db, w'.unanswered, w'.accused, u)
    {
      ServedKeepsExplained(w, t, now, w.unanswered, u);
    }
  }

  lemma ServeAbandonedKeepsInv(w: World, t: nat, now: real)
    requires Inv(w) && t in w.abandoned
    ensures Inv(Next(w, ServeAbandoned(t, now)))
  {
    var w' := Next(w, ServeAbandoned(t, now));
    ServedKeepsServerSide(w, t, now);
    ServedKeepsGhostInv(w, t, now);
    forall u | u in Held(w.client)
      ensures Explained(w'.db, w'.unanswered, w'.accused, u)
    {
      ServedKeepsExplained(w, t, now, w'.unanswered, u);
    }
    ServedKeepsSpent(w, t, now);
  }

  /** The row, if still kept, is that of a refresh token which has been revoked. */
  ghost predicate SpentIfKept(db: Db, t: nat) {
    t in db.tokens ==> db.tokens[t].kind == Refresh && db.tokens[t].revoked
  }

  lemma ServedKeepsSpent(w: World, t: nat, now: real)
    requires ServerSide(w) && t in w.mine
    ensures forall u :: u in w.mine && SpentIfKept(w.db, u) ==> SpentIfKept(Served(w, t, now).db, u)
  {
    var reply := Refreshed(w.db, t, now).1;
    if reply.Rotated? {
      RotationTouchesOne(w.db, t, now);
    } else if reply.ReuseDetected? {
      ReuseTouchesDevice(w.db, t, now);
    }
  }

  /** A registration adds one device with its pair and touches no other row. */
  lemma RegistrationAddsOne(db: Db, now: real)
    requires AuthServer.Inv(db)
    ensures var (db', pair) := Registered(db, now);
            && db'.nextToken == db.nextToken + 2 && db'.nextDevice == db.nextDevice + 1
            && pair.device == db.nextDevice && pair.refresh == db.nextToken + 1
            && PairTokens(pair) == {db.nextToken, db.nextToken + 1}
            && (forall t :: t in db'.tokens <==> t in db.tokens || t in PairTokens(pair))
            && (forall t :: t in db.tokens ==> db'.tokens[t] == db.tokens[t])
            && (forall t :: t in PairTokens(pair) ==> db'.tokens[t].device == pair.device)
            && Live(db'.tokens, pair.refresh)
  {
  }

  lemma ServingMyRegister(w: World, now: real)
    requires ServerSide(w) && w.client.register.RegisterSent?
    ensures var w' := Next(w, ServeRegister(now));
            var t := w'.client.register.pair.refresh;
            && ServerSide(w') && SameRows(w.db.tokens, w'.db.tokens, w.mine) && t !in w.mine
            && Live(w'.db.tokens, t) && w'.db.tokens[t].device == w.db.nextDevice
            && w'.db.nextDevice == w.db.nextDevice + 1
  {
    RegistrationAddsOne(w.db, now);
    RegistrationKeepsServerSide(w, now);
  }

  lemma RegistrationKeepsServerSide(w: World, now: real)
    requires ServerSide(w) && w.client.register.RegisterSent?
    ensures ServerSide(Next(w, ServeRegister(now)))
  {
    AfterKeepsInv(w.db, Request.Register(now));
    RegistrationAddsOne(w.db, now);
  }

  lemma ServeRegisterKeepsInv(w: World, now: real)
    requires Inv(w) && w.client.register.RegisterSent?
    ensures Inv(Next(w, ServeRegister(now)))
  {
    ServingMyRegister(w, now);
    var w' := Next(w, ServeRegister(now));
    forall d | d in w.accused
      ensures ShutOut(w'.db, d)
    {
      ShutOutStep(w.db, d, Request.Register(now));
    }
    RegistrationKeepsHeld(w, now);
  }

  lemma RegistrationKeepsHeld(w: World, now: real)
    requires Inv(w) && w.client.register.RegisterSent?
    ensures HeldInv(Next(w, ServeRegister(now)))
  {
    ServingMyRegister(w, now);
    var w' := Next(w, ServeRegister(now));
    var t := w'.client.register.pair.refresh;
    assert t !in w.unanswered && w.db.nextDevice !in w.accused;
    assert Held(w'.client) == Held(w.client) + {t};
    forall u | u in Held(w.client)
      ensures Explained(w'.db, w'.unanswered, w'.accused, u)
    {
      assert Explained(w.db, w.unanswered, w.accused, u);
    }
    assert Explained(w'.db, w'.unanswered, w'.accused, t);
  }

  lemma OthersKeepInv(w: World, r: Request)
    requires Inv(w) && (r.Register? || r.token !in w.mine)
    ensures Inv(w.(db := After(w.db, r)))
  {
    OthersLeaveMineAlone(w, r);
    forall d | d in w.accused
      ensures ShutOut(After(w.db, r), d)
    {
      ShutOutStep(w.db, d, r);
    }
  }

  /** Without the server, what the client holds only changes hands. */
  lemma ClientStepKeepsInv(w: World, e: Event)
    requires Inv(w) && Enabled(w, e)
    requires !e.ServeRefresh? && !e.ServeRegister? && !e.ServeAbandoned? && !e.Others?
    ensures Inv(Next(w, e))
  {
    if e.RefreshReplyLost? {
      LosingKeepsInv(w);
    } else if e.RefreshGivenUp? {
      assert w.client.refresh.token in Held(w.client);
    } else {
      MovingKeepsHeld(w, e);
    }
  }

  lemma LosingKeepsInv(w: World)
    requires Inv(w) && w.client.refresh.Replied?
    ensures Inv(Next(w, RefreshReplyLost))
  {
    var w', t := Next(w, RefreshReplyLost), w.client.refresh.token;
    forall u | u in Held(w'.client)
      ensures u in w.mine && Explained(w'.db, w'.unanswered, w'.accused, u)
    {
      assert u == t || u in Held(w.client);
    }
  }

  lemma MovingKeepsHeld(w: World, e: Event)
    requires Inv(w) && Enabled(w, e)
    requires !e.ServeRefresh? && !e.ServeRegister? && !e.ServeAbandoned? && !e.Others?
    requires !e.RefreshReplyLost? && !e.RefreshGivenUp?
    ensures HeldInv(Next(w, e))
  {
    assert Held(Next(w, e).client) <= Held(w.client);
  }

  lemma NextKeepsInv(w: World, e: Event)
    requires Inv(w) && Enabled(w, e)
    ensures Inv(Next(w, e))
  {
    if e.ServeRefresh? {
      ServeRefreshKeepsInv(w, e.now);
    } else if e.ServeRegister? {
      ServeRegisterKeepsInv(w, e.now);
    } else if e.ServeAbandoned? {
      ServeAbandonedKeepsInv(w, e.token, e.now);
    } else if e.Others? {
      OthersKeepInv(w, e.request);
    } else {
      ClientStepKeepsInv(w, e);
    }
  }

  // ---------------------------------------------------------------- theorems over every run

  ghost predicate IsRun(worlds: seq<World>, events: seq<Event>) {
    && |worlds| == |events| + 1
    && Start(worlds[0])
    && forall i :: 0 <= i < |events| ==> Enabled(worlds[i], events[i]) && worlds[i + 1] == Next(worlds[i], events[i])
  }

  lemma {:induction false} EveryRunKeepsInv(worlds: seq<World>, events: seq<Event>, k: nat)
    requires IsRun(worlds, events) && k < |worlds|
    ensures Inv(worlds[k])
  {
    if k > 0 {
      EveryRunKeepsInv(worlds, events, k - 1);
      NextKeepsInv(worlds[k - 1], events[k - 1]);
      assert worlds[k - 1 + 1] == Next(worlds[k - 1], events[k - 1]);
    }
  }

  /**
   * In every run, whatever is lost or served late, the token the client presents is taken for reuse exactly when
   * its row is still kept and either a rotation of it went unanswered or its device has already been accused; and
   * then its device is shut out.
   */
  lemma PresentedIsReuseIff(worlds: seq<World>, events: seq<Event>, k: nat, now: real)
    requires IsRun(worlds, events) && k < |worlds| && worlds[k].client.refresh.Sent?
    ensures var w, t := worlds[k], worlds[k].client.refresh.token;
            Refreshed(w.db, t, now).1 == ReuseDetected <==>
            t in w.db.tokens && (t in w.unanswered || w.db.tokens[t].device in w.accused)
    ensures var w, t := worlds[k], worlds[k].client.refresh.token;
            Refreshed(w.db, t, now).1 == ReuseDetected ==> ShutOut(Served(w, t, now).db, w.db.tokens[t].device)
  {
    EveryRunKeepsInv(worlds, events, k);
    var w, t := worlds[k], worlds[k].client.refresh.token;
    ShutOutBy(w.db, RefreshWith(t, now));
    assert t in Held(w.client) && Explained(w.db, w.unanswered, w.accused, t);
  }

  /** A rotation whose reply is lost, or an abandoned request that the server still rotates or finds to be reuse. */
  ghost predicate Harmful(w: World, e: Event) {
    || (e.RefreshReplyLost? && w.client.refresh.Replied? && w.client.refresh.reply.Rotated?)
    || (e.ServeAbandoned? && var reply := Refreshed(w.db, e.token, e.now).1; reply.Rotated? || reply.ReuseDetected?)
  }

  ghost predicate Blamed(w: World) {
    w.unanswered != {} || w.accused != {}
  }

  ghost predicate SomeHarmful(worlds: seq<World>, events: seq<Event>, k: nat)
    requires k <= |events| && k < |worlds|
  {
    exists i :: 0 <= i < k && Harmful(worlds[i], events[i])
  }

  /** Something goes unanswered or a device is accused exactly in the runs that hold a harmful event. */
  lemma {:induction false} BlamedIffHarmful(worlds: seq<World>, events: seq<Event>, k: nat)
    requires IsRun(worlds, events) && k < |worlds|
    ensures Blamed(worlds[k]) <==> SomeHarmful(worlds, events, k)
  {
    if k > 0 {
      BlamedIffHarmful(worlds, events, k - 1);
      EveryRunKeepsInv(worlds, events, k - 1);
      BlamedNext(worlds, events, k - 1);
    }
  }

  lemma BlamedNext(worlds: seq<World>, events: seq<Event>, k: nat)
    requires k < |events| && k + 1 < |worlds| && Inv(worlds[k]) && Enabled(worlds[k], events[k])
    requires worlds[k + 1] == Next(worlds[k], events[k])
    requires Blamed(worlds[k]) <==> SomeHarmful(worlds, events, k)
    ensures Blamed(worlds[k + 1]) <==> SomeHarmful(worlds, events, k + 1)
  {
    BlameStep(worlds[k], events[k]);
    assert SomeHarmful(worlds, events, k + 1) <==>
           SomeHarmful(worlds, events, k) || Harmful(worlds[k], events[k]);
  }

  lemma BlameStep(w: World, e: Event)
    requires Inv(w) && Enabled(w, e)
    ensures Blamed(Next(w, e)) <==> Blamed(w) || Harmful(w, e)
  {
    assert w.client.refresh.Sent? ==> w.client.refresh.token in Held(w.client);
  }

  /**
   * However calls interleave, up to the first harmful event the client only ever presents a refresh token that is
   * not revoked, and reuse detection never fires on it.
   */
  lemma HonestClientIsNeverCaught(worlds: seq<World>, events: seq<Event>, k: nat)
    requires IsRun(worlds, events) && k < |worlds|
    requires !SomeHarmful(worlds, events, k)
    ensures worlds[k].client.refresh.Sent? ==> !Spent(worlds[k].db, worlds[k].client.refresh.token)
    ensures worlds[k].accused == {}
  {
    EveryRunKeepsInv(worlds, events, k);
    BlamedIffHarmful(worlds, events, k);
    if worlds[k].client.refresh.Sent? {
      assert worlds[k].client.refresh.token in Held(worlds[k].client);
    }
  }

  // ---------------------------------------------------------------- and both harms do happen

  const NEW: World := World(EMPTY, Client(None, Idle, NoRegister), {}, {}, multiset{}, {}, {})

  lemma Extended(worlds: seq<World>, events: seq<Event>, e: Event) returns (worlds': seq<World>, events': seq<Event>)
    requires IsRun(worlds, events) && Enabled(worlds[|events|], e)
    ensures IsRun(worlds', events') && worlds' == worlds + [Next(worlds[|events|], e)] && events' == events + [e]
  {
    worlds', events' := worlds + [Next(worlds[|events|], e)], events + [e];
  }

  /** A new client registers: device 0 with access token 0 and refresh token 1. */
  ghost predicate JustRegistered(w: World, register: RegisterTask) {
    && w.client == Client(Some(Pair(0, 0, ACCESS_TTL, 1, REFRESH_TTL)), Idle, register)
    && w.db == Db(map[0 := Row(0, Access, ACCESS_TTL, false), 1 := Row(0, Refresh, REFRESH_TTL, false)],
                  map[0 := 0], 2, 1)
    && w.mine == {0, 1} && w.own == {0} && w.abandoned == multiset{} && w.unanswered == {} && w.accused == {}
  }

  lemma Registers() returns (worlds: seq<World>, events: seq<Event>)
    ensures IsRun(worlds, events) && |events| == 4 && JustRegistered(worlds[4], NoRegister)
  {
    worlds, events := [NEW], [];
    worlds, events := Extended(worlds, events, CallRegister);
    worlds, events := Extended(worlds, events, ServeRegister(0.0));
    worlds, events := Extended(worlds, events, RegisterReply);
    worlds, events := Extended(worlds, events, RegisterSettles);
  }

  /** It presents refresh token 1. */
  lemma Presents() returns (worlds: seq<World>, events: seq<Event>)
    ensures IsRun(worlds, events) && |events| == 6
    ensures var w := worlds[6];
            JustRegistered(w.(client := w.client.(refresh := Idle)), NoRegister) && w.client.refresh == Sent(1)
  {
    worlds, events := Registers();
    worlds, events := Extended(worlds, events, CallRefresh);
    worlds, events := Extended(worlds, events, ReadSession(false));
  }

  /** Token 1 has been rotated but the client still holds it. */
  ghost predicate Stuck(w: World) {
    && w.client.cached.Some? && w.client.cached.value.refresh == 1 && w.client.refresh.Idle?
    && 1 in w.db.tokens && w.db.tokens[1].kind == Refresh && w.db.tokens[1].revoked && w.db.tokens[1].device == 0
    && 0 in w.db.devices && w.unanswered == {1}
  }

  /** The server rotates token 1 for it. */
  lemma Rotates() returns (worlds: seq<World>, events: seq<Event>)
    ensures IsRun(worlds, events) && |events| == 7
    ensures var w := worlds[7];
            && w.client.refresh.Replied? && w.client.refresh.token == 1 && w.client.refresh.reply.Rotated?
            && w.unanswered == {} && Stuck(w.(client := w.client.(refresh := Idle), unanswered := {1}))
  {
    worlds, events := Presents();
    RotationTouchesOne(worlds[6].db, 1, 1.0);
    worlds, events := Extended(worlds, events, ServeRefresh(1.0));
  }

  lemma LosesReply() returns (worlds: seq<World>, events: seq<Event>)
    ensures IsRun(worlds, events) && |events| == 8 && events[7] == RefreshReplyLost && Stuck(worlds[8])
  {
    worlds, events := Rotates();
    worlds, events := Extended(worlds, events, RefreshReplyLost);
  }

  /** The reply to the rotation is lost; the client presents token 1 again, and its device is shut out. */
  lemma LostReplyIsTakenForTheft() returns (worlds: seq<World>, events: seq<Event>)
    ensures IsRun(worlds, events) && |events| == 11 && events[7] == RefreshReplyLost
    ensures worlds[11].client.refresh == Replied(1, ReuseDetected) && ShutOut(worlds[11].db, 0)
  {
    worlds, events := LosesReply();
    worlds, events := Extended(worlds, events, CallRefresh);
    worlds, events := Extended(worlds, events, ReadSession(false));
    EveryRunKeepsInv(worlds, events, 10);
    ShutOutBy(worlds[10].db, RefreshWith(1, 2.0));
    worlds, events := Extended(worlds, events, ServeRefresh(2.0));
  }

  /** The client has token 1 rotated by its second request while the first is still on its way. */
  ghost predicate Overtaken(w: World) {
    && w.client.cached.Some? && w.client.cached.value.device == 0 && w.client.cached.value.refresh != 1
    && 1 in w.db.tokens && w.db.tokens[1].kind == Refresh && w.db.tokens[1].revoked && w.db.tokens[1].device == 0
    && 0 in w.db.devices && 1 in w.abandoned
  }

  /** The client gives up on its request and presents token 1 again. */
  lemma PresentsAgain() returns (worlds: seq<World>, events: seq<Event>)
    ensures IsRun(worlds, events) && |events| == 9
    ensures var w := worlds[9];
            && JustRegistered(w.(client := w.client.(refresh := Idle), abandoned := multiset{}), NoRegister)
            && w.client.refresh == Sent(1) && w.abandoned == multiset{1}
  {
    worlds, events := Presents();
    worlds, events := Extended(worlds, events, RefreshGivenUp);
    worlds, events := Extended(worlds, events, CallRefresh);
    worlds, events := Extended(worlds, events, ReadSession(false));
  }

  lemma Overtakes() returns (worlds: seq<World>, events: seq<Event>)
    ensures IsRun(worlds, events) && |events| == 11 && Overtaken(worlds[11])
  {
    worlds, events := PresentsAgain();
    RotationTouchesOne(worlds[9].db, 1, 1.0);
    worlds, events := Extended(worlds, events, ServeRefresh(1.0));
    worlds, events := Extended(worlds, events, RefreshReply);
  }

  /** The server then gets to the first request and takes it for theft: the session just given is shut out. */
  lemma LateServiceIsTakenForTheft() returns (worlds: seq<World>, events: seq<Event>)
    ensures IsRun(worlds, events) && |events| == 12 && events[11] == ServeAbandoned(1, 2.0)
    ensures worlds[12].client.cached.Some? && worlds[12].client.cached.value.device == 0 && ShutOut(worlds[12].db, 0)
  {
    worlds, events := Overtakes();
    EveryRunKeepsInv(worlds, events, 11);
    ShutOutBy(worlds[11].db, RefreshWith(1, 2.0));
    worlds, events := Extended(worlds, events, ServeAbandoned(1, 2.0));
  }

  // ---------------------------------------------------------------- the module variables as the code keeps them

  class Session {
    var cachedSession: Option<Pair>
    var inFlightRefresh: RefreshTask
    var inFlightRegister: RegisterTask

    function State(): Client
      reads this
    {
      Client(cachedSession, inFlightRefresh, inFlightRegister)
    }

    method RefreshSession()
      modifies this
      ensures State() == RefreshCalled(old(State()))
    {
      if inFlightRefresh != Idle {
        return;
      }
      inFlightRefresh := Read(cachedSession);
    }

    method RegisterDevice()
      modifies this
      ensures State() == RegisterCalled(old(State()))
    {
      if inFlightRegister != NoRegister {
        return;
      }
      inFlightRegister := RegisterSent;
    }

    method AfterReadSession(expired: bool)
      requires inFlightRefresh.Read?
      modifies this
      ensures State() == SessionRead(old(State()), expired)
    {
      var current := inFlightRefresh.current;
      if current == None || expired {
        ResetSession();
        return;
      }
      inFlightRefresh := Sent(current.value.refresh);
    }

    /** The first stretch of resetAndRegister. */
    method ResetSession()
      modifies this
      ensures State() == old(State()).(cached := None, refresh := Clearing)
    {
      cachedSession := None;
      inFlightRefresh := Clearing;
    }

    /** The second stretch of resetAndRegister. */
    method AfterClearSession()
      requires inFlightRefresh.Clearing?
      modifies this
      ensures State() == Cleared(old(State()))
    {
      RegisterDevice();
      inFlightRefresh := AwaitingRegister;
    }

    method OnRefreshReply()
      requires inFlightRefresh.Replied?
      modifies this
      ensures State() == ReplyArrived(old(State()))
    {
      match inFlightRefresh.reply
      case Rotated(pair) =>
        cachedSession := Some(pair);
        inFlightRefresh := Saving;
      case _ =>
        ResetSession();
    }

    method OnRegisterReply()
      requires inFlightRegister.RegisterReplied?
      modifies this
      ensures State() == RegisterReplyArrived(old(State()))
    {
      cachedSession := Some(inFlightRegister.pair);
      inFlightRegister := RegisterSaving;
    }
  }
}
