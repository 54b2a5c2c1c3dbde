/** The per-client rate limiter (internal/handlers/ratelimit.go). */
module RateLimiting {
  import opened Prelude
  import opened TokenBucket

  /** A limiter's fields; lastSweep 0.0 is the zero time no clock reading precedes. */
  datatype Limiter = Limiter(perMinute: real, clients: map<string, Bucket>, lastSweep: real)

  datatype Answer = Answer(allowed: bool, wait: real)

  datatype Request = Request(key: string, at: real)

  function Fresh(perMinute: real): Limiter {
    Limiter(perMinute, map[], 0.0)
  }

  function Swept(l: Limiter, now: real): Limiter {
    if now - l.lastSweep < 60.0 then l
    else l.(lastSweep := now, clients := map k | k in l.clients && now - l.clients[k].last < 60.0 :: l.clients[k])
  }

  /** Takes a token for key from a limiter that never forgets a client. */
  function Admit(l: Limiter, key: string, now: real): (Limiter, Answer)
    requires l.perMinute != 0.0
  {
    var b := if key in l.clients then l.clients[key] else Bucket(l.perMinute, now);
    var (b', ok) := Take(l.perMinute, l.perMinute / 60.0, b, now);
    (l.(clients := l.clients[key := b']), Answer(ok, if ok then 0.0 else (1.0 - b'.tokens) / l.perMinute * 60.0))
  }

  function Allowed(l: Limiter, key: string, now: real): (Limiter, Answer)
    requires l.perMinute != 0.0
  {
    Admit(Swept(l, now), key, now)
  }

  ghost predicate Ordered(reqs: seq<Request>) {
    && (forall i :: 0 <= i < |reqs| ==> 0.0 <= reqs[i].at)
    && (forall i, j :: 0 <= i <= j < |reqs| ==> reqs[i].at <= reqs[j].at)
  }

  /** Serves the requests in order with the given limiter step, from a fresh limiter. */
  function Serve(perMinute: real, reqs: seq<Request>, sweeping: bool): (r: (Limiter, seq<Answer>))
    requires perMinute != 0.0
    ensures r.0.perMinute == perMinute && |r.1| == |reqs|
  {
    if reqs == [] then (Fresh(perMinute), [])
    else
      var n := |reqs| - 1;
      var (l, answers) := Serve(perMinute, reqs[..n], sweeping);
      var (l', a) := if sweeping then Allowed(l, reqs[n].key, reqs[n].at) else Admit(l, reqs[n].key, reqs[n].at);
      (l', answers + [a])
  }

  // ---------------------------------------------------------------- the sweep is unobservable

  ghost predicate Sound(l: Limiter, now: real) {
    forall k :: k in l.clients ==> l.clients[k].last <= now && 0.0 <= l.clients[k].tokens <= l.perMinute
  }

  /** s kept only clients that agree with f, and whoever it forgot has a full bucket in f by now. */
  ghost predicate Agree(s: Limiter, f: Limiter, now: real) {
    && s.perMinute == f.perMinute
    && (forall k :: k in s.clients ==> k in f.clients && f.clients[k] == s.clients[k])
    && (forall k :: k in f.clients && k !in s.clients ==> 60.0 <= now - f.clients[k].last)
  }

  lemma AdmitKeepsSound(l: Limiter, key: string, before: real, now: real)
    requires 1.0 <= l.perMinute && Sound(l, before) && before <= now
    ensures Sound(Admit(l, key, now).0, now)
  {
    var b := if key in l.clients then l.clients[key] else Bucket(l.perMinute, now);
    TakeSpends(l.perMinute, l.perMinute / 60.0, b, now);
  }

  lemma SweepStep(s: Limiter, f: Limiter, before: real, key: string, now: real)
    requires 1.0 <= s.perMinute && before <= now
    requires Agree(s, f, before) && Sound(f, before)
    ensures Allowed(s, key, now).1 == Admit(f, key, now).1
    ensures Agree(Allowed(s, key, now).0, Admit(f, key, now).0, now)
  {
    var s' := Swept(s, now);
    assert Agree(s', f, now);
    if key in f.clients && key !in s'.clients {
      FullAfterAMinute(f.perMinute, f.perMinute / 60.0, f.clients[key], now);
      FullStaysFull(f.perMinute, f.perMinute / 60.0, now);
    }
  }

  /** Sweeping changes no answer: it gives exactly the answers of a limiter that never forgets a client. */
  lemma {:induction false} SweepIsUnobservable(perMinute: real, reqs: seq<Request>)
    requires 1.0 <= perMinute && Ordered(reqs)
    ensures Serve(perMinute, reqs, true).1 == Serve(perMinute, reqs, false).1
    ensures reqs != [] ==>
              var now := reqs[|reqs| - 1].at;
              var (s, f) := (Serve(perMinute, reqs, true).0, Serve(perMinute, reqs, false).0);
              Agree(s, f, now) && Sound(f, now)
  {
    if reqs != [] {
      var n := |reqs| - 1;
      SweepIsUnobservable(perMinute, reqs[..n]);
      var (s, f) := (Serve(perMinute, reqs[..n], true).0, Serve(perMinute, reqs[..n], false).0);
      var before := if n == 0 then reqs[0].at else reqs[n - 1].at;
      SweepStep(s, f, before, reqs[n].key, reqs[n].at);
      AdmitKeepsSound(f, reqs[n].key, before, reqs[n].at);
    }
  }

  // ---------------------------------------------------------------- memory stays bounded by recent clients

  ghost predicate RecentlySwept(l: Limiter, now: real) {
    && l.lastSweep <= now < l.lastSweep + 60.0
    && (forall k :: k in l.clients ==> l.lastSweep - 60.0 < l.clients[k].last)
  }

  /** After any run, every client still held was seen less than two minutes ago. */
  lemma {:induction false} RetainedClientsAreRecent(perMinute: real, reqs: seq<Request>)
    requires 1.0 <= perMinute && Ordered(reqs) && reqs != []
    ensures var now := reqs[|reqs| - 1].at;
            var l := Serve(perMinute, reqs, true).0;
            RecentlySwept(l, now) && forall k :: k in l.clients ==> now - 120.0 < l.clients[k].last
  {
    var n := |reqs| - 1;
    var l := Serve(perMinute, reqs[..n], true).0;
    if n > 0 {
      RetainedClientsAreRecent(perMinute, reqs[..n]);
    }
    KeepsRecent(l, if n == 0 then 0.0 else reqs[n - 1].at, reqs[n].key, reqs[n].at);
  }

  lemma KeepsRecent(l: Limiter, before: real, key: string, now: real)
    requires 1.0 <= l.perMinute && before <= now && RecentlySwept(l, before)
    ensures RecentlySwept(Allowed(l, key, now).0, now)
  {
    var l', s := Allowed(l, key, now).0, Swept(l, now);
    assert l'.clients[key].last == now;
    assert forall k :: k in l'.clients && k != key ==> k in s.clients && l'.clients[k] == s.clients[k];
  }

  /**
   * Sweeps come at least a minute apart; in between no client is forgotten, and a sweep forgets just those not seen
   * for a minute.
   */
  lemma SweepsAreAMinuteApart(l: Limiter, key: string, now: real, k: string)
    requires l.perMinute != 0.0 && l.lastSweep <= now
    ensures var l' := Allowed(l, key, now).0;
            && l'.lastSweep == (if now - l.lastSweep < 60.0 then l.lastSweep else now)
            && (k in l'.clients <==>
                  k == key || (k in l.clients && (now - l.lastSweep < 60.0 || now - l.clients[k].last < 60.0)))
  {
  }

  /** A client that is served is not told to wait. */
  lemma ServedWithoutWait(l: Limiter, key: string, now: real)
    requires l.perMinute != 0.0
    ensures Allowed(l, key, now).1.allowed ==> Allowed(l, key, now).1.wait == 0.0
  {
  }

  // ---------------------------------------------------------------- each client has exactly its own limit

  function Own(key: string, reqs: seq<Request>): seq<real> {
    if reqs == [] then []
    else
      var n := |reqs| - 1;
      var before := Own(key, reqs[..n]);
      if reqs[n].key == key then before + [reqs[n].at] else before
  }

  function OwnAnswers(key: string, reqs: seq<Request>, answers: seq<Answer>): (r: seq<bool>)
    requires |answers| == |reqs|
    ensures |r| == |Own(key, reqs)|
  {
    if reqs == [] then []
    else
      var n := |reqs| - 1;
      var before := OwnAnswers(key, reqs[..n], answers[..n]);
      if reqs[n].key == key then before + [answers[n].allowed] else before
  }

  lemma {:induction false} ClientsAreIsolated(perMinute: real, reqs: seq<Request>, key: string)
    requires 1.0 <= perMinute
    ensures var (l, answers) := Serve(perMinute, reqs, false);
            var own := Own(key, reqs);
            && (key in l.clients <==> own != [])
            && (own != [] ==> (l.clients[key], OwnAnswers(key, reqs, answers)) == Run(perMinute, perMinute / 60.0, own))
  {
    if reqs != [] {
      var n := |reqs| - 1;
      var (l, answers) := Serve(perMinute, reqs, false);
      ClientsAreIsolated(perMinute, reqs[..n], key);
      assert answers[..n] == Serve(perMinute, reqs[..n], false).1;
      if reqs[n].key == key {
        RunSnoc(perMinute, perMinute / 60.0, Own(key, reqs[..n]), reqs[n].at);
      }
    }
  }

  /**
   * After any run of requests by any clients, a client's next request is allowed exactly when
   * none of its own windows would exceed perMinute * (1 + minutes) allowed requests.
   */
  lemma AllowedIffOwnWindowsHaveRoom(perMinute: real, reqs: seq<Request>, r: Request)
    requires 1.0 <= perMinute && Ordered(reqs + [r])
    ensures var (l, answers) := Serve(perMinute, reqs, true);
            var (own, granted) := (Own(r.key, reqs), OwnAnswers(r.key, reqs, answers));
            Allowed(l, r.key, r.at).1.allowed <==>
            EveryWindowHasRoom(perMinute, perMinute / 60.0, own, granted, r.at)
  {
    AnswersAgree(perMinute, reqs, r);
    ClientsAreIsolated(perMinute, reqs, r.key);
    var own := Own(r.key, reqs);
    if own == [] {
      FullStaysFull(perMinute, perMinute / 60.0, r.at);
    } else {
      GrantedIffEveryWindowHasRoom(perMinute, perMinute / 60.0, own, r.at);
    }
  }

  lemma AnswersAgree(perMinute: real, reqs: seq<Request>, r: Request)
    requires 1.0 <= perMinute && Ordered(reqs + [r])
    ensures Serve(perMinute, reqs, true).1 == Serve(perMinute, reqs, false).1
    ensures Allowed(Serve(perMinute, reqs, true).0, r.key, r.at).1
              == Admit(Serve(perMinute, reqs, false).0, r.key, r.at).1
  {
    var all, n := reqs + [r], |reqs|;
    assert all[..n] == reqs;
    SweepIsUnobservable(perMinute, all);
    var (swept, forever) := (Serve(perMinute, all, true).1, Serve(perMinute, all, false).1);
    assert swept[..n] == Serve(perMinute, reqs, true).1 && forever[..n] == Serve(perMinute, reqs, false).1;
    assert swept[n] == forever[n];
  }

  /** The wait reported with a refusal is exact: a client that stays away is served from then on, and not before. */
  lemma WaitIsExact(l: Limiter, key: string, now: real, retry: real)
    requires 1.0 <= l.perMinute && now <= retry && !Admit(l, key, now).1.allowed
    ensures var (l', a) := Admit(l, key, now);
            0.0 < a.wait && (Admit(l', key, retry).1.allowed <==> now + a.wait <= retry)
  {
    var (l', a) := Admit(l, key, now);
    WaitRefills(l.perMinute, l.perMinute / 60.0, l'.clients[key].tokens, a.wait);
    ServedAfterWait(l.perMinute, l.perMinute / 60.0, l'.clients[key], a.wait, retry);
  }

  lemma WaitRefills(perMinute: real, rate: real, tokens: real, wait: real)
    requires 0.0 < rate && perMinute == 60.0 * rate && wait == (1.0 - tokens) / perMinute * 60.0
    ensures wait * rate == 1.0 - tokens
  {
    var q := (1.0 - tokens) / perMinute;
    assert q * perMinute == 1.0 - tokens;
    assert (q * 60.0) * rate == q * (60.0 * rate);
  }

  lemma ServedAfterWait(cap: real, rate: real, b: Bucket, wait: real, retry: real)
    requires 1.0 <= cap && 0.0 < rate && b.tokens < 1.0 && wait * rate == 1.0 - b.tokens
    ensures 0.0 < wait && (Take(cap, rate, b, retry).1 <==> b.last + wait <= retry)
  {
    if wait <= 0.0 {
      MulMono(wait, 0.0, rate);
    }
    if retry - b.last < wait {
      StrictMul(retry - b.last, wait, rate);
      assert Accrued(rate, b.last, retry) < 1.0 - b.tokens;
    } else {
      AccruedAtLeast(rate, b.last, retry, wait);
    }
  }

  // ---------------------------------------------------------------- the limiter as the code keeps it

  class RateLimiter {
    const perMinute: real
    var clients: map<string, Bucket>
    var lastSweep: real

    function State(): Limiter
      reads this
    {
      Limiter(perMinute, clients, lastSweep)
    }

    constructor (perMinute: int)
      requires perMinute > 0
      ensures State() == Fresh(perMinute as real)
    {
      this.perMinute := perMinute as real;
      clients := map[];
      lastSweep := 0.0;
    }

    method Allow(key: string, now: real) returns (ok: bool, wait: real)
      requires perMinute > 0.0
      modifies this
      ensures (State(), Answer(ok, wait)) == Allowed(old(State()), key, now)
    {
      SweepLocked(now);
      var b := Bucket(perMinute, now);
      if key in clients {
        b := clients[key];
      }
      var tokens := Refilled(perMinute, perMinute / 60.0, b, now);
      if tokens < 1.0 {
        clients := clients[key := Bucket(tokens, now)];
        return false, (1.0 - tokens) / perMinute * 60.0;
      }
      clients := clients[key := Bucket(tokens - 1.0, now)];
      return true, 0.0;
    }

    method SweepLocked(now: real)
      modifies this
      ensures State() == Swept(old(State()), now)
    {
      if now - lastSweep < 60.0 {
        return;
      }
      lastSweep := now;
      var keys := clients.Keys;
      while keys != {}
        invariant keys <= clients.Keys <= old(clients).Keys
        invariant forall k :: k in clients ==>
                    clients[k] == old(clients)[k] && (k in keys || now - clients[k].last < 60.0)
        invariant forall k :: k in old(clients) && now - old(clients)[k].last < 60.0 ==> k in clients
        invariant lastSweep == now
        decreases keys
      {
        var k :| k in keys;
        keys := keys - {k};
        if now - clients[k].last >= 60.0 {
          clients := clients - {k};
        }
      }
      assert clients == Swept(old(State()), now).clients;
    }
  }

  /** No limiter is made for a limit of zero or less. */
  method NewRateLimiter(perMinute: int) returns (l: RateLimiter?)
    ensures l == null <==> perMinute <= 0
    ensures l != null ==> fresh(l) && l.State() == Fresh(perMinute as real)
  {
    if perMinute <= 0 {
      return null;
    }
    l := new RateLimiter(perMinute);
  }

  /** What the middleware does with a request: without a limiter everything passes. */
  method Limit(l: RateLimiter?, key: string, now: real) returns (ok: bool, wait: real)
    requires l != null ==> l.perMinute > 0.0
    modifies l
    ensures l == null ==> ok && wait == 0.0
    ensures l != null ==> (l.State(), Answer(ok, wait)) == Allowed(old(l.State()), key, now)
  {
    if l == null {
      return true, 0.0;
    }
    ok, wait := l.Allow(key, now);
  }
}
