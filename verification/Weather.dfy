/**
 * The weather cache, circuit breaker and call budget of one service instance (internal/services/weather.go): its
 * configuration, its locked sections as functions, and the service as the code keeps it.
 */
module Weather {
  import opened Prelude
  import opened TokenBucket

  type Data = int

  datatype Cell = Cell(lat: int, lon: int)

  datatype Entry = Entry(data: Data, at: real)

  datatype Config = Config(gridDegrees: real, freshFor: real, staleFor: real, maxEntries: int, breakerThreshold: int,
                           breakerCooldown: real, maxPerMinute: int, fetchTimeout: real)
  {
    predicate Valid() {
      && gridDegrees > 0.0 && freshFor > 0.0 && staleFor >= 0.0 && maxEntries > 0
      && breakerThreshold > 0 && breakerCooldown > 0.0 && maxPerMinute > 0 && fetchTimeout > 0.0
    }

    /**
     * Each setting on its own: one that is set is kept, a zero or negative one uses its default, except that a
     * negative staleFor switches stale serving off.
     */
    function WithDefaults(): (c: Config)
      ensures c.Valid()
      ensures gridDegrees > 0.0 ==> c.gridDegrees == gridDegrees
      ensures freshFor > 0.0 ==> c.freshFor == freshFor
      ensures staleFor > 0.0 ==> c.staleFor == staleFor
      ensures c.staleFor == 0.0 <==> staleFor < 0.0
      ensures maxEntries > 0 ==> c.maxEntries == maxEntries
      ensures breakerThreshold > 0 ==> c.breakerThreshold == breakerThreshold
      ensures breakerCooldown > 0.0 ==> c.breakerCooldown == breakerCooldown
      ensures maxPerMinute > 0 ==> c.maxPerMinute == maxPerMinute
      ensures fetchTimeout > 0.0 ==> c.fetchTimeout == fetchTimeout
    {
      Config(if gridDegrees <= 0.0 then 0.02 else gridDegrees,
             if freshFor <= 0.0 then 900.0 else freshFor,
             if staleFor < 0.0 then 0.0 else if staleFor == 0.0 then 10800.0 else staleFor,
             if maxEntries <= 0 then 5000 else maxEntries,
             if breakerThreshold <= 0 then 5 else breakerThreshold,
             if breakerCooldown <= 0.0 then 30.0 else breakerCooldown,
             if maxPerMinute <= 0 then 300 else maxPerMinute,
             if fetchTimeout <= 0.0 then 15.0 else fetchTimeout)
    }

    function Cap(): real { maxPerMinute as real }

    function Rate(): real { maxPerMinute as real / 60.0 }
  }

  /** A configuration that sets nothing. */
  const UNSET: Config := Config(0.0, 0.0, 0.0, 0, 0, 0.0, 0, 0.0)

  /**
   * The defaults, each taken by a setting of zero or less whatever the others are, save a negative staleFor: cells
   * of 0.02 degrees, fresh for 15 minutes, stale for 3 hours, 5000 entries, 5 failures, 30 seconds, 300 calls a
   * minute, 15 seconds a fetch.
   */
  lemma DefaultsWhereUnset(c: Config)
    ensures UNSET.WithDefaults() == Config(0.02, 15.0 * 60.0, 3.0 * 3600.0, 5000, 5, 30.0, 300, 15.0)
    ensures var (d, u) := (c.WithDefaults(), UNSET.WithDefaults());
            && (c.gridDegrees <= 0.0 ==> d.gridDegrees == u.gridDegrees)
            && (c.freshFor <= 0.0 ==> d.freshFor == u.freshFor)
            && (c.staleFor == 0.0 ==> d.staleFor == u.staleFor)
            && (c.maxEntries <= 0 ==> d.maxEntries == u.maxEntries)
            && (c.breakerThreshold <= 0 ==> d.breakerThreshold == u.breakerThreshold)
            && (c.breakerCooldown <= 0.0 ==> d.breakerCooldown == u.breakerCooldown)
            && (c.maxPerMinute <= 0 ==> d.maxPerMinute == u.maxPerMinute)
            && (c.fetchTimeout <= 0.0 ==> d.fetchTimeout == u.fetchTimeout)
  {
  }

  /** The fields guarded by the service's mutex; inflight names the running fetch of a cell. */
  datatype Service = Service(cache: map<Cell, Entry>, inflight: map<Cell, nat>,
                             failures: nat, openUntil: Option<real>, probing: bool,
                             tokens: real, lastRefill: Option<real>)

  function Fresh(cfg: Config): Service {
    Service(map[], map[], 0, None, false, cfg.Cap(), None)
  }

  // ---------------------------------------------------------------- grid cells

  function Index(g: real, x: real): int
    requires g > 0.0
  {
    (x / g).Floor
  }

  function Centre(g: real, k: int): real {
    (k as real + 0.5) * g
  }

  /**
   * A point lies at most half a cell from the centre its weather is fetched for, and that centre is in the same cell.
   */
  lemma CentreRepresentsCell(g: real, x: real)
    requires g > 0.0
    ensures Index(g, Centre(g, Index(g, x))) == Index(g, x)
    ensures -g / 2.0 <= x - Centre(g, Index(g, x)) < g / 2.0
  {
    var k, centre := Index(g, x), Centre(g, Index(g, x));
    WithinSteps(k as real, k as real + 1.0, x / g, g, x);
    StepsBack(k as real + 0.5, g, centre);
    HalfStep(k as real, g, centre);
  }

  lemma WithinSteps(low: real, high: real, q: real, g: real, x: real)
    requires 0.0 < g && q * g == x && low <= q < high
    ensures low * g <= x < high * g
  {
    MulMono(low, q, g);
    StrictMul(q, high, g);
  }

  lemma HalfStep(k: real, g: real, centre: real)
    requires centre == (k + 0.5) * g
    ensures centre - g / 2.0 == k * g && centre + g / 2.0 == (k + 1.0) * g
  {
  }

  lemma StepsBack(m: real, g: real, x: real)
    requires 0.0 < g && x == m * g
    ensures x / g == m
  {
    var c := x / g;
    assert c * g == m * g;
    if c < m {
      StrictMul(c, m, g);
    } else if m < c {
      StrictMul(m, c, g);
    }
  }

  // ---------------------------------------------------------------- breaker and budget

  /** Whether a call may go out now, and the breaker and bucket after asking. */
  function AllowCall(cfg: Config, s: Service, now: real): (Service, bool) {
    if s.openUntil.Some? && (now < s.openUntil.value || s.probing) then (s, false)
    else
      var level := if s.lastRefill.None? then s.tokens
                   else Refilled(cfg.Cap(), cfg.Rate(), Bucket(s.tokens, s.lastRefill.value), now);
      if level < 1.0 then (s.(probing := false, tokens := level, lastRefill := Some(now)), false)
      else (s.(probing := s.openUntil.Some? || s.probing, tokens := level - 1.0, lastRefill := Some(now)), true)
  }

  function RecordResult(cfg: Config, s: Service, ok: bool, now: real): Service {
    if ok then s.(probing := false, failures := 0, openUntil := None)
    else
      s.(probing := false, failures := s.failures + 1,
         openUntil := if s.openUntil.Some? || s.failures + 1 >= cfg.breakerThreshold
                      then Some(now + cfg.breakerCooldown) else None)
  }

  // ---------------------------------------------------------------- cache

  function Live(cache: map<Cell, Entry>, staleFor: real, now: real): map<Cell, Entry> {
    map k | k in cache && now - cache[k].at <= staleFor :: cache[k]
  }

  ghost predicate IsOldest(cache: map<Cell, Entry>, k: Cell) {
    k in cache && forall o :: o in cache ==> cache[k].at <= cache[o].at
  }

  /**
   * cache' may be the cache after storing entry under key. Which of several equally old entries is
   * evicted is left open, as the iteration order of a map is.
   */
  ghost predicate Stored(cfg: Config, cache: map<Cell, Entry>, key: Cell, entry: Entry, now: real,
                         cache': map<Cell, Entry>)
  {
    if key in cache || |cache| < cfg.maxEntries then cache' == cache[key := entry]
    else
      var live := Live(cache, cfg.staleFor, now);
      if |live| < cfg.maxEntries then cache' == live[key := entry]
      else exists victim :: IsOldest(live, victim) && cache' == (live - {victim})[key := entry]
  }

  lemma StoredIsBounded(cfg: Config, cache: map<Cell, Entry>, key: Cell, entry: Entry, now: real,
                        cache': map<Cell, Entry>)
    requires cfg.Valid() && |cache| <= cfg.maxEntries && Stored(cfg, cache, key, entry, now, cache')
    ensures |cache'| <= cfg.maxEntries
    ensures key in cache' && cache'[key] == entry
    ensures forall k :: k in cache' && k != key ==> k in cache && cache'[k] == cache[k]
  {
    var live := Live(cache, cfg.staleFor, now);
    SubsetSize(live.Keys, cache.Keys);
    if key !in cache && |cache| >= cfg.maxEntries && |live| >= cfg.maxEntries {
      var victim :| IsOldest(live, victim) && cache' == (live - {victim})[key := entry];
      assert (live - {victim}).Keys == live.Keys - {victim};
      PutSize(live - {victim}, key, entry);
    } else if key in cache || |cache| < cfg.maxEntries {
      PutSize(cache, key, entry);
    } else {
      PutSize(live, key, entry);
    }
  }

  /**
   * What storing evicts. While there is room, or the key is cached already, nothing. Otherwise everything too old
   * to serve, and if that leaves no room exactly one more entry, one at least as old as any other that stays.
   */
  lemma EvictsOnlyForRoom(cfg: Config, cache: map<Cell, Entry>, key: Cell, entry: Entry, now: real,
                          cache': map<Cell, Entry>, k: Cell)
    requires Stored(cfg, cache, key, entry, now, cache') && k in cache && k != key
    ensures key in cache || |cache| < cfg.maxEntries ==> k in cache'
    ensures key !in cache && |cache| >= cfg.maxEntries && now - cache[k].at > cfg.staleFor ==> k !in cache'
    ensures key !in cache && |cache| >= cfg.maxEntries && now - cache[k].at <= cfg.staleFor ==>
              (k !in cache' ==>
                 && |Live(cache, cfg.staleFor, now)| >= cfg.maxEntries
                 && (forall o :: o in cache' && o != key ==> cache[k].at <= cache[o].at)
                 && (forall o :: o in cache && o != k && now - cache[o].at <= cfg.staleFor ==> o in cache'))
  {
  }

  lemma PutSize(m: map<Cell, Entry>, key: Cell, entry: Entry)
    ensures |m[key := entry]| == |m| + if key in m then 0 else 1
  {
    assert m[key := entry].Keys == m.Keys + {key};
  }

  // ---------------------------------------------------------------- the two locked sections

  datatype Begin = Hit(entry: Entry) | Join(call: nat) | Start(call: nat) | Refused

  /** The locked part of Get; a fetch that starts gets the unused identifier next. */
  function Begun(cfg: Config, s: Service, cell: Cell, now: real, next: nat): (Service, Begin) {
    if cell in s.cache && now - s.cache[cell].at < cfg.freshFor then (s, Hit(s.cache[cell]))
    else if cell in s.inflight then (s, Join(s.inflight[cell]))
    else
      var (s', ok) := AllowCall(cfg, s, now);
      if ok then (s'.(inflight := s'.inflight[cell := next]), Start(next)) else (s', Refused)
  }

  /** The locked part of fetch, run when the provider has answered (None is an error). */
  ghost predicate Finished(cfg: Config, s: Service, cell: Cell, outcome: Option<Data>, now: real, s': Service) {
    && (if outcome.Some? then Stored(cfg, s.cache, cell, Entry(outcome.value, now), now, s'.cache)
        else s'.cache == s.cache)
    && s' == RecordResult(cfg, s.(inflight := s.inflight - {cell}, cache := s'.cache), outcome.Some?, now)
  }

  datatype Result = Served(data: Data, at: real, stale: bool) | Unavailable | Cancelled

  /** The stale-data policy after a failed or skipped fetch. */
  function Fallback(cfg: Config, cached: Option<Entry>, now: real): (r: Result)
    ensures r.Served? <==> cached.Some? && now - cached.value.at <= cfg.staleFor
    ensures r.Served? ==> r == Served(cached.value.data, cached.value.at, true)
  {
    if cached.Some? && now - cached.value.at <= cfg.staleFor
    then Served(cached.value.data, cached.value.at, true) else Unavailable
  }

  // ---------------------------------------------------------------- the service as the code keeps it

  class WeatherService {
    const cfg: Config
    var cache: map<Cell, Entry>
    var inflight: map<Cell, nat>
    var failures: nat
    var openUntil: Option<real>
    var probing: bool
    var tokens: real
    var lastRefill: Option<real>

    function State(): Service
      reads this
    {
      Service(cache, inflight, failures, openUntil, probing, tokens, lastRefill)
    }

    constructor (cfg: Config)
      ensures this.cfg == cfg.WithDefaults() && State() == Fresh(this.cfg)
    {
      this.cfg := cfg.WithDefaults();
      cache, inflight, failures, openUntil, probing := map[], map[], 0, None, false;
      tokens, lastRefill := cfg.WithDefaults().maxPerMinute as real, None;
    }

    method Get(cell: Cell, now: real, next: nat) returns (begin: Begin)
      modifies this
      ensures (State(), begin) == Begun(cfg, old(State()), cell, now, next)
    {
      if cell in cache && now - cache[cell].at < cfg.freshFor {
        return Hit(cache[cell]);
      }
      if cell in inflight {
        return Join(inflight[cell]);
      }
      var ok := AllowCallLocked(now);
      if !ok {
        return Refused;
      }
      inflight := inflight[cell := next];
      return Start(next);
    }

    method FinishFetch(cell: Cell, outcome: Option<Data>, now: real)
      requires cfg.Valid()
      modifies this
      ensures Finished(cfg, old(State()), cell, outcome, now, State())
    {
      inflight := inflight - {cell};
      if outcome.Some? {
        StoreLocked(cell, Entry(outcome.value, now), now);
      }
      RecordResultLocked(outcome.Some?, now);
    }

    method StoreLocked(key: Cell, entry: Entry, now: real)
      requires cfg.Valid()
      modifies this`cache
      ensures Stored(cfg, old(cache), key, entry, now, cache)
    {
      if key !in cache && |cache| >= cfg.maxEntries {
        var oldest: Option<Cell> := None;
        var keys := cache.Keys;
        while keys != {}
          invariant keys <= cache.Keys <= old(cache).Keys
          invariant forall k :: k in cache ==>
                      cache[k] == old(cache)[k] && (k in keys || now - cache[k].at <= cfg.staleFor)
          invariant forall k :: k in old(cache) && now - old(cache)[k].at <= cfg.staleFor ==> k in cache
          invariant oldest.None? ==> cache.Keys == keys
          invariant oldest.Some? ==> oldest.value in cache && oldest.value !in keys
          invariant oldest.Some? ==> forall k :: k in cache && k !in keys ==> cache[oldest.value].at <= cache[k].at
          decreases keys
        {
          var k :| k in keys;
          keys := keys - {k};
          if now - cache[k].at > cfg.staleFor {
            cache := cache - {k};
          } else if oldest.None? || cache[k].at < cache[oldest.value].at {
            oldest := Some(k);
          }
        }
        assert cache == Live(old(cache), cfg.staleFor, now);
        if |cache| >= cfg.maxEntries {
          assert oldest.Some? && IsOldest(cache, oldest.value);
          cache := cache - {oldest.value};
        }
      }
      cache := cache[key := entry];
    }

    method AllowCallLocked(now: real) returns (ok: bool)
      modifies this`probing, this`tokens, this`lastRefill
      ensures (State(), ok) == AllowCall(cfg, old(State()), now)
    {
      if openUntil.Some? && now < openUntil.value {
        return false;
      }
      if openUntil.Some? {
        if probing {
          return false;
        }
        probing := true;
      }
      if lastRefill.Some? {
        tokens := Refilled(cfg.Cap(), cfg.Rate(), Bucket(tokens, lastRefill.value), now);
      }
      lastRefill := Some(now);
      if tokens < 1.0 {
        probing := false;
        return false;
      }
      tokens := tokens - 1.0;
      return true;
    }

    method RecordResultLocked(ok: bool, now: real)
      modifies this`probing, this`failures, this`openUntil
      ensures State() == RecordResult(cfg, old(State()), ok, now)
    {
      probing := false;
      if ok {
        failures, openUntil := 0, None;
        return;
      }
      failures := failures + 1;
      if openUntil.Some? || failures >= cfg.breakerThreshold {
        openUntil := Some(now + cfg.breakerCooldown);
      }
    }
  }
}
