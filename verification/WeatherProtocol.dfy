/** Every interleaving of what happens to one WeatherService. */
module WeatherProtocol {
  // Get calls, fetch completions and callers giving up: each step is one section the mutex makes atomic, read at one
  // instant of a monotone clock.

  import opened Prelude
  import opened TokenBucket
  import opened Weather

  /** A fetch under way: `seen` is how many fetches had completed when it started. */
  datatype Running = Running(cell: Cell, started: real, probe: bool, seen: nat)

  /** outcome is None when the provider failed. */
  datatype Completion = Completion(call: nat, cell: Cell, at: real, outcome: Option<Data>)

  datatype Stage = Waiting(call: nat) | Skipped | Done(result: Result, when: real)

  /** A Get call: `cached` is the copy it read while it held the lock. */
  datatype Caller = Caller(cell: Cell, start: real, cached: Option<Entry>, stage: Stage)

  datatype Sys = Sys(svc: Service, running: map<nat, Running>, history: seq<Completion>,
                     callers: map<nat, Caller>, clock: real, starts: seq<real>, next: nat)

  datatype Event =
    | Get(caller: nat, cell: Cell, now: real)
    | Finish(call: nat, outcome: Option<Data>, now: real)
    | Resume(caller: nat, completion: nat, now: real)
    | GiveUp(caller: nat, now: real)

  function Init(cfg: Config): Sys {
    Sys(Fresh(cfg), map[], [], map[], 0.0, [], 0)
  }

  function Cached(s: Service, cell: Cell): Option<Entry> {
    if cell in s.cache then Some(s.cache[cell]) else None
  }

  function AfterGet(cfg: Config, s: Sys, id: nat, cell: Cell, now: real): Sys {
    var (svc, begin) := Begun(cfg, s.svc, cell, now, s.next);
    var stage := match begin
      case Hit(e) => Done(Served(e.data, e.at, false), now)
      case Join(call) => Waiting(call)
      case Start(call) => Waiting(call)
      case Refused => Skipped;
    var s' := s.(svc := svc, callers := s.callers[id := Caller(cell, now, Cached(s.svc, cell), stage)], clock := now);
    if begin.Start?
    then s'.(running := s.running[s.next := Running(cell, now, s.svc.openUntil.Some?, |s.history|)],
             starts := s.starts + [now], next := s.next + 1)
    else s'
  }

  /** What a caller gets when its fetch has completed, or when it was refused one. */
  function Outcome(cfg: Config, c: Caller, done: Option<Completion>, now: real): Result {
    if done.Some? && done.value.outcome.Some? then Served(done.value.outcome.value, done.value.at, false)
    else Fallback(cfg, c.cached, now)
  }

  ghost predicate Step(cfg: Config, s: Sys, e: Event, s': Sys) {
    && s.clock <= e.now
    && match e
       case Get(id, cell, now) =>
         id !in s.callers && s' == AfterGet(cfg, s, id, cell, now)
       case Finish(call, outcome, now) =>
         && call in s.running
         && Finished(cfg, s.svc, s.running[call].cell, outcome, now, s'.svc)
         && s' == s.(svc := s'.svc, running := s.running - {call}, clock := now,
                     history := s.history + [Completion(call, s.running[call].cell, now, outcome)])
       case Resume(id, i, now) =>
         && id in s.callers
         && var c := s.callers[id];
         && (c.stage.Waiting? ==> i < |s.history| && s.history[i].call == c.stage.call)
         && !c.stage.Done?
         && var done := if c.stage.Waiting? then Some(s.history[i]) else None;
            s' == s.(callers := s.callers[id := c.(stage := Done(Outcome(cfg, c, done, now), now))], clock := now)
       case GiveUp(id, now) =>
         && id in s.callers && s.callers[id].stage.Waiting?
         && s' == s.(callers := s.callers[id := s.callers[id].(stage := Done(Cancelled, now))], clock := now)
  }

  ghost predicate IsRun(cfg: Config, states: seq<Sys>, events: seq<Event>) {
    && |states| == |events| + 1
    && states[0] == Init(cfg)
    && forall i :: 0 <= i < |events| ==> Step(cfg, states[i], events[i], states[i + 1])
  }

  // ---------------------------------------------------------------- the breaker is a function of the history

  /** How many of the most recent completions failed in a row. */
  function Trailing(h: seq<Completion>): nat {
    if h == [] || h[|h| - 1].outcome.Some? then 0 else Trailing(h[..|h| - 1]) + 1
  }

  function OpenUntil(cfg: Config, h: seq<Completion>): Option<real> {
    if h == [] || Trailing(h) < cfg.breakerThreshold then None else Some(h[|h| - 1].at + cfg.breakerCooldown)
  }

  ghost predicate BreakerInv(cfg: Config, s: Sys) {
    && s.svc.failures == Trailing(s.history)
    && s.svc.openUntil == OpenUntil(cfg, s.history)
  }

  lemma BreakerStep(cfg: Config, s: Sys, e: Event, s': Sys)
    requires cfg.Valid() && BreakerInv(cfg, s) && Step(cfg, s, e, s')
    ensures BreakerInv(cfg, s')
  {
    if e.Finish? {
      OneMoreCompletion(cfg, s.history, Completion(e.call, s.running[e.call].cell, e.now, e.outcome));
    } else if e.Get? {
      BegunKeepsBreaker(cfg, s.svc, e.cell, e.now, s.next);
    }
  }

  lemma OneMoreCompletion(cfg: Config, h: seq<Completion>, c: Completion)
    requires cfg.Valid()
    ensures Trailing(h + [c]) == if c.outcome.Some? then 0 else Trailing(h) + 1
    ensures OpenUntil(cfg, h + [c])
         == if c.outcome.None? && Trailing(h) + 1 >= cfg.breakerThreshold
            then Some(c.at + cfg.breakerCooldown) else None
  {
    assert (h + [c])[..|h|] == h;
  }

  lemma BegunKeepsBreaker(cfg: Config, svc: Service, cell: Cell, now: real, next: nat)
    ensures var svc' := Begun(cfg, svc, cell, now, next).0;
            svc'.failures == svc.failures && svc'.openUntil == svc.openUntil
  {
  }

  // ---------------------------------------------------------------- one fetch per cell

  ghost predicate FlightInv(s: Sys) {
    && (forall id :: id in s.running ==>
          && s.running[id].cell in s.svc.inflight && s.svc.inflight[s.running[id].cell] == id
          && id < s.next && s.running[id].started <= s.clock)
    && (forall c :: c in s.svc.inflight ==> s.svc.inflight[c] in s.running && s.running[s.svc.inflight[c]].cell == c)
    && (forall i :: 0 <= i < |s.history| ==>
          s.history[i].call < s.next && s.history[i].call !in s.running && s.history[i].at <= s.clock)
  }

  lemma FlightStep(cfg: Config, s: Sys, e: Event, s': Sys)
    requires FlightInv(s) && Step(cfg, s, e, s')
    ensures FlightInv(s')
  {
    if e.Finish? {
      FlightFinish(cfg, s, e, s');
    } else if e.Get? {
      FlightGet(cfg, s, e.caller, e.cell, e.now);
    }
  }

  lemma FlightGet(cfg: Config, s: Sys, id: nat, cell: Cell, now: real)
    requires FlightInv(s) && s.clock <= now
    ensures FlightInv(AfterGet(cfg, s, id, cell, now))
  {
    var s' := AfterGet(cfg, s, id, cell, now);
    if Begun(cfg, s.svc, cell, now, s.next).1.Start? {
      StartKeepsFlight(s, s', cell, now);
    } else {
      assert s'.svc.inflight == s.svc.inflight && s'.running == s.running;
    }
  }

  lemma StartKeepsFlight(s: Sys, s': Sys, cell: Cell, now: real)
    requires FlightInv(s) && s.clock <= now == s'.clock && cell !in s.svc.inflight
    requires s'.svc.inflight == s.svc.inflight[cell := s.next] && s'.next == s.next + 1 && s'.history == s.history
    requires s'.running.Keys == s.running.Keys + {s.next}
    requires s'.running[s.next].cell == cell && s'.running[s.next].started == now
    requires forall id :: id in s.running ==> s'.running[id] == s.running[id]
    ensures FlightInv(s')
  {
  }

  lemma FlightFinish(cfg: Config, s: Sys, e: Event, s': Sys)
    requires FlightInv(s) && e.Finish? && Step(cfg, s, e, s')
    ensures FlightInv(s')
  {
    var cell := s.running[e.call].cell;
    assert s'.svc.inflight == s.svc.inflight - {cell};
    assert forall c :: c in s'.svc.inflight ==> s.svc.inflight[c] != e.call;
  }

  // ---------------------------------------------------------------- the probe

  /** A probe that started after the latest completion. */
  ghost predicate CurrentProbe(s: Sys, id: nat) {
    id in s.running && s.running[id].probe && s.running[id].seen == |s.history|
  }

  ghost predicate ProbeInv(s: Sys) {
    && (s.svc.probing <==> exists id :: CurrentProbe(s, id))
    && (forall a, b :: CurrentProbe(s, a) && CurrentProbe(s, b) ==> a == b)
    && (forall id :: id in s.running ==> s.running[id].seen <= |s.history|)
    && (s.svc.probing ==> s.svc.openUntil.Some?)
    && (forall id :: CurrentProbe(s, id) ==> s.svc.openUntil.Some? && s.svc.openUntil.value <= s.running[id].started)
  }

  lemma ProbeStep(cfg: Config, s: Sys, e: Event, s': Sys)
    requires FlightInv(s) && ProbeInv(s) && Step(cfg, s, e, s')
    ensures ProbeInv(s')
  {
    match e
    case Finish(_, _, _) =>
      assert forall id :: id in s'.running ==> s'.running[id].seen < |s'.history|;
    case Get(_, cell, now) =>
      if Begun(cfg, s.svc, cell, now, s.next).1.Start? {
        assert s.next !in s.running;
        assert forall id :: id != s.next ==> (CurrentProbe(s', id) <==> CurrentProbe(s, id));
        assert s.svc.openUntil.Some? ==> CurrentProbe(s', s.next);
      } else {
        assert forall id :: CurrentProbe(s', id) <==> CurrentProbe(s, id);
      }
    case Resume(_, _, _) =>
      assert forall id :: CurrentProbe(s', id) <==> CurrentProbe(s, id);
    case GiveUp(_, _) =>
      assert forall id :: CurrentProbe(s', id) <==> CurrentProbe(s, id);
  }

  // ---------------------------------------------------------------- a probe runs alone when fetches end in time

  /** Every fetch ends less than one cooldown after it started. */
  ghost predicate Timely(cfg: Config, s: Sys, e: Event) {
    forall id :: id in s.running ==> e.now - s.running[id].started < cfg.breakerCooldown
  }

  ghost predicate AloneInv(cfg: Config, s: Sys) {
    && (s.svc.openUntil.Some? ==> forall id :: id in s.running ==>
          CurrentProbe(s, id) || s.running[id].started + cfg.breakerCooldown <= s.svc.openUntil.value)
    && (s.svc.probing ==> forall a, b :: a in s.running && b in s.running ==> a == b)
    && (forall a, b :: a in s.running && b in s.running && s.running[a].probe && s.running[b].probe ==> a == b)
  }

  lemma AloneStep(cfg: Config, s: Sys, e: Event, s': Sys)
    requires FlightInv(s) && ProbeInv(s) && AloneInv(cfg, s) && Step(cfg, s, e, s') && Timely(cfg, s, e)
    ensures AloneInv(cfg, s')
  {
    match e
    case Get(id, cell, now) => AloneGet(cfg, s, id, cell, now);
    case Finish(_, _, _) => AloneFinish(cfg, s, e, s');
    case Resume(_, _, _) =>
      assert forall id :: CurrentProbe(s', id) <==> CurrentProbe(s, id);
    case GiveUp(_, _) =>
      assert forall id :: CurrentProbe(s', id) <==> CurrentProbe(s, id);
  }

  lemma AloneFinish(cfg: Config, s: Sys, e: Event, s': Sys)
    requires FlightInv(s) && AloneInv(cfg, s) && e.Finish? && Step(cfg, s, e, s')
    ensures AloneInv(cfg, s')
  {
    assert s'.svc.openUntil.Some? ==> s'.svc.openUntil.value == e.now + cfg.breakerCooldown;
    assert forall id :: id in s'.running ==> id in s.running && s'.running[id] == s.running[id];
  }

  lemma AloneGet(cfg: Config, s: Sys, id: nat, cell: Cell, now: real)
    requires FlightInv(s) && ProbeInv(s) && AloneInv(cfg, s) && s.clock <= now && Timely(cfg, s, Get(id, cell, now))
    ensures AloneInv(cfg, AfterGet(cfg, s, id, cell, now))
  {
    if !Begun(cfg, s.svc, cell, now, s.next).1.Start? {
      NothingStarts(cfg, s, id, cell, now);
    } else if s.svc.openUntil.Some? {
      ProbeStarts(cfg, s, id, cell, now);
    } else {
      StartWhileClosed(cfg, s, id, cell, now);
    }
  }

  lemma NothingStarts(cfg: Config, s: Sys, id: nat, cell: Cell, now: real)
    requires ProbeInv(s) && AloneInv(cfg, s) && !Begun(cfg, s.svc, cell, now, s.next).1.Start?
    ensures AloneInv(cfg, AfterGet(cfg, s, id, cell, now))
  {
    var s' := AfterGet(cfg, s, id, cell, now);
    BegunKeepsBreaker(cfg, s.svc, cell, now, s.next);
    assert forall id :: CurrentProbe(s', id) <==> CurrentProbe(s, id);
  }

  lemma ProbeStarts(cfg: Config, s: Sys, id: nat, cell: Cell, now: real)
    requires FlightInv(s) && ProbeInv(s) && AloneInv(cfg, s) && s.clock <= now && Timely(cfg, s, Get(id, cell, now))
    requires Begun(cfg, s.svc, cell, now, s.next).1.Start? && s.svc.openUntil.Some?
    ensures AloneInv(cfg, AfterGet(cfg, s, id, cell, now))
  {
    StartAlone(cfg, s, cell, now);
    var s' := AfterGet(cfg, s, id, cell, now);
    assert s'.running == map[s.next := Running(cell, now, true, |s.history|)];
    assert CurrentProbe(s', s.next);
  }

  lemma StartWhileClosed(cfg: Config, s: Sys, id: nat, cell: Cell, now: real)
    requires FlightInv(s) && ProbeInv(s) && AloneInv(cfg, s)
    requires Begun(cfg, s.svc, cell, now, s.next).1.Start? && s.svc.openUntil.None?
    ensures AloneInv(cfg, AfterGet(cfg, s, id, cell, now))
  {
    assert !s.svc.probing;
  }

  /** At the moment a probe starts, nothing from before the opening can still be running. */
  lemma StartAlone(cfg: Config, s: Sys, cell: Cell, now: real)
    requires FlightInv(s) && ProbeInv(s) && AloneInv(cfg, s) && Timely(cfg, s, Get(0, cell, now))
    requires Begun(cfg, s.svc, cell, now, s.next).1.Start? && s.svc.openUntil.Some?
    ensures s.running == map[]
  {
    forall id
      ensures id !in s.running
    {
      if id in s.running {
        assert false;
      }
    }
  }

  // ---------------------------------------------------------------- what the cache holds

  /** The result of the latest successful fetch for the cell. */
  function Latest(h: seq<Completion>, cell: Cell): Option<Entry> {
    if h == [] then None
    else
      var c := h[|h| - 1];
      if c.cell == cell && c.outcome.Some? then Some(Entry(c.outcome.value, c.at)) else Latest(h[..|h| - 1], cell)
  }

  ghost predicate CacheInv(cfg: Config, s: Sys) {
    && |s.svc.cache| <= cfg.maxEntries
    && forall c :: c in s.svc.cache ==> Latest(s.history, c) == Some(s.svc.cache[c])
  }

  lemma CacheStep(cfg: Config, s: Sys, e: Event, s': Sys)
    requires cfg.Valid() && CacheInv(cfg, s) && Step(cfg, s, e, s')
    ensures CacheInv(cfg, s')
    // What a fetch returns is there to be served from then on.
    ensures e.Finish? && e.outcome.Some? ==>
              var cell := s.running[e.call].cell;
              cell in s'.svc.cache && s'.svc.cache[cell] == Entry(e.outcome.value, e.now)
    ensures !(e.Finish? && e.outcome.Some?) ==> s'.svc.cache == s.svc.cache
  {
    if e.Finish? {
      assert s'.history[..|s.history|] == s.history;
      if e.outcome.Some? {
        StoredIsBounded(cfg, s.svc.cache, s.running[e.call].cell, Entry(e.outcome.value, e.now), e.now, s'.svc.cache);
      }
    }
  }

  // ---------------------------------------------------------------- what callers are given

  /** entry is what some successful fetch for this very cell returned, and when. */
  ghost predicate Fetched(h: seq<Completion>, cell: Cell, entry: Entry) {
    exists i :: 0 <= i < |h| && h[i].cell == cell && h[i].outcome == Some(entry.data) && h[i].at == entry.at
  }

  lemma {:induction false} LatestIsFetched(h: seq<Completion>, cell: Cell)
    requires Latest(h, cell).Some?
    ensures Fetched(h, cell, Latest(h, cell).value)
  {
    var n := |h| - 1;
    if h[n].cell == cell && h[n].outcome.Some? {
      assert h[n].outcome == Some(Latest(h, cell).value.data);
    } else {
      LatestIsFetched(h[..n], cell);
      var i :| 0 <= i < n && h[..n][i].cell == cell
               && h[..n][i].outcome == Some(Latest(h, cell).value.data) && h[..n][i].at == Latest(h, cell).value.at;
      assert h[i] == h[..n][i];
    }
  }

  ghost predicate GoodResult(cfg: Config, h: seq<Completion>, c: Caller)
    requires c.stage.Done?
  {
    var r := c.stage.result;
    r.Served? ==>
      && Fetched(h, c.cell, Entry(r.data, r.at))
      && (if r.stale then c.start <= c.stage.when && c.stage.when - r.at <= cfg.staleFor
          else c.start - cfg.freshFor < r.at)
  }

  ghost predicate GoodCaller(cfg: Config, s: Sys, c: Caller) {
    && c.start <= s.clock
    && (c.cached.Some? ==> Fetched(s.history, c.cell, c.cached.value))
    && (c.stage.Done? ==> GoodResult(cfg, s.history, c))
    && (c.stage.Waiting? ==>
          && (if c.stage.call in s.running then s.running[c.stage.call].cell == c.cell
              else exists i :: 0 <= i < |s.history| && s.history[i].call == c.stage.call)
          && c.stage.call < s.next
          && forall i :: 0 <= i < |s.history| && s.history[i].call == c.stage.call ==>
               s.history[i].cell == c.cell && c.start <= s.history[i].at)
  }

  ghost predicate CallerInv(cfg: Config, s: Sys) {
    forall id :: id in s.callers ==> GoodCaller(cfg, s, s.callers[id])
  }

  lemma FetchedGrows(h: seq<Completion>, c: Completion, cell: Cell, entry: Entry)
    requires Fetched(h, cell, entry)
    ensures Fetched(h + [c], cell, entry)
  {
    var i :| 0 <= i < |h| && h[i].cell == cell && h[i].outcome == Some(entry.data) && h[i].at == entry.at;
    assert (h + [c])[i] == h[i];
  }

  /** A caller that a step does not move stays good. */
  lemma GoodCallerKept(cfg: Config, s: Sys, e: Event, s': Sys, c: Caller)
    requires FlightInv(s) && Step(cfg, s, e, s') && GoodCaller(cfg, s, c)
    ensures GoodCaller(cfg, s', c)
  {
    if e.Finish? {
      var done := s'.history[|s.history|];
      if c.cached.Some? {
        FetchedGrows(s.history, done, c.cell, c.cached.value);
      }
      if c.stage.Done? && c.stage.result.Served? {
        FetchedGrows(s.history, done, c.cell, Entry(c.stage.result.data, c.stage.result.at));
      }
      if c.stage.Waiting? && c.stage.call !in s.running {
        var i :| 0 <= i < |s.history| && s.history[i].call == c.stage.call;
        assert s'.history[i].call == c.stage.call;
      }
      if c.stage.Waiting? && c.stage.call == e.call {
        assert s'.history[|s.history|].call == c.stage.call;
      }
    }
  }

  /** The caller a Get step adds is good. */
  lemma NewCallerIsGood(cfg: Config, s: Sys, id: nat, cell: Cell, now: real)
    requires FlightInv(s) && CacheInv(cfg, s) && s.clock <= now
    ensures var s' := AfterGet(cfg, s, id, cell, now); GoodCaller(cfg, s', s'.callers[id])
  {
    if cell in s.svc.cache {
      LatestIsFetched(s.history, cell);
    }
  }

  /** So is a caller that gets its answer. */
  lemma AnsweredCallerIsGood(cfg: Config, s: Sys, e: Event, s': Sys)
    requires cfg.Valid() && CallerInv(cfg, s) && e.Resume? && Step(cfg, s, e, s')
    ensures GoodCaller(cfg, s', s'.callers[e.caller])
  {
    var c, c' := s.callers[e.caller], s'.callers[e.caller];
    if c.stage.Waiting? && s.history[e.completion].outcome.Some? {
      var done := s.history[e.completion];
      assert done.outcome == Some(c'.stage.result.data) && done.at == c'.stage.result.at;
    }
  }

  lemma CallerStep(cfg: Config, s: Sys, e: Event, s': Sys)
    requires cfg.Valid() && FlightInv(s) && CacheInv(cfg, s) && CallerInv(cfg, s) && Step(cfg, s, e, s')
    ensures CallerInv(cfg, s')
  {
    forall id | id in s'.callers
      ensures GoodCaller(cfg, s', s'.callers[id])
    {
      if id in s.callers && s'.callers[id] == s.callers[id] {
        GoodCallerKept(cfg, s, e, s', s.callers[id]);
      } else if e.Get? {
        NewCallerIsGood(cfg, s, id, e.cell, e.now);
      } else if e.Resume? {
        AnsweredCallerIsGood(cfg, s, e, s');
      }
    }
  }

  // ---------------------------------------------------------------- the outgoing budget

  /** What the bucket can give out between two instants, however full it was. */
  function Allowance(cfg: Config, from: real, until: real): real {
    cfg.Cap() + Accrued(cfg.Rate(), from, until)
  }

  /** No window of starts exceeds its allowance. */
  ghost predicate WithinBudget(cfg: Config, starts: seq<real>) {
    forall i, j :: 0 <= i <= j < |starts| ==> (j - i + 1) as real <= Allowance(cfg, starts[i], starts[j])
  }

  /** n starts and the tokens left fit a window from one instant to another. */
  ghost predicate FitsWindow(cfg: Config, n: int, tokens: real, from: real, until: real) {
    n as real + tokens <= Allowance(cfg, from, until)
  }

  /** Neither would a window that ended at `until` and also spent the tokens left. */
  ghost predicate CanSpend(cfg: Config, starts: seq<real>, tokens: real, until: real) {
    forall i :: 0 <= i < |starts| ==> FitsWindow(cfg, |starts| - i, tokens, starts[i], until)
  }

  ghost predicate BudgetInv(cfg: Config, s: Sys) {
    && 0.0 <= s.svc.tokens <= cfg.Cap()
    && WithinBudget(cfg, s.starts)
    && (s.svc.lastRefill.None? ==> s.starts == [])
    && (s.svc.lastRefill.Some? ==>
          s.svc.lastRefill.value <= s.clock && CanSpend(cfg, s.starts, s.svc.tokens, s.svc.lastRefill.value))
  }

  lemma RefillKeepsCanSpend(cfg: Config, starts: seq<real>, tokens: real, last: real, now: real, level: real)
    requires CanSpend(cfg, starts, tokens, last) && level <= tokens + Accrued(cfg.Rate(), last, now)
    ensures CanSpend(cfg, starts, level, now)
  {
    forall i | 0 <= i < |starts|
      ensures FitsWindow(cfg, |starts| - i, level, starts[i], now)
    {
      assert FitsWindow(cfg, |starts| - i, tokens, starts[i], last);
      AllowanceGrows(cfg, starts[i], last, now);
    }
  }

  lemma AllowanceGrows(cfg: Config, from: real, last: real, now: real)
    ensures Allowance(cfg, from, now) == Allowance(cfg, from, last) + Accrued(cfg.Rate(), last, now)
    ensures Allowance(cfg, now, now) == cfg.Cap()
  {
    AccruedAdds(cfg.Rate(), from, last, now);
  }

  lemma StartKeepsBudget(cfg: Config, starts: seq<real>, now: real, level: real)
    requires 1.0 <= level <= cfg.Cap() && WithinBudget(cfg, starts) && CanSpend(cfg, starts, level, now)
    ensures WithinBudget(cfg, starts + [now]) && CanSpend(cfg, starts + [now], level - 1.0, now)
  {
    var starts' := starts + [now];
    AllowanceGrows(cfg, now, now, now);
    forall i | 0 <= i < |starts'|
      ensures FitsWindow(cfg, |starts'| - i, level - 1.0, starts'[i], now)
    {
      assert i < |starts| ==> FitsWindow(cfg, |starts| - i, level, starts[i], now);
    }
    forall i, j | 0 <= i <= j < |starts'|
      ensures (j - i + 1) as real <= Allowance(cfg, starts'[i], starts'[j])
    {
      assert j < |starts| ==> starts'[j] == starts[j];
      assert FitsWindow(cfg, |starts'| - i, level - 1.0, starts'[i], now);
    }
  }

  lemma AllowCallSpends(cfg: Config, s: Service, now: real)
    requires cfg.Valid() && 0.0 <= s.tokens <= cfg.Cap() && (s.lastRefill.Some? ==> s.lastRefill.value <= now)
    ensures var (s', ok) := AllowCall(cfg, s, now);
            || (!ok && s' == s)
            || (&& s'.lastRefill == Some(now)
                && var level := s'.tokens + if ok then 1.0 else 0.0;
                   && 0.0 <= s'.tokens && level <= cfg.Cap()
                   && (if s.lastRefill.None? then level == s.tokens
                       else level <= s.tokens + Accrued(cfg.Rate(), s.lastRefill.value, now)))
  {
    if s.lastRefill.Some? {
      RefillBounds(cfg.Cap(), cfg.Rate(), Bucket(s.tokens, s.lastRefill.value), now);
    }
  }

  lemma BudgetGet(cfg: Config, s: Sys, id: nat, cell: Cell, now: real)
    requires cfg.Valid() && BudgetInv(cfg, s) && s.clock <= now
    ensures BudgetInv(cfg, AfterGet(cfg, s, id, cell, now))
  {
    var begin := Begun(cfg, s.svc, cell, now, s.next).1;
    if begin.Start? || begin.Refused? {
      AskingKeepsBudget(cfg, s, now);
    }
  }

  /** The bucket after asking for a call, and the starts with this one if it goes out. */
  lemma AskingKeepsBudget(cfg: Config, s: Sys, now: real)
    requires cfg.Valid() && BudgetInv(cfg, s) && s.clock <= now
    ensures var (svc', ok) := AllowCall(cfg, s.svc, now);
            var starts' := if ok then s.starts + [now] else s.starts;
            && 0.0 <= svc'.tokens <= cfg.Cap() && WithinBudget(cfg, starts')
            && (svc'.lastRefill.None? ==> starts' == [])
            && (svc'.lastRefill.Some? ==>
                  svc'.lastRefill.value <= now && CanSpend(cfg, starts', svc'.tokens, svc'.lastRefill.value))
  {
    var (svc', ok) := AllowCall(cfg, s.svc, now);
    AllowCallSpends(cfg, s.svc, now);
    if ok {
      GrantKeepsBudget(cfg, s, now, svc'.tokens + 1.0);
    } else if svc' != s.svc {
      LevelFits(cfg, s, now, svc'.tokens);
    }
  }

  lemma GrantKeepsBudget(cfg: Config, s: Sys, now: real, level: real)
    requires BudgetInv(cfg, s) && 1.0 <= level <= cfg.Cap()
    requires if s.svc.lastRefill.None? then level == s.svc.tokens
             else level <= s.svc.tokens + Accrued(cfg.Rate(), s.svc.lastRefill.value, now)
    ensures WithinBudget(cfg, s.starts + [now]) && CanSpend(cfg, s.starts + [now], level - 1.0, now)
  {
    LevelFits(cfg, s, now, level);
    StartKeepsBudget(cfg, s.starts, now, level);
  }

  lemma LevelFits(cfg: Config, s: Sys, now: real, level: real)
    requires BudgetInv(cfg, s)
    requires if s.svc.lastRefill.None? then level == s.svc.tokens
             else level <= s.svc.tokens + Accrued(cfg.Rate(), s.svc.lastRefill.value, now)
    ensures CanSpend(cfg, s.starts, level, now)
  {
    if s.svc.lastRefill.Some? {
      RefillKeepsCanSpend(cfg, s.starts, s.svc.tokens, s.svc.lastRefill.value, now, level);
    }
  }

  lemma BudgetStep(cfg: Config, s: Sys, e: Event, s': Sys)
    requires cfg.Valid() && BudgetInv(cfg, s) && Step(cfg, s, e, s')
    ensures BudgetInv(cfg, s')
  {
    if e.Get? {
      BudgetGet(cfg, s, e.caller, e.cell, e.now);
    }
  }

  // ---------------------------------------------------------------- theorems over every run

  ghost predicate Inv(cfg: Config, s: Sys) {
    && BreakerInv(cfg, s) && FlightInv(s) && ProbeInv(s) && CacheInv(cfg, s) && CallerInv(cfg, s) && BudgetInv(cfg, s)
  }

  lemma StepKeepsInv(cfg: Config, s: Sys, e: Event, s': Sys)
    requires cfg.Valid() && Inv(cfg, s) && Step(cfg, s, e, s')
    ensures Inv(cfg, s')
  {
    BreakerStep(cfg, s, e, s');
    FlightStep(cfg, s, e, s');
    ProbeStep(cfg, s, e, s');
    CacheStep(cfg, s, e, s');
    CallerStep(cfg, s, e, s');
    BudgetStep(cfg, s, e, s');
  }

  /**
   * In every state of every run: the breaker is the function of the completion history given by OpenUntil;
   * running fetches match the in-flight map one to one; probing means exactly that a probe started since the
   * last completion is still running; every cached entry is its cell's latest successful fetch; every answer
   * is good; and no window of fetch starts exceeds the budget.
   */
  lemma {:induction false} EveryRunKeepsInv(cfg: Config, states: seq<Sys>, events: seq<Event>, k: nat)
    requires cfg.Valid() && IsRun(cfg, states, events) && k < |states|
    ensures Inv(cfg, states[k])
  {
    if k > 0 {
      EveryRunKeepsInv(cfg, states, events, k - 1);
      assert Step(cfg, states[k - 1], events[k - 1], states[k - 1 + 1]);
      StepKeepsInv(cfg, states[k - 1], events[k - 1], states[k]);
    }
  }

  /** If every fetch ends within one cooldown, a probe is the only fetch running and there is never a second one. */
  lemma {:induction false} ProbesRunAlone(cfg: Config, states: seq<Sys>, events: seq<Event>, k: nat)
    requires cfg.Valid() && IsRun(cfg, states, events) && k < |states|
    requires forall i :: 0 <= i < |events| ==> Timely(cfg, states[i], events[i])
    ensures AloneInv(cfg, states[k])
  {
    if k > 0 {
      ProbesRunAlone(cfg, states, events, k - 1);
      EveryRunKeepsInv(cfg, states, events, k - 1);
      assert Step(cfg, states[k - 1], events[k - 1], states[k - 1 + 1]);
      AloneStep(cfg, states[k - 1], events[k - 1], states[k]);
    }
  }

  /**
   * In every state of every run in which the cooldown is over, a call that has no fresh copy and no fetch to
   * join but finds a token is refused exactly while a probe from after the last completion is still running;
   * otherwise it goes out as the probe.
   */
  lemma NeverWedges(cfg: Config, states: seq<Sys>, events: seq<Event>, k: nat, cell: Cell, now: real)
    requires cfg.Valid() && IsRun(cfg, states, events) && k < |states|
    requires states[k].svc.openUntil.Some? && states[k].svc.openUntil.value <= now
    requires !HasFresh(cfg, states[k].svc, cell, now) && cell !in states[k].svc.inflight
    requires HasToken(cfg, states[k].svc, now)
    ensures var (svc', begin) := Begun(cfg, states[k].svc, cell, now, states[k].next);
            if exists id :: CurrentProbe(states[k], id) then begin == Refused
            else begin == Start(states[k].next) && svc'.probing
  {
    EveryRunKeepsInv(cfg, states, events, k);
  }

  predicate HasFresh(cfg: Config, s: Service, cell: Cell, now: real) {
    cell in s.cache && now - s.cache[cell].at < cfg.freshFor
  }

  predicate HasToken(cfg: Config, s: Service, now: real) {
    1.0 <= if s.lastRefill.None? then s.tokens
           else Refilled(cfg.Cap(), cfg.Rate(), Bucket(s.tokens, s.lastRefill.value), now)
  }

  // ---------------------------------------------------------------- how long a fetch may take

  function AfterFailure(cfg: Config, s: Sys, call: nat, now: real): Sys
    requires call in s.running
  {
    var cell := s.running[call].cell;
    s.(svc := RecordResult(cfg, s.svc.(inflight := s.svc.inflight - {cell}), false, now),
       running := s.running - {call}, clock := now,
       history := s.history + [Completion(call, cell, now, None)])
  }

  ghost predicate TwoProbes(s: Sys) {
    exists a, b :: a != b && a in s.running && b in s.running && s.running[a].probe && s.running[b].probe
  }

  /** No fetch is seen running for longer than `bound`. */
  ghost predicate AllWithin(bound: real, states: seq<Sys>, events: seq<Event>) {
    |states| == |events| + 1 && forall i :: 0 <= i < |events| ==> Within(bound, states[i], events[i])
  }

  ghost predicate Within(bound: real, s: Sys, e: Event) {
    forall id :: id in s.running ==> e.now - s.running[id].started <= bound
  }

  /** Some run whose fetches all last at most `bound` comes to have two probes out. */
  ghost predicate CanDoubleProbe(cfg: Config, bound: real) {
    exists states, events :: DoublesProbe(cfg, bound, states, events)
  }

  ghost predicate DoublesProbe(cfg: Config, bound: real, states: seq<Sys>, events: seq<Event>) {
    IsRun(cfg, states, events) && AllWithin(bound, states, events) && TwoProbes(states[|events|])
  }

  /**
   * There is never a second probe exactly when the bound on a fetch's duration is less than the cooldown,
   * for every configuration whose budget lets enough calls out to see it.
   */
  lemma NeverTwoProbesIff(cfg: Config, bound: real)
    requires cfg.Valid() && cfg.maxPerMinute >= cfg.breakerThreshold + 3
    ensures !CanDoubleProbe(cfg, bound) <==> bound < cfg.breakerCooldown
  {
    if bound < cfg.breakerCooldown {
      if states, events :| DoublesProbe(cfg, bound, states, events) {
        assert forall i :: 0 <= i < |events| ==>
                 Within(bound, states[i], events[i]) && Timely(cfg, states[i], events[i]);
        ProbesRunAlone(cfg, states, events, |events|);
        assert false;
      }
    } else {
      var states, events := LateFailureAllowsTwoProbes(cfg);
      assert forall i :: 0 <= i < |events| ==>
        Within(cfg.breakerCooldown, states[i], events[i]) && Within(bound, states[i], events[i]);
      assert DoublesProbe(cfg, bound, states, events);
    }
  }

  /**
   * How it comes about if a fetch may last a whole cooldown: one from before the opening fails after the probe
   * has started, which restarts the cooldown and clears `probing`, and a second probe goes out beside the first.
   */
  lemma LateFailureAllowsTwoProbes(cfg: Config) returns (states: seq<Sys>, events: seq<Event>)
    requires cfg.Valid() && cfg.maxPerMinute >= cfg.breakerThreshold + 3
    ensures IsRun(cfg, states, events) && AllWithin(cfg.breakerCooldown, states, events) && TwoProbes(states[|events|])
  {
    var n, c := cfg.breakerThreshold, cfg.breakerCooldown;
    states, events := LateFailureClearsProbing(cfg);
    var s := states[|events|];
    CallStarts(cfg, s, n + 2, Cell(n + 2, 0), c + c);
    var s' := AfterGet(cfg, s, n + 2, Cell(n + 2, 0), c + c);
    states, events := Extended(cfg, states, events, Get(n + 2, Cell(n + 2, 0), c + c), s');
    assert n + 1 in s'.running && n + 2 in s'.running && s'.running[n + 1].probe && s'.running[n + 2].probe;
  }

  /** A probe has been out since the first cooldown ended, but the second has ended too and `probing` is clear. */
  ghost predicate ProbeForgotten(cfg: Config, s: Sys, n: nat) {
    && s.svc.cache == map[] && s.svc.inflight == map[Cell(n + 1, 0) := n + 1] && !s.svc.probing
    && s.svc.openUntil == Some(cfg.breakerCooldown + cfg.breakerCooldown)
    && s.svc.lastRefill == Some(cfg.breakerCooldown) && 1.0 <= s.svc.tokens <= cfg.Cap()
    && s.running == map[n + 1 := Running(Cell(n + 1, 0), cfg.breakerCooldown, true, n)]
    && s.next == n + 2 && s.clock == cfg.breakerCooldown && forall id :: id in s.callers ==> id <= n + 1
  }

  lemma LateFailureClearsProbing(cfg: Config) returns (states: seq<Sys>, events: seq<Event>)
    requires cfg.Valid() && cfg.maxPerMinute >= cfg.breakerThreshold + 3
    ensures IsRun(cfg, states, events) && AllWithin(cfg.breakerCooldown, states, events)
    ensures ProbeForgotten(cfg, states[|events|], cfg.breakerThreshold)
  {
    var n, c := cfg.breakerThreshold, cfg.breakerCooldown;
    states, events := OpensWithAFetchRunning(cfg, n);
    var s := states[|events|];
    CallStarts(cfg, s, n + 1, Cell(n + 1, 0), c);
    var s1 := AfterGet(cfg, s, n + 1, Cell(n + 1, 0), c);
    states, events := Extended(cfg, states, events, Get(n + 1, Cell(n + 1, 0), c), s1);
    var s2 := AfterFailure(cfg, s1, 0, c);
    assert s2.svc.inflight == map[Cell(n + 1, 0) := n + 1];
    assert s2.running == map[n + 1 := Running(Cell(n + 1, 0), c, true, n)];
    states, events := Extended(cfg, states, events, Finish(0, None, c), s2);
  }

  lemma CallStarts(cfg: Config, s: Sys, id: nat, cell: Cell, now: real)
    requires cfg.Valid() && cell !in s.svc.cache && cell !in s.svc.inflight && 1.0 <= s.svc.tokens <= cfg.Cap()
    requires s.svc.openUntil.None? || (s.svc.openUntil.value <= now && !s.svc.probing)
    requires s.svc.lastRefill.Some? ==> s.svc.lastRefill.value <= now
    ensures var s' := AfterGet(cfg, s, id, cell, now);
            && s.svc.tokens - 1.0 <= s'.svc.tokens <= cfg.Cap() && s'.svc.lastRefill == Some(now)
            && s'.svc.inflight == s.svc.inflight[cell := s.next] && s'.svc.cache == s.svc.cache
            && s'.svc.openUntil == s.svc.openUntil && s'.svc.failures == s.svc.failures
            && (s.svc.openUntil.None? ==> s'.svc.probing == s.svc.probing)
            && s'.running == s.running[s.next := Running(cell, now, s.svc.openUntil.Some?, |s.history|)]
            && s'.next == s.next + 1 && s'.clock == now && s'.callers.Keys == s.callers.Keys + {id}
  {
    if s.svc.lastRefill.Some? {
      RefillBounds(cfg.Cap(), cfg.Rate(), Bucket(s.svc.tokens, s.svc.lastRefill.value), now);
    }
  }

  /** Calls 1 to n failed, all at time zero, while call 0 is still running. */
  ghost predicate FailedBeside(cfg: Config, s: Sys, n: nat) {
    && s.svc.cache == map[] && s.svc.inflight == map[Cell(0, 0) := 0] && s.svc.failures == n
    && s.svc.openUntil == (if n < cfg.breakerThreshold then None else Some(cfg.breakerCooldown))
    && !s.svc.probing && s.svc.lastRefill == Some(0.0) && cfg.Cap() - (n + 1) as real <= s.svc.tokens <= cfg.Cap()
    && s.running == map[0 := Running(Cell(0, 0), 0.0, false, 0)]
    && |s.history| == n && s.next == n + 1 && s.clock == 0.0 && forall id :: id in s.callers ==> id <= n
  }

  lemma {:induction false} OpensWithAFetchRunning(cfg: Config, n: nat) returns (states: seq<Sys>, events: seq<Event>)
    requires cfg.Valid() && n <= cfg.breakerThreshold && cfg.maxPerMinute >= cfg.breakerThreshold + 3
    ensures IsRun(cfg, states, events) && AllWithin(cfg.breakerCooldown, states, events)
    ensures FailedBeside(cfg, states[|events|], n)
  {
    if n == 0 {
      states, events := [Init(cfg)], [];
      CallStarts(cfg, states[0], 0, Cell(0, 0), 0.0);
      var s := AfterGet(cfg, states[0], 0, Cell(0, 0), 0.0);
      states, events := Extended(cfg, states, events, Get(0, Cell(0, 0), 0.0), s);
    } else {
      states, events := OpensWithAFetchRunning(cfg, n - 1);
      var s := states[|events|];
      CallStarts(cfg, s, n, Cell(n, 0), 0.0);
      var s1 := AfterGet(cfg, s, n, Cell(n, 0), 0.0);
      states, events := Extended(cfg, states, events, Get(n, Cell(n, 0), 0.0), s1);
      var s2 := AfterFailure(cfg, s1, n, 0.0);
      FailsBeside(cfg, s, s1, n);
      states, events := Extended(cfg, states, events, Finish(n, None, 0.0), s2);
    }
  }

  lemma FailsBeside(cfg: Config, s: Sys, s1: Sys, n: nat)
    requires cfg.Valid() && 0 < n <= cfg.breakerThreshold && FailedBeside(cfg, s, n - 1)
    requires s1.svc == s.svc.(inflight := s.svc.inflight[Cell(n, 0) := n], tokens := s1.svc.tokens)
    requires s.svc.tokens - 1.0 <= s1.svc.tokens <= cfg.Cap()
    requires s1.running == s.running[n := Running(Cell(n, 0), 0.0, false, |s.history|)]
    requires s1.history == s.history && s1.next == n + 1 && s1.clock == 0.0 && s1.callers.Keys == s.callers.Keys + {n}
    ensures FailedBeside(cfg, AfterFailure(cfg, s1, n, 0.0), n)
  {
    var s2 := AfterFailure(cfg, s1, n, 0.0);
    assert s2.svc.inflight == map[Cell(0, 0) := 0];
    assert s2.running == s.running;
  }

  lemma Extended(cfg: Config, states: seq<Sys>, events: seq<Event>, e: Event, s': Sys)
      returns (states': seq<Sys>, events': seq<Event>)
    requires IsRun(cfg, states, events) && Step(cfg, states[|events|], e, s')
    requires AllWithin(cfg.breakerCooldown, states, events) && Within(cfg.breakerCooldown, states[|events|], e)
    ensures IsRun(cfg, states', events') && AllWithin(cfg.breakerCooldown, states', events') && states'[|events'|] == s'
  {
    states', events' := states + [s'], events + [e];
  }
}
