/** What each Get call is answered, and when it sends a fetch out, in every run of the weather service. */
module WeatherAnswers {
  import opened Prelude
  import opened TokenBucket
  import opened Weather
  import opened WeatherProtocol

  // ---------------------------------------------------------------- every answer, exactly

  /** What a call has to wait for: nothing, a fetch, or just the fallback. */
  datatype Due = Copy | Fetch(call: nat) | Refusal

  ghost predicate FallsBack(cfg: Config, c: Caller) {
    && c.stage.Done?
    && c.stage.result == if c.cached.Some? && c.stage.when - c.cached.value.at <= cfg.staleFor
                         then Served(c.cached.value.data, c.cached.value.at, true) else Unavailable
  }

  /** The caller has what this completion gave: its data, fetched just then, or after a failure the fallback. */
  ghost predicate Gets(cfg: Config, done: Completion, c: Caller) {
    if done.outcome.Some?
    then c.stage.Done? && c.stage.result == Served(done.outcome.value, done.at, false)
    else FallsBack(cfg, c)
  }

  ghost predicate GetsFrom(cfg: Config, h: seq<Completion>, call: nat, c: Caller) {
    exists i :: 0 <= i < |h| && h[i].call == call && Gets(cfg, h[i], c)
  }

  ghost predicate Answered(cfg: Config, h: seq<Completion>, c: Caller, due: Due, gaveUp: bool) {
    match due
    case Copy =>
      c.cached.Some? && c.stage == Done(Served(c.cached.value.data, c.cached.value.at, false), c.start)
    case Fetch(call) =>
      || c.stage == Waiting(call)
      || (gaveUp && c.stage.Done? && c.stage.result.Cancelled?)
      || GetsFrom(cfg, h, call, c)
    case Refusal => c.stage.Skipped? || FallsBack(cfg, c)
  }

  ghost predicate GaveUp(events: seq<Event>, from: nat, to: nat, id: nat)
    requires to <= |events|
  {
    exists i :: from < i < to && events[i].GiveUp? && events[i].caller == id
  }

  /** How a call stands right after its locked section, read off the states around it. */
  ghost predicate StartsOff(cfg: Config, s: Sys, s': Sys, cell: Cell, now: real, due: Due) {
    if cell in s.svc.cache && now - s.svc.cache[cell].at < cfg.freshFor
    then due == Copy && s'.running == s.running && s'.starts == s.starts
    else if cell in s.svc.inflight
    then due == Fetch(s.svc.inflight[cell]) && s'.running == s.running && s'.starts == s.starts
    else if cell in s'.svc.inflight
    then due == Fetch(s'.svc.inflight[cell]) && s'.starts == s.starts + [now]
         && s'.running == s.running[s'.svc.inflight[cell] := Running(cell, now, s.svc.openUntil.Some?, |s.history|)]
    else due == Refusal && s'.running == s.running && s'.starts == s.starts
  }

  lemma GetStartsOff(cfg: Config, s: Sys, id: nat, cell: Cell, now: real) returns (due: Due)
    requires FlightInv(s)
    ensures var s' := AfterGet(cfg, s, id, cell, now);
            && StartsOff(cfg, s, s', cell, now, due) && id in s'.callers
            && var c := s'.callers[id];
               && c.cell == cell && c.start == now
               && c.cached == (if cell in s.svc.cache then Some(s.svc.cache[cell]) else None)
               && Answered(cfg, s'.history, c, due, false)
  {
    var begin := Begun(cfg, s.svc, cell, now, s.next).1;
    due := match begin
      case Hit(_) => Copy
      case Join(call) => Fetch(call)
      case Start(call) => Fetch(call)
      case Refused => Refusal;
  }

  /** A step of the system moves the caller at most from waiting to its answer. */
  lemma StepAnswers(cfg: Config, s: Sys, e: Event, s': Sys, id: nat, due: Due, gaveUp: bool)
    requires Step(cfg, s, e, s') && id in s.callers && Answered(cfg, s.history, s.callers[id], due, gaveUp)
    ensures id in s'.callers
    ensures var (c, c') := (s.callers[id], s'.callers[id]);
            && c'.cell == c.cell && c'.start == c.start && c'.cached == c.cached
            && Answered(cfg, s'.history, c', due, gaveUp || (e.GiveUp? && e.caller == id))
  {
    var c, c' := s.callers[id], s'.callers[id];
    if due.Fetch? && GetsFrom(cfg, s.history, due.call, c) {
      var i :| 0 <= i < |s.history| && s.history[i].call == due.call && Gets(cfg, s.history[i], c);
      assert c' == c && s'.history[i] == s.history[i];
    } else if e.Resume? && e.caller == id && c.stage.Waiting? {
      assert Gets(cfg, s'.history[e.completion], c');
    }
  }

  /**
   * The exact answer of every call in every run. A copy younger than freshFor is served at once and no fetch
   * starts. Otherwise the call joins the fetch that is running for its cell, or the one it starts, and is given what
   * that returned, fetched just then; if that failed, or none was let out, the copy it found at the call, flagged as
   * stale, exactly if it is at most staleFor old by then, and else nothing. Only a caller that gave up goes without.
   */
  lemma {:induction false} EveryAnswerIsExact(cfg: Config, states: seq<Sys>, events: seq<Event>, get: nat, k: nat)
      returns (due: Due)
    requires cfg.Valid() && IsRun(cfg, states, events) && get < k < |states| && events[get].Get?
    ensures var (s, id, cell, now) := (states[get], events[get].caller, events[get].cell, events[get].now);
            && StartsOff(cfg, s, states[get + 1], cell, now, due) && id in states[k].callers
            && var c := states[k].callers[id];
               && c.cell == cell && c.start == now
               && c.cached == (if cell in s.svc.cache then Some(s.svc.cache[cell]) else None)
               && Answered(cfg, states[k].history, c, due, GaveUp(events, get, k, id))
  {
    var id := events[get].caller;
    assert Step(cfg, states[k - 1], events[k - 1], states[k - 1 + 1]);
    if get + 1 == k {
      EveryRunKeepsInv(cfg, states, events, get);
      due := GetStartsOff(cfg, states[get], id, events[get].cell, events[get].now);
    } else {
      due := EveryAnswerIsExact(cfg, states, events, get, k - 1);
      StepAnswers(cfg, states[k - 1], events[k - 1], states[k], id, due, GaveUp(events, get, k - 1, id));
      OneMoreEvent(events, get, k - 1, id);
    }
  }

  lemma OneMoreEvent(events: seq<Event>, from: nat, k: nat, id: nat)
    requires from < k < |events|
    ensures GaveUp(events, from, k + 1, id) <==>
            GaveUp(events, from, k, id) || (events[k].GiveUp? && events[k].caller == id)
  {
  }

  // ---------------------------------------------------------------- exactly when a fetch starts

  /** The tokens left are all there can be, or just what some window that ends at `until` still has room for. */
  ghost predicate Tight(cfg: Config, starts: seq<real>, tokens: real, until: real) {
    tokens == cfg.Cap() || exists i :: 0 <= i < |starts| && FillsWindow(cfg, |starts| - i, tokens, starts[i], until)
  }

  ghost predicate FillsWindow(cfg: Config, n: int, tokens: real, from: real, until: real) {
    n as real + tokens == Allowance(cfg, from, until)
  }

  ghost predicate TightInv(cfg: Config, s: Sys) {
    if s.svc.lastRefill.None? then s.svc.tokens == cfg.Cap() && s.starts == []
    else Tight(cfg, s.starts, s.svc.tokens, s.svc.lastRefill.value)
  }

  /** The level after a refill. */
  function LevelAt(cfg: Config, svc: Service, now: real): real {
    if svc.lastRefill.None? then svc.tokens
    else Min(cfg.Cap(), svc.tokens + Accrued(cfg.Rate(), svc.lastRefill.value, now))
  }

  lemma LevelIsTight(cfg: Config, s: Sys, now: real)
    requires cfg.Valid() && BudgetInv(cfg, s) && TightInv(cfg, s) && s.clock <= now
    ensures Tight(cfg, s.starts, LevelAt(cfg, s.svc, now), now)
  {
    var level := LevelAt(cfg, s.svc, now);
    if s.svc.lastRefill.Some? && level != cfg.Cap() {
      var last := s.svc.lastRefill.value;
      AccruedAtLeast(cfg.Rate(), last, now, 0.0);
      var i :| 0 <= i < |s.starts| && FillsWindow(cfg, |s.starts| - i, s.svc.tokens, s.starts[i], last);
      AllowanceGrows(cfg, s.starts[i], last, now);
      assert FillsWindow(cfg, |s.starts| - i, level, s.starts[i], now);
    }
  }

  lemma SpendingStaysTight(cfg: Config, starts: seq<real>, level: real, now: real)
    requires Tight(cfg, starts, level, now)
    ensures Tight(cfg, starts + [now], level - 1.0, now)
  {
    var starts' := starts + [now];
    if level == cfg.Cap() {
      AllowanceGrows(cfg, now, now, now);
      assert FillsWindow(cfg, |starts'| - |starts|, level - 1.0, starts'[|starts|], now);
    } else {
      var i :| 0 <= i < |starts| && FillsWindow(cfg, |starts| - i, level, starts[i], now);
      assert FillsWindow(cfg, |starts'| - i, level - 1.0, starts'[i], now);
    }
  }

  lemma AskingStaysTight(cfg: Config, s: Sys, now: real)
    requires cfg.Valid() && BudgetInv(cfg, s) && TightInv(cfg, s) && s.clock <= now
    ensures var (svc', ok) := AllowCall(cfg, s.svc, now);
            var starts' := if ok then s.starts + [now] else s.starts;
            if svc'.lastRefill.None? then svc'.tokens == cfg.Cap() && starts' == []
            else Tight(cfg, starts', svc'.tokens, svc'.lastRefill.value)
  {
    var (svc', ok) := AllowCall(cfg, s.svc, now);
    LevelIsTight(cfg, s, now);
    if ok {
      SpendingStaysTight(cfg, s.starts, LevelAt(cfg, s.svc, now), now);
    }
  }

  lemma TightStep(cfg: Config, s: Sys, e: Event, s': Sys)
    requires cfg.Valid() && BudgetInv(cfg, s) && TightInv(cfg, s) && Step(cfg, s, e, s')
    ensures TightInv(cfg, s')
  {
    if e.Get? {
      var begin := Begun(cfg, s.svc, e.cell, e.now, s.next).1;
      if begin.Start? || begin.Refused? {
        AskingStaysTight(cfg, s, e.now);
      }
    }
  }

  lemma {:induction false} EveryRunIsTight(cfg: Config, states: seq<Sys>, events: seq<Event>, k: nat)
    requires cfg.Valid() && IsRun(cfg, states, events) && k < |states|
    ensures TightInv(cfg, states[k])
  {
    if k > 0 {
      EveryRunIsTight(cfg, states, events, k - 1);
      EveryRunKeepsInv(cfg, states, events, k - 1);
      assert Step(cfg, states[k - 1], events[k - 1], states[k - 1 + 1]);
      TightStep(cfg, states[k - 1], events[k - 1], states[k]);
    }
  }

  /** No window that would end at now is full: M starts and M a minute may be in it, this one included. */
  ghost predicate BudgetHasRoom(cfg: Config, starts: seq<real>, now: real) {
    forall i :: 0 <= i < |starts| ==> HasRoom(cfg.maxPerMinute as real, |starts| - i + 1, now - starts[i])
  }

  predicate HasRoom(perMinute: real, n: int, seconds: real) {
    n as real <= perMinute + seconds * (perMinute / 60.0)
  }

  /** The allowance of a window, spelled out. */
  lemma RoomIff(cfg: Config, n: int, from: real, now: real)
    ensures HasRoom(cfg.maxPerMinute as real, n, now - from) <==> n as real <= Allowance(cfg, from, now)
  {
  }

  lemma RoomIfToken(cfg: Config, starts: seq<real>, level: real, now: real)
    requires CanSpend(cfg, starts, level, now) && 1.0 <= level
    ensures BudgetHasRoom(cfg, starts, now)
  {
    forall i | 0 <= i < |starts|
      ensures HasRoom(cfg.maxPerMinute as real, |starts| - i + 1, now - starts[i])
    {
      assert FitsWindow(cfg, |starts| - i, level, starts[i], now);
      RoomIff(cfg, |starts| - i + 1, starts[i], now);
    }
  }

  lemma TokenIfRoom(cfg: Config, starts: seq<real>, level: real, now: real)
    requires cfg.Valid() && Tight(cfg, starts, level, now) && BudgetHasRoom(cfg, starts, now)
    ensures 1.0 <= level
  {
    if level != cfg.Cap() {
      var i :| 0 <= i < |starts| && FillsWindow(cfg, |starts| - i, level, starts[i], now);
      assert HasRoom(cfg.maxPerMinute as real, |starts| - i + 1, now - starts[i]);
      RoomIff(cfg, |starts| - i + 1, starts[i], now);
    }
  }

  lemma HasTokenIffRoom(cfg: Config, s: Sys, now: real)
    requires cfg.Valid() && BudgetInv(cfg, s) && TightInv(cfg, s) && s.clock <= now
    ensures 1.0 <= LevelAt(cfg, s.svc, now) <==> BudgetHasRoom(cfg, s.starts, now)
  {
    var level := LevelAt(cfg, s.svc, now);
    LevelIsTight(cfg, s, now);
    LevelFits(cfg, s, now, level);
    if 1.0 <= level {
      RoomIfToken(cfg, s.starts, level, now);
    }
    if BudgetHasRoom(cfg, s.starts, now) {
      TokenIfRoom(cfg, s.starts, level, now);
    }
  }

  /** The breaker is closed by the history, or its cooldown is over and no probe has run since the last completion. */
  ghost predicate BreakerAdmits(cfg: Config, s: Sys, now: real) {
    var open := OpenUntil(cfg, s.history);
    open.None? || (open.value <= now && forall id :: !CurrentProbe(s, id))
  }

  /**
   * In every run, a call with no fresh copy and no fetch to join starts one exactly when the breaker admits it, by
   * the completions so far, and every window of starts has room for it.
   */
  lemma FetchStartsIff(cfg: Config, states: seq<Sys>, events: seq<Event>, get: nat)
    requires cfg.Valid() && IsRun(cfg, states, events) && get < |events| && events[get].Get?
    requires !HasFresh(cfg, states[get].svc, events[get].cell, events[get].now)
    requires events[get].cell !in states[get].svc.inflight
    ensures events[get].cell in states[get + 1].svc.inflight <==>
            && BreakerAdmits(cfg, states[get], events[get].now)
            && BudgetHasRoom(cfg, states[get].starts, events[get].now)
  {
    var s, now := states[get], events[get].now;
    EveryRunKeepsInv(cfg, states, events, get);
    EveryRunIsTight(cfg, states, events, get);
    assert Step(cfg, s, events[get], states[get + 1]);
    HasTokenIffRoom(cfg, s, now);
  }
}
