/** Push alerts for one subscribed location (internal/workers/notifier.go, internal/services/quiethours.go). */
module Notifier {
  // Local minutes of the day are inputs; recording an alert in the database succeeds.

  import opened Prelude

  const RENOTIFY_AFTER: real := 43200.0
  const MINUTES: int := 1440

  datatype Level = Normal | Advisory | Alert | Emergency

  function Rank(l: Level): int {
    match l
    case Normal => 0
    case Advisory => 1
    case Alert => 2
    case Emergency => 3
  }

  // ---------------------------------------------------------------- quiet hours

  /** start and end are minutes of the day. */
  datatype QuietHours = QuietHours(start: int, end: int)
  {
    predicate Valid() {
      0 <= start < MINUTES && 0 <= end < MINUTES && start != end
    }

    predicate Contains(minute: int) {
      if start < end then start <= minute < end else minute >= start || minute < end
    }
  }

  /** How long after `from` the clock next shows `to`. */
  function Ahead(from: int, to: int): int {
    (to - from) % MINUTES
  }

  /** A minute is quiet exactly when, counting forward round the clock from the start, it comes before the end. */
  lemma ContainsIffBeforeEnd(q: QuietHours, minute: int)
    requires q.Valid() && 0 <= minute < MINUTES
    ensures q.Contains(minute) <==> Ahead(q.start, minute) < Ahead(q.start, q.end)
    ensures q.Contains(minute) <==> !QuietHours(q.end, q.start).Contains(minute)
  {
    WrapAround(minute - q.start);
    WrapAround(q.end - q.start);
  }

  lemma WrapAround(d: int)
    requires -MINUTES < d < MINUTES
    ensures d % MINUTES == if d < 0 then d + MINUTES else d
  {
  }

  // ---------------------------------------------------------------- one evaluation

  datatype Sub = Sub(minLevel: Level, quiet: Option<QuietHours>, allowEmergency: bool,
                     lastLevel: Option<Level>, lastAt: Option<real>)

  datatype Decision = Nothing | Notify | Lower | Reset

  predicate Quiet(s: Sub, level: Level, minute: int) {
    s.quiet.Some? && s.quiet.value.Contains(minute) && !(level == Emergency && s.allowEmergency)
  }

  /** The level is due an alert, quiet hours aside. */
  predicate Due(s: Sub, level: Level, now: real) {
    && Rank(level) >= Rank(s.minLevel)
    && (s.lastLevel.None? || Rank(level) > Rank(s.lastLevel.value) || s.lastAt.None?
        || now - s.lastAt.value >= RENOTIFY_AFTER)
  }

  function Decide(s: Sub, level: Level, now: real, minute: int): Decision {
    if Rank(level) < Rank(s.minLevel) then (if s.lastLevel.Some? then Reset else Nothing)
    else if s.lastLevel.None? || Rank(level) > Rank(s.lastLevel.value)
            || s.lastAt.None? || now - s.lastAt.value >= RENOTIFY_AFTER
    then (if Quiet(s, level, minute) then Nothing else Notify)
    else if Rank(level) < Rank(s.lastLevel.value) then Lower
    else Nothing
  }

  /**
   * One run of the worker as this subscription sees it: when the run began, which is the time it decides by; the
   * assessed level (None when the assessment failed or is stale); the minute at which the alert goes out, if one
   * does; whether any device took it, and when that was recorded.
   */
  datatype Eval = Eval(now: real, minute: int, level: Option<Level>, sent: int, delivered: bool, at: real)

  predicate Alerts(s: Sub, e: Eval) {
    e.level.Some? && Decide(s, e.level.value, e.now, e.minute) == Notify && e.delivered
  }

  function After(s: Sub, e: Eval): Sub {
    if e.level.None? then s
    else
      match Decide(s, e.level.value, e.now, e.minute)
      case Notify => if e.delivered then s.(lastLevel := e.level, lastAt := Some(e.at)) else s
      case Lower => s.(lastLevel := e.level)
      case Reset => s.(lastLevel := None, lastAt := None)
      case Nothing => s
  }

  function AfterAll(s: Sub, evals: seq<Eval>): Sub {
    if evals == [] then s else After(AfterAll(s, evals[..|evals| - 1]), evals[|evals| - 1])
  }

  predicate AlertsAt(s: Sub, evals: seq<Eval>, i: nat)
    requires i < |evals|
  {
    Alerts(AfterAll(s, evals[..i]), evals[i])
  }

  lemma OneMore(s: Sub, evals: seq<Eval>, i: nat)
    requires i < |evals|
    ensures AfterAll(s, evals[..i + 1]) == After(AfterAll(s, evals[..i]), evals[i])
  {
    assert evals[..i + 1][..i] == evals[..i];
  }

  lemma {:induction false} SettingsStay(s: Sub, evals: seq<Eval>)
    ensures var s' := AfterAll(s, evals);
            s'.minLevel == s.minLevel && s'.quiet == s.quiet && s'.allowEmergency == s.allowEmergency
  {
    if evals != [] {
      SettingsStay(s, evals[..|evals| - 1]);
    }
  }

  // ---------------------------------------------------------------- alerts are not repeated without cause

  /** Some run strictly between i and j assessed a level below `level`. */
  ghost predicate DippedBelow(evals: seq<Eval>, i: nat, j: nat, level: Level)
    requires j <= |evals|
  {
    exists k :: i < k < j && evals[k].level.Some? && Rank(evals[k].level.value) < Rank(level)
  }

  /** What the row still remembers of the alert sent by run i, as long as no run dips below `level`. */
  lemma {:induction false} StillRemembers(s: Sub, evals: seq<Eval>, i: nat, j: nat, level: Level)
    requires i < j <= |evals| && AlertsAt(s, evals, i)
    requires forall k :: i < k < j ==> !AlertsAt(s, evals, k)
    requires !DippedBelow(evals, i, j, level) && Rank(s.minLevel) <= Rank(level)
    ensures Remembers(AfterAll(s, evals[..j]), evals[i], level)
  {
    if i + 1 < j {
      StillRemembers(s, evals, i, j - 1, level);
      assert !AlertsAt(s, evals, j - 1);
      assert NotBelow(evals[j - 1], level);
      OneMoreRemembered(s, evals, i, j - 1, level);
    } else {
      OneMore(s, evals, i);
      AlertIsRemembered(AfterAll(s, evals[..i]), evals[i], level);
    }
  }

  lemma OneMoreRemembered(s: Sub, evals: seq<Eval>, i: nat, j: nat, level: Level)
    requires i < j < |evals| && !AlertsAt(s, evals, j) && NotBelow(evals[j], level) && Rank(s.minLevel) <= Rank(level)
    requires Remembers(AfterAll(s, evals[..j]), evals[i], level)
    ensures Remembers(AfterAll(s, evals[..j + 1]), evals[i], level)
  {
    OneMore(s, evals, j);
    SettingsStay(s, evals[..j]);
    RememberedStep(AfterAll(s, evals[..j]), evals[i], evals[j], level);
  }

  /** The row has the time of the alert, and its level or one at least `level`. */
  ghost predicate Remembers(s: Sub, alert: Eval, level: Level) {
    && s.lastAt == Some(alert.at) && s.lastLevel.Some?
    && (s.lastLevel == alert.level || Rank(level) <= Rank(s.lastLevel.value))
  }

  lemma AlertIsRemembered(s: Sub, alert: Eval, level: Level)
    requires Alerts(s, alert)
    ensures Remembers(After(s, alert), alert, level)
  {
  }

  lemma RememberedStep(s: Sub, alert: Eval, e: Eval, level: Level)
    requires Remembers(s, alert, level) && !Alerts(s, e) && NotBelow(e, level) && Rank(s.minLevel) <= Rank(level)
    ensures Remembers(After(s, e), alert, level)
  {
  }

  /**
   * Between two consecutive delivered alerts either 12 hours passed, or the level rose, or some run in between
   * assessed a level below the second alert's.
   */
  lemma NoRepeatWithoutCause(s: Sub, evals: seq<Eval>, i: nat, j: nat)
    requires i < j < |evals| && AlertsAt(s, evals, i) && AlertsAt(s, evals, j)
    requires forall k :: i < k < j ==> !AlertsAt(s, evals, k)
    ensures || evals[j].now - evals[i].at >= RENOTIFY_AFTER
            || Rank(evals[j].level.value) > Rank(evals[i].level.value)
            || DippedBelow(evals, i, j, evals[j].level.value)
  {
    var level := evals[j].level.value;
    SettingsStay(s, evals[..j]);
    if !DippedBelow(evals, i, j, level) {
      StillRemembers(s, evals, i, j, level);
    }
  }

  /**
   * No run that begins in quiet hours sends an alert except an Emergency the subscriber allows, whatever came before.
   */
  lemma QuietHoursAreKept(s: Sub, evals: seq<Eval>, i: nat)
    requires i < |evals| && AlertsAt(s, evals, i)
    ensures s.quiet.Some? && s.quiet.value.Contains(evals[i].minute) ==>
              evals[i].level == Some(Emergency) && s.allowEmergency
    ensures Rank(evals[i].level.value) >= Rank(s.minLevel)
  {
    SettingsStay(s, evals[..i]);
  }

  /**
   * Any other alert goes out in quiet hours exactly when they have begun since the run did: going forward round the
   * clock from the minute the run began, the sending minute comes after the start of the quiet hours and within
   * their length.
   */
  lemma SentInQuietHoursIff(s: Sub, evals: seq<Eval>, i: nat)
    requires i < |evals| && AlertsAt(s, evals, i) && !(evals[i].level == Some(Emergency) && s.allowEmergency)
    requires s.quiet.Some? && s.quiet.value.Valid() && 0 <= evals[i].minute < MINUTES && 0 <= evals[i].sent < MINUTES
    ensures var (q, began) := (s.quiet.value, evals[i].minute);
            q.Contains(evals[i].sent) <==>
            Ahead(began, q.start) <= Ahead(began, evals[i].sent) < Ahead(began, q.start) + Ahead(q.start, q.end)
  {
    QuietHoursAreKept(s, evals, i);
    var q, began := s.quiet.value, evals[i].minute;
    WrapAround(q.start - began);
    WrapAround(evals[i].sent - began);
    WrapAround(q.end - q.start);
  }

  // ---------------------------------------------------------------- alerts held back are not lost

  /** The run does not assess a level below `level`. */
  predicate NotBelow(e: Eval, level: Level) {
    e.level.Some? ==> Rank(e.level.value) >= Rank(level)
  }

  /** As long as no alert is delivered and no run assesses a lower level, the row of a due alert stays untouched. */
  lemma {:induction false} StaysDue(s: Sub, level: Level, now: real, evals: seq<Eval>)
    requires Due(s, level, now) && forall i :: 0 <= i < |evals| ==> now <= evals[i].now
    requires forall k :: 0 <= k < |evals| ==> NotBelow(evals[k], level) && !AlertsAt(s, evals, k)
    ensures AfterAll(s, evals) == s
  {
    if evals != [] {
      var n := |evals| - 1;
      forall k | 0 <= k < n
        ensures !AlertsAt(s, evals[..n], k)
      {
        assert evals[..n][..k] == evals[..k];
        assert !AlertsAt(s, evals, k);
      }
      StaysDue(s, level, now, evals[..n]);
      assert !AlertsAt(s, evals, n);
      DueLeavesRow(s, level, now, evals[n]);
    }
  }

  lemma DueLeavesRow(s: Sub, level: Level, now: real, e: Eval)
    requires Due(s, level, now) && now <= e.now && NotBelow(e, level) && !Alerts(s, e)
    ensures After(s, e) == s
  {
    if e.level.Some? {
      assert Due(s, e.level.value, e.now);
    }
  }

  /**
   * An alert that is due but held back, or not delivered, is not lost: unless some run assesses a lower level
   * meanwhile, the first run outside quiet hours still sends it.
   */
  lemma DeferredAlertIsSent(s: Sub, level: Level, now: real, evals: seq<Eval>, later: Eval)
    requires Due(s, level, now) && forall i :: 0 <= i < |evals| ==> now <= evals[i].now
    requires forall k :: 0 <= k < |evals| ==> NotBelow(evals[k], level) && !AlertsAt(s, evals, k)
    requires later.level.Some? && NotBelow(later, level) && now <= later.now
    ensures var reached := later.level.value;
            Decide(AfterAll(s, evals), reached, later.now, later.minute)
              == if Quiet(s, reached, later.minute) then Nothing else Notify
  {
    StaysDue(s, level, now, evals);
    assert Due(s, later.level.value, later.now);
  }

  // ---------------------------------------------------------------- the row as the worker updates it

  class Subscription {
    const minLevel: Level
    const quiet: Option<QuietHours>
    const allowEmergency: bool
    var lastLevel: Option<Level>
    var lastAt: Option<real>

    function State(): Sub
      reads this
    {
      Sub(minLevel, quiet, allowEmergency, lastLevel, lastAt)
    }

    constructor (minLevel: Level, quiet: Option<QuietHours>, allowEmergency: bool)
      ensures State() == Sub(minLevel, quiet, allowEmergency, None, None)
    {
      this.minLevel, this.quiet, this.allowEmergency := minLevel, quiet, allowEmergency;
      lastLevel, lastAt := None, None;
    }

    /** One turn of RunOnce's loop; tickets says which devices took the message, if one is sent. */
    method Evaluate(now: real, minute: int, level: Option<Level>, sent: int, tickets: seq<bool>, at: real)
        returns (alerted: bool)
      modifies this
      ensures var e := Eval(now, minute, level, sent, true in tickets, at);
              State() == After(old(State()), e) && alerted == Alerts(old(State()), e)
    {
      alerted := false;
      if level.None? {
        return;
      }
      match Decide(State(), level.value, now, minute) {
        case Notify =>
          alerted := Delivered(tickets);
          if alerted {
            lastLevel, lastAt := level, Some(at);
          }
        case Lower =>
          lastLevel := level;
        case Reset =>
          lastLevel, lastAt := None, None;
        case Nothing =>
      }
    }

    method Delivered(tickets: seq<bool>) returns (delivered: bool)
      ensures delivered == (true in tickets)
    {
      delivered := false;
      for i := 0 to |tickets|
        invariant delivered == (true in tickets[..i])
      {
        if tickets[i] {
          delivered := true;
        }
      }
    }
  }
}
