/** The lazily refilled token bucket used both for clients (ratelimit.go) and for outgoing calls (weather.go). */
module TokenBucket {
  import opened Prelude

  datatype Bucket = Bucket(tokens: real, last: real)

  /** What drips in between two instants. */
  function Accrued(rate: real, from: real, until: real): real {
    (until - from) * rate
  }

  lemma AccruedAdds(rate: real, from: real, mid: real, until: real)
    ensures Accrued(rate, from, until) == Accrued(rate, from, mid) + Accrued(rate, mid, until)
    ensures Accrued(rate, until, until) == 0.0
  {
    assert (until - from) * rate == (mid - from) * rate + (until - mid) * rate;
  }

  lemma AccruedAtLeast(rate: real, from: real, until: real, seconds: real)
    requires 0.0 <= rate && seconds <= until - from
    ensures seconds * rate <= Accrued(rate, from, until)
  {
    MulMono(seconds, until - from, rate);
  }

  function Refilled(cap: real, rate: real, b: Bucket, now: real): real {
    Min(cap, b.tokens + Accrued(rate, b.last, now))
  }

  /** Refills up to `now`, then takes one token if there is one. */
  function Take(cap: real, rate: real, b: Bucket, now: real): (r: (Bucket, bool))
    ensures r.0.last == now
  {
    var t := Refilled(cap, rate, b, now);
    if t < 1.0 then (Bucket(t, now), false) else (Bucket(t - 1.0, now), true)
  }

  /** The bucket after the requests at `times`, starting full; one answer per request. */
  function Run(cap: real, rate: real, times: seq<real>): (r: (Bucket, seq<bool>))
    requires |times| > 0
    ensures |r.1| == |times| && r.0.last == times[|times| - 1]
  {
    var n := |times| - 1;
    if n == 0 then
      var (b, ok) := Take(cap, rate, Bucket(cap, times[0]), times[0]);
      (b, [ok])
    else
      var (b, answers) := Run(cap, rate, times[..n]);
      var (b', ok) := Take(cap, rate, b, times[n]);
      (b', answers + [ok])
  }

  lemma RunSnoc(cap: real, rate: real, times: seq<real>, now: real)
    ensures var (b, answers) := if times == [] then (Bucket(cap, now), []) else Run(cap, rate, times);
            var (b', ok) := Take(cap, rate, b, now);
            Run(cap, rate, times + [now]) == (b', answers + [ok])
  {
    assert (times + [now])[..|times|] == times;
    if times == [] {
      assert forall ok: bool :: [] + [ok] == [ok];
    }
  }

  lemma FullStaysFull(cap: real, rate: real, now: real)
    ensures Refilled(cap, rate, Bucket(cap, now), now) == cap
  {
    AccruedAdds(rate, now, now, now);
  }

  function Grants(answers: seq<bool>): nat {
    if answers == [] then 0
    else Grants(answers[..|answers| - 1]) + if answers[|answers| - 1] then 1 else 0
  }

  /** What the window from request i up to time `now` still has room for. */
  function Room(cap: real, rate: real, times: seq<real>, answers: seq<bool>, i: nat, now: real): real
    requires |answers| == |times| && i < |times|
  {
    cap + Accrued(rate, times[i], now) - Grants(answers[i..]) as real
  }

  function Rooms(cap: real, rate: real, times: seq<real>, answers: seq<bool>, now: real): (rooms: seq<real>)
    requires |answers| == |times|
    ensures |rooms| == |times|
  {
    seq(|times|, i requires 0 <= i < |times| => Room(cap, rate, times, answers, i, now))
  }

  /** No window that would end at now is already full. */
  ghost predicate EveryWindowHasRoom(cap: real, rate: real, times: seq<real>, answers: seq<bool>, now: real)
    requires |answers| == |times|
  {
    var rooms := Rooms(cap, rate, times, answers, now);
    forall i :: 0 <= i < |rooms| ==> 1.0 <= rooms[i]
  }

  ghost predicate IsLeast(level: real, rooms: seq<real>) {
    && (forall i :: 0 <= i < |rooms| ==> level <= rooms[i])
    && level in rooms
  }

  /** The fill level is exactly the room left in the tightest of all the windows that end now. */
  lemma {:induction false} LevelIsTightestWindow(cap: real, rate: real, times: seq<real>)
    requires 1.0 <= cap && 0.0 <= rate && |times| > 0
    ensures var (b, answers) := Run(cap, rate, times);
            IsLeast(b.tokens, Rooms(cap, rate, times, answers, b.last))
  {
    var n := |times| - 1;
    var (b, answers) := Run(cap, rate, times);
    if n == 0 {
      assert [] + [times[0]] == times && [] + answers == answers;
      LevelStep(cap, rate, [], [], Bucket(cap, times[0]), times[0]);
    } else {
      LevelIsTightestWindow(cap, rate, times[..n]);
      var (b0, answers0) := Run(cap, rate, times[..n]);
      LevelStep(cap, rate, times[..n], answers0, b0, times[n]);
      assert times[..n] + [times[n]] == times;
    }
  }

  lemma LevelStep(cap: real, rate: real, times: seq<real>, answers: seq<bool>, b: Bucket, now: real)
    requires |answers| == |times|
    requires if times == [] then b == Bucket(cap, now) else IsLeast(b.tokens, Rooms(cap, rate, times, answers, b.last))
    ensures var (b', ok) := Take(cap, rate, b, now);
            IsLeast(b'.tokens, Rooms(cap, rate, times + [now], answers + [ok], now))
  {
    var n := |times|;
    var (b', ok) := Take(cap, rate, b, now);
    var rooms, rooms' := Rooms(cap, rate, times, answers, b.last), Rooms(cap, rate, times + [now], answers + [ok], now);
    var grown, taken := Accrued(rate, b.last, now), if ok then 1.0 else 0.0;
    forall i | 0 <= i <= n
      ensures rooms'[i] == (if i < n then rooms[i] + grown else cap) - taken
    {
      RoomSnoc(cap, rate, times, answers, i, b.last, now, ok);
    }
    assert b'.tokens == Min(cap, b.tokens + grown) - taken;
    LeastStep(cap, grown, taken, b.tokens, b'.tokens, rooms, rooms');
  }

  lemma LeastStep(cap: real, grown: real, taken: real, level: real, level': real, rooms: seq<real>, rooms': seq<real>)
    requires |rooms'| == |rooms| + 1 && level' == Min(cap, level + grown) - taken
    requires forall i :: 0 <= i <= |rooms| ==> rooms'[i] == (if i < |rooms| then rooms[i] + grown else cap) - taken
    requires if rooms == [] then level == cap && grown == 0.0 else IsLeast(level, rooms)
    ensures IsLeast(level', rooms')
  {
    if cap <= level + grown {
      assert level' == rooms'[|rooms|];
    } else {
      var k :| 0 <= k < |rooms| && rooms[k] == level;
      assert level' == rooms'[k];
    }
  }

  lemma RoomSnoc(cap: real, rate: real, times: seq<real>, answers: seq<bool>, i: nat, last: real, now: real, ok: bool)
    requires |answers| == |times| && i <= |times|
    ensures Room(cap, rate, times + [now], answers + [ok], i, now)
         == (if i < |times| then Room(cap, rate, times, answers, i, last) + Accrued(rate, last, now) else cap)
            - (if ok then 1.0 else 0.0)
  {
    assert (answers + [ok])[i..] == answers[i..] + [ok];
    GrantsSnoc(answers[i..], ok);
    if i < |times| {
      RoomLater(cap, rate, times, answers, i, last, now);
    }
  }

  lemma GrantsSnoc(answers: seq<bool>, ok: bool)
    ensures Grants(answers + [ok]) == Grants(answers) + if ok then 1 else 0
  {
    assert (answers + [ok])[..|answers|] == answers;
  }

  lemma RoomLater(cap: real, rate: real, times: seq<real>, answers: seq<bool>, i: nat, last: real, now: real)
    requires |answers| == |times| && i < |times|
    ensures Room(cap, rate, times, answers, i, now)
              == Room(cap, rate, times, answers, i, last) + Accrued(rate, last, now)
  {
    AccruedAdds(rate, times[i], last, now);
  }

  /**
   * A request is granted exactly when no window ending at it would then hold more than
   * cap + rate * length grants: the bucket enforces that bound and refuses nothing else.
   */
  lemma GrantedIffEveryWindowHasRoom(cap: real, rate: real, times: seq<real>, now: real)
    requires 1.0 <= cap && 0.0 <= rate && |times| > 0
    ensures var (b, answers) := Run(cap, rate, times);
            Take(cap, rate, b, now).1 <==> EveryWindowHasRoom(cap, rate, times, answers, now)
  {
    LevelIsTightestWindow(cap, rate, times);
    var (b, answers) := Run(cap, rate, times);
    TightestWindowDecides(cap, rate, times, answers, b, now);
  }

  lemma TightestWindowDecides(cap: real, rate: real, times: seq<real>, answers: seq<bool>, b: Bucket, now: real)
    requires 1.0 <= cap && |answers| == |times| && IsLeast(b.tokens, Rooms(cap, rate, times, answers, b.last))
    ensures 1.0 <= Refilled(cap, rate, b, now) <==> EveryWindowHasRoom(cap, rate, times, answers, now)
  {
    RoomsLater(cap, rate, times, answers, b.last, now);
    LeastGrown(cap, Accrued(rate, b.last, now), b.tokens,
               Rooms(cap, rate, times, answers, b.last), Rooms(cap, rate, times, answers, now));
  }

  lemma RoomsLater(cap: real, rate: real, times: seq<real>, answers: seq<bool>, last: real, now: real)
    requires |answers| == |times|
    ensures forall i :: 0 <= i < |times| ==>
              Rooms(cap, rate, times, answers, now)[i]
                  == Rooms(cap, rate, times, answers, last)[i] + Accrued(rate, last, now)
  {
    forall i | 0 <= i < |times|
      ensures Rooms(cap, rate, times, answers, now)[i]
                == Rooms(cap, rate, times, answers, last)[i] + Accrued(rate, last, now)
    {
      RoomLater(cap, rate, times, answers, i, last, now);
    }
  }

  lemma LeastGrown(cap: real, grown: real, level: real, rooms: seq<real>, rooms': seq<real>)
    requires 1.0 <= cap && IsLeast(level, rooms) && |rooms'| == |rooms|
    requires forall i :: 0 <= i < |rooms| ==> rooms'[i] == rooms[i] + grown
    ensures 1.0 <= Min(cap, level + grown) <==> forall i :: 0 <= i < |rooms'| ==> 1.0 <= rooms'[i]
  {
    var k :| 0 <= k < |rooms| && rooms[k] == level;
    assert rooms'[k] == level + grown;
  }

  /** A refill adds at most rate per second, takes nothing away and never overfills. */
  lemma RefillBounds(cap: real, rate: real, b: Bucket, now: real)
    requires 0.0 <= cap && 0.0 <= rate && b.last <= now && 0.0 <= b.tokens
    ensures 0.0 <= Refilled(cap, rate, b, now) <= cap
    ensures Refilled(cap, rate, b, now) <= b.tokens + Accrued(rate, b.last, now)
    ensures b.tokens <= cap ==> b.tokens <= Refilled(cap, rate, b, now)
  {
    AccruedAtLeast(rate, b.last, now, 0.0);
  }

  /** A minute's refill at cap a minute fills the bucket. */
  lemma FullAfterAMinute(cap: real, rate: real, b: Bucket, now: real)
    requires cap == 60.0 * rate && 0.0 <= rate && 0.0 <= b.tokens && 60.0 <= now - b.last
    ensures Refilled(cap, rate, b, now) == cap
  {
    AccruedAtLeast(rate, b.last, now, 60.0);
  }

  /** One take: what was taken plus what is left is what there was, and the level stays within 0..cap. */
  lemma TakeSpends(cap: real, rate: real, b: Bucket, now: real)
    requires 1.0 <= cap && 0.0 <= rate && b.last <= now && 0.0 <= b.tokens
    ensures var (b', ok) := Take(cap, rate, b, now);
            && 0.0 <= b'.tokens <= cap && b'.last == now
            && (if ok then 1.0 else 0.0) + b'.tokens == Refilled(cap, rate, b, now)
  {
    RefillBounds(cap, rate, b, now);
  }
}
