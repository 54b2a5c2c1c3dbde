/**
 * The flood risk score as the sum of its points (internal/services/risk.go), stated hour by hour, and what plausible
 * weather is (internal/services/clientweather.go).
 */
module RiskRules {
  import opened Prelude
  import opened Risk

  // ---------------------------------------------------------------- the rain of given hours

  /** The rain of one hour; hours outside the series are dry. */
  function RainAt(rain: seq<real>, hour: int): real {
    if 0 <= hour < |rain| then rain[hour] else 0.0
  }

  /** The rain of the hours from first to last, both included. */
  function Rain(rain: seq<real>, first: int, last: int): real
    decreases last - first
  {
    if last < first then 0.0 else Rain(rain, first, last - 1) + RainAt(rain, last)
  }

  lemma {:induction false} DryOutside(rain: seq<real>, first: int, last: int)
    requires last < 0 || |rain| <= first
    ensures Rain(rain, first, last) == 0.0
    decreases last - first
  {
    if first <= last {
      DryOutside(rain, first, last - 1);
    }
  }

  lemma {:induction false} Splits(rain: seq<real>, first: int, mid: int, last: int)
    requires first <= mid <= last + 1
    ensures Rain(rain, first, last) == Rain(rain, first, mid - 1) + Rain(rain, mid, last)
    decreases last - mid + 1
  {
    if mid <= last {
      Splits(rain, first, mid, last - 1);
    }
  }

  lemma {:induction false} SumIsRain(rain: seq<real>, first: int, end: int)
    requires 0 <= first <= end <= |rain|
    ensures Sum(rain[first..end]) == Rain(rain, first, end - 1)
    decreases end - first
  {
    if first < end {
      SumIsRain(rain, first, end - 1);
      assert rain[first..end][..end - 1 - first] == rain[first..end - 1];
    }
  }

  /** A window that reaches out of the series holds the rain of the hours within it. */
  lemma CutToSeries(rain: seq<real>, first: int, last: int, from: int, end: int)
    requires 0 <= from <= end <= |rain| && first <= last + 1
    requires from == MinInt(MaxInt(first, 0), |rain|) && end == MinInt(MaxInt(last + 1, 0), |rain|)
    ensures Sum(rain[from..end]) == Rain(rain, first, last)
  {
    SumIsRain(rain, from, end);
    if last < 0 || |rain| <= first {
      DryOutside(rain, first, last);
    } else {
      Splits(rain, first, from, last);
      Splits(rain, from, end, last);
      if first < 0 {
        DryOutside(rain, first, -1);
      }
      if end <= last {
        DryOutside(rain, end, last);
      }
    }
  }

  // ---------------------------------------------------------------- the points

  ghost predicate StartsLike(entry: string, time: string)
    requires |time| >= 13
  {
    |entry| >= 13 && entry[..13] == time[..13]
  }

  /** The earliest entry of the hour the current time lies in; without one, a week into the series or at its end. */
  ghost predicate IsNow(w: Weather, now: int) {
    if |w.currentTime| >= 13 && exists i :: 0 <= i < |w.time| && StartsLike(w.time[i], w.currentTime)
    then
      && 0 <= now < |w.time| && StartsLike(w.time[now], w.currentTime)
      && forall i :: 0 <= i < now ==> !StartsLike(w.time[i], w.currentTime)
    else now == if |w.precipitation| < 168 then |w.precipitation| else 168
  }

  /** The latest reading above zero up to now, at fifty points a unit and twenty at most. */
  ghost predicate SoilPoints(soil: seq<real>, now: int, points: real) {
    || (LatestWet(soil, now).None? && points == 0.0)
    || (LatestWet(soil, now).Some? && points == Min(20.0, 50.0 * LatestWet(soil, now).value))
  }

  function LatestWet(soil: seq<real>, now: int): Option<real> {
    if now < 0 then None
    else if now < |soil| && soil[now] > 0.0 then Some(soil[now])
    else LatestWet(soil, now - 1)
  }

  /** Two thirds of a point for each metre below the surroundings, up to ten. */
  ghost predicate GroundPoints(depression: Option<real>, points: real) {
    if depression.None? || depression.value <= 0.0 then points == 0.0
    else if depression.value >= 15.0 then points == 10.0
    else 3.0 * points == 2.0 * depression.value
  }

  /** Eight points for each baseline the peak lies above one and a half baselines, up to twenty. */
  ghost predicate RiverPoints(river: Option<River>, points: real) {
    if river.None? || river.value.peak < 10.0 then points == 0.0
    else
      var base := if river.value.baseline < 10.0 then 10.0 else river.value.baseline;
      if river.value.peak <= 1.5 * base then points == 0.0
      else if river.value.peak >= 4.0 * base then points == 20.0
      else points * base == 8.0 * (river.value.peak - 1.5 * base)
  }

  /** Thunderstorms, showers, and any other rain or snow. */
  ghost predicate CodePoints(code: int, points: real) {
    && (95 <= code ==> points == 30.0)
    && (80 <= code < 95 ==> points == 15.0)
    && (60 <= code < 80 ==> points == 10.0)
    && (code < 60 ==> points == 0.0)
  }

  lemma NowIsCurrentHour(w: Weather, now: int)
    ensures IsNow(w, now) <==> now == CurrentHour(w)
  {
    if |w.currentTime| >= 13 {
      forall i | 0 <= i < |w.time|
        ensures StartsLike(w.time[i], w.currentTime) <==> w.currentTime[..13] <= w.time[i]
      {
      }
    }
  }

  lemma {:induction false} LatestWetIsLatest(soil: seq<real>, now: int)
    ensures var i := Latest(soil, now + 1);
            LatestWet(soil, now) == if 0 <= i < |soil| then Some(soil[i]) else None
    decreases now
  {
    if now >= 0 {
      LatestWetIsLatest(soil, now - 1);
    }
  }

  lemma SoilPointsAreScored(soil: seq<real>, now: int, points: real)
    ensures SoilPoints(soil, now, points) <==> points == SoilScore(soil, Latest(soil, now + 1))
  {
    LatestWetIsLatest(soil, now);
  }

  lemma GroundPointsAreScored(depression: Option<real>, points: real)
    ensures GroundPoints(depression, points) <==> points == LowLyingScore(depression)
  {
  }

  lemma RiverPointsAreScored(river: Option<River>, points: real)
    ensures RiverPoints(river, points) <==> points == RiverScore(river)
  {
    if river.Some? && river.value.peak >= 10.0 {
      var (peak, base) := (river.value.peak, Max(river.value.baseline, 10.0));
      RatioOf(peak, base, 1.5);
      RatioOf(peak, base, 4.0);
      var ratio := peak / base;
      assert ratio * base == peak;
      BetweenPoints(points, ratio, base);
    }
  }

  lemma BetweenPoints(points: real, ratio: real, base: real)
    requires base > 0.0
    ensures points * base == 8.0 * (ratio * base - 1.5 * base) <==> points == (ratio - 1.5) / (4.0 - 1.5) * 20.0
  {
    var scored := (ratio - 1.5) * 8.0;
    assert scored * base == 8.0 * (ratio * base - 1.5 * base);
    if points < scored {
      StrictMul(points, scored, base);
    } else if scored < points {
      StrictMul(scored, points, base);
    }
  }

  // ---------------------------------------------------------------- the score

  /**
   * Ten points for each millimetre that fell in the last hour, five for each forecast in the next six hours, and for
   * the rain so far two points per five millimetres of the last 48 hours, up to twenty, and one per ten millimetres
   * of the last week, up to fifteen.
   */
  function RainPoints(w: Weather, now: int): real {
    10.0 * w.currentPrecipitation + 5.0 * Rain(w.precipitation, now + 1, now + 6)
    + Min(20.0, 0.4 * Rain(w.precipitation, now - 47, now)) + Min(15.0, 0.1 * Rain(w.precipitation, now - 167, now))
  }

  lemma RainPointsAreScored(w: Weather, now: int)
    requires 0 <= now && WindowsAt(w.precipitation, now).Some?
    ensures RainPoints(w, now)
         == w.currentPrecipitation * 10.0 + RainScore(WindowsAt(w.precipitation, now).value)
  {
    var rain := w.precipitation;
    CutToSeries(rain, now + 1, now + 6, MinInt(now + 1, |rain|), MinInt(MinInt(now + 1, |rain|) + 6, |rain|));
    CutToSeries(rain, now - 47, now, MaxInt(now - 47, 0), MinInt(now + 1, |rain|));
    CutToSeries(rain, now - 167, now, MaxInt(now - 167, 0), MinInt(now + 1, |rain|));
  }

  /** The score is the sum of the points, kept within 0 and 100 and rounded down. */
  lemma ScoreIsSumOfPoints(w: Weather, h: Hydrology, now: int, soil: real, ground: real, river: real, code: real)
    requires IsNow(w, now) && SoilPoints(w.soilMoisture, now, soil) && GroundPoints(h.depression, ground)
    requires RiverPoints(h.river, river) && CodePoints(w.weatherCode, code)
    ensures Score(w, h).Some? <==> now <= |w.precipitation| + 47
    ensures var total := RainPoints(w, now) + soil + ground + river + code;
            Score(w, h).Some? ==>
              Score(w, h).value == if total <= 0.0 then 0 else if total >= 100.0 then 100 else total.Floor
  {
    NowIsCurrentHour(w, now);
    SoilPointsAreScored(w.soilMoisture, now, soil);
    GroundPointsAreScored(h.depression, ground);
    RiverPointsAreScored(h.river, river);
    if Score(w, h).Some? {
      RainPointsAreScored(w, now);
    }
  }

  // ---------------------------------------------------------------- weather from clients

  ghost predicate HourIsPlausible(w: Weather, parses: string -> bool, i: nat)
    requires i < |w.time| == |w.precipitation| == |w.rain| == |w.soilMoisture|
  {
    && parses(w.time[i]) && 0.0 <= w.precipitation[i] <= 500.0 && 0.0 <= w.rain[i] <= 500.0
    && 0.0 <= w.soilMoisture[i] <= 1.0
  }

  /**
   * Weather is plausible when it is for a place within half a degree and a time zone within fourteen hours, was
   * observed at most six hours ago and at most one hour from now, has a weather code of 0 to 99, and its series are
   * equally long, of 1 to 240 plausible hours.
   */
  lemma PlausibleIff(w: Weather, lat: real, lon: real, age: Option<real>, parses: string -> bool)
    ensures Plausible(w, lat, lon, age, parses) <==>
            && lat - 0.5 <= w.latitude <= lat + 0.5 && lon - 0.5 <= w.longitude <= lon + 0.5
            && -14 * 3600 <= w.utcOffset <= 14 * 3600
            && age.Some? && -1.0 * 3600.0 <= age.value <= 6.0 * 3600.0
            && 0 <= w.weatherCode <= 99
            && 1 <= |w.time| <= 240
            && |w.time| == |w.precipitation| == |w.rain| == |w.soilMoisture|
            && forall i :: 0 <= i < |w.time| ==> HourIsPlausible(w, parses, i)
  {
    if |w.time| == |w.precipitation| == |w.rain| == |w.soilMoisture| {
      assert forall i :: 0 <= i < |w.time| ==> (HourProblem(w, parses, i).None? <==> HourIsPlausible(w, parses, i));
    }
  }
}
