/**
 * The flood risk score (internal/services/risk.go) and the check on weather sent by clients
 * (internal/services/clientweather.go). Real numbers stand for floats; parsing of times is an input.
 */
module Risk {
  import opened Prelude

  const HISTORICAL_DAYS: int := 7
  const FORECAST_DAYS: int := 2
  const FORECAST_HOURS: int := 6
  const MAX_HOURS: int := (HISTORICAL_DAYS + FORECAST_DAYS + 1) * 24
  const MAX_HOURLY_MM: real := 500.0

  datatype Weather = Weather(latitude: real, longitude: real, utcOffset: int,
                             currentTime: string, currentPrecipitation: real, weatherCode: int,
                             time: seq<string>, precipitation: seq<real>, rain: seq<real>, soilMoisture: seq<real>)

  datatype River = River(baseline: real, peak: real)

  /** depression is how far below its surroundings the point lies. */
  datatype Hydrology = Hydrology(depression: Option<real>, river: Option<River>)

  // ---------------------------------------------------------------- windows over hourly series

  function Sum(values: seq<real>): real {
    if values == [] then 0.0 else Sum(values[..|values| - 1]) + values[|values| - 1]
  }

  /** Slicing as Go does it; None is a run-time panic. */
  function Slice(values: seq<real>, from: int, to: int): (r: Option<seq<real>>)
    ensures r.Some? <==> 0 <= from <= to <= |values|
  {
    if 0 <= from <= to <= |values| then Some(values[from..to]) else None
  }

  function HoursAfter(values: seq<real>, index: int, n: int): Option<seq<real>> {
    var start := MinInt(index + 1, |values|);
    Slice(values, start, MinInt(start + n, |values|))
  }

  function PreviousHours(values: seq<real>, end: int, hours: int): Option<seq<real>> {
    Slice(values, MaxInt(end - hours, 0), MinInt(end, |values|))
  }

  /** The first entry that starts with prefix, or the length if none does. */
  function FirstWith(times: seq<string>, prefix: string): (i: nat)
    ensures i <= |times| && (i < |times| ==> prefix <= times[i])
    ensures forall j :: 0 <= j < i ==> !(prefix <= times[j])
  {
    if times == [] || prefix <= times[0] then 0 else 1 + FirstWith(times[1..], prefix)
  }

  /** The hour of the series that contains the current time, or a week into the series when there is none. */
  function CurrentHour(w: Weather): (i: int)
    ensures 0 <= i && (i < |w.time| || i <= |w.precipitation|)
  {
    if |w.currentTime| >= 13 && FirstWith(w.time, w.currentTime[..13]) < |w.time|
    then FirstWith(w.time, w.currentTime[..13])
    else MinInt(HISTORICAL_DAYS * 24, |w.precipitation|)
  }

  method CurrentHourIndex(w: Weather) returns (index: int)
    ensures index == CurrentHour(w)
  {
    if |w.currentTime| >= 13 {
      var hour := w.currentTime[..13];
      for i := 0 to |w.time|
        invariant forall j :: 0 <= j < i ==> !(hour <= w.time[j])
      {
        if hour <= w.time[i] {
          return i;
        }
      }
    }
    return MinInt(HISTORICAL_DAYS * 24, |w.precipitation|);
  }

  method SumPreviousHours(values: seq<real>, end: int, hours: int) returns (total: Option<real>)
    ensures total == match PreviousHours(values, end, hours) case None => None case Some(s) => Some(Sum(s))
  {
    var window := PreviousHours(values, end, hours);
    if window.None? {
      return None;
    }
    var s, sum := window.value, 0.0;
    for i := 0 to |s|
      invariant sum == Sum(s[..i])
    {
      assert s[..i + 1][..i] == s[..i];
      sum := sum + s[i];
    }
    assert s[..|s|] == s;
    return Some(sum);
  }

  /** The last reading above zero before end, or -1. */
  function Latest(values: seq<real>, end: int): (i: int)
    ensures -1 <= i && (i >= 0 ==> i < MinInt(end, |values|) && values[i] > 0.0)
    ensures forall j :: 0 <= j < MinInt(end, |values|) && i < j ==> values[j] <= 0.0
    decreases end
  {
    var n := MinInt(end, |values|);
    if n <= 0 then -1 else if values[n - 1] > 0.0 then n - 1 else Latest(values, n - 1)
  }

  method LatestPositive(values: seq<real>, end: int) returns (i: int)
    ensures i == Latest(values, end)
  {
    i := MinInt(end, |values|) - 1;
    while i >= 0
      invariant i < MinInt(end, |values|)
      invariant forall j :: 0 <= j < MinInt(end, |values|) && i < j ==> values[j] <= 0.0
    {
      if values[i] > 0.0 {
        return;
      }
      i := i - 1;
    }
    return -1;
  }

  // ---------------------------------------------------------------- the score

  function LowLyingScore(depression: Option<real>): (r: real)
    ensures 0.0 <= r <= 10.0
  {
    if depression.None? then 0.0 else Min(10.0, Max(0.0, depression.value) / 15.0 * 10.0)
  }

  function RiverScore(river: Option<River>): (r: real)
    ensures 0.0 <= r <= 20.0
  {
    if river.None? || river.value.peak < 10.0 then 0.0
    else
      var ratio := river.value.peak / Max(river.value.baseline, 10.0);
      Min(20.0, Max(0.0, (ratio - 1.5) / (4.0 - 1.5) * 20.0))
  }

  function SoilScore(values: seq<real>, latest: int): real {
    if 0 <= latest < |values| then Min(20.0, values[latest] / 0.40 * 20.0) else 0.0
  }

  function Severity(code: int): real {
    if code >= 95 then 30.0 else if code >= 80 then 15.0 else if code >= 60 then 10.0 else 0.0
  }

  /** The rain after and before the current hour, weighted and capped. */
  function RainScore(r: Windows): real {
    Sum(r.forecast) * 5.0 + Min(20.0, Sum(r.twoDays) / 50.0 * 20.0) + Min(15.0, Sum(r.week) / 150.0 * 15.0)
  }

  function Clamped(raw: real): (r: int)
    ensures 0 <= r <= 100
    ensures 0.0 <= raw < 100.0 ==> r as real <= raw < r as real + 1.0
  {
    Min(100.0, Max(0.0, raw)).Floor
  }

  /** The slices of the rain series the score looks at: None is a run-time panic. */
  datatype Windows = Windows(forecast: seq<real>, twoDays: seq<real>, week: seq<real>)

  function WindowsAt(rain: seq<real>, now: int): Option<Windows> {
    var forecast := HoursAfter(rain, now, FORECAST_HOURS);
    var twoDays := PreviousHours(rain, now + 1, 48);
    var week := PreviousHours(rain, now + 1, HISTORICAL_DAYS * 24);
    if forecast.None? || twoDays.None? || week.None? then None
    else Some(Windows(forecast.value, twoDays.value, week.value))
  }

  /** Everything but the hourly rain. */
  function OtherScore(currentPrecipitation: real, soil: real, h: Hydrology, code: int): real {
    currentPrecipitation * 10.0 + soil + LowLyingScore(h.depression) + RiverScore(h.river) + Severity(code)
  }

  function Soil(w: Weather): real {
    SoilScore(w.soilMoisture, Latest(w.soilMoisture, CurrentHour(w) + 1))
  }

  function Total(rain: Option<Windows>, others: real): Option<int> {
    if rain.None? then None else Some(Clamped(RainScore(rain.value) + others))
  }

  function Score(w: Weather, h: Hydrology): Option<int> {
    Total(WindowsAt(w.precipitation, CurrentHour(w)), OtherScore(w.currentPrecipitation, Soil(w), h, w.weatherCode))
  }

  method ForecastScore(values: seq<real>) returns (score: real)
    ensures score == Sum(values) * 5.0
  {
    score := 0.0;
    for i := 0 to |values|
      invariant score == Sum(values[..i]) * 5.0
    {
      assert values[..i + 1][..i] == values[..i];
      score := score + values[i] * 5.0;
    }
    assert values[..|values|] == values;
  }

  method RainRiskScore(rain: seq<real>, now: int) returns (score: Option<real>)
    ensures score == match WindowsAt(rain, now) case None => None case Some(r) => Some(RainScore(r))
  {
    var ahead := HoursAfter(rain, now, FORECAST_HOURS);
    var antecedent48h := SumPreviousHours(rain, now + 1, 48);
    var antecedent7d := SumPreviousHours(rain, now + 1, HISTORICAL_DAYS * 24);
    if ahead.None? || antecedent48h.None? || antecedent7d.None? {
      return None;
    }
    var forecast := ForecastScore(ahead.value);
    return Some(forecast + Min(20.0, antecedent48h.value / 50.0 * 20.0) + Min(15.0, antecedent7d.value / 150.0 * 15.0));
  }

  method SoilMoistureRiskScore(values: seq<real>, end: int) returns (score: real)
    ensures score == SoilScore(values, Latest(values, end))
  {
    var i := LatestPositive(values, end);
    if i >= 0 {
      return Min(20.0, values[i] / 0.40 * 20.0);
    }
    return 0.0;
  }

  method CalculateRiskScore(w: Weather, h: Hydrology) returns (score: Option<int>)
    ensures score == Score(w, h)
  {
    var now := CurrentHourIndex(w);
    var rain := RainRiskScore(w.precipitation, now);
    if rain.None? {
      return None;
    }
    var soil := SoilMoistureRiskScore(w.soilMoisture, now + 1);
    assert now == CurrentHour(w) && soil == Soil(w);
    return Some(Clamped(rain.value + OtherScore(w.currentPrecipitation, soil, h, w.weatherCode)));
  }

  // ---------------------------------------------------------------- when scoring is safe

  /** Scoring slices out of range exactly when the current hour lies more than 47 hours past the rain series. */
  lemma PanicsIff(w: Weather, h: Hydrology)
    ensures Score(w, h).None? <==> CurrentHour(w) - 47 > |w.precipitation|
  {
  }

  datatype Problem =
    | WrongPlace | BadOffset | NoTime | NotRecent | BadCode | BadLength | UnequalLengths
    | BadTime(i: nat) | BadPrecipitation(i: nat) | BadRain(i: nat) | BadSoil(i: nat)
  {
    predicate OfAnHour() { BadTime? || BadPrecipitation? || BadRain? || BadSoil? }
  }

  predicate InRange(v: real, high: real) {
    0.0 <= v <= high
  }

  /** The first thing wrong with hour i, if any. */
  function HourProblem(w: Weather, parses: string -> bool, i: nat): Option<Problem>
    requires i < |w.time| == |w.precipitation| == |w.rain| == |w.soilMoisture|
  {
    if !parses(w.time[i]) then Some(BadTime(i))
    else if !InRange(w.precipitation[i], MAX_HOURLY_MM) then Some(BadPrecipitation(i))
    else if !InRange(w.rain[i], MAX_HOURLY_MM) then Some(BadRain(i))
    else if !InRange(w.soilMoisture[i], 1.0) then Some(BadSoil(i))
    else None
  }

  /** What weather from a client must be like; age is how old the observation is, None when its time does not parse. */
  ghost predicate Plausible(w: Weather, lat: real, lon: real, age: Option<real>, parses: string -> bool) {
    && InRange(w.latitude - lat + 0.5, 1.0) && InRange(w.longitude - lon + 0.5, 1.0)
    && -50400 <= w.utcOffset <= 50400
    && age.Some? && -3600.0 <= age.value <= 21600.0
    && 0 <= w.weatherCode <= 99
    && 1 <= |w.time| <= MAX_HOURS
    && |w.time| == |w.precipitation| == |w.rain| == |w.soilMoisture|
    && forall i :: 0 <= i < |w.time| ==> HourProblem(w, parses, i).None?
  }

  /** The weather has this problem. */
  ghost predicate Has(w: Weather, lat: real, lon: real, age: Option<real>, parses: string -> bool, p: Problem) {
    var n := |w.time|;
    && (p.WrongPlace? ==> !InRange(w.latitude - lat + 0.5, 1.0) || !InRange(w.longitude - lon + 0.5, 1.0))
    && (p.BadOffset? ==> w.utcOffset < -14 * 3600 || w.utcOffset > 14 * 3600)
    && (p.NoTime? ==> age.None?)
    && (p.NotRecent? ==> age.Some? && (age.value < -3600.0 || age.value > 6.0 * 3600.0))
    && (p.BadCode? ==> w.weatherCode < 0 || w.weatherCode > 99)
    && (p.BadLength? ==> n < 1 || n > 240)
    && (p.UnequalLengths? ==> !(n == |w.precipitation| == |w.rain| == |w.soilMoisture|))
    && (p.BadTime? ==> p.i < n && !parses(w.time[p.i]))
    && (p.BadPrecipitation? ==> p.i < |w.precipitation| && !InRange(w.precipitation[p.i], 500.0))
    && (p.BadRain? ==> p.i < |w.rain| && !InRange(w.rain[p.i], 500.0))
    && (p.BadSoil? ==> p.i < |w.soilMoisture| && !InRange(w.soilMoisture[p.i], 1.0))
  }

  method ValidateClientWeather(w: Weather, lat: real, lon: real, age: Option<real>, parses: string -> bool)
      returns (problem: Option<Problem>)
    ensures problem.None? <==> Plausible(w, lat, lon, age, parses)
    ensures problem.Some? ==> Has(w, lat, lon, age, parses, problem.value)
    ensures problem.Some? && problem.value.OfAnHour() ==>
              && |w.time| == |w.precipitation| == |w.rain| == |w.soilMoisture|
              && var i := problem.value.i;
                 && i < |w.time| && problem == HourProblem(w, parses, i)
                 && forall j :: 0 <= j < i ==> HourProblem(w, parses, j).None?
  {
    if w.latitude - lat > 0.5 || lat - w.latitude > 0.5 || w.longitude - lon > 0.5 || lon - w.longitude > 0.5 {
      return Some(WrongPlace);
    }
    if w.utcOffset > 50400 || w.utcOffset < -50400 {
      return Some(BadOffset);
    }
    if age.None? {
      return Some(NoTime);
    }
    if age.value > 21600.0 || age.value < -3600.0 {
      return Some(NotRecent);
    }
    if w.weatherCode < 0 || w.weatherCode > 99 {
      return Some(BadCode);
    }
    var n := |w.time|;
    if n == 0 || n > MAX_HOURS {
      return Some(BadLength);
    }
    if |w.precipitation| != n || |w.rain| != n || |w.soilMoisture| != n {
      return Some(UnequalLengths);
    }
    for i := 0 to n
      invariant forall j :: 0 <= j < i ==> HourProblem(w, parses, j).None?
    {
      problem := HourProblem(w, parses, i);
      if problem.Some? {
        return;
      }
    }
    return None;
  }

  /** Weather the validator accepts is always scored, between 0 and 100, whatever the ground and river inputs. */
  lemma PlausibleWeatherIsScored(w: Weather, h: Hydrology, lat: real, lon: real, age: Option<real>,
      parses: string -> bool)
    requires Plausible(w, lat, lon, age, parses)
    ensures Score(w, h).Some? && 0 <= Score(w, h).value <= 100
  {
    PanicsIff(w, h);
  }

  // ---------------------------------------------------------------- more rain never lowers the score

  ghost predicate AtMost(a: seq<real>, b: seq<real>) {
    |a| == |b| && forall i :: 0 <= i < |a| ==> a[i] <= b[i]
  }

  lemma {:induction false} SumMono(a: seq<real>, b: seq<real>)
    requires AtMost(a, b)
    ensures Sum(a) <= Sum(b)
  {
    if a != [] {
      SumMono(a[..|a| - 1], b[..|b| - 1]);
    }
  }

  /** Raising the rain of any hours, the rest unchanged, never lowers the score. */
  lemma MoreRainScoresNoLower(w: Weather, h: Hydrology, rainier: seq<real>)
    requires AtMost(w.precipitation, rainier) && Score(w, h).Some?
    ensures Score(w.(precipitation := rainier), h).Some?
    ensures Score(w, h).value <= Score(w.(precipitation := rainier), h).value
  {
    var now, w' := CurrentHour(w), w.(precipitation := rainier);
    assert CurrentHour(w') == now && Soil(w') == Soil(w);
    WindowsMono(w.precipitation, rainier, now);
    var others := OtherScore(w.currentPrecipitation, Soil(w), h, w.weatherCode);
    ClampedMono(RainScore(WindowsAt(w.precipitation, now).value) + others,
        RainScore(WindowsAt(rainier, now).value) + others);
  }

  lemma WindowsMono(p: seq<real>, q: seq<real>, now: int)
    requires AtMost(p, q) && WindowsAt(p, now).Some?
    ensures WindowsAt(q, now).Some? && RainScore(WindowsAt(p, now).value) <= RainScore(WindowsAt(q, now).value)
  {
    SliceAtMost(p, q, MinInt(now + 1, |p|), MinInt(MinInt(now + 1, |p|) + FORECAST_HOURS, |p|));
    SliceAtMost(p, q, MaxInt(now + 1 - 48, 0), MinInt(now + 1, |p|));
    SliceAtMost(p, q, MaxInt(now + 1 - HISTORICAL_DAYS * 24, 0), MinInt(now + 1, |p|));
    RainScoreMono(WindowsAt(p, now).value, WindowsAt(q, now).value);
  }

  lemma SliceAtMost(p: seq<real>, q: seq<real>, from: int, to: int)
    requires AtMost(p, q)
    ensures Slice(p, from, to).Some? ==>
              Slice(q, from, to).Some? && AtMost(Slice(p, from, to).value, Slice(q, from, to).value)
  {
  }

  lemma RainScoreMono(a: Windows, b: Windows)
    requires AtMost(a.forecast, b.forecast) && AtMost(a.twoDays, b.twoDays) && AtMost(a.week, b.week)
    ensures RainScore(a) <= RainScore(b)
  {
    SumMono(a.forecast, b.forecast);
    SumMono(a.twoDays, b.twoDays);
    SumMono(a.week, b.week);
  }

  lemma ClampedMono(a: real, b: real)
    requires a <= b
    ensures Clamped(a) <= Clamped(b)
  {
  }

  // ---------------------------------------------------------------- ground and river

  /**
   * River points start when the peak passes one and a half baselines and are all given from four, with low flows
   * ignored.
   */
  lemma RiverScoreFollowsThePeak(r: River)
    ensures var base := Max(r.baseline, 10.0);
            && (RiverScore(Some(r)) == 0.0 <==> r.peak < 10.0 || r.peak <= 1.5 * base)
            && (RiverScore(Some(r)) == 20.0 <==> r.peak >= 4.0 * base)
  {
    var base := Max(r.baseline, 10.0);
    RatioOf(r.peak, base, 1.5);
    RatioOf(r.peak, base, 4.0);
  }

  /** Points for low ground start below the surroundings and are all given from fifteen metres. */
  lemma LowLyingScoreFollowsTheDepth(depression: real)
    ensures LowLyingScore(Some(depression)) == 0.0 <==> depression <= 0.0
    ensures LowLyingScore(Some(depression)) == 10.0 <==> depression >= 15.0
  {
  }

  /** The ground lies no higher, and the river has no smaller peak and no larger baseline. */
  ghost predicate AtLeastAsWet(a: Hydrology, b: Hydrology) {
    && (a.depression.Some? ==> b.depression.Some? && a.depression.value <= b.depression.value)
    && (a.river.Some? ==>
        b.river.Some? && a.river.value.peak <= b.river.value.peak && b.river.value.baseline <= a.river.value.baseline)
  }

  lemma RatioMono(peak: real, base: real, peak': real, base': real)
    requires 0.0 <= peak <= peak' && 0.0 < base' <= base
    ensures peak / base <= peak' / base'
  {
    var (r, r') := (peak / base, peak' / base');
    assert r * base == peak && r' * base' == peak';
    RatioOf(peak, base, 0.0);
    MulMono(base', base, r);
    if r' < r {
      StrictMul(r', r, base');
    }
  }

  lemma RiverScoreMono(a: River, b: River)
    requires a.peak <= b.peak && b.baseline <= a.baseline
    ensures RiverScore(Some(a)) <= RiverScore(Some(b))
  {
    if a.peak >= 10.0 {
      RatioMono(a.peak, Max(a.baseline, 10.0), b.peak, Max(b.baseline, 10.0));
    }
  }

  /**
   * More rain now, lower ground, a higher peak, a lower baseline or a graver weather code never lower the score either.
   */
  lemma WetterPlacesScoreNoLower(w: Weather, h: Hydrology, rain: real, code: int, h': Hydrology)
    requires Score(w, h).Some? && w.currentPrecipitation <= rain && w.weatherCode <= code && AtLeastAsWet(h, h')
    ensures var w' := w.(currentPrecipitation := rain, weatherCode := code);
            Score(w', h').Some? && Score(w, h).value <= Score(w', h').value
  {
    var w' := w.(currentPrecipitation := rain, weatherCode := code);
    assert CurrentHour(w') == CurrentHour(w) && Soil(w') == Soil(w);
    OtherScoreMono(w.currentPrecipitation, rain, Soil(w), h, h', w.weatherCode, code);
    var past := RainScore(WindowsAt(w.precipitation, CurrentHour(w)).value);
    ClampedMono(past + OtherScore(w.currentPrecipitation, Soil(w), h, w.weatherCode),
        past + OtherScore(rain, Soil(w), h', code));
  }

  lemma OtherScoreMono(rain: real, rain': real, soil: real, h: Hydrology, h': Hydrology, code: int, code': int)
    requires rain <= rain' && AtLeastAsWet(h, h') && code <= code'
    ensures OtherScore(rain, soil, h, code) <= OtherScore(rain', soil, h', code')
  {
    if h.river.Some? {
      RiverScoreMono(h.river.value, h'.river.value);
    }
    assert LowLyingScore(h.depression) <= LowLyingScore(h'.depression);
  }

  /** Hourly rain counts only from 167 hours before the current hour to 6 hours after it. */
  lemma OnlyNearbyHoursCount(w: Weather, h: Hydrology, other: seq<real>)
    requires |other| == |w.precipitation|
    requires forall i :: 0 <= i < |other| && CurrentHour(w) - 167 <= i <= CurrentHour(w) + 6 ==>
               other[i] == w.precipitation[i]
    ensures Score(w.(precipitation := other), h) == Score(w, h)
  {
    assert CurrentHour(w.(precipitation := other)) == CurrentHour(w);
    SameWindows(w.precipitation, other, CurrentHour(w));
  }

  lemma SameWindows(p: seq<real>, other: seq<real>, now: int)
    requires |other| == |p| && forall i :: 0 <= i < |p| && now - 167 <= i <= now + 6 ==> other[i] == p[i]
    ensures WindowsAt(other, now) == WindowsAt(p, now)
  {
    SameSlice(p, other, MinInt(now + 1, |p|), MinInt(MinInt(now + 1, |p|) + FORECAST_HOURS, |p|));
    SameSlice(p, other, MaxInt(now + 1 - 48, 0), MinInt(now + 1, |p|));
    SameSlice(p, other, MaxInt(now + 1 - HISTORICAL_DAYS * 24, 0), MinInt(now + 1, |p|));
  }

  lemma SameSlice(a: seq<real>, b: seq<real>, from: int, to: int)
    requires |a| == |b| && forall i :: 0 <= i < |a| && from <= i < to ==> a[i] == b[i]
    ensures Slice(a, from, to) == Slice(b, from, to)
  {
    if 0 <= from <= to <= |a| {
      assert a[from..to] == b[from..to];
    }
  }
}
