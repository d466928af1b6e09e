/** The dashboard's synthetic data: one random current reading, and an
    hourly history whose base values follow the hour of the day. Every
    `Math.random()` call is a caller-supplied draw in [0, 1); the clock, the
    local hour of a timestamp, the time formatter and the sine are
    parameters. */
module WeatherGenerator {
  import opened WeatherTypes

  const HourMillis: int := 60 * 60 * 1000

  /** The six random draws one reading consumes, in the order `data.ts`
      makes them. */
  datatype Draws = Draws(
    temperature: real,
    humidity: real,
    pressure: real,
    windSpeed: real,
    rainProbability: real,
    uvIndex: real)

  /** The range of `Math.random()`. */
  predicate Unit(x: real) { 0.0 <= x < 1.0 }

  predicate ValidDraws(d: Draws) {
    Unit(d.temperature) && Unit(d.humidity) && Unit(d.pressure) &&
    Unit(d.windSpeed) && Unit(d.rainProbability) && Unit(d.uvIndex)
  }

  /** `Math.floor` of an exact real. */
  function Floor(x: real): (r: int)
    ensures r as real <= x < r as real + 1.0
  {
    x.Floor
  }

  /** A random current reading: every metric inside its documented range, and
      a whole-number UV index from 0 to 10. */
  function GenerateWeatherData(d: Draws, now: int): (w: WeatherData)
    requires ValidDraws(d)
    ensures 15.0 <= w.temperature < 30.0
    ensures 40.0 <= w.humidity < 80.0
    ensures 1000.0 <= w.pressure < 1020.0
    ensures 0.0 <= w.windSpeed < 20.0
    ensures 0.0 <= w.rainProbability < 100.0
    ensures 0.0 <= w.uvIndex <= 10.0 && w.uvIndex == Floor(w.uvIndex) as real
    ensures w.timestamp == now
  {
    WeatherData(
      d.temperature * 15.0 + 15.0,
      d.humidity * 40.0 + 40.0,
      d.pressure * 20.0 + 1000.0,
      d.windSpeed * 20.0,
      d.rainProbability * 100.0,
      Floor(d.uvIndex * 11.0) as real,
      now)
  }

  /** Base temperature for an hour of the day, by the if-chain of `data.ts`.
      Read both ways: 27 exactly for hours 10–14, 23 exactly for 6–9, 25
      exactly for 15–18 and 18 exactly for every other hour; the variable's
      initial 20 is always overwritten. */
  function BaseTemp(hour: int): (t: int)
    ensures t == 27 <==> 10 <= hour <= 14
    ensures t == 23 <==> 6 <= hour <= 9
    ensures t == 25 <==> 15 <= hour <= 18
    ensures t == 18 <==> hour < 6 || hour > 18
    ensures t != 20
  {
    if hour >= 10 && hour <= 14 then 27
    else if hour >= 6 && hour < 10 then 23
    else if hour >= 15 && hour <= 18 then 25
    else 18
  }

  /** Centre of the humidity noise: two points of humidity fewer per degree
      of base temperature above 18, so one of 80, 70, 66 or 62, and lower
      whenever the base temperature is higher. */
  function HumidityCentre(hour: int): (c: int)
    ensures c in {80, 70, 66, 62}
    ensures c == 80 <==> BaseTemp(hour) == 18
  {
    80 - (BaseTemp(hour) - 18) * 2
  }

  lemma HumidityFallsAsTemperatureRises(h1: int, h2: int)
    requires BaseTemp(h1) < BaseTemp(h2)
    ensures HumidityCentre(h1) > HumidityCentre(h2)
  {
  }

  /** Base UV index for an hour of the day, by the nested conditional
      of `data.ts`. Read both ways: 8 exactly for hours 10–15, 5 exactly for
      7–9 and 16–18, 0 for every other hour. */
  function UvBase(hour: int): (b: int)
    ensures b == 8 <==> 10 <= hour <= 15
    ensures b == 5 <==> 7 <= hour <= 9 || 16 <= hour <= 18
    ensures b == 0 <==> hour < 7 || hour > 18
  {
    if hour >= 10 && hour <= 15 then 8
    else if hour >= 7 && hour <= 18 then 5
    else 0
  }

  /** `Math.max(lo, Math.min(hi, x))`. */
  function Clamp(lo: int, hi: int, x: int): (r: int)
    requires lo <= hi
    ensures lo <= r <= hi
    ensures lo <= x <= hi ==> r == x
    ensures x < lo ==> r == lo
    ensures x > hi ==> r == hi
  {
    if x > hi then hi else if x < lo then lo else x
  }

  /** The hourly UV value: the floor of the base plus noise in [-1, 1),
      clamped to 0..10. */
  function UvValue(hour: int, u: real): (r: int)
    ensures 0 <= r <= 10
  {
    Clamp(0, 10, Floor(UvBase(hour) as real + u * 2.0 - 1.0))
  }

  /** With a draw in [0, 1) the noise moves the UV value at most one step
      below its base and never above it, and the clamp only acts on the
      night-time base of 0, where it turns -1 into 0. */
  lemma UvValueNearBase(hour: int, u: real)
    requires Unit(u)
    ensures UvBase(hour) == 0 ==> UvValue(hour, u) == 0
    ensures UvBase(hour) > 0 ==>
      UvValue(hour, u) == UvBase(hour) || UvValue(hour, u) == UvBase(hour) - 1
    ensures UvValue(hour, u) == Floor(UvBase(hour) as real + u * 2.0 - 1.0) || UvBase(hour) == 0
  {
  }

  /** The six points one iteration of the history loop pushes, for the
      timestamp `i` hours before `now`. */
  datatype HourSample = HourSample(
    temperature: WeatherDataPoint,
    humidity: WeatherDataPoint,
    pressure: WeatherDataPoint,
    windSpeed: WeatherDataPoint,
    rainProbability: WeatherDataPoint,
    uvIndex: WeatherDataPoint)

  /** Timestamp of the iteration `i` hours before `now`: never in the future
      for a non-negative `i`, and equal to `now` only for the last iteration. */
  function HoursBefore(now: int, i: int): (ts: int)
    ensures i >= 0 ==> ts <= now
    ensures ts == now <==> i == 0
  {
    now - i * HourMillis
  }

  /** The six points one iteration of the history loop pushes. All six carry
      the same time string, the one for `i` hours before `now`; the UV point
      is a whole number in 0..10 and, with valid draws, the temperature lies
      within 1.5 degrees of the hour's base and the humidity within 5 points
      of its centre. */
  function Sample(i: int, now: int, hourOf: int -> int, fmt: int -> string,
                  sine: real -> real, d: Draws): (s: HourSample)
    ensures var t := fmt(HoursBefore(now, i));
      s.temperature.time == t && s.humidity.time == t && s.pressure.time == t &&
      s.windSpeed.time == t && s.rainProbability.time == t && s.uvIndex.time == t
    ensures 0.0 <= s.uvIndex.value <= 10.0 && s.uvIndex.value == Floor(s.uvIndex.value) as real
    ensures ValidDraws(d) ==>
      var hour := hourOf(HoursBefore(now, i));
      BaseTemp(hour) as real - 1.5 <= s.temperature.value < BaseTemp(hour) as real + 1.5 &&
      HumidityCentre(hour) as real - 5.0 <= s.humidity.value < HumidityCentre(hour) as real + 5.0
  {
    var ts := HoursBefore(now, i);
    var time := fmt(ts);
    var hour := hourOf(ts);
    var base := BaseTemp(hour);
    HourSample(
      WeatherDataPoint(base as real + d.temperature * 3.0 - 1.5, time),
      WeatherDataPoint(HumidityCentre(hour) as real + d.humidity * 10.0 - 5.0, time),
      WeatherDataPoint(1010.0 + sine(i as real / 3.0) * 5.0 + d.pressure * 2.0 - 1.0, time),
      WeatherDataPoint(5.0 + d.windSpeed * 10.0, time),
      WeatherDataPoint(d.rainProbability * 70.0, time),
      WeatherDataPoint(UvValue(hour, d.uvIndex) as real, time))
  }

  /** Index k of every series belongs to the iteration `hours - k` hours
      before `now`, so the timestamps behind the series rise by one hour
      per index. */
  lemma Chronological(now: int, hours: int, k1: int, k2: int)
    requires k1 < k2
    ensures HoursBefore(now, hours - k1) < HoursBefore(now, hours - k2)
    ensures HoursBefore(now, hours - k2) - HoursBefore(now, hours - k1) == (k2 - k1) * HourMillis
  {
  }

  /** generateHistoricalData: one sample per hour from `hours` hours ago up
      to now, pushed onto six parallel series. Draw k is consumed by the
      k-th iteration. */
  method GenerateHistoricalData(hours: int, now: int, hourOf: int -> int, fmt: int -> string,
                                sine: real -> real, draws: seq<Draws>)
    returns (data: WeatherHistoryData)
    requires hours < |draws|
    ensures hours < 0 ==> data == NoHistory
    ensures hours >= 0 ==>
      |data.temperature| == |data.humidity| == |data.pressure| == hours + 1 &&
      |data.windSpeed| == |data.rainProbability| == |data.uvIndex| == hours + 1
    ensures forall k :: 0 <= k <= hours ==>
      var s := Sample(hours - k, now, hourOf, fmt, sine, draws[k]);
      data.temperature[k] == s.temperature && data.humidity[k] == s.humidity &&
      data.pressure[k] == s.pressure && data.windSpeed[k] == s.windSpeed &&
      data.rainProbability[k] == s.rainProbability && data.uvIndex[k] == s.uvIndex
  {
    data := NoHistory;
    var i := hours;
    while i >= 0
      invariant hours >= 0 ==> -1 <= i <= hours
      invariant hours < 0 ==> i == hours
      invariant var n := hours - i;
        hours < 0 || (
        |data.temperature| == n && |data.humidity| == n && |data.pressure| == n &&
        |data.windSpeed| == n && |data.rainProbability| == n && |data.uvIndex| == n &&
        forall k :: 0 <= k < n ==>
          var s := Sample(hours - k, now, hourOf, fmt, sine, draws[k]);
          data.temperature[k] == s.temperature && data.humidity[k] == s.humidity &&
          data.pressure[k] == s.pressure && data.windSpeed[k] == s.windSpeed &&
          data.rainProbability[k] == s.rainProbability && data.uvIndex[k] == s.uvIndex)
      invariant hours < 0 ==> data == NoHistory
      decreases i + 1
    {
      var s := Sample(i, now, hourOf, fmt, sine, draws[hours - i]);
      data := data.(
        temperature := data.temperature + [s.temperature],
        humidity := data.humidity + [s.humidity],
        pressure := data.pressure + [s.pressure],
        windSpeed := data.windSpeed + [s.windSpeed],
        rainProbability := data.rainProbability + [s.rainProbability],
        uvIndex := data.uvIndex + [s.uvIndex]);
      i := i - 1;
    }
  }
}
