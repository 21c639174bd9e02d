/**
 * The weather card: an icon per weather code, the farm advice of the day, an hourly strip of
 * today's hours with 12-hour labels and a rain badge, and a three-day forecast. Rounding for
 * display and the local-time conversion of the hourly timestamps are outside the model (the hour
 * of each timestamp is a parameter).
 */
module WeatherWidget {
  import opened Wrappers
  import opened Text
  import opened Seqs

  /** The icons of the card; `HeavyRain` is the darker rain icon for codes above 77. */
  datatype Icon = Sun | Cloud | Rain | Snow | HeavyRain

  /** `getWeatherIcon`: the first threshold the code does not exceed decides. */
  function IconFor(code: real): Icon {
    if code <= 1.0 then Sun
    else if code <= 3.0 then Cloud
    else if code <= 67.0 then Rain
    else if code <= 77.0 then Snow
    else HeavyRain
  }

  /** The position of an icon's bucket along the code axis. */
  function Rank(icon: Icon): nat {
    match icon
    case Sun => 0
    case Cloud => 1
    case Rain => 2
    case Snow => 3
    case HeavyRain => 4
  }

  /**
   * The buckets partition the code axis in order: each icon is given exactly to the codes between
   * its threshold and the one before, so a larger code never gets an earlier bucket.
   */
  lemma IconBuckets(code: real, other: real)
    ensures IconFor(code) == Sun <==> code <= 1.0
    ensures IconFor(code) == Cloud <==> 1.0 < code <= 3.0
    ensures IconFor(code) == Rain <==> 3.0 < code <= 67.0
    ensures IconFor(code) == Snow <==> 67.0 < code <= 77.0
    ensures IconFor(code) == HeavyRain <==> 77.0 < code
    ensures code <= other ==> Rank(IconFor(code)) <= Rank(IconFor(other))
  {
  }

  const FreezeWarning: string := "Freeze Warning: Protect pipes."
  const HeavyRainWarning: string := "Heavy Rain: Check pumps."
  const NormalConditions: string := "Normal conditions."

  /** `getAgAdvice(tempMin, precip)` */
  function Advice(tempMin: real, precip: real): string {
    if tempMin < 32.0 then FreezeWarning
    else if precip > 0.5 then HeavyRainWarning
    else NormalConditions
  }

  /**
   * A frost forecast wins over any rain; rain advice needs strictly more than half an inch; both
   * thresholds are strict, so 32 degrees and exactly 0.5 read as normal.
   */
  lemma AdvicePrecedence(tempMin: real, precip: real)
    ensures tempMin < 32.0 ==> Advice(tempMin, precip) == FreezeWarning
    ensures Advice(tempMin, precip) == HeavyRainWarning <==> tempMin >= 32.0 && precip > 0.5
    ensures Advice(tempMin, precip) == NormalConditions <==> tempMin >= 32.0 && precip <= 0.5
    ensures Advice(32.0, 0.5) == NormalConditions
  {
  }

  /** An hour of the local clock. */
  type Hour = h: int | 0 <= h < 24

  /** A 12-hour clock label: the numeral and whether it is afternoon. */
  datatype HourLabel = HourLabel(numeral: nat, pm: bool)

  /** `displayTime`: midnight is 12am, noon 12pm, afternoon hours count from 1pm. */
  function TwelveHour(hour: Hour): (l: HourLabel)
    ensures 1 <= l.numeral <= 12
    ensures l.pm <==> hour >= 12
  {
    if hour == 0 then HourLabel(12, false)
    else if hour > 12 then HourLabel(hour - 12, true)
    else if hour == 12 then HourLabel(12, true)
    else HourLabel(hour, false)
  }

  /** The label as shown, "7am" or "12pm". */
  function HourText(l: HourLabel): string {
    NatToDecimal(l.numeral) + (if l.pm then "pm" else "am")
  }

  /** Distinct hours of the day get distinct labels, and the label gives the hour back. */
  lemma TwelveHourInjective(h1: Hour, h2: Hour)
    ensures TwelveHour(h1) == TwelveHour(h2) ==> h1 == h2
    ensures var l := TwelveHour(h1); h1 == (if l.pm then (if l.numeral == 12 then 12 else l.numeral + 12)
                                            else (if l.numeral == 12 then 0 else l.numeral))
  {
  }

  /** `hourlyIndices`: each hourly slot's index if its time starts with today's date, else -1, then the -1s dropped. */
  function HourlyIndices(times: seq<string>, today: string): seq<int> {
    Filter(seq(|times|, i requires 0 <= i < |times| => if StartsWith(times[i], today) then i else -1),
           (i: int) => i != -1)
  }

  predicate StrictlyIncreasing(s: seq<int>) {
    forall i, j | 0 <= i < j < |s| :: s[i] < s[j]
  }

  /** Filtering keeps the kept elements in their order, so kept elements in increasing order stay so. */
  lemma {:induction false} FilterKeepsIncreasing(s: seq<int>, p: int -> bool)
    requires forall i, j | 0 <= i < j < |s| && p(s[i]) && p(s[j]) :: s[i] < s[j]
    ensures StrictlyIncreasing(Filter(s, p))
  {
    if s != [] {
      FilterKeepsIncreasing(s[1..], p);
      var rest := Filter(s[1..], p);
      if p(s[0]) {
        forall x | x in rest ensures s[0] < x {
          var k :| 0 <= k < |s[1..]| && s[1..][k] == x;
          assert s[k + 1] == x;
        }
        var r := Filter(s, p);
        assert r == [s[0]] + rest;
        forall i, j | 0 <= i < j < |r| ensures r[i] < r[j] {
          assert r[j] == rest[j - 1] && r[j] in rest;
          if i > 0 {
            assert r[i] == rest[i - 1];
          }
        }
      } else {
        assert Filter(s, p) == rest;
      }
    }
  }

  /**
   * Today's hourly slots are exactly the indices whose time starts with today's date, in
   * ascending order and without repeats.
   */
  lemma HourlyIndicesExact(times: seq<string>, today: string)
    ensures var r := HourlyIndices(times, today);
            && StrictlyIncreasing(r)
            && forall i :: i in r <==> 0 <= i < |times| && StartsWith(times[i], today)
  {
    var marked := seq(|times|, i requires 0 <= i < |times| => if StartsWith(times[i], today) then i else -1);
    var p := (i: int) => i != -1;
    FilterKeepsIncreasing(marked, p);
    forall i | 0 <= i < |times| && StartsWith(times[i], today) ensures i in HourlyIndices(times, today) {
      assert marked[i] == i;
    }
  }

  /** The hourly series of the forecast reply, one entry per slot. */
  datatype Hourly = Hourly(time: seq<string>, temperature: seq<real>, rainProbability: seq<real>, weatherCode: seq<real>)

  /** The daily series, today first. */
  datatype Daily = Daily(time: seq<string>, tempMax: seq<real>, tempMin: seq<real>, precipitation: seq<real>,
                         weatherCode: seq<real>)

  /** The hourly series are parallel: one temperature, rain chance and code per slot. */
  predicate HourlyParallel(hourly: Hourly) {
    && |hourly.temperature| == |hourly.time| && |hourly.rainProbability| == |hourly.time|
    && |hourly.weatherCode| == |hourly.time|
  }

  /** The rain badge, shown only above a 20% chance. */
  function RainBadge(probability: real): Option<real> {
    if probability > 20.0 then Some(probability) else None
  }

  /** One slot of the hourly strip. */
  datatype HourCard = HourCard(index: nat, time: HourLabel, icon: Icon, temperature: real, badge: Option<real>)

  /** `renderHourly`, the local hour of each timestamp given by `hourOf`. */
  function HourlyStrip(hourly: Hourly, daily: Daily, hourOf: string -> Hour): seq<HourCard>
    requires HourlyParallel(hourly) && |daily.time| >= 1
  {
    var indices := HourlyIndices(hourly.time, daily.time[0]);
    assert forall k | 0 <= k < |indices| :: 0 <= indices[k] < |hourly.time| by {
      HourlyIndicesExact(hourly.time, daily.time[0]);
      forall k | 0 <= k < |indices| ensures 0 <= indices[k] < |hourly.time| {
        assert indices[k] in indices;
      }
    }
    seq(|indices|, k requires 0 <= k < |indices| =>
      var i := indices[k];
      HourCard(i, TwelveHour(hourOf(hourly.time[i])), IconFor(hourly.weatherCode[i]), hourly.temperature[i],
               RainBadge(hourly.rainProbability[i])))
  }

  /**
   * The strip shows today's slots in time order, each with its own code's icon, and a rain badge
   * exactly when the chance of rain is above 20%.
   */
  lemma HourlyStripShowsToday(hourly: Hourly, daily: Daily, hourOf: string -> Hour)
    requires HourlyParallel(hourly) && |daily.time| >= 1
    ensures var strip := HourlyStrip(hourly, daily, hourOf);
            && (forall k | 0 <= k < |strip| :: strip[k].index < |hourly.time|
                  && StartsWith(hourly.time[strip[k].index], daily.time[0])
                  && strip[k].icon == IconFor(hourly.weatherCode[strip[k].index])
                  && (strip[k].badge.Some? <==> hourly.rainProbability[strip[k].index] > 20.0))
            && (forall k, m | 0 <= k < m < |strip| :: strip[k].index < strip[m].index)
            && (forall i | 0 <= i < |hourly.time| && StartsWith(hourly.time[i], daily.time[0]) ::
                  exists k | 0 <= k < |strip| :: strip[k].index == i)
  {
    var indices := HourlyIndices(hourly.time, daily.time[0]);
    HourlyIndicesExact(hourly.time, daily.time[0]);
    var strip := HourlyStrip(hourly, daily, hourOf);
    forall i | 0 <= i < |hourly.time| && StartsWith(hourly.time[i], daily.time[0])
      ensures exists k | 0 <= k < |strip| :: strip[k].index == i
    {
      var k :| 0 <= k < |indices| && indices[k] == i;
      assert strip[k].index == i;
    }
  }

  /** The days the mini forecast shows: the three after today. */
  const ForecastIndices: seq<nat> := [1, 2, 3]

  /** One day of the mini forecast. */
  datatype DayCard = DayCard(date: string, icon: Icon, max: real, min: real)

  /** `renderDailyForecast` */
  function Forecast(daily: Daily): (cards: seq<DayCard>)
    requires |daily.time| >= 4 && |daily.tempMax| >= 4 && |daily.tempMin| >= 4 && |daily.weatherCode| >= 4
    ensures |cards| == 3
    ensures forall k | 0 <= k < 3 :: cards[k].date == daily.time[k + 1] && cards[k].icon == IconFor(daily.weatherCode[k + 1])
  {
    seq(|ForecastIndices|, k requires 0 <= k < |ForecastIndices| =>
      var i := ForecastIndices[k];
      DayCard(daily.time[i], IconFor(daily.weatherCode[i]), daily.tempMax[i], daily.tempMin[i]))
  }

  /** The card's header: the advice for today's low and precipitation, and today's high and low. */
  datatype Header = Header(advice: string, current: real, windspeed: real, todayMax: real, todayMin: real)

  function HeaderOf(currentTemperature: real, windspeed: real, daily: Daily): (h: Header)
    requires |daily.tempMax| >= 1 && |daily.tempMin| >= 1 && |daily.precipitation| >= 1
    ensures h.advice == FreezeWarning <==> h.todayMin < 32.0
  {
    Header(Advice(daily.tempMin[0], daily.precipitation[0]), currentTemperature, windspeed,
           daily.tempMax[0], daily.tempMin[0])
  }
}
