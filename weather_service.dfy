/** The `WeatherService` class of weather-service.ts. Its methods keep no
    state; each reads the four tables of mock-data.ts, passed here as a
    `Dataset`, and the clock and random source, passed as values. */
module WeatherService {
  import opened Wrappers
  import opened Text
  import opened Entries
  import opened Seqs
  import opened WeatherTypes
  import opened MockData

  // ---------------------------------------------------------------------
  // normalizeLocation

  /** `normalizeLocation(location)` against the alias table: the lower-cased,
      trimmed input is looked up among the aliases; a missing or empty alias
      falls back to the slug of that string. */
  function NormalizeLocation(aliases: Table<string>, location: string): (key: string)
    ensures var lowered := Trim(Lower(location));
      (key != "" && exists i :: 0 <= i < |aliases| && aliases[i] == (lowered, key))
      || (key == Slug(lowered) && forall i :: 0 <= i < |key| ==> IsSlugChar(key[i]))
    ensures Trim(Lower(location)) !in Keys(aliases) ==> key == Slug(Trim(Lower(location)))
  {
    var lowered := Trim(Lower(location));
    var mapped := Lookup(aliases, lowered);
    if mapped.Some? && mapped.value != "" then mapped.value
    else
      SlugOnlySlugChars(lowered);
      Slug(lowered)
  }

  /** An input whose lower-cased, trimmed form is the alias at index `i`
      normalises to that alias's target. */
  lemma NormalizeAlias(aliases: Table<string>, location: string, i: nat)
    requires DistinctKeys(aliases) && i < |aliases|
    requires aliases[i].0 == Trim(Lower(location)) && aliases[i].1 != ""
    ensures NormalizeLocation(aliases, location) == aliases[i].1
  {
    LookupAt(aliases, i);
  }

  /** Normalisation through an alias found by lookup. */
  lemma NormalizeThroughAlias(aliases: Table<string>, location: string, lowered: string, target: string)
    requires Trim(Lower(location)) == lowered
    requires Lookup(aliases, lowered) == Some(target) && target != ""
    ensures NormalizeLocation(aliases, location) == target
  {
  }

  /** Normalisation of a string that is not an alias key. */
  lemma NormalizeThroughSlug(aliases: Table<string>, location: string, lowered: string)
    requires Trim(Lower(location)) == lowered && lowered !in Keys(aliases)
    ensures NormalizeLocation(aliases, location) == Slug(lowered)
  {
  }

  /** Normalisation ignores letter case and surrounding whitespace. */
  lemma NormalizeIgnoresCaseAndSpaces(aliases: Table<string>, w1: string, s: string, w2: string)
    requires AllSpaces(w1) && AllSpaces(w2)
    ensures NormalizeLocation(aliases, w1 + Lower(s) + w2) == NormalizeLocation(aliases, s)
  {
    LowerConcat(w1 + Lower(s), w2);
    LowerConcat(w1, Lower(s));
    LowerKeepsSpaces(w1);
    LowerKeepsSpaces(w2);
    LowerIdempotent(s);
    assert Lower(w1 + Lower(s) + w2) == w1 + Lower(s) + w2;
    TrimIgnoresSurroundingSpaces(w1, Lower(s), w2);
  }

  /** A string that is already a slug and is not an alias key normalises to
      itself: normalisation is idempotent on the keys the fallback produces. */
  lemma NormalizeKeepsSlugs(aliases: Table<string>, s: string)
    requires forall i :: 0 <= i < |s| ==> IsSlugChar(s[i])
    requires s !in Keys(aliases)
    ensures NormalizeLocation(aliases, s) == s
  {
    assert IsLowerCase(s) by {
      forall i | 0 <= i < |s| ensures !('A' <= s[i] <= 'Z') {
        assert IsSlugChar(s[i]);
      }
    }
    LowerOfLowerCase(s);
    assert TrimStart(s) == s by {
      if s != [] { assert IsSlugChar(s[0]); }
    }
    assert TrimEnd(s) == s by {
      if s != [] { assert IsSlugChar(s[|s| - 1]); }
    }
    SlugOfSlugChars(s);
  }

  // ---------------------------------------------------------------------
  // getCurrentWeather

  /** `getCurrentWeather(location)` at the instant `now`, with `draw` the
      `Math.random()` value used when the location is unknown. A known key
      gives its record with only the timestamp replaced; an unknown one gives
      some record of the table, renamed to the caller's string. */
  function GetCurrentWeather(data: Dataset, location: string, now: string, draw: Unit): (w: WeatherData)
    requires data.weather != []
    ensures var key := NormalizeLocation(data.aliases, location);
      key in Keys(data.weather) ==>
        exists i :: 0 <= i < |data.weather| && data.weather[i].0 == key
          && w == data.weather[i].1.(timestamp := CallTime(now))
    ensures var key := NormalizeLocation(data.aliases, location);
      key !in Keys(data.weather) ==>
        w.location == location && w.timestamp == CallTime(now)
        && exists r :: r in Values(data.weather) && w == r.(location := location, timestamp := CallTime(now))
  {
    var key := NormalizeLocation(data.aliases, location);
    match Lookup(data.weather, key)
    case Some(record) => record.(timestamp := CallTime(now))
    case None =>
      GetRandomWeatherData(data.weather, draw).(location := location, timestamp := CallTime(now))
  }

  /** With distinct keys, a known location yields exactly its own record. */
  lemma CurrentWeatherKnown(data: Dataset, location: string, now: string, draw: Unit, i: nat)
    requires data.weather != [] && DistinctKeys(data.weather) && i < |data.weather|
    requires NormalizeLocation(data.aliases, location) == data.weather[i].0
    ensures GetCurrentWeather(data, location, now, draw) == data.weather[i].1.(timestamp := CallTime(now))
  {
    LookupAt(data.weather, i);
  }

  // ---------------------------------------------------------------------
  // getWeatherForecast

  /** The end index of `array.slice(0, end)` on an array of length `len`:
      NaN counts as 0, a negative end counts back from the length. */
  function SliceEnd(len: nat, end: Num): (k: nat)
    ensures k <= len
  {
    match end
    case NaN => 0
    case Finite(n) =>
      if n < 0 then (if len + n < 0 then 0 else len + n)
      else if n < len then n else len
  }

  /** `days.slice(0, end)`. */
  function SliceTo<T>(days: seq<T>, end: Num): (r: seq<T>)
    ensures r <= days
  {
    days[..SliceEnd(|days|, end)]
  }

  /** A non-negative count keeps the first `min(n, length)` days. */
  lemma SliceNonNegative<T>(days: seq<T>, n: int)
    requires n >= 0
    ensures |SliceTo(days, Finite(n))| == if n < |days| then n else |days|
    ensures SliceTo(days, Finite(n)) == days[..|SliceTo(days, Finite(n))|]
  {
  }

  /** A negative count drops that many days from the end. */
  lemma SliceNegative<T>(days: seq<T>, n: int)
    requires n < 0 && -n <= |days|
    ensures SliceTo(days, Finite(n)) + days[|days| + n..] == days
  {
  }

  /** The draws one iteration of the `generateMockForecast` loop makes:
      the rounded temperatures, the `Math.random()` value choosing the
      condition, and the chance of rain and humidity. */
  datatype DayDraw = DayDraw(highTemp: int, lowTemp: int, condition: Unit, chanceOfRain: int, humidity: int)

  const ForecastConditions: seq<string> :=
    ["Sunny", "Partly Cloudy", "Cloudy", "Rainy", "Thunderstorms", "Overcast", "Light Rain"]

  /** `descriptions[condition] || condition + " conditions expected"`, with
      the `descriptions` object written as a match on its seven keys. Every
      text is non-empty, so `||` only falls back for a condition that is not
      a key. */
  function DescribeCondition(condition: string): string {
    match condition
    case "Sunny" => "Clear skies with bright sunshine"
    case "Partly Cloudy" => "Mix of sun and clouds"
    case "Cloudy" => "Overcast skies with mild temperatures"
    case "Rainy" => "Rain showers expected"
    case "Thunderstorms" => "Thunderstorms with heavy rain"
    case "Overcast" => "Cloudy skies throughout the day"
    case "Light Rain" => "Light rain showers"
    case _ => condition + " conditions expected"
  }

  /** Entry `i` (counting from 1) of a generated forecast. */
  function MockDay(i: nat, d: DayDraw): (f: DailyForecast)
    ensures f.date == CallDayPlus(i) && f.condition in ForecastConditions
    ensures f.highTemp == d.highTemp && f.lowTemp == d.lowTemp
    ensures f.chanceOfRain == d.chanceOfRain && f.humidity == d.humidity
  {
    var condition := ForecastConditions[ScaledIndex(d.condition, |ForecastConditions|)];
    DailyForecast(CallDayPlus(i), d.highTemp, d.lowTemp, condition,
      DescribeCondition(condition), d.chanceOfRain, d.humidity)
  }

  /** `i <= days` for a loop counter `i`; every comparison with NaN is false. */
  predicate AtMost(i: int, days: Num) {
    days.Finite? && i <= days.n
  }

  /** How many times `for (let i = 1; i <= days; i++)` runs. */
  function DayCount(days: Num): nat {
    if days.Finite? && days.n > 0 then days.n else 0
  }

  /** The first `n` generated entries, in the order the loop pushes them. */
  function MockDays(n: nat, draws: nat -> DayDraw): (s: seq<DailyForecast>)
    ensures |s| == n
    ensures forall k :: 0 <= k < n ==>
      && s[k].date == CallDayPlus(k + 1)
      && s[k].condition in ForecastConditions
      && s[k].highTemp == draws(k + 1).highTemp && s[k].lowTemp == draws(k + 1).lowTemp
      && s[k].chanceOfRain == draws(k + 1).chanceOfRain && s[k].humidity == draws(k + 1).humidity
  {
    if n == 0 then []
    else
      var earlier := MockDays(n - 1, draws);
      var s := earlier + [MockDay(n, draws(n))];
      assert forall k :: 0 <= k < n - 1 ==> s[k] == earlier[k];
      s
  }

  /** The forecast `generateMockForecast(location, days)` builds, with
      `draws(i)` the draws of iteration `i`. */
  function MockForecast(location: string, days: Num, draws: nat -> DayDraw): (f: WeatherForecast)
    ensures f.location == location
    ensures |f.forecast| == DayCount(days)
    ensures forall k :: 0 <= k < |f.forecast| ==>
      f.forecast[k].date == CallDayPlus(k + 1) && f.forecast[k].condition in ForecastConditions
  {
    WeatherForecast(location, MockDays(DayCount(days), draws))
  }

  /** `generateMockForecast`: one entry pushed per loop iteration. */
  method GenerateMockForecast(location: string, days: Num, draws: nat -> DayDraw) returns (f: WeatherForecast)
    ensures f == MockForecast(location, days, draws)
  {
    var forecast: seq<DailyForecast> := [];
    var i := 1;
    while AtMost(i, days)
      invariant 1 <= i <= DayCount(days) + 1
      invariant forecast == MockDays(i - 1, draws)
      decreases DayCount(days) + 1 - i
    {
      var draw := draws(i);
      var condition := ForecastConditions[ScaledIndex(draw.condition, |ForecastConditions|)];
      forecast := forecast + [DailyForecast(CallDayPlus(i), draw.highTemp, draw.lowTemp, condition,
        DescribeCondition(condition), draw.chanceOfRain, draw.humidity)];
      i := i + 1;
    }
    f := WeatherForecast(location, forecast);
  }

  /** `getWeatherForecast(location, days)`: a stored forecast cut with
      `slice(0, days)` (never clamped), or a generated one for the caller's
      string. */
  function GetWeatherForecast(data: Dataset, location: string, days: Num, draws: nat -> DayDraw): (f: WeatherForecast)
    ensures var key := NormalizeLocation(data.aliases, location);
      key in Keys(data.forecasts) ==>
        exists i :: 0 <= i < |data.forecasts| && data.forecasts[i].0 == key
          && f.location == data.forecasts[i].1.location
          && f.forecast == SliceTo(data.forecasts[i].1.forecast, days)
    ensures NormalizeLocation(data.aliases, location) !in Keys(data.forecasts) ==>
      f == MockForecast(location, days, draws)
  {
    var key := NormalizeLocation(data.aliases, location);
    match Lookup(data.forecasts, key)
    case Some(stored) => WeatherForecast(stored.location, SliceTo(stored.forecast, days))
    case None => MockForecast(location, days, draws)
  }

  /** For a known location and `days >= 0`: the stored location and the first
      `min(days, stored length)` stored days. */
  lemma ForecastKnown(data: Dataset, location: string, n: int, draws: nat -> DayDraw, i: nat)
    requires DistinctKeys(data.forecasts) && i < |data.forecasts| && n >= 0
    requires NormalizeLocation(data.aliases, location) == data.forecasts[i].0
    ensures var stored := data.forecasts[i].1;
      var f := GetWeatherForecast(data, location, Finite(n), draws);
      f.location == stored.location
      && |f.forecast| == (if n < |stored.forecast| then n else |stored.forecast|)
      && f.forecast == stored.forecast[..|f.forecast|]
  {
    LookupAt(data.forecasts, i);
  }

  /** For an unknown location and `days >= 0`: exactly `days` entries, under
      the caller's string. */
  lemma ForecastUnknown(data: Dataset, location: string, n: int, draws: nat -> DayDraw)
    requires n >= 0 && NormalizeLocation(data.aliases, location) !in Keys(data.forecasts)
    ensures GetWeatherForecast(data, location, Finite(n), draws).location == location
    ensures |GetWeatherForecast(data, location, Finite(n), draws).forecast| == n
  {
  }

  // ---------------------------------------------------------------------
  // getWeatherAlerts

  /** One area test of `getWeatherAlerts`: containment either way between the
      lower-cased area and the lower-cased display name, or between the
      lower-cased area and the normalised key. */
  predicate AreaMatches(area: string, name: string, key: string) {
    var a := Lower(area);
    var n := Lower(name);
    Contains(a, n) || Contains(n, a) || Contains(a, key) || Contains(key, a)
  }

  /** `alert.areas.some(...)`. */
  predicate AlertMatches(alert: WeatherAlert, name: string, key: string) {
    exists i :: 0 <= i < |alert.areas| && AreaMatches(alert.areas[i], name, key)
  }

  /** `alerts.filter(...)`. */
  function MatchingAlerts(alerts: seq<WeatherAlert>, name: string, key: string): (r: seq<WeatherAlert>)
    ensures |r| <= |alerts|
    decreases |alerts|
  {
    if alerts == [] then []
    else (if AlertMatches(alerts[0], name, key) then [alerts[0]] else []) + MatchingAlerts(alerts[1..], name, key)
  }

  /** The filter keeps exactly the matching alerts, each as often as it occurs. */
  lemma {:induction false} MatchingAlertsCount(alerts: seq<WeatherAlert>, name: string, key: string, x: WeatherAlert)
    ensures Occurrences(MatchingAlerts(alerts, name, key), x)
      == if AlertMatches(x, name, key) then Occurrences(alerts, x) else 0
    decreases |alerts|
  {
    if alerts != [] {
      MatchingAlertsCount(alerts[1..], name, key, x);
      OccurrencesOfCons(alerts[0], alerts[1..], x);
      var head := if AlertMatches(alerts[0], name, key) then [alerts[0]] else [];
      OccurrencesOfConcat(head, MatchingAlerts(alerts[1..], name, key), x);
      assert [alerts[0]] + alerts[1..] == alerts;
    }
  }

  /** The filter preserves order: it distributes over concatenation. */
  lemma {:induction false} MatchingAlertsConcat(a: seq<WeatherAlert>, b: seq<WeatherAlert>, name: string, key: string)
    ensures MatchingAlerts(a + b, name, key) == MatchingAlerts(a, name, key) + MatchingAlerts(b, name, key)
    decreases |a|
  {
    if a != [] {
      assert (a + b)[1..] == a[1..] + b;
      MatchingAlertsConcat(a[1..], b, name, key);
    } else {
      assert a + b == b;
    }
  }

  /** When every area matches, as it does for the empty key, nothing is dropped. */
  lemma {:induction false} MatchingAlertsAll(alerts: seq<WeatherAlert>, name: string, key: string)
    requires forall i :: 0 <= i < |alerts| ==> AlertMatches(alerts[i], name, key)
    ensures MatchingAlerts(alerts, name, key) == alerts
    decreases |alerts|
  {
    if alerts != [] {
      assert AlertMatches(alerts[0], name, key);
      MatchingAlertsAll(alerts[1..], name, key);
    }
  }

  /** `mockWeatherData[key]?.location || location`. */
  function LocationName(weather: Table<WeatherData>, key: string, location: string): (name: string)
    ensures name == location || name in DisplayNamesOf(weather)
  {
    match Lookup(weather, key)
    case Some(record) =>
      if record.location != "" then
        assert record in Values(weather);
        record.location
      else location
    case None => location
  }

  /** The `location` field of every record. */
  function DisplayNamesOf(weather: Table<WeatherData>): (names: seq<string>)
    ensures |names| == |weather| && forall i :: 0 <= i < |weather| ==> names[i] == weather[i].1.location
  {
    seq(|weather|, i requires 0 <= i < |weather| => weather[i].1.location)
  }

  /** `getWeatherAlerts(location)`: all alerts for a falsy (absent or empty)
      location, otherwise those with an area matching the display name or the
      normalised key. */
  function GetWeatherAlerts(data: Dataset, location: Option<string>): (r: seq<WeatherAlert>)
    ensures location.None? || location.value == "" ==> r == data.alerts
    ensures |r| <= |data.alerts|
  {
    if location.None? || location.value == "" then data.alerts
    else
      var key := NormalizeLocation(data.aliases, location.value);
      MatchingAlerts(data.alerts, LocationName(data.weather, key, location.value), key)
  }

  /** For a non-empty location: an alert occurs in the result exactly as often
      as in the table when one of its areas matches, and not at all otherwise. */
  lemma AlertsSelected(data: Dataset, location: string, x: WeatherAlert)
    requires location != ""
    ensures var key := NormalizeLocation(data.aliases, location);
      var name := LocationName(data.weather, key, location);
      Occurrences(GetWeatherAlerts(data, Some(location)), x)
        == if AlertMatches(x, name, key) then Occurrences(data.alerts, x) else 0
    ensures var key := NormalizeLocation(data.aliases, location);
      var name := LocationName(data.weather, key, location);
      x in GetWeatherAlerts(data, Some(location)) <==> x in data.alerts && AlertMatches(x, name, key)
  {
    var key := NormalizeLocation(data.aliases, location);
    var name := LocationName(data.weather, key, location);
    MatchingAlertsCount(data.alerts, name, key, x);
    OccurrencesPositive(data.alerts, x);
    OccurrencesPositive(GetWeatherAlerts(data, Some(location)), x);
  }

  /** A non-empty location that normalises to the empty key matches every
      alert that names at least one area. */
  lemma AlertsEmptyKeyMatchesAll(data: Dataset, location: string)
    requires location != "" && NormalizeLocation(data.aliases, location) == ""
    requires forall i :: 0 <= i < |data.alerts| ==> data.alerts[i].areas != []
    ensures GetWeatherAlerts(data, Some(location)) == data.alerts
  {
    var name := LocationName(data.weather, "", location);
    forall i | 0 <= i < |data.alerts|
      ensures AlertMatches(data.alerts[i], name, "")
    {
      ContainsEmpty(Lower(data.alerts[i].areas[0]));
      assert AreaMatches(data.alerts[i].areas[0], name, "");
    }
    MatchingAlertsAll(data.alerts, name, "");
  }

  // ---------------------------------------------------------------------
  // counting helpers

  lemma {:induction false} OccurrencesOfCons<T>(x: T, s: seq<T>, y: T)
    ensures Occurrences([x] + s, y) == (if x == y then 1 else 0) + Occurrences(s, y)
    decreases |s|
  {
    if s != [] {
      var init := s[..|s| - 1];
      assert ([x] + s)[..|s|] == [x] + init;
      OccurrencesOfCons(x, init, y);
    } else {
      assert ([x] + s)[..0] == [];
    }
  }

  lemma {:induction false} OccurrencesOfConcat<T>(a: seq<T>, b: seq<T>, y: T)
    ensures Occurrences(a + b, y) == Occurrences(a, y) + Occurrences(b, y)
    decreases |b|
  {
    if b == [] {
      assert a + b == a;
    } else {
      var init := b[..|b| - 1];
      assert (a + b)[..|a + b| - 1] == a + init;
      OccurrencesOfConcat(a, init, y);
    }
  }

  // ---------------------------------------------------------------------
  // getWeatherStats

  /** The `condition` of every record, in table order. */
  function Conditions(records: seq<WeatherData>): (cs: seq<string>)
    ensures |cs| == |records| && forall i :: 0 <= i < |records| ==> cs[i] == records[i].condition
  {
    seq(|records|, i requires 0 <= i < |records| => records[i].condition)
  }

  /** Taking one more record adds its condition at the end. */
  lemma ConditionsSnoc(records: seq<WeatherData>, i: nat)
    requires i < |records|
    ensures Conditions(records[..i + 1]) == Conditions(records[..i]) + [records[i].condition]
  {
    var a, b := Conditions(records[..i + 1]), Conditions(records[..i]) + [records[i].condition];
    assert |a| == |b|;
    forall k | 0 <= k < |a| ensures a[k] == b[k] {
      if k < i {
        assert a[k] == records[k].condition == b[k];
      }
    }
  }

  /** The `conditionCounts` object: each condition once, in order of first
      appearance, with the number of records that have it. */
  function ConditionCounts(conds: seq<string>): (t: Table<nat>)
    ensures Keys(t) == Dedup(conds)
    ensures forall i :: 0 <= i < |t| ==> t[i].1 == Occurrences(conds, t[i].0)
  {
    Tally(Dedup(conds), conds)
  }

  /** Each of `keys` paired with its number of occurrences in `conds`. */
  function Tally(keys: seq<string>, conds: seq<string>): (t: Table<nat>)
    ensures Keys(t) == keys
    ensures forall i :: 0 <= i < |t| ==> t[i] == (keys[i], Occurrences(conds, keys[i]))
  {
    seq(|keys|, i requires 0 <= i < |keys| => (keys[i], Occurrences(conds, keys[i])))
  }

  lemma DedupSnoc(s: seq<string>, c: string)
    ensures Dedup(s + [c]) == AddIfAbsent(Dedup(s), c)
  {
    assert (s + [c])[..|s|] == s;
  }

  lemma OccurrencesSnoc(s: seq<string>, c: string, x: string)
    ensures Occurrences(s + [c], x) == Occurrences(s, x) + (if x == c then 1 else 0)
  {
    assert (s + [c])[..|s|] == s;
  }

  lemma CountsDistinct(conds: seq<string>)
    ensures DistinctKeys(ConditionCounts(conds))
  {
    var t := ConditionCounts(conds);
    DedupNoDup(conds);
    forall i, j | 0 <= i < j < |t| ensures t[i].0 != t[j].0 {
      assert Keys(t)[i] == t[i].0 && Keys(t)[j] == t[j].0;
    }
  }

  /** One `forEach` step, `counts[c] = (counts[c] || 0) + 1`, takes the
      counts of `s` to the counts of `s + [c]`. */
  lemma CountStep(s: seq<string>, c: string, before: Table<nat>, v: nat)
    requires before == ConditionCounts(s) && v == Lookup(before, c).GetOr(0) + 1
    ensures ConditionCounts(s + [c]) == Assign(before, c, v)
  {
    var keys := Dedup(s);
    DedupSnoc(s, c);
    TallyLookup(keys, s, c);
    if c in keys {
      TallySeen(keys, s, c, before, v);
    } else {
      DedupMembers(s);
      OccurrencesPositive(s, c);
      TallyNew(keys, s, c, before, v);
    }
  }

  /** Reading `c` from a tally gives its count, or nothing when it is not
      one of the keys. */
  lemma TallyLookup(keys: seq<string>, s: seq<string>, c: string)
    ensures Lookup(Tally(keys, s), c) == if c in keys then Some(Occurrences(s, c)) else None
  {
    var t := Tally(keys, s);
    if c in keys {
      var r := Lookup(t, c);
      var i :| 0 <= i < |t| && t[i] == (c, r.value);
    }
  }

  /** Counting one more occurrence of a key already present updates it in place. */
  lemma TallySeen(keys: seq<string>, s: seq<string>, c: string, before: Table<nat>, v: nat)
    requires c in keys && before == Tally(keys, s) && v == Occurrences(s, c) + 1
    ensures Tally(keys, s + [c]) == Assign(before, c, v)
  {
    var after := Tally(keys, s + [c]);
    var next := Assign(before, c, v);
    assert c in Keys(before);
    assert |next| == |after|;
    forall i | 0 <= i < |after| ensures after[i] == next[i] {
      OccurrencesSnoc(s, c, keys[i]);
    }
  }

  /** Counting a new key appends it with count one. */
  lemma TallyNew(keys: seq<string>, s: seq<string>, c: string, before: Table<nat>, v: nat)
    requires c !in keys && Occurrences(s, c) == 0 && before == Tally(keys, s) && v == 1
    ensures Tally(keys + [c], s + [c]) == Assign(before, c, v)
  {
    var after := Tally(keys + [c], s + [c]);
    var next := before + [(c, 1)];
    assert c !in Keys(before);
    forall i | 0 <= i < |after| ensures after[i] == next[i] {
      if i < |keys| {
        OccurrencesSnoc(s, c, keys[i]);
      } else {
        OccurrencesSnoc(s, c, c);
      }
    }
  }

  /** The `forEach` over the records that fills `conditionCounts`. */
  method CountConditions(records: seq<WeatherData>) returns (counts: Table<nat>)
    ensures counts == ConditionCounts(Conditions(records))
  {
    counts := [];
    for i := 0 to |records|
      invariant counts == ConditionCounts(Conditions(records[..i]))
    {
      var c := records[i].condition;
      var v := Lookup(counts, c).GetOr(0) + 1;
      CountStep(Conditions(records[..i]), c, counts, v);
      ConditionsSnoc(records, i);
      counts := Assign(counts, c, v);
    }
    assert records[..|records|] == records;
  }

  /** The reducer `(a, b) => a[1] > b[1] ? a : b`. */
  function Stronger(a: (string, nat), b: (string, nat)): (string, nat) {
    if a.1 > b.1 then a else b
  }

  /** `entries.reduce(Stronger)` on a non-empty list of entries. */
  function MostCommonEntry(entries: seq<(string, nat)>): (e: (string, nat))
    requires entries != []
    ensures e in entries
    decreases |entries|
  {
    if |entries| == 1 then entries[0]
    else Stronger(MostCommonEntry(entries[..|entries| - 1]), entries[|entries| - 1])
  }

  /** Entry `k` has a maximal count and every later entry a smaller one. */
  predicate IsLastMaximum(entries: seq<(string, nat)>, k: int) {
    && 0 <= k < |entries|
    && (forall j :: 0 <= j < |entries| ==> entries[j].1 <= entries[k].1)
    && (forall j :: k < j < |entries| ==> entries[j].1 < entries[k].1)
  }

  /** The reduce picks an entry whose count is maximal, and no later entry
      has the same count: among ties the last one wins. */
  lemma MostCommonIsLastMaximum(entries: seq<(string, nat)>)
    requires entries != []
    ensures exists k :: IsLastMaximum(entries, k) && entries[k] == MostCommonEntry(entries)
  {
    var k := MostCommonIndex(entries);
  }

  /** The position of the entry the reduce picks. */
  lemma {:induction false} MostCommonIndex(entries: seq<(string, nat)>) returns (k: int)
    requires entries != []
    ensures IsLastMaximum(entries, k) && entries[k] == MostCommonEntry(entries)
    decreases |entries|
  {
    var last := |entries| - 1;
    if last == 0 {
      k := 0;
    } else {
      var init := entries[..last];
      var i := MostCommonIndex(init);
      if init[i].1 > entries[last].1 {
        MaximumKept(entries, i);
        k := i;
      } else {
        MaximumMoves(entries, i);
        k := last;
      }
    }
  }

  /** A last entry with a smaller count leaves the maximum where it was. */
  lemma MaximumKept(entries: seq<(string, nat)>, i: int)
    requires |entries| > 1 && IsLastMaximum(entries[..|entries| - 1], i)
    requires entries[i].1 > entries[|entries| - 1].1
    ensures IsLastMaximum(entries, i)
  {
    var init := entries[..|entries| - 1];
    forall j | 0 <= j < |entries| - 1 ensures entries[j].1 <= entries[i].1 {
      assert entries[j] == init[j];
    }
    forall j | i < j < |entries| - 1 ensures entries[j].1 < entries[i].1 {
      assert entries[j] == init[j];
    }
  }

  /** A last entry with at least the maximal count becomes the maximum. */
  lemma MaximumMoves(entries: seq<(string, nat)>, i: int)
    requires |entries| > 1 && IsLastMaximum(entries[..|entries| - 1], i)
    requires entries[i].1 <= entries[|entries| - 1].1
    ensures IsLastMaximum(entries, |entries| - 1)
  {
    var init := entries[..|entries| - 1];
    forall j | 0 <= j < |entries| - 1 ensures entries[j].1 <= entries[|entries| - 1].1 {
      assert entries[j] == init[j];
    }
  }

  datatype LocationSummary = LocationSummary(location: string, temperature: int, condition: string)

  /** The result of `getWeatherStats`, without the floating-point average. */
  datatype WeatherStats = WeatherStats(
    totalLocations: nat,
    mostCommonCondition: string,
    locationBreakdown: seq<LocationSummary>)

  function Summary(d: WeatherData): LocationSummary {
    LocationSummary(d.location, d.temperature, d.condition)
  }

  /** The statistics of a non-empty list of records. */
  function StatsOf(records: seq<WeatherData>): (stats: WeatherStats)
    requires records != []
    ensures stats.totalLocations == |records|
    ensures |stats.locationBreakdown| == |records|
    ensures forall i :: 0 <= i < |records| ==>
      stats.locationBreakdown[i] == LocationSummary(records[i].location, records[i].temperature, records[i].condition)
    ensures stats.mostCommonCondition in Conditions(records)
  {
    var conds := Conditions(records);
    var counts := ConditionCounts(conds);
    assert conds[0] in Keys(counts) by { DedupMembers(conds); }
    var winner := MostCommonEntry(counts).0;
    assert winner in Keys(counts);
    DedupMembers(conds);
    WeatherStats(|records|, winner, seq(|records|, i requires 0 <= i < |records| => Summary(records[i])))
  }

  /** `mostCommonCondition` occurs at least as often as any condition, and a
      condition tied with it first appears earlier. */
  lemma MostCommonCondition(records: seq<WeatherData>, c: string)
    requires records != []
    ensures var conds := Conditions(records);
      Occurrences(conds, c) <= Occurrences(conds, StatsOf(records).mostCommonCondition)
    ensures var conds := Conditions(records);
      var winner := StatsOf(records).mostCommonCondition;
      c != winner && Occurrences(conds, c) == Occurrences(conds, winner) ==>
        exists i, k :: 0 <= i < k < |Dedup(conds)| && Dedup(conds)[i] == c && Dedup(conds)[k] == winner
  {
    var conds := Conditions(records);
    var counts := ConditionCounts(conds);
    DedupMembers(conds);
    assert conds[0] in Keys(counts);
    var k := MostCommonIndex(counts);
    var winner := counts[k].0;
    assert winner == StatsOf(records).mostCommonCondition;
    assert Keys(counts)[k] == winner;
    if c in conds {
      var i :| 0 <= i < |counts| && Keys(counts)[i] == c;
      assert counts[i].0 == c;
      if c != winner && Occurrences(conds, c) == Occurrences(conds, winner) {
        assert i != k;
        assert !(k < i);
      }
    } else {
      OccurrencesPositive(conds, c);
    }
  }

  /** `getWeatherStats()` over the records of the weather table. */
  method GetWeatherStats(data: Dataset) returns (stats: WeatherStats)
    requires data.weather != []
    ensures stats == StatsOf(Values(data.weather))
  {
    var locations := Values(data.weather);
    var counts := CountConditions(locations);
    DedupMembers(Conditions(locations));
    assert Conditions(locations)[0] in Keys(counts);
    var winner := MostCommonEntry(counts).0;
    var breakdown := seq(|locations|, i requires 0 <= i < |locations| => Summary(locations[i]));
    stats := WeatherStats(|locations|, winner, breakdown);
  }
}
