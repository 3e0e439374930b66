/** The shape of the data mock-data.ts exports, and `getRandomWeatherData`. */
module MockData {
  import opened Entries
  import opened WeatherTypes

  /** The four tables mock-data.ts exports. */
  datatype Dataset = Dataset(
    weather: Table<WeatherData>,
    forecasts: Table<WeatherForecast>,
    alerts: seq<WeatherAlert>,
    aliases: Table<string>)

  // ---------------------------------------------------------------------
  // getRandomWeatherData

  /** `getRandomWeatherData()` for the draw `r` of `Math.random()`: the record
      under the key at index `Math.floor(r * n)`, one of the records, unchanged. */
  function GetRandomWeatherData(weather: Table<WeatherData>, r: Unit): (d: WeatherData)
    requires weather != []
    ensures d in Values(weather)
  {
    var keys := Keys(weather);
    var key := keys[ScaledIndex(r, |keys|)];
    Lookup(weather, key).value
  }

  /** With distinct keys the random record is exactly the one at the drawn index. */
  lemma RandomRecordAtIndex(weather: Table<WeatherData>, r: Unit)
    requires weather != [] && DistinctKeys(weather)
    ensures GetRandomWeatherData(weather, r) == weather[ScaledIndex(r, |weather|)].1
  {
    LookupAt(weather, ScaledIndex(r, |weather|));
  }
}

/** The constant tables of mock-data.ts. */
module MockTables {
  import opened MockData
  import opened Wrappers
  import opened Text
  import opened Entries
  import opened Seqs
  import opened WeatherTypes

  import opened LocationSearch

  /** The tables as exported. */
  const MockDataset := Dataset(MockWeatherData, MockForecastData, MockWeatherAlerts, LocationMapping)

  /** `mockWeatherData`, keyed by canonical location key, in declaration order.
      The module-load timestamps are `LoadTimePlusHours(0)`. */
  const MockWeatherData: Table<WeatherData> := [
    ("hong-kong", WeatherData("Hong Kong", 28, 75, 15, "SE", "Partly Cloudy",
      "Partly cloudy with occasional sunshine and high humidity",
      1013, 10, 7, LoadTimePlusHours(0))),
    ("tokyo", WeatherData("Tokyo", 22, 60, 8, "NE", "Sunny",
      "Clear skies with bright sunshine, perfect spring weather",
      1020, 15, 5, LoadTimePlusHours(0))),
    ("osaka", WeatherData("Osaka", 24, 65, 6, "SW", "Partly Cloudy",
      "Mild temperature with scattered clouds, comfortable for outdoor activities",
      1018, 12, 6, LoadTimePlusHours(0))),
    ("kyoto", WeatherData("Kyoto", 20, 70, 4, "N", "Overcast",
      "Cloudy skies with cool temperatures, typical spring weather in ancient capital",
      1016, 10, 3, LoadTimePlusHours(0))),
    ("hiroshima", WeatherData("Hiroshima", 23, 68, 7, "SE", "Light Rain",
      "Light drizzle with mild temperatures, umbrella recommended",
      1012, 8, 2, LoadTimePlusHours(0))),
    ("sapporo", WeatherData("Sapporo", 16, 55, 12, "NW", "Sunny",
      "Cool and crisp northern weather with clear skies",
      1022, 18, 4, LoadTimePlusHours(0))),
    ("fukuoka", WeatherData("Fukuoka", 26, 72, 9, "SW", "Thunderstorms",
      "Afternoon thunderstorms with warm temperatures, typical for southern Japan",
      1008, 6, 8, LoadTimePlusHours(0))),
    ("london", WeatherData("London", 15, 80, 12, "W", "Rainy",
      "Light rain with overcast skies, typical British weather",
      998, 8, 2, LoadTimePlusHours(0))),
    ("new-york", WeatherData("New York", 25, 65, 10, "SW", "Cloudy",
      "Mostly cloudy with mild temperatures, pleasant city weather",
      1015, 12, 4, LoadTimePlusHours(0))),
    ("sydney", WeatherData("Sydney", 22, 58, 14, "SE", "Sunny",
      "Beautiful sunny day with harbor breeze, perfect for outdoor activities",
      1019, 20, 9, LoadTimePlusHours(0)))
  ]

  /** `mockForecastData`: stored forecasts for four of the locations. */
  const MockForecastData: Table<WeatherForecast> := [
    ("hong-kong", HongKongForecast),
    ("tokyo", TokyoForecast),
    ("osaka", OsakaForecast),
    ("sapporo", SapporoForecast)
  ]

  const HongKongForecast: WeatherForecast :=
    WeatherForecast("Hong Kong", [
      DailyForecast(LoadDayPlus(1), 30, 25, "Thunderstorms", "Afternoon thunderstorms with heavy rain", 80, 85),
      DailyForecast(LoadDayPlus(2), 29, 24, "Partly Cloudy", "Mix of sun and clouds, more comfortable", 30, 70),
      DailyForecast(LoadDayPlus(3), 31, 26, "Sunny", "Bright and sunny, hot weather returns", 10, 65),
      DailyForecast(LoadDayPlus(4), 32, 27, "Hot", "Very hot and humid, stay hydrated", 20, 80),
      DailyForecast(LoadDayPlus(5), 28, 23, "Rainy", "Rainy day with cooler temperatures", 90, 88),
      DailyForecast(LoadDayPlus(6), 29, 24, "Partly Cloudy", "Clearing up with occasional sunshine", 40, 75),
      DailyForecast(LoadDayPlus(7), 30, 25, "Sunny", "Beautiful sunny weather for weekend", 15, 68)])

  const TokyoForecast: WeatherForecast :=
    WeatherForecast("Tokyo", [
      DailyForecast(LoadDayPlus(1), 24, 18, "Partly Cloudy", "Pleasant spring weather with mild temperatures", 20, 55),
      DailyForecast(LoadDayPlus(2), 26, 19, "Sunny", "Clear skies and warming temperatures", 10, 50),
      DailyForecast(LoadDayPlus(3), 21, 16, "Rainy", "Spring rain showers, cooler temperatures", 85, 78),
      DailyForecast(LoadDayPlus(4), 23, 17, "Overcast", "Cloudy skies with mild spring weather", 35, 65),
      DailyForecast(LoadDayPlus(5), 25, 19, "Sunny", "Beautiful clear day, perfect for cherry blossom viewing", 5, 48),
      DailyForecast(LoadDayPlus(6), 27, 20, "Partly Cloudy", "Warm spring day with scattered clouds", 25, 58),
      DailyForecast(LoadDayPlus(7), 28, 21, "Sunny", "Excellent weather for outdoor activities", 10, 52)])

  const OsakaForecast: WeatherForecast :=
    WeatherForecast("Osaka", [
      DailyForecast(LoadDayPlus(1), 26, 20, "Sunny", "Bright sunny day in the commercial heart of Japan", 15, 60),
      DailyForecast(LoadDayPlus(2), 24, 18, "Light Rain", "Light spring showers with cooler temperatures", 70, 75),
      DailyForecast(LoadDayPlus(3), 27, 21, "Partly Cloudy", "Mix of sun and clouds, pleasant weather", 30, 62)])

  const SapporoForecast: WeatherForecast :=
    WeatherForecast("Sapporo", [
      DailyForecast(LoadDayPlus(1), 18, 12, "Partly Cloudy", "Cool northern weather with scattered clouds", 25, 50),
      DailyForecast(LoadDayPlus(2), 15, 9, "Snow Showers", "Late spring snow possible in northern Japan", 60, 70),
      DailyForecast(LoadDayPlus(3), 20, 14, "Sunny", "Clear and crisp, beautiful mountain views", 10, 45)])

  /** `mockWeatherAlerts`. */
  const MockWeatherAlerts: seq<WeatherAlert> := [
    WeatherAlert("hk-typhoon-001", "Typhoon", Severe, "Typhoon Warning Signal No. 8",
      "Strong winds and heavy rain expected. Stay indoors and avoid unnecessary travel. Public transport may be suspended.",
      ["Hong Kong Island", "Kowloon", "New Territories"], LoadTimePlusHours(0), LoadTimePlusHours(12)),
    WeatherAlert("tokyo-heatwave-001", "Heat Wave", Moderate, "High Temperature Advisory",
      "Temperatures may exceed 35°C. Stay hydrated and avoid prolonged outdoor activities during peak hours.",
      ["Tokyo Metropolitan Area", "Chiba", "Saitama"], LoadTimePlusHours(0), LoadTimePlusHours(24)),
    WeatherAlert("osaka-thunderstorm-001", "Thunderstorm", Moderate, "Severe Thunderstorm Warning",
      "Heavy rain, lightning, and strong winds expected. Avoid outdoor activities and seek shelter.",
      ["Osaka Prefecture", "Kyoto", "Nara"], LoadTimePlusHours(2), LoadTimePlusHours(8)),
    WeatherAlert("sapporo-snow-001", "Snow", Minor, "Late Season Snow Advisory",
      "Unexpected late spring snowfall possible. Roads may become slippery, drive with caution.",
      ["Sapporo City", "Hokkaido Central"], LoadTimePlusHours(6), LoadTimePlusHours(18)),
    WeatherAlert("london-flood-001", "Flood", Moderate, "Flood Warning",
      "Heavy rainfall may cause flooding in low-lying areas. Avoid driving through flooded roads.",
      ["Thames Valley", "South London", "Surrey"], LoadTimePlusHours(0), LoadTimePlusHours(6)),
    WeatherAlert("fukuoka-typhoon-001", "Typhoon", Severe, "Typhoon Approach Warning",
      "Typhoon approaching southern Japan. Prepare for strong winds, heavy rain, and possible power outages.",
      ["Fukuoka Prefecture", "Kumamoto", "Kagoshima"], LoadTimePlusHours(4), LoadTimePlusHours(20))
  ]

  /** `locationMapping`: lower-case aliases to canonical keys, in declaration order. */
  const LocationMapping: Table<string> := [
    ("hong kong", "hong-kong"),
    ("hongkong", "hong-kong"),
    ("hk", "hong-kong"),
    ("tokyo", "tokyo"),
    ("tokyo japan", "tokyo"),
    ("osaka", "osaka"),
    ("osaka japan", "osaka"),
    ("kyoto", "kyoto"),
    ("kyoto japan", "kyoto"),
    ("hiroshima", "hiroshima"),
    ("hiroshima japan", "hiroshima"),
    ("sapporo", "sapporo"),
    ("sapporo japan", "sapporo"),
    ("fukuoka", "fukuoka"),
    ("fukuoka japan", "fukuoka"),
    ("london", "london"),
    ("london uk", "london"),
    ("new york", "new-york"),
    ("newyork", "new-york"),
    ("nyc", "new-york"),
    ("sydney", "sydney"),
    ("sydney australia", "sydney")
  ]

  /** The display names, `Object.values(mockWeatherData).map(d => d.location)`. */
  function DisplayNames(): (names: seq<string>)
    ensures |names| == |MockWeatherData|
    ensures forall i :: 0 <= i < |MockWeatherData| ==> names[i] == MockWeatherData[i].1.location
  {
    seq(|MockWeatherData|, i requires 0 <= i < |MockWeatherData| => MockWeatherData[i].1.location)
  }

  // ---------------------------------------------------------------------
  // Invariants of the tables

  /** The facts about the constant tables that the rest of the model relies on. */
  ghost predicate TablesConsistent() {
    && DistinctKeys(MockWeatherData)
    && DistinctKeys(MockForecastData)
    && DistinctKeys(LocationMapping)
    && AliasTargetsValid()
    && ForecastsMatchRecords()
    && DisplayNamesValid()
    && (forall i :: 0 <= i < |MockWeatherAlerts| ==> MockWeatherAlerts[i].areas != [])
  }

  /** Every alias points at an existing record, so the
      optional chaining `mockWeatherData[locationMapping[key]]?.location`
      never yields `undefined` for a key of the alias table. */
  ghost predicate AliasTargetsValid() {
    forall i :: 0 <= i < |LocationMapping| ==>
      && LocationMapping[i].1 != ""
      && LocationMapping[i].1 in Keys(MockWeatherData)
  }

  /** Every stored forecast belongs to a known location and carries its display name. */
  ghost predicate ForecastsMatchRecords() {
    forall i :: 0 <= i < |MockForecastData| ==>
      && Lookup(MockWeatherData, MockForecastData[i].0).Some?
      && Lookup(MockWeatherData, MockForecastData[i].0).value.location == MockForecastData[i].1.location
  }

  /** Display names are non-empty and distinct. */
  ghost predicate DisplayNamesValid() {
    && (forall i :: 0 <= i < |MockWeatherData| ==> MockWeatherData[i].1.location != "")
    && NoDup(DisplayNames())
  }

  lemma WeatherKeysDistinct()
    ensures DistinctKeys(MockWeatherData)
  {
    WeatherKeys();
    WeatherKeyListNoDup();
    DistinctKeysOfNoDup(MockWeatherData, WeatherKeyList);
  }

  lemma WeatherKeys()
    ensures Keys(MockWeatherData) == WeatherKeyList
  {
  }

  /** The keys of `mockWeatherData`, in declaration order. */
  const WeatherKeyList: seq<string> :=
    ["hong-kong", "tokyo", "osaka", "kyoto", "hiroshima", "sapporo", "fukuoka",
      "london", "new-york", "sydney"]

  lemma WeatherKeyListNoDup()
    ensures NoDup(WeatherKeyList)
  {
  }

  lemma ForecastKeysDistinct()
    ensures DistinctKeys(MockForecastData)
  {
    ForecastKeys();
    ForecastKeyListNoDup();
    DistinctKeysOfNoDup(MockForecastData, ForecastKeyList);
  }

  /** The keys of `mockForecastData`, in declaration order. */
  const ForecastKeyList: seq<string> := ["hong-kong", "tokyo", "osaka", "sapporo"]

  lemma ForecastKeys()
    ensures Keys(MockForecastData) == ForecastKeyList
  {
  }

  lemma ForecastKeyListNoDup()
    ensures NoDup(ForecastKeyList)
  {
  }

  lemma AliasKeysDistinct()
    ensures DistinctKeys(LocationMapping)
  {
    AliasKeys();
    AliasKeyListNoDup();
    DistinctKeysOfNoDup(LocationMapping, AliasKeyList);
  }

  lemma AliasKeys()
    ensures Keys(LocationMapping) == AliasKeyList
  {
  }

  /** The keys of `locationMapping`, in declaration order. */
  const AliasKeyList: seq<string> := NearAliasKeys + FarAliasKeys + OtherAliasKeys

  const NearAliasKeys: seq<string> :=
    ["hong kong", "hongkong", "hk", "tokyo", "tokyo japan", "osaka", "osaka japan"]

  const FarAliasKeys: seq<string> :=
    ["kyoto", "kyoto japan", "hiroshima", "hiroshima japan", "sapporo", "sapporo japan",
      "fukuoka", "fukuoka japan"]

  const OtherAliasKeys: seq<string> :=
    ["london", "london uk", "new york", "newyork", "nyc", "sydney", "sydney australia"]

  lemma AliasKeyListNoDup()
    ensures NoDup(AliasKeyList)
  {
    NearAliasKeysNoDup();
    FarAliasKeysNoDup();
    OtherAliasKeysNoDup();
    NearAliasKeysApart();
    FarAliasKeysApart();
    NoDupConcat3(NearAliasKeys, FarAliasKeys, OtherAliasKeys);
  }

  lemma NearAliasKeysNoDup()
    ensures NoDup(NearAliasKeys)
  {
  }

  lemma FarAliasKeysNoDup()
    ensures NoDup(FarAliasKeys)
  {
  }

  lemma OtherAliasKeysNoDup()
    ensures NoDup(OtherAliasKeys)
  {
  }

  lemma NearAliasKeysApart()
    ensures forall i :: 0 <= i < |NearAliasKeys| ==>
      NearAliasKeys[i] !in FarAliasKeys && NearAliasKeys[i] !in OtherAliasKeys
  {
  }

  lemma FarAliasKeysApart()
    ensures forall i :: 0 <= i < |FarAliasKeys| ==> FarAliasKeys[i] !in OtherAliasKeys
  {
  }

  lemma AliasTargetsNonEmpty()
    ensures forall i :: 0 <= i < |LocationMapping| ==> LocationMapping[i].1 != ""
  {
  }

  lemma AliasTargetsAreKeys()
    ensures forall i :: 0 <= i < |LocationMapping| ==> LocationMapping[i].1 in Keys(MockWeatherData)
  {
    WeatherKeys();
    AliasTargetsListed();
  }

  lemma AliasTargetsListed()
    ensures forall i :: 0 <= i < |LocationMapping| ==> LocationMapping[i].1 in WeatherKeyList
  {
  }

  lemma AliasTargetsAreValid()
    ensures AliasTargetsValid()
  {
    AliasTargetsNonEmpty();
    AliasTargetsAreKeys();
  }

  lemma ForecastsMatch()
    ensures ForecastsMatchRecords()
  {
    forall i | 0 <= i < |MockForecastData|
      ensures Lookup(MockWeatherData, MockForecastData[i].0).Some?
      ensures Lookup(MockWeatherData, MockForecastData[i].0).value.location == MockForecastData[i].1.location
    {
      ForecastMatches(i);
    }
  }

  lemma ForecastMatches(i: nat)
    requires i < |MockForecastData|
    ensures Lookup(MockWeatherData, MockForecastData[i].0) == Some(MockWeatherData[if i < 3 then i else 5].1)
    ensures MockWeatherData[if i < 3 then i else 5].1.location == MockForecastData[i].1.location
  {
    if i == 0 {
      ForecastHasRecord(0, 0);
    } else if i == 1 {
      ForecastHasRecord(1, 1);
    } else if i == 2 {
      ForecastHasRecord(2, 2);
    } else {
      ForecastHasRecord(3, 5);
    }
  }

  /** The forecast at index `i` belongs to the record at index `j`. */
  lemma ForecastHasRecord(i: nat, j: nat)
    requires i < |MockForecastData| && j < |MockWeatherData|
    requires MockForecastData[i].0 == MockWeatherData[j].0
    requires MockForecastData[i].1.location == MockWeatherData[j].1.location
    ensures Lookup(MockWeatherData, MockForecastData[i].0) == Some(MockWeatherData[j].1)
  {
    WeatherKeysDistinct();
    LookupAt(MockWeatherData, j);
  }

  lemma DisplayNamesAreValid()
    ensures DisplayNamesValid()
  {
  }

  lemma AlertsHaveAreas()
    ensures forall i :: 0 <= i < |MockWeatherAlerts| ==> MockWeatherAlerts[i].areas != []
  {
    forall i | 0 <= i < |MockWeatherAlerts| ensures MockWeatherAlerts[i].areas != [] {
      if i == 0 {
        assert |MockWeatherAlerts[0].areas| == 3;
      } else if i == 1 {
        assert |MockWeatherAlerts[1].areas| == 3;
      } else if i == 2 {
        assert |MockWeatherAlerts[2].areas| == 3;
      } else if i == 3 {
        assert |MockWeatherAlerts[3].areas| == 2;
      } else if i == 4 {
        assert |MockWeatherAlerts[4].areas| == 3;
      } else {
        assert |MockWeatherAlerts[5].areas| == 3;
      }
    }
  }

  lemma TablesAreConsistent()
    ensures TablesConsistent()
  {
    WeatherKeysDistinct();
    ForecastKeysDistinct();
    AliasKeysDistinct();
    AliasTargetsAreValid();
    ForecastsMatch();
    DisplayNamesAreValid();
    AlertsHaveAreas();
  }

  /** Every alias resolves to a record with a non-empty display name. */
  lemma AliasesAllResolve()
    ensures AliasesResolve(LocationMapping, MockWeatherData)
  {
    AliasTargetsAreKeys();
    DisplayNamesAreValid();
    KeysResolve(LocationMapping, MockWeatherData);
  }
}

/** `searchLocationsByQuery` over the constant tables. */
module MockSearch {
  import opened Wrappers
  import opened Text
  import opened Entries
  import opened Seqs
  import opened WeatherTypes
  import opened LocationSearch
  import opened MockData
  import opened MockTables

  // ---------------------------------------------------------------------
  // searchLocationsByQuery

  /** What `searchLocationsByQuery(query)` returns. */
  function SearchLocations(query: string): seq<string> {
    Search(LocationMapping, MockWeatherData, query)
  }

  /** `searchLocationsByQuery`, run over the constant tables. */
  method SearchLocationsByQuery(query: string) returns (matching: seq<string>)
    ensures matching == SearchLocations(query)
  {
    AliasKeysDistinct();
    matching := SearchTables(LocationMapping, MockWeatherData, query);
  }

  /** The result never lists a location twice. */
  lemma SearchNoDuplicates(query: string)
    ensures NoDup(SearchLocations(query))
  {
    SearchNoDup(LocationMapping, MockWeatherData, query);
  }

  /** Case-insensitivity: the result depends only on the lower-cased query. */
  lemma SearchOfLowerCase(query: string)
    ensures SearchLocations(query) == SearchLocations(Lower(query))
  {
    LowerIdempotent(query);
  }

  /** A display name is returned exactly when an alias key containing the
      lower-cased query maps to its record, or the lower-cased name itself
      contains the lower-cased query. */
  lemma SearchMembership(query: string, x: string)
    ensures x in SearchLocations(query) <==>
      || (exists i :: 0 <= i < |LocationMapping| && Contains(LocationMapping[i].0, Lower(query)) &&
                      DisplayNameOf(MockWeatherData, LocationMapping[i].1) == Some(x))
      || (exists j :: 0 <= j < |MockWeatherData| && MockWeatherData[j].1.location == x &&
                      Contains(Lower(x), Lower(query)))
  {
    AliasesAllResolve();
    SearchMembersResolved(LocationMapping, MockWeatherData, query, x);
  }

  /** Every returned string is the display name of some record. */
  lemma SearchReturnsDisplayNames(query: string, x: string)
    requires x in SearchLocations(query)
    ensures x in DisplayNames()
  {
    SearchFindsRecordNames(LocationMapping, MockWeatherData, query, x);
    NamesAreDisplayNames(x);
  }

  /** Being a display name is being the `location` of some record. */
  lemma NamesAreDisplayNames(x: string)
    ensures x in DisplayNames() <==> exists j :: 0 <= j < |MockWeatherData| && MockWeatherData[j].1.location == x
  {
    if x in DisplayNames() {
      var j :| 0 <= j < |DisplayNames()| && DisplayNames()[j] == x;
      assert MockWeatherData[j].1.location == x;
    }
    if exists j :: 0 <= j < |MockWeatherData| && MockWeatherData[j].1.location == x {
      var j :| 0 <= j < |MockWeatherData| && MockWeatherData[j].1.location == x;
      assert DisplayNames()[j] == x;
    }
  }

  /** The order of the result: names found through alias keys first (each at
      its first hit, in alias-key order), then the names found only by
      display name, in table order. */
  lemma SearchOrder(query: string)
    ensures var q := Lower(query);
            var byAlias := Dedup(AliasHits(LocationMapping, MockWeatherData, q));
            SearchLocations(query) == byAlias + Dedup(NewNames(byAlias, Values(MockWeatherData), q))
  {
    SearchOrdered(LocationMapping, MockWeatherData, query);
  }

  /** The empty query returns every display name of the table. */
  lemma SearchEmptyQuery(x: string)
    ensures x in SearchLocations("") <==> x in DisplayNames()
  {
    SearchEmptyFindsAll(LocationMapping, MockWeatherData, x);
    NamesAreDisplayNames(x);
  }
}
