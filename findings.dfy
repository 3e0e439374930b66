/** weather-service.ts as written looks keys up with `table[key]` on plain
    object literals, so a key naming a member that every object inherits
    from `Object.prototype` ("constructor", "toString", "__proto__", ...)
    finds that member instead of nothing. This module models those lookups
    as written and shows where they differ from the own-key lookups of
    WeatherService, which the rest of the model uses. */
module PrototypeLookup {
  import opened Wrappers
  import opened Text
  import opened Entries
  import opened WeatherTypes
  import opened MockData
  import opened WeatherService
  import opened HttpServer

  /** The names of the members a plain object inherits from `Object.prototype`. */
  const InheritedNames: seq<string> := [
    "__proto__", "constructor", "hasOwnProperty", "isPrototypeOf",
    "propertyIsEnumerable", "toLocaleString", "toString", "valueOf",
    "__defineGetter__", "__defineSetter__", "__lookupGetter__", "__lookupSetter__"
  ]

  /** What `table[key]` evaluates to: an own entry, an inherited member (a
      function, or the prototype object for `__proto__`; both truthy), or
      `undefined`. */
  datatype Property<V> = Own(value: V) | Inherited(name: string) | Undefined

  function Index<V>(t: Table<V>, key: string): (p: Property<V>)
    ensures p.Own? <==> key in Keys(t)
    ensures p.Own? ==> Lookup(t, key) == Some(p.value)
    ensures p.Inherited? <==> key !in Keys(t) && key in InheritedNames
    ensures p.Inherited? ==> p.name == key
  {
    match Lookup(t, key)
    case Some(v) => Own(v)
    case None => if key in InheritedNames then Inherited(key) else Undefined
  }

  /** `String(member)`: the prototype object prints as `[object Object]`,
      an inherited method as its native source text. */
  function InheritedText(name: string): (s: string)
    ensures |s| >= 15
    ensures name == "constructor" ==> |s| == 35
  {
    if name == "__proto__" then "[object Object]"
    else "function " + (if name == "constructor" then "Object" else name) + "() { [native code] }"
  }

  /** What `normalizeLocation` returns as written: a string key, or the
      inherited member found in the alias table. */
  datatype Normalized = Key(key: string) | InheritedValue(name: string)

  function NormalizeAsWritten(aliases: Table<string>, location: string): (n: Normalized)
    ensures n.Key? ==> n.key == NormalizeLocation(aliases, location)
    ensures n.InheritedValue? <==>
      Trim(Lower(location)) !in Keys(aliases) && Trim(Lower(location)) in InheritedNames
    ensures n.InheritedValue? ==> n.name == Trim(Lower(location))
  {
    var lowered := Trim(Lower(location));
    match Index(aliases, lowered)
    case Own(target) => if target != "" then Key(target) else Key(Slug(lowered))
    case Inherited(name) => InheritedValue(name)
    case Undefined => Key(Slug(lowered))
  }

  /** A lower-cased, trimmed input that names an inherited member and no
      alias normalises to that member. */
  lemma NormalizeToInherited(aliases: Table<string>, location: string, lowered: string)
    requires Trim(Lower(location)) == lowered
    requires lowered !in Keys(aliases) && lowered in InheritedNames
    ensures NormalizeAsWritten(aliases, location) == InheritedValue(lowered)
  {
  }

  /** The key as the later lookups and tests see it: `String(normalized)`. */
  function KeyText(n: Normalized): string {
    match n
    case Key(k) => k
    case InheritedValue(name) => InheritedText(name)
  }

  // ---------------------------------------------------------------------
  // getWeatherAlerts as written

  const NotAFunctionMessage := "normalizedLocation.includes is not a function"

  /** One area test when the normalised location is an inherited member:
      the first three tests coerce it to text, the fourth calls `includes`
      on it, which it does not have. */
  function InheritedAreaTest(area: string, name: string, shown: string): (o: Outcome<bool>)
    ensures o.Ok? ==> o.value && AreaMatches(area, name, shown)
    ensures !AreaMatches(area, name, shown) ==> o == Fault(NotAFunctionMessage)
  {
    var a := Lower(area);
    var n := Lower(name);
    if Contains(a, n) || Contains(n, a) || Contains(a, shown) then Ok(true)
    else Fault(NotAFunctionMessage)
  }

  /** `areas.some(test)`: the test above either passes or throws, and `some`
      stops at the first area that passes, so the first area decides. */
  function SomeAreaAsWritten(areas: seq<string>, name: string, shown: string): (o: Outcome<bool>)
    ensures areas == [] ==> o == Ok(false)
    ensures areas != [] ==> o == Ok(true) || o == Fault(NotAFunctionMessage)
  {
    if areas == [] then Ok(false)
    else
      match InheritedAreaTest(areas[0], name, shown)
      case Fault(m) => Fault(m)
      case Ok(_) => Ok(true)
  }

  /** `alerts.filter(...)` with the test above; an exception ends the filter. */
  function FilterAsWritten(alerts: seq<WeatherAlert>, name: string, shown: string): (o: Outcome<seq<WeatherAlert>>)
    ensures o.Ok? ==> |o.value| <= |alerts|
    decreases |alerts|
  {
    if alerts == [] then Ok([])
    else
      match SomeAreaAsWritten(alerts[0].areas, name, shown)
      case Fault(m) => Fault(m)
      case Ok(keep) =>
        match FilterAsWritten(alerts[1..], name, shown)
        case Fault(m) => Fault(m)
        case Ok(rest) => Ok((if keep then [alerts[0]] else []) + rest)
  }

  /** `getWeatherAlerts(location)` as written. `mockWeatherData[k]?.location`
      is undefined for every inherited member, so the display name is taken
      by own-key lookup in both branches. */
  function GetWeatherAlertsAsWritten(data: Dataset, location: Option<string>): (o: Outcome<seq<WeatherAlert>>)
  {
    if location.None? || location.value == "" then Ok(data.alerts)
    else
      var n := NormalizeAsWritten(data.aliases, location.value);
      var shown := KeyText(n);
      var name := LocationName(data.weather, shown, location.value);
      match n
      case Key(key) => Ok(MatchingAlerts(data.alerts, name, key))
      case InheritedValue(_) => FilterAsWritten(data.alerts, name, shown)
  }

  /** Where the location does not name an inherited member, the code as
      written and the corrected model agree. */
  lemma AlertsAgreeOnOwnKeys(data: Dataset, location: Option<string>)
    requires location.Some? ==> Trim(Lower(location.value)) !in InheritedNames
    ensures GetWeatherAlertsAsWritten(data, location) == Ok(GetWeatherAlerts(data, location))
  {
  }

  /** A location naming an inherited member raises a `TypeError` as soon as
      the first area of the first alert fails the three textual tests. */
  lemma InheritedAlertsFault(data: Dataset, location: string)
    requires location != ""
    requires NormalizeAsWritten(data.aliases, location).InheritedValue?
    requires data.alerts != [] && data.alerts[0].areas != []
    requires var shown := KeyText(NormalizeAsWritten(data.aliases, location));
      var name := LocationName(data.weather, shown, location);
      InheritedAreaTest(data.alerts[0].areas[0], name, shown).Fault?
    ensures GetWeatherAlertsAsWritten(data, Some(location)) == Fault(NotAFunctionMessage)
  {
  }

  // ---------------------------------------------------------------------
  // getWeatherForecast as written

  /** `getWeatherForecast(location, days)` as written: `mockForecastData[key]`
      may find an inherited member, which is truthy and has no `forecast`
      field, so `forecast.forecast.slice` reads a property of undefined. */
  function GetWeatherForecastAsWritten(data: Dataset, location: string, days: Num, draws: nat -> DayDraw): (o: Outcome<WeatherForecast>)
  {
    match Index(data.forecasts, KeyText(NormalizeAsWritten(data.aliases, location)))
    case Own(stored) => Ok(WeatherForecast(stored.location, SliceTo(stored.forecast, days)))
    case Inherited(_) => Fault(ReadPropertyMessage("undefined", "slice"))
    case Undefined => Ok(MockForecast(location, days, draws))
  }

  /** Off the inherited names, both before and after normalisation, the code
      as written and the corrected model agree. */
  lemma ForecastAgreesOnOwnKeys(data: Dataset, location: string, days: Num, draws: nat -> DayDraw)
    requires Trim(Lower(location)) !in InheritedNames
    requires NormalizeLocation(data.aliases, location) !in InheritedNames
    ensures GetWeatherForecastAsWritten(data, location, days, draws)
      == Ok(GetWeatherForecast(data, location, days, draws))
  {
  }

  /** A location whose normalised key names an inherited member and is no
      stored key makes the forecast throw. */
  lemma InheritedForecastFault(data: Dataset, location: string, days: Num, draws: nat -> DayDraw)
    requires Trim(Lower(location)) !in InheritedNames
    requires NormalizeLocation(data.aliases, location) in InheritedNames
    requires NormalizeLocation(data.aliases, location) !in Keys(data.forecasts)
    ensures GetWeatherForecastAsWritten(data, location, days, draws)
      == Fault(ReadPropertyMessage("undefined", "slice"))
  {
  }
}

/** The lookups as written, applied to the constant tables. */
module PrototypeCounterexamples {
  import opened Wrappers
  import opened Text
  import opened Entries
  import opened WeatherTypes
  import opened MockData
  import opened MockTables
  import opened WeatherService
  import opened HttpServer
  import opened Spellings
  import opened PrototypeLookup

  lemma NoAliasStartsWithC()
    ensures "constructor" !in Keys(LocationMapping) && "constructor!" !in Keys(LocationMapping)
  {
    AliasKeys();
    NoAliasKeyStartsWithC();
  }

  lemma NoAliasKeyStartsWithC()
    ensures "constructor" !in AliasKeyList && "constructor!" !in AliasKeyList
  {
    assert forall i :: 0 <= i < |AliasKeyList| ==> AliasKeyList[i][0] != 'c';
  }

  lemma NoForecastKeyStartsWithC()
    ensures "constructor" !in Keys(MockForecastData)
  {
    ForecastKeys();
    NoListedForecastKeyStartsWithC();
  }

  lemma NoListedForecastKeyStartsWithC()
    ensures "constructor" !in ForecastKeyList
  {
    assert forall i :: 0 <= i < |ForecastKeyList| ==> ForecastKeyList[i][0] != 'c';
  }

  lemma RecordKeysAreShort(key: string)
    requires |key| >= 15
    ensures key !in Keys(MockWeatherData)
  {
    WeatherKeys();
    ListedRecordKeysAreShort(key);
  }

  lemma ListedRecordKeysAreShort(key: string)
    requires |key| >= 15
    ensures key !in WeatherKeyList
  {
    assert forall i :: 0 <= i < |WeatherKeyList| ==> |WeatherKeyList[i]| < 15;
  }

  lemma FirstAlertArea()
    ensures MockWeatherAlerts != [] && MockWeatherAlerts[0].areas != []
    ensures MockWeatherAlerts[0].areas[0] == "Hong Kong Island"
  {
  }

  lemma InheritedConstructor()
    ensures "constructor" in InheritedNames && "constructor!" !in InheritedNames
  {
    assert InheritedNames[1] == "constructor";
  }

  lemma ConstructorNormalizesToObject()
    ensures NormalizeAsWritten(LocationMapping, "constructor") == InheritedValue("constructor")
  {
    ConstructorSpelling();
    NoAliasStartsWithC();
    InheritedConstructor();
    NormalizeToInherited(LocationMapping, "constructor", "constructor");
  }

  lemma ObjectNamesNoRecord()
    ensures LocationName(MockWeatherData, InheritedText("constructor"), "constructor") == "constructor"
  {
    RecordKeysAreShort(InheritedText("constructor"));
  }

  lemma FirstAreaFailsForObject()
    ensures InheritedAreaTest("Hong Kong Island", "constructor", InheritedText("constructor"))
      == Fault(NotAFunctionMessage)
  {
    HongKongIslandUnrelatedToConstructor(InheritedText("constructor"));
  }

  /** `getWeatherAlerts("constructor")` as written throws on the first area
      of the first alert; the own-key lookup treats "constructor" as an
      ordinary location string whose key is itself. */
  lemma ConstructorAlertsFault()
    ensures GetWeatherAlertsAsWritten(MockDataset, Some("constructor")) == Fault(NotAFunctionMessage)
    ensures NormalizeLocation(LocationMapping, "constructor") == "constructor"
  {
    ConstructorSpelling();
    NoAliasStartsWithC();
    NormalizeThroughSlug(LocationMapping, "constructor", "constructor");
    ConstructorNormalizesToObject();
    ObjectNamesNoRecord();
    FirstAlertArea();
    FirstAreaFailsForObject();
    assert MockWeatherAlerts[0].areas[0] == "Hong Kong Island";
    InheritedAlertsFault(MockDataset, "constructor");
  }

  /** `getWeatherForecast("constructor!")` as written looks up the slug
      "constructor", finds `Object` and reads `slice` of its missing
      `forecast` field; the own-key lookup generates a forecast. */
  lemma ConstructorBangForecastFault(days: Num, draws: nat -> DayDraw)
    ensures GetWeatherForecastAsWritten(MockDataset, "constructor!", days, draws)
      == Fault(ReadPropertyMessage("undefined", "slice"))
    ensures GetWeatherForecast(MockDataset, "constructor!", days, draws)
      == MockForecast("constructor!", days, draws)
  {
    ConstructorBangSpelling();
    NoAliasStartsWithC();
    InheritedConstructor();
    NormalizeThroughSlug(LocationMapping, "constructor!", "constructor!");
    NoForecastKeyStartsWithC();
    InheritedForecastFault(MockDataset, "constructor!", days, draws);
  }
}
