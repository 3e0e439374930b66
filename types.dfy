/** The record shapes exchanged by the weather tools. Numbers are integers
    (every constant in the tables is one); instants and days are relative to
    the moment the tables were built or to the moment of the call. */
module WeatherTypes {

  /** `new Date(Date.now() + n hours).toISOString()` at table-building time,
      or an ISO string read from the clock during a call. */
  datatype Instant = LoadTimePlusHours(hours: nat) | CallTime(iso: string)

  /** The calendar date (`toISOString().split('T')[0]`) that is `days` days
      after the tables were built, or after the call. */
  datatype Day = LoadDayPlus(days: nat) | CallDayPlus(days: nat)

  datatype WeatherData = WeatherData(
    location: string,
    temperature: int,
    humidity: int,
    windSpeed: int,
    windDirection: string,
    condition: string,
    description: string,
    pressure: int,
    visibility: int,
    uvIndex: int,
    timestamp: Instant)

  datatype DailyForecast = DailyForecast(
    date: Day,
    highTemp: int,
    lowTemp: int,
    condition: string,
    description: string,
    chanceOfRain: int,
    humidity: int)

  datatype WeatherForecast = WeatherForecast(location: string, forecast: seq<DailyForecast>)

  datatype Severity = Minor | Moderate | Severe | Extreme

  datatype WeatherAlert = WeatherAlert(
    id: string,
    alertType: string,
    severity: Severity,
    title: string,
    description: string,
    areas: seq<string>,
    startTime: Instant,
    endTime: Instant)

  /** A JavaScript number as far as the model needs one: an integer, or NaN. */
  datatype Num = Finite(n: int) | NaN

  /** A draw of `Math.random()`. */
  type Unit = r: real | 0.0 <= r < 1.0

  /** `Math.floor(r * n)` for a draw `r`: an index into a collection of `n` items. */
  function ScaledIndex(r: Unit, n: nat): (k: nat)
    requires n > 0
    ensures k < n
  {
    assert r * (n as real) < n as real by {
      assert (1.0 - r) * (n as real) > 0.0;
    }
    (r * (n as real)).Floor
  }
}
