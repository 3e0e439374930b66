/** The tool catalogue, the tool router and the JSON-RPC envelope of
    http-server.ts, and its decision which handler answers an HTTP request.
    The service reads `data`; the clock and the random draws come in `env`. */
module HttpServer {
  import opened Wrappers
  import opened Text
  import opened Entries
  import opened Seqs
  import opened WeatherTypes
  import opened MockData
  import opened LocationSearch
  import opened WeatherService
  import opened Json

  const ProtocolVersion := "2025-03-26"
  const ServerName := "weather-mcp-http"
  const ServerVersion := "1.0.0"

  /** The codes of section 5.1 of the JSON-RPC 2.0 Specification in use. */
  const ParseErrorCode := -32700
  const MethodNotFoundCode := -32601
  const InternalErrorCode := -32603

  // ---------------------------------------------------------------------
  // getAvailableTools

  datatype PropertyType = StringType | NumberType

  datatype Property = Property(
    name: string,
    propertyType: PropertyType,
    description: string,
    minimum: Option<int>,
    maximum: Option<int>)

  /** A tool and its input schema; `required: None` is a schema without a
      `required` list. */
  datatype Tool = Tool(name: string, description: string, properties: seq<Property>, required: Option<seq<string>>)

  function ToolNames(tools: seq<Tool>): (names: seq<string>)
    ensures |names| == |tools| && forall i :: 0 <= i < |tools| ==> names[i] == tools[i].name
  {
    seq(|tools|, i requires 0 <= i < |tools| => tools[i].name)
  }

  /** `getAvailableTools()`. */
  function AvailableTools(): (tools: seq<Tool>)
    ensures ToolNames(tools) ==
      ["get_current_weather", "get_weather_forecast", "get_weather_alerts", "search_locations", "get_weather_stats"]
  {
    [ Tool("get_current_weather", "Get current weather information for a specified location",
        [Property("location", StringType, "Location name (e.g., Hong Kong, Tokyo, London)", None, None)],
        Some(["location"])),
      Tool("get_weather_forecast", "Get weather forecast for a specified location",
        [Property("location", StringType, "Location name", None, None),
         Property("days", NumberType, "Forecast days (1-7 days, default 3 days)", Some(1), Some(7))],
        Some(["location"])),
      Tool("get_weather_alerts", "Get weather alert information",
        [Property("location", StringType, "Location name (optional, if not provided will get all alerts)", None, None)],
        None),
      Tool("search_locations", "Search supported locations",
        [Property("query", StringType, "Search keyword", None, None)],
        Some(["query"])),
      Tool("get_weather_stats", "Get weather statistics information", [], None) ]
  }

  /** The names a tool's `properties` object declares, in order. */
  function PropertyNames(props: seq<Property>): (names: seq<string>)
    ensures |names| == |props| && forall i :: 0 <= i < |props| ==> names[i] == props[i].name
  {
    if props == [] then [] else [props[0].name] + PropertyNames(props[1..])
  }

  /** The catalogue: five tools with distinct names; `location` is required by
      the first two, `query` by `search_locations`, nothing by the other two;
      every required name is a declared property; `days` allows 1 to 7. */
  lemma CatalogueShape()
    ensures |AvailableTools()| == 5 && NoDup(ToolNames(AvailableTools()))
    ensures AvailableTools()[0].required == Some(["location"])
    ensures AvailableTools()[1].required == Some(["location"])
    ensures AvailableTools()[2].required.None? && AvailableTools()[4].required.None?
    ensures AvailableTools()[3].required == Some(["query"])
    ensures forall i, r :: (0 <= i < 5 && AvailableTools()[i].required.Some? && r in AvailableTools()[i].required.value
      ==> r in PropertyNames(AvailableTools()[i].properties))
    ensures AvailableTools()[1].properties[1] == Property("days", NumberType,
      "Forecast days (1-7 days, default 3 days)", Some(1), Some(7))
  {
    var tools := AvailableTools();
    var names := ToolNames(tools);
    assert names == ["get_current_weather", "get_weather_forecast", "get_weather_alerts", "search_locations", "get_weather_stats"];
    assert names[0] != names[1] && names[0] != names[2] && names[0] != names[3] && names[0] != names[4];
    assert names[1] != names[2] && names[1] != names[3] && names[1] != names[4];
    assert names[2] != names[3] && names[2] != names[4] && names[3] != names[4];
    assert PropertyNames(tools[0].properties) == ["location"];
    assert PropertyNames(tools[1].properties) == ["location", "days"];
    assert PropertyNames(tools[3].properties) == ["query"];
  }

  // ---------------------------------------------------------------------
  // the tool handlers

  /** The clock reading and random draws a call consumes. */
  datatype Env = Env(now: string, pick: Unit, days: nat -> DayDraw)

  /** What a handler serialises with `JSON.stringify(value, null, 2)`. */
  datatype ToolValue =
    | CurrentWeather(weather: WeatherData)
    | Forecast(forecast: WeatherForecast)
    | Alerts(alerts: seq<WeatherAlert>)
    | Locations(names: seq<string>)
    | Stats(stats: WeatherStats)

  /** The text of a content item: a message, or the serialised value. */
  datatype ContentText = Plain(message: string) | Serialized(value: ToolValue)

  /** `{content: [{type: "text", text}...], isError?}`. */
  datatype ToolResult = ToolResult(content: seq<ContentText>, isError: Option<bool>)

  /** A computation that either produces a value or throws a `TypeError`
      with the given message. */
  datatype Outcome<T> = Ok(value: T) | Fault(message: string)

  /** The `TypeError` messages the handlers can raise. */
  function DestructureMessage(first: string, holder: string, what: string): string {
    "Cannot destructure property '" + first + "' of '" + holder + "' as it is " + what + "."
  }

  function ReadPropertyMessage(what: string, property: string): string {
    "Cannot read properties of " + what + " (reading '" + property + "')"
  }

  /** The `TypeError` of a value with no primitive form. */
  const NotPrimitiveMessage := "Cannot convert object to primitive value"

  /** The message of what the `default` branch throws: printing the name
      into the template literal may itself throw first. */
  function UnknownToolMessage(name: Option<Json>): string {
    match StringOf(name)
    case Some(s) => "Unknown tool: " + s
    case None => NotPrimitiveMessage
  }

  /** The object-destructuring `const { first, ... } = holder`: `undefined`
      and `null` throw; an object gives its members; any other value has
      none of the properties read here. */
  function Destructure(v: Option<Json>, first: string, holder: string): (r: Outcome<map<string, Json>>)
    ensures r.Fault? <==> v.None? || v == Some(JNull)
    ensures v.Some? && v.value.JObj? ==> r == Ok(v.value.members)
  {
    match v
    case None => Fault(DestructureMessage(first, holder, "undefined"))
    case Some(JNull) => Fault(DestructureMessage(first, holder, "null"))
    case Some(JObj(members)) => Ok(members)
    case Some(_) => Ok(map[])
  }

  /** The receiver of `variable.toLowerCase()`: only a string has the method. */
  function Receiver(v: Option<Json>, variable: string): (r: Outcome<string>)
    ensures r.Ok? <==> v.Some? && v.value.JStr?
    ensures r.Ok? ==> r.value == v.value.s
  {
    match v
    case None => Fault(ReadPropertyMessage("undefined", "toLowerCase"))
    case Some(JNull) => Fault(ReadPropertyMessage("null", "toLowerCase"))
    case Some(JStr(s)) => Ok(s)
    case Some(_) => Fault(variable + ".toLowerCase is not a function")
  }

  /** `handleCurrentWeather(args)`. */
  function HandleCurrentWeather(data: Dataset, env: Env, args: Option<Json>): Outcome<ToolValue>
    requires data.weather != []
  {
    match Destructure(args, "location", "args")
    case Fault(e) => Fault(e)
    case Ok(members) =>
      match Receiver(Get(members, "location"), "location")
      case Fault(e) => Fault(e)
      case Ok(location) => Ok(CurrentWeather(GetCurrentWeather(data, location, env.now, env.pick)))
  }

  /** The `days = 3` default of the destructuring: it applies only when the
      property is absent. A present value reaches `slice(0, days)` or the
      loop bound `i <= days`, which convert it to a number; `None` is the
      `TypeError` both raise for a value with no primitive form. */
  function DaysArgument(members: map<string, Json>): (days: Option<Num>)
    ensures "days" !in members ==> days == Some(Finite(3))
    ensures "days" in members ==> days == ToNumber(members["days"])
  {
    match Get(members, "days")
    case None => Some(Finite(3))
    case Some(v) => ToNumber(v)
  }

  /** `handleWeatherForecast(args)`. */
  function HandleWeatherForecast(data: Dataset, env: Env, args: Option<Json>): Outcome<ToolValue> {
    match Destructure(args, "location", "args")
    case Fault(e) => Fault(e)
    case Ok(members) =>
      match Receiver(Get(members, "location"), "location")
      case Fault(e) => Fault(e)
      case Ok(location) =>
        match DaysArgument(members)
        case None => Fault(NotPrimitiveMessage)
        case Some(days) => Ok(Forecast(GetWeatherForecast(data, location, days, env.days)))
  }

  /** `handleWeatherAlerts(args)`: a falsy location means every alert. */
  function HandleWeatherAlerts(data: Dataset, args: Option<Json>): Outcome<ToolValue> {
    match Destructure(args, "location", "args")
    case Fault(e) => Fault(e)
    case Ok(members) =>
      var location := Get(members, "location");
      if !Truthy(location) then Ok(Alerts(GetWeatherAlerts(data, None)))
      else
        match Receiver(location, "location")
        case Fault(e) => Fault(e)
        case Ok(name) => Ok(Alerts(GetWeatherAlerts(data, Some(name))))
  }

  /** `handleSearchLocations(args)`. */
  function HandleSearchLocations(data: Dataset, args: Option<Json>): Outcome<ToolValue> {
    match Destructure(args, "query", "args")
    case Fault(e) => Fault(e)
    case Ok(members) =>
      match Receiver(Get(members, "query"), "query")
      case Fault(e) => Fault(e)
      case Ok(query) => Ok(Locations(Search(data.aliases, data.weather, query)))
  }

  /** `handleWeatherStats()`: the arguments are not read. */
  function HandleWeatherStats(data: Dataset): Outcome<ToolValue>
    requires data.weather != []
  {
    Ok(Stats(StatsOf(Values(data.weather))))
  }

  predicate IsToolName(name: Option<Json>, tool: string) {
    name == Some(JStr(tool))
  }

  /** The `switch` of `executeWeatherTool`, before its `catch`. */
  function RunTool(data: Dataset, env: Env, name: Option<Json>, args: Option<Json>): Outcome<ToolValue>
    requires data.weather != []
  {
    if IsToolName(name, "get_current_weather") then HandleCurrentWeather(data, env, args)
    else if IsToolName(name, "get_weather_forecast") then HandleWeatherForecast(data, env, args)
    else if IsToolName(name, "get_weather_alerts") then HandleWeatherAlerts(data, args)
    else if IsToolName(name, "search_locations") then HandleSearchLocations(data, args)
    else if IsToolName(name, "get_weather_stats") then HandleWeatherStats(data)
    else Fault(UnknownToolMessage(name))
  }

  /** The envelope: a value becomes one serialised text item without
      `isError`; a fault becomes one text item "Error: " + message with
      `isError: true`. */
  function Envelope(outcome: Outcome<ToolValue>): (r: ToolResult)
    ensures |r.content| == 1
    ensures outcome.Ok? <==> r.isError.None?
    ensures outcome.Ok? ==> r.content[0] == Serialized(outcome.value)
    ensures outcome.Fault? ==> r.isError == Some(true) && r.content[0] == Plain("Error: " + outcome.message)
  {
    match outcome
    case Ok(v) => ToolResult([Serialized(v)], None)
    case Fault(message) => ToolResult([Plain("Error: " + message)], Some(true))
  }

  /** `executeWeatherTool(name, args)`: no fault escapes. */
  function ExecuteWeatherTool(data: Dataset, env: Env, name: Option<Json>, args: Option<Json>): (r: ToolResult)
    requires data.weather != []
    ensures |r.content| == 1
    ensures r.isError.None? || r.isError == Some(true)
    ensures r.isError.None? <==> r.content[0].Serialized?
  {
    Envelope(RunTool(data, env, name, args))
  }

  // ---------------------------------------------------------------------
  // properties of the router

  /** The unknown-tool message names the printed name; a name that cannot be
      printed gives the conversion error instead. */
  lemma UnknownToolMessageCases(name: Option<Json>)
    ensures name.Some? && Unconvertible(name.value) ==>
      UnknownToolMessage(name) == "Cannot convert object to primitive value"
    ensures !(name.Some? && Unconvertible(name.value)) ==>
      StringOf(name).Some? && UnknownToolMessage(name) == "Unknown tool: " + StringOf(name).value
  {
    if name.Some? {
      JsStringFails(name.value);
    }
  }

  /** A name that is not one of the five tools gives the unknown-tool error,
      naming the printed name; a name that cannot be printed gives the
      conversion error instead. */
  lemma UnknownTool(data: Dataset, env: Env, name: Option<Json>, args: Option<Json>)
    requires data.weather != []
    requires name.None? || !name.value.JStr? || name.value.s !in ToolNames(AvailableTools())
    ensures ExecuteWeatherTool(data, env, name, args)
      == ToolResult([Plain("Error: " + UnknownToolMessage(name))], Some(true))
    ensures name.Some? && Unconvertible(name.value) ==>
      ExecuteWeatherTool(data, env, name, args)
        == ToolResult([Plain("Error: " + "Cannot convert object to primitive value")], Some(true))
    ensures !(name.Some? && Unconvertible(name.value)) ==>
      StringOf(name).Some? && ExecuteWeatherTool(data, env, name, args)
        == ToolResult([Plain("Error: " + ("Unknown tool: " + StringOf(name).value))], Some(true))
  {
    assert RunTool(data, env, name, args) == Fault(UnknownToolMessage(name)) by {
      var names := ToolNames(AvailableTools());
      assert names[0] == "get_current_weather" && names[1] == "get_weather_forecast";
      assert names[2] == "get_weather_alerts" && names[3] == "search_locations" && names[4] == "get_weather_stats";
    }
    UnknownToolMessageCases(name);
  }

  /** Every tool that takes arguments faults when they are absent, and the
      fault is reported as an error result; the stats tool does not read them. */
  lemma AbsentArgumentsAreReported(data: Dataset, env: Env, tool: string)
    requires data.weather != []
    requires tool in ToolNames(AvailableTools())
    ensures var property := if tool == "search_locations" then "query" else "location";
      ExecuteWeatherTool(data, env, Some(JStr(tool)), None) ==
        if tool == "get_weather_stats" then Envelope(HandleWeatherStats(data))
        else ToolResult([Plain("Error: " + DestructureMessage(property, "args", "undefined"))], Some(true))
  {
    var names := ToolNames(AvailableTools());
    assert names == ["get_current_weather", "get_weather_forecast", "get_weather_alerts", "search_locations", "get_weather_stats"];
    var property := if tool == "search_locations" then "query" else "location";
    var message := DestructureMessage(property, "args", "undefined");
    if tool != "get_weather_stats" {
      assert Destructure(None, property, "args") == Fault(message);
      assert RunTool(data, env, Some(JStr(tool)), None) == Fault(message);
    }
  }

  /** A missing location is not a string: `toLowerCase` throws, and the
      message reaches the caller. */
  lemma MissingLocationIsReported(data: Dataset, env: Env, members: map<string, Json>)
    requires data.weather != [] && "location" !in members
    ensures ExecuteWeatherTool(data, env, Some(JStr("get_current_weather")), Some(JObj(members)))
      == ToolResult([Plain("Error: " + ReadPropertyMessage("undefined", "toLowerCase"))], Some(true))
    ensures ExecuteWeatherTool(data, env, Some(JStr("get_weather_forecast")), Some(JObj(members)))
      == ToolResult([Plain("Error: " + ReadPropertyMessage("undefined", "toLowerCase"))], Some(true))
  {
    var message := ReadPropertyMessage("undefined", "toLowerCase");
    assert Receiver(Get(members, "location"), "location") == Fault(message);
    assert RunTool(data, env, Some(JStr("get_current_weather")), Some(JObj(members))) == Fault(message);
    assert RunTool(data, env, Some(JStr("get_weather_forecast")), Some(JObj(members))) == Fault(message);
  }

  /** The `switch` sends each tool name to its handler. */
  lemma DispatchCurrentWeather(data: Dataset, env: Env, args: Option<Json>)
    requires data.weather != []
    ensures RunTool(data, env, Some(JStr("get_current_weather")), args) == HandleCurrentWeather(data, env, args)
  {
  }

  lemma DispatchForecast(data: Dataset, env: Env, args: Option<Json>)
    requires data.weather != []
    ensures RunTool(data, env, Some(JStr("get_weather_forecast")), args) == HandleWeatherForecast(data, env, args)
  {
  }

  lemma DispatchAlerts(data: Dataset, env: Env, args: Option<Json>)
    requires data.weather != []
    ensures RunTool(data, env, Some(JStr("get_weather_alerts")), args) == HandleWeatherAlerts(data, args)
  {
  }

  lemma DispatchSearch(data: Dataset, env: Env, args: Option<Json>)
    requires data.weather != []
    ensures RunTool(data, env, Some(JStr("search_locations")), args) == HandleSearchLocations(data, args)
  {
  }

  /** A call of `get_current_weather` with a string location succeeds with
      the service's answer. */
  lemma CurrentWeatherCallSucceeds(data: Dataset, env: Env, location: string)
    requires data.weather != []
    ensures ExecuteWeatherTool(data, env, Some(JStr("get_current_weather")), Some(JObj(map["location" := JStr(location)])))
      == ToolResult([Serialized(CurrentWeather(GetCurrentWeather(data, location, env.now, env.pick)))], None)
  {
    var args := Some(JObj(map["location" := JStr(location)]));
    DispatchCurrentWeather(data, env, args);
    assert Get(args.value.members, "location") == Some(JStr(location));
    assert HandleCurrentWeather(data, env, args) == Ok(CurrentWeather(GetCurrentWeather(data, location, env.now, env.pick)));
  }

  /** A call of `get_weather_forecast` with only a string location succeeds
      with the three-day default. */
  lemma ForecastCallSucceeds(data: Dataset, env: Env, location: string)
    requires data.weather != []
    ensures ExecuteWeatherTool(data, env, Some(JStr("get_weather_forecast")), Some(JObj(map["location" := JStr(location)])))
      == ToolResult([Serialized(Forecast(GetWeatherForecast(data, location, Finite(3), env.days)))], None)
  {
    var args := Some(JObj(map["location" := JStr(location)]));
    DispatchForecast(data, env, args);
    assert Get(args.value.members, "location") == Some(JStr(location)) && Get(args.value.members, "days").None?;
    assert HandleWeatherForecast(data, env, args) == Ok(Forecast(GetWeatherForecast(data, location, Finite(3), env.days)));
  }

  /** A call of `search_locations` with a string query succeeds with the
      search result. */
  lemma SearchCallSucceeds(data: Dataset, env: Env, query: string)
    requires data.weather != []
    ensures ExecuteWeatherTool(data, env, Some(JStr("search_locations")), Some(JObj(map["query" := JStr(query)])))
      == ToolResult([Serialized(Locations(Search(data.aliases, data.weather, query)))], None)
  {
    var args := Some(JObj(map["query" := JStr(query)]));
    DispatchSearch(data, env, args);
    assert Get(args.value.members, "query") == Some(JStr(query));
    assert HandleSearchLocations(data, args) == Ok(Locations(Search(data.aliases, data.weather, query)));
  }

  /** A call of `get_weather_alerts` with no location lists every alert. */
  lemma AlertsCallSucceeds(data: Dataset, env: Env)
    requires data.weather != []
    ensures ExecuteWeatherTool(data, env, Some(JStr("get_weather_alerts")), Some(JObj(map[])))
      == ToolResult([Serialized(Alerts(data.alerts))], None)
  {
    DispatchAlerts(data, env, Some(JObj(map[])));
    assert HandleWeatherAlerts(data, Some(JObj(map[]))) == Ok(Alerts(data.alerts));
  }

  /** `days` is passed through whenever it is present, as the number it
      converts to; a value with no primitive form makes the conversion throw.
      The default 3 applies only when it is absent. */
  lemma DaysPassThrough(data: Dataset, env: Env, location: string, days: Json)
    ensures var args := Some(JObj(map["location" := JStr(location), "days" := days]));
      !Unconvertible(days) ==>
        ToNumber(days).Some? && HandleWeatherForecast(data, env, args)
          == Ok(Forecast(GetWeatherForecast(data, location, ToNumber(days).value, env.days)))
    ensures var args := Some(JObj(map["location" := JStr(location), "days" := days]));
      Unconvertible(days) ==>
        HandleWeatherForecast(data, env, args) == Fault("Cannot convert object to primitive value")
    ensures HandleWeatherForecast(data, env, Some(JObj(map["location" := JStr(location), "days" := JNum(0)])))
      == Ok(Forecast(GetWeatherForecast(data, location, Finite(0), env.days)))
  {
    ToNumberFails(days);
  }

  /** With a falsy location, the alerts tool reports every alert. */
  lemma FalsyLocationGivesAllAlerts(data: Dataset, members: map<string, Json>)
    requires !Truthy(Get(members, "location"))
    ensures HandleWeatherAlerts(data, Some(JObj(members))) == Ok(Alerts(data.alerts))
  {
  }

  // ---------------------------------------------------------------------
  // handleMCPRequest

  datatype RpcError = RpcError(code: int, message: string, data: Option<string>)

  datatype ResultBody =
    /** `toolsCapability` is whether `capabilities` announces `tools: {}`. */
    | Initialized(protocolVersion: string, toolsCapability: bool, serverName: string, serverVersion: string)
    | ToolList(tools: seq<Tool>)
    | ToolCall(call: ToolResult)

  /** A JSON-RPC response; an `id` of `None` is left out when serialised. */
  datatype Response = Response(jsonrpc: string, id: Option<Json>, result: Option<ResultBody>, error: Option<RpcError>)

  /** `createErrorResponse(id, code, message, data?)`: `data` is kept only
      when it is truthy. */
  function CreateErrorResponse(id: Option<Json>, code: int, message: string, data: Option<string>): (r: Response)
    ensures r.jsonrpc == "2.0" && r.id == id && r.result.None? && r.error.Some?
    ensures r.error.value.code == code && r.error.value.message == message
    ensures r.error.value.data.Some? <==> data.Some? && data.value != ""
    ensures r.error.value.data.Some? ==> r.error.value.data == data
  {
    var kept := if data.Some? && data.value != "" then data else None;
    Response("2.0", id, None, Some(RpcError(code, message, kept)))
  }

  function HandleInitialize(id: Option<Json>): Response {
    Response("2.0", id, Some(Initialized(ProtocolVersion, true, ServerName, ServerVersion)), None)
  }

  function HandleToolsList(id: Option<Json>): Response {
    Response("2.0", id, Some(ToolList(AvailableTools())), None)
  }

  /** `handleToolsCall`: destructuring `params` may throw; the tool call
      itself never does. */
  function HandleToolsCall(data: Dataset, env: Env, id: Option<Json>, params: Option<Json>): Outcome<Response>
    requires data.weather != []
  {
    match Destructure(params, "name", "mcpRequest.params")
    case Fault(e) => Fault(e)
    case Ok(members) =>
      Ok(Response("2.0", id, Some(ToolCall(ExecuteWeatherTool(data, env, Get(members, "name"), Get(members, "arguments")))), None))
  }

  /** The members a property read sees on a parsed request: an object's own,
      none for any other non-null value. */
  function RequestMembers(request: Json): map<string, Json> {
    if request.JObj? then request.members else map[]
  }

  /** `handleMCPRequest(request)`. Reading a property of a `null` request
      throws inside the `try`, and reading `id` again in the `catch` throws
      out of it. */
  function HandleMCPRequest(data: Dataset, env: Env, request: Json): (r: Outcome<Response>)
    requires data.weather != []
    ensures r.Fault? <==> request == JNull
    ensures r.Ok? ==> r.value.jsonrpc == "2.0" && r.value.id == Get(RequestMembers(request), "id")
    ensures r.Ok? ==> (r.value.result.Some? <==> r.value.error.None?)
  {
    if request == JNull then Fault(ReadPropertyMessage("null", "id"))
    else
      var members := RequestMembers(request);
      var id := Get(members, "id");
      var rpcMethod := Get(members, "method");
      if rpcMethod == Some(JStr("initialize")) then Ok(HandleInitialize(id))
      else if rpcMethod == Some(JStr("tools/list")) then Ok(HandleToolsList(id))
      else if rpcMethod == Some(JStr("tools/call")) then
        match HandleToolsCall(data, env, id, Get(members, "params"))
        case Ok(response) => Ok(response)
        case Fault(e) => Ok(CreateErrorResponse(id, InternalErrorCode, "Internal error", Some(e)))
      else Ok(CreateErrorResponse(id, MethodNotFoundCode, "Unsupported method", None))
  }

  /** An object request with method `initialize` gets the protocol version,
      the `tools` capability and the fixed server information. */
  lemma InitializeAnswer(data: Dataset, env: Env, members: map<string, Json>)
    requires data.weather != [] && Get(members, "method") == Some(JStr("initialize"))
    ensures HandleMCPRequest(data, env, JObj(members))
      == Ok(Response("2.0", Get(members, "id"), Some(Initialized("2025-03-26", true, "weather-mcp-http", "1.0.0")), None))
  {
  }

  /** Any method other than the three gives code -32601, without `data`. */
  lemma UnknownMethod(data: Dataset, env: Env, members: map<string, Json>)
    requires data.weather != []
    requires Get(members, "method") !in {Some(JStr("initialize")), Some(JStr("tools/list")), Some(JStr("tools/call"))}
    ensures HandleMCPRequest(data, env, JObj(members))
      == Ok(Response("2.0", Get(members, "id"), None, Some(RpcError(-32601, "Unsupported method", None))))
  {
  }

  /** `tools/call` without `params` is an internal error, -32603, carrying
      the destructuring message. */
  lemma ToolsCallWithoutParams(data: Dataset, env: Env, members: map<string, Json>)
    requires data.weather != []
    requires Get(members, "method") == Some(JStr("tools/call")) && "params" !in members
    ensures HandleMCPRequest(data, env, JObj(members))
      == Ok(Response("2.0", Get(members, "id"), None, Some(RpcError(-32603, "Internal error",
        Some(DestructureMessage("name", "mcpRequest.params", "undefined"))))))
  {
    var message := DestructureMessage("name", "mcpRequest.params", "undefined");
    assert Destructure(None, "name", "mcpRequest.params") == Fault(message);
    assert HandleToolsCall(data, env, Get(members, "id"), None) == Fault(message);
  }

  /** `tools/call` with object `params` always succeeds at the JSON-RPC level;
      a failing tool shows only in its `isError` result. */
  lemma ToolsCallAnswers(data: Dataset, env: Env, members: map<string, Json>, params: map<string, Json>)
    requires data.weather != []
    requires Get(members, "method") == Some(JStr("tools/call")) && Get(members, "params") == Some(JObj(params))
    ensures HandleMCPRequest(data, env, JObj(members)) == Ok(Response("2.0", Get(members, "id"),
      Some(ToolCall(ExecuteWeatherTool(data, env, Get(params, "name"), Get(params, "arguments")))), None))
  {
  }

  // ---------------------------------------------------------------------
  // routing

  /** The outcome of `JSON.parse(body)`, with the parser's message on failure. */
  datatype ParseOutcome = Parsed(value: Json) | Unparseable(message: string)

  datatype HttpBody = NoBody | DocumentationPage | EndpointNotFound | RpcReply(response: Response)

  datatype HttpReply = HttpReply(status: nat, body: HttpBody)

  /** `isMCPEndpoint(req)`. */
  predicate IsMCPEndpoint(httpMethod: string, url: string) {
    (url == "/" || url == "/mcp") && httpMethod == "POST"
  }

  /** The reply of `handleMCPEndpoint`: a fault while parsing or answering is
      reported as a parse error with `id: null`. */
  function HandleMCPEndpoint(data: Dataset, env: Env, body: ParseOutcome): (reply: HttpReply)
    requires data.weather != []
    ensures reply.status == 200 || reply.status == 400
    ensures reply.body.RpcReply?
    ensures reply.status == 400 ==> (reply.body.response.id == Some(JNull)
      && reply.body.response.error.Some? && reply.body.response.error.value.code == -32700)
  {
    match body
    case Unparseable(message) =>
      HttpReply(400, RpcReply(CreateErrorResponse(Some(JNull), ParseErrorCode, "Parse Error", Some(message))))
    case Parsed(request) =>
      match HandleMCPRequest(data, env, request)
      case Ok(response) => HttpReply(200, RpcReply(response))
      case Fault(message) =>
        HttpReply(400, RpcReply(CreateErrorResponse(Some(JNull), ParseErrorCode, "Parse Error", Some(message))))
  }

  /** The request listener with `handleHTTPRequest`. */
  function HandleHTTPRequest(data: Dataset, env: Env, httpMethod: string, url: string, body: ParseOutcome): HttpReply
    requires data.weather != []
  {
    if httpMethod == "OPTIONS" then HttpReply(200, NoBody)
    else if IsMCPEndpoint(httpMethod, url) then HandleMCPEndpoint(data, env, body)
    else if url == "/" && httpMethod == "GET" then HttpReply(200, DocumentationPage)
    else HttpReply(404, EndpointNotFound)
  }

  /** The routing table: OPTIONS answers empty, POST to "/" or "/mcp" reaches
      the JSON-RPC endpoint, GET "/" the documentation, and the rest is 404. */
  lemma Routing(data: Dataset, env: Env, httpMethod: string, url: string, body: ParseOutcome)
    requires data.weather != []
    ensures var reply := HandleHTTPRequest(data, env, httpMethod, url, body);
      (reply == HttpReply(200, NoBody) <==> httpMethod == "OPTIONS")
      && (reply.body.RpcReply? <==> httpMethod == "POST" && (url == "/" || url == "/mcp"))
      && (reply.body == DocumentationPage <==> httpMethod == "GET" && url == "/")
      && (reply.status == 404 <==> reply.body == EndpointNotFound)
      && (reply.status == 404 <==> httpMethod != "OPTIONS" && !IsMCPEndpoint(httpMethod, url) && !(httpMethod == "GET" && url == "/"))
  {
  }

  /** An unparseable body gets 400 with code -32700 and `id: null`; a parsed
      request other than `null` gets 200 even when the answer is an error. */
  lemma EndpointStatus(data: Dataset, env: Env, body: ParseOutcome)
    requires data.weather != []
    ensures var reply := HandleMCPEndpoint(data, env, body);
      (reply.status == 400 <==> body.Unparseable? || body == Parsed(JNull))
      && (body.Unparseable? ==>
        reply.body.response == CreateErrorResponse(Some(JNull), -32700, "Parse Error", Some(body.message)))
      && (body.Parsed? && body.value != JNull ==>
        reply == HttpReply(200, RpcReply(HandleMCPRequest(data, env, body.value).value)))
  {
  }
}
