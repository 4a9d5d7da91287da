/**
 * The weather tool (`WeatherTool` in `tools/implementations/weather_tool.py`), a REST tool
 * over the OpenWeatherMap current-weather API. `execute` checks the city and then the API
 * key. It builds the location `city[,state][,country]` and sends one GET request through
 * the REST base. `parse_output` turns the answer into an error line or into a document
 * of the fields it picks out, followed by notes on units.
 *
 * The environment and the network are parameters, as in the REST base.
 */
module WeatherTool {
  import opened Wrappers
  import opened JsonValue
  import opened PyStr
  import BaseRestTool
  import JsonFormatter

  type Fields = seq<(string, Json)>

  // ----- location -----

  /** A string argument used as a condition: given and non-empty. */
  predicate Given(s: Option<string>)
  {
    s.Some? && s.value != ""
  }

  /** The `location_parts` list, built by appends as `execute` builds it. */
  method LocationParts(city: string, stateCode: Option<string>, countryCode: Option<string>)
    returns (parts: seq<string>)
    ensures parts == [city] + (if Given(stateCode) && countryCode == Some("US") then [stateCode.value] else []) +
      (if Given(countryCode) then [countryCode.value] else [])
  {
    parts := [city];
    if Given(stateCode) && countryCode == Some("US") {
      parts := parts + [stateCode.value];
    }
    if Given(countryCode) {
      parts := parts + [countryCode.value];
    }
  }

  /** `','.join(location_parts)`. */
  function Location(city: string, stateCode: Option<string>, countryCode: Option<string>): string
  {
    Join(",", [city] + (if Given(stateCode) && countryCode == Some("US") then [stateCode.value] else []) +
      (if Given(countryCode) then [countryCode.value] else []))
  }

  /** The location is the city, then the state only for the United States, then the
      country when one is given, separated by commas. */
  lemma {:induction false} LocationShape(city: string, stateCode: Option<string>, countryCode: Option<string>)
    ensures Location(city, stateCode, countryCode) ==
      city + (if Given(stateCode) && countryCode == Some("US") then "," + stateCode.value else "") +
      (if Given(countryCode) then "," + countryCode.value else "")
  {
    var state := if Given(stateCode) && countryCode == Some("US") then [stateCode.value] else [];
    var country := if Given(countryCode) then [countryCode.value] else [];
    if state != [] {
      JoinSnoc(",", [city], stateCode.value);
      assert [city] + state == [city, stateCode.value];
      if country != [] {
        JoinSnoc(",", [city, stateCode.value], countryCode.value);
        assert [city] + state + country == [city, stateCode.value] + [countryCode.value];
      }
    } else if country != [] {
      JoinSnoc(",", [city], countryCode.value);
      assert [city] + state + country == [city] + [countryCode.value];
    } else {
      assert [city] + state + country == [city];
    }
  }

  /** The query parameters; units default to `metric` and language to `en`. */
  function QueryParams(location: string, units: Option<string>, lang: Option<string>, apiKey: string): Json
  {
    JObj([("q", JStr(location)), ("units", JStr(units.GetOr("metric"))), ("lang", JStr(lang.GetOr("en"))),
          ("appid", JStr(apiKey))])
  }

  // ----- parse_output -----

  const Notes := "\n\n## Weather Information Notes: ##\n" +
    "- Temperature and feels_like are in the requested units (Celsius for metric, Fahrenheit for imperial)\n" +
    "- Wind speed is in meters/sec for metric, miles/hour for imperial\n" +
    "- Visibility is in meters\n" +
    "- Pressure is in hPa (hectopascals)"

  const ParseFailure := "An error occurred while parsing the weather information."

  /** `output.get(key, {})` as a dict: `None` when the value is not one (`.get` on it
      raises). */
  function Section(fields: Fields, key: string): Option<Fields>
  {
    var v := Get(fields, key).GetOr(JObj([]));
    if v.JObj? then Some(v.fields) else None
  }

  /** `output.get('weather', [{}])[0]` as a dict: `None` when the value is not a non-empty
      list starting with a dict. */
  function FirstWeather(fields: Fields): Option<Fields>
  {
    var v := Get(fields, "weather").GetOr(JArr([JObj([])]));
    if v.JArr? && v.items != [] && v.items[0].JObj? then Some(v.items[0].fields) else None
  }

  function Field(fields: Fields, key: string): Json
  {
    Get(fields, key).GetOr(JNull)
  }

  /** `weather_info`: `None` when picking the fields raises. */
  function WeatherInfo(output: Fields): Option<Json>
  {
    var sys, coord, main, weather := Section(output, "sys"), Section(output, "coord"), Section(output, "main"), FirstWeather(output);
    var wind, clouds := Section(output, "wind"), Section(output, "clouds");
    if sys.None? || coord.None? || main.None? || weather.None? || wind.None? || clouds.None? then None
    else
      Some(JObj([
        ("location", JObj([
          ("city", Field(output, "name")),
          ("country", Field(sys.value, "country")),
          ("coordinates", JObj([("latitude", Field(coord.value, "lat")), ("longitude", Field(coord.value, "lon"))]))])),
        ("current_weather", JObj([
          ("temperature", Field(main.value, "temp")),
          ("feels_like", Field(main.value, "feels_like")),
          ("humidity", Field(main.value, "humidity")),
          ("pressure", Field(main.value, "pressure")),
          ("description", Field(weather.value, "description")),
          ("main", Field(weather.value, "main")),
          ("wind", JObj([("speed", Field(wind.value, "speed")), ("direction", Field(wind.value, "deg"))])),
          ("clouds", Field(clouds.value, "all")),
          ("visibility", Field(output, "visibility"))]))]))
  }

  /** `parse_output(output)`. */
  function ParseOutput(output: Json): string
  {
    if !output.JObj? then Str(output)
    else if "error" in Keys(output.fields) then "Error: " + Str(Get(output.fields, "error").value)
    else if Get(output.fields, "cod") != Some(JNum(200)) then
      "Error: " + Str(Get(output.fields, "message").GetOr(JStr("Unknown error")))
    else
      match WeatherInfo(output.fields)
      case None => ParseFailure
      case Some(info) =>
        match JsonFormatter.FormatJsonToDocument(info, 0, JsonFormatter.Defaults)
        case Failure(_) => ParseFailure
        case Success(doc) => doc + Notes
  }

  /** Anything but a dict is given back as its text; a dict with an `error` entry, or
      without `cod` 200, gives an error line; a weather answer whose fields can be picked
      out gives the formatted document followed by the notes. */
  lemma {:induction false} ParseOutputCases(output: Json)
    ensures !output.JObj? ==> ParseOutput(output) == Str(output)
    ensures output.JObj? && Get(output.fields, "error").Some? ==>
      ParseOutput(output) == "Error: " + Str(Get(output.fields, "error").value)
    ensures (output.JObj? && Get(output.fields, "error").None? && Get(output.fields, "cod") != Some(JNum(200))) ==>
      ParseOutput(output) == "Error: " + Str(Get(output.fields, "message").GetOr(JStr("Unknown error")))
    ensures (output.JObj? && Get(output.fields, "error").None? && Get(output.fields, "cod") == Some(JNum(200)) &&
      WeatherInfo(output.fields).Some?) ==>
      ParseOutput(output) == Join("", JsonFormatter.Lines(JsonFormatter.Defaults, WeatherInfo(output.fields).value, 0)) + Notes
  {
  }

  /** `output.get(key)` is absent or a dict. */
  predicate DictOrAbsent(output: Fields, key: string)
  {
    Get(output, key).None? || Get(output, key).value.JObj?
  }

  /** The fields can be picked out exactly when every section is absent or a dict and the
      weather entry is absent or a non-empty list starting with a dict. */
  lemma {:induction false} WeatherInfoDefined(output: Fields)
    ensures WeatherInfo(output).Some? <==>
      DictOrAbsent(output, "sys") && DictOrAbsent(output, "coord") && DictOrAbsent(output, "main") &&
      DictOrAbsent(output, "wind") && DictOrAbsent(output, "clouds") &&
      (Get(output, "weather").None? ||
       (Get(output, "weather").value.JArr? && Get(output, "weather").value.items != [] &&
        Get(output, "weather").value.items[0].JObj?))
  {
  }

  /** A successful answer whose fields can be picked out always parses into a document
      followed by the notes, never into the parse failure. */
  lemma {:induction false} WellFormedAnswer(output: Fields)
    requires Get(output, "error").None? && Get(output, "cod") == Some(JNum(200))
    requires WeatherInfo(output).Some?
    ensures exists doc :: ParseOutput(JObj(output)) == doc + Notes
    ensures ParseOutput(JObj(output)) != ParseFailure
  {
    var doc := Join("", JsonFormatter.Lines(JsonFormatter.Defaults, WeatherInfo(output).value, 0));
    ParseOutputCases(JObj(output));
    assert ParseOutput(JObj(output)) == doc + Notes;
    assert |Notes| > |ParseFailure|;
  }

  // ----- execute -----

  const Headers: Fields := [("Accept", JStr("application/json")), ("User-Agent", JStr("WeatherTool/1.0"))]

  /** `execute(city=..., state_code=..., country_code=..., units=..., lang=...)`: the
      tool's answer, or the exception raised. */
  function Execute(
    city: Option<string>, stateCode: Option<string>, countryCode: Option<string>,
    units: Option<string>, lang: Option<string>,
    s: BaseRestTool.Settings, requestMiddleware: seq<Json -> Json>,
    responseMiddleware: seq<BaseRestTool.Payload -> BaseRestTool.Payload>,
    env: string -> Option<string>, network: BaseRestTool.Network): Result<string>
  {
    if !Given(city) then Failure("City parameter is required")
    else if s.apiKeyEnv.None? then Failure("TypeError")
    else
      var apiKey := env(s.apiKeyEnv.value);
      if !Given(apiKey) then Failure("API key not found in environment variable: " + s.apiKeyEnv.value)
      else
        var params := QueryParams(Location(city.value, stateCode, countryCode), units, lang, apiKey.value);
        var req := BaseRestTool.Request("GET", params, JNull, false, Some(s.endpoint), Headers, "json", None);
        match BaseRestTool.MakeRequestSpec(s, requestMiddleware, responseMiddleware, req, env, Failure("no token"), network)
        case Failure(e) => Failure(e)
        case Success(p) => Success(ParseOutput(BaseRestTool.AsOutput(p)))
  }

  /** A missing city is refused before the API key is looked up. */
  lemma {:induction false} CityCheckedFirst(
    city: Option<string>, stateCode: Option<string>, countryCode: Option<string>, units: Option<string>,
    lang: Option<string>, s: BaseRestTool.Settings, requestMiddleware: seq<Json -> Json>,
    responseMiddleware: seq<BaseRestTool.Payload -> BaseRestTool.Payload>,
    env: string -> Option<string>, network: BaseRestTool.Network)
    requires !Given(city)
    ensures Execute(city, stateCode, countryCode, units, lang, s, requestMiddleware, responseMiddleware, env, network) ==
      Failure("City parameter is required")
  {
  }

  /** With a city but no API key in the environment, the tool names the variable and sends
      nothing. */
  lemma {:induction false} ApiKeyRequired(
    city: string, stateCode: Option<string>, countryCode: Option<string>, units: Option<string>,
    lang: Option<string>, s: BaseRestTool.Settings, requestMiddleware: seq<Json -> Json>,
    responseMiddleware: seq<BaseRestTool.Payload -> BaseRestTool.Payload>,
    env: string -> Option<string>, network: BaseRestTool.Network)
    requires city != "" && s.apiKeyEnv.Some? && !Given(env(s.apiKeyEnv.value))
    ensures Execute(Some(city), stateCode, countryCode, units, lang, s, requestMiddleware, responseMiddleware, env, network) ==
      Failure("API key not found in environment variable: " + s.apiKeyEnv.value)
  {
  }

  /** The request carries the location, the key as `appid`, and `metric` and `en` unless
      other units or another language are asked for. */
  lemma {:induction false} QueryDefaults(location: string, units: Option<string>, lang: Option<string>, apiKey: string)
    ensures var p := QueryParams(location, units, lang, apiKey).fields;
      Get(p, "q") == Some(JStr(location)) && Get(p, "appid") == Some(JStr(apiKey)) &&
      (units.None? ==> Get(p, "units") == Some(JStr("metric"))) &&
      (units.Some? ==> Get(p, "units") == Some(JStr(units.value))) &&
      (lang.None? ==> Get(p, "lang") == Some(JStr("en"))) &&
      (lang.Some? ==> Get(p, "lang") == Some(JStr(lang.value)))
  {
    assert "q"[0] == 'q' && "units"[0] == 'u' && "lang"[0] == 'l' && "appid"[0] == 'a';
    var p := QueryParams(location, units, lang, apiKey).fields;
    assert Get(p, "lang") == Get(p[1..], "lang") == Get(p[2..], "lang");
    assert Get(p, "appid") == Get(p[1..], "appid") == Get(p[2..], "appid") == Get(p[3..], "appid");
  }
}
