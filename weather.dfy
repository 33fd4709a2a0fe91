/** The mock weather lookup `get_weather`, shared by the plain tool script
    and the structured-output script. The two copies of `get_weather` are the
    same code over four-city tables that differ only in Sapporo's condition,
    so the lookup here takes the table as a parameter; WeatherTool and
    StructuredWeather fix it. */
module Weather {
  import Text

  /** One row of the mock table: a temperature in degrees Celsius and a condition. */
  datatype Observation = Observation(temp: int, condition: string)

  /** A city name to its mock observation, as the dictionary `weather_data`. */
  type Table = map<string, Observation>

  /** What `get_weather` reports: the location as asked, the condition, the
      temperature (converted when Fahrenheit was requested) and the
      upper-cased unit label. The temperature is an exact real number. */
  datatype Report = Report(location: string, condition: string, temperature: real, unit: string)

  /** Used for every location missing from the table. */
  const UNKNOWN: Observation := Observation(20, "不明")

  /** `weather_data.get(location, default)`. */
  function Lookup(table: Table, location: string): (o: Observation)
    ensures location in table ==> o == table[location]
    ensures location !in table ==> o.temp == 20 && o.condition == "不明"
  {
    if location in table then table[location] else UNKNOWN
  }

  /** The unit test `unit.upper() == "F"`, which accepts exactly "f" and "F". */
  predicate IsFahrenheit(unit: string)
    ensures IsFahrenheit(unit) <==> unit == "f" || unit == "F"
  {
    Text.UpperIsF(unit);
    Text.Upper(unit) == "F"
  }

  /** `(temp * 9/5) + 32`, stated exactly. */
  function ToFahrenheit(celsius: real): (f: real)
    ensures (f - 32.0) * 5.0 / 9.0 == celsius
  {
    celsius * 9.0 / 5.0 + 32.0
  }

  /** `get_weather(location, unit)` over a given table: look the location up,
      convert the temperature only when the unit is Fahrenheit, and label the
      result with the upper-cased unit. */
  function GetWeather(table: Table, location: string, unit: string := "C"): (r: Report)
    ensures r.location == location && r.unit == Text.Upper(unit)
    ensures r.condition == Lookup(table, location).condition
  {
    var observed := Lookup(table, location);
    var temp := if IsFahrenheit(unit) then ToFahrenheit(observed.temp as real)
                else observed.temp as real;
    Report(location, observed.condition, temp, Text.Upper(unit))
  }

  /** The reported temperature is the table's Celsius value, passed through
      the Fahrenheit formula exactly when the unit is "f" or "F". */
  lemma ConversionOnlyForFahrenheit(table: Table, location: string, unit: string)
    ensures var r := GetWeather(table, location, unit);
            var t := Lookup(table, location).temp as real;
            (unit == "f" || unit == "F" ==> r.temperature == t * 9.0 / 5.0 + 32.0 && r.unit == "F")
            && (unit != "f" && unit != "F" ==> r.temperature == t && r.unit != "F")
  {
    Text.UpperIsF(unit);
  }

  /** The unit comparison ignores case: asking in any letter case gives the
      same report as asking with the upper-cased unit. */
  lemma {:induction false} UnitCaseInsensitive(table: Table, location: string, unit: string)
    ensures GetWeather(table, location, unit) == GetWeather(table, location, Text.Upper(unit))
  {
    Text.UpperIdempotent(unit);
  }

  /** A Fahrenheit report can be converted back to the table's Celsius value. */
  lemma FahrenheitRoundTrip(table: Table, location: string, unit: string)
    requires IsFahrenheit(unit)
    ensures var r := GetWeather(table, location, unit);
            (r.temperature - 32.0) * 5.0 / 9.0 == Lookup(table, location).temp as real
  {
  }

  /** The default unit is Celsius: the temperature is the table value, unconverted. */
  lemma DefaultUnitIsCelsius(table: Table, location: string)
    ensures GetWeather(table, location) == GetWeather(table, location, "C")
    ensures GetWeather(table, location).temperature == Lookup(table, location).temp as real
    ensures GetWeather(table, location).unit == "C"
  {
    assert Text.Upper("C") == "C";
  }

  /** Any unit other than F, Kelvin included, is not converted: the Celsius
      number comes back carrying the requested label. */
  lemma KelvinIsNotConverted(table: Table, location: string)
    ensures GetWeather(table, location, "K").temperature == Lookup(table, location).temp as real
    ensures GetWeather(table, location, "K").unit == "K"
  {
    Text.UpperIsF("K");
    assert Text.Upper("K") == "K";
  }

  /** The reply sentence `f"{location}の天気は{condition}で、気温は{temp}°{UNIT}です。"`;
      `shown` is the printed form of the temperature. */
  function Message(r: Report, shown: string): (s: string)
    ensures Text.OccursAt(s, r.location, 0)
    ensures Text.OccursAt(s, r.condition, |r.location| + 4)
    ensures Text.EndsWith(s, "°" + r.unit + "です。")
  {
    r.location + "の天気は" + r.condition + "で、気温は" + shown + "°" + r.unit + "です。"
  }

  /** The sentence names the location, then the condition, and ends with the unit label. */
  lemma MessageShape(table: Table, location: string, unit: string, shown: string)
    ensures var s := Message(GetWeather(table, location, unit), shown);
            && location <= s
            && Text.Contains(s, Lookup(table, location).condition)
            && Text.EndsWith(s, "°" + Text.Upper(unit) + "です。")
  {
    var r := GetWeather(table, location, unit);
    var s := Message(r, shown);
    assert s[..|location|] == location;
    assert Text.OccursAt(s, r.condition, |location| + 4);
  }
}

/** `get_weather` as defined in the plain tool script. */
module WeatherTool {
  import Text
  import opened Weather

  /** `weather_data` of the tool script: Sapporo reports rain. */
  const WEATHER_DATA: Table := map[
    "東京" := Observation(22, "晴れ"),
    "大阪" := Observation(24, "曇り"),
    "札幌" := Observation(15, "雨"),
    "福岡" := Observation(26, "快晴")
  ]

  /** `get_weather(location, unit="C")` of the tool script. */
  function GetWeatherReport(location: string, unit: string := "C"): (r: Report)
    ensures r.location == location && r.unit == Text.Upper(unit)
    ensures location !in {"東京", "大阪", "札幌", "福岡"} ==> r.condition == "不明"
    ensures location == "札幌" ==> r.condition == "雨"
  {
    Weather.GetWeather(WEATHER_DATA, location, unit)
  }

  /** The four cities report their own rows; everything else the default row. */
  lemma KnownCities(unit: string)
    requires !IsFahrenheit(unit)
    ensures GetWeatherReport("東京", unit).temperature == 22.0 && GetWeatherReport("東京", unit).condition == "晴れ"
    ensures GetWeatherReport("大阪", unit).temperature == 24.0 && GetWeatherReport("大阪", unit).condition == "曇り"
    ensures GetWeatherReport("札幌", unit).temperature == 15.0 && GetWeatherReport("札幌", unit).condition == "雨"
    ensures GetWeatherReport("福岡", unit).temperature == 26.0 && GetWeatherReport("福岡", unit).condition == "快晴"
  {
  }

  /** An unlisted location gets 20 degrees and an unknown condition. */
  lemma UnknownCity(location: string, unit: string)
    requires location !in WEATHER_DATA
    ensures GetWeatherReport(location, unit).condition == "不明"
    ensures !IsFahrenheit(unit) ==> GetWeatherReport(location, unit).temperature == 20.0
    ensures IsFahrenheit(unit) ==> GetWeatherReport(location, unit).temperature == 68.0
  {
  }

  /** The tool call that the script's Kelvin question calls for: Tokyo in
      Kelvin gives the Celsius 22 labelled K. */
  lemma TokyoInKelvin()
    ensures GetWeatherReport("東京", "K") == Report("東京", "晴れ", 22.0, "K")
  {
    KelvinIsNotConverted(WEATHER_DATA, "東京");
  }

  /** Fahrenheit in either letter case converts Tokyo's 22 degrees to 71.6. */
  lemma TokyoInFahrenheit()
    ensures GetWeatherReport("東京", "f") == GetWeatherReport("東京", "F")
    ensures GetWeatherReport("東京", "F").temperature == 71.6
  {
    Text.UpperIsF("f");
    Text.UpperIsF("F");
    assert Text.Upper("f") == "F";
  }
}

/** `get_weather` and the `WeatherResponse` output record of the
    structured-output script. */
module StructuredWeather {
  import Text
  import opened Weather
  import WeatherTool

  /** `weather_data` of the structured-output script: Sapporo reports hail. */
  const WEATHER_DATA: Table := map[
    "東京" := Observation(22, "晴れ"),
    "大阪" := Observation(24, "曇り"),
    "札幌" := Observation(15, "雹"),
    "福岡" := Observation(26, "快晴")
  ]

  /** The structured answer the agent must produce: exactly these five fields. */
  datatype WeatherResponse = WeatherResponse(
    location: string,
    temperature: real,
    unit: string,
    condition: string,
    recommendation: string)

  /** `get_weather(location, unit="C")` of the structured-output script. */
  function GetWeatherReport(location: string, unit: string := "C"): (r: Report)
    ensures r.location == location && r.unit == Text.Upper(unit)
    ensures location !in {"東京", "大阪", "札幌", "福岡"} ==> r.condition == "不明"
    ensures location == "札幌" ==> r.condition == "雹"
  {
    Weather.GetWeather(WEATHER_DATA, location, unit)
  }

  /** Sapporo is 15 degrees with hail here; converted, 59 degrees Fahrenheit. */
  lemma SapporoHail(unit: string)
    ensures GetWeatherReport("札幌", unit).condition == "雹"
    ensures !IsFahrenheit(unit) ==> GetWeatherReport("札幌", unit).temperature == 15.0
    ensures IsFahrenheit(unit) ==> GetWeatherReport("札幌", unit).temperature == 59.0
  {
  }

  /** The two scripts' lookups agree on every location except Sapporo, and
      there they differ only in the condition. */
  lemma SameAsToolExceptSapporo(location: string, unit: string)
    ensures location != "札幌" ==> GetWeatherReport(location, unit) == WeatherTool.GetWeatherReport(location, unit)
    ensures location == "札幌" ==>
              GetWeatherReport(location, unit).temperature == WeatherTool.GetWeatherReport(location, unit).temperature
              && GetWeatherReport(location, unit).condition != WeatherTool.GetWeatherReport(location, unit).condition
  {
    assert location != "札幌" ==> Lookup(WEATHER_DATA, location) == Lookup(WeatherTool.WEATHER_DATA, location);
  }
}
