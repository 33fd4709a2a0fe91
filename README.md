# Agent SDK trial: the tools and the conversation context, in Dafny

The repository consists of four demonstration scripts for a conversational-agent SDK.
Almost everything in them builds SDK objects (`Agent`, `Runner`) and logs.
Two pieces of logic belong to the repository itself, and this project models both:

- **The conversation context** (`my_project/04_context.py`).
  `ConversationContext` holds a mutable preference table (`user_preferences`) and an
  append-only log (`conversation_history`).
  Two tools work on it: `set_preference` stores one preference and logs one note, and
  `get_user_preferences` lists every preference, or gives a fixed sentence when the
  table is empty.
  The class is a Dafny `class` whose methods update its fields in place.
  The Python dict's insertion order is a `seq` of keys kept beside the `map`:
  a new key is appended, and an overwritten key keeps its position.
  `get_user_preferences` is a function that reads the context.
- **The mock weather lookup `get_weather`** (`my_project/02_tool.py`, `my_project/03_pydantic.py`).
  It looks a city up in a four-entry table and falls back to 20 degrees with the
  condition 不明.
  It converts to Fahrenheit only when `unit.upper() == "F"`, and labels the result with
  the upper-cased unit.
  The two copies of `get_weather` differ only in Sapporo's condition (雨 and 雹), so
  `Weather.GetWeather` takes the table as a parameter.
  `WeatherTool` and `StructuredWeather` fix the two tables.
  `StructuredWeather.WeatherResponse` is the five-field output record of the
  structured script.

Files:

- `text.dfy` (module `Text`): ASCII `upper()`, `sep.join(parts)`, substring and suffix tests.
- `weather.dfy` (modules `Weather`, `WeatherTool`, `StructuredWeather`).
- `context.dfy` (module `Context`).

## Model

| member | source | states |
|---|---|---|
| `Text.Upper` | my_project/02_tool.py:36 | `upper()` keeps the length and upper-cases every character (ASCII letters only) |
| `Text.UpperIdempotent` | my_project/02_tool.py:36 | upper-casing an already upper-cased unit changes nothing |
| `Text.UpperIsF` | my_project/02_tool.py:36 | `unit.upper() == "F"` holds exactly for the units "f" and "F" |
| `Text.Join` | my_project/04_context.py:63 | `", ".join` of no parts is empty and of one part is that part |
| `Text.JoinSnoc` | my_project/04_context.py:63 | joining one more part appends the separator and that part after the earlier joined text, so the parts appear in list order |
| `Text.JoinContainsPart` | my_project/04_context.py:63 | every part occurs in the joined text |
| `Weather.Lookup` | my_project/02_tool.py:32 | a listed location gets its table row; any other gets temperature 20 and condition 不明 |
| `Weather.IsFahrenheit` | my_project/02_tool.py:36 | the test `unit.upper() == "F"` accepts exactly the units "f" and "F" |
| `Weather.ToFahrenheit` | my_project/02_tool.py:37 | `t * 9/5 + 32` over exact reals, which converts back to `t` |
| `Weather.GetWeather` | my_project/02_tool.py:12-39 | the report carries the location as asked, the looked-up condition and the upper-cased unit |
| `Weather.ConversionOnlyForFahrenheit` | my_project/02_tool.py:35-37 | for the units "f" and "F" the temperature is `t * 9/5 + 32` and the label is "F"; for every other unit it is `t` unconverted |
| `Weather.UnitCaseInsensitive` | my_project/02_tool.py:36 | a unit in any letter case gives the same report as its upper-cased form |
| `Weather.FahrenheitRoundTrip` | my_project/02_tool.py:36-37 | a Fahrenheit temperature converts back exactly to the table's Celsius value |
| `Weather.DefaultUnitIsCelsius` | my_project/02_tool.py:12 | leaving out the unit is asking for "C": no conversion, label "C" |
| `Weather.KelvinIsNotConverted` | my_project/02_tool.py:35-39 | the unit "K" returns the Celsius number labelled "K" |
| `Weather.Message` | my_project/02_tool.py:39 | the reply begins with the location, has the condition right after "の天気は", and ends with "°", the unit and "です。" |
| `Weather.MessageShape` | my_project/02_tool.py:39 | the reply for any request starts with the location, contains the looked-up condition and ends with the upper-cased unit and "です。" |
| `WeatherTool.GetWeatherReport` | my_project/02_tool.py:12-39 | the tool script's lookup: location as asked, upper-cased unit, 雨 for Sapporo, 不明 for any location outside the four cities |
| `WeatherTool.KnownCities` | my_project/02_tool.py:24-29 | without conversion, Tokyo, Osaka, Sapporo and Fukuoka report 22/晴れ, 24/曇り, 15/雨 and 26/快晴 |
| `WeatherTool.UnknownCity` | my_project/02_tool.py:32-37 | an unlisted location reports 不明 at 20 degrees, or 68 when converted to Fahrenheit |
| `WeatherTool.TokyoInKelvin` | my_project/02_tool.py:62 | a tool call for Tokyo in "K", as the script's Kelvin question calls for, yields 22 labelled "K" |
| `WeatherTool.TokyoInFahrenheit` | my_project/02_tool.py:36-37 | "f" and "F" give the same report for Tokyo, 71.6 degrees |
| `StructuredWeather.GetWeatherReport` | my_project/03_pydantic.py:8-35 | the structured script's lookup: location as asked, upper-cased unit, 雹 for Sapporo, 不明 for any location outside the four cities |
| `StructuredWeather.SapporoHail` | my_project/03_pydantic.py:20-33 | Sapporo reports hail at 15 degrees, or 59 in Fahrenheit |
| `StructuredWeather.SameAsToolExceptSapporo` | my_project/03_pydantic.py:20-28 | the two copies of `get_weather` agree on every location but Sapporo, where only the condition differs |
| `Context.OrderCountsKeys` | my_project/04_context.py:15 | a dict's insertion order lists exactly as many keys as the dict has entries |
| `Context.ConversationContext.constructor` | my_project/04_context.py:13-17 | a new context has no preferences and an empty history |
| `Context.ConversationContext.AddPreference` | my_project/04_context.py:19-21 | the key now maps to the value and every other key is unchanged; an existing key is overwritten in place, so the key count stays the same; a new key is appended to the order; the history is untouched |
| `Context.ConversationContext.LogInteraction` | my_project/04_context.py:23-25 | the message is appended: the history grows by one and earlier entries stay; the preferences are untouched |
| `Context.ChangeNote` | my_project/04_context.py:47-48 | the change note starts with the key, has the value right after "の設定を", and ends with "に変更しました" |
| `Context.SetPreference` | my_project/04_context.py:33-48 | stores the preference as `add_preference` does, appends exactly one note `key + "の設定を" + value + "に変更しました"` and returns that note followed by "。" |
| `Context.Entries` | my_project/04_context.py:63 | the comprehension yields one entry per stored key, in insertion order |
| `Context.EntryShape` | my_project/04_context.py:63 | the i-th entry starts with the i-th inserted key and ": " and ends with that key's value |
| `Context.Render` | my_project/04_context.py:58-63 | the listing is "まだ設定がありません。" exactly when the table is empty; otherwise it begins with "現在の設定: " |
| `Context.RenderListsEveryPreference` | my_project/04_context.py:63 | every stored preference appears in the listing as "key: value" |
| `Context.RenderOneLinePerPreference` | my_project/04_context.py:63 | the entry list has exactly as many entries as there are stored preferences, the i-th being "key: value" for the i-th inserted key |
| `Context.OrderedAppend` | my_project/04_context.py:21 | storing a new key appends it to the insertion order, which still lists every key once |
| `Context.EntriesAppend` | my_project/04_context.py:21 | storing a new key appends its entry after the earlier entries, which are unchanged |
| `Context.RenderFirstKey` | my_project/04_context.py:63 | after the first preference is stored, the listing is "現在の設定: " followed by "key: value" |
| `Context.RenderNextKey` | my_project/04_context.py:63 | storing a further new key extends the earlier listing by ", " and "key: value" |
| `Context.RenderAppendsNewKey` | my_project/04_context.py:21-63 | the listing follows insertion order: a newly stored key's entry comes last, after ", " when earlier entries exist |
| `Context.RenderOverwritesInPlace` | my_project/04_context.py:21-63 | overwriting a stored key replaces its entry where it stands; every other entry keeps its text and its place |
| `Context.GetUserPreferences` | my_project/04_context.py:51-63 | reads the context without changing it; the fixed sentence exactly when nothing is stored, and every stored preference listed otherwise |
| `Context.RememberAcrossTurns` | my_project/04_context.py:85-112 | storing temperature_unit = F and then listing gives "temperature_unitの設定をFに変更しました。" and the heading "現在の設定: " followed by "temperature_unit: F"; a second read gives the same listing |

## Left out

- Agent construction, instructions, hand-offs, guardrails and every `Runner.run`/`Runner.run_sync` call: these run inside the SDK and the model provider, whose code is not part of this model.
- `my_project/01_sample.py` as a whole: its only local logic is the one-line negation that sets the guardrail's tripwire.
- Which tool the agent calls and with which arguments is decided by the language model. `Context.RememberAcrossTurns` and `WeatherTool.TokyoInKelvin` fix the tool calls that the scripts' questions ask for; they are the intended calls, not a record of what the model chooses.
- The `@function_tool` decorator, `RunContextWrapper` and pydantic validation are library behaviour. The context tools take the `ConversationContext` directly. This assumes that the wrapper's `agent_context` attribute, which both tools use (my_project/04_context.py:45, 47, 59), yields the `ConversationContext` passed to the runner. The wrapper's code is not part of this model. `WeatherResponse` is declared as a record, but nothing fills it, because the model provider does.
- `Weather.Message`: the printed form of the temperature (`22`, `71.6`, `59.0`) is a parameter, because Python's float-to-text conversion is not modelled. The reply's location, condition and unit parts are stated.
- `Weather.GetWeather`: the temperature is an exact real, so the floating-point rounding of `temp * 9/5 + 32` is not modelled.
- `Text.Upper`: only ASCII letters are upper-cased. Python's full Unicode case mapping (which can change a string's length, as for "ß") is not modelled.
- Logging through `logger` and the scripts' top-level execution at import time.
