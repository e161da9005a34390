# Air-quality and weather notifier scripts, modelled in Dafny

The repository has four standalone batch scripts. Each one fetches a JSON list
from a public measurement or forecast service, classifies or groups the
records, renders a Telegram message and posts it. This project models the
deterministic step in the middle. It starts where the script has its item
list and ends with the message that would be posted, or with nothing.

- `js_values.dfy` (modules `Wrappers`, `JsValues`): the JavaScript value
  conversions the scripts use, restricted to integers. It covers `Number(text)`,
  `parseInt(text)`, `${...}` rendering of numbers (`NaN`) and of possibly
  `undefined` strings, `slice` and `join`.
- `grades.dfy` (module `Grades`): the PM10 and PM2.5 band tables that
  `getGradeText` and `getGradeEmoji` share. The tables are checked against an
  independent reference: the band index is the number of inclusive upper
  bounds the value exceeds.
- `dust_total.dfy` (module `DustTotal`): the nationwide real-time report. It
  has the inclusive threshold filters (PM10 ≥ 81, PM2.5 ≥ 36), the two line
  lists built by a loop, the two optional sections, and the rule that only a
  non-empty message is sent.
- `weather_alert.dfy` (module `WeatherAlert`): the forecast report. It has
  `getWeatherEmoji` and `getCategoryName`, the grouping of items by forecast
  time (a later item overwrites an earlier one), the rendering loop that
  merges precipitation and sky, and the header's date and time slicing.
- `dust_stats.dfy` (module `DustStats`): the daily statistics report. It has
  `formatDate`, which behaves like the regular-expression replace, the
  empty-list guard, and one block per city in input order.
- `dust_alert.dfy` (module `DustAlert`): the single-province PM2.5 alert. It
  reads the first record only, alerts iff the reading is ≥ 36, and looks the
  grade code up in the 1–4 table.

The mutating loops of the scripts (`forEach` with `push`, `message +=` and the
`timeGroups` dictionary) are methods with `while` loops. Each method is proved
equal to a specification function, and the properties are lemmas about those
functions. `Number(...)` becomes an `Option<int>`, where `None` is `NaN` and
fails every comparison. `parseInt(...)` reads an optional sign and the leading
digits. A field missing from a forecast group is `None`, and it renders as
`undefined`. The region, base date, base time and search date are parameters,
because the scripts take them from the clock or the command line.

Behaviour worth knowing before reading the model:

- No script sends an "all clear" message. An empty report is not sent.
- The thresholds are the constants 81 (PM10) and 36 (PM2.5) of dust_total.js
  and dust_alert.js; they are not configurable.
- No script deduplicates records by region or escapes Markdown, and the model
  does neither.
- A reading that is not a number is treated differently by the scripts. In
  dust_total.js it is never listed. In dust_stats.js it is shown as `NaN`
  with the grade "💀 매우나쁨".
- The sky/precipitation merge tests `data.PTY && data.PTY !== '0'`. An empty
  PTY string is falsy, so it selects the sky text just as "0" does.

## Model

| member | source | states |
|---|---|---|
| `Grades.Classify` | dust_total.js:8-21 | a `NaN` reading is in the highest band; otherwise the band index is the number of inclusive upper bounds (30/80/150 for the tag "PM10", 15/35/75 for every other tag) the value exceeds |
| `Grades.BandsExceededMonotone` | dust_total.js:8-21 | a larger value exceeds at least as many band bounds |
| `Grades.ClassifyMonotone` | dust_total.js:8-21 | for each pollutant the grade never decreases as the value grows |
| `Grades.NaNIsWorst` | dust_total.js:10-13 | `NaN` fails every `<=` test and is graded at least as severe as any number |
| `Grades.Pm10Bands` | dust_total.js:9-13 | PM10 bands are exactly ≤30, 31–80, 81–150, >150; each bound is in the lower band |
| `Grades.Pm25Bands` | dust_total.js:14-19 | for any tag but "PM10" the bands are exactly ≤15, 16–35, 36–75, >75 |
| `JsValues.ParseNumber` | dust_total.js:47-48 | `Number`: "" reads as 0, digit text as its value; a non-digit after the first character, or a first character that is neither digit nor sign, gives `NaN` |
| `JsValues.ParseIntPrefix` | dust_stats.js:58-59 | `parseInt`: a number exactly when the text starts with a digit, or with a sign followed by a digit; never negative unless the text starts with `-` |
| `JsValues.NatText` | dust_total.js:53 | the decimal rendering has no leading zero and reads back as the number |
| `JsValues.LeadingDigits` | dust_stats.js:58-59 | the longest digit prefix: a prefix, all digits, followed by a non-digit or the end |
| `JsValues.Slice` | weather_alert.js:99 | `slice`: in-range bounds give the subsequence, an end past the length is clamped to it, and an empty or out-of-range start gives "" |
| `JsValues.NumberRoundTrip` | dust_total.js:47-48 | `Number` reads back every rendered integer |
| `JsValues.ParseIntRoundTrip` | dust_stats.js:58-59 | `parseInt` reads back a rendered integer whatever non-digit text follows it |
| `JsValues.ParseIntAgreesWithNumber` | dust_stats.js:58-59 | on every non-empty text `Number` accepts, `parseInt` gives the same integer |
| `JsValues.NumberTextNoNewline` | dust_stats.js:62-63 | a rendered number has no newline |
| `DustTotal.GradeText` | dust_total.js:8-21 | `getGradeText` gives one of the four labels, and "매우나쁨 💀" for `NaN` |
| `DustTotal.GradeTextPm10` | dust_total.js:9-13 | each PM10 label is produced exactly on its band |
| `DustTotal.GradeTextPm25` | dust_total.js:14-19 | each PM2.5 label is produced exactly on its band, for "PM25" and every other non-"PM10" tag |
| `DustTotal.GradeTextNaN` | dust_total.js:13 | `NaN` gets "매우나쁨 💀" |
| `DustTotal.BadAreas` | dust_total.js:45-59 | the list after the loop; at most one line per record |
| `DustTotal.Message` | dust_total.js:62-70 | the message built from the two lists; its properties are `DustTotal.MessageEmptyIff` and `DustTotal.MessageSections` |
| `DustTotal.Outcome` | dust_total.js:35-38 | nothing without an item list, and a sent message is never empty |
| `DustTotal.CheckRecord` | dust_total.js:46-58 | one pass of the loop pushes the record's line onto exactly the lists whose threshold its reading reaches |
| `DustTotal.CollectBadAreas` | dust_total.js:45-59 | the loop produces exactly the two specified line lists |
| `DustTotal.Report` | dust_total.js:62-80 | the script's result is the specified outcome: the message if non-empty, nothing otherwise |
| `DustTotal.BadAreasAppend` | dust_total.js:45-59 | the list for a concatenation is the concatenation of the lists, so lines keep record order |
| `DustTotal.BadAreasSingle` | dust_total.js:52-58 | one record adds its line exactly when it reaches the threshold, and nothing else |
| `DustTotal.BadAreasEmptyIff` | dust_total.js:52-58 | a list is empty iff no record reaches its threshold |
| `DustTotal.NaNNeverListed` | dust_total.js:47-56 | a record whose reading is `NaN` is never listed |
| `DustTotal.ThresholdBoundaries` | dust_total.js:24-25 | 81 and 36 are listed, 80 and 35 are not |
| `DustTotal.AreaLineShowsReading` | dust_total.js:52-58 | for canonical integer text, in both sections, the line shows the reading as written with its grade, and the record is listed iff the reading reaches the threshold |
| `DustTotal.MessageEmptyIff` | dust_total.js:62-70 | the message is empty iff both lists are empty |
| `DustTotal.MessageSections` | dust_total.js:64-70 | a non-empty PM10 section opens the message; a non-empty PM2.5 section closes it |
| `DustTotal.SendIff` | dust_total.js:72-80 | a message is sent iff some record reaches one of the two thresholds |
| `DustTotal.NoItemsNoSend` | dust_total.js:35-38 | without an item list nothing is sent |
| `WeatherAlert.WeatherEmoji` | weather_alert.js:9-46 | `getWeatherEmoji`: PTY gives one of the five precipitation texts, SKY one of the two sky texts, and a category outside the five returns the value unchanged |
| `WeatherAlert.CategoryName` | weather_alert.js:49-58 | `getCategoryName`: the result is the code itself exactly when the code has no Korean name |
| `WeatherAlert.Groups` | weather_alert.js:88-95 | `timeGroups` after the loop; its properties are `WeatherAlert.GroupsKeepLast` and `WeatherAlert.GroupsFromItems` |
| `WeatherAlert.TimeOrder` | weather_alert.js:88-95 | the order in which groups are created; its properties are `WeatherAlert.TimeOrderCovers`, `WeatherAlert.TimeOrderDistinct` and `WeatherAlert.TimeOrderFollowsFirstOccurrence` |
| `WeatherAlert.SkyText` | weather_alert.js:103-107 | the merged line is one of the six sky or precipitation texts |
| `WeatherAlert.TimeBlock` | weather_alert.js:99-111 | the text of one group; its shape is `WeatherAlert.TimeBlockLines` |
| `WeatherAlert.Header` | weather_alert.js:82-85 | the header; its shape is `WeatherAlert.HeaderShape` |
| `WeatherAlert.Message` | weather_alert.js:76-112 | what one run sends; see `WeatherAlert.NoItemsNoMessage` and `WeatherAlert.BlocksLines` |
| `WeatherAlert.GroupByTime` | weather_alert.js:88-95 | the grouping loop produces the specified groups and their creation order |
| `WeatherAlert.AppendTimeBlock` | weather_alert.js:99-111 | one pass of the rendering loop appends exactly that time's block |
| `WeatherAlert.RenderBlocks` | weather_alert.js:98-112 | the rendering loop appends exactly the specified blocks of the groups, in the given order |
| `WeatherAlert.Report` | weather_alert.js:76-112 | the script's result is the specified message: nothing for an empty list, else header plus one block per time |
| `WeatherAlert.OrderMatchesGroups` | weather_alert.js:91-93 | a group exists for a time iff the order lists it |
| `WeatherAlert.TimeOrderCovers` | weather_alert.js:89-93 | every forecast time of the input gets a group, and no other time does |
| `WeatherAlert.TimeOrderDistinct` | weather_alert.js:91-93 | each time's group appears once |
| `WeatherAlert.GroupsKeepLast` | weather_alert.js:94 | the group keeps the value of the last item with a given time and category |
| `WeatherAlert.GroupsFromItems` | weather_alert.js:89-95 | every group entry comes from an item with that time and category, with no later item for that pair |
| `WeatherAlert.PrecipitationTable` | weather_alert.js:11-25 | PTY codes 1–4 give rain, rain/snow, snow and shower; "0" and all other codes are clear |
| `WeatherAlert.SkyTable` | weather_alert.js:26-36 | SKY "3" and "4" are cloudy; every other value, `undefined` included, is clear |
| `WeatherAlert.MeasurementUnits` | weather_alert.js:37-42 | TMP, REH and WSD render the value followed by °C, % or m/s, and stripping the unit gives the value back |
| `WeatherAlert.OtherCategoriesUnchanged` | weather_alert.js:43-44 | any other category returns the value unchanged |
| `WeatherAlert.CategoryNames` | weather_alert.js:49-58 | the five codes get their Korean names; other codes come back unchanged |
| `WeatherAlert.SkyTextMeaning` | weather_alert.js:103-107 | the merged line shows precipitation iff PTY is a code 1–4, cloudy iff there is no precipitation and SKY is 3 or 4, and clear otherwise |
| `WeatherAlert.TimeLineShape` | weather_alert.js:99-100 | the time line is `*HH:MM*` from the first two and the next two characters of the key |
| `WeatherAlert.HeaderShape` | weather_alert.js:82-85 | the header shows YYYY-MM-DD HH:MM from the base date and time |
| `WeatherAlert.TimeBlockLines` | weather_alert.js:99-111 | a block is six lines: the time, four bullets and a blank line |
| `WeatherAlert.BlocksLines` | weather_alert.js:98-112 | n groups render as 6·n lines |
| `WeatherAlert.NoItemsNoMessage` | weather_alert.js:76-79 | a missing or empty item list produces no message |
| `WeatherAlert.EntriesOrder` | weather_alert.js:98 | `Object.entries` lists exactly the group keys |
| `WeatherAlert.InsertKeySorted` | weather_alert.js:98 | inserting a key keeps the keys ascending by array-index value |
| `WeatherAlert.SortKeysSorted` | weather_alert.js:98 | the array-index keys are enumerated in ascending numeric order |
| `WeatherAlert.OtherKeysAppend` | weather_alert.js:98 | the other keys keep their insertion order |
| `WeatherAlert.EntriesOrderShape` | weather_alert.js:98 | the enumeration is a block of array-index keys in ascending order followed by all other keys in insertion order |
| `WeatherAlert.EntriesOrderPutsTenBeforeNine` | weather_alert.js:98 | as written, forecasts at 09:00 and 10:00 are rendered 10:00 first |
| `WeatherAlert.TimeOrderFollowsFirstOccurrence` | weather_alert.js:88-98 | for any input, of two times in the order the earlier one occurs in the items before every item of the later one |
| `WeatherAlert.TimeOrderFollowsItems` | weather_alert.js:88-98 | when no two items share a time, the groups come in item order |
| `DustStats.GradeEmoji` | dust_stats.js:9-22 | `getGradeEmoji` gives one of the four labels, and "💀 매우나쁨" for `NaN` |
| `DustStats.GradeEmojiPm10` | dust_stats.js:10-14 | each PM10 label is produced exactly on the bands 30/80/150 |
| `DustStats.GradeEmojiPm25` | dust_stats.js:15-21 | each PM2.5 label is produced exactly on the bands 15/35/75 |
| `DustStats.FirstDigitRun` | dust_stats.js:25 | finds the leftmost position where eight digits start, or shows there is none |
| `DustStats.FormatDate` | dust_stats.js:24-26 | with a run of eight digits the result is two characters longer; without one it is the input; it adds no character but `-` |
| `DustStats.FormatDateEightDigits` | dust_stats.js:24-26 | an eight-digit date becomes YYYY-MM-DD, ten characters |
| `DustStats.FormatDateRemovesDashes` | dust_stats.js:25 | deleting the two inserted dashes gives the input back |
| `DustStats.CityBlock` | dust_stats.js:61-63 | the text of one city; its shape is `DustStats.CityBlockLines` and `DustStats.ValueLineShowsParsedValue` |
| `DustStats.CityBlocks` | dust_stats.js:57-64 | the text of all cities; see `DustStats.CityBlocksAppend` and `DustStats.CityBlocksSingle` |
| `DustStats.Header` | dust_stats.js:55 | the header; see `DustStats.HeaderLines` |
| `DustStats.Message` | dust_stats.js:49-64 | what one run sends; see `DustStats.MessageLines` and `DustStats.NoItemsNoMessage` |
| `DustStats.AppendCityBlock` | dust_stats.js:57-64 | one pass of the loop appends exactly that city's block |
| `DustStats.Report` | dust_stats.js:49-64 | the script's result is the specified message: nothing for an empty list, else header plus one block per city |
| `DustStats.CityBlocksAppend` | dust_stats.js:57-64 | blocks of a concatenation are the concatenation of blocks: one block per city, in input order |
| `DustStats.CityBlocksSingle` | dust_stats.js:57-64 | a single city renders as its block |
| `DustStats.ValueLineShowsParsedValue` | dust_stats.js:58-63 | the shown value is the `parseInt` of the text and the grade is that value's grade |
| `DustStats.CityBlockLines` | dust_stats.js:61-63 | a city block is four lines: the city, PM10, PM2.5 and a blank line |
| `DustStats.BlocksLines` | dust_stats.js:57-64 | n cities render as 4·n lines |
| `DustStats.HeaderLines` | dust_stats.js:55 | the header is the title line, holding the formatted date, and a blank line |
| `DustStats.MessageLines` | dust_stats.js:55-64 | the report is two header lines plus four lines per city |
| `DustStats.NoItemsNoMessage` | dust_stats.js:49-52 | an empty or missing list produces no message |
| `DustAlert.GradeText` | dust_alert.js:20-28 | `gradeText[grade]` has a name exactly for the codes 1–4 |
| `DustAlert.AlertText` | dust_alert.js:28 | the alert opens with the siren, the region in brackets and the pollutant label, and closes with `)` |
| `DustAlert.Alert` | dust_alert.js:16-36 | an alert is produced iff there is a first record whose reading is a number ≥ 36, and it is that record's alert text |
| `DustAlert.AlertBoundary` | dust_alert.js:27 | 36 alerts and 35 does not |
| `DustAlert.NoAlertBelowThreshold` | dust_alert.js:34-35 | a reading below 36, or `NaN`, gives no alert |
| `DustAlert.OnlyFirstRecord` | dust_alert.js:16 | records after the first never change the outcome |
| `DustAlert.GradeCodes` | dust_alert.js:20-25 | codes 1–4 are named 좋음, 보통, 나쁨, 매우나쁨; other codes have no entry |
| `DustAlert.AlertShowsReading` | dust_alert.js:28 | the alert reads `🚨 [region] 미세먼지(PM2.5): value㎍/㎥ (grade)`, and its value text reads back as the reading |

## Findings

| source | as written | input that shows it | evidently intended | confidence | as-written member | corrected member |
|---|---|---|---|---|---|---|
| weather_alert.js:98 | `Object.entries(timeGroups)` lists integer-like keys ("1000") in ascending order before keys with a leading zero ("0900") | forecasts at times "0900" and "1000" render the 10:00 block before the 09:00 block | blocks in the order in which the forecast times first appear in the response | high, found by reading; not executed | `WeatherAlert.EntriesOrderPutsTenBeforeNine` (over `WeatherAlert.EntriesOrder`) | `WeatherAlert.TimeOrderFollowsFirstOccurrence` (over `WeatherAlert.TimeOrder`, which `WeatherAlert.Report` uses) |

## Left out

- Network I/O is not modelled. That covers `axios.get` of the data.go.kr services and `axios.post` to Telegram. A result of `Some(message)` stands for "this text is posted".
- Configuration and process input are not modelled. That covers `process.env`, dotenv and `process.argv`. The region, base date, base time and search date are parameters.
- Clock handling is not modelled. That covers `new Date()`, `toISOString`, `getHours` and `setDate`, which mix the UTC date with the local hour.
- Logging (`console.log`, `console.error`, `JSON.stringify` dumps) is not modelled. The log-only `else` branch of dust_alert.js is one case of this.
- Errors outside the item list are not modelled. That covers `try`/`catch` and the async wrappers. The one error path that decides whether anything is sent is modelled: an empty list in dust_alert.js gives no first record and no alert. So are the missing-list guards, through `Option`.
- dust_total.js checks that `data.response` and `data.response.body` exist. The model has only the item list, so those checks reduce to "the list is missing".
- `JsValues.ParseNumber`: implements `Number` for integer text only. Whitespace trimming, fractions, exponents, hex and `Infinity` give `NaN` (`None`) here, where JavaScript gives a number. A `null` field is also not modelled.
- `JsValues.ParseIntPrefix`: does not skip leading whitespace and does not recognise a `0x` prefix.
- The record fields are modelled as strings. A field the service omits altogether (`undefined` in a measurement record) is not modelled.
- Lookups of inherited object properties are not modelled. Examples are `categories["constructor"]`, `gradeText["toString"]` or a forecast time named `"__proto__"`: JavaScript finds a prototype member there, and the model finds no entry.
- `WeatherAlert.Report`: renders the groups in first-occurrence order (`WeatherAlert.TimeOrder`), not in the JavaScript enumeration order. The JavaScript order is `WeatherAlert.EntriesOrder`, reported under Findings.
- Numbers are exact unbounded integers. JavaScript's `Number` and `parseInt` produce doubles, so the model does not capture the loss of precision above 2^53 or the exponent form `${}` uses for values of 1e21 and more.
- `JsValues.Slice`: counts characters (Unicode scalar values), while JavaScript's `slice` counts UTF-16 code units. The two differ only on characters outside the Basic Multilingual Plane, which the time keys and dates do not hold.
- Telegram's Markdown rendering (`parse_mode: 'Markdown'`) is not modelled. The scripts do no escaping, so there is nothing to model.
