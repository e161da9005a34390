/**
 * weather_alert.js: the ultra-short-term forecast report for one grid point.
 * Forecast items are grouped by forecast time into a category-to-value table
 * (a later item overwrites an earlier one), and every group is rendered as a
 * time line followed by four bullet lines: sky or precipitation, temperature,
 * humidity and wind speed.
 */
module WeatherAlert {
  import opened Wrappers
  import opened JsValues

  /** One forecast item: a category code and its value at a forecast time. */
  datatype Forecast = Forecast(fcstTime: string, category: string, fcstValue: string)

  /** The table of one forecast time: category code to value. */
  type Row = map<string, string>

  const ClearText: string := "☀️ 맑음"
  const CloudyText: string := "☁️ 흐림"
  const RainText: string := "🌧️ 비"
  const SleetText: string := "🌧️ 비/눈"
  const SnowText: string := "🌨️ 눈"
  const ShowerText: string := "🌧️ 소나기"

  /** `getWeatherEmoji`; the value is `undefined` (`None`) when the row lacks the category. */
  function WeatherEmoji(category: string, value: Option<string>): (r: Option<string>)
    ensures category == "PTY" ==> r.Some? && r.value in {ClearText, RainText, SleetText, SnowText, ShowerText}
    ensures category == "SKY" ==> r.Some? && r.value in {ClearText, CloudyText}
    ensures category !in {"PTY", "SKY", "TMP", "REH", "WSD"} ==> r == value
  {
    if category == "PTY" then
      Some(
        if value == Some("0") then ClearText
        else if value == Some("1") then RainText
        else if value == Some("2") then SleetText
        else if value == Some("3") then SnowText
        else if value == Some("4") then ShowerText
        else ClearText)
    else if category == "SKY" then
      Some(
        if value == Some("1") then ClearText
        else if value == Some("3") then CloudyText
        else if value == Some("4") then CloudyText
        else ClearText)
    else if category == "TMP" then Some(Display(value) + "°C")
    else if category == "REH" then Some(Display(value) + "%")
    else if category == "WSD" then Some(Display(value) + "m/s")
    else value
  }

  const Categories: map<string, string> :=
    map["PTY" := "강수형태", "REH" := "습도", "SKY" := "하늘상태", "TMP" := "기온", "WSD" := "풍속"]

  /** `getCategoryName`: the Korean name of a known code, any other code unchanged. */
  function CategoryName(category: string): (r: string)
    ensures r == category <==> category !in Categories
  {
    if category in Categories then Categories[category] else category
  }

  /** `timeGroups` after the `items.forEach` loop over `items`. */
  function Groups(items: seq<Forecast>): map<string, Row>
    decreases |items|
  {
    if items == [] then map[]
    else
      var groups := Groups(items[..|items| - 1]);
      var item := items[|items| - 1];
      var row := if item.fcstTime in groups then groups[item.fcstTime] else map[];
      groups[item.fcstTime := row[item.category := item.fcstValue]]
  }

  /** The forecast times in the order their group was first created. */
  function TimeOrder(items: seq<Forecast>): seq<string>
    decreases |items|
  {
    if items == [] then []
    else
      var order := TimeOrder(items[..|items| - 1]);
      var time := items[|items| - 1].fcstTime;
      if time in order then order else order + [time]
  }

  function Lookup(row: Row, category: string): Option<string> {
    if category in row then Some(row[category]) else None
  }

  /** `data.PTY && data.PTY !== '0'`: present, not the empty string, and not "0". */
  predicate HasPrecipitation(row: Row) {
    "PTY" in row && row["PTY"] != "" && row["PTY"] != "0"
  }

  /** The merged precipitation / sky text of a row. */
  function SkyText(row: Row): (r: string)
    ensures r in {ClearText, CloudyText, RainText, SleetText, SnowText, ShowerText}
  {
    if HasPrecipitation(row) then Display(WeatherEmoji("PTY", Lookup(row, "PTY")))
    else Display(WeatherEmoji("SKY", Lookup(row, "SKY")))
  }

  function Bullet(text: string): string {
    "• " + text + "\n"
  }

  /** `*HH:MM*`: the first two and the next two characters of the time key. */
  function TimeLine(time: string): string {
    "*" + Slice(time, 0, 2) + ":" + Slice(time, 2, 4) + "*\n"
  }

  /** The text appended for one time group. */
  function TimeBlock(time: string, row: Row): string {
    TimeLine(time)
    + Bullet(SkyText(row))
    + Bullet("기온: " + Display(WeatherEmoji("TMP", Lookup(row, "TMP"))))
    + Bullet("습도: " + Display(WeatherEmoji("REH", Lookup(row, "REH"))))
    + Bullet("풍속: " + Display(WeatherEmoji("WSD", Lookup(row, "WSD"))))
    + "\n"
  }

  /** The time blocks of `order`, in that order. */
  function Blocks(order: seq<string>, groups: map<string, Row>): string
    requires forall t :: t in order ==> t in groups
    decreases |order|
  {
    if order == [] then ""
    else Blocks(order[..|order| - 1], groups) + TimeBlock(order[|order| - 1], groups[order[|order| - 1]])
  }

  /** The header, from the base date YYYYMMDD and base time HHMM of the request. */
  function Header(baseDate: string, baseTime: string): string {
    "*🌤️ 서울 강남구 날씨 예보 ("
    + Slice(baseDate, 0, 4) + "-" + Slice(baseDate, 4, 6) + "-" + Slice(baseDate, 6, 8) + " "
    + Slice(baseTime, 0, 2) + ":" + Slice(baseTime, 2, 4) + " 기준)*\n\n"
  }

  /** What one run sends: nothing for a missing or empty item list, otherwise the report. */
  function Message(baseDate: string, baseTime: string, items: Option<seq<Forecast>>): Option<string> {
    if items.None? || items.value == [] then None
    else
      OrderMatchesGroups(items.value);
      Some(Header(baseDate, baseTime) + Blocks(TimeOrder(items.value), Groups(items.value)))
  }

  /** The grouping loop: fills `timeGroups`, remembering the order in which groups appear. */
  method GroupByTime(items: seq<Forecast>) returns (order: seq<string>, groups: map<string, Row>)
    ensures order == TimeOrder(items)
    ensures groups == Groups(items)
  {
    order, groups := [], map[];
    var i := 0;
    while i < |items|
      invariant 0 <= i <= |items|
      invariant order == TimeOrder(items[..i])
      invariant groups == Groups(items[..i])
      invariant forall t :: t in order <==> t in groups
    {
      var item := items[i];
      if item.fcstTime !in groups {
        groups := groups[item.fcstTime := map[]];
        order := order + [item.fcstTime];
      }
      groups := groups[item.fcstTime := groups[item.fcstTime][item.category := item.fcstValue]];
      assert items[..i + 1][..i] == items[..i];
      i := i + 1;
    }
    assert items[..|items|] == items;
  }

  /** One pass of the rendering loop: appends the block of one time group to `text`. */
  method AppendTimeBlock(text: string, time: string, row: Row) returns (message: string)
    ensures message == text + TimeBlock(time, row)
  {
    message := text + TimeLine(time);
    if "PTY" in row && row["PTY"] != "" && row["PTY"] != "0" {
      message := message + Bullet(Display(WeatherEmoji("PTY", Lookup(row, "PTY"))));
    } else {
      message := message + Bullet(Display(WeatherEmoji("SKY", Lookup(row, "SKY"))));
    }
    ghost var timeLine, skyLine := TimeLine(time), Bullet(SkyText(row));
    assert message == text + timeLine + skyLine;
    var temperature := Bullet("기온: " + Display(WeatherEmoji("TMP", Lookup(row, "TMP"))));
    var humidity := Bullet("습도: " + Display(WeatherEmoji("REH", Lookup(row, "REH"))));
    var wind := Bullet("풍속: " + Display(WeatherEmoji("WSD", Lookup(row, "WSD"))));
    message := message + temperature;
    message := message + humidity;
    message := message + wind + "\n";
    assert TimeBlock(time, row) == timeLine + skyLine + temperature + humidity + wind + "\n";
    AppendAssociative6(text, timeLine, skyLine, temperature, humidity, wind, "\n");
  }

  /** The body of the script from the moment the item list is available. */
  method Report(baseDate: string, baseTime: string, items: Option<seq<Forecast>>) returns (message: Option<string>)
    ensures message == Message(baseDate, baseTime, items)
  {
    if items.None? || |items.value| == 0 {
      return None;
    }
    var order, groups := GroupByTime(items.value);
    OrderMatchesGroups(items.value);
    var text := RenderBlocks(Header(baseDate, baseTime), order, groups);
    message := Some(text);
  }

  /** The `Object.entries(timeGroups).forEach` loop: appends the blocks of `order` to `text`. */
  method RenderBlocks(text: string, order: seq<string>, groups: map<string, Row>) returns (message: string)
    requires forall t :: t in order ==> t in groups
    ensures message == text + Blocks(order, groups)
  {
    message := text;
    var k := 0;
    while k < |order|
      invariant 0 <= k <= |order|
      invariant message == text + Blocks(order[..k], groups)
    {
      message := AppendTimeBlock(message, order[k], groups[order[k]]);
      BlocksPrefix(order, groups, k);
      AppendAssociative(text, Blocks(order[..k], groups), TimeBlock(order[k], groups[order[k]]));
      k := k + 1;
    }
    assert order[..|order|] == order;
  }

  /** One more pass of the rendering loop extends the blocks by one group. */
  lemma BlocksPrefix(order: seq<string>, groups: map<string, Row>, k: nat)
    requires k < |order|
    requires forall t :: t in order ==> t in groups
    ensures Blocks(order[..k + 1], groups) == Blocks(order[..k], groups) + TimeBlock(order[k], groups[order[k]])
  {
    assert order[..k + 1][..k] == order[..k];
  }

  // ---------------------------------------------------------------------------
  // Lemmas

  lemma AppendAssociative6(t: string, a: string, b: string, c: string, d: string, e: string, f: string)
    ensures t + a + b + c + d + e + f == t + (a + b + c + d + e + f)
  {
  }

  /** A group exists for a time exactly when the order lists it. */
  lemma {:induction false} OrderMatchesGroups(items: seq<Forecast>)
    ensures forall t :: t in TimeOrder(items) <==> t in Groups(items)
    decreases |items|
  {
    if items != [] {
      OrderMatchesGroups(items[..|items| - 1]);
    }
  }

  /** The order lists every forecast time of the input, and nothing else. */
  lemma {:induction false} TimeOrderCovers(items: seq<Forecast>, t: string)
    ensures t in TimeOrder(items) <==> exists i :: 0 <= i < |items| && items[i].fcstTime == t
    decreases |items|
  {
    if items != [] {
      var front := items[..|items| - 1];
      TimeOrderCovers(front, t);
      assert forall i :: 0 <= i < |front| ==> front[i] == items[i];
    }
  }

  /** Each time is rendered once: the order has no repetition. */
  lemma {:induction false} TimeOrderDistinct(items: seq<Forecast>)
    ensures forall i, j :: 0 <= i < j < |TimeOrder(items)| ==> TimeOrder(items)[i] != TimeOrder(items)[j]
    decreases |items|
  {
    if items != [] {
      TimeOrderDistinct(items[..|items| - 1]);
    }
  }

  /**
   * Last write wins: an item that no later item shares its (time, category)
   * pair with is the value the group keeps for that pair.
   */
  lemma {:induction false} GroupsKeepLast(items: seq<Forecast>, i: nat)
    requires i < |items|
    requires forall j :: i < j < |items| ==>
      items[j].fcstTime != items[i].fcstTime || items[j].category != items[i].category
    ensures items[i].fcstTime in Groups(items)
    ensures items[i].category in Groups(items)[items[i].fcstTime]
    ensures Groups(items)[items[i].fcstTime][items[i].category] == items[i].fcstValue
    decreases |items|
  {
    if i < |items| - 1 {
      var front := items[..|items| - 1];
      assert forall j :: i < j < |front| ==> front[j] == items[j];
      GroupsKeepLast(front, i);
    }
  }

  /**
   * Every entry of a group comes from an item with that time and category,
   * and no later item has the same pair.
   */
  lemma {:induction false} GroupsFromItems(items: seq<Forecast>, t: string, c: string)
    requires t in Groups(items) && c in Groups(items)[t]
    ensures exists i ::
      && 0 <= i < |items|
      && items[i].fcstTime == t && items[i].category == c
      && Groups(items)[t][c] == items[i].fcstValue
      && (forall j :: i < j < |items| ==> items[j].fcstTime != t || items[j].category != c)
    decreases |items|
  {
    var front := items[..|items| - 1];
    var last := items[|items| - 1];
    GroupsStep(items, t, c);
    if last.fcstTime == t && last.category == c {
      var i := |items| - 1;
      assert items[i].fcstTime == t && items[i].category == c && Groups(items)[t][c] == items[i].fcstValue;
    } else {
      GroupsFromItems(front, t, c);
      var i :| 0 <= i < |front| && front[i].fcstTime == t && front[i].category == c
        && Groups(front)[t][c] == front[i].fcstValue
        && (forall j :: i < j < |front| ==> front[j].fcstTime != t || front[j].category != c);
      assert items[i] == front[i];
      assert forall j :: i < j < |items| ==> items[j].fcstTime != t || items[j].category != c by {
        forall j | i < j < |items|
          ensures items[j].fcstTime != t || items[j].category != c
        {
          if j < |front| {
            assert items[j] == front[j];
          }
        }
      }
    }
  }

  /** How the last item of a list changes one (time, category) entry of the groups. */
  lemma GroupsStep(items: seq<Forecast>, t: string, c: string)
    requires |items| > 0
    ensures var front, last := items[..|items| - 1], items[|items| - 1];
      if last.fcstTime == t && last.category == c then
        t in Groups(items) && c in Groups(items)[t] && Groups(items)[t][c] == last.fcstValue
      else
        && (t in Groups(items) && c in Groups(items)[t] <==> t in Groups(front) && c in Groups(front)[t])
        && (t in Groups(front) && c in Groups(front)[t] ==> Groups(items)[t][c] == Groups(front)[t][c])
  {
  }

  /** The precipitation table: codes 1 to 4 have their own text, "0" and every other code are clear. */
  lemma PrecipitationTable(value: Option<string>)
    ensures WeatherEmoji("PTY", Some("1")) == Some(RainText)
    ensures WeatherEmoji("PTY", Some("2")) == Some(SleetText)
    ensures WeatherEmoji("PTY", Some("3")) == Some(SnowText)
    ensures WeatherEmoji("PTY", Some("4")) == Some(ShowerText)
    ensures value !in {Some("1"), Some("2"), Some("3"), Some("4")} ==> WeatherEmoji("PTY", value) == Some(ClearText)
  {
  }

  /** The sky table: "3" and "4" are cloudy, everything else, `undefined` included, is clear. */
  lemma SkyTable(value: Option<string>)
    ensures WeatherEmoji("SKY", value) == Some(CloudyText) <==> value == Some("3") || value == Some("4")
    ensures WeatherEmoji("SKY", value) != Some(CloudyText) ==> WeatherEmoji("SKY", value) == Some(ClearText)
  {
  }

  lemma StripSuffix(text: string, suffix: string)
    ensures (text + suffix)[..|text|] == text && (text + suffix)[|text|..] == suffix
  {
  }

  /**
   * The measured categories render their value followed by a unit, and
   * stripping the unit gives the value back.
   */
  lemma MeasurementUnits(value: Option<string>)
    ensures WeatherEmoji("TMP", value).Some? && WeatherEmoji("REH", value).Some? && WeatherEmoji("WSD", value).Some?
    ensures var r := WeatherEmoji("TMP", value).value;
      |r| == |Display(value)| + 2 && r[..|r| - 2] == Display(value) && r[|r| - 2..] == "°C"
    ensures var r := WeatherEmoji("REH", value).value;
      |r| == |Display(value)| + 1 && r[..|r| - 1] == Display(value) && r[|r| - 1..] == "%"
    ensures var r := WeatherEmoji("WSD", value).value;
      |r| == |Display(value)| + 3 && r[..|r| - 3] == Display(value) && r[|r| - 3..] == "m/s"
  {
    var d := Display(value);
    assert WeatherEmoji("TMP", value) == Some(d + "°C");
    assert WeatherEmoji("REH", value) == Some(d + "%");
    assert WeatherEmoji("WSD", value) == Some(d + "m/s");
    StripSuffix(d, "°C");
    StripSuffix(d, "%");
    StripSuffix(d, "m/s");
  }

  /** Every category outside the five known ones returns the value unchanged. */
  lemma OtherCategoriesUnchanged(category: string, value: Option<string>)
    requires category !in {"PTY", "SKY", "TMP", "REH", "WSD"}
    ensures WeatherEmoji(category, value) == value
  {
  }

  /** Known codes get their Korean name; unknown codes come back unchanged. */
  lemma CategoryNames(category: string)
    ensures CategoryName("PTY") == "강수형태" && CategoryName("REH") == "습도"
    ensures CategoryName("SKY") == "하늘상태" && CategoryName("TMP") == "기온"
    ensures CategoryName("WSD") == "풍속"
    ensures category !in {"PTY", "REH", "SKY", "TMP", "WSD"} ==> CategoryName(category) == category
  {
  }

  /**
   * The merged line: a precipitation text exactly when PTY is set to one of
   * the codes 1 to 4, cloudy exactly when there is no precipitation and SKY
   * is 3 or 4, and clear otherwise.
   */
  lemma SkyTextMeaning(row: Row)
    ensures SkyText(row) in {RainText, SleetText, SnowText, ShowerText} <==>
      HasPrecipitation(row) && row["PTY"] in {"1", "2", "3", "4"}
    ensures SkyText(row) == CloudyText <==>
      !HasPrecipitation(row) && Lookup(row, "SKY") in {Some("3"), Some("4")}
    ensures SkyText(row) !in {RainText, SleetText, SnowText, ShowerText, CloudyText} ==> SkyText(row) == ClearText
  {
  }

  /** The time line shows the first two and the next two characters of the key. */
  lemma TimeLineShape(time: string)
    requires |time| >= 4
    ensures TimeLine(time) == "*" + time[..2] + ":" + time[2..4] + "*\n"
  {
  }

  /** With an 8-character date and a 4-character time, the header shows YYYY-MM-DD HH:MM. */
  lemma HeaderShape(baseDate: string, baseTime: string)
    requires |baseDate| == 8 && |baseTime| == 4
    ensures Header(baseDate, baseTime) ==
      "*🌤️ 서울 강남구 날씨 예보 (" + baseDate[..4] + "-" + baseDate[4..6] + "-" + baseDate[6..] + " "
      + baseTime[..2] + ":" + baseTime[2..] + " 기준)*\n\n"
  {
  }

  /** A row whose values hold no newline. */
  predicate SingleLineRow(row: Row) {
    forall c :: c in row ==> '\n' !in row[c]
  }

  lemma BulletLine(text: string)
    requires '\n' !in text
    ensures CountChar(Bullet(text), '\n') == 1
  {
    assert Bullet(text) == ("• " + text) + ['\n'];
    CountCharLine("• " + text, '\n');
  }

  /** The rendering of a single-line value is a single line. */
  lemma WeatherEmojiSingleLine(category: string, value: Option<string>)
    requires value.Some? ==> '\n' !in value.value
    ensures '\n' !in Display(WeatherEmoji(category, value))
  {
    var d := Display(value);
    assert '\n' !in d;
    var r := WeatherEmoji(category, value);
    if category == "PTY" {
      assert '\n' !in ClearText && '\n' !in RainText && '\n' !in SleetText;
      assert '\n' !in SnowText && '\n' !in ShowerText;
    } else if category == "SKY" {
      assert '\n' !in ClearText && '\n' !in CloudyText;
    } else if category == "TMP" {
      assert r == Some(d + "°C");
      assert '\n' !in "°C";
    } else if category == "REH" {
      assert r == Some(d + "%");
      assert '\n' !in "%";
    } else if category == "WSD" {
      assert r == Some(d + "m/s");
      assert '\n' !in "m/s";
    } else {
      assert r == value;
    }
  }

  lemma SkyTextSingleLine(row: Row)
    requires SingleLineRow(row)
    ensures '\n' !in SkyText(row)
  {
    WeatherEmojiSingleLine("PTY", Lookup(row, "PTY"));
    WeatherEmojiSingleLine("SKY", Lookup(row, "SKY"));
  }

  lemma TimeLineLines(time: string)
    requires '\n' !in time
    ensures CountChar(TimeLine(time), '\n') == 1
  {
    var head := "*" + Slice(time, 0, 2) + ":" + Slice(time, 2, 4) + "*";
    assert TimeLine(time) == head + ['\n'];
    assert forall ch :: ch in Slice(time, 0, 2) ==> ch in time;
    assert forall ch :: ch in Slice(time, 2, 4) ==> ch in time;
    CountCharLine(head, '\n');
  }

  lemma LabelledBulletLine(caption: string, category: string, row: Row)
    requires '\n' !in caption && SingleLineRow(row)
    ensures CountChar(Bullet(caption + Display(WeatherEmoji(category, Lookup(row, category)))), '\n') == 1
  {
    WeatherEmojiSingleLine(category, Lookup(row, category));
    BulletLine(caption + Display(WeatherEmoji(category, Lookup(row, category))));
  }

  /**
   * A time block is exactly six lines: the time line, four bullet lines and a
   * blank line, when neither the time key nor the row's values hold a newline.
   */
  lemma TimeBlockLines(time: string, row: Row)
    requires '\n' !in time && SingleLineRow(row)
    ensures CountChar(TimeBlock(time, row), '\n') == 6
  {
    var l0 := TimeLine(time);
    var l1 := Bullet(SkyText(row));
    var l2 := Bullet("기온: " + Display(WeatherEmoji("TMP", Lookup(row, "TMP"))));
    var l3 := Bullet("습도: " + Display(WeatherEmoji("REH", Lookup(row, "REH"))));
    var l4 := Bullet("풍속: " + Display(WeatherEmoji("WSD", Lookup(row, "WSD"))));
    TimeLineLines(time);
    SkyTextSingleLine(row);
    BulletLine(SkyText(row));
    LabelledBulletLine("기온: ", "TMP", row);
    LabelledBulletLine("습도: ", "REH", row);
    LabelledBulletLine("풍속: ", "WSD", row);
    CountCharAppend(l0, l1, '\n');
    CountCharAppend(l0 + l1, l2, '\n');
    CountCharAppend(l0 + l1 + l2, l3, '\n');
    CountCharAppend(l0 + l1 + l2 + l3, l4, '\n');
    CountCharAppend(l0 + l1 + l2 + l3 + l4, "\n", '\n');
    assert CountChar("\n", '\n') == 1;
    assert TimeBlock(time, row) == l0 + l1 + l2 + l3 + l4 + "\n";
  }

  /** The blocks of `n` groups are `6 * n` lines. */
  lemma {:induction false} BlocksLines(order: seq<string>, groups: map<string, Row>)
    requires forall t :: t in order ==> t in groups && '\n' !in t && SingleLineRow(groups[t])
    ensures CountChar(Blocks(order, groups), '\n') == 6 * |order|
    decreases |order|
  {
    if order != [] {
      var front := order[..|order| - 1];
      var last := order[|order| - 1];
      assert forall t :: t in front ==> t in order;
      BlocksLines(front, groups);
      TimeBlockLines(last, groups[last]);
      CountCharAppend(Blocks(front, groups), TimeBlock(last, groups[last]), '\n');
    }
  }

  /** Without items, nothing is built or sent. */
  lemma NoItemsNoMessage(baseDate: string, baseTime: string, items: Option<seq<Forecast>>)
    ensures Message(baseDate, baseTime, items).None? <==> items.None? || items.value == []
  {
  }

  // ---------------------------------------------------------------------------
  // Enumeration order of `Object.entries(timeGroups)` as JavaScript defines it

  /** A key JavaScript treats as an array index: canonical decimal text below 2^32 - 1. */
  predicate IsIndexKey(k: string) {
    |k| > 0 && AllDigits(k) && (|k| == 1 || k[0] != '0') && DigitsValue(k) < 0xFFFF_FFFF
  }

  function IndexValue(k: string): nat {
    if IsIndexKey(k) then DigitsValue(k) else 0
  }

  function InsertKey(k: string, sorted: seq<string>): seq<string>
    decreases |sorted|
  {
    if sorted == [] then [k]
    else if IndexValue(k) <= IndexValue(sorted[0]) then [k] + sorted
    else [sorted[0]] + InsertKey(k, sorted[1..])
  }

  function SortKeys(keys: seq<string>): seq<string>
    decreases |keys|
  {
    if keys == [] then [] else InsertKey(keys[0], SortKeys(keys[1..]))
  }

  function IndexKeys(keys: seq<string>): seq<string>
    decreases |keys|
  {
    if keys == [] then []
    else (if IsIndexKey(keys[0]) then [keys[0]] else []) + IndexKeys(keys[1..])
  }

  function OtherKeys(keys: seq<string>): seq<string>
    decreases |keys|
  {
    if keys == [] then []
    else (if IsIndexKey(keys[0]) then [] else [keys[0]]) + OtherKeys(keys[1..])
  }

  /**
   * The order in which `Object.entries` lists the keys of an object whose
   * keys were created in `insertion` order: array-index keys first, in
   * ascending numeric order, then every other key in insertion order.
   */
  function EntriesOrder(insertion: seq<string>): (r: seq<string>)
    ensures forall k :: k in r <==> k in insertion
  {
    IndexKeysMembers(insertion);
    OtherKeysMembers(insertion);
    SortKeysMembers(IndexKeys(insertion));
    SortKeys(IndexKeys(insertion)) + OtherKeys(insertion)
  }

  lemma {:induction false} InsertKeyMembers(k: string, sorted: seq<string>)
    ensures forall x :: x in InsertKey(k, sorted) <==> x == k || x in sorted
    decreases |sorted|
  {
    if sorted != [] && IndexValue(k) > IndexValue(sorted[0]) {
      InsertKeyMembers(k, sorted[1..]);
      assert sorted == [sorted[0]] + sorted[1..];
    }
  }

  lemma {:induction false} SortKeysMembers(keys: seq<string>)
    ensures forall x :: x in SortKeys(keys) <==> x in keys
    decreases |keys|
  {
    if keys != [] {
      SortKeysMembers(keys[1..]);
      InsertKeyMembers(keys[0], SortKeys(keys[1..]));
      assert keys == [keys[0]] + keys[1..];
    }
  }

  lemma {:induction false} IndexKeysMembers(keys: seq<string>)
    ensures forall x :: x in IndexKeys(keys) <==> x in keys && IsIndexKey(x)
    decreases |keys|
  {
    if keys != [] {
      IndexKeysMembers(keys[1..]);
      assert keys == [keys[0]] + keys[1..];
    }
  }

  lemma {:induction false} OtherKeysMembers(keys: seq<string>)
    ensures forall x :: x in OtherKeys(keys) <==> x in keys && !IsIndexKey(x)
    decreases |keys|
  {
    if keys != [] {
      OtherKeysMembers(keys[1..]);
      assert keys == [keys[0]] + keys[1..];
    }
  }

  /** Keys in ascending order of their array-index value. */
  predicate AscendingByIndex(keys: seq<string>) {
    forall a, b :: 0 <= a < b < |keys| ==> IndexValue(keys[a]) <= IndexValue(keys[b])
  }

  lemma {:induction false} InsertKeySorted(k: string, sorted: seq<string>)
    requires AscendingByIndex(sorted)
    ensures AscendingByIndex(InsertKey(k, sorted))
    decreases |sorted|
  {
    if sorted == [] {
    } else if IndexValue(k) <= IndexValue(sorted[0]) {
      var r := [k] + sorted;
      forall a, b | 0 <= a < b < |r|
        ensures IndexValue(r[a]) <= IndexValue(r[b])
      {
        assert r[b] == sorted[b - 1];
        if a == 0 {
          assert IndexValue(sorted[0]) <= IndexValue(sorted[b - 1]);
        } else {
          assert r[a] == sorted[a - 1];
        }
      }
    } else {
      var tail := sorted[1..];
      assert AscendingByIndex(tail) by {
        forall a, b | 0 <= a < b < |tail|
          ensures IndexValue(tail[a]) <= IndexValue(tail[b])
        {
          assert tail[a] == sorted[a + 1] && tail[b] == sorted[b + 1];
        }
      }
      InsertKeySorted(k, tail);
      InsertKeyMembers(k, tail);
      var rest := InsertKey(k, tail);
      var r := [sorted[0]] + rest;
      forall a, b | 0 <= a < b < |r|
        ensures IndexValue(r[a]) <= IndexValue(r[b])
      {
        assert r[b] == rest[b - 1];
        if a == 0 {
          assert rest[b - 1] in rest;
          if rest[b - 1] != k {
            var n :| 0 <= n < |tail| && tail[n] == rest[b - 1];
            assert tail[n] == sorted[n + 1];
          }
        } else {
          assert r[a] == rest[a - 1];
        }
      }
    }
  }

  /** The array-index keys are enumerated in ascending numeric order. */
  lemma {:induction false} SortKeysSorted(keys: seq<string>)
    ensures AscendingByIndex(SortKeys(keys))
    decreases |keys|
  {
    if keys != [] {
      SortKeysSorted(keys[1..]);
      InsertKeySorted(keys[0], SortKeys(keys[1..]));
    }
  }

  /** The other keys keep their insertion order. */
  lemma {:induction false} OtherKeysAppend(a: seq<string>, b: seq<string>)
    ensures OtherKeys(a + b) == OtherKeys(a) + OtherKeys(b)
    decreases |a|
  {
    if a == [] {
      assert a + b == b;
    } else {
      assert (a + b)[0] == a[0] && (a + b)[1..] == a[1..] + b;
      OtherKeysAppend(a[1..], b);
    }
  }

  /**
   * The shape of the enumeration: a block of array-index keys in ascending
   * numeric order, followed by every other key in insertion order.
   */
  lemma EntriesOrderShape(insertion: seq<string>)
    ensures var r := EntriesOrder(insertion);
      exists n ::
        && 0 <= n <= |r|
        && (forall a :: 0 <= a < n ==> IsIndexKey(r[a]))
        && (forall a :: n <= a < |r| ==> !IsIndexKey(r[a]))
        && AscendingByIndex(r[..n])
        && r[n..] == OtherKeys(insertion)
  {
    var sorted := SortKeys(IndexKeys(insertion));
    var others := OtherKeys(insertion);
    var r := EntriesOrder(insertion);
    assert r == sorted + others;
    SortKeysSorted(IndexKeys(insertion));
    SortKeysMembers(IndexKeys(insertion));
    IndexKeysMembers(insertion);
    OtherKeysMembers(insertion);
    var n := |sorted|;
    assert r[..n] == sorted && r[n..] == others;
    forall a | 0 <= a < n
      ensures IsIndexKey(r[a])
    {
      assert r[a] == sorted[a] && sorted[a] in sorted;
    }
    forall a | n <= a < |r|
      ensures !IsIndexKey(r[a])
    {
      assert r[a] == others[a - n] && others[a - n] in others;
    }
  }

  /**
   * As written, the blocks are rendered in `EntriesOrder`: for forecasts at
   * 09:00 and 10:00 the 10:00 block comes first, because "1000" is an array
   * index key and "0900", with its leading zero, is not.
   */
  lemma EntriesOrderPutsTenBeforeNine(v: string, w: string)
    ensures TimeOrder([Forecast("0900", "TMP", v), Forecast("1000", "TMP", w)]) == ["0900", "1000"]
    ensures EntriesOrder(TimeOrder([Forecast("0900", "TMP", v), Forecast("1000", "TMP", w)])) == ["1000", "0900"]
  {
    var items := [Forecast("0900", "TMP", v), Forecast("1000", "TMP", w)];
    assert items[..1] == [Forecast("0900", "TMP", v)];
    assert [Forecast("0900", "TMP", v)][..0] == [];
    assert TimeOrder(items[..1]) == ["0900"];
    assert "1000"[1] != "0900"[1];
    assert TimeOrder(items) == ["0900", "1000"];
    assert !IsIndexKey("0900");
    assert "1000"[..3] == "100" && "100"[..2] == "10" && "10"[..1] == "1";
    assert DigitsValue("1") == 1;
    assert DigitsValue("1000") == 1000;
    assert IsIndexKey("1000");
    assert ["0900", "1000"][1..] == ["1000"];
    assert IndexKeys(["0900", "1000"]) == ["1000"];
    assert OtherKeys(["0900", "1000"]) == ["0900"];
  }

  /**
   * The order the model renders in, for any input: of two times in the order,
   * the earlier one occurs in the items before any item of the later one. So
   * the groups follow the first occurrence of each time in the item list.
   */
  lemma {:induction false} TimeOrderFollowsFirstOccurrence(items: seq<Forecast>, i: nat, j: nat, k: nat)
    requires i < j < |TimeOrder(items)|
    requires k < |items| && items[k].fcstTime == TimeOrder(items)[j]
    ensures exists k' :: 0 <= k' < k && items[k'].fcstTime == TimeOrder(items)[i]
    decreases |items|
  {
    var front, last := items[..|items| - 1], items[|items| - 1];
    var order := TimeOrder(front);
    assert forall n :: 0 <= n < |front| ==> front[n] == items[n];
    if j < |order| {
      assert TimeOrder(items)[i] == order[i] && TimeOrder(items)[j] == order[j];
      if k < |front| {
        TimeOrderFollowsFirstOccurrence(front, i, j, k);
      } else {
        TimeOrderCovers(front, order[j]);
        var k0 :| 0 <= k0 < |front| && front[k0].fcstTime == order[j];
        TimeOrderFollowsFirstOccurrence(front, i, j, k0);
      }
    } else {
      assert last.fcstTime !in order && TimeOrder(items) == order + [last.fcstTime];
      TimeOrderCovers(front, last.fcstTime);
      assert forall n :: 0 <= n < |front| ==> items[n].fcstTime != last.fcstTime;
      assert k == |items| - 1;
      assert TimeOrder(items)[i] == order[i];
      TimeOrderCovers(front, order[i]);
    }
  }

  /**
   * In particular, when the items come with pairwise distinct times the
   * blocks follow the items exactly.
   */
  lemma {:induction false} TimeOrderFollowsItems(items: seq<Forecast>)
    requires forall i, j :: 0 <= i < j < |items| ==> items[i].fcstTime != items[j].fcstTime
    ensures |TimeOrder(items)| == |items|
    ensures forall i :: 0 <= i < |items| ==> TimeOrder(items)[i] == items[i].fcstTime
    decreases |items|
  {
    if items != [] {
      var front := items[..|items| - 1];
      TimeOrderFollowsItems(front);
      TimeOrderCovers(front, items[|items| - 1].fcstTime);
    }
  }
}
