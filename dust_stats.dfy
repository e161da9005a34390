/**
 * dust_stats.js: the daily nationwide statistics report. After a header that
 * shows the search date as YYYY-MM-DD, every city record gets a three-line
 * block with its PM10 and PM2.5 readings, read with `parseInt` and graded.
 */
module DustStats {
  import opened Wrappers
  import opened JsValues
  import opened Grades

  /** One city record of the daily statistics list, with the fields the script reads. */
  datatype CityStat = CityStat(cityName: string, pm10Value: string, pm25Value: string)

  /** `getGradeEmoji`: the band of a reading, with this script's labels. */
  function GradeEmoji(value: Option<int>, pollutantType: string): (r: string)
    ensures r in {"😊 좋음", "😐 보통", "😷 나쁨", "💀 매우나쁨"}
    ensures value.None? ==> r == "💀 매우나쁨"
  {
    match Classify(value, pollutantType)
    case Good => "😊 좋음"
    case Moderate => "😐 보통"
    case Bad => "😷 나쁨"
    case VeryBad => "💀 매우나쁨"
  }

  /** Eight digits start at position `i` of `s`. */
  predicate DigitRunAt(s: string, i: nat) {
    i + 8 <= |s| && AllDigits(s[i..i + 8])
  }

  predicate HasDigitRun(s: string) {
    exists i: nat :: i < |s| && DigitRunAt(s, i)
  }

  /** The leftmost position at or after `from` where eight digits start: where the regular expression matches. */
  function FirstDigitRun(s: string, from: nat): (r: Option<nat>)
    ensures r.Some? ==> from <= r.value && DigitRunAt(s, r.value)
    ensures r.Some? ==> forall j: nat :: from <= j < r.value ==> !DigitRunAt(s, j)
    ensures r.None? ==> forall j: nat :: from <= j ==> !DigitRunAt(s, j)
    decreases |s| - from
  {
    if from + 8 > |s| then None
    else if DigitRunAt(s, from) then Some(from)
    else FirstDigitRun(s, from + 1)
  }

  /**
   * `formatDate`: `date.replace(/(\d{4})(\d{2})(\d{2})/, '$1-$2-$3')`, which
   * inserts a dash after the fourth and the sixth digit of the first run of
   * eight digits and leaves a string without such a run unchanged.
   */
  function FormatDate(date: string): (r: string)
    ensures HasDigitRun(date) ==> |r| == |date| + 2
    ensures !HasDigitRun(date) ==> r == date
    ensures forall ch :: ch in r ==> ch in date || ch == '-'
  {
    match FirstDigitRun(date, 0)
    case None => date
    case Some(i) =>
      date[..i] + date[i..i + 4] + "-" + date[i + 4..i + 6] + "-" + date[i + 6..i + 8] + date[i + 8..]
  }

  /** One reading's bullet line. */
  function ValueLine(name: string, value: Option<int>, pollutantType: string): string {
    "• " + name + ": " + NumberText(value) + "㎍/㎥ (" + GradeEmoji(value, pollutantType) + ")\n"
  }

  /** The three lines and the blank line appended for one city. */
  function CityBlock(c: CityStat): string {
    "*" + c.cityName + "*\n"
    + ValueLine("PM10", ParseIntPrefix(c.pm10Value), "PM10")
    + ValueLine("PM2.5", ParseIntPrefix(c.pm25Value), "PM25")
    + "\n"
  }

  /** The blocks of all cities, in input order. */
  function CityBlocks(items: seq<CityStat>): string
    decreases |items|
  {
    if items == [] then "" else CityBlocks(items[..|items| - 1]) + CityBlock(items[|items| - 1])
  }

  function Header(searchDate: string): string {
    "*📊 전국 미세먼지 일간 통계 (" + FormatDate(searchDate) + ")*\n\n"
  }

  /** What one run sends: nothing for a missing or empty item list, otherwise the report. */
  function Message(searchDate: string, items: Option<seq<CityStat>>): Option<string> {
    if items.None? || items.value == [] then None
    else Some(Header(searchDate) + CityBlocks(items.value))
  }

  /** One pass of the `items.forEach` loop. */
  method AppendCityBlock(text: string, item: CityStat) returns (message: string)
    ensures message == text + CityBlock(item)
  {
    var pm10Value := ParseIntPrefix(item.pm10Value);
    var pm25Value := ParseIntPrefix(item.pm25Value);
    var name := "*" + item.cityName + "*\n";
    var pm10 := ValueLine("PM10", pm10Value, "PM10");
    var pm25 := ValueLine("PM2.5", pm25Value, "PM25");
    message := text + name;
    message := message + pm10;
    message := message + pm25 + "\n";
    AppendAssociative4(text, name, pm10, pm25, "\n");
  }

  /** The body of the script from the moment the item list is available. */
  method Report(searchDate: string, items: Option<seq<CityStat>>) returns (message: Option<string>)
    ensures message == Message(searchDate, items)
  {
    if items.None? || |items.value| == 0 {
      return None;
    }
    var list := items.value;
    var text := Header(searchDate);
    ghost var header := text;
    var i := 0;
    while i < |list|
      invariant 0 <= i <= |list|
      invariant text == header + CityBlocks(list[..i])
    {
      text := AppendCityBlock(text, list[i]);
      CityBlocksPrefix(list, i);
      AppendAssociative(header, CityBlocks(list[..i]), CityBlock(list[i]));
      i := i + 1;
    }
    assert list[..|list|] == list;
    message := Some(text);
  }

  // ---------------------------------------------------------------------------
  // Lemmas

  lemma AppendAssociative4(t: string, a: string, b: string, c: string, d: string)
    ensures t + a + b + c + d == t + (a + b + c + d)
  {
  }

  /** The labels follow the PM10 bands exactly, as in dust_total.js. */
  lemma GradeEmojiPm10(v: int)
    ensures GradeEmoji(Some(v), "PM10") == "😊 좋음" <==> v <= 30
    ensures GradeEmoji(Some(v), "PM10") == "😐 보통" <==> 30 < v <= 80
    ensures GradeEmoji(Some(v), "PM10") == "😷 나쁨" <==> 80 < v <= 150
    ensures GradeEmoji(Some(v), "PM10") == "💀 매우나쁨" <==> 150 < v
  {
    Pm10Bands(v);
  }

  /** Any other tag, "PM25" included, uses the PM2.5 bands. */
  lemma GradeEmojiPm25(pollutantType: string, v: int)
    requires pollutantType != "PM10"
    ensures GradeEmoji(Some(v), pollutantType) == "😊 좋음" <==> v <= 15
    ensures GradeEmoji(Some(v), pollutantType) == "😐 보통" <==> 15 < v <= 35
    ensures GradeEmoji(Some(v), pollutantType) == "😷 나쁨" <==> 35 < v <= 75
    ensures GradeEmoji(Some(v), pollutantType) == "💀 매우나쁨" <==> 75 < v
  {
    Pm25Bands(pollutantType, v);
  }

  /** An eight-digit date becomes YYYY-MM-DD, ten characters long. */
  lemma FormatDateEightDigits(date: string)
    requires |date| == 8 && AllDigits(date)
    ensures FormatDate(date) == date[..4] + "-" + date[4..6] + "-" + date[6..8]
    ensures |FormatDate(date)| == 10
  {
    assert date[0..8] == date;
    assert DigitRunAt(date, 0);
    assert FirstDigitRun(date, 0) == Some(0);
    var y, m, d := date[..4], date[4..6], date[6..8];
    assert date[..0] == [] && date[0..4] == y && date[8..] == [];
    SurroundEmpty(y + "-" + m + "-" + d);
  }

  lemma SurroundEmpty(s: string)
    ensures [] + s == s && s + [] == s
  {
  }

  /** A string is its five pieces around a run of eight characters at `i`. */
  lemma Reassemble(s: string, i: nat)
    requires i + 8 <= |s|
    ensures s[..i] + s[i..i + 4] + s[i + 4..i + 6] + s[i + 6..i + 8] + s[i + 8..] == s
  {
    assert s[..i] + s[i..i + 4] == s[..i + 4];
    assert s[..i + 4] + s[i + 4..i + 6] == s[..i + 6];
    assert s[..i + 6] + s[i + 6..i + 8] == s[..i + 8];
    assert s[..i + 8] + s[i + 8..] == s;
  }

  /** Where the two dashes land when they are inserted around the pieces of a date. */
  lemma DashPositions(a: string, y: string, m: string, d: string, rest: string)
    requires |y| == 4 && |m| == 2 && |d| == 2
    ensures var r := a + y + "-" + m + "-" + d + rest;
      && r[..|a| + 4] == a + y
      && r[|a| + 4] == '-' && r[|a| + 7] == '-'
      && r[|a| + 5..|a| + 7] == m
      && r[|a| + 8..] == d + rest
  {
  }

  /**
   * Round trip: deleting the two inserted dashes gives the input back, and
   * the text before the first run of eight digits is untouched.
   */
  lemma FormatDateRemovesDashes(date: string)
    requires HasDigitRun(date)
    ensures var i := FirstDigitRun(date, 0).value;
      var r := FormatDate(date);
      && r[..i + 4] == date[..i + 4]
      && r[i + 4] == '-' && r[i + 7] == '-'
      && r[..i + 4] + r[i + 5..i + 7] + r[i + 8..] == date
  {
    var i := FirstDigitRun(date, 0).value;
    var a, y, m, d, rest := date[..i], date[i..i + 4], date[i + 4..i + 6], date[i + 6..i + 8], date[i + 8..];
    assert FormatDate(date) == a + y + "-" + m + "-" + d + rest;
    DashPositions(a, y, m, d, rest);
    Reassemble(date, i);
    assert a + y == date[..i + 4];
    AppendAssociative(a + y, m, d + rest);
    AppendAssociative4(a, y, m, d, rest);
  }

  /** The blocks of a concatenation are the concatenation of the blocks: one block per city, in input order. */
  lemma {:induction false} CityBlocksAppend(a: seq<CityStat>, b: seq<CityStat>)
    ensures CityBlocks(a + b) == CityBlocks(a) + CityBlocks(b)
    decreases |b|
  {
    if b == [] {
      assert a + b == a;
    } else {
      var b' := b[..|b| - 1];
      assert (a + b)[..|a + b| - 1] == a + b';
      CityBlocksAppend(a, b');
      AppendAssociative(CityBlocks(a), CityBlocks(b'), CityBlock(b[|b| - 1]));
    }
  }

  lemma CityBlocksPrefix(items: seq<CityStat>, i: nat)
    requires i < |items|
    ensures CityBlocks(items[..i + 1]) == CityBlocks(items[..i]) + CityBlock(items[i])
  {
    assert items[..i + 1][..i] == items[..i];
  }

  lemma CityBlocksSingle(c: CityStat)
    ensures CityBlocks([c]) == CityBlock(c)
  {
    assert [c][..0] == [];
  }

  /** The value shown is the `parseInt` of the text, and its grade is the grade of that value. */
  lemma ValueLineShowsParsedValue(v: int, rest: string, name: string, pollutantType: string)
    requires rest == [] || !IsDigit(rest[0])
    ensures ValueLine(name, ParseIntPrefix(IntText(v) + rest), pollutantType)
      == "• " + name + ": " + IntText(v) + "㎍/㎥ (" + GradeEmoji(Some(v), pollutantType) + ")\n"
  {
    ParseIntRoundTrip(v, rest);
  }

  lemma ValueLineLines(name: string, value: Option<int>, pollutantType: string)
    requires '\n' !in name
    ensures CountChar(ValueLine(name, value, pollutantType), '\n') == 1
  {
    var lead, number, unit, grade := "• " + name + ": ", NumberText(value), "㎍/㎥ (", GradeEmoji(value, pollutantType);
    assert ValueLine(name, value, pollutantType) == lead + number + unit + grade + ")\n";
    assert '\n' !in "• " && '\n' !in ": " && '\n' !in unit;
    CountCharAbsent(lead, '\n');
    NumberTextNoNewline(value);
    CountCharAbsent(number, '\n');
    CountCharAbsent(unit, '\n');
    GradeEmojiNoNewline(value, pollutantType);
    CountCharAbsent(grade, '\n');
    assert ")" + ['\n'] == ")\n";
    CountCharLine(")", '\n');
    CountCharConcat4(lead, number, unit, grade, '\n');
    CountCharAppend(lead + number + unit + grade, ")\n", '\n');
  }

  lemma GradeEmojiNoNewline(value: Option<int>, pollutantType: string)
    ensures '\n' !in GradeEmoji(value, pollutantType)
  {
    assert '\n' !in "😊 좋음" && '\n' !in "😐 보통" && '\n' !in "😷 나쁨" && '\n' !in "💀 매우나쁨";
  }

  /** The city line is one line. */
  lemma CityLineLines(cityName: string)
    requires '\n' !in cityName
    ensures CountChar("*" + cityName + "*\n", '\n') == 1
  {
    var title := "*" + cityName + "*";
    AppendAssociative("*" + cityName, "*", "\n");
    assert "*" + cityName + "*\n" == title + ['\n'];
    CountCharLine(title, '\n');
  }

  /** A city block is four lines: the city, PM10, PM2.5 and a blank line. */
  lemma CityBlockLines(c: CityStat)
    requires '\n' !in c.cityName
    ensures CountChar(CityBlock(c), '\n') == 4
  {
    var v10, v25 := ParseIntPrefix(c.pm10Value), ParseIntPrefix(c.pm25Value);
    var name := "*" + c.cityName + "*\n";
    var pm10 := ValueLine("PM10", v10, "PM10");
    var pm25 := ValueLine("PM2.5", v25, "PM25");
    assert CityBlock(c) == name + pm10 + pm25 + "\n";
    CityLineLines(c.cityName);
    PollutantLines(v10, v25);
    ThreeLinesAndBlank(name, pm10, pm25);
  }

  lemma PollutantLines(v10: Option<int>, v25: Option<int>)
    ensures CountChar(ValueLine("PM10", v10, "PM10"), '\n') == 1
    ensures CountChar(ValueLine("PM2.5", v25, "PM25"), '\n') == 1
  {
    assert '\n' !in "PM10" && '\n' !in "PM2.5";
    ValueLineLines("PM10", v10, "PM10");
    ValueLineLines("PM2.5", v25, "PM25");
  }

  lemma ThreeLinesAndBlank(a: string, b: string, c: string)
    requires CountChar(a, '\n') == 1 && CountChar(b, '\n') == 1 && CountChar(c, '\n') == 1
    ensures CountChar(a + b + c + "\n", '\n') == 4
  {
    CountCharLine("", '\n');
    assert [] + ['\n'] == "\n";
    CountCharConcat4(a, b, c, "\n", '\n');
  }

  /** The report is the two header lines plus four lines per city. */
  lemma {:induction false} MessageLines(searchDate: string, items: seq<CityStat>)
    requires items != []
    requires '\n' !in searchDate
    requires forall i :: 0 <= i < |items| ==> '\n' !in items[i].cityName
    ensures CountChar(Message(searchDate, Some(items)).value, '\n') == 2 + 4 * |items|
  {
    HeaderLines(searchDate);
    BlocksLines(items);
    CountCharAppend(Header(searchDate), CityBlocks(items), '\n');
  }

  /** The header is a title line followed by a blank line. */
  lemma HeaderLines(searchDate: string)
    requires '\n' !in searchDate
    ensures CountChar(Header(searchDate), '\n') == 2
  {
    var date := FormatDate(searchDate);
    assert '\n' !in date;
    var head := "*📊 전국 미세먼지 일간 통계 (" + date + ")*";
    assert '\n' !in head;
    assert Header(searchDate) == head + ['\n'] + ['\n'];
    CountCharLine(head, '\n');
    CountCharAppend(head + ['\n'], ['\n'], '\n');
    assert CountChar(['\n'], '\n') == 1;
  }

  lemma {:induction false} BlocksLines(items: seq<CityStat>)
    requires forall i :: 0 <= i < |items| ==> '\n' !in items[i].cityName
    ensures CountChar(CityBlocks(items), '\n') == 4 * |items|
    decreases |items|
  {
    if items != [] {
      var front := items[..|items| - 1];
      assert forall i :: 0 <= i < |front| ==> front[i] == items[i];
      BlocksLines(front);
      CityBlockLines(items[|items| - 1]);
      CountCharAppend(CityBlocks(front), CityBlock(items[|items| - 1]), '\n');
    }
  }

  /** An empty or missing list produces no report. */
  lemma NoItemsNoMessage(searchDate: string, items: Option<seq<CityStat>>)
    ensures Message(searchDate, items).None? <==> items.None? || items.value == []
  {
  }
}
