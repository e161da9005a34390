/**
 * dust_total.js: the nationwide real-time report. Every province record whose
 * PM10 reading is at least 81, or whose PM2.5 reading is at least 36, gets a
 * line in that pollutant's section; the message holds the non-empty sections,
 * PM10 first, and is sent only when it is not empty.
 */
module DustTotal {
  import opened Wrappers
  import opened JsValues
  import opened Grades

  /** One record of the real-time measurement list, with the fields the script reads. */
  datatype Measurement = Measurement(sidoName: string, pm10Value: string, pm25Value: string)

  datatype Pollutant = Pm10 | Pm25

  /** Alert thresholds: the lowest concentration that is listed. */
  const Pm10Bad: int := 81
  const Pm25Bad: int := 36

  const Pm10Heading: string := "*미세먼지(PM10):*\n"
  const Pm25Heading: string := "*초미세먼지(PM2.5):*\n"

  /** `getGradeText`: the band of a reading, with this script's labels. */
  function GradeText(value: Option<int>, pollutantType: string): (r: string)
    ensures r in {"좋음 😊", "보통 😐", "나쁨 😷", "매우나쁨 💀"}
    ensures value.None? ==> r == "매우나쁨 💀"
  {
    match Classify(value, pollutantType)
    case Good => "좋음 😊"
    case Moderate => "보통 😐"
    case Bad => "나쁨 😷"
    case VeryBad => "매우나쁨 💀"
  }

  /** The type tag the script passes to `getGradeText`. */
  function TypeTag(p: Pollutant): string {
    if p == Pm10 then "PM10" else "PM25"
  }

  function Threshold(p: Pollutant): int {
    if p == Pm10 then Pm10Bad else Pm25Bad
  }

  /** `Number(item.pm10Value)` or `Number(item.pm25Value)`. */
  function Reading(m: Measurement, p: Pollutant): Option<int> {
    ParseNumber(if p == Pm10 then m.pm10Value else m.pm25Value)
  }

  /** `value >= threshold`; every comparison with `NaN` is false. */
  predicate Listed(m: Measurement, p: Pollutant) {
    var v := Reading(m, p);
    v.Some? && v.value >= Threshold(p)
  }

  /** The line pushed for a listed record. */
  function AreaLine(m: Measurement, p: Pollutant): string {
    var v := Reading(m, p);
    "• " + m.sidoName + ": " + NumberText(v) + "㎍/㎥ (" + GradeText(v, TypeTag(p)) + ")"
  }

  /** The contents of `pm10BadAreas` or `pm25BadAreas` after the loop over `items`. */
  function BadAreas(items: seq<Measurement>, p: Pollutant): (r: seq<string>)
    ensures |r| <= |items|
    decreases |items|
  {
    if items == [] then []
    else
      var last := items[|items| - 1];
      BadAreas(items[..|items| - 1], p) + (if Listed(last, p) then [AreaLine(last, p)] else [])
  }

  function Section(heading: string, lines: seq<string>): string {
    heading + Join(lines, "\n") + "\n\n"
  }

  /** The message assembled from the two lists. */
  function Message(pm10Lines: seq<string>, pm25Lines: seq<string>): string {
    (if |pm10Lines| > 0 then Section(Pm10Heading, pm10Lines) else "")
    + (if |pm25Lines| > 0 then Section(Pm25Heading, pm25Lines) else "")
  }

  /**
   * What one run sends: nothing when the response has no item list or the
   * message is empty, otherwise the message.
   */
  function Outcome(items: Option<seq<Measurement>>): (r: Option<string>)
    ensures items.None? ==> r.None?
    ensures r.Some? ==> r.value != ""
  {
    if items.None? then None
    else
      var message := Message(BadAreas(items.value, Pm10), BadAreas(items.value, Pm25));
      if message == "" then None else Some(message)
  }

  /** The `items.forEach` loop that fills `pm10BadAreas` and `pm25BadAreas`. */
  method CollectBadAreas(items: seq<Measurement>) returns (pm10BadAreas: seq<string>, pm25BadAreas: seq<string>)
    ensures pm10BadAreas == BadAreas(items, Pm10)
    ensures pm25BadAreas == BadAreas(items, Pm25)
  {
    pm10BadAreas, pm25BadAreas := [], [];
    var i := 0;
    while i < |items|
      invariant 0 <= i <= |items|
      invariant pm10BadAreas == BadAreas(items[..i], Pm10)
      invariant pm25BadAreas == BadAreas(items[..i], Pm25)
    {
      pm10BadAreas, pm25BadAreas := CheckRecord(pm10BadAreas, pm25BadAreas, items[i]);
      BadAreasPrefix(items, i, Pm10);
      BadAreasPrefix(items, i, Pm25);
      i := i + 1;
    }
    assert items[..|items|] == items;
  }

  /** One pass of the loop: pushes the record's line onto each list whose threshold it reaches. */
  method CheckRecord(pm10Lines: seq<string>, pm25Lines: seq<string>, item: Measurement)
    returns (pm10BadAreas: seq<string>, pm25BadAreas: seq<string>)
    ensures pm10BadAreas == pm10Lines + (if Listed(item, Pm10) then [AreaLine(item, Pm10)] else [])
    ensures pm25BadAreas == pm25Lines + (if Listed(item, Pm25) then [AreaLine(item, Pm25)] else [])
  {
    pm10BadAreas, pm25BadAreas := pm10Lines, pm25Lines;
    var pm10 := ParseNumber(item.pm10Value);
    var pm25 := ParseNumber(item.pm25Value);
    if pm10.Some? && pm10.value >= Pm10Bad {
      pm10BadAreas := pm10BadAreas + [AreaLine(item, Pm10)];
    }
    if pm25.Some? && pm25.value >= Pm25Bad {
      pm25BadAreas := pm25BadAreas + [AreaLine(item, Pm25)];
    }
  }

  /** One more pass of the loop extends each list by the line of one record, or by nothing. */
  lemma BadAreasPrefix(items: seq<Measurement>, i: nat, p: Pollutant)
    requires i < |items|
    ensures BadAreas(items[..i + 1], p) ==
      BadAreas(items[..i], p) + (if Listed(items[i], p) then [AreaLine(items[i], p)] else [])
  {
    assert items[..i + 1][..i] == items[..i];
  }

  /** The body of the script from the moment the item list is available. */
  method Report(items: Option<seq<Measurement>>) returns (sent: Option<string>)
    ensures sent == Outcome(items)
  {
    if items.None? {
      return None;
    }
    var pm10BadAreas, pm25BadAreas := CollectBadAreas(items.value);
    ghost var pm10Section := if |pm10BadAreas| > 0 then Section(Pm10Heading, pm10BadAreas) else "";
    ghost var pm25Section := if |pm25BadAreas| > 0 then Section(Pm25Heading, pm25BadAreas) else "";
    var message := "";
    if |pm10BadAreas| > 0 {
      message := message + Section(Pm10Heading, pm10BadAreas);
    }
    assert message == pm10Section;
    if |pm25BadAreas| > 0 {
      message := message + Section(Pm25Heading, pm25BadAreas);
    }
    assert message == pm10Section + pm25Section;
    if message != "" {
      sent := Some(message);
    } else {
      sent := None;
    }
  }

  // ---------------------------------------------------------------------------
  // Lemmas

  /** The grade labels follow the PM10 bands exactly. */
  lemma GradeTextPm10(v: int)
    ensures GradeText(Some(v), "PM10") == "좋음 😊" <==> v <= 30
    ensures GradeText(Some(v), "PM10") == "보통 😐" <==> 30 < v <= 80
    ensures GradeText(Some(v), "PM10") == "나쁨 😷" <==> 80 < v <= 150
    ensures GradeText(Some(v), "PM10") == "매우나쁨 💀" <==> 150 < v
  {
    Pm10Bands(v);
  }

  /** Any other tag, "PM25" included, uses the PM2.5 bands. */
  lemma GradeTextPm25(pollutantType: string, v: int)
    requires pollutantType != "PM10"
    ensures GradeText(Some(v), pollutantType) == "좋음 😊" <==> v <= 15
    ensures GradeText(Some(v), pollutantType) == "보통 😐" <==> 15 < v <= 35
    ensures GradeText(Some(v), pollutantType) == "나쁨 😷" <==> 35 < v <= 75
    ensures GradeText(Some(v), pollutantType) == "매우나쁨 💀" <==> 75 < v
  {
    Pm25Bands(pollutantType, v);
  }

  /** `NaN` falls through to the last label. */
  lemma GradeTextNaN(pollutantType: string)
    ensures GradeText(None, pollutantType) == "매우나쁨 💀"
  {
  }

  /**
   * The list of a concatenation is the concatenation of the lists: lines keep
   * the order of the records they come from.
   */
  lemma {:induction false} BadAreasAppend(a: seq<Measurement>, b: seq<Measurement>, p: Pollutant)
    ensures BadAreas(a + b, p) == BadAreas(a, p) + BadAreas(b, p)
    decreases |b|
  {
    if b == [] {
      assert a + b == a;
    } else {
      var b', last := b[..|b| - 1], b[|b| - 1];
      var tail := if Listed(last, p) then [AreaLine(last, p)] else [];
      assert (a + b)[..|a + b| - 1] == a + b';
      assert (a + b)[|a + b| - 1] == last;
      assert BadAreas(a + b, p) == BadAreas(a + b', p) + tail;
      assert BadAreas(b, p) == BadAreas(b', p) + tail;
      BadAreasAppend(a, b', p);
      LinesAssociative(BadAreas(a, p), BadAreas(b', p), tail);
    }
  }

  lemma LinesAssociative(x: seq<string>, y: seq<string>, z: seq<string>)
    ensures x + y + z == x + (y + z)
  {
  }

  /** A single record contributes its line exactly when it is listed, and nothing else. */
  lemma BadAreasSingle(m: Measurement, p: Pollutant)
    ensures BadAreas([m], p) == if Listed(m, p) then [AreaLine(m, p)] else []
  {
    assert [m][..0] == [];
  }

  /** The list is empty exactly when no record reaches the threshold. */
  lemma {:induction false} BadAreasEmptyIff(items: seq<Measurement>, p: Pollutant)
    ensures BadAreas(items, p) == [] <==> forall i :: 0 <= i < |items| ==> !Listed(items[i], p)
    decreases |items|
  {
    if items != [] {
      var front := items[..|items| - 1];
      BadAreasEmptyIff(front, p);
      assert forall i :: 0 <= i < |front| ==> front[i] == items[i];
    }
  }

  /** A record whose reading is not a number is never listed. */
  lemma NaNNeverListed(m: Measurement, p: Pollutant)
    requires Reading(m, p).None?
    ensures BadAreas([m], p) == []
  {
    BadAreasSingle(m, p);
  }

  /** The thresholds are inclusive: 81 and 36 are listed, 80 and 35 are not. */
  lemma ThresholdBoundaries(area: string, other: string)
    ensures Listed(Measurement(area, "81", other), Pm10)
    ensures !Listed(Measurement(area, "80", other), Pm10)
    ensures Listed(Measurement(area, other, "36"), Pm25)
    ensures !Listed(Measurement(area, other, "35"), Pm25)
  {
    assert "81"[..1] == "8" && "80"[..1] == "8";
    assert "36"[..1] == "3" && "35"[..1] == "3";
    assert DigitsValue("8") == 8 && DigitsValue("3") == 3;
    assert DigitsValue("81") == 81 && DigitsValue("80") == 80;
    assert DigitsValue("36") == 36 && DigitsValue("35") == 35;
  }

  /**
   * For canonical integer text, in either section, the line shows the reading
   * as written and its grade, and the record is listed exactly when that
   * reading reaches the pollutant's threshold.
   */
  lemma AreaLineShowsReading(m: Measurement, p: Pollutant, v: int)
    requires (if p == Pm10 then m.pm10Value else m.pm25Value) == IntText(v)
    ensures AreaLine(m, p) == "• " + m.sidoName + ": " + IntText(v) + "㎍/㎥ (" + GradeText(Some(v), TypeTag(p)) + ")"
    ensures Listed(m, p) <==> v >= Threshold(p)
  {
    NumberRoundTrip(v);
  }

  /** The message is empty exactly when both lists are. */
  lemma MessageEmptyIff(pm10Lines: seq<string>, pm25Lines: seq<string>)
    ensures Message(pm10Lines, pm25Lines) == "" <==> pm10Lines == [] && pm25Lines == []
  {
    if pm10Lines != [] {
      assert Message(pm10Lines, pm25Lines)[0] == Pm10Heading[0];
    } else if pm25Lines != [] {
      assert Message(pm10Lines, pm25Lines)[0] == Pm25Heading[0];
    }
  }

  /**
   * Section order: the message opens with the PM10 section when that list is
   * non-empty, and closes with the PM2.5 section when that one is.
   */
  lemma MessageSections(pm10Lines: seq<string>, pm25Lines: seq<string>)
    ensures pm10Lines != [] ==> Section(Pm10Heading, pm10Lines) <= Message(pm10Lines, pm25Lines)
    ensures pm10Lines != [] ==> Pm10Heading <= Message(pm10Lines, pm25Lines)
    ensures pm10Lines == [] && pm25Lines != [] ==> Pm25Heading <= Message(pm10Lines, pm25Lines)
    ensures pm25Lines != [] ==>
      var m := Message(pm10Lines, pm25Lines);
      var s := Section(Pm25Heading, pm25Lines);
      |s| <= |m| && m[|m| - |s|..] == s
  {
    var m := Message(pm10Lines, pm25Lines);
    if pm10Lines != [] {
      var s := Section(Pm10Heading, pm10Lines);
      assert m[..|s|] == s;
      assert s[..|Pm10Heading|] == Pm10Heading;
    }
    if pm10Lines == [] && pm25Lines != [] {
      var s := Section(Pm25Heading, pm25Lines);
      assert m == s;
      assert s[..|Pm25Heading|] == Pm25Heading;
    }
  }

  /** A message is sent exactly when some record reaches one of the two thresholds. */
  lemma SendIff(items: seq<Measurement>)
    ensures Outcome(Some(items)).Some? <==>
      exists i :: 0 <= i < |items| && (Listed(items[i], Pm10) || Listed(items[i], Pm25))
  {
    BadAreasEmptyIff(items, Pm10);
    BadAreasEmptyIff(items, Pm25);
    MessageEmptyIff(BadAreas(items, Pm10), BadAreas(items, Pm25));
  }

  /** Without an item list nothing is sent. */
  lemma NoItemsNoSend()
    ensures Outcome(None) == None
  {
  }
}
