/**
 * dust_alert.js: the single-province PM2.5 alert. Only the first record of
 * the response is read; when its PM2.5 reading is at least 36 the alert text
 * is sent, together with the grade the measurement service assigned.
 */
module DustAlert {
  import opened Wrappers
  import opened JsValues

  /** One record of the real-time measurement list, with the fields the script reads. */
  datatype Station = Station(pm25Value: string, pm25Grade: string)

  /** The lowest PM2.5 concentration that raises an alert. */
  const AlertThreshold: int := 36

  const GradeTable: map<string, string> := map["1" := "좋음", "2" := "보통", "3" := "나쁨", "4" := "매우나쁨"]

  /** `gradeText[grade]`: the name of a service grade code, `undefined` for any other code. */
  function GradeText(grade: string): (r: Option<string>)
    ensures r.Some? <==> grade in {"1", "2", "3", "4"}
  {
    if grade in GradeTable then Some(GradeTable[grade]) else None
  }

  /** The alert text for a region, a reading and a grade code. */
  function AlertText(sidoName: string, pm25: Option<int>, grade: string): (r: string)
    ensures "🚨 [" + sidoName + "] 미세먼지(PM2.5): " <= r
    ensures |r| > 0 && r[|r| - 1] == ')'
  {
    var head := "🚨 [" + sidoName + "] 미세먼지(PM2.5): ";
    var tail := NumberText(pm25) + "㎍/㎥ (" + Display(GradeText(grade)) + ")";
    assert head + NumberText(pm25) + "㎍/㎥ (" + Display(GradeText(grade)) + ")" == head + tail;
    head + NumberText(pm25) + "㎍/㎥ (" + Display(GradeText(grade)) + ")"
  }

  /**
   * What one run sends. An empty list has no first record, so reading it
   * fails and nothing is sent; otherwise the alert is sent exactly when the
   * first record's reading is a number of at least 36.
   */
  function Alert(sidoName: string, items: seq<Station>): (r: Option<string>)
    ensures r.Some? <==>
      |items| > 0 && ParseNumber(items[0].pm25Value).Some? && ParseNumber(items[0].pm25Value).value >= AlertThreshold
    ensures r.Some? ==> r.value == AlertText(sidoName, ParseNumber(items[0].pm25Value), items[0].pm25Grade)
  {
    if items == [] then None
    else
      var item := items[0];
      var pm25 := ParseNumber(item.pm25Value);
      if pm25.Some? && pm25.value >= AlertThreshold then Some(AlertText(sidoName, pm25, item.pm25Grade))
      else None
  }

  // ---------------------------------------------------------------------------
  // Lemmas

  /** The threshold is inclusive: 36 alerts, 35 does not. */
  lemma AlertBoundary(sidoName: string, grade: string, rest: seq<Station>)
    ensures Alert(sidoName, [Station("36", grade)] + rest).Some?
    ensures Alert(sidoName, [Station("35", grade)] + rest) == None
  {
    assert "36"[..1] == "3" && "35"[..1] == "3";
    assert DigitsValue("3") == 3;
    assert DigitsValue("36") == 36 && DigitsValue("35") == 35;
  }

  /** Below the threshold, or for a reading that is not a number, there is no alert. */
  lemma NoAlertBelowThreshold(sidoName: string, items: seq<Station>)
    requires |items| > 0
    requires ParseNumber(items[0].pm25Value).None? || ParseNumber(items[0].pm25Value).value < AlertThreshold
    ensures Alert(sidoName, items) == None
  {
  }

  /** Only the first record matters: the rest of the list never changes the outcome. */
  lemma OnlyFirstRecord(sidoName: string, first: Station, rest: seq<Station>, other: seq<Station>)
    ensures Alert(sidoName, [first] + rest) == Alert(sidoName, [first] + other)
  {
    assert ([first] + rest)[0] == first && ([first] + other)[0] == first;
  }

  /** Grade codes 1 to 4 have names; every other code has none. */
  lemma GradeCodes(grade: string)
    ensures GradeText("1") == Some("좋음") && GradeText("2") == Some("보통")
    ensures GradeText("3") == Some("나쁨") && GradeText("4") == Some("매우나쁨")
    ensures grade !in {"1", "2", "3", "4"} ==> GradeText(grade) == None
  {
  }

  /**
   * The alert for a canonical reading shows the region, the reading as
   * written and the grade's name, and reading the value back out of the text
   * gives the reading.
   */
  lemma AlertShowsReading(sidoName: string, v: int, grade: string)
    requires v >= AlertThreshold
    ensures Alert(sidoName, [Station(IntText(v), grade)]) ==
      Some("🚨 [" + sidoName + "] 미세먼지(PM2.5): " + IntText(v) + "㎍/㎥ (" + Display(GradeText(grade)) + ")")
    ensures ParseNumber(IntText(v)) == Some(v)
  {
    NumberRoundTrip(v);
  }
}
