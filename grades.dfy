/**
 * The particulate-matter grading shared by `getGradeText` (dust_total.js) and
 * `getGradeEmoji` (dust_stats.js): both walk the same if-chain, with inclusive
 * upper bounds 30/80/150 for PM10 and 15/35/75 for every other type tag, and
 * differ only in the label they attach to each band.
 */
module Grades {
  import opened Wrappers

  datatype Grade = Good | Moderate | Bad | VeryBad

  /** Position of a grade on the severity scale. */
  function Rank(g: Grade): nat {
    match g
    case Good => 0
    case Moderate => 1
    case Bad => 2
    case VeryBad => 3
  }

  /** Inclusive upper bounds of the first three bands, lowest first. */
  const Pm10Bounds: seq<int> := [30, 80, 150]
  const Pm25Bounds: seq<int> := [15, 35, 75]

  /** Only the exact tag "PM10" selects the PM10 table. */
  function BoundsFor(pollutantType: string): seq<int> {
    if pollutantType == "PM10" then Pm10Bounds else Pm25Bounds
  }

  /** Reference definition of a band: how many of the upper bounds `v` lies above. */
  function BandsExceeded(bounds: seq<int>, v: int): (n: nat)
    ensures n <= |bounds|
    decreases |bounds|
  {
    if bounds == [] then 0 else (if v > bounds[0] then 1 else 0) + BandsExceeded(bounds[1..], v)
  }

  /**
   * The grading if-chain. A `NaN` reading (`None`) fails every `<=` test and
   * falls through to the last band.
   */
  function Classify(value: Option<int>, pollutantType: string): (g: Grade)
    ensures value.None? ==> g == VeryBad
    ensures value.Some? ==> Rank(g) == BandsExceeded(BoundsFor(pollutantType), value.value)
  {
    if pollutantType == "PM10" then
      if value.Some? && value.value <= 30 then Good
      else if value.Some? && value.value <= 80 then Moderate
      else if value.Some? && value.value <= 150 then Bad
      else VeryBad
    else
      if value.Some? && value.value <= 15 then Good
      else if value.Some? && value.value <= 35 then Moderate
      else if value.Some? && value.value <= 75 then Bad
      else VeryBad
  }

  // ---------------------------------------------------------------------------
  // Lemmas

  /** A larger value exceeds at least as many bounds. */
  lemma {:induction false} BandsExceededMonotone(bounds: seq<int>, v: int, w: int)
    requires v <= w
    ensures BandsExceeded(bounds, v) <= BandsExceeded(bounds, w)
    decreases |bounds|
  {
    if bounds != [] {
      BandsExceededMonotone(bounds[1..], v, w);
    }
  }

  /** For each pollutant, the grade never decreases as the concentration grows. */
  lemma ClassifyMonotone(pollutantType: string, v: int, w: int)
    requires v <= w
    ensures Rank(Classify(Some(v), pollutantType)) <= Rank(Classify(Some(w), pollutantType))
  {
    BandsExceededMonotone(BoundsFor(pollutantType), v, w);
  }

  /** A `NaN` reading is graded at least as severe as any number. */
  lemma NaNIsWorst(pollutantType: string, v: int)
    ensures Rank(Classify(Some(v), pollutantType)) <= Rank(Classify(None, pollutantType))
  {
  }

  /** The exact PM10 bands; each bound belongs to the lower band. */
  lemma Pm10Bands(v: int)
    ensures Classify(Some(v), "PM10") == Good <==> v <= 30
    ensures Classify(Some(v), "PM10") == Moderate <==> 30 < v <= 80
    ensures Classify(Some(v), "PM10") == Bad <==> 80 < v <= 150
    ensures Classify(Some(v), "PM10") == VeryBad <==> 150 < v
  {
  }

  /** The exact PM2.5 bands, used for every tag other than "PM10". */
  lemma Pm25Bands(pollutantType: string, v: int)
    requires pollutantType != "PM10"
    ensures Classify(Some(v), pollutantType) == Good <==> v <= 15
    ensures Classify(Some(v), pollutantType) == Moderate <==> 15 < v <= 35
    ensures Classify(Some(v), pollutantType) == Bad <==> 35 < v <= 75
    ensures Classify(Some(v), pollutantType) == VeryBad <==> 75 < v
  {
  }
}
