/** The simulated daily indicator series that `PulseIndia` builds once per
    mount: 42 days from 1 October 2024, with a festival (Diwali) anomaly
    window, a short post-festival decay window, and each day flagged as
    actual history or prediction.

    `Math.random()` is injected: every day receives a `DayDraws` record of
    seven reals in [0, 1), the four draws the source makes for the baseline
    values and the three it makes again when the day is in the anomaly or
    decay window. `Math.round` is `Round` below. */
module HistoricalData {
  import opened Calendar

  /** Length of the series, the `i < 42` loop bound. */
  const Days: nat := 42
  /** First and last index of the Diwali window (31 October .. 5 November). */
  const AnomalyFirst: nat := 30
  const AnomalyLast: nat := 35
  /** Last index of the post-Diwali window, which starts right after AnomalyLast. */
  const DecayLast: nat := 38
  /** Days with index below this are actual history, the rest prediction. */
  const ActualCutoff: nat := 30

  function StartDate(): (d: Date)
    ensures ValidDate(d)
  {
    Date(2024, 10, 1)
  }

  datatype Regime = Baseline | Anomaly | Decay

  /** `isDiwaliPeriod` and `isPostDiwali` of the source, as one classification. */
  function RegimeOf(i: int): Regime {
    if i >= AnomalyFirst && i <= AnomalyLast then Anomaly
    else if i > AnomalyLast && i <= DecayLast then Decay
    else Baseline
  }

  datatype Field = Respiratory | Trauma | Fever | Aqi

  /** The half-open interval [min, min + spread) that `min + Math.random() * spread` covers. */
  datatype Range = Range(min: int, spread: nat) {
    /** The largest value rounding can produce from this range. */
    function Max(): int { min + spread }
  }

  /** The generation constants of every field in every regime. Fever has no
      regime-specific branch, so it keeps its baseline range throughout. */
  function RangeOf(f: Field, g: Regime): Range {
    match (f, g)
    case (Respiratory, Baseline) => Range(45, 10)
    case (Respiratory, Anomaly) => Range(85, 15)
    case (Respiratory, Decay) => Range(70, 12)
    case (Trauma, Baseline) => Range(20, 5)
    case (Trauma, Anomaly) => Range(45, 10)
    case (Trauma, Decay) => Range(30, 8)
    case (Fever, _) => Range(30, 8)
    case (Aqi, Baseline) => Range(150, 30)
    case (Aqi, Anomaly) => Range(380, 50)
    case (Aqi, Decay) => Range(320, 40)
  }

  /** One day's worth of `Math.random()` results, in the order the source
      draws them: four baseline values, then three regime overrides. */
  datatype DayDraws = DayDraws(
    respiratory: real, trauma: real, fever: real, aqi: real,
    surgeRespiratory: real, surgeTrauma: real, surgeAqi: real)

  /** What `Math.random()` promises: a value in [0, 1). */
  predicate UnitDraw(r: real) {
    0.0 <= r < 1.0
  }

  predicate ValidDraws(d: DayDraws) {
    UnitDraw(d.respiratory) && UnitDraw(d.trauma) && UnitDraw(d.fever) && UnitDraw(d.aqi)
    && UnitDraw(d.surgeRespiratory) && UnitDraw(d.surgeTrauma) && UnitDraw(d.surgeAqi)
  }

  /** JavaScript's `Math.round`: the nearest integer, halves rounded up. */
  function Round(x: real): (n: int)
    ensures x - 0.5 < n as real <= x + 0.5
  {
    (x + 0.5).Floor
  }

  /** `min + r * spread`, the unrounded value of a draw. */
  function Scaled(rg: Range, r: real): (x: real)
    requires UnitDraw(r)
    ensures rg.min as real <= x <= rg.Max() as real
    ensures rg.spread > 0 ==> x < rg.Max() as real
  {
    SpreadProductBounds(rg.min, rg.spread, r);
    rg.min as real + r * rg.spread as real
  }

  /** min <= min + r * n <= min + n for a draw r and a whole spread n, and
      min + r * n < min + n when the spread is positive, since a draw never
      reaches 1. */
  lemma SpreadProductBounds(min: int, n: nat, r: real)
    requires UnitDraw(r)
    ensures min as real <= min as real + r * n as real <= (min + n) as real
    ensures n > 0 ==> min as real + r * n as real < (min + n) as real
  {
    ProductBelow(r, n as real);
  }

  /** 0 <= r * m <= m for r in [0, 1) and m >= 0, strictly below m when m > 0. */
  lemma ProductBelow(r: real, m: real)
    requires 0.0 <= r < 1.0 && 0.0 <= m
    ensures 0.0 <= r * m <= m
    ensures 0.0 < m ==> r * m < m
  {
    assert m - r * m == (1.0 - r) * m;
  }

  /** The draw a field uses on a day of regime `g`: the first draw when the
      regime keeps the baseline value (always for fever), else the override. */
  function DrawFor(f: Field, g: Regime, d: DayDraws): real {
    if g == Baseline || f == Fever then
      match f
      case Respiratory => d.respiratory
      case Trauma => d.trauma
      case Fever => d.fever
      case Aqi => d.aqi
    else
      match f
      case Respiratory => d.surgeRespiratory
      case Trauma => d.surgeTrauma
      case Fever => d.fever
      case Aqi => d.surgeAqi
  }

  /** The unrounded value of field `f` on a day of regime `g`. */
  function RawValue(f: Field, g: Regime, d: DayDraws): (x: real)
    requires ValidDraws(d)
    ensures RangeOf(f, g).min as real <= x < RangeOf(f, g).Max() as real
  {
    Scaled(RangeOf(f, g), DrawFor(f, g, d))
  }

  /** A record of the series (the display-only `date` string is left out;
      `date` here is the source's `fullDate`). */
  datatype DailyRecord = DailyRecord(
    date: Date,
    respiratory: int, trauma: int, fever: int, total: int, aqi: int,
    isPrediction: bool, isActual: bool)

  function FieldValue(rec: DailyRecord, f: Field): int {
    match f
    case Respiratory => rec.respiratory
    case Trauma => rec.trauma
    case Fever => rec.fever
    case Aqi => rec.aqi
  }

  /** Record `i` as the source builds it from that day's draws; `total` is
      the rounding of the unrounded sum of the three clinical values. */
  function RecordAt(i: nat, d: DayDraws): DailyRecord
    requires ValidDraws(d)
  {
    var g := RegimeOf(i);
    var respiratory := RawValue(Respiratory, g, d);
    var trauma := RawValue(Trauma, g, d);
    var fever := RawValue(Fever, g, d);
    var aqi := RawValue(Aqi, g, d);
    DailyRecord(
      AddDays(StartDate(), i),
      Round(respiratory), Round(trauma), Round(fever),
      Round(respiratory + trauma + fever), Round(aqi),
      i >= ActualCutoff, i < ActualCutoff)
  }

  predicate AllValid(draws: seq<DayDraws>) {
    forall i :: 0 <= i < |draws| ==> ValidDraws(draws[i])
  }

  /** `generateHistoricalData`: a loop over the 42 day indices that starts
      from the baseline draws, overrides respiratory, trauma and AQI inside
      the Diwali and post-Diwali windows, and pushes one record per day. */
  method GenerateHistoricalData(draws: seq<DayDraws>) returns (baseData: seq<DailyRecord>)
    requires |draws| == Days && AllValid(draws)
    ensures |baseData| == Days
    ensures forall i :: 0 <= i < Days ==> baseData[i] == RecordAt(i, draws[i])
    ensures WellFormedSeries(baseData)
  {
    baseData := [];
    var startDate := StartDate();
    for i := 0 to Days
      invariant |baseData| == i
      invariant forall j :: 0 <= j < i ==> baseData[j] == RecordAt(j, draws[j])
    {
      var date := AddDays(startDate, i);
      var isDiwaliPeriod := i >= 30 && i <= 35;
      var isPostDiwali := i > 35 && i <= 38;
      var d := draws[i];
      ghost var g := RegimeOf(i);

      var respiratory := Scaled(Range(45, 10), d.respiratory);
      var trauma := Scaled(Range(20, 5), d.trauma);
      var fever := Scaled(Range(30, 8), d.fever);
      var aqi := Scaled(Range(150, 30), d.aqi);
      assert fever == RawValue(Fever, g, d);

      if isDiwaliPeriod {
        respiratory := Scaled(Range(85, 15), d.surgeRespiratory);
        trauma := Scaled(Range(45, 10), d.surgeTrauma);
        aqi := Scaled(Range(380, 50), d.surgeAqi);
        assert g == Anomaly;
        assert respiratory == RawValue(Respiratory, g, d) && trauma == RawValue(Trauma, g, d)
          && aqi == RawValue(Aqi, g, d);
      } else if isPostDiwali {
        respiratory := Scaled(Range(70, 12), d.surgeRespiratory);
        trauma := Scaled(Range(30, 8), d.surgeTrauma);
        aqi := Scaled(Range(320, 40), d.surgeAqi);
        assert g == Decay;
        assert respiratory == RawValue(Respiratory, g, d) && trauma == RawValue(Trauma, g, d)
          && aqi == RawValue(Aqi, g, d);
      } else {
        assert g == Baseline;
        assert respiratory == RawValue(Respiratory, g, d) && trauma == RawValue(Trauma, g, d)
          && aqi == RawValue(Aqi, g, d);
      }

      var record := DailyRecord(
        date,
        Round(respiratory), Round(trauma), Round(fever),
        Round(respiratory + trauma + fever), Round(aqi),
        i >= 30, i < 30);
      assert record == RecordAt(i, d);
      baseData := baseData + [record];
    }
    SeriesIsWellFormed(draws, baseData);
  }

  // ---------------------------------------------------------------------
  // Properties of the series

  /** What every generated series satisfies: its length, contiguous dates
      from the start date, the actual/prediction flags and the per-regime
      bounds of every rounded field. */
  predicate WellFormedSeries(s: seq<DailyRecord>) {
    |s| == Days
    && s[0].date == StartDate()
    && (forall i :: 0 <= i < |s| ==> ValidDate(s[i].date))
    && (forall i :: 0 < i < |s| ==> s[i].date == NextDay(s[i - 1].date))
    && (forall i :: 0 <= i < |s| ==> s[i].isActual == (i < ActualCutoff))
    && (forall i :: 0 <= i < |s| ==> s[i].isPrediction != s[i].isActual)
    && (forall i, f :: 0 <= i < |s| ==>
          RangeOf(f, RegimeOf(i)).min <= FieldValue(s[i], f) <= RangeOf(f, RegimeOf(i)).Max())
  }

  /** Every rounded field of record `i` lies in [min, min + spread] of the
      range its regime prescribes. */
  lemma RecordInRange(i: nat, d: DayDraws, f: Field)
    requires ValidDraws(d)
    ensures var rg := RangeOf(f, RegimeOf(i));
            rg.min <= FieldValue(RecordAt(i, d), f) <= rg.Max()
  {
  }

  /** A series whose records are `RecordAt` of valid draws is well formed. */
  lemma SeriesIsWellFormed(draws: seq<DayDraws>, s: seq<DailyRecord>)
    requires |draws| == Days && AllValid(draws)
    requires |s| == Days && forall i :: 0 <= i < Days ==> s[i] == RecordAt(i, draws[i])
    ensures WellFormedSeries(s)
  {
    forall i, f | 0 <= i < |s|
      ensures RangeOf(f, RegimeOf(i)).min <= FieldValue(s[i], f) <= RangeOf(f, RegimeOf(i)).Max()
    {
      RecordInRange(i, draws[i], f);
    }
  }
}
