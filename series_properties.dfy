/** What the generated indicator series guarantees: the calendar it
    covers, the regime windows, the actual/prediction split, the strict
    separation of the regimes, and how `total` relates to the rounded
    fields. */
module SeriesProperties {
  import opened Calendar
  import opened HistoricalData

  // ---------------------------------------------------------------------
  // Dates

  /** The `i`-th record of a well-formed series is `i` days after 1 October 2024. */
  lemma {:induction false} SeriesDateAt(s: seq<DailyRecord>, i: nat)
    requires WellFormedSeries(s) && i < |s|
    ensures s[i].date == AddDays(StartDate(), i)
  {
    if i > 0 {
      SeriesDateAt(s, i - 1);
    }
  }

  /** Dates have no gaps and strictly increase: record `j` lies exactly
      `j - i` days after record `i`. */
  lemma SeriesDatesIncrease(s: seq<DailyRecord>, i: nat, j: nat)
    requires WellFormedSeries(s) && i < j < |s|
    ensures Ordinal(s[j].date) == Ordinal(s[i].date) + (j - i)
    ensures Precedes(s[i].date, s[j].date)
  {
    SeriesDateAt(s, i);
    SeriesDateAt(s, j);
    AddDaysOrdinal(StartDate(), i);
    AddDaysOrdinal(StartDate(), j);
    PrecedesIffOrdinalLess(s[i].date, s[j].date);
  }

  /** Days 30 and 31 after 1 October 2024 are 31 October and 1 November. */
  lemma OctoberOffsets()
    ensures AddDays(StartDate(), 30) == Date(2024, 10, 31)
    ensures AddDays(StartDate(), 31) == Date(2024, 11, 1)
  {
    AddDaysWithinMonth(StartDate(), 30);
  }

  /** Days 35 and 41 after 1 October 2024 are 5 and 11 November. */
  lemma NovemberOffsets()
    ensures AddDays(StartDate(), 35) == Date(2024, 11, 5)
    ensures AddDays(StartDate(), 41) == Date(2024, 11, 11)
  {
    OctoberOffsets();
    AddDaysCompose(StartDate(), 31, 4);
    AddDaysCompose(StartDate(), 31, 10);
    AddDaysWithinMonth(Date(2024, 11, 1), 4);
    AddDaysWithinMonth(Date(2024, 11, 1), 10);
  }

  /** Index 30 is 31 October and index 35 is 5 November, the festival window
      the source's comment names; the last record is 11 November. */
  lemma SeriesCalendar(s: seq<DailyRecord>)
    requires WellFormedSeries(s)
    ensures s[AnomalyFirst].date == Date(2024, 10, 31)
    ensures s[AnomalyLast].date == Date(2024, 11, 5)
    ensures s[Days - 1].date == Date(2024, 11, 11)
  {
    SeriesDateAt(s, AnomalyFirst);
    SeriesDateAt(s, AnomalyLast);
    SeriesDateAt(s, Days - 1);
    OctoberOffsets();
    NovemberOffsets();
  }

  // ---------------------------------------------------------------------
  // Regime windows

  /** The anomaly window is exactly indices 30..35, the decay window exactly
      36..38, and every other index is baseline. */
  lemma RegimeWindows(i: int)
    ensures RegimeOf(i) == Anomaly <==> 30 <= i <= 35
    ensures RegimeOf(i) == Decay <==> 36 <= i <= 38
    ensures RegimeOf(i) == Baseline <==> i < 30 || 38 < i
  {
  }

  /** The windows are disjoint and every anomaly day precedes every decay day. */
  lemma AnomalyPrecedesDecay(i: int, j: int)
    requires RegimeOf(i) == Anomaly && RegimeOf(j) == Decay
    ensures i < j
  {
  }

  /** Decay starts on the day right after the last anomaly day. */
  lemma DecayFollowsAnomaly()
    ensures RegimeOf(AnomalyLast) == Anomaly
    ensures RegimeOf(AnomalyLast + 1) == Decay
  {
  }

  /** Number of indices below `n` that fall in regime `g`. */
  function RegimeCount(g: Regime, n: nat): nat {
    if n == 0 then 0
    else RegimeCount(g, n - 1) + (if RegimeOf(n - 1) == g then 1 else 0)
  }

  lemma {:induction false} RegimeCountsUpTo(n: nat)
    ensures RegimeCount(Anomaly, n) == if n <= 30 then 0 else if n <= 36 then n - 30 else 6
    ensures RegimeCount(Decay, n) == if n <= 36 then 0 else if n <= 39 then n - 36 else 3
    ensures RegimeCount(Baseline, n) == n - RegimeCount(Anomaly, n) - RegimeCount(Decay, n)
  {
    if n > 0 {
      RegimeCountsUpTo(n - 1);
    }
  }

  /** The 42-day series has 6 anomaly days, 3 decay days and 33 baseline days. */
  lemma RegimeCounts()
    ensures RegimeCount(Anomaly, Days) == 6
    ensures RegimeCount(Decay, Days) == 3
    ensures RegimeCount(Baseline, Days) == 33
  {
    RegimeCountsUpTo(Days);
  }

  // ---------------------------------------------------------------------
  // Actual and prediction flags

  /** Number of records flagged actual. */
  function CountActual(s: seq<DailyRecord>): nat {
    if s == [] then 0
    else CountActual(s[..|s| - 1]) + (if s[|s| - 1].isActual then 1 else 0)
  }

  lemma {:induction false} CountActualPrefix(s: seq<DailyRecord>, n: nat)
    requires WellFormedSeries(s) && n <= |s|
    ensures CountActual(s[..n]) == if n <= ActualCutoff then n else ActualCutoff
  {
    if n > 0 {
      assert s[..n][..n - 1] == s[..n - 1];
      CountActualPrefix(s, n - 1);
    }
  }

  /** Exactly one flag per record, the actual records form a prefix (once
      a record is a prediction every later one is too) and exactly 30
      records are actual. */
  lemma ActualIsPrefix(s: seq<DailyRecord>)
    requires WellFormedSeries(s)
    ensures forall i :: 0 <= i < |s| ==> s[i].isActual != s[i].isPrediction
    ensures forall i, j :: 0 <= i < j < |s| && s[j].isActual ==> s[i].isActual
    ensures CountActual(s) == 30
  {
    CountActualPrefix(s, |s|);
    assert s[..|s|] == s;
  }

  // ---------------------------------------------------------------------
  // Regime separation

  /** Rank of a regime by elevation: baseline < decay < anomaly. */
  function Elevation(g: Regime): nat {
    match g
    case Baseline => 0
    case Decay => 1
    case Anomaly => 2
  }

  /** For respiratory, trauma and AQI the ranges are strictly separated:
      the anomaly minimum exceeds the decay maximum, which exceeds the
      baseline maximum. */
  lemma RangesSeparated(f: Field)
    requires f != Fever
    ensures RangeOf(f, Anomaly).min > RangeOf(f, Decay).Max()
    ensures RangeOf(f, Decay).min > RangeOf(f, Baseline).Max()
  {
  }

  /** So every rounded respiratory, trauma or AQI value of a more elevated
      day exceeds that of any less elevated day, whatever the draws. */
  lemma RecordsSeparated(i: nat, di: DayDraws, j: nat, dj: DayDraws, f: Field)
    requires ValidDraws(di) && ValidDraws(dj) && f != Fever
    requires Elevation(RegimeOf(i)) > Elevation(RegimeOf(j))
    ensures FieldValue(RecordAt(i, di), f) > FieldValue(RecordAt(j, dj), f)
  {
  }

  /** Fever is never reassigned in a regime branch: the same draws give the
      same fever on any two days, and its range is the same in every regime. */
  lemma FeverIgnoresRegime(i: nat, j: nat, d: DayDraws)
    requires ValidDraws(d)
    ensures RecordAt(i, d).fever == RecordAt(j, d).fever
    ensures RangeOf(Fever, RegimeOf(i)) == Range(30, 8)
  {
  }

  // ---------------------------------------------------------------------
  // The total

  /** `total` rounds the unrounded sum, so it is within one of the sum of the
      three rounded clinical values. */
  lemma TotalWithinOne(i: nat, d: DayDraws)
    requires ValidDraws(d)
    ensures var r := RecordAt(i, d);
            -1 <= r.total - (r.respiratory + r.trauma + r.fever) <= 1
  {
  }

  /** Draws for which `total` is one more than the sum of the rounded fields. */
  function RoundsDown(): DayDraws {
    DayDraws(0.04, 0.08, 0.05, 0.0, 0.0, 0.0, 0.0)
  }

  /** Draws for which `total` is one less than the sum of the rounded fields. */
  function RoundsUp(): DayDraws {
    DayDraws(0.06, 0.12, 0.075, 0.0, 0.0, 0.0, 0.0)
  }

  /** Both offsets occur: on a baseline day, respiratory 45.4, trauma 20.4
      and fever 30.4 round to 95 but their sum 96.2 rounds to 96; 45.6,
      20.6 and 30.6 round to 98 but 96.8 rounds to 97. */
  lemma TotalDiffersFromSum()
    ensures ValidDraws(RoundsDown()) && ValidDraws(RoundsUp())
    ensures var r := RecordAt(0, RoundsDown());
            r.total == r.respiratory + r.trauma + r.fever + 1
    ensures var r := RecordAt(0, RoundsUp());
            r.total == r.respiratory + r.trauma + r.fever - 1
  {
  }
}
