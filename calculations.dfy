/** The simplified TRS (overall equipment effectiveness) computation and
    the classification of a KPI value against its thresholds. Values are
    reals; the two-decimal rounding of the results is not modelled. */
module Calculations {

  datatype TRSCalculation = TRSCalculation(trs: real, availability: real, performance: real, quality: real)

  /** calculateSimplifiedTRS before rounding: each ratio is 0 when its
      denominator is not positive. */
  function CalculateSimplifiedTRS(totalMinutes: real, downtimeMinutes: real, bottlesProduced: real,
                                  targetRate: real, defects: real): (r: TRSCalculation)
    ensures totalMinutes <= 0.0 ==> r.availability == 0.0
    ensures totalMinutes > 0.0 ==> r.availability * totalMinutes == (totalMinutes - downtimeMinutes) * 100.0
    ensures targetRate * (totalMinutes - downtimeMinutes) <= 0.0 ==> r.performance == 0.0
    ensures targetRate * (totalMinutes - downtimeMinutes) > 0.0 ==>
      r.performance * (targetRate * (totalMinutes - downtimeMinutes)) == bottlesProduced * 100.0
    ensures bottlesProduced <= 0.0 ==> r.quality == 0.0
    ensures bottlesProduced > 0.0 ==> r.quality * bottlesProduced == (bottlesProduced - defects) * 100.0
    ensures r.trs * 10000.0 == r.availability * r.performance * r.quality
  {
    var runTime := totalMinutes - downtimeMinutes;
    var targetProduction := targetRate * runTime;
    var goodUnits := bottlesProduced - defects;
    var availability := if totalMinutes > 0.0 then (runTime / totalMinutes) * 100.0 else 0.0;
    var performance := if targetProduction > 0.0 then (bottlesProduced / targetProduction) * 100.0 else 0.0;
    var quality := if bottlesProduced > 0.0 then (goodUnits / bottlesProduced) * 100.0 else 0.0;
    TRSCalculation((availability * performance * quality) / 10000.0, availability, performance, quality)
  }

  /** No downtime gives full availability; no defects give full quality. */
  lemma PerfectRatios(totalMinutes: real, bottlesProduced: real, targetRate: real)
    requires totalMinutes > 0.0 && bottlesProduced > 0.0
    ensures CalculateSimplifiedTRS(totalMinutes, 0.0, bottlesProduced, targetRate, 0.0).availability == 100.0
    ensures CalculateSimplifiedTRS(totalMinutes, 0.0, bottlesProduced, targetRate, 0.0).quality == 100.0
  {
  }

  /** With downtime within the period and defects within the production,
      availability and quality are percentages, and the TRS never exceeds
      the performance. */
  lemma RatiosArePercentages(totalMinutes: real, downtimeMinutes: real, bottlesProduced: real,
                             targetRate: real, defects: real)
    requires 0.0 <= downtimeMinutes <= totalMinutes && 0.0 <= defects <= bottlesProduced
    requires targetRate >= 0.0
    ensures var r := CalculateSimplifiedTRS(totalMinutes, downtimeMinutes, bottlesProduced, targetRate, defects);
      0.0 <= r.availability <= 100.0 && 0.0 <= r.quality <= 100.0 && r.performance >= 0.0
      && 0.0 <= r.trs <= r.performance
  {
    var r := CalculateSimplifiedTRS(totalMinutes, downtimeMinutes, bottlesProduced, targetRate, defects);
    var a, p, q := r.availability, r.performance, r.quality;
    if totalMinutes > 0.0 {
      PercentOfWhole(a, totalMinutes - downtimeMinutes, totalMinutes);
    }
    if bottlesProduced > 0.0 {
      PercentOfWhole(q, bottlesProduced - defects, bottlesProduced);
    }
    var tp := targetRate * (totalMinutes - downtimeMinutes);
    if tp > 0.0 {
      NonNegativeQuotient(p, tp, bottlesProduced * 100.0);
    }
    TrsBound(a, p, q, r.trs);
  }

  /** p solves p * d == n with a positive d and a non-negative n. */
  lemma NonNegativeQuotient(p: real, d: real, n: real)
    requires d > 0.0 && n >= 0.0 && p * d == n
    ensures p >= 0.0
  {
    assert p == n / d;
  }

  /** The product of two percentages and a non-negative performance,
      divided by 10000, lies between 0 and that performance. */
  lemma TrsBound(a: real, p: real, q: real, t: real)
    requires 0.0 <= a <= 100.0 && 0.0 <= q <= 100.0 && p >= 0.0
    requires t * 10000.0 == a * p * q
    ensures 0.0 <= t <= p
  {
    assert 0.0 <= a * q <= 10000.0 by {
      assert a * q <= 100.0 * q <= 100.0 * 100.0;
    }
    assert a * p * q == (a * q) * p;
    assert (a * q) * p <= 10000.0 * p;
  }

  /** x is num as a percentage of whole: with 0 <= num <= whole it lies in
      [0, 100]. */
  lemma PercentOfWhole(x: real, num: real, whole: real)
    requires whole > 0.0 && 0.0 <= num <= whole && x * whole == num * 100.0
    ensures 0.0 <= x <= 100.0
  {
    assert (x - 100.0) * whole <= 0.0;
    assert x * whole >= 0.0;
  }

  datatype KPIStatus = Good | Warning | Critical

  /** getKPIStatus */
  function GetKPIStatus(value: real, good: real, warning: real): (s: KPIStatus)
    ensures s == Good <==> value >= good
    ensures s == Warning <==> warning <= value < good
    ensures s == Critical <==> value < good && value < warning
  {
    if value >= good then Good
    else if value >= warning then Warning
    else Critical
  }

  function Rank(s: KPIStatus): nat {
    match s
    case Critical => 0
    case Warning => 1
    case Good => 2
  }

  /** When warning <= good, a higher value never gets a worse status. */
  lemma KPIStatusMonotone(v: real, w: real, good: real, warning: real)
    requires warning <= good && v <= w
    ensures Rank(GetKPIStatus(v, good, warning)) <= Rank(GetKPIStatus(w, good, warning))
  {
  }

  datatype Kpi = TRS | Availability | Performance | Quality
  datatype Thresholds = Thresholds(excellent: real, good: real, warning: real)

  /** KPI_THRESHOLDS */
  function KPIThresholds(k: Kpi): Thresholds {
    match k
    case TRS => Thresholds(85.0, 75.0, 65.0)
    case Availability => Thresholds(90.0, 85.0, 75.0)
    case Performance => Thresholds(95.0, 85.0, 75.0)
    case Quality => Thresholds(99.0, 97.0, 95.0)
  }

  /** Every KPI's thresholds are strictly ordered, so its classification is
      monotone. */
  lemma ThresholdsOrdered(k: Kpi)
    ensures KPIThresholds(k).excellent > KPIThresholds(k).good > KPIThresholds(k).warning
  {
  }
}
