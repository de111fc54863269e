/** GET of the production history: the points of a recent period, oldest
    first and at most a limit of them, projected for the chart and
    summarised. The clock is a parameter; the localised time label of each
    point is not modelled. */
module HistoryRoute {
  import opened Common
  import opened Folds
  import opened Records

  /** `Math.min` of a list that may be empty, where the empty minimum is
      Infinity. */
  datatype Extended = Finite(value: int) | Infinity

  datatype ChartPoint = ChartPoint(timestamp: int, actual: int, target: int, bottlesProduced: int,
                                   defectCount: int, isRunning: bool)

  datatype Summary = Summary(periodMinutes: int, totalProduced: int, totalDefects: int, avgRate: real,
                             maxRate: int, minRate: Extended, defectRate: real, dataPoints: nat)

  datatype History = History(data: seq<ChartPoint>, summary: Option<Summary>)

  function Bottles(r: ProductionRow): int { r.bottlesProduced }
  function Defects(r: ProductionRow): int { r.defectCount }
  function Rate(r: ProductionRow): int { r.actualRate }
  /** Ascending timestamps are descending negated timestamps. */
  function Earliness(r: ProductionRow): int { -r.timestamp }

  function ProducedSince(since: int): ProductionRow -> bool {
    (r: ProductionRow) => r.timestamp >= since
  }

  /** The points of the last `period` minutes (60 by default). */
  function Window(table: seq<ProductionRow>, period: Option<int>, now: int): seq<ProductionRow> {
    Filter(table, ProducedSince(now - period.GetOr(60) * 60 * 1000))
  }

  /** The query: the `limit` (100 by default) oldest points of the window,
      oldest first. */
  function Fetch(table: seq<ProductionRow>, period: Option<int>, limit: Option<nat>, now: int): (rows: seq<ProductionRow>)
    ensures |rows| == if limit.GetOr(100) <= |Window(table, period, now)| then limit.GetOr(100)
                      else |Window(table, period, now)|
    ensures SortedDesc(rows, Earliness)
    ensures multiset(rows) <= multiset(Window(table, period, now))
    ensures forall r :: r in rows ==> r in Window(table, period, now)
    ensures forall r, k :: r in Window(table, period, now) && r !in rows && k in rows ==> Earliness(r) <= Earliness(k)
  {
    TakeSortedTop(Window(table, period, now), Earliness, limit.GetOr(100));
    Take(SortDesc(Window(table, period, now), Earliness), limit.GetOr(100))
  }

  /** The minimum rate over the running points. */
  function MinRunningRate(rows: seq<ProductionRow>): (m: Extended)
    ensures m == Infinity <==> forall r :: r in rows ==> !r.isRunning
    ensures m.Finite? ==> (forall r :: r in rows && r.isRunning ==> m.value <= r.actualRate)
                          && exists r :: r in rows && r.isRunning && r.actualRate == m.value
  {
    if rows == [] then Infinity
    else
      var rest := MinRunningRate(rows[1..]);
      assert forall r :: r in rows ==> r == rows[0] || r in rows[1..];
      if !rows[0].isRunning then rest
      else if rest.Finite? && rest.value < rows[0].actualRate then rest
      else Finite(rows[0].actualRate)
  }

  function Chart(rows: seq<ProductionRow>): (c: seq<ChartPoint>)
    ensures |c| == |rows|
    ensures forall i :: 0 <= i < |rows| ==>
      c[i] == ChartPoint(rows[i].timestamp, rows[i].actualRate, rows[i].targetRate, rows[i].bottlesProduced,
                         rows[i].defectCount, rows[i].isRunning)
  {
    seq(|rows|, i requires 0 <= i < |rows| =>
      ChartPoint(rows[i].timestamp, rows[i].actualRate, rows[i].targetRate, rows[i].bottlesProduced,
                 rows[i].defectCount, rows[i].isRunning))
  }

  /** The mean of `n` values summing to `total`. */
  function Average(total: int, n: nat): (a: real)
    requires n > 0
    ensures a * n as real == total as real
  {
    total as real / n as real
  }

  /** `part` as a percentage of `whole`. */
  function Percentage(part: int, whole: int): (p: real)
    requires whole > 0
    ensures p * whole as real == part as real * 100.0
  {
    (part as real / whole as real) * 100.0
  }

  /** The response for the fetched points: nothing to chart and no summary
      when there is no point. */
  function Respond(rows: seq<ProductionRow>, period: Option<int>): (h: History)
    ensures rows == [] <==> h.summary == None
    ensures h.data == if rows == [] then [] else Chart(rows)
  {
    if rows == [] then History([], None)
    else
      var totalProduced := Sum(rows, Bottles);
      var totalDefects := Sum(rows, Defects);
      History(Chart(rows),
              Some(Summary(period.GetOr(60), totalProduced, totalDefects,
                           Average(Sum(rows, Rate), |rows|),
                           MaxOf(rows, Rate), MinRunningRate(rows),
                           if totalProduced > 0 then Percentage(totalDefects, totalProduced) else 0.0,
                           |rows|)))
  }

  /** The summary's figures: the totals are sums, the maximum is over all
      points and the minimum over running points only, so the minimum, when
      there is one, is not above the maximum; no production means a defect
      rate of 0; one data point per row. */
  lemma SummaryFacts(rows: seq<ProductionRow>, period: Option<int>)
    requires rows != []
    ensures var s := Respond(rows, period).summary.value;
      s.totalProduced == Sum(rows, Bottles) && s.totalDefects == Sum(rows, Defects)
      && s.dataPoints == |rows|
      && (forall r :: r in rows ==> r.actualRate <= s.maxRate)
      && (s.minRate.Finite? ==> s.minRate.value <= s.maxRate)
      && (s.minRate == Infinity <==> forall r :: r in rows ==> !r.isRunning)
      && (s.totalProduced == 0 ==> s.defectRate == 0.0)
      && s.maxRate == MaxOf(rows, Rate) && s.minRate == MinRunningRate(rows)
      && s.avgRate == Average(Sum(rows, Rate), |rows|)
      && (s.totalProduced > 0 ==> s.defectRate == Percentage(s.totalDefects, s.totalProduced))
      && s.periodMinutes == period.GetOr(60)
  {
    var s := Respond(rows, period).summary.value;
    if s.minRate.Finite? {
      var r :| r in rows && r.isRunning && r.actualRate == s.minRate.value;
    }
  }
}
