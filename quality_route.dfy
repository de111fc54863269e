/** The quality report: the quality records of the chosen period (newest
    first) filtered by severity and status, the quality metrics, defects per
    type (largest first) and per line, and the hourly SPC chart of the last
    24 hours with its control limits. Rounding is not modelled. */
module QualityRoute {
  import opened Common
  import opened Folds
  import opened Records

  /** A quality-control record; `quantity` is the number of defective units. */
  datatype Defect = Defect(timestamp: int, defectType: string, severity: string, quantity: int,
                           totalProduced: int, line: string, status: string)

  /** The dates the route derives from the clock: now, local midnight, the
      same time 7 days back and one calendar month back (ms). */
  datatype Clock = Clock(now: int, midnight: int, weekAgo: int, monthAgo: int)

  datatype Metrics = Metrics(conformityRate: real, defectRate: real, firstPassYield: real, totalDefects: int,
                             openIssues: nat, closedIssues: nat, criticalIssues: nat, scrapCost: real,
                             reworkCost: int, totalQualityCost: real)

  datatype TypeRow = TypeRow(name: string, value: int, percentage: Option<real>)

  datatype LineRow = LineRow(line: string, defects: int, color: string)

  /** One hour's bucket: `{ produced, defects, count }`. */
  datatype HourTotals = HourTotals(produced: int, defects: int, count: int)

  datatype SpcPoint = SpcPoint(hour: string, defectRate: real, produced: int)

  /** The SPC chart; the centre line and limits are absent (NaN, serialised
      as null) when there is no point. */
  datatype SpcChart = SpcChart(data: seq<SpcPoint>, centerLine: Option<real>, upperControlLimit: Option<real>,
                               lowerControlLimit: Option<real>, upperWarningLimit: Option<real>,
                               lowerWarningLimit: Option<real>)

  datatype Report = Report(defects: seq<Defect>, metrics: Metrics, defectsByType: seq<TypeRow>,
                           lineQuality: seq<LineRow>, spcChart: SpcChart)

  const DayMs: int := 24 * 60 * 60 * 1000

  /** `period || 'today'`, then the switch: midnight today, 7 days back,
      one month back, or now for any other period. */
  function PeriodStart(period: Option<string>, c: Clock): (start: int)
    ensures OrStr(period, "today") == "today" ==> start == c.midnight
    ensures OrStr(period, "today") == "week" ==> start == c.weekAgo
    ensures OrStr(period, "today") == "month" ==> start == c.monthAgo
    ensures OrStr(period, "today") !in {"today", "week", "month"} ==> start == c.now
  {
    match OrStr(period, "today")
    case "today" => c.midnight
    case "week" => c.weekAgo
    case "month" => c.monthAgo
    case _ => c.now
  }

  function Timestamp(d: Defect): int { d.timestamp }
  function Quantity(d: Defect): int { d.quantity }
  function Produced(d: Defect): int { d.totalProduced }
  function DefectType(d: Defect): string { d.defectType }
  function Line(d: Defect): string { d.line }

  predicate Open(d: Defect) { d.status == "open" || d.status == "investigating" }
  predicate Closed(d: Defect) { d.status == "closed" || d.status == "corrected" }
  predicate Corrected(d: Defect) { d.status == "corrected" }
  predicate Critical(d: Defect) { d.severity == "critical" }
  predicate Typed(d: Defect) { d.defectType != "" }

  /** The `where` of the query: period start, severity and status filters. */
  function Admits(start: int, severity: Option<string>, status: Option<string>): Defect -> bool {
    (d: Defect) => d.timestamp >= start && FilterAdmits(severity, d.severity) && FilterAdmits(status, d.status)
  }

  /** The queried records, newest first. */
  function Listing(all: seq<Defect>, start: int, severity: Option<string>, status: Option<string>): (r: seq<Defect>)
    ensures SortedDesc(r, Timestamp)
    ensures multiset(r) == multiset(Filter(all, Admits(start, severity, status)))
  {
    SortDescProps(Filter(all, Admits(start, severity, status)), Timestamp);
    SortDesc(Filter(all, Admits(start, severity, status)), Timestamp)
  }

  /** `part / whole * 100` when whole is positive, else 0. */
  function Rate(part: int, whole: int): real {
    if whole > 0 then (part as real / whole as real) * 100.0 else 0.0
  }

  /** The metrics over the records `defects` and the production rows `rows`
      of the same period. */
  function Metric(defects: seq<Defect>, rows: seq<ProductionRow>): Metrics {
    var quantity := Sum(defects, Quantity);
    var conformity := 100.0 - Rate(quantity, Sum(defects, Produced));
    var scrap := quantity as real * 0.5;
    var rework := Count(defects, Corrected) * 50;
    Metrics(conformity, Rate(Sum(rows, RowDefects), Sum(rows, RowBottles)), conformity, Sum(rows, RowDefects),
            Count(defects, Open), Count(defects, Closed), Count(defects, Critical),
            scrap, rework, scrap + rework as real)
  }

  function AddQuantity(v: int, d: Defect): int { v + d.quantity }

  function TypeValue(r: TypeRow): int { r.value }

  /** The per-type rows; the percentage is absent when the total quantity is
      0 (a division by zero serialised as null). */
  function TypeRows(g: seq<(string, int)>, total: int): (r: seq<TypeRow>)
    ensures |r| == |g|
    ensures forall i :: 0 <= i < |g| ==>
      r[i].name == g[i].0 && r[i].value == g[i].1 && (r[i].percentage.None? <==> total == 0)
  {
    seq(|g|, i requires 0 <= i < |g| =>
      TypeRow(g[i].0, g[i].1, if total != 0 then Some((g[i].1 as real / total as real) * 100.0) else None))
  }

  /** The colour of a line: Ligne 1 blue, Ligne 2 amber, any other violet. */
  function LineColor(line: string): (c: string)
    ensures line == "Ligne 1" <==> c == "#3B82F6"
    ensures line == "Ligne 2" <==> c == "#F59E0B"
  {
    if line == "Ligne 1" then "#3B82F6" else if line == "Ligne 2" then "#F59E0B" else "#8B5CF6"
  }

  function LineRows(g: seq<(string, int)>): (r: seq<LineRow>)
    ensures |r| == |g|
    ensures forall i :: 0 <= i < |g| ==> r[i] == LineRow(g[i].0, g[i].1, LineColor(g[i].0))
  {
    seq(|g|, i requires 0 <= i < |g| => LineRow(g[i].0, g[i].1, LineColor(g[i].0)))
  }

  /** The hour key `toISOString().substring(0, 13)` of a production row. */
  function Hour(iso: int -> string): ProductionRow -> string {
    (p: ProductionRow) => Prefix(iso(p.timestamp), 13)
  }

  function AddPoint(h: HourTotals, p: ProductionRow): HourTotals {
    HourTotals(h.produced + p.bottlesProduced, h.defects + p.defectCount, h.count + 1)
  }

  /** `hour.substring(11)` */
  function Suffix(s: string, n: nat): string {
    if n <= |s| then s[n..] else ""
  }

  function SpcPoints(g: seq<(string, HourTotals)>): (r: seq<SpcPoint>)
    ensures |r| == |g|
    ensures forall i :: 0 <= i < |g| ==>
      r[i].hour == Suffix(g[i].0, 11) && r[i].produced == g[i].1.produced
      && r[i].defectRate == Rate(g[i].1.defects, g[i].1.produced)
  {
    seq(|g|, i requires 0 <= i < |g| =>
      SpcPoint(Suffix(g[i].0, 11), Rate(g[i].1.defects, g[i].1.produced), g[i].1.produced))
  }

  function PointRate(p: SpcPoint): real { p.defectRate }

  /** The squared deviation from a mean. */
  function Deviation(mean: real): SpcPoint -> real {
    (p: SpcPoint) => (p.defectRate - mean) * (p.defectRate - mean)
  }

  function Max0(x: real): (r: real)
    ensures r >= 0.0 && r >= x
    ensures r == x || r == 0.0
  {
    if x > 0.0 then x else 0.0
  }

  /** The control limits: mean ± 3σ and ± 2σ, the lower ones floored at 0.
      `sqrt` is Math.sqrt. */
  function Chart(points: seq<SpcPoint>, sqrt: real -> real): SpcChart {
    if points == [] then SpcChart(points, None, None, None, None, None)
    else
      var mean := SumReal(points, PointRate) / |points| as real;
      var sd := sqrt(SumReal(points, Deviation(mean)) / |points| as real);
      SpcChart(points, Some(mean), Some(mean + 3.0 * sd), Some(Max0(mean - 3.0 * sd)),
               Some(mean + 2.0 * sd), Some(Max0(mean - 2.0 * sd)))
  }

  function RowBottles(p: ProductionRow): int { p.bottlesProduced }
  function RowDefects(p: ProductionRow): int { p.defectCount }

  /** Minus the timestamp: sorting by it, largest first, puts the oldest
      row first. */
  function RowEarliness(p: ProductionRow): int { -p.timestamp }

  function RowSince(since: int): ProductionRow -> bool {
    (p: ProductionRow) => p.timestamp >= since
  }

  /** The production rows of the last 24 hours, oldest first. */
  function LastDay(rows: seq<ProductionRow>, now: int): seq<ProductionRow> {
    SortDesc(Filter(rows, RowSince(now - DayMs)), RowEarliness)
  }

  /** GET. `rows` is the production table, `iso` is toISOString. The three
      forEach loops are the three group loops. */
  method Get(all: seq<Defect>, rows: seq<ProductionRow>, severity: Option<string>, status: Option<string>,
             period: Option<string>, c: Clock, iso: int -> string, sqrt: real -> real) returns (r: Report)
    ensures var start := PeriodStart(period, c);
      var defects := Listing(all, start, severity, status);
      r.defects == defects
      && r.metrics == Metric(defects, Filter(rows, RowSince(start)))
      && r.defectsByType == SortDesc(TypeRows(GroupFold(Filter(defects, Typed), DefectType, 0, AddQuantity),
                                              Sum(defects, Quantity)), TypeValue)
      && r.lineQuality == LineRows(GroupFold(defects, Line, 0, AddQuantity))
      && r.spcChart == Chart(SpcPoints(GroupFold(LastDay(rows, c.now), Hour(iso), HourTotals(0, 0, 0), AddPoint)), sqrt)
  {
    var start := PeriodStart(period, c);
    var defects := Listing(all, start, severity, status);
    var metrics := Metric(defects, Filter(rows, RowSince(start)));
    var types := GroupLoop(Filter(defects, Typed), DefectType, 0, AddQuantity);
    var lines := GroupLoop(defects, Line, 0, AddQuantity);
    var hours := GroupLoop(LastDay(rows, c.now), Hour(iso), HourTotals(0, 0, 0), AddPoint);
    r := Report(defects, metrics, SortDesc(TypeRows(types, Sum(defects, Quantity)), TypeValue),
                LineRows(lines), Chart(SpcPoints(hours), sqrt));
  }

  // ------------------------------------------------------------ properties

  /** Open and closed issues never exceed the records; rework costs 50 per
      corrected record. */
  lemma IssueCounts(defects: seq<Defect>, rows: seq<ProductionRow>)
    ensures var m := Metric(defects, rows);
      m.openIssues + m.closedIssues <= |defects| && m.reworkCost == 50 * Count(defects, Corrected)
  {
    CountDisjoint(defects, Open, Closed);
  }

  /** Without production the defect rate is 0; with no defective quantity
      conformity, and so the first-pass yield, is 100. */
  lemma RateGuards(defects: seq<Defect>, rows: seq<ProductionRow>)
    ensures var m := Metric(defects, rows);
      m.firstPassYield == m.conformityRate
      && (Sum(rows, RowBottles) <= 0 ==> m.defectRate == 0.0)
      && (Sum(defects, Quantity) == 0 ==> m.conformityRate == 100.0)
  {
  }

  lemma {:induction false} TypeRowsSum(g: seq<(string, int)>, total: int)
    ensures Sum(TypeRows(g, total), TypeValue) == SumGroups(g, Identity)
  {
    if g != [] {
      TypeRowsSum(g[1..], total);
      assert TypeRows(g, total)[1..] == TypeRows(g[1..], total);
    }
  }

  function Identity(v: int): int { v }

  /** Defects by type: largest first, each type once, never the empty type,
      and the values add up to the quantity of the typed records. */
  lemma DefectsByType(defects: seq<Defect>)
    ensures var g := GroupFold(Filter(defects, Typed), DefectType, 0, AddQuantity);
      var rows := SortDesc(TypeRows(g, Sum(defects, Quantity)), TypeValue);
      SortedDesc(rows, TypeValue) && DistinctKeys(g) && "" !in Keys(g)
      && Sum(rows, TypeValue) == Sum(Filter(defects, Typed), Quantity)
  {
    var typed := Filter(defects, Typed);
    var g := GroupFold(typed, DefectType, 0, AddQuantity);
    var rows := TypeRows(g, Sum(defects, Quantity));
    GroupFoldKeys(typed, DefectType, 0, AddQuantity);
    GroupFoldKeysFrom(typed, DefectType, 0, AddQuantity);
    GroupFoldTotal(typed, DefectType, 0, AddQuantity, Identity, Quantity);
    TypeRowsSum(g, Sum(defects, Quantity));
    SortDescProps(rows, TypeValue);
    SortDescSum(rows, TypeValue, TypeValue);
  }

  /** Per line, the defect quantities add up to the total quantity; each
      line appears once. */
  lemma DefectsByLine(defects: seq<Defect>)
    ensures var g := GroupFold(defects, Line, 0, AddQuantity);
      SumGroups(g, Identity) == Sum(defects, Quantity) && DistinctKeys(g)
  {
    GroupFoldTotal(defects, Line, 0, AddQuantity, Identity, Quantity);
    GroupFoldKeys(defects, Line, 0, AddQuantity);
  }

  function BucketCount(h: HourTotals): int { h.count }
  function BucketProduced(h: HourTotals): int { h.produced }
  function One(p: ProductionRow): int { 1 }

  /** The hourly buckets hold every point once: their counts add up to the
      number of points and their produced totals to the bottles produced.
      Stated for any hour key, in particular `Hour(iso)`. */
  lemma HourlyBuckets(points: seq<ProductionRow>, hour: ProductionRow -> string)
    ensures var g := GroupFold(points, hour, HourTotals(0, 0, 0), AddPoint);
      SumGroups(g, BucketCount) == Sum(points, One) && SumGroups(g, BucketProduced) == Sum(points, RowBottles)
  {
    GroupFoldTotal(points, hour, HourTotals(0, 0, 0), AddPoint, BucketCount, One);
    GroupFoldTotal(points, hour, HourTotals(0, 0, 0), AddPoint, BucketProduced, RowBottles);
  }

  /** A bucket's count is the number of its points. */
  lemma BucketCountIsSize(points: seq<ProductionRow>, hour: ProductionRow -> string, k: string)
    ensures Lookup(GroupFold(points, hour, HourTotals(0, 0, 0), AddPoint), k).Some? ==>
      Lookup(GroupFold(points, hour, HourTotals(0, 0, 0), AddPoint), k).value.count == |InGroup(points, hour, k)|
  {
    GroupFoldLookup(points, hour, HourTotals(0, 0, 0), AddPoint, k);
    FoldCount(InGroup(points, hour, k));
  }

  lemma {:induction false} FoldCount(s: seq<ProductionRow>)
    ensures FoldLeft(s, HourTotals(0, 0, 0), AddPoint).count == |s|
  {
    if s != [] {
      FoldCount(s[..|s| - 1]);
    }
  }

  /** The lower limits are never negative, and with a non-negative σ the
      limits are ordered around the centre line. */
  lemma ChartLimits(points: seq<SpcPoint>, sqrt: real -> real)
    ensures var c := Chart(points, sqrt);
      (points == [] <==> c.centerLine.None?)
      && (c.lowerControlLimit.Some? ==> c.lowerControlLimit.value >= 0.0)
      && (c.lowerWarningLimit.Some? ==> c.lowerWarningLimit.value >= 0.0)
      && (points != [] && (forall x :: sqrt(x) >= 0.0) ==>
            c.lowerWarningLimit.value <= Max0(c.centerLine.value)
            && c.centerLine.value <= c.upperWarningLimit.value <= c.upperControlLimit.value)
  {
  }
}
