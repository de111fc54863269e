/** The live dashboard: the latest production point of the last five
    minutes, the current KPI snapshot, active alerts and stops, the
    post-processing of the SQL aggregates (hourly production, stop minutes
    per category, shift comparison), the fallbacks used when data is
    missing, and the POST that records a production point. */
module DashboardRoute {
  import opened Common
  import opened Folds
  import opened Records
  import MqttService

  const Blue: string := "#3B82F6"
  const Red: string := "#EF4444"
  const Orange: string := "#F59E0B"
  const Violet: string := "#8B5CF6"
  const Grey: string := "#6B7280"

  /** The colour of a stop category, whatever its case. */
  function DowntimeColor(category: string): (c: string)
    ensures var l := ToLower(category);
      (c == Blue <==> l == "planned" || l == "maintenance")
      && (c == Red <==> l == "unplanned" || l == "breakdown")
      && (c == Orange <==> l == "changeover" || l == "setup")
      && (c == Violet <==> l == "material" || l == "supply")
      && (c == Grey <==> l !in {"planned", "maintenance", "unplanned", "breakdown", "changeover", "setup",
                                "material", "supply"})
  {
    match ToLower(category)
    case "planned" => Blue
    case "maintenance" => Blue
    case "unplanned" => Red
    case "breakdown" => Red
    case "changeover" => Orange
    case "setup" => Orange
    case "material" => Violet
    case "supply" => Violet
    case _ => Grey
  }

  /** Every category the MQTT ingestion assigns, except 'other', has a
      colour of its own. */
  lemma CategoriesAreColoured(reason: string)
    ensures MqttService.CategorizeDowntime(reason) != "other" ==>
      DowntimeColor(MqttService.CategorizeDowntime(reason)) != Grey
  {
    var c := MqttService.CategorizeDowntime(reason);
    assert ToLower("breakdown") == "breakdown";
    assert ToLower("changeover") == "changeover";
    assert ToLower("maintenance") == "maintenance";
    assert ToLower("material") == "material";
  }

  /** `Math.round`: to the nearest integer, halves upwards. */
  function Round(x: real): (n: int)
    ensures n as real - 0.5 <= x < n as real + 0.5
  {
    (x + 0.5).Floor
  }

  // ---------------------------------------------------------- the queries

  function Timestamp(r: ProductionRow): int { r.timestamp }
  function AlertTime(a: AlertRow): int { a.timestamp }
  function Start(d: DowntimeRow): int { d.startTime }

  function Recent(since: int): ProductionRow -> bool {
    (r: ProductionRow) => r.timestamp >= since
  }

  predicate Active(a: AlertRow) { !a.isResolved }

  /** `findFirst` of the rows of the last five minutes, newest first. */
  function CurrentProduction(rows: seq<ProductionRow>, now: int): (c: Option<ProductionRow>)
    ensures c.None? <==> forall r :: r in rows ==> r.timestamp < now - 5 * 60 * 1000
    ensures c.Some? ==>
      (c.value in rows && c.value.timestamp >= now - 5 * 60 * 1000
       && forall r :: r in rows && r.timestamp >= now - 5 * 60 * 1000 ==> r.timestamp <= c.value.timestamp)
  {
    var recent := Filter(rows, Recent(now - 5 * 60 * 1000));
    if recent == [] then None else Some(Newest(recent))
  }

  /** The first of the newest rows. */
  function Newest(s: seq<ProductionRow>): (r: ProductionRow)
    requires s != []
    ensures r in s
    ensures forall x :: x in s ==> x.timestamp <= r.timestamp
  {
    if |s| == 1 then s[0]
    else
      var n := Newest(s[1..]);
      if s[0].timestamp >= n.timestamp then s[0] else n
  }

  /** The ten newest unresolved alerts, newest first. */
  function ActiveAlerts(alerts: seq<AlertRow>): (r: seq<AlertRow>)
    ensures |r| == if Count(alerts, Active) < 10 then Count(alerts, Active) else 10
    ensures SortedDesc(r, AlertTime)
    ensures multiset(r) <= multiset(Filter(alerts, Active))
    ensures forall a :: a in r ==> a in alerts && !a.isResolved
    ensures forall a, k :: a in alerts && !a.isResolved && a !in r && k in r ==> a.timestamp <= k.timestamp
  {
    ActiveAlertsTop(alerts);
    Take(SortDesc(Filter(alerts, Active), AlertTime), 10)
  }

  lemma ActiveAlertsTop(alerts: seq<AlertRow>)
    ensures var r := Take(SortDesc(Filter(alerts, Active), AlertTime), 10);
      |r| == (if Count(alerts, Active) < 10 then Count(alerts, Active) else 10)
      && SortedDesc(r, AlertTime)
      && multiset(r) <= multiset(Filter(alerts, Active))
      && (forall a :: a in r ==> a in alerts && !a.isResolved)
      && (forall a, k :: a in alerts && !a.isResolved && a !in r && k in r ==> a.timestamp <= k.timestamp)
  {
    var active := Filter(alerts, Active);
    var r := Take(SortDesc(active, AlertTime), 10);
    TakeSortedTop(active, AlertTime, 10);
    forall a | a in r ensures a in alerts && !a.isResolved {
      assert a in active;
    }
    forall a, k | a in alerts && !a.isResolved && a !in r && k in r ensures a.timestamp <= k.timestamp {
      assert Active(a);
      assert a in active;
      assert AlertTime(a) <= AlertTime(k);
    }
  }

  /** The unresolved stops, newest first. */
  function ActiveDowntime(downtimes: seq<DowntimeRow>): (r: seq<DowntimeRow>)
    ensures SortedDesc(r, Start)
    ensures multiset(r) == multiset(Filter(downtimes, Unresolved))
  {
    SortDescProps(Filter(downtimes, Unresolved), Start);
    SortDesc(Filter(downtimes, Unresolved), Start)
  }

  // -------------------------------------------------------- the response

  datatype Quality = Quality(conformityRate: real, defectRate: real, defectCount: int)

  datatype Production = Production(totalProduced: int, currentRate: int, objectif: int, isRunning: bool,
                                   temperature: Option<real>, pressure: Option<real>)

  datatype Component = Component(name: string, value: real, color: string)

  datatype Event = Event(reason: string, category: string, duration: int, startTime: int)

  /** One row of an SQL aggregate, as the query returns it. */
  datatype HourAggregate = HourAggregate(hour: string, production: Option<real>, objectif: Option<real>)
  datatype CategoryAggregate = CategoryAggregate(name: string, value: Option<real>)
  datatype ShiftAggregate = ShiftAggregate(shift: string, production: Option<real>)

  datatype HourRow = HourRow(hour: string, production: int, objectif: int)
  datatype ReasonRow = ReasonRow(name: string, value: int, color: string)
  datatype ShiftRow = ShiftRow(shift: string, production: int, trs: real, efficiency: int)

  datatype Counts = Counts(production: nat, alerts: nat, downtime: nat, equipment: nat)

  datatype Dashboard = Dashboard(trs: real, production: Production, quality: Quality, downtimeTotal: int,
                                 downtimeActive: nat, activeEvents: seq<Event>, hourlyProduction: seq<HourRow>,
                                 trsComponents: seq<Component>, alerts: seq<AlertRow>,
                                 downtimeReasons: seq<ReasonRow>, shiftComparison: seq<ShiftRow>,
                                 dataPoints: Counts)

  /** `max(1, n)` */
  function AtLeastOne(n: int): (r: int)
    ensures r >= 1 && r >= n
  {
    if n > 1 then n else 1
  }

  function QualityOf(current: Option<ProductionRow>): (q: Quality)
    ensures current.None? ==> q == Quality(96.8, 3.2, 0)
    ensures q.conformityRate >= 0.0
    ensures current.Some? ==>
      q.defectCount == current.value.defectCount
      && q.defectRate * AtLeastOne(current.value.bottlesProduced) as real == current.value.defectCount as real * 100.0
  {
    match current
    case None => Quality(96.8, 3.2, 0)
    case Some(p) =>
      var rate := (p.defectCount as real / AtLeastOne(p.bottlesProduced) as real) * 100.0;
      Quality(if 100.0 - rate > 0.0 then 100.0 - rate else 0.0, rate, p.defectCount)
  }

  /** The TRS of the snapshot, or without one 82.1 while running, else 0. */
  function Trs(snapshot: Option<KPISnapshot>, current: Option<ProductionRow>): real {
    if snapshot.Some? then snapshot.value.trs
    else if current.Some? && current.value.isRunning then 82.1
    else 0.0
  }

  /** `x || null` for a reading: 0 is reported as null. */
  function Reading(x: Option<real>): Option<real> {
    if TruthyReal(x) then x else None
  }

  function ProductionOf(current: Option<ProductionRow>): Production {
    match current
    case None => Production(0, 0, 2500, false, None, None)
    case Some(p) =>
      Production(p.bottlesProduced, p.actualRate, p.targetRate * 60, p.isRunning,
                 Reading(p.temperature), Reading(p.pressure))
  }

  /** The three TRS components, from the snapshot or the fixed fallbacks. */
  function TrsComponents(snapshot: Option<KPISnapshot>): (c: seq<Component>)
    ensures |c| == 3 && c[0].name == "Disponibilité" && c[1].name == "Performance" && c[2].name == "Qualité"
    ensures snapshot.Some? ==> c[0].value == snapshot.value.availability && c[1].value == snapshot.value.performance
                               && c[2].value == snapshot.value.quality
    ensures snapshot.None? ==> c[0].value == 95.2 && c[1].value == 87.4 && c[2].value == 96.8
  {
    match snapshot
    case Some(k) =>
      [Component("Disponibilité", k.availability, "#10B981"), Component("Performance", k.performance, Blue),
       Component("Qualité", k.quality, Violet)]
    case None =>
      [Component("Disponibilité", 95.2, "#10B981"), Component("Performance", 87.4, Blue),
       Component("Qualité", 96.8, Violet)]
  }

  /** A still-open stop reports the whole minutes elapsed since it began. */
  function EventOf(d: DowntimeRow, now: int): (e: Event)
    ensures e.reason == d.reason && e.category == d.category && e.startTime == d.startTime
    ensures TruthyInt(d.duration) ==> e.duration == d.duration.value
    ensures !TruthyInt(d.duration) && d.startTime <= now ==> e.duration >= 0
    ensures !TruthyInt(d.duration) ==> e.duration * 60000 <= now - d.startTime < (e.duration + 1) * 60000
  {
    Event(d.reason, d.category, if TruthyInt(d.duration) then d.duration.value else (now - d.startTime) / 60000,
          d.startTime)
  }

  function Events(active: seq<DowntimeRow>, now: int): (r: seq<Event>)
    ensures |r| == |active|
    ensures forall i :: 0 <= i < |active| ==> r[i] == EventOf(active[i], now)
  {
    seq(|active|, i requires 0 <= i < |active| => EventOf(active[i], now))
  }

  /** `Math.round(x || d)` */
  function RoundOr(x: Option<real>, d: real): int {
    Round(if TruthyReal(x) then x.value else d)
  }

  function HourRows(rows: seq<HourAggregate>): (r: seq<HourRow>)
    ensures |r| == |rows|
    ensures forall i :: 0 <= i < |rows| ==>
      r[i] == HourRow(rows[i].hour + "h", RoundOr(rows[i].production, 0.0), RoundOr(rows[i].objectif, 850.0))
  {
    seq(|rows|, i requires 0 <= i < |rows| =>
      HourRow(rows[i].hour + "h", RoundOr(rows[i].production, 0.0), RoundOr(rows[i].objectif, 850.0)))
  }

  function ReasonRows(rows: seq<CategoryAggregate>): (r: seq<ReasonRow>)
    ensures |r| == |rows|
    ensures forall i :: 0 <= i < |rows| ==>
      r[i] == ReasonRow(rows[i].name, RoundOr(rows[i].value, 0.0), DowntimeColor(rows[i].name))
  {
    seq(|rows|, i requires 0 <= i < |rows| =>
      ReasonRow(rows[i].name, RoundOr(rows[i].value, 0.0), DowntimeColor(rows[i].name)))
  }

  /** `Math.round(production / 2500 * 100) || 90`: a null average (NaN) or
      one that rounds to 0 gives 90. */
  function ShiftEfficiency(production: Option<real>): (e: int)
    ensures production.None? ==> e == 90
    ensures e != 0
  {
    match production
    case None => 90
    case Some(p) => var n := Round((p / 2500.0) * 100.0); if n != 0 then n else 90
  }

  function ShiftRows(rows: seq<ShiftAggregate>, snapshot: Option<KPISnapshot>): (r: seq<ShiftRow>)
    ensures |r| == |rows|
    ensures forall i :: 0 <= i < |rows| ==>
      r[i] == ShiftRow(rows[i].shift, RoundOr(rows[i].production, 0.0),
                       if snapshot.Some? then snapshot.value.trs else 80.0, ShiftEfficiency(rows[i].production))
  {
    seq(|rows|, i requires 0 <= i < |rows| =>
      ShiftRow(rows[i].shift, RoundOr(rows[i].production, 0.0),
               if snapshot.Some? then snapshot.value.trs else 80.0, ShiftEfficiency(rows[i].production)))
  }

  /** GET. The SQL aggregates are inputs; `downtimeToday` is the summed
      minutes of today's stops, `equipment` the number of active machines. */
  function Get(rows: seq<ProductionRow>, snapshot: Option<KPISnapshot>, alerts: seq<AlertRow>,
               downtimes: seq<DowntimeRow>, hourly: seq<HourAggregate>, reasons: seq<CategoryAggregate>,
               shifts: seq<ShiftAggregate>, downtimeToday: Option<real>, equipment: nat, now: int): Dashboard {
    var current := CurrentProduction(rows, now);
    var active := ActiveDowntime(downtimes);
    var shown := ActiveAlerts(alerts);
    Dashboard(Trs(snapshot, current), ProductionOf(current), QualityOf(current), RoundOr(downtimeToday, 0.0),
              |active|, Events(active, now), HourRows(hourly), TrsComponents(snapshot), shown,
              ReasonRows(reasons), ShiftRows(shifts, snapshot),
              Counts(if current.Some? then 1 else 0, |shown|, |active|, equipment))
  }

  // ------------------------------------------------------------ properties

  /** The fallbacks: TRS from the snapshot, else 82.1 while running, else 0;
      the hourly target is 60 times the rate per minute, else 2500. */
  lemma Fallbacks(rows: seq<ProductionRow>, snapshot: Option<KPISnapshot>, alerts: seq<AlertRow>,
                  downtimes: seq<DowntimeRow>, hourly: seq<HourAggregate>, reasons: seq<CategoryAggregate>,
                  shifts: seq<ShiftAggregate>, downtimeToday: Option<real>, equipment: nat, now: int)
    ensures var d := Get(rows, snapshot, alerts, downtimes, hourly, reasons, shifts, downtimeToday, equipment, now);
      var current := CurrentProduction(rows, now);
      (snapshot.Some? ==> d.trs == snapshot.value.trs)
      && (snapshot.None? && current.Some? && current.value.isRunning ==> d.trs == 82.1)
      && (snapshot.None? && (current.None? || !current.value.isRunning) ==> d.trs == 0.0)
      && (current.Some? ==> d.production.objectif == current.value.targetRate * 60)
      && (current.None? ==> d.production.objectif == 2500 && d.dataPoints.production == 0)
  {
  }

  /** `downtime.active` counts the unresolved stops, and at most ten alerts
      are shown. */
  lemma ActiveCounts(rows: seq<ProductionRow>, snapshot: Option<KPISnapshot>, alerts: seq<AlertRow>,
                     downtimes: seq<DowntimeRow>, hourly: seq<HourAggregate>, reasons: seq<CategoryAggregate>,
                     shifts: seq<ShiftAggregate>, downtimeToday: Option<real>, equipment: nat, now: int)
    ensures var d := Get(rows, snapshot, alerts, downtimes, hourly, reasons, shifts, downtimeToday, equipment, now);
      d.downtimeActive == Count(downtimes, Unresolved) && |d.alerts| <= 10
      && d.dataPoints.downtime == d.downtimeActive
  {
    var active := ActiveDowntime(downtimes);
    assert |active| == |multiset(active)| == |Filter(downtimes, Unresolved)|;
  }

  /** POST: targetRate defaults to 120 and defectCount to 0 when falsy,
      isRunning to true when absent. */
  function Post(bottlesProduced: int, targetRate: Option<int>, actualRate: int, defectCount: Option<int>,
                isRunning: Option<bool>, shiftId: string, temperature: Option<real>, pressure: Option<real>,
                now: int): (r: ProductionRow)
    ensures r.targetRate == (if TruthyInt(targetRate) then targetRate.value else 120)
    ensures r.defectCount == (if TruthyInt(defectCount) then defectCount.value else 0)
    ensures r.isRunning <==> isRunning != Some(false)
    ensures r.bottlesProduced == bottlesProduced && r.actualRate == actualRate && r.timestamp == now
  {
    ProductionRow(now, bottlesProduced, OrInt(targetRate, 120), actualRate, OrInt(defectCount, 0),
                  isRunning.GetOr(true), shiftId, temperature, pressure)
  }
}
