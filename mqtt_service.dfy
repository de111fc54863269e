/** The server-side MQTT ingestion service: it routes messages by topic,
    stores production points, raises threshold alerts, keeps the current KPI
    snapshot up to date, records machine stops and resolves them on
    restart, and tracks its broker connection. The clock (`now`, in ms, and
    the local hour) and the formatting of numbers into alert texts are
    parameters. */
module MqttService {
  import opened Common
  import opened Folds
  import opened Shifts
  import opened Records

  // ------------------------------------------------------------ routing

  datatype Route = ToProduction | ToStatus | Ignored

  /** handleMessage: topics ending in "/data" carry production points, those
      ending in "/status" machine states; anything else is ignored. */
  function RouteOf(topic: string): (r: Route)
    ensures r == ToProduction <==> EndsWith(topic, "/data")
    ensures r == ToStatus <==> EndsWith(topic, "/status")
    ensures r == Ignored <==> !EndsWith(topic, "/data") && !EndsWith(topic, "/status")
  {
    SuffixesExclusive(topic);
    if EndsWith(topic, "/data") then ToProduction
    else if EndsWith(topic, "/status") then ToStatus
    else Ignored
  }

  /** No topic ends in both suffixes, so the order of the tests is
      immaterial. */
  lemma SuffixesExclusive(topic: string)
    ensures !(EndsWith(topic, "/data") && EndsWith(topic, "/status"))
  {
    if EndsWith(topic, "/data") && |topic| >= 7 {
      assert topic[|topic| - 5..][0] == '/';
      assert topic[|topic| - 7..][2] == '/';
      assert "/status"[2] == 't';
    }
  }

  // ----------------------------------------------- downtime categories

  /** categorizeDowntime: keywords tested on the lower-cased reason, in
      priority order. */
  function CategorizeDowntime(reason: string): (c: string)
    ensures var l := ToLower(reason);
      (c == "breakdown" <==> Contains(l, "panne") || Contains(l, "breakdown"))
      && (c == "changeover" <==> !Contains(l, "panne") && !Contains(l, "breakdown")
                                 && (Contains(l, "changement") || Contains(l, "setup")))
      && (c == "maintenance" <==> !Contains(l, "panne") && !Contains(l, "breakdown")
                                  && !Contains(l, "changement") && !Contains(l, "setup")
                                  && Contains(l, "maintenance"))
      && (c == "material" <==> !Contains(l, "panne") && !Contains(l, "breakdown")
                               && !Contains(l, "changement") && !Contains(l, "setup")
                               && !Contains(l, "maintenance")
                               && (Contains(l, "matière") || Contains(l, "material")))
      && (c == "other" <==> !Contains(l, "panne") && !Contains(l, "breakdown")
                            && !Contains(l, "changement") && !Contains(l, "setup")
                            && !Contains(l, "maintenance")
                            && !Contains(l, "matière") && !Contains(l, "material"))
    ensures c in {"breakdown", "changeover", "maintenance", "material", "other"}
  {
    var l := ToLower(reason);
    if Contains(l, "panne") || Contains(l, "breakdown") then "breakdown"
    else if Contains(l, "changement") || Contains(l, "setup") then "changeover"
    else if Contains(l, "maintenance") then "maintenance"
    else if Contains(l, "matière") || Contains(l, "material") then "material"
    else "other"
  }

  /** The category does not depend on the case of the reason. */
  lemma CategorizeIgnoresCase(reason: string)
    ensures CategorizeDowntime(ToLower(reason)) == CategorizeDowntime(reason)
  {
    ToLowerIdempotent(reason);
  }

  // -------------------------------------------------- machine stops

  /** `!data.running && data.reason` */
  predicate IsStop(data: Message) {
    data.running != Some(true) && TruthyStr(data.reason)
  }

  /** The downtime a stop message records. */
  function StopDowntime(data: Message, now: int): (d: DowntimeRow)
    requires IsStop(data)
    ensures d.startTime == now && d.endTime == None && d.duration == None && !d.resolved
    ensures d.reason == data.reason.value && d.category == CategorizeDowntime(data.reason.value)
  {
    DowntimeRow(now, None, None, data.reason.value, CategorizeDowntime(data.reason.value),
                Some(OrStr(data.message, "")), false)
  }

  /** The alert a stop message raises. */
  function StopAlert(data: Message, now: int): (a: AlertRow)
    requires IsStop(data)
    ensures a.timestamp == now && a.kind == "error" && a.severity == "high" && !a.isResolved
  {
    AlertRow(now, "error", "high", "Arrêt machine: " + OrStr(data.message, data.reason.value), None, None, false)
  }

  /** One downtime after a restart at now: an unresolved one gets its end,
      its duration in whole minutes and is resolved; others are kept. */
  function ResolveAt(d: DowntimeRow, now: int): DowntimeRow {
    if d.resolved then d
    else d.(endTime := Some(now), duration := Some(Minutes(d.startTime, now)), resolved := true)
  }

  function ResolveAll(rows: seq<DowntimeRow>, now: int): (r: seq<DowntimeRow>)
    ensures |r| == |rows|
    ensures forall i :: 0 <= i < |rows| ==> r[i] == ResolveAt(rows[i], now)
  {
    if rows == [] then [] else ResolveAll(rows[..|rows| - 1], now) + [ResolveAt(rows[|rows| - 1], now)]
  }

  /** After a restart no downtime is open; rows resolved before are kept as
      they were; a newly closed one that started no later than now has a
      non-negative duration. */
  lemma ResolveAllCloses(rows: seq<DowntimeRow>, now: int)
    ensures forall i :: 0 <= i < |rows| ==> ResolveAll(rows, now)[i].resolved
    ensures forall i :: 0 <= i < |rows| && rows[i].resolved ==> ResolveAll(rows, now)[i] == rows[i]
    ensures forall i :: 0 <= i < |rows| && !rows[i].resolved && rows[i].startTime <= now ==>
      ResolveAll(rows, now)[i].duration.Some? && ResolveAll(rows, now)[i].duration.value >= 0
      && ResolveAll(rows, now)[i].endTime == Some(now)
  {
  }

  // ------------------------------------------------------ alerts

  datatype Decision = Fire(message: string, actualValue: real) | Quiet

  /** The switch of checkAndCreateAlerts for one threshold and one point;
      fmt renders a number into the alert text. */
  function Decide(t: AlertThreshold, rate: int, count: int, defects: int, temperature: Option<real>,
                  fmt: real -> string): (d: Decision)
    ensures t.kpiType == "CADENCE" ==>
      (d.Fire? <==> TruthyReal(t.minValue) && (rate as real) < t.minValue.value)
    ensures t.kpiType == "TEMPERATURE" ==>
      (d.Fire? <==> TruthyReal(temperature) && TruthyReal(t.maxValue) && temperature.value > t.maxValue.value)
    ensures t.kpiType == "DEFECT_RATE" ==>
      (d.Fire? <==> count > 0 && TruthyReal(t.maxValue)
                    && (defects as real / count as real) * 100.0 > t.maxValue.value)
    ensures t.kpiType !in {"CADENCE", "TEMPERATURE", "DEFECT_RATE"} ==> d == Quiet
  {
    if t.kpiType == "CADENCE" then
      if TruthyReal(t.minValue) && (rate as real) < t.minValue.value then
        Fire("Cadence inférieure au seuil: " + fmt(rate as real) + " b/min (seuil: " + fmt(t.minValue.value) + ")",
             rate as real)
      else Quiet
    else if t.kpiType == "TEMPERATURE" then
      if TruthyReal(temperature) && TruthyReal(t.maxValue) && temperature.value > t.maxValue.value then
        Fire("Température élevée: " + fmt(temperature.value) + "°C (max: " + fmt(t.maxValue.value) + ")",
             temperature.value)
      else Quiet
    else if t.kpiType == "DEFECT_RATE" then
      if count > 0 && TruthyReal(t.maxValue) && (defects as real / count as real) * 100.0 > t.maxValue.value then
        var defectRate := (defects as real / count as real) * 100.0;
        Fire("Taux de défauts élevé: " + fmt(defectRate) + "% (max: " + fmt(t.maxValue.value) + "%)", defectRate)
      else Quiet
    else Quiet
  }

  const TenMinutes: int := 10 * 60 * 1000

  /** The duplicate test: an unresolved alert of the given type raised in
      the last ten minutes. */
  predicate RecentAlert(alerts: seq<AlertRow>, kind: string, now: int) {
    exists i :: 0 <= i < |alerts| && alerts[i].kind == kind && alerts[i].timestamp >= now - TenMinutes
                && !alerts[i].isResolved
  }

  /** The alert a firing threshold creates: always of type "warning". */
  function ThresholdAlert(t: AlertThreshold, d: Decision, now: int): (a: AlertRow)
    requires d.Fire?
    ensures a.kind == "warning" && !a.isResolved && a.timestamp == now
    ensures a.message == d.message && a.actualValue == Some(d.actualValue)
  {
    AlertRow(now, "warning", ToLower(t.severity), d.message,
             if TruthyReal(t.minValue) then t.minValue else t.maxValue, Some(d.actualValue), false)
  }

  /** One threshold's turn: fire, unless a recent alert of type
      `kpiType.toLowerCase()` exists. */
  function AlertStep(alerts: seq<AlertRow>, t: AlertThreshold, rate: int, count: int, defects: int,
                     temperature: Option<real>, now: int, fmt: real -> string): seq<AlertRow> {
    var d := Decide(t, rate, count, defects, temperature, fmt);
    if d.Fire? && !RecentAlert(alerts, ToLower(t.kpiType), now) then alerts + [ThresholdAlert(t, d, now)]
    else alerts
  }

  /** The alert table after processing the thresholds in order. */
  function AlertPass(alerts: seq<AlertRow>, ts: seq<AlertThreshold>, rate: int, count: int, defects: int,
                     temperature: Option<real>, now: int, fmt: real -> string): seq<AlertRow> {
    if ts == [] then alerts
    else AlertStep(AlertPass(alerts, ts[..|ts| - 1], rate, count, defects, temperature, now, fmt),
                   ts[|ts| - 1], rate, count, defects, temperature, now, fmt)
  }

  predicate IsActive(t: AlertThreshold) {
    t.isActive
  }

  /** The thresholds that fire and whose type had no recent alert before the
      pass. */
  function Firing(ts: seq<AlertThreshold>, alerts: seq<AlertRow>, rate: int, count: int, defects: int,
                  temperature: Option<real>, now: int, fmt: real -> string): nat {
    if ts == [] then 0
    else Firing(ts[..|ts| - 1], alerts, rate, count, defects, temperature, now, fmt)
         + (if Decide(ts[|ts| - 1], rate, count, defects, temperature, fmt).Fire?
               && !RecentAlert(alerts, ToLower(ts[|ts| - 1].kpiType), now) then 1 else 0)
  }

  /** The pass only appends unresolved "warning" alerts stamped now. The
      alerts it creates are of type "warning", which no KPI type lowers to,
      so they never count as duplicates: every threshold that fires and had
      no recent alert of its type beforehand creates one alert, including a
      second threshold of the same type in the same pass. */
  lemma {:induction false} AlertPassAppends(alerts: seq<AlertRow>, ts: seq<AlertThreshold>, rate: int, count: int,
                                            defects: int, temperature: Option<real>, now: int, fmt: real -> string)
    requires forall i :: 0 <= i < |ts| ==> ToLower(ts[i].kpiType) != "warning"
    ensures var r := AlertPass(alerts, ts, rate, count, defects, temperature, now, fmt);
      |r| == |alerts| + Firing(ts, alerts, rate, count, defects, temperature, now, fmt)
      && r[..|alerts|] == alerts
      && forall i :: |alerts| <= i < |r| ==> r[i].kind == "warning" && r[i].timestamp == now && !r[i].isResolved
    ensures forall k :: k != "warning" ==>
      (RecentAlert(AlertPass(alerts, ts, rate, count, defects, temperature, now, fmt), k, now)
       <==> RecentAlert(alerts, k, now))
  {
    if ts != [] {
      var pre := ts[..|ts| - 1];
      var t := ts[|ts| - 1];
      AlertPassAppends(alerts, pre, rate, count, defects, temperature, now, fmt);
      var a := AlertPass(alerts, pre, rate, count, defects, temperature, now, fmt);
      assert RecentAlert(a, ToLower(t.kpiType), now) <==> RecentAlert(alerts, ToLower(t.kpiType), now);
      AlertStepAppends(a, t, rate, count, defects, temperature, now, fmt);
      var r := AlertStep(a, t, rate, count, defects, temperature, now, fmt);
      assert r[..|alerts|] == a[..|alerts|];
    }
  }

  /** One threshold's turn appends at most one unresolved "warning" alert
      stamped now, and leaves every other type's duplicate test as it was. */
  lemma AlertStepAppends(a: seq<AlertRow>, t: AlertThreshold, rate: int, count: int, defects: int,
                         temperature: Option<real>, now: int, fmt: real -> string)
    ensures var r := AlertStep(a, t, rate, count, defects, temperature, now, fmt);
      |r| == |a| + (if Decide(t, rate, count, defects, temperature, fmt).Fire?
                       && !RecentAlert(a, ToLower(t.kpiType), now) then 1 else 0)
      && r[..|a|] == a
      && forall i :: |a| <= i < |r| ==> r[i].kind == "warning" && r[i].timestamp == now && !r[i].isResolved
    ensures forall k :: k != "warning" ==>
      (RecentAlert(AlertStep(a, t, rate, count, defects, temperature, now, fmt), k, now) <==> RecentAlert(a, k, now))
  {
    var d := Decide(t, rate, count, defects, temperature, fmt);
    if d.Fire? && !RecentAlert(a, ToLower(t.kpiType), now) {
      var r := a + [ThresholdAlert(t, d, now)];
      assert r[..|a|] == a;
      forall k | k != "warning" ensures RecentAlert(r, k, now) <==> RecentAlert(a, k, now) {
        if RecentAlert(r, k, now) {
          var i :| 0 <= i < |r| && r[i].kind == k && r[i].timestamp >= now - TenMinutes && !r[i].isResolved;
          assert i < |a|;
          assert a[i] == r[i];
        }
        if RecentAlert(a, k, now) {
          var i :| 0 <= i < |a| && a[i].kind == k && a[i].timestamp >= now - TenMinutes && !a[i].isResolved;
          assert r[i] == a[i];
        }
      }
    }
  }

  // ------------------------------------------------------- KPI snapshot

  const EightHours: int := 8 * 60 * 60 * 1000

  function Bottles(r: ProductionRow): int { r.bottlesProduced }
  function DefectsOf(r: ProductionRow): int { r.defectCount }
  predicate Running(r: ProductionRow) { r.isRunning }

  function ProducedSince(since: int): ProductionRow -> bool {
    (r: ProductionRow) => r.timestamp >= since
  }

  function StartedSince(since: int): DowntimeRow -> bool {
    (d: DowntimeRow) => d.startTime >= since
  }

  /** A downtime's minutes: its duration when truthy, else its closed span,
      else the span up to now. */
  function DowntimeMinutes(now: int): DowntimeRow -> int {
    (d: DowntimeRow) => if TruthyInt(d.duration) then d.duration.value
         else if d.endTime.Some? then Minutes(d.startTime, d.endTime.value)
         else Minutes(d.startTime, now)
  }

  /** What one stop contributes: a truthy duration as stored, otherwise the
      whole minutes of its closed span or of its span up to now, never
      negative when that span is ordered. */
  lemma DowntimeMinutesValue(d: DowntimeRow, now: int)
    ensures TruthyInt(d.duration) ==> DowntimeMinutes(now)(d) == d.duration.value
    ensures !TruthyInt(d.duration) && d.endTime.Some? ==>
      var m := DowntimeMinutes(now)(d);
      m * 60000 <= d.endTime.value - d.startTime < (m + 1) * 60000
      && (d.startTime <= d.endTime.value ==> m >= 0)
    ensures !TruthyInt(d.duration) && d.endTime.None? ==>
      var m := DowntimeMinutes(now)(d);
      m * 60000 <= now - d.startTime < (m + 1) * 60000
      && (d.startTime <= now ==> m >= 0)
  {
  }

  /** The points of the last eight hours. */
  function Window(production: seq<ProductionRow>, now: int): seq<ProductionRow> {
    Filter(production, ProducedSince(now - EightHours))
  }

  /** Running points over all points, as a percentage. */
  function Availability(w: seq<ProductionRow>): (a: real)
    requires w != []
    ensures 0.0 <= a <= 100.0
    ensures a == 100.0 <==> forall i :: 0 <= i < |w| ==> w[i].isRunning
  {
    var running := Count(w, Running);
    CountAll(w, Running);
    RatioAtMostOne(running, |w|);
    (running as real / |w| as real) * 100.0
  }

  lemma RatioAtMostOne(part: int, whole: int)
    requires 0 <= part <= whole && whole > 0
    ensures 0.0 <= (part as real / whole as real) * 100.0 <= 100.0
    ensures (part as real / whole as real) * 100.0 == 100.0 <==> part == whole
  {
    var x := part as real / whole as real;
    assert x * whole as real == part as real;
    if x == 1.0 {
      assert part as real == whole as real;
    }
  }

  /** TRS: the product of the three percentages, scaled back to a
      percentage. */
  function Trs(availability: real, performance: real, quality: real): (t: real)
    ensures t * 10000.0 == availability * performance * quality
  {
    (availability * performance * quality) / 10000.0
  }

  /** Produced bottles over 120 per point, as a percentage. */
  function Performance(w: seq<ProductionRow>): (p: real)
    requires w != []
    ensures p * (120 * |w|) as real == Sum(w, Bottles) as real * 100.0
  {
    PercentOf(Sum(w, Bottles), 120 * |w|)
  }

  /** Good bottles over produced bottles, as a percentage; 100 when nothing
      was produced. */
  function Quality(w: seq<ProductionRow>): (q: real)
    ensures Sum(w, Bottles) == 0 ==> q == 100.0
    ensures 0 <= Sum(w, DefectsOf) <= Sum(w, Bottles) ==> 0.0 <= q <= 100.0
    ensures Sum(w, Bottles) > 0 ==>
      q * Sum(w, Bottles) as real == (Sum(w, Bottles) - Sum(w, DefectsOf)) as real * 100.0
  {
    var produced := Sum(w, Bottles);
    var defects := Sum(w, DefectsOf);
    if produced > 0 then
      assert 0 <= defects <= produced ==> 0 <= produced - defects <= produced;
      PercentOf(produced - defects, produced)
    else 100.0
  }

  /** The percentage part/whole*100: times the whole it gives 100 times the
      part, and it lies in [0, 100] when 0 <= part <= whole. */
  function PercentOf(part: int, whole: int): (r: real)
    requires whole > 0
    ensures r * whole as real == part as real * 100.0
    ensures 0 <= part <= whole ==> 0.0 <= r <= 100.0
  {
    var x := part as real / whole as real;
    assert x * whole as real == part as real;
    assert 0 <= part <= whole ==> 0.0 <= x <= 1.0;
    x * 100.0
  }

  /** The minutes of the stops that started in the last eight hours. */
  function TotalDowntime(downtimes: seq<DowntimeRow>, now: int): int {
    Sum(Filter(downtimes, StartedSince(now - EightHours)), DowntimeMinutes(now))
  }

  /** updateKPISnapshots before rounding: nothing when the last eight hours
      hold no point. */
  function SnapshotOf(production: seq<ProductionRow>, downtimes: seq<DowntimeRow>, now: int): (s: Option<KPISnapshot>)
    ensures s.Some? <==> Window(production, now) != []
    ensures s.Some? ==> s.value.timestamp == now
  {
    var w := Window(production, now);
    if w == [] then None
    else
      var totalProduced := Sum(w, Bottles);
      var availability := Availability(w);
      var performance := Performance(w);
      var quality := Quality(w);
      var trs := Trs(availability, performance, quality);
      Some(KPISnapshot(now, trs, availability, performance, quality, totalProduced, Sum(w, DefectsOf),
                       TotalDowntime(downtimes, now)))
  }

  /** The snapshot exists iff some point lies in the window; its totals are
      the window's sums; availability is a percentage, 100 exactly when
      every point of the window was running; nothing produced means quality
      100; the ratios are the window's, as Availability, Performance, Quality
      and Trs state them. */
  lemma SnapshotFacts(production: seq<ProductionRow>, downtimes: seq<DowntimeRow>, now: int)
    ensures var s := SnapshotOf(production, downtimes, now);
      var w := Window(production, now);
      (s.Some? <==> w != [])
      && (s.Some? ==>
            s.value.totalProduced == Sum(w, Bottles) && s.value.totalDefects == Sum(w, DefectsOf)
            && 0.0 <= s.value.availability <= 100.0
            && (s.value.availability == 100.0 <==> forall i :: 0 <= i < |w| ==> w[i].isRunning)
            && (s.value.totalProduced == 0 ==> s.value.quality == 100.0)
            && s.value.availability == Availability(w) && s.value.performance == Performance(w)
            && s.value.quality == Quality(w)
            && s.value.trs == Trs(s.value.availability, s.value.performance, s.value.quality)
            && s.value.totalDowntime == TotalDowntime(downtimes, now))
  {
  }

  /** Every stop contributes a non-negative number of minutes when it
      started no later than now, ended no earlier than it started, and any
      recorded duration is non-negative; so the snapshot's downtime total is
      non-negative. */
  lemma DowntimeTotalNonNegative(downtimes: seq<DowntimeRow>, now: int)
    requires forall d :: d in downtimes ==>
      d.startTime <= now && (d.endTime.Some? ==> d.startTime <= d.endTime.value)
      && (d.duration.Some? ==> d.duration.value >= 0)
    ensures TotalDowntime(downtimes, now) >= 0
  {
    var f := Filter(downtimes, StartedSince(now - EightHours));
    SumNonNegative(f, DowntimeMinutes(now));
  }

  // ------------------------------------------------------ the service

  const MaxReconnectAttempts: int := 10

  /** Whether a production message carries every field the insert needs. */
  predicate Complete(data: Message) {
    data.timestamp.Some? && data.count.Some? && data.rate.Some? && data.targetRate.Some?
    && data.defects.Some? && data.running.Some?
  }

  /** The row handleProductionData inserts. */
  function ProductionRowOf(data: Message, hour: int): ProductionRow
    requires Complete(data)
  {
    ProductionRow(data.timestamp.value, data.count.value, data.targetRate.value, data.rate.value,
                  data.defects.value, data.running.value, ShiftName(CurrentShift(hour)),
                  if TruthyReal(data.temperature) then data.temperature else None,
                  if TruthyReal(data.pressure) then data.pressure else None)
  }

  class MQTTService {
    var hasClient: bool
    var ended: bool
    var isConnected: bool
    var reconnectAttempts: int
    /** Reconnections scheduled with a ten-second timer and not yet run. */
    var scheduledReconnects: nat
    const db: Database

    ghost predicate Valid()
      reads this
    {
      reconnectAttempts >= 0
    }

    /** The constructor connects at once. */
    constructor(db: Database)
      ensures Valid()
      ensures this.db == db && hasClient && !ended && !isConnected && reconnectAttempts == 0
      ensures scheduledReconnects == 0
    {
      this.db := db;
      hasClient := true;
      ended := false;
      isConnected := false;
      reconnectAttempts := 0;
      scheduledReconnects := 0;
    }

    /** connect, run by a reconnection timer: a new client replaces the old
      one; when creating it throws, another reconnection is scheduled. */
    method Connect(creationFails: bool)
      requires Valid()
      modifies this
      ensures Valid()
      ensures !creationFails ==> hasClient && !ended && scheduledReconnects == old(scheduledReconnects)
      ensures creationFails ==>
        (hasClient == old(hasClient) && ended == old(ended)
         && scheduledReconnects == old(scheduledReconnects) + (if reconnectAttempts < MaxReconnectAttempts then 1 else 0))
      ensures isConnected == old(isConnected) && reconnectAttempts == old(reconnectAttempts)
    {
      if creationFails {
        ScheduleReconnect();
      } else {
        hasClient := true;
        ended := false;
      }
    }

    /** The 'connect' event. */
    method OnConnect()
      requires Valid()
      modifies this
      ensures Valid()
      ensures isConnected && reconnectAttempts == 0
      ensures hasClient == old(hasClient) && ended == old(ended) && scheduledReconnects == old(scheduledReconnects)
    {
      isConnected := true;
      reconnectAttempts := 0;
    }

    /** The 'error' and 'offline' events. */
    method OnErrorOrOffline()
      modifies this
      ensures !isConnected
      ensures hasClient == old(hasClient) && ended == old(ended) && reconnectAttempts == old(reconnectAttempts)
      ensures scheduledReconnects == old(scheduledReconnects)
    {
      isConnected := false;
    }

    /** The 'reconnect' event: count the attempt; end the client at the
        tenth. */
    method OnReconnect()
      requires Valid()
      modifies this
      ensures Valid()
      ensures reconnectAttempts == old(reconnectAttempts) + 1
      ensures ended == (old(ended) || reconnectAttempts >= MaxReconnectAttempts)
      ensures hasClient == old(hasClient) && isConnected == old(isConnected)
      ensures scheduledReconnects == old(scheduledReconnects)
    {
      reconnectAttempts := reconnectAttempts + 1;
      if reconnectAttempts >= MaxReconnectAttempts {
        ended := true;
      }
    }

    /** scheduleReconnect: only while fewer than ten attempts were made. */
    method ScheduleReconnect()
      requires Valid()
      modifies this
      ensures Valid()
      ensures scheduledReconnects == old(scheduledReconnects) + (if reconnectAttempts < MaxReconnectAttempts then 1 else 0)
      ensures hasClient == old(hasClient) && ended == old(ended) && isConnected == old(isConnected)
      ensures reconnectAttempts == old(reconnectAttempts)
    {
      if reconnectAttempts < MaxReconnectAttempts {
        scheduledReconnects := scheduledReconnects + 1;
      }
    }

    /** The 'close' event. */
    method OnClose()
      requires Valid()
      modifies this
      ensures Valid()
      ensures !isConnected
      ensures scheduledReconnects == old(scheduledReconnects) + (if reconnectAttempts < MaxReconnectAttempts then 1 else 0)
      ensures hasClient == old(hasClient) && ended == old(ended) && reconnectAttempts == old(reconnectAttempts)
    {
      isConnected := false;
      ScheduleReconnect();
    }

    /** isClientConnected */
    function IsClientConnected(): (b: bool)
      reads this
      ensures b == isConnected
    {
      isConnected
    }

    /** disconnect: end and drop the client, if there is one. */
    method Disconnect()
      modifies this
      ensures old(hasClient) ==> !hasClient && !isConnected && ended
      ensures !old(hasClient) ==> isConnected == old(isConnected) && hasClient == old(hasClient) && ended == old(ended)
      ensures reconnectAttempts == old(reconnectAttempts) && scheduledReconnects == old(scheduledReconnects)
    {
      if hasClient {
        ended := true;
        hasClient := false;
        isConnected := false;
      }
    }

    /** handleStatusUpdate: a stop with a reason records one open downtime
        and one alert; a running status resolves every open downtime; any
        other status changes nothing. */
    method HandleStatusUpdate(data: Message, now: int)
      modifies db
      ensures IsStop(data) ==>
        db.downtimes == old(db.downtimes) + [StopDowntime(data, now)]
        && db.alerts == old(db.alerts) + [StopAlert(data, now)]
      ensures !IsStop(data) && data.running == Some(true) ==>
        db.downtimes == ResolveAll(old(db.downtimes), now) && db.alerts == old(db.alerts)
      ensures !IsStop(data) && data.running != Some(true) ==>
        db.downtimes == old(db.downtimes) && db.alerts == old(db.alerts)
      ensures db.production == old(db.production) && db.thresholds == old(db.thresholds)
      ensures db.snapshot == old(db.snapshot)
    {
      if IsStop(data) {
        db.downtimes := db.downtimes + [StopDowntime(data, now)];
        db.alerts := db.alerts + [StopAlert(data, now)];
      } else if data.running == Some(true) {
        var i := 0;
        while i < |db.downtimes|
          decreases |db.downtimes| - i
          invariant 0 <= i <= |db.downtimes| == |old(db.downtimes)|
          invariant forall j :: 0 <= j < i ==> db.downtimes[j] == ResolveAt(old(db.downtimes)[j], now)
          invariant forall j :: i <= j < |db.downtimes| ==> db.downtimes[j] == old(db.downtimes)[j]
          invariant db.alerts == old(db.alerts) && db.production == old(db.production)
          invariant db.thresholds == old(db.thresholds) && db.snapshot == old(db.snapshot)
        {
          if !db.downtimes[i].resolved {
            db.downtimes := db.downtimes[i := ResolveAt(db.downtimes[i], now)];
          }
          i := i + 1;
        }
        assert db.downtimes == ResolveAll(old(db.downtimes), now);
      }
    }

    /** checkAndCreateAlerts over the active thresholds, in table order. */
    method CheckAndCreateAlerts(rate: int, count: int, defects: int, temperature: Option<real>,
                                now: int, fmt: real -> string)
      modifies db
      ensures db.alerts == AlertPass(old(db.alerts), Filter(old(db.thresholds), IsActive),
                                     rate, count, defects, temperature, now, fmt)
      ensures db.production == old(db.production) && db.downtimes == old(db.downtimes)
      ensures db.thresholds == old(db.thresholds) && db.snapshot == old(db.snapshot)
    {
      var active := Filter(db.thresholds, IsActive);
      for i := 0 to |active|
        invariant db.alerts == AlertPass(old(db.alerts), active[..i], rate, count, defects, temperature, now, fmt)
        invariant db.production == old(db.production) && db.downtimes == old(db.downtimes)
        invariant db.thresholds == old(db.thresholds) && db.snapshot == old(db.snapshot)
      {
        assert active[..i + 1][..i] == active[..i];
        ghost var before := db.alerts;
        var t := active[i];
        var d := Decide(t, rate, count, defects, temperature, fmt);
        if d.Fire? {
          if !RecentAlert(db.alerts, ToLower(t.kpiType), now) {
            db.alerts := db.alerts + [ThresholdAlert(t, d, now)];
          }
        }
        assert db.alerts == AlertStep(before, t, rate, count, defects, temperature, now, fmt);
      }
      assert active[..|active|] == active;
    }

    /** updateKPISnapshots: the current snapshot is replaced, or created,
        unless the window is empty. */
    method UpdateKPISnapshots(now: int)
      modifies db
      ensures db.snapshot == if SnapshotOf(old(db.production), old(db.downtimes), now).Some?
                             then SnapshotOf(old(db.production), old(db.downtimes), now) else old(db.snapshot)
      ensures db.production == old(db.production) && db.downtimes == old(db.downtimes)
      ensures db.alerts == old(db.alerts) && db.thresholds == old(db.thresholds)
    {
      var s := SnapshotOf(db.production, db.downtimes, now);
      if s.Some? {
        db.snapshot := s;
      }
    }

    /** handleProductionData: insert the point (an incomplete message makes
        the insert fail, and nothing else happens), then check the
        thresholds and refresh the snapshot. */
    method HandleProductionData(data: Message, hour: int, now: int, fmt: real -> string)
      modifies db
      ensures !Complete(data) ==> db.production == old(db.production) && db.alerts == old(db.alerts)
                                  && db.snapshot == old(db.snapshot)
      ensures Complete(data) ==>
        db.production == old(db.production) + [ProductionRowOf(data, hour)]
        && db.alerts == AlertPass(old(db.alerts), Filter(old(db.thresholds), IsActive),
                                  data.rate.value, data.count.value, data.defects.value, data.temperature, now, fmt)
        && db.snapshot == if SnapshotOf(db.production, old(db.downtimes), now).Some?
                          then SnapshotOf(db.production, old(db.downtimes), now) else old(db.snapshot)
      ensures db.downtimes == old(db.downtimes) && db.thresholds == old(db.thresholds)
    {
      if Complete(data) {
        db.production := db.production + [ProductionRowOf(data, hour)];
        CheckAndCreateAlerts(data.rate.value, data.count.value, data.defects.value, data.temperature, now, fmt);
        UpdateKPISnapshots(now);
      }
    }

    /** handleMessage: a /data message is stored as a production point
        (with its alert pass and snapshot refresh), a /status message
        updates the downtime table, and any other topic changes nothing. */
    method HandleMessage(topic: string, data: Message, hour: int, now: int, fmt: real -> string)
      modifies db
      ensures RouteOf(topic) == Ignored ==>
        db.production == old(db.production) && db.downtimes == old(db.downtimes)
        && db.alerts == old(db.alerts) && db.snapshot == old(db.snapshot)
      ensures RouteOf(topic) == ToProduction && !Complete(data) ==>
        db.production == old(db.production) && db.alerts == old(db.alerts) && db.snapshot == old(db.snapshot)
      ensures RouteOf(topic) == ToProduction && Complete(data) ==>
        db.production == old(db.production) + [ProductionRowOf(data, hour)]
        && db.alerts == AlertPass(old(db.alerts), Filter(old(db.thresholds), IsActive),
                                  data.rate.value, data.count.value, data.defects.value, data.temperature, now, fmt)
        && db.snapshot == if SnapshotOf(db.production, old(db.downtimes), now).Some?
                          then SnapshotOf(db.production, old(db.downtimes), now) else old(db.snapshot)
      ensures RouteOf(topic) == ToProduction ==> db.downtimes == old(db.downtimes)
      ensures RouteOf(topic) == ToStatus && IsStop(data) ==>
        db.downtimes == old(db.downtimes) + [StopDowntime(data, now)]
        && db.alerts == old(db.alerts) + [StopAlert(data, now)]
      ensures RouteOf(topic) == ToStatus && !IsStop(data) && data.running == Some(true) ==>
        db.downtimes == ResolveAll(old(db.downtimes), now) && db.alerts == old(db.alerts)
      ensures RouteOf(topic) == ToStatus && !IsStop(data) && data.running != Some(true) ==>
        db.downtimes == old(db.downtimes) && db.alerts == old(db.alerts)
      ensures RouteOf(topic) == ToStatus ==> db.production == old(db.production) && db.snapshot == old(db.snapshot)
      ensures db.thresholds == old(db.thresholds)
    {
      match RouteOf(topic)
      case ToProduction => HandleProductionData(data, hour, now, fmt);
      case ToStatus => HandleStatusUpdate(data, now);
      case Ignored =>
    }
  }

  /** The module-level singleton of getMQTTService and disconnectMQTT. */
  class ServiceHolder {
    var instance: MQTTService?

    constructor()
      ensures instance == null
    {
      instance := null;
    }

    method GetMQTTService(db: Database) returns (s: MQTTService)
      modifies this
      ensures old(instance) != null ==> s == old(instance)
      ensures old(instance) == null ==> fresh(s) && s.db == db
      ensures instance == s
    {
      if instance == null {
        instance := new MQTTService(db);
      }
      s := instance;
    }

    method DisconnectMQTT()
      modifies this, instance
      ensures instance == null
      ensures old(instance) != null ==> !old(instance).hasClient
    {
      if instance != null {
        instance.Disconnect();
        instance := null;
      }
    }
  }
}
