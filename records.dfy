/** The database rows the MQTT ingestion writes and the dashboard reads, and
    the database itself as an object whose tables the ingestion updates in
    place. Times are milliseconds since the epoch. */
module Records {
  import opened Common

  /** One telemetry point of the production line. */
  datatype ProductionRow = ProductionRow(timestamp: int, bottlesProduced: int, targetRate: int,
                                         actualRate: int, defectCount: int, isRunning: bool,
                                         shiftId: string, temperature: Option<real>, pressure: Option<real>)

  /** A machine stop; duration is in whole minutes. */
  datatype DowntimeRow = DowntimeRow(startTime: int, endTime: Option<int>, duration: Option<int>,
                                     reason: string, category: string, description: Option<string>, resolved: bool)

  datatype AlertRow = AlertRow(timestamp: int, kind: string, severity: string, message: string,
                               threshold: Option<real>, actualValue: Option<real>, isResolved: bool)

  /** A configured alert threshold on one KPI type. */
  datatype AlertThreshold = AlertThreshold(kpiType: string, minValue: Option<real>, maxValue: Option<real>,
                                           severity: string, isActive: bool)

  /** The "current" KPI snapshot the ingestion keeps up to date. */
  datatype KPISnapshot = KPISnapshot(timestamp: int, trs: real, availability: real, performance: real,
                                     quality: real, totalProduced: int, totalDefects: int, totalDowntime: int)

  /** A JSON object received over MQTT, with every field it may carry;
      absent fields are None. */
  datatype Message = Message(
    timestamp: Option<int>, count: Option<int>, rate: Option<int>, targetRate: Option<int>,
    defects: Option<int>, running: Option<bool>, temperature: Option<real>, pressure: Option<real>,
    reason: Option<string>, message: Option<string>,
    kind: Option<string>, severity: Option<string>, threshold: Option<real>, actualValue: Option<real>)

  class Database {
    var production: seq<ProductionRow>
    var downtimes: seq<DowntimeRow>
    var alerts: seq<AlertRow>
    var thresholds: seq<AlertThreshold>
    var snapshot: Option<KPISnapshot>

    constructor(thresholds: seq<AlertThreshold>)
      ensures production == [] && downtimes == [] && alerts == [] && snapshot == None
      ensures this.thresholds == thresholds
    {
      production := [];
      downtimes := [];
      alerts := [];
      this.thresholds := thresholds;
      snapshot := None;
    }
  }

  /** A downtime that has not been resolved. */
  predicate Unresolved(d: DowntimeRow) {
    !d.resolved
  }

  /** Whole minutes between two instants, `Math.floor(ms / 60000)`. */
  function Minutes(from: int, to: int): (m: int)
    ensures from <= to ==> m >= 0
    ensures m * 60000 <= to - from < (m + 1) * 60000
  {
    (to - from) / 60000
  }
}
