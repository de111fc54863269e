/** The safety report: the filtered incident list (newest first), the
    safety metrics (days since the last accident, frequency and severity
    rates, counts, days lost, cost), fixed breakdowns by type and severity,
    incidents per location (most frequent first) and the monthly trend over
    the last six months; and the POST that records an incident. Rounding
    to two decimals is not modelled. */
module SafetyRoute {
  import opened Common
  import opened Folds

  /** A safety incident; `kind` is the `type` column. Times are in ms. */
  datatype Incident = Incident(timestamp: int, kind: string, severity: string, title: string, location: string,
                               reportedBy: string, status: string, daysLost: Option<int>, cost: Option<real>)

  datatype Metrics = Metrics(daysSinceLastAccident: int, totalIncidents: nat, accidents: nat, nearMisses: nat,
                             unsafeConditions: nat, openIncidents: nat, closedIncidents: nat,
                             frequencyRate: real, severityRate: real, totalDaysLost: int, totalCost: real)

  datatype Slice = Slice(name: string, value: nat, color: string)

  datatype LocationRow = LocationRow(location: string, count: int)

  /** One month's counts of the three kinds the trend follows. */
  datatype MonthCounts = MonthCounts(accidents: int, nearMisses: int, unsafeConditions: int)

  datatype TrendRow = TrendRow(month: string, accidents: int, nearMisses: int, unsafeConditions: int, total: int)

  datatype Report = Report(incidents: seq<Incident>, metrics: Metrics, incidentsByType: seq<Slice>,
                           incidentsBySeverity: seq<Slice>, incidentsByLocation: seq<LocationRow>,
                           trend: seq<TrendRow>)

  const DayMs: int := 24 * 60 * 60 * 1000

  /** `24 * 30 * 20` hours worked, the rates' denominator. */
  const HoursWorked: int := 24 * 30 * 20

  function Timestamp(i: Incident): int { i.timestamp }
  function Location(i: Incident): string { i.location }
  function DaysLost(i: Incident): int { OrInt(i.daysLost, 0) }
  function Cost(i: Incident): real { if TruthyReal(i.cost) then i.cost.value else 0.0 }

  function KindIs(k: string): Incident -> bool {
    (i: Incident) => i.kind == k
  }

  function SeverityIs(s: string): Incident -> bool {
    (i: Incident) => i.severity == s
  }

  predicate Unresolved(i: Incident) {
    i.status == "open" || i.status == "investigating"
  }

  predicate Closed(i: Incident) {
    i.status == "closed"
  }

  /** `daysLost && daysLost > 0` */
  predicate WithDaysLost(i: Incident) {
    TruthyInt(i.daysLost) && i.daysLost.value > 0
  }

  /** The type and status filters of the listing. */
  function Admits(kind: Option<string>, status: Option<string>): Incident -> bool {
    (i: Incident) => FilterAdmits(kind, i.kind) && FilterAdmits(status, i.status)
  }

  /** The listing: the incidents the filters admit, newest first. */
  function Listing(all: seq<Incident>, kind: Option<string>, status: Option<string>): (r: seq<Incident>)
    ensures SortedDesc(r, Timestamp)
    ensures multiset(r) == multiset(Filter(all, Admits(kind, status)))
  {
    SortDescProps(Filter(all, Admits(kind, status)), Timestamp);
    SortDesc(Filter(all, Admits(kind, status)), Timestamp)
  }

  /** Whole days since the latest accident (floored), 365 when there is
      none. */
  function DaysSinceLastAccident(all: seq<Incident>, now: int): (d: int)
    ensures Filter(all, KindIs("accident")) == [] ==> d == 365
    ensures Filter(all, KindIs("accident")) != [] ==>
      exists a :: a in all && a.kind == "accident"
        && (forall b :: b in all && b.kind == "accident" ==> b.timestamp <= a.timestamp)
        && d * DayMs <= now - a.timestamp < (d + 1) * DayMs
  {
    var accidents := Filter(all, KindIs("accident"));
    if accidents == [] then 365
    else
      var latest := MaxOf(accidents, Timestamp);
      (now - latest) / DayMs
  }

  function Metric(all: seq<Incident>, now: int): Metrics {
    var accidents := Filter(all, KindIs("accident"));
    var totalDaysLost := Sum(accidents, DaysLost);
    Metrics(DaysSinceLastAccident(all, now), |all|, |accidents|,
            Count(all, KindIs("near_miss")), Count(all, KindIs("unsafe_condition")),
            Count(all, Unresolved), Count(all, Closed),
            (Count(accidents, WithDaysLost) as real / HoursWorked as real) * 1000000.0,
            (totalDaysLost as real / HoursWorked as real) * 1000.0,
            totalDaysLost, SumReal(all, Cost))
  }

  function ByType(all: seq<Incident>): seq<Slice> {
    [Slice("Accidents", Count(all, KindIs("accident")), "#EF4444"),
     Slice("Presque-accidents", Count(all, KindIs("near_miss")), "#F59E0B"),
     Slice("Conditions dangereuses", Count(all, KindIs("unsafe_condition")), "#3B82F6"),
     Slice("Non-conformités", Count(all, KindIs("non_compliance")), "#8B5CF6")]
  }

  function BySeverity(all: seq<Incident>): seq<Slice> {
    [Slice("Critique", Count(all, SeverityIs("critical")), "#DC2626"),
     Slice("Élevée", Count(all, SeverityIs("high")), "#EF4444"),
     Slice("Moyenne", Count(all, SeverityIs("medium")), "#F59E0B"),
     Slice("Faible", Count(all, SeverityIs("low")), "#10B981")]
  }

  function AddOne(v: int, i: Incident): int { v + 1 }

  function LocationCount(r: LocationRow): int { r.count }

  function LocationRows(g: seq<(string, int)>): (r: seq<LocationRow>)
    ensures |r| == |g|
    ensures forall i :: 0 <= i < |g| ==> r[i] == LocationRow(g[i].0, g[i].1)
  {
    seq(|g|, i requires 0 <= i < |g| => LocationRow(g[i].0, g[i].1))
  }

  /** The month key `toISOString().substring(0, 7)` of an incident. */
  function Month(iso: int -> string): Incident -> string {
    (i: Incident) => Prefix(iso(i.timestamp), 7)
  }

  /** The if/else-if chain of the monthly forEach: non-compliance incidents
      leave the counts as they are. */
  function Tally(c: MonthCounts, i: Incident): MonthCounts {
    if i.kind == "accident" then c.(accidents := c.accidents + 1)
    else if i.kind == "near_miss" then c.(nearMisses := c.nearMisses + 1)
    else if i.kind == "unsafe_condition" then c.(unsafeConditions := c.unsafeConditions + 1)
    else c
  }

  function Since(since: int): Incident -> bool {
    (i: Incident) => i.timestamp >= since
  }

  function Total(c: MonthCounts): int { c.accidents + c.nearMisses + c.unsafeConditions }

  /** The trend: months in ascending order, each with its counts. */
  function Trend(g: seq<(string, MonthCounts)>): (r: seq<TrendRow>)
    ensures |r| == |g|
    ensures SortedLex(Months(r))
    ensures multiset(Months(r)) == multiset(Keys(g))
    ensures forall i :: 0 <= i < |r| ==>
      var c := Lookup(g, r[i].month).GetOr(MonthCounts(0, 0, 0));
      r[i].accidents == c.accidents && r[i].nearMisses == c.nearMisses
      && r[i].unsafeConditions == c.unsafeConditions && r[i].total == Total(c)
  {
    var months := SortLex(Keys(g));
    SortLexProps(Keys(g));
    assert |months| == |multiset(months)| == |g|;
    var r := seq(|months|, i requires 0 <= i < |months| =>
      var c := Lookup(g, months[i]).GetOr(MonthCounts(0, 0, 0));
      TrendRow(months[i], c.accidents, c.nearMisses, c.unsafeConditions, Total(c)));
    assert Months(r) == months;
    r
  }

  function Months(r: seq<TrendRow>): (m: seq<string>)
    ensures |m| == |r|
    ensures forall i :: 0 <= i < |r| ==> m[i] == r[i].month
  {
    seq(|r|, i requires 0 <= i < |r| => r[i].month)
  }

  /** GET. `now` is Date.now(), `since` the date six months back, and `iso`
      is toISOString. The two forEach loops are the two group loops. */
  method Get(all: seq<Incident>, kind: Option<string>, status: Option<string>, now: int, since: int,
             iso: int -> string) returns (r: Report)
    ensures r.incidents == Listing(all, kind, status)
    ensures r.metrics == Metric(all, now)
    ensures r.incidentsByType == ByType(all) && r.incidentsBySeverity == BySeverity(all)
    ensures r.incidentsByLocation == SortDesc(LocationRows(GroupFold(all, Location, 0, AddOne)), LocationCount)
    ensures r.trend == Trend(GroupFold(Filter(all, Since(since)), Month(iso), MonthCounts(0, 0, 0), Tally))
  {
    var byLocation := GroupLoop(all, Location, 0, AddOne);
    var monthly := GroupLoop(Filter(all, Since(since)), Month(iso), MonthCounts(0, 0, 0), Tally);
    r := Report(Listing(all, kind, status), Metric(all, now), ByType(all), BySeverity(all),
                SortDesc(LocationRows(byLocation), LocationCount), Trend(monthly));
  }

  // ------------------------------------------------------------ properties

  function One(i: Incident): int { 1 }

  lemma {:induction false} SumOnes(s: seq<Incident>)
    ensures Sum(s, One) == |s|
  {
    if s != [] {
      SumOnes(s[1..]);
    }
  }

  lemma {:induction false} LocationRowsSum(g: seq<(string, int)>)
    ensures Sum(LocationRows(g), LocationCount) == SumGroups(g, Identity)
  {
    if g != [] {
      LocationRowsSum(g[1..]);
      assert LocationRows(g)[1..] == LocationRows(g[1..]);
    }
  }

  function Identity(v: int): int { v }

  /** Every location appears once; the counts, largest first, add up to the
      number of incidents. */
  lemma LocationsAddUp(all: seq<Incident>)
    ensures var g := GroupFold(all, Location, 0, AddOne);
      var rows := SortDesc(LocationRows(g), LocationCount);
      DistinctKeys(g) && SortedDesc(rows, LocationCount) && |rows| == |g|
      && Sum(rows, LocationCount) == |all|
  {
    var g := GroupFold(all, Location, 0, AddOne);
    GroupFoldKeys(all, Location, 0, AddOne);
    GroupFoldTotal(all, Location, 0, AddOne, Identity, One);
    SumOnes(all);
    LocationRowsSum(g);
    SortDescProps(LocationRows(g), LocationCount);
    SortDescSum(LocationRows(g), LocationCount, LocationCount);
  }

  /** 1 for the three kinds the trend follows, 0 for any other (such as
      non_compliance). */
  function Followed(i: Incident): int {
    if i.kind == "accident" || i.kind == "near_miss" || i.kind == "unsafe_condition" then 1 else 0
  }

  /** The trend's totals add up to the recent incidents of the three
      followed kinds: non-compliance incidents are not counted. */
  lemma TrendTotals(recent: seq<Incident>, iso: int -> string)
    ensures SumGroups(GroupFold(recent, Month(iso), MonthCounts(0, 0, 0), Tally), Total) == Sum(recent, Followed)
  {
    GroupFoldTotal(recent, Month(iso), MonthCounts(0, 0, 0), Tally, Total, Followed);
  }

  /** A listing without filters holds every incident. */
  lemma UnfilteredListing(all: seq<Incident>)
    ensures multiset(Listing(all, None, Some("all"))) == multiset(all)
  {
    FilterAll(all, Admits(None, Some("all")));
  }

  /** The status counts never exceed the number of incidents; the rates
      vanish without accidents. */
  lemma MetricFacts(all: seq<Incident>, now: int)
    ensures var m := Metric(all, now);
      m.openIncidents + m.closedIncidents <= m.totalIncidents
      && m.accidents + m.nearMisses + m.unsafeConditions <= m.totalIncidents
      && (m.accidents == 0 ==> m.frequencyRate == 0.0 && m.severityRate == 0.0 && m.totalDaysLost == 0)
  {
    CountDisjoint(all, Unresolved, Closed);
    KindCounts(all);
  }

  lemma {:induction false} KindCounts(all: seq<Incident>)
    ensures Count(all, KindIs("accident")) + Count(all, KindIs("near_miss"))
            + Count(all, KindIs("unsafe_condition")) <= |all|
  {
    if all != [] {
      KindCounts(all[1..]);
    }
  }

  /** The type and severity charts: four slices each, in fixed order, each
      the count of its type or severity; neither family counts an incident
      twice. */
  lemma Slices(all: seq<Incident>)
    ensures var t := ByType(all);
      |t| == 4
      && t[0].name == "Accidents" && t[0].value == Count(all, KindIs("accident"))
      && t[1].name == "Presque-accidents" && t[1].value == Count(all, KindIs("near_miss"))
      && t[2].name == "Conditions dangereuses" && t[2].value == Count(all, KindIs("unsafe_condition"))
      && t[3].name == "Non-conformités" && t[3].value == Count(all, KindIs("non_compliance"))
      && t[0].value + t[1].value + t[2].value + t[3].value <= |all|
    ensures var s := BySeverity(all);
      |s| == 4
      && s[0].name == "Critique" && s[0].value == Count(all, SeverityIs("critical"))
      && s[1].name == "Élevée" && s[1].value == Count(all, SeverityIs("high"))
      && s[2].name == "Moyenne" && s[2].value == Count(all, SeverityIs("medium"))
      && s[3].name == "Faible" && s[3].value == Count(all, SeverityIs("low"))
      && s[0].value + s[1].value + s[2].value + s[3].value <= |all|
  {
    TypeSliceCounts(all);
    SeveritySliceCounts(all);
  }

  lemma {:induction false} TypeSliceCounts(all: seq<Incident>)
    ensures Count(all, KindIs("accident")) + Count(all, KindIs("near_miss"))
            + Count(all, KindIs("unsafe_condition")) + Count(all, KindIs("non_compliance")) <= |all|
  {
    if all != [] {
      TypeSliceCounts(all[1..]);
    }
  }

  lemma {:induction false} SeveritySliceCounts(all: seq<Incident>)
    ensures Count(all, SeverityIs("critical")) + Count(all, SeverityIs("high"))
            + Count(all, SeverityIs("medium")) + Count(all, SeverityIs("low")) <= |all|
  {
    if all != [] {
      SeveritySliceCounts(all[1..]);
    }
  }

  /** Days lost are summed over accidents only: one more incident adds its
      days lost when it is an accident and leaves the total unchanged
      otherwise. */
  lemma DaysLostOverAccidents(all: seq<Incident>, x: Incident, now: int)
    ensures Metric(all + [x], now).totalDaysLost
         == Metric(all, now).totalDaysLost + (if x.kind == "accident" then DaysLost(x) else 0)
  {
    FilterSnoc(all, x, KindIs("accident"));
    SumAppend(Filter(all, KindIs("accident")), if x.kind == "accident" then [x] else [], DaysLost);
  }

  datatype PostReply = Created(incident: Incident) | MissingFields

  function PostStatus(r: PostReply): int {
    if r.Created? then 201 else 400
  }

  /** POST: type, severity, title, location and reportedBy are required; the
      created incident is open and stamped now. */
  function Post(kind: Option<string>, severity: Option<string>, title: Option<string>, location: Option<string>,
                reportedBy: Option<string>, now: int): (r: PostReply)
    ensures r.MissingFields? <==>
      !TruthyStr(kind) || !TruthyStr(severity) || !TruthyStr(title) || !TruthyStr(location) || !TruthyStr(reportedBy)
    ensures r.Created? ==>
      (r.incident.status == "open" && r.incident.timestamp == now
       && r.incident.kind == kind.value && r.incident.location == location.value
       && r.incident.daysLost == None && r.incident.cost == None)
  {
    if !TruthyStr(kind) || !TruthyStr(severity) || !TruthyStr(title) || !TruthyStr(location) || !TruthyStr(reportedBy)
    then MissingFields
    else Created(Incident(now, kind.value, severity.value, title.value, location.value, reportedBy.value, "open",
                          None, None))
  }
}
