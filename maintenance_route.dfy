/** The maintenance report: the filtered task list, the metrics (MTBF,
    MTTR, availability over 30 days, counts, costs), the monthly trend over
    the last six months and the fixed breakdown by type; and the POST that
    plans a task. Rounding is not modelled. */
module MaintenanceRoute {
  import opened Common
  import opened Folds

  /** A maintenance task; `kind` is the `type` column, durations are in
      minutes, dates in ms. */
  datatype Task = Task(equipmentId: string, kind: string, status: string, priority: string, title: string,
                       scheduledDate: int, actualDuration: Option<int>, estimatedDuration: int, cost: Option<real>)

  datatype Metrics = Metrics(mtbf: real, mttr: real, availability: real, totalTasks: nat, completedTasks: nat,
                             inProgressTasks: nat, plannedTasks: nat, totalCost: real, averageCost: real)

  /** One month's counters: `monthlyData[month]`. */
  datatype MonthTasks = MonthTasks(preventive: int, corrective: int, emergency: int, cost: real)

  datatype Slice = Slice(name: string, value: nat, color: string)

  datatype Report = Report(tasks: seq<Task>, metrics: Metrics, trends: seq<(string, MonthTasks)>,
                           tasksByType: seq<Slice>)

  /** `24 * 30` hours in the reference period. */
  const PeriodHours: int := 24 * 30

  /** The MTBF reported when there are fewer than two breakdowns. */
  const DefaultMtbf: real := 342.5

  predicate Completed(t: Task) { t.status == "completed" }

  /** A completed task counts as a repair when it has a truthy actual
      duration and is not preventive. */
  predicate Repair(t: Task) {
    Completed(t) && TruthyInt(t.actualDuration) && t.kind != "preventive"
  }

  predicate Breakdown(t: Task) { t.kind == "emergency" || t.kind == "corrective" }

  function StatusIs(s: string): Task -> bool {
    (t: Task) => t.status == s
  }

  function KindIs(k: string): Task -> bool {
    (t: Task) => t.kind == k
  }

  function Actual(t: Task): int { OrInt(t.actualDuration, 0) }

  /** `(actualDuration || estimatedDuration) / 60` */
  function DowntimeHours(t: Task): real { OrInt(t.actualDuration, t.estimatedDuration) as real / 60.0 }

  function Cost(t: Task): real { if TruthyReal(t.cost) then t.cost.value else 0.0 }

  function Admits(status: Option<string>, kind: Option<string>): Task -> bool {
    (t: Task) => FilterAdmits(status, t.status) && FilterAdmits(kind, t.kind)
  }

  function Mttr(all: seq<Task>): real {
    var repairs := Filter(all, Repair);
    MeanOf(Sum(repairs, Actual), |repairs|)
  }

  function Mtbf(all: seq<Task>): (m: real)
    ensures m > 0.0
  {
    var breakdowns := Filter(all, Breakdown);
    if |breakdowns| > 1 then PeriodHours as real / |breakdowns| as real else DefaultMtbf
  }

  function Availability(all: seq<Task>): real {
    var hours := SumReal(Filter(all, Completed), DowntimeHours);
    ((PeriodHours as real - hours) / PeriodHours as real) * 100.0
  }

  function Metric(all: seq<Task>): Metrics {
    var totalCost := SumReal(all, Cost);
    Metrics(Mtbf(all), Mttr(all), Availability(all), |all|, |Filter(all, Completed)|,
            Count(all, StatusIs("in_progress")), Count(all, StatusIs("planned")),
            totalCost, if |all| > 0 then totalCost / |all| as real else 0.0)
  }

  function ByType(all: seq<Task>): seq<Slice> {
    [Slice("Préventive", Count(all, KindIs("preventive")), "#3B82F6"),
     Slice("Corrective", Count(all, KindIs("corrective")), "#F59E0B"),
     Slice("Urgence", Count(all, KindIs("emergency")), "#EF4444")]
  }

  /** The month key of a task: `scheduledDate.toISOString().substring(0, 7)`. */
  function Month(iso: int -> string): Task -> string {
    (t: Task) => Prefix(iso(t.scheduledDate), 7)
  }

  /** `monthlyData[month][task.type]++` then `cost += task.cost || 0`: the
      counter named by the type is incremented, a type named 'cost' bumps
      the cost by one, and any other type touches no reported counter. */
  function Tally(m: MonthTasks, t: Task): MonthTasks {
    var bumped :=
      if t.kind == "preventive" then m.(preventive := m.preventive + 1)
      else if t.kind == "corrective" then m.(corrective := m.corrective + 1)
      else if t.kind == "emergency" then m.(emergency := m.emergency + 1)
      else if t.kind == "cost" then m.(cost := m.cost + 1.0)
      else m;
    bumped.(cost := bumped.cost + Cost(t))
  }

  function Scheduled(t: Task): int { t.scheduledDate }

  /** Minus the scheduled date: sorting by it, largest first, is sorting by
      date, earliest first. */
  function Earliness(t: Task): int { -t.scheduledDate }

  /** The tasks scheduled from `since` on, earliest first. */
  function Recent(all: seq<Task>, since: int): seq<Task> {
    SortDesc(Filter(all, (t: Task) => t.scheduledDate >= since), Earliness)
  }

  /** GET. `since` is six months back and `iso` is toISOString. */
  method Get(all: seq<Task>, status: Option<string>, kind: Option<string>, since: int, iso: int -> string)
    returns (r: Report)
    ensures r.tasks == Filter(all, Admits(status, kind))
    ensures r.metrics == Metric(all)
    ensures r.trends == GroupFold(Recent(all, since), Month(iso), MonthTasks(0, 0, 0, 0.0), Tally)
    ensures r.tasksByType == ByType(all)
  {
    var trends := GroupLoop(Recent(all, since), Month(iso), MonthTasks(0, 0, 0, 0.0), Tally);
    r := Report(Filter(all, Admits(status, kind)), Metric(all), trends, ByType(all));
  }

  // ------------------------------------------------------------ properties

  /** MTTR is the mean actual duration of the repairs. */
  lemma MttrIsMean(all: seq<Task>)
    requires Count(all, Repair) > 0
    ensures Mttr(all) * Count(all, Repair) as real == Sum(Filter(all, Repair), Actual) as real
  {
    MeanOfTimes(Mttr(all), Sum(Filter(all, Repair), Actual), Count(all, Repair));
  }

  /** Without repairs the repair time is 0. */
  lemma MttrWithoutRepairs(all: seq<Task>)
    requires Count(all, Repair) == 0
    ensures Mttr(all) == 0.0
  {
    assert Mttr(all) == MeanOf(Sum(Filter(all, Repair), Actual), 0);
  }

  /** MTBF spreads 720 hours over the breakdowns when there are at least
      two of them, and is 342.5 otherwise. */
  lemma MtbfRule(all: seq<Task>)
    ensures Count(all, Breakdown) <= 1 ==> Mtbf(all) == DefaultMtbf
    ensures Count(all, Breakdown) > 1 ==>
      Mtbf(all) * Count(all, Breakdown) as real == 720.0 && 0.0 < Mtbf(all) <= 360.0
  {
    var n := Count(all, Breakdown);
    if n > 1 {
      assert (720.0 / n as real) * n as real == 720.0;
      assert 720.0 / n as real <= 720.0 / 2.0;
    }
  }

  lemma {:induction false} SumRealNonNegative(s: seq<Task>)
    ensures SumReal(s, DowntimeHours) >= 0.0 || exists t :: t in s && DowntimeHours(t) < 0.0
  {
    if s != [] {
      SumRealNonNegative(s[1..]);
      if SumReal(s[1..], DowntimeHours) < 0.0 {
        var t :| t in s[1..] && DowntimeHours(t) < 0.0;
        assert t in s;
      }
    }
  }

  /** Without completed downtime availability is 100; with non-negative
      durations it never exceeds 100. */
  lemma AvailabilityBounds(all: seq<Task>)
    ensures SumReal(Filter(all, Completed), DowntimeHours) == 0.0 ==> Availability(all) == 100.0
    ensures (forall t :: t in all ==> DowntimeHours(t) >= 0.0) ==> Availability(all) <= 100.0
  {
    SumRealNonNegative(Filter(all, Completed));
  }

  /** The three status counts never exceed the number of tasks. */
  lemma {:induction false} StatusCounts(all: seq<Task>)
    ensures |Filter(all, Completed)| + Count(all, StatusIs("in_progress")) + Count(all, StatusIs("planned")) <= |all|
  {
    if all != [] {
      StatusCounts(all[1..]);
    }
  }

  /** The type chart: three slices in fixed order, each the count of its
      task type, together counting no task twice. */
  lemma TypeSlices(all: seq<Task>)
    ensures var t := ByType(all);
      |t| == 3
      && t[0].name == "Préventive" && t[0].value == Count(all, KindIs("preventive"))
      && t[1].name == "Corrective" && t[1].value == Count(all, KindIs("corrective"))
      && t[2].name == "Urgence" && t[2].value == Count(all, KindIs("emergency"))
      && t[0].value + t[1].value + t[2].value <= |all|
  {
    TypeSliceCounts(all);
  }

  lemma {:induction false} TypeSliceCounts(all: seq<Task>)
    ensures Count(all, KindIs("preventive")) + Count(all, KindIs("corrective")) + Count(all, KindIs("emergency")) <= |all|
  {
    if all != [] {
      TypeSliceCounts(all[1..]);
    }
  }

  function Counted(m: MonthTasks): int { m.preventive + m.corrective + m.emergency }

  function TypedOne(t: Task): int {
    if t.kind == "preventive" || t.kind == "corrective" || t.kind == "emergency" then 1 else 0
  }

  lemma TallyCounts()
    ensures forall m, t :: Counted(Tally(m, t)) == Counted(m) + TypedOne(t)
  {
  }

  /** Over all months, the three type counters add up to the recent tasks of
      those three types. Stated for any month key, in particular
      `Month(iso)`. */
  lemma TrendCounts(recent: seq<Task>, month: Task -> string)
    ensures SumGroups(GroupFold(recent, month, MonthTasks(0, 0, 0, 0.0), Tally), Counted) == Sum(recent, TypedOne)
  {
    TallyCounts();
    GroupFoldTotal(recent, month, MonthTasks(0, 0, 0, 0.0), Tally, Counted, TypedOne);
  }

  /** Each month appears once in the trend, and there are no more months
      than recent tasks. */
  lemma TrendMonthsDistinct(recent: seq<Task>, month: Task -> string)
    ensures DistinctKeys(GroupFold(recent, month, MonthTasks(0, 0, 0, 0.0), Tally))
    ensures |GroupFold(recent, month, MonthTasks(0, 0, 0, 0.0), Tally)| <= |recent|
  {
    GroupFoldKeys(recent, month, MonthTasks(0, 0, 0, 0.0), Tally);
  }

  /** The recent tasks are those scheduled from `since`, earliest first. */
  lemma RecentOrder(all: seq<Task>, since: int)
    ensures SortedDesc(Recent(all, since), Earliness)
    ensures forall t :: t in Recent(all, since) <==> t in all && t.scheduledDate >= since
  {
    var f := Filter(all, (t: Task) => t.scheduledDate >= since);
    SortDescProps(f, Earliness);
    forall t ensures t in Recent(all, since) <==> t in f {
      assert t in Recent(all, since) <==> multiset(Recent(all, since))[t] > 0;
      assert t in f <==> multiset(f)[t] > 0;
    }
  }

  datatype PostReply = Created(task: Task) | MissingFields

  function PostStatus(r: PostReply): int {
    if r.Created? then 201 else 400
  }

  /** POST: equipmentId, type, title and scheduledDate are required; the
      task is planned, with priority 'medium' unless one is given. `parse`
      is `new Date(scheduledDate)`. */
  function Post(equipmentId: Option<string>, kind: Option<string>, title: Option<string>,
                priority: Option<string>, scheduledDate: Option<string>, estimatedDuration: int,
                parse: string -> int): (r: PostReply)
    ensures r.MissingFields? <==>
      !TruthyStr(equipmentId) || !TruthyStr(kind) || !TruthyStr(title) || !TruthyStr(scheduledDate)
    ensures r.Created? ==>
      (r.task.status == "planned" && r.task.kind == kind.value && r.task.equipmentId == equipmentId.value
       && r.task.scheduledDate == parse(scheduledDate.value)
       && (r.task.priority == if TruthyStr(priority) then priority.value else "medium")
       && r.task.actualDuration == None)
  {
    if !TruthyStr(equipmentId) || !TruthyStr(kind) || !TruthyStr(title) || !TruthyStr(scheduledDate) then
      MissingFields
    else
      Created(Task(equipmentId.value, kind.value, "planned", OrStr(priority, "medium"), title.value,
                   parse(scheduledDate.value), None, estimatedDuration, None))
  }
}
