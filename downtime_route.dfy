/** GET and POST of the downtime report: the stops of a recent period,
    newest first and at most a limit of them, summarised by total minutes,
    planned and unplanned counts, minutes per reason and the mean repair
    time. The access gate in front of both is the one ApiMiddleware models;
    the clock is a parameter. */
module DowntimeRoute {
  import opened Common
  import opened Folds
  import opened Records

  datatype Summary = Summary(total: nat, totalDowntime: int, plannedCount: nat, unplannedCount: nat,
                             mttr: real, byReason: seq<(string, int)>)

  /** `d.duration || 0` */
  function Dur(d: DowntimeRow): int {
    OrInt(d.duration, 0)
  }

  function Start(d: DowntimeRow): int {
    d.startTime
  }

  function StartedSince(since: int): DowntimeRow -> bool {
    (d: DowntimeRow) => d.startTime >= since
  }

  predicate Planned(d: DowntimeRow) {
    d.category == "PLANIFIE"
  }

  predicate Unplanned(d: DowntimeRow) {
    d.category == "NON_PLANIFIE"
  }

  /** Resolved with a truthy duration: the stops the repair time is taken
      over. */
  predicate Repaired(d: DowntimeRow) {
    d.resolved && TruthyInt(d.duration)
  }

  function Reason(d: DowntimeRow): string {
    d.reason
  }

  function AddDuration(acc: int, d: DowntimeRow): int {
    acc + Dur(d)
  }

  /** The stops started in the last `period` minutes (1440 by default). */
  function Window(table: seq<DowntimeRow>, period: Option<int>, now: int): seq<DowntimeRow> {
    Filter(table, StartedSince(now - period.GetOr(1440) * 60 * 1000))
  }

  /** The query: the `limit` (50 by default) newest stops of the window,
      newest first. */
  function Fetch(table: seq<DowntimeRow>, period: Option<int>, limit: Option<nat>, now: int): (rows: seq<DowntimeRow>)
    ensures |rows| == if limit.GetOr(50) <= |Window(table, period, now)| then limit.GetOr(50)
                      else |Window(table, period, now)|
    ensures SortedDesc(rows, Start)
    ensures multiset(rows) <= multiset(Window(table, period, now))
    ensures forall d :: d in rows ==> d in Window(table, period, now)
    ensures forall d, k :: d in Window(table, period, now) && d !in rows && k in rows ==> Start(d) <= Start(k)
  {
    TakeSortedTop(Window(table, period, now), Start, limit.GetOr(50));
    Take(SortDesc(Window(table, period, now), Start), limit.GetOr(50))
  }

  /** The mean of the repaired stops' durations, 0 when there is none. */
  function Mttr(rows: seq<DowntimeRow>): real {
    var repaired := Filter(rows, Repaired);
    MeanOf(Sum(repaired, Dur), |repaired|)
  }

  function Summarise(rows: seq<DowntimeRow>): Summary {
    Summary(|rows|, Sum(rows, Dur), Count(rows, Planned), Count(rows, Unplanned), Mttr(rows),
            GroupFold(rows, Reason, 0, AddDuration))
  }

  function Identity(v: int): int {
    v
  }

  /** The reasons' minutes add up to the total, and each reason appears
      once. */
  lemma ByReasonAddsUp(rows: seq<DowntimeRow>)
    ensures SumGroups(Summarise(rows).byReason, Identity) == Summarise(rows).totalDowntime
    ensures DistinctKeys(Summarise(rows).byReason)
  {
    GroupFoldTotal(rows, Reason, 0, AddDuration, Identity, Dur);
    GroupFoldKeys(rows, Reason, 0, AddDuration);
  }

  /** Planned and unplanned stops are among all the stops. */
  lemma CountsWithinTotal(rows: seq<DowntimeRow>)
    ensures Summarise(rows).plannedCount + Summarise(rows).unplannedCount <= Summarise(rows).total
  {
    CountDisjoint(rows, Planned, Unplanned);
  }

  /** The repair time is the mean over the repaired stops. */
  lemma MttrIsMean(rows: seq<DowntimeRow>)
    requires Count(rows, Repaired) > 0
    ensures Mttr(rows) * Count(rows, Repaired) as real == Sum(Filter(rows, Repaired), Dur) as real
  {
    MeanOfTimes(Mttr(rows), Sum(Filter(rows, Repaired), Dur), Count(rows, Repaired));
  }

  /** Without repaired stops the repair time is 0. */
  lemma MttrWithoutRepairs(rows: seq<DowntimeRow>)
    requires Count(rows, Repaired) == 0
    ensures Mttr(rows) == 0.0
  {
    assert Mttr(rows) == MeanOf(Sum(Filter(rows, Repaired), Dur), 0);
  }

  /** The minutes of one reason are the minutes of that reason's stops. */
  lemma ReasonMinutes(rows: seq<DowntimeRow>, reason: string)
    ensures Lookup(Summarise(rows).byReason, reason)
         == if InGroup(rows, Reason, reason) == [] then None
            else Some(FoldLeft(InGroup(rows, Reason, reason), 0, AddDuration))
  {
    GroupFoldLookup(rows, Reason, 0, AddDuration, reason);
  }

  datatype PostReply = Created(downtime: DowntimeRow) | MissingFields

  function PostStatus(r: PostReply): int {
    if r.Created? then 201 else 400
  }

  /** POST: reason and category are required (non-empty); the created stop
      starts now and is unresolved. */
  function Post(reason: Option<string>, category: Option<string>, description: Option<string>, now: int): (r: PostReply)
    ensures r.MissingFields? <==> !TruthyStr(reason) || !TruthyStr(category)
    ensures r.Created? ==>
      r.downtime == DowntimeRow(now, None, None, reason.value, category.value, description, false)
  {
    if !TruthyStr(reason) || !TruthyStr(category) then MissingFields
    else Created(DowntimeRow(now, None, None, reason.value, category.value, description, false))
  }
}
