/** GET of the production orders report: the orders matching the status and
    line filters, global metrics (totals, efficiency, OEE averaged over the
    completed orders, mean rate, setup time, status counts), production per
    line, the product mix and two fixed-shape charts. Rounding to one
    decimal is not modelled. */
module OrdersRoute {
  import opened Common
  import opened Folds

  datatype Order = Order(orderNumber: string, productType: string, quantity: int, produced: int,
                         targetRate: int, actualRate: Option<int>, startTime: Option<int>, endTime: Option<int>,
                         status: string, priority: string, line: string, setupTime: Option<int>, downtime: int)

  datatype OrderView = OrderView(orderNumber: string, product: string, quantity: int, produced: int,
                                 progress: Option<real>, status: string, priority: string, line: string)

  datatype Metrics = Metrics(totalProduced: int, targetProduction: int, efficiency: real, oee: real,
                             availability: real, performance: real, quality: real, averageRate: real,
                             setupTime: int, activeOrders: nat, completedOrders: nat, waitingOrders: nat,
                             pausedOrders: nat)

  /** The running totals of one line. */
  datatype LineTotals = LineTotals(produced: int, target: int, orders: int)

  datatype LineRow = LineRow(line: string, produced: int, target: int, efficiency: Option<real>, orders: int)

  datatype MixRow = MixRow(name: string, value: int, percentage: Option<real>)

  /** One slice of the status pie. */
  datatype StatusSlice = StatusSlice(name: string, value: nat, color: string)

  /** One OEE bar with its target percentage. */
  datatype OeeBar = OeeBar(name: string, value: real, target: real)

  datatype Report = Report(orders: seq<OrderView>, metrics: Metrics, productionByLine: seq<LineRow>,
                           productionMix: seq<MixRow>, statusDistribution: seq<StatusSlice>,
                           oeeComponents: seq<OeeBar>)

  function Produced(o: Order): int { o.produced }
  function Quantity(o: Order): int { o.quantity }
  function Setup(o: Order): int { OrInt(o.setupTime, 0) }
  function Line(o: Order): string { o.line }
  function Product(o: Order): string { o.productType }

  function StatusIs(st: string): Order -> bool {
    (o: Order) => o.status == st
  }

  /** `status === 'completed' && startTime && endTime`; the times are Date
      objects or null, and every Date is truthy, so presence is the test. */
  predicate Timed(o: Order) {
    o.status == "completed" && o.startTime.Some? && o.endTime.Some?
  }

  /** `actualRate && actualRate > 0` */
  predicate Rated(o: Order) {
    TruthyInt(o.actualRate) && o.actualRate.value > 0
  }

  function Rate(o: Order): int { OrInt(o.actualRate, 0) }

  /** The status and line filters of the listing. */
  function Admits(status: Option<string>, line: Option<string>): Order -> bool {
    (o: Order) => FilterAdmits(status, o.status) && FilterAdmits(line, o.line)
  }

  // -------------------------------------------------- one order's OEE parts

  function ActualMinutes(o: Order): real {
    (o.endTime.GetOr(0) - o.startTime.GetOr(0)) as real / 60000.0
  }

  function Availability(o: Order): real {
    var actual := ActualMinutes(o);
    var planned := actual - o.downtime as real;
    if actual > 0.0 then (planned / actual) * 100.0 else 0.0
  }

  function Performance(o: Order): real {
    var planned := ActualMinutes(o) - o.downtime as real;
    var ideal := if o.targetRate != 0 then o.quantity as real / o.targetRate as real else 0.0;
    if planned > 0.0 then (ideal / planned) * 100.0 else 0.0
  }

  /** Completed orders are taken to be of near-perfect quality. */
  function Quality(o: Order): real { 98.0 }

  /** The mean of a total over n items, 0 for none. */
  function Mean(total: real, n: nat): real {
    if n > 0 then total / n as real else 0.0
  }

  /** The per-order availability of an order without downtime is 100 when
      it lasted; an order whose downtime covers its duration has no
      performance. */
  lemma OrderOeeParts(o: Order)
    ensures ActualMinutes(o) > 0.0 && o.downtime == 0 ==> Availability(o) == 100.0
    ensures ActualMinutes(o) - o.downtime as real <= 0.0 ==> Performance(o) == 0.0
    ensures ActualMinutes(o) <= 0.0 ==> Availability(o) == 0.0
  {
    var actual := ActualMinutes(o);
    if actual > 0.0 && o.downtime == 0 {
      assert actual - o.downtime as real == actual;
      assert actual / actual == 1.0;
    }
  }

  // ------------------------------------------------------------ the report

  function Metric(all: seq<Order>, ta: real, tp: real, tq: real): Metrics {
    var totalProduced := Sum(all, Produced);
    var targetProduction := Sum(all, Quantity);
    var n := |Filter(all, Timed)|;
    var a := Mean(ta, n);
    var p := Mean(tp, n);
    var q := Mean(tq, n);
    var rated := Filter(all, Rated);
    Metrics(totalProduced, targetProduction,
            if targetProduction > 0 then (totalProduced as real / targetProduction as real) * 100.0 else 0.0,
            (a * p * q) / 10000.0, a, p, q,
            if |rated| > 0 then Sum(rated, Rate) as real / |rated| as real else 0.0,
            Sum(all, Setup),
            Count(all, StatusIs("running")), Count(all, StatusIs("completed")),
            Count(all, StatusIs("waiting")), Count(all, StatusIs("paused")))
  }

  function AddOrder(t: LineTotals, o: Order): LineTotals {
    LineTotals(t.produced + o.produced, t.target + o.quantity, t.orders + 1)
  }

  function AddProduced(v: int, o: Order): int {
    v + o.produced
  }

  function LineRows(g: seq<(string, LineTotals)>): (r: seq<LineRow>)
    ensures |r| == |g|
    ensures forall i :: 0 <= i < |g| ==>
      r[i].line == g[i].0 && r[i].produced == g[i].1.produced && r[i].target == g[i].1.target
      && r[i].orders == g[i].1.orders
      && (r[i].efficiency == None <==> g[i].1.target == 0)
  {
    seq(|g|, i requires 0 <= i < |g| =>
      var t := g[i].1;
      LineRow(g[i].0, t.produced, t.target,
              if t.target != 0 then Some((t.produced as real / t.target as real) * 100.0) else None, t.orders))
  }

  function MixValue(m: MixRow): int { m.value }

  function MixRows(g: seq<(string, int)>, total: int): (r: seq<MixRow>)
    ensures |r| == |g|
    ensures forall i :: 0 <= i < |g| ==> r[i].name == g[i].0 && r[i].value == g[i].1
  {
    seq(|g|, i requires 0 <= i < |g| =>
      MixRow(g[i].0, g[i].1, if total != 0 then Some((g[i].1 as real / total as real) * 100.0) else None))
  }

  function View(o: Order): OrderView {
    OrderView(o.orderNumber, o.productType, o.quantity, o.produced,
              if o.quantity != 0 then Some((o.produced as real / o.quantity as real) * 100.0) else None,
              o.status, o.priority, o.line)
  }

  function Views(orders: seq<Order>): (r: seq<OrderView>)
    ensures |r| == |orders|
    ensures forall i :: 0 <= i < |orders| ==> r[i] == View(orders[i])
  {
    seq(|orders|, i requires 0 <= i < |orders| => View(orders[i]))
  }

  function StatusDistribution(m: Metrics): seq<StatusSlice> {
    [StatusSlice("En cours", m.activeOrders, "#10B981"), StatusSlice("Terminé", m.completedOrders, "#3B82F6"),
     StatusSlice("En attente", m.waitingOrders, "#F59E0B"), StatusSlice("En pause", m.pausedOrders, "#EF4444")]
  }

  function OeeComponents(m: Metrics): seq<OeeBar> {
    [OeeBar("Disponibilité", m.availability, 90.0), OeeBar("Performance", m.performance, 95.0),
     OeeBar("Qualité", m.quality, 99.0)]
  }

  /** The forEach over the completed orders, accumulating the three OEE
      parts. */
  method OeeTotals(completed: seq<Order>) returns (ta: real, tp: real, tq: real)
    ensures ta == SumReal(completed, Availability)
    ensures tp == SumReal(completed, Performance)
    ensures tq == 98.0 * |completed| as real
  {
    ta, tp, tq := 0.0, 0.0, 0.0;
    for i := 0 to |completed|
      invariant ta == SumReal(completed[..i], Availability)
      invariant tp == SumReal(completed[..i], Performance)
      invariant tq == 98.0 * i as real
    {
      assert completed[..i + 1][..i] == completed[..i];
      SumRealLast(completed[..i + 1], Availability);
      SumRealLast(completed[..i + 1], Performance);
      ta := ta + Availability(completed[i]);
      tp := tp + Performance(completed[i]);
      tq := tq + Quality(completed[i]);
    }
    assert completed[..|completed|] == completed;
  }

  /** The metrics of the report, over the completed orders' OEE parts. */
  function ReportMetrics(all: seq<Order>): Metrics {
    var completed := Filter(all, Timed);
    Metric(all, SumReal(completed, Availability), SumReal(completed, Performance), 98.0 * |completed| as real)
  }

  /** The metrics block, with the OEE parts accumulated by the loop. */
  method ComputeMetrics(all: seq<Order>) returns (m: Metrics)
    ensures m == ReportMetrics(all)
  {
    var ta, tp, tq := OeeTotals(Filter(all, Timed));
    m := Metric(all, ta, tp, tq);
  }

  /** GET */
  method Get(all: seq<Order>, status: Option<string>, line: Option<string>) returns (r: Report)
    ensures r.orders == Views(Filter(all, Admits(status, line)))
    ensures r.metrics == ReportMetrics(all)
    ensures r.productionByLine == LineRows(GroupFold(all, Line, LineTotals(0, 0, 0), AddOrder))
    ensures r.productionMix == SortDesc(MixRows(GroupFold(all, Product, 0, AddProduced), Sum(all, Produced)), MixValue)
    ensures r.statusDistribution == StatusDistribution(r.metrics)
    ensures r.oeeComponents == OeeComponents(r.metrics)
  {
    var metrics := ComputeMetrics(all);
    var lines := GroupLoop(all, Line, LineTotals(0, 0, 0), AddOrder);
    var mix := GroupLoop(all, Product, 0, AddProduced);
    var listed := Views(Filter(all, Admits(status, line)));
    var byLine := LineRows(lines);
    var productMix := SortDesc(MixRows(mix, metrics.totalProduced), MixValue);
    r := Report(listed, metrics, byLine, productMix, StatusDistribution(metrics), OeeComponents(metrics));
  }

  // ------------------------------------------------------------ properties

  function LineProduced(t: LineTotals): int { t.produced }
  function LineTarget(t: LineTotals): int { t.target }
  function LineOrders(t: LineTotals): int { t.orders }
  function One(o: Order): int { 1 }

  /** Summed over all lines, produced, target and order counts equal the
      global totals. */
  lemma LinesAddUp(all: seq<Order>)
    ensures var g := GroupFold(all, Line, LineTotals(0, 0, 0), AddOrder);
      SumGroups(g, LineProduced) == Sum(all, Produced)
      && SumGroups(g, LineTarget) == Sum(all, Quantity)
      && SumGroups(g, LineOrders) == Sum(all, One) == |all|
      && DistinctKeys(g)
  {
    GroupFoldTotal(all, Line, LineTotals(0, 0, 0), AddOrder, LineProduced, Produced);
    GroupFoldTotal(all, Line, LineTotals(0, 0, 0), AddOrder, LineTarget, Quantity);
    GroupFoldTotal(all, Line, LineTotals(0, 0, 0), AddOrder, LineOrders, One);
    GroupFoldKeys(all, Line, LineTotals(0, 0, 0), AddOrder);
    SumOnes(all);
  }

  lemma {:induction false} SumOnes(s: seq<Order>)
    ensures Sum(s, One) == |s|
  {
    if s != [] {
      SumOnes(s[1..]);
    }
  }

  function Identity(v: int): int { v }

  /** The product mix lists every product once, largest first, and its
      values add up to the total produced. */
  lemma MixAddsUp(all: seq<Order>)
    ensures var g := GroupFold(all, Product, 0, AddProduced);
      var m := SortDesc(MixRows(g, Sum(all, Produced)), MixValue);
      SortedDesc(m, MixValue) && |m| == |g| && Sum(m, MixValue) == Sum(all, Produced) && DistinctKeys(g)
  {
    var g := GroupFold(all, Product, 0, AddProduced);
    var rows := MixRows(g, Sum(all, Produced));
    GroupFoldTotal(all, Product, 0, AddProduced, Identity, Produced);
    GroupFoldKeys(all, Product, 0, AddProduced);
    SortDescProps(rows, MixValue);
    SortDescSum(rows, MixValue, MixValue);
    MixRowsSum(g, Sum(all, Produced));
  }

  lemma {:induction false} MixRowsSum(g: seq<(string, int)>, total: int)
    ensures Sum(MixRows(g, total), MixValue) == SumGroups(g, Identity)
  {
    if g != [] {
      MixRowsSum(g[1..], total);
      assert MixRows(g, total)[1..] == MixRows(g[1..], total);
    }
  }

  /** The four status counts never exceed the number of orders. */
  lemma {:induction false} StatusCountsBounded(all: seq<Order>)
    ensures Count(all, StatusIs("running")) + Count(all, StatusIs("completed"))
            + Count(all, StatusIs("waiting")) + Count(all, StatusIs("paused")) <= |all|
  {
    if all != [] {
      StatusCountsBounded(all[1..]);
    }
  }

  /** Without completed timed orders every OEE figure is 0; with some,
      quality is 98. */
  lemma OeeGuards(all: seq<Order>, ta: real, tp: real)
    ensures var m := Metric(all, ta, tp, 98.0 * |Filter(all, Timed)| as real);
      (Filter(all, Timed) == [] ==> m.availability == 0.0 && m.performance == 0.0 && m.quality == 0.0 && m.oee == 0.0)
      && (Filter(all, Timed) != [] ==> m.quality == 98.0)
  {
    var n := |Filter(all, Timed)|;
    if n > 0 {
      assert (98.0 * n as real) / n as real == 98.0;
    }
  }

  /** The mean rate is 0 without a rated order; efficiency is 0 without a
      target; setup time is the sum of the present setup times. */
  lemma RateGuards(all: seq<Order>, ta: real, tp: real, tq: real)
    ensures var m := Metric(all, ta, tp, tq);
      (Filter(all, Rated) == [] ==> m.averageRate == 0.0)
      && (Sum(all, Quantity) <= 0 ==> m.efficiency == 0.0)
      && m.setupTime == Sum(all, Setup)
  {
  }

  /** The charts of a report always have four and three entries, in fixed
      order: the status slices carry the running, completed, waiting and
      paused counts, which together never exceed the orders, and the OEE
      bars carry the three averaged components against targets 90, 95 and
      99. */
  lemma ChartShapes(all: seq<Order>)
    ensures var m := ReportMetrics(all);
      var d := StatusDistribution(m);
      var c := OeeComponents(m);
      |d| == 4 && |c| == 3
      && d[0].name == "En cours" && d[0].value == Count(all, StatusIs("running"))
      && d[1].name == "Terminé" && d[1].value == Count(all, StatusIs("completed"))
      && d[2].name == "En attente" && d[2].value == Count(all, StatusIs("waiting"))
      && d[3].name == "En pause" && d[3].value == Count(all, StatusIs("paused"))
      && d[0].value + d[1].value + d[2].value + d[3].value <= |all|
      && c[0].name == "Disponibilité" && c[0].value == m.availability && c[0].target == 90.0
      && c[1].name == "Performance" && c[1].value == m.performance && c[1].target == 95.0
      && c[2].name == "Qualité" && c[2].value == m.quality && c[2].target == 99.0
  {
    StatusCountsBounded(all);
  }

  /** An absent filter, or 'all', lists every order. */
  lemma NoFilterListsAll(all: seq<Order>)
    ensures Views(Filter(all, Admits(None, Some("all")))) == Views(all)
  {
    FilterAll(all, Admits(None, Some("all")));
  }
}
