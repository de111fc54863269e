/** The teams report: the active employees (optionally of one shift), team
    metrics (head counts per shift, average scores, the five best
    performers) and the fixed per-shift breakdown. Rounding is not
    modelled. */
module TeamsRoute {
  import opened Common
  import opened Folds

  /** An employee; the four scores are nullable floats. */
  datatype Employee = Employee(firstName: string, lastName: string, shift: string, isActive: bool,
                               performance: Option<real>, efficiency: Option<real>, quality: Option<real>,
                               safety: Option<real>)

  datatype Performer = Performer(name: string, score: Option<real>)

  /** The global averages divide by the number of active employees without
      a guard: with none they are NaN, serialised as null, here None. */
  datatype Metrics = Metrics(totalEmployees: nat, matin: nat, apresMidi: nat, nuit: nat,
                             avgPerformance: Option<real>, avgEfficiency: Option<real>,
                             avgQuality: Option<real>, avgSafety: Option<real>, topPerformers: seq<Performer>)

  datatype ShiftRow = ShiftRow(shift: string, performance: real, efficiency: real, quality: real, employees: nat)

  datatype Report = Report(employees: seq<Employee>, metrics: Metrics, shiftPerformance: seq<ShiftRow>)

  const Shifts: seq<string> := ["MATIN", "APRES_MIDI", "NUIT"]

  /** `score || 0` */
  function Score(x: Option<real>): real { if TruthyReal(x) then x.value else 0.0 }

  function Performance(e: Employee): real { Score(e.performance) }
  function Efficiency(e: Employee): real { Score(e.efficiency) }
  function Quality(e: Employee): real { Score(e.quality) }
  function Safety(e: Employee): real { Score(e.safety) }

  predicate Active(e: Employee) { e.isActive }

  function OnShift(s: string): Employee -> bool {
    (e: Employee) => e.shift == s
  }

  /** The `where` of the listing: active, and on the shift unless the
      filter is absent or 'all'. */
  function Admits(shift: Option<string>): Employee -> bool {
    (e: Employee) => e.isActive && FilterAdmits(shift, e.shift)
  }

  function FullName(e: Employee): string { e.firstName + " " + e.lastName }

  // ------------------------------------------- ordering by performance score

  predicate SortedByScore(s: seq<Employee>) {
    forall i, j :: 0 <= i < j < |s| ==> Performance(s[i]) >= Performance(s[j])
  }

  function InsertByScore(x: Employee, s: seq<Employee>): seq<Employee> {
    if s == [] then [x]
    else if Performance(x) >= Performance(s[0]) then [x] + s
    else [s[0]] + InsertByScore(x, s[1..])
  }

  /** `sort((a, b) => (b.performanceScore || 0) - (a.performanceScore || 0))`,
      stable. */
  function SortByScore(s: seq<Employee>): seq<Employee> {
    if s == [] then [] else InsertByScore(s[0], SortByScore(s[1..]))
  }

  lemma {:induction false} InsertByScoreSorted(x: Employee, s: seq<Employee>)
    requires SortedByScore(s)
    ensures SortedByScore(InsertByScore(x, s))
    ensures forall y :: y in InsertByScore(x, s) ==> y == x || y in s
  {
    if s != [] && Performance(x) < Performance(s[0]) {
      InsertByScoreSorted(x, s[1..]);
      var rest := InsertByScore(x, s[1..]);
      forall i | 0 <= i < |rest| ensures Performance(s[0]) >= Performance(rest[i]) {
        assert rest[i] in rest;
        if rest[i] != x {
          var k :| 0 <= k < |s[1..]| && s[1..][k] == rest[i];
          assert s[k + 1] == rest[i];
        }
      }
      assert InsertByScore(x, s) == [s[0]] + rest;
    }
  }

  lemma {:induction false} InsertByScorePerm(x: Employee, s: seq<Employee>)
    ensures multiset(InsertByScore(x, s)) == multiset(s) + multiset{x}
  {
    if s != [] && Performance(x) < Performance(s[0]) {
      InsertByScorePerm(x, s[1..]);
      assert s == [s[0]] + s[1..];
    }
  }

  /** The order is by non-increasing score and a permutation of the input. */
  lemma {:induction false} SortByScoreProps(s: seq<Employee>)
    ensures SortedByScore(SortByScore(s))
    ensures multiset(SortByScore(s)) == multiset(s)
  {
    if s != [] {
      SortByScoreProps(s[1..]);
      InsertByScoreSorted(s[0], SortByScore(s[1..]));
      InsertByScorePerm(s[0], SortByScore(s[1..]));
      assert s == [s[0]] + s[1..];
    }
  }

  // ------------------------------------------------------------ the report

  function Mean(s: seq<Employee>, f: Employee -> real): Option<real> {
    if |s| > 0 then Some(SumReal(s, f) / |s| as real) else None
  }

  /** `sum / length || 0`: NaN (no employee) falls back to 0. */
  function MeanOr0(s: seq<Employee>, f: Employee -> real): real {
    if |s| > 0 then SumReal(s, f) / |s| as real else 0.0
  }

  function Performers(s: seq<Employee>): (r: seq<Performer>)
    ensures |r| == |s|
    ensures forall i :: 0 <= i < |s| ==> r[i] == Performer(FullName(s[i]), s[i].performance)
  {
    seq(|s|, i requires 0 <= i < |s| => Performer(FullName(s[i]), s[i].performance))
  }

  function TopPerformers(active: seq<Employee>): seq<Performer> {
    Performers(Take(SortByScore(active), 5))
  }

  function Metric(active: seq<Employee>): Metrics {
    Metrics(|active|, Count(active, OnShift("MATIN")), Count(active, OnShift("APRES_MIDI")),
            Count(active, OnShift("NUIT")),
            Mean(active, Performance), Mean(active, Efficiency), Mean(active, Quality), Mean(active, Safety),
            TopPerformers(active))
  }

  function ShiftRowOf(active: seq<Employee>, shift: string): ShiftRow {
    var members := Filter(active, OnShift(shift));
    ShiftRow(shift, MeanOr0(members, Performance), MeanOr0(members, Efficiency), MeanOr0(members, Quality),
             |members|)
  }

  function ShiftPerformance(active: seq<Employee>): (r: seq<ShiftRow>)
    ensures |r| == |Shifts|
    ensures forall i :: 0 <= i < |Shifts| ==> r[i] == ShiftRowOf(active, Shifts[i])
  {
    seq(|Shifts|, i requires 0 <= i < |Shifts| => ShiftRowOf(active, Shifts[i]))
  }

  /** GET */
  function Get(all: seq<Employee>, shift: Option<string>): Report {
    var active := Filter(all, Active);
    Report(Filter(all, Admits(shift)), Metric(active), ShiftPerformance(active))
  }

  // ------------------------------------------------------------ properties

  /** Only active employees are listed, and an absent or 'all' shift
      filter keeps every active one. */
  lemma ListingIsActive(all: seq<Employee>, shift: Option<string>)
    ensures forall e :: e in Get(all, shift).employees ==> e in all && e.isActive
    ensures shift == None || shift == Some("all") ==> Get(all, shift).employees == Filter(all, Active)
  {
    if shift == None || shift == Some("all") {
      FilterSame(all, Admits(shift), Active);
    }
  }

  lemma {:induction false} FilterSame(s: seq<Employee>, p: Employee -> bool, q: Employee -> bool)
    requires forall x :: p(x) == q(x)
    ensures Filter(s, p) == Filter(s, q)
  {
    if s != [] {
      FilterSame(s[1..], p, q);
    }
  }

  /** The three shift counts add up to at most the number of active
      employees. */
  lemma {:induction false} ShiftCounts(active: seq<Employee>)
    ensures Count(active, OnShift("MATIN")) + Count(active, OnShift("APRES_MIDI"))
            + Count(active, OnShift("NUIT")) <= |active|
  {
    if active != [] {
      ShiftCounts(active[1..]);
    }
  }

  /** At most five performers, best first; nobody left out scores higher
      than anyone listed. */
  lemma TopFive(active: seq<Employee>)
    ensures var top := Take(SortByScore(active), 5);
      |top| == (if |active| < 5 then |active| else 5)
      && SortedByScore(top)
      && multiset(top) <= multiset(active)
      && (forall e :: e in top ==> e in active)
      && (forall e, t :: e in active && e !in top && t in top ==> Performance(e) <= Performance(t))
      && TopPerformers(active) == Performers(top)
  {
    var sorted := SortByScore(active);
    SortByScoreProps(active);
    assert |sorted| == |multiset(sorted)| == |active|;
    var top := Take(sorted, 5);
    TakeSubMultiset(sorted, 5);
    forall e | e in top ensures e in active {
      assert multiset(sorted)[e] > 0;
    }
    forall e, t | e in active && e !in top && t in top ensures Performance(e) <= Performance(t) {
      assert multiset(sorted)[e] > 0;
      var k :| 0 <= k < |sorted| && sorted[k] == e;
      var m :| 0 <= m < |top| && top[m] == t;
      assert forall i :: 0 <= i < |top| ==> sorted[i] != e;
      assert m < k;
    }
  }

  /** The per-shift rows: MATIN, APRES_MIDI, NUIT in that order, with their
      head counts; an empty shift reports averages of 0. */
  lemma ShiftRows(active: seq<Employee>)
    ensures var r := ShiftPerformance(active);
      |r| == 3 && r[0].shift == "MATIN" && r[1].shift == "APRES_MIDI" && r[2].shift == "NUIT"
      && (forall i :: 0 <= i < 3 ==> r[i].employees == Count(active, OnShift(r[i].shift)))
      && (forall i :: 0 <= i < 3 && r[i].employees == 0 ==>
            r[i].performance == 0.0 && r[i].efficiency == 0.0 && r[i].quality == 0.0)
  {
  }

  /** The global averages are absent exactly when nobody is active. */
  lemma AveragesPresent(active: seq<Employee>)
    ensures var m := Metric(active);
      (m.avgPerformance.None? <==> active == []) && (m.avgSafety.None? <==> active == [])
      && m.totalEmployees == |active|
  {
  }
}
