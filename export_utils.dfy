/** The content of the PDF and Excel reports: the report-type and status
    labels, the alert rows (first ten in the PDF, all of them in the
    workbook, none when there is no alert), the order of the sections and
    sheets, and the file name. Page layout and date formatting are not
    modelled. */
module ExportUtils {
  import opened Common
  import opened Folds

  /** An alert as the report receives it. */
  datatype ReportAlert = ReportAlert(kind: string, severity: string, message: string, isResolved: bool)

  /** One alert row: type, severity, message and status. */
  datatype AlertLine = AlertLine(kind: string, severity: string, message: string, status: string)

  /** `getReportTypeName`: the five known report types have a label; any
      other value is shown as it is. */
  function ReportTypeName(kind: string): (name: string)
    ensures kind == "production" ==> name == "Production"
    ensures kind == "trs" ==> name == "TRS & OEE"
    ensures kind == "downtime" ==> name == "Temps d'arrêt"
    ensures kind == "quality" ==> name == "Qualité"
    ensures kind == "shift" ==> name == "Par équipe"
    ensures kind !in {"production", "trs", "downtime", "quality", "shift"} ==> name == kind
  {
    match kind
    case "production" => "Production"
    case "trs" => "TRS & OEE"
    case "downtime" => "Temps d'arrêt"
    case "quality" => "Qualité"
    case "shift" => "Par équipe"
    case _ => kind
  }

  /** `getStatusLabel`: good, warning and critical have a label; anything
      else, an absent status included, is '-'. */
  function StatusLabel(status: Option<string>): (text: string)
    ensures status == Some("good") ==> text == "✓ Bon"
    ensures status == Some("warning") ==> text == "⚠ Attention"
    ensures status == Some("critical") ==> text == "✗ Critique"
    ensures status.GetOr("") !in {"good", "warning", "critical"} ==> text == "-"
  {
    match status.GetOr("")
    case "good" => "✓ Bon"
    case "warning" => "⚠ Attention"
    case "critical" => "✗ Critique"
    case _ => "-"
  }

  /** The position of the first c in s, if any. */
  function IndexOf(s: string, c: char): (i: Option<nat>)
    ensures i.None? <==> c !in s
    ensures i.Some? ==> i.value < |s| && s[i.value] == c && c !in s[..i.value]
  {
    if s == [] then None
    else if s[0] == c then Some(0)
    else
      var rest := IndexOf(s[1..], c);
      if rest.None? then None
      else
        assert s[..rest.value + 1] == [s[0]] + s[1..][..rest.value];
        Some(rest.value + 1)
  }

  /** `s.replace('_', ' ')`: with a string pattern only the first
      occurrence is replaced. */
  function ReplaceFirstUnderscore(s: string): (r: string)
    ensures |r| == |s|
    ensures '_' !in s ==> r == s
    ensures '_' in s ==>
      exists i :: 0 <= i < |s| && s[i] == '_' && '_' !in s[..i] && r == s[..i] + " " + s[i + 1..]
  {
    match IndexOf(s, '_')
    case None => s
    case Some(i) => s[..i] + " " + s[i + 1..]
  }

  function AlertLineOf(a: ReportAlert): AlertLine {
    AlertLine(ReplaceFirstUnderscore(a.kind), a.severity, a.message, if a.isResolved then "Résolu" else "Actif")
  }

  function AlertLines(alerts: seq<ReportAlert>): (r: seq<AlertLine>)
    ensures |r| == |alerts|
    ensures forall i :: 0 <= i < |alerts| ==> r[i] == AlertLineOf(alerts[i])
  {
    seq(|alerts|, i requires 0 <= i < |alerts| => AlertLineOf(alerts[i]))
  }

  /** The PDF alert table: absent without alerts, else the first ten. */
  function PdfAlerts(alerts: seq<ReportAlert>): Option<seq<AlertLine>> {
    if |alerts| > 0 then Some(AlertLines(Take(alerts, 10))) else None
  }

  /** The workbook's alert sheet: absent without alerts, else every alert. */
  function ExcelAlerts(alerts: seq<ReportAlert>): Option<seq<AlertLine>> {
    if |alerts| > 0 then Some(AlertLines(alerts)) else None
  }

  /** The sheets of the workbook, in order. */
  function Sheets(alerts: seq<ReportAlert>): (r: seq<string>)
    ensures |r| >= 3 && r[..3] == ["KPIs", "Production", "Temps d'Arrêt"]
    ensures "Alertes" in r <==> alerts != []
  {
    ["KPIs", "Production", "Temps d'Arrêt"] + (if |alerts| > 0 then ["Alertes"] else [])
  }

  /** The status column of the KPI table: the TRS status, then '-' three
      times. */
  function KpiStatuses(trsStatus: Option<string>): seq<string> {
    [StatusLabel(trsStatus), "-", "-", "-"]
  }

  /** `rapport_<type>_<stamp>.<extension>` */
  function FileName(kind: string, stamp: string, extension: string): (r: string)
    ensures |r| > 8 + |extension| && r[..8] == "rapport_"
    ensures r[|r| - |extension| - 1..] == "." + extension
  {
    "rapport_" + kind + "_" + stamp + "." + extension
  }

  // ------------------------------------------------------------ properties

  /** The PDF lists at most the first ten alerts, the workbook all of them,
      and both leave the section out exactly when there is no alert. */
  lemma AlertSelection(alerts: seq<ReportAlert>)
    ensures PdfAlerts(alerts).None? <==> alerts == []
    ensures ExcelAlerts(alerts).None? <==> alerts == []
    ensures alerts != [] ==>
      |PdfAlerts(alerts).value| == (if |alerts| < 10 then |alerts| else 10)
      && |ExcelAlerts(alerts).value| == |alerts|
      && (forall i :: 0 <= i < |PdfAlerts(alerts).value| ==> PdfAlerts(alerts).value[i] == ExcelAlerts(alerts).value[i])
    ensures (alerts != []) <==> "Alertes" in Sheets(alerts)
  {
  }

  /** Only the first underscore becomes a space: every later one stays. */
  lemma LaterUnderscoresKept(s: string, j: int)
    requires 0 <= j < |s| && s[j] == '_' && '_' in s[..j]
    ensures ReplaceFirstUnderscore(s)[j] == '_'
  {
    var r := ReplaceFirstUnderscore(s);
    var i :| 0 <= i < |s| && s[i] == '_' && '_' !in s[..i] && r == s[..i] + " " + s[i + 1..];
    var k :| 0 <= k < j && s[k] == '_';
    assert forall m :: 0 <= m < i ==> s[..i][m] != '_';
    assert r[j] == s[j];
  }

  /** Relabelling is a fixed point on unknown report types only. */
  lemma ReportTypeNameKnown(kind: string)
    ensures ReportTypeName(kind) == kind <==> kind !in {"production", "trs", "downtime", "quality", "shift"}
  {
  }
}
