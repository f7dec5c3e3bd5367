/** The change matrix: one row per metric, one cell per segment, each cell
    holding the current value's risk class, a trend icon, and the change
    as text (absolute or percentage). */
module ChangeMatrix {
  import opened Types
  import opened Thresholds
  import opened Compute
  import opened SegmentMap
  import opened SegmentBarChart

  datatype Metric = StenosisMetric | BurdenMetric | HrpMetric | LrncMetric | NcpMetric | CpMetric

  /** `METRICS`, the row order. */
  const Metrics: seq<Metric> := [StenosisMetric, BurdenMetric, HrpMetric, LrncMetric, NcpMetric, CpMetric]

  /** The no-change tolerance shared by the matrix and the serial chart. */
  const Epsilon: real := 0.000001

  function Abs(x: real): (a: real)
    ensures a >= 0.0 && (a == x || a == -x)
  {
    if x < 0.0 then -x else x
  }

  /** `getValue`: a missing segment reads as 0; HRP reads the feature count. */
  function GetValue(metric: Metric, segment: Option<Segment>): (v: real)
    ensures segment.None? ==> v == 0.0
    ensures segment.Some? && metric == HrpMetric ==> v == |segment.value.hrp| as real && v >= 0.0
  {
    if segment.None? then 0.0
    else
      var s := segment.value;
      match metric
      case StenosisMetric => s.stenosis_pct
      case BurdenMetric => s.pav_pct
      case HrpMetric => |s.hrp| as real
      case LrncMetric => s.lrnc_mm3
      case NcpMetric => s.ncp_mm3
      case CpMetric => s.cp_mm3
  }

  /** The bar chart key that shows the same metric. */
  /** The bar chart's key of a metric: each metric has its own configured key. */
  function MetricKey(metric: Metric): (k: ConfigKey)
    ensures ChartConfigFor(k).Some? && k != ModeKey(CompositionMode)
    ensures metric == HrpMetric <==> k == ModeKey(HrpMode)
    ensures metric == StenosisMetric <==> k == ModeKey(StenosisMode)
  {
    match metric
    case StenosisMetric => ModeKey(StenosisMode)
    case BurdenMetric => ModeKey(BurdenMode)
    case HrpMetric => ModeKey(HrpMode)
    case LrncMetric => SubModeKey(LRNC_Volume)
    case NcpMetric => SubModeKey(NCP_Volume)
    case CpMetric => SubModeKey(CP_Volume)
  }

  /** The matrix reads exactly the value the bar chart draws for the same
      metric, missing segments included. */
  lemma GetValueMatchesBarValue(metric: Metric, segment: Option<Segment>, fmt: Formatter, hrpColor: HrpClassifier)
    ensures GetValue(metric, segment) == GetBarInfo(MetricKey(metric), segment, fmt, hrpColor).value
  {
  }

  /** The colour variable `getAbsoluteRiskClass` looks up for a metric. */
  function MetricColor(metric: Metric, value: real, hrpColor: HrpClassifier): RiskColor
  {
    match metric
    case StenosisMetric => GetStenosisColor(value)
    case BurdenMetric => GetPavColor(value)
    case HrpMetric => hrpColor(value)
    case LrncMetric => GetLrncVolumeColor(value)
    case NcpMetric => GetNcpVolumeColor(value)
    case CpMetric => GetCpVolumeColor(value)
  }

  datatype RiskClass = RiskSevere | RiskModerate | RiskMild | RiskMinimal | RiskNone

  /** `getAbsoluteRiskClass`: red, orange, yellow and green map to the four
      risk classes; dark green and anything else to none. */
  function GetAbsoluteRiskClass(metric: Metric, value: real, hrpColor: HrpClassifier): (c: RiskClass)
    ensures c == RiskSevere <==> MetricColor(metric, value, hrpColor) == Red
    ensures c == RiskModerate <==> MetricColor(metric, value, hrpColor) == Orange
    ensures c == RiskMild <==> MetricColor(metric, value, hrpColor) == Yellow
    ensures c == RiskMinimal <==> MetricColor(metric, value, hrpColor) == Green
    ensures c == RiskNone <==> MetricColor(metric, value, hrpColor) in {DarkGreen, NeutralGray}
  {
    match MetricColor(metric, value, hrpColor)
    case Red => RiskSevere
    case Orange => RiskModerate
    case Yellow => RiskMild
    case Green => RiskMinimal
    case _ => RiskNone
  }

  /** The stenosis row's classes by value. */
  lemma StenosisRiskClasses(value: real, hrpColor: HrpClassifier)
    ensures GetAbsoluteRiskClass(StenosisMetric, value, hrpColor) == RiskSevere <==> value >= 70.0
    ensures GetAbsoluteRiskClass(StenosisMetric, value, hrpColor) == RiskNone <==> value == 0.0
  {
  }

  datatype Icon = Stable | Worsened | Improved {
    function Flip(): Icon
    {
      match this
      case Stable => Stable
      case Worsened => Improved
      case Improved => Worsened
    }
  }

  /** `getRelativeChangeIcon`. */
  function GetRelativeChangeIcon(change: real): (i: Icon)
    ensures i == Stable <==> Abs(change) < Epsilon
    ensures i == Worsened <==> change >= Epsilon
    ensures i == Improved <==> change <= -Epsilon
  {
    if Abs(change) < Epsilon then Stable
    else if change > 0.0 then Worsened
    else Improved
  }

  /** Swapping prior and current negates the change: worsened and improved
      trade places and stable stays stable. */
  lemma IconSwap(prior: real, current: real)
    ensures GetRelativeChangeIcon(prior - current) == GetRelativeChangeIcon(current - prior).Flip()
  {
  }

  datatype DisplayMode = Absolute | Percentage

  /** Stenosis and HRP changes are shown without decimals, the rest with one. */
  function Decimals(metric: Metric): (d: nat)
    ensures d <= 1
    ensures d == 0 <==> metric == StenosisMetric || metric == HrpMetric
  {
    if metric == StenosisMetric || metric == HrpMetric then 0 else 1
  }

  /** A cell's `valueText`. */
  function ValueText(metric: Metric, mode: DisplayMode, prior: real, current: real, fmt: Formatter): (s: string)
    ensures Abs(current - prior) < Epsilon ==> s == ""
    ensures Abs(current - prior) >= Epsilon && (mode == Absolute || metric == HrpMetric) ==>
              s == SignedText(current - prior, Decimals(metric), fmt)
    ensures Abs(current - prior) >= Epsilon && mode == Percentage && metric != HrpMetric && prior == 0.0 ==>
              s == "New"
    ensures Abs(current - prior) >= Epsilon && mode == Percentage && metric != HrpMetric && prior != 0.0 ==>
              s == SignedText((current - prior) / prior * 100.0, 0, fmt) + "%"
  {
    var absoluteChange := current - prior;
    if Abs(absoluteChange) < Epsilon then ""
    else if mode == Absolute || metric == HrpMetric then SignedText(absoluteChange, Decimals(metric), fmt)
    else if prior == 0.0 then "New"
    else SignedText(absoluteChange / prior * 100.0, 0, fmt) + "%"
  }

  /** With a formatter that never returns "" the text is empty exactly when
      there is no change; a zero prior and zero current give no text. */
  lemma ValueTextEmptyIffNoChange(metric: Metric, mode: DisplayMode, prior: real, current: real, fmt: Formatter)
    requires PlainFormatter(fmt)
    ensures ValueText(metric, mode, prior, current, fmt) == "" <==> Abs(current - prior) < Epsilon
    ensures prior == 0.0 && current == 0.0 ==> ValueText(metric, mode, prior, current, fmt) == ""
  {
  }

  /** A percentage over a positive prior has the sign of the change. */
  lemma PercentSignFollowsChange(metric: Metric, prior: real, current: real, fmt: Formatter)
    requires PlainFormatter(fmt)
    requires prior > 0.0 && metric != HrpMetric && Abs(current - prior) >= Epsilon
    ensures var s := ValueText(metric, Percentage, prior, current, fmt);
            |s| > 1 && (s[0] == '+' <==> current > prior) && s[|s| - 1] == '%'
  {
    var change := current - prior;
    var q := change / prior;
    assert q * prior == change;
    assert change > 0.0 <==> q > 0.0;
  }

  /** The absolute text, and the HRP text in either mode, carries a `+`
      exactly for an increase. */
  lemma AbsoluteSignFollowsChange(metric: Metric, mode: DisplayMode, prior: real, current: real, fmt: Formatter)
    requires PlainFormatter(fmt)
    requires mode == Absolute || metric == HrpMetric
    requires Abs(current - prior) >= Epsilon
    ensures var s := ValueText(metric, mode, prior, current, fmt);
            |s| > 0 && (s[0] == '+' <==> current > prior)
  {
  }

  /** The cell's text built as the component builds it, by reassigning a
      variable across branches. */
  method CellValueText(metric: Metric, displayMode: DisplayMode, priorValue: real, currentValue: real, fmt: Formatter)
    returns (valueText: string)
    ensures valueText == ValueText(metric, displayMode, priorValue, currentValue, fmt)
  {
    var absoluteChange := currentValue - priorValue;
    valueText := "";
    var noChange := Abs(absoluteChange) < Epsilon;
    if !noChange {
      if displayMode == Absolute || metric == HrpMetric {
        var sign := if absoluteChange > 0.0 then "+" else "";
        valueText := sign + FormatNumber(Some(absoluteChange), Decimals(metric), fmt);
      } else {
        if priorValue == 0.0 {
          valueText := "New";
        } else {
          var percentageChange := (absoluteChange / priorValue) * 100.0;
          var sign := if percentageChange > 0.0 then "+" else "";
          valueText := sign + FormatNumber(Some(percentageChange), 0, fmt) + "%";
        }
      }
    }
  }

  datatype Cell = Cell(riskClass: RiskClass, icon: Icon, valueText: string)

  function Lookup(index: map<int, Segment>, segId: int): Option<Segment>
  {
    if segId in index then Some(index[segId]) else None
  }

  /** One cell: its background follows the current value only. */
  function MatrixCell(metric: Metric, segId: int, currentSegments: map<int, Segment>, priorSegments: map<int, Segment>,
                      mode: DisplayMode, fmt: Formatter, hrpColor: HrpClassifier): (c: Cell)
    ensures c.riskClass == GetAbsoluteRiskClass(metric, GetValue(metric, Lookup(currentSegments, segId)), hrpColor)
    ensures c.icon == GetRelativeChangeIcon(GetValue(metric, Lookup(currentSegments, segId)) - GetValue(metric, Lookup(priorSegments, segId)))
    ensures c.valueText == ValueText(metric, mode, GetValue(metric, Lookup(priorSegments, segId)),
                                     GetValue(metric, Lookup(currentSegments, segId)), fmt)
  {
    var currentValue := GetValue(metric, Lookup(currentSegments, segId));
    var priorValue := GetValue(metric, Lookup(priorSegments, segId));
    Cell(GetAbsoluteRiskClass(metric, currentValue, hrpColor),
         GetRelativeChangeIcon(currentValue - priorValue),
         ValueText(metric, mode, priorValue, currentValue, fmt))
  }

  /** The icon and the text agree: a stable icon exactly when the text is
      empty (for a formatter that never returns ""). */
  lemma IconAgreesWithText(metric: Metric, segId: int, currentSegments: map<int, Segment>, priorSegments: map<int, Segment>,
                           mode: DisplayMode, fmt: Formatter, hrpColor: HrpClassifier)
    requires PlainFormatter(fmt)
    ensures var c := MatrixCell(metric, segId, currentSegments, priorSegments, mode, fmt, hrpColor);
            c.icon == Stable <==> c.valueText == ""
  {
    var currentValue := GetValue(metric, Lookup(currentSegments, segId));
    var priorValue := GetValue(metric, Lookup(priorSegments, segId));
    ValueTextEmptyIffNoChange(metric, mode, priorValue, currentValue, fmt);
  }

  /** The matrix: for each metric (rows, in `Metrics` order) and each
      segment (columns, in `SegmentOrder`), the cell built from the LAST
      segment of each report carrying that id. */
  method BuildMatrix(current: seq<Vessel>, prior: seq<Vessel>, mode: DisplayMode, fmt: Formatter, hrpColor: HrpClassifier)
    returns (rows: seq<seq<Cell>>)
    ensures |rows| == |Metrics|
    ensures forall i :: 0 <= i < |rows| ==> |rows[i]| == |SegmentOrder|
    ensures forall i, j :: 0 <= i < |rows| && 0 <= j < |SegmentOrder| ==>
              rows[i][j] == MatrixCell(Metrics[i], SegmentOrder[j], IndexById(AllSegments(current)),
                                       IndexById(AllSegments(prior)), mode, fmt, hrpColor)
  {
    var currentSegments := IndexById(AllSegments(current));
    var priorSegments := IndexById(AllSegments(prior));
    rows := [];
    var i := 0;
    while i < |Metrics|
      invariant 0 <= i <= |Metrics| && |rows| == i
      invariant forall r :: 0 <= r < i ==> |rows[r]| == |SegmentOrder|
      invariant forall r, j :: 0 <= r < i && 0 <= j < |SegmentOrder| ==>
                  rows[r][j] == MatrixCell(Metrics[r], SegmentOrder[j], currentSegments, priorSegments, mode, fmt, hrpColor)
    {
      var row := BuildRow(Metrics[i], currentSegments, priorSegments, mode, fmt, hrpColor);
      rows := rows + [row];
      i := i + 1;
    }
  }

  /** One row of the matrix: the cells of one metric along the segment order. */
  method BuildRow(metric: Metric, currentSegments: map<int, Segment>, priorSegments: map<int, Segment>,
                  mode: DisplayMode, fmt: Formatter, hrpColor: HrpClassifier)
    returns (row: seq<Cell>)
    ensures |row| == |SegmentOrder|
    ensures forall k :: 0 <= k < |SegmentOrder| ==>
              row[k] == MatrixCell(metric, SegmentOrder[k], currentSegments, priorSegments, mode, fmt, hrpColor)
  {
    row := [];
    var j := 0;
    while j < |SegmentOrder|
      invariant 0 <= j <= |SegmentOrder| && |row| == j
      invariant forall k :: 0 <= k < j ==>
                  row[k] == MatrixCell(metric, SegmentOrder[k], currentSegments, priorSegments, mode, fmt, hrpColor)
    {
      var segId := SegmentOrder[j];
      var currentValue := GetValue(metric, Lookup(currentSegments, segId));
      var priorValue := GetValue(metric, Lookup(priorSegments, segId));
      var backgroundClass := GetAbsoluteRiskClass(metric, currentValue, hrpColor);
      var icon := GetRelativeChangeIcon(currentValue - priorValue);
      var valueText := CellValueText(metric, mode, priorValue, currentValue, fmt);
      row := row + [Cell(backgroundClass, icon, valueText)];
      j := j + 1;
    }
  }

  /** The matrix's `displayMode` state, absolute at first. */
  class MatrixView {
    var displayMode: DisplayMode

    constructor ()
      ensures displayMode == Absolute
    {
      displayMode := Absolute;
    }

    method SetDisplayMode(m: DisplayMode)
      modifies this
      ensures displayMode == m
    {
      displayMode := m;
    }
  }
}
