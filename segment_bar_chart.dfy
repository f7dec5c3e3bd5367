/** The per-segment bar chart: segment order, per-mode chart configuration,
    the value, colour and label of each bar, bar heights, the axis labels,
    and the chart's mode and sub-mode toggles. */
module SegmentBarChart {
  import opened Types
  import opened Thresholds
  import opened Compute
  import opened Strings
  import opened SegmentMap

  /** The x-axis order of the 18 segments (declared identically by the bar
      chart, the serial comparison chart and the change matrix). */
  const SegmentOrder: seq<int> := [5, 11, 13, 15, 18, 12, 14, 6, 7, 9, 10, 8, 1, 2, 3, 4, 16, 17]

  const SegmentNames: map<int, string> := map[
    5 := "LM", 11 := "pLCx", 13 := "dLCx", 15 := "L-PDA", 18 := "Ramus", 12 := "OM1", 14 := "OM2",
    6 := "pLAD", 7 := "mLAD", 9 := "D1", 10 := "D2", 8 := "dLAD", 1 := "pRCA", 2 := "mRCA",
    3 := "dRCA", 4 := "R-PDA", 16 := "R-PLB", 17 := "L-PLB"]

  /** The order lists each of the segments 1..18 exactly once, and each has a name. */
  lemma SegmentOrderIsPermutation()
    ensures |SegmentOrder| == 18
    ensures forall i, j :: 0 <= i < j < |SegmentOrder| ==> SegmentOrder[i] != SegmentOrder[j]
    ensures forall id :: id in SegmentOrder <==> 1 <= id <= 18
    ensures SegmentNames.Keys == set id | id in SegmentOrder
  {
  }

  // ---------------------------------------------------------------------
  // Configuration

  /** The key of `CHART_CONFIG`: a mode, or a composition sub-mode. */
  datatype ConfigKey = ModeKey(mode: ChartMode) | SubModeKey(sub: PlaqueVolumeMode)

  /** `configKey`: the sub-mode when the mode is Composition and a sub-mode
      is set, otherwise the mode. */
  function ConfigKeyFor(mode: ChartMode, sub: Option<PlaqueVolumeMode>): (k: ConfigKey)
    ensures mode == CompositionMode && sub.Some? ==> k == SubModeKey(sub.value)
    ensures !(mode == CompositionMode && sub.Some?) ==> k == ModeKey(mode)
  {
    if mode == CompositionMode && sub.Some? then SubModeKey(sub.value) else ModeKey(mode)
  }

  datatype Threshold = Threshold(value: nat, caption: string)
  datatype ChartConfig = ChartConfig(title: string, max: nat, unit: string, thresholds: seq<Threshold>)

  const MilliCubic: string := " mm\U{00B3}"

  /** `CHART_CONFIG`; the TPV and PAV sub-modes have no entry. Every
      configured threshold lies strictly between 0 and the axis maximum. */
  function ChartConfigFor(k: ConfigKey): (c: Option<ChartConfig>)
    ensures c.None? <==> k == SubModeKey(TPV) || k == SubModeKey(PAV)
    ensures c.Some? ==> c.value.max > 0
    ensures c.Some? ==> forall t :: t in c.value.thresholds ==> 0 < t.value < c.value.max
  {
    match k
    case ModeKey(StenosisMode) =>
      Some(ChartConfig("Stenosis (%)", 100, "%",
        [Threshold(25, "Mild"), Threshold(50, "Moderate"), Threshold(70, "Severe")]))
    case ModeKey(BurdenMode) =>
      Some(ChartConfig("Plaque Burden (PAV %)", 40, "%",
        [Threshold(5, "Mild"), Threshold(15, "Moderate")]))
    case ModeKey(HrpMode) =>
      Some(ChartConfig("High-Risk Plaque Features", 2, "", [Threshold(1, "1 Feature")]))
    case SubModeKey(LRNC_Volume) =>
      Some(ChartConfig("LRNC Volume (mm\U{00B3})", 40, MilliCubic,
        [Threshold(5, "Moderate"), Threshold(15, "High"), Threshold(30, "Very High")]))
    case SubModeKey(NCP_Volume) =>
      Some(ChartConfig("NCP Volume (mm\U{00B3})", 120, MilliCubic,
        [Threshold(20, "Moderate"), Threshold(50, "High"), Threshold(100, "Very High")]))
    case SubModeKey(CP_Volume) =>
      Some(ChartConfig("CP Volume (mm\U{00B3})", 350, MilliCubic,
        [Threshold(50, "Moderate"), Threshold(150, "High"), Threshold(300, "Very High")]))
    case ModeKey(CompositionMode) =>
      Some(ChartConfig("Dominant Plaque Type", 1, "", []))
    case SubModeKey(_) => None
  }

  /** Every state the mode buttons can reach has a chart configuration. */
  lemma ConsistentModesHaveConfig(mode: ChartMode, sub: Option<PlaqueVolumeMode>)
    requires ModesConsistent(mode, sub)
    ensures ChartConfigFor(ConfigKeyFor(mode, sub)).Some?
  {
  }

  // ---------------------------------------------------------------------
  // Bars

  datatype BarInfo = BarInfo(value: real, color: ColorVar, caption: string)

  /** The bar of a segment the report does not have, and of an unmatched key. */
  const NoPlaqueInfo: BarInfo := BarInfo(0.0, RiskVar(NeutralGray), "0")

  /** `segment.hrp.join(', ') || '0'`. */
  function HrpLabel(hrp: seq<HRPFeature>): (s: string)
    ensures hrp == [] ==> s == "0"
    ensures hrp != [] ==> |s| >= 2 && s == Join(FeatureNames(hrp), ", ")
  {
    var joined := Join(FeatureNames(hrp), ", ");
    if joined == "" then "0" else joined
  }

  /** The features' names, in order. */
  function FeatureNames(hrp: seq<HRPFeature>): (names: seq<string>)
    ensures |names| == |hrp|
    ensures forall i :: 0 <= i < |hrp| ==> names[i] == hrp[i].Name() && names[i] != ""
  {
    seq(|hrp|, i requires 0 <= i < |hrp| => hrp[i].Name())
  }

  /** `getBarInfo`: value, colour and label of a segment's bar under a key.
      The colour is always the classifier's colour of the bar's value. */
  function GetBarInfo(key: ConfigKey, segment: Option<Segment>, fmt: Formatter, hrpColor: HrpClassifier): (b: BarInfo)
    ensures segment.None? ==> b == NoPlaqueInfo
    ensures key == SubModeKey(TPV) || key == SubModeKey(PAV) ==> b == NoPlaqueInfo
    ensures segment.Some? && key == ModeKey(StenosisMode) ==>
              b.value == segment.value.stenosis_pct && b.color == RiskVar(GetStenosisColor(b.value))
              && b.caption == FormatNumber(Some(b.value), 0, fmt)
    ensures segment.Some? && key == ModeKey(BurdenMode) ==>
              b.value == segment.value.pav_pct && b.color == RiskVar(GetPavColor(b.value))
              && b.caption == FormatNumber(Some(b.value), 1, fmt)
    ensures segment.Some? && key == ModeKey(HrpMode) ==>
              b.value == |segment.value.hrp| as real && b.color == RiskVar(hrpColor(b.value))
              && b.caption == HrpLabel(segment.value.hrp)
    ensures segment.Some? && key == SubModeKey(LRNC_Volume) ==>
              b.value == segment.value.lrnc_mm3 && b.color == RiskVar(GetLrncVolumeColor(b.value))
              && b.caption == FormatNumber(Some(b.value), 1, fmt)
    ensures segment.Some? && key == SubModeKey(NCP_Volume) ==>
              b.value == segment.value.ncp_mm3 && b.color == RiskVar(GetNcpVolumeColor(b.value))
              && b.caption == FormatNumber(Some(b.value), 1, fmt)
    ensures segment.Some? && key == SubModeKey(CP_Volume) ==>
              b.value == segment.value.cp_mm3 && b.color == RiskVar(GetCpVolumeColor(b.value))
              && b.caption == FormatNumber(Some(b.value), 1, fmt)
    ensures segment.Some? && key == ModeKey(CompositionMode) ==>
              var s := segment.value;
              var hasPlaque := s.ncp_mm3 > 0.0 || s.cp_mm3 > 0.0;
              && (b.value == 1.0 <==> hasPlaque) && (b.value == 0.0 <==> !hasPlaque)
              && (b.caption == "NCP" <==> hasPlaque && s.ncp_mm3 >= s.cp_mm3)
              && (b.caption == "CP" <==> hasPlaque && s.ncp_mm3 < s.cp_mm3)
              && (b.caption == "" <==> !hasPlaque)
              && b.color == CompositionVar(GetCompositionColor(s.ncp_mm3, s.cp_mm3))
  {
    if segment.None? then NoPlaqueInfo
    else
      var s := segment.value;
      match key
      case ModeKey(StenosisMode) =>
        BarInfo(s.stenosis_pct, RiskVar(GetStenosisColor(s.stenosis_pct)), FormatNumber(Some(s.stenosis_pct), 0, fmt))
      case ModeKey(BurdenMode) =>
        BarInfo(s.pav_pct, RiskVar(GetPavColor(s.pav_pct)), FormatNumber(Some(s.pav_pct), 1, fmt))
      case ModeKey(HrpMode) =>
        BarInfo(|s.hrp| as real, RiskVar(hrpColor(|s.hrp| as real)), HrpLabel(s.hrp))
      case SubModeKey(LRNC_Volume) =>
        BarInfo(s.lrnc_mm3, RiskVar(GetLrncVolumeColor(s.lrnc_mm3)), FormatNumber(Some(s.lrnc_mm3), 1, fmt))
      case SubModeKey(NCP_Volume) =>
        BarInfo(s.ncp_mm3, RiskVar(GetNcpVolumeColor(s.ncp_mm3)), FormatNumber(Some(s.ncp_mm3), 1, fmt))
      case SubModeKey(CP_Volume) =>
        BarInfo(s.cp_mm3, RiskVar(GetCpVolumeColor(s.cp_mm3)), FormatNumber(Some(s.cp_mm3), 1, fmt))
      case ModeKey(CompositionMode) =>
        var hasPlaque := s.ncp_mm3 > 0.0 || s.cp_mm3 > 0.0;
        BarInfo(
          if hasPlaque then 1.0 else 0.0,
          CompositionVar(GetCompositionColor(s.ncp_mm3, s.cp_mm3)),
          if hasPlaque then (if s.ncp_mm3 >= s.cp_mm3 then "NCP" else "CP") else "")
      case _ => NoPlaqueInfo
  }

  /** With non-negative volumes the composition bar agrees with the dominant
      composition colour: a bar of height 1 exactly when the colour is not
      gray, and the label names the colour's plaque type. */
  lemma CompositionBarMatchesColor(s: Segment, fmt: Formatter, hrpColor: HrpClassifier)
    requires s.ncp_mm3 >= 0.0 && s.cp_mm3 >= 0.0
    ensures var b := GetBarInfo(ModeKey(CompositionMode), Some(s), fmt, hrpColor);
            && (b.value == 1.0 <==> b.color != CompositionVar(CompositionGray))
            && (b.caption == "NCP" <==> b.color == CompositionVar(NcpColor))
            && (b.caption == "CP" <==> b.color == CompositionVar(CpColor))
  {
  }

  /** The height of a bar, as a percentage of the axis: `min(100, v / max * 100)`
      with the HRP count first capped at the axis maximum. */
  function BarHeight(key: ConfigKey, value: real, max: nat): (h: real)
    requires max > 0
    ensures h <= 100.0
    ensures value >= 0.0 ==> h >= 0.0
    ensures value >= max as real ==> h == 100.0
    ensures value <= max as real ==> h == value / max as real * 100.0
  {
    var valueForHeight := if key == ModeKey(HrpMode) then Min(value, max as real) else value;
    var ratio := valueForHeight / max as real;
    assert ratio * max as real == valueForHeight;
    assert value >= max as real ==> ratio >= 1.0;
    Min(100.0, ratio * 100.0)
  }

  function Min(a: real, b: real): real { if a <= b then a else b }

  /** Capping the HRP count never changes a bar: the height is capped at 100
      anyway. */
  lemma HrpCapIsRedundant(value: real, max: nat)
    requires max > 0
    ensures BarHeight(ModeKey(HrpMode), value, max) == BarHeight(ModeKey(StenosisMode), value, max)
  {
  }

  // ---------------------------------------------------------------------
  // Axis

  /** The position of a threshold tick or grid line, in percent of the axis. */
  function TickPosition(t: Threshold, max: nat): (p: real)
    requires max > 0
    ensures 0 < t.value < max ==> 0.0 < p < 100.0
  {
    t.value as real / max as real * 100.0
  }

  /** Every configured tick and grid line falls strictly inside the axis. */
  lemma TicksInsideAxis(k: ConfigKey, t: Threshold)
    requires ChartConfigFor(k).Some? && t in ChartConfigFor(k).value.thresholds
    ensures 0.0 < TickPosition(t, ChartConfigFor(k).value.max) < 100.0
  {
  }

  const HrpMaxLabel: string := "\U{2265}2 Features"

  /** `maxLabel`: the custom HRP label, otherwise the maximum followed by the
      unit with its first space removed. */
  function MaxLabel(key: ConfigKey, config: ChartConfig): (s: string)
    ensures key == ModeKey(HrpMode) ==> s == HrpMaxLabel
    ensures key != ModeKey(HrpMode) ==> NatToString(config.max) <= s
  {
    if key == ModeKey(HrpMode) then HrpMaxLabel
    else NatToString(config.max) + RemoveFirst(config.unit, ' ')
  }

  /** Outside HRP the label is the maximum's digits followed by the unit,
      which loses one character when it has a space and is kept whole when
      it has none. */
  lemma MaxLabelShape(key: ConfigKey, config: ChartConfig)
    requires key != ModeKey(HrpMode)
    ensures var s := MaxLabel(key, config);
            var digits := NatToString(config.max);
            && |s| == |digits| + |config.unit| - (if ' ' in config.unit then 1 else 0)
            && s[..|digits|] == digits
            && (' ' !in config.unit ==> s == digits + config.unit)
  {
    RemoveFirstSpec(config.unit, ' ');
    var digits := NatToString(config.max);
    assert (digits + RemoveFirst(config.unit, ' '))[..|digits|] == digits;
  }

  /** The top-of-axis labels of the modes. */
  lemma ModeMaxLabels()
    ensures MaxLabel(ModeKey(HrpMode), ChartConfigFor(ModeKey(HrpMode)).value) == HrpMaxLabel
    ensures MaxLabel(ModeKey(StenosisMode), ChartConfigFor(ModeKey(StenosisMode)).value) == "100%"
    ensures MaxLabel(ModeKey(BurdenMode), ChartConfigFor(ModeKey(BurdenMode)).value) == "40%"
    ensures MaxLabel(ModeKey(CompositionMode), ChartConfigFor(ModeKey(CompositionMode)).value) == "1"
  {
    UnitsLoseFirstSpace();
    AxisMaxima();
    LabelOf(ModeKey(StenosisMode), "100", "%");
    LabelOf(ModeKey(BurdenMode), "40", "%");
    LabelOf(ModeKey(CompositionMode), "1", "");
    assert "100" + "%" == "100%" && "40" + "%" == "40%" && "1" + "" == "1";
  }

  /** The top-of-axis labels of the volume sub-modes: the unit loses its
      leading space. */
  lemma VolumeMaxLabels()
    ensures MaxLabel(SubModeKey(LRNC_Volume), ChartConfigFor(SubModeKey(LRNC_Volume)).value) == "40mm\U{00B3}"
    ensures MaxLabel(SubModeKey(NCP_Volume), ChartConfigFor(SubModeKey(NCP_Volume)).value) == "120mm\U{00B3}"
    ensures MaxLabel(SubModeKey(CP_Volume), ChartConfigFor(SubModeKey(CP_Volume)).value) == "350mm\U{00B3}"
  {
    LrncMaxLabel();
    NcpMaxLabel();
    CpMaxLabel();
  }

  lemma LrncMaxLabel()
    ensures MaxLabel(SubModeKey(LRNC_Volume), ChartConfigFor(SubModeKey(LRNC_Volume)).value) == "40mm\U{00B3}"
  {
    assert NatToString(40) == "40";
    VolumeLabel(LRNC_Volume, "40");
    assert "40" + "mm\U{00B3}" == "40mm\U{00B3}";
  }

  lemma NcpMaxLabel()
    ensures MaxLabel(SubModeKey(NCP_Volume), ChartConfigFor(SubModeKey(NCP_Volume)).value) == "120mm\U{00B3}"
  {
    Digits120();
    VolumeLabel(NCP_Volume, "120");
    assert "120" + "mm\U{00B3}" == "120mm\U{00B3}";
  }

  lemma CpMaxLabel()
    ensures MaxLabel(SubModeKey(CP_Volume), ChartConfigFor(SubModeKey(CP_Volume)).value) == "350mm\U{00B3}"
  {
    Digits350();
    VolumeLabel(CP_Volume, "350");
    assert "350" + "mm\U{00B3}" == "350mm\U{00B3}";
  }

  /** One volume sub-mode's label: its maximum's digits, then `mm³`. */
  lemma VolumeLabel(v: PlaqueVolumeMode, digits: string)
    requires v != TPV && v != PAV
    requires digits == NatToString(ChartConfigFor(SubModeKey(v)).value.max)
    ensures MaxLabel(SubModeKey(v), ChartConfigFor(SubModeKey(v)).value) == digits + "mm\U{00B3}"
  {
    UnitsLoseFirstSpace();
  }

  /** A configured key other than HRP labels its axis with the maximum's
      digits and the unit. */
  lemma LabelOf(k: ConfigKey, digits: string, unit: string)
    requires k != ModeKey(HrpMode) && ChartConfigFor(k).Some?
    requires NatToString(ChartConfigFor(k).value.max) == digits
    requires RemoveFirst(ChartConfigFor(k).value.unit, ' ') == unit
    ensures MaxLabel(k, ChartConfigFor(k).value) == digits + unit
  {
  }

  lemma UnitsLoseFirstSpace()
    ensures RemoveFirst(MilliCubic, ' ') == "mm\U{00B3}"
    ensures RemoveFirst("%", ' ') == "%" && RemoveFirst("", ' ') == ""
  {
  }

  lemma AxisMaxima()
    ensures NatToString(1) == "1" && NatToString(40) == "40"
    ensures NatToString(100) == "100" && NatToString(120) == "120" && NatToString(350) == "350"
  {
    Digits100();
    Digits120();
    Digits350();
  }

  lemma Digits100() ensures NatToString(100) == "100" { assert NatToString(10) == "10"; }
  lemma Digits120() ensures NatToString(120) == "120" { assert NatToString(12) == "12"; }
  lemma Digits350() ensures NatToString(350) == "350" { assert NatToString(35) == "35"; }

  // ---------------------------------------------------------------------
  // The chart

  datatype Bar = Bar(segId: int, caption: string, height: real, color: ColorVar)
  datatype Chart = Chart(title: string, ticks: seq<real>, maxLabel: string, bars: seq<Bar>)

  /** `ChartDisplay`: one bar per entry of the segment order, each built
      from the first segment of the report with that id. */
  function ChartDisplay(report: CctaReport, mode: ChartMode, sub: Option<PlaqueVolumeMode>,
                        fmt: Formatter, hrpColor: HrpClassifier): (c: Chart)
    requires ChartConfigFor(ConfigKeyFor(mode, sub)).Some?
    ensures |c.bars| == |SegmentOrder|
    ensures forall i :: 0 <= i < |c.bars| ==> c.bars[i].segId == SegmentOrder[i]
    ensures forall i :: 0 <= i < |c.bars| ==> c.bars[i].height <= 100.0
    ensures forall i :: 0 <= i < |c.ticks| ==> 0.0 < c.ticks[i] < 100.0
    ensures forall i :: 0 <= i < |c.bars| && FindSegment(AllSegments(report.vessels), SegmentOrder[i]).None? ==>
              c.bars[i] == Bar(SegmentOrder[i], "0", 0.0, RiskVar(NeutralGray))
    ensures ShowsConfig(c, ConfigKeyFor(mode, sub), ChartConfigFor(ConfigKeyFor(mode, sub)).value,
                        AllSegments(report.vessels), fmt, hrpColor)
  {
    var allSegments := AllSegments(report.vessels);
    var key := ConfigKeyFor(mode, sub);
    var config := ChartConfigFor(key).value;
    var ticks := seq(|config.thresholds|, i requires 0 <= i < |config.thresholds| => TickPosition(config.thresholds[i], config.max));
    var bars := seq(|SegmentOrder|, i requires 0 <= i < |SegmentOrder| => BarOf(key, config.max, allSegments, SegmentOrder[i], fmt, hrpColor));
    Chart(config.title, ticks, MaxLabel(key, config), bars)
  }

  /** A chart drawn from configuration `config` under `key`: its title and
      top label, one tick per threshold at the threshold's position, and
      the i-th bar built from the i-th id of the segment order. */
  predicate ShowsConfig(c: Chart, key: ConfigKey, config: ChartConfig, allSegments: seq<Segment>,
                        fmt: Formatter, hrpColor: HrpClassifier)
    requires config.max > 0
  {
    && c.title == config.title
    && c.maxLabel == MaxLabel(key, config)
    && |c.ticks| == |config.thresholds|
    && (forall i :: 0 <= i < |c.ticks| ==> c.ticks[i] == TickPosition(config.thresholds[i], config.max))
    && |c.bars| == |SegmentOrder|
    && (forall i :: 0 <= i < |c.bars| ==>
          c.bars[i] == BarOf(key, config.max, allSegments, SegmentOrder[i], fmt, hrpColor))
  }

  /** The bar of segment `segId`. */
  function BarOf(key: ConfigKey, max: nat, allSegments: seq<Segment>, segId: int,
                 fmt: Formatter, hrpColor: HrpClassifier): (bar: Bar)
    requires max > 0
    ensures bar.segId == segId && bar.height <= 100.0
    ensures FindSegment(allSegments, segId).None? ==> bar == Bar(segId, "0", 0.0, RiskVar(NeutralGray))
    ensures var info := GetBarInfo(key, FindSegment(allSegments, segId), fmt, hrpColor);
            bar.caption == info.caption && bar.color == info.color && bar.height == BarHeight(key, info.value, max)
  {
    var info := GetBarInfo(key, FindSegment(allSegments, segId), fmt, hrpColor);
    Bar(segId, info.caption, BarHeight(key, info.value, max), info.color)
  }

  // ---------------------------------------------------------------------
  // Mode and sub-mode toggles

  /** The bar chart's `mode` and `compositionSubMode` state. */
  class BarChartView {
    var mode: ChartMode
    var compositionSubMode: Option<PlaqueVolumeMode>

    ghost predicate Valid()
      reads this
    {
      ModesConsistent(mode, compositionSubMode)
    }

    constructor ()
      ensures Valid()
      ensures mode == StenosisMode && compositionSubMode == None
    {
      mode := StenosisMode;
      compositionSubMode := None;
    }

    /** A mode button: Composition keeps a sub-mode already chosen and falls
        back to LRNC only when there is none; any other mode clears it. */
    method SelectMode(m: ChartMode)
      requires Valid()
      modifies this
      ensures Valid()
      ensures mode == m
      ensures compositionSubMode ==
                if m != CompositionMode then None
                else if old(compositionSubMode).Some? then old(compositionSubMode)
                else Some(LRNC_Volume)
    {
      mode := m;
      if m != CompositionMode {
        compositionSubMode := None;
      } else {
        if compositionSubMode.None? {
          compositionSubMode := Some(LRNC_Volume);
        }
      }
    }

    /** A sub-mode button; these are shown only in Composition mode. */
    method SelectSubMode(sub: PlaqueVolumeMode)
      requires Valid() && mode == CompositionMode
      requires sub in {LRNC_Volume, NCP_Volume, CP_Volume}
      modifies this
      ensures Valid()
      ensures mode == old(mode) && compositionSubMode == Some(sub)
    {
      compositionSubMode := Some(sub);
    }

    /** The chart for the current state, which always has a configuration. */
    method Display(report: CctaReport, fmt: Formatter, hrpColor: HrpClassifier) returns (c: Chart)
      requires Valid()
      ensures ChartConfigFor(ConfigKeyFor(mode, compositionSubMode)).Some?
      ensures c == ChartDisplay(report, mode, compositionSubMode, fmt, hrpColor)
    {
      ConsistentModesHaveConfig(mode, compositionSubMode);
      c := ChartDisplay(report, mode, compositionSubMode, fmt, hrpColor);
    }
  }
}
