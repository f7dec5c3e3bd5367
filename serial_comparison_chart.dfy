/** The serial comparison chart: prior and current bars side by side for
    every displayed segment, the trend of each pair, and the change label. */
module SerialComparisonChart {
  import opened Types
  import opened Thresholds
  import opened Compute
  import opened SegmentMap
  import opened SegmentBarChart
  import opened ChangeMatrix

  // ---------------------------------------------------------------------
  // Vessel filter

  /** `VESSEL_SEGMENTS`: the segments of each coronary tree. */
  function VesselSegments(v: VesselId): (ids: seq<int>)
    requires v != WHOLE_HEART
    ensures |ids| >= 5
    ensures forall i :: 0 <= i < |ids| ==> 1 <= ids[i] <= 18
    ensures forall i, j :: 0 <= i < j < |ids| ==> ids[i] < ids[j]
  {
    match v
    case RCA => [1, 2, 3, 4, 16]
    case LM_LAD => [5, 6, 7, 8, 9, 10]
    case LCx => [11, 12, 13, 14, 15, 17, 18]
  }

  /** The three groups are pairwise disjoint and together cover 1..18. */
  lemma VesselGroupsPartition()
    ensures forall id :: id in VesselSegments(RCA) ==> id !in VesselSegments(LM_LAD) && id !in VesselSegments(LCx)
    ensures forall id :: id in VesselSegments(LM_LAD) ==> id !in VesselSegments(LCx)
    ensures forall id :: (1 <= id <= 18) <==>
              (id in VesselSegments(RCA) || id in VesselSegments(LM_LAD) || id in VesselSegments(LCx))
  {
  }

  datatype VesselFilter = WholeHeartFilter | RcaFilter | LmPlusLadFilter | LcxFilter

  /** The `VESSEL_SEGMENTS` key of a filter; `LM+LAD` is spelled `LM_LAD`. */
  function FilterKey(f: VesselFilter): (v: VesselId)
    requires f != WholeHeartFilter
    ensures v != WHOLE_HEART
  {
    match f
    case RcaFilter => RCA
    case LmPlusLadFilter => LM_LAD
    case LcxFilter => LCx
  }

  /** `a` can be obtained from `b` by deleting elements. */
  predicate IsSubsequence(a: seq<int>, b: seq<int>)
  {
    if a == [] then true
    else if b == [] then false
    else if a[0] == b[0] then IsSubsequence(a[1..], b[1..])
    else IsSubsequence(a, b[1..])
  }

  /** `order.filter(id => group.includes(id))`. */
  function FilterIds(order: seq<int>, group: seq<int>): (r: seq<int>)
    ensures forall id :: id in r <==> id in order && id in group
    ensures IsSubsequence(r, order)
  {
    if order == [] then []
    else if order[0] in group then [order[0]] + FilterIds(order[1..], group)
    else FilterIds(order[1..], group)
  }

  /** `displayedSegments`. */
  function DisplayedSegments(f: VesselFilter): (r: seq<int>)
    ensures f == WholeHeartFilter ==> r == SegmentOrder
    ensures f != WholeHeartFilter ==>
              IsSubsequence(r, SegmentOrder)
              && forall id :: id in r <==> id in SegmentOrder && id in VesselSegments(FilterKey(f))
  {
    if f == WholeHeartFilter then SegmentOrder
    else FilterIds(SegmentOrder, VesselSegments(FilterKey(f)))
  }

  /** Every segment of the order shows under exactly one vessel filter. */
  lemma {:induction false} FiltersPartitionOrder(id: int)
    requires id in SegmentOrder
    ensures id in DisplayedSegments(RcaFilter) || id in DisplayedSegments(LmPlusLadFilter) || id in DisplayedSegments(LcxFilter)
    ensures id in DisplayedSegments(RcaFilter) ==> id !in DisplayedSegments(LmPlusLadFilter) && id !in DisplayedSegments(LcxFilter)
    ensures id in DisplayedSegments(LmPlusLadFilter) ==> id !in DisplayedSegments(LcxFilter)
  {
    SegmentOrderIsPermutation();
    VesselGroupsPartition();
  }

  // ---------------------------------------------------------------------
  // Chart configuration and bar values

  datatype SerialConfig = SerialConfig(title: string, max: nat, unit: string)

  /** `configKey`: the sub-mode in Composition mode (absent when no sub-mode
      reaches the display), otherwise the mode. */
  function SerialConfigKey(mode: ChartMode, sub: Option<PlaqueVolumeMode>): (k: Option<ConfigKey>)
    ensures mode != CompositionMode ==> k == Some(ModeKey(mode))
    ensures mode == CompositionMode ==> (k.None? <==> sub.None?)
    ensures mode == CompositionMode && sub.Some? ==> k == Some(SubModeKey(sub.value))
  {
    if mode == CompositionMode then
      if sub.None? then None else Some(SubModeKey(sub.value))
    else Some(ModeKey(mode))
  }

  /** The serial chart's `CHART_CONFIG`; it has no entry for Composition,
      TPV or PAV. */
  function SerialConfigFor(key: Option<ConfigKey>): (c: Option<SerialConfig>)
    ensures c.None? <==> key.None? || key.value in {ModeKey(CompositionMode), SubModeKey(TPV), SubModeKey(PAV)}
    ensures c.Some? ==> c.value.max > 0
  {
    if key.None? then None
    else match key.value
      case ModeKey(StenosisMode) => Some(SerialConfig("Stenosis (%)", 100, "%"))
      case ModeKey(BurdenMode) => Some(SerialConfig("Plaque Burden (PAV %)", 40, "%"))
      case ModeKey(HrpMode) => Some(SerialConfig("High-Risk Plaque Features", 2, ""))
      case SubModeKey(LRNC_Volume) => Some(SerialConfig("LRNC Volume (mm\U{00B3})", 40, MilliCubic))
      case SubModeKey(NCP_Volume) => Some(SerialConfig("NCP Volume (mm\U{00B3})", 120, MilliCubic))
      case SubModeKey(CP_Volume) => Some(SerialConfig("CP Volume (mm\U{00B3})", 350, MilliCubic))
      case _ => None
  }

  /** Where both tables have an entry they agree on title, axis maximum and
      unit. */
  lemma SerialConfigAgreesWithBarChart(key: ConfigKey)
    requires SerialConfigFor(Some(key)).Some?
    ensures ChartConfigFor(key).Some?
    ensures SerialConfigFor(Some(key)).value.max == ChartConfigFor(key).value.max
    ensures SerialConfigFor(Some(key)).value.unit == ChartConfigFor(key).value.unit
    ensures SerialConfigFor(Some(key)).value.title == ChartConfigFor(key).value.title
  {
  }

  /** The serial chart's `getBarInfo`: the bar chart's rule for every key the
      serial table configures; the no-plaque default for the others. */
  function SerialBarInfo(key: ConfigKey, segment: Option<Segment>, fmt: Formatter, hrpColor: HrpClassifier): (b: BarInfo)
    ensures SerialConfigFor(Some(key)).Some? ==> b == GetBarInfo(key, segment, fmt, hrpColor)
    ensures SerialConfigFor(Some(key)).None? ==> b == NoPlaqueInfo
  {
    if segment.None? then NoPlaqueInfo
    else if key == ModeKey(CompositionMode) then NoPlaqueInfo
    else GetBarInfo(key, segment, fmt, hrpColor)
  }

  /** The serial bar of a metric reads the same value as the change matrix. */
  lemma SerialValueMatchesMatrix(metric: Metric, segment: Option<Segment>, fmt: Formatter, hrpColor: HrpClassifier)
    ensures SerialBarInfo(MetricKey(metric), segment, fmt, hrpColor).value == GetValue(metric, segment)
  {
    GetValueMatchesBarValue(metric, segment, fmt, hrpColor);
  }

  // ---------------------------------------------------------------------
  // Trend and change label

  datatype Trend = NoChange | Unfavourable | Favourable

  /** The background of a bar pair: no change within the tolerance, an
      increase beyond it is unfavourable for every metric, and anything else
      is favourable. */
  function ClassifyDelta(prior: real, current: real): (t: Trend)
    ensures t == NoChange <==> Abs(prior - current) < Epsilon
    ensures t == Unfavourable <==> current - prior > Epsilon
    ensures t == Favourable <==> current - prior <= -Epsilon || current - prior == Epsilon
  {
    var unfavourable := current > prior + Epsilon;
    var noChange := Abs(prior - current) < Epsilon;
    if noChange then NoChange else if unfavourable then Unfavourable else Favourable
  }

  /** Swapping prior and current swaps favourable and unfavourable beyond the
      tolerance and keeps no change; at a difference of exactly the tolerance
      both orders are favourable. */
  lemma TrendSwap(prior: real, current: real)
    ensures Abs(current - prior) > Epsilon ==>
              (ClassifyDelta(prior, current) == Unfavourable <==> ClassifyDelta(current, prior) == Favourable)
    ensures Abs(current - prior) < Epsilon ==> ClassifyDelta(prior, current) == ClassifyDelta(current, prior) == NoChange
    ensures Abs(current - prior) == Epsilon ==> ClassifyDelta(prior, current) == ClassifyDelta(current, prior) == Favourable
  {
  }

  /** The chart and the matrix agree on "no change"; they part ways only at
      an increase of exactly the tolerance, which the matrix shows as
      worsened and the chart as favourable. */
  lemma TrendAgreesWithIcon(prior: real, current: real)
    ensures ClassifyDelta(prior, current) == NoChange <==> GetRelativeChangeIcon(current - prior) == Stable
    ensures current - prior != Epsilon ==>
              (ClassifyDelta(prior, current) == Unfavourable <==> GetRelativeChangeIcon(current - prior) == Worsened)
    ensures current - prior == Epsilon ==>
              ClassifyDelta(prior, current) == Favourable && GetRelativeChangeIcon(current - prior) == Worsened
  {
  }

  /** `changeLabel`: nothing for HRP or no change, otherwise the signed change
      in parentheses, whole numbers for stenosis and one decimal otherwise. */
  function ChangeLabel(key: ConfigKey, prior: real, current: real, fmt: Formatter): (s: string)
    ensures s == "" <==> key == ModeKey(HrpMode) || Abs(prior - current) < Epsilon
    ensures s != "" ==> s[0] == '(' && s[|s| - 1] == ')'
    ensures s != "" && PlainFormatter(fmt) ==> |s| > 2 && (s[1] == '+' <==> current > prior)
  {
    var change := current - prior;
    if key != ModeKey(HrpMode) && !(Abs(prior - current) < Epsilon) then
      "(" + SignedText(change, if key == ModeKey(StenosisMode) then 0 else 1, fmt) + ")"
    else ""
  }

  /** Outside HRP the label is the change matrix's absolute text for the
      same metric, in parentheses. */
  lemma ChangeLabelMatchesMatrix(metric: Metric, prior: real, current: real, fmt: Formatter)
    requires metric != HrpMetric
    ensures var s := ChangeLabel(MetricKey(metric), prior, current, fmt);
            var t := ValueText(metric, Absolute, prior, current, fmt);
            (Abs(current - prior) < Epsilon ==> s == "" && t == "")
            && (Abs(current - prior) >= Epsilon ==> s == "(" + t + ")")
  {
    assert Abs(prior - current) == Abs(current - prior);
  }

  // ---------------------------------------------------------------------
  // Bar pairs

  /** `Math.min(100, value / max * 100)`. */
  function SerialHeight(value: real, max: nat): (h: real)
    requires max > 0
    ensures h <= 100.0
    ensures value >= 0.0 ==> h >= 0.0
    ensures value >= max as real ==> h == 100.0
  {
    var ratio := value / max as real;
    assert value >= max as real ==> ratio >= 1.0;
    Min(100.0, ratio * 100.0)
  }

  /** The serial chart does not cap the HRP count first, yet its heights are
      the bar chart's for every key. */
  lemma SerialHeightMatchesBarChart(key: ConfigKey, value: real, max: nat)
    requires max > 0
    ensures SerialHeight(value, max) == BarHeight(key, value, max)
  {
    HrpCapIsRedundant(value, max);
  }

  datatype BarPair = BarPair(
    segId: int, priorCaption: string, currentCaption: string, changeLabel: string, trend: Trend,
    priorHeight: real, currentHeight: real, priorColor: ColorVar, currentColor: ColorVar)

  function PairOf(key: ConfigKey, max: nat, priorSegments: seq<Segment>, currentSegments: seq<Segment>,
                  segId: int, fmt: Formatter, hrpColor: HrpClassifier): (p: BarPair)
    requires max > 0
    ensures p.segId == segId && p.priorHeight <= 100.0 && p.currentHeight <= 100.0
    ensures var pi := SerialBarInfo(key, FindSegment(priorSegments, segId), fmt, hrpColor);
            var ci := SerialBarInfo(key, FindSegment(currentSegments, segId), fmt, hrpColor);
            && p.trend == ClassifyDelta(pi.value, ci.value)
            && p.changeLabel == ChangeLabel(key, pi.value, ci.value, fmt)
            && p.priorCaption == pi.caption && p.currentCaption == ci.caption
            && p.priorColor == pi.color && p.currentColor == ci.color
            && p.priorHeight == SerialHeight(pi.value, max) && p.currentHeight == SerialHeight(ci.value, max)
  {
    var priorData := SerialBarInfo(key, FindSegment(priorSegments, segId), fmt, hrpColor);
    var currentData := SerialBarInfo(key, FindSegment(currentSegments, segId), fmt, hrpColor);
    BarPair(segId, priorData.caption, currentData.caption,
            ChangeLabel(key, priorData.value, currentData.value, fmt),
            ClassifyDelta(priorData.value, currentData.value),
            SerialHeight(priorData.value, max), SerialHeight(currentData.value, max),
            priorData.color, currentData.color)
  }

  /** Where the serial table has an entry, each side of a pair shows what
      the bar chart shows for the same segment of that report: the same
      caption, colour and height. */
  lemma PairSidesMatchBarChart(key: ConfigKey, max: nat, priorSegments: seq<Segment>, currentSegments: seq<Segment>,
                               segId: int, fmt: Formatter, hrpColor: HrpClassifier)
    requires max > 0 && SerialConfigFor(Some(key)).Some?
    ensures var p := PairOf(key, max, priorSegments, currentSegments, segId, fmt, hrpColor);
            var pb := BarOf(key, max, priorSegments, segId, fmt, hrpColor);
            var cb := BarOf(key, max, currentSegments, segId, fmt, hrpColor);
            && p.priorCaption == pb.caption && p.priorColor == pb.color && p.priorHeight == pb.height
            && p.currentCaption == cb.caption && p.currentColor == cb.color && p.currentHeight == cb.height
  {
    var pi := GetBarInfo(key, FindSegment(priorSegments, segId), fmt, hrpColor);
    var ci := GetBarInfo(key, FindSegment(currentSegments, segId), fmt, hrpColor);
    SerialHeightMatchesBarChart(key, pi.value, max);
    SerialHeightMatchesBarChart(key, ci.value, max);
  }

  /** A segment absent from both reports reads 0 on both sides: no change
      and an empty label. */
  lemma MissingOnBothSidesIsNoChange(key: ConfigKey, max: nat, priorSegments: seq<Segment>, currentSegments: seq<Segment>,
                                     segId: int, fmt: Formatter, hrpColor: HrpClassifier)
    requires max > 0
    requires FindSegment(priorSegments, segId).None? && FindSegment(currentSegments, segId).None?
    ensures var p := PairOf(key, max, priorSegments, currentSegments, segId, fmt, hrpColor);
            p.trend == NoChange && p.changeLabel == "" && p.priorHeight == 0.0 && p.currentHeight == 0.0
  {
  }

  datatype SerialDisplay = SelectCompositionType | Pairs(pairs: seq<BarPair>)

  /** `SerialChartDisplay`: the placeholder when the table has no entry for
      the key, otherwise one bar pair per displayed segment in order. */
  function SerialChartDisplay(current: CctaReport, prior: PriorReport, mode: ChartMode, sub: Option<PlaqueVolumeMode>,
                              filter: VesselFilter, fmt: Formatter, hrpColor: HrpClassifier): (d: SerialDisplay)
    ensures d == SelectCompositionType <==> SerialConfigFor(SerialConfigKey(mode, sub)).None?
    ensures d.Pairs? ==> |d.pairs| == |DisplayedSegments(filter)|
    ensures d.Pairs? ==> forall i :: 0 <= i < |d.pairs| ==>
              d.pairs[i].segId == DisplayedSegments(filter)[i]
              && d.pairs[i].priorHeight <= 100.0 && d.pairs[i].currentHeight <= 100.0
    ensures d.Pairs? ==>
              var key := SerialConfigKey(mode, sub).value;
              forall i :: 0 <= i < |d.pairs| ==>
                d.pairs[i] == PairOf(key, SerialConfigFor(Some(key)).value.max, AllSegments(prior.vessels),
                                     AllSegments(current.vessels), DisplayedSegments(filter)[i], fmt, hrpColor)
  {
    var key := SerialConfigKey(mode, sub);
    var config := SerialConfigFor(key);
    if config.None? then SelectCompositionType
    else
      var ids := DisplayedSegments(filter);
      var priorSegments := AllSegments(prior.vessels);
      var currentSegments := AllSegments(current.vessels);
      Pairs(seq(|ids|, i requires 0 <= i < |ids| =>
        PairOf(key.value, config.value.max, priorSegments, currentSegments, ids[i], fmt, hrpColor)))
  }

  /** `SerialComparisonChart`: nothing without a prior study; the display
      is always given the mode but never the sub-mode. */
  function SerialComparisonChart(report: CctaReport, mode: ChartMode, filter: VesselFilter,
                                 fmt: Formatter, hrpColor: HrpClassifier): (d: Option<SerialDisplay>)
    ensures d.None? <==> report.priorStudy.None?
    ensures d.Some? ==> d.value == SerialChartDisplay(report, report.priorStudy.value, mode, None, filter, fmt, hrpColor)
  {
    if report.priorStudy.None? then None
    else Some(SerialChartDisplay(report, report.priorStudy.value, mode, None, filter, fmt, hrpColor))
  }

  /** With a prior study, Composition mode always shows the placeholder and
      every other mode shows bars. */
  lemma CompositionAlwaysPlaceholder(report: CctaReport, mode: ChartMode, filter: VesselFilter,
                                     fmt: Formatter, hrpColor: HrpClassifier)
    requires report.priorStudy.Some?
    ensures SerialComparisonChart(report, mode, filter, fmt, hrpColor) == Some(SelectCompositionType)
            <==> mode == CompositionMode
  {
  }

  /** The chart as evidently intended: the display is also given the
      sub-mode, so the sub-mode buttons select the bars shown. */
  function SerialComparisonChartIntended(report: CctaReport, mode: ChartMode, sub: Option<PlaqueVolumeMode>,
                                         filter: VesselFilter, fmt: Formatter, hrpColor: HrpClassifier): (d: Option<SerialDisplay>)
    ensures d.None? <==> report.priorStudy.None?
    ensures d.Some? ==> d.value == SerialChartDisplay(report, report.priorStudy.value, mode, sub, filter, fmt, hrpColor)
  {
    if report.priorStudy.None? then None
    else Some(SerialChartDisplay(report, report.priorStudy.value, mode, sub, filter, fmt, hrpColor))
  }

  /** Passing the sub-mode, every state the buttons can reach shows bars,
      Composition included, and outside Composition nothing changes. */
  lemma IntendedChartShowsBars(report: CctaReport, mode: ChartMode, sub: Option<PlaqueVolumeMode>,
                               filter: VesselFilter, fmt: Formatter, hrpColor: HrpClassifier)
    requires report.priorStudy.Some? && ModesConsistent(mode, sub)
    ensures SerialComparisonChartIntended(report, mode, sub, filter, fmt, hrpColor).value.Pairs?
    ensures mode != CompositionMode ==>
              SerialComparisonChartIntended(report, mode, sub, filter, fmt, hrpColor)
              == SerialComparisonChart(report, mode, filter, fmt, hrpColor)
  {
  }

  // ---------------------------------------------------------------------
  // View state

  /** The chart's `mode`, `vesselFilter`, `compositionSubMode` and
      `showMatrix` state. */
  class SerialView {
    var mode: ChartMode
    var vesselFilter: VesselFilter
    var compositionSubMode: Option<PlaqueVolumeMode>
    var showMatrix: bool

    ghost predicate Valid()
      reads this
    {
      ModesConsistent(mode, compositionSubMode)
    }

    constructor ()
      ensures Valid()
      ensures mode == StenosisMode && vesselFilter == WholeHeartFilter
      ensures compositionSubMode == None && !showMatrix
    {
      mode := StenosisMode;
      vesselFilter := WholeHeartFilter;
      compositionSubMode := None;
      showMatrix := false;
    }

    /** A mode button: Composition keeps an existing sub-mode and otherwise
        starts at LRNC; every other mode clears the sub-mode. */
    method SelectMode(m: ChartMode)
      requires Valid()
      modifies this
      ensures Valid()
      ensures mode == m && vesselFilter == old(vesselFilter) && showMatrix == old(showMatrix)
      ensures compositionSubMode ==
                if m != CompositionMode then None
                else if old(compositionSubMode).Some? then old(compositionSubMode)
                else Some(LRNC_Volume)
    {
      mode := m;
      if m == CompositionMode {
        if compositionSubMode.None? {
          compositionSubMode := Some(LRNC_Volume);
        }
      } else {
        compositionSubMode := None;
      }
    }

    method SelectSubMode(sub: PlaqueVolumeMode)
      requires Valid() && mode == CompositionMode
      requires sub in {LRNC_Volume, NCP_Volume, CP_Volume}
      modifies this
      ensures Valid()
      ensures mode == old(mode) && vesselFilter == old(vesselFilter) && showMatrix == old(showMatrix)
      ensures compositionSubMode == Some(sub)
    {
      compositionSubMode := Some(sub);
    }

    method SelectVesselFilter(f: VesselFilter)
      requires Valid()
      modifies this
      ensures Valid()
      ensures vesselFilter == f
      ensures mode == old(mode) && compositionSubMode == old(compositionSubMode) && showMatrix == old(showMatrix)
    {
      vesselFilter := f;
    }

    /** The MATRIX button flips the matrix's visibility. */
    method ToggleMatrix()
      requires Valid()
      modifies this
      ensures Valid()
      ensures showMatrix == !old(showMatrix)
      ensures mode == old(mode) && compositionSubMode == old(compositionSubMode) && vesselFilter == old(vesselFilter)
    {
      showMatrix := !showMatrix;
    }

    /** What the chart shows for the current state, with the sub-mode
        passed on as intended: with a prior study there are always bars. */
    method Render(report: CctaReport, fmt: Formatter, hrpColor: HrpClassifier) returns (d: Option<SerialDisplay>)
      requires Valid()
      ensures d == SerialComparisonChartIntended(report, mode, compositionSubMode, vesselFilter, fmt, hrpColor)
      ensures d.None? <==> report.priorStudy.None?
      ensures d.Some? ==> d.value.Pairs?
    {
      if report.priorStudy.Some? {
        IntendedChartShowsBars(report, mode, compositionSubMode, vesselFilter, fmt, hrpColor);
      }
      d := SerialComparisonChartIntended(report, mode, compositionSubMode, vesselFilter, fmt, hrpColor);
    }
  }
}
