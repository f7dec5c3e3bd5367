/** The segment map panel: the atherosclerosis scoreboard, the four-bucket
    stenosis summary, and the map's mode and sub-mode toggles. */
module SegmentMap {
  import opened Types
  import opened Thresholds
  import opened Compute

  /** The display modes the components offer (declared identically in the
      segment map, the bar chart and the serial comparison chart). */
  datatype ChartMode = StenosisMode | HrpMode | CompositionMode | BurdenMode

  /** The text of a map mode, which the map hands to the anatomical diagram. */
  function MapModeText(m: ChartMode): (t: string)
    ensures t in {"Stenosis", "HRP", "Composition", "Burden"}
  {
    match m
    case StenosisMode => "Stenosis"
    case HrpMode => "HRP"
    case CompositionMode => "Composition"
    case BurdenMode => "Burden"
  }

  /** The state every view with a mode and a composition sub-mode keeps: a
      sub-mode is set exactly while the mode is Composition, and it is one of
      the three volume modes the sub-mode buttons offer. */
  predicate ModesConsistent(mode: ChartMode, sub: Option<PlaqueVolumeMode>)
  {
    && (sub.Some? <==> mode == CompositionMode)
    && (sub.Some? ==> sub.value in {LRNC_Volume, NCP_Volume, CP_Volume})
  }

  // ---------------------------------------------------------------------
  // Scoreboard

  /** `getTpvStage`, written out again by the scoreboard. */
  function GetTpvStage(tpv: real): (r: nat)
    ensures r == TpvStage(tpv)
  {
    if tpv == 0.0 then 0
    else if tpv <= 250.0 then 1
    else if tpv <= 750.0 then 2
    else 3
  }

  /** `riskColors`, indexed by stage. */
  const StageColors: seq<RiskColor> := [Green, Yellow, Orange, Red]

  /** The backgrounds of the four stage labels: only the label of the
      current stage is coloured (`Some`), the others keep the line colour. */
  function StageLabelBackgrounds(stage: nat): (bg: seq<Option<RiskColor>>)
    requires stage <= 3
    ensures |bg| == 4
    ensures forall i :: 0 <= i < 4 ==> (bg[i].Some? <==> i == stage)
    ensures bg[stage] == Some(StageColors[stage])
  {
    seq(4, i requires 0 <= i < 4 => if i == stage then Some(StageColors[i]) else None)
  }

  function CountHighlighted(bg: seq<Option<RiskColor>>): nat
  {
    if bg == [] then 0 else CountHighlighted(bg[..|bg| - 1]) + (if bg[|bg| - 1].Some? then 1 else 0)
  }

  lemma {:induction false} CountSingleHighlight(bg: seq<Option<RiskColor>>, k: nat)
    requires k < |bg|
    requires forall i :: 0 <= i < |bg| ==> (bg[i].Some? <==> i == k)
    ensures CountHighlighted(bg) == 1
  {
    if |bg| - 1 != k {
      CountSingleHighlight(bg[..|bg| - 1], k);
    } else {
      CountNoHighlight(bg[..|bg| - 1]);
    }
  }

  lemma {:induction false} CountNoHighlight(bg: seq<Option<RiskColor>>)
    requires forall i :: 0 <= i < |bg| ==> bg[i].None?
    ensures CountHighlighted(bg) == 0
  {
    if bg != [] {
      CountNoHighlight(bg[..|bg| - 1]);
    }
  }

  datatype Scoreboard = Scoreboard(
    finalStage: nat, headerColor: RiskColor,
    tpvLabels: seq<Option<RiskColor>>, pavLabels: seq<Option<RiskColor>>)

  /** `AtherosclerosisScore`: the final stage, its header colour, and the
      highlighted TPV and PAV labels. */
  function AtherosclerosisScore(global: GlobalMetrics): (s: Scoreboard)
    ensures s.finalStage == AtherosclerosisStage(global.tpv_mm3, global.pav_pct)
    ensures s.headerColor == StageColors[s.finalStage]
    ensures |s.tpvLabels| == 4 && |s.pavLabels| == 4
    ensures CountHighlighted(s.tpvLabels) == 1 && CountHighlighted(s.pavLabels) == 1
    ensures s.tpvLabels[TpvStage(global.tpv_mm3)].Some? && s.pavLabels[PavStage(global.pav_pct)].Some?
  {
    var finalStage := AtherosclerosisStage(global.tpv_mm3, global.pav_pct);
    var tpvStage := GetTpvStage(global.tpv_mm3);
    var pavS := PavStage(global.pav_pct);
    var tpvLabels := StageLabelBackgrounds(tpvStage);
    var pavLabels := StageLabelBackgrounds(pavS);
    CountSingleHighlight(tpvLabels, tpvStage);
    CountSingleHighlight(pavLabels, pavS);
    Scoreboard(finalStage, StageColors[finalStage], tpvLabels, pavLabels)
  }

  // ---------------------------------------------------------------------
  // Stenosis summary

  datatype Bucket = Severe | Moderate | Mild | Minimal | Unbucketed

  /** The bucket one segment increments, if any: the left main (segment 5)
      is severe from 50%, any segment from 70%; the other buckets have
      integer edges. */
  function StenosisBucket(stenosis: real, segId: int): (b: Bucket)
    ensures b == Severe <==> stenosis >= 70.0 || (segId == 5 && stenosis >= 50.0)
    ensures b == Moderate <==> segId != 5 && 50.0 <= stenosis <= 69.0
    ensures b == Mild <==> 25.0 <= stenosis <= 49.0
    ensures b == Minimal <==> 1.0 <= stenosis <= 24.0
  {
    var isLM := segId == 5;
    if stenosis >= 70.0 || (isLM && stenosis >= 50.0) then Severe
    else if stenosis >= 50.0 && stenosis <= 69.0 then Moderate
    else if stenosis >= 25.0 && stenosis <= 49.0 then Mild
    else if stenosis >= 1.0 && stenosis <= 24.0 then Minimal
    else Unbucketed
  }

  /** The number of segments that land in bucket `b`. */
  function CountBucket(segs: seq<Segment>, b: Bucket): (n: nat)
    ensures n <= |segs|
  {
    if segs == [] then 0
    else
      var last := segs[|segs| - 1];
      CountBucket(segs[..|segs| - 1], b) + (if StenosisBucket(last.stenosis_pct, last.segId) == b then 1 else 0)
  }

  /** No segment in the bucket counts none; all of them in it count all. */
  lemma {:induction false} CountBucketExtremes(segs: seq<Segment>, b: Bucket)
    ensures (forall i :: 0 <= i < |segs| ==> StenosisBucket(segs[i].stenosis_pct, segs[i].segId) != b) ==>
              CountBucket(segs, b) == 0
    ensures (forall i :: 0 <= i < |segs| ==> StenosisBucket(segs[i].stenosis_pct, segs[i].segId) == b) ==>
              CountBucket(segs, b) == |segs|
  {
    if segs != [] {
      var init := segs[..|segs| - 1];
      CountBucketExtremes(init, b);
      assert forall i :: 0 <= i < |init| ==> init[i] == segs[i];
    }
  }

  /** Every segment lands in exactly one of the four buckets or in none, so
      the five counts add up to the number of segments. */
  lemma {:induction false} BucketCountsPartition(segs: seq<Segment>)
    ensures CountBucket(segs, Severe) + CountBucket(segs, Moderate) + CountBucket(segs, Mild)
            + CountBucket(segs, Minimal) + CountBucket(segs, Unbucketed) == |segs|
  {
    if segs != [] {
      BucketCountsPartition(segs[..|segs| - 1]);
    }
  }

  /** `StenosisSummary`: one pass over every segment of the report,
      incrementing at most one of four counters per segment. */
  method StenosisSummary(report: CctaReport) returns (severe: nat, moderate: nat, mild: nat, minimal: nat)
    ensures severe == CountBucket(AllSegments(report.vessels), Severe)
    ensures moderate == CountBucket(AllSegments(report.vessels), Moderate)
    ensures mild == CountBucket(AllSegments(report.vessels), Mild)
    ensures minimal == CountBucket(AllSegments(report.vessels), Minimal)
    ensures severe + moderate + mild + minimal <= |AllSegments(report.vessels)|
  {
    var allSegments := AllSegments(report.vessels);
    severe, moderate, mild, minimal := 0, 0, 0, 0;
    var i := 0;
    while i < |allSegments|
      invariant 0 <= i <= |allSegments|
      invariant severe == CountBucket(allSegments[..i], Severe)
      invariant moderate == CountBucket(allSegments[..i], Moderate)
      invariant mild == CountBucket(allSegments[..i], Mild)
      invariant minimal == CountBucket(allSegments[..i], Minimal)
    {
      var segment := allSegments[i];
      assert allSegments[..i + 1][..i] == allSegments[..i];
      var stenosis := segment.stenosis_pct;
      var isLM := segment.segId == 5;
      if stenosis >= 70.0 || (isLM && stenosis >= 50.0) {
        severe := severe + 1;
      } else if stenosis >= 50.0 && stenosis <= 69.0 {
        moderate := moderate + 1;
      } else if stenosis >= 25.0 && stenosis <= 49.0 {
        mild := mild + 1;
      } else if stenosis >= 1.0 && stenosis <= 24.0 {
        minimal := minimal + 1;
      }
      i := i + 1;
    }
    assert allSegments[..i] == allSegments;
    BucketCountsPartition(allSegments);
  }

  /** The left main is promoted to severe on [50, 70); any other segment in
      that range with stenosis at most 69 is moderate. */
  lemma LeftMainOverride(stenosis: real, segId: int)
    requires 50.0 <= stenosis < 70.0
    ensures segId == 5 ==> StenosisBucket(stenosis, segId) == Severe
    ensures segId != 5 && stenosis <= 69.0 ==> StenosisBucket(stenosis, segId) == Moderate
  {
  }

  /** Values no bucket receives: exactly 0, the gaps between the integer
      bucket edges, and (0, 1). */
  lemma UnbucketedValues(segId: int)
    ensures StenosisBucket(0.0, segId) == Unbucketed
    ensures StenosisBucket(0.5, segId) == Unbucketed
    ensures StenosisBucket(24.5, segId) == Unbucketed
    ensures StenosisBucket(49.5, segId) == Unbucketed
    ensures segId != 5 ==> StenosisBucket(69.5, segId) == Unbucketed
  {
  }

  /** An integer stenosis from 1 to 100 always lands in a bucket. */
  lemma IntegerStenosisIsBucketed(stenosis: int, segId: int)
    requires 1 <= stenosis <= 100
    ensures StenosisBucket(stenosis as real, segId) != Unbucketed
  {
  }

  /** The background colour of each bucket's card. */
  function BucketColor(b: Bucket): (c: RiskColor)
    requires b != Unbucketed
  {
    match b
    case Minimal => Green
    case Mild => Yellow
    case Moderate => Orange
    case Severe => Red
  }

  /** Outside the left main, an integer stenosis of at least 1% lands in the
      bucket whose card has the colour the stenosis classifier gives it; the
      left main on [50, 70) is the one exception (red card, orange colour). */
  lemma BucketAgreesWithStenosisColor(stenosis: int, segId: int)
    requires stenosis >= 1
    ensures segId != 5 ==> BucketColor(StenosisBucket(stenosis as real, segId)) == GetStenosisColor(stenosis as real)
    ensures segId == 5 && 50 <= stenosis < 70 ==>
              BucketColor(StenosisBucket(stenosis as real, segId)) == Red && GetStenosisColor(stenosis as real) == Orange
  {
  }

  // ---------------------------------------------------------------------
  // Mode and sub-mode toggles

  /** The map's `mode` and `compositionSubMode` state. */
  class SegmentMapView {
    var mode: ChartMode
    var compositionSubMode: Option<PlaqueVolumeMode>

    ghost predicate Valid()
      reads this
    {
      ModesConsistent(mode, compositionSubMode)
    }

    constructor ()
      ensures Valid()
      ensures mode == StenosisMode && compositionSubMode == None
    {
      mode := StenosisMode;
      compositionSubMode := None;
    }

    /** A mode button: Composition always restarts at the LRNC sub-mode,
        every other mode clears the sub-mode. */
    method SelectMode(m: ChartMode)
      modifies this
      ensures Valid()
      ensures mode == m
      ensures compositionSubMode == if m == CompositionMode then Some(LRNC_Volume) else None
    {
      mode := m;
      if m == CompositionMode {
        compositionSubMode := Some(LRNC_Volume);
      } else {
        compositionSubMode := None;
      }
    }

    /** A sub-mode button; these are shown only in Composition mode. */
    method SelectSubMode(sub: PlaqueVolumeMode)
      requires Valid() && mode == CompositionMode
      requires sub in {LRNC_Volume, NCP_Volume, CP_Volume}
      modifies this
      ensures Valid()
      ensures mode == old(mode) && compositionSubMode == Some(sub)
    {
      compositionSubMode := Some(sub);
    }
  }
}
