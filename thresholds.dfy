/** The colour classifiers: each maps one metric value to a CSS colour
    variable. The risk tiers form an ordered scale from dark green (no
    disease) to red; neutral gray is only a placeholder and no classifier
    returns it. */
module Thresholds {
  import opened Types

  /** `RiskColorVar`. */
  datatype RiskColor = DarkGreen | Green | Yellow | Orange | Red | NeutralGray {
    function Name(): (s: string)
      ensures |s| > 2 && s[..2] == "--"
    {
      match this
      case DarkGreen => "--risk-dark-green"
      case Green => "--risk-green"
      case Yellow => "--risk-yellow"
      case Orange => "--risk-orange"
      case Red => "--risk-red"
      case NeutralGray => "--risk-neutral-gray"
    }

    /** Position on the severity scale, dark green lowest. */
    function Severity(): (n: nat)
      requires !NeutralGray?
      ensures n <= 4
      ensures n == 0 <==> DarkGreen?
      ensures n == 4 <==> Red?
    {
      match this
      case DarkGreen => 0
      case Green => 1
      case Yellow => 2
      case Orange => 3
      case Red => 4
    }
  }

  /** `CompositionColorVar`. */
  datatype CompositionColor = NcpColor | CpColor | LrbColor | CompositionGray {
    function Name(): (s: string)
      ensures |s| > 2 && s[..2] == "--"
    {
      match this
      case NcpColor => "--ncp-color"
      case CpColor => "--cp-color"
      case LrbColor => "--lrb-color"
      case CompositionGray => "--risk-neutral-gray"
    }
  }

  /** `RiskColorVar | CompositionColorVar`, the colour of a bar or a segment. */
  datatype ColorVar = RiskVar(risk: RiskColor) | CompositionVar(composition: CompositionColor) {
    function Name(): (s: string)
      ensures |s| > 2 && s[..2] == "--"
    {
      match this
      case RiskVar(c) => c.Name()
      case CompositionVar(c) => c.Name()
    }
  }

  /** `getHrpColor` is imported by the components but has no definition in
      `thresholds.ts`; it is therefore a parameter of every member that uses it. */
  type HrpClassifier = real -> RiskColor

  /** The shape the stenosis, LRNC, NCP, CP and segment-TPV classifiers share:
      exact zero is dark green, then lower-inclusive cut points. */
  function StepColor(v: real, low: real, mid: real, high: real): (r: RiskColor)
    requires 0.0 < low < mid < high
    ensures r != NeutralGray
    ensures r == DarkGreen <==> v == 0.0
    ensures r == Green <==> v != 0.0 && v < low
    ensures r == Yellow <==> low <= v < mid
    ensures r == Orange <==> mid <= v < high
    ensures r == Red <==> high <= v
  {
    if v == 0.0 then DarkGreen
    else if v < low then Green
    else if v < mid then Yellow
    else if v < high then Orange
    else Red
  }

  /** On non-negative values a step colour never gets less severe as the
      value grows. */
  lemma StepColorMonotone(x: real, y: real, low: real, mid: real, high: real)
    requires 0.0 < low < mid < high
    requires 0.0 <= x <= y
    ensures StepColor(x, low, mid, high).Severity() <= StepColor(y, low, mid, high).Severity()
  {
  }

  function GetStenosisColor(pct: real): (r: RiskColor)
    ensures r == DarkGreen <==> pct == 0.0
    ensures r == Green <==> pct != 0.0 && pct < 25.0
    ensures r == Yellow <==> 25.0 <= pct < 50.0
    ensures r == Orange <==> 50.0 <= pct < 70.0
    ensures r == Red <==> 70.0 <= pct
  {
    if pct == 0.0 then DarkGreen
    else if pct < 25.0 then Green
    else if pct < 50.0 then Yellow
    else if pct < 70.0 then Orange
    else Red
  }

  /** FFRct: lower is worse; an absent value is dark green like a high one. */
  function GetFfrctColor(ffrct: Option<real>): (r: RiskColor)
    ensures r == DarkGreen <==> ffrct.None? || ffrct.value > 0.85
    ensures r == Green <==> ffrct.Some? && 0.80 < ffrct.value <= 0.85
    ensures r == Yellow <==> ffrct.Some? && 0.75 < ffrct.value <= 0.80
    ensures r == Orange <==> ffrct.Some? && 0.70 < ffrct.value <= 0.75
    ensures r == Red <==> ffrct.Some? && ffrct.value <= 0.70
  {
    if ffrct.None? || ffrct.value > 0.85 then DarkGreen
    else if ffrct.value > 0.80 then Green
    else if ffrct.value > 0.75 then Yellow
    else if ffrct.value > 0.70 then Orange
    else Red
  }

  /** Dominant composition: gray without plaque, otherwise NCP wins ties. */
  function GetCompositionColor(ncp: real, cp: real): (r: CompositionColor)
    ensures r == CompositionGray <==> ncp == 0.0 && cp == 0.0
    ensures r == NcpColor <==> !(ncp == 0.0 && cp == 0.0) && ncp >= cp
    ensures r == CpColor <==> !(ncp == 0.0 && cp == 0.0) && ncp < cp
    ensures r != LrbColor
  {
    if ncp == 0.0 && cp == 0.0 then CompositionGray
    else if ncp >= cp then NcpColor else CpColor
  }

  function GetLrncVolumeColor(volume: real): (r: RiskColor)
    ensures r == DarkGreen <==> volume == 0.0
    ensures r == Green <==> volume != 0.0 && volume < 5.0
    ensures r == Yellow <==> 5.0 <= volume < 15.0
    ensures r == Orange <==> 15.0 <= volume < 30.0
    ensures r == Red <==> 30.0 <= volume
  {
    if volume == 0.0 then DarkGreen
    else if volume < 5.0 then Green
    else if volume < 15.0 then Yellow
    else if volume < 30.0 then Orange
    else Red
  }

  function GetNcpVolumeColor(volume: real): (r: RiskColor)
    ensures r == DarkGreen <==> volume == 0.0
    ensures r == Green <==> volume != 0.0 && volume < 20.0
    ensures r == Yellow <==> 20.0 <= volume < 50.0
    ensures r == Orange <==> 50.0 <= volume < 100.0
    ensures r == Red <==> 100.0 <= volume
  {
    if volume == 0.0 then DarkGreen
    else if volume < 20.0 then Green
    else if volume < 50.0 then Yellow
    else if volume < 100.0 then Orange
    else Red
  }

  function GetCpVolumeColor(volume: real): (r: RiskColor)
    ensures r == DarkGreen <==> volume == 0.0
    ensures r == Green <==> volume != 0.0 && volume < 50.0
    ensures r == Yellow <==> 50.0 <= volume < 150.0
    ensures r == Orange <==> 150.0 <= volume < 300.0
    ensures r == Red <==> 300.0 <= volume
  {
    if volume == 0.0 then DarkGreen
    else if volume < 50.0 then Green
    else if volume < 150.0 then Yellow
    else if volume < 300.0 then Orange
    else Red
  }

  /** Total plaque volume of one segment. */
  function GetTpvColor(volume: real): (r: RiskColor)
    ensures r == DarkGreen <==> volume == 0.0
    ensures r == Green <==> volume != 0.0 && volume < 30.0
    ensures r == Yellow <==> 30.0 <= volume < 75.0
    ensures r == Orange <==> 75.0 <= volume < 150.0
    ensures r == Red <==> 150.0 <= volume
  {
    if volume == 0.0 then DarkGreen
    else if volume < 30.0 then Green
    else if volume < 75.0 then Yellow
    else if volume < 150.0 then Orange
    else Red
  }

  /** Whole-heart total plaque volume: upper-inclusive cuts, no yellow tier. */
  function GetGlobalTpvColor(volume: real): (r: RiskColor)
    ensures r != Yellow && r != NeutralGray
    ensures r == DarkGreen <==> volume == 0.0
    ensures r == Green <==> volume != 0.0 && volume <= 250.0
    ensures r == Orange <==> 250.0 < volume <= 750.0
    ensures r == Red <==> 750.0 < volume
  {
    if volume == 0.0 then DarkGreen
    else if volume <= 250.0 then Green
    else if volume <= 750.0 then Orange
    else Red
  }

  /** Percent atheroma volume: no yellow tier, and every value outside
      [0, 15] (negatives included) is red. */
  function GetPavColor(pct: real): (r: RiskColor)
    ensures r != Yellow && r != NeutralGray
    ensures r == DarkGreen <==> pct == 0.0
    ensures r == Green <==> 0.0 < pct <= 5.0
    ensures r == Orange <==> 5.0 < pct <= 15.0
    ensures r == Red <==> pct < 0.0 || 15.0 < pct
  {
    if pct == 0.0 then DarkGreen
    else if pct > 0.0 && pct <= 5.0 then Green
    else if pct > 5.0 && pct <= 15.0 then Orange
    else Red
  }

  /** Stenosis and the four volume classifiers are the same step function
      with different cut points. */
  lemma SharedStepShape(v: real)
    ensures GetStenosisColor(v) == StepColor(v, 25.0, 50.0, 70.0)
    ensures GetLrncVolumeColor(v) == StepColor(v, 5.0, 15.0, 30.0)
    ensures GetNcpVolumeColor(v) == StepColor(v, 20.0, 50.0, 100.0)
    ensures GetCpVolumeColor(v) == StepColor(v, 50.0, 150.0, 300.0)
    ensures GetTpvColor(v) == StepColor(v, 30.0, 75.0, 150.0)
  {
  }

  /** Over [0, infinity) none of the step classifiers loses severity as the
      value grows. */
  lemma StepClassifiersMonotone(x: real, y: real)
    requires 0.0 <= x <= y
    ensures GetStenosisColor(x).Severity() <= GetStenosisColor(y).Severity()
    ensures GetLrncVolumeColor(x).Severity() <= GetLrncVolumeColor(y).Severity()
    ensures GetNcpVolumeColor(x).Severity() <= GetNcpVolumeColor(y).Severity()
    ensures GetCpVolumeColor(x).Severity() <= GetCpVolumeColor(y).Severity()
    ensures GetTpvColor(x).Severity() <= GetTpvColor(y).Severity()
  {
    SharedStepShape(x);
    SharedStepShape(y);
    StepColorMonotone(x, y, 25.0, 50.0, 70.0);
    StepColorMonotone(x, y, 5.0, 15.0, 30.0);
    StepColorMonotone(x, y, 20.0, 50.0, 100.0);
    StepColorMonotone(x, y, 50.0, 150.0, 300.0);
    StepColorMonotone(x, y, 30.0, 75.0, 150.0);
  }

  /** Only an exact 0 is dark green: a negative stenosis is green. */
  lemma NegativeStenosisIsGreen(pct: real)
    requires pct < 0.0
    ensures GetStenosisColor(pct) == Green
  {
  }

  /** Severity never increases as a measured FFRct rises; absence and a
      measured 0 are at opposite ends of the scale. */
  lemma FfrctAntitone(x: real, y: real)
    requires x <= y
    ensures GetFfrctColor(Some(y)).Severity() <= GetFfrctColor(Some(x)).Severity()
    ensures GetFfrctColor(None) == DarkGreen && GetFfrctColor(Some(0.0)) == Red
  {
  }

  /** On non-negative values neither the whole-heart TPV nor the PAV
      colour loses severity as the value grows. */
  lemma GlobalTpvAndPavMonotone(x: real, y: real)
    requires 0.0 <= x <= y
    ensures GetGlobalTpvColor(x).Severity() <= GetGlobalTpvColor(y).Severity()
    ensures GetPavColor(x).Severity() <= GetPavColor(y).Severity()
  {
  }
}
