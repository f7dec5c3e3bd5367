/** The PAV triangle: twelve bars of rising height, the first few lit in
    the PAV tier's colour in proportion to the percent atheroma volume on a
    0 to 25% scale. */
module PavlTriangleChart {
  import opened Thresholds
  import opened Compute

  /** `BARS`. */
  const Bars: nat := 12
  /** `MAX_PAV`: the scale's top, 25%. */
  const MaxPav: real := 25.0

  /** The index of the last lit bar: -1 (none) for a PAV that is not
      positive, otherwise the PAV's share of the scale in elevenths, rounded
      down and capped at the last bar. */
  function TriangleStage(pav: real): (stage: int)
    ensures -1 <= stage < Bars
    ensures stage == -1 <==> pav <= 0.0
    ensures pav >= MaxPav ==> stage == Bars - 1
    ensures 0.0 < pav < MaxPav ==>
              stage as real <= pav * (Bars - 1) as real / MaxPav < stage as real + 1.0
  {
    if pav > 0.0 then
      var scaled := ((pav / MaxPav) * (Bars - 1) as real).Floor;
      if Bars - 1 <= scaled then Bars - 1 else scaled
    else -1
  }

  /** One bar: lit or not, its colour variable and its height in percent. */
  datatype Bar = Bar(active: bool, color: RiskColor, height: real)

  /** The bar at index `i`. */
  function BarAt(i: nat, stage: int, color: RiskColor): (b: Bar)
    ensures b.active <==> i <= stage
    ensures b.color == if b.active then color else NeutralGray
    ensures 0.0 < b.height && (i < Bars ==> b.height <= 100.0)
  {
    var isActive := i <= stage;
    Bar(isActive, if isActive then color else NeutralGray, (i + 1) as real * (100.0 / Bars as real))
  }

  /** The twelve bars for a PAV value. */
  function TriangleBars(pav: real): (bars: seq<Bar>)
    ensures |bars| == Bars
  {
    var stage := TriangleStage(pav);
    var color := GetPavColor(pav);
    seq(Bars, i requires 0 <= i < Bars => BarAt(i, stage, color))
  }

  /** The number of lit bars. */
  function CountActive(bars: seq<Bar>): (n: nat)
    ensures n <= |bars|
  {
    if bars == [] then 0
    else CountActive(bars[..|bars| - 1]) + (if bars[|bars| - 1].active then 1 else 0)
  }

  /** When exactly the first `k` bars are lit, `k` bars are counted. */
  lemma {:induction false} CountActivePrefix(bars: seq<Bar>, k: nat)
    requires k <= |bars|
    requires forall i :: 0 <= i < |bars| ==> (bars[i].active <==> i < k)
    ensures CountActive(bars) == k
  {
    if bars != [] {
      var init := bars[..|bars| - 1];
      if k == |bars| {
        CountActivePrefix(init, k - 1);
      } else {
        CountActivePrefix(init, k);
      }
    }
  }

  /** The lit bars are a prefix, one more than the stage: none for a PAV
      that is not positive, all twelve from 25% up. */
  lemma ActiveBarsArePrefix(pav: real)
    ensures var bars := TriangleBars(pav);
            forall i :: 0 <= i < |bars| ==> (bars[i].active <==> i <= TriangleStage(pav))
    ensures CountActive(TriangleBars(pav)) == TriangleStage(pav) + 1
    ensures pav <= 0.0 ==> CountActive(TriangleBars(pav)) == 0
    ensures pav >= MaxPav ==> CountActive(TriangleBars(pav)) == Bars
  {
    CountActivePrefix(TriangleBars(pav), TriangleStage(pav) + 1);
  }

  /** Lit bars take the PAV tier's colour, which is never the placeholder
      gray; unlit bars are gray. */
  lemma BarColors(pav: real)
    ensures var bars := TriangleBars(pav);
            forall i :: 0 <= i < |bars| ==>
              (bars[i].active ==> bars[i].color == PavStageColor(PavStage(pav)) && bars[i].color != NeutralGray)
              && (!bars[i].active ==> bars[i].color == NeutralGray)
  {
    PavStageMatchesPavColor(pav);
  }

  /** The bars rise strictly, by a twelfth of the height each, and the last
      one is full height: the triangle. */
  lemma BarHeightsRise(pav: real)
    ensures var bars := TriangleBars(pav);
            forall i, j :: 0 <= i < j < |bars| ==> bars[i].height < bars[j].height
    ensures TriangleBars(pav)[0].height == 100.0 / 12.0
    ensures TriangleBars(pav)[Bars - 1].height == 100.0
  {
  }

  /** More PAV never lights fewer bars. */
  lemma TriangleStageMonotone(x: real, y: real)
    requires x <= y
    ensures TriangleStage(x) <= TriangleStage(y)
    ensures forall i :: 0 <= i < Bars && TriangleBars(x)[i].active ==> TriangleBars(y)[i].active
  {
    if 0.0 < x {
      var a := (x / MaxPav) * (Bars - 1) as real;
      var b := (y / MaxPav) * (Bars - 1) as real;
      assert a <= b;
      assert a.Floor <= b.Floor;
    }
  }

  /** The bars agree with the PAV stage of `pavStage`: stage 0 lights none,
      stage 1 (up to 5%) at most three, stage 2 (up to 15%) three to seven,
      and above 15% seven or more. A negative PAV is red yet lights none. */
  lemma TriangleStageMatchesPavStage(pav: real)
    ensures PavStage(pav) == 0 ==> TriangleStage(pav) == -1
    ensures PavStage(pav) == 1 ==> 0 <= TriangleStage(pav) <= 2
    ensures PavStage(pav) == 2 ==> 2 <= TriangleStage(pav) <= 6
    ensures 15.0 < pav ==> 6 <= TriangleStage(pav)
    ensures pav < 0.0 ==> PavStage(pav) == 3 && GetPavColor(pav) == Red && TriangleStage(pav) == -1
  {
    if 0.0 < pav <= 5.0 {
      TriangleStageMonotone(pav, 5.0);
      assert TriangleStage(5.0) == 2;
    } else if 5.0 < pav <= 15.0 {
      TriangleStageMonotone(5.0, pav);
      TriangleStageMonotone(pav, 15.0);
      assert TriangleStage(5.0) == 2;
      assert TriangleStage(15.0) == 6;
    } else if 15.0 < pav {
      TriangleStageMonotone(15.0, pav);
      assert TriangleStage(15.0) == 6;
    }
  }

  /** 10% lights five bars: 10/25 of eleven is 4.4. */
  lemma TenPercentLightsFive()
    ensures TriangleStage(10.0) == 4
    ensures CountActive(TriangleBars(10.0)) == 5
    ensures TriangleBars(10.0)[4].color == Orange && TriangleBars(10.0)[5].color == NeutralGray
  {
    ActiveBarsArePrefix(10.0);
  }
}
