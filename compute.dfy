/** Atherosclerosis staging and the number formatter's missing-value branch. */
module Compute {
  import opened Types
  import opened Thresholds

  /** PAV stage 0..3: 0 only at exactly 0, negatives fall into stage 3. */
  function PavStage(pav_pct: real): (r: nat)
    ensures r <= 3
    ensures r == 0 <==> pav_pct == 0.0
    ensures r == 1 <==> 0.0 < pav_pct <= 5.0
    ensures r == 2 <==> 5.0 < pav_pct <= 15.0
    ensures r == 3 <==> pav_pct < 0.0 || 15.0 < pav_pct
  {
    if pav_pct == 0.0 then 0
    else if pav_pct > 0.0 && pav_pct <= 5.0 then 1
    else if pav_pct > 5.0 && pav_pct <= 15.0 then 2
    else 3
  }

  /** The TPV sub-stage computed inline by `getAtherosclerosisStage`:
      0 only at exactly 0, negatives fall into stage 1. */
  function TpvStage(tpv_mm3: real): (r: nat)
    ensures r <= 3
    ensures r == 0 <==> tpv_mm3 == 0.0
    ensures r == 1 <==> tpv_mm3 != 0.0 && tpv_mm3 <= 250.0
    ensures r == 2 <==> 250.0 < tpv_mm3 <= 750.0
    ensures r == 3 <==> 750.0 < tpv_mm3
  {
    if tpv_mm3 == 0.0 then 0
    else if tpv_mm3 <= 250.0 then 1
    else if tpv_mm3 <= 750.0 then 2
    else 3
  }

  /** A report is staged by the worse of its TPV stage and its PAV stage. */
  function AtherosclerosisStage(tpv_mm3: real, pav_pct: real): (r: nat)
    ensures r <= 3
    ensures r >= TpvStage(tpv_mm3) && r >= PavStage(pav_pct)
    ensures r == TpvStage(tpv_mm3) || r == PavStage(pav_pct)
  {
    var tpvStage := TpvStage(tpv_mm3);
    var pavS := PavStage(pav_pct);
    if tpvStage >= pavS then tpvStage else pavS
  }

  /** Staging is monotone in both inputs over non-negative values. */
  lemma AtherosclerosisStageMonotone(tpv1: real, tpv2: real, pav1: real, pav2: real)
    requires 0.0 <= tpv1 <= tpv2 && 0.0 <= pav1 <= pav2
    ensures AtherosclerosisStage(tpv1, pav1) <= AtherosclerosisStage(tpv2, pav2)
  {
  }

  /** A TPV of 300 mm3 (stage 2) with a PAV of 3% (stage 1) is stage 2. */
  lemma StageExample()
    ensures TpvStage(300.0) == 2 && PavStage(3.0) == 1
    ensures AtherosclerosisStage(300.0, 3.0) == 2
  {
  }

  /** The colour of each PAV stage. */
  function PavStageColor(stage: nat): (c: RiskColor)
    requires stage <= 3
  {
    [DarkGreen, Green, Orange, Red][stage]
  }

  /** `pavStage` and `getPavColor` agree tier for tier, negatives included. */
  lemma PavStageMatchesPavColor(pav_pct: real)
    ensures GetPavColor(pav_pct) == PavStageColor(PavStage(pav_pct))
  {
  }

  /** `toLocaleString` with a fixed number of fraction digits, which the
      model does not interpret. */
  type Formatter = (real, nat) -> string

  /** The text `formatNumber` shows for null or undefined, as it appears in
      the source file (a mis-encoded em dash). */
  const Placeholder: string := "\U{00E2}\U{20AC}\U{201D}"

  /** `formatNumber(value, decimals)`; `None` stands for null and undefined. */
  function FormatNumber(value: Option<real>, decimals: nat, fmt: Formatter): (s: string)
    ensures value.None? ==> s == Placeholder
    ensures value.Some? ==> s == fmt(value.value, decimals)
  {
    if value.None? then Placeholder else fmt(value.value, decimals)
  }

  /** A missing value never reaches the locale formatter: its text is the
      same whichever formatter is in force. */
  lemma MissingValueIgnoresFormatter(decimals: nat, fmt1: Formatter, fmt2: Formatter)
    ensures FormatNumber(None, decimals, fmt1) == FormatNumber(None, decimals, fmt2) == Placeholder
  {
  }

  /** A formatter in the way `toLocaleString` behaves on numbers: it never
      returns the empty string and never writes a leading `+`. */
  ghost predicate PlainFormatter(fmt: Formatter)
  {
    forall x: real, d: nat {:trigger fmt(x, d)} :: |fmt(x, d)| > 0 && fmt(x, d)[0] != '+'
  }

  /** `${sign}${formatNumber(x, decimals)}` with `sign` `+` exactly for a
      positive number: the form every signed change text takes. */
  function SignedText(x: real, decimals: nat, fmt: Formatter): (s: string)
    ensures PlainFormatter(fmt) ==> |s| > 0 && (s[0] == '+' <==> x > 0.0)
  {
    (if x > 0.0 then "+" else "") + FormatNumber(Some(x), decimals, fmt)
  }
}
