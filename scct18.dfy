/** The coronary diagram's colouring: which classifier colours a segment in
    each mode, the stroke derived from the fill by darkening the hex colour,
    and the per-segment colour map. */
module Scct18 {
  import opened Types
  import opened Thresholds
  import opened Hex
  import opened SegmentMap

  // ---------------------------------------------------------------------
  // Hex darkening

  /** `String.prototype.substring(start, end)`: both indices clamped to the
      length, and swapped when out of order. */
  function Substring(s: string, start: nat, end: nat): (r: string)
    ensures end <= |s| && start <= end ==> r == s[start..end]
    ensures |s| <= start <= end ==> r == []
  {
    var a := if start <= |s| then start else |s|;
    var b := if end <= |s| then end else |s|;
    if a <= b then s[a..b] else s[b..a]
  }

  /** A 4-character `#rgb` becomes `#rrggbb`; anything else is kept. */
  function Normalize(hex: string): (n: string)
    ensures |hex| == 4 ==> |n| == 7 && n[0] == '#'
    ensures |hex| != 4 ==> n == hex
  {
    if |hex| == 4 then ['#', hex[1], hex[1], hex[2], hex[2], hex[3], hex[3]] else hex
  }

  function MaxInt(a: int, b: int): int { if a >= b then a else b }

  /** `Math.max(0, Math.floor(c * (1 - percent / 100)))` for an integer `c`. */
  function ScaledChannel(c: int, percent: real): (r: nat)
    ensures var x := c as real * (1.0 - percent / 100.0);
            (x < 1.0 ==> r == 0) && (x >= 0.0 ==> r as real <= x < r as real + 1.0)
  {
    MaxInt(0, (c as real * (1.0 - percent / 100.0)).Floor)
  }

  /** The same with NaN carried through. */
  function Scale(c: JsNumber, percent: real): (r: JsNumber)
    ensures c.NaN? <==> r.NaN?
    ensures c.Int? ==> r == Int(ScaledChannel(c.value, percent))
  {
    match c
    case NaN => NaN
    case Int(v) => Int(ScaledChannel(v, percent))
  }

  /** Darkening by a percentage in [0, 100] never raises a channel; by 0 it
      keeps it, and by 100 or more it zeroes it. */
  lemma ScaledChannelBounds(c: nat, percent: real)
    ensures 0.0 <= percent <= 100.0 ==> ScaledChannel(c, percent) <= c
    ensures percent == 0.0 ==> ScaledChannel(c, percent) == c
    ensures percent >= 100.0 ==> ScaledChannel(c, percent) == 0
  {
    var amount := 1.0 - percent / 100.0;
    if 0.0 <= percent <= 100.0 {
      assert 0.0 <= amount <= 1.0;
      assert c as real * amount <= c as real * 1.0;
      assert ScaledChannel(c, percent) as real <= c as real;
    }
    if percent >= 100.0 {
      assert amount <= 0.0;
      assert c as real * amount <= 0.0;
    }
  }

  /** One channel of `darkenColor`: the two characters at positions
      `1 + 2i` and `2 + 2i` parsed as hex, then scaled. */
  function ScaledChannelOf(normalizedHex: string, i: nat, percent: real): JsNumber
    requires i < 3
  {
    Scale(ParseHexInt(Substring(normalizedHex, 1 + 2 * i, 3 + 2 * i)), percent)
  }

  /** `darkenColor(hex, percent)`. */
  function DarkenColor(hex: string, percent: real): (out: string)
    ensures hex == [] || hex[0] != '#' ==> out == hex
    ensures hex != [] && hex[0] == '#' ==> |out| == 7 && out[0] == '#'
  {
    if hex == [] || hex[0] != '#' then hex
    else
      var normalizedHex := Normalize(hex);
      var r := ScaledChannelOf(normalizedHex, 0, percent);
      var g := ScaledChannelOf(normalizedHex, 1, percent);
      var b := ScaledChannelOf(normalizedHex, 2, percent);
      "#" + ToHex(r) + ToHex(g) + ToHex(b)
  }

  /** A `#rrggbb` or `#rgb` colour with hex digits of either case. */
  predicate IsHexColor(hex: string)
  {
    (|hex| == 4 || |hex| == 7) && hex[0] == '#' && AllHexDigits(hex[1..])
  }

  predicate IsLongHexColor(hex: string)
  {
    |hex| == 7 && hex[0] == '#' && AllHexDigits(hex[1..])
  }

  /** The two characters of channel `i` (0 red, 1 green, 2 blue). */
  function ChannelText(s: string, i: nat): (t: string)
    requires |s| == 7 && i < 3
    ensures |t| == 2 && t[0] == s[1 + 2 * i] && t[1] == s[2 + 2 * i]
  {
    s[1 + 2 * i..3 + 2 * i]
  }

  /** The value of channel `i` of a long colour. */
  function Channel(s: string, i: nat): (c: nat)
    requires IsLongHexColor(s) && i < 3
    ensures AllHexDigits(ChannelText(s, i)) && c == HexValue(ChannelText(s, i)) && c < 256
  {
    var t := ChannelText(s, i);
    assert t[0] == s[1..][2 * i] && t[1] == s[1..][2 * i + 1];
    HexValuePair(t);
    HexValue(t)
  }

  /** A short colour darkens exactly as its expanded form. */
  lemma ShortFormExpands(hex: string, percent: real)
    requires |hex| == 4 && hex[0] == '#'
    ensures DarkenColor(hex, percent) == DarkenColor(Normalize(hex), percent)
    ensures IsHexColor(hex) ==> IsLongHexColor(Normalize(hex))
  {
    if IsHexColor(hex) {
      var n := Normalize(hex);
      forall i | 0 <= i < 6
        ensures IsHexDigit(n[1..][i])
      {
        assert n[1..][i] == hex[1 + i / 2];
        assert IsHexDigit(hex[1..][i / 2]);
      }
    }
  }

  /** Each channel of a long colour parses as its two-digit value. */
  lemma ParseChannel(hex: string, i: nat)
    requires IsLongHexColor(hex) && i < 3
    ensures ParseHexInt(Substring(hex, 1 + 2 * i, 3 + 2 * i)) == Int(Channel(hex, i))
  {
    var t := ChannelText(hex, i);
    assert Substring(hex, 1 + 2 * i, 3 + 2 * i) == t;
    ParseHexDigits(t);
  }

  /** Each channel of a long colour is its two-digit value, scaled. */
  lemma ScaledChannelOfLong(hex: string, i: nat, percent: real)
    requires IsLongHexColor(hex) && i < 3
    ensures ScaledChannelOf(hex, i, percent) == Int(ScaledChannel(Channel(hex, i), percent))
  {
    ParseChannel(hex, i);
  }

  /** The output of a long colour, channel by channel. */
  lemma DarkenLongParts(hex: string, percent: real)
    requires IsLongHexColor(hex)
    ensures var out := DarkenColor(hex, percent);
            out == "#" + ToHex(ScaledChannelOf(hex, 0, percent)) + ToHex(ScaledChannelOf(hex, 1, percent))
                       + ToHex(ScaledChannelOf(hex, 2, percent))
  {
  }

  /** The output of a long colour in terms of its channel values. */
  lemma DarkenLongValue(hex: string, percent: real)
    requires IsLongHexColor(hex)
    ensures DarkenColor(hex, percent) ==
              HexTriple(ScaledChannel(Channel(hex, 0), percent), ScaledChannel(Channel(hex, 1), percent),
                        ScaledChannel(Channel(hex, 2), percent))
  {
    DarkenLongParts(hex, percent);
    ScaledChannelOfLong(hex, 0, percent);
    ScaledChannelOfLong(hex, 1, percent);
    ScaledChannelOfLong(hex, 2, percent);
  }

  /** `#${toHex(r)}${toHex(g)}${toHex(b)}` for three non-negative integers:
      a long lowercase colour whose channels are the integers wrapped to a
      byte. */
  function HexTriple(r: nat, g: nat, b: nat): (s: string)
    ensures IsLongHexColor(s) && AllLowerHexDigits(s[1..])
    ensures Channel(s, 0) == r % 256 && Channel(s, 1) == g % 256 && Channel(s, 2) == b % 256
  {
    var x, y, z := ToHex(Int(r)), ToHex(Int(g)), ToHex(Int(b));
    JoinChannels(x, y, z);
    "#" + x + y + z
  }

  /** `#` followed by three two-digit lowercase texts is a long lowercase
      colour with those texts as its channels. */
  lemma JoinChannels(x: string, y: string, z: string)
    requires |x| == 2 && |y| == 2 && |z| == 2
    requires AllLowerHexDigits(x) && AllLowerHexDigits(y) && AllLowerHexDigits(z)
    ensures var s := "#" + x + y + z;
            IsLongHexColor(s) && AllLowerHexDigits(s[1..])
            && ChannelText(s, 0) == x && ChannelText(s, 1) == y && ChannelText(s, 2) == z
  {
    var s := "#" + x + y + z;
    assert s[1..] == x + y + z;
    AllLowerHexDigitsConcat(x, y);
    AllLowerHexDigitsConcat(x + y, z);
  }

  lemma AllLowerHexDigitsConcat(a: string, b: string)
    requires AllLowerHexDigits(a) && AllLowerHexDigits(b)
    ensures AllLowerHexDigits(a + b) && AllHexDigits(a + b)
  {
    assert forall k :: |a| <= k < |a + b| ==> (a + b)[k] == b[k - |a|];
  }

  /** Each output channel of a long colour is the scaled input channel,
      wrapped to a byte; the output is lowercase. */
  lemma DarkenChannels(hex: string, percent: real)
    requires IsLongHexColor(hex)
    ensures var out := DarkenColor(hex, percent);
            IsLongHexColor(out) && AllLowerHexDigits(out[1..])
            && Channel(out, 0) == ScaledChannel(Channel(hex, 0), percent) % 256
            && Channel(out, 1) == ScaledChannel(Channel(hex, 1), percent) % 256
            && Channel(out, 2) == ScaledChannel(Channel(hex, 2), percent) % 256
  {
    DarkenLongValue(hex, percent);
  }

  /** A valid colour of either length darkens to `#` and six lowercase hex
      digits, whatever the percentage. */
  lemma DarkenValidIsLowerHex(hex: string, percent: real)
    requires IsHexColor(hex)
    ensures var out := DarkenColor(hex, percent);
            IsLongHexColor(out) && AllLowerHexDigits(out[1..])
  {
    if |hex| == 4 {
      ShortFormExpands(hex, percent);
      DarkenLongValue(Normalize(hex), percent);
    } else {
      DarkenLongValue(hex, percent);
    }
  }

  /** Darkening by a percentage in [0, 100] raises no channel. */
  lemma DarkenNeverBrightens(hex: string, percent: real)
    requires IsLongHexColor(hex) && 0.0 <= percent <= 100.0
    ensures var out := DarkenColor(hex, percent);
            IsLongHexColor(out)
            && Channel(out, 0) <= Channel(hex, 0) && Channel(out, 1) <= Channel(hex, 1)
            && Channel(out, 2) <= Channel(hex, 2)
  {
    DarkenChannels(hex, percent);
    ScaledByte(Channel(hex, 0), percent);
    ScaledByte(Channel(hex, 1), percent);
    ScaledByte(Channel(hex, 2), percent);
  }

  /** A byte darkened by a percentage in [0, 100] is still a byte, no
      larger than before. */
  lemma ScaledByte(c: nat, percent: real)
    requires c < 256 && 0.0 <= percent <= 100.0
    ensures ScaledChannel(c, percent) % 256 == ScaledChannel(c, percent) <= c
    ensures percent == 0.0 ==> ScaledChannel(c, percent) == c
  {
    ScaledChannelBounds(c, percent);
  }

  /** Two long lowercase colours with the same channels are the same text. */
  lemma LongColorsEqual(s: string, t: string)
    requires IsLongHexColor(s) && AllLowerHexDigits(s[1..])
    requires IsLongHexColor(t) && AllLowerHexDigits(t[1..])
    requires Channel(s, 0) == Channel(t, 0) && Channel(s, 1) == Channel(t, 1) && Channel(s, 2) == Channel(t, 2)
    ensures s == t
  {
    SameChannelText(s, t, 0);
    SameChannelText(s, t, 1);
    SameChannelText(s, t, 2);
    SplitChannels(s);
    SplitChannels(t);
  }

  lemma SameChannelText(s: string, t: string, i: nat)
    requires IsLongHexColor(s) && AllLowerHexDigits(s[1..])
    requires IsLongHexColor(t) && AllLowerHexDigits(t[1..])
    requires i < 3 && Channel(s, i) == Channel(t, i)
    ensures ChannelText(s, i) == ChannelText(t, i)
  {
    var u, v := ChannelText(s, i), ChannelText(t, i);
    assert u[0] == s[1..][2 * i] && u[1] == s[1..][2 * i + 1];
    assert v[0] == t[1..][2 * i] && v[1] == t[1..][2 * i + 1];
    LowerPairUnique(u, v);
  }

  /** A seven-character colour is its `#` and its three channels. */
  lemma SplitChannels(s: string)
    requires |s| == 7
    ensures s == [s[0]] + ChannelText(s, 0) + ChannelText(s, 1) + ChannelText(s, 2)
  {
  }

  /** Darkening a lowercase long colour by 0% returns it unchanged. */
  lemma DarkenByZeroIsIdentity(hex: string)
    requires IsLongHexColor(hex) && AllLowerHexDigits(hex[1..])
    ensures DarkenColor(hex, 0.0) == hex
  {
    DarkenChannels(hex, 0.0);
    ScaledByte(Channel(hex, 0), 0.0);
    ScaledByte(Channel(hex, 1), 0.0);
    ScaledByte(Channel(hex, 2), 0.0);
    LongColorsEqual(DarkenColor(hex, 0.0), hex);
  }

  /** Darkening a long colour by 100% or more gives black. */
  lemma DarkenFullyIsBlack(hex: string, percent: real)
    requires IsLongHexColor(hex) && percent >= 100.0
    ensures DarkenColor(hex, percent) == "#000000"
  {
    DarkenLongValue(hex, percent);
    ScaledChannelBounds(Channel(hex, 0), percent);
    ScaledChannelBounds(Channel(hex, 1), percent);
    ScaledChannelBounds(Channel(hex, 2), percent);
    BlackTriple();
  }

  lemma BlackTriple()
    ensures HexTriple(0, 0, 0) == "#000000"
  {
    assert ToHex(Int(0)) == "00";
  }

  /** A negative percentage brightens, and a channel that passes 255 wraps
      around: mid gray "darkened" by -100% is black. */
  lemma NegativePercentWraps()
    ensures DarkenColor("#808080", -100.0) == "#000000"
  {
    var hex := "#808080";
    MidGrayChannels();
    DarkenLongValue(hex, -100.0);
    assert ScaledChannel(128, -100.0) == 256;
    WrappedByte();
  }

  /** Each channel of `#808080` is 128. */
  lemma MidGrayChannels()
    ensures IsLongHexColor("#808080")
    ensures Channel("#808080", 0) == 128 && Channel("#808080", 1) == 128 && Channel("#808080", 2) == 128
  {
    var hex := "#808080";
    assert AllHexDigits(hex[1..]);
    assert ChannelText(hex, 0) == "80" && ChannelText(hex, 1) == "80" && ChannelText(hex, 2) == "80";
    HexValuePair("80");
  }

  /** 256 wraps to 0 in every channel, so the triple of three 256s is
      black. */
  lemma WrappedByte()
    ensures HexTriple(256, 256, 256) == "#000000"
  {
    BlackTriple();
    LongColorsEqual(HexTriple(256, 256, 256), HexTriple(0, 0, 0));
  }

  /** Text with a `#` but no digits where the channels should be yields
      NaN channels, printed as `aN`. */
  lemma BareHashIsNaN(percent: real)
    ensures DarkenColor("#", percent) == "#aNaNaN"
  {
    assert Substring("#", 1, 3) == [];
    assert Substring("#", 3, 5) == [];
    assert Substring("#", 5, 7) == [];
    assert ParseHexInt([]) == NaN;
  }

  // ---------------------------------------------------------------------
  // Segment colours

  /** `getComputedStyle(document.documentElement).getPropertyValue(v).trim()`:
      the value the page's style sheet gives a CSS variable. */
  type CssLookup = string -> string

  /** What a segment's fill is taken from: the style sheet's value of a
      colour variable, or a text used as it is. */
  datatype FillSource = CssValueOf(name: string) | Verbatim(text: string)

  /** The colour variable of a segment in Composition mode, by sub-mode; no
      sub-mode means dominant composition. */
  function CompositionFillVar(s: Segment, sub: Option<PlaqueVolumeMode>): (name: string)
    ensures sub == Some(LRNC_Volume) ==> name == GetLrncVolumeColor(s.lrnc_mm3).Name()
    ensures sub == Some(NCP_Volume) ==> name == GetNcpVolumeColor(s.ncp_mm3).Name()
    ensures sub == Some(CP_Volume) ==> name == GetCpVolumeColor(s.cp_mm3).Name()
    ensures sub == Some(TPV) ==> name == GetTpvColor(TotalPlaque(s)).Name()
    ensures sub == Some(PAV) ==> name == GetPavColor(s.pav_pct).Name()
    ensures sub == None ==> name == GetCompositionColor(s.ncp_mm3, s.cp_mm3).Name()
  {
    match sub
    case Some(LRNC_Volume) => GetLrncVolumeColor(s.lrnc_mm3).Name()
    case Some(NCP_Volume) => GetNcpVolumeColor(s.ncp_mm3).Name()
    case Some(CP_Volume) => GetCpVolumeColor(s.cp_mm3).Name()
    case Some(TPV) => GetTpvColor(s.lrnc_mm3 + s.ncp_mm3 + s.cp_mm3).Name()
    case Some(PAV) => GetPavColor(s.pav_pct).Name()
    case None => GetCompositionColor(s.ncp_mm3, s.cp_mm3).Name()
  }

  /** Where a segment's fill comes from, by the text of the mode: three of
      the declared modes have a rule, and any other text paints dark green. */
  function FillSourceOf(s: Segment, mode: string, sub: Option<PlaqueVolumeMode>): (f: FillSource)
    ensures mode == Stenosis.Text() ==> f == CssValueOf(GetStenosisColor(s.stenosis_pct).Name())
    ensures mode == FFRct.Text() ==> f == Verbatim(GetFfrctColor(s.ffrct).Name())
    ensures mode == MapMode.Composition.Text() ==> f == CssValueOf(CompositionFillVar(s, sub))
    ensures mode !in {Stenosis.Text(), FFRct.Text(), MapMode.Composition.Text()} ==> f == CssValueOf(DarkGreen.Name())
  {
    if mode == "Stenosis" then CssValueOf(GetStenosisColor(s.stenosis_pct).Name())
    else if mode == "FFRct" then Verbatim(GetFfrctColor(s.ffrct).Name())
    else if mode == "Composition" then CssValueOf(CompositionFillVar(s, sub))
    else CssValueOf("--risk-dark-green")
  }

  /** What the segment map passes: its own mode's text. Stenosis and
      Composition reach their rules, HRP and Burden reach none and paint
      every segment dark green, and the FFRct rule is never reached. */
  lemma SegmentMapModesReachDiagram(s: Segment, m: ChartMode, sub: Option<PlaqueVolumeMode>)
    ensures MapModeText(m) != FFRct.Text()
    ensures m == StenosisMode ==> FillSourceOf(s, MapModeText(m), sub) == FillSourceOf(s, Stenosis.Text(), sub)
    ensures m == CompositionMode ==>
              FillSourceOf(s, MapModeText(m), sub) == FillSourceOf(s, MapMode.Composition.Text(), sub)
    ensures m == HrpMode || m == BurdenMode ==> FillSourceOf(s, MapModeText(m), sub) == CssValueOf(DarkGreen.Name())
  {
  }

  /** In the map's HRP and Burden modes every entry of the colour map has
      the style sheet's dark green as its fill, whatever the segment. */
  lemma HrpAndBurdenMapsAreDarkGreen(segs: seq<Segment>, m: ChartMode, sub: Option<PlaqueVolumeMode>, css: CssLookup)
    requires m == HrpMode || m == BurdenMode
    ensures forall id :: id in ColorMapOf(segs, MapModeText(m), sub, css) ==>
              ColorMapOf(segs, MapModeText(m), sub, css)[id].fill == css(DarkGreen.Name())
  {
    ColorMapFollowsIndex(segs, MapModeText(m), sub, css);
    forall id | id in ColorMapOf(segs, MapModeText(m), sub, css)
      ensures ColorMapOf(segs, MapModeText(m), sub, css)[id].fill == css(DarkGreen.Name())
    {
      SegmentMapModesReachDiagram(IndexById(segs)[id], m, sub);
    }
  }

  /** The fill: the style sheet's value of the mode's colour variable, or
      in FFRct mode the variable's name itself. */
  function Fill(s: Segment, mode: string, sub: Option<PlaqueVolumeMode>, css: CssLookup): (f: string)
    ensures mode == Stenosis.Text() ==> f == css(GetStenosisColor(s.stenosis_pct).Name())
    ensures mode == FFRct.Text() ==> f == GetFfrctColor(s.ffrct).Name()
    ensures mode == MapMode.Composition.Text() ==> f == css(CompositionFillVar(s, sub))
    ensures mode !in {Stenosis.Text(), FFRct.Text(), MapMode.Composition.Text()} ==> f == css(DarkGreen.Name())
  {
    match FillSourceOf(s, mode, sub)
    case CssValueOf(name) => css(name)
    case Verbatim(text) => text
  }

  datatype SegmentColors = SegmentColors(fill: string, stroke: string)

  /** A segment's fill and its stroke, 25% darker. */
  function ColorsOf(s: Segment, mode: string, sub: Option<PlaqueVolumeMode>, css: CssLookup): (c: SegmentColors)
    ensures c.stroke == DarkenColor(c.fill, 25.0)
  {
    var fillColor := Fill(s, mode, sub, css);
    SegmentColors(fillColor, DarkenColor(fillColor, 25.0))
  }

  /** In FFRct mode the fill is a variable name, not a hex colour, so the
      darkening leaves the stroke equal to the fill. */
  lemma FfrctStrokeEqualsFill(s: Segment, sub: Option<PlaqueVolumeMode>, css: CssLookup)
    ensures ColorsOf(s, FFRct.Text(), sub, css).fill == GetFfrctColor(s.ffrct).Name()
    ensures ColorsOf(s, FFRct.Text(), sub, css).stroke == ColorsOf(s, FFRct.Text(), sub, css).fill
  {
    var name := GetFfrctColor(s.ffrct).Name();
    assert name[..2] == "--";
    assert name[0] == '-';
  }

  /** A style sheet that gives a colour variable a `#rrggbb` value yields a
      stroke that is a lowercase hex colour no brighter than the fill. */
  lemma HexFillGivesDarkerStroke(s: Segment, mode: string, sub: Option<PlaqueVolumeMode>, css: CssLookup)
    requires IsLongHexColor(ColorsOf(s, mode, sub, css).fill)
    ensures var c := ColorsOf(s, mode, sub, css);
            IsLongHexColor(c.stroke) && AllLowerHexDigits(c.stroke[1..])
            && Channel(c.stroke, 0) <= Channel(c.fill, 0) && Channel(c.stroke, 1) <= Channel(c.fill, 1)
            && Channel(c.stroke, 2) <= Channel(c.fill, 2)
  {
    var c := ColorsOf(s, mode, sub, css);
    DarkenChannels(c.fill, 25.0);
    DarkenNeverBrightens(c.fill, 25.0);
  }

  // ---------------------------------------------------------------------
  // Colour map

  /** The colour map of a list of segments: one entry per id, a later
      segment overwriting an earlier one with the same id. */
  function ColorMapOf(segs: seq<Segment>, mode: string, sub: Option<PlaqueVolumeMode>, css: CssLookup): (m: map<int, SegmentColors>)
    ensures forall id :: id in m ==> m[id].stroke == DarkenColor(m[id].fill, 25.0)
  {
    if segs == [] then map[]
    else
      var last := segs[|segs| - 1];
      ColorMapOf(segs[..|segs| - 1], mode, sub, css)[last.segId := ColorsOf(last, mode, sub, css)]
  }

  /** The colour map is the id index of the segments, coloured: the same
      keys, and each entry coloured from the segment the index keeps. */
  lemma {:induction false} ColorMapFollowsIndex(segs: seq<Segment>, mode: string, sub: Option<PlaqueVolumeMode>, css: CssLookup)
    ensures ColorMapOf(segs, mode, sub, css).Keys == IndexById(segs).Keys
    ensures forall id :: id in IndexById(segs) ==>
              ColorMapOf(segs, mode, sub, css)[id] == ColorsOf(IndexById(segs)[id], mode, sub, css)
  {
    if segs != [] {
      ColorMapFollowsIndex(segs[..|segs| - 1], mode, sub, css);
    }
  }

  /** The entry of an id is coloured from the LAST segment with that id,
      and every entry's stroke is its fill darkened by 25%. */
  lemma ColorMapLastWins(segs: seq<Segment>, i: nat, mode: string, sub: Option<PlaqueVolumeMode>, css: CssLookup)
    requires i < |segs|
    requires forall j :: i < j < |segs| ==> segs[j].segId != segs[i].segId
    ensures segs[i].segId in ColorMapOf(segs, mode, sub, css)
    ensures ColorMapOf(segs, mode, sub, css)[segs[i].segId] == ColorsOf(segs[i], mode, sub, css)
    ensures var c := ColorMapOf(segs, mode, sub, css)[segs[i].segId]; c.stroke == DarkenColor(c.fill, 25.0)
  {
    ColorMapFollowsIndex(segs, mode, sub, css);
    IndexByIdLastWins(segs, i);
  }

  /** The effect's loop: one write per segment into a fresh dictionary. */
  method BuildColorMap(report: CctaReport, mode: string, sub: Option<PlaqueVolumeMode>, css: CssLookup)
    returns (newColorMap: map<int, SegmentColors>)
    ensures newColorMap == ColorMapOf(AllSegments(report.vessels), mode, sub, css)
    ensures forall id :: id in newColorMap <==> exists s :: s in AllSegments(report.vessels) && s.segId == id
  {
    var segments := AllSegments(report.vessels);
    newColorMap := map[];
    var i := 0;
    while i < |segments|
      invariant 0 <= i <= |segments|
      invariant newColorMap == ColorMapOf(segments[..i], mode, sub, css)
    {
      var segmentData := segments[i];
      var fillColor := Fill(segmentData, mode, sub, css);
      var strokeColor := DarkenColor(fillColor, 25.0);
      assert SegmentColors(fillColor, strokeColor) == ColorsOf(segmentData, mode, sub, css);
      ColorMapStep(segments, i, mode, sub, css);
      newColorMap := newColorMap[segmentData.segId := SegmentColors(fillColor, strokeColor)];
      i := i + 1;
    }
    assert segments[..i] == segments;
    ColorMapKeys(segments, mode, sub, css);
  }

  /** One more segment adds or overwrites one entry. */
  lemma ColorMapStep(segs: seq<Segment>, i: nat, mode: string, sub: Option<PlaqueVolumeMode>, css: CssLookup)
    requires i < |segs|
    ensures ColorMapOf(segs[..i + 1], mode, sub, css)
            == ColorMapOf(segs[..i], mode, sub, css)[segs[i].segId := ColorsOf(segs[i], mode, sub, css)]
  {
    assert segs[..i + 1][..i] == segs[..i];
  }

  /** The colour map has an entry for exactly the ids some segment has. */
  lemma {:induction false} ColorMapKeys(segs: seq<Segment>, mode: string, sub: Option<PlaqueVolumeMode>, css: CssLookup)
    ensures forall id :: id in ColorMapOf(segs, mode, sub, css) <==> exists s :: s in segs && s.segId == id
  {
    if segs != [] {
      var init := segs[..|segs| - 1];
      ColorMapKeys(init, mode, sub, css);
      assert segs == init + [segs[|segs| - 1]];
      forall id | exists s :: s in segs && s.segId == id
        ensures id in ColorMapOf(segs, mode, sub, css)
      {
        var s :| s in segs && s.segId == id;
        if s != segs[|segs| - 1] {
          assert s in init;
        }
      }
    }
  }

  /** From any occurrence of an id there is a last one. */
  lemma {:induction false} LastOccurrence(segs: seq<Segment>, k: nat)
    requires k < |segs|
    ensures segs[k].segId in IndexById(segs)
    decreases |segs| - k
  {
    if j :| k < j < |segs| && segs[j].segId == segs[k].segId {
      LastOccurrence(segs, j);
    } else {
      IndexByIdLastWins(segs, k);
    }
  }

  /** The diagram's colour map state; it stays empty where there is no
      window (server-side rendering). */
  class DiagramView {
    var colorMap: map<int, SegmentColors>

    constructor ()
      ensures colorMap == map[]
    {
      colorMap := map[];
    }

    /** The effect run when the report, the mode or the sub-mode changes. */
    method Refresh(report: CctaReport, mode: string, sub: Option<PlaqueVolumeMode>, css: CssLookup, hasWindow: bool)
      modifies this
      ensures hasWindow ==> colorMap == ColorMapOf(AllSegments(report.vessels), mode, sub, css)
      ensures !hasWindow ==> colorMap == old(colorMap)
    {
      if !hasWindow {
        return;
      }
      var newColorMap := BuildColorMap(report, mode, sub, css);
      colorMap := newColorMap;
    }
  }
}
