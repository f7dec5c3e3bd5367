/** The two JavaScript number conversions the hex darkening relies on:
    `parseInt(s, 16)` and `Number.prototype.toString(16)` of an integer. */
module Hex {

  /** The result of `parseInt`: an integer, or NaN when no digit is found. */
  datatype JsNumber = NaN | Int(value: int)

  predicate IsHexDigit(c: char)
  {
    '0' <= c <= '9' || 'a' <= c <= 'f' || 'A' <= c <= 'F'
  }

  predicate IsLowerHexDigit(c: char)
  {
    '0' <= c <= '9' || 'a' <= c <= 'f'
  }

  function DigitValue(c: char): (d: nat)
    requires IsHexDigit(c)
    ensures d < 16
  {
    if '0' <= c <= '9' then c as int - '0' as int
    else if 'a' <= c <= 'f' then c as int - 'a' as int + 10
    else c as int - 'A' as int + 10
  }

  function LowerHexDigit(d: nat): (c: char)
    requires d < 16
    ensures IsLowerHexDigit(c) && IsHexDigit(c) && DigitValue(c) == d
  {
    "0123456789abcdef"[d]
  }

  /** A lowercase digit is the only lowercase digit with its value. */
  lemma LowerHexDigitUnique(c: char)
    requires IsLowerHexDigit(c)
    ensures LowerHexDigit(DigitValue(c)) == c
  {
  }

  predicate AllHexDigits(s: string)
  {
    forall i :: 0 <= i < |s| ==> IsHexDigit(s[i])
  }

  predicate AllLowerHexDigits(s: string)
  {
    forall i :: 0 <= i < |s| ==> IsLowerHexDigit(s[i])
  }

  /** `16` to the power `n`. */
  function Pow16(n: nat): (p: nat)
    ensures p >= 1
  {
    if n == 0 then 1 else 16 * Pow16(n - 1)
  }

  /** The value of a string of hex digits, most significant first; `n`
      digits hold a value below `16^n`. */
  function HexValue(s: string): (v: nat)
    requires AllHexDigits(s)
    ensures v < Pow16(|s|)
  {
    if s == [] then 0
    else
      var d := s[|s| - 1];
      assert IsHexDigit(d);
      16 * HexValue(s[..|s| - 1]) + DigitValue(d)
  }

  /** The value of a two-digit string. */
  lemma HexValuePair(s: string)
    requires |s| == 2 && AllHexDigits(s)
    ensures HexValue(s) == 16 * DigitValue(s[0]) + DigitValue(s[1])
    ensures HexValue(s) < 256
  {
    var p := s[..1];
    assert p[..0] == [] && p[0] == s[0];
    assert HexValue(p) == DigitValue(s[0]);
    assert s[..|s| - 1] == p;
  }

  /** Appending two digits shifts the value by one byte. */
  lemma {:induction false} HexValueLastTwo(s: string)
    requires |s| >= 2 && AllHexDigits(s)
    ensures HexValue(s) == 256 * HexValue(s[..|s| - 2]) + HexValue(s[|s| - 2..])
  {
    var t := s[..|s| - 1];
    assert t[..|t| - 1] == s[..|s| - 2];
    var u := s[|s| - 2..];
    HexValuePair(u);
    assert u[0] == t[|t| - 1] && u[1] == s[|s| - 1];
  }

  /** The `Number.prototype.toString(16)` text of a non-negative integer:
      lowercase digits without leading zeros. */
  function NatToHex(n: nat): (s: string)
    ensures |s| >= 1 && AllLowerHexDigits(s) && AllHexDigits(s)
    ensures HexValue(s) == n
    ensures |s| > 1 ==> s[0] != '0'
    ensures |s| == 1 <==> n < 16
  {
    if n < 16 then [LowerHexDigit(n)]
    else
      var prefix := NatToHex(n / 16);
      var s := prefix + [LowerHexDigit(n % 16)];
      assert s[..|s| - 1] == prefix;
      s
  }

  /** `Number.prototype.toString(16)` of an integer or NaN. */
  function NumberToHex(x: JsNumber): (s: string)
    ensures x.NaN? ==> s == "NaN"
    ensures x.Int? && x.value >= 0 ==> AllLowerHexDigits(s) && AllHexDigits(s) && HexValue(s) == x.value
    ensures x.Int? && x.value < 0 ==> |s| >= 2 && s[0] == '-' && AllHexDigits(s[1..]) && HexValue(s[1..]) == -x.value
  {
    match x
    case NaN => "NaN"
    case Int(v) => if v < 0 then "-" + NatToHex(-v) else NatToHex(v)
  }

  /** `('00' + c.toString(16)).slice(-2)`: the last two characters. */
  function ToHex(x: JsNumber): (s: string)
    ensures |s| == 2
    ensures x.NaN? ==> s == "aN"
    ensures x.Int? && x.value >= 0 ==> AllLowerHexDigits(s) && AllHexDigits(s) && HexValue(s) == x.value % 256
  {
    var padded := "00" + NumberToHex(x);
    var s := padded[|padded| - 2..];
    if x.Int? && x.value >= 0 then
      ToHexOfNat(x.value);
      s
    else s
  }

  /** The last two digits of `"00" + NatToHex(n)` are `n % 256` in hex. */
  lemma ToHexOfNat(n: nat)
    ensures var padded := "00" + NatToHex(n);
            var s := padded[|padded| - 2..];
            AllLowerHexDigits(s) && AllHexDigits(s) && HexValue(s) == n % 256
  {
    var h := NatToHex(n);
    var padded := "00" + h;
    if |h| == 1 {
      assert padded[|padded| - 2..] == "0" + h;
      PaddedDigit(h);
    } else {
      assert padded[|padded| - 2..] == h[|h| - 2..];
      LastTwoDigits(h);
    }
  }

  /** One digit padded with a zero keeps its value. */
  lemma PaddedDigit(h: string)
    requires |h| == 1 && AllLowerHexDigits(h)
    ensures AllLowerHexDigits("0" + h) && AllHexDigits("0" + h) && AllHexDigits(h)
    ensures HexValue("0" + h) == HexValue(h) % 256
  {
    var s := "0" + h;
    assert s[1] == h[0];
    HexValuePair(s);
    assert h[..0] == [];
  }

  /** The last two digits of a hex text are its value modulo 256. */
  lemma LastTwoDigits(h: string)
    requires |h| >= 2 && AllLowerHexDigits(h) && AllHexDigits(h)
    ensures AllLowerHexDigits(h[|h| - 2..]) && AllHexDigits(h[|h| - 2..])
    ensures HexValue(h[|h| - 2..]) == HexValue(h) % 256
  {
    var s := h[|h| - 2..];
    assert s[0] == h[|h| - 2] && s[1] == h[|h| - 1];
    HexValueLastTwo(h);
    HexValuePair(s);
    ModOfByteSplit(HexValue(h[..|h| - 2]), HexValue(s));
  }

  lemma ModOfByteSplit(q: nat, r: nat)
    requires r < 256
    ensures (256 * q + r) % 256 == r
  {
  }

  /** Two two-digit lowercase strings with the same value are equal. */
  lemma LowerPairUnique(s: string, t: string)
    requires |s| == 2 && |t| == 2 && AllLowerHexDigits(s) && AllLowerHexDigits(t)
    requires AllHexDigits(s) && AllHexDigits(t) && HexValue(s) == HexValue(t)
    ensures s == t
  {
    HexValuePair(s);
    HexValuePair(t);
    LowerHexDigitUnique(s[0]);
    LowerHexDigitUnique(s[1]);
    LowerHexDigitUnique(t[0]);
    LowerHexDigitUnique(t[1]);
  }

  /** The characters JavaScript's `parseInt` skips before a number: the
      ECMAScript white space and line terminators. */
  predicate IsJsWhitespace(c: char)
  {
    c in {'\t', '\n', '\U{000B}', '\U{000C}', '\r', ' ', '\U{00A0}', '\U{1680}', '\U{202F}', '\U{205F}',
          '\U{3000}', '\U{2028}', '\U{2029}', '\U{FEFF}'}
    || '\U{2000}' <= c <= '\U{200A}'
  }

  /** `parseInt`'s first step: drop the leading white space. */
  function TrimStart(s: string): (t: string)
    ensures |t| <= |s|
  {
    if s != [] && IsJsWhitespace(s[0]) then TrimStart(s[1..]) else s
  }

  /** What is dropped is white space, and what is kept is the rest. */
  lemma {:induction false} TrimStartSpec(s: string)
    ensures TrimStart(s) == s[|s| - |TrimStart(s)|..]
    ensures TrimStart(s) != [] ==> !IsJsWhitespace(TrimStart(s)[0])
    ensures forall i :: 0 <= i < |s| - |TrimStart(s)| ==> IsJsWhitespace(s[i])
  {
    if s != [] && IsJsWhitespace(s[0]) {
      TrimStartSpec(s[1..]);
    }
  }

  /** The number of leading hex digits. */
  function HexPrefixLength(s: string): (k: nat)
    ensures k <= |s| && AllHexDigits(s[..k])
    ensures k < |s| ==> !IsHexDigit(s[k])
  {
    if s == [] || !IsHexDigit(s[0]) then 0
    else
      var k := 1 + HexPrefixLength(s[1..]);
      assert s[..k] == [s[0]] + s[1..][..k - 1];
      k
  }

  /** `parseInt(s, 16)`: skip white space, take one optional sign, then one
      optional `0x`/`0X`, then the longest run of hex digits; no digit is NaN. */
  function ParseHexInt(s: string): (x: JsNumber)
    ensures s == [] ==> x == NaN
    ensures StartsBare(s) && s != [] && !IsHexDigit(s[0]) ==> x == NaN
    ensures s != [] && IsHexDigit(s[0]) && NoHexPrefix(s) ==> x.Int? && x.value >= 0
  {
    var t := TrimStart(s);
    var negative := |t| > 0 && t[0] == '-';
    var u := if |t| > 0 && (t[0] == '-' || t[0] == '+') then t[1..] else t;
    var v := if |u| >= 2 && u[0] == '0' && (u[1] == 'x' || u[1] == 'X') then u[2..] else u;
    var k := HexPrefixLength(v);
    if k == 0 then NaN
    else if negative then Int(-(HexValue(v[..k]) as int))
    else Int(HexValue(v[..k]))
  }

  /** A string made only of hex digits parses to its value; the empty
      string is NaN. */
  lemma ParseHexDigits(s: string)
    requires AllHexDigits(s)
    requires !(|s| >= 2 && s[0] == '0' && (s[1] == 'x' || s[1] == 'X'))
    ensures s == [] ==> ParseHexInt(s) == NaN
    ensures s != [] ==> ParseHexInt(s) == Int(HexValue(s))
  {
    if s != [] {
      ParseFromDigit(s);
      HexPrefixOfDigits(s, []);
      assert s + [] == s;
      assert s[..|s|] == s;
    }
  }

  /** `parseInt` inverts `toString(16)` on every byte value. */
  lemma ParseToHexRoundTrip(n: nat)
    requires n < 256
    ensures ParseHexInt(ToHex(Int(n))) == Int(n)
  {
    var s := ToHex(Int(n));
    assert IsHexDigit(s[1]);
    ParseHexDigits(s);
  }

  /** A text that `parseInt` reads from its first character: it does not
      start with white space or a sign. */
  predicate StartsBare(t: string)
  {
    t == [] || (!IsJsWhitespace(t[0]) && t[0] != '-' && t[0] != '+')
  }

  /** A text that does not start with the `0x` or `0X` prefix. */
  predicate NoHexPrefix(t: string)
  {
    !(|t| >= 2 && t[0] == '0' && (t[1] == 'x' || t[1] == 'X'))
  }

  /** `-x` of a parse result; NaN stays NaN. */
  function Negate(x: JsNumber): (y: JsNumber)
    ensures y.NaN? <==> x.NaN?
    ensures x.Int? ==> y.value == -x.value
  {
    if x.NaN? then NaN else Int(-x.value)
  }

  /** Leading white space is skipped: one more white-space character in
      front never changes the result. */
  lemma ParseSkipsWhitespace(w: char, s: string)
    requires IsJsWhitespace(w)
    ensures ParseHexInt([w] + s) == ParseHexInt(s)
  {
    assert ([w] + s)[1..] == s;
  }

  /** A minus sign in front of a bare text negates its value, and a text
      without digits stays NaN. */
  lemma ParseMinus(t: string)
    requires StartsBare(t)
    ensures ParseHexInt("-" + t) == Negate(ParseHexInt(t))
  {
    assert !IsJsWhitespace('-');
    assert ("-" + t)[1..] == t;
  }

  /** A plus sign in front of a bare text is ignored. */
  lemma ParsePlus(t: string)
    requires StartsBare(t)
    ensures ParseHexInt("+" + t) == ParseHexInt(t)
  {
    assert !IsJsWhitespace('+');
    assert ("+" + t)[1..] == t;
  }

  /** One `0x` or `0X` prefix in front of a bare text is skipped. */
  lemma ParseHexPrefix(x: char, t: string)
    requires x == 'x' || x == 'X'
    requires StartsBare(t) && NoHexPrefix(t)
    ensures ParseHexInt(['0', x] + t) == ParseHexInt(t)
  {
    assert !IsJsWhitespace('0');
    assert (['0', x] + t)[2..] == t;
  }

  /** The run of digits ends at the first character that is not one: the
      result is the value of the digits before it, whatever follows. */
  lemma ParseStopsAtFirstNonDigit(d: string, c: char, rest: string)
    requires d != [] && AllHexDigits(d) && !IsHexDigit(c)
    requires NoHexPrefix(d + [c] + rest)
    ensures ParseHexInt(d + [c] + rest) == Int(HexValue(d))
  {
    var s := d + ([c] + rest);
    assert d + [c] + rest == s;
    assert s[0] == d[0];
    HexPrefixOfDigits(d, [c] + rest);
    ParseFromDigit(s);
    assert s[..|d|] == d;
  }

  /** A text that starts with a hex digit and no `0x` is read from its
      first character: the value of its leading digits. */
  lemma ParseFromDigit(s: string)
    requires s != [] && IsHexDigit(s[0]) && NoHexPrefix(s)
    ensures ParseHexInt(s) == Int(HexValue(s[..HexPrefixLength(s)]))
  {
    assert !IsJsWhitespace(s[0]);
    assert TrimStart(s) == s;
  }

  /** Hex digits in front lengthen the run of digits by their number. */
  lemma {:induction false} HexPrefixOfDigits(d: string, e: string)
    requires AllHexDigits(d)
    requires e == [] || !IsHexDigit(e[0])
    ensures HexPrefixLength(d + e) == |d|
  {
    if d != [] {
      assert (d + e)[0] == d[0];
      assert (d + e)[1..] == d[1..] + e;
      HexPrefixOfDigits(d[1..], e);
    } else {
      assert d + e == e;
    }
  }

  /** The empty string and a bare `0x` prefix have no digit: NaN. */
  lemma ParseNaNExamples()
    ensures ParseHexInt("") == NaN
    ensures ParseHexInt("0x") == NaN
  {
    assert !IsJsWhitespace('0');
    assert TrimStart("0x") == "0x";
    assert "0x"[2..] == [];
  }

  /** Leading white space is skipped. */
  lemma ParseSpaceExample()
    ensures ParseHexInt(" f") == Int(15)
  {
    assert " f"[1..] == "f";
    assert !IsJsWhitespace('f');
    assert TrimStart("f") == "f";
    assert TrimStart(" f") == "f";
    assert "f"[1..] == [];
    assert HexPrefixLength("f") == 1;
    assert "f"[..1] == "f" && "f"[..0] == [];
  }

  /** A minus sign negates, and the digits stop at the first non-digit. */
  lemma ParseSignExample()
    ensures ParseHexInt("-f") == Int(-15)
  {
    assert !IsJsWhitespace('-');
    assert TrimStart("-f") == "-f";
    assert "-f"[1..] == "f";
    assert "f"[1..] == [];
    assert HexPrefixLength("f") == 1;
    assert "f"[..1] == "f" && "f"[..0] == [];
  }

  /** The digits stop at the first non-digit. */
  lemma ParseStopsAtNonDigit()
    ensures ParseHexInt("fz") == Int(15)
  {
    assert !IsJsWhitespace('f');
    assert TrimStart("fz") == "fz";
    assert "fz"[1..] == "z";
    assert HexPrefixLength("z") == 0;
    assert HexPrefixLength("fz") == 1;
    assert "fz"[..1] == "f" && "f"[..0] == [];
  }
}
