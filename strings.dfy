/** Small text helpers the components rely on: JavaScript's decimal
    rendering of a non-negative integer, `Array.prototype.join` and
    `String.prototype.replace` with a one-character pattern. */
module Strings {

  predicate IsDecimalDigit(c: char) { '0' <= c <= '9' }

  function DigitChar(d: nat): (c: char)
    requires d < 10
    ensures IsDecimalDigit(c)
  {
    "0123456789"[d]
  }

  /** The value of a string of decimal digits (most significant first). */
  function DecimalValue(s: string): nat
    requires forall i :: 0 <= i < |s| ==> IsDecimalDigit(s[i])
  {
    if s == [] then 0
    else
      var d := s[|s| - 1];
      assert IsDecimalDigit(d);
      10 * DecimalValue(s[..|s| - 1]) + (d as int - '0' as int)
  }

  /** `${n}` for a non-negative integer: its decimal digits, no leading zero. */
  function NatToString(n: nat): (s: string)
    ensures |s| >= 1
    ensures forall i :: 0 <= i < |s| ==> IsDecimalDigit(s[i])
    ensures DecimalValue(s) == n
    ensures |s| > 1 ==> s[0] != '0'
  {
    if n < 10 then [DigitChar(n)]
    else
      var prefix := NatToString(n / 10);
      var s := prefix + [DigitChar(n % 10)];
      assert s[..|s| - 1] == prefix;
      s
  }

  /** `parts.join(sep)`. */
  function Join(parts: seq<string>, sep: string): (s: string)
    ensures parts == [] ==> s == []
    ensures |parts| == 1 ==> s == parts[0]
    ensures |parts| >= 1 ==> |s| >= |parts[0]|
    ensures (exists i :: 0 <= i < |parts| && parts[i] != []) ==> s != []
    ensures |parts| == 2 ==> s == parts[0] + sep + parts[1]
  {
    if parts == [] then []
    else if |parts| == 1 then parts[0]
    else
      var rest := Join(parts[1..], sep);
      assert forall i :: 1 <= i < |parts| ==> parts[i] == parts[1..][i - 1];
      parts[0] + sep + rest
  }

  /** Joining one more part appends the separator and that part: the
      left-to-right reading of `join`. */
  lemma {:induction false} JoinAppend(parts: seq<string>, p: string, sep: string)
    requires parts != []
    ensures Join(parts + [p], sep) == Join(parts, sep) + sep + p
  {
    var all := parts + [p];
    if |parts| == 1 {
      assert all[1..] == [p];
    } else {
      assert all[1..] == parts[1..] + [p];
      JoinAppend(parts[1..], p, sep);
      calc {
        Join(all, sep);
        all[0] + sep + Join(parts[1..] + [p], sep);
        parts[0] + sep + (Join(parts[1..], sep) + sep + p);
        (parts[0] + sep + Join(parts[1..], sep)) + sep + p;
        Join(parts, sep) + sep + p;
      }
    }
  }

  /** The position of the first `c` in `s`. */
  function IndexOf(s: string, c: char): (k: nat)
    requires c in s
    ensures k < |s| && s[k] == c
    ensures forall j :: 0 <= j < k ==> s[j] != c
  {
    if s[0] == c then 0 else 1 + IndexOf(s[1..], c)
  }

  /** `s.replace(c, '')` with a one-character string pattern. */
  function RemoveFirst(s: string, c: char): (r: string)
    ensures |r| == |s| || |r| == |s| - 1
  {
    if s == [] then []
    else if s[0] == c then s[1..]
    else [s[0]] + RemoveFirst(s[1..], c)
  }

  /** Only the FIRST occurrence of `c` is removed, and a string without `c`
      is left as it is. */
  lemma {:induction false} RemoveFirstSpec(s: string, c: char)
    ensures c !in s ==> RemoveFirst(s, c) == s
    ensures c in s ==> RemoveFirst(s, c) == s[..IndexOf(s, c)] + s[IndexOf(s, c) + 1..]
  {
    if s != [] && s[0] != c {
      var tail := s[1..];
      RemoveFirstSpec(tail, c);
      if c in tail {
        RemoveFirstStep(s, c);
      } else {
        assert c !in s by {
          assert forall i :: 1 <= i < |s| ==> s[i] == tail[i - 1];
        }
        assert s == [s[0]] + tail;
      }
    }
  }

  /** The inductive step: the first character is kept and the occurrence
      is removed from the rest. */
  lemma RemoveFirstStep(s: string, c: char)
    requires s != [] && s[0] != c && c in s[1..]
    requires RemoveFirst(s[1..], c) == s[1..][..IndexOf(s[1..], c)] + s[1..][IndexOf(s[1..], c) + 1..]
    ensures RemoveFirst(s, c) == s[..IndexOf(s, c)] + s[IndexOf(s, c) + 1..]
  {
    var tail := s[1..];
    var k := IndexOf(tail, c);
    assert IndexOf(s, c) == k + 1;
    calc {
      RemoveFirst(s, c);
      [s[0]] + RemoveFirst(tail, c);
      [s[0]] + (tail[..k] + tail[k + 1..]);
      ([s[0]] + tail[..k]) + tail[k + 1..];
      { SliceSplit(s, k); }
      s[..k + 1] + s[k + 2..];
    }
  }

  lemma SliceSplit(s: string, k: nat)
    requires k + 2 <= |s|
    ensures s[..k + 1] == [s[0]] + s[1..][..k]
    ensures s[k + 2..] == s[1..][k + 1..]
  {
  }
}
