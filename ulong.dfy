/**
 * Unsigned 64-bit user ids as the commands read them from free text:
 * `ulong.TryParse` (number style `Integer`), `string.Trim()` and
 * `string.IsNullOrWhiteSpace`, and the decimal `ToString()` that the
 * commands print an id with.
 */
module ULong {
  import opened Wrappers

  const ULONG_MAX: nat := 18446744073709551615

  /** `ulong`: the ids of Discord users, channels, guilds and webhooks. */
  type ulong = x: nat | x <= ULONG_MAX

  /** `char.IsWhiteSpace`: the Unicode white-space characters. */
  predicate IsWhiteSpace(c: char)
  {
    || '\t' <= c <= '\r'
    || c == ' ' || c == '\U{85}' || c == '\U{A0}' || c == '\U{1680}'
    || '\U{2000}' <= c <= '\U{200A}'
    || c == '\U{2028}' || c == '\U{2029}' || c == '\U{202F}' || c == '\U{205F}' || c == '\U{3000}'
  }

  /** The white space number parsing skips around the digits: U+0009..U+000D and U+0020. */
  predicate IsParseWhite(c: char)
  {
    '\t' <= c <= '\r' || c == ' '
  }

  /** Drops the leading characters that satisfy `w`. */
  function TrimStart(s: string, w: char -> bool): (r: string)
    ensures |r| <= |s| && r == s[|s| - |r|..]
    ensures r == [] || !w(r[0])
    ensures forall i :: 0 <= i < |s| - |r| ==> w(s[i])
  {
    if s != [] && w(s[0]) then TrimStart(s[1..], w) else s
  }

  /** Drops the trailing characters that satisfy `w`. */
  function TrimEnd(s: string, w: char -> bool): (r: string)
    ensures |r| <= |s| && r == s[..|r|]
    ensures r == [] || !w(r[|r| - 1])
    ensures forall i :: |r| <= i < |s| ==> w(s[i])
  {
    if s != [] && w(s[|s| - 1]) then TrimEnd(s[..|s| - 1], w) else s
  }

  /** `s.Trim()`. */
  function Trim(s: string): string
  {
    TrimEnd(TrimStart(s, IsWhiteSpace), IsWhiteSpace)
  }

  /** `string.IsNullOrWhiteSpace(s)`. */
  predicate IsNullOrWhiteSpace(s: Option<string>)
  {
    s.None? || forall i :: 0 <= i < |s.value| ==> IsWhiteSpace(s.value[i])
  }

  predicate IsDigit(c: char)
  {
    '0' <= c <= '9'
  }

  predicate AllDigits(s: string)
  {
    forall i :: 0 <= i < |s| ==> IsDigit(s[i])
  }

  /** The number that a string of decimal digits denotes, read most significant first. */
  function DigitsValue(ds: string): nat
    requires AllDigits(ds)
  {
    if ds == [] then 0 else DigitsValue(ds[..|ds| - 1]) * 10 + (ds[|ds| - 1] as int - '0' as int)
  }

  /**
   * `ulong.TryParse(s, out v)`: optional parse white space, an optional `+` or
   * `-` sign, one or more decimal digits, optional parse white space. A value
   * above `ulong.MaxValue` fails, and so does a minus sign before anything but
   * zero (`-0` parses as 0).
   */
  function TryParse(s: string): Option<ulong>
  {
    var t := TrimEnd(TrimStart(s, IsParseWhite), IsParseWhite);
    var signed := |t| > 0 && (t[0] == '+' || t[0] == '-');
    var ds := if signed then t[1..] else t;
    if |ds| == 0 || !AllDigits(ds) then None
    else
      var v := DigitsValue(ds);
      if v > ULONG_MAX then None
      else if signed && t[0] == '-' && v != 0 then None
      else Some(v)
  }

  /** `n.ToString()`: decimal digits without leading zeros. */
  function ToDecimal(n: nat): (s: string)
    ensures |s| > 0 && AllDigits(s)
    ensures n > 0 ==> s[0] != '0'
  {
    if n < 10 then [('0' as int + n) as char]
    else ToDecimal(n / 10) + [('0' as int + n % 10) as char]
  }

  /** The digits of `ToDecimal(n)` denote `n`. */
  lemma {:induction false} ToDecimalValue(n: nat)
    ensures DigitsValue(ToDecimal(n)) == n
  {
    if n >= 10 {
      var s := ToDecimal(n);
      assert s[..|s| - 1] == ToDecimal(n / 10);
      ToDecimalValue(n / 10);
    }
  }

  /** Parsing an id printed with `ToString()` gives the id back. */
  lemma TryParseToDecimal(n: ulong)
    ensures TryParse(ToDecimal(n)) == Some(n)
  {
    var s := ToDecimal(n);
    assert !IsParseWhite(s[0]) && !IsParseWhite(s[|s| - 1]);
    assert TrimStart(s, IsParseWhite) == s;
    assert TrimEnd(s, IsParseWhite) == s;
    assert s[0] != '+' && s[0] != '-';
    ToDecimalValue(n);
  }

  /** An id needs a digit: empty and all-white-space strings are refused. */
  lemma TryParseNeedsDigit(s: string)
    requires TryParse(s).Some?
    ensures exists i :: 0 <= i < |s| && IsDigit(s[i])
  {
    var t := TrimEnd(TrimStart(s, IsParseWhite), IsParseWhite);
    var t0 := TrimStart(s, IsParseWhite);
    var k := if t[0] == '+' || t[0] == '-' then 1 else 0;
    assert IsDigit(t[k]);
    assert t[k] == t0[k];
    assert t0[k] == s[|s| - |t0| + k];
  }
}
