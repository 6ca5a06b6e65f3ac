/**
 * The string primitives the forms use: `String.prototype.trim`, `parseInt`
 * (radix 10) and `Number.prototype.toString` on integers.
 * Strings are sequences of code points here, where JavaScript counts UTF-16
 * code units; the two agree on text without astral-plane characters.
 */
module Text {
  import opened Wrappers

  /** The characters `trim` and `parseInt` skip: ECMAScript WhiteSpace and LineTerminator. */
  predicate IsSpace(c: char) {
    c == '\t' || c == '\n' || c == '\U{B}' || c == '\U{C}' || c == '\r' || c == ' '
    || c == '\U{A0}' || c == '\U{1680}' || ('\U{2000}' <= c <= '\U{200A}')
    || c == '\U{2028}' || c == '\U{2029}' || c == '\U{202F}' || c == '\U{205F}'
    || c == '\U{3000}' || c == '\U{FEFF}'
  }

  /** Every character is white space (the empty string included). */
  predicate IsBlank(s: string) {
    forall i :: 0 <= i < |s| ==> IsSpace(s[i])
  }

  /** The number of white-space characters `s` starts with. */
  function LeadingSpaces(s: string): (n: nat)
    ensures n <= |s|
    ensures IsBlank(s[..n])
    ensures n < |s| ==> !IsSpace(s[n])
    decreases |s|
  {
    if s == [] || !IsSpace(s[0]) then 0
    else
      var k := LeadingSpaces(s[1..]);
      assert s[..k + 1] == [s[0]] + s[1..][..k];
      k + 1
  }

  /** The number of white-space characters `s` ends with. */
  function TrailingSpaces(s: string): (n: nat)
    ensures n <= |s|
    ensures IsBlank(s[|s| - n..])
    ensures n < |s| ==> !IsSpace(s[|s| - n - 1])
    decreases |s|
  {
    if s == [] || !IsSpace(s[|s| - 1]) then 0
    else
      var t := s[..|s| - 1];
      var k := TrailingSpaces(t);
      assert s[|s| - (k + 1)..] == t[|t| - k..] + [s[|s| - 1]];
      k + 1
  }

  /** `r` is `s` with a blank prefix and a blank suffix removed, and `r` neither starts nor ends with white space. */
  ghost predicate IsTrimOf(r: string, s: string) {
    (r != [] ==> !IsSpace(r[0]) && !IsSpace(r[|r| - 1]))
    && exists i: nat {:trigger s[..i]} ::
         i + |r| <= |s| && s[i..i + |r|] == r && IsBlank(s[..i]) && IsBlank(s[i + |r|..])
  }

  /** `String.prototype.trim`. */
  function Trim(s: string): (r: string)
    ensures |r| <= |s|
    ensures r == "" <==> IsBlank(s)
    ensures IsTrimOf(r, s)
  {
    var i := LeadingSpaces(s);
    var k := TrailingSpaces(s[i..]);
    TrimSlice(s, i, k);
    s[i..][..|s| - i - k]
  }

  /** Cutting a blank prefix of length `i` and then a blank suffix of length `k` trims `s`. */
  lemma TrimSlice(s: string, i: nat, k: nat)
    requires i <= |s| && k <= |s| - i
    requires IsBlank(s[..i]) && (i < |s| ==> !IsSpace(s[i]))
    requires var t := s[i..]; IsBlank(t[|t| - k..]) && (k < |t| ==> !IsSpace(t[|t| - k - 1]))
    ensures var r := s[i..][..|s| - i - k]; r == "" <==> IsBlank(s)
    ensures IsTrimOf(s[i..][..|s| - i - k], s)
  {
    var t := s[i..];
    var r := t[..|t| - k];
    assert s[i..i + |r|] == r;
    assert s[i + |r|..] == t[|t| - k..];
    assert r == "" ==> k == |t| && t[|t| - k..] == t;
    assert i < |s| ==> t[0] == s[i];
    assert i == |s| ==> s[..i] == s;
  }

  /** Trimming twice is trimming once. */
  lemma TrimIdempotent(s: string)
    ensures Trim(Trim(s)) == Trim(s)
  {
    var r := Trim(s);
    if r != "" {
      assert LeadingSpaces(r) == 0;
      assert TrailingSpaces(r) == 0;
    }
  }

  /** `s.trim().slice(0, n)`: trimmed, then cut to at most `n` characters. */
  function TrimTo(s: string, n: nat): (r: string)
    ensures |r| <= n && |r| <= |Trim(s)|
    ensures r == "" <==> n == 0 || IsBlank(s)
    ensures r == Trim(s)[..|r|]
    ensures |Trim(s)| <= n ==> r == Trim(s)
  {
    var t := Trim(s);
    if |t| <= n then t else t[..n]
  }

  /** `s || undefined`: the empty string becomes `undefined`. */
  function NonEmpty(s: string): (r: Option<string>)
    ensures r.None? <==> s == ""
    ensures r.Some? ==> r.value == s
  {
    if s == "" then None else Some(s)
  }

  predicate IsDigit(c: char) {
    '0' as int <= c as int <= '9' as int
  }

  /** The length of the run of decimal digits `s` starts with. */
  function DigitRun(s: string): (n: nat)
    ensures n <= |s|
    ensures forall k :: 0 <= k < n ==> IsDigit(s[k])
    ensures n < |s| ==> !IsDigit(s[n])
    decreases |s|
  {
    if s == [] || !IsDigit(s[0]) then 0 else 1 + DigitRun(s[1..])
  }

  /** The value of a string of decimal digits, most significant first. */
  function DigitsValue(ds: string): nat
    requires forall k :: 0 <= k < |ds| ==> IsDigit(ds[k])
    decreases |ds|
  {
    if ds == [] then 0
    else
      var last := ds[|ds| - 1];
      assert IsDigit(last);
      10 * DigitsValue(ds[..|ds| - 1]) + (last as int - '0' as int)
  }

  /** After its leading white space, `s` has a digit, or a sign followed by a digit. */
  predicate HasLeadingNumber(s: string) {
    exists i :: 0 <= i < |s| && IsBlank(s[..i])
                && (IsDigit(s[i]) || (i + 1 < |s| && (s[i] == '-' || s[i] == '+') && IsDigit(s[i + 1])))
  }

  /** A sign or a digit at the start of `t`, followed by a digit in the first case. */
  predicate StartsWithNumber(t: string) {
    |t| > 0 && (IsDigit(t[0]) || (|t| > 1 && (t[0] == '-' || t[0] == '+') && IsDigit(t[1])))
  }

  /** The only place a leading number can start is right after the leading white space. */
  lemma LeadingNumberAt(s: string)
    ensures HasLeadingNumber(s) <==> StartsWithNumber(s[LeadingSpaces(s)..])
  {
    var n := LeadingSpaces(s);
    if HasLeadingNumber(s) {
      var i :| 0 <= i < |s| && IsBlank(s[..i])
               && (IsDigit(s[i]) || (i + 1 < |s| && (s[i] == '-' || s[i] == '+') && IsDigit(s[i + 1])));
      FirstNonSpace(s, i);
      assert s[n..][0] == s[i];
    }
    if StartsWithNumber(s[n..]) {
      assert s[n..][0] == s[n];
      assert IsBlank(s[..n]);
    }
  }

  /** A non-space character after white space only is where the leading white space ends. */
  lemma FirstNonSpace(s: string, i: nat)
    requires i < |s| && IsBlank(s[..i]) && !IsSpace(s[i])
    ensures i == LeadingSpaces(s)
  {
    var n := LeadingSpaces(s);
    assert forall k :: 0 <= k < i ==> IsSpace(s[k]) by {
      forall k | 0 <= k < i ensures IsSpace(s[k]) {
        assert s[..i][k] == s[k];
      }
    }
    assert forall k :: 0 <= k < n ==> IsSpace(s[k]) by {
      forall k | 0 <= k < n ensures IsSpace(s[k]) {
        assert s[..n][k] == s[k];
      }
    }
  }

  /**
   * An optional sign, then the longest run of decimal digits, at the start
   * of `t`; `None` when there is no digit there.
   */
  function ParseSigned(t: string): (r: Option<int>)
    ensures r.None? <==> !StartsWithNumber(t)
    ensures r.Some? && r.value < 0 ==> t[0] == '-'
  {
    var negative := |t| > 0 && t[0] == '-';
    var u := if |t| > 0 && (t[0] == '-' || t[0] == '+') then t[1..] else t;
    var n := DigitRun(u);
    if n == 0 then None
    else
      var v: int := DigitsValue(u[..n]);
      Some(if negative then -v else v)
  }

  /**
   * `parseInt(s)` with no radix on decimal input: leading white space is
   * skipped, then an optional sign, then the longest run of decimal digits;
   * `None` stands for `NaN` (no digit there). The `0x` hexadecimal prefix is
   * not part of this model.
   */
  function ParseInt(s: string): (r: Option<int>)
    ensures r.None? <==> !HasLeadingNumber(s)
    ensures r.Some? && r.value < 0 ==> s[LeadingSpaces(s)] == '-'
  {
    LeadingNumberAt(s);
    ParseSigned(s[LeadingSpaces(s)..])
  }

  function DigitChar(d: nat): (c: char)
    requires d < 10
    ensures IsDigit(c) && c as int - '0' as int == d
  {
    ('0' as int + d) as char
  }

  /** The decimal rendering of a natural number, without leading zeros. */
  function NatToString(n: nat): (s: string)
    ensures s != []
    ensures forall k :: 0 <= k < |s| ==> IsDigit(s[k])
    decreases n
  {
    if n < 10 then [DigitChar(n)] else NatToString(n / 10) + [DigitChar(n % 10)]
  }

  /** `Number.prototype.toString` on an integer of ordinary size. */
  function IntToString(i: int): (s: string)
    ensures s != [] && (s[0] == '-' <==> i < 0)
    ensures forall k :: (if i < 0 then 1 else 0) <= k < |s| ==> IsDigit(s[k])
  {
    if i < 0 then "-" + NatToString(-i) else NatToString(i)
  }

  /** Reading back a rendered natural number gives the number. */
  lemma {:induction false} DigitsValueOfNatToString(n: nat)
    ensures DigitsValue(NatToString(n)) == n
    decreases n
  {
    if n >= 10 {
      DigitsValueOfNatToString(n / 10);
      var s := NatToString(n);
      assert s[..|s| - 1] == NatToString(n / 10);
    }
  }

  /** `parseInt(String(i)) === i` for every integer `i`. */
  lemma ParseIntOfIntToString(i: int)
    ensures ParseInt(IntToString(i)) == Some(i)
  {
    var s := IntToString(i);
    var digits := NatToString(if i < 0 then -i else i);
    assert LeadingSpaces(s) == 0 by {
      assert s[0] == '-' || IsDigit(s[0]);
    }
    assert s[0..] == s;
    var u := if i < 0 then s[1..] else s;
    assert u == digits;
    assert DigitRun(u) == |u| by {
      DigitRunAll(u);
    }
    assert u[..|u|] == u;
    DigitsValueOfNatToString(if i < 0 then -i else i);
  }

  /** `parseInt` skips a leading white-space character. */
  lemma ParseIntSkipsSpace(c: char, s: string)
    requires IsSpace(c)
    ensures ParseInt([c] + s) == ParseInt(s)
  {
    var t := [c] + s;
    assert t[0] == c && t[1..] == s;
    assert LeadingSpaces(t) == 1 + LeadingSpaces(s);
    assert t[LeadingSpaces(t)..] == s[LeadingSpaces(s)..];
  }

  /** A string made only of digits is one digit run. */
  lemma {:induction false} DigitRunAll(s: string)
    requires forall k :: 0 <= k < |s| ==> IsDigit(s[k])
    ensures DigitRun(s) == |s|
    decreases |s|
  {
    if s != [] {
      DigitRunAll(s[1..]);
    }
  }
}
