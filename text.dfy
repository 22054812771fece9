/**
 * The JavaScript string operations the client relies on: `toLowerCase`
 * (ASCII letters only), `trim`, `includes`, `Array.prototype.join`,
 * number-to-string conversion of integers and `parseInt(s, 10)`.
 */
module Text {
  import opened Wrappers

  /** JavaScript's white space and line terminators, less the other Unicode space separators. */
  predicate IsSpace(c: char) {
    c == ' ' || c == '\t' || c == '\n' || c == '\r' || c == '\U{0B}' || c == '\U{0C}'
    || c == '\U{A0}' || c == '\U{FEFF}' || c == '\U{2028}' || c == '\U{2029}'
  }

  function LowerChar(c: char): (r: char)
    ensures 'A' <= c <= 'Z' ==> 'a' <= r <= 'z' && r as int - c as int == 'a' as int - 'A' as int
    ensures !('A' <= c <= 'Z') ==> r == c
  {
    if 'A' <= c <= 'Z' then (c as int - 'A' as int + 'a' as int) as char else c
  }

  /** `s.toLowerCase()` on ASCII letters: same length, no upper-case ASCII letter left. */
  function Lower(s: string): (r: string)
    ensures |r| == |s|
    ensures forall i :: 0 <= i < |s| ==> r[i] == LowerChar(s[i])
    ensures forall i :: 0 <= i < |r| ==> !('A' <= r[i] <= 'Z')
  {
    if s == [] then [] else [LowerChar(s[0])] + Lower(s[1..])
  }

  /** Drops the leading white space of `s`. */
  function TrimStart(s: string): (r: string)
    ensures |r| <= |s| && r == s[|s| - |r|..]
    ensures forall i :: 0 <= i < |s| - |r| ==> IsSpace(s[i])
    ensures r != [] ==> !IsSpace(r[0])
  {
    if s != [] && IsSpace(s[0]) then
      var r := TrimStart(s[1..]);
      assert s[1..][|s| - 1 - |r|..] == s[|s| - |r|..];
      assert forall i :: 1 <= i < |s| - |r| ==> s[i] == s[1..][i - 1];
      r
    else s
  }

  /** Drops the trailing white space of `s`. */
  function TrimEnd(s: string): (r: string)
    ensures |r| <= |s| && r == s[..|r|]
    ensures forall i :: |r| <= i < |s| ==> IsSpace(s[i])
    ensures r != [] ==> !IsSpace(r[|r| - 1])
  {
    if s != [] && IsSpace(s[|s| - 1]) then
      var r := TrimEnd(s[..|s| - 1]);
      assert forall i :: |r| <= i < |s| - 1 ==> s[i] == s[..|s| - 1][i];
      r
    else s
  }

  /** `s.trim()`. */
  function Trim(s: string): string {
    TrimEnd(TrimStart(s))
  }

  /** `s.trim()` is empty exactly when `s` is all white space. */
  lemma TrimEmpty(s: string)
    ensures Trim(s) == [] <==> forall i :: 0 <= i < |s| ==> IsSpace(s[i])
  {
    var a := TrimStart(s);
    if Trim(s) == [] {
      forall i | 0 <= i < |s| ensures IsSpace(s[i]) {
        if i >= |s| - |a| {
          assert s[i] == a[i - (|s| - |a|)];
        }
      }
    } else {
      var r := Trim(s);
      assert r[0] == a[0] && !IsSpace(a[0]);
      assert s[|s| - |a|] == a[0];
    }
  }

  /** `needle` occurs in `hay` starting at index `i`. */
  predicate OccursAt(hay: string, needle: string, i: nat) {
    i + |needle| <= |hay| && hay[i..i + |needle|] == needle
  }

  /** `hay.includes(needle)`. */
  predicate Contains(hay: string, needle: string) {
    exists i: nat :: i <= |hay| && OccursAt(hay, needle, i)
  }

  /** A needle found in one part of a concatenation is found in the whole. */
  lemma ContainsInPart(a: string, b: string, needle: string)
    requires Contains(a, needle) || Contains(b, needle)
    ensures Contains(a + b, needle)
  {
    if Contains(a, needle) {
      var i: nat :| i <= |a| && OccursAt(a, needle, i);
      assert (a + b)[i..i + |needle|] == needle;
      assert OccursAt(a + b, needle, i);
    } else {
      var i: nat :| i <= |b| && OccursAt(b, needle, i);
      assert (a + b)[|a| + i..|a| + i + |needle|] == needle;
      assert OccursAt(a + b, needle, |a| + i);
    }
  }

  /** A slice that lies inside the left part of a concatenation. */
  lemma SliceOfLeft(a: string, b: string, i: nat, n: nat)
    requires i + n <= |a|
    ensures (a + b)[i..i + n] == a[i..i + n]
  {
  }

  /** A slice that lies inside the right part of a concatenation. */
  lemma SliceOfRight(a: string, b: string, j: nat, n: nat)
    requires j + n <= |b|
    ensures (a + b)[|a| + j..|a| + j + n] == b[j..j + n]
  {
  }

  /** `parts.join(sep)`. */
  function Join(parts: seq<string>, sep: string): (r: string)
    ensures |parts| == 1 ==> r == parts[0]
  {
    if parts == [] then ""
    else if |parts| == 1 then parts[0]
    else parts[0] + sep + Join(parts[1..], sep)
  }

  predicate IsDigit(c: char) {
    '0' <= c <= '9'
  }

  function DigitChar(d: nat): (c: char)
    requires d < 10
    ensures IsDigit(c) && c as int - '0' as int == d
  {
    ('0' as int + d) as char
  }

  /** The decimal digits of `n`, without leading zeros. */
  function NatToString(n: nat): (r: string)
    ensures r != [] && forall i :: 0 <= i < |r| ==> IsDigit(r[i])
  {
    if n < 10 then [DigitChar(n)] else NatToString(n / 10) + [DigitChar(n % 10)]
  }

  /** `String(n)` for an integer `n`. */
  function IntToString(n: int): (r: string)
    ensures r != []
  {
    if n < 0 then "-" + NatToString(-n) else NatToString(n)
  }

  /** The value of a run of decimal digits. */
  function DigitsValue(d: string): (v: nat)
    requires forall i :: 0 <= i < |d| ==> IsDigit(d[i])
  {
    if d == [] then 0 else
      assert IsDigit(d[|d| - 1]);
      DigitsValue(d[..|d| - 1]) * 10 + (d[|d| - 1] as int - '0' as int)
  }

  /** The longest prefix of `s` made of decimal digits. */
  function LeadingDigits(s: string): (r: string)
    ensures |r| <= |s| && r == s[..|r|]
    ensures forall i :: 0 <= i < |r| ==> IsDigit(r[i])
    ensures |r| < |s| ==> !IsDigit(s[|r|])
  {
    if s != [] && IsDigit(s[0]) then [s[0]] + LeadingDigits(s[1..]) else []
  }

  /** The digits after an optional sign, and the sign they carry. */
  function UnsignedPart(s: string): (string, int) {
    if s != [] && s[0] == '-' then (s[1..], -1)
    else if s != [] && s[0] == '+' then (s[1..], 1)
    else (s, 1)
  }

  /**
   * `parseInt(s, 10)`: white space is skipped, one sign is read, then the
   * longest run of digits; `None` is NaN (no digit at all).
   */
  function ParseInt10(s: string): (r: Option<int>)
    ensures r.None? <==> LeadingDigits(UnsignedPart(TrimStart(s)).0) == []
  {
    var (body, sign) := UnsignedPart(TrimStart(s));
    var digits := LeadingDigits(body);
    if digits == [] then None else Some(sign * DigitsValue(digits))
  }

  lemma {:induction false} NatToStringValue(n: nat)
    ensures DigitsValue(NatToString(n)) == n
  {
    var r := NatToString(n);
    if n >= 10 {
      NatToStringValue(n / 10);
      assert r[..|r| - 1] == NatToString(n / 10);
    }
  }

  lemma {:induction false} AllDigitsLead(s: string)
    requires forall i :: 0 <= i < |s| ==> IsDigit(s[i])
    ensures LeadingDigits(s) == s
  {
    if s != [] {
      AllDigitsLead(s[1..]);
    }
  }

  lemma NoLeadingSpace(s: string)
    requires s != [] && !IsSpace(s[0])
    ensures TrimStart(s) == s
  {
  }

  /** The sign and the digits `String(n)` writes are read back by the sign step of `parseInt`. */
  lemma SignRead(n: int)
    ensures var m: nat := if n < 0 then -n else n;
            TrimStart(IntToString(n)) == IntToString(n)
            && UnsignedPart(IntToString(n)) == (NatToString(m), if n < 0 then -1 else 1)
  {
    var m: nat := if n < 0 then -n else n;
    var digits := NatToString(m);
    assert IsDigit(digits[0]);
    NoLeadingSpace(IntToString(n));
  }

  /** Reading back what `String(n)` wrote gives `n`. */
  lemma ParseIntRoundTrip(n: int)
    ensures ParseInt10(IntToString(n)) == Some(n)
  {
    var m: nat := if n < 0 then -n else n;
    var sign := if n < 0 then -1 else 1;
    var digits := NatToString(m);
    SignRead(n);
    AllDigitsLead(digits);
    NatToStringValue(m);
    assert LeadingDigits(UnsignedPart(TrimStart(IntToString(n))).0) == digits;
    assert sign * DigitsValue(digits) == n;
  }
}
