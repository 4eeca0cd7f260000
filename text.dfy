/**
 * String helpers the JavaScript code gets from its runtime: number-to-text
 * conversion, `padStart`, `join`, `trim`, `toLowerCase` and `includes`.
 */
module Text {

  predicate IsDigit(c: char) { '0' <= c <= '9' }

  predicate AllDigits(s: string) { forall i :: 0 <= i < |s| ==> IsDigit(s[i]) }

  function DigitChar(d: nat): (c: char)
    requires d < 10
    ensures IsDigit(c) && c as int - '0' as int == d
  {
    (d + '0' as int) as char
  }

  /** The number a digit string denotes (most significant digit first). */
  function DigitsValue(s: string): nat
    requires AllDigits(s)
  {
    if s == [] then 0 else 10 * DigitsValue(s[..|s| - 1]) + (s[|s| - 1] as int - '0' as int)
  }

  /** `String(n)` for a non-negative integer: canonical decimal digits. */
  function NatToString(n: nat): (s: string)
    ensures |s| >= 1 && AllDigits(s) && DigitsValue(s) == n
    ensures s[0] == '0' ==> s == "0"
    ensures n < 10 ==> |s| == 1
    ensures 10 <= n < 100 ==> |s| == 2
    decreases n
  {
    if n < 10 then [DigitChar(n)]
    else
      var prefix := NatToString(n / 10);
      var s := prefix + [DigitChar(n % 10)];
      assert s[..|s| - 1] == prefix;
      s
  }

  /** `String(i)` for any integer. */
  function IntToString(i: int): (s: string)
    ensures |s| >= 1
    ensures i >= 0 ==> AllDigits(s) && DigitsValue(s) == i
    ensures i < 0 ==> s[0] == '-' && AllDigits(s[1..]) && DigitsValue(s[1..]) == -i
  {
    if i < 0 then "-" + NatToString(-i) else NatToString(i)
  }

  /** `n.toString().padStart(2, '0')`. */
  function Pad2(n: nat): (s: string)
    ensures AllDigits(s) && DigitsValue(s) == n
    ensures n < 100 ==> |s| == 2
  {
    var t := NatToString(n);
    if |t| < 2 then
      var s := "0" + t;
      assert s[..|s| - 1] == "0";
      s
    else t
  }

  /** `parts.join(sep)`. */
  function Join(parts: seq<string>, sep: string): string
  {
    if |parts| == 0 then ""
    else if |parts| == 1 then parts[0]
    else parts[0] + sep + Join(parts[1..], sep)
  }

  /** The characters of the JavaScript `\s` class, which are also those `trim` removes. */
  predicate IsJsSpace(c: char)
  {
    c == ' ' || c == '\t' || c == '\n' || c == '\r' || c == '\U{B}' || c == '\U{C}'
    || c == '\U{A0}' || c == '\U{1680}' || ('\U{2000}' <= c <= '\U{200A}')
    || c == '\U{2028}' || c == '\U{2029}' || c == '\U{202F}' || c == '\U{205F}'
    || c == '\U{3000}' || c == '\U{FEFF}'
  }

  function TrimStart(s: string): (r: string)
    ensures |r| <= |s| && r == s[|s| - |r|..]
    ensures r != [] ==> !IsJsSpace(r[0])
    ensures forall i :: 0 <= i < |s| - |r| ==> IsJsSpace(s[i])
  {
    if s != [] && IsJsSpace(s[0]) then TrimStart(s[1..]) else s
  }

  function TrimEnd(s: string): (r: string)
    ensures |r| <= |s| && r == s[..|r|]
    ensures r != [] ==> !IsJsSpace(r[|r| - 1])
    ensures forall i :: |r| <= i < |s| ==> IsJsSpace(s[i])
  {
    if s != [] && IsJsSpace(s[|s| - 1]) then TrimEnd(s[..|s| - 1]) else s
  }

  /** `s.trim()`. */
  function Trim(s: string): string
  {
    TrimEnd(TrimStart(s))
  }

  /** A field is blank after `trim()` exactly when it consists of whitespace only. */
  lemma TrimIsEmptyIffBlank(s: string)
    ensures Trim(s) == [] <==> forall i :: 0 <= i < |s| ==> IsJsSpace(s[i])
  {
    var l := TrimStart(s);
    if Trim(s) == [] {
      forall i | 0 <= i < |s| ensures IsJsSpace(s[i]) {
        if i >= |s| - |l| {
          assert l[i - (|s| - |l|)] == s[i];
        }
      }
    } else {
      var t := Trim(s);
      assert t[0] == l[0] == s[|s| - |l|];
    }
  }

  /** ASCII case folding, the part of `toLowerCase` the model keeps. */
  function LowerChar(c: char): char
  {
    if 'A' <= c <= 'Z' then (c as int + 32) as char else c
  }

  function Lower(s: string): (r: string)
    ensures |r| == |s| && forall i :: 0 <= i < |s| ==> r[i] == LowerChar(s[i])
  {
    seq(|s|, i requires 0 <= i < |s| => LowerChar(s[i]))
  }

  predicate OccursAt(s: string, sub: string, i: int)
  {
    0 <= i && i + |sub| <= |s| && s[i..i + |sub|] == sub
  }

  /** `s.includes(sub)`. */
  predicate Contains(s: string, sub: string)
  {
    exists i :: 0 <= i <= |s| && OccursAt(s, sub, i)
  }

  lemma ContainsEmpty(s: string)
    ensures Contains(s, "")
  {
    assert OccursAt(s, "", 0);
  }
}
