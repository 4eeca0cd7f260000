/**
 * `decodeURIComponent` (section 19.2.6.2 of ECMA-262, the Decode operation
 * of section 19.2.6.1.2 with an empty reserved set): every `%XY` escape is
 * read as an octet, runs of octets are read as UTF-8, and anything malformed
 * throws `URIError`. The server applies it to route parameters that the
 * router has already decoded once.
 */
module Uri {
  import opened Wrappers

  predicate IsHex(c: char) { '0' <= c <= '9' || 'a' <= c <= 'f' || 'A' <= c <= 'F' }

  function HexValue(c: char): (v: nat)
    requires IsHex(c)
    ensures v < 16
  {
    if c <= '9' then c as int - '0' as int
    else if c >= 'a' then c as int - 'a' as int + 10
    else c as int - 'A' as int + 10
  }

  /** The octet written as `%XY` at position `k`, when there is one. */
  function OctetAt(s: string, k: nat): (r: Option<nat>)
    ensures r.Some? <==> k + 3 <= |s| && s[k] == '%' && IsHex(s[k + 1]) && IsHex(s[k + 2])
    ensures r.Some? ==> r.value == 16 * HexValue(s[k + 1]) + HexValue(s[k + 2]) < 256
  {
    if k + 3 <= |s| && s[k] == '%' && IsHex(s[k + 1]) && IsHex(s[k + 2])
    then Some(16 * HexValue(s[k + 1]) + HexValue(s[k + 2]))
    else None
  }

  /** The six payload bits of a continuation octet `10xxxxxx` written at `k`. */
  function ContinuationAt(s: string, k: nat): (r: Option<nat>)
    ensures r.Some? <==> OctetAt(s, k).Some? && 0x80 <= OctetAt(s, k).value < 0xC0
    ensures r.Some? ==> r.value == OctetAt(s, k).value - 0x80 < 64 && k + 3 <= |s|
  {
    match OctetAt(s, k)
    case Some(b) => if 0x80 <= b < 0xC0 then Some(b - 0x80) else None
    case None => None
  }

  /** A Unicode scalar value (no surrogate, at most U+10FFFF) as a character. */
  function Scalar(cp: int): (r: Option<char>)
    ensures r.Some? <==> 0 <= cp < 0xD800 || 0xE000 <= cp < 0x11_0000
    ensures r.Some? ==> r.value as int == cp
  {
    if 0 <= cp < 0xD800 || 0xE000 <= cp < 0x11_0000 then Some(cp as char) else None
  }

  /**
   * The character of a UTF-8 sequence `width` escapes long whose code point
   * is `cp`; `None` for an overlong form (below `least`), a surrogate or a
   * value past U+10FFFF.
   */
  function Sequence(cp: int, least: int, width: nat): (r: Option<(char, nat)>)
    ensures r.Some? <==> least <= cp && Scalar(cp).Some?
    ensures r.Some? ==> r.value == (Scalar(cp).value, width)
  {
    if cp < least then None
    else match Scalar(cp)
      case None => None
      case Some(c) => Some((c, width))
  }

  /**
   * The character encoded by the escapes starting at `k`, with the number of
   * text characters they take (3 per octet). A lead octet `10xxxxxx` or
   * `11111xxx`, a missing or malformed continuation, and an invalid code
   * point all give `None`.
   */
  function EscapeAt(s: string, k: nat): (r: Option<(char, nat)>)
    ensures r.Some? ==> r.value.1 in {3, 6, 9, 12} && k + r.value.1 <= |s|
    ensures OctetAt(s, k).Some? && OctetAt(s, k).value < 0x80 ==> r == Some((OctetAt(s, k).value as char, 3))
    ensures OctetAt(s, k).None? ==> r.None?
  {
    match OctetAt(s, k)
    case None => None
    case Some(b0) =>
      if b0 < 0x80 then Some((b0 as char, 3))
      else if b0 < 0xC0 || 0xF8 <= b0 then None
      else match ContinuationAt(s, k + 3)
        case None => None
        case Some(b1) =>
          if b0 < 0xE0 then Sequence((b0 - 0xC0) * 64 + b1, 0x80, 6)
          else match ContinuationAt(s, k + 6)
            case None => None
            case Some(b2) =>
              if b0 < 0xF0 then Sequence(((b0 - 0xE0) * 64 + b1) * 64 + b2, 0x800, 9)
              else match ContinuationAt(s, k + 9)
                case None => None
                case Some(b3) => Sequence((((b0 - 0xF0) * 64 + b1) * 64 + b2) * 64 + b3, 0x1_0000, 12)
  }

  /** `decodeURIComponent` of `s[k..]`; `None` is the thrown `URIError`. */
  function DecodeFrom(s: string, k: nat): (r: Option<string>)
    requires k <= |s|
    ensures r.Some? ==> |r.value| <= |s| - k
    decreases |s| - k
  {
    if k == |s| then Some("")
    else if s[k] != '%' then
      match DecodeFrom(s, k + 1)
      case None => None
      case Some(rest) => Some([s[k]] + rest)
    else
      match EscapeAt(s, k)
      case None => None
      case Some((c, width)) =>
        match DecodeFrom(s, k + width)
        case None => None
        case Some(rest) => Some([c] + rest)
  }

  /** `decodeURIComponent(s)`: never longer than `s`; `None` when it throws. */
  function DecodeUriComponent(s: string): (r: Option<string>)
    ensures r.Some? ==> |r.value| <= |s|
  {
    DecodeFrom(s, 0)
  }

  /** A text without `%` decodes to itself. */
  lemma {:induction false} DecodeFromWithoutPercent(s: string, k: nat)
    requires k <= |s| && forall i :: k <= i < |s| ==> s[i] != '%'
    ensures DecodeFrom(s, k) == Some(s[k..])
    decreases |s| - k
  {
    if k < |s| {
      DecodeFromWithoutPercent(s, k + 1);
      assert s[k..] == [s[k]] + s[k + 1..];
    }
  }

  /** Every name without a `%` survives the second decoding unchanged. */
  lemma DecodeWithoutPercent(s: string)
    requires forall i :: 0 <= i < |s| ==> s[i] != '%'
    ensures DecodeUriComponent(s) == Some(s)
  {
    DecodeFromWithoutPercent(s, 0);
    assert s[0..] == s;
  }

  /**
   * A `%` not followed by two hex digits makes the decoding throw, whatever
   * precedes it: `decodeURIComponent("50% off")` is a `URIError`.
   */
  lemma {:induction false} BarePercentThrows(s: string, k: nat, p: nat)
    requires k <= p < |s| && s[p] == '%' && OctetAt(s, p).None?
    requires forall i :: k <= i < p ==> s[i] != '%'
    ensures DecodeFrom(s, k) == None
    decreases p - k
  {
    if k < p {
      BarePercentThrows(s, k + 1, p);
    }
  }

  const HexDigits: string := "0123456789ABCDEF"

  /** The escape `encodeURIComponent` writes for one octet: `%` and two upper-case hex digits. */
  function EscapeAscii(c: char): (r: string)
    requires c as int < 0x80
    ensures |r| == 3 && r[0] == '%'
  {
    ['%', HexDigits[c as int / 16], HexDigits[c as int % 16]]
  }

  /** Every character of a text escaped. */
  function EscapeAll(s: string): (r: string)
    requires forall i :: 0 <= i < |s| ==> s[i] as int < 0x80
    ensures |r| == 3 * |s|
  {
    if s == [] then "" else EscapeAscii(s[0]) + EscapeAll(s[1..])
  }

  lemma HexDigitValue(d: nat)
    requires d < 16
    ensures IsHex(HexDigits[d]) && HexValue(HexDigits[d]) == d
  {
  }

  lemma OctetShift(p: string, t: string, i: nat)
    ensures OctetAt(p + t, |p| + i) == OctetAt(t, i)
  {
    if i + 3 <= |t| {
      assert (p + t)[|p| + i] == t[i] && (p + t)[|p| + i + 1] == t[i + 1] && (p + t)[|p| + i + 2] == t[i + 2];
    }
  }

  /** Decoding is unchanged by text in front of the position it starts at. */
  lemma {:induction false} DecodeFromShift(p: string, t: string, k: nat)
    requires k <= |t|
    ensures DecodeFrom(p + t, |p| + k) == DecodeFrom(t, k)
    decreases |t| - k
  {
    var s := p + t;
    if k < |t| {
      assert s[|p| + k] == t[k];
      if t[k] != '%' {
        DecodeFromShift(p, t, k + 1);
      } else {
        OctetShift(p, t, k);
        OctetShift(p, t, k + 3);
        OctetShift(p, t, k + 6);
        OctetShift(p, t, k + 9);
        assert EscapeAt(s, |p| + k) == EscapeAt(t, k);
        match EscapeAt(t, k)
        case None =>
        case Some((c, width)) =>
          DecodeFromShift(p, t, k + width);
      }
    }
  }

  /** Escaping every character of an ASCII text and decoding gives the text back. */
  lemma {:induction false} DecodeEscapeAll(s: string)
    requires forall i :: 0 <= i < |s| ==> s[i] as int < 0x80
    ensures DecodeUriComponent(EscapeAll(s)) == Some(s)
  {
    if s != [] {
      var head := EscapeAscii(s[0]);
      var tail := EscapeAll(s[1..]);
      var b := s[0] as int;
      HexDigitValue(b / 16);
      HexDigitValue(b % 16);
      assert OctetAt(head + tail, 0) == Some(b);
      DecodeEscapeAll(s[1..]);
      DecodeFromShift(head, tail, 0);
      assert tail[0..] == tail;
      assert s == [s[0]] + s[1..];
    }
  }

  /** The three decodings the category routes meet. */
  lemma DecodeExamples()
    ensures DecodeUriComponent("Food") == Some("Food")
    ensures DecodeUriComponent("a%20b") == Some("a b")
    ensures DecodeUriComponent("50% off") == None
  {
    DecodeWithoutPercent("Food");
    BarePercentThrows("50% off", 0, 2);
    var s := "a%20b";
    assert EscapeAt(s, 1) == Some((' ', 3));
    assert DecodeFrom(s, 5) == Some("");
    assert s[4] == 'b' && [s[4]] + "" == "b";
    assert DecodeFrom(s, 4) == Some("b");
    assert [' '] + "b" == " b";
    assert DecodeFrom(s, 1) == Some(" b");
    assert s[0] == 'a' && [s[0]] + " b" == "a b";
  }
}
