/** The two URL encoders the handlers rely on: `encodeURIComponent` (ECMA-262,
    section 19.2.6.5) for the `error` query value of the billing redirects, and the
    application/x-www-form-urlencoded serializer behind `URLSearchParams.set`
    (WHATWG URL Standard, section 5.2) for the `shop` value of the install
    redirect. Both percent-encode the UTF-8 bytes of every character outside
    their safe set with upper-case hex digits. */
module UrlEncoding {
  import opened Wrappers
  import Utf8

  const HexDigits: string := "0123456789ABCDEF"

  predicate IsAsciiAlphanumeric(c: char) {
    ('A' <= c <= 'Z') || ('a' <= c <= 'z') || ('0' <= c <= '9')
  }

  /** The characters `encodeURIComponent` copies unchanged. */
  predicate IsUriUnreserved(c: char) {
    IsAsciiAlphanumeric(c) || c == '-' || c == '_' || c == '.' || c == '!' || c == '~'
    || c == '*' || c == '\'' || c == '(' || c == ')'
  }

  /** The characters the form serializer copies unchanged. */
  predicate IsFormSafe(c: char) {
    IsAsciiAlphanumeric(c) || c == '*' || c == '-' || c == '.' || c == '_'
  }

  /** `%XX` for each byte. */
  function PercentBytes(b: seq<Utf8.Byte>): (r: string)
    ensures |r| == 3 * |b|
    ensures forall i :: 0 <= i < |r| ==> r[i] == '%' || IsAsciiAlphanumeric(r[i])
  {
    if b == [] then []
    else ['%', HexDigits[b[0] / 16], HexDigits[b[0] % 16]] + PercentBytes(b[1..])
  }

  function ComponentChar(c: char): string {
    if IsUriUnreserved(c) then [c] else PercentBytes(Utf8.EncodeChar(c))
  }

  /** `encodeURIComponent(s)`. The result never contains a query delimiter
      (`&`, `=`, `#`, `+`, space): only unreserved characters and `%`. */
  function EncodeUriComponent(s: string): (r: string)
    ensures forall i :: 0 <= i < |r| ==> IsUriUnreserved(r[i]) || r[i] == '%'
  {
    if s == [] then [] else ComponentChar(s[0]) + EncodeUriComponent(s[1..])
  }

  function FormChar(c: char): string {
    if IsFormSafe(c) then [c] else if c == ' ' then "+" else PercentBytes(Utf8.EncodeChar(c))
  }

  /** The form serialization of one value, as `URLSearchParams` writes it. */
  function FormEncode(s: string): (r: string)
    ensures forall i :: 0 <= i < |r| ==> IsFormSafe(r[i]) || r[i] == '%' || r[i] == '+'
  {
    if s == [] then [] else FormChar(s[0]) + FormEncode(s[1..])
  }

  function HexValue(c: char): Option<nat> {
    if '0' <= c <= '9' then Some(c as int - '0' as int)
    else if 'A' <= c <= 'F' then Some(c as int - 'A' as int + 10)
    else if 'a' <= c <= 'f' then Some(c as int - 'a' as int + 10)
    else None
  }

  function Prepend(b: seq<Utf8.Byte>, r: Option<seq<Utf8.Byte>>): Option<seq<Utf8.Byte>> {
    match r
    case None => None
    case Some(rest) => Some(b + rest)
  }

  /** Percent-decoding of encoded text into bytes; `plusIsSpace` selects the form
      reading of `+`. Raw characters outside ASCII never occur in encoded text and
      are rejected. */
  function PercentDecode(s: string, plusIsSpace: bool): Option<seq<Utf8.Byte>>
    decreases |s|
  {
    if s == [] then Some([])
    else if s[0] == '%' then
      if |s| >= 3 && HexValue(s[1]).Some? && HexValue(s[2]).Some? then
        Prepend([16 * HexValue(s[1]).value + HexValue(s[2]).value], PercentDecode(s[3..], plusIsSpace))
      else None
    else if s[0] == '+' && plusIsSpace then Prepend([' ' as int], PercentDecode(s[1..], plusIsSpace))
    else if (s[0] as int) < 0x80 then Prepend([s[0] as int], PercentDecode(s[1..], plusIsSpace))
    else None
  }

  /** `decodeURIComponent` on encoded text. */
  function DecodeUriComponent(s: string): Option<string> {
    match PercentDecode(s, false)
    case None => None
    case Some(b) => Utf8.Decode(b)
  }

  /** Reading one form-encoded value back. */
  function FormDecode(s: string): Option<string> {
    match PercentDecode(s, true)
    case None => None
    case Some(b) => Utf8.Decode(b)
  }

  lemma HexDigitValue(d: nat)
    requires d < 16
    ensures HexValue(HexDigits[d]) == Some(d)
  {
  }

  lemma {:induction false} PercentDecodeBytes(b: seq<Utf8.Byte>, rest: string, plusIsSpace: bool)
    ensures PercentDecode(PercentBytes(b) + rest, plusIsSpace) == Prepend(b, PercentDecode(rest, plusIsSpace))
    decreases |b|
  {
    if b != [] {
      var s := PercentBytes(b) + rest;
      HexDigitValue(b[0] / 16);
      HexDigitValue(b[0] % 16);
      assert s[0] == '%' && s[1] == HexDigits[b[0] / 16] && s[2] == HexDigits[b[0] % 16];
      assert s[3..] == PercentBytes(b[1..]) + rest;
      PercentDecodeBytes(b[1..], rest, plusIsSpace);
      match PercentDecode(rest, plusIsSpace)
      case None =>
      case Some(r) =>
        assert [b[0]] + (b[1..] + r) == b + r;
    } else {
      assert PercentBytes(b) + rest == rest;
      match PercentDecode(rest, plusIsSpace)
      case None =>
      case Some(r) =>
        assert b + r == r;
    }
  }

  lemma {:induction false} DecodeComponentBytes(s: string)
    ensures PercentDecode(EncodeUriComponent(s), false) == Some(Utf8.Encode(s))
    decreases |s|
  {
    if s != [] {
      var c := s[0];
      DecodeComponentBytes(s[1..]);
      if IsUriUnreserved(c) {
        assert ([c] + EncodeUriComponent(s[1..]))[1..] == EncodeUriComponent(s[1..]);
      } else {
        PercentDecodeBytes(Utf8.EncodeChar(c), EncodeUriComponent(s[1..]), false);
      }
    }
  }

  /** `decodeURIComponent(encodeURIComponent(s)) == s`. */
  lemma DecodeEncodeComponent(s: string)
    ensures DecodeUriComponent(EncodeUriComponent(s)) == Some(s)
  {
    DecodeComponentBytes(s);
    Utf8.DecodeEncode(s);
  }

  lemma {:induction false} DecodeFormBytes(s: string)
    ensures PercentDecode(FormEncode(s), true) == Some(Utf8.Encode(s))
    decreases |s|
  {
    if s != [] {
      var c := s[0];
      DecodeFormBytes(s[1..]);
      if IsFormSafe(c) || c == ' ' {
        assert (FormChar(c) + FormEncode(s[1..]))[1..] == FormEncode(s[1..]);
      } else {
        PercentDecodeBytes(Utf8.EncodeChar(c), FormEncode(s[1..]), true);
      }
    }
  }

  /** Reading a form-encoded value back gives the original value. */
  lemma DecodeFormEncode(s: string)
    ensures FormDecode(FormEncode(s)) == Some(s)
  {
    DecodeFormBytes(s);
    Utf8.DecodeEncode(s);
  }

  /** Text made of unreserved characters passes through `encodeURIComponent`. */
  lemma {:induction false} EncodeUnreservedIdentity(s: string)
    requires forall i :: 0 <= i < |s| ==> IsUriUnreserved(s[i])
    ensures EncodeUriComponent(s) == s
    decreases |s|
  {
    if s != [] {
      EncodeUnreservedIdentity(s[1..]);
      assert [s[0]] + s[1..] == s;
    }
  }
}
