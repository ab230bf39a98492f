/** Percent-encoding of a path segment by section 2.1 of RFC 3986, as net/url does it: on the bytes of the UTF-8 form. */
module Percent {
  import opened Prelude
  import opened Text

  /** The UTF-8 bytes of a character. */
  function Utf8Char(c: char): (r: seq<Byte>)
    ensures |r| >= 1
    ensures c as int < 128 ==> r == [c as int]
    ensures c as int >= 128 ==> forall k | 0 <= k < |r| :: r[k] >= 128
  {
    var n := c as int;
    if n < 0x80 then [n]
    else if n < 0x800 then [0xC0 + n / 0x40, 0x80 + n % 0x40]
    else if n < 0x1_0000 then
      [0xE0 + n / 0x1000, 0x80 + n / 0x40 % 0x40, 0x80 + n % 0x40]
    else
      [0xF0 + n / 0x4_0000 % 8, 0x80 + n / 0x1000 % 0x40, 0x80 + n / 0x40 % 0x40, 0x80 + n % 0x40]
  }

  function Utf8(s: string): seq<Byte> {
    if s == [] then [] else Utf8Char(s[0]) + Utf8(s[1..])
  }

  lemma {:induction false} Utf8Append(a: string, b: string)
    ensures Utf8(a + b) == Utf8(a) + Utf8(b)
    decreases |a|
  {
    if a == [] {
      assert a + b == b;
    } else {
      assert (a + b)[1..] == a[1..] + b;
      Utf8Append(a[1..], b);
    }
  }

  // --- escaping ---

  function HexDigit(n: int): (c: char)
    requires 0 <= n < 16
    ensures '0' <= c <= '9' || 'A' <= c <= 'F'
  {
    if n < 10 then ('0' as int + n) as char else ('A' as int + (n - 10)) as char
  }

  /** Upper and lower case digits are equivalent when decoding. */
  function HexValue(c: char): (r: Option<int>)
    ensures r.Some? ==> 0 <= r.value < 16
  {
    if '0' <= c <= '9' then Some(c as int - '0' as int)
    else if 'a' <= c <= 'f' then Some(c as int - 'a' as int + 10)
    else if 'A' <= c <= 'F' then Some(c as int - 'A' as int + 10)
    else None
  }

  /** The characters that a path segment keeps. */
  predicate Kept(b: Byte) {
    var c := b as char;
    || 'a' <= c <= 'z' || 'A' <= c <= 'Z' || '0' <= c <= '9'
    || c == '-' || c == '_' || c == '.' || c == '~'
    || c == '$' || c == '&' || c == '+' || c == ':' || c == '=' || c == '@'
  }

  function EscapeByte(b: Byte): (r: string)
    ensures |r| == if Kept(b) then 1 else 3
  {
    if Kept(b) then [b as char]
    else ['%', HexDigit(b / 16), HexDigit(b % 16)]
  }

  function EscapeBytes(bytes: seq<Byte>): string {
    if bytes == [] then [] else EscapeByte(bytes[0]) + EscapeBytes(bytes[1..])
  }

  /** url.PathEscape */
  function PathEscape(s: string): string {
    EscapeBytes(Utf8(s))
  }

  /** The bytes of an escaped path; None where an escape is malformed. */
  function Unescape(s: string): Option<seq<Byte>>
    decreases |s|
  {
    if s == [] then Some([])
    else if s[0] == '%' then
      if |s| < 3 || HexValue(s[1]).None? || HexValue(s[2]).None? then None
      else
        var rest := Unescape(s[3..]);
        if rest.None? then None
        else Some([HexValue(s[1]).value * 16 + HexValue(s[2]).value] + rest.value)
    else
      var rest := Unescape(s[1..]);
      if rest.None? then None else Some(Utf8Char(s[0]) + rest.value)
  }

  lemma {:induction false} UnescapeByte(b: Byte, rest: string)
    ensures Unescape(EscapeByte(b) + rest)
      == (var after := Unescape(rest); if after.Some? then Some([b] + after.value) else None)
  {
    var s := EscapeByte(b) + rest;
    if Kept(b) {
      assert s[1..] == rest && s[0] == b as char;
    } else {
      assert s[0] == '%' && s[1] == HexDigit(b / 16) && s[2] == HexDigit(b % 16);
      assert s[3..] == rest;
      assert HexValue(s[1]) == Some(b / 16) && HexValue(s[2]) == Some(b % 16);
    }
  }

  /** Decoding undoes encoding, in front of anything. */
  lemma {:induction false} UnescapeEscaped(bytes: seq<Byte>, rest: string)
    ensures Unescape(EscapeBytes(bytes) + rest)
      == (var after := Unescape(rest); if after.Some? then Some(bytes + after.value) else None)
    decreases |bytes|
  {
    hide Unescape, EscapeByte;
    var after := Unescape(rest);
    if bytes == [] {
      assert EscapeBytes(bytes) + rest == rest;
      if after.Some? {
        assert bytes + after.value == after.value;
      }
    } else {
      var tail := EscapeBytes(bytes[1..]) + rest;
      assert EscapeBytes(bytes) + rest == EscapeByte(bytes[0]) + tail;
      UnescapeByte(bytes[0], tail);
      UnescapeEscaped(bytes[1..], rest);
      if after.Some? {
        assert [bytes[0]] + (bytes[1..] + after.value) == bytes + after.value;
      }
    }
  }

  /** Round trip: whatever the segment, its escaped form decodes to its bytes. */
  lemma PathRoundTrip(s: string)
    ensures Unescape(PathEscape(s)) == Some(Utf8(s))
  {
    UnescapeEscaped(Utf8(s), "");
    assert EscapeBytes(Utf8(s)) + "" == EscapeBytes(Utf8(s));
    assert Utf8(s) + [] == Utf8(s);
  }

  /** Text without a percent sign stands for itself. */
  lemma {:induction false} UnescapePlain(s: string, rest: string)
    requires '%' !in s
    ensures Unescape(s + rest)
      == (var after := Unescape(rest); if after.Some? then Some(Utf8(s) + after.value) else None)
    decreases |s|
  {
    var after := Unescape(rest);
    if s == [] {
      assert s + rest == rest;
      if after.Some? {
        assert Utf8(s) + after.value == after.value;
      }
    } else {
      assert (s + rest)[1..] == s[1..] + rest;
      UnescapePlain(s[1..], rest);
      if after.Some? {
        assert Utf8Char(s[0]) + (Utf8(s[1..]) + after.value) == Utf8(s) + after.value;
      }
    }
  }

  /** An escaped segment has none of the characters that delimit the parts of a URL. */
  lemma {:induction false} EscapedIsOpaque(bytes: seq<Byte>, c: char)
    requires c == '/' || c == '?' || c == '#'
    ensures c !in EscapeBytes(bytes)
    decreases |bytes|
  {
    if bytes != [] {
      EscapedIsOpaque(bytes[1..], c);
    }
  }

  /** The unreserved characters are not escaped (section 2.3 of RFC 3986). */
  lemma {:induction false} UnreservedStays(s: string)
    requires forall k | 0 <= k < |s| ::
      'a' <= s[k] <= 'z' || 'A' <= s[k] <= 'Z' || '0' <= s[k] <= '9' || s[k] == '-' || s[k] == '.' || s[k] == '_' || s[k] == '~'
    ensures PathEscape(s) == s
    decreases |s|
  {
    if s != [] {
      UnreservedStays(s[1..]);
      assert Utf8Char(s[0]) == [s[0] as int];
      assert Utf8(s) == [s[0] as int] + Utf8(s[1..]);
      assert Utf8(s)[1..] == Utf8(s[1..]);
      assert s == [s[0]] + s[1..];
    }
  }
}
