/** The sizes of what json.Marshal writes, as far as the reporter's bodies and queue lines go. */
module Json {
  import opened Prelude
  import opened Text

  /** How much room a character takes inside a JSON string. */
  function CharSize(c: char): (n: nat)
    ensures 1 <= n <= 6
  {
    if c == '"' || c == '\\' || c == '\n' || c == '\r' || c == '\t' || c as int == 8 || c as int == 12 then 2
    else if c as int < 0x20 || c == '<' || c == '>' || c == '&' || c == '\U{2028}' || c == '\U{2029}' then 6
    else 1
  }

  function LowerHexDigit(n: int): char
    requires 0 <= n < 16
  {
    if n < 10 then ('0' as int + n) as char else ('a' as int + (n - 10)) as char
  }

  /** How a character is written inside a JSON string, as far as the text does not depend on its UTF-8 form. */
  function Written(c: char): string {
    if c == '"' then "\\\""
    else if c == '\\' then "\\\\"
    else if c == '\n' then "\\n"
    else if c == '\r' then "\\r"
    else if c == '\t' then "\\t"
    else if c as int == 8 then "\\b"
    else if c as int == 12 then "\\f"
    else if c as int < 0x20 || c == '<' || c == '>' || c == '&' then
      "\\u00" + [LowerHexDigit(c as int / 16), LowerHexDigit(c as int % 16)]
    else if c == '\U{2028}' then "\\u2028"
    else if c == '\U{2029}' then "\\u2029"
    else [c]
  }

  function Encoded(s: string): string {
    if s == [] then [] else Written(s[0]) + Encoded(s[1..])
  }

  /** The sizes are those of what is written. */
  lemma {:induction false} SizeIsExact(s: string)
    ensures StringSize(s) == |Encoded(s)|
    decreases |s|
  {
    if s != [] {
      SizeIsExact(s[1..]);
    }
  }

  function StringSize(s: string): (n: nat)
    ensures |s| <= n <= 6 * |s|
  {
    if s == [] then 0 else CharSize(s[0]) + StringSize(s[1..])
  }

  lemma {:induction false} StringSizeConcat(a: string, b: string)
    ensures StringSize(a + b) == StringSize(a) + StringSize(b)
    decreases |a|
  {
    if a == [] {
      assert a + b == b;
    } else {
      assert (a + b)[1..] == a[1..] + b;
      StringSizeConcat(a[1..], b);
    }
  }

  lemma {:induction false} PlainSize(s: string)
    requires forall k | 0 <= k < |s| :: CharSize(s[k]) == 1
    ensures StringSize(s) == |s|
    decreases |s|
  {
    if s != [] {
      PlainSize(s[1..]);
    }
  }

  const NANOSECONDS: nat := 1_000_000_000

  /** The digits of a fraction of a second without its trailing zeros. */
  function Significant(fraction: nat, digits: nat): (n: nat)
    ensures n <= digits
  {
    if digits == 0 || fraction % 10 != 0 then digits else Significant(fraction / 10, digits - 1)
  }

  /** A time in the layout of RFC 3339 with as many fractional digits as it needs. */
  function TimeSize(at: nat): (n: nat)
    ensures 20 <= n <= 30
  {
    if at % NANOSECONDS == 0 then 20 else 21 + Significant(at % NANOSECONDS, 9)
  }
}
