/** The byte strings that are signed: telemetry requests (internal/telemetryauth/auth.go) and boot-trust challenges
    (internal/boottrust/model.go), with the base64url and hexadecimal encodings inside them. */
module Canonical {
  import opened Prelude
  import opened Text

  // ---------------------------------------------------------------------------
  // Base64url without padding, section 5 of RFC 4648.
  // ---------------------------------------------------------------------------

  function SextetChar(v: int): (c: char)
    requires 0 <= v < 64
    ensures SextetOf(c) == Some(v)
    ensures c != '\n'
  {
    if v < 26 then 'A' + v as char
    else if v < 52 then 'a' + (v - 26) as char
    else if v < 62 then '0' + (v - 52) as char
    else if v == 62 then '-'
    else '_'
  }

  function SextetOf(c: char): (r: Option<int>)
    ensures r.Some? ==> 0 <= r.value < 64
  {
    if 'A' <= c <= 'Z' then Some(c as int - 'A' as int)
    else if 'a' <= c <= 'z' then Some(c as int - 'a' as int + 26)
    else if '0' <= c <= '9' then Some(c as int - '0' as int + 52)
    else if c == '-' then Some(62)
    else if c == '_' then Some(63)
    else None
  }

  function Base64Url(bytes: seq<Byte>): (r: string)
    ensures '\n' !in r
  {
    if bytes == [] then []
    else if |bytes| == 1 then
      var a := bytes[0];
      [SextetChar(a / 4), SextetChar(a % 4 * 16)]
    else if |bytes| == 2 then
      var a, b := bytes[0], bytes[1];
      [SextetChar(a / 4), SextetChar(a % 4 * 16 + b / 16), SextetChar(b % 16 * 4)]
    else
      var a, b, c := bytes[0], bytes[1], bytes[2];
      [SextetChar(a / 4), SextetChar(a % 4 * 16 + b / 16), SextetChar(b % 16 * 4 + c / 64), SextetChar(c % 64)]
      + Base64Url(bytes[3..])
  }

  /** The decoder: four characters give three bytes, two or three left over give one or two. */
  function FromBase64Url(s: string): Option<seq<Byte>> {
    if s == [] then Some([])
    else if |s| == 1 then None
    else
      var p, q := SextetOf(s[0]), SextetOf(s[1]);
      if p.None? || q.None? then None
      else if |s| == 2 then Some([(p.value * 4 + q.value / 16)])
      else
        var r := SextetOf(s[2]);
        if r.None? then None
        else if |s| == 3 then
          Some([(p.value * 4 + q.value / 16), (q.value % 16 * 16 + r.value / 4)])
        else
          var t, rest := SextetOf(s[3]), FromBase64Url(s[4..]);
          if t.None? || rest.None? then None
          else Some([(p.value * 4 + q.value / 16), (q.value % 16 * 16 + r.value / 4),
                     (r.value % 4 * 64 + t.value)] + rest.value)
  }

  /** Three bytes are cut into four sextets and put together again. */
  lemma Sextets(a: int, b: int, c: int)
    requires 0 <= a < 256 && 0 <= b < 256 && 0 <= c < 256
    ensures a / 4 * 4 + (a % 4 * 16 + b / 16) / 16 == a
    ensures (a % 4 * 16 + b / 16) % 16 * 16 + (b % 16 * 4 + c / 64) / 4 == b
    ensures (b % 16 * 4 + c / 64) % 4 * 64 + c % 64 == c
  {
  }

  lemma {:induction false} WholeGroup(bytes: seq<Byte>)
    requires |bytes| >= 3 && FromBase64Url(Base64Url(bytes[3..])) == Some(bytes[3..])
    ensures FromBase64Url(Base64Url(bytes)) == Some(bytes)
  {
    Sextets(bytes[0], bytes[1], bytes[2]);
    assert Base64Url(bytes)[4..] == Base64Url(bytes[3..]);
    assert bytes == [bytes[0], bytes[1], bytes[2]] + bytes[3..];
  }

  lemma {:induction false} LastGroup(bytes: seq<Byte>)
    requires 1 <= |bytes| <= 2
    ensures FromBase64Url(Base64Url(bytes)) == Some(bytes)
  {
    if |bytes| == 2 {
      Sextets(bytes[0], bytes[1], 0);
      assert bytes == [bytes[0], bytes[1]];
    } else {
      Sextets(bytes[0], 0, 0);
      assert bytes == [bytes[0]];
    }
  }

  lemma {:induction false} Base64RoundTrip(bytes: seq<Byte>)
    ensures FromBase64Url(Base64Url(bytes)) == Some(bytes)
  {
    if |bytes| >= 3 {
      Base64RoundTrip(bytes[3..]);
      WholeGroup(bytes);
    } else if bytes != [] {
      LastGroup(bytes);
    }
  }

  // ---------------------------------------------------------------------------
  // Lower-case hexadecimal.
  // ---------------------------------------------------------------------------

  function HexDigit(v: int): (c: char)
    requires 0 <= v < 16
    ensures HexValue(c) == v
    ensures c != '\n'
  {
    if v < 10 then '0' + v as char else 'a' + (v - 10) as char
  }

  function HexValue(c: char): int {
    if '0' <= c <= '9' then c as int - '0' as int else c as int - 'a' as int + 10
  }

  function Hex(bytes: seq<Byte>): (r: string)
    ensures |r| == 2 * |bytes|
    ensures '\n' !in r
  {
    if bytes == [] then []
    else [HexDigit(bytes[0] / 16), HexDigit(bytes[0] % 16)] + Hex(bytes[1..])
  }

  lemma {:induction false} HexInjective(x: seq<Byte>, y: seq<Byte>)
    requires Hex(x) == Hex(y)
    ensures x == y
  {
    if x != [] && y != [] {
      assert HexValue(Hex(x)[0]) == HexValue(Hex(y)[0]) && HexValue(Hex(x)[1]) == HexValue(Hex(y)[1]);
      assert Hex(x)[2..] == Hex(x[1..]) && Hex(y)[2..] == Hex(y[1..]);
      HexInjective(x[1..], y[1..]);
      assert x == [x[0]] + x[1..] && y == [y[0]] + y[1..];
    }
  }

  // ---------------------------------------------------------------------------
  // Reading newline-separated fields back.
  // ---------------------------------------------------------------------------

  lemma FirstField(a: string, b: string, c: string, d: string)
    requires a + "\n" + b == c + "\n" + d
    requires '\n' !in a && '\n' !in c
    ensures a == c && b == d
  {
    SplitAt(a, b, '\n');
    SplitAt(c, d, '\n');
    assert a == Split(a + "\n" + b, '\n')[0] && c == Split(c + "\n" + d, '\n')[0];
    assert b == (a + "\n" + b)[|a| + 1..] && d == (c + "\n" + d)[|c| + 1..];
  }

  lemma LastField(a: string, b: string, c: string, d: string)
    requires a + "\n" + b == c + "\n" + d
    requires '\n' !in b && '\n' !in d
    ensures a == c && b == d
  {
    var s := a + "\n" + b;
    assert s[|a|] == '\n' && forall k :: |a| < k < |s| ==> s[k] == b[k - |a| - 1];
    assert s[|c|] == '\n' && forall k :: |c| < k < |s| ==> s[k] == d[k - |c| - 1];
    assert |a| == |c|;
    assert a == s[..|a|] && c == s[..|c|];
    assert b == s[|a| + 1..] && d == s[|c| + 1..];
  }

  /** Six lines whose last three hold no newline: only the border between the second and third is open. */
  lemma SixLines(f: seq<string>, g: seq<string>)
    requires |f| == |g| == 6 && f[0] == g[0]
    requires '\n' !in f[3] && '\n' !in f[4] && '\n' !in f[5] && '\n' !in g[3] && '\n' !in g[4] && '\n' !in g[5]
    ensures Join(f, "\n") == Join(g, "\n") <==>
      f[1] + "\n" + f[2] == g[1] + "\n" + g[2] && f[3] == g[3] && f[4] == g[4] && f[5] == g[5]
  {
    JoinFields(f);
    JoinFields(g);
    var p, q := f[1] + "\n" + f[2], g[1] + "\n" + g[2];
    if Join(f, "\n") == Join(g, "\n") {
      var head := |f[0] + "\n"|;
      assert p + "\n" + f[3] + "\n" + f[4] + "\n" + f[5] == Join(f, "\n")[head..];
      assert q + "\n" + g[3] + "\n" + g[4] + "\n" + g[5] == Join(g, "\n")[head..];
      LastField(p + "\n" + f[3] + "\n" + f[4], f[5], q + "\n" + g[3] + "\n" + g[4], g[5]);
      LastField(p + "\n" + f[3], f[4], q + "\n" + g[3], g[4]);
      LastField(p, f[3], q, g[3]);
    }
  }

  lemma JoinFields(f: seq<string>)
    requires |f| == 6
    ensures Join(f, "\n") == f[0] + "\n" + (f[1] + "\n" + f[2] + "\n" + f[3] + "\n" + f[4] + "\n" + f[5])
  {
    var t := f[1..];
    var u := t[1..];
    var v := u[1..];
    var w := v[1..];
    assert w[1..] == [f[5]];
    var last := f[4] + "\n" + f[5];
    assert Join(w, "\n") == last;
    assert Join(v, "\n") == f[3] + "\n" + last;
    assert Join(u, "\n") == f[2] + "\n" + (f[3] + "\n" + last);
    Reassociate(f[1], f[2], f[3], last);
    assert f[1] + "\n" + f[2] + "\n" + f[3] + "\n" + last == f[1] + "\n" + f[2] + "\n" + f[3] + "\n" + f[4] + "\n" + f[5];
  }

  lemma MovedBorder(a: string, b: string, c: string)
    ensures (a + "\n" + b) + "\n" + c == a + "\n" + (b + "\n" + c)
  {
  }

  lemma Reassociate(a: string, b: string, c: string, d: string)
    ensures a + "\n" + (b + "\n" + (c + "\n" + d)) == a + "\n" + b + "\n" + c + "\n" + d
  {
    MovedBorder(b, c, d);
    MovedBorder(a, b + "\n" + c, d);
    MovedBorder(a, b, c);
  }

  lemma LinesInjective(f: seq<string>, g: seq<string>)
    requires f != [] && g != [] && Join(f, "\n") == Join(g, "\n")
    requires forall k :: 0 <= k < |f| ==> '\n' !in f[k]
    requires forall k :: 0 <= k < |g| ==> '\n' !in g[k]
    ensures f == g
  {
    SplitJoin(f, '\n');
    SplitJoin(g, '\n');
  }

  lemma SameEnding(s: string, t: string)
    ensures s + "\n" == t + "\n" <==> s == t
  {
    assert s == (s + "\n")[..|s|] && t == (t + "\n")[..|t|];
    if s + "\n" == t + "\n" {
      assert |s + "\n"| == |t + "\n"|;
    }
  }

  // ---------------------------------------------------------------------------
  // Telemetry requests.
  // ---------------------------------------------------------------------------

  /** strings.ToUpper on the runes whose upper case is an ASCII letter. */
  function UpperRune(c: char): char {
    if 'a' <= c <= 'z' then c - 'a' + 'A'
    else if c == '\U{0131}' then 'I'
    else if c == '\U{017F}' then 'S'
    else c
  }

  function Upper(s: string): string {
    seq(|s|, k requires 0 <= k < |s| => UpperRune(s[k]))
  }

  /** The body enters through its SHA-256 digest. */
  datatype Request = Request(method_: string, path: string, key: string, unixSeconds: int, digest: seq<Byte>)

  /** The request after the trimming and upper-casing that Canonical applies. */
  function Normal(r: Request): Request {
    Request(Upper(Trim(r.method_)), Trim(r.path), Trim(r.key), r.unixSeconds, r.digest)
  }

  predicate Complete(r: Request) {
    var n := Normal(r);
    n.method_ != "" && HasPrefix(n.path, "/") && n.key != "" && n.unixSeconds > 0
  }

  const TELEMETRY_HEADER := "AEGISPXE-TELEMETRY-AUTH-V1"

  function SignedLines(n: Request): seq<string>
    requires n.unixSeconds > 0
  {
    [TELEMETRY_HEADER, n.method_, n.path, n.key, Decimal(n.unixSeconds), Hex(n.digest)]
  }

  function Telemetry(r: Request): Option<string> {
    if Complete(r) then Some(Join(SignedLines(Normal(r)), "\n") + "\n") else None
  }

  lemma NormalEqualIff(m: Request, n: Request)
    requires m.unixSeconds > 0 && n.unixSeconds > 0 && '\n' !in m.key && '\n' !in n.key
    ensures Join(SignedLines(m), "\n") == Join(SignedLines(n), "\n") <==>
      && m.method_ + "\n" + m.path == n.method_ + "\n" + n.path
      && m.key == n.key && m.unixSeconds == n.unixSeconds && m.digest == n.digest
  {
    var f, g := SignedLines(m), SignedLines(n);
    SixLines(f, g);
    if f[4] == g[4] && f[5] == g[5] {
      DecimalInjective(m.unixSeconds, n.unixSeconds);
      HexInjective(m.digest, n.digest);
    }
  }

  /** For keys without newlines, two requests share a canonical form exactly when everything but the border between
      method and path agrees. */
  lemma TelemetryEqualIff(x: Request, y: Request)
    requires Complete(x) && Complete(y)
    requires '\n' !in Normal(x).key && '\n' !in Normal(y).key
    ensures Telemetry(x) == Telemetry(y) <==>
      && Normal(x).method_ + "\n" + Normal(x).path == Normal(y).method_ + "\n" + Normal(y).path
      && Normal(x).key == Normal(y).key && x.unixSeconds == y.unixSeconds && x.digest == y.digest
  {
    SameEnding(Join(SignedLines(Normal(x)), "\n"), Join(SignedLines(Normal(y)), "\n"));
    NormalEqualIff(Normal(x), Normal(y));
  }

  /** A method without newlines, as every HTTP method is (section 9.1 of RFC 9110), makes the form uniquely
      decodable, whatever newlines the path holds. */
  lemma TelemetryUniquelyDecodable(x: Request, y: Request)
    requires Complete(x) && Complete(y) && Telemetry(x) == Telemetry(y)
    requires '\n' !in Normal(x).key && '\n' !in Normal(y).key
    requires '\n' !in Normal(x).method_ && '\n' !in Normal(y).method_
    ensures Normal(x) == Normal(y)
  {
    TelemetryEqualIff(x, y);
    FirstField(Normal(x).method_, Normal(x).path, Normal(y).method_, Normal(y).path);
  }

  lemma {:induction false} SignedLinesAreRead(lines: seq<string>)
    requires lines != [] && forall k | 0 <= k < |lines| :: '\n' !in lines[k]
    ensures Split(Join(lines, "\n") + "\n", '\n') == lines + [""]
  {
    JoinEnd(lines);
    SplitJoin(lines + [""], '\n');
    assert "\n" == ['\n'];
  }

  lemma {:induction false} JoinEnd(lines: seq<string>)
    requires lines != []
    ensures Join(lines + [""], "\n") == Join(lines, "\n") + "\n"
    decreases |lines|
  {
    assert (lines + [""])[1..] == lines[1..] + [""];
    if |lines| > 1 {
      JoinEnd(lines[1..]);
      assert lines[0] + "\n" + (Join(lines[1..], "\n") + "\n") == lines[0] + "\n" + Join(lines[1..], "\n") + "\n";
    } else {
      assert Join([""], "\n") == "";
      assert lines[0] + "\n" + "" == lines[0] + "\n";
      assert lines[1..] + [""] == [""];
    }
  }

  /** Where nothing has a newline, the lines of the signed form are the version, the upper-cased method, the path, the key,
      the time in seconds and the digest in hexadecimal. */
  lemma {:induction false} SignedFormIsRead(r: Request)
    requires Telemetry(r).Some? && '\n' !in Upper(Trim(r.method_)) && '\n' !in Trim(r.path) && '\n' !in Trim(r.key)
    ensures Split(Telemetry(r).value, '\n')
      == ["AEGISPXE-TELEMETRY-AUTH-V1", Upper(Trim(r.method_)), Trim(r.path), Trim(r.key), Decimal(r.unixSeconds),
          Hex(r.digest), ""]
  {
    hide Upper, Trim, Decimal, Hex, Join, Split;
    var lines := SignedLines(Normal(r));
    HexIsOneLine(r.digest);
    DecimalIsOneLine(r.unixSeconds);
    SignedLinesAreRead(lines);
  }

  /** There is a signed form exactly for a method, a rooted path, a key and a positive time. */
  lemma {:induction false} SignableExactly(r: Request)
    ensures Telemetry(r).Some?
      <==> Trim(r.method_) != "" && Trim(r.path) != "" && Trim(r.path)[0] == '/' && Trim(r.key) != "" && r.unixSeconds > 0
  {
    hide Trim, Decimal, Hex, Join;
    assert |Upper(Trim(r.method_))| == |Trim(r.method_)|;
    assert Trim(r.path) != "" ==> Trim(r.path)[..1] == [Trim(r.path)[0]];
  }

  lemma {:induction false} HexIsOneLine(bytes: seq<Byte>)
    ensures '\n' !in Hex(bytes)
  {
  }

  lemma {:induction false} DecimalIsOneLine(n: nat)
    ensures '\n' !in Decimal(n)
  {
  }

  predicate Trimmed(s: string) {
    s != "" && !IsSpace(s[0]) && !IsSpace(s[|s| - 1])
  }

  predicate UpperCase(s: string) {
    forall k :: 0 <= k < |s| ==> UpperRune(s[k]) == s[k]
  }

  /** With a newline in the method it is not: moving the border between method and path changes the request but
      not the bytes that are signed. */
  lemma NewlineInMethodIsAmbiguous(
    method_: string, p: string, q: string, key: string, unixSeconds: int, digest: seq<Byte>)
    requires Trimmed(method_) && UpperCase(method_) && Trimmed(p) && UpperCase(p) && Trimmed(q)
    requires p[0] == q[0] == '/'
    requires Trim(key) != "" && '\n' !in Trim(key) && unixSeconds > 0
    ensures var x := Request(method_ + "\n" + p, q, key, unixSeconds, digest);
      var y := Request(method_, p + "\n" + q, key, unixSeconds, digest);
      Complete(x) && Complete(y) && Normal(x) != Normal(y) && Telemetry(x) == Telemetry(y)
  {
    var x := Request(method_ + "\n" + p, q, key, unixSeconds, digest);
    var y := Request(method_, p + "\n" + q, key, unixSeconds, digest);
    TrimmedConcat(method_, p);
    TrimmedConcat(p, q);
    AlreadyNormal(x);
    AlreadyNormal(y);
    MovedBorder(method_, p, q);
    SameBorderless(x, y, Trim(key));
  }

  lemma TrimmedConcat(a: string, b: string)
    requires Trimmed(a) && Trimmed(b)
    ensures Trimmed(a + "\n" + b) && (a + "\n" + b)[0] == a[0] && a + "\n" + b != a
    ensures UpperCase(a) && UpperCase(b) ==> UpperCase(a + "\n" + b)
  {
    var s := a + "\n" + b;
    assert s[0] == a[0] && s[|s| - 1] == b[|b| - 1];
  }

  lemma TrimUnchanged(s: string)
    requires Trimmed(s)
    ensures Trim(s) == s
  {
  }

  lemma UpperUnchanged(s: string)
    requires UpperCase(s)
    ensures Upper(s) == s
  {
  }

  lemma StartsWithSlash(path: string)
    requires path != ""
    ensures HasPrefix(path, "/") <==> path[0] == '/'
  {
  }

  lemma AlreadyNormal(r: Request)
    requires Trimmed(r.method_) && UpperCase(r.method_) && Trimmed(r.path)
    requires r.path[0] == '/' && Trim(r.key) != "" && r.unixSeconds > 0
    ensures Normal(r) == r.(key := Trim(r.key)) && Complete(r)
  {
    TrimUnchanged(r.method_);
    TrimUnchanged(r.path);
    UpperUnchanged(r.method_);
    StartsWithSlash(r.path);
  }

  lemma SameBorderless(x: Request, y: Request, k: string)
    requires Complete(x) && Complete(y)
    requires Normal(x) == x.(key := k) && Normal(y) == y.(key := k) && '\n' !in k
    requires x.method_ + "\n" + x.path == y.method_ + "\n" + y.path
    requires x.unixSeconds == y.unixSeconds && x.digest == y.digest
    ensures Telemetry(x) == Telemetry(y)
  {
    TelemetryEqualIff(x, y);
  }

  // ---------------------------------------------------------------------------
  // Boot-trust challenges.
  // ---------------------------------------------------------------------------

  datatype Challenge = Challenge(id: string, installation: string, machine: string, fingerprint: string, nonce: seq<Byte>)

  const CHALLENGE_HEADER := "AEGISPXE-BOOT-TRUST-V1"

  function ChallengeFields(c: Challenge): seq<string> {
    [CHALLENGE_HEADER, c.id, c.installation, c.machine, c.fingerprint, Base64Url(c.nonce)]
  }

  function CanonicalChallenge(c: Challenge): Option<string> {
    if Blank(c.id) || Blank(c.installation) || Blank(c.machine) || Blank(c.fingerprint) || |c.nonce| != 32 then None
    else Some(Join(ChallengeFields(c), "\n") + "\n")
  }

  /** The lines of a signed challenge are the version, the four names and the nonce. */
  lemma {:induction false} ChallengeFormIsRead(c: Challenge)
    requires CanonicalChallenge(c).Some? && OneLine(c)
    ensures Split(CanonicalChallenge(c).value, '\n')
      == ["AEGISPXE-BOOT-TRUST-V1", c.id, c.installation, c.machine, c.fingerprint, Base64Url(c.nonce), ""]
  {
    hide Trim, Join, Split;
    assert '\n' !in CHALLENGE_HEADER && '\n' !in Base64Url(c.nonce);
    SignedLinesAreRead(ChallengeFields(c));
  }

  predicate OneLine(c: Challenge) {
    '\n' !in c.id && '\n' !in c.installation && '\n' !in c.machine && '\n' !in c.fingerprint
  }

  /** A signed challenge names its installation, machine, key and nonce unambiguously. */
  lemma ChallengeUniquelyDecodable(x: Challenge, y: Challenge)
    requires CanonicalChallenge(x).Some? && CanonicalChallenge(x) == CanonicalChallenge(y)
    requires OneLine(x) && OneLine(y)
    ensures x == y
  {
    SameEnding(Join(ChallengeFields(x), "\n"), Join(ChallengeFields(y), "\n"));
    FieldsDetermineChallenge(x, y);
  }

  lemma FieldsDetermineChallenge(x: Challenge, y: Challenge)
    requires Join(ChallengeFields(x), "\n") == Join(ChallengeFields(y), "\n")
    requires OneLine(x) && OneLine(y)
    ensures x == y
  {
    var f, g := ChallengeFields(x), ChallengeFields(y);
    assert '\n' !in CHALLENGE_HEADER;
    LinesInjective(f, g);
    assert f[1] == g[1] && f[2] == g[2] && f[3] == g[3] && f[4] == g[4] && f[5] == g[5];
    Base64RoundTrip(x.nonce);
    Base64RoundTrip(y.nonce);
  }
}
