/** The string functions of Go's standard library that the modelled code calls. */
module Text {

  /** unicode.IsSpace, the class that strings.TrimSpace and strings.Fields use. */
  predicate IsSpace(c: char) {
    || c == '\t' || c == '\n' || c == '\U{000B}' || c == '\U{000C}' || c == '\r' || c == ' '
    || c == '\U{0085}' || c == '\U{00A0}' || c == '\U{1680}' || '\U{2000}' <= c <= '\U{200A}'
    || c == '\U{2028}' || c == '\U{2029}' || c == '\U{202F}' || c == '\U{205F}' || c == '\U{3000}'
  }

  /** The first position from k on that is not white space. */
  function SkipSpace(s: string, k: nat): (n: nat)
    requires k <= |s|
    ensures k <= n <= |s|
    ensures n < |s| ==> !IsSpace(s[n])
    ensures k < |s| && !IsSpace(s[k]) ==> n == k
    decreases |s| - k
  {
    if k < |s| && IsSpace(s[k]) then SkipSpace(s, k + 1) else k
  }

  /** The last position up to k that is not white space, and one. */
  function SkipSpaceBack(s: string, k: nat): (n: nat)
    requires k <= |s|
    ensures n <= k
    ensures n > 0 ==> !IsSpace(s[n - 1])
    ensures k > 0 && !IsSpace(s[k - 1]) ==> n == k
  {
    if k > 0 && IsSpace(s[k - 1]) then SkipSpaceBack(s, k - 1) else k
  }

  function TrimLeft(s: string): (r: string)
    ensures |r| <= |s|
    ensures r != [] ==> !IsSpace(r[0])
    ensures s != [] && !IsSpace(s[0]) ==> r == s
  {
    s[SkipSpace(s, 0)..]
  }

  function TrimRight(s: string): (r: string)
    ensures |r| <= |s| && (r != [] ==> r[0] == s[0])
    ensures r != [] ==> !IsSpace(r[|r| - 1])
    ensures s != [] && !IsSpace(s[|s| - 1]) ==> r == s
  {
    s[..SkipSpaceBack(s, |s|)]
  }

  /** strings.TrimSpace */
  function Trim(s: string): (r: string)
    ensures |r| <= |s|
    ensures r != [] ==> !IsSpace(r[0]) && !IsSpace(r[|r| - 1])
    ensures s != [] && !IsSpace(s[0]) && !IsSpace(s[|s| - 1]) ==> r == s
  {
    TrimRight(TrimLeft(s))
  }

  lemma TrimIdempotent(s: string)
    ensures Trim(Trim(s)) == Trim(s)
  {
    var r := Trim(s);
    if r != [] {
      assert TrimLeft(r) == r;
    }
  }

  lemma {:induction false} SkippedAreSpace(s: string, k: nat)
    requires k <= |s|
    ensures forall j | k <= j < SkipSpace(s, k) :: IsSpace(s[j])
    decreases |s| - k
  {
    hide IsSpace;
    if k < |s| && IsSpace(s[k]) {
      SkippedAreSpace(s, k + 1);
    }
  }

  lemma {:induction false} SkippedBackAreSpace(s: string, k: nat)
    requires k <= |s|
    ensures forall j | SkipSpaceBack(s, k) <= j < k :: IsSpace(s[j])
    decreases k
  {
    hide IsSpace;
    if k > 0 && IsSpace(s[k - 1]) {
      SkippedBackAreSpace(s, k - 1);
    }
  }

  /** Trimming takes white space off both ends, all of it, and nothing else. */
  lemma {:induction false} TrimIsExact(s: string) returns (front: nat)
    ensures front + |Trim(s)| <= |s| && s[front..front + |Trim(s)|] == Trim(s)
    ensures forall k | 0 <= k < |s| :: k < front || front + |Trim(s)| <= k ==> IsSpace(s[k])
    ensures Trim(s) != "" ==> !IsSpace(Trim(s)[0]) && !IsSpace(Trim(s)[|Trim(s)| - 1])
  {
    hide IsSpace;
    front := SkipSpace(s, 0);
    SkippedAreSpace(s, 0);
    var left := s[front..];
    SkippedBackAreSpace(left, |left|);
    assert Trim(s) == left[..SkipSpaceBack(left, |left|)];
    assert forall k | front <= k < |s| :: s[k] == left[k - front];
  }

  /** An ASCII control character. */
  predicate Control(c: char) {
    c as int < 0x20 || c as int == 0x7F
  }

  predicate Blank(s: string) {
    Trim(s) == ""
  }

  /** strings.ToLower, rune by rune, on the runes whose lower case is an ASCII letter: the capitals A to Z,
      the Kelvin sign and the dotted capital I. Other runes keep a non-ASCII lower case, so leaving them
      unchanged gives the same answer to every search for an ASCII marker. */
  function LowerRune(c: char): (r: char)
    ensures r == '\n' <==> c == '\n'
  {
    if 'A' <= c <= 'Z' then c - 'A' + 'a'
    else if c == '\U{212A}' then 'k'
    else if c == '\U{0130}' then 'i'
    else c
  }

  function Lower(s: string): (r: string)
    ensures |r| == |s|
    ensures forall k :: 0 <= k < |s| ==> r[k] == LowerRune(s[k])
  {
    seq(|s|, k requires 0 <= k < |s| => LowerRune(s[k]))
  }

  predicate OccursAt(s: string, part: string, k: int) {
    0 <= k <= |s| - |part| && s[k..k + |part|] == part
  }

  /** strings.Contains */
  predicate Contains(s: string, part: string) {
    exists k | 0 <= k <= |s| :: OccursAt(s, part, k)
  }

  predicate HasPrefix(s: string, prefix: string) {
    prefix <= s
  }

  /** strings.Fields: the maximal runs of characters that are not white space. */
  function Fields(s: string): (r: seq<string>)
    ensures forall k | 0 <= k < |r| :: r[k] != [] && forall j | 0 <= j < |r[k]| :: !IsSpace(r[k][j])
  {
    if s == [] then []
    else
      var rest := Fields(s[1..]);
      if IsSpace(s[0]) then rest
      else if |s| > 1 && !IsSpace(s[1]) && rest != [] then [[s[0]] + rest[0]] + rest[1..]
      else [[s[0]]] + rest
  }

  lemma {:induction false} FieldsNext(c: char, s: string)
    ensures Fields([c] + s)
      == if IsSpace(c) then Fields(s)
         else if s != [] && !IsSpace(s[0]) && Fields(s) != [] then [[c] + Fields(s)[0]] + Fields(s)[1..]
         else [[c]] + Fields(s)
  {
    hide IsSpace;
    assert ([c] + s)[1..] == s;
  }

  lemma {:induction false} FieldsBegin(c: char, s: string)
    requires !IsSpace(c)
    ensures Fields([c] + s) != []
  {
    hide IsSpace, Fields;
    FieldsNext(c, s);
  }

  lemma {:induction false} FieldsContinue(c: char, s: string, longer: string, more: seq<string>)
    requires Fields(longer) == Fields(s) + more
    requires s != [] && !IsSpace(s[0]) <==> longer != [] && !IsSpace(longer[0])
    requires s != [] && !IsSpace(s[0]) ==> Fields(s) != []
    ensures Fields([c] + longer) == Fields([c] + s) + more
  {
    hide IsSpace, Fields;
    FieldsNext(c, s);
    FieldsNext(c, longer);
    PutInFront(c, Fields(s), more);
  }

  lemma {:induction false} PutInFront(c: char, first: seq<string>, more: seq<string>)
    ensures [[c]] + (first + more) == [[c]] + first + more
    ensures first != [] ==> [[c] + (first + more)[0]] + (first + more)[1..] == [[c] + first[0]] + first[1..] + more
  {
  }

  /** White space separates: the fields on both sides of it are the fields of the two sides. */
  lemma {:induction false} FieldsApart(a: string, space: char, b: string)
    requires IsSpace(space)
    ensures Fields(a + [space] + b) == Fields(a) + Fields(b)
    decreases |a|
  {
    if a == [] {
      assert a + [space] + b == [space] + b && Fields(a) == [];
      hide IsSpace, Fields;
      FieldsNext(space, b);
    } else {
      hide IsSpace, Fields;
      var c, rest := a[0], a[1..];
      FieldsApart(rest, space, b);
      FieldsOfMore(rest);
      assert (rest + [space] + b)[0] == if rest != [] then rest[0] else space;
      FieldsContinue(c, rest, rest + [space] + b, Fields(b));
      assert a == [c] + rest;
      assert a + [space] + b == [c] + (rest + [space] + b);
    }
  }

  lemma {:induction false} FieldsOfMore(s: string)
    ensures s != [] && !IsSpace(s[0]) ==> Fields(s) != []
  {
    hide IsSpace, Fields;
    if s != [] && !IsSpace(s[0]) {
      assert s == [s[0]] + s[1..];
      FieldsBegin(s[0], s[1..]);
    }
  }

  /** And what has no white space in it is one field. */
  lemma {:induction false} FieldsOfWord(word: string)
    requires word != [] && forall k | 0 <= k < |word| :: !IsSpace(word[k])
    ensures Fields(word) == [word]
    decreases |word|
  {
    hide IsSpace;
    if |word| > 1 {
      FieldsOfWord(word[1..]);
      assert [word[0]] + word[1..] == word;
    } else {
      assert word == [word[0]] && Fields(word[1..]) == [];
    }
  }

  /** strings.Split with a one-character separator. */
  function Split(s: string, sep: char): (r: seq<string>)
    ensures |r| >= 1
    ensures forall k :: 0 <= k < |r| ==> sep !in r[k]
  {
    if s == [] then [[]]
    else
      var rest := Split(s[1..], sep);
      if s[0] == sep then [[]] + rest
      else [[s[0]] + rest[0]] + rest[1..]
  }

  /** A separated part holds only characters of the text. */
  lemma {:induction false} SplitKeepsCharacters(s: string, sep: char, k: nat, c: char)
    requires k < |Split(s, sep)| && c in Split(s, sep)[k]
    ensures c in s
  {
    if s != [] {
      var rest := Split(s[1..], sep);
      if s[0] == sep {
        if k > 0 {
          SplitKeepsCharacters(s[1..], sep, k - 1, c);
        }
      } else if k == 0 {
        if c != s[0] {
          SplitKeepsCharacters(s[1..], sep, 0, c);
        }
      } else {
        assert Split(s, sep)[k] == rest[k];
        SplitKeepsCharacters(s[1..], sep, k, c);
      }
    }
  }

  /** strings.Join */
  function Join(parts: seq<string>, sep: string): string {
    if parts == [] then []
    else if |parts| == 1 then parts[0]
    else parts[0] + sep + Join(parts[1..], sep)
  }

  lemma {:induction false} SplitNoSeparator(s: string, sep: char)
    requires sep !in s
    ensures Split(s, sep) == [s]
  {
    if s == [] {
    } else {
      SplitNoSeparator(s[1..], sep);
      assert [s[0]] + s[1..] == s;
    }
  }

  lemma {:induction false} SplitAt(a: string, b: string, sep: char)
    requires sep !in a
    ensures Split(a + [sep] + b, sep) == [a] + Split(b, sep)
  {
    var s := a + [sep] + b;
    if a == [] {
      assert s[1..] == b;
    } else {
      assert s[1..] == a[1..] + [sep] + b;
      SplitAt(a[1..], b, sep);
      assert [a[0]] + a[1..] == a;
      assert ([a[1..]] + Split(b, sep))[1..] == Split(b, sep);
    }
  }

  /** Splitting what was joined gives back the parts. */
  lemma {:induction false} SplitJoin(parts: seq<string>, sep: char)
    requires parts != []
    requires forall k :: 0 <= k < |parts| ==> sep !in parts[k]
    ensures Split(Join(parts, [sep]), sep) == parts
  {
    if |parts| == 1 {
      SplitNoSeparator(parts[0], sep);
      assert parts == [parts[0]];
    } else {
      SplitJoin(parts[1..], sep);
      SplitAt(parts[0], Join(parts[1..], [sep]), sep);
      assert parts == [parts[0]] + parts[1..];
    }
  }

  lemma JoinFirst(first: string, rest: seq<string>, sep: string)
    ensures Join([first] + rest, sep) == if rest == [] then first else first + sep + Join(rest, sep)
  {
    assert ([first] + rest)[1..] == rest;
  }

  /** A prefix of the first part is a prefix of the joined text. */
  lemma JoinPrefix(prefix: string, parts: seq<string>, sep: string)
    requires parts != []
    ensures Join([prefix + parts[0]] + parts[1..], sep) == prefix + Join(parts, sep)
  {
    JoinFirst(prefix + parts[0], parts[1..], sep);
    JoinFirst(parts[0], parts[1..], sep);
    assert [parts[0]] + parts[1..] == parts;
    if |parts| > 1 {
      assert prefix + parts[0] + sep + Join(parts[1..], sep) == prefix + (parts[0] + sep + Join(parts[1..], sep));
    }
  }

  /** Joining what was split gives back the text. */
  lemma {:induction false} JoinSplit(s: string, sep: char)
    ensures Join(Split(s, sep), [sep]) == s
  {
    if s != [] {
      var rest := Split(s[1..], sep);
      JoinSplit(s[1..], sep);
      assert s == [s[0]] + s[1..];
      if s[0] == sep {
        JoinFirst([], rest, [sep]);
      } else {
        JoinPrefix([s[0]], rest, [sep]);
      }
    }
  }

  /** Decimal digits of a non-negative number, as strconv.FormatInt(n, 10) writes them. */
  function Decimal(n: nat): (r: string)
    ensures r != []
    ensures forall k :: 0 <= k < |r| ==> '0' <= r[k] <= '9'
  {
    if n < 10 then [Digit(n)] else Decimal(n / 10) + [Digit(n % 10)]
  }

  function Digit(d: nat): (c: char)
    requires d < 10
    ensures '0' <= c <= '9'
    ensures c as int - '0' as int == d
  {
    '0' + d as char
  }

  /** Horner evaluation of decimal digits: the inverse of Decimal. */
  function DecimalValue(s: string): nat
    requires forall k :: 0 <= k < |s| ==> '0' <= s[k] <= '9'
  {
    if s == [] then 0
    else DecimalValue(s[..|s| - 1]) * 10 + (s[|s| - 1] as int - '0' as int)
  }

  lemma {:induction false} DecimalRoundTrip(n: nat)
    ensures DecimalValue(Decimal(n)) == n
  {
    var r := Decimal(n);
    if n < 10 {
      assert r[..0] == [];
    } else {
      DecimalRoundTrip(n / 10);
      assert r[..|r| - 1] == Decimal(n / 10);
    }
  }

  lemma DecimalInjective(m: nat, n: nat)
    requires Decimal(m) == Decimal(n)
    ensures m == n
  {
    DecimalRoundTrip(m);
    DecimalRoundTrip(n);
  }

  function Pow10(k: nat): nat {
    if k == 0 then 1 else 10 * Pow10(k - 1)
  }

  /** A number below a power of ten has at most that many digits. */
  lemma {:induction false} DecimalSize(n: nat, k: nat)
    requires k >= 1 && n < Pow10(k)
    ensures |Decimal(n)| <= k
    decreases k
  {
    if n >= 10 {
      DecimalSize(n / 10, k - 1);
    }
  }

  /** Two lists of parts, one behind the other, with the last of the first and the first of the second joined. */
  function Spliced(x: seq<string>, y: seq<string>): seq<string>
    requires x != [] && y != []
  {
    x[..|x| - 1] + [x[|x| - 1] + y[0]] + y[1..]
  }

  lemma {:induction false} SplicedEmpty(y: seq<string>)
    requires y != []
    ensures Spliced([[]], y) == y
  {
    assert [] + y[0] == y[0];
  }

  lemma {:induction false} SplicedBehind(first: string, x: seq<string>, y: seq<string>)
    requires x != [] && y != []
    ensures Spliced([first] + x, y) == [first] + Spliced(x, y)
  {
    assert ([first] + x)[..|x|] == [first] + x[..|x| - 1];
  }

  lemma {:induction false} SplicedInto(c: char, x: seq<string>, y: seq<string>)
    requires x != [] && y != []
    ensures Spliced([[c] + x[0]] + x[1..], y) == [[c] + Spliced(x, y)[0]] + Spliced(x, y)[1..]
  {
    if |x| == 1 {
      assert x[1..] == [];
      assert [c] + (x[0] + y[0]) == [c] + x[0] + y[0];
    } else {
      SplicedBehind([c] + x[0], x[1..], y);
      SplicedBehind(x[0], x[1..], y);
      assert [x[0]] + x[1..] == x;
    }
  }

  /** Splitting a concatenation: only the parts at the border are joined. */
  lemma {:induction false} SplitConcat(a: string, b: string, sep: char)
    ensures Split(a + b, sep) == Spliced(Split(a, sep), Split(b, sep))
    decreases |a|
  {
    if a == [] {
      assert a + b == b;
      SplicedEmpty(Split(b, sep));
    } else {
      assert (a + b)[1..] == a[1..] + b;
      SplitConcat(a[1..], b, sep);
      var rest, y := Split(a[1..], sep), Split(b, sep);
      hide Spliced;
      SplicedBehind([], rest, y);
      SplicedInto(a[0], rest, y);
    }
  }

  function TotalSize(parts: seq<string>): nat {
    if parts == [] then 0 else |parts[0]| + TotalSize(parts[1..])
  }

  lemma {:induction false} TotalSizeConcat(a: seq<string>, b: seq<string>)
    ensures TotalSize(a + b) == TotalSize(a) + TotalSize(b)
    decreases |a|
  {
    if a == [] {
      assert a + b == b;
    } else {
      assert (a + b)[1..] == a[1..] + b;
      TotalSizeConcat(a[1..], b);
    }
  }

  lemma {:induction false} JoinSize(parts: seq<string>, sep: string)
    requires parts != []
    ensures |Join(parts, sep)| == TotalSize(parts) + (|parts| - 1) * |sep|
    decreases |parts|
  {
    if |parts| == 1 {
      assert parts[1..] == [];
    } else {
      JoinSize(parts[1..], sep);
      assert (|parts| - 2) * |sep| + |sep| == (|parts| - 1) * |sep|;
    }
  }
}
