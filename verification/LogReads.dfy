/** What the reporter reads off a log that keeps growing, and when the server can take it: the read must fit the body of
    a request, and its redaction must not be empty and must fit a chunk and what is left of the log's allowance. */
module LogReads {
  import opened Prelude
  import opened Text
  import Json
  import Redaction

  const MAX_READ: nat := 64 * 1024

  /** One read into the buffer, at the beginning of what has not been read. */
  function FirstRead(rest: string): (t: string)
    ensures t <= rest
  {
    if |rest| <= MAX_READ then rest else rest[..MAX_READ]
  }

  /** A read that the server can take: `cap` bounds its redaction and `body` its size inside a request. */
  predicate TextFits(t: string, cap: nat, body: int) {
    Json.StringSize(t) <= body && 0 < |Redaction.Redact(t)| <= cap
  }

  /** Some read can be taken, however much the log grows before it is made. */
  ghost predicate SomeReadFits(rest: string, cap: nat, body: int) {
    exists growth: string :: TextFits(FirstRead(rest + growth), cap, body)
  }

  // ---------------------------------------------------------------------------
  // The same without asking about the future
  // ---------------------------------------------------------------------------

  function LastLine(content: string): string {
    var lines := Split(Redaction.WithoutNul(content), '\n');
    lines[|lines| - 1]
  }

  /** The end of the line is the beginning of a marker, of which at most `slack` characters are missing. */
  predicate EndsInMarker(line: string, k: nat, j: nat, slack: nat)
    requires k < |Redaction.MARKERS|
  {
    var marker := Redaction.MARKERS[k];
    j <= |marker| && j <= |line| && |marker| - j <= slack && Lower(line)[|line| - j..] == marker[..j]
  }

  predicate Completable(line: string, slack: nat) {
    exists k, j | 0 <= k < |Redaction.MARKERS| && 0 <= j <= |Redaction.MARKERS[k]| :: EndsInMarker(line, k, j, slack)
  }

  /** How many characters can still be added to a read that does not fill the buffer. */
  function Slack(rest: string, body: int): int {
    var buffer, request := MAX_READ - |rest|, body - Json.StringSize(rest);
    if buffer < request then buffer else request
  }

  /** A full read stays as it is. A short one can be taken as it is; or, when its redaction is empty, with one character
      more; or, when its redaction is too long, once its last line has become sensitive and is replaced as a whole. */
  predicate NextReadFits(rest: string, cap: nat, body: int) {
    if |rest| >= MAX_READ then TextFits(rest[..MAX_READ], cap, body)
    else
      var slack, size := Slack(rest, body), |Redaction.Redact(rest)|;
      && slack >= 0
      && if size == 0 then slack >= 1 && cap >= 1
         else
           || size <= cap
           || (Completable(LastLine(rest), slack)
               && size - |Redaction.RedactLine(LastLine(rest))| + |Redaction.REPLACEMENT| <= cap)
  }

  // --- markers ---

  lemma {:induction false} ContainsLater(s: string, more: string, part: string)
    requires Contains(s, part)
    ensures Contains(s + more, part)
  {
    var p :| 0 <= p <= |s| && OccursAt(s, part, p);
    assert (s + more)[p..p + |part|] == s[p..p + |part|];
    assert OccursAt(s + more, part, p);
  }

  lemma {:induction false} LowerConcat(a: string, b: string)
    ensures Lower(a + b) == Lower(a) + Lower(b)
  {
  }

  /** A sensitive line stays sensitive. */
  lemma {:induction false} SensitiveStays(line: string, more: string)
    requires Redaction.Sensitive(line)
    ensures Redaction.Sensitive(line + more)
  {
    hide Contains, Lower;
    var k :| 0 <= k < |Redaction.MARKERS| && Contains(Lower(line), Redaction.MARKERS[k]);
    LowerConcat(line, more);
    ContainsLater(Lower(line), Lower(more), Redaction.MARKERS[k]);
  }

  lemma {:induction false} OccursEarlier(s: string, more: string, part: string, p: int)
    requires OccursAt(s + more, part, p) && p + |part| <= |s|
    ensures Contains(s, part)
  {
    assert s[p..p + |part|] == (s + more)[p..p + |part|];
    assert OccursAt(s, part, p);
  }

  lemma {:induction false} MarkerAtTheBorder(line: string, more: string, k: nat, slack: nat)
    requires k < |Redaction.MARKERS| && |more| <= slack
    requires Contains(Lower(line) + Lower(more), Redaction.MARKERS[k]) && !Contains(Lower(line), Redaction.MARKERS[k])
    ensures Completable(line, slack)
  {
    var marker, low, all := Redaction.MARKERS[k], Lower(line), Lower(line) + Lower(more);
    var p :| 0 <= p <= |all| && OccursAt(all, marker, p);
    if p + |marker| <= |low| {
      OccursEarlier(low, Lower(more), marker, p);
      assert false;
    }
    var j := if p < |low| then |low| - p else 0;
    hide OccursAt;
    assert marker == all[p..p + |marker|] by { Occurrence(all, marker, p); }
    assert low[|low| - j..] == marker[..j];
    assert EndsInMarker(line, k, j, slack);
  }

  lemma {:induction false} Occurrence(s: string, part: string, p: int)
    requires OccursAt(s, part, p)
    ensures 0 <= p <= |s| - |part| && part == s[p..p + |part|]
  {
  }

  /** A line that is not sensitive becomes so only by completing a marker. */
  lemma {:induction false} BecomesSensitive(line: string, more: string, slack: nat)
    requires Redaction.Sensitive(line + more) && !Redaction.Sensitive(line) && |more| <= slack
    ensures Completable(line, slack)
  {
    hide Contains, Lower, Completable;
    var k :| 0 <= k < |Redaction.MARKERS| && Contains(Lower(line + more), Redaction.MARKERS[k]);
    LowerConcat(line, more);
    MarkerAtTheBorder(line, more, k, slack);
  }

  lemma {:induction false} MarkersArePlain(k: nat)
    requires k < |Redaction.MARKERS|
    ensures forall i | 0 <= i < |Redaction.MARKERS[k]| ::
      var c := Redaction.MARKERS[k][i]; LowerRune(c) == c && Json.CharSize(c) == 1 && c != Redaction.NUL && c != '\n'
  {
  }

  lemma {:induction false} CompletedLine(line: string, marker: string, j: nat)
    requires j <= |marker| && j <= |line| && Lower(line)[|line| - j..] == marker[..j]
      && Lower(marker[j..]) == marker[j..]
    ensures Contains(Lower(line + marker[j..]), marker)
  {
    hide Lower;
    var all, p := Lower(line) + marker[j..], |line| - j;
    LowerConcat(line, marker[j..]);
    assert all[p..p + |marker|] == Lower(line)[p..] + marker[j..] == marker;
    assert OccursAt(all, marker, p);
  }

  lemma {:induction false} PlainTail(marker: string, j: nat)
    requires j <= |marker|
    requires forall i | 0 <= i < |marker| ::
      var c := marker[i]; LowerRune(c) == c && Json.CharSize(c) == 1 && c != Redaction.NUL && c != '\n'
    ensures var more := marker[j..];
      Lower(more) == more && Redaction.NUL !in more && '\n' !in more && Json.StringSize(more) == |more|
  {
    var more := marker[j..];
    forall i | 0 <= i < |more|
      ensures LowerRune(more[i]) == more[i] && Json.CharSize(more[i]) == 1 && more[i] != Redaction.NUL
        && more[i] != '\n'
    {
      assert more[i] == marker[j + i];
    }
    hide LowerRune, Json.CharSize;
    Json.PlainSize(more);
  }

  /** And a marker that can be completed makes it so. */
  lemma {:induction false} CompletedIsSensitive(line: string, slack: nat) returns (more: string)
    requires Completable(line, slack)
    ensures |more| <= slack && Redaction.Sensitive(line + more)
    ensures Redaction.NUL !in more && '\n' !in more && Json.StringSize(more) == |more|
  {
    var k, j :| 0 <= k < |Redaction.MARKERS| && 0 <= j <= |Redaction.MARKERS[k]| && EndsInMarker(line, k, j, slack);
    hide Lower, LowerRune, Json.CharSize, Json.StringSize, Contains;
    var marker := Redaction.MARKERS[k];
    more := marker[j..];
    MarkersArePlain(k);
    PlainTail(marker, j);
    CompletedLine(line, marker, j);
  }

  // --- the size of a redaction ---

  lemma {:induction false} WithoutNulConcat(a: string, b: string)
    ensures Redaction.WithoutNul(a + b) == Redaction.WithoutNul(a) + Redaction.WithoutNul(b)
    decreases |a|
  {
    if a == [] {
      assert a + b == b;
    } else {
      assert (a + b)[1..] == a[1..] + b;
      WithoutNulConcat(a[1..], b);
    }
  }

  lemma {:induction false} NothingToStrip(s: string)
    requires Redaction.NUL !in s
    ensures Redaction.WithoutNul(s) == s
  {
  }

  function RedactedSize(lines: seq<string>): nat
    requires lines != []
  {
    TotalSize(Redaction.RedactLines(lines)) + |lines| - 1
  }

  lemma {:induction false} RedactSize(content: string)
    ensures |Redaction.Redact(content)| == RedactedSize(Split(Redaction.WithoutNul(content), '\n'))
  {
    JoinSize(Redaction.RedactLines(Split(Redaction.WithoutNul(content), '\n')), "\n");
  }

  lemma {:induction false} SizeAround(front: seq<string>, line: string, back: seq<string>)
    ensures RedactedSize(front + [line] + back)
      == TotalSize(Redaction.RedactLines(front)) + |Redaction.RedactLine(line)| + TotalSize(Redaction.RedactLines(back))
         + |front| + |back|
  {
    hide Redaction.RedactLine;
    var lines := front + [line] + back;
    assert Redaction.RedactLines(lines)
        == Redaction.RedactLines(front) + [Redaction.RedactLine(line)] + Redaction.RedactLines(back);
    TotalSizeConcat(Redaction.RedactLines(front) + [Redaction.RedactLine(line)], Redaction.RedactLines(back));
    TotalSizeConcat(Redaction.RedactLines(front), [Redaction.RedactLine(line)]);
    assert [Redaction.RedactLine(line)][1..] == [];
    assert TotalSize([Redaction.RedactLine(line)]) == |Redaction.RedactLine(line)|;
  }

  /** Growth changes the last line and adds lines behind it. */
  lemma {:induction false} GrownSize(rest: string, more: string)
    ensures var first := Split(Redaction.WithoutNul(more), '\n')[0];
      var kept := |Redaction.Redact(rest)| - |Redaction.RedactLine(LastLine(rest))|;
      && |Redaction.Redact(rest + more)| >= kept + |Redaction.RedactLine(LastLine(rest) + first)|
      && ('\n' !in Redaction.WithoutNul(more) ==>
            first == Redaction.WithoutNul(more)
            && |Redaction.Redact(rest + more)| == kept + |Redaction.RedactLine(LastLine(rest) + first)|)
      && |Redaction.RedactLine(LastLine(rest))| <= |Redaction.Redact(rest)|
  {
    hide Redaction.RedactLine, Redaction.Redact, Split, Redaction.WithoutNul;
    var x, y := Split(Redaction.WithoutNul(rest), '\n'), Split(Redaction.WithoutNul(more), '\n');
    var front := x[..|x| - 1];
    WithoutNulConcat(rest, more);
    SplitConcat(Redaction.WithoutNul(rest), Redaction.WithoutNul(more), '\n');
    RedactSize(rest);
    RedactSize(rest + more);
    assert x == front + [LastLine(rest)] + [];
    SizeAround(front, LastLine(rest), []);
    SizeAround(front, LastLine(rest) + y[0], y[1..]);
    assert Redaction.RedactLines([]) == [];
    if '\n' !in Redaction.WithoutNul(more) {
      SplitNoSeparator(Redaction.WithoutNul(more), '\n');
      assert y[1..] == [];
    }
  }

  // --- both directions ---

  lemma {:induction false} FirstPartIsShort(s: string, sep: char)
    ensures |Split(s, sep)[0]| <= |s|
  {
    if s != [] {
      FirstPartIsShort(s[1..], sep);
    }
  }

  lemma {:induction false} StrippedIsShort(s: string)
    ensures |Redaction.WithoutNul(s)| <= |s|
  {
    if s != [] {
      StrippedIsShort(s[1..]);
    }
  }

  lemma {:induction false} ShortReadNeeds(rest: string, more: string, cap: nat, body: int)
    requires |rest| + |more| <= MAX_READ && |rest| < MAX_READ && TextFits(rest + more, cap, body)
    ensures NextReadFits(rest, cap, body)
  {
    hide Redaction.Redact, Redaction.RedactLine, LastLine, Completable, Split, Redaction.WithoutNul;
    Json.StringSizeConcat(rest, more);
    var slack := Slack(rest, body);
    assert 0 <= |more| <= slack;
    assert more == [] ==> rest + more == rest;
    if |Redaction.Redact(rest)| != 0 {
      var last, first := LastLine(rest), Split(Redaction.WithoutNul(more), '\n')[0];
      GrownSize(rest, more);
      FirstPartIsShort(Redaction.WithoutNul(more), '\n');
      StrippedIsShort(more);
      LineNeeds(last, first, slack);
    }
  }

  /** Growing a line makes its redaction shorter only where it becomes sensitive. */
  lemma {:induction false} LineNeeds(line: string, more: string, slack: nat)
    requires |more| <= slack
    ensures |Redaction.RedactLine(line + more)| >= |Redaction.RedactLine(line)|
      || (Completable(line, slack) && |Redaction.RedactLine(line + more)| == |Redaction.REPLACEMENT|)
  {
    hide Completable, Redaction.Sensitive;
    if Redaction.Sensitive(line) {
      SensitiveStays(line, more);
    } else if Redaction.Sensitive(line + more) {
      BecomesSensitive(line, more, slack);
    }
  }

  lemma {:induction false} OneCharacterMore(rest: string)
    requires |Redaction.Redact(rest)| == 0
    ensures |Redaction.Redact(rest + "x")| == 1
  {
    hide Redaction.Redact, Redaction.WithoutNul, Redaction.Sensitive;
    GrownSize(rest, "x");
    assert Redaction.NUL !in "x" && '\n' !in "x";
    NothingToStrip("x");
    EmptyLine(rest);
    assert [] + "x" == "x";
    ShortIsHarmless("x");
  }

  lemma {:induction false} EmptyLine(rest: string)
    requires |Redaction.Redact(rest)| == 0
    ensures LastLine(rest) == []
  {
    hide Redaction.Redact, Redaction.WithoutNul, Redaction.Sensitive;
    GrownSize(rest, []);
    assert |Redaction.RedactLine(LastLine(rest))| == 0;
    assert |Redaction.REPLACEMENT| > 0;
  }

  lemma {:induction false} ShortIsHarmless(s: string)
    requires |s| <= 1
    ensures !Redaction.Sensitive(s)
  {
    forall k | 0 <= k < |Redaction.MARKERS| ensures !Contains(Lower(s), Redaction.MARKERS[k]) {
      assert |Redaction.MARKERS[k]| > 1;
    }
  }

  lemma {:induction false} ShortReadSuffices(rest: string, cap: nat, body: int) returns (growth: string)
    requires |rest| < MAX_READ && NextReadFits(rest, cap, body)
    ensures TextFits(FirstRead(rest + growth), cap, body)
  {
    hide Redaction.Redact, Redaction.RedactLine, LastLine, Completable, Redaction.WithoutNul, Redaction.Sensitive;
    var slack := Slack(rest, body);
    if |Redaction.Redact(rest)| == 0 {
      growth := "x";
      OneCharacterMore(rest);
      Json.StringSizeConcat(rest, "x");
      assert Json.StringSize("x") == 1;
    } else if |Redaction.Redact(rest)| <= cap {
      growth := [];
      assert rest + growth == rest;
    } else {
      growth := CompletedIsSensitive(LastLine(rest), slack);
      Json.StringSizeConcat(rest, growth);
      NothingToStrip(growth);
      GrownSize(rest, growth);
      ReplacedLine(LastLine(rest) + growth);
    }
  }

  lemma {:induction false} ReplacedLine(line: string)
    requires Redaction.Sensitive(line)
    ensures Redaction.RedactLine(line) == Redaction.REPLACEMENT && |Redaction.REPLACEMENT| == 39
  {
    hide Redaction.Sensitive;
  }

  /** Whether any later read can be taken is decided by what has been written so far. */
  lemma {:induction false} SomeReadFitsExactly(rest: string, cap: nat, body: int)
    ensures SomeReadFits(rest, cap, body) <==> NextReadFits(rest, cap, body)
  {
    hide TextFits;
    if growth :| TextFits(FirstRead(rest + growth), cap, body) {
      if |rest| >= MAX_READ {
        assert (rest + growth)[..MAX_READ] == rest[..MAX_READ];
        if |rest| == MAX_READ && growth == [] {
          assert rest + growth == rest == rest[..MAX_READ];
        }
      } else {
        var t := FirstRead(rest + growth);
        var more := t[|rest|..];
        assert t == rest + more;
        ShortReadNeeds(rest, more, cap, body);
      }
    }
    if NextReadFits(rest, cap, body) {
      if |rest| >= MAX_READ {
        assert FirstRead(rest + []) == rest[..MAX_READ] by { assert rest + [] == rest; }
        assert TextFits(FirstRead(rest + []), cap, body);
      } else {
        var growth := ShortReadSuffices(rest, cap, body);
      }
    }
  }
}
