/** Log redaction of internal/telemetry/model.go. */
module Redaction {
  import opened Text

  const REPLACEMENT := "[REDACTED sensitive installer log line]"
  const NUL: char := '\U{0000}'

  const MARKERS: seq<string> := [
    "authorization:", "bearer ", "password=", "password:", "token=", "token:", "secret=", "secret:",
    "cookie=", "cookie:", "private_key=", "private key-----", "recovery_key=", "recovery key:"
  ]

  /** sensitiveLogLine, applied to the lower-cased line. */
  predicate Sensitive(line: string) {
    exists k | 0 <= k < |MARKERS| :: Contains(Lower(line), MARKERS[k])
  }

  function WithoutNul(s: string): (r: string)
    ensures NUL !in r
    ensures NUL !in s ==> r == s
    ensures forall c :: c in r ==> c in s
  {
    if s == [] then []
    else if s[0] == NUL then WithoutNul(s[1..])
    else [s[0]] + WithoutNul(s[1..])
  }

  function RedactLine(line: string): string {
    if Sensitive(line) then REPLACEMENT else line
  }

  function RedactLines(lines: seq<string>): (r: seq<string>)
    ensures |r| == |lines|
    ensures forall k :: 0 <= k < |lines| ==> r[k] == RedactLine(lines[k])
  {
    seq(|lines|, k requires 0 <= k < |lines| => RedactLine(lines[k]))
  }

  /** The value that RedactLogContent returns. */
  function Redact(content: string): string {
    Join(RedactLines(Split(WithoutNul(content), '\n')), "\n")
  }

  /** RedactLogContent: the line slice is overwritten in place, one sensitive line at a time. */
  method RedactLogContent(content: string) returns (redacted: string)
    ensures redacted == Redact(content)
    ensures |Split(redacted, '\n')| == |Split(WithoutNul(content), '\n')|
    ensures forall k :: 0 <= k < |Split(redacted, '\n')| ==> !Sensitive(Split(redacted, '\n')[k])
    ensures forall k :: 0 <= k < |Split(redacted, '\n')| && !Sensitive(Split(WithoutNul(content), '\n')[k]) ==>
      Split(redacted, '\n')[k] == Split(WithoutNul(content), '\n')[k]
  {
    var stripped := WithoutNul(content);
    var original := Split(stripped, '\n');
    var lines := original;
    var index := 0;
    while index < |lines|
      invariant 0 <= index <= |lines| == |original|
      invariant forall k :: 0 <= k < index ==> lines[k] == RedactLine(original[k])
      invariant forall k :: index <= k < |lines| ==> lines[k] == original[k]
    {
      if Sensitive(lines[index]) {
        lines := lines[index := REPLACEMENT];
      }
      index := index + 1;
    }
    assert lines == RedactLines(original);
    redacted := Join(lines, "\n");
    RedactedLines(content);
    ReplacementIsHarmless();
  }

  /** No marker occurs in the replacement: each one holds a character that the replacement lacks. */
  lemma ReplacementIsHarmless()
    ensures !Sensitive(REPLACEMENT)
    ensures '\n' !in REPLACEMENT && NUL !in REPLACEMENT
  {
    forall k | 0 <= k < |MARKERS| ensures !Contains(Lower(REPLACEMENT), MARKERS[k]) {
      var i := MarkerWitness(k);
      ReplacementLacks(MARKERS[k][i]);
      ContainedCharacter(Lower(REPLACEMENT), MARKERS[k], i);
    }
  }

  lemma ReplacementLacks(c: char)
    requires c in {':', '=', '-', 'b'}
    ensures c !in Lower(REPLACEMENT)
  {
    forall k | 0 <= k < |REPLACEMENT| ensures LowerRune(REPLACEMENT[k]) != c {
    }
  }

  lemma ContainedCharacter(s: string, part: string, i: nat)
    requires i < |part|
    ensures Contains(s, part) ==> part[i] in s
  {
    if Contains(s, part) {
      var p :| 0 <= p <= |s| && OccursAt(s, part, p);
      assert s[p..p + |part|][i] == s[p + i];
    }
  }

  lemma MarkerWitness(k: nat) returns (i: nat)
    requires k < |MARKERS|
    ensures i < |MARKERS[k]| && MARKERS[k][i] in {':', '=', '-', 'b'}
  {
    i := if k == 1 then 0 else |MARKERS[k]| - 1;
  }

  /** The lines of the redacted text are the redacted lines of the text, in place. */
  lemma RedactedLines(content: string)
    ensures Split(Redact(content), '\n') == RedactLines(Split(WithoutNul(content), '\n'))
    ensures NUL !in Redact(content)
  {
    var lines := Split(WithoutNul(content), '\n');
    ReplacementIsHarmless();
    SplitJoin(RedactLines(lines), '\n');
    forall k, c | 0 <= k < |lines| && c in RedactLines(lines)[k] ensures c != NUL {
      if !Sensitive(lines[k]) {
        SplitKeepsCharacters(WithoutNul(content), '\n', k, c);
      }
    }
    JoinAvoids(RedactLines(lines), "\n", NUL);
  }

  lemma {:induction false} JoinAvoids(parts: seq<string>, sep: string, c: char)
    requires c !in sep
    requires forall k, d :: 0 <= k < |parts| && d in parts[k] ==> d != c
    ensures c !in Join(parts, sep)
  {
    if |parts| > 1 {
      JoinAvoids(parts[1..], sep, c);
    }
  }

  /** Redaction keeps the number of lines, replaces every sensitive line and touches no other one. */
  lemma RedactionIsExact(content: string, k: nat)
    requires k < |Split(WithoutNul(content), '\n')|
    ensures |Split(Redact(content), '\n')| == |Split(WithoutNul(content), '\n')|
    ensures !Sensitive(Split(Redact(content), '\n')[k])
    ensures Split(Redact(content), '\n')[k] == Split(WithoutNul(content), '\n')[k]
      <==> !Sensitive(Split(WithoutNul(content), '\n')[k])
    ensures Sensitive(Split(WithoutNul(content), '\n')[k])
      ==> Split(Redact(content), '\n')[k] == "[REDACTED sensitive installer log line]"
  {
    RedactedLines(content);
    ReplacementIsHarmless();
  }

  /** Redacting twice changes nothing more: a retried chunk keeps its digest. */
  lemma RedactionIsIdempotent(content: string)
    ensures Redact(Redact(content)) == Redact(content)
  {
    RedactedLines(content);
    ReplacementIsHarmless();
    var once := Redact(content);
    var lines := Split(once, '\n');
    assert RedactLines(lines) == lines;
    JoinSplit(once, '\n');
  }
}
