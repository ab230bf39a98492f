/** The line-splitting ring buffer of internal/observability/logbuffer.go. */
module LogBuffer {
  import opened Prelude

  type Bytes = seq<Byte>
  const NEWLINE: Byte := 10

  datatype LogEntry = LogEntry(sequence: nat, line: Bytes)

  // ---------------------------------------------------------------------------
  // What the buffer means: the complete lines of everything written so far.
  // ---------------------------------------------------------------------------

  function FirstNewline(input: Bytes): (k: nat)
    requires NEWLINE in input
    ensures k < |input| && input[k] == NEWLINE && NEWLINE !in input[..k]
  {
    if input[0] == NEWLINE then 0 else 1 + FirstNewline(input[1..])
  }

  /** The unterminated tail after the last newline. */
  function Tail(input: Bytes): (r: Bytes)
    ensures NEWLINE !in r
  {
    if NEWLINE in input then Tail(input[FirstNewline(input) + 1..]) else input
  }

  /** The newline-terminated lines, without their newlines. */
  function CompleteLines(input: Bytes): seq<Bytes> {
    if NEWLINE in input then
      var k := FirstNewline(input);
      [input[..k]] + CompleteLines(input[k + 1..])
    else []
  }

  /** The trimmed lines that are not blank, in order. The trimming function is a parameter: nothing below
      depends on which characters bytes.TrimSpace removes. */
  function Kept(lines: seq<Bytes>, trim: Bytes -> Bytes): seq<Bytes> {
    if lines == [] then []
    else
      var init := Kept(lines[..|lines| - 1], trim);
      var line := trim(lines[|lines| - 1]);
      if line == [] then init else init + [line]
  }

  function Stream(input: Bytes, trim: Bytes -> Bytes): seq<Bytes> {
    Kept(CompleteLines(input), trim)
  }

  function Min(a: nat, b: nat): nat {
    if a < b then a else b
  }

  /** The last `capacity` lines, each numbered by its position in the stream, counting from one. */
  function LastNumbered(lines: seq<Bytes>, capacity: nat): (r: seq<LogEntry>)
    ensures |r| == Min(capacity, |lines|)
    ensures forall k :: 0 <= k < |r| ==>
      r[k] == LogEntry(|lines| - |r| + k + 1, lines[|lines| - |r| + k])
  {
    var size := Min(capacity, |lines|);
    seq(size, k requires 0 <= k < size => LogEntry(|lines| - size + k + 1, lines[|lines| - size + k]))
  }

  lemma {:induction false} FirstNewlineOfConcat(written: Bytes, more: Bytes)
    requires NEWLINE in written
    ensures NEWLINE in written + more
    ensures FirstNewline(written + more) == FirstNewline(written)
  {
    assert (written + more)[|written| - 1] in written + more;
    if written[0] != NEWLINE {
      assert (written + more)[1..] == written[1..] + more;
      FirstNewlineOfConcat(written[1..], more);
    }
  }

  /** Writing in chunks is writing the concatenation: only the unterminated tail carries over. */
  lemma {:induction false} Chunked(written: Bytes, more: Bytes)
    ensures CompleteLines(written + more) == CompleteLines(written) + CompleteLines(Tail(written) + more)
    ensures Tail(written + more) == Tail(Tail(written) + more)
    decreases |written|
  {
    if NEWLINE in written {
      var k := FirstNewline(written);
      FirstNewlineOfConcat(written, more);
      assert (written + more)[..k] == written[..k];
      assert (written + more)[k + 1..] == written[k + 1..] + more;
      Chunked(written[k + 1..], more);
    }
  }

  lemma LastNumberedOneMore(lines: seq<Bytes>, line: Bytes, capacity: nat)
    requires capacity >= 1
    ensures var shown := LastNumbered(lines, capacity);
      LastNumbered(lines + [line], capacity)
        == (if |lines| < capacity then shown else shown[1..]) + [LogEntry(|lines| + 1, line)]
  {
  }

  lemma KeptOneMore(lines: seq<Bytes>, raw: Bytes, trim: Bytes -> Bytes)
    ensures Kept(lines + [raw], trim) == Kept(lines, trim) + (if trim(raw) == [] then [] else [trim(raw)])
  {
    assert (lines + [raw])[..|lines|] == lines;
  }

  lemma {:induction false} KeptConcat(a: seq<Bytes>, b: seq<Bytes>, trim: Bytes -> Bytes)
    ensures Kept(a + b, trim) == Kept(a, trim) + Kept(b, trim)
  {
    if b == [] {
      assert a + b == a;
    } else {
      assert (a + b)[..|a + b| - 1] == a + b[..|b| - 1];
      KeptConcat(a, b[..|b| - 1], trim);
    }
  }

  /** The stream only grows: a line keeps its number forever. */
  lemma StreamGrows(written: Bytes, more: Bytes, trim: Bytes -> Bytes)
    ensures Stream(written, trim) <= Stream(written + more, trim)
  {
    Chunked(written, more);
    KeptConcat(CompleteLines(written), CompleteLines(Tail(written) + more), trim);
  }

  // ---------------------------------------------------------------------------
  // Reading: Snapshot and TailThrough as functions of the entries.
  // ---------------------------------------------------------------------------

  /** The entries numbered above `after`. */
  function Above(entries: seq<LogEntry>, after: nat): seq<LogEntry> {
    if entries == [] then []
    else (if entries[0].sequence > after then [entries[0]] else []) + Above(entries[1..], after)
  }

  function SnapshotOf(entries: seq<LogEntry>, after: nat, limit: nat): seq<LogEntry> {
    var newer := Above(entries, after);
    newer[..Min(limit, |newer|)]
  }

  /** The entries numbered at most `bound`. */
  function UpTo(entries: seq<LogEntry>, bound: nat): (r: seq<LogEntry>)
    ensures |r| <= |entries|
  {
    if entries == [] then []
    else
      var last := entries[|entries| - 1];
      if last.sequence > bound then UpTo(entries[..|entries| - 1], bound) else entries
  }

  function TailOf(entries: seq<LogEntry>, bound: nat, limit: nat): seq<LogEntry> {
    var older := UpTo(entries, bound);
    older[|older| - Min(limit, |older|)..]
  }

  function EffectiveLimit(limit: int, capacity: nat): (r: nat)
    requires capacity >= 1
    ensures 1 <= r <= capacity
    ensures 1 <= limit <= capacity ==> r == limit
    ensures !(1 <= limit <= capacity) ==> r == capacity
  {
    if limit <= 0 || limit > capacity then capacity else limit
  }

  ghost predicate Rising(entries: seq<LogEntry>) {
    forall j, k :: 0 <= j < k < |entries| ==> entries[j].sequence < entries[k].sequence
  }

  lemma {:induction false} AboveConcat(a: seq<LogEntry>, b: seq<LogEntry>, after: nat)
    ensures Above(a + b, after) == Above(a, after) + Above(b, after)
  {
    if a == [] {
      assert a + b == b;
    } else {
      assert (a + b)[1..] == a[1..] + b;
      AboveConcat(a[1..], b, after);
    }
  }

  lemma {:induction false} AboveAll(entries: seq<LogEntry>, after: nat)
    requires forall k :: 0 <= k < |entries| ==> entries[k].sequence > after
    ensures Above(entries, after) == entries
  {
    if entries != [] {
      AboveAll(entries[1..], after);
      assert entries == [entries[0]] + entries[1..];
    }
  }

  lemma {:induction false} AboveNone(entries: seq<LogEntry>, after: nat)
    requires forall k :: 0 <= k < |entries| ==> entries[k].sequence <= after
    ensures Above(entries, after) == []
  {
    if entries != [] {
      AboveNone(entries[1..], after);
    }
  }

  lemma AboveCut(entries: seq<LogEntry>, cut: nat, after: nat)
    requires cut <= |entries|
    requires forall k :: 0 <= k < cut ==> entries[k].sequence <= after
    requires forall k :: cut <= k < |entries| ==> entries[k].sequence > after
    ensures Above(entries, after) == entries[cut..]
  {
    assert entries == entries[..cut] + entries[cut..];
    AboveConcat(entries[..cut], entries[cut..], after);
    AboveNone(entries[..cut], after);
    AboveAll(entries[cut..], after);
  }

  /** What a snapshot of the last numbered lines holds: consecutive lines, starting after the cursor or at the
      oldest line kept, whichever is later. */
  lemma SnapshotOfLast(lines: seq<Bytes>, cursor: nat, limit: nat, capacity: nat) returns (first: nat)
    requires limit >= 1
    ensures first == (if cursor < |lines| - Min(capacity, |lines|) then |lines| - Min(capacity, |lines|) else cursor)
    ensures var out := SnapshotOf(LastNumbered(lines, capacity), cursor, limit);
      && |out| == (if first < |lines| then Min(limit, |lines| - first) else 0)
      && forall k :: 0 <= k < |out| ==> out[k] == LogEntry(first + k + 1, lines[first + k])
  {
    var entries := LastNumbered(lines, capacity);
    var oldest := |lines| - |entries|;
    first := if cursor < oldest then oldest else cursor;
    var cut := if first < |lines| then first - oldest else |entries|;
    AboveCut(entries, cut, cursor);
  }

  /** On rising entries, UpTo is the prefix of exactly the entries numbered at most `bound`. */
  lemma {:induction false} UpToIsPrefix(entries: seq<LogEntry>, bound: nat)
    requires Rising(entries)
    ensures UpTo(entries, bound) == entries[..|UpTo(entries, bound)|]
    ensures forall k :: 0 <= k < |entries| ==> (k < |UpTo(entries, bound)| <==> entries[k].sequence <= bound)
  {
    if entries != [] {
      var last := |entries| - 1;
      if entries[last].sequence > bound {
        UpToIsPrefix(entries[..last], bound);
        assert forall k :: 0 <= k < last ==> entries[..last][k] == entries[k];
      }
    }
  }

  /** What a tail of the last numbered lines holds: consecutive lines ending at the bound or at the newest line. */
  lemma TailOfLast(lines: seq<Bytes>, bound: nat, limit: nat, capacity: nat)
    ensures var out := TailOf(LastNumbered(lines, capacity), bound, limit);
      var oldest, last := |lines| - Min(capacity, |lines|), Min(bound, |lines|);
      && |out| == (if last < oldest then 0 else Min(limit, last - oldest))
      && forall k :: 0 <= k < |out| ==> out[k] == LogEntry(last - |out| + k + 1, lines[last - |out| + k])
  {
    var entries := LastNumbered(lines, capacity);
    UpToIsPrefix(entries, bound);
    var n := |UpTo(entries, bound)|;
    var oldest, last := |lines| - |entries|, Min(bound, |lines|);
    if n > 0 {
      assert entries[n - 1].sequence <= bound;
    }
    if n < |entries| {
      assert entries[n].sequence > bound;
    }
    assert n == if last < oldest then 0 else last - oldest;
  }

  // ---------------------------------------------------------------------------
  // The buffer itself.
  // ---------------------------------------------------------------------------

  class LogBuffer {
    const capacity: nat
    const trim: Bytes -> Bytes
    const slots: array<LogEntry>
    var count: nat
    var next: nat
    var pending: Bytes
    ghost var written: Bytes

    ghost predicate Valid()
      reads this, slots
    {
      && capacity >= 1
      && slots.Length == capacity
      && count <= capacity
      && next == |Stream(written, trim)| + 1
      && slots[..count] == LastNumbered(Stream(written, trim), capacity)
      && pending == Tail(written)
    }

    ghost function Entries(): seq<LogEntry>
      requires count <= slots.Length
      reads this, slots
    {
      slots[..count]
    }

    constructor (requested: int, trim: Bytes -> Bytes)
      ensures Valid()
      ensures capacity == (if requested < 1 then 1 else requested)
      ensures written == [] && this.trim == trim && fresh(slots)
    {
      var size: nat := if requested < 1 then 1 else requested;
      capacity := size;
      this.trim := trim;
      slots := new LogEntry[size](_ => LogEntry(0, []));
      count, next, pending, written := 0, 1, [], [];
    }

    /** appendLocked: fill the next slot, or shift every entry down and overwrite the last one. */
    method AppendLocked(line: Bytes, ghost lines: seq<Bytes>)
      requires capacity >= 1 && slots.Length == capacity && count <= capacity
      requires next == |lines| + 1
      requires slots[..count] == LastNumbered(lines, capacity)
      modifies this`count, this`next, slots
      ensures count <= capacity
      ensures next == |lines + [line]| + 1
      ensures slots[..count] == LastNumbered(lines + [line], capacity)
    {
      LastNumberedOneMore(lines, line, capacity);
      var entry := LogEntry(next, line);
      next := next + 1;
      if count < capacity {
        slots[count] := entry;
        count := count + 1;
        return;
      }
      ghost var before := slots[..];
      var k := 0;
      while k + 1 < count
        modifies slots
        invariant 0 <= k < count == slots.Length
        invariant forall j :: 0 <= j < k ==> slots[j] == before[j + 1]
        invariant forall j :: k <= j < count ==> slots[j] == before[j]
      {
        slots[k] := slots[k + 1];
        k := k + 1;
      }
      assert slots[..count - 1] == before[..count][1..];
      slots[count - 1] := entry;
    }

    /** Write: however the input is chunked, the buffer holds the last lines of the concatenation. */
    method Write(p: Bytes) returns (n: nat)
      requires Valid()
      modifies this`count, this`next, this`pending, this`written, slots
      ensures Valid()
      ensures n == |p| && written == old(written) + p
    {
      ghost var base := old(written);
      ghost var lines := CompleteLines(base);
      Chunked(base, p);
      pending := pending + p;
      written := written + p;
      while NEWLINE in pending
        invariant capacity >= 1 && slots.Length == capacity && count <= capacity
        invariant written == base + p
        invariant CompleteLines(written) == lines + CompleteLines(pending)
        invariant Tail(written) == Tail(pending)
        invariant next == |Kept(lines, trim)| + 1
        invariant slots[..count] == LastNumbered(Kept(lines, trim), capacity)
        decreases |pending|
      {
        var idx := FirstNewline(pending);
        assert lines + ([pending[..idx]] + CompleteLines(pending[idx + 1..]))
          == (lines + [pending[..idx]]) + CompleteLines(pending[idx + 1..]);
        KeptOneMore(lines, pending[..idx], trim);
        var line := trim(pending[..idx]);
        if line != [] {
          AppendLocked(line, Kept(lines, trim));
        }
        lines := lines + [pending[..idx]];
        pending := pending[idx + 1..];
      }
      assert lines + [] == lines;
      n := |p|;
    }

    /** Snapshot: walk the entries and stop at the limit. */
    method Snapshot(after: nat, limit: int) returns (out: seq<LogEntry>)
      requires Valid()
      ensures out == SnapshotOf(Entries(), after, EffectiveLimit(limit, capacity))
    {
      var bound := EffectiveLimit(limit, capacity);
      out := [];
      var k := 0;
      while k < count
        invariant 0 <= k <= count
        invariant out == Above(slots[..k], after)
        invariant |out| < bound
      {
        assert slots[..k + 1] == slots[..k] + [slots[k]];
        AboveConcat(slots[..k], [slots[k]], after);
        if slots[k].sequence > after {
          out := out + [slots[k]];
          if |out| == bound {
            assert slots[..count] == slots[..k + 1] + slots[k + 1..count];
            AboveConcat(slots[..k + 1], slots[k + 1..count], after);
            return;
          }
        }
        k := k + 1;
      }
    }

    /** TailThrough: step back over the newer entries, then copy at most the limit. */
    method TailThrough(bound: nat, limit: int) returns (out: seq<LogEntry>)
      requires Valid()
      ensures out == TailOf(Entries(), bound, EffectiveLimit(limit, capacity))
    {
      var size := EffectiveLimit(limit, capacity);
      var end := count;
      while end > 0 && slots[end - 1].sequence > bound
        invariant 0 <= end <= count
        invariant UpTo(slots[..count], bound) == UpTo(slots[..end], bound)
      {
        assert slots[..end][..end - 1] == slots[..end - 1];
        end := end - 1;
      }
      var start := if end < size then 0 else end - size;
      out := slots[start..end];
      assert slots[..end][start..] == out;
    }

    method LatestSequence() returns (latest: nat)
      requires Valid()
      ensures latest == |Stream(written, trim)|
    {
      latest := if count == 0 then 0 else slots[count - 1].sequence;
      assert count > 0 ==> slots[..count][count - 1] == slots[count - 1];
    }
  }

  // ---------------------------------------------------------------------------
  // A reader that polls with the number of the last entry it saw.
  // ---------------------------------------------------------------------------

  datatype Step = Wrote(bytes: Bytes) | Polled(limit: int)

  datatype Reader = Reader(written: Bytes, cursor: nat, seen: seq<LogEntry>)

  /** Any interleaving of writes and polls; a poll asks for what follows the last entry received. */
  function Observe(steps: seq<Step>, capacity: nat, trim: Bytes -> Bytes): Reader
    requires capacity >= 1
  {
    if steps == [] then Reader([], 0, [])
    else
      var before := Observe(steps[..|steps| - 1], capacity, trim);
      match steps[|steps| - 1]
      case Wrote(bytes) => before.(written := before.written + bytes)
      case Polled(limit) =>
        var out := SnapshotOf(LastNumbered(Stream(before.written, trim), capacity), before.cursor, EffectiveLimit(limit, capacity));
        if out == [] then before
        else before.(cursor := out[|out| - 1].sequence, seen := before.seen + out)
  }

  /** Every entry received is the line of that number in the stream, and the numbers rise. */
  ghost predicate Faithful(r: Reader, trim: Bytes -> Bytes) {
    && Rising(r.seen)
    && r.cursor == (if r.seen == [] then 0 else r.seen[|r.seen| - 1].sequence)
    && forall k :: 0 <= k < |r.seen| ==>
         && 1 <= r.seen[k].sequence <= |Stream(r.written, trim)|
         && r.seen[k].line == Stream(r.written, trim)[r.seen[k].sequence - 1]
  }

  lemma PollStaysFaithful(before: Reader, limit: nat, capacity: nat, trim: Bytes -> Bytes)
    requires Faithful(before, trim) && limit >= 1
    ensures var out := SnapshotOf(LastNumbered(Stream(before.written, trim), capacity), before.cursor, limit);
      out != [] ==> Faithful(before.(cursor := out[|out| - 1].sequence, seen := before.seen + out), trim)
  {
    var lines := Stream(before.written, trim);
    var first := SnapshotOfLast(lines, before.cursor, limit, capacity);
    var out := SnapshotOf(LastNumbered(lines, capacity), before.cursor, limit);
    var seen := before.seen + out;
    forall k | 0 <= k < |before.seen| ensures before.seen[k].sequence <= before.cursor {
    }
    forall j, k | 0 <= j < k < |seen| ensures seen[j].sequence < seen[k].sequence {
    }
  }

  /** Polling never repeats and never reorders an entry, and every entry received is the line of that number
      in the stream of everything written. */
  lemma {:induction false} PollingNeverRepeats(steps: seq<Step>, capacity: nat, trim: Bytes -> Bytes)
    requires capacity >= 1
    ensures Faithful(Observe(steps, capacity, trim), trim)
  {
    if steps != [] {
      var before := Observe(steps[..|steps| - 1], capacity, trim);
      PollingNeverRepeats(steps[..|steps| - 1], capacity, trim);
      match steps[|steps| - 1]
      case Wrote(bytes) =>
        StreamGrows(before.written, bytes, trim);
      case Polled(limit) =>
        PollStaysFaithful(before, EffectiveLimit(limit, capacity), capacity, trim);
    }
  }

  /** A reader that is at most `capacity` lines behind misses nothing: the next entry it receives is the one
      after its cursor. */
  lemma NoGapWithinCapacity(written: Bytes, cursor: nat, limit: int, capacity: nat, trim: Bytes -> Bytes)
    requires capacity >= 1
    requires cursor < |Stream(written, trim)| <= cursor + capacity
    ensures var out := SnapshotOf(LastNumbered(Stream(written, trim), capacity), cursor, EffectiveLimit(limit, capacity));
      && 1 <= |out| <= |Stream(written, trim)| - cursor
      && forall k :: 0 <= k < |out| ==> out[k] == LogEntry(cursor + k + 1, Stream(written, trim)[cursor + k])
  {
    var first := SnapshotOfLast(Stream(written, trim), cursor, EffectiveLimit(limit, capacity), capacity);
  }
}
