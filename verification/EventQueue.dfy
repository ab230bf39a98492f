/** The reporter's queue of lifecycle events: a file that is appended to, drained from the front and rewritten, over a
    network that loses and repeats, by a process that may be interrupted at any point, or die. */
module EventQueue {
  import opened Prelude
  import opened Text
  import opened Lifecycle
  import opened Records
  import opened Schema
  import opened Transactions
  import opened StoreInvariant
  import opened StoreSteps
  import opened TelemetrySteps
  import opened ControlPlane
  import opened StepsAreFaithful
  import Json

  /** sanitizeKey, on what is left after trimming and lower-casing. */
  function Sanitized(value: string): (r: string)
    ensures forall k | 0 <= k < |r| :: KeyChar(r[k])
  {
    if value == [] then []
    else (if KeyChar(value[0]) && !('A' <= value[0] <= 'Z') then [value[0]] else []) + Sanitized(value[1..])
  }

  function StageName(stage: Stage): string {
    match stage
    case Created => "created"
    case Queued => "queued"
    case PxeBooted => "pxe_booted"
    case InstallerStarted => "installer_started"
    case DiskPreparation => "disk_preparation"
    case OsInstalling => "os_installing"
    case ProfileApplying => "profile_applying"
    case Hardening => "hardening"
    case FirstBoot => "first_boot"
    case Validating => "validating"
    case Success => "success"
    case Failed => "failed"
  }

  /** The keys that QueueEvent gives its events begin with this. */
  const QUEUE_KEY: string := "reporter:stage:"

  predicate FromQueue(report: Report) {
    HasPrefix(report.key, QUEUE_KEY)
  }

  /** The idempotency key that QueueEvent gives an event. */
  function EventKey(stage: Stage, errorCode: string): (r: string)
    ensures HasPrefix(r, QUEUE_KEY)
  {
    var code := Sanitized(Lower(Trim(errorCode)));
    QUEUE_KEY + (StageName(stage) + if stage == Failed then ":" + (if code == "" then "unknown" else code) else "")
  }

  /** The report that QueueEvent stores, or None where it is refused. */
  function QueuedReport(stage: Stage, source: Source, message: string, errorCode: string, at: nat): (r: Option<Report>)
    ensures r.Some? ==> FromQueue(r.value)
  {
    if stage == Failed && Trim(errorCode) == "" then None
    else Some(Report(stage, source, at, EventKey(stage, errorCode), Trim(message), Trim(errorCode), map[]))
  }

  // --- the lines of the file ---

  const LINE_FRAME: string :=
    "{\"stage\":\"\",\"source\":\"\",\"message\":\"\",\"client_time\":\"\",\"idempotency_key\":\"\"}"
  const CODE_FRAME: string := ",\"error_code\":\"\""

  function SourceName(source: Source): string {
    match source
    case Server => "server"
    case Installer => "installer"
    case Finalizer => "finalizer"
    case Validator => "validator"
  }

  /** The length of the line that holds an event. */
  function LineSize(report: Report): nat {
    |LINE_FRAME| + |StageName(report.stage)| + |SourceName(report.source)| + Json.StringSize(report.message)
    + Json.TimeSize(report.clientAt) + Json.StringSize(report.key)
    + if report.errorCode == "" then 0 else |CODE_FRAME| + Json.StringSize(report.errorCode)
  }

  /** The scanner reads no longer line than this, and one that is longer fails the whole pass. */
  const MAX_LINE: nat := 64 * 1024 - 1

  predicate Scannable(lines: seq<Report>) {
    forall k | 0 <= k < |lines| :: LineSize(lines[k]) <= MAX_LINE
  }

  /** The key begins with the name of the stage, and no two names begin with the same two letters. */
  function KeyStage(first: char, second: char): Stage {
    if first == 'c' then Created
    else if first == 'q' then Queued
    else if first == 'i' then InstallerStarted
    else if first == 'd' then DiskPreparation
    else if first == 'o' then OsInstalling
    else if first == 'h' then Hardening
    else if first == 'v' then Validating
    else if first == 's' then Success
    else if first == 'p' then if second == 'x' then PxeBooted else ProfileApplying
    else if second == 'i' then FirstBoot
    else Failed
  }

  /** A key of the queue that tells the stage of its event. */
  predicate Keyed(report: Report) {
    FromQueue(report) && |report.key| >= 17 && KeyStage(report.key[15], report.key[16]) == report.stage
  }

  lemma {:induction false} NameBeginsWith(stage: Stage)
    ensures |StageName(stage)| >= 2 && KeyStage(StageName(stage)[0], StageName(stage)[1]) == stage
  {
  }

  lemma {:induction false} SanitizedKeeps(value: string, c: char)
    ensures c in Sanitized(value) <==> c in value && KeyChar(c) && !('A' <= c <= 'Z')
    decreases |value|
  {
    hide KeyChar;
    if value != [] {
      SanitizedKeeps(value[1..], c);
      assert value == [value[0]] + value[1..];
    }
  }

  /** The key of a failure ends in what a key may hold of its code, or in "unknown" when that is nothing; any other key
      ends in the name of the stage. */
  lemma {:induction false} KeysAreExact(stage: Stage, errorCode: string)
    ensures stage != Failed ==> EventKey(stage, errorCode) == "reporter:stage:" + StageName(stage)
    ensures stage == Failed ==>
      var code := Sanitized(Lower(Trim(errorCode)));
      if exists c :: c in Lower(Trim(errorCode)) && KeyChar(c) && !('A' <= c <= 'Z')
      then code != "" && EventKey(stage, errorCode) == "reporter:stage:" + ("failed:" + code)
      else EventKey(stage, errorCode) == "reporter:stage:" + "failed:unknown"
  {
    hide Sanitized, KeyChar, Lower, Trim;
    var value := Lower(Trim(errorCode));
    forall c {
      SanitizedKeeps(value, c);
    }
    var code := Sanitized(value);
    if code != "" {
      assert code[0] in code;
    }
    assert "failed" + (":" + code) == "failed:" + code && "failed" + (":" + "unknown") == "failed:unknown";
  }

  /** QueueEvent gives its events only such keys. */
  lemma {:induction false} QueuedIsKeyed(stage: Stage, source: Source, message: string, errorCode: string, at: nat)
    ensures var report := QueuedReport(stage, source, message, errorCode, at); report.Some? ==> Keyed(report.value)
  {
    hide StageName, KeyStage, Trim, Lower, Sanitized;
    NameBeginsWith(stage);
    var key := EventKey(stage, errorCode);
    assert |QUEUE_KEY| == 15;
    assert key[15] == StageName(stage)[0] && key[16] == StageName(stage)[1];
  }

  /** So an event's key fixes its stage. */
  lemma {:induction false} KeyFixesStage(a: Report, b: Report)
    requires Keyed(a) && Keyed(b) && a.key == b.key
    ensures a.stage == b.stage
  {
  }

  lemma {:induction false} KeyIsOfTheQueue(report: Report)
    requires Keyed(report)
    ensures FromQueue(report)
  {
  }

  /** The queue file, and the methods that change it. */
  class QueueFile {
    var lines: seq<Report>

    constructor ()
      ensures lines == []
    {
      lines := [];
    }

    method QueueEvent(stage: Stage, source: Source, message: string, errorCode: string, at: nat) returns (ok: bool)
      modifies this
      ensures var report := QueuedReport(stage, source, message, errorCode, at);
        ok == report.Some? && lines == old(lines) + (if ok then [report.value] else [])
      ensures ok ==> Keyed(lines[|lines| - 1])
    {
      hide QueuedReport, Keyed;
      QueuedIsKeyed(stage, source, message, errorCode, at);
      var report := QueuedReport(stage, source, message, errorCode, at);
      if report.Some? {
        lines := lines + [report.value];
      }
      return report.Some?;
    }

    /** drainEvents with the outcome of each post: one line that is too long and nothing is posted; otherwise it stops
        at the first event that is not accepted, and rewrites the file only when something was. */
    method DrainEvents(accepted: seq<bool>) returns (consumed: nat)
      requires |accepted| >= |lines|
      modifies this
      ensures consumed <= |old(lines)| && lines == old(lines)[consumed..]
      ensures !Scannable(old(lines)) ==> consumed == 0
      ensures Scannable(old(lines)) ==>
        (forall k :: 0 <= k < consumed ==> accepted[k]) && (consumed < |old(lines)| ==> !accepted[consumed])
    {
      hide LineSize;
      consumed := 0;
      var events := ScanLines();
      if events.None? {
        return;
      }
      consumed := CountAccepted(events.value, accepted);
      if consumed > 0 {
        lines := [];
        WriteLines(events.value[consumed..]);
      }
    }

    /** The events of the file, unless a line is too long. */
    method ScanLines() returns (events: Option<seq<Report>>)
      ensures events == if Scannable(lines) then Some(lines) else None
    {
      hide LineSize;
      var scanned: seq<Report> := [];
      for k := 0 to |lines|
        invariant scanned == lines[..k] && Scannable(scanned)
      {
        if LineSize(lines[k]) > MAX_LINE {
          return None;
        }
        scanned := scanned + [lines[k]];
      }
      assert lines[..|lines|] == lines;
      return Some(scanned);
    }

    method WriteLines(rest: seq<Report>)
      modifies this
      ensures lines == old(lines) + rest
    {
      for k := 0 to |rest|
        invariant lines == old(lines) + rest[..k]
      {
        lines := lines + [rest[k]];
      }
    }
  }

  /** The posts go out one after the other until one fails. */
  method CountAccepted(events: seq<Report>, accepted: seq<bool>) returns (consumed: nat)
    requires |accepted| >= |events|
    ensures consumed <= |events| && (forall k :: 0 <= k < consumed ==> accepted[k])
    ensures consumed < |events| ==> !accepted[consumed]
  {
    consumed := 0;
    while consumed < |events| && accepted[consumed]
      invariant consumed <= |events|
      invariant forall k :: 0 <= k < consumed ==> accepted[k]
    {
      consumed := consumed + 1;
    }
  }

  // ---------------------------------------------------------------------------
  // The protocol
  // ---------------------------------------------------------------------------

  /** Where the pass over the queue stands. The file was truncated, and the rest is still to be written, in Rewriting.
      */
  datatype Progress =
    | Idle
    | Draining(consumed: nat)
    | Awaiting(consumed: nat, answered: bool)
    | Stopped(consumed: nat)
    | Rewriting(rest: seq<Report>)

  /** `enqueued` is everything that was ever put on the queue, `drained` what was taken off it and `lost` what was
      dropped with the file. `sent` are the posts, in order, and `admitted` those that the server has authenticated and
      not yet appended. `covered` counts the enqueued events that the server has. `others` are the stages that
      something other than this queue may report, and `alive` says that the process that has the secret is running. */
  datatype Reporting = Reporting(
    db: Db,
    time: Instant,
    installation: Id,
    others: set<Stage>,
    queue: seq<Report>,
    alive: bool,
    progress: Progress,
    enqueued: seq<Report>,
    drained: seq<Report>,
    lost: seq<Report>,
    sent: seq<Report>,
    admitted: multiset<nat>,
    covered: nat)

  datatype Step =
    | Enqueue(report: Report)
    | StartDrain
    | Post
    | NoConnection
    | Admit(n: nat, proof: Proof, now: Instant)
    | Deliver(n: nat, requestId: string, now: Instant)
    | Acknowledge
    | Refused
    | Truncate
    | Flush
    | Interrupt
    | Die
    | Elsewhere(after: Db)

  /** The events of the installation that came through the queue. */
  function QueueReports(events: seq<Event>): seq<Report> {
    if events == [] then []
    else
      var front, last := QueueReports(events[..|events| - 1]), events[|events| - 1].report;
      if FromQueue(last) then front + [last] else front
  }

  /** The first occurrences, in order. */
  function Distinct(reports: seq<Report>): seq<Report> {
    if reports == [] then []
    else
      var front, last := Distinct(reports[..|reports| - 1]), reports[|reports| - 1];
      if last in front then front else front + [last]
  }

  /** Everything else in the store may change. Of the installation's events, the others report only their stages, and
      never under a key of the queue. */
  ghost predicate OtherWork(a: Db, b: Db, i: Id, others: set<Stage>) {
    && Inv(b) && Evolves(a, b)
    && (i in b.specs ==>
          && QueueReports(EventsOf(b, i)) == QueueReports(EventsOf(a, i))
          && forall k | |EventsOf(a, i)| <= k < |EventsOf(b, i)| :: EventsOf(b, i)[k].report.stage in others)
  }

  /** The enqueued event that the server has not got yet, if there is one. */
  predicate IsNext(r: Reporting, report: Report) {
    r.covered < |r.enqueued| && r.enqueued[r.covered] == report
  }

  /** The post that is waited for is the last one. */
  predicate IsAwaited(r: Reporting, n: nat) {
    r.progress.Awaiting? && n + 1 == |r.sent|
  }

  ghost function Delivered(r: Reporting, n: nat, requestId: string, now: Instant): Reporting
    requires n < |r.sent|
  {
    var tx := AppendEvent(r.db, r.installation, r.sent[n], requestId, now);
    if tx.result.Err? then r.(db := tx.db)
    else
      r.(db := tx.db, covered := if IsNext(r, r.sent[n]) then r.covered + 1 else r.covered,
         progress := if IsAwaited(r, n) then Awaiting(r.progress.consumed, true) else r.progress)
  }

  predicate MayTruncate(r: Reporting) {
    && (r.progress.Stopped? || (r.progress.Draining? && r.progress.consumed == |r.queue|))
    && 1 <= r.progress.consumed <= |r.queue|
  }

  /** A pass that ends early leaves the file as it is; but once the file was truncated, what was not written is lost. */
  function Dropped(r: Reporting): Reporting {
    r.(progress := Idle, lost := r.lost + Rest(r))
  }

  function Rest(r: Reporting): seq<Report> {
    if r.progress.Rewriting? then r.progress.rest else []
  }

  /** The queue is locked while it is drained, so nothing is enqueued between the scan and the rewrite. */
  ghost function Advance(r: Reporting, step: Step): Reporting {
    match step
    case Enqueue(report) =>
      if r.progress == Idle && Keyed(report) then
        r.(queue := r.queue + [report], enqueued := r.enqueued + [report])
      else r
    case StartDrain => if r.alive && r.progress == Idle && Scannable(r.queue) then r.(progress := Draining(0)) else r
    case Post =>
      if r.progress.Draining? && r.progress.consumed < |r.queue| then
        r.(progress := Awaiting(r.progress.consumed, false), sent := r.sent + [r.queue[r.progress.consumed]])
      else r
    case NoConnection =>
      if r.progress.Draining? && r.progress.consumed < |r.queue| then r.(progress := Stopped(r.progress.consumed)) else r
    case Admit(n, proof, now) =>
      if n < |r.sent| && r.time <= now && Authenticated(r.db, r.installation, proof, now).Ok? then
        r.(time := now, admitted := r.admitted + multiset{n})
      else r
    case Deliver(n, requestId, now) =>
      if n < |r.sent| && n in r.admitted && r.time <= now then
        Delivered(r.(time := now, admitted := r.admitted - multiset{n}), n, requestId, now)
      else r
    case Acknowledge =>
      if r.progress.Awaiting? && r.progress.answered then r.(progress := Draining(r.progress.consumed + 1)) else r
    case Refused => if r.progress.Awaiting? then r.(progress := Stopped(r.progress.consumed)) else r
    case Truncate =>
      if MayTruncate(r) then
        var c := r.progress.consumed;
        r.(queue := [], drained := r.drained + r.queue[..c], progress := Rewriting(r.queue[c..]))
      else r
    case Flush => if r.progress.Rewriting? then r.(queue := r.progress.rest, progress := Idle) else r
    case Interrupt => Dropped(r)
    case Die => Dropped(r).(alive := false)
    case Elsewhere(after) => if OtherWork(r.db, after, r.installation, r.others) then r.(db := after) else r
  }

  ghost function Steps(start: Reporting, steps: seq<Step>): Reporting
    decreases |steps|
  {
    if steps == [] then start else Advance(Steps(start, steps[..|steps| - 1]), steps[|steps| - 1])
  }

  ghost predicate AtStart(r: Reporting) {
    && Inv(r.db) && Credentialed(r.db, r.installation) && QueueReports(EventsOf(r.db, r.installation)) == []
    && r.queue == [] && r.alive && r.progress == Idle && r.enqueued == [] && r.drained == [] && r.lost == []
    && r.sent == [] && r.admitted == multiset{} && r.covered == 0
  }

  // --- runs of a few steps ---

  lemma {:induction false} OneStepMore(start: Reporting, steps: seq<Step>, step: Step)
    ensures Steps(start, steps + [step]) == Advance(Steps(start, steps), step)
  {
    hide Advance;
    assert (steps + [step])[..|steps|] == steps;
  }

  lemma {:induction false} MoreSteps(start: Reporting, steps: seq<Step>, more: seq<Step>)
    ensures Steps(start, steps + more) == Steps(Steps(start, steps), more)
    decreases |more|
  {
    hide Advance;
    if more == [] {
      assert steps + more == steps;
    } else {
      var n := |more| - 1;
      assert steps + more == (steps + more[..n]) + [more[n]];
      OneStepMore(start, steps + more[..n], more[n]);
      MoreSteps(start, steps, more[..n]);
    }
  }

  lemma {:induction false} OnlyStep(r: Reporting, step: Step)
    ensures Steps(r, [step]) == Advance(r, step)
  {
    assert Steps(r, []) == r;
    assert [] + [step] == [step];
    OneStepMore(r, [], step);
  }

  lemma {:induction false} TwoSteps(r: Reporting, a: Step, b: Step)
    ensures Steps(r, [a, b]) == Advance(Advance(r, a), b)
  {
    hide Steps, Advance;
    assert [a] + [b] == [a, b];
    OnlyStep(r, a);
    OneStepMore(r, [a], b);
  }

  lemma {:induction false} StepsUnfold(r: Reporting, steps: seq<Step>)
    ensures Steps(r, steps)
      == if steps == [] then r else Advance(Steps(r, steps[..|steps| - 1]), steps[|steps| - 1])
  {
    hide Advance;
  }

  // --- draining, step by step ---

  /** The server authenticates and accepts the reports one after the other. */
  ghost predicate AcceptedInTurn(db: Db, i: Id, reports: seq<Report>, proof: Proof, requestId: string, now: Instant)
    decreases |reports|
  {
    reports == [] ||
    var tx := AppendEvent(db, i, reports[0], requestId, now);
    && Authenticated(db, i, proof, now).Ok? && tx.result.Ok?
    && AcceptedInTurn(tx.db, i, reports[1..], proof, requestId, now)
  }

  /** The same queue, and everything that was taken off it or put on it before. */
  ghost predicate SameQueue(a: Reporting, b: Reporting) {
    && a.queue == b.queue && a.drained == b.drained && a.enqueued == b.enqueued && a.lost == b.lost
    && a.installation == b.installation && a.alive == b.alive && a.others == b.others
  }

  ghost function Round(r: Reporting, proof: Proof, requestId: string, now: Instant): seq<Step> {
    [Post, Admit(|r.sent|, proof, now)] + [Deliver(|r.sent|, requestId, now), Acknowledge]
  }

  lemma {:induction false} OneRound(r: Reporting, proof: Proof, requestId: string, now: Instant)
    requires r.progress.Draining? && r.progress.consumed < |r.queue| && r.time <= now
    requires Authenticated(r.db, r.installation, proof, now).Ok?
    requires AppendEvent(r.db, r.installation, r.queue[r.progress.consumed], requestId, now).result.Ok?
    ensures var next, s := r.queue[r.progress.consumed], Steps(r, Round(r, proof, requestId, now));
      && SameQueue(r, s) && s.progress == Draining(r.progress.consumed + 1) && s.time == now && s.sent == r.sent + [next]
      && s.db == AppendEvent(r.db, r.installation, next, requestId, now).db
  {
    hide AppendEvent, Steps, Authenticated, OtherWork;
    var n := |r.sent|;
    TwoSteps(r, Post, Admit(n, proof, now));
    var s := Advance(Advance(r, Post), Admit(n, proof, now));
    assert s.sent[n] == r.queue[r.progress.consumed] && n in s.admitted;
    TwoSteps(s, Deliver(n, requestId, now), Acknowledge);
    MoreSteps(r, [Post, Admit(n, proof, now)], [Deliver(n, requestId, now), Acknowledge]);
  }

  lemma {:induction false} Rounds(r: Reporting, n: nat, proof: Proof, requestId: string, now: Instant)
    returns (steps: seq<Step>)
    requires r.progress.Draining? && r.progress.consumed <= n <= |r.queue| && r.time <= now
    requires AcceptedInTurn(r.db, r.installation, r.queue[r.progress.consumed..n], proof, requestId, now)
    ensures var s := Steps(r, steps);
      SameQueue(r, s) && s.progress == Draining(n)
        && s.db == AfterAll(r.db, r.installation, r.queue[r.progress.consumed..n], requestId, now)
    decreases n - r.progress.consumed
  {
    StepsUnfold(r, []);
    hide Steps, Advance, AppendEvent, Authenticated;
    var k := r.progress.consumed;
    if k == n {
      steps := [];
    } else {
      var next, rest := r.queue[k], r.queue[k..n];
      assert rest[0] == next && rest[1..] == r.queue[k + 1..n];
      OneRound(r, proof, requestId, now);
      var round := Round(r, proof, requestId, now);
      var more := Rounds(Steps(r, round), n, proof, requestId, now);
      MoreSteps(r, round, more);
      steps := round + more;
    }
  }

  /** The state of the store after these reports were appended. */
  ghost function AfterAll(db: Db, i: Id, reports: seq<Report>, requestId: string, now: Instant): Db
    decreases |reports|
  {
    if reports == [] then db else AfterAll(AppendEvent(db, i, reports[0], requestId, now).db, i, reports[1..], requestId, now)
  }

  /** A drain in which the first n posts are accepted takes just these off the queue, as DrainEvents does. */
  lemma {:induction false} DrainTakesTheAccepted(
    r: Reporting, n: nat, proof: Proof, requestId: string, now: Instant) returns (steps: seq<Step>)
    requires r.alive && r.progress == Idle && Scannable(r.queue) && n <= |r.queue| && r.time <= now
    requires AcceptedInTurn(r.db, r.installation, r.queue[..n], proof, requestId, now)
    ensures var s := Steps(r, steps);
      && s.progress == Idle && s.queue == r.queue[n..] && s.drained == r.drained + r.queue[..n]
      && s.enqueued == r.enqueued && s.lost == r.lost && s.installation == r.installation && s.alive
      && s.db == AfterAll(r.db, r.installation, r.queue[..n], requestId, now)
  {
    hide Steps, AppendEvent, Authenticated, OtherWork, LineSize, AcceptedInTurn, AfterAll;
    OnlyStep(r, StartDrain);
    var a := Steps(r, [StartDrain]);
    assert r.queue[0..n] == r.queue[..n];
    var rounds := Rounds(a, n, proof, requestId, now);
    var b := Steps(a, rounds);
    var end := EndOfDrain(b);
    MoreSteps(r, [StartDrain], rounds);
    MoreSteps(r, [StartDrain] + rounds, end);
    steps := [StartDrain] + rounds + end;
  }

  /** The end of a pass: a post that fails, if something is left, and the rewrite, if something was accepted. */
  lemma {:induction false} EndOfDrain(r: Reporting) returns (steps: seq<Step>)
    requires r.progress.Draining? && r.progress.consumed <= |r.queue|
    ensures var s, c := Steps(r, steps), r.progress.consumed;
      && s.progress == Idle && s.queue == r.queue[c..] && s.drained == r.drained + r.queue[..c]
      && s.enqueued == r.enqueued && s.lost == r.lost && s.installation == r.installation && s.alive == r.alive
        && s.db == r.db
      && s.others == r.others
  {
    hide Steps, AppendEvent, Authenticated, OtherWork, LineSize;
    var c := r.progress.consumed;
    if c == 0 {
      assert r.lost + Rest(r) == r.lost;
      OnlyStep(r, Interrupt);
      steps := [Interrupt];
    } else if c == |r.queue| {
      TwoSteps(r, Truncate, Flush);
      steps := [Truncate, Flush];
    } else {
      OnlyStep(r, NoConnection);
      var s := Steps(r, [NoConnection]);
      TwoSteps(s, Truncate, Flush);
      MoreSteps(r, [NoConnection], [Truncate, Flush]);
      steps := [NoConnection] + [Truncate, Flush];
    }
  }

  // ---------------------------------------------------------------------------
  // Repeats removed
  // ---------------------------------------------------------------------------

  lemma {:induction false} DistinctElements(reports: seq<Report>, report: Report)
    ensures report in Distinct(reports) <==> report in reports
  {
    if reports != [] {
      var front := reports[..|reports| - 1];
      DistinctElements(front, report);
      assert reports == front + [reports[|reports| - 1]];
      assert report in reports <==> report in front || report == reports[|reports| - 1];
    }
  }

  lemma {:induction false} DistinctOneMore(reports: seq<Report>, n: nat)
    requires n < |reports|
    ensures Distinct(reports[..n + 1])
      == if reports[n] in Distinct(reports[..n]) then Distinct(reports[..n]) else Distinct(reports[..n]) + [reports[n]]
  {
    assert reports[..n + 1][..n] == reports[..n];
  }

  lemma {:induction false} QueueElements(events: seq<Event>, k: nat)
    requires k < |events| && FromQueue(events[k].report)
    ensures events[k].report in QueueReports(events)
  {
    if k < |events| - 1 {
      QueueElements(events[..|events| - 1], k);
    }
  }

  lemma {:induction false} QueueReportsAreEvents(events: seq<Event>, report: Report)
    requires report in QueueReports(events)
    ensures FromQueue(report) && exists k :: 0 <= k < |events| && events[k].report == report
  {
    var front := events[..|events| - 1];
    if report in QueueReports(front) {
      QueueReportsAreEvents(front, report);
      var k :| 0 <= k < |front| && front[k].report == report;
      assert events[k].report == report;
    }
  }

  lemma {:induction false} QueueOneMore(events: seq<Event>, e: Event)
    requires FromQueue(e.report)
    ensures QueueReports(events + [e]) == QueueReports(events) + [e.report]
  {
    assert (events + [e])[..|events|] == events;
  }

  // ---------------------------------------------------------------------------
  // What every run keeps
  // ---------------------------------------------------------------------------

  ghost predicate DbSound(r: Reporting) {
    Inv(r.db) && Credentialed(r.db, r.installation)
  }

  /** The key tells the stage of what is on the queue, what is about to be written and what was posted. */
  ghost predicate FilesFit(r: Reporting) {
    && (forall k | 0 <= k < |r.queue| :: Keyed(r.queue[k]))
    && (forall k | 0 <= k < |Rest(r)| :: Keyed(Rest(r)[k]))
    && (forall k | 0 <= k < |r.sent| :: Keyed(r.sent[k]))
    && (forall n | n in r.admitted :: n < |r.sent|)
  }

  /** A file that is drained was scanned, the post that is waited for is the last one, and while the rest is to be
      written the file is empty. */
  ghost predicate PassFits(r: Reporting) {
    && (!r.alive ==> r.progress == Idle)
    && match r.progress
      case Idle => true
      case Draining(c) => Scannable(r.queue) && c <= |r.queue|
      case Awaiting(c, answered) =>
        Scannable(r.queue) && c < |r.queue| && r.sent != [] && r.sent[|r.sent| - 1] == r.queue[c]
      case Stopped(c) => Scannable(r.queue) && c <= |r.queue|
      case Rewriting(_) => r.queue == []
  }

  /** The server has nothing of the queue that was not posted. */
  ghost predicate ServerFits(r: Reporting) {
    r.installation in r.db.specs ==> forall x | x in QueueReports(EventsOf(r.db, r.installation)) :: x in r.sent
  }

  ghost predicate ReportingSound(r: Reporting) {
    DbSound(r) && FilesFit(r) && PassFits(r) && ServerFits(r)
  }

  lemma {:induction false} EnqueueSound(r: Reporting, report: Report)
    requires ReportingSound(r) && r.progress == Idle && Keyed(report)
    ensures ReportingSound(r.(queue := r.queue + [report], enqueued := r.enqueued + [report]))
  {
    hide Inv, Credentialed, Keyed, QueueReports, EventsOf, LineSize;
  }

  lemma {:induction false} PostSound(r: Reporting)
    requires ReportingSound(r) && r.progress.Draining? && r.progress.consumed < |r.queue|
    ensures ReportingSound(Advance(r, Post))
  {
    hide Inv, Credentialed, Keyed, QueueReports, AppendEvent, OtherWork, Authenticated, EventsOf, LineSize, Delivered;
  }

  lemma {:induction false} AnswerSound(r: Reporting)
    requires ReportingSound(r)
    ensures ReportingSound(Advance(r, Acknowledge)) && ReportingSound(Advance(r, Refused))
    ensures ReportingSound(Advance(r, NoConnection))
  {
    hide Inv, Credentialed, Keyed, QueueReports, AppendEvent, OtherWork, Authenticated, EventsOf, LineSize, Delivered;
  }

  lemma {:induction false} ScanSound(r: Reporting)
    requires ReportingSound(r)
    ensures ReportingSound(Advance(r, StartDrain)) && ReportingSound(Advance(r, Flush))
  {
    hide Inv, Credentialed, Keyed, QueueReports, AppendEvent, OtherWork, Authenticated, EventsOf, LineSize, Delivered;
    assert r.progress.Rewriting? ==> Rest(r) == r.progress.rest;
    assert Rest(Advance(r, Flush)) == [] && Rest(Advance(r, StartDrain)) == if r.alive then Rest(r) else [];
  }

  lemma {:induction false} TruncateSound(r: Reporting)
    requires ReportingSound(r) && MayTruncate(r)
    ensures ReportingSound(Advance(r, Truncate))
  {
    hide Inv, Credentialed, Keyed, QueueReports, AppendEvent, OtherWork, Authenticated, EventsOf, LineSize, Delivered;
    var c := r.progress.consumed;
    assert Rest(Advance(r, Truncate)) == r.queue[c..];
    assert forall k | 0 <= k < |r.queue[c..]| :: r.queue[c..][k] == r.queue[c + k];
  }

  lemma {:induction false} DroppedSound(r: Reporting, alive: bool)
    requires ReportingSound(r) && (alive ==> r.alive)
    ensures ReportingSound(Dropped(r).(alive := alive))
  {
    hide Inv, Credentialed, Keyed, QueueReports, EventsOf, LineSize;
    assert Rest(Dropped(r).(alive := alive)) == [];
  }

  lemma {:induction false} AdmissionSound(r: Reporting, now: Instant, admitted: multiset<nat>)
    requires ReportingSound(r) && forall n | n in admitted :: n < |r.sent|
    ensures ReportingSound(r.(time := now, admitted := admitted))
  {
    hide Inv, Credentialed, Keyed, QueueReports, EventsOf, LineSize;
    assert Rest(r.(time := now, admitted := admitted)) == Rest(r);
  }

  lemma {:induction false} AdmittedWerePosted(r: Reporting)
    requires ReportingSound(r)
    ensures forall n | n in r.admitted :: n < |r.sent|
  {
    hide DbSound, PassFits, ServerFits, Keyed;
  }

  lemma {:induction false} OtherWorkSound(r: Reporting, after: Db)
    requires ReportingSound(r) && OtherWork(r.db, after, r.installation, r.others)
    ensures ReportingSound(r.(db := after))
  {
    hide Inv, Keyed, QueueReports, Evolves, Credentialed, EventsOf, LineSize;
    assert Rest(r.(db := after)) == Rest(r);
    ClaimsStay(r.db, after, r.installation);
    LaterSpecs(r.db, after, r.installation);
  }

  function WithReport(reports: seq<Report>, report: Report): seq<Report> {
    if report in reports then reports else reports + [report]
  }

  lemma {:induction false} FoundIsReported(events: seq<Event>, report: Report)
    requires FromQueue(report) && FindEvent(events, report.key).Some?
      && FindEvent(events, report.key).value.report == report
    ensures report in QueueReports(events)
  {
    var k :| 0 <= k < |events| && events[k] == FindEvent(events, report.key).value;
    QueueElements(events, k);
  }

  lemma {:induction false} UnfoundIsNotReported(events: seq<Event>, report: Report)
    requires FindEvent(events, report.key).None?
    ensures report !in QueueReports(events)
  {
    hide FindEvent;
    if report in QueueReports(events) {
      QueueReportsAreEvents(events, report);
      assert false;
    }
  }

  lemma {:induction false} AcceptedEvents(db: Db, i: Id, e: Event, now: Instant)
    requires i in db.events
    ensures Accepted(db, i, e, now).specs == db.specs && EventsOf(Accepted(db, i, e, now), i) == EventsOf(db, i) + [e]
  {
  }

  lemma {:induction false} StoredEvents(db: Db, i: Id)
    requires i in db.events
    ensures EventsOf(db, i) == db.events[i]
  {
  }

  /** Accepting a report adds it to the queue's events, unless it is there already. */
  lemma {:induction false} DeliveryAdds(db: Db, i: Id, report: Report, requestId: string, now: Instant)
    requires Inv(db) && FromQueue(report)
    requires AppendEvent(db, i, report, requestId, now).result.Ok?
    ensures var b := AppendEvent(db, i, report, requestId, now).db;
      && i in db.specs && b.specs == db.specs
      && QueueReports(EventsOf(b, i)) == WithReport(QueueReports(EventsOf(db, i)), report)
  {
    hide Inv, QueueReports, AppendEvent, ValidReport, FindEvent, Follows, FromQueue, Accepted, Histories;
    hide EventsOf;
    HistoriesHold(db);
    AnsweredIsValid(db, i, report, requestId, now);
    AppendEventCases(db, i, report, requestId, now);
    StoredEvents(db, i);
    var e := Event(report, now, requestId);
    if FindEvent(db.events[i], report.key).Some? {
      FoundIsReported(db.events[i], report);
    } else {
      UnfoundIsNotReported(db.events[i], report);
      AcceptedEvents(db, i, e, now);
      QueueOneMore(db.events[i], e);
    }
  }

  lemma {:induction false} DeliveredDb(db: Db, i: Id, report: Report, requestId: string, now: Instant)
    requires Inv(db) && Credentialed(db, i)
    ensures var tx := AppendEvent(db, i, report, requestId, now);
      Inv(tx.db) && Credentialed(tx.db, i) && (tx.result.Err? ==> tx.db == db)
  {
    hide Inv, Evolves, AppendEvent, Credentialed, Entitled;
    CredentialedIsEntitled(db, i, report.source);
    AppendEventIsSound(db, i, report, requestId, now);
    AppendEventFrame(db, i, report, requestId, now);
    ClaimsStay(db, AppendEvent(db, i, report, requestId, now).db, i);
  }

  lemma {:induction false} PostedIsKeyed(r: Reporting, n: nat)
    requires ReportingSound(r) && n < |r.sent|
    ensures Keyed(r.sent[n]) && FromQueue(r.sent[n]) && DbSound(r)
  {
    hide DbSound, PassFits, ServerFits, FromQueue, Keyed;
    KeyIsOfTheQueue(r.sent[n]);
  }

  lemma {:induction false} DeliveredFiles(r: Reporting, n: nat, requestId: string, now: Instant)
    requires FilesFit(r) && PassFits(r) && n < |r.sent|
    ensures var s := Delivered(r, n, requestId, now); FilesFit(s) && PassFits(s) && s.sent == r.sent
  {
    hide AppendEvent, Keyed, LineSize;
    assert Rest(Delivered(r, n, requestId, now)) == Rest(r);
  }

  lemma {:induction false} DeliverSound(r: Reporting, n: nat, requestId: string, now: Instant)
    requires ReportingSound(r) && n < |r.sent|
    ensures ReportingSound(Delivered(r, n, requestId, now))
  {
    hide Inv, Evolves, QueueReports, AppendEvent, Keyed, FromQueue, EventsOf, Credentialed, FilesFit, PassFits;
    PostedIsKeyed(r, n);
    DeliveredDb(r.db, r.installation, r.sent[n], requestId, now);
    DeliveredFiles(r, n, requestId, now);
    if AppendEvent(r.db, r.installation, r.sent[n], requestId, now).result.Ok? {
      DeliveryAdds(r.db, r.installation, r.sent[n], requestId, now);
    }
  }

  lemma {:induction false} AdvanceSound(r: Reporting, step: Step)
    requires ReportingSound(r)
    ensures ReportingSound(Advance(r, step))
  {
    hide ReportingSound, Keyed, OtherWork, Authenticated, Delivered, LineSize;
    match step
    case Enqueue(report) =>
      if r.progress == Idle && Keyed(report) {
        EnqueueSound(r, report);
      }
    case StartDrain => ScanSound(r);
    case Post =>
      if r.progress.Draining? && r.progress.consumed < |r.queue| {
        PostSound(r);
      }
    case Admit(n, proof, now) =>
      if n < |r.sent| && r.time <= now {
        AdmittedWerePosted(r);
        AdmissionSound(r, now, r.admitted + multiset{n});
      }
    case Deliver(n, requestId, now) =>
      if n < |r.sent| && n in r.admitted && r.time <= now {
        AdmittedWerePosted(r);
        AdmissionSound(r, now, r.admitted - multiset{n});
        DeliverSound(r.(time := now, admitted := r.admitted - multiset{n}), n, requestId, now);
      }
    case Truncate =>
      if MayTruncate(r) {
        TruncateSound(r);
      }
    case Flush => ScanSound(r);
    case Interrupt => DroppedSound(r, r.alive);
    case Die => DroppedSound(r, false);
    case Elsewhere(after) =>
      if OtherWork(r.db, after, r.installation, r.others) {
        OtherWorkSound(r, after);
      }
    case _ => AnswerSound(r);
  }

  lemma {:induction false} AdvanceKeeps(r: Reporting, step: Step)
    ensures Advance(r, step).installation == r.installation && Advance(r, step).others == r.others
    ensures r.lost <= Advance(r, step).lost
  {
    hide AppendEvent, OtherWork, Authenticated, LineSize, Keyed;
  }

  lemma {:induction false} StaysSound(r: Reporting, steps: seq<Step>)
    requires ReportingSound(r)
    ensures ReportingSound(Steps(r, steps)) && Steps(r, steps).installation == r.installation
    ensures Steps(r, steps).others == r.others
    decreases |steps|
  {
    hide ReportingSound, Advance, Steps;
    StepsUnfold(r, steps);
    if steps != [] {
      var front, last := steps[..|steps| - 1], steps[|steps| - 1];
      AdvanceKeeps(Steps(r, front), last);
      StaysSound(r, front);
      AdvanceSound(Steps(r, front), last);
    }
  }

  lemma {:induction false} StartSound(r: Reporting)
    requires AtStart(r)
    ensures ReportingSound(r)
  {
    hide Inv, Credentialed;
  }

  // ---------------------------------------------------------------------------
  // Exactly once and in order
  // ---------------------------------------------------------------------------

  /** Every event is still on the queue or was taken off it, and everything taken off is covered. */
  ghost predicate QueueFits(r: Reporting) {
    && r.enqueued == r.drained + r.queue + Rest(r)
    && |r.drained| <= r.covered <= |r.enqueued|
  }

  /** The pass has covered what it has consumed. */
  ghost predicate PassIsCovered(r: Reporting) {
    match r.progress
    case Idle => true
    case Draining(c) => |r.drained| + c <= r.covered
    case Awaiting(c, answered) => |r.drained| + c + (if answered then 1 else 0) <= r.covered
    case Stopped(c) => |r.drained| + c <= r.covered
    case Rewriting(_) => true
  }

  /** What was posted is covered, or is the next event. */
  ghost predicate PostsFit(r: Reporting) {
    forall n | 0 <= n < |r.sent| :: Posted(r.enqueued, r.covered, r.sent[n])
  }

  ghost predicate Posted(enqueued: seq<Report>, covered: nat, report: Report) {
    exists k :: 0 <= k <= covered && k < |enqueued| && enqueued[k] == report
  }

  ghost predicate ServerIsCovered(r: Reporting)
    requires r.covered <= |r.enqueued|
  {
    r.installation in r.db.specs ==> QueueReports(EventsOf(r.db, r.installation)) == Distinct(r.enqueued[..r.covered])
  }

  /** While nothing has been lost with the file. */
  ghost predicate InOrder(r: Reporting) {
    QueueFits(r) && PassIsCovered(r) && PostsFit(r) && ServerIsCovered(r)
  }

  lemma {:induction false} PostedStays(
    enqueued: seq<Report>, covered: nat, report: Report, more: seq<Report>, later: nat)
    requires Posted(enqueued, covered, report) && covered <= later
    ensures Posted(enqueued + more, later, report)
  {
    var k :| 0 <= k <= covered && k < |enqueued| && enqueued[k] == report;
    assert (enqueued + more)[k] == report;
  }

  lemma {:induction false} PostsStay(r: Reporting, s: Reporting)
    requires PostsFit(r) && s.sent == r.sent && r.enqueued <= s.enqueued && r.covered <= s.covered
    ensures PostsFit(s)
  {
    forall n | 0 <= n < |s.sent| ensures Posted(s.enqueued, s.covered, s.sent[n]) {
      PostedStays(r.enqueued, r.covered, r.sent[n], s.enqueued[|r.enqueued|..], s.covered);
      assert r.enqueued + s.enqueued[|r.enqueued|..] == s.enqueued;
    }
  }

  lemma {:induction false} EnqueueInOrder(r: Reporting, report: Report)
    requires InOrder(r) && r.progress == Idle
    ensures InOrder(r.(queue := r.queue + [report], enqueued := r.enqueued + [report]))
  {
    hide QueueReports, Distinct, EventsOf;
    var s := r.(queue := r.queue + [report], enqueued := r.enqueued + [report]);
    assert s.enqueued[..r.covered] == r.enqueued[..r.covered];
    hide Posted;
    PostsStay(r, s);
  }

  lemma {:induction false} PostInOrder(r: Reporting)
    requires InOrder(r) && r.progress.Draining? && r.progress.consumed < |r.queue|
    ensures InOrder(Advance(r, Post))
  {
    hide QueueReports, Distinct, AppendEvent, OtherWork, Authenticated, EventsOf, LineSize, Delivered, Keyed;
    var c := r.progress.consumed;
    assert r.enqueued[|r.drained| + c] == r.queue[c];
    assert Posted(r.enqueued, r.covered, r.queue[c]);
    hide Posted;
  }

  lemma {:induction false} TruncateInOrder(r: Reporting)
    requires InOrder(r) && MayTruncate(r)
    ensures InOrder(Advance(r, Truncate))
  {
    hide QueueReports, Distinct, AppendEvent, OtherWork, Authenticated, EventsOf, LineSize, Delivered, Keyed, Posted;
    var c := r.progress.consumed;
    assert r.queue == r.queue[..c] + r.queue[c..];
    assert (r.drained + r.queue[..c]) + [] + r.queue[c..] == r.enqueued;
  }

  lemma {:induction false} OtherStepsInOrder(r: Reporting, s: Reporting)
    requires InOrder(r) && PassIsCovered(s) && r.queue + Rest(r) == s.queue + Rest(s) && s.drained == r.drained
    requires s.enqueued == r.enqueued && s.covered == r.covered && s.sent == r.sent && s.installation == r.installation
    requires r.installation in s.db.specs ==>
      (r.installation in r.db.specs
       && QueueReports(EventsOf(s.db, r.installation)) == QueueReports(EventsOf(r.db, r.installation)))
    ensures InOrder(s)
  {
    hide QueueReports, Distinct, EventsOf, Posted;
    assert r.drained + r.queue + Rest(r) == r.drained + (r.queue + Rest(r));
    assert s.drained + s.queue + Rest(s) == s.drained + (s.queue + Rest(s));
  }

  /** A posted report that the server has not got is the next one of the queue. */
  lemma {:induction false} NewIsNext(r: Reporting, report: Report)
    requires r.covered <= |r.enqueued| && Posted(r.enqueued, r.covered, report)
    requires report !in Distinct(r.enqueued[..r.covered])
    ensures IsNext(r, report)
  {
    hide Distinct;
    var k :| 0 <= k <= r.covered && k < |r.enqueued| && r.enqueued[k] == report;
    DistinctElements(r.enqueued[..r.covered], report);
    assert forall j | 0 <= j < r.covered :: r.enqueued[..r.covered][j] == r.enqueued[j];
  }

  /** The server's list after an accepted delivery, in terms of the queue. */
  lemma {:induction false} CoveredAfter(r: Reporting, report: Report)
    requires r.covered <= |r.enqueued| && Posted(r.enqueued, r.covered, report)
    ensures var covered := if IsNext(r, report) then r.covered + 1 else r.covered;
      Distinct(r.enqueued[..covered]) == WithReport(Distinct(r.enqueued[..r.covered]), report)
  {
    hide Distinct;
    if IsNext(r, report) {
      DistinctOneMore(r.enqueued, r.covered);
    } else if report !in Distinct(r.enqueued[..r.covered]) {
      NewIsNext(r, report);
      assert false;
    }
  }

  lemma {:induction false} DeliveredPass(r: Reporting, n: nat, requestId: string, now: Instant)
    requires QueueFits(r) && PassIsCovered(r) && PassFits(r) && PostsFit(r) && n < |r.sent|
    ensures var s := Delivered(r, n, requestId, now); QueueFits(s) && PassIsCovered(s) && PostsFit(s)
  {
    hide AppendEvent, Posted, LineSize;
    var s := Delivered(r, n, requestId, now);
    PostsStay(r, s);
    if IsAwaited(r, n) {
      assert r.enqueued[|r.drained| + r.progress.consumed] == r.sent[n];
    }
  }

  lemma {:induction false} DeliverInOrder(r: Reporting, n: nat, requestId: string, now: Instant)
    requires ReportingSound(r) && InOrder(r) && n < |r.sent|
    ensures InOrder(Delivered(r, n, requestId, now))
  {
    hide ReportingSound, Inv, Evolves, QueueReports, Distinct, AppendEvent, Keyed, FromQueue, EventsOf, Credentialed;
    hide PassIsCovered, PassFits, QueueFits, PostsFit, Posted;
    PostedIsKeyed(r, n);
    SoundPass(r);
    DeliveredDb(r.db, r.installation, r.sent[n], requestId, now);
    DeliveredPass(r, n, requestId, now);
    CoveredFits(r);
    PostFits(r, n);
    if AppendEvent(r.db, r.installation, r.sent[n], requestId, now).result.Ok? {
      DeliveryAdds(r.db, r.installation, r.sent[n], requestId, now);
      CoveredAfter(r, r.sent[n]);
    }
  }

  lemma {:induction false} SoundPass(r: Reporting)
    requires ReportingSound(r)
    ensures PassFits(r)
  {
    hide DbSound, FilesFit, PassFits, ServerFits;
  }

  lemma {:induction false} PostFits(r: Reporting, n: nat)
    requires PostsFit(r) && n < |r.sent|
    ensures Posted(r.enqueued, r.covered, r.sent[n])
  {
    hide Posted;
  }

  lemma {:induction false} CoveredFits(r: Reporting)
    requires QueueFits(r)
    ensures r.covered <= |r.enqueued|
  {
  }

  lemma {:induction false} OtherWorkInOrder(r: Reporting, after: Db)
    requires ReportingSound(r) && InOrder(r) && OtherWork(r.db, after, r.installation, r.others)
    ensures InOrder(r.(db := after))
  {
    SoundDb(r);
    hide ReportingSound, Inv, QueueReports, Evolves, Credentialed, EventsOf, InOrder;
    LaterSpecs(r.db, after, r.installation);
    CoverStays(r);
    OtherStepsInOrder(r, r.(db := after));
  }

  lemma {:induction false} CoverStays(r: Reporting)
    requires InOrder(r)
    ensures PassIsCovered(r) && forall db :: PassIsCovered(r.(db := db))
  {
    hide QueueFits, PostsFit, ServerIsCovered;
  }

  lemma {:induction false} PassStepInOrder(r: Reporting, step: Step)
    requires InOrder(r) && PassFits(r) && Advance(r, step).lost == r.lost
    requires step.StartDrain? || step.Acknowledge? || step.Refused? || step.NoConnection? || step.Flush? || step.Admit?
      || step.Interrupt? || step.Die?
    ensures InOrder(Advance(r, step))
  {
    hide PostsFit, ServerIsCovered, AppendEvent, OtherWork, Authenticated, LineSize, Keyed, Delivered, Scannable;
    hide QueueReports, EventsOf;
    var s := Advance(r, step);
    if step.Interrupt? || step.Die? {
      assert |r.lost + Rest(r)| == |r.lost| + |Rest(r)|;
    }
    assert r.queue + Rest(r) == s.queue + Rest(s) && PassIsCovered(s);
    hide InOrder;
    OtherStepsInOrder(r, s);
  }

  lemma {:induction false} AdvanceInOrder(r: Reporting, step: Step)
    requires ReportingSound(r) && InOrder(r) && r.lost == Advance(r, step).lost == []
    ensures InOrder(Advance(r, step))
  {
    SoundPass(r);
    hide ReportingSound, InOrder, PassFits, OtherWork, Authenticated, Delivered, LineSize, Keyed;
    match step
    case Enqueue(report) =>
      if r.progress == Idle {
        EnqueueInOrder(r, report);
      }
    case Post =>
      if r.progress.Draining? && r.progress.consumed < |r.queue| {
        PostInOrder(r);
      }
    case Deliver(n, requestId, now) =>
      if n < |r.sent| && n in r.admitted && r.time <= now {
        var w := r.(time := now, admitted := r.admitted - multiset{n});
        AdmittedWerePosted(r);
        AdmissionSound(r, now, w.admitted);
        AdmissionInOrder(r, now, w.admitted);
        DeliverInOrder(w, n, requestId, now);
      }
    case Truncate =>
      if MayTruncate(r) {
        TruncateInOrder(r);
      }
    case Elsewhere(after) =>
      if OtherWork(r.db, after, r.installation, r.others) {
        OtherWorkInOrder(r, after);
      }
    case _ => PassStepInOrder(r, step);
  }

  lemma {:induction false} AdmissionInOrder(r: Reporting, now: Instant, admitted: multiset<nat>)
    requires InOrder(r)
    ensures InOrder(r.(time := now, admitted := admitted))
  {
    hide QueueReports, Distinct, EventsOf, Posted;
  }

  lemma {:induction false} StaysInOrder(start: Reporting, steps: seq<Step>)
    requires AtStart(start) && Steps(start, steps).lost == []
    ensures InOrder(Steps(start, steps))
    decreases |steps|
  {
    StepsUnfold(start, steps);
    if steps == [] {
      StartsInOrder(start);
    } else {
      hide ReportingSound, InOrder, Advance, Steps, AtStart;
      var front, last := steps[..|steps| - 1], steps[|steps| - 1];
      AdvanceKeeps(Steps(start, front), last);
      StaysInOrder(start, front);
      StartSound(start);
      StaysSound(start, front);
      AdvanceInOrder(Steps(start, front), last);
    }
  }

  lemma {:induction false} StartsInOrder(r: Reporting)
    requires AtStart(r)
    ensures InOrder(r)
  {
    hide Inv, Credentialed;
  }

  /** Exactly once and in order, unless something was lost with the file. What was enqueued is what was taken off the
      queue and what is still on it, or about to be written; and the server has, without repeats, the events of a
      prefix of it that covers everything taken off. */
  lemma {:induction false} ExactlyOnceInOrder(start: Reporting, steps: seq<Step>)
    requires AtStart(start) && Steps(start, steps).lost == []
    ensures var r := Steps(start, steps);
      && r.enqueued == r.drained + r.queue + Rest(r)
      && (start.installation in r.db.specs ==>
            exists n :: |r.drained| <= n <= |r.enqueued|
              && QueueReports(EventsOf(r.db, start.installation)) == Distinct(r.enqueued[..n]))
  {
    StaysInOrder(start, steps);
    StartSound(start);
    StaysSound(start, steps);
    hide Steps, ReportingSound, QueueReports, Distinct, PassIsCovered, PostsFit, EventsOf;
    var r := Steps(start, steps);
    assert |r.drained| <= r.covered <= |r.enqueued|;
  }

  // ---------------------------------------------------------------------------
  // What is lost
  // ---------------------------------------------------------------------------

  /** While the rest is to be written the file is empty. */
  ghost predicate Accounted(r: Reporting) {
    && (r.progress.Rewriting? ==> r.queue == [])
    && multiset(r.enqueued) == multiset(r.drained) + multiset(r.queue) + multiset(Rest(r)) + multiset(r.lost)
  }

  /** In every run each event that was enqueued was taken off the queue, is still on it, is about to be written, or was
      lost with the file. */
  lemma {:induction false} EveryEventIsAccountedFor(start: Reporting, steps: seq<Step>)
    requires AtStart(start)
    ensures Accounted(Steps(start, steps))
    decreases |steps|
  {
    hide Steps, Advance, Inv, Credentialed, QueueReports;
    StepsUnfold(start, steps);
    if steps != [] {
      EveryEventIsAccountedFor(start, steps[..|steps| - 1]);
      AdvanceAccounts(Steps(start, steps[..|steps| - 1]), steps[|steps| - 1]);
    }
  }

  lemma {:induction false} AdvanceAccounts(r: Reporting, step: Step)
    requires Accounted(r)
    ensures Accounted(Advance(r, step))
  {
    hide AppendEvent, OtherWork, Authenticated, LineSize, Accounted, Delivered, FromQueue;
    var s := Advance(r, step);
    match step
    case Enqueue(report) =>
      if r.progress == Idle {
        EnqueueAccounts(r, report);
      }
    case Truncate =>
      if MayTruncate(r) {
        TruncateAccounts(r);
      }
    case Flush =>
      if r.progress.Rewriting? {
        FlushAccounts(r);
      }
    case Deliver(n, requestId, now) =>
      if n < |r.sent| {
        DeliveryAccounts(r.(time := now, admitted := r.admitted - multiset{n}), n, requestId, now);
        SameAccounts(r, s);
      }
    case Interrupt => DroppedAccounts(r, r.alive);
    case Die => DroppedAccounts(r, false);
    case _ => SameAccounts(r, s);
  }

  lemma {:induction false} SameAccounts(r: Reporting, s: Reporting)
    requires Accounted(r) && s.enqueued == r.enqueued && s.drained == r.drained && s.queue == r.queue
      && s.lost == r.lost
    requires Rest(s) == Rest(r) && (s.progress.Rewriting? ==> r.progress.Rewriting?)
    ensures Accounted(s)
  {
  }

  lemma {:induction false} EnqueueAccounts(r: Reporting, report: Report)
    requires Accounted(r) && r.progress == Idle
    ensures Accounted(r.(queue := r.queue + [report], enqueued := r.enqueued + [report]))
  {
  }

  lemma {:induction false} TruncateAccounts(r: Reporting)
    requires Accounted(r) && MayTruncate(r)
    ensures Accounted(Advance(r, Truncate))
  {
    hide AppendEvent, OtherWork, Authenticated, LineSize;
    var c := r.progress.consumed;
    assert r.queue == r.queue[..c] + r.queue[c..];
    assert multiset(r.queue) == multiset(r.queue[..c]) + multiset(r.queue[c..]);
  }

  lemma {:induction false} FlushAccounts(r: Reporting)
    requires Accounted(r) && r.progress.Rewriting?
    ensures Accounted(r.(queue := r.progress.rest, progress := Idle))
  {
  }

  lemma {:induction false} DeliveryAccounts(r: Reporting, n: nat, requestId: string, now: Instant)
    requires n < |r.sent|
    ensures var s := Delivered(r, n, requestId, now);
      s.enqueued == r.enqueued && s.drained == r.drained && s.queue == r.queue && s.lost == r.lost && Rest(s) == Rest(r)
      && s.sent == r.sent && (s.progress.Rewriting? ==> r.progress.Rewriting?)
  {
    hide AppendEvent;
  }

  lemma {:induction false} DroppedAccounts(r: Reporting, alive: bool)
    requires Accounted(r)
    ensures Accounted(Dropped(r).(alive := alive))
  {
    assert multiset(r.lost + Rest(r)) == multiset(r.lost) + multiset(Rest(r));
  }

  /** The report is neither on the queue nor on the network nor on the server. */
  ghost predicate Unknown(r: Reporting, report: Report) {
    && report !in r.queue && report !in Rest(r) && report !in r.sent
    && (r.installation in r.db.specs ==> report !in QueueReports(EventsOf(r.db, r.installation)))
  }

  lemma {:induction false} DeliveryOfAnother(r: Reporting, n: nat, report: Report, requestId: string, now: Instant)
    requires DbSound(r) && Unknown(r, report) && n < |r.sent| && FromQueue(r.sent[n])
    requires r.sent[n] != report
    ensures Unknown(Delivered(r, n, requestId, now), report)
  {
    hide Inv, AppendEvent, QueueReports, EventsOf, Credentialed, FromQueue;
    DeliveredDb(r.db, r.installation, r.sent[n], requestId, now);
    if AppendEvent(r.db, r.installation, r.sent[n], requestId, now).result.Ok? {
      DeliveryAdds(r.db, r.installation, r.sent[n], requestId, now);
    }
  }

  lemma {:induction false} OtherWorkLeavesUnknown(r: Reporting, report: Report, after: Db)
    requires DbSound(r) && Unknown(r, report) && OtherWork(r.db, after, r.installation, r.others)
    ensures Unknown(r.(db := after), report)
  {
    hide Inv, Evolves, QueueReports, EventsOf, Credentialed;
    LaterSpecs(r.db, after, r.installation);
  }

  lemma {:induction false} UnknownAfterDelivery(r: Reporting, report: Report, n: nat, requestId: string, now: Instant)
    requires ReportingSound(r) && Unknown(r, report) && n < |r.sent|
    ensures Unknown(Advance(r, Deliver(n, requestId, now)), report)
  {
    hide ReportingSound, DbSound, AppendEvent, QueueReports, EventsOf, FromQueue, Authenticated, LineSize, Delivered;
    hide Keyed;
    hide OtherWork;
    if n in r.admitted && r.time <= now {
      var s := r.(time := now, admitted := r.admitted - multiset{n});
      PostedIsKeyed(r, n);
      SameDb(r, s);
      DeliveryOfAnother(s, n, report, requestId, now);
    }
  }

  lemma {:induction false} UnknownStays(r: Reporting, report: Report, step: Step)
    requires ReportingSound(r) && Unknown(r, report) && step != Enqueue(report)
    ensures Unknown(Advance(r, step), report)
  {
    hide ReportingSound, DbSound, AppendEvent, QueueReports, EventsOf, FromQueue, Authenticated, LineSize, Delivered;
    hide Keyed;
    hide OtherWork;
    match step
    case Deliver(n, requestId, now) =>
      if n < |r.sent| {
        UnknownAfterDelivery(r, report, n, requestId, now);
      }
    case Elsewhere(after) =>
      SoundDb(r);
      if OtherWork(r.db, after, r.installation, r.others) {
        OtherWorkLeavesUnknown(r, report, after);
      }
    case _ =>
  }

  lemma {:induction false} SameDb(r: Reporting, s: Reporting)
    requires DbSound(r) && s.db == r.db && s.installation == r.installation
    ensures DbSound(s)
  {
    hide Inv, Credentialed;
  }

  lemma {:induction false} UnknownOverRuns(r: Reporting, report: Report, steps: seq<Step>)
    requires ReportingSound(r) && Unknown(r, report) && Enqueue(report) !in steps
    ensures Unknown(Steps(r, steps), report)
    decreases |steps|
  {
    hide ReportingSound, Unknown, Steps, Advance;
    StepsUnfold(r, steps);
    if steps != [] {
      UnknownOverRuns(r, report, steps[..|steps| - 1]);
      StaysSound(r, steps[..|steps| - 1]);
      UnknownStays(Steps(r, steps[..|steps| - 1]), report, steps[|steps| - 1]);
    }
  }

  lemma {:induction false} RestIsUnknown(r: Reporting, report: Report)
    requires ReportingSound(r) && r.progress.Rewriting? && report !in r.sent
    ensures Unknown(Dropped(r), report)
  {
    hide DbSound, QueueReports, EventsOf, Keyed, LineSize, FilesFit;
    assert Dropped(r).progress == Idle && Rest(Dropped(r)) == [];
  }

  /** A pass that is interrupted between the truncation and the write loses what was left: an event that was not posted
      yet never reaches the server, however often the daemon passes over the queue again. */
  lemma {:induction false} InterruptedRewriteLoses(r: Reporting, report: Report, steps: seq<Step>)
    requires ReportingSound(r) && r.progress.Rewriting? && report in r.progress.rest
    requires report !in r.sent && Enqueue(report) !in steps
    ensures var s := Steps(Advance(r, Interrupt), steps);
      && report in Advance(r, Interrupt).lost && report !in s.queue
      && (s.installation in s.db.specs ==> report !in QueueReports(EventsOf(s.db, s.installation)))
  {
    hide ReportingSound, Steps, AppendEvent, OtherWork, Authenticated, EventsOf, QueueReports, Keyed;
    RestIsUnknown(r, report);
    AdvanceSound(r, Interrupt);
    UnknownOverRuns(Dropped(r), report, steps);
  }

  lemma {:induction false} SoundDb(r: Reporting)
    requires ReportingSound(r)
    ensures DbSound(r) && Inv(r.db) && Credentialed(r.db, r.installation)
  {
    hide FilesFit, PassFits, ServerFits, Inv, Credentialed;
  }

  // ---------------------------------------------------------------------------
  // What is taken off
  // ---------------------------------------------------------------------------

  /** How many events at the front of the queue the pass knows to be accepted. */
  function Confirmed(p: Progress): nat {
    match p
    case Draining(c) => c
    case Awaiting(c, answered) => if answered then c + 1 else c
    case Stopped(c) => c
    case _ => 0
  }

  ghost function ServerReports(r: Reporting): seq<Report> {
    QueueReports(EventsOf(r.db, r.installation))
  }

  ghost predicate TakenFits(r: Reporting) {
    r.installation in r.db.specs ==>
      && (forall x | x in r.drained :: x in ServerReports(r))
      && (forall k | 0 <= k < Confirmed(r.progress) && k < |r.queue| :: r.queue[k] in ServerReports(r))
  }

  lemma {:induction false} TakenByDelivery(r: Reporting, n: nat, requestId: string, now: Instant)
    requires ReportingSound(r) && TakenFits(r) && n < |r.sent|
    ensures TakenFits(Delivered(r, n, requestId, now))
  {
    hide ReportingSound, Inv, QueueReports, AppendEvent, Keyed, FromQueue, EventsOf, Credentialed, FilesFit, Scannable;
    PostedIsKeyed(r, n);
    SoundPass(r);
    DeliveredDb(r.db, r.installation, r.sent[n], requestId, now);
    if AppendEvent(r.db, r.installation, r.sent[n], requestId, now).result.Ok? {
      DeliveryAdds(r.db, r.installation, r.sent[n], requestId, now);
    }
  }

  lemma {:induction false} TakenElsewhere(r: Reporting, after: Db)
    requires DbSound(r) && TakenFits(r) && OtherWork(r.db, after, r.installation, r.others)
    ensures TakenFits(r.(db := after))
  {
    hide Inv, QueueReports, Evolves, EventsOf, Credentialed;
    LaterSpecs(r.db, after, r.installation);
  }

  lemma {:induction false} TakenByTruncation(r: Reporting)
    requires TakenFits(r) && MayTruncate(r)
    ensures TakenFits(Advance(r, Truncate))
  {
    hide QueueReports, EventsOf, AppendEvent, OtherWork, Authenticated, Keyed, LineSize, Delivered;
  }

  lemma {:induction false} TakenByPass(r: Reporting, s: Reporting)
    requires TakenFits(r) && s.db == r.db && s.installation == r.installation && s.drained == r.drained
    requires Confirmed(s.progress) <= Confirmed(r.progress) && (Confirmed(s.progress) == 0 || s.queue == r.queue)
    ensures TakenFits(s)
  {
    hide QueueReports, EventsOf;
    assert ServerReports(s) == ServerReports(r);
  }

  lemma {:induction false} AdvanceTaken(r: Reporting, step: Step)
    requires ReportingSound(r) && TakenFits(r)
    ensures TakenFits(Advance(r, step))
  {
    hide ReportingSound, TakenFits, AppendEvent, OtherWork, Authenticated, Keyed, LineSize, Delivered, FilesFit;
    hide PassFits;
    match step
    case Deliver(n, requestId, now) =>
      if n < |r.sent| && n in r.admitted && r.time <= now {
        var w := r.(time := now, admitted := r.admitted - multiset{n});
        AdmittedWerePosted(r);
        AdmissionSound(r, now, w.admitted);
        TakenByPass(r, w);
        TakenByDelivery(w, n, requestId, now);
      }
    case Elsewhere(after) =>
      SoundDb(r);
      if OtherWork(r.db, after, r.installation, r.others) {
        TakenElsewhere(r, after);
      }
    case Truncate =>
      if MayTruncate(r) {
        TakenByTruncation(r);
      }
    case _ => TakenByPass(r, Advance(r, step));
  }

  lemma {:induction false} RunTaken(start: Reporting, steps: seq<Step>)
    requires AtStart(start)
    ensures TakenFits(Steps(start, steps))
    decreases |steps|
  {
    StepsUnfold(start, steps);
    if steps == [] {
      NothingTakenYet(start);
    } else {
      hide ReportingSound, TakenFits, Advance, Steps, AtStart;
      var front, last := steps[..|steps| - 1], steps[|steps| - 1];
      RunTaken(start, front);
      StartSound(start);
      StaysSound(start, front);
      AdvanceTaken(Steps(start, front), last);
    }
  }

  lemma {:induction false} NothingTakenYet(start: Reporting)
    requires AtStart(start)
    ensures TakenFits(start)
  {
    hide Inv, Credentialed, QueueReports, EventsOf;
  }

  /** In every run, with losses or without: what was taken off the queue is on the server. */
  lemma {:induction false} TakenIsStored(start: Reporting, steps: seq<Step>, report: Report)
    requires AtStart(start) && report in Steps(start, steps).drained
    ensures var r := Steps(start, steps);
      start.installation in r.db.specs ==> report in QueueReports(EventsOf(r.db, start.installation))
  {
    hide Steps, AtStart, QueueReports, EventsOf, ReportingSound;
    RunTaken(start, steps);
    StartSound(start);
    StaysSound(start, steps);
  }
}
