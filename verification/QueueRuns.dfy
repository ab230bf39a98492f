/** Runs of the event queue from the start: one that stops at a second failure, and two that lose an event. */
module QueueRuns {
  import opened Prelude
  import opened Text
  import opened Lifecycle
  import opened Records
  import opened Schema
  import opened Transactions
  import opened StoreInvariant
  import opened StoreSteps
  import opened TelemetrySteps
  import opened ControlPlane
  import opened StepsAreFaithful
  import opened TrustRuns
  import opened Reach
  import opened EventQueue
  import opened QueueStops
  import opened ReporterWitness

  // ---------------------------------------------------------------------------
  // A second failure
  // ---------------------------------------------------------------------------

  lemma {:induction false} FailureIsAccepted(report: Report)
    requires ValidReport(report) && report.stage == Failed && FromQueue(report)
    ensures var tx := AppendEvent(BOOTED_STORE, 1, report, "", 3);
      && tx.result.Ok? && 1 in tx.db.specs && CurrentStage(tx.db, 1) == Some(Failed)
      && Authenticated(BOOTED_STORE, 1, Bearer(9), 3).Ok?
  {
    hide ValidReport, Inv, History, Coupled, FindEvent, CreatedKey, PxeKey, Histories;
    BootedStoreIsValid();
    HistoriesHold(BOOTED_STORE);
    AppendEventCases(BOOTED_STORE, 1, report, "", 3);
    NothingFromTheQueue(report);
  }

  lemma {:induction false} KeysOfTheServer()
    ensures forall k | 0 <= k < 2 :: !FromQueue(EVENTS[k].report)
  {
    hide Decimal;
    assert CreatedKey(1)[0] == PxeKey(1)[0] == 's' && QUEUE_KEY[0] == 'r';
  }

  lemma {:induction false} OtherKeys(a: Report, b: Report)
    requires !FromQueue(a)
    ensures FromQueue(b) ==> a.key != b.key
  {
  }

  lemma {:induction false} FoundNowhere(key: string)
    ensures FindEvent([], key).None?
  {
  }

  lemma {:induction false} NothingFromTheQueue(report: Report)
    ensures QueueReports(EVENTS) == []
    ensures FromQueue(report) ==> FindEvent(EVENTS, report.key).None?
  {
    KeysOfTheServer();
    hide FromQueue, FindEvent;
    assert EVENTS == [EVENTS[0]] + [EVENTS[1]];
    assert [] + [EVENTS[0]] == [EVENTS[0]];
    OthersEvent([], EVENTS[0]);
    OthersEvent([EVENTS[0]], EVENTS[1]);
    FoundBehind([EVENTS[0]], EVENTS[1], report.key);
    FoundBehind([], EVENTS[0], report.key);
    OtherKeys(EVENTS[0].report, report);
    OtherKeys(EVENTS[1].report, report);
    FoundNowhere(report.key);
  }

  /** A valid report fits a line, so only a report that the server would refuse makes the scan fail. */
  lemma {:induction false} ValidIsScannable(report: Report)
    requires ValidReport(report)
    ensures LineSize(report) <= MAX_LINE
  {
    hide ValidKey, ValidMetadata, SensitiveKey, Blank, StageName, SourceName;
    assert |report.key| <= 128 by { KeyIsShort(report.key); }
    assert |StageName(report.stage)| <= 20 && |SourceName(report.source)| <= 10 by { NamesAreShort(report); }
  }

  lemma {:induction false} KeyIsShort(key: string)
    requires ValidKey(key)
    ensures |key| <= 128
  {
  }

  lemma {:induction false} NamesAreShort(report: Report)
    ensures |StageName(report.stage)| <= 20 && |SourceName(report.source)| <= 10
  {
  }

  lemma {:induction false} AtTheStart() returns (r: Reporting)
    ensures AtStart(r) && r.db == BOOTED_STORE && r.installation == 1 && r.others == ELSEWHERE && r.time == 3
  {
    hide Inv, Credentialed, Usable, FromQueue, QueueReports, FindEvent, CreatedKey, PxeKey;
    BootedStoreIsValid();
    NothingFromTheQueue(EVENTS[0].report);
    r := Reporting(BOOTED_STORE, 3, 1, ELSEWHERE, [], true, Progress.Idle, [], [], [], [], multiset{}, 0);
  }

  function SampleFailure(code: string, at: nat): Report {
    Report(Failed, Installer, at, EventKey(Failed, code), "", code, map[])
  }

  /** One event is enqueued, posted, accepted and taken off. */
  lemma {:induction false} OneTaken(r: Reporting, report: Report) returns (steps: seq<Step>)
    requires AtStart(r) && Keyed(report) && LineSize(report) <= MAX_LINE && r.time == 3
    requires Authenticated(r.db, r.installation, Bearer(9), 3).Ok?
    requires AppendEvent(r.db, r.installation, report, "", 3).result.Ok?
    ensures var s := Steps(r, steps);
      && ReportingSound(s) && s.alive && s.progress == Idle && s.installation == r.installation && s.others == r.others
      && s.drained == [report] && s.queue == [] && s.db == AppendEvent(r.db, r.installation, report, "", 3).db
  {
    hide Steps, LineSize, AppendEvent, Authenticated, Inv, ReportingSound, AtStart, Keyed, Advance, AcceptedInTurn;
    hide AfterAll;
    StartSound(r);
    var a := OneEnqueued(r, report);
    assert a.queue[..1] == [report] && a.queue[1..] == [];
    OneAcceptedInTurn(a, report);
    var drain := DrainTakesTheAccepted(a, 1, Bearer(9), "", 3);
    MoreSteps(r, [Enqueue(report)], drain);
    steps := [Enqueue(report)] + drain;
    StaysSound(r, steps);
    assert a.drained + [report] == [report];
  }

  /** The installer fails twice. The first failure is taken and ends the installation; the second one, with a key of its
      own, stays at the head for ever. */
  lemma {:induction false} StoppedFromTheStart(first: Report, second: Report) returns (r: Reporting, steps: seq<Step>)
    requires ValidReport(first) && first.stage == Failed && Keyed(first) && Keyed(second)
    ensures AtStart(r)
    ensures var s := Steps(r, steps);
      && ReportingSound(s) && s.alive && s.progress == Idle && s.installation in s.db.specs && s.others == ELSEWHERE
      && s.drained == [first] && s.queue == [second] && Hopeless(s)
  {
    hide Steps, ValidReport, FromQueue, LineSize, AppendEvent, Authenticated, Inv, ReportingSound, AtStart, Hopeless;
    hide CurrentStage, Keyed, Advance, Credentialed, FilesFit, PassFits, BOOTED_STORE;
    r := AtTheStart();
    KeyIsOfTheQueue(first);
    FailureIsAccepted(first);
    ValidIsScannable(first);
    var before := OneTaken(r, first);
    var b := Steps(r, before);
    OneStepMore(r, before, Enqueue(second));
    EnqueuedIdle(b, second);
    AdvanceSound(b, Enqueue(second));
    steps := before + [Enqueue(second)];
    var s := Steps(r, steps);
    assert s == b.(queue := b.queue + [second], enqueued := b.enqueued + [second]);
    EndedIsHopeless(s);
  }

  lemma {:induction false} OneAcceptedInTurn(r: Reporting, report: Report)
    requires Authenticated(r.db, r.installation, Bearer(9), 3).Ok?
    requires AppendEvent(r.db, r.installation, report, "", 3).result.Ok?
    ensures AcceptedInTurn(r.db, r.installation, [report], Bearer(9), "", 3)
    ensures AfterAll(r.db, r.installation, [report], "", 3) == AppendEvent(r.db, r.installation, report, "", 3).db
  {
    hide Authenticated, AppendEvent;
    assert [report][1..] == [];
  }

  lemma {:induction false} EnqueuedIdle(r: Reporting, report: Report)
    requires r.progress == Idle && Keyed(report)
    ensures Advance(r, Enqueue(report)) == r.(queue := r.queue + [report], enqueued := r.enqueued + [report])
  {
    hide AppendEvent, Authenticated, OtherWork, Keyed, Delivered;
  }

  lemma {:induction false} OneEnqueued(r: Reporting, report: Report) returns (a: Reporting)
    requires AtStart(r) && Keyed(report)
    ensures a == Steps(r, [Enqueue(report)]) == r.(queue := [report], enqueued := [report])
    ensures a.alive && a.progress == Idle && a.drained == [] && a.lost == []
  {
    hide Steps, AppendEvent, Authenticated, OtherWork, Inv, Credentialed, FromQueue;
    OnlyStep(r, Enqueue(report));
    assert [] + [report] == [report];
    a := Steps(r, [Enqueue(report)]);
  }

  lemma {:induction false} ShortCode(code: string)
    requires code == "E1" || code == "E2"
    ensures Trim(code) == code && Trim("") == ""
  {
    hide Trim;
    assert code[0] == 'E' && (code[1] == '1' || code[1] == '2');
    assert !IsSpace(code[0]) && !IsSpace(code[1]);
    hide IsSpace;
    assert Trim("") == [];
  }

  /** QueueEvent makes such a report, and the server takes it. */
  lemma {:induction false} SampleIsQueued(code: string, at: nat)
    requires code == "E1" || code == "E2"
    ensures ValidReport(SampleFailure(code, at)) && FromQueue(SampleFailure(code, at))
    ensures QueuedReport(Failed, Installer, "", code, at) == Some(SampleFailure(code, at)) && Keyed(SampleFailure(code, at))
  {
    hide Trim, EventKey, ValidKey, SensitiveKey;
    ShortCode(code);
    SampleKey(code);
    QueuedIsKeyed(Failed, Installer, "", code, at);
  }

  lemma {:induction false} SampleKey(code: string)
    requires (code == "E1" || code == "E2") && Trim(code) == code
    ensures ValidKey(EventKey(Failed, code))
  {
    hide Trim, Lower, Sanitized;
    SampleCode(code);
    var tail := "failed" + (":" + Sanitized(Lower(code)));
    assert EventKey(Failed, code) == QUEUE_KEY + tail;
    TailIsValid(tail, Sanitized(Lower(code)));
    hide EventKey;
    QueueKeyIsValid(tail);
  }

  lemma {:induction false} SampleCode(code: string)
    requires code == "E1" || code == "E2"
    ensures |Sanitized(Lower(code))| == 2
  {
    var lower := Lower(code);
    assert Sanitized(lower[1..][1..]) == [];
    assert |Sanitized(lower[1..])| == 1;
  }

  lemma {:induction false} TailIsValid(tail: string, code: string)
    requires tail == "failed" + (":" + code) && forall k | 0 <= k < |code| :: KeyChar(code[k])
    ensures forall k | 0 <= k < |tail| :: KeyChar(tail[k])
  {
    assert forall k | 7 <= k < |tail| :: tail[k] == code[k - 7];
    var name := "failed:";
    assert forall k | 0 <= k < 7 :: tail[k] == name[k];
    assert forall k | 0 <= k < 7 :: KeyChar(name[k]);
  }

  lemma {:induction false} QueueKeyIsValid(tail: string)
    requires |tail| <= 100 && forall k | 0 <= k < |tail| :: KeyChar(tail[k])
    ensures ValidKey(QUEUE_KEY + tail)
  {
    var key := QUEUE_KEY + tail;
    assert |QUEUE_KEY| == 15;
    forall k | 0 <= k < |key| ensures KeyChar(key[k]) {
      if k >= 15 {
        assert key[k] == tail[k - 15];
      } else {
        PrefixIsValid(k);
        assert key[k] == QUEUE_KEY[k];
      }
    }
    assert key[0] == QUEUE_KEY[0] == 'r';
  }

  /** Two such failures: from the start to a stop that no continuation ends. */
  lemma {:induction false} SecondFailureStopsTheQueue() returns (r: Reporting, steps: seq<Step>)
    ensures AtStart(r)
    ensures var s := Steps(r, steps);
      && s.drained == [SampleFailure("E1", 1)] && s.queue == [SampleFailure("E2", 2)]
      && forall more :: HeadStays(s, Steps(s, more))
  {
    hide Steps, ValidReport, FromQueue, AtStart, Hopeless, ReportingSound, QueuedReport, HeadStays, SampleFailure;
    hide Keyed;
    SampleIsQueued("E1", 1);
    SampleIsQueued("E2", 2);
    SampleStage("E1", 1);
    r, steps := StoppedFromTheStart(SampleFailure("E1", 1), SampleFailure("E2", 2));
    var s := Steps(r, steps);
    forall more ensures HeadStays(s, Steps(s, more)) {
      HopelessStops(s, more);
    }
  }

  lemma {:induction false} SampleStage(code: string, at: nat)
    ensures SampleFailure(code, at).stage == Failed
  {
  }

  // ---------------------------------------------------------------------------
  // A lost event
  // ---------------------------------------------------------------------------

  /** An event of the installer as QueueEvent makes it. */
  function Plain(stage: Stage, at: nat): Report {
    Report(stage, Installer, at, EventKey(stage, ""), "", "", map[])
  }

  const STARTED := Plain(InstallerStarted, 1)
  const PREPARED := Plain(DiskPreparation, 2)
  const INSTALLED := Plain(OsInstalling, 3)

  lemma {:induction false} NameIsValid(stage: Stage)
    ensures |StageName(stage)| <= 20 && forall k | 0 <= k < |StageName(stage)| :: KeyChar(StageName(stage)[k])
  {
  }

  lemma {:induction false} PlainKeyIsValid(stage: Stage)
    requires stage != Failed
    ensures ValidKey(EventKey(stage, ""))
  {
    hide StageName, Trim, Lower, Sanitized;
    NameIsValid(stage);
    assert EventKey(stage, "") == QUEUE_KEY + StageName(stage);
    hide EventKey;
    QueueKeyIsValid(StageName(stage));
  }

  lemma {:induction false} PrefixIsValid(k: nat)
    requires k < 15
    ensures KeyChar(QUEUE_KEY[k])
  {
  }

  lemma {:induction false} PlainIsQueued(stage: Stage, at: nat)
    requires InstallerStage(stage)
    ensures ValidReport(Plain(stage, at)) && Keyed(Plain(stage, at))
    ensures QueuedReport(stage, Installer, "", "", at) == Some(Plain(stage, at))
  {
    hide Trim, EventKey, ValidKey, SensitiveKey, StageName;
    EmptyIsBlank();
    PlainKeyIsValid(stage);
    QueuedIsKeyed(stage, Installer, "", "", at);
    assert QueuedReport(stage, Installer, "", "", at) == Some(Plain(stage, at));
  }

  lemma {:induction false} EmptyIsBlank()
    ensures Trim("") == "" && Blank("")
  {
    hide IsSpace;
  }

  /** Both are on the queue, and the first one is taken by the server. */
  lemma {:induction false} FirstOfTwo(r: Reporting, a: Report, b: Report) returns (steps: seq<Step>)
    requires AtStart(r) && Keyed(a) && Keyed(b) && Scannable([a, b]) && r.time == 3
    requires Authenticated(r.db, r.installation, Bearer(9), 3).Ok?
    requires AppendEvent(r.db, r.installation, a, "", 3).result.Ok?
    ensures var s := Steps(r, steps);
      && s.progress == Draining(1) && s.queue == [a, b] && s.drained == [] && s.lost == [] && s.sent == [a] && s.alive
      && s.installation == r.installation && s.others == r.others && s.time == 3
      && s.db == AppendEvent(r.db, r.installation, a, "", 3).db
  {
    hide Steps, Scannable, AppendEvent, Authenticated, Keyed, Advance;
    var c := TwoScanned(r, a, b);
    var scan := [Enqueue(a), Enqueue(b)] + [StartDrain];
    OneRound(c, Bearer(9), "", 3);
    MoreSteps(r, scan, Round(c, Bearer(9), "", 3));
    steps := scan + Round(c, Bearer(9), "", 3);
    assert [] + [a] == [a];
  }

  lemma {:induction false} TwoScanned(r: Reporting, a: Report, b: Report) returns (s: Reporting)
    requires AtStart(r) && Keyed(a) && Keyed(b) && Scannable([a, b])
    ensures s == Steps(r, [Enqueue(a), Enqueue(b)] + [StartDrain])
    ensures s == r.(queue := [a, b], enqueued := [a, b], progress := Draining(0))
  {
    hide Steps, Scannable, AppendEvent, Authenticated, Keyed, OtherWork, Inv, Credentialed, Delivered;
    assert [] + [a] == [a] && [a] + [b] == [a, b];
    TwoSteps(r, Enqueue(a), Enqueue(b));
    OneStepMore(r, [Enqueue(a), Enqueue(b)], StartDrain);
    s := Steps(r, [Enqueue(a), Enqueue(b)] + [StartDrain]);
  }

  /** The next post gets no answer, or does not leave the machine at all, and the rest is lost with the file. */
  lemma {:induction false} SecondIsLost(r: Reporting, a: Report, b: Report, posted: bool) returns (steps: seq<Step>)
    requires r.progress == Draining(1) && r.queue == [a, b]
    ensures Steps(r, steps)
      == r.(progress := Idle, queue := [], drained := r.drained + [a], lost := r.lost + [b],
            sent := if posted then r.sent + [b] else r.sent)
  {
    hide Steps, AppendEvent, Authenticated, Keyed, OtherWork, Delivered, Scannable;
    var s := r.(progress := Stopped(1), sent := if posted then r.sent + [b] else r.sent);
    var fail := if posted then [Post, Refused] else [NoConnection];
    if posted {
      TwoSteps(r, Post, Refused);
    } else {
      OnlyStep(r, NoConnection);
    }
    assert Steps(r, fail) == s;
    assert s.queue[..1] == [a] && s.queue[1..] == [b];
    TwoSteps(s, Truncate, Interrupt);
    MoreSteps(r, fail, [Truncate, Interrupt]);
    steps := fail + [Truncate, Interrupt];
  }

  lemma {:induction false} Booted()
    ensures 1 in BOOTED_STORE.specs && 1 in BOOTED_STORE.events && BOOTED_STORE.events[1] == EVENTS
    ensures CurrentStage(BOOTED_STORE, 1) == Some(PxeBooted)
    ensures Authenticated(BOOTED_STORE, 1, Bearer(9), 3).Ok?
  {
    hide CreatedKey, PxeKey;
  }

  lemma {:induction false} QueueKeyIsFree(report: Report)
    requires Keyed(report)
    ensures KeyIsFree(BOOTED_STORE, 1, report)
  {
    hide Keyed, FromQueue, FindEvent, BOOTED_STORE, EVENTS;
    Booted();
    KeyIsOfTheQueue(report);
    NothingFromTheQueue(report);
  }

  lemma {:induction false} StartedIsAccepted()
    ensures var tx := AppendEvent(BOOTED_STORE, 1, STARTED, "", 3);
      tx.result.Ok? && tx.db == WithEvent(BOOTED_STORE, 1, Event(STARTED, 3, ""))
    ensures Authenticated(BOOTED_STORE, 1, Bearer(9), 3).Ok?
  {
    hide ValidReport, Inv, Keyed, BOOTED_STORE, STARTED, AppendEvent, KeyIsFree, CurrentStage, Credentialed, Usable;
    hide Authenticated, WithEvent;
    Booted();
    BootedStoreIsValid();
    SamplesAreQueued();
    SampleStages();
    QueueKeyIsFree(STARTED);
    NextIsAccepted(BOOTED_STORE, 1, STARTED, 3);
  }

  /** INSTALLER_STARTED is taken off, DISK_PREPARATION is lost, posted or not, and OS_INSTALLING is queued. */
  lemma {:induction false} LossyRun(posted: bool) returns (r: Reporting, steps: seq<Step>)
    ensures AtStart(r)
    ensures var s := Steps(r, steps);
      && ReportingSound(s) && s.alive && s.progress == Idle && s.installation == 1 && s.others == ELSEWHERE && s.time == 3
      && s.drained == [STARTED] && s.lost == [PREPARED] && s.queue == [INSTALLED]
      && s.sent == (if posted then [STARTED, PREPARED] else [STARTED])
      && s.db == WithEvent(BOOTED_STORE, 1, Event(STARTED, 3, ""))
  {
    hide Steps, ValidReport, LineSize, AppendEvent, Authenticated, ReportingSound, AtStart, Keyed, Advance;
    hide BOOTED_STORE, Plain;
    hide STARTED, PREPARED, INSTALLED;
    r := AtTheStart();
    SamplesAreQueued();
    StartedIsAccepted();
    var first := FirstOfTwo(r, STARTED, PREPARED);
    var b := Steps(r, first);
    var second := SecondIsLost(b, STARTED, PREPARED, posted);
    var c := Steps(b, second);
    MoreSteps(r, first, second);
    OneStepMore(r, first + second, Enqueue(INSTALLED));
    EnqueuedIdle(c, INSTALLED);
    steps := first + second + [Enqueue(INSTALLED)];
    StartSound(r);
    StaysSound(r, steps);
    assert [] + [STARTED] == [STARTED] && [] + [PREPARED] == [PREPARED] && [] + [INSTALLED] == [INSTALLED];
    assert [STARTED] + [PREPARED] == [STARTED, PREPARED];
  }

  lemma {:induction false} SamplesAreQueued()
    ensures Keyed(STARTED) && Keyed(PREPARED) && Keyed(INSTALLED) && Scannable([STARTED, PREPARED])
    ensures ValidReport(STARTED) && ValidReport(PREPARED) && ValidReport(INSTALLED) && Scannable([INSTALLED])
  {
    hide ValidReport, LineSize, Keyed, Plain, EventKey;
    PlainIsTaken(InstallerStarted, 1);
    PlainIsTaken(DiskPreparation, 2);
    PlainIsTaken(OsInstalling, 3);
  }

  lemma {:induction false} PlainIsTaken(stage: Stage, at: nat)
    requires InstallerStage(stage)
    ensures var report := Plain(stage, at); ValidReport(report) && Keyed(report) && LineSize(report) <= MAX_LINE
  {
    hide ValidReport, LineSize, Keyed, Plain, EventKey, QueuedReport;
    PlainIsQueued(stage, at);
    ValidIsScannable(Plain(stage, at));
  }

  /** What the server has in these runs, and what it has not. */
  lemma {:induction false} AfterStarted()
    ensures var db := WithEvent(BOOTED_STORE, 1, Event(STARTED, 3, ""));
      && 1 in db.specs && CurrentStage(db, 1) == Some(InstallerStarted) && Usable(db, 1, 3)
      && KeyIsFree(db, 1, PREPARED) && KeyIsFree(db, 1, INSTALLED)
  {
    hide ValidReport, Keyed, Inv, Credentialed, BOOTED_STORE, STARTED, PREPARED, INSTALLED, FindEvent, Authenticated;
    Booted();
    BootedStoreIsValid();
    assert Usable(BOOTED_STORE, 1, 3);
    SamplesAreQueued();
    SampleStages();
    StillFree(PREPARED);
    StillFree(INSTALLED);
  }

  lemma {:induction false} StillFree(report: Report)
    requires Keyed(report) && report.stage != InstallerStarted
    ensures KeyIsFree(WithEvent(BOOTED_STORE, 1, Event(STARTED, 3, "")), 1, report)
  {
    hide Keyed, BOOTED_STORE, STARTED, FindEvent, Authenticated, ValidReport;
    Booted();
    SamplesAreQueued();
    SampleStages();
    QueueKeyIsFree(report);
    FoundBehind(BOOTED_STORE.events[1], Event(STARTED, 3, ""), report.key);
    if report.key == STARTED.key {
      KeyFixesStage(report, STARTED);
    }
  }

  lemma {:induction false} SampleStages()
    ensures STARTED.stage == InstallerStarted && PREPARED.stage == DiskPreparation && INSTALLED.stage == OsInstalling
  {
    hide EventKey;
  }

  /** DISK_PREPARATION was not posted before it was lost: OS_INSTALLING stays at the head for ever. */
  lemma {:induction false} LostStageFromTheStart() returns (r: Reporting, steps: seq<Step>)
    ensures AtStart(r)
    ensures var s := Steps(r, steps);
      && s.lost == [PREPARED] && s.drained == [STARTED] && s.queue == [INSTALLED]
      && s.alive && s.installation in s.db.specs && forall more :: HeadStays(s, Steps(s, more))
  {
    hide Steps, ValidReport, LineSize, ReportingSound, AtStart, Keyed, BOOTED_STORE, STARTED, PREPARED, INSTALLED;
    hide HeadStays;
    hide KeyIsFree, CurrentStage, Usable;
    r, steps := LossyRun(false);
    AfterStarted();
    SampleStages();
    var s := Steps(r, steps);
    forall more ensures HeadStays(s, Steps(s, more)) {
      LostStageStopsTheQueue(s, DiskPreparation, more);
    }
  }

  /** It was posted, and only the answer was lost: the late post may still come in, and then OS_INSTALLING goes off. */
  lemma {:induction false} LatePostMakesUpForTheLoss() returns (r: Reporting, steps: seq<Step>, more: seq<Step>)
    ensures AtStart(r)
    ensures var s := Steps(r, steps);
      && s.lost == [PREPARED] && s.drained == [STARTED] && s.queue == [INSTALLED] && s.progress == Idle && Takes(s, more)
  {
    hide Steps, ValidReport, LineSize, ReportingSound, AtStart, Keyed, BOOTED_STORE, STARTED, PREPARED, INSTALLED;
    hide KeyIsFree, CurrentStage, Usable, Scannable, Takes;
    r, steps := LossyRun(true);
    var s := Steps(r, steps);
    AfterStarted();
    SampleStages();
    SamplesAreQueued();
    assert IsLate(s, 1);
    assert s.sent[1].stage in LateStages(s);
    assert DiskPreparation in Hops(s);
    OverDiskPreparation(Hops(s));
    hide Reachable, Hops;
    HeadIsTakenExactly(s);
    more :| Takes(s, more);
  }

  lemma {:induction false} OverDiskPreparation(hops: set<Stage>)
    requires DiskPreparation in hops
    ensures Reachable(InstallerStarted, OsInstalling, hops)
  {
    assert Reachable(DiskPreparation, OsInstalling, hops);
    ReachableBefore(InstallerStarted, DiskPreparation, OsInstalling, hops);
  }
}
