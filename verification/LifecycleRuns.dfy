/** Lifecycle histories over whole runs: their shape, the credential that goes with them, and the check-in of a machine
    that boots. */
module LifecycleRuns {
  import opened Prelude
  import opened Text
  import opened Lifecycle
  import opened Records
  import opened Schema
  import opened Transactions
  import opened StoreInvariant
  import opened StoreSteps
  import opened TelemetrySteps
  import opened TrustSteps
  import opened ControlPlane
  import opened StepsAreFaithful
  import opened Interleavings
  import opened Handoffs
  import opened TrustRuns

  // ---------------------------------------------------------------------------
  // Stage and credential
  // ---------------------------------------------------------------------------

  lemma {:induction false} HistoryOf(db: Db, i: Id)
    requires Inv(db) && i in db.specs
    ensures i in db.events && History(i, db.events[i]) && Coupled(i, db.events[i], db.assignments.Keys, db.credentials)
  {
    hide TrustSound, AssignmentsSound, ChallengesSound, KeysSound, Logs, SpecsOwned, IdentifiersAttached, IdsDrawn;
    hide History, Coupled;
  }

  ghost predicate Successful(stages: seq<Stage>) {
    exists queued: bool, firstBoot: bool :: stages == SuccessfulRun(queued, firstBoot)
  }

  /** The accepted stages of every installation form a path from CREATED of at most eleven events. Past PXE_BOOTED there
      is a credential, which a used challenge released; at the end that credential is revoked. An installation that was
      never assigned is at CREATED. */
  lemma {:induction false} LifecycleOfEveryRun(policy: SecureBootPolicy, actions: seq<Action>, i: Id)
    requires i in Run(policy, actions).db.specs
    ensures var db := Run(policy, actions).db;
      && i in db.events && IsPath(StagesOf(db.events[i])) && 1 <= |db.events[i]| <= 11
      && (forall k | 0 <= k < |db.events[i]| :: db.events[i][k].report.stage in Reportable(db.events[i][k].report.source))
      && (Rank(Last(db.events[i])) > Rank(PxeBooted) ==> i in db.credentials && exists c :: UsedFor(db.challenges, c, i))
      && (Terminal(Last(db.events[i])) ==> i in db.credentials && db.credentials[i].revokedAt != 0)
      && (i !in db.assignments ==> StagesOf(db.events[i]) == [Created])
      && (Last(db.events[i]) == Success ==> Successful(StagesOf(db.events[i])))
  {
    hide Run, Inv, SuccessfulRun;
    var db := Run(policy, actions).db;
    RunKeepsInv(policy, actions);
    HistoryOf(db, i);
    CredentialWasProved(db, i);
    hide UsedFor, IsPath, Reportable, SourceAllowed;
    var stages := StagesOf(db.events[i]);
    forall k | 0 <= k < |db.events[i]| ensures db.events[i][k].report.stage in Reportable(db.events[i][k].report.source) {
      SourcesAreExact(db.events[i][k].report.stage, db.events[i][k].report.source);
    }
    PathIsShort(stages);
    PathBegins(stages);
    if i !in db.assignments {
      assert stages == [stages[0]];
    }
    if stages[|stages| - 1] == Success {
      SuccessHasFourShapes(stages);
    }
  }

  lemma {:induction false} PathBegins(stages: seq<Stage>)
    requires IsPath(stages)
    ensures stages != [] && stages[0] == Created
  {
  }

  lemma {:induction false} TerminalPathStops(stages: seq<Stage>, longer: seq<Stage>)
    requires IsPath(stages) && IsPath(longer) && stages <= longer && Terminal(stages[|stages| - 1])
    ensures longer == stages
  {
    assert longer[|stages| - 1] == stages[|stages| - 1];
    PathIsShort(longer);
  }

  lemma {:induction false} TerminalHistoryStops(i: Id, before: seq<Event>, after: seq<Event>)
    requires History(i, before) && History(i, after) && before <= after && before != [] && Terminal(Last(before))
    ensures after == before
  {
    assert StagesOf(before) <= StagesOf(after);
    TerminalPathStops(StagesOf(before), StagesOf(after));
    assert |StagesOf(after)| == |StagesOf(before)|;
  }

  lemma {:induction false} LaterCredential(a: Db, b: Db, i: Id)
    requires Evolves(a, b) && i in a.credentials && i in b.specs
    ensures i in b.credentials && CredentialEvolves(a.credentials[i], b.credentials[i])
  {
    hide MachinesEvolve, SpecsEvolve, TelemetryEvolves;
  }

  ghost predicate Ended(db: Db, i: Id) {
    i in db.specs && EventsOf(db, i) != [] && Terminal(Last(EventsOf(db, i)))
  }

  lemma {:induction false} EndedStays(a: Db, b: Db, i: Id)
    requires Inv(a) && Inv(b) && Evolves(a, b) && Ended(a, i) && i in b.specs
    ensures i in a.events && i in b.events && b.events[i] == a.events[i]
    ensures i in a.credentials && i in b.credentials && CredentialEvolves(a.credentials[i], b.credentials[i])
    ensures a.credentials[i].revokedAt == b.credentials[i].revokedAt != 0
  {
    hide Inv, Evolves, History, CredentialEvolves;
    HistoryOf(a, i);
    HistoryOf(b, i);
    LaterEvents(a, b, i);
    TerminalHistoryStops(i, a.events[i], b.events[i]);
    LaterCredential(a, b, i);
    RevocationStays(a.credentials[i], b.credentials[i]);
  }

  lemma {:induction false} RevocationStays(a: Credential, b: Credential)
    requires CredentialEvolves(a, b) && a.revokedAt != 0
    ensures a.revokedAt == b.revokedAt
  {
  }

  /** After SUCCESS or FAILED nothing is ever appended again, the credential stays revoked, and it is never replaced. */
  lemma {:induction false} TheEndIsFinal(policy: SecureBootPolicy, before: seq<Action>, after: seq<Action>, i: Id)
    requires Ended(Run(policy, before).db, i) && i in Run(policy, before + after).db.specs
    ensures var a, b := Run(policy, before).db, Run(policy, before + after).db;
      && i in a.events && i in b.events && b.events[i] == a.events[i]
      && i in a.credentials && i in b.credentials && CredentialEvolves(a.credentials[i], b.credentials[i])
      && a.credentials[i].revokedAt == b.credentials[i].revokedAt != 0
  {
    hide Run, Inv, Evolves, Ended, CredentialEvolves;
    RunKeepsInv(policy, before);
    RunKeepsInv(policy, before + after);
    RunEvolves(policy, before, after);
    EndedStays(Run(policy, before).db, Run(policy, before + after).db, i);
  }

  // ---------------------------------------------------------------------------
  // Retries
  // ---------------------------------------------------------------------------

  /** Whatever happened since a report was accepted, repeating it returns the event it was answered with. */
  lemma {:induction false} RetryInEveryRun(
    policy: SecureBootPolicy, before: seq<Action>, step: Action, after: seq<Action>,
    i: Id, report: Report, requestId: string, now: Instant, requestId': string, now': Instant)
    requires var tx := AppendEvent(Run(policy, before).db, i, report, requestId, now);
      tx.result.Ok? && Run(policy, before + [step]).db == tx.db
    requires i in Run(policy, before + [step] + after).db.specs
    ensures var later := Run(policy, before + [step] + after).db;
      AppendEvent(later, i, report, requestId', now')
      == Tx(later, Ok((AppendEvent(Run(policy, before).db, i, report, requestId, now).result.value.0, true)))
  {
    hide Run, Inv, Evolves, AppendEvent;
    RunKeepsInv(policy, before);
    RunEvolves(policy, before + [step], after);
    RepeatedReport(Run(policy, before).db, i, report, requestId, now, Run(policy, before + [step] + after).db, requestId', now');
  }

  // ---------------------------------------------------------------------------
  // The check-in of a machine that boots
  // ---------------------------------------------------------------------------

  /** The PXE_BOOTED event of an installation, and the key reserved for it, are the server's own. */
  ghost predicate CheckInReserved(i: Id, events: seq<Event>) {
    forall k | 0 <= k < |events| && (events[k].report.stage == PxeBooted || events[k].report.key == PxeKey(i)) ::
      events[k].report == CheckInReport(i)
  }

  lemma {:induction false} PxeIsThere(i: Id, events: seq<Event>)
    requires History(i, events) && Rank(Last(events)) >= Rank(PxeBooted)
    ensures exists k :: 0 <= k < |events| && events[k].report.stage == PxeBooted
  {
    var j := PathMeetsPxe(StagesOf(events), |events| - 1);
    assert events[j].report.stage == PxeBooted;
  }

  lemma {:induction false} EarlyStages(stage: Stage)
    ensures Rank(stage) < Rank(PxeBooted) <==> CanAdvance(Some(stage), PxeBooted)
  {
  }

  lemma {:induction false} CheckInFollows(i: Id, events: seq<Event>, e: Event)
    requires e.report == CheckInReport(i) && events != []
    ensures Follows(events, e) <==>
      Rank(Last(events)) < Rank(PxeBooted) && forall k | 0 <= k < |events| :: events[k].report.key != PxeKey(i)
  {
    EarlyStages(Last(events));
  }

  lemma {:induction false} NotEmpty(i: Id, events: seq<Event>)
    requires History(i, events)
    ensures events != []
  {
  }

  lemma {:induction false} UnusedKey(events: seq<Event>, key: string)
    ensures FindEvent(events, key).None? <==> forall k | 0 <= k < |events| :: events[k].report.key != key
  {
    hide FindEvent;
  }

  /** Exactly when a check-in is a lifecycle conflict: the PXE_BOOTED stage was entered, or the reserved key was used,
      by something other than a check-in. */
  lemma {:induction false} CheckInConflictsExactly(db: Db, i: Id, requestId: string, now: Instant)
    requires Inv(db) && i in db.specs && ValidReport(CheckInReport(i))
    ensures i in db.events
    ensures AppendEvent(db, i, CheckInReport(i), requestId, now).result == Err(TelemetryConflict)
      <==> !CheckInReserved(i, db.events[i])
  {
    HistoryOf(db, i);
    HistoriesHold(db);
    var report, events := CheckInReport(i), db.events[i];
    hide Inv, Histories, History, ValidReport, AppendEvent, Accepted, Follows, FindEvent, CheckInReserved, PxeKey;
    hide Coupled;
    NotEmpty(i, events);
    AppendEventCases(db, i, report, requestId, now);
    UnusedKey(events, PxeKey(i));
    CheckInFollows(i, events, Event(report, now, requestId));
    CheckInCases(i, events);
  }

  lemma {:induction false} CheckInCases(i: Id, events: seq<Event>)
    requires History(i, events)
    ensures var found := FindEvent(events, PxeKey(i));
      CheckInReserved(i, events) <==>
        if found.Some? then found.value.report == CheckInReport(i) else Rank(Last(events)) < Rank(PxeBooted)
  {
    var found := FindEvent(events, PxeKey(i));
    if found.Some? {
      var k :| 0 <= k < |events| && events[k].report.key == PxeKey(i);
      FirstWithKey(events, PxeKey(i), k);
      if found.value.report == CheckInReport(i) {
        PxeIsUnique(i, events, k);
      }
    } else {
      if Rank(Last(events)) >= Rank(PxeBooted) {
        PxeIsThere(i, events);
      } else {
        BeforePxe(i, events);
      }
    }
  }

  lemma {:induction false} PxeIsUnique(i: Id, events: seq<Event>, k: nat)
    requires History(i, events) && k < |events| && events[k].report == CheckInReport(i)
    ensures CheckInReserved(i, events)
  {
    forall j | 0 <= j < |events| && j != k
      ensures events[j].report.stage != PxeBooted && events[j].report.key != PxeKey(i)
    {
      EventsDiffer(i, events, j, k);
    }
  }

  lemma {:induction false} EventsDiffer(i: Id, events: seq<Event>, j: nat, k: nat)
    requires History(i, events) && j < |events| && k < |events| && j != k
    ensures events[j].report.stage != events[k].report.stage && events[j].report.key != events[k].report.key
  {
    PathIsShort(StagesOf(events));
    var low, high := if j < k then j else k, if j < k then k else j;
    assert StagesOf(events)[low] != StagesOf(events)[high];
    assert events[low].report.key != events[high].report.key;
  }

  lemma {:induction false} BeforePxe(i: Id, events: seq<Event>)
    requires History(i, events) && Rank(Last(events)) < Rank(PxeBooted)
    ensures forall k | 0 <= k < |events| :: events[k].report.stage != PxeBooted
  {
    PathIsShort(StagesOf(events));
    var stages := StagesOf(events);
    forall k | 0 <= k < |events| ensures events[k].report.stage != PxeBooted {
      assert k < |events| - 1 ==> Rank(stages[k]) < Rank(stages[|stages| - 1]);
    }
  }

  // --- clients that report as the reporter does ---

  /** A report as the reporter sends it: its own key space, and not in the name of the server. */
  predicate ReporterShaped(report: Report) {
    report.source != Server && FromReporter(report)
  }

  predicate ReporterAction(action: Action) {
    action.Begin? && action.start.PostTelemetry? && action.start.job.EventJob? ==> ReporterShaped(action.start.job.report)
  }

  /** Every event is the reporter's, or one of the three that the server appends. */
  ghost predicate KnownAuthor(i: Id, report: Report) {
    || ReporterShaped(report)
    || (report.stage == Created && report.key == CreatedKey(i))
    || (report.stage == Queued && report.key == QueuedKey(i))
    || report == CheckInReport(i)
  }

  ghost predicate Authored(db: Db) {
    forall i, k | i in db.events && 0 <= k < |db.events[i]| :: KnownAuthor(i, db.events[i][k].report)
  }

  ghost predicate ReporterRequest(request: Request) {
    && (request.AppendingEvent? ==> ReporterShaped(request.report))
    && (request.Touching? && request.job.EventJob? ==> ReporterShaped(request.job.report))
  }

  ghost predicate AuthoredRequests(sys: Sys) {
    forall r | r in sys.requests :: ReporterRequest(sys.requests[r])
  }

  lemma {:induction false} ReservedIsNotReporters(i: Id, key: string)
    requires HasPrefix(key, REPORTER_KEY)
    ensures key != PxeKey(i)
  {
    assert key[0] == 'r' && PxeKey(i)[0] == 's';
  }

  lemma {:induction false} ServerKeysDiffer(i: Id)
    ensures PxeKey(i) != CreatedKey(i) && PxeKey(i) != QueuedKey(i)
  {
    assert CreatedKey(i)[7] == 'c' && QueuedKey(i)[7] == 'q' && PxeKey(i)[7] == 'p';
  }

  lemma {:induction false} KeysAreApart(i: Id, report: Report)
    requires KnownAuthor(i, report) && SourceAllowed(report.stage, report.source)
    requires report.stage == PxeBooted || report.key == PxeKey(i)
    ensures report == CheckInReport(i)
  {
    hide PxeKey, CreatedKey, QueuedKey, HasPrefix;
    ServerKeysDiffer(i);
    if HasPrefix(report.key, REPORTER_KEY) {
      ReservedIsNotReporters(i, report.key);
    }
  }

  lemma {:induction false} AuthoredIsReserved(db: Db, i: Id)
    requires Inv(db) && Authored(db) && i in db.specs
    ensures i in db.events && CheckInReserved(i, db.events[i])
  {
    hide Inv, KnownAuthor, PxeKey, IsPath;
    HistoryOf(db, i);
    var events := db.events[i];
    forall k | 0 <= k < |events| && (events[k].report.stage == PxeBooted || events[k].report.key == PxeKey(i))
      ensures events[k].report == CheckInReport(i)
    {
      KeysAreApart(i, events[k].report);
    }
  }

  /** What one step does to the histories: it leaves them, drops some, or appends one event of a known author. */
  ghost predicate AppendsKnown(a: Db, b: Db) {
    forall j | j in b.events :: (j in a.events && b.events[j] == a.events[j]) || Extended(a, j, b.events[j])
  }

  ghost predicate Extended(a: Db, j: Id, events: seq<Event>) {
    exists e :: events == EventsOf(a, j) + [e] && KnownAuthor(j, e.report)
  }

  lemma {:induction false} AuthoredStays(a: Db, b: Db)
    requires Authored(a) && AppendsKnown(a, b)
    ensures Authored(b)
  {
    hide KnownAuthor;
    forall i, k | i in b.events && 0 <= k < |b.events[i]| ensures KnownAuthor(i, b.events[i][k].report) {
      if !(i in a.events && b.events[i] == a.events[i]) {
        assert Extended(a, i, b.events[i]);
      }
    }
  }

  lemma {:induction false} OneMoreIsKnown(a: Db, i: Id, e: Event, b: Db)
    requires b.events == a.events[i := EventsOf(a, i) + [e]] && KnownAuthor(i, e.report)
    ensures AppendsKnown(a, b)
  {
    hide KnownAuthor, EventsOf;
    assert Extended(a, i, b.events[i]);
  }

  lemma {:induction false} SameEventsAreKnown(a: Db, b: Db)
    requires forall j | j in b.events :: j in a.events && b.events[j] == a.events[j]
    ensures AppendsKnown(a, b)
  {
  }

  lemma {:induction false} QueuedIsKnown(db: Db, row: Assignment, requestId: string, now: Instant)
    ensures AppendsKnown(db, WithArmed(db, row, QueuedEvent(row.installationId, requestId, now)))
  {
    var i, e := row.installationId, QueuedEvent(row.installationId, requestId, now);
    assert KnownAuthor(i, e.report);
    hide KnownAuthor, AppendsKnown, EventsOf, QueuedKey, QueuedEvent;
    OneMoreIsKnown(db, i, e, WithArmed(db, row, e));
  }

  lemma {:induction false} ArmAppends(db: Db, m: Id, i: Id, requestId: string, actor: string, now: Instant)
    requires Inv(db)
    ensures AppendsKnown(db, Arm(db, m, i, requestId, actor, now).db)
  {
    hide Inv, Arm, Evolves, HasArmed, ArmFits, Follows, FindEvent, AppendsKnown, QueuedKey, ArmAllowed, WithArmed;
    hide QueuedEvent;
    if ArmAllowed(db, m, i, actor) {
      ArmableFits(db, m, i, requestId, actor, now);
      ArmedFollows(db, m, i, requestId, actor, now);
      ArmCommits(db, m, i, requestId, actor, now);
      QueuedIsKnown(db, ArmedRow(db, m, i, actor, now), requestId, now);
    } else {
      ArmIsSound(db, m, i, requestId, actor, now);
      SameEventsAreKnown(db, db);
    }
  }

  lemma {:induction false} DiscoverKeepsEvents(db: Db, obs: Observation, now: Instant)
    requires Inv(db)
    ensures Discover(db, obs, now).db.events == db.events
  {
    FreshMachineId(db);
    hide Inv, Discover, IdentifiersAttached;
    DiscoverAccepts(db, obs, now);
  }

  lemma {:induction false} ProveKeepsEvents(db: Db, i: Id, c: Id, signature: Signature, secret: nat, now: Instant)
    ensures Complete(db, i, c, signature, secret, now).db.events == db.events
  {
    hide ProofFault;
  }

  lemma {:induction false} SettleKeepsEvents(db: Db, i: Id, actor: string, outcome: AssignmentState, now: Instant)
    ensures Settle(db, i, actor, outcome, now).db.events == db.events
  {
    hide Blank, ValidAssignment;
  }

  lemma {:induction false} DeletionKeepsEvents(db: Db, i: Id, actor: string)
    ensures var b := DeleteInstallation(db, i, actor).db;
      forall j | j in b.events :: j in db.events && b.events[j] == db.events[j]
  {
    hide DeleteInstallation;
    DeleteInstallationCommits(db, i, actor);
  }

  lemma {:induction false} MachineDeletionKeepsEvents(db: Db, m: Id, actor: string)
    requires Inv(db)
    ensures DeleteMachine(db, m, actor).db.events == db.events
  {
    hide Inv, Evolves, DeleteMachine, Installed;
    DeleteMachineIsSound(db, m, actor);
  }

  lemma {:induction false} RegisterKeepsEvents(db: Db, i: Id, pem: PublicKey, ek: string, now: Instant)
    requires Inv(db)
    ensures RegisterKey(db, i, pem, ek, now).db.events == db.events
  {
    hide Inv, Evolves, RegisterKey;
    RegisterKeyIsSound(db, i, pem, ek, now);
  }

  lemma {:induction false} ApproveKeepsEvents(db: Db, m: Id, f: Fingerprint, actor: string, now: Instant)
    ensures ApproveKey(db, m, f, actor, now).db.events == db.events
  {
    hide HasApproved, Trim, Blank;
  }

  lemma {:induction false} RevokeKeepsEvents(db: Db, m: Id, f: Fingerprint, actor: string, now: Instant)
    ensures RevokeKey(db, m, f, actor, now).db.events == db.events
  {
    hide HasApproved, Trim;
  }

  lemma {:induction false} ChallengeKeepsEvents(db: Db, i: Id, f: Fingerprint, nonce: nat, now: Instant)
    ensures CreateChallenge(db, i, f, nonce, now).db.events == db.events
  {
    hide TrustedMachine, KeyOf;
  }

  lemma {:induction false} CallAppends(db: Db, call: Call, now: Instant)
    requires Inv(db)
    ensures AppendsKnown(db, CallEffect(db, call, now).db)
  {
    hide Inv, AppendsKnown, Arm, Discover, Complete, Settle, DeleteInstallation, DeleteMachine, RegisterKey;
    hide ApproveKey, RevokeKey, CreateChallenge;
    if call.ArmCall? {
      ArmAppends(db, call.machine, call.installation, call.requestId, call.actor, now);
    } else {
      match call {
        case DiscoverCall(obs) => DiscoverKeepsEvents(db, obs, now);
        case RegisterCall(i, pem, ek) => RegisterKeepsEvents(db, i, pem, ek, now);
        case ApproveCall(m, f, actor) => ApproveKeepsEvents(db, m, f, actor, now);
        case RevokeKeyCall(m, f, actor) => RevokeKeepsEvents(db, m, f, actor, now);
        case ChallengeCall(i, f, nonce) => ChallengeKeepsEvents(db, i, f, nonce, now);
        case ProveCall(i, c, signature, secret) => ProveKeepsEvents(db, i, c, signature, secret, now);
        case CancelCall(i, actor) => SettleKeepsEvents(db, i, actor, Cancelled, now);
        case DeleteInstallationCall(i, actor) => DeletionKeepsEvents(db, i, actor);
        case DeleteMachineCall(m, actor) => MachineDeletionKeepsEvents(db, m, actor);
        case _ =>
      }
      SameEventsAreKnown(db, CallEffect(db, call, now).db);
    }
  }

  lemma {:induction false} StartAppends(db: Db, r: nat, start: Start, now: Instant)
    requires Inv(db)
    ensures AppendsKnown(db, StartEffect(db, r, start, now).db)
  {
    hide Inv, AppendsKnown, Discover, CreateSpecLookup, Authenticated, NextAfterDiscovery, DiscoverNote;
    match start {
      case PxeBoot(obs) => DiscoverKeepsEvents(db, obs, now);
      case _ =>
    }
    SameEventsAreKnown(db, StartEffect(db, r, start, now).db);
  }

  lemma {:induction false} AcceptedAppends(db: Db, i: Id, e: Event, now: Instant)
    requires i in db.events && KnownAuthor(i, e.report)
    ensures AppendsKnown(db, Accepted(db, i, e, now))
  {
    hide KnownAuthor, AppendsKnown;
    OneMoreIsKnown(db, i, e, Accepted(db, i, e, now));
  }

  lemma {:induction false} AppendAppends(db: Db, i: Id, report: Report, requestId: string, now: Instant)
    requires Inv(db) && KnownAuthor(i, report)
    ensures AppendsKnown(db, AppendEvent(db, i, report, requestId, now).db)
  {
    hide Inv, AppendEvent, AppendsKnown, KnownAuthor, Follows, FindEvent, ValidReport, Histories, Evolves, Accepted;
    SameEventsAreKnown(db, db);
    AppendEventFrame(db, i, report, requestId, now);
    HistoriesHold(db);
    if AppendEvent(db, i, report, requestId, now).result.Ok? {
      AnsweredIsValid(db, i, report, requestId, now);
      AppendEventCases(db, i, report, requestId, now);
      AcceptedAppends(db, i, Event(report, now, requestId), now);
    }
  }

  lemma {:induction false} SpecAppends(db: Db, input: SpecInput, requestId: string, now: Instant)
    requires Inv(db)
    ensures AppendsKnown(db, CreateSpecInsert(db, input, requestId, now).db)
  {
    FreshSpecId(db);
    hide Inv, CreateSpecInsert, AppendsKnown, CreatedKey;
    CreateSpecCommits(db, input, requestId, now);
    var b := CreateSpecInsert(db, input, requestId, now).db;
    if input.machineId in db.machines {
      var created := Event(ServerReport(Created, CreatedKey(db.nextId), CREATED_MESSAGE), now, requestId);
      assert EventsOf(db, db.nextId) + [created] == [created];
      OneMoreIsKnown(db, db.nextId, created, b);
    } else {
      SameEventsAreKnown(db, b);
    }
  }

  lemma {:induction false} ChunkKeepsEvents(db: Db, i: Id, chunk: ChunkInput, requestId: string, now: Instant)
    ensures AppendChunk(db, i, chunk, requestId, now).db.events == db.events
  {
    hide ValidChunk, FindChunk, LastSequence, TotalBytes;
  }

  lemma {:induction false} StepAppends(
    policy: SecureBootPolicy, db: Db, r: nat, request: Request, requestId: string, now: Instant)
    requires Inv(db) && (request.AppendingEvent? ==> ReporterShaped(request.report))
    ensures AppendsKnown(db, StepEffect(policy, db, r, request, requestId, now).db)
  {
    hide Inv, AppendsKnown, AppendEvent, AppendChunk, CreateSpecInsert, ActiveFor, Settle, PxeKey, ReporterShaped;
    hide HasPrefix;
    match request
    case AppendingEvent(i, report) => AppendAppends(db, i, report, requestId, now);
    case CheckingIn(i) => AppendAppends(db, i, CheckInReport(i), requestId, now);
    case InsertingSpec(input) => SpecAppends(db, input, requestId, now);
    case AppendingLog(i, chunk) =>
      ChunkKeepsEvents(db, i, chunk, requestId, now);
      SameEventsAreKnown(db, AppendChunk(db, i, chunk, requestId, now).db);
    case Consuming(i) =>
      SettleKeepsEvents(db, i, "system:pxe", Consumed, now);
      SameEventsAreKnown(db, Consume(db, i, "system:pxe", now).db);
    case _ => SameEventsAreKnown(db, StepEffect(policy, db, r, request, requestId, now).db);
  }

  lemma {:induction false} NextIsAuthored(sys: Sys, action: Action)
    requires SysValid(sys) && Authored(sys.db) && AuthoredRequests(sys) && ReporterAction(action)
    ensures Authored(Next(sys, action).db) && AuthoredRequests(Next(sys, action))
  {
    hide Inv, Prepared, Authored, CallEffect, StepEffect, AppendsKnown, ReporterShaped, Discover, Authenticated;
    hide CreateSpecLookup;
    match action {
      case Do(call, now) => CallAppends(sys.db, call, now);
      case Begin(start, now) => StartAppends(sys.db, sys.nextRequest, start, now);
      case Continue(r, requestId, now) =>
        if r in sys.requests {
          StepAppends(sys.secureBoot, sys.db, r, sys.requests[r], requestId, now);
        } else {
          SameEventsAreKnown(sys.db, sys.db);
        }
      case Abandon(_) => SameEventsAreKnown(sys.db, sys.db);
    }
    AuthoredStays(sys.db, Next(sys, action).db);
    RequestsStayAuthored(sys, action);
  }

  lemma {:induction false} RequestsStayAuthored(sys: Sys, action: Action)
    requires AuthoredRequests(sys) && ReporterAction(action)
    ensures AuthoredRequests(Next(sys, action))
  {
    hide ReporterShaped, Discover, SetPolicy, Arm, Settle, RegisterKey, ApproveKey, RevokeKey, CreateChallenge;
    hide Complete;
    hide RevokeCredential, DeleteInstallation, DeleteMachine, AppendEvent, AppendChunk, CreateSpecInsert, ActiveFor;
    hide Authenticated, CreateSpecLookup;
  }

  lemma {:induction false} RunIsAuthored(policy: SecureBootPolicy, actions: seq<Action>)
    requires forall k | 0 <= k < |actions| :: ReporterAction(actions[k])
    ensures Authored(Run(policy, actions).db) && AuthoredRequests(Run(policy, actions))
    decreases |actions|
  {
    hide Run, Next, SysValid, ReporterAction;
    if actions == [] {
      RunStart(policy);
    } else {
      hide Authored, AuthoredRequests;
      var front := actions[..|actions| - 1];
      RunStep(policy, actions);
      RunIsAuthored(policy, front);
      RunIsValid(policy, front);
      NextIsAuthored(Run(policy, front), actions[|actions| - 1]);
    }
  }

  lemma {:induction false} CheckInNeverConflicts(db: Db, i: Id, requestId: string, now: Instant)
    requires Inv(db) && Authored(db)
    ensures AppendEvent(db, i, CheckInReport(i), requestId, now).result != Err(TelemetryConflict)
  {
    hide Inv, Authored, AppendEvent, CheckInReserved, ValidReport, PxeKey;
    if AppendEvent(db, i, CheckInReport(i), requestId, now).result == Err(TelemetryConflict) {
      ConflictIsValid(db, i, CheckInReport(i), requestId, now);
      AuthoredIsReserved(db, i);
      CheckInConflictsExactly(db, i, requestId, now);
      assert false;
    }
  }

  lemma {:induction false} ConflictIsValid(db: Db, i: Id, report: Report, requestId: string, now: Instant)
    requires AppendEvent(db, i, report, requestId, now).result == Err(TelemetryConflict)
    ensures ValidReport(report) && i in db.specs
  {
    hide ValidReport, FindEvent;
  }

  lemma {:induction false} CallHasNoConflict(db: Db, call: Call, now: Instant)
    ensures !(CallEffect(db, call, now).note.Some? && CallEffect(db, call, now).note.value.CheckInConflict?)
  {
    hide CallEffect;
    CallNotes(db, call, now);
  }

  lemma {:induction false} StartHasNoConflict(db: Db, r: nat, start: Start, now: Instant)
    ensures !(StartEffect(db, r, start, now).note.Some? && StartEffect(db, r, start, now).note.value.CheckInConflict?)
  {
    hide Discover, Authenticated, CreateSpecLookup, NextAfterDiscovery;
  }

  lemma {:induction false} StepHasNoConflict(
    policy: SecureBootPolicy, db: Db, r: nat, request: Request, requestId: string, now: Instant)
    requires Inv(db) && Authored(db)
    ensures var note := StepEffect(policy, db, r, request, requestId, now).note; !(note.Some? && note.value.CheckInConflict?)
  {
    hide Inv, Authored, AppendEvent, AppendChunk, CreateSpecInsert, ActiveFor, Settle, MaterialAllowed, PxeKey;
    if request.CheckingIn? {
      CheckInNeverConflicts(db, request.installation, requestId, now);
    }
  }

  lemma {:induction false} NextHasNoConflict(sys: Sys, action: Action)
    requires SysValid(sys) && Authored(sys.db)
    ensures var note := ActionEffect(sys, action).note; !(note.Some? && note.value.CheckInConflict?)
  {
    hide SysValid, Inv, Authored, CallEffect, StartEffect, StepEffect;
    ValidHasInv(sys);
    match action
    case Do(call, now) => CallHasNoConflict(sys.db, call, now);
    case Begin(start, now) => StartHasNoConflict(sys.db, sys.nextRequest, start, now);
    case Continue(r, requestId, now) =>
      if r in sys.requests {
        StepHasNoConflict(sys.secureBoot, sys.db, r, sys.requests[r], requestId, now);
      }
    case Abandon(_) =>
  }

  /** While clients report as the reporter does, no machine that boots is refused for a lifecycle conflict, however
      often it boots and whatever else is in flight. */
  lemma {:induction false} BootsNeverConflict(policy: SecureBootPolicy, actions: seq<Action>, k: nat)
    requires forall j | 0 <= j < |actions| :: ReporterAction(actions[j])
    requires k < |Run(policy, actions).trace|
    ensures !Run(policy, actions).trace[k].CheckInConflict?
    decreases |actions|
  {
    hide Run, SysValid, ReporterAction, ActionEffect, Authored, AuthoredRequests;
    if actions == [] {
      RunStart(policy);
    } else {
      var front, last := actions[..|actions| - 1], actions[|actions| - 1];
      RunStep(policy, actions);
      RunIsAuthored(policy, front);
      RunIsValid(policy, front);
      NextHasNoConflict(Run(policy, front), last);
      if k < |Run(policy, front).trace| {
        BootsNeverConflict(policy, front, k);
      }
    }
  }

  /** Before the first check-in a credential is enough to report PXE_BOOTED, in the name of the server. */
  lemma {:induction false} ClientBootReportIsAccepted(db: Db, i: Id, report: Report, requestId: string, now: Instant)
    requires Inv(db) && i in db.specs && i in db.events && db.events[i] != [] && Rank(Last(db.events[i])) < Rank(PxeBooted)
    requires report.stage == PxeBooted && ValidReport(report) && FindEvent(db.events[i], report.key).None?
    ensures report.source == Server && AppendEvent(db, i, report, requestId, now).result.Ok?
  {
    ValidReportSource(report);
    EarlyStages(Last(db.events[i]));
    HistoriesHold(db);
    hide Inv, AppendEvent, ValidReport, Histories, Accepted;
    AppendEventCases(db, i, report, requestId, now);
  }

  /** The reason for that condition. Once a client has reported PXE_BOOTED in the name of the server under a key of its
      own, which its credential allows, every later check-in of the installation is refused, for good. */
  lemma {:induction false} ClientBootReportRefusesCheckIns(
    db: Db, i: Id, report: Report, requestId: string, now: Instant, later: Db, requestId': string, now': Instant)
    requires Inv(db) && Inv(later) && i in db.specs && i in later.specs
    requires report.stage == PxeBooted && report != CheckInReport(i) && ValidReport(CheckInReport(i))
    requires AppendEvent(db, i, report, requestId, now).result.Ok?
    requires Evolves(AppendEvent(db, i, report, requestId, now).db, later)
    ensures AppendEvent(later, i, CheckInReport(i), requestId', now').result == Err(TelemetryConflict)
  {
    hide Inv, AppendEvent, ValidReport, Evolves, PxeKey, CheckInReserved;
    ClientBootReportIsStored(db, i, report, requestId, now, later);
    CheckInConflictsExactly(later, i, requestId', now');
  }

  lemma {:induction false} ClientBootReportIsStored(
    db: Db, i: Id, report: Report, requestId: string, now: Instant, later: Db)
    requires Inv(db) && i in later.specs && report.stage == PxeBooted && report != CheckInReport(i)
    requires AppendEvent(db, i, report, requestId, now).result.Ok?
    requires Evolves(AppendEvent(db, i, report, requestId, now).db, later)
    ensures i in later.events && !CheckInReserved(i, later.events[i])
  {
    hide Inv, AppendEvent, ValidReport, Evolves, PxeKey, Histories, FindEvent;
    HistoriesHold(db);
    AnsweredIsStored(db, i, report, requestId, now);
    var b := AppendEvent(db, i, report, requestId, now).db;
    var k :| 0 <= k < |b.events[i]| && b.events[i][k] == AppendEvent(db, i, report, requestId, now).result.value.0;
    LaterEvents(b, later, i);
    assert later.events[i][k] == b.events[i][k];
  }
}
