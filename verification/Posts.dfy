/** Where the installations and the telemetry of a run come from: every event and every chunk was posted with a proof that
    opened the credential of its installation at that time, or was made by the server on the occasion that it tells of. */
module Posts {
  import opened Prelude
  import opened Text
  import opened Lifecycle
  import opened Records
  import opened Schema
  import opened Transactions
  import opened StoreInvariant
  import opened TelemetrySteps
  import opened ControlPlane
  import opened StepsAreFaithful
  import opened Interleavings
  import opened Handoffs
  import opened BootGate
  import opened Provenance
  import opened Uninterrupted
  import opened Writes

  // ---------------------------------------------------------------------------
  // One step
  // ---------------------------------------------------------------------------

  /** Where a request that carries telemetry comes from. */
  ghost predicate PostReads(sys: Sys, action: Action, next: Request) {
    var was := Was(sys, action);
    match next
    case Touching(i, _, job) =>
      && action.Begin? && action.start.PostTelemetry? && action.start.installation == i && action.start.job == job
      && Opens(sys.db, i, action.start.proof, action.now)
    case AppendingEvent(i, report) =>
      was.Some? && was.value.Touching? && was.value.installation == i && was.value.job == EventJob(report)
    case AppendingLog(i, chunk) =>
      was.Some? && was.value.Touching? && was.value.installation == i && was.value.job == LogJob(chunk)
    case InsertingSpec(input) => action.Begin? && action.start == CreateSpec(input) && Submittable(sys.db, input)
    case _ => true
  }

  /** The fields are valid, and the machine is there. */
  ghost predicate Submittable(db: Db, input: SpecInput) {
    && Trim(input.credentialId) != "" && |input.credentialId| <= 128
    && Trim(input.createdBy) != "" && |input.createdBy| <= 128
    && input.wellFormed && input.machineId in db.machines
  }

  lemma {:induction false} PostStartReads(sys: Sys, start: Start, now: Instant)
    requires Inv(sys.db)
    ensures var e := StartEffect(sys.db, sys.nextRequest, start, now);
      e.next.Some? ==> PostReads(sys, Begin(start, now), e.next.value)
  {
    hide Inv, Discover, Authenticated, CreateSpecLookup, Opens, Trim;
    if start.PostTelemetry? {
      ProofOpens(sys.db, start.installation, start.proof, now);
    } else if start.CreateSpec? {
      LookupIsExact(sys.db, start.input);
    }
  }

  lemma {:induction false} PostStepReads(sys: Sys, r: nat, requestId: string, now: Instant)
    requires Inv(sys.db) && r in sys.requests
    ensures var e := StepEffect(sys.secureBoot, sys.db, r, sys.requests[r], requestId, now);
      e.next.Some? ==> PostReads(sys, Continue(r, requestId, now), e.next.value)
  {
    hide Inv, StepEffect;
    var request := sys.requests[r];
    if IsLoad(request) {
      StepIsMaterialStep(sys.secureBoot, sys.db, r, request, requestId, now);
    } else if request.Touching? {
      TouchStep(sys.secureBoot, sys.db, r, request, requestId, now);
    } else {
      OtherNext(sys.secureBoot, sys.db, r, request, requestId, now);
    }
  }

  lemma {:induction false} OtherNext(
    policy: SecureBootPolicy, db: Db, r: nat, request: Request, requestId: string, now: Instant)
    requires !IsLoad(request) && !request.Touching?
    ensures var e := StepEffect(policy, db, r, request, requestId, now);
      e.next.Some? ==> e.next.value.ReadingSpec? || e.next.value.CheckingIn?
  {
    hide AppendEvent, AppendChunk, CreateSpecInsert, ActiveFor;
  }

  lemma {:induction false} ActionPostReads(sys: Sys, action: Action)
    requires Inv(sys.db)
    ensures var e := ActionEffect(sys, action); e.next.Some? ==> PostReads(sys, action, e.next.value)
  {
    hide Inv, StartEffect, CallEffect, StepEffect, PostReads;
    match action
    case Do(call, now) => CallNotes(sys.db, call, now);
    case Begin(start, now) => PostStartReads(sys, start, now);
    case Continue(r, requestId, now) =>
      if r in sys.requests {
        PostStepReads(sys, r, requestId, now);
      }
    case Abandon(_) =>
  }

  function CreatedReport(i: Id): Report {
    Report(Created, Server, 0, "server:created:" + Decimal(i), CREATED_MESSAGE, "", map[])
  }

  function QueuedReport(i: Id): Report {
    Report(Queued, Server, 0, "server:queued:" + Decimal(i), QUEUED_MESSAGE, "", map[])
  }

  function BootedReport(i: Id): Report {
    Report(PxeBooted, Server, 0, "server:pxe_booted:" + Decimal(i), PXE_MESSAGE, "", map[])
  }

  /** The action is a successful arming of the installation. */
  ghost predicate Arms(a: Sys, action: Action, b: Sys, i: Id) {
    && action.Do? && action.call.ArmCall? && action.call.installation == i
    && b.trace == a.trace + [ArmedFor(action.call.machine, i)]
  }

  /** Where an event of an installation is from that was not there before. */
  ghost predicate EventReads(a: Sys, action: Action, b: Sys, i: Id, report: Report) {
    || Was(a, action) == Some(AppendingEvent(i, report))
    || (report == BootedReport(i) && Was(a, action) == Some(CheckingIn(i)))
    || (report == QueuedReport(i) && Arms(a, action, b, i))
    || (report == CreatedReport(i) && Was(a, action).Some? && Was(a, action).value.InsertingSpec? && i !in a.db.specs)
  }

  /** Where a chunk of an installation is from that was not there before. */
  ghost predicate ChunkReads(a: Sys, action: Action, i: Id, input: ChunkInput) {
    var was := Was(a, action);
    was.Some? && was.value.AppendingLog? && was.value.installation == i && input == RedactedInput(was.value.chunk)
  }

  lemma {:induction false} ArmingAppends(
    sys: Sys, m: Id, i: Id, requestId: string, actor: string, now: Instant, j: Id, e: Event)
    requires Inv(sys.db)
    ensures var action := Do(ArmCall(m, i, requestId, actor), now);
      var b := Next(sys, action);
      e in EventsOf(b.db, j) && e !in EventsOf(sys.db, j) ==> EventReads(sys, action, b, j, e.report)
  {
    hide Inv, Arm, Trim, Decimal, PxeKey;
    ArmingWrites(sys.db, m, i, requestId, actor, now);
  }

  lemma {:induction false} CallAppendsEvent(sys: Sys, call: Call, now: Instant, i: Id)
    requires Inv(sys.db) && !call.ArmCall?
    ensures var b := CallEffect(sys.db, call, now).db;
      && (EventsOf(b, i) == EventsOf(sys.db, i) || EventsOf(b, i) == [])
      && (ChunksOf(b, i) == ChunksOf(sys.db, i) || ChunksOf(b, i) == [])
  {
    hide Inv, CallEffect, DeleteInstallation, Trim;
    CallFrame(sys.db, call, now);
    if call.DeleteInstallationCall? {
      InstallationIsDeleted(sys.db, call.installation, call.actor);
      RemovalEffect(sys.db, call.installation, call.actor, now);
    }
  }

  lemma {:induction false} RemovalEffect(db: Db, i: Id, actor: string, now: Instant)
    ensures CallEffect(db, DeleteInstallationCall(i, actor), now).db == DeleteInstallation(db, i, actor).db
  {
    hide DeleteInstallation;
  }

  lemma {:induction false} EventAppends(
    policy: SecureBootPolicy, db: Db, r: nat, request: Request, requestId: string, now: Instant, i: Id, e: Event)
    requires Inv(db)
    ensures var b := StepEffect(policy, db, r, request, requestId, now).db;
      e in EventsOf(b, i) && e !in EventsOf(db, i) ==>
        || request == AppendingEvent(i, e.report)
        || (e.report == BootedReport(i) && request == CheckingIn(i))
        || (e.report == CreatedReport(i) && request.InsertingSpec? && i !in db.specs)
  {
    hide Inv, StepEffect, AppendEvent, CreateSpecInsert, Decimal, ValidReport, CanAdvance;
    StepFrame(policy, db, r, request, requestId, now);
    match request
    case AppendingEvent(j, report) =>
      EventWrites(db, j, report, requestId, now);
      StepCommits(policy, db, r, request, requestId, now);
    case CheckingIn(j) =>
      EventWrites(db, j, CheckInReport(j), requestId, now);
      StepCommits(policy, db, r, request, requestId, now);
    case InsertingSpec(input) =>
      InstallationWrites(db, input, requestId, now);
      DrawnInstallation(db);
      StepCommits(policy, db, r, request, requestId, now);
    case _ =>
  }

  lemma {:induction false} DrawnInstallation(db: Db)
    requires Inv(db)
    ensures db.nextId !in db.specs
  {
    hide Histories, TrustSound, AssignmentsSound, ChallengesSound, KeysSound, Logs, SpecsOwned, IdentifiersAttached;
  }

  lemma {:induction false} StepCommits(
    policy: SecureBootPolicy, db: Db, r: nat, request: Request, requestId: string, now: Instant)
    requires request.AppendingEvent? || request.CheckingIn? || request.InsertingSpec? || request.AppendingLog?
    ensures StepEffect(policy, db, r, request, requestId, now).db
      == match request
         case AppendingEvent(i, report) => AppendEvent(db, i, report, requestId, now).db
         case CheckingIn(i) => AppendEvent(db, i, CheckInReport(i), requestId, now).db
         case InsertingSpec(input) => CreateSpecInsert(db, input, requestId, now).db
         case AppendingLog(i, chunk) => AppendChunk(db, i, chunk, requestId, now).db
  {
    hide AppendEvent, CreateSpecInsert, AppendChunk, PxeKey;
  }

  lemma {:induction false} ChunkAppends(
    policy: SecureBootPolicy, db: Db, r: nat, request: Request, requestId: string, now: Instant, i: Id, c: Chunk)
    requires Inv(db)
    ensures var b := StepEffect(policy, db, r, request, requestId, now).db;
      c in ChunksOf(b, i) && c !in ChunksOf(db, i) ==>
        request.AppendingLog? && request.installation == i && c.input == RedactedInput(request.chunk)
  {
    hide Inv, StepEffect, AppendChunk, ValidChunk, TotalBytes, RedactedInput;
    StepFrame(policy, db, r, request, requestId, now);
    if request.AppendingLog? {
      ChunkWrites(db, request.installation, request.chunk, requestId, now);
      StepCommits(policy, db, r, request, requestId, now);
    }
  }

  /** Every event that an action adds has one of these origins. */
  lemma {:induction false} EventActionStep(sys: Sys, action: Action, i: Id, e: Event)
    requires Inv(sys.db)
    ensures var b := Next(sys, action);
      e in EventsOf(b.db, i) && e !in EventsOf(sys.db, i) ==> EventReads(sys, action, b, i, e.report)
  {
    hide Inv, CallEffect, StartEffect, StepEffect, CreatedReport, QueuedReport, BootedReport, Arms;
    match action
    case Do(call, now) =>
      if call.ArmCall? {
        ArmingAppends(sys, call.machine, call.installation, call.requestId, call.actor, now, i, e);
      } else {
        CallAppendsEvent(sys, call, now, i);
      }
    case Begin(start, now) => StartFrame(sys.db, sys.nextRequest, start, now);
    case Continue(r, requestId, now) =>
      if r in sys.requests {
        EventAppends(sys.secureBoot, sys.db, r, sys.requests[r], requestId, now, i, e);
      }
    case Abandon(_) =>
  }

  lemma {:induction false} ChunkActionStep(sys: Sys, action: Action, i: Id, c: Chunk)
    requires Inv(sys.db)
    ensures c in ChunksOf(Next(sys, action).db, i) && c !in ChunksOf(sys.db, i) ==> ChunkReads(sys, action, i, c.input)
  {
    hide Inv, CallEffect, StartEffect, StepEffect, RedactedInput;
    match action
    case Do(call, now) =>
      CallFrame(sys.db, call, now);
      if call.DeleteInstallationCall? {
        CallAppendsEvent(sys, call, now, i);
      }
    case Begin(start, now) => StartFrame(sys.db, sys.nextRequest, start, now);
    case Continue(r, requestId, now) =>
      if r in sys.requests {
        ChunkAppends(sys.secureBoot, sys.db, r, sys.requests[r], requestId, now, i, c);
      }
    case Abandon(_) =>
  }

  /** Where an installation is from that was not there before. */
  ghost predicate SpecReads(a: Sys, action: Action, row: Spec) {
    var was := Was(a, action);
    && was.Some? && was.value.InsertingSpec?
    && row == Spec(was.value.input.machineId, was.value.input.credentialId, action.now, was.value.input.createdBy)
  }

  lemma {:induction false} SpecActionStep(sys: Sys, action: Action, i: Id)
    requires Inv(sys.db)
    ensures var b := Next(sys, action).db;
      i in b.specs ==> (i in sys.db.specs && b.specs[i] == sys.db.specs[i]) || SpecReads(sys, action, b.specs[i])
  {
    hide Inv, CallEffect, StartEffect, StepEffect;
    match action
    case Do(call, now) => CallKeepsSpecs(sys.db, call, now);
    case Begin(start, now) => StartFrame(sys.db, sys.nextRequest, start, now);
    case Continue(r, requestId, now) =>
      if r in sys.requests {
        StepFrame(sys.secureBoot, sys.db, r, sys.requests[r], requestId, now);
        if sys.requests[r].InsertingSpec? {
          SpecInserted(sys.secureBoot, sys.db, r, sys.requests[r].input, requestId, now);
        }
      }
    case Abandon(_) =>
  }

  lemma {:induction false} CallKeepsSpecs(db: Db, call: Call, now: Instant)
    requires Inv(db)
    ensures var b := CallEffect(db, call, now).db; forall i | i in b.specs :: i in db.specs && b.specs[i] == db.specs[i]
  {
    hide Inv, CallEffect, DeleteInstallation, Trim;
    CallFrame(db, call, now);
    if call.DeleteInstallationCall? {
      InstallationIsDeleted(db, call.installation, call.actor);
      RemovalEffect(db, call.installation, call.actor, now);
    }
  }

  lemma {:induction false} SpecInserted(
    policy: SecureBootPolicy, db: Db, r: nat, input: SpecInput, requestId: string, now: Instant)
    requires Inv(db)
    ensures var b := StepEffect(policy, db, r, InsertingSpec(input), requestId, now).db;
      forall i | i in b.specs ::
        (i in db.specs && b.specs[i] == db.specs[i])
        || b.specs[i] == Spec(input.machineId, input.credentialId, now, input.createdBy)
  {
    hide Inv, StepEffect, CreateSpecInsert, Decimal;
    InstallationWrites(db, input, requestId, now);
    StepCommits(policy, db, r, InsertingSpec(input), requestId, now);
  }

  // ---------------------------------------------------------------------------
  // Every run
  // ---------------------------------------------------------------------------

  /** Action `n` submits this installation, and its fields are valid and its machine is there in that state. */
  ghost predicate SubmittedAt(states: seq<Sys>, actions: seq<Action>, n: nat, input: SpecInput) {
    && n < |actions| < |states| && actions[n].Begin? && actions[n].start == CreateSpec(input)
    && Submittable(states[n].db, input)
  }

  ghost predicate Submitted(states: seq<Sys>, actions: seq<Action>, input: SpecInput) {
    exists n: nat :: SubmittedAt(states, actions, n, input)
  }

  ghost predicate SpecTraced(states: seq<Sys>, actions: seq<Action>, row: Spec) {
    exists input ::
      && Submitted(states, actions, input) && row.machineId == input.machineId && row.credentialId == input.credentialId
      && row.createdBy == input.createdBy
  }

  /** Action `n` begins to post this, and its proof opens the credential of the installation in that state. */
  ghost predicate PostedAt(states: seq<Sys>, actions: seq<Action>, n: nat, i: Id, job: Job) {
    && n < |actions| < |states| && actions[n].Begin? && actions[n].start.PostTelemetry?
    && actions[n].start.installation == i && actions[n].start.job == job
    && Opens(states[n].db, i, actions[n].start.proof, actions[n].now)
  }

  ghost predicate ArmedAt(states: seq<Sys>, actions: seq<Action>, n: nat, i: Id) {
    n < |actions| < |states| && Arms(states[n], actions[n], states[n + 1], i)
  }

  ghost predicate Posted(states: seq<Sys>, actions: seq<Action>, i: Id, job: Job) {
    exists n: nat :: PostedAt(states, actions, n, i, job)
  }

  ghost predicate EventTraced(policy: SecureBootPolicy, states: seq<Sys>, actions: seq<Action>, i: Id, report: Report) {
    || Posted(states, actions, i, EventJob(report))
    || report == CreatedReport(i)
    || (report == QueuedReport(i) && exists n: nat :: ArmedAt(states, actions, n, i))
    || (report == BootedReport(i) && exists r: nat :: MayCheckIn(policy, states, actions, r, i))
  }

  ghost predicate ChunkTraced(states: seq<Sys>, actions: seq<Action>, i: Id, input: ChunkInput) {
    exists raw :: Posted(states, actions, i, LogJob(raw)) && input == RedactedInput(raw)
  }

  ghost predicate CarriesPosted(states: seq<Sys>, actions: seq<Action>, request: Request) {
    match request
    case Touching(i, _, job) => Posted(states, actions, i, job)
    case AppendingEvent(i, report) => Posted(states, actions, i, EventJob(report))
    case AppendingLog(i, chunk) => Posted(states, actions, i, LogJob(chunk))
    case InsertingSpec(input) => Submitted(states, actions, input)
    case _ => true
  }

  ghost predicate PostsTraced(policy: SecureBootPolicy, states: seq<Sys>, actions: seq<Action>) {
    && |states| == |actions| + 1
    && var sys := states[|actions|];
      && (forall r | r in sys.requests :: CarriesPosted(states, actions, sys.requests[r]))
      && (forall i, e | e in EventsOf(sys.db, i) :: EventTraced(policy, states, actions, i, e.report))
      && (forall i, c | c in ChunksOf(sys.db, i) :: ChunkTraced(states, actions, i, c.input))
      && (forall i | i in sys.db.specs :: SpecTraced(states, actions, sys.db.specs[i]))
  }

  lemma {:induction false} SubmittedStays(
    states: seq<Sys>, actions: seq<Action>, b: Sys, action: Action, input: SpecInput)
    requires Submitted(states, actions, input) && |states| == |actions| + 1
    ensures Submitted(states + [b], actions + [action], input)
  {
    hide Submittable;
    var n: nat :| SubmittedAt(states, actions, n, input);
    assert SubmittedAt(states + [b], actions + [action], n, input);
  }

  lemma {:induction false} SpecStaysTraced(states: seq<Sys>, actions: seq<Action>, b: Sys, action: Action, row: Spec)
    requires SpecTraced(states, actions, row) && |states| == |actions| + 1
    ensures SpecTraced(states + [b], actions + [action], row)
  {
    hide Submitted;
    var input :|
      && Submitted(states, actions, input) && row.machineId == input.machineId && row.credentialId == input.credentialId
      && row.createdBy == input.createdBy;
    SubmittedStays(states, actions, b, action, input);
  }

  lemma {:induction false} NewSpecIsTraced(
    policy: SecureBootPolicy, states: seq<Sys>, actions: seq<Action>, b: Sys, action: Action, row: Spec)
    requires PostsTraced(policy, states, actions) && SpecReads(states[|actions|], action, row)
    ensures SpecTraced(states + [b], actions + [action], row)
  {
    hide Posted, Submitted, EventTraced, ChunkTraced;
    var input := Was(states[|actions|], action).value.input;
    assert CarriesPosted(states, actions, states[|actions|].requests[action.request]);
    SubmittedStays(states, actions, b, action, input);
  }

  lemma {:induction false} PostedStays(
    states: seq<Sys>, actions: seq<Action>, b: Sys, action: Action, i: Id, job: Job)
    requires Posted(states, actions, i, job) && |states| == |actions| + 1
    ensures Posted(states + [b], actions + [action], i, job)
  {
    hide Opens;
    var n: nat :| PostedAt(states, actions, n, i, job);
    assert PostedAt(states + [b], actions + [action], n, i, job);
  }

  lemma {:induction false} EventStaysTraced(
    policy: SecureBootPolicy, states: seq<Sys>, actions: seq<Action>, b: Sys, action: Action, i: Id, report: Report)
    requires EventTraced(policy, states, actions, i, report) && |states| == |actions| + 1
    ensures EventTraced(policy, states + [b], actions + [action], i, report)
  {
    hide Posted, CreatedReport, QueuedReport, BootedReport, MayCheckIn, Arms;
    if Posted(states, actions, i, EventJob(report)) {
      PostedStays(states, actions, b, action, i, EventJob(report));
    } else if n: nat :| ArmedAt(states, actions, n, i) {
      assert ArmedAt(states + [b], actions + [action], n, i);
    }
    if r: nat :| MayCheckIn(policy, states, actions, r, i) {
      MayCheckInStays(policy, states, actions, b, action, r, i);
    }
  }

  lemma {:induction false} ChunkStaysTraced(
    states: seq<Sys>, actions: seq<Action>, b: Sys, action: Action, i: Id, input: ChunkInput)
    requires ChunkTraced(states, actions, i, input) && |states| == |actions| + 1
    ensures ChunkTraced(states + [b], actions + [action], i, input)
  {
    hide Posted, RedactedInput;
    var raw :| Posted(states, actions, i, LogJob(raw)) && input == RedactedInput(raw);
    PostedStays(states, actions, b, action, i, LogJob(raw));
  }

  lemma {:induction false} CarriedStays(
    states: seq<Sys>, actions: seq<Action>, b: Sys, action: Action, request: Request)
    requires CarriesPosted(states, actions, request) && |states| == |actions| + 1
    ensures CarriesPosted(states + [b], actions + [action], request)
  {
    hide Posted, Submitted;
    match request
    case Touching(i, _, job) => PostedStays(states, actions, b, action, i, job);
    case AppendingEvent(i, report) => PostedStays(states, actions, b, action, i, EventJob(report));
    case AppendingLog(i, chunk) => PostedStays(states, actions, b, action, i, LogJob(chunk));
    case InsertingSpec(input) => SubmittedStays(states, actions, b, action, input);
    case _ =>
  }

  lemma {:induction false} NewIsCarried(
    states: seq<Sys>, actions: seq<Action>, b: Sys, action: Action, next: Request)
    requires |states| == |actions| + 1 && PostReads(states[|actions|], action, next)
    requires forall r | r in states[|actions|].requests :: CarriesPosted(states, actions, states[|actions|].requests[r])
    ensures CarriesPosted(states + [b], actions + [action], next)
  {
    hide Opens, Submittable;
    var n, a := |actions|, states[|actions|];
    assert (states + [b])[n] == a && (actions + [action])[n] == action;
    if next.Touching? {
      assert PostedAt(states + [b], actions + [action], n, next.installation, next.job);
    } else if next.InsertingSpec? {
      assert SubmittedAt(states + [b], actions + [action], n, next.input);
    } else if next.AppendingEvent? || next.AppendingLog? {
      CarriedStays(states, actions, b, action, a.requests[action.request]);
    }
  }

  lemma {:induction false} NewEventIsTraced(
    policy: SecureBootPolicy, states: seq<Sys>, actions: seq<Action>, b: Sys, action: Action, i: Id, report: Report)
    requires PostsTraced(policy, states, actions) && ToldAll(policy, states, actions)
    requires EventReads(states[|actions|], action, b, i, report)
    ensures EventTraced(policy, states + [b], actions + [action], i, report)
  {
    assert Arms(states[|actions|], action, b, i) ==> action.Do?;
    hide Posted, CreatedReport, QueuedReport, BootedReport, MayCheckIn, Arms, EventTraced, ChunkTraced;
    var n, a := |actions|, states[|actions|];
    assert (states + [b])[n] == a && (states + [b])[n + 1] == b && (actions + [action])[n] == action;
    if Was(a, action) == Some(AppendingEvent(i, report)) {
      assert CarriesPosted(states, actions, a.requests[action.request]);
      PostedStays(states, actions, b, action, i, EventJob(report));
      PostedIsTraced(policy, states + [b], actions + [action], i, report);
    } else if Was(a, action) == Some(CheckingIn(i)) {
      assert Told(policy, states, actions, action.request, a.requests[action.request]);
      MayCheckInStays(policy, states, actions, b, action, action.request, i);
      CheckInIsTraced(policy, states + [b], actions + [action], action.request, i);
    } else if Arms(a, action, b, i) {
      assert ArmedAt(states + [b], actions + [action], n, i);
      ArmingIsTraced(policy, states + [b], actions + [action], n, i);
    }
    CreationIsTraced(policy, states + [b], actions + [action], i);
  }

  lemma {:induction false} PostedIsTraced(
    policy: SecureBootPolicy, states: seq<Sys>, actions: seq<Action>, i: Id, report: Report)
    requires Posted(states, actions, i, EventJob(report))
    ensures EventTraced(policy, states, actions, i, report)
  {
    hide Posted;
  }

  lemma {:induction false} CheckInIsTraced(
    policy: SecureBootPolicy, states: seq<Sys>, actions: seq<Action>, r: nat, i: Id)
    requires MayCheckIn(policy, states, actions, r, i)
    ensures EventTraced(policy, states, actions, i, BootedReport(i))
  {
    hide Posted, MayCheckIn, BootedReport;
  }

  lemma {:induction false} ArmingIsTraced(
    policy: SecureBootPolicy, states: seq<Sys>, actions: seq<Action>, n: nat, i: Id)
    requires ArmedAt(states, actions, n, i)
    ensures EventTraced(policy, states, actions, i, QueuedReport(i))
  {
    hide Posted, ArmedAt, QueuedReport;
  }

  lemma {:induction false} CreationIsTraced(policy: SecureBootPolicy, states: seq<Sys>, actions: seq<Action>, i: Id)
    ensures EventTraced(policy, states, actions, i, CreatedReport(i))
  {
    hide Posted, CreatedReport;
  }

  lemma {:induction false} NewChunkIsTraced(
    policy: SecureBootPolicy, states: seq<Sys>, actions: seq<Action>, b: Sys, action: Action, i: Id, c: Chunk)
    requires PostsTraced(policy, states, actions) && ChunkReads(states[|actions|], action, i, c.input)
    ensures ChunkTraced(states + [b], actions + [action], i, c.input)
  {
    hide Posted, RedactedInput, EventTraced;
    var raw := Was(states[|actions|], action).value.chunk;
    assert CarriesPosted(states, actions, states[|actions|].requests[action.request]);
    PostedStays(states, actions, b, action, i, LogJob(raw));
  }

  lemma {:induction false} PostsTracedStep(
    policy: SecureBootPolicy, states: seq<Sys>, actions: seq<Action>, b: Sys, action: Action, next: Option<Request>)
    requires PostsTraced(policy, states, actions) && ToldAll(policy, states, actions)
    requires b.requests == (if next.Some? then states[|actions|].requests[RequestOf(states[|actions|], action) := next.value]
                            else states[|actions|].requests - {RequestOf(states[|actions|], action)})
    requires next.Some? ==> PostReads(states[|actions|], action, next.value)
    requires forall i, e | e in EventsOf(b.db, i) && e !in EventsOf(states[|actions|].db, i) ::
      EventReads(states[|actions|], action, b, i, e.report)
    requires forall i, c | c in ChunksOf(b.db, i) && c !in ChunksOf(states[|actions|].db, i) ::
      ChunkReads(states[|actions|], action, i, c.input)
    requires var db := states[|actions|].db;
      forall i | i in b.db.specs ::
        (i in db.specs && b.db.specs[i] == db.specs[i]) || SpecReads(states[|actions|], action, b.db.specs[i])
    ensures PostsTraced(policy, states + [b], actions + [action])
  {
    hide SpecTraced, SpecReads, EventTraced, ChunkTraced, CarriesPosted, EventReads, PostReads, ToldAll, ChunkReads;
    hide EventsOf, ChunksOf;
    var a, states', actions' := states[|actions|], states + [b], actions + [action];
    assert states'[|actions'|] == b;
    forall r | r in b.requests ensures CarriesPosted(states', actions', b.requests[r]) {
      if next.Some? && r == RequestOf(a, action) {
        NewIsCarried(states, actions, b, action, next.value);
      } else {
        CarriedStays(states, actions, b, action, a.requests[r]);
      }
    }
    forall i, e | e in EventsOf(b.db, i) ensures EventTraced(policy, states', actions', i, e.report) {
      if e in EventsOf(a.db, i) {
        EventStaysTraced(policy, states, actions, b, action, i, e.report);
      } else {
        NewEventIsTraced(policy, states, actions, b, action, i, e.report);
      }
    }
    forall i, c | c in ChunksOf(b.db, i) ensures ChunkTraced(states', actions', i, c.input) {
      if c in ChunksOf(a.db, i) {
        ChunkStaysTraced(states, actions, b, action, i, c.input);
      } else {
        NewChunkIsTraced(policy, states, actions, b, action, i, c);
      }
    }
    forall i | i in b.db.specs ensures SpecTraced(states', actions', b.db.specs[i]) {
      if i in a.db.specs && b.db.specs[i] == a.db.specs[i] {
        SpecStaysTraced(states, actions, b, action, b.db.specs[i]);
      } else {
        NewSpecIsTraced(policy, states, actions, b, action, b.db.specs[i]);
      }
    }
  }

  lemma {:induction false} NextRequests(sys: Sys, action: Action)
    ensures var next, r := ActionEffect(sys, action).next, RequestOf(sys, action);
      Next(sys, action).requests == if next.Some? then sys.requests[r := next.value] else sys.requests - {r}
  {
    hide ActionEffect;
  }

  lemma {:induction false} RunPostsTraced(policy: SecureBootPolicy, actions: seq<Action>)
    ensures PostsTraced(policy, States(policy, actions), actions)
    decreases |actions|
  {
    hide Run, Next, Inv, ActionEffect, EventTraced, ChunkTraced, SpecTraced, CarriesPosted, EventReads, PostReads;
    hide ToldAll;
    hide ChunkReads, SpecReads;
    StatesEnd(policy, actions);
    if actions == [] {
      RunStart(policy);
    } else {
      var front, last := actions[..|actions| - 1], actions[|actions| - 1];
      var sys := Run(policy, front);
      RunPostsTraced(policy, front);
      RunIsTold(policy, front);
      StatesEnd(policy, front);
      StatesGrow(policy, actions);
      RunKeepsInv(policy, front);
      ActionPostReads(sys, last);
      NextRequests(sys, last);
      forall i, e {
        EventActionStep(sys, last, i, e);
      }
      forall i, c {
        ChunkActionStep(sys, last, i, c);
      }
      forall i: Id
        ensures var b := Next(sys, last).db;
          i in b.specs ==> (i in sys.db.specs && b.specs[i] == sys.db.specs[i]) || SpecReads(sys, last, b.specs[i])
      {
        SpecActionStep(sys, last, i);
      }
      hide PostsTraced;
      PostsTracedStep(policy, States(policy, front), front, Next(sys, last), last, ActionEffect(sys, last).next);
    }
  }

  /** Every event of a run was posted with a proof that opened the credential of its installation then, or it is the
      server's own: the one of the creation, the one of a successful arming, or the check-in of a booting machine that was
      cleared and had the installation armed for it. */
  lemma {:induction false} EventWasPosted(policy: SecureBootPolicy, actions: seq<Action>, i: Id, e: Event)
    requires e in EventsOf(Run(policy, actions).db, i)
    ensures var states := States(policy, actions);
      || (exists n: nat :: PostedAt(states, actions, n, i, EventJob(e.report)))
      || e.report == CreatedReport(i)
      || (e.report == QueuedReport(i) && exists n: nat :: ArmedAt(states, actions, n, i))
      || (e.report == BootedReport(i) && exists r: nat :: MayCheckIn(policy, states, actions, r, i))
  {
    hide Run, EventsOf, PostedAt, ArmedAt, MayCheckIn, CreatedReport, QueuedReport, BootedReport, CarriesPosted;
    hide ChunkTraced;
    RunPostsTraced(policy, actions);
    StatesEnd(policy, actions);
    assert EventTraced(policy, States(policy, actions), actions, i, e.report);
  }

  /** Every chunk of a run is the redaction of one that was posted with such a proof. */
  lemma {:induction false} ChunkWasPosted(policy: SecureBootPolicy, actions: seq<Action>, i: Id, c: Chunk)
    requires c in ChunksOf(Run(policy, actions).db, i)
    ensures exists n: nat, raw ::
      PostedAt(States(policy, actions), actions, n, i, LogJob(raw)) && c.input == RedactedInput(raw)
  {
    hide Run, ChunksOf, PostedAt, RedactedInput, CarriesPosted, EventTraced;
    RunPostsTraced(policy, actions);
    StatesEnd(policy, actions);
    assert ChunkTraced(States(policy, actions), actions, i, c.input);
    var raw :| Posted(States(policy, actions), actions, i, LogJob(raw)) && c.input == RedactedInput(raw);
  }

  /** Every installation was submitted with valid fields for a machine that was there then, and is what was submitted. */
  lemma {:induction false} InstallationWasSubmitted(policy: SecureBootPolicy, actions: seq<Action>, i: Id)
    requires i in Run(policy, actions).db.specs
    ensures var row := Run(policy, actions).db.specs[i];
      exists n: nat, input ::
        && SubmittedAt(States(policy, actions), actions, n, input)
        && row.machineId == input.machineId && row.credentialId == input.credentialId && row.createdBy == input.createdBy
  {
    hide Run, SubmittedAt, CarriesPosted, EventTraced, ChunkTraced;
    RunPostsTraced(policy, actions);
    StatesEnd(policy, actions);
    var row := Run(policy, actions).db.specs[i];
    assert SpecTraced(States(policy, actions), actions, row);
    var input :|
      && Submitted(States(policy, actions), actions, input) && row.machineId == input.machineId
      && row.credentialId == input.credentialId && row.createdBy == input.createdBy;
  }
}
