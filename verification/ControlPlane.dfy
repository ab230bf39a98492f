/** The HTTP handlers as programs of several steps over the store, and every interleaving of them. A step is one store
    transaction or one read; between two steps of a request any other step may happen, and a request may be given up
    at any point. What the outside can observe is recorded in a trace. */
module ControlPlane {
  import opened Prelude
  import opened Lifecycle
  import opened Records
  import opened Schema
  import opened Transactions
  import Canonical

  datatype SecureBootPolicy = PolicyRequired | PolicyAudit | PolicyDisabled

  predicate AllowsProvision(policy: SecureBootPolicy, state: SecureBootState) {
    policy == PolicyRequired ==> state == Enabled
  }

  /** What a telemetry request wants to append once it has authenticated. */
  datatype Job = EventJob(report: Report) | LogJob(chunk: ChunkInput)

  datatype Material = BootScript | Artifact | Preseed

  /** Where an in-flight request stands: the step it takes next, with what it has read so far. */
  datatype Request =
    | Touching(installation: Id, touch: Touch, job: Job)
    | AppendingEvent(installation: Id, report: Report)
    | AppendingLog(installation: Id, chunk: ChunkInput)
    | InsertingSpec(input: SpecInput)
    | ReadingMachine(kind: Material, installation: Id, machine: Id)
    | ReadingAssignment(kind: Material, installation: Id, machine: Id, row: Machine)
    | Consuming(installation: Id)
    | Delivering(kind: Material, installation: Id)
    | ReadingActive(machine: Id, row: Machine)
    | ReadingSpec(machine: Id, row: Machine, active: Assignment)
    | CheckingIn(installation: Id)

  /** Which statement the schema refused. */
  datatype Refusal = NewInstallation | FirstUseOfChallenge | Elsewhere

  datatype Note =
    | Observed(machine: Id, identifiers: seq<Identifier>)
    | ArmedFor(machine: Id, installation: Id)
    | CancelledFor(machine: Id, installation: Id)
    | ConsumedFor(machine: Id, installation: Id)
    | Released(installation: Id, release: Release)
    | LoadBegan(request: nat, installation: Id)
    | Served(request: nat, kind: Material, installation: Id)
    | CheckInConflict(installation: Id)
    | SchemaRefused(refusal: Refusal)

  datatype Sys = Sys(
    secureBoot: SecureBootPolicy,
    db: Db,
    requests: map<nat, Request>,
    nextRequest: nat,
    trace: seq<Note>)

  /** Calls that are one store transaction. */
  datatype Call =
    | DiscoverCall(obs: Observation)
    | PolicyCall(machine: Id, policy: Policy, actor: string)
    | ArmCall(machine: Id, installation: Id, requestId: string, actor: string)
    | CancelCall(installation: Id, actor: string)
    | RegisterCall(installation: Id, pem: PublicKey, ek: string)
    | ApproveCall(machine: Id, fingerprint: Fingerprint, actor: string)
    | RevokeKeyCall(machine: Id, fingerprint: Fingerprint, actor: string)
    | ChallengeCall(installation: Id, fingerprint: Fingerprint, nonce: nat)
    | ProveCall(installation: Id, challenge: Id, signature: Signature, secret: nat)
    | RevokeCredentialCall(installation: Id, actor: string)
    | DeleteInstallationCall(installation: Id, actor: string)
    | DeleteMachineCall(machine: Id, actor: string)

  /** How a telemetry request authenticates: by bearer secret, or by the reporter's signature. */
  datatype Proof = Bearer(secret: nat) | SignedRequest(request: Canonical.Request, mac: Hmac)

  /** Requests of more than one step. */
  datatype Start =
    | PostTelemetry(installation: Id, proof: Proof, job: Job)
    | CreateSpec(input: SpecInput)
    | FetchMaterial(kind: Material, installation: Id)
    | PxeBoot(obs: Observation)

  datatype Action =
    | Do(call: Call, now: Instant)
    | Begin(start: Start, now: Instant)
    | Continue(request: nat, requestId: string, now: Instant)
    | Abandon(request: nat)

  /** What one step commits, what the request does next, and what can be observed. */
  datatype Effect = Effect(db: Db, next: Option<Request>, note: Option<Note>)

  ghost function Quiet(db: Db): Effect {
    Effect(db, None, None)
  }

  /** A transaction without a note of its own; a refusal by the schema is always noted. */
  ghost function Noting<T>(tx: Tx<T>, refusal: Refusal, note: Option<Note>): Effect {
    Effect(tx.db, None,
           if tx.result.Ok? then note else if tx.result.fault == StorageFailure then Some(SchemaRefused(refusal)) else None)
  }

  // ---------------------------------------------------------------------------
  // Calls of one transaction
  // ---------------------------------------------------------------------------

  ghost function DiscoverNote(tx: Tx<(Id, bool)>, obs: Observation): Option<Note> {
    if tx.result.Ok? && obs.identifiers.Some? then Some(Observed(tx.result.value.0, obs.identifiers.value)) else None
  }

  ghost function SettleNote(tx: Tx<Assignment>): Option<Note> {
    if tx.result.Err? then None
    else if tx.result.value.state == Cancelled then Some(CancelledFor(tx.result.value.machineId, tx.result.value.installationId))
    else Some(ConsumedFor(tx.result.value.machineId, tx.result.value.installationId))
  }

  ghost function ReleaseNote(i: Id, tx: Tx<(Release, bool)>): Option<Note> {
    if tx.result.Ok? then Some(Released(i, tx.result.value.0)) else None
  }

  ghost function CallEffect(db: Db, call: Call, now: Instant): Effect {
    match call
    case DiscoverCall(obs) =>
      var tx := Discover(db, obs, now); Noting(tx, Elsewhere, DiscoverNote(tx, obs))
    case PolicyCall(m, policy, actor) => Noting(SetPolicy(db, m, policy, actor), Elsewhere, None)
    case ArmCall(m, i, requestId, actor) => Noting(Arm(db, m, i, requestId, actor, now), Elsewhere, Some(ArmedFor(m, i)))
    case CancelCall(i, actor) => var tx := Cancel(db, i, actor, now); Noting(tx, Elsewhere, SettleNote(tx))
    case RegisterCall(i, pem, ek) => Noting(RegisterKey(db, i, pem, ek, now), Elsewhere, None)
    case ApproveCall(m, f, actor) => Noting(ApproveKey(db, m, f, actor, now), Elsewhere, None)
    case RevokeKeyCall(m, f, actor) => Noting(RevokeKey(db, m, f, actor, now), Elsewhere, None)
    case ChallengeCall(i, f, nonce) => Noting(CreateChallenge(db, i, f, nonce, now), Elsewhere, None)
    case ProveCall(i, c, signature, secret) =>
      var tx := Complete(db, i, c, signature, secret, now); Noting(tx, FirstUseOfChallenge, ReleaseNote(i, tx))
    case RevokeCredentialCall(i, actor) => Noting(RevokeCredential(db, i, actor, now), Elsewhere, None)
    case DeleteInstallationCall(i, actor) => Noting(DeleteInstallation(db, i, actor), Elsewhere, None)
    case DeleteMachineCall(m, actor) => Noting(DeleteMachine(db, m, actor), Elsewhere, None)
  }

  // ---------------------------------------------------------------------------
  // Requests of several steps
  // ---------------------------------------------------------------------------

  /** The read that authenticates a request, and the update it makes afterwards; the two are separate statements. */
  ghost function Authenticated(db: Db, i: Id, proof: Proof, now: Instant): Result<Touch> {
    match proof
    case Bearer(secret) =>
      var checked := CheckSecret(db, i, secret, now);
      if checked.Ok? then Ok(ById(checked.value)) else Err(checked.fault)
    case SignedRequest(request, mac) =>
      var checked := CheckMac(db, i, request, mac, now);
      if checked.Ok? then Ok(ByInstallation(i)) else Err(checked.fault)
  }

  ghost function AfterCheck(i: Id, checked: Result<Touch>, job: Job): Option<Request> {
    if checked.Ok? then Some(Touching(i, checked.value, job)) else None
  }

  ghost function AfterTouch(i: Id, job: Job): Request {
    match job
    case EventJob(report) => AppendingEvent(i, report)
    case LogJob(chunk) => AppendingLog(i, chunk)
  }

  ghost function StartEffect(db: Db, r: nat, start: Start, now: Instant): Effect {
    match start
    case PostTelemetry(i, proof, job) => Effect(db, AfterCheck(i, Authenticated(db, i, proof, now), job), None)
    case CreateSpec(input) => if CreateSpecLookup(db, input).Ok? then Effect(db, Some(InsertingSpec(input)), None) else Quiet(db)
    case FetchMaterial(kind, i) =>
      Effect(db, if i in db.specs then Some(ReadingMachine(kind, i, db.specs[i].machineId)) else None, Some(LoadBegan(r, i)))
    case PxeBoot(obs) =>
      var tx := Discover(db, obs, now);
      Noting(tx, Elsewhere, DiscoverNote(tx, obs)).(next := NextAfterDiscovery(tx))
  }

  /** A machine that is not released for provisioning is sent to its local disk. */
  ghost function NextAfterDiscovery(tx: Tx<(Id, bool)>): Option<Request> {
    if tx.result.Err? || tx.result.value.0 !in tx.db.machines then None
    else
      var m := tx.result.value.0;
      if tx.db.machines[m].policy != Provision then None else Some(ReadingActive(m, tx.db.machines[m]))
  }

  ghost predicate IsActive(db: Db, m: Id, i: Id) {
    i in db.assignments && db.assignments[i].machineId == m && db.assignments[i].state == Armed
  }

  /** ActiveAssignmentForMachine */
  ghost function ActiveFor(db: Db, m: Id): Option<Assignment> {
    if exists i :: IsActive(db, m, i) then
      var i :| IsActive(db, m, i);
      Some(db.assignments[i])
    else None
  }

  /** The gate of loadPublicBootContext, on what the request has read. */
  ghost predicate MaterialAllowed(policy: SecureBootPolicy, i: Id, m: Id, row: Machine, a: Result<Assignment>) {
    && a.Ok? && a.value.machineId == m && a.value.installationId == i
    && AllowsProvision(policy, row.secureBoot)
    && row.policy == Provision && a.value.state == Armed
  }

  ghost function AfterLoad(kind: Material, i: Id): Request {
    if kind == Preseed then Consuming(i) else Delivering(kind, i)
  }

  ghost function StepEffect(
    policy: SecureBootPolicy, db: Db, r: nat, request: Request, requestId: string, now: Instant): Effect
  {
    match request
    case Touching(i, touch, job) => Effect(Touched(db, touch, now), Some(AfterTouch(i, job)), None)
    case AppendingEvent(i, report) => Noting(AppendEvent(db, i, report, requestId, now), Elsewhere, None)
    case AppendingLog(i, chunk) => Noting(AppendChunk(db, i, chunk, requestId, now), Elsewhere, None)
    case InsertingSpec(input) => Noting(CreateSpecInsert(db, input, requestId, now), NewInstallation, None)
    case ReadingMachine(kind, i, m) =>
      Effect(db, if m in db.machines then Some(ReadingAssignment(kind, i, m, db.machines[m])) else None, None)
    case ReadingAssignment(kind, i, m, row) =>
      Effect(db, if MaterialAllowed(policy, i, m, row, ReadAssignment(db, i)) then Some(AfterLoad(kind, i)) else None, None)
    case Consuming(i) =>
      var tx := Consume(db, i, "system:pxe", now);
      Noting(tx, Elsewhere, SettleNote(tx)).(next := if tx.result.Ok? then Some(Delivering(Preseed, i)) else None)
    case Delivering(kind, i) => Effect(db, None, Some(Served(r, kind, i)))
    case ReadingActive(m, row) =>
      var active := ActiveFor(db, m);
      Effect(db, if active.Some? && AllowsProvision(policy, row.secureBoot)
                 then Some(ReadingSpec(m, row, active.value)) else None, None)
    case ReadingSpec(m, row, active) =>
      var i := active.installationId;
      Effect(db, if i in db.specs && db.specs[i].machineId == m && active.machineId == m && active.state == Armed
                 then Some(CheckingIn(i)) else None, None)
    case CheckingIn(i) =>
      var tx := AppendEvent(db, i, CheckInReport(i), requestId, now);
      if tx.result == Err(TelemetryConflict) then Effect(tx.db, None, Some(CheckInConflict(i)))
      else Noting(tx, Elsewhere, None)
  }

  // ---------------------------------------------------------------------------
  // Runs
  // ---------------------------------------------------------------------------

  ghost function Apply(sys: Sys, r: nat, e: Effect): Sys {
    sys.(db := e.db,
         requests := if e.next.Some? then sys.requests[r := e.next.value] else sys.requests - {r},
         trace := if e.note.Some? then sys.trace + [e.note.value] else sys.trace)
  }

  /** The effect of an action and the request it belongs to. */
  ghost function ActionEffect(sys: Sys, action: Action): Effect {
    match action
    case Do(call, now) => CallEffect(sys.db, call, now)
    case Begin(start, now) => StartEffect(sys.db, sys.nextRequest, start, now)
    case Continue(r, requestId, now) =>
      if r in sys.requests then StepEffect(sys.secureBoot, sys.db, r, sys.requests[r], requestId, now) else Quiet(sys.db)
    case Abandon(r) => Quiet(sys.db)
  }

  ghost function RequestOf(sys: Sys, action: Action): nat {
    if action.Continue? || action.Abandon? then action.request else sys.nextRequest
  }

  ghost function Next(sys: Sys, action: Action): Sys {
    Apply(sys, RequestOf(sys, action), ActionEffect(sys, action))
      .(nextRequest := sys.nextRequest + if action.Begin? then 1 else 0)
  }

  ghost function Run(policy: SecureBootPolicy, actions: seq<Action>): Sys
    decreases |actions|
  {
    if actions == [] then Sys(policy, EMPTY_STORE, map[], 0, [])
    else Next(Run(policy, actions[..|actions| - 1]), actions[|actions| - 1])
  }
}
