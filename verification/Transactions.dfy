/** What each store transaction does: the state it commits and the answer it gives. A refused transaction leaves the
    state as it was. */
module Transactions {
  import opened Prelude
  import opened Text
  import opened Lifecycle
  import opened Records
  import opened Schema
  import Canonical
  import Redaction

  datatype Tx<+T> = Tx(db: Db, result: Result<T>)

  const SECOND: nat := 1_000_000_000
  const CHALLENGE_TTL: nat := 120 * SECOND
  const CREDENTIAL_TTL: nat := 24 * 3600 * SECOND
  const CLOCK_SKEW: nat := 300 * SECOND

  /** Commit what a chain of statements produced, or roll back. */
  ghost function Commit<T>(db: Db, next: Result<Db>, answer: T): Tx<T> {
    match next
    case Ok(after) => Tx(after, Ok(answer))
    case Err(fault) => Tx(db, Err(fault))
  }

  ghost function Refuse<T>(db: Db, fault: Fault): Tx<T> {
    Tx(db, Err(fault))
  }

  // ---------------------------------------------------------------------------
  // Machines (internal/store/machines.go, machine_policy.go).
  // ---------------------------------------------------------------------------

  /** The machines that the identifiers of an observation belong to. */
  ghost function Matches(db: Db, ids: seq<Identifier>): set<Id> {
    set k | 0 <= k < |ids| && ids[k] in db.identifiers :: db.identifiers[ids[k]]
  }

  /** Every new identifier of an observation is attached to its machine. */
  ghost function Attached(identifiers: map<Identifier, Id>, ids: seq<Identifier>, m: Id): map<Identifier, Id> {
    map n | n in identifiers.Keys + (set k | 0 <= k < |ids| :: ids[k]) :: if n in identifiers then identifiers[n] else m
  }

  ghost function Discover(db: Db, obs: Observation, now: Instant): Tx<(Id, bool)> {
    if |Trim(obs.architecture)| > 64 || |Trim(obs.firmware)| > 64 then Refuse(db, MachineIdentityInvalid)
    else if obs.secureBoot.None? then Refuse(db, SecureBootEvidenceInvalid)
    else if obs.identifiers.None? then Refuse(db, MachineIdentityInvalid)
    else if |Matches(db, obs.identifiers.value)| > 1 then Refuse(db, MachineIdentityConflict)
    else if Matches(db, obs.identifiers.value) == {} then RecordNew(db, obs, now)
    else RecordSeen(db, obs, OneOf(Matches(db, obs.identifiers.value)), now)
  }

  ghost function OneOf(matches: set<Id>): (m: Id)
    requires matches != {}
    ensures m in matches
  {
    var m :| m in matches; m
  }

  ghost function RecordNew(db: Db, obs: Observation, now: Instant): Tx<(Id, bool)>
    requires obs.secureBoot.Some? && obs.identifiers.Some?
  {
    var m := db.nextId;
    Commit(db, AttachAll(InsertMachine(db.(nextId := m + 1), m, NewMachine(obs, now)), obs.identifiers.value, m), (m, true))
  }

  ghost function RecordSeen(db: Db, obs: Observation, m: Id, now: Instant): Tx<(Id, bool)>
    requires obs.secureBoot.Some? && obs.identifiers.Some?
  {
    if m !in db.machines then Refuse(db, StorageFailure)
    else
      var row := SeenAgain(db.machines[m], obs, now);
      Commit(db, AttachAll(Ok(db.(machines := db.machines[m := row])), obs.identifiers.value, m), (m, false))
  }

  function NewMachine(obs: Observation, now: Instant): Machine
    requires obs.secureBoot.Some?
  {
    Machine(Pending, Trim(obs.architecture), Trim(obs.firmware), obs.secureBoot.value, now, now)
  }

  /** What is not observed this time is kept. */
  function SeenAgain(was: Machine, obs: Observation, now: Instant): Machine
    requires obs.secureBoot.Some?
  {
    was.(architecture := if Trim(obs.architecture) == "" then was.architecture else Trim(obs.architecture),
         firmware := if Trim(obs.firmware) == "" then was.firmware else Trim(obs.firmware),
         secureBoot := obs.secureBoot.value, lastSeen := now)
  }

  /** The upserts of one observation, one identifier at a time. */
  function AttachAll(db: Result<Db>, ids: seq<Identifier>, m: Id): Result<Db> {
    if ids == [] || db.Err? then db
    else
      var before := AttachAll(db, ids[..|ids| - 1], m);
      if before.Err? then before else UpsertIdentifier(before.value, ids[|ids| - 1], m)
  }

  ghost function SetPolicy(db: Db, m: Id, policy: Policy, actor: string): Tx<Machine> {
    if Blank(actor) then Refuse(db, MachinePolicyInvalid)
    else if m !in db.machines then Refuse(db, MachineNotFound)
    else
      var row := db.machines[m].(policy := policy);
      Tx(db.(machines := db.machines[m := row]), Ok(row))
  }

  // ---------------------------------------------------------------------------
  // Installation specs (internal/store/installations.go): lookup, then insert.
  // ---------------------------------------------------------------------------

  predicate ValidInput(input: SpecInput) {
    && !Blank(input.credentialId) && |input.credentialId| <= 128
    && !Blank(input.createdBy) && |input.createdBy| <= 128
    && input.wellFormed
  }

  ghost function CreateSpecLookup(db: Db, input: SpecInput): Result<Unit> {
    if !ValidInput(input) then Err(InstallationSpecInvalid)
    else if input.machineId !in db.machines then Err(MachineNotFound)
    else Ok(Unit)
  }

  function CreatedKey(i: Id): string {
    "server:created:" + Decimal(i)
  }

  function QueuedKey(i: Id): string {
    "server:queued:" + Decimal(i)
  }

  function PxeKey(i: Id): string {
    "server:pxe_booted:" + Decimal(i)
  }

  function ServerReport(stage: Stage, key: string, message: string): Report {
    Report(stage, Server, 0, key, message, "", map[])
  }

  const CREATED_MESSAGE := "immutable installation spec created"
  const QUEUED_MESSAGE := "installation queued for next destructive PXE boot"
  const PXE_MESSAGE := "PXE bootloader checked in for armed installation"

  ghost function CreateSpecInsert(db: Db, input: SpecInput, requestId: string, now: Instant): Tx<Id> {
    var i := db.nextId;
    var inserted := InsertSpec(db.(nextId := i + 1), i, Spec(input.machineId, input.credentialId, now, input.createdBy));
    var next := if inserted.Err? then inserted else
      Stored(AppendServerEvent(inserted.value, i, ServerReport(Created, CreatedKey(i), CREATED_MESSAGE), requestId, now));
    Commit(db, next, i)
  }

  /** storageError: whatever went wrong is reported as a storage failure. */
  function Stored(r: Result<Db>): Result<Db> {
    if r.Err? then Err(StorageFailure) else r
  }

  // ---------------------------------------------------------------------------
  // Lifecycle events (internal/store/lifecycle_server.go, telemetry.go).
  // ---------------------------------------------------------------------------

  /** The event of installation `i` under an idempotency key, if there is one. */
  function FindEvent(events: seq<Event>, key: string): (r: Option<Event>)
    ensures r.Some? <==> exists k :: 0 <= k < |events| && events[k].report.key == key
    ensures r.Some? ==> r.value in events && r.value.report.key == key
  {
    if events == [] then None
    else if events[0].report.key == key then Some(events[0])
    else FindEvent(events[1..], key)
  }

  /** appendServerLifecycleEventTx: same key and stage is a repetition, another stage a conflict. */
  function AppendServerEvent(db: Db, i: Id, report: Report, requestId: string, at: Time): Result<Db> {
    if !SourceAllowed(report.stage, Server) then Err(TelemetryInvalid)
    else
      match FindEvent(EventsOf(db, i), report.key)
      case Some(existing) => if existing.report.stage == report.stage then Ok(db) else Err(TelemetryConflict)
      case None =>
        if !CanAdvance(CurrentStage(db, i), report.stage) then Err(TelemetryConflict)
        else InsertEvent(db, i, Event(report, at, requestId))
  }

  /** AppendLifecycleEvent: a repetition returns the stored event, a reused key or a stage out of order is a
      conflict, and a terminal stage revokes the installation's credential. */
  ghost function AppendEvent(db: Db, i: Id, report: Report, requestId: string, now: Instant): Tx<(Event, bool)> {
    if !ValidReport(report) then Refuse(db, TelemetryInvalid)
    else if i !in db.specs then Refuse(db, InstallationNotFound)
    else
      match FindEvent(EventsOf(db, i), report.key)
      case Some(existing) =>
        if existing.report == report then Tx(db, Ok((existing, true))) else Refuse(db, TelemetryConflict)
      case None =>
        if !CanAdvance(CurrentStage(db, i), report.stage) then Refuse(db, TelemetryConflict)
        else
          var event := Event(report, now, requestId);
          var inserted := InsertEvent(db, i, event);
          var next := if inserted.Ok? && Terminal(report.stage) then Ok(RevokedNow(inserted.value, i, now)) else inserted;
          Commit(db, next, (event, false))
  }

  /** UPDATE installation_lifecycle_credentials SET revoked_at=? WHERE installation_id=? AND revoked_at='' */
  function RevokedNow(db: Db, i: Id, now: Instant): Db {
    if i in db.credentials && db.credentials[i].revokedAt == 0
    then db.(credentials := db.credentials[i := db.credentials[i].(revokedAt := now)])
    else db
  }

  /** The report that discoveryIPXE records when an armed machine boots. */
  function CheckInReport(i: Id): Report {
    ServerReport(PxeBooted, PxeKey(i), PXE_MESSAGE)
  }

  // ---------------------------------------------------------------------------
  // Log chunks (internal/store/telemetry.go).
  // ---------------------------------------------------------------------------

  function FindChunk(chunks: seq<Chunk>, key: string): (r: Option<Chunk>)
    ensures r.Some? <==> exists k :: 0 <= k < |chunks| && chunks[k].input.key == key
    ensures r.Some? ==> r.value in chunks && r.value.input.key == key
  {
    if chunks == [] then None
    else if chunks[0].input.key == key then Some(chunks[0])
    else FindChunk(chunks[1..], key)
  }

  /** COALESCE(MAX(sequence),0) */
  function LastSequence(chunks: seq<Chunk>): int {
    if chunks == [] then 0
    else
      var rest, last := LastSequence(chunks[..|chunks| - 1]), chunks[|chunks| - 1].input.sequence;
      if rest < last then last else rest
  }

  function TotalBytes(chunks: seq<Chunk>): nat {
    if chunks == [] then 0
    else TotalBytes(chunks[..|chunks| - 1]) + |chunks[|chunks| - 1].input.content|
  }

  /** AppendInstallationLogChunk: the content is redacted first, so digests are compared after redaction. */
  ghost function AppendChunk(db: Db, i: Id, raw: ChunkInput, requestId: string, now: Instant): Tx<(Chunk, bool)> {
    var input := raw.(content := Redaction.Redact(raw.content));
    var chunks := ChunksOf(db, i);
    if !ValidChunk(input) then Refuse(db, TelemetryInvalid)
    else if i !in db.specs then Refuse(db, InstallationNotFound)
    else
      match FindChunk(chunks, input.key)
      case Some(existing) =>
        if existing.input == input then Tx(db, Ok((existing, true))) else Refuse(db, TelemetryConflict)
      case None =>
        if input.sequence != LastSequence(chunks) + 1 then Refuse(db, TelemetryConflict)
        else if TotalBytes(chunks) + |input.content| > MAX_INSTALLATION_LOG then Refuse(db, LogLimitExceeded)
        else
          var chunk := Chunk(input, now, requestId);
          Commit(db, InsertChunk(db, i, chunk), (chunk, false))
  }

  // ---------------------------------------------------------------------------
  // Assignments (internal/store/assignments.go, assignment_consumption.go).
  // ---------------------------------------------------------------------------

  /** assignmentForInstallationTx: a stored row that fails its own validation is a storage failure. */
  function ReadAssignment(db: Db, i: Id): Result<Assignment> {
    if i !in db.assignments then Err(AssignmentNotFound)
    else if !ValidAssignment(db.assignments[i]) then Err(StorageFailure)
    else Ok(db.assignments[i])
  }

  ghost function Arm(db: Db, m: Id, i: Id, requestId: string, actor: string, now: Instant): Tx<Assignment> {
    if Blank(actor) then Refuse(db, AssignmentInvalid)
    else if m !in db.machines then Refuse(db, MachineNotFound)
    else if db.machines[m].policy != Provision then Refuse(db, AssignmentInvalid)
    else if i !in db.specs then Refuse(db, InstallationNotFound)
    else if db.specs[i].machineId != m then Refuse(db, AssignmentInvalid)
    else if i in db.assignments then Refuse(db, AssignmentInvalid)
    else if HasArmed(db, m) then Refuse(db, AssignmentConflict)
    else
      var row := Assignment(db.nextId, m, i, Armed, now, Trim(actor), 0, 0);
      var inserted := InsertAssignment(db.(nextId := db.nextId + 1), row);
      var next := if inserted.Err? then inserted else
        Stored(AppendServerEvent(inserted.value, i, ServerReport(Queued, QueuedKey(i), QUEUED_MESSAGE), requestId, now));
      Commit(db, next, row)
  }

  function Settled(row: Assignment, outcome: AssignmentState, now: Instant): Assignment {
    if outcome == Cancelled then row.(state := Cancelled, cancelledAt := now)
    else row.(state := Consumed, consumedAt := now)
  }

  /** CancelAssignment and ConsumeAssignment differ in the state and the time column they write. */
  ghost function Settle(db: Db, i: Id, actor: string, outcome: AssignmentState, now: Instant): Tx<Assignment> {
    if Blank(actor) then Refuse(db, AssignmentInvalid)
    else
      match ReadAssignment(db, i)
      case Err(fault) => Refuse(db, fault)
      case Ok(row) =>
        if row.state != Armed then Refuse(db, AssignmentInvalid)
        else Tx(SettleAssignment(db, i, Settled(row, outcome, now)), Ok(Settled(row, outcome, now)))
  }

  ghost function Cancel(db: Db, i: Id, actor: string, now: Instant): Tx<Assignment> {
    Settle(db, i, actor, Cancelled, now)
  }

  ghost function Consume(db: Db, i: Id, actor: string, now: Instant): Tx<Assignment> {
    Settle(db, i, actor, Consumed, now)
  }

  // ---------------------------------------------------------------------------
  // Boot trust (internal/store/boot_trust.go).
  // ---------------------------------------------------------------------------

  /** trustBindingTx, the check for a cancelled assignment and requireProvisionPolicyTx. */
  ghost function TrustedMachine(db: Db, i: Id): Result<Id> {
    if i !in db.specs || i !in db.assignments then Err(AssignmentNotFound)
    else
      var m := db.specs[i].machineId;
      if db.assignments[i].state == Cancelled then Err(BootTrustEnrollmentRequired)
      else if m !in db.machines then Err(MachineNotFound)
      else if db.machines[m].policy != Provision then Err(BootTrustEnrollmentRequired)
      else Ok(m)
  }

  predicate KeyOf(db: Db, m: Id, f: Fingerprint) {
    f in db.keys && db.keys[f].machineId == m
  }

  ghost function RegisterKey(db: Db, i: Id, pem: PublicKey, ek: string, now: Instant): Tx<(BootKey, bool)> {
    if !pem.valid || !ValidEk(ek) then Refuse(db, BootTrustKeyInvalid)
    else
      match TrustedMachine(db, i)
      case Err(fault) => Refuse(db, fault)
      case Ok(m) =>
        var f := pem.key;
        if KeyOf(db, m, f) then
          var was := db.keys[f];
          if was.pem != pem || (was.ek != "" && ek != "" && was.ek != ek) then Refuse(db, BootTrustKeyInvalid)
          else if was.state == KeyRevoked then Refuse(db, BootTrustEnrollmentRequired)
          else
            var row := was.(lastSeenAt := now, ek := if was.ek == "" then ek else was.ek);
            Commit(db, UpdateKey(db, f, row), (row, false))
        else if f in db.keys then Refuse(db, BootTrustKeyInvalid)
        else
          var row := BootKey(m, pem, ek, KeyPending, now, now, 0, "", 0, "");
          Commit(db, InsertKey(db, f, row), (row, true))
  }

  ghost function ApproveKey(db: Db, m: Id, f: Fingerprint, actor: string, now: Instant): Tx<BootKey> {
    if Blank(actor) then Refuse(db, BootTrustKeyInvalid)
    else if !KeyOf(db, m, f) then Refuse(db, BootTrustEnrollmentRequired)
    else if db.keys[f].state == KeyRevoked then Refuse(db, BootTrustEnrollmentRequired)
    else if db.keys[f].state == KeyApproved then Tx(db, Ok(db.keys[f]))
    else if HasApproved(db, m) then Refuse(db, BootTrustEnrollmentRequired)
    else
      var row := db.keys[f].(state := KeyApproved, approvedAt := now, approvedBy := Trim(actor));
      Commit(db, UpdateKey(db, f, row), row)
  }

  ghost function RevokeKey(db: Db, m: Id, f: Fingerprint, actor: string, now: Instant): Tx<BootKey> {
    if !KeyOf(db, m, f) then Refuse(db, BootTrustEnrollmentRequired)
    else if db.keys[f].state == KeyRevoked then Tx(db, Ok(db.keys[f]))
    else
      var row := db.keys[f].(state := KeyRevoked, revokedAt := now, revokedBy := Trim(actor));
      Commit(db, UpdateKey(db, f, row), row)
  }

  ghost function CreateChallenge(db: Db, i: Id, f: Fingerprint, nonce: nat, now: Instant): Tx<Challenge> {
    match TrustedMachine(db, i)
    case Err(fault) => Refuse(db, fault)
    case Ok(m) =>
      if !KeyOf(db, m, f) || db.keys[f].state != KeyApproved then Refuse(db, BootTrustEnrollmentRequired)
      else
        var row := Challenge(ChallengeBody(db.nextId, i, m, f, nonce), now, now + CHALLENGE_TTL, 0, None, 0);
        Commit(db, InsertChallenge(db.(nextId := db.nextId + 1), row), row)
  }

  /** The checks of CompleteBootTrustChallenge on an unused challenge, in order; Ok carries nothing. */
  ghost function ProofFault(db: Db, i: Id, c: Challenge, signature: Signature, now: Instant): Option<Fault> {
    if c.expiresAt <= now then Some(BootTrustChallengeExpired)
    else if i !in db.specs || i !in db.assignments then Some(AssignmentNotFound)
    else if db.specs[i].machineId != c.body.machineId || db.assignments[i].state == Cancelled then Some(BootTrustProofInvalid)
    else if c.body.machineId !in db.machines then Some(MachineNotFound)
    else if db.machines[c.body.machineId].policy != Provision then Some(BootTrustEnrollmentRequired)
    else if !KeyOf(db, c.body.machineId, c.body.fingerprint) || db.keys[c.body.fingerprint].state != KeyApproved
    then Some(BootTrustEnrollmentRequired)
    else if !db.keys[c.body.fingerprint].pem.valid || db.keys[c.body.fingerprint].pem.key != c.body.fingerprint
    then Some(BootTrustKeyInvalid)
    else if signature != Signed(c.body.fingerprint, c.body) then Some(BootTrustProofInvalid)
    else if i in db.credentials then Some(TelemetryConflict)
    else None
  }

  /** CompleteBootTrustChallenge: a used challenge answers again with what it released; an unused one that proves
      itself releases a fresh secret, once per installation. */
  ghost function Complete(
    db: Db, i: Id, challengeId: Id, signature: Signature, secret: nat, now: Instant): Tx<(Release, bool)> {
    if signature.Malformed? then Refuse(db, BootTrustProofInvalid)
    else if challengeId !in db.challenges || db.challenges[challengeId].body.installationId != i
    then Refuse(db, BootTrustProofInvalid)
    else
      var c := db.challenges[challengeId];
      if c.usedAt != 0 then
        if c.response.None? || c.credentialExpiresAt == 0 then Refuse(db, BootTrustReplayRejected)
        else Tx(db, Ok((Release(challengeId, c.response.value, c.credentialExpiresAt), true)))
      else
        match ProofFault(db, i, c, signature, now)
        case Some(fault) => Refuse(db, fault)
        case None =>
          var expiry, cipher := now + CREDENTIAL_TTL, Oaep(c.body.fingerprint, secret);
          var credential := Credential(db.specs[i].credentialId, Sha256(secret), now, expiry, 0, 0);
          var inserted := InsertCredential(db, i, credential);
          var used := c.(usedAt := now, response := Some(cipher), credentialExpiresAt := expiry);
          var next := if inserted.Err? then inserted
            else Ok(inserted.value.(challenges := inserted.value.challenges[challengeId := used]));
          Commit(db, next, (Release(challengeId, cipher, expiry), false))
  }

  // ---------------------------------------------------------------------------
  // Credentials (internal/store/telemetry.go, telemetry_auth.go).
  // ---------------------------------------------------------------------------

  predicate ActiveCredential(c: Credential, now: Instant) {
    c.createdAt != 0 && c.expiresAt > now && c.revokedAt == 0
  }

  /** Which rows the update of last_used_at names: one credential ID, or one installation. */
  datatype Touch = ById(id: string) | ByInstallation(installation: Id)

  predicate Touches(touch: Touch, j: Id, c: Credential) {
    match touch
    case ById(id) => c.id == id
    case ByInstallation(i) => j == i
  }

  /** UPDATE installation_lifecycle_credentials SET last_used_at=? WHERE ... */
  function TouchedRows(credentials: map<Id, Credential>, touch: Touch, now: Instant): map<Id, Credential> {
    map j | j in credentials ::
      if Touches(touch, j, credentials[j]) then credentials[j].(lastUsedAt := now) else credentials[j]
  }

  function Touched(db: Db, touch: Touch, now: Instant): Db {
    db.(credentials := TouchedRows(db.credentials, touch, now))
  }

  /** AuthenticateLifecycleCredential up to its update: the ID of the credential that the secret opens. */
  ghost function CheckSecret(db: Db, i: Id, secret: nat, now: Instant): Result<string> {
    if i !in db.credentials then Err(CredentialInvalid)
    else if db.credentials[i].verifier != Sha256(secret) then Err(CredentialInvalid)
    else if !ActiveCredential(db.credentials[i], now) then Err(CredentialExpired)
    else Ok(db.credentials[i].id)
  }

  /** VerifyLifecycleMAC up to its update. */
  ghost function CheckMac(db: Db, i: Id, request: Canonical.Request, mac: Hmac, now: Instant): Result<Unit> {
    var canonical := Canonical.Telemetry(request);
    if canonical.None? then Err(CredentialInvalid)
    else if request.unixSeconds * SECOND < now - CLOCK_SKEW || request.unixSeconds * SECOND > now + CLOCK_SKEW
    then Err(CredentialExpired)
    else if i !in db.credentials then Err(CredentialRequired)
    else if db.credentials[i].revokedAt != 0 || db.credentials[i].expiresAt <= now then Err(CredentialExpired)
    else if mac != Hmac(db.credentials[i].verifier, canonical.value) then Err(CredentialInvalid)
    else Ok(Unit)
  }

  /** RevokeLifecycleCredential */
  ghost function RevokeCredential(db: Db, i: Id, actor: string, now: Instant): Tx<Unit> {
    if Blank(actor) then Refuse(db, TelemetryInvalid)
    else if i !in db.credentials || db.credentials[i].revokedAt != 0 then Refuse(db, CredentialInvalid)
    else Tx(RevokedNow(db, i, now), Ok(Unit))
  }

  // ---------------------------------------------------------------------------
  // Deletion (internal/store/deletion.go).
  // ---------------------------------------------------------------------------

  ghost function WithoutDependents(db: Db, i: Id): Db {
    db.(challenges := map c | c in db.challenges && db.challenges[c].body.installationId != i :: db.challenges[c],
        chunks := db.chunks - {i}, events := db.events - {i}, credentials := db.credentials - {i},
        assignments := db.assignments - {i})
  }

  ghost function DeleteInstallation(db: Db, i: Id, actor: string): Tx<Unit> {
    if Blank(actor) then Refuse(db, InstallationSpecInvalid)
    else if i !in db.specs then Refuse(db, InstallationNotFound)
    else if i in db.assignments && db.assignments[i].state == Armed then Refuse(db, InstallationDeleteConflict)
    else Commit(db, DeleteSpec(WithoutDependents(db, i), i), Unit)
  }

  /** DeleteMachine: the second check, for armed assignments, comes after the one for installations. */
  ghost function DeleteMachine(db: Db, m: Id, actor: string): Tx<Unit> {
    if Blank(actor) then Refuse(db, MachineIdentityInvalid)
    else if m !in db.machines then Refuse(db, MachineNotFound)
    else if exists i | i in db.specs :: db.specs[i].machineId == m then Refuse(db, MachineDeleteConflict)
    else if HasArmed(db, m) then Refuse(db, MachineDeleteConflict)
    else
      var keysDeleted := DeleteKeysOf(db, m);
      Commit(db, if keysDeleted.Err? then keysDeleted else DeleteMachineRow(keysDeleted.value, m), Unit)
  }
}
