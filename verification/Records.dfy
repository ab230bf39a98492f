/** The rows of the provisioning store. Identifiers are drawn from one counter, so idgen.New never repeats; times are
    integers and zero is the empty timestamp. Hashes, ciphertexts and signatures are free terms: they are equal only
    when they were made from the same parts. */
module Records {
  import opened Prelude
  import opened Text
  import opened Lifecycle

  type Id = nat
  type Time = nat
  type Instant = t: nat | t > 0 witness 1
  type Fingerprint = nat

  // --- machines (internal/machine/model.go) ---

  datatype Policy = Pending | Local | Provision | Blocked

  datatype SecureBootState = Unknown | Enabled | Disabled | SetupMode | Unsupported

  datatype Machine = Machine(
    policy: Policy,
    architecture: string,
    firmware: string,
    secureBoot: SecureBootState,
    firstSeen: Time,
    lastSeen: Time)

  datatype IdentifierKind = Mac | SmbiosUuid

  datatype Identifier = Identifier(kind: IdentifierKind, value: string)

  /** An observation after parsing: identifiers in canonical form, or None when one is malformed or all are missing;
      Secure Boot evidence, or None when it is invalid. */
  datatype Observation = Observation(
    identifiers: Option<seq<Identifier>>,
    architecture: string,
    firmware: string,
    secureBoot: Option<SecureBootState>)

  // --- installations and assignments ---

  /** The columns of installation_specs that the store reads again. */
  datatype Spec = Spec(machineId: Id, credentialId: string, createdAt: Time, createdBy: string)

  /** What a caller submits; `wellFormed` stands for the field checks of Spec.Validate that are not listed. */
  datatype SpecInput = SpecInput(machineId: Id, credentialId: string, createdBy: string, wellFormed: bool)

  datatype AssignmentState = Armed | Consumed | Cancelled

  datatype Assignment = Assignment(
    id: Id,
    machineId: Id,
    installationId: Id,
    state: AssignmentState,
    armedAt: Time,
    armedBy: string,
    consumedAt: Time,
    cancelledAt: Time)

  /** Assignment.Validate (internal/assignment/model.go). */
  predicate ValidAssignment(a: Assignment) {
    match a.state
    case Armed => a.armedAt != 0 && !Blank(a.armedBy) && a.consumedAt == 0 && a.cancelledAt == 0
    case Consumed => a.armedAt != 0 && a.consumedAt != 0 && a.cancelledAt == 0
    case Cancelled => a.armedAt != 0 && a.cancelledAt != 0 && a.consumedAt == 0
  }

  // --- boot trust (internal/boottrust/model.go) ---

  /** A PEM text: whether it parses as an RSA key, the key inside it and its spelling. */
  datatype PublicKey = PublicKey(valid: bool, key: Fingerprint, text: string)

  datatype KeyState = KeyPending | KeyApproved | KeyRevoked

  datatype BootKey = BootKey(
    machineId: Id,
    pem: PublicKey,
    ek: string,
    state: KeyState,
    firstSeenAt: Time,
    lastSeenAt: Time,
    approvedAt: Time,
    approvedBy: string,
    revokedAt: Time,
    revokedBy: string)

  predicate HexDigitChar(c: char) {
    '0' <= c <= '9' || 'a' <= c <= 'f' || 'A' <= c <= 'F'
  }

  /** ValidateEKFingerprint */
  predicate ValidEk(ek: string) {
    ek == "" || (|ek| == 71 && HasPrefix(ek, "sha256:") && forall k :: 7 <= k < |ek| ==> HexDigitChar(ek[k]))
  }

  /** The fields that CanonicalChallenge signs. */
  datatype ChallengeBody = ChallengeBody(id: Id, installationId: Id, machineId: Id, fingerprint: Fingerprint, nonce: nat)

  datatype Signature = Malformed | Signed(signer: Fingerprint, body: ChallengeBody)

  datatype Ciphertext = Oaep(key: Fingerprint, secret: nat)

  datatype Challenge = Challenge(
    body: ChallengeBody,
    createdAt: Time,
    expiresAt: Time,
    usedAt: Time,
    response: Option<Ciphertext>,
    credentialExpiresAt: Time)

  datatype Release = Release(challengeId: Id, ciphertext: Ciphertext, credentialExpiry: Time)

  // --- telemetry (internal/telemetry/model.go) ---

  datatype Digest = Sha256(secret: nat)

  datatype Credential = Credential(
    id: string,
    verifier: Digest,
    createdAt: Time,
    expiresAt: Time,
    revokedAt: Time,
    lastUsedAt: Time)

  datatype Hmac = Hmac(key: Digest, message: string)

  datatype Event = Event(report: Report, receivedAt: Time, requestId: string)

  datatype ChunkInput = ChunkInput(sequence: int, source: Source, clientAt: Time, key: string, content: string)

  datatype Chunk = Chunk(input: ChunkInput, receivedAt: Time, requestId: string)

  const MAX_LOG_CHUNK := 128 * 1024
  const MAX_INSTALLATION_LOG := 16 * 1024 * 1024

  /** LogChunk.Validate */
  predicate ValidChunk(c: ChunkInput) {
    && c.sequence > 0
    && c.source != Server
    && ValidKey(c.key)
    && 0 < |c.content| <= MAX_LOG_CHUNK
  }

  // --- the whole store ---

  datatype Db = Db(
    nextId: Id,
    machines: map<Id, Machine>,
    identifiers: map<Identifier, Id>,
    specs: map<Id, Spec>,
    assignments: map<Id, Assignment>,
    keys: map<Fingerprint, BootKey>,
    challenges: map<Id, Challenge>,
    credentials: map<Id, Credential>,
    events: map<Id, seq<Event>>,
    chunks: map<Id, seq<Chunk>>)

  const EMPTY_STORE := Db(0, map[], map[], map[], map[], map[], map[], map[], map[], map[])

  function EventsOf(db: Db, i: Id): seq<Event> {
    if i in db.events then db.events[i] else []
  }

  function ChunksOf(db: Db, i: Id): seq<Chunk> {
    if i in db.chunks then db.chunks[i] else []
  }

  function StagesOf(events: seq<Event>): (r: seq<Stage>)
    ensures |r| == |events|
    ensures forall k :: 0 <= k < |events| ==> r[k] == events[k].report.stage
  {
    seq(|events|, k requires 0 <= k < |events| => events[k].report.stage)
  }

  function CurrentStage(db: Db, i: Id): Option<Stage> {
    var events := EventsOf(db, i);
    if events == [] then None else Some(events[|events| - 1].report.stage)
  }
}
