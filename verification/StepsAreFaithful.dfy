/** Every step of every handler keeps the invariant, and its note says what it did to the store. */
module StepsAreFaithful {
  import opened Prelude
  import opened Text
  import opened Lifecycle
  import opened Records
  import opened Schema
  import opened Transactions
  import opened StoreInvariant
  import opened StoreSteps
  import opened TelemetrySteps
  import opened TrustSteps
  import opened ControlPlane
  import Canonical

  ghost predicate SameClaims(a: Db, b: Db) {
    forall m :: HasArmed(b, m) <==> HasArmed(a, m)
  }

  /** The installation exists no more, or has been assigned. */
  ghost predicate Claimed(db: Db, i: Id) {
    i < db.nextId && (i in db.specs ==> i in db.assignments)
  }

  /** The installation exists no more, or has a credential. */
  ghost predicate Credentialed(db: Db, i: Id) {
    i < db.nextId && (i in db.specs ==> i in db.credentials)
  }

  /** The installation exists no more, or its assignment is no longer armed and never will be. */
  ghost predicate ClaimSettled(db: Db, i: Id) {
    i < db.nextId && (i in db.specs ==> i in db.assignments && db.assignments[i].state != Armed)
  }

  ghost predicate ReleaseKnown(db: Db, i: Id, release: Release) {
    i < db.nextId && (i in db.specs ==> ReleasedBy(db, i, release))
  }

  /** What a request has established for the steps it has left. */
  ghost predicate Prepared(db: Db, request: Request) {
    match request
    case Touching(i, _, _) => Credentialed(db, i)
    case AppendingEvent(i, _) => Credentialed(db, i)
    case CheckingIn(i) => Claimed(db, i)
    case ReadingSpec(_, _, active) => Claimed(db, active.installationId)
    case _ => true
  }

  /** What a note says about the step that made it. */
  ghost predicate Tells(a: Db, note: Note, b: Db) {
    match note
    case Observed(m, ids) => SameClaims(a, b) && exists created :: Accepts(a, ids, m, created, b)
    case ArmedFor(m, i) =>
      && i in a.specs && a.specs[i].machineId == m && i !in a.assignments && Claimed(b, i)
      && !HasArmed(a, m) && forall n :: HasArmed(b, n) <==> HasArmed(a, n) || n == m
    case CancelledFor(m, i) => Ends(a, m, i, b)
    case ConsumedFor(m, i) => Ends(a, m, i, b)
    case Released(i, release) => SameClaims(a, b) && i in b.specs && ReleaseKnown(b, i, release)
    case LoadBegan(_, _) => a == b
    case Served(_, _, _) => a == b
    case CheckInConflict(_) => a == b
    case SchemaRefused(refusal) => a == b && refusal != Elsewhere
  }

  ghost predicate Ends(a: Db, m: Id, i: Id, b: Db) {
    && i in a.specs && i in a.assignments && a.assignments[i].state == Armed && ClaimSettled(b, i)
    && HasArmed(a, m) && forall n :: HasArmed(b, n) <==> HasArmed(a, n) && n != m
  }

  ghost predicate Faithful(a: Db, e: Effect) {
    && Inv(e.db) && Evolves(a, e.db)
    && (e.next.Some? ==> Prepared(e.db, e.next.value))
    && (if e.note.Some? then Tells(a, e.note.value, e.db) else SameClaims(a, e.db))
    && ((e.note.Some? && e.note.value.Observed?) || NoNewIdentifiers(a, e.db))
  }

  ghost predicate NoNewIdentifiers(a: Db, b: Db) {
    forall n | n in b.identifiers :: n in a.identifiers && a.identifiers[n] == b.identifiers[n]
  }

  // --- what requests have established stays established ---

  lemma {:induction false} PreparedStays(a: Db, b: Db, request: Request)
    requires Inv(a) && Evolves(a, b) && Prepared(a, request)
    ensures Prepared(b, request)
  {
    hide Histories, TrustSound, AssignmentsSound, ChallengesSound, KeysSound, Logs, SpecsOwned, IdentifiersAttached;
  }

  lemma {:induction false} ClaimsStay(a: Db, b: Db, i: Id)
    requires Evolves(a, b)
    ensures Claimed(a, i) ==> Claimed(b, i)
    ensures ClaimSettled(a, i) ==> ClaimSettled(b, i)
    ensures Credentialed(a, i) ==> Credentialed(b, i)
    ensures forall release :: ReleaseKnown(a, i, release) ==> ReleaseKnown(b, i, release)
  {
    forall release | ReleaseKnown(a, i, release) ensures ReleaseKnown(b, i, release) {
      if i in b.specs {
        ReleaseStays(a, b, i, release);
      }
    }
    hide TelemetryEvolves, MachinesEvolve, ReleasedBy;
  }

  /** An installation that had a credential does not come back once it is gone. */
  lemma {:induction false} LaterSpecs(a: Db, b: Db, i: Id)
    requires Evolves(a, b) && Credentialed(a, i)
    ensures i in b.specs ==> i in a.specs
  {
    hide MachinesEvolve, TrustEvolves, TelemetryEvolves;
  }

  // ---------------------------------------------------------------------------
  // Calls of one transaction
  // ---------------------------------------------------------------------------

  lemma {:induction false} SameAssignments(a: Db, b: Db)
    requires a.assignments == b.assignments
    ensures SameClaims(a, b)
  {
  }

  ghost predicate TellsAll(a: Db, note: Option<Note>, b: Db) {
    && (if note.Some? then Tells(a, note.value, b) else SameClaims(a, b))
    && ((note.Some? && note.value.Observed?) || NoNewIdentifiers(a, b))
  }

  lemma {:induction false} NotingIsFaithful<T>(a: Db, tx: Tx<T>, refusal: Refusal, note: Option<Note>)
    requires Sound(a, tx)
    requires tx.result == Err(StorageFailure) ==> refusal != Elsewhere
    requires tx.result.Err? ==> tx.db == a
    requires tx.result.Ok? ==> TellsAll(a, note, tx.db)
    ensures Faithful(a, Noting(tx, refusal, note))
  {
    hide Inv, Evolves, HasArmed, Ends, Claimed, ReleaseKnown, Accepts;
  }

  /** A transaction that moves no claim and attaches no identifier needs no note. */
  lemma {:induction false} UnnotedIsFaithful<T>(a: Db, tx: Tx<T>, refusal: Refusal)
    requires Sound(a, tx) && a.assignments == tx.db.assignments && NoNewIdentifiers(a, tx.db)
    requires tx.result == Err(StorageFailure) ==> refusal != Elsewhere
    requires tx.result.Err? ==> tx.db == a
    ensures Faithful(a, Noting(tx, refusal, None))
  {
    hide Inv, Evolves, HasArmed;
    SameAssignments(a, tx.db);
    NotingIsFaithful(a, tx, refusal, None);
  }

  lemma {:induction false} SpecIdsBelow(db: Db, i: Id)
    requires Inv(db) && i in db.specs
    ensures i < db.nextId
  {
    hide Histories, TrustSound, AssignmentsSound, ChallengesSound, KeysSound, Logs, SpecsOwned, IdentifiersAttached;
  }

  lemma {:induction false} AcceptsTells(a: Db, ids: seq<Identifier>, m: Id, created: bool, b: Db)
    requires Accepts(a, ids, m, created, b)
    ensures TellsAll(a, Some(Observed(m, ids)), b)
  {
    SameAssignments(a, b);
    hide Accepts;
  }

  lemma {:induction false} FreshMachineId(db: Db)
    requires Inv(db)
    ensures IdentifiersAttached(db.identifiers, db.machines.Keys) && db.nextId !in db.machines
  {
    hide Histories, TrustSound, AssignmentsSound, ChallengesSound, KeysSound, Logs, SpecsOwned, IdentifiersAttached;
  }

  lemma {:induction false} DiscoverIsFaithful(db: Db, obs: Observation, now: Instant)
    requires Inv(db)
    ensures var tx := Discover(db, obs, now); Faithful(db, Noting(tx, Elsewhere, DiscoverNote(tx, obs)))
  {
    hide Inv, Evolves, HasArmed, Discover, Accepts, TellsAll, IdentifiersAttached, Faithful;
    DiscoverIsSound(db, obs, now);
    FreshMachineId(db);
    DiscoverAccepts(db, obs, now);
    var tx := Discover(db, obs, now);
    if tx.result.Ok? {
      AcceptsTells(db, Seen(obs), tx.result.value.0, tx.result.value.1, tx.db);
    }
    NotingIsFaithful(db, tx, Elsewhere, DiscoverNote(tx, obs));
  }

  lemma {:induction false} ArmTells(db: Db, row: Assignment, queued: Event)
    requires ArmFits(db, row, queued) && row.installationId < db.nextId
    ensures TellsAll(db, Some(ArmedFor(row.machineId, row.installationId)), WithArmed(db, row, queued))
  {
    hide HasArmed, Follows, ValidAssignment, EventsOf;
    ArmArms(db, row, queued);
    ArmClaims(db, row, queued);
  }

  lemma {:induction false} ArmClaims(db: Db, row: Assignment, queued: Event)
    requires row.installationId < db.nextId
    ensures Claimed(WithArmed(db, row, queued), row.installationId)
    ensures WithArmed(db, row, queued).identifiers == db.identifiers
  {
  }

  lemma {:induction false} ArmIsFaithful(db: Db, m: Id, i: Id, requestId: string, actor: string, now: Instant)
    requires Inv(db)
    ensures Faithful(db, Noting(Arm(db, m, i, requestId, actor, now), Elsewhere, Some(ArmedFor(m, i))))
  {
    hide Inv, Evolves, HasArmed, Arm, ArmFits, TellsAll, Follows, Faithful, WithArmed, FindEvent, Blank, QueuedKey;
    var tx := Arm(db, m, i, requestId, actor, now);
    ArmIsSound(db, m, i, requestId, actor, now);
    if tx.result.Ok? {
      SpecIdsBelow(db, i);
      ArmableFits(db, m, i, requestId, actor, now);
      ArmedFollows(db, m, i, requestId, actor, now);
      ArmCommits(db, m, i, requestId, actor, now);
      ArmTells(db, ArmedRow(db, m, i, actor, now), QueuedEvent(i, requestId, now));
    }
    NotingIsFaithful(db, tx, Elsewhere, Some(ArmedFor(m, i)));
  }

  lemma {:induction false} SettleTells(db: Db, i: Id, row: Assignment, b: Db)
    requires SettledBy(db, i, row, b) && i < db.nextId && db.assignments[i].state == Armed
    ensures TellsAll(db, Some(CancelledFor(row.machineId, i)), b) && TellsAll(db, Some(ConsumedFor(row.machineId, i)), b)
  {
    hide HasArmed;
  }

  lemma {:induction false} SettledIsSpecified(db: Db, i: Id, row: Assignment, b: Db)
    requires SettledBy(db, i, row, b)
    ensures i in db.specs && row.installationId == i && row.state != Armed
  {
  }

  lemma {:induction false} SettleIsFaithful(db: Db, i: Id, actor: string, outcome: AssignmentState, now: Instant)
    requires Inv(db)
    ensures var tx := Settle(db, i, actor, outcome, now); Faithful(db, Noting(tx, Elsewhere, SettleNote(tx)))
  {
    hide Inv, Evolves, HasArmed, Settle, SettledBy, TellsAll, Faithful, Blank;
    var tx := Settle(db, i, actor, outcome, now);
    SettleIsSound(db, i, actor, outcome, now);
    if tx.result.Ok? {
      SettledIsSpecified(db, i, tx.result.value, tx.db);
      SpecIdsBelow(db, i);
      SettleTells(db, i, tx.result.value, tx.db);
    }
    NotingIsFaithful(db, tx, Elsewhere, SettleNote(tx));
  }

  lemma {:induction false} ReleasedIsKnown(db: Db, i: Id, release: Release)
    requires Inv(db) && ReleasedBy(db, i, release)
    ensures i in db.specs && ReleaseKnown(db, i, release)
  {
    UsedHasResponse(db, i, release.challengeId);
    SpecIdsBelow(db, i);
    hide Inv;
  }

  lemma {:induction false} ReleaseTells(a: Db, i: Id, release: Release, b: Db)
    requires a.assignments == b.assignments && a.identifiers == b.identifiers && i in b.specs && ReleaseKnown(b, i, release)
    ensures TellsAll(a, Some(Released(i, release)), b)
  {
    SameAssignments(a, b);
    hide ReleaseKnown;
  }

  lemma {:induction false} CompleteFrame(db: Db, i: Id, c: Id, signature: Signature, secret: nat, now: Instant)
    ensures Complete(db, i, c, signature, secret, now).db.identifiers == db.identifiers
    ensures Complete(db, i, c, signature, secret, now).db.assignments == db.assignments
  {
    hide ProofFault;
  }

  lemma {:induction false} ProveIsFaithful(db: Db, i: Id, c: Id, signature: Signature, secret: nat, now: Instant)
    requires Inv(db)
    ensures var tx := Complete(db, i, c, signature, secret, now);
      Faithful(db, Noting(tx, FirstUseOfChallenge, ReleaseNote(i, tx)))
  {
    hide Inv, Evolves, HasArmed, Complete, ReleasedBy, ReleaseKnown, TellsAll, Faithful, FirstUse, CredentialIdTaken;
    var tx := Complete(db, i, c, signature, secret, now);
    CompleteIsSound(db, i, c, signature, secret, now);
    CompleteFrame(db, i, c, signature, secret, now);
    if tx.result.Ok? {
      ReleasedIsKnown(tx.db, i, tx.result.value.0);
      ReleaseTells(db, i, tx.result.value.0, tx.db);
    }
    NotingIsFaithful(db, tx, FirstUseOfChallenge, ReleaseNote(i, tx));
  }

  lemma {:induction false} PolicyIsFaithful(db: Db, m: Id, policy: Policy, actor: string)
    requires Inv(db)
    ensures Faithful(db, Noting(SetPolicy(db, m, policy, actor), Elsewhere, None))
  {
    hide Inv, Evolves, Faithful, Blank;
    SetPolicyIsSound(db, m, policy, actor);
    UnnotedIsFaithful(db, SetPolicy(db, m, policy, actor), Elsewhere);
  }

  lemma {:induction false} RegisterIsFaithful(db: Db, i: Id, pem: PublicKey, ek: string, now: Instant)
    requires Inv(db)
    ensures Faithful(db, Noting(RegisterKey(db, i, pem, ek, now), Elsewhere, None))
  {
    hide Inv, Evolves, Faithful, ValidEk;
    RegisterKeyIsSound(db, i, pem, ek, now);
    UnnotedIsFaithful(db, RegisterKey(db, i, pem, ek, now), Elsewhere);
  }

  lemma {:induction false} ApproveIsFaithful(db: Db, m: Id, f: Fingerprint, actor: string, now: Instant)
    requires Inv(db)
    ensures Faithful(db, Noting(ApproveKey(db, m, f, actor, now), Elsewhere, None))
  {
    hide Inv, Evolves, Faithful, HasApproved, Blank;
    ApproveKeyIsSound(db, m, f, actor, now);
    UnnotedIsFaithful(db, ApproveKey(db, m, f, actor, now), Elsewhere);
  }

  lemma {:induction false} RevokeKeyIsFaithful(db: Db, m: Id, f: Fingerprint, actor: string, now: Instant)
    requires Inv(db)
    ensures Faithful(db, Noting(RevokeKey(db, m, f, actor, now), Elsewhere, None))
  {
    hide Inv, Evolves, Faithful, HasApproved, Trim;
    RevokeKeyIsSound(db, m, f, actor, now);
    UnnotedIsFaithful(db, RevokeKey(db, m, f, actor, now), Elsewhere);
  }

  lemma {:induction false} ChallengeIsFaithful(db: Db, i: Id, f: Fingerprint, nonce: nat, now: Instant)
    requires Inv(db)
    ensures Faithful(db, Noting(CreateChallenge(db, i, f, nonce, now), Elsewhere, None))
  {
    hide Inv, Evolves, Faithful;
    CreateChallengeIsSound(db, i, f, nonce, now);
    UnnotedIsFaithful(db, CreateChallenge(db, i, f, nonce, now), Elsewhere);
  }

  lemma {:induction false} RevokeCredentialIsFaithful(db: Db, i: Id, actor: string, now: Instant)
    requires Inv(db)
    ensures Faithful(db, Noting(RevokeCredential(db, i, actor, now), Elsewhere, None))
  {
    hide Inv, Evolves, Faithful, Blank;
    RevokeCredentialIsSound(db, i, actor, now);
    UnnotedIsFaithful(db, RevokeCredential(db, i, actor, now), Elsewhere);
  }

  lemma {:induction false} DeleteInstallationIsFaithful(db: Db, i: Id, actor: string)
    requires Inv(db)
    ensures Faithful(db, Noting(DeleteInstallation(db, i, actor), Elsewhere, None))
  {
    hide Inv, Evolves, Faithful, HasArmed, DeleteInstallation;
    DeleteInstallationIsSound(db, i, actor);
    NotingIsFaithful(db, DeleteInstallation(db, i, actor), Elsewhere, None);
  }

  lemma {:induction false} DeleteMachineIsFaithful(db: Db, m: Id, actor: string)
    requires Inv(db)
    ensures Faithful(db, Noting(DeleteMachine(db, m, actor), Elsewhere, None))
  {
    hide Inv, Evolves, Faithful, DeleteMachine, Installed;
    DeleteMachineIsSound(db, m, actor);
    UnnotedIsFaithful(db, DeleteMachine(db, m, actor), Elsewhere);
  }

  lemma {:induction false} CallIsFaithful(db: Db, call: Call, now: Instant)
    requires Inv(db)
    ensures Faithful(db, CallEffect(db, call, now))
  {
    hide Inv, Evolves, Faithful, Noting, Discover, SetPolicy, Arm, Settle, RegisterKey, ApproveKey, RevokeKey;
    hide CreateChallenge;
    hide Complete, RevokeCredential, DeleteInstallation, DeleteMachine, DiscoverNote, SettleNote, ReleaseNote;
    match call
    case DiscoverCall(obs) => DiscoverIsFaithful(db, obs, now);
    case PolicyCall(m, policy, actor) => PolicyIsFaithful(db, m, policy, actor);
    case ArmCall(m, i, requestId, actor) => ArmIsFaithful(db, m, i, requestId, actor, now);
    case CancelCall(i, actor) => SettleIsFaithful(db, i, actor, Cancelled, now);
    case RegisterCall(i, pem, ek) => RegisterIsFaithful(db, i, pem, ek, now);
    case ApproveCall(m, f, actor) => ApproveIsFaithful(db, m, f, actor, now);
    case RevokeKeyCall(m, f, actor) => RevokeKeyIsFaithful(db, m, f, actor, now);
    case ChallengeCall(i, f, nonce) => ChallengeIsFaithful(db, i, f, nonce, now);
    case ProveCall(i, c, signature, secret) => ProveIsFaithful(db, i, c, signature, secret, now);
    case RevokeCredentialCall(i, actor) => RevokeCredentialIsFaithful(db, i, actor, now);
    case DeleteInstallationCall(i, actor) => DeleteInstallationIsFaithful(db, i, actor);
    case DeleteMachineCall(m, actor) => DeleteMachineIsFaithful(db, m, actor);
  }

  // ---------------------------------------------------------------------------
  // Requests of several steps
  // ---------------------------------------------------------------------------

  lemma {:induction false} FaithfulWith(a: Db, e: Effect, next: Request)
    requires Faithful(a, e) && Prepared(e.db, next)
    ensures Faithful(a, e.(next := Some(next)))
  {
    hide Inv, Evolves, HasArmed, Tells, Prepared, NoNewIdentifiers;
  }

  lemma {:induction false} IdleIsFaithful(db: Db, next: Option<Request>, note: Option<Note>)
    requires Inv(db)
    requires next.Some? ==> Prepared(db, next.value)
    requires note.Some? ==> note.value.LoadBegan? || note.value.Served? || note.value.CheckInConflict?
    ensures Faithful(db, Effect(db, next, note))
  {
    hide Inv, Evolves, HasArmed, Prepared;
    EvolvesStays(db);
  }

  lemma {:induction false} AuthenticatedHasCredential(db: Db, i: Id, proof: Proof, now: Instant)
    requires Authenticated(db, i, proof, now).Ok?
    ensures i in db.credentials
  {
    hide Canonical.Telemetry;
  }

  lemma {:induction false} CredentialedNow(db: Db, i: Id)
    requires Inv(db) && i in db.credentials
    ensures Credentialed(db, i)
  {
    hide Histories, AssignmentsSound, ChallengesSound, KeysSound, Logs, SpecsOwned, IdentifiersAttached, UsedFor;
    hide Answers, CredentialFits;
  }

  lemma {:induction false} AuthenticatedIsFaithful(db: Db, i: Id, proof: Proof, now: Instant, job: Job)
    requires Inv(db)
    ensures Faithful(db, Effect(db, AfterCheck(i, Authenticated(db, i, proof, now), job), None))
  {
    hide Inv, Evolves, Faithful, Authenticated, Credentialed;
    var checked := Authenticated(db, i, proof, now);
    if checked.Ok? {
      AuthenticatedHasCredential(db, i, proof, now);
      CredentialedNow(db, i);
    }
    IdleIsFaithful(db, AfterCheck(i, checked, job), None);
  }

  lemma {:induction false} TouchIsFaithful(db: Db, i: Id, touch: Touch, job: Job, now: Instant)
    requires Inv(db) && Credentialed(db, i)
    ensures Faithful(db, Effect(Touched(db, touch, now), Some(AfterTouch(i, job)), None))
  {
    hide Inv, Evolves, Credentialed;
    TouchedStep(db, touch, now);
    ClaimsStay(db, Touched(db, touch, now), i);
    SameAssignments(db, Touched(db, touch, now));
  }

  lemma {:induction false} StartIsFaithful(db: Db, r: nat, start: Start, now: Instant)
    requires Inv(db)
    ensures Faithful(db, StartEffect(db, r, start, now))
  {
    hide Inv, Evolves, Faithful, Authenticated, Noting, CreateSpecLookup, Discover, DiscoverNote;
    match start
    case PostTelemetry(i, proof, job) => AuthenticatedIsFaithful(db, i, proof, now, job);
    case CreateSpec(input) =>
      IdleIsFaithful(db, None, None);
      IdleIsFaithful(db, Some(InsertingSpec(input)), None);
    case FetchMaterial(kind, i) =>
      IdleIsFaithful(db, None, Some(LoadBegan(r, i)));
      if i in db.specs {
        IdleIsFaithful(db, Some(ReadingMachine(kind, i, db.specs[i].machineId)), Some(LoadBegan(r, i)));
      }
    case PxeBoot(obs) =>
      DiscoverIsFaithful(db, obs, now);
      var tx := Discover(db, obs, now);
      var e := Noting(tx, Elsewhere, DiscoverNote(tx, obs));
      NotingHasNoNext(tx, Elsewhere, DiscoverNote(tx, obs));
      if NextAfterDiscovery(tx).Some? {
        FaithfulWith(db, e, NextAfterDiscovery(tx).value);
      } else {
        assert e.(next := None) == e;
      }
  }

  lemma {:induction false} NotingHasNoNext<T>(tx: Tx<T>, refusal: Refusal, note: Option<Note>)
    ensures Noting(tx, refusal, note).next.None? && Noting(tx, refusal, note).db == tx.db
  {
  }

  lemma {:induction false} AppendEventFrame(db: Db, i: Id, report: Report, requestId: string, now: Instant)
    ensures var tx := AppendEvent(db, i, report, requestId, now);
      (tx.result.Err? ==> tx.db == db) && tx.db.assignments == db.assignments && tx.db.identifiers == db.identifiers
  {
    hide ValidReport, FindEvent, CanAdvance, InsertEvent, EventsOf, CurrentStage;
    InsertEventFrame(db, i, Event(report, now, requestId));
  }

  lemma {:induction false} InsertEventFrame(db: Db, i: Id, row: Event)
    ensures var r := InsertEvent(db, i, row);
      r.Ok? ==> r.value.assignments == db.assignments && r.value.identifiers == db.identifiers
  {
    hide EventsOf;
  }

  lemma {:induction false} AppendChunkFrame(db: Db, i: Id, chunk: ChunkInput, requestId: string, now: Instant)
    ensures var tx := AppendChunk(db, i, chunk, requestId, now);
      && (tx.result.Err? ==> tx.db == db)
      && tx.db.assignments == db.assignments && tx.db.identifiers == db.identifiers && tx.db.specs == db.specs
  {
    hide ValidChunk, FindChunk, LastSequence, TotalBytes;
  }

  lemma {:induction false} CreateSpecFrame(db: Db, input: SpecInput, requestId: string, now: Instant)
    requires db.nextId !in db.specs && db.nextId !in db.events
    ensures var tx := CreateSpecInsert(db, input, requestId, now);
      (tx.result.Err? ==> tx.db == db) && tx.db.assignments == db.assignments && tx.db.identifiers == db.identifiers
  {
    hide CreateSpecInsert, CreatedKey;
    CreateSpecCommits(db, input, requestId, now);
  }

  lemma {:induction false} FreshSpecId(db: Db)
    requires Inv(db)
    ensures db.nextId !in db.specs && db.nextId !in db.events
  {
    hide TrustSound, AssignmentsSound, ChallengesSound, KeysSound, Logs, SpecsOwned, IdentifiersAttached, History;
    hide Coupled;
  }

  lemma {:induction false} CreateSpecIsFaithful(db: Db, input: SpecInput, requestId: string, now: Instant)
    requires Inv(db)
    ensures Faithful(db, Noting(CreateSpecInsert(db, input, requestId, now), NewInstallation, None))
  {
    hide Inv, Evolves, Faithful, CreateSpecInsert;
    CreateSpecIsSound(db, input, requestId, now);
    FreshSpecId(db);
    CreateSpecFrame(db, input, requestId, now);
    UnnotedIsFaithful(db, CreateSpecInsert(db, input, requestId, now), NewInstallation);
  }

  lemma {:induction false} EventIsFaithful(db: Db, i: Id, report: Report, requestId: string, now: Instant)
    requires Inv(db) && Entitled(db, i, report.source)
    ensures Faithful(db, Noting(AppendEvent(db, i, report, requestId, now), Elsewhere, None))
  {
    hide Inv, Evolves, Faithful, AppendEvent;
    AppendEventIsSound(db, i, report, requestId, now);
    AppendEventFrame(db, i, report, requestId, now);
    UnnotedIsFaithful(db, AppendEvent(db, i, report, requestId, now), Elsewhere);
  }

  lemma {:induction false} ChunkIsFaithful(db: Db, i: Id, chunk: ChunkInput, requestId: string, now: Instant)
    requires Inv(db)
    ensures Faithful(db, Noting(AppendChunk(db, i, chunk, requestId, now), Elsewhere, None))
  {
    hide Inv, Evolves, Faithful, AppendChunk;
    AppendChunkIsSound(db, i, chunk, requestId, now);
    AppendChunkFrame(db, i, chunk, requestId, now);
    UnnotedIsFaithful(db, AppendChunk(db, i, chunk, requestId, now), Elsewhere);
  }

  lemma {:induction false} ActiveIsClaimed(db: Db, m: Id)
    requires Inv(db) && ActiveFor(db, m).Some?
    ensures var a := ActiveFor(db, m).value;
      && a.machineId == m && a.state == Armed
      && a.installationId in db.assignments && db.assignments[a.installationId] == a && Claimed(db, a.installationId)
  {
    hide Histories, TrustSound, ChallengesSound, KeysSound, Logs, SpecsOwned, IdentifiersAttached, ValidAssignment;
    hide Apart;
  }

  lemma {:induction false} CredentialedIsEntitled(db: Db, i: Id, source: Source)
    requires Inv(db) && Credentialed(db, i)
    ensures Entitled(db, i, source)
  {
    hide Histories, AssignmentsSound, ChallengesSound, KeysSound, Logs, SpecsOwned, IdentifiersAttached, UsedFor;
    hide Answers, CredentialFits, IdsDrawn;
  }

  lemma {:induction false} CheckInIsFaithful(
    policy: SecureBootPolicy, db: Db, r: nat, i: Id, requestId: string, now: Instant)
    requires Inv(db) && Claimed(db, i)
    ensures Faithful(db, StepEffect(policy, db, r, CheckingIn(i), requestId, now))
  {
    hide Inv, Evolves, Faithful, AppendEvent, Noting, PxeKey;
    var tx := AppendEvent(db, i, CheckInReport(i), requestId, now);
    AppendEventFrame(db, i, CheckInReport(i), requestId, now);
    if tx.result == Err(TelemetryConflict) {
      IdleIsFaithful(db, None, Some(CheckInConflict(i)));
    } else {
      EventIsFaithful(db, i, CheckInReport(i), requestId, now);
    }
  }

  lemma {:induction false} ConsumeIsFaithful(
    policy: SecureBootPolicy, db: Db, r: nat, i: Id, requestId: string, now: Instant)
    requires Inv(db)
    ensures Faithful(db, StepEffect(policy, db, r, Consuming(i), requestId, now))
  {
    hide Inv, Evolves, Faithful, Settle, SettleNote, Noting;
    SettleIsFaithful(db, i, "system:pxe", Consumed, now);
    var tx := Consume(db, i, "system:pxe", now);
    var e := Noting(tx, Elsewhere, SettleNote(tx));
    NotingHasNoNext(tx, Elsewhere, SettleNote(tx));
    if tx.result.Ok? {
      FaithfulWith(db, e, Delivering(Preseed, i));
    } else {
      assert e.(next := None) == e;
    }
  }

  lemma {:induction false} ReadIsFaithful(
    policy: SecureBootPolicy, db: Db, r: nat, request: Request, requestId: string, now: Instant)
    requires Inv(db) && Prepared(db, request)
    requires !request.Touching? && !request.AppendingEvent? && !request.AppendingLog? && !request.InsertingSpec?
    requires !request.Consuming? && !request.CheckingIn?
    ensures Faithful(db, StepEffect(policy, db, r, request, requestId, now))
  {
    hide Inv, Evolves, Faithful, ActiveFor, MaterialAllowed;
    var e := StepEffect(policy, db, r, request, requestId, now);
    if request.ReadingActive? && e.next.Some? {
      ActiveIsClaimed(db, request.machine);
    }
    IdleIsFaithful(db, e.next, e.note);
  }

  lemma {:induction false} StepIsFaithful(
    policy: SecureBootPolicy, db: Db, r: nat, request: Request, requestId: string, now: Instant)
    requires Inv(db) && Prepared(db, request)
    ensures Faithful(db, StepEffect(policy, db, r, request, requestId, now))
  {
    hide Inv, Evolves, Faithful, Noting, AppendEvent, AppendChunk, CreateSpecInsert, Claimed, Credentialed, Entitled;
    match request
    case Touching(i, touch, job) => TouchIsFaithful(db, i, touch, job, now);
    case AppendingEvent(i, report) =>
      CredentialedIsEntitled(db, i, report.source);
      EventIsFaithful(db, i, report, requestId, now);
    case AppendingLog(i, chunk) => ChunkIsFaithful(db, i, chunk, requestId, now);
    case InsertingSpec(input) => CreateSpecIsFaithful(db, input, requestId, now);
    case Consuming(i) => ConsumeIsFaithful(policy, db, r, i, requestId, now);
    case CheckingIn(i) => CheckInIsFaithful(policy, db, r, i, requestId, now);
    case ReadingMachine(_, _, _) => ReadIsFaithful(policy, db, r, request, requestId, now);
    case ReadingAssignment(_, _, _, _) => ReadIsFaithful(policy, db, r, request, requestId, now);
    case Delivering(_, _) => ReadIsFaithful(policy, db, r, request, requestId, now);
    case ReadingActive(_, _) => ReadIsFaithful(policy, db, r, request, requestId, now);
    case ReadingSpec(_, _, _) => ReadIsFaithful(policy, db, r, request, requestId, now);
  }
}
