/** The store as the program has it: tables that methods update in place. Each method works on a transaction's copy of
    the tables, gives up by returning early, and commits at the end. Every method is tied to the specification of its
    transaction, and keeps the invariant. */
module Store {
  import opened Prelude
  import opened Text
  import opened Lifecycle
  import opened Records
  import opened Schema
  import opened Transactions
  import opened StoreInvariant
  import opened StoreSteps
  import opened TelemetrySteps
  import opened TrustSteps
  import opened Writes
  import Canonical
  import ControlPlane
  import Redaction

  class Store {
    var nextId: Id
    var machines: map<Id, Machine>
    var identifiers: map<Identifier, Id>
    var specs: map<Id, Spec>
    var assignments: map<Id, Assignment>
    var keys: map<Fingerprint, BootKey>
    var challenges: map<Id, Challenge>
    var credentials: map<Id, Credential>
    var events: map<Id, seq<Event>>
    var chunks: map<Id, seq<Chunk>>

    /** The committed rows. */
    function State(): Db
      reads this
    {
      Db(nextId, machines, identifiers, specs, assignments, keys, challenges, credentials, events, chunks)
    }

    ghost predicate Valid()
      reads this
    {
      Inv(State())
    }

    constructor ()
      ensures Valid() && State() == EMPTY_STORE
    {
      nextId := 0;
      machines, identifiers, specs, assignments, keys := map[], map[], map[], map[], map[];
      challenges, credentials, events, chunks := map[], map[], map[], map[];
      new;
      EmptyStoreIsValid();
    }

    method Commit(tx: Db)
      modifies this
      ensures State() == tx
    {
      nextId := tx.nextId;
      machines, identifiers, specs, assignments := tx.machines, tx.identifiers, tx.specs, tx.assignments;
      keys, challenges, credentials := tx.keys, tx.challenges, tx.credentials;
      events, chunks := tx.events, tx.chunks;
    }

    // -------------------------------------------------------------------------
    // Machines
    // -------------------------------------------------------------------------

    method DiscoverMachine(obs: Observation, now: Instant) returns (r: Result<(Id, bool)>)
      requires Valid()
      modifies this
      ensures Valid() && Tx(State(), r) == Discover(old(State()), obs, now)
      ensures r.Ok? ==> r.value.0 in State().machines && SeenAs(old(State()), r.value.0, obs, now, State().machines[r.value.0])
    {
      hide Inv, Evolves, State, Trim, Matches, AttachAll, NewMachine, SeenAgain, SeenAs;
      var tx := State();
      DiscoveryIsSeen(tx, obs, now);
      assert Inv(Discover(tx, obs, now).db) by {
        DiscoverIsSound(tx, obs, now);
      }
      if |Trim(obs.architecture)| > 64 || |Trim(obs.firmware)| > 64 {
        return Err(MachineIdentityInvalid);
      }
      if obs.secureBoot.None? {
        return Err(SecureBootEvidenceInvalid);
      }
      if obs.identifiers.None? {
        return Err(MachineIdentityInvalid);
      }
      var ids := obs.identifiers.value;
      var matches := ResolveIdentifiers(tx, ids);
      if |matches| > 1 {
        return Err(MachineIdentityConflict);
      }
      var m := tx.nextId;
      var created := matches == {};
      var next;
      if created {
        next := InsertMachine(tx.(nextId := m + 1), m, NewMachine(obs, now));
      } else {
        m := TheMatch(matches);
        if m !in tx.machines {
          return Err(StorageFailure);
        }
        next := Ok(tx.(machines := tx.machines[m := SeenAgain(tx.machines[m], obs, now)]));
      }
      next := AttachIdentifiers(next, ids, m);
      if next.Err? {
        return Err(next.fault);
      }
      Commit(next.value);
      return Ok((m, created));
    }

    /** The lookup loop of DiscoverMachine. */
    static method ResolveIdentifiers(tx: Db, ids: seq<Identifier>) returns (matches: set<Id>)
      ensures matches == Matches(tx, ids)
    {
      matches := {};
      for k := 0 to |ids|
        invariant matches == Matches(tx, ids[..k])
      {
        MatchesOneMore(tx, ids, k);
        if ids[k] in tx.identifiers {
          matches := matches + {tx.identifiers[ids[k]]};
        }
      }
      assert ids[..|ids|] == ids;
    }

    static method TheMatch(matches: set<Id>) returns (m: Id)
      requires matches != {} && |matches| <= 1
      ensures m == OneOf(matches)
    {
      m :| m in matches;
      assert |matches - {m}| == 0;
      assert OneOf(matches) !in matches - {m};
    }

    /** The upsert loop of DiscoverMachine. */
    static method AttachIdentifiers(tx: Result<Db>, ids: seq<Identifier>, m: Id) returns (next: Result<Db>)
      ensures next == AttachAll(tx, ids, m)
    {
      next := tx;
      for k := 0 to |ids|
        invariant next == AttachAll(tx, ids[..k], m)
      {
        assert ids[..k + 1][..k] == ids[..k];
        if next.Ok? {
          next := UpsertIdentifier(next.value, ids[k], m);
        }
      }
      assert ids[..|ids|] == ids;
    }

    method SetMachinePolicy(m: Id, policy: Policy, actor: string) returns (r: Result<Machine>)
      requires Valid()
      modifies this
      ensures Valid() && Tx(State(), r) == SetPolicy(old(State()), m, policy, actor)
    {
      hide Inv, Evolves, State, Blank;
      var tx := State();
      assert Inv(SetPolicy(tx, m, policy, actor).db) by {
        SetPolicyIsSound(tx, m, policy, actor);
      }
      if Blank(actor) {
        return Err(MachinePolicyInvalid);
      }
      if m !in tx.machines {
        return Err(MachineNotFound);
      }
      var row := tx.machines[m].(policy := policy);
      Commit(tx.(machines := tx.machines[m := row]));
      return Ok(row);
    }

    // -------------------------------------------------------------------------
    // Installations
    // -------------------------------------------------------------------------

    /** The first half of CreateInstallationSpec, before its transaction begins. */
    method LookupForSpec(input: SpecInput) returns (r: Result<Unit>)
      ensures r == CreateSpecLookup(State(), input)
    {
      if !ValidInput(input) {
        return Err(InstallationSpecInvalid);
      }
      if input.machineId !in machines {
        return Err(MachineNotFound);
      }
      return Ok(Unit);
    }

    /** The transaction of CreateInstallationSpec. */
    method InsertInstallation(input: SpecInput, requestId: string, now: Instant) returns (r: Result<Id>)
      requires Valid()
      modifies this
      ensures Valid() && Tx(State(), r) == CreateSpecInsert(old(State()), input, requestId, now)
    {
      hide Inv, Evolves, State, InsertSpec, AppendServerEvent, CreatedKey;
      var tx := State();
      assert Inv(CreateSpecInsert(tx, input, requestId, now).db) by {
        CreateSpecIsSound(tx, input, requestId, now);
      }
      var i := tx.nextId;
      var inserted := InsertSpec(tx.(nextId := i + 1), i, Spec(input.machineId, input.credentialId, now, input.createdBy));
      if inserted.Err? {
        return Err(inserted.fault);
      }
      var report := ServerReport(Created, CreatedKey(i), CREATED_MESSAGE);
      var appended := AppendServerEventTx(inserted.value, i, report, requestId, now);
      if appended.Err? {
        return Err(StorageFailure);
      }
      Commit(appended.value);
      return Ok(i);
    }

    /** appendServerLifecycleEventTx, in the transaction of its caller. */
    static method AppendServerEventTx(tx: Db, i: Id, report: Report, requestId: string, at: Time) returns (r: Result<Db>)
      ensures r == AppendServerEvent(tx, i, report, requestId, at)
    {
      hide InsertEvent;
      if !SourceAllowed(report.stage, Server) {
        return Err(TelemetryInvalid);
      }
      var existing := LookupEvent(EventsOf(tx, i), report.key);
      if existing.Some? {
        if existing.value.report.stage == report.stage {
          return Ok(tx);
        }
        return Err(TelemetryConflict);
      }
      if !CanAdvance(CurrentStage(tx, i), report.stage) {
        return Err(TelemetryConflict);
      }
      return InsertEvent(tx, i, Event(report, at, requestId));
    }

    /** SELECT ... WHERE installation_id=? AND idempotency_key=? */
    static method LookupEvent(events: seq<Event>, key: string) returns (r: Option<Event>)
      ensures r == FindEvent(events, key)
    {
      for k := 0 to |events|
        invariant FindEvent(events, key) == FindEvent(events[k..], key)
      {
        if events[k].report.key == key {
          return Some(events[k]);
        }
        assert events[k..][1..] == events[k + 1..];
      }
      return None;
    }

    // -------------------------------------------------------------------------
    // Assignments
    // -------------------------------------------------------------------------

    method ArmInstallation(m: Id, i: Id, requestId: string, actor: string, now: Instant) returns (r: Result<Assignment>)
      requires Valid()
      modifies this
      ensures Valid() && Tx(State(), r) == Arm(old(State()), m, i, requestId, actor, now)
    {
      hide Inv, Evolves, State, Blank, Trim, InsertAssignment, AppendServerEvent, QueuedKey;
      var tx := State();
      assert Inv(Arm(tx, m, i, requestId, actor, now).db) by {
        ArmIsSound(tx, m, i, requestId, actor, now);
      }
      if Blank(actor) {
        return Err(AssignmentInvalid);
      }
      if m !in tx.machines {
        return Err(MachineNotFound);
      }
      if tx.machines[m].policy != Provision {
        return Err(AssignmentInvalid);
      }
      if i !in tx.specs {
        return Err(InstallationNotFound);
      }
      if tx.specs[i].machineId != m {
        return Err(AssignmentInvalid);
      }
      if i in tx.assignments {
        return Err(AssignmentInvalid);
      }
      if HasArmed(tx, m) {
        return Err(AssignmentConflict);
      }
      var row := Assignment(tx.nextId, m, i, Armed, now, Trim(actor), 0, 0);
      var inserted := InsertAssignment(tx.(nextId := tx.nextId + 1), row);
      if inserted.Err? {
        return Err(inserted.fault);
      }
      var report := ServerReport(Queued, QueuedKey(i), QUEUED_MESSAGE);
      var appended := AppendServerEventTx(inserted.value, i, report, requestId, now);
      if appended.Err? {
        return Err(StorageFailure);
      }
      Commit(appended.value);
      return Ok(row);
    }

    method CancelAssignment(i: Id, actor: string, now: Instant) returns (r: Result<Assignment>)
      requires Valid()
      modifies this
      ensures Valid() && Tx(State(), r) == Cancel(old(State()), i, actor, now)
    {
      hide Inv, Evolves, State, Blank, ReadAssignment, SettledBy;
      var tx := State();
      assert Inv(Settle(tx, i, actor, Cancelled, now).db) by {
        SettleIsSound(tx, i, actor, Cancelled, now);
      }
      if Blank(actor) {
        return Err(AssignmentInvalid);
      }
      var item :- ReadAssignment(tx, i);
      if item.state != Armed {
        return Err(AssignmentInvalid);
      }
      item := item.(state := Cancelled, cancelledAt := now);
      IsStored(tx, i);
      Commit(tx.(assignments := tx.assignments[i := item]));
      return Ok(item);
    }

    method ConsumeAssignment(i: Id, actor: string, now: Instant) returns (r: Result<Assignment>)
      requires Valid()
      modifies this
      ensures Valid() && Tx(State(), r) == Consume(old(State()), i, actor, now)
    {
      hide Inv, Evolves, State, Blank, ReadAssignment, SettledBy;
      var tx := State();
      assert Inv(Settle(tx, i, actor, Consumed, now).db) by {
        SettleIsSound(tx, i, actor, Consumed, now);
      }
      if Blank(actor) {
        return Err(AssignmentInvalid);
      }
      var item :- ReadAssignment(tx, i);
      if item.state != Armed {
        return Err(AssignmentInvalid);
      }
      item := item.(state := Consumed, consumedAt := now);
      IsStored(tx, i);
      Commit(tx.(assignments := tx.assignments[i := item]));
      return Ok(item);
    }

    // -------------------------------------------------------------------------
    // Boot trust
    // -------------------------------------------------------------------------

    /** trustBindingTx, the check for a cancelled assignment and requireProvisionPolicyTx. */
    static method BindTrust(tx: Db, i: Id) returns (r: Result<Id>)
      ensures r == TrustedMachine(tx, i)
    {
      if i !in tx.specs || i !in tx.assignments {
        return Err(AssignmentNotFound);
      }
      if tx.assignments[i].state == Cancelled {
        return Err(BootTrustEnrollmentRequired);
      }
      var m := tx.specs[i].machineId;
      if m !in tx.machines {
        return Err(MachineNotFound);
      }
      if tx.machines[m].policy != Provision {
        return Err(BootTrustEnrollmentRequired);
      }
      return Ok(m);
    }

    method RegisterBootTrustKey(i: Id, pem: PublicKey, ek: string, now: Instant) returns (r: Result<(BootKey, bool)>)
      requires Valid()
      modifies this
      ensures Valid() && Tx(State(), r) == RegisterKey(old(State()), i, pem, ek, now)
      ensures r.Ok? ==> EnrolledAs(old(State()), i, pem, ek, now, r.value.0)
    {
      hide Inv, Evolves, State, ValidEk, TrustedMachine, InsertKey, UpdateKey, EnrolledAs;
      var tx := State();
      EnrollmentIsPending(tx, i, pem, ek, now);
      assert Inv(RegisterKey(tx, i, pem, ek, now).db) by {
        RegisterKeyIsSound(tx, i, pem, ek, now);
      }
      if !pem.valid || !ValidEk(ek) {
        return Err(BootTrustKeyInvalid);
      }
      var m :- BindTrust(tx, i);
      var f := pem.key;
      if KeyOf(tx, m, f) {
        var existing := tx.keys[f];
        if existing.pem != pem || (existing.ek != "" && ek != "" && existing.ek != ek) {
          return Err(BootTrustKeyInvalid);
        }
        if existing.state == KeyRevoked {
          return Err(BootTrustEnrollmentRequired);
        }
        var row := existing.(lastSeenAt := now, ek := if existing.ek == "" then ek else existing.ek);
        var updated :- UpdateKey(tx, f, row);
        Commit(updated);
        return Ok((row, false));
      }
      if f in tx.keys {
        return Err(BootTrustKeyInvalid);
      }
      var row := BootKey(m, pem, ek, KeyPending, now, now, 0, "", 0, "");
      var inserted :- InsertKey(tx, f, row);
      Commit(inserted);
      return Ok((row, true));
    }

    method ApproveBootTrustKey(m: Id, f: Fingerprint, actor: string, now: Instant) returns (r: Result<BootKey>)
      requires Valid()
      modifies this
      ensures Valid() && Tx(State(), r) == ApproveKey(old(State()), m, f, actor, now)
    {
      hide Inv, Evolves, State, Blank, Trim, UpdateKey, HasApproved;
      var tx := State();
      assert Inv(ApproveKey(tx, m, f, actor, now).db) by {
        ApproveKeyIsSound(tx, m, f, actor, now);
      }
      if Blank(actor) {
        return Err(BootTrustKeyInvalid);
      }
      if !KeyOf(tx, m, f) {
        return Err(BootTrustEnrollmentRequired);
      }
      var item := tx.keys[f];
      if item.state == KeyRevoked {
        return Err(BootTrustEnrollmentRequired);
      }
      if item.state == KeyApproved {
        return Ok(item);
      }
      if HasApproved(tx, m) {
        return Err(BootTrustEnrollmentRequired);
      }
      item := item.(state := KeyApproved, approvedAt := now, approvedBy := Trim(actor));
      var updated :- UpdateKey(tx, f, item);
      Commit(updated);
      return Ok(item);
    }

    method RevokeBootTrustKey(m: Id, f: Fingerprint, actor: string, now: Instant) returns (r: Result<BootKey>)
      requires Valid()
      modifies this
      ensures Valid() && Tx(State(), r) == RevokeKey(old(State()), m, f, actor, now)
    {
      hide Inv, Evolves, State, Trim, UpdateKey;
      var tx := State();
      assert Inv(RevokeKey(tx, m, f, actor, now).db) by {
        RevokeKeyIsSound(tx, m, f, actor, now);
      }
      if !KeyOf(tx, m, f) {
        return Err(BootTrustEnrollmentRequired);
      }
      var item := tx.keys[f];
      if item.state == KeyRevoked {
        return Ok(item);
      }
      item := item.(state := KeyRevoked, revokedAt := now, revokedBy := Trim(actor));
      var updated :- UpdateKey(tx, f, item);
      Commit(updated);
      return Ok(item);
    }

    method CreateBootTrustChallenge(i: Id, f: Fingerprint, nonce: nat, now: Instant) returns (r: Result<Challenge>)
      requires Valid()
      modifies this
      ensures Valid() && Tx(State(), r) == CreateChallenge(old(State()), i, f, nonce, now)
    {
      hide Inv, Evolves, State, TrustedMachine, InsertChallenge;
      var tx := State();
      assert Inv(CreateChallenge(tx, i, f, nonce, now).db) by {
        CreateChallengeIsSound(tx, i, f, nonce, now);
      }
      var m :- BindTrust(tx, i);
      if !KeyOf(tx, m, f) || tx.keys[f].state != KeyApproved {
        return Err(BootTrustEnrollmentRequired);
      }
      var row := Challenge(ChallengeBody(tx.nextId, i, m, f, nonce), now, now + CHALLENGE_TTL, 0, None, 0);
      var inserted :- InsertChallenge(tx.(nextId := tx.nextId + 1), row);
      Commit(inserted);
      return Ok(row);
    }

    /** The checks that CompleteBootTrustChallenge makes of an unused challenge, in its order. */
    static method CheckProof(tx: Db, i: Id, c: Challenge, signature: Signature, now: Instant) returns (r: Option<Fault>)
      ensures r == ProofFault(tx, i, c, signature, now)
    {
      if c.expiresAt <= now {
        return Some(BootTrustChallengeExpired);
      }
      if i !in tx.specs || i !in tx.assignments {
        return Some(AssignmentNotFound);
      }
      var m := tx.specs[i].machineId;
      if m != c.body.machineId || tx.assignments[i].state == Cancelled {
        return Some(BootTrustProofInvalid);
      }
      if m !in tx.machines {
        return Some(MachineNotFound);
      }
      if tx.machines[m].policy != Provision {
        return Some(BootTrustEnrollmentRequired);
      }
      if !KeyOf(tx, m, c.body.fingerprint) || tx.keys[c.body.fingerprint].state != KeyApproved {
        return Some(BootTrustEnrollmentRequired);
      }
      var key := tx.keys[c.body.fingerprint];
      if !key.pem.valid || key.pem.key != c.body.fingerprint {
        return Some(BootTrustKeyInvalid);
      }
      if signature != Signed(key.pem.key, c.body) {
        return Some(BootTrustProofInvalid);
      }
      if i in tx.credentials {
        return Some(TelemetryConflict);
      }
      return None;
    }

    method CompleteBootTrustChallenge(i: Id, challengeId: Id, signature: Signature, secret: nat, now: Instant)
      returns (r: Result<(Release, bool)>)
      requires Valid()
      modifies this
      ensures Valid() && Tx(State(), r) == Complete(old(State()), i, challengeId, signature, secret, now)
    {
      hide Inv, Evolves, State, ProofFault, InsertCredential, ReleasedBy, CredentialIdTaken;
      var tx := State();
      assert Inv(Complete(tx, i, challengeId, signature, secret, now).db) by {
        CompleteIsSound(tx, i, challengeId, signature, secret, now);
      }
      if signature.Malformed? {
        return Err(BootTrustProofInvalid);
      }
      if challengeId !in tx.challenges || tx.challenges[challengeId].body.installationId != i {
        return Err(BootTrustProofInvalid);
      }
      var c := tx.challenges[challengeId];
      if c.usedAt != 0 {
        if c.response.None? || c.credentialExpiresAt == 0 {
          return Err(BootTrustReplayRejected);
        }
        return Ok((Release(challengeId, c.response.value, c.credentialExpiresAt), true));
      }
      var fault := CheckProof(tx, i, c, signature, now);
      if fault.Some? {
        return Err(fault.value);
      }
      ProvedIsSpecified(tx, i, c, signature, now);
      var expiry, cipher := now + CREDENTIAL_TTL, Oaep(c.body.fingerprint, secret);
      var credential := Credential(tx.specs[i].credentialId, Sha256(secret), now, expiry, 0, 0);
      var inserted :- InsertCredential(tx, i, credential);
      var used := c.(usedAt := now, response := Some(cipher), credentialExpiresAt := expiry);
      Commit(inserted.(challenges := inserted.challenges[challengeId := used]));
      return Ok((Release(challengeId, cipher, expiry), false));
    }

    // -------------------------------------------------------------------------
    // Credentials
    // -------------------------------------------------------------------------

    /** AuthenticateLifecycleCredential: a read, then an update by credential ID; no transaction spans the two. */
    method AuthenticateLifecycleCredential(i: Id, secret: nat, now: Instant) returns (r: Result<Unit>)
      requires Valid()
      modifies this
      ensures Valid()
      ensures var checked := CheckSecret(old(State()), i, secret, now);
        if checked.Ok? then r == Ok(Unit) && State() == Touched(old(State()), ById(checked.value), now)
        else r == Err(checked.fault) && State() == old(State())
      ensures r.Ok? <==> Opens(old(State()), i, ControlPlane.Bearer(secret), now)
    {
      hide Inv, Evolves, State, Touched, Opens;
      var db := State();
      SecretCheckOpens(db, i, secret, now);
      if i !in db.credentials || db.credentials[i].verifier != Sha256(secret) {
        return Err(CredentialInvalid);
      }
      var item := db.credentials[i];
      if !ActiveCredential(item, now) {
        return Err(CredentialExpired);
      }
      Touch(ById(item.id), now);
      return Ok(Unit);
    }

    /** The update of last_used_at. */
    method Touch(touch: Touch, now: Instant)
      requires Valid()
      modifies this
      ensures Valid() && State() == Touched(old(State()), touch, now)
    {
      hide Inv, Evolves, TouchedRows;
      assert Inv(Touched(State(), touch, now)) by {
        TouchedStep(State(), touch, now);
      }
      credentials := TouchedRows(credentials, touch, now);
    }

    /** VerifyLifecycleMAC: a read, then an update by installation; no transaction spans the two. */
    method VerifyLifecycleMAC(i: Id, request: Canonical.Request, mac: Hmac, now: Instant) returns (r: Result<Unit>)
      requires Valid()
      modifies this
      ensures Valid()
      ensures var checked := CheckMac(old(State()), i, request, mac, now);
        if checked.Ok? then r == Ok(Unit) && State() == Touched(old(State()), ByInstallation(i), now)
        else r == checked && State() == old(State())
      ensures r.Ok? <==> Opens(old(State()), i, ControlPlane.SignedRequest(request, mac), now)
    {
      hide Inv, Evolves, State, Touched, Canonical.Telemetry, Opens;
      var db, canonical := State(), Canonical.Telemetry(request);
      MacCheckOpens(db, i, request, mac, now);
      if canonical.None? {
        return Err(CredentialInvalid);
      }
      if request.unixSeconds * SECOND < now - CLOCK_SKEW || request.unixSeconds * SECOND > now + CLOCK_SKEW {
        return Err(CredentialExpired);
      }
      if i !in db.credentials {
        return Err(CredentialRequired);
      }
      var item := db.credentials[i];
      if item.revokedAt != 0 || item.expiresAt <= now {
        return Err(CredentialExpired);
      }
      if mac != Hmac(item.verifier, canonical.value) {
        return Err(CredentialInvalid);
      }
      Touch(ByInstallation(i), now);
      return Ok(Unit);
    }

    method RevokeLifecycleCredential(i: Id, actor: string, now: Instant) returns (r: Result<Unit>)
      requires Valid()
      modifies this
      ensures Valid() && Tx(State(), r) == RevokeCredential(old(State()), i, actor, now)
    {
      hide Inv, Evolves, State, Blank;
      var db := State();
      assert Inv(RevokeCredential(db, i, actor, now).db) by {
        RevokeCredentialIsSound(db, i, actor, now);
      }
      if Blank(actor) {
        return Err(TelemetryInvalid);
      }
      if i !in db.credentials || db.credentials[i].revokedAt != 0 {
        return Err(CredentialInvalid);
      }
      Commit(db.(credentials := db.credentials[i := db.credentials[i].(revokedAt := now)]));
      return Ok(Unit);
    }

    // -------------------------------------------------------------------------
    // Telemetry
    // -------------------------------------------------------------------------

    method AppendLifecycleEvent(
      i: Id, report: Report, requestId: string, now: Instant) returns (r: Result<(Event, bool)>)
      requires Valid()
      modifies this
      ensures Tx(State(), r) == AppendEvent(old(State()), i, report, requestId, now)
      ensures Entitled(old(State()), i, report.source) ==> Valid()
    {
      hide Inv, Evolves, State, Entitled, ValidReport, InsertEvent, FindEvent;
      var tx := State();
      assert Entitled(tx, i, report.source) ==> Inv(AppendEvent(tx, i, report, requestId, now).db) by {
        if Entitled(tx, i, report.source) {
          AppendEventIsSound(tx, i, report, requestId, now);
        }
      }
      if !ValidReport(report) {
        return Err(TelemetryInvalid);
      }
      if i !in tx.specs {
        return Err(InstallationNotFound);
      }
      var existing := LookupEvent(EventsOf(tx, i), report.key);
      if existing.Some? {
        if existing.value.report != report {
          return Err(TelemetryConflict);
        }
        return Ok((existing.value, true));
      }
      if !CanAdvance(CurrentStage(tx, i), report.stage) {
        return Err(TelemetryConflict);
      }
      var event := Event(report, now, requestId);
      tx :- InsertEvent(tx, i, event);
      if Terminal(report.stage) {
        if i in tx.credentials && tx.credentials[i].revokedAt == 0 {
          tx := tx.(credentials := tx.credentials[i := tx.credentials[i].(revokedAt := now)]);
        }
      }
      Commit(tx);
      return Ok((event, false));
    }

    method AppendInstallationLogChunk(
      i: Id, raw: ChunkInput, requestId: string, now: Instant) returns (r: Result<(Chunk, bool)>)
      requires Valid()
      modifies this
      ensures Valid() && Tx(State(), r) == AppendChunk(old(State()), i, raw, requestId, now)
    {
      hide Inv, Evolves, State, ValidChunk, InsertChunk, FindChunk, LastSequence, TotalBytes, Redaction.Redact;
      var tx := State();
      assert Inv(AppendChunk(tx, i, raw, requestId, now).db) by {
        AppendChunkIsSound(tx, i, raw, requestId, now);
      }
      var content := Redaction.RedactLogContent(raw.content);
      var input := raw.(content := content);
      if !ValidChunk(input) {
        return Err(TelemetryInvalid);
      }
      if i !in tx.specs {
        return Err(InstallationNotFound);
      }
      var stored := ChunksOf(tx, i);
      var existing := LookupChunk(stored, input.key);
      if existing.Some? {
        if existing.value.input != input {
          return Err(TelemetryConflict);
        }
        return Ok((existing.value, true));
      }
      var last, bytes := Totals(stored);
      if input.sequence != last + 1 {
        return Err(TelemetryConflict);
      }
      if bytes + |input.content| > MAX_INSTALLATION_LOG {
        return Err(LogLimitExceeded);
      }
      var chunk := Chunk(input, now, requestId);
      tx :- InsertChunk(tx, i, chunk);
      Commit(tx);
      return Ok((chunk, false));
    }

    /** SELECT ... WHERE installation_id=? AND idempotency_key=? */
    static method LookupChunk(chunks: seq<Chunk>, key: string) returns (r: Option<Chunk>)
      ensures r == FindChunk(chunks, key)
    {
      for k := 0 to |chunks|
        invariant FindChunk(chunks, key) == FindChunk(chunks[k..], key)
      {
        if chunks[k].input.key == key {
          return Some(chunks[k]);
        }
        assert chunks[k..][1..] == chunks[k + 1..];
      }
      return None;
    }

    /** The aggregates MAX(sequence) and SUM(length(content)). */
    static method Totals(chunks: seq<Chunk>) returns (last: int, bytes: nat)
      ensures last == LastSequence(chunks) && bytes == TotalBytes(chunks)
    {
      last, bytes := 0, 0;
      for k := 0 to |chunks|
        invariant last == LastSequence(chunks[..k]) && bytes == TotalBytes(chunks[..k])
      {
        assert chunks[..k + 1][..k] == chunks[..k];
        if last < chunks[k].input.sequence {
          last := chunks[k].input.sequence;
        }
        bytes := bytes + |chunks[k].input.content|;
      }
      assert chunks[..|chunks|] == chunks;
    }

    // -------------------------------------------------------------------------
    // Deletion
    // -------------------------------------------------------------------------

    method RemoveInstallation(i: Id, actor: string) returns (r: Result<Unit>)
      requires Valid()
      modifies this
      ensures Valid() && Tx(State(), r) == DeleteInstallation(old(State()), i, actor)
    {
      hide Inv, Evolves, State, Blank, HasArmed, WithoutDependents, DeleteSpec, DeleteDependents;
      var tx := State();
      assert Inv(DeleteInstallation(tx, i, actor).db) by {
        DeleteInstallationIsSound(tx, i, actor);
      }
      if Blank(actor) {
        return Err(InstallationSpecInvalid);
      }
      if i !in tx.specs {
        return Err(InstallationNotFound);
      }
      if i in tx.assignments && tx.assignments[i].state == Armed {
        return Err(InstallationDeleteConflict);
      }
      tx := ClearDependents(tx, i);
      tx :- DeleteSpec(tx, i);
      Commit(tx);
      return Ok(Unit);
    }

    /** The loop over the statements that delete an installation's rows. */
    static method ClearDependents(tx: Db, i: Id) returns (cleared: Db)
      ensures cleared == WithoutDependents(tx, i)
    {
      cleared := tx;
      for k := 0 to |DEPENDENT_TABLES|
        invariant cleared == Cleared(tx, DEPENDENT_TABLES[..k], i)
      {
        assert DEPENDENT_TABLES[..k + 1][..k] == DEPENDENT_TABLES[..k];
        cleared := DeleteDependents(cleared, DEPENDENT_TABLES[k], i);
      }
      assert DEPENDENT_TABLES[..|DEPENDENT_TABLES|] == DEPENDENT_TABLES;
      AllCleared(tx, i);
    }

    method RemoveMachine(m: Id, actor: string) returns (r: Result<Unit>)
      requires Valid()
      modifies this
      ensures Valid() && Tx(State(), r) == DeleteMachine(old(State()), m, actor)
    {
      hide Inv, Evolves, State, Blank, DeleteKeysOf, DeleteMachineRow;
      var tx := State();
      assert Inv(DeleteMachine(tx, m, actor).db) by {
        DeleteMachineIsSound(tx, m, actor);
      }
      if Blank(actor) {
        return Err(MachineIdentityInvalid);
      }
      if m !in tx.machines {
        return Err(MachineNotFound);
      }
      if exists i | i in tx.specs :: tx.specs[i].machineId == m {
        return Err(MachineDeleteConflict);
      }
      if HasArmed(tx, m) {
        return Err(MachineDeleteConflict);
      }
      tx :- DeleteKeysOf(tx, m);
      tx :- DeleteMachineRow(tx, m);
      Commit(tx);
      return Ok(Unit);
    }
  }

  lemma {:induction false} MatchesOneMore(tx: Db, ids: seq<Identifier>, k: nat)
    requires k < |ids|
    ensures Matches(tx, ids[..k + 1])
      == Matches(tx, ids[..k]) + if ids[k] in tx.identifiers then {tx.identifiers[ids[k]]} else {}
  {
    var longer, shorter := ids[..k + 1], ids[..k];
    assert longer[k] == ids[k];
    assert forall j :: 0 <= j < k ==> longer[j] == shorter[j];
  }

  lemma {:induction false} IsStored(tx: Db, i: Id)
    requires ReadAssignment(tx, i).Ok?
    ensures i in tx.assignments && ReadAssignment(tx, i).value == tx.assignments[i]
  {
  }

  lemma {:induction false} ProvedIsSpecified(tx: Db, i: Id, c: Challenge, signature: Signature, now: Instant)
    requires ProofFault(tx, i, c, signature, now).None?
    ensures i in tx.specs
  {
  }

  /** The tables in the order in which they are emptied. */
  ghost function Cleared(db: Db, tables: seq<Table>, i: Id): Db {
    if tables == [] then db
    else DeleteDependents(Cleared(db, tables[..|tables| - 1], i), tables[|tables| - 1], i)
  }

  lemma {:induction false} ClearedOne(db: Db, tables: seq<Table>, t: Table, i: Id)
    ensures Cleared(db, tables + [t], i) == DeleteDependents(Cleared(db, tables, i), t, i)
  {
    assert (tables + [t])[..|tables|] == tables;
  }

  lemma {:induction false} AllCleared(db: Db, i: Id)
    ensures Cleared(db, DEPENDENT_TABLES, i) == WithoutDependents(db, i)
  {
    hide Cleared;
    assert Cleared(db, [], i) == db by { ClearedNone(db, i); }
    ClearedOne(db, [], Challenges, i);
    ClearedOne(db, [Challenges], LogChunks, i);
    ClearedOne(db, [Challenges, LogChunks], LifecycleEvents, i);
    ClearedOne(db, [Challenges, LogChunks, LifecycleEvents], Credentials, i);
    ClearedOne(db, [Challenges, LogChunks, LifecycleEvents, Credentials], Assignments, i);
    assert [] + [Challenges] == [Challenges];
    assert [Challenges] + [LogChunks] == [Challenges, LogChunks];
    assert [Challenges, LogChunks] + [LifecycleEvents] == [Challenges, LogChunks, LifecycleEvents];
    assert [Challenges, LogChunks, LifecycleEvents] + [Credentials] == [Challenges, LogChunks, LifecycleEvents, Credentials];
    assert [Challenges, LogChunks, LifecycleEvents, Credentials] + [Assignments] == DEPENDENT_TABLES;
  }

  lemma {:induction false} ClearedNone(db: Db, i: Id)
    ensures Cleared(db, [], i) == db
  {
  }
}
