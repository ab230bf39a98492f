/** Boot-trust keys, challenges and credentials, and deletions. */
module TrustSteps {
  import opened Prelude
  import opened Text
  import opened Lifecycle
  import opened Records
  import opened Schema
  import opened Transactions
  import opened StoreInvariant
  import opened StoreSteps
  import opened TelemetrySteps
  import Canonical

  // ---------------------------------------------------------------------------
  // Keys
  // ---------------------------------------------------------------------------

  ghost function WithKey(db: Db, f: Fingerprint, row: BootKey): Db {
    db.(keys := db.keys[f := row])
  }

  /** A row that may be written for a fingerprint without breaking a constraint. */
  ghost predicate KeyFits(db: Db, f: Fingerprint, row: BootKey) {
    && row.machineId in db.machines && row.pem.valid && row.pem.key == f
    && (f in db.keys ==> db.keys[f].machineId == row.machineId)
    && (row.state == KeyApproved ==> (f in db.keys && db.keys[f].state == KeyApproved) || !HasApproved(db, row.machineId))
  }

  lemma {:induction false} KeyTables(db: Db, f: Fingerprint, row: BootKey)
    requires KeysSound(db.keys, db.machines.Keys) && ChallengesSound(db.challenges, db.specs, db.keys) && KeyFits(db, f, row)
    ensures KeysSound(db.keys[f := row], db.machines.Keys) && ChallengesSound(db.challenges, db.specs, db.keys[f := row])
  {
    var keys := db.keys[f := row];
    forall g, h | g in keys && h in keys && g != h && keys[g].state == KeyApproved && keys[h].state == KeyApproved
      ensures keys[g].machineId != keys[h].machineId
    {
      var other := if g == f then h else g;
      assert other in db.keys && keys[other] == db.keys[other];
    }
  }

  lemma {:induction false} KeyStep(db: Db, f: Fingerprint, row: BootKey)
    requires Inv(db) && KeyFits(db, f, row) && (f in db.keys ==> KeyEvolves(db.keys[f], row))
    ensures Inv(WithKey(db, f, row)) && Evolves(db, WithKey(db, f, row))
  {
    hide Histories, TrustSound, AssignmentsSound, ChallengesSound, KeysSound, IdsDrawn, SpecsOwned, Logs, KeyFits;
    KeyTables(db, f, row);
  }

  lemma {:induction false} StoredKeyFits(db: Db, f: Fingerprint)
    requires KeysSound(db.keys, db.machines.Keys) && f in db.keys
    ensures db.keys[f].machineId in db.machines && db.keys[f].pem.valid && db.keys[f].pem.key == f
  {
  }

  lemma {:induction false} RegisterKeyIsSound(db: Db, i: Id, pem: PublicKey, ek: string, now: Instant)
    requires Inv(db)
    ensures var tx := RegisterKey(db, i, pem, ek, now);
      && Sound(db, tx) && tx.result != Err(StorageFailure) && (tx.result.Err? ==> tx.db == db)
      && (tx.result.Ok? ==> tx.db == WithKey(db, pem.key, tx.result.value.0))
      && (tx.result.Ok? && pem.key !in db.keys ==> tx.result.value.0.state == KeyPending)
      && (tx.result.Ok? && pem.key in db.keys ==>
            tx.result.value.0 == db.keys[pem.key].(lastSeenAt := now, ek := tx.result.value.0.ek))
  {
    var tx := RegisterKey(db, i, pem, ek, now);
    hide Histories, TrustSound, AssignmentsSound, ChallengesSound, KeysSound, IdsDrawn, SpecsOwned, Logs, Evolves;
    hide ValidEk, HasApproved;
    EvolvesStays(db);
    if tx.result.Ok? {
      if pem.key in db.keys {
        StoredKeyFits(db, pem.key);
      }
      KeyStep(db, pem.key, tx.result.value.0);
    }
  }

  lemma {:induction false} ApproveKeyAnswers(db: Db, m: Id, f: Fingerprint, actor: string, now: Instant)
    ensures var tx := ApproveKey(db, m, f, actor, now);
      && tx.result != Err(StorageFailure) && (tx.result.Err? ==> tx.db == db)
      && (tx.result.Ok? <==>
            && !Blank(actor) && KeyOf(db, m, f) && db.keys[f].state != KeyRevoked
            && (db.keys[f].state == KeyApproved || !HasApproved(db, m)))
      && (tx.result.Ok? ==> tx.result.value.state == KeyApproved && tx.db == WithKey(db, f, tx.result.value))
      && (tx.result.Ok? && db.keys[f].state != KeyApproved ==>
            && db.keys[f].state == KeyPending
            && tx.result.value == db.keys[f].(state := KeyApproved, approvedAt := now, approvedBy := Trim(actor)))
  {
    hide HasApproved, Blank, Trim;
    if f in db.keys {
      assert db.keys[f := db.keys[f]] == db.keys;
    }
  }

  /** Approval succeeds exactly on a key that is not revoked, unless another key of the machine is approved. */
  lemma {:induction false} ApproveKeyIsSound(db: Db, m: Id, f: Fingerprint, actor: string, now: Instant)
    requires Inv(db)
    ensures var tx := ApproveKey(db, m, f, actor, now);
      && Sound(db, tx) && tx.result != Err(StorageFailure) && (tx.result.Err? ==> tx.db == db)
      && (tx.result.Ok? <==>
            && !Blank(actor) && KeyOf(db, m, f) && db.keys[f].state != KeyRevoked
            && (db.keys[f].state == KeyApproved || !HasApproved(db, m)))
      && (tx.result.Ok? ==> tx.result.value.state == KeyApproved && tx.db == WithKey(db, f, tx.result.value))
  {
    hide Histories, TrustSound, AssignmentsSound, ChallengesSound, KeysSound, IdsDrawn, SpecsOwned, Logs, Evolves;
    hide HasApproved, ApproveKey, Blank, Trim;
    var tx := ApproveKey(db, m, f, actor, now);
    ApproveKeyAnswers(db, m, f, actor, now);
    EvolvesStays(db);
    if tx.result.Ok? {
      if db.keys[f].state == KeyApproved {
        ApprovedStays(db, m, f, actor, now);
      } else {
        StoredKeyFits(db, f);
        KeyStep(db, f, tx.result.value);
      }
    }
  }

  lemma {:induction false} ApprovedStays(db: Db, m: Id, f: Fingerprint, actor: string, now: Instant)
    requires f in db.keys && db.keys[f].state == KeyApproved
    ensures ApproveKey(db, m, f, actor, now).db == db
  {
    hide Blank;
  }

  lemma {:induction false} RevokeKeyAnswers(db: Db, m: Id, f: Fingerprint, actor: string, now: Instant)
    ensures var tx := RevokeKey(db, m, f, actor, now);
      && tx.result != Err(StorageFailure) && (tx.result.Err? ==> tx.db == db)
      && (tx.result.Ok? <==> KeyOf(db, m, f))
      && (tx.result.Ok? ==> tx.result.value.state == KeyRevoked && tx.db == WithKey(db, f, tx.result.value))
      && (tx.result.Ok? ==>
            if db.keys[f].state == KeyRevoked then tx.db == db
            else tx.result.value == db.keys[f].(state := KeyRevoked, revokedAt := now, revokedBy := Trim(actor)))
  {
    hide HasApproved, Trim;
    if f in db.keys {
      assert db.keys[f := db.keys[f]] == db.keys;
    }
  }

  /** Revocation succeeds exactly on the keys of the machine, whatever their state. */
  lemma {:induction false} RevokeKeyIsSound(db: Db, m: Id, f: Fingerprint, actor: string, now: Instant)
    requires Inv(db)
    ensures var tx := RevokeKey(db, m, f, actor, now);
      && Sound(db, tx) && tx.result != Err(StorageFailure) && (tx.result.Err? ==> tx.db == db)
      && (tx.result.Ok? <==> KeyOf(db, m, f))
      && (tx.result.Ok? ==> tx.result.value.state == KeyRevoked && tx.db == WithKey(db, f, tx.result.value))
  {
    hide Histories, TrustSound, AssignmentsSound, ChallengesSound, KeysSound, IdsDrawn, SpecsOwned, Logs, Evolves;
    hide HasApproved, RevokeKey, Trim;
    var tx := RevokeKey(db, m, f, actor, now);
    RevokeKeyAnswers(db, m, f, actor, now);
    EvolvesStays(db);
    if tx.result.Ok? && db.keys[f].state != KeyRevoked {
      StoredKeyFits(db, f);
      KeyStep(db, f, tx.result.value);
    }
  }

  // ---------------------------------------------------------------------------
  // Challenges
  // ---------------------------------------------------------------------------

  ghost function WithChallenge(db: Db, row: Challenge): Db {
    db.(nextId := db.nextId + 1, challenges := db.challenges[row.body.id := row])
  }

  lemma {:induction false} ChallengeTables(db: Db, row: Challenge)
    requires IdsDrawn(db.nextId, db.machines.Keys, db.specs.Keys, db.challenges.Keys, db.assignments)
    requires ChallengesSound(db.challenges, db.specs, db.keys)
    requires TrustSound(db.challenges, db.credentials, db.assignments.Keys, db.specs)
    requires ChallengeFits(row.body, db.nextId, db.specs, db.keys) && row.usedAt == 0
    ensures var b := WithChallenge(db, row);
      && IdsDrawn(b.nextId, b.machines.Keys, b.specs.Keys, b.challenges.Keys, b.assignments)
      && ChallengesSound(b.challenges, b.specs, b.keys)
      && TrustSound(b.challenges, b.credentials, b.assignments.Keys, b.specs)
  {
    hide ChallengeFits, CredentialFits, Answers;
    var b := WithChallenge(db, row);
    assert row.body.id == db.nextId by { FitsId(row.body, db.nextId, db.specs, db.keys); }
    assert forall c, i :: UsedFor(b.challenges, c, i) <==> UsedFor(db.challenges, c, i);
  }

  lemma {:induction false} FitsId(body: ChallengeBody, c: Id, specs: map<Id, Spec>, keys: map<Fingerprint, BootKey>)
    requires ChallengeFits(body, c, specs, keys)
    ensures body.id == c
  {
  }

  lemma {:induction false} ChallengeEvolvesStep(db: Db, row: Challenge)
    requires row.body.id == db.nextId && db.nextId !in db.challenges
    ensures Evolves(db, WithChallenge(db, row))
  {
  }

  lemma {:induction false} ChallengeStep(db: Db, row: Challenge)
    requires Inv(db) && ChallengeFits(row.body, db.nextId, db.specs, db.keys) && row.usedAt == 0
    ensures Inv(WithChallenge(db, row)) && Evolves(db, WithChallenge(db, row))
  {
    assert db.nextId !in db.challenges;
    hide Histories, TrustSound, AssignmentsSound, ChallengesSound, KeysSound, IdsDrawn, SpecsOwned, Logs, Evolves;
    hide ChallengeFits;
    FitsId(row.body, db.nextId, db.specs, db.keys);
    ChallengeTables(db, row);
    ChallengeEvolvesStep(db, row);
  }

  lemma {:induction false} CreateChallengeCommits(db: Db, i: Id, f: Fingerprint, nonce: nat, now: Instant)
    requires db.nextId !in db.challenges
    ensures var tx := CreateChallenge(db, i, f, nonce, now);
      && tx.result != Err(StorageFailure)
      && (tx.result.Err? ==> tx.db == db)
      && (tx.result.Ok? ==>
            && tx.db == WithChallenge(db, tx.result.value) && tx.result.value.usedAt == 0
            && ChallengeFits(tx.result.value.body, db.nextId, db.specs, db.keys)
            && i in db.assignments && tx.result.value.body.installationId == i)
  {
  }

  lemma {:induction false} CreateChallengeIsSound(db: Db, i: Id, f: Fingerprint, nonce: nat, now: Instant)
    requires Inv(db)
    ensures var tx := CreateChallenge(db, i, f, nonce, now);
      Sound(db, tx) && tx.result != Err(StorageFailure) && (tx.result.Err? ==> tx.db == db)
  {
    assert db.nextId !in db.challenges;
    hide Inv, Evolves, CreateChallenge, ChallengeFits, WithChallenge;
    CreateChallengeCommits(db, i, f, nonce, now);
    EvolvesStays(db);
    var tx := CreateChallenge(db, i, f, nonce, now);
    if tx.result.Ok? {
      ChallengeStep(db, tx.result.value);
    }
  }

  // ---------------------------------------------------------------------------
  // Proofs
  // ---------------------------------------------------------------------------

  ghost predicate CredentialIdTaken(db: Db, i: Id)
    requires i in db.specs
  {
    exists j | j in db.credentials :: db.credentials[j].id == db.specs[i].credentialId
  }

  ghost function WithProof(db: Db, i: Id, c: Id, credential: Credential, used: Challenge): Db {
    db.(credentials := db.credentials[i := credential], challenges := db.challenges[c := used])
  }

  ghost predicate ProofFits(db: Db, i: Id, c: Id, credential: Credential, used: Challenge) {
    && c in db.challenges && db.challenges[c].usedAt == 0 && db.challenges[c].body.installationId == i
    && i in db.specs && i in db.assignments && i !in db.credentials && !CredentialIdTaken(db, i)
    && used.body == db.challenges[c].body && used.expiresAt == db.challenges[c].expiresAt && used.usedAt != 0
    && CredentialFits(credential, db.specs[i]) && Answers(used, credential)
  }

  lemma {:induction false} ProofTrust(db: Db, i: Id, c: Id, credential: Credential, used: Challenge)
    requires TrustSound(db.challenges, db.credentials, db.assignments.Keys, db.specs)
    requires ProofFits(db, i, c, credential, used)
    ensures var b := WithProof(db, i, c, credential, used);
      TrustSound(b.challenges, b.credentials, b.assignments.Keys, b.specs)
  {
    var b := WithProof(db, i, c, credential, used);
    assert CredentialFits(credential, db.specs[i]) && Answers(used, credential);
    hide CredentialFits, Answers;
    assert UsedFor(b.challenges, c, i);
    assert forall d, j :: UsedFor(b.challenges, d, j) <==> UsedFor(db.challenges, d, j) || (d == c && j == i);
    assert forall d :: !UsedFor(db.challenges, d, i);
    assert forall j | j in b.credentials :: j != i ==> j in db.credentials && b.credentials[j] == db.credentials[j];
    assert forall j | j in db.credentials :: db.credentials[j].id != credential.id by {
      assert credential.id == db.specs[i].credentialId by { FitsCredentialId(credential, db.specs[i]); }
    }
  }

  lemma {:induction false} FitsCredentialId(credential: Credential, spec: Spec)
    requires CredentialFits(credential, spec)
    ensures credential.id == spec.credentialId
  {
  }

  lemma {:induction false} ProofHistories(db: Db, i: Id, credential: Credential)
    requires Histories(db.events, db.specs.Keys, db.assignments.Keys, db.credentials) && i !in db.credentials
    ensures Histories(db.events, db.specs.Keys, db.assignments.Keys, db.credentials[i := credential])
  {
    hide History;
    var after := db.credentials[i := credential];
    forall j | j in db.events
      ensures History(j, db.events[j]) && Coupled(j, db.events[j], db.assignments.Keys, after)
    {
      assert Coupled(j, db.events[j], db.assignments.Keys, db.credentials);
    }
  }

  lemma {:induction false} ProofChallenges(db: Db, i: Id, c: Id, credential: Credential, used: Challenge)
    requires ChallengesSound(db.challenges, db.specs, db.keys) && ProofFits(db, i, c, credential, used)
    ensures ChallengesSound(db.challenges[c := used], db.specs, db.keys)
    ensures db.challenges[c := used].Keys == db.challenges.Keys
    ensures i !in db.credentials
    ensures Evolves(db, WithProof(db, i, c, credential, used))
  {
    hide ChallengeFits, CredentialIdTaken, CredentialFits, Answers;
  }

  lemma {:induction false} ProofStep(db: Db, i: Id, c: Id, credential: Credential, used: Challenge)
    requires Inv(db) && ProofFits(db, i, c, credential, used)
    ensures Inv(WithProof(db, i, c, credential, used)) && Evolves(db, WithProof(db, i, c, credential, used))
  {
    hide Histories, TrustSound, AssignmentsSound, ChallengesSound, KeysSound, IdsDrawn, SpecsOwned, Logs, Evolves;
    hide ProofFits;
    ProofTrust(db, i, c, credential, used);
    ProofChallenges(db, i, c, credential, used);
    ProofHistories(db, i, credential);
  }

  ghost function UsedChallenge(c: Challenge, secret: nat, now: Instant): Challenge {
    c.(usedAt := now, response := Some(Oaep(c.body.fingerprint, secret)), credentialExpiresAt := now + CREDENTIAL_TTL)
  }

  ghost function NewCredential(db: Db, i: Id, secret: nat, now: Instant): Credential
    requires i in db.specs
  {
    Credential(db.specs[i].credentialId, Sha256(secret), now, now + CREDENTIAL_TTL, 0, 0)
  }

  /** A challenge that this installation may answer. */
  ghost predicate Addressed(db: Db, i: Id, c: Id, signature: Signature) {
    signature.Signed? && c in db.challenges && db.challenges[c].body.installationId == i
  }

  /** A proof of an unused challenge commits the credential and the used challenge together; the schema refuses it
      exactly when the credential ID of the installation is taken by another one. */
  lemma {:induction false} FirstProof(db: Db, i: Id, c: Id, signature: Signature, secret: nat, now: Instant)
    requires Addressed(db, i, c, signature) && db.challenges[c].usedAt == 0
    requires ProofFault(db, i, db.challenges[c], signature, now).None?
    ensures i in db.specs
    ensures Complete(db, i, c, signature, secret, now)
      == if CredentialIdTaken(db, i) then Tx(db, Err(StorageFailure))
         else Tx(WithProof(db, i, c, NewCredential(db, i, secret, now), UsedChallenge(db.challenges[c], secret, now)),
                 Ok((Release(c, Oaep(db.challenges[c].body.fingerprint, secret), now + CREDENTIAL_TTL), false)))
    ensures !CredentialIdTaken(db, i)
      ==> ProofFits(db, i, c, NewCredential(db, i, secret, now), UsedChallenge(db.challenges[c], secret, now))
  {
  }

  /** A used challenge has a stored response, so the refusal of one without a reusable response is never reached. */
  lemma {:induction false} UsedChallengeAnswers(db: Db, i: Id, c: Id, signature: Signature, secret: nat, now: Instant)
    requires Inv(db) && Addressed(db, i, c, signature) && db.challenges[c].usedAt != 0
    ensures db.challenges[c].response.Some? && db.challenges[c].credentialExpiresAt != 0
    ensures Complete(db, i, c, signature, secret, now)
      == Tx(db, Ok((Release(c, db.challenges[c].response.value, db.challenges[c].credentialExpiresAt), true)))
  {
    UsedHasResponse(db, i, c);
    hide Inv;
  }

  lemma {:induction false} UsedHasResponse(db: Db, i: Id, c: Id)
    requires TrustSound(db.challenges, db.credentials, db.assignments.Keys, db.specs) && UsedFor(db.challenges, c, i)
    ensures db.challenges[c].response.Some? && db.challenges[c].credentialExpiresAt != 0
    ensures i in db.credentials && i in db.assignments && i in db.specs
    ensures db.challenges[c].credentialExpiresAt == db.credentials[i].expiresAt
  {
    assert Answers(db.challenges[c], db.credentials[i]);
    assert CredentialFits(db.credentials[i], db.specs[i]);
  }

  lemma {:induction false} CompleteRefused(db: Db, i: Id, c: Id, signature: Signature, secret: nat, now: Instant)
    requires !Addressed(db, i, c, signature)
      || (db.challenges[c].usedAt == 0 && ProofFault(db, i, db.challenges[c], signature, now).Some?)
    ensures var tx := Complete(db, i, c, signature, secret, now);
      tx.db == db && tx.result.Err? && tx.result != Err(StorageFailure)
  {
  }

  ghost predicate FirstUse(db: Db, i: Id, c: Id, signature: Signature, now: Instant) {
    && Addressed(db, i, c, signature) && db.challenges[c].usedAt == 0
    && ProofFault(db, i, db.challenges[c], signature, now).None?
  }

  lemma {:induction false} CompleteIsSound(db: Db, i: Id, c: Id, signature: Signature, secret: nat, now: Instant)
    requires Inv(db)
    ensures var tx := Complete(db, i, c, signature, secret, now);
      && Sound(db, tx)
      && (tx.result == Err(StorageFailure) <==> FirstUse(db, i, c, signature, now) && i in db.specs && CredentialIdTaken(db, i))
      && (tx.result.Err? ==> tx.db == db)
      && (tx.result.Ok? ==> ReleasedBy(tx.db, i, tx.result.value.0))
  {
    hide Inv, Evolves, Complete, ProofFault, ProofFits, CredentialIdTaken, WithProof;
    EvolvesStays(db);
    if FirstUse(db, i, c, signature, now) {
      FirstProof(db, i, c, signature, secret, now);
      if !CredentialIdTaken(db, i) {
        ProofStep(db, i, c, NewCredential(db, i, secret, now), UsedChallenge(db.challenges[c], secret, now));
        ProofReleases(db, i, c, NewCredential(db, i, secret, now), UsedChallenge(db.challenges[c], secret, now));
      }
    } else if Addressed(db, i, c, signature) && db.challenges[c].usedAt != 0 {
      UsedChallengeAnswers(db, i, c, signature, secret, now);
    } else {
      CompleteRefused(db, i, c, signature, secret, now);
    }
  }

  /** The stored row of a used challenge is what was released for the installation. */
  ghost predicate ReleasedBy(db: Db, i: Id, r: Release) {
    && UsedFor(db.challenges, r.challengeId, i)
    && db.challenges[r.challengeId].response == Some(r.ciphertext)
    && db.challenges[r.challengeId].credentialExpiresAt == r.credentialExpiry
  }

  lemma {:induction false} ProofReleases(db: Db, i: Id, c: Id, credential: Credential, used: Challenge)
    requires ProofFits(db, i, c, credential, used)
    ensures used.response.Some?
    ensures ReleasedBy(WithProof(db, i, c, credential, used), i, Release(c, used.response.value, used.credentialExpiresAt))
  {
  }

  /** One installation, one release: what any two successful proofs were answered with is the same. */
  lemma {:induction false} ReleaseIsUnique(db: Db, i: Id, r: Release, s: Release)
    requires TrustSound(db.challenges, db.credentials, db.assignments.Keys, db.specs)
    requires ReleasedBy(db, i, r) && ReleasedBy(db, i, s)
    ensures r == s
  {
  }

  /** A release stays on record for as long as the installation exists. */
  lemma {:induction false} ReleaseStays(a: Db, b: Db, i: Id, r: Release)
    requires Evolves(a, b) && ReleasedBy(a, i, r) && i in b.specs
    ensures ReleasedBy(b, i, r)
  {
  }

  // ---------------------------------------------------------------------------
  // Deletion
  // ---------------------------------------------------------------------------

  ghost function WithoutInstallation(db: Db, i: Id): Db {
    WithoutDependents(db, i).(specs := db.specs - {i})
  }

  lemma {:induction false} DeletedTables(db: Db, i: Id)
    requires IdsDrawn(db.nextId, db.machines.Keys, db.specs.Keys, db.challenges.Keys, db.assignments)
    requires AssignmentsSound(db.assignments, db.specs) && ChallengesSound(db.challenges, db.specs, db.keys)
    requires SpecsOwned(db.specs, db.machines.Keys) && Logs(db.chunks, db.specs.Keys)
    ensures var b := WithoutInstallation(db, i);
      && IdsDrawn(b.nextId, b.machines.Keys, b.specs.Keys, b.challenges.Keys, b.assignments)
      && AssignmentsSound(b.assignments, b.specs) && ChallengesSound(b.challenges, b.specs, b.keys)
      && SpecsOwned(b.specs, b.machines.Keys) && Logs(b.chunks, b.specs.Keys)
  {
    hide Log, Apart;
  }

  /** Taking away everything of one installation leaves the pairs of challenges and credentials of the others. */
  lemma {:induction false} TrustRestricts(
    challenges: map<Id, Challenge>, credentials: map<Id, Credential>, withAssignment: set<Id>, specs: map<Id, Spec>, i: Id,
    challenges': map<Id, Challenge>, credentials': map<Id, Credential>, withAssignment': set<Id>, specs': map<Id, Spec>)
    requires TrustSound(challenges, credentials, withAssignment, specs)
    requires forall c :: c in challenges' <==> c in challenges && challenges[c].body.installationId != i
    requires forall c | c in challenges' :: challenges'[c] == challenges[c]
    requires forall j :: j in credentials' <==> j in credentials && j != i
    requires forall j | j in credentials' :: credentials'[j] == credentials[j]
    requires forall j | j in withAssignment && j != i :: j in withAssignment'
    requires forall j | j in specs && j != i :: j in specs' && specs'[j] == specs[j]
    ensures TrustSound(challenges', credentials', withAssignment', specs')
  {
    hide CredentialFits, Answers;
    assert forall c, j :: UsedFor(challenges', c, j) <==> UsedFor(challenges, c, j) && j != i;
    forall j | j in credentials' ensures exists c :: UsedFor(challenges', c, j) {
      var c :| UsedFor(challenges, c, j);
      assert UsedFor(challenges', c, j);
    }
  }

  lemma {:induction false} DeletedTrust(db: Db, i: Id)
    requires TrustSound(db.challenges, db.credentials, db.assignments.Keys, db.specs)
    ensures var b := WithoutInstallation(db, i);
      TrustSound(b.challenges, b.credentials, b.assignments.Keys, b.specs)
  {
    hide TrustSound;
    var b := WithoutInstallation(db, i);
    TrustRestricts(db.challenges, db.credentials, db.assignments.Keys, db.specs, i,
                   b.challenges, b.credentials, b.assignments.Keys, b.specs);
  }

  lemma {:induction false} DeletedHistories(db: Db, i: Id)
    requires Histories(db.events, db.specs.Keys, db.assignments.Keys, db.credentials)
    ensures var b := WithoutInstallation(db, i);
      Histories(b.events, b.specs.Keys, b.assignments.Keys, b.credentials)
  {
    hide History;
    var b := WithoutInstallation(db, i);
    assert b.events.Keys == b.specs.Keys;
    forall j | j in b.events ensures History(j, b.events[j]) && Coupled(j, b.events[j], b.assignments.Keys, b.credentials) {
      assert j in db.events && j != i && b.events[j] == db.events[j];
      assert Coupled(j, db.events[j], db.assignments.Keys, db.credentials);
    }
  }

  lemma {:induction false} DeletedEvolves(db: Db, i: Id)
    ensures Evolves(db, WithoutInstallation(db, i))
  {
  }

  lemma {:induction false} DeletedStep(db: Db, i: Id)
    requires Inv(db)
    ensures Inv(WithoutInstallation(db, i)) && Evolves(db, WithoutInstallation(db, i))
  {
    hide Histories, TrustSound, AssignmentsSound, ChallengesSound, KeysSound, IdsDrawn, SpecsOwned, Logs, Evolves;
    DeletedTables(db, i);
    DeletedTrust(db, i);
    DeletedHistories(db, i);
    DeletedEvolves(db, i);
  }

  lemma {:induction false} DeletedArmed(db: Db, i: Id)
    requires i in db.assignments ==> db.assignments[i].state != Armed
    ensures forall m :: HasArmed(WithoutInstallation(db, i), m) <==> HasArmed(db, m)
  {
    var b := WithoutInstallation(db, i);
    forall m ensures HasArmed(b, m) <==> HasArmed(db, m) {
      if j :| j in db.assignments && db.assignments[j].machineId == m && db.assignments[j].state == Armed {
        assert j in b.assignments && b.assignments[j] == db.assignments[j];
      }
    }
  }

  /** The order of the delete statements leaves nothing that refers to the installation. */
  lemma {:induction false} DeleteInstallationCommits(db: Db, i: Id, actor: string)
    ensures DeleteInstallation(db, i, actor)
      == if Blank(actor) then Tx(db, Err(InstallationSpecInvalid))
         else if i !in db.specs then Tx(db, Err(InstallationNotFound))
         else if i in db.assignments && db.assignments[i].state == Armed then Tx(db, Err(InstallationDeleteConflict))
         else Tx(WithoutInstallation(db, i), Ok(Unit))
  {
  }

  lemma {:induction false} DeleteInstallationIsSound(db: Db, i: Id, actor: string)
    requires Inv(db)
    ensures var tx := DeleteInstallation(db, i, actor);
      && Sound(db, tx) && tx.result != Err(StorageFailure)
      && (forall m :: HasArmed(tx.db, m) <==> HasArmed(db, m))
      && (tx.result.Err? ==> tx.db == db) && (tx.result.Ok? ==> tx.db == WithoutInstallation(db, i))
  {
    hide Inv, Evolves, DeleteInstallation, WithoutInstallation, HasArmed;
    DeleteInstallationCommits(db, i, actor);
    EvolvesStays(db);
    DeletedStep(db, i);
    if i in db.specs && !(i in db.assignments && db.assignments[i].state == Armed) {
      DeletedArmed(db, i);
    }
  }

  // --- machines ---

  ghost predicate Installed(db: Db, m: Id) {
    exists i | i in db.specs :: db.specs[i].machineId == m
  }

  ghost function WithoutMachine(db: Db, m: Id): Db {
    db.(keys := map f | f in db.keys && db.keys[f].machineId != m :: db.keys[f],
        machines := db.machines - {m},
        identifiers := map n | n in db.identifiers && db.identifiers[n] != m :: db.identifiers[n])
  }

  /** A machine without installations has no armed assignment, so the second check of DeleteMachine never fires. */
  lemma {:induction false} NoSpecNoClaim(db: Db, m: Id)
    requires AssignmentsSound(db.assignments, db.specs) && ChallengesSound(db.challenges, db.specs, db.keys)
    requires !Installed(db, m)
    ensures !HasArmed(db, m)
    ensures forall i | i in db.assignments :: db.assignments[i].machineId != m
    ensures forall c | c in db.challenges ::
      var b := db.challenges[c].body; b.machineId != m && b.fingerprint in db.keys && db.keys[b.fingerprint].machineId != m
  {
    forall i | i in db.assignments ensures db.assignments[i].machineId != m {
      assert AssignmentFits(db.assignments[i], i, db.specs[i]);
    }
    forall c | c in db.challenges
      ensures var b := db.challenges[c].body; b.machineId != m && b.fingerprint in db.keys && db.keys[b.fingerprint].machineId != m
    {
      assert ChallengeFits(db.challenges[c].body, c, db.specs, db.keys);
    }
  }

  lemma {:induction false} DeleteMachineCommits(db: Db, m: Id, actor: string)
    requires AssignmentsSound(db.assignments, db.specs) && ChallengesSound(db.challenges, db.specs, db.keys)
    ensures DeleteMachine(db, m, actor)
      == if Blank(actor) then Tx(db, Err(MachineIdentityInvalid))
         else if m !in db.machines then Tx(db, Err(MachineNotFound))
         else if Installed(db, m) then Tx(db, Err(MachineDeleteConflict))
         else Tx(WithoutMachine(db, m), Ok(Unit))
  {
    if !Installed(db, m) {
      NoSpecNoClaim(db, m);
      hide AssignmentsSound, ChallengesSound, HasArmed;
    }
  }

  lemma {:induction false} MachineGoneTables(db: Db, m: Id)
    requires IdsDrawn(db.nextId, db.machines.Keys, db.specs.Keys, db.challenges.Keys, db.assignments)
    requires IdentifiersAttached(db.identifiers, db.machines.Keys) && KeysSound(db.keys, db.machines.Keys)
    requires SpecsOwned(db.specs, db.machines.Keys) && !Installed(db, m)
    ensures var b := WithoutMachine(db, m);
      && IdsDrawn(b.nextId, b.machines.Keys, b.specs.Keys, b.challenges.Keys, b.assignments)
      && IdentifiersAttached(b.identifiers, b.machines.Keys) && KeysSound(b.keys, b.machines.Keys)
      && SpecsOwned(b.specs, b.machines.Keys)
  {
  }

  lemma {:induction false} MachineGoneEvolves(db: Db, m: Id)
    ensures Evolves(db, WithoutMachine(db, m))
  {
  }

  lemma {:induction false} MachineGone(db: Db, m: Id)
    requires Inv(db) && !Installed(db, m)
    ensures Inv(WithoutMachine(db, m)) && Evolves(db, WithoutMachine(db, m))
  {
    hide Histories, TrustSound, AssignmentsSound, ChallengesSound, KeysSound, IdsDrawn, SpecsOwned;
    hide IdentifiersAttached, Logs, HasArmed, Evolves, Installed;
    NoSpecNoClaim(db, m);
    MachineGoneChallenges(db, m);
    MachineGoneTables(db, m);
    MachineGoneEvolves(db, m);
  }

  lemma {:induction false} MachineGoneChallenges(db: Db, m: Id)
    requires ChallengesSound(db.challenges, db.specs, db.keys)
    requires forall c | c in db.challenges ::
      var b := db.challenges[c].body; b.machineId != m && b.fingerprint in db.keys && db.keys[b.fingerprint].machineId != m
    ensures ChallengesSound(db.challenges, db.specs, WithoutMachine(db, m).keys)
  {
  }

  lemma {:induction false} DeleteMachineIsSound(db: Db, m: Id, actor: string)
    requires Inv(db)
    ensures var tx := DeleteMachine(db, m, actor);
      && Sound(db, tx) && tx.result != Err(StorageFailure)
      && (tx.result.Err? ==> tx.db == db) && (tx.result.Ok? ==> tx.db == WithoutMachine(db, m) && m in db.machines)
      && (!Blank(actor) ==> (tx.result == Err(MachineDeleteConflict) <==> m in db.machines && Installed(db, m)))
  {
    hide Histories, TrustSound, AssignmentsSound, Logs, HasArmed, KeysSound, IdsDrawn, SpecsOwned, ChallengesSound;
    hide Evolves, DeleteMachine, Installed, WithoutMachine;
    DeleteMachineCommits(db, m, actor);
    EvolvesStays(db);
    if !Installed(db, m) {
      MachineGone(db, m);
    }
  }

  // ---------------------------------------------------------------------------
  // The binding
  // ---------------------------------------------------------------------------

  /** In valid states the machine of the specification is that of the assignment and exists, so an installation is
      bound to a machine exactly when its assignment names that machine, is not cancelled, and the machine may be
      provisioned. */
  lemma {:induction false} BindingIsSound(db: Db, i: Id, m: Id)
    requires Inv(db)
    ensures TrustedMachine(db, i) == Ok(m)
      <==> (i in db.assignments && db.assignments[i].machineId == m && db.assignments[i].state != Cancelled
            && m in db.machines && db.machines[m].policy == Provision)
    ensures TrustedMachine(db, i) != Err(MachineNotFound)
  {
    hide Histories, TrustSound, ChallengesSound, KeysSound, Logs, IdentifiersAttached, IdsDrawn, ValidAssignment;
  }
}
