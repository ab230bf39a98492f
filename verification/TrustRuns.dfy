/** Boot-trust keys, challenges, releases and credentials over whole runs. */
module TrustRuns {
  import opened Prelude
  import opened Text
  import opened Records
  import opened Schema
  import opened Transactions
  import opened StoreInvariant
  import opened StoreSteps
  import opened TrustSteps
  import opened ControlPlane
  import opened StepsAreFaithful
  import opened Interleavings
  import Canonical

  // ---------------------------------------------------------------------------
  // Keys
  // ---------------------------------------------------------------------------

  lemma {:induction false} LaterKey(a: Db, b: Db, f: Fingerprint)
    requires Evolves(a, b) && f in a.keys && a.keys[f].machineId in b.machines
    ensures f in b.keys && KeyEvolves(a.keys[f], b.keys[f])
  {
    hide MachinesEvolve, SpecsEvolve, TrustEvolves, TelemetryEvolves;
  }

  /** A revoked key stays revoked, unchanged, for as long as its machine exists. */
  lemma {:induction false} RevokedKeyIsFinal(
    policy: SecureBootPolicy, before: seq<Action>, after: seq<Action>, f: Fingerprint)
    requires f in Run(policy, before).db.keys && Run(policy, before).db.keys[f].state == KeyRevoked
    requires Run(policy, before).db.keys[f].machineId in Run(policy, before + after).db.machines
    ensures f in Run(policy, before + after).db.keys
    ensures Run(policy, before + after).db.keys[f] == Run(policy, before).db.keys[f]
  {
    hide Run, Evolves;
    RunEvolves(policy, before, after);
    LaterKey(Run(policy, before).db, Run(policy, before + after).db, f);
  }

  ghost predicate IsApproved(db: Db, f: Fingerprint) {
    f in db.keys && db.keys[f].state == KeyApproved
  }

  /** At most one key of a machine is approved at any time. */
  lemma {:induction false} OneApprovedKeyPerMachine(
    policy: SecureBootPolicy, actions: seq<Action>, f: Fingerprint, g: Fingerprint)
    ensures var db := Run(policy, actions).db;
      IsApproved(db, f) && IsApproved(db, g) && db.keys[f].machineId == db.keys[g].machineId ==> f == g
  {
    RunKeepsInv(policy, actions);
    hide Run, Histories, TrustSound, AssignmentsSound, ChallengesSound, Logs, SpecsOwned, IdentifiersAttached, IdsDrawn;
  }

  // ---------------------------------------------------------------------------
  // Challenges and releases
  // ---------------------------------------------------------------------------

  /** What a release for the first use of a challenge rests on. */
  ghost predicate Justified(db: Db, i: Id, c: Id, signature: Signature, now: Instant) {
    && c in db.challenges && db.challenges[c].body.installationId == i && db.challenges[c].expiresAt > now
    && i in db.specs && i in db.assignments && db.assignments[i].state != Cancelled && i !in db.credentials
    && var m, f := db.specs[i].machineId, db.challenges[c].body.fingerprint;
      && m in db.machines && db.machines[m].policy == Provision
      && IsApproved(db, f) && db.keys[f].machineId == m
      && signature == Signed(f, db.challenges[c].body)
  }

  /** A secret is released for the first time only to the approved key of the machine that the installation belongs to,
      against that key's signature of the challenge, and encrypted to that key. */
  lemma {:induction false} FirstReleaseIsJustified(
    db: Db, i: Id, c: Id, signature: Signature, secret: nat, now: Instant, release: Release)
    requires Complete(db, i, c, signature, secret, now).result == Ok((release, false))
    ensures Justified(db, i, c, signature, now)
    ensures release == Release(c, Oaep(db.challenges[c].body.fingerprint, secret), now + CREDENTIAL_TTL)
  {
    hide InsertCredential;
  }

  /** And it is released whenever all of that holds, unless another installation has the credential ID. */
  lemma {:induction false} FirstReleaseExactly(
    db: Db, i: Id, c: Id, signature: Signature, secret: nat, now: Instant)
    requires Inv(db)
    ensures var answer := Complete(db, i, c, signature, secret, now).result;
      answer.Ok? && !answer.value.1
      <==> (c in db.challenges && db.challenges[c].usedAt == 0 && Justified(db, i, c, signature, now)
            && !CredentialIdTaken(db, i))
  {
    hide Inv, Evolves, Complete, ProofFault, Justified, CredentialIdTaken, WithProof, ReleasedBy;
    var answer := Complete(db, i, c, signature, secret, now).result;
    CompleteIsSound(db, i, c, signature, secret, now);
    if answer.Ok? && !answer.value.1 {
      FirstReleaseIsJustified(db, i, c, signature, secret, now, answer.value.0);
    }
    if Justified(db, i, c, signature, now) {
      JustifiedIsProved(db, i, c, signature, now);
      if db.challenges[c].usedAt != 0 {
        UsedChallengeAnswers(db, i, c, signature, secret, now);
      } else if !CredentialIdTaken(db, i) {
        FirstProof(db, i, c, signature, secret, now);
      }
    }
  }

  lemma {:induction false} JustifiedIsProved(db: Db, i: Id, c: Id, signature: Signature, now: Instant)
    requires Inv(db) && Justified(db, i, c, signature, now)
    ensures c in db.challenges && i in db.specs && Addressed(db, i, c, signature)
    ensures ProofFault(db, i, db.challenges[c], signature, now).None?
  {
    hide Histories, TrustSound, AssignmentsSound, Logs, IdentifiersAttached, IdsDrawn;
  }

  lemma {:induction false} CredentialWasProved(db: Db, i: Id)
    requires Inv(db)
    ensures i in db.credentials <==> exists c :: UsedFor(db.challenges, c, i)
    ensures i in db.credentials ==> i in db.assignments && i in db.specs
  {
    hide Histories, AssignmentsSound, ChallengesSound, KeysSound, Logs, SpecsOwned, IdentifiersAttached, IdsDrawn;
    hide Answers, CredentialFits, UsedFor;
  }

  /** In every run a credential exists exactly when a challenge was used, and then exactly one was. */
  lemma {:induction false} OneUsedChallengePerCredential(
    policy: SecureBootPolicy, actions: seq<Action>, i: Id, c: Id, d: Id)
    ensures var db := Run(policy, actions).db;
      && (i in db.credentials <==> exists e :: UsedFor(db.challenges, e, i))
      && (UsedFor(db.challenges, c, i) && UsedFor(db.challenges, d, i) ==> c == d)
  {
    RunKeepsInv(policy, actions);
    hide Run;
    CredentialWasProved(Run(policy, actions).db, i);
    hide Histories, AssignmentsSound, ChallengesSound, KeysSound, Logs, SpecsOwned, IdentifiersAttached, IdsDrawn;
    hide Answers, CredentialFits, UsedFor;
  }

  lemma {:induction false} FaultIsNotReplay(db: Db, i: Id, c: Challenge, signature: Signature, now: Instant)
    ensures ProofFault(db, i, c, signature, now) != Some(BootTrustReplayRejected)
  {
  }

  /** The refusal of a used challenge for want of a stored response is never given. */
  lemma {:induction false} ReplayIsNeverRejected(
    policy: SecureBootPolicy, actions: seq<Action>, i: Id, c: Id, signature: Signature, secret: nat, now: Instant)
    ensures Complete(Run(policy, actions).db, i, c, signature, secret, now).result != Err(BootTrustReplayRejected)
  {
    RunKeepsInv(policy, actions);
    var db := Run(policy, actions).db;
    hide Run, Inv, ProofFault;
    if Addressed(db, i, c, signature) {
      FaultIsNotReplay(db, i, db.challenges[c], signature, now);
      if db.challenges[c].usedAt != 0 {
        UsedChallengeAnswers(db, i, c, signature, secret, now);
      }
    }
  }

  // ---------------------------------------------------------------------------
  // Authentication
  // ---------------------------------------------------------------------------

  /** The proof was made with the secret: the secret itself, or a signature of the request under its hash. */
  ghost predicate MadeWith(proof: Proof, secret: nat) {
    match proof
    case Bearer(s) => s == secret
    case SignedRequest(request, mac) => Canonical.Telemetry(request) == Some(mac.message) && mac.key == Sha256(secret)
  }

  ghost predicate ReleasedSecret(db: Db, i: Id, secret: nat) {
    exists c :: UsedFor(db.challenges, c, i)
      && db.challenges[c].response == Some(Oaep(db.challenges[c].body.fingerprint, secret))
  }

  /** A revoked credential authenticates nothing, by either way of authenticating. */
  lemma {:induction false} RevokedAuthenticatesNothing(db: Db, i: Id, proof: Proof, now: Instant)
    requires i in db.credentials && db.credentials[i].revokedAt != 0
    ensures Authenticated(db, i, proof, now).Err?
  {
    hide Canonical.Telemetry;
  }

  lemma {:induction false} ProofNeedsNoCredential(db: Db, i: Id, c: Challenge, signature: Signature, now: Instant)
    requires i in db.credentials
    ensures ProofFault(db, i, c, signature, now).Some?
  {
  }

  /** An installation with a credential never gains another one: a proof repeats the release or is refused. */
  lemma {:induction false} NoSecondCredential(db: Db, i: Id, c: Id, signature: Signature, secret: nat, now: Instant)
    requires Inv(db) && i in db.credentials
    ensures Complete(db, i, c, signature, secret, now).db == db
    ensures Complete(db, i, c, signature, secret, now).result.Ok?
      ==> ReleasedBy(db, i, Complete(db, i, c, signature, secret, now).result.value.0)
  {
    hide Inv, Complete, ProofFault, ReleasedBy, Evolves;
    CompleteIsSound(db, i, c, signature, secret, now);
    if Addressed(db, i, c, signature) && db.challenges[c].usedAt != 0 {
      UsedChallengeAnswers(db, i, c, signature, secret, now);
    } else {
      if Addressed(db, i, c, signature) {
        ProofNeedsNoCredential(db, i, db.challenges[c], signature, now);
      }
      CompleteRefused(db, i, c, signature, secret, now);
    }
  }

  lemma {:induction false} VerifierWasReleased(db: Db, i: Id) returns (secret: nat)
    requires TrustSound(db.challenges, db.credentials, db.assignments.Keys, db.specs) && i in db.credentials
    ensures ReleasedSecret(db, i, secret) && db.credentials[i].verifier == Sha256(secret)
  {
    hide CredentialFits;
    var c :| UsedFor(db.challenges, c, i);
    assert Answers(db.challenges[c], db.credentials[i]);
    secret := db.challenges[c].response.value.secret;
  }

  lemma {:induction false} AcceptedIsMadeWith(db: Db, i: Id, proof: Proof, now: Instant, secret: nat)
    requires i in db.credentials && db.credentials[i].verifier == Sha256(secret)
    requires Authenticated(db, i, proof, now).Ok?
    ensures MadeWith(proof, secret) && db.credentials[i].revokedAt == 0 && db.credentials[i].expiresAt > now
  {
    hide Canonical.Telemetry;
  }

  /** Whoever authenticates for an installation has the secret that its one used challenge released, and does so before
      the credential expires or is revoked. */
  lemma {:induction false} AuthenticatedSecretWasReleased(
    policy: SecureBootPolicy, actions: seq<Action>, i: Id, proof: Proof, now: Instant)
    requires Authenticated(Run(policy, actions).db, i, proof, now).Ok?
    ensures var db := Run(policy, actions).db;
      && (exists secret :: ReleasedSecret(db, i, secret) && MadeWith(proof, secret))
      && i in db.credentials && db.credentials[i].revokedAt == 0 && db.credentials[i].expiresAt > now
  {
    RunKeepsInv(policy, actions);
    var db := Run(policy, actions).db;
    hide Run, Histories, TrustSound, AssignmentsSound, ChallengesSound, KeysSound, Logs, SpecsOwned;
    hide IdentifiersAttached, IdsDrawn;
    AuthenticatedHasCredential(db, i, proof, now);
    hide Authenticated, MadeWith, ReleasedSecret;
    var secret := VerifierWasReleased(db, i);
    AcceptedIsMadeWith(db, i, proof, now, secret);
  }

  // --- when somebody can authenticate at all ---

  /** The installation has a credential that is neither revoked nor, at that time, expired. */
  ghost predicate Usable(db: Db, i: Id, at: Time) {
    i in db.credentials && db.credentials[i].revokedAt == 0 && db.credentials[i].expiresAt > at
  }

  lemma {:induction false} UsableIsAccepted(db: Db, i: Id, now: Instant) returns (proof: Proof)
    requires Inv(db) && Usable(db, i, now)
    ensures Authenticated(db, i, proof, now).Ok?
  {
    hide Histories, TrustSound, AssignmentsSound, ChallengesSound, KeysSound, Logs, SpecsOwned, IdentifiersAttached;
    hide IdsDrawn;
    var secret := VerifierWasReleased(db, i);
    HasCreationTime(db, i);
    hide ReleasedSecret;
    proof := Bearer(secret);
  }

  lemma {:induction false} HasCreationTime(db: Db, i: Id)
    requires TrustSound(db.challenges, db.credentials, db.assignments.Keys, db.specs) && i in db.credentials
    ensures db.credentials[i].createdAt != 0 && i in db.specs
  {
    hide UsedFor, Answers;
    assert CredentialFits(db.credentials[i], db.specs[i]);
  }

  /** Somebody can authenticate for the installation exactly while its credential is usable. */
  lemma {:induction false} AuthenticableExactly(db: Db, i: Id, now: Instant)
    requires Inv(db)
    ensures (exists proof :: Authenticated(db, i, proof, now).Ok?) <==> Usable(db, i, now)
  {
    hide Inv, Authenticated;
    if proof :| Authenticated(db, i, proof, now).Ok? {
      AcceptedIsUsable(db, i, proof, now);
    }
    if Usable(db, i, now) {
      var proof := UsableIsAccepted(db, i, now);
    }
  }

  lemma {:induction false} AcceptedIsUsable(db: Db, i: Id, proof: Proof, now: Instant)
    requires Authenticated(db, i, proof, now).Ok?
    ensures Usable(db, i, now)
  {
    hide Canonical.Telemetry;
  }

  lemma {:induction false} CredentialHasSpec(db: Db, i: Id)
    requires Inv(db) && i in db.credentials
    ensures i in db.specs
  {
    hide Histories, TrustSound, AssignmentsSound, ChallengesSound, KeysSound, Logs, SpecsOwned, IdentifiersAttached;
    hide IdsDrawn;
    HasCreationTime(db, i);
  }

  /** What can be used later could be used before. */
  lemma {:induction false} UsableBefore(a: Db, b: Db, i: Id, at: Time, later: Time)
    requires Inv(b) && Evolves(a, b) && Credentialed(a, i) && Usable(b, i, later) && at <= later
    ensures Usable(a, i, at) && i in a.specs
  {
    hide Inv, MachinesEvolve, KeysEvolve, TelemetryEvolves;
    CredentialHasSpec(b, i);
  }
}
