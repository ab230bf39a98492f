/** What every store transaction keeps, and how one committed state relates to a later one. The constraints of the
    schema are part of the invariant, so a statement is refused by the schema only where a lemma here says so. */
module StoreInvariant {
  import opened Prelude
  import opened Text
  import opened Lifecycle
  import opened Records
  import opened Schema
  import opened Transactions
  import Canonical
  import Redaction

  // ---------------------------------------------------------------------------
  // The invariant, one predicate per group of tables.
  // ---------------------------------------------------------------------------

  ghost predicate IdsDrawn(
    nextId: Id, machines: set<Id>, specs: set<Id>, challenges: set<Id>, assignments: map<Id, Assignment>)
  {
    && (forall m | m in machines :: m < nextId)
    && (forall i | i in specs :: i < nextId)
    && (forall c | c in challenges :: c < nextId)
    && (forall i | i in assignments :: assignments[i].id < nextId)
  }

  ghost predicate IdentifiersAttached(identifiers: map<Identifier, Id>, machines: set<Id>) {
    forall n | n in identifiers :: identifiers[n] in machines
  }

  ghost predicate SpecsOwned(specs: map<Id, Spec>, machines: set<Id>) {
    forall i | i in specs :: specs[i].machineId in machines
  }

  ghost predicate AssignmentsSound(assignments: map<Id, Assignment>, specs: map<Id, Spec>) {
    && (forall i | i in assignments :: i in specs && AssignmentFits(assignments[i], i, specs[i]))
    && (forall i, j | i in assignments && j in assignments && i != j :: Apart(assignments[i], assignments[j]))
  }

  ghost predicate AssignmentFits(a: Assignment, i: Id, spec: Spec) {
    a.installationId == i && a.machineId == spec.machineId && ValidAssignment(a)
  }

  ghost predicate Apart(a: Assignment, b: Assignment) {
    a.id != b.id && (a.state == Armed && b.state == Armed ==> a.machineId != b.machineId)
  }

  ghost predicate KeysSound(keys: map<Fingerprint, BootKey>, machines: set<Id>) {
    && (forall f | f in keys :: keys[f].machineId in machines && keys[f].pem.valid && keys[f].pem.key == f)
    && (forall f, g | f in keys && g in keys && f != g && keys[f].state == KeyApproved && keys[g].state == KeyApproved ::
          keys[f].machineId != keys[g].machineId)
  }

  ghost predicate ChallengesSound(
    challenges: map<Id, Challenge>, specs: map<Id, Spec>, keys: map<Fingerprint, BootKey>) {
    forall c | c in challenges :: ChallengeFits(challenges[c].body, c, specs, keys)
  }

  ghost predicate ChallengeFits(b: ChallengeBody, c: Id, specs: map<Id, Spec>, keys: map<Fingerprint, BootKey>) {
    && b.id == c
    && b.installationId in specs && b.machineId == specs[b.installationId].machineId
    && b.fingerprint in keys && keys[b.fingerprint].machineId == b.machineId
  }

  /** Used challenges and credentials belong together, one of each per installation. */
  ghost predicate TrustSound(
    challenges: map<Id, Challenge>, credentials: map<Id, Credential>, withAssignment: set<Id>, specs: map<Id, Spec>)
  {
    && (forall i | i in credentials :: i in specs && i in withAssignment && CredentialFits(credentials[i], specs[i]))
    && (forall i, j | i in credentials && j in credentials && i != j :: credentials[i].id != credentials[j].id)
    && (forall i | i in credentials :: exists c :: UsedFor(challenges, c, i))
    && (forall c, i | UsedFor(challenges, c, i) :: i in credentials && Answers(challenges[c], credentials[i]))
    && (forall c, d, i | UsedFor(challenges, c, i) && UsedFor(challenges, d, i) :: c == d)
  }

  ghost predicate CredentialFits(row: Credential, spec: Spec) {
    row.id == spec.credentialId && row.createdAt != 0 && row.expiresAt != 0
  }

  ghost predicate UsedFor(challenges: map<Id, Challenge>, c: Id, i: Id) {
    c in challenges && challenges[c].usedAt != 0 && challenges[c].body.installationId == i
  }

  /** A used challenge holds the response that released the credential. */
  ghost predicate Answers(c: Challenge, credential: Credential) {
    && c.response.Some? && c.response.value.key == c.body.fingerprint
    && credential.verifier == Sha256(c.response.value.secret)
    && c.credentialExpiresAt == credential.expiresAt
  }

  ghost predicate Histories(
    events: map<Id, seq<Event>>, specs: set<Id>, withAssignment: set<Id>, credentials: map<Id, Credential>)
  {
    && events.Keys == specs
    && forall i | i in events :: History(i, events[i]) && Coupled(i, events[i], withAssignment, credentials)
  }

  /** The accepted events of one installation: a path from the CREATED stage that came with it, no key twice. */
  ghost predicate History(i: Id, events: seq<Event>) {
    && IsPath(StagesOf(events))
    && events[0].report.key == CreatedKey(i)
    && (forall k | 0 <= k < |events| :: SourceAllowed(events[k].report.stage, events[k].report.source))
    && (forall j, k | 0 <= j < k < |events| :: events[j].report.key != events[k].report.key)
  }

  /** The stage, the assignment and the credential of one installation. */
  ghost predicate Coupled(i: Id, events: seq<Event>, withAssignment: set<Id>, credentials: map<Id, Credential>)
  {
    events != [] &&
    var stage := events[|events| - 1].report.stage;
    && (i !in withAssignment ==> |events| == 1)
    && (Rank(stage) > Rank(PxeBooted) ==> i in credentials)
    && (Terminal(stage) ==> i in credentials && credentials[i].revokedAt != 0)
  }

  ghost predicate Logs(chunks: map<Id, seq<Chunk>>, specs: set<Id>) {
    && chunks.Keys <= specs
    && forall i | i in chunks :: Log(chunks[i])
  }

  /** The accepted chunks of one installation are numbered 1, 2, 3, ... and no key is used twice. */
  ghost predicate Log(chunks: seq<Chunk>) {
    && (forall k | 0 <= k < |chunks| :: chunks[k].input.sequence == k + 1 && chunks[k].input.source != Server)
    && (forall j, k | 0 <= j < k < |chunks| :: chunks[j].input.key != chunks[k].input.key)
    && TotalBytes(chunks) <= MAX_INSTALLATION_LOG
  }

  ghost predicate Inv(db: Db) {
    && IdsDrawn(db.nextId, db.machines.Keys, db.specs.Keys, db.challenges.Keys, db.assignments)
    && IdentifiersAttached(db.identifiers, db.machines.Keys)
    && SpecsOwned(db.specs, db.machines.Keys)
    && AssignmentsSound(db.assignments, db.specs)
    && KeysSound(db.keys, db.machines.Keys)
    && ChallengesSound(db.challenges, db.specs, db.keys)
    && TrustSound(db.challenges, db.credentials, db.assignments.Keys, db.specs)
    && Histories(db.events, db.specs.Keys, db.assignments.Keys, db.credentials)
    && Logs(db.chunks, db.specs.Keys)
  }

  lemma {:induction false} EmptyStoreIsValid()
    ensures Inv(EMPTY_STORE)
  {
  }

  // ---------------------------------------------------------------------------
  // Earlier and later states.
  // ---------------------------------------------------------------------------

  /** What survives from one committed state to a later one. A deleted machine or installation never comes back. */
  ghost predicate Evolves(a: Db, b: Db) {
    && a.nextId <= b.nextId
    && MachinesEvolve(a, b)
    && KeysEvolve(a, b)
    && SpecsEvolve(a, b)
    && TrustEvolves(a, b)
    && TelemetryEvolves(a, b)
  }

  ghost predicate MachinesEvolve(a: Db, b: Db) {
    && (forall m | m in b.machines :: m in a.machines || a.nextId <= m)
    && (forall n | n in a.identifiers && a.identifiers[n] in b.machines ::
          n in b.identifiers && b.identifiers[n] == a.identifiers[n])
  }

  ghost predicate KeysEvolve(a: Db, b: Db) {
    forall f | f in a.keys && a.keys[f].machineId in b.machines :: f in b.keys && KeyEvolves(a.keys[f], b.keys[f])
  }

  /** A key keeps its machine and its text. It goes from pending to approved to revoked and never back, and once revoked
      nothing about it changes. */
  ghost predicate KeyEvolves(a: BootKey, b: BootKey) {
    && a.machineId == b.machineId && a.pem == b.pem && a.firstSeenAt == b.firstSeenAt
    && (a.ek != "" ==> a.ek == b.ek)
    && (a.state == KeyApproved ==> b.state != KeyPending && a.approvedAt == b.approvedAt && a.approvedBy == b.approvedBy)
    && (a.state == KeyRevoked ==> a == b)
  }

  ghost predicate SpecsEvolve(a: Db, b: Db) {
    && (forall i | i in b.specs :: (i in a.specs && a.specs[i] == b.specs[i]) || a.nextId <= i)
    && (forall i | i in a.assignments && i in b.specs :: i in b.assignments && Settles(a.assignments[i], b.assignments[i]))
  }

  /** An assignment keeps its identity, and once settled nothing about it changes. */
  ghost predicate Settles(a: Assignment, b: Assignment) {
    && a.id == b.id && a.machineId == b.machineId && a.installationId == b.installationId
    && (a.state != Armed ==> a == b)
  }

  ghost predicate TrustEvolves(a: Db, b: Db) {
    && (forall c | c in b.challenges :: c in a.challenges || a.nextId <= c)
    && (forall c | c in a.challenges && a.challenges[c].body.installationId in b.specs ::
          c in b.challenges && ChallengeEvolves(a.challenges[c], b.challenges[c]))
    && (forall i | i in a.credentials && i in b.specs ::
          i in b.credentials && CredentialEvolves(a.credentials[i], b.credentials[i]))
  }

  ghost predicate ChallengeEvolves(a: Challenge, b: Challenge) {
    a.body == b.body && a.expiresAt == b.expiresAt && (a.usedAt != 0 ==> a == b)
  }

  ghost predicate CredentialEvolves(a: Credential, b: Credential) {
    && a.id == b.id && a.verifier == b.verifier && a.createdAt == b.createdAt && a.expiresAt == b.expiresAt
    && (a.revokedAt != 0 ==> a.revokedAt == b.revokedAt)
  }

  ghost predicate TelemetryEvolves(a: Db, b: Db) {
    && (forall i | i in a.events && i in b.specs :: i in b.events && a.events[i] <= b.events[i])
    && (forall i | i in a.chunks && i in b.specs :: i in b.chunks && a.chunks[i] <= b.chunks[i])
  }

  lemma {:induction false} EvolvesStays(a: Db)
    ensures Evolves(a, a)
  {
  }

  lemma {:induction false} MachinesEvolveThrough(a: Db, b: Db, c: Db)
    requires MachinesEvolve(a, b) && MachinesEvolve(b, c) && a.nextId <= b.nextId
    requires IdentifiersAttached(a.identifiers, a.machines.Keys) && forall m | m in a.machines :: m < a.nextId
    ensures MachinesEvolve(a, c)
  {
  }

  lemma {:induction false} KeysEvolveThrough(a: Db, b: Db, c: Db)
    requires KeysEvolve(a, b) && KeysEvolve(b, c) && MachinesEvolve(b, c) && a.nextId <= b.nextId
    requires forall f | f in a.keys :: a.keys[f].machineId < a.nextId
    ensures KeysEvolve(a, c)
  {
  }

  lemma {:induction false} SpecsEvolveThrough(a: Db, b: Db, c: Db)
    requires SpecsEvolve(a, b) && SpecsEvolve(b, c) && a.nextId <= b.nextId
    requires forall i | i in a.specs :: i < a.nextId
    requires forall i | i in a.assignments :: i in a.specs
    ensures SpecsEvolve(a, c)
  {
  }

  lemma {:induction false} TrustEvolvesThrough(a: Db, b: Db, c: Db)
    requires TrustEvolves(a, b) && TrustEvolves(b, c) && a.nextId <= b.nextId
    requires SpecsEvolve(b, c) && forall i | i in a.specs :: i < a.nextId
    requires forall i | i in a.challenges :: a.challenges[i].body.installationId in a.specs
    requires forall i | i in a.credentials :: i in a.specs
    ensures TrustEvolves(a, c)
  {
  }

  lemma {:induction false} TelemetryEvolvesThrough(a: Db, b: Db, c: Db)
    requires TelemetryEvolves(a, b) && TelemetryEvolves(b, c) && a.nextId <= b.nextId
    requires SpecsEvolve(b, c) && forall i | i in a.specs :: i < a.nextId
    requires a.events.Keys == a.specs.Keys && a.chunks.Keys <= a.specs.Keys
    ensures TelemetryEvolves(a, c)
  {
  }

  lemma {:induction false} EvolvesThrough(a: Db, b: Db, c: Db)
    requires Inv(a)
    requires Evolves(a, b) && Evolves(b, c)
    ensures Evolves(a, c)
  {
    MachinesEvolveThrough(a, b, c);
    KeysEvolveThrough(a, b, c);
    SpecsEvolveThrough(a, b, c);
    TrustEvolvesThrough(a, b, c);
    TelemetryEvolvesThrough(a, b, c);
  }

  lemma {:induction false} HistoriesHold(db: Db)
    requires Inv(db)
    ensures Histories(db.events, db.specs.Keys, db.assignments.Keys, db.credentials)
  {
    hide Histories, TrustSound, AssignmentsSound, ChallengesSound, KeysSound, Logs, SpecsOwned, IdentifiersAttached;
    hide IdsDrawn;
  }

  lemma {:induction false} LaterEvents(a: Db, b: Db, i: Id)
    requires Evolves(a, b) && i in a.events && i in b.specs
    ensures i in b.events && a.events[i] <= b.events[i]
  {
    hide MachinesEvolve, SpecsEvolve, TrustEvolves;
  }
}
