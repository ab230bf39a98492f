/** What each store transaction answers and what it writes, row by row and field by field: exactly when it succeeds, the
    rows that are there afterwards, and that nothing else has changed. */
module Writes {
  import opened Prelude
  import opened Text
  import opened Lifecycle
  import opened Records
  import opened Schema
  import opened Transactions
  import opened StoreInvariant
  import opened StoreSteps
  import opened TelemetrySteps
  import opened TrustSteps
  import opened ControlPlane
  import Canonical
  import Redaction

  // ---------------------------------------------------------------------------
  // Machines
  // ---------------------------------------------------------------------------

  lemma {:induction false} DiscoveryIsSeen(db: Db, obs: Observation, now: Instant)
    requires Inv(db)
    ensures var tx := Discover(db, obs, now);
      tx.result.Ok? ==>
        var m := tx.result.value.0; m in tx.db.machines && SeenAs(db, m, obs, now, tx.db.machines[m])
  {
    assert db.nextId !in db.machines;
    hide Inv, Discover, SeenAs;
    if Discover(db, obs, now).result.Ok? {
      DiscoveryWrites(db, obs, now);
    }
  }

  /** A policy change needs a name and a machine, and writes the requested policy and nothing else. */
  lemma {:induction false} PolicyIsSet(db: Db, m: Id, policy: Policy, actor: string)
    ensures var tx := SetPolicy(db, m, policy, actor);
      && (tx.result.Ok? <==> Trim(actor) != "" && m in db.machines)
      && (tx.result.Ok? ==>
            tx.result == Ok(db.machines[m].(policy := policy))
            && tx.db == db.(machines := db.machines[m := db.machines[m].(policy := policy)]))
      && (tx.result.Err? ==> tx.db == db)
  {
    hide Trim;
  }

  // ---------------------------------------------------------------------------
  // Installations and assignments
  // ---------------------------------------------------------------------------

  /** A submitted installation needs valid fields and a machine. */
  lemma {:induction false} LookupIsExact(db: Db, input: SpecInput)
    ensures CreateSpecLookup(db, input).Ok?
      <==> (Trim(input.credentialId) != "" && |input.credentialId| <= 128
            && Trim(input.createdBy) != "" && |input.createdBy| <= 128
            && input.wellFormed && input.machineId in db.machines)
  {
    hide Trim;
  }

  /** The insert writes the row and the CREATED event under the next number, and nothing else, exactly while the machine
      exists. */
  lemma {:induction false} InstallationWrites(db: Db, input: SpecInput, requestId: string, now: Instant)
    requires Inv(db)
    ensures var tx, i := CreateSpecInsert(db, input, requestId, now), db.nextId;
      && (tx.result.Ok? <==> input.machineId in db.machines)
      && (tx.result.Ok? ==>
            var row := Spec(input.machineId, input.credentialId, now, input.createdBy);
            var report := Report(Created, Server, 0, "server:created:" + Decimal(i), CREATED_MESSAGE, "", map[]);
            tx == Tx(db.(nextId := i + 1, specs := db.specs[i := row], events := db.events[i := [Event(report, now, requestId)]]),
                     Ok(i)))
      && (tx.result.Err? ==> tx.db == db)
  {
    hide Inv, CreateSpecInsert, Decimal;
    FreshInstallation(db);
    CreateSpecCommits(db, input, requestId, now);
  }

  /** Arming writes one armed row, in the name of whoever armed it, and the QUEUED event. */
  lemma {:induction false} ArmingWrites(db: Db, m: Id, i: Id, requestId: string, actor: string, now: Instant)
    requires Inv(db)
    ensures var tx := Arm(db, m, i, requestId, actor, now);
      && (tx.result.Ok? <==>
            && Trim(actor) != "" && m in db.machines && db.machines[m].policy == Provision
            && i in db.specs && db.specs[i].machineId == m && i !in db.assignments
            && forall j | j in db.assignments :: !(db.assignments[j].machineId == m && db.assignments[j].state == Armed))
      && (tx.result.Ok? ==>
            var row := Assignment(db.nextId, m, i, Armed, now, Trim(actor), 0, 0);
            var report := Report(Queued, Server, 0, "server:queued:" + Decimal(i), QUEUED_MESSAGE, "", map[]);
            var queued := Event(report, now, requestId);
            tx == Tx(db.(nextId := db.nextId + 1, assignments := db.assignments[i := row],
                         events := db.events[i := EventsOf(db, i) + [queued]]), Ok(row)))
      && (tx.result.Err? ==> tx.db == db)
  {
    hide Inv, Arm, Trim, Evolves, Decimal, Follows, FindEvent;
    ArmIsSound(db, m, i, requestId, actor, now);
    if ArmAllowed(db, m, i, actor) {
      ArmableFits(db, m, i, requestId, actor, now);
      ArmIdsBelow(db);
      hide HasArmed;
      ArmedFollows(db, m, i, requestId, actor, now);
      ArmCommits(db, m, i, requestId, actor, now);
    }
  }

  lemma {:induction false} ArmIdsBelow(db: Db)
    requires Inv(db)
    ensures forall j | j in db.assignments :: db.assignments[j].id < db.nextId
  {
    hide Histories, TrustSound, AssignmentsSound, ChallengesSound, KeysSound, Logs, SpecsOwned, IdentifiersAttached;
  }

  /** Cancelling and consuming need a name and an armed row, and stamp that row alone. */
  lemma {:induction false} SettlingWrites(db: Db, i: Id, actor: string, now: Instant)
    requires Inv(db)
    ensures var cancelled, consumed := Cancel(db, i, actor, now), Consume(db, i, actor, now);
      && (cancelled.result.Ok? <==> Trim(actor) != "" && i in db.assignments && db.assignments[i].state == Armed)
      && (consumed.result.Ok? <==> cancelled.result.Ok?)
      && (cancelled.result.Ok? ==>
            var row := db.assignments[i].(state := Cancelled, cancelledAt := now);
            cancelled == Tx(db.(assignments := db.assignments[i := row]), Ok(row)))
      && (consumed.result.Ok? ==>
            var row := db.assignments[i].(state := Consumed, consumedAt := now);
            consumed == Tx(db.(assignments := db.assignments[i := row]), Ok(row)))
      && (cancelled.result.Err? ==> cancelled.db == db && consumed.db == db)
  {
    hide Histories, TrustSound, ChallengesSound, KeysSound, Logs, IdsDrawn, SpecsOwned, IdentifiersAttached, Trim;
    hide Apart;
    if i in db.assignments {
      assert AssignmentFits(db.assignments[i], i, db.specs[i]);
    }
  }

  // ---------------------------------------------------------------------------
  // Boot trust
  // ---------------------------------------------------------------------------

  /** The machine that an installation may enroll and prove keys for. */
  ghost predicate Bound(db: Db, i: Id) {
    && i in db.assignments && db.assignments[i].state != Cancelled
    && db.assignments[i].machineId in db.machines && db.machines[db.assignments[i].machineId].policy == Provision
  }

  lemma {:induction false} BoundMachine(db: Db, i: Id)
    requires Inv(db)
    ensures Bound(db, i) <==> TrustedMachine(db, i).Ok?
    ensures Bound(db, i) ==> TrustedMachine(db, i) == Ok(db.assignments[i].machineId)
  {
    hide Inv, TrustedMachine;
    if Bound(db, i) {
      BindingIsSound(db, i, db.assignments[i].machineId);
    }
    if TrustedMachine(db, i).Ok? {
      BindingIsSound(db, i, TrustedMachine(db, i).value);
    }
  }

  /** The key is unknown, or known for this machine with the same text, a fitting endorsement key, and not revoked. */
  ghost predicate Enrollable(db: Db, m: Id, pem: PublicKey, ek: string) {
    pem.key in db.keys ==>
      var was := db.keys[pem.key];
      was.machineId == m && was.pem == pem && was.state != KeyRevoked && (was.ek == "" || ek == "" || was.ek == ek)
  }

  /** Enrollment never approves: a new key is pending, without a trace of an approval, and a known one keeps everything
      but the time it was last seen and a missing endorsement key. */
  lemma {:induction false} EnrollmentWrites(db: Db, i: Id, pem: PublicKey, ek: string, now: Instant)
    requires Inv(db)
    ensures var tx, f := RegisterKey(db, i, pem, ek, now), pem.key;
      && (tx.result.Ok? <==>
            pem.valid && ValidEk(ek) && Bound(db, i) && Enrollable(db, db.assignments[i].machineId, pem, ek))
      && (tx.result.Ok? ==>
            var m, row := db.assignments[i].machineId, tx.result.value.0;
            && tx.db == db.(keys := db.keys[f := row]) && (tx.result.value.1 <==> f !in db.keys)
            && row == if f !in db.keys then BootKey(m, pem, ek, KeyPending, now, now, 0, "", 0, "")
                      else db.keys[f].(lastSeenAt := now, ek := if db.keys[f].ek == "" then ek else db.keys[f].ek))
      && (tx.result.Err? ==> tx.db == db)
  {
    hide Inv, ValidEk, TrustedMachine, Bound, HasApproved;
    BoundMachine(db, i);
    RegisterKeyIsSound(db, i, pem, ek, now);
    hide Evolves;
  }

  /** The row of an enrolled key: a new one is pending, without a trace of an approval, for the machine that the
      installation is bound to; a known one keeps its state. */
  ghost predicate EnrolledAs(before: Db, i: Id, pem: PublicKey, ek: string, now: Instant, row: BootKey) {
    && Bound(before, i)
    && row == if pem.key !in before.keys
              then BootKey(before.assignments[i].machineId, pem, ek, KeyPending, now, now, 0, "", 0, "")
              else
                var was := before.keys[pem.key];
                was.(lastSeenAt := now, ek := if was.ek == "" then ek else was.ek)
  }

  lemma {:induction false} EnrollmentIsPending(db: Db, i: Id, pem: PublicKey, ek: string, now: Instant)
    requires Inv(db)
    ensures var tx := RegisterKey(db, i, pem, ek, now);
      tx.result.Ok? ==> EnrolledAs(db, i, pem, ek, now, tx.result.value.0)
  {
    hide Inv, ValidEk, RegisterKey, Bound;
    EnrollmentWrites(db, i, pem, ek, now);
  }

  /** An approval needs a name and stamps the pending key; an approved one is answered as it is. */
  lemma {:induction false} ApprovalWrites(db: Db, m: Id, f: Fingerprint, actor: string, now: Instant)
    ensures var tx := ApproveKey(db, m, f, actor, now);
      && (tx.result.Ok? <==>
            && Trim(actor) != "" && f in db.keys && db.keys[f].machineId == m && db.keys[f].state != KeyRevoked
            && (db.keys[f].state == KeyApproved || !exists g ::
                  g in db.keys && db.keys[g].machineId == m && db.keys[g].state == KeyApproved))
      && (tx.result.Ok? ==>
            var row := if db.keys[f].state == KeyApproved then db.keys[f]
                       else db.keys[f].(state := KeyApproved, approvedAt := now, approvedBy := Trim(actor));
            tx == Tx(db.(keys := db.keys[f := row]), Ok(row)))
      && (tx.result.Err? ==> tx.db == db)
  {
    hide ApproveKey, Trim;
    ApproveKeyAnswers(db, m, f, actor, now);
    if ApproveKey(db, m, f, actor, now).result.Ok? && db.keys[f].state == KeyApproved {
      ApprovedAnswer(db, m, f, actor, now);
    }
  }

  lemma {:induction false} ApprovedAnswer(db: Db, m: Id, f: Fingerprint, actor: string, now: Instant)
    requires ApproveKey(db, m, f, actor, now).result.Ok? && f in db.keys && db.keys[f].state == KeyApproved
    ensures ApproveKey(db, m, f, actor, now) == Tx(db, Ok(db.keys[f]))
  {
    hide Trim, HasApproved;
  }

  /** A revocation stamps the key, whatever its state, unless it was revoked before. */
  lemma {:induction false} KeyRevocationWrites(db: Db, m: Id, f: Fingerprint, actor: string, now: Instant)
    ensures var tx := RevokeKey(db, m, f, actor, now);
      && (tx.result.Ok? <==> f in db.keys && db.keys[f].machineId == m)
      && (tx.result.Ok? ==>
            var row := if db.keys[f].state == KeyRevoked then db.keys[f]
                       else db.keys[f].(state := KeyRevoked, revokedAt := now, revokedBy := Trim(actor));
            tx == Tx(db.(keys := db.keys[f := row]), Ok(row)))
      && (tx.result.Err? ==> tx.db == db)
  {
    hide Trim, HasApproved;
    if f in db.keys {
      assert db.keys[f := db.keys[f]] == db.keys;
    }
  }

  /** A challenge is issued exactly to an approved key of the bound machine. It is new, carries the nonce, and can be
      answered for 120 seconds. */
  lemma {:induction false} ChallengeWrites(db: Db, i: Id, f: Fingerprint, nonce: nat, now: Instant)
    requires Inv(db)
    ensures var tx := CreateChallenge(db, i, f, nonce, now);
      && (tx.result.Ok? <==>
            && Bound(db, i) && f in db.keys && db.keys[f].machineId == db.assignments[i].machineId
            && db.keys[f].state == KeyApproved)
      && (tx.result.Ok? ==>
            var body := ChallengeBody(db.nextId, i, db.assignments[i].machineId, f, nonce);
            var row := Challenge(body, now, now + 120_000_000_000, 0, None, 0);
            tx == Tx(db.(nextId := db.nextId + 1, challenges := db.challenges[db.nextId := row]), Ok(row)))
      && (tx.result.Err? ==> tx.db == db)
  {
    hide Inv, TrustedMachine, Bound, Evolves;
    BoundMachine(db, i);
    CreateChallengeIsSound(db, i, f, nonce, now);
  }

  /** A first proof writes the credential, with the hash of the secret and a life of 24 hours, and the challenge as used,
      with the secret encrypted to the key that was challenged. */
  lemma {:induction false} ProofWrites(db: Db, i: Id, c: Id, signature: Signature, secret: nat, now: Instant)
    requires Inv(db)
    ensures var tx := Complete(db, i, c, signature, secret, now);
      && (tx.result.Ok? && !tx.result.value.1 ==>
            && c in db.challenges && i in db.specs
            && var expiry, cipher := now + 86_400_000_000_000, Oaep(db.challenges[c].body.fingerprint, secret);
              var credential := Credential(db.specs[i].credentialId, Sha256(secret), now, expiry, 0, 0);
              var used := db.challenges[c].(usedAt := now, response := Some(cipher), credentialExpiresAt := expiry);
              && tx.result.value.0 == Release(c, cipher, expiry)
              && tx.db == db.(credentials := db.credentials[i := credential], challenges := db.challenges[c := used]))
      && (tx.result.Err? || tx.result.value.1 ==> tx.db == db)
  {
    hide Inv, Evolves, Complete, ProofFault, CredentialIdTaken, ReleasedBy;
    CompleteIsSound(db, i, c, signature, secret, now);
    if FirstUse(db, i, c, signature, now) {
      FirstProof(db, i, c, signature, secret, now);
    } else if Addressed(db, i, c, signature) && db.challenges[c].usedAt != 0 {
      UsedChallengeAnswers(db, i, c, signature, secret, now);
    } else {
      CompleteRefused(db, i, c, signature, secret, now);
    }
  }

  // ---------------------------------------------------------------------------
  // Credentials
  // ---------------------------------------------------------------------------

  /** Neither revoked nor expired. */
  ghost predicate Live(db: Db, i: Id, now: Instant) {
    i in db.credentials && db.credentials[i].revokedAt == 0 && db.credentials[i].expiresAt > now
  }

  /** A bearer secret opens exactly the live credential whose verifier is its hash. */
  lemma {:induction false} SecretOpens(db: Db, i: Id, secret: nat, now: Instant)
    requires Inv(db)
    ensures Authenticated(db, i, Bearer(secret), now).Ok?
      <==> Live(db, i, now) && db.credentials[i].verifier == Sha256(secret)
    ensures Authenticated(db, i, Bearer(secret), now).Ok?
      ==> Authenticated(db, i, Bearer(secret), now) == Ok(ById(db.credentials[i].id))
  {
    hide Histories, AssignmentsSound, ChallengesSound, KeysSound, Logs, SpecsOwned, IdentifiersAttached, IdsDrawn;
    hide UsedFor, Answers;
    if i in db.credentials {
      assert CredentialFits(db.credentials[i], db.specs[i]);
    }
  }

  /** The times are at most 300 seconds apart, either way; one is in seconds and the other in nanoseconds. */
  predicate InWindow(unixSeconds: int, now: Instant) {
    -300_000_000_000 <= unixSeconds * 1_000_000_000 - now <= 300_000_000_000
  }

  /** A signed request is accepted exactly when it has a canonical form, was signed within 300 seconds of now, the
      credential is live, and the signature is that of the canonical form under its verifier. */
  lemma {:induction false} SignatureOpens(db: Db, i: Id, request: Canonical.Request, mac: Hmac, now: Instant)
    ensures Authenticated(db, i, SignedRequest(request, mac), now).Ok?
      <==> (Canonical.Telemetry(request).Some? && InWindow(request.unixSeconds, now) && Live(db, i, now)
            && mac == Hmac(db.credentials[i].verifier, Canonical.Telemetry(request).value))
    ensures Authenticated(db, i, SignedRequest(request, mac), now).Ok?
      ==> Authenticated(db, i, SignedRequest(request, mac), now) == Ok(ByInstallation(i))
  {
    hide Canonical.Telemetry;
  }

  /** What it takes to be let in, either way. */
  ghost predicate Opens(db: Db, i: Id, proof: Proof, now: Instant) {
    && Live(db, i, now)
    && match proof
       case Bearer(secret) => db.credentials[i].verifier == Sha256(secret)
       case SignedRequest(request, mac) =>
         && Canonical.Telemetry(request).Some? && InWindow(request.unixSeconds, now)
         && mac == Hmac(db.credentials[i].verifier, Canonical.Telemetry(request).value)
  }

  lemma {:induction false} ProofOpens(db: Db, i: Id, proof: Proof, now: Instant)
    requires Inv(db)
    ensures Authenticated(db, i, proof, now).Ok? <==> Opens(db, i, proof, now)
    ensures Opens(db, i, proof, now) ==>
      Authenticated(db, i, proof, now) == Ok(if proof.Bearer? then ById(db.credentials[i].id) else ByInstallation(i))
  {
    hide Inv, Authenticated, Canonical.Telemetry, InWindow;
    match proof
    case Bearer(secret) => SecretOpens(db, i, secret, now);
    case SignedRequest(request, mac) => SignatureOpens(db, i, request, mac, now);
  }

  lemma {:induction false} SecretCheckOpens(db: Db, i: Id, secret: nat, now: Instant)
    requires Inv(db)
    ensures CheckSecret(db, i, secret, now).Ok? <==> Opens(db, i, Bearer(secret), now)
  {
    hide Inv, CheckSecret;
    SecretOpens(db, i, secret, now);
  }

  lemma {:induction false} MacCheckOpens(db: Db, i: Id, request: Canonical.Request, mac: Hmac, now: Instant)
    ensures CheckMac(db, i, request, mac, now).Ok? <==> Opens(db, i, SignedRequest(request, mac), now)
  {
    hide CheckMac, Canonical.Telemetry, InWindow;
    SignatureOpens(db, i, request, mac, now);
  }

  /** The use of a credential is stamped on the rows it names, and changes nothing else. */
  lemma {:induction false} UseIsNoted(db: Db, touch: Touch, now: Instant)
    ensures var b := Touched(db, touch, now);
      && b == db.(credentials := b.credentials) && b.credentials.Keys == db.credentials.Keys
      && forall j | j in db.credentials ::
           var named := if touch.ById? then db.credentials[j].id == touch.id else j == touch.installation;
           b.credentials[j] == if named then db.credentials[j].(lastUsedAt := now) else db.credentials[j]
  {
  }

  /** A manual revocation needs a name and a credential that is not revoked, and stamps it. */
  lemma {:induction false} RevocationWrites(db: Db, i: Id, actor: string, now: Instant)
    ensures var tx := RevokeCredential(db, i, actor, now);
      && (tx.result.Ok? <==> Trim(actor) != "" && i in db.credentials && db.credentials[i].revokedAt == 0)
      && (tx.result.Ok? ==>
            tx.db == db.(credentials := db.credentials[i := db.credentials[i].(revokedAt := now)]))
      && (tx.result.Err? ==> tx.db == db)
  {
    hide Trim;
  }

  // ---------------------------------------------------------------------------
  // Events and chunks
  // ---------------------------------------------------------------------------

  /** An event is accepted exactly when the report is valid, the installation exists, and it either has exactly this
      report already, or the key is free and the stage is next. A new event goes to the end, and one that ends the
      installation also stamps the credential as revoked. */
  lemma {:induction false} EventWrites(db: Db, i: Id, report: Report, requestId: string, now: Instant)
    requires Inv(db)
    ensures var tx := AppendEvent(db, i, report, requestId, now);
      var had := i in db.events && exists e :: e in db.events[i] && e.report == report;
      var next := && i in db.events && CanAdvance(CurrentStage(db, i), report.stage)
                  && forall e | e in db.events[i] :: e.report.key != report.key;
      && (tx.result.Ok? <==> ValidReport(report) && i in db.specs && (had || next))
      && (tx.result.Ok? && had ==> tx.db == db && tx.result.value.1 && tx.result.value.0.report == report)
      && (tx.result.Ok? && !had ==>
            var e := Event(report, now, requestId);
            var revoked := Terminal(report.stage) && i in db.credentials && db.credentials[i].revokedAt == 0;
            && tx.result == Ok((e, false))
            && tx.db == db.(
                 events := db.events[i := db.events[i] + [e]],
                 credentials := if revoked then db.credentials[i := db.credentials[i].(revokedAt := now)] else db.credentials))
      && (tx.result.Err? ==> tx.db == db)
  {
    hide Inv, ValidReport, FindEvent, Histories, History, CanAdvance, AppendEvent, Follows, CurrentStage, Terminal;
    HistoriesHold(db);
    if ValidReport(report) && i in db.specs {
      AppendEventCases(db, i, report, requestId, now);
      CurrentIsLast(db, i);
      KeysApart(db, i);
      var events := db.events[i];
      HadIsFound(events, report);
      FollowsExactly(db, i, Event(report, now, requestId));
      if FindEvent(events, report.key).None? {
        NotHad(events, report);
      }
    } else {
      InvalidIsRefused(db, i, report, requestId, now);
    }
  }

  lemma {:induction false} InvalidIsRefused(db: Db, i: Id, report: Report, requestId: string, now: Instant)
    requires !ValidReport(report) || i !in db.specs
    ensures AppendEvent(db, i, report, requestId, now).result.Err? && AppendEvent(db, i, report, requestId, now).db == db
  {
    hide ValidReport;
  }

  lemma {:induction false} KeysApart(db: Db, i: Id)
    requires Histories(db.events, db.specs.Keys, db.assignments.Keys, db.credentials) && i in db.events
    ensures forall j, k | 0 <= j < k < |db.events[i]| :: db.events[i][j].report.key != db.events[i][k].report.key
  {
    assert History(i, db.events[i]);
  }

  lemma {:induction false} HadIsFound(events: seq<Event>, report: Report)
    requires forall j, k | 0 <= j < k < |events| :: events[j].report.key != events[k].report.key
    ensures (exists e :: e in events && e.report == report)
      <==> FindEvent(events, report.key).Some? && FindEvent(events, report.key).value.report == report
  {
    hide FindEvent;
    if e :| e in events && e.report == report {
      var k :| 0 <= k < |events| && events[k] == e;
      FirstWithKey(events, report.key, k);
    }
  }

  lemma {:induction false} NotHad(events: seq<Event>, report: Report)
    requires FindEvent(events, report.key).None?
    ensures forall e | e in events :: e.report.key != report.key
  {
    hide FindEvent;
  }

  lemma {:induction false} FollowsExactly(db: Db, i: Id, e: Event)
    requires i in db.events && db.events[i] != [] && CurrentStage(db, i) == Some(Last(db.events[i]))
    requires ValidReport(e.report)
    ensures Follows(db.events[i], e)
      <==> CanAdvance(CurrentStage(db, i), e.report.stage) && forall x | x in db.events[i] :: x.report.key != e.report.key
  {
    ValidReportSource(e.report);
    hide ValidReport, CanAdvance;
    assert forall k | 0 <= k < |db.events[i]| :: db.events[i][k] in db.events[i];
  }

  /** A server report goes to the end under the rules of the stages, without touching anything else. */
  lemma {:induction false} ServerEventWrites(db: Db, i: Id, report: Report, requestId: string, at: Time)
    requires Inv(db) && i in db.specs && report.source == Server && AppendServerEvent(db, i, report, requestId, at).Ok?
    ensures i in db.events
    ensures var b := AppendServerEvent(db, i, report, requestId, at).value;
      if exists e :: e in db.events[i] && e.report.key == report.key then b == db
      else b == db.(events := db.events[i := db.events[i] + [Event(report, at, requestId)]])
  {
    hide Inv, FindEvent, SourceAllowed, CanAdvance, Histories, History;
    HistoriesHold(db);
    CurrentIsLast(db, i);
  }

  /** A chunk is accepted exactly when its redaction is valid, the installation exists, and it either repeats a stored
      chunk, or is the next in number under a free key and fits what is left of 16 MiB. A new chunk goes to the end. */
  lemma {:induction false} ChunkWrites(db: Db, i: Id, raw: ChunkInput, requestId: string, now: Instant)
    requires Inv(db)
    ensures var tx, input, chunks := AppendChunk(db, i, raw, requestId, now), RedactedInput(raw), ChunksOf(db, i);
      var had := exists c :: c in chunks && c.input == input;
      var next := && raw.sequence == |chunks| + 1 && TotalBytes(chunks) + |input.content| <= 16_777_216
                  && forall c | c in chunks :: c.input.key != input.key;
      && (tx.result.Ok? <==> ValidChunk(input) && i in db.specs && (had || next))
      && (tx.result.Ok? && had ==> tx.db == db && tx.result.value.1 && tx.result.value.0.input == input)
      && (tx.result.Ok? && !had ==>
            tx == Tx(db.(chunks := db.chunks[i := chunks + [Chunk(input, now, requestId)]]),
                     Ok((Chunk(input, now, requestId), false))))
      && (tx.result.Err? ==> tx.db == db)
  {
    hide Inv, ValidChunk, FindChunk, AppendChunk, TotalBytes, Redaction.Redact, Log, Logs;
    if ValidChunk(RedactedInput(raw)) && i in db.specs {
      var chunks, input := ChunksOf(db, i), RedactedInput(raw);
      StoredChunks(db, i);
      AppendChunkCases(db, i, raw, requestId, now);
      ChunkHadIsFound(chunks, input);
      SourceIsClients(input);
      assert forall k | 0 <= k < |chunks| :: chunks[k] in chunks;
    } else {
      InvalidChunkIsRefused(db, i, raw, requestId, now);
    }
  }

  lemma {:induction false} SourceIsClients(c: ChunkInput)
    requires ValidChunk(c)
    ensures c.source != Server
  {
  }

  lemma {:induction false} StoredChunks(db: Db, i: Id)
    requires Inv(db)
    ensures Logs(db.chunks, db.specs.Keys)
    ensures var chunks := ChunksOf(db, i); forall j, k | 0 <= j < k < |chunks| :: chunks[j].input.key != chunks[k].input.key
  {
    hide Histories, TrustSound, AssignmentsSound, ChallengesSound, KeysSound, SpecsOwned, IdentifiersAttached, IdsDrawn;
    assert Log(ChunksOf(db, i));
  }

  lemma {:induction false} ChunkHadIsFound(chunks: seq<Chunk>, input: ChunkInput)
    requires forall j, k | 0 <= j < k < |chunks| :: chunks[j].input.key != chunks[k].input.key
    ensures (exists c :: c in chunks && c.input == input)
      <==> FindChunk(chunks, input.key).Some? && FindChunk(chunks, input.key).value.input == input
  {
    hide FindChunk;
    if c :| c in chunks && c.input == input {
      var k :| 0 <= k < |chunks| && chunks[k] == c;
      FirstChunkWithKey(chunks, input.key, k);
    }
  }

  lemma {:induction false} FirstChunkWithKey(chunks: seq<Chunk>, key: string, k: nat)
    requires k < |chunks| && chunks[k].input.key == key
    requires forall i, j | 0 <= i < j < |chunks| :: chunks[i].input.key != chunks[j].input.key
    ensures FindChunk(chunks, key) == Some(chunks[k])
  {
    if k > 0 {
      FirstChunkWithKey(chunks[1..], key, k - 1);
    }
  }

  lemma {:induction false} InvalidChunkIsRefused(db: Db, i: Id, raw: ChunkInput, requestId: string, now: Instant)
    requires !ValidChunk(RedactedInput(raw)) || i !in db.specs
    ensures AppendChunk(db, i, raw, requestId, now).result.Err? && AppendChunk(db, i, raw, requestId, now).db == db
  {
    hide ValidChunk, Redaction.Redact;
  }

  // ---------------------------------------------------------------------------
  // Deletions
  // ---------------------------------------------------------------------------

  /** Deleting an installation needs a name and one that exists and is not armed; it takes every row of that
      installation, and no other one. */
  lemma {:induction false} InstallationIsDeleted(db: Db, i: Id, actor: string)
    requires Inv(db)
    ensures var tx := DeleteInstallation(db, i, actor);
      && (tx.result.Ok? <==>
            Trim(actor) != "" && i in db.specs && !(i in db.assignments && db.assignments[i].state == Armed))
      && (tx.result.Ok? ==>
            var b := tx.db;
            && b.specs == db.specs - {i} && b.assignments == db.assignments - {i} && b.credentials == db.credentials - {i}
            && b.events == db.events - {i} && b.chunks == db.chunks - {i}
            && (forall c :: c in b.challenges <==> c in db.challenges && db.challenges[c].body.installationId != i)
            && (forall c | c in b.challenges :: b.challenges[c] == db.challenges[c])
            && b.nextId == db.nextId && b.machines == db.machines && b.identifiers == db.identifiers && b.keys == db.keys)
      && (tx.result.Err? ==> tx.db == db)
  {
    hide Inv, DeleteInstallation, Trim;
    DeleteInstallationCommits(db, i, actor);
  }

  /** Deleting a machine needs a name and one that exists and has no installation; it takes its keys and identifiers. */
  lemma {:induction false} MachineIsDeleted(db: Db, m: Id, actor: string)
    requires Inv(db)
    ensures var tx := DeleteMachine(db, m, actor);
      && (tx.result.Ok? <==>
            Trim(actor) != "" && m in db.machines && forall i | i in db.specs :: db.specs[i].machineId != m)
      && (tx.result.Ok? ==>
            var b := tx.db;
            && b.machines == db.machines - {m}
            && (forall n :: n in b.identifiers <==> n in db.identifiers && db.identifiers[n] != m)
            && (forall n | n in b.identifiers :: b.identifiers[n] == db.identifiers[n])
            && (forall f :: f in b.keys <==> f in db.keys && db.keys[f].machineId != m)
            && (forall f | f in b.keys :: b.keys[f] == db.keys[f])
            && SameRest(db, b) && b.nextId == db.nextId)
      && (tx.result.Err? ==> tx.db == db)
  {
    hide Histories, TrustSound, Logs, KeysSound, IdsDrawn, SpecsOwned, IdentifiersAttached;
    hide DeleteMachine, Trim, AssignmentsSound, ChallengesSound;
    DeleteMachineCommits(db, m, actor);
  }
}
