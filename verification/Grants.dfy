/** Where the assignments, challenges and credentials of a run come from, and what ended them. */
module Grants {
  import opened Prelude
  import opened Text
  import opened Lifecycle
  import opened Records
  import opened Schema
  import opened Transactions
  import opened StoreInvariant
  import opened StoreSteps
  import opened TelemetrySteps
  import opened TrustSteps
  import opened ControlPlane
  import opened StepsAreFaithful
  import opened Interleavings
  import opened Handoffs
  import opened BootGate
  import opened Posts
  import opened Provenance
  import opened TrustRuns
  import opened Uninterrupted
  import opened Writes
  import Canonical

  // ---------------------------------------------------------------------------
  // Assignments
  // ---------------------------------------------------------------------------

  /** The action arms the installation for its machine, which is released for provisioning. */
  ghost predicate ArmsRow(db: Db, action: Action, i: Id, row: Assignment) {
    && action.Do? && action.call.ArmCall? && action.call.installation == i && action.call.machine == row.machineId
    && i !in db.assignments && i in db.specs && db.specs[i].machineId == row.machineId
    && row.machineId in db.machines && db.machines[row.machineId].policy == Provision
    && Trim(action.call.actor) != "" && row.armedBy == Trim(action.call.actor) && row.armedAt == action.now
    && row.state == Armed
  }

  ghost predicate CancelsRow(db: Db, action: Action, i: Id, row: Assignment) {
    && action.Do? && action.call.CancelCall? && action.call.installation == i && Trim(action.call.actor) != ""
    && i in db.assignments && db.assignments[i].state == Armed
    && row == db.assignments[i].(state := Cancelled, cancelledAt := action.now)
  }

  /** The action is the step of a request for the preseed that hands the installation over. */
  ghost predicate HandsOver(a: Sys, action: Action, i: Id, row: Assignment) {
    && Was(a, action) == Some(Consuming(i))
    && i in a.db.assignments && a.db.assignments[i].state == Armed
    && row == a.db.assignments[i].(state := Consumed, consumedAt := action.now)
  }

  ghost predicate AssignmentStepped(a: Sys, action: Action, i: Id, row: Assignment) {
    || (i in a.db.assignments && row == a.db.assignments[i])
    || ArmsRow(a.db, action, i, row) || CancelsRow(a.db, action, i, row) || HandsOver(a, action, i, row)
  }

  lemma {:induction false} SameAssignmentStepped(a: Sys, action: Action, i: Id)
    ensures i in a.db.assignments ==> AssignmentStepped(a, action, i, a.db.assignments[i])
  {
    hide ArmsRow, CancelsRow, HandsOver;
  }

  lemma {:induction false} ArmingStepped(a: Sys, m: Id, i: Id, requestId: string, actor: string, now: Instant, j: Id)
    requires Inv(a.db)
    ensures var b := Arm(a.db, m, i, requestId, actor, now).db;
      j in b.assignments ==> AssignmentStepped(a, Do(ArmCall(m, i, requestId, actor), now), j, b.assignments[j])
  {
    hide Inv, Arm, Trim, Decimal;
    ArmingWrites(a.db, m, i, requestId, actor, now);
  }

  lemma {:induction false} CancellingStepped(a: Sys, i: Id, actor: string, now: Instant, j: Id)
    requires Inv(a.db)
    ensures var b := Cancel(a.db, i, actor, now).db;
      j in b.assignments ==> AssignmentStepped(a, Do(CancelCall(i, actor), now), j, b.assignments[j])
  {
    hide Inv, Settle, Trim;
    SettlingWrites(a.db, i, actor, now);
  }

  lemma {:induction false} ClaimEffect(db: Db, call: Call, now: Instant)
    requires call.ArmCall? || call.CancelCall?
    ensures CallEffect(db, call, now).db
      == if call.ArmCall? then Arm(db, call.machine, call.installation, call.requestId, call.actor, now).db
         else Cancel(db, call.installation, call.actor, now).db
  {
    hide Arm, Settle;
  }

  lemma {:induction false} AssignmentCallStep(a: Sys, call: Call, now: Instant, i: Id)
    requires Inv(a.db)
    ensures var b := CallEffect(a.db, call, now).db;
      i in b.assignments ==> AssignmentStepped(a, Do(call, now), i, b.assignments[i])
  {
    hide Inv, CallEffect, AssignmentStepped, Arm, Settle, DeleteInstallation, Trim;
    CallFrame(a.db, call, now);
    SameAssignmentStepped(a, Do(call, now), i);
    match call
    case ArmCall(m, j, requestId, actor) =>
      ArmingStepped(a, m, j, requestId, actor, now, i);
      ClaimEffect(a.db, call, now);
    case CancelCall(j, actor) =>
      CancellingStepped(a, j, actor, now, i);
      ClaimEffect(a.db, call, now);
    case DeleteInstallationCall(j, actor) =>
      InstallationIsDeleted(a.db, j, actor);
      RemovalEffect(a.db, j, actor, now);
    case _ =>
  }

  lemma {:induction false} HandoverStepped(a: Sys, r: nat, requestId: string, now: Instant, i: Id)
    requires Inv(a.db) && r in a.requests && a.requests[r].Consuming?
    ensures var b := StepEffect(a.secureBoot, a.db, r, a.requests[r], requestId, now).db;
      i in b.assignments ==> AssignmentStepped(a, Continue(r, requestId, now), i, b.assignments[i])
  {
    hide Inv, StepEffect;
    ConsumptionIsExact(a.secureBoot, a.db, r, a.requests[r].installation, requestId, now);
  }

  lemma {:induction false} AssignmentActionStep(a: Sys, action: Action, i: Id)
    requires Inv(a.db)
    ensures var b := Next(a, action).db; i in b.assignments ==> AssignmentStepped(a, action, i, b.assignments[i])
  {
    hide Inv, CallEffect, StartEffect, StepEffect, AssignmentStepped;
    SameAssignmentStepped(a, action, i);
    match action
    case Do(call, now) => AssignmentCallStep(a, call, now, i);
    case Begin(start, now) => StartFrame(a.db, a.nextRequest, start, now);
    case Continue(r, requestId, now) =>
      if r in a.requests {
        StepFrame(a.secureBoot, a.db, r, a.requests[r], requestId, now);
        if a.requests[r].Consuming? {
          HandoverStepped(a, r, requestId, now, i);
        }
      }
    case Abandon(_) =>
  }

  // --- over a run ---

  ghost predicate RowArmedAt(states: seq<Sys>, actions: seq<Action>, n: nat, i: Id, row: Assignment) {
    n < |actions| < |states| && ArmsRow(states[n].db, actions[n], i, row.(state := Armed))
  }

  ghost predicate RowCancelledAt(states: seq<Sys>, actions: seq<Action>, n: nat, i: Id, row: Assignment) {
    && n < |actions| < |states| && actions[n].Do? && actions[n].call.CancelCall? && actions[n].call.installation == i
    && Trim(actions[n].call.actor) != "" && row.cancelledAt == actions[n].now
  }

  ghost predicate AssignmentTraced(
    policy: SecureBootPolicy, states: seq<Sys>, actions: seq<Action>, i: Id, row: Assignment) {
    && (exists n: nat :: RowArmedAt(states, actions, n, i, row))
    && (row.state == Cancelled ==> exists n: nat :: RowCancelledAt(states, actions, n, i, row))
    && (row.state == Consumed ==> exists r: nat :: MayLoad(policy, states, actions, r, Material.Preseed, i))
  }

  lemma {:induction false} AssignmentTracedStep(
    policy: SecureBootPolicy, states: seq<Sys>, actions: seq<Action>, b: Sys, action: Action, i: Id, row: Assignment)
    requires |states| == |actions| + 1 && AssignmentStepped(states[|actions|], action, i, row)
    requires ToldAll(policy, states, actions)
    requires var db := states[|actions|].db;
      i in db.assignments ==> AssignmentTraced(policy, states, actions, i, db.assignments[i])
    ensures AssignmentTraced(policy, states + [b], actions + [action], i, row)
  {
    hide Trim, MayLoad;
    var states', actions', n := states + [b], actions + [action], |actions|;
    var a := states[n];
    assert states'[n] == a && actions'[n] == action;
    if ArmsRow(a.db, action, i, row) {
      assert RowArmedAt(states', actions', n, i, row);
    } else {
      var was := a.db.assignments[i];
      var k: nat :| RowArmedAt(states, actions, k, i, was);
      assert RowArmedAt(states', actions', k, i, row);
      if row.state == Cancelled {
        if was.state == Cancelled {
          var j: nat :| RowCancelledAt(states, actions, j, i, was);
          assert RowCancelledAt(states', actions', j, i, row);
        } else {
          assert RowCancelledAt(states', actions', n, i, row);
        }
      }
      if row.state == Consumed {
        HandoverMayLoad(policy, states, actions, b, action, i, was, row);
      }
    }
  }

  lemma {:induction false} HandoverMayLoad(
    policy: SecureBootPolicy, states: seq<Sys>, actions: seq<Action>, b: Sys, action: Action, i: Id, was: Assignment,
    row: Assignment)
    requires ToldAll(policy, states, actions) && AssignmentTraced(policy, states, actions, i, was)
    requires was.state == Consumed || HandsOver(states[|actions|], action, i, row)
    ensures exists r: nat :: MayLoad(policy, states + [b], actions + [action], r, Material.Preseed, i)
  {
    hide MayLoad;
    var r: nat;
    if was.state == Consumed {
      r :| MayLoad(policy, states, actions, r, Material.Preseed, i);
    } else {
      r := action.request;
      assert Told(policy, states, actions, r, Consuming(i));
    }
    MayLoadStays(policy, states, actions, b, action, r, Material.Preseed, i);
  }

  /** Every assignment was armed by somebody with a name, for a machine released for provisioning. It is cancelled only if
      somebody with a name cancelled it, and handed over only to a request for the preseed that found the machine cleared
      and the installation armed for it. */
  lemma {:induction false} AssignmentIsTraced(policy: SecureBootPolicy, actions: seq<Action>, i: Id)
    requires i in Run(policy, actions).db.assignments
    ensures var states, row := States(policy, actions), Run(policy, actions).db.assignments[i];
      && (exists n: nat :: RowArmedAt(states, actions, n, i, row))
      && (row.state == Cancelled ==> exists n: nat :: RowCancelledAt(states, actions, n, i, row))
      && (row.state == Consumed ==> exists r: nat :: MayLoad(policy, states, actions, r, Material.Preseed, i))
    decreases |actions|
  {
    hide Run, Next, Inv, AssignmentStepped, RowArmedAt, RowCancelledAt, MayLoad, ToldAll;
    StatesEnd(policy, actions);
    if actions == [] {
      RunStart(policy);
    } else {
      var front, last := actions[..|actions| - 1], actions[|actions| - 1];
      var sys := Run(policy, front);
      StatesEnd(policy, front);
      StatesGrow(policy, actions);
      RunStep(policy, actions);
      RunKeepsInv(policy, front);
      RunIsTold(policy, front);
      AssignmentActionStep(sys, last, i);
      if i in sys.db.assignments {
        AssignmentIsTraced(policy, front, i);
      }
      AssignmentTracedStep(
        policy, States(policy, front), front, Next(sys, last), last, i, Run(policy, actions).db.assignments[i]);
    }
  }

  // ---------------------------------------------------------------------------
  // Credentials
  // ---------------------------------------------------------------------------

  /** The action is a proof that earns the credential. */
  ghost predicate Earns(db: Db, action: Action, i: Id, row: Credential) {
    && action.Do? && action.call.ProveCall? && action.call.installation == i
    && Justified(db, i, action.call.challenge, action.call.signature, action.now)
    && row.verifier == Sha256(action.call.secret)
    && row.createdAt == action.now && row.expiresAt == action.now + 86_400_000_000_000 && row.revokedAt == 0
  }

  ghost predicate RevokesCredential(action: Action, i: Id, at: Time) {
    && action.Do? && action.call.RevokeCredentialCall? && action.call.installation == i && Trim(action.call.actor) != ""
    && action.now == at
  }

  /** The installation has ended with an event of that time. */
  ghost predicate EndedAt(db: Db, i: Id, at: Time) {
    exists e :: e in EventsOf(db, i) && Terminal(e.report.stage) && e.receivedAt == at
  }

  ghost predicate CredentialStepped(a: Db, action: Action, b: Db, i: Id, row: Credential) {
    || Earns(a, action, i, row)
    || (i in a.credentials && row == a.credentials[i].(lastUsedAt := row.lastUsedAt))
    || (i in a.credentials && a.credentials[i].revokedAt == 0 && row == a.credentials[i].(revokedAt := row.revokedAt)
        && (RevokesCredential(action, i, row.revokedAt) || EndedAt(b, i, row.revokedAt)))
  }

  lemma {:induction false} ProofStepped(db: Db, i: Id, c: Id, signature: Signature, secret: nat, now: Instant, j: Id)
    requires Inv(db)
    ensures var b := Complete(db, i, c, signature, secret, now).db;
      j in b.credentials ==> CredentialStepped(db, Do(ProveCall(i, c, signature, secret), now), b, j, b.credentials[j])
  {
    hide Inv, Complete, Justified, EndedAt;
    ProofWrites(db, i, c, signature, secret, now);
    var tx := Complete(db, i, c, signature, secret, now);
    if tx.result.Ok? && !tx.result.value.1 {
      FirstReleaseIsJustified(db, i, c, signature, secret, now, tx.result.value.0);
    }
  }

  lemma {:induction false} RevocationStepped(db: Db, i: Id, actor: string, now: Instant, j: Id)
    ensures var b := RevokeCredential(db, i, actor, now).db;
      j in b.credentials ==> CredentialStepped(db, Do(RevokeCredentialCall(i, actor), now), b, j, b.credentials[j])
  {
    hide RevokeCredential, Trim, Justified, EndedAt;
    RevocationWrites(db, i, actor, now);
  }

  lemma {:induction false} SameCredentialStepped(a: Db, action: Action, b: Db, i: Id)
    ensures i in a.credentials ==> CredentialStepped(a, action, b, i, a.credentials[i])
  {
    hide Earns, RevokesCredential, EndedAt;
  }

  lemma {:induction false} CredentialEffect(db: Db, call: Call, now: Instant)
    requires call.ProveCall? || call.RevokeCredentialCall?
    ensures CallEffect(db, call, now).db
      == if call.ProveCall? then Complete(db, call.installation, call.challenge, call.signature, call.secret, now).db
         else RevokeCredential(db, call.installation, call.actor, now).db
  {
    hide Complete, RevokeCredential;
  }

  lemma {:induction false} CredentialCallStep(db: Db, call: Call, now: Instant, i: Id)
    requires Inv(db)
    ensures var b := CallEffect(db, call, now).db;
      i in b.credentials ==> CredentialStepped(db, Do(call, now), b, i, b.credentials[i])
  {
    hide Inv, CallEffect, CredentialStepped, Complete, RevokeCredential, DeleteInstallation, Trim;
    CallFrame(db, call, now);
    SameCredentialStepped(db, Do(call, now), CallEffect(db, call, now).db, i);
    match call
    case ProveCall(j, c, signature, secret) =>
      ProofStepped(db, j, c, signature, secret, now, i);
      CredentialEffect(db, call, now);
    case RevokeCredentialCall(j, actor) =>
      RevocationStepped(db, j, actor, now, i);
      CredentialEffect(db, call, now);
    case DeleteInstallationCall(j, actor) =>
      InstallationIsDeleted(db, j, actor);
      RemovalEffect(db, j, actor, now);
    case _ =>
  }

  lemma {:induction false} EventStepped(
    policy: SecureBootPolicy, db: Db, r: nat, request: Request, requestId: string, now: Instant, i: Id)
    requires Inv(db) && (request.AppendingEvent? || request.CheckingIn?)
    ensures var b := StepEffect(policy, db, r, request, requestId, now).db;
      i in b.credentials ==> CredentialStepped(db, Continue(r, requestId, now), b, i, b.credentials[i])
  {
    hide Inv, StepEffect, AppendEvent, ValidReport, CanAdvance, PxeKey, Justified;
    StepCommits(policy, db, r, request, requestId, now);
    var j, report := request.installation, if request.CheckingIn? then CheckInReport(request.installation) else request.report;
    EventWrites(db, j, report, requestId, now);
    var b := AppendEvent(db, j, report, requestId, now).db;
    if b != db {
      assert Last(b.events[j]) == Event(report, now, requestId);
    }
  }

  ghost function Last(events: seq<Event>): Event
    requires events != []
  {
    events[|events| - 1]
  }

  lemma {:induction false} UseStepped(
    policy: SecureBootPolicy, db: Db, r: nat, request: Request, requestId: string, now: Instant, i: Id)
    requires request.Touching?
    ensures var b := StepEffect(policy, db, r, request, requestId, now).db;
      i in b.credentials ==> CredentialStepped(db, Continue(r, requestId, now), b, i, b.credentials[i])
  {
    hide StepEffect, Touched, Justified, EndedAt;
    TouchStep(policy, db, r, request, requestId, now);
    UseIsNoted(db, request.touch, now);
  }

  lemma {:induction false} CredentialActionStep(a: Sys, action: Action, i: Id)
    requires Inv(a.db)
    ensures var b := Next(a, action).db; i in b.credentials ==> CredentialStepped(a.db, action, b, i, b.credentials[i])
  {
    hide Inv, CallEffect, StartEffect, StepEffect, CredentialStepped;
    SameCredentialStepped(a.db, action, Next(a, action).db, i);
    match action
    case Do(call, now) => CredentialCallStep(a.db, call, now, i);
    case Begin(start, now) => StartFrame(a.db, a.nextRequest, start, now);
    case Continue(r, requestId, now) =>
      if r in a.requests {
        StepFrame(a.secureBoot, a.db, r, a.requests[r], requestId, now);
        if a.requests[r].AppendingEvent? || a.requests[r].CheckingIn? {
          EventStepped(a.secureBoot, a.db, r, a.requests[r], requestId, now, i);
        } else if a.requests[r].Touching? {
          UseStepped(a.secureBoot, a.db, r, a.requests[r], requestId, now, i);
        }
      }
    case Abandon(_) =>
  }

  // --- over a run ---

  ghost predicate EarnedAt(states: seq<Sys>, actions: seq<Action>, n: nat, i: Id, row: Credential) {
    n < |actions| < |states| && Earns(states[n].db, actions[n], i, row.(revokedAt := 0))
  }

  ghost predicate CredentialRevokedAt(states: seq<Sys>, actions: seq<Action>, n: nat, i: Id, at: Time) {
    n < |actions| < |states| && RevokesCredential(actions[n], i, at)
  }

  ghost predicate CredentialTraced(states: seq<Sys>, actions: seq<Action>, db: Db, i: Id, row: Credential) {
    && (exists n: nat :: EarnedAt(states, actions, n, i, row))
    && (row.revokedAt != 0 ==>
          (exists n: nat :: CredentialRevokedAt(states, actions, n, i, row.revokedAt)) || EndedAt(db, i, row.revokedAt))
  }

  lemma {:induction false} EndStays(a: Db, b: Db, i: Id, at: Time)
    requires Evolves(a, b) && i in b.specs && EndedAt(a, i, at)
    ensures EndedAt(b, i, at)
  {
    var e :| e in EventsOf(a, i) && Terminal(e.report.stage) && e.receivedAt == at;
    LaterEvents(a, b, i);
    hide Evolves;
    assert e in EventsOf(b, i);
  }

  lemma {:induction false} CredentialTracedStep(
    states: seq<Sys>, actions: seq<Action>, b: Sys, action: Action, i: Id, row: Credential)
    requires |states| == |actions| + 1 && CredentialStepped(states[|actions|].db, action, b.db, i, row)
    requires Evolves(states[|actions|].db, b.db) && i in b.db.specs
    requires var db := states[|actions|].db;
      i in db.credentials ==> CredentialTraced(states, actions, db, i, db.credentials[i])
    ensures CredentialTraced(states + [b], actions + [action], b.db, i, row)
  {
    hide Evolves, Justified, EndedAt, Trim;
    var states', actions', n := states + [b], actions + [action], |actions|;
    var db := states[n].db;
    assert states'[n] == states[n] && actions'[n] == action;
    if Earns(db, action, i, row) {
      assert EarnedAt(states', actions', n, i, row);
    } else {
      var was := db.credentials[i];
      var k: nat :| EarnedAt(states, actions, k, i, was);
      assert EarnedAt(states', actions', k, i, row);
      if row.revokedAt != 0 && was.revokedAt == 0 {
        assert RevokesCredential(action, i, row.revokedAt) ==> CredentialRevokedAt(states', actions', n, i, row.revokedAt);
      } else if row.revokedAt != 0 {
        if j: nat :| CredentialRevokedAt(states, actions, j, i, was.revokedAt) {
          assert CredentialRevokedAt(states', actions', j, i, row.revokedAt);
        } else {
          EndStays(db, b.db, i, row.revokedAt);
        }
      }
    }
  }

  /** Every credential was earned by a proof that was justified in that state, with the hash of the secret that was
      released and a life of 24 hours. It is revoked only because somebody with a name revoked it or the installation ended,
      and at that time. */
  lemma {:induction false} CredentialIsTraced(policy: SecureBootPolicy, actions: seq<Action>, i: Id)
    requires i in Run(policy, actions).db.credentials
    ensures var states, db := States(policy, actions), Run(policy, actions).db;
      var row := db.credentials[i];
      && (exists n: nat :: EarnedAt(states, actions, n, i, row))
      && (row.revokedAt != 0 ==>
            (exists n: nat :: CredentialRevokedAt(states, actions, n, i, row.revokedAt)) || EndedAt(db, i, row.revokedAt))
    decreases |actions|
  {
    hide Run, Next, Inv, Evolves, Prepared, CredentialStepped, EarnedAt, CredentialRevokedAt, EndedAt;
    StatesEnd(policy, actions);
    if actions == [] {
      RunStart(policy);
    } else {
      var front, last := actions[..|actions| - 1], actions[|actions| - 1];
      var sys := Run(policy, front);
      StatesEnd(policy, front);
      StatesGrow(policy, actions);
      RunStep(policy, actions);
      RunIsValid(policy, front);
      NextIsValid(sys, last);
      CredentialHasSpec(Next(sys, last).db, i);
      CredentialActionStep(sys, last, i);
      if i in sys.db.credentials {
        CredentialIsTraced(policy, front, i);
      }
      CredentialTracedStep(
        States(policy, front), front, Next(sys, last), last, i, Run(policy, actions).db.credentials[i]);
    }
  }

  // ---------------------------------------------------------------------------
  // Challenges
  // ---------------------------------------------------------------------------

  /** The action asks for the challenge of an approved key of the machine that the installation is bound to. */
  ghost predicate Challenges(db: Db, action: Action, c: Id, row: Challenge) {
    && action.Do? && action.call.ChallengeCall?
    && row.body.id == c && row.body.installationId == action.call.installation
    && row.body.fingerprint == action.call.fingerprint && row.body.nonce == action.call.nonce
    && Bound(db, row.body.installationId) && db.assignments[row.body.installationId].machineId == row.body.machineId
    && IsApproved(db, row.body.fingerprint) && db.keys[row.body.fingerprint].machineId == row.body.machineId
    && row.createdAt == action.now && row.expiresAt == action.now + 120_000_000_000
  }

  /** The action is the first proof of the challenge, and the row holds its secret, for the key that was challenged. */
  ghost predicate Uses(db: Db, action: Action, c: Id, row: Challenge) {
    && action.Do? && action.call.ProveCall? && action.call.challenge == c
    && action.call.installation == row.body.installationId
    && Justified(db, row.body.installationId, c, action.call.signature, action.now)
    && row.usedAt == action.now && row.response == Some(Oaep(row.body.fingerprint, action.call.secret))
    && row.credentialExpiresAt == action.now + 86_400_000_000_000
  }

  ghost predicate ChallengeStepped(db: Db, action: Action, c: Id, row: Challenge) {
    || (c in db.challenges && row == db.challenges[c])
    || (Challenges(db, action, c, row) && row.usedAt == 0)
    || (c in db.challenges && db.challenges[c].usedAt == 0 && Uses(db, action, c, row)
        && row == db.challenges[c].(
             usedAt := row.usedAt, response := row.response, credentialExpiresAt := row.credentialExpiresAt))
  }

  lemma {:induction false} ChallengingStepped(db: Db, i: Id, f: Fingerprint, nonce: nat, now: Instant, c: Id)
    requires Inv(db)
    ensures var b := CreateChallenge(db, i, f, nonce, now).db;
      c in b.challenges ==> ChallengeStepped(db, Do(ChallengeCall(i, f, nonce), now), c, b.challenges[c])
  {
    hide Inv, CreateChallenge, Bound, Justified;
    ChallengeWrites(db, i, f, nonce, now);
  }

  lemma {:induction false} UsingStepped(db: Db, i: Id, c: Id, signature: Signature, secret: nat, now: Instant, d: Id)
    requires Inv(db)
    ensures var b := Complete(db, i, c, signature, secret, now).db;
      d in b.challenges ==> ChallengeStepped(db, Do(ProveCall(i, c, signature, secret), now), d, b.challenges[d])
  {
    hide Inv, Complete, Justified, Bound, CredentialIdTaken;
    ProofWrites(db, i, c, signature, secret, now);
    var tx := Complete(db, i, c, signature, secret, now);
    if tx.result.Ok? && !tx.result.value.1 {
      FirstReleaseIsJustified(db, i, c, signature, secret, now, tx.result.value.0);
      FirstReleaseExactly(db, i, c, signature, secret, now);
      JustifiedIsAddressed(db, i, c, signature, now);
    }
  }

  lemma {:induction false} JustifiedIsAddressed(db: Db, i: Id, c: Id, signature: Signature, now: Instant)
    requires Justified(db, i, c, signature, now)
    ensures c in db.challenges && db.challenges[c].body.installationId == i
  {
  }

  lemma {:induction false} SameChallengeStepped(db: Db, action: Action, c: Id)
    ensures c in db.challenges ==> ChallengeStepped(db, action, c, db.challenges[c])
  {
    hide Challenges, Uses;
  }

  lemma {:induction false} ChallengeEffect(db: Db, call: Call, now: Instant)
    requires call.ProveCall? || call.ChallengeCall?
    ensures CallEffect(db, call, now).db
      == if call.ProveCall? then Complete(db, call.installation, call.challenge, call.signature, call.secret, now).db
         else CreateChallenge(db, call.installation, call.fingerprint, call.nonce, now).db
  {
    hide Complete, CreateChallenge;
  }

  lemma {:induction false} ChallengeCallStep(db: Db, call: Call, now: Instant, c: Id)
    requires Inv(db)
    ensures var b := CallEffect(db, call, now).db; c in b.challenges ==> ChallengeStepped(db, Do(call, now), c, b.challenges[c])
  {
    hide Inv, CallEffect, ChallengeStepped, Complete, CreateChallenge, DeleteInstallation, Trim;
    CallFrame(db, call, now);
    SameChallengeStepped(db, Do(call, now), c);
    match call
    case ChallengeCall(i, f, nonce) =>
      ChallengingStepped(db, i, f, nonce, now, c);
      ChallengeEffect(db, call, now);
    case ProveCall(i, d, signature, secret) =>
      UsingStepped(db, i, d, signature, secret, now, c);
      ChallengeEffect(db, call, now);
    case DeleteInstallationCall(i, actor) =>
      InstallationIsDeleted(db, i, actor);
      RemovalEffect(db, i, actor, now);
    case _ =>
  }

  lemma {:induction false} ChallengeActionStep(a: Sys, action: Action, c: Id)
    requires Inv(a.db)
    ensures var b := Next(a, action).db; c in b.challenges ==> ChallengeStepped(a.db, action, c, b.challenges[c])
  {
    hide Inv, CallEffect, StartEffect, StepEffect, ChallengeStepped;
    SameChallengeStepped(a.db, action, c);
    match action
    case Do(call, now) => ChallengeCallStep(a.db, call, now, c);
    case Begin(start, now) => StartFrame(a.db, a.nextRequest, start, now);
    case Continue(r, requestId, now) =>
      if r in a.requests {
        StepFrame(a.secureBoot, a.db, r, a.requests[r], requestId, now);
      }
    case Abandon(_) =>
  }

  // --- over a run ---

  ghost predicate ChallengedAt(states: seq<Sys>, actions: seq<Action>, n: nat, c: Id, row: Challenge) {
    n < |actions| < |states| && Challenges(states[n].db, actions[n], c, row)
  }

  ghost predicate UsedAt(states: seq<Sys>, actions: seq<Action>, n: nat, c: Id, row: Challenge) {
    n < |actions| < |states| && Uses(states[n].db, actions[n], c, row)
  }

  ghost predicate ChallengeTraced(states: seq<Sys>, actions: seq<Action>, c: Id, row: Challenge) {
    && (exists n: nat :: ChallengedAt(states, actions, n, c, row))
    && (row.usedAt != 0 ==> exists n: nat :: UsedAt(states, actions, n, c, row))
  }

  lemma {:induction false} ChallengeTracedStep(
    states: seq<Sys>, actions: seq<Action>, b: Sys, action: Action, c: Id, row: Challenge)
    requires |states| == |actions| + 1 && ChallengeStepped(states[|actions|].db, action, c, row)
    requires var db := states[|actions|].db;
      c in db.challenges ==> ChallengeTraced(states, actions, c, db.challenges[c])
    ensures ChallengeTraced(states + [b], actions + [action], c, row)
  {
    hide Bound, IsApproved, Justified;
    var states', actions', n := states + [b], actions + [action], |actions|;
    var db := states[n].db;
    assert states'[n] == states[n] && actions'[n] == action;
    if Challenges(db, action, c, row) && row.usedAt == 0 {
      assert ChallengedAt(states', actions', n, c, row);
    } else {
      var was := db.challenges[c];
      var k: nat :| ChallengedAt(states, actions, k, c, was);
      assert ChallengedAt(states', actions', k, c, row);
      if was.usedAt != 0 {
        var j: nat :| UsedAt(states, actions, j, c, was);
        assert UsedAt(states', actions', j, c, row);
      } else if row.usedAt != 0 {
        assert UsedAt(states', actions', n, c, row);
      }
    }
  }

  /** Every challenge was issued to the approved key of the machine that the installation was bound to, with the nonce that
      was drawn, for 120 seconds. It is used only because a justified proof used it, and holds the secret of that proof. */
  lemma {:induction false} ChallengeIsTraced(policy: SecureBootPolicy, actions: seq<Action>, c: Id)
    requires c in Run(policy, actions).db.challenges
    ensures var states, row := States(policy, actions), Run(policy, actions).db.challenges[c];
      && (exists n: nat :: ChallengedAt(states, actions, n, c, row))
      && (row.usedAt != 0 ==> exists n: nat :: UsedAt(states, actions, n, c, row))
    decreases |actions|
  {
    hide Run, Next, Inv, ChallengeStepped, ChallengedAt, UsedAt;
    StatesEnd(policy, actions);
    if actions == [] {
      RunStart(policy);
    } else {
      var front, last := actions[..|actions| - 1], actions[|actions| - 1];
      var sys := Run(policy, front);
      StatesEnd(policy, front);
      StatesGrow(policy, actions);
      RunStep(policy, actions);
      RunKeepsInv(policy, front);
      ChallengeActionStep(sys, last, c);
      if c in sys.db.challenges {
        ChallengeIsTraced(policy, front, c);
      }
      ChallengeTracedStep(
        States(policy, front), front, Next(sys, last), last, c, Run(policy, actions).db.challenges[c]);
    }
  }

  // ---------------------------------------------------------------------------
  // Using a credential
  // ---------------------------------------------------------------------------

  lemma {:induction false} ReleasedIsVerified(db: Db, i: Id, secret: nat)
    requires TrustSound(db.challenges, db.credentials, db.assignments.Keys, db.specs) && ReleasedSecret(db, i, secret)
    ensures i in db.credentials && i in db.specs && db.credentials[i].verifier == Sha256(secret)
  {
    hide CredentialFits;
    var c :| UsedFor(db.challenges, c, i) && db.challenges[c].response == Some(Oaep(db.challenges[c].body.fingerprint, secret));
    assert Answers(db.challenges[c], db.credentials[i]);
  }

  lemma {:induction false} TrustHolds(db: Db)
    requires Inv(db)
    ensures TrustSound(db.challenges, db.credentials, db.assignments.Keys, db.specs)
  {
    hide Histories, TrustSound, AssignmentsSound, ChallengesSound, KeysSound, Logs, SpecsOwned, IdentifiersAttached;
    hide IdsDrawn;
  }

  lemma {:induction false} SameVerifier(a: Db, b: Db, i: Id)
    requires Evolves(a, b) && i in a.credentials && i in b.credentials && i in b.specs
    ensures b.credentials[i].verifier == a.credentials[i].verifier
  {
    hide MachinesEvolve, SpecsEvolve, KeysEvolve, TelemetryEvolves;
  }

  lemma {:induction false} VerifierStays(a: Db, b: Db, i: Id, secret: nat)
    requires Inv(a) && Inv(b) && Evolves(a, b) && ReleasedSecret(a, i, secret) && i in b.credentials
    ensures b.credentials[i].verifier == Sha256(secret)
  {
    hide Inv, Evolves, ReleasedSecret, TrustSound;
    TrustHolds(a);
    ReleasedIsVerified(a, i, secret);
    CredentialHasSpec(b, i);
    SameVerifier(a, b, i);
  }

  /** The secret that was released for an installation lets its reporter in for as long as the credential is neither revoked
      nor expired: as a bearer secret, and as the key of a signature over a request that is at most 300 seconds off. No
      other signature of that request is accepted, nor this one at any other time. */
  lemma {:induction false} ReleasedSecretOpens(
    policy: SecureBootPolicy, before: seq<Action>, after: seq<Action>, i: Id, secret: nat, request: Canonical.Request,
    form: string, mac: Hmac, now: Instant)
    requires ReleasedSecret(Run(policy, before).db, i, secret) && Canonical.Telemetry(request) == Some(form)
    ensures var db := Run(policy, before + after).db;
      && (Authenticated(db, i, Bearer(secret), now).Ok? <==> Usable(db, i, now))
      && (Authenticated(db, i, SignedRequest(request, mac), now).Ok?
          <==> Usable(db, i, now) && InWindow(request.unixSeconds, now) && mac == Hmac(Sha256(secret), form))
  {
    var a, b := Run(policy, before).db, Run(policy, before + after).db;
    hide Run, Inv, Evolves, ReleasedSecret, Authenticated, InWindow, Canonical.Telemetry;
    RunKeepsInv(policy, before);
    RunKeepsInv(policy, before + after);
    RunEvolves(policy, before, after);
    if i in b.credentials {
      VerifierStays(a, b, i, secret);
    }
    SecretOpens(b, i, secret, now);
    SignatureOpens(b, i, request, mac, now);
  }
}
