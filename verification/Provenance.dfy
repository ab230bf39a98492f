/** Where the rows of a run come from: who wrote them, in which state, and what has not changed since. */
module Provenance {
  import opened Prelude
  import opened Text
  import opened Lifecycle
  import opened Records
  import opened Schema
  import opened Transactions
  import opened StoreInvariant
  import opened StoreSteps
  import opened TelemetrySteps
  import opened TrustSteps
  import opened ControlPlane
  import opened StepsAreFaithful
  import opened Interleavings
  import opened Handoffs
  import opened BootGate
  import opened Uninterrupted
  import opened Writes
  import Canonical

  // ---------------------------------------------------------------------------
  // Which tables an action leaves alone
  // ---------------------------------------------------------------------------

  ghost predicate SameTelemetry(a: Db, b: Db) {
    a.events == b.events && a.chunks == b.chunks
  }

  lemma {:induction false} NotingCommits<T>(tx: Tx<T>, refusal: Refusal, note: Option<Note>)
    ensures Noting(tx, refusal, note).db == tx.db
  {
  }

  lemma {:induction false} DiscoveryFrame(db: Db, obs: Observation, now: Instant)
    requires Inv(db)
    ensures var b := Discover(db, obs, now).db;
      && b.keys == db.keys && b.specs == db.specs && b.assignments == db.assignments && b.challenges == db.challenges
      && b.credentials == db.credentials && SameTelemetry(db, b)
  {
    DrawnIsFresh(db);
    hide Inv, Discover;
    DiscoverAccepts(db, obs, now);
  }

  lemma {:induction false} DrawnIsFresh(db: Db)
    requires Inv(db)
    ensures IdentifiersAttached(db.identifiers, db.machines.Keys) && db.nextId !in db.machines
  {
    hide Histories, TrustSound, AssignmentsSound, ChallengesSound, KeysSound, Logs, SpecsOwned, IdentifiersAttached;
  }

  /** A call of one transaction writes its own tables only. */
  lemma {:induction false} CallFrame(db: Db, call: Call, now: Instant)
    requires Inv(db)
    ensures var b := CallEffect(db, call, now).db;
      && (call.DiscoverCall? || call.PolicyCall? || call.DeleteMachineCall? || b.machines == db.machines)
      && (call.RegisterCall? || call.ApproveCall? || call.RevokeKeyCall? || call.DeleteMachineCall? || b.keys == db.keys)
      && (call.ArmCall? || call.CancelCall? || call.DeleteInstallationCall? || b.assignments == db.assignments)
      && (call.ProveCall? || call.RevokeCredentialCall? || call.DeleteInstallationCall? || b.credentials == db.credentials)
      && (call.ArmCall? || call.DeleteInstallationCall? || b.events == db.events)
      && (call.ChallengeCall? || call.ProveCall? || call.DeleteInstallationCall? || b.challenges == db.challenges)
      && (call.DeleteInstallationCall? || (b.chunks == db.chunks && b.specs == db.specs))
  {
    hide Inv, Noting, Discover, SetPolicy, Arm, Settle, RegisterKey, ApproveKey, RevokeKey, CreateChallenge, Complete;
    hide RevokeCredential, DeleteInstallation, DeleteMachine, DiscoverNote, SettleNote, ReleaseNote, Trim, Enrollable;
    hide Bound;
    match call
    case DiscoverCall(obs) =>
      DiscoveryFrame(db, obs, now);
      NotingCommits(Discover(db, obs, now), Elsewhere, DiscoverNote(Discover(db, obs, now), obs));
    case PolicyCall(m, policy, actor) =>
      PolicyIsSet(db, m, policy, actor);
      NotingCommits(SetPolicy(db, m, policy, actor), Elsewhere, None);
    case ArmCall(m, i, requestId, actor) =>
      ArmingWrites(db, m, i, requestId, actor, now);
      NotingCommits(Arm(db, m, i, requestId, actor, now), Elsewhere, Some(ArmedFor(m, i)));
    case CancelCall(i, actor) =>
      SettlingWrites(db, i, actor, now);
      NotingCommits(Cancel(db, i, actor, now), Elsewhere, SettleNote(Cancel(db, i, actor, now)));
    case RegisterCall(i, pem, ek) =>
      EnrollmentWrites(db, i, pem, ek, now);
      NotingCommits(RegisterKey(db, i, pem, ek, now), Elsewhere, None);
    case ApproveCall(m, f, actor) =>
      ApprovalWrites(db, m, f, actor, now);
      NotingCommits(ApproveKey(db, m, f, actor, now), Elsewhere, None);
    case RevokeKeyCall(m, f, actor) =>
      KeyRevocationWrites(db, m, f, actor, now);
      NotingCommits(RevokeKey(db, m, f, actor, now), Elsewhere, None);
    case ChallengeCall(i, f, nonce) =>
      ChallengeWrites(db, i, f, nonce, now);
      NotingCommits(CreateChallenge(db, i, f, nonce, now), Elsewhere, None);
    case ProveCall(i, c, signature, secret) =>
      ProofWrites(db, i, c, signature, secret, now);
      NotingCommits(
        Complete(db, i, c, signature, secret, now), FirstUseOfChallenge,
        ReleaseNote(i, Complete(db, i, c, signature, secret, now)));
    case RevokeCredentialCall(i, actor) =>
      RevocationWrites(db, i, actor, now);
      NotingCommits(RevokeCredential(db, i, actor, now), Elsewhere, None);
    case DeleteInstallationCall(i, actor) =>
      InstallationIsDeleted(db, i, actor);
      NotingCommits(DeleteInstallation(db, i, actor), Elsewhere, None);
    case DeleteMachineCall(m, actor) =>
      MachineIsDeleted(db, m, actor);
      NotingCommits(DeleteMachine(db, m, actor), Elsewhere, None);
  }

  /** The first step of a request writes nothing, unless it discovers. */
  lemma {:induction false} StartFrame(db: Db, r: nat, start: Start, now: Instant)
    requires Inv(db)
    ensures var b := StartEffect(db, r, start, now).db;
      && (start.PxeBoot? || b == db)
      && b.keys == db.keys && b.specs == db.specs && b.assignments == db.assignments && b.challenges == db.challenges
      && b.credentials == db.credentials && SameTelemetry(db, b)
  {
    hide Inv, Discover, Authenticated, CreateSpecLookup;
    if start.PxeBoot? {
      DiscoveryFrame(db, start.obs, now);
    }
  }

  /** No later step writes machines, keys or challenges. */
  lemma {:induction false} StepFrame(
    policy: SecureBootPolicy, db: Db, r: nat, request: Request, requestId: string, now: Instant)
    requires Inv(db)
    ensures var b := StepEffect(policy, db, r, request, requestId, now).db;
      && b.machines == db.machines && b.keys == db.keys && b.challenges == db.challenges
      && (request.InsertingSpec? || b.specs == db.specs)
      && (request.Consuming? || b.assignments == db.assignments)
      && (request.Touching? || request.AppendingEvent? || request.CheckingIn? || b.credentials == db.credentials)
      && (request.AppendingEvent? || request.CheckingIn? || request.InsertingSpec? || b.events == db.events)
      && (request.AppendingLog? || b.chunks == db.chunks)
  {
    hide Inv, Noting, AppendEvent, AppendChunk, CreateSpecInsert, Settle, ActiveFor, MaterialAllowed, TouchedRows;
    hide ReadAssignment;
    hide SettleNote, ValidReport, CanAdvance, RedactedInput, ValidChunk, TotalBytes, PxeKey;
    match request
    case AppendingEvent(i, report) =>
      EventWrites(db, i, report, requestId, now);
      NotingCommits(AppendEvent(db, i, report, requestId, now), Elsewhere, None);
    case AppendingLog(i, chunk) =>
      ChunkWrites(db, i, chunk, requestId, now);
      NotingCommits(AppendChunk(db, i, chunk, requestId, now), Elsewhere, None);
    case InsertingSpec(input) =>
      InstallationWrites(db, input, requestId, now);
      NotingCommits(CreateSpecInsert(db, input, requestId, now), NewInstallation, None);
    case Consuming(i) =>
      SettlingWrites(db, i, "system:pxe", now);
      NotingCommits(Consume(db, i, "system:pxe", now), Elsewhere, SettleNote(Consume(db, i, "system:pxe", now)));
    case CheckingIn(i) =>
      EventWrites(db, i, CheckInReport(i), requestId, now);
      NotingCommits(AppendEvent(db, i, CheckInReport(i), requestId, now), Elsewhere, None);
    case _ =>
  }

  // ---------------------------------------------------------------------------
  // Machines
  // ---------------------------------------------------------------------------

  function ObservationOf(action: Action): Option<Observation> {
    match action
    case Do(DiscoverCall(obs), _) => Some(obs)
    case Begin(PxeBoot(obs), _) => Some(obs)
    case _ => None
  }

  function TimeOf(action: Action): Instant {
    if action.Abandon? then 1 else action.now
  }

  /** The action is an observation that is accepted for the machine. */
  ghost predicate Sees(a: Sys, action: Action, b: Sys, m: Id) {
    && ObservationOf(action).Some? && ObservationOf(action).value.identifiers.Some?
    && b.trace == a.trace + [Observed(m, ObservationOf(action).value.identifiers.value)]
  }

  /** The action is a policy change of the machine by somebody who gives a name. */
  ghost predicate SetsPolicy(a: Sys, action: Action, m: Id) {
    && action.Do? && action.call.PolicyCall? && action.call.machine == m
    && Trim(action.call.actor) != "" && m in a.db.machines
  }

  /** How an action changes the row of a machine that is there afterwards. */
  ghost predicate RowStep(a: Sys, action: Action, b: Sys, m: Id) {
    if Sees(a, action, b, m) then
      m in b.db.machines && SeenAs(a.db, m, ObservationOf(action).value, TimeOf(action), b.db.machines[m])
    else
      m in b.db.machines ==>
        && m in a.db.machines
        && b.db.machines[m] == if SetsPolicy(a, action, m) then a.db.machines[m].(policy := action.call.policy)
                               else a.db.machines[m]
  }

  lemma {:induction false} ObservingStep(a: Sys, action: Action, b: Sys, obs: Observation, now: Instant, m: Id)
    requires Inv(a.db) && ObservationOf(action) == Some(obs) && TimeOf(action) == now
    requires var tx := Discover(a.db, obs, now);
      && b.db == tx.db
      && (if tx.result.Err? then b.trace == a.trace
          else obs.identifiers.Some? && b.trace == a.trace + [Observed(tx.result.value.0, obs.identifiers.value)])
    ensures RowStep(a, action, b, m)
  {
    DrawnIsFresh(a.db);
    hide Inv, Discover, Unless, SetsPolicy;
    var tx := Discover(a.db, obs, now);
    if tx.result.Ok? {
      DiscoveryWrites(a.db, obs, now);
      var seen := Observed(tx.result.value.0, obs.identifiers.value);
      assert b.trace[|a.trace|] == seen;
      assert Sees(a, action, b, m) ==> b.trace[|a.trace|] == Observed(m, obs.identifiers.value);
    } else {
      hide Accepts;
      DiscoverAccepts(a.db, obs, now);
    }
  }

  lemma {:induction false} DiscoverCallStep(sys: Sys, obs: Observation, now: Instant)
    requires Inv(sys.db)
    ensures var tx, after := Discover(sys.db, obs, now), Next(sys, Do(DiscoverCall(obs), now));
      && after.db == tx.db
      && (if tx.result.Err? then after.trace == sys.trace
          else obs.identifiers.Some? && after.trace == sys.trace + [Observed(tx.result.value.0, obs.identifiers.value)])
  {
    hide Inv, Discover;
    AcceptedIsThere(sys.db, obs, now);
  }

  lemma {:induction false} MachineRowStep(sys: Sys, action: Action, m: Id)
    requires Inv(sys.db)
    ensures RowStep(sys, action, Next(sys, action), m)
  {
    hide Inv, CallEffect, StartEffect, StepEffect, RowStep, Discover;
    match action
    case Do(DiscoverCall(obs), now) =>
      DiscoverCallStep(sys, obs, now);
      ObservingStep(sys, action, Next(sys, action), obs, now, m);
    case Begin(PxeBoot(obs), now) =>
      BootBegins(sys, obs, now);
      ObservingStep(sys, action, Next(sys, action), obs, now, m);
    case _ =>
      UnobservedStep(sys, action, m);
  }

  lemma {:induction false} UnobservedStep(sys: Sys, action: Action, m: Id)
    requires Inv(sys.db) && ObservationOf(action).None?
    ensures RowStep(sys, action, Next(sys, action), m)
  {
    hide Inv, CallEffect, StartEffect, StepEffect, SeenAs;
    match action
    case Do(call, now) => UnobservedCall(sys.db, call, now);
    case Begin(start, now) => StartFrame(sys.db, sys.nextRequest, start, now);
    case Continue(r, requestId, now) =>
      if r in sys.requests {
        StepFrame(sys.secureBoot, sys.db, r, sys.requests[r], requestId, now);
      }
    case Abandon(_) =>
  }

  /** The machines after a call that observes none. */
  ghost predicate MachinesKept(a: Db, call: Call, b: Db) {
    forall m | m in b.machines ::
      && m in a.machines
      && b.machines[m] == if call.PolicyCall? && call.machine == m && Trim(call.actor) != ""
                          then a.machines[m].(policy := call.policy) else a.machines[m]
  }

  lemma {:induction false} PolicyKeeps(db: Db, m: Id, policy: Policy, actor: string)
    ensures MachinesKept(db, PolicyCall(m, policy, actor), SetPolicy(db, m, policy, actor).db)
  {
    hide SetPolicy, Trim;
    PolicyIsSet(db, m, policy, actor);
  }

  lemma {:induction false} DeletionKeeps(db: Db, m: Id, actor: string)
    requires Inv(db)
    ensures MachinesKept(db, DeleteMachineCall(m, actor), DeleteMachine(db, m, actor).db)
  {
    hide Inv, DeleteMachine, Trim;
    MachineIsDeleted(db, m, actor);
  }

  lemma {:induction false} UnobservedCall(db: Db, call: Call, now: Instant)
    requires Inv(db) && !call.DiscoverCall?
    ensures MachinesKept(db, call, CallEffect(db, call, now).db)
  {
    hide Inv, SetPolicy, DeleteMachine, CallEffect, Trim;
    CallFrame(db, call, now);
    if call.PolicyCall? {
      hide MachinesKept;
      PolicyKeeps(db, call.machine, call.policy, call.actor);
      PolicyEffect(db, call.machine, call.policy, call.actor, now);
    } else if call.DeleteMachineCall? {
      hide MachinesKept;
      DeletionKeeps(db, call.machine, call.actor);
      DeletionEffect(db, call.machine, call.actor, now);
    }
  }

  lemma {:induction false} PolicyEffect(db: Db, m: Id, policy: Policy, actor: string, now: Instant)
    ensures CallEffect(db, PolicyCall(m, policy, actor), now).db == SetPolicy(db, m, policy, actor).db
  {
    hide SetPolicy;
  }

  lemma {:induction false} DeletionEffect(db: Db, m: Id, actor: string, now: Instant)
    ensures CallEffect(db, DeleteMachineCall(m, actor), now).db == DeleteMachine(db, m, actor).db
  {
    hide DeleteMachine;
  }

  // --- over a run ---

  ghost predicate SeenAt(states: seq<Sys>, actions: seq<Action>, k: nat, m: Id) {
    k < |actions| < |states| && Sees(states[k], actions[k], states[k + 1], m)
  }

  ghost predicate PolicySetAt(states: seq<Sys>, actions: seq<Action>, k: nat, m: Id) {
    k < |actions| < |states| && SetsPolicy(states[k], actions[k], m)
  }

  /** Action `k` is the last accepted observation of the machine, and the row says what it said. */
  ghost predicate LastSeenAt(states: seq<Sys>, actions: seq<Action>, k: nat, m: Id, row: Machine) {
    && SeenAt(states, actions, k, m) && (forall l | k < l < |actions| :: !SeenAt(states, actions, l, m))
    && ObservationOf(actions[k]).value.secureBoot == Some(row.secureBoot) && row.lastSeen == TimeOf(actions[k])
  }

  ghost predicate FirstSeenAt(states: seq<Sys>, actions: seq<Action>, k: nat, m: Id, row: Machine) {
    && SeenAt(states, actions, k, m) && (forall l | 0 <= l < k :: !SeenAt(states, actions, l, m))
    && row.firstSeen == TimeOf(actions[k])
  }

  /** Action `k` is the last policy change of the machine, and the row has that policy. */
  ghost predicate PolicyLastSetAt(states: seq<Sys>, actions: seq<Action>, k: nat, m: Id, row: Machine) {
    && PolicySetAt(states, actions, k, m) && (forall l | k < l < |actions| :: !PolicySetAt(states, actions, l, m))
    && row.policy == actions[k].call.policy
  }

  ghost predicate RowTraced(states: seq<Sys>, actions: seq<Action>, m: Id, row: Machine) {
    && (exists k: nat :: LastSeenAt(states, actions, k, m, row))
    && (exists k: nat :: FirstSeenAt(states, actions, k, m, row))
    && ((exists k: nat :: PolicyLastSetAt(states, actions, k, m, row))
        || (row.policy == Pending && forall k: nat :: !PolicySetAt(states, actions, k, m)))
  }

  ghost predicate MachinesTraced(states: seq<Sys>, actions: seq<Action>) {
    && |states| == |actions| + 1
    && var db := states[|actions|].db;
      && (forall m | m in db.machines :: RowTraced(states, actions, m, db.machines[m]))
      && (forall k: nat, m: Id :: SeenAt(states, actions, k, m) || PolicySetAt(states, actions, k, m) ==> m < db.nextId)
  }

  lemma {:induction false} SeenBefore(states: seq<Sys>, actions: seq<Action>, b: Sys, action: Action, k: nat, m: Id)
    requires |states| == |actions| + 1
    ensures k < |actions| ==> (SeenAt(states + [b], actions + [action], k, m) <==> SeenAt(states, actions, k, m))
    ensures k < |actions| ==> (PolicySetAt(states + [b], actions + [action], k, m) <==> PolicySetAt(states, actions, k, m))
    ensures k == |actions| ==> (SeenAt(states + [b], actions + [action], k, m) <==> Sees(states[k], action, b, m))
    ensures k == |actions| ==> (PolicySetAt(states + [b], actions + [action], k, m) <==> SetsPolicy(states[k], action, m))
    ensures k > |actions|
      ==> !SeenAt(states + [b], actions + [action], k, m) && !PolicySetAt(states + [b], actions + [action], k, m)
  {
    hide Sees, SetsPolicy;
  }

  lemma {:induction false} RowStays(
    states: seq<Sys>, actions: seq<Action>, b: Sys, action: Action, m: Id, was: Machine, row: Machine)
    requires |states| == |actions| + 1 && RowTraced(states, actions, m, was) && !Sees(states[|actions|], action, b, m)
    requires row == if SetsPolicy(states[|actions|], action, m) then was.(policy := action.call.policy) else was
    ensures RowTraced(states + [b], actions + [action], m, row)
  {
    hide SeenAt, PolicySetAt, Sees, SetsPolicy;
    var states', actions', n := states + [b], actions + [action], |actions|;
    forall k: nat {
      SeenBefore(states, actions, b, action, k, m);
    }
    var last: nat :| LastSeenAt(states, actions, last, m, was);
    SetIsEarlier(states, actions, last, m);
    assert actions'[last] == actions[last];
    assert LastSeenAt(states', actions', last, m, row);
    FirstStays(states, actions, b, action, m, was, row);
    PolicyStays(states, actions, b, action, m, was, row);
  }

  lemma {:induction false} PolicyStays(
    states: seq<Sys>, actions: seq<Action>, b: Sys, action: Action, m: Id, was: Machine, row: Machine)
    requires |states| == |actions| + 1 && RowTraced(states, actions, m, was)
    requires row.policy == if SetsPolicy(states[|actions|], action, m) then action.call.policy else was.policy
    ensures (exists k: nat :: PolicyLastSetAt(states + [b], actions + [action], k, m, row))
      || (row.policy == Pending && forall k: nat :: !PolicySetAt(states + [b], actions + [action], k, m))
  {
    var states', actions', n := states + [b], actions + [action], |actions|;
    assert actions'[n] == action && states'[n] == states[n];
    assert SetsPolicy(states[n], action, m) ==> action.Do? && action.call.PolicyCall?;
    hide SeenAt, PolicySetAt, Sees, SetsPolicy;
    forall k: nat {
      SeenBefore(states, actions, b, action, k, m);
    }
    if SetsPolicy(states[n], action, m) {
      assert PolicyLastSetAt(states', actions', n, m, row);
    } else if k: nat :| PolicyLastSetAt(states, actions, k, m, was) {
      SetIsEarlier(states, actions, k, m);
      assert actions'[k] == actions[k];
      assert PolicyLastSetAt(states', actions', k, m, row);
    }
  }

  lemma {:induction false} SetIsEarlier(states: seq<Sys>, actions: seq<Action>, k: nat, m: Id)
    requires PolicySetAt(states, actions, k, m) || SeenAt(states, actions, k, m)
    ensures k < |actions|
  {
    hide Sees, SetsPolicy;
  }

  /** What an accepted observation puts into the row, as far as the run tells it again. */
  ghost predicate RowSeen(a: Db, m: Id, obs: Observation, now: Instant, row: Machine) {
    && obs.secureBoot == Some(row.secureBoot) && row.lastSeen == now
    && (if m in a.machines then row.policy == a.machines[m].policy && row.firstSeen == a.machines[m].firstSeen
        else row.policy == Pending && row.firstSeen == now)
  }

  /** An accepted observation is the last one; it is the first one too if the machine is new. */
  lemma {:induction false} RowIsSeen(
    states: seq<Sys>, actions: seq<Action>, b: Sys, action: Action, m: Id, row: Machine)
    requires MachinesTraced(states, actions) && Sees(states[|actions|], action, b, m)
    requires RowSeen(states[|actions|].db, m, ObservationOf(action).value, TimeOf(action), row)
    requires m in states[|actions|].db.machines || states[|actions|].db.nextId <= m
    ensures RowTraced(states + [b], actions + [action], m, row)
  {
    var states', actions', n := states + [b], actions + [action], |actions|;
    var a := states[n];
    assert actions'[n] == action && states'[n] == a;
    assert !SetsPolicy(a, action, m);
    hide SeenAt, PolicySetAt, Sees, SetsPolicy;
    forall k: nat {
      SeenBefore(states, actions, b, action, k, m);
    }
    assert LastSeenAt(states', actions', n, m, row);
    if m in a.db.machines {
      var was := a.db.machines[m];
      assert RowTraced(states, actions, m, was);
      FirstStays(states, actions, b, action, m, was, row);
      PolicyStays(states, actions, b, action, m, was, row);
    } else {
      assert forall k: nat :: !SeenAt(states, actions, k, m) && !PolicySetAt(states, actions, k, m);
      assert FirstSeenAt(states', actions', n, m, row);
    }
  }

  lemma {:induction false} FirstStays(
    states: seq<Sys>, actions: seq<Action>, b: Sys, action: Action, m: Id, was: Machine, row: Machine)
    requires |states| == |actions| + 1 && RowTraced(states, actions, m, was) && row.firstSeen == was.firstSeen
    ensures exists k: nat :: FirstSeenAt(states + [b], actions + [action], k, m, row)
  {
    hide SeenAt, PolicySetAt;
    var states', actions' := states + [b], actions + [action];
    forall k: nat {
      SeenBefore(states, actions, b, action, k, m);
    }
    var first: nat :| FirstSeenAt(states, actions, first, m, was);
    SetIsEarlier(states, actions, first, m);
    assert actions'[first] == actions[first];
    assert FirstSeenAt(states', actions', first, m, row);
  }

  lemma {:induction false} SeenIsRowSeen(a: Db, m: Id, obs: Observation, now: Instant, row: Machine)
    requires SeenAs(a, m, obs, now, row)
    ensures RowSeen(a, m, obs, now, row)
  {
    hide Unless;
  }

  lemma {:induction false} MachinesTracedStep(states: seq<Sys>, actions: seq<Action>, b: Sys, action: Action)
    requires MachinesTraced(states, actions) && Inv(b.db) && Evolves(states[|actions|].db, b.db)
    requires forall m :: RowStep(states[|actions|], action, b, m)
    ensures MachinesTraced(states + [b], actions + [action])
  {
    MachineIdsBelow(b.db);
    var a, states', actions' := states[|actions|], states + [b], actions + [action];
    forall m | m in b.db.machines ensures m in a.db.machines || a.db.nextId <= m {
      hide KeysEvolve, SpecsEvolve, TrustEvolves, TelemetryEvolves, Inv;
    }
    assert a.db.nextId <= b.db.nextId;
    hide Inv, Evolves, RowTraced, SeenAt, PolicySetAt, SeenAs, RowSeen;
    forall m | m in b.db.machines ensures RowTraced(states', actions', m, b.db.machines[m]) {
      assert RowStep(a, action, b, m);
      if Sees(a, action, b, m) {
        SeenIsRowSeen(a.db, m, ObservationOf(action).value, TimeOf(action), b.db.machines[m]);
        RowIsSeen(states, actions, b, action, m, b.db.machines[m]);
      } else {
        RowStays(states, actions, b, action, m, a.db.machines[m], b.db.machines[m]);
      }
    }
    forall k: nat, m: Id | SeenAt(states', actions', k, m) || PolicySetAt(states', actions', k, m) ensures m < b.db.nextId {
      SeenBefore(states, actions, b, action, k, m);
      assert RowStep(a, action, b, m);
      DrawnAlready(a, action, m);
    }
  }

  lemma {:induction false} DrawnAlready(a: Sys, action: Action, m: Id)
    ensures SetsPolicy(a, action, m) ==> m in a.db.machines
  {
  }

  lemma {:induction false} RunMachinesTraced(policy: SecureBootPolicy, actions: seq<Action>)
    ensures MachinesTraced(States(policy, actions), actions)
    decreases |actions|
  {
    hide Run, Next, Inv, Evolves, RowTraced, SeenAt, PolicySetAt, RowStep;
    StatesEnd(policy, actions);
    if actions == [] {
      RunStart(policy);
      NothingAt(States(policy, actions), actions);
    } else {
      var front, last := actions[..|actions| - 1], actions[|actions| - 1];
      RunMachinesTraced(policy, front);
      StatesEnd(policy, front);
      StatesGrow(policy, actions);
      RunIsValid(policy, front);
      NextIsValid(Run(policy, front), last);
      ValidHasInv(Run(policy, front));
      ValidHasInv(Next(Run(policy, front), last));
      forall m {
        MachineRowStep(Run(policy, front), last, m);
      }
      hide MachinesTraced, SysValid;
      MachinesTracedStep(States(policy, front), front, Next(Run(policy, front), last), last);
    }
  }

  lemma {:induction false} NothingAt(states: seq<Sys>, actions: seq<Action>)
    requires actions == []
    ensures forall k: nat, m: Id :: !SeenAt(states, actions, k, m) && !PolicySetAt(states, actions, k, m)
  {
  }

  /** The Secure Boot state of a machine and the time it was last seen are those of the last observation that was accepted
      for it, it was first seen at the first one, and its policy is the one that was set last, or pending. */
  lemma {:induction false} MachineIsAsLastSeen(policy: SecureBootPolicy, actions: seq<Action>, m: Id)
    requires m in Run(policy, actions).db.machines
    ensures var states, row := States(policy, actions), Run(policy, actions).db.machines[m];
      && (exists k: nat :: LastSeenAt(states, actions, k, m, row))
      && (exists k: nat :: FirstSeenAt(states, actions, k, m, row))
      && ((exists k: nat :: PolicyLastSetAt(states, actions, k, m, row))
          || (row.policy == Pending && forall k: nat :: !PolicySetAt(states, actions, k, m)))
  {
    hide Run, LastSeenAt, FirstSeenAt, PolicyLastSetAt, PolicySetAt;
    RunMachinesTraced(policy, actions);
    StatesEnd(policy, actions);
    assert RowTraced(States(policy, actions), actions, m, Run(policy, actions).db.machines[m]);
  }

  // ---------------------------------------------------------------------------
  // Keys
  // ---------------------------------------------------------------------------

  /** The action enrolls the unknown key of a provisionable machine, as pending. */
  ghost predicate Enrolls(db: Db, action: Action, f: Fingerprint, row: BootKey) {
    && action.Do? && action.call.RegisterCall? && action.call.pem.key == f && f !in db.keys
    && Bound(db, action.call.installation)
    && row == BootKey(db.assignments[action.call.installation].machineId, action.call.pem, action.call.ek, KeyPending,
                      action.now, action.now, 0, "", 0, "")
  }

  /** The action is another enrollment of the key: the time it was last seen, and an endorsement key if it had none. */
  ghost predicate Refreshes(db: Db, action: Action, f: Fingerprint, row: BootKey) {
    && action.Do? && action.call.RegisterCall? && action.call.pem.key == f && f in db.keys
    && row == db.keys[f].(lastSeenAt := action.now, ek := row.ek) && (db.keys[f].ek != "" ==> row.ek == db.keys[f].ek)
  }

  /** The action is an operator's approval of the pending key of a machine without an approved one. */
  ghost predicate Approves(db: Db, action: Action, f: Fingerprint, row: BootKey) {
    && action.Do? && action.call.ApproveCall? && action.call.fingerprint == f && action.call.machine == row.machineId
    && Trim(action.call.actor) != ""
    && f in db.keys && db.keys[f].state == KeyPending
    && (forall g | g in db.keys && db.keys[g].machineId == row.machineId :: db.keys[g].state != KeyApproved)
    && row == db.keys[f].(state := KeyApproved, approvedAt := action.now, approvedBy := Trim(action.call.actor))
  }

  ghost predicate Revokes(db: Db, action: Action, f: Fingerprint, row: BootKey) {
    && action.Do? && action.call.RevokeKeyCall? && action.call.fingerprint == f && action.call.machine == row.machineId
    && f in db.keys && db.keys[f].state != KeyRevoked
    && row == db.keys[f].(state := KeyRevoked, revokedAt := action.now, revokedBy := Trim(action.call.actor))
  }

  ghost predicate KeyStepped(db: Db, action: Action, f: Fingerprint, row: BootKey) {
    || (f in db.keys && row == db.keys[f])
    || Enrolls(db, action, f, row) || Refreshes(db, action, f, row) || Approves(db, action, f, row) || Revokes(db, action, f, row)
  }

  lemma {:induction false} EnrollmentStep(db: Db, i: Id, pem: PublicKey, ek: string, now: Instant, f: Fingerprint)
    requires Inv(db)
    ensures var b := RegisterKey(db, i, pem, ek, now).db;
      f in b.keys ==> KeyStepped(db, Do(RegisterCall(i, pem, ek), now), f, b.keys[f])
  {
    hide Inv, RegisterKey, Bound, ValidEk;
    EnrollmentWrites(db, i, pem, ek, now);
  }

  lemma {:induction false} ApprovalStep(db: Db, m: Id, f: Fingerprint, actor: string, now: Instant, g: Fingerprint)
    requires Inv(db)
    ensures var b := ApproveKey(db, m, f, actor, now).db;
      g in b.keys ==> KeyStepped(db, Do(ApproveCall(m, f, actor), now), g, b.keys[g])
  {
    hide Inv, ApproveKey, Trim, Bound;
    ApprovalWrites(db, m, f, actor, now);
  }

  lemma {:induction false} RevocationStep(db: Db, m: Id, f: Fingerprint, actor: string, now: Instant, g: Fingerprint)
    ensures var b := RevokeKey(db, m, f, actor, now).db;
      g in b.keys ==> KeyStepped(db, Do(RevokeKeyCall(m, f, actor), now), g, b.keys[g])
  {
    hide RevokeKey, Trim, Bound;
    KeyRevocationWrites(db, m, f, actor, now);
  }

  lemma {:induction false} KeyCallStep(db: Db, call: Call, now: Instant, f: Fingerprint)
    requires Inv(db)
    ensures var b := CallEffect(db, call, now).db; f in b.keys ==> KeyStepped(db, Do(call, now), f, b.keys[f])
  {
    hide Inv, CallEffect, KeyStepped, RegisterKey, ApproveKey, RevokeKey, DeleteMachine;
    CallFrame(db, call, now);
    match call
    case RegisterCall(i, pem, ek) =>
      EnrollmentStep(db, i, pem, ek, now, f);
      KeyEffect(db, call, now);
    case ApproveCall(m, g, actor) =>
      ApprovalStep(db, m, g, actor, now, f);
      KeyEffect(db, call, now);
    case RevokeKeyCall(m, g, actor) =>
      RevocationStep(db, m, g, actor, now, f);
      KeyEffect(db, call, now);
    case DeleteMachineCall(m, actor) =>
      MachineIsDeleted(db, m, actor);
      DeletionEffect(db, m, actor, now);
      SameKeyStepped(db, Do(call, now), f);
    case _ =>
      SameKeyStepped(db, Do(call, now), f);
  }

  lemma {:induction false} SameKeyStepped(db: Db, action: Action, f: Fingerprint)
    ensures f in db.keys ==> KeyStepped(db, action, f, db.keys[f])
  {
    hide Enrolls, Refreshes, Approves, Revokes;
  }

  lemma {:induction false} KeyEffect(db: Db, call: Call, now: Instant)
    requires call.RegisterCall? || call.ApproveCall? || call.RevokeKeyCall?
    ensures CallEffect(db, call, now).db
      == match call
         case RegisterCall(i, pem, ek) => RegisterKey(db, i, pem, ek, now).db
         case ApproveCall(m, f, actor) => ApproveKey(db, m, f, actor, now).db
         case RevokeKeyCall(m, f, actor) => RevokeKey(db, m, f, actor, now).db
  {
    hide RegisterKey, ApproveKey, RevokeKey;
  }

  /** Whatever an action does to a key is one of these. */
  lemma {:induction false} KeyActionStep(sys: Sys, action: Action, f: Fingerprint)
    requires Inv(sys.db)
    ensures var b := Next(sys, action).db; f in b.keys ==> KeyStepped(sys.db, action, f, b.keys[f])
  {
    hide Inv, CallEffect, StartEffect, StepEffect, KeyStepped;
    SameKeyStepped(sys.db, action, f);
    match action
    case Do(call, now) => KeyCallStep(sys.db, call, now, f);
    case Begin(start, now) => StartFrame(sys.db, sys.nextRequest, start, now);
    case Continue(r, requestId, now) =>
      if r in sys.requests {
        StepFrame(sys.secureBoot, sys.db, r, sys.requests[r], requestId, now);
      }
    case Abandon(_) =>
  }

  // --- over a run ---

  ghost predicate EnrolledAt(states: seq<Sys>, actions: seq<Action>, k: nat, f: Fingerprint, row: BootKey) {
    && k < |actions| < |states| && actions[k].Do? && actions[k].call.RegisterCall? && actions[k].call.pem == row.pem
    && row.pem.key == f && f !in states[k].db.keys && row.firstSeenAt == actions[k].now
    && Bound(states[k].db, actions[k].call.installation)
    && states[k].db.assignments[actions[k].call.installation].machineId == row.machineId
  }

  /** Action `k` is the approval that the row tells of, and the key was pending for that machine until then. */
  ghost predicate ApprovedAt(states: seq<Sys>, actions: seq<Action>, k: nat, f: Fingerprint, row: BootKey) {
    && k < |actions| < |states| && actions[k].Do? && actions[k].call.ApproveCall?
    && actions[k].call.fingerprint == f && actions[k].call.machine == row.machineId
    && Trim(actions[k].call.actor) != "" && row.approvedBy == Trim(actions[k].call.actor) && row.approvedAt == actions[k].now
    && f in states[k].db.keys && states[k].db.keys[f].state == KeyPending
    && states[k].db.keys[f].machineId == row.machineId && states[k].db.keys[f].pem == row.pem
  }

  ghost predicate RevokedAt(states: seq<Sys>, actions: seq<Action>, k: nat, f: Fingerprint, row: BootKey) {
    && k < |actions| < |states| && actions[k].Do? && actions[k].call.RevokeKeyCall?
    && actions[k].call.fingerprint == f && actions[k].call.machine == row.machineId
    && row.revokedBy == Trim(actions[k].call.actor) && row.revokedAt == actions[k].now
  }

  ghost predicate KeyTraced(states: seq<Sys>, actions: seq<Action>, f: Fingerprint, row: BootKey) {
    && (exists k: nat :: EnrolledAt(states, actions, k, f, row))
    && (row.state == KeyApproved ==> exists k: nat :: ApprovedAt(states, actions, k, f, row))
    && (row.state == KeyRevoked ==> exists k: nat :: RevokedAt(states, actions, k, f, row))
  }

  lemma {:induction false} KeyTracedStep(
    states: seq<Sys>, actions: seq<Action>, b: Sys, action: Action, f: Fingerprint, row: BootKey)
    requires |states| == |actions| + 1 && KeyStepped(states[|actions|].db, action, f, row)
    requires f in states[|actions|].db.keys ==> KeyTraced(states, actions, f, states[|actions|].db.keys[f])
    ensures KeyTraced(states + [b], actions + [action], f, row)
  {
    hide Trim, Bound;
    var states', actions', n := states + [b], actions + [action], |actions|;
    var db := states[n].db;
    assert states'[n] == states[n] && actions'[n] == action;
    if Enrolls(db, action, f, row) {
      assert EnrolledAt(states', actions', n, f, row);
    } else {
      var was := db.keys[f];
      assert row.pem == was.pem && row.firstSeenAt == was.firstSeenAt && row.machineId == was.machineId;
      var k: nat :| EnrolledAt(states, actions, k, f, was);
      assert EnrolledAt(states', actions', k, f, row);
      if row.state == KeyApproved {
        if was.state == KeyApproved {
          var j: nat :| ApprovedAt(states, actions, j, f, was);
          assert ApprovedAt(states', actions', j, f, row);
        } else {
          assert ApprovedAt(states', actions', n, f, row);
        }
      }
      if row.state == KeyRevoked {
        if was.state == KeyRevoked {
          var j: nat :| RevokedAt(states, actions, j, f, was);
          assert RevokedAt(states', actions', j, f, row);
        } else {
          assert RevokedAt(states', actions', n, f, row);
        }
      }
    }
  }

  /** Every key was enrolled as pending for a provisionable machine that an installation was assigned to. It is approved
      only if an operator with a name approved it for that machine while it was pending, and revoked only if it was
      revoked for that machine; the row tells of that action. */
  lemma {:induction false} KeyIsTraced(policy: SecureBootPolicy, actions: seq<Action>, f: Fingerprint)
    requires f in Run(policy, actions).db.keys
    ensures var states, row := States(policy, actions), Run(policy, actions).db.keys[f];
      && (exists k: nat :: EnrolledAt(states, actions, k, f, row))
      && (row.state == KeyApproved ==> exists k: nat :: ApprovedAt(states, actions, k, f, row))
      && (row.state == KeyRevoked ==> exists k: nat :: RevokedAt(states, actions, k, f, row))
    decreases |actions|
  {
    hide Run, Next, Inv, KeyStepped, EnrolledAt, ApprovedAt, RevokedAt;
    StatesEnd(policy, actions);
    if actions == [] {
      RunStart(policy);
    } else {
      var front, last := actions[..|actions| - 1], actions[|actions| - 1];
      var sys := Run(policy, front);
      StatesEnd(policy, front);
      StatesGrow(policy, actions);
      RunStep(policy, actions);
      RunKeepsInv(policy, front);
      KeyActionStep(sys, last, f);
      if f in sys.db.keys {
        KeyIsTraced(policy, front, f);
      }
      KeyTracedStep(States(policy, front), front, Next(sys, last), last, f, Run(policy, actions).db.keys[f]);
    }
  }

  /** Nothing but an approval of that key, by an operator who gives a name, makes a key approved. */
  lemma {:induction false} OnlyApprovalsApprove(
    policy: SecureBootPolicy, actions: seq<Action>, action: Action, f: Fingerprint)
    requires var db := Run(policy, actions).db; !(f in db.keys && db.keys[f].state == KeyApproved)
    requires var db := Run(policy, actions + [action]).db; f in db.keys && db.keys[f].state == KeyApproved
    ensures action.Do? && action.call.ApproveCall? && action.call.fingerprint == f && Trim(action.call.actor) != ""
    ensures action.call.machine == Run(policy, actions + [action]).db.keys[f].machineId
    ensures f in Run(policy, actions).db.keys && Run(policy, actions).db.keys[f].state == KeyPending
  {
    hide Run, Next, Inv, Trim, Bound;
    RunKeepsInv(policy, actions);
    RunMore(policy, actions, action);
    KeyActionStep(Run(policy, actions), action, f);
  }
}
