/** The gate in front of boot material and of the check-in of a booting machine, over whole runs. A request reads the
    machine in one step and the assignment in a later one, so what it has found holds of two states of the run. */
module BootGate {
  import opened Prelude
  import opened Lifecycle
  import opened Records
  import opened Schema
  import opened Transactions
  import opened StoreInvariant
  import opened StoreSteps
  import opened ControlPlane
  import opened StepsAreFaithful
  import opened Interleavings
  import opened Handoffs

  /** An operator has released the machine for provisioning, and Secure Boot is as the server requires it. */
  ghost predicate Provisionable(policy: SecureBootPolicy, db: Db, m: Id) {
    && m in db.machines && db.machines[m].policy == Provision
    && (policy == PolicyRequired ==> db.machines[m].secureBoot == Enabled)
  }

  /** The installation is made for the machine and is armed for it. */
  ghost predicate ArmedOn(db: Db, i: Id, m: Id) {
    && i in db.specs && db.specs[i].machineId == m
    && i in db.assignments && db.assignments[i].state == Armed && db.assignments[i].machineId == m
  }

  ghost predicate RowAllows(policy: SecureBootPolicy, row: Machine) {
    row.policy == Provision && (policy == PolicyRequired ==> row.secureBoot == Enabled)
  }

  // ---------------------------------------------------------------------------
  // One step
  // ---------------------------------------------------------------------------

  /** Where a request for boot material comes from, and what it has just read. */
  ghost predicate LoadReads(sys: Sys, action: Action, next: Request) {
    var was := Was(sys, action);
    match next
    case ReadingMachine(kind, i, m) =>
      action.Begin? && action.start == FetchMaterial(kind, i) && i in sys.db.specs && sys.db.specs[i].machineId == m
    case ReadingAssignment(kind, i, m, row) =>
      was == Some(ReadingMachine(kind, i, m)) && m in sys.db.machines && sys.db.machines[m] == row
    case Consuming(i) => PassesGate(sys, was, Material.Preseed, i)
    case Delivering(kind, i) => (was == Some(Consuming(i)) && kind.Preseed?) || PassesGate(sys, was, kind, i)
    case _ => true
  }

  ghost predicate PassesGate(sys: Sys, was: Option<Request>, kind: Material, i: Id) {
    && was.Some? && was.value.ReadingAssignment? && was.value.kind == kind && was.value.installation == i
    && RowAllows(sys.secureBoot, was.value.row) && ArmedOn(sys.db, i, was.value.machine)
  }

  /** Where the request of a booting machine comes from, and what it has just read. */
  ghost predicate BootReads(sys: Sys, action: Action, next: Request, after: Db, note: Option<Note>) {
    var was := Was(sys, action);
    match next
    case ReadingActive(m, row) =>
      && action.Begin? && action.start.PxeBoot? && action.start.obs.identifiers.Some?
      && note == Some(Observed(m, action.start.obs.identifiers.value))
      && m in after.machines && after.machines[m] == row && row.policy == Provision
    case ReadingSpec(m, row, active) =>
      && was == Some(ReadingActive(m, row)) && RowAllows(sys.secureBoot, row.(policy := Provision))
      && ArmedOn(sys.db, active.installationId, m)
    case CheckingIn(i) =>
      && was.Some? && was.value.ReadingSpec? && was.value.active.installationId == i
      && i in sys.db.specs && sys.db.specs[i].machineId == was.value.machine
    case _ => true
  }

  lemma {:induction false} StoredIsBound(db: Db, i: Id)
    requires Inv(db) && i in db.assignments
    ensures i in db.specs && AssignmentFits(db.assignments[i], i, db.specs[i])
  {
    hide Histories, TrustSound, ChallengesSound, KeysSound, Logs, SpecsOwned, IdentifiersAttached, IdsDrawn, Apart;
    hide ValidAssignment;
  }

  lemma {:induction false} GateAdmits(
    policy: SecureBootPolicy, db: Db, r: nat, kind: Material, i: Id, m: Id, row: Machine, requestId: string, now: Instant)
    requires Inv(db)
    ensures var e := StepEffect(policy, db, r, ReadingAssignment(kind, i, m, row), requestId, now);
      && e.db == db && e.note.None?
      && e.next == if RowAllows(policy, row) && ArmedOn(db, i, m)
                   then Some(if kind.Preseed? then Consuming(i) else Delivering(kind, i)) else None
  {
    hide Inv, ValidAssignment;
    if i in db.assignments {
      StoredIsBound(db, i);
      FitIsValid(db.assignments[i], i, db.specs[i]);
    }
  }

  lemma {:induction false} FitIsValid(a: Assignment, i: Id, spec: Spec)
    requires AssignmentFits(a, i, spec)
    ensures ValidAssignment(a) && a.installationId == i && a.machineId == spec.machineId
  {
    hide ValidAssignment;
  }

  lemma {:induction false} LoadStep(
    policy: SecureBootPolicy, sys: Sys, r: nat, request: Request, requestId: string, now: Instant)
    requires Inv(sys.db) && IsLoad(request) && sys.secureBoot == policy && r in sys.requests && sys.requests[r] == request
    ensures var e := StepEffect(policy, sys.db, r, request, requestId, now);
      && (e.next.Some? ==> IsLoad(e.next.value) && LoadReads(sys, Continue(r, requestId, now), e.next.value))
      && (e.note.Some? && e.note.value.Served? ==>
            e.note.value.request == r && request == Delivering(e.note.value.kind, e.note.value.installation))
  {
    hide Inv, StepEffect, ArmedOn, RowAllows;
    match request
    case ReadingMachine(kind, i, m) => ReadStep(policy, sys.db, r, request, requestId, now);
    case ReadingAssignment(kind, i, m, row) => GateAdmits(policy, sys.db, r, kind, i, m, row, requestId, now);
    case Consuming(i) => ConsumptionStep(policy, sys.db, r, i, requestId, now);
    case Delivering(kind, i) => ReadStep(policy, sys.db, r, request, requestId, now);
  }

  lemma {:induction false} ReadStep(
    policy: SecureBootPolicy, db: Db, r: nat, request: Request, requestId: string, now: Instant)
    requires request.ReadingMachine? || request.Delivering?
    ensures StepEffect(policy, db, r, request, requestId, now)
      == if request.Delivering? then Effect(db, None, Some(Served(r, request.kind, request.installation)))
         else if request.machine !in db.machines then Quiet(db)
         else Effect(db, Some(ReadingAssignment(request.kind, request.installation, request.machine,
                                                db.machines[request.machine])), None)
  {
  }

  lemma {:induction false} ActiveIsArmed(db: Db, m: Id)
    requires Inv(db)
    ensures ActiveFor(db, m).Some? <==> exists i :: ArmedOn(db, i, m)
    ensures ActiveFor(db, m).Some? ==>
      var a := ActiveFor(db, m).value;
      ArmedOn(db, a.installationId, m) && a == db.assignments[a.installationId]
  {
    hide Inv, AssignmentFits;
    forall i | i in db.assignments
      ensures IsActive(db, m, i) <==> ArmedOn(db, i, m)
      ensures db.assignments[i].installationId == i
    {
      StoredIsBound(db, i);
      FitIsValid(db.assignments[i], i, db.specs[i]);
    }
  }

  lemma {:induction false} BootStep(
    policy: SecureBootPolicy, sys: Sys, r: nat, request: Request, requestId: string, now: Instant)
    requires Inv(sys.db) && !IsLoad(request) && sys.secureBoot == policy && r in sys.requests && sys.requests[r] == request
    ensures var e := StepEffect(policy, sys.db, r, request, requestId, now);
      && (e.next.Some? ==> !IsLoad(e.next.value) && BootReads(sys, Continue(r, requestId, now), e.next.value, e.db, e.note))
      && (e.note.Some? ==> !e.note.value.Served?)
  {
    hide Inv;
    OtherStep(policy, sys.db, r, request, requestId, now);
    match request
    case ReadingActive(m, row) =>
      hide ActiveFor, ArmedOn;
      ActiveIsArmed(sys.db, m);
    case ReadingSpec(m, row, active) =>
    case _ =>
      hide AppendEvent, AppendChunk, CreateSpecInsert, TouchedRows, PxeKey, ActiveFor;
  }

  lemma {:induction false} StartReads(sys: Sys, start: Start, now: Instant)
    requires Inv(sys.db)
    ensures var e := StartEffect(sys.db, sys.nextRequest, start, now);
      && (e.next.Some? ==>
            && LoadReads(sys, Begin(start, now), e.next.value)
            && BootReads(sys, Begin(start, now), e.next.value, e.db, e.note))
      && (e.note.Some? ==> !e.note.value.Served?)
  {
    hide Inv, Discover, Authenticated, CreateSpecLookup;
    if start.PxeBoot? {
      DiscoveryFound(sys.db, start.obs, now);
    }
  }

  lemma {:induction false} DiscoveryFound(db: Db, obs: Observation, now: Instant)
    requires Inv(db)
    ensures Discover(db, obs, now).result.Ok? ==> obs.identifiers.Some?
  {
    hide Discover, Accepts;
    DiscoverAccepts(db, obs, now);
  }

  /** Every request in flight after a step has just read what it goes on with, or was not moved. */
  lemma {:induction false} StepReads(sys: Sys, action: Action)
    requires Inv(sys.db)
    ensures var e := ActionEffect(sys, action);
      && (e.next.Some? ==> LoadReads(sys, action, e.next.value) && BootReads(sys, action, e.next.value, e.db, e.note))
      && (e.note.Some? && e.note.value.Served? ==>
            && e.note.value.request == RequestOf(sys, action)
            && Was(sys, action) == Some(Delivering(e.note.value.kind, e.note.value.installation)))
  {
    hide Inv, StartEffect, CallEffect, StepEffect, PassesGate, ArmedOn, RowAllows;
    match action
    case Do(call, now) => CallNotes(sys.db, call, now);
    case Begin(start, now) => StartReads(sys, start, now);
    case Continue(r, requestId, now) =>
      if r in sys.requests {
        if IsLoad(sys.requests[r]) {
          LoadStep(sys.secureBoot, sys, r, sys.requests[r], requestId, now);
        } else {
          BootStep(sys.secureBoot, sys, r, sys.requests[r], requestId, now);
        }
      }
    case Abandon(_) =>
  }

  // ---------------------------------------------------------------------------
  // What a request has found in the states so far
  // ---------------------------------------------------------------------------

  /** Action `n` begins request `r` for this material. */
  ghost predicate Asks(states: seq<Sys>, actions: seq<Action>, n: nat, r: nat, kind: Material, i: Id) {
    n < |actions| < |states| && actions[n].Begin? && actions[n].start == FetchMaterial(kind, i) && states[n].nextRequest == r
  }

  /** Action `n` begins request `r` of a booting machine, and its observation is accepted for machine `m`. */
  ghost predicate Boots(states: seq<Sys>, actions: seq<Action>, n: nat, r: nat, m: Id) {
    && n < |actions| < |states| && actions[n].Begin? && actions[n].start.PxeBoot? && states[n].nextRequest == r
    && actions[n].start.obs.identifiers.Some?
    && states[n + 1].trace == states[n].trace + [Observed(m, actions[n].start.obs.identifiers.value)]
  }

  ghost predicate RowFound(states: seq<Sys>, a: nat, m: Id, row: Machine) {
    a < |states| && m in states[a].db.machines && states[a].db.machines[m] == row
  }

  ghost predicate MachineCleared(policy: SecureBootPolicy, states: seq<Sys>, a: nat, m: Id) {
    a < |states| && Provisionable(policy, states[a].db, m)
  }

  ghost predicate ArmedFound(states: seq<Sys>, b: nat, i: Id, m: Id) {
    b < |states| && ArmedOn(states[b].db, i, m)
  }

  ghost predicate SpecFound(states: seq<Sys>, c: nat, i: Id, m: Id) {
    c < |states| && i in states[c].db.specs && states[c].db.specs[i].machineId == m
  }

  /** After request `r` for this material began, a state had its machine cleared, and that state or a later one had the
      installation armed for this machine. */
  ghost predicate MayLoad(
    policy: SecureBootPolicy, states: seq<Sys>, actions: seq<Action>, r: nat, kind: Material, i: Id) {
    exists n: nat, a: nat, b: nat, m ::
      && Asks(states, actions, n, r, kind, i) && n < a <= b
      && MachineCleared(policy, states, a, m) && ArmedFound(states, b, i, m)
  }

  /** Request `r` began with the boot of a machine that was cleared right after its discovery; that state or a later one
      had the installation armed for it, and so on to one that still had the installation. */
  ghost predicate MayCheckIn(policy: SecureBootPolicy, states: seq<Sys>, actions: seq<Action>, r: nat, i: Id) {
    exists n: nat, b: nat, c: nat, m ::
      && Boots(states, actions, n, r, m) && n < b <= c && MachineCleared(policy, states, n + 1, m)
      && ArmedFound(states, b, i, m) && SpecFound(states, c, i, m)
  }

  /** What a request in flight has found. */
  ghost predicate Told(
    policy: SecureBootPolicy, states: seq<Sys>, actions: seq<Action>, r: nat, request: Request) {
    match request
    case ReadingMachine(kind, i, m) => exists n :: Asks(states, actions, n, r, kind, i)
    case ReadingAssignment(kind, i, m, row) =>
      exists n: nat, a: nat :: Asks(states, actions, n, r, kind, i) && n < a && RowFound(states, a, m, row)
    case Consuming(i) => MayLoad(policy, states, actions, r, Material.Preseed, i)
    case Delivering(kind, i) => MayLoad(policy, states, actions, r, kind, i)
    case ReadingActive(m, row) =>
      exists n: nat :: Boots(states, actions, n, r, m) && RowFound(states, n + 1, m, row) && row.policy == Provision
    case ReadingSpec(m, row, active) =>
      exists n: nat, b: nat ::
        && Boots(states, actions, n, r, m) && n < b && MachineCleared(policy, states, n + 1, m)
        && ArmedFound(states, b, active.installationId, m)
    case CheckingIn(i) => MayCheckIn(policy, states, actions, r, i)
    case _ => true
  }

  /** Everything that is found stays found when the run goes on. */
  lemma {:induction false} ToldStays(
    policy: SecureBootPolicy, states: seq<Sys>, actions: seq<Action>, sys: Sys, action: Action, r: nat, request: Request)
    requires Told(policy, states, actions, r, request) && |states| == |actions| + 1
    ensures Told(policy, states + [sys], actions + [action], r, request)
  {
    hide Provisionable, ArmedOn, MayLoad, MayCheckIn;
    match request
    case ReadingMachine(kind, i, m) =>
      var n :| Asks(states, actions, n, r, kind, i);
      assert Asks(states + [sys], actions + [action], n, r, kind, i);
    case ReadingAssignment(kind, i, m, row) =>
      var n: nat, a: nat :| Asks(states, actions, n, r, kind, i) && n < a && RowFound(states, a, m, row);
      assert Asks(states + [sys], actions + [action], n, r, kind, i) && RowFound(states + [sys], a, m, row);
    case Consuming(i) => MayLoadStays(policy, states, actions, sys, action, r, Material.Preseed, i);
    case Delivering(kind, i) => MayLoadStays(policy, states, actions, sys, action, r, kind, i);
    case ReadingActive(m, row) =>
      var n: nat :| Boots(states, actions, n, r, m) && RowFound(states, n + 1, m, row) && row.policy == Provision;
      assert Boots(states + [sys], actions + [action], n, r, m) && RowFound(states + [sys], n + 1, m, row);
    case ReadingSpec(m, row, active) =>
      var n: nat, b: nat :|
        && Boots(states, actions, n, r, m) && n < b && MachineCleared(policy, states, n + 1, m)
        && ArmedFound(states, b, active.installationId, m);
      assert Boots(states + [sys], actions + [action], n, r, m) && MachineCleared(policy, states + [sys], n + 1, m);
      assert ArmedFound(states + [sys], b, active.installationId, m);
    case CheckingIn(i) => MayCheckInStays(policy, states, actions, sys, action, r, i);
    case _ =>
  }

  lemma {:induction false} MayLoadStays(
    policy: SecureBootPolicy, states: seq<Sys>, actions: seq<Action>, sys: Sys, action: Action, r: nat, kind: Material,
    i: Id)
    requires MayLoad(policy, states, actions, r, kind, i) && |states| == |actions| + 1
    ensures MayLoad(policy, states + [sys], actions + [action], r, kind, i)
  {
    hide Provisionable, ArmedOn;
    var n: nat, a: nat, b: nat, m :|
      && Asks(states, actions, n, r, kind, i) && n < a <= b
      && MachineCleared(policy, states, a, m) && ArmedFound(states, b, i, m);
    assert Asks(states + [sys], actions + [action], n, r, kind, i) && MachineCleared(policy, states + [sys], a, m);
    assert ArmedFound(states + [sys], b, i, m);
  }

  lemma {:induction false} MayCheckInStays(
    policy: SecureBootPolicy, states: seq<Sys>, actions: seq<Action>, sys: Sys, action: Action, r: nat, i: Id)
    requires MayCheckIn(policy, states, actions, r, i) && |states| == |actions| + 1
    ensures MayCheckIn(policy, states + [sys], actions + [action], r, i)
  {
    hide Provisionable, ArmedOn;
    var n: nat, b: nat, c: nat, m :|
      && Boots(states, actions, n, r, m) && n < b <= c && MachineCleared(policy, states, n + 1, m)
      && ArmedFound(states, b, i, m) && SpecFound(states, c, i, m);
    assert Boots(states + [sys], actions + [action], n, r, m) && MachineCleared(policy, states + [sys], n + 1, m);
    assert ArmedFound(states + [sys], b, i, m) && SpecFound(states + [sys], c, i, m);
  }

  // ---------------------------------------------------------------------------
  // One more step
  // ---------------------------------------------------------------------------

  ghost predicate ToldAll(policy: SecureBootPolicy, states: seq<Sys>, actions: seq<Action>) {
    && |states| == |actions| + 1
    && var sys := states[|actions|];
      && sys.secureBoot == policy
      && (forall r | r in sys.requests :: Told(policy, states, actions, r, sys.requests[r]))
      && (forall t | 0 <= t < |sys.trace| && sys.trace[t].Served? ::
            MayLoad(policy, states, actions, sys.trace[t].request, sys.trace[t].kind, sys.trace[t].installation))
  }

  /** What the last state of `states` allows its successor to go on with. */
  ghost predicate Steps(
    states: seq<Sys>, actions: seq<Action>, after: Sys, action: Action, next: Option<Request>, note: Option<Note>) {
    && |states| == |actions| + 1
    && var sys, r := states[|actions|], RequestOf(states[|actions|], action);
      && (next.Some? ==> LoadReads(sys, action, next.value) && BootReads(sys, action, next.value, after.db, note))
      && (note.Some? && note.value.Served? ==>
            note.value.request == r && Was(sys, action) == Some(Delivering(note.value.kind, note.value.installation)))
      && after.requests == (if next.Some? then sys.requests[r := next.value] else sys.requests - {r})
      && after.trace == (if note.Some? then sys.trace + [note.value] else sys.trace)
      && after.secureBoot == sys.secureBoot
  }

  lemma {:induction false} NextSteps(states: seq<Sys>, actions: seq<Action>, action: Action)
    requires |states| == |actions| + 1 && Inv(states[|actions|].db)
    ensures var sys := states[|actions|];
      Steps(states, actions, Next(sys, action), action, ActionEffect(sys, action).next, ActionEffect(sys, action).note)
  {
    hide Inv, ActionEffect, LoadReads, BootReads;
    StepReads(states[|actions|], action);
  }

  /** A request that has passed the gate found the machine in an earlier state and the armed assignment in this one. */
  lemma {:induction false} PassedMayLoad(
    policy: SecureBootPolicy, states: seq<Sys>, actions: seq<Action>, after: Sys, action: Action, r: nat, was: Request)
    requires |states| == |actions| + 1 && was.ReadingAssignment? && Told(policy, states, actions, r, was)
    requires RowAllows(policy, was.row) && ArmedOn(states[|actions|].db, was.installation, was.machine)
    ensures MayLoad(policy, states + [after], actions + [action], r, was.kind, was.installation)
  {
    hide ArmedOn;
    var states', actions', b, m := states + [after], actions + [action], |actions|, was.machine;
    assert states'[b] == states[b];
    var n: nat, a: nat :| Asks(states, actions, n, r, was.kind, was.installation) && n < a && RowFound(states, a, m, was.row);
    assert Asks(states', actions', n, r, was.kind, was.installation) && ArmedFound(states', b, was.installation, m);
    assert states'[a] == states[a];
    assert MachineCleared(policy, states', a, m);
  }

  lemma {:induction false} BootIsTold(
    policy: SecureBootPolicy, states: seq<Sys>, actions: seq<Action>, after: Sys, action: Action, r: nat, m: Id,
    row: Machine)
    requires |states| == |actions| + 1 && action.Begin? && action.start.PxeBoot? && action.start.obs.identifiers.Some?
    requires states[|actions|].nextRequest == r
    requires after.trace == states[|actions|].trace + [Observed(m, action.start.obs.identifiers.value)]
    requires m in after.db.machines && after.db.machines[m] == row && row.policy == Provision
    ensures Told(policy, states + [after], actions + [action], r, ReadingActive(m, row))
  {
    var states', actions', n := states + [after], actions + [action], |actions|;
    assert states'[n] == states[n] && states'[n + 1] == after && actions'[n] == action;
    assert Boots(states', actions', n, r, m) && RowFound(states', n + 1, m, row);
  }

  lemma {:induction false} ActiveIsTold(
    policy: SecureBootPolicy, states: seq<Sys>, actions: seq<Action>, after: Sys, action: Action, r: nat, m: Id,
    row: Machine, active: Assignment)
    requires |states| == |actions| + 1 && Told(policy, states, actions, r, ReadingActive(m, row))
    requires policy == PolicyRequired ==> row.secureBoot == Enabled
    requires ArmedOn(states[|actions|].db, active.installationId, m)
    ensures Told(policy, states + [after], actions + [action], r, ReadingSpec(m, row, active))
  {
    hide ArmedOn;
    var states', actions', b := states + [after], actions + [action], |actions|;
    assert states'[b] == states[b];
    var n: nat :| Boots(states, actions, n, r, m) && RowFound(states, n + 1, m, row) && row.policy == Provision;
    assert Boots(states', actions', n, r, m) && ArmedFound(states', b, active.installationId, m);
    assert MachineCleared(policy, states', n + 1, m);
  }

  lemma {:induction false} SpecIsTold(
    policy: SecureBootPolicy, states: seq<Sys>, actions: seq<Action>, after: Sys, action: Action, r: nat, was: Request)
    requires |states| == |actions| + 1 && was.ReadingSpec? && Told(policy, states, actions, r, was)
    requires var i, db := was.active.installationId, states[|actions|].db; i in db.specs && db.specs[i].machineId == was.machine
    ensures MayCheckIn(policy, states + [after], actions + [action], r, was.active.installationId)
  {
    hide ArmedOn, Provisionable;
    var states', actions', c, m, i := states + [after], actions + [action], |actions|, was.machine, was.active.installationId;
    assert states'[c] == states[c];
    var n: nat, b: nat :|
      Boots(states, actions, n, r, m) && n < b && MachineCleared(policy, states, n + 1, m) && ArmedFound(states, b, i, m);
    assert Boots(states', actions', n, r, m) && MachineCleared(policy, states', n + 1, m);
    assert ArmedFound(states', b, i, m) && SpecFound(states', c, i, m);
  }

  lemma {:induction false} LoadIsTold(
    policy: SecureBootPolicy, states: seq<Sys>, actions: seq<Action>, after: Sys, action: Action, next: Request)
    requires ToldAll(policy, states, actions) && LoadReads(states[|actions|], action, next) && IsLoad(next)
    ensures Told(policy, states + [after], actions + [action], RequestOf(states[|actions|], action), next)
  {
    hide ArmedOn, RowAllows, MayLoad;
    var sys, r, n := states[|actions|], RequestOf(states[|actions|], action), |actions|;
    var states', actions' := states + [after], actions + [action];
    assert states'[n] == sys && actions'[n] == action;
    match next
    case ReadingMachine(kind, i, m) =>
      assert Asks(states', actions', n, r, kind, i);
    case ReadingAssignment(kind, i, m, row) =>
      assert Told(policy, states, actions, r, ReadingMachine(kind, i, m));
      var k :| Asks(states, actions, k, r, kind, i);
      assert Asks(states', actions', k, r, kind, i) && RowFound(states', n, m, row);
    case Consuming(i) =>
      PassedMayLoad(policy, states, actions, after, action, r, sys.requests[r]);
    case Delivering(kind, i) =>
      if sys.requests[r].ReadingAssignment? {
        PassedMayLoad(policy, states, actions, after, action, r, sys.requests[r]);
      } else {
        MayLoadStays(policy, states, actions, after, action, r, kind, i);
      }
  }

  lemma {:induction false} BootingIsTold(
    policy: SecureBootPolicy, states: seq<Sys>, actions: seq<Action>, after: Sys, action: Action, next: Request,
    note: Option<Note>)
    requires ToldAll(policy, states, actions) && BootReads(states[|actions|], action, next, after.db, note)
    requires after.trace == (if note.Some? then states[|actions|].trace + [note.value] else states[|actions|].trace)
    requires !IsLoad(next)
    ensures Told(policy, states + [after], actions + [action], RequestOf(states[|actions|], action), next)
  {
    hide ArmedOn, MayLoad, MayCheckIn;
    var sys, r := states[|actions|], RequestOf(states[|actions|], action);
    match next
    case ReadingActive(m, row) => BootIsTold(policy, states, actions, after, action, r, m, row);
    case ReadingSpec(m, row, active) => ActiveIsTold(policy, states, actions, after, action, r, m, row, active);
    case CheckingIn(i) => SpecIsTold(policy, states, actions, after, action, r, sys.requests[r]);
    case _ =>
  }

  lemma {:induction false} ToldStep(
    policy: SecureBootPolicy, states: seq<Sys>, actions: seq<Action>, after: Sys, action: Action, next: Option<Request>,
    note: Option<Note>)
    requires ToldAll(policy, states, actions) && Steps(states, actions, after, action, next, note)
    ensures ToldAll(policy, states + [after], actions + [action])
  {
    hide Told, MayLoad, LoadReads, BootReads;
    var sys, r := states[|actions|], RequestOf(states[|actions|], action);
    var states', actions' := states + [after], actions + [action];
    assert states'[|actions'|] == after;
    forall q | q in after.requests ensures Told(policy, states', actions', q, after.requests[q]) {
      if q != r || next.None? {
        ToldStays(policy, states, actions, after, action, q, sys.requests[q]);
      } else if IsLoad(next.value) {
        LoadIsTold(policy, states, actions, after, action, next.value);
      } else {
        BootingIsTold(policy, states, actions, after, action, next.value, note);
      }
    }
    forall t | 0 <= t < |after.trace| && after.trace[t].Served?
      ensures MayLoad(policy, states', actions', after.trace[t].request, after.trace[t].kind, after.trace[t].installation)
    {
      var seen := after.trace[t];
      if t < |sys.trace| {
        assert sys.trace[t] == seen;
      } else {
        DeliveringMayLoad(policy, states, actions, r, sys.requests[r]);
      }
      MayLoadStays(policy, states, actions, after, action, seen.request, seen.kind, seen.installation);
    }
  }

  lemma {:induction false} DeliveringMayLoad(
    policy: SecureBootPolicy, states: seq<Sys>, actions: seq<Action>, r: nat, request: Request)
    requires Told(policy, states, actions, r, request) && request.Delivering?
    ensures MayLoad(policy, states, actions, r, request.kind, request.installation)
  {
    hide MayLoad;
  }

  lemma {:induction false} RunIsTold(policy: SecureBootPolicy, actions: seq<Action>)
    ensures ToldAll(policy, States(policy, actions), actions)
    decreases |actions|
  {
    hide Run, Next, Inv, Told, MayLoad, Steps, ActionEffect;
    StatesEnd(policy, actions);
    if actions == [] {
      RunStart(policy);
    } else {
      var front, last := actions[..|actions| - 1], actions[|actions| - 1];
      var sys := Run(policy, front);
      RunIsTold(policy, front);
      StatesEnd(policy, front);
      StatesGrow(policy, actions);
      RunKeepsInv(policy, front);
      NextSteps(States(policy, front), front, last);
      hide ToldAll;
      ToldStep(
        policy, States(policy, front), front, Next(sys, last), last, ActionEffect(sys, last).next, ActionEffect(sys, last).note);
    }
  }

  // ---------------------------------------------------------------------------
  // Every run
  // ---------------------------------------------------------------------------

  /** Whatever is served was asked for, and since then the machine of the installation was released for provisioning with
      Secure Boot as required, in a state of the run, and in that state or a later one the installation was armed for it. */
  lemma {:induction false} ServedWasEntitled(policy: SecureBootPolicy, actions: seq<Action>, t: nat)
    requires t < |Run(policy, actions).trace| && Run(policy, actions).trace[t].Served?
    ensures var states, served := States(policy, actions), Run(policy, actions).trace[t];
      exists n: nat, a: nat, b: nat, m ::
        && Asks(states, actions, n, served.request, served.kind, served.installation) && n < a <= b
        && MachineCleared(policy, states, a, m) && ArmedFound(states, b, served.installation, m)
  {
    hide Run, Told, Asks, MachineCleared, ArmedFound;
    RunIsTold(policy, actions);
    StatesEnd(policy, actions);
  }

  /** And whoever checks in booted a machine that was released for provisioning with Secure Boot as required right after
      the discovery, and had the installation armed for it in that state or a later one. */
  lemma {:induction false} CheckInWasEntitled(policy: SecureBootPolicy, actions: seq<Action>, r: nat)
    requires r in Run(policy, actions).requests && Run(policy, actions).requests[r].CheckingIn?
    ensures var states, i := States(policy, actions), Run(policy, actions).requests[r].installation;
      exists n: nat, b: nat, c: nat, m ::
        && Boots(states, actions, n, r, m) && n < b <= c && MachineCleared(policy, states, n + 1, m)
        && ArmedFound(states, b, i, m) && SpecFound(states, c, i, m)
  {
    hide Run, Boots, MachineCleared, ArmedFound, SpecFound;
    RunIsTold(policy, actions);
    StatesEnd(policy, actions);
    assert Told(policy, States(policy, actions), actions, r, Run(policy, actions).requests[r]);
  }
}
