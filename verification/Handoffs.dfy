/** What the trace of a run can show: claims on machines are conserved, an installation is armed, handed over and
    trusted at most once, and the schema refuses two kinds of statements only. */
module Handoffs {
  import opened Prelude
  import opened Text
  import opened Lifecycle
  import opened Records
  import opened Schema
  import opened Transactions
  import opened StoreInvariant
  import opened StoreSteps
  import opened TrustSteps
  import opened ControlPlane
  import opened StepsAreFaithful
  import opened Interleavings

  // ---------------------------------------------------------------------------
  // What the store still shows of an old note
  // ---------------------------------------------------------------------------

  ghost predicate AttachedTo(db: Db, ids: seq<Identifier>, m: Id) {
    forall k | 0 <= k < |ids| :: ids[k] in db.identifiers && db.identifiers[ids[k]] == m
  }

  ghost predicate Recalled(db: Db, note: Note) {
    match note
    case Observed(m, ids) => m < db.nextId && (m in db.machines ==> AttachedTo(db, ids, m))
    case ArmedFor(_, i) => Claimed(db, i)
    case CancelledFor(_, i) => ClaimSettled(db, i)
    case ConsumedFor(_, i) => ClaimSettled(db, i)
    case Released(i, release) => ReleaseKnown(db, i, release)
    case SchemaRefused(refusal) => refusal != Elsewhere
    case _ => true
  }

  lemma {:induction false} AttachedStays(a: Db, b: Db, ids: seq<Identifier>, m: Id)
    requires MachinesEvolve(a, b) && m < a.nextId && (m in a.machines ==> AttachedTo(a, ids, m))
    ensures m in b.machines ==> AttachedTo(b, ids, m)
  {
  }

  lemma {:induction false} RecalledStays(a: Db, b: Db, note: Note)
    requires Evolves(a, b) && Recalled(a, note)
    ensures Recalled(b, note)
  {
    hide SpecsEvolve, TrustEvolves, TelemetryEvolves, MachinesEvolve, Claimed, ClaimSettled, ReleaseKnown, AttachedTo;
    hide Credentialed;
    match note
    case Observed(m, ids) => AttachedStays(a, b, ids, m);
    case ArmedFor(_, i) => ClaimsStay(a, b, i);
    case CancelledFor(_, i) => ClaimsStay(a, b, i);
    case ConsumedFor(_, i) => ClaimsStay(a, b, i);
    case Released(i, release) => ClaimsStay(a, b, i);
    case _ =>
  }

  lemma {:induction false} AcceptedIsAttached(a: Db, ids: seq<Identifier>, m: Id, created: bool, b: Db)
    requires Accepts(a, ids, m, created, b) && forall n | n in b.machines :: n < b.nextId
    ensures AttachedTo(b, ids, m) && m < b.nextId
  {
  }

  lemma {:induction false} MachineIdsBelow(db: Db)
    requires Inv(db)
    ensures forall n | n in db.machines :: n < db.nextId
  {
    hide Histories, TrustSound, AssignmentsSound, ChallengesSound, KeysSound, Logs, SpecsOwned, IdentifiersAttached;
  }

  lemma {:induction false} ToldIsRecalled(a: Db, note: Note, b: Db)
    requires Inv(b) && Tells(a, note, b)
    ensures Recalled(b, note)
  {
    MachineIdsBelow(b);
    hide Inv, Accepts, SameClaims, HasArmed, Claimed, ClaimSettled, ReleaseKnown, AttachedTo;
    if note.Observed? {
      var created :| Accepts(a, note.identifiers, note.machine, created, b);
      AcceptedIsAttached(a, note.identifiers, note.machine, created, b);
    }
  }

  // ---------------------------------------------------------------------------
  // Once each
  // ---------------------------------------------------------------------------

  predicate Settling(note: Note) {
    note.CancelledFor? || note.ConsumedFor?
  }

  predicate Compatible(earlier: Note, later: Note) {
    && (earlier.ArmedFor? && later.ArmedFor? ==> earlier.installation != later.installation)
    && (Settling(earlier) && Settling(later) ==> earlier.installation != later.installation)
    && (earlier.Released? && later.Released? && earlier.installation == later.installation ==> earlier.release == later.release)
  }

  lemma {:induction false} ReleasesAgree(db: Db, i: Id, r: Release, s: Release)
    requires Inv(db) && i in db.specs && ReleaseKnown(db, i, r) && ReleaseKnown(db, i, s)
    ensures r == s
  {
    hide Histories, AssignmentsSound, ChallengesSound, KeysSound, Logs, SpecsOwned, IdentifiersAttached, IdsDrawn;
    ReleaseIsUnique(db, i, r, s);
  }

  lemma {:induction false} NewIsCompatible(a: Db, earlier: Note, later: Note, b: Db)
    requires Inv(b) && Evolves(a, b) && Recalled(a, earlier) && Tells(a, later, b)
    ensures Compatible(earlier, later)
  {
    hide Inv, Evolves, Tells, Recalled;
    if later.ArmedFor? && earlier.ArmedFor? {
      ArmedWasUnclaimed(a, later, b);
      RecalledClaim(a, earlier);
    } else if Settling(later) && Settling(earlier) {
      EndedWasArmed(a, later, b);
      RecalledSettled(a, earlier);
    } else if earlier.Released? && later.Released? && earlier.installation == later.installation {
      RecalledStays(a, b, earlier);
      RecalledRelease(b, earlier);
      ToldRelease(a, later, b);
      ReleasesAgree(b, later.installation, earlier.release, later.release);
    }
  }

  lemma {:induction false} ArmedWasUnclaimed(a: Db, note: Note, b: Db)
    requires note.ArmedFor? && Tells(a, note, b)
    ensures !Claimed(a, note.installation)
  {
    hide HasArmed;
  }

  lemma {:induction false} EndedWasArmed(a: Db, note: Note, b: Db)
    requires Settling(note) && Tells(a, note, b)
    ensures !ClaimSettled(a, note.installation)
  {
    hide HasArmed;
  }

  lemma {:induction false} ToldRelease(a: Db, note: Note, b: Db)
    requires note.Released? && Tells(a, note, b)
    ensures note.installation in b.specs && ReleaseKnown(b, note.installation, note.release)
  {
    hide SameClaims, ReleaseKnown;
  }

  lemma {:induction false} RecalledClaim(db: Db, note: Note)
    requires note.ArmedFor? && Recalled(db, note)
    ensures Claimed(db, note.installation)
  {
  }

  lemma {:induction false} RecalledSettled(db: Db, note: Note)
    requires Settling(note) && Recalled(db, note)
    ensures ClaimSettled(db, note.installation)
  {
  }

  lemma {:induction false} RecalledRelease(db: Db, note: Note)
    requires note.Released? && Recalled(db, note)
    ensures ReleaseKnown(db, note.installation, note.release)
  {
  }

  ghost predicate TraceSound(sys: Sys) {
    && (forall k | 0 <= k < |sys.trace| :: Recalled(sys.db, sys.trace[k]))
    && (forall j, k | 0 <= j < k < |sys.trace| :: Compatible(sys.trace[j], sys.trace[k]))
  }

  /** A step adds at most one note, and that note tells what the step did. */
  ghost predicate Advances(a: Sys, b: Sys) {
    && Inv(a.db) && Inv(b.db) && Evolves(a.db, b.db)
    && ((b.trace == a.trace && SameClaims(a.db, b.db))
        || exists note :: b.trace == a.trace + [note] && Tells(a.db, note, b.db))
  }

  lemma {:induction false} NextAdvances(sys: Sys, action: Action)
    requires SysValid(sys)
    ensures Advances(sys, Next(sys, action))
  {
    hide Inv, Evolves, Prepared, Tells, SameClaims, ActionEffect, NoNewIdentifiers;
    ActionIsFaithful(sys, action);
    var e := ActionEffect(sys, action);
    if e.note.Some? {
      assert Next(sys, action).trace == sys.trace + [e.note.value];
    }
  }

  lemma {:induction false} TraceGrows(a: Sys, b: Sys)
    requires TraceSound(a) && Advances(a, b)
    ensures TraceSound(b)
  {
    hide Inv, Evolves, Tells, SameClaims, Recalled, Compatible;
    forall k | 0 <= k < |a.trace| ensures Recalled(b.db, a.trace[k]) {
      RecalledStays(a.db, b.db, a.trace[k]);
    }
    if note :| b.trace == a.trace + [note] && Tells(a.db, note, b.db) {
      ToldIsRecalled(a.db, note, b.db);
      forall j | 0 <= j < |a.trace| ensures Compatible(a.trace[j], note) {
        NewIsCompatible(a.db, a.trace[j], note, b.db);
      }
    }
  }

  lemma {:induction false} RunTraceIsSound(policy: SecureBootPolicy, actions: seq<Action>)
    ensures TraceSound(Run(policy, actions))
    decreases |actions|
  {
    hide Run, Next, Advances, SysValid, Recalled, Compatible;
    if actions == [] {
      RunStart(policy);
    } else {
      var front, last := actions[..|actions| - 1], actions[|actions| - 1];
      RunStep(policy, actions);
      RunTraceIsSound(policy, front);
      RunIsValid(policy, front);
      NextAdvances(Run(policy, front), last);
      TraceGrows(Run(policy, front), Next(Run(policy, front), last));
    }
  }

  /** No installation is armed twice, its claim is not ended twice, and no two proofs release different secrets. */
  lemma {:induction false} OncePerInstallation(policy: SecureBootPolicy, actions: seq<Action>, j: nat, k: nat)
    requires j < k < |Run(policy, actions).trace|
    ensures var earlier, later := Run(policy, actions).trace[j], Run(policy, actions).trace[k];
      && (earlier.ArmedFor? && later.ArmedFor? ==> earlier.installation != later.installation)
      && (Settling(earlier) && Settling(later) ==> earlier.installation != later.installation)
      && (earlier.Released? && later.Released? && earlier.installation == later.installation ==> earlier.release == later.release)
  {
    RunTraceIsSound(policy, actions);
    hide Run;
    assert Compatible(Run(policy, actions).trace[j], Run(policy, actions).trace[k]);
  }

  /** The schema refuses the insert of a new installation and the first use of a challenge, and nothing else. */
  lemma {:induction false} SchemaRefusesOnly(policy: SecureBootPolicy, actions: seq<Action>, k: nat)
    requires k < |Run(policy, actions).trace| && Run(policy, actions).trace[k].SchemaRefused?
    ensures Run(policy, actions).trace[k].refusal != Elsewhere
  {
    RunTraceIsSound(policy, actions);
    hide Run;
    assert Recalled(Run(policy, actions).db, Run(policy, actions).trace[k]);
  }

  // ---------------------------------------------------------------------------
  // Conservation
  // ---------------------------------------------------------------------------

  datatype Move = Arming | Cancelling | Handover

  predicate IsMove(note: Note, move: Move, m: Id) {
    match move
    case Arming => note.ArmedFor? && note.machine == m
    case Cancelling => note.CancelledFor? && note.machine == m
    case Handover => note.ConsumedFor? && note.machine == m
  }

  /** How often a machine was armed, cancelled or handed its installer. */
  function Count(trace: seq<Note>, move: Move, m: Id): nat {
    if trace == [] then 0
    else Count(trace[..|trace| - 1], move, m) + if IsMove(trace[|trace| - 1], move, m) then 1 else 0
  }

  lemma {:induction false} CountOne(trace: seq<Note>, note: Note, move: Move, m: Id)
    ensures Count(trace + [note], move, m) == Count(trace, move, m) + if IsMove(note, move, m) then 1 else 0
  {
    assert (trace + [note])[..|trace|] == trace;
  }

  ghost predicate Balanced(sys: Sys, m: Id) {
    Count(sys.trace, Arming, m)
    == Count(sys.trace, Handover, m) + Count(sys.trace, Cancelling, m) + if HasArmed(sys.db, m) then 1 else 0
  }

  lemma {:induction false} NoteBalances(a: Db, note: Note, b: Db, m: Id)
    requires Tells(a, note, b)
    ensures (if IsMove(note, Arming, m) then 1 else 0) + (if HasArmed(a, m) then 1 else 0)
      == (if IsMove(note, Handover, m) then 1 else 0) + (if IsMove(note, Cancelling, m) then 1 else 0)
         + if HasArmed(b, m) then 1 else 0
  {
    hide HasArmed, Accepts, ReleaseKnown, Claimed, ClaimSettled;
  }

  lemma {:induction false} BalanceStays(a: Sys, b: Sys, m: Id)
    requires Balanced(a, m) && Advances(a, b)
    ensures Balanced(b, m)
  {
    hide Inv, Evolves, HasArmed, Tells, IsMove;
    if note :| b.trace == a.trace + [note] && Tells(a.db, note, b.db) {
      NoteBalances(a.db, note, b.db, m);
      CountOne(a.trace, note, Arming, m);
      CountOne(a.trace, note, Cancelling, m);
      CountOne(a.trace, note, Handover, m);
    }
  }

  /** Conservation of claims: every arming of a machine was handed over, was cancelled, or is the one still armed. */
  lemma {:induction false} ClaimsAreConserved(policy: SecureBootPolicy, actions: seq<Action>, m: Id)
    ensures var sys := Run(policy, actions);
      Count(sys.trace, Arming, m)
      == Count(sys.trace, Handover, m) + Count(sys.trace, Cancelling, m) + if HasArmed(sys.db, m) then 1 else 0
    decreases |actions|
  {
    hide Run, Next, Advances, SysValid;
    if actions == [] {
      RunStart(policy);
    } else {
      var front, last := actions[..|actions| - 1], actions[|actions| - 1];
      RunStep(policy, actions);
      ClaimsAreConserved(policy, front, m);
      RunIsValid(policy, front);
      NextAdvances(Run(policy, front), last);
      BalanceStays(Run(policy, front), Next(Run(policy, front), last), m);
    }
  }

  ghost predicate IsArmed(db: Db, i: Id) {
    i in db.assignments && db.assignments[i].state == Armed
  }

  /** At most one installation of a machine is armed at any time. */
  lemma {:induction false} OneClaimPerMachine(policy: SecureBootPolicy, actions: seq<Action>, i: Id, j: Id)
    ensures var db := Run(policy, actions).db;
      IsArmed(db, i) && IsArmed(db, j) && db.assignments[i].machineId == db.assignments[j].machineId ==> i == j
  {
    RunIsValid(policy, actions);
    hide Run;
    var db := Run(policy, actions).db;
    hide Histories, TrustSound, ChallengesSound, KeysSound, Logs, SpecsOwned, IdentifiersAttached, IdsDrawn, Prepared;
    hide ValidAssignment;
    if i in db.assignments && j in db.assignments && i != j {
      assert Apart(db.assignments[i], db.assignments[j]);
    }
  }

  // ---------------------------------------------------------------------------
  // Boot material
  // ---------------------------------------------------------------------------

  predicate IsLoad(request: Request) {
    request.ReadingMachine? || request.ReadingAssignment? || request.Consuming? || request.Delivering?
  }

  /** The request has passed the gate. */
  predicate Admitted(request: Request) {
    request.Consuming? || request.Delivering?
  }

  ghost function Was(sys: Sys, action: Action): Option<Request> {
    if action.Continue? && action.request in sys.requests then Some(sys.requests[action.request]) else None
  }

  /** How a step continues a request for boot material, and what it notes about it. */
  ghost predicate MaterialStep(
    db: Db, r: nat, begins: bool, was: Option<Request>, next: Option<Request>, note: Option<Note>) {
    && (next.Some? ==> begins || was.Some?)
    && (was.Some? && IsLoad(was.value) && next.Some? ==> IsLoad(next.value))
    && (next.Some? && IsLoad(next.value) ==>
          || (begins && next.value.ReadingMachine? && note == Some(LoadBegan(r, next.value.installation)))
          || (was.Some? && IsLoad(was.value) && was.value.installation == next.value.installation
              && !(note.Some? && note.value.LoadBegan?)))
    && (next.Some? && Admitted(next.value) ==>
          || (was.Some? && was.value.ReadingAssignment? && IsArmed(db, next.value.installation)
              && next.value != Delivering(Preseed, next.value.installation) && note.None?)
          || (was == Some(Consuming(next.value.installation)) && next.value == Delivering(Preseed, next.value.installation)
              && note.Some? && note.value.ConsumedFor? && note.value.installation == next.value.installation))
    && (note.Some? && note.value.Served? ==>
          note.value.request == r && was == Some(Delivering(note.value.kind, note.value.installation)) && next.None?)
    && (note.Some? && note.value.LoadBegan? ==>
          && note.value.request == r && begins
          && (next.Some? ==> next.value.ReadingMachine? && next.value.installation == note.value.installation))
    && (note.Some? && note.value.ConsumedFor? ==> was == Some(Consuming(note.value.installation)))
  }

  lemma {:induction false} StartIsMaterialStep(db: Db, r: nat, start: Start, now: Instant)
    ensures var e := StartEffect(db, r, start, now); MaterialStep(db, r, true, None, e.next, e.note)
  {
    hide Discover, Authenticated, CreateSpecLookup, IsArmed;
  }

  /** A call of one transaction neither loads nor serves nor consumes. */
  ghost predicate CallNote(note: Option<Note>) {
    note.Some? ==>
      note.value.Observed? || note.value.ArmedFor? || note.value.CancelledFor? || note.value.Released? || note.value.SchemaRefused?
  }

  lemma {:induction false} NotingNotes<T>(tx: Tx<T>, refusal: Refusal, note: Option<Note>)
    requires tx.result.Ok? ==> CallNote(note)
    ensures Noting(tx, refusal, note).next.None? && CallNote(Noting(tx, refusal, note).note)
  {
  }

  lemma {:induction false} CallNotes(db: Db, call: Call, now: Instant)
    ensures CallEffect(db, call, now).next.None? && CallNote(CallEffect(db, call, now).note)
  {
    hide Discover, SetPolicy, Arm, RegisterKey, ApproveKey, RevokeKey, CreateChallenge, Complete, RevokeCredential;
    hide DeleteInstallation, DeleteMachine, Noting, Settle;
    match call
    case DiscoverCall(obs) => NotingNotes(Discover(db, obs, now), Elsewhere, DiscoverNote(Discover(db, obs, now), obs));
    case PolicyCall(m, policy, actor) => NotingNotes(SetPolicy(db, m, policy, actor), Elsewhere, None);
    case ArmCall(m, i, requestId, actor) => NotingNotes(Arm(db, m, i, requestId, actor, now), Elsewhere, Some(ArmedFor(m, i)));
    case CancelCall(i, actor) =>
      CancelSettles(db, i, actor, now);
      NotingNotes(Cancel(db, i, actor, now), Elsewhere, SettleNote(Cancel(db, i, actor, now)));
    case RegisterCall(i, pem, ek) => NotingNotes(RegisterKey(db, i, pem, ek, now), Elsewhere, None);
    case ApproveCall(m, f, actor) => NotingNotes(ApproveKey(db, m, f, actor, now), Elsewhere, None);
    case RevokeKeyCall(m, f, actor) => NotingNotes(RevokeKey(db, m, f, actor, now), Elsewhere, None);
    case ChallengeCall(i, f, nonce) => NotingNotes(CreateChallenge(db, i, f, nonce, now), Elsewhere, None);
    case ProveCall(i, c, signature, secret) =>
      var tx := Complete(db, i, c, signature, secret, now);
      NotingNotes(tx, FirstUseOfChallenge, ReleaseNote(i, tx));
    case RevokeCredentialCall(i, actor) => NotingNotes(RevokeCredential(db, i, actor, now), Elsewhere, None);
    case DeleteInstallationCall(i, actor) => NotingNotes(DeleteInstallation(db, i, actor), Elsewhere, None);
    case DeleteMachineCall(m, actor) => NotingNotes(DeleteMachine(db, m, actor), Elsewhere, None);
  }

  lemma {:induction false} CallIsMaterialStep(db: Db, r: nat, call: Call, now: Instant)
    ensures var e := CallEffect(db, call, now); MaterialStep(db, r, false, None, e.next, e.note)
  {
    hide CallEffect;
    CallNotes(db, call, now);
  }

  lemma {:induction false} CancelSettles(db: Db, i: Id, actor: string, now: Instant)
    ensures var tx := Cancel(db, i, actor, now); tx.result.Ok? ==> tx.result.value.state == Cancelled
  {
    hide Blank, ValidAssignment;
  }

  lemma {:induction false} ConsumeSettles(db: Db, i: Id, now: Instant)
    requires Inv(db)
    ensures var tx := Consume(db, i, "system:pxe", now);
      tx.result.Ok? ==> tx.result.value.state == Consumed && tx.result.value.installationId == i
  {
    hide Inv, Evolves, Settle, SettledBy;
    SettleIsSound(db, i, "system:pxe", Consumed, now);
    var tx := Consume(db, i, "system:pxe", now);
    if tx.result.Ok? {
      SettledIsSpecified(db, i, tx.result.value, tx.db);
    }
  }

  /** A request that is not for boot material goes on with something else than boot material. */
  lemma {:induction false} OtherStep(
    policy: SecureBootPolicy, db: Db, r: nat, request: Request, requestId: string, now: Instant)
    requires !IsLoad(request)
    ensures var e := StepEffect(policy, db, r, request, requestId, now);
      && (e.next.Some? ==> !IsLoad(e.next.value))
      && (e.note.Some? ==> e.note.value.SchemaRefused? || e.note.value.CheckInConflict?)
  {
    hide AppendEvent, AppendChunk, CreateSpecInsert, ActiveFor, Settle, MaterialAllowed, TouchedRows, PxeKey, Noting;
    match request
    case AppendingEvent(i, report) => NotingNothing(AppendEvent(db, i, report, requestId, now), Elsewhere);
    case AppendingLog(i, chunk) => NotingNothing(AppendChunk(db, i, chunk, requestId, now), Elsewhere);
    case InsertingSpec(input) => NotingNothing(CreateSpecInsert(db, input, requestId, now), NewInstallation);
    case CheckingIn(i) => NotingNothing(AppendEvent(db, i, CheckInReport(i), requestId, now), Elsewhere);
    case _ =>
  }

  lemma {:induction false} NotingNothing<T>(tx: Tx<T>, refusal: Refusal)
    ensures var e := Noting(tx, refusal, None); e.next.None? && (e.note.Some? ==> e.note.value.SchemaRefused?)
  {
  }

  lemma {:induction false} ConsumptionStep(
    policy: SecureBootPolicy, db: Db, r: nat, i: Id, requestId: string, now: Instant)
    requires Inv(db)
    ensures var e := StepEffect(policy, db, r, Consuming(i), requestId, now);
      && (e.next.Some? ==> e.next.value == Delivering(Preseed, i) && e.note.Some? && e.note.value.ConsumedFor?)
      && (e.note.Some? ==> e.note.value.SchemaRefused? || (e.note.value.ConsumedFor? && e.note.value.installation == i))
  {
    hide Inv, Settle;
    ConsumeSettles(db, i, now);
  }

  /** The gate reads the stored assignment, so a request that passes it does so while the installation is armed. */
  lemma {:induction false} GateStep(
    policy: SecureBootPolicy, db: Db, r: nat, request: Request, requestId: string, now: Instant)
    requires request.ReadingMachine? || request.ReadingAssignment?
    ensures var e := StepEffect(policy, db, r, request, requestId, now);
      && e.note.None?
      && (e.next.Some? ==> IsLoad(e.next.value) && e.next.value.installation == request.installation)
      && (e.next.Some? && Admitted(e.next.value) ==>
            request.ReadingAssignment? && IsArmed(db, request.installation)
            && e.next.value != Delivering(Preseed, request.installation))
  {
    hide ValidAssignment;
  }

  lemma {:induction false} StepIsMaterialStep(
    policy: SecureBootPolicy, db: Db, r: nat, request: Request, requestId: string, now: Instant)
    requires Inv(db)
    ensures var e := StepEffect(policy, db, r, request, requestId, now);
      MaterialStep(db, r, false, Some(request), e.next, e.note)
  {
    if !IsLoad(request) {
      hide Inv, StepEffect, IsArmed;
      OtherStep(policy, db, r, request, requestId, now);
    } else if request.Consuming? {
      hide Inv, StepEffect, IsArmed;
      ConsumptionStep(policy, db, r, request.installation, requestId, now);
    } else if request.Delivering? {
      hide Inv, IsArmed;
    } else {
      hide Inv, StepEffect, IsArmed;
      GateStep(policy, db, r, request, requestId, now);
    }
  }

  lemma {:induction false} ActionIsMaterialStep(sys: Sys, action: Action)
    requires Inv(sys.db)
    ensures var e := ActionEffect(sys, action);
      MaterialStep(sys.db, RequestOf(sys, action), action.Begin?, Was(sys, action), e.next, e.note)
  {
    hide Inv, StartEffect, CallEffect, StepEffect;
    match action
    case Do(call, now) => CallIsMaterialStep(sys.db, sys.nextRequest, call, now);
    case Begin(start, now) => StartIsMaterialStep(sys.db, sys.nextRequest, start, now);
    case Continue(r, requestId, now) =>
      if r in sys.requests {
        StepIsMaterialStep(sys.secureBoot, sys.db, r, sys.requests[r], requestId, now);
      }
    case Abandon(_) =>
  }
}
