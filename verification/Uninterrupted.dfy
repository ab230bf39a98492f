/** Requests whose steps follow each other with nothing in between: what they answer, exactly. */
module Uninterrupted {
  import opened Prelude
  import opened Text
  import opened Lifecycle
  import opened Records
  import opened Schema
  import opened Transactions
  import opened StoreInvariant
  import opened StoreSteps
  import opened TelemetrySteps
  import opened ControlPlane
  import opened StepsAreFaithful
  import opened Interleavings
  import opened Handoffs
  import opened BootGate
  import opened Writes
  import Canonical
  import Redaction

  // ---------------------------------------------------------------------------
  // Single steps
  // ---------------------------------------------------------------------------

  lemma {:induction false} RunMore(policy: SecureBootPolicy, actions: seq<Action>, action: Action)
    ensures Run(policy, actions + [action]) == Next(Run(policy, actions), action)
  {
    hide Run, Next;
    RunStep(policy, actions + [action]);
    assert (actions + [action])[..|actions|] == actions;
  }

  /** A request that is over does nothing more. */
  lemma {:induction false} OverIsOver(sys: Sys, r: nat, requestId: string, now: Instant)
    requires r !in sys.requests
    ensures Next(sys, Continue(r, requestId, now)) == sys
  {
    hide StepEffect;
    assert sys.requests - {r} == sys.requests;
  }

  lemma {:induction false} Moved(sys: Sys, r: nat, requestId: string, now: Instant)
    requires r in sys.requests
    ensures Next(sys, Continue(r, requestId, now))
      == Apply(sys, r, StepEffect(sys.secureBoot, sys.db, r, sys.requests[r], requestId, now))
  {
    hide StepEffect;
  }

  // ---------------------------------------------------------------------------
  // Boot material
  // ---------------------------------------------------------------------------

  lemma {:induction false} FetchBegins(sys: Sys, kind: Material, i: Id, now: Instant)
    ensures var r := sys.nextRequest;
      Next(sys, Begin(FetchMaterial(kind, i), now))
      == sys.(requests := if i in sys.db.specs then sys.requests[r := ReadingMachine(kind, i, sys.db.specs[i].machineId)]
                          else sys.requests - {r},
              nextRequest := r + 1, trace := sys.trace + [LoadBegan(r, i)])
  {
  }

  /** One step of a request at the gate. */
  lemma {:induction false} GateIsExact(sys: Sys, r: nat, requestId: string, now: Instant)
    requires Inv(sys.db) && r in sys.requests && sys.requests[r].ReadingAssignment?
    ensures var was := sys.requests[r];
      Next(sys, Continue(r, requestId, now))
      == if RowAllows(sys.secureBoot, was.row) && ArmedOn(sys.db, was.installation, was.machine)
         then sys.(requests := sys.requests[r := if was.kind.Preseed? then Consuming(was.installation)
                                                else Delivering(was.kind, was.installation)])
         else sys.(requests := sys.requests - {r})
  {
    hide Inv, StepEffect, RowAllows, ArmedOn;
    var was := sys.requests[r];
    GateAdmits(sys.secureBoot, sys.db, r, was.kind, was.installation, was.machine, was.row, requestId, now);
    Moved(sys, r, requestId, now);
  }

  lemma {:induction false} MachineIsRead(sys: Sys, r: nat, requestId: string, now: Instant)
    requires r in sys.requests && sys.requests[r].ReadingMachine?
    ensures var was := sys.requests[r];
      Next(sys, Continue(r, requestId, now))
      == if was.machine in sys.db.machines
         then sys.(requests := sys.requests[r := ReadingAssignment(was.kind, was.installation, was.machine,
                                                                   sys.db.machines[was.machine])])
         else sys.(requests := sys.requests - {r})
  {
    hide StepEffect;
    Moved(sys, r, requestId, now);
    ReadStep(sys.secureBoot, sys.db, r, sys.requests[r], requestId, now);
  }

  lemma {:induction false} Delivered(sys: Sys, r: nat, requestId: string, now: Instant)
    requires r in sys.requests && sys.requests[r].Delivering?
    ensures var was := sys.requests[r];
      Next(sys, Continue(r, requestId, now))
      == sys.(requests := sys.requests - {r}, trace := sys.trace + [Served(r, was.kind, was.installation)])
  {
    hide StepEffect;
    Moved(sys, r, requestId, now);
    ReadStep(sys.secureBoot, sys.db, r, sys.requests[r], requestId, now);
  }

  /** The handover of an armed installation stamps its row and notes it. */
  lemma {:induction false} HandedOver(sys: Sys, r: nat, requestId: string, now: Instant)
    requires Inv(sys.db) && r in sys.requests && sys.requests[r].Consuming?
    ensures var i, after := sys.requests[r].installation, Next(sys, Continue(r, requestId, now));
      if IsArmed(sys.db, i) then
        var row := sys.db.assignments[i].(state := Consumed, consumedAt := now);
        after == sys.(db := sys.db.(assignments := sys.db.assignments[i := row]),
                      requests := sys.requests[r := Delivering(Material.Preseed, i)],
                      trace := sys.trace + [ConsumedFor(row.machineId, i)])
      else after.db == sys.db && after.requests == sys.requests - {r} && after.trace == sys.trace
  {
    hide Inv, StepEffect;
    var i := sys.requests[r].installation;
    Moved(sys, r, requestId, now);
    ConsumptionIsExact(sys.secureBoot, sys.db, r, i, requestId, now);
  }

  lemma {:induction false} ConsumptionIsExact(
    policy: SecureBootPolicy, db: Db, r: nat, i: Id, requestId: string, now: Instant)
    requires Inv(db)
    ensures StepEffect(policy, db, r, Consuming(i), requestId, now)
      == if IsArmed(db, i) then
           var row := db.assignments[i].(state := Consumed, consumedAt := now);
           Effect(db.(assignments := db.assignments[i := row]), Some(Delivering(Material.Preseed, i)),
                  Some(ConsumedFor(row.machineId, i)))
         else Quiet(db)
  {
    hide Inv, Settle, Evolves;
    assert "system:pxe"[0] == 's';
    assert Trim("system:pxe") == "system:pxe";
    hide Trim;
    SettlingWrites(db, i, "system:pxe", now);
    SettleIsSound(db, i, "system:pxe", Consumed, now);
    if i in db.assignments {
      StoredIsBound(db, i);
    }
  }

  /** The state after some more steps of request `r`, at these times. */
  ghost function Onward(sys: Sys, r: nat, requestId: string, times: seq<Instant>): Sys
    decreases |times|
  {
    if times == [] then sys else Onward(Next(sys, Continue(r, requestId, times[0])), r, requestId, times[1..])
  }

  ghost function Continuing(r: nat, requestId: string, times: seq<Instant>): seq<Action> {
    seq(|times|, k requires 0 <= k < |times| => Continue(r, requestId, times[k]))
  }

  lemma {:induction false} RunOnward(
    policy: SecureBootPolicy, actions: seq<Action>, r: nat, requestId: string, times: seq<Instant>)
    ensures Run(policy, actions + Continuing(r, requestId, times)) == Onward(Run(policy, actions), r, requestId, times)
    decreases |times|
  {
    hide Run, Next;
    if times == [] {
      assert actions + Continuing(r, requestId, times) == actions;
    } else {
      var first := Continue(r, requestId, times[0]);
      assert actions + Continuing(r, requestId, times)
          == actions + [first] + Continuing(r, requestId, times[1..]);
      RunMore(policy, actions, first);
      RunOnward(policy, actions + [first], r, requestId, times[1..]);
    }
  }

  lemma {:induction false} StaysOver(sys: Sys, r: nat, requestId: string, times: seq<Instant>)
    requires r !in sys.requests
    ensures Onward(sys, r, requestId, times) == sys
    decreases |times|
  {
    hide Next;
    if times != [] {
      OverIsOver(sys, r, requestId, times[0]);
      StaysOver(sys, r, requestId, times[1..]);
    }
  }

  lemma {:induction false} DeliveredOnward(sys: Sys, r: nat, requestId: string, times: seq<Instant>)
    requires r in sys.requests && sys.requests[r].Delivering? && times != []
    ensures var was := sys.requests[r];
      Onward(sys, r, requestId, times)
      == sys.(requests := sys.requests - {r}, trace := sys.trace + [Served(r, was.kind, was.installation)])
  {
    hide Next;
    Delivered(sys, r, requestId, times[0]);
    StaysOver(Next(sys, Continue(r, requestId, times[0])), r, requestId, times[1..]);
  }

  /** The handover of an armed installation, with the preseed behind it. */
  lemma {:induction false} ConsumedOnward(sys: Sys, r: nat, requestId: string, times: seq<Instant>)
    requires Inv(sys.db) && r in sys.requests && sys.requests[r].Consuming? && |times| >= 2
    requires IsArmed(sys.db, sys.requests[r].installation)
    ensures var i := sys.requests[r].installation;
      var row := sys.db.assignments[i].(state := Consumed, consumedAt := times[0]);
      Onward(sys, r, requestId, times)
      == sys.(db := sys.db.(assignments := sys.db.assignments[i := row]), requests := sys.requests - {r},
              trace := sys.trace + [ConsumedFor(row.machineId, i), Served(r, Material.Preseed, i)])
  {
    hide Next, Inv;
    var i := sys.requests[r].installation;
    var next := Next(sys, Continue(r, requestId, times[0]));
    HandedOver(sys, r, requestId, times[0]);
    DeliveredOnward(next, r, requestId, times[1..]);
    var m := sys.db.assignments[i].machineId;
    assert sys.trace + [ConsumedFor(m, i)] + [Served(r, Material.Preseed, i)]
        == sys.trace + [ConsumedFor(m, i), Served(r, Material.Preseed, i)];
    assert next.requests - {r} == sys.requests - {r};
  }

  lemma {:induction false} GateOnward(sys: Sys, r: nat, requestId: string, times: seq<Instant>)
    requires Inv(sys.db) && r in sys.requests && sys.requests[r].ReadingAssignment? && |times| >= 3
    ensures var was, after := sys.requests[r], Onward(sys, r, requestId, times);
      && after.requests == sys.requests - {r}
      && if !(RowAllows(sys.secureBoot, was.row) && ArmedOn(sys.db, was.installation, was.machine)) then
           after.trace == sys.trace && after.db == sys.db
         else if was.kind.Preseed? then
           var i := was.installation;
           && after.trace == sys.trace + [ConsumedFor(was.machine, i), Served(r, was.kind, i)]
           && after.db == sys.db.(assignments :=
                sys.db.assignments[i := sys.db.assignments[i].(state := Consumed, consumedAt := times[1])])
         else after.trace == sys.trace + [Served(r, was.kind, was.installation)] && after.db == sys.db
  {
    hide Next, Inv, RowAllows;
    var was, next := sys.requests[r], Next(sys, Continue(r, requestId, times[0]));
    GateIsExact(sys, r, requestId, times[0]);
    if r !in next.requests {
      StaysOver(next, r, requestId, times[1..]);
    } else if was.kind.Preseed? {
      ConsumedOnward(next, r, requestId, times[1..]);
    } else {
      DeliveredOnward(next, r, requestId, times[1..]);
    }
    assert next.requests - {r} == sys.requests - {r};
  }

  /** A request for boot material that nothing interrupts is served exactly when the installation exists, its machine is
      released for provisioning with Secure Boot as required, and it is armed for that machine. Only the preseed hands
      the installation over. */
  lemma {:induction false} FetchIsExact(
    policy: SecureBootPolicy, actions: seq<Action>, kind: Material, i: Id, now: Instant, requestId: string,
    times: seq<Instant>)
    requires |times| >= 4
    ensures var before := Run(policy, actions);
      var r, db := before.nextRequest, before.db;
      var after := Run(policy, actions + [Begin(FetchMaterial(kind, i), now)] + Continuing(r, requestId, times));
      && r !in after.requests
      && if i in db.specs && Provisionable(policy, db, db.specs[i].machineId) && ArmedOn(db, i, db.specs[i].machineId) then
           if kind.Preseed? then
             && after.trace == before.trace
                + [LoadBegan(r, i), ConsumedFor(db.specs[i].machineId, i), Served(r, kind, i)]
             && after.db == db.(assignments :=
                  db.assignments[i := db.assignments[i].(state := Consumed, consumedAt := times[2])])
           else after.trace == before.trace + [LoadBegan(r, i), Served(r, kind, i)] && after.db == db
         else after.trace == before.trace + [LoadBegan(r, i)] && after.db == db
  {
    hide Run, Next, Inv, Prepared, ArmedOn;
    var before := Run(policy, actions);
    var r := before.nextRequest;
    RunIsValid(policy, actions);
    var begun := Next(before, Begin(FetchMaterial(kind, i), now));
    RunMore(policy, actions, Begin(FetchMaterial(kind, i), now));
    RunOnward(policy, actions + [Begin(FetchMaterial(kind, i), now)], r, requestId, times);
    FetchBegins(before, kind, i, now);
    if i in before.db.specs {
      var read := Next(begun, Continue(r, requestId, times[0]));
      MachineIsRead(begun, r, requestId, times[0]);
      if r in read.requests {
        GateOnward(read, r, requestId, times[1..]);
      } else {
        StaysOver(read, r, requestId, times[1..]);
      }
      FetchedTrace(before.trace, r, i, before.db.specs[i].machineId, kind);
    } else {
      StaysOver(begun, r, requestId, times);
    }
  }

  lemma {:induction false} FetchedTrace(trace: seq<Note>, r: nat, i: Id, m: Id, kind: Material)
    ensures trace + [LoadBegan(r, i)] + [ConsumedFor(m, i), Served(r, kind, i)]
      == trace + [LoadBegan(r, i), ConsumedFor(m, i), Served(r, kind, i)]
    ensures trace + [LoadBegan(r, i)] + [Served(r, kind, i)] == trace + [LoadBegan(r, i), Served(r, kind, i)]
  {
  }

  lemma {:induction false} PolicyChanges(sys: Sys, m: Id, policy: Policy, actor: string, now: Instant)
    requires m in sys.db.machines && Trim(actor) != ""
    ensures Next(sys, Do(PolicyCall(m, policy, actor), now)).db
      == sys.db.(machines := sys.db.machines[m := sys.db.machines[m].(policy := policy)])
    ensures Next(sys, Do(PolicyCall(m, policy, actor), now)).requests == sys.requests - {sys.nextRequest}
    ensures Next(sys, Do(PolicyCall(m, policy, actor), now)).secureBoot == sys.secureBoot
  {
    hide SetPolicy, Trim;
    PolicyIsSet(sys.db, m, policy, actor);
  }

  /** The gate looks at two states: a machine that is blocked after a request has read it and before the request reads the
      assignment is still served, the preseed included. */
  lemma {:induction false} BlockedInBetweenIsServed(
    policy: SecureBootPolicy, actions: seq<Action>, kind: Material, i: Id, actor: string, now: Instant, t: Instant,
    u: Instant, requestId: string, times: seq<Instant>)
    requires |times| >= 3 && Trim(actor) != ""
    requires var db := Run(policy, actions).db;
      i in db.specs && Provisionable(policy, db, db.specs[i].machineId) && ArmedOn(db, i, db.specs[i].machineId)
    ensures var r, m := Run(policy, actions).nextRequest, Run(policy, actions).db.specs[i].machineId;
      var steps := [Begin(FetchMaterial(kind, i), now), Continue(r, requestId, t), Do(PolicyCall(m, Blocked, actor), u)];
      var blocked, after := Run(policy, actions + steps), Run(policy, actions + steps + Continuing(r, requestId, times));
      && m in blocked.db.machines && blocked.db.machines[m].policy == Blocked
      && |after.trace| > |blocked.trace| && after.trace[|after.trace| - 1] == Served(r, kind, i)
  {
    hide Run, Next, Inv, Prepared, ArmedOn, Trim;
    var before := Run(policy, actions);
    var r, m := before.nextRequest, before.db.specs[i].machineId;
    var begin, read, block := Begin(FetchMaterial(kind, i), now), Continue(r, requestId, t), Do(PolicyCall(m, Blocked, actor), u);
    assert actions + [begin] + [read] + [block] == actions + [begin, read, block];
    RunMore(policy, actions, begin);
    RunMore(policy, actions + [begin], read);
    RunMore(policy, actions + [begin] + [read], block);
    RunKeepsInv(policy, actions + [begin, read, block]);
    RunIsValid(policy, actions);
    FetchBegins(before, kind, i, now);
    MachineIsRead(Next(before, begin), r, requestId, t);
    var found := Next(Next(before, begin), read);
    PolicyChanges(found, m, Blocked, actor, u);
    StillArmed(found.db, Next(found, block).db, i, m);
    RunOnward(policy, actions + [begin, read, block], r, requestId, times);
    GateOnward(Next(found, block), r, requestId, times);
  }

  lemma {:induction false} StillArmed(a: Db, b: Db, i: Id, m: Id)
    requires ArmedOn(a, i, m) && b.specs == a.specs && b.assignments == a.assignments
    ensures ArmedOn(b, i, m)
  {
  }

  // ---------------------------------------------------------------------------
  // Booting machines
  // ---------------------------------------------------------------------------

  /** The boot of a machine is noted exactly when the observation is accepted; the machine is looked at further exactly
      when it is released for provisioning. */
  lemma {:induction false} BootBegins(sys: Sys, obs: Observation, now: Instant)
    requires Inv(sys.db)
    ensures var r, tx, after := sys.nextRequest, Discover(sys.db, obs, now), Next(sys, Begin(PxeBoot(obs), now));
      && after.db == tx.db && after.secureBoot == sys.secureBoot
      && if tx.result.Err? then after.trace == sys.trace && r !in after.requests
         else
           var m := tx.result.value.0;
           && obs.identifiers.Some? && after.trace == sys.trace + [Observed(m, obs.identifiers.value)]
           && m in after.db.machines
           && after.requests == (if after.db.machines[m].policy == Provision
                                 then sys.requests[r := ReadingActive(m, after.db.machines[m])] else sys.requests - {r})
  {
    hide Inv, Discover, Evolves, Accepts;
    AcceptedIsThere(sys.db, obs, now);
  }

  lemma {:induction false} AcceptedIsThere(db: Db, obs: Observation, now: Instant)
    requires Inv(db)
    ensures var tx := Discover(db, obs, now);
      && tx.result != Err(StorageFailure)
      && (tx.result.Ok? ==> obs.identifiers.Some? && tx.result.value.0 in tx.db.machines)
  {
    hide Discover;
    DiscoverAccepts(db, obs, now);
  }

  lemma {:induction false} ActiveIsRead(sys: Sys, r: nat, requestId: string, now: Instant)
    requires Inv(sys.db) && r in sys.requests && sys.requests[r].ReadingActive?
    ensures var was, after := sys.requests[r], Next(sys, Continue(r, requestId, now));
      && after.db == sys.db && after.trace == sys.trace && after.secureBoot == sys.secureBoot
      && (r in after.requests <==>
            && (exists i :: ArmedOn(sys.db, i, was.machine))
            && (sys.secureBoot == PolicyRequired ==> was.row.secureBoot == Enabled))
      && (r in after.requests ==>
            && after.requests[r].ReadingSpec? && after.requests[r].machine == was.machine
            && var active := after.requests[r].active;
              ArmedOn(sys.db, active.installationId, was.machine) && active == sys.db.assignments[active.installationId])
  {
    hide Inv, StepEffect, ActiveFor, ArmedOn;
    var was := sys.requests[r];
    Moved(sys, r, requestId, now);
    ActiveIsArmed(sys.db, was.machine);
    ActiveStep(sys.secureBoot, sys.db, r, was.machine, was.row, requestId, now);
  }

  lemma {:induction false} ActiveStep(
    policy: SecureBootPolicy, db: Db, r: nat, m: Id, row: Machine, requestId: string, now: Instant)
    ensures StepEffect(policy, db, r, ReadingActive(m, row), requestId, now)
      == Effect(db, if ActiveFor(db, m).Some? && (policy == PolicyRequired ==> row.secureBoot == Enabled)
                    then Some(ReadingSpec(m, row, ActiveFor(db, m).value)) else None, None)
  {
    hide ActiveFor;
  }

  lemma {:induction false} SpecIsRead(sys: Sys, r: nat, requestId: string, now: Instant)
    requires r in sys.requests && sys.requests[r].ReadingSpec?
    requires var was := sys.requests[r];
      ArmedOn(sys.db, was.active.installationId, was.machine) && was.active == sys.db.assignments[was.active.installationId]
    ensures var after := Next(sys, Continue(r, requestId, now));
      && after.db == sys.db && after.trace == sys.trace
      && after.requests == sys.requests[r := CheckingIn(sys.requests[r].active.installationId)]
  {
    Moved(sys, r, requestId, now);
  }

  lemma {:induction false} OneArmed(db: Db, i: Id, j: Id, m: Id)
    requires Inv(db) && ArmedOn(db, i, m) && ArmedOn(db, j, m)
    ensures i == j
  {
    hide Histories, TrustSound, ChallengesSound, KeysSound, Logs, SpecsOwned, IdentifiersAttached, IdsDrawn;
    hide AssignmentFits;
    assert i == j || Apart(db.assignments[i], db.assignments[j]);
  }

  lemma {:induction false} OnwardTwice(sys: Sys, r: nat, requestId: string, t: Instant, t': Instant)
    ensures Onward(sys, r, requestId, [t, t'])
      == Next(Next(sys, Continue(r, requestId, t)), Continue(r, requestId, t'))
  {
    hide Next;
    var next := Next(sys, Continue(r, requestId, t));
    assert [t, t'][1..] == [t'];
    assert Onward(next, r, requestId, [t']) == Onward(Next(next, Continue(r, requestId, t')), r, requestId, []);
  }

  lemma {:induction false} BootOnward(sys: Sys, r: nat, requestId: string, t: Instant, t': Instant, i: Id)
    requires Inv(sys.db) && r in sys.requests && sys.requests[r].ReadingActive?
    ensures var was, after := sys.requests[r], Onward(sys, r, requestId, [t, t']);
      && after.db == sys.db && after.trace == sys.trace
      && (r in after.requests && after.requests[r] == CheckingIn(i) <==>
            ArmedOn(sys.db, i, was.machine) && (sys.secureBoot == PolicyRequired ==> was.row.secureBoot == Enabled))
  {
    hide Next, Inv, ArmedOn;
    var was, read := sys.requests[r], Next(sys, Continue(r, requestId, t));
    ActiveIsRead(sys, r, requestId, t);
    OnwardTwice(sys, r, requestId, t, t');
    if r in read.requests {
      var j := read.requests[r].active.installationId;
      SpecIsRead(read, r, requestId, t');
      if ArmedOn(sys.db, i, was.machine) {
        OneArmed(sys.db, i, j, was.machine);
      }
    } else {
      OverIsOver(read, r, requestId, t');
    }
  }

  /** A booting machine that nothing interrupts comes to check in for an installation exactly when its observation is
      accepted for a machine that is then released for provisioning with Secure Boot as required, and the installation is
      armed for it. */
  lemma {:induction false} BootIsExact(
    policy: SecureBootPolicy, actions: seq<Action>, obs: Observation, now: Instant, requestId: string, t: Instant,
    t': Instant, i: Id)
    ensures var before := Run(policy, actions);
      var found := Run(policy, actions + [Begin(PxeBoot(obs), now)]);
      var r, after := before.nextRequest,
                      Run(policy, actions + [Begin(PxeBoot(obs), now)] + Continuing(before.nextRequest, requestId, [t, t']));
      && after.db == found.db && after.trace == found.trace
      && (r in after.requests && after.requests[r] == CheckingIn(i) <==>
            exists m, ids ::
              && obs.identifiers == Some(ids) && found.trace == before.trace + [Observed(m, ids)]
              && Provisionable(policy, found.db, m) && ArmedOn(found.db, i, m))
  {
    hide Run, Next, Inv, Prepared, ArmedOn, Discover;
    var before := Run(policy, actions);
    var r, begin := before.nextRequest, Begin(PxeBoot(obs), now);
    var found := Next(before, begin);
    RunIsValid(policy, actions);
    RunMore(policy, actions, begin);
    RunKeepsInv(policy, actions + [begin]);
    RunOnward(policy, actions + [begin], r, requestId, [t, t']);
    BootBegins(before, obs, now);
    if r in found.requests {
      BootOnward(found, r, requestId, t, t', i);
    } else {
      StaysOver(found, r, requestId, [t, t']);
    }
    if Discover(before.db, obs, now).result.Ok? {
      ObservedOnce(before.trace, found.trace, Discover(before.db, obs, now).result.value.0, obs.identifiers.value);
    }
  }

  lemma {:induction false} ObservedOnce(trace: seq<Note>, longer: seq<Note>, m: Id, ids: seq<Identifier>)
    requires longer == trace + [Observed(m, ids)]
    ensures forall n, others :: longer == trace + [Observed(n, others)] ==> n == m && others == ids
  {
    forall n, others | longer == trace + [Observed(n, others)] ensures n == m && others == ids {
      assert longer[|trace|] == Observed(n, others) && longer[|trace|] == Observed(m, ids);
    }
  }

  // ---------------------------------------------------------------------------
  // Telemetry
  // ---------------------------------------------------------------------------

  lemma {:induction false} PostBegins(sys: Sys, i: Id, proof: Proof, job: Job, now: Instant)
    requires Inv(sys.db)
    ensures var r, after := sys.nextRequest, Next(sys, Begin(PostTelemetry(i, proof, job), now));
      && after.db == sys.db && after.trace == sys.trace
      && if Opens(sys.db, i, proof, now) then
           r in after.requests && after.requests[r].Touching?
           && after.requests[r].installation == i && after.requests[r].job == job
         else r !in after.requests
  {
    hide Inv, Authenticated, Opens;
    ProofOpens(sys.db, i, proof, now);
  }

  lemma {:induction false} PostTouches(sys: Sys, r: nat, requestId: string, now: Instant)
    requires r in sys.requests && sys.requests[r].Touching?
    ensures var was, after := sys.requests[r], Next(sys, Continue(r, requestId, now));
      && after.db == sys.db.(credentials := after.db.credentials) && after.trace == sys.trace
      && after.db == Touched(sys.db, was.touch, now)
      && r in after.requests
      && after.requests[r] == match was.job
                              case EventJob(report) => AppendingEvent(was.installation, report)
                              case LogJob(chunk) => AppendingLog(was.installation, chunk)
  {
    hide StepEffect;
    Moved(sys, r, requestId, now);
    TouchStep(sys.secureBoot, sys.db, r, sys.requests[r], requestId, now);
  }

  lemma {:induction false} TouchStep(
    policy: SecureBootPolicy, db: Db, r: nat, request: Request, requestId: string, now: Instant)
    requires request.Touching?
    ensures StepEffect(policy, db, r, request, requestId, now)
      == Effect(Touched(db, request.touch, now),
                Some(match request.job
                     case EventJob(report) => AppendingEvent(request.installation, report)
                     case LogJob(chunk) => AppendingLog(request.installation, chunk)), None)
  {
    hide TouchedRows;
  }

  lemma {:induction false} PostAppends(sys: Sys, r: nat, requestId: string, now: Instant)
    requires r in sys.requests && (sys.requests[r].AppendingEvent? || sys.requests[r].AppendingLog?)
    ensures var was, after := sys.requests[r], Next(sys, Continue(r, requestId, now));
      && r !in after.requests
      && after.db == match was
                     case AppendingEvent(i, report) => AppendEvent(sys.db, i, report, requestId, now).db
                     case AppendingLog(i, chunk) => AppendChunk(sys.db, i, chunk, requestId, now).db
  {
    hide AppendEvent, AppendChunk;
  }

  /** A post that nothing interrupts is let in exactly by the secret, or by a signature of the last or next 300 seconds,
      for a credential that is neither revoked nor expired. A new event is appended exactly when the report is valid, its
      key is unused and its stage is next. */
  lemma {:induction false} PostedEventIsExact(
    policy: SecureBootPolicy, actions: seq<Action>, i: Id, proof: Proof, report: Report, now: Instant, requestId: string,
    t: Instant, t': Instant)
    ensures var db := Run(policy, actions).db;
      var post := Begin(PostTelemetry(i, proof, EventJob(report)), now);
      var after := Run(policy, actions + [post] + Continuing(Run(policy, actions).nextRequest, requestId, [t, t'])).db;
      var accepted := && Opens(db, i, proof, now) && ValidReport(report) && CanAdvance(CurrentStage(db, i), report.stage)
                      && forall e | e in EventsOf(db, i) :: e.report.key != report.key;
      && EventsOf(after, i) == EventsOf(db, i) + (if accepted then [Event(report, t', requestId)] else [])
      && (forall j | j != i :: EventsOf(after, j) == EventsOf(db, j))
      && (!Opens(db, i, proof, now) ==> after == db)
  {
    hide Run, Next, Inv, Prepared, Opens, Touched, AppendEvent, ValidReport, CanAdvance;
    var before := Run(policy, actions);
    var r, post := before.nextRequest, Begin(PostTelemetry(i, proof, EventJob(report)), now);
    var begun := Next(before, post);
    RunIsValid(policy, actions);
    RunMore(policy, actions, post);
    RunOnward(policy, actions + [post], r, requestId, [t, t']);
    PostBegins(before, i, proof, EventJob(report), now);
    if r in begun.requests {
      var noted := Next(begun, Continue(r, requestId, t));
      OnwardTwice(begun, r, requestId, t, t');
      PostTouches(begun, r, requestId, t);
      PostAppends(noted, r, requestId, t');
      TouchedKeepsInv(before.db, begun.requests[r].touch, t);
      LiveIsInstalled(before.db, i, proof, now);
      AppendedEvents(noted.db, i, report, requestId, t');
    } else {
      StaysOver(begun, r, requestId, [t, t']);
    }
  }

  lemma {:induction false} TouchedKeepsInv(db: Db, touch: Touch, now: Instant)
    requires Inv(db)
    ensures Inv(Touched(db, touch, now))
  {
    hide Inv, Touched, Evolves;
    TouchedStep(db, touch, now);
  }

  lemma {:induction false} LiveIsInstalled(db: Db, i: Id, proof: Proof, now: Instant)
    requires Inv(db) && Opens(db, i, proof, now)
    ensures i in db.specs && i in db.events
  {
    hide Histories, AssignmentsSound, ChallengesSound, KeysSound, Logs, SpecsOwned, IdentifiersAttached, IdsDrawn;
    hide UsedFor, Answers, CredentialFits, Canonical.Telemetry;
    assert i in db.specs;
    hide TrustSound;
    InstalledHasEvents(db, i);
  }

  lemma {:induction false} InstalledHasEvents(db: Db, i: Id)
    requires Inv(db) && i in db.specs
    ensures i in db.events
  {
    HistoriesHold(db);
    hide Inv, History, Coupled;
  }

  lemma {:induction false} AppendedEvents(db: Db, i: Id, report: Report, requestId: string, now: Instant)
    requires Inv(db) && i in db.specs
    ensures var after := AppendEvent(db, i, report, requestId, now).db;
      var accepted := && ValidReport(report) && CanAdvance(CurrentStage(db, i), report.stage)
                      && forall e | e in EventsOf(db, i) :: e.report.key != report.key;
      && EventsOf(after, i) == EventsOf(db, i) + (if accepted then [Event(report, now, requestId)] else [])
      && forall j | j != i :: EventsOf(after, j) == EventsOf(db, j)
  {
    hide Inv, AppendEvent, ValidReport, CanAdvance, CurrentStage, Terminal;
    InstalledHasEvents(db, i);
    EventWrites(db, i, report, requestId, now);
    assert db.events[i] == EventsOf(db, i) && EventsOf(db, i) + [] == EventsOf(db, i);
  }

  lemma {:induction false} AppendedChunks(db: Db, i: Id, raw: ChunkInput, requestId: string, now: Instant)
    requires Inv(db) && i in db.specs
    ensures var after, input, chunks := AppendChunk(db, i, raw, requestId, now).db, RedactedInput(raw), ChunksOf(db, i);
      var accepted := && ValidChunk(input) && input.sequence == |chunks| + 1
                      && TotalBytes(chunks) + |input.content| <= 16_777_216
                      && forall c | c in chunks :: c.input.key != input.key;
      && ChunksOf(after, i) == chunks + (if accepted then [Chunk(input, now, requestId)] else [])
      && forall j | j != i :: ChunksOf(after, j) == ChunksOf(db, j)
  {
    hide Inv, AppendChunk, ValidChunk, RedactedInput, TotalBytes;
    ChunkWrites(db, i, raw, requestId, now);
    RedactionKeepsFields(raw);
    assert ChunksOf(db, i) + [] == ChunksOf(db, i);
  }

  lemma {:induction false} RedactionKeepsFields(raw: ChunkInput)
    ensures RedactedInput(raw).sequence == raw.sequence && RedactedInput(raw).key == raw.key
  {
    hide Redaction.Redact;
  }

  /** The same for a chunk of the log: redacted, it is appended exactly when it is valid, its key is unused, it is the next
      in number and fits what is left of 16 MiB. */
  lemma {:induction false} PostedChunkIsExact(
    policy: SecureBootPolicy, actions: seq<Action>, i: Id, proof: Proof, raw: ChunkInput, now: Instant, requestId: string,
    t: Instant, t': Instant)
    ensures var db := Run(policy, actions).db;
      var post := Begin(PostTelemetry(i, proof, LogJob(raw)), now);
      var after := Run(policy, actions + [post] + Continuing(Run(policy, actions).nextRequest, requestId, [t, t'])).db;
      var input, chunks := RedactedInput(raw), ChunksOf(db, i);
      var accepted := && Opens(db, i, proof, now) && ValidChunk(input) && input.sequence == |chunks| + 1
                      && TotalBytes(chunks) + |input.content| <= 16_777_216
                      && forall c | c in chunks :: c.input.key != input.key;
      && ChunksOf(after, i) == chunks + (if accepted then [Chunk(input, t', requestId)] else [])
      && (forall j | j != i :: ChunksOf(after, j) == ChunksOf(db, j))
      && (!Opens(db, i, proof, now) ==> after == db)
  {
    hide Run, Next, Inv, Prepared, Opens, Touched, AppendChunk, ValidChunk, RedactedInput, TotalBytes;
    var before := Run(policy, actions);
    var r, post := before.nextRequest, Begin(PostTelemetry(i, proof, LogJob(raw)), now);
    var begun := Next(before, post);
    RunIsValid(policy, actions);
    RunMore(policy, actions, post);
    RunOnward(policy, actions + [post], r, requestId, [t, t']);
    PostBegins(before, i, proof, LogJob(raw), now);
    if r in begun.requests {
      var noted := Next(begun, Continue(r, requestId, t));
      OnwardTwice(begun, r, requestId, t, t');
      PostTouches(begun, r, requestId, t);
      PostAppends(noted, r, requestId, t');
      TouchedKeepsInv(before.db, begun.requests[r].touch, t);
      LiveIsInstalled(before.db, i, proof, now);
      AppendedChunks(noted.db, i, raw, requestId, t');
    } else {
      StaysOver(begun, r, requestId, [t, t']);
    }
  }

  // ---------------------------------------------------------------------------
  // New installations
  // ---------------------------------------------------------------------------

  /** A submission that nothing interrupts adds the installation under the next number, at CREATED, exactly when its fields
      are valid and its machine exists. */
  lemma {:induction false} SubmissionIsExact(
    policy: SecureBootPolicy, actions: seq<Action>, input: SpecInput, now: Instant, requestId: string, t: Instant)
    ensures var db := Run(policy, actions).db;
      var steps := [Begin(CreateSpec(input), now), Continue(Run(policy, actions).nextRequest, requestId, t)];
      var after := Run(policy, actions + steps).db;
      if Trim(input.credentialId) != "" && |input.credentialId| <= 128 && Trim(input.createdBy) != ""
         && |input.createdBy| <= 128 && input.wellFormed && input.machineId in db.machines
      then
        var report := Report(Created, Server, 0, "server:created:" + Decimal(db.nextId), CREATED_MESSAGE, "", map[]);
        after == db.(nextId := db.nextId + 1,
                     specs := db.specs[db.nextId := Spec(input.machineId, input.credentialId, t, input.createdBy)],
                     events := db.events[db.nextId := [Event(report, t, requestId)]])
      else after == db
  {
    hide Run, Next, Inv, Prepared, Trim, CreateSpecInsert;
    var before := Run(policy, actions);
    var r, begin := before.nextRequest, Begin(CreateSpec(input), now);
    RunIsValid(policy, actions);
    RunMore(policy, actions, begin);
    RunMore(policy, actions + [begin], Continue(r, requestId, t));
    assert actions + [begin] + [Continue(r, requestId, t)] == actions + [begin, Continue(r, requestId, t)];
    var begun := Next(before, begin);
    SubmissionBegins(before, input, now);
    LookupIsExact(before.db, input);
    if r in begun.requests {
      SubmissionInserts(begun, r, requestId, t);
      InstallationWrites(before.db, input, requestId, t);
    } else {
      OverIsOver(begun, r, requestId, t);
    }
  }

  lemma {:induction false} SubmissionBegins(sys: Sys, input: SpecInput, now: Instant)
    ensures var r, after := sys.nextRequest, Next(sys, Begin(CreateSpec(input), now));
      && after.db == sys.db
      && (r in after.requests <==> CreateSpecLookup(sys.db, input).Ok?)
      && (r in after.requests ==> after.requests[r] == InsertingSpec(input))
  {
    hide CreateSpecLookup;
  }

  lemma {:induction false} SubmissionInserts(sys: Sys, r: nat, requestId: string, now: Instant)
    requires r in sys.requests && sys.requests[r].InsertingSpec?
    ensures Next(sys, Continue(r, requestId, now)).db == CreateSpecInsert(sys.db, sys.requests[r].input, requestId, now).db
  {
    hide CreateSpecInsert;
  }
}
