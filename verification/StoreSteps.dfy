/** Every store transaction keeps the invariant, only moves forward, and is refused by the schema in the named cases
    only. */
module StoreSteps {
  import opened Prelude
  import opened Text
  import opened Lifecycle
  import opened Records
  import opened Schema
  import opened Transactions
  import opened StoreInvariant
  import Canonical
  import Redaction

  /** A transaction from a valid state commits a valid later state. */
  ghost predicate Sound<T>(db: Db, tx: Tx<T>) {
    Inv(tx.db) && Evolves(db, tx.db)
  }

  /** No row of the tables other than machines and identifiers differs. */
  ghost predicate SameRest(a: Db, b: Db) {
    && a.specs == b.specs && a.assignments == b.assignments && a.challenges == b.challenges
    && a.credentials == b.credentials && a.events == b.events && a.chunks == b.chunks
  }

  // ---------------------------------------------------------------------------
  // Machines
  // ---------------------------------------------------------------------------

  /** The loop of upserts attaches exactly the identifiers that belonged to no machine. */
  lemma {:induction false} AttachAllAttaches(db: Db, ids: seq<Identifier>, m: Id)
    requires m in db.machines
    ensures AttachAll(Ok(db), ids, m) == Ok(db.(identifiers := Attached(db.identifiers, ids, m)))
    decreases |ids|
  {
    if ids == [] {
      assert Attached(db.identifiers, ids, m) == db.identifiers;
    } else {
      var front, last := ids[..|ids| - 1], ids[|ids| - 1];
      AttachAllAttaches(db, front, m);
      assert ids == front + [last];
      AttachedOne(db.identifiers, front, last, m);
    }
  }

  lemma {:induction false} AttachedOne(
    identifiers: map<Identifier, Id>, front: seq<Identifier>, last: Identifier, m: Id)
    ensures Attached(identifiers, front + [last], m)
      == (var before := Attached(identifiers, front, m); if last in before then before else before[last := m])
  {
    var all := front + [last];
    assert all[|front|] == last;
    assert forall k | 0 <= k < |front| :: all[k] == front[k];
    assert (set k | 0 <= k < |all| :: all[k]) == (set k | 0 <= k < |front| :: front[k]) + {last};
  }

  ghost predicate MachinesGrow(a: Db, b: Db) {
    && SameRest(a, b) && a.keys == b.keys
    && a.nextId <= b.nextId
    && (forall m | m in b.machines :: (m in a.machines || a.nextId <= m) && m < b.nextId)
    && (forall m | m in a.machines :: m in b.machines)
    && (forall n | n in b.identifiers :: b.identifiers[n] in b.machines)
    && (forall n | n in a.identifiers :: n in b.identifiers && b.identifiers[n] == a.identifiers[n])
  }

  lemma {:induction false} MachinesKeep(a: Db, b: Db)
    requires Inv(a) && MachinesGrow(a, b)
    ensures Inv(b)
  {
    assert IdsDrawn(b.nextId, b.machines.Keys, b.specs.Keys, b.challenges.Keys, b.assignments);
    assert KeysSound(b.keys, b.machines.Keys);
    assert SpecsOwned(b.specs, b.machines.Keys);
  }

  lemma {:induction false} MachinesEvolveOnly(a: Db, b: Db)
    requires MachinesGrow(a, b)
    ensures Evolves(a, b)
  {
  }

  /** The observation passes the checks that come before the identifiers are looked up. */
  predicate Observable(obs: Observation) {
    && |Trim(obs.architecture)| <= 64 && |Trim(obs.firmware)| <= 64
    && obs.secureBoot.Some? && obs.identifiers.Some?
  }

  /** The identifiers of an observation that was accepted. */
  ghost function Seen(obs: Observation): seq<Identifier> {
    if obs.identifiers.Some? then obs.identifiers.value else []
  }

  lemma {:induction false} TheOnlyMatch(db: Db, ids: seq<Identifier>, m: Id, k: nat)
    requires |Matches(db, ids)| <= 1 && m in Matches(db, ids)
    requires k < |ids| && ids[k] in db.identifiers
    ensures db.identifiers[ids[k]] == m
  {
    assert db.identifiers[ids[k]] in Matches(db, ids);
    var rest := Matches(db, ids) - {m};
    assert |rest| == 0;
    assert db.identifiers[ids[k]] !in rest;
  }

  /** An accepted observation names one machine: the one that every known identifier in it already belongs to, or a
      new one when none is known. All its identifiers belong to that machine afterwards, and nothing else moves. */
  ghost predicate Accepts(a: Db, ids: seq<Identifier>, m: Id, created: bool, b: Db) {
    && (forall k | 0 <= k < |ids| && ids[k] in a.identifiers :: a.identifiers[ids[k]] == m)
    && created == (Matches(a, ids) == {})
    && (if created then m == a.nextId && b.nextId == m + 1 else m in a.machines && b.nextId == a.nextId)
    && m in b.machines && b.machines == a.machines[m := b.machines[m]]
    && b.machines[m].policy == (if m in a.machines then a.machines[m].policy else Pending)
    && b.identifiers == Attached(a.identifiers, ids, m)
    && SameRest(a, b) && a.keys == b.keys
  }

  lemma {:induction false} AcceptsNew(a: Db, ids: seq<Identifier>, row: Machine)
    requires Matches(a, ids) == {} && a.nextId !in a.machines && row.policy == Pending
    ensures var r := AttachAll(InsertMachine(a.(nextId := a.nextId + 1), a.nextId, row), ids, a.nextId);
      r.Ok? && Accepts(a, ids, a.nextId, true, r.value)
  {
    AttachAllAttaches(a.(nextId := a.nextId + 1, machines := a.machines[a.nextId := row]), ids, a.nextId);
    assert forall k :: 0 <= k < |ids| && ids[k] in a.identifiers ==> a.identifiers[ids[k]] in Matches(a, ids);
  }

  lemma {:induction false} AcceptsKnown(a: Db, ids: seq<Identifier>, m: Id, row: Machine)
    requires |Matches(a, ids)| <= 1 && m in Matches(a, ids) && m in a.machines && row.policy == a.machines[m].policy
    ensures var r := AttachAll(Ok(a.(machines := a.machines[m := row])), ids, m);
      r.Ok? && Accepts(a, ids, m, false, r.value)
  {
    AttachAllAttaches(a.(machines := a.machines[m := row]), ids, m);
    forall k | 0 <= k < |ids| && ids[k] in a.identifiers ensures a.identifiers[ids[k]] == m {
      TheOnlyMatch(a, ids, m, k);
    }
  }

  lemma {:induction false} MatchesAreMachines(a: Db, ids: seq<Identifier>)
    requires IdentifiersAttached(a.identifiers, a.machines.Keys)
    ensures Matches(a, ids) <= a.machines.Keys
  {
  }

  /** The new value, unless it is blank. */
  function Unless(value: string, known: string): string {
    if Trim(value) == "" then known else Trim(value)
  }

  /** The row of a machine after an observation of it: everything observed replaces what was known, a blank architecture
      or firmware excepted; what an operator decided stays. */
  ghost predicate SeenAs(before: Db, m: Id, obs: Observation, now: Instant, row: Machine) {
    && obs.secureBoot == Some(row.secureBoot) && row.lastSeen == now
    && (m in before.machines ==>
          var was := before.machines[m];
          && row.policy == was.policy && row.firstSeen == was.firstSeen
          && row.architecture == Unless(obs.architecture, was.architecture)
          && row.firmware == Unless(obs.firmware, was.firmware))
    && (m !in before.machines ==>
          && row.policy == Pending && row.firstSeen == now
          && row.architecture == Trim(obs.architecture) && row.firmware == Trim(obs.firmware))
  }

  lemma {:induction false} AttachingKeepsMachines(db: Result<Db>, ids: seq<Identifier>, m: Id)
    requires db.Ok?
    ensures AttachAll(db, ids, m).Ok? ==> AttachAll(db, ids, m).value.machines == db.value.machines
    decreases |ids|
  {
    if ids != [] {
      AttachingKeepsMachines(db, ids[..|ids| - 1], m);
    }
  }

  /** The row of the machine in the answer is written, and no other. */
  ghost predicate RowWritten(before: Db, obs: Observation, now: Instant, tx: Tx<(Id, bool)>) {
    tx.result.Ok? ==>
      var m := tx.result.value.0;
      && m in tx.db.machines && tx.db.machines == before.machines[m := tx.db.machines[m]]
      && SeenAs(before, m, obs, now, tx.db.machines[m])
      && (tx.result.value.1 <==> m !in before.machines)
  }

  lemma {:induction false} NewRowWritten(db: Db, obs: Observation, now: Instant)
    requires db.nextId !in db.machines && obs.secureBoot.Some? && obs.identifiers.Some?
    ensures RowWritten(db, obs, now, RecordNew(db, obs, now))
  {
    hide AttachAll, SeenAs, NewMachine;
    var row := NewMachine(obs, now);
    AttachingKeepsMachines(
      InsertMachine(db.(nextId := db.nextId + 1), db.nextId, row), obs.identifiers.value, db.nextId);
    NewIsSeen(db, db.nextId, obs, now);
  }

  lemma {:induction false} KnownRowWritten(db: Db, m: Id, obs: Observation, now: Instant)
    requires obs.secureBoot.Some? && obs.identifiers.Some?
    ensures RowWritten(db, obs, now, RecordSeen(db, obs, m, now))
  {
    hide AttachAll, SeenAs, SeenAgain;
    if m in db.machines {
      var row := SeenAgain(db.machines[m], obs, now);
      AttachingKeepsMachines(Ok(db.(machines := db.machines[m := row])), obs.identifiers.value, m);
      KnownIsSeen(db, m, obs, now);
    }
  }

  /** An accepted observation writes one row, of the machine that it answers with. */
  lemma {:induction false} DiscoveryWrites(db: Db, obs: Observation, now: Instant)
    requires db.nextId !in db.machines && Discover(db, obs, now).result.Ok?
    ensures var tx, m := Discover(db, obs, now), Discover(db, obs, now).result.value.0;
      && m in tx.db.machines && tx.db.machines == db.machines[m := tx.db.machines[m]]
      && SeenAs(db, m, obs, now, tx.db.machines[m])
      && (tx.result.value.1 <==> m !in db.machines)
  {
    hide Trim, Matches, RecordNew, RecordSeen, SeenAs;
    var ids := obs.identifiers.value;
    if Matches(db, ids) == {} {
      NewRowWritten(db, obs, now);
    } else {
      KnownRowWritten(db, OneOf(Matches(db, ids)), obs, now);
    }
  }

  lemma {:induction false} NewIsSeen(db: Db, m: Id, obs: Observation, now: Instant)
    requires m !in db.machines && obs.secureBoot.Some?
    ensures SeenAs(db, m, obs, now, NewMachine(obs, now))
  {
    hide Trim;
  }

  lemma {:induction false} KnownIsSeen(db: Db, m: Id, obs: Observation, now: Instant)
    requires m in db.machines && obs.secureBoot.Some?
    ensures SeenAs(db, m, obs, now, SeenAgain(db.machines[m], obs, now))
  {
    hide Trim;
  }

  /** An observation is accepted exactly when it is well formed and its identifiers know at most one machine; then it
      attaches them and writes the row of that machine. */
  lemma {:induction false} DiscoverAccepts(db: Db, obs: Observation, now: Instant)
    requires IdentifiersAttached(db.identifiers, db.machines.Keys) && db.nextId !in db.machines
    ensures var tx := Discover(db, obs, now);
      match tx.result
      case Ok((m, created)) =>
        obs.identifiers.Some? && Accepts(db, Seen(obs), m, created, tx.db) && SeenAs(db, m, obs, now, tx.db.machines[m])
      case Err(fault) => tx.db == db && fault != StorageFailure
    ensures Discover(db, obs, now).result.Ok? <==> Observable(obs) && |Matches(db, Seen(obs))| <= 1
  {
    hide Accepts, SeenAs, AttachAll, Trim, Matches, IdentifiersAttached;
    if Discover(db, obs, now).result.Ok? {
      DiscoveryWrites(db, obs, now);
    }
    if obs.identifiers.Some? && obs.secureBoot.Some? {
      var ids, matches := obs.identifiers.value, Matches(db, obs.identifiers.value);
      MatchesAreMachines(db, ids);
      if matches == {} {
        AcceptsNew(db, ids, NewMachine(obs, now));
      } else if |matches| <= 1 {
        var m := OneOf(matches);
        AcceptsKnown(db, ids, m, SeenAgain(db.machines[m], obs, now));
      }
    }
  }

  lemma {:induction false} AcceptsGrows(a: Db, ids: seq<Identifier>, m: Id, created: bool, b: Db)
    requires IdsDrawn(a.nextId, a.machines.Keys, a.specs.Keys, a.challenges.Keys, a.assignments)
    requires IdentifiersAttached(a.identifiers, a.machines.Keys)
    requires Accepts(a, ids, m, created, b)
    ensures MachinesGrow(a, b)
  {
  }

  lemma {:induction false} MachinesStep(a: Db, b: Db)
    requires Inv(a) && MachinesGrow(a, b)
    ensures Inv(b) && Evolves(a, b)
  {
    MachinesKeep(a, b);
    MachinesEvolveOnly(a, b);
  }

  lemma {:induction false} DiscoverIsSound(db: Db, obs: Observation, now: Instant)
    requires Inv(db)
    ensures Sound(db, Discover(db, obs, now))
    ensures Discover(db, obs, now).result != Err(StorageFailure)
  {
    DiscoverAccepts(db, obs, now);
    var tx := Discover(db, obs, now);
    match tx.result
    case Ok((m, created)) =>
      AcceptsGrows(db, Seen(obs), m, created, tx.db);
      MachinesStep(db, tx.db);
    case Err(_) =>
      EvolvesStays(db);
  }

  lemma {:induction false} PolicyGrows(db: Db, m: Id, row: Machine)
    requires Inv(db) && m in db.machines
    ensures MachinesGrow(db, db.(machines := db.machines[m := row]))
  {
  }

  lemma {:induction false} SetPolicyIsSound(db: Db, m: Id, policy: Policy, actor: string)
    requires Inv(db)
    ensures Sound(db, SetPolicy(db, m, policy, actor))
    ensures SetPolicy(db, m, policy, actor).result != Err(StorageFailure)
  {
    if m in db.machines && !Blank(actor) {
      PolicyGrows(db, m, db.machines[m].(policy := policy));
      MachinesStep(db, SetPolicy(db, m, policy, actor).db);
    } else {
      EvolvesStays(db);
    }
  }

  // ---------------------------------------------------------------------------
  // Installations
  // ---------------------------------------------------------------------------

  /** A new installation with the CREATED event it comes with. */
  ghost function WithSpec(db: Db, row: Spec, created: Event): Db {
    var i := db.nextId;
    db.(nextId := i + 1, specs := db.specs[i := row], events := db.events[i := [created]])
  }

  lemma {:induction false} CreateSpecCommits(db: Db, input: SpecInput, requestId: string, now: Instant)
    requires db.nextId !in db.specs && db.nextId !in db.events
    ensures var tx := CreateSpecInsert(db, input, requestId, now);
      if input.machineId in db.machines then
        tx == Tx(WithSpec(db, Spec(input.machineId, input.credentialId, now, input.createdBy),
                          Event(ServerReport(Created, CreatedKey(db.nextId), CREATED_MESSAGE), now, requestId)), Ok(db.nextId))
      else tx == Tx(db, Err(StorageFailure))
  {
    var i, row := db.nextId, Spec(input.machineId, input.credentialId, now, input.createdBy);
    FirstEvent(db.(nextId := i + 1, specs := db.specs[i := row]), i, requestId, now);
  }

  lemma {:induction false} FirstEvent(db: Db, i: Id, requestId: string, at: Time)
    requires i in db.specs && i !in db.events
    ensures var report := ServerReport(Created, CreatedKey(i), CREATED_MESSAGE);
      AppendServerEvent(db, i, report, requestId, at) == Ok(db.(events := db.events[i := [Event(report, at, requestId)]]))
  {
    var created := Event(ServerReport(Created, CreatedKey(i), CREATED_MESSAGE), at, requestId);
    assert EventsOf(db, i) + [created] == [created];
  }

  lemma {:induction false} SpecHistory(
    events: map<Id, seq<Event>>, specs: set<Id>, withAssignment: set<Id>, credentials: map<Id, Credential>, i: Id, created: Event)
    requires Histories(events, specs, withAssignment, credentials) && i !in specs
    requires created.report == ServerReport(Created, CreatedKey(i), CREATED_MESSAGE)
    ensures Histories(events[i := [created]], specs + {i}, withAssignment, credentials)
  {
    assert History(i, [created]);
    assert Coupled(i, [created], withAssignment, credentials);
    var after := events[i := [created]];
    assert after.Keys == specs + {i};
    forall j | j in after ensures History(j, after[j]) && Coupled(j, after[j], withAssignment, credentials) {
      assert j != i ==> j in events && after[j] == events[j];
    }
  }

  lemma {:induction false} SpecKeeps(db: Db, row: Spec, created: Event)
    requires Inv(db) && row.machineId in db.machines
    requires created.report == ServerReport(Created, CreatedKey(db.nextId), CREATED_MESSAGE)
    ensures Inv(WithSpec(db, row, created))
  {
    hide Histories, TrustSound, AssignmentsSound, ChallengesSound, KeysSound, Logs;
    var i, specs := db.nextId, db.specs[db.nextId := row];
    assert specs.Keys == db.specs.Keys + {i};
    SpecHistory(db.events, db.specs.Keys, db.assignments.Keys, db.credentials, i, created);
    SpecTables(db, row);
    SameSpecsAssignments(db.assignments, db.specs, specs);
    SameSpecsTrust(db, specs);
  }

  lemma {:induction false} SpecTables(db: Db, row: Spec)
    requires IdsDrawn(db.nextId, db.machines.Keys, db.specs.Keys, db.challenges.Keys, db.assignments)
    requires SpecsOwned(db.specs, db.machines.Keys) && Logs(db.chunks, db.specs.Keys)
    requires row.machineId in db.machines
    ensures var i, specs := db.nextId, db.specs[db.nextId := row];
      && IdsDrawn(i + 1, db.machines.Keys, specs.Keys, db.challenges.Keys, db.assignments)
      && SpecsOwned(specs, db.machines.Keys)
      && Logs(db.chunks, specs.Keys)
  {
  }

  lemma {:induction false} SameSpecsAssignments(
    assignments: map<Id, Assignment>, before: map<Id, Spec>, after: map<Id, Spec>)
    requires AssignmentsSound(assignments, before) && forall j | j in before :: j in after && after[j] == before[j]
    ensures AssignmentsSound(assignments, after)
  {
  }

  lemma {:induction false} SameSpecsTrust(db: Db, specs: map<Id, Spec>)
    requires TrustSound(db.challenges, db.credentials, db.assignments.Keys, db.specs)
    requires ChallengesSound(db.challenges, db.specs, db.keys)
    requires forall j | j in db.specs :: j in specs && specs[j] == db.specs[j]
    ensures TrustSound(db.challenges, db.credentials, db.assignments.Keys, specs)
    ensures ChallengesSound(db.challenges, specs, db.keys)
  {
  }

  lemma {:induction false} SpecEvolves(db: Db, row: Spec, created: Event)
    requires db.nextId !in db.specs && db.nextId !in db.events
    ensures Evolves(db, WithSpec(db, row, created))
  {
  }

  /** The insert of a new installation is refused by the schema exactly when its machine was deleted since the lookup.
      */
  lemma {:induction false} CreateSpecIsSound(db: Db, input: SpecInput, requestId: string, now: Instant)
    requires Inv(db)
    ensures Sound(db, CreateSpecInsert(db, input, requestId, now))
    ensures CreateSpecInsert(db, input, requestId, now).result == Err(StorageFailure) <==> input.machineId !in db.machines
  {
    CreateSpecCommits(db, input, requestId, now);
    if input.machineId in db.machines {
      var row := Spec(input.machineId, input.credentialId, now, input.createdBy);
      var created := Event(ServerReport(Created, CreatedKey(db.nextId), CREATED_MESSAGE), now, requestId);
      SpecKeeps(db, row, created);
      SpecEvolves(db, row, created);
    } else {
      EvolvesStays(db);
    }
  }

  /** Between the lookup and the transaction other requests may do anything. The insert is refused if and only if one of
      them has deleted the machine, and otherwise adds one installation that never existed before, with its first event
      and no assignment or credential. */
  lemma {:induction false} LookedUpSpecIsInserted(a: Db, b: Db, input: SpecInput, requestId: string, now: Instant)
    requires Inv(a) && Inv(b) && Evolves(a, b) && CreateSpecLookup(a, input).Ok?
    ensures var tx := CreateSpecInsert(b, input, requestId, now);
      && (tx.result.Err? <==> input.machineId in a.machines && input.machineId !in b.machines)
      && (tx.result.Err? ==> tx == Tx(b, Err(StorageFailure)))
      && (tx.result.Ok? ==>
            var i := tx.result.value;
            && i >= a.nextId && i !in a.specs + b.specs && i !in tx.db.assignments && i !in tx.db.credentials
            && tx.db.specs == b.specs[i := Spec(input.machineId, input.credentialId, now, input.createdBy)]
            && StagesOf(EventsOf(tx.db, i)) == [Created] && CurrentStage(tx.db, i) == Some(Created)
            && forall j | j != i :: EventsOf(tx.db, j) == EventsOf(b, j))
  {
    hide Inv, Evolves, CreateSpecInsert, WithSpec;
    LookupFound(a, b, input);
    FreshInstallation(b);
    CreateSpecCommits(b, input, requestId, now);
    if input.machineId in b.machines {
      InsertedSpec(b, Spec(input.machineId, input.credentialId, now, input.createdBy),
                   Event(ServerReport(Created, CreatedKey(b.nextId), CREATED_MESSAGE), now, requestId));
      NotThereBefore(a, b);
    }
  }

  lemma {:induction false} LookupFound(a: Db, b: Db, input: SpecInput)
    requires CreateSpecLookup(a, input).Ok? && Evolves(a, b)
    ensures input.machineId in a.machines && a.nextId <= b.nextId
  {
    hide ValidInput, MachinesEvolve, KeysEvolve, SpecsEvolve, TelemetryEvolves, TrustEvolves;
  }

  lemma {:induction false} FreshInstallation(db: Db)
    requires Inv(db)
    ensures var i := db.nextId; i !in db.specs && i !in db.events && i !in db.assignments && i !in db.credentials
  {
    hide ChallengesSound, KeysSound, Logs, SpecsOwned, IdentifiersAttached, History, Coupled, UsedFor, Answers;
    hide CredentialFits;
    hide AssignmentFits, Apart;
  }

  lemma {:induction false} NotThereBefore(a: Db, b: Db)
    requires Inv(a) && Evolves(a, b)
    ensures b.nextId !in a.specs
  {
    hide MachinesEvolve, KeysEvolve, SpecsEvolve, TelemetryEvolves, TrustEvolves, ChallengesSound, KeysSound, Logs;
    hide TrustSound;
    hide SpecsOwned, IdentifiersAttached, Histories, AssignmentsSound;
  }

  lemma {:induction false} InsertedSpec(db: Db, row: Spec, created: Event)
    requires created.report.stage == Created
    ensures var b, i := WithSpec(db, row, created), db.nextId;
      && b.specs == db.specs[i := row] && b.assignments == db.assignments && b.credentials == db.credentials
      && StagesOf(EventsOf(b, i)) == [Created] && CurrentStage(b, i) == Some(Created)
      && forall j | j != i :: EventsOf(b, j) == EventsOf(db, j)
  {
  }

  // ---------------------------------------------------------------------------
  // Lifecycle events
  // ---------------------------------------------------------------------------

  ghost function Last(events: seq<Event>): Stage
    requires events != []
  {
    events[|events| - 1].report.stage
  }

  ghost predicate Follows(events: seq<Event>, e: Event) {
    && events != []
    && CanAdvance(Some(Last(events)), e.report.stage)
    && SourceAllowed(e.report.stage, e.report.source)
    && forall k | 0 <= k < |events| :: events[k].report.key != e.report.key
  }

  lemma {:induction false} HistoryGrows(i: Id, events: seq<Event>, e: Event)
    requires events != [] && History(i, events) && Follows(events, e)
    ensures History(i, events + [e])
  {
    assert StagesOf(events + [e]) == StagesOf(events) + [e.report.stage];
  }

  lemma {:induction false} HistoriesGrow(
    events: map<Id, seq<Event>>, specs: set<Id>, withAssignment: set<Id>, credentials: map<Id, Credential>,
    i: Id, e: Event, withAssignment': set<Id>, credentials': map<Id, Credential>)
    requires Histories(events, specs, withAssignment, credentials) && i in events && Follows(events[i], e)
    requires withAssignment <= withAssignment' && i in withAssignment'
    requires forall j | j in credentials :: j in credentials' && (credentials[j].revokedAt != 0 ==> credentials'[j].revokedAt != 0)
    requires Rank(e.report.stage) > Rank(PxeBooted) ==> i in credentials'
    requires Terminal(e.report.stage) ==> i in credentials' && credentials'[i].revokedAt != 0
    ensures Histories(events[i := events[i] + [e]], specs, withAssignment', credentials')
  {
    HistoryGrows(i, events[i], e);
    var after := events[i := events[i] + [e]];
    assert after.Keys == specs;
    forall j | j in after ensures History(j, after[j]) && Coupled(j, after[j], withAssignment', credentials') {
      if j != i {
        assert j in events && after[j] == events[j] && Coupled(j, events[j], withAssignment, credentials);
      }
    }
  }

  // ---------------------------------------------------------------------------
  // Assignments
  // ---------------------------------------------------------------------------

  ghost function WithArmed(db: Db, row: Assignment, queued: Event): Db {
    db.(nextId := db.nextId + 1, assignments := db.assignments[row.installationId := row],
        events := db.events[row.installationId := EventsOf(db, row.installationId) + [queued]])
  }

  ghost predicate ArmAllowed(db: Db, m: Id, i: Id, actor: string) {
    && !Blank(actor) && m in db.machines && db.machines[m].policy == Provision
    && i in db.specs && db.specs[i].machineId == m && i !in db.assignments && !HasArmed(db, m)
  }

  ghost function ArmedRow(db: Db, m: Id, i: Id, actor: string, now: Instant): Assignment {
    Assignment(db.nextId, m, i, Armed, now, Trim(actor), 0, 0)
  }

  ghost function QueuedEvent(i: Id, requestId: string, now: Instant): Event {
    Event(ServerReport(Queued, QueuedKey(i), QUEUED_MESSAGE), now, requestId)
  }

  lemma {:induction false} CreatedIsNotQueued(i: Id)
    ensures CreatedKey(i) != QueuedKey(i)
  {
    assert CreatedKey(i)[7] == 'c' && QueuedKey(i)[7] == 'q';
  }

  /** An installation without an assignment is still at CREATED, so the QUEUED event that arming appends is accepted. */
  lemma {:induction false} UnassignedIsCreated(db: Db, i: Id)
    requires Histories(db.events, db.specs.Keys, db.assignments.Keys, db.credentials)
    requires i in db.specs && i !in db.assignments
    ensures i in db.events && |db.events[i]| == 1
    ensures db.events[i][0].report.stage == Created && db.events[i][0].report.key == CreatedKey(i)
  {
    assert i in db.events;
    assert Coupled(i, db.events[i], db.assignments.Keys, db.credentials);
    assert StagesOf(db.events[i])[0] == Created;
  }

  lemma {:induction false} QueuedFollows(i: Id, events: seq<Event>, requestId: string, now: Instant)
    requires |events| == 1 && events[0].report.stage == Created && events[0].report.key == CreatedKey(i)
    ensures Follows(events, QueuedEvent(i, requestId, now)) && FindEvent(events, QueuedKey(i)).None?
  {
    CreatedIsNotQueued(i);
  }

  lemma {:induction false} ServerAppends(db: Db, i: Id, report: Report, requestId: string, at: Time)
    requires i in db.specs && i in db.events && report.source == Server
    requires FindEvent(db.events[i], report.key).None? && Follows(db.events[i], Event(report, at, requestId))
    ensures AppendServerEvent(db, i, report, requestId, at)
      == Ok(db.(events := db.events[i := db.events[i] + [Event(report, at, requestId)]]))
  {
  }

  lemma {:induction false} ArmCommits(db: Db, m: Id, i: Id, requestId: string, actor: string, now: Instant)
    requires forall j | j in db.assignments :: db.assignments[j].id < db.nextId
    requires ArmAllowed(db, m, i, actor)
    requires i in db.events && FindEvent(db.events[i], QueuedKey(i)).None?
    requires Follows(db.events[i], QueuedEvent(i, requestId, now))
    ensures Arm(db, m, i, requestId, actor, now)
      == Tx(WithArmed(db, ArmedRow(db, m, i, actor, now), QueuedEvent(i, requestId, now)), Ok(ArmedRow(db, m, i, actor, now)))
  {
    hide Follows, FindEvent, AppendServerEvent, QueuedKey, HasArmed, Trim, Blank;
    var row := ArmedRow(db, m, i, actor, now);
    ArmInserts(db, row);
    ServerAppends(
      db.(nextId := db.nextId + 1, assignments := db.assignments[i := row]), i,
      ServerReport(Queued, QueuedKey(i), QUEUED_MESSAGE), requestId, now);
  }

  lemma {:induction false} ArmInserts(db: Db, row: Assignment)
    requires forall j | j in db.assignments :: db.assignments[j].id < db.nextId
    requires row.id == db.nextId && !HasArmed(db, row.machineId)
    requires row.installationId in db.specs && row.installationId !in db.assignments && row.machineId in db.machines
    ensures InsertAssignment(db.(nextId := db.nextId + 1), row)
      == Ok(db.(nextId := db.nextId + 1, assignments := db.assignments[row.installationId := row]))
  {
    assert !HasArmed(db.(nextId := db.nextId + 1), row.machineId);
  }

  lemma {:induction false} AssignmentAdded(
    assignments: map<Id, Assignment>, specs: map<Id, Spec>, i: Id, row: Assignment)
    requires AssignmentsSound(assignments, specs)
    requires i in specs && AssignmentFits(row, i, specs[i])
    requires forall j | j in assignments && j != i :: Apart(row, assignments[j])
    ensures AssignmentsSound(assignments[i := row], specs)
  {
    hide AssignmentFits;
  }

  lemma {:induction false} AssignmentTrust(db: Db, i: Id)
    requires TrustSound(db.challenges, db.credentials, db.assignments.Keys, db.specs)
    ensures TrustSound(db.challenges, db.credentials, db.assignments.Keys + {i}, db.specs)
  {
    hide UsedFor, Answers, CredentialFits;
  }

  lemma {:induction false} ArmedApart(db: Db, row: Assignment)
    requires forall i | i in db.assignments :: db.assignments[i].id < db.nextId
    requires row.id == db.nextId && !HasArmed(db, row.machineId)
    ensures forall j | j in db.assignments :: Apart(row, db.assignments[j])
  {
  }

  lemma {:induction false} ArmedTables(db: Db, row: Assignment, queued: Event)
    requires AssignmentsSound(db.assignments, db.specs)
    requires IdsDrawn(db.nextId, db.machines.Keys, db.specs.Keys, db.challenges.Keys, db.assignments)
    requires ArmFits(db, row, queued)
    ensures var assignments := db.assignments[row.installationId := row];
      && AssignmentsSound(assignments, db.specs)
      && IdsDrawn(db.nextId + 1, db.machines.Keys, db.specs.Keys, db.challenges.Keys, assignments)
  {
    hide AssignmentsSound, HasArmed, Apart, ValidAssignment, Follows;
    ArmedApart(db, row);
    AssignmentAdded(db.assignments, db.specs, row.installationId, row);
  }

  ghost predicate ArmFits(db: Db, row: Assignment, queued: Event) {
    && row.id == db.nextId && row.state == Armed && ValidAssignment(row)
    && row.installationId in db.specs && db.specs[row.installationId].machineId == row.machineId
    && row.installationId !in db.assignments && !HasArmed(db, row.machineId)
    && row.installationId in db.events && queued.report.stage == Queued && Follows(db.events[row.installationId], queued)
  }

  lemma {:induction false} ArmKeeps(db: Db, row: Assignment, queued: Event)
    requires Inv(db) && ArmFits(db, row, queued)
    ensures Inv(WithArmed(db, row, queued))
  {
    hide Histories, TrustSound, AssignmentsSound, ChallengesSound, KeysSound, Logs, Follows, IdsDrawn, HasArmed;
    hide SpecsOwned;
    hide ValidAssignment, IdentifiersAttached;
    ArmedTables(db, row, queued);
    var i, assignments := row.installationId, db.assignments[row.installationId := row];
    AssignmentTrust(db, i);
    assert assignments.Keys == db.assignments.Keys + {i};
    HistoriesGrow(db.events, db.specs.Keys, db.assignments.Keys, db.credentials, i, queued, assignments.Keys, db.credentials);
  }

  lemma {:induction false} ArmEvolves(db: Db, row: Assignment, queued: Event)
    requires ArmFits(db, row, queued)
    ensures Evolves(db, WithArmed(db, row, queued))
  {
    hide HasArmed, Follows, ValidAssignment;
  }

  lemma {:induction false} ArmArms(db: Db, row: Assignment, queued: Event)
    requires row.installationId !in db.assignments && row.state == Armed
    ensures forall m :: HasArmed(WithArmed(db, row, queued), m) <==> HasArmed(db, m) || m == row.machineId
  {
    var b := WithArmed(db, row, queued);
    assert row.installationId in b.assignments;
    assert forall i | i in db.assignments :: i in b.assignments && b.assignments[i] == db.assignments[i];
  }

  lemma {:induction false} ArmableFits(db: Db, m: Id, i: Id, requestId: string, actor: string, now: Instant)
    requires Inv(db) && ArmAllowed(db, m, i, actor)
    ensures ArmFits(db, ArmedRow(db, m, i, actor, now), QueuedEvent(i, requestId, now))
    ensures FindEvent(db.events[i], QueuedKey(i)).None?
    ensures forall j | j in db.assignments :: db.assignments[j].id < db.nextId
  {
    hide Histories, TrustSound, AssignmentsSound, ChallengesSound, KeysSound, Logs, Follows, HasArmed, SpecsOwned;
    hide FindEvent, Trim, QueuedKey;
    UnassignedIsCreated(db, i);
    QueuedFollows(i, db.events[i], requestId, now);
    TrimNotBlank(actor);
  }

  /** Arming is never refused by the schema: neither the partial index nor the QUEUED event stands in its way. */
  lemma {:induction false} ArmIsSound(db: Db, m: Id, i: Id, requestId: string, actor: string, now: Instant)
    requires Inv(db)
    ensures var tx := Arm(db, m, i, requestId, actor, now);
      && Sound(db, tx)
      && tx.result != Err(StorageFailure)
      && (tx.result.Ok? <==> ArmAllowed(db, m, i, actor))
      && (tx.result.Ok? ==> !HasArmed(db, m) && forall n :: HasArmed(tx.db, n) <==> HasArmed(db, n) || n == m)
      && (tx.result.Err? ==> tx.db == db)
  {
    hide Inv, Follows, HasArmed, FindEvent, Trim, QueuedKey, ArmFits, Arm, Evolves;
    if ArmAllowed(db, m, i, actor) {
      ArmableFits(db, m, i, requestId, actor, now);
      ArmedFollows(db, m, i, requestId, actor, now);
      ArmCommits(db, m, i, requestId, actor, now);
      ArmKeeps(db, ArmedRow(db, m, i, actor, now), QueuedEvent(i, requestId, now));
      ArmEvolves(db, ArmedRow(db, m, i, actor, now), QueuedEvent(i, requestId, now));
      ArmArms(db, ArmedRow(db, m, i, actor, now), QueuedEvent(i, requestId, now));
    } else {
      ArmRefused(db, m, i, requestId, actor, now);
      EvolvesStays(db);
    }
  }

  lemma {:induction false} ArmRefused(db: Db, m: Id, i: Id, requestId: string, actor: string, now: Instant)
    requires !ArmAllowed(db, m, i, actor)
    ensures var tx := Arm(db, m, i, requestId, actor, now); tx.db == db && tx.result.Err? && tx.result != Err(StorageFailure)
  {
    hide HasArmed, Trim, Blank, InsertAssignment, AppendServerEvent;
  }

  lemma {:induction false} ArmedFollows(db: Db, m: Id, i: Id, requestId: string, actor: string, now: Instant)
    requires ArmFits(db, ArmedRow(db, m, i, actor, now), QueuedEvent(i, requestId, now))
    ensures i in db.events && Follows(db.events[i], QueuedEvent(i, requestId, now))
  {
  }

  lemma {:induction false} TrimNotBlank(s: string)
    requires !Blank(s)
    ensures !Blank(Trim(s))
  {
    TrimIdempotent(s);
  }

  ghost predicate SettleFits(db: Db, i: Id, row: Assignment) {
    && i in db.assignments && db.assignments[i].state == Armed
    && Settles(db.assignments[i], row) && row.state != Armed && ValidAssignment(row)
  }

  lemma {:induction false} SettledTables(db: Db, i: Id, row: Assignment)
    requires AssignmentsSound(db.assignments, db.specs) && SettleFits(db, i, row)
    requires IdsDrawn(db.nextId, db.machines.Keys, db.specs.Keys, db.challenges.Keys, db.assignments)
    ensures var assignments := db.assignments[i := row];
      && AssignmentsSound(assignments, db.specs)
      && IdsDrawn(db.nextId, db.machines.Keys, db.specs.Keys, db.challenges.Keys, assignments)
      && assignments.Keys == db.assignments.Keys
  {
    hide ValidAssignment;
    StoredAssignmentFits(db, i);
    assert forall j | j in db.assignments && j != i :: Apart(db.assignments[i], db.assignments[j]);
    hide AssignmentsSound;
    AssignmentAdded(db.assignments, db.specs, i, row);
  }

  lemma {:induction false} SettleKeeps(db: Db, i: Id, row: Assignment)
    requires Inv(db) && SettleFits(db, i, row)
    ensures Inv(SettleAssignment(db, i, row))
  {
    hide Histories, TrustSound, AssignmentsSound, ChallengesSound, KeysSound, Logs, IdsDrawn, SpecsOwned;
    hide IdentifiersAttached;
    hide ValidAssignment;
    SettledTables(db, i, row);
  }

  lemma {:induction false} SettleEvolves(db: Db, i: Id, row: Assignment)
    requires SettleFits(db, i, row)
    ensures Evolves(db, SettleAssignment(db, i, row))
  {
  }

  /** Exactly the machine of the installation has no armed assignment any more. */
  ghost predicate SettledBy(a: Db, i: Id, row: Assignment, b: Db) {
    && i in a.assignments && row.state != Armed && b == SettleAssignment(a, i, row)
    && i in a.specs && row.machineId == a.specs[i].machineId && row.installationId == i
    && HasArmed(a, row.machineId)
    && forall m :: HasArmed(b, m) <==> HasArmed(a, m) && m != row.machineId
  }

  lemma {:induction false} SettledArmed(db: Db, i: Id, row: Assignment)
    requires AssignmentsSound(db.assignments, db.specs) && SettleFits(db, i, row)
    ensures SettledBy(db, i, row, SettleAssignment(db, i, row))
  {
    hide ValidAssignment;
    StoredAssignmentFits(db, i);
    var b := SettleAssignment(db, i, row);
    forall m ensures HasArmed(b, m) <==> HasArmed(db, m) && m != row.machineId {
      if j :| j in b.assignments && b.assignments[j].machineId == m && b.assignments[j].state == Armed {
        assert j != i && j in db.assignments && Apart(db.assignments[i], db.assignments[j]);
      }
      if m != row.machineId {
        if j :| j in db.assignments && db.assignments[j].machineId == m && db.assignments[j].state == Armed {
          assert j in b.assignments && b.assignments[j] == db.assignments[j];
        }
      }
    }
  }

  lemma {:induction false} StoredAssignmentFits(db: Db, i: Id)
    requires AssignmentsSound(db.assignments, db.specs) && i in db.assignments
    ensures i in db.specs && AssignmentFits(db.assignments[i], i, db.specs[i])
  {
  }

  lemma {:induction false} SettleCommits(db: Db, i: Id, actor: string, outcome: AssignmentState, now: Instant)
    requires i in db.assignments ==> ValidAssignment(db.assignments[i])
    ensures var tx := Settle(db, i, actor, outcome, now);
      if !Blank(actor) && i in db.assignments && db.assignments[i].state == Armed then
        var row := Settled(db.assignments[i], outcome, now);
        tx == Tx(SettleAssignment(db, i, row), Ok(row)) && SettleFits(db, i, row)
      else tx.db == db && tx.result.Err? && tx.result != Err(StorageFailure)
  {
  }

  /** Cancelling and consuming succeed exactly on the armed assignment of the installation, and end the machine's
      claim. */
  lemma {:induction false} SettleIsSound(db: Db, i: Id, actor: string, outcome: AssignmentState, now: Instant)
    requires Inv(db)
    ensures var tx := Settle(db, i, actor, outcome, now);
      && Sound(db, tx)
      && tx.result != Err(StorageFailure)
      && (tx.result.Ok? <==> !Blank(actor) && i in db.assignments && db.assignments[i].state == Armed)
      && (tx.result.Ok? ==> SettledBy(db, i, tx.result.value, tx.db))
      && (tx.result.Ok? ==> tx.result.value == Settled(db.assignments[i], outcome, now))
      && (tx.result.Err? ==> tx.db == db)
  {
    hide Histories, TrustSound, AssignmentsSound, ChallengesSound, KeysSound, Logs, IdsDrawn, SpecsOwned;
    hide IdentifiersAttached, Evolves;
    hide Settle, SettledBy, SettleFits, ValidAssignment;
    if i in db.assignments {
      StoredAssignmentFits(db, i);
    }
    SettleCommits(db, i, actor, outcome, now);
    if !Blank(actor) && i in db.assignments && db.assignments[i].state == Armed {
      var row := Settled(db.assignments[i], outcome, now);
      SettleKeeps(db, i, row);
      SettleEvolves(db, i, row);
      SettledArmed(db, i, row);
    }
    EvolvesStays(db);
  }
}
