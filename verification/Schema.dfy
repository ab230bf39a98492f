/** The statements that write rows, with the constraints of internal/store/schema.go. A statement that would break a
    primary key, a UNIQUE clause or partial index, a CHECK or a foreign key is refused as a storage failure. CHECK
    clauses over enumerations are the datatypes of Records, and UNIQUE columns that a table is keyed by are checked
    on insertion. */
module Schema {
  import opened Prelude
  import opened Lifecycle
  import opened Records

  function Guard(allowed: bool, next: Db): Result<Db> {
    if allowed then Ok(next) else Err(StorageFailure)
  }

  // --- partial unique indexes ---

  predicate HasArmed(db: Db, m: Id) {
    exists i | i in db.assignments :: db.assignments[i].machineId == m && db.assignments[i].state == Armed
  }

  predicate HasApproved(db: Db, m: Id) {
    exists f | f in db.keys :: db.keys[f].machineId == m && db.keys[f].state == KeyApproved
  }

  // --- inserts and updates ---

  function InsertMachine(db: Db, id: Id, row: Machine): Result<Db> {
    Guard(id !in db.machines, db.(machines := db.machines[id := row]))
  }

  /** INSERT ... ON CONFLICT(kind,value) DO UPDATE: an identifier that is already attached stays where it is. */
  function UpsertIdentifier(db: Db, identifier: Identifier, m: Id): Result<Db> {
    if identifier in db.identifiers then Ok(db)
    else Guard(m in db.machines, db.(identifiers := db.identifiers[identifier := m]))
  }

  function InsertSpec(db: Db, id: Id, row: Spec): Result<Db> {
    Guard(id !in db.specs && row.machineId in db.machines, db.(specs := db.specs[id := row]))
  }

  function InsertAssignment(db: Db, row: Assignment): Result<Db> {
    Guard(
      && (forall i | i in db.assignments :: db.assignments[i].id != row.id)
      && row.installationId !in db.assignments
      && row.machineId in db.machines && row.installationId in db.specs
      && (row.state == Armed ==> !HasArmed(db, row.machineId)),
      db.(assignments := db.assignments[row.installationId := row]))
  }

  /** UPDATE ... WHERE id=? AND state='armed', to a state outside the partial index. */
  function SettleAssignment(db: Db, i: Id, row: Assignment): Db
    requires i in db.assignments && row.state != Armed
  {
    db.(assignments := db.assignments[i := row])
  }

  function InsertKey(db: Db, f: Fingerprint, row: BootKey): Result<Db> {
    Guard(
      f !in db.keys && row.machineId in db.machines && (row.state == KeyApproved ==> !HasApproved(db, row.machineId)),
      db.(keys := db.keys[f := row]))
  }

  function UpdateKey(db: Db, f: Fingerprint, row: BootKey): Result<Db>
    requires f in db.keys
  {
    Guard(
      row.state == KeyApproved && db.keys[f].state != KeyApproved ==> !HasApproved(db, row.machineId),
      db.(keys := db.keys[f := row]))
  }

  function InsertChallenge(db: Db, row: Challenge): Result<Db> {
    Guard(
      && row.body.id !in db.challenges
      && row.body.installationId in db.specs && row.body.machineId in db.machines && row.body.fingerprint in db.keys,
      db.(challenges := db.challenges[row.body.id := row]))
  }

  function InsertCredential(db: Db, i: Id, row: Credential): Result<Db> {
    Guard(
      && (forall j | j in db.credentials :: db.credentials[j].id != row.id)
      && i !in db.credentials && i in db.specs,
      db.(credentials := db.credentials[i := row]))
  }

  function InsertEvent(db: Db, i: Id, row: Event): Result<Db> {
    Guard(
      i in db.specs && forall k | 0 <= k < |EventsOf(db, i)| :: EventsOf(db, i)[k].report.key != row.report.key,
      db.(events := db.events[i := EventsOf(db, i) + [row]]))
  }

  function InsertChunk(db: Db, i: Id, row: Chunk): Result<Db> {
    Guard(
      && i in db.specs && row.input.source != Server
      && forall k | 0 <= k < |ChunksOf(db, i)| ::
           ChunksOf(db, i)[k].input.key != row.input.key && ChunksOf(db, i)[k].input.sequence != row.input.sequence,
      db.(chunks := db.chunks[i := ChunksOf(db, i) + [row]]))
  }

  // --- deletes; ON DELETE RESTRICT refuses to remove a referenced row ---

  /** The tables that DeleteInstallation empties, in its order. */
  datatype Table = Challenges | LogChunks | LifecycleEvents | Credentials | Assignments

  const DEPENDENT_TABLES: seq<Table> := [Challenges, LogChunks, LifecycleEvents, Credentials, Assignments]

  function DeleteDependents(db: Db, t: Table, i: Id): Db {
    match t
    case Challenges =>
      db.(challenges := map c | c in db.challenges && db.challenges[c].body.installationId != i :: db.challenges[c])
    case LogChunks => db.(chunks := db.chunks - {i})
    case LifecycleEvents => db.(events := db.events - {i})
    case Credentials => db.(credentials := db.credentials - {i})
    case Assignments => db.(assignments := db.assignments - {i})
  }

  function DeleteSpec(db: Db, i: Id): Result<Db> {
    Guard(
      && i !in db.assignments && i !in db.credentials && i !in db.events && i !in db.chunks
      && forall c | c in db.challenges :: db.challenges[c].body.installationId != i,
      db.(specs := db.specs - {i}))
  }

  function DeleteKeysOf(db: Db, m: Id): Result<Db> {
    Guard(
      forall c | c in db.challenges ::
        var f := db.challenges[c].body.fingerprint; f in db.keys ==> db.keys[f].machineId != m,
      db.(keys := map f | f in db.keys && db.keys[f].machineId != m :: db.keys[f]))
  }

  /** DELETE FROM machines; identifiers cascade. */
  function DeleteMachineRow(db: Db, m: Id): Result<Db> {
    Guard(
      && (forall i | i in db.specs :: db.specs[i].machineId != m)
      && (forall i | i in db.assignments :: db.assignments[i].machineId != m)
      && (forall f | f in db.keys :: db.keys[f].machineId != m)
      && (forall c | c in db.challenges :: db.challenges[c].body.machineId != m),
      db.(machines := db.machines - {m},
          identifiers := map n | n in db.identifiers && db.identifiers[n] != m :: db.identifiers[n]))
  }
}
