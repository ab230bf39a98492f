# AegisPXE control plane: model and proofs

This project models the provisioning control plane of AegisPXE and the protocols and algorithms around it, and proves
what holds over every run of it. `dafny verify dfyconfig.toml` checks everything.

**The store.** Machines, their identifiers, installation specs, assignments, boot-trust keys, challenges, lifecycle
credentials, lifecycle events and log chunks are tables. `Schema` holds the statements that write them, each with the
primary keys, UNIQUE clauses, partial unique indexes and foreign keys of the schema: a statement that would break one is
refused as a storage failure. `Transactions` says what each transaction commits and answers. `Store` is the class whose
methods update the tables in place, one method per public method of the program, and every method is proved equal to
its transaction. `StoreInvariant` couples the tables; `StoreSteps`, `TelemetrySteps` and `TrustSteps` prove that every
transaction keeps the invariant, only moves forward (`Evolves`), and when exactly it succeeds. `Writes` adds what each one
writes, field by field and in numbers, and that it touches nothing else.

**The control plane.** HTTP handlers are not atomic, so `ControlPlane` models them as programs with a program counter:
authenticate, note the use, append; look up, insert; read spec, machine and assignment, then consume, then deliver;
discover, read the assignment, read the spec, check in. A run is any sequence of steps of any requests in flight, with
requests given up at any point. `Run(policy, actions)` is the state after such a sequence, and the theorems of
`Interleavings`, `Handoffs`, `BootMaterial`, `BootGate`, `MachineIdentity`, `TrustRuns`, `Provenance`, `Posts`, `Grants` and
`LifecycleRuns` are about every one. What the outside can observe is a trace of notes, and `StepsAreFaithful` ties each note
to what its step did to the store. `BootGate` says what a request that is served, or checks in, has found on its way, and in
which states. `Provenance`, `Posts` and `Grants` trace the rows of every table back to the actions that wrote them:
who was let in, who approved, armed, cancelled or proved what, and in which state. `Uninterrupted` says what a request
answers when nothing comes between its steps.

**The reporter.** `LogUpload`, `EventQueue` and `Evidence` model the reporter's state files and queue file against that
store, over a network that loses, repeats and reorders, with a process that may be interrupted between any two writes, or
die; a request is authenticated first and appended later, and by then the credential may be revoked. `LogStops` and
`QueueStops` decide, in every reachable state, whether anything can still be uploaded or taken off the queue. `LogReads`
and `Json` hold what that takes for the log: what the next read of a growing log redacts to, and how much room it needs in a
request. `Reach` holds what it takes for the queue: which stages an installation can still get to. `ReporterWitness` is a
store in which a reporter starts, and `QueueRuns` has runs from there.

**Algorithms.** The log ring buffer, the rate limiters, shell quoting, the rendered preseed and late command with the files
that the shell writes when it runs it, percent encoding, the signed canonical encodings, log redaction, the Debian release
and checksum parsers with the artifact resolver and the driver's check of what it returns, and operator accounts.

Hashes, ciphertexts and signatures are free terms: two are equal only when they were made from the same parts. Times are
integers and 0 is the empty timestamp. Identifiers are numbers from one counter, spelled in decimal inside keys.

## Findings

Where the code does less, or more, than its surroundings suggest, the model follows the code, and the exact condition is
proved.

- The log upload can stop for good, and `LogStops.StoresAnotherExactly` says when: some continuation stores another chunk if
  and only if the installation exists and either a request that the server would take is under way, or the reporter's
  process is alive, its credential is neither revoked nor expired, it is not stalled, and the next read fits: into the
  body of a request, with a redaction that is not empty, fits a chunk and is within what is left of the 16 MiB. The log
  may still grow, and `LogReads.SomeReadFitsExactly` says when that can help.
  - A lost answer, or an interruption between the two state files, stalls it (`LogUpload.LostAnswerStalls`,
    `LogUpload.InterruptionBetweenFilesStalls`): the retry carries a fresh client time, which the server compares. One
    lost answer does it from any state in which the reporter can go on (`LogStops.StallIsReachable`), and
    `LogStops.StalledFromTheStart` is a run.
  - A log that begins with a full read of NULs, or with 4000 lines `token:`, never gets a single chunk through
    (`LogStops.NulsStopTheUpload`, `LogStops.TokenLinesStopTheUpload`): a redacted line may be longer than the line.
- The event queue can stop for good, and `QueueStops.HeadIsTakenExactly` says when, for every state of every run that
  has an event on the queue, whatever was lost on the way (`QueueStops.HeadIsTakenInEveryRun`): some continuation takes
  the head off if and only if the daemon is alive and either has its answer already, or the server can grant the report
  and the post is authenticated already or can still be. The server can grant a report that is valid and that it either
  has exactly, or whose key is unused and whose stage can be reached by stages that something else reports or that a
  late post brings: one that is valid, with an unused key, and authenticated or still to be. `QueueStops.StopsExactly`
  lists all the ways to stop for a daemon that is alive and an installation that exists: an invalid report, a key used
  with other content, a stage that was passed or that needs a stage which nothing brings any more, one line that is too
  long for the scanner anywhere on the queue, a credential that is revoked or expired. An installation that has ended
  has a revoked credential, so the very event that ended it is stuck when its answer is lost
  (`QueueStops.LostFinalAnswerStops`), and so is every event behind it; `QueueRuns.SecondFailureStopsTheQueue` is a run
  from the start.
- The queue file is truncated before what is left is written. An interruption in between loses it
  (`EventQueue.InterruptedRewriteLoses`), and nothing else ever loses an event (`EventQueue.EveryEventIsAccountedFor`). If a
  stage of the installer was lost before it was posted, every later stage of the installer stays at the head of the queue
  for ever (`QueueStops.LostStageStopsTheQueue`, and `QueueRuns.LostStageFromTheStart` is a run). If it was posted and only
  its answer did not come, the late post may still make up for it (`QueueRuns.LatePostMakesUpForTheLoss`). Whatever is
  taken off the queue is on the server, losses or not (`EventQueue.TakenIsStored`).
- A piece of evidence is queued as often as passes over the installer's log find it while the state file that they have read
  does not name it (`Evidence.QueuedAsOftenAsFound`), hence more than once if and only if two passes do
  (`Evidence.QueuedAgainExactly`). Without overlap these are the passes before the first one that is not cut short has seen
  it, and it is queued once when none is cut short. But the hook before HARDENING makes a pass of its own, in another
  process and without a lock: then two whole passes queue the same evidence, and the later save can drop what the earlier
  one had found (`Evidence.OverlappingPassesQueueTwice`, `Evidence.OverlappingSaveForgets`). The second event has the key of
  the first with a new client time, and stops the queue (`Evidence.SecondEvidenceStopsTheQueue`).
- Validation looks at the trimmed full name and the renderer prints the raw one. The preseed splits into exactly its
  directives if and only if the full name holds no newline (`Preseed.PreseedSplitsExactly`), and validation accepts every
  acceptable name with a newline behind it (`Preseed.FullNameMayEndTheLine`).
- Two identifiers belong to one machine exactly when observations accepted *for that machine* link them. A chain through
  a machine that was deleted since does not count (`MachineIdentity.DeletedLinksAreLost`).
- A booting machine is refused for a lifecycle conflict exactly when something other than a check-in entered PXE_BOOTED or
  used the check-in's key. Clients that report as the reporter does never cause it; a client that reports PXE_BOOTED as
  the server does, and its credential allows that (`LifecycleRuns.CheckInConflictsExactly`,
  `LifecycleRuns.BootsNeverConflict`, `LifecycleRuns.ClientBootReportRefusesCheckIns`).
- The rate limiters are a little stricter than twice their limit: at most 239 discoveries and at most 9 recovery-key
  comparisons in any half-open minute. Both are attained. Nobody is refused before the limit itself was reached within the
  last minute, except a new client of a full table (`RateLimit.DiscoveryRefusalIsJustified`,
  `RateLimit.RecoveryAnswersExactly`).
- Boot material is served on what a request has read in two different states: the machine first, the assignment later
  (`BootGate.ServedWasEntitled`). A machine that is blocked in between is still served, with the preseed
  (`Uninterrupted.BlockedInBetweenIsServed`).
- The signed form of a telemetry request is uniquely decodable for methods without a newline, and only the border between
  method and path can be confused otherwise (`Canonical.TelemetryEqualIff`, `Canonical.NewlineInMethodIsAmbiguous`).
- The schema refuses two statements of the store only: the insert of an installation whose machine was deleted since it
  was looked up, and the first use of a challenge whose installation names a credential ID that is taken. Among operator
  accounts it refuses a passkey that another user has for the same relying party, and nothing else.

## Model

| member | source | states |
|---|---|---|
| `Lifecycle.PathIsShort` | internal/lifecycle/model.go:151-196 | Along any path of accepted stages the rank rises strictly, no stage repeats, nothing follows a terminal stage, and there are at most eleven stages |
| `Lifecycle.PathMeetsPxe` | internal/lifecycle/model.go:151-196 | A path that got as far as PXE_BOOTED went through it |
| `Lifecycle.SuccessHasFourShapes` | internal/lifecycle/model.go:151-196 | A stage sequence ending in SUCCESS is a path if and only if it is one of four: only QUEUED and FIRST_BOOT may be missing |
| `Lifecycle.PathIsABeginning` | internal/lifecycle/model.go:151-196 | Every path that has not failed is the beginning of one of these four |
| `Lifecycle.FailureCutsOff` | internal/lifecycle/model.go:151-196 | A stage sequence ending in FAILED is a path if and only if it is one of these four, cut off anywhere between PXE_BOOTED and SUCCESS |
| `Lifecycle.ReportIsValidExactly` | internal/lifecycle/model.go:87-149 | Which reports are valid, in numbers and characters: source and stage, key, texts, an error code if and only if it is a failure, and metadata that name nothing sensitive |
| `Store.Store.DiscoverMachine` | internal/store/machines.go:18-146 | Resolves, creates or refreshes, and attaches; the state and answer are those of the Discover transaction, the row of the machine is the one observed, and the invariant holds |
| `Store.Store.ResolveIdentifiers` | internal/store/machines.go:63-77 | The lookup loop collects exactly the machines that the identifiers belong to |
| `Store.Store.AttachIdentifiers` | internal/store/machines.go:105-110 | The upsert loop is the fold of the upserts, in order |
| `StoreSteps.AttachAllAttaches` | internal/store/machines.go:105-110 | The upserts attach exactly the identifiers that belonged to no machine, and move none |
| `StoreSteps.DiscoverAccepts` | internal/store/machines.go:18-146 | An observation is accepted exactly when it is well formed and its identifiers know at most one machine; then all of them belong to that machine or a new one, its Secure Boot state and last time are those observed, what was known of it before is kept where nothing was observed, and nothing else changes; a refusal changes nothing |
| `StoreSteps.DiscoverIsSound` | internal/store/machines.go:18-146 | Discovery keeps the invariant and is never refused by the schema |
| `StoreSteps.DiscoveryWrites` | internal/store/machines.go:91-103 | The whole row after an accepted observation, for a known machine and for a new one, and no other row is written |
| `Provenance.MachineIsAsLastSeen` | internal/store/machines.go:91-103 | In every run the Secure Boot state of a machine and the time it was last seen are those of the last observation that was accepted for it, it was first seen at the first one, and its policy is the one that was set last, or pending |
| `Store.Store.SetMachinePolicy` | internal/store/machine_policy.go:15-70 | Updates the policy of an existing machine, for a named actor |
| `StoreSteps.SetPolicyIsSound` | internal/store/machine_policy.go:15-70 | A policy change keeps the invariant |
| `Writes.PolicyIsSet` | internal/store/machine_policy.go:15-70 | A policy change succeeds exactly for an existing machine and a named actor, and writes the requested policy and nothing else |
| `StoreSteps.LookedUpSpecIsInserted` | internal/store/installations.go:18-96 | Whatever other requests do between the lookup and the transaction, the insert is refused if and only if the machine was deleted since; otherwise it adds one installation that never existed before, at CREATED, without assignment or credential, and touches no other history |
| `Store.Store.InsertInstallation` | internal/store/installations.go:35-96 | Inserts the spec with its CREATED event in one transaction |
| `StoreSteps.CreateSpecIsSound` | internal/store/installations.go:18-96 | The insert keeps the invariant, and the schema refuses it exactly when the machine was deleted since the lookup |
| `Writes.InstallationWrites` | internal/store/installations.go:35-96 | The insert succeeds exactly while the machine exists, and writes the submitted row and its CREATED event under the next number, and nothing else |
| `Uninterrupted.SubmissionIsExact` | internal/store/installations.go:18-96 | A submission without interruption adds the installation exactly when its fields are valid and its machine exists |
| `Posts.InstallationWasSubmitted` | internal/store/installations.go:18-96 | In every run every installation was submitted with valid fields for a machine that existed then, and is what was submitted |
| `TelemetrySteps.ServerAppendIsExact` | internal/store/lifecycle_server.go:13-49 | For an existing installation a server report is accepted exactly when it repeats one by key and stage or is the next step under a fresh key; the history stays one path that extends the old one, and the schema refuses nothing |
| `TelemetrySteps.ServerAppendIsRemembered` | internal/store/lifecycle_server.go:17-25 | Once a server report was accepted, in every later state the same key with the same stage is accepted without a change and with another stage is a conflict |
| `Writes.ServerEventWrites` | internal/store/lifecycle_server.go:13-49 | An accepted server report changes nothing if its key is known, and otherwise goes to the end of the events and touches nothing else |
| `Store.Store.ArmInstallation` | internal/store/assignments.go:18-141 | Arms an unassigned installation of a provisionable machine and queues it |
| `StoreSteps.ArmIsSound` | internal/store/assignments.go:18-141 | Arming succeeds exactly under the checks of the code, neither the partial index nor the QUEUED event ever stands in its way, and afterwards exactly that machine has gained a claim |
| `Writes.ArmingWrites` | internal/store/assignments.go:18-141 | Arming succeeds exactly for a named actor, a provisionable machine without an armed assignment and its unassigned installation, and writes the armed row in the name of the actor and the QUEUED event, and nothing else |
| `Store.Store.CancelAssignment` | internal/store/assignments.go:143-207 | Cancels the armed assignment of an installation |
| `Store.Store.ConsumeAssignment` | internal/store/assignment_consumption.go:17-87 | Consumes the armed assignment of an installation |
| `StoreSteps.SettleIsSound` | internal/store/assignment_consumption.go:30-57 | Cancelling and consuming succeed exactly on an armed assignment, write its final row, and end the claim of exactly that machine |
| `Writes.SettlingWrites` | internal/store/assignment_consumption.go:17-87 | Cancelling and consuming succeed exactly for a named actor on an armed row, stamp their own column and state, and change nothing else |
| `Grants.AssignmentIsTraced` | internal/store/assignments.go:18-207 | In every run an assignment was armed by a named actor for a machine released for provisioning; it is cancelled only by a named actor, and consumed only by a request for the preseed that found the machine cleared and the installation armed for it |
| `Store.Store.RegisterBootTrustKey` | internal/store/boot_trust.go:26-100 | Enrolls a new key as pending or refreshes a known one |
| `TrustSteps.RegisterKeyIsSound` | internal/store/boot_trust.go:26-100 | Enrollment writes one row at most, a new one as pending and a known one with its state, keeps the invariant, and never breaks a constraint |
| `Writes.EnrollmentWrites` | internal/store/boot_trust.go:26-100 | Enrollment succeeds if and only if the key and the endorsement key are valid, the installation is bound to a provisionable machine, and the key is unknown or an unrevoked matching key of that machine; a new row is pending without an approval, a known one keeps everything but the time it was last seen and a missing endorsement key |
| `Provenance.KeyIsTraced` | internal/store/boot_trust.go:26-197 | In every run a key was enrolled as pending; it is approved only if a named operator approved it for its machine while it was pending, and revoked only if it was revoked for its machine |
| `Provenance.OnlyApprovalsApprove` | internal/store/boot_trust.go:127-168 | From no state of a run does anything but an approval of that key for its machine, with a name, make a key approved |
| `Store.Store.ApproveBootTrustKey` | internal/store/boot_trust.go:127-168 | Approves a pending key |
| `TrustSteps.ApproveKeyIsSound` | internal/store/boot_trust.go:127-168 | Approval succeeds exactly on a key that is not revoked, unless another key of the machine is approved, so the partial index never refuses it |
| `Writes.ApprovalWrites` | internal/store/boot_trust.go:127-168 | An approval stamps the pending key with the time and the actor, or answers with the approved row as it is |
| `Store.Store.RevokeBootTrustKey` | internal/store/boot_trust.go:170-197 | Revokes a key, whatever its state |
| `TrustSteps.RevokeKeyIsSound` | internal/store/boot_trust.go:170-197 | Revocation succeeds exactly on the keys of the machine and leaves the key revoked |
| `Writes.KeyRevocationWrites` | internal/store/boot_trust.go:170-197 | A revocation stamps the key with the time and the actor, unless it was revoked before, and changes nothing else |
| `TrustRuns.RevokedKeyIsFinal` | internal/store/boot_trust.go:64-66 | In every run a revoked key stays revoked and unchanged for as long as its machine exists |
| `TrustRuns.OneApprovedKeyPerMachine` | internal/store/boot_trust.go:147-154 | In every run at most one key of a machine is approved |
| `Store.Store.CreateBootTrustChallenge` | internal/store/boot_trust.go:199-238 | Issues a challenge to an approved key |
| `TrustSteps.CreateChallengeIsSound` | internal/store/boot_trust.go:199-238 | A new challenge refers to an existing installation, machine and key of that machine, and keeps the invariant |
| `Writes.ChallengeWrites` | internal/store/boot_trust.go:199-238 | A challenge is issued exactly to an approved key of the bound machine; its row has the next number, the nonce, and an expiry 120 seconds later |
| `Grants.ChallengeIsTraced` | internal/store/boot_trust.go:199-331 | In every run a challenge was issued to a key that was approved then; it is used only because a justified proof used it, and holds the secret of that proof, for the key that was challenged |
| `TrustRuns.FirstReleaseExactly` | internal/store/boot_trust.go:240-331 | In valid states a fresh secret is released if and only if the challenge is unused and unexpired, the installation has no credential, its assignment is not cancelled, its machine may be provisioned and has that key approved, the signature is that key's over this challenge, and no other installation has the credential ID |
| `Writes.ProofWrites` | internal/store/boot_trust.go:285-331 | A first proof writes the credential with the hash of the secret and a life of 24 hours and the used challenge, and nothing else; any other answer changes nothing |
| `Grants.CredentialIsTraced` | internal/store/boot_trust.go:240-331 | In every run a credential was earned by a justified proof, with the hash of its secret; it is revoked only because a named actor revoked it or the installation ended, at that time |
| `Store.Store.CompleteBootTrustChallenge` | internal/store/boot_trust.go:240-331 | Proof of a challenge: repeats the stored release of a used one, or inserts the credential and uses the challenge together |
| `TrustSteps.CompleteIsSound` | internal/store/boot_trust.go:240-331 | Every proof keeps the invariant, what it answers is on record, and a storage failure is the taken credential ID and nothing else |
| `TrustSteps.UsedChallengeAnswers` | internal/store/boot_trust.go:254-259 | A used challenge holds its response and answers it again without a change |
| `TrustRuns.ReplayIsNeverRejected` | internal/store/boot_trust.go:255-257 | In every run the refusal of a used challenge without a reusable response is unreachable |
| `TrustRuns.OneUsedChallengePerCredential` | internal/store/boot_trust.go:254-331 | In every run a credential exists exactly when a challenge of the installation was used, and then exactly one was |
| `Store.Store.AuthenticateLifecycleCredential` | internal/store/telemetry.go:101-152 | Bearer authentication: checks, then the update by credential ID |
| `Store.Store.VerifyLifecycleMAC` | internal/store/telemetry_auth.go:16-57 | Signature authentication: clock skew, expiry and signature, then the update by installation |
| `Writes.SignatureOpens` | internal/store/telemetry_auth.go:16-57 | A signed request is accepted if and only if it has a canonical form, its time is at most 300 seconds off either way, the credential is neither revoked nor expired, and the signature is that of the canonical form under the credential's verifier |
| `Writes.SecretOpens` | internal/store/telemetry.go:101-152 | In valid states a bearer secret is accepted if and only if the credential is neither revoked nor expired and its verifier is the hash of the secret |
| `Grants.ReleasedSecretOpens` | internal/store/telemetry_auth.go:16-57 | In every run the released secret lets the reporter in for exactly as long as the credential is usable: as it is, or as the key of a signature over a request at most 300 seconds off; no other signature is accepted |
| `TelemetrySteps.TouchedStep` | internal/store/telemetry_auth.go:52-56 | The late update of last_used_at keeps the invariant, even when the credential it names is gone or belongs to another installation by now |
| `TrustRuns.AuthenticatedSecretWasReleased` | internal/store/telemetry.go:101-152 | In every run, whoever authenticates has the secret that the installation's used challenge released, before expiry and revocation |
| `TrustRuns.RevokedAuthenticatesNothing` | internal/store/telemetry_auth.go:31-48 | A revoked credential fails on both authentication paths |
| `TrustRuns.NoSecondCredential` | internal/store/boot_trust.go:297-303 | With a credential on record, a proof changes nothing: it repeats the release or is refused |
| `Store.Store.RevokeLifecycleCredential` | internal/store/telemetry.go:154-182 | Revokes the credential of an installation once |
| `TelemetrySteps.RevokeCredentialIsSound` | internal/store/telemetry.go:154-182 | Revocation keeps the invariant |
| `Writes.RevocationWrites` | internal/store/telemetry.go:154-182 | A manual revocation succeeds exactly for a named actor on an unrevoked credential, and stamps it and nothing else |
| `Store.Store.AppendLifecycleEvent` | internal/store/telemetry.go:184-293 | Idempotent append with automatic revocation on a terminal stage |
| `TelemetrySteps.AppendEventCases` | internal/store/telemetry.go:206-264 | Exactly three answers: the stored event for the same report, the new event when it may follow, a conflict otherwise |
| `TelemetrySteps.AppendEventIsSound` | internal/store/telemetry.go:184-293 | An append by the server to an assigned installation or by a client with a credential keeps the coupling of stage, assignment and credential |
| `Writes.EventWrites` | internal/store/telemetry.go:184-293 | A report is accepted if and only if it is valid, the installation exists, and it either is stored already or has an unused key and the next stage; a new event goes to the end, a final one stamps the credential, and nothing else changes |
| `Uninterrupted.PostedEventIsExact` | internal/httpapi/telemetry.go:42-93 | A post without interruption appends exactly one event if and only if its proof opens the credential and the report is valid, unused and next; without such a proof it changes nothing at all |
| `Posts.EventWasPosted` | internal/httpapi/telemetry.go:42-93 | In every run an event was posted with a proof that opened the credential then, or is the one of the creation, of a successful arming, or of the check-in of a booting machine that was cleared and had the installation armed for it |
| `TelemetrySteps.RepeatedReport` | internal/store/telemetry.go:206-225 | Repeating an accepted report in any later state returns the first event and changes nothing |
| `Store.Store.AppendInstallationLogChunk` | internal/store/telemetry.go:342-417 | Redacts, deduplicates, checks sequence and size, and inserts |
| `Store.Store.Totals` | internal/store/telemetry.go:378-391 | The highest sequence number and the summed length of the stored chunks |
| `TelemetrySteps.LastSequenceCounts` | internal/store/telemetry.go:378-385 | For contiguous chunks the highest sequence number is their count |
| `TelemetrySteps.AppendChunkCases` | internal/store/telemetry.go:342-417 | A repetition, exactly the next chunk, or a refusal that changes nothing |
| `TelemetrySteps.AppendChunkIsSound` | internal/store/telemetry.go:342-417 | Chunks stay numbered 1, 2, 3, with distinct keys and within the size limit |
| `Writes.ChunkWrites` | internal/store/telemetry.go:342-417 | A chunk is accepted if and only if its redaction is valid, the installation exists, and it either is stored already or is the next in number under an unused key within 16 MiB; a new one goes to the end and nothing else changes |
| `Uninterrupted.PostedChunkIsExact` | internal/httpapi/telemetry.go:95-150 | The same for a posted chunk of the log |
| `Posts.ChunkWasPosted` | internal/httpapi/telemetry.go:95-150 | In every run a chunk is the redaction of one that was posted with a proof that opened the credential then |
| `TelemetrySteps.RepeatedChunk` | internal/store/telemetry.go:355-374 | Repeating an accepted chunk in any later state returns the first one and changes nothing |
| `Store.Store.RemoveInstallation` | internal/store/deletion.go:14-70 | Deletes an installation that is not armed, with everything that depends on it |
| `Store.Store.ClearDependents` | internal/store/deletion.go:42-52 | The loop over the delete statements empties the dependent rows of the installation and of no other |
| `TrustSteps.DeleteInstallationIsSound` | internal/store/deletion.go:14-70 | The order of the deletes satisfies every RESTRICT foreign key, no claim of any machine changes, and the invariant holds |
| `Writes.InstallationIsDeleted` | internal/store/deletion.go:14-70 | A deletion succeeds exactly for a named actor and an existing installation that is not armed, and takes every row of that installation and no other one |
| `Store.Store.RemoveMachine` | internal/store/deletion.go:72-132 | Deletes a machine without installations, with its keys and identifiers |
| `TrustSteps.DeleteMachineIsSound` | internal/store/deletion.go:72-132 | Deletion of a machine is refused exactly while it has an installation, and never by the schema |
| `Writes.MachineIsDeleted` | internal/store/deletion.go:72-132 | A deletion succeeds exactly for a named actor and an existing machine without installations, and takes its keys and identifiers and no other row |
| `Interleavings.RunIsValid` | internal/httpapi/telemetry.go:42-76 | The store invariant holds after every run, and what a request has established by one step still holds when it takes the next |
| `Interleavings.RunEvolves` | internal/store/store.go:19-33 | The state after any run evolves into the state after any longer one: settled assignments, used challenges, revocations, events and chunks stay |
| `StepsAreFaithful.CallIsFaithful` | internal/store/schema.go:45-194 | Every one-transaction call keeps the invariant and its note says what it did to the claims, the identifiers and the releases |
| `StepsAreFaithful.StartIsFaithful` | internal/httpapi/server.go:173-266 | So does the first step of every request |
| `StepsAreFaithful.StepIsFaithful` | internal/httpapi/provisioning.go:194-243 | So does every later step, from whatever the request has established before; what the gate itself asks for is `BootGate.GateAdmits` |
| `Handoffs.SchemaRefusesOnly` | internal/store/schema.go:45-194 | In every run the schema refuses nothing but a new installation and the first use of a challenge |
| `Handoffs.OncePerInstallation` | internal/store/assignments.go:66-84 | In every run no installation is armed twice, its claim is not ended twice, and any two successful proofs for it release the same |
| `Handoffs.ClaimsAreConserved` | internal/store/assignment_consumption.go:37-57 | In every run, for every machine: armings = handovers + cancellations + 1 if it is armed now |
| `Handoffs.OneClaimPerMachine` | internal/store/schema.go:83-84 | In every run at most one installation of a machine is armed |
| `BootMaterial.NoMaterialAfterHandover` | internal/httpapi/provisioning.go:194-243 | In every run no boot script, artifact or preseed is served to a request whose load began after the installation was handed over |
| `BootMaterial.PreseedServedOnce` | internal/httpapi/provisioning.go:223-251 | In every run a served preseed belongs to a handover of its installation, and no installation gets two |
| `BootGate.GateAdmits` | internal/httpapi/provisioning.go:402-432 | One step of a request at the gate goes on if and only if the row that it read is released for provisioning with Secure Boot as required and the installation is armed for that machine now |
| `BootGate.ServedWasEntitled` | internal/httpapi/provisioning.go:386-433 | In every run, whatever is served was asked for by a request that began before a state in which the machine was released for provisioning with Secure Boot as required, and in that state or a later one the installation was armed for it |
| `Uninterrupted.FetchIsExact` | internal/httpapi/provisioning.go:386-433 | A request for boot material without interruption is served if and only if the installation exists, its machine is released for provisioning with Secure Boot as required, and it is armed for it; only the preseed hands it over |
| `Uninterrupted.BlockedInBetweenIsServed` | internal/httpapi/provisioning.go:398-431 | From every state in which a request would be served, blocking the machine after the request has read it and before it reads the assignment does not stop it |
| `BootGate.CheckInWasEntitled` | internal/httpapi/provisioning.go:41-93 | In every run, whoever comes to check in booted a machine that was released for provisioning with Secure Boot as required right after its discovery, and had the installation armed for it in that state or a later one |
| `Uninterrupted.BootIsExact` | internal/httpapi/server.go:173-266 | A boot without interruption comes to check in for an installation if and only if its observation is accepted for a machine that is then released for provisioning with Secure Boot as required and has the installation armed for it |
| `MachineIdentity.IdentityIsConnectivity` | internal/store/machines.go:63-110 | In every run two identifiers resolve to the same live machine if and only if a chain of observations accepted for that machine links them |
| `MachineIdentity.NeverMerged` | internal/store/machines.go:78-82 | Identifiers of two machines are never brought together while both live |
| `MachineIdentity.DeletedLinksAreLost` | internal/store/deletion.go:106-114 | A chain through a deleted machine links nothing: a concrete run in which it does not |
| `LifecycleRuns.LifecycleOfEveryRun` | internal/store/telemetry.go:184-293 | In every run the events of an installation are a path of at most eleven; past PXE_BOOTED there is a credential from a used challenge, at the end it is revoked; unassigned means CREATED; SUCCESS means one of the four full sequences |
| `LifecycleRuns.TheEndIsFinal` | internal/store/telemetry.go:259-264 | After SUCCESS or FAILED no event is ever added and the credential stays the same and revoked, over every continuation |
| `LifecycleRuns.RetryInEveryRun` | internal/store/telemetry.go:206-225 | A report accepted by any step of a run is answered with the same event after any continuation |
| `LifecycleRuns.CheckInConflictsExactly` | internal/httpapi/server.go:191-208 | A check-in conflicts if and only if PXE_BOOTED, or its reserved key, was taken by something other than a check-in |
| `LifecycleRuns.BootsNeverConflict` | internal/httpapi/server.go:191-208 | In every run with reporter-shaped clients no check-in is a lifecycle conflict, however often machines boot |
| `LifecycleRuns.ClientBootReportIsAccepted` | internal/lifecycle/model.go:134-149 | Before the first check-in a well-formed PXE_BOOTED report under a new key is accepted, and its source is the server |
| `LifecycleRuns.ClientBootReportRefusesCheckIns` | internal/httpapi/server.go:191-208 | Once that happened every later check-in of the installation is a conflict |
| `LogUpload.StateFiles.UploadInstallerLog` | internal/reporter/runtime.go:218-251 | One pass over the state files: what it sends and which files it moves, for every outcome |
| `LogUpload.AnsweredPassMovesTheFiles` | internal/reporter/runtime.go:244-250 | The steps of the protocol move the files as that method does |
| `LogUpload.DeliveryCases` | internal/store/telemetry.go:342-417 | What the server makes of any authenticated request from the network: the next chunk, a repetition of the very request it stored, or nothing |
| `LogUpload.ServerHoldsAPrefix` | internal/reporter/runtime.go:218-251 | Whatever is lost, repeated or reordered and wherever the process dies, the server's chunks are the redactions of consecutive pieces of the syslog from its first byte |
| `LogUpload.StallOverRuns` | internal/reporter/runtime.go:244-250 | From a stalled state no continuation ever stores another chunk |
| `LogStops.StoresAnotherExactly` | internal/reporter/runtime.go:218-251 | From any sound state some continuation stores another chunk if and only if the installation exists and either a request that the server would take is under way, or the process is alive, the credential usable, the uploader not stalled, and the next read fits the body, a chunk and the allowance |
| `LogReads.SomeReadFitsExactly` | internal/telemetry/model.go:69-103 | However the log grows before it is read: some read can be taken if and only if a full read can as it stands, or a short one can as it is, with one more character, or once its last line is completed to a sensitive one |
| `LogStops.FirstChunkExactly` | internal/reporter/runtime.go:227-242 | From the start a chunk is ever stored if and only if the credential can be used and the first read can be taken |
| `LogStops.NothingMore` | internal/reporter/runtime.go:218-251 | Once the condition fails it fails for ever, and nothing more is stored |
| `LogStops.StallIsReachable` | internal/reporter/runtime.go:244-250 | Wherever the reporter can go on, one chunk and one lost answer later it is stalled |
| `LogStops.StalledFromTheStart` | internal/reporter/runtime.go:244-246 | A run from the start into the stall, with the installation still there |
| `LogStops.NulsStopTheUpload` | internal/telemetry/model.go:69-79 | A log that begins with a full read of NULs never gets a chunk through |
| `LogStops.SensitiveLinesStopTheUpload` | internal/telemetry/model.go:69-79 | Nor does one that begins with enough short sensitive lines: within one read their redaction exceeds a chunk |
| `LogStops.TokenLinesStopTheUpload` | internal/telemetry/model.go:69-103 | 4000 lines `token:` are such a beginning |
| `TrustRuns.AuthenticableExactly` | internal/store/telemetry.go:101-152 | In valid states somebody can authenticate for an installation if and only if its credential is neither revoked nor expired |
| `EventQueue.QueueFile.QueueEvent` | internal/reporter/runtime.go:40-67 | Appends the event with its derived key, or refuses a FAILED event without an error code |
| `EventQueue.EventKey` | internal/reporter/runtime.go:44-47 | Every derived key lies in the queue's key space, apart from the keys that the first boot and the log upload use |
| `EventQueue.QueuedIsKeyed` | internal/reporter/runtime.go:44-47 | The key that QueueEvent derives tells the stage of its event, so two events under one key have the same stage |
| `EventQueue.KeysAreExact` | internal/reporter/runtime.go:40-67 | The key of an event is the name of its stage, and for a failure also what a key may hold of the error code, or "unknown" when that is nothing |
| `EventQueue.QueueFile.DrainEvents` | internal/reporter/runtime.go:166-216 | Takes exactly the events before the first refusal off the front and keeps the rest in order; with one line too long for the scanner it takes none |
| `EventQueue.DrainTakesTheAccepted` | internal/reporter/runtime.go:166-216 | The steps of the protocol take the accepted events off the queue as that method does |
| `EventQueue.ExactlyOnceInOrder` | internal/reporter/runtime.go:166-216 | In every run in which nothing was lost with the file, enqueued = drained followed by queue, and the server's events of this queue are, without repeats, those of a prefix of it that covers everything drained |
| `EventQueue.EveryEventIsAccountedFor` | internal/reporter/runtime.go:204-215 | In every run each enqueued event was taken off, is on the queue, is about to be written, or was lost between truncation and write |
| `EventQueue.InterruptedRewriteLoses` | internal/reporter/runtime.go:204-215 | An event that an interrupted rewrite drops before it was posted never reaches the server in any continuation |
| `EventQueue.TakenIsStored` | internal/reporter/runtime.go:194-215 | In every run, with losses or without, what was taken off the queue is among the server's events |
| `QueueStops.HeadIsTakenExactly` | internal/reporter/runtime.go:166-216 | From any sound state some continuation takes the head off if and only if the daemon is alive and has its answer, or the server can grant the report, through others' stages or late posts, and the post is authenticated or can still be |
| `QueueStops.HeadIsTakenInEveryRun` | internal/reporter/runtime.go:166-216 | The same for every state with an event on the queue that a run from the start gets to, losses included |
| `QueueStops.StopsExactly` | internal/reporter/runtime.go:166-216 | Between two passes, with the server and the first boot as the only others, the head stays in every continuation if and only if the report is invalid, its key is used with other content, its stage is passed or needs a stage that no late post brings, a line of the queue is too long, or the credential is unusable |
| `QueueStops.NothingTaken` | internal/reporter/runtime.go:194-203 | Once the condition fails it fails for ever: the head stays, nothing is taken off and nothing lost |
| `Reach.ReachableFromElsewhere` | internal/lifecycle/model.go:151-196 | With the server's stages, those of the first boot and some of the installer, a stage can be reached if and only if it is ahead and is a failure or no other stage of the installer is missing in between |
| `Reach.ReachableFromAnything` | internal/lifecycle/model.go:151-196 | If every stage may be reported, what can be reached is exactly what lies ahead |
| `QueueStops.ReusedKeyStopsTheQueue` | internal/store/telemetry.go:206-225 | A queued event whose key the server has with other content stays at the head of the queue in every continuation |
| `QueueStops.EndedInstallationStopsTheQueue` | internal/store/telemetry.go:184-293 | Every event that is queued for an installation that has ended stays at the head |
| `QueueStops.LostFinalAnswerStops` | internal/store/telemetry.go:258-263 | The event that ended the installation is stuck when its answer is lost, although the server has exactly this report |
| `QueueStops.LostStageStopsTheQueue` | internal/reporter/runtime.go:204-215 | When a stage of the installer is missing on the server and was never posted, a later event stays at the head of the queue in every continuation |
| `QueueRuns.LostStageFromTheStart` | internal/reporter/runtime.go:204-215 | A run from the start: a middle stage is lost before it was posted, and the stage behind it stays in every continuation |
| `QueueRuns.LatePostMakesUpForTheLoss` | internal/reporter/runtime.go:195-215 | A run from the start: the lost stage was posted, its answer did not come, and some continuation takes the stage behind it off |
| `QueueRuns.SecondFailureStopsTheQueue` | internal/reporter/runtime.go:143-147 | A run from the start: the first failure is taken, the second one, under a key of its own, stays in every continuation |
| `Evidence.EvidenceFile.DetectNativeInstallerEvidence` | internal/reporter/runtime.go:126-164 | One pass over the installer's log: what it queues, in order, and what it saves over the state file, for a process that may be interrupted anywhere and a state that may have changed since it was read |
| `Evidence.EvidenceFile.Detect` | internal/reporter/runtime.go:150-159 | The loop over the checks queues exactly those that are due |
| `Evidence.QueuedAsOftenAsFound` | internal/reporter/runtime.go:126-164 | For passes that overlap or are cut short in any way, a check is queued as often as passes come to it, find its needle and have read a state file without its name |
| `Evidence.QueuedAgainExactly` | internal/reporter/runtime.go:126-164 | It is queued more than once if and only if two passes do |
| `Evidence.QueuedUntilAPassEnds` | internal/reporter/runtime.go:126-164 | For passes one after the other, these are the passes that come to it with its needle in the log while no earlier pass that was not cut short had it |
| `Evidence.EvidenceIsQueuedOnce` | internal/reporter/runtime.go:126-164 | Over passes one after the other that all live to write the state file, evidence is queued once if it was in the log at some pass, and never otherwise |
| `Evidence.CutShortQueuesAgain` | internal/reporter/runtime.go:150-163 | Two passes that come to a check with its needle before a pass that is not cut short has seen it queue it twice |
| `Evidence.OverlappingPassesQueueTwice` | internal/reporter/hooks.go:9-17 | The daemon's pass and the hook's, both whole, queue the same evidence when neither has saved before the other reads |
| `Evidence.OverlappingSaveForgets` | internal/reporter/runtime.go:317-325 | The later save drops what only the earlier pass had found, and the next pass queues it again |
| `Evidence.SecondEvidenceStopsTheQueue` | internal/reporter/runtime.go:40-67 | Once the server has the first of two such events, the second stays at the head of the queue in every continuation |
| `LogBuffer.LogBuffer.constructor` | internal/observability/logbuffer.go:21-26 | An empty buffer of at least one entry |
| `LogBuffer.LogBuffer.AppendLocked` | internal/observability/logbuffer.go:108-117 | Filling a slot or shifting all entries keeps the last lines |
| `LogBuffer.LogBuffer.Write` | internal/observability/logbuffer.go:28-45 | The buffer holds the last nonblank trimmed lines of everything written, numbered by position, and the unterminated tail |
| `LogBuffer.Chunked` | internal/observability/logbuffer.go:28-45 | However input is cut into writes, the complete lines and the tail are those of the concatenation |
| `LogBuffer.StreamGrows` | internal/observability/logbuffer.go:108-117 | A line keeps its number forever |
| `LogBuffer.LogBuffer.Snapshot` | internal/observability/logbuffer.go:47-67 | The first entries after the cursor, up to the limit |
| `LogBuffer.SnapshotOfLast` | internal/observability/logbuffer.go:47-67 | A snapshot is consecutive lines of the stream, from the cursor or the oldest line kept |
| `LogBuffer.LogBuffer.TailThrough` | internal/observability/logbuffer.go:73-94 | The last entries up to the bound, up to the limit |
| `LogBuffer.TailOfLast` | internal/observability/logbuffer.go:73-94 | A tail is consecutive lines of the stream ending at the bound or the newest line |
| `LogBuffer.LogBuffer.LatestSequence` | internal/observability/logbuffer.go:96-106 | The number of lines so far |
| `LogBuffer.PollingNeverRepeats` | internal/observability/logbuffer.go:47-67 | Over any interleaving of writes and polls a reader gets rising numbers, each with the line of that number |
| `LogBuffer.NoGapWithinCapacity` | internal/observability/logbuffer.go:47-67 | A reader at most one buffer behind misses nothing |
| `RateLimit.DiscoveryLimiter.AllowDiscovery` | internal/httpapi/server.go:429-456 | Sweep, refusal of unknown clients of a full table, and count; the whole history stays bounded |
| `RateLimit.DiscoveryLimiter.Sweep` | internal/httpapi/server.go:435-441 | The loop removes exactly the counters two windows old |
| `RateLimit.EvictionIsSafe` | internal/httpapi/server.go:435-441 | Removing old counters never weakens the bound |
| `RateLimit.DiscoveryRateIsBounded` | internal/httpapi/server.go:429-456 | For any requests in time order a client gets at most 239 through in any half-open minute, and the table holds at most 4096 clients |
| `RateLimit.DiscoveryBoundIsAttained` | internal/httpapi/server.go:429-456 | There is a request sequence that gets 239 through |
| `RateLimit.DiscoveryRefusalIsJustified` | internal/httpapi/server.go:429-456 | A discovery is refused only to a client that has got 120 through in the last minute, or to one that is not among at least 4096 clients that each got one through in the last two |
| `RateLimit.RecoveryLimiter.VerifyRecoveryKey` | internal/operator/recovery.go:13-44 | A wrong key is counted, the right one clears the counter, a full window refuses |
| `RateLimit.RecoveryLimiter.CleanupLocked` | internal/operator/auth.go:197-208 | The loop forgets exactly the counters two windows old |
| `RateLimit.RecoveryRateIsBounded` | internal/operator/recovery.go:13-44 | For any attempts in time order a remote gets at most 9 keys compared in any half-open minute without a success |
| `RateLimit.RecoveryBoundIsAttained` | internal/operator/recovery.go:13-44 | There is a sequence of attempts with 9 wrong keys compared in a half-open minute |
| `RateLimit.RecoveryAnswersExactly` | internal/operator/recovery.go:13-44 | A recovery key is compared unless five keys of that remote were compared in the last minute since its last success, and then the answer is whether it matches |
| `Shell.QuoteRoundTrip` | internal/drivers/debian13/preseed.go:199-201 | The shell reads every quoted value as exactly one word, the value (sections 2.2.2 and 2.2.3 of the POSIX.1-2017 Shell Command Language) |
| `Shell.RedirectedEcho` | internal/drivers/debian13/preseed.go:138-143 | A rendered echo is read as echo, the value, the operator and the path, whatever they contain |
| `Shell.SplitJoinedCommands` | internal/drivers/debian13/preseed.go:196 | Splitting joined closed commands at unquoted separators gives them back |
| `Preseed.RenderLateCommand` | internal/drivers/debian13/preseed.go:126-197 | Renders the command list, or fails exactly when a key is unparsable |
| `Preseed.LateCommandSplits` | internal/drivers/debian13/preseed.go:126-197 | Splitting the rendered late command gives back exactly the command list, whatever the keys are |
| `LateCommand.LateCommandWrites` | internal/drivers/debian13/preseed.go:126-197 | When the shell reads and runs the text, whatever the keys are, the file of authorized keys holds exactly the type and payload of every key in order, the sudoers, ssh daemon and update files hold exactly their lines, and no other file but the log is written |
| `Preseed.SeedPackages` | internal/drivers/debian13/preseed.go:109-124 | The base packages and those of the profile, sorted, each once |
| `Preseed.SortedIsUnique` | internal/drivers/debian13/preseed.go:119-123 | There is one such list, so the order in the profile does not matter |
| `Preseed.RenderPreseed` | internal/drivers/debian13/preseed.go:47-96 | Writes every directive with its newline, in order |
| `Preseed.RenderSeed` | internal/drivers/debian13/preseed.go:40-107 | The whole content for a valid profile and a disk, refused exactly when it exceeds the size of a bundle |
| `Preseed.PreseedSplitsExactly` | internal/drivers/debian13/preseed.go:47-96 | The preseed splits on newline into exactly its directives if and only if the full name has no newline |
| `Preseed.QuestionsAreAnswered` | internal/drivers/debian13/preseed.go:47-96 | Every question that the profile decides is in its place and is answered with that field |
| `Preseed.FullNameMayEndTheLine` | internal/profile/model.go:57-60 | Validation accepts every acceptable full name with a newline behind it |
| `Preseed.AcceptedBreaksAreOutside` | internal/profile/model.go:57-60 | And nowhere else: a line break in an accepted full name has nothing but white space on one side |
| `Percent.PathRoundTrip` | internal/drivers/debian13/artifacts.go:100 | Escaping a path segment and decoding it gives its bytes back (section 2.1 of RFC 3986) |
| `Percent.EscapedIsOpaque` | internal/drivers/debian13/artifacts.go:100 | An escaped segment holds no slash, question mark or number sign |
| `Percent.UnreservedStays` | internal/drivers/debian13/artifacts.go:100 | The unreserved characters are not escaped (section 2.3 of RFC 3986) |
| `Canonical.Base64RoundTrip` | internal/boottrust/model.go:113 | Unpadded base64url decodes to the bytes it was made from (section 5 of RFC 4648) |
| `Canonical.HexInjective` | internal/telemetryauth/auth.go:26-34 | Hexadecimal digests are equal only for equal bytes |
| `Canonical.TelemetryEqualIff` | internal/telemetryauth/auth.go:19-36 | Two requests have the same signed form if and only if key, time and digest agree and method and path agree up to the border between them |
| `Canonical.TelemetryUniquelyDecodable` | internal/telemetryauth/auth.go:19-36 | For methods without a newline equal signed forms mean equal normalised requests, whatever the path holds |
| `Canonical.NewlineInMethodIsAmbiguous` | internal/telemetryauth/auth.go:19-36 | With a newline in the method two different requests share a signed form |
| `Canonical.SignedFormIsRead` | internal/telemetryauth/auth.go:19-36 | Where nothing has a newline, the lines of the signed form are the version, the upper-cased method, the path, the key, the time and the digest |
| `Canonical.SignableExactly` | internal/telemetryauth/auth.go:19-36 | There is a signed form exactly for a method, a rooted path, a key and a positive time |
| `Canonical.ChallengeUniquelyDecodable` | internal/boottrust/model.go:103-116 | Equal challenge forms mean equal IDs, fingerprint and nonce |
| `Canonical.ChallengeFormIsRead` | internal/boottrust/model.go:103-116 | The lines of a signed challenge are the version, the four names and the nonce |
| `Redaction.RedactLogContent` | internal/telemetry/model.go:69-79 | Overwrites the sensitive lines in place; no line of the result is sensitive and every other line is unchanged |
| `Redaction.RedactionIsExact` | internal/telemetry/model.go:69-103 | The number of lines is kept, and a line is unchanged if and only if it was not sensitive |
| `Redaction.RedactionIsIdempotent` | internal/telemetry/model.go:69-79 | Redacting twice is redacting once |
| `Release.ScanRelease` | internal/drivers/debian13/artifacts.go:193-227 | The scan finds the last version, codename and current entry, and exactly the versioned manifests of the SHA256 section |
| `Release.LinesAreScanned` | internal/drivers/debian13/artifacts.go:193-227 | A text of lines is scanned as these lines, with or without carriage returns |
| `Release.MatchVersion` | internal/drivers/debian13/artifacts.go:234-245 | The one version that matches the current entry, or none if none or several do |
| `Release.ParseRelease` | internal/drivers/debian13/artifacts.go:180-252 | Succeeds exactly on the texts that describe a release, with what they describe |
| `Release.DescriptionIsUnique` | internal/drivers/debian13/artifacts.go:180-252 | A text describes at most one release |
| `Release.EntryIsRead` | internal/drivers/debian13/artifacts.go:210-226 | An entry with a valid digest, size and path is read as these |
| `Release.EntryIsValid` | internal/drivers/debian13/artifacts.go:204-212 | What is read as an entry has a SHA-256 digest in lower case and a positive size |
| `Release.VersionIsRead` | internal/drivers/debian13/artifacts.go:217-226 | Every version without a slash is found in its path |
| `Release.ParseChecksums` | internal/drivers/debian13/artifacts.go:254-275 | Succeeds exactly on well-formed manifests without repeated paths, with exactly what they list |
| `Release.ChecksumIsRead` | internal/drivers/debian13/artifacts.go:254-275 | A checksum line with a valid digest is read as that and its path, without the leading dot |
| `Release.FetchArtifact` | internal/drivers/debian13/artifacts.go:148-171 | What it returns has the listed digest, and its content was fetched from its source URL and verified |
| `Release.Resolve` | internal/drivers/debian13/artifacts.go:85-146 | Whatever it returns passes the driver's artifact checks, and is anchored from the verified release through the manifest to the fetched content |
| `Release.RequiredArtifact` | internal/drivers/debian13/boot.go:127-143 | The one artifact of that name, if its provenance is Debian trixie |
| `Release.ValidateArtifacts` | internal/drivers/debian13/boot.go:34-76 | Accepts exactly one kernel and one initrd, and under the current contract one shim, of one version and provenance, each from its place on the mirror, and nothing else |
| `Release.AcceptedArePinned` | internal/drivers/debian13/boot.go:34-76 | All artifacts that are accepted have one version and one provenance, from Debian trixie, and different names out of the two or three |
| `Release.PinnedSourceFits` | internal/drivers/debian13/boot.go:145-158 | The resolver's source URL decodes to the path that the driver expects, however the version is spelled |
| `Release.PlainSourceFitsExactly` | internal/drivers/debian13/boot.go:145-158 | A source of nothing but a host and a path fits if and only if the host is Debian's and the path is the expected one, as spelled or as decoded |
| `Release.NoUserFits` | internal/drivers/debian13/boot.go:145-158 | A source that names a user never fits |
| `Release.LiteralSourceFits` | internal/drivers/debian13/boot.go:145-158 | A source that is spelled as the driver spells it fits too, even where its version would decode to something else |
| `Release.NoFragmentFits` | internal/drivers/debian13/boot.go:145-158 | A source with a fragment never fits |
| `OperatorUsers.AccountStore.ResolveOperatorUser` | internal/store/operator_users.go:25-105 | Finds the user of an external identity or creates one under review |
| `OperatorUsers.AccountStore.ClaimInitialAdmin` | internal/store/operator_users.go:184-219 | Makes a user under review the first administrator |
| `OperatorUsers.AccountStore.ApproveOperatorUser` | internal/store/operator_users.go:221-252 | Approves exactly a user under review with exactly the requested role, and changes no other user |
| `OperatorUsers.AccountStore.BlockOperatorUser` | internal/store/operator_users.go:254-288 | Blocks a user, but not the last administrator |
| `OperatorUsers.AccountStore.SaveOperatorCredential` | internal/store/operator_users.go:290-330 | Stores a passkey and, on enrollment, activates the user |
| `OperatorUsers.SaveSound` | internal/store/operator_users.go:290-330 | Saving keeps the invariant, and the schema refuses it exactly when another user has the passkey for that relying party |
| `OperatorUsers.ResolvesExactly` | internal/store/operator_users.go:25-105 | An identity is accepted exactly when its trimmed parts are nonempty, short enough and without control characters; it is resolved to the user who has it, unchanged, or to a new one under review without a role |
| `OperatorUsers.ClaimsExactly` | internal/store/operator_users.go:184-219 | The claim succeeds exactly for a user under review while nobody is an administrator who is not blocked, and changes the role and status of that user alone |
| `OperatorUsers.BlocksExactly` | internal/store/operator_users.go:254-288 | A block succeeds exactly for a user who is not the only administrator left, and changes the status alone |
| `OperatorUsers.RoleWasGiven` | internal/store/operator_users.go:184-252 | In every run a user has a role only if it was given while the user was under review: administrator by the claim or by an approval as administrator, operator by an approval as operator |
| `OperatorUsers.RoleStays` | internal/store/operator_users.go:184-252 | A role once given is the same over every continuation |
| `OperatorUsers.AdministratorRemains` | internal/store/operator_users.go:254-288 | Once there is an administrator who is not blocked, every continuation of the run has one |
| `OperatorUsers.ClaimedAtMostOnce` | internal/store/operator_users.go:184-219 | In every run the initial administrator is claimed at most once |
| `OperatorUsers.BlockedIsFinal` | internal/store/operator_users.go:254-288 | A blocked user stays blocked over every continuation |
| `OperatorUsers.ActiveIsEquipped` | internal/store/operator_users.go:290-330 | In every run an active user has a role and a stored passkey |

## Left out

- HTTP routing, JSON, status codes, headers, logging, the user interface, sessions, cookies and CSRF tokens (issueSession, Session, Logout): kept are the store calls that a handler makes, and their order.
- The `events` audit table, nicknames, listings and other reads that feed the user interface.
- IssueLifecycleCredential: nothing in the program but its tests calls it; credentials come from completed challenges.
- SQLite itself: transactions over the single connection are atomic. What is not in a transaction is not: authentication is a read and a later update.
- CHECK clauses over enumerations are datatypes, and those over the length of hashes and nonces hold by the free terms.
- RSA, OAEP, SHA-256, HMAC, TPM and WebAuthn are free terms; parsing of keys and the rendering of identifiers as text are parameters.
- A signed telemetry request is not required to name the path and key of the report it carries, so the runs include more than the handlers allow.
- Observations enter already parsed: canonical identifiers or none, Secure Boot evidence or none. Installation specs enter with the fields that the store reads again and one flag for the field checks.
- Lengths are counted in characters, where the program counts bytes; descriptors are counted in UTF-8 bytes.
- Trimming of identifiers and keys at the store's entry, and the allocation of request identifiers.
- The log buffer's sequence counter does not wrap around at 64 bits, and bytes.TrimSpace is a parameter of which nothing is assumed.
- LogUpload: the syslog is a text that only grows, client times never repeat and only the reporter uploads chunks for its installation (the one chunk that the first boot adds comes after the daemon is gone); a read that cuts a multi-byte character is not modelled.
- LogStops and QueueStops ask what some continuation can do, so passing obstacles are not in their conditions: a clock that is off by more than the allowed skew, a server that does not answer, a disk that is full for a while. The server's own clock does not go backwards.
- EventQueue: what is left is written in one step after the truncation, so a half-written line and the failure to decode it are left out. Nobody else reports under keys of the queue for that installation; what others do report is a parameter.
- Evidence: the order in which overlapping passes interleave on the queue; kept is how often each event is queued.
- State files are replaced by renaming, so each replacement is one step.
- The daemon's loop, the command line that queues events by hand, and the first-boot finalizer: operating-system actions.
- RenderBoot, the iPXE script and its arguments, the artifact loader's cache and the Secure Boot asset check.
- gpgv and network fetches are functions that may answer anything.
- Release.ValidateArtifacts: the checks of the other spec fields.
- Release.ParsePlainUrl: the URL reader covers https URLs without ports or escapes in the host; where EscapedPath would encode an unencoded path anew, the model compares the text as it stands.
- Regular expressions are character classes, and profile fields keep the class that the rendering depends on.
- OperatorUsers.AccountStore.SaveOperatorCredential: timestamps and the passkey's payload are left out, and approval times and actors of users likewise.
