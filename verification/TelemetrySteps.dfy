/** Lifecycle events and log chunks: what an append keeps, and what a repeated append returns. */
module TelemetrySteps {
  import opened Prelude
  import opened Text
  import opened Lifecycle
  import opened Records
  import opened Schema
  import opened Transactions
  import opened StoreInvariant
  import opened StoreSteps
  import Redaction

  // ---------------------------------------------------------------------------
  // Credentials that are used or revoked
  // ---------------------------------------------------------------------------

  /** The same rows, each with the same secret and the same lifetime, and no revocation undone. */
  ghost predicate SameCredentials(a: map<Id, Credential>, b: map<Id, Credential>) {
    && (forall i :: i in a <==> i in b)
    && forall i | i in a :: CredentialEvolves(a[i], b[i])
  }

  lemma {:induction false} CredentialsTrust(db: Db, after: map<Id, Credential>)
    requires TrustSound(db.challenges, db.credentials, db.assignments.Keys, db.specs)
    requires SameCredentials(db.credentials, after)
    ensures TrustSound(db.challenges, after, db.assignments.Keys, db.specs)
  {
    hide UsedFor;
  }

  lemma {:induction false} CredentialsHistories(db: Db, after: map<Id, Credential>)
    requires Histories(db.events, db.specs.Keys, db.assignments.Keys, db.credentials)
    requires SameCredentials(db.credentials, after)
    ensures Histories(db.events, db.specs.Keys, db.assignments.Keys, after)
  {
    hide History;
    forall j | j in db.events
      ensures History(j, db.events[j]) && Coupled(j, db.events[j], db.assignments.Keys, after)
    {
      assert Coupled(j, db.events[j], db.assignments.Keys, db.credentials);
    }
  }

  lemma {:induction false} CredentialsStep(db: Db, after: map<Id, Credential>)
    requires Inv(db) && SameCredentials(db.credentials, after)
    ensures Inv(db.(credentials := after)) && Evolves(db, db.(credentials := after))
  {
    hide Histories, TrustSound, AssignmentsSound, ChallengesSound, KeysSound, Logs, IdsDrawn, SpecsOwned;
    CredentialsTrust(db, after);
    CredentialsHistories(db, after);
  }

  lemma {:induction false} RevokedNowStep(db: Db, i: Id, now: Instant)
    requires Inv(db)
    ensures Inv(RevokedNow(db, i, now)) && Evolves(db, RevokedNow(db, i, now))
    ensures i in db.credentials ==> i in RevokedNow(db, i, now).credentials && RevokedNow(db, i, now).credentials[i].revokedAt != 0
  {
    hide Inv, Evolves;
    if i in db.credentials && db.credentials[i].revokedAt == 0 {
      CredentialsStep(db, db.credentials[i := db.credentials[i].(revokedAt := now)]);
    } else {
      EvolvesStays(db);
    }
  }

  lemma {:induction false} RevokeCredentialIsSound(db: Db, i: Id, actor: string, now: Instant)
    requires Inv(db)
    ensures Sound(db, RevokeCredential(db, i, actor, now)) && RevokeCredential(db, i, actor, now).result != Err(StorageFailure)
  {
    hide Inv, Evolves;
    RevokedNowStep(db, i, now);
    EvolvesStays(db);
  }

  /** Noting the last use of a credential, even one that has been deleted or belongs to another installation by now. */
  lemma {:induction false} TouchedStep(db: Db, touch: Touch, now: Instant)
    requires Inv(db)
    ensures Inv(Touched(db, touch, now)) && Evolves(db, Touched(db, touch, now))
  {
    hide Inv, Evolves;
    CredentialsStep(db, Touched(db, touch, now).credentials);
  }

  // ---------------------------------------------------------------------------
  // Lifecycle events
  // ---------------------------------------------------------------------------

  ghost function WithEvent(db: Db, i: Id, e: Event): Db
    requires i in db.events
  {
    db.(events := db.events[i := db.events[i] + [e]])
  }

  /** Who may append: the server for an assigned installation, a client for one whose credential it has used. */
  ghost predicate Entitled(db: Db, i: Id, source: Source) {
    i in db.specs ==> i in db.assignments && (source == Server || i in db.credentials)
  }

  lemma {:induction false} EventKeeps(db: Db, i: Id, e: Event)
    requires Inv(db) && i in db.specs && i in db.events && Follows(db.events[i], e) && Entitled(db, i, e.report.source)
    requires Terminal(e.report.stage) && i in db.credentials ==> db.credentials[i].revokedAt != 0
    ensures Inv(WithEvent(db, i, e)) && Evolves(db, WithEvent(db, i, e))
  {
    hide Histories, TrustSound, AssignmentsSound, ChallengesSound, KeysSound, Logs, IdsDrawn, SpecsOwned;
    HistoriesGrow(db.events, db.specs.Keys, db.assignments.Keys, db.credentials, i, e, db.assignments.Keys, db.credentials);
  }

  lemma {:induction false} CurrentIsLast(db: Db, i: Id)
    requires Histories(db.events, db.specs.Keys, db.assignments.Keys, db.credentials) && i in db.specs
    ensures i in db.events && db.events[i] != [] && EventsOf(db, i) == db.events[i]
    ensures CurrentStage(db, i) == Some(Last(db.events[i]))
  {
    assert History(i, db.events[i]);
  }

  /** The state after a new event: a terminal stage also revokes the credential. */
  ghost function Accepted(db: Db, i: Id, e: Event, now: Instant): Db
    requires i in db.events
  {
    if Terminal(e.report.stage) then RevokedNow(WithEvent(db, i, e), i, now) else WithEvent(db, i, e)
  }

  /** The three answers of AppendLifecycleEvent to a well-formed report for an existing installation. */
  lemma {:induction false} AppendEventCases(db: Db, i: Id, report: Report, requestId: string, now: Instant)
    requires Histories(db.events, db.specs.Keys, db.assignments.Keys, db.credentials)
    requires ValidReport(report) && i in db.specs
    ensures i in db.events
    ensures var tx, found := AppendEvent(db, i, report, requestId, now), FindEvent(db.events[i], report.key);
      var e := Event(report, now, requestId);
      if found.Some? then tx == Tx(db, if found.value.report == report then Ok((found.value, true)) else Err(TelemetryConflict))
      else if Follows(db.events[i], e) then tx == Tx(Accepted(db, i, e, now), Ok((e, false)))
      else tx == Tx(db, Err(TelemetryConflict))
  {
    CurrentIsLast(db, i);
    hide Histories, FindEvent, ValidReport;
    var found, e := FindEvent(db.events[i], report.key), Event(report, now, requestId);
    if found.None? {
      assert SourceAllowed(report.stage, report.source) by { ValidReportSource(report); }
    }
  }

  lemma {:induction false} ValidReportSource(report: Report)
    requires ValidReport(report)
    ensures SourceAllowed(report.stage, report.source)
  {
  }

  lemma {:induction false} AcceptedKeeps(db: Db, i: Id, e: Event, now: Instant)
    requires Inv(db) && i in db.specs && i in db.events && Follows(db.events[i], e) && Entitled(db, i, e.report.source)
    ensures Inv(Accepted(db, i, e, now)) && Evolves(db, Accepted(db, i, e, now))
  {
    if Terminal(e.report.stage) {
      RevokedNowStep(db, i, now);
      var revoked := RevokedNow(db, i, now);
      AcceptedRevoked(db, i, e, now);
      EventKeeps(revoked, i, e);
      EvolvesThrough(db, revoked, WithEvent(revoked, i, e));
    } else {
      EventKeeps(db, i, e);
    }
  }

  lemma {:induction false} AcceptedRevoked(db: Db, i: Id, e: Event, now: Instant)
    requires i in db.events && Terminal(e.report.stage)
    ensures var revoked := RevokedNow(db, i, now);
      revoked.events == db.events && Accepted(db, i, e, now) == WithEvent(revoked, i, e)
      && revoked.credentials.Keys == db.credentials.Keys && revoked.specs == db.specs && revoked.assignments == db.assignments
  {
    if i in db.credentials && db.credentials[i].revokedAt == 0 {
      assert RevokedNow(db, i, now).credentials.Keys == db.credentials.Keys;
      assert Accepted(db, i, e, now) == WithEvent(RevokedNow(db, i, now), i, e);
    }
  }

  lemma {:induction false} AppendEventIsSound(db: Db, i: Id, report: Report, requestId: string, now: Instant)
    requires Inv(db) && Entitled(db, i, report.source)
    ensures Sound(db, AppendEvent(db, i, report, requestId, now))
    ensures AppendEvent(db, i, report, requestId, now).result != Err(StorageFailure)
  {
    EvolvesStays(db);
    if ValidReport(report) && i in db.specs {
      hide Evolves, Histories, TrustSound, AssignmentsSound, ChallengesSound, KeysSound, Logs, IdsDrawn, SpecsOwned;
      hide FindEvent, ValidReport, Follows, AppendEvent, Accepted;
      AppendEventCases(db, i, report, requestId, now);
      var e := Event(report, now, requestId);
      if FindEvent(db.events[i], report.key).None? && Follows(db.events[i], e) {
        AcceptedKeeps(db, i, e, now);
      }
    }
  }

  // ---------------------------------------------------------------------------
  // Repeated reports
  // ---------------------------------------------------------------------------

  lemma {:induction false} FindEventInExtension(events: seq<Event>, later: seq<Event>, key: string)
    requires events <= later && FindEvent(events, key).Some?
    ensures FindEvent(later, key) == FindEvent(events, key)
  {
    if events[0].report.key != key {
      FindEventInExtension(events[1..], later[1..], key);
    }
  }

  lemma {:induction false} FindEventLast(events: seq<Event>, e: Event)
    requires FindEvent(events, e.report.key).None?
    ensures FindEvent(events + [e], e.report.key) == Some(e)
  {
    if events == [] {
      assert events + [e] == [e];
    } else {
      assert (events + [e])[1..] == events[1..] + [e];
      FindEventLast(events[1..], e);
    }
  }

  lemma {:induction false} FirstWithKey(events: seq<Event>, key: string, k: nat)
    requires k < |events| && events[k].report.key == key
    requires forall j, l | 0 <= j < l < |events| :: events[j].report.key != events[l].report.key
    ensures FindEvent(events, key) == Some(events[k])
  {
    if k > 0 {
      FirstWithKey(events[1..], key, k - 1);
    }
  }

  lemma {:induction false} AnsweredIsValid(db: Db, i: Id, report: Report, requestId: string, now: Instant)
    requires AppendEvent(db, i, report, requestId, now).result.Ok?
    ensures ValidReport(report) && i in db.specs
  {
    hide ValidReport, FindEvent, RevokedNow;
  }

  lemma {:induction false} AcceptedStores(db: Db, i: Id, e: Event, now: Instant)
    requires i in db.events && FindEvent(db.events[i], e.report.key).None?
    ensures var b := Accepted(db, i, e, now);
      b.specs == db.specs && i in b.events && FindEvent(b.events[i], e.report.key) == Some(e)
  {
    hide FindEvent;
    FindEventLast(db.events[i], e);
  }

  lemma {:induction false} AnsweredIsStored(db: Db, i: Id, report: Report, requestId: string, now: Instant)
    requires Histories(db.events, db.specs.Keys, db.assignments.Keys, db.credentials)
    requires AppendEvent(db, i, report, requestId, now).result.Ok?
    ensures var tx := AppendEvent(db, i, report, requestId, now);
      && ValidReport(report) && tx.result.value.0.report == report
      && i in db.specs && i in tx.db.specs && i in tx.db.events
      && FindEvent(tx.db.events[i], report.key) == Some(tx.result.value.0)
  {
    AnsweredIsValid(db, i, report, requestId, now);
    hide FindEvent, ValidReport, Follows, AppendEvent, Accepted, Histories;
    AppendEventCases(db, i, report, requestId, now);
    if FindEvent(db.events[i], report.key).None? {
      AcceptedStores(db, i, Event(report, now, requestId), now);
    }
  }

  /** A report repeated at any later time returns the event it was first answered with and changes nothing. */
  lemma {:induction false} RepeatedReport(
    db: Db, i: Id, report: Report, requestId: string, now: Instant, later: Db, requestId': string, now': Instant)
    requires Inv(db) && AppendEvent(db, i, report, requestId, now).result.Ok?
    requires Evolves(AppendEvent(db, i, report, requestId, now).db, later) && i in later.specs
    ensures AppendEvent(later, i, report, requestId', now')
      == Tx(later, Ok((AppendEvent(db, i, report, requestId, now).result.value.0, true)))
  {
    AnsweredIsStored(db, i, report, requestId, now);
    RepeatedStored(AppendEvent(db, i, report, requestId, now).db, i, report, later, requestId', now');
  }

  lemma {:induction false} RepeatedStored(db: Db, i: Id, report: Report, later: Db, requestId: string, now: Instant)
    requires i in db.events && i in later.specs && Evolves(db, later) && ValidReport(report)
    requires FindEvent(db.events[i], report.key).Some? && FindEvent(db.events[i], report.key).value.report == report
    ensures AppendEvent(later, i, report, requestId, now)
      == Tx(later, Ok((FindEvent(db.events[i], report.key).value, true)))
  {
    FindEventInExtension(db.events[i], later.events[i], report.key);
    hide ValidReport, FindEvent;
  }

  /** The server's own reports are repeated by stage: once one was appended, the same key with the same stage is always
      accepted and changes nothing, and with another stage it is always a conflict, whatever happens in between. */
  lemma {:induction false} ServerAppendIsRemembered(
    db: Db, i: Id, report: Report, requestId: string, at: Time, later: Db, again: Report, requestId': string, at': Time)
    requires Inv(db) && i in db.specs && AppendServerEvent(db, i, report, requestId, at).Ok?
    requires Evolves(AppendServerEvent(db, i, report, requestId, at).value, later) && i in later.specs
    requires again.key == report.key && SourceAllowed(again.stage, Server)
    ensures AppendServerEvent(later, i, again, requestId', at')
      == if again.stage == report.stage then Ok(later) else Err(TelemetryConflict)
  {
    HistoriesHold(db);
    hide Inv, Evolves, FindEvent, SourceAllowed, CanAdvance, Histories;
    CurrentIsLast(db, i);
    var b := AppendServerEvent(db, i, report, requestId, at).value;
    ServerAppendStores(db, i, report, requestId, at);
    LaterEvents(b, later, i);
    FindEventInExtension(b.events[i], later.events[i], report.key);
  }

  lemma {:induction false} ServerAppendStores(db: Db, i: Id, report: Report, requestId: string, at: Time)
    requires i in db.events && AppendServerEvent(db, i, report, requestId, at).Ok?
    ensures var b := AppendServerEvent(db, i, report, requestId, at).value;
      && i in b.events && FindEvent(b.events[i], report.key).Some?
      && FindEvent(b.events[i], report.key).value.report.stage == report.stage
  {
    hide FindEvent, SourceAllowed, CanAdvance;
    if FindEvent(db.events[i], report.key).None? {
      FindEventLast(db.events[i], Event(report, at, requestId));
    }
  }

  /** A server report for an installation that exists is accepted exactly when it repeats one or is the next step; then
      the events remain one path with every key once, and the schema refuses nothing. */
  lemma {:induction false} ServerAppendIsExact(db: Db, i: Id, report: Report, requestId: string, at: Time)
    requires Inv(db) && i in db.specs && report.source == Server
    ensures i in db.events
    ensures var r, found := AppendServerEvent(db, i, report, requestId, at), FindEvent(db.events[i], report.key);
      && (r.Ok? <==> (if found.Some? then found.value.report.stage == report.stage && SourceAllowed(report.stage, Server)
                      else Follows(db.events[i], Event(report, at, requestId))))
      && (r.Ok? ==> i in r.value.events && History(i, r.value.events[i]) && db.events[i] <= r.value.events[i])
      && r != Err(StorageFailure)
  {
    HistoriesHold(db);
    hide Inv, FindEvent, SourceAllowed, CanAdvance, History, Histories;
    CurrentIsLast(db, i);
    HistoryHolds(db, i);
    if FindEvent(db.events[i], report.key).None? && Follows(db.events[i], Event(report, at, requestId)) {
      ServerAppends(db, i, report, requestId, at);
      HistoryGrows(i, db.events[i], Event(report, at, requestId));
    }
  }

  lemma {:induction false} HistoryHolds(db: Db, i: Id)
    requires Histories(db.events, db.specs.Keys, db.assignments.Keys, db.credentials) && i in db.events
    ensures History(i, db.events[i])
  {
    hide History, Coupled;
  }

  // ---------------------------------------------------------------------------
  // Log chunks
  // ---------------------------------------------------------------------------

  ghost function WithChunk(db: Db, i: Id, c: Chunk): Db {
    db.(chunks := db.chunks[i := ChunksOf(db, i) + [c]])
  }

  ghost predicate Continues(chunks: seq<Chunk>, c: ChunkInput) {
    && c.sequence == |chunks| + 1 && c.source != Server
    && (forall k | 0 <= k < |chunks| :: chunks[k].input.key != c.key)
    && TotalBytes(chunks) + |c.content| <= MAX_INSTALLATION_LOG
  }

  lemma {:induction false} LogGrows(chunks: seq<Chunk>, c: Chunk)
    requires Log(chunks) && Continues(chunks, c.input)
    ensures Log(chunks + [c])
  {
    assert (chunks + [c])[..|chunks|] == chunks;
  }

  /** The highest stored sequence number is the number of chunks. */
  lemma {:induction false} LastSequenceCounts(chunks: seq<Chunk>)
    requires forall k | 0 <= k < |chunks| :: chunks[k].input.sequence == k + 1
    ensures LastSequence(chunks) == |chunks|
  {
    if chunks != [] {
      LastSequenceCounts(chunks[..|chunks| - 1]);
    }
  }

  lemma {:induction false} ChunksAreLog(db: Db, i: Id)
    requires Logs(db.chunks, db.specs.Keys)
    ensures Log(ChunksOf(db, i)) && LastSequence(ChunksOf(db, i)) == |ChunksOf(db, i)|
  {
    assert Log(ChunksOf(db, i));
    LastSequenceCounts(ChunksOf(db, i));
  }

  function RedactedInput(raw: ChunkInput): ChunkInput {
    raw.(content := Redaction.Redact(raw.content))
  }

  /** The answers of AppendInstallationLogChunk to a well-formed chunk: a repetition, the next chunk, or a refusal. */
  lemma {:induction false} AppendChunkCases(db: Db, i: Id, raw: ChunkInput, requestId: string, now: Instant)
    requires Logs(db.chunks, db.specs.Keys) && ValidChunk(RedactedInput(raw)) && i in db.specs
    ensures var tx, input := AppendChunk(db, i, raw, requestId, now), RedactedInput(raw);
      var found := FindChunk(ChunksOf(db, i), input.key);
      if found.Some? then tx == Tx(db, if found.value.input == input then Ok((found.value, true)) else Err(TelemetryConflict))
      else if Continues(ChunksOf(db, i), input)
      then tx == Tx(WithChunk(db, i, Chunk(input, now, requestId)), Ok((Chunk(input, now, requestId), false)))
      else tx.db == db && (tx.result == Err(TelemetryConflict) || tx.result == Err(LogLimitExceeded))
  {
    ChunksAreLog(db, i);
    hide FindChunk, TotalBytes, LastSequence, Logs, Redaction.Redact;
  }

  lemma {:induction false} ChunkLogs(db: Db, i: Id, c: Chunk)
    requires Logs(db.chunks, db.specs.Keys) && i in db.specs && Continues(ChunksOf(db, i), c.input)
    ensures Logs(WithChunk(db, i, c).chunks, db.specs.Keys)
  {
    hide Continues, LastSequence;
    ChunksAreLog(db, i);
    LogGrows(ChunksOf(db, i), c);
    hide Log;
  }

  lemma {:induction false} ChunkKeeps(db: Db, i: Id, c: Chunk)
    requires Inv(db) && i in db.specs && Continues(ChunksOf(db, i), c.input)
    ensures Inv(WithChunk(db, i, c)) && Evolves(db, WithChunk(db, i, c))
  {
    hide Histories, TrustSound, AssignmentsSound, ChallengesSound, KeysSound, IdsDrawn, SpecsOwned, Logs, Continues;
    ChunkLogs(db, i, c);
  }

  lemma {:induction false} AppendChunkIsSound(db: Db, i: Id, raw: ChunkInput, requestId: string, now: Instant)
    requires Inv(db)
    ensures Sound(db, AppendChunk(db, i, raw, requestId, now))
    ensures AppendChunk(db, i, raw, requestId, now).result != Err(StorageFailure)
  {
    EvolvesStays(db);
    if ValidChunk(RedactedInput(raw)) && i in db.specs {
      hide Evolves, Histories, TrustSound, AssignmentsSound, ChallengesSound, KeysSound, Logs, IdsDrawn, SpecsOwned;
      hide FindChunk, ValidChunk, Continues, AppendChunk, WithChunk, Redaction.Redact;
      AppendChunkCases(db, i, raw, requestId, now);
      var input := RedactedInput(raw);
      if FindChunk(ChunksOf(db, i), input.key).None? && Continues(ChunksOf(db, i), input) {
        ChunkKeeps(db, i, Chunk(input, now, requestId));
      }
    }
  }

  lemma {:induction false} FindChunkInExtension(chunks: seq<Chunk>, later: seq<Chunk>, key: string)
    requires chunks <= later && FindChunk(chunks, key).Some?
    ensures FindChunk(later, key) == FindChunk(chunks, key)
  {
    if chunks[0].input.key != key {
      FindChunkInExtension(chunks[1..], later[1..], key);
    }
  }

  lemma {:induction false} FindChunkLast(chunks: seq<Chunk>, c: Chunk)
    requires FindChunk(chunks, c.input.key).None?
    ensures FindChunk(chunks + [c], c.input.key) == Some(c)
  {
    if chunks == [] {
      assert chunks + [c] == [c];
    } else {
      assert (chunks + [c])[1..] == chunks[1..] + [c];
      FindChunkLast(chunks[1..], c);
    }
  }

  lemma {:induction false} ChunkIsStored(db: Db, i: Id, raw: ChunkInput, requestId: string, now: Instant)
    requires Logs(db.chunks, db.specs.Keys)
    requires AppendChunk(db, i, raw, requestId, now).result.Ok?
    ensures var tx := AppendChunk(db, i, raw, requestId, now);
      && ValidChunk(RedactedInput(raw)) && tx.result.value.0.input == RedactedInput(raw)
      && i in tx.db.chunks && FindChunk(tx.db.chunks[i], raw.key) == Some(tx.result.value.0)
  {
    assert ValidChunk(RedactedInput(raw)) && i in db.specs by {
      hide FindChunk, ValidChunk, Logs, Redaction.Redact;
    }
    hide FindChunk, ValidChunk, Logs, AppendChunk, Continues, Redaction.Redact;
    AppendChunkCases(db, i, raw, requestId, now);
    if FindChunk(ChunksOf(db, i), raw.key).None? {
      FindChunkLast(ChunksOf(db, i), Chunk(RedactedInput(raw), now, requestId));
    } else {
      FindChunkNonEmpty(db, i, raw.key);
    }
  }

  lemma {:induction false} FindChunkNonEmpty(db: Db, i: Id, key: string)
    requires FindChunk(ChunksOf(db, i), key).Some?
    ensures i in db.chunks
  {
  }

  /** A chunk repeated at any later time returns the chunk it was first answered with and changes nothing. */
  lemma {:induction false} RepeatedChunk(
    db: Db, i: Id, raw: ChunkInput, requestId: string, now: Instant, later: Db, requestId': string, now': Instant)
    requires Inv(db) && AppendChunk(db, i, raw, requestId, now).result.Ok?
    requires Evolves(AppendChunk(db, i, raw, requestId, now).db, later) && i in later.specs
    ensures AppendChunk(later, i, raw, requestId', now')
      == Tx(later, Ok((AppendChunk(db, i, raw, requestId, now).result.value.0, true)))
  {
    ChunkIsStored(db, i, raw, requestId, now);
    RepeatedStoredChunk(AppendChunk(db, i, raw, requestId, now).db, i, raw, later, requestId', now');
  }

  lemma {:induction false} RepeatedStoredChunk(
    db: Db, i: Id, raw: ChunkInput, later: Db, requestId: string, now: Instant)
    requires i in db.chunks && i in later.specs && Evolves(db, later) && ValidChunk(RedactedInput(raw))
    requires FindChunk(db.chunks[i], raw.key).Some? && FindChunk(db.chunks[i], raw.key).value.input == RedactedInput(raw)
    ensures AppendChunk(later, i, raw, requestId, now)
      == Tx(later, Ok((FindChunk(db.chunks[i], raw.key).value, true)))
  {
    FindChunkInExtension(db.chunks[i], later.chunks[i], raw.key);
    hide ValidChunk, FindChunk, Redaction.Redact;
  }
}
