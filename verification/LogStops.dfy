/** When the upload of the installer's log comes to a stop: the exact condition under which any continuation at all adds
    a chunk, decided in the state itself. */
module LogStops {
  import opened Prelude
  import opened Text
  import opened Lifecycle
  import opened Records
  import opened Schema
  import opened Transactions
  import opened StoreInvariant
  import opened StoreSteps
  import opened TelemetrySteps
  import opened ControlPlane
  import opened StepsAreFaithful
  import opened TrustRuns
  import opened LogReads
  import opened LogUpload
  import opened ReporterWitness
  import Json
  import Redaction

  // ---------------------------------------------------------------------------
  // The condition
  // ---------------------------------------------------------------------------

  /** How long the next chunk may be, given what the log of the installation already holds. */
  function Allowance(total: nat): nat {
    if total >= MAX_INSTALLATION_LOG then 0
    else if MAX_INSTALLATION_LOG - total < MAX_LOG_CHUNK then MAX_INSTALLATION_LOG - total
    else MAX_LOG_CHUNK
  }

  /** The room for the text in the body of the n-th request, at a time that needs no fraction of a second. */
  function Room(n: nat): int {
    MAX_LOG_BODY - |LOG_FRAME| - 20 - |Decimal(n)|
  }

  /** The server would store the request as its next chunk. */
  ghost predicate Storable(u: Upload, q: ChunkInput) {
    && q.sequence == |u.stored| + 1 && ValidChunk(RedactedInput(q))
    && TotalBytes(ChunksOf(u.db, u.installation)) + |Redaction.Redact(q.content)| <= MAX_INSTALLATION_LOG
  }

  /** And it has authenticated it, or still can. */
  ghost predicate Receivable(u: Upload, q: ChunkInput) {
    && q in u.sent && Storable(u, q)
    && (q in u.admitted || (BodyFits(q) && Usable(u.db, u.installation, u.time)))
  }

  /** The reporter can still make such a request. */
  ghost predicate CanRead(u: Upload) {
    && u.alive && Usable(u.db, u.installation, u.time) && !Stalled(u)
    && NextReadFits(Unread(u), Allowance(TotalBytes(ChunksOf(u.db, u.installation))), Room(|u.stored| + 1))
  }

  /** What lies behind the text of the stored chunks. */
  ghost function Unread(u: Upload): string {
    if |Carried(u.stored)| <= |u.syslog| then u.syslog[|Carried(u.stored)|..] else []
  }

  ghost predicate MayStore(u: Upload) {
    u.installation in u.db.specs && (CanReceive(u) || CanRead(u))
  }

  ghost predicate CanReceive(u: Upload) {
    exists q :: Receivable(u, q)
  }

  // ---------------------------------------------------------------------------
  // Without it nothing is stored
  // ---------------------------------------------------------------------------

  /** A step that makes no new request, admits none and stores none. */
  ghost predicate Later(u: Upload, v: Upload) {
    && v.installation == u.installation && v.stored == u.stored && v.syslog == u.syslog && v.sent == u.sent
    && (forall q | q in v.admitted :: q in u.admitted)
    && (v.alive ==> u.alive) && u.time <= v.time && (Stalled(u) ==> Stalled(v))
    && Inv(v.db) && Evolves(u.db, v.db)
    && (u.installation in v.db.specs ==> ChunksOf(v.db, u.installation) == ChunksOf(u.db, u.installation))
  }

  lemma {:induction false} LaterReceivable(u: Upload, v: Upload, q: ChunkInput)
    requires v.stored == u.stored && v.installation == u.installation && Receivable(v, q)
    requires q in u.sent && (q in v.admitted ==> q in u.admitted)
    requires ChunksOf(v.db, u.installation) == ChunksOf(u.db, u.installation)
    requires Usable(v.db, u.installation, v.time) ==> Usable(u.db, u.installation, u.time)
    ensures Receivable(u, q)
  {
    hide ValidChunk, Redaction.Redact, TotalBytes, BodyFits, Usable, ChunksOf;
  }

  lemma {:induction false} LaterReads(u: Upload, v: Upload)
    requires v.stored == u.stored && v.syslog == u.syslog && v.installation == u.installation && CanRead(v)
    requires (v.alive ==> u.alive) && (Stalled(u) ==> Stalled(v))
    requires ChunksOf(v.db, u.installation) == ChunksOf(u.db, u.installation)
    requires Usable(v.db, u.installation, v.time) ==> Usable(u.db, u.installation, u.time)
    ensures CanRead(u)
  {
    hide NextReadFits, Stalled, Allowance, Room, TotalBytes, Carried, Usable, ChunksOf;
  }

  lemma {:induction false} LaterUsable(u: Upload, v: Upload)
    requires Inv(v.db) && Evolves(u.db, v.db) && Credentialed(u.db, u.installation) && u.time <= v.time
    ensures u.installation in v.db.specs ==> u.installation in u.db.specs
    ensures Usable(v.db, u.installation, v.time) ==> Usable(u.db, u.installation, u.time)
  {
    hide Inv, Evolves, Usable, Credentialed;
    LaterSpecs(u.db, v.db, u.installation);
    if Usable(v.db, u.installation, v.time) {
      UsableBefore(u.db, v.db, u.installation, u.time, v.time);
    }
  }

  lemma {:induction false} LaterStores(u: Upload, v: Upload)
    requires Credentialed(u.db, u.installation) && Later(u, v) && MayStore(v)
    ensures MayStore(u)
  {
    hide Evolves, Inv, Stalled, Credentialed, Usable, CanRead, Receivable, ChunksOf;
    LaterUsable(u, v);
    if CanRead(v) {
      LaterReads(u, v);
    } else {
      var q :| Receivable(v, q);
      ReceivableWasSent(v, q);
      LaterReceivable(u, v, q);
    }
  }

  lemma {:induction false} ReceivableWasSent(u: Upload, q: ChunkInput)
    requires Receivable(u, q)
    ensures q in u.sent && Storable(u, q) && (q in u.admitted || (BodyFits(q) && Usable(u.db, u.installation, u.time)))
  {
    hide Storable, BodyFits, Usable;
  }

  lemma {:induction false} StallStays(u: Upload, step: Step)
    requires UploadSound(u)
    ensures Stalled(u) ==> Stalled(Advance(u, step)) && Advance(u, step).stored == u.stored
  {
    hide UploadSound, Advance, Stalled;
    if Stalled(u) {
      StallIsForEver(u, step);
    }
  }

  lemma {:induction false} CarriedIsWritten(u: Upload)
    requires UploadSound(u)
    ensures Carried(u.stored) <= u.syslog
  {
    hide Inv, Credentialed, ChunksFit, NetworkFits, FilesFit, ProgressFits, Carried;
  }

  lemma {:induction false} GrowReads(u: Upload, text: string)
    requires UploadSound(u) && CanRead(Advance(u, Grow(text)))
    ensures CanRead(u)
  {
    hide UploadSound, Stalled, NextReadFits, Usable, Carried, TotalBytes, Allowance, Room, AppendChunk, OtherWork;
    var v := Advance(u, Grow(text));
    CarriedIsWritten(u);
    assert Unread(v) == Unread(u) + text;
    StallStays(u, Grow(text));
    hide Advance, Unread;
    LaterReadFits(Unread(u), text, Allowance(TotalBytes(ChunksOf(u.db, u.installation))), Room(|u.stored| + 1));
  }

  lemma {:induction false} GrowStores(u: Upload, text: string)
    requires UploadSound(u) && MayStore(Advance(u, Grow(text)))
    ensures MayStore(u)
  {
    hide UploadSound, CanRead, Receivable, Usable, ChunksOf, AppendChunk, OtherWork;
    var v := Advance(u, Grow(text));
    assert v == u.(syslog := u.syslog + text);
    hide Advance;
    if CanRead(v) {
      GrowReads(u, text);
    } else {
      var q :| Receivable(v, q);
      ReceivableWasSent(v, q);
      LaterReceivable(u, v, q);
    }
  }

  /** Text that can be taken once more was written could be taken before, when that was still to come. */
  lemma {:induction false} LaterReadFits(rest: string, text: string, cap: nat, body: int)
    requires NextReadFits(rest + text, cap, body)
    ensures NextReadFits(rest, cap, body)
  {
    hide NextReadFits, TextFits;
    SomeReadFitsExactly(rest + text, cap, body);
    SomeReadFitsExactly(rest, cap, body);
    var growth :| TextFits(FirstRead(rest + text + growth), cap, body);
    assert rest + text + growth == rest + (text + growth);
  }

  lemma {:induction false} ReadFits(rest: string, cap: nat, body: int)
    requires TextFits(FirstRead(rest), cap, body)
    ensures NextReadFits(rest, cap, body)
  {
    hide NextReadFits, TextFits;
    assert rest + [] == rest;
    SomeReadFitsExactly(rest, cap, body);
  }

  /** Where the reporter would read next, when it is level with the server. */
  lemma {:induction false} LevelOffset(u: Upload)
    requires UploadSound(u) && u.sequence == |u.stored|
    ensures u.offset == |Carried(u.stored)| <= |u.syslog|
    ensures Unread(u) == u.syslog[u.offset..] && !Stalled(u)
  {
    hide Inv, Credentialed, ChunksFit, NetworkFits, ProgressFits, Carried;
    assert u.stored[..|u.stored|] == u.stored;
  }

  lemma {:induction false} StorableText(u: Upload, q: ChunkInput)
    requires Storable(u, q) && BodyFits(q)
    ensures TextFits(q.content, Allowance(TotalBytes(ChunksOf(u.db, u.installation))), Room(|u.stored| + 1))
  {
    hide TotalBytes, Redaction.Redact, ValidKey;
  }

  lemma {:induction false} NewIsNotAdmitted(u: Upload, at: nat)
    requires UploadSound(u) && MaySend(u, at)
    ensures NextRequest(u, at) !in u.admitted
  {
    AdmittedWereSent(u);
    hide Inv, Credentialed, ChunksFit, FilesFit, ProgressFits, Carried, LogKey, Plausible;
    NotYetSent(u, at);
  }

  lemma {:induction false} SendStores(u: Upload, at: nat)
    requires UploadSound(u) && MaySend(u, at) && MayStore(Advance(u, Send(at)))
    ensures MayStore(u)
  {
    hide UploadSound, CanRead, Receivable, Usable, ChunksOf, BodyFits, NextRequest, Storable, Stalled, AppendChunk;
    hide OtherWork;
    var v, request := Advance(u, Send(at)), NextRequest(u, at);
    assert v.sent == u.sent + {request} && v.admitted == u.admitted && v.db == u.db && v.stored == u.stored;
    StallStays(u, Send(at));
    NewIsNotAdmitted(u, at);
    hide Advance;
    if CanRead(v) {
      LaterReads(u, v);
    } else {
      var q :| Receivable(v, q);
      ReceivableWasSent(v, q);
      if q in u.sent {
        LaterReceivable(u, v, q);
      } else {
        SameStorable(u, v, q);
        SentIsRead(u, at);
      }
    }
  }

  lemma {:induction false} SameStorable(u: Upload, v: Upload, q: ChunkInput)
    requires Storable(v, q) && v.stored == u.stored && v.installation == u.installation
    requires ChunksOf(v.db, u.installation) == ChunksOf(u.db, u.installation)
    ensures Storable(u, q)
  {
    hide ValidChunk, Redaction.Redact, TotalBytes, ChunksOf;
  }

  lemma {:induction false} SentIsRead(u: Upload, at: nat)
    requires UploadSound(u) && MaySend(u, at) && Storable(u, NextRequest(u, at)) && BodyFits(NextRequest(u, at))
    requires Usable(u.db, u.installation, u.time)
    ensures CanRead(u)
  {
    assert u.sequence == |u.stored|;
    LevelOffset(u);
    StorableText(u, NextRequest(u, at));
    hide UploadSound, Stalled, NextReadFits, BodyFits, Usable, TotalBytes, FirstRead, Room, Allowance, Unread;
    hide Storable, Carried;
    ReadFits(Unread(u), Allowance(TotalBytes(ChunksOf(u.db, u.installation))), Room(|u.stored| + 1));
  }

  lemma {:induction false} AdmitStores(u: Upload, request: ChunkInput, proof: Proof, now: Instant)
    requires UploadSound(u) && MayAdmit(u, request, proof, now) && Authenticated(u.db, u.installation, proof, now).Ok?
    requires MayStore(Advance(u, Admit(request, proof, now)))
    ensures MayStore(u)
  {
    hide UploadSound, CanRead, Receivable, ChunksOf, BodyFits, Stalled, Authenticated, AppendChunk, OtherWork, Storable;
    var v := Advance(u, Admit(request, proof, now));
    AcceptedIsUsable(u.db, u.installation, proof, now);
    assert Usable(u.db, u.installation, u.time);
    assert v == u.(time := now, admitted := u.admitted + multiset{request});
    StallStays(u, Admit(request, proof, now));
    hide Usable, Advance;
    if CanRead(v) {
      LaterReads(u, v);
    } else {
      var q :| Receivable(v, q);
      ReceivableWasSent(v, q);
      SameStorable(u, v, q);
      assert q in u.admitted || q == request || BodyFits(q);
      IsReceivable(u, q);
    }
  }

  lemma {:induction false} IsReceivable(u: Upload, q: ChunkInput)
    requires q in u.sent && Storable(u, q) && (q in u.admitted || (BodyFits(q) && Usable(u.db, u.installation, u.time)))
    ensures Receivable(u, q) && CanReceive(u)
  {
    hide Storable, BodyFits, Usable;
  }

  /** What the server does with an authenticated request: it stores one that is storable, and nothing else. */
  lemma {:induction false} DeliveryStores(u: Upload, request: ChunkInput, requestId: string, now: Instant)
    requires UploadSound(u) && request in u.sent
    ensures var v := Delivered(u, request, requestId, now);
      && Inv(v.db) && Evolves(u.db, v.db)
      && (u.installation in u.db.specs && Storable(u, request) <==> v.stored != u.stored)
      && (v.stored != u.stored ==> v.stored == u.stored + [request])
      && (v.stored == u.stored ==> v.db == u.db)
  {
    hide Inv, Evolves, AppendChunk, NetworkFits, FilesFit, ProgressFits, Carried, Redaction.Redact, Log, Logs;
    hide ValidChunk, FindChunk, LogKey, TotalBytes, ChunksFit;
    var i := u.installation;
    DeliveryCases(u, request, requestId, now);
    AppendErrKeeps(u.db, i, request, requestId, now);
    if i in u.db.specs && ValidChunk(RedactedInput(request)) {
      StoredLog(u.db, i);
      PlausibleRequest(u, request);
      ChunkUnderKey(ChunksOf(u.db, i), u.stored, request.sequence);
      AppendChunkCases(u.db, i, request, requestId, now);
      ContinuesExactly(u, request);
    }
  }

  lemma {:induction false} ContinuesExactly(u: Upload, request: ChunkInput)
    requires ChunksFit(ChunksOf(u.db, u.installation), u.stored) && ValidChunk(RedactedInput(request))
    requires Log(ChunksOf(u.db, u.installation)) && request.key == LogKey(request.sequence) && request.sequence >= 1
    ensures Continues(ChunksOf(u.db, u.installation), RedactedInput(request)) <==> Storable(u, request)
  {
    var chunks := ChunksOf(u.db, u.installation);
    hide Redaction.Redact, TotalBytes, LogKey, ValidKey;
    if request.sequence == |u.stored| + 1 {
      ChunkUnderKey(chunks, u.stored, request.sequence);
    }
  }

  lemma {:induction false} DeliverStores(u: Upload, request: ChunkInput, requestId: string, now: Instant)
    requires UploadSound(u) && request in u.admitted && u.time <= now
    ensures var v := Advance(u, Deliver(request, requestId, now));
      MayStore(v) || v.stored != u.stored ==> MayStore(u)
  {
    hide UploadSound, Delivered, Inv, Evolves, CanRead, Storable, Stalled, ChunksOf, Credentialed, OtherWork;
    var v := Advance(u, Deliver(request, requestId, now));
    var w := u.(time := now, admitted := u.admitted - multiset{request});
    assert v == Delivered(w, request, requestId, now);
    StallStays(u, Deliver(request, requestId, now));
    hide Advance;
    AdmittedWereSent(u);
    SoundDb(u);
    AdmissionSound(u, now, w.admitted);
    DeliveryStores(w, request, requestId, now);
    DeliveredKeeps(w, request, requestId, now);
    if v.stored == u.stored {
      if MayStore(v) {
        LaterStores(u, v);
      }
    } else {
      SameStorable(u, w, request);
      IsReceivable(u, request);
    }
  }

  lemma {:induction false} DeliveredKeeps(u: Upload, request: ChunkInput, requestId: string, now: Instant)
    ensures var v := Delivered(u, request, requestId, now);
      && v.sequence == u.sequence && v.installation == u.installation && v.syslog == u.syslog && v.sent == u.sent
      && v.admitted == u.admitted && v.alive == u.alive && v.time == u.time && v.db.specs == u.db.specs
  {
    hide AppendChunk;
    AppendChunkFrame(u.db, u.installation, request, requestId, now);
  }

  lemma {:induction false} SoundDb(u: Upload)
    requires UploadSound(u)
    ensures Inv(u.db) && Evolves(u.db, u.db) && Credentialed(u.db, u.installation)
  {
    EvolvesStays(u.db);
    hide Inv, ChunksFit, Carried, Evolves;
  }

  /** The condition holds before every step after which it holds, and before every step that stores a chunk. */
  lemma {:induction false} StepStores(u: Upload, step: Step)
    requires UploadSound(u)
    ensures MayStore(Advance(u, step)) || Advance(u, step).stored != u.stored ==> MayStore(u)
  {
    hide UploadSound, MayStore, Inv, Evolves, AppendChunk, LogKey, Stalled, Credentialed, Authenticated, Carried;
    hide BodyFits, Delivered, NextRequest, ChunksOf;
    StallStays(u, step);
    SoundDb(u);
    var v := Advance(u, step);
    match step
    case Grow(text) =>
      if MayStore(v) {
        GrowStores(u, text);
      }
    case Send(at) =>
      if MayStore(v) && MaySend(u, at) {
        SendStores(u, at);
      }
    case Admit(request, proof, now) =>
      if MayStore(v) && MayAdmit(u, request, proof, now) && Authenticated(u.db, u.installation, proof, now).Ok? {
        AdmitStores(u, request, proof, now);
      }
    case Deliver(request, requestId, now) =>
      if request in u.admitted && u.time <= now {
        DeliverStores(u, request, requestId, now);
      }
    case _ =>
      if MayStore(v) {
        LaterStores(u, v);
      }
  }

  lemma {:induction false} Unfold(u: Upload, steps: seq<Step>)
    ensures Uploads(u, steps) == if steps
      == [] then u else Advance(Uploads(u, steps[..|steps| - 1]), steps[|steps| - 1])
  {
    hide Advance;
  }

  lemma {:induction false} StaysSound(u: Upload, steps: seq<Step>)
    requires UploadSound(u)
    ensures UploadSound(Uploads(u, steps))
    decreases |steps|
  {
    hide UploadSound, Advance, Uploads;
    Unfold(u, steps);
    if steps != [] {
      StaysSound(u, steps[..|steps| - 1]);
      AdvanceSound(Uploads(u, steps[..|steps| - 1]), steps[|steps| - 1]);
    }
  }

  /** Once it does not hold it never does again, and nothing more is stored. */
  lemma {:induction false} NothingMore(u: Upload, steps: seq<Step>)
    requires UploadSound(u) && !MayStore(u)
    ensures !MayStore(Uploads(u, steps)) && Uploads(u, steps).stored == u.stored
    decreases |steps|
  {
    hide UploadSound, Advance, Uploads, MayStore;
    Unfold(u, steps);
    if steps != [] {
      NothingMore(u, steps[..|steps| - 1]);
      StaysSound(u, steps[..|steps| - 1]);
      StepStores(Uploads(u, steps[..|steps| - 1]), steps[|steps| - 1]);
    }
  }

  // ---------------------------------------------------------------------------
  // With it there is a way
  // ---------------------------------------------------------------------------

  lemma {:induction false} StorableIsStored(u: Upload, q: ChunkInput)
    requires UploadSound(u) && u.installation in u.db.specs && q in u.admitted && Storable(u, q)
    ensures var v := Advance(u, Deliver(q, "", u.time));
      v.stored == u.stored + [q] && v.sequence == u.sequence && v.installation == u.installation
        && v.db.specs == u.db.specs
  {
    hide UploadSound, Delivered, Inv, Evolves, Storable, ChunksOf, Credentialed, OtherWork;
    var w := u.(admitted := u.admitted - multiset{q});
    assert w == u.(time := u.time, admitted := w.admitted);
    assert Advance(u, Deliver(q, "", u.time)) == Delivered(w, q, "", u.time);
    hide Advance;
    AdmittedWereSent(u);
    AdmissionSound(u, u.time, w.admitted);
    SameStorable(w, u, q);
    DeliveryStores(w, q, "", u.time);
    DeliveredKeeps(w, q, "", u.time);
  }

  lemma {:induction false} ReceivableStores(u: Upload, q: ChunkInput) returns (steps: seq<Step>)
    requires UploadSound(u) && u.installation in u.db.specs && Receivable(u, q)
    ensures var v := Uploads(u, steps);
      v.stored == u.stored + [q] && v.sequence == u.sequence && v.installation == u.installation
        && v.db.specs == u.db.specs
  {
    hide UploadSound, Uploads, Inv, Storable, ChunksOf, Authenticated, AppendChunk, OtherWork;
    SoundDb(u);
    if q in u.admitted {
      steps := [Deliver(q, "", u.time)];
      hide Advance;
      StorableIsStored(u, q);
      OnlyStep(u, Deliver(q, "", u.time));
    } else {
      var proof := UsableIsAccepted(u.db, u.installation, u.time);
      hide Usable;
      var admit, deliver := Admit(q, proof, u.time), Deliver(q, "", u.time);
      var v := Advance(u, admit);
      assert v == u.(admitted := u.admitted + multiset{q});
      hide Advance;
      AdvanceSound(u, admit);
      SameStorable(v, u, q);
      StorableIsStored(v, q);
      TwoSteps(u, admit, deliver);
      steps := [admit, deliver];
    }
  }

  // --- the reporter gets level with the server ---

  /** The state files are where the server is, and nothing is in flight. */
  ghost predicate Level(u: Upload) {
    u.progress == Idle && u.sequence == |u.stored| && u.offset == |Carried(u.stored)|
  }

  ghost predicate SameServer(u: Upload, v: Upload) {
    && v.db == u.db && v.installation == u.installation && v.stored == u.stored && v.syslog == u.syslog
    && v.time == u.time && v.alive == u.alive
  }

  lemma {:induction false} WrittenIsLevel(u: Upload)
    requires UploadSound(u) && u.progress.OffsetWritten?
    ensures var v := Advance(u, WriteSequence); UploadSound(v) && Level(v) && SameServer(u, v)
  {
    WriteSequenceSound(u);
    hide Inv, ChunksFit, NetworkFits, Carried, AppendChunk, OtherWork, Authenticated;
  }

  lemma {:induction false} IdleIsLevel(u: Upload)
    requires UploadSound(u) && u.sequence == |u.stored|
    ensures var v := Advance(u, GiveUp); UploadSound(v) && Level(v) && SameServer(u, v)
  {
    GiveUpSound(u);
    LevelOffset(u);
    hide Inv, ChunksFit, NetworkFits, Carried, AppendChunk, OtherWork, Authenticated;
  }

  lemma {:induction false} AnswerIsLevel(u: Upload)
    requires UploadSound(u) && u.progress.Awaiting?
    requires u.sequence + 1 == |u.stored| && u.progress.request == u.stored[u.sequence]
    ensures var v := Advance(Advance(u, WriteOffset), WriteSequence); UploadSound(v) && Level(v) && SameServer(u, v)
  {
    hide UploadSound, Level, AppendChunk, OtherWork, Authenticated;
    WasAnswered(u);
    WriteOffsetSound(u);
    var v := Advance(u, WriteOffset);
    assert v.progress.OffsetWritten? && SameServer(u, v);
    hide Advance;
    WrittenIsLevel(v);
  }

  lemma {:induction false} WasAnswered(u: Upload)
    requires UploadSound(u)
    ensures forall k | 0 <= k < |u.stored| :: u.stored[k] in u.answered
  {
    hide Inv, Credentialed, ChunksFit, Carried, Plausible;
  }

  lemma {:induction false} StalledOr(u: Upload)
    requires UploadSound(u) && !Stalled(u)
    ensures u.sequence == |u.stored|
      || (u.sequence + 1 == |u.stored|
          && (u.progress.OffsetWritten? || (u.progress.Awaiting? && u.progress.request == u.stored[u.sequence])))
  {
    hide Inv, ChunksFit, NetworkFits, Carried;
  }

  lemma {:induction false} CatchUp(u: Upload) returns (steps: seq<Step>)
    requires UploadSound(u) && !Stalled(u)
    ensures var v := Uploads(u, steps); UploadSound(v) && Level(v) && SameServer(u, v)
  {
    hide UploadSound, Stalled, Uploads, Advance, Level, SameServer;
    StalledOr(u);
    if u.sequence == |u.stored| {
      steps := [GiveUp];
      IdleIsLevel(u);
      OnlyStep(u, GiveUp);
    } else if u.progress.OffsetWritten? {
      steps := [WriteSequence];
      WrittenIsLevel(u);
      OnlyStep(u, WriteSequence);
    } else {
      steps := [WriteOffset, WriteSequence];
      AnswerIsLevel(u);
      TwoSteps(u, WriteOffset, WriteSequence);
    }
  }

  // --- and makes a request that can be taken ---

  lemma {:induction false} ChunksHoldText(chunks: seq<Chunk>)
    requires forall k | 0 <= k < |chunks| :: |chunks[k].input.content| > 0
    ensures |chunks| <= TotalBytes(chunks)
  {
    if chunks != [] {
      ChunksHoldText(chunks[..|chunks| - 1]);
    }
  }

  lemma {:induction false} DecimalOfNumber(n: nat)
    requires n <= MAX_INSTALLATION_LOG + 1
    ensures |Decimal(n)| <= 8
  {
    assert Pow10(4) == 10_000;
    assert Pow10(8) == 10_000 * Pow10(4);
    DecimalSize(n, 8);
  }

  lemma {:induction false} NumberedKeyIsValid(n: nat)
    requires n <= MAX_INSTALLATION_LOG + 1
    ensures ValidKey(LogKey(n))
  {
    hide Decimal;
    DecimalOfNumber(n);
    var prefix := "reporter:log:";
    forall k | 0 <= k < |LogKey(n)| ensures KeyChar(LogKey(n)[k]) {
      if k < |prefix| {
        assert LogKey(n)[k] == prefix[k];
      } else {
        assert LogKey(n)[k] == Decimal(n)[k - |prefix|];
      }
    }
  }

  lemma {:induction false} FewChunks(u: Upload)
    requires UploadSound(u) && u.installation in u.db.specs
    ensures |u.stored| <= MAX_INSTALLATION_LOG && TotalBytes(ChunksOf(u.db, u.installation)) <= MAX_INSTALLATION_LOG
  {
    hide Inv, NetworkFits, FilesFit, ProgressFits, Carried, Credentialed, Redaction.Redact, LogKey, ValidKey;
    hide TotalBytes;
    StoredLog(u.db, u.installation);
    ChunksHoldText(ChunksOf(u.db, u.installation));
  }

  lemma {:induction false} TextMakesStorable(u: Upload, q: ChunkInput)
    requires UploadSound(u) && u.installation in u.db.specs
    requires q.sequence == |u.stored| + 1 && q.source == Installer && q.key == LogKey(|u.stored| + 1)
    requires q.clientAt % Json.NANOSECONDS == 0
    requires TextFits(q.content, Allowance(TotalBytes(ChunksOf(u.db, u.installation))), Room(|u.stored| + 1))
    ensures Storable(u, q) && BodyFits(q)
  {
    hide UploadSound, TotalBytes, Redaction.Redact, ValidKey, LogKey, ChunksOf, Decimal;
    FewChunks(u);
    NumberedKeyIsValid(|u.stored| + 1);
  }

  lemma {:induction false} NothingIsRedactedToNothing()
    ensures Redaction.Redact([]) == []
  {
    assert Split([], '\n') == [[]];
    ShortIsHarmless([]);
    hide Redaction.Sensitive;
  }

  lemma {:induction false} FittingTextIsText(t: string, cap: nat, body: int)
    requires TextFits(t, cap, body)
    ensures t != []
  {
    hide Redaction.Redact;
    NothingIsRedactedToNothing();
  }

  lemma {:induction false} LevelSends(u: Upload, cap: nat, body: int, growth: string, at: nat)
    requires UploadSound(u) && Level(u) && u.alive && u.clock < at && TextFits(FirstRead(Unread(u) + growth), cap, body)
    ensures var w := Advance(u, Grow(growth));
      && UploadSound(w) && MaySend(w, at)
      && NextRequest(w, at)
           == ChunkInput(|u.stored| + 1, Installer, at, LogKey(|u.stored| + 1), FirstRead(Unread(u) + growth))
  {
    hide UploadSound, Carried, TextFits, AppendChunk, OtherWork, Authenticated, LogKey, FirstRead;
    LevelOffset(u);
    var w := Advance(u, Grow(growth));
    assert w == u.(syslog := u.syslog + growth);
    hide Advance;
    GrowSound(u, growth);
    assert w.syslog[w.offset..] == Unread(u) + growth;
    FittingTextIsText(FirstRead(Unread(u) + growth), cap, body);
    assert Unread(u) + growth != [];
  }

  lemma {:induction false} SentIsReceivable(u: Upload, at: nat)
    requires UploadSound(u) && MaySend(u, at) && Storable(u, NextRequest(u, at)) && BodyFits(NextRequest(u, at))
    requires Usable(u.db, u.installation, u.time)
    ensures var v := Advance(u, Send(at));
      Receivable(v, NextRequest(u, at)) && v.stored == u.stored && v.sequence == u.sequence
      && v.db == u.db && v.installation == u.installation
  {
    hide UploadSound, Storable, BodyFits, NextRequest, Usable, AppendChunk, OtherWork, Authenticated, ChunksOf;
    var v := Advance(u, Send(at));
    assert v.sent == u.sent + {NextRequest(u, at)};
    SameStorable(v, u, NextRequest(u, at));
  }

  lemma {:induction false} ReadStores(u: Upload) returns (steps: seq<Step>)
    requires UploadSound(u) && u.installation in u.db.specs && CanRead(u)
    ensures var v := Uploads(u, steps);
      |v.stored| == |u.stored| + 1 && v.sequence == |u.stored| && v.installation == u.installation
        && v.db.specs == u.db.specs
  {
    hide UploadSound, Stalled, Uploads, Advance, NextReadFits, TextFits, TotalBytes, ChunksOf, Usable, FirstRead;
    hide Allowance;
    hide Room, Carried, Storable, BodyFits;
    var before := CatchUp(u);
    var v := Uploads(u, before);
    assert Unread(v) == Unread(u);
    var cap, body := Allowance(TotalBytes(ChunksOf(u.db, u.installation))), Room(|u.stored| + 1);
    SomeReadFitsExactly(Unread(u), cap, body);
    var growth :| TextFits(FirstRead(Unread(u) + growth), cap, body);
    var at := (v.clock + 1) * Json.NANOSECONDS;
    LevelSends(v, cap, body, growth, at);
    var w, request := Advance(v, Grow(growth)), NextRequest(Advance(v, Grow(growth)), at);
    GrowKeeps(v, growth);
    TextMakesStorable(w, request);
    SentIsReceivable(w, at);
    AdvanceSound(w, Send(at));
    var after := ReceivableStores(Advance(w, Send(at)), request);
    TwoSteps(v, Grow(growth), Send(at));
    MoreSteps(u, before, [Grow(growth), Send(at)]);
    MoreSteps(u, before + [Grow(growth), Send(at)], after);
    steps := before + [Grow(growth), Send(at)] + after;
  }

  lemma {:induction false} GrowKeeps(u: Upload, text: string)
    ensures SameServer(u.(syslog := u.syslog + text), Advance(u, Grow(text)))
      && Advance(u, Grow(text)).sequence == u.sequence
  {
    hide AppendChunk, OtherWork, Authenticated;
  }

  /** The exact condition. From any sound state some continuation stores another chunk if and only if the installation
      exists and either a request is on its way that the server would take, or the reporter is not stalled, its process
      is alive, its credential can be used, and what it would read next can be taken. */
  lemma {:induction false} StoresAnotherExactly(u: Upload)
    requires UploadSound(u)
    ensures (exists steps :: |Uploads(u, steps).stored| > |u.stored|) <==> MayStore(u)
  {
    hide UploadSound, Uploads, CanRead, Receivable;
    if steps :| |Uploads(u, steps).stored| > |u.stored| {
      if !MayStore(u) {
        NothingMore(u, steps);
        assert false;
      }
    }
    if MayStore(u) {
      if CanRead(u) {
        var steps := ReadStores(u);
      } else {
        var q :| Receivable(u, q);
        var steps := ReceivableStores(u, q);
      }
    }
  }

  // ---------------------------------------------------------------------------
  // Ways to stop
  // ---------------------------------------------------------------------------

  /** Wherever the reporter can go on, one lost answer is enough to stop it for good. */
  lemma {:induction false} StallIsReachable(u: Upload) returns (steps: seq<Step>)
    requires UploadSound(u) && u.installation in u.db.specs && CanRead(u)
    ensures var v := Uploads(u, steps);
      Stalled(v) && |v.stored| == |u.stored| + 1 && v.installation == u.installation && v.db.specs == u.db.specs
  {
    hide UploadSound, Uploads, CanRead, AppendChunk, OtherWork, Authenticated;
    var before := ReadStores(u);
    OneStepMore(u, before, GiveUp);
    steps := before + [GiveUp];
  }

  /** From the start a first chunk can be stored exactly while the credential can be used and the first read, as far as
      it is written, can be taken. */
  lemma {:induction false} FirstChunkExactly(u: Upload)
    requires AtStart(u)
    ensures (exists steps :: Uploads(u, steps).stored != [])
      <==> Usable(u.db, u.installation, u.time) && NextReadFits(u.syslog, MAX_LOG_CHUNK, Room(1))
  {
    hide UploadSound, Uploads, NextReadFits, Usable, Inv, Credentialed;
    StartSound(u);
    StoresAnotherExactly(u);
    StartReads(u);
    if Usable(u.db, u.installation, u.time) {
      UsableHasSpec(u);
    }
    if steps :| Uploads(u, steps).stored != [] {
      assert |Uploads(u, steps).stored| > |u.stored|;
    }
    if steps :| |Uploads(u, steps).stored| > |u.stored| {
      assert Uploads(u, steps).stored != [];
    }
  }

  lemma {:induction false} UsableHasSpec(u: Upload)
    requires Inv(u.db) && Usable(u.db, u.installation, u.time)
    ensures u.installation in u.db.specs
  {
    hide Inv;
    CredentialHasSpec(u.db, u.installation);
  }

  lemma {:induction false} StartReads(u: Upload)
    requires AtStart(u)
    ensures !CanReceive(u)
    ensures CanRead(u) <==> Usable(u.db, u.installation, u.time) && NextReadFits(u.syslog, MAX_LOG_CHUNK, Room(1))
  {
    hide Inv, Credentialed, Usable, NextReadFits, Room;
    assert u.syslog[0..] == u.syslog;
  }

  lemma {:induction false} OnlyNul(s: string)
    requires forall k | 0 <= k < |s| :: s[k] == Redaction.NUL
    ensures Redaction.WithoutNul(s) == []
    decreases |s|
  {
    if s != [] {
      OnlyNul(s[1..]);
    }
  }

  /** A log that begins with a full read of NULs is never uploaded: the redaction is empty, and the same bytes are read
      again for ever. */
  lemma {:induction false} NulsStopTheUpload(u: Upload, steps: seq<Step>)
    requires AtStart(u) && |u.syslog| >= MAX_READ && forall k | 0 <= k < MAX_READ :: u.syslog[k] == Redaction.NUL
    ensures Uploads(u, steps).stored == []
  {
    hide AtStart, Uploads, Usable, Room, Redaction.Redact, Redaction.WithoutNul;
    OnlyNul(u.syslog[..MAX_READ]);
    EmptyRedaction(u.syslog[..MAX_READ]);
    FirstChunkExactly(u);
  }

  lemma {:induction false} EmptyRedaction(s: string)
    requires Redaction.WithoutNul(s) == []
    ensures Redaction.Redact(s) == []
  {
    hide Redaction.WithoutNul;
    NothingIsRedactedToNothing();
    assert Redaction.WithoutNul([]) == [];
  }

  function Repeated(line: string, n: nat): string {
    if n == 0 then [] else line + ['\n'] + Repeated(line, n - 1)
  }

  lemma {:induction false} RepeatedSize(line: string, n: nat)
    ensures |Repeated(line, n)| == n * (|line| + 1)
  {
    if n > 0 {
      RepeatedSize(line, n - 1);
      assert n * (|line| + 1) == (|line| + 1) + (n - 1) * (|line| + 1);
    }
  }

  /** Every sensitive line takes forty characters of the redaction, however short it was. */
  lemma {:induction false} SensitiveLinesGrow(line: string, n: nat, rest: string)
    requires Redaction.Sensitive(line) && Redaction.NUL !in line && '\n' !in line
    ensures |Redaction.Redact(Repeated(line, n) + rest)| >= 40 * n
  {
    hide Redaction.Redact, Redaction.Sensitive, Redaction.WithoutNul, Redaction.RedactLine;
    if n > 0 {
      var behind := Repeated(line, n - 1) + rest;
      SensitiveLinesGrow(line, n - 1, rest);
      assert Repeated(line, n) + rest == line + ['\n'] + behind;
      WithoutNulConcat(line + ['\n'], behind);
      NothingToStrip(line + ['\n']);
      SplitAt(line, Redaction.WithoutNul(behind), '\n');
      RedactSize(line + ['\n'] + behind);
      RedactSize(behind);
      var back := Split(Redaction.WithoutNul(behind), '\n');
      SizeAround([], line, back);
      assert [] + [line] + back == [line] + back;
      assert Redaction.RedactLines([]) == [];
      ReplacedLine(line);
    }
  }

  /** Nor is a log that begins with many short sensitive lines: each one grows to the length of its replacement, beyond
      what a chunk may hold. */
  lemma {:induction false} SensitiveLinesStopTheUpload(u: Upload, line: string, n: nat, steps: seq<Step>)
    requires AtStart(u) && Repeated(line, n) <= u.syslog
    requires Redaction.Sensitive(line) && Redaction.NUL !in line && '\n' !in line
    requires n * (|line| + 1) <= MAX_READ && 40 * n > MAX_LOG_CHUNK
    ensures Uploads(u, steps).stored == []
  {
    hide AtStart, Uploads, Usable, Room, Redaction.Redact, Redaction.Sensitive, NextReadFits;
    RepeatedSize(line, n);
    SomeReadFitsExactly(u.syslog, MAX_LOG_CHUNK, Room(1));
    if growth :| TextFits(FirstRead(u.syslog + growth), MAX_LOG_CHUNK, Room(1)) {
      var t := FirstRead(u.syslog + growth);
      assert Repeated(line, n) <= t;
      assert t == Repeated(line, n) + t[|Repeated(line, n)|..];
      SensitiveLinesGrow(line, n, t[|Repeated(line, n)|..]);
      assert false;
    }
    FirstChunkExactly(u);
  }

  /** Such a line: four thousand of it are less than half of one read. */
  lemma {:induction false} TokenLinesStopTheUpload(u: Upload, steps: seq<Step>)
    requires AtStart(u) && Repeated("token:", 4000) <= u.syslog
    ensures Uploads(u, steps).stored == []
  {
    hide AtStart, Uploads, Repeated;
    var line := "token:";
    assert Lower(line) == line;
    assert OccursAt(Lower(line), Redaction.MARKERS[5], 0);
    assert Contains(Lower(line), Redaction.MARKERS[5]);
    SensitiveLinesStopTheUpload(u, line, 4000, steps);
  }

  lemma {:induction false} ShortTextFits()
    ensures NextReadFits("x", MAX_LOG_CHUNK, Room(1))
  {
    hide Redaction.Redact, Redaction.Sensitive, Completable, LastLine;
    GrownSize([], "x");
    NothingIsRedactedToNothing();
    OneCharacterMore([]);
    assert [] + "x" == "x";
    assert Json.StringSize("x") == 1;
  }

  /** A run from the start that ends in the stall, with the installation still there. */
  lemma {:induction false} StalledFromTheStart() returns (u: Upload, steps: seq<Step>)
    ensures AtStart(u)
    ensures var v := Uploads(u, steps); v.installation in v.db.specs && |v.stored| == 1 && Stalled(v)
  {
    hide Inv, Credentialed, UploadSound, Uploads, Stalled, NextReadFits, Room, CanRead, Usable;
    BootedStoreIsValid();
    u := Upload(BOOTED_STORE, 3, 1, "x", 0, 0, true, Progress.Idle, 0, {}, multiset{}, {}, []);
    StartSound(u);
    ShortTextFits();
    StartReads(u);
    steps := StallIsReachable(u);
  }
}
