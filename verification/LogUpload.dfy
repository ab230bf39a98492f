/** The installer's log on its way to the server: two state files, a network that loses, repeats and reorders, and a
    process that may be interrupted between any two steps, or die. */
module LogUpload {
  import opened Prelude
  import opened Text
  import opened Lifecycle
  import opened Records
  import opened Schema
  import opened Transactions
  import opened StoreInvariant
  import opened StoreSteps
  import opened TelemetrySteps
  import opened ControlPlane
  import opened StepsAreFaithful
  import opened LogReads
  import Json
  import Redaction

  function LogKey(sequence: nat): string {
    "reporter:log:" + Decimal(sequence)
  }

  const MAX_LOG_BODY: nat := MAX_LOG_CHUNK + 32 * 1024

  /** What surrounds the values in the body of a log request. */
  const LOG_FRAME: string := "{\"client_time\":\"\",\"content\":\"\",\"sequence\":,\"source\":\"installer\"}"

  /** The size of the JSON body that carries a request. */
  function LogBodySize(request: ChunkInput): nat
    requires request.sequence >= 0
  {
    |LOG_FRAME| + Json.TimeSize(request.clientAt) + Json.StringSize(request.content) + |Decimal(request.sequence)|
  }

  /** The server reads no more of a body than this. */
  predicate BodyFits(request: ChunkInput) {
    request.sequence >= 0 && LogBodySize(request) <= MAX_LOG_BODY
  }

  /** Where the uploader stands between two visible effects. */
  datatype Progress =
    | Idle
    | Awaiting(request: ChunkInput)
    | OffsetWritten(sequence: nat)

  /** `alive` says that the process that has the secret is running: another one never gets it. `sent` holds every
      request that was ever put on the network, `admitted` those that the server has authenticated and not yet
      appended, `answered` those it said yes to, and `stored`, in order, those that became chunks. */
  datatype Upload = Upload(
    db: Db,
    time: Instant,
    installation: Id,
    syslog: string,
    offset: nat,
    sequence: nat,
    alive: bool,
    progress: Progress,
    clock: nat,
    sent: set<ChunkInput>,
    admitted: multiset<ChunkInput>,
    answered: set<ChunkInput>,
    stored: seq<ChunkInput>)

  datatype Step =
    | Grow(text: string)
    | Send(at: nat)
    | Admit(request: ChunkInput, proof: Proof, now: Instant)
    | Deliver(request: ChunkInput, requestId: string, now: Instant)
    | WriteOffset
    | WriteSequence
    | GiveUp
    | Die
    | Elsewhere(after: Db)

  /** The two state files, and one pass of uploadInstallerLog over them. The flags say what the world does: whether the
      server's acceptance arrives, and whether the pass is interrupted after the first file was replaced. */
  class StateFiles {
    var offset: nat
    var sequence: nat

    constructor ()
      ensures offset == 0 && sequence == 0
    {
      offset, sequence := 0, 0;
    }

    method UploadInstallerLog(syslog: string, at: nat, accepted: bool, interrupted: bool)
      returns (request: Option<ChunkInput>)
      modifies this
      ensures request.Some? <==> old(offset) < |syslog|
      ensures request.Some? ==>
        && request.value.sequence == old(sequence) + 1 && request.value.key == LogKey(old(sequence) + 1)
        && request.value.content == FirstRead(syslog[old(offset)..]) && request.value.clientAt == at
      ensures offset == if request.Some? && accepted then old(offset) + |request.value.content| else old(offset)
      ensures sequence == if request.Some? && accepted && !interrupted then old(sequence) + 1 else old(sequence)
    {
      if offset >= |syslog| {
        return None;
      }
      var n := if |syslog| - offset <= MAX_READ then |syslog| - offset else MAX_READ;
      var next := sequence + 1;
      request := Some(ChunkInput(next, Installer, at, LogKey(next), syslog[offset..offset + n]));
      assert FirstRead(syslog[offset..]) == syslog[offset..offset + n];
      if !accepted {
        return;
      }
      offset := offset + n;
      if interrupted {
        return;
      }
      sequence := next;
    }
  }

  // ---------------------------------------------------------------------------
  // Steps
  // ---------------------------------------------------------------------------

  /** The request for what follows the offset, as far as the buffer reaches. */
  function NextRequest(u: Upload, at: nat): ChunkInput
    requires u.offset <= |u.syslog|
  {
    ChunkInput(u.sequence + 1, Installer, at, LogKey(u.sequence + 1), FirstRead(u.syslog[u.offset..]))
  }

  predicate MaySend(u: Upload, at: nat) {
    u.alive && u.progress == Idle && u.offset < |u.syslog| && u.clock < at
  }

  predicate MayAdmit(u: Upload, request: ChunkInput, proof: Proof, now: Instant) {
    request in u.sent && BodyFits(request) && u.time <= now
  }

  /** Only the uploader adds chunks to its installation; everything else in the store may change. */
  ghost predicate OtherWork(a: Db, b: Db, i: Id) {
    Inv(b) && Evolves(a, b) && (i in b.specs ==> ChunksOf(b, i) == ChunksOf(a, i))
  }

  /** The stretch of syslog that the stored requests carried. */
  function Carried(stored: seq<ChunkInput>): string {
    if stored == [] then [] else Carried(stored[..|stored| - 1]) + stored[|stored| - 1].content
  }

  ghost function Delivered(u: Upload, request: ChunkInput, requestId: string, now: Instant): Upload {
    var tx := AppendChunk(u.db, u.installation, request, requestId, now);
    u.(db := tx.db,
       answered := if tx.result.Ok? then u.answered + {request} else u.answered,
       stored := if tx.result.Ok? && !tx.result.value.1 then u.stored + [request] else u.stored)
  }

  ghost function Advance(u: Upload, step: Step): Upload {
    match step
    case Grow(text) => u.(syslog := u.syslog + text)
    case Send(at) =>
      if MaySend(u, at) then
        u.(progress := Awaiting(NextRequest(u, at)), clock := at, sent := u.sent + {NextRequest(u, at)})
      else u
    case Admit(request, proof, now) =>
      if MayAdmit(u, request, proof, now) && Authenticated(u.db, u.installation, proof, now).Ok? then
        u.(time := now, admitted := u.admitted + multiset{request})
      else u
    case Deliver(request, requestId, now) =>
      if request in u.admitted && u.time <= now then
        Delivered(u.(time := now, admitted := u.admitted - multiset{request}), request, requestId, now)
      else u
    case WriteOffset =>
      if u.progress.Awaiting? && u.progress.request in u.answered then
        u.(offset := u.offset + |u.progress.request.content|, progress := OffsetWritten(u.sequence + 1))
      else u
    case WriteSequence =>
      if u.progress.OffsetWritten? then u.(sequence := u.progress.sequence, progress := Idle) else u
    case GiveUp => u.(progress := Idle)
    case Die => u.(progress := Idle, alive := false)
    case Elsewhere(after) => if OtherWork(u.db, after, u.installation) then u.(db := after) else u
  }

  ghost function Uploads(start: Upload, steps: seq<Step>): Upload
    decreases |steps|
  {
    if steps == [] then start else Advance(Uploads(start, steps[..|steps| - 1]), steps[|steps| - 1])
  }

  /** A reporter that has its secret and has uploaded nothing yet. */
  ghost predicate AtStart(u: Upload) {
    && Inv(u.db) && Credentialed(u.db, u.installation) && ChunksOf(u.db, u.installation) == []
    && u.offset == 0 && u.sequence == 0 && u.alive && u.progress == Idle
    && u.sent == {} && u.admitted == multiset{} && u.answered == {} && u.stored == []
  }

  // --- runs of a few steps ---

  lemma {:induction false} OneStepMore(start: Upload, steps: seq<Step>, step: Step)
    ensures Uploads(start, steps + [step]) == Advance(Uploads(start, steps), step)
  {
    hide Advance;
    assert (steps + [step])[..|steps|] == steps;
  }

  lemma {:induction false} MoreSteps(start: Upload, steps: seq<Step>, more: seq<Step>)
    ensures Uploads(start, steps + more) == Uploads(Uploads(start, steps), more)
    decreases |more|
  {
    hide Advance;
    if more == [] {
      assert steps + more == steps;
    } else {
      var n := |more| - 1;
      assert steps + more == (steps + more[..n]) + [more[n]];
      OneStepMore(start, steps + more[..n], more[n]);
      MoreSteps(start, steps, more[..n]);
    }
  }

  lemma {:induction false} OnlyStep(u: Upload, step: Step)
    ensures Uploads(u, [step]) == Advance(u, step)
  {
    assert Uploads(u, []) == u;
    assert [] + [step] == [step];
    OneStepMore(u, [], step);
  }

  lemma {:induction false} TwoSteps(u: Upload, a: Step, b: Step)
    ensures Uploads(u, [a, b]) == Advance(Advance(u, a), b)
  {
    hide Uploads, Advance;
    assert [a] + [b] == [a, b];
    OnlyStep(u, a);
    OneStepMore(u, [a], b);
  }

  /** The steps of one pass that gets its answer: with both files written, or interrupted between them. */
  ghost function AnsweredPass(
    u: Upload, at: nat, proof: Proof, requestId: string, now: Instant, interrupted: bool): seq<Step>
    requires u.offset <= |u.syslog|
  {
    var request, last := NextRequest(u, at), if interrupted then GiveUp else WriteSequence;
    [Send(at), Admit(request, proof, now)] + [Deliver(request, requestId, now), WriteOffset] + [last]
  }

  /** The steps leave the state files as UploadInstallerLog does when its request is accepted. */
  lemma {:induction false} AnsweredPassMovesTheFiles(
    u: Upload, at: nat, proof: Proof, requestId: string, now: Instant, interrupted: bool)
    requires MaySend(u, at) && BodyFits(NextRequest(u, at)) && u.time <= now
    requires Authenticated(u.db, u.installation, proof, now).Ok?
    requires AppendChunk(u.db, u.installation, NextRequest(u, at), requestId, now).result.Ok?
    ensures var v := Uploads(u, AnsweredPass(u, at, proof, requestId, now, interrupted));
      && v.progress == Idle && v.offset == u.offset + |NextRequest(u, at).content|
      && v.sequence == if interrupted then u.sequence else u.sequence + 1
  {
    hide Uploads, Advance, AppendChunk, LogKey, OtherWork, Authenticated, BodyFits, FirstRead;
    var request, last := NextRequest(u, at), if interrupted then GiveUp else WriteSequence;
    TwoSteps(u, Send(at), Admit(request, proof, now));
    var v := AfterAdmission(u, at, proof, now);
    TwoSteps(v, Deliver(request, requestId, now), WriteOffset);
    AfterAnswer(v, request, requestId, now, last);
    MoreSteps(u, [Send(at), Admit(request, proof, now)], [Deliver(request, requestId, now), WriteOffset]);
    OneStepMore(u, [Send(at), Admit(request, proof, now)] + [Deliver(request, requestId, now), WriteOffset], last);
  }

  lemma {:induction false} AfterAdmission(u: Upload, at: nat, proof: Proof, now: Instant) returns (v: Upload)
    requires MaySend(u, at) && BodyFits(NextRequest(u, at)) && u.time <= now
    requires Authenticated(u.db, u.installation, proof, now).Ok?
    ensures v == Advance(Advance(u, Send(at)), Admit(NextRequest(u, at), proof, now))
    ensures v.db == u.db && v.installation == u.installation && v.time == now && v.offset == u.offset
    ensures v.sequence == u.sequence && v.progress == Awaiting(NextRequest(u, at)) && NextRequest(u, at) in v.admitted
  {
    hide AppendChunk, LogKey, OtherWork, Authenticated, BodyFits, FirstRead, Delivered;
    v := Advance(u, Send(at));
    v := Advance(v, Admit(NextRequest(u, at), proof, now));
  }

  lemma {:induction false} AfterAnswer(u: Upload, request: ChunkInput, requestId: string, now: Instant, last: Step)
    requires u.progress == Awaiting(request) && request in u.admitted && u.time <= now
    requires AppendChunk(u.db, u.installation, request, requestId, now).result.Ok?
    requires last == GiveUp || last == WriteSequence
    ensures var v := Advance(Advance(Advance(u, Deliver(request, requestId, now)), WriteOffset), last);
      && v.progress == Idle && v.offset == u.offset + |request.content|
      && v.sequence == if last == GiveUp then u.sequence else u.sequence + 1
  {
    hide AppendChunk, OtherWork, Authenticated;
  }

  // ---------------------------------------------------------------------------
  // The invariant
  // ---------------------------------------------------------------------------

  /** Every chunk of the server is the redaction of what one stored request carried. */
  ghost predicate ChunksFit(chunks: seq<Chunk>, stored: seq<ChunkInput>) {
    && |chunks| == |stored|
    && forall k | 0 <= k < |stored| ::
         && chunks[k].input == RedactedInput(stored[k]) && ValidChunk(chunks[k].input)
         && stored[k].sequence == k + 1 && stored[k].key == LogKey(k + 1)
  }

  /** A request on the network is numbered at most one past the state files, and if it would be the next chunk of the
      server it was read exactly where that chunk begins. */
  ghost predicate Plausible(request: ChunkInput, u: Upload) {
    && 1 <= request.sequence <= u.sequence + 1
    && request.clientAt <= u.clock && request.key == LogKey(request.sequence)
    && (request.sequence == |u.stored| + 1 ==> Carried(u.stored) + request.content <= u.syslog)
  }

  /** The state files are where the server is, or one chunk behind. */
  ghost predicate FilesFit(u: Upload) {
    || (u.sequence == |u.stored| && u.offset == |Carried(u.stored)|)
    || (u.sequence + 1 == |u.stored|
        && (u.offset == |Carried(u.stored[..u.sequence])| || u.offset == |Carried(u.stored)|))
  }

  /** The request that is waited for is the next one after the state files; if it is what was stored, the offset is
      where it was read. */
  ghost predicate ProgressFits(u: Upload) {
    match u.progress
    case Idle => true
    case Awaiting(request) =>
      && request in u.sent && request.sequence == u.sequence + 1
      && (u.sequence < |u.stored| && u.stored[u.sequence] == request ==> u.offset == |Carried(u.stored[..u.sequence])|)
    case OffsetWritten(sequence) =>
      sequence == u.sequence + 1 == |u.stored| && u.offset == |Carried(u.stored)|
  }

  ghost predicate NetworkFits(u: Upload) {
    && (forall r | r in u.sent :: Plausible(r, u))
    && (forall r | r in u.admitted :: r in u.sent)
    && TimesDiffer(u.sent)
    && AnswersFit(u.sent, u.answered, u.stored)
  }

  ghost predicate TimesDiffer(sent: set<ChunkInput>) {
    forall r, q | r in sent && q in sent && r.clientAt == q.clientAt :: r == q
  }

  /** The requests that the server said yes to are those that it stored. */
  ghost predicate AnswersFit(sent: set<ChunkInput>, answered: set<ChunkInput>, stored: seq<ChunkInput>) {
    && (forall r | r in answered :: 1 <= r.sequence <= |stored| && stored[r.sequence - 1] == r)
    && (forall k | 0 <= k < |stored| :: stored[k] in sent && stored[k] in answered)
  }

  ghost predicate UploadSound(u: Upload) {
    && Inv(u.db) && Credentialed(u.db, u.installation) && (!u.alive ==> u.progress == Idle)
    && (u.installation in u.db.specs ==> ChunksFit(ChunksOf(u.db, u.installation), u.stored))
    && Carried(u.stored) <= u.syslog
    && NetworkFits(u) && FilesFit(u) && ProgressFits(u)
  }

  // ---------------------------------------------------------------------------
  // Every step keeps it
  // ---------------------------------------------------------------------------

  lemma {:induction false} CarriedOneMore(stored: seq<ChunkInput>, request: ChunkInput)
    ensures Carried(stored + [request]) == Carried(stored) + request.content
  {
    assert (stored + [request])[..|stored|] == stored;
  }

  lemma {:induction false} LogKeysDiffer(m: nat, n: nat)
    requires LogKey(m) == LogKey(n)
    ensures m == n
  {
    assert LogKey(m)[13..] == Decimal(m) && LogKey(n)[13..] == Decimal(n);
    DecimalInjective(m, n);
  }

  /** A chunk with the key of a request is the one with its number. */
  lemma {:induction false} ChunkUnderKey(chunks: seq<Chunk>, stored: seq<ChunkInput>, n: nat)
    requires Log(chunks) && ChunksFit(chunks, stored) && n >= 1
    ensures FindChunk(chunks, LogKey(n)).Some? <==> n <= |stored|
    ensures n <= |stored| ==> FindChunk(chunks, LogKey(n)) == Some(chunks[n - 1])
  {
    hide ValidChunk, Redaction.Redact, LogKey, FindChunk, TotalBytes;
    if FindChunk(chunks, LogKey(n)).Some? {
      var k :| 0 <= k < |chunks| && chunks[k].input.key == LogKey(n);
      LogKeysDiffer(k + 1, n);
    }
    if n <= |stored| {
      assert chunks[n - 1].input.key == LogKey(n);
      FirstChunk(chunks, LogKey(n), n - 1);
    }
  }

  lemma {:induction false} FirstChunk(chunks: seq<Chunk>, key: string, k: nat)
    requires k < |chunks| && chunks[k].input.key == key
    requires forall i, j | 0 <= i < j < |chunks| :: chunks[i].input.key != chunks[j].input.key
    ensures FindChunk(chunks, key) == Some(chunks[k])
  {
    if k > 0 {
      FirstChunk(chunks[1..], key, k - 1);
    }
  }

  lemma {:induction false} AppendErrKeeps(db: Db, i: Id, request: ChunkInput, requestId: string, now: Instant)
    ensures var tx := AppendChunk(db, i, request, requestId, now);
      && (tx.result.Err? ==> tx.db == db)
      && (tx.result.Ok? ==> ValidChunk(RedactedInput(request)) && i in db.specs)
  {
    hide ValidChunk, FindChunk, LastSequence, TotalBytes, Redaction.Redact;
  }

  lemma {:induction false} StoredLog(db: Db, i: Id)
    requires Inv(db)
    ensures Logs(db.chunks, db.specs.Keys) && Log(ChunksOf(db, i))
  {
    hide Histories, TrustSound, AssignmentsSound, ChallengesSound, KeysSound, SpecsOwned, IdentifiersAttached;
    hide IdsDrawn, Log, Logs;
    ChunksAreLog(db, i);
  }

  lemma {:induction false} PlausibleRequest(u: Upload, request: ChunkInput)
    requires NetworkFits(u) && request in u.sent
    ensures Plausible(request, u)
  {
  }

  /** Timestamps never repeat, so a stored chunk that agrees with a request came from that very request. */
  lemma {:induction false} SameRequest(u: Upload, request: ChunkInput)
    requires NetworkFits(u) && request in u.sent && 1 <= request.sequence <= |u.stored|
    requires RedactedInput(u.stored[request.sequence - 1]) == RedactedInput(request)
    ensures u.stored[request.sequence - 1] == request
  {
    assert u.stored[request.sequence - 1] in u.sent;
  }

  lemma {:induction false} OneMoreFits(db: Db, i: Id, stored: seq<ChunkInput>, request: ChunkInput, c: Chunk)
    requires ChunksFit(ChunksOf(db, i), stored) && c.input == RedactedInput(request) && ValidChunk(c.input)
    requires request.sequence == |stored| + 1 && request.key == LogKey(|stored| + 1)
    ensures ChunksFit(ChunksOf(WithChunk(db, i, c), i), stored + [request])
  {
    assert ChunksOf(WithChunk(db, i, c), i) == ChunksOf(db, i) + [c];
    hide Redaction.Redact, ValidChunk, LogKey;
  }

  lemma {:induction false} StoredRequest(chunks: seq<Chunk>, stored: seq<ChunkInput>, n: nat)
    requires ChunksFit(chunks, stored) && 1 <= n <= |stored|
    ensures chunks[n - 1].input == RedactedInput(stored[n - 1]) && ValidChunk(chunks[n - 1].input)
  {
  }

  lemma {:induction false} Continued(chunks: seq<Chunk>, stored: seq<ChunkInput>, request: ChunkInput)
    requires ChunksFit(chunks, stored) && Continues(chunks, RedactedInput(request))
    ensures request.sequence == |stored| + 1
  {
  }

  /** What the server makes of a request from the network: the next chunk, a repetition of a stored one, or nothing. */
  lemma {:induction false} DeliveryCases(u: Upload, request: ChunkInput, requestId: string, now: Instant)
    requires UploadSound(u) && request in u.sent
    ensures var i := u.installation; var tx := AppendChunk(u.db, i, request, requestId, now);
      && Inv(tx.db) && Evolves(u.db, tx.db)
      && (tx.result.Err? ==> tx.db == u.db)
      && (tx.result.Ok? && tx.result.value.1 ==>
            tx.db == u.db && request.sequence <= |u.stored| && u.stored[request.sequence - 1] == request)
      && (tx.result.Ok? && !tx.result.value.1 ==>
            request.sequence == |u.stored| + 1 && ChunksFit(ChunksOf(tx.db, i), u.stored + [request]))
  {
    hide Inv, Evolves, AppendChunk, NetworkFits, FilesFit, ProgressFits, ChunksFit, Redaction.Redact, Log, Logs;
    hide Continues, ValidChunk, FindChunk;
    var i := u.installation;
    var tx := AppendChunk(u.db, i, request, requestId, now);
    AppendChunkIsSound(u.db, i, request, requestId, now);
    AppendErrKeeps(u.db, i, request, requestId, now);
    if tx.result.Ok? {
      var chunks := ChunksOf(u.db, i);
      StoredLog(u.db, i);
      PlausibleRequest(u, request);
      ChunkUnderKey(chunks, u.stored, request.sequence);
      AppendChunkCases(u.db, i, request, requestId, now);
      if FindChunk(chunks, request.key).Some? {
        StoredRequest(chunks, u.stored, request.sequence);
        SameRequest(u, request);
      } else {
        Continued(chunks, u.stored, request);
        OneMoreFits(u.db, i, u.stored, request, Chunk(RedactedInput(request), now, requestId));
      }
    }
  }

  // --- one lemma per kind of step ---

  lemma {:induction false} NewChunkSound(u: Upload, db: Db, request: ChunkInput)
    requires UploadSound(u) && request in u.sent && Inv(db) && Evolves(u.db, db)
    requires request.sequence == |u.stored| + 1 && ChunksFit(ChunksOf(db, u.installation), u.stored + [request])
    ensures UploadSound(u.(db := db, answered := u.answered + {request}, stored := u.stored + [request]))
  {
    hide Inv, Evolves, ChunksFit, Credentialed, LogKey, NetworkFits;
    PlausibleRequest(u, request);
    CarriedOneMore(u.stored, request);
    assert (u.stored + [request])[..u.sequence] == u.stored[..u.sequence];
    assert u.stored[..|u.stored|] == u.stored;
    assert u.sequence == |u.stored|;
    ClaimsStay(u.db, db, u.installation);
    hide Carried;
    NewChunkNetwork(u, db, request);
  }

  lemma {:induction false} NewChunkNetwork(u: Upload, db: Db, request: ChunkInput)
    requires NetworkFits(u) && request in u.sent && request.sequence == |u.stored| + 1 && u.sequence <= |u.stored|
    ensures NetworkFits(u.(db := db, answered := u.answered + {request}, stored := u.stored + [request]))
  {
    var v := u.(db := db, answered := u.answered + {request}, stored := u.stored + [request]);
    forall r | r in v.sent ensures Plausible(r, v) {
      PlausibleAfter(u, v, r);
    }
    hide Plausible, TimesDiffer;
  }

  lemma {:induction false} PlausibleAfter(u: Upload, v: Upload, r: ChunkInput)
    requires Plausible(r, u) && u.sequence <= |u.stored| < |v.stored| && v.sequence == u.sequence && v.clock == u.clock
    ensures Plausible(r, v)
  {
    hide Carried, LogKey;
  }

  lemma {:induction false} GrowSound(u: Upload, text: string)
    requires UploadSound(u)
    ensures UploadSound(u.(syslog := u.syslog + text))
  {
    hide Inv, Evolves, ChunksFit, Carried;
  }

  lemma {:induction false} ReadsOn(syslog: string, offset: nat)
    requires offset <= |syslog|
    ensures syslog[..offset] + FirstRead(syslog[offset..]) <= syslog
    ensures offset < |syslog| ==> FirstRead(syslog[offset..]) != []
  {
  }

  lemma {:induction false} SendSound(u: Upload, at: nat)
    requires UploadSound(u) && MaySend(u, at)
    ensures UploadSound(Advance(u, Send(at)))
  {
    hide Inv, Evolves, ChunksFit, Carried, LogKey, NetworkFits, Credentialed;
    ReadsOn(u.syslog, u.offset);
    SendNetwork(u, at);
    NotYetSent(u, at);
  }

  lemma {:induction false} NotYetSent(u: Upload, at: nat)
    requires NetworkFits(u) && MaySend(u, at)
    ensures NextRequest(u, at) !in u.sent
    ensures forall k | 0 <= k < |u.stored| :: u.stored[k] != NextRequest(u, at)
  {
    hide Carried, LogKey;
    assert forall r | r in u.sent :: Plausible(r, u);
  }

  lemma {:induction false} NextIsPlausible(u: Upload, at: nat)
    requires UploadSound(u) && MaySend(u, at)
    ensures Plausible(NextRequest(u, at), u.(clock := at))
  {
    hide Inv, ChunksFit, NetworkFits, ProgressFits, Carried, LogKey, Credentialed, FirstRead;
    ReadsOn(u.syslog, u.offset);
    assert u.stored[..|u.stored|] == u.stored;
  }

  lemma {:induction false} SendNetwork(u: Upload, at: nat)
    requires UploadSound(u) && MaySend(u, at)
    ensures NetworkFits(Advance(u, Send(at)))
  {
    hide Inv, ChunksFit, FilesFit, ProgressFits, Carried, LogKey, Credentialed, AppendChunk, OtherWork, Authenticated;
    hide FirstRead;
    var request := NextRequest(u, at);
    NextIsPlausible(u, at);
    SentNetwork(u, request, at);
  }

  lemma {:induction false} SentNetwork(u: Upload, request: ChunkInput, at: nat)
    requires NetworkFits(u) && u.clock < at && request.clientAt == at && Plausible(request, u.(clock := at))
    ensures NetworkFits(u.(progress := Awaiting(request), clock := at, sent := u.sent + {request}))
  {
    var v := u.(progress := Awaiting(request), clock := at, sent := u.sent + {request});
    forall r | r in v.sent ensures Plausible(r, v) && (r != request ==> r.clientAt < at) {
      hide Carried, LogKey;
      assert r in u.sent ==> Plausible(r, u);
    }
    hide Plausible;
  }

  lemma {:induction false} WriteOffsetSound(u: Upload)
    requires UploadSound(u) && u.progress.Awaiting? && u.progress.request in u.answered
    ensures UploadSound(Advance(u, WriteOffset))
  {
    hide Inv, Evolves, ChunksFit, LogKey, NetworkFits;
    AnsweredIsStored(u);
    var request := u.progress.request;
    assert u.stored == u.stored[..u.sequence] + [request];
    CarriedOneMore(u.stored[..u.sequence], request);
    hide Carried;
    PlausibleStays(u, Advance(u, WriteOffset));
  }

  /** The answer that is waited for makes the server one chunk ahead of the state files. */
  lemma {:induction false} AnsweredIsStored(u: Upload)
    requires UploadSound(u) && u.progress.Awaiting? && u.progress.request in u.answered
    ensures |u.stored| == u.sequence + 1 && u.stored[u.sequence] == u.progress.request
  {
    hide Inv, Credentialed, ChunksFit, Carried, LogKey, Plausible;
  }

  lemma {:induction false} PlausibleStays(u: Upload, v: Upload)
    requires NetworkFits(u) && v.sent == u.sent && v.admitted == u.admitted && v.answered == u.answered
      && v.stored == u.stored
    requires v.clock == u.clock && v.syslog == u.syslog && u.sequence <= v.sequence
    ensures NetworkFits(v)
  {
    hide Carried, LogKey;
    forall r | r in v.sent ensures Plausible(r, v) {
      assert Plausible(r, u);
    }
  }

  lemma {:induction false} WriteSequenceSound(u: Upload)
    requires UploadSound(u) && u.progress.OffsetWritten?
    ensures UploadSound(Advance(u, WriteSequence))
  {
    hide Inv, Evolves, ChunksFit, Carried, LogKey, NetworkFits;
    PlausibleStays(u, Advance(u, WriteSequence));
  }

  lemma {:induction false} GiveUpSound(u: Upload)
    requires UploadSound(u)
    ensures UploadSound(u.(progress := Idle))
  {
    hide Inv, Evolves, ChunksFit, Carried, LogKey, NetworkFits;
    PlausibleStays(u, u.(progress := Idle));
  }

  lemma {:induction false} DieSound(u: Upload)
    requires UploadSound(u)
    ensures UploadSound(u.(progress := Idle, alive := false))
  {
    hide Inv, Evolves, ChunksFit, Carried, LogKey, NetworkFits, Credentialed;
    PlausibleStays(u, u.(progress := Idle, alive := false));
  }

  /** Authenticated requests were sent. */
  lemma {:induction false} AdmissionSound(u: Upload, now: Instant, admitted: multiset<ChunkInput>)
    requires UploadSound(u) && forall r | r in admitted :: r in u.sent
    ensures UploadSound(u.(time := now, admitted := admitted))
  {
    hide Inv, Evolves, ChunksFit, Carried, LogKey, Credentialed;
    var v := u.(time := now, admitted := admitted);
    forall r | r in v.sent ensures Plausible(r, v) {
      assert Plausible(r, u);
    }
  }

  lemma {:induction false} AdmittedWereSent(u: Upload)
    requires UploadSound(u)
    ensures forall r | r in u.admitted :: r in u.sent
  {
    hide Inv, ChunksFit, Carried, Plausible, Credentialed;
  }

  lemma {:induction false} FilesStay(u: Upload, v: Upload)
    requires FilesFit(u) && ProgressFits(u)
    requires v.offset == u.offset && v.sequence == u.sequence && v.stored == u.stored && v.sent == u.sent
    requires v.progress == u.progress
    ensures FilesFit(v) && ProgressFits(v)
  {
    hide Carried;
  }

  lemma {:induction false} OtherWorkSound(u: Upload, after: Db)
    requires UploadSound(u) && OtherWork(u.db, after, u.installation)
    ensures UploadSound(u.(db := after))
  {
    ClaimsStay(u.db, after, u.installation);
    LaterSpecs(u.db, after, u.installation);
    hide Inv, ChunksFit, Carried, Evolves, NetworkFits, LogKey, Credentialed, FilesFit, ProgressFits, ChunksOf;
    PlausibleStays(u, u.(db := after));
    FilesStay(u, u.(db := after));
  }

  lemma {:induction false} AdvanceSound(u: Upload, step: Step)
    requires UploadSound(u)
    ensures UploadSound(Advance(u, step))
  {
    hide Inv, Evolves, ChunksFit, NetworkFits, FilesFit, ProgressFits, Carried, AppendChunk, OtherWork;
    match step
    case Grow(text) => GrowSound(u, text);
    case Send(at) =>
      if MaySend(u, at) {
        SendSound(u, at);
      }
    case Admit(request, proof, now) =>
      if MayAdmit(u, request, proof, now) {
        AdmittedWereSent(u);
        AdmissionSound(u, now, u.admitted + multiset{request});
      }
    case Deliver(request, requestId, now) =>
      if request in u.admitted && u.time <= now {
        AdmittedWereSent(u);
        AdmissionSound(u, now, u.admitted - multiset{request});
        DeliverSound(u.(time := now, admitted := u.admitted - multiset{request}), request, requestId, now);
      }
    case Elsewhere(after) =>
      if OtherWork(u.db, after, u.installation) {
        OtherWorkSound(u, after);
      }
    case WriteOffset =>
      if u.progress.Awaiting? && u.progress.request in u.answered {
        WriteOffsetSound(u);
      }
    case WriteSequence =>
      if u.progress.OffsetWritten? {
        WriteSequenceSound(u);
      }
    case GiveUp => GiveUpSound(u);
    case Die => DieSound(u);
  }

  lemma {:induction false} RepetitionSound(u: Upload, request: ChunkInput)
    requires UploadSound(u) && request in u.sent
    requires request.sequence <= |u.stored| && u.stored[request.sequence - 1] == request
    ensures UploadSound(u.(answered := u.answered + {request}))
  {
    hide Inv, ChunksFit, Carried;
  }

  lemma {:induction false} DeliverSound(u: Upload, request: ChunkInput, requestId: string, now: Instant)
    requires UploadSound(u) && request in u.sent
    ensures UploadSound(Delivered(u, request, requestId, now))
  {
    hide Inv, Evolves, ChunksFit, AppendChunk, UploadSound;
    DeliveryCases(u, request, requestId, now);
    var tx := AppendChunk(u.db, u.installation, request, requestId, now);
    if tx.result.Ok? {
      if tx.result.value.1 {
        PositiveSequence(u, request);
        RepetitionSound(u, request);
        assert Delivered(u, request, requestId, now) == u.(answered := u.answered + {request});
      } else {
        NewChunkSound(u, tx.db, request);
      }
    } else {
      assert Delivered(u, request, requestId, now) == u;
    }
  }

  lemma {:induction false} PositiveSequence(u: Upload, request: ChunkInput)
    requires UploadSound(u) && request in u.sent
    ensures request.sequence >= 1
  {
    hide Inv, ChunksFit, Carried;
  }

  lemma {:induction false} StartSound(u: Upload)
    requires AtStart(u)
    ensures UploadSound(u)
  {
    hide Inv;
  }

  lemma {:induction false} UploadsSound(start: Upload, steps: seq<Step>)
    requires AtStart(start)
    ensures UploadSound(Uploads(start, steps))
    decreases |steps|
  {
    hide UploadSound, Advance;
    if steps == [] {
      StartSound(start);
    } else {
      UploadsSound(start, steps[..|steps| - 1]);
      AdvanceSound(Uploads(start, steps[..|steps| - 1]), steps[|steps| - 1]);
    }
  }

  // ---------------------------------------------------------------------------
  // What the server holds
  // ---------------------------------------------------------------------------

  function Joined(pieces: seq<string>): string {
    if pieces == [] then [] else Joined(pieces[..|pieces| - 1]) + pieces[|pieces| - 1]
  }

  function Pieces(stored: seq<ChunkInput>): (r: seq<string>)
    ensures |r| == |stored| && forall k | 0 <= k < |stored| :: r[k] == stored[k].content
  {
    seq(|stored|, k requires 0 <= k < |stored| => stored[k].content)
  }

  lemma {:induction false} JoinedPieces(stored: seq<ChunkInput>)
    ensures Joined(Pieces(stored)) == Carried(stored)
  {
    if stored != [] {
      var front := stored[..|stored| - 1];
      JoinedPieces(front);
      assert Pieces(stored)[..|stored| - 1] == Pieces(front);
    }
  }

  /** Whatever is lost, repeated or reordered, and wherever the process dies: the chunks of the server are numbered from
      1, and they are the redactions of consecutive pieces of the syslog from its first byte on. */
  lemma {:induction false} ServerHoldsAPrefix(start: Upload, steps: seq<Step>)
    requires AtStart(start) && start.installation in Uploads(start, steps).db.specs
    ensures var u := Uploads(start, steps);
      exists pieces: seq<string> :: Holds(ChunksOf(u.db, u.installation), pieces, u.syslog)
  {
    hide Advance, Redaction.Redact, Inv, NetworkFits, FilesFit, ProgressFits;
    UploadsSound(start, steps);
    SameInstallation(start, steps);
    var u := Uploads(start, steps);
    var pieces := Pieces(u.stored);
    JoinedPieces(u.stored);
    assert Holds(ChunksOf(u.db, u.installation), pieces, u.syslog);
  }

  ghost predicate Holds(chunks: seq<Chunk>, pieces: seq<string>, syslog: string) {
    && |chunks| == |pieces| && Joined(pieces) <= syslog
    && forall k | 0 <= k < |pieces| ::
         chunks[k].input.sequence == k + 1 && chunks[k].input.content == Redaction.Redact(pieces[k])
  }

  lemma {:induction false} SameInstallation(start: Upload, steps: seq<Step>)
    ensures Uploads(start, steps).installation == start.installation
    decreases |steps|
  {
    hide AppendChunk, OtherWork;
    if steps != [] {
      SameInstallation(start, steps[..|steps| - 1]);
    }
  }

  // ---------------------------------------------------------------------------
  // The stall
  // ---------------------------------------------------------------------------

  /** The server has a chunk that the state files do not know of, and no answer is on its way that would tell. */
  ghost predicate Stalled(u: Upload) {
    && u.sequence + 1 == |u.stored|
    && !u.progress.OffsetWritten?
    && (u.progress.Awaiting? ==> u.progress.request != u.stored[u.sequence])
  }

  /** Once an answer is lost after the server stored the chunk, or a pass is interrupted between the two files, no
      chunk is ever stored again: the same number is offered with a new timestamp for ever. */
  lemma {:induction false} StallIsForEver(u: Upload, step: Step)
    requires UploadSound(u) && Stalled(u)
    ensures Stalled(Advance(u, step)) && Advance(u, step).stored == u.stored
  {
    hide Inv, Evolves, ChunksFit, Carried, AppendChunk, OtherWork, LogKey, NetworkFits, FilesFit, Credentialed;
    hide Authenticated;
    hide FirstRead, BodyFits, Plausible;
    assert NetworkFits(u);
    match step
    case Deliver(request, requestId, now) =>
      if request in u.admitted && u.time <= now {
        AdmittedWereSent(u);
        DeliveryCases(u, request, requestId, now);
        NumberIsKnown(u, request);
      }
    case Send(at) =>
      if MaySend(u, at) {
        NotYetSent(u, at);
      }
    case WriteOffset =>
      if u.progress.Awaiting? && u.progress.request in u.answered {
        AnsweredIsStored(u);
      }
    case _ =>
  }

  lemma {:induction false} NumberIsKnown(u: Upload, request: ChunkInput)
    requires NetworkFits(u) && request in u.sent
    ensures 1 <= request.sequence <= u.sequence + 1
  {
    PlausibleRequest(u, request);
    hide NetworkFits, Carried;
  }

  lemma {:induction false} StallOverRuns(u: Upload, steps: seq<Step>)
    requires UploadSound(u) && Stalled(u)
    ensures UploadSound(Uploads(u, steps)) && Stalled(Uploads(u, steps)) && Uploads(u, steps).stored == u.stored
    decreases |steps|
  {
    hide UploadSound, Stalled, Advance;
    if steps != [] {
      var front, last := steps[..|steps| - 1], steps[|steps| - 1];
      StallOverRuns(u, front);
      AdvanceSound(Uploads(u, front), last);
      StallIsForEver(Uploads(u, front), last);
    }
  }

  /** Losing the one answer is enough to get there. */
  lemma {:induction false} LostAnswerStalls(u: Upload)
    requires UploadSound(u) && u.progress.Awaiting? && u.progress.request in u.answered
    ensures Stalled(Advance(u, GiveUp)) && Stalled(Advance(u, Die))
  {
    hide Inv, ChunksFit, Carried;
  }

  lemma {:induction false} InterruptionBetweenFilesStalls(u: Upload)
    requires UploadSound(u) && u.progress.OffsetWritten?
    ensures Stalled(Advance(u, GiveUp)) && Stalled(Advance(u, Die))
  {
    hide Inv, ChunksFit, Carried;
  }
}
