/** When the event queue comes to a stop: the exact condition under which any continuation at all takes the event at its
    head off, decided in the state itself, and the ways in which it fails. */
module QueueStops {
  import opened Prelude
  import opened Text
  import opened Lifecycle
  import opened Records
  import opened Schema
  import opened Transactions
  import opened StoreInvariant
  import opened StoreSteps
  import opened TelemetrySteps
  import opened ControlPlane
  import opened StepsAreFaithful
  import opened TrustRuns
  import opened Reach
  import opened EventQueue

  // ---------------------------------------------------------------------------
  // The condition
  // ---------------------------------------------------------------------------

  ghost predicate Has(db: Db, i: Id, report: Report) {
    i in db.events && FindEvent(db.events[i], report.key).Some?
      && FindEvent(db.events[i], report.key).value.report == report
  }

  ghost predicate KeyIsFree(db: Db, i: Id, report: Report) {
    i in db.events && FindEvent(db.events[i], report.key).None?
  }

  /** A post that the server could still store: it is valid, its key is unused, and it is authenticated already or still
      can be. After a loss it may be the only trace of its event. */
  ghost predicate IsLate(r: Reporting, n: nat)
    requires n < |r.sent|
  {
    && ValidReport(r.sent[n]) && KeyIsFree(r.db, r.installation, r.sent[n])
    && (n in r.admitted || Usable(r.db, r.installation, r.time))
  }

  ghost function LateStages(r: Reporting): set<Stage> {
    set n | 0 <= n < |r.sent| && IsLate(r, n) :: r.sent[n].stage
  }

  /** The stages that can come in without the queue. */
  ghost function Hops(r: Reporting): set<Stage> {
    r.others + LateStages(r)
  }

  /** The server says yes to the report, now or later: it has exactly this report, or the key is unused and the stage
      can still be reached. */
  ghost predicate Grantable(db: Db, i: Id, report: Report, hops: set<Stage>) {
    && i in db.specs && ValidReport(report)
    && (Has(db, i, report)
        || (KeyIsFree(db, i, report) && CurrentStage(db, i).Some?
            && Reachable(CurrentStage(db, i).value, report.stage, hops)))
  }

  /** The pass has already got the answer that takes the head off. */
  predicate HeadIsAnswered(p: Progress) {
    match p
    case Draining(c) => c >= 1
    case Stopped(c) => c >= 1
    case Awaiting(c, answered) => c >= 1 || answered
    case _ => false
  }

  /** The post that is waited for carries the head, and the server has authenticated it. */
  predicate HeadIsAdmitted(r: Reporting) {
    r.progress == Awaiting(0, false) && r.sent != [] && |r.sent| - 1 in r.admitted
  }

  ghost predicate CanTake(r: Reporting) {
    && r.queue != [] && r.alive
    && (HeadIsAnswered(r.progress)
        || (Grantable(r.db, r.installation, r.queue[0], Hops(r))
            && (HeadIsAdmitted(r) || (Scannable(r.queue) && Usable(r.db, r.installation, r.time)))))
  }

  /** The head was taken off. */
  ghost predicate Takes(r: Reporting, steps: seq<Step>) {
    |Steps(r, steps).drained| > |r.drained|
  }

  // ---------------------------------------------------------------------------
  // Without it the head stays
  // ---------------------------------------------------------------------------

  lemma {:induction false} HistoryOf(db: Db, i: Id)
    requires Inv(db) && i in db.specs
    ensures i in db.events && db.events[i] != [] && EventsOf(db, i) == db.events[i] && History(i, db.events[i])
    ensures CurrentStage(db, i) == Some(Last(db.events[i]))
  {
    HistoriesHold(db);
    hide Inv, History;
    CurrentIsLast(db, i);
    assert History(i, db.events[i]);
  }

  /** An event that came through the queue is there already before the others' work. */
  lemma {:induction false} HadBefore(a: Db, b: Db, i: Id, report: Report)
    requires Inv(a) && Inv(b) && Evolves(a, b) && i in a.specs && i in b.specs && FromQueue(report) && Has(b, i, report)
    requires QueueReports(EventsOf(b, i)) == QueueReports(EventsOf(a, i))
    ensures Has(a, i, report)
  {
    hide Inv, Evolves, QueueReports, FromQueue, FindEvent;
    HistoryOf(a, i);
    HistoryOf(b, i);
    FoundIsReported(b.events[i], report);
    QueueReportsAreEvents(a.events[i], report);
    var k :| 0 <= k < |a.events[i]| && a.events[i][k].report == report;
    FirstWithKey(a.events[i], report.key, k);
  }

  lemma {:induction false} FreeBefore(a: Db, b: Db, i: Id, report: Report)
    requires Evolves(a, b) && i in a.events && i in b.specs && KeyIsFree(b, i, report)
    ensures KeyIsFree(a, i, report)
  {
    hide Evolves, FindEvent;
    LaterEvents(a, b, i);
    if FindEvent(a.events[i], report.key).Some? {
      FindEventInExtension(a.events[i], b.events[i], report.key);
    }
  }

  lemma {:induction false} GrantableMore(db: Db, i: Id, report: Report, few: set<Stage>, many: set<Stage>)
    requires Grantable(db, i, report, few) && few <= many
    ensures Grantable(db, i, report, many)
  {
    hide Has, KeyIsFree, ValidReport, CurrentStage, Reachable;
    if !Has(db, i, report) {
      ReachableBetween(CurrentStage(db, i).value, report.stage, few, many);
    }
  }

  lemma {:induction false} GrantableBefore(
    a: Db, b: Db, i: Id, report: Report, others: set<Stage>, hops: set<Stage>)
    requires Inv(a) && Credentialed(a, i) && OtherWork(a, b, i, others) && others <= hops
    requires FromQueue(report) && Grantable(b, i, report, hops)
    ensures Grantable(a, i, report, hops)
  {
    hide Inv, Evolves, QueueReports, FromQueue, Has, KeyIsFree, Reachable, ValidReport, Credentialed, History, EventsOf;
    hide CurrentStage;
    LaterSpecs(a, b, i);
    HistoryOf(a, i);
    HistoryOf(b, i);
    if Has(b, i, report) {
      HadBefore(a, b, i, report);
    } else {
      FreeBefore(a, b, i, report);
      LaterEvents(a, b, i);
      StagesBetween(a.events[i], b.events[i], i, report.stage, hops);
    }
  }

  lemma {:induction false} StagesBetween(
    earlier: seq<Event>, later: seq<Event>, i: Id, target: Stage, hops: set<Stage>)
    requires earlier != [] && earlier <= later && History(i, later) && Reachable(Last(later), target, hops)
    requires forall k | |earlier| <= k < |later| :: later[k].report.stage in hops
    ensures Reachable(Last(earlier), target, hops)
  {
    hide Reachable;
    var stages := StagesOf(later);
    ReachableThrough(stages, |earlier| - 1, target, hops);
  }

  lemma {:induction false} AcceptedIsGrantable(
    db: Db, i: Id, report: Report, requestId: string, now: Instant, hops: set<Stage>)
    requires Inv(db) && AppendEvent(db, i, report, requestId, now).result.Ok?
    ensures Grantable(db, i, report, hops)
  {
    hide Inv, AppendEvent, ValidReport, FindEvent, Histories, History;
    AnsweredIsValid(db, i, report, requestId, now);
    HistoriesHold(db);
    HistoryOf(db, i);
    AppendEventCases(db, i, report, requestId, now);
  }

  lemma {:induction false} SoundParts(r: Reporting)
    requires ReportingSound(r)
    ensures Inv(r.db) && Credentialed(r.db, r.installation) && FilesFit(r) && PassFits(r)
    ensures r.queue != [] ==> Keyed(r.queue[0]) && FromQueue(r.queue[0]) && Rest(r) == []
  {
    hide Inv, Credentialed, ServerFits, FilesFit, PassFits, Keyed, FromQueue;
    QueueIsKeyed(r);
  }

  lemma {:induction false} QueueIsKeyed(r: Reporting)
    requires FilesFit(r) && PassFits(r)
    ensures r.queue != [] ==> Keyed(r.queue[0]) && FromQueue(r.queue[0]) && Rest(r) == []
  {
    hide Keyed, FromQueue, Scannable;
    if r.queue != [] {
      KeyIsOfTheQueue(r.queue[0]);
    }
  }

  lemma {:induction false} UsableEarlier(r: Reporting, after: Db, now: Instant)
    requires Credentialed(r.db, r.installation) && Inv(after) && Evolves(r.db, after) && r.time <= now
    ensures Usable(after, r.installation, now) ==> Usable(r.db, r.installation, r.time)
  {
    hide Inv, Evolves, Credentialed, Usable;
    if Usable(after, r.installation, now) {
      UsableBefore(r.db, after, r.installation, r.time, now);
    }
  }

  lemma {:induction false} DeliveryCases(db: Db, i: Id, report: Report, requestId: string, now: Instant)
    requires Inv(db) && Credentialed(db, i)
    ensures var tx := AppendEvent(db, i, report, requestId, now); Inv(tx.db) && Evolves(db, tx.db)
    ensures var tx := AppendEvent(db, i, report, requestId, now); tx.result.Err? ==> tx.db == db
  {
    hide Inv, Evolves, AppendEvent, Credentialed, Entitled;
    CredentialedIsEntitled(db, i, report.source);
    AppendEventIsSound(db, i, report, requestId, now);
    AppendEventFrame(db, i, report, requestId, now);
  }

  // --- what is late later was late before ---

  lemma {:induction false} LateBefore(r: Reporting, s: Reporting)
    requires s.sent == r.sent && s.installation == r.installation && Evolves(r.db, s.db) && r.installation in s.db.specs
    requires r.installation in r.db.events && forall n | n in s.admitted :: n in r.admitted
    requires Usable(s.db, r.installation, s.time) ==> Usable(r.db, r.installation, r.time)
    ensures LateStages(s) <= LateStages(r)
  {
    hide ValidReport, KeyIsFree, Usable, Evolves;
    forall n | 0 <= n < |s.sent| && IsLate(s, n) ensures IsLate(r, n) {
      FreeBefore(r.db, s.db, r.installation, r.sent[n]);
    }
  }

  /** The store is the same, and nobody else can be authenticated. */
  lemma {:induction false} LateSame(r: Reporting, s: Reporting)
    requires s.sent == r.sent && s.installation == r.installation && s.db == r.db
    requires forall n | n in s.admitted :: n in r.admitted || Usable(r.db, r.installation, r.time)
    requires Usable(s.db, r.installation, s.time) ==> Usable(r.db, r.installation, r.time)
    ensures LateStages(s) <= LateStages(r)
  {
    hide ValidReport, KeyIsFree, Usable;
  }

  lemma {:induction false} SpecHasEvents(db: Db, i: Id)
    requires Inv(db) && i in db.specs
    ensures i in db.events
  {
    hide Inv, History;
    HistoryOf(db, i);
  }

  // --- one lemma per kind of step ---

  /** Another post that the server stores is a stage on the way: what can be granted behind it could be granted before,
      through that post. */
  lemma {:induction false} GrantableBeforeDelivery(
    r: Reporting, n: nat, requestId: string, now: Instant, hops: set<Stage>)
    requires ReportingSound(r) && n < |r.sent| && n in r.admitted
    requires AppendEvent(r.db, r.installation, r.sent[n], requestId, now).result.Ok?
    requires forall report | report == r.sent[n] && IsLate(r, n) :: report.stage in hops
    requires r.queue != []
    requires Grantable(AppendEvent(r.db, r.installation, r.sent[n], requestId, now).db, r.installation, r.queue[0], hops)
    ensures Grantable(r.db, r.installation, r.queue[0], hops)
  {
    hide ReportingSound, AppendEvent, ValidReport, FindEvent, Histories, Reachable, Inv, FilesFit, Follows, PassFits;
    hide Usable;
    hide Accepted;
    var i, report := r.installation, r.sent[n];
    SoundParts(r);
    AnsweredIsValid(r.db, i, report, requestId, now);
    if report == r.queue[0] {
      AcceptedIsGrantable(r.db, i, report, requestId, now, hops);
    } else {
      HistoriesHold(r.db);
      AppendEventCases(r.db, i, report, requestId, now);
      if FindEvent(r.db.events[i], report.key).None? {
        HistoryOf(r.db, i);
        BehindStored(r.db, i, Event(report, now, requestId), now, r.queue[0], hops);
      }
    }
  }

  lemma {:induction false} BehindStored(db: Db, i: Id, e: Event, now: Instant, report: Report, hops: set<Stage>)
    requires i in db.events && i in db.specs && Follows(db.events[i], e) && e.report != report && e.report.stage in hops
    requires EventsOf(db, i) == db.events[i] && Grantable(Accepted(db, i, e, now), i, report, hops)
    ensures Grantable(db, i, report, hops)
  {
    hide ValidReport, Reachable, FindEvent, Accepted;
    var b := Accepted(db, i, e, now);
    AcceptedIsStored(db, i, e, now);
    FoundBehind(db.events[i], e, report.key);
    if !Has(db, i, report) {
      assert KeyIsFree(db, i, report);
      assert CurrentStage(b, i) == Some(e.report.stage);
      ReachableBefore(CurrentStage(db, i).value, e.report.stage, report.stage, hops);
    }
  }

  lemma {:induction false} AcceptedIsStored(db: Db, i: Id, e: Event, now: Instant)
    requires i in db.events
    ensures var b := Accepted(db, i, e, now); i in b.events && b.events[i] == db.events[i] + [e]
    ensures CurrentStage(Accepted(db, i, e, now), i) == Some(e.report.stage)
  {
  }

  /** What is found under a key with one event more. */
  lemma {:induction false} FoundBehind(events: seq<Event>, e: Event, key: string)
    ensures FindEvent(events + [e], key)
      == if FindEvent(events, key).Some? then FindEvent(events, key) else if e.report.key == key then Some(e) else None
    decreases |events|
  {
    if events == [] {
      assert events + [e] == [e];
    } else {
      assert (events + [e])[1..] == events[1..] + [e];
      FoundBehind(events[1..], e, key);
    }
  }

  lemma {:induction false} DeliverTakes(r: Reporting, n: nat, requestId: string, now: Instant)
    requires ReportingSound(r) && r.queue != [] && n < |r.sent| && n in r.admitted && r.time <= now
    requires CanTake(Advance(r, Deliver(n, requestId, now)))
    ensures CanTake(r)
  {
    hide ReportingSound, AppendEvent, Inv, Evolves, Credentialed, FilesFit, PassFits, Grantable, Usable, OtherWork;
    hide Authenticated, Scannable, LateStages, Keyed;
    SoundParts(r);
    var i, report := r.installation, r.sent[n];
    var w := r.(time := now, admitted := r.admitted - multiset{n});
    var s := Delivered(w, n, requestId, now);
    var tx := AppendEvent(r.db, i, report, requestId, now);
    assert s == Advance(r, Deliver(n, requestId, now)) && s.db == tx.db;
    DeliveryCases(r.db, i, report, requestId, now);
    UsableEarlier(r, tx.db, now);
    if !HeadIsAnswered(r.progress) {
      if tx.result.Ok? && IsAwaited(r, n) {
        AwaitedIsHead(r);
        AcceptedIsGrantable(r.db, i, report, requestId, now, Hops(r));
      } else {
        assert Grantable(s.db, i, r.queue[0], Hops(s));
        GrantedThere(s.db, r.db, i, r.queue[0], Hops(s));
        LateBefore(r, s);
        GrantableMore(s.db, i, r.queue[0], Hops(s), Hops(r));
        if tx.result.Ok? {
          LateIsHop(r, n);
          GrantableBeforeDelivery(r, n, requestId, now, Hops(r));
        }
      }
    }
  }

  lemma {:induction false} AwaitedIsHead(r: Reporting)
    requires PassFits(r) && r.progress.Awaiting? && r.progress.consumed == 0
    ensures r.queue != [] && r.sent != [] && r.sent[|r.sent| - 1] == r.queue[0]
  {
    hide Scannable;
  }

  lemma {:induction false} GrantedThere(later: Db, db: Db, i: Id, report: Report, hops: set<Stage>)
    requires Grantable(later, i, report, hops) && Inv(db) && Credentialed(db, i) && Evolves(db, later)
    ensures i in later.specs && i in db.specs && i in db.events
  {
    hide Inv, Evolves, Credentialed, Has, KeyIsFree, Reachable, ValidReport, CurrentStage;
    LaterSpecs(db, later, i);
    SpecHasEvents(db, i);
  }

  lemma {:induction false} LateIsHop(r: Reporting, n: nat)
    requires n < |r.sent|
    ensures IsLate(r, n) ==> r.sent[n].stage in Hops(r)
  {
    hide IsLate;
  }

  lemma {:induction false} OtherWorkTakes(r: Reporting, after: Db)
    requires ReportingSound(r) && r.queue != [] && OtherWork(r.db, after, r.installation, r.others)
    requires CanTake(r.(db := after))
    ensures CanTake(r)
  {
    hide ReportingSound, Inv, Evolves, Credentialed, FilesFit, PassFits, Grantable, Usable, Scannable, FromQueue, Keyed;
    hide LateStages, QueueReports, EventsOf;
    SoundParts(r);
    UsableEarlier(r, after, r.time);
    var s := r.(db := after);
    if !HeadIsAnswered(r.progress) {
      GrantedThere(after, r.db, r.installation, r.queue[0], Hops(s));
      LateBefore(r, s);
      GrantableMore(after, r.installation, r.queue[0], Hops(s), Hops(r));
      GrantableBefore(r.db, after, r.installation, r.queue[0], r.others, Hops(r));
    }
  }

  lemma {:induction false} AdmitTakes(r: Reporting, n: nat, proof: Proof, now: Instant)
    requires ReportingSound(r) && r.queue != [] && n < |r.sent| && r.time <= now
    requires Authenticated(r.db, r.installation, proof, now).Ok?
    requires CanTake(r.(time := now, admitted := r.admitted + multiset{n}))
    ensures CanTake(r)
  {
    hide ReportingSound, Inv, Credentialed, FilesFit, PassFits, Grantable, Authenticated, LineSize, LateStages, Keyed;
    SoundParts(r);
    AcceptedIsUsable(r.db, r.installation, proof, now);
    var s := r.(time := now, admitted := r.admitted + multiset{n});
    LateSame(r, s);
    if !HeadIsAnswered(r.progress) {
      GrantableMore(r.db, r.installation, r.queue[0], Hops(s), Hops(r));
      ScannedWhileAwaiting(r);
    }
  }

  lemma {:induction false} ScannedWhileAwaiting(r: Reporting)
    requires PassFits(r)
    ensures r.progress.Awaiting? ==> Scannable(r.queue)
  {
    hide Scannable;
  }

  lemma {:induction false} NewPostIsNotAdmitted(r: Reporting)
    requires FilesFit(r)
    ensures |r.sent| !in r.admitted
  {
    hide Keyed;
  }

  /** The same head, and nothing taken off or lost. */
  ghost predicate HeadStays(r: Reporting, s: Reporting) {
    r.queue != [] && s.queue != [] && s.queue[0] == r.queue[0] && s.drained == r.drained && s.lost == r.lost
  }

  lemma {:induction false} EnqueueTakes(r: Reporting, report: Report)
    requires r.queue != [] && !CanTake(r)
    ensures !CanTake(r.(queue := r.queue + [report], enqueued := r.enqueued + [report]))
  {
    hide Grantable, Usable, LineSize, LateStages;
    var longer := r.queue + [report];
    var s := r.(queue := longer, enqueued := r.enqueued + [report]);
    assert longer[0] == r.queue[0];
    LateSame(r, s);
    assert forall k | 0 <= k < |r.queue| :: longer[k] == r.queue[k];
    if CanTake(s) && !HeadIsAnswered(r.progress) {
      GrantableMore(r.db, r.installation, r.queue[0], Hops(s), Hops(r));
    }
  }

  /** A post of the head adds its own stage to the late ones, which does not help it. */
  lemma {:induction false} LatePosted(r: Reporting, s: Reporting, report: Report)
    requires s.sent == r.sent + [report] && s.installation == r.installation && s.db == r.db
    requires s.admitted == r.admitted && s.time == r.time
    ensures LateStages(s) <= LateStages(r) + {report.stage}
  {
    hide ValidReport, KeyIsFree, Usable;
    forall n | 0 <= n < |s.sent| && IsLate(s, n) ensures s.sent[n].stage in LateStages(r) + {report.stage} {
      if n < |r.sent| {
        assert IsLate(r, n);
      }
    }
  }

  lemma {:induction false} GrantableWithoutItself(db: Db, i: Id, report: Report, hops: set<Stage>, more: set<Stage>)
    requires Grantable(db, i, report, more) && more <= hops + {report.stage}
    ensures Grantable(db, i, report, hops)
  {
    hide Has, KeyIsFree, ValidReport, CurrentStage, Reachable;
    if !Has(db, i, report) {
      ReachableBetween(CurrentStage(db, i).value, report.stage, more, hops);
    }
  }

  lemma {:induction false} PostTakes(r: Reporting)
    requires FilesFit(r) && r.progress.Draining? && r.progress.consumed < |r.queue| && !CanTake(r)
    ensures !CanTake(Advance(r, Post))
  {
    hide FilesFit, Grantable, Usable, LineSize, AppendEvent, OtherWork, Authenticated, Keyed, Scannable, Delivered;
    hide LateStages;
    NewPostIsNotAdmitted(r);
    var s := Advance(r, Post);
    if CanTake(s) && !HeadIsAnswered(r.progress) {
      LatePosted(r, s, r.queue[0]);
      GrantableWithoutItself(r.db, r.installation, r.queue[0], Hops(r), Hops(s));
    }
  }

  /** Steps that neither post nor touch the store. */
  lemma {:induction false} PassStepTakes(r: Reporting, s: Reporting)
    requires r.queue != [] && s.queue == r.queue && s.sent == r.sent && s.admitted == r.admitted && s.db == r.db
    requires s.installation == r.installation && s.others == r.others && s.time == r.time && (s.alive ==> r.alive)
    requires HeadIsAnswered(s.progress) ==> HeadIsAnswered(r.progress)
    requires HeadIsAdmitted(s) ==> HeadIsAdmitted(r)
    requires CanTake(s)
    ensures CanTake(r)
  {
    hide Grantable, Usable, Scannable, LateStages, HeadIsAnswered, HeadIsAdmitted;
    LateSame(r, s);
    if !HeadIsAnswered(r.progress) {
      GrantableMore(r.db, r.installation, r.queue[0], Hops(s), Hops(r));
    }
  }

  lemma {:induction false} FileStepTakes(r: Reporting, step: Step)
    requires FilesFit(r) && PassFits(r) && r.queue != [] && !CanTake(r)
    requires !step.Admit? && !step.Deliver? && !step.Elsewhere?
    ensures !CanTake(Advance(r, step))
  {
    hide FilesFit, Grantable, Usable, LineSize, AppendEvent, OtherWork, Authenticated, Keyed, Scannable, Delivered;
    hide LateStages, Hops;
    var s := Advance(r, step);
    match step
    case Enqueue(report) => EnqueueTakes(r, report);
    case Post =>
      if r.progress.Draining? && r.progress.consumed < |r.queue| {
        PostTakes(r);
      }
    case _ =>
      if CanTake(s) {
        PassStepTakes(r, s);
      }
  }

  lemma {:induction false} StepKeepsHead(r: Reporting, step: Step)
    requires PassFits(r) && r.queue != [] && !CanTake(r)
    ensures HeadStays(r, Advance(r, step))
  {
    hide Grantable, Usable, LineSize, AppendEvent, OtherWork, Authenticated, Keyed, Scannable, Hops;
    assert r.lost + [] == r.lost;
  }

  /** The condition holds before every step after which it holds, and before every step that takes the head off. */
  lemma {:induction false} StepTakes(r: Reporting, step: Step)
    requires ReportingSound(r) && r.queue != [] && !CanTake(r)
    ensures !CanTake(Advance(r, step)) && HeadStays(r, Advance(r, step))
  {
    hide ReportingSound, Inv, Evolves, Credentialed, PassFits, FilesFit, CanTake, Authenticated, OtherWork, HeadStays;
    hide Delivered, Rest, Keyed;
    SoundParts(r);
    StepKeepsHead(r, step);
    match step
    case Admit(n, proof, now) =>
      if n < |r.sent| && r.time <= now && Authenticated(r.db, r.installation, proof, now).Ok?
        && CanTake(Advance(r, step)) {
        AdmitTakes(r, n, proof, now);
      }
    case Deliver(n, requestId, now) =>
      if n < |r.sent| && n in r.admitted && r.time <= now && CanTake(Advance(r, step)) {
        DeliverTakes(r, n, requestId, now);
      }
    case Elsewhere(after) =>
      if OtherWork(r.db, after, r.installation, r.others) && CanTake(Advance(r, step)) {
        OtherWorkTakes(r, after);
      }
    case _ => FileStepTakes(r, step);
  }

  /** Once it does not hold it never does again, and the head stays. */
  lemma {:induction false} NothingTaken(r: Reporting, steps: seq<Step>)
    requires ReportingSound(r) && r.queue != [] && !CanTake(r)
    ensures ReportingSound(Steps(r, steps)) && !CanTake(Steps(r, steps)) && HeadStays(r, Steps(r, steps))
    decreases |steps|
  {
    hide ReportingSound, CanTake, Steps, Advance;
    StepsUnfold(r, steps);
    if steps != [] {
      var front, last := steps[..|steps| - 1], steps[|steps| - 1];
      NothingTaken(r, front);
      StepTakes(Steps(r, front), last);
      AdvanceSound(Steps(r, front), last);
    }
  }
  function OtherKey(n: nat): string {
    "other:" + Decimal(n)
  }

  lemma {:induction false} OtherKeysDiffer(m: nat, n: nat)
    requires OtherKey(m) == OtherKey(n)
    ensures m == n
  {
    assert OtherKey(m)[6..] == Decimal(m) && OtherKey(n)[6..] == Decimal(n);
    DecimalInjective(m, n);
  }

  lemma {:induction false} FreshNumber(events: seq<Event>, numbers: set<nat>) returns (n: nat)
    requires |numbers| > |events|
    ensures n in numbers && forall k | 0 <= k < |events| :: events[k].report.key != OtherKey(n)
    decreases |events|
  {
    hide OtherKey;
    if events == [] {
      n :| n in numbers;
    } else if m :| m in numbers && events[0].report.key == OtherKey(m) {
      n := FreshNumber(events[1..], numbers - {m});
      if OtherKey(n) == OtherKey(m) {
        OtherKeysDiffer(n, m);
        assert false;
      }
      assert forall k | 1 <= k < |events| :: events[k] == events[1..][k - 1];
    } else {
      n := FreshNumber(events[1..], numbers);
      assert forall k | 1 <= k < |events| :: events[k] == events[1..][k - 1];
    }
  }

  lemma {:induction false} OtherKeyIsValid(n: nat)
    requires n < 100
    ensures ValidKey(OtherKey(n)) && !HasPrefix(OtherKey(n), QUEUE_KEY)
  {
    hide Decimal;
    assert Pow10(2) == 100;
    DecimalSize(n, 2);
    assert OtherKey(n)[0] == 'o' && QUEUE_KEY[0] == 'r';
    forall k | 0 <= k < |OtherKey(n)| ensures KeyChar(OtherKey(n)[k]) {
      if k >= 6 {
        assert OtherKey(n)[k] == Decimal(n)[k - 6];
      }
    }
  }

  function SomeSource(stage: Stage): (source: Source)
    ensures SourceAllowed(stage, source)
  {
    match stage
    case Created | Queued | PxeBooted => Server
    case FirstBoot => Finalizer
    case Validating | Success => Validator
    case _ => Installer
  }

  function OthersReport(stage: Stage, n: nat): Report {
    Report(stage, SomeSource(stage), 0, OtherKey(n), "", "", map[])
  }

  lemma {:induction false} OthersReportIsValid(stage: Stage, n: nat)
    requires stage != Failed && n < 100
    ensures ValidReport(OthersReport(stage, n)) && !FromQueue(OthersReport(stage, n))
  {
    OtherKeyIsValid(n);
    hide OtherKey, ValidKey;
    assert Blank("");
  }

  function Below(n: nat): (r: set<nat>)
    ensures |r| == n && forall k | k in r :: k < n
  {
    if n == 0 then {} else Below(n - 1) + {n - 1}
  }

  lemma {:induction false} FewEvents(db: Db, i: Id)
    requires Inv(db) && i in db.specs
    ensures i in db.events && |db.events[i]| <= 11
  {
    hide Inv;
    HistoryOf(db, i);
    PathIsShort(StagesOf(db.events[i]));
  }

  /** One more event that is not the queue's. */
  lemma {:induction false} OthersEvent(events: seq<Event>, e: Event)
    requires !FromQueue(e.report)
    ensures QueueReports(events + [e]) == QueueReports(events)
  {
    assert (events + [e])[..|events|] == events;
  }

  lemma {:induction false} OthersReportIsTaken(db: Db, i: Id, stage: Stage, n: nat)
    requires Inv(db) && Credentialed(db, i) && i in db.specs && i in db.events && n < 100
    requires !Terminal(stage) && CanAdvance(CurrentStage(db, i), stage)
    requires forall k | 0 <= k < |db.events[i]| :: db.events[i][k].report.key != OtherKey(n)
    ensures var other := OthersReport(stage, n); var after := AppendEvent(db, i, other, "", 1).db;
      after == WithEvent(db, i, Event(other, 1, "")) && Inv(after) && Evolves(db, after)
  {
    hide Inv, Credentialed, Entitled, Evolves, AppendEvent, ValidReport, Histories, History, FindEvent, OtherKey;
    var other := OthersReport(stage, n);
    HistoryOf(db, i);
    OthersReportIsValid(stage, n);
    HistoriesHold(db);
    AppendEventCases(db, i, other, "", 1);
    CredentialedIsEntitled(db, i, other.source);
    AppendEventIsSound(db, i, other, "", 1);
    assert Follows(db.events[i], Event(other, 1, ""));
  }

  lemma {:induction false} IsOtherWork(db: Db, i: Id, e: Event, others: set<Stage>)
    requires i in db.events && !FromQueue(e.report) && e.report.stage in others
    requires Inv(WithEvent(db, i, e)) && Evolves(db, WithEvent(db, i, e))
    ensures OtherWork(db, WithEvent(db, i, e), i, others)
  {
    hide FromQueue, QueueReports, Inv, Evolves;
    OthersEvent(db.events[i], e);
    assert EventsOf(WithEvent(db, i, e), i) == EventsOf(db, i) + [e];
  }

  lemma {:induction false} OthersReportNext(db: Db, i: Id, stage: Stage, others: set<Stage>) returns (e: Event)
    requires Inv(db) && Credentialed(db, i) && i in db.specs
    requires stage in others && !Terminal(stage) && CanAdvance(CurrentStage(db, i), stage)
    ensures i in db.events && e.report.stage == stage && !FromQueue(e.report)
    ensures OtherWork(db, WithEvent(db, i, e), i, others)
  {
    hide Inv, Credentialed, Evolves, AppendEvent, ValidReport, FromQueue, QueueReports, OtherKey, EventsOf, OtherWork;
    FewEvents(db, i);
    var n := FreshNumber(db.events[i], Below(12));
    hide Below;
    OthersReportIsTaken(db, i, stage, n);
    OthersReportIsValid(stage, n);
    e := Event(OthersReport(stage, n), 1, "");
    IsOtherWork(db, i, e, others);
  }

  // --- one stage further ---

  /** The same pass over the same queue. */
  ghost predicate SamePass(r: Reporting, s: Reporting) {
    && s.queue == r.queue && s.drained == r.drained && s.alive == r.alive && s.progress == r.progress && s.sent == r.sent
    && s.installation == r.installation && s.others == r.others && s.time == r.time
  }

  /** The installation has got to a stage, and no post of another one is any worse off. */
  ghost predicate Hopped(r: Reporting, s: Reporting, stage: Stage) {
    && SamePass(r, s) && ReportingSound(s) && r.installation in s.db.specs
    && CurrentStage(s.db, r.installation) == Some(stage) && s.db.credentials == r.db.credentials
    && forall n | 0 <= n < |r.sent| && r.sent[n].stage != stage ::
         && (KeyIsFree(r.db, r.installation, r.sent[n]) ==> KeyIsFree(s.db, r.installation, r.sent[n]))
         && (n in r.admitted ==> n in s.admitted)
  }

  lemma {:induction false} HoppedBy(r: Reporting, s: Reporting, e: Event)
    requires r.installation in r.db.events && r.installation in r.db.specs && SamePass(r, s) && ReportingSound(s)
    requires s.db == WithEvent(r.db, r.installation, e)
    requires forall n | 0 <= n < |r.sent| && r.sent[n].stage != e.report.stage ::
      r.sent[n].key != e.report.key && (n in r.admitted ==> n in s.admitted)
    ensures Hopped(r, s, e.report.stage)
  {
    hide ReportingSound, FindEvent;
    var i := r.installation;
    assert s.db.events[i] == r.db.events[i] + [e];
    forall n | 0 <= n < |r.sent| && r.sent[n].stage != e.report.stage
      ensures KeyIsFree(r.db, i, r.sent[n]) ==> KeyIsFree(s.db, i, r.sent[n])
    {
      FoundBehind(r.db.events[i], e, r.sent[n].key);
    }
  }

  lemma {:induction false} PostedKeys(r: Reporting, n: nat)
    requires ReportingSound(r) && n < |r.sent|
    ensures FromQueue(r.sent[n])
    ensures forall m | 0 <= m < |r.sent| && r.sent[m].stage != r.sent[n].stage :: r.sent[m].key != r.sent[n].key
  {
    hide ReportingSound, FromQueue, Keyed, DbSound;
    PostedIsKeyed(r, n);
    forall m | 0 <= m < |r.sent| && r.sent[m].stage != r.sent[n].stage ensures r.sent[m].key != r.sent[n].key {
      PostedIsKeyed(r, m);
      if r.sent[m].key == r.sent[n].key {
        KeyFixesStage(r.sent[m], r.sent[n]);
      }
    }
  }

  lemma {:induction false} OthersKey(r: Reporting, report: Report)
    requires ReportingSound(r) && !FromQueue(report)
    ensures forall n | 0 <= n < |r.sent| :: r.sent[n].key != report.key
  {
    forall n | 0 <= n < |r.sent| ensures r.sent[n].key != report.key {
      hide ReportingSound, Keyed, DbSound;
      PostedIsKeyed(r, n);
    }
  }

  lemma {:induction false} OthersHop(r: Reporting, stage: Stage) returns (steps: seq<Step>)
    requires ReportingSound(r) && r.installation in r.db.specs && stage in r.others
    requires !Terminal(stage) && CanAdvance(CurrentStage(r.db, r.installation), stage)
    ensures Hopped(r, Steps(r, steps), stage)
  {
    hide ReportingSound, Steps, FromQueue, Inv, Credentialed, OtherWork, AppendEvent, Authenticated, LineSize;
    hide CurrentStage;
    hide CanAdvance, FilesFit, PassFits, Hopped;
    SoundParts(r);
    var e := OthersReportNext(r.db, r.installation, stage, r.others);
    var hop := Step.Elsewhere(WithEvent(r.db, r.installation, e));
    OnlyStep(r, hop);
    OtherWorkSound(r, WithEvent(r.db, r.installation, e));
    OthersKey(r, e.report);
    HoppedBy(r, Steps(r, [hop]), e);
    steps := [hop];
  }

  /** The next stage under an unused key is accepted. */
  lemma {:induction false} NextIsAccepted(db: Db, i: Id, report: Report, now: Instant)
    requires Inv(db) && i in db.specs && ValidReport(report) && KeyIsFree(db, i, report)
    requires CanAdvance(CurrentStage(db, i), report.stage)
    ensures AppendEvent(db, i, report, "", now).result.Ok?
    ensures !Terminal(report.stage) ==> AppendEvent(db, i, report, "", now).db == WithEvent(db, i, Event(report, now, ""))
  {
    hide Inv, AppendEvent, ValidReport, Histories, History, FindEvent, CanAdvance;
    HistoriesHold(db);
    HistoryOf(db, i);
    ValidReportSource(report);
    AppendEventCases(db, i, report, "", now);
    assert Follows(db.events[i], Event(report, now, ""));
  }

  /** A late post is delivered while the answer to another one is awaited. */
  lemma {:induction false} DeliverHop(r: Reporting, n: nat)
    requires ReportingSound(r) && r.installation in r.db.specs && n < |r.sent| && n in r.admitted && !IsAwaited(r, n)
    requires ValidReport(r.sent[n]) && KeyIsFree(r.db, r.installation, r.sent[n])
    requires !Terminal(r.sent[n].stage) && CanAdvance(CurrentStage(r.db, r.installation), r.sent[n].stage)
    ensures Hopped(r, Advance(r, Deliver(n, "", r.time)), r.sent[n].stage)
  {
    hide ReportingSound, FromQueue, Inv, Credentialed, AppendEvent, LineSize, CanAdvance, FilesFit, PassFits, Hopped;
    hide ValidReport, CurrentStage, Terminal, Authenticated, OtherWork, Keyed;
    SoundParts(r);
    NextIsAccepted(r.db, r.installation, r.sent[n], r.time);
    AdvanceSound(r, Deliver(n, "", r.time));
    PostedKeys(r, n);
    HoppedBy(r, Advance(r, Deliver(n, "", r.time)), Event(r.sent[n], r.time, ""));
  }

  lemma {:induction false} LateHop(r: Reporting, n: nat) returns (steps: seq<Step>)
    requires ReportingSound(r) && r.installation in r.db.specs && n < |r.sent| && IsLate(r, n) && !IsAwaited(r, n)
    requires !Terminal(r.sent[n].stage) && CanAdvance(CurrentStage(r.db, r.installation), r.sent[n].stage)
    ensures Hopped(r, Steps(r, steps), r.sent[n].stage)
  {
    hide ReportingSound, Steps, FromQueue, Inv, Credentialed, AppendEvent, Authenticated, CanAdvance, CurrentStage;
    hide ValidReport;
    hide FilesFit, PassFits, KeyIsFree, OtherWork;
    var deliver := Deliver(n, "", r.time);
    if n in r.admitted {
      hide Advance;
      OnlyStep(r, deliver);
      DeliverHop(r, n);
      steps := [deliver];
    } else {
      SoundParts(r);
      var proof := UsableIsAccepted(r.db, r.installation, r.time);
      hide Usable;
      var admit := Admit(n, proof, r.time);
      var s := Advance(r, admit);
      assert s == r.(admitted := r.admitted + multiset{n});
      hide Advance;
      AdvanceSound(r, admit);
      TwoSteps(r, admit, deliver);
      DeliverHop(s, n);
      steps := [admit, deliver];
    }
  }

  /** What could come in behind the stage still can. */
  lemma {:induction false} HopsStay(r: Reporting, s: Reporting, stage: Stage)
    requires Hopped(r, s, stage)
    ensures forall t | t in Hops(r) && t != stage :: t in Hops(s)
  {
    hide ReportingSound, ValidReport, KeyIsFree, CurrentStage;
    forall t | t in LateStages(r) && t != stage ensures t in LateStages(s) {
      var n :| 0 <= n < |r.sent| && IsLate(r, n) && r.sent[n].stage == t;
      assert IsLate(s, n);
    }
  }

  /** The head is posted and authenticated, and the installation is where it can follow. */
  ghost predicate Brought(r: Reporting, s: Reporting) {
    && SamePass(r, s) && ReportingSound(s) && HeadIsAdmitted(s) && s.queue != [] && r.installation in s.db.specs
    && KeyIsFree(s.db, r.installation, s.queue[0])
    && CanAdvance(CurrentStage(s.db, r.installation), s.queue[0].stage)
  }

  lemma {:induction false} HopIsMade(r: Reporting, stage: Stage) returns (steps: seq<Step>)
    requires ReportingSound(r) && HeadIsAdmitted(r) && r.queue != [] && r.installation in r.db.specs
    requires stage in Hops(r) && !Terminal(stage) && stage != r.queue[0].stage
    requires CanAdvance(CurrentStage(r.db, r.installation), stage)
    ensures Hopped(r, Steps(r, steps), stage)
  {
    hide ReportingSound, Steps, Hopped, CanAdvance, CurrentStage, IsLate, FilesFit, PassFits, Inv, Credentialed, Keyed;
    hide FromQueue, Rest, Terminal;
    SoundParts(r);
    AwaitedIsHead(r);
    if stage in r.others {
      steps := OthersHop(r, stage);
    } else {
      var n :| 0 <= n < |r.sent| && IsLate(r, n) && r.sent[n].stage == stage;
      steps := LateHop(r, n);
    }
  }

  lemma {:induction false} AfterHop(r: Reporting, s: Reporting, stage: Stage)
    requires Hopped(r, s, stage) && HeadIsAdmitted(r) && r.queue != [] && stage != r.queue[0].stage
    requires r.sent[|r.sent| - 1] == r.queue[0] && KeyIsFree(r.db, r.installation, r.queue[0])
    ensures HeadIsAdmitted(s) && KeyIsFree(s.db, s.installation, s.queue[0])
  {
    hide ReportingSound, KeyIsFree, CurrentStage;
    assert r.sent[|r.sent| - 1].stage != stage;
  }

  lemma {:induction false} Bring(r: Reporting) returns (steps: seq<Step>)
    requires ReportingSound(r) && HeadIsAdmitted(r) && r.queue != [] && r.installation in r.db.specs
    requires KeyIsFree(r.db, r.installation, r.queue[0]) && CurrentStage(r.db, r.installation).Some?
    requires Reachable(CurrentStage(r.db, r.installation).value, r.queue[0].stage, Hops(r))
    ensures Brought(r, Steps(r, steps))
    decreases 10 - Rank(CurrentStage(r.db, r.installation).value)
  {
    StepsUnfold(r, []);
    hide ReportingSound, Steps, KeyIsFree, CurrentStage, Reachable, CanAdvance, Terminal, Hops, FilesFit, PassFits, Inv;
    hide Credentialed, Scannable;
    var current, target := CurrentStage(r.db, r.installation), r.queue[0].stage;
    if CanAdvance(current, target) {
      steps := [];
    } else {
      SoundParts(r);
      AwaitedIsHead(r);
      var stage := NextHop(current.value, target, Hops(r));
      var hop := HopIsMade(r, stage);
      var s := Steps(r, hop);
      AfterHop(r, s, stage);
      HopsStay(r, s, stage);
      hide Hopped;
      ReachableBetween(stage, target, Hops(r), Hops(s));
      HoppedTo(r, s, stage);
      var more := Bring(s);
      MoreSteps(r, hop, more);
      steps := hop + more;
    }
  }

  lemma {:induction false} HoppedTo(r: Reporting, s: Reporting, stage: Stage)
    requires Hopped(r, s, stage)
    ensures SamePass(r, s) && ReportingSound(s) && s.installation in s.db.specs
    ensures CurrentStage(s.db, s.installation) == Some(stage)
  {
    hide ReportingSound, CurrentStage, KeyIsFree;
  }

  // --- the head is posted, authenticated and accepted ---

  /** The server would take the head, whose post it has authenticated. */
  ghost predicate Acceptable(r: Reporting, s: Reporting) {
    && SamePass(r, s) && ReportingSound(s) && HeadIsAdmitted(s) && s.queue != []
    && AppendEvent(s.db, s.installation, s.queue[0], "", s.time).result.Ok?
  }

  lemma {:induction false} MakeAcceptable(r: Reporting) returns (steps: seq<Step>)
    requires ReportingSound(r) && HeadIsAdmitted(r) && r.queue != []
    requires Grantable(r.db, r.installation, r.queue[0], Hops(r))
    ensures Acceptable(r, Steps(r, steps))
  {
    hide ReportingSound, Steps, FromQueue, Inv, Credentialed, AppendEvent, Reachable, ValidReport, CurrentStage, Hops;
    hide FilesFit, PassFits, Keyed, Has, KeyIsFree, CanAdvance;
    StepsUnfold(r, []);
    SoundParts(r);
    if Has(r.db, r.installation, r.queue[0]) {
      steps := [];
      HadIsAccepted(r.db, r.installation, r.queue[0], r.time);
    } else {
      steps := Bring(r);
      var s := Steps(r, steps);
      SoundParts(s);
      NextIsAccepted(s.db, s.installation, s.queue[0], s.time);
    }
  }

  lemma {:induction false} HadIsAccepted(db: Db, i: Id, report: Report, now: Instant)
    requires Inv(db) && i in db.specs && ValidReport(report) && Has(db, i, report)
    ensures AppendEvent(db, i, report, "", now).result.Ok?
  {
    hide Inv, AppendEvent, ValidReport, Histories, FindEvent;
    HistoriesHold(db);
    AppendEventCases(db, i, report, "", now);
  }

  /** The pass has the answer, and nothing was taken off since. */
  ghost predicate Answered(r: Reporting, s: Reporting) {
    HeadIsAnswered(s.progress) && s.queue == r.queue && s.drained == r.drained && ReportingSound(s)
  }

  lemma {:induction false} AnswerAdmitted(r: Reporting)
    requires HeadIsAdmitted(r) && r.queue != [] && r.sent[|r.sent| - 1] == r.queue[0]
    requires AppendEvent(r.db, r.installation, r.queue[0], "", r.time).result.Ok?
    ensures var s := Advance(r, Deliver(|r.sent| - 1, "", r.time));
      HeadIsAnswered(s.progress) && s.queue == r.queue && s.drained == r.drained
  {
    hide AppendEvent, OtherWork, Authenticated, Keyed;
  }

  lemma {:induction false} AdmittedIsAnswered(r: Reporting) returns (steps: seq<Step>)
    requires ReportingSound(r) && HeadIsAdmitted(r) && r.queue != []
    requires Grantable(r.db, r.installation, r.queue[0], Hops(r))
    ensures Answered(r, Steps(r, steps))
  {
    hide ReportingSound, Steps, Advance, Grantable, Hops, FilesFit, PassFits, Inv, Credentialed, Keyed, AppendEvent;
    var before := MakeAcceptable(r);
    var s := Steps(r, before);
    SoundParts(s);
    AwaitedIsHead(s);
    var deliver := Deliver(|s.sent| - 1, "", s.time);
    AnswerAdmitted(s);
    AdvanceSound(s, deliver);
    OneStepMore(r, before, deliver);
    steps := before + [deliver];
  }

  ghost predicate HeadIsAwaited(r: Reporting, s: Reporting) {
    && s.progress == Awaiting(0, false) && s.queue == r.queue && s.drained == r.drained && s.db == r.db
    && s.time == r.time && s.installation == r.installation && s.others == r.others && s.alive == r.alive
    && r.sent <= s.sent && s.admitted == r.admitted
  }

  lemma {:induction false} FirstPost(r: Reporting)
    requires r.queue != [] && r.alive && r.progress == Idle && Scannable(r.queue)
    ensures HeadIsAwaited(r, Advance(Advance(r, StartDrain), Post))
  {
    hide Scannable, AppendEvent, Authenticated, OtherWork, FromQueue, Delivered;
    assert Advance(r, StartDrain) == r.(progress := Draining(0));
  }

  lemma {:induction false} PostAgain(r: Reporting) returns (steps: seq<Step>)
    requires r.queue != [] && r.alive && r.progress.Stopped? && Scannable(r.queue)
    ensures HeadIsAwaited(r, Steps(r, steps))
  {
    hide Steps, Scannable, AppendEvent, Authenticated, OtherWork, FromQueue, Delivered;
    var s := r.(progress := Idle);
    assert r.lost + [] == r.lost;
    assert Advance(r, Interrupt) == s;
    hide Advance;
    OnlyStep(r, Interrupt);
    FirstPost(s);
    TwoSteps(s, StartDrain, Post);
    MoreSteps(r, [Interrupt], [StartDrain, Post]);
    steps := [Interrupt] + [StartDrain, Post];
  }

  lemma {:induction false} PostNext(r: Reporting)
    requires r.queue != [] && r.progress == Draining(0)
    ensures HeadIsAwaited(r, Advance(r, Post))
  {
    hide AppendEvent, Authenticated, OtherWork, Keyed, Delivered;
  }

  lemma {:induction false} PostHead(r: Reporting) returns (steps: seq<Step>)
    requires PassFits(r) && r.queue != [] && r.alive && Scannable(r.queue) && !HeadIsAnswered(r.progress)
    ensures HeadIsAwaited(r, Steps(r, steps))
  {
    hide Steps, Scannable, Advance;
    StepsUnfold(r, []);
    match r.progress {
      case Idle =>
        FirstPost(r);
        TwoSteps(r, StartDrain, Post);
        steps := [StartDrain, Post];
      case Draining(_) =>
        PostNext(r);
        OnlyStep(r, Post);
        steps := [Post];
      case Awaiting(_, _) => steps := [];
      case Stopped(_) => steps := PostAgain(r);
      case Rewriting(_) => assert false;
    }
  }

  lemma {:induction false} LateMore(r: Reporting, s: Reporting)
    requires s.db == r.db && s.time == r.time && s.installation == r.installation && r.sent <= s.sent
    requires forall n | n in r.admitted :: n in s.admitted
    ensures LateStages(r) <= LateStages(s)
  {
    hide ValidReport, KeyIsFree, Usable;
    forall n | 0 <= n < |r.sent| && IsLate(r, n) ensures r.sent[n].stage in LateStages(s) {
      assert IsLate(s, n);
    }
  }

  lemma {:induction false} AdmitLast(r: Reporting) returns (step: Step)
    requires ReportingSound(r) && r.sent != [] && Usable(r.db, r.installation, r.time)
    ensures Advance(r, step) == r.(admitted := r.admitted + multiset{|r.sent| - 1})
  {
    hide ReportingSound, Authenticated, Inv, Credentialed, FilesFit, PassFits, Keyed, AppendEvent, OtherWork;
    SoundParts(r);
    var proof := UsableIsAccepted(r.db, r.installation, r.time);
    step := Admit(|r.sent| - 1, proof, r.time);
  }

  lemma {:induction false} AdmitHead(r: Reporting) returns (steps: seq<Step>)
    requires ReportingSound(r) && r.queue != [] && r.alive && Scannable(r.queue) && !HeadIsAnswered(r.progress)
    requires Usable(r.db, r.installation, r.time)
    ensures var s := Steps(r, steps);
      && HeadIsAdmitted(s) && s.queue == r.queue && s.drained == r.drained && s.db == r.db
      && s.installation == r.installation && ReportingSound(s) && Hops(r) <= Hops(s)
  {
    hide ReportingSound, Steps, Scannable, Advance, Inv, Credentialed, FilesFit, PassFits, LateStages, Usable, Keyed;
    SoundParts(r);
    var before := PostHead(r);
    var s := Steps(r, before);
    StaysSound(r, before);
    SoundParts(s);
    AwaitedIsHead(s);
    var admit := AdmitLast(s);
    AdvanceSound(s, admit);
    OneStepMore(r, before, admit);
    steps := before + [admit];
    LateMore(r, Steps(r, steps));
  }

  // --- and taken off ---

  lemma {:induction false} StoppedTakes(r: Reporting)
    requires r.progress.Stopped? && 1 <= r.progress.consumed <= |r.queue|
    ensures |Advance(r, Truncate).drained| > |r.drained|
  {
    hide AppendEvent, Authenticated, OtherWork, FromQueue, Delivered, Scannable;
  }

  lemma {:induction false} RefusedTakes(r: Reporting) returns (steps: seq<Step>)
    requires r.progress.Awaiting? && 1 <= r.progress.consumed < |r.queue|
    ensures Takes(r, steps)
  {
    hide Steps, AppendEvent, Authenticated, OtherWork, FromQueue, Delivered, Scannable;
    var s := Advance(r, Refused);
    assert s == r.(progress := Stopped(r.progress.consumed));
    hide Advance;
    StoppedTakes(s);
    TwoSteps(r, Refused, Truncate);
    steps := [Refused, Truncate];
  }

  lemma {:induction false} AcknowledgedTakes(r: Reporting) returns (steps: seq<Step>)
    requires r.progress.Awaiting? && r.progress.answered && r.progress.consumed < |r.queue|
    ensures Takes(r, steps)
  {
    hide Steps, AppendEvent, Authenticated, OtherWork, FromQueue, Delivered, Scannable;
    var s := Advance(r, Acknowledge);
    assert s == r.(progress := Draining(r.progress.consumed + 1));
    hide Advance;
    OnlyStep(r, Acknowledge);
    var end := EndOfDrain(s);
    MoreSteps(r, [Acknowledge], end);
    steps := [Acknowledge] + end;
  }

  lemma {:induction false} Finish(r: Reporting) returns (steps: seq<Step>)
    requires ReportingSound(r) && HeadIsAnswered(r.progress) && r.queue != []
    ensures Takes(r, steps)
  {
    SoundParts(r);
    hide ReportingSound, Steps, Scannable, FilesFit, Advance;
    match r.progress {
      case Draining(_) => steps := EndOfDrain(r);
      case Stopped(_) =>
        StoppedTakes(r);
        OnlyStep(r, Truncate);
        steps := [Truncate];
      case Awaiting(_, answered) =>
        if answered {
          steps := AcknowledgedTakes(r);
        } else {
          steps := RefusedTakes(r);
        }
      case _ => assert false;
    }
  }

  lemma {:induction false} WayToTheAnswer(r: Reporting) returns (steps: seq<Step>)
    requires ReportingSound(r) && CanTake(r)
    ensures Answered(r, Steps(r, steps))
  {
    StepsUnfold(r, []);
    hide ReportingSound, Steps, Scannable, Grantable, Usable, HeadIsAdmitted;
    if HeadIsAnswered(r.progress) {
      steps := [];
    } else if HeadIsAdmitted(r) {
      steps := AdmittedIsAnswered(r);
    } else {
      var before := AdmitHead(r);
      var s := Steps(r, before);
      GrantableMore(r.db, r.installation, r.queue[0], Hops(r), Hops(s));
      var more := AdmittedIsAnswered(s);
      MoreSteps(r, before, more);
      steps := before + more;
    }
  }

  /** The exact condition. From any sound state with an event on the queue, some continuation takes the head off if and
      only if the daemon is alive and either it already has the answer, or the server can grant the report and the post
      is authenticated already, or still can be. */
  lemma {:induction false} HeadIsTakenExactly(r: Reporting)
    requires ReportingSound(r) && r.queue != []
    ensures (exists steps :: Takes(r, steps)) <==> CanTake(r)
  {
    hide ReportingSound, Steps, CanTake;
    if steps :| Takes(r, steps) {
      if !CanTake(r) {
        NothingTaken(r, steps);
        assert false;
      }
    }
    if CanTake(r) {
      var before := WayToTheAnswer(r);
      var end := Finish(Steps(r, before));
      MoreSteps(r, before, end);
      assert Takes(r, before + end);
    }
  }

  /** In particular in every state that any run from the start gets to, whatever was lost on the way. */
  lemma {:induction false} HeadIsTakenInEveryRun(start: Reporting, steps: seq<Step>)
    requires AtStart(start) && Steps(start, steps).queue != []
    ensures var r := Steps(start, steps); (exists more :: Takes(r, more)) <==> CanTake(r)
  {
    hide AtStart, ReportingSound, Steps, CanTake, Takes;
    StartSound(start);
    StaysSound(start, steps);
    HeadIsTakenExactly(Steps(start, steps));
  }

  // ---------------------------------------------------------------------------
  // Ways to stop
  // ---------------------------------------------------------------------------

  /** Why the daemon, between two passes, can never take the head off. */
  ghost predicate Hopeless(r: Reporting)
    requires r.queue != []
  {
    var i, head := r.installation, r.queue[0];
    || !ValidReport(head)
    || (i in r.db.events && FindEvent(r.db.events[i], head.key).Some? && !Has(r.db, i, head))
    || (KeyIsFree(r.db, i, head) && CurrentStage(r.db, i).Some?
        && Unreachable(CurrentStage(r.db, i).value, head.stage, r.others, LateStages(r)))
    || !Scannable(r.queue)
    || !Usable(r.db, i, r.time)
  }

  /** The stage has been passed, or is not in turn and neither the others nor a late post will bring what is missing. */
  predicate Unreachable(current: Stage, target: Stage, others: set<Stage>, late: set<Stage>) {
    Rank(current) >= Rank(target) || (others <= ELSEWHERE && !InTurn(current, target, late))
  }

  lemma {:induction false} UnreachableIsNotReached(
    current: Stage, target: Stage, others: set<Stage>, late: set<Stage>)
    requires Unreachable(current, target, others, late)
    ensures !Reachable(current, target, others + late)
  {
    hide Reachable, InTurn;
    if Reachable(current, target, others + late) {
      ReachableRises(current, target, others + late);
      ReachableBetween(current, target, others + late, ELSEWHERE + late);
      ReachableFromElsewhere(current, target, late);
      assert false;
    }
  }

  lemma {:induction false} HopelessCannotTake(r: Reporting)
    requires r.queue != [] && r.progress == Idle && Hopeless(r)
    ensures !CanTake(r)
  {
    hide ValidReport, FindEvent, Reachable, Usable, Scannable, CurrentStage, Unreachable, LateStages;
    var i, head := r.installation, r.queue[0];
    if CanTake(r) && !Has(r.db, i, head) {
      assert Reachable(CurrentStage(r.db, i).value, head.stage, Hops(r));
      if Unreachable(CurrentStage(r.db, i).value, head.stage, r.others, LateStages(r)) {
        UnreachableIsNotReached(CurrentStage(r.db, i).value, head.stage, r.others, LateStages(r));
      }
    }
  }

  /** A report that is invalid, whose key the server has with other content, whose stage has been passed, or whose stage
      needs another one that nothing brings any more; a line that is too long anywhere on the queue; a credential that
      is revoked or expired: each of them stops the queue for good. A terminal stage passes every other one. */
  lemma {:induction false} HopelessStops(r: Reporting, steps: seq<Step>)
    requires ReportingSound(r) && r.queue != [] && r.progress == Idle && Hopeless(r)
    ensures HeadStays(r, Steps(r, steps)) && !Takes(r, steps)
  {
    hide ReportingSound, Steps, Hopeless, CanTake;
    HopelessCannotTake(r);
    NothingTaken(r, steps);
  }

  lemma {:induction false} HopefulCanTake(r: Reporting)
    requires ReportingSound(r) && r.queue != [] && r.progress == Idle && r.alive && r.installation in r.db.specs
    requires r.others == ELSEWHERE && !Hopeless(r)
    ensures CanTake(r)
  {
    hide ReportingSound, Inv, ValidReport, FindEvent, Reachable, Usable, Scannable, CurrentStage, InTurn, History;
    hide LateStages;
    hide FilesFit, PassFits;
    SoundParts(r);
    HistoryOf(r.db, r.installation);
    if !Has(r.db, r.installation, r.queue[0]) {
      ReachableFromElsewhere(CurrentStage(r.db, r.installation).value, r.queue[0].stage, LateStages(r));
    }
  }

  /** And nothing else does: for a daemon that is alive and an installation that exists, with the server and the first
      boot as the only others, these are all the ways to stop. */
  lemma {:induction false} StopsExactly(r: Reporting)
    requires ReportingSound(r) && r.queue != [] && r.progress == Idle && r.alive && r.installation in r.db.specs
    requires r.others == ELSEWHERE
    ensures (forall steps :: !Takes(r, steps)) <==> Hopeless(r)
  {
    hide ReportingSound, Steps, Hopeless, CanTake, Takes;
    HeadIsTakenExactly(r);
    if Hopeless(r) {
      HopelessCannotTake(r);
    } else {
      HopefulCanTake(r);
    }
  }

  /** An event under a key that the server has with other content comes to a halt at the head of the queue. */
  lemma {:induction false} ReusedKeyStopsTheQueue(r: Reporting, steps: seq<Step>)
    requires ReportingSound(r) && r.queue != [] && r.progress == Idle && r.installation in r.db.events
    requires FindEvent(r.db.events[r.installation], r.queue[0].key).Some?
    requires FindEvent(r.db.events[r.installation], r.queue[0].key).value.report != r.queue[0]
    ensures HeadStays(r, Steps(r, steps))
  {
    hide ReportingSound, Steps, ValidReport, KeyIsFree, FindEvent, Unreachable, Scannable, Usable, HeadStays;
    hide LateStages;
    HopelessStops(r, steps);
  }

  /** So does an event behind a stage of the installer that the queue has lost: if that stage was never posted, nothing
      brings it any more, and the event, with everything behind it, stays for ever. */
  lemma {:induction false} LostStageStopsTheQueue(r: Reporting, missing: Stage, steps: seq<Step>)
    requires ReportingSound(r) && r.queue != [] && r.progress == Idle && r.others <= ELSEWHERE
    requires KeyIsFree(r.db, r.installation, r.queue[0]) && CurrentStage(r.db, r.installation).Some?
    requires InstallerStage(missing) && r.queue[0].stage != Failed
    requires Rank(CurrentStage(r.db, r.installation).value) < Rank(missing) < Rank(r.queue[0].stage)
    requires forall n | 0 <= n < |r.sent| :: r.sent[n].stage != missing
    ensures HeadStays(r, Steps(r, steps))
  {
    hide ReportingSound, Steps, ValidReport, KeyIsFree, FindEvent, Scannable, Usable, HeadStays, CurrentStage;
    NotLate(r, missing);
    hide LateStages;
    HopelessStops(r, steps);
  }

  lemma {:induction false} NotLate(r: Reporting, stage: Stage)
    requires forall n | 0 <= n < |r.sent| :: r.sent[n].stage != stage
    ensures stage !in LateStages(r)
  {
    hide KeyIsFree, ValidReport, Usable;
  }

  /** So does every event of an installation that has ended. */
  lemma {:induction false} EndedInstallationStopsTheQueue(r: Reporting, steps: seq<Step>)
    requires ReportingSound(r) && r.queue != [] && r.progress == Idle && r.installation in r.db.specs
    requires CurrentStage(r.db, r.installation).Some? && Terminal(CurrentStage(r.db, r.installation).value)
    ensures HeadStays(r, Steps(r, steps))
  {
    hide ReportingSound, Steps, Hopeless, CurrentStage, HeadStays;
    EndedIsHopeless(r);
    HopelessStops(r, steps);
  }

  lemma {:induction false} EndedIsHopeless(r: Reporting)
    requires ReportingSound(r) && r.queue != [] && r.installation in r.db.specs
    requires CurrentStage(r.db, r.installation).Some? && Terminal(CurrentStage(r.db, r.installation).value)
    ensures Hopeless(r)
  {
    hide ReportingSound, Hopeless, CurrentStage, Inv, Credentialed, FilesFit, PassFits, Usable;
    SoundParts(r);
    EndIsRevoked(r.db, r.installation);
    RevokedIsHopeless(r);
  }

  /** Once an installation has ended its credential is revoked. The event that ended it is stuck when its answer is
      lost: the server has exactly this report, and nobody can be authenticated any more to be told so. */
  lemma {:induction false} LostFinalAnswerStops(r: Reporting, steps: seq<Step>)
    requires ReportingSound(r) && r.queue != [] && r.installation in r.db.specs && r.progress.Awaiting?
    requires CurrentStage(r.db, r.installation).Some? && Terminal(CurrentStage(r.db, r.installation).value)
    ensures var s := Advance(r, Interrupt); HeadStays(r, s) && HeadStays(s, Steps(s, steps))
  {
    hide ReportingSound, Steps, Advance, Hopeless, CurrentStage, Inv, Credentialed, FilesFit, PassFits;
    SoundParts(r);
    var s := InterruptedPass(r);
    AdvanceSound(r, Interrupt);
    EndIsRevoked(r.db, r.installation);
    RevokedIsHopeless(s);
    HopelessStops(s, steps);
  }

  lemma {:induction false} InterruptedPass(r: Reporting) returns (s: Reporting)
    requires r.progress.Awaiting? && r.queue != []
    ensures s == Advance(r, Interrupt) == r.(progress := Idle) && HeadStays(r, s)
  {
    hide AppendEvent, OtherWork, Authenticated;
    assert r.lost + [] == r.lost;
    s := Advance(r, Interrupt);
  }

  lemma {:induction false} RevokedIsHopeless(r: Reporting)
    requires r.queue != [] && !Usable(r.db, r.installation, r.time)
    ensures Hopeless(r)
  {
    hide Usable, ValidReport, Has, KeyIsFree, Unreachable, Scannable, LateStages;
  }

  lemma {:induction false} EndIsRevoked(db: Db, i: Id)
    requires Inv(db) && i in db.specs && CurrentStage(db, i).Some? && Terminal(CurrentStage(db, i).value)
    ensures forall at: Time :: !Usable(db, i, at)
  {
    HistoriesHold(db);
    hide Inv, History;
    CurrentIsLast(db, i);
    assert Coupled(i, db.events[i], db.assignments.Keys, db.credentials);
  }
}
