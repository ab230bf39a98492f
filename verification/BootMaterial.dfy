/** Requests for boot material race with each other and with consumption. None whose load begins after the handoff was
    consumed is ever served, and the preseed of an installation is served at most once. */
module BootMaterial {
  import opened Prelude
  import opened Lifecycle
  import opened Records
  import opened Schema
  import opened Transactions
  import opened StoreInvariant
  import opened StoreSteps
  import opened ControlPlane
  import opened StepsAreFaithful
  import opened Interleavings
  import opened Handoffs

  ghost predicate WasConsumed(trace: seq<Note>, i: Id) {
    exists k :: 0 <= k < |trace| && trace[k].ConsumedFor? && trace[k].installation == i
  }

  /** The request began to load after the installation it asks for had been handed over. */
  ghost predicate Late(trace: seq<Note>, r: nat) {
    exists k :: 0 <= k < |trace| && trace[k].LoadBegan? && trace[k].request == r
                && WasConsumed(trace[..k], trace[k].installation)
  }

  ghost predicate WasServed(trace: seq<Note>, r: nat) {
    exists k :: 0 <= k < |trace| && trace[k].Served? && trace[k].request == r
  }

  lemma {:induction false} ConsumedGrows(trace: seq<Note>, note: Note, i: Id)
    ensures WasConsumed(trace + [note], i) <==> WasConsumed(trace, i) || (note.ConsumedFor? && note.installation == i)
  {
    var longer := trace + [note];
    assert longer[|trace|] == note;
    if k :| 0 <= k < |trace| && trace[k].ConsumedFor? && trace[k].installation == i {
      assert longer[k] == trace[k];
    }
  }

  lemma {:induction false} LateGrows(trace: seq<Note>, note: Note, r: nat)
    ensures Late(trace + [note], r)
      <==> Late(trace, r) || (note.LoadBegan? && note.request == r && WasConsumed(trace, note.installation))
  {
    hide WasConsumed;
    var longer := trace + [note];
    assert longer[..|trace|] == trace && longer[|trace|] == note;
    forall k | 0 <= k < |trace| ensures longer[..k] == trace[..k] && longer[k] == trace[k] {
    }
    if k :| 0 <= k < |trace| && trace[k].LoadBegan? && trace[k].request == r && WasConsumed(trace[..k], trace[k].installation) {
      assert longer[k] == trace[k];
    }
  }

  lemma {:induction false} ServedGrows(trace: seq<Note>, note: Note, r: nat)
    ensures WasServed(trace + [note], r) <==> WasServed(trace, r) || (note.Served? && note.request == r)
  {
    var longer := trace + [note];
    assert longer[|trace|] == note;
    if k :| 0 <= k < |trace| && trace[k].Served? && trace[k].request == r {
      assert longer[k] == trace[k];
    }
  }

  ghost predicate LoadsSound(sys: Sys) {
    && (forall k | 0 <= k < |sys.trace| && sys.trace[k].LoadBegan? :: LoadKnown(sys, sys.trace[k].request, sys.trace[k].installation))
    && (forall r: nat | WasServed(sys.trace, r) :: r < sys.nextRequest && !Late(sys.trace, r))
    && (forall r | r in sys.requests && Admitted(sys.requests[r]) :: !Late(sys.trace, r))
  }

  ghost predicate LoadKnown(sys: Sys, r: nat, i: Id) {
    && r < sys.nextRequest
    && (r in sys.requests ==> IsLoad(sys.requests[r]) && sys.requests[r].installation == i)
  }

  lemma {:induction false} SettledIsNotArmed(db: Db, i: Id)
    requires Inv(db) && ClaimSettled(db, i)
    ensures !IsArmed(db, i)
  {
    hide Histories, TrustSound, ChallengesSound, KeysSound, Logs, SpecsOwned, IdentifiersAttached, IdsDrawn, Apart;
    hide ValidAssignment;
  }

  /** While the installation is armed nothing has been consumed, so a request that passes the gate is not late. */
  lemma {:induction false} ArmedIsNotLate(sys: Sys, r: nat)
    requires Inv(sys.db) && TraceSound(sys) && LoadsSound(sys)
    requires r in sys.requests && IsLoad(sys.requests[r]) && IsArmed(sys.db, sys.requests[r].installation)
    ensures !Late(sys.trace, r)
  {
    hide Inv, Compatible, IsArmed, WasServed;
    if k :| 0 <= k < |sys.trace| && sys.trace[k].LoadBegan? && sys.trace[k].request == r
            && WasConsumed(sys.trace[..k], sys.trace[k].installation)
    {
      var i := sys.trace[k].installation;
      assert LoadKnown(sys, r, i);
      var j :| 0 <= j < k && sys.trace[..k][j].ConsumedFor? && sys.trace[..k][j].installation == i;
      assert Recalled(sys.db, sys.trace[j]);
      RecalledSettled(sys.db, sys.trace[j]);
      SettledIsNotArmed(sys.db, i);
    }
  }

  ghost predicate StepsTo(
    a: Sys, r: nat, begins: bool, was: Option<Request>, next: Option<Request>, note: Option<Note>, b: Sys) {
    && MaterialStep(a.db, r, begins, was, next, note)
    && (begins ==> r == a.nextRequest && b.nextRequest == r + 1)
    && (!begins ==> b.nextRequest == a.nextRequest)
    && (was.Some? ==> r in a.requests && was.value == a.requests[r])
    && b.requests == (if next.Some? then a.requests[r := next.value] else a.requests - {r})
    && b.trace == (if note.Some? then a.trace + [note.value] else a.trace)
  }

  lemma {:induction false} NextStepsTo(sys: Sys, action: Action)
    requires SysValid(sys)
    ensures var e := ActionEffect(sys, action);
      StepsTo(sys, RequestOf(sys, action), action.Begin?, Was(sys, action), e.next, e.note, Next(sys, action))
  {
    ActionIsMaterialStep(sys, action);
    hide ActionEffect, MaterialStep, Inv, Prepared;
  }

  /** After a step only a request that has just begun can have become late. */
  lemma {:induction false} LateStays(
    a: Sys, r: nat, begins: bool, was: Option<Request>, next: Option<Request>, note: Option<Note>, b: Sys, q: nat)
    requires StepsTo(a, r, begins, was, next, note, b) && Late(b.trace, q)
    ensures Late(a.trace, q) || (begins && q == r && note.Some? && note.value.LoadBegan?)
  {
    hide Late, WasConsumed;
    if note.Some? {
      LateGrows(a.trace, note.value, q);
    }
  }

  lemma {:induction false} AdmittedIsNotLate(
    a: Sys, r: nat, begins: bool, was: Option<Request>, next: Option<Request>, note: Option<Note>, b: Sys)
    requires Inv(a.db) && TraceSound(a) && LoadsSound(a) && StepsTo(a, r, begins, was, next, note, b)
    requires next.Some? && Admitted(next.value)
    ensures !Late(b.trace, r)
  {
    if was.value.ReadingAssignment? {
      ArmedIsNotLate(a, r);
    }
    hide Late, Inv, TraceSound, IsArmed;
    if Late(b.trace, r) {
      LateStays(a, r, begins, was, next, note, b, r);
      assert false;
    }
  }

  lemma {:induction false} LoadStaysKnown(
    a: Sys, r: nat, begins: bool, was: Option<Request>, next: Option<Request>, note: Option<Note>, b: Sys, q: nat,
    i: Id)
    requires StepsTo(a, r, begins, was, next, note, b) && LoadKnown(a, q, i)
    ensures LoadKnown(b, q, i)
  {
    hide IsArmed;
  }

  lemma {:induction false} LoadsStep(
    a: Sys, r: nat, begins: bool, was: Option<Request>, next: Option<Request>, note: Option<Note>, b: Sys)
    requires Inv(a.db) && TraceSound(a) && LoadsSound(a) && StepsTo(a, r, begins, was, next, note, b)
    requires forall q | q in a.requests :: q < a.nextRequest
    ensures LoadsSound(b)
  {
    hide Late, Inv, TraceSound, IsArmed, LoadKnown, WasServed;
    forall k | 0 <= k < |b.trace| && b.trace[k].LoadBegan?
      ensures LoadKnown(b, b.trace[k].request, b.trace[k].installation)
    {
      if k < |a.trace| {
        assert b.trace[k] == a.trace[k];
        LoadStaysKnown(a, r, begins, was, next, note, b, b.trace[k].request, b.trace[k].installation);
      } else {
        NewLoadIsKnown(a, r, begins, was, next, note, b);
      }
    }
    forall q | q in b.requests && Admitted(b.requests[q]) ensures !Late(b.trace, q) {
      if q == r {
        AdmittedIsNotLate(a, r, begins, was, next, note, b);
      } else if Late(b.trace, q) {
        LateStays(a, r, begins, was, next, note, b, q);
        assert false;
      }
    }
    forall q: nat | WasServed(b.trace, q) ensures q < b.nextRequest && !Late(b.trace, q) {
      ServedIsNotLate(a, r, begins, was, next, note, b, q);
    }
  }

  lemma {:induction false} NewLoadIsKnown(
    a: Sys, r: nat, begins: bool, was: Option<Request>, next: Option<Request>, note: Option<Note>, b: Sys)
    requires StepsTo(a, r, begins, was, next, note, b) && note.Some? && note.value.LoadBegan?
    ensures LoadKnown(b, note.value.request, note.value.installation)
  {
    hide IsArmed;
  }

  lemma {:induction false} ServedIsNotLate(
    a: Sys, r: nat, begins: bool, was: Option<Request>, next: Option<Request>, note: Option<Note>, b: Sys, q: nat)
    requires LoadsSound(a) && StepsTo(a, r, begins, was, next, note, b) && WasServed(b.trace, q)
    requires forall q | q in a.requests :: q < a.nextRequest
    ensures q < b.nextRequest && !Late(b.trace, q)
  {
    hide Late, IsArmed, LoadKnown, WasServed;
    if note.Some? {
      ServedGrows(a.trace, note.value, q);
    }
    if Late(b.trace, q) {
      LateStays(a, r, begins, was, next, note, b, q);
      assert false;
    }
  }

  // ---------------------------------------------------------------------------
  // The preseed
  // ---------------------------------------------------------------------------

  ghost predicate IsPreseedOf(note: Note, i: Id) {
    note.Served? && note.kind == Preseed && note.installation == i
  }

  ghost predicate PreseedServed(trace: seq<Note>, i: Id) {
    exists k :: 0 <= k < |trace| && IsPreseedOf(trace[k], i)
  }

  lemma {:induction false} PreseedGrows(trace: seq<Note>, note: Note, i: Id)
    ensures PreseedServed(trace + [note], i) <==> PreseedServed(trace, i) || IsPreseedOf(note, i)
  {
    var longer := trace + [note];
    assert longer[|trace|] == note;
    if k :| 0 <= k < |trace| && IsPreseedOf(trace[k], i) {
      assert longer[k] == trace[k];
    }
  }

  /** The preseed of an installation goes from its consumption to one request, and from there to one answer. */
  ghost predicate PreseedSound(sys: Sys) {
    && (forall i | PreseedServed(sys.trace, i) :: WasConsumed(sys.trace, i))
    && (forall r | r in sys.requests && IsDelivery(sys.requests[r]) ::
          WasConsumed(sys.trace, sys.requests[r].installation) && !PreseedServed(sys.trace, sys.requests[r].installation))
    && (forall r, q | r in sys.requests && q in sys.requests && r != q && IsDelivery(sys.requests[r]) && IsDelivery(sys.requests[q]) ::
          sys.requests[r].installation != sys.requests[q].installation)
    && (forall j, k, i | 0 <= j < k < |sys.trace| :: !(IsPreseedOf(sys.trace[j], i) && IsPreseedOf(sys.trace[k], i)))
  }

  predicate IsDelivery(request: Request) {
    request.Delivering? && request.kind == Preseed
  }

  lemma {:induction false} ConsumedOnce(a: Sys, note: Note, b: Db)
    requires TraceSound(a) && Tells(a.db, note, b) && note.ConsumedFor?
    ensures !WasConsumed(a.trace, note.installation)
  {
    if k :| 0 <= k < |a.trace| && a.trace[k].ConsumedFor? && a.trace[k].installation == note.installation {
      hide Tells, Compatible, Recalled;
      assert Recalled(a.db, a.trace[k]);
      RecalledSettled(a.db, a.trace[k]);
      EndedWasArmed(a.db, note, b);
      assert false;
    }
  }

  lemma {:induction false} PreseedNewTrace(
    a: Sys, r: nat, begins: bool, was: Option<Request>, next: Option<Request>, note: Option<Note>, b: Sys, i: Id)
    requires StepsTo(a, r, begins, was, next, note, b)
    ensures WasConsumed(b.trace, i) <==> WasConsumed(a.trace, i) || (note.Some? && note.value.ConsumedFor? && note.value.installation == i)
    ensures PreseedServed(b.trace, i) <==> PreseedServed(a.trace, i) || (note.Some? && IsPreseedOf(note.value, i))
  {
    hide MaterialStep, WasConsumed, PreseedServed;
    if note.Some? {
      ConsumedGrows(a.trace, note.value, i);
      PreseedGrows(a.trace, note.value, i);
    }
  }

  lemma {:induction false} DeliveryComesFrom(
    a: Sys, r: nat, begins: bool, was: Option<Request>, next: Option<Request>, note: Option<Note>, b: Sys)
    requires StepsTo(a, r, begins, was, next, note, b)
    ensures next.Some? && IsDelivery(next.value)
      ==> note.Some? && note.value.ConsumedFor? && note.value.installation == next.value.installation
    ensures note.Some? && note.value.Served? && note.value.kind == Preseed
      ==> next.None? && r in a.requests && IsDelivery(a.requests[r]) && a.requests[r].installation == note.value.installation
  {
    hide IsArmed;
  }

  lemma {:induction false} PreseedStep(
    a: Sys, r: nat, begins: bool, was: Option<Request>, next: Option<Request>, note: Option<Note>, b: Sys)
    requires TraceSound(a) && PreseedSound(a) && StepsTo(a, r, begins, was, next, note, b)
    requires note.Some? ==> Tells(a.db, note.value, b.db)
    ensures PreseedSound(b)
  {
    hide TraceSound, WasConsumed, PreseedServed, Tells, MaterialStep;
    DeliveryComesFrom(a, r, begins, was, next, note, b);
    if note.Some? && note.value.ConsumedFor? {
      ConsumedOnce(a, note.value, b.db);
    }
    forall i
      ensures WasConsumed(b.trace, i) <==> WasConsumed(a.trace, i) || (note.Some? && note.value.ConsumedFor? && note.value.installation == i)
      ensures PreseedServed(b.trace, i) <==> PreseedServed(a.trace, i) || (note.Some? && IsPreseedOf(note.value, i))
    {
      PreseedNewTrace(a, r, begins, was, next, note, b, i);
    }
    forall j, k, i | 0 <= j < k < |b.trace| ensures !(IsPreseedOf(b.trace[j], i) && IsPreseedOf(b.trace[k], i)) {
      if IsPreseedOf(b.trace[j], i) && IsPreseedOf(b.trace[k], i) && k == |a.trace| {
        assert b.trace[j] == a.trace[j];
        SeenPreseed(a.trace, j, i);
      }
    }
  }

  lemma {:induction false} SeenPreseed(trace: seq<Note>, k: nat, i: Id)
    requires k < |trace| && IsPreseedOf(trace[k], i)
    ensures PreseedServed(trace, i)
  {
  }

  // ---------------------------------------------------------------------------
  // Every run
  // ---------------------------------------------------------------------------

  lemma {:induction false} NextIsSound(sys: Sys, action: Action)
    requires SysValid(sys) && TraceSound(sys) && LoadsSound(sys) && PreseedSound(sys)
    ensures LoadsSound(Next(sys, action)) && PreseedSound(Next(sys, action))
  {
    hide Inv, Prepared, TraceSound, LoadsSound, PreseedSound, ActionEffect, StepsTo, Tells, SameClaims, Evolves;
    var e := ActionEffect(sys, action);
    NextStepsTo(sys, action);
    ActionIsFaithful(sys, action);
    LoadsStep(sys, RequestOf(sys, action), action.Begin?, Was(sys, action), e.next, e.note, Next(sys, action));
    PreseedStep(sys, RequestOf(sys, action), action.Begin?, Was(sys, action), e.next, e.note, Next(sys, action));
  }

  lemma {:induction false} RunIsSound(policy: SecureBootPolicy, actions: seq<Action>)
    ensures LoadsSound(Run(policy, actions)) && PreseedSound(Run(policy, actions))
    decreases |actions|
  {
    hide Run, Next, SysValid, TraceSound;
    if actions == [] {
      RunStart(policy);
    } else {
      var front, last := actions[..|actions| - 1], actions[|actions| - 1];
      hide LoadsSound, PreseedSound;
      RunStep(policy, actions);
      RunIsSound(policy, front);
      RunIsValid(policy, front);
      RunTraceIsSound(policy, front);
      NextIsSound(Run(policy, front), last);
    }
  }

  /** No boot material is served to a request whose load began after the installation had been handed over. */
  lemma {:induction false} NoMaterialAfterHandover(
    policy: SecureBootPolicy, actions: seq<Action>, consumed: nat, began: nat, served: nat)
    requires consumed < began < |Run(policy, actions).trace| && served < |Run(policy, actions).trace|
    requires var trace := Run(policy, actions).trace;
      && trace[consumed].ConsumedFor? && trace[began].LoadBegan? && trace[consumed].installation == trace[began].installation
      && trace[served].Served?
    ensures Run(policy, actions).trace[served].request != Run(policy, actions).trace[began].request
  {
    RunIsSound(policy, actions);
    hide Run, PreseedSound;
    var trace := Run(policy, actions).trace;
    assert trace[..began][consumed] == trace[consumed];
    assert WasConsumed(trace[..began], trace[began].installation);
    assert Late(trace, trace[began].request);
    assert WasServed(trace, trace[served].request);
  }

  /** Every preseed that is served belongs to a handover of its installation, and no installation gets two. */
  lemma {:induction false} PreseedServedOnce(policy: SecureBootPolicy, actions: seq<Action>, j: nat)
    requires j < |Run(policy, actions).trace|
    requires Run(policy, actions).trace[j].Served? && Run(policy, actions).trace[j].kind == Preseed
    ensures var trace := Run(policy, actions).trace;
      && (exists c :: 0 <= c < |trace| && trace[c].ConsumedFor? && trace[c].installation == trace[j].installation)
      && forall k :: 0 <= k < |trace| && k != j ==> !IsPreseedOf(trace[k], trace[j].installation)
  {
    RunIsSound(policy, actions);
    hide Run, LoadsSound;
    var trace := Run(policy, actions).trace;
    SeenPreseed(trace, j, trace[j].installation);
    forall k | 0 <= k < |trace| && k != j ensures !IsPreseedOf(trace[k], trace[j].installation) {
      assert !(IsPreseedOf(trace[if k < j then k else j], trace[j].installation)
               && IsPreseedOf(trace[if k < j then j else k], trace[j].installation));
    }
  }
}
